/** The name tables of the plugin: picture modes, video formats and video sources, each an
    enumerator of the HAL paired with the text used in requests and storage keys. The HAL's
    numbering is not part of the repository, so it is a parameter (Numbering). */
module Names {
  import opened Text

  function IndexOf<T(==)>(s: seq<T>, x: T): (i: nat)
    requires x in s
    ensures i < |s| && s[i] == x && x !in s[..i]
  {
    if s[0] == x then 0
    else
      var i := 1 + IndexOf(s[1..], x);
      assert s[..i] == [s[0]] + s[1..][..i - 1];
      i
  }

  predicate Distinct<T(==)>(s: seq<T>) {
    forall i, j :: 0 <= i < j < |s| ==> s[i] != s[j]
  }

  predicate IsByte(x: int) { 0 <= x < 256 }

  /** `static_cast<uint8_t>` on an int. */
  function Byte(x: int): (b: nat)
    ensures IsByte(b) && (IsByte(x) ==> b == x)
    ensures (x - b) % 256 == 0
  {
    x % 256
  }

  /** Words that a request uses in place of a name. */
  predicate IsKeyword(s: string) { s == "Current" || s == "Global" || s == "none" }

  /** A name that can be told from a keyword and does not disturb a dotted storage key. */
  predicate Plain(s: string) { s != "" && '.' !in s && !IsKeyword(s) }

  /** A static map from enumerators to names together with its reverse map. */
  datatype Table = Table(codes: seq<int>, names: seq<string>) {
    predicate Good() {
      && |codes| == |names|
      && Distinct(codes) && Distinct(names)
      && (forall i :: 0 <= i < |codes| ==> IsByte(codes[i]))
      && (forall i :: 0 <= i < |names| ==> Plain(names[i]))
    }

    /** convert*IndexToStringV2: the empty text when the enumerator has no name. */
    function Name(code: int): string
      requires |codes| == |names|
    {
      if code in codes then names[IndexOf(codes, code)] else ""
    }

    /** Lookup in the reverse map. */
    function Code(name: string): Option<int>
      requires |codes| == |names|
    {
      if name in names then Some(codes[IndexOf(names, name)]) else None
    }

    lemma NameThenCode(code: int)
      requires Good() && code in codes
      ensures Code(Name(code)) == Some(code)
      ensures Plain(Name(code))
    {
      var i := IndexOf(codes, code);
      var j := IndexOf(names, names[i]);
    }

    lemma CodeThenName(name: string)
      requires Good() && name in names
      ensures Code(name).Some? && Code(name).value in codes && Name(Code(name).value) == name
    {
      var i := IndexOf(names, name);
      var j := IndexOf(codes, codes[i]);
    }

    /** Names and enumerators are paired by their places, and nothing else has a name or a meaning. */
    lemma Pairing(code: int, name: string)
      requires Good()
      ensures Code(name) == Some(code) <==> exists i :: 0 <= i < |codes| && codes[i] == code && names[i] == name
      ensures name != "" ==> (Name(code) == name <==> exists i :: 0 <= i < |codes| && codes[i] == code && names[i] == name)
      ensures Name(code) == "" <==> code !in codes
    {
      if code in codes {
        var i := IndexOf(codes, code);
        assert Plain(names[i]);
      }
      if name in names { var j := IndexOf(names, name); }
    }

    /** Different enumerators never share a name. */
    lemma NameInjective(c: int, d: int)
      requires Good() && c in codes && d in codes && Name(c) == Name(d)
      ensures c == d
    {
      NameThenCode(c);
      NameThenCode(d);
    }
  }

  /** The three name tables, and the enumerators VIDEO_FORMAT_NONE and VIDEO_FORMAT_SDR. */
  datatype Tables = NameTables(modes: Table, formats: Table, sources: Table, formatNone: int, formatSdr: int) {
    predicate Good() {
      && modes.Good() && formats.Good() && sources.Good()
      && formatNone in formats.codes && formatSdr in formats.codes
    }
  }

  const PICTURE_MODES: seq<string> := [
    "Sports", "Theater", "Game", "IQ", "Dark", "Bright", "AI PQ", "Standard", "Vivid",
    "EnergySaving", "PQ Disable", "Custom", "Graphics", "Vivid2", "FilmMaker"]

  const VIDEO_FORMATS: seq<string> := ["None", "SDR", "HDR10", "HDR10Plus", "DV", "HLG"]

  const VIDEO_SOURCES: seq<string> := [
    "Analogue", "Composite1", "Composite2", "Component1", "Component2", "HDMI1", "HDMI2",
    "HDMI3", "HDMI4", "VGA", "IP", "Tuner", "SVideo"]

  /** The HAL's numbers for the enumerators, in the order of the name lists above. */
  datatype Numbering = Numbering(modes: seq<int>, formats: seq<int>, sources: seq<int>) {
    predicate Valid() {
      && |modes| == |PICTURE_MODES| && |formats| == |VIDEO_FORMATS| && |sources| == |VIDEO_SOURCES|
      && Distinct(modes) && Distinct(formats) && Distinct(sources)
      && (forall i :: 0 <= i < |modes| ==> IsByte(modes[i]))
      && (forall i :: 0 <= i < |formats| ==> IsByte(formats[i]))
      && (forall i :: 0 <= i < |sources| ==> IsByte(sources[i]))
    }

    /** pqModeMap, videoFormatMap and videoSrcMap. */
    function Tables(): Tables
      requires Valid()
    {
      NameTables(Table(modes, PICTURE_MODES), Table(formats, VIDEO_FORMATS), Table(sources, VIDEO_SOURCES), formats[0], formats[1])
    }
  }

  lemma ModesDiffer(i: nat, j: nat)
    requires i < j < |PICTURE_MODES|
    ensures PICTURE_MODES[i] != PICTURE_MODES[j]
  {
    var a, b := PICTURE_MODES[i], PICTURE_MODES[j];
    assert |a| != |b| || a[0] != b[0];
  }

  lemma FormatsDiffer(i: nat, j: nat)
    requires i < j < |VIDEO_FORMATS|
    ensures VIDEO_FORMATS[i] != VIDEO_FORMATS[j]
  {
    var a, b := VIDEO_FORMATS[i], VIDEO_FORMATS[j];
    assert |a| != |b| || a[0] != b[0];
  }

  lemma SourcesDiffer(i: nat, j: nat)
    requires i < j < |VIDEO_SOURCES|
    ensures VIDEO_SOURCES[i] != VIDEO_SOURCES[j]
  {
    var a, b := VIDEO_SOURCES[i], VIDEO_SOURCES[j];
    assert |a| != |b| || a[0] != b[0] || a[|a| - 1] != b[|b| - 1] || a[|a| / 2] != b[|b| / 2];
  }

  lemma ModeIsPlain(i: nat)
    requires i < |PICTURE_MODES|
    ensures Plain(PICTURE_MODES[i])
  {
    var s := PICTURE_MODES[i];
    assert s[0] != 'n' && (s[0] != 'C' || |s| != 7) && (s[0] != 'G' || |s| != 6);
  }

  lemma FormatIsPlain(i: nat)
    requires i < |VIDEO_FORMATS|
    ensures Plain(VIDEO_FORMATS[i])
  {
    var s := VIDEO_FORMATS[i];
    assert s[0] != 'n' && s[0] != 'C' && s[0] != 'G';
  }

  lemma SourceIsPlain(i: nat)
    requires i < |VIDEO_SOURCES|
    ensures Plain(VIDEO_SOURCES[i])
  {
    var s := VIDEO_SOURCES[i];
    assert s[0] != 'n' && (s[0] != 'C' || |s| != 7) && s[0] != 'G';
  }

  /** VIDEO_FORMAT_NONE is the format named "None", and what it is read as is the one named "SDR". */
  lemma NoneAndSdr(n: Numbering)
    requires n.Valid()
    ensures n.Tables().formats.Name(n.Tables().formatNone) == "None" && n.Tables().formats.Name(n.Tables().formatSdr) == "SDR"
  {
    var t := n.Tables().formats;
    var i, j := IndexOf(t.codes, t.codes[0]), IndexOf(t.codes, t.codes[1]);
    assert i == 0 && j == 1;
  }

  /** The plugin's own name lists meet what the key and context proofs need of a table. */
  lemma TablesAreGood(n: Numbering)
    requires n.Valid()
    ensures n.Tables().Good()
  {
    forall i, j | 0 <= i < j < |PICTURE_MODES| ensures PICTURE_MODES[i] != PICTURE_MODES[j] { ModesDiffer(i, j); }
    forall i, j | 0 <= i < j < |VIDEO_FORMATS| ensures VIDEO_FORMATS[i] != VIDEO_FORMATS[j] { FormatsDiffer(i, j); }
    forall i, j | 0 <= i < j < |VIDEO_SOURCES| ensures VIDEO_SOURCES[i] != VIDEO_SOURCES[j] { SourcesDiffer(i, j); }
    forall i | 0 <= i < |PICTURE_MODES| ensures Plain(PICTURE_MODES[i]) { ModeIsPlain(i); }
    forall i | 0 <= i < |VIDEO_FORMATS| ensures Plain(VIDEO_FORMATS[i]) { FormatIsPlain(i); }
    forall i | 0 <= i < |VIDEO_SOURCES| ensures Plain(VIDEO_SOURCES[i]) { SourceIsPlain(i); }
  }
}
