/** How a level is written to, and read back from, the TR-181 store. Most parameters are stored
    as decimal numbers; five are stored as the name of an enumerator. Reading back only asks
    whether the stored text is a prefix of each candidate name in turn. */
module Encoding {
  import opened Text
  import opened Names
  import opened Keys

  /** The outcome of reading a stored text: a level, the level variable left as it was, or the
      exception of `std::stoi`. */
  datatype Decoded = Value(level: int) | Unchanged | Throws

  predicate IsCoded(p: Param) {
    p == ColorTemp || p == DimmingMode || p == BacklightMode || p == SDRGamma || p == ZoomMode
  }

  /** The texts of a coded parameter, in the order in which they are tried when reading. */
  function Texts(p: Param): seq<string>
    requires IsCoded(p)
  {
    match p
    case ColorTemp => ["Standard", "Warm", "Cold", "UserDefined"]
    case DimmingMode => ["Fixed", "Local", "Global"]
    case BacklightMode => ["Manual", "Ambient", "Eco"]
    case SDRGamma => ["1.8", "1.9", "2.0", "2.1", "2.2", "2.3", "2.4", "BT.1886"]
    case ZoomMode => ["TV 16X9 STRETCH", "TV 4X3 PILLARBOX", "TV NORMAL", "TV DIRECT", "TV AUTO", "TV ZOOM", "TV FULL"]
  }

  /** Position of "TV AUTO" among the zoom modes. */
  const AUTO := 4

  /** The HAL's numbers for the enumerators behind Texts, in the same order. */
  datatype Levels = Levels(colorTemp: seq<int>, dimmingMode: seq<int>, backlightMode: seq<int>,
                           sdrGamma: seq<int>, zoomMode: seq<int>)
  {
    function Of(p: Param): seq<int>
      requires IsCoded(p)
    {
      match p
      case ColorTemp => colorTemp
      case DimmingMode => dimmingMode
      case BacklightMode => backlightMode
      case SDRGamma => sdrGamma
      case ZoomMode => zoomMode
    }

    predicate Valid() {
      forall p :: IsCoded(p) ==> |Of(p)| == |Texts(p)| && Distinct(Of(p))
    }
  }

  /** The string stored for a level by updateAVoutputTVParamToHALV2. None stands for an index
      outside the C array of names, where the C++ has no defined result. */
  function Encode(h: Levels, p: Param, level: int): Option<string>
    requires h.Valid()
  {
    if !IsCoded(p) then Some(IntText(level))
    else if level in h.Of(p) then Some(Texts(p)[IndexOf(h.Of(p), level)])
    else if p == ZoomMode then Some("TV AUTO")
    else if p == BacklightMode || p == SDRGamma then Some("Unknown")
    else None
  }

  /** The first name that starts with the stored text: `strncmp(text, name, strlen(text)) == 0`. */
  function Match(text: string, names: seq<string>): (i: nat)
    ensures i <= |names|
    ensures i < |names| ==> text <= names[i]
    ensures forall j :: 0 <= j < i ==> !(text <= names[j])
  {
    if names == [] || text <= names[0] then 0 else 1 + Match(text, names[1..])
  }

  /** The texts that older versions stored for four of the zoom modes, and the modes they mean. */
  const LEGACY_ZOOM: seq<string> := ["16:9", "4:3", "Normal", "Full"]
  const LEGACY_ZOOM_MODE: seq<nat> := [0, 1, 2, 6]

  /** The level that getLocalparam obtains from a stored text. */
  function Decode(h: Levels, p: Param, text: string): Decoded
    requires h.Valid()
  {
    if !IsCoded(p) then
      match Stoi(text)
      case Some(v) => Value(v)
      case None => Throws
    else
      var i := Match(text, Texts(p));
      if i < |Texts(p)| then Value(h.Of(p)[i])
      else
        match p
        case ColorTemp => Value(h.colorTemp[0])
        case BacklightMode => Value(h.backlightMode[0])
        case ZoomMode =>
          var k := Match(text, LEGACY_ZOOM);
          Value(h.zoomMode[if k < |LEGACY_ZOOM| then LEGACY_ZOOM_MODE[k] else AUTO])
        case _ => Unchanged
  }

  // ---------------------------------------------------------------- round trip

  /** A position at which the names of a coded parameter all differ. */
  function Marker(p: Param): nat { if p == ZoomMode then 3 else if p == SDRGamma then 2 else 0 }

  lemma MarkersDiffer(p: Param, i: nat, j: nat)
    requires IsCoded(p) && i < j < |Texts(p)|
    ensures |Texts(p)[i]| > Marker(p) && |Texts(p)[j]| > Marker(p)
    ensures Texts(p)[i][Marker(p)] != Texts(p)[j][Marker(p)]
  {
  }

  /** No name is a prefix of a name tried before it, so each name is found at its own place. */
  lemma MatchFindsName(p: Param, i: nat)
    requires IsCoded(p) && i < |Texts(p)|
    ensures Match(Texts(p)[i], Texts(p)) == i
  {
    var j := Match(Texts(p)[i], Texts(p));
    assert j <= i;
    if j < i { MarkersDiffer(p, j, i); }
  }

  lemma NoTextStartsWithU(p: Param, j: nat)
    requires (p == BacklightMode || p == SDRGamma) && j < |Texts(p)|
    ensures Texts(p)[j] != "" && Texts(p)[j][0] != 'U'
  {
  }

  lemma UnknownMatchesNothing(p: Param)
    requires p == BacklightMode || p == SDRGamma
    ensures Match("Unknown", Texts(p)) == |Texts(p)|
  {
    forall j | 0 <= j < |Texts(p)| ensures !("Unknown" <= Texts(p)[j]) {
      NoTextStartsWithU(p, j);
      assert "Unknown"[0] == 'U';
    }
  }

  lemma NamedRoundTrip(h: Levels, p: Param, level: int)
    requires h.Valid() && IsCoded(p) && level in h.Of(p)
    ensures Decode(h, p, Encode(h, p, level).value) == Value(level)
  {
    MatchFindsName(p, IndexOf(h.Of(p), level));
  }

  lemma UnnamedDoesNot(h: Levels, p: Param, level: int)
    requires h.Valid() && IsCoded(p) && level !in h.Of(p) && Encode(h, p, level).Some?
    ensures Decode(h, p, Encode(h, p, level).value) != Value(level)
  {
    if p == ZoomMode {
      MatchFindsName(p, AUTO);
      assert Texts(p)[AUTO] == "TV AUTO";
    } else {
      UnknownMatchesNothing(p);
    }
  }

  /** Set then get: reading back what was stored gives the level that was written, for every int
      of a numeric parameter and exactly for the named levels of a coded one. */
  lemma RoundTrip(h: Levels, p: Param, level: int)
    requires h.Valid() && IsInt32(level) && Encode(h, p, level).Some?
    ensures Decode(h, p, Encode(h, p, level).value) == Value(level)
            <==> (IsCoded(p) ==> level in h.Of(p))
  {
    if !IsCoded(p) {
      StoiRoundTrip(level);
    } else if level in h.Of(p) {
      NamedRoundTrip(h, p, level);
    } else {
      UnnamedDoesNot(h, p, level);
    }
  }

  /** The only texts that leave the level variable alone belong to DimmingMode and SDRGamma. */
  lemma WhichTextsAreUnrecognised(h: Levels, p: Param, text: string)
    requires h.Valid()
    ensures Decode(h, p, text) == Unchanged
            <==> (p == DimmingMode || p == SDRGamma) && forall i :: 0 <= i < |Texts(p)| ==> !(text <= Texts(p)[i])
  {
  }

  // ---------------------------------------------------------------- every text and every level

  /** What is stored for a level: the decimal number, or for a coded parameter the name in the place of the
      enumerator. */
  lemma StoredText(h: Levels, p: Param, level: int, i: nat)
    requires h.Valid() && (IsCoded(p) ==> i < |h.Of(p)| && h.Of(p)[i] == level)
    ensures Encode(h, p, level) == Some(if IsCoded(p) then Texts(p)[i] else IntText(level))
  {
  }

  /** A stored text is read as the first name that it begins, whole or cut short. */
  lemma ReadName(h: Levels, p: Param, text: string, i: nat)
    requires h.Valid() && IsCoded(p) && i < |Texts(p)|
    requires text <= Texts(p)[i] && forall k :: 0 <= k < i ==> !(text <= Texts(p)[k])
    ensures Decode(h, p, text) == Value(h.Of(p)[i])
  {
  }

  /** Any other text is read as "Standard", "Manual" and "TV AUTO" for ColorTemp, BacklightMode and
      ZoomMode, save that the texts of older versions mean the zoom modes that replaced them; it leaves
      the level alone for DimmingMode and SDRGamma. */
  lemma ReadOther(h: Levels, p: Param, text: string)
    requires h.Valid() && IsCoded(p) && forall i :: 0 <= i < |Texts(p)| ==> !(text <= Texts(p)[i])
    ensures Decode(h, p, text)
            == match p
               case ColorTemp => Decode(h, p, "Standard")
               case BacklightMode => Decode(h, p, "Manual")
               case ZoomMode => Decode(h, p, ReplacedBy(text))
               case _ => Unchanged
  {
    match p {
      case ColorTemp => MatchFindsName(p, 0);
      case BacklightMode => MatchFindsName(p, 0);
      case ZoomMode => ReadOldZoom(h, text);
      case _ =>
    }
  }

  /** The zoom mode that replaced one of older versions. */
  function ReplacedBy(text: string): string {
    if text <= "16:9" then "TV 16X9 STRETCH" else if text <= "4:3" then "TV 4X3 PILLARBOX"
    else if text <= "Normal" then "TV NORMAL" else if text <= "Full" then "TV FULL" else "TV AUTO"
  }

  lemma ReadOldZoom(h: Levels, text: string)
    requires h.Valid() && forall i :: 0 <= i < |Texts(ZoomMode)| ==> !(text <= Texts(ZoomMode)[i])
    ensures Decode(h, ZoomMode, text) == Decode(h, ZoomMode, ReplacedBy(text))
  {
    ZoomTexts();
    LegacyMatch(text);
    assert |Texts(ZoomMode)| == 7 && Match(text, Texts(ZoomMode)) == 7;
    var k := Match(text, LEGACY_ZOOM);
    assert Decode(h, ZoomMode, text) == Value(h.zoomMode[if k < 4 then LEGACY_ZOOM_MODE[k] else AUTO]);
    assert h.Of(ZoomMode) == h.zoomMode;
  }

  lemma ZoomTexts()
    ensures Match("TV 16X9 STRETCH", Texts(ZoomMode)) == 0 && Match("TV 4X3 PILLARBOX", Texts(ZoomMode)) == 1
    ensures Match("TV NORMAL", Texts(ZoomMode)) == 2 && Match("TV AUTO", Texts(ZoomMode)) == 4 && Match("TV FULL", Texts(ZoomMode)) == 6
  {
    MatchFindsName(ZoomMode, 0);
    MatchFindsName(ZoomMode, 1);
    MatchFindsName(ZoomMode, 2);
    MatchFindsName(ZoomMode, 4);
    MatchFindsName(ZoomMode, 6);
  }

  lemma LegacyMatch(text: string)
    ensures Match(text, LEGACY_ZOOM)
            == if text <= "16:9" then 0 else if text <= "4:3" then 1 else if text <= "Normal" then 2 else if text <= "Full" then 3 else 4
  {
    var k := Match(text, LEGACY_ZOOM);
    assert LEGACY_ZOOM[0] == "16:9" && LEGACY_ZOOM[1] == "4:3" && LEGACY_ZOOM[2] == "Normal" && LEGACY_ZOOM[3] == "Full";
  }

  /** What becomes of a level without a name: it is read back as automatic zoom or the manual backlight,
      or, for SDRGamma, not at all. */
  lemma UnnamedReadsBack(h: Levels, p: Param, level: int)
    requires h.Valid() && IsCoded(p) && level !in h.Of(p)
    ensures match p
            case ZoomMode => Encode(h, p, level) == Some("TV AUTO") && Decode(h, p, "TV AUTO") == Value(h.zoomMode[4])
            case BacklightMode => Encode(h, p, level) == Some("Unknown") && Decode(h, p, "Unknown") == Value(h.backlightMode[0])
            case SDRGamma => Encode(h, p, level) == Some("Unknown") && Decode(h, p, "Unknown") == Unchanged
            case _ => Encode(h, p, level) == None
  {
    match p {
      case ZoomMode => MatchFindsName(p, AUTO);
      case BacklightMode => UnknownMatchesNothing(p);
      case SDRGamma => UnknownMatchesNothing(p);
      case _ =>
    }
  }
}
