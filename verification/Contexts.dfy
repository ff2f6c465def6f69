/** Which contexts a request addresses, and whether the context on screen is one of them. */
module Contexts {
  import opened Text
  import opened Names
  import opened Keys

  /** The context part of a JSON request. Each label is missing or an array of names. */
  datatype Request = Request(
    pictureMode: Option<seq<string>>, videoFormat: Option<seq<string>>, videoSource: Option<seq<string>>)

  /** What the HAL reports while the request is handled: the current picture mode's text (None when
      it cannot be read), the current source, and the current format as the HAL gives it. */
  datatype Readings = Readings(picture: Option<string>, source: Option<int>, format: int)

  /** One coordinate of a request: the table of its names, the requested items, and the current
      value as an enumerator (if known) and as text ("" if unknown). */
  datatype Axis = Axis(table: Table, items: Option<seq<string>>, current: Option<int>, currentText: string) {
    predicate Good() { table.Good() }

    /** The current value is known and has a name. */
    predicate Known() {
      Good() && currentText in table.names && current == table.Code(currentText)
    }

    /** isGlobalParam on the label's array. */
    predicate IsGlobal() {
      match items
      case None => true
      case Some(s) => |s| == 0 || (|s| == 1 && (s[0] == "Global" || s[0] == "none"))
    }

    /** The enumerator that one requested item stands for. */
    function Meaning(item: string): Option<int>
      requires Good()
    {
      if item == "Current" then current else table.Code(item)
    }

    function Items(): seq<string> { match items case None => [] case Some(s) => s }

    /** The request names this enumerator, or names none and means all of them. */
    predicate Asks(code: int)
      requires Good()
    {
      IsGlobal() || exists i :: 0 <= i < |Items()| && Meaning(Items()[i]) == Some(code)
    }

    /** The set of enumerators collected by extractPQModes, extractVideoFormats or
        extractVideoSources. */
    method Extract() returns (codes: set<int>)
      requires Good()
      ensures forall c :: c in codes <==> exists i :: 0 <= i < |Items()| && Meaning(Items()[i]) == Some(c)
    {
      codes := {};
      var s := Items();
      for i := 0 to |s|
        invariant forall c :: c in codes <==> exists k :: 0 <= k < i && Meaning(s[k]) == Some(c)
      {
        match Meaning(s[i]) {
          case Some(c) => codes := codes + {c};
          case None =>
        }
      }
    }

    /** isSetRequiredForParam takes every keyword, not only "Current", for the current value. */
    predicate Covers() {
      |Items()| == 0 || exists i :: 0 <= i < |Items()| && (IsKeyword(Items()[i]) || Items()[i] == currentText)
    }

    /** The list that isSetRequiredForParam compares with the current value. */
    method ResolveTexts() returns (texts: seq<string>)
      ensures currentText in texts <==> Covers()
    {
      texts := [];
      var s := Items();
      if |s| == 0 { return [currentText]; }
      for i := 0 to |s|
        invariant currentText in texts <==> exists k :: 0 <= k < i && (IsKeyword(s[k]) || s[k] == currentText)
      {
        texts := texts + [if IsKeyword(s[i]) then currentText else s[i]];
      }
    }

    /** A list that mixes "Global" or "none" with other items, none of them the current value. */
    predicate MixesGlobal() {
      && |Items()| >= 2
      && (exists i :: 0 <= i < |Items()| && (Items()[i] == "Global" || Items()[i] == "none"))
      && (forall i :: 0 <= i < |Items()| ==> Items()[i] != "Current" && Items()[i] != currentText)
    }

    /** The two readings of a request agree on the current value unless the list mixes "Global"
        with other names. */
    lemma AsksCurrent()
      requires Known()
      ensures Asks(current.value) <==> Covers() && !MixesGlobal()
    {
      table.CodeThenName(currentText);
      var s, cur := Items(), current.value;
      forall i | 0 <= i < |s| ensures Meaning(s[i]) == Some(cur) <==> s[i] == "Current" || s[i] == currentText {
        if s[i] in table.names { table.CodeThenName(s[i]); }
      }
      if Covers() && !MixesGlobal() && !IsGlobal() {
        var i :| 0 <= i < |s| && (IsKeyword(s[i]) || s[i] == currentText);
        if s[i] != "Current" && s[i] != currentText {
          assert |s| >= 2;
          var k :| 0 <= k < |s| && (s[k] == "Current" || s[k] == currentText);
          assert Meaning(s[k]) == Some(cur);
        } else {
          assert Meaning(s[i]) == Some(cur);
        }
      }
    }
  }

  /** The current format, with VIDEO_FORMAT_NONE read as SDR. */
  function CurrentFormat(n: Tables, rd: Readings): int
    requires n.Good()
  {
    if rd.format == n.formatNone then n.formatSdr else rd.format
  }

  function ModeAxis(n: Tables, req: Request, rd: Readings): Axis
    requires n.Good()
  {
    var text := match rd.picture case Some(t) => t case None => "";
    Axis(n.modes, req.pictureMode, if rd.picture.Some? then n.modes.Code(text) else None, text)
  }

  function FormatAxis(n: Tables, req: Request, rd: Readings): Axis
    requires n.Good()
  {
    var f := CurrentFormat(n, rd);
    Axis(n.formats, req.videoFormat, Some(f), n.formats.Name(f))
  }

  function SourceAxis(n: Tables, req: Request, rd: Readings): Axis
    requires n.Good()
  {
    Axis(n.sources, req.videoSource, rd.source, match rd.source case Some(s) => n.sources.Name(s) case None => "")
  }

  // ---------------------------------------------------------------- context resolution

  predicate Requested(n: Tables, req: Request, rd: Readings, c: Context)
    requires n.Good()
  {
    && ModeAxis(n, req, rd).Asks(c.mode)
    && FormatAxis(n, req, rd).Asks(c.format)
    && SourceAxis(n, req, rd).Asks(c.source)
  }

  /** The order of std::tie(pq_mode, videoFormatType, videoSrcType). */
  predicate Less(a: Context, b: Context) {
    || a.mode < b.mode
    || (a.mode == b.mode && a.format < b.format)
    || (a.mode == b.mode && a.format == b.format && a.source < b.source)
  }

  predicate StrictlySorted(s: seq<Context>) {
    forall i, j :: 0 <= i < j < |s| ==> Less(s[i], s[j])
  }

  /** The text under which a context is entered in the hash sets. */
  function ContextText(c: Context): string {
    Join([IntText(c.mode), IntText(c.format), IntText(c.source)], '_')
  }

  lemma ContextTextInjective(c: Context, d: Context)
    requires ContextText(c) == ContextText(d)
    ensures c == d
  {
    var a, b := [IntText(c.mode), IntText(c.format), IntText(c.source)], [IntText(d.mode), IntText(d.format), IntText(d.source)];
    forall i: int { IntTextHasNo(i, '_'); }
    JoinInjective(a, b, '_');
    assert a[0] == b[0] && a[1] == b[1] && a[2] == b[2];
    IntTextInjective(c.mode, d.mode);
    IntTextInjective(c.format, d.format);
    IntTextInjective(c.source, d.source);
  }

  lemma OnlyText(c: Context)
    ensures forall d :: ContextText(d) == ContextText(c) <==> d == c
  {
    forall d | ContextText(d) == ContextText(c) ensures d == c { ContextTextInjective(d, c); }
  }

  lemma TailOfSorted(s: seq<Context>)
    requires StrictlySorted(s) && s != []
    ensures forall c :: c in s[1..] <==> c in s && c != s[0]
    ensures forall c :: c in s ==> c == s[0] || Less(s[0], c)
  {
    forall c | c in s[1..] ensures c in s && Less(s[0], c) {
      var i :| 0 <= i < |s| - 1 && s[1..][i] == c;
      assert s[i + 1] == c;
    }
    assert s == [s[0]] + s[1..];
  }

  /** A strictly sorted list is determined by its elements. */
  lemma {:induction false} SortedUnique(s: seq<Context>, t: seq<Context>)
    requires StrictlySorted(s) && StrictlySorted(t)
    requires forall c :: c in s <==> c in t
    ensures s == t
  {
    assert t != [] ==> t[0] in s;
    if s != [] {
      assert s[0] in t;
      TailOfSorted(s);
      TailOfSorted(t);
      assert s[0] == t[0];
      SortedUnique(s[1..], t[1..]);
      assert s == [s[0]] + s[1..] && t == [t[0]] + t[1..];
    }
  }

  /** Adds a context to a sorted list, once. */
  function Insert(s: seq<Context>, c: Context): seq<Context> {
    if s == [] then [c]
    else if s[0] == c then s
    else if Less(c, s[0]) then [c] + s
    else [s[0]] + Insert(s[1..], c)
  }

  lemma {:induction false} InsertSorts(s: seq<Context>, c: Context)
    requires StrictlySorted(s)
    ensures StrictlySorted(Insert(s, c))
    ensures forall d :: d in Insert(s, c) <==> d in s || d == c
  {
    if s != [] && s[0] != c && !Less(c, s[0]) {
      InsertSorts(s[1..], c);
      var r := Insert(s[1..], c);
      assert forall d :: d in s <==> d == s[0] || d in s[1..];
      assert forall i :: 0 <= i < |r| ==> r[i] in r;
      assert forall d :: d in s[1..] ==> Less(s[0], d);
    } else if s != [] {
      assert forall i :: 0 <= i < |s| ==> s[i] == s[0] || Less(s[0], s[i]);
    }
  }

  /** The resolved contexts of a request, as a function: the requested capability contexts in
      order. ResolveIsExact says what it is; GetValidContexts computes it as the plugin does. */
  function Resolve(n: Tables, caps: seq<Context>, req: Request, rd: Readings): seq<Context>
    requires n.Good()
  {
    if caps == [] then []
    else
      var rest := Resolve(n, caps[1..], req, rd);
      if Requested(n, req, rd, caps[0]) then Insert(rest, caps[0]) else rest
  }

  /** Context resolution is exact: the result is strictly sorted, hence free of duplicates, and
      holds exactly the capability contexts whose three coordinates are each requested. */
  lemma {:induction false} ResolveIsExact(n: Tables, caps: seq<Context>, req: Request, rd: Readings)
    requires n.Good()
    ensures StrictlySorted(Resolve(n, caps, req, rd))
    ensures forall c :: c in Resolve(n, caps, req, rd) <==> c in caps && Requested(n, req, rd, c)
  {
    if caps != [] {
      ResolveIsExact(n, caps[1..], req, rd);
      InsertSorts(Resolve(n, caps[1..], req, rd), caps[0]);
    }
  }

  /** A request that is global on every coordinate addresses exactly the capability contexts. */
  lemma GlobalResolvesAll(n: Tables, caps: seq<Context>, req: Request, rd: Readings)
    requires n.Good()
    requires ModeAxis(n, req, rd).IsGlobal() && FormatAxis(n, req, rd).IsGlobal() && SourceAxis(n, req, rd).IsGlobal()
    ensures (set c | c in Resolve(n, caps, req, rd)) == (set c | c in caps)
  {
    ResolveIsExact(n, caps, req, rd);
  }

  /** The same with nothing left to look up: a context is resolved exactly when it is a capability
      context and each label is missing, is empty, is "Global" or "none" alone, lists the coordinate's
      own name, or lists "Current" while the HAL reports that coordinate (VIDEO_FORMAT_NONE counting as
      SDR). Resolved contexts are ordered by mode, then format, then source. */
  lemma ResolvedExactly(n: Tables, caps: seq<Context>, req: Request, rd: Readings, c: Context)
    requires n.Good()
    ensures c in Resolve(n, caps, req, rd) <==>
      && c in caps
      && (req.pictureMode.None? || req.pictureMode.value in [[], ["Global"], ["none"]]
          || (c.mode in n.modes.codes && n.modes.Name(c.mode) in req.pictureMode.value)
          || ("Current" in req.pictureMode.value && c.mode in n.modes.codes && rd.picture == Some(n.modes.Name(c.mode))))
      && (req.videoFormat.None? || req.videoFormat.value in [[], ["Global"], ["none"]]
          || (c.format in n.formats.codes && n.formats.Name(c.format) in req.videoFormat.value)
          || ("Current" in req.videoFormat.value && c.format == if rd.format == n.formatNone then n.formatSdr else rd.format))
      && (req.videoSource.None? || req.videoSource.value in [[], ["Global"], ["none"]]
          || (c.source in n.sources.codes && n.sources.Name(c.source) in req.videoSource.value)
          || ("Current" in req.videoSource.value && rd.source == Some(c.source)))
    ensures
      var r := Resolve(n, caps, req, rd);
      forall i, j :: 0 <= i < j < |r| ==>
        || r[i].mode < r[j].mode
        || (r[i].mode == r[j].mode && r[i].format < r[j].format)
        || (r[i].mode == r[j].mode && r[i].format == r[j].format && r[i].source < r[j].source)
  {
    ResolveIsExact(n, caps, req, rd);
    AsksExactly(ModeAxis(n, req, rd), c.mode);
    AsksExactly(FormatAxis(n, req, rd), c.format);
    AsksExactly(SourceAxis(n, req, rd), c.source);
    if rd.picture.Some? { NameOfCode(n.modes, rd.picture.value, c.mode); }
  }

  lemma AsksExactly(axis: Axis, code: int)
    requires axis.Good()
    ensures axis.Asks(code) <==>
      || axis.items.None? || axis.items.value in [[], ["Global"], ["none"]]
      || (code in axis.table.codes && axis.table.Name(code) in axis.items.value)
      || ("Current" in axis.items.value && axis.current == Some(code))
  {
    var s, t := axis.Items(), axis.table;
    assert axis.IsGlobal() <==> axis.items.None? || s in [[], ["Global"], ["none"]] by {
      if |s| == 1 { assert s == [s[0]]; }
    }
    forall i | 0 <= i < |s|
      ensures axis.Meaning(s[i]) == Some(code)
              <==> if s[i] == "Current" then axis.current == Some(code) else code in t.codes && t.Name(code) == s[i]
    {
      NameOfCode(t, s[i], code);
    }
    if code in t.codes { t.NameThenCode(code); }
    if code in t.codes && t.Name(code) in s {
      var i := IndexOf(s, t.Name(code));
      assert axis.Meaning(s[i]) == Some(code);
    }
    if "Current" in s && axis.current == Some(code) {
      var i := IndexOf(s, "Current");
      assert axis.Meaning(s[i]) == Some(code);
    }
  }

  lemma NameOfCode(t: Table, name: string, code: int)
    requires t.Good()
    ensures t.Code(name) == Some(code) <==> code in t.codes && t.Name(code) == name
  {
    if name in t.names { t.CodeThenName(name); }
    if code in t.codes { t.NameThenCode(code); }
  }

  method SortContexts(v: seq<Context>) returns (r: seq<Context>)
    requires forall i, j :: 0 <= i < j < |v| ==> v[i] != v[j]
    ensures StrictlySorted(r)
    ensures forall c :: c in r <==> c in v
  {
    r := [];
    for i := 0 to |v|
      invariant StrictlySorted(r)
      invariant forall c :: c in r <==> c in v[..i]
    {
      InsertSorts(r, v[i]);
      r := Insert(r, v[i]);
    }
  }

  /** The hash set of "mode_format_source" texts of the capability contexts. */
  method AvailableTexts(s: seq<Context>) returns (available: set<string>)
    ensures forall c :: ContextText(c) in available <==> c in s
  {
    available := {};
    for i := 0 to |s|
      invariant forall c :: ContextText(c) in available <==> c in s[..i]
    {
      OnlyText(s[i]);
      available := available + {ContextText(s[i])};
      assert s[..i + 1] == s[..i] + [s[i]];
    }
    assert s[..|s|] == s;
  }

  /** The contexts found so far, and the texts under which they were recorded as seen. */
  ghost predicate Records(seen: set<string>, valid: seq<Context>) {
    && (forall c :: ContextText(c) in seen <==> c in valid)
    && (forall i, j :: 0 <= i < j < |valid| ==> valid[i] != valid[j])
  }

  /** getValidContextsFromParameters. The three sets are hash sets, so they are visited in an
      arbitrary order; the result does not depend on it. */
  method GetValidContexts(n: Tables, caps: Option<seq<Context>>, req: Request, rd: Readings)
    returns (valid: seq<Context>)
    requires n.Good()
    ensures valid == match caps case None => [] case Some(s) => Resolve(n, s, req, rd)
  {
    if caps.None? { return []; }
    var s := caps.value;
    var available := AvailableTexts(s);
    var modes := CollectModes(n, s, req, rd);
    var sources := CollectSources(n, s, req, rd);
    var formats := CollectFormats(n, s, req, rd);
    ResolveIsExact(n, s, req, rd);
    valid := [];
    if modes != {} && sources != {} && formats != {} {
      var seen := {};
      valid, seen := Product(s, available, modes, formats, sources);
      valid := SortContexts(valid);
    }
    SortedUnique(valid, Resolve(n, s, req, rd));
  }

  method CollectModes(n: Tables, s: seq<Context>, req: Request, rd: Readings) returns (modes: set<int>)
    requires n.Good()
    ensures forall c :: c in s ==> (c.mode in modes <==> ModeAxis(n, req, rd).Asks(c.mode))
  {
    var axis := ModeAxis(n, req, rd);
    modes := axis.Extract();
    if axis.IsGlobal() { modes := modes + set c | c in s :: c.mode; }
  }

  method CollectFormats(n: Tables, s: seq<Context>, req: Request, rd: Readings) returns (formats: set<int>)
    requires n.Good()
    ensures forall c :: c in s ==> (c.format in formats <==> FormatAxis(n, req, rd).Asks(c.format))
  {
    var axis := FormatAxis(n, req, rd);
    formats := axis.Extract();
    if axis.IsGlobal() { formats := formats + set c | c in s :: c.format; }
  }

  method CollectSources(n: Tables, s: seq<Context>, req: Request, rd: Readings) returns (sources: set<int>)
    requires n.Good()
    ensures forall c :: c in s ==> (c.source in sources <==> SourceAxis(n, req, rd).Asks(c.source))
  {
    var axis := SourceAxis(n, req, rd);
    sources := axis.Extract();
    if axis.IsGlobal() { sources := sources + set c | c in s :: c.source; }
  }

  lemma SomeCode(s: set<int>)
    requires s != {}
    ensures exists x: int :: x in s
  {
    assert (forall x: int :: x !in s) ==> s == {};
  }

  /** The outer loop over picture modes. */
  method Product(ghost caps: seq<Context>, available: set<string>, modes: set<int>, formats: set<int>, sources: set<int>)
    returns (valid: seq<Context>, seen: set<string>)
    requires forall c :: ContextText(c) in available <==> c in caps
    ensures Records(seen, valid)
    ensures forall c :: c in valid <==> c in caps && c.mode in modes && c.format in formats && c.source in sources
  {
    valid, seen := [], {};
    var left := modes;
    while left != {}
      invariant left <= modes
      invariant Records(seen, valid)
      invariant forall c :: c in valid <==> c in caps && c.mode in modes && c.mode !in left && c.format in formats && c.source in sources
    {
      SomeCode(left);
      var m: int :| m in left;
      left := left - {m};
      valid, seen := AddFormats(caps, available, m, formats, sources, valid, seen);
    }
  }

  /** The middle loop over formats. */
  method AddFormats(ghost caps: seq<Context>, available: set<string>, m: int, formats: set<int>, sources: set<int>,
                    valid0: seq<Context>, seen0: set<string>)
    returns (valid: seq<Context>, seen: set<string>)
    requires forall c :: ContextText(c) in available <==> c in caps
    requires Records(seen0, valid0)
    ensures Records(seen, valid)
    ensures forall c :: c in valid <==> c in valid0 || (c in caps && c.mode == m && c.format in formats && c.source in sources)
  {
    valid, seen := valid0, seen0;
    var left := formats;
    while left != {}
      invariant left <= formats
      invariant Records(seen, valid)
      invariant forall c :: c in valid <==>
        c in valid0 || (c in caps && c.mode == m && c.format in formats && c.format !in left && c.source in sources)
    {
      SomeCode(left);
      var f: int :| f in left;
      left := left - {f};
      valid, seen := AddSources(caps, available, m, f, sources, valid, seen);
    }
  }

  /** The inner loop over sources, which keeps a combination that is available and not yet seen. */
  method AddSources(ghost caps: seq<Context>, available: set<string>, m: int, f: int, sources: set<int>,
                    valid0: seq<Context>, seen0: set<string>)
    returns (valid: seq<Context>, seen: set<string>)
    requires forall c :: ContextText(c) in available <==> c in caps
    requires Records(seen0, valid0)
    ensures Records(seen, valid)
    ensures forall c :: c in valid <==> c in valid0 || (c in caps && c.mode == m && c.format == f && c.source in sources)
  {
    valid, seen := valid0, seen0;
    var left := sources;
    while left != {}
      invariant left <= sources
      invariant Records(seen, valid)
      invariant forall c :: c in valid <==>
        c in valid0 || (c in caps && c.mode == m && c.format == f && c.source in sources && c.source !in left)
    {
      SomeCode(left);
      var src: int :| src in left;
      left := left - {src};
      var c := Context(m, f, src);
      if ContextText(c) in seen { continue; }
      if ContextText(c) in available {
        OnlyText(c);
        valid := valid + [c];
        seen := seen + {ContextText(c)};
      }
    }
  }

  // ---------------------------------------------------------------- is the screen addressed?

  /** The context on screen, as the HAL reports it. */
  predicate Known(n: Tables, req: Request, rd: Readings)
    requires n.Good()
  {
    ModeAxis(n, req, rd).Known() && FormatAxis(n, req, rd).Known() && SourceAxis(n, req, rd).Known()
  }

  function OnScreen(n: Tables, req: Request, rd: Readings): Context
    requires n.Good() && Known(n, req, rd)
  {
    Context(ModeAxis(n, req, rd).current.value, FormatAxis(n, req, rd).current.value, SourceAxis(n, req, rd).current.value)
  }

  /** What isSetRequiredForParam decides. */
  predicate SetRequired(n: Tables, caps: seq<Context>, req: Request, rd: Readings)
    requires n.Good()
  {
    && ModeAxis(n, req, rd).Covers() && FormatAxis(n, req, rd).Covers() && SourceAxis(n, req, rd).Covers()
    && OnScreenHasCaps(n, Some(caps), req, rd)
  }

  /** The capability context has the three names of the context on screen. */
  predicate CarriesNames(n: Tables, c: Context, req: Request, rd: Readings)
    requires n.Good()
  {
    && n.modes.Name(c.mode) == ModeAxis(n, req, rd).currentText
    && n.sources.Name(c.source) == SourceAxis(n, req, rd).currentText
    && n.formats.Name(c.format) == FormatAxis(n, req, rd).currentText
  }

  predicate OnScreenHasCaps(n: Tables, caps: Option<seq<Context>>, req: Request, rd: Readings)
    requires n.Good()
  {
    caps.Some? && exists i :: 0 <= i < |caps.value| && CarriesNames(n, caps.value[i], req, rd)
  }

  predicate MixesGlobal(n: Tables, req: Request, rd: Readings)
    requires n.Good()
  {
    ModeAxis(n, req, rd).MixesGlobal() || FormatAxis(n, req, rd).MixesGlobal() || SourceAxis(n, req, rd).MixesGlobal()
  }

  /** isSetRequiredForParam. */
  method IsSetRequired(n: Tables, caps: Option<seq<Context>>, req: Request, rd: Readings) returns (required: bool)
    requires n.Good()
    ensures required <==> caps.Some? && SetRequired(n, caps.value, req, rd)
  {
    var mode, format, source := ModeAxis(n, req, rd), FormatAxis(n, req, rd), SourceAxis(n, req, rd);
    var modeTexts := mode.ResolveTexts();
    var formatTexts := format.ResolveTexts();
    var sourceTexts := source.ResolveTexts();
    required := false;
    for i := 0 to |modeTexts|
      invariant mode.currentText in modeTexts[..i] && format.currentText in formatTexts && source.currentText in sourceTexts
                ==> !OnScreenHasCaps(n, caps, req, rd)
    {
      if modeTexts[i] != mode.currentText { continue; }
      var found := MatchFormatsAndSources(n, caps, req, rd, formatTexts, sourceTexts);
      if found { return true; }
    }
  }

  /** The inner loops of isSetRequiredForParam, over formats and sources. */
  method MatchFormatsAndSources(n: Tables, caps: Option<seq<Context>>, req: Request, rd: Readings,
                                formatTexts: seq<string>, sourceTexts: seq<string>) returns (found: bool)
    requires n.Good()
    ensures found <==> OnScreenHasCaps(n, caps, req, rd)
                       && FormatAxis(n, req, rd).currentText in formatTexts && SourceAxis(n, req, rd).currentText in sourceTexts
  {
    var format, source := FormatAxis(n, req, rd), SourceAxis(n, req, rd);
    for j := 0 to |formatTexts|
      invariant format.currentText in formatTexts[..j] && source.currentText in sourceTexts
                ==> !OnScreenHasCaps(n, caps, req, rd)
    {
      if formatTexts[j] != format.currentText { continue; }
      for l := 0 to |sourceTexts|
        invariant source.currentText in sourceTexts[..l] ==> !OnScreenHasCaps(n, caps, req, rd)
      {
        if sourceTexts[l] != source.currentText { continue; }
        if caps.None? { return false; }
        found := FindOnScreen(n, caps.value, req, rd);
        if found { return; }
      }
    }
    found := false;
  }

  /** The innermost loop, over the capability contexts. */
  method FindOnScreen(n: Tables, caps: seq<Context>, req: Request, rd: Readings) returns (found: bool)
    requires n.Good()
    ensures found <==> OnScreenHasCaps(n, Some(caps), req, rd)
  {
    for k := 0 to |caps|
      invariant forall x :: 0 <= x < k ==> !CarriesNames(n, caps[x], req, rd)
    {
      if CarriesNames(n, caps[k], req, rd) { return true; }
    }
    found := false;
  }

  /** The decision with nothing left to look up, whatever the HAL reports: each label is missing, empty,
      holds "Current", "Global" or "none", or holds the text that is current (the empty text if that is
      unknown), and a capability context has the three current texts. */
  lemma SetRequiredMeans(n: Tables, caps: seq<Context>, req: Request, rd: Readings)
    requires n.Good()
    ensures
      var mode := if rd.picture.Some? then rd.picture.value else "";
      var format := n.formats.Name(if rd.format == n.formatNone then n.formatSdr else rd.format);
      var source := if rd.source.Some? then n.sources.Name(rd.source.value) else "";
      SetRequired(n, caps, req, rd) <==>
        && (req.pictureMode.None? || req.pictureMode.value == [] || exists x :: x in ["Current", "Global", "none", mode] && x in req.pictureMode.value)
        && (req.videoFormat.None? || req.videoFormat.value == [] || exists x :: x in ["Current", "Global", "none", format] && x in req.videoFormat.value)
        && (req.videoSource.None? || req.videoSource.value == [] || exists x :: x in ["Current", "Global", "none", source] && x in req.videoSource.value)
        && exists c :: c in caps && n.modes.Name(c.mode) == mode && n.formats.Name(c.format) == format && n.sources.Name(c.source) == source
  {
    CoversMeans(ModeAxis(n, req, rd));
    CoversMeans(FormatAxis(n, req, rd));
    CoversMeans(SourceAxis(n, req, rd));
    if c :| c in caps && CarriesNames(n, c, req, rd) {
      var i := IndexOf(caps, c);
      assert CarriesNames(n, caps[i], req, rd);
    }
  }

  lemma CoversMeans(axis: Axis)
    ensures axis.Covers() <==>
      axis.items.None? || axis.items.value == [] || exists x :: x in ["Current", "Global", "none", axis.currentText] && x in axis.items.value
  {
    var s := axis.Items();
    if x :| x in ["Current", "Global", "none", axis.currentText] && x in s {
      var i := IndexOf(s, x);
      assert IsKeyword(s[i]) || s[i] == axis.currentText;
    }
    if axis.Covers() && |s| > 0 {
      var i :| 0 <= i < |s| && (IsKeyword(s[i]) || s[i] == axis.currentText);
      assert s[i] in ["Current", "Global", "none", axis.currentText] && s[i] in s;
    }
  }

  /** What "known" means, and which context is then on screen. */
  lemma OnScreenMeans(n: Tables, req: Request, rd: Readings)
    requires n.Good()
    ensures
      var format := if rd.format == n.formatNone then n.formatSdr else rd.format;
      && (Known(n, req, rd) <==>
            && rd.picture.Some? && rd.picture.value in n.modes.names && format in n.formats.codes
            && rd.source.Some? && rd.source.value in n.sources.codes)
      && (Known(n, req, rd) ==>
            var c := OnScreen(n, req, rd);
            && c.mode in n.modes.codes && n.modes.Name(c.mode) == rd.picture.value
            && c.format == format && c.source == rd.source.value)
  {
    var format := CurrentFormat(n, rd);
    if rd.picture.Some? && rd.picture.value in n.modes.names { n.modes.CodeThenName(rd.picture.value); }
    NameOfCode(n.formats, n.formats.Name(format), format);
    NamedOrNot(n.formats, format);
    if rd.source.Some? {
      NameOfCode(n.sources, n.sources.Name(rd.source.value), rd.source.value);
      NamedOrNot(n.sources, rd.source.value);
    }
    NotEmpty(n.sources);
  }

  lemma NamedOrNot(t: Table, code: int)
    requires t.Good()
    ensures t.Name(code) in t.names <==> code in t.codes
  {
    NotEmpty(t);
  }

  lemma NotEmpty(t: Table)
    requires t.Good()
    ensures "" !in t.names
  {
    forall i | 0 <= i < |t.names| ensures t.names[i] != "" { assert Plain(t.names[i]); }
  }

  /** The hardware is set exactly when the context on screen is resolved, hence persisted at once,
      unless a list mixes "Global" or "none" with other names. */
  lemma SetRequiredExactly(n: Tables, caps: seq<Context>, req: Request, rd: Readings)
    requires n.Good()
    requires Known(n, req, rd)
    ensures OnScreen(n, req, rd) in Resolve(n, caps, req, rd)
            <==> SetRequired(n, caps, req, rd) && !MixesGlobal(n, req, rd)
  {
    ResolveIsExact(n, caps, req, rd);
    ModeAxis(n, req, rd).AsksCurrent();
    FormatAxis(n, req, rd).AsksCurrent();
    SourceAxis(n, req, rd).AsksCurrent();
    CapsCarryOnScreen(n, caps, req, rd);
  }

  lemma CapsCarryOnScreen(n: Tables, caps: seq<Context>, req: Request, rd: Readings)
    requires n.Good() && Known(n, req, rd)
    ensures OnScreenHasCaps(n, Some(caps), req, rd) <==> OnScreen(n, req, rd) in caps
  {
    var c := OnScreen(n, req, rd);
    forall i | 0 <= i < |caps| ensures CarriesNames(n, caps[i], req, rd) <==> caps[i] == c {
      NamesTellOnScreen(n, caps[i], req, rd);
    }
  }

  lemma NamesTellOnScreen(n: Tables, c: Context, req: Request, rd: Readings)
    requires n.Good() && Known(n, req, rd)
    ensures CarriesNames(n, c, req, rd) <==> c == OnScreen(n, req, rd)
  {
    NameTellsCode(ModeAxis(n, req, rd), c.mode);
    NameTellsCode(FormatAxis(n, req, rd), c.format);
    NameTellsCode(SourceAxis(n, req, rd), c.source);
  }

  lemma NameTellsCode(axis: Axis, code: int)
    requires axis.Known()
    ensures axis.table.Name(code) == axis.currentText <==> code == axis.current.value
  {
    var t := axis.table;
    t.CodeThenName(axis.currentText);
    if code in t.codes { t.NameThenCode(code); }
  }

  /** The two decisions part ways on, for instance, ["Global", another name]: the hardware is set
      although the context on screen is not among the contexts that are persisted. */
  lemma MixedListCounterexample(n: Tables, caps: seq<Context>, req: Request, rd: Readings, other: string)
    requires n.Good()
    requires Known(n, req, rd) && OnScreen(n, req, rd) in caps
    requires !IsKeyword(other) && rd.picture != Some(other)
    requires req == Request(Some(["Global", other]), None, None)
    ensures SetRequired(n, caps, req, rd) && OnScreen(n, req, rd) !in Resolve(n, caps, req, rd)
  {
    MixedAxis(ModeAxis(n, req, rd), other);
    CapsCarryOnScreen(n, caps, req, rd);
    SetRequiredExactly(n, caps, req, rd);
  }

  lemma MixedAxis(axis: Axis, other: string)
    requires axis.Known() && axis.items == Some(["Global", other])
    requires !IsKeyword(other) && axis.currentText != other
    ensures axis.Covers() && axis.MixesGlobal()
  {
    assert axis.Items()[0] == "Global" && axis.Items()[1] == other;
    assert IsKeyword(axis.Items()[0]);
    assert Plain(axis.table.names[IndexOf(axis.table.names, axis.currentText)]);
  }
}
