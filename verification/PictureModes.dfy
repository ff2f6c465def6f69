/** The picture mode chosen per video source and format: kept as text in the TR-181 store, cached
    as an enumerator in the driver, and applied to the hardware for the pair on screen. */
module PictureModes {
  import opened Text
  import opened Names
  import opened Keys

  /** A video source and a video format. */
  datatype Pair = Pair(source: int, format: int)

  /** What does not change: the capability contexts, the supported modes, the name lookups, the
      storage key of a pair, the HAL's default mode for a pair, the source and (raw) format on screen,
      and the format VIDEO_FORMAT_NONE is read as. PluginSetup fills in the plugin's tables and keys. */
  datatype Setup = Setup(
    caps: seq<Context>,
    modes: seq<int>,
    named: Pair -> bool,
    sourceText: int -> string,
    formatText: int -> string,
    modeName: int -> string,
    modeCode: string -> Option<int>,
    key: Pair -> string,
    defaults: Pair -> int,
    source: int,
    rawFormat: int,
    shownFormat: int)
  {
    ghost predicate Good() {
      && (forall i :: 0 <= i < |caps| ==> named(PairOf(caps[i])))
      && named(OnScreen())
      && (forall p: Pair, q: Pair :: named(p) && named(q) && key(p) == key(q) ==> p == q)
      && (forall p: Pair :: named(p) ==> !IsKeyword(sourceText(p.source)) && !IsKeyword(formatText(p.format)))
      && (forall c: int :: modeName(c) != "" ==> modeCode(modeName(c)) == Some(c))
      && (forall t: string :: modeCode(t).Some? ==> t != "" && modeName(modeCode(t).value) == t)
    }

    /** The pair on screen. */
    function OnScreen(): Pair { Pair(source, shownFormat) }
  }

  function PairOf(c: Context): Pair { Pair(c.source, c.format) }

  function PluginSetup(n: Tables, caps: seq<Context>, modes: seq<int>, defaults: Pair -> int, source: int, rawFormat: int): Setup
    requires n.Good()
  {
    Setup(caps, modes,
          (p: Pair) => p.source in n.sources.codes && p.format in n.formats.codes,
          c => n.sources.Name(c), c => n.formats.Name(c), c => n.modes.Name(c), t => n.modes.Code(t),
          (p: Pair) => PictureModeKey(n.sources.Name(p.source), n.formats.Name(p.format)),
          defaults, source, rawFormat, if rawFormat == n.formatNone then n.formatSdr else rawFormat)
  }

  /** The plugin's tables and keys keep all named pairs and all modes apart. */
  lemma PluginSetupIsGood(n: Tables, caps: seq<Context>, modes: seq<int>, defaults: Pair -> int, source: int, rawFormat: int)
    requires n.Good() && source in n.sources.codes && rawFormat in n.formats.codes
    requires forall i :: 0 <= i < |caps| ==> Named(n, caps[i])
    ensures
      var u := PluginSetup(n, caps, modes, defaults, source, rawFormat);
      && u.Good() && u.caps == caps && u.modes == modes && u.defaults == defaults && u.rawFormat == rawFormat
      && u.OnScreen() == Pair(source, if rawFormat == n.formatNone then n.formatSdr else rawFormat)
      && forall p: Pair ::
           && u.sourceText(p.source) == n.sources.Name(p.source) && u.formatText(p.format) == n.formats.Name(p.format)
           && u.key(p) == PictureModeKey(n.sources.Name(p.source), n.formats.Name(p.format))
  {
    var u := PluginSetup(n, caps, modes, defaults, source, rawFormat);
    forall p: Pair | u.named(p) ensures Plain(u.sourceText(p.source)) && Plain(u.formatText(p.format)) {
      n.sources.NameThenCode(p.source);
      n.formats.NameThenCode(p.format);
    }
    forall p: Pair, q: Pair | u.named(p) && u.named(q) && u.key(p) == u.key(q) ensures p == q {
      PictureModeKeyInjective(n.sources.Name(p.source), n.formats.Name(p.format), n.sources.Name(q.source), n.formats.Name(q.format));
      n.sources.NameInjective(p.source, q.source);
      n.formats.NameInjective(p.format, q.format);
    }
    forall c: int | u.modeName(c) != "" ensures u.modeCode(u.modeName(c)) == Some(c) { n.modes.NameThenCode(c); }
    forall t: string | u.modeCode(t).Some? ensures t != "" && u.modeName(u.modeCode(t).value) == t {
      n.modes.CodeThenName(t);
    }
  }

  datatype State = State(store: map<string, string>, driver: map<Pair, int>, hardware: string)

  /** getPictureModeV2's answer for a pair: the stored text, else the name of the HAL's default. */
  function Reported(u: Setup, store: map<string, string>, p: Pair): string {
    if u.key(p) in store then store[u.key(p)] else u.modeName(u.defaults(p))
  }

  // ---------------------------------------------------------------- selection

  /** isValidSource and isValidFormat on a list in which "Global" has been expanded. "Current"
      overrides everything else in the list. */
  predicate Accepts(list: seq<string>, name: string, isCurrent: bool) {
    if "Current" in list then isCurrent else "Global" in list || name in list
  }

  /** A missing label stands for ["Global"]. Empty entries, which a "set" drops, name nothing. */
  function ListOf(items: Option<seq<string>>): seq<string> {
    match items case None => ["Global"] case Some(s) => s
  }

  predicate Selects(u: Setup, sources: seq<string>, formats: seq<string>, c: Context) {
    && Accepts(formats, u.formatText(c.format), c.format == u.rawFormat)
    && Accepts(sources, u.sourceText(c.source), c.source == u.source)
  }

  /** A context that a request addresses; with a mode, it must offer that mode. */
  predicate Wanted(u: Setup, mode: Option<int>, sources: seq<string>, formats: seq<string>, c: Context) {
    (mode.Some? ==> c.mode == mode.value) && Selects(u, sources, formats, c)
  }

  /** The contexts a "set" (with its mode) or a "reset" (without) addresses. */
  function Addressed(u: Setup, mode: Option<int>, sources: Option<seq<string>>, formats: Option<seq<string>>): Context -> bool {
    c => Wanted(u, mode, ListOf(sources), ListOf(formats), c)
  }

  /** The pairs of the wanted contexts among the first k. */
  function Chosen(u: Setup, want: Context -> bool, k: nat): set<Pair>
    requires k <= |u.caps|
  {
    set i | 0 <= i < k && want(u.caps[i]) :: PairOf(u.caps[i])
  }

  // ---------------------------------------------------------------- the effects

  function KeysOf(u: Setup, ps: set<Pair>): set<string> {
    set p | p in ps :: u.key(p)
  }

  /** Every key of a set given one value, the others kept. */
  function Fill<K(==), V>(m: map<K, V>, ks: set<K>, v: V): map<K, V> {
    map x | x in m.Keys + ks :: if x in ks then v else m[x]
  }

  /** Every key of a set given its own value, the others kept. */
  function Overwrite<K(==), V>(m: map<K, V>, ks: set<K>, f: K -> V): map<K, V> {
    map x | x in m.Keys + ks :: if x in ks then f(x) else m[x]
  }

  /** The enumerator of a requested mode name that the platform supports. */
  function Supported(u: Setup, mode: string): Option<int> {
    var code := u.modeCode(mode);
    if code.Some? && code.value in u.modes then code else None
  }

  /** The pairs of a set given one mode. */
  function SetOn(u: Setup, s: State, mode: string, code: int, ps: set<Pair>): State {
    State(Fill(s.store, KeysOf(u, ps), mode), Fill(s.driver, ps, code),
          if u.OnScreen() in ps then mode else s.hardware)
  }

  /** setPictureModeV2, with HAL and TR-181 calls that succeed. */
  function SetEffect(u: Setup, s: State, mode: Option<string>, sources: Option<seq<string>>, formats: Option<seq<string>>): State {
    if mode.None? || Supported(u, mode.value).None? then s
    else
      var code := Supported(u, mode.value);
      SetOn(u, s, mode.value, code.value, Chosen(u, Addressed(u, code, sources, formats), |u.caps|))
  }

  /** The pairs whose default mode has a name. */
  function Defaulted(u: Setup, ps: set<Pair>): set<Pair> {
    set p | p in ps && u.modeName(u.defaults(p)) != ""
  }

  /** The pairs of a set put back to their defaults. A pair whose default mode has no name loses its
      stored text but keeps its driver value. */
  function ResetOn(u: Setup, s: State, ps: set<Pair>): State {
    State(s.store - KeysOf(u, ps), Overwrite(s.driver, Defaulted(u, ps), u.defaults),
          if u.OnScreen() in Defaulted(u, ps) then u.modeName(u.defaults(u.OnScreen())) else s.hardware)
  }

  /** resetPictureModeV2. */
  function ResetEffect(u: Setup, s: State, sources: Option<seq<string>>, formats: Option<seq<string>>): State {
    ResetOn(u, s, Chosen(u, Addressed(u, None, sources, formats), |u.caps|))
  }

  /** syncAvoutputTVPQModeParamsToHALV2's filter on one coordinate. */
  predicate Passes(wanted: string, currentText: string, name: string) {
    || wanted == "Global" || wanted == "none"
    || (if wanted == "Current" then currentText else wanted) == name
  }

  /** A pair that a sync addresses and whose stored text names a mode. */
  predicate Loads(u: Setup, store: map<string, string>, source: string, format: string, p: Pair) {
    && Passes(source, u.sourceText(u.OnScreen().source), u.sourceText(p.source))
    && Passes(format, u.formatText(u.OnScreen().format), u.formatText(p.format))
    && u.key(p) in store && u.modeCode(store[u.key(p)]).Some?
  }

  /** The contexts whose driver value a sync loads. */
  function Loaded(u: Setup, store: map<string, string>, source: string, format: string): Context -> bool {
    c => Loads(u, store, source, format, PairOf(c))
  }

  function StoredCode(u: Setup, store: map<string, string>, p: Pair): int {
    if u.key(p) in store && u.modeCode(store[u.key(p)]).Some? then u.modeCode(store[u.key(p)]).value else 0
  }

  /** The driver values of a set of pairs loaded from the store. */
  function SyncOn(u: Setup, s: State, ps: set<Pair>): State {
    s.(driver := map p | p in s.driver.Keys + ps :: if p in ps then StoredCode(u, s.store, p) else s.driver[p])
  }

  /** syncAvoutputTVPQModeParamsToHALV2. */
  function SyncEffect(u: Setup, s: State, source: string, format: string): State {
    SyncOn(u, s, Chosen(u, Loaded(u, s.store, source, format), |u.caps|))
  }

  // ---------------------------------------------------------------- agreement

  /** The driver holds the mode that would be reported for the pair. */
  predicate AgreesOn(u: Setup, s: State, p: Pair) {
    p in s.driver && u.modeCode(Reported(u, s.store, p)) == Some(s.driver[p])
  }

  predicate Agrees(u: Setup, s: State) {
    forall i :: 0 <= i < |u.caps| ==> AgreesOn(u, s, PairOf(u.caps[i]))
  }

  lemma KeyInKeys(u: Setup, ps: set<Pair>, p: Pair)
    requires u.Good() && u.named(p) && forall q :: q in ps ==> u.named(q)
    ensures u.key(p) in KeysOf(u, ps) <==> p in ps
  {
    if u.key(p) in KeysOf(u, ps) {
      var q :| q in ps && u.key(q) == u.key(p);
      assert q == p;
    }
  }

  /** Which pairs a "set" of a mode (or, without one, a "reset") addresses: a capability context carries
      the pair and offers the mode, and each label is missing, or lists "Current" and the coordinate is
      the one the HAL reports, or lists no "Current" and lists "Global" or the coordinate's own name. */
  predicate PairAddressed(u: Setup, mode: Option<int>, sources: Option<seq<string>>, formats: Option<seq<string>>, p: Pair) {
    && (exists c :: c in u.caps && c.source == p.source && c.format == p.format && (mode.Some? ==> c.mode == mode.value))
    && (sources.None?
        || (if "Current" in sources.value then p.source == u.source
            else "Global" in sources.value || u.sourceText(p.source) in sources.value))
    && (formats.None?
        || (if "Current" in formats.value then p.format == u.rawFormat
            else "Global" in formats.value || u.formatText(p.format) in formats.value))
  }

  lemma ChosenExactly(u: Setup, mode: Option<int>, sources: Option<seq<string>>, formats: Option<seq<string>>, p: Pair)
    ensures p in Chosen(u, Addressed(u, mode, sources, formats), |u.caps|) <==> PairAddressed(u, mode, sources, formats, p)
  {
    var want := Addressed(u, mode, sources, formats);
    if PairAddressed(u, mode, sources, formats, p) {
      var c :| c in u.caps && c.source == p.source && c.format == p.format && (mode.Some? ==> c.mode == mode.value);
      var i := IndexOf(u.caps, c);
      assert want(u.caps[i]) && PairOf(u.caps[i]) == p;
    }
  }

  /** Which modes are supported. */
  lemma SupportedExactly(u: Setup, mode: string, code: int)
    requires u.Good()
    ensures Supported(u, mode) == Some(code) <==> code in u.modes && u.modeName(code) == mode && mode != ""
  {
    if u.modeName(code) == mode && mode != "" { assert u.modeCode(u.modeName(code)) == Some(code); }
    if u.modeCode(mode).Some? { assert u.modeName(u.modeCode(mode).value) == mode; }
  }

  lemma SetOnChosen(u: Setup, s: State, mode: string, sources: Option<seq<string>>, formats: Option<seq<string>>, p: Pair)
    requires u.Good() && u.named(p) && Supported(u, mode).Some?
    ensures
      var code := Supported(u, mode).value;
      var s' := SetEffect(u, s, Some(mode), sources, formats);
      if p in Chosen(u, Addressed(u, Some(code), sources, formats), |u.caps|)
      then u.key(p) in s'.store && s'.store[u.key(p)] == mode && p in s'.driver && s'.driver[p] == code && AgreesOn(u, s', p)
      else (AgreesOn(u, s', p) <==> AgreesOn(u, s, p))
           && (u.key(p) in s'.store <==> u.key(p) in s.store) && (u.key(p) in s.store ==> s'.store[u.key(p)] == s.store[u.key(p)])
           && (p in s'.driver <==> p in s.driver) && (p in s.driver ==> s'.driver[p] == s.driver[p])
  {
    var code := Supported(u, mode).value;
    var ps := Chosen(u, Addressed(u, Some(code), sources, formats), |u.caps|);
    KeyInKeys(u, ps, p);
  }

  /** What a "set" does to one pair. If the requested name is that of a supported mode and the pair is
      addressed, then the store has the name, the driver its enumerator, and the hardware shows it if the
      pair is on screen; otherwise nothing about the pair changes. */
  lemma SetOnPair(u: Setup, s: State, mode: Option<string>, sources: Option<seq<string>>, formats: Option<seq<string>>, p: Pair)
    requires u.Good() && u.named(p)
    ensures
      var s' := SetEffect(u, s, mode, sources, formats);
      && (forall code :: code in u.modes && mode == Some(u.modeName(code)) && u.modeName(code) != "" && PairAddressed(u, Some(code), sources, formats, p) ==>
            && u.key(p) in s'.store && s'.store[u.key(p)] == u.modeName(code)
            && p in s'.driver && s'.driver[p] == code
            && (p == u.OnScreen() ==> s'.hardware == u.modeName(code)))
      && ((forall code :: code in u.modes && mode == Some(u.modeName(code)) && u.modeName(code) != "" ==> !PairAddressed(u, Some(code), sources, formats, p)) ==>
            && (u.key(p) in s'.store <==> u.key(p) in s.store) && (u.key(p) in s.store ==> s'.store[u.key(p)] == s.store[u.key(p)])
            && (p in s'.driver <==> p in s.driver) && (p in s.driver ==> s'.driver[p] == s.driver[p])
            && (p == u.OnScreen() ==> s'.hardware == s.hardware))
  {
    if mode.Some? {
      forall code ensures Supported(u, mode.value) == Some(code) <==> code in u.modes && u.modeName(code) == mode.value && mode.value != "" {
        SupportedExactly(u, mode.value, code);
      }
      if Supported(u, mode.value).Some? {
        var code := Supported(u, mode.value).value;
        SetOnChosen(u, s, mode.value, sources, formats, p);
        ChosenExactly(u, Some(code), sources, formats, p);
        assert u.modeName(code) == mode.value;
      }
    }
  }

  lemma ResetOnChosen(u: Setup, s: State, sources: Option<seq<string>>, formats: Option<seq<string>>, p: Pair)
    requires u.Good() && u.named(p)
    ensures
      var s' := ResetEffect(u, s, sources, formats);
      var d := u.defaults(p);
      if p in Chosen(u, Addressed(u, None, sources, formats), |u.caps|)
      then u.key(p) !in s'.store && (AgreesOn(u, s', p) <==> u.modeName(d) != "")
           && (if u.modeName(d) != "" then p in s'.driver && s'.driver[p] == d
               else (p in s'.driver <==> p in s.driver) && (p in s.driver ==> s'.driver[p] == s.driver[p]))
      else (AgreesOn(u, s', p) <==> AgreesOn(u, s, p))
           && (u.key(p) in s'.store <==> u.key(p) in s.store) && (u.key(p) in s.store ==> s'.store[u.key(p)] == s.store[u.key(p)])
           && (p in s'.driver <==> p in s.driver) && (p in s.driver ==> s'.driver[p] == s.driver[p])
  {
    var ps := Chosen(u, Addressed(u, None, sources, formats), |u.caps|);
    KeyInKeys(u, ps, p);
  }

  /** What a "reset" does to one pair. An addressed pair loses its stored text; if its default mode has a
      name, the driver holds the default, and the hardware shows it if the pair is on screen. Nothing else
      about it changes, and nothing about other pairs. */
  lemma ResetOnPair(u: Setup, s: State, sources: Option<seq<string>>, formats: Option<seq<string>>, p: Pair)
    requires u.Good() && u.named(p)
    ensures
      var s' := ResetEffect(u, s, sources, formats);
      var addressed, name := PairAddressed(u, None, sources, formats, p), u.modeName(u.defaults(p));
      && (if addressed then u.key(p) !in s'.store
          else (u.key(p) in s'.store <==> u.key(p) in s.store) && (u.key(p) in s.store ==> s'.store[u.key(p)] == s.store[u.key(p)]))
      && (if addressed && name != "" then p in s'.driver && s'.driver[p] == u.defaults(p)
          else (p in s'.driver <==> p in s.driver) && (p in s.driver ==> s'.driver[p] == s.driver[p]))
      && (p == u.OnScreen() ==> s'.hardware == if addressed && name != "" then name else s.hardware)
  {
    ResetOnChosen(u, s, sources, formats, p);
    ChosenExactly(u, None, sources, formats, p);
  }

  /** Picking a supported mode keeps cache and store in agreement. */
  lemma SetKeepsAgreement(u: Setup, s: State, mode: Option<string>, sources: Option<seq<string>>, formats: Option<seq<string>>)
    requires u.Good() && Agrees(u, s)
    ensures Agrees(u, SetEffect(u, s, mode, sources, formats))
  {
    if mode.Some? && Supported(u, mode.value).Some? {
      forall i | 0 <= i < |u.caps| ensures AgreesOn(u, SetEffect(u, s, mode, sources, formats), PairOf(u.caps[i])) {
        SetOnChosen(u, s, mode.value, sources, formats, PairOf(u.caps[i]));
      }
    }
  }

  /** A reset keeps the agreement exactly when the default mode of every pair it addresses has a
      name. */
  lemma ResetKeepsAgreementExactly(u: Setup, s: State, sources: Option<seq<string>>, formats: Option<seq<string>>)
    requires u.Good() && Agrees(u, s)
    ensures Agrees(u, ResetEffect(u, s, sources, formats))
            <==> forall p :: p in Chosen(u, Addressed(u, None, sources, formats), |u.caps|) ==> u.modeName(u.defaults(p)) != ""
  {
    var s' := ResetEffect(u, s, sources, formats);
    var ps := Chosen(u, Addressed(u, None, sources, formats), |u.caps|);
    forall i | 0 <= i < |u.caps|
      ensures AgreesOn(u, s', PairOf(u.caps[i]))
              <==> (PairOf(u.caps[i]) in ps ==> u.modeName(u.defaults(PairOf(u.caps[i]))) != "")
    {
      ResetOnChosen(u, s, sources, formats, PairOf(u.caps[i]));
    }
    forall p | p in ps ensures exists i :: 0 <= i < |u.caps| && PairOf(u.caps[i]) == p {}
  }

  lemma SyncOnChosen(u: Setup, s: State, source: string, format: string, p: Pair)
    requires u.Good()
    ensures
      var s' := SyncEffect(u, s, source, format);
      if p in Chosen(u, Loaded(u, s.store, source, format), |u.caps|) then AgreesOn(u, s', p)
      else (AgreesOn(u, s', p) <==> AgreesOn(u, s, p))
           && (p in s'.driver <==> p in s.driver) && (p in s.driver ==> s'.driver[p] == s.driver[p])
  {
  }

  /** What a sync does to one pair. Whatever the driver held, it takes the mode of the stored text, if that
      names one, a capability context carries the pair, and the source and the format asked for are
      "Global", "none", the pair's own, or "Current" with the pair's own on screen; otherwise it keeps what it has. Store and
      hardware stay. */
  lemma SyncOnPair(u: Setup, s: State, source: string, format: string, p: Pair)
    requires u.Good()
    ensures
      var s' := SyncEffect(u, s, source, format);
      var readable := u.key(p) in s.store && u.modeCode(s.store[u.key(p)]).Some?;
      && s'.store == s.store && s'.hardware == s.hardware
      && if && readable && (exists c :: c in u.caps && c.source == p.source && c.format == p.format)
            && (source == "Global" || source == "none" || (source != "Current" && source == u.sourceText(p.source))
                || (source == "Current" && u.sourceText(p.source) == u.sourceText(u.source)))
            && (format == "Global" || format == "none" || (format != "Current" && format == u.formatText(p.format))
                || (format == "Current" && u.formatText(p.format) == u.formatText(u.shownFormat)))
         then p in s'.driver && u.modeCode(s.store[u.key(p)]) == Some(s'.driver[p]) && AgreesOn(u, s', p)
         else (p in s'.driver <==> p in s.driver) && (p in s.driver ==> s'.driver[p] == s.driver[p])
  {
    SyncOnChosen(u, s, source, format, p);
    if c :| c in u.caps && c.source == p.source && c.format == p.format {
      var i := IndexOf(u.caps, c);
      assert PairOf(u.caps[i]) == p;
    }
  }

  lemma SyncKeepsAgreement(u: Setup, s: State, source: string, format: string)
    requires u.Good() && Agrees(u, s)
    ensures Agrees(u, SyncEffect(u, s, source, format))
  {
    forall i | 0 <= i < |u.caps| ensures AgreesOn(u, SyncEffect(u, s, source, format), PairOf(u.caps[i])) {
      SyncOnChosen(u, s, source, format, PairOf(u.caps[i]));
    }
  }

  /** A sync of everything establishes the agreement, from any driver, exactly when the pairs
      without a readable stored text agree already. */
  lemma FullSyncEstablishesAgreement(u: Setup, s: State)
    requires u.Good()
    ensures Agrees(u, SyncEffect(u, s, "Global", "Global"))
            <==> forall i :: 0 <= i < |u.caps| && PairOf(u.caps[i]) !in Chosen(u, Loaded(u, s.store, "Global", "Global"), |u.caps|)
                             ==> AgreesOn(u, s, PairOf(u.caps[i]))
  {
    var s' := SyncEffect(u, s, "Global", "Global");
    forall i | 0 <= i < |u.caps|
      ensures AgreesOn(u, s', PairOf(u.caps[i]))
              <==> PairOf(u.caps[i]) in Chosen(u, Loaded(u, s.store, "Global", "Global"), |u.caps|) || AgreesOn(u, s, PairOf(u.caps[i]))
    {
      SyncOnChosen(u, s, "Global", "Global", PairOf(u.caps[i]));
    }
  }

  /** The hardware shows the mode that is reported for the pair on screen. */
  predicate HardwareAgrees(u: Setup, s: State) {
    s.hardware == Reported(u, s.store, u.OnScreen())
  }

  // ---------------------------------------------------------------- runs

  datatype Request =
    | SetMode(mode: Option<string>, sources: Option<seq<string>>, formats: Option<seq<string>>)
    | ResetMode(sources: Option<seq<string>>, formats: Option<seq<string>>)
    | SyncModes(source: string, format: string)

  function Effect(u: Setup, s: State, r: Request): State {
    match r
    case SetMode(mode, sources, formats) => SetEffect(u, s, mode, sources, formats)
    case ResetMode(sources, formats) => ResetEffect(u, s, sources, formats)
    case SyncModes(source, format) => SyncEffect(u, s, source, format)
  }

  function Effects(u: Setup, s: State, rs: seq<Request>): State
    decreases |rs|
  {
    if rs == [] then s else Effects(u, Effect(u, s, rs[0]), rs[1..])
  }

  predicate DefaultsNamed(u: Setup) {
    && (forall i :: 0 <= i < |u.caps| ==> u.modeName(u.defaults(PairOf(u.caps[i]))) != "")
  }

  lemma HardwareFollows(u: Setup, s: State, r: Request)
    requires u.Good() && DefaultsNamed(u) && HardwareAgrees(u, s)
    ensures HardwareAgrees(u, Effect(u, s, r))
  {
    match r
    case SetMode(mode, sources, formats) =>
      if mode.Some? && Supported(u, mode.value).Some? {
        SetOnChosen(u, s, mode.value, sources, formats, u.OnScreen());
      }
    case ResetMode(sources, formats) =>
      ResetOnChosen(u, s, sources, formats, u.OnScreen());
    case SyncModes(source, format) =>
  }

  /** Over every run of set, reset and sync, cache and hardware keep agreeing with what
      getPictureModeV2 reports. */
  lemma {:induction false} AgreementOverRuns(u: Setup, s: State, rs: seq<Request>)
    requires u.Good() && DefaultsNamed(u) && Agrees(u, s) && HardwareAgrees(u, s)
    ensures Agrees(u, Effects(u, s, rs)) && HardwareAgrees(u, Effects(u, s, rs))
    decreases |rs|
  {
    if rs != [] {
      var r := rs[0];
      HardwareFollows(u, s, r);
      match r {
        case SetMode(mode, sources, formats) => SetKeepsAgreement(u, s, mode, sources, formats);
        case ResetMode(sources, formats) =>
          forall p | p in Chosen(u, Addressed(u, None, sources, formats), |u.caps|) ensures u.modeName(u.defaults(p)) != "" {}
          ResetKeepsAgreementExactly(u, s, sources, formats);
        case SyncModes(source, format) => SyncKeepsAgreement(u, s, source, format);
      }
      AgreementOverRuns(u, Effect(u, s, r), rs[1..]);
    }
  }

  // ---------------------------------------------------------------- the methods

  /** isValidSource and isValidFormat. */
  predicate IsValid(list: set<string>, name: string, isCurrent: bool) {
    if "Current" in list then isCurrent else name in list
  }

  predicate ListSelects(u: Setup, sourceList: set<string>, formatList: set<string>, c: Context) {
    && IsValid(formatList, u.formatText(c.format), c.format == u.rawFormat)
    && IsValid(sourceList, u.sourceText(c.source), c.source == u.source)
  }

  lemma FillNext<K, V>(m: map<K, V>, ks: set<K>, v: V, k: K)
    ensures Fill(m, ks, v)[k := v] == Fill(m, ks + {k}, v)
  {
  }

  lemma OverwriteNext<K, V>(m: map<K, V>, ks: set<K>, f: K -> V, k: K)
    ensures Overwrite(m, ks, f)[k := f(k)] == Overwrite(m, ks + {k}, f)
  {
  }

  lemma KeysNext(u: Setup, ps: set<Pair>, p: Pair)
    ensures KeysOf(u, ps + {p}) == KeysOf(u, ps) + {u.key(p)}
  {
  }

  /** The writes a "set" makes for one pair. */
  function Put(u: Setup, s: State, p: Pair, mode: string, code: int): State {
    State(s.store[u.key(p) := mode], s.driver[p := code], if p == u.OnScreen() then mode else s.hardware)
  }

  /** The writes a "reset" makes for one pair. */
  function Drop(u: Setup, s: State, p: Pair): State {
    var name := u.modeName(u.defaults(p));
    if name == "" then s.(store := s.store - {u.key(p)})
    else State(s.store - {u.key(p)}, s.driver[p := u.defaults(p)], if p == u.OnScreen() then name else s.hardware)
  }

  /** The state after the writes for the wanted contexts among the first k, one after another. */
  function After(u: Setup, s: State, want: Context -> bool, write: (State, Pair) -> State, k: nat): State
    requires k <= |u.caps|
    decreases k
  {
    if k == 0 then s
    else
      var before := After(u, s, want, write, k - 1);
      if want(u.caps[k - 1]) then write(before, PairOf(u.caps[k - 1])) else before
  }

  /** An effect on a set of pairs that grows one write at a time is reached by the loop. */
  lemma {:induction false} LoopReaches(u: Setup, s: State, want: Context -> bool, write: (State, Pair) -> State,
                                       on: set<Pair> -> State, k: nat)
    requires k <= |u.caps| && on({}) == s
    requires forall ps: set<Pair>, p: Pair :: on(ps + {p}) == write(on(ps), p)
    ensures After(u, s, want, write, k) == on(Chosen(u, want, k))
    decreases k
  {
    if k == 0 {
      assert Chosen(u, want, 0) == {};
    } else {
      LoopReaches(u, s, want, write, on, k - 1);
      var before, p := Chosen(u, want, k - 1), PairOf(u.caps[k - 1]);
      assert on(before + {p}) == write(on(before), p);
      assert Chosen(u, want, k) == if want(u.caps[k - 1]) then before + {p} else before;
    }
  }

  function Putting(u: Setup, mode: string, code: int): (State, Pair) -> State { (s, p) => Put(u, s, p, mode, code) }

  function Dropping(u: Setup): (State, Pair) -> State { (s, p) => Drop(u, s, p) }

  /** The write a sync makes for one pair; the text comes from the store, which it leaves alone. */
  function Loading(u: Setup): (State, Pair) -> State { (s: State, p) => s.(driver := s.driver[p := StoredCode(u, s.store, p)]) }

  lemma SetNext(u: Setup, s: State, mode: string, code: int, ps: set<Pair>, p: Pair)
    ensures SetOn(u, s, mode, code, ps + {p}) == Put(u, SetOn(u, s, mode, code, ps), p, mode, code)
  {
    KeysNext(u, ps, p);
    FillNext(s.store, KeysOf(u, ps), mode, u.key(p));
    FillNext(s.driver, ps, code, p);
  }

  lemma SetLoop(u: Setup, s: State, mode: string, code: int, want: Context -> bool)
    ensures After(u, s, want, Putting(u, mode, code), |u.caps|) == SetOn(u, s, mode, code, Chosen(u, want, |u.caps|))
  {
    var on := (ps: set<Pair>) => SetOn(u, s, mode, code, ps);
    assert on({}) == s by {
      assert Fill(s.store, KeysOf(u, {}), mode) == s.store && Fill(s.driver, {}, code) == s.driver;
    }
    forall ps: set<Pair>, p: Pair ensures on(ps + {p}) == Putting(u, mode, code)(on(ps), p) { SetNext(u, s, mode, code, ps, p); }
    LoopReaches(u, s, want, Putting(u, mode, code), on, |u.caps|);
  }

  lemma ResetNext(u: Setup, s: State, ps: set<Pair>, p: Pair)
    ensures ResetOn(u, s, ps + {p}) == Drop(u, ResetOn(u, s, ps), p)
  {
    KeysNext(u, ps, p);
    assert s.store - (KeysOf(u, ps) + {u.key(p)}) == (s.store - KeysOf(u, ps)) - {u.key(p)};
    if u.modeName(u.defaults(p)) == "" {
      assert Defaulted(u, ps + {p}) == Defaulted(u, ps);
    } else {
      assert Defaulted(u, ps + {p}) == Defaulted(u, ps) + {p};
      OverwriteNext(s.driver, Defaulted(u, ps), u.defaults, p);
    }
  }

  lemma ResetLoop(u: Setup, s: State, want: Context -> bool)
    ensures After(u, s, want, Dropping(u), |u.caps|) == ResetOn(u, s, Chosen(u, want, |u.caps|))
  {
    var on := (ps: set<Pair>) => ResetOn(u, s, ps);
    assert on({}) == s by {
      assert Defaulted(u, {}) == {} && KeysOf(u, {}) == {};
      assert Overwrite(s.driver, {}, u.defaults) == s.driver && s.store - {} == s.store;
    }
    forall ps: set<Pair>, p: Pair ensures on(ps + {p}) == Dropping(u)(on(ps), p) { ResetNext(u, s, ps, p); }
    LoopReaches(u, s, want, Dropping(u), on, |u.caps|);
  }

  lemma SyncNext(u: Setup, s: State, ps: set<Pair>, p: Pair)
    ensures SyncOn(u, s, ps + {p}) == Loading(u)(SyncOn(u, s, ps), p)
  {
    assert SyncOn(u, s, ps + {p}).driver == SyncOn(u, s, ps).driver[p := StoredCode(u, s.store, p)];
  }

  lemma SyncLoop(u: Setup, s: State, want: Context -> bool)
    ensures After(u, s, want, Loading(u), |u.caps|) == SyncOn(u, s, Chosen(u, want, |u.caps|))
  {
    var on := (ps: set<Pair>) => SyncOn(u, s, ps);
    assert on({}) == s by { assert SyncOn(u, s, {}).driver == s.driver; }
    forall ps: set<Pair>, p: Pair ensures on(ps + {p}) == Loading(u)(on(ps), p) { SyncNext(u, s, ps, p); }
    LoopReaches(u, s, want, Loading(u), on, |u.caps|);
  }

  /** The filter text after "none" and "Current" have been replaced. */
  function Substituted(wanted: string, currentText: string): string {
    if wanted == "none" then "Global" else if wanted == "Current" then currentText else wanted
  }

  lemma SubstitutedPasses(wanted: string, currentText: string, name: string)
    requires !IsKeyword(currentText)
    ensures Passes(wanted, currentText, name)
            <==> Substituted(wanted, currentText) == "Global" || Substituted(wanted, currentText) == name
  {
  }

  /** The filter of a sync, with texts in which "none" and "Current" have been replaced. */
  predicate TextLoads(u: Setup, store: map<string, string>, source: string, format: string, p: Pair) {
    && (source == "Global" || source == u.sourceText(p.source))
    && (format == "Global" || format == u.formatText(p.format))
    && u.key(p) in store && u.modeCode(store[u.key(p)]).Some?
  }

  lemma SubstitutedLoads(u: Setup, store: map<string, string>, source: string, format: string)
    requires u.Good()
    ensures forall i :: 0 <= i < |u.caps| ==>
      (Loaded(u, store, source, format)(u.caps[i])
       <==> TextLoads(u, store, Substituted(source, u.sourceText(u.OnScreen().source)),
                      Substituted(format, u.formatText(u.OnScreen().format)), PairOf(u.caps[i])))
  {
    var st, ft := u.sourceText(u.OnScreen().source), u.formatText(u.OnScreen().format);
    assert !IsKeyword(st) && !IsKeyword(ft);
    forall i | 0 <= i < |u.caps|
      ensures Loaded(u, store, source, format)(u.caps[i])
              <==> TextLoads(u, store, Substituted(source, st), Substituted(format, ft), PairOf(u.caps[i]))
    {
      SubstitutedPasses(source, st, u.sourceText(u.caps[i].source));
      SubstitutedPasses(format, ft, u.formatText(u.caps[i].format));
    }
  }

  /** A supported mode is found by its name. */
  lemma SupportedName(u: Setup, i: nat)
    requires u.Good() && i < |u.modes| && u.modeName(u.modes[i]) != ""
    ensures Supported(u, u.modeName(u.modes[i])) == Some(u.modes[i])
  {
    var c := u.modes[i];
    assert u.modeCode(u.modeName(c)) == Some(c);
    assert c in u.modes;
  }

  class PictureModeStore {
    const u: Setup
    var store: map<string, string>
    var driver: map<Pair, int>
    var hardware: string

    constructor (u: Setup)
      ensures this.u == u
    {
      this.u := u;
      store, driver, hardware := map[], map[], "";
    }

    function Contents(): State reads this { State(store, driver, hardware) }

    /** getPictureModeV2 for a named pair; it fails when nothing is stored and the default has no
        name. */
    method GetPictureMode(p: Pair) returns (mode: Option<string>)
      requires u.Good()
      ensures u.key(p) in store ==> mode == Some(store[u.key(p)]) == Some(Reported(u, store, p))
      ensures u.key(p) !in store ==> mode == (if u.modeName(u.defaults(p)) == "" then None else Some(Reported(u, store, p)))
    {
      if u.key(p) in store { return Some(store[u.key(p)]); }
      var name := u.modeName(u.defaults(p));
      mode := if name == "" then None else Some(name);
    }

    /** The search for the requested name among the supported modes. */
    method FindMode(mode: string) returns (code: Option<int>)
      requires u.Good()
      ensures code == Supported(u, mode)
    {
      for i := 0 to |u.modes|
        invariant forall k :: 0 <= k < i && u.modeName(u.modes[k]) != "" ==> u.modeName(u.modes[k]) != mode
      {
        if u.modeName(u.modes[i]) != "" && u.modeName(u.modes[i]) == mode {
          SupportedName(u, i);
          return Some(u.modes[i]);
        }
      }
      code := None;
    }

    /** The requested sources with "Global" expanded to those of the contexts that offer a mode (or
        of all contexts). */
    method ExpandSources(items: Option<seq<string>>, mode: Option<int>) returns (list: set<string>)
      requires u.Good()
      ensures forall i :: 0 <= i < |u.caps| && (mode.Some? ==> u.caps[i].mode == mode.value) ==>
        var c := u.caps[i];
        IsValid(list, u.sourceText(c.source), c.source == u.source) == Accepts(ListOf(items), u.sourceText(c.source), c.source == u.source)
    {
      list := set x | x in ListOf(items);
      for i := 0 to |u.caps|
        invariant "Current" in list <==> "Current" in ListOf(items)
        invariant forall x :: x in ListOf(items) ==> x in list
        invariant forall k :: 0 <= k < i && "Global" in ListOf(items) && (mode.Some? ==> u.caps[k].mode == mode.value) ==> u.sourceText(u.caps[k].source) in list
        invariant forall x :: x in list ==> x in ListOf(items) || "Global" in ListOf(items)
      {
        if "Global" in ListOf(items) && (mode.Some? ==> u.caps[i].mode == mode.value) {
          list := list + {u.sourceText(u.caps[i].source)};
        }
      }
    }

    method ExpandFormats(items: Option<seq<string>>, mode: Option<int>) returns (list: set<string>)
      requires u.Good()
      ensures forall i :: 0 <= i < |u.caps| && (mode.Some? ==> u.caps[i].mode == mode.value) ==>
        var c := u.caps[i];
        IsValid(list, u.formatText(c.format), c.format == u.rawFormat) == Accepts(ListOf(items), u.formatText(c.format), c.format == u.rawFormat)
    {
      list := set x | x in ListOf(items);
      for i := 0 to |u.caps|
        invariant "Current" in list <==> "Current" in ListOf(items)
        invariant forall x :: x in ListOf(items) ==> x in list
        invariant forall k :: 0 <= k < i && "Global" in ListOf(items) && (mode.Some? ==> u.caps[k].mode == mode.value) ==> u.formatText(u.caps[k].format) in list
        invariant forall x :: x in list ==> x in ListOf(items) || "Global" in ListOf(items)
      {
        if "Global" in ListOf(items) && (mode.Some? ==> u.caps[i].mode == mode.value) {
          list := list + {u.formatText(u.caps[i].format)};
        }
      }
    }

    /** setPictureModeV2. */
    method SetPictureMode(mode: Option<string>, sources: Option<seq<string>>, formats: Option<seq<string>>) returns (handled: bool)
      requires u.Good()
      modifies this`store, this`driver, this`hardware
      ensures Contents() == SetEffect(u, old(Contents()), mode, sources, formats)
      ensures handled <==> mode.Some? && Supported(u, mode.value).Some?
                           && exists k :: 0 <= k < |u.caps| && Addressed(u, Supported(u, mode.value), sources, formats)(u.caps[k])
    {
      handled := false;
      if mode.None? { return; }
      var found := FindMode(mode.value);
      if found.None? { return; }
      var sourceList := ExpandSources(sources, found);
      var formatList := ExpandFormats(formats, found);
      ghost var s, want := Contents(), Addressed(u, found, sources, formats);
      handled := PutModes(mode.value, found.value, sourceList, formatList, want);
      SetLoop(u, s, mode.value, found.value, want);
    }

    /** The loop of a "set" over the contexts, with lists in which "Global" is expanded. */
    method PutModes(mode: string, code: int, sourceList: set<string>, formatList: set<string>, ghost want: Context -> bool)
      returns (handled: bool)
      requires forall i :: 0 <= i < |u.caps| ==>
        (want(u.caps[i]) <==> u.caps[i].mode == code && ListSelects(u, sourceList, formatList, u.caps[i]))
      modifies this`store, this`driver, this`hardware
      ensures Contents() == After(u, old(Contents()), want, Putting(u, mode, code), |u.caps|)
      ensures handled <==> exists k :: 0 <= k < |u.caps| && want(u.caps[k])
    {
      handled := false;
      for i := 0 to |u.caps|
        invariant Contents() == After(u, old(Contents()), want, Putting(u, mode, code), i)
        invariant handled <==> exists k :: 0 <= k < i && want(u.caps[k])
      {
        var c := u.caps[i];
        if c.mode != code { continue; }
        if !IsValid(formatList, u.formatText(c.format), c.format == u.rawFormat) { continue; }
        if !IsValid(sourceList, u.sourceText(c.source), c.source == u.source) { continue; }
        PutMode(c, mode, code);
        handled := true;
      }
    }

    /** The writes for one context of a "set". */
    method PutMode(c: Context, mode: string, code: int)
      modifies this`store, this`driver, this`hardware
      ensures Contents() == Put(u, old(Contents()), PairOf(c), mode, code)
    {
      if PairOf(c) == u.OnScreen() { hardware := mode; }
      store := store[u.key(PairOf(c)) := mode];
      driver := driver[PairOf(c) := code];
    }

    /** resetPictureModeV2. */
    method ResetPictureMode(sources: Option<seq<string>>, formats: Option<seq<string>>) returns (handled: bool)
      requires u.Good()
      modifies this`store, this`driver, this`hardware
      ensures Contents() == ResetEffect(u, old(Contents()), sources, formats)
      ensures handled <==> exists k :: 0 <= k < |u.caps| && Addressed(u, None, sources, formats)(u.caps[k])
                                       && u.modeName(u.defaults(PairOf(u.caps[k]))) != ""
    {
      var sourceList := ExpandSources(sources, None);
      var formatList := ExpandFormats(formats, None);
      ghost var s, want := Contents(), Addressed(u, None, sources, formats);
      handled := DropModes(sourceList, formatList, want);
      ResetLoop(u, s, want);
    }

    /** The loop of a "reset" over the contexts. */
    method DropModes(sourceList: set<string>, formatList: set<string>, ghost want: Context -> bool) returns (handled: bool)
      requires forall i :: 0 <= i < |u.caps| ==> (want(u.caps[i]) <==> ListSelects(u, sourceList, formatList, u.caps[i]))
      modifies this`store, this`driver, this`hardware
      ensures Contents() == After(u, old(Contents()), want, Dropping(u), |u.caps|)
      ensures handled <==> exists k :: 0 <= k < |u.caps| && want(u.caps[k]) && u.modeName(u.defaults(PairOf(u.caps[k]))) != ""
    {
      handled := false;
      for i := 0 to |u.caps|
        invariant Contents() == After(u, old(Contents()), want, Dropping(u), i)
        invariant handled <==> exists k :: 0 <= k < i && want(u.caps[k]) && u.modeName(u.defaults(PairOf(u.caps[k]))) != ""
      {
        var c := u.caps[i];
        if !IsValid(sourceList, u.sourceText(c.source), c.source == u.source) { continue; }
        if !IsValid(formatList, u.formatText(c.format), c.format == u.rawFormat) { continue; }
        var named := DropMode(c);
        handled := handled || named;
      }
    }

    /** The writes for one context of a "reset": without a named default only the text goes. */
    method DropMode(c: Context) returns (named: bool)
      modifies this`store, this`driver, this`hardware
      ensures named <==> u.modeName(u.defaults(PairOf(c))) != ""
      ensures Contents() == Drop(u, old(Contents()), PairOf(c))
    {
      store := store - {u.key(PairOf(c))};
      var name := u.modeName(u.defaults(PairOf(c)));
      if name == "" { return false; }
      named := true;
      if PairOf(c) == u.OnScreen() { hardware := name; }
      driver := driver[PairOf(c) := u.defaults(PairOf(c))];
    }

    /** syncAvoutputTVPQModeParamsToHALV2. */
    method SyncPictureModes(source: string, format: string) returns (synced: bool)
      requires u.Good()
      modifies this`driver
      ensures Contents() == SyncEffect(u, old(Contents()), source, format)
      ensures synced <==> exists k :: 0 <= k < |u.caps| && Loaded(u, old(store), source, format)(u.caps[k])
    {
      ghost var s, want := Contents(), Loaded(u, store, source, format);
      SubstitutedLoads(u, store, source, format);
      synced := LoadModes(Substituted(source, u.sourceText(u.OnScreen().source)),
                          Substituted(format, u.formatText(u.OnScreen().format)), want);
      SyncLoop(u, s, want);
    }

    /** The loop of a sync over the contexts. */
    method LoadModes(source: string, format: string, ghost want: Context -> bool) returns (synced: bool)
      requires forall i :: 0 <= i < |u.caps| ==> (want(u.caps[i]) <==> TextLoads(u, store, source, format, PairOf(u.caps[i])))
      modifies this`driver
      ensures Contents() == After(u, old(Contents()), want, Loading(u), |u.caps|)
      ensures synced <==> exists k :: 0 <= k < |u.caps| && want(u.caps[k])
    {
      synced := false;
      for i := 0 to |u.caps|
        invariant Contents() == After(u, old(Contents()), want, Loading(u), i)
        invariant synced <==> exists k :: 0 <= k < i && want(u.caps[k])
      {
        var p := PairOf(u.caps[i]);
        if source != "Global" && source != u.sourceText(p.source) { continue; }
        if format != "Global" && format != u.formatText(p.format) { continue; }
        if u.key(p) !in store { continue; }
        var code := u.modeCode(store[u.key(p)]);
        if code.None? { continue; }
        driver := driver[p := code.value];
        synced := true;
      }
    }
  }
}
