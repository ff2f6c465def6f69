/** What updateAVoutputTVParamV2Implementation does to the TR-181 store and the driver table, and
    what happens when its context list is cut in two. */
module Updates {
  import opened Text
  import opened Names
  import opened Keys
  import opened Encoding

  datatype Action = Set | Reset | Sync

  /** One value in one context. */
  datatype Job = Job(context: Context, target: Target)

  /** An entry of the driver's table. Every Save call names source, mode and format, except
      SetSdrGamma, which names no format. */
  datatype Cell = Cell(target: Target, mode: int, source: int, format: Option<int>)

  function CellOf(j: Job): Cell {
    Cell(j.target, j.context.mode, j.context.source,
         if j.target == Whole(SDRGamma) then None else Some(j.context.format))
  }

  datatype Memory = Memory(store: map<string, string>, driver: map<Cell, int>)

  /** The parts of the plugin that an update pass calls and that do not change meanwhile: which
      contexts have names, the storage key of a job, the text of a level and how it is read back,
      the white-balance ranges and the HAL's default levels. Plugin fills them in. */
  datatype Platform = Platform(
    named: Context -> bool,
    key: Job -> string,
    text: (Target, int) -> Option<string>,
    read: (Target, string) -> Decoded,
    inRange: (Target, int) -> bool,
    defaults: Job -> int)

  /** Jobs in named contexts have keys of their own. */
  ghost predicate Good(p: Platform) {
    forall i: Job, j: Job :: p.named(i.context) && p.named(j.context) && p.key(i) == p.key(j) ==> i == j
  }

  datatype Ranges = Ranges(minGain: int, maxGain: int, minOffset: int, maxOffset: int) {
    /** White-balance levels outside the capability range are skipped. */
    predicate Contain(t: Target, level: int) {
      match t
      case WhiteBalance(_, _, Gain) => minGain <= level <= maxGain
      case WhiteBalance(_, _, Offset) => minOffset <= level <= maxOffset
      case _ => true
    }
  }

  /** Coded parameters are stored as texts of their own, everything else as a decimal number. */
  function TextOf(levels: Levels, t: Target, level: int): Option<string>
    requires levels.Valid()
  {
    if t.Whole? then Encode(levels, t.param, level) else Some(IntText(level))
  }

  function Read(levels: Levels, t: Target, text: string): Decoded
    requires levels.Valid()
  {
    if t.Whole? then Decode(levels, t.param, text)
    else match Stoi(text) case Some(v) => Value(v) case None => Throws
  }

  /** The plugin as it is, for given enumerators, ranges and HAL defaults. */
  function Plugin(n: Tables, levels: Levels, ranges: Ranges, defaults: Job -> int): Platform
    requires n.Good() && levels.Valid()
  {
    Platform(c => Named(n, c),
             (j: Job) => StorageKey(n, j.target, j.context),
             (t, level) => TextOf(levels, t, level),
             (t, text) => Read(levels, t, text),
             (t, level) => ranges.Contain(t, level),
             defaults)
  }

  lemma PluginIsGood(n: Tables, levels: Levels, ranges: Ranges, defaults: Job -> int)
    requires n.Good() && levels.Valid()
    ensures Good(Plugin(n, levels, ranges, defaults))
  {
    var p := Plugin(n, levels, ranges, defaults);
    forall i: Job, j: Job | p.named(i.context) && p.named(j.context) && p.key(i) == p.key(j) ensures i == j {
      StorageKeyInjective(n, i.target, i.context, j.target, j.context);
    }
  }

  // ---------------------------------------------------------------- single writes

  /** One call into TR-181 or the driver. */
  datatype Write = Put(key: string, text: string) | Clear(key: string) | Save(cell: Cell, level: int)

  /** The place a write changes. */
  datatype Place = AtKey(key: string) | AtCell(cell: Cell)

  function PlaceOf(w: Write): Place { if w.Save? then AtCell(w.cell) else AtKey(w.key) }

  function Apply(m: Memory, w: Write): Memory {
    match w
    case Put(key, text) => m.(store := m.store[key := text])
    case Clear(key) => m.(store := m.store - {key})
    case Save(cell, level) => m.(driver := m.driver[cell := level])
  }

  function ApplyAll(m: Memory, ws: seq<Write>): Memory
    decreases |ws|
  {
    if ws == [] then m else ApplyAll(Apply(m, ws[0]), ws[1..])
  }

  function Touched(ws: seq<Write>): set<Place> { set i | 0 <= i < |ws| :: PlaceOf(ws[i]) }

  lemma {:induction false} ApplyAllSplit(m: Memory, a: seq<Write>, b: seq<Write>)
    ensures ApplyAll(m, a + b) == ApplyAll(ApplyAll(m, a), b)
    decreases |a|
  {
    if a == [] {
      assert a + b == b;
    } else {
      assert (a + b)[0] == a[0] && (a + b)[1..] == a[1..] + b;
      ApplyAllSplit(Apply(m, a[0]), a[1..], b);
    }
  }

  lemma ApplyCommutes(m: Memory, v: Write, w: Write)
    requires PlaceOf(v) != PlaceOf(w)
    ensures Apply(Apply(m, v), w) == Apply(Apply(m, w), v)
  {
    var a, b := Apply(Apply(m, v), w), Apply(Apply(m, w), v);
    assert a.store == b.store;
    assert a.driver == b.driver;
  }

  lemma {:induction false} WritePastAll(m: Memory, v: Write, b: seq<Write>)
    requires PlaceOf(v) !in Touched(b)
    ensures ApplyAll(Apply(m, v), b) == Apply(ApplyAll(m, b), v)
    decreases |b|
  {
    if b != [] {
      assert PlaceOf(b[0]) in Touched(b);
      assert Touched(b[1..]) <= Touched(b) by { TouchedTail(b); }
      ApplyCommutes(m, v, b[0]);
      WritePastAll(Apply(m, b[0]), v, b[1..]);
    }
  }

  lemma TouchedTail(b: seq<Write>)
    requires b != []
    ensures Touched(b) == {PlaceOf(b[0])} + Touched(b[1..])
  {
    assert b == [b[0]] + b[1..];
    TouchedSplit([b[0]], b[1..]);
    assert Touched([b[0]]) == {PlaceOf(b[0])};
  }

  lemma TouchedSplit(a: seq<Write>, b: seq<Write>)
    ensures Touched(a + b) == Touched(a) + Touched(b)
  {
    forall x ensures x in Touched(a + b) <==> x in Touched(a) + Touched(b) {
      if x in Touched(a) {
        var i :| 0 <= i < |a| && PlaceOf(a[i]) == x;
        assert (a + b)[i] == a[i];
      }
      if x in Touched(b) {
        var i :| 0 <= i < |b| && PlaceOf(b[i]) == x;
        assert (a + b)[|a| + i] == b[i];
      }
    }
  }

  /** Writes to different places can be done in either order. */
  lemma {:induction false} WritesCommute(m: Memory, a: seq<Write>, b: seq<Write>)
    requires Touched(a) !! Touched(b)
    ensures ApplyAll(ApplyAll(m, a), b) == ApplyAll(ApplyAll(m, b), a)
    decreases |a|
  {
    if a != [] {
      TouchedTail(a);
      WritesCommute(Apply(m, a[0]), a[1..], b);
      WritePastAll(m, a[0], b);
    }
  }

  /** The two places that a job can change. */
  function Footprint(p: Platform, j: Job): set<Place>
  {
    {AtKey(p.key(j)), AtCell(CellOf(j))}
  }

  function FootprintAll(p: Platform, jobs: seq<Job>): set<Place>
  {
    set i, x | 0 <= i < |jobs| && x in Footprint(p, jobs[i]) :: x
  }

  /** Jobs in different contexts have nothing in common, except that SDRGamma shares one driver
      entry among the formats of a mode and source. */
  lemma ContextsAreApart(p: Platform, i: Job, j: Job)
    requires Good(p) && p.named(i.context) && p.named(j.context) && i.context != j.context
    requires CellOf(i) != CellOf(j)
    ensures Footprint(p, i) !! Footprint(p, j)
  {
    KeysDiffer(p, i, j);
  }

  lemma KeysDiffer(p: Platform, i: Job, j: Job)
    requires Good(p) && p.named(i.context) && p.named(j.context) && i != j
    ensures p.key(i) != p.key(j)
  {
  }

  // ---------------------------------------------------------------- one job

  /** The writes of one job, the level variable afterwards, and whether std::stoi threw. */
  datatype Outcome = Outcome(writes: seq<Write>, level: int, thrown: bool)

  /** A level that the parameter's text table covers: elsewhere the C++ reads past its array. */
  predicate Storable(p: Platform, action: Action, t: Target, level: int)
  {
    action == Set ==> p.text(t, level).Some?
  }

  /** One turn of the loops of updateAVoutputTVParamV2Implementation. Plain parameters write the
      store first and the driver second; colour and white-balance components the other way round. */
  function Step(p: Platform, action: Action, store: map<string, string>, j: Job, level: int): Outcome
    requires Storable(p, action, j.target, level)
  {
    match action
    case Set =>
      var put, save := Put(p.key(j), p.text(j.target, level).value), Save(CellOf(j), level);
      if j.target.Whole? then Outcome([put, save], level, false)
      else if p.inRange(j.target, level) then Outcome([save, put], level, false)
      else Outcome([], level, false)
    case Reset =>
      var d := p.defaults(j);
      Outcome([Clear(p.key(j))] + if p.inRange(j.target, d) then [Save(CellOf(j), d)] else [], d, false)
    case Sync =>
      if p.key(j) !in store then Outcome([], level, false)
      else
        match p.read(j.target, store[p.key(j)])
        case Throws => Outcome([], level, true)
        case Unchanged => Outcome([Save(CellOf(j), level)], level, false)
        case Value(v) => Outcome(if p.inRange(j.target, v) then [Save(CellOf(j), v)] else [], v, false)
  }

  // ---------------------------------------------------------------- a list of jobs

  datatype Result = Result(memory: Memory, thrown: bool)

  /** For "set" every target must be storable; "reset" and "sync" take their levels elsewhere. */
  predicate AllStorable(p: Platform, action: Action, jobs: seq<Job>, level: int)
  {
    forall i :: 0 <= i < |jobs| ==> Storable(p, action, jobs[i].target, level)
  }

  /** The loops as they run: each job sees the memory and the level the previous one left. */
  function Pass(p: Platform, action: Action, m: Memory, jobs: seq<Job>, level: int): Result
    requires AllStorable(p, action, jobs, level)
    decreases |jobs|
  {
    if jobs == [] then Result(m, false)
    else
      var o := Step(p, action, m.store, jobs[0], level);
      var m' := ApplyAll(m, o.writes);
      if o.thrown then Result(m', true) else Pass(p, action, m', jobs[1..], o.level)
  }

  /** The same loops planned ahead from the store they start with. */
  function Plan(p: Platform, action: Action, store: map<string, string>, jobs: seq<Job>, level: int): seq<Write>
    requires AllStorable(p, action, jobs, level)
    decreases |jobs|
  {
    if jobs == [] then []
    else
      var o := Step(p, action, store, jobs[0], level);
      o.writes + Plan(p, action, store, jobs[1..], o.level)
  }

  /** The level variable after the jobs. */
  function Carry(p: Platform, action: Action, store: map<string, string>, jobs: seq<Job>, level: int): (l: int)
    requires AllStorable(p, action, jobs, level)
    ensures action == Set ==> l == level
    decreases |jobs|
  {
    if jobs == [] then level
    else Carry(p, action, store, jobs[1..], Step(p, action, store, jobs[0], level).level)
  }

  predicate NoThrow(p: Platform, action: Action, store: map<string, string>, jobs: seq<Job>)
  {
    action == Sync ==>
      forall i :: 0 <= i < |jobs| && p.key(jobs[i]) in store ==> p.read(jobs[i].target, store[p.key(jobs[i])]) != Throws
  }

  /** Two stores that no job can tell apart: only "sync" reads the store, and it never writes it. */
  predicate SameReads(action: Action, s: map<string, string>, t: map<string, string>) {
    action == Sync ==> s == t
  }

  lemma {:induction false} PlanReadsOnly(p: Platform, action: Action, s: map<string, string>, t: map<string, string>, jobs: seq<Job>, level: int)
    requires AllStorable(p, action, jobs, level) && SameReads(action, s, t)
    ensures Plan(p, action, s, jobs, level) == Plan(p, action, t, jobs, level)
    decreases |jobs|
  {
    if jobs != [] {
      PlanReadsOnly(p, action, s, t, jobs[1..], Step(p, action, s, jobs[0], level).level);
    }
  }

  lemma {:induction false} SavesKeepStore(m: Memory, ws: seq<Write>)
    requires forall i :: 0 <= i < |ws| ==> ws[i].Save?
    ensures ApplyAll(m, ws).store == m.store
    decreases |ws|
  {
    if ws != [] { SavesKeepStore(Apply(m, ws[0]), ws[1..]); }
  }

  /** Running the loops and applying their plan come to the same, when no stored text throws. */
  lemma {:induction false} PassIsPlan(p: Platform, action: Action, m: Memory, jobs: seq<Job>, level: int)
    requires AllStorable(p, action, jobs, level) && NoThrow(p, action, m.store, jobs)
    ensures Pass(p, action, m, jobs, level) == Result(ApplyAll(m, Plan(p, action, m.store, jobs, level)), false)
    decreases |jobs|
  {
    if jobs != [] {
      var o := Step(p, action, m.store, jobs[0], level);
      var m' := ApplyAll(m, o.writes);
      if action == Sync { SavesKeepStore(m, o.writes); }
      PassIsPlan(p, action, m', jobs[1..], o.level);
      PlanReadsOnly(p, action, m.store, m'.store, jobs[1..], o.level);
      ApplyAllSplit(m, o.writes, Plan(p, action, m.store, jobs[1..], o.level));
    }
  }

  lemma {:induction false} PlanSplit(p: Platform, action: Action, store: map<string, string>, a: seq<Job>, b: seq<Job>, level: int)
    requires AllStorable(p, action, a + b, level) && AllStorable(p, action, a, level)
    requires AllStorable(p, action, b, Carry(p, action, store, a, level))
    ensures Plan(p, action, store, a + b, level)
            == Plan(p, action, store, a, level) + Plan(p, action, store, b, Carry(p, action, store, a, level))
    decreases |a|
  {
    if a == [] {
      assert a + b == b;
    } else {
      assert (a + b)[0] == a[0] && (a + b)[1..] == a[1..] + b;
      var o := Step(p, action, store, a[0], level);
      assert AllStorable(p, action, (a + b)[1..], o.level);
      PlanSplit(p, action, store, a[1..], b, o.level);
      var x := Plan(p, action, store, a[1..], o.level);
      var y := Plan(p, action, store, b, Carry(p, action, store, a, level));
      assert Plan(p, action, store, a + b, level) == o.writes + (x + y);
      assert o.writes + (x + y) == (o.writes + x) + y;
    }
  }

  lemma {:induction false} PlanStaysInFootprint(p: Platform, action: Action, store: map<string, string>, jobs: seq<Job>, level: int)
    requires AllStorable(p, action, jobs, level)
    ensures Touched(Plan(p, action, store, jobs, level)) <= FootprintAll(p, jobs)
    decreases |jobs|
  {
    if jobs != [] {
      var o := Step(p, action, store, jobs[0], level);
      PlanStaysInFootprint(p, action, store, jobs[1..], o.level);
      TouchedSplit(o.writes, Plan(p, action, store, jobs[1..], o.level));
      StepStaysInFootprint(p, action, store, jobs[0], level);
      FootprintTail(p, jobs);
    }
  }

  lemma FootprintTail(p: Platform, jobs: seq<Job>)
    requires jobs != []
    ensures FootprintAll(p, jobs) == Footprint(p, jobs[0]) + FootprintAll(p, jobs[1..])
  {
    forall x ensures x in FootprintAll(p, jobs) <==> x in Footprint(p, jobs[0]) + FootprintAll(p, jobs[1..]) {
      if x in FootprintAll(p, jobs[1..]) {
        var i :| 0 <= i < |jobs[1..]| && x in Footprint(p, jobs[1..][i]);
        assert jobs[i + 1] == jobs[1..][i];
      }
    }
  }

  lemma StepStaysInFootprint(p: Platform, action: Action, store: map<string, string>, j: Job, level: int)
    requires Storable(p, action, j.target, level)
    ensures Touched(Step(p, action, store, j, level).writes) <= Footprint(p, j)
  {
  }

  // ---------------------------------------------------------------- the level carried between contexts

  /** The first job that finds a stored text does not recognise it, and so saves whatever level
      the jobs before it left behind. */
  predicate Exposed(p: Platform, action: Action, store: map<string, string>, jobs: seq<Job>)
    decreases |jobs|
  {
    match action
    case Set => true
    case Reset => false
    case Sync =>
      jobs != [] &&
      if p.key(jobs[0]) in store then p.read(jobs[0].target, store[p.key(jobs[0])]) == Unchanged
      else Exposed(p, action, store, jobs[1..])
  }

  lemma {:induction false} PlanIgnoresLevel(p: Platform, action: Action, store: map<string, string>, jobs: seq<Job>, k: int, l: int)
    requires AllStorable(p, action, jobs, k) && AllStorable(p, action, jobs, l)
    requires NoThrow(p, action, store, jobs)
    requires k == l || !Exposed(p, action, store, jobs)
    ensures Plan(p, action, store, jobs, k) == Plan(p, action, store, jobs, l)
    decreases |jobs|
  {
    if jobs != [] && k != l {
      PlanIgnoresLevel(p, action, store, jobs[1..], Step(p, action, store, jobs[0], k).level, Step(p, action, store, jobs[0], l).level);
    }
  }

  // ---------------------------------------------------------------- cutting a context list

  function JobsIn(c: Context, targets: seq<Target>): (js: seq<Job>)
    ensures |js| == |targets| && forall i :: 0 <= i < |js| ==> js[i] == Job(c, targets[i])
  {
    seq(|targets|, i requires 0 <= i < |targets| => Job(c, targets[i]))
  }

  /** The loops' order: contexts outside, targets inside. */
  function Jobs(contexts: seq<Context>, targets: seq<Target>): (js: seq<Job>)
    ensures forall i :: 0 <= i < |js| ==> js[i].context in contexts && js[i].target in targets
    decreases |contexts|
  {
    if contexts == [] then [] else JobsIn(contexts[0], targets) + Jobs(contexts[1..], targets)
  }

  lemma {:induction false} JobsSplit(a: seq<Context>, b: seq<Context>, targets: seq<Target>)
    ensures Jobs(a + b, targets) == Jobs(a, targets) + Jobs(b, targets)
    decreases |a|
  {
    if a == [] {
      assert a + b == b;
    } else {
      assert (a + b)[0] == a[0] && (a + b)[1..] == a[1..] + b;
      JobsSplit(a[1..], b, targets);
    }
  }

  predicate TargetsStorable(p: Platform, action: Action, targets: seq<Target>, level: int)
  {
    forall i :: 0 <= i < |targets| ==> Storable(p, action, targets[i], level)
  }

  // ---------------------------------------------------------------- cutting a job list

  lemma NoThrowParts(p: Platform, action: Action, store: map<string, string>, a: seq<Job>, b: seq<Job>)
    ensures NoThrow(p, action, store, a + b) <==> NoThrow(p, action, store, a) && NoThrow(p, action, store, b)
  {
    if NoThrow(p, action, store, a + b) {
      forall i | 0 <= i < |a| ensures a[i] == (a + b)[i] {}
      forall i | 0 <= i < |b| ensures b[i] == (a + b)[|a| + i] {}
    }
  }

  lemma StorableParts(p: Platform, action: Action, a: seq<Job>, b: seq<Job>, level: int)
    ensures AllStorable(p, action, a + b, level) <==> AllStorable(p, action, a, level) && AllStorable(p, action, b, level)
  {
    if AllStorable(p, action, a + b, level) {
      forall i | 0 <= i < |a| ensures a[i] == (a + b)[i] {}
      forall i | 0 <= i < |b| ensures b[i] == (a + b)[|a| + i] {}
    }
  }

  /** A pass over a + b is the plan of a followed by the plan of b. */
  lemma PassOfTwo(p: Platform, action: Action, m: Memory, a: seq<Job>, b: seq<Job>, level: int)
    requires AllStorable(p, action, a, level) && AllStorable(p, action, b, level)
    requires NoThrow(p, action, m.store, a) && NoThrow(p, action, m.store, b)
    ensures AllStorable(p, action, a + b, level) && AllStorable(p, action, b, Carry(p, action, m.store, a, level))
    ensures Pass(p, action, m, a + b, level)
            == Result(ApplyAll(ApplyAll(m, Plan(p, action, m.store, a, level)),
                               Plan(p, action, m.store, b, Carry(p, action, m.store, a, level))), false)
  {
    StorableParts(p, action, a, b, level);
    NoThrowParts(p, action, m.store, a, b);
    PassIsPlan(p, action, m, a + b, level);
    PlanSplit(p, action, m.store, a, b, level);
    ApplyAllSplit(m, Plan(p, action, m.store, a, level), Plan(p, action, m.store, b, Carry(p, action, m.store, a, level)));
  }

  lemma CarrySplit(p: Platform, action: Action, store: map<string, string>, a: seq<Job>, b: seq<Job>, level: int)
    requires AllStorable(p, action, a + b, level) && AllStorable(p, action, a, level)
    requires AllStorable(p, action, b, Carry(p, action, store, a, level))
    ensures Carry(p, action, store, a + b, level) == Carry(p, action, store, b, Carry(p, action, store, a, level))
    decreases |a|
  {
    if a == [] {
      assert a + b == b;
    } else {
      assert (a + b)[0] == a[0] && (a + b)[1..] == a[1..] + b;
      CarrySplit(p, action, store, a[1..], b, Step(p, action, store, a[0], level).level);
    }
  }

  /** Where one pass over A, B, C and the two passes B, then A and C, end up. */
  lemma CutJobs(p: Platform, action: Action, m: Memory, A: seq<Job>, B: seq<Job>, C: seq<Job>, level: int)
    requires AllStorable(p, action, A, level) && AllStorable(p, action, B, level) && AllStorable(p, action, C, level)
    requires NoThrow(p, action, m.store, A) && NoThrow(p, action, m.store, B) && NoThrow(p, action, m.store, C)
    requires FootprintAll(p, A) !! FootprintAll(p, B)
    ensures AllStorable(p, action, A + (B + C), level) && AllStorable(p, action, A + C, level)
    ensures
      var before := Carry(p, action, m.store, A, level);
      var after := Carry(p, action, m.store, A + B, level);
      var base := ApplyAll(m, Plan(p, action, m.store, A, level));
      && AllStorable(p, action, A + B, level)
      && AllStorable(p, action, B, before) && AllStorable(p, action, C, before) && AllStorable(p, action, C, after)
      && Pass(p, action, m, A + (B + C), level)
         == Result(ApplyAll(ApplyAll(base, Plan(p, action, m.store, B, before)), Plan(p, action, m.store, C, after)), false)
      && Pass(p, action, Pass(p, action, m, B, level).memory, A + C, level)
         == Result(ApplyAll(ApplyAll(base, Plan(p, action, m.store, B, level)), Plan(p, action, m.store, C, before)), false)
  {
    StorableParts(p, action, A, B, level);
    StorableParts(p, action, A, C, level);
    StorableParts(p, action, B, C, level);
    StorableParts(p, action, A, B + C, level);
    NoThrowParts(p, action, m.store, B, C);
    var before := Carry(p, action, m.store, A, level);
    CutWhole(p, action, m, A, B, C, level);

    PassIsPlan(p, action, m, B, level);
    var planB := Plan(p, action, m.store, B, level);
    var m1 := ApplyAll(m, planB);
    PlanReads(p, action, m, B, level);
    PassOfTwo(p, action, m1, A, C, level);
    PlanReadsOnly(p, action, m.store, m1.store, A, level);
    CarryReadsOnly(p, action, m.store, m1.store, A, level);
    PlanReadsOnly(p, action, m.store, m1.store, C, before);
    PlanStaysInFootprint(p, action, m.store, A, level);
    PlanStaysInFootprint(p, action, m.store, B, level);
    WritesCommute(m, planB, Plan(p, action, m.store, A, level));
  }

  lemma CutWhole(p: Platform, action: Action, m: Memory, A: seq<Job>, B: seq<Job>, C: seq<Job>, level: int)
    requires AllStorable(p, action, A, level) && AllStorable(p, action, B, level) && AllStorable(p, action, C, level)
    requires AllStorable(p, action, A + B, level) && AllStorable(p, action, B + C, level) && AllStorable(p, action, A + (B + C), level)
    requires NoThrow(p, action, m.store, A) && NoThrow(p, action, m.store, B) && NoThrow(p, action, m.store, C)
    requires NoThrow(p, action, m.store, B + C)
    ensures
      var before := Carry(p, action, m.store, A, level);
      var after := Carry(p, action, m.store, A + B, level);
      && AllStorable(p, action, B, before) && AllStorable(p, action, C, before) && AllStorable(p, action, C, after)
      && Pass(p, action, m, A + (B + C), level)
         == Result(ApplyAll(ApplyAll(ApplyAll(m, Plan(p, action, m.store, A, level)), Plan(p, action, m.store, B, before)),
                            Plan(p, action, m.store, C, after)), false)
  {
    var before := Carry(p, action, m.store, A, level);
    PassOfTwo(p, action, m, A, B + C, level);
    CarrySplit(p, action, m.store, A, B, level);
    PlanSplit(p, action, m.store, B, C, before);
    ApplyAllSplit(ApplyAll(m, Plan(p, action, m.store, A, level)), Plan(p, action, m.store, B, before),
                  Plan(p, action, m.store, C, Carry(p, action, m.store, B, before)));
  }

  lemma {:induction false} CarryReadsOnly(p: Platform, action: Action, s: map<string, string>, t: map<string, string>, jobs: seq<Job>, level: int)
    requires AllStorable(p, action, jobs, level) && SameReads(action, s, t)
    ensures Carry(p, action, s, jobs, level) == Carry(p, action, t, jobs, level)
    decreases |jobs|
  {
    if jobs != [] {
      CarryReadsOnly(p, action, s, t, jobs[1..], Step(p, action, s, jobs[0], level).level);
    }
  }

  /** A pass leaves what "sync" reads as it was. */
  lemma {:induction false} PlanReads(p: Platform, action: Action, m: Memory, jobs: seq<Job>, level: int)
    requires AllStorable(p, action, jobs, level)
    ensures SameReads(action, m.store, ApplyAll(m, Plan(p, action, m.store, jobs, level)).store)
  {
    if action == Sync {
      SyncOnlySaves(p, m.store, jobs, level);
      SavesKeepStore(m, Plan(p, action, m.store, jobs, level));
    }
  }

  lemma {:induction false} SyncOnlySaves(p: Platform, store: map<string, string>, jobs: seq<Job>, level: int)
    requires AllStorable(p, Sync, jobs, level)
    ensures forall i :: 0 <= i < |Plan(p, Sync, store, jobs, level)| ==> Plan(p, Sync, store, jobs, level)[i].Save?
    decreases |jobs|
  {
    if jobs != [] {
      SyncOnlySaves(p, store, jobs[1..], Step(p, Sync, store, jobs[0], level).level);
    }
  }
}
