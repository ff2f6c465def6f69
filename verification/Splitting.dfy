/** Splitting an update preserves its meaning: the immediate pass over the context on screen and
    the queued pass over the rest leave the same store and driver as one pass over the whole list.
    This module says for which updates that is so, and shows what goes wrong for the others. */
module Splitting {
  import opened Text
  import opened Names
  import opened Keys
  import opened Encoding
  import opened Updates
  import opened LastWrites

  // ---------------------------------------------------------------- footprints of context lists

  predicate AllNamed(p: Platform, contexts: seq<Context>) {
    forall i :: 0 <= i < |contexts| ==> p.named(contexts[i])
  }

  /** The context on screen shares no driver entry with a context before it in the list. */
  predicate FreshCells(pre: seq<Context>, c: Context, targets: seq<Target>) {
    forall b, t, u :: b in pre && t in targets && u in targets ==> CellOf(Job(b, t)) != CellOf(Job(c, u))
  }

  /** Only SDRGamma, whose driver entry names no format, ever breaks this. */
  lemma FreshUnlessGamma(pre: seq<Context>, c: Context, targets: seq<Target>)
    requires c !in pre
    ensures FreshCells(pre, c, targets)
            <==> (Whole(SDRGamma) in targets ==> forall b :: b in pre ==> b.mode != c.mode || b.source != c.source)
  {
    var g := Whole(SDRGamma);
    if FreshCells(pre, c, targets) && g in targets {
      forall b | b in pre ensures b.mode != c.mode || b.source != c.source {
        assert CellOf(Job(b, g)) != CellOf(Job(c, g));
      }
    }
  }

  lemma FootprintsApart(p: Platform, pre: seq<Context>, c: Context, targets: seq<Target>)
    requires Good(p) && AllNamed(p, pre) && p.named(c) && c !in pre
    requires FreshCells(pre, c, targets)
    ensures FootprintAll(p, Jobs(pre, targets)) !! FootprintAll(p, Jobs([c], targets))
  {
    var A, B := Jobs(pre, targets), Jobs([c], targets);
    forall i, j | 0 <= i < |A| && 0 <= j < |B| ensures Footprint(p, A[i]) !! Footprint(p, B[j]) {
      PairApart(p, pre, c, targets, A[i], B[j]);
    }
    ListsApart(p, A, B);
  }

  lemma PairApart(p: Platform, pre: seq<Context>, c: Context, targets: seq<Target>, i: Job, j: Job)
    requires Good(p) && AllNamed(p, pre) && p.named(c) && c !in pre
    requires FreshCells(pre, c, targets)
    requires i.context in pre && i.target in targets && j.context == c && j.target in targets
    ensures Footprint(p, i) !! Footprint(p, j)
  {
    assert i == Job(i.context, i.target) && j == Job(c, j.target);
    ContextsAreApart(p, i, j);
  }

  lemma ListsApart(p: Platform, A: seq<Job>, B: seq<Job>)
    requires forall i, j :: 0 <= i < |A| && 0 <= j < |B| ==> Footprint(p, A[i]) !! Footprint(p, B[j])
    ensures FootprintAll(p, A) !! FootprintAll(p, B)
  {
    forall x | x in FootprintAll(p, A) ensures x !in FootprintAll(p, B) {
      var i :| 0 <= i < |A| && x in Footprint(p, A[i]);
      forall j | 0 <= j < |B| ensures x !in Footprint(p, B[j]) {
        assert Footprint(p, A[i]) !! Footprint(p, B[j]);
      }
    }
  }

  // ---------------------------------------------------------------- the exact condition

  predicate ReadableStore(p: Platform, action: Action, m: Memory, contexts: seq<Context>, targets: seq<Target>)
  {
    NoThrow(p, action, m.store, Jobs(contexts, targets))
  }

  /** The request that is being split: the contexts before the one on screen, that one, and the
      contexts after it. */
  ghost predicate Splits(p: Platform, action: Action, m: Memory, pre: seq<Context>, c: Context, post: seq<Context>,
                   targets: seq<Target>, level: int)
  {
    && Good(p) && TargetsStorable(p, action, targets, level)
    && AllNamed(p, pre) && p.named(c) && c !in pre
    && ReadableStore(p, action, m, pre, targets) && ReadableStore(p, action, m, [c], targets)
    && ReadableStore(p, action, m, post, targets)
  }

  function OnePass(p: Platform, action: Action, m: Memory, contexts: seq<Context>, targets: seq<Target>, level: int): Result
    requires TargetsStorable(p, action, targets, level)
  {
    Pass(p, action, m, Jobs(contexts, targets), level)
  }

  /** The immediate pass over the context on screen, then the queued pass over the others. */
  function TwoPasses(p: Platform, action: Action, m: Memory, pre: seq<Context>, c: Context, post: seq<Context>,
                     targets: seq<Target>, level: int): Result
    requires TargetsStorable(p, action, targets, level)
  {
    OnePass(p, action, OnePass(p, action, m, [c], targets, level).memory, pre + post, targets, level)
  }

  /** No context saves a level that, once the context on screen is taken out of the list, it
      would inherit from a different neighbour. */
  predicate NothingInherited(p: Platform, action: Action, m: Memory, pre: seq<Context>, c: Context, post: seq<Context>,
                             targets: seq<Target>, level: int)
    requires TargetsStorable(p, action, targets, level)
  {
    var before := Carry(p, action, m.store, Jobs(pre, targets), level);
    var after := Carry(p, action, m.store, Jobs(pre, targets) + Jobs([c], targets), level);
    && (before == level || !Exposed(p, action, m.store, Jobs([c], targets)))
    && (after == before || !Exposed(p, action, m.store, Jobs(post, targets)))
  }

  /** The two sides of the comparison, written over the same starting memory. */
  lemma SplitEnds(p: Platform, action: Action, m: Memory, pre: seq<Context>, c: Context, post: seq<Context>,
                  targets: seq<Target>, level: int)
    requires Splits(p, action, m, pre, c, post, targets, level) && FreshCells(pre, c, targets)
    ensures
      var A, B, C := Jobs(pre, targets), Jobs([c], targets), Jobs(post, targets);
      var before := Carry(p, action, m.store, A, level);
      var after := Carry(p, action, m.store, A + B, level);
      var base := ApplyAll(m, Plan(p, action, m.store, A, level));
      && AllStorable(p, action, B, before) && AllStorable(p, action, C, before) && AllStorable(p, action, C, after)
      && OnePass(p, action, m, pre + [c] + post, targets, level)
         == Result(ApplyAll(ApplyAll(base, Plan(p, action, m.store, B, before)), Plan(p, action, m.store, C, after)), false)
      && TwoPasses(p, action, m, pre, c, post, targets, level)
         == Result(ApplyAll(ApplyAll(base, Plan(p, action, m.store, B, level)), Plan(p, action, m.store, C, before)), false)
  {
    FootprintsApart(p, pre, c, targets);
    JobsStorable(p, action, pre, targets, level);
    JobsStorable(p, action, [c], targets, level);
    JobsStorable(p, action, post, targets, level);
    CutJobs(p, action, m, Jobs(pre, targets), Jobs([c], targets), Jobs(post, targets), level);
    JobsOfCut(pre, c, post, targets);
  }

  lemma JobsOfCut(pre: seq<Context>, c: Context, post: seq<Context>, targets: seq<Target>)
    ensures Jobs(pre + [c] + post, targets) == Jobs(pre, targets) + (Jobs([c], targets) + Jobs(post, targets))
    ensures Jobs(pre + post, targets) == Jobs(pre, targets) + Jobs(post, targets)
  {
    assert pre + [c] + post == pre + ([c] + post);
    JobsSplit(pre, [c] + post, targets);
    JobsSplit([c], post, targets);
    JobsSplit(pre, post, targets);
  }

  lemma JobsStorable(p: Platform, action: Action, contexts: seq<Context>, targets: seq<Target>, level: int)
    requires TargetsStorable(p, action, targets, level)
    ensures AllStorable(p, action, Jobs(contexts, targets), level)
  {
  }

  /** Splitting is harmless when nothing is inherited. */
  lemma SplitIfNothingInherited(p: Platform, action: Action, m: Memory, pre: seq<Context>, c: Context, post: seq<Context>,
                                targets: seq<Target>, level: int)
    requires Splits(p, action, m, pre, c, post, targets, level) && FreshCells(pre, c, targets)
    requires NothingInherited(p, action, m, pre, c, post, targets, level)
    ensures TwoPasses(p, action, m, pre, c, post, targets, level) == OnePass(p, action, m, pre + [c] + post, targets, level)
  {
    SplitEnds(p, action, m, pre, c, post, targets, level);
    var A, B, C := Jobs(pre, targets), Jobs([c], targets), Jobs(post, targets);
    var before := Carry(p, action, m.store, A, level);
    var after := Carry(p, action, m.store, A + B, level);
    PlanIgnoresLevel(p, action, m.store, B, before, level);
    PlanIgnoresLevel(p, action, m.store, C, before, after);
  }

  // ---------------------------------------------------------------- and only then

  predicate DistinctCells(jobs: seq<Job>) {
    forall i, j :: 0 <= i < j < |jobs| ==> CellOf(jobs[i]) != CellOf(jobs[j])
  }

  /** The driver entry that receives the inherited level. */
  function FirstExposed(p: Platform, store: map<string, string>, jobs: seq<Job>): Cell
    requires Exposed(p, Sync, store, jobs)
    decreases |jobs|
  {
    if p.key(jobs[0]) in store then CellOf(jobs[0]) else FirstExposed(p, store, jobs[1..])
  }

  lemma {:induction false} UntouchedCell(m: Memory, ws: seq<Write>, cell: Cell)
    requires AtCell(cell) !in Touched(ws)
    ensures cell in ApplyAll(m, ws).driver <==> cell in m.driver
    ensures cell in m.driver ==> ApplyAll(m, ws).driver[cell] == m.driver[cell]
    decreases |ws|
  {
    if ws != [] {
      TouchedTail(ws);
      UntouchedCell(Apply(m, ws[0]), ws[1..], cell);
    }
  }

  lemma {:induction false} ExposedCellTakesLevel(p: Platform, m: Memory, store: map<string, string>, jobs: seq<Job>, level: int)
    requires AllStorable(p, Sync, jobs, level) && Exposed(p, Sync, store, jobs) && DistinctCells(jobs)
    ensures
      var e := FirstExposed(p, store, jobs);
      var r := ApplyAll(m, Plan(p, Sync, store, jobs, level));
      (exists i :: 0 <= i < |jobs| && CellOf(jobs[i]) == e) && e in r.driver && r.driver[e] == level
    decreases |jobs|
  {
    var e := FirstExposed(p, store, jobs);
    var o := Step(p, Sync, store, jobs[0], level);
    var rest := Plan(p, Sync, store, jobs[1..], o.level);
    if p.key(jobs[0]) in store {
      assert CellOf(jobs[0]) == e;
      PlanStaysInFootprint(p, Sync, store, jobs[1..], o.level);
      assert o.writes == [Save(e, level)];
      ApplyAllSplit(m, o.writes, rest);
      assert AtCell(e) !in FootprintAll(p, jobs[1..]) by { OtherCells(p, jobs[1..], e); }
      assert ApplyAll(m, o.writes) == Apply(m, Save(e, level));
      UntouchedCell(Apply(m, Save(e, level)), rest, e);
    } else {
      ExposedCellTakesLevel(p, m, store, jobs[1..], level);
      assert o.writes == [] && Plan(p, Sync, store, jobs, level) == rest;
      var i :| 0 <= i < |jobs[1..]| && CellOf(jobs[1..][i]) == e;
      assert jobs[i + 1] == jobs[1..][i];
    }
  }

  lemma OtherCells(p: Platform, jobs: seq<Job>, cell: Cell)
    requires forall i :: 0 <= i < |jobs| ==> CellOf(jobs[i]) != cell
    ensures AtCell(cell) !in FootprintAll(p, jobs)
  {
  }

  /** The inherited level survives the jobs that follow, and so can be seen in the end. */
  lemma InheritedLevelShows(p: Platform, m: Memory, store: map<string, string>, B: seq<Job>, C: seq<Job>, k: int, l: int)
    requires AllStorable(p, Sync, B, k) && AllStorable(p, Sync, C, l)
    requires Exposed(p, Sync, store, B) && DistinctCells(B + C)
    ensures
      var e := FirstExposed(p, store, B);
      var r := ApplyAll(ApplyAll(m, Plan(p, Sync, store, B, k)), Plan(p, Sync, store, C, l));
      e in r.driver && r.driver[e] == k
  {
    forall i, j | 0 <= i < j < |B| ensures CellOf(B[i]) != CellOf(B[j]) {
      assert (B + C)[i] == B[i] && (B + C)[j] == B[j];
    }
    ExposedCellTakesLevel(p, m, store, B, k);
    var e := FirstExposed(p, store, B);
    var i :| 0 <= i < |B| && CellOf(B[i]) == e;
    forall j | 0 <= j < |C| ensures CellOf(C[j]) != e {
      assert (B + C)[i] == B[i] && (B + C)[|B| + j] == C[j];
    }
    OtherCells(p, C, e);
    PlanStaysInFootprint(p, Sync, store, C, l);
    UntouchedCell(ApplyAll(m, Plan(p, Sync, store, B, k)), Plan(p, Sync, store, C, l), e);
  }

  /** When the context on screen shares no driver entry with an earlier one, splitting is harmless
      exactly when nothing is inherited: it goes wrong only for a "sync" in which an unrecognised text
      follows a context whose turn the split has changed. */
  lemma SplitExactly(p: Platform, action: Action, m: Memory, pre: seq<Context>, c: Context, post: seq<Context>,
                     targets: seq<Target>, level: int)
    requires Splits(p, action, m, pre, c, post, targets, level)
    requires FreshCells(pre, c, targets) && DistinctCells(Jobs([c], targets) + Jobs(post, targets))
    ensures TwoPasses(p, action, m, pre, c, post, targets, level) == OnePass(p, action, m, pre + [c] + post, targets, level)
            <==> NothingInherited(p, action, m, pre, c, post, targets, level)
  {
    if NothingInherited(p, action, m, pre, c, post, targets, level) {
      SplitIfNothingInherited(p, action, m, pre, c, post, targets, level);
    } else {
      SplitEnds(p, action, m, pre, c, post, targets, level);
      var A, B, C := Jobs(pre, targets), Jobs([c], targets), Jobs(post, targets);
      var before := Carry(p, action, m.store, A, level);
      var after := Carry(p, action, m.store, A + B, level);
      var base := ApplyAll(m, Plan(p, action, m.store, A, level));
      assert action == Sync;
      if before != level && Exposed(p, action, m.store, B) {
        InheritedLevelShows(p, base, m.store, B, C, before, after);
        InheritedLevelShows(p, base, m.store, B, C, level, before);
      } else {
        LastExposedShows(p, ApplyAll(base, Plan(p, action, m.store, B, before)), m.store, B, C, after);
        LastExposedShows(p, ApplyAll(base, Plan(p, action, m.store, B, level)), m.store, B, C, before);
      }
    }
  }

  lemma LastExposedShows(p: Platform, m: Memory, store: map<string, string>, B: seq<Job>, C: seq<Job>, k: int)
    requires AllStorable(p, Sync, C, k) && Exposed(p, Sync, store, C) && DistinctCells(B + C)
    ensures
      var e := FirstExposed(p, store, C);
      var r := ApplyAll(m, Plan(p, Sync, store, C, k));
      e in r.driver && r.driver[e] == k
  {
    forall i, j | 0 <= i < j < |C| ensures CellOf(C[i]) != CellOf(C[j]) {
      assert (B + C)[|B| + i] == C[i] && (B + C)[|B| + j] == C[j];
    }
    ExposedCellTakesLevel(p, m, store, C, k);
  }

  /** An input at which a level is inherited: the plugin's DimmingMode, with a recognised text before
      the context on screen and an unrecognised one in it. One pass gives the screen the level of its
      neighbour, two passes the level the request came with. */
  lemma DimmingSplitDiffers(n: Tables, levels: Levels, ranges: Ranges, defaults: Job -> int, b: Context, c: Context, level: int)
    requires n.Good() && levels.Valid() && Named(n, b) && Named(n, c) && b != c
    requires Read(levels, Whole(DimmingMode), "Local") != Value(level)
    ensures
      var p, d := Plugin(n, levels, ranges, defaults), Whole(DimmingMode);
      var m := Memory(map[p.key(Job(b, d)) := "Local", p.key(Job(c, d)) := "Dynamic"], map[]);
      && !NothingInherited(p, Sync, m, [b], c, [], [d], level)
      && TwoPasses(p, Sync, m, [b], c, [], [d], level) != OnePass(p, Sync, m, [b] + [c] + [], [d], level)
  {
    var p, d := Plugin(n, levels, ranges, defaults), Whole(DimmingMode);
    PluginIsGood(n, levels, ranges, defaults);
    DimmingTexts(levels);
    InheritedDiffers(p, d, b, "Local", levels.dimmingMode[1], c, "Dynamic", level);
  }

  lemma DimmingTexts(levels: Levels)
    requires levels.Valid()
    ensures |levels.dimmingMode| == 3
    ensures Read(levels, Whole(DimmingMode), "Local") == Value(levels.dimmingMode[1])
    ensures Read(levels, Whole(DimmingMode), "Dynamic") == Unchanged
  {
    assert IsCoded(DimmingMode) && |levels.Of(DimmingMode)| == |Texts(DimmingMode)|;
    MatchFindsName(DimmingMode, 1);
    forall i | 0 <= i < |Texts(DimmingMode)| ensures !("Dynamic" <= Texts(DimmingMode)[i]) {
      assert Texts(DimmingMode)[i][0] != "Dynamic"[0];
    }
    WhichTextsAreUnrecognised(levels, DimmingMode, "Dynamic");
  }

  lemma InheritedDiffers(p: Platform, d: Target, b: Context, t: string, v: int, c: Context, u: string, level: int)
    requires Good(p) && p.named(b) && p.named(c) && b != c && d.Whole? && d != Whole(SDRGamma)
    requires p.read(d, t) == Value(v) && p.inRange(d, v) && p.read(d, u) == Unchanged && v != level
    ensures
      var m := Memory(map[p.key(Job(b, d)) := t, p.key(Job(c, d)) := u], map[]);
      && !NothingInherited(p, Sync, m, [b], c, [], [d], level)
      && TwoPasses(p, Sync, m, [b], c, [], [d], level) != OnePass(p, Sync, m, [b] + [c] + [], [d], level)
  {
    var m := Memory(map[p.key(Job(b, d)) := t, p.key(Job(c, d)) := u], map[]);
    KeysDiffer(p, Job(b, d), Job(c, d));
    assert Jobs([b], [d]) == [Job(b, d)] && Jobs([c], [d]) == [Job(c, d)] by { OneJob(b, d); OneJob(c, d); }
    assert [Job(b, d)][1..] == [];
    assert Carry(p, Sync, m.store, [Job(b, d)], level) == v;
    assert Exposed(p, Sync, m.store, [Job(c, d)]);
    FreshUnlessGamma([b], c, [d]);
    SplitExactly(p, Sync, m, [b], c, [], [d], level);
  }

  lemma OneJob(c: Context, t: Target)
    ensures Jobs([c], [t]) == [Job(c, t)]
  {
    assert [c][1..] == [];
  }

  // ---------------------------------------------------------------- recognised stores

  /** A store in which every text that the request reads is one that reads back as a level. */
  predicate RecognisedStore(p: Platform, m: Memory, contexts: seq<Context>, targets: seq<Target>)
  {
    forall c, t :: c in contexts && t in targets && p.key(Job(c, t)) in m.store ==> p.read(t, m.store[p.key(Job(c, t))]).Value?
  }

  // ---------------------------------------------------------------- shared driver entries

  /** The level that a job saves in the driver, if it saves one. For "sync" this is meant for stores
      whose texts are recognised. */
  function SavedBy(p: Platform, action: Action, store: map<string, string>, level: int, j: Job): Option<int> {
    match action
    case Set => if j.target.Whole? || p.inRange(j.target, level) then Some(level) else None
    case Reset => if p.inRange(j.target, p.defaults(j)) then Some(p.defaults(j)) else None
    case Sync =>
      if p.key(j) !in store then None
      else
        match p.read(j.target, store[p.key(j)])
        case Value(v) => if p.inRange(j.target, v) then Some(v) else None
        case _ => None
  }

  /** No job finds a text that it does not recognise. */
  predicate Recognised(p: Platform, action: Action, store: map<string, string>, jobs: seq<Job>) {
    action == Sync ==>
      forall i :: 0 <= i < |jobs| && p.key(jobs[i]) in store ==> p.read(jobs[i].target, store[p.key(jobs[i])]).Value?
  }

  /** The last level that a list of jobs saves in a driver entry. */
  function LastSave(p: Platform, action: Action, store: map<string, string>, level: int, jobs: seq<Job>, cell: Cell): Option<int>
    decreases |jobs|
  {
    if jobs == [] then None
    else
      match LastSave(p, action, store, level, jobs[1..], cell)
      case Some(v) => Some(v)
      case None => if CellOf(jobs[0]) == cell then SavedBy(p, action, store, level, jobs[0]) else None
  }

  function SaveOf(cell: Cell, v: Option<int>): Option<Write> {
    match v case None => None case Some(l) => Some(Save(cell, l))
  }

  lemma StepSaves(p: Platform, action: Action, store: map<string, string>, j: Job, level: int, cell: Cell)
    requires Storable(p, action, j.target, level) && Recognised(p, action, store, [j])
    ensures LastAt(Step(p, action, store, j, level).writes, AtCell(cell))
            == if CellOf(j) == cell then SaveOf(cell, SavedBy(p, action, store, level, j)) else None
  {
    var ws := Step(p, action, store, j, level).writes;
    if action == Sync && p.key(j) in store {
      assert p.key([j][0]) in store;
      assert p.read(j.target, store[p.key(j)]).Value?;
    }
    if |ws| == 2 { LastOfTwo(ws, AtCell(cell)); }
    if |ws| == 1 { assert ws[1..] == []; }
  }

  lemma SavedIgnoresLevel(p: Platform, action: Action, store: map<string, string>, jobs: seq<Job>, k: int, l: int, cell: Cell)
    requires action != Set || k == l
    ensures LastSave(p, action, store, k, jobs, cell) == LastSave(p, action, store, l, jobs, cell)
    decreases |jobs|
  {
    if jobs != [] { SavedIgnoresLevel(p, action, store, jobs[1..], k, l, cell); }
  }

  lemma {:induction false} PlanSaves(p: Platform, action: Action, store: map<string, string>, jobs: seq<Job>, level: int, cell: Cell)
    requires AllStorable(p, action, jobs, level) && Recognised(p, action, store, jobs)
    ensures LastAt(Plan(p, action, store, jobs, level), AtCell(cell)) == SaveOf(cell, LastSave(p, action, store, level, jobs, cell))
    decreases |jobs|
  {
    if jobs != [] {
      var o := Step(p, action, store, jobs[0], level);
      assert [jobs[0]][0] == jobs[0];
      StepSaves(p, action, store, jobs[0], level, cell);
      PlanSaves(p, action, store, jobs[1..], o.level, cell);
      SavedIgnoresLevel(p, action, store, jobs[1..], o.level, level, cell);
      LastAtSplit(o.writes, Plan(p, action, store, jobs[1..], o.level), AtCell(cell));
    }
  }

  /** The last level that the contexts of a list save in the entry of a target in one context. */
  function LastSaved(p: Platform, action: Action, store: map<string, string>, level: int, contexts: seq<Context>, c: Context, u: Target): Option<int>
    decreases |contexts|
  {
    if contexts == [] then None
    else
      match LastSaved(p, action, store, level, contexts[1..], c, u)
      case Some(v) => Some(v)
      case None =>
        if CellOf(Job(contexts[0], u)) == CellOf(Job(c, u)) then SavedBy(p, action, store, level, Job(contexts[0], u)) else None
  }

  lemma {:induction false} LastSaveSplit(p: Platform, action: Action, store: map<string, string>, level: int, a: seq<Job>, b: seq<Job>, cell: Cell)
    ensures LastSave(p, action, store, level, a + b, cell)
            == if LastSave(p, action, store, level, b, cell).Some? then LastSave(p, action, store, level, b, cell)
               else LastSave(p, action, store, level, a, cell)
    decreases |a|
  {
    if a == [] {
      assert a + b == b;
    } else {
      assert (a + b)[0] == a[0] && (a + b)[1..] == a[1..] + b;
      LastSaveSplit(p, action, store, level, a[1..], b, cell);
    }
  }

  /** Within one context only the target itself has its entry. */
  lemma {:induction false} LastSaveInContext(p: Platform, action: Action, store: map<string, string>, level: int, js: seq<Job>, b: Context, c: Context, u: Target)
    requires forall i :: 0 <= i < |js| ==> js[i].context == b
    ensures LastSave(p, action, store, level, js, CellOf(Job(c, u)))
            == if Job(b, u) in js && CellOf(Job(b, u)) == CellOf(Job(c, u)) then SavedBy(p, action, store, level, Job(b, u)) else None
    decreases |js|
  {
    if js != [] {
      LastSaveInContext(p, action, store, level, js[1..], b, c, u);
      assert js == [js[0]] + js[1..];
      assert js[0] == Job(b, js[0].target);
    }
  }

  lemma {:induction false} JobsSave(p: Platform, action: Action, store: map<string, string>, level: int, contexts: seq<Context>, targets: seq<Target>,
                                    c: Context, u: Target)
    requires u in targets
    ensures LastSave(p, action, store, level, Jobs(contexts, targets), CellOf(Job(c, u)))
            == LastSaved(p, action, store, level, contexts, c, u)
    decreases |contexts|
  {
    if contexts != [] {
      var js := JobsIn(contexts[0], targets);
      var i :| 0 <= i < |targets| && targets[i] == u;
      assert js[i] == Job(contexts[0], u);
      JobsSave(p, action, store, level, contexts[1..], targets, c, u);
      LastSaveSplit(p, action, store, level, js, Jobs(contexts[1..], targets), CellOf(Job(c, u)));
      LastSaveInContext(p, action, store, level, js, contexts[0], c, u);
    }
  }

  // ---------------------------------------------------------------- what a plan writes

  /** The write that a job makes to its storage key. */
  function KeyWrite(p: Platform, action: Action, level: int, j: Job): Write
    requires Storable(p, action, j.target, level)
  {
    if action == Set then Put(p.key(j), p.text(j.target, level).value) else Clear(p.key(j))
  }

  /** Every write of a plan is one that a job makes to its key or to its driver entry. */
  lemma {:induction false} WriteOfPlan(p: Platform, action: Action, store: map<string, string>, jobs: seq<Job>, level: int, w: Write) returns (k: nat)
    requires AllStorable(p, action, jobs, level) && Recognised(p, action, store, jobs)
    requires w in Plan(p, action, store, jobs, level)
    ensures k < |jobs|
    ensures
      var j := jobs[k];
      || (action != Sync && w == KeyWrite(p, action, level, j))
      || (SavedBy(p, action, store, level, j).Some? && w == Save(CellOf(j), SavedBy(p, action, store, level, j).value))
    decreases |jobs|
  {
    var o := Step(p, action, store, jobs[0], level);
    if w in o.writes {
      k := 0;
    } else {
      k := WriteOfPlan(p, action, store, jobs[1..], o.level, w);
      k := k + 1;
    }
  }

  /** Writes to one storage key never contradict each other. */
  lemma KeyWritesAgree(p: Platform, action: Action, s: map<string, string>, A: seq<Job>, k: int, B: seq<Job>, l: int, x: string)
    requires Good(p) && AllStorable(p, action, A, k) && AllStorable(p, action, B, l) && (action == Set ==> k == l)
    requires Recognised(p, action, s, A) && Recognised(p, action, s, B)
    requires action == Set ==> (forall i :: 0 <= i < |A| ==> p.named(A[i].context)) && (forall i :: 0 <= i < |B| ==> p.named(B[i].context))
    requires AtKey(x) in Touched(Plan(p, action, s, A, k)) && AtKey(x) in Touched(Plan(p, action, s, B, l))
    ensures LastAt(Plan(p, action, s, A, k), AtKey(x)) == LastAt(Plan(p, action, s, B, l), AtKey(x))
  {
    var a, b := Plan(p, action, s, A, k), Plan(p, action, s, B, l);
    LastAtIsTouch(a, AtKey(x));
    LastAtIsTouch(b, AtKey(x));
    var i := WriteOfPlan(p, action, s, A, k, LastAt(a, AtKey(x)).value);
    var j := WriteOfPlan(p, action, s, B, l, LastAt(b, AtKey(x)).value);
  }

  // ---------------------------------------------------------------- the exact condition for shared entries

  /** The split moves no save past one of another level to the same entry, unless a later save covers
      both. */
  predicate NothingOvertaken(p: Platform, action: Action, store: map<string, string>, pre: seq<Context>, c: Context, post: seq<Context>,
                             targets: seq<Target>, level: int)
  {
    forall i :: 0 <= i < |targets| ==>
      var u := targets[i];
      var mine, earlier := SavedBy(p, action, store, level, Job(c, u)), LastSaved(p, action, store, level, pre, c, u);
      mine.None? || earlier.None? || mine == earlier || LastSaved(p, action, store, level, post, c, u).Some?
  }

  /** The three lists of writes that one pass makes in the order A, B, C, and two passes in the order
      B, A, C. */
  lemma SplitIsSwap(p: Platform, action: Action, m: Memory, A: seq<Job>, B: seq<Job>, C: seq<Job>, level: int)
    requires AllStorable(p, action, A, level) && AllStorable(p, action, B, level) && AllStorable(p, action, C, level)
    requires Recognised(p, action, m.store, A) && Recognised(p, action, m.store, B) && Recognised(p, action, m.store, C)
    ensures AllStorable(p, action, A + (B + C), level) && AllStorable(p, action, A + C, level)
    ensures
      var a, b, c := Plan(p, action, m.store, A, level), Plan(p, action, m.store, B, level), Plan(p, action, m.store, C, level);
      && Pass(p, action, m, A + (B + C), level) == Result(ApplyAll(ApplyAll(ApplyAll(m, a), b), c), false)
      && Pass(p, action, Pass(p, action, m, B, level).memory, A + C, level) == Result(ApplyAll(ApplyAll(ApplyAll(m, b), a), c), false)
  {
    var s := m.store;
    RecognisedParts(p, action, s, B, C);
    StorableParts(p, action, B, C, level);
    PassOfRecognised(p, action, m, A, B + C, level);
    PassOfRecognisedPlans(p, action, s, B, C, level);
    ApplyAllSplit(ApplyAll(m, Plan(p, action, s, A, level)), Plan(p, action, s, B, level), Plan(p, action, s, C, level));
    PassIsPlan(p, action, m, B, level);
    PlanReads(p, action, m, B, level);
    var m1 := Pass(p, action, m, B, level).memory;
    RecognisedReads(p, action, s, m1.store, A);
    RecognisedReads(p, action, s, m1.store, C);
    PassOfRecognised(p, action, m1, A, C, level);
    PlanReadsOnly(p, action, s, m1.store, A, level);
    PlanReadsOnly(p, action, s, m1.store, C, level);
  }

  lemma RecognisedReads(p: Platform, action: Action, s: map<string, string>, t: map<string, string>, jobs: seq<Job>)
    requires Recognised(p, action, s, jobs) && SameReads(action, s, t)
    ensures Recognised(p, action, t, jobs)
  {
  }

  lemma RecognisedParts(p: Platform, action: Action, s: map<string, string>, a: seq<Job>, b: seq<Job>)
    requires Recognised(p, action, s, a) && Recognised(p, action, s, b)
    ensures Recognised(p, action, s, a + b)
  {
  }

  /** Recognised texts do not throw, and the level variable does not matter. */
  lemma {:induction false} RecognisedPlan(p: Platform, action: Action, s: map<string, string>, jobs: seq<Job>, k: int, l: int)
    requires AllStorable(p, action, jobs, k) && AllStorable(p, action, jobs, l) && Recognised(p, action, s, jobs)
    requires action == Set ==> k == l
    ensures NoThrow(p, action, s, jobs) && Plan(p, action, s, jobs, k) == Plan(p, action, s, jobs, l)
  {
    if action == Sync { NotExposed(p, s, jobs); }
    PlanIgnoresLevel(p, action, s, jobs, k, l);
  }

  lemma {:induction false} NotExposed(p: Platform, s: map<string, string>, jobs: seq<Job>)
    requires Recognised(p, Sync, s, jobs)
    ensures !Exposed(p, Sync, s, jobs)
    decreases |jobs|
  {
    if jobs != [] { NotExposed(p, s, jobs[1..]); }
  }

  lemma PassOfRecognisedPlans(p: Platform, action: Action, s: map<string, string>, a: seq<Job>, b: seq<Job>, level: int)
    requires AllStorable(p, action, a, level) && AllStorable(p, action, b, level)
    requires Recognised(p, action, s, a) && Recognised(p, action, s, b)
    ensures AllStorable(p, action, a + b, level)
    ensures Plan(p, action, s, a + b, level) == Plan(p, action, s, a, level) + Plan(p, action, s, b, level)
  {
    StorableParts(p, action, a, b, level);
    PlanSplit(p, action, s, a, b, level);
    RecognisedPlan(p, action, s, b, Carry(p, action, s, a, level), level);
  }

  lemma PassOfRecognised(p: Platform, action: Action, m: Memory, a: seq<Job>, b: seq<Job>, level: int)
    requires AllStorable(p, action, a, level) && AllStorable(p, action, b, level)
    requires Recognised(p, action, m.store, a) && Recognised(p, action, m.store, b)
    ensures AllStorable(p, action, a + b, level)
    ensures Pass(p, action, m, a + b, level)
            == Result(ApplyAll(ApplyAll(m, Plan(p, action, m.store, a, level)), Plan(p, action, m.store, b, level)), false)
  {
    PassOfRecognisedPlans(p, action, m.store, a, b, level);
    RecognisedParts(p, action, m.store, a, b);
    RecognisedPlan(p, action, m.store, a + b, level, level);
    PassIsPlan(p, action, m, a + b, level);
    ApplyAllSplit(m, Plan(p, action, m.store, a, level), Plan(p, action, m.store, b, level));
  }

  lemma RecognisedRequest(p: Platform, action: Action, m: Memory, contexts: seq<Context>, targets: seq<Target>)
    requires action == Sync ==> RecognisedStore(p, m, contexts, targets)
    ensures Recognised(p, action, m.store, Jobs(contexts, targets))
  {
    var js := Jobs(contexts, targets);
    if action == Sync {
      forall i | 0 <= i < |js| && p.key(js[i]) in m.store ensures p.read(js[i].target, m.store[p.key(js[i])]).Value? {
        assert js[i] == Job(js[i].context, js[i].target);
      }
    }
  }

  /** Whatever entries are shared: for "set" and "reset" on every store, and for "sync" on every store
      of recognised texts, the two passes leave what one pass leaves exactly when nothing is overtaken. */
  lemma SharedSplitExactly(p: Platform, action: Action, m: Memory, pre: seq<Context>, c: Context, post: seq<Context>,
                           targets: seq<Target>, level: int)
    requires Good(p) && TargetsStorable(p, action, targets, level) && AllNamed(p, pre) && p.named(c)
    requires action == Sync ==> RecognisedStore(p, m, pre + [c] + post, targets)
    ensures TwoPasses(p, action, m, pre, c, post, targets, level) == OnePass(p, action, m, pre + [c] + post, targets, level)
            <==> NothingOvertaken(p, action, m.store, pre, c, post, targets, level)
  {
    var A, B, C := Jobs(pre, targets), Jobs([c], targets), Jobs(post, targets);
    RecognisedRequest(p, action, m, pre, targets);
    RecognisedRequest(p, action, m, [c], targets);
    RecognisedRequest(p, action, m, post, targets);
    JobsStorable(p, action, pre, targets, level);
    JobsStorable(p, action, [c], targets, level);
    JobsStorable(p, action, post, targets, level);
    JobsOfCut(pre, c, post, targets);
    SplitIsSwap(p, action, m, A, B, C, level);
    var s := m.store;
    SwapExactly(m, Plan(p, action, s, A, level), Plan(p, action, s, B, level), Plan(p, action, s, C, level));
    SwappableIsNothingOvertaken(p, action, s, pre, c, post, targets, level);
  }

  lemma SwappableIsNothingOvertaken(p: Platform, action: Action, s: map<string, string>, pre: seq<Context>, c: Context, post: seq<Context>,
                                    targets: seq<Target>, level: int)
    requires Good(p) && TargetsStorable(p, action, targets, level) && AllNamed(p, pre) && p.named(c)
    requires Recognised(p, action, s, Jobs(pre, targets)) && Recognised(p, action, s, Jobs([c], targets))
    requires Recognised(p, action, s, Jobs(post, targets))
    requires AllStorable(p, action, Jobs(pre, targets), level) && AllStorable(p, action, Jobs([c], targets), level)
    requires AllStorable(p, action, Jobs(post, targets), level)
    ensures Swappable(Plan(p, action, s, Jobs(pre, targets), level), Plan(p, action, s, Jobs([c], targets), level),
                      Plan(p, action, s, Jobs(post, targets), level))
            <==> NothingOvertaken(p, action, s, pre, c, post, targets, level)
  {
    var A, B, C := Jobs(pre, targets), Jobs([c], targets), Jobs(post, targets);
    var a, b, d := Plan(p, action, s, A, level), Plan(p, action, s, B, level), Plan(p, action, s, C, level);
    forall i | 0 <= i < |targets|
      ensures
        var x := AtCell(CellOf(Job(c, targets[i])));
        && (x in Touched(a) <==> LastSaved(p, action, s, level, pre, c, targets[i]).Some?)
        && (x in Touched(b) <==> SavedBy(p, action, s, level, Job(c, targets[i])).Some?)
        && (x in Touched(d) <==> LastSaved(p, action, s, level, post, c, targets[i]).Some?)
        && (x in Touched(a) && x in Touched(b) ==>
              (LastAt(a, x) == LastAt(b, x)
               <==> LastSaved(p, action, s, level, pre, c, targets[i]) == SavedBy(p, action, s, level, Job(c, targets[i]))))
    {
      EntryOf(p, action, s, pre, c, targets, level, targets[i]);
      EntryOf(p, action, s, [c], c, targets, level, targets[i]);
      EntryOf(p, action, s, post, c, targets, level, targets[i]);
      assert [c][1..] == [];
    }
    if NothingOvertaken(p, action, s, pre, c, post, targets, level) {
      forall x | x in Touched(a) && x in Touched(b) && x !in Touched(d) ensures LastAt(a, x) == LastAt(b, x) {
        match x {
          case AtKey(key) => KeyWritesAgree(p, action, s, A, level, B, level, key);
          case AtCell(cell) =>
            var i := TargetOfEntry(p, action, s, c, targets, level, cell);
        }
      }
    }
  }

  /** What the contexts of a list leave in an entry. */
  lemma EntryOf(p: Platform, action: Action, s: map<string, string>, contexts: seq<Context>, c: Context, targets: seq<Target>, level: int, u: Target)
    requires u in targets && AllStorable(p, action, Jobs(contexts, targets), level) && Recognised(p, action, s, Jobs(contexts, targets))
    ensures
      var x := AtCell(CellOf(Job(c, u)));
      var ws := Plan(p, action, s, Jobs(contexts, targets), level);
      && LastAt(ws, x) == SaveOf(CellOf(Job(c, u)), LastSaved(p, action, s, level, contexts, c, u))
      && (x in Touched(ws) <==> LastSaved(p, action, s, level, contexts, c, u).Some?)
  {
    PlanSaves(p, action, s, Jobs(contexts, targets), level, CellOf(Job(c, u)));
    JobsSave(p, action, s, level, contexts, targets, c, u);
    LastAtIsTouch(Plan(p, action, s, Jobs(contexts, targets), level), AtCell(CellOf(Job(c, u))));
  }

  lemma TargetOfEntry(p: Platform, action: Action, s: map<string, string>, c: Context, targets: seq<Target>, level: int, cell: Cell) returns (i: nat)
    requires AllStorable(p, action, Jobs([c], targets), level) && Recognised(p, action, s, Jobs([c], targets))
    requires AtCell(cell) in Touched(Plan(p, action, s, Jobs([c], targets), level))
    ensures i < |targets| && CellOf(Job(c, targets[i])) == cell
  {
    var b := Plan(p, action, s, Jobs([c], targets), level);
    LastAtIsTouch(b, AtCell(cell));
    var k := WriteOfPlan(p, action, s, Jobs([c], targets), level, LastAt(b, AtCell(cell)).value);
    var j := Jobs([c], targets)[k];
    assert j == Job(c, j.target) && j.target in targets;
    i := IndexOf(targets, j.target);
  }

  // ---------------------------------------------------------------- the cases that matter

  /** A level that a "set" saves earlier is the level it saves later. */
  lemma {:induction false} SetSavesOneLevel(p: Platform, store: map<string, string>, level: int, contexts: seq<Context>, c: Context, u: Target)
    ensures LastSaved(p, Set, store, level, contexts, c, u).Some?
            ==> LastSaved(p, Set, store, level, contexts, c, u) == SavedBy(p, Set, store, level, Job(c, u)) == Some(level)
    decreases |contexts|
  {
    if contexts != [] { SetSavesOneLevel(p, store, level, contexts[1..], c, u); }
  }

  lemma {:induction false} FreshIsNotSaved(p: Platform, action: Action, store: map<string, string>, level: int, pre: seq<Context>, c: Context, u: Target)
    requires forall b :: b in pre ==> CellOf(Job(b, u)) != CellOf(Job(c, u))
    ensures LastSaved(p, action, store, level, pre, c, u) == None
    decreases |pre|
  {
    if pre != [] { FreshIsNotSaved(p, action, store, level, pre[1..], c, u); }
  }

  /** Splitting preserves the meaning of every "set". It preserves "reset", and "sync" on recognised
      texts, when the context on screen shares no driver entry with an earlier one. */
  lemma SplitPreserves(p: Platform, action: Action, m: Memory, pre: seq<Context>, c: Context, post: seq<Context>,
                       targets: seq<Target>, level: int)
    requires Good(p) && TargetsStorable(p, action, targets, level) && AllNamed(p, pre) && p.named(c)
    requires action == Sync ==> RecognisedStore(p, m, pre + [c] + post, targets)
    requires action != Set ==> FreshCells(pre, c, targets)
    ensures TwoPasses(p, action, m, pre, c, post, targets, level) == OnePass(p, action, m, pre + [c] + post, targets, level)
  {
    SharedSplitExactly(p, action, m, pre, c, post, targets, level);
    forall i | 0 <= i < |targets|
      ensures
        var earlier := LastSaved(p, action, m.store, level, pre, c, targets[i]);
        earlier.None? || earlier == SavedBy(p, action, m.store, level, Job(c, targets[i]))
    {
      if action == Set {
        SetSavesOneLevel(p, m.store, level, pre, c, targets[i]);
      } else {
        FreshIsNotSaved(p, action, m.store, level, pre, c, targets[i]);
      }
    }
  }

  // ---------------------------------------------------------------- SDRGamma

  /** The last context of a list with a given mode and source. */
  function LastSharer(contexts: seq<Context>, c: Context): Option<Context>
    decreases |contexts|
  {
    if contexts == [] then None
    else
      match LastSharer(contexts[1..], c)
      case Some(b) => Some(b)
      case None => if contexts[0].mode == c.mode && contexts[0].source == c.source then Some(contexts[0]) else None
  }

  /** SDRGamma is saved whatever its level, as it is on the plugin. */
  ghost predicate GammaUnbounded(p: Platform) { forall t: Target, l: int :: t == Whole(SDRGamma) ==> p.inRange(t, l) }

  lemma {:induction false} ResetSaves(p: Platform, store: map<string, string>, level: int, contexts: seq<Context>, c: Context)
    requires GammaUnbounded(p)
    ensures LastSaved(p, Reset, store, level, contexts, c, Whole(SDRGamma))
            == match LastSharer(contexts, c) case None => None case Some(b) => Some(p.defaults(Job(b, Whole(SDRGamma))))
    decreases |contexts|
  {
    if contexts != [] {
      var j := Job(contexts[0], Whole(SDRGamma));
      ResetSaves(p, store, level, contexts[1..], c);
      var d := p.defaults(j);
      assert p.inRange(j.target, d);
    }
  }

  lemma {:induction false} OnlyItselfSaves(p: Platform, store: map<string, string>, level: int, contexts: seq<Context>, c: Context, u: Target)
    requires u != Whole(SDRGamma)
    ensures LastSaved(p, Reset, store, level, contexts, c, u).Some?
            ==> LastSaved(p, Reset, store, level, contexts, c, u) == SavedBy(p, Reset, store, level, Job(c, u))
    decreases |contexts|
  {
    if contexts != [] { OnlyItselfSaves(p, store, level, contexts[1..], c, u); }
  }

  /** A "reset" may be split exactly when it does not concern SDRGamma, or no context before the one on
      screen has its mode and source, or one after it has, or the last one before it has the same
      default. */
  lemma ResetSplitsExactly(p: Platform, m: Memory, pre: seq<Context>, c: Context, post: seq<Context>, targets: seq<Target>, level: int)
    requires Good(p) && GammaUnbounded(p) && AllNamed(p, pre) && p.named(c)
    ensures TwoPasses(p, Reset, m, pre, c, post, targets, level) == OnePass(p, Reset, m, pre + [c] + post, targets, level)
            <==> (Whole(SDRGamma) in targets ==>
                    var g, earlier := Whole(SDRGamma), LastSharer(pre, c);
                    earlier.None? || LastSharer(post, c).Some? || p.defaults(Job(earlier.value, g)) == p.defaults(Job(c, g)))
  {
    SharedSplitExactly(p, Reset, m, pre, c, post, targets, level);
    ResetSaves(p, m.store, level, pre, c);
    ResetSaves(p, m.store, level, post, c);
    forall i | 0 <= i < |targets| && targets[i] != Whole(SDRGamma)
      ensures
        var earlier := LastSaved(p, Reset, m.store, level, pre, c, targets[i]);
        earlier.None? || earlier == SavedBy(p, Reset, m.store, level, Job(c, targets[i]))
    {
      OnlyItselfSaves(p, m.store, level, pre, c, targets[i]);
    }
    if Whole(SDRGamma) in targets { var i := IndexOf(targets, Whole(SDRGamma)); }
  }

  /** What one pass and two passes leave in the entry of SDRGamma. */
  lemma GammaEntry(p: Platform, action: Action, m: Memory, pre: seq<Context>, c: Context, post: seq<Context>, level: int)
    requires TargetsStorable(p, action, [Whole(SDRGamma)], level)
    requires action == Sync ==> RecognisedStore(p, m, pre + [c] + post, [Whole(SDRGamma)])
    ensures
      var g := Whole(SDRGamma);
      var x := AtCell(CellOf(Job(c, g)));
      var mine, s := SavedBy(p, action, m.store, level, Job(c, g)), m.store;
      var earlier, later := LastSaved(p, action, s, level, pre, c, g), LastSaved(p, action, s, level, post, c, g);
      && ContentAt(OnePass(p, action, m, pre + [c] + post, [g], level).memory, x)
         == (if later.Some? then Saved(later.value) else if mine.Some? then Saved(mine.value)
             else if earlier.Some? then Saved(earlier.value) else ContentAt(m, x))
      && ContentAt(TwoPasses(p, action, m, pre, c, post, [g], level).memory, x)
         == (if later.Some? then Saved(later.value) else if earlier.Some? then Saved(earlier.value)
             else if mine.Some? then Saved(mine.value) else ContentAt(m, x))
  {
    var g := Whole(SDRGamma);
    var ts, s := [g], m.store;
    var A, B, C := Jobs(pre, ts), Jobs([c], ts), Jobs(post, ts);
    RecognisedRequest(p, action, m, pre, ts);
    RecognisedRequest(p, action, m, [c], ts);
    RecognisedRequest(p, action, m, post, ts);
    JobsStorable(p, action, pre, ts, level);
    JobsStorable(p, action, [c], ts, level);
    JobsStorable(p, action, post, ts, level);
    JobsOfCut(pre, c, post, ts);
    SplitIsSwap(p, action, m, A, B, C, level);
    EntryOf(p, action, s, pre, c, ts, level, g);
    EntryOf(p, action, s, [c], c, ts, level, g);
    EntryOf(p, action, s, post, c, ts, level, g);
    assert [c][1..] == [];
    var a, b, d := Plan(p, action, s, A, level), Plan(p, action, s, B, level), Plan(p, action, s, C, level);
    ContentAfterThree(m, a, b, d, AtCell(CellOf(Job(c, g))));
    ContentAfterThree(m, b, a, d, AtCell(CellOf(Job(c, g))));
  }

  /** Resetting SDRGamma in two formats of one mode and source, the later one on screen, leaves the
      default of the screen's format after one pass and that of the other format after two. */
  lemma ResetSplitDiffers(p: Platform, m: Memory, b: Context, c: Context)
    requires GammaUnbounded(p) && b.mode == c.mode && b.source == c.source
    ensures
      var g := Whole(SDRGamma);
      var cell := CellOf(Job(c, g));
      var one, two := OnePass(p, Reset, m, [b] + [c] + [], [g], 0).memory, TwoPasses(p, Reset, m, [b], c, [], [g], 0).memory;
      && cell in one.driver && one.driver[cell] == p.defaults(Job(c, g))
      && cell in two.driver && two.driver[cell] == p.defaults(Job(b, g))
  {
    assert [b][1..] == [];
    GammaEntry(p, Reset, m, [b], c, [], 0);
    ResetSaves(p, m.store, 0, [b], c);
  }

  /** The store used below: only the SDR gammas of two contexts are stored. */
  function TwoGammas(p: Platform, b: Context, t: string, c: Context, u: string): map<string, string> {
    map[p.key(Job(b, Whole(SDRGamma))) := t, p.key(Job(c, Whole(SDRGamma))) := u]
  }

  lemma {:induction false} OnlyStoredSaves(p: Platform, store: map<string, string>, contexts: seq<Context>, c: Context, b: Context)
    requires forall d :: d in contexts && d != b ==> p.key(Job(d, Whole(SDRGamma))) !in store
    requires CellOf(Job(b, Whole(SDRGamma))) == CellOf(Job(c, Whole(SDRGamma)))
    ensures LastSaved(p, Sync, store, 0, contexts, c, Whole(SDRGamma))
            == if b in contexts then SavedBy(p, Sync, store, 0, Job(b, Whole(SDRGamma))) else None
    decreases |contexts|
  {
    if contexts != [] {
      assert contexts == [contexts[0]] + contexts[1..];
      OnlyStoredSaves(p, store, contexts[1..], c, b);
    }
  }

  lemma OthersAbsent(p: Platform, b: Context, t: string, c: Context, u: string, d: Context)
    requires Good(p) && p.named(b) && p.named(c) && p.named(d) && d != b && d != c
    ensures p.key(Job(d, Whole(SDRGamma))) !in TwoGammas(p, b, t, c, u)
  {
    KeysDiffer(p, Job(d, Whole(SDRGamma)), Job(b, Whole(SDRGamma)));
    KeysDiffer(p, Job(d, Whole(SDRGamma)), Job(c, Whole(SDRGamma)));
  }

  /** When the context on screen follows one that differs from it only in the format, splitting a
      "sync" of SDRGamma leaves the driver with the wrong one of the two stored levels. */
  lemma GammaSplitDiffers(p: Platform, pre: seq<Context>, b: Context, c: Context, post: seq<Context>, t: string, u: string, v: int, w: int)
    requires Good(p) && AllNamed(p, pre) && p.named(c) && AllNamed(p, post) && c !in pre && c !in post
    requires b in pre && b !in post && b.mode == c.mode && b.source == c.source
    requires var g := Whole(SDRGamma);
             p.read(g, t) == Value(v) && p.read(g, u) == Value(w) && p.inRange(g, v) && p.inRange(g, w)
    ensures
      var g := Whole(SDRGamma);
      var m := Memory(TwoGammas(p, b, t, c, u), map[]);
      var cell := CellOf(Job(c, g));
      var one := OnePass(p, Sync, m, pre + [c] + post, [g], 0).memory;
      var two := TwoPasses(p, Sync, m, pre, c, post, [g], 0).memory;
      && RecognisedStore(p, m, pre + [c] + post, [g])
      && cell in one.driver && one.driver[cell] == w && cell in two.driver && two.driver[cell] == v
  {
    var g := Whole(SDRGamma);
    var store := TwoGammas(p, b, t, c, u);
    var m := Memory(store, map[]);
    KeysDiffer(p, Job(b, g), Job(c, g));
    forall d | d in pre + post && d != b ensures p.key(Job(d, g)) !in store { OthersAbsent(p, b, t, c, u, d); }
    OnlyStoredSaves(p, store, pre, c, b);
    OnlyStoredSaves(p, store, post, c, b);
    forall d, h | d in pre + [c] + post && h in [g] && p.key(Job(d, h)) in store ensures p.read(h, store[p.key(Job(d, h))]).Value? {
      assert d == b || d == c || d in pre + post;
    }
    GammaEntry(p, Sync, m, pre, c, post, 0);
  }

  /** For SDRGamma, "sync" may be split on every store of recognised texts exactly when no context
      before the one on screen has its mode and source. */
  lemma GammaSplitsExactly(p: Platform, pre: seq<Context>, c: Context, post: seq<Context>, t: string, u: string)
    requires Good(p) && AllNamed(p, pre) && p.named(c) && AllNamed(p, post) && c !in pre && c !in post
    requires forall b :: b in pre ==> b !in post
    requires var g := Whole(SDRGamma);
             p.read(g, t).Value? && p.read(g, u).Value? && p.read(g, t) != p.read(g, u) && GammaUnbounded(p)
    ensures
      var g := Whole(SDRGamma);
      (forall m, level :: RecognisedStore(p, m, pre + [c] + post, [g]) ==>
         TwoPasses(p, Sync, m, pre, c, post, [g], level) == OnePass(p, Sync, m, pre + [c] + post, [g], level))
      <==> forall b :: b in pre ==> b.mode != c.mode || b.source != c.source
  {
    var g := Whole(SDRGamma);
    var all := pre + [c] + post;
    FreshUnlessGamma(pre, c, [g]);
    if forall b :: b in pre ==> b.mode != c.mode || b.source != c.source {
      forall m, level | RecognisedStore(p, m, all, [g])
        ensures TwoPasses(p, Sync, m, pre, c, post, [g], level) == OnePass(p, Sync, m, all, [g], level)
      {
        SplitPreserves(p, Sync, m, pre, c, post, [g], level);
      }
    } else {
      var b :| b in pre && b.mode == c.mode && b.source == c.source;
      var m := Memory(TwoGammas(p, b, t, c, u), map[]);
      GammaSplitDiffers(p, pre, b, c, post, t, u, p.read(g, t).level, p.read(g, u).level);
      assert TwoPasses(p, Sync, m, pre, c, post, [g], 0) != OnePass(p, Sync, m, all, [g], 0);
    }
  }

  /** Over the plugin's own tables, what the encoder wrote is recognised, as long as the level had
      a text of its own. */
  lemma EncoderTextsAreRecognised(n: Tables, levels: Levels, ranges: Ranges, defaults: Job -> int, t: Target, level: int)
    requires n.Good() && levels.Valid() && IsInt32(level)
    requires t.Whole? && IsCoded(t.param) ==> level in levels.Of(t.param)
    ensures
      var p := Plugin(n, levels, ranges, defaults);
      p.text(t, level).Some? && p.read(t, p.text(t, level).value) == Value(level)
  {
    if t.Whole? { RoundTrip(levels, t.param, level); } else { StoiRoundTrip(level); }
  }
}
