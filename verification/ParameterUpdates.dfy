/** The object that carries out parameter updates: the store, the driver table and the hardware it
    writes, and the queue it shares with its worker. Each method is proved against the functions
    of Updates, Splitting and Contexts. */
module ParameterUpdates {
  import opened Text
  import opened Names
  import opened Keys
  import opened Contexts
  import opened Encoding
  import opened Updates
  import Splitting
  import QueuedUpdates

  /** What is pushed on the queue: the captured arguments of one implementation call. */
  datatype Task = Task(action: Action, contexts: seq<Context>, targets: seq<Target>, level: int)

  datatype Status = Ok | GeneralError | Exception

  /** The position of the first context that passes a test. */
  function FirstIndex(contexts: seq<Context>, test: Context -> bool): (k: nat)
    ensures k <= |contexts|
    ensures k < |contexts| ==> test(contexts[k])
    ensures forall i :: 0 <= i < k ==> !test(contexts[i])
  {
    if contexts == [] || test(contexts[0]) then 0 else 1 + FirstIndex(contexts[1..], test)
  }

  /** Does a context carry the three names on screen? */
  function ScreenTest(n: Tables, req: Request, rd: Readings): Context -> bool
    requires n.Good()
  {
    c => CarriesNames(n, c, req, rd)
  }

  /** The contexts that are written before the call returns. */
  function NowPart(contexts: seq<Context>, test: Context -> bool): seq<Context> {
    var k := FirstIndex(contexts, test);
    if |contexts| == 1 then contexts else if k < |contexts| then [contexts[k]] else []
  }

  /** The contexts that are queued. */
  function LaterPart(contexts: seq<Context>, test: Context -> bool): seq<Context> {
    var k := FirstIndex(contexts, test);
    if |contexts| == 1 then [] else if k < |contexts| then contexts[..k] + contexts[k + 1..] else contexts
  }

  function Resolved(n: Tables, caps: Option<seq<Context>>, req: Request, rd: Readings): seq<Context>
    requires n.Good()
  {
    if caps.Some? then Resolve(n, caps.value, req, rd) else []
  }

  /** When the context on screen is known, the cut made by names is the cut of QueuedUpdates. */
  lemma CutByNames(n: Tables, sys: QueuedUpdates.System, contexts: seq<Context>, req: Request, rd: Readings)
    requires n.Good() && Known(n, req, rd) && sys.screen == OnScreen(n, req, rd)
    ensures NowPart(contexts, ScreenTest(n, req, rd)) == QueuedUpdates.AtOnce(sys, contexts)
    ensures LaterPart(contexts, ScreenTest(n, req, rd)) == QueuedUpdates.Later(sys, contexts)
  {
    forall i | 0 <= i < |contexts| ensures CarriesNames(n, contexts[i], req, rd) <==> contexts[i] == sys.screen {
      NamesTellOnScreen(n, contexts[i], req, rd);
    }
    CutByTest(contexts, ScreenTest(n, req, rd), sys);
  }

  /** The cut with nothing left to look up: a request for one context is written at once; of several, the
      one on screen is, and the others are queued in their order. */
  lemma CutExactly(n: Tables, contexts: seq<Context>, req: Request, rd: Readings, a: seq<Context>, b: seq<Context>)
    requires n.Good() && Known(n, req, rd)
    ensures
      var now, later := NowPart(contexts, ScreenTest(n, req, rd)), LaterPart(contexts, ScreenTest(n, req, rd));
      var screen := OnScreen(n, req, rd);
      && (|contexts| == 1 ==> now == contexts && later == [])
      && (|contexts| != 1 && screen !in contexts ==> now == [] && later == contexts)
      && (|contexts| != 1 && contexts == a + [screen] + b && screen !in a ==> now == [screen] && later == a + b)
  {
    var screen := OnScreen(n, req, rd);
    forall i | 0 <= i < |contexts| ensures CarriesNames(n, contexts[i], req, rd) <==> contexts[i] == screen {
      NamesTellOnScreen(n, contexts[i], req, rd);
    }
    var test := ScreenTest(n, req, rd);
    if screen in contexts { var i := IndexOf(contexts, screen); }
    if |contexts| != 1 && contexts == a + [screen] + b && screen !in a { CutAt(contexts, test, screen, a, b); }
  }

  lemma CutAt(contexts: seq<Context>, test: Context -> bool, screen: Context, a: seq<Context>, b: seq<Context>)
    requires forall i :: 0 <= i < |contexts| ==> (test(contexts[i]) <==> contexts[i] == screen)
    requires |contexts| != 1 && contexts == a + [screen] + b && screen !in a
    ensures NowPart(contexts, test) == [screen] && LaterPart(contexts, test) == a + b
  {
    assert contexts[|a|] == screen && forall i :: 0 <= i < |a| ==> contexts[i] == a[i];
    assert FirstIndex(contexts, test) == |a|;
    assert contexts[..|a|] == a && contexts[|a| + 1..] == b;
  }

  lemma CutByTest(contexts: seq<Context>, test: Context -> bool, sys: QueuedUpdates.System)
    requires forall i :: 0 <= i < |contexts| ==> (test(contexts[i]) <==> contexts[i] == sys.screen)
    ensures NowPart(contexts, test) == QueuedUpdates.AtOnce(sys, contexts)
    ensures LaterPart(contexts, test) == QueuedUpdates.Later(sys, contexts)
  {
    var k := FirstIndex(contexts, test);
    if sys.screen in contexts {
      var i := IndexOf(contexts, sys.screen);
      assert forall j :: 0 <= j < i ==> contexts[j] == contexts[..i][j];
      assert i == k;
    }
  }

  /** A setting holds a level in both places. */
  predicate Persisted(p: Platform, m: Memory, j: Job, level: int) {
    && p.key(j) in m.store && Some(m.store[p.key(j)]) == p.text(j.target, level)
    && CellOf(j) in m.driver && m.driver[CellOf(j)] == level
  }

  /** A pass of "set" over one context leaves the level in the store and in the driver. */
  lemma SetPersists(p: Platform, m: Memory, c: Context, param: Param, level: int)
    requires TargetsStorable(p, Set, [Whole(param)], level)
    ensures Persisted(p, Splitting.OnePass(p, Set, m, [c], [Whole(param)], level).memory, Job(c, Whole(param)), level)
  {
    var j := Job(c, Whole(param));
    assert [Whole(param)][0] == Whole(param);
    assert [c][1..] == [];
    assert Jobs([c], [Whole(param)]) == JobsIn(c, [Whole(param)]) + Jobs([], [Whole(param)]);
    assert Jobs([c], [Whole(param)]) == [j];
    var o := Step(p, Set, m.store, j, level);
    var put, save := o.writes[0], o.writes[1];
    AtMostTwoWrites(m, o.writes);
    assert [j][1..] == [];
    assert Pass(p, Set, m, [j], level).memory == Apply(Apply(m, put), save);
  }

  lemma AtMostTwoWrites(m: Memory, ws: seq<Write>)
    ensures ws == [] ==> ApplyAll(m, ws) == m
    ensures |ws| == 1 ==> ApplyAll(m, ws) == Apply(m, ws[0])
    ensures |ws| == 2 ==> ApplyAll(m, ws) == Apply(Apply(m, ws[0]), ws[1])
  {
    if |ws| == 1 { assert ws[1..] == []; }
    if |ws| == 2 {
      assert ws == [ws[0]] + [ws[1]];
      ApplyAllSplit(m, [ws[0]], [ws[1]]);
    }
  }

  // ---------------------------------------------------------------- hardware and store

  /** The hardware has to be set for the context on screen, and no list of the request mixes
      "Global" with names. */
  predicate Reaches(n: Tables, caps: Option<seq<Context>>, req: Request, rd: Readings)
    requires n.Good()
  {
    caps.Some? && Known(n, req, rd) && SetRequired(n, caps.value, req, rd) && !MixesGlobal(n, req, rd)
  }

  /** Then that context is written at once, so hardware, store and driver agree on return. */
  lemma ReachedIsPersisted(n: Tables, p: Platform, m: Memory, caps: Option<seq<Context>>, req: Request, rd: Readings, param: Param, v: int)
    requires n.Good() && Reaches(n, caps, req, rd) && TargetsStorable(p, Set, [Whole(param)], v)
    ensures
      var contexts := Resolved(n, caps, req, rd);
      && contexts != []
      && Persisted(p, Splitting.OnePass(p, Set, m, NowPart(contexts, ScreenTest(n, req, rd)), [Whole(param)], v).memory,
                   Job(OnScreen(n, req, rd), Whole(param)), v)
  {
    ScreenIsNow(n, caps.value, req, rd);
    SetPersists(p, m, OnScreen(n, req, rd), param, v);
  }

  class ParameterStore {
    const n: Tables
    const p: Platform
    var store: map<string, string>
    var driver: map<Cell, int>
    var hardware: map<Target, int>
    var paramUpdateQueue: seq<Task>

    constructor (n: Tables, p: Platform)
      requires n.Good()
      ensures this.n == n && this.p == p && paramUpdateQueue == []
    {
      this.n, this.p := n, p;
      store, driver, hardware, paramUpdateQueue := map[], map[], map[], [];
    }

    function Contents(): Memory reads this { Memory(store, driver) }

    /** One turn of the innermost loop of updateAVoutputTVParamV2Implementation. */
    method UpdateOne(action: Action, j: Job, level: int) returns (after: int, thrown: bool)
      requires Storable(p, action, j.target, level)
      modifies this`store, this`driver
      ensures
        var o := Step(p, action, old(store), j, level);
        Contents() == ApplyAll(old(Contents()), o.writes) && after == o.level && thrown == o.thrown
    {
      ghost var o := Step(p, action, store, j, level);
      ghost var m := Contents();
      after, thrown := level, false;
      match action {
        case Set =>
          if j.target.Whole? {
            store := store[p.key(j) := p.text(j.target, level).value];
            driver := driver[CellOf(j) := level];
          } else if p.inRange(j.target, level) {
            driver := driver[CellOf(j) := level];
            store := store[p.key(j) := p.text(j.target, level).value];
          }
        case Reset =>
          store := store - {p.key(j)};
          after := p.defaults(j);
          if p.inRange(j.target, after) { driver := driver[CellOf(j) := after]; }
        case Sync =>
          if p.key(j) in store {
            match p.read(j.target, store[p.key(j)]) {
              case Throws => thrown := true;
              case Unchanged => driver := driver[CellOf(j) := level];
              case Value(v) =>
                after := v;
                if p.inRange(j.target, v) { driver := driver[CellOf(j) := v]; }
            }
          }
      }
      AtMostTwoWrites(m, o.writes);
    }

    /** updateAVoutputTVParamV2Implementation: contexts in the outer loop, targets in the inner one,
        one level variable throughout. */
    method UpdateImplementation(action: Action, contexts: seq<Context>, targets: seq<Target>, level0: int) returns (thrown: bool)
      requires TargetsStorable(p, action, targets, level0)
      modifies this`store, this`driver
      ensures Splitting.OnePass(p, action, old(Contents()), contexts, targets, level0) == Result(Contents(), thrown)
    {
      var level := level0;
      thrown := false;
      ghost var goal := Splitting.OnePass(p, action, Contents(), contexts, targets, level0);
      for i := 0 to |contexts|
        invariant action == Set ==> level == level0
        invariant Splitting.OnePass(p, action, Contents(), contexts[i..], targets, level) == goal
      {
        var c := contexts[i];
        ghost var rest := Jobs(contexts[i + 1..], targets);
        assert contexts[i..][0] == c && contexts[i..][1..] == contexts[i + 1..];
        assert JobsIn(c, targets)[0..] == JobsIn(c, targets);
        Splitting.JobsStorable(p, action, contexts[i + 1..], targets, level);
        for k := 0 to |targets|
          invariant action == Set ==> level == level0
          invariant AllStorable(p, action, JobsIn(c, targets)[k..] + rest, level)
          invariant Pass(p, action, Contents(), JobsIn(c, targets)[k..] + rest, level) == goal
        {
          ghost var js := JobsIn(c, targets)[k..] + rest;
          assert js[0] == Job(c, targets[k]) && js[1..] == JobsIn(c, targets)[k + 1..] + rest;
          level, thrown := UpdateOne(action, Job(c, targets[k]), level);
          if thrown { return; }
        }
        assert JobsIn(c, targets)[|targets|..] + rest == rest;
      }
    }

    /** updateAVoutputTVParamV2: resolve the contexts, write the one on screen at once and push the
        others as one task. */
    method Update(action: Action, caps: Option<seq<Context>>, req: Request, rd: Readings, targets: seq<Target>, level: int)
      returns (status: Status)
      requires n.Good() && TargetsStorable(p, action, targets, level)
      modifies this`store, this`driver, this`paramUpdateQueue
      ensures
        var contexts := Resolved(n, caps, req, rd);
        var now, later := NowPart(contexts, ScreenTest(n, req, rd)), LaterPart(contexts, ScreenTest(n, req, rd));
        var result := Splitting.OnePass(p, action, old(Contents()), now, targets, level);
        && (status == GeneralError <==> contexts == [])
        && (status == Exception <==> result.thrown)
        && Contents() == result.memory
        && paramUpdateQueue == old(paramUpdateQueue) + if later == [] || result.thrown then [] else [Task(action, later, targets, level)]
    {
      var contexts := GetValidContexts(n, caps, req, rd);
      if contexts == [] { return GeneralError; }
      ghost var onScreen := ScreenTest(n, req, rd);
      if |contexts| == 1 {
        assert NowPart(contexts, onScreen) == contexts && LaterPart(contexts, onScreen) == [];
        var thrown := UpdateImplementation(action, contexts, targets, level);
        return if thrown then Exception else Ok;
      }
      var immediate, queued := Cut(contexts, ScreenTest(n, req, rd));
      status := UpdateParts(action, immediate, queued, targets, level);
    }

    /** What is done with the two parts of a request for several contexts. */
    method UpdateParts(action: Action, immediate: seq<Context>, queued: seq<Context>, targets: seq<Target>, level: int)
      returns (status: Status)
      requires TargetsStorable(p, action, targets, level) && (immediate == [] ==> queued != [])
      modifies this`store, this`driver, this`paramUpdateQueue
      ensures
        var result := Splitting.OnePass(p, action, old(Contents()), immediate, targets, level);
        && status == (if result.thrown then Exception else Ok)
        && Contents() == result.memory
        && paramUpdateQueue == old(paramUpdateQueue) + if queued == [] || result.thrown then [] else [Task(action, queued, targets, level)]
    {
      if immediate != [] {
        var thrown := UpdateImplementation(action, immediate, targets, level);
        if thrown { return Exception; }
        if queued == [] { return Ok; }
      }
      paramUpdateQueue := paramUpdateQueue + [Task(action, queued, targets, level)];
      status := Ok;
    }

    /** The loop that takes the first context with the three names on screen out of the list. */
    method Cut(contexts: seq<Context>, onScreen: Context -> bool) returns (immediate: seq<Context>, queued: seq<Context>)
      requires |contexts| != 1
      ensures immediate == NowPart(contexts, onScreen) && queued == LaterPart(contexts, onScreen)
    {
      immediate, queued := [], [];
      ghost var k := FirstIndex(contexts, onScreen);
      for i := 0 to |contexts|
        invariant if k < i then immediate == [contexts[k]] && queued == contexts[..k] + contexts[k + 1..i]
                  else immediate == [] && queued == contexts[..i]
      {
        if immediate == [] && onScreen(contexts[i]) {
          immediate := immediate + [contexts[i]];
        } else {
          queued := queued + [contexts[i]];
        }
      }
      assert contexts[..|contexts|] == contexts;
      if k < |contexts| { assert contexts[k + 1..|contexts|] == contexts[k + 1..]; }
    }

    /** One turn of paramUpdateWorker on a non-empty queue: the front task is run to its end or to
        its exception, which is swallowed. */
    method RunFrontTask()
      requires paramUpdateQueue != []
      requires var t := paramUpdateQueue[0]; TargetsStorable(p, t.action, t.targets, t.level)
      modifies this`store, this`driver, this`paramUpdateQueue
      ensures paramUpdateQueue == old(paramUpdateQueue)[1..]
      ensures var t := old(paramUpdateQueue)[0];
              Contents() == Splitting.OnePass(p, t.action, old(Contents()), t.contexts, t.targets, t.level).memory
    {
      var task := paramUpdateQueue[0];
      paramUpdateQueue := paramUpdateQueue[1..];
      var thrown := UpdateImplementation(task.action, task.contexts, task.targets, task.level);
    }

    /** setIntPQParam. Its value arrives as text; halAccepts is the HAL setter's verdict. */
    method SetInt(caps: Option<seq<Context>>, req: Request, rd: Readings, param: Param, value: Option<string>, maxCap: int, halAccepts: bool)
      returns (success: bool)
      requires n.Good() && forall l :: TargetsStorable(p, Set, [Whole(param)], l)
      modifies this`store, this`driver, this`hardware, this`paramUpdateQueue
      ensures
        var v := if value.Some? then Stoi(value.value) else None;
        var required := caps.Some? && SetRequired(n, caps.value, req, rd);
        var contexts := Resolved(n, caps, req, rd);
        if v.None? || !(0 <= v.value <= maxCap) || (required && !halAccepts) then
          !success && unchanged(this)
        else
          && (success <==> contexts != [])
          && hardware == (if required then old(hardware)[Whole(param) := v.value] else old(hardware))
          && Contents() == Splitting.OnePass(p, Set, old(Contents()), NowPart(contexts, ScreenTest(n, req, rd)), [Whole(param)], v.value).memory
          && (Reaches(n, caps, req, rd) ==> success && Persisted(p, Contents(), Job(OnScreen(n, req, rd), Whole(param)), v.value))
    {
      if value.None? { return false; }
      var parsed := Stoi(value.value);
      if parsed.None? { return false; }
      if parsed.value < 0 || parsed.value > maxCap { return false; }
      if Reaches(n, caps, req, rd) { ReachedIsPersisted(n, p, Contents(), caps, req, rd, param, parsed.value); }
      success := SetLevel(caps, req, rd, param, parsed.value, halAccepts);
    }

    /** The rest of setIntPQParam, for a level in range. */
    method SetLevel(caps: Option<seq<Context>>, req: Request, rd: Readings, param: Param, v: int, halAccepts: bool)
      returns (success: bool)
      requires n.Good() && TargetsStorable(p, Set, [Whole(param)], v)
      modifies this`store, this`driver, this`hardware, this`paramUpdateQueue
      ensures
        var required := caps.Some? && SetRequired(n, caps.value, req, rd);
        var contexts := Resolved(n, caps, req, rd);
        if required && !halAccepts then
          !success && unchanged(this)
        else
          && (success <==> contexts != [])
          && hardware == (if required then old(hardware)[Whole(param) := v] else old(hardware))
          && Contents() == Splitting.OnePass(p, Set, old(Contents()), NowPart(contexts, ScreenTest(n, req, rd)), [Whole(param)], v).memory
    {
      var required := IsSetRequired(n, caps, req, rd);
      if required {
        if !halAccepts { return false; }
        hardware := hardware[Whole(param) := v];
      }
      ghost var before := Contents();
      var status := Update(Set, caps, req, rd, [Whole(param)], v);
      SetNeverThrows(p, before, NowPart(Resolved(n, caps, req, rd), ScreenTest(n, req, rd)), [Whole(param)], v);
      success := status == Ok;
    }
  }

  lemma SetNeverThrows(p: Platform, m: Memory, contexts: seq<Context>, targets: seq<Target>, level: int)
    requires TargetsStorable(p, Set, targets, level)
    ensures !Splitting.OnePass(p, Set, m, contexts, targets, level).thrown
  {
    Splitting.JobsStorable(p, Set, contexts, targets, level);
    PassIsPlan(p, Set, m, Jobs(contexts, targets), level);
  }

  /** When the hardware has to be set, the context on screen is the one that is written at once. */
  lemma ScreenIsNow(n: Tables, caps: seq<Context>, req: Request, rd: Readings)
    requires n.Good() && Known(n, req, rd) && SetRequired(n, caps, req, rd) && !MixesGlobal(n, req, rd)
    ensures NowPart(Resolve(n, caps, req, rd), ScreenTest(n, req, rd)) == [OnScreen(n, req, rd)]
  {
    SetRequiredExactly(n, caps, req, rd);
    var contexts := Resolve(n, caps, req, rd);
    var i :| 0 <= i < |contexts| && contexts[i] == OnScreen(n, req, rd);
    NamesTellOnScreen(n, contexts[i], req, rd);
    var k := FirstIndex(contexts, ScreenTest(n, req, rd));
    NamesTellOnScreen(n, contexts[k], req, rd);
    if |contexts| == 1 { assert contexts == [contexts[0]]; }
  }
}
