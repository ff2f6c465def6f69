/** Queueing refines sequential execution. "set" and "reset" requests are handled by a caller that
    writes the context on screen at once and pushes the rest on a queue, while a worker drains the
    queue. Caller and worker are interleaved write by write. The module says exactly on which
    platforms store and driver, whenever the queue has drained, are what running the requests one
    after the other, with no queue, would have left. */
module QueuedUpdates {
  import opened Text
  import Names
  import opened Keys
  import opened Updates
  import opened LastWrites
  import opened Splitting

  // ---------------------------------------------------------------- overtaking

  /** Writes none of which contradicts another. */
  predicate Consistent(ws: seq<Write>) {
    forall i, j :: 0 <= i < |ws| && 0 <= j < |ws| && PlaceOf(ws[i]) == PlaceOf(ws[j]) ==> ws[i] == ws[j]
  }

  /** Wherever the pending writes meet the new ones, both end with the same write. */
  predicate Compatible(pending: seq<Write>, newer: seq<Write>) {
    forall x :: x in Touched(pending) && x in Touched(newer) ==> LastAt(pending, x) == LastAt(newer, x)
  }

  /** New writes may overtake the pending ones exactly when they are compatible with them. */
  lemma OvertakingExactly(m: Memory, pending: seq<Write>, newer: seq<Write>)
    ensures ApplyAll(ApplyAll(m, newer), pending) == ApplyAll(ApplyAll(m, pending), newer) <==> Compatible(pending, newer)
  {
    SwapExactly(m, newer, pending, []);
  }

  lemma ConsistentLast(ws: seq<Write>, i: nat)
    requires Consistent(ws) && i < |ws|
    ensures LastAt(ws, PlaceOf(ws[i])) == Some(ws[i])
  {
    LastAtIsTouch(ws, PlaceOf(ws[i]));
    var k :| 0 <= k < |ws| && ws[k] == LastAt(ws, PlaceOf(ws[i])).value;
  }

  /** Of consistent new writes, the first one and the others may each overtake. */
  lemma CompatibleParts(pending: seq<Write>, newer: seq<Write>)
    requires newer != [] && Consistent(newer) && Compatible(pending, newer)
    ensures Compatible(pending, [newer[0]])
    ensures Consistent(newer[1..]) && Compatible(pending, newer[1..])
  {
    var first, rest := [newer[0]], newer[1..];
    TouchedTail(newer);
    assert first[1..] == [] && Touched(first) == {PlaceOf(newer[0])} by { TouchedTail(first); }
    assert forall i :: 0 <= i < |rest| ==> rest[i] == newer[i + 1];
    ConsistentLast(newer, 0);
    forall x | x in Touched(rest) ensures LastAt(rest, x) == LastAt(newer, x) { LastAtIsTouch(rest, x); }
  }

  /** Doing a pending write does not make the others incompatible. */
  lemma CompatibleTail(pending: seq<Write>, newer: seq<Write>)
    requires pending != [] && Compatible(pending, newer)
    ensures Compatible(pending[1..], newer)
  {
    TouchedTail(pending);
    forall x | x in Touched(pending[1..]) ensures LastAt(pending[1..], x) == LastAt(pending, x) { LastAtIsTouch(pending[1..], x); }
  }

  // ---------------------------------------------------------------- requests

  /** A "set" or "reset" request after context resolution; also the part of one that is queued. */
  datatype UpdateRequest = UpdateRequest(action: Action, contexts: seq<Context>, targets: seq<Target>, level: int)

  /** What stays fixed in a run: the platform, the context on screen and the settings that the
      capabilities offer. */
  datatype System = System(p: Platform, screen: Context, offered: set<Job>)

  /** Offered settings are in named contexts, which have storage keys of their own. */
  ghost predicate Fits(sys: System) {
    Good(sys.p) && forall i :: i in sys.offered ==> sys.p.named(i.context)
  }

  predicate ValidRequest(sys: System, r: UpdateRequest) {
    && r.action != Sync
    && (forall i, j :: 0 <= i < j < |r.contexts| ==> r.contexts[i] != r.contexts[j])
    && (forall c, t :: c in r.contexts && t in r.targets ==> Job(c, t) in sys.offered)
    && TargetsStorable(sys.p, r.action, r.targets, r.level)
  }

  /** The contexts that updateAVoutputTVParamV2 handles before it returns. */
  function AtOnce(sys: System, contexts: seq<Context>): seq<Context> {
    if |contexts| == 1 then contexts else if sys.screen in contexts then [sys.screen] else []
  }

  function Without(contexts: seq<Context>, c: Context): seq<Context> {
    if c in contexts then var i := Names.IndexOf(contexts, c); contexts[..i] + contexts[i + 1..] else contexts
  }

  /** The contexts that it pushes on the queue. */
  function Later(sys: System, contexts: seq<Context>): seq<Context> {
    if |contexts| == 1 then [] else Without(contexts, sys.screen)
  }

  function NowOf(sys: System, r: UpdateRequest): UpdateRequest { r.(contexts := AtOnce(sys, r.contexts)) }

  function LaterOf(sys: System, r: UpdateRequest): UpdateRequest { r.(contexts := Later(sys, r.contexts)) }

  /** The writes of a request, which do not depend on the store. */
  function Writes(sys: System, r: UpdateRequest): seq<Write> {
    if TargetsStorable(sys.p, r.action, r.targets, r.level) then
      JobsStorable(sys.p, r.action, r.contexts, r.targets, r.level);
      Plan(sys.p, r.action, map[], Jobs(r.contexts, r.targets), r.level)
    else []
  }

  /** Running the requests one after the other, each in one pass over its whole list. */
  function Sequential(sys: System, m: Memory, rs: seq<UpdateRequest>): Memory
    requires forall i :: 0 <= i < |rs| ==> ValidRequest(sys, rs[i])
    decreases |rs|
  {
    if rs == [] then m
    else
      var r := rs[|rs| - 1];
      assert ValidRequest(sys, r);
      OnePass(sys.p, r.action, Sequential(sys, m, rs[..|rs| - 1]), r.contexts, r.targets, r.level).memory
  }

  // ---------------------------------------------------------------- the interleaved run

  /** The worker waits, or is carrying out a task and has some of its writes still to make. */
  datatype Hand = Idle | Doing(task: UpdateRequest, rest: seq<Write>)

  /** The memory, what the caller still has to write and then to push, the queue, the worker, and the
      requests issued so far. */
  datatype World = World(memory: Memory, caller: seq<Write>, toPush: Option<UpdateRequest>,
                         queue: seq<UpdateRequest>, hand: Hand, issued: seq<UpdateRequest>)

  function Flat(sys: System, q: seq<UpdateRequest>): seq<Write>
    decreases |q|
  {
    if q == [] then [] else Writes(sys, q[0]) + Flat(sys, q[1..])
  }

  function InHand(w: World): seq<Write> { if w.hand.Doing? then w.hand.rest else [] }

  /** The writes of tasks that are not finished. */
  function Pending(sys: System, w: World): seq<Write> { InHand(w) + Flat(sys, w.queue) }

  predicate Drained(w: World) { w.caller == [] && w.toPush == None && w.queue == [] && w.hand == Idle }

  predicate Start(w: World) { Drained(w) && w.issued == [] }

  /** An unfinished task names a context. */
  predicate Mentions(w: World, c: Context) {
    || (w.hand.Doing? && c in w.hand.task.contexts)
    || exists i :: 0 <= i < |w.queue| && c in w.queue[i].contexts
  }

  /** A caller takes up a request. */
  predicate Issue(sys: System, w: World, w': World, r: UpdateRequest) {
    && w.caller == [] && w.toPush == None && ValidRequest(sys, r)
    && w' == w.(caller := Writes(sys, NowOf(sys, r)),
                toPush := if Later(sys, r.contexts) == [] then None else Some(LaterOf(sys, r)),
                issued := w.issued + [r])
  }

  /** A request for a single context is written at once. It does not overtake a task for that context. */
  predicate Unmentioned(w: World, r: UpdateRequest) { |r.contexts| == 1 ==> !Mentions(w, r.contexts[0]) }

  /** More generally, it overtakes only tasks that leave what it leaves. */
  predicate MayOvertake(sys: System, w: World, r: UpdateRequest) {
    |r.contexts| == 1 ==> Compatible(Pending(sys, w), Writes(sys, NowOf(sys, r)))
  }

  predicate CallerWrites(w: World, w': World) {
    w.caller != [] && w' == w.(memory := Apply(w.memory, w.caller[0]), caller := w.caller[1..])
  }

  predicate CallerPushes(w: World, w': World) {
    w.caller == [] && w.toPush.Some? && w' == w.(queue := w.queue + [w.toPush.value], toPush := None)
  }

  predicate WorkerPops(sys: System, w: World, w': World) {
    w.hand == Idle && w.queue != [] && w' == w.(hand := Doing(w.queue[0], Writes(sys, w.queue[0])), queue := w.queue[1..])
  }

  predicate WorkerWrites(w: World, w': World) {
    && w.hand.Doing? && w.hand.rest != []
    && w' == w.(memory := Apply(w.memory, w.hand.rest[0]), hand := w.hand.(rest := w.hand.rest[1..]))
  }

  predicate WorkerFinishes(w: World, w': World) {
    w.hand.Doing? && w.hand.rest == [] && w' == w.(hand := Idle)
  }

  predicate Works(sys: System, w: World, w': World) {
    CallerWrites(w, w') || CallerPushes(w, w') || WorkerPops(sys, w, w') || WorkerWrites(w, w') || WorkerFinishes(w, w')
  }

  ghost predicate Next(sys: System, w: World, w': World) {
    (exists r :: Issue(sys, w, w', r) && Unmentioned(w, r)) || Works(sys, w, w')
  }

  ghost predicate LooseNext(sys: System, w: World, w': World) {
    (exists r :: Issue(sys, w, w', r) && MayOvertake(sys, w, r)) || Works(sys, w, w')
  }

  ghost predicate Run(sys: System, ws: seq<World>) {
    ws != [] && Start(ws[0]) && forall i :: 0 <= i < |ws| - 1 ==> Next(sys, ws[i], ws[i + 1])
  }

  ghost predicate LooseRun(sys: System, ws: seq<World>) {
    ws != [] && Start(ws[0]) && forall i :: 0 <= i < |ws| - 1 ==> LooseNext(sys, ws[i], ws[i + 1])
  }

  function Last(ws: seq<World>): World
    requires ws != []
  {
    ws[|ws| - 1]
  }

  // ---------------------------------------------------------------- which platforms

  /** The context on screen shares no driver entry with another offered context. */
  ghost predicate ScreenIsSeparate(sys: System) {
    && Fits(sys)
    && forall i, j :: i in sys.offered && j in sys.offered && i.context == sys.screen && j.context != sys.screen ==> CellOf(i) != CellOf(j)
  }

  /** Two settings of different contexts that share a driver entry. */
  predicate Share(i: Job, j: Job) { i.context != j.context && CellOf(i) == CellOf(j) }

  /** Only contexts that are never apart share a driver entry: neither of them is on screen, and their
      setting is offered in no third context. */
  ghost predicate SharersAreAlone(sys: System) {
    && Fits(sys)
    && forall i, j :: i in sys.offered && j in sys.offered && Share(i, j) ==>
         && i.context != sys.screen && j.context != sys.screen
         && forall k :: k in sys.offered && k.target == i.target ==> k.context == i.context || k.context == j.context
  }

  /** Only SDRGamma is ever shared, among the formats of a mode and source. */
  lemma SharersAreGammas(i: Job, j: Job)
    ensures Share(i, j) <==> i.target == j.target == Whole(SDRGamma) && i.context.mode == j.context.mode
                             && i.context.source == j.context.source && i.context.format != j.context.format
  {
  }

  // ---------------------------------------------------------------- the invariant

  /** Every place of an offered setting outside the context on screen. */
  function Away(sys: System): set<Place> {
    set j, x | j in sys.offered && j.context != sys.screen && x in Footprint(sys.p, j) :: x
  }

  function ToPush(w: World): seq<UpdateRequest> { match w.toPush case None => [] case Some(r) => [r] }

  function Outstanding(sys: System, w: World): seq<Write> {
    Pending(sys, w) + (w.caller + Flat(sys, ToPush(w)))
  }

  /** A task is the queued part of a valid request for several contexts. */
  ghost predicate IsTask(sys: System, t: UpdateRequest) {
    exists r :: ValidRequest(sys, r) && |r.contexts| != 1 && t == LaterOf(sys, r)
  }

  ghost predicate TasksSound(sys: System, w: World) {
    && (forall i :: 0 <= i < |w.queue| ==> IsTask(sys, w.queue[i]))
    && (w.toPush.Some? ==> IsTask(sys, w.toPush.value))
    && (w.hand.Doing? ==> IsTask(sys, w.hand.task) && Touched(w.hand.rest) <= Touched(Writes(sys, w.hand.task)))
  }

  /** Carrying out everything outstanding gives the sequential result. */
  ghost predicate Faithful(sys: System, m: Memory, w: World) {
    && (forall i :: 0 <= i < |w.issued| ==> ValidRequest(sys, w.issued[i]))
    && ApplyAll(w.memory, Outstanding(sys, w)) == Sequential(sys, m, w.issued)
  }

  /** And the caller's remaining writes may be made before the pending ones. */
  ghost predicate Ordered(sys: System, m: Memory, w: World) {
    Faithful(sys, m, w) && Consistent(w.caller) && Compatible(Pending(sys, w), w.caller)
  }

  ghost predicate Inv(sys: System, m: Memory, w: World) { Ordered(sys, m, w) && TasksSound(sys, w) }

  lemma {:induction false} FlatAppend(sys: System, q: seq<UpdateRequest>, t: UpdateRequest)
    ensures Flat(sys, q + [t]) == Flat(sys, q) + Writes(sys, t)
    decreases |q|
  {
    if q == [] {
      assert (q + [t])[1..] == [];
    } else {
      assert (q + [t])[0] == q[0] && (q + [t])[1..] == q[1..] + [t];
      FlatAppend(sys, q[1..], t);
    }
  }

  lemma FlatOne(sys: System, t: UpdateRequest)
    ensures Flat(sys, [t]) == Writes(sys, t)
  {
    assert [t][1..] == [];
  }

  lemma ApplyThree(m: Memory, a: seq<Write>, b: seq<Write>, c: seq<Write>)
    ensures ApplyAll(m, a + (b + c)) == ApplyAll(ApplyAll(ApplyAll(m, a), b), c)
  {
    ApplyAllSplit(m, a, b + c);
    ApplyAllSplit(ApplyAll(m, a), b, c);
  }

  /** The caller's next write may be made ahead of the pending ones. */
  lemma CallerWritesAhead(m: Memory, pending: seq<Write>, c: Write, rest: seq<Write>)
    requires Compatible(pending, [c])
    ensures ApplyAll(Apply(m, c), pending + rest) == ApplyAll(m, pending + ([c] + rest))
  {
    OvertakingExactly(m, pending, [c]);
    ApplyThree(m, pending, [c], rest);
    ApplyAllSplit(Apply(m, c), pending, rest);
    ApplyOne(m, c);
  }

  lemma CallerWritesOutstanding(sys: System, w: World, w': World)
    requires CallerWrites(w, w') && Compatible(Pending(sys, w), [w.caller[0]])
    ensures ApplyAll(w'.memory, Outstanding(sys, w')) == ApplyAll(w.memory, Outstanding(sys, w))
  {
    var push := Flat(sys, ToPush(w));
    HeadFirst(w.caller, push);
    CallerWritesAhead(w.memory, Pending(sys, w), w.caller[0], w.caller[1..] + push);
  }

  lemma HeadFirst(ws: seq<Write>, rest: seq<Write>)
    requires ws != []
    ensures ws + rest == [ws[0]] + (ws[1..] + rest)
  {
  }

  lemma Regroup(a: seq<Write>, b: seq<Write>, c: seq<Write>)
    ensures (a + b) + ([] + c) == (a + (b + c)) + ([] + [])
  {
  }

  lemma CallerWritesKeeps(sys: System, m: Memory, w: World, w': World)
    requires Ordered(sys, m, w) && CallerWrites(w, w')
    ensures Ordered(sys, m, w')
  {
    CompatibleParts(Pending(sys, w), w.caller);
    CallerWritesOutstanding(sys, w, w');
  }

  lemma CallerPushesOutstanding(sys: System, w: World, w': World)
    requires CallerPushes(w, w')
    ensures Outstanding(sys, w') == Outstanding(sys, w)
  {
    var t := w.toPush.value;
    FlatAppend(sys, w.queue, t);
    FlatOne(sys, t);
    Regroup(InHand(w), Flat(sys, w.queue), Writes(sys, t));
  }

  lemma CallerPushesKeeps(sys: System, m: Memory, w: World, w': World)
    requires Ordered(sys, m, w) && CallerPushes(w, w')
    ensures Ordered(sys, m, w')
  {
    CallerPushesOutstanding(sys, w, w');
    assert Touched(w'.caller) == {};
  }

  lemma WorkerPopsKeeps(sys: System, m: Memory, w: World, w': World)
    requires Ordered(sys, m, w) && WorkerPops(sys, w, w')
    ensures Ordered(sys, m, w')
  {
    assert Pending(sys, w') == Pending(sys, w);
  }

  lemma WorkerWritesOutstanding(sys: System, w: World, w': World)
    requires WorkerWrites(w, w')
    ensures Pending(sys, w) != [] && Pending(sys, w') == Pending(sys, w)[1..]
    ensures ApplyAll(w'.memory, Outstanding(sys, w')) == ApplyAll(w.memory, Outstanding(sys, w))
  {
    var rest, queued, own := w.hand.rest, Flat(sys, w.queue), w.caller + Flat(sys, ToPush(w));
    TailOfSum(rest, queued);
    TailOfSum(rest + queued, own);
  }

  lemma TailOfSum(a: seq<Write>, b: seq<Write>)
    requires a != []
    ensures (a + b)[0] == a[0] && (a + b)[1..] == a[1..] + b
  {
  }

  lemma WorkerWritesKeeps(sys: System, m: Memory, w: World, w': World)
    requires Ordered(sys, m, w) && WorkerWrites(w, w')
    ensures Ordered(sys, m, w')
  {
    WorkerWritesOutstanding(sys, w, w');
    CompatibleTail(Pending(sys, w), w.caller);
  }

  lemma WorkerFinishesKeeps(sys: System, m: Memory, w: World, w': World)
    requires Ordered(sys, m, w) && WorkerFinishes(w, w')
    ensures Ordered(sys, m, w')
  {
    assert Pending(sys, w') == Pending(sys, w);
  }

  lemma TasksStaySound(sys: System, w: World, w': World)
    requires TasksSound(sys, w) && Works(sys, w, w')
    ensures TasksSound(sys, w')
  {
    if WorkerPops(sys, w, w') {
      assert IsTask(sys, w.queue[0]);
    } else if WorkerWrites(w, w') {
      TouchedTail(w.hand.rest);
    }
  }

  // ---------------------------------------------------------------- issuing a request

  lemma OfferedJobs(sys: System, r: UpdateRequest)
    requires ValidRequest(sys, r)
    ensures forall i :: 0 <= i < |Jobs(r.contexts, r.targets)| ==> Jobs(r.contexts, r.targets)[i] in sys.offered
  {
    var js := Jobs(r.contexts, r.targets);
    forall i | 0 <= i < |js| ensures js[i] in sys.offered {
      assert js[i] == Job(js[i].context, js[i].target);
    }
  }

  lemma WithoutIsRest(contexts: seq<Context>, c: Context)
    requires forall i, j :: 0 <= i < j < |contexts| ==> contexts[i] != contexts[j]
    ensures forall d :: d in Without(contexts, c) <==> d in contexts && d != c
    ensures forall i, j :: 0 <= i < j < |Without(contexts, c)| ==> Without(contexts, c)[i] != Without(contexts, c)[j]
  {
    if c in contexts {
      var i := Names.IndexOf(contexts, c);
      assert contexts == contexts[..i] + [c] + contexts[i + 1..];
      assert forall k :: i + 1 <= k < |contexts| ==> contexts[k] != c;
    }
  }

  lemma PartsAreValid(sys: System, r: UpdateRequest)
    requires ValidRequest(sys, r)
    ensures ValidRequest(sys, NowOf(sys, r)) && ValidRequest(sys, LaterOf(sys, r))
    ensures |NowOf(sys, r).contexts| <= 1 && (|r.contexts| != 1 ==> sys.screen !in LaterOf(sys, r).contexts)
    ensures forall c :: c in r.contexts <==> c in NowOf(sys, r).contexts || c in LaterOf(sys, r).contexts
  {
    WithoutIsRest(r.contexts, sys.screen);
  }

  /** The writes of a request stay within the places of its jobs. */
  lemma WritesStay(sys: System, r: UpdateRequest)
    ensures Touched(Writes(sys, r)) <= FootprintAll(sys.p, Jobs(r.contexts, r.targets))
  {
    if TargetsStorable(sys.p, r.action, r.targets, r.level) {
      PlanStaysInFootprint(sys.p, r.action, map[], Jobs(r.contexts, r.targets), r.level);
    }
  }

  /** Requests whose settings lie apart touch no common place. */
  lemma RequestsApart(sys: System, r: UpdateRequest, s: UpdateRequest)
    requires Fits(sys) && ValidRequest(sys, r) && ValidRequest(sys, s)
    requires forall c, t, d, u :: c in r.contexts && t in r.targets && d in s.contexts && u in s.targets
                                  ==> c != d && !Share(Job(c, t), Job(d, u))
    ensures Touched(Writes(sys, r)) !! Touched(Writes(sys, s))
  {
    var A, B := Jobs(r.contexts, r.targets), Jobs(s.contexts, s.targets);
    OfferedJobs(sys, r);
    OfferedJobs(sys, s);
    WritesStay(sys, r);
    WritesStay(sys, s);
    forall i, j | 0 <= i < |A| && 0 <= j < |B| ensures Footprint(sys.p, A[i]) !! Footprint(sys.p, B[j]) {
      assert A[i] == Job(A[i].context, A[i].target) && B[j] == Job(B[j].context, B[j].target);
      ContextsAreApart(sys.p, A[i], B[j]);
    }
    ListsApart(sys.p, A, B);
  }

  /** The writes for one context do not contradict each other. */
  lemma OneContextIsConsistent(sys: System, r: UpdateRequest)
    requires Fits(sys) && ValidRequest(sys, r) && |r.contexts| <= 1
    ensures Consistent(Writes(sys, r))
  {
    var ws, js := Writes(sys, r), Jobs(r.contexts, r.targets);
    OfferedJobs(sys, r);
    forall i, j | 0 <= i < |ws| && 0 <= j < |ws| && PlaceOf(ws[i]) == PlaceOf(ws[j]) ensures ws[i] == ws[j] {
      var a := WriteOfPlan(sys.p, r.action, map[], js, r.level, ws[i]);
      var b := WriteOfPlan(sys.p, r.action, map[], js, r.level, ws[j]);
      assert js[a].context == js[b].context;
    }
  }

  lemma PassIsWrites(sys: System, m: Memory, r: UpdateRequest)
    requires ValidRequest(sys, r)
    ensures OnePass(sys.p, r.action, m, r.contexts, r.targets, r.level).memory == ApplyAll(m, Writes(sys, r))
  {
    JobsStorable(sys.p, r.action, r.contexts, r.targets, r.level);
    PassIsPlan(sys.p, r.action, m, Jobs(r.contexts, r.targets), r.level);
    PlanReadsOnly(sys.p, r.action, m.store, map[], Jobs(r.contexts, r.targets), r.level);
  }

  lemma {:induction false} NoTargets(contexts: seq<Context>)
    ensures Jobs(contexts, []) == []
    decreases |contexts|
  {
    if contexts != [] { NoTargets(contexts[1..]); }
  }

  /** One pass over the whole list is the immediate writes followed by the queued ones. */
  lemma PassIsNowThenLater(sys: System, m: Memory, r: UpdateRequest)
    requires ScreenIsSeparate(sys) && ValidRequest(sys, r)
    ensures OnePass(sys.p, r.action, m, r.contexts, r.targets, r.level).memory
            == ApplyAll(ApplyAll(m, Writes(sys, NowOf(sys, r))), Writes(sys, LaterOf(sys, r)))
  {
    PartsAreValid(sys, r);
    if |r.contexts| == 1 || sys.screen !in r.contexts {
      PassIsWrites(sys, m, r);
      assert r.(contexts := r.contexts) == r;
    } else if r.targets == [] {
      NoTargets(r.contexts);
      NoTargets([sys.screen]);
      NoTargets(Later(sys, r.contexts));
    } else {
      SplitAtScreen(sys, m, r);
    }
  }

  lemma SplitAtScreen(sys: System, m: Memory, r: UpdateRequest)
    requires ScreenIsSeparate(sys) && ValidRequest(sys, r) && |r.contexts| != 1 && sys.screen in r.contexts && r.targets != []
    ensures OnePass(sys.p, r.action, m, r.contexts, r.targets, r.level).memory
            == ApplyAll(ApplyAll(m, Writes(sys, NowOf(sys, r))), Writes(sys, LaterOf(sys, r)))
  {
    var p, i := sys.p, Names.IndexOf(r.contexts, sys.screen);
    var pre, post := r.contexts[..i], r.contexts[i + 1..];
    assert r.contexts == pre + [sys.screen] + post;
    PartsAreValid(sys, r);
    forall b | b in pre ensures b in r.contexts && b != sys.screen {}
    assert Job(sys.screen, r.targets[0]) in sys.offered;
    forall k | 0 <= k < |pre| ensures p.named(pre[k]) {
      assert pre[k] in pre && Job(pre[k], r.targets[0]) in sys.offered;
    }
    forall b, t, u | b in pre && t in r.targets && u in r.targets ensures CellOf(Job(b, t)) != CellOf(Job(sys.screen, u)) {
      assert Job(b, t) in sys.offered && Job(sys.screen, u) in sys.offered;
    }
    SplitPreserves(p, r.action, m, pre, sys.screen, post, r.targets, r.level);
    PassIsWrites(sys, m, NowOf(sys, r));
    PassIsWrites(sys, OnePass(p, r.action, m, [sys.screen], r.targets, r.level).memory, LaterOf(sys, r));
  }

  lemma OneMoreRequest(sys: System, m: Memory, rs: seq<UpdateRequest>, r: UpdateRequest)
    requires ScreenIsSeparate(sys) && ValidRequest(sys, r) && forall i :: 0 <= i < |rs| ==> ValidRequest(sys, rs[i])
    ensures forall i :: 0 <= i < |rs + [r]| ==> ValidRequest(sys, (rs + [r])[i])
    ensures Sequential(sys, m, rs + [r])
            == ApplyAll(ApplyAll(Sequential(sys, m, rs), Writes(sys, NowOf(sys, r))), Writes(sys, LaterOf(sys, r)))
  {
    assert (rs + [r])[..|rs + [r]| - 1] == rs;
    PassIsNowThenLater(sys, Sequential(sys, m, rs), r);
  }

  lemma IssueKeepsMeaning(sys: System, m: Memory, w: World, w': World, r: UpdateRequest)
    requires ScreenIsSeparate(sys) && Faithful(sys, m, w) && Issue(sys, w, w', r)
    ensures Faithful(sys, m, w')
  {
    OneMoreRequest(sys, m, w.issued, r);
    var now, later := Writes(sys, NowOf(sys, r)), Writes(sys, LaterOf(sys, r));
    assert Outstanding(sys, w) == Pending(sys, w);
    FlatOne(sys, LaterOf(sys, r));
    assert Later(sys, r.contexts) == [] ==> later == [];
    assert Outstanding(sys, w') == Pending(sys, w) + (now + later);
    ApplyThree(w.memory, Pending(sys, w), now, later);
  }

  // ---------------------------------------------------------------- what overtakes

  /** Every pending write belongs to an unfinished task. */
  lemma {:induction false} FlatTouches(sys: System, q: seq<UpdateRequest>, x: Place)
    requires x in Touched(Flat(sys, q))
    ensures exists i :: 0 <= i < |q| && x in Touched(Writes(sys, q[i]))
    decreases |q|
  {
    TouchedSplit(Writes(sys, q[0]), Flat(sys, q[1..]));
    if x !in Touched(Writes(sys, q[0])) {
      FlatTouches(sys, q[1..], x);
      var i :| 0 <= i < |q[1..]| && x in Touched(Writes(sys, q[1..][i]));
      assert q[i + 1] == q[1..][i];
    }
  }

  /** New writes that stay clear of every unfinished task may overtake them all. */
  lemma ClearOfTasks(sys: System, w: World, newer: seq<Write>)
    requires TasksSound(sys, w)
    requires w.hand.Doing? ==> Touched(newer) !! Touched(Writes(sys, w.hand.task))
    requires forall i :: 0 <= i < |w.queue| ==> Touched(newer) !! Touched(Writes(sys, w.queue[i]))
    ensures Touched(Pending(sys, w)) !! Touched(newer) && Compatible(Pending(sys, w), newer)
  {
    TouchedSplit(InHand(w), Flat(sys, w.queue));
    forall x | x in Touched(Pending(sys, w)) ensures x !in Touched(newer) {
      if x in Touched(Flat(sys, w.queue)) { FlatTouches(sys, w.queue, x); }
    }
  }

  /** A task never names the context on screen, so that context's writes stay clear of it. */
  lemma ScreenIsClear(sys: System, r: UpdateRequest, t: UpdateRequest)
    requires ScreenIsSeparate(sys) && ValidRequest(sys, r) && IsTask(sys, t) && r.contexts == [sys.screen]
    ensures Touched(Writes(sys, r)) !! Touched(Writes(sys, t))
  {
    var s :| ValidRequest(sys, s) && |s.contexts| != 1 && t == LaterOf(sys, s);
    PartsAreValid(sys, s);
    forall c, v, d, u | c in r.contexts && v in r.targets && d in t.contexts && u in t.targets
      ensures c != d && !Share(Job(c, v), Job(d, u))
    {
      assert Job(c, v) in sys.offered && Job(d, u) in sys.offered;
    }
    RequestsApart(sys, r, t);
  }

  lemma NowIsSafe(sys: System, w: World, r: UpdateRequest)
    requires ScreenIsSeparate(sys) && TasksSound(sys, w) && ValidRequest(sys, r) && MayOvertake(sys, w, r)
    ensures Consistent(Writes(sys, NowOf(sys, r))) && Compatible(Pending(sys, w), Writes(sys, NowOf(sys, r)))
  {
    var now := NowOf(sys, r);
    PartsAreValid(sys, r);
    OneContextIsConsistent(sys, now);
    if |r.contexts| != 1 && sys.screen in r.contexts {
      if w.hand.Doing? { ScreenIsClear(sys, now, w.hand.task); }
      forall i | 0 <= i < |w.queue| ensures Touched(Writes(sys, now)) !! Touched(Writes(sys, w.queue[i])) {
        ScreenIsClear(sys, now, w.queue[i]);
      }
      ClearOfTasks(sys, w, Writes(sys, now));
    }
  }

  lemma IssueKeeps(sys: System, m: Memory, w: World, w': World, r: UpdateRequest)
    requires ScreenIsSeparate(sys) && Inv(sys, m, w) && Issue(sys, w, w', r) && MayOvertake(sys, w, r)
    ensures Inv(sys, m, w')
  {
    IssueKeepsMeaning(sys, m, w, w', r);
    NowIsSafe(sys, w, r);
    assert Pending(sys, w') == Pending(sys, w);
    if w'.toPush.Some? { assert |r.contexts| != 1; }
  }

  lemma WorksKeeps(sys: System, m: Memory, w: World, w': World)
    requires Inv(sys, m, w) && Works(sys, w, w')
    ensures Inv(sys, m, w')
  {
    TasksStaySound(sys, w, w');
    if CallerWrites(w, w') {
      CallerWritesKeeps(sys, m, w, w');
    } else if CallerPushes(w, w') {
      CallerPushesKeeps(sys, m, w, w');
    } else if WorkerPops(sys, w, w') {
      WorkerPopsKeeps(sys, m, w, w');
    } else if WorkerWrites(w, w') {
      WorkerWritesKeeps(sys, m, w, w');
    } else {
      WorkerFinishesKeeps(sys, m, w, w');
    }
  }

  lemma NextKeeps(sys: System, m: Memory, w: World, w': World)
    requires ScreenIsSeparate(sys)
    ensures Inv(sys, m, w) && LooseNext(sys, w, w') ==> Inv(sys, m, w')
  {
    if !Inv(sys, m, w) || !LooseNext(sys, w, w') {
      return;
    }
    if r :| Issue(sys, w, w', r) && MayOvertake(sys, w, r) {
      IssueKeeps(sys, m, w, w', r);
    } else {
      WorksKeeps(sys, m, w, w');
    }
  }

  /** The memory is what the requests issued so far leave when they run one after the other. */
  ghost predicate IsSequential(sys: System, m: Memory, w: World) {
    && (forall i :: 0 <= i < |w.issued| ==> ValidRequest(sys, w.issued[i]))
    && w.memory == Sequential(sys, m, w.issued)
  }

  lemma DrainedIsSequential(sys: System, m: Memory, w: World)
    requires Faithful(sys, m, w) && Drained(w)
    ensures IsSequential(sys, m, w)
  {
    assert Outstanding(sys, w) == [];
  }

  /** The general form: if the screen shares no driver entry and single-context requests overtake only
      compatible writes, every run refines the sequential execution. */
  lemma {:induction false} LooseRunRefines(sys: System, ws: seq<World>)
    requires ScreenIsSeparate(sys) && LooseRun(sys, ws)
    ensures Inv(sys, ws[0].memory, Last(ws))
    ensures Drained(Last(ws)) ==> IsSequential(sys, ws[0].memory, Last(ws))
    decreases |ws|
  {
    if |ws| > 1 {
      var front := ws[..|ws| - 1];
      LooseRunRefines(sys, front);
      NextKeeps(sys, ws[0].memory, Last(front), Last(ws));
    }
    if Drained(Last(ws)) { DrainedIsSequential(sys, ws[0].memory, Last(ws)); }
  }

  // ---------------------------------------------------------------- unmentioned contexts

  /** Where sharers are alone, a context that a task does not name shares no entry with the task. */
  lemma UnnamedIsClear(sys: System, r: UpdateRequest, t: UpdateRequest)
    requires SharersAreAlone(sys) && ValidRequest(sys, r) && IsTask(sys, t) && |r.contexts| == 1 && r.contexts[0] !in t.contexts
    ensures Touched(Writes(sys, r)) !! Touched(Writes(sys, t))
  {
    var s :| ValidRequest(sys, s) && |s.contexts| != 1 && t == LaterOf(sys, s);
    PartsAreValid(sys, s);
    forall c, v, d, u | c in r.contexts && v in r.targets && d in t.contexts && u in t.targets
      ensures c != d && !Share(Job(c, v), Job(d, u))
    {
      assert c == r.contexts[0];
      assert Job(c, v) in sys.offered && Job(d, u) in sys.offered;
      if Share(Job(c, v), Job(d, u)) {
        SharersAreGammas(Job(c, v), Job(d, u));
        SharersComeTogether(sys, s, c, d, u);
      }
    }
    RequestsApart(sys, r, t);
  }

  /** A request for several contexts that queues one of two sharers queues the other as well. */
  lemma SharersComeTogether(sys: System, s: UpdateRequest, c: Context, d: Context, u: Target)
    requires SharersAreAlone(sys) && ValidRequest(sys, s) && |s.contexts| != 1
    requires Job(c, u) in sys.offered && Share(Job(c, u), Job(d, u)) && d in LaterOf(sys, s).contexts && u in s.targets
    ensures c in LaterOf(sys, s).contexts
  {
    PartsAreValid(sys, s);
    forall e | e in s.contexts ensures e == c || e == d {
      assert Job(e, u) in sys.offered && Job(d, u) in sys.offered;
    }
    var k := Names.IndexOf(s.contexts, d);
    var o := if k == 0 then 1 else 0;
    assert s.contexts[o] in s.contexts && s.contexts[o] != d;
  }

  /** So a single-context request whose context no unfinished task names may be written at once. */
  lemma UnmentionedContextMayOvertake(sys: System, w: World, r: UpdateRequest)
    requires SharersAreAlone(sys) && TasksSound(sys, w) && ValidRequest(sys, r) && Unmentioned(w, r)
    ensures MayOvertake(sys, w, r)
  {
    if |r.contexts| == 1 {
      var now := NowOf(sys, r);
      if w.hand.Doing? { UnnamedIsClear(sys, now, w.hand.task); }
      forall i | 0 <= i < |w.queue| ensures Touched(Writes(sys, now)) !! Touched(Writes(sys, w.queue[i])) {
        UnnamedIsClear(sys, now, w.queue[i]);
      }
      ClearOfTasks(sys, w, Writes(sys, now));
    }
  }

  lemma AloneIsSeparate(sys: System)
    requires SharersAreAlone(sys)
    ensures ScreenIsSeparate(sys)
  {
    forall i, j | i in sys.offered && j in sys.offered && i.context == sys.screen && j.context != sys.screen ensures CellOf(i) != CellOf(j) {
      assert !Share(i, j);
    }
  }

  /** A step that overtakes no task for its context overtakes nothing that matters. */
  lemma NextIsLoose(sys: System, w: World, w': World)
    requires SharersAreAlone(sys) && TasksSound(sys, w) && Next(sys, w, w')
    ensures LooseNext(sys, w, w')
  {
    if r :| Issue(sys, w, w', r) && Unmentioned(w, r) { UnmentionedContextMayOvertake(sys, w, r); }
  }

  /** Where sharers are alone: in every run of "set" and "reset" requests in which no single-context
      request names a context of an unfinished task, store and driver are, whenever nothing is
      outstanding, those of the sequential execution of the requests issued so far. */
  lemma {:induction false} QueueRefinesSequential(sys: System, ws: seq<World>)
    requires SharersAreAlone(sys) && Run(sys, ws)
    ensures Inv(sys, ws[0].memory, Last(ws))
    ensures Drained(Last(ws)) ==> IsSequential(sys, ws[0].memory, Last(ws))
    decreases |ws|
  {
    AloneIsSeparate(sys);
    if |ws| > 1 {
      var front := ws[..|ws| - 1];
      QueueRefinesSequential(sys, front);
      NextIsLoose(sys, Last(front), Last(ws));
      NextKeeps(sys, ws[0].memory, Last(front), Last(ws));
    }
    if Drained(Last(ws)) { DrainedIsSequential(sys, ws[0].memory, Last(ws)); }
  }

  // ---------------------------------------------------------------- runs that go wrong

  lemma RunGrows(sys: System, ws: seq<World>, w: World)
    requires Run(sys, ws) && Next(sys, Last(ws), w)
    ensures Run(sys, ws + [w])
  {
    var ws' := ws + [w];
    assert ws'[0] == ws[0];
    forall i | 0 <= i < |ws'| - 1 ensures Next(sys, ws'[i], ws'[i + 1]) {
      var here, next := ws'[i], ws'[i + 1];
      if i < |ws| - 1 { assert here == ws[i] && next == ws[i + 1]; } else { assert here == Last(ws) && next == w; }
      assert Next(sys, here, next);
    }
  }

  lemma WorkGrows(sys: System, ws: seq<World>, w: World)
    requires Run(sys, ws) && Works(sys, Last(ws), w)
    ensures Run(sys, ws + [w])
  {
    RunGrows(sys, ws, w);
  }

  /** The caller goes on alone until it is done. */
  lemma CallerCompletes(sys: System, ws: seq<World>) returns (ws': seq<World>)
    requires Run(sys, ws)
    ensures Run(sys, ws') && ws'[0] == ws[0]
    ensures
      var w := Last(ws);
      Last(ws') == w.(memory := ApplyAll(w.memory, w.caller), caller := [], toPush := None, queue := w.queue + ToPush(w))
    decreases |Last(ws).caller|
  {
    var w := Last(ws);
    if w.caller != [] {
      var next := w.(memory := Apply(w.memory, w.caller[0]), caller := w.caller[1..]);
      WorkGrows(sys, ws, next);
      ws' := CallerCompletes(sys, ws + [next]);
    } else if w.toPush.Some? {
      var next := w.(queue := w.queue + [w.toPush.value], toPush := None);
      WorkGrows(sys, ws, next);
      ws' := ws + [next];
    } else {
      ws' := ws;
    }
  }

  /** The worker goes on alone until it has finished every task. */
  lemma WorkerCompletes(sys: System, ws: seq<World>) returns (ws': seq<World>)
    requires Run(sys, ws) && Last(ws).caller == [] && Last(ws).toPush == None
    ensures Run(sys, ws') && ws'[0] == ws[0] && Drained(Last(ws'))
    ensures Last(ws').memory == ApplyAll(Last(ws).memory, Pending(sys, Last(ws))) && Last(ws').issued == Last(ws).issued
    decreases |Last(ws).queue|, |InHand(Last(ws))|, Last(ws).hand.Doing?
  {
    var w := Last(ws);
    if w.hand.Doing? && w.hand.rest != [] {
      var next := w.(memory := Apply(w.memory, w.hand.rest[0]), hand := w.hand.(rest := w.hand.rest[1..]));
      WorkGrows(sys, ws, next);
      WorkerWritesOutstanding(sys, w, next);
      assert Pending(sys, w)[0] == w.hand.rest[0];
      ws' := WorkerCompletes(sys, ws + [next]);
    } else if w.hand.Doing? {
      var next := w.(hand := Idle);
      WorkGrows(sys, ws, next);
      assert Pending(sys, next) == Pending(sys, w);
      ws' := WorkerCompletes(sys, ws + [next]);
    } else if w.queue != [] {
      var next := w.(hand := Doing(w.queue[0], Writes(sys, w.queue[0])), queue := w.queue[1..]);
      WorkGrows(sys, ws, next);
      assert Pending(sys, next) == Pending(sys, w);
      ws' := WorkerCompletes(sys, ws + [next]);
    } else {
      assert Pending(sys, w) == [];
      ws' := ws;
    }
  }

  /** A request is issued and the caller goes on alone. */
  lemma IssueCompletes(sys: System, ws: seq<World>, r: UpdateRequest) returns (ws': seq<World>)
    requires Run(sys, ws) && Last(ws).caller == [] && Last(ws).toPush == None
    requires ValidRequest(sys, r) && Unmentioned(Last(ws), r)
    ensures Run(sys, ws') && ws'[0] == ws[0]
    ensures
      var w := Last(ws);
      Last(ws') == World(ApplyAll(w.memory, Writes(sys, NowOf(sys, r))), [], None,
                         w.queue + (if Later(sys, r.contexts) == [] then [] else [LaterOf(sys, r)]), w.hand, w.issued + [r])
  {
    var w := Last(ws);
    var next := w.(caller := Writes(sys, NowOf(sys, r)),
                   toPush := if Later(sys, r.contexts) == [] then None else Some(LaterOf(sys, r)),
                   issued := w.issued + [r]);
    assert Issue(sys, w, next, r);
    RunGrows(sys, ws, next);
    ws' := CallerCompletes(sys, ws + [next]);
  }

  /** What a "set" of SDRGamma leaves in the entry of a context that shares it with one of the list. */
  lemma GammaIsLeft(sys: System, m: Memory, r: UpdateRequest, a: Context, b: Context)
    requires r.action == Set && r.targets == [Whole(SDRGamma)] && TargetsStorable(sys.p, Set, r.targets, r.level)
    requires b in r.contexts && CellOf(Job(a, Whole(SDRGamma))) == CellOf(Job(b, Whole(SDRGamma)))
    ensures ContentAt(ApplyAll(m, Writes(sys, r)), AtCell(CellOf(Job(a, Whole(SDRGamma))))) == Saved(r.level)
  {
    var g := Whole(SDRGamma);
    JobsStorable(sys.p, Set, r.contexts, r.targets, r.level);
    EntryOf(sys.p, Set, map[], r.contexts, a, r.targets, r.level, g);
    SharerSaves(sys.p, map[], r.level, r.contexts, a, b, g);
    SetSavesOneLevel(sys.p, map[], r.level, r.contexts, a, g);
    ContentAfter(m, Writes(sys, r), AtCell(CellOf(Job(a, g))));
  }

  lemma {:induction false} SharerSaves(p: Platform, store: map<string, string>, level: int, contexts: seq<Context>, a: Context, b: Context, u: Target)
    requires u.Whole? && b in contexts && CellOf(Job(a, u)) == CellOf(Job(b, u))
    ensures LastSaved(p, Set, store, level, contexts, a, u).Some?
    decreases |contexts|
  {
    if contexts[0] != b {
      assert contexts == [contexts[0]] + contexts[1..];
      SharerSaves(p, store, level, contexts[1..], a, b, u);
    }
  }

  /** A request for two contexts queues one of them; then a single-context request for a context that
      no task names, but that shares the queued one's driver entry, is written at once; then the task
      runs and undoes it. The contexts of the first request may stand in either order. */
  lemma SharedEntryBreaksRun(sys: System, m: Memory, q: seq<Context>, a: Context, b: Context, k: int, l: int) returns (ws: seq<World>)
    requires Fits(sys) && |q| == 2 && q[0] != q[1] && b in q && b != sys.screen && a !in Later(sys, q)
    requires var g := Whole(SDRGamma);
             && Job(a, g) in sys.offered && Job(q[0], g) in sys.offered && Job(q[1], g) in sys.offered
             && CellOf(Job(a, g)) == CellOf(Job(b, g))
             && k != l && sys.p.text(g, k).Some? && sys.p.text(g, l).Some?
    ensures Run(sys, ws) && ws[0].memory == m && Drained(Last(ws))
    ensures Last(ws).issued == [UpdateRequest(Set, q, [Whole(SDRGamma)], k), UpdateRequest(Set, [a], [Whole(SDRGamma)], l)]
    ensures !IsSequential(sys, m, Last(ws))
  {
    var g := Whole(SDRGamma);
    var first, second := UpdateRequest(Set, q, [g], k), UpdateRequest(Set, [a], [g], l);
    BothAreValid(sys, q, a, b, k, l);
    var before;
    ws, before := TwoRequests(sys, m, first, second);
    BrokenEnd(sys, m, before, Last(ws), first, second, a, b);
  }

  lemma BothAreValid(sys: System, q: seq<Context>, a: Context, b: Context, k: int, l: int)
    requires |q| == 2 && q[0] != q[1] && b in q && b != sys.screen
    requires var g := Whole(SDRGamma);
             && Job(a, g) in sys.offered && Job(q[0], g) in sys.offered && Job(q[1], g) in sys.offered
             && sys.p.text(g, k).Some? && sys.p.text(g, l).Some?
    ensures ValidRequest(sys, UpdateRequest(Set, q, [Whole(SDRGamma)], k))
    ensures ValidRequest(sys, UpdateRequest(Set, [a], [Whole(SDRGamma)], l))
    ensures b in Later(sys, q)
  {
    WithoutIsRest(q, sys.screen);
  }

  /** Two requests follow each other while the worker sleeps; then the worker does what they queued. */
  lemma TwoRequests(sys: System, m: Memory, first: UpdateRequest, second: UpdateRequest) returns (ws: seq<World>, before: Memory)
    requires ValidRequest(sys, first) && ValidRequest(sys, second) && Later(sys, first.contexts) != [] && |first.contexts| != 1
    requires |second.contexts| == 1 ==> second.contexts[0] !in Later(sys, first.contexts)
    ensures Run(sys, ws) && ws[0].memory == m && Drained(Last(ws)) && Last(ws).issued == [first, second]
    ensures Last(ws).memory == ApplyAll(ApplyAll(before, Writes(sys, LaterOf(sys, first))), Writes(sys, LaterOf(sys, second)))
  {
    var w0 := World(m, [], None, [], Idle, []);
    ws := IssueCompletes(sys, [w0], first);
    assert Last(ws).queue == [LaterOf(sys, first)] && Last(ws).issued == [first];
    ws := IssueCompletes(sys, ws, second);
    assert Last(ws).issued == [first, second];
    before := Last(ws).memory;
    QueueOfTwo(sys, Last(ws), first, second);
    ApplyAllSplit(before, Writes(sys, LaterOf(sys, first)), Writes(sys, LaterOf(sys, second)));
    ws := WorkerCompletes(sys, ws);
  }

  lemma QueueOfTwo(sys: System, w: World, first: UpdateRequest, second: UpdateRequest)
    requires w.hand == Idle
    requires w.queue == [LaterOf(sys, first)] + if Later(sys, second.contexts) == [] then [] else [LaterOf(sys, second)]
    ensures Pending(sys, w) == Writes(sys, LaterOf(sys, first)) + Writes(sys, LaterOf(sys, second))
  {
    FlatOne(sys, LaterOf(sys, first));
    if Later(sys, second.contexts) == [] {
      assert w.queue == [LaterOf(sys, first)] && Writes(sys, LaterOf(sys, second)) == [];
    } else {
      FlatAppend(sys, [LaterOf(sys, first)], LaterOf(sys, second));
    }
  }

  lemma BrokenEnd(sys: System, m: Memory, before: Memory, w: World, first: UpdateRequest, second: UpdateRequest, a: Context, b: Context)
    requires var g := Whole(SDRGamma);
             && ValidRequest(sys, first) && ValidRequest(sys, second) && first.level != second.level
             && first.action == second.action == Set && first.targets == second.targets == [g]
             && b in LaterOf(sys, first).contexts && CellOf(Job(a, g)) == CellOf(Job(b, g)) && a in second.contexts
             && forall d :: d in LaterOf(sys, second).contexts ==> CellOf(Job(d, g)) != CellOf(Job(a, g))
    requires w.issued == [first, second]
    requires w.memory == ApplyAll(ApplyAll(before, Writes(sys, LaterOf(sys, first))), Writes(sys, LaterOf(sys, second)))
    ensures !IsSequential(sys, m, w)
  {
    var x := AtCell(CellOf(Job(a, Whole(SDRGamma))));
    GammaIsLeft(sys, before, LaterOf(sys, first), a, b);
    GammaIsSpared(sys, ApplyAll(before, Writes(sys, LaterOf(sys, first))), LaterOf(sys, second), a);
    assert ContentAt(w.memory, x) == Saved(first.level);
    if forall i :: 0 <= i < |w.issued| ==> ValidRequest(sys, w.issued[i]) {
      assert w.issued[..1] == [first];
      var middle := Sequential(sys, m, w.issued[..1]);
      PassIsWrites(sys, middle, second);
      GammaIsLeft(sys, middle, second, a, a);
      assert ContentAt(Sequential(sys, m, w.issued), x) == Saved(second.level);
    }
  }

  /** A "set" of SDRGamma leaves alone the entry of a context that shares it with none of the list. */
  lemma GammaIsSpared(sys: System, m: Memory, r: UpdateRequest, a: Context)
    requires r.action == Set && r.targets == [Whole(SDRGamma)] && TargetsStorable(sys.p, Set, r.targets, r.level)
    requires forall d :: d in r.contexts ==> CellOf(Job(d, Whole(SDRGamma))) != CellOf(Job(a, Whole(SDRGamma)))
    ensures
      var x := AtCell(CellOf(Job(a, Whole(SDRGamma))));
      ContentAt(ApplyAll(m, Writes(sys, r)), x) == ContentAt(m, x)
  {
    var g := Whole(SDRGamma);
    JobsStorable(sys.p, Set, r.contexts, r.targets, r.level);
    EntryOf(sys.p, Set, map[], r.contexts, a, r.targets, r.level, g);
    FreshIsNotSaved(sys.p, Set, map[], r.level, r.contexts, a, g);
    ContentAfter(m, Writes(sys, r), AtCell(CellOf(Job(a, g))));
  }

  /** The same with requests for several contexts only: the first names a sharer of the screen's entry
      but not the screen, the second the screen but not the sharer. */
  lemma ScreenSharerBreaksRun(sys: System, m: Memory, b: Context, d: Context, k: int, l: int) returns (ws: seq<World>)
    requires b != sys.screen && d != sys.screen && b != d
    requires var g := Whole(SDRGamma);
             && Job(sys.screen, g) in sys.offered && Job(b, g) in sys.offered && Job(d, g) in sys.offered
             && CellOf(Job(b, g)) == CellOf(Job(sys.screen, g)) && CellOf(Job(d, g)) != CellOf(Job(sys.screen, g))
             && k != l && sys.p.text(g, k).Some? && sys.p.text(g, l).Some?
    ensures Run(sys, ws) && ws[0].memory == m && Drained(Last(ws))
    ensures Last(ws).issued == [UpdateRequest(Set, [b, d], [Whole(SDRGamma)], k), UpdateRequest(Set, [sys.screen, d], [Whole(SDRGamma)], l)]
    ensures !IsSequential(sys, m, Last(ws))
  {
    var g := Whole(SDRGamma);
    var first, second := UpdateRequest(Set, [b, d], [g], k), UpdateRequest(Set, [sys.screen, d], [g], l);
    WithoutIsRest([b, d], sys.screen);
    WithoutIsRest([sys.screen, d], sys.screen);
    BothAreValid(sys, [b, d], sys.screen, b, k, l);
    BothAreValid(sys, [sys.screen, d], sys.screen, d, l, l);
    var before;
    ws, before := TwoRequests(sys, m, first, second);
    BrokenEnd(sys, m, before, Last(ws), first, second, sys.screen, b);
  }

  /** Every run that drains has drained to the sequential memory. */
  ghost predicate AlwaysRefines(sys: System) {
    forall ws: seq<World> :: Run(sys, ws) && Drained(Last(ws)) ==> IsSequential(sys, ws[0].memory, Last(ws))
  }

  /** So the queue refines the sequential execution exactly where sharers are alone, given two levels
      of SDRGamma that can be stored. */
  lemma RefinesExactly(sys: System, k: int, l: int)
    requires Fits(sys) && k != l && sys.p.text(Whole(SDRGamma), k).Some? && sys.p.text(Whole(SDRGamma), l).Some?
    ensures AlwaysRefines(sys) <==> SharersAreAlone(sys)
  {
    if SharersAreAlone(sys) {
      forall ws: seq<World> | Run(sys, ws) && Drained(Last(ws)) ensures IsSequential(sys, ws[0].memory, Last(ws)) {
        QueueRefinesSequential(sys, ws);
      }
    } else {
      var i, j :| i in sys.offered && j in sys.offered && Share(i, j)
                  && (i.context == sys.screen || j.context == sys.screen
                      || exists e :: e in sys.offered && e.target == i.target && e.context != i.context && e.context != j.context);
      var ws := BrokenRun(sys, i, j, k, l);
    }
  }

  lemma BrokenRun(sys: System, i: Job, j: Job, k: int, l: int) returns (ws: seq<World>)
    requires Fits(sys) && k != l && sys.p.text(Whole(SDRGamma), k).Some? && sys.p.text(Whole(SDRGamma), l).Some?
    requires i in sys.offered && j in sys.offered && Share(i, j)
    requires i.context == sys.screen || j.context == sys.screen
             || exists e :: e in sys.offered && e.target == i.target && e.context != i.context && e.context != j.context
    ensures Run(sys, ws) && Drained(Last(ws)) && !IsSequential(sys, ws[0].memory, Last(ws))
  {
    var m := Memory(map[], map[]);
    SharersAreGammas(i, j);
    assert i == Job(i.context, Whole(SDRGamma)) && j == Job(j.context, Whole(SDRGamma));
    if i.context == sys.screen {
      TwoWithScreen(sys, j.context);
      ws := SharedEntryBreaksRun(sys, m, [j.context, i.context], i.context, j.context, k, l);
    } else if j.context == sys.screen {
      TwoWithScreen(sys, i.context);
      ws := SharedEntryBreaksRun(sys, m, [i.context, j.context], j.context, i.context, k, l);
    } else {
      var e :| e in sys.offered && e.target == i.target && e.context != i.context && e.context != j.context;
      assert e == Job(e.context, Whole(SDRGamma));
      var q := [j.context, e.context];
      WithoutIsRest(q, sys.screen);
      ws := SharedEntryBreaksRun(sys, m, q, i.context, j.context, k, l);
    }
  }

  lemma TwoWithScreen(sys: System, b: Context)
    requires b != sys.screen
    ensures sys.screen !in Later(sys, [b, sys.screen])
  {
    WithoutIsRest([b, sys.screen], sys.screen);
  }

  // ---------------------------------------------------------------- a single context

  /** The exact price of writing a single-context request at once: once the caller has written and the
      pending tasks are done, the memory is the sequential one exactly when it overtook only
      compatible writes. */
  lemma WriteAtOnceExactly(sys: System, m: Memory, w: World, r: UpdateRequest)
    requires ScreenIsSeparate(sys) && Faithful(sys, m, w) && w.caller == [] && w.toPush == None
    requires ValidRequest(sys, r) && |r.contexts| == 1
    ensures forall i :: 0 <= i < |w.issued + [r]| ==> ValidRequest(sys, (w.issued + [r])[i])
    ensures ApplyAll(ApplyAll(w.memory, Writes(sys, r)), Pending(sys, w)) == Sequential(sys, m, w.issued + [r])
            <==> MayOvertake(sys, w, r)
  {
    OneMoreRequest(sys, m, w.issued, r);
    assert Outstanding(sys, w) == Pending(sys, w);
    assert NowOf(sys, r) == r && Writes(sys, LaterOf(sys, r)) == [];
    OvertakingExactly(w.memory, Pending(sys, w), Writes(sys, r));
  }

  /** A request that overtakes a task for its own context, with another level, is undone by it. */
  lemma OwnTaskUndoes(sys: System, m: Memory, a: Context, param: Param, k: int, l: int)
    requires k != l && TargetsStorable(sys.p, Set, [Whole(param)], k) && TargetsStorable(sys.p, Set, [Whole(param)], l)
    ensures
      var pending, now := UpdateRequest(Set, [a], [Whole(param)], k), UpdateRequest(Set, [a], [Whole(param)], l);
      ApplyAll(ApplyAll(m, Writes(sys, now)), Writes(sys, pending)) != ApplyAll(ApplyAll(m, Writes(sys, pending)), Writes(sys, now))
  {
    var pending, now := UpdateRequest(Set, [a], [Whole(param)], k), UpdateRequest(Set, [a], [Whole(param)], l);
    LevelIsLeft(sys, ApplyAll(m, Writes(sys, now)), a, param, k);
    LevelIsLeft(sys, ApplyAll(m, Writes(sys, pending)), a, param, l);
  }

  lemma LevelIsLeft(sys: System, m: Memory, a: Context, param: Param, k: int)
    requires TargetsStorable(sys.p, Set, [Whole(param)], k)
    ensures ContentAt(ApplyAll(m, Writes(sys, UpdateRequest(Set, [a], [Whole(param)], k))), AtCell(CellOf(Job(a, Whole(param))))) == Saved(k)
  {
    JobsStorable(sys.p, Set, [a], [Whole(param)], k);
    EntryOf(sys.p, Set, map[], [a], a, [Whole(param)], k, Whole(param));
    SharerSaves(sys.p, map[], k, [a], a, a, Whole(param));
    SetSavesOneLevel(sys.p, map[], k, [a], a, Whole(param));
    ContentAfter(m, Writes(sys, UpdateRequest(Set, [a], [Whole(param)], k)), AtCell(CellOf(Job(a, Whole(param)))));
  }

  // ---------------------------------------------------------------- draining

  /** What is left to do. */
  function WorkLeft(sys: System, w: World): nat {
    |w.caller| + 2 * Size(sys, w.queue) + (if w.hand.Doing? then |w.hand.rest| + 1 else 0)
    + match w.toPush case None => 0 case Some(t) => 2 * |Writes(sys, t)| + 5
  }

  function Size(sys: System, q: seq<UpdateRequest>): nat
    decreases |q|
  {
    if q == [] then 0 else |Writes(sys, q[0])| + 2 + Size(sys, q[1..])
  }

  lemma {:induction false} SizeAppend(sys: System, q: seq<UpdateRequest>, t: UpdateRequest)
    ensures Size(sys, q + [t]) == Size(sys, q) + |Writes(sys, t)| + 2
    decreases |q|
  {
    if q != [] {
      assert (q + [t])[1..] == q[1..] + [t];
      SizeAppend(sys, q[1..], t);
    }
  }

  lemma WorkShrinks(sys: System, w: World, w': World)
    requires Works(sys, w, w')
    ensures WorkLeft(sys, w') < WorkLeft(sys, w)
  {
    if CallerPushes(w, w') { SizeAppend(sys, w.queue, w.toPush.value); }
  }

  lemma SomeWork(sys: System, w: World) returns (w': World)
    requires !Drained(w)
    ensures Works(sys, w, w')
  {
    if w.caller != [] {
      w' := w.(memory := Apply(w.memory, w.caller[0]), caller := w.caller[1..]);
    } else if w.toPush.Some? {
      w' := w.(queue := w.queue + [w.toPush.value], toPush := None);
    } else if w.hand.Doing? && w.hand.rest != [] {
      w' := w.(memory := Apply(w.memory, w.hand.rest[0]), hand := w.hand.(rest := w.hand.rest[1..]));
    } else if w.hand.Doing? {
      w' := w.(hand := Idle);
    } else {
      w' := w.(hand := Doing(w.queue[0], Writes(sys, w.queue[0])), queue := w.queue[1..]);
    }
  }

  /** As long as something is outstanding a step other than issuing is possible, and every such step
      leaves less to do. */
  lemma QueueDrains(sys: System, w: World)
    ensures Drained(w) <==> WorkLeft(sys, w) == 0
    ensures !Drained(w) ==> exists w' :: Works(sys, w, w')
    ensures forall w' :: Works(sys, w, w') ==> WorkLeft(sys, w') < WorkLeft(sys, w)
  {
    if !Drained(w) { var w' := SomeWork(sys, w); }
    forall w' | Works(sys, w, w') ensures WorkLeft(sys, w') < WorkLeft(sys, w) { WorkShrinks(sys, w, w'); }
  }
}
