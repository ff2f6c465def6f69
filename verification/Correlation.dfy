/** JSON-RPC over a WebSocket: callers wait on a promise per request id, replies arrive on another
    thread, and a wait may time out. */
module Correlation {
  import opened Text

  // ---------------------------------------------------------------- replies

  datatype Fault = Fault(hasCode: bool, hasMessage: bool)

  /** The members of a parsed reply. A result is kept as its "success" member, if it has one. */
  datatype Reply = Reply(version: Option<string>, id: Option<int>, result: Option<Option<bool>>, error: Option<Fault>)

  /** A message as it arrives: the number in its "id" member, and the reply it parses to. */
  datatype Message = Message(number: int, reply: Reply)

  /** The protocol version of section 4 of the JSON-RPC 2.0 specification. */
  const VERSION := "2.0"

  /** Conversion of a JSON number to uint32_t. */
  function Uint32(x: int): int { x % 0x1_0000_0000 }

  /** Section 5 of the JSON-RPC 2.0 specification: the version and the id are there, and exactly one
      of a result and an error with a code and a message. */
  predicate Conforms(r: Reply) {
    && r.version == Some(VERSION)
    && r.id.Some?
    && (r.result.Some? <==> r.error.None?)
    && (r.error.Some? ==> r.error.value == Fault(true, true))
  }

  /** Response::isValid. */
  method IsValid(r: Reply) returns (valid: bool)
    ensures valid <==> && r.version == Some("2.0") && r.id.Some?
                       && ((r.result.Some? && r.error == None) || (r.result == None && r.error == Some(Fault(true, true))))
    ensures valid <==> Conforms(r)
  {
    if r.version.None? || r.version.value != VERSION { return false; }
    if r.id.None? { return false; }
    if r.result.None? && r.error.None? { return false; }
    if r.result.Some? && r.error.Some? { return false; }
    if r.error.Some? {
      if !r.error.value.hasCode || !r.error.value.hasMessage { return false; }
    }
    valid := true;
  }

  /** A reply that makes sendRequest return true. */
  predicate Accepted(id: int, r: Reply) {
    Conforms(r) && r.id == Some(id) && r.error.None? && r.result == Some(Some(true))
  }

  /** processResponse. */
  method ProcessResponse(id: int, r: Reply) returns (success: bool)
    ensures success <==> r == Reply(Some("2.0"), Some(id), Some(Some(true)), None)
    ensures success <==> Accepted(id, r)
  {
    success := false;
    var valid := IsValid(r);
    if valid && r.id == Some(id) {
      if r.result.Some? {
        if r.result.value.Some? { success := r.result.value.value; }
      }
    }
  }

  // ---------------------------------------------------------------- the promise map

  /** responseToPromise_, each promise named by the call that made it, and what the calls' shared
      states hold. */
  datatype Board = Board(promises: map<int, nat>, slots: map<nat, Option<Message>>)

  /** createFutureResponse when the id is free. */
  function Created(b: Board, id: int, call: nat): Board {
    Board(b.promises[id := call], b.slots[call := None])
  }

  /** removePromise: by id, whoever made it. */
  function Erased(b: Board, id: int): Board { b.(promises := b.promises - {id}) }

  /** The promise a message is for still waits for its value. */
  predicate Fills(b: Board, m: Message) {
    && Uint32(m.number) in b.promises
    && b.promises[Uint32(m.number)] in b.slots
    && b.slots[b.promises[Uint32(m.number)]].None?
  }

  /** handleResponse: a message without a promise is dropped, and setting a promise twice throws. */
  function Delivered(b: Board, m: Message): Board {
    if Fills(b, m) then b.(slots := b.slots[b.promises[Uint32(m.number)] := Some(m)]) else b
  }

  datatype Outcome = Filled | Dropped | Throws

  class PromiseMap {
    var promises: map<int, nat>
    var slots: map<nat, Option<Message>>

    constructor ()
      ensures Contents() == Board(map[], map[])
    {
      promises, slots := map[], map[];
    }

    function Contents(): Board reads this { Board(promises, slots) }

    method IsRequestProcessingOngoing(id: int) returns (ongoing: bool)
      ensures ongoing <==> id in Contents().promises
    {
      ongoing := id in promises;
    }

    method CreateFutureResponse(id: int, call: nat) returns (ok: bool)
      modifies this
      ensures ok <==> id !in old(promises)
      ensures Contents() == if ok then Created(old(Contents()), id, call) else old(Contents())
    {
      if id in promises { return false; }
      promises := promises[id := call];
      slots := slots[call := None];
      ok := true;
    }

    method RemovePromise(id: int)
      modifies this`promises
      ensures Contents() == Erased(old(Contents()), id)
    {
      promises := promises - {id};
    }

    method HandleResponse(m: Message) returns (outcome: Outcome)
      requires forall id :: id in promises ==> promises[id] in slots
      modifies this`slots
      ensures Contents() == Delivered(old(Contents()), m)
      ensures outcome.Dropped? <==> Uint32(m.number) !in old(promises)
      ensures outcome.Filled? <==> Fills(old(Contents()), m)
    {
      var id := Uint32(m.number);
      if id !in promises { return Dropped; }
      if slots[promises[id]].Some? { return Throws; }
      slots := slots[promises[id] := Some(m)];
      outcome := Filled;
    }
  }

  // ---------------------------------------------------------------- the protocol

  /** Where a call of sendRequest stands. */
  datatype Phase =
    | Started                // before isRequestProcessingOngoing
    | Checked                // the id was free when looked at
    | Holding                // the promise is in the map
    | SendFailed
    | Waiting                // in wait_for
    | Woken                  // wait_for said ready
    | TimedOut               // wait_for said timeout
    | Processing             // the promise is out of the map again
    | Returned(ok: bool)

  datatype Call = Call(id: int, phase: Phase)

  datatype State = State(board: Board, calls: map<nat, Call>)

  const INITIAL := State(Board(map[], map[]), map[])

  /** The steps of the callers, each atomic under responseMutex_ or private to the caller, and the
      arrival of a message. */
  datatype Event =
    | Begin(call: nat, id: int)
    | Check(call: nat)
    | Create(call: nat)
    | Send(call: nat, ok: bool)
    | Wake(call: nat)
    | TimeOut(call: nat)
    | Remove(call: nat)
    | Finish(call: nat)
    | Arrive(message: Message)

  function At(s: State, k: nat): Phase
    requires k in s.calls
  {
    s.calls[k].phase
  }

  predicate Enabled(s: State, e: Event) {
    match e
    case Begin(k, id) => k !in s.calls
    case Check(k) => k in s.calls && At(s, k).Started?
    case Create(k) => k in s.calls && At(s, k).Checked?
    case Send(k, _) => k in s.calls && At(s, k).Holding?
    case Wake(k) => k in s.calls && At(s, k).Waiting? && k in s.board.slots && s.board.slots[k].Some?
    case TimeOut(k) => k in s.calls && At(s, k).Waiting?
    case Remove(k) => k in s.calls && (At(s, k).SendFailed? || At(s, k).Woken? || At(s, k).TimedOut?)
    case Finish(k) => k in s.calls && At(s, k).Processing? && k in s.board.slots && s.board.slots[k].Some?
    case Arrive(_) => true
  }

  function Move(s: State, k: nat, phase: Phase): State
    requires k in s.calls
  {
    s.(calls := s.calls[k := s.calls[k].(phase := phase)])
  }

  function Step(s: State, e: Event): State
    requires Enabled(s, e)
  {
    match e
    case Begin(k, id) => s.(calls := s.calls[k := Call(id, Started)])
    case Check(k) => Move(s, k, if s.calls[k].id in s.board.promises then Returned(false) else Checked)
    case Create(k) =>
      if s.calls[k].id in s.board.promises then Move(s, k, Returned(false))
      else Move(s.(board := Created(s.board, s.calls[k].id, k)), k, Holding)
    case Send(k, ok) => Move(s, k, if ok then Waiting else SendFailed)
    case Wake(k) => Move(s, k, Woken)
    case TimeOut(k) => Move(s, k, TimedOut)
    case Remove(k) => Move(s.(board := Erased(s.board, s.calls[k].id)), k, if At(s, k).Woken? then Processing else Returned(false))
    case Finish(k) => Move(s, k, Returned(Accepted(s.calls[k].id, s.board.slots[k].value.reply)))
    case Arrive(m) => s.(board := Delivered(s.board, m))
  }

  ghost predicate Run(s: State, es: seq<Event>, t: State)
    decreases |es|
  {
    if es == [] then s == t else Enabled(s, es[0]) && Run(Step(s, es[0]), es[1..], t)
  }

  // ---------------------------------------------------------------- what every step keeps

  /** The call has put its promise in the map and has not taken it out. */
  predicate Owns(p: Phase) { p.Holding? || p.SendFailed? || p.Waiting? || p.Woken? || p.TimedOut? }

  predicate CallIsSound(s: State, k: nat)
    requires k in s.calls
  {
    var c := s.calls[k];
    && (Owns(c.phase) ==> c.id in s.board.promises && s.board.promises[c.id] == k && k in s.board.slots)
    && (c.phase.Woken? || c.phase.Processing? ==> k in s.board.slots && s.board.slots[k].Some?)
    && (k in s.board.slots && s.board.slots[k].Some? ==> Uint32(s.board.slots[k].value.number) == c.id)
    && (c.phase == Returned(true) ==>
          k in s.board.slots && s.board.slots[k].Some? && Accepted(c.id, s.board.slots[k].value.reply))
  }

  ghost predicate Inv(s: State) {
    && (forall id :: id in s.board.promises ==>
          s.board.promises[id] in s.calls && s.calls[s.board.promises[id]].id == id && Owns(At(s, s.board.promises[id])))
    && (forall k :: k in s.board.slots ==> k in s.calls && !At(s, k).Started? && !At(s, k).Checked?)
    && (forall k :: k in s.calls ==> CallIsSound(s, k))
  }

  lemma ArriveKeeps(s: State, m: Message)
    requires Inv(s)
    ensures Inv(Step(s, Arrive(m)))
  {
    var s' := Step(s, Arrive(m));
    forall k | k in s'.calls ensures CallIsSound(s', k) { assert CallIsSound(s, k); }
  }

  lemma CreateKeeps(s: State, k: nat)
    requires Inv(s) && Enabled(s, Create(k))
    ensures Inv(Step(s, Create(k)))
  {
    var s' := Step(s, Create(k));
    forall j | j in s'.calls ensures CallIsSound(s', j) { assert CallIsSound(s, j); }
  }

  lemma RemoveKeeps(s: State, k: nat)
    requires Inv(s) && Enabled(s, Remove(k))
    ensures Inv(Step(s, Remove(k)))
  {
    var s' := Step(s, Remove(k));
    forall j | j in s'.calls ensures CallIsSound(s', j) { assert CallIsSound(s, j) && CallIsSound(s, k); }
  }

  lemma StepKeeps(s: State, e: Event)
    requires Inv(s) && Enabled(s, e)
    ensures Inv(Step(s, e))
  {
    match e {
      case Arrive(m) => ArriveKeeps(s, m);
      case Create(k) => CreateKeeps(s, k);
      case Remove(k) => RemoveKeeps(s, k);
      case _ =>
        var s' := Step(s, e);
        forall j | j in s'.calls ensures CallIsSound(s', j) { if j in s.calls { assert CallIsSound(s, j); } }
    }
  }

  lemma {:induction false} RunKeeps(s: State, es: seq<Event>, t: State)
    requires Inv(s) && Run(s, es, t)
    ensures Inv(t)
    decreases |es|
  {
    if es != [] {
      StepKeeps(s, es[0]);
      RunKeeps(Step(s, es[0]), es[1..], t);
    }
  }

  /** In every interleaving, an id is in the map exactly while a call with that id has put its promise
      there and not taken it out, and never for two calls at once. */
  lemma MapHoldsLiveCalls(es: seq<Event>, t: State)
    requires Run(INITIAL, es, t)
    ensures forall id :: id in t.board.promises <==> exists k :: k in t.calls && t.calls[k].id == id && Owns(At(t, k))
    ensures forall j, k :: j in t.calls && k in t.calls && Owns(At(t, j)) && Owns(At(t, k)) && t.calls[j].id == t.calls[k].id ==> j == k
  {
    RunKeeps(INITIAL, es, t);
    forall j, k | j in t.calls && k in t.calls && Owns(At(t, j)) && Owns(At(t, k)) && t.calls[j].id == t.calls[k].id
      ensures j == k
    {
      assert CallIsSound(t, j) && CallIsSound(t, k);
    }
    forall id ensures id in t.board.promises <==> exists k :: k in t.calls && t.calls[k].id == id && Owns(At(t, k)) {
      if k :| k in t.calls && t.calls[k].id == id && Owns(At(t, k)) { assert CallIsSound(t, k); }
    }
  }

  /** A caller only ever receives a message with its own id, one that wakes is never left without
      its message, and sendRequest returns true only for a reply that conforms to the specification,
      has the call's id and a successful result, and no error. */
  lemma CallersReceiveTheirOwn(es: seq<Event>, t: State, k: nat)
    requires Run(INITIAL, es, t) && k in t.calls
    ensures k in t.board.slots && t.board.slots[k].Some? ==> t.board.slots[k].value.number % 0x1_0000_0000 == t.calls[k].id
    ensures At(t, k).Woken? || At(t, k).Processing? ==> k in t.board.slots && t.board.slots[k].Some?
    ensures At(t, k) == Returned(true) ==>
      && k in t.board.slots && t.board.slots[k].Some?
      && t.board.slots[k].value.reply == Reply(Some("2.0"), Some(t.calls[k].id), Some(Some(true)), None)
  {
    RunKeeps(INITIAL, es, t);
    assert CallIsSound(t, k);
  }

  // ---------------------------------------------------------------- which calls succeed

  lemma AcceptedMeans(id: int, r: Reply)
    ensures Accepted(id, r) <==> r == Reply(Some("2.0"), Some(id), Some(Some(true)), None)
  {
  }

  /** A message for a waiting call that has none yet becomes its message and lets it wake. */
  lemma MessageReachesCall(es: seq<Event>, s: State, k: nat, m: Message)
    requires Run(INITIAL, es, s) && k in s.calls && At(s, k).Waiting?
    requires m.number % 0x1_0000_0000 == s.calls[k].id && (k in s.board.slots ==> s.board.slots[k] == None)
    ensures
      var t := Step(s, Arrive(m));
      k in t.board.slots && t.board.slots[k] == Some(m) && Enabled(t, Wake(k))
  {
    RunKeeps(INITIAL, es, s);
    assert CallIsSound(s, k);
  }

  /** A call that has its message and is waiting, woken or processing it, and where it ends. */
  predicate HasAnswer(s: State, k: nat, id: int, m: Message) {
    && k in s.calls && s.calls[k].id == id && k in s.board.slots && s.board.slots[k] == Some(m)
    && (At(s, k).Waiting? || At(s, k).Woken? || At(s, k).Processing?
        || At(s, k) == Returned(m.reply == Reply(Some("2.0"), Some(id), Some(Some(true)), None)))
  }

  /** Whatever else happens, a call that has its message and does not time out returns what the message
      says: true exactly for a reply of version "2.0" with the call's id, no error and success. */
  lemma {:induction false} AnswerDecides(s: State, es: seq<Event>, t: State, k: nat, m: Message)
    requires Inv(s) && Run(s, es, t) && k in s.calls && HasAnswer(s, k, s.calls[k].id, m)
    requires TimeOut(k) !in es
    ensures HasAnswer(t, k, s.calls[k].id, m)
    decreases |es|
  {
    if es != [] {
      var e, s' := es[0], Step(s, es[0]);
      StepKeeps(s, e);
      CallsProgress(s, k, e);
      StepKeepsMessage(s, e, k);
      AcceptedMeans(s.calls[k].id, m.reply);
      assert e != TimeOut(k);
      AnswerDecides(s', es[1..], t, k, m);
    }
  }

  /** And it does return when it goes on: three steps of its own are enough. */
  lemma AnsweredCallReturns(s: State, k: nat, m: Message)
    requires Inv(s) && k in s.calls && At(s, k).Waiting? && k in s.board.slots && s.board.slots[k] == Some(m)
    ensures
      var ok := m.reply == Reply(Some("2.0"), Some(s.calls[k].id), Some(Some(true)), None);
      exists t :: Run(s, [Wake(k), Remove(k), Finish(k)], t) && k in t.calls && At(t, k) == Returned(ok)
  {
    var a := Step(s, Wake(k));
    var b := Step(a, Remove(k));
    var t := Step(b, Finish(k));
    AcceptedMeans(s.calls[k].id, m.reply);
    assert [Wake(k), Remove(k), Finish(k)][1..] == [Remove(k), Finish(k)] && [Remove(k), Finish(k)][1..] == [Finish(k)];
    assert [Finish(k)][1..] == [];
    assert Run(t, [], t) && Run(b, [Finish(k)], t) && Run(a, [Remove(k), Finish(k)], t);
  }

  /** The run of a call k whose id no other call uses, whose send succeeds and which does not time out. */
  ghost predicate Undisturbed(es: seq<Event>, k: nat, id: int) {
    && Send(k, false) !in es && TimeOut(k) !in es
    && forall j, i :: Begin(j, i) in es ==> (j == k <==> i == id)
  }

  /** On its way, or returned with the verdict on its message. */
  predicate OnItsWay(s: State, k: nat, id: int) {
    k in s.calls && s.calls[k].id == id &&
    match At(s, k)
    case Started => true
    case Checked => true
    case Holding => true
    case Waiting => true
    case Woken => true
    case Processing => true
    case Returned(ok) =>
      && k in s.board.slots && s.board.slots[k].Some?
      && ok == (s.board.slots[k].value.reply == Reply(Some("2.0"), Some(id), Some(Some(true)), None))
    case _ => false
  }

  ghost predicate OnlyUser(s: State, k: nat, id: int) { forall j :: j in s.calls ==> (j == k <==> s.calls[j].id == id) }

  lemma UndisturbedStep(s: State, e: Event, k: nat, id: int)
    requires Inv(s) && Enabled(s, e) && OnlyUser(s, k, id) && (k in s.calls ==> OnItsWay(s, k, id))
    requires e != Send(k, false) && e != TimeOut(k) && (e.Begin? ==> (e.call == k <==> e.id == id))
    ensures OnlyUser(Step(s, e), k, id) && (k in Step(s, e).calls ==> OnItsWay(Step(s, e), k, id))
  {
    if k in s.calls {
      assert CallIsSound(s, k);
      AcceptedMeans(id, if e == Finish(k) then s.board.slots[k].value.reply else Reply(None, None, None, None));
      CallsProgress(s, k, e);
      if k in s.board.slots && s.board.slots[k].Some? { StepKeepsMessage(s, e, k); }
      assert id in s.board.promises ==> s.board.promises[id] == k;
    }
  }

  lemma {:induction false} UndisturbedRun(s: State, es: seq<Event>, t: State, k: nat, id: int)
    requires Inv(s) && Run(s, es, t) && OnlyUser(s, k, id) && (k in s.calls ==> OnItsWay(s, k, id)) && Undisturbed(es, k, id)
    ensures k in t.calls ==> OnItsWay(t, k, id)
    decreases |es|
  {
    if es != [] {
      assert es == [es[0]] + es[1..];
      assert es[0].Begin? ==> Begin(es[0].call, es[0].id) in es;
      StepKeeps(s, es[0]);
      UndisturbedStep(s, es[0], k, id);
      UndisturbedRun(Step(s, es[0]), es[1..], t, k, id);
    }
  }

  /** In every interleaving: a call whose id no other call uses, whose send succeeds and which does not
      time out, returns only after a message, and returns true exactly when the first message it was given
      is a reply of version "2.0" with its id, no error and success. */
  lemma UndisturbedCallSucceeds(es: seq<Event>, t: State, k: nat)
    requires Run(INITIAL, es, t) && k in t.calls && Undisturbed(es, k, t.calls[k].id) && At(t, k).Returned?
    ensures k in t.board.slots && t.board.slots[k].Some?
    ensures At(t, k).ok <==> t.board.slots[k].value.reply == Reply(Some("2.0"), Some(t.calls[k].id), Some(Some(true)), None)
  {
    UndisturbedRun(INITIAL, es, t, k, t.calls[k].id);
  }

  /** A call that times out or cannot send is on its way to returning false, or has. */
  predicate Lost(s: State, k: nat) {
    k in s.calls && (At(s, k).SendFailed? || At(s, k).TimedOut? || At(s, k) == Returned(false))
  }

  /** Whatever happens afterwards, a call that timed out, could not send or was refused returns false. */
  lemma {:induction false} LostCallReturnsFalse(s: State, es: seq<Event>, t: State, k: nat)
    requires Run(s, es, t) && Lost(s, k)
    ensures Lost(t, k)
    decreases |es|
  {
    if es != [] { LostCallReturnsFalse(Step(s, es[0]), es[1..], t, k); }
  }

  /** The steps that lose a call: a timeout, a failed send, and finding its id in use. */
  lemma WhatLosesACall(s: State, e: Event, k: nat)
    requires Inv(s) && k in s.calls && !Lost(s, k) && Enabled(s, e)
    ensures Lost(Step(s, e), k)
            <==> || e == TimeOut(k) || e == Send(k, false)
                 || (e in [Check(k), Create(k)] && s.calls[k].id in s.board.promises)
                 || (e == Finish(k) && s.board.slots[k].value.reply != Reply(Some("2.0"), Some(s.calls[k].id), Some(Some(true)), None))
  {
    CallsProgress(s, k, e);
    if e == Finish(k) { AcceptedMeans(s.calls[k].id, s.board.slots[k].value.reply); }
  }

  /** No call goes on, or returns, without having looked whether its id is in use; and a request is only
      sent with its promise in the map. */
  lemma {:induction false} LooksBeforeItSends(s: State, es: seq<Event>, t: State, k: nat)
    requires Inv(s) && Run(s, es, t) && (k in s.calls ==> At(s, k).Started?) && k in t.calls
    ensures !At(t, k).Started? ==> Check(k) in es
    ensures forall ok :: Enabled(t, Send(k, ok)) ==> t.calls[k].id in t.board.promises && t.board.promises[t.calls[k].id] == k
    decreases |es|
  {
    RunKeeps(s, es, t);
    assert CallIsSound(t, k);
    if es != [] && es[0] != Check(k) {
      StepKeeps(s, es[0]);
      LooksBeforeItSends(Step(s, es[0]), es[1..], t, k);
    }
  }

  // ---------------------------------------------------------------- what is left behind

  /** Once all calls have returned the map is empty. */
  lemma MapEmptiesOut(es: seq<Event>, t: State)
    requires Run(INITIAL, es, t)
    requires forall k :: k in t.calls ==> At(t, k).Returned?
    ensures t.board.promises == map[]
  {
    RunKeeps(INITIAL, es, t);
    assert forall id :: id !in t.board.promises;
  }

  lemma StepKeepsMessage(s: State, e: Event, k: nat)
    requires Inv(s) && Enabled(s, e) && k in s.board.slots && s.board.slots[k].Some?
    ensures k in Step(s, e).board.slots && Step(s, e).board.slots[k] == s.board.slots[k]
  {
  }

  /** Of several messages for one call only the first counts: whatever happens later, it stays the one
      that the call has. */
  lemma {:induction false} FirstMessageStays(s: State, es: seq<Event>, t: State, k: nat)
    requires Inv(s) && Run(s, es, t) && k in s.board.slots && s.board.slots[k].Some?
    ensures k in t.board.slots && t.board.slots[k] == s.board.slots[k]
    decreases |es|
  {
    if es != [] {
      StepKeeps(s, es[0]);
      StepKeepsMessage(s, es[0], k);
      FirstMessageStays(Step(s, es[0]), es[1..], t, k);
    }
  }

  /** A message whose id nobody waits for, such as one that comes after the timeout, changes
      nothing. */
  lemma LateMessageIsDropped(es: seq<Event>, t: State, m: Message)
    requires Run(INITIAL, es, t)
    requires forall k :: k in t.calls && t.calls[k].id == Uint32(m.number) ==> !Owns(At(t, k))
    ensures Step(t, Arrive(m)) == t
  {
    RunKeeps(INITIAL, es, t);
  }

  // ---------------------------------------------------------------- every call ends

  function StepsLeft(p: Phase): nat {
    match p
    case Started => 6
    case Checked => 5
    case Holding => 4
    case Waiting => 3
    case SendFailed => 2
    case Woken => 2
    case TimedOut => 2
    case Processing => 1
    case Returned(_) => 0
  }

  /** The caller's next step, timing out where it would otherwise wait. */
  function NextOf(s: State, k: nat): Event
    requires k in s.calls && !At(s, k).Returned?
  {
    match At(s, k)
    case Started => Check(k)
    case Checked => Create(k)
    case Holding => Send(k, true)
    case Waiting => TimeOut(k)
    case SendFailed => Remove(k)
    case Woken => Remove(k)
    case TimedOut => Remove(k)
    case Processing => Finish(k)
  }

  predicate IsStepOf(e: Event, k: nat) { !e.Arrive? && !e.Begin? && e.call == k }

  /** No call gets stuck: until it returns it has a step to take, each of its steps brings the return
      nearer, and no step of another thread sets it back. */
  lemma CallsProgress(s: State, k: nat, e: Event)
    requires Inv(s) && k in s.calls && Enabled(s, e)
    ensures !At(s, k).Returned? ==> Enabled(s, NextOf(s, k))
    ensures k in Step(s, e).calls
    ensures if IsStepOf(e, k) then StepsLeft(At(Step(s, e), k)) < StepsLeft(At(s, k)) else Step(s, e).calls[k] == s.calls[k]
  {
    assert CallIsSound(s, k);
  }
}
