/** The queue between the request threads and the worker, and the worker's life cycle: the
    critical sections as methods of the shared object, and the protocol as a state machine over
    every interleaving of pushes, worker turns and the destructor. */
module WorkerQueue {
  import opened Text

  /** The worker waits for the queue lock, runs a task it has taken, or has left its loop. */
  datatype Worker<+T> = Waiting | Running(task: T) | Exited

  /** The destructor has not begun, has asked for the stop and is joining, or has joined. */
  datatype Owner = Alive | Joining | Joined

  /** The shared fields, the two threads, and the history of pushes and finished tasks.
      pushedAtExit is the list of pushes at the moment the worker left its loop. */
  datatype State<+T> = State(queue: seq<T>, stop: bool, worker: Worker<T>, owner: Owner,
                             pushed: seq<T>, executed: seq<T>, pushedAtExit: Option<seq<T>>)

  predicate Init<T(==)>(s: State<T>) {
    s == State([], false, Waiting, Alive, [], [], None)
  }

  predicate Push<T(==)>(s: State<T>, s': State<T>, t: T) {
    s' == s.(queue := s.queue + [t], pushed := s.pushed + [t])
  }

  /** The condition variable lets the worker through when there is work or the stop flag is set. */
  predicate Awake<T(==)>(queue: seq<T>, stop: bool) { queue != [] || stop }

  predicate Leave<T(==)>(s: State<T>, s': State<T>) {
    && s.worker == Waiting && Awake(s.queue, s.stop)
    && s.stop && s.queue == []
    && s' == s.(worker := Exited, pushedAtExit := Some(s.pushed))
  }

  predicate Take<T(==)>(s: State<T>, s': State<T>) {
    && s.worker == Waiting && Awake(s.queue, s.stop)
    && !(s.stop && s.queue == [])
    && s' == s.(worker := Running(s.queue[0]), queue := s.queue[1..])
  }

  /** The task returns, or throws and the exception is swallowed. */
  predicate Finish<T(==)>(s: State<T>, s': State<T>) {
    s.worker.Running? && s' == s.(worker := Waiting, executed := s.executed + [s.worker.task])
  }

  predicate RequestStop<T(==)>(s: State<T>, s': State<T>) {
    s.owner == Alive && s' == s.(owner := Joining, stop := true)
  }

  predicate Join<T(==)>(s: State<T>, s': State<T>) {
    s.owner == Joining && s.worker == Exited && s' == s.(owner := Joined)
  }

  /** A step of the worker or of the destructor. */
  predicate Advances<T(==)>(s: State<T>, s': State<T>) {
    Leave(s, s') || Take(s, s') || Finish(s, s') || RequestStop(s, s') || Join(s, s')
  }

  ghost predicate Next<T(!new)>(s: State<T>, s': State<T>) {
    (exists t :: Push(s, s', t)) || Advances(s, s')
  }

  ghost predicate Run<T(!new)>(ss: seq<State<T>>) {
    ss != [] && Init(ss[0]) && forall i :: 0 <= i < |ss| - 1 ==> Next(ss[i], ss[i + 1])
  }

  function InHand<T>(s: State<T>): seq<T> { if s.worker.Running? then [s.worker.task] else [] }

  /** Nothing is lost, duplicated or reordered; and the worker is gone only after a stop request,
      having run everything pushed until then. */
  predicate Inv<T(==)>(s: State<T>) {
    && s.executed + InHand(s) + s.queue == s.pushed
    && (s.worker == Exited <==> s.pushedAtExit.Some?)
    && (s.worker == Exited ==> s.stop && s.executed == s.pushedAtExit.value)
    && (s.owner == Alive <==> !s.stop)
    && (s.owner == Joined ==> s.worker == Exited)
  }

  lemma PushKeeps<T>(s: State<T>, s': State<T>, t: T)
    requires Inv(s) && Push(s, s', t)
    ensures Inv(s')
  {
    assert s'.executed + InHand(s') + s'.queue == (s.executed + InHand(s) + s.queue) + [t];
  }

  lemma TakeKeeps<T>(s: State<T>, s': State<T>)
    requires Inv(s) && Take(s, s')
    ensures Inv(s')
  {
    assert [s.queue[0]] + s.queue[1..] == s.queue;
    assert s.executed + [s.queue[0]] + s.queue[1..] == s.executed + ([s.queue[0]] + s.queue[1..]);
    assert s.executed + InHand(s) == s.executed;
  }

  lemma LeaveKeeps<T>(s: State<T>, s': State<T>)
    requires Inv(s) && Leave(s, s')
    ensures Inv(s')
  {
    assert s.executed + [] + [] == s.executed;
  }

  lemma FinishKeeps<T>(s: State<T>, s': State<T>)
    requires Inv(s) && Finish(s, s')
    ensures Inv(s')
  {
    assert s.executed + [s.worker.task] + [] == s.executed + [s.worker.task];
  }

  lemma {:induction false} EveryRunKeepsOrder<T(!new)>(ss: seq<State<T>>)
    requires Run(ss)
    ensures Inv(ss[|ss| - 1])
  {
    if |ss| > 1 {
      var front := ss[..|ss| - 1];
      EveryRunKeepsOrder(front);
      var s, s' := front[|front| - 1], ss[|ss| - 1];
      assert Next(s, s');
      if t :| Push(s, s', t) { PushKeeps(s, s', t); }
      else if Leave(s, s') { LeaveKeeps(s, s'); }
      else if Take(s, s') { TakeKeeps(s, s'); }
      else if Finish(s, s') { FinishKeeps(s, s'); }
    }
  }

  /** After the destructor has joined, with no push since the worker left its loop, every task
      was run exactly once, in the order of the pushes. */
  lemma JoinedMeansAllDone<T(!new)>(ss: seq<State<T>>)
    requires Run(ss)
    requires var s := ss[|ss| - 1]; s.owner == Joined && Some(s.pushed) == s.pushedAtExit
    ensures var s := ss[|ss| - 1]; s.executed == s.pushed && s.queue == [] && s.stop
  {
    EveryRunKeepsOrder(ss);
    var s := ss[|ss| - 1];
    assert |s.executed + InHand(s) + s.queue| == |s.pushed|;
  }

  function StepsLeft<T>(s: State<T>): nat {
    2 * |s.queue| +
    (match s.worker case Waiting => 1 case Running(_) => 2 case Exited => 0) +
    (match s.owner case Alive => 2 case Joining => 1 case Joined => 0)
  }

  /** Until the destructor has joined, some step of it or of the worker is possible, and each such step
      leaves fewer to make; only a push can add more. */
  lemma JoinIsReached<T(!new)>(ss: seq<State<T>>)
    requires Run(ss)
    ensures var s := ss[|ss| - 1]; s.owner != Joined ==> exists s' :: Advances(s, s')
    ensures var s := ss[|ss| - 1]; forall s' :: Advances(s, s') ==> StepsLeft(s') < StepsLeft(s)
  {
    EveryRunKeepsOrder(ss);
    var s := ss[|ss| - 1];
    if s.owner == Alive {
      assert Advances(s, s.(owner := Joining, stop := true));
    } else if s.owner == Joining {
      match s.worker {
        case Exited => assert Advances(s, s.(owner := Joined));
        case Running(t) => assert Advances(s, s.(worker := Waiting, executed := s.executed + [t]));
        case Waiting =>
          if s.queue == [] {
            assert Advances(s, s.(worker := Exited, pushedAtExit := Some(s.pushed)));
          } else {
            assert Advances(s, s.(worker := Running(s.queue[0]), queue := s.queue[1..]));
          }
      }
    }
  }

  lemma StepsRunDown<T>(s: State<T>, s': State<T>)
    requires Advances(s, s')
    ensures StepsLeft(s') < StepsLeft(s)
  {
  }

  /** The destructor cannot hang unless pushes go on: after the last push the worker and the destructor
      make at most StepsLeft further steps, and a run that can make no more has joined. */
  lemma {:induction false} JoinWithoutPushes<T(!new)>(ss: seq<State<T>>, n: nat)
    requires Run(ss) && n < |ss| && forall i :: n <= i < |ss| - 1 ==> Advances(ss[i], ss[i + 1])
    ensures |ss| - 1 - n + StepsLeft(ss[|ss| - 1]) <= StepsLeft(ss[n])
    ensures var s := ss[|ss| - 1]; s.owner != Joined ==> exists s' :: Advances(s, s')
    decreases |ss|
  {
    JoinIsReached(ss);
    if n < |ss| - 1 {
      var front := ss[..|ss| - 1];
      JoinWithoutPushes(front, n);
      StepsRunDown(front[|front| - 1], ss[|ss| - 1]);
    }
  }

  /** The object that the critical sections work on. */
  class UpdateQueue<T> {
    var paramUpdateQueue: seq<T>
    var shouldStopWorker: bool

    constructor ()
      ensures paramUpdateQueue == [] && !shouldStopWorker
    {
      paramUpdateQueue, shouldStopWorker := [], false;
    }

    /** The section in which a request thread pushes its task. */
    method PushTask(t: T)
      modifies this`paramUpdateQueue
      ensures paramUpdateQueue == old(paramUpdateQueue) + [t]
    {
      paramUpdateQueue := paramUpdateQueue + [t];
    }

    /** The destructor's section. */
    method StopWorker()
      modifies this`shouldStopWorker
      ensures shouldStopWorker
    {
      shouldStopWorker := true;
    }

    /** The worker's section, once its wait is over: the task it takes, or None to leave. */
    method Fetch() returns (task: Option<T>)
      requires paramUpdateQueue != [] || shouldStopWorker
      modifies this`paramUpdateQueue
      ensures task == None <==> shouldStopWorker && old(paramUpdateQueue) == []
      ensures task.Some? ==> old(paramUpdateQueue) == [task.value] + paramUpdateQueue
      ensures task.None? ==> paramUpdateQueue == old(paramUpdateQueue)
    {
      if shouldStopWorker && |paramUpdateQueue| == 0 { return None; }
      task := Some(paramUpdateQueue[0]);
      paramUpdateQueue := paramUpdateQueue[1..];
    }

    /** The worker's loop with nobody else at work: it runs what is queued, in order, and leaves. */
    method DrainAndLeave() returns (executed: seq<T>)
      requires shouldStopWorker
      modifies this`paramUpdateQueue
      ensures executed == old(paramUpdateQueue) && paramUpdateQueue == []
    {
      executed := [];
      while true
        invariant executed + paramUpdateQueue == old(paramUpdateQueue)
        decreases |paramUpdateQueue|
      {
        var task := Fetch();
        if task.None? { break; }
        executed := executed + [task.value];
      }
    }
  }
}
