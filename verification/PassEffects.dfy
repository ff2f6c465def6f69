/** What a pass of "set", "reset" or "sync" leaves in the store and in the driver, place by place, and
    what is read afterwards. */
module PassEffects {
  import opened Text
  import opened Names
  import opened Keys
  import opened Encoding
  import opened Updates
  import opened LastWrites
  import opened Splitting

  /** Two maps hold the same at a key. */
  predicate SameAt<K(==), V(==)>(m: map<K, V>, m': map<K, V>, k: K) {
    (k in m' <==> k in m) && (k in m ==> m'[k] == m[k])
  }

  /** A setting of another context goes to the same driver entry. */
  predicate Shares(c: Context, j: Job) {
    c.mode == j.context.mode && c.source == j.context.source && (j.target == Whole(SDRGamma) || c.format == j.context.format)
  }

  lemma SharesMeans(c: Context, j: Job)
    ensures Shares(c, j) <==> CellOf(Job(c, j.target)) == CellOf(j)
  {
  }

  lemma {:induction false} JobsListed(contexts: seq<Context>, targets: seq<Target>, j: Job)
    ensures j in Jobs(contexts, targets) <==> j.context in contexts && j.target in targets
    decreases |contexts|
  {
    if contexts != [] {
      var js := JobsIn(contexts[0], targets);
      JobsListed(contexts[1..], targets, j);
      if j.target in targets {
        var i := IndexOf(targets, j.target);
        assert js[i] == Job(contexts[0], j.target);
      }
      assert j == Job(j.context, j.target);
      assert forall i :: 0 <= i < |js| ==> js[i] == Job(contexts[0], targets[i]);
    }
  }

  // ---------------------------------------------------------------- the store

  /** A "set" writes a white-balance level only if it is in range; a "reset" always clears. */
  predicate WritesKey(p: Platform, action: Action, t: Target, level: int) {
    action == Reset || (action == Set && (t.Whole? || p.inRange(t, level)))
  }

  lemma StepAtKey(p: Platform, action: Action, store: map<string, string>, i: Job, level: int, j: Job)
    requires Good(p) && p.named(i.context) && p.named(j.context) && Storable(p, action, i.target, level)
    ensures LastAt(Step(p, action, store, i, level).writes, AtKey(p.key(j)))
            == if i == j && WritesKey(p, action, i.target, level) then Some(KeyWrite(p, action, level, i)) else None
  {
    var ws := Step(p, action, store, i, level).writes;
    if i != j { KeysDiffer(p, i, j); }
    if |ws| == 2 { LastOfTwo(ws, AtKey(p.key(j))); }
    if |ws| == 1 { assert ws[1..] == []; }
  }

  /** The write that jobs make to the key of a setting, if they make one. */
  function WriteTo(p: Platform, action: Action, jobs: seq<Job>, level: int, j: Job): Option<Write>
    requires AllStorable(p, action, jobs, level)
  {
    if j in jobs && WritesKey(p, action, j.target, level) then
      assert Storable(p, action, jobs[IndexOf(jobs, j)].target, level);
      Some(KeyWrite(p, action, level, j))
    else None
  }

  lemma WriteToTail(p: Platform, action: Action, jobs: seq<Job>, level: int, level': int, j: Job)
    requires jobs != [] && AllStorable(p, action, jobs, level) && AllStorable(p, action, jobs[1..], level') && (action == Set ==> level == level')
    ensures WriteTo(p, action, jobs, level, j)
            == if jobs[0] == j && WritesKey(p, action, j.target, level) then Some(KeyWrite(p, action, level, jobs[0]))
               else WriteTo(p, action, jobs[1..], level', j)
  {
    assert jobs == [jobs[0]] + jobs[1..];
  }

  lemma {:induction false} PlanAtKey(p: Platform, action: Action, store: map<string, string>, jobs: seq<Job>, level: int, j: Job)
    requires Good(p) && AllStorable(p, action, jobs, level) && p.named(j.context)
    requires forall i :: 0 <= i < |jobs| ==> p.named(jobs[i].context)
    ensures LastAt(Plan(p, action, store, jobs, level), AtKey(p.key(j))) == WriteTo(p, action, jobs, level, j)
    decreases |jobs|
  {
    if jobs != [] {
      var o := Step(p, action, store, jobs[0], level);
      StepAtKey(p, action, store, jobs[0], level, j);
      PlanAtKey(p, action, store, jobs[1..], o.level, j);
      LastAtSplit(o.writes, Plan(p, action, store, jobs[1..], o.level), AtKey(p.key(j)));
      WriteToTail(p, action, jobs, level, o.level, j);
      if jobs[0] == j && WritesKey(p, action, j.target, level) { SameWriteLater(p, action, jobs[1..], o.level, level, j); }
    }
  }

  lemma SameWriteLater(p: Platform, action: Action, jobs: seq<Job>, level: int, level': int, j: Job)
    requires AllStorable(p, action, jobs, level) && Storable(p, action, j.target, level') && (action == Set ==> level == level')
    ensures WriteTo(p, action, jobs, level, j).Some? ==> WriteTo(p, action, jobs, level, j) == Some(KeyWrite(p, action, level', j))
  {
  }

  /** A pass that reads no text is its plan, and what it leaves at a key is the last write there. */
  lemma PassAtKey(p: Platform, action: Action, m: Memory, contexts: seq<Context>, targets: seq<Target>, level: int, j: Job)
    requires Good(p) && action != Sync && TargetsStorable(p, action, targets, level)
    requires AllNamed(p, contexts) && p.named(j.context)
    ensures
      var js := Jobs(contexts, targets);
      var after := OnePass(p, action, m, contexts, targets, level).memory;
      if j.context in contexts && j.target in targets && WritesKey(p, action, j.target, level)
      then ContentAt(after, AtKey(p.key(j))) == (if action == Set && p.text(j.target, level).Some? then Stored(p.text(j.target, level).value) else Absent)
           && (action == Set ==> p.text(j.target, level).Some?)
      else SameAt(m.store, after.store, p.key(j))
  {
    var js, x := Jobs(contexts, targets), AtKey(p.key(j));
    JobsStorable(p, action, contexts, targets, level);
    JobsListed(contexts, targets, j);
    PassIsPlan(p, action, m, js, level);
    ContentAfter(m, Plan(p, action, m.store, js, level), x);
    PlanAtKey(p, action, m.store, js, level, j);
    SameContent(m, OnePass(p, action, m, contexts, targets, level).memory, x);
  }

  lemma SameContent(m: Memory, m': Memory, x: Place)
    ensures ContentAt(m, x) == ContentAt(m', x)
            <==> match x case AtKey(key) => SameAt(m.store, m'.store, key) case AtCell(cell) => SameAt(m.driver, m'.driver, cell)
  {
  }

  // ---------------------------------------------------------------- the driver

  /** The last of the contexts that save in an entry decides what is saved there. */
  lemma {:induction false} LastSavedMeans(p: Platform, action: Action, store: map<string, string>, level: int, contexts: seq<Context>, j: Job)
    ensures forall k :: 0 <= k < |contexts| && Shares(contexts[k], j) && SavedBy(p, action, store, level, Job(contexts[k], j.target)).Some?
                        && (forall l :: k < l < |contexts| && Shares(contexts[l], j) ==> SavedBy(p, action, store, level, Job(contexts[l], j.target)).None?)
              ==> LastSaved(p, action, store, level, contexts, j.context, j.target) == SavedBy(p, action, store, level, Job(contexts[k], j.target))
    ensures (forall k :: 0 <= k < |contexts| && Shares(contexts[k], j) ==> SavedBy(p, action, store, level, Job(contexts[k], j.target)).None?)
            ==> LastSaved(p, action, store, level, contexts, j.context, j.target).None?
    decreases |contexts|
  {
    if contexts != [] {
      var rest := contexts[1..];
      LastSavedMeans(p, action, store, level, rest, j);
      SharesMeans(contexts[0], j);
      assert forall l :: 0 < l < |contexts| ==> contexts[l] == rest[l - 1];
      assert forall l :: 0 <= l < |rest| ==> rest[l] == contexts[l + 1];
    }
  }

  lemma PassAtCell(p: Platform, action: Action, m: Memory, contexts: seq<Context>, targets: seq<Target>, level: int, j: Job)
    requires TargetsStorable(p, action, targets, level)
    requires action == Sync ==> RecognisedStore(p, m, contexts, targets)
    ensures ContentAt(OnePass(p, action, m, contexts, targets, level).memory, AtCell(CellOf(j)))
            == if j.target in targets && LastSaved(p, action, m.store, level, contexts, j.context, j.target).Some?
               then Saved(LastSaved(p, action, m.store, level, contexts, j.context, j.target).value)
               else ContentAt(m, AtCell(CellOf(j)))
  {
    var js, x := Jobs(contexts, targets), AtCell(CellOf(j));
    JobsStorable(p, action, contexts, targets, level);
    RecognisedRequest(p, action, m, contexts, targets);
    RecognisedPlan(p, action, m.store, js, level, level);
    PassIsPlan(p, action, m, js, level);
    var ws := Plan(p, action, m.store, js, level);
    ContentAfter(m, ws, x);
    assert j == Job(j.context, j.target);
    if j.target in targets {
      EntryOf(p, action, m.store, contexts, j.context, targets, level, j.target);
    } else {
      LastAtIsTouch(ws, x);
      if x in Touched(ws) {
        var k := WriteOfPlan(p, action, m.store, js, level, LastAt(ws, x).value);
        assert false;
      }
    }
  }

  // ---------------------------------------------------------------- set

  /** A "set", place by place. The text of the level is under the key of every addressed setting, white
      balance only if the level is in range, and no other key changes; the level is in the driver entry
      of every addressed setting and of whatever shares it, and no other entry changes. */
  lemma SetLeaves(p: Platform, m: Memory, contexts: seq<Context>, targets: seq<Target>, level: int, j: Job)
    requires Good(p) && TargetsStorable(p, Set, targets, level) && AllNamed(p, contexts) && p.named(j.context)
    ensures
      var after := OnePass(p, Set, m, contexts, targets, level).memory;
      var writes := j.target in targets && (j.target.Whole? || p.inRange(j.target, level));
      && (if writes && j.context in contexts
          then p.key(j) in after.store && Some(after.store[p.key(j)]) == p.text(j.target, level)
          else SameAt(m.store, after.store, p.key(j)))
      && (if writes && exists c :: c in contexts && Shares(c, j)
          then CellOf(j) in after.driver && after.driver[CellOf(j)] == level
          else SameAt(m.driver, after.driver, CellOf(j)))
  {
    PassAtKey(p, Set, m, contexts, targets, level, j);
    PassAtCell(p, Set, m, contexts, targets, level, j);
    SetSavesOneLevel(p, m.store, level, contexts, j.context, j.target);
    SameContent(m, OnePass(p, Set, m, contexts, targets, level).memory, AtCell(CellOf(j)));
    if c :| c in contexts && Shares(c, j) {
      SavedIfShared(p, m.store, level, contexts, c, j);
    } else {
      LastSavedMeans(p, Set, m.store, level, contexts, j);
    }
  }

  lemma {:induction false} SavedIfShared(p: Platform, store: map<string, string>, level: int, contexts: seq<Context>, c: Context, j: Job)
    requires c in contexts && Shares(c, j)
    ensures LastSaved(p, Set, store, level, contexts, j.context, j.target).Some? <==> j.target.Whole? || p.inRange(j.target, level)
    decreases |contexts|
  {
    SharesMeans(contexts[0], j);
    if c in contexts[1..] {
      SavedIfShared(p, store, level, contexts[1..], c, j);
    } else {
      assert c == contexts[0];
      SetSavesOneLevel(p, store, level, contexts[1..], j.context, j.target);
    }
  }

  // ---------------------------------------------------------------- reset

  /** A "reset" clears the keys of the addressed settings and changes no other key. */
  lemma ResetClears(p: Platform, m: Memory, contexts: seq<Context>, targets: seq<Target>, level: int, j: Job)
    requires Good(p) && AllNamed(p, contexts) && p.named(j.context)
    ensures
      var after := OnePass(p, Reset, m, contexts, targets, level).memory;
      if j.context in contexts && j.target in targets then p.key(j) !in after.store else SameAt(m.store, after.store, p.key(j))
  {
    PassAtKey(p, Reset, m, contexts, targets, level, j);
  }

  /** A context whose default goes to the driver entry of a setting. */
  predicate SavesDefault(p: Platform, c: Context, j: Job) { Shares(c, j) && p.inRange(j.target, p.defaults(Job(c, j.target))) }

  /** After a "reset" the driver entry of an addressed setting holds the default of the last context that
      shares it and has a default in range; without such a context it is as before. */
  lemma ResetSavesDefaults(p: Platform, m: Memory, contexts: seq<Context>, targets: seq<Target>, level: int, j: Job)
    ensures
      var after := OnePass(p, Reset, m, contexts, targets, level).memory;
      && (forall k :: j.target in targets && 0 <= k < |contexts| && SavesDefault(p, contexts[k], j)
                      && (forall l :: k < l < |contexts| ==> !SavesDefault(p, contexts[l], j))
            ==> CellOf(j) in after.driver && after.driver[CellOf(j)] == p.defaults(Job(contexts[k], j.target)))
      && ((j.target in targets ==> forall k :: 0 <= k < |contexts| ==> !SavesDefault(p, contexts[k], j))
          ==> SameAt(m.driver, after.driver, CellOf(j)))
  {
    PassAtCell(p, Reset, m, contexts, targets, level, j);
    SameContent(m, OnePass(p, Reset, m, contexts, targets, level).memory, AtCell(CellOf(j)));
    LastDefault(p, m.store, level, contexts, j);
  }

  lemma LastDefault(p: Platform, store: map<string, string>, level: int, contexts: seq<Context>, j: Job)
    ensures forall k :: 0 <= k < |contexts| && SavesDefault(p, contexts[k], j) && (forall l :: k < l < |contexts| ==> !SavesDefault(p, contexts[l], j))
              ==> LastSaved(p, Reset, store, level, contexts, j.context, j.target) == Some(p.defaults(Job(contexts[k], j.target)))
    ensures (forall k :: 0 <= k < |contexts| ==> !SavesDefault(p, contexts[k], j))
            ==> LastSaved(p, Reset, store, level, contexts, j.context, j.target).None?
  {
    LastSavedMeans(p, Reset, store, level, contexts, j);
    assert forall c :: SavesDefault(p, c, j) <==> Shares(c, j) && SavedBy(p, Reset, store, level, Job(c, j.target)).Some?;
  }

  // ---------------------------------------------------------------- sync

  /** The level that is found going back from a job: the last one read, or the request's. */
  function LevelFound(p: Platform, store: map<string, string>, jobs: seq<Job>, k: nat, level: int): int
    requires k <= |jobs|
  {
    if k == 0 then level
    else
      var j := jobs[k - 1];
      if p.key(j) in store && p.read(j.target, store[p.key(j)]).Value? then p.read(j.target, store[p.key(j)]).level
      else LevelFound(p, store, jobs, k - 1, level)
  }

  /** A job of a "sync" saves when a text is stored and reads as a level in range, or is not recognised. */
  predicate Loads(p: Platform, store: map<string, string>, j: Job) {
    && p.key(j) in store
    && match p.read(j.target, store[p.key(j)])
       case Value(v) => p.inRange(j.target, v)
       case Unchanged => true
       case Throws => false
  }

  lemma {:induction false} LevelFoundTail(p: Platform, store: map<string, string>, jobs: seq<Job>, k: nat, level: int)
    requires 0 < k <= |jobs|
    ensures LevelFound(p, store, jobs, k, level)
            == LevelFound(p, store, jobs[1..], k - 1, Step(p, Sync, store, jobs[0], level).level)
    decreases k
  {
    if k > 1 { LevelFoundTail(p, store, jobs, k - 1, level); }
  }

  /** The last job that loads a driver entry. */
  predicate LastToLoad(p: Platform, store: map<string, string>, jobs: seq<Job>, cell: Cell, k: nat) {
    && k < |jobs| && CellOf(jobs[k]) == cell && Loads(p, store, jobs[k])
    && forall l :: k < l < |jobs| && CellOf(jobs[l]) == cell ==> !Loads(p, store, jobs[l])
  }

  lemma StepLoads(p: Platform, store: map<string, string>, j: Job, level: int, cell: Cell)
    ensures LastAt(Step(p, Sync, store, j, level).writes, AtCell(cell))
            == if CellOf(j) == cell && Loads(p, store, j) then Some(Save(cell, Step(p, Sync, store, j, level).level)) else None
  {
    var ws := Step(p, Sync, store, j, level).writes;
    if |ws| == 1 { assert ws[1..] == []; }
  }

  lemma {:induction false} NothingLoads(p: Platform, store: map<string, string>, jobs: seq<Job>, level: int, cell: Cell)
    requires forall k :: 0 <= k < |jobs| && CellOf(jobs[k]) == cell ==> !Loads(p, store, jobs[k])
    ensures LastAt(Plan(p, Sync, store, jobs, level), AtCell(cell)) == None
    decreases |jobs|
  {
    if jobs != [] {
      var o, rest := Step(p, Sync, store, jobs[0], level), jobs[1..];
      assert forall k :: 0 <= k < |rest| ==> rest[k] == jobs[k + 1];
      NothingLoads(p, store, rest, o.level, cell);
      StepLoads(p, store, jobs[0], level, cell);
      LastAtSplit(o.writes, Plan(p, Sync, store, rest, o.level), AtCell(cell));
    }
  }

  lemma {:induction false} LastLoads(p: Platform, store: map<string, string>, jobs: seq<Job>, level: int, cell: Cell, k: nat)
    requires LastToLoad(p, store, jobs, cell, k)
    ensures LastAt(Plan(p, Sync, store, jobs, level), AtCell(cell)) == Some(Save(cell, LevelFound(p, store, jobs, k + 1, level)))
    decreases |jobs|
  {
    var o, rest := Step(p, Sync, store, jobs[0], level), jobs[1..];
    assert forall l :: 0 <= l < |rest| ==> rest[l] == jobs[l + 1];
    StepLoads(p, store, jobs[0], level, cell);
    LastAtSplit(o.writes, Plan(p, Sync, store, rest, o.level), AtCell(cell));
    LevelFoundTail(p, store, jobs, k + 1, level);
    if k == 0 {
      NothingLoads(p, store, rest, o.level, cell);
    } else {
      LastLoads(p, store, rest, o.level, cell, k - 1);
    }
  }

  /** A "sync" that meets no unreadable number, place by place. It leaves the store alone; a driver entry
      holds the level found at the last of its settings that loads, and is as before if none does. */
  lemma SyncLeaves(p: Platform, m: Memory, contexts: seq<Context>, targets: seq<Target>, level: int, cell: Cell)
    requires ReadableStore(p, Sync, m, contexts, targets)
    ensures
      var js := Jobs(contexts, targets);
      var after := OnePass(p, Sync, m, contexts, targets, level).memory;
      && after.store == m.store
      && (forall k: nat :: LastToLoad(p, m.store, js, cell, k)
            ==> cell in after.driver && after.driver[cell] == LevelFound(p, m.store, js, k + 1, level))
      && ((forall k :: 0 <= k < |js| && CellOf(js[k]) == cell ==> !Loads(p, m.store, js[k])) ==> SameAt(m.driver, after.driver, cell))
  {
    var js := Jobs(contexts, targets);
    PassIsPlan(p, Sync, m, js, level);
    var ws := Plan(p, Sync, m.store, js, level);
    SyncOnlySaves(p, m.store, js, level);
    SavesKeepStore(m, ws);
    forall k: nat | LastToLoad(p, m.store, js, cell, k)
      ensures LastAt(ws, AtCell(cell)) == Some(Save(cell, LevelFound(p, m.store, js, k + 1, level)))
    {
      LastLoads(p, m.store, js, level, cell, k);
    }
    if forall k :: 0 <= k < |js| && CellOf(js[k]) == cell ==> !Loads(p, m.store, js[k]) { NothingLoads(p, m.store, js, level, cell); }
    ContentAfter(m, ws, AtCell(cell));
    SameContent(m, ApplyAll(m, ws), AtCell(cell));
  }

  /** A pass ends early exactly when a "sync" meets a text that std::stoi rejects; what it has then done is
      what the jobs before that text do. */
  lemma {:induction false} ThrowsExactly(p: Platform, action: Action, m: Memory, jobs: seq<Job>, level: int)
    requires AllStorable(p, action, jobs, level)
    ensures Pass(p, action, m, jobs, level).thrown
            <==> action == Sync && exists k :: 0 <= k < |jobs| && p.key(jobs[k]) in m.store
                                               && p.read(jobs[k].target, m.store[p.key(jobs[k])]) == Throws
    ensures forall k :: action == Sync && 0 <= k < |jobs| && NoThrow(p, Sync, m.store, jobs[..k])
                        && p.key(jobs[k]) in m.store && p.read(jobs[k].target, m.store[p.key(jobs[k])]) == Throws
              ==> Pass(p, Sync, m, jobs, level).memory == ApplyAll(m, Plan(p, Sync, m.store, jobs[..k], level))
    decreases |jobs|
  {
    if NoThrow(p, action, m.store, jobs) {
      PassIsPlan(p, action, m, jobs, level);
    } else {
      var k := FirstThrow(p, m.store, jobs);
      StopsAt(p, m, jobs, level, k);
      forall l | 0 <= l < |jobs| && NoThrow(p, Sync, m.store, jobs[..l])
                 && p.key(jobs[l]) in m.store && p.read(jobs[l].target, m.store[p.key(jobs[l])]) == Throws
        ensures l == k
      {
        assert forall i :: 0 <= i < l ==> jobs[..l][i] == jobs[i];
        assert forall i :: 0 <= i < k ==> jobs[..k][i] == jobs[i];
      }
    }
  }

  lemma {:induction false} FirstThrow(p: Platform, store: map<string, string>, jobs: seq<Job>) returns (k: nat)
    requires !NoThrow(p, Sync, store, jobs)
    ensures k < |jobs| && NoThrow(p, Sync, store, jobs[..k])
    ensures p.key(jobs[k]) in store && p.read(jobs[k].target, store[p.key(jobs[k])]) == Throws
    decreases |jobs|
  {
    k := 0;
    while k < |jobs| && !(p.key(jobs[k]) in store && p.read(jobs[k].target, store[p.key(jobs[k])]) == Throws)
      invariant k <= |jobs| && NoThrow(p, Sync, store, jobs[..k])
    {
      assert jobs[..k + 1] == jobs[..k] + [jobs[k]];
      k := k + 1;
    }
    assert jobs[..|jobs|] == jobs;
  }

  lemma {:induction false} StopsAt(p: Platform, m: Memory, jobs: seq<Job>, level: int, k: nat)
    requires k < |jobs| && NoThrow(p, Sync, m.store, jobs[..k])
    requires p.key(jobs[k]) in m.store && p.read(jobs[k].target, m.store[p.key(jobs[k])]) == Throws
    ensures Pass(p, Sync, m, jobs, level) == Result(ApplyAll(m, Plan(p, Sync, m.store, jobs[..k], level)), true)
    decreases k
  {
    var o := Step(p, Sync, m.store, jobs[0], level);
    if k > 0 {
      var rest := jobs[1..][..k - 1];
      assert jobs[..k] == [jobs[0]] + rest && jobs[..k][1..] == rest;
      NoThrowParts(p, Sync, m.store, [jobs[0]], rest);
      assert jobs[..k][0] == jobs[0] && !o.thrown;
      SavesKeepStore(m, o.writes);
      var m' := ApplyAll(m, o.writes);
      StopsAt(p, m', jobs[1..], o.level, k - 1);
      ApplyAllSplit(m, o.writes, Plan(p, Sync, m.store, rest, o.level));
    }
  }

  // ---------------------------------------------------------------- at every moment

  /** The writes of a job are next to each other and in this order: text before level for a plain
      parameter, level before text for colour and white balance, clearing before level for a "reset". */
  predicate InOrder(p: Platform, action: Action, ws: seq<Write>, q: nat, j: Job, level: int)
    requires q < |ws|
  {
    match action
    case Set =>
      && p.text(j.target, level).Some?
      && var put, save := Put(p.key(j), p.text(j.target, level).value), Save(CellOf(j), level);
         var first, second := if j.target.Whole? then put else save, if j.target.Whole? then save else put;
         (ws[q] == first && q + 1 < |ws| && ws[q + 1] == second) || (ws[q] == second && q > 0 && ws[q - 1] == first)
    case Reset => ws[q] == Clear(p.key(j)) || (q > 0 && ws[q - 1] == Clear(p.key(j)) && ws[q] == Save(CellOf(j), p.defaults(j)))
    case Sync => ws[q].Save? && ws[q].cell == CellOf(j)
  }

  lemma {:induction false} WritesInOrder(p: Platform, action: Action, store: map<string, string>, jobs: seq<Job>, level: int, q: nat)
    returns (j: Job)
    requires AllStorable(p, action, jobs, level) && q < |Plan(p, action, store, jobs, level)|
    ensures j in jobs && InOrder(p, action, Plan(p, action, store, jobs, level), q, j, level)
    decreases |jobs|
  {
    var o := Step(p, action, store, jobs[0], level);
    var rest := Plan(p, action, store, jobs[1..], o.level);
    if q < |o.writes| {
      j := jobs[0];
      StepInOrder(p, action, store, j, level, q);
      FrontInOrder(p, action, o.writes, rest, q, j, level);
    } else {
      j := WritesInOrder(p, action, store, jobs[1..], o.level, q - |o.writes|);
      BackInOrder(p, action, o.writes, rest, q - |o.writes|, j, level, o.level);
    }
  }

  lemma StepInOrder(p: Platform, action: Action, store: map<string, string>, j: Job, level: int, q: nat)
    requires Storable(p, action, j.target, level) && q < |Step(p, action, store, j, level).writes|
    ensures InOrder(p, action, Step(p, action, store, j, level).writes, q, j, level)
  {
  }

  lemma FrontInOrder(p: Platform, action: Action, a: seq<Write>, b: seq<Write>, q: nat, j: Job, level: int)
    requires q < |a| && InOrder(p, action, a, q, j, level)
    ensures InOrder(p, action, a + b, q, j, level)
  {
    assert (a + b)[q] == a[q] && (q + 1 < |a| ==> (a + b)[q + 1] == a[q + 1]) && (q > 0 ==> (a + b)[q - 1] == a[q - 1]);
  }

  lemma BackInOrder(p: Platform, action: Action, a: seq<Write>, b: seq<Write>, q: nat, j: Job, level: int, level': int)
    requires q < |b| && InOrder(p, action, b, q, j, level') && (action == Set ==> level == level')
    ensures InOrder(p, action, a + b, |a| + q, j, level)
  {
    assert (a + b)[|a| + q] == b[q] && (q + 1 < |b| ==> (a + b)[|a| + q + 1] == b[q + 1]) && (q > 0 ==> (a + b)[|a| + q - 1] == b[q - 1]);
  }

  // ---------------------------------------------------------------- then get

  /** What getLocalparam reads for a setting when it is asked for the value in force: the stored text,
      or the HAL's default. */
  function LocalParam(p: Platform, store: map<string, string>, j: Job): Decoded {
    if p.key(j) in store then p.read(j.target, store[p.key(j)]) else Value(p.defaults(j))
  }

  /** Reading any setting after a "set" of a level whose texts read back gives that level for the
      addressed settings, white balance only if the level is in range, and for every other setting what
      it gave before. */
  lemma SetThenGet(p: Platform, m: Memory, contexts: seq<Context>, targets: seq<Target>, level: int, j: Job)
    requires Good(p) && TargetsStorable(p, Set, targets, level) && AllNamed(p, contexts) && p.named(j.context)
    requires j.target in targets && p.text(j.target, level).Some? ==> p.read(j.target, p.text(j.target, level).value) == Value(level)
    ensures
      LocalParam(p, OnePass(p, Set, m, contexts, targets, level).memory.store, j)
      == if j.context in contexts && j.target in targets && (j.target.Whole? || p.inRange(j.target, level))
         then Value(level) else LocalParam(p, m.store, j)
  {
    SetLeaves(p, m, contexts, targets, level, j);
  }

  /** On the plugin: every int of a numeric parameter, colour component or white-balance control in its
      range, and every named level of a coded parameter. */
  lemma SetThenGetOnPlugin(n: Tables, levels: Levels, ranges: Ranges, defaults: Job -> int, m: Memory, contexts: seq<Context>,
                           targets: seq<Target>, level: int, j: Job)
    requires n.Good() && levels.Valid() && IsInt32(level)
    requires forall t :: t in targets && t.Whole? && IsCoded(t.param) ==> level in levels.Of(t.param)
    requires Named(n, j.context) && forall c :: c in contexts ==> Named(n, c)
    ensures
      var p := Plugin(n, levels, ranges, defaults);
      var written := match j.target
                     case WhiteBalance(_, _, Gain) => ranges.minGain <= level <= ranges.maxGain
                     case WhiteBalance(_, _, Offset) => ranges.minOffset <= level <= ranges.maxOffset
                     case _ => true;
      && TargetsStorable(p, Set, targets, level)
      && LocalParam(p, OnePass(p, Set, m, contexts, targets, level).memory.store, j)
         == if j.context in contexts && j.target in targets && written then Value(level) else LocalParam(p, m.store, j)
  {
    var p := Plugin(n, levels, ranges, defaults);
    PluginIsGood(n, levels, ranges, defaults);
    forall i | 0 <= i < |targets| ensures Storable(p, Set, targets[i], level) {
      EncoderTextsAreRecognised(n, levels, ranges, defaults, targets[i], level);
    }
    if j.target in targets { EncoderTextsAreRecognised(n, levels, ranges, defaults, j.target, level); }
    SetThenGet(p, m, contexts, targets, level, j);
  }

  /** Reading any setting after a "reset" gives the HAL's default for the addressed settings, and for
      every other setting what it gave before. */
  lemma ResetThenGet(p: Platform, m: Memory, contexts: seq<Context>, targets: seq<Target>, level: int, j: Job)
    requires Good(p) && AllNamed(p, contexts) && p.named(j.context)
    ensures
      LocalParam(p, OnePass(p, Reset, m, contexts, targets, level).memory.store, j)
      == if j.context in contexts && j.target in targets then Value(p.defaults(j)) else LocalParam(p, m.store, j)
  {
    ResetClears(p, m, contexts, targets, level, j);
  }
}
