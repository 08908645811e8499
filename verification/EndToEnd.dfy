/** The executor together with everything that completes once and that one task waits
    for: oneshot channels, notifications, sleeps, joins, and file operations with the
    pool that carries them out; any number of each, and of pool workers, with all their steps
    interleaved.

    A task may poll any of its sources, in any order and several times, each time
    it is polled itself. It is blocked on those that, at the last load its latest
    poll made of them, were not complete. */
module EndToEnd {
  import opened Runs
  import opened Tokens
  import opened Queues
  import opened Waits
  import opened Collections
  import opened Sources
  import Executor
  import Oneshot
  import FileOp
  import Join
  import Notification
  import Sleep
  import WorkerPool

  // ----- The system -----

  type Id = nat

  /** `pool`: the queue of file operations, named by their futures, and the threads
      that serve it; `active`: the source in the middle of being polled; `current`:
      the sources that the running poll of a task found incomplete; `blocked`: those
      that the latest poll of each other live task found so. */
  datatype State = State(
    exec: Executor.State,
    sources: map<Id, Source>,
    pool: WorkerPool.State,
    active: Option<Id>,
    current: set<Id>,
    blocked: map<Token, set<Id>>)

  datatype Action =
    | Create(id: Id, src: Source)
    | Complete(id: Id, c: Completion)
    | PollSource(id: Id)
    | PoolWait(w: WorkerPool.WorkerId)
    | PoolTake(w: WorkerPool.WorkerId, outcome: FileOp.Outcome)
    | PoolFinish(w: WorkerPool.WorkerId)
    | Exec(a: Executor.Action)

  ghost predicate Init(s: State)
  {
    && Executor.Init(s.exec) && WorkerPool.Init(s.pool)
    && s.sources == map[] && s.active == None && s.current == {} && s.blocked == map[]
  }

  ghost predicate Enabled(s: State, a: Action)
  {
    match a
    case Create(id, src) => id !in s.sources && Fresh(src)
    case Complete(id, c) => id in s.sources && CanComplete(s.sources[id], c)
    case PollSource(id) =>
      && s.exec.pc.Polling? && id in s.sources
      && Owner(s.sources[id]) == s.exec.pc.task && CanPoll(s.sources[id])
      && (s.active.Some? ==> s.active.value == id)
    case PoolWait(w) => WorkerPool.Enabled(s.pool, WorkerPool.Wait(w))
    case PoolTake(w, o) =>
      && WorkerPool.Enabled(s.pool, WorkerPool.Remove(w))
      && (s.pool.queue.vals != [] && IsFile(s, Newest(s.pool.queue)) ==>
            FileOp.Possible(s.sources[Newest(s.pool.queue)].file.kind, o))
    case PoolFinish(w) =>
      && WorkerPool.Enabled(s.pool, WorkerPool.Finish(w))
      && (IsFile(s, s.pool.busy[w]) ==> s.sources[s.pool.busy[w]].file.worker.Finished?)
    case Exec(x) => Executor.Enabled(s.exec, x) && (x.EndPoll? ==> s.active == None)
  }

  ghost predicate IsFile(s: State, id: Id)
  {
    id in s.sources && s.sources[id].File?
  }

  /** A poll of a file future adds its operation to the pool, in the two steps of
      every addition. */
  ghost function PoolAfterPoll(pool: WorkerPool.State, id: Id, src: Source): WorkerPool.State
  {
    if src.File? && src.file.poller == FileOp.Enqueue then WorkerPool.Step(pool, WorkerPool.AddPush(id))
    else if src.File? && src.file.poller == FileOp.Register && pool.adding > 0 then
      WorkerPool.Step(pool, WorkerPool.AddRelease)
    else pool
  }

  /** A worker removes the newest operation and carries it out, with this outcome. */
  ghost function StepTake(s: State, w: WorkerPool.WorkerId, o: FileOp.Outcome): State
    requires Enabled(s, PoolTake(w, o))
  {
    var pool := WorkerPool.Step(s.pool, WorkerPool.Remove(w));
    if s.pool.queue.vals != [] && IsFile(s, Newest(s.pool.queue)) then
      var id := Newest(s.pool.queue);
      s.(pool := pool, sources := s.sources[id := File(FileOp.Step(s.sources[id].file, FileOp.TakeUp(o)))])
    else s.(pool := pool)
  }

  ghost function StepComplete(s: State, id: Id, c: Completion): State
    requires Enabled(s, Complete(id, c))
  {
    var wake := Pushes(s.sources[id], c);
    s.(sources := s.sources[id := Completed(s.sources[id], c)],
       exec := if wake.Some? then Executor.Step(s.exec, Executor.PushWake(wake.value)) else s.exec)
  }

  ghost function StepPoll(s: State, id: Id): State
    requires Enabled(s, PollSource(id))
  {
    var src := s.sources[id];
    var src' := Polled(src);
    s.(sources := s.sources[id := src'],
       pool := PoolAfterPoll(s.pool, id, src),
       active := if MidPoll(src') then Some(id) else None,
       current := if !AtLoad(src) then s.current else if Done(src) then s.current - {id} else s.current + {id})
  }

  ghost function StepExec(s: State, a: Executor.Action): State
    requires Enabled(s, Exec(a))
  {
    s.(exec := Executor.Step(s.exec, a), current := CurrentAfter(a, s.current),
       blocked := BlockedAfter(s.exec, a, s.current, s.blocked))
  }

  ghost function Step(s: State, a: Action): State
    requires Enabled(s, a)
  {
    match a
    case Create(id, src) => s.(sources := s.sources[id := src])
    case Complete(id, c) => StepComplete(s, id, c)
    case PollSource(id) => StepPoll(s, id)
    case PoolWait(w) => s.(pool := WorkerPool.Step(s.pool, WorkerPool.Wait(w)))
    case PoolTake(w, o) => StepTake(s, w, o)
    case PoolFinish(w) => s.(pool := WorkerPool.Step(s.pool, WorkerPool.Finish(w)))
    case Exec(x) => StepExec(s, x)
  }

  ghost predicate Next(s: State, a: Action, s': State)
  {
    Enabled(s, a) && s' == Step(s, a)
  }

  // ----- No wakeup is lost -----

  /** If the source is complete and announces it, or has rung early, its owner t is or
      will be in the wake queue. */
  ghost predicate Covered(s: State, id: Id, t: Token)
  {
    && id in s.sources
    && Owner(s.sources[id]) == t && Armed(s.sources[id])
    && (Announces(s.sources[id]) && Done(s.sources[id]) ==> Owes(s.sources[id]) || t in s.exec.wakes.vals)
    && (Rung(s.sources[id]) ==> t in s.exec.wakes.vals)
  }

  ghost predicate Inv(s: State)
  {
    && Executor.Awake(s.exec)
    && (s.exec.pc.Polling? && !s.exec.pc.first ==> s.exec.pc.task in s.exec.tasks)
    && (!s.exec.pc.Polling? ==> s.current == {})
    && (s.exec.pc.Polling? ==> s.exec.pc.task !in s.blocked)
    && s.blocked.Keys <= s.exec.tasks.Keys
    && (forall id :: id in s.sources ==> Sound(s.sources[id]))
    && (forall id :: id in s.current ==> Covered(s, id, s.exec.pc.task))
    && (forall t, id :: t in s.blocked && id in s.blocked[t] ==> Covered(s, id, t))
  }

  lemma CreateKeepsInv(s: State, id: Id, src: Source)
    requires Inv(s) && Enabled(s, Create(id, src))
    ensures Inv(Step(s, Create(id, src)))
  {
  }

  lemma CompleteKeepsInv(s: State, id: Id, c: Completion)
    requires Inv(s) && Enabled(s, Complete(id, c))
    ensures Inv(StepComplete(s, id, c))
  {
    CompletionIsAnnounced(s.sources[id], c);
  }

  lemma PollKeepsInv(s: State, id: Id)
    requires Inv(s) && Enabled(s, PollSource(id))
    ensures Inv(StepPoll(s, id))
  {
    PollIsQuiet(s.sources[id]);
  }

  lemma EndKeepsInv(s: State, ready: bool)
    requires Inv(s) && Enabled(s, Exec(Executor.EndPoll(ready)))
    ensures Inv(StepExec(s, Executor.EndPoll(ready)))
  {
    Executor.AwakeKept(s.exec, Executor.EndPoll(ready), Executor.StepEnd(s.exec, ready));
  }

  lemma NextKeepsInv(s: State, a: Executor.Action)
    requires Inv(s) && Enabled(s, Exec(a)) && (a.NextWake? || a.NextSpawn?)
    ensures Inv(StepExec(s, a))
  {
    Executor.AwakeKept(s.exec, a, Executor.Step(s.exec, a));
  }

  lemma ExecKeepsInv(s: State, a: Executor.Action)
    requires Inv(s) && Enabled(s, Exec(a))
    ensures Inv(StepExec(s, a))
  {
    if a.EndPoll? {
      EndKeepsInv(s, a.ready);
    } else if a.NextWake? || a.NextSpawn? {
      NextKeepsInv(s, a);
    } else {
      Executor.AwakeKept(s.exec, a, Executor.Step(s.exec, a));
    }
  }

  lemma TakeUpIsQuiet(f: FileOp.State, o: FileOp.Outcome)
    requires FileOp.Inv(f) && FileOp.Enabled(f, FileOp.TakeUp(o))
    ensures var src, src' := File(f), File(FileOp.Step(f, FileOp.TakeUp(o)));
            && Sound(src') && Owner(src') == Owner(src) && Armed(src') == Armed(src)
            && !Done(src') && !Rung(src')
  {
    FileOp.InvKept(f, FileOp.TakeUp(o), FileOp.Step(f, FileOp.TakeUp(o)));
  }

  lemma TakeKeepsInv(s: State, w: WorkerPool.WorkerId, o: FileOp.Outcome)
    requires Inv(s) && Stocked(s) && Enabled(s, PoolTake(w, o))
    ensures Inv(StepTake(s, w, o))
  {
    if s.pool.queue.vals != [] {
      var id := Newest(s.pool.queue);
      assert id in s.pool.queue.vals;
      TakeUpIsQuiet(s.sources[id].file, o);
    }
  }

  // ----- The pool's queue and the file futures agree -----

  /** The queued operations are those of the files that wait to be taken up, each
      once. */
  ghost predicate Listed(s: State)
  {
    && (forall id :: id in s.pool.queue.vals <==> IsFile(s, id) && s.sources[id].file.worker == FileOp.Queued)
    && Distinct(s.pool.queue.vals)
  }

  ghost predicate InAddition(src: Source)
  {
    src.File? && src.file.poller == FileOp.Register
  }

  /** Only the active source is in the middle of a poll, and only it can be in the
      middle of adding to the pool. */
  ghost predicate OnePoll(s: State)
  {
    && (forall id :: id in s.sources && MidPoll(s.sources[id]) ==> s.active == Some(id))
    && (s.active.Some? ==> s.active.value in s.sources)
    && s.pool.adding == (if s.active.Some? && InAddition(s.sources[s.active.value]) then 1 else 0)
  }

  ghost predicate Stocked(s: State)
  {
    && WorkerPool.Conserved(s.pool)
    && Listed(s)
    && OnePoll(s)
    && Registered(s)
  }

  /** Whoever is blocked on a file has it registered. */
  ghost predicate Registered(s: State)
  {
    forall t, id :: t in s.blocked && id in s.blocked[t] && IsFile(s, id) ==> s.sources[id].file.registered
  }

  lemma CompleteKeepsListed(s: State, id: Id, c: Completion)
    requires Listed(s) && Enabled(s, Complete(id, c))
    ensures Listed(StepComplete(s, id, c))
  {
  }

  lemma CompleteKeepsOnePoll(s: State, id: Id, c: Completion)
    requires OnePoll(s) && Enabled(s, Complete(id, c))
    ensures OnePoll(StepComplete(s, id, c))
  {
  }

  lemma CompleteKeepsStocked(s: State, id: Id, c: Completion)
    requires Stocked(s) && Enabled(s, Complete(id, c))
    ensures Stocked(StepComplete(s, id, c))
  {
    CompleteKeepsListed(s, id, c);
    CompleteKeepsOnePoll(s, id, c);
  }

  lemma PollKeepsListed(s: State, id: Id)
    requires Listed(s) && Enabled(s, PollSource(id)) && Sound(s.sources[id])
    ensures Listed(StepPoll(s, id))
  {
    var src, vals, vals' := s.sources[id], s.pool.queue.vals, StepPoll(s, id).pool.queue.vals;
    if src.File? && src.file.poller == FileOp.Enqueue {
      assert id !in vals && vals' == vals + [id];
    } else {
      assert vals' == vals;
    }
  }

  lemma PollKeepsOnePoll(s: State, id: Id)
    requires OnePoll(s) && Enabled(s, PollSource(id))
    ensures OnePoll(StepPoll(s, id))
  {
  }

  lemma PollKeepsStocked(s: State, id: Id)
    requires Inv(s) && Stocked(s) && Enabled(s, PollSource(id))
    ensures Stocked(StepPoll(s, id))
  {
    PollKeepsListed(s, id);
    PollKeepsOnePoll(s, id);
    var s' := StepPoll(s, id);
    if s'.pool != s.pool {
      var a := if InAddition(s.sources[id]) then WorkerPool.AddRelease else WorkerPool.AddPush(id);
      WorkerPool.ConservedKept(s.pool, a, s'.pool);
    }
  }

  lemma TakeKeepsListed(s: State, w: WorkerPool.WorkerId, o: FileOp.Outcome)
    requires Listed(s) && Enabled(s, PoolTake(w, o)) && s.pool.queue.vals != []
    ensures Listed(StepTake(s, w, o))
  {
    var vals, id := s.pool.queue.vals, Newest(s.pool.queue);
    var rest := vals[..|vals| - 1];
    LastOfDistinct(vals);
    assert StepTake(s, w, o).pool.queue.vals == rest;
  }

  lemma TakeKeepsOnePoll(s: State, w: WorkerPool.WorkerId, o: FileOp.Outcome)
    requires OnePoll(s) && Enabled(s, PoolTake(w, o))
    ensures OnePoll(StepTake(s, w, o))
  {
  }

  lemma TakeFindsWork(pool: WorkerPool.State, w: WorkerPool.WorkerId)
    requires WorkerPool.Conserved(pool) && WorkerPool.Enabled(pool, WorkerPool.Remove(w))
    ensures pool.queue.vals != []
  {
    assert |pool.holding| > 0;
  }

  lemma TakeKeepsRegistered(s: State, w: WorkerPool.WorkerId, o: FileOp.Outcome)
    requires Registered(s) && Enabled(s, PoolTake(w, o))
    ensures Registered(StepTake(s, w, o))
  {
  }

  lemma TakeKeepsStocked(s: State, w: WorkerPool.WorkerId, o: FileOp.Outcome)
    requires Stocked(s) && Enabled(s, PoolTake(w, o))
    ensures Stocked(StepTake(s, w, o))
  {
    TakeFindsWork(s.pool, w);
    TakeKeepsRegistered(s, w, o);
    TakeKeepsListed(s, w, o);
    TakeKeepsOnePoll(s, w, o);
    WorkerPool.ConservedKept(s.pool, WorkerPool.Remove(w), WorkerPool.Step(s.pool, WorkerPool.Remove(w)));
  }

  lemma ExecKeepsStocked(s: State, a: Executor.Action)
    requires Inv(s) && Stocked(s) && Enabled(s, Exec(a))
    ensures Stocked(StepExec(s, a))
  {
    if a.EndPoll? {
      forall id | id in s.current ensures IsFile(s, id) ==> s.sources[id].file.registered {
        assert Covered(s, id, s.exec.pc.task);
      }
    }
  }

  ghost predicate Whole(s: State)
  {
    Inv(s) && Stocked(s)
  }

  lemma InvKept(s: State, a: Action, s': State)
    requires Whole(s) && Next(s, a, s')
    ensures Inv(s')
  {
    match a
    case Create(id, src) => CreateKeepsInv(s, id, src);
    case Complete(id, c) => CompleteKeepsInv(s, id, c);
    case PollSource(id) => PollKeepsInv(s, id);
    case PoolTake(w, o) => TakeKeepsInv(s, w, o);
    case Exec(x) => ExecKeepsInv(s, x);
    case _ =>
  }

  lemma StockedKept(s: State, a: Action, s': State)
    requires Whole(s) && Next(s, a, s')
    ensures Stocked(s')
  {
    match a
    case Create(_, _) =>
    case Complete(id, c) => CompleteKeepsStocked(s, id, c);
    case PollSource(id) => PollKeepsStocked(s, id);
    case PoolWait(w) => WorkerPool.ConservedKept(s.pool, WorkerPool.Wait(w), s'.pool);
    case PoolTake(w, o) => TakeKeepsStocked(s, w, o);
    case PoolFinish(w) => WorkerPool.ConservedKept(s.pool, WorkerPool.Finish(w), s'.pool);
    case Exec(x) => ExecKeepsStocked(s, x);
  }

  lemma WholeAlways(r: Run<State, Action>, i: nat)
    requires IsRun(Init, Next, r) && i < |r.states|
    ensures Whole(r.states[i])
  {
    forall s, a, s' | Whole(s) && Next(s, a, s') ensures Whole(s') {
      InvKept(s, a, s');
      StockedKept(s, a, s');
    }
    InvariantHolds(Init, Next, Whole, r, i);
  }

  // ----- Every live task is accounted for -----

  ghost predicate AllTracked(s: State)
  {
    Tracked(s.exec, s.blocked)
  }

  lemma AllTrackedKept(s: State, a: Action, s': State)
    requires AllTracked(s) && Next(s, a, s')
    ensures AllTracked(s')
  {
    match a
    case Exec(x) => TrackedKept(s.exec, x, s.current, s.blocked);
    case Complete(id, c) =>
      if Pushes(s.sources[id], c).Some? {
        TrackedKept(s.exec, Executor.PushWake(Pushes(s.sources[id], c).value), s.current, s.blocked);
      }
    case _ =>
  }

  lemma TrackedAlways(r: Run<State, Action>, i: nat)
    requires IsRun(Init, Next, r) && i < |r.states|
    ensures AllTracked(r.states[i])
  {
    forall s, a, s' | AllTracked(s) && Next(s, a, s') ensures AllTracked(s') {
      AllTrackedKept(s, a, s');
    }
    InvariantHolds(Init, Next, AllTracked, r, i);
  }

  // ----- The executor within the whole -----

  ghost function ExecOf(s: State): Executor.State
  {
    s.exec
  }

  /** The step of the executor's system that an action is, if it is one. */
  ghost function ExecAct(s: State, a: Action): Option<Executor.Action>
  {
    match a
    case Exec(x) => Some(x)
    case Complete(id, c) =>
      if Enabled(s, a) && Pushes(s.sources[id], c).Some? then
        Some(Executor.PushWake(Pushes(s.sources[id], c).value))
      else None
    case _ => None
  }

  // ----- What it means to be blocked -----

  /** The action is the load on which a poll of the source decides. */
  ghost predicate Loads(s: State, a: Action, id: Id)
  {
    a == PollSource(id) && id in s.sources && AtLoad(s.sources[id])
  }

  ghost predicate EndsPoll(a: Action)
  {
    a.Exec? && a.a.EndPoll?
  }

  /** Action k loads the source and finds it incomplete, and up to state i, in the
      same poll of the task, it is not loaded again. */
  ghost predicate FoundIncomplete(r: Run<State, Action>, id: Id, k: nat, i: nat)
    requires |r.states| == |r.acts| + 1 && i < |r.states|
  {
    && k < i && Loads(r.states[k], r.acts[k], id) && !Done(r.states[k].sources[id])
    && forall j :: k < j < i ==> !Loads(r.states[j], r.acts[j], id) && !EndsPoll(r.acts[j])
  }

  lemma CurrentStep(r: Run<State, Action>, id: Id, i: nat)
    requires IsRun(Init, Next, r) && i < |r.acts|
    ensures var s, a, s' := r.states[i], r.acts[i], r.states[i + 1];
            && (Loads(s, a, id) ==> (id in s'.current <==> !Done(s.sources[id])))
            && (EndsPoll(a) ==> id !in s'.current)
            && (!Loads(s, a, id) && !EndsPoll(a) ==> (id in s'.current <==> id in s.current))
  {
    assert Next(r.states[i], r.acts[i], r.states[i + 1]);
  }

  ghost predicate Found(r: Run<State, Action>, id: Id, i: nat)
    requires |r.states| == |r.acts| + 1 && i < |r.states|
  {
    exists k: nat :: FoundIncomplete(r, id, k, i)
  }

  lemma FoundStep(r: Run<State, Action>, id: Id, i: nat, i': nat)
    requires |r.states| == |r.acts| + 1 && i < |r.acts| && i' == i + 1
    ensures var s, a := r.states[i], r.acts[i];
            Found(r, id, i') <==>
              if Loads(s, a, id) then !Done(s.sources[id]) else !EndsPoll(a) && Found(r, id, i)
  {
    var s, a := r.states[i], r.acts[i];
    if Loads(s, a, id) || EndsPoll(a) {
      assert forall k: nat :: FoundIncomplete(r, id, k, i') ==> k == i;
      assert Loads(s, a, id) && !Done(s.sources[id]) ==> FoundIncomplete(r, id, i, i');
    } else {
      if Found(r, id, i) {
        var k: nat :| FoundIncomplete(r, id, k, i);
        assert FoundIncomplete(r, id, k, i');
      }
      if Found(r, id, i') {
        var k: nat :| FoundIncomplete(r, id, k, i');
        assert FoundIncomplete(r, id, k, i);
      }
    }
  }

  lemma {:induction false} CurrentIsHistory(r: Run<State, Action>, id: Id, i: nat)
    requires IsRun(Init, Next, r) && i < |r.states|
    ensures id in r.states[i].current <==> Found(r, id, i)
  {
    if i == 0 {
    } else {
      CurrentIsHistory(r, id, i - 1);
      CurrentStep(r, id, i - 1);
      FoundStep(r, id, i - 1, i);
    }
  }

  ghost function CurrentOf(s: State): set<Id>
  {
    s.current
  }

  ghost function BlockedOf(s: State): map<Token, set<Id>>
  {
    s.blocked
  }

  /** A task is blocked on a source, in the sense of the theorems below, if and only if
      its latest poll has ended Pending and the last load that this poll made of the
      source found it incomplete. */
  lemma BlockedExactly(r: Run<State, Action>, i: nat, t: Token, id: Id)
    requires IsRun(Init, Next, r) && i < |r.states|
    ensures t in r.states[i].blocked && id in r.states[i].blocked[t] <==>
              exists m: nat :: LatestPoll(r, ExecOf, ExecAct, t, m, i) && Found(r, id, m)
  {
    forall j | 0 <= j < |r.acts|
      ensures Records(r.states[j], r.acts[j], r.states[j + 1], ExecOf, ExecAct, CurrentOf, BlockedOf)
    {
      assert Next(r.states[j], r.acts[j], r.states[j + 1]);
    }
    BlockedIsHistory(r, ExecOf, ExecAct, CurrentOf, BlockedOf, t, i);
    forall m: nat | LatestPoll(r, ExecOf, ExecAct, t, m, i)
      ensures id in r.states[i].blocked[t] <==> Found(r, id, m)
    {
      CurrentIsHistory(r, id, m);
    }
  }

  // ----- The theorems -----

  /** The latest poll of the live task t found the source incomplete, and there is
      nothing left to tell the task that it no longer is. */
  ghost predicate Lost(s: State, t: Token, id: Id)
  {
    t in s.blocked && id in s.blocked[t] && id in s.sources && Done(s.sources[id]) && !Busy(s.sources[id])
  }

  ghost predicate AwaitsJoin(s: State, t: Token, id: Id)
  {
    t in s.blocked && id in s.blocked[t] && id in s.sources && s.sources[id].Joined?
  }

  /** In every interleaving of the atomic steps of senders, workers, notifiers,
      timers, wrappers, polls and executor: while the executor sleeps, with no addition
      to its queues half done, no live task waits for a source that is complete and
      whose completing side is idle, if it is a source that announces that; for a join
      it is exactly the forgotten that wait so. Both queues are then empty; and the tasks spoken of
      are all the live ones, up to 2^32 - 2 spawns. */
  lemma NoLostWakeup(r: Run<State, Action>, i: nat)
    requires IsRun(Init, Next, r) && i < |r.states| && Executor.Asleep(r.states[i].exec)
    ensures forall t, id :: Lost(r.states[i], t, id) ==> !Announces(r.states[i].sources[id])
    ensures forall t, id :: AwaitsJoin(r.states[i], t, id) ==>
              (Lost(r.states[i], t, id) <==> Join.Forgotten(r.states[i].sources[id].join))
    ensures r.states[i].blocked.Keys <= r.states[i].exec.tasks.Keys
    ensures r.states[i].exec.spawned <= Executor.MAX_TASKS ==> r.states[i].blocked.Keys == r.states[i].exec.tasks.Keys
    ensures r.states[i].exec.wakes.vals == [] && r.states[i].exec.spawns.vals == []
  {
    WholeAlways(r, i);
    TrackedAlways(r, i);
    var s := r.states[i];
    forall t, id | t in s.blocked && id in s.blocked[t] ensures Covered(s, id, t) && Sound(s.sources[id]) {
    }
  }

  /** So a sleeping runtime has no task waiting for a channel whose sender is gone,
      whether it sent or not, for a notification that was given after it first asked
      for it (unless its token is a sentinel), for a timer that went off (unless it was
      cut short, of a sleep of 2^63 ns or more), or for a file operation that was
      carried out (except one that moved exactly u32::MAX bytes). */
  lemma NobodyWaitsForTheGone(r: Run<State, Action>, i: nat, t: Token, id: Id)
    requires IsRun(Init, Next, r) && i < |r.states| && Executor.Asleep(r.states[i].exec)
    requires t in r.states[i].blocked && id in r.states[i].blocked[t]
    ensures var s := r.states[i];
            && id in s.sources
            && (s.sources[id].Channel? ==> s.sources[id].channel.tx != Oneshot.Gone)
            && (s.sources[id].Notice? ==> s.sources[id].given != GivenInTime || !Announces(s.sources[id]))
            && (s.sources[id].Timer? && s.sources[id].sleep.fired ==> Sleep.Forsaken(s.sources[id].sleep))
            && (s.sources[id].File? && s.sources[id].file.worker.Finished? ==>
                  s.sources[id].file.kind == FileOp.Io && s.sources[id].file.worker.outcome == FileOp.Ok(U32_MAX))
  {
    WholeAlways(r, i);
    NoLostWakeup(r, i);
    assert Covered(r.states[i], id, t);
    assert Lost(r.states[i], t, id) ==> !Announces(r.states[i].sources[id]);
  }

  /** Everything has come to rest: the executor sleeps, no pool worker has anything
      to do or is about to, no completing side is in the middle of something. */
  ghost predicate AtRest(s: State)
  {
    && Executor.Asleep(s.exec)
    && WorkerPool.Quiet(s.pool)
    && forall id :: id in s.sources ==> !Busy(s.sources[id])
  }

  /** What the source can still be, when a task waits for it and all is at rest. */
  ghost predicate WorthWaiting(s: State, id: Id)
  {
    id in s.sources &&
    match s.sources[id]
    case Channel(c) => c.tx == Oneshot.Unused
    case Notice(_, t, _, given) => given == NotGiven || given == GivenEarly || !Notification.IsToken(t)
    case Timer(z, _) => z.now < z.deadline || (Sleep.Forsaken(z) && z.deadline >= Sleep.I64_LIMIT)
    case Joined(j, _) => j.wrapper == Join.Running || Join.Forgotten(j)
    case File(f) =>
      || (f.worker == FileOp.Queued && s.pool.refused > 0)
      || (f.kind == FileOp.Io && f.worker == FileOp.Finished(FileOp.Ok(U32_MAX)))
  }

  /** What a live task can still be waiting for once the runtime is at rest: a
      channel whose sender was not used; a notification not given, or given before
      the task first asked for it, or awaited under a sentinel; a sleep whose time is
      not up, or of 2^63 ns or more and forsaken; a task that has not finished, or whose
      wrapper forgot the awaiter. Nobody waits for a file, unless the pool's semaphore
      refused a release and the operation is still queued, or exactly u32::MAX bytes
      moved. */
  lemma WaitsAtRest(r: Run<State, Action>, i: nat)
    requires IsRun(Init, Next, r) && i < |r.states| && AtRest(r.states[i])
    ensures var s := r.states[i];
            && (forall t, id :: t in s.blocked && id in s.blocked[t] ==> t in s.exec.tasks && WorthWaiting(s, id))
            && (s.exec.spawned <= Executor.MAX_TASKS ==> s.blocked.Keys == s.exec.tasks.Keys)
  {
    WholeAlways(r, i);
    NoLostWakeup(r, i);
    var s := r.states[i];
    forall t, id | t in s.blocked && id in s.blocked[t] ensures t in s.exec.tasks && WorthWaiting(s, id) {
      assert Covered(s, id, t) && Sound(s.sources[id]);
      assert Lost(s, t, id) ==> !Announces(s.sources[id]);
      if IsFile(s, id) && s.sources[id].file.worker == FileOp.Queued {
        assert id in s.pool.queue.vals;
      }
    }
  }

  // ----- The parts -----

  ghost function PoolOf(s: State): WorkerPool.State
  {
    s.pool
  }

  ghost function PoolAct(s: State, a: Action): Option<WorkerPool.Action>
  {
    match a
    case PollSource(id) =>
      if IsFile(s, id) && s.sources[id].file.poller == FileOp.Enqueue then Some(WorkerPool.AddPush(id))
      else if IsFile(s, id) && s.sources[id].file.poller == FileOp.Register && s.pool.adding > 0 then
        Some(WorkerPool.AddRelease)
      else None
    case PoolWait(w) => Some(WorkerPool.Wait(w))
    case PoolTake(w, _) => Some(WorkerPool.Remove(w))
    case PoolFinish(w) => Some(WorkerPool.Finish(w))
    case _ => None
  }

  /** Within every run of the whole there is the executor's own run, action for
      action, so what was proved of its runs can be read off. */
  lemma ExecutorRun(r: Run<State, Action>, i: nat) returns (q: Run<Executor.State, Executor.Action>, at: seq<nat>)
    requires IsRun(Init, Next, r) && i < |r.states|
    ensures IsRun(Executor.Init, Executor.Next, q) && IsPart(ExecOf, ExecAct, r, i, q, at)
  {
    forall j | 0 <= j < |r.acts|
      ensures match ExecAct(r.states[j], r.acts[j])
              case None => ExecOf(r.states[j + 1]) == ExecOf(r.states[j])
              case Some(b) => Executor.Next(ExecOf(r.states[j]), b, ExecOf(r.states[j + 1]))
    {
      assert Next(r.states[j], r.acts[j], r.states[j + 1]);
    }
    q, at := Project(Executor.Init, Executor.Next, ExecOf, ExecAct, r, i);
  }

  /** And the pool's. */
  lemma PoolRun(r: Run<State, Action>, i: nat) returns (q: Run<WorkerPool.State, WorkerPool.Action>, at: seq<nat>)
    requires IsRun(Init, Next, r) && i < |r.states|
    ensures IsRun(WorkerPool.Init, WorkerPool.Next, q) && IsPart(PoolOf, PoolAct, r, i, q, at)
  {
    forall j | 0 <= j < |r.acts|
      ensures match PoolAct(r.states[j], r.acts[j])
              case None => PoolOf(r.states[j + 1]) == PoolOf(r.states[j])
              case Some(b) => WorkerPool.Next(PoolOf(r.states[j]), b, PoolOf(r.states[j + 1]))
    {
      assert Next(r.states[j], r.acts[j], r.states[j + 1]);
    }
    q, at := Project(WorkerPool.Init, WorkerPool.Next, PoolOf, PoolAct, r, i);
  }

  /** The action starts a poll of the task t. */
  ghost predicate StartsPoll(s: State, a: Action, t: Token)
  {
    ExecAct(s, a).Some? && Executor.StartsPoll(s.exec, ExecAct(s, a).value, t)
  }

  /** In the whole system too, every wake pushed for an unfinished task, by whichever
      sender, worker, notifier, timer or other thread, is answered by a later poll
      before the executor waits with no wakes queued. */
  lemma NoWakeDropped(r: Run<State, Action>, i: nat, j: nat, t: Token)
    requires IsRun(Init, Next, r) && i < j < |r.states|
    requires ExecAct(r.states[i], r.acts[i]) == Some(Executor.PushWake(t)) && Executor.Unfinished(r.states[i].exec, t)
    requires r.states[j].exec.spawned <= Executor.MAX_TASKS
    requires r.states[j].exec.pc == Executor.Waiting && r.states[j].exec.wakes.vals == []
    ensures t in r.states[j].exec.finished || exists k :: i < k < j && StartsPoll(r.states[k], r.acts[k], t)
  {
    var q, at := ExecutorRun(r, j);
    assert at[i + 1] == at[i] + 1;
    PartAdvances(ExecOf, ExecAct, r, j, q, at, i + 1, j);
    Executor.NoWakeDropped(q, at[i], at[j], t);
    if t !in r.states[j].exec.finished {
      var m :| at[i] < m < at[j] && Executor.StartsPoll(q.states[m], q.acts[m], t);
      var k := Origin(ExecOf, ExecAct, r, j, q, at, i + 1, m);
      assert StartsPoll(r.states[k], r.acts[k], t);
    }
  }

  /** What a task gets from a source is what the completing side put in. */
  lemma DeliveredIntact(r: Run<State, Action>, i: nat, id: Id, t: Token)
    requires IsRun(Init, Next, r) && i < |r.states| && id in r.states[i].sources
    ensures match r.states[i].sources[id]
            case Channel(c) => c.rx.Ready? ==> c.rx.result == c.sent
            case File(f) =>
              f.poller.Ready? ==> FileOp.BothStored(f) &&
                                  (f.poller.result == f.worker.outcome <==> FileOp.Faithful(f.kind, f.worker.outcome))
            case Notice(n, w, asked, given) =>
              Notification.ReturnsReady(n, Notification.Poll(t)) <==>
                if Notification.IsToken(w) then given == GivenInTime else asked && w == NOTIFICATION_READY
            case Timer(z, _) => z.ready ==> z.now >= z.deadline
            case Joined(j, _) => j.delivered != [] ==> j.output.Some? && j.delivered == [j.output.value]
  {
    WholeAlways(r, i);
    var src := r.states[i].sources[id];
    if src.File? && FileOp.BothStored(src.file) {
      FileOp.RoundTrip(src.file.kind, src.file.worker.outcome);
    }
  }
}
