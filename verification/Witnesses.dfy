/** Runs of the whole system that end asleep with a task waiting: what `EndToEnd`
    leaves a task to wait for does happen. */
module Witnesses {
  import opened Runs
  import opened Tokens
  import opened Queues
  import opened Sources
  import opened EndToEnd
  import Executor
  import FileOp
  import Join
  import Notification
  import Oneshot
  import Sleep
  import WorkerPool

  /** The executor polling the first task ever, and nothing else going on. */
  ghost function FirstPoll(): Executor.State
  {
    var empty := Queue([], 0);
    Executor.State(Executor.Polling(0, 0, true), empty, 0, empty, 0, 1, map[], 1, {}, multiset{0}, multiset{0})
  }

  /** The executor asleep, with that task waiting. */
  ghost function Idle(): Executor.State
  {
    FirstPoll().(pc := Executor.Waiting, tasks := map[0 := 0])
  }

  ghost function NoPool(): WorkerPool.State
  {
    WorkerPool.State(Queue([], 0), 0, {}, map[], multiset{}, multiset{}, 0, 0)
  }

  /** A step of the executor while there are no sources. */
  lemma ExecAlone(x: Executor.State, a: Executor.Action, x': Executor.State)
    requires Reachable(Init, Next, State(x, map[], NoPool(), None, {}, map[])) && Executor.Next(x, a, x') && !a.EndPoll?
    ensures Reachable(Init, Next, State(x', map[], NoPool(), None, {}, map[]))
  {
    var s, s' := State(x, map[], NoPool(), None, {}, map[]), State(x', map[], NoPool(), None, {}, map[]);
    assert s' == StepExec(s, a);
    Extend(Init, Next, s, Exec(a), s');
  }

  lemma SomebodySubmits(x: Executor.State)
    requires x.pc == Executor.Waiting && x.wakes == Queue([], 0) && x.spawns == Queue([0], 1)
    requires x.waking == x.spawning == x.counter == x.spawned == 0 && x.tasks == map[] && x.finished == {}
    requires x.submitted == multiset{0} && x.started == multiset{}
    ensures Reachable(Init, Next, State(x, map[], NoPool(), None, {}, map[]))
  {
    var x0 := x.(spawns := Queue([], 0), submitted := multiset{});
    Start<State, Action>(Init, Next, State(x0, map[], NoPool(), None, {}, map[]));
    var x1 := x.(spawns := Queue([0], 0), spawning := 1);
    ExecAlone(x0, Executor.PushSpawn(0), x1);
    ExecAlone(x1, Executor.ReleaseSpawn, x);
  }

  lemma SomebodyIsPolled()
    ensures Reachable(Init, Next, State(FirstPoll(), map[], NoPool(), None, {}, map[]))
  {
    var empty := Queue([], 0);
    var x2 := Executor.State(Executor.Waiting, empty, 0, Queue([0], 1), 0, 0, map[], 0, {}, multiset{0}, multiset{});
    SomebodySubmits(x2);
    var x3 := x2.(spawns := Queue([0], 0), pc := Executor.DrainingSpawns);
    ExecAlone(x2, Executor.WaitSpawn, x3);
    ExecAlone(x3, Executor.NextSpawn, FirstPoll());
  }

  /** The theorem is not vacuous: a runtime can be asleep with a task waiting, here
      for a channel whose sender has not been used yet. */
  lemma SomebodyCanWait() returns (s: State)
    ensures Reachable(Init, Next, s) && Executor.Asleep(s.exec)
    ensures s.blocked == map[0 := {0}] && 0 in s.exec.tasks && s.sources.Keys == {0}
  {
    var c := Oneshot.State(0, None, false, None, Oneshot.Unused, Oneshot.Resting, None, None);
    var c' := c.(rxTask := Some(0));
    SomebodyIsPolled();
    var s0 := State(FirstPoll(), map[], NoPool(), None, {}, map[]);
    var s1 := s0.(sources := map[0 := Channel(c)]);
    Extend(Init, Next, s0, Create(0, Channel(c)), s1);
    var s2 := s0.(sources := map[0 := Channel(c'.(rx := Oneshot.LoadFlag))], active := Some(0));
    assert s2 == StepPoll(s1, 0);
    Extend(Init, Next, s1, PollSource(0), s2);
    var s3 := s0.(sources := map[0 := Channel(c')], current := {0});
    assert s3 == StepPoll(s2, 0);
    Extend(Init, Next, s2, PollSource(0), s3);
    s := FirstTaskWaits(s3);
  }

  lemma FirstTaskWaits(s: State) returns (s': State)
    requires Reachable(Init, Next, s) && s.exec == FirstPoll() && s.active == None && s.blocked == map[]
    ensures Reachable(Init, Next, s') && s' == s.(exec := Idle(), current := {}, blocked := map[0 := s.current])
  {
    var m := StepExec(s, Executor.EndPoll(false));
    Extend(Init, Next, s, Exec(Executor.EndPoll(false)), m);
    s' := StepExec(m, Executor.NextSpawn);
    Extend(Init, Next, m, Exec(Executor.NextSpawn), s');
  }

  /** And it can be asleep with a task waiting for a notification that was given, but
      before the task first asked. */
  lemma SomebodyWaitsInVain() returns (s: State)
    ensures Reachable(Init, Next, s) && AtRest(s)
    ensures s.blocked == map[0 := {0}] && s.sources.Keys == {0}
    ensures s.sources[0].Notice? && s.sources[0].given == GivenEarly
  {
    var n := Notification.State(NOTIFICATION_UNINIT);
    SomebodyIsPolled();
    var s0 := State(FirstPoll(), map[], NoPool(), None, {}, map[]);
    var s1 := s0.(sources := map[0 := Notice(n, 0, false, NotGiven)]);
    Extend(Init, Next, s0, Create(0, Notice(n, 0, false, NotGiven)), s1);
    var s2 := s0.(sources := map[0 := Notice(n, 0, false, GivenEarly)]);
    assert s2 == StepComplete(s1, 0, Notifier);
    Extend(Init, Next, s1, Complete(0, Notifier), s2);
    var s3 := s0.(sources := map[0 := Notice(Notification.State(0), 0, true, GivenEarly)], current := {0});
    assert s3 == StepPoll(s2, 0);
    Extend(Init, Next, s2, PollSource(0), s3);
    s := FirstTaskWaits(s3);
  }

  // ----- What the task does when it is woken -----

  /** A step of the executor that neither starts nor ends a poll. */
  lemma ExecStep(s: State, a: Executor.Action, x: Executor.State)
    requires Reachable(Init, Next, s) && Executor.Next(s.exec, a, x) && !s.exec.pc.Polling? && !x.pc.Polling?
    ensures Reachable(Init, Next, s.(exec := x))
  {
    Extend(Init, Next, s, Exec(a), s.(exec := x));
  }

  /** The token of the waiting task is in the wake queue. */
  ghost function Woken(): Executor.State
  {
    Idle().(wakes := Queue([0], 0), waking := 1)
  }

  /** The executor polls the woken task. */
  lemma WokenIsPolled(s: State) returns (s': State)
    requires Reachable(Init, Next, s) && s.exec == Woken() && s.active == None && s.blocked.Keys == {0}
    ensures Reachable(Init, Next, s')
    ensures s' == s.(exec := Idle().(pc := Executor.Polling(0, 0, false)), blocked := map[])
  {
    var x1 := Idle().(wakes := Queue([0], 1));
    ExecStep(s, Executor.ReleaseWake, x1);
    var x2 := Idle().(wakes := Queue([0], 0), pc := Executor.DrainingWakes);
    ExecStep(s.(exec := x1), Executor.WaitWake, x2);
    var s2 := s.(exec := x2);
    s' := s.(exec := Idle().(pc := Executor.Polling(0, 0, false)), blocked := map[]);
    assert s' == StepExec(s2, Executor.NextWake);
    Extend(Init, Next, s2, Exec(Executor.NextWake), s');
  }

  /** The woken task asks again for its source 0, in vain, and waits on. */
  lemma AsksInVain(s: State, src: Source) returns (s': State)
    requires Reachable(Init, Next, s) && s.exec == Woken() && s.active == None
    requires s.blocked.Keys == {0} && s.current == {}
    requires 0 in s.sources && s.sources[0] == src && Owner(src) == 0 && CanPoll(src)
    requires AtLoad(src) && !Done(src) && !MidPoll(src) && !MidPoll(Polled(src))
    ensures Reachable(Init, Next, s')
    ensures s' == s.(exec := Idle(), sources := s.sources[0 := Polled(src)], blocked := map[0 := {0}])
  {
    var s1 := WokenIsPolled(s);
    var s2 := s1.(sources := s.sources[0 := Polled(src)], current := {0});
    assert s2 == StepPoll(s1, 0);
    Extend(Init, Next, s1, PollSource(0), s2);
    var s3 := s2.(exec := Idle().(pc := Executor.DrainingWakes), current := {}, blocked := map[0 := {0}]);
    assert s3 == StepExec(s2, Executor.EndPoll(false));
    Extend(Init, Next, s2, Exec(Executor.EndPoll(false)), s3);
    ExecStep(s3, Executor.NextWake, Idle());
    s' := s3.(exec := Idle());
  }

  // ----- A forsaken sleep -----

  /** A sleep of 2^63 ns after its first poll: the conversion has made the time of its
      timer negative. */
  ghost function SetTooEarly(): Sleep.State
  {
    var d: int := Sleep.I64_LIMIT;
    Sleep.State(0, d, Some(-d), false, false, false, 1)
  }

  lemma SomebodyFallsAsleep() returns (s: State)
    ensures Reachable(Init, Next, s)
    ensures s == State(Idle(), map[0 := Timer(SetTooEarly(), 0)], NoPool(), None, {}, map[0 := {0}])
  {
    var z := SetTooEarly().(due := None, registrations := 0);
    SomebodyIsPolled();
    var s0 := State(FirstPoll(), map[], NoPool(), None, {}, map[]);
    var s1 := s0.(sources := map[0 := Timer(z, 0)]);
    Extend(Init, Next, s0, Create(0, Timer(z, 0)), s1);
    var s2 := s0.(sources := map[0 := Timer(SetTooEarly(), 0)], current := {0});
    assert s2 == StepPoll(s1, 0);
    Extend(Init, Next, s1, PollSource(0), s2);
    s := FirstTaskWaits(s2);
  }

  /** A task can wait for a sleep of 2^63 ns long after its time is up. */
  lemma SomebodyOversleeps() returns (s: State)
    ensures Reachable(Init, Next, s) && AtRest(s)
    ensures s.blocked == map[0 := {0}] && s.sources.Keys == {0} && s.sources[0].Timer? && Done(s.sources[0])
  {
    var d, z := Sleep.I64_LIMIT, SetTooEarly();
    var s3 := SomebodyFallsAsleep();
    var z2 := z.(fired := true, wake := true);
    var s4 := s3.(exec := Woken(), sources := map[0 := Timer(z2, 0)]);
    assert s4 == StepComplete(s3, 0, Clock(Sleep.Fire));
    Extend(Init, Next, s3, Complete(0, Clock(Sleep.Fire)), s4);
    var s5 := AsksInVain(s4, Timer(z2, 0));
    s := StepComplete(s5, 0, Clock(Sleep.Tick(d)));
    Extend(Init, Next, s5, Complete(0, Clock(Sleep.Tick(d))), s);
  }

  // ----- A forgotten awaiter -----

  ghost function AwaitedJoin(): Join.State
  {
    Join.State(false, Join.Awaited(0), Join.Running, false, Join.Asleep, 0, None, [], [], Some(0))
  }

  lemma SomebodyAwaits() returns (s: State)
    ensures Reachable(Init, Next, s)
    ensures s == State(Idle(), map[0 := Joined(AwaitedJoin(), 0)], NoPool(), None, {}, map[0 := {0}])
  {
    var j := AwaitedJoin().(slot := Join.Unawaited, waiting := None);
    SomebodyIsPolled();
    var s0 := State(FirstPoll(), map[], NoPool(), None, {}, map[]);
    var s1 := s0.(sources := map[0 := Joined(j, 0)]);
    Extend(Init, Next, s0, Create(0, Joined(j, 0)), s1);
    var s2 := s0.(sources := map[0 := Joined(AwaitedJoin(), 0)], current := {0});
    assert s2 == StepPoll(s1, 0);
    Extend(Init, Next, s1, PollSource(0), s2);
    s := FirstTaskWaits(s2);
  }

  /** A task that awaits a join waits on after the joined task, polled by the same
      executor, has finished. */
  lemma SomebodyIsForgotten() returns (s: State)
    ensures Reachable(Init, Next, s) && AtRest(s)
    ensures s.blocked == map[0 := {0}] && s.sources.Keys == {0} && s.exec.finished == {1}
    ensures s.sources[0].Joined? && Join.Forgotten(s.sources[0].join)
  {
    var s3 := SomebodyAwaits();
    var s4 := SecondTaskIsPolled(s3);
    var s5 := WrapperFinishes(s4, AwaitedJoin());
    s := SecondTaskEnds(s5);
  }

  ghost function SecondPoll(): Executor.State
  {
    Idle().(pc := Executor.Polling(1, 1, true), counter := 2, spawned := 2,
            submitted := multiset{0, 1}, started := multiset{0, 1})
  }

  ghost function SecondTaken(): Executor.State
  {
    Idle().(pc := Executor.DrainingSpawns, spawns := Queue([1], 0), submitted := multiset{0, 1})
  }

  lemma SecondIsTaken(s: State)
    requires Reachable(Init, Next, s) && s.exec == Idle()
    ensures Reachable(Init, Next, s.(exec := SecondTaken()))
  {
    var x1 := SecondTaken().(pc := Executor.Waiting, spawning := 1);
    var x2 := SecondTaken().(pc := Executor.Waiting, spawns := Queue([1], 1));
    ExecStep(s, Executor.PushSpawn(1), x1);
    ExecStep(s.(exec := x1), Executor.ReleaseSpawn, x2);
    ExecStep(s.(exec := x2), Executor.WaitSpawn, SecondTaken());
  }

  lemma SecondTaskIsPolled(s: State) returns (s': State)
    requires Reachable(Init, Next, s) && s.exec == Idle() && s.active == None && s.blocked.Keys == {0}
    ensures Reachable(Init, Next, s') && s' == s.(exec := SecondPoll())
  {
    SecondIsTaken(s);
    assert Executor.Step(SecondTaken(), Executor.NextSpawn) == SecondPoll();
    s' := s.(exec := SecondPoll());
    assert s'.blocked == s.blocked - {1};
    Extend(Init, Next, s.(exec := SecondTaken()), Exec(Executor.NextSpawn), s');
  }

  lemma WrapperSteps(s: State, j: Join.State, a: Join.Action, j': Join.State)
    requires Reachable(Init, Next, s.(sources := map[0 := Joined(j, 0)]))
    requires (a.Finish? || a.WrapperStep?) && Join.Next(j, a, j') && !(j.wrapper == Join.Test && j.slot.Awaited?)
    ensures Reachable(Init, Next, s.(sources := map[0 := Joined(j', 0)]))
  {
    var s1, s2 := s.(sources := map[0 := Joined(j, 0)]), s.(sources := map[0 := Joined(j', 0)]);
    assert s2 == StepComplete(s1, 0, Wrapper(a));
    Extend(Init, Next, s1, Complete(0, Wrapper(a)), s2);
  }

  lemma WrapperFinishes(s: State, j: Join.State) returns (s': State)
    requires Reachable(Init, Next, s) && s.sources == map[0 := Joined(j, 0)]
    requires j.wrapper == Join.Running && !j.blocking && !j.signal
    ensures Reachable(Init, Next, s')
    ensures s' == s.(sources := map[0 := Joined(j.(slot := Join.Filled(7), wrapper := Join.Over, stores := j.stores + 1,
                                                   output := Some(7)), 0)])
  {
    assert s == s.(sources := map[0 := Joined(j, 0)]);
    var j1 := j.(wrapper := Join.Store(7), output := Some(7));
    WrapperSteps(s, j, Join.Finish(7), j1);
    var j2 := j1.(slot := Join.Filled(7), wrapper := Join.Test, stores := j.stores + 1);
    WrapperSteps(s, j1, Join.WrapperStep, j2);
    WrapperSteps(s, j2, Join.WrapperStep, j2.(wrapper := Join.Raise));
    WrapperSteps(s, j2.(wrapper := Join.Raise), Join.WrapperStep, j2.(wrapper := Join.Unlock));
    WrapperSteps(s, j2.(wrapper := Join.Unlock), Join.WrapperStep, j2.(wrapper := Join.Over));
    s' := s.(sources := map[0 := Joined(j2.(wrapper := Join.Over), 0)]);
  }

  lemma SecondTaskEnds(s: State) returns (s': State)
    requires Reachable(Init, Next, s) && s.exec == SecondPoll() && s.active == None && s.blocked.Keys == {0}
    ensures Reachable(Init, Next, s')
    ensures s' == s.(exec := SecondPoll().(pc := Executor.Waiting, finished := {1}), current := {})
  {
    var s1 := s.(exec := SecondPoll().(pc := Executor.DrainingSpawns, finished := {1}), current := {});
    assert s1 == StepExec(s, Executor.EndPoll(true));
    Extend(Init, Next, s, Exec(Executor.EndPoll(true)), s1);
    s' := s1.(exec := s1.exec.(pc := Executor.Waiting));
    Extend(Init, Next, s1, Exec(Executor.NextSpawn), s');
  }

  // ----- File operations that are never seen complete -----

  /** A read or write of task 0 that waits in the pool's queue. */
  ghost function QueuedFile(): FileOp.State
  {
    FileOp.State(FileOp.Io, 0, 0, U32_MAX, true, FileOp.Queued, FileOp.Resting, 1)
  }

  ghost function ServedFile(count: nat): FileOp.State
  {
    QueuedFile().(word := count, worker := FileOp.Finished(FileOp.Ok(count)))
  }

  /** The task's first poll makes one more file future and begins to poll it. */
  lemma Makes(s: State, id: Id) returns (s': State)
    requires Reachable(Init, Next, s) && s.exec == FirstPoll() && s.active == None && id !in s.sources
    ensures Reachable(Init, Next, s')
    ensures var f := QueuedFile().(registered := false, worker := FileOp.NotQueued, enqueued := 0);
            s' == s.(sources := s.sources[id := File(f.(poller := FileOp.Enqueue))], active := Some(id),
                     current := s.current + {id})
  {
    var f := QueuedFile().(registered := false, worker := FileOp.NotQueued, enqueued := 0);
    var s1 := s.(sources := s.sources[id := File(f)]);
    Extend(Init, Next, s, Create(id, File(f)), s1);
    s' := s.(sources := s.sources[id := File(f.(poller := FileOp.Enqueue))], active := Some(id),
             current := s.current + {id});
    assert s' == StepPoll(s1, id);
    Extend(Init, Next, s1, PollSource(id), s');
  }

  lemma PushesOperation(s: State, id: Id) returns (s': State)
    requires Reachable(Init, Next, s) && s.exec == FirstPoll() && s.active == Some(id) && id in s.sources
    requires var f := QueuedFile().(registered := false, worker := FileOp.NotQueued, enqueued := 0);
             s.sources[id] == File(f.(poller := FileOp.Enqueue))
    ensures Reachable(Init, Next, s')
    ensures s' == s.(sources := s.sources[id := File(QueuedFile().(registered := false, poller := FileOp.Register))],
                     pool := WorkerPool.Step(s.pool, WorkerPool.AddPush(id)))
  {
    s' := s.(sources := s.sources[id := File(QueuedFile().(registered := false, poller := FileOp.Register))],
             pool := WorkerPool.Step(s.pool, WorkerPool.AddPush(id)));
    assert s' == StepPoll(s, id);
    Extend(Init, Next, s, PollSource(id), s');
  }

  /** The poll goes on to add the operation to the pool. */
  lemma Enqueues(s: State, id: Id) returns (s': State)
    requires Reachable(Init, Next, s) && s.exec == FirstPoll() && s.active == None && id !in s.sources
    requires s.pool.adding == 0
    ensures Reachable(Init, Next, s')
    ensures s' == s.(sources := s.sources[id := File(QueuedFile())], current := s.current + {id},
                     pool := s.pool.(queue := Release(Push(s.pool.queue, id)), added := s.pool.added + multiset{id},
                                     refused := s.pool.refused + if s.pool.queue.permits == MAX_PERMITS then 1 else 0))
  {
    var s2 := Makes(s, id);
    var s3 := PushesOperation(s2, id);
    s' := s3.(sources := s.sources[id := File(QueuedFile())], active := None,
              pool := WorkerPool.Step(s3.pool, WorkerPool.AddRelease));
    assert s' == StepPoll(s3, id);
    Extend(Init, Next, s3, PollSource(id), s');
  }

  /** A worker is about to take up the newest operation. */
  ghost predicate ReadyToServe(s: State, id: Id)
  {
    && s.exec == Idle() && s.active == None
    && s.pool.holding == {} && s.pool.busy == map[] && s.pool.queue.permits > 0
    && s.pool.queue.vals != [] && Newest(s.pool.queue) == id
    && id in s.sources && s.sources[id] == File(QueuedFile())
  }

  lemma TakesUp(s: State, id: Id, count: nat) returns (s': State)
    requires Reachable(Init, Next, s) && ReadyToServe(s, id) && count <= U32_MAX
    ensures Reachable(Init, Next, s')
    ensures s' == s.(sources := s.sources[id := File(QueuedFile().(worker := FileOp.StoreCode(FileOp.Ok(count))))],
                     pool := s.pool.(queue := Pop(Acquire(s.pool.queue)), busy := map[0 := id],
                                     executed := s.pool.executed + multiset{id}))
  {
    var s1 := s.(pool := s.pool.(queue := Acquire(s.pool.queue), holding := {0}));
    Extend(Init, Next, s, PoolWait(0), s1);
    s' := s.(sources := s.sources[id := File(QueuedFile().(worker := FileOp.StoreCode(FileOp.Ok(count))))],
             pool := s.pool.(queue := Pop(Acquire(s.pool.queue)), busy := map[0 := id],
                             executed := s.pool.executed + multiset{id}));
    assert s' == StepTake(s1, 0, FileOp.Ok(count));
    Extend(Init, Next, s1, PoolTake(0, FileOp.Ok(count)), s');
  }

  lemma Stores(s: State, id: Id, f: FileOp.State, f': FileOp.State)
    requires Reachable(Init, Next, s) && id in s.sources && s.sources[id] == File(f)
    requires f' == FileOp.WorkerNext(f) && (f.worker.StoreCode? || f.worker.StoreWord?)
    ensures Reachable(Init, Next, s.(sources := s.sources[id := File(f')]))
  {
    var s' := s.(sources := s.sources[id := File(f')]);
    assert s' == StepComplete(s, id, Worker);
    Extend(Init, Next, s, Complete(id, Worker), s');
  }

  /** A worker carries out the newest operation and wakes the task. */
  lemma Serves(s: State, id: Id, count: nat) returns (s': State)
    requires Reachable(Init, Next, s) && ReadyToServe(s, id) && count <= U32_MAX
    ensures Reachable(Init, Next, s')
    ensures s' == s.(exec := Woken(), sources := s.sources[id := File(ServedFile(count))],
                     pool := s.pool.(queue := Pop(Acquire(s.pool.queue)),
                                     executed := s.pool.executed + multiset{id}))
  {
    var s1 := TakesUp(s, id, count);
    var o := FileOp.Ok(count);
    var f := QueuedFile().(worker := FileOp.StoreCode(o));
    Stores(s1, id, f, QueuedFile().(worker := FileOp.StoreWord(o)));
    var s2 := s1.(sources := s1.sources[id := File(QueuedFile().(worker := FileOp.StoreWord(o)))]);
    var f3 := ServedFile(count).(worker := FileOp.WakeTask(o));
    Stores(s2, id, QueuedFile().(worker := FileOp.StoreWord(o)), f3);
    var s3 := s2.(sources := s2.sources[id := File(f3)]);
    assert s3.sources == s.sources[id := File(f3)];
    var s4 := s1.(exec := Woken(), sources := s.sources[id := File(ServedFile(count))]);
    assert s4 == StepComplete(s3, id, Worker);
    Extend(Init, Next, s3, Complete(id, Worker), s4);
    s' := s4.(pool := s4.pool.(busy := map[]));
    Extend(Init, Next, s4, PoolFinish(0), s');
  }

  lemma SomebodyReads() returns (s: State)
    ensures Reachable(Init, Next, s) && ReadyToServe(s, 0) && s.sources == map[0 := File(QueuedFile())]
    ensures s.blocked == map[0 := {0}] && s.current == {} && s.pool.queue == Queue([0], 1)
    ensures s.pool.adding == s.pool.refused == 0
  {
    SomebodyIsPolled();
    var s1 := Enqueues(State(FirstPoll(), map[], NoPool(), None, {}, map[]), 0);
    assert s1.sources == map[0 := File(QueuedFile())] && s1.pool.queue == Queue([0], 1) && s1.current == {0};
    s := FirstTaskWaits(s1);
  }

  /** A task can wait for a read that has moved u32::MAX bytes. */
  lemma SomebodyMissesTheMaximum() returns (s: State)
    ensures Reachable(Init, Next, s) && AtRest(s)
    ensures s.blocked == map[0 := {0}] && s.sources.Keys == {0}
    ensures s.sources[0] == File(ServedFile(U32_MAX)) && s.pool.refused == 0
  {
    var s2 := SomebodyReads();
    var s3 := Serves(s2, 0, U32_MAX);
    assert s3.sources == map[0 := File(ServedFile(U32_MAX))];
    s := AsksInVain(s3, File(ServedFile(U32_MAX)));
  }

  /** The task has made the file futures 0 to n - 1, in its first poll. */
  ghost predicate Enqueued(s: State, n: nat)
  {
    && s.exec == FirstPoll() && s.active == None && s.blocked == map[]
    && (forall id: Id :: id in s.sources <==> id < n)
    && (forall id: Id :: id < n ==> s.sources[id] == File(QueuedFile()))
    && s.pool.queue == Queue(seq(n, i => i), if n < 255 then n else 255)
    && s.pool.refused == (if n < 255 then 0 else n - 255)
    && s.pool.adding == 0 && s.pool.holding == {} && s.pool.busy == map[]
  }

  lemma {:induction false} EnqueueMany(n: nat) returns (s: State)
    ensures Reachable(Init, Next, s) && Enqueued(s, n)
  {
    if n == 0 {
      SomebodyIsPolled();
      s := State(FirstPoll(), map[], NoPool(), None, {}, map[]);
    } else {
      var before := EnqueueMany(n - 1);
      s := Enqueues(before, n - 1);
      assert seq(n - 1, i => i) + [n - 1] == seq(n, i => i);
    }
  }

  /** Of 256 operations, 0 to n - 1 are still queued, one permit short. */
  ghost predicate OneShort(s: State, n: nat)
  {
    && s.exec == Idle() && s.active == None && s.current == {} && s.blocked.Keys == {0}
    && (forall id: Id :: id < n ==> id in s.sources && s.sources[id] == File(QueuedFile()))
    && (forall id :: id in s.sources ==> s.sources[id] == File(QueuedFile()) || s.sources[id] == File(ServedFile(0)))
    && s.pool.queue.vals == seq(n, i => i) && s.pool.queue.permits == n - 1 && s.pool.refused == 1
    && s.pool.adding == 0 && s.pool.holding == {} && s.pool.busy == map[]
  }

  lemma ServeOne(s: State, n: nat) returns (s': State)
    requires Reachable(Init, Next, s) && OneShort(s, n + 1) && n > 0
    ensures Reachable(Init, Next, s') && OneShort(s', n) && s'.blocked == map[0 := {0}]
  {
    assert ReadyToServe(s, n);
    var m := Serves(s, n, 0);
    s' := AsksInVain(m, File(QueuedFile()));
    assert s'.pool.queue.vals == seq(n + 1, i => i)[..n] == seq(n, i => i);
  }

  lemma {:induction false} ServeMany(s: State, n: nat) returns (s': State)
    requires Reachable(Init, Next, s) && OneShort(s, n + 1)
    ensures Reachable(Init, Next, s') && OneShort(s', 1) && s'.blocked == if n == 0 then s.blocked else map[0 := {0}]
    decreases n
  {
    if n == 0 {
      s' := s;
    } else {
      var m := ServeOne(s, n);
      s' := ServeMany(m, n - 1);
    }
  }

  /** And for an operation that the pool never takes up, having been handed 256 at
      once, although all its workers are idle. */
  lemma SomebodyIsLeftInTheQueue() returns (s: State)
    ensures Reachable(Init, Next, s) && AtRest(s)
    ensures s.blocked == map[0 := {0}] && s.pool.refused == 1
    ensures 0 in s.sources && s.sources[0] == File(QueuedFile())
  {
    var s1 := EnqueueMany(256);
    var s2 := FirstTaskWaits(s1);
    s := ServeMany(s2, 255);
  }
}
