/** Tasks of the executor and threads on one lock (src/executor.rs, src/sync.rs):
    the step system of the lock and that of the executor, put together. A task takes
    steps on the lock only while it is polled; an unlock that takes a task off the
    waiter list puts its token in the wake queue in a step of its own. */
module LockTasks {
  import opened Runs
  import opened Tokens
  import opened Queues
  import Executor
  import Lock

  /** `polled`: the acquisitions that the poll under way has tried; `owed`: the tasks
      taken off the waiter list by an unlock that has yet to add their token. */
  datatype State = State(exec: Executor.State, lock: Lock.State, polled: set<Lock.Party>, owed: set<Lock.Party>)

  datatype Action = Exec(a: Executor.Action) | OnLock(x: Lock.Action) | PushFor(p: Lock.Party)

  ghost predicate Init(s: State)
  {
    Executor.Init(s.exec) && Lock.Init(s.lock) && s.polled == {} && s.owed == {}
  }

  ghost predicate PollOf(exec: Executor.State, p: Lock.Party)
  {
    p.Task? && exec.pc.Polling? && exec.pc.task == p.token
  }

  /** A poll of a task polls each acquisition the task awaits, and the task is not
      done before it has them; nothing is asked once tokens come round again. */
  ghost predicate CanEnd(s: State, ready: bool)
  {
    s.exec.spawned <= Executor.MAX_TASKS ==>
      forall p :: p in s.lock.pending && PollOf(s.exec, p) ==> !ready && p in s.polled
  }

  /** The poll under way is the last one that the wake of an unlock still had coming
      for the task. */
  ghost predicate SpendsWake(s: State, p: Lock.Party)
    requires p.Task?
  {
    p in s.lock.woken && p !in s.owed && p.token !in s.exec.wakes.vals
  }

  ghost predicate Enabled(s: State, a: Action)
  {
    match a
    case Exec(x) => Executor.Enabled(s.exec, x) && (x.EndPoll? ==> CanEnd(s, x.ready))
    case OnLock(x) =>
      && Lock.Enabled(s.lock, x)
      && ((x.DoLock? || x.DoRetry?) && x.p.Task? ==> PollOf(s.exec, x.p))
      && (x.DoRetry? && x.p.Task? ==> x.woke == SpendsWake(s, x.p))
    case PushFor(p) => p in s.owed && p.Task?
  }

  ghost function StepLock(s: State, x: Lock.Action): State
    requires Enabled(s, OnLock(x))
  {
    var l := Lock.Step(s.lock, x);
    if x.DoUnlock? then s.(lock := l, owed := s.owed + (l.woken - s.lock.woken))
    else if x.p.Task? then s.(lock := l, polled := s.polled + {x.p})
    else s.(lock := l)
  }

  ghost function Step(s: State, a: Action): State
    requires Enabled(s, a)
  {
    match a
    case Exec(x) => s.(exec := Executor.Step(s.exec, x), polled := if x.EndPoll? then {} else s.polled)
    case OnLock(x) => StepLock(s, x)
    case PushFor(p) => s.(exec := Executor.Step(s.exec, Executor.PushWake(p.token)), owed := s.owed - {p})
  }

  ghost predicate Next(s: State, a: Action, s': State)
  {
    Enabled(s, a) && s' == Step(s, a)
  }

  // ----- A wake that was handed out is on its way -----

  /** The task will be polled, and then try for the lock. */
  ghost predicate Coming(s: State, p: Lock.Party)
  {
    p.Task? && (p in s.owed || p.token in s.exec.wakes.vals || (PollOf(s.exec, p) && p !in s.polled))
  }

  ghost predicate Alive(exec: Executor.State, p: Lock.Party)
  {
    p.Task? ==> p.token in exec.tasks || PollOf(exec, p)
  }

  ghost predicate Sound(s: State)
  {
    && Executor.Awake(s.exec) && Executor.Lifecycle(s.exec)
    && (!s.exec.pc.Polling? ==> s.polled == {})
    && Lock.Listed(s.lock)
    && (forall p :: p in s.owed ==> p in s.lock.woken)
    && (s.exec.spawned <= Executor.MAX_TASKS ==> forall p :: p in s.lock.used && p.Task? ==> p.token < s.exec.spawned)
    && (s.exec.spawned <= Executor.MAX_TASKS ==>
          forall p :: p in s.lock.pending ==> Alive(s.exec, p) && (p in s.lock.woken ==> Coming(s, p)))
  }

  lemma ExecKeepsSound(s: State, x: Executor.Action, s': State)
    requires Sound(s) && Next(s, Exec(x), s')
    ensures Sound(s')
  {
    Executor.AwakeKept(s.exec, x, s'.exec);
    Executor.LifecycleKept(s.exec, x, s'.exec);
  }

  lemma LockKeepsSound(s: State, x: Lock.Action, s': State)
    requires Sound(s) && Next(s, OnLock(x), s')
    ensures Sound(s')
  {
    Lock.ListedKept(s.lock, x, s'.lock);
  }

  lemma PushKeepsSound(s: State, p: Lock.Party, s': State)
    requires Sound(s) && Next(s, PushFor(p), s')
    ensures Sound(s')
  {
    Executor.AwakeKept(s.exec, Executor.PushWake(p.token), s'.exec);
    Executor.LifecycleKept(s.exec, Executor.PushWake(p.token), s'.exec);
    assert p.token in s'.exec.wakes.vals;
  }

  lemma SoundAlways(r: Run<State, Action>, i: nat)
    requires IsRun(Init, Next, r) && i < |r.states|
    ensures Sound(r.states[i])
  {
    forall s, a, s' | Sound(s) && Next(s, a, s') ensures Sound(s') {
      match a
      case Exec(x) => ExecKeepsSound(s, x, s');
      case OnLock(x) => LockKeepsSound(s, x, s');
      case PushFor(p) => PushKeepsSound(s, p, s');
    }
    InvariantHolds(Init, Next, Sound, r, i);
  }

  // ----- The lock's own run -----

  ghost function LockOf(s: State): Lock.State
  {
    s.lock
  }

  ghost function LockAct(s: State, a: Action): Option<Lock.Action>
  {
    if a.OnLock? then Some(a.x) else None
  }

  lemma LockRun(r: Run<State, Action>, i: nat) returns (q: Run<Lock.State, Lock.Action>, at: seq<nat>)
    requires IsRun(Init, Next, r) && i < |r.states|
    ensures IsRun(Lock.Init, Lock.Next, q) && IsPart(LockOf, LockAct, r, i, q, at)
  {
    forall j | 0 <= j < |r.acts|
      ensures match LockAct(r.states[j], r.acts[j])
              case None => LockOf(r.states[j + 1]) == LockOf(r.states[j])
              case Some(b) => Lock.Next(LockOf(r.states[j]), b, LockOf(r.states[j + 1]))
    {
      assert Next(r.states[j], r.acts[j], r.states[j + 1]);
    }
    q, at := Project(Lock.Init, Lock.Next, LockOf, LockAct, r, i);
  }

  // ----- The theorems -----

  /** The executor sleeps and no unlock is half done; tokens are still unique. */
  ghost predicate AtRest(s: State)
  {
    Executor.Asleep(s.exec) && s.owed == {} && s.exec.spawned <= Executor.MAX_TASKS
  }

  ghost predicate LosesRetry(s: State, a: Action, p: Lock.Party)
  {
    a.OnLock? && Lock.LostRetry(s.lock, a.x) && a.x.p == p
  }

  ghost predicate Loses(s: State, a: Action)
  {
    a.OnLock? && (Lock.LostRetry(s.lock, a.x) || Lock.LostPark(s.lock, a.x))
  }

  lemma {:induction false} SpawnedGrows(r: Run<State, Action>, k: nat, i: nat)
    requires IsRun(Init, Next, r) && k <= i < |r.states|
    ensures r.states[k].exec.spawned <= r.states[i].exec.spawned
  {
    if k == i {
    } else {
      SpawnedGrows(r, k, i - 1);
      assert Next(r.states[i - 1], r.acts[i - 1], r.states[i - 1 + 1]);
    }
  }

  /** While tokens are unique none is the threads', so no pop of a task is lost. */
  lemma NoPopIsLost(r: Run<State, Action>, k: nat, i: nat)
    requires IsRun(Init, Next, r) && k <= i < |r.states| && r.states[i].exec.spawned <= Executor.MAX_TASKS
    ensures forall p :: p in r.states[k].lock.lock.waiters ==> !Lock.Misread(p)
  {
    SoundAlways(r, k);
    SpawnedGrows(r, k, i);
  }

  /** While the executor sleeps, a task that waits for the lock is alive. It is on the
      waiter list, so that an unlock to come will wake it, or it is stranded, and then
      by an earlier retry of its own that was lost. */
  lemma WaitingTasksAreListed(r: Run<State, Action>, i: nat, p: Lock.Party)
    requires IsRun(Init, Next, r) && i < |r.states| && AtRest(r.states[i])
    requires p.Task? && p in r.states[i].lock.pending
    ensures p.token in r.states[i].exec.tasks
    ensures p in r.states[i].lock.lock.waiters <==> !Lock.StrandedTask(r.states[i].lock, p)
    ensures p in r.states[i].lock.lock.waiters || exists k :: 0 <= k < i && LosesRetry(r.states[k], r.acts[k], p)
  {
    SoundAlways(r, i);
    if p !in r.states[i].lock.lock.waiters {
      var q, at := LockRun(r, i);
      var m := Lock.StrandedByLoss(q, at[i], p);
      var k := Origin(LockOf, LockAct, r, i, q, at, 0, m);
      NoPopIsLost(r, k, i);
      assert LosesRetry(r.states[k], r.acts[k], p);
    }
  }

  /** In every run that loses no retry and no park: while the executor sleeps, a free
      lock that somebody waits for has a waiting thread that is awake. So nobody waits
      for a free lock that only tasks use. */
  lemma FreeLockIsTaken(r: Run<State, Action>, i: nat)
    requires IsRun(Init, Next, r) && i < |r.states| && AtRest(r.states[i])
    requires forall k :: 0 <= k < i ==> !Loses(r.states[k], r.acts[k])
    requires r.states[i].lock.lock.word > 0
    ensures r.states[i].lock.pending == {} ||
            exists p :: p in r.states[i].lock.pending && p.Thread? && p !in r.states[i].lock.parked
    ensures (forall p :: p in r.states[i].lock.used ==> p.Task?) ==> r.states[i].lock.pending == {}
  {
    SoundAlways(r, i);
    var q, at := LockRun(r, i);
    Lock.ListedAlways(q, at[i]);
    if r.states[i].lock.pending != {} {
      forall m | 0 <= m < at[i] ensures !Lock.Loses(q.states[m], q.acts[m]) {
        var k := Origin(LockOf, LockAct, r, i, q, at, 0, m);
        assert !Loses(r.states[k], r.acts[k]);
        NoPopIsLost(r, k, i);
      }
      Lock.NoDeadlock(q, at[i]);
      NoPopIsLost(r, i, i);
      var p :| Lock.Moving(r.states[i].lock, p);
      assert p.Thread?;
    }
  }

  // ----- A spurious retry loses nothing -----

  /** Some steps lead from s to s'. */
  ghost predicate LeadsTo(s: State, s': State)
  {
    Reachable(x => x == s, Next, s')
  }

  /** The executor after its first spawn. */
  ghost function Busy(pc: Executor.Pc, wakes: Queue<Token>, waking: nat, tasks: map<Token, Executor.Future>)
    : Executor.State
  {
    Executor.State(pc, wakes, waking, Queue([], 0), 0, 1, tasks, 1, {}, multiset{0}, multiset{0})
  }

  /** A step of the executor that ends no poll. */
  lemma ExecAlone(x: Executor.State, a: Executor.Action, x': Executor.State, l: Lock.State)
    requires Reachable(Init, Next, State(x, l, {}, {})) && Executor.Next(x, a, x') && !a.EndPoll?
    ensures Reachable(Init, Next, State(x', l, {}, {}))
  {
    Extend(Init, Next, State(x, l, {}, {}), Exec(a), State(x', l, {}, {}));
  }

  lemma FirstTaskIsPolled(l: Lock.State)
    requires Lock.Init(l)
    ensures Reachable(Init, Next, State(Busy(Executor.Polling(0, 0, true), Queue([], 0), 0, map[]), l, {}, {}))
  {
    var empty := Queue([], 0);
    var x0 := Executor.State(Executor.Waiting, empty, 0, empty, 0, 0, map[], 0, {}, multiset{}, multiset{});
    var x1 := x0.(spawns := Queue([0], 0), spawning := 1, submitted := multiset{0});
    var x2 := x1.(spawns := Queue([0], 1), spawning := 0);
    var x3 := x2.(spawns := Queue([0], 0), pc := Executor.DrainingSpawns);
    Start<State, Action>(Init, Next, State(x0, l, {}, {}));
    ExecAlone(x0, Executor.PushSpawn(0), x1, l);
    ExecAlone(x1, Executor.ReleaseSpawn, x2, l);
    ExecAlone(x2, Executor.WaitSpawn, x3, l);
    ExecAlone(x3, Executor.NextSpawn, Busy(Executor.Polling(0, 0, true), empty, 0, map[]), l);
  }

  /** A thread holds the lock and the task p, registered in its first poll, waits. */
  ghost function Held(h: Lock.Party, p: Lock.Party): Lock.State
  {
    Lock.State(Lock.Core(-2, [p]), {h, p}, {p}, {h}, {}, [], {}, [p], [], None)
  }

  lemma TaskRegisters(h: Lock.Party, p: Lock.Party)
    requires h.Thread? && p == Lock.Task(0, 0)
    ensures Reachable(Init, Next, State(Busy(Executor.Waiting, Queue([], 0), 0, map[0 := 0]), Held(h, p), {}, {}))
  {
    var l0 := Lock.State(Lock.Core(1, []), {}, {}, {}, {}, [], {}, [], [], None);
    var l1 := l0.(lock := Lock.Core(-1, []), used := {h}, guards := {h});
    var x0 := Busy(Executor.Polling(0, 0, true), Queue([], 0), 0, map[]);
    var x1 := Busy(Executor.DrainingSpawns, Queue([], 0), 0, map[0 := 0]);
    FirstTaskIsPolled(l0);
    Extend(Init, Next, State(x0, l0, {}, {}), OnLock(Lock.DoLock(h)), State(x0, l1, {}, {}));
    Extend(Init, Next, State(x0, l1, {}, {}), OnLock(Lock.DoLock(p)), State(x0, Held(h, p), {p}, {}));
    Extend(Init, Next, State(x0, Held(h, p), {p}, {}), Exec(Executor.EndPoll(false)), State(x1, Held(h, p), {}, {}));
    Extend(Init, Next, State(x1, Held(h, p), {}, {}), Exec(Executor.NextSpawn),
           State(x1.(pc := Executor.Waiting), Held(h, p), {}, {}));
  }

  /** A stray wake has the task polled once more. */
  lemma StrayWake(l: Lock.State)
    requires Reachable(Init, Next, State(Busy(Executor.Waiting, Queue([], 0), 0, map[0 := 0]), l, {}, {}))
    ensures Reachable(Init, Next, State(Busy(Executor.Polling(0, 0, false), Queue([], 0), 0, map[0 := 0]), l, {}, {}))
  {
    var x0 := Busy(Executor.Waiting, Queue([], 0), 0, map[0 := 0]);
    var x1 := x0.(wakes := Queue([0], 0), waking := 1);
    var x2 := x0.(wakes := Queue([0], 1));
    var x3 := x0.(wakes := Queue([0], 0), pc := Executor.DrainingWakes);
    var x4 := x0.(pc := Executor.Polling(0, 0, false));
    ExecAlone(x0, Executor.PushWake(0), x1, l);
    ExecAlone(x1, Executor.ReleaseWake, x2, l);
    ExecAlone(x2, Executor.WaitWake, x3, l);
    ExecAlone(x3, Executor.NextWake, x4, l);
  }

  /** A poll that the lock's wake did not cause finds the lock barged into, its task no
      longer listed; yet the wake is still to come, and with it the lock. */
  lemma SpuriousRetryIsHarmless() returns (s: State, p: Lock.Party, s': State, served: State)
    ensures Reachable(Init, Next, s) && Next(s, OnLock(Lock.DoRetry(p, false)), s') && LeadsTo(s', served)
    ensures s.lock.lock.word < 0 && p.Task? && p !in s.lock.lock.waiters
    ensures p in s'.lock.pending && !Lock.StrandedTask(s'.lock, p)
    ensures served.lock.guards == {p} && served.lock.pending == {}
  {
    var h, c := Lock.Thread(9), Lock.Thread(8);
    p := Lock.Task(0, 0);
    TaskRegisters(h, p);
    StrayWake(Held(h, p));
    var x := Busy(Executor.Polling(0, 0, false), Queue([], 0), 0, map[0 := 0]);
    var free := Held(h, p).(lock := Lock.Core(2, []), guards := {}, woken := {p}, handoff := Some(p));
    var barged := free.(lock := Lock.Core(-2, []), used := {h, p, c}, guards := {c}, handoff := None);
    Extend(Init, Next, State(x, Held(h, p), {}, {}), OnLock(Lock.DoUnlock(h, 0)), State(x, free, {}, {p}));
    s, s' := State(x, barged, {}, {p}), State(x, barged, {p}, {p});
    Extend(Init, Next, State(x, free, {}, {p}), OnLock(Lock.DoLock(c)), s);
    assert Lock.StepRetry(barged, p, false) == barged;
    served := WakeServes(s', c, p);
  }

  lemma WakeServes(s: State, c: Lock.Party, p: Lock.Party) returns (served: State)
    requires s.exec == Busy(Executor.Polling(0, 0, false), Queue([], 0), 0, map[0 := 0]) && p == Lock.Task(0, 0)
    requires s.lock.lock == Lock.Core(-2, []) && s.lock.pending == {p} && s.lock.guards == {c} && s.lock.woken == {p}
    requires s.lock.parked == [] && s.polled == {p} && s.owed == {p}
    ensures LeadsTo(s, served) && served.lock.guards == {p} && served.lock.pending == {}
  {
    var init := x => x == s;
    Start<State, Action>(init, Next, s);
    var s1 := s.(exec := s.exec.(wakes := Queue([0], 0), waking := 1), owed := {});
    Extend(init, Next, s, PushFor(p), s1);
    var s2 := s1.(lock := s.lock.(lock := Lock.Core(2, []), guards := {}));
    assert s2.lock == Lock.Step(s1.lock, Lock.DoUnlock(c, 0));
    Extend(init, Next, s1, OnLock(Lock.DoUnlock(c, 0)), s2);
    served := PolledOnWake(init, s2, p);
  }

  lemma PolledOnWake(init: State -> bool, s: State, p: Lock.Party) returns (served: State)
    requires Reachable(init, Next, s) && p == Lock.Task(0, 0)
    requires s.exec == Busy(Executor.Polling(0, 0, false), Queue([0], 0), 1, map[0 := 0])
    requires s.lock.lock == Lock.Core(2, []) && s.lock.pending == {p} && s.lock.guards == {} && s.lock.woken == {p}
    requires s.polled == {p} && s.owed == {}
    ensures Reachable(init, Next, served) && served.lock.guards == {p} && served.lock.pending == {}
  {
    var s3 := s.(exec := s.exec.(pc := Executor.DrainingWakes), polled := {});
    Extend(init, Next, s, Exec(Executor.EndPoll(false)), s3);
    var s4 := s3.(exec := s.exec.(wakes := Queue([], 0)));
    Extend(init, Next, s3, Exec(Executor.NextWake), s4);
    served := Step(s4, OnLock(Lock.DoRetry(p, true)));
    Extend(init, Next, s4, OnLock(Lock.DoRetry(p, true)), served);
  }
}
