/** The executor thread (src/executor.rs): it waits on the semaphores of two
    queues, drains the one that was signalled, and polls tasks on the way.

    A future is an arbitrary machine: while it is polled, and at any other time
    from any other thread, tokens and futures may be added to the queues, each
    addition in two steps; the poll then ends Ready or Pending. */
module Executor {
  import opened Runs
  import opened Tokens
  import opened Queues

  type Future = nat

  datatype Pc =
    | Waiting
    | DrainingWakes
    | DrainingSpawns
    | Polling(task: Token, future: Future, first: bool)

  /** `waking` and `spawning` are the adders between push and release on each
      queue; `spawned` counts the tasks ever given a token and `finished` holds
      the tokens of those whose future returned Ready; `submitted` and `started`
      are the futures ever put in the spawn queue and ever polled. */
  datatype State = State(
    pc: Pc,
    wakes: Queue<Token>,
    waking: nat,
    spawns: Queue<Future>,
    spawning: nat,
    counter: nat,
    tasks: map<Token, Future>,
    spawned: nat,
    finished: set<Token>,
    submitted: multiset<Future>,
    started: multiset<Future>)

  datatype Action =
    | PushWake(token: Token)
    | ReleaseWake
    | PushSpawn(future: Future)
    | ReleaseSpawn
    | WaitWake
    | WaitSpawn
    | NextWake
    | NextSpawn
    | EndPoll(ready: bool)

  ghost predicate Init(s: State)
  {
    s == State(Waiting, Queue([], 0), 0, Queue([], 0), 0, 0, map[], 0, {}, multiset{}, multiset{})
  }

  ghost predicate Enabled(s: State, a: Action)
  {
    match a
    case PushWake(_) => true
    case ReleaseWake => s.waking > 0
    case PushSpawn(_) => true
    case ReleaseSpawn => s.spawning > 0
    case WaitWake => s.pc == Waiting && s.wakes.permits > 0
    case WaitSpawn => s.pc == Waiting && s.spawns.permits > 0
    case NextWake => s.pc == DrainingWakes
    case NextSpawn => s.pc == DrainingSpawns
    case EndPoll(_) => s.pc.Polling?
  }

  /** One turn of the loop over the wake queue: a token without a task is skipped. */
  ghost function StepWake(s: State): State
  {
    if s.wakes.vals == [] then s.(pc := Waiting)
    else
      var t := Newest(s.wakes);
      s.(wakes := Pop(s.wakes), pc := if t in s.tasks then Polling(t, s.tasks[t], false) else DrainingWakes)
  }

  /** A future starts its first poll; the `u32` counter names the task. */
  ghost function Born(s: State, f: Future): State
  {
    s.(pc := Polling(s.counter, f, true), counter := (s.counter + 1) % U32_SIZE,
       spawned := s.spawned + 1, started := s.started + multiset{f})
  }

  /** One turn of the loop over the spawn queue. */
  ghost function StepSpawn(s: State): State
  {
    if s.spawns.vals == [] then s.(pc := Waiting)
    else Born(s.(spawns := Pop(s.spawns)), Newest(s.spawns))
  }

  ghost function StepEnd(s: State, ready: bool): State
    requires s.pc.Polling?
  {
    var t := s.pc.task;
    s.(pc := if s.pc.first then DrainingSpawns else DrainingWakes,
       tasks := if s.pc.first && !ready then s.tasks[t := s.pc.future]
                else if !s.pc.first && ready then s.tasks - {t}
                else s.tasks,
       finished := if ready then s.finished + {t} else s.finished)
  }

  ghost function Step(s: State, a: Action): State
    requires Enabled(s, a)
  {
    match a
    case PushWake(t) => s.(wakes := Push(s.wakes, t), waking := s.waking + 1)
    case ReleaseWake => s.(wakes := Release(s.wakes), waking := s.waking - 1)
    case PushSpawn(f) =>
      s.(spawns := Push(s.spawns, f), spawning := s.spawning + 1, submitted := s.submitted + multiset{f})
    case ReleaseSpawn => s.(spawns := Release(s.spawns), spawning := s.spawning - 1)
    case WaitWake => s.(wakes := Acquire(s.wakes), pc := DrainingWakes)
    case WaitSpawn => s.(spawns := Acquire(s.spawns), pc := DrainingSpawns)
    case NextWake => StepWake(s)
    case NextSpawn => StepSpawn(s)
    case EndPoll(ready) => StepEnd(s, ready)
  }

  ghost predicate Next(s: State, a: Action, s': State)
  {
    Enabled(s, a) && s' == Step(s, a)
  }

  // ----- The executor never sleeps on work -----

  ghost predicate InWakeLoop(pc: Pc)
  {
    pc == DrainingWakes || (pc.Polling? && !pc.first)
  }

  ghost predicate InSpawnLoop(pc: Pc)
  {
    pc == DrainingSpawns || (pc.Polling? && pc.first)
  }

  /** Outside its loop, a queue that holds something and that no adder is about
      to signal has a permit: the wait will not block. */
  ghost predicate Signalled<T>(q: Queue<T>, adding: nat)
  {
    q.vals != [] && adding == 0 ==> q.permits > 0
  }

  ghost predicate Awake(s: State)
  {
    && (!InWakeLoop(s.pc) ==> Signalled(s.wakes, s.waking))
    && (!InSpawnLoop(s.pc) ==> Signalled(s.spawns, s.spawning))
  }

  lemma AwakeKept(s: State, a: Action, s': State)
    requires Awake(s) && Next(s, a, s')
    ensures Awake(s')
  {
  }

  /** For any number of producers, and although releases beyond 255 are dropped. */
  lemma NeverSleepsOnWork(r: Run<State, Action>, i: nat)
    requires IsRun(Init, Next, r) && i < |r.states|
    ensures Awake(r.states[i])
  {
    forall s, a, s' | Awake(s) && Next(s, a, s') ensures Awake(s') {
      AwakeKept(s, a, s');
    }
    InvariantHolds(Init, Next, Awake, r, i);
  }

  /** The wait blocks, and no adder will end that by finishing its addition. */
  ghost predicate Asleep(s: State)
  {
    s.pc == Waiting && s.wakes.permits == 0 && s.spawns.permits == 0 && s.waking == 0 && s.spawning == 0
  }

  lemma AsleepMeansEmpty(r: Run<State, Action>, i: nat)
    requires IsRun(Init, Next, r) && i < |r.states| && Asleep(r.states[i])
    ensures r.states[i].wakes.vals == [] && r.states[i].spawns.vals == []
  {
    NeverSleepsOnWork(r, i);
  }

  // ----- Every spawned future is started -----

  ghost predicate NoneLost(s: State)
  {
    s.submitted == multiset(s.spawns.vals) + s.started && |s.started| == s.spawned
  }

  lemma SubmittingLosesNone(s: State, f: Future)
    requires NoneLost(s)
    ensures NoneLost(Step(s, PushSpawn(f)))
  {
    var vals := s.spawns.vals;
    assert multiset(vals + [f]) == multiset(vals) + multiset{f};
  }

  lemma StartingLosesNone(s: State)
    requires NoneLost(s)
    ensures NoneLost(StepSpawn(s))
  {
    var vals := s.spawns.vals;
    if vals == [] {
    } else {
      var rest, f := vals[..|vals| - 1], vals[|vals| - 1];
      assert vals == rest + [f];
      assert multiset(vals) == multiset(rest) + multiset{f};
      assert multiset(rest) + multiset{f} + s.started == multiset(rest) + (s.started + multiset{f});
    }
  }

  lemma NoneLostKept(s: State, a: Action, s': State)
    requires NoneLost(s) && Next(s, a, s')
    ensures NoneLost(s')
  {
    match a
    case PushSpawn(f) => SubmittingLosesNone(s, f);
    case NextSpawn => StartingLosesNone(s);
    case _ =>
      assert s'.spawns.vals == s.spawns.vals && s'.submitted == s.submitted;
      assert s'.started == s.started && s'.spawned == s.spawned;
  }

  /** In every run each future put in the spawn queue is there or has become a task,
      as often as it was put in; so a blocked executor has started them all. */
  lemma SpawnConservation(r: Run<State, Action>, i: nat)
    requires IsRun(Init, Next, r) && i < |r.states|
    ensures r.states[i].submitted == multiset(r.states[i].spawns.vals) + r.states[i].started
    ensures |r.states[i].started| == r.states[i].spawned
    ensures Asleep(r.states[i]) ==> r.states[i].started == r.states[i].submitted
  {
    forall s, a, s' | NoneLost(s) && Next(s, a, s') ensures NoneLost(s') {
      NoneLostKept(s, a, s');
    }
    InvariantHolds(Init, Next, NoneLost, r, i);
    NeverSleepsOnWork(r, i);
  }

  // ----- Lifecycle of tasks -----

  /** The most spawns before a token could be mistaken for a sentinel. */
  const MAX_TASKS: nat := U32_SIZE - 2

  /** The task whose first poll is running: it has a token and no map entry yet. */
  ghost function BeingBorn(s: State): set<Token>
  {
    if s.pc.Polling? && s.pc.first then {s.pc.task} else {}
  }

  ghost predicate Lifecycle(s: State)
  {
    && s.counter == s.spawned % U32_SIZE
    && (s.spawned <= MAX_TASKS ==> Partitioned(s))
  }

  ghost predicate Partitioned(s: State)
  {
    && (forall t: Token :: t < s.spawned <==> t in s.tasks || t in s.finished || t in BeingBorn(s))
    && s.tasks.Keys !! s.finished
    && s.tasks.Keys !! BeingBorn(s)
    && s.finished !! BeingBorn(s)
    && (s.pc.Polling? && !s.pc.first ==> s.pc.task in s.tasks && s.tasks[s.pc.task] == s.pc.future)
  }

  lemma BirthKeepsLifecycle(s: State, f: Future)
    requires Lifecycle(s) && !s.pc.Polling?
    ensures Lifecycle(Born(s, f))
  {
  }

  lemma EndKeepsLifecycle(s: State, ready: bool)
    requires Lifecycle(s) && s.pc.Polling?
    ensures Lifecycle(StepEnd(s, ready))
  {
  }

  lemma LifecycleKept(s: State, a: Action, s': State)
    requires Lifecycle(s) && Next(s, a, s')
    ensures Lifecycle(s')
  {
    if a.NextSpawn? && s.spawns.vals != [] {
      BirthKeepsLifecycle(s.(spawns := Pop(s.spawns)), Newest(s.spawns));
    } else if a.EndPoll? {
      EndKeepsLifecycle(s, a.ready);
    } else {
      assert s'.tasks == s.tasks && s'.finished == s.finished && BeingBorn(s') == BeingBorn(s);
    }
  }

  /** In every run of at most 2^32 - 2 spawns, the tokens below the counter are
      partitioned into live tasks, finished tasks and the one being polled for
      the first time. */
  lemma TaskLifecycle(r: Run<State, Action>, i: nat)
    requires IsRun(Init, Next, r) && i < |r.states|
    ensures Lifecycle(r.states[i])
  {
    forall s | Init(s) ensures Lifecycle(s) {
    }
    forall s, a, s' | Lifecycle(s) && Next(s, a, s') ensures Lifecycle(s') {
      LifecycleKept(s, a, s');
    }
    InvariantHolds(Init, Next, Lifecycle, r, i);
  }

  /** The action starts a poll of the task t. */
  ghost predicate StartsPoll(s: State, a: Action, t: Token)
  {
    || (a.NextWake? && s.wakes.vals != [] && Newest(s.wakes) == t && t in s.tasks)
    || (a.NextSpawn? && s.spawns.vals != [] && s.counter == t)
  }

  /** No future is polled after it returned Ready; a first poll is under a token
      that no task had before and that is none of the sentinels; and a wake for a
      finished task does nothing but leave the queue. */
  lemma TokensAreSound(r: Run<State, Action>, i: nat, t: Token)
    requires IsRun(Init, Next, r) && i < |r.acts| && r.states[i + 1].spawned <= MAX_TASKS
    ensures var s, a, s' := r.states[i], r.acts[i], r.states[i + 1];
            && (StartsPoll(s, a, t) ==> t !in s.finished && s'.pc.Polling? && s'.pc.task == t)
            && (StartsPoll(s, a, t) && a.NextSpawn? ==>
                  t !in s.tasks && t != THREAD_TOKEN && t != NOTIFICATION_READY && t != NOTIFICATION_UNINIT)
            && (a.NextWake? && s.wakes.vals != [] && Newest(s.wakes) in s.finished ==> s' == s.(wakes := Pop(s.wakes)))
  {
    TaskLifecycle(r, i);
    var s, a := r.states[i], r.acts[i];
    assert Next(s, a, r.states[i + 1]);
    assert t < s.spawned <==> t in s.tasks || t in s.finished || t in BeingBorn(s);
  }

  /** The future that a spawn takes off the queue is the one that is polled ever after
      under the token it is given, in its first poll and whenever the task is woken;
      and no other is kept under that token. */
  lemma {:induction false} TaskKeepsItsFuture(r: Run<State, Action>, k: nat, j: nat)
    requires IsRun(Init, Next, r) && k < j < |r.states| && r.states[j].spawned <= MAX_TASKS
    requires r.acts[k].NextSpawn? && r.states[k].spawns.vals != []
    ensures var t, f, s := r.states[k].counter, Newest(r.states[k].spawns), r.states[j];
            && t == r.states[k].spawned < s.spawned
            && (s.pc.Polling? && s.pc.task == t ==> s.pc.future == f)
            && (t in s.tasks ==> s.tasks[t] == f)
    ensures j == k + 1 ==> r.states[j].pc == Polling(r.states[k].counter, Newest(r.states[k].spawns), true)
  {
    assert Next(r.states[j - 1], r.acts[j - 1], r.states[j - 1 + 1]);
    TaskLifecycle(r, j - 1);
    if j == k + 1 {
      assert r.states[k].counter !in r.states[k].tasks;
    } else {
      TaskKeepsItsFuture(r, k, j - 1);
    }
  }

  /** The task started after n others polls under n modulo 2^32, in every run; so a
      token is a sentinel if and only if n modulo 2^32 is one of the two last. */
  lemma SentinelTokensExactly(r: Run<State, Action>, i: nat, t: Token)
    requires IsRun(Init, Next, r) && i < |r.acts| && r.acts[i].NextSpawn? && StartsPoll(r.states[i], r.acts[i], t)
    ensures t == r.states[i].spawned % U32_SIZE
    ensures t == NOTIFICATION_READY || t == NOTIFICATION_UNINIT || t == THREAD_TOKEN
       <==> r.states[i].spawned % U32_SIZE >= MAX_TASKS
  {
    TaskLifecycle(r, i);
  }

  /** Waiting, with nothing queued and nothing half added. */
  ghost predicate Idle(s: State)
  {
    s.pc == Waiting && s.wakes == Queue([], 0) && s.spawns == Queue([], 0) && s.waking == 0 && s.spawning == 0
  }

  /** From an idle state the next spawn brings a first poll under the counter. */
  lemma SpawnOne(s: State) returns (s': State)
    requires Reachable(Init, Next, s) && Idle(s)
    ensures Reachable(Init, Next, s') && s'.pc == Polling(s.counter, 0, true)
    ensures s'.spawned == s.spawned + 1 && s'.wakes == s'.spawns == Queue([], 0) && s'.waking == s'.spawning == 0
  {
    var s1 := s.(spawns := Queue([0], 0), spawning := 1, submitted := s.submitted + multiset{0});
    var s2 := s1.(spawns := Queue([0], 1), spawning := 0);
    var s3 := s2.(spawns := Queue([0], 0), pc := DrainingSpawns);
    s' := Born(s3.(spawns := Queue([], 0)), 0);
    Extend(Init, Next, s, PushSpawn(0), s1);
    Extend(Init, Next, s1, ReleaseSpawn, s2);
    Extend(Init, Next, s2, WaitSpawn, s3);
    assert Pop(s3.spawns) == Queue([], 0);
    Extend(Init, Next, s3, NextSpawn, s');
  }

  lemma {:induction false} SpawnMany(n: nat) returns (s: State)
    ensures Reachable(Init, Next, s) && Idle(s) && s.spawned == n
  {
    if n == 0 {
      s := State(Waiting, Queue([], 0), 0, Queue([], 0), 0, 0, map[], 0, {}, multiset{}, multiset{});
      Start<State, Action>(Init, Next, s);
    } else {
      var before := SpawnMany(n - 1);
      var polling := SpawnOne(before);
      var ended := StepEnd(polling, true);
      Extend(Init, Next, polling, EndPoll(true), ended);
      s := ended.(pc := Waiting);
      Extend(Init, Next, ended, NextSpawn, s);
    }
  }

  /** Each of those tokens is real: every count of spawns is reached, and the task
      started after n others is polled under n modulo 2^32. In particular the task
      started after 2^32 - 2 others is polled under the value of READY. */
  lemma SentinelIsReached(n: nat) returns (s: State)
    ensures Reachable(Init, Next, s) && s.pc.Polling? && s.pc.first && s.spawned == n + 1
    ensures s.pc.task == n % U32_SIZE
    ensures n == MAX_TASKS ==> s.pc.task == NOTIFICATION_READY
  {
    var before := SpawnMany(n);
    var r :| EndsIn(Init, Next, before, r);
    TaskLifecycle(r, |r.acts|);
    s := SpawnOne(before);
  }

  // ----- No wake is dropped -----

  /** The task has a token and its future has not returned Ready. */
  ghost predicate Unfinished(s: State, t: Token)
  {
    t < s.spawned && t !in s.finished
  }

  /** What has become, by state j, of the wake for t pushed by action i. */
  ghost predicate Honoured(r: Run<State, Action>, i: nat, j: nat, t: Token)
    requires i < j < |r.states| && |r.states| == |r.acts| + 1
  {
    || t in r.states[j].wakes.vals
    || t in r.states[j].finished
    || exists k :: i < k < j && StartsPoll(r.states[k], r.acts[k], t)
  }

  lemma {:induction false} WakesAreHonoured(r: Run<State, Action>, i: nat, j: nat, t: Token)
    requires IsRun(Init, Next, r) && i < j < |r.states|
    requires r.acts[i] == PushWake(t) && Unfinished(r.states[i], t)
    requires r.states[j].spawned <= MAX_TASKS
    ensures t < r.states[j].spawned && Honoured(r, i, j, t)
  {
    var k := j - 1;
    var s, s' := r.states[k], r.states[k + 1];
    assert Next(s, r.acts[k], s');
    if i == k {
      assert s'.wakes.vals[|s.wakes.vals|] == t;
    } else {
      WakesAreHonoured(r, i, k, t);
      if s.wakes.vals != [] && t in s.wakes.vals && t !in s'.wakes.vals {
        TaskLifecycle(r, k);
        assert StartsPoll(s, r.acts[k], t) || t in s.finished;
      }
    }
  }

  /** Every token pushed for an unfinished task, be it during that task's first
      poll, is answered before the executor next comes to wait with no wakes
      queued: the task is polled, by a poll that starts after the push, or its
      future has returned Ready. */
  lemma NoWakeDropped(r: Run<State, Action>, i: nat, j: nat, t: Token)
    requires IsRun(Init, Next, r) && i < j < |r.states|
    requires r.acts[i] == PushWake(t) && Unfinished(r.states[i], t)
    requires r.states[j].spawned <= MAX_TASKS
    requires r.states[j].pc == Waiting && r.states[j].wakes.vals == []
    ensures t in r.states[j].finished || exists k :: i < k < j && StartsPoll(r.states[k], r.acts[k], t)
  {
    WakesAreHonoured(r, i, j, t);
  }
}
