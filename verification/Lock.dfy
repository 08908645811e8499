/** The mutex shared by threads and tasks (src/sync.rs).

    One signed word says both whether the lock is held (its sign) and how many
    participants are registered (its magnitude); a list of waiters says whom an
    unlock has to wake. Tasks wait under their own token and are woken through the
    executor. Threads all wait under one token and sleep in the kernel's address
    arbiter, which knows nothing of the list: a signal resumes one of the threads
    asleep there, or nobody. Each method of the lock is one step, and so is a
    thread's entry into the arbiter. */
module Lock {
  import opened Runs
  import opened Tokens
  import opened Collections

  /** The lock word and the waiter list. The list's entries are tokens in the
      program and the participants themselves in the step system. */
  datatype Core<W> = Core(word: int, waiters: seq<W>)

  function AfterRegister<W>(l: Core<W>, w: W): (Core<W>, bool)
  {
    if l.word > 0 then (l.(word := -l.word), true)
    else (Core(l.word - 1, l.waiters + [w]), false)
  }

  function AfterRetry<W>(l: Core<W>): (Core<W>, bool)
  {
    if l.word > 0 then (l.(word := -(l.word - 1)), true) else (l, false)
  }

  /** The unlocked word, and the waiter to wake, if one is listed. */
  function AfterUnlock<W>(l: Core<W>): (Core<W>, Option<W>)
  {
    if l.word >= 0 then (l, None)
    else if l.waiters == [] then (l.(word := -l.word), None)
    else (Core(-l.word, l.waiters[1..]), Some(l.waiters[0]))
  }

  // ----- The step system: any number of threads and tasks on one lock -----

  /** One acquisition, by a blocked thread or by a `LockFut` of a task. */
  datatype Party = Thread(id: nat) | Task(id: nat, token: Token)

  /** The task has the token that stands for all threads. */
  ghost predicate Misread(p: Party)
  {
    p.Task? && p.token == THREAD_TOKEN
  }

  /** Popping the party's entry signals the arbiter, rather than waking a task. */
  ghost predicate ByArbiter(p: Party)
  {
    p.Thread? || Misread(p)
  }

  /** `used`: every party that ever called lock; `pending`: registered, not yet
      acquired; `guards`: holding a guard; `woken`: tasks popped by an unlock, whose
      wake has not yet had them polled; `parked`: threads asleep in the arbiter, in the order
      in which they went to sleep; `resumed`: threads whose wait has returned and
      that are about to retry. A pending thread that is in neither is about to
      wait. `arrived` and `granted` record the order in which parties registered
      and in which registered parties acquired; `handoff` is the party whose entry
      was popped since the last acquisition. */
  datatype State = State(
    lock: Core<Party>,
    used: set<Party>,
    pending: set<Party>,
    guards: set<Party>,
    woken: set<Party>,
    parked: seq<Party>,
    resumed: set<Party>,
    arrived: seq<Party>,
    granted: seq<Party>,
    handoff: Option<Party>)

  /** Which of the parked threads a signal resumes is the kernel's choice. A task may
      be polled for any reason: `woke` says that the wake of an unlock did it, and
      is spent. */
  datatype Action =
    | DoLock(p: Party)
    | DoPark(p: Party)
    | DoRetry(p: Party, woke: bool)
    | DoUnlock(p: Party, choice: nat)

  ghost predicate Init(s: State)
  {
    s == State(Core(1, []), {}, {}, {}, {}, [], {}, [], [], None)
  }

  /** A thread retries when its wait has returned; a task whenever it is polled. */
  ghost predicate Enabled(s: State, a: Action)
  {
    match a
    case DoLock(p) => p !in s.used
    case DoPark(p) => AboutToWait(s, p)
    case DoRetry(p, woke) => p in s.pending && (p.Thread? ==> p in s.resumed) && (woke ==> p in s.woken)
    case DoUnlock(p, choice) => p in s.guards && (s.parked != [] ==> choice < |s.parked|)
  }

  ghost predicate AboutToWait(s: State, p: Party)
  {
    p.Thread? && p in s.pending && p !in s.parked && p !in s.resumed
  }

  ghost function StepLock(s: State, p: Party): State
  {
    var (l, locked) := AfterRegister(s.lock, p);
    if locked then s.(lock := l, used := s.used + {p}, guards := s.guards + {p}, handoff := None)
    else s.(lock := l, used := s.used + {p}, pending := s.pending + {p}, arrived := s.arrived + [p])
  }

  /** The arbiter puts the thread to sleep if the word is less than 0. */
  ghost function StepPark(s: State, p: Party): State
  {
    if s.lock.word < 0 then s.(parked := s.parked + [p]) else s.(resumed := s.resumed + {p})
  }

  ghost function StepRetry(s: State, p: Party, woke: bool): State
  {
    var (l, locked) := AfterRetry(s.lock);
    var s' := s.(lock := l, woken := if woke then s.woken - {p} else s.woken, resumed := s.resumed - {p});
    if locked then
      s'.(pending := s.pending - {p}, guards := s.guards + {p}, granted := s.granted + [p], handoff := None)
    else s'
  }

  /** A signal resumes a parked thread, if there is one. */
  ghost function Signalled(s: State, choice: nat): State
    requires s.parked != [] ==> choice < |s.parked|
  {
    if s.parked == [] then s
    else s.(parked := Without(s.parked, choice), resumed := s.resumed + {s.parked[choice]})
  }

  ghost function StepUnlock(s: State, p: Party, choice: nat): State
    requires s.parked != [] ==> choice < |s.parked|
  {
    var (l, wake) := AfterUnlock(s.lock);
    var s' := s.(lock := l, guards := s.guards - {p});
    match wake
    case None => s'
    case Some(w) =>
      if ByArbiter(w) then Signalled(s'.(handoff := wake), choice) else s'.(handoff := wake, woken := s.woken + {w})
  }

  ghost function Step(s: State, a: Action): State
    requires Enabled(s, a)
  {
    match a
    case DoLock(p) => StepLock(s, p)
    case DoPark(p) => StepPark(s, p)
    case DoRetry(p, woke) => StepRetry(s, p, woke)
    case DoUnlock(p, choice) => StepUnlock(s, p, choice)
  }

  ghost predicate Next(s: State, a: Action, s': State)
  {
    Enabled(s, a) && s' == Step(s, a)
  }

  ghost predicate Locked(s: State)
  {
    s.lock.word < 0
  }

  /** The action gives its party a guard. */
  ghost predicate Acquires(s: State, a: Action)
  {
    (a.DoLock? || a.DoRetry?) && s.lock.word > 0
  }

  // ----- Mutual exclusion by counting -----

  ghost function Magnitude(word: int): nat
  {
    if word < 0 then -word else word
  }

  ghost predicate Counting(s: State)
  {
    && s.pending <= s.used && s.guards <= s.used
    && s.lock.word != 0
    && |s.guards| == (if Locked(s) then 1 else 0)
    && Magnitude(s.lock.word) == |s.pending| + 1
    && (s.lock.waiters == [] || |s.lock.waiters| <= |s.pending| - (if Locked(s) then 0 else 1))
  }

  lemma LockKeepsCounting(s: State, p: Party)
    requires Counting(s) && Enabled(s, DoLock(p))
    ensures Counting(StepLock(s, p))
  {
  }

  lemma RetryKeepsCounting(s: State, p: Party, woke: bool)
    requires Counting(s) && p in s.pending
    ensures Counting(StepRetry(s, p, woke))
  {
  }

  lemma UnlockKeepsCounting(s: State, p: Party, choice: nat)
    requires Counting(s) && Enabled(s, DoUnlock(p, choice))
    ensures Counting(StepUnlock(s, p, choice))
  {
  }

  lemma CountingKept(s: State, a: Action, s': State)
    requires Counting(s) && Next(s, a, s')
    ensures Counting(s')
  {
    match a
    case DoLock(p) => LockKeepsCounting(s, p);
    case DoPark(p) =>
    case DoRetry(p, woke) => RetryKeepsCounting(s, p, woke);
    case DoUnlock(p, choice) => UnlockKeepsCounting(s, p, choice);
  }

  /** Parked and resumed threads are pending threads, and no thread is both. */
  ghost predicate Arbiter(s: State)
  {
    && Distinct(s.parked)
    && (forall p :: p in s.parked ==> p.Thread? && p in s.pending && p !in s.resumed)
    && (forall p :: p in s.resumed ==> p.Thread? && p in s.pending)
  }

  lemma ArbiterKept(s: State, a: Action, s': State)
    requires Arbiter(s) && Next(s, a, s')
    ensures Arbiter(s')
  {
    if a.DoUnlock? && s.parked != [] {
      WithoutDistinct(s.parked, a.choice);
    }
  }

  /** Nobody is listed twice, and no task under the threads' token is ever woken. */
  ghost predicate Listed(s: State)
  {
    && Distinct(s.lock.waiters)
    && (forall p :: p in s.lock.waiters ==> p in s.used)
    && (forall p :: p in s.woken ==> p in s.used && !ByArbiter(p))
  }

  lemma ListedKept(s: State, a: Action, s': State)
    requires Listed(s) && Next(s, a, s')
    ensures Listed(s')
  {
    if a.DoLock? {
      AppendDistinct(s.lock.waiters, a.p);
    }
  }

  ghost predicate Inv(s: State)
  {
    Counting(s) && Arbiter(s) && Listed(s)
  }

  lemma InvKept(s: State, a: Action, s': State)
    requires Inv(s) && Next(s, a, s')
    ensures Inv(s')
  {
    CountingKept(s, a, s');
    ArbiterKept(s, a, s');
    ListedKept(s, a, s');
  }

  lemma InvAlways(r: Run<State, Action>, i: nat)
    requires IsRun(Init, Next, r) && i < |r.states|
    ensures Inv(r.states[i])
  {
    forall s, a, s' | Inv(s) && Next(s, a, s') ensures Inv(s') {
      InvKept(s, a, s');
    }
    InvariantHolds(Init, Next, Inv, r, i);
  }

  /** In every run the word is never 0, it is negative exactly while there is a
      guard, and then there is exactly one; its magnitude counts the registered
      parties; and the waiter list never outgrows it, whoever barges in and
      however often a pending party is polled. */
  lemma MutualExclusion(r: Run<State, Action>, i: nat)
    requires IsRun(Init, Next, r) && i < |r.states|
    ensures var s := r.states[i];
            && s.lock.word != 0
            && (s.lock.word < 0 <==> s.guards != {})
            && (forall p, q :: p in s.guards && q in s.guards ==> p == q)
            && Magnitude(s.lock.word) - 1 == |s.pending|
            && (s.lock.word < 0 ==> |s.lock.waiters| <= Magnitude(s.lock.word) - 1)
            && (s.lock.word > 0 ==> s.lock.waiters == [] || |s.lock.waiters| <= Magnitude(s.lock.word) - 2)
  {
    InvAlways(r, i);
    AtMostOne(r.states[i].guards);
  }

  /** No store to the word leaves the range of an `i32` until 2^31 - 1 parties
      have called lock: until then no addition or negation wraps. */
  lemma WordFits(r: Run<State, Action>, i: nat)
    requires IsRun(Init, Next, r) && i < |r.states|
    requires |r.states[i].used| < 0x7FFF_FFFF
    ensures -0x8000_0000 < r.states[i].lock.word < 0x8000_0000
  {
    InvAlways(r, i);
    SubsetSize(r.states[i].pending, r.states[i].used);
  }

  /** An unlock always finds a negative word, so the branch in which it would do
      nothing is dead, and the decremented word that a successful retry stores is
      never 0. */
  lemma NoDeadBranch(r: Run<State, Action>, i: nat)
    requires IsRun(Init, Next, r) && i < |r.acts|
    ensures r.acts[i].DoUnlock? ==> r.states[i].lock.word < 0
    ensures r.acts[i].DoRetry? && AfterRetry(r.states[i].lock).1 ==> AfterRetry(r.states[i].lock).0.word < 0
  {
    InvAlways(r, i);
    assert Next(r.states[i], r.acts[i], r.states[i + 1]);
  }

  // ----- Exactly when a waiter is stranded -----

  /** The entries of a waiter list that signal the arbiter, or the others. */
  ghost function Only(ws: seq<Party>, arbiter: bool): seq<Party>
  {
    if ws == [] then []
    else (if ByArbiter(ws[0]) == arbiter then [ws[0]] else []) + Only(ws[1..], arbiter)
  }

  lemma {:induction false} OnlySplits(ws: seq<Party>)
    ensures |Only(ws, true)| + |Only(ws, false)| == |ws|
    ensures forall p, b :: p in Only(ws, b) <==> p in ws && ByArbiter(p) == b
  {
    if ws == [] {
    } else {
      OnlySplits(ws[1..]);
      assert ws == [ws[0]] + ws[1..];
    }
  }

  lemma {:induction false} OnlyAppend(ws: seq<Party>, p: Party, arbiter: bool)
    ensures Only(ws + [p], arbiter) == Only(ws, arbiter) + (if ByArbiter(p) == arbiter then [p] else [])
  {
    if ws == [] {
      assert ws + [p] == [p];
      assert Only([p][1..], arbiter) == [];
    } else {
      OnlyAppend(ws[1..], p, arbiter);
      assert (ws + [p])[1..] == ws[1..] + [p];
    }
  }

  /** How many signals the list still has in it. */
  ghost function Signals(s: State): nat
  {
    |Only(s.lock.waiters, true)|
  }

  /** A task that no unlock will wake: not in the list, no wake coming. */
  ghost predicate StrandedTask(s: State, p: Party)
  {
    p.Task? && p in s.pending && p !in s.lock.waiters && p !in s.woken
  }

  /** No task is stranded, and there are no more threads asleep than the list has
      signals: the surplus would be stranded. */
  ghost predicate NoneStranded(s: State)
  {
    (forall p :: !StrandedTask(s, p)) && |s.parked| <= Signals(s)
  }

  /** A task's retry that finds the lock held again, when the task is not listed and
      no wake for it is still to come. */
  ghost predicate LostRetry(s: State, a: Action)
  {
    a.DoRetry? && a.p.Task? && s.lock.word <= 0 && a.p !in s.lock.waiters && (a.woke || a.p !in s.woken)
  }

  /** A thread that goes to sleep when every signal in the list is already needed
      for another one that sleeps. */
  ghost predicate LostPark(s: State, a: Action)
  {
    a.DoPark? && s.lock.word < 0 && |s.parked| >= Signals(s)
  }

  /** An unlock that pops a waiting task and signals the arbiter instead of waking it. */
  ghost predicate LostPop(s: State, a: Action)
  {
    a.DoUnlock? && s.lock.word < 0 && s.lock.waiters != [] && Misread(s.lock.waiters[0])
    && s.lock.waiters[0] in s.pending
  }

  ghost predicate Loses(s: State, a: Action)
  {
    LostRetry(s, a) || LostPark(s, a) || LostPop(s, a)
  }

  lemma TaskStrandingStep(s: State, a: Action, s': State)
    requires Listed(s) && Next(s, a, s') && forall p :: !StrandedTask(s, p)
    ensures (forall p :: !StrandedTask(s', p)) <==> !LostRetry(s, a) && !LostPop(s, a)
  {
    if LostRetry(s, a) {
      assert StrandedTask(s', a.p);
    } else if LostPop(s, a) {
      assert StrandedTask(s', s.lock.waiters[0]);
    } else {
      forall p ensures !StrandedTask(s', p) {
        assert !StrandedTask(s, p);
      }
    }
  }

  lemma ThreadStrandingStep(s: State, a: Action, s': State)
    requires Next(s, a, s') && |s.parked| <= Signals(s)
    ensures |s'.parked| <= Signals(s') <==> !LostPark(s, a)
  {
    if a.DoLock? {
      OnlyAppend(s.lock.waiters, a.p, true);
    }
  }

  lemma ListedAlways(r: Run<State, Action>, i: nat)
    requires IsRun(Init, Next, r) && i < |r.states|
    ensures Listed(r.states[i]) && r.states[i].pending <= r.states[i].used
  {
    InvAlways(r, i);
  }

  /** A run strands nobody if and only if no retry, no park and no pop of it is lost. */
  lemma {:induction false} StrandingExactly(r: Run<State, Action>, n: nat)
    requires IsRun(Init, Next, r) && n < |r.states|
    ensures (forall i :: 0 <= i <= n ==> NoneStranded(r.states[i]))
       <==> (forall i :: 0 <= i < n ==> !Loses(r.states[i], r.acts[i]))
  {
    if n == 0 {
    } else {
      StrandingExactly(r, n - 1);
      var s, a, s' := r.states[n - 1], r.acts[n - 1], r.states[n - 1 + 1];
      assert Next(s, a, s');
      if NoneStranded(s) {
        ListedAlways(r, n - 1);
        TaskStrandingStep(s, a, s');
        ThreadStrandingStep(s, a, s');
      }
    }
  }

  /** The action strands the task p: its own lost retry, or the lost pop of its entry. */
  ghost predicate Strands(s: State, a: Action, p: Party)
  {
    (LostRetry(s, a) && a.p == p) || (LostPop(s, a) && s.lock.waiters[0] == p)
  }

  /** Every stranded task was stranded by one of the two. */
  lemma {:induction false} StrandedByLoss(r: Run<State, Action>, n: nat, p: Party) returns (k: nat)
    requires IsRun(Init, Next, r) && n < |r.states| && StrandedTask(r.states[n], p)
    ensures k < n && Strands(r.states[k], r.acts[k], p)
  {
    if n == 0 {
      assert false;
    } else {
      assert Next(r.states[n - 1], r.acts[n - 1], r.states[n - 1 + 1]);
      if StrandedTask(r.states[n - 1], p) {
        k := StrandedByLoss(r, n - 1, p);
      } else {
        k := n - 1;
      }
    }
  }

  /** In every run, an unlock that pops the entry of a waiting task strands the task
      if its token is u32::MAX, and otherwise has a wake coming for it. */
  lemma PopWakesExactly(r: Run<State, Action>, i: nat)
    requires IsRun(Init, Next, r) && i < |r.acts| && r.acts[i].DoUnlock?
    requires r.states[i].lock.waiters != []
    requires r.states[i].lock.waiters[0].Task? && r.states[i].lock.waiters[0] in r.states[i].pending
    ensures var w := r.states[i].lock.waiters[0];
            && (StrandedTask(r.states[i + 1], w) <==> w.token == THREAD_TOKEN)
            && (w in r.states[i + 1].woken <==> w.token != THREAD_TOKEN)
  {
    InvAlways(r, i);
    assert Next(r.states[i], r.acts[i], r.states[i + 1]);
  }

  /** Somebody who is awake will try for the lock: a thread that does not sleep, or
      a task with a wake coming. */
  ghost predicate Moving(s: State, p: Party)
  {
    p in s.pending && if p.Thread? then p !in s.parked else p in s.woken
  }

  /** In every run that loses nothing, whoever barged in: a free lock that somebody
      still waits for has one of those waiting on the move, unless the entry of a task
      under the threads' token is listed. */
  lemma NoDeadlock(r: Run<State, Action>, i: nat)
    requires IsRun(Init, Next, r) && i < |r.states|
    requires forall k :: 0 <= k < i ==> !Loses(r.states[k], r.acts[k])
    requires r.states[i].lock.word > 0 && r.states[i].pending != {}
    ensures (exists p :: Moving(r.states[i], p)) || exists p :: p in r.states[i].lock.waiters && Misread(p)
  {
    InvAlways(r, i);
    StrandingExactly(r, i);
    if forall p :: p in r.states[i].lock.waiters ==> !Misread(p) {
      SomebodyMoves(r.states[i]);
    }
  }

  lemma SomebodyMoves(s: State)
    requires Inv(s) && NoneStranded(s) && s.lock.word > 0 && s.pending != {}
    requires forall p :: p in s.lock.waiters ==> !Misread(p)
    ensures exists p :: Moving(s, p)
  {
    var tasks := set p | p in s.pending && p.Task?;
    var threads := set p | p in s.pending && p.Thread?;
    assert tasks + threads == s.pending && tasks !! threads;
    OnlySplits(s.lock.waiters);
    var p: Party;
    if |Only(s.lock.waiters, false)| < |tasks| {
      p := Unlisted(Only(s.lock.waiters, false), tasks);
      assert !StrandedTask(s, p);
    } else {
      p := Unlisted(s.parked, threads);
    }
    assert Moving(s, p);
  }

  // A stranding lasts.

  lemma StrandedTaskKept(s: State, a: Action, s': State, p: Party)
    requires p in s.used && Next(s, a, s') && StrandedTask(s, p) && a != DoRetry(p, false)
    ensures StrandedTask(s', p)
  {
  }

  /** A stranded task stays so, whatever the others do, until something other than
      the wake of an unlock has it polled. */
  lemma {:induction false} StrandedForGood(r: Run<State, Action>, i: nat, j: nat, p: Party)
    requires IsRun(Init, Next, r) && i <= j < |r.states|
    requires StrandedTask(r.states[i], p)
    requires forall k :: i <= k < j ==> r.acts[k] != DoRetry(p, false)
    ensures StrandedTask(r.states[j], p)
  {
    if i == j {
    } else {
      StrandedForGood(r, i, j - 1, p);
      ListedAlways(r, j - 1);
      assert Next(r.states[j - 1], r.acts[j - 1], r.states[j - 1 + 1]);
      StrandedTaskKept(r.states[j - 1], r.acts[j - 1], r.states[j], p);
    }
  }

  lemma SurplusKept(s: State, a: Action, s': State)
    requires Next(s, a, s') && !(a.DoLock? && ByArbiter(a.p))
    ensures |s'.parked| - Signals(s') >= |s.parked| - Signals(s)
  {
    if a.DoLock? {
      OnlyAppend(s.lock.waiters, a.p, true);
    }
  }

  /** As long as no further thread, or task under the threads' token, registers, the surplus of sleeping threads over
      signals does not shrink: at least that many sleep on, whichever the arbiter
      resumes. */
  lemma {:induction false} SurplusForGood(r: Run<State, Action>, i: nat, j: nat)
    requires IsRun(Init, Next, r) && i <= j < |r.states|
    requires forall k :: i <= k < j ==> !(r.acts[k].DoLock? && ByArbiter(r.acts[k].p))
    ensures |r.states[j].parked| >= |r.states[i].parked| - Signals(r.states[i])
    ensures |r.states[j].parked| - Signals(r.states[j]) >= |r.states[i].parked| - Signals(r.states[i])
  {
    if i == j {
    } else {
      SurplusForGood(r, i, j - 1);
      assert Next(r.states[j - 1], r.acts[j - 1], r.states[j - 1 + 1]);
      SurplusKept(r.states[j - 1], r.acts[j - 1], r.states[j]);
    }
  }

  /** A fresh lock taken between an unlock and the retry of the task it popped does
      strand that task, even after everybody else is gone. */
  lemma BargingStrandsTask() returns (s: State, p: Party)
    ensures Reachable(Init, Next, s)
    ensures StrandedTask(s, p) && s.lock.word > 0 && s.guards == {} && s.pending == {p}
  {
    var a, b, c := Task(0, 0), Task(1, 1), Task(2, 2);
    var s0 := State(Core(1, []), {}, {}, {}, {}, [], {}, [], [], None);
    var s1 := s0.(lock := Core(-1, []), used := {a}, guards := {a});
    var s2 := s1.(lock := Core(-2, [b]), used := {a, b}, pending := {b}, arrived := [b]);
    var s3 := s2.(lock := Core(2, []), guards := {}, woken := {b}, handoff := Some(b));
    var s4 := s3.(lock := Core(-2, []), used := {a, b, c}, guards := {c}, handoff := None);
    var s5 := s4.(woken := {});
    s, p := s5.(lock := Core(2, []), guards := {}), b;
    Start<State, Action>(Init, Next, s0);
    Extend(Init, Next, s0, DoLock(a), s1);
    Extend(Init, Next, s1, DoLock(b), s2);
    Extend(Init, Next, s2, DoUnlock(a, 0), s3);
    Extend(Init, Next, s3, DoLock(c), s4);
    Extend(Init, Next, s4, DoRetry(b, true), s5);
    Extend(Init, Next, s5, DoUnlock(c, 0), s);
  }

  /** A thread whose entry is popped before it sleeps, and which sleeps after a fresh
      lock was taken, sleeps on a free lock with nobody left to signal it. */
  lemma EarlySignalStrandsThread() returns (s: State, p: Party)
    ensures Reachable(Init, Next, s)
    ensures s.parked == [p] && s.lock == Core(2, []) && s.guards == {} && s.pending == {p}
  {
    var h, t, c := Task(0, 0), Thread(1), Task(2, 2);
    var s0 := State(Core(1, []), {}, {}, {}, {}, [], {}, [], [], None);
    var s1 := s0.(lock := Core(-1, []), used := {h}, guards := {h});
    var s2 := s1.(lock := Core(-2, [t]), used := {h, t}, pending := {t}, arrived := [t]);
    var s3 := s2.(lock := Core(2, []), guards := {}, handoff := Some(t));
    var s4 := s3.(lock := Core(-2, []), used := {h, t, c}, guards := {c}, handoff := None);
    var s5 := s4.(parked := [t]);
    s, p := s5.(lock := Core(2, []), guards := {}), t;
    Start<State, Action>(Init, Next, s0);
    Extend(Init, Next, s0, DoLock(h), s1);
    Extend(Init, Next, s1, DoLock(t), s2);
    Extend(Init, Next, s2, DoUnlock(h, 0), s3);
    Extend(Init, Next, s3, DoLock(c), s4);
    Extend(Init, Next, s4, DoPark(t), s5);
    Extend(Init, Next, s5, DoUnlock(c, 0), s);
  }

  /** A task under the threads' token is stranded by the first unlock, without any
      lost retry or park. */
  lemma MisreadTaskIsStranded() returns (s: State, p: Party)
    ensures Reachable(Init, Next, s)
    ensures StrandedTask(s, p) && Misread(p) && s.lock.word > 0 && s.pending == s.used - {Thread(0)} == {p}
  {
    var h, m := Thread(0), Task(1, THREAD_TOKEN);
    var s0 := State(Core(1, []), {}, {}, {}, {}, [], {}, [], [], None);
    var s1 := s0.(lock := Core(-1, []), used := {h}, guards := {h});
    var s2 := s1.(lock := Core(-2, [m]), used := {h, m}, pending := {m}, arrived := [m]);
    s, p := s2.(lock := Core(2, []), guards := {}, handoff := Some(m)), m;
    Start<State, Action>(Init, Next, s0);
    Extend(Init, Next, s0, DoLock(h), s1);
    Extend(Init, Next, s1, DoLock(m), s2);
    Extend(Init, Next, s2, DoUnlock(h, 0), s);
  }

  // ----- First come, first served, as long as nobody barges in -----

  /** Whenever an unlock has popped a party, that party is the next to acquire. */
  ghost predicate RespectsHandoff(r: Run<State, Action>)
    requires |r.states| == |r.acts| + 1
  {
    forall i :: 0 <= i < |r.acts| ==> Respectful(r.states[i], r.acts[i])
  }

  ghost predicate Retries(a: Action, p: Party)
  {
    a.DoRetry? && a.p == p
  }

  ghost predicate Respectful(s: State, a: Action)
  {
    Acquires(s, a) && s.handoff.Some? ==> Retries(a, s.handoff.value)
  }

  ghost function HandedOff(s: State): seq<Party>
  {
    if s.handoff.Some? then [s.handoff.value] else []
  }

  /** The pending parties in arrival order: the one handed the lock, then the list. */
  ghost function Line(s: State): seq<Party>
  {
    HandedOff(s) + s.lock.waiters
  }

  ghost predicate InOrder(s: State)
  {
    && Inv(s)
    && s.arrived == s.granted + Line(s)
    && (forall p :: p in s.pending <==> p in Line(s))
    && (s.handoff.Some? ==> !Locked(s))
    && (!Locked(s) && s.handoff == None ==> s.lock.waiters == [])
    && (s.handoff.Some? && !ByArbiter(s.handoff.value) ==> s.handoff.value in s.woken)
    && (forall p :: p in s.arrived ==> p in s.used)
    && Distinct(s.arrived)
  }

  lemma RegisterKeepsOrder(s: State, p: Party)
    requires InOrder(s) && Enabled(s, DoLock(p)) && Locked(s) && Inv(StepLock(s, p))
    ensures InOrder(StepLock(s, p))
  {
    var s' := StepLock(s, p);
    assert Line(s') == Line(s) + [p] && s'.arrived == s.arrived + [p];
    assert p !in s.arrived;
    AppendDistinct(s.arrived, p);
  }

  lemma LockKeepsOrder(s: State, p: Party)
    requires InOrder(s) && Enabled(s, DoLock(p)) && Respectful(s, DoLock(p)) && Inv(StepLock(s, p))
    ensures InOrder(StepLock(s, p))
  {
    if Locked(s) {
      RegisterKeepsOrder(s, p);
    } else {
      assert s.handoff == None && Line(StepLock(s, p)) == Line(s) == [];
    }
  }

  /** Whoever was handed the lock is the first of the line, and leaves it. */
  lemma FirstInLineAcquires(s: State, p: Party, woke: bool)
    requires InOrder(s) && Enabled(s, DoRetry(p, woke)) && Respectful(s, DoRetry(p, woke)) && !Locked(s)
    ensures var s' := StepRetry(s, p, woke);
            && s.handoff == Some(p) && s'.handoff == None && Locked(s')
            && Line(s) == [p] + Line(s') && p !in Line(s') && s'.arrived == s'.granted + Line(s')
  {
    var s' := StepRetry(s, p, woke);
    assert p in Line(s) && s.handoff == Some(p);
    assert Line(s) == [p] + Line(s');
    assert s'.granted + Line(s') == s.granted + Line(s);
    var n := |s.granted|;
    assert s.arrived[n] == p && s.arrived[n + 1..] == Line(s');
  }

  lemma RetryKeepsOrder(s: State, p: Party, woke: bool)
    requires InOrder(s) && Enabled(s, DoRetry(p, woke)) && Respectful(s, DoRetry(p, woke))
    requires Inv(StepRetry(s, p, woke))
    ensures InOrder(StepRetry(s, p, woke))
  {
    if Locked(s) {
      assert Line(StepRetry(s, p, woke)) == Line(s);
    } else {
      FirstInLineAcquires(s, p, woke);
    }
  }

  lemma UnlockKeepsOrder(s: State, p: Party, choice: nat)
    requires InOrder(s) && Enabled(s, DoUnlock(p, choice)) && Inv(StepUnlock(s, p, choice))
    ensures InOrder(StepUnlock(s, p, choice))
  {
    assert Line(StepUnlock(s, p, choice)) == Line(s);
  }

  lemma InOrderKept(s: State, a: Action, s': State)
    requires InOrder(s) && Next(s, a, s') && Respectful(s, a)
    ensures InOrder(s')
  {
    InvKept(s, a, s');
    match a
    case DoLock(p) => LockKeepsOrder(s, p);
    case DoPark(p) => assert Line(s') == Line(s);
    case DoRetry(p, woke) => RetryKeepsOrder(s, p, woke);
    case DoUnlock(p, choice) => UnlockKeepsOrder(s, p, choice);
  }

  lemma {:induction false} InOrderAlways(r: Run<State, Action>, i: nat)
    requires IsRun(Init, Next, r) && RespectsHandoff(r) && i < |r.states|
    ensures InOrder(r.states[i])
  {
    if i == 0 {
    } else {
      InOrderAlways(r, i - 1);
      assert Next(r.states[i - 1], r.acts[i - 1], r.states[i - 1 + 1]);
      assert Respectful(r.states[i - 1], r.acts[i - 1]);
      InOrderKept(r.states[i - 1], r.acts[i - 1], r.states[i]);
    }
  }

  /** In order, no retry and no park can be lost. */
  lemma InOrderLosesNothing(s: State, a: Action)
    requires InOrder(s) && Enabled(s, a)
    ensures !LostRetry(s, a) && !LostPark(s, a)
  {
    if a.DoPark? && Locked(s) {
      OnlySplits(s.lock.waiters);
      DistinctFits(s.parked + [a.p], Only(s.lock.waiters, true));
    }
  }

  lemma StepLosesNothing(r: Run<State, Action>, i: nat)
    requires IsRun(Init, Next, r) && RespectsHandoff(r) && i < |r.acts|
    ensures !LostRetry(r.states[i], r.acts[i]) && !LostPark(r.states[i], r.acts[i])
  {
    InOrderAlways(r, i);
    assert Next(r.states[i], r.acts[i], r.states[i + 1]);
    InOrderLosesNothing(r.states[i], r.acts[i]);
  }

  lemma {:induction false} SleepersHaveSignals(r: Run<State, Action>, i: nat)
    requires IsRun(Init, Next, r) && RespectsHandoff(r) && i < |r.states|
    ensures |r.states[i].parked| <= Signals(r.states[i])
  {
    if i == 0 {
    } else {
      SleepersHaveSignals(r, i - 1);
      StepLosesNothing(r, i - 1);
      assert Next(r.states[i - 1], r.acts[i - 1], r.states[i - 1 + 1]);
      ThreadStrandingStep(r.states[i - 1], r.acts[i - 1], r.states[i]);
    }
  }

  /** In every run that hands the lock to the party just popped, the waiter list
      holds exactly the pending parties in arrival order (after the one handed
      the lock), guards are granted to registered parties in the order in which
      they registered, and nobody is stranded but a task under the threads' token. */
  lemma FifoHandoff(r: Run<State, Action>, i: nat)
    requires IsRun(Init, Next, r) && RespectsHandoff(r) && i < |r.states|
    ensures var s := r.states[i];
            && s.arrived == s.granted + HandedOff(s) + s.lock.waiters
            && (forall p :: p in s.pending <==> p in HandedOff(s) + s.lock.waiters)
            && (forall p :: StrandedTask(s, p) ==> Misread(p) && s.handoff == Some(p))
            && |s.parked| <= Signals(s)
  {
    InOrderAlways(r, i);
    SleepersHaveSignals(r, i);
    var s := r.states[i];
    assert s.granted + Line(s) == s.arrived;
    forall p | StrandedTask(s, p) ensures Misread(p) && s.handoff == Some(p) {
      assert p in Line(s);
    }
  }

  // ----- When the arbiter's order is the list's -----

  /** A thread that has registered goes to sleep before anything else happens, as
      when it is not preempted, the arbiter resumes whoever slept first, and no task
      has the threads' token. */
  ghost predicate Prompt(s: State, a: Action)
  {
    && (forall p :: AboutToWait(s, p) ==> a == DoPark(p))
    && (a.DoUnlock? ==> a.choice == 0)
    && (a.DoLock? ==> !Misread(a.p))
  }

  ghost predicate AllPrompt(r: Run<State, Action>)
    requires |r.states| == |r.acts| + 1
  {
    forall i :: 0 <= i < |r.acts| ==> Prompt(r.states[i], r.acts[i])
  }

  /** The sleeping threads are the listed ones, in order, except for one that may
      have just registered, with the lock held, and is about to sleep. */
  ghost predicate Aligned(s: State)
  {
    && (forall p :: p in s.lock.waiters ==> !Misread(p))
    && (forall p :: p in s.resumed ==> s.handoff == Some(p))
    && (forall p :: AboutToWait(s, p) ==> Locked(s) && s.parked + [p] == Only(s.lock.waiters, true))
    && ((forall p :: !AboutToWait(s, p)) ==> s.parked == Only(s.lock.waiters, true))
  }

  ghost predicate SameOrder(s: State)
  {
    InOrder(s) && Aligned(s)
  }

  lemma LockKeepsAligned(s: State, p: Party)
    requires Aligned(s) && Arbiter(s) && Enabled(s, DoLock(p)) && !Misread(p)
    requires s.pending <= s.used && s.lock.word != 0 && (!Locked(s) ==> s.handoff == None)
    requires forall q :: !AboutToWait(s, q)
    ensures Aligned(StepLock(s, p))
  {
    OnlyAppend(s.lock.waiters, p, true);
    forall q ensures AboutToWait(StepLock(s, p), q) ==> q == p {
      assert !AboutToWait(s, q);
    }
    assert Locked(s) && p.Thread? ==> AboutToWait(StepLock(s, p), p);
  }

  lemma ParkKeepsSameOrder(s: State, p: Party)
    requires SameOrder(s) && AboutToWait(s, p) && InOrder(StepPark(s, p))
    requires forall q :: AboutToWait(s, q) ==> q == p
    ensures SameOrder(StepPark(s, p))
  {
    forall q ensures !AboutToWait(StepPark(s, p), q) {
      assert AboutToWait(s, q) ==> q == p;
    }
  }

  lemma RetryKeepsSameOrder(s: State, p: Party, woke: bool)
    requires SameOrder(s) && Enabled(s, DoRetry(p, woke)) && InOrder(StepRetry(s, p, woke))
    requires forall q :: !AboutToWait(s, q)
    requires Respectful(s, DoRetry(p, woke))
    ensures SameOrder(StepRetry(s, p, woke))
  {
    forall q ensures !AboutToWait(StepRetry(s, p, woke), q) {
      assert !AboutToWait(s, q);
    }
  }

  /** The signal for a thread's entry resumes that thread. */
  lemma PoppedIsResumed(s: State, p: Party)
    requires Aligned(s) && s.handoff == None && Locked(s)
    requires Enabled(s, DoUnlock(p, 0)) && forall q :: !AboutToWait(s, q)
    requires s.lock.waiters != [] && s.lock.waiters[0].Thread?
    ensures var s', w := StepUnlock(s, p, 0), s.lock.waiters[0];
            s'.parked == Only(s'.lock.waiters, true) && s'.resumed == {w} && s'.handoff == Some(w)
  {
    var ws := s.lock.waiters;
    assert Only(ws, true) == [ws[0]] + Only(ws[1..], true);
    assert Without(s.parked, 0) == s.parked[1..] == Only(ws[1..], true);
    assert s.resumed == {};
  }

  /** Popping a task's entry leaves the sleepers alone. */
  lemma PoppedIsNoThread(s: State, p: Party)
    requires Aligned(s) && s.handoff == None && Locked(s)
    requires Enabled(s, DoUnlock(p, 0)) && forall q :: !AboutToWait(s, q)
    requires s.lock.waiters == [] || s.lock.waiters[0].Task?
    ensures var s' := StepUnlock(s, p, 0);
            s'.parked == s.parked == Only(s'.lock.waiters, true) && s'.resumed == s.resumed == {}
  {
    var ws := s.lock.waiters;
    if ws == [] {
    } else {
      assert !ByArbiter(ws[0]);
      assert Only(ws, true) == Only(ws[1..], true);
    }
  }

  lemma NobodyAboutToWait(s: State, p: Party)
    requires Enabled(s, DoUnlock(p, 0)) && forall q :: !AboutToWait(s, q)
    ensures forall q :: !AboutToWait(StepUnlock(s, p, 0), q)
  {
    var s' := StepUnlock(s, p, 0);
    forall q ensures !AboutToWait(s', q) {
      assert !AboutToWait(s, q);
    }
  }

  lemma UnlockKeepsAligned(s: State, p: Party)
    requires Aligned(s) && s.handoff == None && Locked(s)
    requires Enabled(s, DoUnlock(p, 0)) && forall q :: !AboutToWait(s, q)
    ensures Aligned(StepUnlock(s, p, 0))
  {
    NobodyAboutToWait(s, p);
    if s.lock.waiters != [] && s.lock.waiters[0].Thread? {
      PoppedIsResumed(s, p);
    } else {
      PoppedIsNoThread(s, p);
    }
  }

  lemma UnlockKeepsSameOrder(s: State, p: Party)
    requires SameOrder(s) && Enabled(s, DoUnlock(p, 0)) && InOrder(StepUnlock(s, p, 0))
    requires forall q :: !AboutToWait(s, q)
    ensures SameOrder(StepUnlock(s, p, 0))
  {
    UnlockKeepsAligned(s, p);
  }

  lemma SameOrderKept(s: State, a: Action, s': State)
    requires SameOrder(s) && Next(s, a, s') && Respectful(s, a) && Prompt(s, a)
    ensures SameOrder(s')
  {
    InOrderKept(s, a, s');
    match a
    case DoLock(p) => LockKeepsAligned(s, p);
    case DoPark(p) => ParkKeepsSameOrder(s, p);
    case DoRetry(p, woke) => RetryKeepsSameOrder(s, p, woke);
    case DoUnlock(p, _) => UnlockKeepsSameOrder(s, p);
  }

  lemma {:induction false} SameOrderAlways(r: Run<State, Action>, i: nat)
    requires IsRun(Init, Next, r) && RespectsHandoff(r) && AllPrompt(r) && i < |r.states|
    ensures SameOrder(r.states[i])
  {
    if i == 0 {
    } else {
      SameOrderAlways(r, i - 1);
      var s, a, s' := r.states[i - 1], r.acts[i - 1], r.states[i - 1 + 1];
      assert Next(s, a, s') && Respectful(s, a) && Prompt(s, a);
      SameOrderKept(s, a, s');
    }
  }

  /** In prompt runs that respect the handoff, an unlock that pops a thread's entry
      resumes that very thread, although the signal does not name it. */
  lemma SignalFindsItsThread(r: Run<State, Action>, i: nat)
    requires IsRun(Init, Next, r) && RespectsHandoff(r) && AllPrompt(r) && i < |r.acts|
    requires r.acts[i].DoUnlock? && r.states[i].lock.waiters != [] && r.states[i].lock.waiters[0].Thread?
    ensures r.states[i].lock.waiters[0] in r.states[i + 1].resumed
  {
    SameOrderAlways(r, i);
    var s, a := r.states[i], r.acts[i];
    assert Next(s, a, r.states[i + 1]) && Prompt(s, a);
    PoppedIsResumed(s, a.p);
  }
}
