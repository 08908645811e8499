/** The lock's own code (src/sync.rs): the word with its address arbiter, the lock,
    the lock future and the blocking lock, against the step system of `Lock`. */
module LockCode {
  import opened Runs
  import opened Tokens
  import opened Collections
  import opened Queues
  import opened Lock

  /** The lock word and the threads that the kernel has asleep on its address. */
  class ArbitratedValue {
    var word: int
    var parked: seq<Party>
    var resumed: set<Party>

    constructor (word: int)
      ensures this.word == word && parked == [] && resumed == {}
    {
      this.word, parked, resumed := word, [], {};
    }

    /** The kernel puts the thread to sleep if the word is less than the value. */
    method WaitLessThan(p: Party, value: int)
      modifies this`parked, this`resumed
      ensures parked == if word < value then old(parked) + [p] else old(parked)
      ensures resumed == if word < value then old(resumed) else old(resumed) + {p}
    {
      if word < value {
        parked := parked + [p];
      } else {
        resumed := resumed + {p};
      }
    }

    /** The wait of a thread that the kernel has let go on returns. */
    method Return(p: Party)
      modifies this`resumed
      ensures resumed == old(resumed) - {p}
    {
      resumed := resumed - {p};
    }

    /** The kernel resumes one sleeping thread of its choice, if there is one. */
    method SignalOne(choice: nat)
      requires parked != [] ==> choice < |parked|
      modifies this`parked, this`resumed
      ensures old(parked) == [] ==> parked == [] && resumed == old(resumed)
      ensures old(parked) != [] ==>
                parked == Without(old(parked), choice) && resumed == old(resumed) + {old(parked)[choice]}
    {
      if parked != [] {
        resumed := resumed + {parked[choice]};
        parked := Without(parked, choice);
      }
    }
  }

  class DsLock {
    const arb: ArbitratedValue
    const wakeQueue: SyncQueue<Token>
    var waiters: seq<Token>

    ghost predicate Valid()
    {
      this as object != arb && this as object != wakeQueue && arb as object != wakeQueue
    }

    ghost function View(): Core<Token>
      reads this, arb
    {
      Core(arb.word, waiters)
    }

    constructor (wakeQueue: SyncQueue<Token>)
      ensures Valid() && this.wakeQueue == wakeQueue && fresh(arb)
      ensures View() == Core(1, []) && arb.parked == [] && arb.resumed == {}
    {
      arb := new ArbitratedValue(1);
      this.wakeQueue, waiters := wakeQueue, [];
    }

    method TryLockAndRegister(token: Token) returns (locked: bool)
      requires Valid()
      modifies this, arb`word
      ensures (View(), locked) == AfterRegister(old(View()), token)
    {
      var state := arb.word;
      if state > 0 {
        arb.word := -state;
        locked := true;
      } else {
        arb.word := state - 1;
        waiters := waiters + [token];
        locked := false;
      }
    }

    method TryLockReleaseWaiter() returns (locked: bool)
      requires Valid()
      modifies arb`word
      ensures (View(), locked) == AfterRetry(old(View()))
    {
      var state := arb.word;
      locked := state > 0;
      if locked {
        arb.word := -(state - 1);
      }
    }

    /** The popped waiter is signalled through the arbiter if it is a thread and put
        in the wake queue if it is a task. */
    method Unlock(choice: nat)
      requires Valid() && (arb.parked != [] ==> choice < |arb.parked|)
      modifies this, arb, wakeQueue
      ensures View() == AfterUnlock(old(View())).0
      ensures var wake := AfterUnlock(old(View())).1;
              && wakeQueue.View() == (if wake.Some? && wake.value != THREAD_TOKEN
                                      then Release(Push(old(wakeQueue.View()), wake.value)) else old(wakeQueue.View()))
              && (wake != Some(THREAD_TOKEN) || old(arb.parked) == [] ==>
                    arb.parked == old(arb.parked) && arb.resumed == old(arb.resumed))
              && (wake == Some(THREAD_TOKEN) && old(arb.parked) != [] ==>
                    && arb.parked == Without(old(arb.parked), choice)
                    && arb.resumed == old(arb.resumed) + {old(arb.parked)[choice]})
    {
      var state := arb.word;
      if state < 0 {
        arb.word := -state;
        if waiters != [] {
          var task := waiters[0];
          waiters := waiters[1..];
          if task == THREAD_TOKEN {
            arb.SignalOne(choice);
          } else {
            wakeQueue.Add(task);
          }
        }
      }
    }
  }

  class LockFut {
    const lock: DsLock
    var registered: bool

    constructor (lock: DsLock)
      ensures this.lock == lock && !registered
    {
      this.lock, registered := lock, false;
    }

    /** The first poll registers, later polls only retry. */
    method Poll(token: Token) returns (ready: bool)
      requires lock.Valid() && this as object != lock && this as object != lock.arb
      modifies this, lock, lock.arb`word
      ensures old(registered) ==> (lock.View(), ready) == AfterRetry(old(lock.View()))
      ensures !old(registered) ==> (lock.View(), ready) == AfterRegister(old(lock.View()), token)
      ensures registered == (old(registered) || !ready)
    {
      if registered {
        ready := lock.TryLockReleaseWaiter();
      } else {
        ready := lock.TryLockAndRegister(token);
        registered := !ready;
      }
    }
  }

  // ----- The program's list of tokens against the system's list of parties -----

  function TokenOf(p: Party): Token
  {
    match p
    case Thread(_) => THREAD_TOKEN
    case Task(_, token) => token
  }

  ghost function Tokenise(l: Core<Party>): Core<Token>
  {
    Core(l.word, seq(|l.waiters|, i requires 0 <= i < |l.waiters| => TokenOf(l.waiters[i])))
  }

  /** Each method of the lock does to the words in memory what the corresponding
      step does to the lock of the step system. */
  lemma MethodsAreSteps(l: Core<Party>, p: Party)
    ensures AfterRegister(Tokenise(l), TokenOf(p)) == (Tokenise(AfterRegister(l, p).0), AfterRegister(l, p).1)
    ensures AfterRetry(Tokenise(l)) == (Tokenise(AfterRetry(l).0), AfterRetry(l).1)
    ensures AfterUnlock(Tokenise(l)).0 == Tokenise(AfterUnlock(l).0)
    ensures AfterUnlock(Tokenise(l)).1 == (match AfterUnlock(l).1 case None => None case Some(w) => Some(TokenOf(w)))
  {
    assert Tokenise(AfterRegister(l, p).0).waiters == AfterRegister(Tokenise(l), TokenOf(p)).0.waiters;
    assert Tokenise(AfterUnlock(l).0).waiters == AfterUnlock(Tokenise(l)).0.waiters;
  }

  /** The objects in memory are what the step system says they are. */
  ghost predicate Tied(lock: DsLock, s: State)
    reads lock, lock.arb
  {
    lock.View() == Tokenise(s.lock) && lock.arb.parked == s.parked && lock.arb.resumed == s.resumed
  }

  /** Any party's step, carried out on the objects. */
  method Perform(lock: DsLock, a: Action, ghost s: State)
    requires lock.Valid() && Tied(lock, s) && Enabled(s, a)
    modifies lock, lock.arb, lock.wakeQueue
    ensures Tied(lock, Step(s, a))
  {
    match a
    case DoLock(p) =>
      MethodsAreSteps(s.lock, p);
      var _ := lock.TryLockAndRegister(TokenOf(p));
    case DoPark(p) =>
      lock.arb.WaitLessThan(p, 0);
    case DoRetry(p, _) =>
      MethodsAreSteps(s.lock, p);
      lock.arb.Return(p);
      var _ := lock.TryLockReleaseWaiter();
    case DoUnlock(p, choice) =>
      MethodsAreSteps(s.lock, p);
      lock.Unlock(choice);
  }

  // ----- The blocking lock -----

  /** Steps that parties other than p can take one after another from s. */
  ghost predicate ByOthers(s: State, p: Party, acts: seq<Action>)
    decreases |acts|
  {
    acts == [] || (acts[0].p != p && Enabled(s, acts[0]) && ByOthers(Step(s, acts[0]), p, acts[1..]))
  }

  ghost function After(s: State, p: Party, acts: seq<Action>): State
    requires ByOthers(s, p, acts)
    decreases |acts|
  {
    if acts == [] then s else After(Step(s, acts[0]), p, acts[1..])
  }

  /** What the others do during each wait of p, up to the point at which that wait
      returns. */
  ghost predicate Schedule(s: State, p: Party, waits: seq<seq<Action>>)
    decreases |waits|
  {
    waits == [] ||
    (ByOthers(StepPark(s, p), p, waits[0]) &&
     var m := After(StepPark(s, p), p, waits[0]);
     p in m.resumed && (m.lock.word > 0 || Schedule(StepRetry(m, p, false), p, waits[1..])))
  }

  /** Wait and retry until a retry succeeds or the waits are used up. */
  ghost function KeepTrying(s: State, p: Party, waits: seq<seq<Action>>): State
    requires Schedule(s, p, waits)
    decreases |waits|
  {
    if waits == [] then s
    else
      var m := After(StepPark(s, p), p, waits[0]);
      if m.lock.word > 0 then StepRetry(m, p, false) else KeepTrying(StepRetry(m, p, false), p, waits[1..])
  }

  ghost predicate Reached(s: State)
  {
    Reachable(Init, Next, s)
  }

  lemma ReachedInv(s: State)
    requires Reached(s)
    ensures Inv(s)
  {
    var r :| EndsIn(Init, Next, s, r);
    InvAlways(r, |r.acts|);
  }

  /** The others' actions, one after another. */
  lemma {:induction false} AfterLeads(s: State, p: Party, acts: seq<Action>)
    requires ByOthers(s, p, acts)
    ensures Leads(Next, s, acts, After(s, p, acts))
    decreases |acts|
  {
    if acts == [] {
      LeadsNowhere(Next, s);
    } else {
      AfterLeads(Step(s, acts[0]), p, acts[1..]);
      LeadsFrom(Next, s, acts[0], Step(s, acts[0]), acts[1..], After(s, p, acts));
      assert [acts[0]] + acts[1..] == acts;
    }
  }

  /** The actions of tries: each waits, while the others go on, and retries. */
  ghost function Tries(p: Party, waits: seq<seq<Action>>): seq<Action>
  {
    if waits == [] then [] else [DoPark(p)] + waits[0] + [DoRetry(p, false)] + Tries(p, waits[1..])
  }

  /** One of the waits returns to a lock that is free. */
  ghost predicate SomeWaitFindsFree(s: State, p: Party, waits: seq<seq<Action>>)
    requires Schedule(s, p, waits)
    decreases |waits|
  {
    waits != [] &&
    var m := After(StepPark(s, p), p, waits[0]);
    m.lock.word > 0 || SomeWaitFindsFree(StepRetry(m, p, false), p, waits[1..])
  }

  lemma TryLeads(s: State, p: Party, others: seq<Action>)
    requires AboutToWait(s, p) && ByOthers(StepPark(s, p), p, others)
    requires var m := After(StepPark(s, p), p, others); p in m.resumed && p in m.pending
    ensures Leads(Next, s, [DoPark(p)] + others + [DoRetry(p, false)],
                  StepRetry(After(StepPark(s, p), p, others), p, false))
  {
    var m := After(StepPark(s, p), p, others);
    AfterLeads(StepPark(s, p), p, others);
    LeadsFrom(Next, s, DoPark(p), StepPark(s, p), others, m);
    LeadsOn(Next, s, [DoPark(p)] + others, m, DoRetry(p, false), StepRetry(m, p, false));
  }

  lemma ParkedIsPending(s: State, p: Party, others: seq<Action>)
    requires Reached(s) && AboutToWait(s, p) && ByOthers(StepPark(s, p), p, others)
    ensures var m := After(StepPark(s, p), p, others); Reached(m) && (p in m.resumed ==> p in m.pending)
  {
    var m := After(StepPark(s, p), p, others);
    Extend(Init, Next, s, DoPark(p), StepPark(s, p));
    AfterLeads(StepPark(s, p), p, others);
    LeadsReached(Init, Next, StepPark(s, p), others, m);
    ReachedInv(m);
  }

  /** The blocking lock tries, and stops at the first try that gets the guard or after
      the last: it has the guard if and only if one of its waits returns to a free
      lock, and otherwise all waits are used and it is still registered. */
  lemma {:induction false} KeepTryingLeads(s: State, p: Party, waits: seq<seq<Action>>) returns (k: nat)
    requires Reached(s) && AboutToWait(s, p) && p !in s.guards && Schedule(s, p, waits)
    ensures k <= |waits| && Leads(Next, s, Tries(p, waits[..k]), KeepTrying(s, p, waits))
    ensures p in KeepTrying(s, p, waits).guards <==> SomeWaitFindsFree(s, p, waits)
    ensures p !in KeepTrying(s, p, waits).guards ==> k == |waits| && p in KeepTrying(s, p, waits).pending
    decreases |waits|
  {
    if waits == [] {
      k := 0;
      LeadsNowhere(Next, s);
    } else {
      var m := After(StepPark(s, p), p, waits[0]);
      ParkedIsPending(s, p, waits[0]);
      TryLeads(s, p, waits[0]);
      OthersLeaveNoGuard(StepPark(s, p), p, waits[0]);
      var n, once := StepRetry(m, p, false), [DoPark(p)] + waits[0] + [DoRetry(p, false)];
      if m.lock.word > 0 {
        k := 1;
        assert waits[..1] == [waits[0]] && Tries(p, waits[..1]) == once + Tries(p, waits[..1][1..]) == once;
      } else {
        LeadsReached(Init, Next, s, once, n);
        ReachedInv(m);
        var more := KeepTryingLeads(n, p, waits[1..]);
        k := more + 1;
        LeadsThrough(Next, s, once, n, Tries(p, waits[1..][..more]), KeepTrying(s, p, waits));
        assert waits[..k][0] == waits[0] && waits[..k][1..] == waits[1..][..more];
      }
    }
  }

  lemma {:induction false} OthersLeaveNoGuard(s: State, p: Party, acts: seq<Action>)
    requires ByOthers(s, p, acts) && p !in s.guards
    ensures p !in After(s, p, acts).guards
    decreases |acts|
  {
    if acts == [] {
    } else {
      OthersLeaveNoGuard(Step(s, acts[0]), p, acts[1..]);
    }
  }

  /** The whole blocking lock: register, and if the lock is held, keep trying. */
  ghost function LockRun(s: State, p: Party, waits: seq<seq<Action>>): State
    requires s.lock.word <= 0 ==> Schedule(StepLock(s, p), p, waits)
  {
    if s.lock.word > 0 then StepLock(s, p) else KeepTrying(StepLock(s, p), p, waits)
  }

  /** The thread gets its guard: at once, or when one of its waits finds the lock free. */
  ghost predicate GetsGuard(s: State, p: Party, waits: seq<seq<Action>>)
    requires s.lock.word <= 0 ==> Schedule(StepLock(s, p), p, waits)
  {
    s.lock.word > 0 || SomeWaitFindsFree(StepLock(s, p), p, waits)
  }

  /** From every reachable state, and whatever the others do meanwhile, the blocking
      lock is one registration and then tries, up to the one that succeeds. The thread
      has a guard if and only if the lock was free or a wait finds it so, and then it
      holds the only one; otherwise it has waited as often as it could and is still
      registered. */
  lemma LockRunLeads(s: State, p: Party, waits: seq<seq<Action>>) returns (k: nat)
    requires Reached(s) && p.Thread? && p !in s.used
    requires s.lock.word <= 0 ==> Schedule(StepLock(s, p), p, waits)
    ensures var s' := LockRun(s, p, waits);
            && k <= |waits| && Leads(Next, s, [DoLock(p)] + Tries(p, waits[..k]), s') && Reached(s')
            && (s.lock.word > 0 ==> k == 0)
            && (p in s'.guards <==> GetsGuard(s, p, waits))
            && (p in s'.guards ==> s'.guards == {p} && s'.lock.word < 0)
            && (p !in s'.guards ==> k == |waits| && p in s'.pending)
  {
    ReachedInv(s);
    var s1, s' := StepLock(s, p), LockRun(s, p, waits);
    Extend(Init, Next, s, DoLock(p), s1);
    ReachedInv(s1);
    k := 0;
    if s.lock.word > 0 {
      LeadsNowhere(Next, s1);
    } else {
      k := KeepTryingLeads(s1, p, waits);
    }
    LeadsFrom(Next, s, DoLock(p), s1, Tries(p, waits[..k]), s');
    LeadsReached(Init, Next, s1, Tries(p, waits[..k]), s');
    ReachedInv(s');
    AtMostOne(s'.guards);
  }

  /** What the others do during one wait. */
  method Interfere(lock: DsLock, ghost p: Party, acts: seq<Action>, ghost s: State)
    requires lock.Valid() && Tied(lock, s) && ByOthers(s, p, acts)
    modifies lock, lock.arb, lock.wakeQueue
    ensures Tied(lock, After(s, p, acts))
  {
    ghost var m := s;
    for i := 0 to |acts|
      invariant Tied(lock, m)
      invariant ByOthers(m, p, acts[i..]) && After(m, p, acts[i..]) == After(s, p, acts)
    {
      assert acts[i..][0] == acts[i] && acts[i..][1..] == acts[i + 1..];
      Perform(lock, acts[i], m);
      m := Step(m, acts[i]);
    }
  }

  /** One turn of the loop: wait in the arbiter, while the others go on, and retry. */
  method WaitAndRetry(lock: DsLock, p: Party, others: seq<Action>, ghost s: State) returns (locked: bool)
    requires lock.Valid() && Tied(lock, s)
    requires p !in s.guards && ByOthers(StepPark(s, p), p, others)
    modifies lock, lock.arb, lock.wakeQueue
    ensures var m := After(StepPark(s, p), p, others);
            && Tied(lock, StepRetry(m, p, false))
            && locked == (m.lock.word > 0) && (locked <==> p in StepRetry(m, p, false).guards)
  {
    lock.arb.WaitLessThan(p, 0);
    OthersLeaveNoGuard(StepPark(s, p), p, others);
    Interfere(lock, p, others, StepPark(s, p));
    MethodsAreSteps(After(StepPark(s, p), p, others).lock, p);
    lock.arb.Return(p);
    locked := lock.TryLockReleaseWaiter();
  }

  /** The blocking lock: registers once, then waits and retries. The original waits
      without limit; here `waits` says what the others do during each wait, and the
      loop gives up after the last. What it does to the objects is the system's run
      `LockRun`; it reports a guard exactly if the lock was free or one of its waits
      finds it so, and then it has one. */
  method LockSync(lock: DsLock, p: Party, waits: seq<seq<Action>>, ghost s: State) returns (locked: bool)
    requires lock.Valid() && Tied(lock, s) && Reached(s)
    requires p.Thread? && p !in s.used
    requires s.lock.word <= 0 ==> Schedule(StepLock(s, p), p, waits)
    modifies lock, lock.arb, lock.wakeQueue
    ensures var s' := LockRun(s, p, waits);
            Tied(lock, s') && (locked <==> p in s'.guards) && (locked ==> s'.guards == {p})
    ensures locked <==> GetsGuard(s, p, waits)
  {
    ghost var _ := LockRunLeads(s, p, waits);
    ReachedInv(s);
    MethodsAreSteps(s.lock, p);
    locked := lock.TryLockAndRegister(THREAD_TOKEN);
    if locked {
      return;
    }
    ghost var m := StepLock(s, p);
    for i := 0 to |waits|
      invariant !locked && p !in m.guards
      invariant Tied(lock, m)
      invariant Schedule(m, p, waits[i..]) && KeepTrying(m, p, waits[i..]) == LockRun(s, p, waits)
    {
      assert waits[i..][0] == waits[i] && waits[i..][1..] == waits[i + 1..];
      locked := WaitAndRetry(lock, p, waits[i], m);
      m := StepRetry(After(StepPark(m, p), p, waits[i]), p, false);
      if locked {
        return;
      }
    }
  }
}
