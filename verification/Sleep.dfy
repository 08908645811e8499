/** The Sleep future (src/reactor.rs) with the clock and its kernel timer. Times
    are nanoseconds since the future was made. */
module Sleep {
  import opened Runs
  import opened Tokens
  import Reactor

  const I64_LIMIT: nat := 0x8000_0000_0000_0000
  const U64_SIZE: nat := 0x1_0000_0000_0000_0000

  /** The conversion `as i64`, which keeps the low 64 bits. */
  function AsI64(n: nat): int
  {
    var low := n % U64_SIZE;
    if low < I64_LIMIT then low else low - U64_SIZE
  }

  /** It is the number of 64 bits, read as signed, that is congruent to n. */
  lemma AsI64Exactly(n: nat)
    ensures 0 <= AsI64(n) + I64_LIMIT < U64_SIZE && (n - AsI64(n)) % U64_SIZE == 0
    ensures AsI64(n) == n <==> n < I64_LIMIT
  {
  }

  /** `due` is when the timer goes off; `wake` whether the reactor has woken the
      task since its last poll; `registrations` counts the timers made. */
  datatype State = State(
    now: nat,
    deadline: nat,
    due: Option<int>,
    fired: bool,
    wake: bool,
    ready: bool,
    registrations: nat)

  datatype Action = Tick(time: nat) | Poll | Fire

  ghost predicate Init(s: State)
  {
    s == State(0, s.deadline, None, false, false, false, 0)
  }

  /** The timer is oneshot and does not go off early. */
  ghost predicate Enabled(s: State, a: Action)
  {
    match a
    case Tick(_) => true
    case Poll => !s.ready
    case Fire => s.due.Some? && !s.fired && s.due.value <= s.now
  }

  ghost function Step(s: State, a: Action): State
  {
    match a
    case Tick(d) => s.(now := s.now + d)
    case Poll =>
      if s.now >= s.deadline then s.(ready := true, wake := false)
      else if s.due.None? then
        s.(due := Some(s.now + AsI64(s.deadline - s.now)), wake := false, registrations := s.registrations + 1)
      else s.(wake := false)
    case Fire => s.(fired := true, wake := true)
  }

  ghost predicate Next(s: State, a: Action, s': State)
  {
    Enabled(s, a) && s' == Step(s, a)
  }

  ghost predicate Inv(s: State)
  {
    && (s.ready ==> s.now >= s.deadline)
    && s.registrations == (if s.due.Some? then 1 else 0)
    && (s.fired ==> s.due.Some? && s.due.value <= s.now)
    && (s.wake ==> s.fired)
    && (s.due.Some? && s.deadline < I64_LIMIT ==> s.due.value == s.deadline)
    && (s.deadline < I64_LIMIT && s.fired && !s.ready ==> s.wake)
  }

  lemma InvKept(s: State, a: Action, s': State)
    requires Inv(s) && Next(s, a, s')
    ensures Inv(s')
  {
  }

  lemma InvAlways(r: Run<State, Action>, i: nat)
    requires IsRun(Init, Next, r) && i < |r.states|
    ensures Inv(r.states[i])
  {
    forall s, a, s' | Inv(s) && Next(s, a, s') ensures Inv(s') {
      InvKept(s, a, s');
    }
    InvariantHolds(Init, Next, Inv, r, i);
  }

  /** A poll is Ready exactly at or after the deadline, and then sets no timer; an
      early one sets a timer to the remaining time, unless there is one already, and
      nothing else. */
  lemma PollExactly(s: State)
    requires !s.ready
    ensures var s' := Step(s, Poll);
            && (s'.ready <==> s.now >= s.deadline)
            && (s'.registrations == s.registrations + 1 <==> s.now < s.deadline && s.due.None?)
            && s'.due == (if s.now < s.deadline && s.due.None? then Some(s.now + AsI64(s.deadline - s.now)) else s.due)
            && !s'.wake && s'.now == s.now && s'.deadline == s.deadline && s'.fired == s.fired
  {
  }

  /** In every run a sleep makes at most one timer, however often it is polled, and
      never completes before its deadline. If it is shorter than 2^63 ns, then once
      polled it is Ready, or its timer is still to go off, or the task has a wake
      coming; and the poll on that wake is Ready. */
  lemma SleepIsSound(r: Run<State, Action>, i: nat)
    requires IsRun(Init, Next, r) && i < |r.states|
    ensures var s := r.states[i];
            && s.registrations <= 1
            && (s.ready ==> s.now >= s.deadline)
            && (s.deadline < I64_LIMIT && s.due.Some? ==> s.ready || !s.fired || s.wake)
            && (s.deadline < I64_LIMIT && s.wake && !s.ready ==> Step(s, Poll).ready)
  {
    InvAlways(r, i);
  }

  /** Polled, not Ready, timer spent, wake used up: it will sleep for ever. */
  ghost predicate Forsaken(s: State)
  {
    s.due.Some? && !s.ready && s.fired && !s.wake
  }

  ghost predicate ForsakenAt(s: State, duration: nat)
  {
    Reachable(Init, Next, s) && s.deadline == duration && Forsaken(s)
  }

  /** The nanoseconds are cut to an `i64`: a sleep can be forsaken if and only if it
      is of 2^63 ns or more. */
  lemma ForsakenExactly(duration: nat)
    ensures (exists s :: ForsakenAt(s, duration)) <==> duration >= I64_LIMIT
  {
    if duration >= I64_LIMIT {
      var s := Overlong(duration);
      assert ForsakenAt(s, duration);
    } else {
      forall s ensures !ForsakenAt(s, duration) {
        if ForsakenAt(s, duration) {
          var r :| EndsIn(Init, Next, s, r);
          InvAlways(r, |r.acts|);
        }
      }
    }
  }

  lemma Overlong(duration: nat) returns (s: State)
    requires duration >= I64_LIMIT
    ensures ForsakenAt(s, duration)
  {
    var s0 := State(0, duration, None, false, false, false, 0);
    Start<State, Action>(Init, Next, s0);
    var s1 := Step(s0, Poll);
    Extend(Init, Next, s0, Poll, s1);
    assert s1.due.value < duration;
    var wait := if s1.due.value > 0 then s1.due.value else 0;
    var s2 := Step(s1, Tick(wait));
    Extend(Init, Next, s1, Tick(wait), s2);
    var s3 := Step(s2, Fire);
    Extend(Init, Next, s2, Fire, s3);
    s := Step(s3, Poll);
    Extend(Init, Next, s3, Poll, s);
  }

  /** A forsaken sleep stays so, with no timer going off any more, until something
      other than its timer has it polled at or after the deadline. */
  lemma {:induction false} ForsakenForGood(r: Run<State, Action>, i: nat, j: nat)
    requires IsRun(Init, Next, r) && i <= j < |r.states| && Forsaken(r.states[i])
    requires forall k :: i <= k < j ==> r.acts[k] == Poll ==> r.states[k].now < r.states[k].deadline
    ensures Forsaken(r.states[j])
    ensures forall k :: i <= k < j ==> r.acts[k] != Fire
  {
    if i == j {
    } else {
      ForsakenForGood(r, i, j - 1);
      assert Next(r.states[j - 1], r.acts[j - 1], r.states[j - 1 + 1]);
    }
  }

  // ----- The program -----

  class SleepFuture {
    const deadline: nat
    var timer: Option<Reactor.Handle>

    constructor (deadline: nat)
      ensures this.deadline == deadline && timer == None
    {
      this.deadline, timer := deadline, None;
    }

    /** The first early poll makes a timer, given here as `handle`, and registers the
        task for it; `due` is the time the timer was set to. */
    method PollAt(now: nat, task: Token, handle: Reactor.Handle, reactor: Reactor.ReactorHandler)
      returns (ready: bool, due: Option<int>)
      requires this as object != reactor
      modifies this, reactor
      ensures ready <==> now >= deadline
      ensures due == if !ready && old(timer).None? then Some(now + AsI64(deadline - now)) else None
      ensures timer == if due.Some? then Some(handle) else old(timer)
      ensures var s := State(now, deadline, if old(timer).Some? then Some(0) else None, false, false, false, 0);
              && ready == Step(s, Poll).ready
              && (timer.Some? <==> Step(s, Poll).due.Some?)
              && (due.Some? <==> Step(s, Poll).registrations == 1)
              && (due.Some? ==> due == Step(s, Poll).due && timer == Some(handle))
              && (due.None? ==> timer == old(timer) && unchanged(reactor))
      ensures due.Some? ==>
                reactor.waitTokens == Reactor.Step(Reactor.State(old(reactor.waitTokens), map[]),
                                                   Reactor.Add(task, handle)).waiting
    {
      ready, due := now >= deadline, None;
      if !ready && timer == None {
        due := Some(now + AsI64(deadline - now));
        reactor.AddHandle(task, handle);
        timer := Some(handle);
      }
    }
  }
}
