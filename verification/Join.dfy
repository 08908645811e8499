/** Results of spawned tasks (src/executor.rs): the wrapper around a task's future
    that stores its output, the JoinHandle that a task polls for it, and the
    thread that blocks for it in spawn_and_block. The slot they share is behind a
    mutex; what the wrapper does while it holds the mutex is split into steps. */
module Join {
  import opened Runs
  import opened Tokens
  import opened Queues

  datatype Slot = Unawaited | Awaited(waker: Token) | Filled(value: Value) | Emptied

  /** Where the wrapper is: the future still runs; about to store, to test for an
      awaiter, to raise the signal, to give the mutex back; done. */
  datatype Wrapper = Running | Store(value: Value) | Test | Raise | Unlock | Over

  /** Where the blocked thread is: `Panicked` is the arm for a signal without a
      result. */
  datatype Blocker = Asleep | Woken | Got(value: Value) | Panicked

  /** `blocking` tells spawn_and_block, which has the signal and no handle, from
      spawn, which has a handle and no signal. `stores`, `output`, `delivered`
      and `wakes` record what was stored, produced, handed out and woken;
      `waiting` is the task whose latest poll of the handle was Pending. */
  datatype State = State(
    blocking: bool,
    slot: Slot,
    wrapper: Wrapper,
    signal: bool,
    blocker: Blocker,
    stores: nat,
    output: Option<Value>,
    delivered: seq<Value>,
    wakes: seq<Token>,
    waiting: Option<Token>)

  datatype Action = Finish(value: Value) | WrapperStep | Poll(task: Token) | Wake | Take

  ghost predicate Init(s: State)
  {
    s == State(s.blocking, Unawaited, Running, false, Asleep, 0, None, [], [], None)
  }

  ghost predicate MutexFree(s: State)
  {
    s.wrapper == Running || s.wrapper == Over
  }

  /** A future is not polled again after Ready. */
  ghost predicate Enabled(s: State, a: Action)
  {
    match a
    case Finish(_) => s.wrapper == Running
    case WrapperStep => !MutexFree(s)
    case Poll(_) => !s.blocking && MutexFree(s) && s.delivered == []
    case Wake => s.blocking && s.blocker == Asleep && s.signal
    case Take => s.blocker == Woken && MutexFree(s)
  }

  ghost function WrapperNext(s: State): State
  {
    match s.wrapper
    case Store(v) => s.(slot := Filled(v), wrapper := Test, stores := s.stores + 1)
    case Test => s.(wrapper := Raise, wakes := if s.slot.Awaited? then s.wakes + [s.slot.waker] else s.wakes)
    case Raise => s.(wrapper := Unlock, signal := s.signal || s.blocking)
    case Unlock => s.(wrapper := Over)
    case _ => s
  }

  /** The poll empties the slot first and refills it if there was no result. */
  ghost function Polled(s: State, t: Token): State
  {
    match s.slot
    case Filled(v) => s.(slot := Emptied, delivered := s.delivered + [v], waiting := None)
    case _ => s.(slot := Awaited(t), waiting := Some(t))
  }

  ghost function Taken(s: State): State
  {
    match s.slot
    case Filled(v) => s.(slot := Emptied, blocker := Got(v), delivered := s.delivered + [v])
    case _ => s.(slot := Emptied, blocker := Panicked)
  }

  ghost function Step(s: State, a: Action): State
  {
    match a
    case Finish(v) => s.(wrapper := Store(v), output := Some(v))
    case WrapperStep => WrapperNext(s)
    case Poll(t) => Polled(s, t)
    case Wake => s.(blocker := Woken, signal := false)
    case Take => Taken(s)
  }

  ghost predicate Next(s: State, a: Action, s': State)
  {
    Enabled(s, a) && s' == Step(s, a)
  }

  ghost predicate BeforeStore(s: State)
  {
    s.wrapper == Running || s.wrapper.Store?
  }

  ghost predicate Inv(s: State)
  {
    && s.stores == (if BeforeStore(s) then 0 else 1)
    && (s.wrapper == Running <==> s.output == None)
    && (s.wrapper.Store? ==> s.output == Some(s.wrapper.value))
    && (BeforeStore(s) ==> s.delivered == [] && (s.slot.Awaited? || s.slot == Unawaited))
    && (!BeforeStore(s) && s.delivered == [] ==> s.output.Some? && s.slot == Filled(s.output.value))
    && (s.delivered != [] ==> s.output.Some? && s.delivered == [s.output.value] && s.slot == Emptied)
    && (s.signal || s.blocker != Asleep ==> s.blocking && (s.wrapper == Unlock || s.wrapper == Over))
    && (s.signal ==> s.blocker == Asleep)
    && (s.blocking && (s.wrapper == Unlock || s.wrapper == Over) ==> s.signal || s.blocker != Asleep)
    && (s.blocker == Asleep || s.blocker == Woken ==> s.blocking ==> s.delivered == [])
    && s.blocker != Panicked
    && (s.blocker.Got? ==> s.delivered == [s.blocker.value])
    && s.wakes == []
    && (s.waiting.Some? ==> !s.blocking && s.delivered == [])
    && (BeforeStore(s) ==> s.slot == if s.waiting.Some? then Awaited(s.waiting.value) else Unawaited)
    && (s.wrapper == Test ==> s.slot.Filled?)
  }

  lemma InvKept(s: State, a: Action, s': State)
    requires Inv(s) && Next(s, a, s')
    ensures Inv(s')
  {
  }

  lemma InvAlways(r: Run<State, Action>, i: nat)
    requires IsRun(Init, Next, r) && i < |r.states|
    ensures Inv(r.states[i])
  {
    forall s, a, s' | Inv(s) && Next(s, a, s') ensures Inv(s') {
      InvKept(s, a, s');
    }
    InvariantHolds(Init, Next, Inv, r, i);
  }

  /** In every interleaving of wrapper, handle polls and blocked thread: until the
      result is stored the slot names the task that polled last; the result is
      stored at most once and stays until it is handed out; what is handed out is
      the future's output, at most once; a thread that blocks for it is signalled or
      awake once the wrapper is over, and always finds the result. */
  lemma ResultSafety(r: Run<State, Action>, i: nat)
    requires IsRun(Init, Next, r) && i < |r.states|
    ensures var s := r.states[i];
            && s.stores <= 1
            && (s.stores == 1 ==> s.output.Some?)
            && (s.stores == 1 && s.delivered == [] ==> s.slot == Filled(s.output.value))
            && (s.stores == 1 && s.delivered != [] ==> s.delivered == [s.output.value])
            && (s.stores == 0 ==> s.delivered == [])
            && (s.stores == 0 ==> s.slot == if s.waiting.Some? then Awaited(s.waiting.value) else Unawaited)
            && s.blocker != Panicked
            && (s.blocker.Got? ==> s.output == Some(s.blocker.value))
            && (s.blocking && s.wrapper == Over ==> s.signal || s.blocker == Woken || s.blocker.Got?)
  {
    InvAlways(r, i);
  }

  /** Once the result is stored, and until it is handed out, a poll of the handle or
      the take of the woken thread gets it; before that a poll registers its task. */
  lemma StoredIsDelivered(r: Run<State, Action>, i: nat, t: Token)
    requires IsRun(Init, Next, r) && i < |r.states|
    ensures var s := r.states[i];
            && (s.stores == 1 && s.delivered == [] ==>
                  && s.output.Some?
                  && Step(s, Poll(t)).delivered == [s.output.value] && Step(s, Poll(t)).waiting == None
                  && Step(s, Take).blocker == Got(s.output.value))
            && (s.stores == 0 ==>
                  Step(s, Poll(t)).slot == Awaited(t) && Step(s, Poll(t)).waiting == Some(t)
                  && Step(s, Poll(t)).delivered == [])
  {
    InvAlways(r, i);
  }

  // ----- The awaiter is not woken -----

  /** A task's latest poll was Pending, the result is there, and the wrapper is
      over: nothing will tell the task. */
  ghost predicate Forgotten(s: State)
  {
    s.waiting.Some? && s.slot.Filled? && s.wrapper == Over
  }

  /** Action k is the wrapper's store. */
  ghost predicate StoresAt(r: Run<State, Action>, k: nat)
  {
    k < |r.acts| && k < |r.states| && r.states[k].wrapper.Store? && r.acts[k] == WrapperStep
  }

  ghost predicate PolledBetween(r: Run<State, Action>, k: nat, i: nat)
    requires i <= |r.acts|
  {
    exists j :: k < j < i && r.acts[j].Poll?
  }

  lemma {:induction false} AfterTheStore(r: Run<State, Action>, k: nat, i: nat)
    requires IsRun(Init, Next, r) && StoresAt(r, k) && k < i < |r.states|
    ensures var s := r.states[i];
            && !BeforeStore(s)
            && (s.blocking ==> s.waiting == None && !r.states[k].slot.Awaited?)
            && (!s.blocking ==> (s.delivered != [] <==> PolledBetween(r, k, i)))
            && (!s.blocking && s.delivered == [] ==> (s.waiting.Some? <==> r.states[k].slot.Awaited?))
  {
    assert Next(r.states[i - 1], r.acts[i - 1], r.states[i - 1 + 1]);
    InvAlways(r, i - 1);
    InvAlways(r, i);
    if k == i - 1 {
    } else {
      AfterTheStore(r, k, i - 1);
      assert PolledBetween(r, k, i) <==> PolledBetween(r, k, i - 1) || r.acts[i - 1].Poll?;
    }
  }

  /** The wrapper tests for an awaiter after overwriting the slot, so in every run
      it wakes nobody. Once it is over, a task is forgotten if and only if it was
      awaiting when the result was stored and the handle was not polled since. */
  lemma NobodyIsWoken(r: Run<State, Action>, k: nat, i: nat)
    requires IsRun(Init, Next, r) && StoresAt(r, k) && k < i < |r.states|
    requires r.states[i].wrapper == Over
    ensures r.states[i].wakes == []
    ensures Forgotten(r.states[i]) <==> r.states[k].slot.Awaited? && !PolledBetween(r, k, i)
  {
    InvAlways(r, i);
    AfterTheStore(r, k, i);
    if r.states[i].blocking {
      InvAlways(r, k);
    }
  }

  /** Such a run: spawn, await, finish. */
  lemma AwaiterForgotten() returns (r: Run<State, Action>)
    ensures IsRun(Init, Next, r) && Forgotten(r.states[|r.acts|])
  {
    var acts := [Poll(0), Finish(7), WrapperStep, WrapperStep, WrapperStep, WrapperStep];
    var s0 := State(false, Unawaited, Running, false, Asleep, 0, None, [], [], None);
    var s1 := Step(s0, acts[0]);
    var s2 := Step(s1, acts[1]);
    var s3 := Step(s2, acts[2]);
    var s4 := Step(s3, acts[3]);
    var s5 := Step(s4, acts[4]);
    var s6 := Step(s5, acts[5]);
    assert s1 == s0.(slot := Awaited(0), waiting := Some(0));
    assert s3 == s1.(slot := Filled(7), wrapper := Test, stores := 1, output := Some(7));
    assert s6 == s3.(wrapper := Over);
    r := Run([s0, s1, s2, s3, s4, s5, s6], acts);
  }

  // ----- The program -----

  /** What a poll of the handle answers; polling after Ready panics. */
  datatype Answer = Pending | Ready(value: Value) | Panic

  class JoinCell {
    var slot: Slot

    constructor ()
      ensures slot == Unawaited
    {
      slot := Unawaited;
    }

    method PollHandle(task: Token) returns (answer: Answer)
      modifies this
      ensures old(slot).Emptied? <==> answer == Panic
      ensures old(slot).Emptied? ==> slot == Emptied
      ensures old(slot).Filled? ==> answer == Ready(old(slot).value) && slot == Emptied
      ensures old(slot).Unawaited? || old(slot).Awaited? ==> answer == Pending && slot == Awaited(task)
      ensures forall s: State :: s.slot == old(slot) && answer != Panic ==>
                && slot == Polled(s, task).slot
                && Polled(s, task).delivered == (if answer.Ready? then s.delivered + [answer.value] else s.delivered)
    {
      var was := slot;
      slot := Emptied;
      match was
      case Filled(v) => answer := Ready(v);
      case Emptied => answer := Panic;
      case _ =>
        slot := Awaited(task);
        answer := Pending;
    }

    /** The wrapper's last act, while it holds the mutex: its three steps on slot,
        wake queue and signal. The branch in which it would wake the awaiter is
        dead, as the slot has just been overwritten, so the wake queue is what it
        was, awaited or not. */
    method Complete(value: Value, wakeQueue: SyncQueue<Token>, signal: WaitSignal?)
      requires this as object != wakeQueue && this as object != signal
      requires signal != null ==> signal as object != wakeQueue
      modifies this, wakeQueue, if signal == null then {} else {signal}
      ensures slot == Filled(value) && wakeQueue.View() == old(wakeQueue.View()) && (signal != null ==> signal.raised)
      ensures forall s: State :: s.slot == old(slot) && s.wrapper == Store(value) && s.blocking == (signal != null) ==>
                var s' := WrapperNext(WrapperNext(WrapperNext(s)));
                && s'.wrapper == Unlock && slot == s'.slot
                && wakeQueue.View() == old(wakeQueue.View()) && s'.wakes == s.wakes
                && (signal != null ==> signal.raised && s'.signal)
    {
      slot := Filled(value);
      if slot.Awaited? {
        assert false;
      }
      if signal != null {
        signal.Signal();
      }
    }

    /** The blocked thread's take after the signal; None is the panic. */
    method TakeResult() returns (value: Option<Value>)
      modifies this
      ensures slot == Emptied
      ensures value == if old(slot).Filled? then Some(old(slot).value) else None
    {
      var was := slot;
      slot := Emptied;
      value := if was.Filled? then Some(was.value) else None;
    }
  }
}
