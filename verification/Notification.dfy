/** The notification (src/sync.rs): one `u32` that is UNINIT, then the token of
    the waiting task, then READY. Each method is one step. */
module Notification {
  import opened Runs
  import opened Tokens
  import opened Queues

  datatype State = State(word: nat)

  datatype Action = Poll(token: Token) | Notify

  ghost predicate Init(s: State)
  {
    s == State(NOTIFICATION_UNINIT)
  }

  ghost predicate IsToken(word: nat)
  {
    word != NOTIFICATION_UNINIT && word != NOTIFICATION_READY
  }

  ghost function Step(s: State, a: Action): State
  {
    match a
    case Poll(t) => if s.word == NOTIFICATION_UNINIT then State(t) else s
    case Notify => if IsToken(s.word) then State(NOTIFICATION_READY) else s
  }

  ghost predicate Next(s: State, a: Action, s': State)
  {
    s' == Step(s, a)
  }

  ghost predicate ReturnsReady(s: State, a: Action)
  {
    a.Poll? && s.word == NOTIFICATION_READY
  }

  /** The token that the action pushes to the wake queue. */
  ghost function Wakes(s: State, a: Action): Option<Token>
  {
    if a.Notify? && IsToken(s.word) then Some(s.word) else None
  }

  // ----- The history of the word -----

  /** Action k is the first poll. */
  ghost predicate FirstPoll(r: Run<State, Action>, k: nat)
  {
    k < |r.acts| && r.acts[k].Poll? && forall j :: 0 <= j < k ==> !r.acts[j].Poll?
  }

  /** Action m is the first notify after the first poll, action k. */
  ghost predicate FirstNotify(r: Run<State, Action>, k: nat, m: nat)
  {
    FirstPoll(r, k) && k < m < |r.acts| && r.acts[m].Notify? && forall j :: k < j < m ==> !r.acts[j].Notify?
  }

  /** The first poll is not under a sentinel; the tokens of later polls are never
      stored. */
  ghost predicate SoundToken(r: Run<State, Action>)
  {
    forall k: nat :: FirstPoll(r, k) ==> IsToken(r.acts[k].token)
  }

  lemma {:induction false} BeforeFirstPoll(r: Run<State, Action>, i: nat)
    requires IsRun(Init, Next, r) && i < |r.states|
    requires forall j :: 0 <= j < i ==> !r.acts[j].Poll?
    ensures r.states[i].word == NOTIFICATION_UNINIT
  {
    if i == 0 {
    } else {
      BeforeFirstPoll(r, i - 1);
      assert Next(r.states[i - 1], r.acts[i - 1], r.states[i - 1 + 1]);
    }
  }

  lemma {:induction false} BeforeFirstNotify(r: Run<State, Action>, k: nat, i: nat)
    requires IsRun(Init, Next, r) && SoundToken(r) && FirstPoll(r, k) && k < i < |r.states|
    requires forall j :: k < j < i ==> !r.acts[j].Notify?
    ensures r.states[i].word == r.acts[k].token
  {
    assert Next(r.states[i - 1], r.acts[i - 1], r.states[i - 1 + 1]);
    if i == k + 1 {
      BeforeFirstPoll(r, k);
    } else {
      BeforeFirstNotify(r, k, i - 1);
    }
  }

  lemma {:induction false} AfterFirstNotify(r: Run<State, Action>, k: nat, m: nat, i: nat)
    requires IsRun(Init, Next, r) && SoundToken(r) && FirstNotify(r, k, m) && m < i < |r.states|
    ensures r.states[i].word == NOTIFICATION_READY
  {
    assert Next(r.states[i - 1], r.acts[i - 1], r.states[i - 1 + 1]);
    if i == m + 1 {
      BeforeFirstNotify(r, k, m);
    } else {
      AfterFirstNotify(r, k, m, i - 1);
    }
  }

  lemma OneFirstPoll(r: Run<State, Action>, k: nat, k': nat)
    ensures FirstPoll(r, k) && FirstPoll(r, k') ==> k == k'
  {
  }

  /** Where a run stands before its i-th action. */
  lemma Phases(r: Run<State, Action>, i: nat) returns (k: nat, m: nat)
    requires i <= |r.acts|
    ensures || (forall j :: 0 <= j < i ==> !r.acts[j].Poll?)
            || (FirstPoll(r, k) && k < i && forall j :: k < j < i ==> !r.acts[j].Notify?)
            || (FirstNotify(r, k, m) && m < i)
  {
    k := 0;
    while k < i && !r.acts[k].Poll?
      invariant k <= i && forall j :: 0 <= j < k ==> !r.acts[j].Poll?
    {
      k := k + 1;
    }
    m := k + 1;
    while m < i && !r.acts[m].Notify?
      invariant k < m && forall j :: k < j < m && j < i ==> !r.acts[j].Notify?
      decreases i - m
    {
      m := m + 1;
    }
  }

  /** In every run the word goes UNINIT, then the token of the first poll, then
      READY, from the first notify after that poll on. A poll is Ready exactly
      from then on; a wake is pushed exactly by that notify, for the task that
      polled first; and a notify before the first poll leaves no trace. */
  lemma Monotone(r: Run<State, Action>, i: nat)
    requires IsRun(Init, Next, r) && SoundToken(r) && i < |r.acts|
    ensures ReturnsReady(r.states[i], r.acts[i]) <==>
              r.acts[i].Poll? && exists k: nat, m: nat :: FirstNotify(r, k, m) && m < i
    ensures Wakes(r.states[i], r.acts[i]).Some? <==> exists k: nat :: FirstNotify(r, k, i)
    ensures forall k: nat :: FirstNotify(r, k, i) ==> Wakes(r.states[i], r.acts[i]) == Some(r.acts[k].token)
    ensures (forall j :: 0 <= j < i ==> !r.acts[j].Poll?) && r.acts[i].Notify? ==> r.states[i + 1] == r.states[i]
    ensures r.states[i + 1].word != r.states[i].word ==> FirstPoll(r, i) || exists k: nat :: FirstNotify(r, k, i)
  {
    assert Next(r.states[i], r.acts[i], r.states[i + 1]);
    var k, m := Phases(r, i);
    if forall j :: 0 <= j < i ==> !r.acts[j].Poll? {
      BeforeFirstPoll(r, i);
    } else if FirstNotify(r, k, m) && m < i {
      AfterFirstNotify(r, k, m, i);
      forall k': nat ensures !FirstNotify(r, k', i) {
        OneFirstPoll(r, k, k');
      }
    } else {
      BeforeFirstNotify(r, k, i);
      assert r.acts[i].Notify? ==> FirstNotify(r, k, i);
      forall k': nat ensures FirstNotify(r, k', i) ==> k' == k {
        OneFirstPoll(r, k, k');
      }
      forall k': nat, m': nat | FirstNotify(r, k', m') ensures i <= m' {
        OneFirstPoll(r, k, k');
      }
    }
  }

  // ----- Exactly which tokens break this -----

  /** All polls are by the task t, as when one task waits. */
  ghost predicate OnlyPolledBy(r: Run<State, Action>, t: Token)
  {
    forall k :: 0 <= k < |r.acts| && r.acts[k].Poll? ==> r.acts[k].token == t
  }

  /** Without any notify, the word stays what the first poll made it. */
  lemma {:induction false} Unnotified(r: Run<State, Action>, t: Token, k: nat, i: nat)
    requires IsRun(Init, Next, r) && OnlyPolledBy(r, t) && FirstPoll(r, k) && k < i < |r.states|
    requires forall j :: k < j < i ==> !r.acts[j].Notify?
    ensures r.states[i].word == t
  {
    assert Next(r.states[i - 1], r.acts[i - 1], r.states[i - 1 + 1]);
    if i == k + 1 {
      BeforeFirstPoll(r, k);
    } else {
      Unnotified(r, t, k, i - 1);
    }
  }

  /** A task that nobody has notified is told Ready, by any poll after its first, if
      and only if its token is the value of READY. */
  lemma ReadyUnnotifiedExactly(r: Run<State, Action>, t: Token, k: nat, i: nat)
    requires IsRun(Init, Next, r) && OnlyPolledBy(r, t) && FirstPoll(r, k) && k < i < |r.acts|
    requires r.acts[i].Poll? && forall j :: k < j < i ==> !r.acts[j].Notify?
    ensures ReturnsReady(r.states[i], r.acts[i]) <==> t == NOTIFICATION_READY
  {
    Unnotified(r, t, k, i);
  }

  /** The first notify after the first poll pushes no wake if and only if the token
      that polled is a sentinel; and then it does not make the word READY either,
      unless it was so already. */
  lemma NotifyLostExactly(r: Run<State, Action>, t: Token, k: nat, m: nat)
    requires IsRun(Init, Next, r) && OnlyPolledBy(r, t) && FirstNotify(r, k, m)
    ensures Wakes(r.states[m], r.acts[m]) == None <==> t == NOTIFICATION_READY || t == NOTIFICATION_UNINIT
    ensures Wakes(r.states[m], r.acts[m]) == None ==> r.states[m + 1] == r.states[m]
  {
    Unnotified(r, t, k, m);
    assert Next(r.states[m], r.acts[m], r.states[m + 1]);
  }

  // ----- The program -----

  class NotificationState {
    var word: nat
    const wakeQueue: SyncQueue<Token>

    constructor (wakeQueue: SyncQueue<Token>)
      ensures Init(State(word)) && this.wakeQueue == wakeQueue
    {
      word, this.wakeQueue := NOTIFICATION_UNINIT, wakeQueue;
    }

    method NotifyWaiter()
      requires this as object != wakeQueue
      modifies this, wakeQueue
      ensures State(word) == Step(old(State(word)), Notify)
      ensures var wake := Wakes(old(State(word)), Notify);
              wakeQueue.View() ==
              if wake.Some? then Release(Push(old(wakeQueue.View()), wake.value)) else old(wakeQueue.View())
    {
      var state := word;
      if state == NOTIFICATION_UNINIT || state == NOTIFICATION_READY {
      } else {
        word := NOTIFICATION_READY;
        wakeQueue.Add(state);
      }
    }

    method PollWaiter(token: Token) returns (ready: bool)
      modifies this
      ensures State(word) == Step(old(State(word)), Poll(token))
      ensures ready <==> ReturnsReady(old(State(word)), Poll(token))
    {
      ready := word == NOTIFICATION_READY;
      if word == NOTIFICATION_UNINIT {
        word := token;
      }
    }
  }
}
