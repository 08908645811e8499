/** The oneshot channel (src/sync.rs), one step per atomic operation. */
module Oneshot {
  import opened Runs
  import opened Tokens
  import opened Queues

  /** Where the sender is: each case names the operation that comes next. `send`
      takes the sender by value, so the code of its Drop runs after it. */
  datatype Tx =
    | Unused
    | CheckFlag(value: Value)
    | WriteCell(value: Value)
    | SetFlag
    | ReadTask
    | WakeTask(token: Token)
    | DropSetFlag
    | DropReadTask
    | DropWakeTask(token: Token)
    | Gone

  /** Where the receiver is. */
  datatype Rx =
    | Resting
    | LoadFlag
    | TakeCell
    | Ready(result: Option<Value>)

  /** `owner` is the one task that polls the receiver. `sent` is the value given
      to send, if send was called, and `answer` what send returned. */
  datatype State = State(
    owner: Token,
    cell: Option<Value>,
    flag: bool,
    rxTask: Option<Token>,
    tx: Tx,
    rx: Rx,
    sent: Option<Value>,
    answer: Option<bool>)

  datatype Action = StartSend(value: Value) | StartDrop | TxStep | StartPoll | RxStep

  ghost predicate Init(s: State)
  {
    s == State(s.owner, None, false, None, Unused, Resting, None, None)
  }

  ghost predicate Enabled(s: State, a: Action)
  {
    match a
    case StartSend(_) => s.tx == Unused
    case StartDrop => s.tx == Unused
    case TxStep => s.tx != Unused && s.tx != Gone
    case StartPoll => s.rx == Resting
    case RxStep => s.rx == LoadFlag || s.rx == TakeCell
  }

  ghost function TxNext(s: State): State
  {
    match s.tx
    case CheckFlag(v) =>
      if s.flag then s.(tx := DropSetFlag, answer := Some(false)) else s.(tx := WriteCell(v))
    case WriteCell(v) => s.(tx := SetFlag, cell := Some(v))
    case SetFlag => s.(tx := ReadTask, flag := true)
    case ReadTask =>
      if s.rxTask.Some? then s.(tx := WakeTask(s.rxTask.value)) else s.(tx := DropSetFlag, answer := Some(true))
    case WakeTask(_) => s.(tx := DropSetFlag, answer := Some(true))
    case DropSetFlag => s.(tx := DropReadTask, flag := true)
    case DropReadTask => if s.rxTask.Some? then s.(tx := DropWakeTask(s.rxTask.value)) else s.(tx := Gone)
    case DropWakeTask(_) => s.(tx := Gone)
    case _ => s
  }

  /** The first step of a poll publishes the task, once; the second loads the flag. */
  ghost function RxNext(s: State): State
  {
    match s.rx
    case Resting => s.(rx := LoadFlag, rxTask := if s.rxTask.None? then Some(s.owner) else s.rxTask)
    case LoadFlag => s.(rx := if s.flag then TakeCell else Resting)
    case TakeCell => s.(rx := Ready(s.cell), cell := None)
    case Ready(_) => s
  }

  ghost function Step(s: State, a: Action): State
  {
    match a
    case StartSend(v) => s.(tx := CheckFlag(v), sent := Some(v))
    case StartDrop => s.(tx := DropSetFlag)
    case TxStep => TxNext(s)
    case StartPoll => RxNext(s)
    case RxStep => RxNext(s)
  }

  ghost predicate Next(s: State, a: Action, s': State)
  {
    Enabled(s, a) && s' == Step(s, a)
  }

  /** The token that the action pushes to the wake queue. */
  ghost function Wakes(s: State, a: Action): Option<Token>
  {
    if a.TxStep? && (s.tx.WakeTask? || s.tx.DropWakeTask?) then Some(s.tx.token) else None
  }

  // ----- Exact delivery -----

  ghost predicate BeforeFlag(tx: Tx)
  {
    tx == Unused || tx.CheckFlag? || tx.WriteCell? || tx == SetFlag
  }

  /** What the cell must hold until it is taken. */
  ghost function Written(s: State): Option<Value>
  {
    if s.tx.CheckFlag? || s.tx.WriteCell? then None else s.sent
  }

  ghost predicate Inv(s: State)
  {
    && (BeforeFlag(s.tx) ==> !s.flag)
    && (!BeforeFlag(s.tx) && s.tx != DropSetFlag ==> s.flag)
    && (s.tx == Unused ==> s.sent == None)
    && (s.tx.CheckFlag? || s.tx.WriteCell? ==> s.sent == Some(s.tx.value))
    && (s.tx == SetFlag || s.tx == ReadTask || s.tx.WakeTask? ==> s.sent.Some?)
    && (s.tx == DropSetFlag && s.sent.Some? ==> s.flag)
    && (s.rx == TakeCell || s.rx.Ready? ==> s.flag)
    && (!s.rx.Ready? ==> s.cell == Written(s))
    && (s.rx.Ready? ==> s.cell == None && s.rx.result == s.sent)
    && (s.rxTask.Some? ==> s.rxTask.value == s.owner)
    && (s.rx != Resting ==> s.rxTask.Some?)
    && (s.tx.WakeTask? || s.tx.DropWakeTask? ==> s.tx.token == s.owner)
    && s.answer != Some(false)
    && (s.sent.None? ==> s.answer == None)
    && (s.sent.Some? && !BeforeFlag(s.tx) && s.tx != ReadTask && !s.tx.WakeTask? ==> s.answer == Some(true))
  }

  lemma InvKept(s: State, a: Action, s': State)
    requires Inv(s) && Next(s, a, s')
    ensures Inv(s')
  {
  }

  lemma InvAlways(r: Run<State, Action>, i: nat)
    requires IsRun(Init, Next, r) && i < |r.states|
    ensures Inv(r.states[i])
  {
    forall s, a, s' | Inv(s) && Next(s, a, s') ensures Inv(s') {
      InvKept(s, a, s');
    }
    InvariantHolds(Init, Next, Inv, r, i);
  }

  ghost predicate Did(r: Run<State, Action>, i: nat, a: Action)
    requires i <= |r.acts|
  {
    exists k :: 0 <= k < i && r.acts[k] == a
  }

  /** The recorded value is the one given to send, by whichever action that was. */
  lemma {:induction false} SentIsHistory(r: Run<State, Action>, i: nat, v: Value)
    requires IsRun(Init, Next, r) && i < |r.states|
    ensures r.states[i].sent == Some(v) <==> Did(r, i, StartSend(v))
    ensures r.states[i].sent == None && r.states[i].tx != Unused <==> Did(r, i, StartDrop)
  {
    if i == 0 {
    } else {
      SentIsHistory(r, i - 1, v);
      InvAlways(r, i - 1);
      var s, a, s' := r.states[i - 1], r.acts[i - 1], r.states[i - 1 + 1];
      assert Next(s, a, s');
      assert Did(r, i, StartSend(v)) <==> Did(r, i - 1, StartSend(v)) || a == StartSend(v);
      assert Did(r, i, StartDrop) <==> Did(r, i - 1, StartDrop) || a == StartDrop;
    }
  }

  /** In every interleaving: the cell is written only while the flag is down and
      taken only once it is up, so the two accesses exclude each other; what the
      receiver returns is Some(v) exactly if send(v) was called and None exactly
      if the sender was dropped unsent; and send never answers false. */
  lemma ExactDelivery(r: Run<State, Action>, i: nat, v: Value)
    requires IsRun(Init, Next, r) && i < |r.states|
    ensures var s := r.states[i];
            && (s.tx.WriteCell? ==> !s.flag && s.rx != TakeCell)
            && (s.rx == TakeCell ==> s.flag)
            && (s.rx.Ready? ==> (s.rx.result == Some(v) <==> Did(r, i, StartSend(v))))
            && (s.rx.Ready? ==> (s.rx.result == None <==> Did(r, i, StartDrop)))
            && s.answer != Some(false)
  {
    InvAlways(r, i);
    SentIsHistory(r, i, v);
  }

  // ----- Extra polls are harmless -----

  /** Two runs whose senders do the same deliver the same, however often and
      whenever their receivers are polled. */
  lemma PollsDoNotMatter(r: Run<State, Action>, i: nat, q: Run<State, Action>, j: nat)
    requires IsRun(Init, Next, r) && i < |r.states| && r.states[i].rx.Ready?
    requires IsRun(Init, Next, q) && j < |q.states| && q.states[j].rx.Ready?
    requires forall v :: Did(r, i, StartSend(v)) <==> Did(q, j, StartSend(v))
    ensures r.states[i].rx.result == q.states[j].rx.result
  {
    InvAlways(r, i);
    InvAlways(q, j);
    forall v ensures r.states[i].sent == Some(v) <==> q.states[j].sent == Some(v) {
      SentIsHistory(r, i, v);
      SentIsHistory(q, j, v);
    }
    if r.states[i].sent.Some? {
      assert q.states[j].sent == Some(r.states[i].sent.value);
    } else if q.states[j].sent.Some? {
      assert r.states[i].sent == Some(q.states[j].sent.value);
    }
  }

  /** After the first poll, a poll that finds the flag down changes nothing at all. */
  lemma SpuriousPollChangesNothing(s: State)
    requires Inv(s) && s.rx == Resting && s.rxTask.Some? && !s.flag
    ensures Next(s, StartPoll, Step(s, StartPoll))
    ensures Next(Step(s, StartPoll), RxStep, s)
  {
  }

  /** One more poll where the receiver would only find the channel unused. */
  lemma ExtraPoll(r: Run<State, Action>, i: nat) returns (q: Run<State, Action>)
    requires IsRun(Init, Next, r) && i < |r.states|
    requires r.states[i].rx == Resting && r.states[i].rxTask.Some? && !r.states[i].flag
    ensures IsRun(Init, Next, q) && |q.acts| == |r.acts| + 2
    ensures q.acts[..i] == r.acts[..i] && q.acts[i..i + 2] == [StartPoll, RxStep] && q.acts[i + 2..] == r.acts[i..]
    ensures q.states[..i] == r.states[..i] && q.states[i] == r.states[i] && q.states[i + 2..] == r.states[i..]
  {
    var s := r.states[i];
    InvAlways(r, i);
    SpuriousPollChangesNothing(s);
    var d := Run([s, Step(s, StartPoll), s], [StartPoll, RxStep]);
    SplicedIsRun(Init, Next, r, i, d);
    SplicedSlices(r, i, d);
    q := Spliced(r, i, d);
  }

  /** So any number of extra polls can be put into a run wherever the receiver rests
      with the flag down: the rest of the run is what it was, state for state and
      action for action. */
  lemma {:induction false} ExtraPolls(r: Run<State, Action>, i: nat, n: nat) returns (q: Run<State, Action>)
    requires IsRun(Init, Next, r) && i < |r.states|
    requires r.states[i].rx == Resting && r.states[i].rxTask.Some? && !r.states[i].flag
    ensures IsRun(Init, Next, q) && |q.acts| == |r.acts| + 2 * n
    ensures q.acts[..i] == r.acts[..i] && q.acts[i + 2 * n..] == r.acts[i..]
    ensures q.states[..i] == r.states[..i] && q.states[i + 2 * n..] == r.states[i..]
    ensures forall k :: i <= k < i + 2 * n ==> q.acts[k] == StartPoll || q.acts[k] == RxStep
    ensures q.states[i] == r.states[i]
    decreases n
  {
    if n == 0 {
      q := r;
    } else {
      var p := ExtraPoll(r, i);
      assert p.states[i + 2..][0] == r.states[i..][0];
      q := ExtraPolls(p, i + 2, n - 1);
      assert q.acts[..i + 2][..i] == q.acts[..i] && q.states[..i + 2][..i] == q.states[..i];
      assert q.states[..i + 2][i] == p.states[..i + 2][i] == p.states[i];
      assert q.acts[..i + 2][i..] == p.acts[..i + 2][i..] == [StartPoll, RxStep];
    }
  }

  /** And a poll that begins after the flag went up is Ready with what was sent. */
  lemma FlagIsSeen(s: State)
    requires Inv(s) && s.rx == Resting && s.flag
    ensures PollEffect(s).rx == Ready(s.sent)
  {
  }

  // ----- The program -----

  class OneshotState {
    var value: Option<Value>
    var state: bool
    var rxTask: Option<Token>
    const wakeQueue: SyncQueue<Token>

    constructor (wakeQueue: SyncQueue<Token>)
      ensures value == None && !state && rxTask == None && this.wakeQueue == wakeQueue
    {
      value, state, rxTask, this.wakeQueue := None, false, None, wakeQueue;
    }

    /** The memory of the channel, as the step system sees it. */
    ghost function View(s: State): State
      reads this
    {
      s.(cell := value, flag := state, rxTask := rxTask)
    }

    method Send(v: Value) returns (sent: bool)
      requires this as object != wakeQueue
      modifies this, wakeQueue
      ensures sent == !old(state)
      ensures forall s: State :: View(s) == SendEffect(old(View(s)), v)
      ensures sent ==> value == Some(v) && state && rxTask == old(rxTask)
      ensures wakeQueue.View() ==
              if sent && old(rxTask).Some? then Release(Push(old(wakeQueue.View()), old(rxTask).value))
              else old(wakeQueue.View())
      ensures sent && old(rxTask).Some? ==> wakeQueue.vals == old(wakeQueue.vals) + [old(rxTask).value]
    {
      if state {
        sent := false;
      } else {
        value := Some(v);
        state := true;
        if rxTask.Some? {
          wakeQueue.Add(rxTask.value);
        }
        sent := true;
      }
    }

    method DropSender()
      requires this as object != wakeQueue
      modifies this, wakeQueue
      ensures forall s: State :: View(s) == old(View(s)).(flag := true)
      ensures wakeQueue.View() == if old(rxTask).Some? then Release(Push(old(wakeQueue.View()), old(rxTask).value))
                                  else old(wakeQueue.View())
      ensures old(rxTask).Some? ==> wakeQueue.vals == old(wakeQueue.vals) + [old(rxTask).value]
    {
      state := true;
      if rxTask.Some? {
        wakeQueue.Add(rxTask.value);
      }
    }

    /** None is Pending, Some(r) is Ready(r). */
    method Poll(token: Token) returns (ready: Option<Option<Value>>)
      modifies this
      ensures state == old(state) && rxTask == if old(rxTask).Some? then old(rxTask) else Some(token)
      ensures state ==> ready == Some(old(value)) && value == None
      ensures !state ==> ready == None && value == old(value)
      ensures forall s: State :: s.owner == token && s.rx == Resting ==>
                View(s.(rx := if ready.Some? then Ready(ready.value) else Resting)) == PollEffect(old(View(s)))
    {
      if rxTask == None {
        rxTask := Some(token);
      }
      if state {
        ready := Some(value);
        value := None;
      } else {
        ready := None;
      }
    }
  }

  /** What `send` does to the memory when nothing interferes. */
  ghost function SendEffect(s: State, v: Value): State
  {
    if s.flag then s else s.(cell := Some(v), flag := true)
  }

  ghost function PollEffect(s: State): State
    requires s.rx == Resting
  {
    var m := RxNext(RxNext(s));
    if m.rx == TakeCell then RxNext(m) else m
  }

  /** What a whole poll comes to: the owner is registered, unless somebody was, and
      the poll is Ready with what is in the cell exactly if the flag is up. */
  lemma WholePoll(s: State)
    requires s.rx == Resting
    ensures var registered := s.(rxTask := if s.rxTask.None? then Some(s.owner) else s.rxTask);
            PollEffect(s) == if s.flag then registered.(rx := Ready(s.cell), cell := None) else registered
    ensures Leads(Next, s, [StartPoll, RxStep] + if s.flag then [RxStep] else [], PollEffect(s))
  {
    var s1 := RxNext(s);
    var s2 := RxNext(s1);
    LeadsNowhere(Next, s);
    LeadsOn(Next, s, [], s, StartPoll, s1);
    LeadsOn(Next, s, [] + [StartPoll], s1, RxStep, s2);
    assert [] + [StartPoll] + [RxStep] == [StartPoll, RxStep] == [StartPoll, RxStep] + [];
    if s.flag {
      LeadsOn(Next, s, [StartPoll, RxStep], s2, RxStep, RxNext(s2));
    }
  }

  ghost function TxTimes(s: State, n: nat): State
  {
    if n == 0 then s else TxNext(TxTimes(s, n - 1))
  }

  /** The tokens that n of the sender's steps push, in order. */
  ghost function TxWakes(s: State, n: nat): seq<Token>
  {
    if n == 0 then []
    else
      var wake := Wakes(TxTimes(s, n - 1), TxStep);
      TxWakes(s, n - 1) + if wake.Some? then [wake.value] else []
  }

  ghost function Registered(s: State): seq<Token>
  {
    if s.rxTask.Some? then [s.rxTask.value] else []
  }

  /** The method `Send` is the sender's steps, run without interference, from the
      call to the point where the sender is dropped; the tokens they push are that of
      the registered task, once, unless the flag was up. */
  lemma SendIsItsSteps(s: State, v: Value)
    requires s.tx == CheckFlag(v)
    ensures exists n :: TxTimes(s, n) == SendEffect(s, v).(tx := DropSetFlag, answer := Some(!s.flag))
                        && TxWakes(s, n) == if s.flag then [] else Registered(s)
  {
    var s1 := TxTimes(s, 1);
    var s2 := TxTimes(s, 2);
    var s3 := TxTimes(s, 3);
    var s4 := TxTimes(s, 4);
    var s5 := TxTimes(s, 5);
    assert s1 == TxNext(TxTimes(s, 0));
    assert s2 == TxNext(s1) && s3 == TxNext(s2) && s4 == TxNext(s3) && s5 == TxNext(s4);
    assert TxWakes(s, 0) == TxWakes(s, 1) == [];
    if !s.flag {
      assert TxWakes(s, 2) == TxWakes(s, 3) == TxWakes(s, 4) == [];
      assert s.rxTask.Some? ==> TxWakes(s, 5) == TxWakes(s, 4) + [s.rxTask.value];
    }
  }

  /** And `DropSender` is its steps from there to the end. */
  lemma DropIsItsSteps(s: State)
    requires s.tx == DropSetFlag
    ensures exists n :: TxTimes(s, n) == s.(flag := true, tx := Gone) && TxWakes(s, n) == Registered(s)
  {
    var s1 := TxTimes(s, 1);
    var s2 := TxTimes(s, 2);
    var s3 := TxTimes(s, 3);
    assert s1 == TxNext(TxTimes(s, 0));
    assert s2 == TxNext(s1) && s3 == TxNext(s2);
    assert TxWakes(s, 0) == TxWakes(s, 1) == TxWakes(s, 2) == [];
    assert s.rxTask.Some? ==> TxWakes(s, 3) == TxWakes(s, 2) + [s.rxTask.value];
  }
}
