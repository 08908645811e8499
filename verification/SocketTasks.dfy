/** Tasks of the executor that receive and send on one socket (src/executor.rs,
    src/net.rs): the step system of the socket's worker and that of the executor, put
    together. */
module SocketTasks {
  import opened Runs
  import opened Tokens
  import opened Waits
  import Executor
  import Socket

  /** `current`: what the poll under way found the socket not ready for; `blocked`:
      the same for the latest poll of every task that is not being polled. */
  datatype State = State(
    exec: Executor.State,
    sock: Socket.State,
    current: set<Socket.Interest>,
    blocked: map<Token, set<Socket.Interest>>)

  /** `Refused` and `Served` are a poll of a receive or send future: the socket
      answered EAGAIN, or something else. */
  datatype Action =
    | Exec(a: Executor.Action)
    | Refused(interest: Socket.Interest)
    | Served(interest: Socket.Interest)
    | Release
    | Work
    | PollOutcome(flags: Socket.Flags)

  ghost predicate Init(s: State)
  {
    Executor.Init(s.exec) && Socket.Init(s.sock) && s.current == {} && s.blocked == map[]
  }

  /** The step of the socket's system that an action is, if it is one. */
  ghost function SockAct(s: State, a: Action): Option<Socket.Action>
  {
    match a
    case Exec(_) => None
    case Refused(interest) =>
      if s.exec.pc.Polling? then Some(Socket.AddPush(Socket.Entry(s.exec.pc.task, interest))) else None
    case Served(_) => None
    case Release => Some(Socket.AddRelease)
    case Work => Some(Socket.Work)
    case PollOutcome(flags) => Some(Socket.PollOutcome(flags))
  }

  ghost predicate Enabled(s: State, a: Action)
  {
    && (a.Exec? ==> Executor.Enabled(s.exec, a.a))
    && (a.Refused? || a.Served? ==> s.exec.pc.Polling?)
    && (SockAct(s, a).Some? ==> Socket.Enabled(s.sock, SockAct(s, a).value))
  }

  /** The task that the worker's next step wakes. */
  ghost function Wakes(w: Socket.State): Option<Token>
  {
    match Socket.Answers(w, Socket.Work)
    case None => None
    case Some(e) => Some(e.task)
  }

  ghost function StepExec(s: State, a: Executor.Action): State
    requires Enabled(s, Exec(a))
  {
    s.(exec := Executor.Step(s.exec, a), current := CurrentAfter(a, s.current),
       blocked := BlockedAfter(s.exec, a, s.current, s.blocked))
  }

  ghost function StepSocket(s: State, a: Action): State
    requires Enabled(s, a) && SockAct(s, a).Some?
  {
    s.(sock := Socket.Step(s.sock, SockAct(s, a).value),
       exec := if a.Work? && Wakes(s.sock).Some? then
                 Executor.Step(s.exec, Executor.PushWake(Wakes(s.sock).value))
               else s.exec)
  }

  ghost function Step(s: State, a: Action): State
    requires Enabled(s, a)
  {
    match a
    case Exec(x) => StepExec(s, x)
    case Refused(interest) => StepSocket(s, a).(current := s.current + {interest})
    case Served(interest) => s.(current := s.current - {interest})
    case _ => StepSocket(s, a)
  }

  ghost predicate Next(s: State, a: Action, s': State)
  {
    Enabled(s, a) && s' == Step(s, a)
  }

  // ----- Whoever was refused is registered or will be polled -----

  /** The registration is queued, or in the worker's hands. */
  ghost predicate Registered(w: Socket.State, t: Token, interest: Socket.Interest)
  {
    || Socket.Entry(t, interest) in w.queue.vals
    || t in Socket.Held(w, interest)
  }

  ghost predicate Covered(s: State, t: Token, interest: Socket.Interest)
  {
    Registered(s.sock, t, interest) || t in s.exec.wakes.vals
  }

  ghost predicate Inv(s: State)
  {
    && Executor.Awake(s.exec)
    && (s.exec.pc.Polling? && !s.exec.pc.first ==> s.exec.pc.task in s.exec.tasks)
    && (!s.exec.pc.Polling? ==> s.current == {})
    && s.blocked.Keys <= s.exec.tasks.Keys
    && (forall n :: n in s.current ==> Covered(s, s.exec.pc.task, n))
    && (forall t, n :: t in s.blocked && n in s.blocked[t] ==> Covered(s, t, n))
  }

  /** Sorting loses nobody. */
  lemma {:induction false} TasksHas(entries: seq<Socket.Entry>, e: Socket.Entry)
    requires e in entries
    ensures e.task in Socket.Tasks(entries, e.interest)
  {
    if entries[0] == e {
    } else {
      assert entries == [entries[0]] + entries[1..];
      TasksHas(entries[1..], e);
    }
  }

  /** No step of the socket drops a registration without waking its task. */
  lemma SocketKeepsCovered(s: State, a: Action, s': State, t: Token, interest: Socket.Interest)
    requires Next(s, a, s') && SockAct(s, a).Some? && Covered(s, t, interest)
    ensures Covered(s', t, interest)
  {
    var e := Socket.Entry(t, interest);
    if a.Work? && s.sock.worker == Socket.Draining && e in s.sock.queue.vals {
      TasksHas(s.sock.queue.vals, e);
    } else if Wakes(s.sock) == Some(t) && a.Work? {
      assert t in s'.exec.wakes.vals;
    }
  }

  lemma SocketKeepsInv(s: State, a: Action, s': State)
    requires Inv(s) && Next(s, a, s') && SockAct(s, a).Some?
    ensures Inv(s')
  {
    if s'.exec != s.exec {
      Executor.AwakeKept(s.exec, Executor.PushWake(Wakes(s.sock).value), s'.exec);
    }
    forall n | n in s'.current ensures Covered(s', s.exec.pc.task, n) {
      if n in s.current {
        SocketKeepsCovered(s, a, s', s.exec.pc.task, n);
      }
    }
    forall t, n | t in s.blocked && n in s.blocked[t] ensures Covered(s', t, n) {
      SocketKeepsCovered(s, a, s', t, n);
    }
  }

  lemma ExecKeepsInv(s: State, a: Executor.Action)
    requires Inv(s) && Enabled(s, Exec(a))
    ensures Inv(StepExec(s, a))
  {
    Executor.AwakeKept(s.exec, a, Executor.Step(s.exec, a));
  }

  lemma InvKept(s: State, a: Action, s': State)
    requires Inv(s) && Next(s, a, s')
    ensures Inv(s')
  {
    if a.Exec? {
      ExecKeepsInv(s, a.a);
    } else if SockAct(s, a).Some? {
      SocketKeepsInv(s, a, s');
    }
  }

  lemma InvAlways(r: Run<State, Action>, i: nat)
    requires IsRun(Init, Next, r) && i < |r.states|
    ensures Inv(r.states[i])
  {
    forall s, a, s' | Inv(s) && Next(s, a, s') ensures Inv(s') {
      InvKept(s, a, s');
    }
    InvariantHolds(Init, Next, Inv, r, i);
  }

  ghost predicate AllTracked(s: State)
  {
    Tracked(s.exec, s.blocked)
  }

  lemma TrackedAlways(r: Run<State, Action>, i: nat)
    requires IsRun(Init, Next, r) && i < |r.states|
    ensures AllTracked(r.states[i])
  {
    forall s, a, s' | AllTracked(s) && Next(s, a, s') ensures AllTracked(s') {
      if a.Exec? {
        TrackedKept(s.exec, a.a, s.current, s.blocked);
      } else if s'.exec != s.exec {
        TrackedKept(s.exec, Executor.PushWake(Wakes(s.sock).value), s.current, s.blocked);
      }
    }
    InvariantHolds(Init, Next, AllTracked, r, i);
  }

  // ----- What it means to be blocked -----

  /** Action k is a poll of a future for this interest that the socket refused, and up
      to state i, in the same poll of the task, no future for it is polled again. */
  ghost predicate WasRefused(r: Run<State, Action>, interest: Socket.Interest, k: nat, i: nat)
    requires |r.states| == |r.acts| + 1 && i < |r.states|
  {
    && k < i && r.acts[k] == Refused(interest)
    && forall j :: k < j < i ==>
         r.acts[j] != Refused(interest) && r.acts[j] != Served(interest) && !(r.acts[j].Exec? && r.acts[j].a.EndPoll?)
  }

  lemma {:induction false} CurrentIsHistory(r: Run<State, Action>, interest: Socket.Interest, i: nat)
    requires IsRun(Init, Next, r) && i < |r.states|
    ensures interest in r.states[i].current <==> exists k: nat :: WasRefused(r, interest, k, i)
  {
    if i == 0 {
    } else {
      CurrentIsHistory(r, interest, i - 1);
      var s, a, s' := r.states[i - 1], r.acts[i - 1], r.states[i - 1 + 1];
      assert Next(s, a, s');
      if a == Refused(interest) || a == Served(interest) || (a.Exec? && a.a.EndPoll?) {
        assert forall k: nat :: WasRefused(r, interest, k, i) ==> k == i - 1;
        assert a == Refused(interest) ==> WasRefused(r, interest, i - 1, i);
      } else {
        assert interest in s'.current <==> interest in s.current;
        forall k: nat ensures WasRefused(r, interest, k, i) == WasRefused(r, interest, k, i - 1) {
        }
        if interest in s.current {
          var k: nat :| WasRefused(r, interest, k, i - 1);
          assert WasRefused(r, interest, k, i);
        }
      }
    }
  }

  ghost function ExecOf(s: State): Executor.State
  {
    s.exec
  }

  ghost function ExecAct(s: State, a: Action): Option<Executor.Action>
  {
    match a
    case Exec(x) => Some(x)
    case Work => if Wakes(s.sock).Some? then Some(Executor.PushWake(Wakes(s.sock).value)) else None
    case _ => None
  }

  ghost function CurrentOf(s: State): set<Socket.Interest>
  {
    s.current
  }

  ghost function BlockedOf(s: State): map<Token, set<Socket.Interest>>
  {
    s.blocked
  }

  /** A task is blocked on an interest, in the sense of the theorems below, if and only
      if its latest poll has ended Pending and the last future for that interest which
      this poll polled was refused. */
  lemma BlockedExactly(r: Run<State, Action>, i: nat, t: Token, interest: Socket.Interest)
    requires IsRun(Init, Next, r) && i < |r.states|
    ensures t in r.states[i].blocked && interest in r.states[i].blocked[t] <==>
              exists m: nat, k: nat :: LatestPoll(r, ExecOf, ExecAct, t, m, i) && WasRefused(r, interest, k, m)
  {
    forall j | 0 <= j < |r.acts|
      ensures Records(r.states[j], r.acts[j], r.states[j + 1], ExecOf, ExecAct, CurrentOf, BlockedOf)
    {
      assert Next(r.states[j], r.acts[j], r.states[j + 1]);
    }
    BlockedIsHistory(r, ExecOf, ExecAct, CurrentOf, BlockedOf, t, i);
    forall m: nat | LatestPoll(r, ExecOf, ExecAct, t, m, i)
      ensures interest in r.states[i].blocked[t] <==> exists k: nat :: WasRefused(r, interest, k, m)
    {
      CurrentIsHistory(r, interest, m);
    }
  }

  // ----- The theorems -----

  /** In every interleaving: while the executor sleeps, every live task whose latest
      poll found the socket not ready is still registered for what it waits for. */
  lemma NoLostInterest(r: Run<State, Action>, i: nat)
    requires IsRun(Init, Next, r) && i < |r.states| && Executor.Asleep(r.states[i].exec)
    ensures var s := r.states[i];
            && (forall t, n :: t in s.blocked && n in s.blocked[t] ==> t in s.exec.tasks && Registered(s.sock, t, n))
            && (s.exec.spawned <= Executor.MAX_TASKS ==> s.blocked.Keys == s.exec.tasks.Keys)
  {
    InvAlways(r, i);
    TrackedAlways(r, i);
    var s := r.states[i];
    forall t, n | t in s.blocked && n in s.blocked[t] ensures t in s.exec.tasks && Registered(s.sock, t, n) {
      assert Covered(s, t, n);
    }
  }

  ghost function SockOf(s: State): Socket.State
  {
    s.sock
  }

  /** So while both the executor and the socket's worker sleep, no live task waits
      for the socket: the worker does not sleep on anybody. */
  lemma NobodyWaitsWhileTheWorkerSleeps(r: Run<State, Action>, i: nat)
    requires IsRun(Init, Next, r) && i < |r.states| && Executor.Asleep(r.states[i].exec)
    requires var w := r.states[i].sock; w.worker == Socket.Waiting && w.queue.permits == 0 && w.adding == 0
    ensures forall t :: t in r.states[i].blocked ==> r.states[i].blocked[t] == {}
  {
    forall j | 0 <= j < |r.acts|
      ensures match SockAct(r.states[j], r.acts[j])
              case None => SockOf(r.states[j + 1]) == SockOf(r.states[j])
              case Some(b) => Socket.Next(SockOf(r.states[j]), b, SockOf(r.states[j + 1]))
    {
      assert Next(r.states[j], r.acts[j], r.states[j + 1]);
    }
    var q, at := Project(Socket.Init, Socket.Next, SockOf, SockAct, r, i);
    Socket.NeverSleepsOnInterest(q, at[i]);
    NoLostInterest(r, i);
    forall t, n ensures !Registered(r.states[i].sock, t, n) {
    }
  }
}
