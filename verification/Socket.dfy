/** The worker thread of an asynchronous socket (src/net.rs). Recv and send
    futures register their task's interest in a queue; the worker collects the
    interests, polls the socket, and wakes whom the outcome concerns. */
module Socket {
  import opened Runs
  import opened Tokens
  import opened Queues

  datatype Interest = Read | Write

  /** One registration: a task and what it waits for. */
  datatype Entry = Entry(task: Token, interest: Interest)

  /** The flags of a poll that matter here. */
  datatype Flags = Flags(pollIn: bool, pollOut: bool)

  ghost predicate Grants(f: Flags, interest: Interest)
  {
    if interest == Read then f.pollIn else f.pollOut
  }

  /** Where the worker is: at the top of its loop; waiting on the semaphore; about
      to drain the queue; about to poll the socket; waking writers, then readers,
      after a poll that returned the given flags. */
  datatype Worker = Top | Waiting | Draining | Polling | WakeWriters(flags: Flags) | WakeReaders(flags: Flags)

  /** `adding`: registrations between push and release. `registered` is every
      registration so far, `woken` every one that was answered. */
  datatype State = State(
    worker: Worker,
    queue: Queue<Entry>,
    adding: nat,
    readers: seq<Token>,
    writers: seq<Token>,
    registered: multiset<Entry>,
    woken: multiset<Entry>)

  datatype Action = AddPush(entry: Entry) | AddRelease | Work | PollOutcome(flags: Flags)

  ghost predicate Init(s: State)
  {
    s == State(Top, Queue([], 0), 0, [], [], multiset{}, multiset{})
  }

  ghost predicate Enabled(s: State, a: Action)
  {
    match a
    case AddPush(_) => true
    case AddRelease => s.adding > 0
    case Work => s.worker != Polling && (s.worker == Waiting ==> s.queue.permits > 0)
    case PollOutcome(_) => s.worker == Polling
  }

  /** The tasks registered for an interest, in order. */
  function Tasks(entries: seq<Entry>, interest: Interest): seq<Token>
  {
    if entries == [] then []
    else if entries[0].interest == interest then [entries[0].task] + Tasks(entries[1..], interest)
    else Tasks(entries[1..], interest)
  }

  ghost function Worked(s: State): State
    requires Enabled(s, Work)
  {
    match s.worker
    case Top => s.(worker := if s.readers == [] && s.writers == [] then Waiting else Draining)
    case Waiting => s.(worker := Draining, queue := Acquire(s.queue))
    case Draining =>
      s.(worker := Polling, queue := s.queue.(vals := []),
         readers := s.readers + Tasks(s.queue.vals, Read), writers := s.writers + Tasks(s.queue.vals, Write))
    case WakeWriters(f) =>
      if !f.pollOut || s.writers == [] then s.(worker := WakeReaders(f))
      else s.(writers := s.writers[1..], woken := s.woken + multiset{Entry(s.writers[0], Write)})
    case WakeReaders(f) =>
      if !f.pollIn || s.readers == [] then s.(worker := Top)
      else s.(readers := s.readers[1..], woken := s.woken + multiset{Entry(s.readers[0], Read)})
  }

  ghost function Step(s: State, a: Action): State
    requires Enabled(s, a)
  {
    match a
    case AddPush(e) => s.(queue := Push(s.queue, e), adding := s.adding + 1, registered := s.registered + multiset{e})
    case AddRelease => s.(queue := Release(s.queue), adding := s.adding - 1)
    case Work => Worked(s)
    case PollOutcome(f) => s.(worker := WakeWriters(f))
  }

  ghost predicate Next(s: State, a: Action, s': State)
  {
    Enabled(s, a) && s' == Step(s, a)
  }

  // ----- Conservation -----

  ghost function Entries(tasks: seq<Token>, interest: Interest): multiset<Entry>
  {
    if tasks == [] then multiset{}
    else multiset{Entry(tasks[0], interest)} + Entries(tasks[1..], interest)
  }

  lemma {:induction false} EntriesAppend(a: seq<Token>, b: seq<Token>, interest: Interest)
    ensures Entries(a + b, interest) == Entries(a, interest) + Entries(b, interest)
  {
    if a == [] {
      assert a + b == b;
    } else {
      assert (a + b)[1..] == a[1..] + b;
      EntriesAppend(a[1..], b, interest);
    }
  }

  /** Sorting the queue into readers and writers keeps every entry. */
  lemma {:induction false} SortingKeepsEntries(entries: seq<Entry>)
    ensures multiset(entries) == Entries(Tasks(entries, Read), Read) + Entries(Tasks(entries, Write), Write)
  {
    if entries == [] {
    } else {
      var e := entries[0];
      assert entries == [e] + entries[1..];
      SortingKeepsEntries(entries[1..]);
      if e.interest == Read {
        assert Tasks(entries, Read)[1..] == Tasks(entries[1..], Read);
      } else {
        assert Tasks(entries, Write)[1..] == Tasks(entries[1..], Write);
      }
    }
  }

  ghost predicate Conserved(s: State)
  {
    s.registered == multiset(s.queue.vals) + Entries(s.readers, Read) + Entries(s.writers, Write) + s.woken
  }

  /** The worker acts on the outcome of a poll. */
  ghost predicate Flagged(w: Worker)
  {
    w.WakeWriters? || w.WakeReaders?
  }

  lemma DrainConserves(s: State)
    requires Conserved(s) && s.worker == Draining
    ensures Conserved(Worked(s))
  {
    SortingKeepsEntries(s.queue.vals);
    EntriesAppend(s.readers, Tasks(s.queue.vals, Read), Read);
    EntriesAppend(s.writers, Tasks(s.queue.vals, Write), Write);
  }

  lemma WakeConserves(s: State)
    requires Conserved(s) && Flagged(s.worker)
    ensures Conserved(Worked(s))
  {
    var queued, readers, writers := multiset(s.queue.vals), Entries(s.readers, Read), Entries(s.writers, Write);
    if s.worker.WakeWriters? && s.worker.flags.pollOut && s.writers != [] {
      var rest := Entries(s.writers[1..], Write);
      Regroup(queued + readers, multiset{Entry(s.writers[0], Write)}, rest, multiset{}, s.woken);
    } else if s.worker.WakeReaders? && s.worker.flags.pollIn && s.readers != [] {
      var rest := Entries(s.readers[1..], Read);
      Regroup(queued, multiset{Entry(s.readers[0], Read)}, rest, writers, s.woken);
    }
  }

  lemma Regroup<T>(a: multiset<T>, x: multiset<T>, b: multiset<T>, c: multiset<T>, d: multiset<T>)
    ensures a + (x + b) + c + d == a + b + c + (d + x)
    ensures a + (x + b) + d == a + b + (d + x)
  {
  }

  lemma ConservedKept(s: State, a: Action, s': State)
    requires Conserved(s) && Next(s, a, s')
    ensures Conserved(s')
  {
    if a.AddPush? {
      assert multiset(s'.queue.vals) == multiset(s.queue.vals) + multiset{a.entry};
    } else if a.Work? && s.worker == Draining {
      DrainConserves(s);
    } else if a.Work? && Flagged(s.worker) {
      WakeConserves(s);
    } else {
      assert s'.queue.vals == s.queue.vals && s'.readers == s.readers && s'.writers == s.writers;
    }
  }

  /** In every run the registrations are those in the queue, those held as readers
      or writers, and those already woken: each is woken at most as often as it was
      made, and none disappears. */
  lemma InterestConservation(r: Run<State, Action>, i: nat)
    requires IsRun(Init, Next, r) && i < |r.states|
    ensures Conserved(r.states[i])
  {
    forall s, a, s' | Conserved(s) && Next(s, a, s') ensures Conserved(s') {
      ConservedKept(s, a, s');
    }
    InvariantHolds(Init, Next, Conserved, r, i);
  }

  // ----- First come, first served -----

  /** Sorting takes the entries one by one and keeps their order. */
  lemma {:induction false} TasksAppend(a: seq<Entry>, b: seq<Entry>, interest: Interest)
    ensures Tasks(a + b, interest) == Tasks(a, interest) + Tasks(b, interest)
  {
    if a == [] {
      assert a + b == b;
    } else {
      assert (a + b)[1..] == a[1..] + b;
      TasksAppend(a[1..], b, interest);
    }
  }

  lemma TasksOne(e: Entry, interest: Interest)
    ensures Tasks([e], interest) == if e.interest == interest then [e.task] else []
  {
    assert [e][1..] == [];
  }

  /** The task, if the entry is for this interest. */
  ghost function For(e: Option<Entry>, interest: Interest): seq<Token>
  {
    if e.Some? && e.value.interest == interest then [e.value.task] else []
  }

  /** The registration that the action makes. */
  ghost function Makes(a: Action): Option<Entry>
  {
    if a.AddPush? then Some(a.entry) else None
  }

  /** The registration that the action answers. */
  ghost function Answers(s: State, a: Action): Option<Entry>
  {
    if !a.Work? then None
    else if s.worker.WakeWriters? && s.worker.flags.pollOut && s.writers != [] then Some(Entry(s.writers[0], Write))
    else if s.worker.WakeReaders? && s.worker.flags.pollIn && s.readers != [] then Some(Entry(s.readers[0], Read))
    else None
  }

  /** The tasks that registered an interest before state i, in order. */
  ghost function Arrivals(r: Run<State, Action>, interest: Interest, i: nat): seq<Token>
    requires i <= |r.acts|
  {
    if i == 0 then [] else Arrivals(r, interest, i - 1) + For(Makes(r.acts[i - 1]), interest)
  }

  /** The tasks whose registrations were answered before state i, in order. */
  ghost function Departures(r: Run<State, Action>, interest: Interest, i: nat): seq<Token>
    requires |r.states| == |r.acts| + 1 && i <= |r.acts|
  {
    if i == 0 then []
    else Departures(r, interest, i - 1) + For(Answers(r.states[i - 1], r.acts[i - 1]), interest)
  }

  ghost function Held(s: State, interest: Interest): seq<Token>
  {
    if interest == Read then s.readers else s.writers
  }

  /** Those still waiting: first those the worker holds, then those in the queue. */
  ghost function InLine(s: State, interest: Interest): seq<Token>
  {
    Held(s, interest) + Tasks(s.queue.vals, interest)
  }

  lemma ArrivalJoinsTheLine(s: State, e: Entry, interest: Interest)
    ensures InLine(Step(s, AddPush(e)), interest) == InLine(s, interest) + For(Some(e), interest)
  {
    var vals := s.queue.vals;
    TasksAppend(vals, [e], interest);
    TasksOne(e, interest);
    assert Held(s, interest) + (Tasks(vals, interest) + For(Some(e), interest)) ==
           (Held(s, interest) + Tasks(vals, interest)) + For(Some(e), interest);
  }

  lemma WorkKeepsTheLine(s: State, interest: Interest)
    requires Enabled(s, Work)
    ensures For(Answers(s, Work), interest) + InLine(Worked(s), interest) == InLine(s, interest)
  {
    var s', out := Worked(s), For(Answers(s, Work), interest);
    if s.worker == Draining {
      assert Held(s', interest) == Held(s, interest) + Tasks(s.queue.vals, interest);
      assert Tasks([], interest) == [];
    } else {
      assert s'.queue.vals == s.queue.vals && out + Held(s', interest) == Held(s, interest);
      assert out + (Held(s', interest) + Tasks(s.queue.vals, interest)) ==
             (out + Held(s', interest)) + Tasks(s.queue.vals, interest);
    }
  }

  lemma StepKeepsTheLine(s: State, a: Action, s': State, interest: Interest)
    requires Next(s, a, s')
    ensures For(Answers(s, a), interest) + InLine(s', interest) == InLine(s, interest) + For(Makes(a), interest)
  {
    match a
    case AddPush(e) => ArrivalJoinsTheLine(s, e, interest);
    case Work => WorkKeepsTheLine(s, interest);
    case _ => assert InLine(s', interest) == InLine(s, interest);
  }

  lemma Shift<T>(a: seq<T>, out: seq<T>, line': seq<T>, line: seq<T>, into: seq<T>, all: seq<T>)
    requires out + line' == line + into && a + line == all
    ensures (a + out) + line' == all + into
  {
    assert (a + out) + line' == a + (out + line');
    assert a + (line + into) == (a + line) + into;
  }

  /** In every run each interest is answered in the order of registration: those
      answered, then those held, then those queued are all who registered for it. */
  lemma {:induction false} FirstComeFirstServed(r: Run<State, Action>, interest: Interest, i: nat)
    requires IsRun(Init, Next, r) && i < |r.states|
    ensures Departures(r, interest, i) + InLine(r.states[i], interest) == Arrivals(r, interest, i)
  {
    if i == 0 {
    } else {
      FirstComeFirstServed(r, interest, i - 1);
      var s, a, s' := r.states[i - 1], r.acts[i - 1], r.states[i - 1 + 1];
      assert Next(s, a, s');
      StepKeepsTheLine(s, a, s', interest);
      Shift(Departures(r, interest, i - 1), For(Answers(s, a), interest), InLine(s', interest),
            InLine(s, interest), For(Makes(a), interest), Arrivals(r, interest, i - 1));
    }
  }

  // ----- Never asleep on a registration -----

  ghost predicate Attentive(s: State)
  {
    && (s.worker == Waiting ==> s.readers == [] && s.writers == [])
    && (s.worker != Draining && s.queue.vals != [] && s.adding == 0 ==> s.queue.permits > 0)
  }

  /** Whenever the worker blocks on the semaphore, it holds no registration, and
      if no registration is half made, none is queued either: all were answered. */
  lemma NeverSleepsOnInterest(r: Run<State, Action>, i: nat)
    requires IsRun(Init, Next, r) && i < |r.states|
    requires r.states[i].worker == Waiting && r.states[i].queue.permits == 0
    ensures r.states[i].readers == [] && r.states[i].writers == []
    ensures r.states[i].adding == 0 ==> r.states[i].queue.vals == [] && r.states[i].woken == r.states[i].registered
  {
    forall s, a, s' | Attentive(s) && Next(s, a, s') ensures Attentive(s') {
    }
    InvariantHolds(Init, Next, Attentive, r, i);
    InterestConservation(r, i);
  }

  // ----- Woken only on the event waited for -----

  /** The latest poll before state i, action k, returned f. */
  ghost predicate LatestPoll(r: Run<State, Action>, k: nat, i: nat, f: Flags)
    requires i <= |r.acts|
  {
    k < i && r.acts[k] == PollOutcome(f) && forall j :: k < j < i ==> !r.acts[j].PollOutcome?
  }

  /** While the outcome of a poll is acted on, nobody joins the lists. */
  lemma ListsOnlyShrink(s: State, a: Action, s': State)
    requires Next(s, a, s') && Flagged(s.worker) && Flagged(s'.worker)
    ensures !a.PollOutcome? && s'.worker.flags == s.worker.flags
    ensures forall t :: t in s'.readers ==> t in s.readers
    ensures forall t :: t in s'.writers ==> t in s.writers
  {
  }

  /** Only a poll makes the worker act on flags. */
  lemma FlagsComeFromPolls(s: State, a: Action, s': State)
    requires Next(s, a, s') && !Flagged(s.worker) && Flagged(s'.worker)
    ensures a == PollOutcome(s'.worker.flags) && s'.readers == s.readers && s'.writers == s.writers
  {
  }

  lemma StillLatest(r: Run<State, Action>, k: nat, i: nat, f: Flags)
    requires i < |r.acts| && LatestPoll(r, k, i, f) && !r.acts[i].PollOutcome?
    ensures LatestPoll(r, k, i + 1, f)
  {
  }

  lemma {:induction false} FlagsAreLatest(r: Run<State, Action>, i: nat) returns (k: nat)
    requires IsRun(Init, Next, r) && i < |r.states| && Flagged(r.states[i].worker)
    ensures LatestPoll(r, k, i, r.states[i].worker.flags)
    ensures forall t :: t in r.states[i].readers ==> t in r.states[k].readers
    ensures forall t :: t in r.states[i].writers ==> t in r.states[k].writers
  {
    var s, a, s' := r.states[i - 1], r.acts[i - 1], r.states[i - 1 + 1];
    assert Next(s, a, s');
    if !Flagged(s.worker) {
      k := i - 1;
      FlagsComeFromPolls(s, a, s');
    } else {
      k := FlagsAreLatest(r, i - 1);
      ListsOnlyShrink(s, a, s');
      StillLatest(r, k, i - 1, s.worker.flags);
    }
  }

  /** A task is woken only after a poll that returned the flag for its interest,
      and only if its registration was in the worker's hands before that poll. */
  lemma WokenOnItsEvent(r: Run<State, Action>, i: nat, e: Entry) returns (k: nat)
    requires IsRun(Init, Next, r) && i < |r.acts|
    requires r.states[i + 1].woken[e] > r.states[i].woken[e]
    ensures exists f :: LatestPoll(r, k, i, f) && Grants(f, e.interest)
    ensures e.task in (if e.interest == Read then r.states[k].readers else r.states[k].writers)
  {
    var s := r.states[i];
    assert Next(s, r.acts[i], r.states[i + 1]);
    k := FlagsAreLatest(r, i);
    var held := if e.interest == Read then s.readers else s.writers;
    assert e.task == held[0];
    assert LatestPoll(r, k, i, s.worker.flags) && Grants(s.worker.flags, e.interest);
  }

  // ----- A whole turn of the worker -----

  /** The steps after a poll, up to the top of the loop. */
  ghost function AnswerAll(s: State): State
    requires Flagged(s.worker)
    decreases s.worker.WakeWriters?, |s.writers| + |s.readers|
  {
    var s' := Worked(s);
    if s'.worker == Top then s' else AnswerAll(s')
  }

  /** Who is woken once the flags of a poll are known. */
  ghost function Answered(tasks: seq<Token>, granted: bool): seq<Token>
  {
    if granted then tasks else []
  }

  ghost function Kept(tasks: seq<Token>, granted: bool): seq<Token>
  {
    if granted then [] else tasks
  }

  /** They wake all writers on POLLOUT and all readers on POLLIN, and nobody else. */
  lemma {:induction false} AnswerAllWakes(s: State)
    requires Flagged(s.worker)
    ensures var out, into := s.worker.WakeWriters? && s.worker.flags.pollOut, s.worker.flags.pollIn;
            AnswerAll(s) == s.(worker := Top, writers := Kept(s.writers, out), readers := Kept(s.readers, into),
                               woken := s.woken + Entries(Answered(s.writers, out), Write)
                                                + Entries(Answered(s.readers, into), Read))
    decreases s.worker.WakeWriters?, |s.writers| + |s.readers|
  {
    if Worked(s).worker == Top {
    } else {
      AnswerAllWakes(Worked(s));
    }
  }

  // What others add while a turn runs.

  ghost predicate CanAdd(s: State, acts: seq<Action>)
    decreases |acts|
  {
    acts == [] ||
    ((acts[0].AddPush? || acts[0].AddRelease?) && Enabled(s, acts[0]) && CanAdd(Step(s, acts[0]), acts[1..]))
  }

  ghost function Additions(s: State, acts: seq<Action>): (s': State)
    requires CanAdd(s, acts)
    ensures s' == s.(queue := s'.queue, adding := s'.adding, registered := s'.registered)
    decreases |acts|
  {
    if acts == [] then s else Additions(Step(s, acts[0]), acts[1..])
  }

  /** The outcome of the poll in a turn, and what others add while the worker waits,
      or would if it had no interests; before it drains the queue; while it polls; and
      while it wakes. */
  datatype Script = Script(waiting: seq<Action>, draining: seq<Action>, polling: seq<Action>,
                           flags: Flags, waking: seq<Action>)

  /** At the point of draining. Without interests that takes a wait, which only ends
      if somebody has left a permit. */
  ghost predicate CanDrain(s: State, t: Script)
    requires s.worker == Top
  {
    && CanAdd(Worked(s), t.waiting)
    && var m := Additions(Worked(s), t.waiting);
       Enabled(m, Work) && CanAdd(if m.worker == Waiting then Worked(m) else m, t.draining)
  }

  ghost function AtDrain(s: State, t: Script): (s': State)
    requires s.worker == Top && CanDrain(s, t)
    ensures s'.worker == Draining
  {
    var m := Additions(Worked(s), t.waiting);
    Additions(if m.worker == Waiting then Worked(m) else m, t.draining)
  }

  ghost predicate CanTurn(s: State, t: Script)
    requires s.worker == Top
  {
    && CanDrain(s, t)
    && var m := Worked(AtDrain(s, t));
       CanAdd(m, t.polling) && CanAdd(Step(Additions(m, t.polling), PollOutcome(t.flags)), t.waking)
  }

  /** The poll has returned, and nobody is woken yet. */
  ghost function AtAnswer(s: State, t: Script): (s': State)
    requires s.worker == Top && CanTurn(s, t)
    ensures s'.worker == WakeWriters(t.flags)
  {
    Additions(Step(Additions(Worked(AtDrain(s, t)), t.polling), PollOutcome(t.flags)), t.waking)
  }

  /** From the top of the loop to the top again. */
  ghost function Turn(s: State, t: Script): State
    requires s.worker == Top && CanTurn(s, t)
  {
    AnswerAll(AtAnswer(s, t))
  }

  ghost predicate Reached(s: State)
  {
    Reachable(Init, Next, s)
  }

  lemma {:induction false} AdditionsLead(s: State, acts: seq<Action>)
    requires CanAdd(s, acts)
    ensures Leads(Next, s, acts, Additions(s, acts))
    decreases |acts|
  {
    if acts == [] {
      LeadsNowhere(Next, s);
    } else {
      AdditionsLead(Step(s, acts[0]), acts[1..]);
      LeadsFrom(Next, s, acts[0], Step(s, acts[0]), acts[1..], Additions(s, acts));
      assert [acts[0]] + acts[1..] == acts;
    }
  }

  lemma {:induction false} AnswerLeads(s: State) returns (n: nat)
    requires Flagged(s.worker)
    ensures Leads(Next, s, seq(n, _ => Work), AnswerAll(s)) && AnswerAll(s).worker == Top
    decreases s.worker.WakeWriters?, |s.writers| + |s.readers|
  {
    var s' := Worked(s);
    if s'.worker == Top {
      n := 1;
      LeadsNowhere(Next, s');
      LeadsFrom(Next, s, Work, s', [], s');
      assert [Work] + [] == seq(1, _ => Work);
    } else {
      var more := AnswerLeads(s');
      n := more + 1;
      LeadsFrom(Next, s, Work, s', seq(more, _ => Work), AnswerAll(s));
      assert [Work] + seq(more, _ => Work) == seq(n, _ => Work);
    }
  }

  /** The actions up to the point of draining; the worker waits only if it has no
      interest. */
  ghost function DrainActs(s: State, t: Script): seq<Action>
  {
    [Work] + t.waiting + (if s.readers == [] && s.writers == [] then [Work] else []) + t.draining
  }

  ghost function AnswerActs(t: Script): seq<Action>
  {
    [Work] + t.polling + [PollOutcome(t.flags)] + t.waking
  }

  lemma DrainLeads(s: State, t: Script)
    requires s.worker == Top && CanDrain(s, t)
    ensures Leads(Next, s, DrainActs(s, t), AtDrain(s, t))
  {
    AdditionsLead(Worked(s), t.waiting);
    var m := Additions(Worked(s), t.waiting);
    LeadsFrom(Next, s, Work, Worked(s), t.waiting, m);
    var m' := if m.worker == Waiting then Worked(m) else m;
    if m.worker == Waiting {
      LeadsOn(Next, s, [Work] + t.waiting, m, Work, m');
    } else {
      assert [Work] + t.waiting + [] == [Work] + t.waiting;
    }
    AdditionsLead(m', t.draining);
    LeadsThrough(Next, s, [Work] + t.waiting + (if m.worker == Waiting then [Work] else []), m',
                 t.draining, AtDrain(s, t));
  }

  lemma PollLeads(s: State, t: Script)
    requires s.worker == Top && CanTurn(s, t)
    ensures Leads(Next, AtDrain(s, t), AnswerActs(t), AtAnswer(s, t))
  {
    var d := AtDrain(s, t);
    var m := Worked(d);
    AdditionsLead(m, t.polling);
    var polled := Additions(m, t.polling);
    LeadsFrom(Next, d, Work, m, t.polling, polled);
    var w := Step(polled, PollOutcome(t.flags));
    LeadsOn(Next, d, [Work] + t.polling, polled, PollOutcome(t.flags), w);
    AdditionsLead(w, t.waking);
    LeadsThrough(Next, d, [Work] + t.polling + [PollOutcome(t.flags)], w, t.waking, AtAnswer(s, t));
  }

  /** A turn is these steps, from the top of the loop to the top again, with what
      others add at each stage in between. */
  lemma TurnLeads(s: State, t: Script) returns (n: nat)
    requires s.worker == Top && CanTurn(s, t)
    ensures Leads(Next, s, DrainActs(s, t) + AnswerActs(t) + seq(n, _ => Work), Turn(s, t))
    ensures Turn(s, t).worker == Top
  {
    DrainLeads(s, t);
    PollLeads(s, t);
    LeadsThrough(Next, s, DrainActs(s, t), AtDrain(s, t), AnswerActs(t), AtAnswer(s, t));
    n := AnswerLeads(AtAnswer(s, t));
    LeadsThrough(Next, s, DrainActs(s, t) + AnswerActs(t), AtAnswer(s, t), seq(n, _ => Work), Turn(s, t));
  }

  /** So what holds of all reachable states holds of the worker's, whatever others
      add meanwhile. */
  lemma TurnReached(s: State, t: Script)
    requires Reached(s) && s.worker == Top && CanTurn(s, t)
    ensures Reached(Turn(s, t)) && Turn(s, t).worker == Top
  {
    var n := TurnLeads(s, t);
    LeadsReached(Init, Next, s, DrainActs(s, t) + AnswerActs(t) + seq(n, _ => Work), Turn(s, t));
  }

  // ----- The program -----

  class SocketWorker {
    const queue: SyncQueue<Entry>
    var readers: seq<Token>
    var writers: seq<Token>
    ghost var adding: nat
    ghost var registered: multiset<Entry>
    ghost var woken: multiset<Entry>

    constructor (queue: SyncQueue<Entry>)
      requires queue.View() == Queue([], 0)
      ensures this.queue == queue && Init(View(Top))
    {
      this.queue, readers, writers := queue, [], [];
      adding, registered, woken := 0, multiset{}, multiset{};
    }

    /** The state of the step system, with this thread at worker. */
    ghost function View(worker: Worker): State
      reads this, queue
    {
      State(worker, queue.View(), adding, readers, writers, registered, woken)
    }

    ghost predicate Valid()
    {
      this as object != queue
    }

    /** One half of a registration. */
    method RunAddition(a: Action, ghost worker: Worker)
      requires Valid() && (a.AddPush? || a.AddRelease?) && Enabled(View(worker), a)
      modifies queue, this`adding, this`registered
      ensures View(worker) == Step(old(View(worker)), a)
    {
      if a.AddPush? {
        queue.PushValue(a.entry);
        adding, registered := adding + 1, registered + multiset{a.entry};
      } else {
        queue.ReleaseOne();
        adding := adding - 1;
      }
    }

    /** Halves of registrations by futures that are polled meanwhile. */
    method RunAdditions(acts: seq<Action>, ghost worker: Worker)
      requires Valid() && CanAdd(View(worker), acts)
      modifies queue, this`adding, this`registered
      ensures View(worker) == Additions(old(View(worker)), acts)
    {
      for i := 0 to |acts|
        invariant CanAdd(View(worker), acts[i..])
        invariant Additions(View(worker), acts[i..]) == Additions(old(View(worker)), acts)
      {
        assert acts[i..][0] == acts[i] && acts[i..][1..] == acts[i + 1..];
        RunAddition(acts[i], worker);
      }
    }

    /** Collects the queued interests, under the queue's lock. */
    method Collect()
      requires Valid()
      modifies queue, this`readers, this`writers
      ensures View(Polling) == Worked(old(View(Draining)))
    {
      var entries := queue.vals;
      for i := 0 to |entries|
        invariant unchanged(queue)
        invariant readers + Tasks(entries[i..], Read) == old(readers) + Tasks(entries, Read)
        invariant writers + Tasks(entries[i..], Write) == old(writers) + Tasks(entries, Write)
      {
        var e := entries[i];
        assert entries[i..][1..] == entries[i + 1..];
        match e.interest
        case Read => readers := readers + [e.task];
        case Write => writers := writers + [e.task];
      }
      queue.vals := [];
    }

    /** Wakes writers on POLLOUT, then readers on POLLIN; the others stay. */
    method Answer(flags: Flags, wakes: SyncQueue<Token>)
      requires Valid() && this as object != wakes && queue as object != wakes
      modifies wakes, this`readers, this`writers, this`woken
      ensures View(Top) == AnswerAll(old(View(WakeWriters(flags))))
      ensures wakes.View() == AddAll(AddAll(old(wakes.View()), Answered(old(writers), flags.pollOut)),
                                     Answered(old(readers), flags.pollIn))
    {
      AnswerAllWakes(View(WakeWriters(flags)));
      woken := woken + Entries(Answered(writers, flags.pollOut), Write)
                     + Entries(Answered(readers, flags.pollIn), Read);
      if flags.pollOut {
        wakes.AddEach(writers);
        writers := [];
      }
      if flags.pollIn {
        wakes.AddEach(readers);
        readers := [];
      }
    }

    /** One turn of the worker's loop, given the outcome of its poll, while others
        register. */
    method Iterate(t: Script, wakes: SyncQueue<Token>)
      requires Valid() && this as object != wakes && queue as object != wakes
      requires CanTurn(View(Top), t)
      modifies this, queue, wakes
      ensures View(Top) == Turn(old(View(Top)), t)
      ensures var s := AtAnswer(old(View(Top)), t);
              wakes.View() == AddAll(AddAll(old(wakes.View()), Answered(s.writers, t.flags.pollOut)),
                                     Answered(s.readers, t.flags.pollIn))
    {
      ghost var top := View(Top);
      if readers == [] && writers == [] {
        RunAdditions(t.waiting, Waiting);
        var _ := queue.TryWait();
      } else {
        RunAdditions(t.waiting, Draining);
      }
      RunAdditions(t.draining, Draining);
      assert View(Draining) == AtDrain(top, t);
      Collect();
      RunAdditions(t.polling, Polling);
      RunAdditions(t.waking, WakeWriters(t.flags));
      assert View(WakeWriters(t.flags)) == AtAnswer(top, t);
      Answer(t.flags, wakes);
    }
  }
}
