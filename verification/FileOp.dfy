/** One file operation (src/fs/async_pool.rs): the Read, Write or Flush future
    that a task polls and the pool worker that carries the operation out. They
    meet in two atomics, a result code and a completion word; each step is one
    access to shared memory. */
module FileOp {
  import opened Runs
  import opened Tokens
  import opened Queues

  /** Read and Write complete through a byte count, Flush through a boolean. */
  datatype Kind = Io | Control

  datatype Outcome = Ok(count: nat) | Err(code: int)

  // ----- How an outcome travels through the two words -----

  /** The result code fails libctru's test: negative, or a summary field (bits 21
      to 26) other than RS_SUCCESS, which is 0. */
  predicate Failed(code: int)
  {
    code < 0 || (code / 0x20_0000) % 0x40 != 0
  }

  /** `state_resolve`: what a poll makes of the code and of the completion word. */
  function Resolve(kind: Kind, code: int, word: nat): Outcome
  {
    if Failed(code) then Err(code) else Ok(if kind == Io then word else 0)
  }

  function CodeOf(o: Outcome): int
  {
    if o.Ok? then 0 else o.code
  }

  function WordOf(kind: Kind, o: Outcome): nat
  {
    match kind
    case Io => if o.Ok? then o.count else 0
    case Control => 1
  }

  function UnsetWord(kind: Kind): nat
  {
    if kind == Io then U32_MAX else 0
  }

  /** What the worker can report: counts are `usize`, which has 32 bits here, and
      a flush has none. */
  predicate Possible(kind: Kind, o: Outcome)
  {
    match o
    case Ok(n) => if kind == Io then n <= U32_MAX else n == 0
    case Err(code) => -0x8000_0000 <= code < 0x8000_0000
  }

  /** The outcomes that survive the trip: not the count that is the mark of an
      unset word, and no error code that does not look like one. */
  predicate Faithful(kind: Kind, o: Outcome)
  {
    match o
    case Ok(n) => kind == Control || n < U32_MAX
    case Err(code) => Failed(code)
  }

  /** The codes taken for errors are the negative ones and those whose bits 21 to 26
      are not all zero. An error is delivered with its code, and code 0 as success
      with the count. */
  lemma FailedExactly(kind: Kind, code: int, word: nat)
    ensures Failed(code) <==> code < 0 || code % 0x800_0000 >= 0x20_0000
    ensures code < 0 || code % 0x800_0000 >= 0x20_0000 ==> Resolve(kind, code, word) == Err(code)
    ensures code == 0 ==> Resolve(kind, code, word) == Ok(if kind == Io then word else 0)
  {
    var q, r := code / 0x800_0000, code % 0x800_0000;
    assert code == q * 0x800_0000 + r;
    assert code / 0x20_0000 == q * 0x40 + r / 0x20_0000;
  }

  /** An outcome is recognised as complete and decoded to itself if and only if
      it is faithful. */
  lemma RoundTrip(kind: Kind, o: Outcome)
    requires Possible(kind, o)
    ensures WordOf(kind, o) != UnsetWord(kind) && Resolve(kind, CodeOf(o), WordOf(kind, o)) == o
       <==> Faithful(kind, o)
  {
    assert !Failed(0);
  }

  // ----- The protocol -----

  /** Where the worker is with this operation. */
  datatype Worker =
    | NotQueued
    | Queued
    | StoreCode(outcome: Outcome)
    | StoreWord(outcome: Outcome)
    | WakeTask(outcome: Outcome)
    | Finished(outcome: Outcome)

  /** Where the poll is: between polls; about to enqueue the operation; about to
      release the queue's semaphore and note the registration; about to load the
      result code; done. */
  datatype Poller =
    | Resting
    | Enqueue
    | Register
    | LoadCode(word: nat)
    | Ready(result: Outcome)

  /** `task` is the task that polls the future, `enqueued` counts the operations
      it put in the pool's queue. */
  datatype State = State(
    kind: Kind,
    task: Token,
    code: int,
    word: nat,
    registered: bool,
    worker: Worker,
    poller: Poller,
    enqueued: nat)

  datatype Action = TakeUp(outcome: Outcome) | WorkerStep | StartPoll | PollStep

  ghost predicate Init(s: State)
  {
    s == State(s.kind, s.task, 0, UnsetWord(s.kind), false, NotQueued, Resting, 0)
  }

  ghost predicate Complete(s: State)
  {
    s.word != UnsetWord(s.kind)
  }

  ghost predicate Enabled(s: State, a: Action)
  {
    match a
    case TakeUp(o) => s.worker == Queued && Possible(s.kind, o)
    case WorkerStep => s.worker.StoreCode? || s.worker.StoreWord? || s.worker.WakeTask?
    case StartPoll => s.poller == Resting
    case PollStep => s.poller == Enqueue || s.poller == Register || s.poller.LoadCode?
  }

  ghost function WorkerNext(s: State): State
  {
    match s.worker
    case StoreCode(o) => s.(worker := StoreWord(o), code := CodeOf(o))
    case StoreWord(o) => s.(worker := WakeTask(o), word := WordOf(s.kind, o))
    case WakeTask(o) => s.(worker := Finished(o))
    case _ => s
  }

  /** The load with which a poll begins, and the branch taken on it. */
  ghost function FirstLoad(s: State): Poller
  {
    match s.kind
    case Io =>
      if !Complete(s) && !s.registered then Enqueue
      else if s.registered && Complete(s) then LoadCode(s.word)
      else Resting
    case Control =>
      if !s.registered then Enqueue
      else if Complete(s) then LoadCode(s.word)
      else Resting
  }

  ghost function PollNext(s: State): State
  {
    match s.poller
    case Resting => s.(poller := FirstLoad(s))
    case Enqueue => s.(poller := Register, worker := Queued, enqueued := s.enqueued + 1)
    case Register => s.(poller := Resting, registered := true)
    case LoadCode(word) => s.(poller := Ready(Resolve(s.kind, s.code, word)))
    case Ready(_) => s
  }

  ghost function Step(s: State, a: Action): State
  {
    match a
    case TakeUp(o) => s.(worker := StoreCode(o))
    case WorkerStep => WorkerNext(s)
    case StartPoll => PollNext(s)
    case PollStep => PollNext(s)
  }

  ghost predicate Next(s: State, a: Action, s': State)
  {
    Enabled(s, a) && s' == Step(s, a)
  }

  /** The token that the action pushes to the wake queue. */
  ghost function Wakes(s: State, a: Action): Option<Token>
  {
    if a.WorkerStep? && s.worker.WakeTask? then Some(s.task) else None
  }

  ghost predicate BothStored(s: State)
  {
    s.worker.WakeTask? || s.worker.Finished?
  }

  ghost predicate Inv(s: State)
  {
    && (s.worker == NotQueued <==> s.enqueued == 0)
    && s.enqueued <= 1
    && (s.registered || s.poller == Register || s.poller.LoadCode? || s.poller.Ready? ==> s.enqueued == 1)
    && (s.poller == Enqueue ==> s.enqueued == 0)
    && (s.poller == Resting && !s.registered ==> s.enqueued == 0)
    && (s.worker.StoreWord? || BothStored(s) ==> s.code == CodeOf(s.worker.outcome))
    && s.word == (if BothStored(s) then WordOf(s.kind, s.worker.outcome) else UnsetWord(s.kind))
    && (s.poller.LoadCode? ==> Complete(s) && s.poller.word == s.word)
    && (s.poller.Ready? ==> BothStored(s) && Complete(s) && s.poller.result == Resolve(s.kind, s.code, s.word))
    && (s.worker.StoreCode? || s.worker.StoreWord? || BothStored(s) ==> Possible(s.kind, s.worker.outcome))
  }

  lemma InvKept(s: State, a: Action, s': State)
    requires Inv(s) && Next(s, a, s')
    ensures Inv(s')
  {
  }

  lemma InvAlways(r: Run<State, Action>, i: nat)
    requires IsRun(Init, Next, r) && i < |r.states|
    ensures Inv(r.states[i])
  {
    forall s, a, s' | Inv(s) && Next(s, a, s') ensures Inv(s') {
      InvKept(s, a, s');
    }
    InvariantHolds(Init, Next, Inv, r, i);
  }

  /** In every interleaving of the worker's stores with any number of polls: at
      most one operation is enqueued, and one as soon as a poll returned Pending;
      the future is Ready only after both stores; and what it returns is exactly
      the worker's outcome if that is faithful. Of the others, a count of
      u32::MAX leaves the future pending for ever, and an error code that does
      not look like one is delivered as success. */
  lemma Completion(r: Run<State, Action>, i: nat)
    requires IsRun(Init, Next, r) && i < |r.states|
    ensures var s := r.states[i];
            && s.enqueued <= 1
            && (s.registered ==> s.enqueued == 1)
            && (s.poller.Ready? ==> BothStored(s))
            && (s.poller.Ready? ==> (s.poller.result == s.worker.outcome <==> Faithful(s.kind, s.worker.outcome)))
            && (BothStored(s) && s.kind == Io && s.worker.outcome == Ok(U32_MAX) ==> !s.poller.Ready?)
            && (s.poller.Ready? && s.worker.outcome.Err? && !Failed(s.worker.outcome.code) ==>
                  s.poller.result == Ok(0))
  {
    InvAlways(r, i);
    var s := r.states[i];
    if BothStored(s) {
      RoundTrip(s.kind, s.worker.outcome);
    }
  }

  /** The task is woken exactly once, when the worker is through with both stores. */
  lemma {:induction false} WokenOnce(r: Run<State, Action>, i: nat)
    requires IsRun(Init, Next, r) && i < |r.states|
    ensures r.states[i].worker.Finished? <==> exists k :: 0 <= k < i && Wakes(r.states[k], r.acts[k]).Some?
    ensures forall k :: 0 <= k < i && Wakes(r.states[k], r.acts[k]).Some? ==>
              && Wakes(r.states[k], r.acts[k]) == Some(r.states[i].task)
              && BothStored(r.states[k])
              && forall j :: k < j < i ==> Wakes(r.states[j], r.acts[j]).None?
  {
    if i == 0 {
    } else {
      WokenOnce(r, i - 1);
      assert Next(r.states[i - 1], r.acts[i - 1], r.states[i - 1 + 1]);
      InvAlways(r, i - 1);
    }
  }

  /** A poll that begins after the word was stored, on a registered future, ends
      Ready: nothing that completed goes unnoticed. */
  lemma CompleteIsSeen(s: State)
    requires Inv(s) && s.registered && s.poller == Resting && Complete(s)
    ensures PollNext(PollNext(s)).poller == Ready(Resolve(s.kind, CodeOf(s.worker.outcome), s.word))
  {
  }

  /** Extra wakes are harmless: a poll of a registered future that is not complete
      changes nothing at all. */
  lemma SpuriousPollChangesNothing(s: State)
    requires Inv(s) && s.registered && s.poller == Resting && !Complete(s)
    ensures Next(s, StartPoll, s)
  {
  }

  /** One more poll where the future is registered and not complete. */
  lemma ExtraPoll(r: Run<State, Action>, i: nat) returns (q: Run<State, Action>)
    requires IsRun(Init, Next, r) && i < |r.states|
    requires r.states[i].registered && r.states[i].poller == Resting && !Complete(r.states[i])
    ensures IsRun(Init, Next, q) && |q.acts| == |r.acts| + 1
    ensures q.acts[..i] == r.acts[..i] && q.acts[i..i + 1] == [StartPoll] && q.acts[i + 1..] == r.acts[i..]
    ensures q.states[..i] == r.states[..i] && q.states[i] == r.states[i] && q.states[i + 1..] == r.states[i..]
  {
    var s := r.states[i];
    InvAlways(r, i);
    SpuriousPollChangesNothing(s);
    var d := Run([s, s], [StartPoll]);
    SplicedIsRun(Init, Next, r, i, d);
    SplicedSlices(r, i, d);
    q := Spliced(r, i, d);
  }

  /** So any number of extra polls can be put into a run wherever the future is
      registered, at rest and not complete: the rest of the run is what it was,
      state for state, and with it the result and the operations enqueued. */
  lemma {:induction false} ExtraPolls(r: Run<State, Action>, i: nat, n: nat) returns (q: Run<State, Action>)
    requires IsRun(Init, Next, r) && i < |r.states|
    requires r.states[i].registered && r.states[i].poller == Resting && !Complete(r.states[i])
    ensures IsRun(Init, Next, q) && |q.acts| == |r.acts| + n
    ensures q.acts[..i] == r.acts[..i] && q.acts[i + n..] == r.acts[i..]
    ensures q.states[..i] == r.states[..i] && q.states[i + n..] == r.states[i..]
    ensures forall k :: i <= k < i + n ==> q.acts[k] == StartPoll
    ensures q.states[i] == r.states[i]
    decreases n
  {
    if n == 0 {
      q := r;
    } else {
      var p := ExtraPoll(r, i);
      assert p.states[i + 1..][0] == r.states[i..][0];
      q := ExtraPolls(p, i + 1, n - 1);
      assert q.acts[..i + 1][..i] == q.acts[..i] && q.states[..i + 1][..i] == q.states[..i];
      assert q.states[..i + 1][i] == p.states[..i + 1][i] == p.states[i];
      assert q.acts[..i + 1][i..] == p.acts[..i + 1][i..] == [StartPoll];
    }
  }

  /** Two runs whose workers report the same return the same and enqueue equally
      often, however often and whenever their futures are polled. */
  lemma PollsDoNotMatter(r: Run<State, Action>, i: nat, q: Run<State, Action>, j: nat)
    requires IsRun(Init, Next, r) && i < |r.states| && r.states[i].poller.Ready?
    requires IsRun(Init, Next, q) && j < |q.states| && q.states[j].poller.Ready?
    requires r.states[i].kind == q.states[j].kind
    requires BothStored(r.states[i]) && BothStored(q.states[j])
    requires r.states[i].worker.outcome == q.states[j].worker.outcome
    ensures r.states[i].poller.result == q.states[j].poller.result
    ensures r.states[i].enqueued == q.states[j].enqueued == 1
  {
    InvAlways(r, i);
    InvAlways(q, j);
  }

  // ----- The program -----

  /** A whole poll, run without interference. */
  ghost function PollEffect(s: State): State
  {
    var s1 := PollNext(s);
    if s1.poller == Enqueue then PollNext(PollNext(s1))
    else if s1.poller.LoadCode? then PollNext(s1)
    else s1
  }

  /** What a whole poll comes to: a registered future that is complete is Ready with
      what the two words say; one that was not registered yet has its operation
      enqueued, once, and is from then on; any other poll changes nothing. */
  lemma WholePoll(s: State)
    requires s.poller == Resting
    ensures s.registered && Complete(s) ==> PollEffect(s) == s.(poller := Ready(Resolve(s.kind, s.code, s.word)))
    ensures !s.registered && (s.kind == Control || !Complete(s)) ==>
              PollEffect(s) == s.(registered := true, worker := Queued, enqueued := s.enqueued + 1)
    ensures s.registered && !Complete(s) ==> PollEffect(s) == s
    ensures !s.registered && s.kind == Io && Complete(s) ==> PollEffect(s) == s
  {
  }

  /** It is the steps of a poll, from its start until it answers. */
  lemma PollIsItsSteps(s: State) returns (n: nat)
    requires s.poller == Resting
    ensures Leads(Next, s, [StartPoll] + seq(n, _ => PollStep), PollEffect(s))
    ensures PollEffect(s).poller == Resting || PollEffect(s).poller.Ready?
  {
    var s1 := PollNext(s);
    LeadsNowhere(Next, s);
    LeadsOn(Next, s, [], s, StartPoll, s1);
    assert [] + [StartPoll] == [StartPoll] == [StartPoll] + seq(0, _ => PollStep);
    n := 0;
    if s1.poller == Enqueue {
      var s2 := PollNext(s1);
      LeadsOn(Next, s, [StartPoll], s1, PollStep, s2);
      LeadsOn(Next, s, [StartPoll] + [PollStep], s2, PollStep, PollNext(s2));
      n := 2;
      assert [StartPoll] + [PollStep] + [PollStep] == [StartPoll] + seq(2, _ => PollStep);
    } else if s1.poller.LoadCode? {
      LeadsOn(Next, s, [StartPoll], s1, PollStep, PollNext(s1));
      n := 1;
      assert [StartPoll] + [PollStep] == [StartPoll] + seq(1, _ => PollStep);
    }
  }

  /** The message in the pool's queue: whom to wake and whose words to store to. */
  datatype Request = Request(task: Token, future: FileFuture)

  class FileFuture {
    const kind: Kind
    var code: int
    var word: nat
    var registered: bool

    constructor (kind: Kind)
      ensures this.kind == kind && Init(State(kind, 0, code, word, registered, NotQueued, Resting, 0))
      ensures code == 0 && !registered && word == if kind == Io then U32_MAX else 0
    {
      this.kind, code, registered := kind, 0, false;
      word := UnsetWord(kind);
    }

    /** The step system's view of the future, before its operation is queued. */
    ghost function View(task: Token): State
      reads this
    {
      State(kind, task, code, word, registered, NotQueued, Resting, 0)
    }

    /** None is Pending. */
    method Poll(task: Token, pool: SyncQueue<Request>) returns (ready: Option<Outcome>)
      requires this as object != pool
      modifies this, pool
      ensures code == old(code) && word == old(word)
      ensures old(registered) && word != UnsetWord(kind) ==>
                ready == Some(Resolve(kind, code, word)) && registered && unchanged(pool)
      ensures !old(registered) && (kind == Control || word == U32_MAX) ==>
                ready == None && registered && pool.View() == Release(Push(old(pool.View()), Request(task, this)))
      ensures old(registered) && word == UnsetWord(kind) ==> ready == None && registered && unchanged(pool)
      ensures var e := PollEffect(old(View(task)));
              && (code, word, registered) == (e.code, e.word, e.registered)
              && ready == (if e.poller.Ready? then Some(e.poller.result) else None)
              && pool.View() == if e.enqueued == 1 then Release(Push(old(pool.View()), Request(task, this)))
                                else old(pool.View())
    {
      ready := None;
      if (kind == Control || word == U32_MAX) && !registered {
        pool.Add(Request(task, this));
        registered := true;
      } else if registered && word != UnsetWord(kind) {
        ready := Some(Resolve(kind, code, word));
      }
    }
  }

  /** One turn of a pool worker that found a permit: the operation it removes is
      resolved, the code before the word, and its task is woken. */
  method Serve(pool: SyncQueue<Request>, wakes: SyncQueue<Token>, outcome: Outcome) returns (served: bool)
    requires pool.permits > 0 && pool as object != wakes
    requires forall q :: q in pool.vals ==> q.future as object != pool && q.future as object != wakes
    modifies pool, wakes, set q | q in pool.vals :: q.future
    ensures served <==> old(pool.vals) != []
    ensures served ==>
              var q := Newest(old(pool.View()));
              && pool.View() == Pop(Acquire(old(pool.View())))
              && wakes.View() == Release(Push(old(wakes.View()), q.task))
              && q.future.code == (if outcome.Ok? then 0 else outcome.code) == CodeOf(outcome)
              && q.future.word == WordOf(q.future.kind, outcome)
              && (q.future.kind == Io ==> q.future.word == if outcome.Ok? then outcome.count else 0)
              && (q.future.kind == Control ==> q.future.word == 1)
              && q.future.registered == old(q.future.registered)
              && forall o :: o in old(pool.vals) && o.future != q.future ==> unchanged(o.future)
    ensures !served ==> pool.View() == Acquire(old(pool.View())) && unchanged(wakes)
  {
    var _ := pool.TryWait();
    var request := pool.Remove();
    served := request.Some?;
    if served {
      var future := request.value.future;
      future.code := CodeOf(outcome);
      future.word := WordOf(future.kind, outcome);
      wakes.Add(request.value.task);
    }
  }
}
