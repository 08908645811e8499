/** The file-operation pool (src/fs/async_pool.rs): any number of adders and of
    workers on one queue. A worker takes a permit, then removes one operation. */
module WorkerPool {
  import opened Runs
  import opened Queues

  type Op = nat
  type WorkerId = nat

  /** `adding`: adders between push and release; `holding`: workers between wait
      and remove; `busy`: what each working worker works on. `added` and
      `executed` are all operations so far; `refused` counts the releases at the
      semaphore's maximum, `misses` the removes that found nothing. */
  datatype State = State(
    queue: Queue<Op>,
    adding: nat,
    holding: set<WorkerId>,
    busy: map<WorkerId, Op>,
    added: multiset<Op>,
    executed: multiset<Op>,
    refused: nat,
    misses: nat)

  datatype Action =
    | AddPush(op: Op)
    | AddRelease
    | Wait(w: WorkerId)
    | Remove(w: WorkerId)
    | Finish(w: WorkerId)

  ghost predicate Init(s: State)
  {
    s == State(Queue([], 0), 0, {}, map[], multiset{}, multiset{}, 0, 0)
  }

  ghost predicate Enabled(s: State, a: Action)
  {
    match a
    case AddPush(_) => true
    case AddRelease => s.adding > 0
    case Wait(w) => w !in s.holding && w !in s.busy && s.queue.permits > 0
    case Remove(w) => w in s.holding
    case Finish(w) => w in s.busy
  }

  ghost function Step(s: State, a: Action): State
    requires Enabled(s, a)
  {
    match a
    case AddPush(op) =>
      s.(queue := Push(s.queue, op), adding := s.adding + 1, added := s.added + multiset{op})
    case AddRelease =>
      s.(queue := Release(s.queue), adding := s.adding - 1,
         refused := s.refused + if s.queue.permits == MAX_PERMITS then 1 else 0)
    case Wait(w) =>
      s.(queue := Acquire(s.queue), holding := s.holding + {w})
    case Remove(w) =>
      if s.queue.vals == [] then s.(holding := s.holding - {w}, misses := s.misses + 1)
      else
        var op := Newest(s.queue);
        s.(queue := Pop(s.queue), holding := s.holding - {w}, busy := s.busy[w := op],
           executed := s.executed + multiset{op})
    case Finish(w) =>
      s.(busy := s.busy - {w})
  }

  ghost predicate Next(s: State, a: Action, s': State)
  {
    Enabled(s, a) && s' == Step(s, a)
  }

  /** Every queued operation is matched by a permit, by a worker about to remove,
      by an adder about to release, or by a release that was refused. */
  ghost predicate Conserved(s: State)
  {
    && s.queue.permits <= MAX_PERMITS
    && |s.queue.vals| == s.queue.permits + |s.holding| + s.adding + s.refused
    && s.added == multiset(s.queue.vals) + s.executed
    && s.misses == 0
  }

  lemma ConservedKept(s: State, a: Action, s': State)
    requires Conserved(s) && Next(s, a, s')
    ensures Conserved(s')
  {
    match a
    case AddPush(op) => assert multiset(s'.queue.vals) == multiset(s.queue.vals) + multiset{op};
    case Remove(w) => RemoveConserves(s, w);
    case _ => assert s'.queue.vals == s.queue.vals;
  }

  lemma RemoveConserves(s: State, w: WorkerId)
    requires Conserved(s) && w in s.holding
    ensures Conserved(Step(s, Remove(w)))
  {
    assert |s.holding - {w}| == |s.holding| - 1;
    var vals := s.queue.vals;
    assert vals == vals[..|vals| - 1] + [vals[|vals| - 1]];
  }

  /** In every run, with any number of adders and workers: no permit and no
      operation is created or lost except by a refused release; a worker's remove
      always finds an operation; each operation is queued or was executed, and
      as often as it was added. */
  lemma PermitConservation(r: Run<State, Action>, i: nat)
    requires IsRun(Init, Next, r) && i < |r.states|
    ensures Conserved(r.states[i])
  {
    forall s, a, s' | Conserved(s) && Next(s, a, s') ensures Conserved(s') {
      ConservedKept(s, a, s');
    }
    InvariantHolds(Init, Next, Conserved, r, i);
  }

  /** Workers all asleep or working, no adder inside `add`, no permit left. */
  ghost predicate Quiet(s: State)
  {
    s.adding == 0 && s.holding == {} && s.queue.permits == 0
  }

  /** As many operations are stranded once the pool is quiet as releases were
      refused; so all are executed if and only if none was. */
  lemma StrandedAreRefused(r: Run<State, Action>, i: nat)
    requires IsRun(Init, Next, r) && i < |r.states| && Quiet(r.states[i])
    ensures |r.states[i].queue.vals| == r.states[i].refused
    ensures r.states[i].executed == r.states[i].added <==> r.states[i].refused == 0
  {
    PermitConservation(r, i);
    var s := r.states[i];
    assert |s.added| == |s.queue.vals| + |s.executed|;
  }

  /** As long as at most 255 operations are queued, no release is refused. */
  lemma {:induction false} SmallQueueLosesNothing(r: Run<State, Action>, i: nat)
    requires IsRun(Init, Next, r) && i < |r.states|
    requires forall k :: 0 <= k <= i ==> |r.states[k].queue.vals| <= MAX_PERMITS
    ensures r.states[i].refused == 0
    ensures |r.states[i].queue.vals| == r.states[i].queue.permits + |r.states[i].holding| + r.states[i].adding
  {
    PermitConservation(r, i);
    if i == 0 {
    } else {
      SmallQueueLosesNothing(r, i - 1);
      assert Next(r.states[i - 1], r.acts[i - 1], r.states[i - 1 + 1]);
    }
  }

  /** An operation added once is executed at most once. */
  lemma ExecutedAtMostOnce(r: Run<State, Action>, i: nat, op: Op)
    requires IsRun(Init, Next, r) && i < |r.states|
    requires r.states[i].added[op] <= 1
    ensures r.states[i].executed[op] <= 1
    ensures op in r.states[i].queue.vals ==> r.states[i].executed[op] == 0
  {
    PermitConservation(r, i);
    assert op in r.states[i].queue.vals ==> op in multiset(r.states[i].queue.vals);
  }

  // ----- No operation is in two hands -----

  /** What a worker works on was executed, as often as there are workers at it. */
  ghost predicate InHand(s: State)
  {
    && (forall w :: w in s.busy ==> s.executed[s.busy[w]] >= 1)
    && (forall w, v :: w in s.busy && v in s.busy && w != v && s.busy[w] == s.busy[v] ==> s.executed[s.busy[w]] >= 2)
  }

  lemma InHandAlways(r: Run<State, Action>, i: nat)
    requires IsRun(Init, Next, r) && i < |r.states|
    ensures InHand(r.states[i])
  {
    forall s, a, s' | InHand(s) && Next(s, a, s') ensures InHand(s') {
    }
    InvariantHolds(Init, Next, InHand, r, i);
  }

  /** A worker works on the operation that was newest when it removed it; and an
      operation added once is in the hands of one worker at most, and no longer queued. */
  lemma OneWorkerEach(r: Run<State, Action>, i: nat, w: WorkerId)
    requires IsRun(Init, Next, r) && i < |r.states| && w in r.states[i].busy
    requires r.states[i].added[r.states[i].busy[w]] == 1
    ensures var s := r.states[i];
            s.busy[w] !in s.queue.vals && forall v :: v in s.busy && s.busy[v] == s.busy[w] ==> v == w
    ensures exists k :: 0 <= k < i && RemovedAt(r, k, w, r.states[i].busy[w])
  {
    InHandAlways(r, i);
    PermitConservation(r, i);
    var op, vals := r.states[i].busy[w], r.states[i].queue.vals;
    assert op in vals <==> multiset(vals)[op] > 0;
    var k := WhenRemoved(r, i, w);
    assert RemovedAt(r, k, w, op);
  }

  ghost predicate RemovedAt(r: Run<State, Action>, k: nat, w: WorkerId, op: Op)
  {
    && k < |r.acts| && k < |r.states| && r.acts[k] == Remove(w)
    && r.states[k].queue.vals != [] && Newest(r.states[k].queue) == op
  }

  lemma {:induction false} WhenRemoved(r: Run<State, Action>, i: nat, w: WorkerId) returns (k: nat)
    requires IsRun(Init, Next, r) && i < |r.states| && w in r.states[i].busy
    ensures k < i && RemovedAt(r, k, w, r.states[i].busy[w])
  {
    if i == 0 {
      assert false;
    } else {
      assert Next(r.states[i - 1], r.acts[i - 1], r.states[i - 1 + 1]);
      if r.acts[i - 1] == Remove(w) && r.states[i - 1].queue.vals != [] {
        k := i - 1;
      } else {
        k := WhenRemoved(r, i - 1, w);
      }
    }
  }

  /** With nobody serving, n additions leave at most 255 permits for n operations. */
  lemma {:induction false} AddMany(n: nat) returns (s: State)
    ensures Reachable(Init, Next, s)
    ensures s.adding == 0 && s.holding == {} && s.busy == map[] && |s.queue.vals| == n
    ensures s.queue.permits == if n < MAX_PERMITS then n else MAX_PERMITS
    ensures |s.added| == n && s.executed == multiset{}
    ensures s.refused == if n < MAX_PERMITS then 0 else n - MAX_PERMITS
  {
    if n == 0 {
      s := State(Queue([], 0), 0, {}, map[], multiset{}, multiset{}, 0, 0);
      Start<State, Action>(Init, Next, s);
    } else {
      var before := AddMany(n - 1);
      var pushed := Step(before, AddPush(n));
      Extend(Init, Next, before, AddPush(n), pushed);
      s := Step(pushed, AddRelease);
      Extend(Init, Next, pushed, AddRelease, s);
    }
  }

  /** One worker then serves as long as it finds permits. */
  lemma {:induction false} ServeAll(s: State) returns (s': State)
    requires Reachable(Init, Next, s)
    requires s.adding == 0 && s.holding == {} && s.busy == map[] && s.queue.permits <= |s.queue.vals|
    ensures Reachable(Init, Next, s') && Quiet(s')
    ensures |s'.queue.vals| == |s.queue.vals| - s.queue.permits
    ensures s'.added == s.added && s'.refused == s.refused && |s'.executed| == |s.executed| + s.queue.permits
    decreases s.queue.permits
  {
    if s.queue.permits == 0 {
      s' := s;
    } else {
      var waited := Step(s, Wait(0));
      Extend(Init, Next, s, Wait(0), waited);
      var removed := Step(waited, Remove(0));
      Extend(Init, Next, waited, Remove(0), removed);
      var finished := Step(removed, Finish(0));
      Extend(Init, Next, removed, Finish(0), finished);
      assert finished.holding == {};
      s' := ServeAll(finished);
    }
  }

  /** The bound of 255 matters: with 256 operations queued at once, one is left
      behind for good in a pool that has gone quiet. */
  lemma OneTooMany() returns (s: State)
    ensures Reachable(Init, Next, s) && Quiet(s)
    ensures |s.added| == 256 && |s.executed| == 255 && s.refused == 1 && |s.queue.vals| == 1
  {
    var full := AddMany(MAX_PERMITS + 1);
    s := ServeAll(full);
  }
}
