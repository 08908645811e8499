/** The reactor (src/reactor.rs): tasks are listed under the OS handle they wait
    for and woken when the handle is signalled. Requests and signals are handled
    one at a time. */
module Reactor {
  import opened Runs
  import opened Tokens
  import opened Queues

  type Handle = nat

  /** `woken`, for each handle, the tokens ever woken by it, in order. */
  datatype State = State(waiting: map<Handle, seq<Token>>, woken: map<Handle, seq<Token>>)

  datatype Action = Add(task: Token, handle: Handle) | Fire(handle: Handle)

  ghost predicate Init(s: State)
  {
    s == State(map[], map[])
  }

  function Listed(m: map<Handle, seq<Token>>, h: Handle): seq<Token>
  {
    if h in m then m[h] else []
  }

  /** Firing unwraps the map entry: it panics if there is none. */
  ghost predicate Enabled(s: State, a: Action)
  {
    a.Fire? ==> a.handle in s.waiting
  }

  ghost function Step(s: State, a: Action): State
    requires Enabled(s, a)
  {
    match a
    case Add(t, h) => s.(waiting := s.waiting[h := Listed(s.waiting, h) + [t]])
    case Fire(h) =>
      s.(waiting := s.waiting - {h}, woken := s.woken[h := Listed(s.woken, h) + s.waiting[h]])
  }

  ghost predicate Next(s: State, a: Action, s': State)
  {
    Enabled(s, a) && s' == Step(s, a)
  }

  // ----- Each token is woken once, by the next signal of its handle -----

  /** The tokens added for h by the actions from k up to i, in order. */
  ghost function AddedSince(r: Run<State, Action>, h: Handle, k: nat, i: nat): seq<Token>
    requires k <= i <= |r.acts|
    decreases i
  {
    if k == i then []
    else
      var a := r.acts[i - 1];
      AddedSince(r, h, k, i - 1) + if a.Add? && a.handle == h then [a.task] else []
  }

  /** The handle did not fire from k up to i. */
  ghost predicate Silent(r: Run<State, Action>, h: Handle, k: nat, i: nat)
    requires i <= |r.acts|
  {
    forall j :: k <= j < i ==> r.acts[j] != Fire(h)
  }

  lemma {:induction false} WaitingIsAdded(r: Run<State, Action>, h: Handle, k: nat, i: nat)
    requires IsRun(Init, Next, r) && k <= i < |r.states|
    requires (k == 0 || r.acts[k - 1] == Fire(h)) && Silent(r, h, k, i)
    ensures Listed(r.states[i].waiting, h) == AddedSince(r, h, k, i)
    ensures h in r.states[i].waiting <==> AddedSince(r, h, k, i) != []
  {
    if k == i {
      if k > 0 {
        assert Next(r.states[k - 1], r.acts[k - 1], r.states[k - 1 + 1]);
      }
    } else {
      WaitingIsAdded(r, h, k, i - 1);
      assert Next(r.states[i - 1], r.acts[i - 1], r.states[i - 1 + 1]);
    }
  }

  /** A signal of a handle wakes exactly the tokens added for it since its previous
      signal, in order, and those of no other handle. */
  lemma FireWakesTheAdded(r: Run<State, Action>, h: Handle, k: nat, i: nat)
    requires IsRun(Init, Next, r) && k <= i < |r.acts|
    requires (k == 0 || r.acts[k - 1] == Fire(h)) && Silent(r, h, k, i)
    requires r.acts[i] == Fire(h)
    ensures r.states[i + 1].woken == r.states[i].woken[h := Listed(r.states[i].woken, h) + AddedSince(r, h, k, i)]
    ensures h !in r.states[i + 1].waiting
  {
    WaitingIsAdded(r, h, k, i);
    assert Next(r.states[i], r.acts[i], r.states[i + 1]);
  }

  /** In every run, for each handle, the tokens woken and then those waiting are
      all the tokens added for it, in order: each is woken once or waits. */
  lemma {:induction false} TokenConservation(r: Run<State, Action>, h: Handle, i: nat)
    requires IsRun(Init, Next, r) && i < |r.states|
    ensures Listed(r.states[i].woken, h) + Listed(r.states[i].waiting, h) == AddedSince(r, h, 0, i)
  {
    if i == 0 {
    } else {
      TokenConservation(r, h, i - 1);
      assert Next(r.states[i - 1], r.acts[i - 1], r.states[i - 1 + 1]);
    }
  }

  /** The lookup on a signal succeeds if and only if something was added for the
      handle since its previous signal. */
  lemma FireSucceedsExactly(r: Run<State, Action>, h: Handle, k: nat, i: nat)
    requires IsRun(Init, Next, r) && k <= i < |r.states|
    requires (k == 0 || r.acts[k - 1] == Fire(h)) && Silent(r, h, k, i)
    ensures Enabled(r.states[i], Fire(h)) <==>
              exists j :: k <= j < i && r.acts[j].Add? && r.acts[j].handle == h
  {
    WaitingIsAdded(r, h, k, i);
    AddedMeansAdd(r, h, k, i);
  }

  lemma {:induction false} AddedMeansAdd(r: Run<State, Action>, h: Handle, k: nat, i: nat)
    requires k <= i <= |r.acts|
    ensures AddedSince(r, h, k, i) != [] <==> exists j :: k <= j < i && r.acts[j].Add? && r.acts[j].handle == h
  {
    if k == i {
    } else {
      AddedMeansAdd(r, h, k, i - 1);
      assert AddedSince(r, h, k, i) != [] <==>
               AddedSince(r, h, k, i - 1) != [] || (r.acts[i - 1].Add? && r.acts[i - 1].handle == h);
    }
  }

  // ----- The program -----

  class ReactorHandler {
    var waitTokens: map<Handle, seq<Token>>

    constructor ()
      ensures waitTokens == map[]
    {
      waitTokens := map[];
    }

    method AddHandle(task: Token, handle: Handle)
      modifies this
      ensures waitTokens == Step(State(old(waitTokens), map[]), Add(task, handle)).waiting
    {
      var tokens := if handle in waitTokens then waitTokens[handle] else [];
      waitTokens := waitTokens[handle := tokens + [task]];
    }

    /** False is the panic of the unwrapped lookup. */
    method HandleSignalled(handle: Handle, wakes: SyncQueue<Token>) returns (found: bool)
      requires this as object != wakes
      modifies this, wakes
      ensures found <==> handle in old(waitTokens)
      ensures found ==> var s := Step(State(old(waitTokens), map[]), Fire(handle));
                        waitTokens == s.waiting && wakes.View() == AddAll(old(wakes.View()), s.woken[handle])
      ensures !found ==> waitTokens == old(waitTokens) && wakes.View() == old(wakes.View())
    {
      found := handle in waitTokens;
      if found {
        var tokens := waitTokens[handle];
        assert [] + tokens == tokens;
        waitTokens := waitTokens - {handle};
        wakes.AddEach(tokens);
      }
    }
  }
}
