/** Runs of labelled step systems: a sequence of states with the action taken
    between each two neighbours. Every component of the runtime is such a
    system, and every theorem of the project speaks of all its runs. */
module Runs {
  import opened Tokens

  datatype Run<S, A> = Run(states: seq<S>, acts: seq<A>)

  ghost predicate IsRun<S, A>(init: S -> bool, next: (S, A, S) -> bool, r: Run<S, A>)
  {
    && |r.states| == |r.acts| + 1
    && init(r.states[0])
    && forall i :: 0 <= i < |r.acts| ==> next(r.states[i], r.acts[i], r.states[i + 1])
  }

  ghost predicate Inductive<S(!new), A(!new)>(init: S -> bool, next: (S, A, S) -> bool, inv: S -> bool)
  {
    && (forall s :: init(s) ==> inv(s))
    && (forall s, a, s' :: inv(s) && next(s, a, s') ==> inv(s'))
  }

  /** An inductive predicate holds of every state of every run. */
  lemma {:induction false} InvariantHolds<S(!new), A(!new)>(init: S -> bool, next: (S, A, S) -> bool,
                                                           inv: S -> bool, r: Run<S, A>, i: nat)
    requires IsRun(init, next, r) && Inductive(init, next, inv)
    requires i < |r.states|
    ensures inv(r.states[i])
  {
    if i == 0 {
    } else {
      InvariantHolds(init, next, inv, r, i - 1);
      assert next(r.states[i - 1], r.acts[i - 1], r.states[i - 1 + 1]);
    }
  }

  ghost predicate EndsIn<S, A>(init: S -> bool, next: (S, A, S) -> bool, s: S, r: Run<S, A>)
  {
    IsRun(init, next, r) && r.states[|r.acts|] == s
  }

  /** Some run ends in s. */
  ghost predicate Reachable<S(!new), A(!new)>(init: S -> bool, next: (S, A, S) -> bool, s: S)
  {
    exists r :: EndsIn(init, next, s, r)
  }

  lemma Start<S(!new), A(!new)>(init: S -> bool, next: (S, A, S) -> bool, s: S)
    requires init(s)
    ensures Reachable(init, next, s)
  {
    assert EndsIn(init, next, s, Run([s], []));
  }

  lemma Extend<S(!new), A(!new)>(init: S -> bool, next: (S, A, S) -> bool, s: S, a: A, s': S)
    requires Reachable(init, next, s) && next(s, a, s')
    ensures Reachable(init, next, s')
  {
    var r :| EndsIn(init, next, s, r);
    assert EndsIn(init, next, s', Run(r.states + [s'], r.acts + [a]));
  }

  // ----- From one state to another -----

  /** The actions, in this order and with nothing else in between, lead from s to s'. */
  ghost predicate Leads<S(!new), A(!new)>(next: (S, A, S) -> bool, s: S, acts: seq<A>, s': S)
  {
    exists states: seq<S> :: Path(next, s, Run(states, acts), s')
  }

  ghost predicate Path<S(!new), A(!new)>(next: (S, A, S) -> bool, s: S, r: Run<S, A>, s': S)
  {
    && |r.states| == |r.acts| + 1 && r.states[0] == s && r.states[|r.acts|] == s'
    && forall i :: 0 <= i < |r.acts| ==> next(r.states[i], r.acts[i], r.states[i + 1])
  }

  lemma LeadsNowhere<S(!new), A(!new)>(next: (S, A, S) -> bool, s: S)
    ensures Leads(next, s, [], s)
  {
    assert Path<S, A>(next, s, Run([s], []), s);
  }

  lemma LeadsOn<S(!new), A(!new)>(next: (S, A, S) -> bool, s: S, acts: seq<A>, m: S, a: A, s': S)
    requires Leads(next, s, acts, m) && next(m, a, s')
    ensures Leads(next, s, acts + [a], s')
  {
    var states :| Path(next, s, Run(states, acts), m);
    assert Path(next, s, Run(states + [s'], acts + [a]), s');
  }

  lemma LeadsThrough<S(!new), A(!new)>(next: (S, A, S) -> bool, s: S, acts: seq<A>, m: S,
                                       more: seq<A>, s': S)
    requires Leads(next, s, acts, m) && Leads(next, m, more, s')
    ensures Leads(next, s, acts + more, s')
  {
    var before :| Path(next, s, Run(before, acts), m);
    var beyond :| Path(next, m, Run(beyond, more), s');
    var r := Run(before + beyond[1..], acts + more);
    forall i | 0 <= i < |r.acts| ensures next(r.states[i], r.acts[i], r.states[i + 1]) {
      if i < |acts| {
        assert next(before[i], acts[i], before[i + 1]);
      } else {
        assert next(beyond[i - |acts|], more[i - |acts|], beyond[i - |acts| + 1]);
      }
    }
    assert Path(next, s, r, s');
  }

  lemma LeadsFrom<S(!new), A(!new)>(next: (S, A, S) -> bool, s: S, a: A, m: S, acts: seq<A>, s': S)
    requires next(s, a, m) && Leads(next, m, acts, s')
    ensures Leads(next, s, [a] + acts, s')
  {
    LeadsNowhere(next, s);
    LeadsOn(next, s, [], s, a, m);
    assert [] + [a] == [a];
    LeadsThrough(next, s, [a], m, acts, s');
  }

  /** What can be reached leads to what can be reached. */
  lemma {:induction false} LeadsReached<S(!new), A(!new)>(init: S -> bool, next: (S, A, S) -> bool,
                                                          s: S, acts: seq<A>, s': S)
    requires Reachable(init, next, s) && Leads(next, s, acts, s')
    ensures Reachable(init, next, s')
  {
    var states :| Path(next, s, Run(states, acts), s');
    if acts == [] {
    } else {
      var n := |acts| - 1;
      assert next(states[n], acts[n], states[n + 1]);
      assert Path(next, s, Run(states[..n + 1], acts[..n]), states[n]);
      LeadsReached(init, next, s, acts[..n], states[n]);
      Extend(init, next, states[n], acts[n], s');
    }
  }

  /** If each step has one outcome, so do all of them together. */
  lemma {:induction false} LeadsOneWay<S(!new), A(!new)>(next: (S, A, S) -> bool, s: S, acts: seq<A>, s1: S, s2: S)
    requires forall s, a, m1, m2 :: next(s, a, m1) && next(s, a, m2) ==> m1 == m2
    requires Leads(next, s, acts, s1) && Leads(next, s, acts, s2)
    ensures s1 == s2
  {
    var one :| Path(next, s, Run(one, acts), s1);
    var two :| Path(next, s, Run(two, acts), s2);
    if acts == [] {
    } else {
      var n := |acts| - 1;
      assert Path(next, s, Run(one[..n + 1], acts[..n]), one[n]);
      assert Path(next, s, Run(two[..n + 1], acts[..n]), two[n]);
      LeadsOneWay(next, s, acts[..n], one[n], two[n]);
      assert next(one[n], acts[n], one[n + 1]) && next(two[n], acts[n], two[n + 1]);
    }
  }

  // ----- Detours -----

  /** The run r with the detour d put in at state i, where d starts and ends. */
  ghost function Spliced<S, A>(r: Run<S, A>, i: nat, d: Run<S, A>): Run<S, A>
    requires |r.states| == |r.acts| + 1 && i < |r.states| && |d.states| == |d.acts| + 1
  {
    Run(r.states[..i] + d.states + r.states[i + 1..], r.acts[..i] + d.acts + r.acts[i..])
  }

  /** A detour that comes back to where it left makes a run of a run. */
  lemma SplicedIsRun<S, A>(init: S -> bool, next: (S, A, S) -> bool, r: Run<S, A>, i: nat, d: Run<S, A>)
    requires IsRun(init, next, r) && i < |r.states|
    requires |d.states| == |d.acts| + 1 && d.states[0] == r.states[i] == d.states[|d.acts|]
    requires forall k :: 0 <= k < |d.acts| ==> next(d.states[k], d.acts[k], d.states[k + 1])
    ensures IsRun(init, next, Spliced(r, i, d))
  {
    var q, n := Spliced(r, i, d), |d.acts|;
    forall k | 0 <= k < |q.acts| ensures next(q.states[k], q.acts[k], q.states[k + 1]) {
      if k < i {
        assert next(r.states[k], r.acts[k], r.states[k + 1]);
      } else if k < i + n {
        assert next(d.states[k - i], d.acts[k - i], d.states[k - i + 1]);
      } else {
        assert next(r.states[k - n], r.acts[k - n], r.states[k - n + 1]);
      }
    }
  }

  /** What is before the detour, the detour, and what comes after it. */
  lemma SplicedSlices<S, A>(r: Run<S, A>, i: nat, d: Run<S, A>)
    requires |r.states| == |r.acts| + 1 && i < |r.states| && |d.states| == |d.acts| + 1
    requires d.states[0] == r.states[i] == d.states[|d.acts|]
    ensures var q, n := Spliced(r, i, d), |d.acts|;
            && |q.states| == |r.states| + n && |q.acts| == |r.acts| + n
            && q.acts[..i] == r.acts[..i] && q.acts[i..i + n] == d.acts && q.acts[i + n..] == r.acts[i..]
            && q.states[..i] == r.states[..i] && q.states[i] == r.states[i] && q.states[i + n..] == r.states[i..]
  {
  }

  // ----- Parts of a system -----

  /** q is the run of the part within the run r, up to state i; at[j] says where q
      is when r is in state j, and each action of r is an action of q or leaves the
      part as it was. */
  ghost predicate IsPart<S, A, P, B>(view: S -> P, act: (S, A) -> Option<B>, r: Run<S, A>, i: nat,
                                     q: Run<P, B>, at: seq<nat>)
    requires |r.states| == |r.acts| + 1 && i < |r.states|
  {
    && |q.states| == |q.acts| + 1
    && |at| == i + 1 && at[0] == 0 && at[i] == |q.acts|
    && (forall j :: 0 <= j <= i ==> at[j] < |q.states| && q.states[at[j]] == view(r.states[j]))
    && (forall j :: 0 <= j < i ==> match act(r.states[j], r.acts[j])
                                   case None => at[j + 1] == at[j]
                                   case Some(b) => at[j + 1] == at[j] + 1 && q.acts[at[j]] == b)
  }

  /** A system whose actions are steps of a part, or leave the part alone, has a run
      of the part within each of its runs. */
  lemma {:induction false} Project<S, A, P(!new), B(!new)>(init: P -> bool, next: (P, B, P) -> bool, view: S -> P,
      act: (S, A) -> Option<B>, r: Run<S, A>, i: nat) returns (q: Run<P, B>, at: seq<nat>)
    requires |r.states| == |r.acts| + 1 && i < |r.states| && init(view(r.states[0]))
    requires forall j :: 0 <= j < |r.acts| ==>
               match act(r.states[j], r.acts[j])
               case None => view(r.states[j + 1]) == view(r.states[j])
               case Some(b) => next(view(r.states[j]), b, view(r.states[j + 1]))
    ensures IsRun(init, next, q) && IsPart(view, act, r, i, q, at)
  {
    if i == 0 {
      q, at := Run([view(r.states[0])], []), [0];
    } else {
      q, at := Project(init, next, view, act, r, i - 1);
      match act(r.states[i - 1], r.acts[i - 1])
      case None => at := at + [at[i - 1]];
      case Some(b) =>
        q := Run(q.states + [view(r.states[i])], q.acts + [b]);
        at := at + [at[i - 1] + 1];
    }
  }

  lemma {:induction false} PartAdvances<S, A, P, B>(view: S -> P, act: (S, A) -> Option<B>, r: Run<S, A>, n: nat,
                                                    q: Run<P, B>, at: seq<nat>, i: nat, j: nat)
    requires |r.states| == |r.acts| + 1 && i <= j <= n < |r.states| && IsPart(view, act, r, n, q, at)
    ensures at[i] <= at[j]
  {
    if i == j {
    } else {
      PartAdvances(view, act, r, n, q, at, i, j - 1);
      assert at[j - 1] <= at[j - 1 + 1];
    }
  }

  /** Every action of the part after state i is one of the whole. */
  lemma {:induction false} Origin<S, A, P, B>(view: S -> P, act: (S, A) -> Option<B>, r: Run<S, A>, n: nat,
                                              q: Run<P, B>, at: seq<nat>, i: nat, m: nat) returns (k: nat)
    requires |r.states| == |r.acts| + 1 && i <= n < |r.states| && IsPart(view, act, r, n, q, at)
    requires at[i] <= m < at[n]
    ensures i <= k < n && at[k] == m && act(r.states[k], r.acts[k]) == Some(q.acts[m])
    decreases n - i
  {
    assert at[i] <= at[i + 1] <= at[i] + 1;
    if m < at[i + 1] {
      k := i;
    } else {
      k := Origin(view, act, r, n, q, at, i + 1, m);
    }
  }
}
