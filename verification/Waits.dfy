/** What the tasks of the executor wait for, on top of its step system: `current` is
    what the poll under way found not ready, and `blocked` the same for the latest
    poll of every live task that is not being polled. */
module Waits {
  import opened Runs
  import opened Tokens
  import Executor

  ghost function CurrentAfter<W>(a: Executor.Action, current: set<W>): set<W>
  {
    if a.EndPoll? then {} else current
  }

  ghost function BlockedAfter<W>(exec: Executor.State, a: Executor.Action,
                                 current: set<W>, blocked: map<Token, set<W>>): map<Token, set<W>>
    requires Executor.Enabled(exec, a)
  {
    var x := Executor.Step(exec, a);
    if a.EndPoll? then (if a.ready then blocked - {exec.pc.task} else blocked[exec.pc.task := current])
    else if x.pc.Polling? && !exec.pc.Polling? then blocked - {x.pc.task}
    else blocked
  }

  /** Up to 2^32 - 2 spawns, the live tasks other than the one being polled are
      exactly those for which it is recorded what they are blocked on. */
  ghost predicate Tracked<W>(exec: Executor.State, blocked: map<Token, set<W>>)
  {
    && Executor.Lifecycle(exec)
    && (exec.spawned <= Executor.MAX_TASKS ==>
          blocked.Keys == exec.tasks.Keys - (if exec.pc.Polling? then {exec.pc.task} else {}))
  }

  lemma TrackedKept<W>(exec: Executor.State, a: Executor.Action, current: set<W>, blocked: map<Token, set<W>>)
    requires Tracked(exec, blocked) && Executor.Enabled(exec, a)
    ensures Tracked(Executor.Step(exec, a), BlockedAfter(exec, a, current, blocked))
  {
    Executor.LifecycleKept(exec, a, Executor.Step(exec, a));
  }

  // ----- The record is the history -----

  /** The action starts or ends a poll of t. */
  ghost predicate Touches(exec: Executor.State, a: Option<Executor.Action>, t: Token)
  {
    a.Some? &&
    if a.value.EndPoll? then exec.pc.Polling? && exec.pc.task == t else Executor.StartsPoll(exec, a.value, t)
  }

  /** The action does to the record what it should. */
  ghost predicate Records<S, A, W>(s: S, a: A, s': S, exec: S -> Executor.State, act: (S, A) -> Option<Executor.Action>,
                                   current: S -> set<W>, blocked: S -> map<Token, set<W>>)
  {
    match act(s, a)
    case None => blocked(s') == blocked(s)
    case Some(x) =>
      Executor.Enabled(exec(s), x) && blocked(s') == BlockedAfter(exec(s), x, current(s), blocked(s))
  }

  ghost predicate Recorded<S, A, W>(r: Run<S, A>, exec: S -> Executor.State, act: (S, A) -> Option<Executor.Action>,
                                    current: S -> set<W>, blocked: S -> map<Token, set<W>>)
    requires |r.states| == |r.acts| + 1
  {
    && blocked(r.states[0]) == map[]
    && forall j :: 0 <= j < |r.acts| ==>
         Records(r.states[j], r.acts[j], r.states[j + 1], exec, act, current, blocked)
  }

  /** Action m ends a poll of t as Pending, and up to state i no other poll of t has
      started or ended. */
  ghost predicate LatestPoll<S, A>(r: Run<S, A>, exec: S -> Executor.State, act: (S, A) -> Option<Executor.Action>,
                                   t: Token, m: nat, i: nat)
    requires |r.states| == |r.acts| + 1 && i < |r.states|
  {
    && m < i && act(r.states[m], r.acts[m]) == Some(Executor.EndPoll(false))
    && exec(r.states[m]).pc.Polling? && exec(r.states[m]).pc.task == t
    && forall j :: m < j < i ==> !Touches(exec(r.states[j]), act(r.states[j], r.acts[j]), t)
  }

  /** A task is recorded as blocked if and only if its latest poll has ended Pending,
      and on what that poll had then found not ready. */
  lemma {:induction false} BlockedIsHistory<S, A, W>(
      r: Run<S, A>, exec: S -> Executor.State, act: (S, A) -> Option<Executor.Action>,
      current: S -> set<W>, blocked: S -> map<Token, set<W>>, t: Token, i: nat)
    requires |r.states| == |r.acts| + 1 && i < |r.states| && Recorded(r, exec, act, current, blocked)
    ensures t in blocked(r.states[i]) <==> exists m: nat :: LatestPoll(r, exec, act, t, m, i)
    ensures forall m: nat :: LatestPoll(r, exec, act, t, m, i) ==> blocked(r.states[i])[t] == current(r.states[m])
  {
    if i == 0 {
    } else {
      BlockedIsHistory(r, exec, act, current, blocked, t, i - 1);
      var s, s', a := r.states[i - 1], r.states[i - 1 + 1], act(r.states[i - 1], r.acts[i - 1]);
      assert Records(s, r.acts[i - 1], s', exec, act, current, blocked);
      if Touches(exec(s), a, t) {
        assert t in blocked(s') <==> a == Some(Executor.EndPoll(false));
        assert a == Some(Executor.EndPoll(false)) ==> LatestPoll(r, exec, act, t, i - 1, i);
        assert forall m: nat :: LatestPoll(r, exec, act, t, m, i) ==> m == i - 1;
      } else {
        assert t in blocked(s') <==> t in blocked(s);
        assert t in blocked(s) ==> blocked(s')[t] == blocked(s)[t];
        forall m: nat ensures LatestPoll(r, exec, act, t, m, i) == LatestPoll(r, exec, act, t, m, i - 1) {
        }
        if t in blocked(s) {
          var m: nat :| LatestPoll(r, exec, act, t, m, i - 1);
          assert LatestPoll(r, exec, act, t, m, i);
        }
      }
    }
  }
}
