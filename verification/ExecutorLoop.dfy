/** The executor's own code (src/executor.rs): spawn, wake and the two drain
    loops, each shown to take only steps of the system in `Executor`, with the
    steps of the polled futures and of all other threads in between.

    The original loops for ever and polls opaque futures. Here a caller supplies
    what happens in each turn of the loop, one `Turn` for each, and the loop stops
    when they are used up. */
module ExecutorLoop {
  import opened Runs
  import opened Tokens
  import opened Queues
  import opened Executor

  /** What happens around one turn of a drain loop: the halves of additions that
      anybody carries out before the loop removes from its queue, those that the
      polled future and anybody else carry out after that, and whether the poll, if
      there is one, ends Ready. */
  datatype Turn = Turn(before: seq<Action>, during: seq<Action>, ready: bool)

  // ----- The loops as sequences of steps -----

  ghost predicate IsAddition(a: Action)
  {
    a.PushWake? || a.ReleaseWake? || a.PushSpawn? || a.ReleaseSpawn?
  }

  ghost predicate CanAdd(s: State, acts: seq<Action>)
    decreases |acts|
  {
    acts == [] || (IsAddition(acts[0]) && Enabled(s, acts[0]) && CanAdd(Step(s, acts[0]), acts[1..]))
  }

  ghost function Additions(s: State, acts: seq<Action>): State
    requires CanAdd(s, acts)
    decreases |acts|
  {
    if acts == [] then s else Additions(Step(s, acts[0]), acts[1..])
  }

  lemma {:induction false} AdditionsKeepPc(s: State, acts: seq<Action>)
    requires CanAdd(s, acts)
    ensures Additions(s, acts).pc == s.pc
    decreases |acts|
  {
    if acts == [] {
    } else {
      AdditionsKeepPc(Step(s, acts[0]), acts[1..]);
    }
  }

  ghost predicate CanFinish(s: State, t: Turn)
  {
    s.pc == Waiting || CanAdd(s, t.during)
  }

  /** Runs the poll that has started, if one has, to its end. */
  ghost function FinishTurn(s: State, t: Turn): State
    requires CanFinish(s, t)
  {
    if s.pc == Waiting then s
    else
      AdditionsKeepPc(s, t.during);
      if s.pc.Polling? then Step(Additions(s, t.during), EndPoll(t.ready)) else Additions(s, t.during)
  }

  ghost predicate Draining(pc: Pc)
  {
    pc == DrainingWakes || pc == DrainingSpawns
  }

  /** The loop takes the next element off its queue. */
  ghost function TakeNext(s: State): State
    requires Draining(s.pc)
  {
    if s.pc == DrainingWakes then Step(s, NextWake) else Step(s, NextSpawn)
  }

  ghost predicate CanTurn(s: State, t: Turn)
    requires Draining(s.pc)
  {
    CanAdd(s, t.before) &&
    (AdditionsKeepPc(s, t.before); CanFinish(TakeNext(Additions(s, t.before)), t))
  }

  ghost function OneTurn(s: State, t: Turn): (s': State)
    requires Draining(s.pc) && CanTurn(s, t)
    ensures s'.pc == s.pc || s'.pc == Waiting
    ensures s'.pc == Waiting && s.pc == DrainingWakes ==> s'.wakes.vals == []
    ensures s'.pc == Waiting && s.pc == DrainingSpawns ==> s'.spawns.vals == []
  {
    AdditionsKeepPc(s, t.before);
    var m := TakeNext(Additions(s, t.before));
    assert m.pc != Waiting ==> Additions(m, t.during).pc == m.pc by {
      if m.pc != Waiting {
        AdditionsKeepPc(m, t.during);
      }
    }
    FinishTurn(m, t)
  }

  ghost predicate CanDrain(s: State, turns: seq<Turn>)
    requires Draining(s.pc) || s.pc == Waiting
    decreases |turns|
  {
    turns == [] || s.pc == Waiting || (CanTurn(s, turns[0]) && CanDrain(OneTurn(s, turns[0]), turns[1..]))
  }

  /** Turns of whichever drain loop s is in, until its queue is found empty or the
      supplied turns are used up. */
  ghost function Drain(s: State, turns: seq<Turn>): State
    requires (Draining(s.pc) || s.pc == Waiting) && CanDrain(s, turns)
    decreases |turns|
  {
    if turns == [] || s.pc == Waiting then s else Drain(OneTurn(s, turns[0]), turns[1..])
  }

  // ----- Whatever the code reaches, the step system reaches -----

  ghost predicate Reached(s: State)
  {
    Reachable(Init, Next, s)
  }

  lemma {:induction false} AdditionsLead(s: State, acts: seq<Action>)
    requires CanAdd(s, acts)
    ensures Leads(Next, s, acts, Additions(s, acts))
    decreases |acts|
  {
    if acts == [] {
      LeadsNowhere(Next, s);
    } else {
      AdditionsLead(Step(s, acts[0]), acts[1..]);
      LeadsFrom(Next, s, acts[0], Step(s, acts[0]), acts[1..], Additions(s, acts));
      assert [acts[0]] + acts[1..] == acts;
    }
  }

  /** What follows once the loop has taken from its queue: nothing if it found it
      empty; else what others add meanwhile, and the end of the poll, if one started. */
  ghost function PollActs(m: State, t: Turn): seq<Action>
  {
    if m.pc == Waiting then [] else if m.pc.Polling? then t.during + [EndPoll(t.ready)] else t.during
  }

  /** A turn leads from s to s'. */
  ghost predicate TurnLeads(s: State, t: Turn, s': State)
  {
    exists m :: TurnVia(s, t, m, s')
  }

  ghost predicate TurnVia(s: State, t: Turn, m: State, s': State)
  {
    && Leads(Next, s, t.before + [if s.pc == DrainingWakes then NextWake else NextSpawn], m)
    && Leads(Next, m, PollActs(m, t), s')
  }

  lemma FinishLeads(m: State, t: Turn)
    requires CanFinish(m, t)
    ensures Leads(Next, m, PollActs(m, t), FinishTurn(m, t))
  {
    if m.pc == Waiting {
      LeadsNowhere(Next, m);
    } else {
      AdditionsLead(m, t.during);
      AdditionsKeepPc(m, t.during);
      if m.pc.Polling? {
        LeadsOn(Next, m, t.during, Additions(m, t.during), EndPoll(t.ready), FinishTurn(m, t));
      }
    }
  }

  lemma OneTurnLeads(s: State, t: Turn)
    requires Draining(s.pc) && CanTurn(s, t)
    ensures TurnLeads(s, t, OneTurn(s, t))
  {
    AdditionsLead(s, t.before);
    AdditionsKeepPc(s, t.before);
    var added := Additions(s, t.before);
    var m := TakeNext(added);
    LeadsOn(Next, s, t.before, added, if s.pc == DrainingWakes then NextWake else NextSpawn, m);
    FinishLeads(m, t);
    assert TurnVia(s, t, m, OneTurn(s, t));
  }

  /** The turns lead, one after another, from s to s'. */
  ghost predicate TurnsLead(s: State, turns: seq<Turn>, s': State)
    decreases |turns|
  {
    if turns == [] then s == s' else exists m :: TurnLeads(s, turns[0], m) && TurnsLead(m, turns[1..], s')
  }

  /** The loops take turns, as many as are supplied unless one finds the queue empty;
      that one is the last. */
  lemma {:induction false} DrainTakesTurns(s: State, turns: seq<Turn>) returns (k: nat)
    requires Draining(s.pc) && CanDrain(s, turns)
    ensures k <= |turns| && TurnsLead(s, turns[..k], Drain(s, turns))
    ensures k < |turns| ==> Drain(s, turns).pc == Waiting
    ensures Drain(s, turns).pc == s.pc || (Drain(s, turns).pc == Waiting && k > 0)
    decreases |turns|
  {
    if turns == [] {
      k := 0;
    } else {
      OneTurnLeads(s, turns[0]);
      var m := OneTurn(s, turns[0]);
      if m.pc == Waiting {
        k := 1;
        assert Drain(m, turns[1..]) == m && TurnsLead(m, turns[..1][1..], m);
      } else {
        var more := DrainTakesTurns(m, turns[1..]);
        k := more + 1;
        assert turns[..k][1..] == turns[1..][..more];
      }
      assert turns[..k][0] == turns[0];
    }
  }

  lemma TurnReached(s: State, t: Turn)
    requires Reached(s) && Draining(s.pc) && CanTurn(s, t)
    ensures Reached(OneTurn(s, t))
  {
    OneTurnLeads(s, t);
    var m :| TurnVia(s, t, m, OneTurn(s, t));
    LeadsReached(Init, Next, s, t.before + [if s.pc == DrainingWakes then NextWake else NextSpawn], m);
    LeadsReached(Init, Next, m, PollActs(m, t), OneTurn(s, t));
  }

  /** Whatever the futures and the other threads do meanwhile, the drain loops take
      only steps of the system, so what holds of all reachable states holds of
      theirs; and a loop that is over has emptied its queue. */
  lemma {:induction false} DrainReached(s: State, turns: seq<Turn>)
    requires Reached(s) && Draining(s.pc) && CanDrain(s, turns)
    ensures var s' := Drain(s, turns);
            && Reached(s')
            && (s'.pc == s.pc || s'.pc == Waiting)
            && (s'.pc == Waiting && s.pc == DrainingWakes ==> s'.wakes.vals == [])
            && (s'.pc == Waiting && s.pc == DrainingSpawns ==> s'.spawns.vals == [])
    decreases |turns|
  {
    if turns == [] {
    } else {
      TurnReached(s, turns[0]);
      var m := OneTurn(s, turns[0]);
      if m.pc == Waiting {
        assert Drain(m, turns[1..]) == m;
      } else {
        DrainReached(m, turns[1..]);
      }
    }
  }

  // ----- The program -----

  class ExecutorHandler {
    const wakeQueue: SyncQueue<Token>
    const taskQueue: SyncQueue<Future>
    var taskCounter: nat
    var tasks: map<Token, Future>
    ghost var waking: nat
    ghost var spawning: nat
    ghost var spawned: nat
    ghost var finished: set<Token>
    ghost var submitted: multiset<Future>
    ghost var started: multiset<Future>

    /** The state of the step system, with this thread at pc. */
    ghost function View(pc: Pc): State
      reads this, wakeQueue, taskQueue
    {
      State(pc, wakeQueue.View(), waking, taskQueue.View(), spawning, taskCounter, tasks,
            spawned, finished, submitted, started)
    }

    ghost predicate Valid()
    {
      wakeQueue as object != taskQueue && this as object != wakeQueue && this as object != taskQueue
    }

    constructor (wakeQueue: SyncQueue<Token>, taskQueue: SyncQueue<Future>)
      requires wakeQueue as object != taskQueue
      requires wakeQueue.View() == Queue([], 0) && taskQueue.View() == Queue([], 0)
      ensures this.wakeQueue == wakeQueue && this.taskQueue == taskQueue
      ensures Valid() && Init(View(Waiting))
    {
      this.wakeQueue, this.taskQueue := wakeQueue, taskQueue;
      taskCounter, tasks := 0, map[];
      waking, spawning, spawned, finished := 0, 0, 0, {};
      submitted, started := multiset{}, multiset{};
    }

    /** One half of an addition. */
    method RunAddition(a: Action, ghost pc: Pc)
      requires Valid() && IsAddition(a) && Enabled(View(pc), a)
      modifies wakeQueue, taskQueue, this`waking, this`spawning, this`submitted
      ensures View(pc) == Step(old(View(pc)), a)
    {
      match a
      case PushWake(t) =>
        wakeQueue.PushValue(t);
        waking := waking + 1;
      case ReleaseWake =>
        wakeQueue.ReleaseOne();
        waking := waking - 1;
      case PushSpawn(f) =>
        taskQueue.PushValue(f);
        spawning, submitted := spawning + 1, submitted + multiset{f};
      case ReleaseSpawn =>
        taskQueue.ReleaseOne();
        spawning := spawning - 1;
    }

    /** The halves of additions that a polled future and other threads carry out. */
    method RunAdditions(acts: seq<Action>, ghost pc: Pc)
      requires Valid() && CanAdd(View(pc), acts)
      modifies wakeQueue, taskQueue, this`waking, this`spawning, this`submitted
      ensures View(pc) == Additions(old(View(pc)), acts)
    {
      for i := 0 to |acts|
        invariant CanAdd(View(pc), acts[i..])
        invariant Additions(View(pc), acts[i..]) == Additions(old(View(pc)), acts)
      {
        assert acts[i..][0] == acts[i] && acts[i..][1..] == acts[i + 1..];
        RunAddition(acts[i], pc);
      }
    }

    method EndFirstPoll(key: Token, future: Future, ready: bool)
      requires Valid()
      modifies this`tasks, this`finished
      ensures View(DrainingSpawns) == StepEnd(old(View(Polling(key, future, true))), ready)
    {
      if ready {
        finished := finished + {key};
      } else {
        tasks := tasks[key := future];
      }
    }

    /** Polls a new future; unless it is Ready at once it becomes a task. */
    method Spawn(future: Future, t: Turn) returns (token: Option<Token>)
      requires Valid() && CanFinish(Born(View(DrainingSpawns), future), t)
      modifies this, wakeQueue, taskQueue
      ensures token == if t.ready then None else Some(old(taskCounter))
      ensures tasks == if t.ready then old(tasks) else old(tasks)[old(taskCounter) := future]
      ensures taskCounter == (old(taskCounter) + 1) % U32_SIZE
      ensures View(DrainingSpawns) == FinishTurn(Born(old(View(DrainingSpawns)), future), t)
    {
      var key := taskCounter;
      taskCounter := (taskCounter + 1) % U32_SIZE;
      spawned, started := spawned + 1, started + multiset{future};
      ghost var pc := Polling(key, future, true);
      ghost var born := View(pc);
      assert born == Born(old(View(DrainingSpawns)), future);
      RunAdditions(t.during, pc);
      AdditionsKeepPc(born, t.during);
      assert FinishTurn(born, t) == StepEnd(View(pc), t.ready);
      EndFirstPoll(key, future, t.ready);
      token := if t.ready then None else Some(key);
    }

    /** Polls the task, if there is one under this token. */
    method Wake(task: Token, t: Turn)
      requires Valid()
      requires CanFinish(View(if task in tasks then Polling(task, tasks[task], false) else DrainingWakes), t)
      modifies this, wakeQueue, taskQueue
      ensures tasks == if task in old(tasks) && t.ready then old(tasks) - {task} else old(tasks)
      ensures taskCounter == old(taskCounter)
      ensures View(DrainingWakes) ==
              FinishTurn(old(View(if task in tasks then Polling(task, tasks[task], false) else DrainingWakes)), t)
    {
      ghost var pc := if task in tasks then Polling(task, tasks[task], false) else DrainingWakes;
      AdditionsKeepPc(View(pc), t.during);
      RunAdditions(t.during, pc);
      if task in tasks && t.ready {
        tasks := tasks - {task};
        finished := finished + {task};
      }
    }

    /** One turn of the wake loop; the loop is over when the queue was empty. */
    method WakeTurn(t: Turn) returns (done: bool)
      requires Valid() && CanTurn(View(DrainingWakes), t)
      modifies this, wakeQueue, taskQueue
      ensures View(if done then Waiting else DrainingWakes) == OneTurn(old(View(DrainingWakes)), t)
    {
      AdditionsKeepPc(View(DrainingWakes), t.before);
      RunAdditions(t.before, DrainingWakes);
      var task := wakeQueue.Remove();
      done := task == None;
      if !done {
        Wake(task.value, t);
      }
    }

    /** One turn of the spawn loop. */
    method SpawnTurn(t: Turn) returns (done: bool)
      requires Valid() && CanTurn(View(DrainingSpawns), t)
      modifies this, wakeQueue, taskQueue
      ensures View(if done then Waiting else DrainingSpawns) == OneTurn(old(View(DrainingSpawns)), t)
    {
      AdditionsKeepPc(View(DrainingSpawns), t.before);
      RunAdditions(t.before, DrainingSpawns);
      var future := taskQueue.Remove();
      done := future == None;
      if !done {
        var _ := Spawn(future.value, t);
      }
    }

    method DrainWakes(turns: seq<Turn>) returns (done: bool)
      requires Valid() && CanDrain(View(DrainingWakes), turns)
      modifies this, wakeQueue, taskQueue
      ensures View(if done then Waiting else DrainingWakes) == Drain(old(View(DrainingWakes)), turns)
    {
      done := false;
      for i := 0 to |turns|
        invariant !done && CanDrain(View(DrainingWakes), turns[i..])
        invariant Drain(View(DrainingWakes), turns[i..]) == Drain(old(View(DrainingWakes)), turns)
      {
        assert turns[i..][0] == turns[i] && turns[i..][1..] == turns[i + 1..];
        done := WakeTurn(turns[i]);
        if done {
          return;
        }
      }
    }

    method DrainSpawns(turns: seq<Turn>) returns (done: bool)
      requires Valid() && CanDrain(View(DrainingSpawns), turns)
      modifies this, wakeQueue, taskQueue
      ensures View(if done then Waiting else DrainingSpawns) == Drain(old(View(DrainingSpawns)), turns)
    {
      done := false;
      for i := 0 to |turns|
        invariant !done && CanDrain(View(DrainingSpawns), turns[i..])
        invariant Drain(View(DrainingSpawns), turns[i..]) == Drain(old(View(DrainingSpawns)), turns)
      {
        assert turns[i..][0] == turns[i] && turns[i..][1..] == turns[i + 1..];
        done := SpawnTurn(turns[i]);
        if done {
          return;
        }
      }
    }

    /** One turn of the outer loop, once the kernel has reported the semaphore
        idx of [spawn queue, wake queue] as signalled. */
    method RunOnce(idx: nat, turns: seq<Turn>) returns (done: bool)
      requires Valid()
      requires (idx == 0 && taskQueue.permits > 0) || (idx == 1 && wakeQueue.permits > 0)
      requires CanDrain(Step(View(Waiting), if idx == 0 then WaitSpawn else WaitWake), turns)
      modifies this, wakeQueue, taskQueue
      ensures View(if done then Waiting else if idx == 0 then DrainingSpawns else DrainingWakes) ==
              Drain(Step(old(View(Waiting)), if idx == 0 then WaitSpawn else WaitWake), turns)
    {
      if idx == 1 {
        var _ := wakeQueue.TryWait();
        done := DrainWakes(turns);
      } else {
        var _ := taskQueue.TryWait();
        done := DrainSpawns(turns);
      }
    }
  }
}
