/** What a task can wait for: the sources of wakes that complete once. Each has a
    completing side, which makes it complete and wakes its owner, and a polling
    side, the future in its owner's hands. */
module Sources {
  import opened Tokens
  import Oneshot
  import FileOp
  import Join
  import Notification
  import Sleep

  datatype Source =
    | Channel(channel: Oneshot.State)
    | File(file: FileOp.State)
    | Notice(notice: Notification.State, waiter: Token, asked: bool, given: Given)
    | Timer(sleep: Sleep.State, sleeper: Token)
    | Joined(join: Join.State, awaiter: Token)

  /** Whether the notifier, which notify consumes, has been used, and if so whether
      that was before the first poll (`asked`) or after it. */
  datatype Given = NotGiven | GivenEarly | GivenInTime

  ghost function Owner(src: Source): Token
  {
    match src
    case Channel(c) => c.owner
    case File(f) => f.task
    case Notice(_, t, _, _) => t
    case Timer(_, t) => t
    case Joined(_, t) => t
  }

  ghost predicate Fresh(src: Source)
  {
    match src
    case Channel(c) => Oneshot.Init(c)
    case File(f) => FileOp.Init(f)
    case Notice(n, _, asked, g) => Notification.Init(n) && !asked && g == NotGiven
    case Timer(z, _) => Sleep.Init(z)
    case Joined(j, _) => Join.Init(j) && !j.blocking
  }

  /** Completion is announced to the owner. It is not by a join, by a sleep of 2^63 ns
      or more, or by a notification to a task whose token is one of its sentinels. */
  ghost predicate Announces(src: Source)
  {
    match src
    case Channel(_) => true
    case File(_) => true
    case Notice(_, t, _, _) => Notification.IsToken(t)
    case Timer(z, _) => z.deadline < Sleep.I64_LIMIT
    case Joined(_, _) => false
  }

  /** A poll that loads now finds the source complete. */
  ghost predicate Done(src: Source)
  {
    match src
    case Channel(c) => c.flag
    case File(f) => FileOp.Complete(f)
    case Notice(n, _, _, _) => n.word == NOTIFICATION_READY
    case Timer(z, _) => z.now >= z.deadline
    case Joined(j, _) => !Join.BeforeStore(j)
  }

  // The completing side: sender, pool worker, notifier, clock and kernel timer, the
  // wrapper around a joined task.

  datatype Completion =
    | Sender(send: Oneshot.Action)
    | Worker
    | Notifier
    | Clock(tick: Sleep.Action)
    | Wrapper(step: Join.Action)

  ghost predicate CanComplete(src: Source, c: Completion)
  {
    match src
    case Channel(ch) => c.Sender? && !c.send.StartPoll? && !c.send.RxStep? && Oneshot.Enabled(ch, c.send)
    case File(f) => c.Worker? && FileOp.Enabled(f, FileOp.WorkerStep)
    case Notice(_, _, _, g) => c.Notifier? && g == NotGiven
    case Timer(z, _) => c.Clock? && !c.tick.Poll? && Sleep.Enabled(z, c.tick)
    case Joined(j, _) => c.Wrapper? && (c.step.Finish? || c.step.WrapperStep?) && Join.Enabled(j, c.step)
  }

  ghost function Completed(src: Source, c: Completion): Source
    requires CanComplete(src, c)
  {
    match src
    case Channel(ch) => Channel(Oneshot.Step(ch, c.send))
    case File(f) => File(FileOp.WorkerNext(f))
    case Notice(n, t, asked, _) =>
      Notice(Notification.Step(n, Notification.Notify), t, asked, if asked then GivenInTime else GivenEarly)
    case Timer(z, t) => Timer(Sleep.Step(z, c.tick), t)
    case Joined(j, t) => Joined(Join.Step(j, c.step), t)
  }

  ghost function Pushes(src: Source, c: Completion): Option<Token>
    requires CanComplete(src, c)
  {
    match src
    case Channel(ch) => Oneshot.Wakes(ch, c.send)
    case File(f) => FileOp.Wakes(f, FileOp.WorkerStep)
    case Notice(n, _, _, _) => Notification.Wakes(n, Notification.Notify)
    case Timer(_, t) => if c.tick.Fire? then Some(t) else None
    case Joined(j, _) => if j.wrapper == Join.Test && j.slot.Awaited? then Some(j.slot.waker) else None
  }

  /** The completing side is in the middle of its operation; a timer that is due
      is, until the reactor has handled its signal. */
  ghost predicate Busy(src: Source)
  {
    match src
    case Channel(c) => c.tx != Oneshot.Unused && c.tx != Oneshot.Gone
    case File(f) => f.worker.StoreCode? || f.worker.StoreWord? || f.worker.WakeTask?
    case Notice(_, _, _, _) => false
    case Timer(z, _) => z.due.Some? && !z.fired && z.due.value <= z.now
    case Joined(j, _) => !Join.MutexFree(j)
  }

  /** The completing side will push its owner's token before it is idle again. */
  ghost predicate Owes(src: Source)
  {
    match src
    case Channel(c) =>
      || (c.tx == Oneshot.ReadTask && c.rxTask.Some?)
      || (c.tx == Oneshot.DropReadTask && c.rxTask.Some?)
      || c.tx.WakeTask? || c.tx.DropWakeTask?
    case File(f) => f.worker.WakeTask?
    case Notice(_, _, _, _) => false
    case Timer(z, _) => z.due.Some? && !z.fired
    case Joined(_, _) => false
  }

  /** The owner's token was pushed since the owner last found the source incomplete,
      whether or not it is complete now: a timer that is cut short rings early. */
  ghost predicate Rung(src: Source)
  {
    src.Timer? && src.sleep.wake
  }

  // The polling side.

  ghost predicate CanPoll(src: Source)
  {
    match src
    case Channel(c) => !c.rx.Ready?
    case File(f) => !f.poller.Ready?
    case Notice(_, _, _, _) => true
    case Timer(z, _) => !z.ready
    case Joined(j, _) => Join.MutexFree(j) && j.delivered == []
  }

  ghost function Polled(src: Source): Source
  {
    match src
    case Channel(c) => Channel(Oneshot.RxNext(c))
    case File(f) => File(FileOp.PollNext(f))
    case Notice(n, t, _, g) => Notice(Notification.Step(n, Notification.Poll(t)), t, true, g)
    case Timer(z, t) => Timer(Sleep.Step(z, Sleep.Poll), t)
    case Joined(j, t) => Joined(Join.Polled(j, t), t)
  }

  /** The next step of the poll is the load on which it decides. */
  ghost predicate AtLoad(src: Source)
  {
    match src
    case Channel(c) => c.rx == Oneshot.LoadFlag
    case File(f) => f.poller == FileOp.Resting
    case _ => true
  }

  ghost predicate MidPoll(src: Source)
  {
    match src
    case Channel(c) => c.rx == Oneshot.LoadFlag || c.rx == Oneshot.TakeCell
    case File(f) => f.poller == FileOp.Enqueue || f.poller == FileOp.Register || f.poller.LoadCode?
    case _ => false
  }

  /** The history of the word; a waiter under a sentinel is never told from the start
      or the end. */
  ghost predicate SoundNotice(word: nat, t: Token, asked: bool, g: Given)
  {
    if Notification.IsToken(t) then
      && (g == GivenInTime ==> asked)
      && word == if !asked then NOTIFICATION_UNINIT else if g == GivenInTime then NOTIFICATION_READY else t
    else
      word == if asked then t else NOTIFICATION_UNINIT
  }

  ghost predicate Sound(src: Source)
  {
    match src
    case Channel(c) => Oneshot.Inv(c)
    case File(f) => FileOp.Inv(f)
    case Notice(n, t, asked, g) => SoundNotice(n.word, t, asked, g)
    case Timer(z, _) => Sleep.Inv(z) && (z.due.Some? ==> z.due.value <= z.deadline)
    case Joined(j, t) => Join.Inv(j) && !j.blocking && (j.waiting.Some? ==> j.waiting.value == t)
  }

  /** The owner has asked and was told to wait; from then on the completing side
      knows, or is about to learn, whom to wake. */
  ghost predicate Armed(src: Source)
  {
    match src
    case Channel(c) => c.rxTask.Some?
    case File(f) => f.registered || f.poller == FileOp.Enqueue || f.poller == FileOp.Register
    case Notice(_, _, asked, _) => asked
    case Timer(z, _) => z.due.Some? && !z.ready
    case Joined(j, _) => j.waiting.Some?
  }

  /** Completing an armed source leaves a wake owed or pushes it. */
  lemma CompletionIsAnnounced(src: Source, c: Completion)
    requires Sound(src) && CanComplete(src, c)
    ensures var src' := Completed(src, c);
            && Sound(src') && Owner(src') == Owner(src) && Announces(src') == Announces(src)
            && (Armed(src) ==> Armed(src'))
            && (Pushes(src, c).Some? ==> Pushes(src, c).value == Owner(src))
            && (Announces(src) && Armed(src) && Done(src') ==>
                  (Done(src) && !Owes(src)) || Owes(src') || Pushes(src, c).Some?)
            && (Rung(src') ==> Rung(src) || Pushes(src, c).Some?)
  {
    match src
    case Channel(ch) => Oneshot.InvKept(ch, c.send, Oneshot.Step(ch, c.send));
    case File(f) => FileOp.InvKept(f, FileOp.WorkerStep, FileOp.WorkerNext(f));
    case Notice(_, _, _, _) =>
    case Timer(z, _) => Sleep.InvKept(z, c.tick, Sleep.Step(z, c.tick));
    case Joined(j, _) => Join.InvKept(j, c.step, Join.Step(j, c.step));
  }

  /** A poll completes nothing, forgets no debt, and arms before it decides; a source
      stays armed until a poll finds it complete. */
  lemma PollIsQuiet(src: Source)
    requires Sound(src) && CanPoll(src)
    ensures var src' := Polled(src);
            && Sound(src') && Owner(src') == Owner(src) && Announces(src') == Announces(src)
            && (Armed(src) && !(AtLoad(src) && Done(src)) ==> Armed(src'))
            && (Done(src') == Done(src) || !Announces(src)) && (Owes(src) ==> Owes(src'))
            && (AtLoad(src) && !Done(src) ==> Armed(src') && !Rung(src'))
            && (Rung(src') ==> Rung(src))
  {
    match src
    case Channel(c) =>
      var a := if c.rx == Oneshot.Resting then Oneshot.StartPoll else Oneshot.RxStep;
      Oneshot.InvKept(c, a, Oneshot.RxNext(c));
    case File(f) =>
      var a := if f.poller == FileOp.Resting then FileOp.StartPoll else FileOp.PollStep;
      FileOp.InvKept(f, a, FileOp.PollNext(f));
    case Notice(_, _, _, _) =>
    case Timer(z, _) => Sleep.InvKept(z, Sleep.Poll, Sleep.Step(z, Sleep.Poll));
    case Joined(j, t) => Join.InvKept(j, Join.Poll(t), Join.Polled(j, t));
  }
}
