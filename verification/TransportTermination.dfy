/** The writer leaves: from the moment it has seen the stop flag, only idle polls of its queue can
    keep it, and a poll is idle only while the USB stack has not completed the oldest transfer. */
module TransportTermination {
  import opened Wrappers
  import opened TransportModel
  import opened TransportRoles
  import opened TransportInvariants
  import opened TransportLedger
  import opened TransportTheorems

  function EmitRank(e: Emit): nat {
    match e
    case Entering => 4
    case Locked => 3
    case Calling(_) => 2
    case Handling => 1
  }

  function PcRank(pc: WriterPc): nat {
    match pc
    case Finished => 0
    case Exiting => 1
    case Polling => 2
    case ZeroTest => 3
    case Cancelling => 4
    case CancelTest => 5
    case LoopHead => 6
    case ClearingHalt => 7
    case Acking(_, e) => 7 + EmitRank(e)
    case Releasing(_, _) => 12
    case Reaped(_, _) => 13
    case Receiving => 21
    case Counting => 7
    case CommandDone(_, _) => 12
    case Holding(_) => 20
  }

  /** Steps the writer can still take without polling in vain. */
  function Left(w: WriterState): nat {
    12 * |w.queue| + PcRank(w.pc)
  }

  predicate IdlePoll(a: Action) {
    a == WriterStep(PollNone)
  }

  /** An idle poll puts the writer back at the head of its loop, four ranks up; every other step of
      the writer goes down; no other thread changes its rank. */
  lemma StepGoesDown(c: Config, s: State, a: Action)
    requires EngineInv(c, s) && s.writer.sawStop && Enabled(c, s, a)
    ensures var z := Apply(c, s, a);
      && z.writer.sawStop
      && (if IdlePoll(a) then Left(z.writer) == Left(s.writer) + 4
          else if !Foreign(Worker(Writer), a) then Left(z.writer) < Left(s.writer)
          else Left(z.writer) == Left(s.writer))
  {
    match a
    case CallStep(t, k) => CallFrame(c, s, t, k);
    case WriterStep(w) => WriterGoesDown(c, s, w);
    case EmitStep(t, e) => EmitGoesDown(c, s, t, e);
    case ReaderStep(t, r) => ReaderFrame(c, s, t, r);
  }

  lemma WriterGoesDown(c: Config, s: State, a: WriterAction)
    requires WriterInv(c, s.writer) && s.writer.sawStop && WriterEnabled(c, s, a)
    ensures var z := WriterApply(c, s, a);
      && z.writer.sawStop
      && (if a.PollNone? then Left(z.writer) == Left(s.writer) + 4 else Left(z.writer) < Left(s.writer))
  {
  }

  lemma EmitGoesDown(c: Config, s: State, t: Thread, a: EmitAction)
    requires EmitEnabled(s, t, a)
    ensures var z := EmitApply(s, t, a);
      && z.writer.sawStop == s.writer.sawStop
      && (if t.Writer? then Left(z.writer) < Left(s.writer) else Left(z.writer) == Left(s.writer))
  {
  }

  /** In every continuation the writer's steps are paid for by its rank and by idle polls. */
  lemma {:induction false} WriterStepsBounded(c: Config, s: State, acts: seq<Action>, z: State)
    requires EngineInv(c, s) && s.writer.sawStop && Run(c, s, acts, z)
    ensures z.writer.sawStop
    ensures |Own(Worker(Writer), acts)| + Left(z.writer) <= Left(s.writer) + 5 * HowMany(IdlePoll, acts)
    decreases |acts|
  {
    if acts != [] {
      EngineKept(c, s, acts[0]);
      StepGoesDown(c, s, acts[0]);
      WriterStepsBounded(c, Apply(c, s, acts[0]), acts[1..], z);
    }
  }

  /** What the writer can be waiting for. */
  predicate WriterBlocked(s: State) {
    || (s.writer.pc.Acking? && s.writer.pc.emit == Entering && s.shared.lock != None)
    || (s.writer.pc.Acking? && s.writer.pc.emit == Handling && Writer in s.calls)
  }

  ghost predicate WriterCanStep(c: Config, s: State) {
    exists a :: !Foreign(Worker(Writer), a) && !IdlePoll(a) && Enabled(c, s, a)
  }

  /** Until it is finished the writer always has a step that goes down (a completion, when it polls),
      unless it waits for STATE or for its handler. */
  lemma WriterProgress(c: Config, s: State)
    requires EngineInv(c, s) && s.writer.sawStop && !s.writer.pc.Finished? && !WriterBlocked(s)
    ensures WriterCanStep(c, s)
    ensures Left(s.writer) > 0
  {
    var a := match s.writer.pc
      case LoopHead => WriterStep(TestLoop(s.writer.inFlight < c.window))
      case CancelTest => WriterStep(TestCancel(true))
      case Cancelling => WriterStep(CancelAll)
      case ZeroTest => WriterStep(TestZero(s.writer.inFlight == 0))
      case Polling => WriterStep(PollSome(Ok))
      case Reaped(_, _) => WriterStep(Decrement)
      case Releasing(_, _) => WriterStep(ReleaseBulk)
      case ClearingHalt => WriterStep(ClearHalt)
      case Acking(_, e) =>
        EmitStep(Writer, match e
                         case Entering => Lock
                         case Locked => ReadHandler
                         case Calling(_) => Dispatch
                         case Handling => Return)
      case _ => WriterStep(Exit);
    assert Enabled(c, s, a);
  }
}
