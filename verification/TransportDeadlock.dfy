/** No interleaving of calls, handlers that re-enter the transport, and close can deadlock. */
module TransportDeadlock {
  import opened Wrappers
  import opened TransportModel
  import opened TransportRoles
  import opened TransportInvariants
  import opened TransportLedger
  import opened TransportTheorems

  predicate AtJoin(s: State, t: Thread) {
    t in s.calls && s.calls[t].Joining?
  }

  /** `t` cannot go on before `u` does: `u` holds STATE, or `t` joins `u`. */
  predicate WaitsFor(s: State, t: Thread, u: Thread) {
    || (WaitsForLock(s, t) && s.shared.lock == Some(u))
    || (AtJoin(s, t) && s.calls[t].worker == u && !WorkerFinished(s, u))
  }

  predicate Waits(s: State, t: Thread) {
    || (WaitsForLock(s, t) && s.shared.lock != None)
    || (AtJoin(s, t) && !WorkerFinished(s, s.calls[t].worker))
  }

  /** A worker that cannot go on by itself: it waits, or its handler is in a call. */
  predicate Blocked(s: State, t: Thread) {
    Waits(s, t) || (EmitOf(s, t) == Some(Handling) && t in s.calls)
  }

  /** The holder of STATE is never at a join, at a handler call, or asking for STATE again. */
  lemma HolderNeverWaits(c: Config, z: State, t: Thread)
    requires Reachable(c, z) && z.shared.lock == Some(t)
    ensures !WaitsForLock(z, t) && !AtJoin(z, t)
    ensures EmitOf(z, t).Some? ==> EmitOf(z, t).value.Locked? || (t in z.calls && z.calls[t].Inside?)
    ensures forall u :: !WaitsFor(z, t, u)
  {
    BaseReachable(c, z);
    HolderRuns(z, t);
  }

  lemma HolderRuns(s: State, t: Thread)
    requires BaseInv(s) && s.shared.lock == Some(t)
    ensures !WaitsForLock(s, t) && !AtJoin(s, t)
    ensures EmitOf(s, t).Some? ==> EmitOf(s, t).value.Locked? || (t in s.calls && s.calls[t].Inside?)
  {
    assert Holds(s, t);
    if t in s.calls {
      assert MayCall(s, t);
    }
  }

  /** A joiner waits for a worker, a waiter for the holder, and the holder for nobody. */
  function Rank(s: State, t: Thread): nat {
    if AtJoin(s, t) then 2 else if WaitsForLock(s, t) then 1 else 0
  }

  lemma WaitGoesDown(s: State, t: Thread, u: Thread)
    requires BaseInv(s) && WaitsFor(s, t, u)
    ensures Rank(s, u) < Rank(s, t)
  {
    if AtJoin(s, t) && s.calls[t].worker == u && !WorkerFinished(s, u) {
      assert OwnedBy(s, t, s.calls[t]);
      if u in s.calls {
        assert OwnedBy(s, u, s.calls[u]);
      }
    } else {
      HolderRuns(s, u);
    }
  }

  predicate WaitChain(s: State, p: seq<Thread>) {
    forall i | 0 <= i < |p| - 1 :: WaitsFor(s, p[i], p[i + 1])
  }

  lemma {:induction false} ChainGoesDown(s: State, p: seq<Thread>)
    requires BaseInv(s) && p != [] && WaitChain(s, p)
    ensures Rank(s, p[|p| - 1]) + |p| - 1 <= Rank(s, p[0])
    decreases |p|
  {
    if |p| > 1 {
      WaitGoesDown(s, p[0], p[1]);
      forall i | 0 <= i < |p[1..]| - 1 ensures WaitsFor(s, p[1..][i], p[1..][i + 1]) {
        assert WaitsFor(s, p[i + 1], p[i + 2]);
      }
      ChainGoesDown(s, p[1..]);
    }
  }

  /** The wait-for graph over STATE and the thread joins has no cycle, in any reachable state, and no
      chain of more than two waits. */
  lemma WaitGraphAcyclic(c: Config, z: State, p: seq<Thread>)
    requires Reachable(c, z) && |p| >= 2 && WaitChain(z, p)
    ensures p[0] != p[|p| - 1]
    ensures |p| <= 3
  {
    BaseReachable(c, z);
    ChainGoesDown(z, p);
  }

  // ---- Somebody can always go on -------------------------------------------------------------------

  /** A thread inside a call, or a worker that has not finished. */
  predicate Active(s: State, t: Thread) {
    t in s.calls || (!t.Client? && !WorkerFinished(s, t))
  }

  ghost predicate CanStep(c: Config, s: State, t: Thread) {
    exists a :: Actor(a) == t && Enabled(c, s, a)
  }

  lemma CallerCanStep(c: Config, s: State, t: Thread)
    requires ViewInv(s) && t in s.calls && !Waits(s, t)
    ensures CanStep(c, s, t)
  {
    assert ViewOf(s, t) < |s.shared.mods|;
    var k, last := s.calls[t], |s.shared.mods| - 1;
    var a := match k
      case Waiting(_) => Enter
      case Inside(op) =>
        (match op
         case Send(_, _) => Snapshot
         case CanSend => Answer(last)
         case Register(_) => SetHandler
         case Close => Take
         case Publish => Store)
      case Loading(_, _) => Load(last)
      case Exchanging(_, _, current) => if current >= c.depth then Refuse else CasFail(last)
      case Reserved(ty, _) => if ty.Supported? then TrySend else Reject
      case GivingBack => CallAction.GiveBack
      case RaisingStop => CallAction.RaiseStop
      case Joining(_) => Join;
    assert Enabled(c, s, CallStep(t, a));
  }

  function NextEmit(e: Emit): EmitAction {
    match e
    case Entering => Lock
    case Locked => ReadHandler
    case Calling(_) => Dispatch
    case Handling => Return
  }

  lemma WriterCanStep(c: Config, s: State)
    requires WriterInv(c, s.writer) && OwnerInv(s)
    requires Writer !in s.calls && !s.writer.pc.Finished? && !Waits(s, Writer)
    ensures CanStep(c, s, Writer)
  {
    var w := s.writer;
    var a := match w.pc
      case LoopHead => WriterStep(TestLoop(w.sawStop && w.inFlight < c.window))
      case Receiving => WriterStep(if s.shared.channel == [] then Timeout else Receive)
      case Holding(p) => WriterStep(if p.kind.Command? then SendCommand(true) else Submit)
      case Counting => WriterStep(Count)
      case CommandDone(_, _) => WriterStep(ReleaseCommand)
      case Acking(_, e) => EmitStep(Writer, NextEmit(e))
      case CancelTest => WriterStep(TestCancel(w.sawStop))
      case Cancelling => WriterStep(CancelAll)
      case ZeroTest => WriterStep(TestZero(w.sawStop && w.inFlight == 0))
      case Polling => WriterStep(PollNone)
      case Reaped(_, _) => WriterStep(Decrement)
      case Releasing(_, _) => WriterStep(ReleaseBulk)
      case ClearingHalt => WriterStep(ClearHalt)
      case _ => WriterStep(Exit);
    assert Enabled(c, s, a) && Actor(a) == Writer;
  }

  lemma ReaderCanStep(c: Config, s: State, t: Thread)
    requires IsReader(t) && OwnerInv(s)
    requires t !in s.calls && !WorkerFinished(s, t) && !Waits(s, t)
    ensures CanStep(c, s, t)
  {
    var r := ReaderOf(s, t);
    var a := match r.pc
      case ReaderHead => ReaderStep(t, if r.pending > 0 then Complete(Completion(Ok, [])) else ReaderExit)
      case Emitting(_, e) => EmitStep(t, NextEmit(e))
      case Recovering => ReaderStep(t, Recover)
      case Testing => ReaderStep(t, Test(r.sawStop))
      case Resubmitting => ReaderStep(t, Resubmit)
      case _ => ReaderStep(t, if r.pending > 0 then DrainOne else Drained);
    assert Enabled(c, s, a) && Actor(a) == t;
  }

  lemma FreeThreadSteps(c: Config, s: State, t: Thread)
    requires EngineInv(c, s) && Active(s, t) && !Waits(s, t)
    ensures CanStep(c, s, t)
  {
    if t in s.calls {
      CallerCanStep(c, s, t);
    } else if t.Writer? {
      WriterCanStep(c, s);
    } else {
      ReaderCanStep(c, s, t);
    }
  }

  lemma HolderActive(s: State, t: Thread)
    requires BaseInv(s) && s.shared.lock == Some(t)
    ensures Active(s, t) && !Waits(s, t)
  {
    HolderRuns(s, t);
  }

  /** Whatever thread has work to do, following its waits leads in at most two hops to a thread that
      has an enabled step: no reachable state is a deadlock, closing included. */
  lemma DeadlockFree(c: Config, z: State, t: Thread) returns (p: seq<Thread>)
    requires Reachable(c, z) && Active(z, t)
    ensures 1 <= |p| <= 3 && p[0] == t && WaitChain(z, p)
    ensures Active(z, p[|p| - 1]) && CanStep(c, z, p[|p| - 1])
  {
    EngineReachable(c, z);
    p := [t];
    if AtJoin(z, t) && Waits(z, t) {
      assert OwnedBy(z, t, z.calls[t]);
      p := [t, z.calls[t].worker];
      if Waits(z, p[1]) && p[1] in z.calls {
        assert OwnedBy(z, p[1], z.calls[p[1]]);
      }
    }
    var u := p[|p| - 1];
    if Waits(z, u) {
      HolderActive(z, z.shared.lock.value);
      p := p + [z.shared.lock.value];
    }
    FreeThreadSteps(c, z, p[|p| - 1]);
  }
}
