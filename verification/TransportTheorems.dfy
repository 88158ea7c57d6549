/** What holds in every reachable state of the send engine. */
module TransportTheorems {
  import opened Wrappers
  import opened TransportModel
  import opened TransportInvariants
  import opened TransportLedger
  import opened TransportHistory

  ghost predicate EngineInv(c: Config, s: State) {
    BaseInv(s) && WriterInv(c, s.writer) && Ledger(c, s) && ViewInv(s) && HistoryInv(s)
  }

  lemma EngineInit(c: Config, s: State)
    requires Init(c, s)
    ensures EngineInv(c, s)
  {
    assert Holders(s) == {};
  }

  lemma EngineKept(c: Config, s: State, a: Action)
    requires EngineInv(c, s) && Enabled(c, s, a)
    ensures EngineInv(c, Apply(c, s, a))
  {
    BaseKept(c, s, a);
    WriterInvKept(c, s, a);
    LedgerKept(c, s, a);
    ViewsKept(c, s, a);
    HistoryKept(c, s, a);
  }

  lemma {:induction false} EngineRun(c: Config, s: State, acts: seq<Action>, z: State)
    requires EngineInv(c, s) && Run(c, s, acts, z)
    ensures EngineInv(c, z)
    decreases |acts|
  {
    if acts != [] {
      EngineKept(c, s, acts[0]);
      EngineRun(c, Apply(c, s, acts[0]), acts[1..], z);
    }
  }

  lemma EngineReachable(c: Config, z: State)
    requires Reachable(c, z)
    ensures EngineInv(c, z)
  {
    var s, acts :| Init(c, s) && Run(c, s, acts, z);
    EngineInit(c, s);
    EngineRun(c, s, acts, z);
  }

  // ---- The slot ledger ---------------------------------------------------------------------------

  /** A packet the writer has taken from the channel and not yet counted in `in_flight_out`. */
  function Received(pc: WriterPc): nat {
    if pc.Holding? || pc.Counting? || pc.CommandDone? then 1 else 0
  }

  /** A completion taken off `in_flight_out` whose slot is not yet released. */
  function Unreleased(pc: WriterPc): nat {
    if pc.Releasing? then 1 else 0
  }

  /** In every interleaving the counter is the sum of the places a slot can be, and stays in bounds. */
  lemma SlotLedger(c: Config, z: State)
    requires Reachable(c, z)
    ensures Pending(z) == |Holders(z)| + |z.shared.channel| + Received(z.writer.pc) + z.writer.inFlight
                          + Unreleased(z.writer.pc) + |z.log.abandoned|
    ensures 0 <= z.writer.inFlight <= c.window
    ensures forall i | 0 <= i < |z.shared.mods| :: 0 <= z.shared.mods[i] <= c.depth
  {
    EngineReachable(c, z);
  }

  predicate Releases(a: Action) {
    || a == WriterStep(ReleaseCommand)
    || a == WriterStep(ReleaseBulk)
    || (a.CallStep? && a.call.GiveBack?)
  }

  /** No fetch_sub ever wraps: whoever is about to release finds the counter positive; nor does the
      writer's own `in_flight_out -= 1`. */
  lemma NoUnderflow(c: Config, z: State, a: Action)
    requires Reachable(c, z) && Enabled(c, z, a)
    ensures Releases(a) ==> Pending(z) > 0
    ensures a == WriterStep(Decrement) ==> z.writer.inFlight > 0
  {
    EngineReachable(c, z);
    match a
    case CallStep(t, k) => GiverCounted(c, z, t, k);
    case WriterStep(w) => ReleaserCounted(c, z, w);
    case _ =>
  }

  lemma GiverCounted(c: Config, s: State, t: Thread, a: CallAction)
    requires Ledger(c, s) && CallEnabled(c, s, t, a)
    ensures a.GiveBack? ==> Pending(s) > 0
  {
    if a.GiveBack? {
      assert t in Holders(s);
    }
  }

  lemma ReleaserCounted(c: Config, s: State, a: WriterAction)
    requires Ledger(c, s) && WriterCount(c, s.writer) && WriterEnabled(c, s, a)
    ensures a.ReleaseCommand? || a.ReleaseBulk? ==> Pending(s) > 0
    ensures a.Decrement? ==> s.writer.inFlight > 0
  {
  }

  // ---- Capacity ----------------------------------------------------------------------------------

  /** With the depth within the channel's capacity, try_send fails exactly when the receiver is gone:
      it never reports Full. */
  lemma NeverFull(c: Config, z: State, t: Thread)
    requires c.depth <= c.capacity
    requires Reachable(c, z) && CallEnabled(c, z, t, TrySend)
    ensures TrySendAccepts(c, z) <==> z.shared.receiverAlive
  {
    EngineReachable(c, z);
    assert t in Holders(z);
  }

  /** With the depth within the bulk window, a full window means that the channel is empty and no
      sender holds a slot: the window never keeps a command waiting. */
  lemma WindowNeverBlocks(c: Config, z: State)
    requires c.depth <= c.window
    requires Reachable(c, z) && z.writer.inFlight >= c.window
    ensures z.shared.channel == [] && Holders(z) == {} && z.log.abandoned == []
    ensures Pending(z) == c.depth == c.window
  {
    EngineReachable(c, z);
  }

  // ---- Order and acknowledgement -----------------------------------------------------------------

  /** Packets leave the channel in the order they were accepted; bulk packets are submitted in that
      order and complete in that order; commands end in that order. */
  lemma FifoDelivery(c: Config, z: State)
    requires Reachable(c, z)
    ensures z.log.dequeued <= z.log.accepted
    ensures z.log.submitted <= Project(z.log.dequeued, true)
    ensures Project(Packets(z.log.results), true) <= z.log.submitted
    ensures Project(Packets(z.log.results), false) <= Project(z.log.dequeued, false)
    ensures !z.writer.pc.Holding? ==> z.log.submitted == Project(z.log.dequeued, true)
  {
    EngineReachable(c, z);
    AcceptedFirst(z.log.dequeued, z.shared.channel, z.log.abandoned);
    TransfersInOrder(z.log.dequeued, HeldPacket(z.writer.pc), z.log.submitted, z.writer.queue, z.log.results);
  }

  lemma AcceptedFirst(deq: seq<Packet>, ch: seq<Packet>, gone: seq<Packet>)
    ensures deq <= deq + ch + gone
  {
  }

  lemma TransfersInOrder(deq: seq<Packet>, held: Option<Packet>, sub: seq<Packet>, q: seq<Packet>, rs: seq<Outcome>)
    requires Transfers(deq, held, sub, q, rs)
    ensures sub <= Project(deq, true)
    ensures Project(Packets(rs), true) <= sub
    ensures Project(Packets(rs), false) <= Project(deq, false)
    ensures held == None ==> sub == Project(deq, true)
  {
  }

  /** The packet-sent events are exactly the successful results, in order, except that the latest one
      may not have been emitted yet: at most one event per packet, and none before its Ok. */
  lemma ExactAcknowledgement(c: Config, z: State)
    requires Reachable(c, z)
    ensures z.log.acked <= Ended(z.log.results, true)
    ensures |Ended(z.log.results, true)| <= |z.log.acked| + 1
    ensures z.writer.pc.LoopHead? || z.writer.pc.Finished? ==> z.log.acked == Ended(z.log.results, true)
  {
    EngineReachable(c, z);
  }

  /** Every accepted packet is in exactly one place. */
  lemma Conservation(c: Config, z: State)
    requires Reachable(c, z)
    ensures |z.log.accepted| == |z.log.acked| + |AckDue(z.writer.pc)| + |Ended(z.log.results, false)|
                                + |z.shared.channel| + (if z.writer.pc.Holding? then 1 else 0)
                                + |z.writer.queue| + |z.log.abandoned|
  {
    EngineReachable(c, z);
    ProjectionsPartition(z.log.dequeued);
    ProjectionsPartition(Packets(z.log.results));
    EndingsPartition(z.log.results);
  }

  // ---- Shutdown of the writer ----------------------------------------------------------------------

  /** However stop is timed: one cancellation at the first pass that sees it with anything in flight, and
      never a second, nothing submitted after it, the channel never
      seen as disconnected, and the writer leaves only with every transfer reaped. */
  lemma ShutdownSafety(c: Config, z: State)
    requires Reachable(c, z)
    ensures |z.log.cancels| <= 1
    ensures z.log.cancels != [] ==> z.log.cancels[0] == |z.log.submitted|
    ensures z.writer.sawStop && z.writer.inFlight > 0 && !z.writer.pc.CancelTest? && !z.writer.pc.Cancelling? ==>
      |z.log.cancels| == 1
    ensures z.writer.sawStop && (z.writer.pc.ZeroTest? || z.writer.pc.Polling?) ==> |z.log.cancels| == 1
    ensures !WriterEnabled(c, z, Disconnected)
    ensures z.writer.cancelled ==> !WriterEnabled(c, z, Submit) && !WriterEnabled(c, z, CancelAll)
    ensures !z.shared.receiverAlive ==>
      && z.writer.inFlight == 0 && z.writer.queue == [] && z.shared.stop
      && z.log.submitted == Project(Packets(z.log.results), true)
      && z.log.acked == Ended(z.log.results, true)
  {
    EngineReachable(c, z);
    NeverDisconnected(c, z);
  }

  /** Once cancelled, the queue is never submitted to again, in any continuation. */
  lemma {:induction false} NothingAfterCancel(c: Config, s: State, acts: seq<Action>, z: State)
    requires EngineInv(c, s) && s.writer.cancelled && Run(c, s, acts, z)
    ensures z.writer.cancelled && z.log.submitted == s.log.submitted && z.log.cancels == s.log.cancels
    decreases |acts|
  {
    if acts != [] {
      EngineKept(c, s, acts[0]);
      CancelledStays(c, s, acts[0]);
      NothingAfterCancel(c, Apply(c, s, acts[0]), acts[1..], z);
    }
  }

  lemma CancelledStays(c: Config, s: State, a: Action)
    requires EngineInv(c, s) && s.writer.cancelled && Enabled(c, s, a)
    ensures CancelledAsBefore(s, Apply(c, s, a))
  {
    match a
    case CallStep(t, k) => CallLogs(c, s, t, k);
    case WriterStep(w) => CancelledByWriter(c, s, w);
    case EmitStep(t, e) => EmitLogs(c, s, t, e);
    case ReaderStep(t, r) => ReaderFrame(c, s, t, r);
  }

  predicate CancelledAsBefore(s: State, z: State) {
    z.writer.cancelled && z.log.submitted == s.log.submitted && z.log.cancels == s.log.cancels
  }

  lemma CancelledByWriter(c: Config, s: State, a: WriterAction)
    requires WriterInv(c, s.writer) && s.writer.cancelled && WriterEnabled(c, s, a)
    ensures CancelledAsBefore(s, WriterApply(c, s, a))
  {
  }
}
