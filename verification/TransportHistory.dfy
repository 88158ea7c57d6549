/** Order and acknowledgement: how the history of a session constrains where every packet is. */
module TransportHistory {
  import opened Wrappers
  import opened TransportModel
  import opened TransportInvariants
  import opened TransportLedger

  predicate IsBulk(p: Packet) {
    !p.kind.Command?
  }

  /** The bulk packets of `s`, or its commands, in order. */
  function Project(s: seq<Packet>, bulk: bool): seq<Packet> {
    if s == [] then []
    else
      var last := s[|s| - 1];
      if IsBulk(last) == bulk then Project(s[..|s| - 1], bulk) + [last] else Project(s[..|s| - 1], bulk)
  }

  function Packets(rs: seq<Outcome>): seq<Packet> {
    if rs == [] then [] else Packets(rs[..|rs| - 1]) + [rs[|rs| - 1].packet]
  }

  /** The packets whose transfer ended as `ok` says, in order of completion. */
  function Ended(rs: seq<Outcome>, ok: bool): seq<Packet> {
    if rs == [] then []
    else
      var last := rs[|rs| - 1];
      if last.ok == ok then Ended(rs[..|rs| - 1], ok) + [last.packet] else Ended(rs[..|rs| - 1], ok)
  }

  lemma ProjectAppend(s: seq<Packet>, p: Packet, bulk: bool)
    ensures Project(s + [p], bulk) == if IsBulk(p) == bulk then Project(s, bulk) + [p] else Project(s, bulk)
  {
    assert (s + [p])[..|s|] == s;
  }

  lemma ResultAppend(rs: seq<Outcome>, r: Outcome, ok: bool)
    ensures Packets(rs + [r]) == Packets(rs) + [r.packet]
    ensures Ended(rs + [r], ok) == if r.ok == ok then Ended(rs, ok) + [r.packet] else Ended(rs, ok)
  {
    assert (rs + [r])[..|rs|] == rs;
  }

  lemma {:induction false} ProjectionsPartition(s: seq<Packet>)
    ensures |Project(s, true)| + |Project(s, false)| == |s|
  {
    if s != [] {
      ProjectionsPartition(s[..|s| - 1]);
    }
  }

  lemma {:induction false} EndingsPartition(rs: seq<Outcome>)
    ensures |Ended(rs, true)| + |Ended(rs, false)| == |rs| == |Packets(rs)|
  {
    if rs != [] {
      EndingsPartition(rs[..|rs| - 1]);
    }
  }

  // ---- The invariant -----------------------------------------------------------------------------

  /** The packet the writer has received and not yet submitted or sent. */
  function HeldPacket(pc: WriterPc): Option<Packet> {
    if pc.Holding? then Some(pc.packet) else None
  }

  function WithHeld(s: seq<Packet>, p: Option<Packet>, bulk: bool): seq<Packet> {
    if p.Some? && IsBulk(p.value) == bulk then s + [p.value] else s
  }

  /** A successful result whose packet-sent event is still to be emitted. */
  function AckDue(pc: WriterPc): seq<Packet> {
    match pc
    case CommandDone(p, ok) => if ok then [p] else []
    case Reaped(p, st) => if st.Ok? then [p] else []
    case Releasing(p, st) => if st.Ok? then [p] else []
    case Acking(p, e) => if e.Handling? then [] else [p]
    case _ => []
  }

  predicate ChannelOrder(s: State) {
    && s.log.accepted == s.log.dequeued + s.shared.channel + s.log.abandoned
    && (s.shared.receiverAlive ==> s.log.abandoned == [])
    && (!s.shared.receiverAlive ==> s.shared.channel == [])
  }

  predicate TransferOrder(s: State) {
    Transfers(s.log.dequeued, HeldPacket(s.writer.pc), s.log.submitted, s.writer.queue, s.log.results)
  }

  /** Bulk packets go from `deq` through the held packet to the queue, and leave it in order;
      commands go straight to their results. */
  predicate Transfers(deq: seq<Packet>, held: Option<Packet>, sub: seq<Packet>, q: seq<Packet>, rs: seq<Outcome>) {
    && WithHeld(sub, held, true) == Project(deq, true)
    && Project(Packets(rs), true) + q == sub
    && WithHeld(Project(Packets(rs), false), held, false) == Project(deq, false)
    && (forall i | 0 <= i < |q| :: IsBulk(q[i]))
  }

  predicate AckOrder(s: State) {
    s.log.acked + AckDue(s.writer.pc) == Ended(s.log.results, true)
  }

  predicate CancelOnce(s: State) {
    s.log.cancels == if s.writer.cancelled then [|s.log.submitted|] else []
  }

  predicate HistoryInv(s: State) {
    ChannelOrder(s) && TransferOrder(s) && AckOrder(s) && CancelOnce(s)
  }

  // ---- Every step --------------------------------------------------------------------------------

  /** A call changes the history only when the channel accepts its packet. */
  lemma CallLogs(c: Config, s: State, t: Thread, a: CallAction)
    requires CallEnabled(c, s, t, a)
    ensures var z := CallApply(c, s, t, a);
      && z.writer == s.writer
      && z.shared.receiverAlive == s.shared.receiverAlive
      && z.log.(accepted := s.log.accepted) == s.log
      && ((z.log == s.log && z.shared.channel == s.shared.channel)
          || exists p :: s.shared.receiverAlive && z.log.accepted == s.log.accepted + [p]
                         && z.shared.channel == s.shared.channel + [p])
  {
    if a.TrySend? && TrySendAccepts(c, s) {
      var p := Packet(s.calls[t].ty.kind, s.calls[t].data);
      assert CallApply(c, s, t, a).log.accepted == s.log.accepted + [p];
    } else {
      CallFrame(c, s, t, a);
      LogUntouched(c, s, t, a);
    }
  }

  lemma LogUntouched(c: Config, s: State, t: Thread, a: CallAction)
    requires CallEnabled(c, s, t, a) && !(a.TrySend? && TrySendAccepts(c, s))
    ensures var z := CallApply(c, s, t, a); z.log == s.log && z.shared.channel == s.shared.channel
  {
  }

  /** An emission changes the history only when a writer dispatches it. */
  lemma EmitLogs(c: Config, s: State, t: Thread, a: EmitAction)
    requires EmitEnabled(s, t, a)
    ensures var z := EmitApply(s, t, a);
      && z.shared.(lock := s.shared.lock, lockView := s.shared.lockView) == s.shared
      && z.writer.(pc := s.writer.pc) == s.writer
      && z.log.(acked := s.log.acked) == s.log
      && z.log.acked + AckDue(z.writer.pc) == s.log.acked + AckDue(s.writer.pc)
      && HeldPacket(z.writer.pc) == HeldPacket(s.writer.pc)
  {
    if t.Writer? {
      WriterEmitLogs(c, s, a);
    }
  }

  lemma WriterEmitLogs(c: Config, s: State, a: EmitAction)
    requires EmitEnabled(s, Writer, a)
    ensures var z := EmitApply(s, Writer, a);
      && z.log.(acked := s.log.acked) == s.log
      && z.log.acked + AckDue(z.writer.pc) == s.log.acked + AckDue(s.writer.pc)
  {
  }

  predicate ChangesHistory(a: WriterAction) {
    a.Receive? || a.SendCommand? || a.Submit? || a.PollSome? || a.CancelAll? || a.Exit? || a.Disconnected?
  }

  lemma WriterLogs(c: Config, s: State, a: WriterAction)
    requires WriterEnabled(c, s, a) && !ChangesHistory(a)
    ensures var z := WriterApply(c, s, a);
      && z.log == s.log && z.writer.queue == s.writer.queue
      && z.shared.channel == s.shared.channel && z.shared.receiverAlive == s.shared.receiverAlive
      && AckDue(z.writer.pc) == AckDue(s.writer.pc)
      && HeldPacket(z.writer.pc) == HeldPacket(s.writer.pc) == None
  {
  }

  lemma ChannelKept(c: Config, s: State, a: Action)
    requires BaseInv(s) && ChannelOrder(s) && Enabled(c, s, a)
    ensures ChannelOrder(Apply(c, s, a))
  {
    match a
    case CallStep(t, k) => CallLogs(c, s, t, k);
    case WriterStep(w) =>
      NeverDisconnected(c, s);
      if !ChangesHistory(w) {
        WriterLogs(c, s, w);
      } else {
        ChannelKeptByWriter(c, s, w);
      }
    case EmitStep(t, e) => EmitLogs(c, s, t, e);
    case ReaderStep(t, r) => ReaderFrame(c, s, t, r);
  }

  lemma ChannelKeptByWriter(c: Config, s: State, a: WriterAction)
    requires ChannelOrder(s) && OwnerInv(s) && WriterEnabled(c, s, a) && ChangesHistory(a)
    ensures ChannelOrder(WriterApply(c, s, a))
  {
    if a.Receive? {
      var ch := s.shared.channel;
      assert ch == [ch[0]] + ch[1..];
    } else if !a.Exit? && !a.Disconnected? {
      ChannelUntouched(c, s, a);
    }
  }

  lemma ChannelUntouched(c: Config, s: State, a: WriterAction)
    requires WriterEnabled(c, s, a) && !a.Receive? && !a.Exit? && !a.Disconnected?
    ensures var z := WriterApply(c, s, a);
      && z.shared.channel == s.shared.channel && z.shared.receiverAlive == s.shared.receiverAlive
      && z.log.accepted == s.log.accepted && z.log.dequeued == s.log.dequeued && z.log.abandoned == s.log.abandoned
  {
  }

  lemma TransferKeptByWriter(c: Config, s: State, a: WriterAction)
    requires TransferOrder(s) && WriterEnabled(c, s, a)
    ensures TransferOrder(WriterApply(c, s, a))
  {
    match a {
      case Receive => TransferByReceive(c, s);
      case SendCommand(ok) => TransferByCommand(c, s, ok);
      case Submit => TransferBySubmit(c, s);
      case PollSome(status) => TransferByPoll(c, s, status);
      case Exit =>
      case Disconnected =>
      case CancelAll =>
      case _ => WriterLogs(c, s, a);
    }
  }

  lemma TransferByReceive(c: Config, s: State)
    requires TransferOrder(s) && WriterEnabled(c, s, Receive)
    ensures TransferOrder(WriterApply(c, s, Receive))
  {
    ReceiveMoves(s.log.dequeued, s.log.submitted, s.writer.queue, s.log.results, s.shared.channel[0]);
  }

  lemma ReceiveMoves(deq: seq<Packet>, sub: seq<Packet>, q: seq<Packet>, rs: seq<Outcome>, p: Packet)
    requires Transfers(deq, None, sub, q, rs)
    ensures Transfers(deq + [p], Some(p), sub, q, rs)
  {
    ProjectAppend(deq, p, true);
    ProjectAppend(deq, p, false);
  }

  lemma TransferByCommand(c: Config, s: State, ok: bool)
    requires TransferOrder(s) && WriterEnabled(c, s, SendCommand(ok))
    ensures TransferOrder(WriterApply(c, s, SendCommand(ok)))
  {
    CommandMoves(s.log.dequeued, s.log.submitted, s.writer.queue, s.log.results, s.writer.pc.packet, ok);
  }

  lemma CommandMoves(deq: seq<Packet>, sub: seq<Packet>, q: seq<Packet>, rs: seq<Outcome>, p: Packet, ok: bool)
    requires !IsBulk(p) && Transfers(deq, Some(p), sub, q, rs)
    ensures Transfers(deq, None, sub, q, rs + [Outcome(p, ok)])
  {
    MoveResult(rs, Outcome(p, ok));
  }

  lemma TransferBySubmit(c: Config, s: State)
    requires TransferOrder(s) && WriterEnabled(c, s, Submit)
    ensures TransferOrder(WriterApply(c, s, Submit))
  {
    SubmitMoves(s.log.dequeued, s.log.submitted, s.writer.queue, s.log.results, s.writer.pc.packet);
  }

  lemma SubmitMoves(deq: seq<Packet>, sub: seq<Packet>, q: seq<Packet>, rs: seq<Outcome>, p: Packet)
    requires IsBulk(p) && Transfers(deq, Some(p), sub, q, rs)
    ensures Transfers(deq, None, sub + [p], q + [p], rs)
  {
    MoveLast(Project(Packets(rs), true), q, p);
  }

  lemma MoveLast(a: seq<Packet>, q: seq<Packet>, p: Packet)
    ensures (a + q) + [p] == a + (q + [p])
  {
  }

  lemma TransferByPoll(c: Config, s: State, status: Status)
    requires TransferOrder(s) && WriterEnabled(c, s, PollSome(status))
    ensures TransferOrder(WriterApply(c, s, PollSome(status)))
  {
    var z := WriterApply(c, s, PollSome(status));
    assert HeldPacket(z.writer.pc) == None;
    CompletionMoves(s.log.dequeued, s.log.submitted, s.writer.queue, s.log.results, status.Ok?);
  }

  lemma CompletionMoves(deq: seq<Packet>, sub: seq<Packet>, q: seq<Packet>, rs: seq<Outcome>, ok: bool)
    requires q != [] && Transfers(deq, None, sub, q, rs)
    ensures Transfers(deq, None, sub, q[1..], rs + [Outcome(q[0], ok)])
  {
    MoveResult(rs, Outcome(q[0], ok));
    MoveHead(Project(Packets(rs), true), q);
  }

  lemma MoveHead(a: seq<Packet>, q: seq<Packet>)
    requires q != []
    ensures (a + [q[0]]) + q[1..] == a + q
  {
  }

  lemma MoveResult(rs: seq<Outcome>, r: Outcome)
    ensures IsBulk(r.packet) ==>
      && Project(Packets(rs + [r]), true) == Project(Packets(rs), true) + [r.packet]
      && Project(Packets(rs + [r]), false) == Project(Packets(rs), false)
    ensures !IsBulk(r.packet) ==>
      && Project(Packets(rs + [r]), true) == Project(Packets(rs), true)
      && Project(Packets(rs + [r]), false) == Project(Packets(rs), false) + [r.packet]
  {
    ResultAppend(rs, r, true);
    ProjectAppend(Packets(rs), r.packet, true);
    ProjectAppend(Packets(rs), r.packet, false);
  }

  lemma AckKeptByWriter(c: Config, s: State, a: WriterAction)
    requires AckOrder(s) && WriterEnabled(c, s, a)
    ensures AckOrder(WriterApply(c, s, a))
  {
    var z := WriterApply(c, s, a);
    if a.SendCommand? || a.PollSome? {
      var r := if a.SendCommand? then Outcome(s.writer.pc.packet, a.ok)
               else Outcome(s.writer.queue[0], a.status.Ok?);
      assert z.log.results == s.log.results + [r] && z.log.acked == s.log.acked;
      assert AckDue(s.writer.pc) == [];
      assert AckDue(z.writer.pc) == if r.ok then [r.packet] else [];
      ResultAppend(s.log.results, r, true);
    } else if ChangesHistory(a) {
      assert AckDue(s.writer.pc) == AckDue(z.writer.pc);
    } else {
      WriterLogs(c, s, a);
    }
  }

  /** Nothing is submitted once the queue has been cancelled, and it is cancelled once. */
  lemma CancelKeptByWriter(c: Config, s: State, a: WriterAction)
    requires CancelOnce(s) && WriterInv(c, s.writer) && WriterEnabled(c, s, a)
    ensures CancelOnce(WriterApply(c, s, a))
  {
  }

  lemma HistoryByOthers(c: Config, s: State, a: Action)
    requires TransferOrder(s) && AckOrder(s) && CancelOnce(s) && !a.WriterStep? && Enabled(c, s, a)
    ensures var z := Apply(c, s, a); TransferOrder(z) && AckOrder(z) && CancelOnce(z)
  {
    match a
    case CallStep(t, k) => CallLogs(c, s, t, k);
    case EmitStep(t, e) => EmitLogs(c, s, t, e);
    case ReaderStep(t, r) => ReaderFrame(c, s, t, r);
  }

  lemma HistoryKept(c: Config, s: State, a: Action)
    requires BaseInv(s) && WriterInv(c, s.writer) && HistoryInv(s) && Enabled(c, s, a)
    ensures HistoryInv(Apply(c, s, a))
  {
    ChannelKept(c, s, a);
    if a.WriterStep? {
      TransferKeptByWriter(c, s, a.write);
      AckKeptByWriter(c, s, a.write);
      CancelKeptByWriter(c, s, a.write);
    } else {
      HistoryByOthers(c, s, a);
    }
  }
}
