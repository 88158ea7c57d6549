/** A handler that answers the acknowledgement of a packet by sending the next one: the calls of a worker
    thread that the other results speak of do happen. */
module TransportReentry {
  import opened Wrappers
  import opened TransportModel
  import opened TransportCapacity

  /** One packet is in flight; the writer comes to poll for it. */
  lemma Polls(c: Config, s: State) returns (z: State)
    requires Reachable(c, s) && Quiet(s, 0, 1) && 1 <= c.window
    ensures Reachable(c, z) && z == s.(writer := s.writer.(pc := Polling))
  {
    z := s;
    ReachStep(c, z, WriterStep(TestLoop(false)));
    z := WriterApply(c, z, TestLoop(false));
    if z.writer.pc.Receiving? {
      assert z.shared.channel == [];
      ReachStep(c, z, WriterStep(Timeout));
      z := WriterApply(c, z, Timeout);
    }
    z := Tested(c, z);
  }

  lemma Tested(c: Config, s: State) returns (z: State)
    requires Reachable(c, s) && s.writer.pc.CancelTest? && s.writer.inFlight == 1 && !s.writer.sawStop
    ensures Reachable(c, z) && z == s.(writer := s.writer.(pc := Polling))
  {
    ReachStep(c, s, WriterStep(TestCancel(false)));
    z := WriterApply(c, s, TestCancel(false));
    ReachStep(c, z, WriterStep(TestZero(false)));
    z := WriterApply(c, z, TestZero(false));
  }

  /** It completes, and its slot is released. */
  lemma Completes(c: Config, s: State) returns (z: State)
    requires Reachable(c, s) && s.writer.pc.Polling? && s.writer.queue != []
    ensures Reachable(c, z) && z.writer.pc == Acking(s.writer.queue[0], Entering)
    ensures z.calls == s.calls && z.shared == s.shared.(mods := s.shared.mods + [Pending(s) - 1])
  {
    ReachStep(c, s, WriterStep(PollSome(Ok)));
    z := WriterApply(c, s, PollSome(Ok));
    z := Released(c, z);
  }

  lemma Released(c: Config, s: State) returns (z: State)
    requires Reachable(c, s) && s.writer.pc.Reaped? && s.writer.pc.status == Ok
    ensures Reachable(c, z) && z.writer.pc == Acking(s.writer.pc.packet, Entering)
    ensures z.calls == s.calls && z.shared == s.shared.(mods := s.shared.mods + [Pending(s) - 1])
  {
    ReachStep(c, s, WriterStep(Decrement));
    z := WriterApply(c, s, Decrement);
    ReachStep(c, z, WriterStep(ReleaseBulk));
    z := WriterApply(c, z, ReleaseBulk);
  }

  /** The handler is called. */
  lemma CallsHandler(c: Config, s: State) returns (z: State)
    requires Reachable(c, s) && EmitOf(s, Writer) == Some(Entering) && s.shared.lock == None && s.shared.handler
    ensures Reachable(c, z) && EmitOf(z, Writer) == Some(Handling) && z.calls == s.calls
    ensures z.shared == s.shared.(lockView := z.shared.lockView)
  {
    ReachStep(c, s, EmitStep(Writer, Lock));
    z := EmitApply(s, Writer, Lock);
    ReachStep(c, z, EmitStep(Writer, ReadHandler));
    z := EmitApply(z, Writer, ReadHandler);
    ReachStep(c, z, EmitStep(Writer, Dispatch));
    z := EmitApply(z, Writer, Dispatch);
  }

  /** The handler calls transport_send_packet. */
  lemma SendsAgain(c: Config, s: State) returns (z: State)
    requires Reachable(c, s) && EmitOf(s, Writer) == Some(Handling) && s.calls == map[]
    requires s.shared.lock == None && s.shared.owner.Published? && Pending(s) < c.depth
    ensures Reachable(c, z) && z.calls == map[Writer := Loading(ACL_TYPE, [])] && z.shared.mods == s.shared.mods
  {
    ReachStep(c, s, CallStep(Writer, Begin(Send(ACL_TYPE, []))));
    z := CallApply(c, s, Writer, Begin(Send(ACL_TYPE, [])));
    ReachStep(c, z, CallStep(Writer, Enter));
    z := CallApply(c, z, Writer, Enter);
    ReachStep(c, z, CallStep(Writer, Snapshot));
    z := CallApply(c, z, Writer, Snapshot);
  }

  /** Wherever a packet can be sent at all, one can be sent by the handler of its acknowledgement. */
  lemma HandlerSends(c: Config) returns (z: State)
    requires 1 <= c.depth && 1 <= c.capacity && 1 <= c.window
    ensures Reachable(c, z) && CallEnabled(c, z, Writer, TrySend)
  {
    z := Opened(c, true);
    z := Sent(c, z, 0, 0);
    z := Taken(c, z, 0);
    z := Polls(c, z);
    z := Completes(c, z);
    z := CallsHandler(c, z);
    z := SendsAgain(c, z);
    z := Exchanged(c, z, Writer);
  }
}
