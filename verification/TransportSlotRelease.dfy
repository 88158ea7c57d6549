/** The writer gives a slot back before it acknowledges the packet.  A handler that answers the
    acknowledgement by sending again finds the slot, and so does every thread that enters STATE after
    the acknowledgement has read the handler under it. */
module TransportSlotRelease {
  import opened TransportModel
  import opened TransportInvariants
  import opened TransportLedger
  import opened TransportTheorems
  import opened TransportCoherence

  predicate Reserves(a: Action) {
    a.CallStep? && a.call.CasOk?
  }

  ghost predicate NoReservation(acts: seq<Action>) {
    forall a | a in acts :: !Reserves(a)
  }

  predicate WriterReleases(a: Action) {
    a == WriterStep(ReleaseCommand) || a == WriterStep(ReleaseBulk)
  }

  // ---- Room ----------------------------------------------------------------------------------------

  /** A call that has seen the counter as it was at `d` or later has seen room. */
  predicate SawRoom(c: Config, s: State, t: Thread, d: nat) {
    t in s.calls && s.calls[t].Exchanging? && d <= ViewOf(s, t) ==> s.calls[t].current < c.depth
  }

  /** From position `d` on every value of the counter leaves room, and every call that has come that far
      has seen it. */
  ghost predicate RoomSince(c: Config, s: State, d: nat) {
    && (forall i | d <= i < |s.shared.mods| :: s.shared.mods[i] < c.depth)
    && (forall t :: SawRoom(c, s, t, d))
  }

  lemma RoomAfterRelease(c: Config, s: State, a: Action)
    requires EngineInv(c, s) && Enabled(c, s, a) && WriterReleases(a)
    ensures RoomSince(c, Apply(c, s, a), |s.shared.mods|)
    ensures ViewOf(Apply(c, s, a), Writer) == |s.shared.mods|
  {
    var z := Apply(c, s, a);
    WriterFrame(c, s, a.write);
    assert !MayCall(s, Writer);
    forall t ensures SawRoom(c, z, t, |s.shared.mods|) {
      assert ViewOf(s, t) < |s.shared.mods|;
    }
  }

  lemma RoomKept(c: Config, s: State, a: Action, d: nat)
    requires EngineInv(c, s) && RoomSince(c, s, d) && Enabled(c, s, a) && !Reserves(a)
    ensures RoomSince(c, Apply(c, s, a), d)
  {
    match a
    case CallStep(t, k) => RoomKeptByCall(c, s, t, k, d);
    case WriterStep(w) => RoomKeptByWriter(c, s, w, d);
    case EmitStep(t, e) => RoomKeptByEmit(c, s, t, e, d);
    case ReaderStep(t, r) => RoomKeptByReader(c, s, t, r, d);
  }

  lemma RoomKeptByReader(c: Config, s: State, t: Thread, a: ReaderAction, d: nat)
    requires RoomSince(c, s, d) && ReaderEnabled(s, t, a)
    ensures RoomSince(c, Apply(c, s, ReaderStep(t, a)), d)
  {
    ReaderFrame(c, s, t, a);
    var z := Apply(c, s, ReaderStep(t, a));
    forall u ensures SawRoom(c, z, u, d) {
      assert SawRoom(c, s, u, d);
    }
  }

  /** A worker outside its handler is not in a call, so what it sees there concerns no exchange. */
  lemma RoomKeptByEmit(c: Config, s: State, t: Thread, a: EmitAction, d: nat)
    requires BaseInv(s) && ViewInv(s) && RoomSince(c, s, d) && EmitEnabled(s, t, a)
    ensures RoomSince(c, EmitApply(s, t, a), d)
  {
    EmitFrame(c, s, t, a);
    ViewsByEmit(c, s, t, a);
    var z := EmitApply(s, t, a);
    assert t !in s.calls by { WorkerNotInCall(s, t, a); }
    forall u ensures SawRoom(c, z, u, d) {
      assert SawRoom(c, s, u, d);
    }
  }

  lemma WorkerNotInCall(s: State, t: Thread, a: EmitAction)
    requires CallerInv(s) && EmitEnabled(s, t, a)
    ensures t !in s.calls
  {
  }

  lemma RoomKeptByWriter(c: Config, s: State, a: WriterAction, d: nat)
    requires BaseInv(s) && Ledger(c, s) && ViewInv(s) && RoomSince(c, s, d) && WriterEnabled(c, s, a)
    ensures RoomSince(c, WriterApply(c, s, a), d)
  {
    WriterFrame(c, s, a);
    ViewsByWriter(c, s, a);
    CounterFalls(c, s, a);
    var z := WriterApply(c, s, a);
    assert !MayCall(s, Writer);
    forall u ensures SawRoom(c, z, u, d) {
      assert SawRoom(c, s, u, d);
    }
  }

  /** The writer only ever lowers the counter. */
  lemma CounterFalls(c: Config, s: State, a: WriterAction)
    requires Ledger(c, s) && WriterEnabled(c, s, a)
    ensures var z := WriterApply(c, s, a);
      z.shared.mods == s.shared.mods || z.shared.mods == s.shared.mods + [Pending(s) - 1]
    ensures Pending(s) <= c.depth
  {
    assert Pending(s) == s.shared.mods[|s.shared.mods| - 1];
  }

  lemma RoomKeptByCall(c: Config, s: State, t: Thread, a: CallAction, d: nat)
    requires BaseInv(s) && Ledger(c, s) && ViewInv(s) && RoomSince(c, s, d) && CallEnabled(c, s, t, a) && !a.CasOk?
    ensures RoomSince(c, CallApply(c, s, t, a), d)
  {
    var z := CallApply(c, s, t, a);
    CallFrame(c, s, t, a);
    CallLoads(c, s, t, a, d);
    var v := ViewsByCall(c, s, t, a);
    assert Pending(s) == s.shared.mods[|s.shared.mods| - 1];
    forall u ensures SawRoom(c, z, u, d) {
      assert SawRoom(c, s, u, d);
      assert u != t ==> ViewOf(z, u) == ViewOf(s, u);
    }
  }

  lemma CallLoads(c: Config, s: State, t: Thread, a: CallAction, d: nat)
    requires RoomSince(c, s, d) && CallEnabled(c, s, t, a) && !a.CasOk?
    ensures var z := CallApply(c, s, t, a);
      && (z.shared.mods == s.shared.mods || z.shared.mods == s.shared.mods + [Pending(s) - 1])
      && SawRoom(c, z, t, d)
  {
    assert SawRoom(c, s, t, d);
  }

  lemma {:induction false} RoomRun(c: Config, s: State, acts: seq<Action>, z: State, d: nat)
    requires EngineInv(c, s) && RoomSince(c, s, d) && Run(c, s, acts, z) && NoReservation(acts)
    ensures EngineInv(c, z) && RoomSince(c, z, d)
    decreases |acts|
  {
    if acts != [] {
      EngineKept(c, s, acts[0]);
      RoomKept(c, s, acts[0], d);
      assert NoReservation(acts[1..]);
      RoomRun(c, Apply(c, s, acts[0]), acts[1..], z, d);
    }
  }

  // ---- Main results ----------------------------------------------------------------------------------

  /** Whatever value `t` loads, it is told that it can send while the session is active, and its send is
      not refused for lack of room. */
  ghost predicate FindsRoom(c: Config, s: State, t: Thread) {
    && (forall at | CallEnabled(c, s, t, Answer(at)) && s.shared.owner.Published? :: SaysYes(c, s, at))
    && !CallEnabled(c, s, t, Refuse)
  }

  lemma RoomAnswers(c: Config, s: State, t: Thread, d: nat)
    requires RoomSince(c, s, d) && d <= ViewOf(s, t)
    ensures FindsRoom(c, s, t)
  {
    assert SawRoom(c, s, t, d);
  }

  /** Between a release by the writer and the next reservation by anyone, the handler it calls finds
      room, and so does every thread that has seen the counter as the release left it. */
  lemma ReleasedBeforeAck(c: Config, s: State, a: Action, acts: seq<Action>, z: State, t: Thread)
    requires Reachable(c, s) && Enabled(c, s, a) && WriterReleases(a)
    requires Run(c, Apply(c, s, a), acts, z) && NoReservation(acts)
    requires t == Writer || |s.shared.mods| <= ViewOf(z, t)
    ensures FindsRoom(c, z, t)
  {
    EngineReachable(c, s);
    EngineKept(c, s, a);
    RoomAfterRelease(c, s, a);
    RoomRun(c, Apply(c, s, a), acts, z, |s.shared.mods|);
    RememberRun(c, Apply(c, s, a), acts, z);
    RoomAnswers(c, z, t, |s.shared.mods|);
  }

  /** Any thread that enters STATE after the writer's acknowledgement left it has seen the release. */
  lemma EntersAfterAck(c: Config, y: State, mid: seq<Action>, x: State, t: Thread, tail: seq<Action>, z: State)
    requires ViewInv(y) && Enabled(c, y, EmitStep(Writer, ReadHandler))
    requires Run(c, Apply(c, y, EmitStep(Writer, ReadHandler)), mid, x)
    requires Enabled(c, x, CallStep(t, Enter)) && Run(c, Apply(c, x, CallStep(t, Enter)), tail, z)
    ensures ViewOf(y, Writer) <= ViewOf(z, t)
  {
    var left := Apply(c, y, EmitStep(Writer, ReadHandler));
    ViewsKept(c, y, EmitStep(Writer, ReadHandler));
    assert left.shared.lockView >= ViewOf(y, Writer);
    RememberRun(c, left, mid, x);
    var entered := Apply(c, x, CallStep(t, Enter));
    ViewsKept(c, x, CallStep(t, Enter));
    assert ViewOf(entered, t) >= x.shared.lockView;
    RememberRun(c, entered, tail, z);
  }

  /** The release is visible to everybody who enters STATE after the acknowledgement has left it: until
      the next reservation, that thread too is told that it can send, and is not refused. */
  lemma ReleaseVisibleThroughState(c: Config, s: State, a: Action, first: seq<Action>, y: State,
                                   mid: seq<Action>, x: State, t: Thread, tail: seq<Action>, z: State)
    requires Reachable(c, s) && Enabled(c, s, a) && WriterReleases(a)
    requires Run(c, Apply(c, s, a), first, y) && Enabled(c, y, EmitStep(Writer, ReadHandler))
    requires Run(c, Apply(c, y, EmitStep(Writer, ReadHandler)), mid, x) && Enabled(c, x, CallStep(t, Enter))
    requires Run(c, Apply(c, x, CallStep(t, Enter)), tail, z)
    requires NoReservation(first) && NoReservation(mid) && NoReservation(tail)
    ensures FindsRoom(c, z, t)
  {
    var d, released := |s.shared.mods|, Apply(c, s, a);
    EngineReachable(c, s);
    EngineKept(c, s, a);
    RoomAfterRelease(c, s, a);
    RoomRun(c, released, first, y, d);
    RememberRun(c, released, first, y);
    EntersAfterAck(c, y, mid, x, t, tail, z);
    RoomOn(c, y, EmitStep(Writer, ReadHandler), mid, x, d);
    RoomOn(c, x, CallStep(t, Enter), tail, z, d);
    RoomAnswers(c, z, t, d);
  }

  lemma RoomOn(c: Config, s: State, a: Action, acts: seq<Action>, z: State, d: nat)
    requires EngineInv(c, s) && RoomSince(c, s, d) && Enabled(c, s, a) && !Reserves(a)
    requires Run(c, Apply(c, s, a), acts, z) && NoReservation(acts)
    ensures EngineInv(c, z) && RoomSince(c, z, d)
  {
    EngineKept(c, s, a);
    RoomKept(c, s, a, d);
    RoomRun(c, Apply(c, s, a), acts, z, d);
  }

  /** A reservation made on the writer thread always ends with the packet in the channel: the
      receiver is alive, because its owner is the thread that sends. */
  lemma ReentrantSendAccepted(c: Config, z: State)
    requires c.depth <= c.capacity
    requires Reachable(c, z) && CallEnabled(c, z, Writer, TrySend)
    ensures TrySendAccepts(c, z)
  {
    NeverFull(c, z, Writer);
    EngineReachable(c, z);
    assert MayCall(z, Writer);
  }
}
