/** The slot ledger: the pending counter agrees, in every reachable state, with the places a packet
    that owns a slot can be. */
module TransportLedger {
  import opened TransportModel
  import opened TransportInvariants

  // ---- The writer's own variables ----------------------------------------------------------------

  predicate BeforeBulkCount(pc: WriterPc) {
    pc.Receiving? || pc.Holding? || pc.Counting?
  }

  /** `in_flight_out` counts the queue, except between a queue operation and its update. */
  predicate WriterCount(c: Config, w: WriterState) {
    && w.inFlight + (if w.pc.Counting? then 1 else 0) == |w.queue| + (if w.pc.Reaped? then 1 else 0)
    && w.inFlight >= 0
    && (if BeforeBulkCount(w.pc) then w.inFlight < c.window else w.inFlight <= c.window)
    && (w.pc.Polling? ==> w.inFlight > 0)
    && (w.pc.Exiting? || w.pc.Finished? ==> w.inFlight == 0)
  }

  /** Once the writer has seen the stop flag it receives and submits no more. */
  predicate WriterStopped(w: WriterState) {
    && (w.pc.Holding? || w.pc.Receiving? || w.pc.CommandDone? ==> !w.sawStop)
    && (w.pc.Counting? ==> !w.sawStop)
    && (w.cancelled ==> w.sawStop)
    && (w.pc.Cancelling? ==> w.sawStop && !w.cancelled)
    && (w.pc.CommandDone? ==> w.pc.packet.kind.Command?)
    && (w.pc.Exiting? || w.pc.Finished? ==> w.sawStop)
    && (w.sawStop && !w.cancelled ==> w.pc.CancelTest? || w.pc.Cancelling? || w.pc.Exiting? || w.pc.Finished?)
  }

  predicate WriterInv(c: Config, w: WriterState) {
    WriterCount(c, w) && WriterStopped(w)
  }

  lemma NeverDisconnected(c: Config, s: State)
    requires BaseInv(s)
    ensures !WriterEnabled(c, s, Disconnected)
  {
  }

  lemma WriterCountKept(c: Config, s: State, a: WriterAction)
    requires !a.Disconnected? && WriterCount(c, s.writer) && WriterEnabled(c, s, a)
    ensures WriterCount(c, WriterApply(c, s, a).writer)
  {
  }

  lemma WriterStoppedKept(c: Config, s: State, a: WriterAction)
    requires !a.Disconnected? && WriterStopped(s.writer) && WriterEnabled(c, s, a)
    ensures WriterStopped(WriterApply(c, s, a).writer)
  {
  }

  lemma WriterInvKept(c: Config, s: State, a: Action)
    requires BaseInv(s) && WriterInv(c, s.writer) && Enabled(c, s, a)
    ensures WriterInv(c, Apply(c, s, a).writer)
  {
    match a
    case CallStep(t, k) => CallFrame(c, s, t, k);
    case WriterStep(w) =>
      NeverDisconnected(c, s);
      WriterCountKept(c, s, w);
      WriterStoppedKept(c, s, w);
    case EmitStep(t, e) => WriterInvByEmit(c, s, t, e);
    case ReaderStep(t, r) => ReaderFrame(c, s, t, r);
  }

  lemma WriterInvByEmit(c: Config, s: State, t: Thread, a: EmitAction)
    requires WriterInv(c, s.writer) && EmitEnabled(s, t, a)
    ensures WriterInv(c, EmitApply(s, t, a).writer)
  {
  }

  // ---- The ledger --------------------------------------------------------------------------------

  predicate OwnsSlot(k: Call) {
    k.Reserved? || k.GivingBack?
  }

  predicate SlotOf(s: State, t: Thread) {
    t in s.calls && OwnsSlot(s.calls[t])
  }

  /** Threads holding a reservation that is not yet a packet in the channel. */
  function Holders(s: State): set<Thread> {
    set t | t in s.calls && SlotOf(s, t)
  }

  /** A packet the writer has received, or reaped, whose slot it has not released. */
  function InHand(pc: WriterPc): nat {
    if pc.Holding? || pc.CommandDone? || pc.Reaped? || pc.Releasing? then 1 else 0
  }

  function Slots(s: State): nat {
    |Holders(s)| + |s.shared.channel| + |s.writer.queue| + InHand(s.writer.pc) + |s.log.abandoned|
  }

  ghost predicate Ledger(c: Config, s: State) {
    && s.shared.mods != []
    && Pending(s) == Slots(s)
    && (forall i | 0 <= i < |s.shared.mods| :: 0 <= s.shared.mods[i] <= c.depth)
  }

  lemma AddKeepsBounds(c: Config, s: State, t: Thread, d: int)
    requires Ledger(c, s) && 0 <= Pending(s) + d <= c.depth
    ensures var z := Add(s, t, d);
      && z.shared.mods == s.shared.mods + [Pending(s) + d]
      && Pending(z) == Pending(s) + d
      && (forall i | 0 <= i < |z.shared.mods| :: 0 <= z.shared.mods[i] <= c.depth)
  {
  }

  /** One call step moves at most the caller's own slot. */
  lemma HoldersStep(s: State, z: State, t: Thread)
    requires OtherCallsSame(s, z, t)
    ensures |Holders(z)| - (if SlotOf(z, t) then 1 else 0) == |Holders(s)| - (if SlotOf(s, t) then 1 else 0)
  {
    forall u ensures u in Holders(z) - {t} <==> u in Holders(s) - {t} {
      assert u != t ==> (SlotOf(z, u) <==> SlotOf(s, u));
    }
    SameButOne(Holders(z), Holders(s), t);
  }

  lemma SameButOne<T>(a: set<T>, b: set<T>, x: T)
    requires forall u :: u in a - {x} <==> u in b - {x}
    ensures |a| - (if x in a then 1 else 0) == |b| - (if x in b then 1 else 0)
  {
    assert a - {x} == b - {x};
    assert |a - {x}| == |a| - if x in a then 1 else 0;
    assert |b - {x}| == |b| - if x in b then 1 else 0;
  }

  lemma LedgerByCall(c: Config, s: State, t: Thread, a: CallAction)
    requires Ledger(c, s) && CallEnabled(c, s, t, a)
    ensures Ledger(c, CallApply(c, s, t, a))
  {
    CallFrame(c, s, t, a);
    HoldersStep(s, CallApply(c, s, t, a), t);
    if a.CasOk? {
      LedgerByCas(c, s, t);
    } else if a.GiveBack? {
      LedgerByGiveBack(c, s, t);
    } else if a.TrySend? {
      TrySendPassesSlot(c, s, t);
    } else {
      if UnderState(a) {
        QuietUnderState(c, s, t, a);
      } else {
        QuietOutsideState(c, s, t, a);
      }
      QuietForSlots(c, s, t, a);
    }
  }

  lemma LedgerByCas(c: Config, s: State, t: Thread)
    requires Ledger(c, s) && CallEnabled(c, s, t, CasOk)
    ensures Ledger(c, CallApply(c, s, t, CasOk))
  {
    CallFrame(c, s, t, CasOk);
    HoldersStep(s, CallApply(c, s, t, CasOk), t);
    AddKeepsBounds(c, s, t, 1);
  }

  lemma LedgerByGiveBack(c: Config, s: State, t: Thread)
    requires Ledger(c, s) && CallEnabled(c, s, t, GiveBack)
    ensures Ledger(c, CallApply(c, s, t, GiveBack))
  {
    CallFrame(c, s, t, GiveBack);
    HoldersStep(s, CallApply(c, s, t, GiveBack), t);
    assert t in Holders(s);
    AddKeepsBounds(c, s, t, -1);
  }

  predicate CounterUnchanged(s: State, z: State) {
    && z.shared.mods == s.shared.mods
    && z.log.abandoned == s.log.abandoned && z.shared.channel == s.shared.channel
  }

  lemma QuietUnderState(c: Config, s: State, t: Thread, a: CallAction)
    requires CallEnabled(c, s, t, a) && UnderState(a)
    ensures CounterUnchanged(s, CallApply(c, s, t, a))
  {
  }

  lemma QuietOutsideState(c: Config, s: State, t: Thread, a: CallAction)
    requires CallEnabled(c, s, t, a) && !UnderState(a)
    requires !a.CasOk? && !a.GiveBack? && !a.TrySend?
    ensures CounterUnchanged(s, CallApply(c, s, t, a))
  {
  }

  lemma QuietForSlots(c: Config, s: State, t: Thread, a: CallAction)
    requires CallEnabled(c, s, t, a) && !a.CasOk? && !a.GiveBack? && !a.TrySend?
    ensures SlotOf(CallApply(c, s, t, a), t) <==> SlotOf(s, t)
  {
  }

  lemma TrySendPassesSlot(c: Config, s: State, t: Thread)
    requires CallEnabled(c, s, t, TrySend)
    ensures var z := CallApply(c, s, t, TrySend);
      && z.shared.mods == s.shared.mods && z.log.abandoned == s.log.abandoned
      && |z.shared.channel| + (if SlotOf(z, t) then 1 else 0) == |s.shared.channel| + (if SlotOf(s, t) then 1 else 0)
  {
  }

  /** The writer passes a slot from the channel to its hand, to its queue, and back to the counter. */
  lemma LedgerByWriter(c: Config, s: State, a: WriterAction)
    requires Ledger(c, s) && WriterEnabled(c, s, a)
    ensures Ledger(c, WriterApply(c, s, a))
  {
    var z := WriterApply(c, s, a);
    WriterFrame(c, s, a);
    assert Holders(z) == Holders(s);
    if a.ReleaseCommand? || a.ReleaseBulk? {
      AddKeepsBounds(c, s, Writer, -1);
      WriterReleases(c, s, a);
    } else {
      WriterPassesSlot(c, s, a);
    }
  }

  lemma WriterReleases(c: Config, s: State, a: WriterAction)
    requires WriterEnabled(c, s, a) && (a.ReleaseCommand? || a.ReleaseBulk?)
    ensures var z, y := WriterApply(c, s, a), Add(s, Writer, -1);
      && z.shared == y.shared && z.log == s.log && z.writer.queue == s.writer.queue
      && InHand(z.writer.pc) == 0 && InHand(s.writer.pc) == 1
  {
  }

  lemma WriterPassesSlot(c: Config, s: State, a: WriterAction)
    requires WriterEnabled(c, s, a) && !a.ReleaseCommand? && !a.ReleaseBulk?
    ensures var z := WriterApply(c, s, a);
      && z.shared.mods == s.shared.mods
      && |z.shared.channel| + |z.writer.queue| + InHand(z.writer.pc) + |z.log.abandoned|
           == |s.shared.channel| + |s.writer.queue| + InHand(s.writer.pc) + |s.log.abandoned|
  {
  }

  lemma EmitKeepsSlots(c: Config, s: State, t: Thread, a: EmitAction)
    requires EmitEnabled(s, t, a)
    ensures var z := EmitApply(s, t, a);
      && z.calls == s.calls
      && z.shared.mods == s.shared.mods && z.shared.channel == s.shared.channel
      && z.writer.queue == s.writer.queue && InHand(z.writer.pc) == InHand(s.writer.pc)
      && z.log.abandoned == s.log.abandoned
  {
  }

  lemma LedgerKept(c: Config, s: State, a: Action)
    requires Ledger(c, s) && Enabled(c, s, a)
    ensures Ledger(c, Apply(c, s, a))
  {
    var z := Apply(c, s, a);
    match a
    case CallStep(t, k) => LedgerByCall(c, s, t, k);
    case WriterStep(w) => LedgerByWriter(c, s, w);
    case EmitStep(t, e) =>
      EmitKeepsSlots(c, s, t, e);
      assert Holders(z) == Holders(s);
    case ReaderStep(t, r) =>
      assert Holders(z) == Holders(s);
  }

  // ---- Views -------------------------------------------------------------------------------------

  /** Every view is a position of the modification order. */
  ghost predicate ViewInv(s: State) {
    && s.shared.lockView < |s.shared.mods|
    && forall t :: ViewOf(s, t) < |s.shared.mods|
  }

  /** The counter is only written at its end, and no thread forgets what it has seen. */
  ghost predicate Remembers(s: State, z: State) {
    && s.shared.mods <= z.shared.mods
    && s.shared.lockView <= z.shared.lockView
    && forall t :: ViewOf(s, t) <= ViewOf(z, t)
  }

  /** The step gives `t` the view `v`, within the new modification order. */
  ghost predicate Sees(s: State, z: State, t: Thread, v: nat) {
    && z.views == s.views[t := v] && ViewOf(s, t) <= v < |z.shared.mods|
    && s.shared.mods <= z.shared.mods
    && s.shared.lockView <= z.shared.lockView < |z.shared.mods|
  }

  ghost predicate SameViews(s: State, z: State) {
    && z.views == s.views && z.shared.mods == s.shared.mods
    && s.shared.lockView <= z.shared.lockView < |z.shared.mods|
  }

  lemma SeesKeeps(s: State, z: State, t: Thread, v: nat)
    requires ViewInv(s) && (Sees(s, z, t, v) || SameViews(s, z))
    ensures ViewInv(z) && Remembers(s, z)
  {
    forall u ensures ViewOf(s, u) <= ViewOf(z, u) < |z.shared.mods| {
      assert ViewOf(s, u) < |s.shared.mods|;
    }
  }

  lemma ViewsByCall(c: Config, s: State, t: Thread, a: CallAction) returns (v: nat)
    requires ViewInv(s) && CallEnabled(c, s, t, a)
    ensures var z := CallApply(c, s, t, a); Sees(s, z, t, v) || SameViews(s, z)
  {
    if UnderState(a) && !a.Answer? && !a.Enter? {
      v := 0;
      ViewsSame(c, s, t, a);
    } else if UnderState(a) {
      v := ViewUnderState(c, s, t, a);
    } else {
      v := ViewOutsideState(c, s, t, a);
    }
  }

  lemma ViewsSame(c: Config, s: State, t: Thread, a: CallAction)
    requires s.shared.lockView < |s.shared.mods| && ViewOf(s, t) < |s.shared.mods|
    requires CallEnabled(c, s, t, a) && UnderState(a) && !a.Answer? && !a.Enter?
    ensures SameViews(s, CallApply(c, s, t, a))
  {
    if a.Take? {
      ViewsByTake(c, s, t);
    }
  }

  lemma ViewsByTake(c: Config, s: State, t: Thread)
    requires s.shared.lockView < |s.shared.mods| && ViewOf(s, t) < |s.shared.mods| && CallEnabled(c, s, t, Take)
    ensures SameViews(s, CallApply(c, s, t, Take))
  {
  }

  lemma ViewUnderState(c: Config, s: State, t: Thread, a: CallAction) returns (v: nat)
    requires ViewInv(s) && CallEnabled(c, s, t, a) && (a.Answer? || a.Enter?)
    ensures Sees(s, CallApply(c, s, t, a), t, v)
  {
    assert ViewOf(s, t) < |s.shared.mods|;
    v := if a.Answer? then a.at else Max(ViewOf(s, t), s.shared.lockView);
  }

  lemma ViewOutsideState(c: Config, s: State, t: Thread, a: CallAction) returns (v: nat)
    requires s.shared.lockView < |s.shared.mods| && ViewOf(s, t) < |s.shared.mods|
    requires CallEnabled(c, s, t, a) && !UnderState(a)
    ensures var z := CallApply(c, s, t, a); Sees(s, z, t, v) || SameViews(s, z)
  {
    v := if a.Load? || a.CasFail? then a.at else |s.shared.mods|;
  }

  lemma ViewsByWriter(c: Config, s: State, a: WriterAction)
    requires ViewInv(s) && WriterEnabled(c, s, a)
    ensures var z := WriterApply(c, s, a); Sees(s, z, Writer, |s.shared.mods|) || SameViews(s, z)
  {
    assert ViewOf(s, Writer) < |s.shared.mods|;
  }

  lemma ViewsByEmit(c: Config, s: State, t: Thread, a: EmitAction)
    requires ViewInv(s) && EmitEnabled(s, t, a)
    ensures var z := EmitApply(s, t, a); Sees(s, z, t, Max(ViewOf(s, t), s.shared.lockView)) || SameViews(s, z)
  {
    assert ViewOf(s, t) < |s.shared.mods|;
  }

  lemma ViewsKept(c: Config, s: State, a: Action)
    requires ViewInv(s) && Enabled(c, s, a)
    ensures ViewInv(Apply(c, s, a)) && Remembers(s, Apply(c, s, a))
  {
    match a
    case CallStep(t, k) =>
      var v := ViewsByCall(c, s, t, k);
      SeesKeeps(s, Apply(c, s, a), t, v);
    case WriterStep(w) =>
      ViewsByWriter(c, s, w);
      SeesKeeps(s, Apply(c, s, a), Writer, |s.shared.mods|);
    case EmitStep(t, e) =>
      ViewsByEmit(c, s, t, e);
      SeesKeeps(s, Apply(c, s, a), t, Max(ViewOf(s, t), s.shared.lockView));
    case ReaderStep(t, r) =>
      ReaderFrame(c, s, t, r);
      SeesKeeps(s, Apply(c, s, a), t, 0);
  }
}
