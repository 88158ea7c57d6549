/** What a run did, counted: how every counter and every flag of the session follows from the number of
    steps of each kind, whatever their order and whoever took them. */
module TransportAccounts {
  import opened TransportModel
  import opened TransportRoles
  import opened TransportInvariants
  import opened TransportLedger
  import opened TransportHistory
  import opened TransportTheorems

  // ---- Kinds of steps --------------------------------------------------------------------------------

  predicate ReservedOne(a: Action) {
    a.CallStep? && a.call.CasOk?
  }

  predicate StopRaised(a: Action) {
    a.CallStep? && a.call.RaiseStop?
  }

  predicate ReceivedOne(a: Action) {
    a == WriterStep(Receive)
  }

  predicate SubmittedOne(a: Action) {
    a == WriterStep(Submit)
  }

  predicate CountedOne(a: Action) {
    a == WriterStep(Count)
  }

  predicate CountedOff(a: Action) {
    a == WriterStep(Decrement)
  }

  predicate CancelledAll(a: Action) {
    a == WriterStep(CancelAll)
  }

  /** The writer loads the stop flag and finds it raised. */
  predicate SawStop(a: Action) {
    a in {WriterStep(TestLoop(true)), WriterStep(TestCancel(true)), WriterStep(TestZero(true))}
  }

  predicate SawStopAtCancel(a: Action) {
    a == WriterStep(TestCancel(true))
  }

  predicate LeftThread(a: Action) {
    a == WriterStep(Exit)
  }

  predicate DispatchedBy(t: Thread, a: Action) {
    a == EmitStep(t, Dispatch)
  }

  function Bit(b: bool): nat {
    if b then 1 else 0
  }

  // ---- The counter -----------------------------------------------------------------------------------

  lemma CounterStep(c: Config, s: State, a: Action)
    requires Ledger(c, s) && Enabled(c, s, a)
    ensures var z := Apply(c, s, a);
      && Pending(z) == Pending(s) + Bit(ReservedOne(a)) - Bit(Releases(a))
      && |z.shared.mods| == |s.shared.mods| + Bit(ReservedOne(a)) + Bit(Releases(a))
  {
    match a
    case CallStep(t, k) =>
      if UnderState(k) {
        QuietUnderState(c, s, t, k);
      } else if !k.CasOk? && !k.GiveBack? && !k.TrySend? {
        QuietOutsideState(c, s, t, k);
      } else if k.TrySend? {
        TrySendPassesSlot(c, s, t);
      } else {
        CallAdds(c, s, t, k);
      }
    case WriterStep(w) =>
      if w.ReleaseCommand? || w.ReleaseBulk? {
        WriterReleases(c, s, w);
      } else {
        WriterPassesSlot(c, s, w);
      }
    case EmitStep(t, e) => EmitKeepsSlots(c, s, t, e);
    case ReaderStep(t, r) => ReaderFrame(c, s, t, r);
  }

  lemma CallAdds(c: Config, s: State, t: Thread, a: CallAction)
    requires CallEnabled(c, s, t, a) && (a.CasOk? || a.GiveBack?)
    ensures CallApply(c, s, t, a).shared.mods == s.shared.mods + [Pending(s) + if a.CasOk? then 1 else -1]
  {
  }

  /** In every run the pending counter moves by the reservations less the releases, and is written by
      nothing else. */
  lemma {:induction false} CounterAccount(c: Config, s: State, acts: seq<Action>, z: State)
    requires EngineInv(c, s) && Run(c, s, acts, z)
    ensures Pending(z) == Pending(s) + HowMany(ReservedOne, acts) - HowMany(Releases, acts)
    ensures |z.shared.mods| == |s.shared.mods| + HowMany(ReservedOne, acts) + HowMany(Releases, acts)
    decreases |acts|
  {
    if acts != [] {
      EngineKept(c, s, acts[0]);
      CounterStep(c, s, acts[0]);
      CounterAccount(c, Apply(c, s, acts[0]), acts[1..], z);
    }
  }

  // ---- The writer ------------------------------------------------------------------------------------

  /** From `s` to `z` as much was received, submitted, counted, cancelled and acknowledged as said, and
      results with the flags `oks` came in. */
  predicate WriterMoved(s: State, z: State, received: nat, submitted: nat, counted: int, cancels: nat, acked: nat,
                        oks: seq<bool>)
  {
    && |z.log.dequeued| == |s.log.dequeued| + received
    && |z.log.submitted| == |s.log.submitted| + submitted
    && z.writer.inFlight == s.writer.inFlight + counted
    && |z.log.cancels| == |s.log.cancels| + cancels
    && |z.log.acked| == |s.log.acked| + acked
    && Oks(z.log.results) == Oks(s.log.results) + oks
  }

  function Oks(rs: seq<Outcome>): seq<bool> {
    seq(|rs|, i requires 0 <= i < |rs| => rs[i].ok)
  }

  /** The endings of transfers in `acts`: whether they succeeded. */
  function EndingOf(a: Action): seq<bool> {
    if a.WriterStep? && a.write.SendCommand? then [a.write.ok]
    else if a.WriterStep? && a.write.PollSome? then [a.write.status == Ok]
    else []
  }

  function Endings(acts: seq<Action>): seq<bool> {
    if acts == [] then [] else EndingOf(acts[0]) + Endings(acts[1..])
  }

  lemma OksAppend(rs: seq<Outcome>, r: Outcome)
    ensures Oks(rs + [r]) == Oks(rs) + [r.ok]
  {
  }

  lemma MovedByWriter(c: Config, s: State, a: WriterAction)
    requires WriterEnabled(c, s, a)
    ensures WriterMoved(s, WriterApply(c, s, a), Bit(a.Receive?), Bit(a.Submit?), Bit(a.Count?) - Bit(a.Decrement?),
                        Bit(a.CancelAll?), 0, EndingOf(WriterStep(a)))
  {
    if a.SendCommand? {
      OksAppend(s.log.results, Outcome(s.writer.pc.packet, a.ok));
    } else if a.PollSome? {
      OksAppend(s.log.results, Outcome(s.writer.queue[0], a.status == Ok));
    } else {
      ResultsKept(c, s, a);
    }
  }

  lemma ResultsKept(c: Config, s: State, a: WriterAction)
    requires WriterEnabled(c, s, a) && !a.SendCommand? && !a.PollSome?
    ensures WriterApply(c, s, a).log.results == s.log.results
  {
  }

  lemma MovedByEmit(c: Config, s: State, t: Thread, a: EmitAction)
    requires EmitEnabled(s, t, a)
    ensures WriterMoved(s, EmitApply(s, t, a), 0, 0, 0, 0, Bit(t.Writer? && a.Dispatch?), [])
  {
  }

  lemma Moved(c: Config, s: State, a: Action)
    requires EngineInv(c, s) && Enabled(c, s, a)
    ensures WriterMoved(s, Apply(c, s, a), Bit(ReceivedOne(a)), Bit(SubmittedOne(a)), Bit(CountedOne(a)) - Bit(CountedOff(a)),
                        Bit(CancelledAll(a)), Bit(DispatchedBy(Writer, a)), EndingOf(a))
  {
    match a
    case CallStep(t, k) => CallLogs(c, s, t, k);
    case WriterStep(w) => MovedByWriter(c, s, w);
    case EmitStep(t, e) => MovedByEmit(c, s, t, e);
    case ReaderStep(t, r) => ReaderFrame(c, s, t, r);
  }

  lemma MovedTwice(s: State, y: State, z: State, r0: nat, s0: nat, c0: int, n0: nat, a0: nat, o0: seq<bool>,
                   r1: nat, s1: nat, c1: int, n1: nat, a1: nat, o1: seq<bool>)
    requires WriterMoved(s, y, r0, s0, c0, n0, a0, o0) && WriterMoved(y, z, r1, s1, c1, n1, a1, o1)
    ensures WriterMoved(s, z, r0 + r1, s0 + s1, c0 + c1, n0 + n1, a0 + a1, o0 + o1)
  {
    assert Oks(s.log.results) + o0 + o1 == Oks(s.log.results) + (o0 + o1);
  }

  /** In every run each count of the writer is the number of its steps of that kind: packets received and
      submitted, transfers counted less those counted off, cancellations, packet-sent events, and the
      results with the endings that were reported. */
  lemma {:induction false} WriterAccount(c: Config, s: State, acts: seq<Action>, z: State)
    requires EngineInv(c, s) && Run(c, s, acts, z)
    ensures WriterMoved(s, z, HowMany(ReceivedOne, acts), HowMany(SubmittedOne, acts),
                        HowMany(CountedOne, acts) - HowMany(CountedOff, acts),
                        HowMany(CancelledAll, acts), HowMany(a => DispatchedBy(Writer, a), acts), Endings(acts))
    decreases |acts|
  {
    if acts != [] {
      var a, rest := acts[0], acts[1..];
      var y := Apply(c, s, a);
      EngineKept(c, s, a);
      Moved(c, s, a);
      WriterAccount(c, y, rest, z);
      MovedTwice(s, y, z, Bit(ReceivedOne(a)), Bit(SubmittedOne(a)), Bit(CountedOne(a)) - Bit(CountedOff(a)),
                 Bit(CancelledAll(a)), Bit(DispatchedBy(Writer, a)), EndingOf(a),
                 HowMany(ReceivedOne, rest), HowMany(SubmittedOne, rest),
                 HowMany(CountedOne, rest) - HowMany(CountedOff, rest),
                 HowMany(CancelledAll, rest), HowMany(b => DispatchedBy(Writer, b), rest), Endings(rest));
    }
  }

  // ---- Stopping --------------------------------------------------------------------------------------

  /** The writer has cancelled its queue, or is about to. */
  predicate Cancels(w: WriterState) {
    w.cancelled || w.pc.Cancelling?
  }

  predicate Stopped(s: State, z: State, raised: bool, saw: bool, sawAtCancel: bool, left: bool) {
    && (z.shared.stop <==> s.shared.stop || raised)
    && (z.writer.sawStop <==> s.writer.sawStop || saw)
    && (Cancels(z.writer) <==> Cancels(s.writer) || sawAtCancel)
    && (z.shared.receiverAlive <==> s.shared.receiverAlive && !left)
  }

  lemma StoppedByCall(c: Config, s: State, t: Thread, a: CallAction)
    requires CallEnabled(c, s, t, a)
    ensures CallApply(c, s, t, a).shared.stop == (s.shared.stop || a.RaiseStop?)
  {
  }

  lemma StopStays(c: Config, s: State, a: Action)
    requires Enabled(c, s, a)
    ensures s.shared.stop ==> Apply(c, s, a).shared.stop
  {
    match a
    case CallStep(t, k) => StoppedByCall(c, s, t, k);
    case WriterStep(w) => WriterFrame(c, s, w);
    case EmitStep(t, e) => EmitFrame(c, s, t, e);
    case ReaderStep(t, r) => ReaderFrame(c, s, t, r);
  }

  lemma StoppedByWriter(c: Config, s: State, a: WriterAction)
    requires OwnerInv(s) && WriterInv(c, s.writer) && WriterEnabled(c, s, a) && !a.Disconnected?
    ensures Stopped(s, WriterApply(c, s, a), false, SawStop(WriterStep(a)), a == TestCancel(true), a.Exit?)
  {
  }

  lemma StoppedByEmit(c: Config, s: State, t: Thread, a: EmitAction)
    requires EmitEnabled(s, t, a)
    ensures Stopped(s, EmitApply(s, t, a), false, false, false, false)
  {
  }

  lemma StopStep(c: Config, s: State, a: Action)
    requires EngineInv(c, s) && Enabled(c, s, a)
    ensures Stopped(s, Apply(c, s, a), StopRaised(a), SawStop(a), SawStopAtCancel(a), LeftThread(a))
  {
    match a
    case CallStep(t, k) =>
      CallFrame(c, s, t, k);
      StoppedByCall(c, s, t, k);
    case WriterStep(w) =>
      NeverDisconnected(c, s);
      StoppedByWriter(c, s, w);
    case EmitStep(t, e) => StoppedByEmit(c, s, t, e);
    case ReaderStep(t, r) => ReaderFrame(c, s, t, r);
  }

  /** In every run the stop flag is up if and only if a close has raised it; the writer knows if and only
      if one of its loads found it up; it cancels its queue if and only if it saw the flag where it tests
      for that; and the receiver is gone if and only if the writer has left. */
  lemma {:induction false} StopAccount(c: Config, s: State, acts: seq<Action>, z: State)
    requires EngineInv(c, s) && Run(c, s, acts, z)
    ensures Stopped(s, z, HowMany(StopRaised, acts) > 0, HowMany(SawStop, acts) > 0,
                    HowMany(SawStopAtCancel, acts) > 0, HowMany(LeftThread, acts) > 0)
    decreases |acts|
  {
    if acts != [] {
      EngineKept(c, s, acts[0]);
      StopStep(c, s, acts[0]);
      StopAccount(c, Apply(c, s, acts[0]), acts[1..], z);
    }
  }

  // ---- The readers -----------------------------------------------------------------------------------

  predicate Drains(t: Thread, a: Action) {
    a == ReaderStep(t, DrainOne)
  }

  predicate Resubmits(t: Thread, a: Action) {
    a == ReaderStep(t, Resubmit)
  }

  predicate ReaderSaw(t: Thread, a: Action) {
    a == ReaderStep(t, Test(true))
  }

  function CompletionOf(t: Thread, a: Action): seq<Completion> {
    if a.ReaderStep? && a.reader == t && a.read.Complete? then [a.read.completion] else []
  }

  /** The completions reader `t` took off its queue, in order. */
  function Completions(t: Thread, acts: seq<Action>): seq<Completion> {
    if acts == [] then [] else CompletionOf(t, acts[0]) + Completions(t, acts[1..])
  }

  predicate ReaderMoved(r: ReaderState, q: ReaderState, taken: seq<Completion>, drained: nat, resubmitted: nat,
                        delivered: nat, saw: bool)
  {
    && q.completed == r.completed + taken
    && q.pending == r.pending - |taken| - drained + resubmitted
    && |q.emitted| == |r.emitted| + delivered
    && (q.sawStop <==> r.sawStop || saw)
  }

  lemma ReaderStepMoves(c: Config, s: State, t: Thread, a: Action)
    requires IsReader(t) && Enabled(c, s, a)
    ensures ReaderMoved(ReaderOf(s, t), ReaderOf(Apply(c, s, a), t), CompletionOf(t, a), Bit(Drains(t, a)),
                        Bit(Resubmits(t, a)), Bit(DispatchedBy(t, a)), ReaderSaw(t, a))
  {
    match a
    case CallStep(u, k) => CallFrame(c, s, u, k);
    case WriterStep(w) => WriterFrame(c, s, w);
    case EmitStep(u, e) => ReaderMovesByEmit(s, u, e, t);
    case ReaderStep(u, r) =>
  }

  lemma ReaderMovesByEmit(s: State, u: Thread, a: EmitAction, t: Thread)
    requires IsReader(t) && EmitEnabled(s, u, a)
    ensures ReaderMoved(ReaderOf(s, t), ReaderOf(EmitApply(s, u, a), t), [], 0, 0, Bit(u == t && a.Dispatch?), false)
  {
  }

  /** In every run a reader has as many buffers out as it had, less those completed and drained, plus those
      resubmitted; it has taken exactly the completions that arrived, and delivered once per dispatch. */
  lemma {:induction false} ReaderAccount(c: Config, s: State, acts: seq<Action>, z: State, t: Thread)
    requires IsReader(t) && Run(c, s, acts, z)
    ensures ReaderMoved(ReaderOf(s, t), ReaderOf(z, t), Completions(t, acts), HowMany(a => Drains(t, a), acts),
                        HowMany(a => Resubmits(t, a), acts), HowMany(a => DispatchedBy(t, a), acts),
                        HowMany(a => ReaderSaw(t, a), acts) > 0)
    decreases |acts|
  {
    if acts != [] {
      var y := Apply(c, s, acts[0]);
      ReaderStepMoves(c, s, t, acts[0]);
      ReaderAccount(c, y, acts[1..], z, t);
      assert ReaderOf(s, t).completed + CompletionOf(t, acts[0]) + Completions(t, acts[1..])
          == ReaderOf(s, t).completed + Completions(t, acts);
    }
  }
}
