/** Who holds STATE, who may call, who owns the session: what every step keeps. */
module TransportInvariants {
  import opened Wrappers
  import opened TransportModel

  predicate Holds(s: State, t: Thread) {
    (t in s.calls && s.calls[t].Inside?) || EmitOf(s, t) == Some(Locked)
  }

  predicate WaitsForLock(s: State, t: Thread) {
    (t in s.calls && s.calls[t].Waiting?) || EmitOf(s, t) == Some(Entering)
  }

  /** Mutual exclusion: the threads inside a STATE section are exactly the recorded holder. */
  ghost predicate LockInv(s: State) {
    forall t :: Holds(s, t) <==> s.shared.lock == Some(t)
  }

  ghost predicate CallerInv(s: State) {
    forall t | t in s.calls :: MayCall(s, t)
  }

  predicate IsPublishing(k: Call) {
    (k.Waiting? || k.Inside?) && k.op.Publish?
  }

  predicate IsClosing(k: Call) {
    k.RaisingStop? || k.Joining?
  }

  /** The close in progress has joined the workers that come before the one it waits for. */
  predicate JoinedSoFar(s: State, k: Call) {
    k.Joining? ==>
      && !k.worker.Client?
      && (!k.worker.EventReader? ==> s.event.pc.ReaderFinished?)
      && (k.worker.Writer? ==> s.acl.pc.ReaderFinished?)
  }

  predicate OwnedBy(s: State, t: Thread, k: Call) {
    && (IsPublishing(k) <==> s.shared.owner == Opening(t))
    && (IsClosing(k) <==> s.shared.owner == Closing(t))
    && (IsPublishing(k) || IsClosing(k) || k == Waiting(Close) || k == Inside(Close) ==> t.Client?)
    && (IsClosing(k) ==> (s.shared.stop <==> k.Joining?))
    && JoinedSoFar(s, k)
  }

  ghost predicate OwnerInv(s: State) {
    && (forall t | t in s.calls :: OwnedBy(s, t, s.calls[t]))
    && (s.shared.owner.Opening? ==> s.shared.owner.opener in s.calls)
    && (s.shared.owner.Closing? ==> s.shared.owner.closer in s.calls)
    && (s.shared.owner.Dropped? ==>
          s.event.pc.ReaderFinished? && s.acl.pc.ReaderFinished? && s.writer.pc.Finished?)
    && (s.shared.stop ==> s.shared.owner.Closing? || s.shared.owner.Dropped?)
    && (s.writer.sawStop || s.event.sawStop || s.acl.sawStop ==> s.shared.stop)
    && (s.shared.receiverAlive <==> !s.writer.pc.Finished?)
  }

  ghost predicate BaseInv(s: State) {
    LockInv(s) && CallerInv(s) && OwnerInv(s)
  }

  lemma BaseInit(c: Config, s: State)
    requires Init(c, s)
    ensures BaseInv(s)
  {
  }

  // ---- Frames: what each group of steps leaves alone -----------------------------------------

  lemma WriterFrame(c: Config, s: State, a: WriterAction)
    requires WriterEnabled(c, s, a)
    ensures var z := WriterApply(c, s, a);
      && z.calls == s.calls && z.event == s.event && z.acl == s.acl
      && z.shared.lock == s.shared.lock && z.shared.owner == s.shared.owner && z.shared.stop == s.shared.stop
      && !s.writer.pc.Acking? && !s.writer.pc.Finished?
      && (z.writer.pc.Acking? ==> z.writer.pc.emit == Entering)
      && (z.writer.sawStop ==> s.writer.sawStop || s.shared.stop)
      && z.shared.receiverAlive == (s.shared.receiverAlive && !z.writer.pc.Finished?)
  {
  }

  /** Only the caller's own call may differ. */
  ghost predicate OtherCallsSame(s: State, z: State, t: Thread) {
    forall u | u != t :: (u in z.calls <==> u in s.calls) && (u in s.calls ==> z.calls[u] == s.calls[u])
  }

  /** `t`'s own call ended or went on. */
  ghost predicate OnlyCallOf(s: State, z: State, t: Thread) {
    z.calls == if t in z.calls then s.calls[t := z.calls[t]] else s.calls - {t}
  }

  predicate SameWorkers(s: State, z: State) {
    && z.writer == s.writer && z.event == s.event && z.acl == s.acl
    && z.shared.receiverAlive == s.shared.receiverAlive
  }

  /** Steps that begin, or are taken inside, a STATE section. */
  predicate UnderState(a: CallAction) {
    a.Begin? || a.Enter? || a.Snapshot? || a.Answer? || a.SetHandler? || a.Take? || a.Store?
  }

  lemma CallUnderState(c: Config, s: State, t: Thread, a: CallAction)
    requires CallEnabled(c, s, t, a) && UnderState(a)
    ensures OnlyCallOf(s, CallApply(c, s, t, a), t)
    ensures SameWorkers(s, CallApply(c, s, t, a))
  {
    if a.Take? {
      CallTakes(c, s, t);
    }
  }

  lemma CallTakes(c: Config, s: State, t: Thread)
    requires CallEnabled(c, s, t, Take)
    ensures OnlyCallOf(s, CallApply(c, s, t, Take), t)
    ensures SameWorkers(s, CallApply(c, s, t, Take))
  {
  }

  lemma CallOutsideState(c: Config, s: State, t: Thread, a: CallAction)
    requires CallEnabled(c, s, t, a) && !UnderState(a)
    ensures OnlyCallOf(s, CallApply(c, s, t, a), t)
    ensures SameWorkers(s, CallApply(c, s, t, a))
  {
  }

  lemma CallParts(c: Config, s: State, t: Thread, a: CallAction)
    requires CallEnabled(c, s, t, a)
    ensures OnlyCallOf(s, CallApply(c, s, t, a), t)
    ensures SameWorkers(s, CallApply(c, s, t, a))
  {
    if UnderState(a) {
      CallUnderState(c, s, t, a);
    } else {
      CallOutsideState(c, s, t, a);
    }
  }

  lemma CallFrame(c: Config, s: State, t: Thread, a: CallAction)
    requires CallEnabled(c, s, t, a)
    ensures var z := CallApply(c, s, t, a);
      && z.writer == s.writer && z.event == s.event && z.acl == s.acl
      && z.shared.receiverAlive == s.shared.receiverAlive
      && OtherCallsSame(s, z, t)
  {
    CallParts(c, s, t, a);
  }

  lemma EmitFrame(c: Config, s: State, t: Thread, a: EmitAction)
    requires EmitEnabled(s, t, a)
    ensures var z := EmitApply(s, t, a);
      && z.calls == s.calls
      && z.shared.(lock := s.shared.lock, lockView := s.shared.lockView) == s.shared
      && (forall u | u != t :: EmitOf(z, u) == EmitOf(s, u))
  {
    match t {
      case Client(_) =>
      case Writer =>
      case EventReader =>
      case AclReader =>
    }
  }

  lemma EmitWorkers(c: Config, s: State, t: Thread, a: EmitAction)
    requires EmitEnabled(s, t, a)
    ensures var z := EmitApply(s, t, a);
      && (z.writer.pc.Finished? <==> s.writer.pc.Finished?)
      && (z.event.pc.ReaderFinished? <==> s.event.pc.ReaderFinished?)
      && (z.acl.pc.ReaderFinished? <==> s.acl.pc.ReaderFinished?)
      && z.writer.sawStop == s.writer.sawStop
      && z.event.sawStop == s.event.sawStop && z.acl.sawStop == s.acl.sawStop
  {
  }

  lemma ReaderFrame(c: Config, s: State, t: Thread, a: ReaderAction)
    requires ReaderEnabled(s, t, a)
    ensures var z := Apply(c, s, ReaderStep(t, a));
      && z.calls == s.calls && z.shared == s.shared && z.writer == s.writer && z.views == s.views
      && (forall u | u != t :: EmitOf(z, u) == EmitOf(s, u))
      && EmitOf(s, t) == None
      && EmitOf(z, t) in {None, Some(Entering)}
      && (forall r | IsReader(r) && ReaderOf(s, r).pc.ReaderFinished? :: ReaderOf(z, r).pc.ReaderFinished?)
      && (z.event.sawStop || z.acl.sawStop ==> s.event.sawStop || s.acl.sawStop || s.shared.stop)
  {
  }

  // ---- Mutual exclusion ----------------------------------------------------------------------

  lemma LockKept(c: Config, s: State, a: Action)
    requires LockInv(s) && CallerInv(s) && Enabled(c, s, a)
    ensures LockInv(Apply(c, s, a))
  {
    match a
    case CallStep(t, k) => LockKeptByCall(c, s, t, k);
    case WriterStep(w) => WriterFrame(c, s, w);
    case EmitStep(t, e) => LockKeptByEmit(c, s, t, e);
    case ReaderStep(t, r) => ReaderFrame(c, s, t, r);
  }

  predicate InSection(s: State, t: Thread) {
    t in s.calls && s.calls[t].Inside?
  }

  /** A call step takes the lock, releases it from inside, or leaves it alone. */
  predicate LockMoved(s: State, z: State, t: Thread) {
    if InSection(z, t) then !InSection(s, t) && s.shared.lock == None && z.shared.lock == Some(t)
    else z.shared.lock == if InSection(s, t) then None else s.shared.lock
  }

  lemma CallLock(c: Config, s: State, t: Thread, a: CallAction)
    requires CallEnabled(c, s, t, a)
    ensures LockMoved(s, CallApply(c, s, t, a), t)
  {
    if UnderState(a) {
      LockUnderState(c, s, t, a);
    } else {
      LockOutsideState(c, s, t, a);
    }
  }

  lemma LockUnderState(c: Config, s: State, t: Thread, a: CallAction)
    requires CallEnabled(c, s, t, a) && UnderState(a)
    ensures LockMoved(s, CallApply(c, s, t, a), t)
  {
  }

  lemma LockOutsideState(c: Config, s: State, t: Thread, a: CallAction)
    requires CallEnabled(c, s, t, a) && !UnderState(a)
    ensures LockMoved(s, CallApply(c, s, t, a), t)
  {
  }

  lemma LockKeptByCall(c: Config, s: State, t: Thread, a: CallAction)
    requires LockInv(s) && CallerInv(s) && CallEnabled(c, s, t, a)
    ensures LockInv(CallApply(c, s, t, a))
  {
    CallFrame(c, s, t, a);
    CallLock(c, s, t, a);
    LockPassed(s, CallApply(c, s, t, a), t);
  }

  lemma LockPassed(s: State, z: State, t: Thread)
    requires LockInv(s) && MayCall(s, t)
    requires z.writer == s.writer && z.event == s.event && z.acl == s.acl
    requires OtherCallsSame(s, z, t)
    requires LockMoved(s, z, t)
    ensures LockInv(z)
  {
    assert Holds(s, t) <==> s.shared.lock == Some(t);
    forall u ensures Holds(z, u) <==> z.shared.lock == Some(u) {
      assert EmitOf(z, u) == EmitOf(s, u);
      assert Holds(s, u) <==> s.shared.lock == Some(u);
    }
  }

  lemma LockKeptByEmit(c: Config, s: State, t: Thread, a: EmitAction)
    requires LockInv(s) && CallerInv(s) && EmitEnabled(s, t, a)
    ensures LockInv(EmitApply(s, t, a))
  {
    EmitFrame(c, s, t, a);
    var z := EmitApply(s, t, a);
    forall u ensures Holds(z, u) <==> z.shared.lock == Some(u) {
      assert Holds(s, t) <==> s.shared.lock == Some(t);
    }
  }

  lemma CallerKept(c: Config, s: State, a: Action)
    requires CallerInv(s) && Enabled(c, s, a)
    ensures CallerInv(Apply(c, s, a))
  {
    var z := Apply(c, s, a);
    match a
    case CallStep(t, k) =>
      CallFrame(c, s, t, k);
      forall u | u in z.calls ensures MayCall(z, u) {
        assert EmitOf(z, u) == EmitOf(s, u);
      }
    case WriterStep(w) =>
      WriterFrame(c, s, w);
    case EmitStep(t, e) =>
      EmitFrame(c, s, t, e);
      forall u | u in z.calls ensures MayCall(z, u) {
        assert MayCall(s, u);
      }
    case ReaderStep(t, r) =>
      ReaderFrame(c, s, t, r);
  }

  lemma OwnerKept(c: Config, s: State, a: Action)
    requires BaseInv(s) && Enabled(c, s, a)
    ensures OwnerInv(Apply(c, s, a))
  {
    match a
    case CallStep(t, k) => OwnerKeptByCall(c, s, t, k);
    case WriterStep(w) => WriterFrame(c, s, w);
    case EmitStep(t, e) =>
      EmitFrame(c, s, t, e);
      EmitWorkers(c, s, t, e);
    case ReaderStep(t, r) =>
      ReaderFrame(c, s, t, r);
      assert ReaderOf(s, EventReader) == s.event && ReaderOf(s, AclReader) == s.acl;
  }

  lemma OwnerKeptByCall(c: Config, s: State, t: Thread, a: CallAction)
    requires BaseInv(s) && CallEnabled(c, s, t, a)
    ensures OwnerInv(CallApply(c, s, t, a))
  {
    if Moves(a) {
      OwnerKeptByTransfer(c, s, t, a);
    } else {
      OwnerKeptByOthers(c, s, t, a);
    }
  }

  predicate Moves(a: CallAction) {
    a.Take? || a.RaiseStop? || a.Join? || a.Store?
  }

  lemma QuietCall(c: Config, s: State, t: Thread, a: CallAction)
    requires OwnerInv(s) && CallEnabled(c, s, t, a) && !Moves(a)
    ensures var z := CallApply(c, s, t, a);
      && z.shared.owner == s.shared.owner && z.shared.stop == s.shared.stop
      && (t in s.calls ==> !IsClosing(s.calls[t]))
      && (t in z.calls ==> !IsClosing(z.calls[t]))
      && ((t in z.calls && IsPublishing(z.calls[t])) <==> (t in s.calls && IsPublishing(s.calls[t])))
      && (t in z.calls && z.calls[t] in {Waiting(Close), Inside(Close)} ==> t.Client?)
  {
    if t in s.calls {
      assert OwnedBy(s, t, s.calls[t]);
    }
  }

  lemma OwnerKeptByOthers(c: Config, s: State, t: Thread, a: CallAction)
    requires BaseInv(s) && CallEnabled(c, s, t, a) && !Moves(a)
    ensures OwnerInv(CallApply(c, s, t, a))
  {
    CallFrame(c, s, t, a);
    QuietCall(c, s, t, a);
    var z := CallApply(c, s, t, a);
    forall u | u in z.calls ensures OwnedBy(z, u, z.calls[u]) {
      if u in s.calls {
        assert OwnedBy(s, u, s.calls[u]);
      }
    }
    if s.shared.owner.Opening? {
      assert OwnedBy(s, s.shared.owner.opener, s.calls[s.shared.owner.opener]);
    }
    if s.shared.owner.Closing? {
      assert OwnedBy(s, s.shared.owner.closer, s.calls[s.shared.owner.closer]);
    }
  }

  lemma OwnerKeptByTransfer(c: Config, s: State, t: Thread, a: CallAction)
    requires BaseInv(s) && CallEnabled(c, s, t, a) && Moves(a)
    ensures OwnerInv(CallApply(c, s, t, a))
  {
    CallFrame(c, s, t, a);
    var z := CallApply(c, s, t, a);
    assert OwnedBy(s, t, s.calls[t]);
    forall u | u in z.calls ensures OwnedBy(z, u, z.calls[u]) {
      if u in s.calls {
        assert OwnedBy(s, u, s.calls[u]);
      }
    }
    if s.shared.owner.Closing? {
      assert OwnedBy(s, s.shared.owner.closer, s.calls[s.shared.owner.closer]);
    }
  }

  // ---- Every run -------------------------------------------------------------------------------

  lemma BaseKept(c: Config, s: State, a: Action)
    requires BaseInv(s) && Enabled(c, s, a)
    ensures BaseInv(Apply(c, s, a))
  {
    LockKept(c, s, a);
    CallerKept(c, s, a);
    OwnerKept(c, s, a);
  }

  lemma {:induction false} BaseRun(c: Config, s: State, acts: seq<Action>, z: State)
    requires BaseInv(s) && Run(c, s, acts, z)
    ensures BaseInv(z)
    decreases |acts|
  {
    if acts != [] {
      BaseKept(c, s, acts[0]);
      BaseRun(c, Apply(c, s, acts[0]), acts[1..], z);
    }
  }

  lemma BaseReachable(c: Config, z: State)
    requires Reachable(c, z)
    ensures BaseInv(z)
  {
    var s, acts :| Init(c, s) && Run(c, s, acts, z);
    BaseInit(c, s);
    BaseRun(c, s, acts, z);
  }
}
