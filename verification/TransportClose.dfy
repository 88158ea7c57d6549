/** A close can always return: whatever the other threads have done so far, some continuation lets it
    raise stop, join every worker, and drop the session. */
module TransportClose {
  import opened Wrappers
  import opened TransportModel
  import opened TransportRoles
  import opened TransportInvariants
  import opened TransportLedger
  import opened TransportHistory
  import opened TransportTheorems
  import opened TransportTermination
  import opened TransportDeadlock

  // ---- How far a thread is from its end --------------------------------------------------------------

  /** Steps left to a call that does not close, if nobody else writes the counter. */
  function CallRank(c: Config, s: State, k: Call): nat {
    match k
    case Waiting(_) => 7
    case Inside(_) => 6
    case Loading(_, _) => 5
    case Exchanging(_, _, current) => if current < c.depth && current != Pending(s) then 4 else 3
    case Reserved(_, _) => 2
    case _ => 1
  }

  function BuffersOut(r: ReaderState): nat {
    if r.pending > 0 then r.pending else 0
  }

  function ReaderRank(r: ReaderState): nat {
    match r.pc
    case ReaderFinished => 0
    case ReaderHead => if r.pending > 0 then r.pending + 3 else 1
    case Draining => BuffersOut(r) + 2
    case Testing => BuffersOut(r) + 3
    case Recovering => BuffersOut(r) + 4
    case Emitting(_, e) => BuffersOut(r) + 3 + EmitRank(e)
    case Resubmitting => BuffersOut(r) + 5
  }

  function BodyRank(s: State, w: Thread): nat {
    match w
    case Client(_) => 0
    case Writer => Left(s.writer)
    case _ => ReaderRank(ReaderOf(s, w))
  }

  /** Steps left to a worker, with the call its handler is in. */
  function WorkRank(c: Config, s: State, w: Thread): nat {
    BodyRank(s, w) + if w in s.calls then CallRank(c, s, s.calls[w]) else 0
  }

  // ---- Whoever holds STATE can leave it ----------------------------------------------------------------

  /** The step with which the holder of STATE leaves it. */
  function Leaving(s: State, h: Thread): Action
    requires s.shared.mods != []
  {
    if h in s.calls && s.calls[h].Inside? then
      CallStep(h, match s.calls[h].op
                  case Send(_, _) => Snapshot
                  case CanSend => Answer(|s.shared.mods| - 1)
                  case Register(_) => SetHandler
                  case Close => Take
                  case Publish => Store)
    else EmitStep(h, ReadHandler)
  }

  /** `h` has left STATE; the other threads are in the calls they were in, and a close goes on. */
  ghost predicate LeftState(s: State, z: State, h: Thread) {
    && z.shared.lock == None && OtherCallsSame(s, z, h)
    && (s.shared.owner.Closing? ==> z.shared.owner == s.shared.owner)
  }

  lemma HolderLeaves(c: Config, s: State, h: Thread)
    requires EngineInv(c, s) && s.shared.lock == Some(h)
    ensures Enabled(c, s, Leaving(s, h))
    ensures LeftState(s, Apply(c, s, Leaving(s, h)), h)
  {
    assert Holds(s, h);
    assert ViewOf(s, h) < |s.shared.mods|;
    if h in s.calls && s.calls[h].Inside? {
      assert OwnedBy(s, h, s.calls[h]);
      CallLeaves(c, s, h, Leaving(s, h).call);
    } else {
      EmissionLeaves(c, s, h);
    }
  }

  lemma CallLeaves(c: Config, s: State, h: Thread, a: CallAction)
    requires CallEnabled(c, s, h, a) && h in s.calls && s.calls[h].Inside?
    requires a.Store? ==> !s.shared.owner.Closing?
    ensures LeftState(s, CallApply(c, s, h, a), h)
  {
    CallParts(c, s, h, a);
  }

  lemma EmissionLeaves(c: Config, s: State, h: Thread)
    requires EmitEnabled(s, h, EmitAction.ReadHandler)
    ensures LeftState(s, EmitApply(s, h, EmitAction.ReadHandler), h)
  {
    EmitFrame(c, s, h, EmitAction.ReadHandler);
  }

  /** Leaving STATE takes no worker further from its end. */
  lemma LeavingRank(c: Config, s: State, h: Thread, w: Thread)
    requires s.shared.mods != [] && Enabled(c, s, Leaving(s, h)) && s.shared.owner.Closing?
    ensures WorkRank(c, Apply(c, s, Leaving(s, h)), w) <= WorkRank(c, s, w)
  {
    if h in s.calls && s.calls[h].Inside? {
      LeavingCall(c, s, h, Leaving(s, h).call);
      CallFrame(c, s, h, Leaving(s, h).call);
      SameBody(s, CallApply(c, s, h, Leaving(s, h).call), w);
    } else {
      LeavingEmit(s, h, w);
    }
  }

  lemma SameBody(s: State, z: State, w: Thread)
    requires SameWorkers(s, z)
    ensures BodyRank(z, w) == BodyRank(s, w)
  {
  }

  lemma LeavingCall(c: Config, s: State, h: Thread, a: CallAction)
    requires CallEnabled(c, s, h, a) && h in s.calls && s.calls[h].Inside? && s.shared.owner.Closing?
    ensures var z := CallApply(c, s, h, a);
      && z.shared.mods == s.shared.mods
      && (h in z.calls ==> CallRank(c, z, z.calls[h]) <= 6)
  {
  }

  lemma LeavingEmit(s: State, h: Thread, w: Thread)
    requires EmitEnabled(s, h, EmitAction.ReadHandler)
    ensures var z := EmitApply(s, h, EmitAction.ReadHandler);
      z.shared.mods == s.shared.mods && z.calls == s.calls && BodyRank(z, w) <= BodyRank(s, w)
  {
  }

  // ---- A worker can go on to its end, once stop is raised ------------------------------------------------

  /** The call of a worker's handler goes on. */
  function NextInCall(c: Config, s: State, k: Call): CallAction
    requires s.shared.mods != []
  {
    var last := |s.shared.mods| - 1;
    match k
    case Loading(_, _) => Load(last)
    case Exchanging(_, _, current) =>
      if current >= c.depth then Refuse else if current == Pending(s) then CasOk else CasFail(last)
    case Reserved(ty, _) => if ty.Supported? then TrySend else Reject
    case GivingBack => CallAction.GiveBack
    case _ => Enter
  }

  lemma HandlerCallGoesOn(c: Config, s: State, w: Thread)
    requires EngineInv(c, s) && s.shared.lock == None && !w.Client? && w in s.calls
    ensures CallEnabled(c, s, w, NextInCall(c, s, s.calls[w]))
    ensures WorkRank(c, CallApply(c, s, w, NextInCall(c, s, s.calls[w])), w) < WorkRank(c, s, w)
  {
    assert !Holds(s, w);
    assert OwnedBy(s, w, s.calls[w]);
    assert ViewOf(s, w) < |s.shared.mods|;
    var a := NextInCall(c, s, s.calls[w]);
    CallParts(c, s, w, a);
    CallFalls(c, s, w, a);
  }

  lemma CallFalls(c: Config, s: State, w: Thread, a: CallAction)
    requires s.shared.mods != [] && w in s.calls && CallEnabled(c, s, w, a) && a == NextInCall(c, s, s.calls[w])
    ensures var z := CallApply(c, s, w, a);
      w in z.calls ==> CallRank(c, z, z.calls[w]) < CallRank(c, s, s.calls[w])
  {
  }

  function NextOfReader(t: Thread, r: ReaderState): Action {
    match r.pc
    case ReaderHead => ReaderStep(t, if r.pending > 0 then Complete(Completion(OtherError, [])) else ReaderExit)
    case Emitting(_, e) => EmitStep(t, NextEmit(e))
    case Recovering => ReaderStep(t, Recover)
    case Testing => ReaderStep(t, Test(true))
    case Resubmitting => ReaderStep(t, Resubmit)
    case _ => ReaderStep(t, if r.pending > 0 then DrainOne else Drained)
  }

  /** Every test sees stop, every transfer has failed, nothing more is received. */
  function NextOfWriter(c: Config, s: State): Action {
    var w := s.writer;
    match w.pc
    case LoopHead => WriterStep(TestLoop(w.inFlight < c.window))
    case Receiving => WriterStep(if s.shared.channel == [] then Timeout else Receive)
    case Holding(p) => WriterStep(if p.kind.Command? then SendCommand(false) else Submit)
    case Counting => WriterStep(Count)
    case CommandDone(_, _) => WriterStep(ReleaseCommand)
    case Acking(_, e) => EmitStep(Writer, NextEmit(e))
    case CancelTest => WriterStep(TestCancel(true))
    case Cancelling => WriterStep(CancelAll)
    case ZeroTest => WriterStep(TestZero(w.inFlight == 0))
    case Polling => WriterStep(PollSome(OtherError))
    case Reaped(_, _) => WriterStep(Decrement)
    case Releasing(_, _) => WriterStep(ReleaseBulk)
    case ClearingHalt => WriterStep(ClearHalt)
    case _ => WriterStep(Exit)
  }

  lemma EmitFalls(s: State, t: Thread, a: EmitAction)
    requires EmitEnabled(s, t, a)
    ensures BodyRank(EmitApply(s, t, a), t) < BodyRank(s, t)
  {
  }

  lemma WriterFalls(c: Config, s: State, a: WriterAction)
    requires WriterInv(c, s.writer) && s.shared.stop && NextOfWriter(c, s) == WriterStep(a)
    requires !s.writer.pc.Finished?
    ensures WriterEnabled(c, s, a) && Left(WriterApply(c, s, a).writer) < Left(s.writer)
  {
  }

  lemma ReaderFalls(s: State, t: Thread, a: ReaderAction)
    requires IsReader(t) && s.shared.stop && NextOfReader(t, ReaderOf(s, t)) == ReaderStep(t, a)
    requires !ReaderOf(s, t).pc.ReaderFinished?
    ensures ReaderEnabled(s, t, a) && ReaderRank(ReaderNext(ReaderOf(s, t), a)) < ReaderRank(ReaderOf(s, t))
  {
  }

  function NextOfWorker(c: Config, s: State, w: Thread): Action
    requires s.shared.mods != []
  {
    if w in s.calls then CallStep(w, NextInCall(c, s, s.calls[w]))
    else if w.Writer? then NextOfWriter(c, s)
    else NextOfReader(w, ReaderOf(s, w))
  }

  lemma WorkerGoesOn(c: Config, s: State, w: Thread)
    requires EngineInv(c, s) && s.shared.lock == None && s.shared.stop
    requires !w.Client? && !WorkerFinished(s, w)
    ensures Enabled(c, s, NextOfWorker(c, s, w))
    ensures WorkRank(c, Apply(c, s, NextOfWorker(c, s, w)), w) < WorkRank(c, s, w)
  {
    var a := NextOfWorker(c, s, w);
    if w in s.calls {
      HandlerCallGoesOn(c, s, w);
    } else {
      match a
      case WriterStep(k) =>
        WriterFalls(c, s, k);
        WriterFrame(c, s, k);
      case EmitStep(t, e) =>
        EmitFalls(s, w, e);
        EmitFrame(c, s, w, e);
      case ReaderStep(t, r) => ReaderFalls(s, w, r);
    }
  }

  /** A step of a worker, or of its handler, leaves the close in progress where it is. */
  lemma CloserWaits(c: Config, s: State, a: Action)
    requires EngineInv(c, s) && s.shared.owner.Closing? && Enabled(c, s, a) && Actor(a) != s.shared.owner.closer
    ensures var t, z := s.shared.owner.closer, Apply(c, s, a);
      z.shared.owner == s.shared.owner && t in z.calls && z.calls[t] == s.calls[t]
  {
    var t := s.shared.owner.closer;
    match a
    case CallStep(u, k) =>
      if u in s.calls {
        assert OwnedBy(s, u, s.calls[u]);
      }
      CallFrame(c, s, u, k);
    case WriterStep(w) => WriterFrame(c, s, w);
    case EmitStep(u, e) => EmitFrame(c, s, u, e);
    case ReaderStep(u, r) => ReaderFrame(c, s, u, r);
  }

  // ---- The close in progress ---------------------------------------------------------------------------

  /** Stop to be raised, and workers to be joined. */
  function CloserRank(k: Call): nat {
    if k.RaisingStop? then 4
    else if !k.Joining? then 0
    else if k.worker.EventReader? then 3
    else if k.worker.AclReader? then 2
    else 1
  }

  function JoinRank(c: Config, s: State, k: Call): nat {
    if k.Joining? then WorkRank(c, s, k.worker) else 0
  }

  function StateTaken(s: State): nat {
    if s.shared.lock == None then 0 else 1
  }

  /** The close in progress is nearer to its end. */
  predicate Nearer(c: Config, s: State, z: State, t: Thread)
    requires t in s.calls && t in z.calls
  {
    var k, q := s.calls[t], z.calls[t];
    || CloserRank(q) < CloserRank(k)
    || (q == k && JoinRank(c, z, k) < JoinRank(c, s, k))
    || (q == k && JoinRank(c, z, k) <= JoinRank(c, s, k) && StateTaken(z) < StateTaken(s))
  }

  /** Some step finishes the close or brings it nearer to its end. */
  lemma CloseGoesOn(c: Config, s: State) returns (a: Action)
    requires EngineInv(c, s) && s.shared.owner.Closing?
    ensures s.shared.owner.closer in s.calls && Enabled(c, s, a)
    ensures var t, z := s.shared.owner.closer, Apply(c, s, a);
      || (z.shared.owner.Dropped? && t !in z.calls)
      || (z.shared.owner == s.shared.owner && t in z.calls && Nearer(c, s, z, t))
  {
    var t := s.shared.owner.closer;
    var k := s.calls[t];
    assert OwnedBy(s, t, k);
    if s.shared.lock.Some? {
      var h := s.shared.lock.value;
      a := Leaving(s, h);
      HolderLeaves(c, s, h);
      HolderRuns(s, h);
      assert Holds(s, h);
      CloserWaits(c, s, a);
      if k.Joining? {
        LeavingRank(c, s, h, k.worker);
      }
    } else if k.RaisingStop? {
      a := CallStep(t, CallAction.RaiseStop);
    } else if WorkerFinished(s, k.worker) {
      a := CallStep(t, Join);
    } else {
      a := NextOfWorker(c, s, k.worker);
      WorkerGoesOn(c, s, k.worker);
      CloserWaits(c, s, a);
    }
  }

  lemma {:induction false} CloseRuns(c: Config, s: State) returns (acts: seq<Action>, z: State)
    requires EngineInv(c, s) && s.shared.owner.Closing? && s.shared.owner.closer in s.calls
    ensures Run(c, s, acts, z) && EngineInv(c, z)
    ensures z.shared.owner.Dropped? && s.shared.owner.closer !in z.calls
    decreases CloserRank(s.calls[s.shared.owner.closer]), JoinRank(c, s, s.calls[s.shared.owner.closer]), StateTaken(s)
  {
    var a := CloseGoesOn(c, s);
    var y := Apply(c, s, a);
    EngineKept(c, s, a);
    if y.shared.owner.Dropped? {
      acts, z := [a], y;
      assert Run(c, y, [], y) && [a][1..] == [];
    } else {
      var rest;
      rest, z := CloseRuns(c, y);
      acts := [a] + rest;
      assert acts[1..] == rest;
    }
  }

  // ---- Main results ------------------------------------------------------------------------------------

  /** The session is gone, with every worker finished, nothing in flight and every success acknowledged. */
  predicate SessionOver(z: State) {
    && z.shared.owner.Dropped? && z.shared.stop && !z.shared.receiverAlive
    && z.event.pc.ReaderFinished? && z.acl.pc.ReaderFinished? && z.writer.pc.Finished?
    && z.writer.inFlight == 0 && z.writer.queue == []
    && z.log.acked == Ended(z.log.results, true)
  }

  /** From every reachable state in which a close is under way, some run ends it: the close returns and
      the session is over. */
  lemma CloseCanReturn(c: Config, s: State) returns (acts: seq<Action>, z: State)
    requires Reachable(c, s) && s.shared.owner.Closing?
    ensures Run(c, s, acts, z)
    ensures s.shared.owner.closer in s.calls && s.shared.owner.closer !in z.calls && SessionOver(z)
  {
    EngineReachable(c, s);
    acts, z := CloseRuns(c, s);
  }

  /** `acts` leads from `s` to `z`, and what every step keeps still holds. */
  ghost predicate Leads(c: Config, s: State, acts: seq<Action>, z: State) {
    Run(c, s, acts, z) && EngineInv(c, z)
  }

  lemma OneStep(c: Config, s: State, a: Action)
    requires EngineInv(c, s) && Enabled(c, s, a)
    ensures Leads(c, s, [a], Apply(c, s, a))
  {
    EngineKept(c, s, a);
    assert [a][1..] == [] && Run(c, Apply(c, s, a), [], Apply(c, s, a));
  }

  lemma Onward(c: Config, s: State, acts: seq<Action>, y: State, more: seq<Action>, z: State)
    requires Leads(c, s, acts, y) && Leads(c, y, more, z)
    ensures Leads(c, s, acts + more, z)
  {
    RunConcat(c, s, acts, y, more, z);
  }

  /** Whoever is inside STATE leaves it. */
  lemma StateFreed(c: Config, s: State, t: Thread) returns (acts: seq<Action>, z: State)
    requires EngineInv(c, s) && t !in s.calls && t.Client?
    ensures Leads(c, s, acts, z) && z.shared.lock == None && t !in z.calls
  {
    acts, z := [], s;
    if s.shared.lock.Some? {
      var h := s.shared.lock.value;
      HolderLeaves(c, s, h);
      assert Holds(s, h);
      acts, z := [Leaving(s, h)], Apply(c, s, Leaving(s, h));
      OneStep(c, s, Leaving(s, h));
    }
  }

  lemma EntersState(c: Config, s: State, t: Thread) returns (z: State)
    requires EngineInv(c, s) && s.shared.lock == None && t in s.calls && s.calls[t].Waiting?
    ensures Leads(c, s, [CallStep(t, Enter)], z)
    ensures z.calls == s.calls[t := Inside(s.calls[t].op)] && z.shared.owner == s.shared.owner
  {
    z := Apply(c, s, CallStep(t, Enter));
    OneStep(c, s, CallStep(t, Enter));
  }

  /** An open in progress stores its session. */
  lemma OpenCompletes(c: Config, s: State, t: Thread) returns (acts: seq<Action>, z: State)
    requires EngineInv(c, s) && s.shared.lock == None && s.shared.owner.Opening? && t !in s.calls
    ensures Leads(c, s, acts, z) && z.shared.lock == None && z.shared.owner.Published? && t !in z.calls
  {
    var u := s.shared.owner.opener;
    assert OwnedBy(s, u, s.calls[u]);
    assert !Holds(s, u);
    var y := EntersState(c, s, u);
    z := Apply(c, y, CallStep(u, Store));
    OneStep(c, y, CallStep(u, Store));
    acts := [CallStep(u, Enter)] + [CallStep(u, Store)];
    Onward(c, s, [CallStep(u, Enter)], y, [CallStep(u, Store)], z);
  }

  /** `t` calls close and takes the session. */
  lemma CloseBegins(c: Config, s: State, t: Thread) returns (acts: seq<Action>, z: State)
    requires EngineInv(c, s) && s.shared.lock == None && s.shared.owner.Published? && t !in s.calls && t.Client?
    ensures Leads(c, s, acts, z) && z.shared.owner == Closing(t) && t in z.calls
  {
    var x := Apply(c, s, CallStep(t, Begin(Close)));
    OneStep(c, s, CallStep(t, Begin(Close)));
    var y := EntersState(c, x, t);
    z := Apply(c, y, CallStep(t, Take));
    OneStep(c, y, CallStep(t, Take));
    Onward(c, x, [CallStep(t, Enter)], y, [CallStep(t, Take)], z);
    acts := [CallStep(t, Begin(Close))] + ([CallStep(t, Enter)] + [CallStep(t, Take)]);
    Onward(c, s, [CallStep(t, Begin(Close))], x, [CallStep(t, Enter)] + [CallStep(t, Take)], z);
  }

  lemma {:induction false} SessionEnds(c: Config, s: State, t: Thread) returns (acts: seq<Action>, z: State)
    requires EngineInv(c, s) && s.shared.lock == None && t !in s.calls && t.Client?
    ensures Leads(c, s, acts, z) && z.shared.owner.Dropped?
    decreases if s.shared.owner.Opening? then 2 else if s.shared.owner.Published? then 1 else 0
  {
    acts, z := [], s;
    var y := s;
    if s.shared.owner.Closing? {
      acts, z := CloseRuns(c, s);
    } else if s.shared.owner.Published? {
      acts, y := CloseBegins(c, s, t);
      var rest;
      rest, z := CloseRuns(c, y);
      Onward(c, s, acts, y, rest, z);
      acts := acts + rest;
    } else if s.shared.owner.Opening? {
      acts, y := OpenCompletes(c, s, t);
      var rest;
      rest, z := SessionEnds(c, y, t);
      Onward(c, s, acts, y, rest, z);
      acts := acts + rest;
    }
  }

  /** No reachable state is beyond closing: as long as some client is free to call close, some run ends
      the session, whatever its threads and its handlers are in the middle of. */
  lemma SessionCanEnd(c: Config, s: State, t: Thread) returns (acts: seq<Action>, z: State)
    requires Reachable(c, s) && t.Client? && t !in s.calls
    ensures Run(c, s, acts, z) && SessionOver(z)
  {
    EngineReachable(c, s);
    var first, y := StateFreed(c, s, t);
    var rest;
    rest, z := SessionEnds(c, y, t);
    acts := first + rest;
    Onward(c, s, first, y, rest, z);
  }
}
