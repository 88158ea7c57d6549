/** Who may send, what is sent, and which handler hears of it, told from the steps of a run alone: the
    last handler registered, the close that took the session, the calls that found it active. */
module TransportAdmission {
  import opened Wrappers
  import opened TransportModel
  import opened TransportRoles
  import opened TransportInvariants
  import opened TransportLedger
  import opened TransportHistory
  import opened TransportTheorems
  import opened TransportAccounts

  /** `front` leads to the state in which the last step is taken. */
  lemma {:induction false} BeforeLast(c: Config, s: State, front: seq<Action>, a: Action, z: State) returns (y: State)
    requires Run(c, s, front + [a], z)
    ensures Run(c, s, front, y) && Enabled(c, y, a) && z == Apply(c, y, a)
    decreases |front|
  {
    if front == [] {
      y := s;
    } else {
      assert (front + [a])[1..] == front[1..] + [a];
      y := BeforeLast(c, Apply(c, s, front[0]), front[1..], a, z);
    }
  }

  // ---- What the steps say ----------------------------------------------------------------------------

  /** What the call that `t` last began is for; the opener's call was there from the start. */
  function Asked(acts: seq<Action>, t: Thread): Op {
    if acts == [] then Publish
    else
      var front, a := acts[..|acts| - 1], acts[|acts| - 1];
      if a.CallStep? && a.caller == t && a.call.Begin? then a.call.op else Asked(front, t)
  }

  /** The open has stored its session. */
  predicate Opened(acts: seq<Action>) {
    acts != [] &&
    var front, a := acts[..|acts| - 1], acts[|acts| - 1];
    (a.CallStep? && a.call.Store?) || Opened(front)
  }

  /** The first call to take the session after it was stored. */
  function Taker(acts: seq<Action>): Option<Thread> {
    if acts == [] then None
    else
      var front, a := acts[..|acts| - 1], acts[|acts| - 1];
      if Taker(front) == None && Opened(front) && a.CallStep? && a.call.Take? then Some(a.caller) else Taker(front)
  }

  predicate Active(acts: seq<Action>) {
    Opened(acts) && Taker(acts) == None
  }

  predicate Joined(a: Action) {
    a.CallStep? && a.call.Join?
  }

  function Joins(acts: seq<Action>): nat {
    if acts == [] then 0 else Joins(acts[..|acts| - 1]) + Bit(Joined(acts[|acts| - 1]))
  }

  /** The call that `t` is in found the session active. */
  predicate Admitted(acts: seq<Action>, t: Thread) {
    acts != [] &&
    var front, a := acts[..|acts| - 1], acts[|acts| - 1];
    if a == CallStep(t, Snapshot) then Active(front)
    else Admitted(front, t) && !(a.CallStep? && a.caller == t && a.call.Begin?)
  }

  /** What the steps say after one more. */
  lemma OneMore(acts: seq<Action>, a: Action, t: Thread)
    ensures var all := acts + [a];
      && Asked(all, t) == (if a.CallStep? && a.caller == t && a.call.Begin? then a.call.op else Asked(acts, t))
      && Opened(all) == ((a.CallStep? && a.call.Store?) || Opened(acts))
      && Taker(all) == (if Taker(acts) == None && Opened(acts) && a.CallStep? && a.call.Take? then Some(a.caller)
                        else Taker(acts))
      && Joins(all) == Joins(acts) + Bit(Joined(a))
      && Admitted(all, t) == (if a == CallStep(t, Snapshot) then Active(acts)
                              else Admitted(acts, t) && !(a.CallStep? && a.caller == t && a.call.Begin?))
  {
    assert (acts + [a])[..|acts|] == acts;
  }

  // ---- Who owns the session --------------------------------------------------------------------------

  /** Joins made by a close at this stage. */
  function JoinsAt(k: Call): nat {
    if !k.Joining? || k.worker.EventReader? then 0 else if k.worker.AclReader? then 1 else 2
  }

  predicate OwnerTold(acts: seq<Action>, opener: Thread, s: State) {
    && s.shared.owner == (
         if !Opened(acts) then Opening(opener)
         else match Taker(acts)
              case None => Published
              case Some(t) => if Joins(acts) < 3 then Closing(t) else Dropped)
    && (Taker(acts) == None ==> Joins(acts) == 0)
    && (!Opened(acts) ==> Taker(acts) == None)
    && forall t | t in s.calls :: IsClosing(s.calls[t]) ==> Joins(acts) == JoinsAt(s.calls[t])
  }

  lemma OwnerToldByCall(c: Config, acts: seq<Action>, opener: Thread, s: State, t: Thread, a: CallAction)
    requires EngineInv(c, s) && OwnerTold(acts, opener, s) && CallEnabled(c, s, t, a)
    ensures OwnerTold(acts + [CallStep(t, a)], opener, CallApply(c, s, t, a))
  {
    OneMore(acts, CallStep(t, a), t);
    CallFrame(c, s, t, a);
    if Moves(a) {
      assert OwnedBy(s, t, s.calls[t]);
      MoveTold(c, acts, opener, s, t, a);
    } else {
      QuietCall(c, s, t, a);
    }
  }

  lemma MoveTold(c: Config, acts: seq<Action>, opener: Thread, s: State, t: Thread, a: CallAction)
    requires OwnerInv(s) && OwnerTold(acts, opener, s) && CallEnabled(c, s, t, a) && Moves(a)
    ensures OwnerTold(acts + [CallStep(t, a)], opener, CallApply(c, s, t, a))
  {
    OneMore(acts, CallStep(t, a), t);
    CallFrame(c, s, t, a);
    assert OwnedBy(s, t, s.calls[t]);
    var z := CallApply(c, s, t, a);
    forall u | u in z.calls && IsClosing(z.calls[u])
      ensures Joins(acts + [CallStep(t, a)]) == JoinsAt(z.calls[u])
    {
      if u != t {
        assert OwnedBy(s, u, s.calls[u]);
      }
    }
  }

  lemma OwnerStep(c: Config, acts: seq<Action>, opener: Thread, s: State, a: Action)
    requires EngineInv(c, s) && OwnerTold(acts, opener, s) && Enabled(c, s, a)
    ensures OwnerTold(acts + [a], opener, Apply(c, s, a))
  {
    OneMore(acts, a, Writer);
    match a
    case CallStep(t, k) => OwnerToldByCall(c, acts, opener, s, t, k);
    case WriterStep(w) => WriterFrame(c, s, w);
    case EmitStep(t, e) => EmitFrame(c, s, t, e);
    case ReaderStep(t, r) => ReaderFrame(c, s, t, r);
  }

  /** The session is being opened until the open stores it, then published until the first close takes it,
      then closing until that close has made its three joins, then gone. */
  lemma {:induction false} OwnerAccount(c: Config, s: State, acts: seq<Action>, z: State)
    requires Init(c, s) && Run(c, s, acts, z)
    ensures EngineInv(c, z) && OwnerTold(acts, s.shared.owner.opener, z)
    decreases |acts|
  {
    if acts == [] {
      EngineInit(c, s);
    } else {
      var front, a := acts[..|acts| - 1], acts[|acts| - 1];
      assert acts == front + [a];
      var y := BeforeLast(c, s, front, a, z);
      OwnerAccount(c, s, front, y);
      EngineKept(c, y, a);
      OwnerStep(c, front, s.shared.owner.opener, y, a);
    }
  }

  // ---- What each call is doing -----------------------------------------------------------------------

  /** A call does what it was asked to do, and goes beyond its snapshot only if that found the session. */
  predicate CallTold(acts: seq<Action>, t: Thread, k: Call) {
    match k
    case Waiting(op) => op == Asked(acts, t)
    case Inside(op) => op == Asked(acts, t)
    case Loading(ty, data) => Admitted(acts, t) && Asked(acts, t) == Send(ty, data)
    case Exchanging(ty, data, _) => Admitted(acts, t) && Asked(acts, t) == Send(ty, data)
    case Reserved(ty, data) => Admitted(acts, t) && Asked(acts, t) == Send(ty, data)
    case GivingBack => Admitted(acts, t) && Asked(acts, t).Send?
    case _ => Asked(acts, t) == Close && Taker(acts) == Some(t)
  }

  ghost predicate CallsTold(acts: seq<Action>, s: State) {
    forall t | t in s.calls :: CallTold(acts, t, s.calls[t])
  }

  lemma CallToldStep(c: Config, acts: seq<Action>, opener: Thread, s: State, t: Thread, a: CallAction)
    requires OwnerTold(acts, opener, s) && CallEnabled(c, s, t, a)
    requires t in s.calls ==> CallTold(acts, t, s.calls[t])
    requires t in s.calls && IsClosing(s.calls[t]) ==> s.shared.owner == Closing(t)
    ensures var z := CallApply(c, s, t, a);
      t in z.calls ==> CallTold(acts + [CallStep(t, a)], t, z.calls[t])
  {
    OneMore(acts, CallStep(t, a), t);
  }

  /** A step of somebody else. */
  lemma CallToldStays(acts: seq<Action>, a: Action, t: Thread, k: Call)
    requires CallTold(acts, t, k) && !(a.CallStep? && a.caller == t)
    ensures CallTold(acts + [a], t, k)
  {
    OneMore(acts, a, t);
  }

  lemma CallsStep(c: Config, acts: seq<Action>, opener: Thread, s: State, a: Action)
    requires EngineInv(c, s) && OwnerTold(acts, opener, s) && CallsTold(acts, s) && Enabled(c, s, a)
    ensures CallsTold(acts + [a], Apply(c, s, a))
  {
    var z := Apply(c, s, a);
    match a {
      case CallStep(t, k) =>
        CallFrame(c, s, t, k);
        if t in s.calls {
          assert OwnedBy(s, t, s.calls[t]);
        }
        CallToldStep(c, acts, opener, s, t, k);
      case WriterStep(w) => WriterFrame(c, s, w);
      case EmitStep(t, e) => EmitFrame(c, s, t, e);
      case ReaderStep(t, r) => ReaderFrame(c, s, t, r);
    }
    forall u | u in z.calls ensures CallTold(acts + [a], u, z.calls[u]) {
      if !(a.CallStep? && a.caller == u) {
        CallToldStays(acts, a, u, s.calls[u]);
      }
    }
  }

  lemma {:induction false} CallAccount(c: Config, s: State, acts: seq<Action>, z: State)
    requires Init(c, s) && Run(c, s, acts, z)
    ensures CallsTold(acts, z)
    decreases |acts|
  {
    if acts != [] {
      var front, a := acts[..|acts| - 1], acts[|acts| - 1];
      assert acts == front + [a];
      var y := BeforeLast(c, s, front, a, z);
      CallAccount(c, s, front, y);
      OwnerAccount(c, s, front, y);
      CallsStep(c, front, s.shared.owner.opener, y, a);
    }
  }

  /** A step that touches the counter or the channel for a sender. */
  predicate UsesSession(k: CallAction) {
    k.Load? || k.Refuse? || k.CasOk? || k.CasFail? || k.Reject? || k.TrySend? || k.GiveBack?
  }

  /** Only a send whose snapshot found the session active ever touches the counter or the channel. */
  lemma OnlyAdmittedSend(c: Config, s: State, acts: seq<Action>, z: State, t: Thread, k: CallAction)
    requires Init(c, s) && Run(c, s, acts, z) && CallEnabled(c, z, t, k) && UsesSession(k)
    ensures Admitted(acts, t) && Asked(acts, t).Send?
    ensures Opened(acts)
  {
    CallAccount(c, s, acts, z);
    AdmittedOpened(acts, t);
  }

  lemma {:induction false} AdmittedOpened(acts: seq<Action>, t: Thread)
    requires Admitted(acts, t)
    ensures Opened(acts)
  {
    if acts[|acts| - 1] != CallStep(t, Snapshot) {
      AdmittedOpened(acts[..|acts| - 1], t);
    }
  }

  /** Until the session is stored no step uses it. */
  lemma UnusedBeforeOpen(c: Config, s: State, acts: seq<Action>, z: State, a: Action)
    requires Init(c, s) && Run(c, s, acts, z) && !Opened(acts) && Enabled(c, z, a) && Pending(z) == 0
    ensures !ReservedOne(a) && !Releases(a) && !(a.CallStep? && a.call.TrySend?)
  {
    match a
    case CallStep(t, k) =>
      if UsesSession(k) {
        OnlyAdmittedSend(c, s, acts, z, t, k);
      }
    case WriterStep(w) =>
      OwnerAccount(c, s, acts, z);
      ReleaserCounted(c, z, w);
    case _ =>
  }

  /** Until the session is stored nothing is reserved, and nothing is accepted. */
  lemma {:induction false} NothingBeforeOpen(c: Config, s: State, acts: seq<Action>, z: State)
    requires Init(c, s) && Run(c, s, acts, z) && z.shared.owner.Opening?
    ensures !Opened(acts) && z.log.accepted == [] && |z.shared.mods| == 1 && Pending(z) == 0
    decreases |acts|
  {
    OwnerAccount(c, s, acts, z);
    if acts != [] {
      var front, a := acts[..|acts| - 1], acts[|acts| - 1];
      assert acts == front + [a];
      var y := BeforeLast(c, s, front, a, z);
      OneMore(front, a, Writer);
      OwnerAccount(c, s, front, y);
      NothingBeforeOpen(c, s, front, y);
      UnusedBeforeOpen(c, s, front, y, a);
      CounterStep(c, y, a);
      AcceptedStep(c, y, a, Publish);
    }
  }

  // ---- What is accepted ------------------------------------------------------------------------------

  /** The packets the channel has taken: at each try_send the packet that the call was asked to send,
      unless the writer has left or as many packets are waiting as the channel holds. */
  function Accepted(c: Config, acts: seq<Action>): seq<Packet> {
    if acts == [] then []
    else
      var front, a := acts[..|acts| - 1], acts[|acts| - 1];
      var already := Accepted(c, front);
      if a.CallStep? && a.call.TrySend? && HowMany(LeftThread, front) == 0
         && |already| < HowMany(ReceivedOne, front) + c.capacity
      then already + PacketAsked(Asked(front, a.caller))
      else already
  }

  function PacketAsked(op: Op): seq<Packet> {
    if op.Send? && op.ty.Supported? then [Packet(op.ty.kind, op.data)] else []
  }

  lemma AcceptedStep(c: Config, s: State, a: Action, asked: Op)
    requires Enabled(c, s, a)
    requires a.CallStep? && a.call.TrySend? ==>
      a.caller in s.calls && s.calls[a.caller].Reserved? && asked == Send(s.calls[a.caller].ty, s.calls[a.caller].data)
    ensures Apply(c, s, a).log.accepted ==
      if a.CallStep? && a.call.TrySend? && TrySendAccepts(c, s) then s.log.accepted + PacketAsked(asked)
      else s.log.accepted
  {
    match a
    case CallStep(t, k) =>
      if !(k.TrySend? && TrySendAccepts(c, s)) {
        LogUntouched(c, s, t, k);
      }
    case WriterStep(w) =>
    case EmitStep(t, e) => EmitLogs(c, s, t, e);
    case ReaderStep(t, r) => ReaderFrame(c, s, t, r);
  }

  /** While the receiver is alive, what was accepted and not yet received is in the channel. */
  lemma WaitingPackets(c: Config, s: State, acts: seq<Action>, z: State)
    requires Init(c, s) && Run(c, s, acts, z)
    ensures z.shared.receiverAlive <==> HowMany(LeftThread, acts) == 0
    ensures z.shared.receiverAlive ==> |z.log.accepted| == HowMany(ReceivedOne, acts) + |z.shared.channel|
  {
    EngineInit(c, s);
    EngineRun(c, s, acts, z);
    StopAccount(c, s, acts, z);
    WriterAccount(c, s, acts, z);
  }

  /** The channel has accepted exactly the packets that the steps say, in order: each is what its call was
      asked to send. */
  lemma {:induction false} AcceptedAccount(c: Config, s: State, acts: seq<Action>, z: State)
    requires Init(c, s) && Run(c, s, acts, z)
    ensures z.log.accepted == Accepted(c, acts)
    decreases |acts|
  {
    if acts != [] {
      var front, a := acts[..|acts| - 1], acts[|acts| - 1];
      assert acts == front + [a];
      var y := BeforeLast(c, s, front, a, z);
      AcceptedAccount(c, s, front, y);
      WaitingPackets(c, s, front, y);
      CallAccount(c, s, front, y);
      AcceptedStep(c, y, a, if a.CallStep? then Asked(front, a.caller) else Publish);
    }
  }

  // ---- After the close -------------------------------------------------------------------------------

  /** The calls that already have the session's handles. */
  function Senders(s: State): set<Thread> {
    set t | t in s.calls && SenderIn(s, t)
  }

  predicate SenderIn(s: State, t: Thread) {
    t in s.calls && HasSender(s.calls[t])
  }

  predicate Taken(s: State) {
    s.shared.owner.Closing? || s.shared.owner.Dropped?
  }

  lemma SendersStep(s: State, z: State, t: Thread)
    requires OtherCallsSame(s, z, t)
    ensures |Senders(z)| - Bit(SenderIn(z, t)) == |Senders(s)| - Bit(SenderIn(s, t))
  {
    forall u ensures u in Senders(z) - {t} <==> u in Senders(s) - {t} {
      assert u != t ==> (SenderIn(z, u) <==> SenderIn(s, u));
    }
    SameButOne(Senders(z), Senders(s), t);
  }

  lemma CallAfterTake(c: Config, s: State, t: Thread, a: CallAction)
    requires BaseInv(s) && Taken(s) && CallEnabled(c, s, t, a)
    ensures var z := CallApply(c, s, t, a);
      |z.log.accepted| + Bit(SenderIn(z, t)) <= |s.log.accepted| + Bit(SenderIn(s, t))
  {
  }

  lemma StaysTaken(c: Config, s: State, a: Action)
    requires EngineInv(c, s) && Taken(s) && Enabled(c, s, a)
    ensures Taken(Apply(c, s, a))
  {
    match a
    case CallStep(t, k) =>
      if t in s.calls {
        assert OwnedBy(s, t, s.calls[t]);
      }
      if !Moves(k) {
        QuietCall(c, s, t, k);
      }
    case WriterStep(w) => WriterFrame(c, s, w);
    case EmitStep(t, e) => EmitFrame(c, s, t, e);
    case ReaderStep(t, r) => ReaderFrame(c, s, t, r);
  }

  lemma AfterTakeStep(c: Config, s: State, a: Action)
    requires EngineInv(c, s) && Taken(s) && Enabled(c, s, a)
    ensures var z := Apply(c, s, a);
      |z.log.accepted| + |Senders(z)| <= |s.log.accepted| + |Senders(s)|
  {
    var z := Apply(c, s, a);
    match a
    case CallStep(t, k) =>
      CallFrame(c, s, t, k);
      SendersStep(s, z, t);
      CallAfterTake(c, s, t, k);
    case WriterStep(w) =>
      WriterFrame(c, s, w);
      assert Senders(z) == Senders(s);
    case EmitStep(t, e) =>
      EmitFrame(c, s, t, e);
      EmitLogs(c, s, t, e);
      assert Senders(z) == Senders(s);
    case ReaderStep(t, r) =>
      ReaderFrame(c, s, t, r);
      assert Senders(z) == Senders(s);
  }

  /** Once a close has taken the session, in every continuation, no more packets are accepted than there
      were calls that already had the session's handles; and the session does not come back. */
  lemma {:induction false} LastSends(c: Config, s: State, acts: seq<Action>, z: State)
    requires EngineInv(c, s) && Taken(s) && Run(c, s, acts, z)
    ensures Taken(z)
    ensures |z.log.accepted| <= |s.log.accepted| + |Senders(s)|
    ensures |z.log.accepted| + |Senders(z)| <= |s.log.accepted| + |Senders(s)|
    decreases |acts|
  {
    if acts != [] {
      EngineKept(c, s, acts[0]);
      StaysTaken(c, s, acts[0]);
      AfterTakeStep(c, s, acts[0]);
      LastSends(c, Apply(c, s, acts[0]), acts[1..], z);
    }
  }

  // ---- Which handler is called -----------------------------------------------------------------------

  /** Whether a handler is registered: as the last registration asked, else as it `was`. */
  predicate Registered(was: bool, acts: seq<Action>) {
    if acts == [] then was
    else
      var front, a := acts[..|acts| - 1], acts[|acts| - 1];
      if a.CallStep? && a.call.SetHandler? then Asked(front, a.caller) == Register(true) else Registered(was, front)
  }

  /** Whether worker `t` found a handler when it last looked. */
  predicate FoundHandler(was: bool, acts: seq<Action>, t: Thread) {
    acts != [] &&
    var front, a := acts[..|acts| - 1], acts[|acts| - 1];
    if a == EmitStep(t, ReadHandler) then Registered(was, front) else FoundHandler(was, front, t)
  }

  /** How often worker `t` called the handler: once for every dispatch for which it had found one. */
  function Called(was: bool, acts: seq<Action>, t: Thread): nat {
    if acts == [] then 0
    else
      var front, a := acts[..|acts| - 1], acts[|acts| - 1];
      Called(was, front, t) + Bit(DispatchedBy(t, a) && FoundHandler(was, front, t))
  }

  function Returned(acts: seq<Action>, t: Thread): nat {
    if acts == [] then 0 else Returned(acts[..|acts| - 1], t) + Bit(acts[|acts| - 1] == EmitStep(t, Return))
  }

  lemma OneMoreHandler(was: bool, acts: seq<Action>, a: Action, t: Thread)
    ensures var all := acts + [a];
      && Registered(was, all) == (if a.CallStep? && a.call.SetHandler? then Asked(acts, a.caller) == Register(true)
                                  else Registered(was, acts))
      && FoundHandler(was, all, t) == (if a == EmitStep(t, ReadHandler) then Registered(was, acts)
                                       else FoundHandler(was, acts, t))
      && Called(was, all, t) == Called(was, acts, t) + Bit(DispatchedBy(t, a) && FoundHandler(was, acts, t))
      && Returned(all, t) == Returned(acts, t) + Bit(a == EmitStep(t, Return))
  {
    assert (acts + [a])[..|acts|] == acts;
  }

  /** Worker `t` is in its handler as often as it called it and has not returned, and is about to call it
      exactly if it found one. */
  predicate EmissionTold(was: bool, acts: seq<Action>, e: Option<Emit>, t: Thread) {
    && (e.Some? && e.value.Calling? ==> (e.value.present <==> FoundHandler(was, acts, t)))
    && Called(was, acts, t) == Returned(acts, t) + Bit(e == Some(Handling))
  }

  lemma HandlerByCall(c: Config, s: State, t: Thread, a: CallAction, asked: Op)
    requires CallEnabled(c, s, t, a)
    requires t in s.calls && s.calls[t].Inside? ==> s.calls[t].op == asked
    ensures CallApply(c, s, t, a).shared.handler == if a.SetHandler? then asked == Register(true) else s.shared.handler
  {
  }

  lemma HandlerByWriter(c: Config, s: State, a: WriterAction)
    requires WriterEnabled(c, s, a)
    ensures WriterApply(c, s, a).shared.handler == s.shared.handler
  {
  }

  lemma HandlerStep(c: Config, acts: seq<Action>, s: State, a: Action, was: bool)
    requires CallsTold(acts, s) && Enabled(c, s, a) && s.shared.handler == Registered(was, acts)
    ensures Apply(c, s, a).shared.handler == Registered(was, acts + [a])
  {
    OneMoreHandler(was, acts, a, Writer);
    match a
    case CallStep(t, k) => HandlerByCall(c, s, t, k, Asked(acts, t));
    case WriterStep(w) => HandlerByWriter(c, s, w);
    case EmitStep(t, e) => EmitFrame(c, s, t, e);
    case ReaderStep(t, r) => ReaderFrame(c, s, t, r);
  }

  lemma {:induction false} HandlerAccount(c: Config, s: State, acts: seq<Action>, z: State)
    requires Init(c, s) && Run(c, s, acts, z)
    ensures z.shared.handler == Registered(s.shared.handler, acts)
    decreases |acts|
  {
    if acts != [] {
      var front, a := acts[..|acts| - 1], acts[|acts| - 1];
      assert acts == front + [a];
      var y := BeforeLast(c, s, front, a, z);
      HandlerAccount(c, s, front, y);
      CallAccount(c, s, front, y);
      HandlerStep(c, front, y, a, s.shared.handler);
    }
  }

  lemma EmissionByEmit(c: Config, acts: seq<Action>, s: State, t: Thread, a: EmitAction, was: bool)
    requires EmissionTold(was, acts, EmitOf(s, t), t) && EmitEnabled(s, t, a)
    requires s.shared.handler == Registered(was, acts)
    ensures EmissionTold(was, acts + [EmitStep(t, a)], EmitOf(EmitApply(s, t, a), t), t)
  {
    OneMoreHandler(was, acts, EmitStep(t, a), t);
  }

  lemma EmissionStep(c: Config, acts: seq<Action>, s: State, a: Action, t: Thread, was: bool)
    requires EmissionTold(was, acts, EmitOf(s, t), t) && Enabled(c, s, a)
    requires s.shared.handler == Registered(was, acts)
    ensures EmissionTold(was, acts + [a], EmitOf(Apply(c, s, a), t), t)
  {
    if a.EmitStep? && a.worker == t {
      EmissionByEmit(c, acts, s, t, a.emit, was);
    } else {
      OneMoreHandler(was, acts, a, t);
      EmissionElsewhere(c, s, a, t);
    }
  }

  /** A step that is not part of `t`'s emission can only start one. */
  lemma EmissionElsewhere(c: Config, s: State, a: Action, t: Thread)
    requires Enabled(c, s, a) && !(a.EmitStep? && a.worker == t)
    ensures var z := Apply(c, s, a);
      EmitOf(z, t) == EmitOf(s, t) || (EmitOf(s, t) == None && EmitOf(z, t) == Some(Entering))
  {
    match a
    case CallStep(u, k) => CallFrame(c, s, u, k);
    case WriterStep(w) => WriterFrame(c, s, w);
    case EmitStep(u, e) => EmitFrame(c, s, u, e);
    case ReaderStep(u, r) => ReaderFrame(c, s, u, r);
  }

  /** The handler is the one registered last, and a worker calls it once for every dispatch for which it
      had found one registered, and never otherwise. */
  lemma {:induction false} HandlerCalls(c: Config, s: State, acts: seq<Action>, z: State, t: Thread)
    requires Init(c, s) && Run(c, s, acts, z)
    ensures z.shared.handler == Registered(s.shared.handler, acts)
    ensures EmissionTold(s.shared.handler, acts, EmitOf(z, t), t)
    decreases |acts|
  {
    HandlerAccount(c, s, acts, z);
    if acts != [] {
      var front, a := acts[..|acts| - 1], acts[|acts| - 1];
      assert acts == front + [a];
      var y := BeforeLast(c, s, front, a, z);
      HandlerCalls(c, s, front, y, t);
      EmissionStep(c, front, y, a, t, s.shared.handler);
    }
  }
}
