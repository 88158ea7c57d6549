/** The threads of the transport as imperative code over one shared session.

    A Session holds the shared memory as the other threads see it, together with the trace of steps
    taken so far.  Each method below follows the control flow of one function of the source, with
    its own local variables; between any two of its accesses the rest of the program takes any steps
    it likes.  Every method keeps `Valid`: what the code did is a run of the transition system, so
    the results about runs are results about this code.  Transfers end, and loads of stop are stale, as
    a fixed World has it.

    The source loops for as long as it takes.  Here a wait has a bound on its patience, and a method
    that gives up says so, with its thread still waiting for STATE, for a join or for its handler; the
    writer's endless loop has a number of turns, each of which takes a step of its own. */
module TransportSession {
  import opened ByteTypes
  import opened Wrappers
  import opened TransportModel
  import opened TransportRoles
  import opened TransportInvariants
  import opened TransportLedger
  import opened TransportHistory
  import opened TransportReaders
  import opened TransportTheorems
  import opened TransportDeadlock
  import opened TransportAccounts

  datatype Received = Got(packet: Packet) | TimedOut
  datatype Reservation = Taken | Refused
  datatype Turn = More | Enough | Stuck
  datatype SendResult = Accepted | Rejected | Unfinished

  /** Every step from position `lo` on is foreign to `me`. */
  ghost predicate ForeignFrom(me: Role, acts: seq<Action>, lo: nat) {
    forall i | lo <= i < |acts| :: Foreign(me, acts[i])
  }

  predicate WritesCounter(t: Thread, a: Action) {
    a == CallStep(t, CasOk) || a == CallStep(t, CallAction.GiveBack)
  }

  /** `t` loads the counter, or an exchange of `t` fails, at position `at` of the modification order. */
  predicate ReadsCounter(t: Thread, a: Action, at: nat) {
    a == CallStep(t, Load(at)) || a == CallStep(t, CasFail(at))
  }

  /** `t`, in its calls, makes no write to the counter from position `lo` to position `hi`. */
  ghost predicate NoWrites(t: Thread, acts: seq<Action>, lo: nat, hi: nat)
    requires hi <= |acts|
  {
    forall i | lo <= i < hi :: !WritesCounter(t, acts[i])
  }

  /** What foreign steps cannot change. */
  ghost predicate Untouched(me: Role, s: State, z: State) {
    (z.shared.receiverAlive ==> s.shared.receiverAlive) && Remembers(s, z) &&
    match me
    case CallOf(t) => (t in z.calls <==> t in s.calls) && (t in s.calls ==> z.calls[t] == s.calls[t])
    case Worker(t) =>
      && (t.Writer? ==> z.writer == s.writer && z.log.(accepted := s.log.accepted) == s.log)
      && (IsReader(t) ==> ReaderOf(z, t) == ReaderOf(s, t))
  }

  lemma ForeignStep(c: Config, s: State, a: Action, me: Role)
    requires ViewInv(s) && Enabled(c, s, a) && Foreign(me, a)
    ensures Untouched(me, s, Apply(c, s, a))
  {
    ViewsKept(c, s, a);
    match a
    case CallStep(t, k) =>
      CallFrame(c, s, t, k);
      CallLogs(c, s, t, k);
    case WriterStep(w) => WriterFrame(c, s, w);
    case EmitStep(t, e) =>
      EmitFrame(c, s, t, e);
      EmitOthers(c, s, t, e);
    case ReaderStep(t, r) => ReaderFrame(c, s, t, r);
  }

  lemma EmitOthers(c: Config, s: State, t: Thread, a: EmitAction)
    requires EmitEnabled(s, t, a)
    ensures var z := EmitApply(s, t, a);
      && (t != Writer ==> z.writer == s.writer && z.log == s.log)
      && (t != EventReader ==> z.event == s.event)
      && (t != AclReader ==> z.acl == s.acl)
  {
  }

  /** Slots reserved by calls of `t` in `acts`, less the slots its calls gave back. */
  function Balance(t: Thread, acts: seq<Action>): int {
    if acts == [] then 0
    else
      var a := acts[|acts| - 1];
      Balance(t, acts[..|acts| - 1])
        + if a == CallStep(t, CasOk) then 1 else if a == CallStep(t, CallAction.GiveBack) then -1 else 0
  }

  lemma {:induction false} QuietBalance(t: Thread, acts: seq<Action>, lo: nat)
    requires lo <= |acts| && NoWrites(t, acts, lo, |acts|)
    ensures Balance(t, acts) == Balance(t, acts[..lo])
    decreases |acts|
  {
    if lo == |acts| {
      assert acts[..lo] == acts;
    } else {
      var last := |acts| - 1;
      assert !WritesCounter(t, acts[last]);
      QuietBalance(t, acts[..last], lo);
      assert acts[..last][..lo] == acts[..lo];
    }
  }

  /** Only the last of the steps from `lo` on writes the counter for `t`. */
  lemma OneWriteBalance(t: Thread, acts: seq<Action>, lo: nat)
    requires lo < |acts| && NoWrites(t, acts, lo, |acts| - 1)
    ensures Balance(t, acts) == Balance(t, acts[..lo])
      + var a := acts[|acts| - 1];
        if a == CallStep(t, CasOk) then 1 else if a == CallStep(t, CallAction.GiveBack) then -1 else 0
  {
    var last := |acts| - 1;
    QuietBalance(t, acts[..last], lo);
    assert acts[..last][..lo] == acts[..lo];
  }

  ghost predicate StepAt(c: Config, states: seq<State>, acts: seq<Action>, i: nat)
    requires i < |acts| && |states| == |acts| + 1
  {
    Enabled(c, states[i], acts[i]) && states[i + 1] == Apply(c, states[i], acts[i])
  }

  /** The states a trace of actions passes through. */
  ghost predicate Trace(c: Config, states: seq<State>, acts: seq<Action>) {
    && |states| == |acts| + 1
    && forall i | 0 <= i < |acts| :: StepAt(c, states, acts, i)
  }

  lemma TraceGrows(c: Config, states: seq<State>, acts: seq<Action>, a: Action, z: State)
    requires Trace(c, states, acts) && Enabled(c, states[|acts|], a) && z == Apply(c, states[|acts|], a)
    ensures Trace(c, states + [z], acts + [a])
  {
    forall i | 0 <= i < |acts + [a]| ensures StepAt(c, states + [z], acts + [a], i) {
      if i < |acts| {
        assert StepAt(c, states, acts, i);
      }
    }
  }

  lemma {:induction false} TraceIsRun(c: Config, states: seq<State>, acts: seq<Action>)
    requires Trace(c, states, acts)
    ensures Run(c, states[0], acts, states[|acts|])
    decreases |acts|
  {
    if acts != [] {
      assert StepAt(c, states, acts, 0);
      forall i | 0 <= i < |acts[1..]| ensures StepAt(c, states[1..], acts[1..], i) {
        assert StepAt(c, states, acts, i + 1);
      }
      TraceIsRun(c, states[1..], acts[1..]);
    }
  }

  /** A worker's steps in an emission: it holds STATE only from the first to the second, and the
      handler, if there is one, returns before it goes on. */
  function EmissionCode(t: Thread, called: bool): seq<Action> {
    [EmitStep(t, Lock), EmitStep(t, EmitAction.ReadHandler), EmitStep(t, Dispatch)]
      + if called then [EmitStep(t, Return)] else []
  }

  /** The steps of a call, and of a close that took the session or found none. */
  function SendCode(t: Thread, ty: PacketType, data: Bytes): seq<Action> {
    [CallStep(t, Begin(Send(ty, data))), CallStep(t, Enter), CallStep(t, Snapshot)]
  }

  /** A slot that could not be used is given back. */
  function OfferCode(t: Thread, ty: PacketType, accepted: bool): seq<Action> {
    if accepted then [CallStep(t, TrySend)]
    else [CallStep(t, if ty.Supported? then TrySend else Reject), CallStep(t, CallAction.GiveBack)]
  }

  /** The compare-and-exchange loop before its last step: one load, then failed exchanges. */
  predicate IsTrying(t: Thread, acts: seq<Action>) {
    && acts != [] && IsCall(t, acts[0]) && acts[0].call.Load?
    && forall i | 1 <= i < |acts| :: IsCall(t, acts[i]) && acts[i].call.CasFail?
  }

  predicate IsCall(t: Thread, a: Action) {
    a.CallStep? && a.caller == t
  }

  /** A send that reserved a slot, or was refused one. */
  ghost predicate IsSend(t: Thread, ty: PacketType, data: Bytes, acts: seq<Action>, accepted: bool) {
    exists tries :: IsTrying(t, tries) &&
      acts == SendCode(t, ty, data) + tries + [CallStep(t, CasOk)] + OfferCode(t, ty, accepted)
  }

  ghost predicate IsRefusedSend(t: Thread, ty: PacketType, data: Bytes, acts: seq<Action>) {
    exists tries :: IsTrying(t, tries) && acts == SendCode(t, ty, data) + tries + [CallStep(t, CallAction.Refuse)]
  }

  /** What follows a snapshot that found the session active. */
  ghost predicate IsReserveAndOffer(t: Thread, ty: PacketType, before: seq<Action>, after: seq<Action>, accepted: bool) {
    exists tries :: (
      && IsTrying(t, tries)
      && (|| after == before + tries + [CallStep(t, CasOk)] + OfferCode(t, ty, accepted)
          || (!accepted && after == before + tries + [CallStep(t, CallAction.Refuse)])))
  }

  /** The steps `acts` of a call that got as far as an answer. */
  ghost predicate IsAnsweredSend(t: Thread, ty: PacketType, data: Bytes, acts: seq<Action>, accepted: bool) {
    IsSend(t, ty, data, acts, accepted) || (!accepted && IsRefusedSend(t, ty, data, acts))
  }

  lemma WholeSend(t: Thread, ty: PacketType, data: Bytes, before: seq<Action>, after: seq<Action>, accepted: bool)
    requires IsReserveAndOffer(t, ty, before + SendCode(t, ty, data), after, accepted)
    ensures before <= after && IsAnsweredSend(t, ty, data, after[|before|..], accepted)
  {
    var head := SendCode(t, ty, data);
    var tries :| IsTrying(t, tries)
      && (|| after == before + head + tries + [CallStep(t, CasOk)] + OfferCode(t, ty, accepted)
          || (!accepted && after == before + head + tries + [CallStep(t, CallAction.Refuse)]));
    if after == before + head + tries + [CallStep(t, CasOk)] + OfferCode(t, ty, accepted) {
      assert after[|before|..] == head + tries + [CallStep(t, CasOk)] + OfferCode(t, ty, accepted);
    } else {
      assert after[|before|..] == head + tries + [CallStep(t, CallAction.Refuse)];
    }
  }

  /** One more failed exchange. */
  lemma TryAgain(t: Thread, tries: seq<Action>, a: Action, before: seq<Action>, after: seq<Action>)
    requires IsTrying(t, tries) && IsCall(t, a) && a.call.CasFail? && after == before + tries + [a]
    ensures IsTrying(t, tries + [a]) && after == before + (tries + [a])
  {
  }

  function CloseCode(t: Thread, took: bool): seq<Action> {
    [CallStep(t, Begin(Close)), CallStep(t, Enter), CallStep(t, Take)]
      + if took then [CallStep(t, CallAction.RaiseStop)] + JoinCode(t) else []
  }

  function JoinCode(t: Thread): seq<Action> {
    [CallStep(t, Join), CallStep(t, Join), CallStep(t, Join)]
  }

  /** What is outside the program, by the number of the step at which it is asked: what the bulk queue
      yields, how a control transfer ends, whether a load of stop is stale. */
  datatype World = World(completed: nat -> Option<Status>, sent: nat -> bool, stale: nat -> bool)

  /** Step `a`, number `k`, taken in `s`, goes as the world has it. */
  predicate Answered(c: Config, world: World, k: nat, s: State, a: Action) {
    match a
    case WriterStep(PollNone) => world.completed(k) == None
    case WriterStep(PollSome(status)) => world.completed(k) == Some(status)
    case WriterStep(SendCommand(ok)) => ok == world.sent(k)
    case WriterStep(TestLoop(seen)) =>
      s.writer.inFlight < c.window ==> seen == StopSeen(s, s.writer.sawStop, world.stale(k))
    case WriterStep(TestCancel(seen)) => seen == StopSeen(s, s.writer.sawStop, world.stale(k))
    case WriterStep(TestZero(seen)) =>
      s.writer.inFlight == 0 ==> seen == StopSeen(s, s.writer.sawStop, world.stale(k))
    case ReaderStep(t, Test(seen)) => seen == StopSeen(s, ReaderOf(s, t).sawStop, world.stale(k))
    case _ => true
  }

  ghost predicate AllAnswered(c: Config, world: World, states: seq<State>, acts: seq<Action>)
    requires |acts| <= |states|
  {
    forall k {:trigger Answered(c, world, k, states[k], acts[k])} | 0 <= k < |acts| ::
      Answered(c, world, k, states[k], acts[k])
  }

  ghost predicate OwnOf(own: Role -> seq<Action>, acts: seq<Action>) {
    forall me {:trigger Own(me, acts)} :: own(me) == Own(me, acts)
  }

  predicate StopSeen(s: State, saw: bool, stale: bool) {
    s.shared.stop && (saw || !stale)
  }

  class Session {
    const c: Config
    const world: World
    var st: State
    var now: nat
    ghost var states: seq<State>
    ghost var trace: seq<Action>
    ghost var own: Role -> seq<Action>  // the steps of each role in the trace

    ghost predicate Valid()
      reads this
    {
      && Trace(c, states, trace)
      && Init(c, states[0])
      && st == states[|trace|] && now == |trace|
      && AllAnswered(c, world, states, trace)
      && OwnOf(own, trace)
    }

    /** The trace only grows, and stop is never lowered. */
    twostate predicate Grew()
      reads this
    {
      old(trace) <= trace && old(states) <= states && (old(st.shared.stop) ==> st.shared.stop)
    }

    /** The writer's own steps. */
    ghost function Code(): seq<Action>
      reads this
    {
      own(Worker(Writer))
    }

    /** Step `a`, taken since `lo`, found a session published, or found none. */
    ghost predicate SessionSeen(a: Action, lo: nat, active: bool)
      reads this
    {
      exists k | lo <= k < |trace| && k < |states| ::
        trace[k] == a && states[k].shared.owner.Published? == active
    }

    /** Since `lo` worker `t` found a handler registered, or found none. */
    ghost predicate HandlerSeen(t: Thread, lo: nat, present: bool)
      reads this
    {
      exists k | lo <= k < |trace| && k < |states| ::
        trace[k] == EmitStep(t, EmitAction.ReadHandler) && states[k].shared.handler == present
    }

    /** From `before` to `after` worker `t` took the steps of one emission, and it called a handler if and
        only if one was registered when it read it. */
    ghost predicate Emitted(t: Thread, lo: nat, before: seq<Action>, after: seq<Action>)
      reads this
    {
      || (after == before + EmissionCode(t, true) && HandlerSeen(t, lo, true))
      || (after == before + EmissionCode(t, false) && HandlerSeen(t, lo, false))
    }

    /** The code so far is a run, so what holds in reachable states holds now. */
    lemma IsRun()
      requires Valid()
      ensures Run(c, states[0], trace, st) && Reachable(c, st)
    {
      TraceIsRun(c, states, trace);
    }

    /** The tail of transport_open: fresh flag, counter and channel, workers started. */
    constructor (config: Config, outside: World, opener: nat)
      ensures Valid() && c == config && world == outside && trace == []
      ensures st.writer == WriterState(LoopHead, 0, false, false, [])
    {
      c, world, now := config, outside, 0;
      var r := ReaderState(ReaderHead, config.buffers, false, [], []);
      var s := State(
        Shared(None, 0, false, Opening(Client(opener)), false, [0], [], true),
        map[Client(opener) := Waiting(Publish)], map[],
        WriterState(LoopHead, 0, false, false, []), r, r,
        Log([], [], [], [], [], [], []));
      st := s;
      states := [s];
      trace := [];
      own := me => [];
    }

    /** One step of the thread whose code is running. */
    method Do(a: Action)
      requires Valid() && Enabled(c, st, a) && Answered(c, world, now, st, a)
      modifies this
      ensures Valid() && st == Apply(c, old(st), a) && trace == old(trace) + [a]
      ensures Grew()
      ensures forall me :: own(me) == if Foreign(me, a) then old(own(me)) else old(own(me)) + [a]
    {
      StopStays(c, st, a);
      forall me {
        OwnSnoc(me, trace, a);
      }
      TraceGrows(c, states, trace, a, Apply(c, st, a));
      st := Apply(c, st, a);
      states := states + [st];
      trace := trace + [a];
      now := now + 1;
      var before := own;
      own := me => if Foreign(me, a) then before(me) else before(me) + [a];
    }

    lemma ViewsInBounds()
      requires Valid()
      ensures ViewInv(st)
    {
      IsRun();
      EngineReachable(c, st);
    }

    /** One step of somebody else, if `a` is one. */
    method OtherStep(me: Role, a: Action)
      requires Valid()
      modifies this
      ensures Valid() && Grew() && Untouched(me, old(st), st)
      ensures trace == old(trace) || (trace == old(trace) + [a] && Foreign(me, a))
      ensures own(me) == old(own(me))
    {
      ViewsInBounds();
      if Foreign(me, a) && Enabled(c, st, a) && Answered(c, world, now, st, a) {
        ForeignStep(c, st, a, me);
        Do(a);
      }
    }

    /** Any number of steps by everybody else. */
    method Others(me: Role)
      requires Valid()
      modifies this
      ensures Valid() && Untouched(me, old(st), st)
      ensures Grew() && ForeignFrom(me, trace, |old(trace)|)
      ensures own(me) == old(own(me))
    {
      var n: nat := *;
      while n > 0
        invariant Valid() && Untouched(me, old(st), st) && own(me) == old(own(me))
        invariant Grew() && ForeignFrom(me, trace, |old(trace)|)
      {
        var a: Action := *;
        OtherStep(me, a);
        n := n - 1;
      }
    }

    /** Wait for STATE to be free, while the others go on. */
    method AwaitState(me: Role, patience: nat) returns (free: bool)
      requires Valid()
      modifies this
      ensures Valid() && Untouched(me, old(st), st)
      ensures Grew() && ForeignFrom(me, trace, |old(trace)|)
      ensures free <==> st.shared.lock == None
      ensures own(me) == old(own(me))
    {
      var left := patience;
      Others(me);
      while left > 0 && st.shared.lock != None
        invariant Valid() && Untouched(me, old(st), st) && own(me) == old(own(me))
        invariant Grew() && ForeignFrom(me, trace, |old(trace)|)
      {
        Others(me);
        left := left - 1;
      }
      free := st.shared.lock == None;
    }

    // ---- The writer thread -------------------------------------------------------------------------

    /** No load of the stop flag is stale. */
    ghost predicate AllFresh() {
      forall k {:trigger world.stale(k)} :: !world.stale(k)
    }

    /** recv_timeout never finds the channel disconnected, so it has two outcomes here. */
    method RecvTimeout() returns (r: Received)
      requires Valid() && st.writer.pc.Receiving?
      modifies this
      ensures Valid() && Grew()
      ensures Code() == old(Code()) + [WriterStep(if r.Got? then Receive else Timeout)]
      ensures r.TimedOut? ==> st.shared.channel == []
      ensures st.writer == old(st.writer).(pc := if r.Got? then Holding(r.packet) else CancelTest)
    {
      Others(Worker(Writer));
      assert !WriterEnabled(c, st, Disconnected) by {
        IsRun();
        ShutdownSafety(c, st);
      }
      if st.shared.channel != [] {
        var packet := st.shared.channel[0];
        Do(WriterStep(Receive));
        return Got(packet);
      }
      Do(WriterStep(Timeout));
      return TimedOut;
    }

    /** emit_packet on the writer thread.  Its steps are exactly: lock STATE, read the handler and unlock,
        dispatch, and return from the handler if and only if one was registered.  The packet is entered as
        acknowledged. */
    method EmitPacketSent(patience: nat) returns (done: bool)
      requires Valid() && st.writer.pc.Acking? && st.writer.pc.emit == Entering
      modifies this
      ensures Valid() && Grew() && old(Code()) <= Code()
      ensures if done then st.writer == old(st.writer).(pc := LoopHead) else Blocked(st, Writer)
      ensures done ==>
        && Emitted(Writer, |old(trace)|, old(Code()), Code())
        && st.log.(accepted := []) ==
          old(st.log).(accepted := [], acked := old(st.log.acked) + [old(st.writer.pc.packet)])
    {
      done := AwaitState(Worker(Writer), patience);
      if !done {
        return;
      }
      var handler := ReadHandler();
      if handler {
        done := RunHandler(patience);
      }
    }

    /** Read the handler under STATE. */
    method LookUpHandler(t: Thread) returns (present: bool)
      requires Valid() && !t.Client? && EmitOf(st, t) == Some(Entering) && st.shared.lock == None
      modifies this
      ensures Valid() && Grew()
      ensures if t.Writer? then
          && st.writer == old(st.writer).(pc := old(st.writer.pc).(emit := Calling(present)))
          && st.log.(accepted := []) == old(st.log).(accepted := [])
        else
          var r := old(ReaderOf(st, t)); ReaderOf(st, t) == r.(pc := r.pc.(emit := Calling(present)))
      ensures own(Worker(t)) == old(own(Worker(t))) + [EmitStep(t, Lock), EmitStep(t, EmitAction.ReadHandler)]
      ensures HandlerSeen(t, |old(trace)|, present)
    {
      Do(EmitStep(t, Lock));
      Others(Worker(t));
      present := st.shared.handler;
      ghost var k := |trace|;
      Do(EmitStep(t, EmitAction.ReadHandler));
      assert trace[k] == EmitStep(t, EmitAction.ReadHandler) && states[k].shared.handler == present;
    }

    method ReadHandler() returns (present: bool)
      requires Valid() && st.shared.lock == None && st.writer.pc.Acking? && st.writer.pc.emit == Entering
      modifies this
      ensures Valid() && Grew()
      ensures Code() == old(Code()) + EmissionCode(Writer, false) && HandlerSeen(Writer, |old(trace)|, present)
      ensures st.writer == old(st.writer).(pc := if present then old(st.writer.pc).(emit := Handling) else LoopHead)
      ensures st.log.(accepted := []) ==
        old(st.log).(accepted := [], acked := old(st.log.acked) + [old(st.writer.pc.packet)])
    {
      present := LookUpHandler(Writer);
      DispatchSent();
    }

    method DispatchSent()
      requires Valid() && st.writer.pc.Acking? && st.writer.pc.emit.Calling?
      modifies this
      ensures Valid() && Grew()
      ensures Code() == old(Code()) + [EmitStep(Writer, Dispatch)]
      ensures st.writer == old(st.writer).(pc :=
        if old(st.writer.pc.emit.present) then old(st.writer.pc).(emit := Handling) else LoopHead)
      ensures st.log.(accepted := []) ==
        old(st.log).(accepted := [], acked := old(st.log.acked) + [old(st.writer.pc.packet)])
    {
      Others(Worker(Writer));
      Do(EmitStep(Writer, Dispatch));
    }

    /** The handler runs: its own calls are steps of the others, and it returns when none is left. */
    method RunHandler(patience: nat) returns (done: bool)
      requires Valid() && st.writer.pc.Acking? && st.writer.pc.emit == Handling
      modifies this
      ensures Valid() && Grew()
      ensures if done then st.writer == old(st.writer).(pc := LoopHead) else Blocked(st, Writer)
      ensures Code() == if done then old(Code()) + [EmitStep(Writer, Return)] else old(Code())
      ensures st.log.(accepted := []) == old(st.log).(accepted := [])
    {
      var left := patience;
      Others(Worker(Writer));
      while left > 0 && Writer in st.calls
        invariant Valid() && Grew() && st.writer == old(st.writer) && Code() == old(Code())
        invariant st.log.(accepted := []) == old(st.log).(accepted := [])
      {
        Others(Worker(Writer));
        left := left - 1;
      }
      done := Writer !in st.calls;
      if done {
        Do(EmitStep(Writer, Return));
      }
    }

    lemma SawMeansStop()
      requires Valid()
      ensures st.writer.sawStop || st.event.sawStop || st.acl.sawStop ==> st.shared.stop
    {
      IsRun();
      BaseReachable(c, st);
    }

    /** A load of the stop flag on the writer thread, after the others have had their turn. */
    method WriterLoadsStop() returns (seen: bool)
      requires Valid()
      modifies this
      ensures Valid() && Grew() && st.writer == old(st.writer) && Code() == old(Code())
      ensures StopLoad(st, st.writer.sawStop, seen) && seen == StopSeen(st, st.writer.sawStop, world.stale(now))
    {
      Others(Worker(Writer));
      SawMeansStop();
      seen := StopSeen(st, st.writer.sawStop, world.stale(now));
    }

    predicate WriterAt(pc: WriterPc, inFlightOut: int, cancelled: bool)
      reads this
    {
      st.writer.pc == pc && st.writer.inFlight == inFlightOut && st.writer.cancelled == cancelled
    }

    /** Send one command over the control endpoint, release its slot, acknowledge it if it went well. */
    method HandleCommand(patience: nat) returns (done: bool, ok: bool)
      requires Valid() && st.writer.pc.Holding? && st.writer.pc.packet.kind.Command?
      modifies this
      ensures Valid() && Grew() && old(Code()) <= Code()
      ensures if done then st.writer == old(st.writer).(pc := LoopHead) else Blocked(st, Writer)
      ensures done ==>
        var sent := old(Code()) + [WriterStep(SendCommand(ok)), WriterStep(ReleaseCommand)];
        if ok then Emitted(Writer, |old(trace)|, sent, Code()) else Code() == sent
    {
      ok := SendAndRelease();
      done := true;
      if ok {
        done := EmitPacketSent(patience);
      }
    }

    method SendAndRelease() returns (ok: bool)
      requires Valid() && st.writer.pc.Holding? && st.writer.pc.packet.kind.Command?
      modifies this
      ensures Valid() && Grew()
      ensures st.writer == old(st.writer).(pc := if ok then Acking(old(st.writer.pc.packet), Entering) else LoopHead)
      ensures Code() == old(Code()) + [WriterStep(SendCommand(ok)), WriterStep(ReleaseCommand)]
    {
      Others(Worker(Writer));
      ok := world.sent(now);
      Do(WriterStep(SendCommand(ok)));
      Others(Worker(Writer));
      Do(WriterStep(ReleaseCommand));
    }

    method HandleBulk(inFlight: int, cancelled: bool) returns (inFlightOut: int)
      requires Valid() && st.writer.pc.Holding? && !st.writer.pc.packet.kind.Command?
      requires WriterAt(st.writer.pc, inFlight, cancelled)
      modifies this
      ensures Valid() && Grew() && old(Code()) <= Code()
      ensures WriterAt(LoopHead, inFlightOut, cancelled) && inFlightOut == inFlight + 1
      ensures st.writer.queue == old(st.writer.queue) + [old(st.writer.pc.packet)]
      ensures Code() == old(Code()) + [WriterStep(Submit), WriterStep(Count)]
    {
      Others(Worker(Writer));
      Do(WriterStep(Submit));
      Others(Worker(Writer));
      inFlightOut := inFlight + 1;
      Do(WriterStep(Count));
    }

    method HandlePacket(inFlight: int, cancelled: bool, patience: nat) returns (done: bool, inFlightOut: int)
      requires Valid() && st.writer.pc.Holding? && WriterAt(st.writer.pc, inFlight, cancelled)
      modifies this
      ensures Valid() && Grew() && old(Code()) <= Code()
      ensures if done then WriterAt(LoopHead, inFlightOut, cancelled) else Blocked(st, Writer)
    {
      done, inFlightOut := true, inFlight;
      if st.writer.pc.packet.kind.Command? {
        var ok;
        done, ok := HandleCommand(patience);
      } else {
        inFlightOut := HandleBulk(inFlightOut, cancelled);
      }
    }

    /** One turn of the inner loop: test stop, receive, handle what was received. */
    method FillTurn(inFlight: int, cancelled: bool, patience: nat) returns (turn: Turn, inFlightOut: int)
      requires Valid() && WriterAt(LoopHead, inFlight, cancelled) && inFlight < c.window
      modifies this
      ensures Valid() && Grew() && old(Code()) < Code()
      ensures match turn
        case More => WriterAt(LoopHead, inFlightOut, cancelled)
        case Enough => WriterAt(CancelTest, inFlightOut, cancelled) && inFlightOut == inFlight
        case Stuck => Blocked(st, Writer)
      ensures AllFresh() && old(st.shared.stop) ==> Code() == old(Code()) + [WriterStep(TestLoop(true))]
      ensures turn.Enough? ==>
        || Code() == old(Code()) + [WriterStep(TestLoop(true))]
        || (Code() == old(Code()) + [WriterStep(TestLoop(false)), WriterStep(Timeout)] && st.shared.channel == [])
    {
      turn, inFlightOut := Enough, inFlight;
      var seen := WriterLoadsStop();
      Do(WriterStep(TestLoop(seen)));
      if seen {
        return;
      }
      var r := RecvTimeout();
      if r.Got? {
        var done;
        done, inFlightOut := HandlePacket(inFlightOut, cancelled, patience);
        turn := if done then More else Stuck;
      }
    }

    /** The inner loop: fill the bulk window from the channel, until it is full, the channel stays
        empty for a poll interval, or the thread has to stop.  Every turn spent is a step of the writer. */
    method FillWindow(inFlight: int, cancelled: bool, turns: nat, patience: nat)
      returns (done: bool, inFlightOut: int, left: nat)
      requires Valid() && WriterAt(LoopHead, inFlight, cancelled)
      modifies this
      ensures Valid() && Grew() && old(Code()) <= Code()
      ensures |Code()| + left >= |old(Code())| + turns && left <= turns
      ensures if done then WriterAt(CancelTest, inFlightOut, cancelled) else Blocked(st, Writer) || left == 0
    {
      inFlightOut, left := inFlight, turns;
      while left > 0 && inFlightOut < c.window
        invariant Valid() && Grew() && old(Code()) <= Code()
        invariant |Code()| + left >= |old(Code())| + turns && left <= turns
        invariant WriterAt(LoopHead, inFlightOut, cancelled)
        decreases left
      {
        left := left - 1;
        var turn;
        turn, inFlightOut := FillTurn(inFlightOut, cancelled, patience);
        if !turn.More? {
          return turn.Enough?, inFlightOut, left;
        }
      }
      done := inFlightOut >= c.window;
      if done {
        Do(WriterStep(TestLoop(false)));
      }
    }

    /** Cancel the queue on the first pass that sees stop, and on no other. */
    method CancelOnStop(inFlightOut: int, was: bool) returns (cancelled: bool)
      requires Valid() && WriterAt(CancelTest, inFlightOut, was)
      modifies this
      ensures Valid() && Grew() && old(Code()) < Code()
      ensures WriterAt(ZeroTest, inFlightOut, cancelled) && (st.writer.sawStop ==> cancelled)
      ensures cancelled == (was || st.writer.sawStop) && (AllFresh() && old(st.shared.stop) ==> cancelled)
      ensures Code() == old(Code()) + [WriterStep(TestCancel(st.writer.sawStop))]
        + if st.writer.sawStop && !was then [WriterStep(CancelAll)] else []
    {
      cancelled := was;
      var seen := WriterLoadsStop();
      Do(WriterStep(TestCancel(seen)));
      if seen && !cancelled {
        Others(Worker(Writer));
        Do(WriterStep(CancelAll));
        cancelled := true;
      }
    }

    /** Nothing but an idle poll happened. */
    ghost predicate NothingReaped(before: State, codeBefore: seq<Action>)
      reads this
    {
      && Code() == codeBefore + [WriterStep(PollNone)]
      && st.writer.queue == before.writer.queue
      && st.log.(accepted := []) == before.log.(accepted := [])
    }

    /** The oldest transfer ended with `status`: it was counted off, its slot released after that, and
        only then acknowledged, the endpoint cleared, or the failure ignored. */
    ghost predicate ReapedOldest(before: State, lo: nat, codeBefore: seq<Action>, status: Status)
      reads this
    {
      var released := codeBefore + [WriterStep(PollSome(status)), WriterStep(Decrement), WriterStep(ReleaseBulk)];
      && before.writer.queue != []
      && st.writer.queue == before.writer.queue[1..]
      && st.log.results == before.log.results + [Outcome(before.writer.queue[0], status.Ok?)]
      && (match status
          case Ok => Emitted(Writer, lo, released, Code()) && st.log.acked == before.log.acked + [before.writer.queue[0]]
          case Stall => Code() == released + [WriterStep(ClearHalt)] && st.log.acked == before.log.acked
          case OtherError => Code() == released && st.log.acked == before.log.acked)
    }

    /** Take one completion off the bulk queue, if there is one: count it, release its slot, and
        acknowledge it or clear the endpoint. */
    method ReapOne(inFlight: int, cancelled: bool, patience: nat)
      returns (done: bool, inFlightOut: int, arrived: Option<Status>)
      requires Valid() && WriterAt(Polling, inFlight, cancelled)
      modifies this
      ensures Valid() && Grew() && old(Code()) <= Code()
      ensures if done then WriterAt(LoopHead, inFlightOut, cancelled) else Blocked(st, Writer)
      ensures done ==> inFlightOut == if arrived.Some? then inFlight - 1 else inFlight
      ensures done && arrived.Some? ==> ReapedOldest(old(st), |old(trace)|, old(Code()), arrived.value)
      ensures done && arrived.None? ==> NothingReaped(old(st), old(Code()))
    {
      done, inFlightOut := true, inFlight;
      arrived := Poll();
      if arrived.None? {
        return;
      }
      inFlightOut := inFlight - 1;
      done := FinishTransfer(arrived.value, patience);
    }

    /** poll_once(next_complete): the oldest transfer, if it has ended. */
    method Poll() returns (arrived: Option<Status>)
      requires Valid() && st.writer.pc.Polling?
      modifies this
      ensures Valid() && Grew()
      ensures Code() == old(Code()) + [WriterStep(if arrived.Some? then PollSome(arrived.value) else PollNone)]
      ensures st.log.acked == old(st.log.acked)
      ensures if arrived.Some? then
          && old(st.writer.queue) != []
          && (var w := old(st.writer); st.writer == w.(pc := Reaped(w.queue[0], arrived.value), queue := w.queue[1..]))
          && st.log.results == old(st.log.results) + [Outcome(old(st.writer.queue)[0], arrived.value.Ok?)]
        else
          st.writer == old(st.writer).(pc := LoopHead) && st.log.(accepted := []) == old(st.log).(accepted := [])
    {
      Others(Worker(Writer));
      QueueNotEmpty();
      arrived := world.completed(now);
      Do(WriterStep(if arrived.Some? then PollSome(arrived.value) else PollNone));
    }

    /** next_complete may only be awaited on a queue with a transfer in it. */
    lemma QueueNotEmpty()
      requires Valid() && st.writer.pc.Polling?
      ensures st.writer.queue != []
    {
      IsRun();
      EngineReachable(c, st);
    }

    method FinishTransfer(status: Status, patience: nat) returns (done: bool)
      requires Valid() && st.writer.pc.Reaped? && st.writer.pc.status == status
      modifies this
      ensures Valid() && Grew() && old(Code()) <= Code()
      ensures if done then
          st.writer == old(st.writer).(pc := LoopHead, inFlight := old(st.writer.inFlight) - 1)
        else Blocked(st, Writer)
      ensures done ==>
        var released := old(Code()) + [WriterStep(Decrement), WriterStep(ReleaseBulk)];
        var p := old(st.writer.pc.packet);
        && st.log.results == old(st.log.results)
        && (match status
            case Ok => Emitted(Writer, |old(trace)|, released, Code()) && st.log.acked == old(st.log.acked) + [p]
            case Stall => Code() == released + [WriterStep(ClearHalt)] && st.log.acked == old(st.log.acked)
            case OtherError => Code() == released && st.log.acked == old(st.log.acked))
    {
      done := true;
      ReleaseSlot();
      match status {
        case Ok => done := EmitPacketSent(patience);
        case Stall =>
          Others(Worker(Writer));
          Do(WriterStep(ClearHalt));
        case OtherError =>
      }
    }

    method ReleaseSlot()
      requires Valid() && st.writer.pc.Reaped?
      modifies this
      ensures Valid() && Grew()
      ensures Code() == old(Code()) + [WriterStep(Decrement), WriterStep(ReleaseBulk)]
      ensures st.log.(accepted := []) == old(st.log).(accepted := [])
      ensures st.writer == old(st.writer).(inFlight := old(st.writer.inFlight) - 1, pc :=
        match old(st.writer.pc.status)
        case Ok => Acking(old(st.writer.pc.packet), Entering)
        case Stall => ClearingHalt
        case OtherError => LoopHead)
    {
      Others(Worker(Writer));
      Do(WriterStep(Decrement));
      Others(Worker(Writer));
      Do(WriterStep(ReleaseBulk));
    }

    /** The writer thread.  It ends with every transfer reaped and every success acknowledged, or is
        found at work: blocked in an emission, or with a step of its own taken in each of its turns. */
    method RunWriter(turns: nat, patience: nat) returns (finished: bool)
      requires Valid() && st.writer == WriterState(LoopHead, 0, false, false, [])
      modifies this
      ensures Valid() && Grew()
      ensures finished ==> AllReaped()
      ensures !finished ==> Blocked(st, Writer) || |Own(Worker(Writer), trace)| >= |Own(Worker(Writer), old(trace))| + turns
    {
      var inFlightOut, cancelled, left := 0, false, turns;
      while left > 0
        invariant Valid() && Grew() && |Code()| + left >= |old(Code())| + turns
        invariant WriterAt(LoopHead, inFlightOut, cancelled)
        decreases left
      {
        var ok;
        ok, inFlightOut, left := FillWindow(inFlightOut, cancelled, left, patience);
        if !ok {
          return false;
        }
        left := if left > 0 then left - 1 else 0;
        var turn;
        turn, inFlightOut, cancelled := AfterWindow(inFlightOut, cancelled, patience);
        if !turn.More? {
          return turn.Enough?;
        }
      }
      finished := false;
    }

    /** The rest of the outer loop: cancel on stop, leave when nothing is in flight, else reap. */
    method AfterWindow(inFlight: int, was: bool, patience: nat)
      returns (turn: Turn, inFlightOut: int, cancelled: bool)
      requires Valid() && WriterAt(CancelTest, inFlight, was)
      modifies this
      ensures Valid() && Grew() && old(Code()) < Code()
      ensures match turn
        case More => WriterAt(LoopHead, inFlightOut, cancelled)
        case Enough => AllReaped()
        case Stuck => Blocked(st, Writer)
      ensures AllFresh() && old(st.shared.stop) && inFlight == 0 ==> turn.Enough?
      ensures AllFresh() && old(st.shared.stop) && inFlight > 0 && turn.More? ==> cancelled
    {
      inFlightOut := inFlight;
      cancelled := CancelOnStop(inFlight, was);
      if inFlightOut == 0 {
        var left := LeaveIfStopped(cancelled);
        turn := if left then Enough else More;
      } else {
        Do(WriterStep(TestZero(false)));
        var ok, arrived;
        ok, inFlightOut, arrived := ReapOne(inFlightOut, cancelled, patience);
        turn := if ok then More else Stuck;
      }
    }

    /** With nothing in flight the thread ends if it sees stop, and drops its end of the channel. */
    method LeaveIfStopped(cancelled: bool) returns (left: bool)
      requires Valid() && WriterAt(ZeroTest, 0, cancelled)
      modifies this
      ensures Valid() && Grew() && old(Code()) <= Code()
      ensures if left then AllReaped() else WriterAt(LoopHead, 0, cancelled)
      ensures AllFresh() && old(st.shared.stop) ==> left
      ensures Code() == old(Code()) + [WriterStep(TestZero(left))] + if left then [WriterStep(Exit)] else []
    {
      left := WriterLoadsStop();
      Do(WriterStep(TestZero(left)));
      if left {
        Others(Worker(Writer));
        Do(WriterStep(Exit));
        IsRun();
        ShutdownSafety(c, st);
      }
    }

    /** The writer has left, with nothing in flight and every success acknowledged. */
    predicate AllReaped()
      reads this
    {
      && st.writer.pc.Finished? && st.writer.inFlight == 0 && st.writer.queue == []
      && !st.shared.receiverAlive && st.shared.stop
      && st.log.submitted == Project(Packets(st.log.results), true)
      && st.log.acked == Ended(st.log.results, true)
    }

    // ---- A reader thread ---------------------------------------------------------------------------

    method ReaderLoadsStop(t: Thread) returns (seen: bool)
      requires Valid() && IsReader(t)
      modifies this
      ensures Valid() && Grew() && ReaderOf(st, t) == old(ReaderOf(st, t))
      ensures own(Worker(t)) == old(own(Worker(t)))
      ensures StopLoad(st, ReaderOf(st, t).sawStop, seen)
      ensures seen == StopSeen(st, ReaderOf(st, t).sawStop, world.stale(now))
    {
      Others(Worker(t));
      SawMeansStop();
      seen := StopSeen(st, ReaderOf(st, t).sawStop, world.stale(now));
    }

    /** emit_packet on a reader thread. */
    method EmitFromReader(t: Thread, patience: nat) returns (done: bool)
      requires Valid() && IsReader(t) && EmitOf(st, t) == Some(Entering)
      modifies this
      ensures Valid() && Grew()
      ensures !done ==> Blocked(st, t)
      ensures done ==>
        var r := old(ReaderOf(st, t));
        && ReaderOf(st, t) == r.(pc := Testing, emitted := r.emitted + [r.pc.data])
        && Emitted(t, |old(trace)|, old(own(Worker(t))), own(Worker(t)))
    {
      done := AwaitState(Worker(t), patience);
      if !done {
        return;
      }
      ghost var lo := |trace|;
      ghost var present := LookUpHandler(t);
      done := CallHandler(t, patience);
      assert HandlerSeen(t, lo, present);
    }

    method CallHandler(t: Thread, patience: nat) returns (done: bool)
      requires Valid() && IsReader(t) && EmitOf(st, t).Some? && EmitOf(st, t).value.Calling?
      modifies this
      ensures Valid() && Grew()
      ensures !done ==> Blocked(st, t)
      ensures done ==>
        var r := old(ReaderOf(st, t));
        && ReaderOf(st, t) == r.(pc := Testing, emitted := r.emitted + [r.pc.data])
        && own(Worker(t)) == old(own(Worker(t))) + [EmitStep(t, Dispatch)]
             + if r.pc.emit.present then [EmitStep(t, Return)] else []
    {
      Others(Worker(t));
      var present := EmitOf(st, t).value.present;
      Do(EmitStep(t, Dispatch));
      done := true;
      if present {
        done := AwaitHandler(t, patience);
      }
    }

    method AwaitHandler(t: Thread, patience: nat) returns (done: bool)
      requires Valid() && IsReader(t) && EmitOf(st, t) == Some(Handling)
      modifies this
      ensures Valid() && Grew()
      ensures if done then ReaderOf(st, t) == old(ReaderOf(st, t)).(pc := Testing) else Blocked(st, t)
      ensures done ==> own(Worker(t)) == old(own(Worker(t))) + [EmitStep(t, Return)]
    {
      var left := patience;
      Others(Worker(t));
      while left > 0 && t in st.calls
        invariant Valid() && Grew() && ReaderOf(st, t) == old(ReaderOf(st, t))
        invariant own(Worker(t)) == old(own(Worker(t)))
      {
        Others(Worker(t));
        left := left - 1;
      }
      done := t !in st.calls;
      if done {
        Do(EmitStep(t, Return));
      }
    }

    /** cancel_and_drain_reader_queue: wait out every buffer, deliver none. */
    method CancelAndDrain(t: Thread)
      requires Valid() && IsReader(t) && ReaderOf(st, t).pc.Draining?
      modifies this
      ensures Valid() && Grew()
      ensures var r, q := old(ReaderOf(st, t)), ReaderOf(st, t);
        q.pc.ReaderHead? && q.pending <= 0 && q.(pc := r.pc, pending := r.pending) == r
      ensures old(own(Worker(t))) <= own(Worker(t))
    {
      while ReaderOf(st, t).pending > 0
        invariant Valid() && Grew()
        invariant ReaderOf(st, t).(pending := old(ReaderOf(st, t)).pending) == old(ReaderOf(st, t))
        invariant old(own(Worker(t))) <= own(Worker(t))
        decreases ReaderOf(st, t).pending
      {
        Others(Worker(t));
        Do(ReaderStep(t, DrainOne));
      }
      Others(Worker(t));
      Do(ReaderStep(t, Drained));
    }

    /** From `before` to `after` reader `t` took completion `x` off its queue, and delivered it if it is a
        non-empty success, or cleared the endpoint if it is a stall. */
    ghost predicate Served(t: Thread, lo: nat, before: seq<Action>, after: seq<Action>, x: Completion)
      reads this
    {
      var first := before + [ReaderStep(t, Complete(x))];
      match x.status
      case Ok => if x.data == [] then after == first else Emitted(t, lo, first, after)
      case Stall => after == first + [ReaderStep(t, Recover)]
      case OtherError => after == first
    }

    /** One completion: deliver it or recover from it, then resubmit the buffer or drain the queue. */
    method HandleCompletion(t: Thread, x: Completion, patience: nat) returns (done: bool)
      requires Valid() && IsReader(t) && ReaderOf(st, t).pc.ReaderHead? && ReaderOf(st, t).pending > 0
      modifies this
      ensures Valid() && Grew()
      ensures !done ==> Blocked(st, t)
      ensures done ==>
        var r, q := old(ReaderOf(st, t)), ReaderOf(st, t);
        && q.pc.ReaderHead? && q.completed == r.completed + [x]
        && q.emitted == (if x.status.Ok? && x.data != [] then r.emitted + [x.data] else r.emitted)
        && (if q.sawStop then q.pending <= 0 else q.pending == r.pending)
        && (AllFresh() && old(st.shared.stop) ==> q.sawStop)
        && exists mid | mid + [ReaderStep(t, Test(q.sawStop))] <= own(Worker(t)) ::
             Served(t, |old(trace)|, old(own(Worker(t))), mid, x)
    {
      done := ServeCompletion(t, x, patience);
      if done {
        ghost var lo, before, mid := |old(trace)|, old(own(Worker(t))), own(Worker(t));
        ghost var tr, ss := trace, states;
        ResubmitOrDrain(t);
        if x.status.Ok? && x.data != [] {
          ghost var called := mid == before + [ReaderStep(t, Complete(x))] + EmissionCode(t, true);
          SeenBefore(t, lo, called, tr, ss);
        }
      }
    }

    /** What was seen in an earlier part of the trace has been seen. */
    lemma SeenBefore(t: Thread, lo: nat, present: bool, tr: seq<Action>, ss: seq<State>)
      requires tr <= trace && ss <= states
      requires exists k | lo <= k < |tr| && k < |ss| ::
                 tr[k] == EmitStep(t, EmitAction.ReadHandler) && ss[k].shared.handler == present
      ensures HandlerSeen(t, lo, present)
    {
      var k :| lo <= k < |tr| && k < |ss| &&
        tr[k] == EmitStep(t, EmitAction.ReadHandler) && ss[k].shared.handler == present;
      assert trace[k] == EmitStep(t, EmitAction.ReadHandler) && states[k].shared.handler == present;
    }

    method ServeCompletion(t: Thread, x: Completion, patience: nat) returns (done: bool)
      requires Valid() && IsReader(t) && ReaderOf(st, t).pc.ReaderHead? && ReaderOf(st, t).pending > 0
      modifies this
      ensures Valid() && Grew()
      ensures !done ==> Blocked(st, t)
      ensures done ==>
        var r := old(ReaderOf(st, t));
        && ReaderOf(st, t) == r.(pc := Testing, pending := r.pending - 1, completed := r.completed + [x], emitted :=
             if x.status.Ok? && x.data != [] then r.emitted + [x.data] else r.emitted)
        && Served(t, |old(trace)|, old(own(Worker(t))), own(Worker(t)), x)
    {
      done := true;
      Do(ReaderStep(t, Complete(x)));
      if x.status.Ok? && x.data != [] {
        done := EmitFromReader(t, patience);
      }
      if x.status.Stall? {
        Others(Worker(t));
        Do(ReaderStep(t, Recover));
      }
    }

    method ResubmitOrDrain(t: Thread)
      requires Valid() && IsReader(t) && ReaderOf(st, t).pc.Testing?
      modifies this
      ensures Valid() && Grew()
      ensures var r, q := old(ReaderOf(st, t)), ReaderOf(st, t);
        && q.pc.ReaderHead? && q.completed == r.completed && q.emitted == r.emitted
        && (if q.sawStop then q.pending <= 0 else q.pending == r.pending + 1)
        && old(own(Worker(t))) + [ReaderStep(t, Test(q.sawStop))] <= own(Worker(t))
        && (AllFresh() && old(st.shared.stop) ==> q.sawStop)
    {
      var seen := ReaderLoadsStop(t);
      Do(ReaderStep(t, Test(seen)));
      Others(Worker(t));
      if seen {
        CancelAndDrain(t);
      } else {
        Do(ReaderStep(t, Resubmit));
      }
    }

    /** A reader thread, given the completions its queue produces, each when the loop polls for it.  It
        delivers the non-empty successful ones, in order, up to the one at which it sees stop, and ends
        there; without stop it goes on with all its buffers. */
    method RunReader(t: Thread, arriving: seq<Completion>, patience: nat) returns (finished: bool, next: nat)
      requires Valid() && IsReader(t) && ReaderOf(st, t) == ReaderState(ReaderHead, c.buffers, false, [], [])
      modifies this
      ensures Valid() && Grew() && next <= |arriving|
      ensures finished ==>
        var r := ReaderOf(st, t);
        && r.pc.ReaderFinished? && r.pending == 0
        && r.completed == arriving[..next] && r.emitted == Payloads(arriving[..next])
        && (c.buffers > 0 ==> r.sawStop && 0 < next)
      ensures !finished ==> Blocked(st, t) || (next == |arriving| && c.buffers > 0 && ReaderGoing(t, arriving))
    {
      next := 0;
      while next < |arriving| && ReaderOf(st, t).pending > 0
        invariant Valid() && Grew()
        invariant next <= |arriving| && ReaderGoing(t, arriving[..next])
        decreases |arriving| - next
      {
        var ok := ReaderTurn(t, arriving[..next], arriving[next], patience);
        if !ok {
          return false, next;
        }
        assert arriving[..next] + [arriving[next]] == arriving[..next + 1];
        next := next + 1;
      }
      finished := ReaderOf(st, t).pending <= 0;
      if finished {
        FinishReader(t);
      } else {
        assert arriving[..next] == arriving;
      }
    }

    method ReaderTurn(t: Thread, ghost done: seq<Completion>, x: Completion, patience: nat) returns (ok: bool)
      requires Valid() && IsReader(t) && ReaderGoing(t, done) && ReaderOf(st, t).pending > 0
      modifies this
      ensures Valid() && Grew()
      ensures if ok then ReaderGoing(t, done + [x]) else Blocked(st, t)
    {
      Others(Worker(t));
      PayloadsAppend(done, x);
      ok := HandleCompletion(t, x, patience);
    }

    method FinishReader(t: Thread)
      requires Valid() && IsReader(t) && ReaderOf(st, t).pc.ReaderHead? && ReaderOf(st, t).pending <= 0
      modifies this
      ensures Valid() && Grew()
      ensures ReaderOf(st, t) == old(ReaderOf(st, t)).(pc := ReaderFinished) && ReaderOf(st, t).pending == 0
    {
      Others(Worker(t));
      Do(ReaderStep(t, ReaderExit));
      IsRun();
      ReaderConservation(c, st, t);
    }

    /** At the head of its loop after the completions `done`. */
    ghost predicate ReaderGoing(t: Thread, done: seq<Completion>)
      reads this
    {
      var r := ReaderOf(st, t);
      && r.pc.ReaderHead? && r.completed == done && r.emitted == Payloads(done)
      && (if r.sawStop then r.pending <= 0 && done != [] else r.pending == c.buffers)
    }

    // ---- The entry points --------------------------------------------------------------------------

    /** Some position of the modification order that a load by `t` may return. */
    method LoadCounter(t: Thread) returns (at: nat)
      requires Valid()
      ensures CounterLoad(st, t, at)
    {
      at := *;
      ViewsInBounds();
      assert ViewOf(st, t) < |st.shared.mods|;
      if !CounterLoad(st, t, at) {
        at := |st.shared.mods| - 1;
      }
    }

    /** The compare-and-exchange loop. Taken: exactly one increment was made, as the last step, and it
        found the counter below the depth. Refused: nothing was written, and the call's own last
        access read the depth, no further back than `t` could see when it began. In each of the first
        `rounds` rounds the other threads may write the counter between any two steps, and the weak
        exchange may fail for no reason; once it is left in peace the loop ends. */
    method TryReserve(t: Thread, rounds: nat) returns (r: Reservation)
      requires Valid() && t in st.calls && st.calls[t].Loading?
      modifies this
      ensures Valid() && Grew()
      ensures r.Taken? ==>
        && old(trace) < trace && trace[|trace| - 1] == CallStep(t, CasOk)
        && NoWrites(t, trace, |old(trace)|, |trace| - 1)
        && t in st.calls && st.calls[t] == Reserved(old(st.calls[t].ty), old(st.calls[t].data))
        && 0 < Pending(st) <= c.depth
      ensures exists tries :: (
        && IsTrying(t, tries)
        && own(CallOf(t)) == old(own(CallOf(t))) + tries + [CallStep(t, if r.Taken? then CasOk else CallAction.Refuse)])
      ensures r.Refused? ==>
        && NoWrites(t, trace, |old(trace)|, |trace|)
        && t !in st.calls && RefusedAtDepth(t, |old(trace)|, old(ViewOf(st, t)))
    {
      ghost var lo, from, before, k := |trace|, ViewOf(st, t), own(CallOf(t)), st.calls[t];
      var current;
      ghost var tries;
      current, tries := TryFirst(t);
      var left: nat := rounds;
      while true
        invariant Valid() && Grew() && Trying(t, k, current, lo, from, before, tries)
        decreases left, Pending(st) != current
      {
        if current >= c.depth {
          GiveUp(t, current, k, lo, from, before, tries);
          return Refused;
        }
        var taken;
        taken, current, tries := TryOnce(t, current, left > 0, k, lo, from, before, tries);
        if taken {
          return Taken;
        }
        left := if left > 0 then left - 1 else 0;
      }
    }

    /** `t` is about to try again: its steps since `lo` are `tries`, none of them wrote the counter, and the
        last read `current`, not behind `from`. */
    ghost predicate Trying(t: Thread, k: Call, current: int, lo: nat, from: nat, before: seq<Action>, tries: seq<Action>)
      reads this
    {
      && k.Loading? && t in st.calls && st.calls[t] == Exchanging(k.ty, k.data, current)
      && lo < |trace| && NoWrites(t, trace, lo, |trace|)
      && from <= ViewOf(st, t) && Observed(t, |trace| - 1, from, current)
      && IsTrying(t, tries) && own(CallOf(t)) == before + tries
    }

    method TryFirst(t: Thread) returns (current: int, ghost tries: seq<Action>)
      requires Valid() && t in st.calls && st.calls[t].Loading?
      modifies this
      ensures Valid() && Grew()
      ensures Trying(t, old(st.calls[t]), current, old(|trace|), old(ViewOf(st, t)), old(own(CallOf(t))), tries)
    {
      current := LoadPending(t);
      tries := [trace[|trace| - 1]];
    }

    method GiveUp(t: Thread, current: int, ghost k: Call, ghost lo: nat, ghost from: nat,
                  ghost before: seq<Action>, ghost tries: seq<Action>)
      requires Valid() && Trying(t, k, current, lo, from, before, tries) && current >= c.depth
      modifies this
      ensures Valid() && Grew() && NoWrites(t, trace, lo, |trace|) && t !in st.calls && RefusedAtDepth(t, lo, from)
      ensures own(CallOf(t)) == before + tries + [CallStep(t, CallAction.Refuse)]
    {
      Refuse(t, from, current);
    }

    method TryOnce(t: Thread, was: int, disturbed: bool, ghost k: Call, ghost lo: nat, ghost from: nat,
                   ghost before: seq<Action>, ghost tries: seq<Action>)
      returns (taken: bool, current: int, ghost more: seq<Action>)
      requires Valid() && Trying(t, k, was, lo, from, before, tries) && was < c.depth
      modifies this
      ensures Valid() && Grew()
      ensures !disturbed ==> (taken <==> old(Pending(st)) == was) && (!taken ==> current == Pending(st))
      ensures taken ==>
        && lo < |trace| && trace[|trace| - 1] == CallStep(t, CasOk) && NoWrites(t, trace, lo, |trace| - 1)
        && t in st.calls && st.calls[t] == Reserved(k.ty, k.data) && 0 < Pending(st) <= c.depth
        && more == tries && own(CallOf(t)) == before + tries + [CallStep(t, CasOk)]
      ensures !taken ==> Trying(t, k, current, lo, from, before, more)
    {
      more := tries;
      taken, current := CompareExchangeWeak(t, was, disturbed);
      if !taken {
        TryAgain(t, tries, trace[|trace| - 1], before, own(CallOf(t)));
        more := tries + [trace[|trace| - 1]];
      }
    }

    lemma CounterInBounds()
      requires Valid()
      ensures 0 <= Pending(st) <= c.depth && st.shared.mods != []
      ensures forall i | 0 <= i < |st.shared.mods| :: 0 <= st.shared.mods[i] <= c.depth
    {
      IsRun();
      EngineReachable(c, st);
    }

    method LoadPending(t: Thread) returns (current: int)
      requires Valid() && t in st.calls && st.calls[t].Loading?
      modifies this
      ensures Valid() && Grew() && old(trace) < trace && NoWrites(t, trace, |old(trace)|, |trace|)
      ensures t in st.calls && st.calls[t] == Exchanging(old(st.calls[t].ty), old(st.calls[t].data), current)
      ensures old(ViewOf(st, t)) <= ViewOf(st, t) && Observed(t, |trace| - 1, old(ViewOf(st, t)), current)
      ensures IsCall(t, trace[|trace| - 1]) && trace[|trace| - 1].call.Load?
      ensures own(CallOf(t)) == old(own(CallOf(t))) + [trace[|trace| - 1]]
    {
      Others(CallOf(t));
      var at := LoadCounter(t);
      current := st.shared.mods[at];
      Do(CallStep(t, Load(at)));
      assert ReadsCounter(t, trace[|trace| - 1], at);
    }

    /** Step `k` of the trace is a read of the counter by `t`, not behind `from`, that returned `v`. */
    ghost predicate Observed(t: Thread, k: nat, from: nat, v: int)
      reads this
    {
      k < |trace| &&
      exists at | from <= at < |st.shared.mods| :: ReadsCounter(t, trace[k], at) && st.shared.mods[at] == v
    }

    /** The last step, after `before` others, refuses the reservation, right after `t` read the depth. */
    ghost predicate RefusedAtDepth(t: Thread, before: nat, from: nat)
      reads this
    {
      && before + 2 <= |trace| && trace[|trace| - 1] == CallStep(t, CallAction.Refuse)
      && Observed(t, |trace| - 2, from, c.depth)
    }

    method Refuse(t: Thread, ghost from: nat, current: int)
      requires Valid() && t in st.calls && st.calls[t].Exchanging? && st.calls[t].current == current
      requires current >= c.depth && trace != [] && Observed(t, |trace| - 1, from, current)
      modifies this
      ensures Valid() && Grew() && trace == old(trace) + [CallStep(t, CallAction.Refuse)]
      ensures t !in st.calls && RefusedAtDepth(t, |old(trace)| - 1, from)
      ensures own(CallOf(t)) == old(own(CallOf(t))) + [CallStep(t, CallAction.Refuse)]
    {
      CounterInBounds();
      Do(CallStep(t, CallAction.Refuse));
      assert trace[|trace| - 2] == old(trace)[|old(trace)| - 1];
    }

    /** compare_exchange_weak(current, current + 1): on success one increment, on failure (spurious or
        not) a value read no further back than `t` could see. Undisturbed, it fails only for a reason,
        and then returns the value that made it fail. */
    method CompareExchangeWeak(t: Thread, current: int, disturbed: bool) returns (taken: bool, actual: int)
      requires Valid() && t in st.calls && st.calls[t].Exchanging? && st.calls[t].current == current < c.depth
      modifies this
      ensures Valid() && Grew() && old(trace) < trace
      ensures NoWrites(t, trace, |old(trace)|, |trace| - 1)
      ensures t in st.calls
      ensures taken ==>
        && trace[|trace| - 1] == CallStep(t, CasOk)
        && st.calls[t] == Reserved(old(st.calls[t].ty), old(st.calls[t].data))
        && 0 < Pending(st) == current + 1 <= c.depth
      ensures !taken ==>
        && !WritesCounter(t, trace[|trace| - 1])
        && st.calls[t] == old(st.calls[t]).(current := actual)
        && old(ViewOf(st, t)) <= ViewOf(st, t) && Observed(t, |trace| - 1, old(ViewOf(st, t)), actual)
      ensures own(CallOf(t)) == old(own(CallOf(t))) + [trace[|trace| - 1]]
      ensures !taken ==> IsCall(t, trace[|trace| - 1]) && trace[|trace| - 1].call.CasFail?
      ensures !disturbed ==> (taken <==> old(Pending(st)) == current)
      ensures !disturbed && !taken ==> actual == Pending(st)
    {
      var spurious: bool := *;
      if disturbed {
        Others(CallOf(t));
      }
      actual := current;
      taken := Pending(st) == current && !(disturbed && spurious);
      CounterInBounds();
      if taken {
        Do(CallStep(t, CasOk));
      } else {
        actual := FailExchange(t, disturbed);
      }
    }

    method FailExchange(t: Thread, disturbed: bool) returns (actual: int)
      requires Valid() && t in st.calls && st.calls[t].Exchanging? && st.calls[t].current < c.depth
      modifies this
      ensures Valid() && Grew() && (exists at :: trace == old(trace) + [CallStep(t, CasFail(at))])
      ensures own(CallOf(t)) == old(own(CallOf(t))) + [trace[|trace| - 1]]
      ensures t in st.calls && st.calls[t] == old(st.calls[t]).(current := actual)
      ensures old(ViewOf(st, t)) <= ViewOf(st, t) && Observed(t, |trace| - 1, old(ViewOf(st, t)), actual)
      ensures Pending(st) == old(Pending(st))
      ensures !disturbed ==> actual == Pending(st)
    {
      ViewsInBounds();
      assert ViewOf(st, t) < |st.shared.mods|;
      var at := LoadCounter(t);
      if !disturbed {
        at := |st.shared.mods| - 1;
      }
      actual := st.shared.mods[at];
      Do(CallStep(t, CasFail(at)));
      assert ReadsCounter(t, trace[|trace| - 1], at);
    }

    lemma SlotBalance(t: Thread, before: seq<Action>)
      requires before <= trace
      ensures NoWrites(t, trace, |before|, |trace|) ==> Balance(t, trace) == Balance(t, before)
      ensures before < trace && NoWrites(t, trace, |before|, |trace| - 1) ==>
        && (trace[|trace| - 1] == CallStep(t, CasOk) ==> Balance(t, trace) == Balance(t, before) + 1)
        && (trace[|trace| - 1] == CallStep(t, CallAction.GiveBack) ==> Balance(t, trace) == Balance(t, before) - 1)
    {
      assert trace[..|before|] == before;
      if NoWrites(t, trace, |before|, |trace|) {
        QuietBalance(t, trace, |before|);
      }
      if before < trace && NoWrites(t, trace, |before|, |trace| - 1) {
        OneWriteBalance(t, trace, |before|);
      }
    }

    /** A slot that is given back: the type is unsupported, or the writer has left. */
    method UndoReservation(t: Thread)
      requires Valid() && t in st.calls && st.calls[t].GivingBack?
      modifies this
      ensures Valid() && Grew() && old(trace) < trace && t !in st.calls
      ensures Balance(t, trace) == Balance(t, old(trace)) - 1
      ensures own(CallOf(t)) == old(own(CallOf(t))) + [CallStep(t, CallAction.GiveBack)]
      ensures st.shared.receiverAlive ==> old(st.shared.receiverAlive)
    {
      Others(CallOf(t));
      Do(CallStep(t, CallAction.GiveBack));
      SlotBalance(t, old(trace));
    }

    /** `p` is the packet the channel accepted last. */
    ghost predicate AcceptedLast(p: Packet)
      reads this
    {
      && st.log.accepted != [] && st.log.accepted[|st.log.accepted| - 1] == p
      && st.shared.channel != [] && st.shared.channel[|st.shared.channel| - 1] == p
    }

    method PushOrKeep(t: Thread) returns (accepted: bool)
      requires Valid() && t in st.calls && st.calls[t].Reserved? && st.calls[t].ty.Supported?
      modifies this
      ensures Valid() && Grew() && old(trace) < trace
      ensures Balance(t, trace) == Balance(t, old(trace))
      ensures accepted ==> t !in st.calls && AcceptedLast(Packet(old(st.calls[t].ty.kind), old(st.calls[t].data)))
      ensures !accepted ==> t in st.calls && st.calls[t].GivingBack?
      ensures own(CallOf(t)) == old(own(CallOf(t))) + [CallStep(t, TrySend)]
      ensures !accepted && c.depth <= c.capacity ==> !st.shared.receiverAlive
    {
      Others(CallOf(t));
      NoFullChannel(t);
      accepted := TrySendAccepts(c, st);
      Do(CallStep(t, TrySend));
      SlotBalance(t, old(trace));
    }

    lemma NoFullChannel(t: Thread)
      requires Valid() && CallEnabled(c, st, t, TrySend)
      ensures c.depth <= c.capacity ==> (TrySendAccepts(c, st) <==> st.shared.receiverAlive)
    {
      if c.depth <= c.capacity {
        IsRun();
        NeverFull(c, st, t);
      }
    }

    /** Classify the packet and offer it to the channel; a slot that cannot be used is given back.  A
        supported packet is turned away only when the writer has left. */
    method Offer(t: Thread) returns (accepted: bool)
      requires Valid() && t in st.calls && st.calls[t].Reserved?
      modifies this
      ensures Valid() && Grew() && old(trace) < trace && t !in st.calls
      ensures accepted ==>
        && Balance(t, trace) == Balance(t, old(trace))
        && old(st.calls[t].ty).Supported?
        && AcceptedLast(Packet(old(st.calls[t].ty.kind), old(st.calls[t].data)))
      ensures !accepted ==>
        && Balance(t, trace) == Balance(t, old(trace)) - 1
        && (old(st.calls[t].ty).Supported? && c.depth <= c.capacity ==> !st.shared.receiverAlive)
      ensures own(CallOf(t)) == old(own(CallOf(t))) + OfferCode(t, old(st.calls[t].ty), accepted)
    {
      accepted := false;
      if st.calls[t].ty.Unsupported? {
        Do(CallStep(t, Reject));
        SlotBalance(t, old(trace));
        UndoReservation(t);
        return;
      }
      accepted := PushOrKeep(t);
      if !accepted {
        UndoReservation(t);
      }
    }

    /** What a thread that locks STATE now sees at least. */
    function ViewAtEntry(t: Thread): nat
      reads this
    {
      Max(ViewOf(st, t), st.shared.lockView)
    }

    /** STATE.lock() at the start of a call. */
    method EnterState(t: Thread, op: Op, patience: nat) returns (done: bool)
      requires Valid() && CallEnabled(c, st, t, Begin(op))
      modifies this
      ensures Valid() && Grew() && NoWrites(t, trace, |old(trace)|, |trace|)
      ensures if done then
          t in st.calls && st.calls[t] == Inside(op) && old(ViewAtEntry(t)) <= ViewOf(st, t)
        else Waits(st, t)
      ensures done ==> own(CallOf(t)) == old(own(CallOf(t))) + [CallStep(t, Begin(op)), CallStep(t, Enter)]
    {
      Do(CallStep(t, Begin(op)));
      done := AwaitState(CallOf(t), patience);
      if done {
        Do(CallStep(t, Enter));
      }
    }

    /** The session handles a call may use, if there is an active session. */
    method TakeHandles(t: Thread, ty: PacketType, data: Bytes, patience: nat) returns (done: bool, active: bool)
      requires Valid() && t !in st.calls && MayCall(st, t)
      modifies this
      ensures Valid() && Grew()
      ensures Balance(t, trace) == Balance(t, old(trace))
      ensures !done ==> Waits(st, t)
      ensures done && active ==>
        t in st.calls && st.calls[t] == Loading(ty, data) && old(ViewAtEntry(t)) <= ViewOf(st, t)
      ensures done && !active ==> t !in st.calls && !st.shared.owner.Published?
      ensures done ==>
        && own(CallOf(t)) == old(own(CallOf(t))) + SendCode(t, ty, data)
        && SessionSeen(CallStep(t, Snapshot), |old(trace)|, active)
    {
      active := false;
      done := EnterState(t, Send(ty, data), patience);
      if done {
        active := LockedSnapshot(t);
      }
      SlotBalance(t, old(trace));
    }

    method LockedSnapshot(t: Thread) returns (active: bool)
      requires Valid() && t in st.calls && st.calls[t].Inside? && st.calls[t].op.Send?
      modifies this
      ensures Valid() && Grew() && NoWrites(t, trace, |old(trace)|, |trace|)
      ensures active ==>
        && t in st.calls && st.calls[t] == Loading(old(st.calls[t].op.ty), old(st.calls[t].op.data))
        && old(ViewOf(st, t)) <= ViewOf(st, t)
      ensures active <==> st.shared.owner.Published?
      ensures !active ==> t !in st.calls
      ensures own(CallOf(t)) == old(own(CallOf(t))) + [CallStep(t, Snapshot)]
      ensures SessionSeen(CallStep(t, Snapshot), |old(trace)|, active)
    {
      Others(CallOf(t));
      active := st.shared.owner.Published?;
      ghost var k := |trace|;
      Do(CallStep(t, Snapshot));
      assert trace[k] == CallStep(t, Snapshot) && states[k].shared.owner.Published? == active;
    }

    /** transport_send_packet.  Accepted: the packet is the last one in the channel and its slot stays
        taken.  Rejected: the call leaves the counter as if it had not been made; a supported packet is
        rejected only without a session, after this call has read the depth, or when the writer has
        left.  `wellFormed` is the check of the packet pointer and size. */
    method SendPacket(t: Thread, wellFormed: bool, ty: PacketType, data: Bytes, patience: nat) returns (r: SendResult)
      requires Valid() && t !in st.calls && MayCall(st, t)
      modifies this
      ensures Valid() && Grew()
      ensures !wellFormed ==> r == Rejected && trace == old(trace)
      ensures r.Accepted? ==>
        && ty.Supported? && AcceptedLast(Packet(ty.kind, data))
        && Balance(t, trace) == Balance(t, old(trace)) + 1
      ensures !r.Accepted? ==> Balance(t, trace) == Balance(t, old(trace))
      ensures r.Rejected? && wellFormed && ty.Supported? && c.depth <= c.capacity ==>
        || !st.shared.owner.Published?
        || RefusedAtDepth(t, |old(trace)|, old(ViewAtEntry(t)))
        || !st.shared.receiverAlive
      ensures if r.Unfinished? then Waits(st, t) else t !in st.calls
      ensures wellFormed && !r.Unfinished? ==> SendDone(t, ty, data, |old(trace)|, old(own(CallOf(t))), r.Accepted?)
    {
      if !wellFormed {
        return Rejected;
      }
      var done, active := TakeHandles(t, ty, data, patience);
      if !done {
        return Unfinished;
      }
      if !active {
        assert own(CallOf(t))[|old(own(CallOf(t)))|..] == SendCode(t, ty, data);
        return Rejected;
      }
      ghost var tr, ss := trace, states;
      r := ReserveAndOffer(t, patience);
      WholeSend(t, ty, data, old(own(CallOf(t))), own(CallOf(t)), r.Accepted?);
      StillSeen(CallStep(t, Snapshot), |old(trace)|, true, tr, ss);
    }

    /** The steps `t` took after `before`: it was answered only if its snapshot found the session active,
        and did nothing more if not. */
    ghost predicate SendDone(t: Thread, ty: PacketType, data: Bytes, lo: nat, before: seq<Action>, accepted: bool)
      reads this
    {
      before <= own(CallOf(t)) &&
      var mine := own(CallOf(t))[|before|..];
      || (SessionSeen(CallStep(t, Snapshot), lo, true) && IsAnsweredSend(t, ty, data, mine, accepted))
      || (SessionSeen(CallStep(t, Snapshot), lo, false) && !accepted && mine == SendCode(t, ty, data))
    }

    /** What was seen of the session in an earlier part of the trace has been seen. */
    lemma StillSeen(a: Action, lo: nat, active: bool, tr: seq<Action>, ss: seq<State>)
      requires tr <= trace && ss <= states
      requires exists k | lo <= k < |tr| && k < |ss| :: tr[k] == a && ss[k].shared.owner.Published? == active
      ensures SessionSeen(a, lo, active)
    {
      var k :| lo <= k < |tr| && k < |ss| && tr[k] == a && ss[k].shared.owner.Published? == active;
      assert trace[k] == a && states[k].shared.owner.Published? == active;
    }

    /** The part of a send that no longer needs STATE. */
    method ReserveAndOffer(t: Thread, patience: nat) returns (r: SendResult)
      requires Valid() && t in st.calls && st.calls[t].Loading?
      modifies this
      ensures Valid() && Grew() && t !in st.calls && !r.Unfinished?
      ensures var ty, data := old(st.calls[t]).ty, old(st.calls[t]).data;
        if r.Accepted? then
          && ty.Supported? && AcceptedLast(Packet(ty.kind, data))
          && Balance(t, trace) == Balance(t, old(trace)) + 1
        else
          && Balance(t, trace) == Balance(t, old(trace))
          && (ty.Supported? && c.depth <= c.capacity ==>
                RefusedAtDepth(t, |old(trace)|, old(ViewOf(st, t))) || !st.shared.receiverAlive)
      ensures IsReserveAndOffer(t, old(st.calls[t]).ty, old(own(CallOf(t))), own(CallOf(t)), r.Accepted?)
    {
      var slot := TryReserve(t, patience);
      SlotBalance(t, old(trace));
      if slot.Refused? {
        return Rejected;
      }
      var accepted := Offer(t);
      r := if accepted then Accepted else Rejected;
    }

    /** transport_can_send_packet_now: the answer is about one value of the counter, loaded at `at`,
        which is not behind what any thread had seen when it last left STATE, and about the session as
        it is while STATE is held. */
    method CanSendPacketNow(t: Thread, ty: PacketType, patience: nat) returns (done: bool, yes: bool, ghost at: nat)
      requires Valid() && t !in st.calls && MayCall(st, t)
      modifies this
      ensures Valid() && Grew() && NoWrites(t, trace, |old(trace)|, |trace|)
      ensures ty.Unsupported? ==> done && !yes && trace == old(trace)
      ensures done && ty.Supported? ==>
        t !in st.calls && old(ViewAtEntry(t)) <= at < |st.shared.mods|
        && (yes <==> st.shared.owner.Published? && st.shared.mods[at] < c.depth)
        && own(CallOf(t)) == old(own(CallOf(t)))
             + [CallStep(t, Begin(CanSend)), CallStep(t, Enter), CallStep(t, Answer(at))]
      ensures !done ==> Waits(st, t)
    {
      yes, at := false, 0;
      if ty.Unsupported? {
        return true, false, 0;
      }
      done := EnterState(t, CanSend, patience);
      if done {
        yes, at := LockedAnswer(t);
      }
    }

    method LockedAnswer(t: Thread) returns (yes: bool, at: nat)
      requires Valid() && t in st.calls && st.calls[t] == Inside(CanSend)
      modifies this
      ensures Valid() && Grew() && old(trace) < trace && NoWrites(t, trace, |old(trace)|, |trace|)
      ensures trace[|trace| - 1] == CallStep(t, Answer(at)) && t !in st.calls
      ensures old(ViewOf(st, t)) <= at < |st.shared.mods|
      ensures yes <==> st.shared.owner.Published? && st.shared.mods[at] < c.depth
      ensures own(CallOf(t)) == old(own(CallOf(t))) + [CallStep(t, Answer(at))]
    {
      Others(CallOf(t));
      at := LoadCounter(t);
      yes := SaysYes(c, st, at);
      Do(CallStep(t, Answer(at)));
    }

    /** transport_close: take the session, raise stop, join the readers and then the writer.  The call
        that took the session returns only after every worker has finished, with no transfer left. */
    method CloseTransport(t: Thread, patience: nat) returns (done: bool, took: bool)
      requires Valid() && t !in st.calls && t.Client?
      modifies this
      ensures Valid() && Grew()
      ensures if done then t !in st.calls else Waits(st, t)
      ensures done ==>
        && own(CallOf(t)) == old(own(CallOf(t))) + CloseCode(t, took)
        && SessionSeen(CallStep(t, Take), |old(trace)|, took)
      ensures done && !took ==> trace[|trace| - 1] == CallStep(t, Take) && !st.shared.owner.Published?
      ensures done && took ==> SessionEnded()
    {
      took := false;
      done := EnterState(t, Close, patience);
      if !done {
        return;
      }
      took := LockedTake(t);
      if took {
        done := StopAndJoin(t, patience);
      }
    }

    method StopAndJoin(t: Thread, patience: nat) returns (done: bool)
      requires Valid() && t in st.calls && st.calls[t] == RaisingStop
      modifies this
      ensures Valid() && Grew()
      ensures !done ==> Waits(st, t)
      ensures done ==> t !in st.calls && SessionEnded()
      ensures done ==>
        own(CallOf(t)) == old(own(CallOf(t))) + [CallStep(t, CallAction.RaiseStop)] + JoinCode(t)
    {
      Others(CallOf(t));
      Do(CallStep(t, CallAction.RaiseStop));
      done := JoinAll(t, patience);
    }

    /** Every worker has finished, with nothing in flight. */
    predicate SessionEnded()
      reads this
    {
      && st.shared.owner.Dropped? && st.shared.stop && !st.shared.receiverAlive
      && st.event.pc.ReaderFinished? && st.acl.pc.ReaderFinished? && st.writer.pc.Finished?
      && st.event.pending == 0 && st.acl.pending == 0 && st.writer.queue == []
    }

    method LockedTake(t: Thread) returns (took: bool)
      requires Valid() && t in st.calls && st.calls[t] == Inside(Close)
      modifies this
      ensures Valid() && Grew() && trace != []
      ensures if took then t in st.calls && st.calls[t] == RaisingStop else t !in st.calls
      ensures !took ==> !st.shared.owner.Published?
      ensures trace[|trace| - 1] == CallStep(t, Take) && SessionSeen(CallStep(t, Take), |old(trace)|, took)
      ensures own(CallOf(t)) == old(own(CallOf(t))) + [CallStep(t, Take)]
    {
      Others(CallOf(t));
      took := st.shared.owner.Published?;
      ghost var k := |trace|;
      Do(CallStep(t, Take));
      assert trace[k] == CallStep(t, Take) && states[k].shared.owner.Published? == took;
    }

    method JoinAll(t: Thread, patience: nat) returns (done: bool)
      requires Valid() && t in st.calls && st.calls[t] == Joining(EventReader)
      modifies this
      ensures Valid() && Grew()
      ensures !done ==> Waits(st, t)
      ensures done ==> own(CallOf(t)) == old(own(CallOf(t))) + JoinCode(t)
      ensures done ==> t !in st.calls && SessionEnded()
    {
      done := JoinWorker(t, EventReader, patience);
      if done {
        done := JoinWorker(t, AclReader, patience);
      }
      if done {
        done := JoinWorker(t, Writer, patience);
      }
      if done {
        EverythingFinished();
      }
    }

    lemma EverythingFinished()
      requires Valid() && st.shared.owner.Dropped?
      ensures SessionEnded()
    {
      IsRun();
      BaseReachable(c, st);
      ShutdownSafety(c, st);
      ReaderConservation(c, st, EventReader);
      ReaderConservation(c, st, AclReader);
    }

    method JoinWorker(t: Thread, w: Thread, patience: nat) returns (done: bool)
      requires Valid() && t in st.calls && st.calls[t] == Joining(w) && !w.Client?
      modifies this
      ensures Valid() && Grew()
      ensures !done ==> Waits(st, t)
      ensures done ==> own(CallOf(t)) == old(own(CallOf(t))) + [CallStep(t, Join)]
      ensures done ==> match w
        case EventReader => t in st.calls && st.calls[t] == Joining(AclReader)
        case AclReader => t in st.calls && st.calls[t] == Joining(Writer)
        case _ => t !in st.calls && st.shared.owner.Dropped?
    {
      var left := patience;
      Others(CallOf(t));
      while left > 0 && !WorkerFinished(st, w)
        invariant Valid() && Grew()
        invariant t in st.calls && st.calls[t] == Joining(w) && own(CallOf(t)) == old(own(CallOf(t)))
      {
        Others(CallOf(t));
        left := left - 1;
      }
      done := WorkerFinished(st, w);
      if done {
        Do(CallStep(t, Join));
      }
    }
  }
}
