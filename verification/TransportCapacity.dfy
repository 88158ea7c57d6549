/** Why the queue depth must not exceed the channel's capacity, nor the bulk window: the exact
    conditions under which try_send can report Full, and under which a full window can keep packets
    waiting in the channel. */
module TransportCapacity {
  import opened Wrappers
  import opened TransportModel
  import opened TransportInvariants
  import opened TransportLedger
  import opened TransportTheorems

  /** A sender with a slot is about to be told Full: the receiver is alive and the channel is full. */
  predicate ToldFull(c: Config, s: State, t: Thread) {
    CallEnabled(c, s, t, TrySend) && s.shared.receiverAlive && !TrySendAccepts(c, s)
  }

  ghost predicate FullCanHappen(c: Config) {
    exists z, t :: Reachable(c, z) && ToldFull(c, z, t)
  }

  lemma ReachStep(c: Config, s: State, a: Action)
    requires Reachable(c, s) && Enabled(c, s, a)
    ensures Reachable(c, Apply(c, s, a))
  {
    var i, acts :| Init(c, i) && Run(c, i, acts, s);
    assert Run(c, s, [a], Apply(c, s, a));
    RunConcat(c, i, acts, s, [a], Apply(c, s, a));
  }

  /** A session nobody is calling: `n` packets in the channel, `m` in flight, the writer at its head. */
  predicate Quiet(s: State, n: nat, m: nat) {
    && s.shared.lock == None && s.shared.owner.Published? && s.shared.receiverAlive
    && s.calls == map[]
    && s.shared.mods != [] && Pending(s) == n + m && |s.shared.channel| == n
    && (n > 0 ==> !IsCommand(s.shared.channel[0]))
    && s.writer.pc == LoopHead && s.writer.inFlight == m && !s.writer.sawStop
  }

  predicate IsCommand(p: Packet) {
    p.kind.Command?
  }

  const SENDER := Client(0)
  const ACL_TYPE := Supported(Acl)

  lemma Opened(c: Config, handler: bool) returns (z: State)
    ensures Reachable(c, z) && Quiet(z, 0, 0) && z.shared.handler == handler
  {
    var r := ReaderState(ReaderHead, c.buffers, false, [], []);
    var s := State(Shared(None, 0, handler, Opening(SENDER), false, [0], [], true),
                   map[SENDER := Waiting(Publish)], map[],
                   WriterState(LoopHead, 0, false, false, []), r, r, Log([], [], [], [], [], [], []));
    assert Init(c, s) && Run(c, s, [], s);
    ReachStep(c, s, CallStep(SENDER, Enter));
    z := CallApply(c, s, SENDER, Enter);
    ReachStep(c, z, CallStep(SENDER, Store));
    z := CallApply(c, z, SENDER, Store);
  }

  /** A send up to the point where the session's handles are known. */
  lemma Entered(c: Config, s: State, n: nat, m: nat) returns (z: State)
    requires Reachable(c, s) && Quiet(s, n, m)
    ensures Reachable(c, z)
    ensures z == s.(calls := map[SENDER := Loading(ACL_TYPE, [])], views := z.views,
                    shared := s.shared.(lockView := z.shared.lockView))
  {
    ReachStep(c, s, CallStep(SENDER, Begin(Send(ACL_TYPE, []))));
    z := CallApply(c, s, SENDER, Begin(Send(ACL_TYPE, [])));
    ReachStep(c, z, CallStep(SENDER, Enter));
    z := CallApply(c, z, SENDER, Enter);
    ReachStep(c, z, CallStep(SENDER, Snapshot));
    z := CallApply(c, z, SENDER, Snapshot);
  }

  lemma Holding(c: Config, s: State, n: nat, m: nat) returns (z: State)
    requires Reachable(c, s) && Quiet(s, n, m) && n + m < c.depth
    ensures Reachable(c, z)
    ensures z == s.(calls := map[SENDER := Reserved(ACL_TYPE, [])], views := z.views,
                    shared := s.shared.(mods := s.shared.mods + [n + m + 1], lockView := z.shared.lockView))
  {
    z := Entered(c, s, n, m);
    z := Exchanged(c, z, SENDER);
  }

  lemma CanSeeLast(c: Config, s: State, t: Thread)
    requires Reachable(c, s)
    ensures s.shared.mods != [] && CounterLoad(s, t, |s.shared.mods| - 1)
  {
    EngineReachable(c, s);
    assert ViewOf(s, t) < |s.shared.mods|;
  }

  lemma Exchanged(c: Config, s: State, t: Thread) returns (z: State)
    requires Reachable(c, s) && s.calls == map[t := Loading(ACL_TYPE, [])]
    requires s.shared.mods != [] && Pending(s) < c.depth
    ensures Reachable(c, z)
    ensures z == s.(calls := map[t := Reserved(ACL_TYPE, [])], views := z.views,
                    shared := s.shared.(mods := s.shared.mods + [Pending(s) + 1]))
  {
    var last := |s.shared.mods| - 1;
    CanSeeLast(c, s, t);
    ReachStep(c, s, CallStep(t, Load(last)));
    z := CallApply(c, s, t, Load(last));
    ReachStep(c, z, CallStep(t, CasOk));
    z := CallApply(c, z, t, CasOk);
  }

  lemma Sent(c: Config, s: State, n: nat, m: nat) returns (z: State)
    requires Reachable(c, s) && Quiet(s, n, m) && n + m < c.depth && n < c.capacity
    ensures Reachable(c, z) && Quiet(z, n + 1, m) && z.shared.handler == s.shared.handler
  {
    z := Holding(c, s, n, m);
    ReachStep(c, z, CallStep(SENDER, TrySend));
    z := CallApply(c, z, SENDER, TrySend);
  }

  lemma {:induction false} Filled(c: Config, n: nat) returns (z: State)
    requires n <= c.capacity && n <= c.depth
    ensures Reachable(c, z) && Quiet(z, n, 0)
  {
    if n == 0 {
      z := Opened(c, false);
    } else {
      z := Filled(c, n - 1);
      z := Sent(c, z, n - 1, 0);
    }
  }

  lemma Taken(c: Config, s: State, m: nat) returns (z: State)
    requires Reachable(c, s) && Quiet(s, 1, m) && m < c.window
    ensures Reachable(c, z) && Quiet(z, 0, m + 1) && z.shared.handler == s.shared.handler
    ensures z.writer.queue != [] && z.writer.cancelled == s.writer.cancelled
  {
    ReachStep(c, s, WriterStep(TestLoop(false)));
    z := WriterApply(c, s, TestLoop(false));
    ReachStep(c, z, WriterStep(Receive));
    z := WriterApply(c, z, Receive);
    z := Counted(c, z);
  }

  lemma Counted(c: Config, s: State) returns (z: State)
    requires Reachable(c, s) && s.writer.pc.Holding? && !IsCommand(s.writer.pc.packet)
    ensures Reachable(c, z) && z.shared == s.shared && z.calls == s.calls
    ensures z.writer.queue != [] && z.writer.cancelled == s.writer.cancelled
    ensures z.writer.pc == LoopHead && z.writer.inFlight == s.writer.inFlight + 1 && z.writer.sawStop == s.writer.sawStop
  {
    ReachStep(c, s, WriterStep(Submit));
    z := WriterApply(c, s, Submit);
    ReachStep(c, z, WriterStep(Count));
    z := WriterApply(c, z, Count);
  }

  lemma {:induction false} InFlight(c: Config, m: nat) returns (z: State)
    requires m <= c.window && m <= c.depth && 1 <= c.capacity
    ensures Reachable(c, z) && Quiet(z, 0, m)
  {
    if m == 0 {
      z := Opened(c, false);
    } else {
      z := InFlight(c, m - 1);
      z := Sent(c, z, 0, m - 1);
      z := Taken(c, z, m - 1);
    }
  }

  /** A sender that holds a slot can be told Full if and only if the depth exceeds the capacity. */
  lemma FullExactlyWhenTooDeep(c: Config)
    ensures FullCanHappen(c) <==> c.capacity < c.depth
  {
    if c.capacity < c.depth {
      var z := Filled(c, c.capacity);
      z := Holding(c, z, c.capacity, 0);
      assert ToldFull(c, z, SENDER);
    } else if FullCanHappen(c) {
      var z, t :| Reachable(c, z) && ToldFull(c, z, t);
      NeverFull(c, z, t);
    }
  }

  // ---- The window --------------------------------------------------------------------------------

  /** The bulk window is full while a packet, command or not, waits in the channel. */
  ghost predicate WindowCanBlock(c: Config) {
    exists z :: Reachable(c, z) && z.writer.inFlight >= c.window && z.shared.channel != []
  }

  lemma ChannelStep(c: Config, s: State, a: Action)
    requires |s.shared.channel| <= c.capacity && Enabled(c, s, a)
    ensures |Apply(c, s, a).shared.channel| <= c.capacity
  {
    match a
    case CallStep(t, k) => ChannelByCall(c, s, t, k);
    case WriterStep(w) => ChannelByWriter(c, s, w);
    case EmitStep(t, e) => EmitFrame(c, s, t, e);
    case ReaderStep(t, r) => ReaderFrame(c, s, t, r);
  }

  lemma ChannelByCall(c: Config, s: State, t: Thread, a: CallAction)
    requires |s.shared.channel| <= c.capacity && CallEnabled(c, s, t, a)
    ensures |CallApply(c, s, t, a).shared.channel| <= c.capacity
  {
    if UnderState(a) {
      QuietUnderState(c, s, t, a);
    } else if !a.CasOk? && !a.GiveBack? && !a.TrySend? {
      QuietOutsideState(c, s, t, a);
    } else if !a.TrySend? {
      ChannelUnused(c, s, t, a);
    }
  }

  lemma ChannelUnused(c: Config, s: State, t: Thread, a: CallAction)
    requires CallEnabled(c, s, t, a) && (a.CasOk? || a.GiveBack?)
    ensures CallApply(c, s, t, a).shared.channel == s.shared.channel
  {
  }

  lemma ChannelByWriter(c: Config, s: State, a: WriterAction)
    requires WriterEnabled(c, s, a)
    ensures |WriterApply(c, s, a).shared.channel| <= |s.shared.channel|
  {
  }

  lemma {:induction false} ChannelBounded(c: Config, s: State, acts: seq<Action>, z: State)
    requires |s.shared.channel| <= c.capacity && Run(c, s, acts, z)
    ensures |z.shared.channel| <= c.capacity
    decreases |acts|
  {
    if acts != [] {
      ChannelStep(c, s, acts[0]);
      ChannelBounded(c, Apply(c, s, acts[0]), acts[1..], z);
    }
  }

  /** A full window can keep packets waiting if and only if the depth exceeds it (and the channel can
      hold a packet at all). */
  lemma WindowBlocksExactlyWhenSmall(c: Config)
    ensures WindowCanBlock(c) <==> c.window < c.depth && 1 <= c.capacity
  {
    if c.window < c.depth && 1 <= c.capacity {
      var z := InFlight(c, c.window);
      z := Sent(c, z, 0, c.window);
      assert Reachable(c, z) && z.writer.inFlight >= c.window && z.shared.channel != [];
    } else if WindowCanBlock(c) {
      var z :| Reachable(c, z) && z.writer.inFlight >= c.window && z.shared.channel != [];
      var s, acts :| Init(c, s) && Run(c, s, acts, z);
      ChannelBounded(c, s, acts, z);
      WindowNeverBlocks(c, z);
    }
  }

  /** The source's depth, capacity, window and reader buffers. */
  const AS_BUILT := Config(4, 4, 4, 3)

  lemma AsBuilt()
    ensures !FullCanHappen(AS_BUILT) && !WindowCanBlock(AS_BUILT)
  {
    FullExactlyWhenTooDeep(AS_BUILT);
    WindowBlocksExactlyWhenSmall(AS_BUILT);
  }
}
