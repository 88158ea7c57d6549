/** The reader threads: how many buffers are in flight, and which completions are delivered. */
module TransportReaders {
  import opened ByteTypes
  import opened TransportModel
  import opened TransportInvariants

  /** The payloads a completion sequence delivers: the non-empty successful ones, in order. */
  function Payloads(xs: seq<Completion>): seq<Bytes> {
    if xs == [] then []
    else
      var last := xs[|xs| - 1];
      if last.status.Ok? && last.data != [] then Payloads(xs[..|xs| - 1]) + [last.data]
      else Payloads(xs[..|xs| - 1])
  }

  lemma PayloadsAppend(xs: seq<Completion>, x: Completion)
    ensures Payloads(xs + [x]) == if x.status.Ok? && x.data != [] then Payloads(xs) + [x.data] else Payloads(xs)
  {
    assert (xs + [x])[..|xs|] == xs;
  }

  predicate BufferOut(pc: ReaderPc) {
    pc.Emitting? || pc.Recovering? || pc.Testing? || pc.Resubmitting?
  }

  /** The packet being delivered is the only one missing from the history of deliveries. */
  predicate Delivery(r: ReaderState) {
    if r.pc.Emitting? && !r.pc.emit.Handling? then r.emitted + [r.pc.data] == Payloads(r.completed)
    else r.emitted == Payloads(r.completed)
  }

  predicate ReaderInv(c: Config, r: ReaderState) {
    && r.pending >= 0
    && (!r.sawStop ==> r.pending + (if BufferOut(r.pc) then 1 else 0) == c.buffers && !r.pc.Draining?)
    && (r.sawStop ==> !BufferOut(r.pc) && (!r.pc.Draining? ==> r.pending == 0))
    && (r.pc.ReaderFinished? ==> r.pending == 0)
    && Delivery(r)
  }

  predicate ReadersInv(c: Config, s: State) {
    ReaderInv(c, s.event) && ReaderInv(c, s.acl)
  }

  lemma ReaderNextKeeps(c: Config, s: State, t: Thread, a: ReaderAction)
    requires ReaderInv(c, ReaderOf(s, t)) && ReaderEnabled(s, t, a)
    ensures ReaderInv(c, ReaderNext(ReaderOf(s, t), a))
  {
    if a.Complete? {
      PayloadsAppend(ReaderOf(s, t).completed, a.completion);
    }
  }

  lemma ReadersKept(c: Config, s: State, a: Action)
    requires ReadersInv(c, s) && Enabled(c, s, a)
    ensures ReadersInv(c, Apply(c, s, a))
  {
    match a
    case CallStep(t, k) => CallFrame(c, s, t, k);
    case WriterStep(w) => WriterFrame(c, s, w);
    case EmitStep(t, e) => ReaderEmitKeeps(c, s, t, e);
    case ReaderStep(t, r) => ReaderNextKeeps(c, s, t, r);
  }

  lemma ReaderEmitKeeps(c: Config, s: State, t: Thread, a: EmitAction)
    requires ReadersInv(c, s) && EmitEnabled(s, t, a)
    ensures ReadersInv(c, EmitApply(s, t, a))
  {
  }

  lemma {:induction false} ReadersRun(c: Config, s: State, acts: seq<Action>, z: State)
    requires ReadersInv(c, s) && Run(c, s, acts, z)
    ensures ReadersInv(c, z)
    decreases |acts|
  {
    if acts != [] {
      ReadersKept(c, s, acts[0]);
      ReadersRun(c, Apply(c, s, acts[0]), acts[1..], z);
    }
  }

  lemma ReadersReachable(c: Config, z: State)
    requires Reachable(c, z)
    ensures ReadersInv(c, z)
  {
    var s, acts :| Init(c, s) && Run(c, s, acts, z);
    ReadersRun(c, s, acts, z);
  }

  // ---- Main results ------------------------------------------------------------------------------

  /** At the head of its loop a reader that has not seen stop has all its buffers in flight; the
      packets handed to the handler are exactly the non-empty successful completions, in order; and
      it finishes with no buffer in flight. */
  lemma ReaderConservation(c: Config, z: State, t: Thread)
    requires Reachable(c, z) && IsReader(t)
    ensures var r := ReaderOf(z, t);
      && (r.pc.ReaderHead? && !r.sawStop ==> r.pending == c.buffers)
      && (r.pc.ReaderHead? ==> r.emitted == Payloads(r.completed))
      && (r.pc.ReaderFinished? ==> r.pending == 0 && r.emitted == Payloads(r.completed))
      && (r.pc.ReaderFinished? ==> r.sawStop || c.buffers == 0)
  {
    ReadersReachable(c, z);
  }

  lemma AfterStopStep(c: Config, s: State, t: Thread, a: Action)
    requires ReadersInv(c, s) && IsReader(t) && ReaderOf(s, t).sawStop && Enabled(c, s, a)
    ensures var r, q := ReaderOf(s, t), ReaderOf(Apply(c, s, a), t);
      q.sawStop && q.completed == r.completed && q.emitted == r.emitted && q.pending <= r.pending
  {
    match a
    case CallStep(u, k) => CallFrame(c, s, u, k);
    case WriterStep(w) => WriterFrame(c, s, w);
    case EmitStep(u, e) =>
    case ReaderStep(u, r) =>
  }

  /** Nothing that completes after a reader has seen stop is delivered, and no buffer is resubmitted. */
  lemma {:induction false} DrainedNeverDelivered(c: Config, s: State, t: Thread, acts: seq<Action>, z: State)
    requires ReadersInv(c, s) && IsReader(t) && ReaderOf(s, t).sawStop && Run(c, s, acts, z)
    ensures var r, q := ReaderOf(s, t), ReaderOf(z, t);
      q.sawStop && q.completed == r.completed && q.emitted == r.emitted && q.pending <= r.pending
    decreases |acts|
  {
    if acts != [] {
      var y := Apply(c, s, acts[0]);
      AfterStopStep(c, s, t, acts[0]);
      ReadersKept(c, s, acts[0]);
      DrainedNeverDelivered(c, y, t, acts[1..], z);
    }
  }

  // ---- A reader that has seen stop finishes --------------------------------------------------------

  /** Steps left to a reader that has seen stop. */
  function StepsLeft(r: ReaderState): int {
    match r.pc
    case ReaderFinished => 0
    case ReaderHead => 1
    case _ => r.pending + 2
  }

  function ReaderSteps(t: Thread, acts: seq<Action>): nat {
    if acts == [] then 0
    else (if acts[0].ReaderStep? && acts[0].reader == t then 1 else 0) + ReaderSteps(t, acts[1..])
  }

  lemma OneStepLess(c: Config, s: State, t: Thread, a: Action)
    requires ReadersInv(c, s) && IsReader(t) && ReaderOf(s, t).sawStop && Enabled(c, s, a)
    ensures StepsLeft(ReaderOf(Apply(c, s, a), t))
              == StepsLeft(ReaderOf(s, t)) - if a.ReaderStep? && a.reader == t then 1 else 0
  {
    match a
    case CallStep(u, k) => CallFrame(c, s, u, k);
    case WriterStep(w) => WriterFrame(c, s, w);
    case EmitStep(u, e) =>
    case ReaderStep(u, r) =>
  }

  /** From the moment a reader sees stop it takes exactly its remaining buffers plus two more steps
      to finish, in every interleaving. */
  lemma {:induction false} ReaderFinishes(c: Config, s: State, t: Thread, acts: seq<Action>, z: State)
    requires ReadersInv(c, s) && IsReader(t) && ReaderOf(s, t).sawStop && Run(c, s, acts, z)
    ensures StepsLeft(ReaderOf(z, t)) == StepsLeft(ReaderOf(s, t)) - ReaderSteps(t, acts)
    ensures StepsLeft(ReaderOf(z, t)) == 0 <==> ReaderOf(z, t).pc.ReaderFinished?
    ensures StepsLeft(ReaderOf(z, t)) > 0 ==>
      exists r :: ReaderEnabled(z, t, r)
    decreases |acts|
  {
    if acts == [] {
      var r := ReaderOf(s, t);
      if r.pc.Draining? {
        assert ReaderEnabled(s, t, if r.pending > 0 then DrainOne else Drained);
      } else if r.pc.ReaderHead? {
        assert ReaderEnabled(s, t, ReaderExit);
      }
    } else {
      AfterStopStep(c, s, t, acts[0]);
      OneStepLess(c, s, t, acts[0]);
      ReadersKept(c, s, acts[0]);
      ReaderFinishes(c, Apply(c, s, acts[0]), t, acts[1..], z);
    }
  }
}
