/** The send/receive engine of the USB transport as a labelled transition system.

    One opened session is modelled: any number of client threads calling the transport's entry
    points, the writer thread, the two reader threads, and handlers that re-enter the transport
    from a worker thread.  A step is one access to shared memory (the STATE mutex, an atomic, the
    channel, a transfer queue) or one update of a thread's own variables.

    Shared atomics are Relaxed.  The counter of pending packets is therefore kept with its whole
    modification order, and each thread with its view: the position behind which it can no longer
    read.  A thread's own accesses advance its view, and STATE passes views on: a thread that locks
    it sees all that any thread had seen when it unlocked it.  A load of the stop flag may lag behind
    the store, but never goes back to false in one thread. */
module TransportModel {
  import opened ByteTypes
  import opened Wrappers

  /** Queue depth, channel capacity, bulk window, buffers a reader keeps in flight. */
  datatype Config = Config(depth: nat, capacity: nat, window: nat, buffers: nat)

  datatype Kind = Command | Acl | Iso
  datatype Packet = Packet(kind: Kind, data: Bytes)
  datatype PacketType = Supported(kind: Kind) | Unsupported
  datatype Status = Ok | Stall | OtherError
  datatype Outcome = Outcome(packet: Packet, ok: bool)
  datatype Completion = Completion(status: Status, data: Bytes)

  datatype Thread = Client(id: nat) | Writer | EventReader | AclReader

  // ---- What each thread is doing -----------------------------------------------------------

  /** The entry points; Publish is the tail of transport_open that stores the new session. */
  datatype Op = Send(ty: PacketType, data: Bytes) | CanSend | Register(present: bool) | Close | Publish

  /** A call in progress.  Waiting: at STATE.lock().  Inside: holding STATE. */
  datatype Call =
    | Waiting(op: Op)
    | Inside(op: Op)
    | Loading(ty: PacketType, data: Bytes)
    | Exchanging(ty: PacketType, data: Bytes, current: int)
    | Reserved(ty: PacketType, data: Bytes)
    | GivingBack
    | RaisingStop
    | Joining(worker: Thread)

  /** The stages of emit_packet on a worker thread. */
  datatype Emit = Entering | Locked | Calling(present: bool) | Handling

  datatype WriterPc =
    | LoopHead
    | Receiving
    | Holding(packet: Packet)
    | Counting
    | CommandDone(packet: Packet, ok: bool)
    | Acking(packet: Packet, emit: Emit)
    | CancelTest
    | Cancelling
    | ZeroTest
    | Polling
    | Reaped(packet: Packet, status: Status)
    | Releasing(packet: Packet, status: Status)
    | ClearingHalt
    | Exiting
    | Finished

  datatype ReaderPc =
    | ReaderHead
    | Emitting(data: Bytes, emit: Emit)
    | Recovering
    | Testing
    | Resubmitting
    | Draining
    | ReaderFinished

  datatype Owner = Opening(opener: Thread) | Published | Closing(closer: Thread) | Dropped

  // ---- State -------------------------------------------------------------------------------

  /** STATE, the stop flag, the modification order of the pending counter, and the channel.  A thread
      that locks STATE sees the counter at least up to `lockView`. */
  datatype Shared = Shared(
    lock: Option<Thread>,
    lockView: nat,
    handler: bool,
    owner: Owner,
    stop: bool,
    mods: seq<int>,
    channel: seq<Packet>,
    receiverAlive: bool)

  /** The writer's variables and its bulk-OUT queue, oldest transfer first. */
  datatype WriterState = WriterState(
    pc: WriterPc, inFlight: int, cancelled: bool, sawStop: bool, queue: seq<Packet>)

  datatype ReaderState = ReaderState(
    pc: ReaderPc, pending: int, sawStop: bool, completed: seq<Completion>, emitted: seq<Bytes>)

  /** History of the session; no step reads it. */
  datatype Log = Log(
    accepted: seq<Packet>,
    dequeued: seq<Packet>,
    submitted: seq<Packet>,
    results: seq<Outcome>,
    acked: seq<Packet>,
    abandoned: seq<Packet>,
    cancels: seq<nat>)

  datatype State = State(
    shared: Shared,
    calls: map<Thread, Call>,
    views: map<Thread, nat>,
    writer: WriterState,
    event: ReaderState,
    acl: ReaderState,
    log: Log)

  /** The value an atomic read-modify-write finds: the last of the modification order. */
  function Pending(s: State): int {
    if s.shared.mods == [] then 0 else s.shared.mods[|s.shared.mods| - 1]
  }

  /** transport_open just before it stores the session: the workers are already running. */
  predicate Init(c: Config, s: State) {
    && s.shared.lock == None && s.shared.lockView == 0
    && s.shared.owner.Opening?
    && s.shared.owner.opener.Client?
    && !s.shared.stop
    && s.shared.mods == [0]
    && s.shared.channel == []
    && s.shared.receiverAlive
    && s.calls == map[s.shared.owner.opener := Waiting(Publish)]
    && s.views == map[]
    && s.writer == WriterState(LoopHead, 0, false, false, [])
    && s.event == ReaderState(ReaderHead, c.buffers, false, [], [])
    && s.acl == s.event
    && s.log == Log([], [], [], [], [], [], [])
  }

  // ---- Actions -----------------------------------------------------------------------------

  datatype CallAction =
    | Begin(op: Op)
    | Enter
    | Snapshot
    | Load(at: nat)
    | Refuse
    | CasOk
    | CasFail(at: nat)
    | Reject
    | TrySend
    | GiveBack
    | Answer(at: nat)
    | SetHandler
    | Take
    | RaiseStop
    | Join
    | Store

  datatype WriterAction =
    | TestLoop(seen: bool)
    | Receive
    | Timeout
    | Disconnected
    | SendCommand(ok: bool)
    | Submit
    | Count
    | ReleaseCommand
    | TestCancel(seen: bool)
    | CancelAll
    | TestZero(seen: bool)
    | PollNone
    | PollSome(status: Status)
    | Decrement
    | ReleaseBulk
    | ClearHalt
    | Exit

  datatype EmitAction = Lock | ReadHandler | Dispatch | Return

  datatype ReaderAction =
    | Complete(completion: Completion)
    | Recover
    | Test(seen: bool)
    | Resubmit
    | DrainOne
    | Drained
    | ReaderExit

  datatype Action =
    | CallStep(caller: Thread, call: CallAction)
    | WriterStep(write: WriterAction)
    | EmitStep(worker: Thread, emit: EmitAction)
    | ReaderStep(reader: Thread, read: ReaderAction)

  // ---- Helpers -----------------------------------------------------------------------------

  predicate IsReader(t: Thread) {
    t.EventReader? || t.AclReader?
  }

  function ReaderOf(s: State, t: Thread): ReaderState {
    if t.EventReader? then s.event else s.acl
  }

  function WithReader(s: State, t: Thread, r: ReaderState): State {
    if t.EventReader? then s.(event := r) else s.(acl := r)
  }

  function WithPc(s: State, pc: WriterPc): State {
    s.(writer := s.writer.(pc := pc))
  }

  /** Where worker `t` is in emit_packet, if it is there. */
  function EmitOf(s: State, t: Thread): Option<Emit> {
    match t
    case Client(_) => None
    case Writer => if s.writer.pc.Acking? then Some(s.writer.pc.emit) else None
    case _ => if ReaderOf(s, t).pc.Emitting? then Some(ReaderOf(s, t).pc.emit) else None
  }

  function WithEmit(s: State, t: Thread, e: Emit): State
    requires EmitOf(s, t).Some?
  {
    if t.Writer? then WithPc(s, s.writer.pc.(emit := e))
    else WithReader(s, t, ReaderOf(s, t).(pc := ReaderOf(s, t).pc.(emit := e)))
  }

  /** A worker thread calls the transport only from inside its handler. */
  predicate MayCall(s: State, t: Thread) {
    t.Client? || EmitOf(s, t) == Some(Handling)
  }

  predicate WorkerFinished(s: State, t: Thread) {
    match t
    case Client(_) => false
    case Writer => s.writer.pc.Finished?
    case _ => ReaderOf(s, t).pc.ReaderFinished?
  }

  /** What a load of the stop flag may return to a thread that has seen `saw`. */
  predicate StopLoad(s: State, saw: bool, seen: bool) {
    (seen ==> s.shared.stop) && (saw ==> seen)
  }

  /** The position of the modification order behind which `t` cannot read. */
  function ViewOf(s: State, t: Thread): nat {
    if t in s.views then s.views[t] else 0
  }

  /** What a load of the counter may return to `t`: a position of the modification order. */
  predicate CounterLoad(s: State, t: Thread, at: nat) {
    ViewOf(s, t) <= at < |s.shared.mods|
  }

  function Seen(s: State, t: Thread, at: nat): State {
    s.(views := s.views[t := at])
  }

  /** An atomic add to the counter by `t`. */
  function Add(s: State, t: Thread, d: int): State {
    Seen(s.(shared := s.shared.(mods := s.shared.mods + [Pending(s) + d])), t, |s.shared.mods|)
  }

  function Max(a: nat, b: nat): nat {
    if a < b then b else a
  }

  /** Locking STATE synchronises with every earlier unlock. */
  function Acquire(s: State, t: Thread): State {
    Seen(s.(shared := s.shared.(lock := Some(t))), t, Max(ViewOf(s, t), s.shared.lockView))
  }

  function Release(s: State, t: Thread): State {
    s.(shared := s.shared.(lock := None, lockView := Max(ViewOf(s, t), s.shared.lockView)))
  }

  function Goto(s: State, t: Thread, k: Call): State {
    s.(calls := s.calls[t := k])
  }

  function End(s: State, t: Thread): State {
    s.(calls := s.calls - {t})
  }

  /** Some `Sender` of the channel is still alive. */
  predicate SenderAlive(s: State) {
    || !s.shared.owner.Dropped?
    || exists t | t in s.calls :: HasSender(s.calls[t])
  }

  predicate HasSender(k: Call) {
    k.Loading? || k.Exchanging? || k.Reserved? || k.GivingBack?
  }

  predicate TrySendAccepts(c: Config, s: State) {
    s.shared.receiverAlive && |s.shared.channel| < c.capacity
  }

  // ---- Entry points ------------------------------------------------------------------------

  predicate CallEnabled(c: Config, s: State, t: Thread, a: CallAction) {
    if a.Begin? then
      t !in s.calls && MayCall(s, t) && !a.op.Publish? && (a.op.Close? ==> t.Client?)
    else
      t in s.calls && CallContinues(c, s, t, s.calls[t], a)
  }

  predicate CallContinues(c: Config, s: State, t: Thread, k: Call, a: CallAction) {
    match a
    case Begin(_) => false
    case Enter => k.Waiting? && s.shared.lock == None
    case Snapshot => k.Inside? && k.op.Send?
    case Load(at) => k.Loading? && CounterLoad(s, t, at)
    case Refuse => k.Exchanging? && k.current >= c.depth
    case CasOk => k.Exchanging? && k.current < c.depth && Pending(s) == k.current
    case CasFail(at) => k.Exchanging? && k.current < c.depth && CounterLoad(s, t, at)
    case Reject => k.Reserved? && k.ty.Unsupported?
    case TrySend => k.Reserved? && k.ty.Supported?
    case GiveBack => k.GivingBack?
    case Answer(at) => k == Inside(CanSend) && CounterLoad(s, t, at)
    case SetHandler => k.Inside? && k.op.Register?
    case Take => k == Inside(Close)
    case RaiseStop => k.RaisingStop?
    case Join => k.Joining? && WorkerFinished(s, k.worker)
    case Store => k == Inside(Publish)
  }

  function CallApply(c: Config, s: State, t: Thread, a: CallAction): State
    requires CallEnabled(c, s, t, a)
  {
    match a
    case Begin(op) => Goto(s, t, Waiting(op))
    case Enter => Goto(Acquire(s, t), t, Inside(s.calls[t].op))
    case Snapshot =>
      if s.shared.owner.Published? then Goto(Release(s, t), t, Loading(s.calls[t].op.ty, s.calls[t].op.data))
      else End(Release(s, t), t)
    case Load(at) =>
      Goto(Seen(s, t, at), t, Exchanging(s.calls[t].ty, s.calls[t].data, s.shared.mods[at]))
    case Refuse => End(s, t)
    case CasOk => Goto(Add(s, t, 1), t, Reserved(s.calls[t].ty, s.calls[t].data))
    case CasFail(at) => Goto(Seen(s, t, at), t, s.calls[t].(current := s.shared.mods[at]))
    case Reject => Goto(s, t, GivingBack)
    case TrySend =>
      if TrySendAccepts(c, s) then
        var p := Packet(s.calls[t].ty.kind, s.calls[t].data);
        End(s.(shared := s.shared.(channel := s.shared.channel + [p]),
               log := s.log.(accepted := s.log.accepted + [p])), t)
      else Goto(s, t, GivingBack)
    case GiveBack => End(Add(s, t, -1), t)
    case Answer(at) => End(Release(Seen(s, t, at), t), t)
    case SetHandler => End(Release(s.(shared := s.shared.(handler := s.calls[t].op.present)), t), t)
    case Take =>
      if s.shared.owner.Published? then
        Goto(Release(s.(shared := s.shared.(owner := Closing(t))), t), t, RaisingStop)
      else End(Release(s, t), t)
    case RaiseStop => Goto(s.(shared := s.shared.(stop := true)), t, Joining(EventReader))
    case Join =>
      match s.calls[t].worker {
        case EventReader => Goto(s, t, Joining(AclReader))
        case AclReader => Goto(s, t, Joining(Writer))
        case _ => End(s.(shared := s.shared.(owner := Dropped)), t)
      }
    case Store => End(Release(s.(shared := s.shared.(owner := Published)), t), t)
  }

  /** The answer transport_can_send_packet_now gives after loading position `at`. */
  predicate SaysYes(c: Config, s: State, at: nat)
    requires at < |s.shared.mods|
  {
    s.shared.owner.Published? && s.shared.mods[at] < c.depth
  }

  // ---- Writer ------------------------------------------------------------------------------

  /** A test that does not get as far as loading the stop flag sees nothing; recv_timeout gives up only
      when the channel is empty. */
  predicate WriterEnabled(c: Config, s: State, a: WriterAction) {
    var w := s.writer;
    match a
    case TestLoop(seen) => w.pc.LoopHead? && if w.inFlight < c.window then StopLoad(s, w.sawStop, seen) else !seen
    case Receive => w.pc.Receiving? && s.shared.channel != []
    case Timeout => w.pc.Receiving? && s.shared.channel == []
    case Disconnected => w.pc.Receiving? && s.shared.channel == [] && !SenderAlive(s)
    case SendCommand(_) => w.pc.Holding? && w.pc.packet.kind.Command?
    case Submit => w.pc.Holding? && !w.pc.packet.kind.Command?
    case Count => w.pc.Counting?
    case ReleaseCommand => w.pc.CommandDone?
    case TestCancel(seen) => w.pc.CancelTest? && StopLoad(s, w.sawStop, seen)
    case CancelAll => w.pc.Cancelling?
    case TestZero(seen) => w.pc.ZeroTest? && if w.inFlight == 0 then StopLoad(s, w.sawStop, seen) else !seen
    case PollNone => w.pc.Polling?
    case PollSome(_) => w.pc.Polling? && w.queue != []
    case Decrement => w.pc.Reaped?
    case ReleaseBulk => w.pc.Releasing?
    case ClearHalt => w.pc.ClearingHalt?
    case Exit => w.pc.Exiting?
  }

  /** Leaving the thread drops the receiver, and with it every packet still in the channel. */
  function DropReceiver(s: State): State {
    s.(shared := s.shared.(receiverAlive := false, channel := []),
       writer := s.writer.(pc := Finished),
       log := s.log.(abandoned := s.log.abandoned + s.shared.channel))
  }

  function WriterApply(c: Config, s: State, a: WriterAction): State
    requires WriterEnabled(c, s, a)
  {
    var w := s.writer;
    match a
    case TestLoop(seen) =>
      if w.inFlight >= c.window then WithPc(s, CancelTest)
      else s.(writer := w.(sawStop := seen, pc := if seen then CancelTest else Receiving))
    case Receive =>
      var p := s.shared.channel[0];
      s.(shared := s.shared.(channel := s.shared.channel[1..]),
         writer := w.(pc := Holding(p)),
         log := s.log.(dequeued := s.log.dequeued + [p]))
    case Timeout => WithPc(s, CancelTest)
    case Disconnected => DropReceiver(s)
    case SendCommand(ok) =>
      s.(writer := w.(pc := CommandDone(w.pc.packet, ok)),
         log := s.log.(results := s.log.results + [Outcome(w.pc.packet, ok)]))
    case Submit =>
      s.(writer := w.(pc := Counting, queue := w.queue + [w.pc.packet]),
         log := s.log.(submitted := s.log.submitted + [w.pc.packet]))
    case Count => s.(writer := w.(pc := LoopHead, inFlight := w.inFlight + 1))
    case ReleaseCommand =>
      WithPc(Add(s, Writer, -1), if w.pc.ok then Acking(w.pc.packet, Entering) else LoopHead)
    case TestCancel(seen) =>
      s.(writer := w.(sawStop := seen, pc := if seen && !w.cancelled then Cancelling else ZeroTest))
    case CancelAll =>
      s.(writer := w.(pc := ZeroTest, cancelled := true),
         log := s.log.(cancels := s.log.cancels + [|s.log.submitted|]))
    case TestZero(seen) =>
      if w.inFlight == 0 then s.(writer := w.(sawStop := seen, pc := if seen then Exiting else LoopHead))
      else WithPc(s, Polling)
    case PollNone => WithPc(s, LoopHead)
    case PollSome(status) =>
      s.(writer := w.(pc := Reaped(w.queue[0], status), queue := w.queue[1..]),
         log := s.log.(results := s.log.results + [Outcome(w.queue[0], status.Ok?)]))
    case Decrement =>
      s.(writer := w.(inFlight := w.inFlight - 1, pc := Releasing(w.pc.packet, w.pc.status)))
    case ReleaseBulk =>
      WithPc(Add(s, Writer, -1),
             match w.pc.status
             case Ok => Acking(w.pc.packet, Entering)
             case Stall => ClearingHalt
             case OtherError => LoopHead)
    case ClearHalt => WithPc(s, LoopHead)
    case Exit => DropReceiver(s)
  }

  // ---- emit_packet on a worker thread ------------------------------------------------------

  predicate EmitEnabled(s: State, t: Thread, a: EmitAction) {
    EmitOf(s, t).Some? &&
    var e := EmitOf(s, t).value;
    match a
    case Lock => e.Entering? && s.shared.lock == None
    case ReadHandler => e.Locked?
    case Dispatch => e.Calling?
    case Return => e.Handling? && t !in s.calls
  }

  /** What a worker does after emit_packet returns. */
  function AfterEmit(s: State, t: Thread): State {
    if t.Writer? then WithPc(s, LoopHead)
    else WithReader(s, t, ReaderOf(s, t).(pc := Testing))
  }

  /** The emission has happened: it is entered into the worker's history. */
  function LogEmit(s: State, t: Thread): State
    requires EmitOf(s, t).Some?
  {
    if t.Writer? then s.(log := s.log.(acked := s.log.acked + [s.writer.pc.packet]))
    else WithReader(s, t, ReaderOf(s, t).(emitted := ReaderOf(s, t).emitted + [ReaderOf(s, t).pc.data]))
  }

  function EmitApply(s: State, t: Thread, a: EmitAction): State
    requires EmitEnabled(s, t, a)
  {
    match a
    case Lock => WithEmit(Acquire(s, t), t, Locked)
    case ReadHandler => WithEmit(Release(s, t), t, Calling(s.shared.handler))
    case Dispatch =>
      if EmitOf(s, t).value.present then WithEmit(LogEmit(s, t), t, Handling)
      else AfterEmit(LogEmit(s, t), t)
    case Return => AfterEmit(s, t)
  }

  // ---- Readers -----------------------------------------------------------------------------

  predicate Deliverable(x: Completion) {
    x.status.Ok? && x.data != []
  }

  predicate ReaderEnabled(s: State, t: Thread, a: ReaderAction) {
    IsReader(t) &&
    var r := ReaderOf(s, t);
    match a
    case Complete(_) => r.pc.ReaderHead? && r.pending > 0
    case Recover => r.pc.Recovering?
    case Test(seen) => r.pc.Testing? && StopLoad(s, r.sawStop, seen)
    case Resubmit => r.pc.Resubmitting?
    case DrainOne => r.pc.Draining? && r.pending > 0
    case Drained => r.pc.Draining? && r.pending <= 0
    case ReaderExit => r.pc.ReaderHead? && r.pending <= 0
  }

  function ReaderNext(r: ReaderState, a: ReaderAction): ReaderState {
    match a
    case Complete(x) =>
      r.(pending := r.pending - 1, completed := r.completed + [x],
         pc := if Deliverable(x) then Emitting(x.data, Entering) else if x.status.Stall? then Recovering else Testing)
    case Recover => r.(pc := Testing)
    case Test(seen) => r.(sawStop := seen, pc := if seen then Draining else Resubmitting)
    case Resubmit => r.(pending := r.pending + 1, pc := ReaderHead)
    case DrainOne => r.(pending := r.pending - 1)
    case Drained => r.(pc := ReaderHead)
    case ReaderExit => r.(pc := ReaderFinished)
  }

  // ---- Steps and runs ----------------------------------------------------------------------

  predicate Enabled(c: Config, s: State, a: Action) {
    match a
    case CallStep(t, k) => CallEnabled(c, s, t, k)
    case WriterStep(w) => WriterEnabled(c, s, w)
    case EmitStep(t, e) => EmitEnabled(s, t, e)
    case ReaderStep(t, r) => ReaderEnabled(s, t, r)
  }

  function Apply(c: Config, s: State, a: Action): State
    requires Enabled(c, s, a)
  {
    match a
    case CallStep(t, k) => CallApply(c, s, t, k)
    case WriterStep(w) => WriterApply(c, s, w)
    case EmitStep(t, e) => EmitApply(s, t, e)
    case ReaderStep(t, r) => WithReader(s, t, ReaderNext(ReaderOf(s, t), r))
  }

  /** `acts` leads from `s` to `z`. */
  ghost predicate Run(c: Config, s: State, acts: seq<Action>, z: State)
    decreases |acts|
  {
    if acts == [] then s == z
    else Enabled(c, s, acts[0]) && Run(c, Apply(c, s, acts[0]), acts[1..], z)
  }

  lemma {:induction false} RunConcat(c: Config, s: State, acts: seq<Action>, y: State, more: seq<Action>, z: State)
    requires Run(c, s, acts, y) && Run(c, y, more, z)
    ensures Run(c, s, acts + more, z)
    decreases |acts|
  {
    if acts == [] {
      assert acts + more == more;
    } else {
      RunConcat(c, Apply(c, s, acts[0]), acts[1..], y, more, z);
      assert (acts + more)[1..] == acts[1..] + more;
    }
  }

  ghost predicate Reachable(c: Config, z: State) {
    exists s, acts :: Init(c, s) && Run(c, s, acts, z)
  }
}
