# Verification of the nusb HCI transport and the GATT peripheral store

A Dafny model of the two stateful parts of btstack-rs, with proofs about every run of them.
`dafny verify dfyconfig.toml` checks the whole project.

## The USB transport

One opened session of the transport is a labelled transition system (`TransportModel`). Its threads
are any number of client threads inside the entry points, the writer, the event reader, the ACL
reader, and whatever calls a packet handler makes from a worker thread. A step is one access to
shared memory or one update of a thread's own variables, so that, for instance, taking a completion
off the queue, `in_flight_out -= 1` and `pending.fetch_sub` are three steps with everybody else in
between. Queue depth, channel capacity, bulk window and reader buffers are parameters; a theorem that
needs a relation between them says so.

- The atomics are Relaxed. The pending counter is kept with its whole modification order, and every
  thread with its view of it: a load may return any value from the view on, and a thread's own loads
  and read-modify-writes move its view. The mutex STATE passes views on, from each unlock to every
  later lock. A load of `stop` may lag, but never returns from true to false in one thread.
- The bulk-OUT queue is a FIFO of transfers that completes in order with any status; a control
  transfer ends with any result; `recv_timeout` times out only when the channel is empty; a weak
  exchange may fail for no reason. An idle poll and a sleep are a step that changes nothing.
- The history (accepted, dequeued, submitted, results, acknowledged, abandoned, cancellations) is
  recorded beside the state and read by no step. `acked` records a packet-sent event when
  `emit_packet` dispatches it, also when no handler is registered to hear it.

`TransportInvariants`, `TransportLedger`, `TransportHistory` and `TransportReaders` hold the
invariants, one lemma per group of steps; `TransportTheorems`, `TransportTermination`,
`TransportSlotRelease`, `TransportDeadlock`, `TransportClose`, `TransportCapacity`,
`TransportCoherence` and `TransportReentry` the results. `TransportAccounts` and
`TransportAdmission` explain the state by the steps of the run alone: what was counted, who was
admitted, what was accepted, which handler was called. `TransportSession` is the code again, as a
class whose methods follow `spawn_writer`, the reader loop, `try_reserve_send_slot`,
`transport_send_packet`, `transport_can_send_packet_now` and `transport_close` with their local
variables, while other threads take any steps in between; every method keeps the trace a run of the
transition system. A wait for STATE, for a join or for a handler has a bound on its patience; a
method that gives up leaves its thread in that wait. The writer's endless loop has a number of
turns, each of which takes a step of its own. What the bulk queue and the control transfers yield,
and whether a load of stop is stale, is given from outside by the number of the step (`World`), and
every step goes as given; a reader is given the completions that arrive: what is proved holds after
any number of them, and that the writer and the readers come to an end is proved about runs, without
a bound.

Assumptions: a handler running on a worker thread does not call `transport_close` (it would join
itself); `transport_open` calls do not overlap; the queue completes transfers in submission order.

What the code does not promise, and is not claimed: a reader looks at `stop` only after a completion;
packets still in the channel when the writer leaves are dropped with their slots; the writer may
leave without having cancelled anything when nothing was in flight.

## The GATT store

`GattModel` is the store (characteristics by value handle, the index from CCC handles to value
handles, the notification flags) with the meaning of each callback as a function; `GattServer` is the
code: resolution by nested loops, the index built by going over a map in arbitrary order, and a class
whose methods are the callbacks. `GattHistory` says what the store remembers of any sequence of
events, `GattChunks` what long writes and long reads in pieces give back. The lookups in the ATT
database are arbitrary functions in which handle 0 means not found. The blob helper is assumed to copy
the bytes between the offset and the end, up to the buffer's size. A write never shrinks a value, and
a read passes the value's length on modulo 65536; both are kept, and `ReadBackExactly` says when a
client notices.

## Device description

`UsbPath` parses the sysfs name, `UsbInfo` builds the event that reports the device, `UsbEndpoints`
chooses the endpoints.

## Model

| member | source | states |
|---|---|---|
| TransportTheorems.SlotLedger | btstack-hci-transport-nusb/src/io.rs:110-160 | in every interleaving the pending counter is the sum of the reservations held by callers, the packets in the channel, the one received and not yet counted, `in_flight_out`, the one reaped and not yet released, and the packets abandoned at exit; it and every earlier value stay within 0 and the depth |
| TransportTheorems.NoUnderflow | btstack-hci-transport-nusb/src/io.rs:126-152 | whoever is about to release a slot finds the counter positive, and `in_flight_out` is positive when it is decremented |
| TransportTheorems.NeverFull | btstack-hci-transport-nusb/src/lib.rs:217-238 | with depth at most capacity, try_send by the holder of a slot fails exactly when the receiver is gone |
| TransportTheorems.WindowNeverBlocks | btstack-hci-transport-nusb/src/io.rs:116-136 | with depth at most the window, a full window means an empty channel, no reservation, nothing abandoned |
| TransportCapacity.FullExactlyWhenTooDeep | btstack-hci-transport-nusb/src/lib.rs:120 | some run tells the holder of a slot Full if and only if the depth exceeds the channel capacity |
| TransportCapacity.WindowBlocksExactlyWhenSmall | btstack-hci-transport-nusb/src/constants.rs:9-13 | some run leaves packets waiting behind a full window if and only if the depth exceeds the window and the channel can hold a packet |
| TransportCapacity.AsBuilt | btstack-hci-transport-nusb/src/constants.rs:9-13 | with the depth 4, channel 4 and window 4 of the source neither ever happens |
| TransportTheorems.FifoDelivery | btstack-hci-transport-nusb/src/io.rs:116-135 | dequeued is a prefix of accepted; submissions are the bulk projection of the dequeued packets, completions a prefix of the submissions, commands end in order |
| TransportTheorems.ExactAcknowledgement | btstack-hci-transport-nusb/src/io.rs:124-159 | the packet-sent events are exactly the successful results in order, save that the latest may be on its way |
| TransportTheorems.Conservation | btstack-hci-transport-nusb/src/io.rs:116-159 | accepted = acknowledged + about to be + failed + queued + held + in flight + abandoned |
| TransportTheorems.ShutdownSafety | btstack-hci-transport-nusb/src/io.rs:115-160 | the queue is cancelled once the writer has seen stop with a transfer in flight and passed its test, and never twice; nothing is submitted after it, the channel is never found disconnected, and when the receiver is gone every transfer was reaped and every success acknowledged |
| TransportTheorems.NothingAfterCancel | btstack-hci-transport-nusb/src/io.rs:138-141 | no continuation of a cancelled state submits or cancels again |
| TransportAccounts.CounterAccount | btstack-hci-transport-nusb/src/io.rs:225-244 | in every run the pending counter moves by the reservations less the releases, and nothing else writes it |
| TransportAccounts.WriterAccount | btstack-hci-transport-nusb/src/io.rs:110-162 | in every run the packets received, submitted, counted in and out of `in_flight_out`, cancelled and acknowledged are the writer's steps of that kind, and the results are the endings that were reported |
| TransportAccounts.StopAccount | btstack-hci-transport-nusb/src/io.rs:116-148 | in every run stop is up exactly when a close raised it, the writer knows exactly when a load of its own found it, it cancels exactly when it saw it where it tests for that, and the receiver is gone exactly when it left |
| TransportAccounts.ReaderAccount | btstack-hci-transport-nusb/src/io.rs:28-56 | in every run a reader's buffers out are those it had, less completed and drained, plus resubmitted; it took the completions that arrived and delivered once per dispatch |
| TransportAdmission.OwnerAccount | btstack-hci-transport-nusb/src/lib.rs:133-163 | the session is being opened until it is stored, published until the first close takes it, closing until that close has made three joins, then gone |
| TransportAdmission.OnlyAdmittedSend | btstack-hci-transport-nusb/src/lib.rs:205-216 | only a send whose snapshot found the session active ever touches the counter or the channel |
| TransportAdmission.NothingBeforeOpen | btstack-hci-transport-nusb/src/lib.rs:120-143 | until the session is stored the counter has not moved and nothing was accepted |
| TransportAdmission.AcceptedAccount | btstack-hci-transport-nusb/src/lib.rs:222-239 | the channel has accepted exactly what the calls that reached try_send were asked to send, in order, unless the writer had left or the channel was full |
| TransportAdmission.LastSends | btstack-hci-transport-nusb/src/lib.rs:148-163 | once a close has taken the session it never comes back, and no more packets are accepted than there were calls already holding its handles |
| TransportAdmission.HandlerCalls | btstack-hci-transport-nusb/src/io.rs:210-223 | the handler is the one of the last registration, and a worker calls it once for every dispatch for which it found one registered, and never otherwise |
| TransportTermination.WriterStepsBounded | btstack-hci-transport-nusb/src/io.rs:138-160 | after the writer has seen stop, in every continuation its steps are bounded by a measure of its position and queue plus five for every idle poll |
| TransportTermination.WriterProgress | btstack-hci-transport-nusb/src/io.rs:115-161 | until it has left it can take a step that lowers the measure, unless it waits for STATE or for its handler |
| TransportSlotRelease.ReleasedBeforeAck | btstack-hci-transport-nusb/src/io.rs:124-154 | from a release until the next reservation by anyone, the handler the writer calls, and every thread whose view has reached the release, is told yes whatever value it loads, and its send is not refused |
| TransportSlotRelease.ReleaseVisibleThroughState | btstack-hci-transport-nusb/src/io.rs:210-223 | the same for any thread that locks STATE after the acknowledgement has left it, whatever happens in between short of a reservation |
| TransportSlotRelease.ReentrantSendAccepted | btstack-hci-transport-nusb/src/lib.rs:222-238 | a reservation made on the writer thread always ends with the packet in the channel |
| TransportReentry.HandlerSends | btstack-hci-transport-nusb/src/io.rs:150-153 | wherever one packet can be sent at all, some run has the handler of its acknowledgement send the next |
| TransportCoherence.CoherentReads | btstack-hci-transport-nusb/src/io.rs:225-244 | within one thread no read of the counter goes back behind an earlier read, or behind its own write |
| TransportDeadlock.HolderNeverWaits | btstack-hci-transport-nusb/src/io.rs:210-223 | the holder of STATE is at no join, no handler call and no second lock |
| TransportDeadlock.WaitGraphAcyclic | btstack-hci-transport-nusb/src/lib.rs:148-163 | the wait-for graph over STATE and the joins has no cycle and no chain of more than two waits |
| TransportDeadlock.DeadlockFree | btstack-hci-transport-nusb/src/lib.rs:148-239 | from any thread with work to do, at most two waits lead to a thread with an enabled step (possibly an idle one: a timeout, an empty poll, a failed exchange), close and re-entrant handlers included |
| TransportClose.CloseCanReturn | btstack-hci-transport-nusb/src/lib.rs:148-163 | from every reachable state with a close under way, some run lets it return: workers finished, nothing in flight, every success acknowledged, the session dropped |
| TransportClose.SessionCanEnd | btstack-hci-transport-nusb/src/lib.rs:91-163 | from every reachable state in which some client is free to call close, some run ends the session, whatever its threads and handlers are in the middle of |
| TransportInvariants.BaseReachable | btstack-hci-transport-nusb/src/lib.rs:133-163 | mutual exclusion of the STATE sections, calls from workers only inside handlers, and one owner of the session from open to the end of close, in every reachable state |
| TransportReaders.ReaderConservation | btstack-hci-transport-nusb/src/io.rs:28-56 | a reader at its loop head has all buffers in flight until it sees stop; it has delivered exactly the non-empty successful completions in order; it finishes with none in flight |
| TransportReaders.DrainedNeverDelivered | btstack-hci-transport-nusb/src/io.rs:180-187 | after a reader has seen stop nothing more is delivered or resubmitted, in any continuation |
| TransportReaders.ReaderFinishes | btstack-hci-transport-nusb/src/io.rs:68-96 | from then on it takes exactly its remaining buffers plus two steps to finish, and always can |
| TransportSession.Session.TryReserve | btstack-hci-transport-nusb/src/io.rs:225-244 | true: exactly one increment, as the last step, from below the depth; false: no write, and the last access of this call, a load or a failed exchange no further back than its thread could see at the start, returned the depth; under any interference and spurious failures, and ending once both cease |
| TransportSession.Session.CompareExchangeWeak | btstack-hci-transport-nusb/src/io.rs:234-242 | success is one write, of the expected value plus one, which is at most the depth; failure writes nothing and returns a value its thread had not yet gone beyond |
| TransportSession.Session.RunWriter | btstack-hci-transport-nusb/src/io.rs:110-162 | the writer thread with its local counter and flag is a run of the model; when it leaves, nothing is in flight and every success is acknowledged; otherwise it is blocked in an emission or has taken a step of its own in every turn |
| TransportSession.Session.FillWindow | btstack-hci-transport-nusb/src/io.rs:116-136 | the inner loop ends at the stop test with the local `in_flight_out` equal to the modelled one; every turn spent is a step of the writer |
| TransportSession.Session.CancelOnStop | btstack-hci-transport-nusb/src/io.rs:138-141 | when no load is stale a raised stop is seen; the queue is cancelled by the first pass that sees it, right after its test, and by no other; the local flag is set exactly then |
| TransportSession.Session.ReapOne | btstack-hci-transport-nusb/src/io.rs:150-160 | what the queue yields is taken: nothing, and an idle poll changes nothing; or a status, and the oldest transfer is taken off and, in this order, counted off the local `in_flight_out`, released, and then acknowledged, its halt cleared, or its failure ignored |
| TransportSession.Session.EmitPacketSent | btstack-hci-transport-nusb/src/io.rs:189-223 | the steps of an emission are lock STATE, read the handler and unlock, dispatch, and a return from the handler exactly when one was registered when it was read; the packet is entered as acknowledged and the writer is back at its loop |
| TransportSession.Session.EmitFromReader | btstack-hci-transport-nusb/src/io.rs:210-223 | the same on a reader thread: the handler is called exactly when one was registered when it was read, and the reader then tests stop |
| TransportSession.Session.RecvTimeout | btstack-hci-transport-nusb/src/io.rs:117-121 | takes the oldest packet if there is one, and times out only when the channel is empty |
| TransportSession.Session.RunReader | btstack-hci-transport-nusb/src/io.rs:28-56 | given the arriving completions, the reader thread delivers the non-empty successful ones in order up to the one at which it sees stop, and ends with none in flight; without stop it goes on with all its buffers |
| TransportSession.Session.HandleCompletion | btstack-hci-transport-nusb/src/io.rs:35-51 | one completion is delivered if it is successful and not empty, its endpoint cleared if it stalled, and then stop is tested: the buffer is resubmitted, or the queue drained; when no load is stale a raised stop is seen |
| TransportSession.Session.CancelAndDrain | btstack-hci-transport-nusb/src/io.rs:180-187 | draining delivers nothing and leaves no buffer |
| TransportSession.Session.SendPacket | btstack-hci-transport-nusb/src/lib.rs:200-239 | the exact steps of the call: accepted only if its snapshot found the session active, and then the packet is last in the channel and the slot stays taken; rejected: no session was found, or this call's own last read was the depth, or the slot was given back because the type is unsupported or the writer left |
| TransportSession.Session.CanSendPacketNow | btstack-hci-transport-nusb/src/lib.rs:177-194 | for a supported type the call enters STATE and answers: yes exactly when the session is active and the value of the counter it loads, not older than what was seen at the last unlock of STATE, is below the depth; no for any other type, without a step |
| TransportSession.Session.CloseTransport | btstack-hci-transport-nusb/src/lib.rs:148-163 | takes the session exactly when one is published; then raises stop and makes three joins, and returns only after all three workers finished with nothing in flight; otherwise it changes nothing |
| GattServer.ResolveCharacteristics | btstack-gatt/src/peripheral.rs:307-348 | succeeds exactly when every service, characteristic and required CCC lookup does; each value handle then carries the last specification that resolves to it, with its looked-up CCC handle exactly if it can notify or indicate; otherwise the error of the first service that fails |
| GattServer.ResolveService | btstack-gatt/src/peripheral.rs:315-344 | the inner loop: found exactly when all lookups in the range are; the map is then the earlier one with the last entry of this service for each of its handles put over it |
| GattServer.EntriesWellFormed | btstack-gatt/src/peripheral.rs:317-343 | every resolved entry has a nonzero handle, its initial value, and a CCC handle exactly when it can notify or indicate |
| GattServer.BuildIndex | btstack-gatt/src/peripheral.rs:249-260 | for every iteration order the index leads each CCC handle to a characteristic that has it and omits none; the flags cover exactly those characteristics and are off |
| GattServer.InverseExactlyWhenDistinct | btstack-gatt/src/peripheral.rs:253-258 | the index is the exact inverse of the metadata if and only if the CCC handles are distinct |
| GattServer.OrderDoesNotMatter | btstack-gatt/src/peripheral.rs:253-258 | with distinct CCC handles all iteration orders give the same index |
| GattServer.Server.Start | btstack-gatt/src/peripheral.rs:206-266 | a second server is refused unchanged; a failed resolution leaves none running; a success starts with the resolved map, a valid index and all flags off |
| GattServer.Server.AttWrite | btstack-gatt/src/peripheral.rs:500-550 | the callback has the effect the store's meaning gives to the write, and none while no server runs |
| GattServer.CopyInto | btstack-gatt/src/peripheral.rs:538-545 | growing with zeros and copying gives the value defined byte by byte |
| GattServer.Server.AttRead | btstack-gatt/src/peripheral.rs:476-498 | with n the value's length modulo 65536, min(size, n - offset) bytes are returned, none when the offset is past n, and byte i is the one at offset + i of the value; unknown handles, and no server, read as nothing |
| GattServer.Server.PacketHandler | btstack-gatt/src/peripheral.rs:452-474 | a connect records the little-endian handle, a disconnect forgets it and switches every flag off |
| GattHistory.RunKeepsShape | btstack-gatt/src/peripheral.rs:452-550 | no sequence of callbacks changes the handles, specifications, index or the set of flags, and the index stays valid |
| GattHistory.UnwritableNeverChanges | btstack-gatt/src/peripheral.rs:524-536 | a characteristic with neither write property, or whose handle is a CCC handle, keeps its value forever |
| GattHistory.OneWriteOneChange | btstack-gatt/src/peripheral.rs:512-547 | one write changes at most one value, or the one flag its CCC handle is indexed to, and nothing else |
| GattHistory.LongWriteHistory | btstack-gatt/src/peripheral.rs:524-545 | after any history each byte is that of the last write covering it, else the initial one, else zero; the length is the furthest end |
| GattHistory.FlagHistory | btstack-gatt/src/peripheral.rs:513-522 | the flag is bit 0 of the last write of two or more bytes to its CCC handle since the last disconnect (Bluetooth Core, Vol 3, Part G, section 3.3.3.3) |
| GattHistory.ConnectionHistory | btstack-gatt/src/peripheral.rs:452-474 | the connection is the one of the last connect, unless a disconnect came after it |
| GattHistory.ShadowedFlagNeverRises | btstack-gatt/src/peripheral.rs:253-258 | a value handle whose CCC handle is taken by another can never be switched on |
| GattHistory.DoubledIsTheSame | btstack-gatt/src/peripheral.rs:222-262 | delivering every HCI event twice, as the doubly registered handler does, is not observable |
| GattChunks.ChunksWrite | btstack-gatt/src/peripheral.rs:538-545 | writes in consecutive chunks are one write of their concatenation |
| GattChunks.ChunksRead | btstack-gatt/src/peripheral.rs:476-498 | reads in chunks of any sizes give the value as far as they reach, up to its length modulo 65536 |
| GattChunks.ReadBackExactly | btstack-gatt/src/peripheral.rs:476-545 | what is read back is what was written if and only if the reads reach exactly its end under the 16-bit length |
| GattChunks.ChunkedRoundTrip | btstack-gatt/src/peripheral.rs:476-545 | a value no longer than the new one is replaced by it and reassembles from any chunks (Bluetooth Core, Vol 3, Part F, sections 3.4.4.5 and 3.4.6) |
| GattChunks.LongValueReadsEmpty | btstack-gatt/src/peripheral.rs:487-493 | a value of 65536 bytes reads as empty |
| UsbPath.ParseUsbPath | btstack-hci-transport-nusb/src/usb.rs:112-123 | the result is the one path the name denotes in the grammar, or none when it denotes none |
| UsbPath.ParsePort | btstack-hci-transport-nusb/src/usb.rs:116 | a port is an optional plus sign and digits denoting at most 255 |
| UsbPath.PlusIsOptional | btstack-hci-transport-nusb/src/usb.rs:116 | one plus sign in front of a port changes nothing |
| UsbPath.PortCharacters | btstack-hci-transport-nusb/src/usb.rs:116 | anything but decimal digits after at most one plus sign is no port |
| UsbPath.NamesOnePath | btstack-hci-transport-nusb/src/usb.rs:112-123 | a name denotes at most one path, however it is read |
| UsbPath.ParsePrinted | btstack-hci-transport-nusb/src/usb.rs:97-123 | parsing a printed path of one to seven ports gives it back, for any bus name without a dash |
| UsbInfo.BuildUsbInfo | btstack-hci-transport-nusb/src/io.rs:196-208 | the bytes of the event: code, length of the rest, two little-endian ids, bus, path length, path; it decodes back to the device if and only if the path has at most 249 bytes, and its length byte is then the total less two (Bluetooth Core, Vol 4, Part E, section 5.4.4) |
| UsbInfo.ReportDevice | btstack-hci-transport-nusb/src/lib.rs:116-117 | the event for any sysfs name decodes to the ids, the bus and the path of that name, or the empty path when it has none, without truncation |
| UsbEndpoints.DetectEndpoints | btstack-hci-transport-nusb/src/usb.rs:61-92 | for each kind the first matching endpoint, in descriptor order, of a setting with alternate number 0 of the interface, else its default address |

## Left out

- Several sessions: one opened session is modelled; each has its own flag, counter and channel, and sessions share only STATE.
- The part of transport_open before the workers start, transport_init and device selection: foreign I/O, and locks of STATE with nothing inside but a read or an assignment; the handler call that reports the device is made there, before there is a session.
- TransportSession.Session.TryReserve: the number of rounds in which other threads interfere or the exchange fails for no reason is finite, though arbitrary; nothing in the source bounds it.
- TransportSession.Session.RunWriter: runs for a number of turns; termination is proved about runs instead.
- TransportCapacity.WindowBlocksExactlyWhenSmall: a channel of capacity 0 accepts nothing here, while the standard library hands over to a receiver that is already waiting.
- Synchronisation other than through STATE: the channel, thread start and join also order accesses to the counter, which the views do not record; a load may return older values here than the code can see.
- The transaction mode of a write, which the callback ignores.
- Mutex poisoning, handler panics, raw pointers, sleeping and polling intervals.
- transport_register_packet_handler as a method: it is one step of the model, an assignment under STATE.
- Characteristic permissions, advertising and the run-loop callback: constant tables and foreign calls.
- Drop order and aliasing of the runtime's global variable: the server is an object with a running flag.
- is_candidate_device: a conjunction of optional comparisons.
