/** The local GATT attribute store: the characteristics by value handle, the index from client
    configuration (CCC) handles to value handles, and the notification flags. */
module GattModel {
  import opened ByteTypes
  import opened Wrappers

  type Handle = U16

  datatype Uuid = Uuid16(short: U16) | Uuid128(long: Bytes)

  /** The property flags are distinct bits; a set of them stands for a bit mask. */
  datatype Property =
    | Read | Write | WriteWithoutResponse | Notify | Indicate
    | Broadcast | AuthenticatedSignedWrite | Extended | Dynamic

  datatype CharacteristicSpec = CharacteristicSpec(uuid: Uuid, properties: set<Property>, initialValue: Bytes)

  datatype ServiceSpec = ServiceSpec(uuid: Uuid, characteristics: seq<CharacteristicSpec>)

  datatype Characteristic = Characteristic(
    spec: CharacteristicSpec, valueHandle: Handle, cccHandle: Option<Handle>, value: Bytes)

  datatype GattError = ServerAlreadyInitialized | ServiceNotFound | CharacteristicNotFound

  datatype HandleRange = HandleRange(start: Handle, end: Handle)

  /** The lookups in the compiled ATT database; handle 0 means not found. */
  datatype Database = Database(
    service: Uuid -> Option<HandleRange>,
    value: (HandleRange, Uuid) -> Handle,
    ccc: (HandleRange, Uuid) -> Handle)

  predicate Writable(ch: Characteristic) {
    Write in ch.spec.properties || WriteWithoutResponse in ch.spec.properties
  }

  // ---- The store -----------------------------------------------------------------------------------

  datatype Store = Store(
    characteristics: map<Handle, Characteristic>,
    cccToValue: map<Handle, Handle>,
    notifying: map<Handle, bool>,
    connected: Option<U16>)

  /** What the stack delivers to the callbacks.  A write has a buffer, or a null one. */
  datatype Event =
    | Connected(lo: Byte, hi: Byte)
    | Disconnected
    | OtherEvent
    | WriteRequest(handle: Handle, offset: U16, data: Bytes)
    | NullWrite(handle: Handle, offset: U16)
    | ReadRequest(handle: Handle, offset: U16, size: U16)

  function Max(a: int, b: int): int {
    if a < b then b else a
  }

  /** `v` after `data` has been written at `offset`, byte by byte: the value grows with zeros up to the
      end of the write, and never shrinks. */
  function Written(v: Bytes, offset: nat, data: Bytes): Bytes {
    seq(Max(|v|, offset + |data|), i requires 0 <= i < Max(|v|, offset + |data|) =>
      if offset <= i < offset + |data| then data[i - offset]
      else if i < |v| then v[i]
      else 0)
  }

  /** A write to `h` reaches the characteristic's value. */
  predicate TakesWrites(s: Store, h: Handle) {
    h !in s.cccToValue && h in s.characteristics && Writable(s.characteristics[h])
  }

  function Deliver(s: Store, e: Event): Store {
    match e
    case Connected(lo, hi) => s.(connected := Some(FromLittleEndian(lo, hi)))
    case Disconnected =>
      s.(connected := None, notifying := map h | h in s.notifying :: false)
    case WriteRequest(h, offset, data) =>
      if h in s.cccToValue then
        if |data| >= 2 then s.(notifying := s.notifying[s.cccToValue[h] := data[0] % 2 == 1]) else s
      else if TakesWrites(s, h) then
        var ch := s.characteristics[h];
        s.(characteristics := s.characteristics[h := ch.(value := Written(ch.value, offset, data))])
      else s
    case _ => s
  }

  function Run(s: Store, es: seq<Event>): Store {
    if es == [] then s else Deliver(Run(s, es[..|es| - 1]), es[|es| - 1])
  }

  /** The blob helper copies what lies between the offset and the end, up to the buffer's size.  It is
      given the length of the value as a u16. */
  function Blob(value: Bytes, offset: U16, size: U16): (r: Bytes) {
    var n := |value| % 65536;
    if offset > n then [] else value[offset..if offset + size <= n then offset + size else n]
  }

  function ReadValue(s: Store, h: Handle, offset: U16, size: U16): Bytes {
    if h in s.characteristics then Blob(s.characteristics[h].value, offset, size) else []
  }

  // ---- The index -----------------------------------------------------------------------------------

  /** Every CCC handle leads to a characteristic that has it, and every characteristic that has one is
      found under it, itself or another that has the same. */
  ghost predicate CccIndex(chars: map<Handle, Characteristic>, ccc: map<Handle, Handle>) {
    && (forall k | k in ccc :: ccc[k] in chars && chars[ccc[k]].cccHandle == Some(k))
    && (forall h | h in chars && chars[h].cccHandle.Some? :: chars[h].cccHandle.value in ccc)
  }

  ghost predicate FlagIndex(chars: map<Handle, Characteristic>, flags: map<Handle, bool>) {
    forall h :: h in flags <==> h in chars && chars[h].cccHandle.Some?
  }

  ghost predicate Indexed(s: Store) {
    CccIndex(s.characteristics, s.cccToValue) && FlagIndex(s.characteristics, s.notifying)
  }

  ghost predicate AllOff(flags: map<Handle, bool>) {
    forall h | h in flags :: !flags[h]
  }
}
