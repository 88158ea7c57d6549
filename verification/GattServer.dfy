/** The peripheral server: resolving the public specification to handles, building the index, and the
    callbacks the stack delivers to. */
module GattServer {
  import opened ByteTypes
  import opened Wrappers
  import opened GattModel
  import opened GattHistory

  // ---- What resolution means -------------------------------------------------------------------------

  predicate NeedsCcc(ch: CharacteristicSpec) {
    Notify in ch.properties || Indicate in ch.properties
  }

  predicate CharacteristicFound(db: Database, range: HandleRange, ch: CharacteristicSpec) {
    db.value(range, ch.uuid) != 0 && (NeedsCcc(ch) ==> db.ccc(range, ch.uuid) != 0)
  }

  ghost predicate ServiceComplete(db: Database, service: ServiceSpec) {
    && db.service(service.uuid).Some?
    && forall ch | ch in service.characteristics :: CharacteristicFound(db, db.service(service.uuid).value, ch)
  }

  ghost predicate AllFound(db: Database, services: seq<ServiceSpec>) {
    forall i | 0 <= i < |services| :: ServiceComplete(db, services[i])
  }

  /** Service `i` is the first that cannot be resolved, for reason `e`. */
  ghost predicate FailsAt(db: Database, services: seq<ServiceSpec>, i: nat, e: GattError) {
    && i < |services| && AllFound(db, services[..i])
    && match e
       case ServiceNotFound => db.service(services[i].uuid) == None
       case CharacteristicNotFound =>
         && db.service(services[i].uuid).Some?
         && exists ch | ch in services[i].characteristics ::
              !CharacteristicFound(db, db.service(services[i].uuid).value, ch)
       case ServerAlreadyInitialized => false
  }

  function EntryFor(db: Database, range: HandleRange, ch: CharacteristicSpec): Characteristic {
    Characteristic(ch, db.value(range, ch.uuid),
                   if NeedsCcc(ch) then Some(db.ccc(range, ch.uuid)) else None, ch.initialValue)
  }

  function Row(db: Database, range: HandleRange, chs: seq<CharacteristicSpec>): seq<Characteristic> {
    if chs == [] then [] else Row(db, range, chs[..|chs| - 1]) + [EntryFor(db, range, chs[|chs| - 1])]
  }

  /** Everything the specification resolves to, in order, repeated handles included. */
  function Entries(db: Database, services: seq<ServiceSpec>): seq<Characteristic> {
    if services == [] then []
    else
      var last := services[|services| - 1];
      Entries(db, services[..|services| - 1])
        + match db.service(last.uuid)
          case None => []
          case Some(range) => Row(db, range, last.characteristics)
  }

  /** What an entry carries: a handle that exists, the value its specification starts with, and a CCC
      handle exactly when it can notify or indicate. */
  predicate WellFormed(e: Characteristic) {
    && e.valueHandle != 0 && e.value == e.spec.initialValue
    && (e.cccHandle.Some? <==> NeedsCcc(e.spec))
    && (e.cccHandle.Some? ==> e.cccHandle.value != 0)
  }

  lemma {:induction false} RowWellFormed(db: Database, range: HandleRange, chs: seq<CharacteristicSpec>)
    requires forall ch | ch in chs :: CharacteristicFound(db, range, ch)
    ensures |Row(db, range, chs)| == |chs|
    ensures forall i | 0 <= i < |chs| :: Row(db, range, chs)[i].spec == chs[i] && WellFormed(Row(db, range, chs)[i])
  {
    if chs != [] {
      RowWellFormed(db, range, chs[..|chs| - 1]);
      assert chs[|chs| - 1] in chs;
    }
  }

  /** Every entry of a complete resolution is well formed. */
  lemma {:induction false} EntriesWellFormed(db: Database, services: seq<ServiceSpec>)
    requires AllFound(db, services)
    ensures forall i | 0 <= i < |Entries(db, services)| :: WellFormed(Entries(db, services)[i])
  {
    if services != [] {
      var last := services[|services| - 1];
      EntriesWellFormed(db, services[..|services| - 1]);
      assert ServiceComplete(db, last);
      RowWellFormed(db, db.service(last.uuid).value, last.characteristics);
    }
  }

  /** Entry `k` is the last with its handle. */
  ghost predicate IsLast(es: seq<Characteristic>, k: int) {
    0 <= k < |es| && forall l | k < l < |es| :: es[l].valueHandle != es[k].valueHandle
  }

  ghost predicate LastWins(m: map<Handle, Characteristic>, es: seq<Characteristic>) {
    && (forall k | 0 <= k < |es| :: es[k].valueHandle in m)
    && (forall h | h in m :: exists k :: IsLast(es, k) && es[k] == m[h] && es[k].valueHandle == h)
  }

  lemma InsertLast(m: map<Handle, Characteristic>, es: seq<Characteristic>, e: Characteristic)
    requires LastWins(m, es)
    ensures LastWins(m[e.valueHandle := e], es + [e])
  {
    var z, fs := m[e.valueHandle := e], es + [e];
    forall h | h in z ensures exists k :: IsLast(fs, k) && fs[k] == z[h] && fs[k].valueHandle == h {
      if h == e.valueHandle {
        assert IsLast(fs, |es|);
      } else {
        var k :| IsLast(es, k) && es[k] == m[h] && es[k].valueHandle == h;
        assert IsLast(fs, k) && fs[k] == z[h];
      }
    }
  }

  // ---- What resolution means, lookup by lookup ---------------------------------------------------------

  /** `e` is what the specification `ch` resolves to in `range`. */
  predicate Resolves(db: Database, range: HandleRange, ch: CharacteristicSpec, e: Characteristic) {
    && e.spec == ch && e.valueHandle == db.value(range, ch.uuid) && e.value == ch.initialValue
    && e.cccHandle ==
         if Notify in ch.properties || Indicate in ch.properties then Some(db.ccc(range, ch.uuid)) else None
  }

  /** `e` is the last entry of the service for its handle `h`. */
  ghost predicate LastInRow(db: Database, range: HandleRange, chs: seq<CharacteristicSpec>, h: Handle,
                            e: Characteristic, j: int)
  {
    && 0 <= j < |chs| && Resolves(db, range, chs[j], e) && e.valueHandle == h
    && NotInRow(db, range, chs[j + 1..], h)
  }

  ghost predicate NotInRow(db: Database, range: HandleRange, chs: seq<CharacteristicSpec>, h: Handle) {
    forall ch | ch in chs :: db.value(range, ch.uuid) != h
  }

  ghost predicate NotInServices(db: Database, services: seq<ServiceSpec>, h: Handle) {
    forall service | service in services && db.service(service.uuid).Some? ::
      NotInRow(db, db.service(service.uuid).value, service.characteristics, h)
  }

  /** `e` is the last entry of all services for its handle `h`. */
  ghost predicate LastOfAll(db: Database, services: seq<ServiceSpec>, h: Handle, e: Characteristic, i: int, j: int) {
    && 0 <= i < |services| && db.service(services[i].uuid).Some?
    && LastInRow(db, db.service(services[i].uuid).value, services[i].characteristics, h, e, j)
    && NotInServices(db, services[i + 1..], h)
  }

  /** `m` holds, under each value handle that some specification resolves to, the last that does. */
  ghost predicate Describes(db: Database, services: seq<ServiceSpec>, m: map<Handle, Characteristic>) {
    && (forall h | h in m :: exists i, j :: LastOfAll(db, services, h, m[h], i, j))
    && (forall h | h !in m :: NotInServices(db, services, h))
  }

  /** `m` is `was` with the entries of one more service, each over any earlier one for its handle. */
  ghost predicate Adds(db: Database, range: HandleRange, chs: seq<CharacteristicSpec>,
                       was: map<Handle, Characteristic>, m: map<Handle, Characteristic>)
  {
    && (forall h | h in m :: (exists j :: LastInRow(db, range, chs, h, m[h], j))
                             || (NotInRow(db, range, chs, h) && h in was && m[h] == was[h]))
    && (forall h | h !in m :: NotInRow(db, range, chs, h) && h !in was)
  }

  lemma StillLastInRow(db: Database, range: HandleRange, chs: seq<CharacteristicSpec>, h: Handle,
                       e: Characteristic, j: int, ch: CharacteristicSpec)
    requires LastInRow(db, range, chs, h, e, j) && db.value(range, ch.uuid) != h
    ensures LastInRow(db, range, chs + [ch], h, e, j)
  {
    assert (chs + [ch])[j + 1..] == chs[j + 1..] + [ch];
  }

  lemma AddOne(db: Database, range: HandleRange, chs: seq<CharacteristicSpec>,
               was: map<Handle, Characteristic>, m: map<Handle, Characteristic>, ch: CharacteristicSpec, e: Characteristic)
    requires Adds(db, range, chs, was, m) && Resolves(db, range, ch, e)
    ensures Adds(db, range, chs + [ch], was, m[e.valueHandle := e])
  {
    var all, z := chs + [ch], m[e.valueHandle := e];
    forall h | h in z
      ensures (exists j :: LastInRow(db, range, all, h, z[h], j))
              || (NotInRow(db, range, all, h) && h in was && z[h] == was[h])
    {
      if h == e.valueHandle {
        assert all[|chs| + 1..] == [];
        assert LastInRow(db, range, all, h, e, |chs|);
      } else if j :| LastInRow(db, range, chs, h, m[h], j) {
        StillLastInRow(db, range, chs, h, m[h], j, ch);
      }
    }
  }

  lemma StillLastOfAll(db: Database, services: seq<ServiceSpec>, h: Handle, e: Characteristic, i: int, j: int,
                       service: ServiceSpec)
    requires LastOfAll(db, services, h, e, i, j) && db.service(service.uuid).Some?
    requires NotInRow(db, db.service(service.uuid).value, service.characteristics, h)
    ensures LastOfAll(db, services + [service], h, e, i, j)
  {
    assert (services + [service])[i + 1..] == services[i + 1..] + [service];
  }

  lemma AddService(db: Database, services: seq<ServiceSpec>, service: ServiceSpec,
                   was: map<Handle, Characteristic>, m: map<Handle, Characteristic>)
    requires Describes(db, services, was) && db.service(service.uuid).Some?
    requires Adds(db, db.service(service.uuid).value, service.characteristics, was, m)
    ensures Describes(db, services + [service], m)
  {
    var all, range := services + [service], db.service(service.uuid).value;
    forall h | h in m ensures exists i, j :: LastOfAll(db, all, h, m[h], i, j) {
      if j :| LastInRow(db, range, service.characteristics, h, m[h], j) {
        assert all[|services| + 1..] == [];
        assert LastOfAll(db, all, h, m[h], |services|, j);
      } else {
        var i, j :| LastOfAll(db, services, h, was[h], i, j);
        StillLastOfAll(db, services, h, was[h], i, j, service);
      }
    }
  }

  // ---- Resolution ------------------------------------------------------------------------------------

  /** One service: add its characteristics to the map, or stop at the first that is not found. */
  method ResolveService(db: Database, range: HandleRange, chs: seq<CharacteristicSpec>,
                        was: map<Handle, Characteristic>, ghost done: seq<Characteristic>)
    returns (found: bool, byHandle: map<Handle, Characteristic>)
    requires LastWins(was, done)
    ensures found <==> forall ch | ch in chs :: CharacteristicFound(db, range, ch)
    ensures found ==> LastWins(byHandle, done + Row(db, range, chs))
    ensures found ==> Adds(db, range, chs, was, byHandle)
  {
    byHandle := was;
    assert chs[..0] == [] && done + [] == done;
    for j := 0 to |chs|
      invariant forall i | 0 <= i < j :: CharacteristicFound(db, range, chs[i])
      invariant LastWins(byHandle, done + Row(db, range, chs[..j]))
      invariant Adds(db, range, chs[..j], was, byHandle)
    {
      var ch := chs[j];
      assert ch in chs;
      var valueHandle := db.value(range, ch.uuid);
      if valueHandle == 0 {
        return false, byHandle;
      }
      var cccHandle := None;
      if NeedsCcc(ch) {
        if db.ccc(range, ch.uuid) == 0 {
          return false, byHandle;
        }
        cccHandle := Some(db.ccc(range, ch.uuid));
      }
      var entry := Characteristic(ch, valueHandle, cccHandle, ch.initialValue);
      InsertLast(byHandle, done + Row(db, range, chs[..j]), entry);
      RowStep(db, range, chs, j);
      assert (done + Row(db, range, chs[..j])) + [entry] == done + Row(db, range, chs[..j + 1]);
      AddOne(db, range, chs[..j], was, byHandle, ch, entry);
      assert chs[..j] + [ch] == chs[..j + 1];
      byHandle := byHandle[valueHandle := entry];
    }
    assert chs[..|chs|] == chs;
    found := true;
  }

  lemma RowStep(db: Database, range: HandleRange, chs: seq<CharacteristicSpec>, j: nat)
    requires j < |chs|
    ensures Row(db, range, chs[..j + 1]) == Row(db, range, chs[..j]) + [EntryFor(db, range, chs[j])]
  {
    assert chs[..j + 1][..j] == chs[..j];
  }

  /** Resolution succeeds exactly when every lookup does; then each handle carries the last of the
      specifications that resolve to it.  Otherwise the error is that of the first service that fails. */
  method ResolveCharacteristics(db: Database, services: seq<ServiceSpec>)
    returns (r: Result<map<Handle, Characteristic>, GattError>)
    ensures r.Success? <==> AllFound(db, services)
    ensures r.Success? ==> LastWins(r.value, Entries(db, services))
    ensures r.Success? ==> Describes(db, services, r.value)
    ensures r.Failure? ==> exists i :: FailsAt(db, services, i, r.error)
  {
    var byHandle: map<Handle, Characteristic> := map[];
    assert services[..0] == [];
    for i := 0 to |services|
      invariant AllFound(db, services[..i])
      invariant LastWins(byHandle, Entries(db, services[..i])) && Describes(db, services[..i], byHandle)
    {
      var service := services[i];
      if db.service(service.uuid) == None {
        assert FailsAt(db, services, i, ServiceNotFound);
        return Failure(ServiceNotFound);
      }
      var range := db.service(service.uuid).value;
      var found;
      ghost var was := byHandle;
      found, byHandle := ResolveService(db, range, service.characteristics, byHandle, Entries(db, services[..i]));
      if !found {
        assert !ServiceComplete(db, services[i]);
        assert FailsAt(db, services, i, CharacteristicNotFound);
        return Failure(CharacteristicNotFound);
      }
      assert services[..i + 1][..i] == services[..i] && services[..i] + [service] == services[..i + 1];
      AddService(db, services[..i], service, was, byHandle);
      assert ServiceComplete(db, service);
    }
    assert services[..|services|] == services;
    r := Success(byHandle);
  }

  // ---- The index -------------------------------------------------------------------------------------

  /** Build the index and the flags by going over the map in an arbitrary order. */
  method BuildIndex(chars: map<Handle, Characteristic>)
    returns (ccc: map<Handle, Handle>, flags: map<Handle, bool>)
    ensures CccIndex(chars, ccc) && FlagIndex(chars, flags) && AllOff(flags)
  {
    ccc, flags := map[], map[];
    var todo := chars.Keys;
    while todo != {}
      invariant todo <= chars.Keys
      invariant forall k | k in ccc :: ccc[k] in chars && chars[ccc[k]].cccHandle == Some(k)
      invariant forall h | h in chars && h !in todo && chars[h].cccHandle.Some? :: chars[h].cccHandle.value in ccc
      invariant forall h :: h in flags <==> h in chars && h !in todo && chars[h].cccHandle.Some?
      invariant AllOff(flags)
      decreases todo
    {
      var h :| h in todo;
      todo := todo - {h};
      match chars[h].cccHandle {
        case Some(k) =>
          ccc := ccc[k := h];
          flags := flags[h := false];
        case None =>
      }
    }
  }

  ghost predicate DistinctCcc(chars: map<Handle, Characteristic>) {
    forall g, h | g in chars && h in chars && chars[g].cccHandle.Some? && chars[g].cccHandle == chars[h].cccHandle :: g == h
  }

  /** The index leads every characteristic's CCC handle back to that characteristic. */
  ghost predicate ExactInverse(chars: map<Handle, Characteristic>, ccc: map<Handle, Handle>) {
    && (forall k, h :: k in ccc && ccc[k] == h <==> h in chars && chars[h].cccHandle == Some(k))
  }

  /** The index is the exact inverse, in every iteration order, if and only if the CCC handles are
      distinct; and then all orders give the same index. */
  lemma InverseExactlyWhenDistinct(chars: map<Handle, Characteristic>, ccc: map<Handle, Handle>)
    requires CccIndex(chars, ccc)
    ensures ExactInverse(chars, ccc) <==> DistinctCcc(chars)
  {
    if ExactInverse(chars, ccc) {
      forall g, h | g in chars && h in chars && chars[g].cccHandle.Some? && chars[g].cccHandle == chars[h].cccHandle
        ensures g == h
      {
        var k := chars[g].cccHandle.value;
        assert ccc[k] == g && ccc[k] == h;
      }
    }
  }

  lemma OrderDoesNotMatter(chars: map<Handle, Characteristic>, one: map<Handle, Handle>, two: map<Handle, Handle>)
    requires CccIndex(chars, one) && CccIndex(chars, two) && DistinctCcc(chars)
    ensures one == two
  {
    forall k ensures k in one <==> k in two {
      assert k in one ==> chars[one[k]].cccHandle.value in two;
      assert k in two ==> chars[two[k]].cccHandle.value in one;
    }
  }

  function WriteEvent(h: Handle, offset: U16, buffer: Option<Bytes>): Event {
    match buffer
    case None => NullWrite(h, offset)
    case Some(data) => WriteRequest(h, offset, data)
  }

  // ---- The server ------------------------------------------------------------------------------------

  /** The process-wide runtime.  While it is not running the callbacks do nothing. */
  class Server {
    var running: bool
    var characteristics: map<Handle, Characteristic>
    var cccToValue: map<Handle, Handle>
    var notifying: map<Handle, bool>
    var connected: Option<U16>

    function View(): Store
      reads this
    {
      Store(characteristics, cccToValue, notifying, connected)
    }

    ghost predicate Valid()
      reads this
    {
      running ==> Indexed(View())
    }

    constructor ()
      ensures Valid() && !running
    {
      running := false;
      characteristics, cccToValue, notifying, connected := map[], map[], map[], None;
    }

    /** GattPeripheralServer::new.  A second server is refused, and a failed resolution leaves nothing
        running. */
    method Start(db: Database, services: seq<ServiceSpec>) returns (r: Result<bool, GattError>)
      requires Valid()
      modifies this
      ensures Valid()
      ensures old(running) ==>
        r == Failure(ServerAlreadyInitialized) && running && View() == old(View())
      ensures !old(running) ==>
        && (r.Success? <==> AllFound(db, services)) && (running <==> r.Success?)
        && (r.Failure? ==> exists i :: FailsAt(db, services, i, r.error))
      ensures !old(running) && running ==>
        && LastWins(characteristics, Entries(db, services)) && Describes(db, services, characteristics)
        && (forall h | h in characteristics :: characteristics[h].valueHandle == h && WellFormed(characteristics[h]))
        && Indexed(View()) && AllOff(notifying) && connected == None
    {
      if running {
        return Failure(ServerAlreadyInitialized);
      }
      var resolved := ResolveCharacteristics(db, services);
      if resolved.Failure? {
        return Failure(resolved.error);
      }
      characteristics := resolved.value;
      EntriesWellFormed(db, services);
      connected := None;
      cccToValue, notifying := BuildIndex(characteristics);
      running := true;
      r := Success(true);
    }

    /** packet_handler. */
    method PacketHandler(e: Event)
      requires Valid() && IsHciEvent(e)
      modifies this
      ensures Valid() && running == old(running)
      ensures View() == if running then Deliver(old(View()), e) else old(View())
      ensures running && e.Connected? ==> View() == old(View()).(connected := Some(e.lo + 256 * e.hi))
      ensures running && e.Disconnected? ==>
        && View() == old(View()).(connected := None, notifying := notifying)
        && notifying.Keys == old(notifying).Keys && AllOff(notifying)
    {
      if !running {
        return;
      }
      DeliverKeepsShape(View(), e);
      match e {
        case Connected(lo, hi) => connected := Some(FromLittleEndian(lo, hi));
        case Disconnected =>
          connected := None;
          ClearFlags();
        case _ =>
      }
    }

    method ClearFlags()
      modifies this`notifying
      ensures notifying == map h | h in old(notifying) :: false
    {
      var todo := notifying.Keys;
      while todo != {}
        invariant todo <= notifying.Keys == old(notifying).Keys
        invariant forall h | h in notifying && h !in todo :: !notifying[h]
        decreases todo
      {
        var h :| h in todo;
        notifying := notifying[h := false];
        todo := todo - {h};
      }
    }

    /** att_write_callback: a null buffer is ignored; a CCC write sets a flag, a write to a writable
        characteristic grows the value as needed and copies the buffer into it, and anything else is
        ignored. */
    method AttWrite(h: Handle, offset: U16, buffer: Option<Bytes>)
      requires Valid() && (buffer.Some? ==> |buffer.value| < 65536)
      modifies this
      ensures Valid() && running == old(running)
      ensures View() == if running then Deliver(old(View()), WriteEvent(h, offset, buffer)) else old(View())
    {
      if buffer.None? || !running {
        return;
      }
      DeliverKeepsShape(View(), WriteEvent(h, offset, buffer));
      if h in cccToValue {
        WriteConfiguration(h, buffer.value);
      } else {
        WriteValue(h, offset, buffer.value);
      }
    }

    method WriteConfiguration(h: Handle, data: Bytes)
      requires h in cccToValue
      modifies this`notifying
      ensures notifying == if |data| >= 2 then old(notifying)[cccToValue[h] := data[0] % 2 == 1] else old(notifying)
    {
      if |data| >= 2 {
        var config := FromLittleEndian(data[0], data[1]);
        notifying := notifying[cccToValue[h] := config % 2 != 0];
      }
    }

    method WriteValue(h: Handle, offset: U16, data: Bytes)
      modifies this`characteristics
      ensures characteristics ==
        if h in old(characteristics) && Writable(old(characteristics)[h]) then
          var ch := old(characteristics)[h];
          old(characteristics)[h := ch.(value := Written(ch.value, offset, data))]
        else old(characteristics)
    {
      if h in characteristics {
        var ch := characteristics[h];
        if Write !in ch.spec.properties && WriteWithoutResponse !in ch.spec.properties {
          return;
        }
        var value := CopyInto(ch.value, offset, data);
        characteristics := characteristics[h := ch.(value := value)];
      }
    }

    /** att_read_callback: the bytes of the value from the offset on, as many as the buffer takes, where
        the value is taken to end at its length modulo 65536.  Unknown handles read as nothing. */
    method AttRead(h: Handle, offset: U16, size: U16) returns (r: Bytes)
      requires Valid()
      ensures !running || h !in characteristics ==> r == []
      ensures running && h in characteristics ==>
        var value := characteristics[h].value;
        var past := |value| % 65536 - offset;
        && |r| == (if past < 0 then 0 else if size < past then size else past)
        && forall i | 0 <= i < |r| :: offset + i < |value| && r[i] == value[offset + i]
      ensures running ==> r == ReadValue(View(), h, offset, size)
    {
      r := [];
      if running && h in characteristics {
        r := Blob(characteristics[h].value, offset, size);
      }
    }

    /** Dropping the server. */
    method Drop()
      requires Valid()
      modifies this
      ensures Valid() && !running
    {
      running := false;
    }
  }

  /** Vec::resize up to the end of the write, then a copy over the range. */
  method CopyInto(value: Bytes, offset: nat, data: Bytes) returns (r: Bytes)
    ensures r == Written(value, offset, data)
  {
    r := value;
    var required := offset + |data|;
    while |r| < required
      invariant |value| <= |r| && r[..|value|] == value
      invariant |r| <= Max(|value|, required)
      invariant forall i | |value| <= i < |r| :: r[i] == 0
      decreases required - |r|
    {
      r := r + [0];
    }
    r := r[..offset] + data + r[required..];
  }
}
