/** What the attribute store remembers of everything that was delivered to it. */
module GattHistory {
  import opened ByteTypes
  import opened Wrappers
  import opened GattModel

  // ---- What no callback changes --------------------------------------------------------------------

  /** `z` has the handles, specifications and index of `s`. */
  ghost predicate SameShape(s: Store, z: Store) {
    && z.characteristics.Keys == s.characteristics.Keys
    && (forall h | h in s.characteristics :: z.characteristics[h].(value := []) == s.characteristics[h].(value := []))
    && z.cccToValue == s.cccToValue
    && z.notifying.Keys == s.notifying.Keys
  }

  lemma DeliverKeepsShape(s: Store, e: Event)
    requires Indexed(s)
    ensures SameShape(s, Deliver(s, e)) && Indexed(Deliver(s, e))
  {
    if e.WriteRequest? && e.handle in s.cccToValue {
      assert s.cccToValue[e.handle] in s.notifying;
    }
  }

  lemma {:induction false} RunKeepsShape(s: Store, es: seq<Event>)
    requires Indexed(s)
    ensures SameShape(s, Run(s, es)) && Indexed(Run(s, es))
  {
    if es != [] {
      RunKeepsShape(s, es[..|es| - 1]);
      DeliverKeepsShape(Run(s, es[..|es| - 1]), es[|es| - 1]);
    }
  }

  /** The value at `h` is out of reach of writes: `h` is a CCC handle, or not declared writable. */
  predicate OutOfReach(s: Store, h: Handle) {
    h in s.characteristics && (h in s.cccToValue ||
      (var p := s.characteristics[h].spec.properties; Write !in p && WriteWithoutResponse !in p))
  }

  lemma UnwritableStep(y: Store, e: Event, h: Handle)
    requires Indexed(y) && OutOfReach(y, h)
    ensures var z := Deliver(y, e); OutOfReach(z, h) && z.characteristics[h] == y.characteristics[h]
  {
  }

  /** A characteristic with neither write property, or whose handle is also a CCC handle, keeps its value
      whatever is delivered. */
  lemma {:induction false} UnwritableNeverChanges(s: Store, es: seq<Event>, h: Handle)
    requires Indexed(s) && OutOfReach(s, h)
    ensures var z := Run(s, es); OutOfReach(z, h) && z.characteristics[h] == s.characteristics[h]
  {
    if es != [] {
      var front := es[..|es| - 1];
      RunKeepsShape(s, front);
      UnwritableNeverChanges(s, front, h);
      UnwritableStep(Run(s, front), es[|es| - 1], h);
    }
  }

  /** One write changes one value, or the one flag its CCC handle is indexed to, or nothing. */
  lemma OneWriteOneChange(s: Store, h: Handle, offset: U16, data: Bytes)
    requires Indexed(s)
    ensures var z := Deliver(s, WriteRequest(h, offset, data));
      && z.connected == s.connected
      && (z.characteristics == s.characteristics || z.notifying == s.notifying)
      && (forall g | g in s.characteristics && g != h :: z.characteristics[g] == s.characteristics[g])
      && (forall g | g in s.notifying && !(h in s.cccToValue && s.cccToValue[h] == g) :: z.notifying[g] == s.notifying[g])
  {
    DeliverKeepsShape(s, WriteRequest(h, offset, data));
  }

  // ---- Values --------------------------------------------------------------------------------------

  datatype Piece = Piece(offset: nat, data: Bytes)

  predicate WritesTo(e: Event, h: Handle) {
    e.WriteRequest? && e.handle == h
  }

  /** The writes to `h` among the events, in order. */
  function PiecesFor(h: Handle, es: seq<Event>): seq<Piece> {
    if es == [] then []
    else
      var rest, e := PiecesFor(h, es[..|es| - 1]), es[|es| - 1];
      if WritesTo(e, h) then rest + [Piece(e.offset, e.data)] else rest
  }

  predicate Covers(p: Piece, i: nat) {
    p.offset <= i < p.offset + |p.data|
  }

  /** The byte at `i` after the writes `ps`: from the last write that covers it, else the initial one,
      else zero. */
  function LastByte(initial: Bytes, ps: seq<Piece>, i: nat): Byte {
    if ps == [] then if i < |initial| then initial[i] else 0
    else
      var p := ps[|ps| - 1];
      if Covers(p, i) then p.data[i - p.offset] else LastByte(initial, ps[..|ps| - 1], i)
  }

  /** The furthest end of any write, or the initial length. */
  function FurthestEnd(initial: nat, ps: seq<Piece>): nat {
    if ps == [] then initial
    else
      var p := ps[|ps| - 1];
      Max(FurthestEnd(initial, ps[..|ps| - 1]), p.offset + |p.data|)
  }

  ghost predicate ComposedOf(v: Bytes, initial: Bytes, ps: seq<Piece>) {
    && |v| == FurthestEnd(|initial|, ps)
    && forall i | 0 <= i < |v| :: v[i] == LastByte(initial, ps, i)
  }

  lemma BeyondTheEnd(initial: Bytes, ps: seq<Piece>, i: nat)
    requires i >= FurthestEnd(|initial|, ps)
    ensures LastByte(initial, ps, i) == 0
  {
  }

  lemma OneMorePiece(v: Bytes, initial: Bytes, ps: seq<Piece>, p: Piece)
    requires ComposedOf(v, initial, ps)
    ensures ComposedOf(Written(v, p.offset, p.data), initial, ps + [p])
  {
    var z, qs := Written(v, p.offset, p.data), ps + [p];
    assert qs[..|qs| - 1] == ps;
    forall i | 0 <= i < |z| ensures z[i] == LastByte(initial, qs, i) {
      if !Covers(p, i) && i >= |v| {
        BeyondTheEnd(initial, ps, i);
      }
    }
  }

  /** The value at `h` is within reach of writes: `h` is declared writable, and is not a CCC handle. */
  predicate WithinReach(s: Store, h: Handle) {
    h in s.characteristics && h !in s.cccToValue &&
    var p := s.characteristics[h].spec.properties; Write in p || WriteWithoutResponse in p
  }

  /** One event writes to a writable characteristic, or leaves it alone. */
  lemma ValueStep(y: Store, e: Event, h: Handle)
    requires Indexed(y) && WithinReach(y, h)
    ensures var z, v := Deliver(y, e), y.characteristics[h].value;
      && WithinReach(z, h)
      && z.characteristics[h].value == if WritesTo(e, h) then Written(v, e.offset, e.data) else v
  {
    if e.WriteRequest? && e.handle in y.cccToValue {
      assert y.cccToValue[e.handle] in y.notifying;
    }
  }

  /** Over any history, a writable characteristic holds, byte for byte, the last write that covers each
      position, and is as long as its furthest write. */
  lemma {:induction false} LongWriteHistory(s: Store, es: seq<Event>, h: Handle)
    requires Indexed(s) && WithinReach(s, h)
    ensures WithinReach(Run(s, es), h)
    ensures ComposedOf(Run(s, es).characteristics[h].value, s.characteristics[h].value, PiecesFor(h, es))
  {
    if es != [] {
      var front, e := es[..|es| - 1], es[|es| - 1];
      LongWriteHistory(s, front, h);
      RunKeepsShape(s, front);
      ValueStep(Run(s, front), e, h);
      if WritesTo(e, h) {
        OneMorePiece(Run(s, front).characteristics[h].value, s.characteristics[h].value,
                     PiecesFor(h, front), Piece(e.offset, e.data));
      }
    }
  }

  // ---- Notification flags --------------------------------------------------------------------------

  predicate Configures(e: Event, k: Handle) {
    e.WriteRequest? && e.handle == k && |e.data| >= 2
  }

  /** Bit 0 of the last write of two or more bytes to `k` since the last disconnect; else `was`, or
      false after a disconnect. */
  function LastConfigured(k: Handle, es: seq<Event>, was: bool): bool {
    if es == [] then was
    else
      var e := es[|es| - 1];
      if e.Disconnected? then false
      else if Configures(e, k) then e.data[0] % 2 == 1
      else LastConfigured(k, es[..|es| - 1], was)
  }

  lemma FlagStep(y: Store, e: Event, k: Handle, h: Handle)
    requires Indexed(y) && k in y.cccToValue && y.cccToValue[k] == h && h in y.notifying
    ensures var z := Deliver(y, e);
      && k in z.cccToValue && z.cccToValue[k] == h && h in z.notifying
      && z.notifying[h] == if e.Disconnected? then false
                           else if Configures(e, k) then e.data[0] % 2 == 1
                           else y.notifying[h]
  {
    if e.WriteRequest? && e.handle in y.cccToValue && e.handle != k {
      assert y.cccToValue[e.handle] != h;
    }
  }

  /** The flag of a value handle follows the history of its own CCC handle and of nothing else. */
  lemma {:induction false} FlagHistory(s: Store, es: seq<Event>, k: Handle, h: Handle)
    requires Indexed(s) && k in s.cccToValue && s.cccToValue[k] == h
    ensures h in s.notifying
    ensures var z := Run(s, es);
      && k in z.cccToValue && z.cccToValue[k] == h
      && h in z.notifying && z.notifying[h] == LastConfigured(k, es, s.notifying[h])
  {
    if es != [] {
      var front := es[..|es| - 1];
      FlagHistory(s, front, k, h);
      RunKeepsShape(s, front);
      FlagStep(Run(s, front), es[|es| - 1], k, h);
    }
  }

  /** A value handle that no CCC handle leads to (it shares its CCC handle with another) can only be
      switched off. */
  lemma {:induction false} ShadowedFlagNeverRises(s: Store, es: seq<Event>, h: Handle)
    requires Indexed(s) && h in s.notifying && forall k | k in s.cccToValue :: s.cccToValue[k] != h
    ensures h in Run(s, es).notifying && (Run(s, es).notifying[h] ==> s.notifying[h])
  {
    if es != [] {
      var front, e := es[..|es| - 1], es[|es| - 1];
      ShadowedFlagNeverRises(s, front, h);
      RunKeepsShape(s, front);
      DeliverKeepsShape(Run(s, front), e);
    }
  }

  // ---- The connection --------------------------------------------------------------------------------

  /** The handle of the last connect, if no disconnect came after it; else as it `was`. */
  function LastConnection(es: seq<Event>, was: Option<U16>): Option<U16> {
    if es == [] then was
    else
      var e := es[|es| - 1];
      match e
      case Connected(lo, hi) => Some(lo + 256 * hi)
      case Disconnected => None
      case _ => LastConnection(es[..|es| - 1], was)
  }

  lemma {:induction false} ConnectionHistory(s: Store, es: seq<Event>)
    ensures Run(s, es).connected == LastConnection(es, s.connected)
  {
    if es != [] {
      ConnectionHistory(s, es[..|es| - 1]);
    }
  }

  // ---- The handler is registered twice ---------------------------------------------------------------

  predicate IsHciEvent(e: Event) {
    e.Connected? || e.Disconnected? || e.OtherEvent?
  }

  /** Every HCI event delivered twice in a row, as the doubly registered handler sees them. */
  function Doubled(es: seq<Event>): seq<Event> {
    if es == [] then []
    else
      var front, e := Doubled(es[..|es| - 1]), es[|es| - 1];
      if IsHciEvent(e) then front + [e] + [e] else front + [e]
  }

  lemma RunAppend(s: Store, es: seq<Event>, e: Event)
    ensures Run(s, es + [e]) == Deliver(Run(s, es), e)
  {
    assert (es + [e])[..|es|] == es;
  }

  lemma Idempotent(s: Store, e: Event)
    requires IsHciEvent(e)
    ensures Deliver(Deliver(s, e), e) == Deliver(s, e)
  {
  }

  /** Double registration is not observable: the store ends the same. */
  lemma {:induction false} DoubledIsTheSame(s: Store, es: seq<Event>)
    ensures Run(s, Doubled(es)) == Run(s, es)
  {
    if es != [] {
      var front, e := es[..|es| - 1], es[|es| - 1];
      DoubledIsTheSame(s, front);
      RunAppend(s, Doubled(front), e);
      if IsHciEvent(e) {
        RunAppend(s, Doubled(front) + [e], e);
        Idempotent(Run(s, front), e);
      }
    }
  }
}
