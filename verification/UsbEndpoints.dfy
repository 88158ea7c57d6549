/** Endpoint discovery in the interface's descriptors. */
module UsbEndpoints {
  import opened ByteTypes

  datatype TransferType = Control | Isochronous | Bulk | Interrupt
  datatype Direction = In | Out
  datatype Endpoint = Endpoint(transfer: TransferType, direction: Direction, address: Byte)
  datatype AltSetting = AltSetting(interfaceNumber: Byte, alternate: Byte, endpoints: seq<Endpoint>)
  datatype EndpointConfig = EndpointConfig(eventIn: Byte, aclIn: Byte, aclOut: Byte)

  const DEFAULT_EVENT_EP: Byte := 0x81
  const DEFAULT_ACL_IN_EP: Byte := 0x82
  const DEFAULT_ACL_OUT_EP: Byte := 0x02

  predicate Selected(alt: AltSetting, number: Byte) {
    alt.interfaceNumber == number && alt.alternate == 0
  }

  /** Every endpoint of alternate setting 0 of the interface, in descriptor order. */
  function Candidates(alts: seq<AltSetting>, number: Byte): seq<Endpoint> {
    if alts == [] then []
    else
      var last := alts[|alts| - 1];
      if Selected(last, number) then Candidates(alts[..|alts| - 1], number) + last.endpoints
      else Candidates(alts[..|alts| - 1], number)
  }

  predicate Matches(e: Endpoint, t: TransferType, d: Direction) {
    e.transfer == t && e.direction == d
  }

  ghost predicate NoMatch(es: seq<Endpoint>, t: TransferType, d: Direction) {
    forall i | 0 <= i < |es| :: !Matches(es[i], t, d)
  }

  /** `a` is the address of the first endpoint of this kind, or the default when there is none. */
  ghost predicate IsFirst(es: seq<Endpoint>, t: TransferType, d: Direction, default: Byte, a: Byte) {
    || (NoMatch(es, t, d) && a == default)
    || exists k :: FirstAt(es, t, d, k) && es[k].address == a
  }

  ghost predicate FirstAt(es: seq<Endpoint>, t: TransferType, d: Direction, k: int) {
    0 <= k < |es| && Matches(es[k], t, d) && NoMatch(es[..k], t, d)
  }

  /** What the loops know after looking at `es`: whether the kind has been found, and the choice. */
  ghost predicate Scanned(es: seq<Endpoint>, t: TransferType, d: Direction, default: Byte, found: bool, a: Byte) {
    (found <==> !NoMatch(es, t, d)) && IsFirst(es, t, d, default, a)
  }

  lemma ScanOne(es: seq<Endpoint>, t: TransferType, d: Direction, default: Byte, found: bool, a: Byte, e: Endpoint)
    requires Scanned(es, t, d, default, found, a)
    ensures var hit := Matches(e, t, d) && !found;
      Scanned(es + [e], t, d, default, found || hit, if hit then e.address else a)
  {
    var fs := es + [e];
    assert fs[..|es|] == es;
    if found {
      var k :| FirstAt(es, t, d, k) && es[k].address == a;
      assert fs[..k] == es[..k];
      assert FirstAt(fs, t, d, k);
    } else if Matches(e, t, d) {
      assert FirstAt(fs, t, d, |es|);
    }
  }

  // ---- In terms of the descriptors -------------------------------------------------------------------

  /** Endpoint `j` of setting `i` is of this kind, and the setting is number 0 of the interface. */
  predicate HitAt(alts: seq<AltSetting>, number: Byte, t: TransferType, d: Direction, i: int, j: int) {
    && 0 <= i < |alts| && alts[i].interfaceNumber == number && alts[i].alternate == 0
    && 0 <= j < |alts[i].endpoints|
    && alts[i].endpoints[j].transfer == t && alts[i].endpoints[j].direction == d
  }

  predicate Earlier(i: int, j: int, k: int, l: int) {
    i < k || (i == k && j < l)
  }

  ghost predicate FirstHit(alts: seq<AltSetting>, number: Byte, t: TransferType, d: Direction, i: int, j: int) {
    HitAt(alts, number, t, d, i, j) && forall k, l | HitAt(alts, number, t, d, k, l) :: !Earlier(k, l, i, j)
  }

  /** `a` is the address of the first hit in descriptor order, or the default when there is none. */
  ghost predicate Chosen(alts: seq<AltSetting>, number: Byte, t: TransferType, d: Direction, default: Byte, a: Byte) {
    || ((forall i, j :: !HitAt(alts, number, t, d, i, j)) && a == default)
    || exists i, j :: FirstHit(alts, number, t, d, i, j) && alts[i].endpoints[j].address == a
  }

  /** Where no candidate matches there is no hit. */
  lemma {:induction false} NoCandidate(alts: seq<AltSetting>, number: Byte, t: TransferType, d: Direction)
    requires NoMatch(Candidates(alts, number), t, d)
    ensures forall i, j :: !HitAt(alts, number, t, d, i, j)
  {
    if alts != [] {
      var n, front, last := |alts| - 1, alts[..|alts| - 1], alts[|alts| - 1];
      var es := Candidates(front, number);
      if Selected(last, number) {
        forall k | 0 <= k < |last.endpoints| ensures !Matches(last.endpoints[k], t, d) {
          assert (es + last.endpoints)[|es| + k] == last.endpoints[k];
        }
        forall k | 0 <= k < |es| ensures !Matches(es[k], t, d) {
          assert (es + last.endpoints)[k] == es[k];
        }
      }
      NoCandidate(front, number, t, d);
      forall i, j ensures !HitAt(alts, number, t, d, i, j) {
        assert i != n ==> !HitAt(front, number, t, d, i, j);
      }
    }
  }

  /** The first candidate that matches is the first hit. */
  lemma {:induction false} FirstCandidate(alts: seq<AltSetting>, number: Byte, t: TransferType, d: Direction, k: int)
    returns (i: int, j: int)
    requires FirstAt(Candidates(alts, number), t, d, k)
    ensures FirstHit(alts, number, t, d, i, j)
    ensures alts[i].endpoints[j].address == Candidates(alts, number)[k].address
  {
    var n, front, last := |alts| - 1, alts[..|alts| - 1], alts[|alts| - 1];
    var es := Candidates(front, number);
    if k < |es| {
      if Selected(last, number) {
        assert (es + last.endpoints)[k] == es[k] && (es + last.endpoints)[..k] == es[..k];
      }
      i, j := FirstCandidate(front, number, t, d, k);
      forall x, y | HitAt(alts, number, t, d, x, y) ensures !Earlier(x, y, i, j) {
        assert x < n ==> HitAt(front, number, t, d, x, y);
      }
    } else {
      i, j := n, k - |es|;
      assert (es + last.endpoints)[..k][..|es|] == es;
      NoCandidate(front, number, t, d);
      forall y | 0 <= y < j ensures !Matches(last.endpoints[y], t, d) {
        assert (es + last.endpoints)[..k][|es| + y] == last.endpoints[y];
      }
      forall x, y | HitAt(alts, number, t, d, x, y) ensures !Earlier(x, y, i, j) {
        assert x < n ==> !HitAt(front, number, t, d, x, y);
      }
    }
  }

  lemma IsChosen(alts: seq<AltSetting>, number: Byte, t: TransferType, d: Direction, default: Byte, a: Byte)
    requires IsFirst(Candidates(alts, number), t, d, default, a)
    ensures Chosen(alts, number, t, d, default, a)
  {
    var es := Candidates(alts, number);
    if NoMatch(es, t, d) && a == default {
      NoCandidate(alts, number, t, d);
    } else {
      var k :| FirstAt(es, t, d, k) && es[k].address == a;
      var i, j := FirstCandidate(alts, number, t, d, k);
    }
  }

  /** detect_endpoints: for each of the three kinds, the first matching endpoint of alternate setting 0,
      else the default address. */
  method DetectEndpoints(alts: seq<AltSetting>, number: Byte) returns (config: EndpointConfig)
    ensures Chosen(alts, number, Interrupt, In, 0x81, config.eventIn)
    ensures Chosen(alts, number, Bulk, In, 0x82, config.aclIn)
    ensures Chosen(alts, number, Bulk, Out, 0x02, config.aclOut)
  {
    config := EndpointConfig(DEFAULT_EVENT_EP, DEFAULT_ACL_IN_EP, DEFAULT_ACL_OUT_EP);
    var foundEvent, foundAclIn, foundAclOut := false, false, false;
    assert alts[..0] == [];
    for i := 0 to |alts|
      invariant Scanned(Candidates(alts[..i], number), Interrupt, In, DEFAULT_EVENT_EP, foundEvent, config.eventIn)
      invariant Scanned(Candidates(alts[..i], number), Bulk, In, DEFAULT_ACL_IN_EP, foundAclIn, config.aclIn)
      invariant Scanned(Candidates(alts[..i], number), Bulk, Out, DEFAULT_ACL_OUT_EP, foundAclOut, config.aclOut)
    {
      var alt := alts[i];
      assert alts[..i + 1][..i] == alts[..i];
      if Selected(alt, number) {
        ghost var before := Candidates(alts[..i], number);
        assert alt.endpoints[..0] == [] && before + [] == before;
        for j := 0 to |alt.endpoints|
          invariant Scanned(before + alt.endpoints[..j], Interrupt, In, DEFAULT_EVENT_EP, foundEvent, config.eventIn)
          invariant Scanned(before + alt.endpoints[..j], Bulk, In, DEFAULT_ACL_IN_EP, foundAclIn, config.aclIn)
          invariant Scanned(before + alt.endpoints[..j], Bulk, Out, DEFAULT_ACL_OUT_EP, foundAclOut, config.aclOut)
        {
          var e := alt.endpoints[j];
          ghost var seen := before + alt.endpoints[..j];
          ScanOne(seen, Interrupt, In, DEFAULT_EVENT_EP, foundEvent, config.eventIn, e);
          ScanOne(seen, Bulk, In, DEFAULT_ACL_IN_EP, foundAclIn, config.aclIn, e);
          ScanOne(seen, Bulk, Out, DEFAULT_ACL_OUT_EP, foundAclOut, config.aclOut, e);
          assert before + alt.endpoints[..j + 1] == seen + [e];
          match (e.transfer, e.direction) {
            case (Interrupt, In) =>
              if !foundEvent {
                config, foundEvent := config.(eventIn := e.address), true;
              }
            case (Bulk, In) =>
              if !foundAclIn {
                config, foundAclIn := config.(aclIn := e.address), true;
              }
            case (Bulk, Out) =>
              if !foundAclOut {
                config, foundAclOut := config.(aclOut := e.address), true;
              }
            case _ =>
          }
        }
        assert alt.endpoints[..|alt.endpoints|] == alt.endpoints;
      }
    }
    assert alts[..|alts|] == alts;
    IsChosen(alts, number, Interrupt, In, DEFAULT_EVENT_EP, config.eventIn);
    IsChosen(alts, number, Bulk, In, DEFAULT_ACL_IN_EP, config.aclIn);
    IsChosen(alts, number, Bulk, Out, DEFAULT_ACL_OUT_EP, config.aclOut);
  }
}
