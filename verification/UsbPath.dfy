/** The port path of a USB device, parsed from its sysfs name ("1-2.3" is port 3 of the hub on port 2). */
module UsbPath {
  import opened ByteTypes
  import opened Wrappers

  const USB_MAX_PATH_LEN := 7

  // ---- The grammar -----------------------------------------------------------------------------------

  predicate Lacks(s: string, ch: char) {
    forall i | 0 <= i < |s| :: s[i] != ch
  }

  predicate IsDigit(ch: char) {
    '0' <= ch <= '9'
  }

  predicate AllDigits(s: string) {
    forall i | 0 <= i < |s| :: IsDigit(s[i])
  }

  /** The number a string of digits denotes. */
  function Value(s: string): nat
    requires AllDigits(s)
  {
    if s == [] then 0 else 10 * Value(s[..|s| - 1]) + DigitValue(s[|s| - 1])
  }

  function DigitValue(ch: char): nat
    requires IsDigit(ch)
  {
    ch as int - '0' as int
  }

  /** The digits of a port: a plus sign in front is allowed. */
  function Digits(elem: string): string {
    if elem != [] && elem[0] == '+' then elem[1..] else elem
  }

  /** `elem` denotes port `p`: at least one digit, leading zeros allowed, at most 255. */
  predicate IsPort(elem: string, p: int) {
    Digits(elem) != [] && AllDigits(Digits(elem)) && Value(Digits(elem)) == p < 256
  }

  function Join(elems: seq<string>): string
    requires elems != []
  {
    if |elems| == 1 then elems[0] else Join(elems[..|elems| - 1]) + "." + elems[|elems| - 1]
  }

  ghost predicate PortsOf(elems: seq<string>, path: Bytes) {
    |elems| == |path| && forall i | 0 <= i < |path| :: IsPort(elems[i], path[i])
  }

  /** `name` is a bus, a dash, and the ports of `path` separated by dots. */
  ghost predicate Names(name: string, path: Bytes) {
    && 1 <= |path| <= USB_MAX_PATH_LEN
    && exists bus, elems :: Spelled(name, bus, elems, path)
  }

  ghost predicate Spelled(name: string, bus: string, elems: seq<string>, path: Bytes) {
    Lacks(bus, '-') && elems != [] && name == bus + "-" + Join(elems) && PortsOf(elems, path)
  }

  // ---- Library operations ------------------------------------------------------------------------------

  /** The pieces `f` with `e` added to the last. */
  function Grown(f: seq<string>, e: string): seq<string>
    requires f != []
  {
    f[..|f| - 1] + [f[|f| - 1] + e]
  }

  /** str::split('.'): the pieces between dots, at least one. */
  function Split(s: string): (r: seq<string>)
    ensures r != []
  {
    if s == [] then [""]
    else
      var front, ch := Split(s[..|s| - 1]), s[|s| - 1];
      if ch == '.' then front + [""]
      else Grown(front, [ch])
  }

  /** Position of the first dash, or the length. */
  function FirstDash(s: string): (i: nat)
    ensures i <= |s| && (forall k | 0 <= k < i :: s[k] != '-') && (i < |s| ==> s[i] == '-')
  {
    if s == [] then 0
    else
      var i, last := FirstDash(s[..|s| - 1]), |s| - 1;
      if i < last || s[last] == '-' then i else |s|
  }

  lemma {:induction false} PiecesLackDots(s: string)
    ensures forall i | 0 <= i < |Split(s)| :: Lacks(Split(s)[i], '.')
  {
    if s != [] {
      PiecesLackDots(s[..|s| - 1]);
    }
  }

  lemma {:induction false} SplitJoins(s: string)
    ensures Join(Split(s)) == s
  {
    if s != [] {
      var front, ch := Split(s[..|s| - 1]), s[|s| - 1];
      SplitJoins(s[..|s| - 1]);
      assert s == s[..|s| - 1] + [ch];
      if ch == '.' {
        assert (front + [""])[..|front|] == front;
      } else {
        JoinGrowsLast(front, ch);
      }
    }
  }

  lemma JoinGrowsLast(elems: seq<string>, ch: char)
    requires elems != []
    ensures Join(Grown(elems, [ch])) == Join(elems) + [ch]
  {
    var n := |elems| - 1;
    var more := Grown(elems, [ch]);
    assert |more| == n + 1 && more[..n] == elems[..n] && more[n] == elems[n] + [ch];
    if n > 0 {
      Reassociate(Join(elems[..n]) + ".", elems[n], [ch]);
    }
  }

  lemma Reassociate(a: string, b: string, c: string)
    ensures a + (b + c) == a + b + c
  {
  }

  /** Splitting undoes joining, for pieces without dots. */
  lemma {:induction false} JoinSplits(elems: seq<string>)
    requires elems != [] && forall i | 0 <= i < |elems| :: Lacks(elems[i], '.')
    ensures Split(Join(elems)) == elems
    decreases |elems|
  {
    var n := |elems| - 1;
    if n == 0 {
      SplitPlain("", elems[0]);
      assert "" + elems[0] == elems[0];
      assert Split("") == [""];
    } else {
      JoinSplits(elems[..n]);
      var front := Join(elems[..n]);
      SplitAtDot(front);
      SplitPlain(front + ".", elems[n]);
      LastPiece(elems, n);
    }
  }

  lemma SplitAtDot(s: string)
    ensures Split(s + ".") == Split(s) + [""]
  {
    assert (s + ".")[..|s|] == s;
  }

  lemma LastPiece(elems: seq<string>, n: nat)
    requires |elems| == n + 1
    ensures Grown(elems[..n] + [""], elems[n]) == elems
  {
    assert "" + elems[n] == elems[n];
  }

  /** Characters other than dots go to the last piece. */
  lemma {:induction false} SplitPlain(s: string, e: string)
    requires Lacks(e, '.')
    ensures Split(s + e) == Grown(Split(s), e)
    decreases |e|
  {
    var f := Split(s);
    if e == [] {
      assert s + e == s && f[|f| - 1] + e == f[|f| - 1];
    } else {
      var m := |e| - 1;
      SplitPlain(s, e[..m]);
      SplitChar(s + e[..m], e[m]);
      assert s + e[..m] + [e[m]] == s + e;
      Regrow(f, e[..m], e[m]);
      assert e[..m] + [e[m]] == e;
    }
  }

  lemma SplitChar(s: string, ch: char)
    requires ch != '.'
    ensures Split(s + [ch]) == Grown(Split(s), [ch])
  {
    assert (s + [ch])[..|s|] == s;
  }

  lemma Regrow(f: seq<string>, e: string, ch: char)
    requires f != []
    ensures Grown(Grown(f, e), [ch]) == Grown(f, e + [ch])
  {
    var g := Grown(f, e);
    assert g[..|g| - 1] == f[..|f| - 1];
    assert f[|f| - 1] + e + [ch] == f[|f| - 1] + (e + [ch]);
  }

  // ---- Parsing one port --------------------------------------------------------------------------------

  lemma {:induction false} ValueGrows(s: string, i: nat)
    requires AllDigits(s) && i <= |s|
    ensures Value(s[..i]) <= Value(s)
    decreases |s|
  {
    if i == |s| {
      assert s[..i] == s;
    } else {
      ValueGrows(s[..|s| - 1], i);
      assert s[..|s| - 1][..i] == s[..i];
    }
  }

  /** str::parse::<u8>: at every digit the multiplication and the addition are checked. */
  method ParsePort(elem: string) returns (r: Option<Byte>)
    ensures r.Some? ==> IsPort(elem, r.value)
    ensures r.None? ==> forall p :: !IsPort(elem, p)
  {
    var digits := Digits(elem);
    if digits == [] {
      return None;
    }
    var acc := 0;
    for i := 0 to |digits|
      invariant AllDigits(digits[..i]) && acc == Value(digits[..i]) && 0 <= acc < 256
    {
      if !IsDigit(digits[i]) {
        return None;
      }
      assert digits[..i + 1][..i] == digits[..i];
      var next := 10 * acc + DigitValue(digits[i]);
      assert next == Value(digits[..i + 1]);
      if next >= 256 {
        if AllDigits(digits) {
          ValueGrows(digits, i + 1);
        }
        return None;
      }
      acc := next;
    }
    assert digits[..|digits|] == digits;
    r := Some(acc);
  }

  /** A plus sign in front changes nothing, unless there is one already. */
  lemma PlusIsOptional(elem: string, p: int)
    requires elem == [] || elem[0] != '+'
    ensures IsPort("+" + elem, p) <==> IsPort(elem, p)
  {
    assert ("+" + elem)[1..] == elem;
  }

  /** A port is written with decimal digits, after at most one plus sign. */
  lemma PortCharacters(elem: string, p: int)
    requires IsPort(elem, p)
    ensures elem != [] && forall i | 0 <= i < |elem| :: elem[i] in "0123456789" || (i == 0 && elem[i] == '+')
  {
    forall i | 0 <= i < |elem| ensures elem[i] in "0123456789" || (i == 0 && elem[i] == '+') {
      if elem[0] != '+' {
        DigitIsDecimal(Digits(elem)[i]);
      } else if i > 0 {
        DigitIsDecimal(Digits(elem)[i - 1]);
      }
    }
  }

  lemma DigitIsDecimal(ch: char)
    requires IsDigit(ch)
    ensures ch == "0123456789"[DigitValue(ch)]
  {
  }

  // ---- Parsing the name --------------------------------------------------------------------------------

  /** The loop over the pieces. */
  method ParsePorts(elems: seq<string>) returns (r: Option<Bytes>)
    ensures forall path :: PortsOf(elems, path) <==> r == Some(path)
  {
    var path: Bytes := [];
    for i := 0 to |elems|
      invariant |path| == i && forall k | 0 <= k < i :: IsPort(elems[k], path[k])
    {
      var port := ParsePort(elems[i]);
      if port.None? {
        forall p ensures !PortsOf(elems, p) {
          assert |p| == |elems| ==> !IsPort(elems[i], p[i]);
        }
        return None;
      }
      path := path + [port.value];
    }
    forall p | PortsOf(elems, p) ensures p == path {
      OnePathOf(elems, p, path);
    }
    r := Some(path);
  }

  /** parse_usb_path accepts exactly the names of the grammar, and returns the path they name. */
  method ParseUsbPath(name: string) returns (r: Option<Bytes>)
    ensures forall path :: Names(name, path) <==> r == Some(path)
    ensures r.Some? ==> 1 <= |r.value| <= 7
  {
    r := ParsePieces(name);
    Spelling(name);
  }

  method ParsePieces(name: string) returns (r: Option<Bytes>)
    ensures forall path :: NamesByPieces(name, path) <==> r == Some(path)
  {
    var dash := FirstDash(name);
    if dash == |name| {
      return None;
    }
    r := ParsePorts(Split(name[dash + 1..]));
    if r.Some? && (r.value == [] || |r.value| > USB_MAX_PATH_LEN) {
      r := None;
    }
  }

  /** The ports of a name are the pieces after its first dash. */
  ghost predicate NamesByPieces(name: string, path: Bytes) {
    && 1 <= |path| <= USB_MAX_PATH_LEN
    && FirstDash(name) < |name|
    && PortsOf(Split(name[FirstDash(name) + 1..]), path)
  }

  /** There is only one way to spell a path. */
  lemma Spelling(name: string)
    ensures forall path :: Names(name, path) <==> NamesByPieces(name, path)
  {
    forall path ensures Names(name, path) <==> NamesByPieces(name, path) {
      if Names(name, path) {
        NameDetermines(name, path);
      }
      if NamesByPieces(name, path) {
        PiecesSpell(name, path);
      }
    }
  }

  lemma PiecesSpell(name: string, path: Bytes)
    requires NamesByPieces(name, path)
    ensures Names(name, path)
  {
    var dash := FirstDash(name);
    SplitJoins(name[dash + 1..]);
    PiecesLackDots(name[dash + 1..]);
    CutAt(name, dash);
    assert Spelled(name, name[..dash], Split(name[dash + 1..]), path);
  }

  lemma CutAt(name: string, i: nat)
    requires i < |name| && name[i] == '-'
    ensures name == name[..i] + "-" + name[i + 1..]
  {
  }

  lemma NameDetermines(name: string, path: Bytes)
    requires Names(name, path)
    ensures NamesByPieces(name, path)
  {
    var bus, elems :| Spelled(name, bus, elems, path);
    FirstDashAfter(name, bus, Join(elems));
    assert name[|bus| + 1..] == Join(elems);
    forall i | 0 <= i < |elems| ensures Lacks(elems[i], '.') {
      PortHasNoDot(elems[i], path[i]);
    }
    JoinSplits(elems);
  }

  lemma FirstDashAfter(name: string, bus: string, rest: string)
    requires Lacks(bus, '-') && name == bus + "-" + rest
    ensures FirstDash(name) == |bus|
  {
    assert name[|bus|] == '-';
    forall k | 0 <= k < |bus| ensures name[k] != '-' {
      assert name[k] == bus[k];
    }
  }

  lemma PortHasNoDot(elem: string, p: int)
    requires IsPort(elem, p)
    ensures Lacks(elem, '.')
  {
    forall i | 0 <= i < |elem| ensures elem[i] != '.' {
      if elem[0] != '+' {
        assert IsDigit(Digits(elem)[i]);
      } else if i > 0 {
        assert IsDigit(Digits(elem)[i - 1]);
      }
    }
  }

  /** A name names at most one path. */
  lemma NamesOnePath(name: string, a: Bytes, b: Bytes)
    requires Names(name, a) && Names(name, b)
    ensures a == b
  {
    NameDetermines(name, a);
    NameDetermines(name, b);
    OnePathOf(Split(name[FirstDash(name) + 1..]), a, b);
  }

  lemma OnePathOf(elems: seq<string>, a: Bytes, b: Bytes)
    requires PortsOf(elems, a) && PortsOf(elems, b)
    ensures a == b
  {
    forall i | 0 <= i < |a| ensures a[i] == b[i] {
      assert IsPort(elems[i], a[i]) && IsPort(elems[i], b[i]);
    }
  }

  // ---- Printing ----------------------------------------------------------------------------------------

  function Digit(d: nat): char
    requires d < 10
  {
    "0123456789"[d]
  }

  /** A port in decimal, without leading zeros. */
  function PrintPort(p: nat): string {
    if p < 10 then [Digit(p)] else PrintPort(p / 10) + [Digit(p % 10)]
  }

  lemma {:induction false} PrintedPort(p: nat)
    ensures PrintPort(p) != [] && AllDigits(PrintPort(p)) && Value(PrintPort(p)) == p
    ensures PrintPort(p)[0] != '+'
  {
    var s := PrintPort(p);
    if p < 10 {
      assert s[..|s| - 1] == [] && Value([]) == 0;
    } else {
      PrintedPort(p / 10);
      assert s[..|s| - 1] == PrintPort(p / 10);
    }
  }

  function PrintPorts(path: Bytes): seq<string> {
    seq(|path|, i requires 0 <= i < |path| => PrintPort(path[i]))
  }

  /** The sysfs name of a device. */
  function PrintPath(bus: string, path: Bytes): string
    requires path != []
  {
    bus + "-" + Join(PrintPorts(path))
  }

  /** A printed path of one to seven ports is named by what is printed, whatever the bus. */
  lemma PrintNames(bus: string, path: Bytes)
    requires Lacks(bus, '-') && 1 <= |path| <= 7
    ensures Names(PrintPath(bus, path), path)
  {
    forall i | 0 <= i < |path| ensures IsPort(PrintPorts(path)[i], path[i]) {
      PrintedPort(path[i]);
    }
    assert Spelled(PrintPath(bus, path), bus, PrintPorts(path), path);
  }

  /** Parsing what was printed gives the path back. */
  method ParsePrinted(bus: string, path: Bytes) returns (r: Option<Bytes>)
    requires Lacks(bus, '-') && 1 <= |path| <= 7
    ensures r == Some(path)
  {
    PrintNames(bus, path);
    r := ParseUsbPath(PrintPath(bus, path));
  }
}
