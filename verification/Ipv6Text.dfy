/**
 * Expanding an IPv6 literal to its eight groups (ssrf.ts, `ipv6Groups`), against
 * the text forms of section 2.2 of RFC 4291.
 */
module Ipv6Text {
  import Cidr
  import opened JsText
  import opened Options
  import Seqs

  // ------------------------------------------------------------------ strings

  /** JavaScript's `split` by one character. */
  function Split(s: string, c: char): (r: seq<string>)
    ensures r != []
  {
    if s == "" then [""]
    else
      var rest := Split(s[1..], c);
      if s[0] == c then [""] + rest else [[s[0]] + rest[0]] + rest[1..]
  }

  function Join(parts: seq<string>, c: char): string {
    if parts == [] then ""
    else if |parts| == 1 then parts[0]
    else parts[0] + [c] + Join(parts[1..], c)
  }

  /** `split("::")`: the separators are found from the left and do not overlap. */
  function SplitDouble(s: string): (r: seq<string>)
    ensures r != []
    decreases |s|
  {
    if s == "" then [""]
    else if |s| >= 2 && s[0] == ':' && s[1] == ':' then [""] + SplitDouble(s[2..])
    else
      var rest := SplitDouble(s[1..]);
      [[s[0]] + rest[0]] + rest[1..]
  }

  /** `lastIndexOf`, -1 for none. */
  function LastIndexOf(s: string, c: char): (i: int)
    ensures -1 <= i < |s|
  {
    if s == "" then -1
    else if s[|s| - 1] == c then |s| - 1
    else LastIndexOf(s[..|s| - 1], c)
  }

  /** `indexOf`, the length for none. */
  function IndexOf(s: string, c: char): (i: nat)
    ensures i <= |s|
  {
    if s == "" || s[0] == c then 0 else 1 + IndexOf(s[1..], c)
  }

  ghost predicate Without(s: string, c: char) {
    forall i :: 0 <= i < |s| ==> s[i] != c
  }

  lemma {:induction false} SplitWithout(s: string, c: char)
    requires Without(s, c)
    ensures Split(s, c) == [s]
  {
    if s != "" {
      SplitWithout(s[1..], c);
      assert [s[0]] + s[1..] == s;
    }
  }

  lemma {:induction false} SplitAtFirst(a: string, c: char, b: string)
    requires Without(a, c)
    ensures Split(a + [c] + b, c) == [a] + Split(b, c)
    decreases |a|
  {
    var s := a + [c] + b;
    if a == "" {
      assert s[1..] == b;
    } else {
      SplitAtFirst(a[1..], c, b);
      assert s[1..] == a[1..] + [c] + b;
      assert [s[0]] + a[1..] == a;
    }
  }

  ghost predicate PartsWithout(parts: seq<string>, c: char) {
    forall k :: 0 <= k < |parts| ==> Without(parts[k], c)
  }

  lemma {:induction false} SplitInvertsJoin(parts: seq<string>, c: char)
    requires parts != [] && PartsWithout(parts, c)
    ensures Split(Join(parts, c), c) == parts
    decreases |parts|
  {
    if |parts| == 1 {
      SplitWithout(parts[0], c);
      assert parts == [parts[0]];
    } else {
      SplitInvertsJoin(parts[1..], c);
      SplitAtFirst(parts[0], c, Join(parts[1..], c));
      assert parts == [parts[0]] + parts[1..];
    }
  }

  lemma {:induction false} LastIndexFound(a: string, c: char, b: string)
    requires Without(b, c)
    ensures LastIndexOf(a + [c] + b, c) == |a|
    decreases |b|
  {
    var s := a + [c] + b;
    if b != "" {
      var n := |b| - 1;
      assert s[..|s| - 1] == a + [c] + b[..n];
      assert s[|s| - 1] == b[n];
      LastIndexFound(a, c, b[..n]);
    }
  }

  lemma {:induction false} IndexFound(a: string, c: char, b: string)
    requires Without(a, c)
    ensures IndexOf(a, c) == |a| && IndexOf(a + [c] + b, c) == |a|
    decreases |a|
  {
    var s := a + [c] + b;
    if a != "" {
      IndexFound(a[1..], c, b);
      assert s[1..] == a[1..] + [c] + b;
    }
  }

  ghost predicate NoDouble(s: string) {
    forall i :: 0 <= i < |s| - 1 ==> !(s[i] == ':' && s[i + 1] == ':')
  }

  lemma NoDoubleTail(s: string)
    requires NoDouble(s) && s != ""
    ensures NoDouble(s[1..])
    ensures |s| >= 2 ==> !(s[0] == ':' && s[1] == ':')
  {
    var t := s[1..];
    forall i | 0 <= i < |t| - 1 ensures !(t[i] == ':' && t[i + 1] == ':') {
      assert t[i] == s[i + 1] && t[i + 1] == s[(i + 1) + 1];
    }
    assert |s| >= 2 ==> !(s[0] == ':' && s[0 + 1] == ':');
  }

  lemma {:induction false} SplitDoubleNone(s: string)
    requires NoDouble(s)
    ensures SplitDouble(s) == [s]
    decreases |s|
  {
    if s != "" {
      NoDoubleTail(s);
      SplitDoubleNone(s[1..]);
      assert [s[0]] + s[1..] == s;
    }
  }

  lemma {:induction false} SplitDoubleOne(a: string, b: string)
    requires NoDouble(a) && NoDouble(b)
    requires a != "" ==> a[|a| - 1] != ':'
    ensures SplitDouble(a + "::" + b) == [a, b]
    decreases |a|
  {
    var s := a + "::" + b;
    if a == "" {
      assert s[2..] == b;
      SplitDoubleNone(b);
    } else {
      NoDoubleTail(a);
      SplitDoubleOne(a[1..], b);
      assert s[1..] == a[1..] + "::" + b;
      assert !(s[0] == ':' && s[1] == ':');
      assert [s[0]] + a[1..] == a;
    }
  }

  // ------------------------------------------------------------------ numbers

  predicate HexDigit(c: char) {
    '0' <= c <= '9' || 'a' <= c <= 'f' || 'A' <= c <= 'F'
  }

  function DigitValue(c: char): (v: nat)
    requires HexDigit(c)
    ensures v < 16
  {
    if '0' <= c <= '9' then (c - '0') as nat
    else if 'a' <= c <= 'f' then (c - 'a') as nat + 10
    else (c - 'A') as nat + 10
  }

  predicate AllHex(s: string) {
    forall i :: 0 <= i < |s| ==> HexDigit(s[i])
  }

  /** The value of hexadecimal digits, leading zeros or not. */
  function HexValue(s: string): nat
    requires AllHex(s)
  {
    if s == "" then 0 else HexValue(s[..|s| - 1]) * 16 + DigitValue(s[|s| - 1])
  }

  /** One printed group: one to four hexadecimal digits. */
  predicate HexGroup(s: string) {
    1 <= |s| <= 4 && AllHex(s)
  }

  lemma GroupFits(s: string)
    requires HexGroup(s)
    ensures HexValue(s) <= 0xffff
  {
    var n := |s|;
    assert s[..n - 1][..|s[..n - 1]|] == s[..n - 1];
    HexBound(s);
    assert Pow16(1) == 16 && Pow16(2) == 256 && Pow16(3) == 4096 && Pow16(4) == 65536;
  }

  function Pow16(n: nat): nat {
    if n == 0 then 1 else 16 * Pow16(n - 1)
  }

  lemma {:induction false} HexBound(s: string)
    requires AllHex(s)
    ensures HexValue(s) < Pow16(|s|)
    decreases |s|
  {
    if s != "" {
      HexBound(s[..|s| - 1]);
    }
  }

  function HexChar(v: nat): (c: char)
    requires v < 16
    ensures HexDigit(c) && DigitValue(c) == v
  {
    if v < 10 then '0' + v as char else 'a' + (v - 10) as char
  }

  /** `toString(16)`. */
  function ToHex(n: nat): (s: string)
    ensures s != "" && AllHex(s) && HexValue(s) == n
  {
    if n < 16 then [HexChar(n)]
    else
      var s := ToHex(n / 16) + [HexChar(n % 16)];
      assert s[..|s| - 1] == ToHex(n / 16);
      s
  }

  lemma {:induction false} ToHexLength(n: nat, k: nat)
    requires n < Pow16(k) && k > 0
    ensures |ToHex(n)| <= k
    decreases k
  {
    if n >= 16 {
      assert n / 16 < Pow16(k - 1);
      ToHexLength(n / 16, k - 1);
    }
  }

  predicate DecDigit(c: char) {
    '0' <= c <= '9'
  }

  function DecValue(s: string): nat
    requires forall i :: 0 <= i < |s| ==> DecDigit(s[i])
  {
    if s == "" then 0
    else
      assert DecDigit(s[|s| - 1]);
      DecValue(s[..|s| - 1]) * 10 + (s[|s| - 1] - '0') as nat
  }

  /** A number printed in decimal, no leading zeros. */
  function ToDec(n: nat): (s: string)
    ensures s != "" && (forall i :: 0 <= i < |s| ==> DecDigit(s[i])) && DecValue(s) == n
  {
    if n < 10 then ['0' + n as char]
    else
      var s := ToDec(n / 10) + ['0' + (n % 10) as char];
      assert s[..|s| - 1] == ToDec(n / 10);
      s
  }

  // ------------------------------------------------------------------ the text forms

  datatype Octets = Octets(a: nat, b: nat, c: nat, d: nat)

  /** The two groups of four octets. */
  function High(o: Octets): nat {
    o.a * 256 + o.b
  }

  function Low(o: Octets): nat {
    o.c * 256 + o.d
  }

  /**
   * One way to print an address: groups of one to four digits, a dotted tail for
   * the last two or not, a run of zero groups left out (between `head` and `rest`)
   * or not.
   */
  datatype Form = Form(head: seq<string>, compressed: bool, rest: seq<string>, v4: Option<Octets>)

  function Units(f: Form): nat {
    |f.head| + |f.rest| + if f.v4.Some? then 2 else 0
  }

  ghost predicate Groups(parts: seq<string>) {
    forall k :: 0 <= k < |parts| ==> HexGroup(parts[k])
  }

  ghost predicate ValidForm(f: Form) {
    && Groups(f.head) && Groups(f.rest)
    && (f.v4.Some? ==> f.v4.value.a < 256 && f.v4.value.b < 256 && f.v4.value.c < 256 && f.v4.value.d < 256)
    && (if f.compressed then Units(f) <= 7 else f.rest == [] && Units(f) == 8)
  }

  function Dotted(o: Octets): string {
    Join([ToDec(o.a), ToDec(o.b), ToDec(o.c), ToDec(o.d)], '.')
  }

  function DottedTail(f: Form): seq<string> {
    if f.v4.Some? then [Dotted(f.v4.value)] else []
  }

  /** The printed form. */
  function Text(f: Form): string {
    if f.compressed then Join(f.head, ':') + "::" + Join(f.rest + DottedTail(f), ':')
    else Join(f.head + DottedTail(f), ':')
  }

  ghost function Values(parts: seq<string>): (r: seq<nat>)
    requires Groups(parts)
    ensures |r| == |parts|
  {
    seq(|parts|, k requires 0 <= k < |parts| => HexValue(parts[k]))
  }

  function Zeros(n: nat): (r: seq<nat>)
    ensures |r| == n
  {
    seq(n, _ => 0)
  }

  function V4Groups(f: Form): seq<nat> {
    match f.v4
    case None => []
    case Some(o) => [High(o), Low(o)]
  }

  /** The eight groups the form stands for. */
  ghost function Expand(f: Form): (g: seq<nat>)
    requires ValidForm(f)
    ensures |g| == 8
  {
    Values(f.head) + Zeros(8 - Units(f)) + Values(f.rest) + V4Groups(f)
  }

  /** The string is a text form of the groups. */
  ghost predicate Prints(s: string, g: seq<nat>) {
    exists f :: ValidForm(f) && Text(f) == s && Expand(f) == g
  }

  /** node's `isIPv6`. */
  ghost predicate IsIPv6(s: string) {
    exists g :: Prints(s, g)
  }

  ghost predicate IsOctets(o: Octets, s: string) {
    o.a < 256 && o.b < 256 && o.c < 256 && o.d < 256 && s == Dotted(o)
  }

  /** node's `isIPv4`. */
  ghost predicate IsIPv4(s: string) {
    exists o :: IsOctets(o, s)
  }

  // ------------------------------------------------------------------ ipv6Groups

  /** `Number` of a decimal string; 0 stands in for NaN. */
  function Number(s: string): nat {
    if forall i :: 0 <= i < |s| ==> DecDigit(s[i]) then DecValue(s) else 0
  }

  function Ipv4TextToInt(s: string): int {
    var p := Split(s, '.');
    if |p| < 4 then 0 else Cidr.Ipv4ToInt(Number(p[0]), Number(p[1]), Number(p[2]), Number(p[3]))
  }

  /** `Number.parseInt(g, 16)`; None for what is not all digits. */
  function ParseHex(g: string): Option<nat> {
    if g != "" && AllHex(g) then Some(HexValue(g)) else None
  }

  function ParseAll(parts: seq<string>): Option<seq<nat>> {
    if parts == [] then Some([])
    else
      var first := ParseHex(parts[0]);
      var rest := ParseAll(parts[1..]);
      if first.None? || first.value > 0xffff || rest.None? then None else Some([first.value] + rest.value)
  }

  function Pieces(half: string): seq<string> {
    if half == "" then [] else Split(half, ':')
  }

  /** `Array(n).fill("0")`. */
  function ZeroPieces(n: nat): (r: seq<string>)
    ensures |r| == n
  {
    seq(n, _ => "0")
  }

  /** The halves around a "::", the zero groups filled in; one half must be complete. */
  function ExpandHalves(halves: seq<string>): Option<seq<nat>>
    requires halves != []
  {
    if |halves| > 2 then None
    else
      var head := Pieces(halves[0]);
      var rest := if |halves| == 2 then Pieces(halves[1]) else [];
      var fill := if |halves| == 2 then 8 - |head| - |rest| else 0;
      if fill < 0 || |head| + |rest| + fill != 8 then None
      else ParseAll(head + ZeroPieces(fill) + rest)
  }

  /** The part of `ipv6Groups` after a dotted tail has been replaced. */
  function Expanded(s: string): Option<seq<nat>> {
    ExpandHalves(SplitDouble(s))
  }

  function TrimStart(s: string): string {
    if s != "" && White(s[0]) then TrimStart(s[1..]) else s
  }

  function TrimEnd(s: string): string {
    if s != "" && White(s[|s| - 1]) then TrimEnd(s[..|s| - 1]) else s
  }

  /** The literal without white space around it, brackets and zone. */
  function Unwrapped(ip: string): string {
    var t := TrimEnd(TrimStart(ip));
    var u := if t != "" && t[0] == '[' && t[|t| - 1] == ']' && |t| >= 2 then t[1..|t| - 1] else t;
    u[..IndexOf(u, '%')]
  }

  /** A dotted address as two groups. */
  function TwoGroups(tail: string): string {
    var n := Cidr.ToUint32(Ipv4TextToInt(tail));
    ToHex(n / 0x1_0000) + ":" + ToHex(Cidr.ToUint32(Cidr.BitAnd(n, 0xffff)))
  }

  /** The literal with its dotted tail, if it has one, as two groups; None for a tail that is no IPv4 address. */
  ghost function WithoutDots(s: string): Option<string> {
    var lastColon := LastIndexOf(s, ':');
    var tail := s[lastColon + 1..];
    if '.' !in tail then Some(s)
    else if !IsIPv4(tail) || lastColon < 0 then None
    else Some(s[..lastColon] + ":" + TwoGroups(tail))
  }

  /** `ipv6Groups`. */
  ghost function Ipv6Groups(ip: string): Option<seq<nat>> {
    var s := Unwrapped(ip);
    if !IsIPv6(s) then None
    else
      match WithoutDots(s)
      case None => None
      case Some(t) => Expanded(t)
  }

  // ------------------------------------------------------------------ forms without a dotted tail

  lemma {:induction false} JoinedGroups(parts: seq<string>)
    requires Groups(parts)
    ensures NoDouble(Join(parts, ':'))
    ensures parts == [] <==> Join(parts, ':') == ""
    ensures parts != [] ==> Join(parts, ':')[0] != ':' && Join(parts, ':')[|Join(parts, ':')| - 1] != ':'
    ensures PartsWithout(parts, ':')
    decreases |parts|
  {
    assert forall k :: 0 <= k < |parts| ==> HexGroup(parts[k]);
    if |parts| > 1 {
      JoinedGroups(parts[1..]);
      var rest := Join(parts[1..], ':');
      var s := parts[0] + [':'] + rest;
      assert HexGroup(parts[0]);
      forall i | 0 <= i < |s| - 1 ensures !(s[i] == ':' && s[i + 1] == ':') {
        if i > |parts[0]| {
          assert s[i] == rest[i - |parts[0]| - 1] && s[i + 1] == rest[i - |parts[0]|];
        }
      }
    } else if |parts| == 1 {
      assert HexGroup(parts[0]);
    }
  }

  lemma PiecesOfJoin(parts: seq<string>)
    requires Groups(parts)
    ensures Pieces(Join(parts, ':')) == parts
  {
    JoinedGroups(parts);
    if parts != [] {
      SplitInvertsJoin(parts, ':');
    }
  }

  lemma {:induction false} ParseAllValues(parts: seq<string>)
    requires Groups(parts)
    ensures ParseAll(parts) == Some(Values(parts))
  {
    if parts != [] {
      assert HexGroup(parts[0]);
      GroupFits(parts[0]);
      ParseAllValues(parts[1..]);
      assert Values(parts) == [HexValue(parts[0])] + Values(parts[1..]);
    }
  }

  lemma ZeroGroups(n: nat)
    ensures Groups(ZeroPieces(n)) && Values(ZeroPieces(n)) == Zeros(n)
  {
    assert HexValue("0") == 0;
  }

  lemma ValuesOfConcat(a: seq<string>, b: seq<string>)
    requires Groups(a) && Groups(b)
    ensures Groups(a + b) && Values(a + b) == Values(a) + Values(b)
  {
  }

  lemma ParsePieces(head: seq<string>, n: nat, rest: seq<string>)
    requires Groups(head) && Groups(rest)
    ensures ParseAll(head + ZeroPieces(n) + rest) == Some(Values(head) + Zeros(n) + Values(rest))
  {
    ZeroGroups(n);
    ValuesOfConcat(head, ZeroPieces(n));
    ValuesOfConcat(head + ZeroPieces(n), rest);
    ParseAllValues(head + ZeroPieces(n) + rest);
  }

  lemma ExpandedHalves(a: string, b: string, head: seq<string>, rest: seq<string>)
    requires Pieces(a) == head && Pieces(b) == rest
    requires Groups(head) && Groups(rest) && |head| + |rest| <= 7
    ensures ExpandHalves([a, b]) == Some(Values(head) + Zeros(8 - |head| - |rest|) + Values(rest))
  {
    ParsePieces(head, 8 - |head| - |rest|, rest);
  }

  lemma CompressedFormExpands(head: seq<string>, rest: seq<string>)
    requires Groups(head) && Groups(rest) && |head| + |rest| <= 7
    ensures Expanded(Join(head, ':') + "::" + Join(rest, ':'))
            == Some(Values(head) + Zeros(8 - |head| - |rest|) + Values(rest))
  {
    JoinedGroups(head);
    JoinedGroups(rest);
    SplitDoubleOne(Join(head, ':'), Join(rest, ':'));
    PiecesOfJoin(head);
    PiecesOfJoin(rest);
    ExpandedHalves(Join(head, ':'), Join(rest, ':'), head, rest);
  }

  lemma FullFormExpands(head: seq<string>)
    requires Groups(head) && |head| == 8
    ensures Expanded(Join(head, ':')) == Some(Values(head) + Zeros(0) + Values([]))
  {
    JoinedGroups(head);
    SplitDoubleNone(Join(head, ':'));
    PiecesOfJoin(head);
    ParsePieces(head, 0, []);
  }

  /** A form without a dotted tail is expanded to its groups. */
  lemma PlainFormExpands(f: Form)
    requires ValidForm(f) && f.v4.None?
    ensures Expanded(Text(f)) == Some(Expand(f))
  {
    assert f.rest + DottedTail(f) == f.rest && f.head + DottedTail(f) == f.head;
    assert Expand(f) == Values(f.head) + Zeros(8 - Units(f)) + Values(f.rest);
    if f.compressed {
      CompressedFormExpands(f.head, f.rest);
      assert 8 - Units(f) == 8 - |f.head| - |f.rest|;
    } else {
      FullFormExpands(f.head);
    }
  }

  // ------------------------------------------------------------------ the dotted tail

  lemma {:induction false} JoinOfSnoc(parts: seq<string>, last: string, c: char)
    ensures Join(parts + [last], c) == if parts == [] then last else Join(parts, c) + [c] + last
    decreases |parts|
  {
    if parts == [] {
      assert parts + [last] == [last];
    } else {
      JoinOfSnoc(parts[1..], last, c);
      assert (parts + [last])[1..] == parts[1..] + [last];
      if |parts| > 1 {
        assert Join(parts, c) == parts[0] + [c] + Join(parts[1..], c);
      }
    }
  }

  /** The same form with its dotted tail printed as two groups. */
  function AsGroups(f: Form): Form {
    match f.v4
    case None => f
    case Some(o) =>
      var two := [ToHex(High(o)), ToHex(Low(o))];
      if f.compressed then Form(f.head, true, f.rest + two, None) else Form(f.head + two, false, [], None)
  }

  lemma TwoGroupsFit(o: Octets)
    requires o.a < 256 && o.b < 256 && o.c < 256 && o.d < 256
    ensures Groups([ToHex(High(o)), ToHex(Low(o))])
    ensures Values([ToHex(High(o)), ToHex(Low(o))]) == [High(o), Low(o)]
  {
    assert Pow16(1) == 16 && Pow16(2) == 256 && Pow16(3) == 4096 && Pow16(4) == 65536;
    ToHexLength(High(o), 4);
    ToHexLength(Low(o), 4);
  }

  lemma AsGroupsKeepsTheMeaning(f: Form)
    requires ValidForm(f)
    ensures ValidForm(AsGroups(f)) && AsGroups(f).v4.None?
    ensures Expand(AsGroups(f)) == Expand(f)
  {
    if f.v4.Some? {
      var o := f.v4.value;
      var two := [ToHex(High(o)), ToHex(Low(o))];
      TwoGroupsFit(o);
      ValuesOfConcat(f.rest, two);
      ValuesOfConcat(f.head, two);
    }
  }

  lemma DottedParts(o: Octets)
    requires o.a < 256 && o.b < 256 && o.c < 256 && o.d < 256
    ensures Split(Dotted(o), '.') == [ToDec(o.a), ToDec(o.b), ToDec(o.c), ToDec(o.d)]
    ensures Without(Dotted(o), ':') && '.' in Dotted(o)
    ensures Ipv4TextToInt(Dotted(o)) == Cidr.Ipv4ToInt(o.a, o.b, o.c, o.d)
    ensures IsIPv4(Dotted(o))
  {
    var parts := [ToDec(o.a), ToDec(o.b), ToDec(o.c), ToDec(o.d)];
    assert forall k, i :: 0 <= k < 4 && 0 <= i < |parts[k]| ==> DecDigit(parts[k][i]);
    SplitInvertsJoin(parts, '.');
    JoinOfFour(parts[0], parts[1], parts[2], parts[3]);
    assert IsOctets(o, Dotted(o));
  }

  lemma JoinOfFour(a: string, b: string, c: string, d: string)
    requires Without(a, ':') && Without(b, ':') && Without(c, ':') && Without(d, ':')
    ensures Join([a, b, c, d], '.') == a + "." + b + "." + c + "." + d
    ensures Without(Join([a, b, c, d], '.'), ':') && '.' in Join([a, b, c, d], '.')
  {
    assert [a, b, c, d][1..] == [b, c, d] && [b, c, d][1..] == [c, d] && [c, d][1..] == [d];
    assert Join([c, d], '.') == c + "." + d;
    assert Join([b, c, d], '.') == b + "." + c + "." + d;
    var s := a + "." + b + "." + c + "." + d;
    assert s[|a|] == '.';
  }

  lemma SplitWord(hi: nat, lo: nat)
    requires hi < 0x1_0000 && lo < 0x1_0000
    ensures var n := hi * 0x1_0000 + lo;
            n < Cidr.WORD && n / 0x1_0000 == hi && Cidr.ToUint32(Cidr.BitAnd(n, 0xffff)) == lo
  {
    var n := hi * 0x1_0000 + lo;
    Cidr.UnsignedAnd(n, 0xffff);
    Cidr.Pow2Word();
    Cidr.LowBits(n, 16);
  }

  lemma WordOfOctets(o: Octets)
    requires o.a < 256 && o.b < 256 && o.c < 256 && o.d < 256
    ensures High(o) < 0x1_0000 && Low(o) < 0x1_0000
    ensures Cidr.Ipv4ToInt(o.a, o.b, o.c, o.d) == High(o) * 0x1_0000 + Low(o)
  {
    Cidr.Ipv4IsBase256(o.a, o.b, o.c, o.d);
  }

  lemma WordAsGroups(tail: string, n: nat, hi: nat, lo: nat)
    requires n < Cidr.WORD && Ipv4TextToInt(tail) == n
    requires n / 0x1_0000 == hi && Cidr.ToUint32(Cidr.BitAnd(n, 0xffff)) == lo
    ensures TwoGroups(tail) == ToHex(hi) + ":" + ToHex(lo)
  {
    Cidr.Small(n);
  }

  lemma DottedInt(o: Octets)
    requires o.a < 256 && o.b < 256 && o.c < 256 && o.d < 256
    ensures Ipv4TextToInt(Dotted(o)) == High(o) * 0x1_0000 + Low(o)
  {
    DottedParts(o);
    WordOfOctets(o);
  }

  lemma DottedValue(o: Octets, hi: nat, lo: nat) returns (n: nat)
    requires o.a < 256 && o.b < 256 && o.c < 256 && o.d < 256 && hi == High(o) && lo == Low(o)
    ensures n < Cidr.WORD && Ipv4TextToInt(Dotted(o)) == n
    ensures n / 0x1_0000 == hi && Cidr.ToUint32(Cidr.BitAnd(n, 0xffff)) == lo
  {
    n := hi * 0x1_0000 + lo;
    DottedInt(o);
    SplitWord(hi, lo);
  }

  lemma DottedAsGroups(o: Octets)
    requires o.a < 256 && o.b < 256 && o.c < 256 && o.d < 256
    ensures TwoGroups(Dotted(o)) == ToHex(High(o)) + ":" + ToHex(Low(o))
  {
    var n := DottedValue(o, High(o), Low(o));
    WordAsGroups(Dotted(o), n, High(o), Low(o));
  }

  /** What comes before the colon of the last part. */
  function Before(front: string, parts: seq<string>): string
    requires parts == [] ==> front != ""
  {
    if parts == [] then front[..|front| - 1] else front + Join(parts, ':')
  }

  lemma BeforeLast(front: string, parts: seq<string>, last: string)
    requires parts == [] ==> front != "" && front[|front| - 1] == ':'
    ensures front + Join(parts + [last], ':') == Before(front, parts) + ":" + last
  {
    JoinOfSnoc(parts, last, ':');
    if parts == [] {
      assert front == Before(front, parts) + ":";
    }
  }

  lemma BeforeLastTwo(front: string, parts: seq<string>, hi: string, lo: string)
    requires parts == [] ==> front != "" && front[|front| - 1] == ':'
    ensures front + Join(parts + [hi, lo], ':') == Before(front, parts) + ":" + (hi + ":" + lo)
  {
    assert parts + [hi, lo] == parts + [hi] + [lo];
    JoinOfSnoc(parts + [hi], lo, ':');
    BeforeLast(front, parts, hi);
    assert front + Join(parts + [hi, lo], ':') == Before(front, parts) + ":" + hi + ":" + lo;
    var before := Before(front, parts) + ":";
    Seqs.Regroup(before, hi, ":" + lo);
    Seqs.Regroup(before + hi, ":", lo);
    Seqs.Regroup(hi, ":", lo);
  }

  function Front(f: Form): string {
    if f.compressed then Join(f.head, ':') + "::" else ""
  }

  function LastParts(f: Form): seq<string> {
    if f.compressed then f.rest else f.head
  }

  /**
   * A text with a dotted tail is what comes before it, a colon, and the tail; printed as
   * groups, the same with two groups.
   */
  lemma TailOfText(f: Form) returns (before: string)
    requires ValidForm(f) && f.v4.Some?
    ensures Text(f) == before + ":" + Dotted(f.v4.value)
    ensures Text(AsGroups(f)) == before + ":" + TwoGroups(Dotted(f.v4.value))
  {
    var o, g := f.v4.value, AsGroups(f);
    before := Before(Front(f), LastParts(f));
    BeforeLast(Front(f), LastParts(f), Dotted(o));
    BeforeLastTwo(Front(f), LastParts(f), ToHex(High(o)), ToHex(Low(o)));
    DottedAsGroups(o);
    assert Text(f) == Front(f) + Join(LastParts(f) + [Dotted(o)], ':');
    assert LastParts(g) + DottedTail(g) == LastParts(g);
    assert Text(g) == Front(f) + Join(LastParts(g), ':');
  }

  lemma DottedTailIsReplaced(before: string, o: Octets)
    requires o.a < 256 && o.b < 256 && o.c < 256 && o.d < 256
    ensures WithoutDots(before + ":" + Dotted(o)) == Some(before + ":" + TwoGroups(Dotted(o)))
  {
    var s := before + ":" + Dotted(o);
    DottedParts(o);
    LastIndexFound(before, ':', Dotted(o));
    assert s[|before| + 1..] == Dotted(o) && s[..|before|] == before;
  }

  lemma NoDotsIsKept(s: string)
    requires Without(s, '.')
    ensures WithoutDots(s) == Some(s)
  {
    var tail := s[LastIndexOf(s, ':') + 1..];
    assert forall i :: 0 <= i < |tail| ==> tail[i] == s[LastIndexOf(s, ':') + 1 + i];
  }

  /** Replacing the dotted tail gives the same form printed without one. */
  lemma DotsAreReplaced(f: Form)
    requires ValidForm(f)
    ensures WithoutDots(Text(f)) == Some(Text(AsGroups(f)))
  {
    if f.v4.None? {
      NoDots(f);
      NoDotsIsKept(Text(f));
    } else {
      var before := TailOfText(f);
      DottedTailIsReplaced(before, f.v4.value);
    }
  }

  lemma {:induction false} JoinHasOnly(parts: seq<string>)
    requires Groups(parts)
    ensures Without(Join(parts, ':'), '.') && Without(Join(parts, ':'), '%')
    ensures forall i :: 0 <= i < |Join(parts, ':')| ==> Join(parts, ':')[i] == ':' || HexDigit(Join(parts, ':')[i])
    decreases |parts|
  {
    assert forall k :: 0 <= k < |parts| ==> HexGroup(parts[k]);
    if |parts| > 1 {
      JoinHasOnly(parts[1..]);
    }
  }

  lemma NoDots(f: Form)
    requires ValidForm(f) && f.v4.None?
    ensures Without(Text(f), '.')
  {
    JoinHasOnly(f.head);
    JoinHasOnly(f.rest);
    assert f.rest + DottedTail(f) == f.rest && f.head + DottedTail(f) == f.head;
  }

  // ------------------------------------------------------------------ theorems

  /** Whatever way the groups are printed, they are what comes out. */
  lemma FormsExpand(f: Form)
    requires ValidForm(f)
    ensures WithoutDots(Text(f)).Some? && Expanded(WithoutDots(Text(f)).value) == Some(Expand(f))
  {
    DotsAreReplaced(f);
    AsGroupsKeepsTheMeaning(f);
    PlainFormExpands(AsGroups(f));
  }

  /**
   * `ipv6Groups` inverts every text form: of a literal it returns g exactly when
   * the literal, without brackets, zone and white space, is a text form of g.
   */
  lemma Ipv6GroupsInvertsEveryForm(ip: string, g: seq<nat>)
    ensures Ipv6Groups(ip) == Some(g) <==> Prints(Unwrapped(ip), g)
  {
    var s := Unwrapped(ip);
    if Prints(s, g) {
      var f :| ValidForm(f) && Text(f) == s && Expand(f) == g;
      assert IsIPv6(s);
      FormsExpand(f);
    }
    if Ipv6Groups(ip) == Some(g) {
      var h :| Prints(s, h);
      var f :| ValidForm(f) && Text(f) == s && Expand(f) == h;
      FormsExpand(f);
    }
  }

  /** So no string is a text form of two different addresses. */
  lemma TextFormsAreUnambiguous(s: string, g: seq<nat>, h: seq<nat>)
    requires Prints(s, g) && Prints(s, h)
    ensures g == h
  {
    var e :| ValidForm(e) && Text(e) == s && Expand(e) == g;
    var f :| ValidForm(f) && Text(f) == s && Expand(f) == h;
    FormsExpand(e);
    FormsExpand(f);
  }

  // ------------------------------------------------------------------ brackets and zones

  /** A character of a text form. */
  predicate Plain(c: char) {
    HexDigit(c) || c == ':' || c == '.'
  }

  lemma DottedIsPlain(o: Octets)
    requires o.a < 256 && o.b < 256 && o.c < 256 && o.d < 256
    ensures forall i :: 0 <= i < |Dotted(o)| ==> Plain(Dotted(o)[i])
  {
    var parts := [ToDec(o.a), ToDec(o.b), ToDec(o.c), ToDec(o.d)];
    assert forall k, i :: 0 <= k < 4 && 0 <= i < |parts[k]| ==> DecDigit(parts[k][i]);
    JoinOfFour(parts[0], parts[1], parts[2], parts[3]);
  }

  lemma JoinIsPlain(parts: seq<string>)
    requires Groups(parts)
    ensures forall i :: 0 <= i < |Join(parts, ':')| ==> Plain(Join(parts, ':')[i])
    ensures |parts| >= 2 ==> |Join(parts, ':')| >= 2
  {
    JoinHasOnly(parts);
  }

  lemma LastIsPlain(parts: seq<string>, last: string)
    requires Groups(parts) && forall i :: 0 <= i < |last| ==> Plain(last[i])
    ensures forall i :: 0 <= i < |Join(parts + [last], ':')| ==> Plain(Join(parts + [last], ':')[i])
    ensures parts != [] ==> |Join(parts + [last], ':')| >= 2
  {
    JoinOfSnoc(parts, last, ':');
    JoinIsPlain(parts);
    assert parts != [] ==> HexGroup(parts[0]);
    JoinedGroups(parts);
  }

  lemma TextIsPlain(f: Form)
    requires ValidForm(f)
    ensures |Text(f)| >= 2 && forall i :: 0 <= i < |Text(f)| ==> Plain(Text(f)[i])
  {
    var parts := LastParts(f);
    JoinIsPlain(f.head);
    if f.v4.None? {
      JoinIsPlain(parts);
      assert parts + DottedTail(f) == parts;
    } else {
      DottedIsPlain(f.v4.value);
      LastIsPlain(parts, Dotted(f.v4.value));
    }
  }

  lemma NotTrimmed(s: string)
    requires s != "" && !White(s[0]) && !White(s[|s| - 1])
    ensures TrimEnd(TrimStart(s)) == s
  {
  }

  lemma {:induction false} TrimmedInZone(s: string, zone: string)
    requires s != "" && !White(s[|s| - 1])
    ensures exists z :: TrimEnd(s + zone) == s + z && z <= zone
    decreases |zone|
  {
    if zone == "" || !White(zone[|zone| - 1]) {
      assert TrimEnd(s + zone) == s + zone;
    } else {
      var shorter := zone[..|zone| - 1];
      assert (s + zone)[..|s + zone| - 1] == s + shorter;
      TrimmedInZone(s, shorter);
      var z :| TrimEnd(s + shorter) == s + z && z <= shorter;
    }
  }

  lemma Bracketed(inner: string, s: string)
    requires inner[..IndexOf(inner, '%')] == s
    ensures Unwrapped("[" + inner + "]") == s
  {
    var t := "[" + inner + "]";
    NotTrimmed(t);
    assert t[1..|t| - 1] == inner;
  }

  lemma ZoneComesOff(s: string, zone: string)
    requires |s| >= 2 && forall i :: 0 <= i < |s| ==> Plain(s[i])
    ensures Unwrapped(s + "%" + zone) == s
  {
    var head := s + "%";
    assert Plain(s[0]);
    TrimmedInZone(head, zone);
    var z :| TrimEnd(head + zone) == head + z && z <= zone;
    assert TrimStart(head + zone) == head + zone;
    IndexFound(s, '%', z);
    assert (head + z)[..|s|] == s;
  }

  lemma PlainComesOff(s: string)
    requires |s| >= 2 && forall i :: 0 <= i < |s| ==> Plain(s[i])
    ensures Unwrapped(s) == s && s[..IndexOf(s, '%')] == s
  {
    assert Plain(s[0]) && Plain(s[|s| - 1]);
    NotTrimmed(s);
    IndexFound(s, '%', "");
  }

  lemma BracketedZone(s: string, zone: string)
    requires forall i :: 0 <= i < |s| ==> Plain(s[i])
    ensures Unwrapped("[" + (s + "%" + zone) + "]") == s
  {
    var inner := s + "%" + zone;
    IndexFound(s, '%', zone);
    assert inner[..|s|] == s;
    Bracketed(inner, s);
  }

  /** A text form is found in its brackets, before its zone, or both. */
  lemma WrappingsComeOff(f: Form, zone: string)
    requires ValidForm(f)
    ensures Unwrapped(Text(f)) == Text(f)
    ensures Unwrapped("[" + Text(f) + "]") == Text(f)
    ensures Unwrapped(Text(f) + "%" + zone) == Text(f)
    ensures Unwrapped("[" + (Text(f) + "%" + zone) + "]") == Text(f)
  {
    TextIsPlain(f);
    PlainComesOff(Text(f));
    Bracketed(Text(f), Text(f));
    ZoneComesOff(Text(f), zone);
    BracketedZone(Text(f), zone);
  }
}
