/** Prefix arithmetic: the shift-and-mask test against address intervals, the
    private ranges a LAN bypass may use, and the Windows split of default routes. */
module Prefix {
  import opened Wrappers
  import opened Text
  import opened Address

  function Pow2(n: nat): (p: nat)
    ensures p >= 1
  {
    if n == 0 then 1 else 2 * Pow2(n - 1)
  }

  /** Bitwise conjunction of two naturals. */
  function And(x: nat, y: nat): nat {
    if x == 0 || y == 0 then 0 else 2 * And(x / 2, y / 2) + (x % 2) * (y % 2)
  }

  /** All ones shifted left by `k` in a word of `w` bits, the overflow lost. */
  function OnesShifted(w: nat, k: nat): nat {
    (Pow2(w) - 1) * Pow2(k) % Pow2(w)
  }

  lemma {:induction false} Pow2Increases(k: nat, w: nat)
    requires k <= w
    ensures Pow2(k) <= Pow2(w) && (k < w ==> Pow2(k) < Pow2(w))
  {
    if k < w {
      Pow2Increases(k, w - 1);
    }
  }

  lemma AtLeastOne(d: nat, m: nat)
    requires m >= 1
    ensures d * m >= d
  {
    assert d * m == d + d * (m - 1);
  }

  lemma ModUnique(n: nat, d: nat, q: nat, r: nat)
    requires d > 0 && r < d && n == d * q + r
    ensures n % d == r
  {
    var q', r' := n / d, n % d;
    assert n == d * q' + r';
    assert d * (q - q') == d * q - d * q' && d * (q' - q) == d * q' - d * q;
    if q > q' {
      AtLeastOne(d, q - q');
    } else if q < q' {
      AtLeastOne(d, q' - q);
    }
  }

  lemma ModAtMost(n: nat, d: nat)
    requires d > 0
    ensures n % d <= n
  {
    if n < d {
      ModUnique(n, d, 0, n);
    }
  }

  lemma OnesTimes(p: nat, q: nat)
    requires 0 < q <= p
    ensures (p - 1) * q % p == if q == p then 0 else p - q
  {
    assert (p - 1) * q == p * (q - 1) + (p - q);
    if q == p {
      assert (p - 1) * p == p * (p - 1) + 0;
      ModUnique((p - 1) * p, p, p - 1, 0);
    } else {
      ModUnique((p - 1) * q, p, q - 1, p - q);
    }
  }

  /** The word whose low `k` bits are clear and whose others are set. */
  function Mask(w: nat, k: nat): nat
    requires k <= w
  {
    Pow2Increases(k, w);
    Pow2(w) - Pow2(k)
  }

  lemma OnesShiftedIs(w: nat, k: nat)
    requires k <= w
    ensures OnesShifted(w, k) == Mask(w, k)
  {
    Pow2Increases(k, w);
    OnesTimes(Pow2(w), Pow2(k));
  }

  lemma {:induction false} AndOnes(x: nat, w: nat)
    requires x < Pow2(w)
    ensures And(x, Pow2(w) - 1) == x
  {
    if w > 0 {
      AndOnes(x / 2, w - 1);
      assert (Pow2(w) - 1) / 2 == Pow2(w - 1) - 1 && (Pow2(w) - 1) % 2 == 1;
    }
  }

  lemma AndEven(x: nat, m: nat)
    ensures And(x, 2 * m) == 2 * And(x / 2, m)
  {
    assert 2 * m / 2 == m && 2 * m % 2 == 0;
  }

  /** Masking the low `k` bits rounds down to a multiple of two to the `k`. */
  lemma {:induction false} AndMask(x: nat, w: nat, k: nat)
    requires k <= w && x < Pow2(w)
    ensures And(x, Mask(w, k)) == x - x % Pow2(k)
    decreases w
  {
    if k == 0 {
      AndOnes(x, w);
    } else {
      var m := Mask(w - 1, k - 1);
      assert Mask(w, k) == 2 * m;
      AndEven(x, m);
      AndMask(x / 2, w - 1, k - 1);
      HalveMod(x, Pow2(k - 1));
    }
  }

  lemma HalveMod(x: nat, p: nat)
    requires p > 0
    ensures x % (2 * p) == 2 * (x / 2 % p) + x % 2
  {
    var h := x / 2;
    var q, r := h / p, h % p;
    assert h == p * q + r;
    assert (2 * p) * q == 2 * (p * q);
    ModUnique(x, 2 * p, q, 2 * r + x % 2);
  }

  // ---- membership ------------------------------------------------------------

  /** The first address of the prefix `p` bits long around `n`, in a `w`-bit space. */
  function Base(n: nat, p: nat, w: nat): nat
    requires p <= w
  {
    ModAtMost(n, Pow2(w - p));
    n - n % Pow2(w - p)
  }

  /** `a` lies in the block's interval of addresses. */
  predicate InBlock(c: Cidr, a: Ip) {
    && c.addr.V4? == a.V4? && c.prefix <= c.addr.Bits()
    && var lo := Base(c.addr.n, c.prefix, c.addr.Bits());
      lo <= a.n < lo + Pow2(c.addr.Bits() - c.prefix)
  }

  /** The masked comparison, as the code computes it on `w`-bit words. */
  predicate MaskedEqual(net: nat, addr: nat, p: nat, w: nat)
    requires p <= w
  {
    var mask := if p == 0 then 0 else OnesShifted(w, w - p);
    And(net, mask) == And(addr, mask)
  }

  lemma MaskedIsInterval(net: nat, addr: nat, p: nat, w: nat)
    requires p <= w && net < Pow2(w) && addr < Pow2(w)
    ensures MaskedEqual(net, addr, p, w) <==> Base(net, p, w) <= addr < Base(net, p, w) + Pow2(w - p)
  {
    OnesShiftedIs(w, w - p);
    AndMask(net, w, w - p);
    AndMask(addr, w, w - p);
    SameBase(net, addr, Pow2(w - p));
  }

  lemma SameBase(x: nat, y: nat, d: nat)
    requires d > 0
    ensures x - x % d == y - y % d <==> x - x % d <= y < x - x % d + d
  {
    var q := x / d;
    assert x - x % d == d * q;
    if d * q <= y < d * q + d {
      ModUnique(y, d, q, y - d * q);
    }
  }

  lemma Pow2Double(k: nat, p: nat)
    requires Pow2(k) == p
    ensures Pow2(k + k) == p * p
  {
    Pow2Sum(k, k);
  }

  lemma SpaceSizes()
    ensures Pow2(32) == V4_SPACE && Pow2(128) == V6_SPACE
    ensures Pow2(31) == 0x8000_0000 && Pow2(127) == 0x8000_0000_0000_0000_0000_0000_0000_0000
  {
    var k := 2;
    Pow2Double(k, 4);
    Pow2Double(k + k, 0x10);
    k := 8;
    Pow2Double(k, 0x100);
    Pow2Double(k + k, 0x1_0000);
    k := 32;
    Pow2Double(k, V4_SPACE);
    Pow2Double(k + k, V4_SPACE * V4_SPACE);
  }

  lemma {:induction false} Pow2Sum(a: nat, b: nat)
    ensures Pow2(a + b) == Pow2(a) * Pow2(b)
  {
    if a > 0 {
      Pow2Sum(a - 1, b);
      assert Pow2(a + b) == 2 * (Pow2(a - 1) * Pow2(b)) == 2 * Pow2(a - 1) * Pow2(b);
    }
  }

  /** A network and a length on either side of the first slash. */
  function ReadBlock(v6: V6Text, cidr: string): Option<Cidr> {
    var slash := IndexOf(cidr, '/');
    if slash == |cidr| then None else
    match (ParseUnsigned(cidr[slash + 1..], 0xFFFF_FFFF), ParseIp(v6, cidr[..slash]))
    case (Some(p), Some(net)) => Some(Cidr(net, p))
    case _ => None
  }

  /** `cidr_contains`: text that does not parse contains nothing. */
  predicate CidrContains(v6: V6Text, cidr: string, addr: Ip) {
    match ReadBlock(v6, cidr)
    case Some(c) =>
      c.addr.V4? == addr.V4? && c.prefix <= addr.Bits() && MaskedEqual(c.addr.n, addr.n, c.prefix, addr.Bits())
    case None => false
  }

  lemma ReadBlockOf(v6: V6Text, c: Cidr)
    requires Faithful(v6) && c.Valid()
    ensures ReadBlock(v6, ShowCidr(v6, c)) == Some(c)
  {
    var a, p := ShowIp(v6, c.addr), Decimal(c.prefix);
    ShowIpClean(v6, c.addr);
    IndexOfAfter(a, '/', p);
    var s := a + "/" + p;
    assert s[..|a|] == a && s[|a| + 1..] == p;
    IpRoundTrip(v6, c.addr);
    ParseDecimal(c.prefix, 0xFFFF_FFFF);
  }

  lemma ReadBlockValid(v6: V6Text, cidr: string)
    requires Faithful(v6)
    ensures var r := ReadBlock(v6, cidr); r.Some? ==> r.value.addr.Valid()
  {
    ParsedIpValid(v6, cidr[..IndexOf(cidr, '/')]);
  }

  /** For every text, the masked test is membership in the interval of the block it spells. */
  lemma ContainsIsMembership(v6: V6Text, cidr: string, addr: Ip)
    requires Faithful(v6) && addr.Valid()
    ensures CidrContains(v6, cidr, addr) <==>
      ReadBlock(v6, cidr).Some? && InBlock(ReadBlock(v6, cidr).value, addr)
  {
    var r := ReadBlock(v6, cidr);
    ReadBlockValid(v6, cidr);
    if r.Some? && r.value.addr.V4? == addr.V4? && r.value.prefix <= addr.Bits() {
      MaskedIsMembership(r.value, addr);
    }
  }

  lemma MaskedIsMembership(c: Cidr, addr: Ip)
    requires c.Valid() && addr.Valid() && c.addr.V4? == addr.V4?
    ensures MaskedEqual(c.addr.n, addr.n, c.prefix, addr.Bits()) <==> InBlock(c, addr)
  {
    WithinSpace(c.addr);
    WithinSpace(addr);
    MaskedIsInterval(c.addr.n, addr.n, c.prefix, addr.Bits());
  }

  // ---- the LAN bypass --------------------------------------------------------

  /** Private address space: section 3 of RFC 1918 and section 3.1 of RFC 4193. */
  const PRIVATE: seq<(string, Cidr)> := [
    ("10.0.0.0/8", Cidr(V4(0x0A00_0000), 8)),
    ("172.16.0.0/12", Cidr(V4(0xAC10_0000), 12)),
    ("192.168.0.0/16", Cidr(V4(0xC0A8_0000), 16)),
    ("fc00::/7", Cidr(V6(0xFC00_0000_0000_0000_0000_0000_0000_0000), 7))]

  function KeepRanges(v6: V6Text, ranges: seq<(string, Cidr)>, tunnel: seq<Ip>): seq<string> {
    if ranges == [] then [] else
    (if exists a :: a in tunnel && CidrContains(v6, ranges[0].0, a) then [] else [ranges[0].0])
    + KeepRanges(v6, ranges[1..], tunnel)
  }

  function LanRanges(v6: V6Text, tunnel: seq<Ip>): seq<string> {
    KeepRanges(v6, PRIVATE, tunnel)
  }

  /** How the one IPv6 range is spelt; the others follow from the decimal forms. */
  ghost predicate SpellsUniqueLocal(v6: V6Text) {
    v6.show(0xFC00_0000_0000_0000_0000_0000_0000_0000) == "fc00::"
  }

  lemma SmallDecimals()
    ensures Decimal(0) == "0" && Decimal(7) == "7" && Decimal(8) == "8"
    ensures Decimal(10) == "10" && Decimal(12) == "12" && Decimal(16) == "16"
    ensures Decimal(168) == "168" && Decimal(172) == "172" && Decimal(192) == "192"
  {
    assert Decimal(19) == Decimal(1) + [Digit(9)] && Decimal(17) == Decimal(1) + [Digit(7)];
  }

  lemma QuadText(n: nat, a: string, b: string, c: string, d: string)
    requires n < V4_SPACE
    requires var o := Octets(n); Decimal(o[0]) == a && Decimal(o[1]) == b && Decimal(o[2]) == c && Decimal(o[3]) == d
    ensures ShowV4(n) == a + "." + b + "." + c + "." + d
  {
    assert [a, b, c, d][1..] == [b, c, d] && [b, c, d][1..] == [c, d] && [c, d][1..] == [d];
    assert Join([c, d], ".") == c + "." + d;
    assert Join([b, c, d], ".") == b + "." + Join([c, d], ".");
    assert ShowV4(n) == a + "." + Join([b, c, d], ".");
  }

  lemma PrivateV4Text(v6: V6Text)
    ensures ShowCidr(v6, Cidr(V4(0x0A00_0000), 8)) == "10.0.0.0/8"
    ensures ShowCidr(v6, Cidr(V4(0xAC10_0000), 12)) == "172.16.0.0/12"
    ensures ShowCidr(v6, Cidr(V4(0xC0A8_0000), 16)) == "192.168.0.0/16"
  {
    SmallDecimals();
    assert Octets(0x0A00_0000) == [10, 0, 0, 0];
    assert Octets(0xAC10_0000) == [172, 16, 0, 0];
    assert Octets(0xC0A8_0000) == [192, 168, 0, 0];
    QuadText(0x0A00_0000, "10", "0", "0", "0");
    QuadText(0xAC10_0000, "172", "16", "0", "0");
    QuadText(0xC0A8_0000, "192", "168", "0", "0");
  }

  lemma PrivateV6Text(v6: V6Text)
    requires SpellsUniqueLocal(v6)
    ensures ShowCidr(v6, Cidr(V6(0xFC00_0000_0000_0000_0000_0000_0000_0000), 7)) == "fc00::/7"
  {
    SmallDecimals();
  }

  lemma PrivateReads(v6: V6Text)
    requires Faithful(v6) && SpellsUniqueLocal(v6)
    ensures ReadBlock(v6, "10.0.0.0/8") == Some(Cidr(V4(0x0A00_0000), 8))
    ensures ReadBlock(v6, "172.16.0.0/12") == Some(Cidr(V4(0xAC10_0000), 12))
    ensures ReadBlock(v6, "192.168.0.0/16") == Some(Cidr(V4(0xC0A8_0000), 16))
    ensures ReadBlock(v6, "fc00::/7") == Some(Cidr(V6(0xFC00_0000_0000_0000_0000_0000_0000_0000), 7))
  {
    PrivateV4Text(v6);
    PrivateV6Text(v6);
    ReadBlockOf(v6, Cidr(V4(0x0A00_0000), 8));
    ReadBlockOf(v6, Cidr(V4(0xAC10_0000), 12));
    ReadBlockOf(v6, Cidr(V4(0xC0A8_0000), 16));
    ReadBlockOf(v6, Cidr(V6(0xFC00_0000_0000_0000_0000_0000_0000_0000), 7));
  }

  lemma {:induction false} KeptExactly(v6: V6Text, ranges: seq<(string, Cidr)>, tunnel: seq<Ip>, text: string)
    ensures text in KeepRanges(v6, ranges, tunnel) <==>
      exists i :: 0 <= i < |ranges| && ranges[i].0 == text && forall a :: a in tunnel ==>
        !CidrContains(v6, ranges[i].0, a)
  {
    if ranges != [] {
      KeptExactly(v6, ranges[1..], tunnel, text);
      assert forall i :: 1 <= i < |ranges| ==> ranges[i] == ranges[1..][i - 1];
      assert forall i :: 0 <= i < |ranges| - 1 ==> ranges[1..][i] == ranges[i + 1];
    }
  }

  /** The LAN bypass keeps exactly the private ranges that hold no address of the tunnel. */
  lemma LanRangesExactly(v6: V6Text, tunnel: seq<Ip>, text: string)
    requires Faithful(v6) && SpellsUniqueLocal(v6) && forall a :: a in tunnel ==> a.Valid()
    ensures text in LanRanges(v6, tunnel) <==>
      exists i :: 0 <= i < |PRIVATE| && PRIVATE[i].0 == text && forall a :: a in tunnel ==> !InBlock(PRIVATE[i].1, a)
  {
    PrivateBlocks(v6);
    KeptByMembership(v6, PRIVATE, tunnel, text);
  }

  lemma PrivateBlocks(v6: V6Text)
    requires Faithful(v6) && SpellsUniqueLocal(v6)
    ensures forall i :: 0 <= i < |PRIVATE| ==> ReadBlock(v6, PRIVATE[i].0) == Some(PRIVATE[i].1)
  {
    PrivateReads(v6);
    AllFour((x: (string, Cidr)) => ReadBlock(v6, x.0) == Some(x.1), PRIVATE[0], PRIVATE[1], PRIVATE[2], PRIVATE[3]);
  }

  lemma AllFour<T>(p: T -> bool, a: T, b: T, c: T, d: T)
    requires p(a) && p(b) && p(c) && p(d)
    ensures var r := [a, b, c, d]; forall i :: 0 <= i < |r| ==> p(r[i])
  {}

  lemma KeptByMembership(v6: V6Text, ranges: seq<(string, Cidr)>, tunnel: seq<Ip>, text: string)
    requires Faithful(v6) && forall a :: a in tunnel ==> a.Valid()
    requires forall i :: 0 <= i < |ranges| ==> ReadBlock(v6, ranges[i].0) == Some(ranges[i].1)
    ensures text in KeepRanges(v6, ranges, tunnel) <==>
      exists i :: 0 <= i < |ranges| && ranges[i].0 == text && forall a :: a in tunnel ==> !InBlock(ranges[i].1, a)
  {
    KeptExactly(v6, ranges, tunnel, text);
    forall i, a | 0 <= i < |ranges| && a in tunnel
      ensures CidrContains(v6, ranges[i].0, a) <==> InBlock(ranges[i].1, a)
    {
      ContainsIsMembership(v6, ranges[i].0, a);
    }
  }

  // ---- splitting default routes ----------------------------------------------

  predicate IsDefault(c: Cidr) {
    c.prefix == 0 && c.addr.n == 0
  }

  /** What one entry becomes. */
  function Halves(c: Cidr): seq<Cidr> {
    if !IsDefault(c) then [c]
    else if c.addr.V4? then [Cidr(V4(0), 1), Cidr(V4(0x8000_0000), 1)]
    else [Cidr(V6(0), 1), Cidr(V6(0x8000_0000_0000_0000_0000_0000_0000_0000), 1)]
  }

  function SplitDefaults(cs: seq<Cidr>): seq<Cidr> {
    if cs == [] then [] else Halves(cs[0]) + SplitDefaults(cs[1..])
  }

  predicate Covers(cs: seq<Cidr>, a: Ip) {
    exists i :: 0 <= i < |cs| && InBlock(cs[i], a)
  }

  lemma CoversAppend(x: seq<Cidr>, y: seq<Cidr>, a: Ip)
    ensures Covers(x + y, a) <==> Covers(x, a) || Covers(y, a)
  {
    if Covers(x, a) {
      var i :| 0 <= i < |x| && InBlock(x[i], a);
      assert (x + y)[i] == x[i];
    }
    if Covers(y, a) {
      var i :| 0 <= i < |y| && InBlock(y[i], a);
      assert (x + y)[|x| + i] == y[i];
    }
  }

  lemma HalfBases(w: nat)
    requires w > 0
    ensures Base(0, 0, w) == 0 && Base(0, 1, w) == 0 && Base(Pow2(w - 1), 1, w) == Pow2(w - 1)
  {
    ModUnique(Pow2(w - 1), Pow2(w - 1), 1, 0);
  }

  /** The addresses of a family, in terms of its width. */
  lemma WithinSpace(a: Ip)
    requires a.Valid()
    ensures a.n < Pow2(a.Bits())
  {
    SpaceSizes();
  }

  lemma HalfStarts(c: Cidr)
    requires IsDefault(c)
    ensures Halves(c)[1].addr.n == Pow2(c.addr.Bits() - 1)
  {
    SpaceSizes();
  }

  /** A block one bit long, or none, is half of the space or all of it. */
  lemma HalfIntervals(n: nat, w: nat)
    requires w > 0 && n < Pow2(w)
    ensures Base(0, 0, w) <= n < Base(0, 0, w) + Pow2(w - 0)
    ensures Base(0, 1, w) <= n < Base(0, 1, w) + Pow2(w - 1)
      || Base(Pow2(w - 1), 1, w) <= n < Base(Pow2(w - 1), 1, w) + Pow2(w - 1)
  {
    HalfBases(w);
  }

  lemma HalvesCover(c: Cidr, a: Ip)
    requires a.Valid()
    ensures Covers(Halves(c), a) <==> InBlock(c, a)
  {
    var h := Halves(c);
    if !IsDefault(c) {
      assert h[0] == c;
    } else if c.addr.V4? == a.V4? {
      DefaultCovers(c, a);
    } else {
      assert !InBlock(h[0], a) && !InBlock(h[1], a);
    }
  }

  lemma DefaultCovers(c: Cidr, a: Ip)
    requires a.Valid() && IsDefault(c) && c.addr.V4? == a.V4?
    ensures Covers(Halves(c), a) && InBlock(c, a)
  {
    var h := Halves(c);
    WithinSpace(a);
    HalfStarts(c);
    HalfIntervals(a.n, a.Bits());
    assert InBlock(h[0], a) || InBlock(h[1], a);
  }

  /** The rewritten list captures exactly the same addresses. */
  lemma {:induction false} SplitKeepsMeaning(cs: seq<Cidr>, a: Ip)
    requires a.Valid()
    ensures Covers(SplitDefaults(cs), a) <==> Covers(cs, a)
  {
    if cs != [] {
      SplitKeepsMeaning(cs[1..], a);
      HalvesCover(cs[0], a);
      CoversAppend(Halves(cs[0]), SplitDefaults(cs[1..]), a);
      CoversAppend([cs[0]], cs[1..], a);
      assert cs == [cs[0]] + cs[1..];
      assert [cs[0]][0] == cs[0];
    }
  }

  lemma {:induction false} NoDefaultRemains(cs: seq<Cidr>)
    ensures forall c :: c in SplitDefaults(cs) ==> !IsDefault(c)
  {
    if cs != [] {
      NoDefaultRemains(cs[1..]);
    }
  }

  lemma {:induction false} SplitAppend(x: seq<Cidr>, y: seq<Cidr>)
    ensures SplitDefaults(x + y) == SplitDefaults(x) + SplitDefaults(y)
  {
    if x == [] {
      assert x + y == y;
    } else {
      assert (x + y)[1..] == x[1..] + y;
      SplitAppend(x[1..], y);
    }
  }

  /** Every other entry stays, once, between what came before it and what came after. */
  lemma OthersKeepTheirPlace(cs: seq<Cidr>, i: nat)
    requires i < |cs| && !IsDefault(cs[i])
    ensures SplitDefaults(cs) == SplitDefaults(cs[..i]) + [cs[i]] + SplitDefaults(cs[i + 1..])
  {
    var head := cs[..i];
    assert cs == head + [cs[i]] + cs[i + 1..];
    SplitAppend(head + [cs[i]], cs[i + 1..]);
    SplitAppend(head, [cs[i]]);
    SplitOne(cs[i]);
  }

  lemma SplitOne(c: Cidr)
    ensures SplitDefaults([c]) == Halves(c)
  {
    assert [c][1..] == [];
  }

  /** The rewrite as the loop that builds it. */
  method SplitDefaultRoutes(cs: seq<Cidr>) returns (allowed: seq<Cidr>)
    ensures allowed == SplitDefaults(cs)
  {
    allowed := [];
    assert cs[..0] == [];
    for i := 0 to |cs|
      invariant allowed == SplitDefaults(cs[..i])
    {
      var c := cs[i];
      SplitAppend(cs[..i], [c]);
      assert cs[..i + 1] == cs[..i] + [c] && [c][1..] == [];
      if c.addr.V4? && c.prefix == 0 && c.addr.n == 0 {
        allowed := allowed + [Cidr(V4(0), 1)];
        allowed := allowed + [Cidr(V4(0x8000_0000), 1)];
      } else if c.addr.V6? && c.prefix == 0 && c.addr.n == 0 {
        allowed := allowed + [Cidr(V6(0), 1)];
        allowed := allowed + [Cidr(V6(0x8000_0000_0000_0000_0000_0000_0000_0000), 1)];
      } else {
        allowed := allowed + [c];
      }
    }
    assert cs[..|cs|] == cs;
  }
}
