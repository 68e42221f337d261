/** IP addresses, prefixes and socket addresses, with their text forms.

    Dotted quads and decimal lengths are written out; the text form of an IPv6
    address (section 4 of RFC 5952) is a parameter of which only `Faithful` is used. */
module Address {
  import opened Wrappers
  import opened Text

  const V4_SPACE: nat := 0x1_0000_0000
  const V6_SPACE: nat := 0x1_0000_0000_0000_0000_0000_0000_0000_0000

  datatype Ip = V4(n: nat) | V6(n: nat)
  {
    predicate Valid() {
      n < if V4? then V4_SPACE else V6_SPACE
    }

    /** The longest prefix of this family. */
    function Bits(): nat {
      if V4? then 32 else 128
    }
  }

  datatype Cidr = Cidr(addr: Ip, prefix: nat)
  {
    predicate Valid() {
      addr.Valid() && prefix <= addr.Bits()
    }
  }

  datatype SocketAddr = SocketAddr(ip: Ip, port: nat)
  {
    predicate Valid() {
      ip.Valid() && port < 0x1_0000
    }
  }

  /** Whether a destination, an address or a prefix, is spelt as an IPv6 one. */
  predicate IsV6Text(destination: string) {
    ':' in destination
  }

  datatype V6Text = V6Text(show: nat -> string, read: string -> Option<nat>)

  predicate IsV6Char(c: char) {
    IsDigit(c) || 'a' <= c <= 'f' || c == ':' || c == '.'
  }

  ghost predicate Faithful(v6: V6Text) {
    && (forall n: nat :: n < V6_SPACE ==>
          && ':' in v6.show(n)
          && (forall c :: c in v6.show(n) ==> IsV6Char(c))
          && v6.read(v6.show(n)) == Some(n))
    && (forall s :: v6.read(s).Some? ==> v6.read(s).value < V6_SPACE)
  }

  // ---- dotted quads ----------------------------------------------------------

  /** One to three digits, no leading zero, at most 255. */
  function ParseOctet(s: string): (r: Option<nat>)
    ensures r.Some? ==> r.value < 256
  {
    if s == [] || |s| > 3 || (|s| > 1 && s[0] == '0') || (exists c :: c in s && !IsDigit(c)) then None
    else if DigitsValue(s) > 255 then None
    else Some(DigitsValue(s))
  }

  function ParseV4(s: string): (r: Option<nat>)
    ensures r.Some? ==> r.value < V4_SPACE
  {
    ParseParts(Split(s, '.'))
  }

  function ParseParts(p: seq<string>): (r: Option<nat>)
    ensures r.Some? ==> r.value < V4_SPACE && |p| == 4
  {
    if |p| != 4 then None else
    match (ParseOctet(p[0]), ParseOctet(p[1]), ParseOctet(p[2]), ParseOctet(p[3]))
    case (Some(a), Some(b), Some(c), Some(d)) => Some(a * 0x100_0000 + b * 0x1_0000 + c * 0x100 + d)
    case _ => None
  }

  function Octets(n: nat): seq<nat> {
    [n / 0x100_0000, n / 0x1_0000 % 0x100, n / 0x100 % 0x100, n % 0x100]
  }

  function ShowV4(n: nat): string {
    var o := Octets(n);
    Join([Decimal(o[0]), Decimal(o[1]), Decimal(o[2]), Decimal(o[3])], ".")
  }

  lemma OctetRoundTrip(n: nat)
    requires n < 256
    ensures ParseOctet(Decimal(n)) == Some(n)
  {
    DecimalValue(n);
    var s := Decimal(n);
    assert |s| <= 3 by {
      assert n >= 10 ==> s == Decimal(n / 10) + [Digit(n % 10)];
      assert n >= 100 ==> Decimal(n / 10) == Decimal(n / 100) + [Digit(n / 10 % 10)];
    }
    assert n == 0 ==> s == [Digit(0)];
  }

  /** A dotted quad parses back to the address it was written for. */
  lemma V4RoundTrip(n: nat)
    requires n < V4_SPACE
    ensures ParseV4(ShowV4(n)) == Some(n)
  {
    OctetsCompose(n);
    QuadRoundTrip(Octets(n), n);
  }

  lemma QuadRoundTrip(o: seq<nat>, n: nat)
    requires |o| == 4 && forall i :: 0 <= i < 4 ==> o[i] < 256
    requires n == o[0] * 0x100_0000 + o[1] * 0x1_0000 + o[2] * 0x100 + o[3]
    ensures ParseV4(Join([Decimal(o[0]), Decimal(o[1]), Decimal(o[2]), Decimal(o[3])], ".")) == Some(n)
  {
    var parts := [Decimal(o[0]), Decimal(o[1]), Decimal(o[2]), Decimal(o[3])];
    OctetRoundTrip(o[0]);
    OctetRoundTrip(o[1]);
    OctetRoundTrip(o[2]);
    OctetRoundTrip(o[3]);
    forall s | s in parts ensures '.' !in s {
      ParsedHasNoDot(s);
    }
    SplitJoin(parts, '.');
    PartsBack(parts, o);
  }

  lemma ParsedHasNoDot(s: string)
    requires ParseOctet(s).Some?
    ensures '.' !in s
  {}

  lemma PartsBack(parts: seq<string>, o: seq<nat>)
    requires |parts| == |o| == 4 && forall i :: 0 <= i < 4 ==> ParseOctet(parts[i]) == Some(o[i])
    ensures ParseParts(parts) == Some(o[0] * 0x100_0000 + o[1] * 0x1_0000 + o[2] * 0x100 + o[3])
  {}

  lemma OctetsCompose(n: nat)
    requires n < V4_SPACE
    ensures var o := Octets(n);
      && (forall i :: 0 <= i < 4 ==> o[i] < 256)
      && n == o[0] * 0x100_0000 + o[1] * 0x1_0000 + o[2] * 0x100 + o[3]
  {
    var high := n / 0x100;
    ByteOut(n);
    ByteOut(high);
    ByteOut(high / 0x100);
    TwoBytesOut(n);
    ThreeBytesOut(n);
  }

  lemma ByteOut(n: nat)
    ensures n == n / 0x100 * 0x100 + n % 0x100 && n % 0x100 < 0x100
  {}

  lemma TwoBytesOut(n: nat)
    ensures n / 0x100 / 0x100 == n / 0x1_0000
  {}

  lemma ThreeBytesOut(n: nat)
    ensures n / 0x100 / 0x100 / 0x100 == n / 0x100_0000
  {
    TwoBytesOut(n);
    var m := n / 0x1_0000;
    assert m / 0x100 == n / 0x100_0000;
  }

  predicate IsQuadChar(c: char) {
    IsDigit(c) || c == '.'
  }

  lemma ShowV4Chars(n: nat)
    ensures forall c :: c in ShowV4(n) ==> IsQuadChar(c)
    ensures ShowV4(n) != []
  {
    var o := Octets(n);
    var a, b, c, d := Decimal(o[0]), Decimal(o[1]), Decimal(o[2]), Decimal(o[3]);
    assert [a, b, c, d][1..] == [b, c, d] && [b, c, d][1..] == [c, d] && [c, d][1..] == [d];
    assert Join([c, d], ".") == c + "." + d;
    assert Join([b, c, d], ".") == b + "." + Join([c, d], ".");
    assert ShowV4(n) == a + "." + Join([b, c, d], ".");
  }

  // ---- addresses and prefixes ------------------------------------------------

  function ShowIp(v6: V6Text, ip: Ip): string {
    match ip
    case V4(n) => ShowV4(n)
    case V6(n) => v6.show(n)
  }

  function ParseIp(v6: V6Text, s: string): Option<Ip> {
    match ParseV4(s)
    case Some(n) => Some(V4(n))
    case None =>
      match v6.read(s)
      case Some(n) => Some(V6(n))
      case None => None
  }

  function ShowCidr(v6: V6Text, c: Cidr): string {
    ShowIp(v6, c.addr) + "/" + Decimal(c.prefix)
  }

  function ParseCidr(v6: V6Text, text: string): Option<Cidr> {
    var s := Trim(text);
    var slash := IndexOf(s, '/');
    match ParseIp(v6, Trim(s[..slash]))
    case None => None
    case Some(addr) =>
      if slash == |s| then Some(Cidr(addr, addr.Bits())) else
      match ParseUnsigned(Trim(s[slash + 1..]), 255)
      case None => None
      case Some(p) => if p > addr.Bits() then None else Some(Cidr(addr, p))
  }

  predicate IsPlain(c: char) {
    IsV6Char(c) || c == '/'
  }

  /** Text that survives a `.conf` line: nothing to trim, no separator, no comment. */
  lemma PlainIsClean(s: string)
    requires s != [] && forall c :: c in s ==> IsPlain(c)
    ensures CleanItem(s) && '\n' !in s && '#' !in s && ';' !in s
  {
    assert s[0] in s && s[|s| - 1] in s;
  }

  lemma ShowIpClean(v6: V6Text, ip: Ip)
    requires Faithful(v6) && ip.Valid()
    ensures ShowIp(v6, ip) != [] && '/' !in ShowIp(v6, ip)
    ensures forall c :: c in ShowIp(v6, ip) ==> IsPlain(c)
  {
    if ip.V4? {
      ShowV4Chars(ip.n);
    }
  }

  lemma IpRoundTrip(v6: V6Text, ip: Ip)
    requires Faithful(v6) && ip.Valid()
    ensures ParseIp(v6, ShowIp(v6, ip)) == Some(ip)
  {
    match ip
    case V4(n) => V4RoundTrip(n);
    case V6(n) => NotAQuad(v6.show(n));
  }

  lemma NotAQuad(s: string)
    requires ':' in s
    ensures ParseV4(s).None?
  {
    if ParseV4(s).Some? {
      var parts := Split(s, '.');
      assert forall p :: p in parts ==> ':' !in p by {
        assert parts == [parts[0], parts[1], parts[2], parts[3]];
      }
      SplitKeeps(s, '.', ':');
      assert false;
    }
  }

  /** A character other than the separator is in some part. */
  lemma {:induction false} SplitKeeps(s: string, sep: char, c: char)
    requires c != sep && c in s
    ensures exists p :: p in Split(s, sep) && c in p
    decreases |s|
  {
    var i := IndexOf(s, sep);
    if c in s[..i] {
      assert Split(s, sep)[0] == s[..i];
    } else {
      assert s == s[..i] + [s[i]] + s[i + 1..];
      SplitKeeps(s[i + 1..], sep, c);
      var p :| p in Split(s[i + 1..], sep) && c in p;
      assert p in Split(s, sep);
    }
  }

  lemma CidrTextClean(v6: V6Text, c: Cidr)
    requires Faithful(v6) && c.Valid()
    ensures ShowCidr(v6, c) != [] && forall x :: x in ShowCidr(v6, c) ==> IsPlain(x)
  {
    ShowIpClean(v6, c.addr);
  }

  lemma CidrSplits(a: string, p: string)
    requires a != [] && p != [] && '/' !in a
    requires forall c :: c in a || c in p ==> IsPlain(c)
    ensures var s := a + "/" + p;
      && Trim(s) == s && IndexOf(s, '/') == |a|
      && Trim(s[..|a|]) == a && Trim(s[|a| + 1..]) == p
  {
    var s := a + "/" + p;
    PlainIsClean(a);
    PlainIsClean(p);
    PlainIsClean(s);
    TrimKeeps(s);
    TrimKeeps(a);
    TrimKeeps(p);
    IndexOfAfter(a, '/', p);
    assert s[..|a|] == a && s[|a| + 1..] == p;
  }

  lemma CidrRoundTrip(v6: V6Text, c: Cidr)
    requires Faithful(v6) && c.Valid()
    ensures ParseCidr(v6, ShowCidr(v6, c)) == Some(c)
  {
    ShowIpClean(v6, c.addr);
    CidrSplits(ShowIp(v6, c.addr), Decimal(c.prefix));
    IpRoundTrip(v6, c.addr);
    ParseDecimal(c.prefix, 255);
  }

  lemma ParsedIpValid(v6: V6Text, s: string)
    requires Faithful(v6)
    ensures ParseIp(v6, s).Some? ==> ParseIp(v6, s).value.Valid()
  {}

  lemma ParsedCidrValid(v6: V6Text, text: string)
    requires Faithful(v6)
    ensures ParseCidr(v6, text).Some? ==> ParseCidr(v6, text).value.Valid()
  {
    var s := Trim(text);
    ParsedIpValid(v6, Trim(s[..IndexOf(s, '/')]));
  }

  /** `Display` for a socket address: an IPv6 address is bracketed. */
  function ShowSocket(v6: V6Text, e: SocketAddr): string {
    match e.ip
    case V4(n) => ShowV4(n) + ":" + Decimal(e.port)
    case V6(n) => "[" + v6.show(n) + "]:" + Decimal(e.port)
  }

  lemma ShowSocketClean(v6: V6Text, e: SocketAddr)
    requires Faithful(v6) && e.Valid()
    ensures var s := ShowSocket(v6, e); s != [] && Trimmed(s) && '\n' !in s && '#' !in s && ';' !in s
  {
    ShowIpClean(v6, e.ip);
    var s := ShowSocket(v6, e);
    assert forall c :: c in s ==> IsPlain(c) || c == '[' || c == ']';
    assert s[0] in s && s[|s| - 1] in s;
  }
}
