/** The kill switch as a first-match chain on outgoing packets. Address lists are
    taken as the blocks they denote; how a bypass destination is spelt is a parameter. */
module Firewall {
  import opened Wrappers
  import opened Address
  import opened Prefix
  import opened Sorting

  /** The outgoing packets the rules tell apart. */
  datatype Packet = Packet(oif: string, mark: nat, dst: Ip, udpPort: Option<nat>)

  datatype Rule =
    | AcceptOut(name: string)
    | AcceptMark(mark: nat)
    | AcceptTo(v6: bool, blocks: seq<Cidr>)
    | AcceptUdp(ports: set<nat>)
    | Drop

  type Chain = seq<Rule>

  datatype Killswitch = Killswitch(iface: string, mark: nat, allowLan: bool)

  const LINK_V4: seq<Cidr> := [Cidr(V4(0xA9FE_0000), 16), Cidr(V4(0xE000_0000), 4), Cidr(V4(0xFFFF_FFFF), 32)]
  const LINK_V6: seq<Cidr> := [
    Cidr(V6(0xFE80_0000_0000_0000_0000_0000_0000_0000), 10),
    Cidr(V6(0xFF00_0000_0000_0000_0000_0000_0000_0000), 8)]
  const LAN_V4: seq<Cidr> := [PRIVATE[0].1, PRIVATE[1].1, PRIVATE[2].1]
  const LAN_V6: seq<Cidr> := [PRIVATE[3].1]
  const DHCP: set<nat> := {67, 68}

  predicate Matches(r: Rule, p: Packet) {
    match r
    case AcceptOut(name) => p.oif == name
    case AcceptMark(mark) => p.mark == mark
    case AcceptTo(v6, blocks) => p.dst.V6? == v6 && Covers(blocks, p.dst)
    case AcceptUdp(ports) => p.udpPort.Some? && p.udpPort.value in ports
    case Drop => true
  }

  /** Whether the packet leaves: the first matching rule decides, the policy accepts. */
  predicate Passes(c: Chain, p: Packet) {
    if c == [] then true
    else if Matches(c[0], p) then !c[0].Drop?
    else Passes(c[1..], p)
  }

  /** The spelling of a destination shows its family. */
  ghost predicate Spells(denote: string -> Cidr) {
    forall d :: denote(d).addr.V6? <==> IsV6Text(d)
  }

  function Spelt(v6: bool): string -> bool {
    (d: string) => IsV6Text(d) == v6
  }

  function BypassRule(denote: string -> Cidr, v6: bool, bypass: seq<string>): Chain {
    var mine := Keep(Spelt(v6), bypass);
    if mine == [] then [] else [AcceptTo(v6, Map(denote, mine))]
  }

  function Script(ks: Killswitch, bypass: seq<string>, denote: string -> Cidr): Chain {
    [AcceptOut("lo"), AcceptOut(ks.iface), AcceptMark(ks.mark),
     AcceptTo(false, LINK_V4), AcceptTo(true, LINK_V6), AcceptUdp(DHCP)]
    + (if ks.allowLan then [AcceptTo(false, LAN_V4), AcceptTo(true, LAN_V6)] else [])
    + BypassRule(denote, false, bypass) + BypassRule(denote, true, bypass)
    + [Drop]
  }

  method Partition(bypass: seq<string>) returns (v4: seq<string>, v6: seq<string>)
    ensures v4 == Keep(Spelt(false), bypass) && v6 == Keep(Spelt(true), bypass)
  {
    v4, v6 := [], [];
    assert bypass[..0] == [];
    for i := 0 to |bypass|
      invariant v4 == Keep(Spelt(false), bypass[..i]) && v6 == Keep(Spelt(true), bypass[..i])
    {
      var d := bypass[i];
      KeepAppend(Spelt(false), bypass[..i], [d]);
      KeepAppend(Spelt(true), bypass[..i], [d]);
      assert bypass[..i + 1] == bypass[..i] + [d] && [d][1..] == [];
      if IsV6Text(d) {
        v6 := v6 + [d];
      } else {
        v4 := v4 + [d];
      }
    }
    assert bypass[..|bypass|] == bypass;
  }

  /** The script built rule by rule. */
  method BuildScript(ks: Killswitch, bypass: seq<string>, denote: string -> Cidr) returns (script: Chain)
    ensures script == Script(ks, bypass, denote)
  {
    var v4, v6 := Partition(bypass);
    script := [AcceptOut("lo")];
    script := script + [AcceptOut(ks.iface)];
    script := script + [AcceptMark(ks.mark)];
    script := script + [AcceptTo(false, LINK_V4)];
    script := script + [AcceptTo(true, LINK_V6)];
    script := script + [AcceptUdp(DHCP)];
    if ks.allowLan {
      script := script + [AcceptTo(false, LAN_V4)];
      script := script + [AcceptTo(true, LAN_V6)];
    }
    if v4 != [] {
      script := script + [AcceptTo(false, Map(denote, v4))];
    }
    if v6 != [] {
      script := script + [AcceptTo(true, Map(denote, v6))];
    }
    script := script + [Drop];
  }

  // ---- what the chain lets out -----------------------------------------------

  predicate Accepts(c: Chain, p: Packet) {
    exists i :: 0 <= i < |c| && Matches(c[i], p)
  }

  predicate OnlyAccepts(c: Chain) {
    forall r :: r in c ==> !r.Drop?
  }

  /** Accepting rules before a final drop let out exactly what one of them matches. */
  lemma {:induction false} PassesBeforeDrop(c: Chain, p: Packet)
    requires OnlyAccepts(c)
    ensures Passes(c + [Drop], p) <==> Accepts(c, p)
  {
    if c == [] {
      assert c + [Drop] == [Drop];
    } else {
      var rest := c[1..];
      assert (c + [Drop])[0] == c[0] && (c + [Drop])[1..] == rest + [Drop];
      assert c[0] in c;
      PassesBeforeDrop(rest, p);
      assert forall i :: 0 <= i < |rest| ==> rest[i] == c[i + 1];
      assert forall i :: 1 <= i < |c| ==> c[i] == rest[i - 1];
    }
  }

  lemma AcceptsAppend(a: Chain, b: Chain, p: Packet)
    ensures Accepts(a + b, p) <==> Accepts(a, p) || Accepts(b, p)
  {
    if Accepts(a, p) {
      var i :| 0 <= i < |a| && Matches(a[i], p);
      assert (a + b)[i] == a[i];
    }
    if Accepts(b, p) {
      var i :| 0 <= i < |b| && Matches(b[i], p);
      assert (a + b)[|a| + i] == b[i];
    }
  }

  /** Link-local, multicast or broadcast: 169.254.0.0 to 169.254.255.255, 224.0.0.0 to 239.255.255.255, the limited
      broadcast address, what starts with the ten bits of fe80, and what starts with ff. */
  predicate LinkScope(dst: Ip) {
    match dst
    case V4(n) => 0xA9FE_0000 <= n < 0xA9FF_0000 || 0xE000_0000 <= n < 0xF000_0000 || n == 0xFFFF_FFFF
    case V6(n) =>
      || 0xFE80_0000_0000_0000_0000_0000_0000_0000 <= n < 0xFEC0_0000_0000_0000_0000_0000_0000_0000
      || 0xFF00_0000_0000_0000_0000_0000_0000_0000 <= n < 0x1_0000_0000_0000_0000_0000_0000_0000_0000
  }

  /** The private ranges: 10, 172.16 to 172.31, 192.168, and what starts with fc or fd. */
  predicate PrivateScope(dst: Ip) {
    match dst
    case V4(n) =>
      0x0A00_0000 <= n < 0x0B00_0000 || 0xAC10_0000 <= n < 0xAC20_0000 || 0xC0A8_0000 <= n < 0xC0A9_0000
    case V6(n) => 0xFC00_0000_0000_0000_0000_0000_0000_0000 <= n < 0xFE00_0000_0000_0000_0000_0000_0000_0000
  }

  /** To one of the ports DHCP uses. */
  predicate IsDhcp(p: Packet) {
    p.udpPort == Some(67) || p.udpPort == Some(68)
  }

  /** A block whose address is a multiple of its size is the interval from there. */
  lemma BlockIs(c: Cidr, a: Ip, size: nat, k: nat)
    requires c.prefix <= c.addr.Bits() && Pow2(c.addr.Bits() - c.prefix) == size && c.addr.n == size * k
    ensures InBlock(c, a) <==> c.addr.V4? == a.V4? && c.addr.n <= a.n < c.addr.n + size
  {
    ModUnique(c.addr.n, size, k, 0);
  }

  lemma FourMore(k: nat)
    ensures Pow2(k + 4) == 16 * Pow2(k)
  {
    assert Pow2(k + 4) == 2 * Pow2(k + 3) && Pow2(k + 3) == 2 * Pow2(k + 2) && Pow2(k + 2) == 2 * Pow2(k + 1);
  }

  lemma SmallSizes()
    ensures Pow2(0) == 1 && Pow2(16) == 0x1_0000 && Pow2(20) == 0x10_0000 && Pow2(24) == 0x100_0000
    ensures Pow2(28) == 0x1000_0000 && Pow2(32) == 0x1_0000_0000
  {
    FourMore(0);
    FourMore(4);
    FourMore(8);
    FourMore(12);
    FourMore(16);
    FourMore(20);
    FourMore(24);
    FourMore(28);
  }

  lemma LargeSizes()
    ensures Pow2(118) == 0x40_0000_0000_0000_0000_0000_0000_0000
    ensures Pow2(120) == 0x100_0000_0000_0000_0000_0000_0000_0000
    ensures Pow2(121) == 0x200_0000_0000_0000_0000_0000_0000_0000
  {
    SmallSizes();
    var k := 32;
    Pow2Double(k, 0x1_0000_0000);
    TwentyFourMore(64);
    FourMore(88);
    FourMore(92);
    TwentyFourMore(96);
    assert Pow2(120) == 2 * Pow2(119) && Pow2(119) == 2 * Pow2(118) && Pow2(121) == 2 * Pow2(120);
  }

  lemma TwentyFourMore(k: nat)
    ensures Pow2(k + 24) == 0x100_0000 * Pow2(k)
  {
    FourMore(k);
    FourMore(k + 4);
    FourMore(k + 8);
    FourMore(k + 12);
    FourMore(k + 16);
    FourMore(k + 20);
  }

  /** The blocks of the rules are those ranges. */
  lemma BlocksAreScopes(dst: Ip)
    ensures Covers(LINK_V4, dst) <==> dst.V4? && LinkScope(dst)
    ensures Covers(LINK_V6, dst) <==> dst.V6? && LinkScope(dst)
    ensures Covers(LAN_V4, dst) <==> dst.V4? && PrivateScope(dst)
    ensures Covers(LAN_V6, dst) <==> dst.V6? && PrivateScope(dst)
  {
    ScopesV4(dst);
    ScopesV6(dst);
  }

  lemma ScopesV4(dst: Ip)
    ensures Covers(LINK_V4, dst) <==> dst.V4? && LinkScope(dst)
    ensures Covers(LAN_V4, dst) <==> dst.V4? && PrivateScope(dst)
  {
    SmallSizes();
    BlockIs(LINK_V4[0], dst, 0x1_0000, 0xA9FE);
    BlockIs(LINK_V4[1], dst, 0x1000_0000, 0xE);
    BlockIs(LINK_V4[2], dst, 1, 0xFFFF_FFFF);
    BlockIs(LAN_V4[0], dst, 0x100_0000, 0xA);
    BlockIs(LAN_V4[1], dst, 0x10_0000, 0xAC1);
    BlockIs(LAN_V4[2], dst, 0x1_0000, 0xC0A8);
  }

  lemma ScopesV6(dst: Ip)
    ensures Covers(LINK_V6, dst) <==> dst.V6? && LinkScope(dst)
    ensures Covers(LAN_V6, dst) <==> dst.V6? && PrivateScope(dst)
  {
    LargeSizes();
    BlockIs(LINK_V6[0], dst, 0x40_0000_0000_0000_0000_0000_0000_0000, 0x3FA);
    BlockIs(LINK_V6[1], dst, 0x100_0000_0000_0000_0000_0000_0000_0000, 0xFF);
    BlockIs(LAN_V6[0], dst, 0x200_0000_0000_0000_0000_0000_0000_0000, 0x7E);
  }

  predicate Bypassed(denote: string -> Cidr, bypass: seq<string>, dst: Ip) {
    exists i :: 0 <= i < |bypass| && InBlock(denote(bypass[i]), dst)
  }

  /** What a packet off the tunnel and without the mark must be to leave. */
  predicate Excepted(ks: Killswitch, bypass: seq<string>, denote: string -> Cidr, p: Packet) {
    || LinkScope(p.dst)
    || IsDhcp(p)
    || (ks.allowLan && PrivateScope(p.dst))
    || Bypassed(denote, bypass, p.dst)
  }

  lemma BypassRuleAccepts(denote: string -> Cidr, v6: bool, bypass: seq<string>, p: Packet)
    requires Spells(denote)
    ensures Accepts(BypassRule(denote, v6, bypass), p) <==> p.dst.V6? == v6 && Bypassed(denote, bypass, p.dst)
  {
    var mine := Keep(Spelt(v6), bypass);
    KeepMembers(Spelt(v6), bypass);
    var blocks := Map(denote, mine);
    if p.dst.V6? == v6 && Bypassed(denote, bypass, p.dst) {
      var i :| 0 <= i < |bypass| && InBlock(denote(bypass[i]), p.dst);
      assert bypass[i] in mine;
      var k :| 0 <= k < |mine| && mine[k] == bypass[i];
      assert InBlock(blocks[k], p.dst);
      assert Matches(BypassRule(denote, v6, bypass)[0], p);
    }
    if mine != [] && Matches(AcceptTo(v6, blocks), p) {
      var k :| 0 <= k < |blocks| && InBlock(blocks[k], p.dst);
      assert mine[k] in mine;
      var i :| 0 <= i < |bypass| && bypass[i] == mine[k];
    }
  }

  /** A packet leaves exactly when it is on the loopback or the tunnel, carries the mark,
      or is excepted. */
  lemma ScriptPermits(ks: Killswitch, bypass: seq<string>, denote: string -> Cidr, p: Packet)
    requires Spells(denote)
    ensures Passes(Script(ks, bypass, denote), p) <==>
      p.oif == "lo" || p.oif == ks.iface || p.mark == ks.mark || Excepted(ks, bypass, denote, p)
  {
    var base := [AcceptOut("lo"), AcceptOut(ks.iface), AcceptMark(ks.mark),
                 AcceptTo(false, LINK_V4), AcceptTo(true, LINK_V6), AcceptUdp(DHCP)];
    var lan := if ks.allowLan then [AcceptTo(false, LAN_V4), AcceptTo(true, LAN_V6)] else [];
    var b4, b6 := BypassRule(denote, false, bypass), BypassRule(denote, true, bypass);
    PassesBeforeDrop(base + lan + b4 + b6, p);
    AcceptsAppend(base + lan + b4, b6, p);
    AcceptsAppend(base + lan, b4, p);
    AcceptsAppend(base, lan, p);
    BypassRuleAccepts(denote, false, bypass, p);
    BypassRuleAccepts(denote, true, bypass, p);
    BaseAccepts(ks, base, p);
    LanAccepts(lan, ks, p);
  }

  lemma BaseAccepts(ks: Killswitch, base: Chain, p: Packet)
    requires base == [AcceptOut("lo"), AcceptOut(ks.iface), AcceptMark(ks.mark),
                      AcceptTo(false, LINK_V4), AcceptTo(true, LINK_V6), AcceptUdp(DHCP)]
    ensures Accepts(base, p) <==>
      (p.oif == "lo" || p.oif == ks.iface || p.mark == ks.mark || LinkScope(p.dst)
       || IsDhcp(p))
  {
    BlocksAreScopes(p.dst);
    assert Matches(base[0], p) <==> p.oif == "lo";
    assert Matches(base[1], p) <==> p.oif == ks.iface;
    assert Matches(base[2], p) <==> p.mark == ks.mark;
    assert Matches(base[3], p) || Matches(base[4], p) <==> LinkScope(p.dst);
    assert Matches(base[5], p) <==> IsDhcp(p);
  }

  lemma LanAccepts(lan: Chain, ks: Killswitch, p: Packet)
    requires lan == if ks.allowLan then [AcceptTo(false, LAN_V4), AcceptTo(true, LAN_V6)] else []
    ensures Accepts(lan, p) <==> ks.allowLan && PrivateScope(p.dst)
  {
    if ks.allowLan {
      BlocksAreScopes(p.dst);
      assert Matches(lan[0], p) || Matches(lan[1], p) <==> PrivateScope(p.dst);
    }
  }

  /** Engaging from the running daemon leaves the bypass out: a bypassed packet is then let
      out exactly when something else excepts it. */
  lemma RuntimeEngageForgetsBypass(ks: Killswitch, bypass: seq<string>, denote: string -> Cidr, p: Packet)
    requires Spells(denote) && p.oif != "lo" && p.oif != ks.iface && p.mark != ks.mark
    requires Bypassed(denote, bypass, p.dst)
    ensures Passes(Script(ks, bypass, denote), p)
    ensures Passes(Script(ks, [], denote), p) <==> Excepted(ks, [], denote, p)
    ensures Excepted(ks, [], denote, p) <==>
      LinkScope(p.dst) || IsDhcp(p) || (ks.allowLan && PrivateScope(p.dst))
  {
    ScriptPermits(ks, bypass, denote, p);
    ScriptPermits(ks, [], denote, p);
  }

  /** A destination beyond the private ranges, reached off the tunnel: exempt at connect, dropped once the kill
      switch has been turned on again at run time. */
  lemma BypassedThenDropped(denote: string -> Cidr)
    requires Spells(denote) && denote("1.2.3.4") == Cidr(V4(0x0102_0304), 32)
    ensures var ks := Killswitch("vpnmgr0", 51820, true);
      var p := Packet("eth0", 0, V4(0x0102_0304), None);
      Passes(Script(ks, ["1.2.3.4"], denote), p) && !Passes(Script(ks, [], denote), p)
  {
    var ks := Killswitch("vpnmgr0", 51820, true);
    var p := Packet("eth0", 0, V4(0x0102_0304), None);
    assert p.oif[0] == 'e' && ks.iface[0] == 'v' && "lo"[0] == 'l';
    OneHost(0x0102_0304);
    assert InBlock(denote(["1.2.3.4"][0]), p.dst);
    assert Bypassed(denote, ["1.2.3.4"], p.dst);
    RuntimeEngageForgetsBypass(ks, ["1.2.3.4"], denote, p);
  }

  lemma OneHost(n: nat)
    requires n < 0x1_0000_0000
    ensures InBlock(Cidr(V4(n), 32), V4(n))
  {}
}
