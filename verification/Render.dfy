/** Rendering a `.conf` for a chosen endpoint, and the round trip with the importer. */
module Render {
  import opened Wrappers
  import opened Text
  import opened Address
  import opened WgConf
  import Key

  /** A line `key = value`. */
  datatype Setting = Setting(key: string, value: string)
  {
    function Line(): string {
      key + " = " + value
    }
  }

  /** The texts a rendered `.conf` is made of. */
  datatype Values = Values(
    address: string, privateKey: string, dns: Option<string>, mtu: Option<string>,
    publicKey: string, presharedKey: Option<string>, endpoint: string, allowedIps: string, keepalive: Option<string>)

  function ShowCidrs(v6: V6Text, cs: seq<Cidr>): seq<string> {
    seq(|cs|, i requires 0 <= i < |cs| => ShowCidr(v6, cs[i]))
  }

  function ShowIps(v6: V6Text, ips: seq<Ip>): seq<string> {
    if ips == [] then [] else [ShowIp(v6, ips[0])] + ShowIps(v6, ips[1..])
  }

  /** Nameservers, then search domains: the two share the DNS key. */
  function DnsItems(v6: V6Text, c: ClientConfig): seq<string> {
    ShowIps(v6, c.dns) + c.searchDomains
  }

  function OptionalNumber(n: Option<nat>): Option<string> {
    if n.None? then None else Some(Decimal(n.value))
  }

  function ValuesOf(v6: V6Text, c: ClientConfig, endpoint: SocketAddr): Values {
    var dns := DnsItems(v6, c);
    Values(Join(ShowCidrs(v6, c.addresses), ", "), Key.Encode(c.privateKey),
           if dns == [] then None else Some(Join(dns, ", ")), OptionalNumber(c.mtu),
           Key.Encode(c.peerPublicKey),
           if c.presharedKey.None? then None else Some(Key.Encode(c.presharedKey.value)),
           ShowSocket(v6, endpoint), Join(ShowCidrs(v6, c.allowedIps), ", "), OptionalNumber(c.persistentKeepalive))
  }

  function Optional(key: string, value: Option<string>): seq<Setting> {
    if value.None? then [] else [Setting(key, value.value)]
  }

  function InterfaceSettings(v: Values): seq<Setting> {
    [Setting("Address", v.address), Setting("PrivateKey", v.privateKey)]
    + Optional("DNS", v.dns) + Optional("MTU", v.mtu)
  }

  function PeerSettings(v: Values): seq<Setting> {
    [Setting("PublicKey", v.publicKey)] + Optional("PresharedKey", v.presharedKey)
    + [Setting("Endpoint", v.endpoint), Setting("AllowedIPs", v.allowedIps)]
    + Optional("PersistentKeepalive", v.keepalive)
  }

  function SettingLines(ss: seq<Setting>): seq<string> {
    seq(|ss|, i requires 0 <= i < |ss| => ss[i].Line())
  }

  function HeaderLine(name: string): string {
    "[" + name + "]"
  }

  function ConfLines(v: Values): seq<string> {
    [HeaderLine("Interface")] + SettingLines(InterfaceSettings(v))
    + ["", HeaderLine("Peer")] + SettingLines(PeerSettings(v))
  }

  function ToConf(v6: V6Text, c: ClientConfig, endpoint: SocketAddr): string {
    Unlines(ConfLines(ValuesOf(v6, c, endpoint)))
  }

  // ---- reading one rendered line back ----------------------------------------

  predicate IsLetter(c: char) {
    'A' <= c <= 'Z' || 'a' <= c <= 'z'
  }

  predicate IsWord(s: string) {
    s != [] && forall i :: 0 <= i < |s| ==> IsLetter(s[i])
  }

  predicate CleanText(s: string) {
    s != [] && Trimmed(s) && CleanValue(s)
  }

  predicate CleanSetting(s: Setting) {
    IsWord(s.key) && CleanText(s.value)
  }

  predicate AllClean(ss: seq<Setting>) {
    forall i :: 0 <= i < |ss| ==> CleanSetting(ss[i])
  }

  lemma {:induction false} StripNothing(s: string)
    requires '#' !in s && ';' !in s
    ensures StripComment(s) == s
  {
    if s != [] {
      assert s[0] in s;
      StripNothing(s[1..]);
      assert s == [s[0]] + s[1..];
    }
  }

  lemma LineEquals(s: Setting)
    requires IsWord(s.key)
    ensures IndexOf(s.Line(), '=') == |s.key| + 1
  {
    var p := s.key + " ";
    forall i | 0 <= i < |p| ensures p[i] != '=' {
      assert i < |s.key| ==> IsLetter(s.key[i]);
    }
    IndexOfAfter(p, '=', " " + s.value);
    assert s.Line() == p + "=" + (" " + s.value);
  }

  lemma LineShape(s: Setting)
    requires CleanSetting(s)
    ensures var l := s.Line(); CleanText(l) && l[0] != '[' && IndexOf(l, '=') == |s.key| + 1
  {
    var l := s.Line();
    LineEquals(s);
    assert l[0] == s.key[0] && l[|l| - 1] == s.value[|s.value| - 1];
    assert IsLetter(s.key[0]);
  }

  lemma SettingClassified(s: Setting)
    requires CleanSetting(s)
    ensures Classify(s.Line()) == Pair(s.key, s.value)
  {
    var l := s.Line();
    LineShape(s);
    StripNothing(l);
    TrimKeeps(l);
    SettingParts(s);
  }

  lemma SettingParts(s: Setting)
    requires CleanSetting(s)
    ensures var l := s.Line();
      Trim(l[..|s.key| + 1]) == s.key && Trim(l[|s.key| + 2..]) == s.value
  {
    var l := s.Line();
    assert l[..|s.key| + 1] == s.key + " " && l[|s.key| + 2..] == " " + s.value;
    assert IsLetter(s.key[0]) && IsLetter(s.key[|s.key| - 1]);
    TrimTrailingSpace(s.key);
    TrimLeadingSpace(s.value);
  }

  lemma HeaderClassified(name: string)
    requires IsWord(name)
    ensures Classify(HeaderLine(name)) == Header(Lower(name)) && CleanText(HeaderLine(name))
  {
    var l := HeaderLine(name);
    assert l[0] == '[' && l[|l| - 1] == ']' && l[1..|l| - 1] == name;
    assert forall c :: c in l ==> c == '[' || c == ']' || IsLetter(c);
    StripNothing(l);
    TrimKeeps(l);
    assert IsLetter(name[0]) && IsLetter(name[|name| - 1]);
    TrimKeeps(name);
  }

  // ---- reading the lines of a section back -----------------------------------

  function ToEntry(s: Setting, n: nat): Entry {
    Entry(Lower(s.key), s.value, n)
  }

  function Entries(ss: seq<Setting>, n: nat): seq<Entry> {
    seq(|ss|, i requires 0 <= i < |ss| => ToEntry(ss[i], n + i))
  }

  /** `st` with `es` appended to the section being read. */
  function Append(st: Sections, es: seq<Entry>): (r: Sections)
    requires st.Valid() && !st.cursor.Nowhere?
    ensures r.Valid() && r.cursor == st.cursor
  {
    if st.cursor.AtInterface? then st.(interface := st.interface + es)
    else st.(peers := st.peers[|st.peers| - 1 := st.peers[|st.peers| - 1] + es])
  }

  lemma AppendTwice(st: Sections, a: seq<Entry>, b: seq<Entry>)
    requires st.Valid() && !st.cursor.Nowhere?
    ensures Append(Append(st, a), b) == Append(st, a + b)
  {
    if st.cursor.AtInterface? {
      assert st.interface + a + b == st.interface + (a + b);
    } else {
      assert st.peers[|st.peers| - 1] + a + b == st.peers[|st.peers| - 1] + (a + b);
    }
  }

  function Pairs(ss: seq<Setting>): seq<Line> {
    seq(|ss|, i requires 0 <= i < |ss| => Pair(ss[i].key, ss[i].value))
  }

  lemma SettingsClassified(ss: seq<Setting>)
    requires AllClean(ss)
    ensures ClassifyAll(SettingLines(ss)) == Pairs(ss)
    ensures forall l :: l in SettingLines(ss) ==> '\n' !in l && Trimmed(l)
  {
    forall i | 0 <= i < |ss|
      ensures Classify(SettingLines(ss)[i]) == Pairs(ss)[i] && CleanText(SettingLines(ss)[i])
    {
      SettingClassified(ss[i]);
      LineShape(ss[i]);
    }
  }

  /** Rendered settings are read back as entries of the section they are in. */
  lemma {:induction false} FoldSettings(ss: seq<Setting>, rest: seq<Line>, n: nat, st: Sections)
    requires st.Valid() && !st.cursor.Nowhere?
    ensures Fold(Pairs(ss) + rest, n, st) == Fold(rest, n + |ss|, Append(st, Entries(ss, n)))
    decreases |ss|
  {
    var lines := Pairs(ss) + rest;
    if ss == [] {
      assert lines == rest;
      assert st.interface + [] == st.interface;
      assert st.cursor.AtPeer? ==> st.peers[|st.peers| - 1] + [] == st.peers[|st.peers| - 1];
      assert Append(st, []) == st;
    } else {
      var e := ToEntry(ss[0], n);
      assert lines[1..] == Pairs(ss[1..]) + rest;
      assert Absorb(st, lines[0], n) == Ok(Append(st, [e]));
      FoldSettings(ss[1..], rest, n + 1, Append(st, [e]));
      AppendTwice(st, [e], Entries(ss[1..], n + 1));
      assert [e] + Entries(ss[1..], n + 1) == Entries(ss, n);
    }
  }

  lemma FoldHead(line: Line, rest: seq<Line>, n: nat, st: Sections)
    requires st.Valid() && Absorb(st, line, n).Ok?
    ensures Fold([line] + rest, n, st) == Fold(rest, n + 1, Absorb(st, line, n).value)
  {
    assert ([line] + rest)[1..] == rest;
  }

  function ConfShape(a: seq<Setting>, b: seq<Setting>): seq<Line> {
    [Header("interface")] + (Pairs(a) + ([Blank] + ([Header("peer")] + (Pairs(b) + []))))
  }

  lemma FoldConf(a: seq<Setting>, b: seq<Setting>)
    ensures Fold(ConfShape(a, b), 1, Sections([], [], Nowhere))
      == Ok(Sections(Entries(a, 2), [Entries(b, |a| + 4)], AtPeer))
  {
    var t3 := Pairs(b) + [];
    var t2 := [Header("peer")] + t3;
    var t1 := [Blank] + t2;
    FoldHead(Header("interface"), Pairs(a) + t1, 1, Sections([], [], Nowhere));
    FoldSettings(a, t1, 2, Sections([], [], AtInterface));
    var es := Entries(b, |a| + 4);
    var st1 := Sections([] + Entries(a, 2), [], AtInterface);
    FoldHead(Blank, t2, |a| + 2, st1);
    FoldHead(Header("peer"), t3, |a| + 3, st1);
    var st2 := Sections([] + Entries(a, 2), [[]], AtPeer);
    FoldSettings(b, [], |a| + 4, st2);
    var none: seq<seq<Entry>> := [];
    assert none + [[]] == [[]];
    assert [] + Entries(a, 2) == Entries(a, 2) && [] + es == es;
    assert Append(st2, es).peers == [es];
    assert Fold([], |a| + 4 + |b|, Append(st2, es)) == Ok(Append(st2, es));
  }

  lemma ClassifyAppend(x: seq<string>, y: seq<string>)
    ensures ClassifyAll(x + y) == ClassifyAll(x) + ClassifyAll(y)
  {}

  lemma ConfClassified(hi: string, a: seq<string>, hp: string, b: seq<string>)
    ensures ClassifyAll([hi] + a + ["", hp] + b)
      == [Classify(hi)] + (ClassifyAll(a) + ([Classify("")] + ([Classify(hp)] + (ClassifyAll(b) + []))))
  {
    ClassifyAppend([hi], a);
    ClassifyAppend([hi] + a, ["", hp]);
    ClassifyAppend([hi] + a + ["", hp], b);
    ClassifyTwo(hi, hp);
    Reassociate([Classify(hi)], ClassifyAll(a), [Classify("")], [Classify(hp)], ClassifyAll(b));
  }

  lemma ClassifyTwo(hi: string, hp: string)
    ensures ClassifyAll([hi]) == [Classify(hi)] && ClassifyAll(["", hp]) == [Classify("")] + [Classify(hp)]
  {}

  lemma Reassociate(a: seq<Line>, b: seq<Line>, c: seq<Line>, d: seq<Line>, e: seq<Line>)
    ensures a + b + (c + d) + e == a + (b + (c + (d + (e + []))))
  {}

  lemma HeadersClassified()
    ensures Classify(HeaderLine("Interface")) == Header("interface") && CleanText(HeaderLine("Interface"))
    ensures Classify(HeaderLine("Peer")) == Header("peer") && CleanText(HeaderLine("Peer"))
  {
    HeaderNames();
    HeaderClassified("Interface");
    HeaderClassified("Peer");
  }

  lemma HeaderNames()
    ensures IsWord("Interface") && Lower("Interface") == "interface"
    ensures IsWord("Peer") && Lower("Peer") == "peer"
  {}

  lemma ConfShaped(v: Values)
    requires AllClean(InterfaceSettings(v)) && AllClean(PeerSettings(v))
    ensures Lines(Unlines(ConfLines(v))) == ConfLines(v)
    ensures ClassifyAll(ConfLines(v)) == ConfShape(InterfaceSettings(v), PeerSettings(v))
  {
    HeadersClassified();
    SectionsShaped(HeaderLine("Interface"), InterfaceSettings(v), HeaderLine("Peer"), PeerSettings(v));
  }

  lemma SectionsShaped(hi: string, a: seq<Setting>, hp: string, b: seq<Setting>)
    requires AllClean(a) && AllClean(b) && CleanText(hi) && CleanText(hp)
    ensures var lines := [hi] + SettingLines(a) + ["", hp] + SettingLines(b);
      && Lines(Unlines(lines)) == lines
      && ClassifyAll(lines) == [Classify(hi)] + (Pairs(a) + ([Blank] + ([Classify(hp)] + (Pairs(b) + []))))
  {
    SettingsClassified(a);
    SettingsClassified(b);
    ConfClean(hi, SettingLines(a), hp, SettingLines(b));
    ConfClassified(hi, SettingLines(a), hp, SettingLines(b));
    assert Classify("") == Blank;
  }

  lemma ConfClean(hi: string, a: seq<string>, hp: string, b: seq<string>)
    requires CleanText(hi) && CleanText(hp)
    requires forall l :: l in a || l in b ==> '\n' !in l && Trimmed(l)
    ensures var lines := [hi] + a + ["", hp] + b; Lines(Unlines(lines)) == lines
  {
    var lines := [hi] + a + ["", hp] + b;
    assert forall l :: l in lines ==> l == hi || l in a || l == "" || l == hp || l in b;
    LinesOfUnlines(lines);
  }

  /** Two rendered sections read back as their entries. */
  lemma ParseSections(v6: V6Text, v: Values)
    requires AllClean(InterfaceSettings(v)) && AllClean(PeerSettings(v))
    ensures var a, b := InterfaceSettings(v), PeerSettings(v);
      Parse(v6, Unlines(ConfLines(v))) == ReadFields(v6, LookUp(Entries(a, 2), Entries(b, |a| + 4)))
  {
    ConfShaped(v);
    FoldConf(InterfaceSettings(v), PeerSettings(v));
  }

  // ---- looking the settings up again -----------------------------------------

  /** Looking a key up in a list whose keys are pairwise distinct. */
  lemma {:induction false} LookUpDistinct(es: seq<Entry>, key: string)
    requires forall i, j :: 0 <= i < j < |es| ==> es[i].key != es[j].key
    ensures (forall i :: 0 <= i < |es| ==> es[i].key != key) ==> Get(es, key) == None && GetAll(es, key) == []
    ensures forall i :: 0 <= i < |es| && es[i].key == key ==> Get(es, key) == Some(es[i]) && GetAll(es, key) == [es[i]]
  {
    if es != [] {
      var rest := es[1..];
      forall i, j | 0 <= i < j < |rest| ensures rest[i].key != rest[j].key {
        assert rest[i] == es[i + 1] && rest[j] == es[j + 1];
      }
      LookUpDistinct(rest, key);
      forall i | 0 <= i < |es| && es[i].key == key
        ensures Get(es, key) == Some(es[i]) && GetAll(es, key) == [es[i]]
      {
        if i == 0 {
          forall j | 0 <= j < |rest| ensures rest[j].key != key {
            assert rest[j] == es[j + 1];
          }
          assert GetAll(es, key) == [es[0]] + [];
        } else {
          assert rest[i - 1] == es[i];
          assert GetAll(es, key) == [] + [es[i]];
        }
      }
    }
  }

  predicate HoldsAll(es: seq<Entry>, value: string) {
    |es| == 1 && es[0].value == value
  }

  predicate Holds(e: Option<Entry>, value: Option<string>) {
    if value.None? then e.None? else e.Some? && e.value.value == value.value
  }

  /** The looked-up entries carry exactly the rendered values. */
  predicate FieldsHold(f: Fields, v: Values) {
    && HoldsAll(f.addresses, v.address) && Holds(f.privateKey, Some(v.privateKey))
    && (if v.dns.None? then f.dns == [] else HoldsAll(f.dns, v.dns.value)) && Holds(f.mtu, v.mtu)
    && Holds(f.publicKey, Some(v.publicKey)) && Holds(f.presharedKey, v.presharedKey)
    && HoldsAll(f.allowedIps, v.allowedIps) && Holds(f.keepalive, v.keepalive)
  }

  lemma LowerKeys()
    ensures Lower("Address") == "address" && Lower("PrivateKey") == "privatekey"
    ensures Lower("DNS") == "dns" && Lower("MTU") == "mtu"
    ensures Lower("PublicKey") == "publickey" && Lower("PresharedKey") == "presharedkey"
    ensures Lower("Endpoint") == "endpoint" && Lower("AllowedIPs") == "allowedips"
    ensures Lower("PersistentKeepalive") == "persistentkeepalive"
  {}

  /** The keys within each section are told apart by length, or by first letter. */
  lemma KeysDiffer()
    ensures |"address"| == 7 && |"privatekey"| == 10 && |"dns"| == 3 && |"mtu"| == 3 && "dns" != "mtu"
    ensures |"publickey"| == 9 && |"presharedkey"| == 12 && |"endpoint"| == 8 && |"allowedips"| == 10
    ensures |"persistentkeepalive"| == 19
  {
    assert "dns"[0] != "mtu"[0];
  }

  lemma InterfaceKeys(v: Values, n: nat)
    ensures var es := Entries(InterfaceSettings(v), n);
      && |es| == |InterfaceSettings(v)| && es[0].key == "address" && es[1].key == "privatekey"
      && (v.dns.Some? ==> es[2].key == "dns") && (v.mtu.Some? ==> es[|es| - 1].key == "mtu")
  {
    LowerKeys();
  }

  lemma InterfaceLookUp(v: Values, n: nat)
    ensures var es := Entries(InterfaceSettings(v), n);
      && HoldsAll(GetAll(es, "address"), v.address) && Holds(Get(es, "privatekey"), Some(v.privateKey))
      && (if v.dns.None? then GetAll(es, "dns") == [] else HoldsAll(GetAll(es, "dns"), v.dns.value))
      && Holds(Get(es, "mtu"), v.mtu)
  {
    InterfaceRequired(v, n);
    InterfaceOptional(v, n);
  }

  lemma InterfaceDistinct(v: Values, n: nat)
    ensures var es := Entries(InterfaceSettings(v), n); forall i, j :: 0 <= i < j < |es| ==> es[i].key != es[j].key
  {
    InterfaceKeys(v, n);
    KeysDiffer();
  }

  lemma InterfaceRequired(v: Values, n: nat)
    ensures var es := Entries(InterfaceSettings(v), n);
      HoldsAll(GetAll(es, "address"), v.address) && Holds(Get(es, "privatekey"), Some(v.privateKey))
  {
    InterfaceKeys(v, n);
    InterfaceDistinct(v, n);
    var es := Entries(InterfaceSettings(v), n);
    LookUpDistinct(es, "address");
    LookUpDistinct(es, "privatekey");
  }

  lemma InterfaceOptional(v: Values, n: nat)
    ensures var es := Entries(InterfaceSettings(v), n);
      && (if v.dns.None? then GetAll(es, "dns") == [] else HoldsAll(GetAll(es, "dns"), v.dns.value))
      && Holds(Get(es, "mtu"), v.mtu)
  {
    InterfaceKeys(v, n);
    InterfaceDistinct(v, n);
    KeysDiffer();
    var es := Entries(InterfaceSettings(v), n);
    LookUpDistinct(es, "dns");
    LookUpDistinct(es, "mtu");
  }

  lemma PeerKeys(v: Values, n: nat)
    ensures var es := Entries(PeerSettings(v), n);
      var k := if v.presharedKey.None? then 1 else 2;
      && |es| == |PeerSettings(v)| && es[0].key == "publickey"
      && es[k].key == "endpoint" && es[k + 1].key == "allowedips"
      && (v.presharedKey.Some? ==> es[1].key == "presharedkey")
      && (v.keepalive.Some? ==> es[k + 2].key == "persistentkeepalive")
  {
    LowerKeys();
  }

  lemma PeerLookUp(v: Values, n: nat)
    ensures var es := Entries(PeerSettings(v), n);
      && Holds(Get(es, "publickey"), Some(v.publicKey)) && Holds(Get(es, "presharedkey"), v.presharedKey)
      && HoldsAll(GetAll(es, "allowedips"), v.allowedIps) && Holds(Get(es, "persistentkeepalive"), v.keepalive)
  {
    PeerRequired(v, n);
    PeerOptional(v, n);
  }

  lemma PeerDistinct(v: Values, n: nat)
    ensures var es := Entries(PeerSettings(v), n); forall i, j :: 0 <= i < j < |es| ==> es[i].key != es[j].key
  {
    PeerKeys(v, n);
    KeysDiffer();
  }

  lemma PeerRequired(v: Values, n: nat)
    ensures var es := Entries(PeerSettings(v), n);
      Holds(Get(es, "publickey"), Some(v.publicKey)) && HoldsAll(GetAll(es, "allowedips"), v.allowedIps)
  {
    PeerKeys(v, n);
    PeerDistinct(v, n);
    var es := Entries(PeerSettings(v), n);
    LookUpDistinct(es, "publickey");
    LookUpDistinct(es, "allowedips");
  }

  lemma PeerOptional(v: Values, n: nat)
    ensures var es := Entries(PeerSettings(v), n);
      Holds(Get(es, "presharedkey"), v.presharedKey) && Holds(Get(es, "persistentkeepalive"), v.keepalive)
  {
    PeerKeys(v, n);
    PeerDistinct(v, n);
    KeysDiffer();
    var es := Entries(PeerSettings(v), n);
    LookUpDistinct(es, "presharedkey");
    LookUpDistinct(es, "persistentkeepalive");
  }

  // ---- the values read back --------------------------------------------------

  lemma {:induction false} ItemsBack<T>(parse: string -> Option<T>, items: seq<string>, cs: seq<T>, line: nat)
    requires |items| == |cs| && forall i :: 0 <= i < |cs| ==> parse(items[i]) == Some(cs[i])
    ensures ParseItems(parse, items, line) == Ok(cs)
  {
    if cs != [] {
      ItemsBack(parse, items[1..], cs[1..], line);
      assert cs == [cs[0]] + cs[1..];
    }
  }

  lemma CidrsClean(v6: V6Text, cs: seq<Cidr>)
    requires Faithful(v6) && forall c :: c in cs ==> c.Valid()
    ensures forall x :: x in ShowCidrs(v6, cs) ==> CleanItem(x) && CleanValue(x)
  {
    forall x | x in ShowCidrs(v6, cs) ensures CleanItem(x) && CleanValue(x) {
      var i :| 0 <= i < |cs| && x == ShowCidr(v6, cs[i]);
      CidrTextClean(v6, cs[i]);
      PlainIsClean(x);
    }
  }

  lemma {:induction false} IpsBack(v6: V6Text, ips: seq<Ip>)
    requires Faithful(v6) && forall ip :: ip in ips ==> ip.Valid()
    ensures Nameservers(v6, ShowIps(v6, ips)) == ips && Domains(v6, ShowIps(v6, ips)) == []
    ensures forall x :: x in ShowIps(v6, ips) ==> CleanItem(x) && CleanValue(x)
  {
    if ips != [] {
      var x := ShowIp(v6, ips[0]);
      IpRoundTrip(v6, ips[0]);
      ShowIpClean(v6, ips[0]);
      PlainIsClean(x);
      IpsBack(v6, ips[1..]);
      assert ShowIps(v6, ips)[1..] == ShowIps(v6, ips[1..]);
      assert ips == [ips[0]] + ips[1..];
    }
  }

  lemma {:induction false} DomainsBack(v6: V6Text, domains: seq<string>)
    requires forall d :: d in domains ==> CleanDomain(v6, d)
    ensures Nameservers(v6, domains) == [] && Domains(v6, domains) == domains
  {
    if domains != [] {
      assert CleanDomain(v6, domains[0]) && ParseIp(v6, domains[0]).None?;
      DomainsBack(v6, domains[1..]);
      assert domains == [domains[0]] + domains[1..];
    }
  }

  lemma NamesBack(v6: V6Text, ips: seq<Ip>, domains: seq<string>)
    requires Faithful(v6)
    requires forall ip :: ip in ips ==> ip.Valid()
    requires forall d :: d in domains ==> CleanDomain(v6, d)
    ensures Nameservers(v6, ShowIps(v6, ips) + domains) == ips
    ensures Domains(v6, ShowIps(v6, ips) + domains) == domains
    ensures forall x :: x in ShowIps(v6, ips) + domains ==> CleanItem(x) && CleanValue(x)
  {
    IpsBack(v6, ips);
    DomainsBack(v6, domains);
    NamesAppend(v6, ShowIps(v6, ips), domains);
  }

  /** A non-empty list of clean items makes a clean value that lists them. */
  lemma JoinedValue(xs: seq<string>)
    requires xs != [] && forall x :: x in xs ==> CleanItem(x) && CleanValue(x)
    ensures CleanText(Join(xs, ", ")) && Items(Join(xs, ", ")) == xs
  {
    ItemsOfJoin(xs);
    JoinChars(xs, ", ", '\n');
    JoinChars(xs, ", ", '#');
    JoinChars(xs, ", ", ';');
    JoinEnds(xs);
  }

  lemma {:induction false} JoinEnds(xs: seq<string>)
    requires xs != [] && forall x :: x in xs ==> CleanItem(x)
    ensures var v := Join(xs, ", "); v != [] && Trimmed(v)
  {
    assert CleanItem(xs[0]);
    if |xs| > 1 {
      JoinEnds(xs[1..]);
      var v := Join(xs[1..], ", ");
      var w := xs[0] + ", " + v;
      assert w[0] == xs[0][0] && w[|w| - 1] == v[|v| - 1];
    }
  }

  lemma CidrValue(v6: V6Text, cs: seq<Cidr>, es: seq<Entry>)
    requires Faithful(v6) && cs != [] && forall c :: c in cs ==> c.Valid()
    ensures CleanText(Join(ShowCidrs(v6, cs), ", "))
    ensures HoldsAll(es, Join(ShowCidrs(v6, cs), ", ")) ==> ParseList(CidrParser(v6), es) == Ok(cs)
  {
    CidrsClean(v6, cs);
    JoinedValue(ShowCidrs(v6, cs));
    if HoldsAll(es, Join(ShowCidrs(v6, cs), ", ")) {
      forall i | 0 <= i < |cs| ensures CidrParser(v6)(ShowCidrs(v6, cs)[i]) == Some(cs[i]) {
        CidrRoundTrip(v6, cs[i]);
      }
      ItemsBack(CidrParser(v6), ShowCidrs(v6, cs), cs, es[0].line);
      assert es[1..] == [];
      assert cs + [] == cs;
    }
  }

  lemma DnsValue(v6: V6Text, c: ClientConfig, es: seq<Entry>)
    requires Faithful(v6) && WellFormed(v6, c)
    ensures DnsItems(v6, c) != [] ==> CleanText(Join(DnsItems(v6, c), ", "))
    ensures (if DnsItems(v6, c) == [] then es == [] else HoldsAll(es, Join(DnsItems(v6, c), ", ")))
      ==> AllItems(es) == DnsItems(v6, c)
  {
    NamesBack(v6, c.dns, c.searchDomains);
    var dns := DnsItems(v6, c);
    if dns != [] {
      JoinedValue(dns);
      if HoldsAll(es, Join(dns, ", ")) {
        assert es[1..] == [];
        assert dns + [] == dns;
      }
    }
  }

  lemma KeyValue(b: seq<Key.Byte>)
    requires |b| == Key.KEY_LEN
    ensures CleanText(Key.Encode(b)) && Key.Decode(Key.Encode(b)) == Ok(b)
  {
    Key.KeyRoundTrip(b);
  }

  lemma NumberValue(n: Option<nat>, max: nat, e: Option<Entry>)
    requires n.Some? ==> n.value <= max
    ensures n.Some? ==> CleanText(Decimal(n.value))
    ensures Holds(e, OptionalNumber(n)) ==> ParseScalar(e, max) == Ok(n)
  {
    if n.Some? {
      PlainIsClean(Decimal(n.value));
      ParseDecimal(n.value, max);
    }
  }

  lemma Words()
    ensures IsWord("Address") && IsWord("PrivateKey") && IsWord("DNS") && IsWord("MTU")
    ensures IsWord("PublicKey") && IsWord("PresharedKey") && IsWord("Endpoint") && IsWord("AllowedIPs")
    ensures IsWord("PersistentKeepalive")
  {}

  predicate CleanOptional(s: Option<string>) {
    s.Some? ==> CleanText(s.value)
  }

  predicate CleanValues(v: Values) {
    && CleanText(v.address) && CleanText(v.privateKey) && CleanOptional(v.dns) && CleanOptional(v.mtu)
    && CleanText(v.publicKey) && CleanOptional(v.presharedKey) && CleanText(v.endpoint)
    && CleanText(v.allowedIps) && CleanOptional(v.keepalive)
  }

  lemma SettingsClean(v: Values)
    requires CleanValues(v)
    ensures AllClean(InterfaceSettings(v)) && AllClean(PeerSettings(v))
  {
    Words();
  }

  lemma ValuesClean(v6: V6Text, c: ClientConfig, endpoint: SocketAddr)
    requires Faithful(v6) && WellFormed(v6, c) && endpoint.Valid()
    ensures CleanValues(ValuesOf(v6, c, endpoint))
  {
    CidrValue(v6, c.addresses, []);
    CidrValue(v6, c.allowedIps, []);
    DnsValue(v6, c, []);
    KeyValue(c.privateKey);
    KeyValue(c.peerPublicKey);
    if c.presharedKey.Some? {
      KeyValue(c.presharedKey.value);
    }
    NumberValue(c.mtu, U32_MAX, None);
    NumberValue(c.persistentKeepalive, U16_MAX, None);
    ShowSocketClean(v6, endpoint);
  }

  lemma ReadBack(v6: V6Text, c: ClientConfig, endpoint: SocketAddr, f: Fields)
    requires Faithful(v6) && WellFormed(v6, c)
    requires FieldsHold(f, ValuesOf(v6, c, endpoint))
    ensures ReadFields(v6, f) == Ok(c)
  {
    CidrValue(v6, c.addresses, f.addresses);
    CidrValue(v6, c.allowedIps, f.allowedIps);
    DnsValue(v6, c, f.dns);
    NamesBack(v6, c.dns, c.searchDomains);
    KeyValue(c.privateKey);
    KeyValue(c.peerPublicKey);
    if c.presharedKey.Some? {
      KeyValue(c.presharedKey.value);
    }
    NumberValue(c.mtu, U32_MAX, f.mtu);
    NumberValue(c.persistentKeepalive, U16_MAX, f.keepalive);
    AssembleBack(v6, c, DnsItems(v6, c));
  }

  lemma AssembleBack(v6: V6Text, c: ClientConfig, names: seq<string>)
    requires c.addresses != [] && c.allowedIps != []
    requires Nameservers(v6, names) == c.dns && Domains(v6, names) == c.searchDomains
    ensures Assemble(v6, Ok(c.privateKey), Ok(c.peerPublicKey), Ok(c.presharedKey), Ok(c.addresses),
                     Ok(c.allowedIps), names, Ok(c.mtu), Ok(c.persistentKeepalive)) == Ok(c)
  {}

  // ---- the round trip --------------------------------------------------------

  /** The rendering of a well-formed config reads back as that config, whatever the endpoint. */
  lemma RoundTrip(v6: V6Text, c: ClientConfig, endpoint: SocketAddr)
    requires Faithful(v6) && endpoint.Valid() && WellFormed(v6, c)
    ensures Parse(v6, ToConf(v6, c, endpoint)) == Ok(c)
  {
    var v := ValuesOf(v6, c, endpoint);
    ValuesClean(v6, c, endpoint);
    SettingsClean(v);
    ParseSections(v6, v);
    var n := |InterfaceSettings(v)| + 4;
    InterfaceLookUp(v, 2);
    PeerLookUp(v, n);
    ReadBack(v6, c, endpoint, LookUp(Entries(InterfaceSettings(v), 2), Entries(PeerSettings(v), n)));
  }

  /** A config survives rendering and reading exactly when it is well-formed. */
  lemma RoundTripExactly(v6: V6Text, c: ClientConfig, endpoint: SocketAddr)
    requires Faithful(v6) && endpoint.Valid()
    ensures Parse(v6, ToConf(v6, c, endpoint)) == Ok(c) <==> WellFormed(v6, c)
  {
    if WellFormed(v6, c) {
      RoundTrip(v6, c, endpoint);
    } else {
      ParsedIsWellFormed(v6, ToConf(v6, c, endpoint));
    }
  }

  /** Importing, rendering for any server and importing again changes nothing. */
  lemma ImportRenderImport(v6: V6Text, text: string, endpoint: SocketAddr)
    requires Faithful(v6) && endpoint.Valid()
    ensures var r := Parse(v6, text);
      r.Ok? ==> Parse(v6, ToConf(v6, r.value, endpoint)) == r
  {
    ParsedIsWellFormed(v6, text);
    if Parse(v6, text).Ok? {
      RoundTrip(v6, Parse(v6, text).value, endpoint);
    }
  }

  /** Renderings for two servers differ in the `Endpoint` line alone. */
  lemma OnlyTheEndpointDiffers(v6: V6Text, c: ClientConfig, e1: SocketAddr, e2: SocketAddr)
    ensures var a, b := ConfLines(ValuesOf(v6, c, e1)), ConfLines(ValuesOf(v6, c, e2));
      && |a| == |b|
      && (exists k | 0 <= k < |a| ::
            a[k] == Setting("Endpoint", ShowSocket(v6, e1)).Line()
            && b == a[k := Setting("Endpoint", ShowSocket(v6, e2)).Line()])
  {
    EndpointReplaced(ValuesOf(v6, c, e1), ShowSocket(v6, e2));
  }

  lemma EndpointReplaced(v: Values, endpoint: string)
    ensures var a, b := ConfLines(v), ConfLines(v.(endpoint := endpoint));
      && |a| == |b|
      && (exists k | 0 <= k < |a| ::
            a[k] == Setting("Endpoint", v.endpoint).Line() && b == a[k := Setting("Endpoint", endpoint).Line()])
  {
    var p := PeerSettings(v);
    var j := if v.presharedKey.None? then 1 else 2;
    var swapped := Setting("Endpoint", endpoint);
    assert PeerSettings(v.(endpoint := endpoint)) == p[j := swapped];
    var head := [HeaderLine("Interface")] + SettingLines(InterfaceSettings(v)) + ["", HeaderLine("Peer")];
    var a := head + SettingLines(p);
    assert head + SettingLines(p[j := swapped]) == a[|head| + j := swapped.Line()];
    assert a[|head| + j] == p[j].Line();
  }
}
