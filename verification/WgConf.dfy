/** The importer for a WireGuard `.conf`: lines, sections, repeated keys, comments.

    `Parse` is the specification; `Importer.ParseText` is the loop over mutable
    sections that the source runs, proved equal to it. */
module WgConf {
  import opened Wrappers
  import opened Text
  import opened Address
  import Key

  datatype ClientConfig = ClientConfig(
    privateKey: seq<Key.Byte>,
    addresses: seq<Cidr>,
    dns: seq<Ip>,
    searchDomains: seq<string>,
    mtu: Option<nat>,
    peerPublicKey: seq<Key.Byte>,
    presharedKey: Option<seq<Key.Byte>>,
    allowedIps: seq<Cidr>,
    persistentKeepalive: Option<nat>)

  datatype Entry = Entry(key: string, value: string, line: nat)

  datatype Error =
    | UnknownSection(line: nat)
    | NotAPair(line: nat)
    | OutsideSection(line: nat)
    | NoPeer
    | ManyPeers(n: nat)
    | Missing(key: string)
    | BadKey(line: nat, key: string, why: Key.KeyError)
    | BadItem(line: nat, item: string)
    | BadScalar(line: nat, value: string)

  const U32_MAX := 0xFFFF_FFFF
  const U16_MAX := 0xFFFF

  // ---- one line --------------------------------------------------------------

  datatype Line = Blank | Header(name: string) | Pair(key: string, value: string) | Other

  predicate IsComment(c: char) {
    c == '#' || c == ';'
  }

  function StripComment(s: string): (t: string)
    ensures t <= s && '#' !in t && ';' !in t
  {
    if s == [] || IsComment(s[0]) then "" else [s[0]] + StripComment(s[1..])
  }

  function Classify(raw: string): Line {
    ClassifyTrimmed(Trim(StripComment(raw)))
  }

  function ClassifyTrimmed(line: string): Line {
    if line == [] then Blank
    else if |line| >= 2 && line[0] == '[' && line[|line| - 1] == ']' then
      Header(Lower(Trim(line[1..|line| - 1])))
    else
      var i := IndexOf(line, '=');
      if i == |line| then Other else Pair(Trim(line[..i]), Trim(line[i + 1..]))
  }

  // ---- sections --------------------------------------------------------------

  datatype Cursor = Nowhere | AtInterface | AtPeer

  datatype Sections = Sections(interface: seq<Entry>, peers: seq<seq<Entry>>, cursor: Cursor)
  {
    predicate Valid() {
      cursor.AtPeer? ==> peers != []
    }
  }

  function Absorb(st: Sections, line: Line, n: nat): (r: Result<Sections, Error>)
    requires st.Valid()
    ensures r.Ok? ==> r.value.Valid()
  {
    match line
    case Blank => Ok(st)
    case Header(name) =>
      if name == "interface" then Ok(st.(cursor := AtInterface))
      else if name == "peer" then Ok(st.(peers := st.peers + [[]], cursor := AtPeer))
      else Err(UnknownSection(n))
    case Other => Err(NotAPair(n))
    case Pair(key, value) =>
      var e := Entry(Lower(key), value, n);
      match st.cursor
      case Nowhere => Err(OutsideSection(n))
      case AtInterface => Ok(st.(interface := st.interface + [e]))
      case AtPeer =>
        var k := |st.peers| - 1;
        Ok(st.(peers := st.peers[k := st.peers[k] + [e]]))
  }

  function ClassifyAll(lines: seq<string>): seq<Line> {
    seq(|lines|, i requires 0 <= i < |lines| => Classify(lines[i]))
  }

  /** Read `lines`, the first of which is line `n` of the file. */
  function Fold(lines: seq<Line>, n: nat, st: Sections): (r: Result<Sections, Error>)
    requires st.Valid()
    ensures r.Ok? ==> r.value.Valid()
    decreases |lines|
  {
    if lines == [] then Ok(st) else
    match Absorb(st, lines[0], n)
    case Err(e) => Err(e)
    case Ok(st') => Fold(lines[1..], n + 1, st')
  }

  function Get(entries: seq<Entry>, key: string): Option<Entry> {
    if entries == [] then None
    else if entries[0].key == key then Some(entries[0])
    else Get(entries[1..], key)
  }

  function GetAll(entries: seq<Entry>, key: string): (r: seq<Entry>)
    ensures forall e :: e in r ==> e in entries
  {
    if entries == [] then []
    else (if entries[0].key == key then [entries[0]] else []) + GetAll(entries[1..], key)
  }

  // ---- values ----------------------------------------------------------------

  /** Every item of one line, or the first that does not parse. */
  function ParseItems<T>(parse: string -> Option<T>, items: seq<string>, line: nat): Result<seq<T>, Error> {
    if items == [] then Ok([]) else
    match parse(items[0])
    case None => Err(BadItem(line, items[0]))
    case Some(c) =>
      match ParseItems(parse, items[1..], line)
      case Err(e) => Err(e)
      case Ok(rest) => Ok([c] + rest)
  }

  function ParseList<T>(parse: string -> Option<T>, entries: seq<Entry>): Result<seq<T>, Error> {
    if entries == [] then Ok([]) else
    match ParseItems(parse, Items(entries[0].value), entries[0].line)
    case Err(e) => Err(e)
    case Ok(first) =>
      match ParseList(parse, entries[1..])
      case Err(e) => Err(e)
      case Ok(rest) => Ok(first + rest)
  }

  function CidrParser(v6: V6Text): string -> Option<Cidr> {
    s => ParseCidr(v6, s)
  }

  function AllItems(entries: seq<Entry>): seq<string> {
    if entries == [] then [] else Items(entries[0].value) + AllItems(entries[1..])
  }

  function Nameservers(v6: V6Text, items: seq<string>): seq<Ip> {
    if items == [] then [] else
    var ip := ParseIp(v6, items[0]);
    (if ip.Some? then [ip.value] else []) + Nameservers(v6, items[1..])
  }

  function Domains(v6: V6Text, items: seq<string>): seq<string> {
    if items == [] then [] else
    (if ParseIp(v6, items[0]).Some? then [] else [items[0]]) + Domains(v6, items[1..])
  }

  lemma {:induction false} NameserversAppend(v6: V6Text, a: seq<string>, b: seq<string>)
    ensures Nameservers(v6, a + b) == Nameservers(v6, a) + Nameservers(v6, b)
  {
    if a == [] {
      assert a + b == b;
    } else {
      assert (a + b)[1..] == a[1..] + b;
      NameserversAppend(v6, a[1..], b);
    }
  }

  lemma {:induction false} DomainsAppend(v6: V6Text, a: seq<string>, b: seq<string>)
    ensures Domains(v6, a + b) == Domains(v6, a) + Domains(v6, b)
  {
    if a == [] {
      assert a + b == b;
    } else {
      assert (a + b)[1..] == a[1..] + b;
      DomainsAppend(v6, a[1..], b);
    }
  }

  lemma NamesAppend(v6: V6Text, a: seq<string>, b: seq<string>)
    ensures Nameservers(v6, a + b) == Nameservers(v6, a) + Nameservers(v6, b)
    ensures Domains(v6, a + b) == Domains(v6, a) + Domains(v6, b)
  {
    NameserversAppend(v6, a, b);
    DomainsAppend(v6, a, b);
  }

  function ParseScalar(entry: Option<Entry>, max: nat): (r: Result<Option<nat>, Error>)
    ensures r.Ok? && r.value.Some? ==> r.value.value <= max
  {
    match entry
    case None => Ok(None)
    case Some(e) =>
      match ParseUnsigned(e.value, max)
      case None => Err(BadScalar(e.line, e.value))
      case Some(n) => Ok(Some(n))
  }

  function ParseKey(entry: Option<Entry>, key: string): (r: Result<seq<Key.Byte>, Error>)
    ensures r.Ok? ==> |r.value| == Key.KEY_LEN
  {
    match entry
    case None => Err(Missing(key))
    case Some(e) =>
      match Key.Decode(e.value)
      case Err(why) => Err(BadKey(e.line, key, why))
      case Ok(raw) => Ok(raw)
  }

  function ParseOptionalKey(entry: Option<Entry>, key: string): (r: Result<Option<seq<Key.Byte>>, Error>)
    ensures r.Ok? && r.value.Some? ==> |r.value.value| == Key.KEY_LEN
  {
    if entry.None? then Ok(None) else
    match ParseKey(entry, key)
    case Err(e) => Err(e)
    case Ok(raw) => Ok(Some(raw))
  }

  const DEFAULT_ROUTES := [Cidr(V4(0), 0), Cidr(V6(0), 0)]

  /** The entries `parse` looks up, before any of them is read. */
  datatype Fields = Fields(
    privateKey: Option<Entry>, addresses: seq<Entry>, dns: seq<Entry>, mtu: Option<Entry>,
    publicKey: Option<Entry>, presharedKey: Option<Entry>, allowedIps: seq<Entry>, keepalive: Option<Entry>)

  function LookUp(interface: seq<Entry>, peer: seq<Entry>): Fields {
    Fields(Get(interface, "privatekey"), GetAll(interface, "address"), GetAll(interface, "dns"),
           Get(interface, "mtu"), Get(peer, "publickey"), Get(peer, "presharedkey"),
           GetAll(peer, "allowedips"), Get(peer, "persistentkeepalive"))
  }

  /** The first error in source order, or the config. */
  function Assemble(
    v6: V6Text, privateKey: Result<seq<Key.Byte>, Error>, peerPublicKey: Result<seq<Key.Byte>, Error>,
    presharedKey: Result<Option<seq<Key.Byte>>, Error>, addresses: Result<seq<Cidr>, Error>,
    allowed: Result<seq<Cidr>, Error>, names: seq<string>,
    mtu: Result<Option<nat>, Error>, keepalive: Result<Option<nat>, Error>): Result<ClientConfig, Error>
  {
    var privateKey :- privateKey;
    var peerPublicKey :- peerPublicKey;
    var presharedKey :- presharedKey;
    var addresses :- addresses;
    if addresses == [] then Err(Missing("Address")) else
    var allowed :- allowed;
    var mtu :- mtu;
    var keepalive :- keepalive;
    Ok(ClientConfig(privateKey, addresses, Nameservers(v6, names), Domains(v6, names), mtu,
                    peerPublicKey, presharedKey, if allowed == [] then DEFAULT_ROUTES else allowed, keepalive))
  }

  function ReadFields(v6: V6Text, f: Fields): Result<ClientConfig, Error> {
    Assemble(v6, ParseKey(f.privateKey, "PrivateKey"), ParseKey(f.publicKey, "PublicKey"),
             ParseOptionalKey(f.presharedKey, "PresharedKey"), ParseList(CidrParser(v6), f.addresses),
             ParseList(CidrParser(v6), f.allowedIps), AllItems(f.dns), ParseScalar(f.mtu, U32_MAX),
             ParseScalar(f.keepalive, U16_MAX))
  }

  function Parse(v6: V6Text, text: string): Result<ClientConfig, Error> {
    var st :- Fold(ClassifyAll(Lines(text)), 1, Sections([], [], Nowhere));
    if st.peers == [] then Err(NoPeer)
    else if |st.peers| > 1 then Err(ManyPeers(|st.peers|))
    else ReadFields(v6, LookUp(st.interface, st.peers[0]))
  }

  // ---- what a parsed config is like ------------------------------------------

  predicate CleanValue(s: string) {
    '\n' !in s && '#' !in s && ';' !in s
  }

  /** A search domain as a `.conf` can carry it. */
  predicate CleanDomain(v6: V6Text, s: string) {
    CleanItem(s) && CleanValue(s) && ParseIp(v6, s).None?
  }

  /** Exactly the configs some text parses to; see `RoundTripExactly`. */
  predicate WellFormed(v6: V6Text, c: ClientConfig) {
    && |c.privateKey| == Key.KEY_LEN && |c.peerPublicKey| == Key.KEY_LEN
    && (c.presharedKey.Some? ==> |c.presharedKey.value| == Key.KEY_LEN)
    && c.addresses != [] && (forall a :: a in c.addresses ==> a.Valid())
    && c.allowedIps != [] && (forall a :: a in c.allowedIps ==> a.Valid())
    && (forall ip :: ip in c.dns ==> ip.Valid())
    && (forall d :: d in c.searchDomains ==> CleanDomain(v6, d))
    && (c.mtu.Some? ==> c.mtu.value <= U32_MAX)
    && (c.persistentKeepalive.Some? ==> c.persistentKeepalive.value <= U16_MAX)
  }

  predicate CleanEntries(entries: seq<Entry>) {
    forall e :: e in entries ==> CleanValue(e.value)
  }

  predicate CleanSections(st: Sections) {
    CleanEntries(st.interface) && forall p :: p in st.peers ==> CleanEntries(p)
  }

  lemma TrimClean(s: string)
    requires CleanValue(s)
    ensures CleanValue(Trim(s))
  {
    TrimIsTrimmed(s);
  }

  lemma ClassifyClean(raw: string)
    requires '\n' !in raw
    ensures Classify(raw).Pair? ==> CleanValue(Classify(raw).value)
  {
    var s := StripComment(raw);
    TrimClean(s);
    var line := Trim(s);
    var i := IndexOf(line, '=');
    if i < |line| {
      TrimClean(line[i + 1..]);
    }
  }

  lemma AbsorbClean(st: Sections, line: Line, n: nat)
    requires st.Valid() && CleanSections(st)
    requires line.Pair? ==> CleanValue(line.value)
    ensures var r := Absorb(st, line, n); r.Ok? ==> CleanSections(r.value)
  {
    if line.Pair? && st.cursor.AtPeer? {
      assert CleanEntries(st.peers[|st.peers| - 1]);
    }
  }

  lemma {:induction false} FoldClean(lines: seq<Line>, n: nat, st: Sections)
    requires st.Valid() && CleanSections(st)
    requires forall l :: l in lines && l.Pair? ==> CleanValue(l.value)
    ensures Fold(lines, n, st).Ok? ==> CleanSections(Fold(lines, n, st).value)
    decreases |lines|
  {
    if lines != [] {
      AbsorbClean(st, lines[0], n);
      var r := Absorb(st, lines[0], n);
      if r.Ok? {
        FoldClean(lines[1..], n + 1, r.value);
      }
    }
  }

  lemma {:induction false} ListOf<T>(parse: string -> Option<T>, entries: seq<Entry>, p: T -> bool)
    requires forall s :: parse(s).Some? ==> p(parse(s).value)
    ensures ParseList(parse, entries).Ok? ==> forall c :: c in ParseList(parse, entries).value ==> p(c)
  {
    if entries != [] {
      ItemsOf(parse, Items(entries[0].value), entries[0].line, p);
      ListOf(parse, entries[1..], p);
    }
  }

  lemma {:induction false} ItemsOf<T>(parse: string -> Option<T>, items: seq<string>, line: nat, p: T -> bool)
    requires forall s :: parse(s).Some? ==> p(parse(s).value)
    ensures ParseItems(parse, items, line).Ok? ==> forall c :: c in ParseItems(parse, items, line).value ==> p(c)
  {
    if items != [] {
      ItemsOf(parse, items[1..], line, p);
    }
  }

  lemma CidrListValid(v6: V6Text, entries: seq<Entry>)
    requires Faithful(v6)
    ensures var r := ParseList(CidrParser(v6), entries); r.Ok? ==> forall c :: c in r.value ==> c.Valid()
  {
    var p := (c: Cidr) => c.Valid();
    forall s | CidrParser(v6)(s).Some? ensures p(CidrParser(v6)(s).value) {
      ParsedCidrValid(v6, s);
    }
    ListOf(CidrParser(v6), entries, p);
  }

  lemma {:induction false} NamesValid(v6: V6Text, items: seq<string>)
    requires Faithful(v6)
    requires forall x :: x in items ==> CleanItem(x) && CleanValue(x)
    ensures forall ip :: ip in Nameservers(v6, items) ==> ip.Valid()
    ensures forall d :: d in Domains(v6, items) ==> CleanDomain(v6, d)
  {
    if items != [] {
      assert CleanItem(items[0]) && CleanValue(items[0]);
      ParsedIpValid(v6, items[0]);
      NamesValid(v6, items[1..]);
    }
  }

  lemma {:induction false} AllItemsClean(entries: seq<Entry>)
    requires CleanEntries(entries)
    ensures forall x :: x in AllItems(entries) ==> CleanItem(x) && CleanValue(x)
  {
    if entries != [] {
      var v := entries[0].value;
      assert CleanValue(v);
      ItemsClean(v);
      ItemsFree(v, '\n');
      ItemsFree(v, '#');
      ItemsFree(v, ';');
      AllItemsClean(entries[1..]);
    }
  }

  lemma AssembleWellFormed(
    v6: V6Text, privateKey: Result<seq<Key.Byte>, Error>, peerPublicKey: Result<seq<Key.Byte>, Error>,
    presharedKey: Result<Option<seq<Key.Byte>>, Error>, addresses: Result<seq<Cidr>, Error>,
    allowed: Result<seq<Cidr>, Error>, names: seq<string>,
    mtu: Result<Option<nat>, Error>, keepalive: Result<Option<nat>, Error>)
    requires privateKey.Ok? ==> |privateKey.value| == Key.KEY_LEN
    requires peerPublicKey.Ok? ==> |peerPublicKey.value| == Key.KEY_LEN
    requires presharedKey.Ok? && presharedKey.value.Some? ==> |presharedKey.value.value| == Key.KEY_LEN
    requires addresses.Ok? ==> forall c :: c in addresses.value ==> c.Valid()
    requires allowed.Ok? ==> forall c :: c in allowed.value ==> c.Valid()
    requires mtu.Ok? && mtu.value.Some? ==> mtu.value.value <= U32_MAX
    requires keepalive.Ok? && keepalive.value.Some? ==> keepalive.value.value <= U16_MAX
    requires forall ip :: ip in Nameservers(v6, names) ==> ip.Valid()
    requires forall d :: d in Domains(v6, names) ==> CleanDomain(v6, d)
    ensures var r := Assemble(v6, privateKey, peerPublicKey, presharedKey, addresses, allowed, names, mtu, keepalive);
      r.Ok? ==> WellFormed(v6, r.value)
  {}

  lemma ReadIsWellFormed(v6: V6Text, f: Fields)
    requires Faithful(v6) && CleanEntries(f.dns)
    ensures var r := ReadFields(v6, f); r.Ok? ==> WellFormed(v6, r.value)
  {
    CidrListValid(v6, f.addresses);
    CidrListValid(v6, f.allowedIps);
    AllItemsClean(f.dns);
    NamesValid(v6, AllItems(f.dns));
    AssembleWellFormed(
      v6, ParseKey(f.privateKey, "PrivateKey"), ParseKey(f.publicKey, "PublicKey"),
      ParseOptionalKey(f.presharedKey, "PresharedKey"), ParseList(CidrParser(v6), f.addresses),
      ParseList(CidrParser(v6), f.allowedIps), AllItems(f.dns),
      ParseScalar(f.mtu, U32_MAX), ParseScalar(f.keepalive, U16_MAX));
  }

  /** Every config the importer accepts is well-formed. */
  lemma ParsedIsWellFormed(v6: V6Text, text: string)
    requires Faithful(v6)
    ensures Parse(v6, text).Ok? ==> WellFormed(v6, Parse(v6, text).value)
  {
    var start := Sections([], [], Nowhere);
    var lines := Lines(text);
    var shapes := ClassifyAll(lines);
    forall l | l in shapes && l.Pair? ensures CleanValue(l.value) {
      var i :| 0 <= i < |shapes| && shapes[i] == l;
      ClassifyClean(lines[i]);
    }
    FoldClean(shapes, 1, start);
    var r := Fold(shapes, 1, start);
    if r.Ok? && |r.value.peers| == 1 {
      ReadIsWellFormed(v6, LookUp(r.value.interface, r.value.peers[0]));
    }
  }
}
