/** The importer and the renderer as they run: sections filled line by line,
    lists pushed item by item, a text buffer appended to. Each is proved equal to
    its specification in `WgConf` and `Render`. */
module Importer {
  import opened Wrappers
  import opened Text
  import opened Address
  import opened WgConf
  import Render
  import Key

  class Section {
    var entries: seq<Entry>

    constructor ()
      ensures entries == []
    {
      entries := [];
    }

    method Set(key: string, value: string, line: nat)
      modifies this
      ensures entries == old(entries) + [Entry(Lower(key), value, line)]
    {
      entries := entries + [Entry(Lower(key), value, line)];
    }
  }

  ghost predicate Mirrors(st: Sections, interface: Section, peers: seq<Section>, current: Section?)
    reads interface, peers
  {
    && st.interface == interface.entries
    && |st.peers| == |peers| && (forall k :: 0 <= k < |peers| ==> peers[k].entries == st.peers[k])
    && interface !in peers && (forall j, k :: 0 <= j < k < |peers| ==> peers[j] != peers[k])
    && (match st.cursor
        case Nowhere => current == null
        case AtInterface => current == interface
        case AtPeer => peers != [] && current == peers[|peers| - 1])
  }

  method OpenSection(name: string, n: nat, interface: Section, peers: seq<Section>, current: Section?,
                     ghost st: Sections)
    returns (peers': seq<Section>, current': Section?, error: Option<Error>)
    requires Mirrors(st, interface, peers, current)
    ensures var r := Absorb(st, Header(name), n);
      if r.Err? then error == Some(r.error) else error.None? && Mirrors(r.value, interface, peers', current')
    ensures forall p :: p in peers' ==> p in peers || fresh(p)
    ensures current' in {current, interface} || fresh(current')
  {
    peers', current', error := peers, current, None;
    if name == "interface" {
      current' := interface;
    } else if name == "peer" {
      var peer := new Section();
      peers' := peers + [peer];
      current' := peer;
    } else {
      error := Some(UnknownSection(n));
    }
  }

  /** One pass of the loop in `ParseText`. */
  method ReadLine(raw: string, n: nat, interface: Section, peers: seq<Section>, current: Section?, ghost st: Sections)
    returns (peers': seq<Section>, current': Section?, error: Option<Error>)
    requires Mirrors(st, interface, peers, current) && st.Valid()
    modifies if current == null then {} else {current}
    ensures var r := Absorb(st, Classify(raw), n);
      if r.Err? then error == Some(r.error) else error.None? && Mirrors(r.value, interface, peers', current')
    ensures forall p :: p in peers' ==> p in peers || fresh(p)
    ensures current' in {current, interface} || fresh(current')
  {
    peers', current', error := peers, current, None;
    var line := Trim(StripComment(raw));
    if line == [] {
      return;
    }
    if |line| >= 2 && line[0] == '[' && line[|line| - 1] == ']' {
      peers', current', error := OpenSection(Lower(Trim(line[1..|line| - 1])), n, interface, peers, current, st);
      return;
    }
    var eq := IndexOf(line, '=');
    if eq == |line| {
      error := Some(NotAPair(n));
    } else if current == null {
      error := Some(OutsideSection(n));
    } else {
      current.Set(Trim(line[..eq]), Trim(line[eq + 1..]), n);
    }
  }

  method ParseText(v6: V6Text, text: string) returns (r: Result<ClientConfig, Error>)
    ensures r == Parse(v6, text)
  {
    var interface, peers, error := ReadLines(Lines(text));
    if error.Some? {
      return Err(error.value);
    }
    if |peers| == 0 {
      return Err(NoPeer);
    }
    if |peers| > 1 {
      return Err(ManyPeers(|peers|));
    }
    r := ReadSections(v6, LookUp(interface.entries, peers[0].entries));
  }

  method ReadLines(lines: seq<string>) returns (interface: Section, peers: seq<Section>, error: Option<Error>)
    ensures match Fold(ClassifyAll(lines), 1, Sections([], [], Nowhere))
      case Err(e) => error == Some(e)
      case Ok(st) =>
        && error.None? && interface.entries == st.interface && |peers| == |st.peers|
        && forall k :: 0 <= k < |peers| ==> peers[k].entries == st.peers[k]
  {
    interface := new Section();
    peers, error := [], None;
    var current: Section? := null;
    ghost var shapes := ClassifyAll(lines);
    ghost var st := Sections([], [], Nowhere);
    assert shapes[0..] == shapes;
    for i := 0 to |lines|
      invariant fresh(interface) && (forall p :: p in peers ==> fresh(p)) && (current == null || fresh(current))
      invariant Mirrors(st, interface, peers, current) && st.Valid() && error.None?
      invariant Fold(shapes, 1, Sections([], [], Nowhere)) == Fold(shapes[i..], i + 1, st)
    {
      ghost var shape := shapes[i];
      assert shapes[i..][0] == shape && shapes[i..][1..] == shapes[i + 1..];
      peers, current, error := ReadLine(lines[i], i + 1, interface, peers, current, st);
      if error.Some? {
        return;
      }
      st := Absorb(st, shape, i + 1).value;
    }
  }

  method ReadSections(v6: V6Text, f: Fields) returns (r: Result<ClientConfig, Error>)
    ensures r == ReadFields(v6, f)
  {
    var privateKey := ParseKey(f.privateKey, "PrivateKey");
    if privateKey.Err? { return Err(privateKey.error); }
    var publicKey := ParseKey(f.publicKey, "PublicKey");
    if publicKey.Err? { return Err(publicKey.error); }
    var presharedKey := ParseOptionalKey(f.presharedKey, "PresharedKey");
    if presharedKey.Err? { return Err(presharedKey.error); }
    var addresses := CollectList(CidrParser(v6), f.addresses);
    if addresses.Err? { return Err(addresses.error); }
    if addresses.value == [] { return Err(Missing("Address")); }
    var allowed := CollectList(CidrParser(v6), f.allowedIps);
    if allowed.Err? { return Err(allowed.error); }
    var dns, domains := CollectNames(v6, f.dns);
    var mtu := ParseScalar(f.mtu, U32_MAX);
    if mtu.Err? { return Err(mtu.error); }
    var keepalive := ParseScalar(f.keepalive, U16_MAX);
    if keepalive.Err? { return Err(keepalive.error); }
    r := Ok(ClientConfig(
      privateKey.value, addresses.value, dns, domains, mtu.value, publicKey.value, presharedKey.value,
      if allowed.value == [] then DEFAULT_ROUTES else allowed.value, keepalive.value));
  }

  ghost function Prepend<T>(out: seq<T>, r: Result<seq<T>, Error>): Result<seq<T>, Error> {
    if r.Err? then r else Ok(out + r.value)
  }

  method CollectItems<T>(parse: string -> Option<T>, items: seq<string>, line: nat) returns (r: Result<seq<T>, Error>)
    ensures r == ParseItems(parse, items, line)
  {
    var out: seq<T> := [];
    ghost var all := ParseItems(parse, items, line);
    PrependNothing(all);
    assert items[0..] == items;
    for j := 0 to |items|
      invariant all == Prepend(out, ParseItems(parse, items[j..], line))
    {
      assert items[j..][0] == items[j] && items[j..][1..] == items[j + 1..];
      var item := parse(items[j]);
      if item.None? {
        return Err(BadItem(line, items[j]));
      }
      PrependTwice(out, [item.value], ParseItems(parse, items[j + 1..], line));
      out := out + [item.value];
    }
    assert out + [] == out;
    r := Ok(out);
  }

  lemma PrependNothing<T>(r: Result<seq<T>, Error>)
    ensures Prepend([], r) == r
  {
    if r.Ok? {
      assert [] + r.value == r.value;
    }
  }

  lemma PrependTwice<T>(a: seq<T>, b: seq<T>, r: Result<seq<T>, Error>)
    ensures Prepend(a, Prepend(b, r)) == Prepend(a + b, r)
  {
    if r.Ok? {
      assert a + (b + r.value) == a + b + r.value;
    }
  }

  method CollectList<T>(parse: string -> Option<T>, entries: seq<Entry>) returns (r: Result<seq<T>, Error>)
    ensures r == ParseList(parse, entries)
  {
    var out: seq<T> := [];
    ghost var all := ParseList(parse, entries);
    PrependNothing(all);
    assert entries[0..] == entries;
    for i := 0 to |entries|
      invariant all == Prepend(out, ParseList(parse, entries[i..]))
    {
      assert entries[i..][0] == entries[i] && entries[i..][1..] == entries[i + 1..];
      var some := CollectItems(parse, Items(entries[i].value), entries[i].line);
      if some.Err? {
        return some;
      }
      PrependTwice(out, some.value, ParseList(parse, entries[i + 1..]));
      out := out + some.value;
    }
    assert out + [] == out;
    r := Ok(out);
  }

  method SplitNames(v6: V6Text, items: seq<string>) returns (ips: seq<Ip>, domains: seq<string>)
    ensures ips == Nameservers(v6, items) && domains == Domains(v6, items)
  {
    ips, domains := [], [];
    assert items[..0] == [];
    for j := 0 to |items|
      invariant ips == Nameservers(v6, items[..j]) && domains == Domains(v6, items[..j])
    {
      NamesAppend(v6, items[..j], [items[j]]);
      assert items[..j + 1] == items[..j] + [items[j]];
      assert [items[j]][1..] == [];
      match ParseIp(v6, items[j])
      case Some(ip) => ips := ips + [ip];
      case None => domains := domains + [items[j]];
    }
    assert items[..|items|] == items;
  }

  lemma {:induction false} AllItemsSnoc(a: seq<Entry>, e: Entry)
    ensures AllItems(a + [e]) == AllItems(a) + Items(e.value)
  {
    if a == [] {
      assert a + [e] == [e] && [e][1..] == [];
    } else {
      assert (a + [e])[1..] == a[1..] + [e];
      AllItemsSnoc(a[1..], e);
    }
  }

  method CollectNames(v6: V6Text, entries: seq<Entry>) returns (ips: seq<Ip>, domains: seq<string>)
    ensures ips == Nameservers(v6, AllItems(entries)) && domains == Domains(v6, AllItems(entries))
  {
    ips, domains := [], [];
    for i := 0 to |entries|
      invariant ips == Nameservers(v6, AllItems(entries[..i])) && domains == Domains(v6, AllItems(entries[..i]))
    {
      var items := Items(entries[i].value);
      var some, others := SplitNames(v6, items);
      AllItemsSnoc(entries[..i], entries[i]);
      NamesAppend(v6, AllItems(entries[..i]), items);
      assert entries[..i + 1] == entries[..i] + [entries[i]];
      ips, domains := ips + some, domains + others;
    }
    assert entries[..|entries|] == entries;
  }

  /** The renderer, appending line by line. */
  method ToConfText(v6: V6Text, c: ClientConfig, endpoint: SocketAddr) returns (out: string)
    ensures out == Render.ToConf(v6, c, endpoint)
  {
    out := Write(Render.ValuesOf(v6, c, endpoint));
  }

  method Write(v: Render.Values) returns (out: string)
    ensures out == Unlines(Render.ConfLines(v))
  {
    ghost var first := [Render.HeaderLine("Interface")];
    ghost var lines;
    out := Render.HeaderLine("Interface") + "\n";
    assert Unlines(first) == first[0] + "\n" + "";
    out, lines := PushInterface(out, first, v);
    out, lines := PushPeerHeader(out, lines);
    out, lines := PushPeer(out, lines, v);
  }

  method PushInterface(out: string, ghost lines: seq<string>, v: Render.Values)
    returns (out': string, ghost lines': seq<string>)
    requires out == Unlines(lines)
    ensures out' == Unlines(lines') && lines' == lines + Render.SettingLines(Render.InterfaceSettings(v))
  {
    out', lines' := Push(out, lines, "Address", v.address);
    out', lines' := Push(out', lines', "PrivateKey", v.privateKey);
    if v.dns.Some? {
      out', lines' := Push(out', lines', "DNS", v.dns.value);
    }
    if v.mtu.Some? {
      out', lines' := Push(out', lines', "MTU", v.mtu.value);
    }
  }

  method PushPeer(out: string, ghost lines: seq<string>, v: Render.Values)
    returns (out': string, ghost lines': seq<string>)
    requires out == Unlines(lines)
    ensures out' == Unlines(lines') && lines' == lines + Render.SettingLines(Render.PeerSettings(v))
  {
    out', lines' := Push(out, lines, "PublicKey", v.publicKey);
    out', lines' := PushOptional(out', lines', "PresharedKey", v.presharedKey);
    out', lines' := Push(out', lines', "Endpoint", v.endpoint);
    out', lines' := Push(out', lines', "AllowedIPs", v.allowedIps);
    out', lines' := PushOptional(out', lines', "PersistentKeepalive", v.keepalive);
  }

  method PushOptional(out: string, ghost lines: seq<string>, key: string, value: Option<string>)
    returns (out': string, ghost lines': seq<string>)
    requires out == Unlines(lines)
    ensures out' == Unlines(lines') && lines' == lines + Render.SettingLines(Render.Optional(key, value))
  {
    out', lines' := out, lines;
    if value.Some? {
      out', lines' := Push(out, lines, key, value.value);
    }
  }

  method PushPeerHeader(out: string, ghost lines: seq<string>) returns (out': string, ghost lines': seq<string>)
    requires out == Unlines(lines)
    ensures out' == Unlines(lines') && lines' == lines + ["", Render.HeaderLine("Peer")]
  {
    var h := Render.HeaderLine("Peer");
    UnlinesAppend(lines, ["", h]);
    out' := out + "\n" + h + "\n";
    lines' := lines + ["", h];
    assert ["", h][1..] == [h] && [h][1..] == [];
    assert Unlines([h]) == h + "\n" + "";
    assert Unlines(["", h]) == "" + "\n" + Unlines([h]);
    assert out' == out + Unlines(["", h]);
  }

  /** Append one `key = value` line to the buffer. */
  method Push(out: string, ghost lines: seq<string>, key: string, value: string)
    returns (out': string, ghost lines': seq<string>)
    requires out == Unlines(lines)
    ensures out' == Unlines(lines') && lines' == lines + [Render.Setting(key, value).Line()]
  {
    ghost var line := Render.Setting(key, value).Line();
    UnlinesAppend(lines, [line]);
    out' := out + key + " = " + value + "\n";
    lines' := lines + [line];
    assert Unlines([line]) == line + "\n" + "";
    assert out + key + " = " + value + "\n" == out + (line + "\n");
  }
}
