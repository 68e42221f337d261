/** What a `.conf` means, line by line: the importer's result told from the lines of the text alone. */
module ConfMeaning {
  import opened Wrappers
  import opened Text
  import opened Address
  import opened Sorting
  import opened WgConf
  import Key

  // ---- one line --------------------------------------------------------------

  predicate AllSpace(s: string) {
    forall c :: c in s ==> IsSpace(c)
  }

  /** A comment, or nothing. */
  predicate IsRemark(s: string) {
    s != "" ==> s[0] == '#' || s[0] == ';'
  }

  predicate NoRemark(s: string) {
    '#' !in s && ';' !in s
  }

  /** Text with no white space around it and no comment in it. */
  predicate IsWord(s: string) {
    s != "" && Trimmed(s) && NoRemark(s)
  }

  lemma {:induction false} RemarkStripped(s: string, remark: string)
    requires NoRemark(s) && IsRemark(remark)
    ensures StripComment(s + remark) == s
  {
    if s == "" {
      assert s + remark == remark;
    } else {
      assert (s + remark)[0] == s[0] && s[0] in s && (s + remark)[1..] == s[1..] + remark;
      RemarkStripped(s[1..], remark);
    }
  }

  lemma SpaceIsNoRemark(s: string)
    requires AllSpace(s)
    ensures NoRemark(s) && '=' !in s
  {
    assert !IsSpace('#') && !IsSpace(';') && !IsSpace('=');
  }

  lemma {:induction false} StartTrimmed(a: string, s: string)
    requires AllSpace(a) && (s != "" ==> !IsSpace(s[0]))
    ensures TrimStart(a + s) == s
  {
    if a == "" {
      assert a + s == s;
    } else {
      assert (a + s)[0] == a[0] && a[0] in a && (a + s)[1..] == a[1..] + s;
      StartTrimmed(a[1..], s);
    }
  }

  lemma {:induction false} EndTrimmed(s: string, b: string)
    requires AllSpace(b) && (s != "" ==> !IsSpace(s[|s| - 1]))
    ensures TrimEnd(s + b) == s
  {
    if b == "" {
      assert s + b == s;
    } else {
      var k := |b| - 1;
      assert (s + b)[|s| + k] == b[k] && b[k] in b && (s + b)[..|s| + k] == s + b[..k];
      EndTrimmed(s, b[..k]);
    }
  }

  lemma SpaceTrimmed(a: string, s: string, b: string)
    requires AllSpace(a) && AllSpace(b) && s != "" && Trimmed(s)
    ensures Trim(a + s + b) == s
  {
    assert (s + b)[0] == s[0] && a + s + b == a + (s + b);
    StartTrimmed(a, s + b);
    EndTrimmed(s, b);
  }

  /** White space around a line and a comment after it make no difference. */
  lemma Unpadded(a: string, line: string, d: string, remark: string)
    requires AllSpace(a) && AllSpace(d) && IsRemark(remark) && IsWord(line)
    ensures Classify(a + line + d + remark) == ClassifyTrimmed(line)
  {
    SpaceIsNoRemark(a);
    SpaceIsNoRemark(d);
    RemarkStripped(a + line + d, remark);
    SpaceTrimmed(a, line, d);
  }

  /** The first equals sign parts a line that is no header. */
  lemma SplitsAtEquals(left: string, right: string)
    requires left != "" && left[0] != '[' && '=' !in left
    ensures ClassifyTrimmed(left + "=" + right) == Pair(Trim(left), Trim(right))
  {
    var line := left + "=" + right;
    IndexOfAfter(left, '=', right);
    assert line[0] == left[0] && line[..|left|] == left && line[|left| + 1..] == right;
  }

  lemma SettingSplits(key: string, b: string, c: string, value: string)
    requires AllSpace(b) && AllSpace(c) && IsWord(key) && IsWord(value) && '=' !in key && key[0] != '['
    ensures ClassifyTrimmed(key + b + "=" + c + value) == Pair(key, value)
  {
    var left, right := key + b, c + value;
    SpaceIsNoRemark(b);
    SplitsAtEquals(left, right);
    assert key + b + "=" + c + value == left + "=" + right;
    assert "" + key + b == left && c + value + "" == right;
    SpaceTrimmed("", key, b);
    SpaceTrimmed(c, value, "");
  }

  lemma SettingIsWord(key: string, b: string, c: string, value: string)
    requires AllSpace(b) && AllSpace(c) && IsWord(key) && IsWord(value)
    ensures IsWord(key + b + "=" + c + value)
  {
    var line := key + b + "=" + c + value;
    SpaceIsNoRemark(b);
    SpaceIsNoRemark(c);
    assert line[0] == key[0] && line[|line| - 1] == value[|value| - 1];
  }

  /** A setting, whatever white space and comment it is written with; only the first equals sign counts. */
  lemma SettingReads(a: string, key: string, b: string, c: string, value: string, d: string, remark: string)
    requires AllSpace(a) && AllSpace(b) && AllSpace(c) && AllSpace(d) && IsRemark(remark)
    requires IsWord(key) && IsWord(value) && '=' !in key && key[0] != '['
    ensures Classify(a + (key + b + "=" + c + value) + d + remark) == Pair(key, value)
  {
    SettingIsWord(key, b, c, value);
    SettingSplits(key, b, c, value);
    Unpadded(a, key + b + "=" + c + value, d, remark);
  }

  lemma HeaderIsWord(b: string, name: string, c: string)
    requires AllSpace(b) && AllSpace(c) && IsWord(name)
    ensures IsWord("[" + b + name + c + "]")
  {
    var line := "[" + b + name + c + "]";
    SpaceIsNoRemark(b);
    SpaceIsNoRemark(c);
    assert line[0] == '[' && line[|line| - 1] == ']';
  }

  lemma BracketsHead(inner: string)
    ensures ClassifyTrimmed("[" + inner + "]") == Header(Lower(Trim(inner)))
  {
    var line := "[" + inner + "]";
    assert line[0] == '[' && line[|line| - 1] == ']' && line[1..|line| - 1] == inner;
  }

  lemma HeaderSplits(b: string, name: string, c: string)
    requires AllSpace(b) && AllSpace(c) && IsWord(name)
    ensures ClassifyTrimmed("[" + b + name + c + "]") == Header(Lower(name))
  {
    SpaceTrimmed(b, name, c);
    BracketsHead(b + name + c);
    assert "[" + b + name + c + "]" == "[" + (b + name + c) + "]";
  }

  /** A header, whatever white space and comment it is written with. */
  lemma HeaderReads(a: string, b: string, name: string, c: string, d: string, remark: string)
    requires AllSpace(a) && AllSpace(b) && AllSpace(c) && AllSpace(d) && IsRemark(remark) && IsWord(name)
    ensures Classify(a + ("[" + b + name + c + "]") + d + remark) == Header(Lower(name))
  {
    HeaderIsWord(b, name, c);
    HeaderSplits(b, name, c);
    Unpadded(a, "[" + b + name + c + "]", d, remark);
  }

  lemma BlankReads(a: string, remark: string)
    requires AllSpace(a) && IsRemark(remark)
    ensures Classify(a + remark) == Blank
  {
    SpaceIsNoRemark(a);
    RemarkStripped(a, remark);
    StartTrimmed(a, "");
    assert a + "" == a;
  }

  // ---- the lines -------------------------------------------------------------

  /** The section the `i`th line is in: the one the last header before it opens. */
  function SectionAt(shapes: seq<Line>, i: nat): Option<string>
    requires i <= |shapes|
  {
    if i == 0 then None
    else if shapes[i - 1].Header? then Some(shapes[i - 1].name)
    else SectionAt(shapes, i - 1)
  }

  /** The `i`th line sets this key, whatever its case, in this section. */
  predicate Sets(shapes: seq<Line>, i: nat, section: string, key: string)
    requires i < |shapes|
  {
    shapes[i].Pair? && Lower(shapes[i].key) == key && SectionAt(shapes, i) == Some(section)
  }

  /** What the first `n` lines set a key of a section to, in their order. */
  function ValuesIn(shapes: seq<Line>, section: string, key: string, n: nat): seq<string>
    requires n <= |shapes|
  {
    if n == 0 then []
    else
      ValuesIn(shapes, section, key, n - 1)
      + (if Sets(shapes, n - 1, section, key) then [shapes[n - 1].value] else [])
  }

  function ValuesOf(shapes: seq<Line>, section: string, key: string): seq<string> {
    ValuesIn(shapes, section, key, |shapes|)
  }

  function PeerHeaders(shapes: seq<Line>, n: nat): nat
    requires n <= |shapes|
  {
    if n == 0 then 0 else PeerHeaders(shapes, n - 1) + (if shapes[n - 1] == Header("peer") then 1 else 0)
  }

  /** A line the importer does not stop at. */
  predicate InPlace(shapes: seq<Line>, i: nat)
    requires i < |shapes|
  {
    match shapes[i]
    case Blank => true
    case Header(name) => name == "interface" || name == "peer"
    case Pair(_, _) => SectionAt(shapes, i).Some?
    case Other => false
  }

  /** Nothing but blank lines, the two headers and settings below one of them; and one peer. */
  ghost predicate WellSectioned(shapes: seq<Line>) {
    (forall i :: 0 <= i < |shapes| ==> InPlace(shapes, i)) && PeerHeaders(shapes, |shapes|) == 1
  }

  // ---- the values ------------------------------------------------------------

  /** The items of the values, in order. */
  function ItemsOf(values: seq<string>): seq<string> {
    if values == [] then [] else Items(values[0]) + ItemsOf(values[1..])
  }

  /** The first value is a key. */
  predicate IsKey(values: seq<string>, key: seq<Key.Byte>) {
    values != [] && Key.Decode(values[0]) == Ok(key)
  }

  predicate IsOptionalKey(values: seq<string>, key: Option<seq<Key.Byte>>) {
    if values == [] then key.None? else key.Some? && IsKey(values, key.value)
  }

  /** The first value is a number, or there is none. */
  predicate IsNumber(values: seq<string>, max: nat, n: Option<nat>) {
    if values == [] then n.None? else n.Some? && ParseUnsigned(values[0], max) == n
  }

  /** Every item is read, in order. */
  ghost predicate AllRead<T>(parse: string -> Option<T>, items: seq<string>, xs: seq<T>) {
    |items| == |xs| && forall i :: 0 <= i < |xs| ==> parse(items[i]) == Some(xs[i])
  }

  function IsAddress(v6: V6Text): string -> bool {
    (item: string) => ParseIp(v6, item).Some?
  }

  function IsNoAddress(v6: V6Text): string -> bool {
    (item: string) => ParseIp(v6, item).None?
  }

  function AddressOf(v6: V6Text): string -> Option<Ip> {
    (item: string) => ParseIp(v6, item)
  }

  /** The config the lines spell: of several lines with one scalar key the first, of lists all. */
  ghost predicate Means(v6: V6Text, shapes: seq<Line>, c: ClientConfig) {
    var dns := ItemsOf(ValuesOf(shapes, "interface", "dns"));
    var allowed := ItemsOf(ValuesOf(shapes, "peer", "allowedips"));
    && IsKey(ValuesOf(shapes, "interface", "privatekey"), c.privateKey)
    && AllRead(CidrParser(v6), ItemsOf(ValuesOf(shapes, "interface", "address")), c.addresses) && c.addresses != []
    && AllRead(AddressOf(v6), Keep(IsAddress(v6), dns), c.dns)
    && c.searchDomains == Keep(IsNoAddress(v6), dns)
    && IsNumber(ValuesOf(shapes, "interface", "mtu"), 0xFFFF_FFFF, c.mtu)
    && IsKey(ValuesOf(shapes, "peer", "publickey"), c.peerPublicKey)
    && IsOptionalKey(ValuesOf(shapes, "peer", "presharedkey"), c.presharedKey)
    && (if allowed == [] then c.allowedIps == [Cidr(V4(0), 0), Cidr(V6(0), 0)]
        else AllRead(CidrParser(v6), allowed, c.allowedIps))
    && IsNumber(ValuesOf(shapes, "peer", "persistentkeepalive"), 0xFFFF, c.persistentKeepalive)
  }

  // ---- entries ---------------------------------------------------------------

  function Values(es: seq<Entry>): seq<string> {
    if es == [] then [] else [es[0].value] + Values(es[1..])
  }

  lemma {:induction false} ValuesSnoc(es: seq<Entry>, e: Entry)
    ensures Values(es + [e]) == Values(es) + [e.value]
  {
    if es == [] {
      assert es + [e] == [e] && [e][1..] == [];
    } else {
      assert (es + [e])[1..] == es[1..] + [e];
      ValuesSnoc(es[1..], e);
    }
  }

  lemma {:induction false} GetAllSnoc(es: seq<Entry>, e: Entry, key: string)
    ensures GetAll(es + [e], key) == GetAll(es, key) + (if e.key == key then [e] else [])
  {
    if es == [] {
      assert es + [e] == [e] && [e][1..] == [];
    } else {
      var all, rest := es + [e], es[1..];
      assert all[0] == es[0] && all[1..] == rest + [e];
      GetAllSnoc(rest, e, key);
      Associative(if es[0].key == key then [es[0]] else [], GetAll(rest, key), if e.key == key then [e] else []);
    }
  }

  /** What is looked up is the first of all. */
  lemma {:induction false} GetIsFirst(es: seq<Entry>, key: string)
    ensures Get(es, key) == if GetAll(es, key) == [] then None else Some(GetAll(es, key)[0])
  {
    if es != [] && es[0].key != key {
      GetIsFirst(es[1..], key);
    }
  }

  function Flat(peers: seq<seq<Entry>>): seq<Entry> {
    if peers == [] then [] else Flat(peers[..|peers| - 1]) + peers[|peers| - 1]
  }

  /** The state after the first `i` lines, as far as one key goes. */
  ghost predicate Follows(shapes: seq<Line>, i: nat, st: Sections, key: string)
    requires i <= |shapes|
  {
    && st.Valid() && |st.peers| == PeerHeaders(shapes, i)
    && SectionAt(shapes, i) == (match st.cursor
                                case Nowhere => None
                                case AtInterface => Some("interface")
                                case AtPeer => Some("peer"))
    && Values(GetAll(st.interface, key)) == ValuesIn(shapes, "interface", key, i)
    && Values(GetAll(Flat(st.peers), key)) == ValuesIn(shapes, "peer", key, i)
  }

  lemma SectionNames()
    ensures "interface" != "peer"
  {
    assert "interface"[0] != "peer"[0];
  }

  lemma ValuesGain(es: seq<Entry>, e: Entry, key: string)
    ensures Values(GetAll(es + [e], key)) == Values(GetAll(es, key)) + (if e.key == key then [e.value] else [])
  {
    var found := GetAll(es, key);
    GetAllSnoc(es, e, key);
    ValuesSnoc(found, e);
    assert found + [] == found && Values(found) + [] == Values(found);
  }

  lemma NothingSet(shapes: seq<Line>, i: nat, section: string, key: string)
    requires i < |shapes| && !Sets(shapes, i, section, key)
    ensures ValuesIn(shapes, section, key, i + 1) == ValuesIn(shapes, section, key, i)
  {}

  lemma FollowsNext(shapes: seq<Line>, i: nat, st: Sections, key: string)
    requires i < |shapes| && Follows(shapes, i, st, key)
    ensures Absorb(st, shapes[i], i + 1).Ok? <==> InPlace(shapes, i)
    ensures Absorb(st, shapes[i], i + 1).Ok? ==> Follows(shapes, i + 1, Absorb(st, shapes[i], i + 1).value, key)
  {
    if shapes[i].Pair? {
      if !st.cursor.Nowhere? {
        PairFollows(shapes, i, st, key);
      }
    } else {
      NothingSet(shapes, i, "interface", key);
      NothingSet(shapes, i, "peer", key);
      if shapes[i].Header? {
        HeaderFollows(shapes, i, st, key);
      }
    }
  }

  lemma HeaderFollows(shapes: seq<Line>, i: nat, st: Sections, key: string)
    requires i < |shapes| && Follows(shapes, i, st, key) && shapes[i].Header?
    requires ValuesIn(shapes, "interface", key, i + 1) == ValuesIn(shapes, "interface", key, i)
    requires ValuesIn(shapes, "peer", key, i + 1) == ValuesIn(shapes, "peer", key, i)
    ensures InPlace(shapes, i) ==> Follows(shapes, i + 1, Absorb(st, shapes[i], i + 1).value, key)
  {
    SectionNames();
    if shapes[i].name == "peer" {
      var peers := st.peers + [[]];
      assert peers[..|peers| - 1] == st.peers;
      assert Flat(peers) == Flat(st.peers) + [] == Flat(st.peers);
    }
  }

  lemma PairFollows(shapes: seq<Line>, i: nat, st: Sections, key: string)
    requires i < |shapes| && Follows(shapes, i, st, key) && shapes[i].Pair? && !st.cursor.Nowhere?
    ensures Follows(shapes, i + 1, Absorb(st, shapes[i], i + 1).value, key)
  {
    SectionNames();
    var e := Entry(Lower(shapes[i].key), shapes[i].value, i + 1);
    if st.cursor.AtInterface? {
      ValuesGain(st.interface, e, key);
      NothingSet(shapes, i, "peer", key);
    } else {
      FlatGain(st.peers, e);
      ValuesGain(Flat(st.peers), e, key);
      NothingSet(shapes, i, "interface", key);
    }
  }

  lemma FlatGain(peers: seq<seq<Entry>>, e: Entry)
    requires peers != []
    ensures var k := |peers| - 1; Flat(peers[k := peers[k] + [e]]) == Flat(peers) + [e]
  {
    var k := |peers| - 1;
    var peers' := peers[k := peers[k] + [e]];
    assert peers'[..k] == peers[..k];
    Associative(Flat(peers[..k]), peers[k], [e]);
  }

  lemma {:induction false} FoldFollows(shapes: seq<Line>, i: nat, st: Sections, key: string)
    requires i <= |shapes| && Follows(shapes, i, st, key)
    ensures var r := Fold(shapes[i..], i + 1, st);
      && (r.Ok? <==> forall j :: i <= j < |shapes| ==> InPlace(shapes, j))
      && (r.Ok? ==> Follows(shapes, |shapes|, r.value, key))
    decreases |shapes| - i
  {
    if i < |shapes| {
      assert shapes[i..][0] == shapes[i] && shapes[i..][1..] == shapes[i + 1..];
      FollowsNext(shapes, i, st, key);
      if InPlace(shapes, i) {
        FoldFollows(shapes, i + 1, Absorb(st, shapes[i], i + 1).value, key);
      }
    }
  }

  // ---- reading the values ----------------------------------------------------

  lemma ValuesFirst(es: seq<Entry>)
    ensures (Values(es) == [] <==> es == []) && (es != [] ==> Values(es)[0] == es[0].value)
  {}

  lemma KeyRead(es: seq<Entry>, key: string, name: string, k: seq<Key.Byte>)
    ensures ParseKey(Get(es, key), name) == Ok(k) <==> IsKey(Values(GetAll(es, key)), k)
  {
    GetIsFirst(es, key);
    ValuesFirst(GetAll(es, key));
  }

  lemma OptionalKeyRead(es: seq<Entry>, key: string, name: string, k: Option<seq<Key.Byte>>)
    ensures ParseOptionalKey(Get(es, key), name) == Ok(k) <==> IsOptionalKey(Values(GetAll(es, key)), k)
  {
    GetIsFirst(es, key);
    ValuesFirst(GetAll(es, key));
  }

  lemma NumberRead(es: seq<Entry>, key: string, max: nat, n: Option<nat>)
    ensures ParseScalar(Get(es, key), max) == Ok(n) <==> IsNumber(Values(GetAll(es, key)), max, n)
  {
    GetIsFirst(es, key);
    ValuesFirst(GetAll(es, key));
  }

  lemma {:induction false} ItemsRead<T>(parse: string -> Option<T>, items: seq<string>, line: nat, xs: seq<T>)
    ensures ParseItems(parse, items, line) == Ok(xs) <==> AllRead(parse, items, xs)
  {
    if items != [] && xs != [] {
      ItemsRead(parse, items[1..], line, xs[1..]);
      assert xs == [xs[0]] + xs[1..];
      AllReadHead(parse, items, xs);
    }
  }

  lemma AllReadHead<T>(parse: string -> Option<T>, items: seq<string>, xs: seq<T>)
    requires items != [] && xs != []
    ensures AllRead(parse, items, xs) <==> parse(items[0]) == Some(xs[0]) && AllRead(parse, items[1..], xs[1..])
  {
    if parse(items[0]) == Some(xs[0]) && AllRead(parse, items[1..], xs[1..]) {
      forall i | 0 <= i < |xs| ensures parse(items[i]) == Some(xs[i]) {
        assert i > 0 ==> items[i] == items[1..][i - 1] && xs[i] == xs[1..][i - 1];
      }
    }
  }

  lemma AllReadAppend<T>(parse: string -> Option<T>, a: seq<string>, b: seq<string>, xs: seq<T>, ys: seq<T>)
    requires |a| == |xs|
    ensures AllRead(parse, a + b, xs + ys) <==> AllRead(parse, a, xs) && AllRead(parse, b, ys)
  {
    if AllRead(parse, a + b, xs + ys) {
      forall i | 0 <= i < |xs| ensures parse(a[i]) == Some(xs[i]) {
        assert (a + b)[i] == a[i] && (xs + ys)[i] == xs[i];
      }
      forall i | 0 <= i < |ys| ensures parse(b[i]) == Some(ys[i]) {
        assert (a + b)[|a| + i] == b[i] && (xs + ys)[|a| + i] == ys[i];
      }
    }
  }

  lemma {:induction false} ListRead<T>(parse: string -> Option<T>, es: seq<Entry>, xs: seq<T>)
    ensures ParseList(parse, es) == Ok(xs) <==> AllRead(parse, ItemsOf(Values(es)), xs)
  {
    if es != [] {
      var first := Items(es[0].value);
      var rest := ItemsOf(Values(es[1..]));
      if |xs| >= |first| {
        var a, b := xs[..|first|], xs[|first|..];
        assert xs == a + b;
        ItemsRead(parse, first, es[0].line, a);
        ListRead(parse, es[1..], b);
        AllReadAppend(parse, first, rest, a, b);
        ListSplits(parse, es, a, b);
      } else {
        ListLongEnough(parse, es, xs);
      }
    }
  }

  lemma ListSplits<T>(parse: string -> Option<T>, es: seq<Entry>, a: seq<T>, b: seq<T>)
    requires es != [] && |a| == |Items(es[0].value)|
    ensures ParseList(parse, es) == Ok(a + b) <==>
      ParseItems(parse, Items(es[0].value), es[0].line) == Ok(a) && ParseList(parse, es[1..]) == Ok(b)
  {
    var first, rest := ParseItems(parse, Items(es[0].value), es[0].line), ParseList(parse, es[1..]);
    if first.Ok? && rest.Ok? {
      ItemsRead(parse, Items(es[0].value), es[0].line, first.value);
      var xs := first.value + rest.value;
      if xs == a + b {
        assert first.value == xs[..|a|] && a == (a + b)[..|a|];
        assert rest.value == xs[|a|..] && b == (a + b)[|a|..];
      }
    }
  }

  lemma ListLongEnough<T>(parse: string -> Option<T>, es: seq<Entry>, xs: seq<T>)
    requires es != [] && |xs| < |Items(es[0].value)|
    ensures ParseList(parse, es) != Ok(xs)
  {
    var first := ParseItems(parse, Items(es[0].value), es[0].line);
    if first.Ok? {
      ItemsRead(parse, Items(es[0].value), es[0].line, first.value);
    }
  }

  lemma {:induction false} AllItemsAre(es: seq<Entry>)
    ensures AllItems(es) == ItemsOf(Values(es))
  {
    if es != [] {
      AllItemsAre(es[1..]);
    }
  }

  lemma {:induction false} DomainsAre(v6: V6Text, items: seq<string>)
    ensures Domains(v6, items) == Keep(IsNoAddress(v6), items)
  {
    if items != [] {
      DomainsAre(v6, items[1..]);
    }
  }

  lemma {:induction false} NameserversAre(v6: V6Text, items: seq<string>)
    ensures AllRead(AddressOf(v6), Keep(IsAddress(v6), items), Nameservers(v6, items))
  {
    if items != [] {
      var rest, ips := Keep(IsAddress(v6), items[1..]), Nameservers(v6, items[1..]);
      NameserversAre(v6, items[1..]);
      if ParseIp(v6, items[0]).Some? {
        var ip := ParseIp(v6, items[0]).value;
        AllReadAppend(AddressOf(v6), [items[0]], rest, [ip], ips);
      } else {
        assert [] + rest == rest && [] + ips == ips;
      }
    }
  }

  lemma AllReadOnce<T>(parse: string -> Option<T>, items: seq<string>, xs: seq<T>, ys: seq<T>)
    requires AllRead(parse, items, xs) && AllRead(parse, items, ys)
    ensures xs == ys
  {
    forall i | 0 <= i < |xs| ensures xs[i] == ys[i] {
      assert parse(items[i]) == Some(xs[i]) && parse(items[i]) == Some(ys[i]);
    }
  }

  /** The DNS items that are addresses and those that are not. */
  lemma NamesRead(v6: V6Text, es: seq<Entry>, ips: seq<Ip>, domains: seq<string>)
    ensures ips == Nameservers(v6, AllItems(es)) <==>
      AllRead(AddressOf(v6), Keep(IsAddress(v6), ItemsOf(Values(es))), ips)
    ensures Domains(v6, AllItems(es)) == Keep(IsNoAddress(v6), ItemsOf(Values(es)))
  {
    AllItemsAre(es);
    var items := AllItems(es);
    DomainsAre(v6, items);
    NameserversAre(v6, items);
    if AllRead(AddressOf(v6), Keep(IsAddress(v6), items), ips) {
      AllReadOnce(AddressOf(v6), Keep(IsAddress(v6), items), ips, Nameservers(v6, items));
    }
  }

  // ---- the whole -------------------------------------------------------------

  /** The entries found are what the lines set. */
  ghost predicate Found(shapes: seq<Line>, interface: seq<Entry>, peer: seq<Entry>) {
    && Values(GetAll(interface, "privatekey")) == ValuesOf(shapes, "interface", "privatekey")
    && Values(GetAll(interface, "address")) == ValuesOf(shapes, "interface", "address")
    && Values(GetAll(interface, "dns")) == ValuesOf(shapes, "interface", "dns")
    && Values(GetAll(interface, "mtu")) == ValuesOf(shapes, "interface", "mtu")
    && Values(GetAll(peer, "publickey")) == ValuesOf(shapes, "peer", "publickey")
    && Values(GetAll(peer, "presharedkey")) == ValuesOf(shapes, "peer", "presharedkey")
    && Values(GetAll(peer, "allowedips")) == ValuesOf(shapes, "peer", "allowedips")
    && Values(GetAll(peer, "persistentkeepalive")) == ValuesOf(shapes, "peer", "persistentkeepalive")
  }

  lemma FieldsRead(v6: V6Text, shapes: seq<Line>, interface: seq<Entry>, peer: seq<Entry>, c: ClientConfig)
    requires Found(shapes, interface, peer)
    ensures ReadFields(v6, LookUp(interface, peer)) == Ok(c) <==> Means(v6, shapes, c)
  {
    var allowed := GetAll(peer, "allowedips");
    KeyRead(interface, "privatekey", "PrivateKey", c.privateKey);
    KeyRead(peer, "publickey", "PublicKey", c.peerPublicKey);
    OptionalKeyRead(peer, "presharedkey", "PresharedKey", c.presharedKey);
    ListRead(CidrParser(v6), GetAll(interface, "address"), c.addresses);
    ListRead(CidrParser(v6), allowed, c.allowedIps);
    ListRead(CidrParser(v6), allowed, []);
    NamesRead(v6, GetAll(interface, "dns"), c.dns, c.searchDomains);
    NumberRead(interface, "mtu", U32_MAX, c.mtu);
    NumberRead(peer, "persistentkeepalive", U16_MAX, c.persistentKeepalive);
    AllowedRead(v6, allowed, c.allowedIps);
    AssembleIs(v6, LookUp(interface, peer), c);
  }

  /** A list of allowed prefixes that is there, or the default. */
  ghost predicate IsAllowed(r: Result<seq<Cidr>, Error>, cs: seq<Cidr>) {
    r.Ok? && cs == if r.value == [] then DEFAULT_ROUTES else r.value
  }

  lemma AllowedRead(v6: V6Text, es: seq<Entry>, cs: seq<Cidr>)
    ensures var items := ItemsOf(Values(es));
      IsAllowed(ParseList(CidrParser(v6), es), cs) <==>
        if items == [] then cs == [Cidr(V4(0), 0), Cidr(V6(0), 0)] else AllRead(CidrParser(v6), items, cs)
  {
    var r := ParseList(CidrParser(v6), es);
    ListRead(CidrParser(v6), es, cs);
    ListRead(CidrParser(v6), es, []);
    if r.Ok? {
      ListRead(CidrParser(v6), es, r.value);
    }
  }

  lemma AssembleIs(v6: V6Text, f: Fields, c: ClientConfig)
    ensures ReadFields(v6, f) == Ok(c) <==>
      && ParseKey(f.privateKey, "PrivateKey") == Ok(c.privateKey)
      && ParseKey(f.publicKey, "PublicKey") == Ok(c.peerPublicKey)
      && ParseOptionalKey(f.presharedKey, "PresharedKey") == Ok(c.presharedKey)
      && ParseList(CidrParser(v6), f.addresses) == Ok(c.addresses) && c.addresses != []
      && IsAllowed(ParseList(CidrParser(v6), f.allowedIps), c.allowedIps)
      && c.dns == Nameservers(v6, AllItems(f.dns)) && c.searchDomains == Domains(v6, AllItems(f.dns))
      && ParseScalar(f.mtu, U32_MAX) == Ok(c.mtu) && ParseScalar(f.keepalive, U16_MAX) == Ok(c.persistentKeepalive)
  {}

  lemma FollowsFromStart(shapes: seq<Line>, key: string)
    ensures Follows(shapes, 0, Sections([], [], Nowhere), key)
  {}

  lemma FoldedWell(shapes: seq<Line>, key: string)
    ensures var r := Fold(shapes, 1, Sections([], [], Nowhere));
      && (r.Ok? <==> forall j :: 0 <= j < |shapes| ==> InPlace(shapes, j))
      && (r.Ok? ==> Follows(shapes, |shapes|, r.value, key))
  {
    FollowsFromStart(shapes, key);
    FoldFollows(shapes, 0, Sections([], [], Nowhere), key);
    assert shapes[0..] == shapes;
  }

  lemma FoundFor(shapes: seq<Line>, st: Sections, key: string)
    requires Fold(shapes, 1, Sections([], [], Nowhere)) == Ok(st)
    ensures Values(GetAll(st.interface, key)) == ValuesOf(shapes, "interface", key)
    ensures Values(GetAll(Flat(st.peers), key)) == ValuesOf(shapes, "peer", key)
  {
    FoldedWell(shapes, key);
  }

  lemma AllFound(shapes: seq<Line>, st: Sections)
    requires Fold(shapes, 1, Sections([], [], Nowhere)) == Ok(st) && |st.peers| == 1
    ensures Found(shapes, st.interface, st.peers[0])
  {
    assert st.peers[..0] == [] && Flat(st.peers) == [] + st.peers[0] == st.peers[0];
    FoundFor(shapes, st, "privatekey");
    FoundFor(shapes, st, "address");
    FoundFor(shapes, st, "dns");
    FoundFor(shapes, st, "mtu");
    FoundFor(shapes, st, "publickey");
    FoundFor(shapes, st, "presharedkey");
    FoundFor(shapes, st, "allowedips");
    FoundFor(shapes, st, "persistentkeepalive");
  }

  /** The importer accepts a text, and reads it as `c`, exactly when its lines are in place and mean `c`. */
  lemma ParsedExactly(v6: V6Text, text: string, c: ClientConfig)
    ensures var shapes := ClassifyAll(Lines(text));
      Parse(v6, text) == Ok(c) <==> WellSectioned(shapes) && Means(v6, shapes, c)
  {
    var shapes := ClassifyAll(Lines(text));
    FoldedWell(shapes, "");
    var r := Fold(shapes, 1, Sections([], [], Nowhere));
    if r.Ok? && |r.value.peers| == 1 {
      AllFound(shapes, r.value);
      FieldsRead(v6, shapes, r.value.interface, r.value.peers[0], c);
    }
  }

  // ---- a second line with the same key ---------------------------------------

  /** The keys of which the first line counts. */
  predicate IsScalar(section: string, key: string) {
    || (section == "interface" && (key == "privatekey" || key == "mtu"))
    || (section == "peer" && (key == "publickey" || key == "presharedkey" || key == "persistentkeepalive"))
  }

  /** `more` is `shapes` with one line put in before the `p`th. */
  ghost predicate Inserted(shapes: seq<Line>, p: nat, line: Line, more: seq<Line>) {
    p <= |shapes| && more == shapes[..p] + [line] + shapes[p..]
  }

  lemma {:induction false} BeforeInserted(shapes: seq<Line>, p: nat, line: Line, more: seq<Line>, i: nat,
                                          section: string, key: string)
    requires Inserted(shapes, p, line, more) && i <= p
    ensures SectionAt(more, i) == SectionAt(shapes, i) && PeerHeaders(more, i) == PeerHeaders(shapes, i)
    ensures ValuesIn(more, section, key, i) == ValuesIn(shapes, section, key, i)
  {
    if i > 0 {
      assert more[i - 1] == shapes[i - 1];
      BeforeInserted(shapes, p, line, more, i - 1, section, key);
    }
  }

  /** Past a setting put into its section: the same sections, and its key has one value more. */
  lemma {:induction false} AfterInserted(shapes: seq<Line>, p: nat, line: Line, more: seq<Line>, i: nat,
                                         section: string, key: string)
    requires Inserted(shapes, p, line, more) && p <= i <= |shapes| && line.Pair?
    ensures SectionAt(more, i + 1) == SectionAt(shapes, i) && PeerHeaders(more, i + 1) == PeerHeaders(shapes, i)
    ensures !(Lower(line.key) == key && SectionAt(shapes, p) == Some(section)) ==>
      ValuesIn(more, section, key, i + 1) == ValuesIn(shapes, section, key, i)
    ensures ValuesIn(shapes, section, key, p) != [] ==>
      && ValuesIn(shapes, section, key, i) != [] && ValuesIn(more, section, key, i + 1) != []
      && ValuesIn(more, section, key, i + 1)[0] == ValuesIn(shapes, section, key, i)[0]
  {
    BeforeInserted(shapes, p, line, more, p, section, key);
    if i > p {
      assert more[i] == shapes[i - 1];
      AfterInserted(shapes, p, line, more, i - 1, section, key);
    } else {
      assert more[p] == line;
    }
  }

  lemma ValuesInserted(shapes: seq<Line>, p: nat, line: Line, more: seq<Line>, section: string, key: string)
    requires Inserted(shapes, p, line, more) && line.Pair?
    ensures !(Lower(line.key) == key && SectionAt(shapes, p) == Some(section)) ==>
      ValuesOf(more, section, key) == ValuesOf(shapes, section, key)
    ensures ValuesIn(shapes, section, key, p) != [] ==>
      && ValuesOf(shapes, section, key) != [] && ValuesOf(more, section, key) != []
      && ValuesOf(more, section, key)[0] == ValuesOf(shapes, section, key)[0]
  {
    AfterInserted(shapes, p, line, more, |shapes|, section, key);
  }

  lemma SectionedInserted(shapes: seq<Line>, p: nat, line: Line, more: seq<Line>)
    requires Inserted(shapes, p, line, more) && line.Pair? && SectionAt(shapes, p).Some? && WellSectioned(shapes)
    ensures WellSectioned(more)
  {
    AfterInserted(shapes, p, line, more, |shapes|, "", "");
    forall i | 0 <= i < |more| ensures InPlace(more, i) {
      if i <= p {
        BeforeInserted(shapes, p, line, more, i, "", "");
        assert i < p ==> more[i] == shapes[i] && InPlace(shapes, i);
      } else {
        AfterInserted(shapes, p, line, more, i - 1, "", "");
        assert more[i] == shapes[i - 1] && InPlace(shapes, i - 1);
      }
    }
  }

  /** The shapes of a text that has one line more. */
  lemma ShapesInserted(ls: seq<string>, p: nat, extra: string, ls': seq<string>)
    requires p <= |ls| && ls' == ls[..p] + [extra] + ls[p..]
    ensures Inserted(ClassifyAll(ls), p, Classify(extra), ClassifyAll(ls'))
  {
    var shapes, more := ClassifyAll(ls), ClassifyAll(ls');
    forall i | 0 <= i < |more| ensures more[i] == (shapes[..p] + [Classify(extra)] + shapes[p..])[i] {
      if i > p {
        assert ls'[i] == ls[i - 1];
      }
    }
  }

  /** A later line with a scalar key that its section has set already changes nothing. */
  lemma LaterLineIgnored(v6: V6Text, text: string, p: nat, extra: string, text': string, section: string)
    requires p <= |Lines(text)| && Lines(text') == Lines(text)[..p] + [extra] + Lines(text)[p..]
    requires Classify(extra).Pair? && IsScalar(section, Lower(Classify(extra).key))
    requires var shapes := ClassifyAll(Lines(text));
      SectionAt(shapes, p) == Some(section)
      && exists i :: 0 <= i < p && Sets(shapes, i, section, Lower(Classify(extra).key))
    requires Parse(v6, text).Ok?
    ensures Parse(v6, text') == Parse(v6, text)
  {
    var shapes, more, line := ClassifyAll(Lines(text)), ClassifyAll(Lines(text')), Classify(extra);
    var c := Parse(v6, text).value;
    ShapesInserted(Lines(text), p, extra, Lines(text'));
    ParsedExactly(v6, text, c);
    var i :| 0 <= i < p && Sets(shapes, i, section, Lower(line.key));
    LineInserted(v6, shapes, p, line, more, section, i, c);
    ParsedExactly(v6, text', c);
  }

  lemma LineInserted(v6: V6Text, shapes: seq<Line>, p: nat, line: Line, more: seq<Line>, section: string, i: nat,
                     c: ClientConfig)
    requires Inserted(shapes, p, line, more) && line.Pair? && SectionAt(shapes, p) == Some(section)
    requires IsScalar(section, Lower(line.key)) && i < p && Sets(shapes, i, section, Lower(line.key))
    requires WellSectioned(shapes) && Means(v6, shapes, c)
    ensures WellSectioned(more) && Means(v6, more, c)
  {
    SetEarlier(shapes, i, p, section, Lower(line.key));
    SectionedInserted(shapes, p, line, more);
    MeansInserted(v6, shapes, p, line, more, section, c);
  }

  lemma {:induction false} SetEarlier(shapes: seq<Line>, i: nat, n: nat, section: string, key: string)
    requires i < n <= |shapes| && Sets(shapes, i, section, key)
    ensures ValuesIn(shapes, section, key, n) != []
  {
    if i < n - 1 {
      SetEarlier(shapes, i, n - 1, section, key);
    }
  }

  lemma MeansInserted(v6: V6Text, shapes: seq<Line>, p: nat, line: Line, more: seq<Line>, section: string,
                      c: ClientConfig)
    requires Inserted(shapes, p, line, more) && line.Pair? && SectionAt(shapes, p) == Some(section)
    requires IsScalar(section, Lower(line.key)) && ValuesIn(shapes, section, Lower(line.key), p) != []
    requires Means(v6, shapes, c)
    ensures Means(v6, more, c)
  {
    KeysApart();
    ValuesInserted(shapes, p, line, more, "interface", "privatekey");
    ValuesInserted(shapes, p, line, more, "interface", "address");
    ValuesInserted(shapes, p, line, more, "interface", "dns");
    ValuesInserted(shapes, p, line, more, "interface", "mtu");
    ValuesInserted(shapes, p, line, more, "peer", "publickey");
    ValuesInserted(shapes, p, line, more, "peer", "presharedkey");
    ValuesInserted(shapes, p, line, more, "peer", "allowedips");
    ValuesInserted(shapes, p, line, more, "peer", "persistentkeepalive");
  }

  /** No list is a scalar. */
  lemma KeysApart()
    ensures !IsScalar("interface", "address") && !IsScalar("interface", "dns") && !IsScalar("peer", "allowedips")
  {
    SectionNames();
    assert |"address"| == 7 && |"privatekey"| == 10 && |"dns"| == 3 && |"mtu"| == 3 && |"allowedips"| == 10;
    assert |"publickey"| == 9 && |"presharedkey"| == 12 && |"persistentkeepalive"| == 19;
    assert "dns"[0] != "mtu"[0];
  }
}
