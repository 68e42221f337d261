/** Destinations kept out of the tunnel: what is planned, installed and withdrawn. */
module Bypass {
  import opened Wrappers
  import opened Text
  import opened Address
  import opened Sorting

  datatype Via = Device(device: string) | Gateway(gateway: string, device: string)
  datatype Route = Route(destination: string, via: Via)
  datatype DefaultRoute = DefaultRoute(gateway: string, device: string, v6: bool)

  // ---- routes of other VPNs --------------------------------------------------

  const VPN_INTERFACES: seq<string> := ["tailscale", "tun", "tap", "wg", "ppp", "zt"]
  const NEVER_MIRROR: seq<string> := ["fe80:", "ff00:", "169.254.", "224.0.0."]
  const NOT_DESTINATIONS: set<string> := {"default", "multicast", "local", "broadcast", "unreachable", "prohibit"}

  predicate StartsWithAny(s: string, prefixes: seq<string>) {
    exists p :: p in prefixes && p <= s
  }

  /** The word after the last `dev` of a routing-table line. */
  function DeviceOf(tokens: seq<string>, found: Option<string>): Option<string>
    decreases |tokens|
  {
    if tokens == [] then found
    else if tokens[0] != "dev" then DeviceOf(tokens[1..], found)
    else if |tokens| == 1 then None
    else DeviceOf(tokens[2..], Some(tokens[1]))
  }

  /** The route a line of the tables contributes, if it belongs to another VPN. */
  function Mirror(tokens: seq<string>, ours: string): Option<Route> {
    if tokens == [] || tokens[0] in NOT_DESTINATIONS || StartsWithAny(tokens[0], NEVER_MIRROR) then None
    else
      match DeviceOf(tokens, None)
      case None => None
      case Some(dev) =>
        if dev == ours || !StartsWithAny(dev, VPN_INTERFACES) then None else Some(Route(tokens[0], Device(dev)))
  }

  /** The first route of another VPN for each destination not yet `seen`. */
  function OtherVpns(lines: seq<seq<string>>, ours: string, seen: set<string>): seq<Route> {
    if lines == [] then []
    else
      match Mirror(lines[0], ours)
      case Some(r) =>
        if r.destination in seen then OtherVpns(lines[1..], ours, seen)
        else [r] + OtherVpns(lines[1..], ours, seen + {r.destination})
      case None => OtherVpns(lines[1..], ours, seen)
  }

  method CollectOtherVpns(lines: seq<seq<string>>, ours: string) returns (out: seq<Route>)
    ensures out == OtherVpns(lines, ours, {})
  {
    var seen: set<string> := {};
    out := [];
    assert lines[0..] == lines;
    for i := 0 to |lines|
      invariant OtherVpns(lines, ours, {}) == out + OtherVpns(lines[i..], ours, seen)
    {
      assert lines[i..][0] == lines[i] && lines[i..][1..] == lines[i + 1..];
      match Mirror(lines[i], ours)
      case Some(r) =>
        if r.destination !in seen {
          Associative(out, [r], OtherVpns(lines[i + 1..], ours, seen + {r.destination}));
          seen := seen + {r.destination};
          out := out + [r];
        }
      case None =>
    }
  }

  function Dest(): Route -> string {
    (r: Route) => r.destination
  }

  /** Each destination once, and every route a device of another VPN, never ours. */
  lemma {:induction false} OtherVpnsDistinct(lines: seq<seq<string>>, ours: string, seen: set<string>)
    ensures var out := OtherVpns(lines, ours, seen);
      && DistinctBy(Dest(), out)
      && (forall r :: r in out ==> r.destination !in seen && r.destination !in NOT_DESTINATIONS)
      && (forall r :: r in out ==> r.via.Device? && r.via.device != ours && StartsWithAny(r.via.device, VPN_INTERFACES))
  {
    if lines != [] {
      match Mirror(lines[0], ours)
      case Some(r) => OtherVpnsDistinct(lines[1..], ours,
        if r.destination in seen then seen else seen + {r.destination});
      case None => OtherVpnsDistinct(lines[1..], ours, seen);
      assert forall i :: 0 <= i < |OtherVpns(lines[1..], ours, seen)| ==>
        OtherVpns(lines[1..], ours, seen)[i] in OtherVpns(lines[1..], ours, seen);
    }
  }

  /** The `i`th word announces a device: it is `dev`, and not itself the name of one. */
  predicate Announces(tokens: seq<string>, i: nat)
    requires i < |tokens|
  {
    tokens[i] == "dev" && (i == 0 || !Announces(tokens, i - 1))
  }

  predicate LastToAnnounce(tokens: seq<string>, i: nat) {
    i < |tokens| && Announces(tokens, i) && forall j :: i < j < |tokens| ==> !Announces(tokens, j)
  }

  lemma {:induction false} DeviceFrom(tokens: seq<string>, k: nat, found: Option<string>)
    requires k <= |tokens| && (k > 0 ==> !Announces(tokens, k - 1))
    ensures forall i: nat :: i >= k && LastToAnnounce(tokens, i) ==>
      DeviceOf(tokens[k..], found) == if i + 1 < |tokens| then Some(tokens[i + 1]) else None
    ensures (forall i :: k <= i < |tokens| ==> !Announces(tokens, i)) ==> DeviceOf(tokens[k..], found) == found
    decreases |tokens| - k
  {
    if k < |tokens| {
      var rest := tokens[k..];
      assert rest[0] == tokens[k] && rest[1..] == tokens[k + 1..];
      if tokens[k] != "dev" {
        DeviceFrom(tokens, k + 1, found);
      } else if k + 1 < |tokens| {
        assert rest[1] == tokens[k + 1] && rest[2..] == tokens[k + 2..];
        assert Announces(tokens, k) && !Announces(tokens, k + 1);
        DeviceFrom(tokens, k + 2, Some(tokens[k + 1]));
      } else {
        assert Announces(tokens, k);
      }
    }
  }

  lemma {:induction false} SomeLast(tokens: seq<string>, i: nat) returns (last: nat)
    requires i < |tokens| && Announces(tokens, i)
    ensures LastToAnnounce(tokens, last)
    decreases |tokens| - i
  {
    if j :| i < j < |tokens| && Announces(tokens, j) {
      last := SomeLast(tokens, j);
    } else {
      last := i;
    }
  }

  predicate StartsWithOneOf(s: string, a: string, b: string, c: string, d: string) {
    a <= s || b <= s || c <= s || d <= s
  }

  /** A line contributes the route to its first word by the last device it names, if that word is a destination and the
      device that of another VPN. */
  lemma MirrorExactly(tokens: seq<string>, ours: string, r: Route)
    ensures Mirror(tokens, ours) == Some(r) <==>
      && tokens != [] && r.destination == tokens[0]
      && tokens[0] !in {"default", "multicast", "local", "broadcast", "unreachable", "prohibit"}
      && !StartsWithOneOf(tokens[0], "fe80:", "ff00:", "169.254.", "224.0.0.")
      && exists i: nat :: LastToAnnounce(tokens, i) && i + 1 < |tokens| && r.via == Device(tokens[i + 1])
           && tokens[i + 1] != ours
           && (StartsWithOneOf(tokens[i + 1], "tailscale", "tun", "tap", "wg")
               || "ppp" <= tokens[i + 1] || "zt" <= tokens[i + 1])
  {
    DeviceFrom(tokens, 0, None);
    assert tokens[0..] == tokens;
    if i :| 0 <= i < |tokens| && Announces(tokens, i) {
      var last := SomeLast(tokens, i);
    }
    if tokens != [] {
      NeverMirrored(tokens[0]);
    }
    forall i | 0 <= i < |tokens| ensures StartsWithAny(tokens[i], VPN_INTERFACES) <==>
        StartsWithOneOf(tokens[i], "tailscale", "tun", "tap", "wg") || "ppp" <= tokens[i] || "zt" <= tokens[i]
    {
      VpnInterface(tokens[i]);
    }
  }

  lemma NeverMirrored(s: string)
    ensures StartsWithAny(s, NEVER_MIRROR) <==> StartsWithOneOf(s, "fe80:", "ff00:", "169.254.", "224.0.0.")
  {
    assert NEVER_MIRROR[0] in NEVER_MIRROR && NEVER_MIRROR[1] in NEVER_MIRROR;
    assert NEVER_MIRROR[2] in NEVER_MIRROR && NEVER_MIRROR[3] in NEVER_MIRROR;
  }

  lemma VpnInterface(s: string)
    ensures StartsWithAny(s, VPN_INTERFACES) <==>
      StartsWithOneOf(s, "tailscale", "tun", "tap", "wg") || "ppp" <= s || "zt" <= s
  {
    assert VPN_INTERFACES[0] in VPN_INTERFACES && VPN_INTERFACES[1] in VPN_INTERFACES;
    assert VPN_INTERFACES[2] in VPN_INTERFACES && VPN_INTERFACES[3] in VPN_INTERFACES;
    assert VPN_INTERFACES[4] in VPN_INTERFACES && VPN_INTERFACES[5] in VPN_INTERFACES;
  }

  /** The `i`th line is the first to contribute a route to its destination. */
  predicate FirstMirrored(lines: seq<seq<string>>, ours: string, i: nat, r: Route) {
    && i < |lines| && Mirror(lines[i], ours) == Some(r)
    && forall j :: 0 <= j < i ==>
         Mirror(lines[j], ours).None? || Mirror(lines[j], ours).value.destination != r.destination
  }

  /** Collected is exactly the first route of another VPN to each destination not seen yet. */
  lemma {:induction false} OtherVpnsExactly(lines: seq<seq<string>>, ours: string, seen: set<string>, r: Route)
    ensures r in OtherVpns(lines, ours, seen) <==>
      r.destination !in seen && exists i: nat :: FirstMirrored(lines, ours, i, r)
  {
    if lines != [] {
      var rest, head := lines[1..], Mirror(lines[0], ours);
      if head == Some(r) {
        assert FirstMirrored(lines, ours, 0, r);
      }
      OtherVpnsExactly(rest, ours, if head.Some? then seen + {head.value.destination} else seen, r);
      assert head.Some? && head.value.destination in seen ==> seen + {head.value.destination} == seen;
      if i: nat :| FirstMirrored(rest, ours, i, r) && (head.None? || head.value.destination != r.destination) {
        assert lines[i + 1] == rest[i] && forall j :: 0 < j <= i ==> lines[j] == rest[j - 1];
        assert FirstMirrored(lines, ours, i + 1, r);
      }
      if i: nat :| FirstMirrored(lines, ours, i, r) && i > 0 {
        assert lines[i] == rest[i - 1] && forall j :: 0 <= j < i - 1 ==> rest[j] == lines[j + 1];
        assert FirstMirrored(rest, ours, i - 1, r);
      }
    }
  }

  // ---- the plan --------------------------------------------------------------

  function ViaGateway(destination: string, gateways: seq<DefaultRoute>): Option<Route> {
    if gateways == [] then None
    else if gateways[0].v6 == IsV6Text(destination) then
      Some(Route(destination, Gateway(gateways[0].gateway, gateways[0].device)))
    else ViaGateway(destination, gateways[1..])
  }

  lemma {:induction false} ViaGatewayIs(destination: string, gateways: seq<DefaultRoute>)
    ensures var r := ViaGateway(destination, gateways); r.Some? ==>
      r.value.destination == destination && r.value.via.Gateway?
  {
    if gateways != [] {
      ViaGatewayIs(destination, gateways[1..]);
    }
  }

  function ThroughGateways(destinations: seq<string>, gateways: seq<DefaultRoute>): seq<Route> {
    if destinations == [] then []
    else
      var r := ViaGateway(destinations[0], gateways);
      (if r.Some? then [r.value] else []) + ThroughGateways(destinations[1..], gateways)
  }

  predicate DestBefore(a: Route, b: Route) {
    TextLe(a.destination, b.destination)
  }

  function ByDestination(): (Route, Route) -> bool {
    (a: Route, b: Route) => DestBefore(a, b)
  }

  lemma ByDestinationIsTotal()
    ensures Total(ByDestination()) && Transitive(ByDestination())
  {
    forall a: Route, b: Route ensures ByDestination()(a, b) || ByDestination()(b, a) {
      TextTotal(a.destination, b.destination);
    }
    forall a: Route, b: Route, c: Route | ByDestination()(a, b) && ByDestination()(b, c) ensures ByDestination()(a, c) {
      TextTransitive(a.destination, b.destination, c.destination);
    }
  }

  /** `Vec::dedup`: a run of equal neighbours becomes one. */
  function Dedup(rs: seq<Route>): seq<Route> {
    if |rs| < 2 then rs
    else if rs[0] == rs[1] then Dedup(rs[1..])
    else [rs[0]] + Dedup(rs[1..])
  }

  /** The routes of other VPNs, then what goes through the gateways: sorted by destination, deduplicated. */
  function Plan(others: seq<Route>, wanted: seq<string>, gateways: seq<DefaultRoute>): seq<Route> {
    Dedup(Sort(ByDestination(), others + ThroughGateways(wanted, gateways)))
  }

  method MakePlan(lines: seq<seq<string>>, ours: string, otherVpns: bool, lan: bool, lanRanges: seq<string>,
                  cidrs: seq<string>, resolved: seq<string>, gateways: seq<DefaultRoute>) returns (routes: seq<Route>)
    ensures routes == Plan(if otherVpns then OtherVpns(lines, ours, {}) else [],
                           (if lan then lanRanges else []) + cidrs + resolved, gateways)
  {
    routes := [];
    if otherVpns {
      routes := CollectOtherVpns(lines, ours);
    }
    var more := [];
    if lan {
      more := PushAll(more, [], lanRanges, gateways);
    }
    ghost var local := if lan then lanRanges else [];
    assert [] + lanRanges == lanRanges;
    more := PushAll(more, local, cidrs, gateways);
    more := PushAll(more, local + cidrs, resolved, gateways);
    routes := Sort(ByDestination(), routes + more);
    routes := Dedup(routes);
  }

  method PushAll(out: seq<Route>, ghost before: seq<string>, destinations: seq<string>, gateways: seq<DefaultRoute>)
    returns (out': seq<Route>)
    requires out == ThroughGateways(before, gateways)
    ensures out' == ThroughGateways(before + destinations, gateways)
  {
    out' := out;
    assert before + destinations[..0] == before;
    for i := 0 to |destinations|
      invariant out' == ThroughGateways(before + destinations[..i], gateways)
    {
      var d := destinations[i];
      ThroughAppend(before + destinations[..i], [d], gateways);
      assert before + destinations[..i + 1] == before + destinations[..i] + [d] && [d][1..] == [];
      var r := ViaGateway(d, gateways);
      if r.Some? {
        out' := out' + [r.value];
      }
    }
    assert destinations[..|destinations|] == destinations;
  }

  lemma {:induction false} ThroughAppend(a: seq<string>, b: seq<string>, gateways: seq<DefaultRoute>)
    ensures ThroughGateways(a + b, gateways) == ThroughGateways(a, gateways) + ThroughGateways(b, gateways)
  {
    if a == [] {
      assert a + b == b;
    } else {
      ThroughAppend(a[1..], b, gateways);
      assert (a + b)[0] == a[0] && (a + b)[1..] == a[1..] + b;
      var r := ViaGateway(a[0], gateways);
      Associative(if r.Some? then [r.value] else [], ThroughGateways(a[1..], gateways), ThroughGateways(b, gateways));
    }
  }

  // ---- what the plan holds ---------------------------------------------------

  function To(destination: string): Route -> bool {
    (r: Route) => r.destination == destination
  }

  lemma {:induction false} GatewayGroup(wanted: seq<string>, gateways: seq<DefaultRoute>, d: string)
    ensures forall r :: r in Keep(To(d), ThroughGateways(wanted, gateways)) ==> Some(r) == ViaGateway(d, gateways)
    ensures forall r :: r in ThroughGateways(wanted, gateways) ==> r.via.Gateway?
  {
    if wanted != [] {
      GatewayGroup(wanted[1..], gateways, d);
      ViaGatewayIs(wanted[0], gateways);
      var r := ViaGateway(wanted[0], gateways);
      var head := if r.Some? then [r.value] else [];
      KeepAppend(To(d), head, ThroughGateways(wanted[1..], gateways));
      KeepMembers(To(d), head);
    }
  }

  lemma {:induction false} DistinctGroup(rs: seq<Route>, d: string)
    requires DistinctBy(Dest(), rs)
    ensures |Keep(To(d), rs)| <= 1
  {
    if rs != [] {
      var rest := rs[1..];
      assert forall i :: 0 <= i < |rest| ==> rest[i] == rs[i + 1];
      DistinctGroup(rest, d);
      if rs[0].destination == d {
        forall i | 0 <= i < |rest| ensures rest[i].destination != d {
          assert Dest()(rs[0]) != Dest()(rs[i + 1]);
        }
        KeepNone(To(d), rest);
      }
    }
  }

  /** In a list sorted by destination, deduplicating and picking one destination commute. */
  lemma {:induction false} DedupGroup(rs: seq<Route>, d: string)
    requires Sorted(ByDestination(), rs)
    ensures Keep(To(d), Dedup(rs)) == Dedup(Keep(To(d), rs))
    ensures rs != [] ==> Dedup(rs) != []
  {
    if |rs| < 2 {
      if |rs| == 1 {
        assert rs[1..] == [];
      }
    } else {
      var rest := rs[1..];
      SortedTail(ByDestination(), rs);
      DedupGroup(rest, d);
      var kept := Keep(To(d), rest);
      assert Keep(To(d), rs) == (if rs[0].destination == d then [rs[0]] else []) + kept;
      if rs[0].destination == d {
        if rest[0].destination == d {
          assert kept[0] == rest[0];
          assert Keep(To(d), rs)[1..] == kept;
        } else {
          NothingBeyond(rs, d);
          assert Keep(To(d), rs) == [rs[0]];
        }
      } else {
        assert Keep(To(d), rs) == kept;
      }
    }
  }

  lemma NothingBeyond(rs: seq<Route>, d: string)
    requires Sorted(ByDestination(), rs) && |rs| >= 2 && rs[0].destination == d && rs[1].destination != d
    ensures Keep(To(d), rs[1..]) == []
  {
    forall i | 1 <= i < |rs| ensures rs[i].destination != d {
      TextTotal(d, rs[1].destination);
      assert ByDestination()(rs[0], rs[1]);
      assert i > 1 ==> ByDestination()(rs[1], rs[i]);
    }
    KeepNone(To(d), rs[1..]);
  }

  lemma {:induction false} DedupSame(rs: seq<Route>, r: Route)
    requires rs != [] && forall i :: 0 <= i < |rs| ==> rs[i] == r
    ensures Dedup(rs) == [r]
  {
    if |rs| > 1 {
      DedupSame(rs[1..], r);
    } else {
      assert rs == [r];
    }
  }

  /** What is planned for one destination: at most one device route, then at most one gateway route. */
  predicate Shape(rs: seq<Route>) {
    || rs == []
    || (|rs| == 1)
    || (|rs| == 2 && rs[0].via.Device? && rs[1].via.Gateway?)
  }

  /** For one destination the plan is the device route, if any, then the gateway route, if any. */
  lemma PlanGroup(others: seq<Route>, wanted: seq<string>, gateways: seq<DefaultRoute>, d: string)
    requires DistinctBy(Dest(), others) && forall r :: r in others ==> r.via.Device?
    ensures var a, b := Keep(To(d), others), Keep(To(d), ThroughGateways(wanted, gateways));
      Keep(To(d), Plan(others, wanted, gateways)) == a + (if b == [] then [] else [b[0]]) && |a| <= 1
  {
    var g := ThroughGateways(wanted, gateways);
    GroupSorted(others + g, d);
    KeepAppend(To(d), others, g);
    KeepMembers(To(d), others);
    KeepMembers(To(d), g);
    DistinctGroup(others, d);
    GatewayGroup(wanted, gateways, d);
    GroupDedup(Keep(To(d), others), Keep(To(d), g), ViaGateway(d, gateways));
  }

  /** Sorting and deduplicating a list deduplicates each destination's routes in their first order. */
  lemma GroupSorted(raw: seq<Route>, d: string)
    ensures Keep(To(d), Dedup(Sort(ByDestination(), raw))) == Dedup(Keep(To(d), raw))
  {
    ByDestinationIsTotal();
    SortSorted(ByDestination(), raw);
    forall x, y | x in raw && y in raw && To(d)(x) && To(d)(y) ensures ByDestination()(x, y) {
      TextTotal(x.destination, y.destination);
    }
    SortStable(ByDestination(), To(d), raw);
    DedupGroup(Sort(ByDestination(), raw), d);
  }

  lemma GroupDedup(a: seq<Route>, b: seq<Route>, g: Option<Route>)
    requires |a| <= 1 && (forall r :: r in a ==> r.via.Device?)
    requires forall r :: r in b ==> Some(r) == g && r.via.Gateway?
    ensures Dedup(a + b) == a + (if b == [] then [] else [b[0]])
  {
    if b != [] {
      forall i | 0 <= i < |b| ensures b[i] == b[0] && b[i].via.Gateway? {
        assert b[i] in b && b[0] in b;
      }
      DedupSame(b, b[0]);
      if a == [] {
        assert a + b == b;
      } else {
        assert a[0] in a;
        assert (a + b)[0] == a[0] && (a + b)[1] == b[0] && (a + b)[1..] == b;
      }
    } else {
      assert a + b == a;
    }
  }

  /** The `k`th default route is the first of that family. */
  predicate FirstOfFamily(gateways: seq<DefaultRoute>, v6: bool, k: nat) {
    k < |gateways| && gateways[k].v6 == v6 && forall j :: 0 <= j < k ==> gateways[j].v6 != v6
  }

  /** A wanted destination through the first default route of its family. */
  ghost predicate GoesThrough(r: Route, wanted: seq<string>, gateways: seq<DefaultRoute>) {
    && r.destination in wanted
    && exists k: nat :: FirstOfFamily(gateways, ':' in r.destination, k)
                        && r.via == Gateway(gateways[k].gateway, gateways[k].device)
  }

  lemma {:induction false} ViaGatewayExactly(d: string, gateways: seq<DefaultRoute>, r: Route)
    ensures ViaGateway(d, gateways) == Some(r) <==> GoesThrough(r, [d], gateways)
  {
    if gateways != [] {
      var rest := gateways[1..];
      ViaGatewayExactly(d, rest, r);
      if gateways[0].v6 == (':' in d) {
        assert FirstOfFamily(gateways, ':' in d, 0);
      } else {
        if k: nat :| FirstOfFamily(rest, ':' in d, k) {
          assert gateways[k + 1] == rest[k] && forall j :: 0 < j <= k ==> gateways[j] == rest[j - 1];
          assert FirstOfFamily(gateways, ':' in d, k + 1);
        }
        if k: nat :| FirstOfFamily(gateways, ':' in d, k) {
          assert gateways[k] == rest[k - 1] && forall j :: 0 <= j < k - 1 ==> rest[j] == gateways[j + 1];
          assert FirstOfFamily(rest, ':' in d, k - 1);
        }
      }
    }
  }

  lemma {:induction false} ThroughGatewaysExactly(wanted: seq<string>, gateways: seq<DefaultRoute>, r: Route)
    ensures r in ThroughGateways(wanted, gateways) <==> GoesThrough(r, wanted, gateways)
  {
    if wanted != [] {
      ThroughGatewaysExactly(wanted[1..], gateways, r);
      ViaGatewayExactly(wanted[0], gateways, r);
    }
  }

  lemma {:induction false} DedupMembers(rs: seq<Route>, r: Route)
    ensures r in Dedup(rs) <==> r in rs
  {
    if |rs| >= 2 {
      DedupMembers(rs[1..], r);
    }
  }

  /** The plan is the routes of other VPNs and, for each destination wanted that has a default route of its family, the
      route through the first of those; nothing else. */
  lemma PlanHoldsExactly(others: seq<Route>, wanted: seq<string>, gateways: seq<DefaultRoute>, r: Route)
    ensures r in Plan(others, wanted, gateways) <==> r in others || GoesThrough(r, wanted, gateways)
  {
    var raw := others + ThroughGateways(wanted, gateways);
    SortPermutes(ByDestination(), raw);
    SameElements(Sort(ByDestination(), raw), raw);
    DedupMembers(Sort(ByDestination(), raw), r);
    ThroughGatewaysExactly(wanted, gateways, r);
  }

  /** Every destination is planned for with the routes of other VPNs first, and nothing twice. */
  lemma PlanShape(others: seq<Route>, wanted: seq<string>, gateways: seq<DefaultRoute>, d: string)
    requires DistinctBy(Dest(), others) && forall r :: r in others ==> r.via.Device?
    ensures Shape(Keep(To(d), Plan(others, wanted, gateways)))
  {
    PlanGroup(others, wanted, gateways, d);
    KeepMembers(To(d), others);
    KeepMembers(To(d), ThroughGateways(wanted, gateways));
    GatewayGroup(wanted, gateways, d);
    var a, b := Keep(To(d), others), Keep(To(d), ThroughGateways(wanted, gateways));
    if a != [] {
      assert a[0] in a;
    }
    if b != [] {
      assert b[0] in b;
    }
  }

  /** The plan holds no route twice, although it is sorted on the destination alone. */
  lemma PlanHasNoDuplicates(others: seq<Route>, wanted: seq<string>, gateways: seq<DefaultRoute>)
    requires DistinctBy(Dest(), others) && forall r :: r in others ==> r.via.Device?
    ensures var plan := Plan(others, wanted, gateways); forall i, j :: 0 <= i < j < |plan| ==> plan[i] != plan[j]
  {
    var plan := Plan(others, wanted, gateways);
    forall i, j | 0 <= i < j < |plan| ensures plan[i] != plan[j] {
      if plan[i] == plan[j] {
        var r := plan[i];
        PlanShape(others, wanted, gateways, r.destination);
        KeepCounts(To(r.destination), plan, r);
        TwiceCounted(plan, i, j);
        OnceInShape(Keep(To(r.destination), plan), r);
      }
    }
  }

  lemma TwiceCounted(rs: seq<Route>, i: nat, j: nat)
    requires i < j < |rs| && rs[i] == rs[j]
    ensures multiset(rs)[rs[i]] >= 2
  {
    assert rs == rs[..i] + [rs[i]] + rs[i + 1..j] + [rs[j]] + rs[j + 1..];
  }

  lemma OnceInShape(rs: seq<Route>, r: Route)
    requires Shape(rs)
    ensures multiset(rs)[r] <= 1
  {
    if |rs| == 1 {
      assert rs == [rs[0]];
    } else if |rs| == 2 {
      assert rs == [rs[0], rs[1]];
    }
  }

  // ---- installing and withdrawing --------------------------------------------

  /** The main table: one route a prefix, whatever the spelling. */
  type Table = map<Cidr, Via>

  /** Install in order: a destination already routed is left alone, the others are added
      when the kernel `accepts` them, and only those are recorded. */
  function Install(main: Table, plan: seq<Route>, denote: string -> Cidr, accepts: seq<bool>): (Table, seq<Route>)
    requires |accepts| == |plan|
    decreases |plan|
  {
    if plan == [] then (main, [])
    else
      var r, key := plan[0], denote(plan[0].destination);
      if key in main || !accepts[0] then Install(main, plan[1..], denote, accepts[1..])
      else
        var (main', installed) := Install(main[key := r.via], plan[1..], denote, accepts[1..]);
        (main', [r] + installed)
  }

  /** Withdraw what was installed, where the kernel obliges. */
  function Withdraw(main: Table, installed: seq<Route>, denote: string -> Cidr, obliges: seq<bool>): Table
    requires |obliges| == |installed|
    decreases |installed|
  {
    if installed == [] then main
    else
      Withdraw(if obliges[0] then main - {denote(installed[0].destination)} else main,
               installed[1..], denote, obliges[1..])
  }

  lemma {:induction false} InstallAppend(main: Table, a: seq<Route>, b: seq<Route>, denote: string -> Cidr,
                                         forA: seq<bool>, forB: seq<bool>)
    requires |forA| == |a| && |forB| == |b|
    ensures var (main1, first) := Install(main, a, denote, forA);
      var (main2, second) := Install(main1, b, denote, forB);
      Install(main, a + b, denote, forA + forB) == (main2, first + second)
    decreases |a|
  {
    if a == [] {
      assert a + b == b && forA + forB == forB;
      assert [] + Install(main, b, denote, forB).1 == Install(main, b, denote, forB).1;
    } else {
      assert (a + b)[0] == a[0] && (a + b)[1..] == a[1..] + b;
      assert (forA + forB)[0] == forA[0] && (forA + forB)[1..] == forA[1..] + forB;
      var r, key := a[0], denote(a[0].destination);
      var next := if key in main || !forA[0] then main else main[key := r.via];
      InstallAppend(next, a[1..], b, denote, forA[1..], forB);
      var (main1, first) := Install(next, a[1..], denote, forA[1..]);
      Associative([r], first, Install(main1, b, denote, forB).1);
    }
  }

  lemma {:induction false} WithdrawAppend(main: Table, a: seq<Route>, b: seq<Route>, denote: string -> Cidr,
                                          forA: seq<bool>, forB: seq<bool>)
    requires |forA| == |a| && |forB| == |b|
    ensures Withdraw(main, a + b, denote, forA + forB) == Withdraw(Withdraw(main, a, denote, forA), b, denote, forB)
    decreases |a|
  {
    if a == [] {
      assert a + b == b && forA + forB == forB;
    } else {
      assert (a + b)[0] == a[0] && (a + b)[1..] == a[1..] + b;
      assert (forA + forB)[0] == forA[0] && (forA + forB)[1..] == forA[1..] + forB;
      WithdrawAppend(if forA[0] then main - {denote(a[0].destination)} else main, a[1..], b, denote, forA[1..], forB);
    }
  }

  function Keys(rs: seq<Route>, denote: string -> Cidr): set<Cidr> {
    set r | r in rs :: denote(r.destination)
  }

  /** What is installed is new to the table, one route a destination, and the rest of the table is as it was. */
  lemma {:induction false} InstallAdds(main: Table, plan: seq<Route>, denote: string -> Cidr, accepts: seq<bool>)
    requires |accepts| == |plan|
    ensures var (main', installed) := Install(main, plan, denote, accepts);
      && main'.Keys == main.Keys + Keys(installed, denote) && main.Keys !! Keys(installed, denote)
      && (forall k :: k in main ==> main'[k] == main[k])
      && (forall r :: r in installed ==> r in plan && main'[denote(r.destination)] == r.via)
      && (forall i, j :: 0 <= i < j < |installed| ==>
        denote(installed[i].destination) != denote(installed[j].destination))
    decreases |plan|
  {
    if plan != [] {
      var r, key := plan[0], denote(plan[0].destination);
      if key in main || !accepts[0] {
        InstallAdds(main, plan[1..], denote, accepts[1..]);
      } else {
        InstallAdds(main[key := r.via], plan[1..], denote, accepts[1..]);
        var (main', rest) := Install(main[key := r.via], plan[1..], denote, accepts[1..]);
        assert Keys([r] + rest, denote) == {key} + Keys(rest, denote);
        forall i | 0 <= i < |rest| ensures denote(rest[i].destination) != key {
          assert rest[i] in rest;
          assert denote(rest[i].destination) in Keys(rest, denote);
        }
      }
    }
  }

  /** For a destination the table did not know, the first route of the plan the kernel accepts wins. */
  lemma {:induction false} FirstAcceptedWins(main: Table, plan: seq<Route>, denote: string -> Cidr,
                                             accepts: seq<bool>, i: nat)
    requires |accepts| == |plan| && i < |plan| && accepts[i]
    requires denote(plan[i].destination) !in main
    requires forall j :: 0 <= j < i && denote(plan[j].destination) == denote(plan[i].destination) ==> !accepts[j]
    ensures var (main', installed) := Install(main, plan, denote, accepts);
      denote(plan[i].destination) in main' && main'[denote(plan[i].destination)] == plan[i].via && plan[i] in installed
    decreases |plan|
  {
    var r, key := plan[0], denote(plan[0].destination);
    if i == 0 {
      InstallAdds(main[key := r.via], plan[1..], denote, accepts[1..]);
    } else {
      var main1 := if key in main || !accepts[0] then main else main[key := r.via];
      assert plan[1..][i - 1] == plan[i] && accepts[1..][i - 1] == accepts[i];
      assert forall j :: 0 <= j < i - 1 ==> plan[1..][j] == plan[j + 1] && accepts[1..][j] == accepts[j + 1];
      FirstAcceptedWins(main1, plan[1..], denote, accepts[1..], i - 1);
    }
  }

  /** Two picked elements are picked in their order. */
  lemma PickedInOrder(rs: seq<Route>, d: string, j: nat, i: nat)
    requires j < i < |rs| && rs[j].destination == d && rs[i].destination == d
    ensures |Keep(To(d), rs)| >= 2
    ensures |Keep(To(d), rs)| == 2 ==> Keep(To(d), rs)[1] == rs[i]
  {
    var a, b, c := rs[..j], rs[j + 1..i], rs[i + 1..];
    assert rs == a + ([rs[j]] + (b + ([rs[i]] + c)));
    KeepAppend(To(d), a, [rs[j]] + (b + ([rs[i]] + c)));
    KeepCons(To(d), rs[j], b + ([rs[i]] + c));
    KeepAppend(To(d), b, [rs[i]] + c);
    KeepCons(To(d), rs[i], c);
  }

  /** Another VPN's route to a destination wins over our gateway whenever the kernel accepts it. */
  lemma OtherVpnWins(others: seq<Route>, wanted: seq<string>, gateways: seq<DefaultRoute>, i: nat,
                     main: Table, denote: string -> Cidr, accepts: seq<bool>)
    requires DistinctBy(Dest(), others) && forall r :: r in others ==> r.via.Device?
    requires var plan := Plan(others, wanted, gateways);
      && i < |plan| == |accepts| && plan[i] in others && accepts[i]
      && denote(plan[i].destination) !in main
      && forall j :: 0 <= j < |plan| && denote(plan[j].destination) == denote(plan[i].destination) ==>
           plan[j].destination == plan[i].destination
    ensures var plan := Plan(others, wanted, gateways);
      var (main', installed) := Install(main, plan, denote, accepts);
      && plan[i] in installed
      && denote(plan[i].destination) in main' && main'[denote(plan[i].destination)] == plan[i].via
  {
    var plan := Plan(others, wanted, gateways);
    PlanShape(others, wanted, gateways, plan[i].destination);
    forall j | 0 <= j < i ensures denote(plan[j].destination) != denote(plan[i].destination) {
      if plan[j].destination == plan[i].destination {
        PickedInOrder(plan, plan[i].destination, j, i);
      }
    }
    FirstAcceptedWins(main, plan, denote, accepts, i);
  }

  /** Withdrawing takes away nothing but what was installed. */
  lemma {:induction false} WithdrawTakes(main: Table, installed: seq<Route>, denote: string -> Cidr, obliges: seq<bool>)
    requires |obliges| == |installed|
    ensures var main' := Withdraw(main, installed, denote, obliges);
      && main.Keys - Keys(installed, denote) <= main'.Keys <= main.Keys
      && (forall k :: k in main' ==> main'[k] == main[k])
      && ((forall b :: b in obliges ==> b) ==> main'.Keys == main.Keys - Keys(installed, denote))
    decreases |installed|
  {
    if installed != [] {
      var key := denote(installed[0].destination);
      var main1 := if obliges[0] then main - {key} else main;
      WithdrawTakes(main1, installed[1..], denote, obliges[1..]);
      assert installed == [installed[0]] + installed[1..];
      assert Keys(installed, denote) == {key} + Keys(installed[1..], denote);
      if forall b :: b in obliges ==> b {
        assert obliges[0] in obliges && forall b :: b in obliges[1..] ==> b in obliges;
      }
    }
  }

  /** A deletion the kernel refuses leaves its route. */
  lemma {:induction false} WithdrawLeaves(main: Table, installed: seq<Route>, denote: string -> Cidr,
                                          obliges: seq<bool>, i: nat)
    requires |obliges| == |installed| && i < |installed| && !obliges[i] && denote(installed[i].destination) in main
    requires forall j, k :: 0 <= j < k < |installed| ==>
      denote(installed[j].destination) != denote(installed[k].destination)
    ensures denote(installed[i].destination) in Withdraw(main, installed, denote, obliges)
    decreases |installed|
  {
    var rest := installed[1..];
    assert forall j :: 0 <= j < |rest| ==> rest[j] == installed[j + 1];
    if i == 0 {
      var bs := obliges[1..];
      WithdrawTakes(main, rest, denote, bs);
      forall r | r in rest ensures denote(r.destination) != denote(installed[0].destination) {
        var j :| 0 <= j < |rest| && rest[j] == r;
      }
    } else {
      var key := denote(installed[0].destination);
      assert denote(installed[i].destination) != key;
      assert obliges[1..][i - 1] == obliges[i];
      WithdrawLeaves(if obliges[0] then main - {key} else main, rest, denote, obliges[1..], i - 1);
    }
  }

  /** Installing and then withdrawing restores the table exactly when every deletion succeeds,
      and whatever fails no route that was there before is lost or changed. */
  lemma InstallWithdraw(main: Table, plan: seq<Route>, denote: string -> Cidr, accepts: seq<bool>, obliges: seq<bool>)
    requires |accepts| == |plan| && |obliges| == |Install(main, plan, denote, accepts).1|
    ensures var (main1, installed) := Install(main, plan, denote, accepts);
      var main2 := Withdraw(main1, installed, denote, obliges);
      && (main2 == main <==> forall b :: b in obliges ==> b)
      && (forall k :: k in main ==> k in main2 && main2[k] == main[k])
  {
    InstallAdds(main, plan, denote, accepts);
    var (main1, installed) := Install(main, plan, denote, accepts);
    WithdrawTakes(main1, installed, denote, obliges);
    var main2 := Withdraw(main1, installed, denote, obliges);
    if forall b :: b in obliges ==> b {
      assert main2.Keys == main.Keys;
    } else {
      var i :| 0 <= i < |obliges| && !obliges[i];
      assert installed[i] in installed;
      WithdrawLeaves(main1, installed, denote, obliges, i);
      assert denote(installed[i].destination) in Keys(installed, denote);
    }
  }
}
