/** The machine a tunnel is brought up on: its interface, policy rules, main route
    table and firewall, with every call the tunnel makes to change them.

    Any call may fail, and a failing one may have done part of its work. `log` holds
    every state the machine goes through, so a property of a whole operation is a
    property of the entries it adds. */
module Machine {
  import opened Wrappers
  import opened Address
  import opened Sorting
  import opened Roaming
  import opened Bypass
  import opened Policy
  import Firewall

  datatype Rules = Rules(v4: seq<PolicyRule>, v6: seq<PolicyRule>)
  {
    function Of(family: bool): seq<PolicyRule> {
      if family then v6 else v4
    }

    /** The rules with those of one family, `true` for IPv6, replaced. */
    function With(family: bool, rs: seq<PolicyRule>): Rules {
      if family then this.(v6 := rs) else this.(v4 := rs)
    }
  }

  datatype Kernel = Kernel(
    link: bool, net: Net, routed: set<bool>, rules: Rules, main: Table, others: map<string, set<Cidr>>,
    chain: Option<Firewall.Chain>)
  {
    function TablesOf(mark: nat, family: bool): Tables {
      Tables(mark, family in routed, main, others)
    }
  }

  /** Cleaning up that did not happen. */
  datatype Fault = InterfaceLeft | ChainLeft | RouteLeft(key: Cidr) | CopiesLeft

  /** It happened in between, whatever happened before. */
  ghost predicate New(f: Fault, before: multiset<Fault>, now: multiset<Fault>) {
    before[f] < now[f]
  }

  // ---- how one state follows another -----------------------------------------

  /** The interface listens on a fresh port, and has the peer given, if one is. */
  ghost predicate Rebound(a: Net, b: Net, peer: Option<SocketAddr>) {
    exists port :: Fresh(a, port) && b == WithPeer(RotatePort(a, port), peer)
  }

  function WithPeer(n: Net, peer: Option<SocketAddr>): Net {
    if peer.Some? then AddPeer(n, peer.value) else n
  }

  lemma ReboundHolds(a: Net, b: Net, peer: Option<SocketAddr>, t: SocketAddr)
    requires Rebound(a, b, peer) && a.peer.None? && (peer.Some? ==> peer.value == t)
    ensures Held(b, t) && b.peer.Some? == peer.Some?
  {
    var port :| Fresh(a, port) && b == WithPeer(RotatePort(a, port), peer);
    RotationHoldsForAll(a, port, t);
  }

  /** There is always a port nobody has seen. */
  lemma FreshPort(n: Net) returns (port: Port)
    ensures Fresh(n, port)
  {
    var used := {n.port} + (set k | k in n.knows :: k.1) + (set m | m in n.toClient :: m.port)
                + (set m | m in n.toServer :: m.port);
    port := Beyond(used);
    forall k | k in n.knows ensures k.1 != port {
      assert k.1 in used;
    }
    forall m | m in n.toClient ensures m.port != port {
      assert m.port in used;
    }
    forall m | m in n.toServer ensures m.port != port {
      assert m.port in used;
    }
  }

  lemma {:induction false} Beyond(used: set<Port>) returns (port: Port)
    ensures forall p :: p in used ==> p < port
  {
    if used == {} {
      port := 0;
    } else {
      var one :| one in used;
      var rest := Beyond(used - {one});
      port := if rest > one then rest else one + 1;
      forall p | p in used ensures p < port {
        assert p == one || p in used - {one};
      }
    }
  }

  // ---- policy rules ----------------------------------------------------------

  /** Rules of others stay in place; unless something else is taken for ours, neither of ours loses its
      last copy and what comes last stays. */
  ghost predicate RulesKept(mark: nat, a: Rules, b: Rules) {
    FamilyKept(mark, a.v4, b.v4) && FamilyKept(mark, a.v6, b.v6)
  }

  ghost predicate FamilyKept(mark: nat, a: seq<PolicyRule>, b: seq<PolicyRule>) {
    && Keep(NotOwn(mark), a) == Keep(NotOwn(mark), b)
    && NoLookalikes(mark, a) == NoLookalikes(mark, b)
    && (NoLookalikes(mark, a) ==>
          && (Lookup(mark) in a ==> Lookup(mark) in b)
          && (SUPPRESS in a ==> SUPPRESS in b)
          && LookupLast(mark, a) == LookupLast(mark, b))
  }

  lemma AddedKept(mark: nat, rs: seq<PolicyRule>)
    ensures FamilyKept(mark, rs, [Lookup(mark)] + rs)
    ensures FamilyKept(mark, rs, Added(mark, rs))
  {
    var l, s := Lookup(mark), SUPPRESS;
    assert Added(mark, rs) == [s] + ([l] + rs);
    KeepCons(NotOwn(mark), l, rs);
    KeepCons(NotOwn(mark), s, [l] + rs);
    KeepCons(Lookalike(LookupLike(mark), l), l, rs);
    KeepCons(Lookalike(SuppressLike(), s), l, rs);
    AddedKeepsLookalikes(mark, rs, LookupLike(mark), l);
    AddedKeepsLookalikes(mark, rs, SuppressLike(), s);
    AddedKeepsLast(mark, rs);
  }

  lemma PrunedKept(mark: nat, rule: PolicyRule, like: PolicyRule -> bool, rs: seq<PolicyRule>, n: nat)
    requires (rule == Lookup(mark) && like == LookupLike(mark)) || (rule == SUPPRESS && like == SuppressLike())
    requires n <= Excess(rule, like, rs)
    ensures FamilyKept(mark, rs, Without(rule, n, rs))
  {
    var l, s := Lookup(mark), SUPPRESS;
    WithoutKeepsOthers(rule, n, rs, NotOwn(mark));
    WithoutKeepsOthers(rule, n, rs, Lookalike(LookupLike(mark), l));
    WithoutKeepsOthers(rule, n, rs, Lookalike(SuppressLike(), s));
    var other := if rule == l then s else l;
    WithoutKeepsOthers(rule, n, rs, Same(other));
    CopiesMember(other, rs);
    CopiesMember(other, Without(rule, n, rs));
    if rule in rs {
      LastCopySurvives(rule, like, rs, n);
    }
    if n <= ButOne(Copies(rule, rs)) {
      PruningKeepsLast(mark, rule, n, rs);
    }
  }

  /** The rules without ours. */
  function Stripped(mark: nat, rules: Rules): Rules {
    Rules(Keep(NotOwn(mark), rules.v4), Keep(NotOwn(mark), rules.v6))
  }

  /** What is taken for our rules is as it was, and the lookup is the last of them if it was. */
  ghost predicate LastKept(mark: nat, a: Rules, b: Rules) {
    && NoLookalikes(mark, a.v4) == NoLookalikes(mark, b.v4) && NoLookalikes(mark, a.v6) == NoLookalikes(mark, b.v6)
    && (NoLookalikes(mark, a.v4) && LookupLast(mark, a.v4) ==> LookupLast(mark, b.v4))
    && (NoLookalikes(mark, a.v6) && LookupLast(mark, a.v6) ==> LookupLast(mark, b.v6))
  }

  lemma StrippedKeepsLast(mark: nat, rules: Rules)
    ensures LastKept(mark, rules, Stripped(mark, rules))
  {
    StrippedFamily(mark, rules.v4);
    StrippedFamily(mark, rules.v6);
  }

  lemma StrippedFamily(mark: nat, rs: seq<PolicyRule>)
    ensures NoLookalikes(mark, Keep(NotOwn(mark), rs)) == NoLookalikes(mark, rs)
    ensures LookupLast(mark, Keep(NotOwn(mark), rs))
  {
    LookupIsLookupLike(mark);
    KeepTwice(NotOwn(mark), Lookalike(LookupLike(mark), Lookup(mark)), rs);
    KeepTwice(NotOwn(mark), Lookalike(SuppressLike(), SUPPRESS), rs);
    KeepMembers(NotOwn(mark), rs);
    var others := Keep(NotOwn(mark), rs);
    assert forall i :: 0 <= i < |others| ==> others[i] in others;
    KeepNone(Own(mark), others);
  }

  /** A default route for the family in the tunnel's table. */
  function Opened(k: Kernel, family: bool): Kernel {
    k.(routed := k.routed + {family})
  }

  function WithLookup(mark: nat, k: Kernel, family: bool): Kernel {
    Opened(k, family).(rules := k.rules.With(family, [Lookup(mark)] + k.rules.Of(family)))
  }

  function FamilyRouted(mark: nat, k: Kernel, family: bool): Kernel {
    Opened(k, family).(rules := k.rules.With(family, Added(mark, k.rules.Of(family))))
  }

  function Routed(mark: nat, k: Kernel, families: seq<bool>): Kernel
    decreases |families|
  {
    if families == [] then k else Routed(mark, FamilyRouted(mark, k, families[0]), families[1..])
  }

  /** Only what policy routing changes has changed. */
  ghost predicate RoutingOnly(mark: nat, a: Kernel, b: Kernel) {
    b == a.(rules := b.rules, routed := b.routed) && RulesKept(mark, a.rules, b.rules)
  }

  lemma FamilySteps(mark: nat, k: Kernel, family: bool)
    ensures RoutingOnly(mark, k, k) && RoutingOnly(mark, k, Opened(k, family))
    ensures RoutingOnly(mark, k, WithLookup(mark, k, family))
    ensures RoutingOnly(mark, k, FamilyRouted(mark, k, family))
  {
    AddedKept(mark, k.rules.Of(family));
  }

  lemma RoutingOnlyThen(mark: nat, a: Kernel, b: Kernel, c: Kernel)
    requires RoutingOnly(mark, a, b) && RoutingOnly(mark, b, c)
    ensures RoutingOnly(mark, a, c)
  {}

  lemma EntriesThen(mark: nat, a: Kernel, b: Kernel, log: seq<Kernel>, from: nat, mid: nat)
    requires from <= mid <= |log| && RoutingOnly(mark, a, b)
    requires forall i :: from <= i < mid ==> RoutingOnly(mark, a, log[i])
    requires forall i :: mid <= i < |log| ==> RoutingOnly(mark, b, log[i])
    ensures forall i :: from <= i < |log| ==> RoutingOnly(mark, a, log[i])
  {
    forall i | from <= i < |log| ensures RoutingOnly(mark, a, log[i]) {
      if i >= mid {
        RoutingOnlyThen(mark, a, b, log[i]);
      }
    }
  }

  // ---- the machine -----------------------------------------------------------

  class Machine {
    /** The firewall mark of the tunnel's own packets, and the name of its table. */
    const mark: nat
    /** The prefix a destination spells. */
    const denote: string -> Cidr
    var k: Kernel
    ghost var log: seq<Kernel>
    ghost var faults: multiset<Fault>
    /** How many calls returned an error that the caller has to pass on; deleting copies of rules, and adding and
        deleting bypass routes, are tried as best they can be and do not count. */
    ghost var errors: nat
    /** The prefixes whose route was refused, since this was last cleared. */
    ghost var refused: set<Cidr>
    /** Whether the resolver has been set. */
    ghost var resolver: bool

    ghost predicate Valid()
      reads this
    {
      log != [] && log[|log| - 1] == k
    }

    constructor (mark: nat, denote: string -> Cidr, k: Kernel)
      ensures Valid() && this.mark == mark && this.denote == denote && this.k == k && log == [k] && faults == multiset{}
      ensures errors == 0 && refused == {} && !resolver
    {
      this.mark, this.denote, this.k := mark, denote, k;
      log, faults, errors, refused, resolver := [k], multiset{}, 0, {}, false;
    }

    method Become(next: Kernel)
      requires Valid()
      modifies this`k, this`log
      ensures Valid() && k == next && log == old(log) + [next]
    {
      k := next;
      log := log + [next];
    }

    /** What a call that returned `ok` adds to the errors. */
    ghost function Failed(ok: bool): nat {
      if ok then 0 else 1
    }

    /** Packets are sent and delivered between two calls. */
    method Yield()
      requires Valid()
      modifies this`k, this`log
      ensures Valid() && log == old(log) + [k]
      ensures k == old(k).(net := k.net) && Drifts(old(k.net), k.net)
    {
      var steps: seq<Step> :| true;
      var net := HappenAll(k.net, steps);
      assert Drifts(k.net, net);
      Become(k.(net := net));
    }

    // ---- the interface -------------------------------------------------------

    method CreateInterface() returns (ok: bool)
      requires Valid()
      modifies this`k, this`log, this`errors
      ensures errors == old(errors) + Failed(ok)
      ensures Valid() && log == old(log) + [k]
      ensures ok ==> !old(k.link) && k == old(k).(link := true, net := Roaming.RemovePeer(old(k.net)), routed := {})
      ensures !ok ==> k == old(k)
    {
      ok := *;
      ok := ok && !k.link;
      errors := errors + Failed(ok);
      Become(if ok then k.(link := true, net := Roaming.RemovePeer(k.net), routed := {}) else k);
    }

    /** Bind a fresh port and set the peer, if one is given; then flush the tunnel's table. */
    method ConfigureInterface(peer: Option<SocketAddr>) returns (ok: bool)
      requires Valid()
      modifies this`k, this`log, this`errors
      ensures errors == old(errors) + Failed(ok)
      ensures Valid() && log == old(log) + [old(k).(net := k.net), k]
      ensures k == old(k).(net := k.net, routed := k.routed)
      ensures k.net == old(k.net) || Rebound(old(k.net), k.net, peer)
      ensures k.routed == old(k.routed) || k.routed == {}
      ensures ok ==> k.link && Rebound(old(k.net), k.net, peer) && k.routed == {}
    {
      ok := *;
      ok := ok && k.link;
      errors := errors + Failed(ok);
      var bound, flushed := *, *;
      var net := k.net;
      if ok || bound {
        ghost var free := FreshPort(k.net);
        var port :| Fresh(k.net, port);
        net := WithPeer(RotatePort(k.net, port), peer);
      }
      Become(k.(net := net));
      Become(if ok || flushed then k.(routed := {}) else k);
    }

    method RemovePeer() returns (ok: bool)
      requires Valid()
      modifies this`k, this`log, this`errors
      ensures errors == old(errors) + Failed(ok)
      ensures Valid() && log == old(log) + [k]
      ensures k == old(k) || k == old(k).(net := Roaming.RemovePeer(old(k.net)))
      ensures ok ==> k.link && k.net.peer.None?
    {
      ok := *;
      ok := ok && k.link;
      errors := errors + Failed(ok);
      var done := *;
      Become(if ok || done then k.(net := Roaming.RemovePeer(k.net)) else k);
    }

    method ConfigurePeer(endpoint: SocketAddr) returns (ok: bool)
      requires Valid()
      modifies this`k, this`log, this`errors
      ensures errors == old(errors) + Failed(ok)
      ensures Valid() && log == old(log) + [k]
      ensures k == old(k) || k == old(k).(net := AddPeer(old(k.net), endpoint))
      ensures ok ==> k.link && k == old(k).(net := AddPeer(old(k.net), endpoint))
    {
      ok := *;
      ok := ok && k.link;
      errors := errors + Failed(ok);
      var done := *;
      Become(if ok || done then k.(net := AddPeer(k.net, endpoint)) else k);
    }

    /** Removing the interface takes its table and our policy rules with it. */
    method RemoveInterface() returns (ok: bool)
      requires Valid()
      modifies this`k, this`log, this`faults, this`errors
      ensures errors == old(errors) + Failed(ok)
      ensures Valid() && log == old(log) + [k] && old(faults) <= faults
      ensures k == old(k).(link := k.link, net := k.net, routed := k.routed, rules := k.rules)
      ensures k.rules == old(k.rules) || k.rules == Stripped(mark, old(k.rules))
      ensures LastKept(mark, old(k.rules), k.rules)
      ensures ok ==> !k.link && k.routed == {} && k.net.peer.None?
      ensures !ok ==> k.link == old(k.link) && (k.link ==> New(InterfaceLeft, old(faults), faults))
    {
      ok := *;
      ok := ok && k.link;
      errors := errors + Failed(ok);
      var unruled := *;
      StrippedKeepsLast(mark, k.rules);
      var rules := if ok || unruled then Stripped(mark, k.rules) else k.rules;
      Become(if ok then k.(link := false, net := Roaming.RemovePeer(k.net), routed := {}, rules := rules)
             else k.(rules := rules));
      if !ok && k.link {
        faults := faults + multiset{InterfaceLeft};
      }
    }

    /** Of the resolver only whether it was set is kept. */
    method ConfigureDns() returns (ok: bool)
      modifies this`errors, this`resolver
      ensures errors == old(errors) + Failed(ok)
      ensures ok ==> resolver
    {
      ok := *;
      errors := errors + Failed(ok);
      resolver := resolver || ok;
    }

    // ---- policy routing ------------------------------------------------------

    /** A default route in the tunnel's table, the lookup, the override: for each family in turn. */
    method ConfigurePeerRouting(families: seq<bool>) returns (ok: bool)
      requires Valid()
      modifies this`k, this`log, this`errors
      ensures errors == old(errors) + Failed(ok)
      ensures Valid() && old(log) <= log
      ensures forall i :: |old(log)| <= i < |log| ==> RoutingOnly(mark, old(k), log[i])
      ensures RoutingOnly(mark, old(k), k)
      ensures ok ==> k.link && k == Routed(mark, old(k), families)
    {
      ok := k.link;
      var i := 0;
      while ok && i < |families|
        invariant 0 <= i <= |families|
        invariant Valid() && old(log) <= log && errors == old(errors)
        invariant forall j :: |old(log)| <= j < |log| ==> RoutingOnly(mark, old(k), log[j])
        invariant RoutingOnly(mark, old(k), k)
        invariant ok ==> k.link && Routed(mark, k, families[i..]) == Routed(mark, old(k), families)
        decreases |families| - i, ok
      {
        assert families[i..][0] == families[i] && families[i..][1..] == families[i + 1..];
        var added := RouteNext(families[i], old(k), |old(log)|);
        if added {
          i := i + 1;
        } else {
          ok := false;
        }
      }
      errors := errors + Failed(ok);
    }

    /** One family more than have been routed since `k0`. */
    method RouteNext(family: bool, ghost k0: Kernel, ghost from: nat) returns (ok: bool)
      requires Valid() && from <= |log| && RoutingOnly(mark, k0, k)
      requires forall i :: from <= i < |log| ==> RoutingOnly(mark, k0, log[i])
      modifies this`k, this`log
      ensures Valid() && old(log) <= log && k.link == old(k).link && RoutingOnly(mark, k0, k)
      ensures forall i :: from <= i < |log| ==> RoutingOnly(mark, k0, log[i])
      ensures ok ==> k == FamilyRouted(mark, old(k), family)
    {
      ghost var k1, mid := k, |log|;
      ok := RouteFamily(family);
      EntriesThen(mark, k0, k1, log, from, mid);
      RoutingOnlyThen(mark, k0, k1, k);
    }

    method RouteFamily(family: bool) returns (ok: bool)
      requires Valid()
      modifies this`k, this`log
      ensures Valid() && old(log) <= log && k.link == old(k).link
      ensures forall i :: |old(log)| <= i < |log| ==> RoutingOnly(mark, old(k), log[i])
      ensures RoutingOnly(mark, old(k), k)
      ensures ok ==> k == FamilyRouted(mark, old(k), family)
    {
      var k1, k2, k3 := Opened(k, family), WithLookup(mark, k, family), FamilyRouted(mark, k, family);
      FamilySteps(mark, k, family);
      ok := false;
      var step := *;
      if step {
        Become(k1);
        step := *;
        if step {
          Become(k2);
          step := *;
          if step {
            Become(k3);
            ok := true;
          }
        }
      }
    }

    /** How many rules look right; none when they cannot be listed. */
    method CountRules(family: bool, like: PolicyRule -> bool) returns (n: nat)
      requires Valid()
      modifies this`faults
      ensures Valid() && old(faults) <= faults
      ensures n == Count(like, k.rules.Of(family)) || (n == 0 && New(CopiesLeft, old(faults), faults))
    {
      var listed := *;
      if listed {
        n := Count(like, k.rules.Of(family));
      } else {
        n := 0;
        faults := faults + multiset{CopiesLeft};
      }
    }

    method DeleteRule(family: bool, rule: PolicyRule) returns (ok: bool)
      requires Valid()
      modifies this`k, this`log, this`faults
      ensures Valid() && old(faults) <= faults
      ensures ok ==> log == old(log) + [k] && rule in old(k.rules).Of(family)
      ensures ok ==> k == old(k).(rules := old(k.rules).With(family, Without(rule, 1, old(k.rules).Of(family))))
      ensures !ok ==>
        k == old(k) && log == old(log) && (rule in k.rules.Of(family) ==> New(CopiesLeft, old(faults), faults))
    {
      ok := *;
      ok := ok && rule in k.rules.Of(family);
      if ok {
        Become(k.(rules := k.rules.With(family, Without(rule, 1, k.rules.Of(family)))));
      } else if rule in k.rules.Of(family) {
        faults := faults + multiset{CopiesLeft};
      }
    }

    // ---- the main table ------------------------------------------------------

    /** `false` also when the table cannot be listed. */
    method RouteExists(key: Cidr) returns (there: bool)
      ensures there ==> key in k.main
    {
      there := *;
      there := there && key in k.main;
    }

    method AddRoute(key: Cidr, via: Via) returns (ok: bool)
      requires Valid()
      modifies this`k, this`log, this`refused
      ensures Valid() && log == old(log) + [k]
      ensures ok ==> key !in old(k.main) && k == old(k).(main := old(k.main)[key := via])
      ensures !ok ==> k == old(k)
      ensures refused == old(refused) + (if !ok && key !in k.main then {key} else {})
    {
      ok := *;
      ok := ok && key !in k.main;
      if !ok && key !in k.main {
        refused := refused + {key};
      }
      Become(if ok then k.(main := k.main[key := via]) else k);
    }

    method DeleteRoute(key: Cidr) returns (ok: bool)
      requires Valid()
      modifies this`k, this`log, this`faults
      ensures Valid() && log == old(log) + [k] && old(faults) <= faults
      ensures k == if ok then old(k).(main := old(k.main) - {key}) else old(k)
      ensures key in k.main ==> New(RouteLeft(key), old(faults), faults)
    {
      ok := *;
      ok := ok && key in k.main;
      Become(if ok then k.(main := k.main - {key}) else k);
      if key in k.main {
        faults := faults + multiset{RouteLeft(key)};
      }
    }

    // ---- the firewall --------------------------------------------------------

    /** Replace our table, or delete it: one transaction, though its outcome may go unreported. */
    method Nft(chain: Option<Firewall.Chain>) returns (ok: bool)
      requires Valid()
      modifies this`k, this`log, this`faults, this`errors
      ensures errors == old(errors) + Failed(ok)
      ensures Valid() && log == old(log) + [k] && old(faults) <= faults
      ensures k == old(k) || k == old(k).(chain := chain)
      ensures ok ==> k.chain == chain
      ensures chain.None? && k.chain.Some? ==> New(ChainLeft, old(faults), faults)
    {
      ok := *;
      errors := errors + Failed(ok);
      var done := *;
      Become(if ok || done then k.(chain := chain) else k);
      if chain.None? && k.chain.Some? {
        faults := faults + multiset{ChainLeft};
      }
    }
  }
}
