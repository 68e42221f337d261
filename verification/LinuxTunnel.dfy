/** The Linux tunnel: bringing it up, moving it to another server, taking it down,
    step by step on a machine where any call can fail. */
module LinuxTunnel {
  import opened Wrappers
  import opened Address
  import opened Sorting
  import opened Roaming
  import opened Bypass
  import opened Policy
  import opened Machine
  import Firewall

  /** What a connection asks for: the server, the families whose default route the peer takes, and whether
      there is a resolver to configure. */
  datatype Spec = Spec(iface: string, endpoint: SocketAddr, families: seq<bool>, dns: bool)

  predicate ValidName(name: string) {
    && 0 < |name| < 16
    && forall c :: c in name ==> 'a' <= c <= 'z' || 'A' <= c <= 'Z' || '0' <= c <= '9' || c == '-' || c == '_'
  }

  /** The checks on an interface name, one after the other. */
  method Validate(name: string) returns (ok: bool)
    ensures ok == ValidName(name)
    ensures ok <==>
      && 1 <= |name| <= 15
      && forall i :: 0 <= i < |name| ==>
        || 'a' <= name[i] <= 'z' || 'A' <= name[i] <= 'Z' || '0' <= name[i] <= '9' || name[i] == '-' || name[i] == '_'
  {
    if name == "" {
      return false;
    }
    if |name| >= 16 {
      return false;
    }
    for i := 0 to |name|
      invariant forall j :: 0 <= j < i ==>
        || 'a' <= name[j] <= 'z' || 'A' <= name[j] <= 'Z' || '0' <= name[j] <= '9' || name[j] == '-' || name[j] == '_'
    {
      var c := name[i];
      var alphanumeric := 'a' <= c <= 'z' || 'A' <= c <= 'Z' || '0' <= c <= '9';
      if !alphanumeric && c != '-' && c != '_' {
        assert c in name;
        return false;
      }
    }
    ok := true;
  }

  function Destinations(routes: seq<Route>): seq<string> {
    Map((r: Route) => r.destination, routes)
  }

  // ---- what holds throughout -------------------------------------------------

  ghost predicate Preserves(base: Table, main: Table) {
    forall key :: key in base ==> key in main && main[key] == base[key]
  }

  /** Every route that was there before is untouched, and every other is installed by us or could not be
      withdrawn since. */
  ghost predicate Loyal(base: Table, main: Table, ours: set<Cidr>, began: multiset<Fault>, faults: multiset<Fault>) {
    && Preserves(base, main)
    && ours !! base.Keys
    && began <= faults
    && forall key :: key in main ==> key in base || key in ours || New(RouteLeft(key), began, faults)
  }

  /** Only bypass routes differ. */
  ghost predicate MainOnly(base: Table, a: Kernel, b: Kernel) {
    b == a.(main := b.main) && Preserves(base, b.main)
  }

  /** What a switch never touches, and who may hold the interface meanwhile. */
  ghost predicate Moving(mark: nat, a: Kernel, b: Kernel, was: SocketAddr, target: SocketAddr) {
    && b == a.(net := b.net, routed := b.routed, rules := b.rules)
    && RulesKept(mark, a.rules, b.rules)
    && (Held(b.net, was) || Held(b.net, target))
  }

  /** The interface is somebody's throughout: the server left or the server wanted. */
  ghost predicate Replacing(a: Kernel, b: Kernel, was: SocketAddr, target: SocketAddr) {
    b == a.(net := b.net, routed := b.routed) && (Held(b.net, was) || Held(b.net, target))
  }

  /** What bringing the interface up changes. */
  ghost predicate Raised(mark: nat, a: Kernel, b: Kernel) {
    && b == a.(link := b.link, net := b.net, routed := b.routed, rules := b.rules)
    && RulesKept(mark, a.rules, b.rules)
  }

  ghost predicate RaisedSince(mark: nat, a: Kernel, log: seq<Kernel>, from: nat) {
    forall i :: from <= i < |log| ==> Raised(mark, a, log[i])
  }

  /** Unmarked traffic of these families has a way into the tunnel. */
  ghost predicate Captures(mark: nat, k: Kernel, families: seq<bool>) {
    forall f :: f in families ==>
      && f in k.routed
      && (NoLookalikes(mark, k.rules.Of(f)) ==> Lookup(mark) in k.rules.Of(f))
      && (NoLookalikes(mark, k.rules.Of(f)) ==> SUPPRESS in k.rules.Of(f))
  }

  /** Exactly one of each rule a family, unless something else is taken for one. */
  ghost predicate SingleRules(mark: nat, rules: Rules, families: seq<bool>) {
    forall f :: f in families && NoLookalikes(mark, rules.Of(f)) ==>
      Copies(Lookup(mark), rules.Of(f)) == 1 && Copies(SUPPRESS, rules.Of(f)) == 1
  }

  /** The override comes first exactly where the last of our rules was the lookup to begin with. */
  ghost predicate TidyRules(mark: nat, before: Rules, rules: Rules, families: seq<bool>) {
    forall f :: f in families && NoLookalikes(mark, rules.Of(f)) ==>
      (Keep(Own(mark), rules.Of(f)) == [SUPPRESS, Lookup(mark)] <==> LookupLast(mark, before.Of(f)))
  }

  ghost predicate NeatRules(mark: nat, before: Rules, rules: Rules, families: seq<bool>) {
    SingleRules(mark, rules, families) && TidyRules(mark, before, rules, families)
  }

  function PrunedRules(mark: nat, rules: Rules): Rules {
    Rules(PruneBoth(mark, rules.v4), PruneBoth(mark, rules.v6))
  }

  lemma {:induction false} RoutedRules(mark: nat, k: Kernel, families: seq<bool>, f: bool)
    ensures var k' := Routed(mark, k, families);
      && (f in families || f in k.routed ==> f in k'.routed)
      && (f in families || Lookup(mark) in k.rules.Of(f) ==> Lookup(mark) in k'.rules.Of(f))
      && (f in families || SUPPRESS in k.rules.Of(f) ==> SUPPRESS in k'.rules.Of(f))
    decreases |families|
  {
    if families != [] {
      RoutedRules(mark, FamilyRouted(mark, k, families[0]), families[1..], f);
    }
  }

  lemma {:induction false} RoutedKeepsLast(mark: nat, k: Kernel, families: seq<bool>, f: bool)
    ensures LookupLast(mark, Routed(mark, k, families).rules.Of(f)) == LookupLast(mark, k.rules.Of(f))
    decreases |families|
  {
    if families != [] {
      AddedKeepsLast(mark, k.rules.Of(families[0]));
      RoutedKeepsLast(mark, FamilyRouted(mark, k, families[0]), families[1..], f);
    }
  }

  /** After routing and pruning, the families asked for are captured. */
  lemma CapturedAfter(mark: nat, k: Kernel, families: seq<bool>, k': Kernel)
    requires RoutingOnly(mark, Routed(mark, k, families), k') && k'.routed == Routed(mark, k, families).routed
    ensures Captures(mark, k', families)
  {
    forall f | f in families ensures f in k'.routed
        && (NoLookalikes(mark, k'.rules.Of(f)) ==> Lookup(mark) in k'.rules.Of(f) && SUPPRESS in k'.rules.Of(f)) {
      RoutedRules(mark, k, families, f);
    }
  }

  /** Whatever copies were there, one of each is left for the families asked for. */
  lemma TidyAfter(mark: nat, k: Kernel, families: seq<bool>)
    ensures TidyRules(mark, k.rules, PrunedRules(mark, Routed(mark, k, families).rules), families)
  {
    var rules := Routed(mark, k, families).rules;
    forall f | f in families && NoLookalikes(mark, PrunedRules(mark, rules).Of(f))
      ensures Keep(Own(mark), PrunedRules(mark, rules).Of(f)) == [SUPPRESS, Lookup(mark)] <==>
        LookupLast(mark, k.rules.Of(f))
    {
      RoutedRules(mark, k, families, f);
      RoutedKeepsLast(mark, k, families, f);
      TidyExactly(mark, rules.Of(f));
    }
  }

  /** The override comes first where the last of our rules was the lookup in `first`. */
  ghost predicate Ordered(mark: nat, first: Rules, rules: Rules, families: seq<bool>) {
    forall f :: f in families && NoLookalikes(mark, first.Of(f)) && LookupLast(mark, first.Of(f)) ==>
      Keep(Own(mark), rules.Of(f)) == [SUPPRESS, Lookup(mark)]
  }

  /** Whatever happened between `first` and `before`, failed operations included. */
  lemma TidyAgain(mark: nat, first: Rules, before: Rules, rules: Rules, families: seq<bool>)
    requires LastKept(mark, first, before) && LastKept(mark, before, rules) && TidyRules(mark, before, rules, families)
    ensures Ordered(mark, first, rules, families)
  {}

  lemma LastKeptThen(mark: nat, a: Rules, b: Rules, c: Rules)
    requires LastKept(mark, a, b) && LastKept(mark, b, c)
    ensures LastKept(mark, a, c)
  {}

  lemma SingleAfter(mark: nat, k: Kernel, families: seq<bool>)
    ensures SingleRules(mark, PrunedRules(mark, Routed(mark, k, families).rules), families)
  {
    var rules := Routed(mark, k, families).rules;
    forall f | f in families && NoLookalikes(mark, PrunedRules(mark, rules).Of(f))
      ensures Copies(Lookup(mark), PrunedRules(mark, rules).Of(f)) == 1
      ensures Copies(SUPPRESS, PrunedRules(mark, rules).Of(f)) == 1
    {
      RoutedRules(mark, k, families, f);
      PruningLeavesOne(mark, rules.Of(f));
    }
  }

  /** What captured means for a packet: unmarked, without a specific main route and claimed by no other rule,
      it goes to the tunnel. */
  lemma CapturedEntersTunnel(mark: nat, k: Kernel, families: seq<bool>, f: bool, dst: Ip, m: nat)
    requires Captures(mark, k, families) && f in families && NoLookalikes(mark, k.rules.Of(f))
    requires m != mark && !Specific(k.main, dst) && Unclaimed(k.TablesOf(mark, f), k.rules.Of(f), dst, m)
    ensures WayOf(k.TablesOf(mark, f), k.rules.Of(f), dst, m) == ViaTunnel
  {
    IntoTunnel(k.TablesOf(mark, f), k.rules.Of(f), dst, m);
  }

  /** No packet leaves but on the loopback, on the tunnel, marked, or excepted. */
  ghost predicate Confined(k: Kernel, ks: Firewall.Killswitch, exempt: seq<string>, denote: string -> Cidr) {
    k.chain.Some?
    && forall p :: Firewall.Passes(k.chain.value, p) ==>
      p.oif == "lo" || p.oif == ks.iface || p.mark == ks.mark || Firewall.Excepted(ks, exempt, denote, p)
  }

  lemma ScriptConfines(k: Kernel, ks: Firewall.Killswitch, exempt: seq<string>, denote: string -> Cidr)
    requires Firewall.Spells(denote) && k.chain == Some(Firewall.Script(ks, exempt, denote))
    ensures Confined(k, ks, exempt, denote)
  {
    forall p | Firewall.Passes(k.chain.value, p)
      ensures p.oif == "lo" || p.oif == ks.iface || p.mark == ks.mark || Firewall.Excepted(ks, exempt, denote, p)
    {
      Firewall.ScriptPermits(ks, exempt, denote, p);
    }
  }

  ghost predicate ConfinedThroughout(log: seq<Kernel>, from: nat, to: nat, ks: Firewall.Killswitch,
                                     exempt: seq<string>, denote: string -> Cidr)
    requires from <= to <= |log|
  {
    forall i :: from <= i < to ==> Confined(log[i], ks, exempt, denote)
  }

  lemma EntriesConfined(log: seq<Kernel>, from: nat, to: nat, ks: Firewall.Killswitch, exempt: seq<string>,
                        denote: string -> Cidr)
    requires from <= to <= |log|
    requires forall i :: from <= i < to ==> log[i].chain == Some(Firewall.Script(ks, exempt, denote))
    ensures Firewall.Spells(denote) ==> ConfinedThroughout(log, from, to, ks, exempt, denote)
  {
    if Firewall.Spells(denote) {
      forall i | from <= i < to ensures Confined(log[i], ks, exempt, denote) {
        ScriptConfines(log[i], ks, exempt, denote);
      }
    }
  }

  /** The firewall is the given one from here to there, and no main route of before changes. */
  ghost predicate Screened(base: Table, chain: Option<Firewall.Chain>, log: seq<Kernel>, from: nat, to: nat)
    requires from <= to <= |log|
  {
    forall i :: from <= i < to ==> log[i].chain == chain && Preserves(base, log[i].main)
  }

  /** Nothing changes any more. */
  ghost predicate Settled(log: seq<Kernel>, from: nat, k: Kernel) {
    forall i :: from <= i < |log| ==> log[i] == k
  }

  /** Only bypass routes change. */
  ghost predicate Bypassing(base: Table, k: Kernel, log: seq<Kernel>, from: nat, to: nat)
    requires from <= to <= |log|
  {
    forall i :: from <= i < to ==> MainOnly(base, k, log[i])
  }

  lemma ScreenedConfines(base: Table, ks: Firewall.Killswitch, exempt: seq<string>, denote: string -> Cidr,
                         log: seq<Kernel>, from: nat, to: nat)
    requires from <= to <= |log| && Firewall.Spells(denote)
    requires Screened(base, Some(Firewall.Script(ks, exempt, denote)), log, from, to)
    ensures ConfinedThroughout(log, from, to, ks, exempt, denote)
  {
    EntriesConfined(log, from, to, ks, exempt, denote);
  }

  /** Once settled, screened from there on. */
  lemma ScreenedThen(base: Table, k: Kernel, log: seq<Kernel>, log': seq<Kernel>, from: nat, to: nat)
    requires log <= log' && from <= |log| <= to <= |log'|
    requires Settled(log, from, k) && Preserves(base, k.main) && Screened(base, k.chain, log', |log|, to)
    ensures Screened(base, k.chain, log', from, to)
  {
    forall i | from <= i < to ensures log'[i].chain == k.chain && Preserves(base, log'[i].main) {
      if i < |log| {
        assert log'[i] == log[i];
      }
    }
  }

  lemma BypassingStays(base: Table, k: Kernel, log: seq<Kernel>, log': seq<Kernel>, from: nat, to: nat)
    requires from <= to <= |log| && log <= log' && Bypassing(base, k, log, from, to)
    ensures Bypassing(base, k, log', from, to)
  {
    forall i | from <= i < to ensures MainOnly(base, k, log'[i]) {
      assert log'[i] == log[i];
    }
  }

  lemma MovingThen(mark: nat, a: Kernel, b: Kernel, c: Kernel, was: SocketAddr, target: SocketAddr)
    requires Moving(mark, a, b, was, target) && RoutingOnly(mark, b, c)
    ensures Moving(mark, a, c, was, target)
  {
    RoutingOnlyThen(mark, a.(net := b.net), b, c);
  }

  lemma EntriesRaised(mark: nat, a: Kernel, b: Kernel, log: seq<Kernel>, from: nat, mid: nat)
    requires from <= mid <= |log| && Raised(mark, a, b)
    requires forall i :: from <= i < mid ==> Raised(mark, a, log[i])
    requires forall i :: mid <= i < |log| ==> RoutingOnly(mark, b, log[i])
    ensures forall i :: from <= i < |log| ==> Raised(mark, a, log[i])
  {
    forall i | mid <= i < |log| ensures Raised(mark, a, log[i]) {
      RoutingOnlyThen(mark, a.(link := b.link, net := b.net), b, log[i]);
    }
  }

  lemma RebindSets(a: Net, b: Net, t: SocketAddr)
    requires Rebound(a, b, Some(t))
    ensures b.peer == Some(Peer(t, {}))
  {}

  lemma RulesKeptSame(mark: nat, rules: Rules)
    ensures RulesKept(mark, rules, rules)
  {}

  lemma EntriesReplacing(mark: nat, a: Kernel, log: seq<Kernel>, from: nat, was: SocketAddr, target: SocketAddr)
    requires forall i :: from <= i < |log| ==> Replacing(a, log[i], was, target)
    ensures forall i :: from <= i < |log| ==> Moving(mark, a, log[i], was, target)
  {
    RulesKeptSame(mark, a.rules);
  }

  lemma EntriesMoving(mark: nat, a: Kernel, b: Kernel, log: seq<Kernel>, from: nat, mid: nat, was: SocketAddr,
                      target: SocketAddr)
    requires from <= mid <= |log| && Moving(mark, a, b, was, target)
    requires forall i :: from <= i < mid ==> Moving(mark, a, log[i], was, target)
    requires forall i :: mid <= i < |log| ==> RoutingOnly(mark, b, log[i])
    ensures forall i :: from <= i < |log| ==> Moving(mark, a, log[i], was, target)
  {
    forall i | mid <= i < |log| ensures Moving(mark, a, log[i], was, target) {
      MovingThen(mark, a, b, log[i], was, target);
    }
  }

  // ---- the tunnel ------------------------------------------------------------

  class LinuxTunnel {
    const iface: string
    const machine: Machine
    const killswitch: Option<Firewall.Killswitch>
    var created: bool
    var installed: seq<Route>
    var plan: seq<Route>
    /** The main table before the tunnel. */
    ghost const base: Table
    /** What had failed before the tunnel. */
    ghost const began: multiset<Fault>

    ghost predicate Valid()
      reads this, machine
    {
      machine.Valid() && Loyal(base, machine.k.main, Keys(installed, machine.denote), began, machine.faults)
    }

    constructor (machine: Machine, iface: string, killswitch: Option<Firewall.Killswitch>, plan: seq<Route>)
      requires machine.Valid()
      ensures Valid() && !created && installed == [] && base == machine.k.main && began == machine.faults
      ensures this.machine == machine && this.iface == iface && this.killswitch == killswitch && this.plan == plan
    {
      this.machine, this.iface, this.killswitch, this.plan := machine, iface, killswitch, plan;
      created, installed := false, [];
      base, began := machine.k.main, machine.faults;
    }

    // ---- bypass routes -------------------------------------------------------

    /** A destination already routed is left alone and not recorded. */
    method InstallRoute(route: Route) returns (ok: bool)
      requires Valid()
      modifies this`installed, machine`k, machine`log, machine`refused
      ensures Valid() && old(machine.log) <= machine.log
      ensures ok ==> machine.denote(route.destination) !in old(machine.k.main)
      ensures machine.k == old(machine.k).(main :=
        if ok then old(machine.k.main)[machine.denote(route.destination) := route.via] else old(machine.k.main))
      ensures old(machine.refused) <= machine.refused
      ensures AttemptedOne(machine.denote(route.destination), machine.k.main, machine.refused)
      ensures installed == if ok then old(installed) + [route] else old(installed)
      ensures forall i :: |old(machine.log)| <= i < |machine.log| ==> machine.log[i] == machine.k
    {
      ok := false;
      var key := machine.denote(route.destination);
      var there := machine.RouteExists(key);
      if !there {
        ok := machine.AddRoute(key, route.via);
        if ok {
          installed := installed + [route];
          KeysAppend(old(installed), route, machine.denote);
        }
      }
    }

    method InstallBypass(routes: seq<Route>) returns (ghost accepts: seq<bool>)
      requires Valid()
      modifies this`installed, machine`k, machine`log, machine`refused
      ensures Valid() && |accepts| == |routes|
      ensures machine.k == old(machine.k).(main := Install(old(machine.k.main), routes, machine.denote, accepts).0)
      ensures installed == old(installed) + Install(old(machine.k.main), routes, machine.denote, accepts).1
      ensures Attempted(routes, machine.denote, machine.k.main, machine.refused)
      ensures old(machine.log) <= machine.log
      ensures Bypassing(base, old(machine.k), machine.log, |old(machine.log)|, |machine.log|)
    {
      accepts := [];
      machine.refused := {};
      ghost var more: seq<Route> := [];
      assert routes[..0] == [];
      for i := 0 to |routes|
        invariant Valid() && |accepts| == i && installed == old(installed) + more
        invariant Install(old(machine.k.main), routes[..i], machine.denote, accepts) == (machine.k.main, more)
        invariant machine.k == old(machine.k).(main := machine.k.main)
        invariant Attempted(routes[..i], machine.denote, machine.k.main, machine.refused)
        invariant old(machine.log) <= machine.log
        invariant forall j :: |old(machine.log)| <= j < |machine.log| ==> MainOnly(base, old(machine.k), machine.log[j])
      {
        ghost var main, refused := machine.k.main, machine.refused;
        var ok := InstallRoute(routes[i]);
        AttemptOneMore(routes, i, machine.denote, main, machine.k.main, refused, machine.refused);
        InstallOneMore(old(machine.k.main), routes, i, machine.denote, accepts, ok);
        accepts := accepts + [ok];
        more := if ok then more + [routes[i]] else more;
      }
      assert routes[..|routes|] == routes;
    }

    method RemoveBypass() returns (ghost obliges: seq<bool>)
      requires Valid()
      modifies this`installed, machine`k, machine`log, machine`faults
      ensures Valid() && installed == [] && |obliges| == |old(installed)|
      ensures machine.k == old(machine.k).(main :=
        Withdraw(old(machine.k.main), old(installed), machine.denote, obliges))
      ensures old(machine.log) <= machine.log && old(machine.faults) <= machine.faults
      ensures Bypassing(base, old(machine.k), machine.log, |old(machine.log)|, |machine.log|)
    {
      obliges := [];
      ghost var done: seq<Route> := [];
      while installed != []
        invariant Valid() && old(installed) == done + installed && |obliges| == |done|
        invariant Withdraw(old(machine.k.main), done, machine.denote, obliges) == machine.k.main
        invariant machine.k == old(machine.k).(main := machine.k.main)
        invariant old(machine.log) <= machine.log && old(machine.faults) <= machine.faults
        invariant forall i :: |old(machine.log)| <= i < |machine.log| ==> MainOnly(base, old(machine.k), machine.log[i])
        decreases |installed|
      {
        var route := installed[0];
        KeysTail(installed, machine.denote);
        WithdrawOneMore(old(machine.k.main), done, route, machine.denote, obliges);
        assert old(installed) == done + [route] + installed[1..];
        installed := installed[1..];
        var ok := machine.DeleteRoute(machine.denote(route.destination));
        obliges := obliges + [ok];
        done := done + [route];
      }
      assert done == old(installed);
    }

    // ---- policy rules --------------------------------------------------------

    /** Delete a copy if more than one rule is listed; `again` when that was done. */
    method DeleteCopy(family: bool, rule: PolicyRule, like: PolicyRule -> bool, ghost k0: Kernel, ghost n: nat)
      returns (again: bool)
      requires machine.Valid() && like(rule) && machine.k == Pruned(k0, family, rule, n)
      requires n <= Excess(rule, like, k0.rules.Of(family))
      modifies machine`k, machine`log, machine`faults
      ensures machine.Valid() && old(machine.faults) <= machine.faults
      ensures again ==> n < Excess(rule, like, k0.rules.Of(family)) && machine.k == Pruned(k0, family, rule, n + 1)
      ensures again ==> machine.log == old(machine.log) + [machine.k]
      ensures !again ==> machine.k == old(machine.k) && machine.log == old(machine.log)
      ensures !again && !New(CopiesLeft, old(machine.faults), machine.faults) ==>
        n == Excess(rule, like, k0.rules.Of(family))
    {
      KeepGoing(k0, family, rule, like, n);
      PrunedOnce(k0, family, rule, n);
      again := false;
      var count := machine.CountRules(family, like);
      if count > 1 {
        again := machine.DeleteRule(family, rule);
      }
    }

    /** Delete copies of one rule until one is listed or a deletion fails. */
    method DeleteCopies(family: bool, rule: PolicyRule, like: PolicyRule -> bool) returns (ghost n: nat)
      requires machine.Valid() && like(rule)
      modifies machine`k, machine`log, machine`faults
      ensures machine.Valid() && n <= Excess(rule, like, old(machine.k.rules).Of(family))
      ensures machine.k == Pruned(old(machine.k), family, rule, n)
      ensures old(machine.faults) <= machine.faults
      ensures !New(CopiesLeft, old(machine.faults), machine.faults) ==>
        n == Excess(rule, like, old(machine.k.rules).Of(family))
      ensures old(machine.log) <= machine.log && |machine.log| == |old(machine.log)| + n
      ensures forall i :: |old(machine.log)| <= i < |machine.log| ==>
        machine.log[i] == Pruned(old(machine.k), family, rule, i + 1 - |old(machine.log)|)
    {
      ghost var k0, most := machine.k, Excess(rule, like, machine.k.rules.Of(family));
      n := 0;
      PrunedNone(k0, family, rule);
      var again := true;
      while again
        invariant machine.Valid() && n <= most && machine.k == Pruned(k0, family, rule, n)
        invariant old(machine.faults) <= machine.faults
        invariant !again && !New(CopiesLeft, old(machine.faults), machine.faults) ==> n == most
        invariant old(machine.log) <= machine.log && |machine.log| == |old(machine.log)| + n
        invariant forall i :: |old(machine.log)| <= i < |machine.log| ==>
          machine.log[i] == Pruned(k0, family, rule, i + 1 - |old(machine.log)|)
        decreases most - n, again
      {
        again := DeleteCopy(family, rule, like, k0, n);
        if again {
          n := n + 1;
        }
      }
    }

    method PruneRule(family: bool, rule: PolicyRule, like: PolicyRule -> bool)
      requires machine.Valid()
      requires || (rule == Lookup(machine.mark) && like == LookupLike(machine.mark))
               || (rule == SUPPRESS && like == SuppressLike())
      modifies machine`k, machine`log, machine`faults
      ensures machine.Valid() && RoutingOnly(machine.mark, old(machine.k), machine.k)
      ensures machine.k.routed == old(machine.k.routed)
      ensures machine.k.rules == old(machine.k.rules).With(family, machine.k.rules.Of(family))
      ensures old(machine.faults) <= machine.faults
      ensures !New(CopiesLeft, old(machine.faults), machine.faults) ==>
        machine.k.rules.Of(family) == Prune(rule, like, old(machine.k.rules).Of(family))
      ensures old(machine.log) <= machine.log
      ensures forall i :: |old(machine.log)| <= i < |machine.log| ==>
        RoutingOnly(machine.mark, old(machine.k), machine.log[i])
    {
      LookupIsLookupLike(machine.mark);
      ghost var n := DeleteCopies(family, rule, like);
      PrunedRouting(machine.mark, old(machine.k), family, rule, like, n);
      forall j | 1 <= j <= n
        ensures RoutingOnly(machine.mark, old(machine.k), Pruned(old(machine.k), family, rule, j))
      {
        PrunedRouting(machine.mark, old(machine.k), family, rule, like, j);
      }
    }

    method PruneFamily(family: bool)
      requires machine.Valid()
      modifies machine`k, machine`log, machine`faults
      ensures machine.Valid() && RoutingOnly(machine.mark, old(machine.k), machine.k)
      ensures machine.k.routed == old(machine.k.routed)
      ensures machine.k.rules == old(machine.k.rules).With(family, machine.k.rules.Of(family))
      ensures old(machine.faults) <= machine.faults
      ensures !New(CopiesLeft, old(machine.faults), machine.faults) ==>
        machine.k.rules.Of(family) == PruneBoth(machine.mark, old(machine.k.rules).Of(family))
      ensures old(machine.log) <= machine.log
      ensures forall i :: |old(machine.log)| <= i < |machine.log| ==>
        RoutingOnly(machine.mark, old(machine.k), machine.log[i])
    {
      PruneRule(family, Lookup(machine.mark), LookupLike(machine.mark));
      ghost var k1, mid := machine.k, |machine.log|;
      PruneRule(family, SUPPRESS, SuppressLike());
      EntriesThen(machine.mark, old(machine.k), k1, machine.log, |old(machine.log)|, mid);
      RoutingOnlyThen(machine.mark, old(machine.k), k1, machine.k);
    }

    /** Collapse the policy rules back to one of each, for both families. */
    method PruneDuplicates()
      requires machine.Valid()
      modifies machine`k, machine`log, machine`faults
      ensures machine.Valid() && RoutingOnly(machine.mark, old(machine.k), machine.k)
      ensures machine.k.routed == old(machine.k.routed)
      ensures old(machine.faults) <= machine.faults
      ensures !New(CopiesLeft, old(machine.faults), machine.faults) ==>
        machine.k.rules == PrunedRules(machine.mark, old(machine.k.rules))
      ensures old(machine.log) <= machine.log
      ensures forall i :: |old(machine.log)| <= i < |machine.log| ==>
        RoutingOnly(machine.mark, old(machine.k), machine.log[i])
    {
      PruneFamily(false);
      ghost var k1, mid := machine.k, |machine.log|;
      PruneFamily(true);
      EntriesThen(machine.mark, old(machine.k), k1, machine.log, |old(machine.log)|, mid);
      RoutingOnlyThen(machine.mark, old(machine.k), k1, machine.k);
    }

    /** Install the routing and prune what earlier installations left. */
    method RouteAndPrune(families: seq<bool>) returns (ok: bool)
      requires machine.Valid()
      modifies machine`k, machine`log, machine`faults, machine`errors
      ensures machine.errors == old(machine.errors) + machine.Failed(ok)
      ensures machine.Valid() && RoutingOnly(machine.mark, old(machine.k), machine.k)
      ensures old(machine.faults) <= machine.faults
      ensures ok ==> machine.k.link && Captures(machine.mark, machine.k, families)
      ensures ok && !New(CopiesLeft, old(machine.faults), machine.faults) ==>
        NeatRules(machine.mark, old(machine.k.rules), machine.k.rules, families)
      ensures old(machine.log) <= machine.log
      ensures forall i :: |old(machine.log)| <= i < |machine.log| ==>
        RoutingOnly(machine.mark, old(machine.k), machine.log[i])
    {
      ok := machine.ConfigurePeerRouting(families);
      if ok {
        ghost var k1, mid := machine.k, |machine.log|;
        PruneDuplicates();
        EntriesThen(machine.mark, old(machine.k), k1, machine.log, |old(machine.log)|, mid);
        RoutingOnlyThen(machine.mark, old(machine.k), k1, machine.k);
        CapturedAfter(machine.mark, old(machine.k), families, machine.k);
        SingleAfter(machine.mark, old(machine.k), families);
        TidyAfter(machine.mark, old(machine.k), families);
      }
    }

    // ---- switching -----------------------------------------------------------

    /** Remove the peer, rotate the port, add the peer back, reinstall the routing. */
    method Retarget(spec: Spec, ghost was: SocketAddr) returns (ok: bool)
      requires Valid() && Held(machine.k.net, was)
      modifies machine`k, machine`log, machine`faults, machine`errors
      ensures machine.errors == old(machine.errors) + machine.Failed(ok)
      ensures Valid() && Moving(machine.mark, old(machine.k), machine.k, was, spec.endpoint)
      ensures LastKept(machine.mark, old(machine.k.rules), machine.k.rules) && old(machine.faults) <= machine.faults
      ensures ok ==> machine.k.link && Captures(machine.mark, machine.k, spec.families)
      ensures ok ==> PointsAt(machine.k.net, spec.endpoint)
      ensures Obeys(Move(spec.endpoint, ok), was, old(machine.k.net), machine.k.net)
      ensures ok && !New(CopiesLeft, old(machine.faults), machine.faults) ==>
        NeatRules(machine.mark, old(machine.k.rules), machine.k.rules, spec.families)
      ensures old(machine.log) <= machine.log
      ensures forall i :: |old(machine.log)| <= i < |machine.log| ==>
        Moving(machine.mark, old(machine.k), machine.log[i], was, spec.endpoint)
    {
      ok := Replace(spec.endpoint, was);
      ghost var k1, mid := machine.k, |machine.log|;
      EntriesReplacing(machine.mark, old(machine.k), machine.log, |old(machine.log)|, was, spec.endpoint);
      if ok {
        ok := RouteAndPrune(spec.families);
        EntriesMoving(machine.mark, old(machine.k), k1, machine.log, |old(machine.log)|, mid, was, spec.endpoint);
        MovingThen(machine.mark, old(machine.k), k1, machine.k, was, spec.endpoint);
      }
    }

    /** The peer's part of a switch, with packets moving between any two calls. */
    method Replace(target: SocketAddr, ghost was: SocketAddr) returns (ok: bool)
      requires machine.Valid() && Held(machine.k.net, was)
      modifies machine`k, machine`log, machine`errors
      ensures machine.errors == old(machine.errors) + machine.Failed(ok)
      ensures machine.Valid() && Replacing(old(machine.k), machine.k, was, target)
      ensures ok ==> PointsAt(machine.k.net, target)
      ensures old(machine.log) <= machine.log
      ensures forall i :: |old(machine.log)| <= i < |machine.log| ==>
        Replacing(old(machine.k), machine.log[i], was, target)
    {
      ghost var n0 := machine.k.net;
      machine.Yield();
      DriftHolds(n0, machine.k.net, was);
      ok := machine.RemovePeer();
      if !ok { return; }
      ok := Rotate(target, was);
      if !ok { return; }
      ok := AddBack(target);
    }

    method AddBack(target: SocketAddr) returns (ok: bool)
      requires machine.Valid() && Held(machine.k.net, target)
      modifies machine`k, machine`log, machine`errors
      ensures machine.errors == old(machine.errors) + machine.Failed(ok)
      ensures machine.Valid() && Replacing(old(machine.k), machine.k, target, target)
      ensures ok ==> PointsAt(machine.k.net, target)
      ensures old(machine.log) <= machine.log
      ensures forall i :: |old(machine.log)| <= i < |machine.log| ==>
        Replacing(old(machine.k), machine.log[i], target, target)
    {
      ghost var n1 := machine.k.net;
      machine.Yield();
      DriftHolds(n1, machine.k.net, target);
      ok := machine.ConfigurePeer(target);
      ghost var n2 := machine.k.net;
      machine.Yield();
      DriftHolds(n2, machine.k.net, target);
    }

    /** Rebind the interface, which is nobody's meanwhile. */
    method Rotate(ghost target: SocketAddr, ghost was: SocketAddr) returns (ok: bool)
      requires machine.Valid() && Held(machine.k.net, was) && machine.k.net.peer.None?
      modifies machine`k, machine`log, machine`errors
      ensures machine.errors == old(machine.errors) + machine.Failed(ok)
      ensures machine.Valid() && Replacing(old(machine.k), machine.k, was, target)
      ensures ok ==> Held(machine.k.net, target) && machine.k.net.peer.None?
      ensures old(machine.log) <= machine.log
      ensures forall i :: |old(machine.log)| <= i < |machine.log| ==>
        Replacing(old(machine.k), machine.log[i], was, target)
    {
      ghost var n0 := machine.k.net;
      machine.Yield();
      DriftHolds(n0, machine.k.net, was);
      ghost var n1 := machine.k.net;
      ok := machine.ConfigureInterface(None);
      if Rebound(n1, machine.k.net, None) {
        ReboundHolds(n1, machine.k.net, None, target);
      }
    }

    // ---- bringing up ---------------------------------------------------------

    /** Create the interface and give it its peer, on a port nobody has seen. */
    method Create(target: SocketAddr) returns (ok: bool)
      requires Valid()
      modifies this`created, machine`k, machine`log, machine`errors
      ensures machine.errors == old(machine.errors) + machine.Failed(ok)
      ensures Valid()
      ensures machine.k == old(machine.k).(link := machine.k.link, net := machine.k.net, routed := machine.k.routed)
      ensures created == (old(created) || (machine.k.link && !old(machine.k.link)))
      ensures old(machine.k.link) ==> machine.k.link
      ensures ok ==> created && PointsAt(machine.k.net, target)
      ensures old(machine.log) < machine.log
      ensures forall i :: |old(machine.log)| <= i < |machine.log| ==>
        machine.log[i] == old(machine.k).(link := machine.log[i].link, net := machine.log[i].net,
          routed := machine.log[i].routed)
    {
      ok := machine.CreateInterface();
      if !ok { return; }
      created := true;
      ghost var n1 := machine.k.net;
      machine.Yield();
      DriftKeepsPeer(n1, machine.k.net);
      ghost var n2 := machine.k.net;
      ok := machine.ConfigureInterface(Some(target));
      if !ok { return; }
      ReboundHolds(n2, machine.k.net, Some(target), target);
      RebindSets(n2, machine.k.net, target);
      ghost var n3 := machine.k.net;
      machine.Yield();
      DriftPoints(n3, machine.k.net, target);
    }

    /** The interface is ours, points at the server, and takes the traffic it should. */
    ghost predicate IsUp(spec: Spec)
      reads this, machine
    {
      created && machine.k.link && PointsAt(machine.k.net, spec.endpoint)
        && Captures(machine.mark, machine.k, spec.families)
    }

    /** The interface with its peer, and the routing. */
    method Assemble(spec: Spec) returns (ok: bool)
      requires Valid()
      modifies this`created, machine`k, machine`log, machine`faults, machine`errors
      ensures machine.errors == old(machine.errors) + machine.Failed(ok)
      ensures Valid() && Raised(machine.mark, old(machine.k), machine.k)
      ensures old(machine.faults) <= machine.faults
      ensures created == (old(created) || (machine.k.link && !old(machine.k.link)))
      ensures old(machine.k.link) ==> machine.k.link
      ensures ok ==> IsUp(spec)
      ensures ok && !New(CopiesLeft, old(machine.faults), machine.faults) ==>
        NeatRules(machine.mark, old(machine.k.rules), machine.k.rules, spec.families)
      ensures old(machine.log) < machine.log
      ensures RaisedSince(machine.mark, old(machine.k), machine.log, |old(machine.log)|)
    {
      RulesKeptSame(machine.mark, machine.k.rules);
      ok := Create(spec.endpoint);
      if ok {
        ghost var k1, mid := machine.k, |machine.log|;
        ok := RouteAndPrune(spec.families);
        EntriesRaised(machine.mark, old(machine.k), k1, machine.log, |old(machine.log)|, mid);
        RoutingOnlyThen(machine.mark, old(machine.k).(link := k1.link, net := k1.net), k1, machine.k);
      }
    }

    method BringUp(spec: Spec) returns (ok: bool)
      requires Valid()
      modifies this`created, machine`k, machine`log, machine`faults, machine`errors, machine`resolver
      ensures machine.errors == old(machine.errors) + machine.Failed(ok)
      ensures ok && spec.dns ==> machine.resolver
      ensures Valid() && Raised(machine.mark, old(machine.k), machine.k)
      ensures old(machine.faults) <= machine.faults
      ensures created == (old(created) || (machine.k.link && !old(machine.k.link)))
      ensures old(machine.k.link) ==> machine.k.link
      ensures ok ==> IsUp(spec)
      ensures ok && !New(CopiesLeft, old(machine.faults), machine.faults) ==>
        NeatRules(machine.mark, old(machine.k.rules), machine.k.rules, spec.families)
      ensures old(machine.log) < machine.log
      ensures RaisedSince(machine.mark, old(machine.k), machine.log, |old(machine.log)|)
    {
      ok := Assemble(spec);
      if ok && spec.dns {
        ok := machine.ConfigureDns();
      }
    }

    /** What the firewall is while the kill switch, if there is one, is on. */
    ghost function Confinement(exempt: seq<string>, before: Option<Firewall.Chain>): Option<Firewall.Chain> {
      if killswitch.Some? then Some(Firewall.Script(killswitch.value, exempt, machine.denote)) else before
    }

    /** Install the bypass routes, then the kill switch told about them. */
    method Confine() returns (ok: bool, ghost engaged: nat, ghost accepts: seq<bool>)
      requires Valid()
      modifies this`plan, this`installed, machine`k, machine`log, machine`faults, machine`errors, machine`refused
      ensures machine.errors == old(machine.errors) + machine.Failed(ok)
      ensures Valid() && machine.k == old(machine.k).(main := machine.k.main, chain := machine.k.chain)
      ensures old(machine.log) <= machine.log && |old(machine.log)| <= engaged <= |machine.log|
      ensures Bypassing(base, old(machine.k), machine.log, |old(machine.log)|, engaged)
      ensures Settled(machine.log, engaged, machine.k)
      ensures ok ==> machine.k.chain == Confinement(Destinations(installed), old(machine.k.chain))
      ensures machine.k.chain == old(machine.k.chain)
        || machine.k.chain == Confinement(Destinations(installed), old(machine.k.chain))
      ensures killswitch.None? ==> ok && machine.k.chain == old(machine.k.chain)
      ensures old(machine.faults) <= machine.faults
      ensures Attempted(old(plan), machine.denote, machine.k.main, machine.refused)
      ensures InstalledFrom(old(machine.k.main), old(plan), machine.denote, accepts, old(installed),
                            machine.k.main, installed)
    {
      var routes := plan;
      plan := [];
      accepts := InstallBypass(routes);
      engaged := |machine.log|;
      ok := true;
      if killswitch.Some? {
        var script := Firewall.BuildScript(killswitch.value, Destinations(installed), machine.denote);
        ok := machine.Nft(Some(script));
      }
    }

    /** Withdraw the bypass routes, then release the kill switch. */
    method Release() returns (ok: bool, ghost lifted: nat)
      requires Valid()
      modifies this`installed, machine`k, machine`log, machine`faults, machine`errors
      ensures machine.errors == old(machine.errors) + machine.Failed(ok)
      ensures Valid() && installed == []
      ensures machine.k == old(machine.k).(main := machine.k.main, chain := machine.k.chain)
      ensures old(machine.log) <= machine.log && |old(machine.log)| <= lifted <= |machine.log|
      ensures Bypassing(base, old(machine.k), machine.log, |old(machine.log)|, lifted)
      ensures Settled(machine.log, lifted, machine.k)
      ensures killswitch.None? ==> machine.k.chain == old(machine.k.chain) && lifted == |machine.log|
      ensures killswitch.Some? ==> machine.k.chain.None? || New(ChainLeft, old(machine.faults), machine.faults)
      ensures machine.k.chain.None? || machine.k.chain == old(machine.k.chain)
      ensures old(machine.faults) <= machine.faults
    {
      ghost var obliges := RemoveBypass();
      lifted := |machine.log|;
      ok := true;
      if killswitch.Some? {
        ok := machine.Nft(None);
      }
    }

    /** Bring the interface up, or undo what went before: the kill switch is on up to `lifted`, and nothing has changed
        from `engaged` on. */
    method Raise(spec: Spec, ghost engaged: nat) returns (ok: bool, ghost lifted: nat)
      requires Valid() && engaged <= |machine.log| && Settled(machine.log, engaged, machine.k)
      modifies this`created, this`installed, machine`k, machine`log, machine`faults, machine`errors, machine`resolver
      ensures machine.errors >= old(machine.errors) && (ok <==> machine.errors == old(machine.errors))
      ensures ok && spec.dns ==> machine.resolver
      ensures Valid() && old(machine.log) <= machine.log && |old(machine.log)| < lifted <= |machine.log|
      ensures Screened(base, old(machine.k.chain), machine.log, engaged, lifted)
      ensures Settled(machine.log, lifted, machine.k)
      ensures machine.log[engaged].main == old(machine.k.main)
      ensures created == (old(created) || (machine.k.link && !old(machine.k.link)))
      ensures old(machine.k.link) ==> machine.k.link
      ensures ok ==> lifted == |machine.log| && installed == old(installed) && machine.k.main == old(machine.k.main)
      ensures LastKept(machine.mark, old(machine.k.rules), machine.k.rules) && old(machine.faults) <= machine.faults
      ensures ok ==> IsUp(spec)
      ensures ok && !New(CopiesLeft, old(machine.faults), machine.faults) ==>
        NeatRules(machine.mark, old(machine.k.rules), machine.k.rules, spec.families)
      ensures killswitch.None? ==> machine.k.chain == old(machine.k.chain)
      ensures machine.k.chain.None? || machine.k.chain == old(machine.k.chain)
      ensures !ok ==> installed == []
      ensures !ok && killswitch.Some? ==>
        machine.k.chain.None? || New(ChainLeft, old(machine.faults), machine.faults)
    {
      ghost var k0, log0 := machine.k, machine.log;
      ok := BringUp(spec);
      lifted := |machine.log|;
      if !ok {
        var released;
        released, lifted := Release();
      }
      ScreenedThen(base, k0, log0, machine.log, engaged, lifted);
    }

    /** Bypass routes and kill switch first, then the interface; if that fails they are undone.
        Up to `engaged` only bypass routes change, from there to `lifted` the kill switch is on. */
    method Up(spec: Spec)
      returns (ok: bool, ghost engaged: nat, ghost lifted: nat, ghost routes: seq<Route>, ghost accepts: seq<bool>,
               ghost table: Table)
      requires Valid()
      modifies this, machine
      ensures machine.errors >= old(machine.errors)
      ensures ok <==> ValidName(spec.iface) && machine.errors == old(machine.errors)
      ensures !ValidName(spec.iface) ==>
        && machine.k == old(machine.k) && machine.log == old(machine.log) && machine.errors == old(machine.errors)
        && installed == old(installed) && plan == old(plan) && created == old(created)
      ensures ok && spec.dns ==> machine.resolver
      ensures Valid() && old(machine.log) <= machine.log && |old(machine.log)| <= engaged <= lifted <= |machine.log|
      ensures Bypassing(base, old(machine.k), machine.log, |old(machine.log)|, engaged)
      ensures Screened(base, Confinement(Destinations(routes), old(machine.k.chain)), machine.log, engaged, lifted)
      ensures killswitch.Some? && Firewall.Spells(machine.denote) ==>
        ConfinedThroughout(machine.log, engaged, lifted, killswitch.value, Destinations(routes), machine.denote)
      ensures Settled(machine.log, lifted, machine.k)
      ensures created == (old(created) || (machine.k.link && !old(machine.k.link)))
      ensures old(machine.k.link) ==> machine.k.link
      ensures ValidName(spec.iface) ==>
        && InstalledFrom(old(machine.k.main), old(plan), machine.denote, accepts, old(installed), table, routes)
        && Attempted(old(plan), machine.denote, table, machine.refused)
      ensures engaged < |machine.log| ==> machine.log[engaged].main == table
      ensures machine.k.chain.None? || machine.k.chain == old(machine.k.chain)
        || machine.k.chain == Confinement(Destinations(routes), old(machine.k.chain))
      ensures ok ==> engaged < lifted == |machine.log|
      ensures ok ==> installed == routes && machine.k.main == table
      ensures LastKept(machine.mark, old(machine.k.rules), machine.k.rules) && old(machine.faults) <= machine.faults
      ensures ok ==> IsUp(spec)
      ensures Roaming.Obeys(Roaming.BringUp(spec.endpoint, ok), spec.endpoint, old(machine.k.net), machine.k.net)
      ensures ok && !New(CopiesLeft, old(machine.faults), machine.faults) ==>
        NeatRules(machine.mark, old(machine.k.rules), machine.k.rules, spec.families)
      ensures killswitch.None? ==> machine.k.chain == old(machine.k.chain)
      ensures killswitch.Some? && !ok && engaged < lifted ==>
        machine.k.chain.None? || New(ChainLeft, old(machine.faults), machine.faults)
    {
      ok, engaged, lifted, routes, accepts, table := false, |machine.log|, |machine.log|, [], [], machine.k.main;
      var named := Validate(spec.iface);
      if !named { return; }
      ok, engaged, accepts := Confine();
      lifted, routes, table := engaged, installed, machine.k.main;
      if ok {
        ghost var log1 := machine.log;
        ok, lifted := Raise(spec, engaged);
        BypassingStays(base, old(machine.k), log1, machine.log, |old(machine.log)|, engaged);
        if killswitch.Some? && Firewall.Spells(machine.denote) {
          ScreenedConfines(base, killswitch.value, Destinations(routes), machine.denote, machine.log, engaged, lifted);
        }
      }
    }

    // ---- taking down ---------------------------------------------------------

    /** Remove the interface, then release, whatever fails: the kill switch is on up to `lifted`. */
    method Down() returns (ok: bool, ghost lifted: nat)
      requires Valid()
      modifies this, machine
      ensures machine.errors >= old(machine.errors) && (ok <==> machine.errors == old(machine.errors))
      ensures Valid() && installed == [] && !created
      ensures old(machine.log) <= machine.log && |old(machine.log)| < lifted <= |machine.log|
      ensures Screened(base, old(machine.k.chain), machine.log, |old(machine.log)|, lifted)
      ensures Settled(machine.log, lifted, machine.k)
      ensures LastKept(machine.mark, old(machine.k.rules), machine.k.rules) && old(machine.faults) <= machine.faults
      ensures ok ==> !machine.k.link
      ensures !machine.k.link || New(InterfaceLeft, old(machine.faults), machine.faults)
      ensures killswitch.None? ==> machine.k.chain == old(machine.k.chain)
      ensures killswitch.Some? ==> machine.k.chain.None? || New(ChainLeft, old(machine.faults), machine.faults)
    {
      var removed := machine.RemoveInterface();
      created := false;
      var released;
      released, lifted := Release();
      ok := released && removed;
    }

    /** Remove the interface if it is ours. */
    method Discard()
      requires Valid()
      modifies machine
      ensures Valid() && old(machine.errors) <= machine.errors
      ensures machine.k == old(machine.k).(link := machine.k.link, net := machine.k.net, routed := machine.k.routed,
                                           rules := machine.k.rules)
      ensures old(machine.log) <= machine.log
      ensures forall i :: |old(machine.log)| <= i < |machine.log| ==> machine.log[i] == machine.k
      ensures old(machine.faults) <= machine.faults && LastKept(machine.mark, old(machine.k.rules), machine.k.rules)
      ensures if created then !machine.k.link || New(InterfaceLeft, old(machine.faults), machine.faults)
              else machine.k.link == old(machine.k.link)
    {
      if created {
        var removed := machine.RemoveInterface();
      }
    }

    /** Dropping the handle: the interface only if it is ours, then the kill switch, which is on up to `lifted`,
        then the bypass routes. */
    method Drop() returns (ghost lifted: nat)
      requires Valid()
      modifies this, machine
      ensures Valid() && installed == [] && old(machine.errors) <= machine.errors
      ensures old(machine.log) <= machine.log && |old(machine.log)| <= lifted <= |machine.log|
      ensures forall i :: |old(machine.log)| <= i < lifted ==> machine.log[i].chain == old(machine.k.chain)
      ensures forall i :: lifted <= i < |machine.log| ==> machine.log[i] == machine.k.(main := machine.log[i].main)
      ensures forall i :: |old(machine.log)| <= i < |machine.log| ==> Preserves(base, machine.log[i].main)
      ensures old(machine.faults) <= machine.faults && LastKept(machine.mark, old(machine.k.rules), machine.k.rules)
      ensures if old(created) then !machine.k.link || New(InterfaceLeft, old(machine.faults), machine.faults)
              else machine.k.link == old(machine.k.link)
      ensures killswitch.None? ==> machine.k.chain == old(machine.k.chain)
      ensures killswitch.Some? ==> machine.k.chain.None? || New(ChainLeft, old(machine.faults), machine.faults)
    {
      Discard();
      lifted := |machine.log|;
      if killswitch.Some? {
        var released := machine.Nft(None);
      }
      ghost var obliges := RemoveBypass();
    }
  }

  /** While copies may be deleted more than one line is listed, and then no more. */
  lemma KeepGoing(k: Kernel, family: bool, rule: PolicyRule, like: PolicyRule -> bool, n: nat)
    requires like(rule) && n <= Excess(rule, like, k.rules.Of(family))
    ensures var rs := Pruned(k, family, rule, n).rules.Of(family);
      n == Excess(rule, like, k.rules.Of(family)) <==> Count(like, rs) <= 1 || rule !in rs
  {
    LeftAfter(rule, like, k.rules.Of(family), n);
  }

  /** The machine without the first `n` copies of a rule. */
  function Pruned(k: Kernel, family: bool, rule: PolicyRule, n: nat): Kernel {
    k.(rules := k.rules.With(family, Without(rule, n, k.rules.Of(family))))
  }

  lemma PrunedNone(k: Kernel, family: bool, rule: PolicyRule)
    ensures Pruned(k, family, rule, 0) == k
  {}

  lemma PrunedOnce(k: Kernel, family: bool, rule: PolicyRule, n: nat)
    ensures Pruned(Pruned(k, family, rule, n), family, rule, 1) == Pruned(k, family, rule, n + 1)
  {
    WithoutOneMore(rule, n, k.rules.Of(family));
  }

  lemma PrunedRouting(mark: nat, k: Kernel, family: bool, rule: PolicyRule, like: PolicyRule -> bool, n: nat)
    requires (rule == Lookup(mark) && like == LookupLike(mark)) || (rule == SUPPRESS && like == SuppressLike())
    requires n <= Excess(rule, like, k.rules.Of(family))
    ensures RoutingOnly(mark, k, Pruned(k, family, rule, n))
  {
    PrunedKept(mark, rule, like, k.rules.Of(family), n);
  }

  /** What is listed after deleting `n` copies. */
  lemma LeftAfter(rule: PolicyRule, like: PolicyRule -> bool, rs: seq<PolicyRule>, n: nat)
    requires like(rule) && n <= Excess(rule, like, rs)
    ensures Copies(rule, Without(rule, n, rs)) == Copies(rule, rs) - n
    ensures Count(like, Without(rule, n, rs)) == Copies(rule, rs) - n + Count(Lookalike(like, rule), rs)
    ensures Copies(rule, Without(rule, n, rs)) > 0 <==> rule in Without(rule, n, rs)
  {
    CopiesMember(rule, Without(rule, n, rs));
    CountSplits(rule, like, Without(rule, n, rs));
    WithoutCounts(rule, n, rs);
    WithoutKeepsOthers(rule, n, rs, Lookalike(like, rule));
  }

  lemma KeysTail(rs: seq<Route>, denote: string -> Cidr)
    requires rs != []
    ensures Keys(rs, denote) == {denote(rs[0].destination)} + Keys(rs[1..], denote)
  {
    assert forall x :: x in rs <==> x == rs[0] || x in rs[1..];
  }

  function TakenIf(ok: bool, main: Table, done: seq<Route>, route: Route, denote: string -> Cidr,
                   obliges: seq<bool>): Table
    requires |obliges| == |done|
  {
    var main1 := Withdraw(main, done, denote, obliges);
    if ok then main1 - {denote(route.destination)} else main1
  }

  lemma WithdrawOneMore(main: Table, done: seq<Route>, route: Route, denote: string -> Cidr, obliges: seq<bool>)
    requires |obliges| == |done|
    ensures forall ok ::
      Withdraw(main, done + [route], denote, obliges + [ok]) == TakenIf(ok, main, done, route, denote, obliges)
  {
    forall ok: bool
      ensures Withdraw(main, done + [route], denote, obliges + [ok]) == TakenIf(ok, main, done, route, denote, obliges)
    {
      WithdrawAppend(main, done, [route], denote, obliges, [ok]);
      assert [route][1..] == [] && [ok][1..] == [];
    }
  }

  lemma InstallOneMore(main: Table, routes: seq<Route>, i: nat, denote: string -> Cidr, accepts: seq<bool>, ok: bool)
    requires i < |routes| && |accepts| == i
    ensures var (main1, more) := Install(main, routes[..i], denote, accepts);
      var key := denote(routes[i].destination);
      Install(main, routes[..i + 1], denote, accepts + [ok]) ==
        if key in main1 || !ok then (main1, more) else (main1[key := routes[i].via], more + [routes[i]])
  {
    assert routes[..i + 1] == routes[..i] + [routes[i]];
    InstallAppend(main, routes[..i], [routes[i]], denote, accepts, [ok]);
    InstallOne(Install(main, routes[..i], denote, accepts).0, routes[i], denote, ok);
    assert Install(main, routes[..i], denote, accepts).1 + [] == Install(main, routes[..i], denote, accepts).1;
  }

  lemma InstallOne(main: Table, route: Route, denote: string -> Cidr, ok: bool)
    ensures Install(main, [route], denote, [ok]) ==
      var key := denote(route.destination);
      if key in main || !ok then (main, []) else (main[key := route.via], [route])
  {
    assert [route][1..] == [] && [ok][1..] == [] && [route] + [] == [route];
  }

  /** Every destination is routed, or its route was refused. */
  ghost predicate Attempted(routes: seq<Route>, denote: string -> Cidr, main: Table, refused: set<Cidr>) {
    forall i :: 0 <= i < |routes| ==> AttemptedOne(denote(routes[i].destination), main, refused)
  }

  ghost predicate AttemptedOne(key: Cidr, main: Table, refused: set<Cidr>) {
    key in main || key in refused
  }

  lemma AttemptOneMore(routes: seq<Route>, i: nat, denote: string -> Cidr, main: Table, main': Table,
                       refused: set<Cidr>, refused': set<Cidr>)
    requires i < |routes| && Attempted(routes[..i], denote, main, refused)
    requires main.Keys <= main'.Keys && refused <= refused'
    requires AttemptedOne(denote(routes[i].destination), main', refused')
    ensures Attempted(routes[..i + 1], denote, main', refused')
  {
    var before, next := routes[..i], routes[..i + 1];
    forall j | 0 <= j < |next| ensures AttemptedOne(denote(next[j].destination), main', refused') {
      if j < i {
        assert before[j] == next[j];
        assert AttemptedOne(denote(before[j].destination), main, refused);
      }
    }
  }

  lemma KeysAppend(rs: seq<Route>, r: Route, denote: string -> Cidr)
    ensures Keys(rs + [r], denote) == Keys(rs, denote) + {denote(r.destination)}
  {
    assert forall x :: x in rs + [r] <==> x in rs || x == r;
    forall key ensures key in Keys(rs + [r], denote) <==> key in Keys(rs, denote) + {denote(r.destination)} {
      if key == denote(r.destination) {
        assert r in rs + [r];
      }
    }
  }

  /** Installing `plan` into `main` with these answers of the kernel leaves `main'` and adds to what was installed. */
  ghost predicate InstalledFrom(main: Table, plan: seq<Route>, denote: string -> Cidr, accepts: seq<bool>,
                                before: seq<Route>, main': Table, after: seq<Route>)
  {
    |accepts| == |plan|
    && after == before + Install(main, plan, denote, accepts).1 && main' == Install(main, plan, denote, accepts).0
  }

  // ---- connecting ------------------------------------------------------------

  /** Bring a new tunnel up; if that fails, drop it. */
  method UpOrGone(t: LinuxTunnel, spec: Spec) returns (ok: bool)
    requires t.Valid() && !t.created && t.installed == [] && t.base == t.machine.k.main
    requires t.began == t.machine.faults
    modifies t, t.machine
    ensures t.Valid() && t.machine.errors >= old(t.machine.errors)
    ensures ok <==> ValidName(spec.iface) && t.machine.errors == old(t.machine.errors)
    ensures ok ==> t.IsUp(spec) && (spec.dns ==> t.machine.resolver)
    ensures ok && t.killswitch.Some? ==>
      t.machine.k.chain == Some(Firewall.Script(t.killswitch.value, Destinations(t.installed), t.machine.denote))
    ensures !ok ==> t.installed == []
    ensures !ok ==>
      t.machine.k.link == old(t.machine.k.link) || New(InterfaceLeft, old(t.machine.faults), t.machine.faults)
    ensures !ok && t.killswitch.Some? && t.machine.k.chain.Some? ==>
      New(ChainLeft, old(t.machine.faults), t.machine.faults)
    ensures !ok && t.killswitch.None? ==> t.machine.k.chain == old(t.machine.k.chain)
    ensures LastKept(t.machine.mark, old(t.machine.k.rules), t.machine.k.rules)
    ensures old(t.machine.log) <= t.machine.log && old(t.machine.faults) <= t.machine.faults
    ensures PreservedSince(old(t.machine.k.main), t.machine.log, |old(t.machine.log)|)
  {
    ghost var engaged, lifted, routes, accepts, table;
    ok, engaged, lifted, routes, accepts, table := t.Up(spec);
    if !ok {
      ghost var dropped := t.Drop();
    }
  }

  ghost predicate PreservedSince(base: Table, log: seq<Kernel>, from: nat) {
    forall i :: from <= i < |log| ==> Preserves(base, log[i].main)
  }

  /** A connect either leaves the tunnel up or, once the handle is dropped, nothing of it: no interface
      of ours, no bypass route, no kill switch, except what could not be cleaned up. */
  method Establish(machine: Machine, iface: string, killswitch: Option<Firewall.Killswitch>, plan: seq<Route>,
                   spec: Spec)
    returns (tunnel: Option<LinuxTunnel>)
    requires machine.Valid()
    modifies machine
    ensures machine.Valid()
    ensures tunnel.Some? <==> ValidName(spec.iface) && machine.errors == old(machine.errors)
    ensures tunnel.Some? ==> fresh(tunnel.value) && tunnel.value.Valid() && tunnel.value.machine == machine
    ensures tunnel.Some? ==> tunnel.value.base == old(machine.k.main) && tunnel.value.IsUp(spec)
    ensures tunnel.Some? && spec.dns ==> machine.resolver
    ensures tunnel.Some? && killswitch.Some? ==>
      machine.k.chain == Some(Firewall.Script(killswitch.value, Destinations(tunnel.value.installed), machine.denote))
    ensures tunnel.None? ==>
      && (machine.k.link == old(machine.k.link) || New(InterfaceLeft, old(machine.faults), machine.faults))
      && Loyal(old(machine.k.main), machine.k.main, {}, old(machine.faults), machine.faults)
      && (if killswitch.Some? then machine.k.chain.None? || New(ChainLeft, old(machine.faults), machine.faults)
          else machine.k.chain == old(machine.k.chain))
    ensures tunnel.None? && machine.faults == old(machine.faults) ==> machine.k.main == old(machine.k.main)
    ensures LastKept(machine.mark, old(machine.k.rules), machine.k.rules) && old(machine.faults) <= machine.faults
    ensures old(machine.log) <= machine.log
    ensures PreservedSince(old(machine.k.main), machine.log, |old(machine.log)|)
  {
    var t := new LinuxTunnel(machine, iface, killswitch, plan);
    var ok := UpOrGone(t, spec);
    if ok {
      tunnel := Some(t);
    } else {
      tunnel := None;
      assert Keys([], machine.denote) == {};
    }
  }

  // ---- a whole life ----------------------------------------------------------

  /** The end of a bring-up or a switch: whether it worked, the length of the log, what had failed and how many errors
      there had been by then. */
  datatype Stop = Stop(ok: bool, at: nat, faults: multiset<Fault>, errors: nat)

  /** The tunnel is where it was sent and takes the traffic it should; once pruned the rules are in order. */
  ghost predicate Arrived(mark: nat, first: Rules, spec: Spec, k: Kernel, tidied: bool) {
    && k.link && PointsAt(k.net, spec.endpoint) && Captures(mark, k, spec.families)
    && (tidied ==> Ordered(mark, first, k.rules, spec.families))
  }

  function Previous(start: Stop, stops: seq<Stop>, j: nat): Stop
    requires j <= |stops|
  {
    if j == 0 then start else stops[j - 1]
  }

  /** What one stop says: it worked exactly when the first name will do and no call returned an error meanwhile, and
      then it arrived. */
  ghost predicate Sound(mark: nat, k: Kernel, before: Stop, log: seq<Kernel>, spec: Spec, named: bool, stop: Stop) {
    && 0 < stop.at <= |log|
    && (stop.ok <==> named && stop.errors == before.errors)
    && (stop.ok ==> Arrived(mark, k.rules, spec, log[stop.at - 1], !New(CopiesLeft, before.faults, stop.faults)))
  }

  ghost predicate AllArrived(mark: nat, k: Kernel, start: Stop, log: seq<Kernel>, specs: seq<Spec>, stops: seq<Stop>) {
    |stops| <= |specs|
    && forall j :: 0 <= j < |stops| ==>
      Sound(mark, k, Previous(start, stops, j), log, specs[j], j == 0 ==> ValidName(specs[0].iface), stops[j])
  }

  lemma OneMoreArrived(mark: nat, k: Kernel, start: Stop, log: seq<Kernel>, log': seq<Kernel>, specs: seq<Spec>,
                       stops: seq<Stop>, stop: Stop)
    requires AllArrived(mark, k, start, log, specs, stops) && log <= log' && |stops| < |specs|
    requires Sound(mark, k, Previous(start, stops, |stops|), log', specs[|stops|],
                   stops == [] ==> ValidName(specs[0].iface), stop)
    ensures AllArrived(mark, k, start, log', specs, stops + [stop])
  {
    var stops' := stops + [stop];
    forall j | 0 <= j < |stops'|
      ensures Sound(mark, k, Previous(start, stops', j), log', specs[j], j == 0 ==> ValidName(specs[0].iface),
                    stops'[j])
    {
      if j < |stops| {
        assert stops'[j] == stops[j] && Previous(start, stops', j) == Previous(start, stops, j);
        SoundLater(mark, k, Previous(start, stops, j), log, log', specs[j], j == 0 ==> ValidName(specs[0].iface),
                   stops[j]);
      }
    }
  }

  lemma SoundLater(mark: nat, k: Kernel, before: Stop, log: seq<Kernel>, log': seq<Kernel>, spec: Spec, named: bool,
                   stop: Stop)
    requires Sound(mark, k, before, log, spec, named, stop) && log <= log'
    ensures Sound(mark, k, before, log', spec, named, stop)
  {
    assert log'[stop.at - 1] == log[stop.at - 1];
  }

  /** One switch of a tunnel that `first` was before. */
  method SwitchOnce(t: LinuxTunnel, spec: Spec, ghost first: Rules, ghost was: SocketAddr, ghost engaged: nat)
    returns (ok: bool)
    requires t.Valid() && Held(t.machine.k.net, was) && engaged <= |t.machine.log|
    requires LastKept(t.machine.mark, first, t.machine.k.rules)
    requires Screened(t.base, t.machine.k.chain, t.machine.log, engaged, |t.machine.log|)
    modifies t.machine
    ensures t.Valid() && old(t.machine.log) <= t.machine.log && old(t.machine.faults) <= t.machine.faults
    ensures t.machine.errors == old(t.machine.errors) + t.machine.Failed(ok)
    ensures Held(t.machine.k.net, was) || Held(t.machine.k.net, spec.endpoint)
    ensures LastKept(t.machine.mark, first, t.machine.k.rules) && t.machine.k.chain == old(t.machine.k.chain)
    ensures Screened(t.base, t.machine.k.chain, t.machine.log, engaged, |t.machine.log|)
    ensures ok ==>
      Arrived(t.machine.mark, first, spec, t.machine.k, !New(CopiesLeft, old(t.machine.faults), t.machine.faults))
  {
    ghost var k0, n := t.machine.k, |t.machine.log|;
    ok := t.Retarget(spec, was);
    LastKeptThen(t.machine.mark, first, k0.rules, t.machine.k.rules);
    if ok && !New(CopiesLeft, old(t.machine.faults), t.machine.faults) {
      TidyAgain(t.machine.mark, first, k0.rules, t.machine.k.rules, spec.families);
    }
    forall i | engaged <= i < |t.machine.log|
      ensures t.machine.log[i].chain == t.machine.k.chain && Preserves(t.base, t.machine.log[i].main)
    {
      if i >= n {
        assert Moving(t.machine.mark, k0, t.machine.log[i], was, spec.endpoint);
      }
    }
  }

  /** A tunnel that came up goes to one server after the other, whether or not each switch works. */
  method SwitchAll(t: LinuxTunnel, specs: seq<Spec>, ghost k: Kernel, ghost start: Stop, ghost engaged: nat,
                   ghost up: Stop)
    returns (ghost stops: seq<Stop>)
    requires t.Valid() && specs != [] && engaged <= |t.machine.log|
    requires Held(t.machine.k.net, specs[0].endpoint) && LastKept(t.machine.mark, k.rules, t.machine.k.rules)
    requires Screened(t.base, t.machine.k.chain, t.machine.log, engaged, |t.machine.log|)
    requires AllArrived(t.machine.mark, k, start, t.machine.log, specs, [up])
    requires up.faults == t.machine.faults && up.errors == t.machine.errors
    modifies t.machine
    ensures t.Valid() && old(t.machine.log) <= t.machine.log && old(t.machine.faults) <= t.machine.faults
    ensures LastKept(t.machine.mark, k.rules, t.machine.k.rules) && t.machine.k.chain == old(t.machine.k.chain)
    ensures Screened(t.base, t.machine.k.chain, t.machine.log, engaged, |t.machine.log|)
    ensures |stops| == |specs| && stops[0] == up && stops[|stops| - 1].at <= |t.machine.log|
    ensures AllArrived(t.machine.mark, k, start, t.machine.log, specs, stops)
  {
    stops := [up];
    ghost var was := specs[0].endpoint;
    for i := 1 to |specs|
      invariant t.Valid() && old(t.machine.log) <= t.machine.log && old(t.machine.faults) <= t.machine.faults
      invariant LastKept(t.machine.mark, k.rules, t.machine.k.rules) && t.machine.k.chain == old(t.machine.k.chain)
      invariant Screened(t.base, t.machine.k.chain, t.machine.log, engaged, |t.machine.log|)
      invariant |stops| == i && stops[0] == up && stops[i - 1].faults == t.machine.faults
      invariant stops[i - 1].errors == t.machine.errors
      invariant AllArrived(t.machine.mark, k, start, t.machine.log, specs, stops)
      invariant Held(t.machine.k.net, was)
    {
      ghost var log := t.machine.log;
      var ok := SwitchOnce(t, specs[i], k.rules, was, engaged);
      ghost var stop := Stop(ok, |t.machine.log|, t.machine.faults, t.machine.errors);
      OneMoreArrived(t.machine.mark, k, start, log, t.machine.log, specs, stops, stop);
      stops := stops + [stop];
      was := if Held(t.machine.k.net, was) then was else specs[i].endpoint;
    }
  }

  /** Where a machine stands. */
  ghost function Standing(machine: Machine): Stop
    reads machine
  {
    Stop(true, |machine.log|, machine.faults, machine.errors)
  }

  /** The bring-up, as the first stop. */
  method SetOut(t: LinuxTunnel, specs: seq<Spec>)
    returns (ok: bool, ghost engaged: nat, ghost lifted: nat, ghost routes: seq<Route>, ghost accepts: seq<bool>,
             ghost table: Table, ghost up: Stop)
    requires t.Valid() && specs != []
    modifies t, t.machine
    ensures t.Valid() && old(t.machine.log) <= t.machine.log && old(t.machine.faults) <= t.machine.faults
    ensures |old(t.machine.log)| <= engaged <= lifted <= |t.machine.log|
    ensures Bypassing(t.base, old(t.machine.k), t.machine.log, |old(t.machine.log)|, engaged)
    ensures Screened(t.base, t.Confinement(Destinations(routes), old(t.machine.k.chain)), t.machine.log,
                     engaged, lifted)
    ensures Settled(t.machine.log, lifted, t.machine.k)
    ensures up == Stop(ok, |t.machine.log|, t.machine.faults, t.machine.errors)
    ensures AllArrived(t.machine.mark, old(t.machine.k), old(Standing(t.machine)), t.machine.log, specs, [up])
    ensures LastKept(t.machine.mark, old(t.machine.k.rules), t.machine.k.rules)
    ensures ValidName(specs[0].iface) ==>
      InstalledFrom(old(t.machine.k.main), old(t.plan), t.machine.denote, accepts, old(t.installed), table, routes)
    ensures engaged < |t.machine.log| ==> t.machine.log[engaged].main == table
    ensures ok ==> engaged < lifted == |t.machine.log| && Held(t.machine.k.net, specs[0].endpoint)
    ensures ok ==> t.machine.k.chain == t.Confinement(Destinations(routes), old(t.machine.k.chain))
  {
    ghost var k, start, log := t.machine.k, Standing(t.machine), t.machine.log;
    ok, engaged, lifted, routes, accepts, table := t.Up(specs[0]);
    up := Stop(ok, |t.machine.log|, t.machine.faults, t.machine.errors);
    if ok && !New(CopiesLeft, start.faults, t.machine.faults) {
      TidyAgain(t.machine.mark, k.rules, k.rules, t.machine.k.rules, specs[0].families);
    }
    OneMoreArrived(t.machine.mark, k, start, log, t.machine.log, specs, [], up);
    assert [] + [up] == [up];
  }

  /** The teardown, the firewall having been as it is since `engaged`. */
  method Close(t: LinuxTunnel, ghost engaged: nat) returns (ghost lifted: nat)
    requires t.Valid() && engaged <= |t.machine.log|
    requires Screened(t.base, t.machine.k.chain, t.machine.log, engaged, |t.machine.log|)
    modifies t, t.machine
    ensures t.Valid() && t.installed == [] && !t.created
    ensures old(t.machine.log) <= t.machine.log && old(t.machine.faults) <= t.machine.faults
    ensures |old(t.machine.log)| < lifted <= |t.machine.log|
    ensures Screened(t.base, old(t.machine.k.chain), t.machine.log, engaged, lifted)
    ensures Settled(t.machine.log, lifted, t.machine.k)
    ensures LastKept(t.machine.mark, old(t.machine.k.rules), t.machine.k.rules)
    ensures t.machine.k.link ==> New(InterfaceLeft, old(t.machine.faults), t.machine.faults)
    ensures t.killswitch.None? ==> t.machine.k.chain == old(t.machine.k.chain)
    ensures t.killswitch.Some? && t.machine.k.chain.Some? ==>
      New(ChainLeft, old(t.machine.faults), t.machine.faults)
  {
    ghost var n := |t.machine.log|;
    var ok;
    ok, lifted := t.Down();
    forall i | engaged <= i < lifted
      ensures t.machine.log[i].chain == old(t.machine.k.chain) && Preserves(t.base, t.machine.log[i].main)
    {
      if i < n {
        assert t.machine.log[i] == old(t.machine.log)[i];
      }
    }
  }

  /** A tunnel's whole life: up on the first server, then to each of the others in turn, whether or not each switch
      works, then down. From `engaged` to `lifted` the kill switch is on, without a break. */
  method Lifetime(t: LinuxTunnel, specs: seq<Spec>)
    returns (ghost engaged: nat, ghost lifted: nat, ghost routes: seq<Route>, ghost accepts: seq<bool>,
             ghost table: Table, ghost stops: seq<Stop>)
    requires t.Valid() && specs != []
    modifies t, t.machine
    ensures t.Valid() && old(t.machine.log) <= t.machine.log && old(t.machine.faults) <= t.machine.faults
    ensures |old(t.machine.log)| <= engaged <= lifted <= |t.machine.log|
    ensures Bypassing(t.base, old(t.machine.k), t.machine.log, |old(t.machine.log)|, engaged)
    ensures Screened(t.base, t.Confinement(Destinations(routes), old(t.machine.k.chain)), t.machine.log,
                     engaged, lifted)
    ensures t.killswitch.Some? && Firewall.Spells(t.machine.denote) ==>
      ConfinedThroughout(t.machine.log, engaged, lifted, t.killswitch.value, Destinations(routes), t.machine.denote)
    ensures Settled(t.machine.log, lifted, t.machine.k)
    ensures ValidName(specs[0].iface) ==>
      InstalledFrom(old(t.machine.k.main), old(t.plan), t.machine.denote, accepts, old(t.installed), table, routes)
    ensures engaged < |t.machine.log| ==> t.machine.log[engaged].main == table
    ensures stops != [] && (stops[0].ok ==> |stops| == |specs| && stops[|stops| - 1].at < lifted)
    ensures AllArrived(t.machine.mark, old(t.machine.k), old(Standing(t.machine)), t.machine.log, specs, stops)
    ensures LastKept(t.machine.mark, old(t.machine.k.rules), t.machine.k.rules)
    ensures stops[0].ok ==> t.installed == [] && !t.created
    ensures stops[0].ok && t.machine.k.link ==> New(InterfaceLeft, old(t.machine.faults), t.machine.faults)
    ensures stops[0].ok && t.killswitch.Some? && t.machine.k.chain.Some? ==>
      New(ChainLeft, old(t.machine.faults), t.machine.faults)
    ensures stops[0].ok && t.killswitch.None? ==> t.machine.k.chain == old(t.machine.k.chain)
  {
    ghost var k, start := t.machine.k, Standing(t.machine);
    var ok;
    ghost var up;
    ok, engaged, lifted, routes, accepts, table, up := SetOut(t, specs);
    stops := [up];
    if ok {
      stops := SwitchAll(t, specs, k, start, engaged, up);
      ghost var rules, log := t.machine.k.rules, t.machine.log;
      lifted := Close(t, engaged);
      LastKeptThen(t.machine.mark, k.rules, rules, t.machine.k.rules);
      StillArrived(t.machine.mark, k, start, log, t.machine.log, specs, stops);
    }
    if t.killswitch.Some? && Firewall.Spells(t.machine.denote) {
      var exempt := Destinations(routes);
      ScreenedConfines(t.base, t.killswitch.value, exempt, t.machine.denote, t.machine.log, engaged, lifted);
    }
  }

  lemma StillArrived(mark: nat, k: Kernel, start: Stop, log: seq<Kernel>, log': seq<Kernel>, specs: seq<Spec>,
                     stops: seq<Stop>)
    requires AllArrived(mark, k, start, log, specs, stops) && log <= log'
    ensures AllArrived(mark, k, start, log', specs, stops)
  {
    forall j | 0 <= j < |stops|
      ensures Sound(mark, k, Previous(start, stops, j), log', specs[j], j == 0 ==> ValidName(specs[0].iface), stops[j])
    {
      SoundLater(mark, k, Previous(start, stops, j), log, log', specs[j], j == 0 ==> ValidName(specs[0].iface),
                 stops[j]);
    }
  }
}
