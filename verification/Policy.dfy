/** Policy routing: the two rules a full tunnel adds, how their copies are pruned,
    and which way a packet goes. A rule is its four attributes; rules added last
    come first, and deleting a rule by its attributes takes the first copy. */
module Policy {
  import opened Wrappers
  import opened Text
  import opened Address
  import opened Prefix
  import opened Sorting
  import opened Bypass

  datatype TableId = Main | Named(name: string)
  datatype PolicyRule = PolicyRule(inverted: bool, mark: Option<nat>, table: TableId, suppress: Option<nat>)

  /** Everything without the mark looks in the tunnel's table. */
  function Lookup(mark: nat): PolicyRule {
    PolicyRule(true, Some(mark), Named(Decimal(mark)), None)
  }

  /** Before that, the main table is consulted for anything but its default route. */
  const SUPPRESS: PolicyRule := PolicyRule(false, None, Main, Some(0))

  function Own(mark: nat): PolicyRule -> bool {
    (r: PolicyRule) => r == Lookup(mark) || r == SUPPRESS
  }

  function NotOwn(mark: nat): PolicyRule -> bool {
    (r: PolicyRule) => r != Lookup(mark) && r != SUPPRESS
  }

  /** Lines that mention a mark and contain `lookup <mark>`, whatever follows it. */
  function LookupLike(mark: nat): PolicyRule -> bool {
    (r: PolicyRule) => r.mark.Some? && r.table.Named? && Decimal(mark) <= r.table.name
  }

  function SuppressLike(): PolicyRule -> bool {
    (r: PolicyRule) => r.suppress == Some(0)
  }

  function Same(rule: PolicyRule): PolicyRule -> bool {
    (r: PolicyRule) => r == rule
  }

  /** Taken for a copy of `rule` without being one. */
  function Lookalike(like: PolicyRule -> bool, rule: PolicyRule): PolicyRule -> bool {
    (r: PolicyRule) => like(r) && r != rule
  }

  function Count(p: PolicyRule -> bool, rs: seq<PolicyRule>): nat {
    |Keep(p, rs)|
  }

  function Copies(rule: PolicyRule, rs: seq<PolicyRule>): nat {
    Count(Same(rule), rs)
  }

  /** `rs` without the first `n` copies of `rule`. */
  function Without(rule: PolicyRule, n: nat, rs: seq<PolicyRule>): seq<PolicyRule> {
    if n == 0 || rs == [] then rs
    else if rs[0] == rule then Without(rule, n - 1, rs[1..])
    else [rs[0]] + Without(rule, n, rs[1..])
  }

  /** How many copies pruning deletes: all but one, and that one too when something else looks like it. */
  function Excess(rule: PolicyRule, like: PolicyRule -> bool, rs: seq<PolicyRule>): nat {
    var copies := Copies(rule, rs);
    if Count(Lookalike(like, rule), rs) > 0 then copies else ButOne(copies)
  }

  function ButOne(n: nat): nat {
    if n == 0 then 0 else n - 1
  }

  function Prune(rule: PolicyRule, like: PolicyRule -> bool, rs: seq<PolicyRule>): seq<PolicyRule> {
    Without(rule, Excess(rule, like, rs), rs)
  }

  // ---- deleting copies -------------------------------------------------------

  lemma {:induction false} WithoutKeepsOthers(rule: PolicyRule, n: nat, rs: seq<PolicyRule>, p: PolicyRule -> bool)
    requires !p(rule)
    ensures Keep(p, Without(rule, n, rs)) == Keep(p, rs)
    decreases |rs|
  {
    if n != 0 && rs != [] {
      WithoutKeepsOthers(rule, if rs[0] == rule then n - 1 else n, rs[1..], p);
    }
  }

  lemma {:induction false} WithoutCommutes(rule: PolicyRule, n: nat, rs: seq<PolicyRule>, p: PolicyRule -> bool)
    requires p(rule)
    ensures Keep(p, Without(rule, n, rs)) == Without(rule, n, Keep(p, rs))
    decreases |rs|
  {
    if n != 0 && rs != [] {
      WithoutCommutes(rule, if rs[0] == rule then n - 1 else n, rs[1..], p);
      KeepHead(p, rs);
      if rs[0] != rule {
        KeepCons(p, rs[0], Without(rule, n, rs[1..]));
      }
    }
  }

  lemma {:induction false} WithoutCounts(rule: PolicyRule, n: nat, rs: seq<PolicyRule>)
    ensures Copies(rule, Without(rule, n, rs)) == if n < Copies(rule, rs) then Copies(rule, rs) - n else 0
    decreases |rs|
  {
    if n != 0 && rs != [] {
      WithoutCounts(rule, if rs[0] == rule then n - 1 else n, rs[1..]);
    }
  }

  lemma {:induction false} WithoutOneMore(rule: PolicyRule, n: nat, rs: seq<PolicyRule>)
    ensures Without(rule, 1, Without(rule, n, rs)) == Without(rule, n + 1, rs)
    decreases |rs|
  {
    if n != 0 && rs != [] {
      WithoutOneMore(rule, if rs[0] == rule then n - 1 else n, rs[1..]);
    }
  }

  /** What looks like the rule is its copies and its lookalikes. */
  lemma {:induction false} CountSplits(rule: PolicyRule, like: PolicyRule -> bool, rs: seq<PolicyRule>)
    requires like(rule)
    ensures Count(like, rs) == Copies(rule, rs) + Count(Lookalike(like, rule), rs)
  {
    if rs != [] {
      CountSplits(rule, like, rs[1..]);
    }
  }

  lemma CopiesMember(rule: PolicyRule, rs: seq<PolicyRule>)
    ensures Copies(rule, rs) > 0 <==> rule in rs
  {
    KeepMembers(Same(rule), rs);
    if Copies(rule, rs) > 0 {
      assert Keep(Same(rule), rs)[0] in Keep(Same(rule), rs);
    }
  }

  lemma LookupIsLookupLike(mark: nat)
    ensures LookupLike(mark)(Lookup(mark)) && !LookupLike(mark)(SUPPRESS)
    ensures SuppressLike()(SUPPRESS) && !SuppressLike()(Lookup(mark))
  {}

  /** Deleting what pruning may delete leaves a copy exactly when nothing else looks like the rule. */
  lemma LastCopySurvives(rule: PolicyRule, like: PolicyRule -> bool, rs: seq<PolicyRule>, n: nat)
    requires like(rule) && rule in rs && n <= Excess(rule, like, rs)
    ensures Count(Lookalike(like, rule), rs) == 0 ==> rule in Without(rule, n, rs)
    ensures rule in Prune(rule, like, rs) <==> Count(Lookalike(like, rule), rs) == 0
    ensures Count(Lookalike(like, rule), rs) == 0 ==> Copies(rule, Prune(rule, like, rs)) == 1
    ensures Keep(Lookalike(like, rule), Prune(rule, like, rs)) == Keep(Lookalike(like, rule), rs)
  {
    CopiesMember(rule, rs);
    WithoutCounts(rule, n, rs);
    CopiesMember(rule, Without(rule, n, rs));
    WithoutCounts(rule, Excess(rule, like, rs), rs);
    CopiesMember(rule, Prune(rule, like, rs));
    WithoutKeepsOthers(rule, Excess(rule, like, rs), rs, Lookalike(like, rule));
  }

  // ---- reinstalling and pruning ----------------------------------------------

  /** Nothing but our own rules is taken for them. */
  predicate NoLookalikes(mark: nat, rs: seq<PolicyRule>) {
    && Count(Lookalike(LookupLike(mark), Lookup(mark)), rs) == 0
    && Count(Lookalike(SuppressLike(), SUPPRESS), rs) == 0
  }

  function PruneBoth(mark: nat, rs: seq<PolicyRule>): seq<PolicyRule> {
    Prune(SUPPRESS, SuppressLike(), Prune(Lookup(mark), LookupLike(mark), rs))
  }

  function Added(mark: nat, rs: seq<PolicyRule>): seq<PolicyRule> {
    [SUPPRESS] + [Lookup(mark)] + rs
  }

  /** The last of our rules, if there is any, is the lookup. */
  predicate LookupLast(mark: nat, rs: seq<PolicyRule>) {
    EndsIn(Lookup(mark), Keep(Own(mark), rs))
  }

  predicate EndsIn(l: PolicyRule, own: seq<PolicyRule>) {
    own == [] || own[|own| - 1] == l
  }

  lemma OwnCopies(mark: nat, rs: seq<PolicyRule>, rule: PolicyRule)
    requires rule == SUPPRESS || rule == Lookup(mark)
    ensures Copies(rule, rs) == Copies(rule, Keep(Own(mark), rs))
  {
    KeepTwice(Own(mark), Same(rule), rs);
  }

  lemma {:induction false} KeepTwice(p: PolicyRule -> bool, q: PolicyRule -> bool, rs: seq<PolicyRule>)
    requires forall r :: q(r) ==> p(r)
    ensures Keep(q, Keep(p, rs)) == Keep(q, rs)
  {
    if rs != [] {
      KeepTwice(p, q, rs[1..]);
      var rest := Keep(p, rs[1..]);
      assert Keep(p, rs) == if p(rs[0]) then [rs[0]] + rest else rest;
      KeepCons(q, rs[0], rest);
    }
  }

  lemma AddedKeepsLookalikes(mark: nat, rs: seq<PolicyRule>, like: PolicyRule -> bool, rule: PolicyRule)
    requires rule == SUPPRESS || rule == Lookup(mark)
    requires !like(if rule == SUPPRESS then Lookup(mark) else SUPPRESS)
    ensures Count(Lookalike(like, rule), Added(mark, rs)) == Count(Lookalike(like, rule), rs)
  {
    assert Added(mark, rs) == [SUPPRESS] + ([Lookup(mark)] + rs);
    KeepCons(Lookalike(like, rule), SUPPRESS, [Lookup(mark)] + rs);
    KeepCons(Lookalike(like, rule), Lookup(mark), rs);
  }

  /** Whatever was there, pruning leaves exactly one copy of each rule that had any. */
  lemma PruningLeavesOne(mark: nat, rs: seq<PolicyRule>)
    requires NoLookalikes(mark, PruneBoth(mark, rs)) && Lookup(mark) in rs && SUPPRESS in rs
    ensures Copies(Lookup(mark), PruneBoth(mark, rs)) == 1 && Copies(SUPPRESS, PruneBoth(mark, rs)) == 1
  {
    var l, s := Lookup(mark), SUPPRESS;
    var n := Excess(l, LookupLike(mark), rs);
    var rs1 := Without(l, n, rs);
    var m := Excess(s, SuppressLike(), rs1);
    WithoutKeepsOthers(l, n, rs, Lookalike(LookupLike(mark), l));
    WithoutKeepsOthers(s, m, rs1, Lookalike(LookupLike(mark), l));
    WithoutKeepsOthers(s, m, rs1, Lookalike(SuppressLike(), s));
    WithoutKeepsOthers(l, n, rs, Same(s));
    WithoutKeepsOthers(s, m, rs1, Same(l));
    CopiesMember(s, rs);
    CopiesMember(s, rs1);
    LookupIsLookupLike(mark);
    LastCopySurvives(l, LookupLike(mark), rs, n);
    LastCopySurvives(s, SuppressLike(), rs1, m);
  }

  /** Deleting first copies, short of all of them, leaves the last element where it is. */
  lemma {:induction false} LastStays(rule: PolicyRule, n: nat, own: seq<PolicyRule>)
    requires own != [] && (own[|own| - 1] == rule ==> n < Copies(rule, own))
    ensures var own' := Without(rule, n, own); own' != [] && own'[|own'| - 1] == own[|own| - 1]
    decreases |own|
  {
    if n != 0 {
      var rest := own[1..];
      KeepHead(Same(rule), own);
      if rest == [] {
        assert own == [own[0]] && Without(rule, n, rest) == [];
      } else {
        assert rest[|rest| - 1] == own[|own| - 1];
        LastStays(rule, if own[0] == rule then n - 1 else n, rest);
      }
    }
  }

  /** What pruning may delete, all of it or not, leaves the lookup last, or not, as it was. */
  lemma PruningKeepsLast(mark: nat, rule: PolicyRule, n: nat, rs: seq<PolicyRule>)
    requires rule == SUPPRESS || rule == Lookup(mark)
    requires n <= ButOne(Copies(rule, rs))
    ensures LookupLast(mark, Without(rule, n, rs)) == LookupLast(mark, rs)
  {
    WithoutCommutes(rule, n, rs, Own(mark));
    OwnCopies(mark, rs, rule);
    EndStays(rule, n, Keep(Own(mark), rs), Lookup(mark));
  }

  lemma EndStays(rule: PolicyRule, n: nat, own: seq<PolicyRule>, l: PolicyRule)
    requires n <= ButOne(Copies(rule, own))
    ensures EndsIn(l, Without(rule, n, own)) == EndsIn(l, own)
  {
    if own != [] {
      if own[|own| - 1] == rule {
        CopiesMember(rule, own);
      }
      LastStays(rule, n, own);
    }
  }

  lemma AddedKeepsLast(mark: nat, rs: seq<PolicyRule>)
    ensures LookupLast(mark, [Lookup(mark)] + rs) == LookupLast(mark, rs)
    ensures LookupLast(mark, Added(mark, rs)) == LookupLast(mark, rs)
  {
    var l, s, own := Lookup(mark), SUPPRESS, Keep(Own(mark), rs);
    assert Added(mark, rs) == [s] + ([l] + rs);
    KeepCons(Own(mark), s, [l] + rs);
    KeepCons(Own(mark), l, rs);
    if own != [] {
      assert ([l] + own)[|own|] == own[|own| - 1] && ([s] + ([l] + own))[|own| + 1] == own[|own| - 1];
    }
  }

  lemma {:induction false} OwnSize(mark: nat, own: seq<PolicyRule>)
    requires forall i :: 0 <= i < |own| ==> Own(mark)(own[i])
    ensures |own| == Copies(Lookup(mark), own) + Copies(SUPPRESS, own)
  {
    if own != [] {
      OwnSize(mark, own[1..]);
      KeepHead(Same(Lookup(mark)), own);
      KeepHead(Same(SUPPRESS), own);
    }
  }

  /** With nothing taken for our rules, pruning leaves exactly one of each, and the override first
      if and only if the last of our rules was the lookup. */
  lemma TidyExactly(mark: nat, rs: seq<PolicyRule>)
    requires NoLookalikes(mark, PruneBoth(mark, rs)) && Lookup(mark) in rs && SUPPRESS in rs
    ensures Keep(Own(mark), PruneBoth(mark, rs)) == [SUPPRESS, Lookup(mark)] <==> LookupLast(mark, rs)
    ensures Keep(Own(mark), PruneBoth(mark, rs)) == [Lookup(mark), SUPPRESS] <==> !LookupLast(mark, rs)
    ensures Keep(NotOwn(mark), PruneBoth(mark, rs)) == Keep(NotOwn(mark), rs)
  {
    var l, s := Lookup(mark), SUPPRESS;
    var n := Excess(l, LookupLike(mark), rs);
    var rs1 := Without(l, n, rs);
    var m := Excess(s, SuppressLike(), rs1);
    var rs2 := Without(s, m, rs1);
    WithoutKeepsOthers(l, n, rs, Lookalike(LookupLike(mark), l));
    WithoutKeepsOthers(s, m, rs1, Lookalike(LookupLike(mark), l));
    WithoutKeepsOthers(s, m, rs1, Lookalike(SuppressLike(), s));
    PruneKeeps(mark, l, n, rs);
    PruneKeeps(mark, s, m, rs1);
    PruningKeepsLast(mark, l, n, rs);
    PruningKeepsLast(mark, s, m, rs1);
    PruningLeavesOne(mark, rs);
    OneOfEach(mark, rs2);
  }

  lemma OneOfEach(mark: nat, rs: seq<PolicyRule>)
    requires Copies(Lookup(mark), rs) == 1 && Copies(SUPPRESS, rs) == 1
    ensures Keep(Own(mark), rs) == if LookupLast(mark, rs) then [SUPPRESS, Lookup(mark)] else [Lookup(mark), SUPPRESS]
  {
    var l, s, own := Lookup(mark), SUPPRESS, Keep(Own(mark), rs);
    KeepMembers(Own(mark), rs);
    assert forall i :: 0 <= i < |own| ==> own[i] in own;
    OwnCopies(mark, rs, l);
    OwnCopies(mark, rs, s);
    OwnSize(mark, own);
    TwoApart(l, s, own);
  }

  lemma TwoApart(l: PolicyRule, s: PolicyRule, own: seq<PolicyRule>)
    requires |own| == 2 && l != s && Copies(l, own) == 1 && Copies(s, own) == 1
    requires forall i :: 0 <= i < |own| ==> own[i] == l || own[i] == s
    ensures own == if own[1] == l then [s, l] else [l, s]
  {
    assert own == [own[0]] + ([own[1]] + []);
    KeepCons(Same(l), own[0], [own[1]] + []);
    KeepCons(Same(l), own[1], []);
  }

  lemma PruningKeepsLookalikes(mark: nat, rs: seq<PolicyRule>)
    ensures NoLookalikes(mark, PruneBoth(mark, rs)) == NoLookalikes(mark, rs)
  {
    var l, s := Lookup(mark), SUPPRESS;
    var n := Excess(l, LookupLike(mark), rs);
    var rs1 := Without(l, n, rs);
    var m := Excess(s, SuppressLike(), rs1);
    WithoutKeepsOthers(l, n, rs, Lookalike(LookupLike(mark), l));
    WithoutKeepsOthers(l, n, rs, Lookalike(SuppressLike(), s));
    WithoutKeepsOthers(s, m, rs1, Lookalike(LookupLike(mark), l));
    WithoutKeepsOthers(s, m, rs1, Lookalike(SuppressLike(), s));
  }

  lemma OnlyOurs(mark: nat, rs: seq<PolicyRule>)
    requires rs == [SUPPRESS, Lookup(mark), SUPPRESS]
    ensures NoLookalikes(mark, rs) && !LookupLast(mark, rs) && Keep(NotOwn(mark), rs) == []
  {
    LookupIsLookupLike(mark);
    KeepNone(Lookalike(LookupLike(mark), Lookup(mark)), rs);
    KeepNone(Lookalike(SuppressLike(), SUPPRESS), rs);
    KeepNone(NotOwn(mark), rs);
    KeepAll(Own(mark), rs);
  }

  /** A rule with a longer table name is taken for the lookup, and its last copy goes. */
  lemma LongerTableName(mark: nat, other: nat)
    ensures var r := PolicyRule(false, Some(other), Named(Decimal(mark) + "0"), None);
      Prune(Lookup(mark), LookupLike(mark), [Lookup(mark), r]) == [r]
  {
    var l, r := Lookup(mark), PolicyRule(false, Some(other), Named(Decimal(mark) + "0"), None);
    assert [l, r] == [l] + ([r] + []);
    Cons(l, 1, l, [r] + []);
    Cons(l, 0, r, []);
    KeepCons(Lookalike(LookupLike(mark), l), l, [r] + []);
    KeepCons(Lookalike(LookupLike(mark), l), r, []);
  }

  lemma PruneKeeps(mark: nat, rule: PolicyRule, n: nat, rs: seq<PolicyRule>)
    requires rule == SUPPRESS || rule == Lookup(mark)
    ensures Keep(Own(mark), Without(rule, n, rs)) == Without(rule, n, Keep(Own(mark), rs))
    ensures Keep(NotOwn(mark), Without(rule, n, rs)) == Keep(NotOwn(mark), rs)
  {
    WithoutCommutes(rule, n, rs, Own(mark));
    WithoutKeepsOthers(rule, n, rs, NotOwn(mark));
  }

  lemma Cons(rule: PolicyRule, n: nat, r: PolicyRule, rs: seq<PolicyRule>)
    ensures Copies(rule, [r] + rs) == (if r == rule then 1 else 0) + Copies(rule, rs)
    ensures Without(rule, n, [r] + rs) ==
      if n == 0 then [r] + rs else if r == rule then Without(rule, n - 1, rs) else [r] + Without(rule, n, rs)
  {
    assert ([r] + rs)[1..] == rs;
  }

  // ---- which way a packet goes -----------------------------------------------

  datatype Way = ViaTunnel | ViaMain | ViaOther(table: string) | Unrouted

  /** The tables of one family: the tunnel's, reached by its name, the main one and everybody else's. */
  datatype Tables = Tables(mark: nat, routed: bool, main: Table, others: map<string, set<Cidr>>)

  predicate Applies(r: PolicyRule, mark: nat) {
    r.inverted != (r.mark.None? || r.mark.value == mark)
  }

  /** A route to `dst` longer than `beyond` bits, the default route counting as none beyond nothing. */
  predicate Reaches(blocks: set<Cidr>, dst: Ip, beyond: Option<nat>) {
    exists c :: c in blocks && InBlock(c, dst) && (beyond.None? || c.prefix > beyond.value)
  }

  predicate Specific(main: Table, dst: Ip) {
    Reaches(main.Keys, dst, Some(0))
  }

  /** Whether the table a rule names routes `dst` and the rule lets it. */
  predicate Finds(t: Tables, r: PolicyRule, dst: Ip) {
    match r.table
    case Main => Reaches(t.main.Keys, dst, r.suppress)
    case Named(name) =>
      if name == Decimal(t.mark) then t.routed && r.suppress.None?
      else name in t.others && Reaches(t.others[name], dst, r.suppress)
  }

  function WayBy(t: Tables, r: PolicyRule): Way {
    match r.table
    case Main => ViaMain
    case Named(name) => if name == Decimal(t.mark) then ViaTunnel else ViaOther(name)
  }

  /** The first rule that applies and finds a route decides, the main table at the end. */
  function WayOf(t: Tables, rs: seq<PolicyRule>, dst: Ip, mark: nat): Way {
    if rs == [] then if Reaches(t.main.Keys, dst, None) then ViaMain else Unrouted
    else if Applies(rs[0], mark) && Finds(t, rs[0], dst) then WayBy(t, rs[0])
    else WayOf(t, rs[1..], dst, mark)
  }

  /** No rule but ours claims the packet. */
  ghost predicate Unclaimed(t: Tables, rs: seq<PolicyRule>, dst: Ip, mark: nat) {
    forall r :: r in rs && NotOwn(t.mark)(r) ==> !(Applies(r, mark) && Finds(t, r, dst))
  }

  /** Unmarked traffic the main table has no specific route for goes to the tunnel exactly
      when the tunnel's table is filled; flushed, it falls through to the physical default route. */
  lemma {:induction false} IntoTunnel(t: Tables, rs: seq<PolicyRule>, dst: Ip, mark: nat)
    requires Lookup(t.mark) in rs && mark != t.mark && !Specific(t.main, dst) && Unclaimed(t, rs, dst, mark)
    ensures WayOf(t, rs, dst, mark) == ViaTunnel <==> t.routed
    ensures !t.routed ==> WayOf(t, rs, dst, mark) == if Reaches(t.main.Keys, dst, None) then ViaMain else Unrouted
  {
    if t.routed {
      if rs[0] != Lookup(t.mark) {
        IntoTunnel(t, rs[1..], dst, mark);
      }
    } else {
      FallsThrough(t, rs, dst, mark);
    }
  }

  lemma {:induction false} FallsThrough(t: Tables, rs: seq<PolicyRule>, dst: Ip, mark: nat)
    requires (mark == t.mark || !t.routed) && !Specific(t.main, dst) && Unclaimed(t, rs, dst, mark)
    ensures WayOf(t, rs, dst, mark) == if Reaches(t.main.Keys, dst, None) then ViaMain else Unrouted
  {
    if rs != [] {
      FallsThrough(t, rs[1..], dst, mark);
    }
  }

  /** The tunnel's own packets carry the mark and never enter the tunnel. */
  lemma {:induction false} MarkedStaysOut(t: Tables, rs: seq<PolicyRule>, dst: Ip)
    requires Unclaimed(t, rs, dst, t.mark)
    ensures WayOf(t, rs, dst, t.mark) == if Reaches(t.main.Keys, dst, None) then ViaMain else Unrouted
  {
    if rs != [] {
      MarkedStaysOut(t, rs[1..], dst);
    }
  }

  /** With the override first, a specific route in the main table, such as a bypass, wins. */
  lemma {:induction false} SpecificWins(t: Tables, rs: seq<PolicyRule>, dst: Ip, mark: nat)
    requires Keep(Own(t.mark), rs) == [SUPPRESS, Lookup(t.mark)]
    requires Specific(t.main, dst) && Unclaimed(t, rs, dst, mark)
    ensures WayOf(t, rs, dst, mark) == ViaMain
  {
    if rs[0] != SUPPRESS {
      KeepHead(Own(t.mark), rs);
      SpecificWins(t, rs[1..], dst, mark);
    }
  }

  /** With the lookup first everything unmarked enters the tunnel, whatever the main table says. */
  lemma {:induction false} LookupFirst(t: Tables, rs: seq<PolicyRule>, dst: Ip, mark: nat)
    requires Keep(Own(t.mark), rs) == [Lookup(t.mark), SUPPRESS]
    requires t.routed && mark != t.mark && Unclaimed(t, rs, dst, mark)
    ensures WayOf(t, rs, dst, mark) == ViaTunnel
  {
    if rs[0] != Lookup(t.mark) {
      KeepHead(Own(t.mark), rs);
      LookupFirst(t, rs[1..], dst, mark);
    }
  }

  /** Connecting above an override that belongs to somebody else and is identical to ours: nothing is taken for our
      rules, but pruning deletes our override, and what the main table routes goes into the tunnel. */
  lemma ForeignOverride(mark: nat, t: Tables, dst: Ip, m: nat)
    requires t.mark == mark && t.routed && Specific(t.main, dst) && m != mark
    ensures var rs := Added(mark, [SUPPRESS]);
      && NoLookalikes(mark, rs) && Keep(Own(mark), PruneBoth(mark, rs)) == [Lookup(mark), SUPPRESS]
      && WayOf(t, rs, dst, m) == ViaMain && WayOf(t, PruneBoth(mark, rs), dst, m) == ViaTunnel
  {
    var rs := Added(mark, [SUPPRESS]);
    assert rs == [SUPPRESS, Lookup(mark), SUPPRESS];
    OnlyOurs(mark, rs);
    PruningKeepsLookalikes(mark, rs);
    assert rs[0] == SUPPRESS && rs[1] == Lookup(mark);
    TidyExactly(mark, rs);
    KeepMembers(NotOwn(mark), PruneBoth(mark, rs));
    LookupFirst(t, PruneBoth(mark, rs), dst, m);
  }
}
