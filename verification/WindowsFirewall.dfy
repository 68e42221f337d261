/** The Windows kill switch: the default outbound action of every profile is set to
    Block and rules allow what may pass. It is a script of statements, any of which
    can be the last one executed, and what it changes is recorded in a file first. */
module WindowsFirewall {
  import opened Wrappers
  import opened Text
  import opened Address
  import opened Prefix
  import opened Sorting
  import Firewall

  datatype Profile = Profile(name: string, action: string)
  datatype Allow = OnAdapter(name: string) | UdpTo(ports: set<nat>) | ToBlocks(blocks: seq<Cidr>)

  /** Outbound rules of other programs: what they allow, and what they block whatever is allowed. */
  datatype Others = Others(allowed: seq<Allow>, blocked: seq<Allow>)

  /** The firewall, and the file with the actions to go back to. */
  datatype System = System(profiles: seq<Profile>, rules: seq<Allow>, record: Option<string>, others: Others)

  datatype Statement =
    | ClearRules
    | SaveIfAbsent
    | AddRule(rule: Allow)
    | BlockAll
    | RestoreEntry(entry: string)
    | Forget
    | AllowAll

  const ALLOW := "Allow"
  const BLOCK := "Block"

  // ---- the record ------------------------------------------------------------

  function Entry(): Profile -> string {
    (p: Profile) => p.name + "=" + p.action
  }

  function RecordText(profiles: seq<Profile>): string {
    Join(Map(Entry(), profiles), ";")
  }

  /** Names and actions that fit the record. */
  ghost predicate Recordable(profiles: seq<Profile>) {
    && profiles != []
    && DistinctBy((p: Profile) => p.name, profiles)
    && forall p :: p in profiles ==> '=' !in p.name && ';' !in p.name && '=' !in p.action && ';' !in p.action
  }

  function SetAction(profiles: seq<Profile>, name: string, action: string): seq<Profile> {
    seq(|profiles|, i requires 0 <= i < |profiles| =>
      if profiles[i].name == name then Profile(name, action) else profiles[i])
  }

  function SetAll(profiles: seq<Profile>, action: string): seq<Profile> {
    seq(|profiles|, i requires 0 <= i < |profiles| => Profile(profiles[i].name, action))
  }

  /** An entry that is not a name and an action is passed over. */
  function RestoreOne(profiles: seq<Profile>, entry: string): seq<Profile> {
    var parts := Split(entry, '=');
    if |parts| == 2 then SetAction(profiles, parts[0], parts[1]) else profiles
  }

  // ---- executing -------------------------------------------------------------

  function Exec(s: System, st: Statement): System {
    match st
    case ClearRules => s.(rules := [])
    case SaveIfAbsent => if s.record.Some? then s else s.(record := Some(RecordText(s.profiles)))
    case AddRule(rule) => s.(rules := s.rules + [rule])
    case BlockAll => s.(profiles := SetAll(s.profiles, BLOCK))
    case RestoreEntry(entry) => s.(profiles := RestoreOne(s.profiles, entry))
    case Forget => s.(record := None)
    case AllowAll => s.(profiles := SetAll(s.profiles, ALLOW))
  }

  function ExecAll(s: System, script: seq<Statement>): System
    decreases |script|
  {
    if script == [] then s else ExecAll(Exec(s, script[0]), script[1..])
  }

  lemma {:induction false} ExecAppend(s: System, a: seq<Statement>, b: seq<Statement>)
    ensures ExecAll(s, a + b) == ExecAll(ExecAll(s, a), b)
    decreases |a|
  {
    if a == [] {
      assert a + b == b;
    } else {
      assert (a + b)[0] == a[0] && (a + b)[1..] == a[1..] + b;
      ExecAppend(Exec(s, a[0]), a[1..], b);
    }
  }

  lemma ExecOneMore(s: System, script: seq<Statement>, i: nat)
    requires i < |script|
    ensures ExecAll(s, script[..i + 1]) == Exec(ExecAll(s, script[..i]), script[i])
  {
    assert script[..i + 1] == script[..i] + [script[i]];
    ExecAppend(s, script[..i], [script[i]]);
    assert [script[i]][1..] == [];
  }

  // ---- the scripts -----------------------------------------------------------

  datatype Killswitch = Killswitch(iface: string, port: nat, allowLan: bool, allowed: seq<Cidr>)

  /** The rule for the adapter only when there is such an adapter. */
  function TunnelRules(ks: Killswitch, present: bool): seq<Allow> {
    if present then [OnAdapter(ks.iface)] else []
  }

  function LinkRules(port: nat): seq<Allow> {
    [UdpTo({port}), ToBlocks(Firewall.LINK_V4), ToBlocks(Firewall.LINK_V6), UdpTo(Firewall.DHCP)]
  }

  function LanRules(ks: Killswitch): seq<Allow> {
    if ks.allowLan then [ToBlocks(Firewall.LAN_V4), ToBlocks(Firewall.LAN_V6)] else []
  }

  function BypassRules(ks: Killswitch): seq<Allow> {
    if ks.allowed != [] then [ToBlocks(ks.allowed)] else []
  }

  function Rules(ks: Killswitch, present: bool): seq<Allow> {
    TunnelRules(ks, present) + LinkRules(ks.port) + LanRules(ks) + BypassRules(ks)
  }

  function Adding(): Allow -> Statement {
    (r: Allow) => AddRule(r)
  }

  function EngageScript(rules: seq<Allow>): seq<Statement> {
    Adds(rules) + [BlockAll]
  }

  function Restoring(): string -> Statement {
    (e: string) => RestoreEntry(e)
  }

  function ReleaseScript(record: Option<string>): seq<Statement> {
    [ClearRules]
    + (if record.Some? then Map(Restoring(), Split(record.value, ';')) + [Forget] else [AllowAll])
  }

  /** An engage as far as the last of `rules`. */
  function Adds(rules: seq<Allow>): seq<Statement> {
    [ClearRules, SaveIfAbsent] + Map(Adding(), rules)
  }

  /** Write the rules of one list after those already written. */
  method Push(script: seq<Statement>, ghost before: seq<Allow>, rules: seq<Allow>) returns (script': seq<Statement>)
    requires script == Adds(before)
    ensures script' == Adds(before + rules)
  {
    script' := script;
    for i := 0 to |rules|
      invariant script' == Adds(before + rules[..i])
    {
      assert before + rules[..i + 1] == before + rules[..i] + [rules[i]];
      script' := script' + [AddRule(rules[i])];
    }
    assert rules[..|rules|] == rules;
  }

  method BuildScript(ks: Killswitch, present: bool) returns (script: seq<Statement>)
    ensures script == EngageScript(Rules(ks, present))
  {
    script := [ClearRules];
    script := script + [SaveIfAbsent];
    ghost var none: seq<Allow> := [];
    script := Push(script, none, TunnelRules(ks, present));
    assert none + TunnelRules(ks, present) == TunnelRules(ks, present);
    script := Push(script, TunnelRules(ks, present), LinkRules(ks.port));
    script := Push(script, TunnelRules(ks, present) + LinkRules(ks.port), LanRules(ks));
    script := Push(script, TunnelRules(ks, present) + LinkRules(ks.port) + LanRules(ks), BypassRules(ks));
    script := script + [BlockAll];
  }

  // ---- what the scripts run on -----------------------------------------------

  class Windows {
    var s: System

    /** Stop at the first statement that fails. */
    method RunStopping(script: seq<Statement>) returns (ok: bool, did: nat)
      modifies this
      ensures did <= |script| && s == ExecAll(old(s), script[..did]) && (ok <==> did == |script|)
    {
      did, ok := 0, true;
      assert script[..0] == [];
      while ok && did < |script|
        invariant did <= |script| && s == ExecAll(old(s), script[..did])
        invariant !ok ==> did < |script|
        decreases |script| - did, ok
      {
        ok := *;
        if ok {
          ExecOneMore(old(s), script, did);
          s := Exec(s, script[did]);
          did := did + 1;
        }
      }
      assert script[..|script|] == script;
    }

    /** Go on past a statement that fails; whether the whole is reported as a success is not ours to say. */
    method RunContinuing(script: seq<Statement>) returns (ok: bool, took: seq<bool>)
      modifies this
      ensures |took| == |script| && s == ExecSome(old(s), script, took)
    {
      took := [];
      assert script[..0] == [];
      while |took| < |script|
        invariant |took| <= |script| && s == ExecSome(old(s), script[..|took|], took)
        decreases |script| - |took|
      {
        var works := *;
        ExecSomeMore(old(s), script, took, works);
        if works {
          s := Exec(s, script[|took|]);
        }
        took := took + [works];
      }
      assert script[..|script|] == script;
      ok := *;
    }

    /** On a failure part-way the rules and actions are put back. */
    method Engage(ks: Killswitch, present: bool) returns (ok: bool, op: Op)
      modifies this
      ensures op.Engage? && op.rules == Rules(ks, present) && s == After(old(s), op)
      ensures ok <==> op.did == |EngageScript(op.rules)|
      ensures !ok ==> op.rollback.Some?
    {
      var script := BuildScript(ks, present);
      var did;
      ok, did := RunStopping(script);
      op := Op.Engage(Rules(ks, present), did, None);
      if !ok {
        var undone, took := RunContinuing(ReleaseScript(s.record));
        assert Filled(took, |took|) == took;
        op := op.(rollback := Some(took));
      }
    }

    method Release() returns (ok: bool, op: Op)
      modifies this
      ensures op.Release? && s == After(old(s), op)
    {
      var took;
      ok, took := RunContinuing(ReleaseScript(s.record));
      assert Filled(took, |took|) == took;
      op := Op.Release(took);
    }
  }

  /** Execute the statements that took effect. */
  function ExecSome(s: System, script: seq<Statement>, took: seq<bool>): System
    requires |took| == |script|
    decreases |script|
  {
    if script == [] then s else ExecSome(if took[0] then Exec(s, script[0]) else s, script[1..], took[1..])
  }

  lemma {:induction false} ExecSomeAppend(s: System, a: seq<Statement>, b: seq<Statement>, ofA: seq<bool>,
                                          ofB: seq<bool>)
    requires |ofA| == |a| && |ofB| == |b|
    ensures ExecSome(s, a + b, ofA + ofB) == ExecSome(ExecSome(s, a, ofA), b, ofB)
    decreases |a|
  {
    if a == [] {
      assert a + b == b && ofA + ofB == ofB;
    } else {
      assert (a + b)[0] == a[0] && (a + b)[1..] == a[1..] + b;
      assert (ofA + ofB)[0] == ofA[0] && (ofA + ofB)[1..] == ofA[1..] + ofB;
      ExecSomeAppend(if ofA[0] then Exec(s, a[0]) else s, a[1..], b, ofA[1..], ofB);
    }
  }

  lemma ExecSomeMore(s: System, script: seq<Statement>, took: seq<bool>, works: bool)
    requires |took| < |script|
    ensures var s1 := ExecSome(s, script[..|took|], took);
      ExecSome(s, script[..|took| + 1], took + [works]) == if works then Exec(s1, script[|took|]) else s1
  {
    var i := |took|;
    assert script[..i + 1] == script[..i] + [script[i]];
    ExecSomeAppend(s, script[..i], [script[i]], took, [works]);
    assert [script[i]][1..] == [] && [works][1..] == [];
  }

  /** An engage executes its first `did` statements; unless the machine dies there, a rollback follows
      when that is not all. A release executes the statements that `took`. */
  datatype Op = Engage(rules: seq<Allow>, did: nat, rollback: Option<seq<bool>>) | Release(took: seq<bool>)

  /** What took effect, nothing where it does not say. */
  function Filled(took: seq<bool>, n: nat): seq<bool> {
    seq(n, i requires 0 <= i < n => i < |took| && took[i])
  }

  function Released(s: System, took: seq<bool>): System {
    var script := ReleaseScript(s.record);
    ExecSome(s, script, Filled(took, |script|))
  }

  function Begun(s: System, rules: seq<Allow>, did: nat): System {
    var script := EngageScript(rules);
    ExecAll(s, if did <= |script| then script[..did] else script)
  }

  function After(s: System, op: Op): System {
    match op
    case Release(took) => Released(s, took)
    case Engage(rules, did, rollback) =>
      var s1 := Begun(s, rules, did);
      if rollback.Some? && did < |EngageScript(rules)| then Released(s1, rollback.value) else s1
  }

  // ---- what is restored ------------------------------------------------------

  /** The names stay, each action is as `from` has it or as it is now. */
  function Mixed(profiles: seq<Profile>, from: seq<Profile>, done: seq<bool>): seq<Profile>
    requires |profiles| == |from| == |done|
  {
    seq(|profiles|, i requires 0 <= i < |profiles| => if done[i] then from[i] else profiles[i])
  }

  ghost predicate SameNames(a: seq<Profile>, b: seq<Profile>) {
    |a| == |b| && forall i :: 0 <= i < |a| ==> a[i].name == b[i].name
  }

  lemma RecordSplits(orig: seq<Profile>)
    requires Recordable(orig)
    ensures Split(RecordText(orig), ';') == Map(Entry(), orig)
  {
    var entries := Map(Entry(), orig);
    forall e | e in entries ensures ';' !in e {
      var i :| 0 <= i < |entries| && entries[i] == e;
      assert orig[i] in orig;
    }
    SplitJoin(entries, ';');
  }

  lemma EntrySplits(p: Profile)
    requires '=' !in p.name && '=' !in p.action
    ensures Split(Entry()(p), '=') == [p.name, p.action]
  {
    var parts := [p.name, p.action];
    assert parts[1..] == [p.action];
    assert Join(parts, "=") == p.name + "=" + p.action;
    SplitJoin(parts, '=');
  }

  /** Replaying one entry of the record restores that profile and no other. */
  lemma RestoreEntryIs(profiles: seq<Profile>, orig: seq<Profile>, i: nat)
    requires Recordable(orig) && SameNames(profiles, orig) && i < |orig|
    ensures RestoreOne(profiles, Entry()(orig[i])) == profiles[i := orig[i]]
  {
    assert orig[i] in orig;
    EntrySplits(orig[i]);
    var name := (p: Profile) => p.name;
    forall j | 0 <= j < |orig| && j != i ensures profiles[j].name != orig[i].name {
      assert name(orig[j]) != name(orig[i]);
    }
  }

  function Flags(took: seq<bool>, n: nat): seq<bool>
    requires |took| == n + 2
  {
    took[1..n + 1]
  }

  /** Replaying the record from the `k`th entry on, as far as it takes. */
  lemma {:induction false} RestoreSome(s: System, orig: seq<Profile>, k: nat, script: seq<Statement>, flags: seq<bool>)
    requires Recordable(orig) && SameNames(s.profiles, orig) && k <= |orig| && |flags| == |script| == |orig| - k
    requires forall i :: 0 <= i < |script| ==> script[i] == RestoreEntry(Entry()(orig[k + i]))
    ensures ExecSome(s, script, flags) == s.(profiles := Mixed(s.profiles, orig, From(flags, k, |orig|)))
    decreases |orig| - k
  {
    if k == |orig| {
      assert Mixed(s.profiles, orig, From(flags, k, |orig|)) == s.profiles;
    } else {
      var s1 := if flags[0] then Exec(s, script[0]) else s;
      RestoreEntryIs(s.profiles, orig, k);
      RestoreSome(s1, orig, k + 1, script[1..], flags[1..]);
      MixedOn(s.profiles, s1.profiles, orig, k, flags);
    }
  }

  /** The `k`th action put back or not, and then those after it. */
  lemma MixedOn(profiles: seq<Profile>, after: seq<Profile>, orig: seq<Profile>, k: nat, flags: seq<bool>)
    requires |profiles| == |after| == |orig| && k < |orig| && |flags| == |orig| - k
    requires after == if flags[0] then profiles[k := orig[k]] else profiles
    ensures Mixed(after, orig, From(flags[1..], k + 1, |orig|)) == Mixed(profiles, orig, From(flags, k, |orig|))
  {}

  /** Flags for entries from the `k`th on, none before. */
  function From(flags: seq<bool>, k: nat, n: nat): seq<bool>
    requires |flags| == n - k
  {
    seq(n, i requires 0 <= i < n => i >= k && flags[i - k])
  }

  lemma ExecAround(s: System, first: Statement, mid: seq<Statement>, last: Statement, t: bool, ts: seq<bool>, t': bool)
    requires |ts| == |mid|
    ensures var s1 := ExecSome(if t then Exec(s, first) else s, mid, ts);
      ExecSome(s, [first] + (mid + [last]), [t] + (ts + [t'])) == if t' then Exec(s1, last) else s1
  {
    assert ([first] + (mid + [last]))[1..] == mid + [last] && ([t] + (ts + [t']))[1..] == ts + [t'];
    ExecSomeAppend(if t then Exec(s, first) else s, mid, [last], ts, [t']);
    assert [last][1..] == [] && [t'][1..] == [];
  }

  /** A release with a record restores exactly the entries that took, and forgets the record if that took. */
  lemma ReleasedIs(s: System, orig: seq<Profile>, took: seq<bool>)
    requires Recordable(orig) && SameNames(s.profiles, orig) && s.record == Some(RecordText(orig))
    requires |took| == |orig| + 2
    ensures Released(s, took) == s.(
      profiles := Mixed(s.profiles, orig, Flags(took, |orig|)),
      rules := if took[0] then [] else s.rules,
      record := if took[|orig| + 1] then None else s.record)
  {
    var n, restoring := |orig|, Map(Restoring(), Map(Entry(), orig));
    var flags := Flags(took, n);
    ReleaseScriptIs(orig);
    FilledIs(took, n);
    ExecAround(s, ClearRules, restoring, Forget, took[0], flags, took[n + 1]);
    RestoreRecorded(if took[0] then Exec(s, ClearRules) else s, orig, flags);
  }

  lemma ReleaseScriptIs(orig: seq<Profile>)
    requires Recordable(orig)
    ensures ReleaseScript(Some(RecordText(orig))) ==
      [ClearRules] + (Map(Restoring(), Map(Entry(), orig)) + [Forget])
  {
    RecordSplits(orig);
  }

  lemma FilledIs(took: seq<bool>, n: nat)
    requires |took| == n + 2
    ensures Filled(took, n + 2) == [took[0]] + (Flags(took, n) + [took[n + 1]])
  {}

  lemma RestoreRecorded(s: System, orig: seq<Profile>, flags: seq<bool>)
    requires Recordable(orig) && SameNames(s.profiles, orig) && |flags| == |orig|
    ensures ExecSome(s, Map(Restoring(), Map(Entry(), orig)), flags) == s.(profiles := Mixed(s.profiles, orig, flags))
  {
    FromStart(flags);
    RestoreSome(s, orig, 0, Map(Restoring(), Map(Entry(), orig)), flags);
  }

  lemma FromStart(flags: seq<bool>)
    ensures From(flags, 0, |flags|) == flags
  {}

  lemma UnrecordedIs(s: System, took: seq<bool>)
    requires s.record.None? && |took| == 2
    ensures Released(s, took) == s.(
      profiles := if took[1] then SetAll(s.profiles, ALLOW) else s.profiles, rules := if took[0] then [] else s.rules)
  {
    assert ReleaseScript(s.record) == [ClearRules] + ([] + [AllowAll]);
    assert Filled(took, 2) == [took[0]] + ([] + [took[1]]);
    ExecAround(s, ClearRules, [], AllowAll, took[0], [], took[1]);
  }

  // ---- the record always holds what to go back to ----------------------------

  /** The record has the actions of before, or there is none and they are in force. */
  ghost predicate Kept(s: System, orig: seq<Profile>) {
    && SameNames(s.profiles, orig)
    && (s.record == Some(RecordText(orig)) || (s.record.None? && s.profiles == orig))
  }

  /** Nothing in an engage forgets, and nothing changes an action before the record is there. */
  lemma {:induction false} RecordedKeeps(s: System, script: seq<Statement>)
    requires s.record.Some? && forall st :: st in script ==>
      st.ClearRules? || st.SaveIfAbsent? || st.AddRule? || st.BlockAll?
    ensures ExecAll(s, script).record == s.record && SameNames(ExecAll(s, script).profiles, s.profiles)
    decreases |script|
  {
    if script != [] {
      assert script[0] in script;
      RecordedKeeps(Exec(s, script[0]), script[1..]);
    }
  }

  lemma EngageHolds(rules: seq<Allow>)
    ensures forall st :: st in EngageScript(rules) ==> st.ClearRules? || st.SaveIfAbsent? || st.AddRule? || st.BlockAll?
  {
    var adds := Map(Adding(), rules);
    assert forall i :: 0 <= i < |adds| ==> adds[i].AddRule?;
  }

  /** However far an engage gets. */
  lemma BegunKeeps(s: System, orig: seq<Profile>, rules: seq<Allow>, did: nat)
    requires Kept(s, orig)
    ensures Kept(Begun(s, rules, did), orig)
  {
    var script := EngageScript(rules);
    var n := if did <= |script| then did else |script|;
    assert script[..n] == if did <= |script| then script[..did] else script;
    EngageHolds(rules);
    if n == 1 {
      assert script[0] == ClearRules;
      assert script[..1] == [script[0]] && [ClearRules][1..] == [];
    } else if n > 1 {
      assert script[..n] == [ClearRules, SaveIfAbsent] + script[2..n];
      ExecAppend(s, [ClearRules, SaveIfAbsent], script[2..n]);
      var s2 := Exec(Exec(s, ClearRules), SaveIfAbsent);
      assert [ClearRules, SaveIfAbsent][1..] == [SaveIfAbsent] && [SaveIfAbsent][1..] == [];
      RecordedKeeps(s2, script[2..n]);
    }
  }

  /** A release that starts with a record keeps the actions of before, in the record or in force,
      exactly when it forgets the record only with every action back. */
  lemma ReleaseKeepsExactly(s: System, orig: seq<Profile>, took: seq<bool>)
    requires Recordable(orig) && Kept(s, orig) && s.record.Some? && |took| == |orig| + 2
    ensures Kept(Released(s, took), orig) <==>
      !took[|orig| + 1] || forall i :: 0 <= i < |orig| ==> took[i + 1] || s.profiles[i] == orig[i]
  {
    ReleasedIs(s, orig, took);
    var flags := Flags(took, |orig|);
    assert forall i :: 0 <= i < |orig| ==> flags[i] == took[i + 1];
    var mixed := Mixed(s.profiles, orig, flags);
    if forall i :: 0 <= i < |orig| ==> took[i + 1] || s.profiles[i] == orig[i] {
      assert mixed == orig;
    }
  }

  /** A release that completes where the actions of before are on record or in force puts them back exactly
      when there is a record, or they were all Allow; and leaves no rule and no record. */
  lemma ReleaseRestoresExactly(s: System, orig: seq<Profile>)
    requires Recordable(orig) && Kept(s, orig)
    ensures var s' := Released(s, Everything(s));
      && s'.rules == [] && s'.record.None?
      && (s'.profiles == orig <==> s.record.Some? || AllAllow(orig))
      && (s.record.None? ==> s'.profiles == SetAll(orig, ALLOW))
  {
    var took := Everything(s);
    if s.record.Some? {
      RecordSplits(orig);
      ReleasedIs(s, orig, took);
      assert Mixed(s.profiles, orig, Flags(took, |orig|)) == orig;
    } else {
      UnrecordedIs(s, took);
      if AllAllow(orig) {
        assert SetAll(orig, ALLOW) == orig;
      }
    }
  }

  /** Every statement of the release takes effect. */
  function Everything(s: System): seq<bool> {
    seq(|ReleaseScript(s.record)|, _ => true)
  }

  predicate AllAllow(profiles: seq<Profile>) {
    forall i :: 0 <= i < |profiles| ==> profiles[i].action == ALLOW
  }

  // ---- what there is to go back to -------------------------------------------

  lemma SetAllRecordable(profiles: seq<Profile>, action: string)
    requires Recordable(profiles) && '=' !in action && ';' !in action
    ensures Recordable(SetAll(profiles, action)) && SetAll(SetAll(profiles, action), action) == SetAll(profiles, action)
  {
    var all := SetAll(profiles, action);
    var name := (p: Profile) => p.name;
    forall i, j | 0 <= i < j < |all| ensures name(all[i]) != name(all[j]) {
      assert name(profiles[i]) != name(profiles[j]);
    }
    forall p | p in all ensures '=' !in p.name && ';' !in p.name && '=' !in p.action && ';' !in p.action {
      var i :| 0 <= i < |all| && all[i] == p;
      assert profiles[i] in profiles;
    }
  }

  lemma MixedRecordable(profiles: seq<Profile>, from: seq<Profile>, done: seq<bool>)
    requires |done| == |from| && SameNames(profiles, from) && Recordable(profiles) && Recordable(from)
    ensures Recordable(Mixed(profiles, from, done))
  {
    var mixed := Mixed(profiles, from, done);
    var name := (p: Profile) => p.name;
    forall i, j | 0 <= i < j < |mixed| ensures name(mixed[i]) != name(mixed[j]) {
      assert name(profiles[i]) != name(profiles[j]);
    }
    forall p | p in mixed ensures '=' !in p.name && ';' !in p.name && '=' !in p.action && ';' !in p.action {
      var i :| 0 <= i < |mixed| && mixed[i] == p;
      assert profiles[i] in profiles && from[i] in from;
    }
  }

  /** The actions there are to go back to, `orig` so far, after a release: with the record gone, whatever it has put
      in force; and Allow where there was no record. */
  function BaselineAfter(s: System, orig: seq<Profile>, took: seq<bool>): seq<Profile>
    requires |s.profiles| == |orig|
  {
    var n := |orig|;
    var did := Filled(took, n + 2);
    if s.record.Some? then if did[n + 1] then Mixed(s.profiles, orig, Flags(did, n)) else orig
    else if Filled(took, 2)[1] then SetAll(orig, ALLOW) else orig
  }

  function BaselineBy(s: System, orig: seq<Profile>, op: Op): seq<Profile>
    requires |s.profiles| == |orig|
  {
    match op
    case Release(took) => BaselineAfter(s, orig, took)
    case Engage(rules, did, rollback) =>
      var s1 := Begun(s, rules, did);
      if rollback.Some? && did < |EngageScript(rules)| && |s1.profiles| == |orig|
      then BaselineAfter(s1, orig, rollback.value) else orig
  }

  /** The actions to go back to are on record or in force, and all there is fits a record. */
  ghost predicate Sound(s: System, orig: seq<Profile>) {
    Kept(s, orig) && Recordable(orig) && Recordable(s.profiles)
  }

  lemma ReleasedFilled(s: System, took: seq<bool>, n: nat)
    requires |ReleaseScript(s.record)| == n
    ensures Released(s, took) == Released(s, Filled(took, n))
  {
    FilledTwice(took, n);
  }

  lemma FilledTwice(took: seq<bool>, n: nat)
    ensures Filled(Filled(took, n), n) == Filled(took, n)
  {}

  lemma ScriptSize(orig: seq<Profile>)
    requires Recordable(orig)
    ensures |ReleaseScript(Some(RecordText(orig)))| == |orig| + 2
  {
    RecordSplits(orig);
  }

  lemma MixedNames(profiles: seq<Profile>, from: seq<Profile>, done: seq<bool>)
    requires |done| == |from| && SameNames(profiles, from)
    ensures SameNames(Mixed(profiles, from, done), from) && SameNames(from, from)
    ensures SameNames(Mixed(profiles, from, done), Mixed(profiles, from, done))
  {}

  lemma MixedAll(profiles: seq<Profile>, from: seq<Profile>, done: seq<bool>)
    requires |done| == |from| == |profiles| && forall i :: 0 <= i < |done| ==> done[i]
    ensures Mixed(profiles, from, done) == from
  {}

  lemma ReleaseMoves(s: System, orig: seq<Profile>, took: seq<bool>)
    requires Sound(s, orig)
    ensures Sound(Released(s, took), BaselineAfter(s, orig, took))
  {
    if s.record.Some? {
      ScriptSize(orig);
      ReleasedFilled(s, took, |orig| + 2);
      RecordedReleaseMoves(s, orig, Filled(took, |orig| + 2));
    } else {
      ReleasedFilled(s, took, 2);
      UnrecordedReleaseMoves(s, orig, Filled(took, 2));
    }
  }

  lemma RecordedReleaseMoves(s: System, orig: seq<Profile>, took: seq<bool>)
    requires Sound(s, orig) && s.record.Some? && |took| == |orig| + 2
    ensures var mixed := Mixed(s.profiles, orig, Flags(took, |orig|));
      Sound(Released(s, took), if took[|orig| + 1] then mixed else orig)
  {
    ReleasedIs(s, orig, took);
    MixedNames(s.profiles, orig, Flags(took, |orig|));
    MixedRecordable(s.profiles, orig, Flags(took, |orig|));
  }

  lemma UnrecordedReleaseMoves(s: System, orig: seq<Profile>, took: seq<bool>)
    requires Sound(s, orig) && s.record.None? && |took| == 2
    ensures Sound(Released(s, took), if took[1] then SetAll(orig, ALLOW) else orig)
  {
    UnrecordedIs(s, took);
    SetAllRecordable(orig, ALLOW);
    assert SameNames(SetAll(orig, ALLOW), SetAll(orig, ALLOW));
  }

  lemma BegunSound(s: System, orig: seq<Profile>, rules: seq<Allow>, did: nat)
    requires Sound(s, orig)
    ensures Sound(Begun(s, rules, did), orig)
  {
    BegunKeeps(s, orig, rules, did);
    BlockComesLast(s, rules, did);
    SetAllRecordable(s.profiles, BLOCK);
  }

  lemma OpMoves(s: System, orig: seq<Profile>, op: Op)
    requires Sound(s, orig)
    ensures Sound(After(s, op), BaselineBy(s, orig, op))
  {
    match op
    case Release(took) => ReleaseMoves(s, orig, took);
    case Engage(rules, did, rollback) =>
      BegunSound(s, orig, rules, did);
      if rollback.Some? {
        ReleaseMoves(Begun(s, rules, did), orig, rollback.value);
      }
  }

  ghost predicate IsRun(states: seq<System>, ops: seq<Op>) {
    |states| == |ops| + 1 && forall i :: 0 <= i < |ops| ==> states[i + 1] == After(states[i], ops[i])
  }

  /** The actions to go back to in the `i`th state of a run. */
  function Baseline(states: seq<System>, ops: seq<Op>, orig: seq<Profile>, i: nat): seq<Profile>
    requires |states| == |ops| + 1 && i <= |ops|
  {
    if i == 0 then orig else
    var before := Baseline(states, ops, orig, i - 1);
    if |states[i - 1].profiles| == |before| then BaselineBy(states[i - 1], before, ops[i - 1]) else before
  }

  /** Over every run of engages, releases, failures, rollbacks and crashes: the record holds the actions to go back to,
      or there is none and they are in force. */
  lemma {:induction false} EveryRun(states: seq<System>, ops: seq<Op>, orig: seq<Profile>, i: nat)
    requires IsRun(states, ops) && Sound(states[0], orig) && i < |states|
    ensures Sound(states[i], Baseline(states, ops, orig, i))
  {
    if i > 0 {
      EveryRun(states, ops, orig, i - 1);
      OpMoves(states[i - 1], Baseline(states, ops, orig, i - 1), ops[i - 1]);
    }
  }

  lemma {:induction false} BaselineNames(states: seq<System>, ops: seq<Op>, orig: seq<Profile>, i: nat)
    requires IsRun(states, ops) && Sound(states[0], orig) && i < |states|
    ensures SameNames(Baseline(states, ops, orig, i), orig)
  {
    if i > 0 {
      var before := Baseline(states, ops, orig, i - 1);
      BaselineNames(states, ops, orig, i - 1);
      EveryRun(states, ops, orig, i - 1);
      NamesStay(states[i - 1], ops[i - 1], before);
      NamesThrough(BaselineBy(states[i - 1], before, ops[i - 1]), before, orig);
    }
  }

  lemma NamesStayAfter(s: System, orig: seq<Profile>, took: seq<bool>)
    requires SameNames(s.profiles, orig)
    ensures SameNames(BaselineAfter(s, orig, took), orig)
  {
    MixedNames(s.profiles, orig, Flags(Filled(took, |orig| + 2), |orig|));
  }

  lemma NamesStay(s: System, op: Op, orig: seq<Profile>)
    requires Sound(s, orig)
    ensures SameNames(BaselineBy(s, orig, op), orig)
  {
    match op
    case Release(took) => NamesStayAfter(s, orig, took);
    case Engage(rules, did, rollback) =>
      BegunKeeps(s, orig, rules, did);
      if rollback.Some? {
        NamesStayAfter(Begun(s, rules, did), orig, rollback.value);
      }
  }

  lemma NamesThrough(a: seq<Profile>, b: seq<Profile>, c: seq<Profile>)
    requires SameNames(a, b) && SameNames(b, c)
    ensures SameNames(a, c)
  {}

  /** From every reachable state, a release that completes puts the actions of before back exactly when they are what
      the record has to go back to, or there is no record and they were all Allow. */
  lemma NextReleaseRestores(states: seq<System>, ops: seq<Op>, orig: seq<Profile>, i: nat)
    requires IsRun(states, ops) && Sound(states[0], orig) && i < |states|
    ensures var s' := Released(states[i], Everything(states[i]));
      && s'.rules == [] && s'.record.None?
      && (s'.profiles == orig <==>
          if states[i].record.Some? then Baseline(states, ops, orig, i) == orig else AllAllow(orig))
  {
    var now := Baseline(states, ops, orig, i);
    EveryRun(states, ops, orig, i);
    BaselineNames(states, ops, orig, i);
    ReleaseRestoresExactly(states[i], now);
    AllowedAlike(now, orig);
  }

  lemma AllowedAlike(a: seq<Profile>, b: seq<Profile>)
    requires SameNames(a, b)
    ensures SetAll(a, ALLOW) == b <==> AllAllow(b)
  {
    if AllAllow(b) {
      assert SetAll(a, ALLOW) == b;
    }
    if SetAll(a, ALLOW) == b {
      assert forall i :: 0 <= i < |b| ==> SetAll(a, ALLOW)[i].action == ALLOW;
    }
  }

  // ---- runs in which a record is only forgotten once replayed ----------------

  /** A release that forgets the record has replayed all of it. */
  ghost predicate Honest(s: System, took: seq<bool>) {
    var n := |ReleaseScript(s.record)|;
    s.record.Some? && n <= |took| && took[n - 1] ==> forall i :: 0 < i < n ==> took[i]
  }

  ghost predicate HonestOp(s: System, op: Op) {
    match op
    case Release(took) => Honest(s, took)
    case Engage(rules, did, rollback) => rollback.Some? ==> Honest(Begun(s, rules, did), rollback.value)
  }

  /** A release that finds no record sets Allow everywhere, which is not what was there before. */
  predicate Spoils(s: System, took: seq<bool>) {
    s.record.None? && |took| >= 2 && took[1]
  }

  predicate SpoiledBy(s: System, op: Op) {
    match op
    case Release(took) => Spoils(s, took)
    case Engage(rules, did, rollback) =>
      rollback.Some? && did < |EngageScript(rules)| && Spoils(Begun(s, rules, did), rollback.value)
  }

  /** Some release or rollback before the `i`th state found no record. */
  predicate Spoiled(states: seq<System>, ops: seq<Op>, i: nat)
    requires |states| == |ops| + 1 && i <= |ops|
  {
    i > 0 && (Spoiled(states, ops, i - 1) || SpoiledBy(states[i - 1], ops[i - 1]))
  }

  /** No release or rollback before the `i`th state forgot a record it had not replayed. */
  ghost predicate AllHonest(states: seq<System>, ops: seq<Op>, i: nat)
    requires |states| == |ops| + 1 && i <= |ops|
  {
    i > 0 ==> AllHonest(states, ops, i - 1) && HonestOp(states[i - 1], ops[i - 1])
  }

  function Anew(orig: seq<Profile>, spoiled: bool): seq<Profile> {
    if spoiled then SetAll(orig, ALLOW) else orig
  }

  lemma AnewTwice(orig: seq<Profile>, a: bool, b: bool)
    ensures Anew(Anew(orig, a), b) == Anew(orig, a || b)
  {
    assert SetAll(SetAll(orig, ALLOW), ALLOW) == SetAll(orig, ALLOW);
  }

  lemma HonestFlags(s: System, orig: seq<Profile>, took: seq<bool>, i: nat)
    requires |ReleaseScript(s.record)| == |orig| + 2 && s.record.Some? && Honest(s, took) && i < |orig|
    requires Filled(took, |orig| + 2)[|orig| + 1]
    ensures Flags(Filled(took, |orig| + 2), |orig|)[i]
  {
    assert took[i + 1];
  }

  lemma HonestReplay(s: System, orig: seq<Profile>, took: seq<bool>)
    requires |ReleaseScript(s.record)| == |orig| + 2 && s.record.Some? && Honest(s, took)
    requires |s.profiles| == |orig| && Filled(took, |orig| + 2)[|orig| + 1]
    ensures Mixed(s.profiles, orig, Flags(Filled(took, |orig| + 2), |orig|)) == orig
  {
    var flags := Flags(Filled(took, |orig| + 2), |orig|);
    forall i | 0 <= i < |flags| ensures flags[i] {
      HonestFlags(s, orig, took, i);
    }
    MixedAll(s.profiles, orig, flags);
  }

  lemma HonestAfter(s: System, orig: seq<Profile>, took: seq<bool>)
    requires Sound(s, orig) && Honest(s, took)
    ensures BaselineAfter(s, orig, took) == Anew(orig, Spoils(s, took))
  {
    if s.record.Some? {
      ScriptSize(orig);
      if Filled(took, |orig| + 2)[|orig| + 1] {
        HonestReplay(s, orig, took);
      }
    }
  }

  lemma HonestBy(s: System, orig: seq<Profile>, op: Op)
    requires Sound(s, orig) && HonestOp(s, op)
    ensures BaselineBy(s, orig, op) == Anew(orig, SpoiledBy(s, op))
  {
    match op
    case Release(took) => HonestAfter(s, orig, took);
    case Engage(rules, did, rollback) =>
      BegunSound(s, orig, rules, did);
      if rollback.Some? {
        HonestAfter(Begun(s, rules, did), orig, rollback.value);
      }
  }

  lemma HonestStep(s: System, orig: seq<Profile>, spoiled: bool, op: Op)
    requires Sound(s, Anew(orig, spoiled)) && HonestOp(s, op)
    ensures BaselineBy(s, Anew(orig, spoiled), op) == Anew(orig, spoiled || SpoiledBy(s, op))
  {
    HonestBy(s, Anew(orig, spoiled), op);
    AnewTwice(orig, spoiled, SpoiledBy(s, op));
  }

  lemma BaselineStep(states: seq<System>, ops: seq<Op>, orig: seq<Profile>, i: nat)
    requires |states| == |ops| + 1 && i < |ops| && |states[i].profiles| == |Baseline(states, ops, orig, i)|
    ensures Baseline(states, ops, orig, i + 1) == BaselineBy(states[i], Baseline(states, ops, orig, i), ops[i])
  {}

  /** If no release forgets a record it has not replayed, what there is to go back to is what was there before, as long
      as no release or rollback found no record; and Allow everywhere once one did. */
  lemma {:induction false} HonestRun(states: seq<System>, ops: seq<Op>, orig: seq<Profile>, i: nat)
    requires IsRun(states, ops) && Sound(states[0], orig) && i < |states|
    requires AllHonest(states, ops, i)
    ensures Baseline(states, ops, orig, i) == Anew(orig, Spoiled(states, ops, i))
  {
    if i > 0 {
      HonestRun(states, ops, orig, i - 1);
      EveryRun(states, ops, orig, i - 1);
      BaselineStep(states, ops, orig, i - 1);
      HonestStep(states[i - 1], orig, Spoiled(states, ops, i - 1), ops[i - 1]);
    }
  }

  // ---- where it goes wrong ---------------------------------------------------

  const BLOCKING: seq<Profile> := [Profile("Domain", "Block")]

  lemma BlockingRecordable()
    ensures Recordable(BLOCKING) && !AllAllow(BLOCKING) && SetAll(BLOCKING, ALLOW) == [Profile("Domain", "Allow")]
  {
    assert BLOCKING[0].action[0] == 'B' && ALLOW[0] == 'A';
  }

  /** An engage that fails at once rolls back without a record; the next one records the wrong actions. */
  lemma FailedEngageSpoils(rules: seq<Allow>, others: Others)
    ensures var s0 := System(BLOCKING, [], None, others);
      var s1 := After(s0, Op.Engage(rules, 0, Some([true, true])));
      var s2 := After(s1, Op.Engage(rules, |EngageScript(rules)|, None));
      && SpoiledBy(s0, Op.Engage(rules, 0, Some([true, true])))
      && s2.record.Some? && Released(s2, Everything(s2)).profiles == [Profile("Domain", "Allow")]
  {
    var s0 := System(BLOCKING, [], None, others);
    var op1, op2 := Op.Engage(rules, 0, Some([true, true])), Op.Engage(rules, |EngageScript(rules)|, None);
    var s1 := After(s0, op1);
    var s2 := After(s1, op2);
    BlockingRecordable();
    SetAllRecordable(BLOCKING, ALLOW);
    assert EngageScript(rules)[..0] == [];
    assert Begun(s0, rules, 0) == s0;
    OpMoves(s0, BLOCKING, op1);
    HonestBy(s0, BLOCKING, op1);
    var allowed := SetAll(BLOCKING, ALLOW);
    OpMoves(s1, allowed, op2);
    BlockComesLast(s1, rules, |EngageScript(rules)|);
    assert s2.profiles[0].action == BLOCK && allowed[0].action == ALLOW;
    ReleaseRestoresExactly(s2, allowed);
    assert allowed == [Profile("Domain", "Allow")];
  }

  /** A release that skips an entry and still deletes the record loses that entry. */
  lemma SkippedEntryIsLost(others: Others)
    ensures var allowing := [Profile("Domain", "Allow")];
      var s := System(BLOCKING, [], Some(RecordText(allowing)), others);
      Released(s, [true, false, true]) == s.(record := None)
  {
    BlockingRecordable();
    SetAllRecordable(BLOCKING, ALLOW);
    NothingReplayed(System(BLOCKING, [], Some(RecordText(SetAll(BLOCKING, ALLOW))), others), SetAll(BLOCKING, ALLOW));
  }

  lemma NothingReplayed(s: System, before: seq<Profile>)
    requires |before| == 1 && SameNames(s.profiles, before) && Recordable(before)
    requires s.rules == [] && s.record == Some(RecordText(before))
    ensures Released(s, [true, false, true]) == s.(record := None)
  {
    var took := [true, false, true];
    ReleasedIs(s, before, took);
    assert Mixed(s.profiles, before, Flags(took, 1)) == s.profiles;
  }

  // ---- what gets out ---------------------------------------------------------

  lemma {:induction false} AddsRules(s: System, rules: seq<Allow>)
    ensures ExecAll(s, Map(Adding(), rules)) == s.(rules := s.rules + rules)
    decreases |rules|
  {
    if rules == [] {
      assert s.rules + rules == s.rules;
    } else {
      var script := Map(Adding(), rules);
      assert script[0] == AddRule(rules[0]) && script[1..] == Map(Adding(), rules[1..]);
      AddsRules(Exec(s, AddRule(rules[0])), rules[1..]);
      Associative(s.rules, [rules[0]], rules[1..]);
      assert [rules[0]] + rules[1..] == rules;
    }
  }

  /** An engage that completes leaves Block everywhere and exactly its own rules, whatever was there;
      one that stops short has changed no action. */
  lemma BlockComesLast(s: System, rules: seq<Allow>, did: nat)
    ensures did < |EngageScript(rules)| ==> Begun(s, rules, did).profiles == s.profiles
    ensures did >= |EngageScript(rules)| ==>
      Begun(s, rules, did).profiles == SetAll(s.profiles, BLOCK) && Begun(s, rules, did).rules == rules
  {
    var script := EngageScript(rules);
    var head := Adds(rules);
    var s2 := Exec(Exec(s, ClearRules), SaveIfAbsent);
    if did < |script| {
      assert script[..did] == head[..did];
      forall st | st in head[..did] ensures st.ClearRules? || st.SaveIfAbsent? || st.AddRule? {
        var adds := Map(Adding(), rules);
        assert st in head;
        assert forall i :: 0 <= i < |adds| ==> adds[i].AddRule?;
      }
      ActionsKept(s, head[..did]);
    } else {
      assert (if did <= |script| then script[..did] else script) == script;
      ExecAppend(s, head, [BlockAll]);
      ExecAppend(s, [ClearRules, SaveIfAbsent], Map(Adding(), rules));
      assert [ClearRules, SaveIfAbsent][1..] == [SaveIfAbsent] && [SaveIfAbsent][1..] == [];
      AddsRules(s2, rules);
      assert [BlockAll][1..] == [];
      assert [] + rules == rules;
    }
  }

  lemma {:induction false} ActionsKept(s: System, script: seq<Statement>)
    requires forall st :: st in script ==> st.ClearRules? || st.SaveIfAbsent? || st.AddRule?
    ensures ExecAll(s, script).profiles == s.profiles
    decreases |script|
  {
    if script != [] {
      assert script[0] in script;
      ActionsKept(Exec(s, script[0]), script[1..]);
    }
  }

  predicate Matches(r: Allow, p: Firewall.Packet) {
    match r
    case OnAdapter(name) => p.oif == name
    case UdpTo(ports) => p.udpPort.Some? && p.udpPort.value in ports
    case ToBlocks(blocks) => Covers(blocks, p.dst)
  }

  /** With Block as the default only what some rule allows leaves. */
  predicate Leaves(rules: seq<Allow>, p: Firewall.Packet) {
    exists i :: 0 <= i < |rules| && Matches(rules[i], p)
  }

  lemma LeavesAppend(a: seq<Allow>, b: seq<Allow>, p: Firewall.Packet)
    ensures Leaves(a + b, p) <==> Leaves(a, p) || Leaves(b, p)
  {
    if Leaves(a, p) {
      var i :| 0 <= i < |a| && Matches(a[i], p);
      assert (a + b)[i] == a[i];
    }
    if Leaves(b, p) {
      var i :| 0 <= i < |b| && Matches(b[i], p);
      assert (a + b)[|a| + i] == b[i];
    }
  }

  /** What gets out on a profile: what nobody blocks, and where Block is the default only what somebody allows. */
  predicate GetsOut(s: System, active: nat, p: Firewall.Packet)
    requires active < |s.profiles|
  {
    && !Leaves(s.others.blocked, p)
    && (s.profiles[active].action == BLOCK ==> Leaves(s.rules, p) || Leaves(s.others.allowed, p))
  }

  /** After an engage that completes, on whichever profile, a packet leaves exactly when no other program blocks it and
      it is on the tunnel, to the WireGuard port, link-scope, DHCP, private when that is allowed, to a bypass
      destination, or allowed by another program. */
  lemma EngagedPermits(s: System, ks: Killswitch, present: bool, active: nat, p: Firewall.Packet)
    requires active < |s.profiles|
    ensures var rules := Rules(ks, present);
      var s' := After(s, Op.Engage(rules, |EngageScript(rules)|, None));
      && |s'.profiles| == |s.profiles|
      && (GetsOut(s', active, p) <==>
          && !Leaves(s.others.blocked, p)
          && (|| (present && p.oif == ks.iface)
              || p.udpPort == Some(ks.port) || Firewall.IsDhcp(p)
              || Firewall.LinkScope(p.dst) || (ks.allowLan && Firewall.PrivateScope(p.dst))
              || Covers(ks.allowed, p.dst) || Leaves(s.others.allowed, p)))
  {
    var rules := Rules(ks, present);
    BlockComesLast(s, rules, |EngageScript(rules)|);
    assert EngageScript(rules)[..|EngageScript(rules)|] == EngageScript(rules);
    OthersStay(s, EngageScript(rules));
    RulesPermit(ks, present, p);
  }

  lemma {:induction false} OthersStay(s: System, script: seq<Statement>)
    ensures ExecAll(s, script).others == s.others
    decreases |script|
  {
    if script != [] {
      OthersStay(Exec(s, script[0]), script[1..]);
    }
  }

  lemma RulesPermit(ks: Killswitch, present: bool, p: Firewall.Packet)
    ensures Leaves(Rules(ks, present), p) <==>
      || (present && p.oif == ks.iface)
      || p.udpPort == Some(ks.port) || Firewall.IsDhcp(p)
      || Firewall.LinkScope(p.dst) || (ks.allowLan && Firewall.PrivateScope(p.dst))
      || Covers(ks.allowed, p.dst)
  {
    var tunnel, base, lan, bypass := TunnelRules(ks, present), LinkRules(ks.port), LanRules(ks), BypassRules(ks);
    LeavesAppend(tunnel + base + lan, bypass, p);
    LeavesAppend(tunnel + base, lan, p);
    LeavesAppend(tunnel, base, p);
    Firewall.BlocksAreScopes(p.dst);
    assert present ==> (Matches(tunnel[0], p) <==> p.oif == ks.iface);
    assert Matches(base[0], p) <==> p.udpPort.Some? && p.udpPort.value == ks.port;
    assert Matches(base[1], p) || Matches(base[2], p) <==> Firewall.LinkScope(p.dst);
    assert Matches(base[3], p) <==> Firewall.IsDhcp(p);
    assert ks.allowLan ==> (Matches(lan[0], p) || Matches(lan[1], p) <==> Firewall.PrivateScope(p.dst));
    assert ks.allowed != [] ==> (Matches(bypass[0], p) <==> Covers(ks.allowed, p.dst));
  }
}
