/** What holds of the daemon in every reachable state, and over whole runs. */
module DaemonTheorems {
  import opened Wrappers
  import opened Text
  import opened Address
  import opened Servers
  import opened Settings
  import opened Sorting
  import opened Filter
  import opened Tuner
  import opened DaemonModel
  import Score

  // ---- the invariant ---------------------------------------------------------

  /** The rank order, on what is stored. */
  predicate RankedBefore(a: Ranked, b: Ranked) {
    a.score > b.score
    || (a.score == b.score && (a.rttMs < b.rttMs || (a.rttMs == b.rttMs && TextLe(a.name, b.name))))
  }

  function RankedOrder(): (Ranked, Ranked) -> bool {
    (a: Ranked, b: Ranked) => RankedBefore(a, b)
  }

  /** A tunnel exists exactly when a connection is recorded, and points there unless a switch failed. */
  predicate Linked(d: Daemon) {
    && (d.tunnel.Some? <==> d.current.Some?)
    && (d.tunnel.Some? && d.tunnel.value.endpoint.Some? ==> d.tunnel.value.endpoint.value == d.current.value.endpoint)
  }

  /** What is known of the tunnel is what the calls on it came to. */
  predicate Traced(d: Daemon) {
    d.calls.Known() == d.tunnel && d.calls.Proper()
  }

  /** The pending proposal passes the filters now loaded. */
  predicate PendingAllowed(d: Daemon) {
    d.pending.Some? ==> Allowed(d.config)(d.pending.value.to)
  }

  /** The cached ranking shows the rate on record for each server, and none where there is none. */
  predicate RatesAgree(d: Daemon) {
    forall i :: 0 <= i < |d.ranking| ==> d.ranking[i].mbps == Rate(d.seen, d.ranking[i].name)
  }

  ghost predicate Inv(d: Daemon) {
    && d.config.Valid()
    && Linked(d)
    && Traced(d)
    && PendingAllowed(d)
    && RatesAgree(d)
    && Sorted(RankedOrder(), d.ranking)
  }

  // ---- sweeps ----------------------------------------------------------------

  lemma MeasuredServers(list: seq<Server>, answers: seq<Answer>, port: nat)
    ensures var ms := MeasuredBy(list, answers, port);
      |ms| == |list| && forall i :: 0 <= i < |ms| ==> ms[i].server == list[i]
  {}

  lemma StoredOrder(a: Score.Scored, b: Score.Scored, seen: map<string, Sample>)
    requires Score.Before(a, b)
    ensures RankedBefore(ToRanked(seen)(a), ToRanked(seen)(b))
  {
    if a.score == b.score && a.rtt < b.rtt {
      assert a.rtt as real / 1000000.0 < b.rtt as real / 1000000.0;
    }
  }

  /** A swept ranking is in order, shows the rates on record and holds candidates only. */
  lemma SweptRanking(d: Daemon, candidates: seq<Server>, answers: seq<Answer>)
    ensures var r := SweepRanking(d, candidates, answers);
      && Sorted(RankedOrder(), r)
      && (forall i :: 0 <= i < |r| ==> r[i].mbps == Rate(d.seen, r[i].name))
      && (forall i :: 0 <= i < |r| ==> exists k ::
            0 <= k < |candidates| && Describes(candidates[k], r[i]))
  {
    var ms := MeasuredBy(candidates, answers, d.config.port);
    var scored := Score.Rank(ms, ScoringOf(d));
    MeasuredServers(candidates, answers, d.config.port);
    Score.RankIsSortedPermutation(ms, ScoringOf(d));
    Score.RankMembers(ms, ScoringOf(d));
    forall a, b | a in scored && b in scored && Score.Order()(a, b)
      ensures RankedOrder()(ToRanked(d.seen)(a), ToRanked(d.seen)(b))
    {
      StoredOrder(a, b, d.seen);
    }
    MapSorted(Score.Order(), RankedOrder(), ToRanked(d.seen), scored);
    var r := SweepRanking(d, candidates, answers);
    forall i | 0 <= i < |r| ensures exists k :: 0 <= k < |candidates| && Describes(candidates[k], r[i]) {
      assert scored[i] in scored;
      var k :| 0 <= k < |ms| && ms[k] == Score.MeasuredAs(scored[i]);
      assert Describes(candidates[k], r[i]);
    }
  }

  predicate Describes(s: Server, r: Ranked) {
    r.name == s.name && r.countryCode == s.countryCode && r.load == s.load
  }

  predicate AllAccepted(f: Filters, ranking: seq<Ranked>) {
    forall i :: 0 <= i < |ranking| ==> Compile(f).Accepts(ranking[i].name, ranking[i].countryCode, ranking[i].load)
  }

  /** A sweep touches the server list, the count and the ranking, and the ranking only when it succeeds. */
  lemma SweepTouches(d: Daemon, country: Option<string>, p: Probing, now: nat)
    ensures var (d', r) := Sweep(d, country, p, now);
      && d' == d.(servers := d'.servers, probed := d'.probed, ranking := d'.ranking)
      && d'.ranking == (if r.Ok? then r.value else d.ranking)
      && (r.Ok? ==> r.value != [])
  {}

  /** Where the ranking of a sweep that succeeds comes from. */
  lemma SweepFrom(d: Daemon, country: Option<string>, p: Probing, now: nat)
    ensures var r := Sweep(d, country, p, now).1;
      var d1 := Refresh(d, p.fetched, now);
      r.Ok? ==>
        && d1.servers.Some?
        && r.value == SweepRanking(d1, Accepted(d1.servers.value.list, Narrowed(d.config.filters, country)), p.answers)
  {}

  lemma RankingAccepted(d: Daemon, f: Filters, list: seq<Server>, answers: seq<Answer>)
    ensures AllAccepted(f, SweepRanking(d, Accepted(list, f), answers))
  {
    var candidates, r := Accepted(list, f), SweepRanking(d, Accepted(list, f), answers);
    SweptRanking(d, candidates, answers);
    KeepMembers(Eligible(f), list);
    forall i | 0 <= i < |r| ensures Compile(f).Accepts(r[i].name, r[i].countryCode, r[i].load) {
      var k :| 0 <= k < |candidates| && Describes(candidates[k], r[i]);
      assert candidates[k] in candidates;
      assert Eligible(f)(candidates[k]);
    }
  }

  /** A sweep answers with entries its own filters accept. */
  lemma SweepResult(d: Daemon, country: Option<string>, p: Probing, now: nat)
    ensures var (d', r) := Sweep(d, country, p, now);
      && d'.config == d.config && d'.seen == d.seen && d'.current == d.current && d'.tunnel == d.tunnel
      && d'.pending == d.pending && d'.dismissed == d.dismissed && d'.direct == d.direct && d'.ln == d.ln
      && d'.calls == d.calls
      && (r.Err? ==> d'.ranking == d.ranking)
      && (r.Ok? ==> r.value != [] && d'.ranking == r.value && Sorted(RankedOrder(), r.value) && RatesAgree(d'))
      && (r.Ok? ==> AllAccepted(Narrowed(d.config.filters, country), r.value))
  {
    SweepTouches(d, country, p, now);
    SweepFrom(d, country, p, now);
    if Sweep(d, country, p, now).1.Ok? {
      var d1 := Refresh(d, p.fetched, now);
      var f := Narrowed(d.config.filters, country);
      SweptRanking(d1, Accepted(d1.servers.value.list, f), p.answers);
      RankingAccepted(d1, f, d1.servers.value.list, p.answers);
    }
  }

  lemma SweepKeeps(d: Daemon, country: Option<string>, p: Probing, now: nat)
    requires Inv(d)
    ensures Inv(Sweep(d, country, p, now).0)
  {
    SweepResult(d, country, p, now);
  }

  lemma ProbeNamedKeeps(d: Daemon, name: string, p: Probing, now: nat)
    requires Inv(d)
    ensures var (d', r) := ProbeNamed(d, name, p, now); Inv(d') && d' == Refresh(d, p.fetched, now)
  {
    ProbeNamedRefreshes(d, name, p, now);
    RefreshKeeps(d, p.fetched, now);
  }

  lemma ProbeNamedRefreshes(d: Daemon, name: string, p: Probing, now: nat)
    ensures ProbeNamed(d, name, p, now).0 == Refresh(d, p.fetched, now)
  {}

  lemma RefreshKeeps(d: Daemon, fetched: Option<seq<Server>>, now: nat)
    requires Inv(d)
    ensures Inv(Refresh(d, fetched, now))
  {}

  // ---- recording and connecting ----------------------------------------------

  lemma RecordKeeps(d: Daemon, name: string, mbps: real, now: nat)
    requires Inv(d)
    ensures Inv(RecordThroughput(d, name, mbps, now))
  {
    MapSorted(RankedOrder(), RankedOrder(), WithRate(name, mbps), d.ranking);
  }

  lemma PointedKeeps(d: Daemon, candidate: Ranked, first: bool, moved: bool)
    requires Inv(d) && (first ==> d.current.None?)
    ensures var (d', ok) := Pointed(d, candidate, first, moved);
      && Inv(d')
      && (ok ==> d'.current == Some(ConnectionTo(candidate)))
      && (ok ==> d'.tunnel == Some(Handle(Some(candidate.endpoint))))
  {}

  lemma SettleKeeps(d: Daemon, first: Ranked, best: Best, net: ConnectNet)
    requires Inv(d)
    ensures Inv(Settle(d, first, best, net).0)
  {}

  lemma {:induction false} VerifyKeeps(d: Daemon, shortlist: seq<Ranked>, target: real, net: ConnectNet, i: nat,
                                       best: Best, now: nat)
    requires i <= |shortlist| && shortlist != [] && Inv(d) && (i == 0 ==> d.current.None?)
    ensures Inv(Verify(d, shortlist, target, net, i, best, now).0)
    decreases |shortlist| - i
  {
    if i == |shortlist| {
      SettleKeeps(d, shortlist[0], best, net);
    } else {
      var candidate, t := shortlist[i], TrialAt(net.trials, i);
      PointedKeeps(d, candidate, i == 0, t.moved);
      var (d1, ok) := Pointed(d, candidate, i == 0, t.moved);
      if ok {
        match TrialRate(t)
        case None => VerifyKeeps(d1, shortlist, target, net, i + 1, best, now);
        case Some(mbps) =>
          RecordKeeps(d1, candidate.name, mbps, now);
          if mbps < target {
            VerifyKeeps(RecordThroughput(d1, candidate.name, mbps, now), shortlist, target, net, i + 1,
                        Better(best, candidate, mbps), now);
          }
      }
    }
  }

  lemma ConnectBestKeeps(d: Daemon, measure: Option<bool>, net: ConnectNet, now: nat)
    requires Inv(d) && d.current.None?
    ensures Inv(ConnectBest(d, measure, net, now).0)
  {
    var should := ShouldMeasure(d, measure);
    var d1 := if should then MeasureLine(d, net.direct, now) else d;
    MeasureKeeps(d, net.direct, now);
    SweepKeeps(d1, None, net.probing, now);
    SweepTouches(d1, None, net.probing, now);
    var (d2, swept) := Sweep(d1, None, net.probing, now);
    if swept.Ok? {
      PickKeeps(d2, swept.value, should, net, now);
    }
  }

  lemma MeasureKeeps(d: Daemon, line: Option<real>, now: nat)
    requires Inv(d)
    ensures Inv(MeasureLine(d, line, now))
  {}

  lemma EstablishKeeps(d: Daemon, chosen: Ranked, up: bool)
    requires Inv(d) && d.current.None?
    ensures Inv(Establish(d, chosen, up).0)
  {}

  lemma MoveKeeps(d: Daemon, chosen: Ranked, moved: bool)
    requires Inv(d)
    ensures Inv(MoveTo(d, chosen, moved).0)
  {}

  lemma PickKeeps(d: Daemon, ranked: seq<Ranked>, should: bool, net: ConnectNet, now: nat)
    requires Inv(d) && d.current.None?
    ensures Inv(PickFrom(d, ranked, should, net, now).0)
  {
    if ranked != [] {
      var attempts := AttemptsOf(d, should, |ranked|);
      if attempts > 0 {
        VerifyKeeps(d, ranked[..attempts], d.config.autotune.Acceptance(DirectRate(d)), net, 0, None, now);
      } else {
        EstablishKeeps(d, ranked[0], net.up);
      }
    }
  }

  lemma ConnectKeeps(d: Daemon, server: Option<string>, measure: Option<bool>, net: ConnectNet, now: nat)
    requires Inv(d)
    ensures Inv(ConnectTo(d, server, measure, net, now).0)
  {
    if d.current.None? {
      if server.None? {
        ConnectBestKeeps(d, measure, net, now);
      } else {
        ProbeNamedKeeps(d, server.value, net.probing, now);
        var (d1, probed) := ProbeNamed(d, server.value, net.probing, now);
        if probed.Ok? {
          EstablishKeeps(d1, probed.value, net.up);
        }
      }
    }
  }

  lemma SwitchKeeps(d: Daemon, name: string, p: Probing, moved: bool, now: nat)
    requires Inv(d)
    ensures Inv(SwitchServer(d, name, p, moved, now).0)
    ensures SwitchServer(d, name, p, moved, now).0.config == d.config
  {
    ProbeNamedKeeps(d, name, p, now);
    var (d1, probed) := ProbeNamed(d, name, p, now);
    if probed.Ok? {
      MoveKeeps(d1, probed.value, moved);
    }
  }

  lemma SpeedtestKeeps(d: Daemon, sample: Option<real>, now: nat)
    requires Inv(d)
    ensures Inv(SpeedtestNow(d, sample, now).0)
  {
    if sample.Some? && d.current.Some? {
      RecordKeeps(d, d.current.value.server, sample.value, now);
    }
  }

  lemma BaselineKeeps(d: Daemon, tunnelled: Option<real>, down: bool, line: Option<real>, net: ConnectNet, now: nat)
    requires Inv(d)
    ensures Inv(BaselineNow(d, tunnelled, down, line, net, now).0)
  {
    if d.current.None? {
      SpeedtestKeeps(d, tunnelled, now);
    } else if tunnelled.Some? {
      var name := d.current.value.server;
      RecordKeeps(d, name, tunnelled.value, now);
      var d1 := RecordThroughput(d, name, tunnelled.value, now);
      DisconnectKeeps(d1, down);
      var (d2, gone) := Disconnected(d1, down);
      if gone.Ok? {
        ConnectKeeps(d2, Some(name), Some(false), net, now);
        MeasureKeeps(ConnectTo(d2, Some(name), Some(false), net, now).0, line, now);
      }
    }
  }

  // ---- reload and tuning -----------------------------------------------------

  /** A reload leaves exactly the old entries the new rules accept, in their old order,
      and keeps the proposal exactly when the new rules accept it. */
  lemma ReloadPrunes(d: Daemon, loaded: Option<Config>)
    requires Inv(d)
    ensures var (d', r) := Reloaded(d, loaded);
      && Inv(d')
      && (r.Ok? <==> loaded.Some? && loaded.value.Valid())
      && (r.Err? ==> d' == d)
      && d' == d.(config := d'.config, servers := d'.servers, ranking := d'.ranking, pending := d'.pending)
      && (r.Ok? ==> d'.config == loaded.value && d'.servers == None)
      && (r.Ok? ==> d'.ranking == Keep(Allowed(loaded.value), d.ranking))
      && (r.Ok? ==> forall x :: x in d'.ranking <==> x in d.ranking && Allowed(loaded.value)(x))
      && (r.Ok? ==> d'.pending == d.pending || d'.pending == None)
      && (r.Ok? && d.pending.Some? ==> (d'.pending.Some? <==> Allowed(loaded.value)(d.pending.value.to)))
  {
    var (d', r) := Reloaded(d, loaded);
    if r.Ok? {
      var p := Allowed(loaded.value);
      KeepSorted(RankedOrder(), p, d.ranking);
      KeepMembers(p, d.ranking);
      forall i | 0 <= i < |d'.ranking| ensures d'.ranking[i].mbps == Rate(d'.seen, d'.ranking[i].name) {
        assert d'.ranking[i] in d'.ranking;
      }
    }
  }

  lemma StampKeeps(d: Daemon, started: nat)
    requires Inv(d)
    ensures Inv(d.(lastTuneAt := Some(started)))
  {}

  lemma PassInv(d: Daemon, e: Event)
    requires Inv(d) && e.Tune?
    ensures Inv(Pass(d, e).0)
  {
    StampKeeps(d, e.started);
    if d.current.Some? {
      var d0 := d.(lastTuneAt := Some(e.started));
      var d1 := ProbeCurrent(d0, d.current.value.server, e.check, e.started).0;
      ProbeCurrentRefreshes(d0, d.current.value.server, e.check, e.started);
      RefreshKeeps(d0, e.check.fetched, e.started);
      SweepKeeps(d1, None, e.sweep, e.now);
    }
  }

  lemma PassTouches(d: Daemon, e: Event)
    requires e.Tune?
    ensures var d' := Pass(d, e).0;
      && d'.config == d.config && d'.current == d.current && d'.dismissed == d.dismissed
      && d'.pending == d.pending && d'.tunnel == d.tunnel && d'.calls == d.calls
  {
    if d.current.Some? {
      var d0 := d.(lastTuneAt := Some(e.started));
      var d1 := ProbeCurrent(d0, d.current.value.server, e.check, e.started).0;
      ProbeCurrentRefreshes(d0, d.current.value.server, e.check, e.started);
      SweepTouches(d1, None, e.sweep, e.now);
    }
  }

  lemma PassTargets(d: Daemon, e: Event)
    requires e.Tune?
    ensures var r := Pass(d, e).1;
      r.Ok? && r.value.Targets() ==> Allowed(d.config)(r.value.to) && d.current.Some?
  {
    if d.current.Some? {
      var d0 := d.(lastTuneAt := Some(e.started));
      var (d1, rtt) := ProbeCurrent(d0, d.current.value.server, e.check, e.started);
      ProbeCurrentRefreshes(d0, d.current.value.server, e.check, e.started);
      DecidesOnAllowed(d1, rtt, e);
    }
  }

  /** A pass proposes or moves only to the head of a ranking the loaded filters produced. */
  lemma PassKeeps(d: Daemon, e: Event)
    requires Inv(d) && e.Tune?
    ensures var (d', r) := Pass(d, e);
      && Inv(d') && d'.config == d.config && d'.current == d.current && d'.dismissed == d.dismissed
      && d'.pending == d.pending && d'.tunnel == d.tunnel && d'.calls == d.calls
      && (r.Ok? && r.value.Targets() ==> Allowed(d.config)(r.value.to) && d.current.Some?)
  {
    PassInv(d, e);
    PassTouches(d, e);
    PassTargets(d, e);
  }

  lemma ProbeCurrentRefreshes(d: Daemon, name: string, p: Probing, now: nat)
    ensures ProbeCurrent(d, name, p, now).0 == Refresh(d, p.fetched, now)
  {}

  lemma DecidesOnAllowed(d: Daemon, rtt: Option<real>, e: Event)
    requires e.Tune? && d.current.Some?
    ensures var (d', swept) := Sweep(d, None, e.sweep, e.now);
      swept.Ok? ==>
        var decision := Decide(Assess(d', d.current.value, rtt, swept.value, e.now), d'.config.autotune);
        decision.Targets() ==> Allowed(d.config)(decision.to)
  {
    SweepResult(d, None, e.sweep, e.now);
    var (d', swept) := Sweep(d, None, e.sweep, e.now);
    if swept.Ok? {
      TargetsExactly(Assess(d', d.current.value, rtt, swept.value, e.now), d'.config.autotune);
      assert Allowed(d.config)(swept.value[0]);
    }
  }

  lemma TuneKeeps(d: Daemon, e: Event)
    requires Inv(d) && e.Tune?
    ensures Inv(TunePass(d, e).0)
  {
    PassKeeps(d, e);
    var (d1, decided) := Pass(d, e);
    if decided.Ok? && decided.value.IsActionable() {
      SwitchKeeps(d1, decided.value.to.name, e.target, e.moved, e.now);
    }
  }

  // ---- every reachable state -------------------------------------------------

  lemma DisconnectKeeps(d: Daemon, down: bool)
    requires Inv(d)
    ensures Inv(Disconnected(d, down).0)
  {}

  lemma DismissKeeps(d: Daemon, now: nat)
    requires Inv(d)
    ensures Inv(Dismissed(d, now).0)
  {}

  lemma KillswitchKeeps(d: Daemon, enable: Option<bool>, done: bool)
    requires Inv(d)
    ensures Inv(KillswitchSet(d, enable, done).0)
  {}

  lemma ApproveKeeps(d: Daemon, p: Probing, moved: bool, now: nat)
    requires Inv(d)
    ensures Inv(Approved(d, p, moved, now).0)
  {
    if d.pending.Some? {
      SwitchKeeps(d.(pending := None), d.pending.value.to.name, p, moved, now);
    }
  }

  lemma StepKeeps(d: Daemon, e: Event)
    requires Inv(d)
    ensures Inv(After(d, e))
  {
    match e
    case Connect(server, measure, net, now) => ConnectKeeps(d, server, measure, net, now);
    case Disconnect(down) => DisconnectKeeps(d, down);
    case SwitchTo(name, probing, moved, now) => SwitchKeeps(d, name, probing, moved, now);
    case Test(country, probing, now) => SweepKeeps(d, country, probing, now);
    case ListServers(fetched, now) => RefreshKeeps(d, fetched, now);
    case Reload(loaded) => ReloadPrunes(d, loaded);
    case Tune(_, _, _, _, _, _) => TuneKeeps(d, e);
    case Approve(probing, moved, now) => ApproveKeeps(d, probing, moved, now);
    case Dismiss(now) => DismissKeeps(d, now);
    case Speedtest(sample, now) => SpeedtestKeeps(d, sample, now);
    case Baseline(tunnelled, down, line, net, now) => BaselineKeeps(d, tunnelled, down, line, net, now);
    case SetKillswitch(enable, done) => KillswitchKeeps(d, enable, done);
    case Report =>
  }

  lemma {:induction false} RunKeeps(d: Daemon, events: seq<Event>)
    requires Inv(d)
    ensures Inv(Run(d, events))
    decreases |events|
  {
    if events != [] {
      StepKeeps(d, events[0]);
      RunKeeps(After(d, events[0]), events[1..]);
    }
  }

  /** From the start, over every sequence of requests, errors, reloads and passes: a tunnel
      exists exactly when a connection is recorded, the pending proposal passes the loaded
      filters, and the cached ranking is in order and shows the rates on record. */
  lemma EveryReachableState(ln: real -> real, config: Config, events: seq<Event>)
    requires config.Valid()
    ensures Inv(Run(Start(ln, config), events))
  {
    RunKeeps(Start(ln, config), events);
  }
}
