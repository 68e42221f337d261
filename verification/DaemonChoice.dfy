/** Choosing a server by measurement: which candidate is taken, and where the tunnel is left. */
module DaemonChoice {
  import opened Wrappers
  import opened Text
  import opened Address
  import opened Servers
  import opened Settings
  import opened Sorting
  import opened Filter
  import opened Tuner
  import opened DaemonModel
  import opened DaemonTheorems
  import Score

  /** What the `i`th candidate measured, if it came to that. */
  function RateOf(net: ConnectNet, i: nat): Option<real> {
    TrialRate(TrialAt(net.trials, i))
  }

  /** The first candidate to reach the bar: every earlier one that was measured stayed below it. */
  predicate FirstToReach(net: ConnectNet, target: real, k: nat) {
    && RateOf(net, k).Some? && RateOf(net, k).value >= target
    && forall j :: 0 <= j < k && RateOf(net, j).Some? ==> RateOf(net, j).value < target
  }

  predicate NoneReaches(net: ConnectNet, target: real, n: nat) {
    forall j :: 0 <= j < n && RateOf(net, j).Some? ==> RateOf(net, j).value < target
  }

  /** The earliest of the fastest among the first `n`. */
  predicate EarliestFastest(net: ConnectNet, n: nat, k: nat) {
    && k < n && RateOf(net, k).Some?
    && (forall j :: 0 <= j < n && RateOf(net, j).Some? ==> RateOf(net, j).value <= RateOf(net, k).value)
    && (forall j :: 0 <= j < k && RateOf(net, j).Some? ==> RateOf(net, j).value < RateOf(net, k).value)
  }

  predicate NoneMeasured(net: ConnectNet, n: nat) {
    forall j :: 0 <= j < n ==> RateOf(net, j).None?
  }

  /** The daemon's record and the tunnel both point at `r`. */
  predicate PointsAt(d: Daemon, r: Ranked) {
    d.current == Some(ConnectionTo(r)) && d.tunnel == Some(Handle(Some(r.endpoint)))
  }

  /** Candidate `k`, shown with the rate it measured, is what is returned and where the tunnel is. */
  predicate Took(d: Daemon, chosen: Ranked, shortlist: seq<Ranked>, net: ConnectNet, k: nat) {
    k < |shortlist| && chosen == shortlist[k].(mbps := RateOf(net, k)) && PointsAt(d, shortlist[k])
  }

  ghost predicate Outcome(d: Daemon, chosen: Ranked, shortlist: seq<Ranked>, target: real, net: ConnectNet) {
    var n := |shortlist|;
    || (exists k: nat {:trigger Took(d, chosen, shortlist, net, k)} ::
          Took(d, chosen, shortlist, net, k) && FirstToReach(net, target, k))
    || (NoneReaches(net, target, n) && exists k: nat {:trigger Took(d, chosen, shortlist, net, k)} ::
          Took(d, chosen, shortlist, net, k) && EarliestFastest(net, n, k))
    || (n > 0 && NoneMeasured(net, n) && chosen == shortlist[0] && PointsAt(d, shortlist[n - 1]))
  }

  ghost predicate BestSoFar(best: Best, shortlist: seq<Ranked>, net: ConnectNet, i: nat) {
    match best
    case None => NoneMeasured(net, i)
    case Some((c, mbps)) =>
      exists k: nat {:trigger EarliestFastest(net, i, k)} ::
        EarliestFastest(net, i, k) && k < |shortlist| && c == shortlist[k] && Some(mbps) == RateOf(net, k)
  }

  function RankedName(): Ranked -> string {
    (r: Ranked) => r.name
  }

  lemma SettleChooses(d: Daemon, shortlist: seq<Ranked>, target: real, net: ConnectNet, best: Best)
    requires shortlist != [] && DistinctBy(RankedName(), shortlist)
    requires BestSoFar(best, shortlist, net, |shortlist|) && NoneReaches(net, target, |shortlist|)
    requires PointsAt(d, shortlist[|shortlist| - 1])
    ensures var (d', r) := Settle(d, shortlist[0], best, net);
      r.Ok? ==> Outcome(d', r.value, shortlist, target, net)
  {
    var n := |shortlist|;
    var (d', r) := Settle(d, shortlist[0], best, net);
    if best.Some? && r.Ok? {
      var (c, mbps) := best.value;
      var k: nat :| EarliestFastest(net, n, k) && k < n && c == shortlist[k] && Some(mbps) == RateOf(net, k);
      if c.name == shortlist[n - 1].name {
        assert RankedName()(shortlist[k]) == RankedName()(shortlist[n - 1]);
        assert k == n - 1;
      }
      assert Took(d', r.value, shortlist, net, k);
    }
  }

  lemma BetterKeeps(best: Best, shortlist: seq<Ranked>, net: ConnectNet, i: nat)
    requires i < |shortlist| && BestSoFar(best, shortlist, net, i)
    ensures RateOf(net, i).None? ==> BestSoFar(best, shortlist, net, i + 1)
    ensures RateOf(net, i).Some? ==> BestSoFar(Better(best, shortlist[i], RateOf(net, i).value), shortlist, net, i + 1)
  {
    if best.Some? {
      var (c, mbps) := best.value;
      var k: nat :| EarliestFastest(net, i, k) && k < |shortlist| && c == shortlist[k] && Some(mbps) == RateOf(net, k);
      if RateOf(net, i).None? || RateOf(net, i).value <= mbps {
        assert EarliestFastest(net, i + 1, k);
      } else {
        assert EarliestFastest(net, i + 1, i);
      }
    } else if RateOf(net, i).Some? {
      assert EarliestFastest(net, i + 1, i);
    }
  }

  lemma PointedPoints(d: Daemon, candidate: Ranked, first: bool, moved: bool)
    ensures var (d', ok) := Pointed(d, candidate, first, moved); ok ==> PointsAt(d', candidate)
  {}

  lemma RecordPoints(d: Daemon, candidate: Ranked, mbps: real, now: nat)
    requires PointsAt(d, candidate)
    ensures PointsAt(RecordThroughput(d, candidate.name, mbps, now), candidate)
  {}

  lemma NoneReachesYet(net: ConnectNet, target: real, i: nat)
    requires NoneReaches(net, target, i) && (RateOf(net, i).Some? ==> RateOf(net, i).value < target)
    ensures NoneReaches(net, target, i + 1)
  {}

  /** One more candidate tried. */
  lemma VerifyNext(d: Daemon, shortlist: seq<Ranked>, target: real, net: ConnectNet, i: nat, best: Best, now: nat)
    requires i < |shortlist|
    ensures var (d1, ok) := Pointed(d, shortlist[i], i == 0, TrialAt(net.trials, i).moved);
      var (d', r) := Verify(d, shortlist, target, net, i, best, now);
      && (!ok ==> r.Err?)
      && (ok && RateOf(net, i).None? ==> (d', r) == Verify(d1, shortlist, target, net, i + 1, best, now))
      && (ok && RateOf(net, i).Some? ==>
            var mbps := RateOf(net, i).value;
            var d2 := RecordThroughput(d1, shortlist[i].name, mbps, now);
            (d', r) == if mbps >= target then (d2, Ok(shortlist[i].(mbps := Some(mbps))))
                       else Verify(d2, shortlist, target, net, i + 1, Better(best, shortlist[i], mbps), now))
  {}

  lemma ReachedChooses(d: Daemon, shortlist: seq<Ranked>, target: real, net: ConnectNet, i: nat)
    requires i < |shortlist| && PointsAt(d, shortlist[i]) && NoneReaches(net, target, i)
    requires RateOf(net, i).Some? && RateOf(net, i).value >= target
    ensures Outcome(d, shortlist[i].(mbps := RateOf(net, i)), shortlist, target, net)
  {
    assert Took(d, shortlist[i].(mbps := RateOf(net, i)), shortlist, net, i) && FirstToReach(net, target, i);
  }

  lemma {:induction false} VerifyChooses(d: Daemon, shortlist: seq<Ranked>, target: real, net: ConnectNet, i: nat,
                                         best: Best, now: nat)
    requires i <= |shortlist| && shortlist != [] && DistinctBy(RankedName(), shortlist)
    requires BestSoFar(best, shortlist, net, i) && NoneReaches(net, target, i)
    requires if i == 0 then d.current.None? else PointsAt(d, shortlist[i - 1])
    ensures var (d', r) := Verify(d, shortlist, target, net, i, best, now);
      r.Ok? ==> Outcome(d', r.value, shortlist, target, net)
    decreases |shortlist| - i
  {
    if i == |shortlist| {
      SettleChooses(d, shortlist, target, net, best);
    } else {
      var candidate := shortlist[i];
      var (d1, ok) := Pointed(d, candidate, i == 0, TrialAt(net.trials, i).moved);
      VerifyNext(d, shortlist, target, net, i, best, now);
      if ok {
        PointedPoints(d, candidate, i == 0, TrialAt(net.trials, i).moved);
        BetterKeeps(best, shortlist, net, i);
        match RateOf(net, i)
        case None =>
          NoneReachesYet(net, target, i);
          VerifyChooses(d1, shortlist, target, net, i + 1, best, now);
        case Some(mbps) =>
          var d2 := RecordThroughput(d1, candidate.name, mbps, now);
          RecordPoints(d1, candidate, mbps, now);
          if mbps >= target {
            ReachedChooses(d2, shortlist, target, net, i);
          } else {
            NoneReachesYet(net, target, i);
            VerifyChooses(d2, shortlist, target, net, i + 1, Better(best, candidate, mbps), now);
          }
      }
    }
  }

  // ---- when it works ---------------------------------------------------------

  /** The tunnel came up on, or moved to, each of the first `n`. */
  predicate AllMoved(net: ConnectNet, n: nat) {
    forall j: nat :: j < n ==> TrialAt(net.trials, j).moved
  }

  /** Some candidate reaches the bar and every move up to it works; or none does, every move works, and so does the move
      back to the fastest unless that was the last one tried or nothing was measured. */
  predicate Works(net: ConnectNet, target: real, n: nat) {
    || (exists k: nat :: k < n && FirstToReach(net, target, k) && AllMoved(net, k + 1))
    || (NoneReaches(net, target, n) && AllMoved(net, n)
        && (net.settled || NoneMeasured(net, n) || (n > 0 && EarliestFastest(net, n, n - 1))))
  }

  lemma SettleWorks(d: Daemon, shortlist: seq<Ranked>, net: ConnectNet, best: Best)
    requires shortlist != [] && DistinctBy(RankedName(), shortlist)
    requires BestSoFar(best, shortlist, net, |shortlist|) && PointsAt(d, shortlist[|shortlist| - 1])
    ensures var n := |shortlist|;
      Settle(d, shortlist[0], best, net).1.Ok? <==>
        net.settled || NoneMeasured(net, n) || EarliestFastest(net, n, n - 1)
  {
    var n := |shortlist|;
    if best.Some? {
      var (c, mbps) := best.value;
      var k: nat :| EarliestFastest(net, n, k) && k < n && c == shortlist[k] && Some(mbps) == RateOf(net, k);
      if k < n - 1 {
        assert RankedName()(shortlist[k]) != RankedName()(shortlist[n - 1]);
      }
    }
  }

  lemma {:induction false} VerifyWorks(d: Daemon, shortlist: seq<Ranked>, target: real, net: ConnectNet, i: nat,
                                       best: Best, now: nat)
    requires i <= |shortlist| && shortlist != [] && DistinctBy(RankedName(), shortlist)
    requires BestSoFar(best, shortlist, net, i) && NoneReaches(net, target, i) && AllMoved(net, i)
    requires if i == 0 then d.current.None? else PointsAt(d, shortlist[i - 1])
    ensures Verify(d, shortlist, target, net, i, best, now).1.Ok? <==> Works(net, target, |shortlist|)
    decreases |shortlist| - i
  {
    if i == |shortlist| {
      SettleWorks(d, shortlist, net, best);
    } else {
      var candidate, t := shortlist[i], TrialAt(net.trials, i);
      var (d1, ok) := Pointed(d, candidate, i == 0, t.moved);
      VerifyNext(d, shortlist, target, net, i, best, now);
      assert ok == t.moved;
      if ok {
        PointedPoints(d, candidate, i == 0, t.moved);
        BetterKeeps(best, shortlist, net, i);
        match RateOf(net, i)
        case None =>
          NoneReachesYet(net, target, i);
          VerifyWorks(d1, shortlist, target, net, i + 1, best, now);
        case Some(mbps) =>
          var d2 := RecordThroughput(d1, candidate.name, mbps, now);
          RecordPoints(d1, candidate, mbps, now);
          if mbps >= target {
            assert FirstToReach(net, target, i) && AllMoved(net, i + 1);
          } else {
            NoneReachesYet(net, target, i);
            VerifyWorks(d2, shortlist, target, net, i + 1, Better(best, candidate, mbps), now);
          }
      }
    }
  }

  // ---- what is recorded ------------------------------------------------------

  /** Candidate `k` was tried and measured: every move up to it worked and none before it reached the bar. */
  predicate MeasuredAt(net: ConnectNet, target: real, k: nat) {
    AllMoved(net, k + 1) && NoneReaches(net, target, k) && RateOf(net, k).Some?
  }

  function OnRecord(seen: map<string, Sample>, name: string): Option<Sample> {
    if name in seen then Some(seen[name]) else None
  }

  ghost predicate NotMeasured(shortlist: seq<Ranked>, target: real, net: ConnectNet, i: nat, name: string) {
    forall k: nat {:trigger MeasuredAt(net, target, k)} ::
      i <= k < |shortlist| && MeasuredAt(net, target, k) ==> shortlist[k].name != name
  }

  /** The samples of the candidates measured from the `i`th on are on record, and nothing else has changed there. */
  ghost predicate Records(seen: map<string, Sample>, shortlist: seq<Ranked>, target: real, net: ConnectNet, i: nat,
                          now: nat, seen': map<string, Sample>) {
    && (forall k: nat {:trigger MeasuredAt(net, target, k)} :: i <= k < |shortlist| && MeasuredAt(net, target, k) ==>
          OnRecord(seen', shortlist[k].name) == Some(Sample(RateOf(net, k).value, now)))
    && (forall name :: NotMeasured(shortlist, target, net, i, name) ==> OnRecord(seen', name) == OnRecord(seen, name))
  }

  lemma RecordsNext(seen: map<string, Sample>, next: map<string, Sample>, shortlist: seq<Ranked>, target: real,
                    net: ConnectNet, i: nat, now: nat, seen': map<string, Sample>)
    requires i < |shortlist| && DistinctBy(RankedName(), shortlist)
    requires Records(next, shortlist, target, net, i + 1, now, seen')
    requires next == if MeasuredAt(net, target, i) then seen[shortlist[i].name := Sample(RateOf(net, i).value, now)]
                     else seen
    ensures Records(seen, shortlist, target, net, i, now, seen')
  {
    var name := shortlist[i].name;
    if MeasuredAt(net, target, i) {
      forall k: nat | i + 1 <= k < |shortlist| && MeasuredAt(net, target, k) ensures shortlist[k].name != name {
        assert RankedName()(shortlist[i]) != RankedName()(shortlist[k]);
      }
      assert NotMeasured(shortlist, target, net, i + 1, name);
    }
    forall other | NotMeasured(shortlist, target, net, i, other) ensures OnRecord(seen', other) == OnRecord(seen, other)
    {
      assert NotMeasured(shortlist, target, net, i + 1, other);
    }
  }

  /** Every sample taken while candidates are tried is kept, whether or not the connect works in the end. */
  lemma {:induction false} VerifyRecords(d: Daemon, shortlist: seq<Ranked>, target: real, net: ConnectNet, i: nat,
                                         best: Best, now: nat)
    requires i <= |shortlist| && shortlist != [] && DistinctBy(RankedName(), shortlist)
    requires NoneReaches(net, target, i) && AllMoved(net, i) && (i > 0 ==> d.tunnel.Some?)
    ensures Records(d.seen, shortlist, target, net, i, now, Verify(d, shortlist, target, net, i, best, now).0.seen)
    decreases |shortlist| - i
  {
    if i < |shortlist| {
      var candidate, t := shortlist[i], TrialAt(net.trials, i);
      var (d1, ok) := Pointed(d, candidate, i == 0, t.moved);
      var d' := Verify(d, shortlist, target, net, i, best, now).0;
      VerifyNext(d, shortlist, target, net, i, best, now);
      assert ok == t.moved && d1.seen == d.seen;
      if !ok {
        NothingRecorded(d.seen, shortlist, target, net, i, now);
      } else {
        match RateOf(net, i)
        case None =>
          NoneReachesYet(net, target, i);
          VerifyRecords(d1, shortlist, target, net, i + 1, best, now);
          RecordsNext(d.seen, d.seen, shortlist, target, net, i, now, d'.seen);
        case Some(mbps) =>
          var d2 := RecordThroughput(d1, candidate.name, mbps, now);
          assert MeasuredAt(net, target, i);
          if mbps >= target {
            OneRecorded(d.seen, shortlist, target, net, i, now);
          } else {
            NoneReachesYet(net, target, i);
            VerifyRecords(d2, shortlist, target, net, i + 1, Better(best, candidate, mbps), now);
            RecordsNext(d.seen, d2.seen, shortlist, target, net, i, now, d'.seen);
          }
      }
    }
  }

  lemma NothingRecorded(seen: map<string, Sample>, shortlist: seq<Ranked>, target: real, net: ConnectNet, i: nat,
                        now: nat)
    requires i < |shortlist| && !TrialAt(net.trials, i).moved
    ensures Records(seen, shortlist, target, net, i, now, seen)
  {}

  lemma OneRecorded(seen: map<string, Sample>, shortlist: seq<Ranked>, target: real, net: ConnectNet, i: nat, now: nat)
    requires i < |shortlist| && MeasuredAt(net, target, i) && RateOf(net, i).value >= target
    ensures Records(seen, shortlist, target, net, i, now, seen[shortlist[i].name := Sample(RateOf(net, i).value, now)])
  {
    forall other | NotMeasured(shortlist, target, net, i, other) ensures other != shortlist[i].name {}
  }

  // ---- distinct names --------------------------------------------------------

  lemma DistinctTake(xs: seq<Ranked>, n: nat)
    requires n <= |xs| && DistinctBy(RankedName(), xs)
    ensures DistinctBy(RankedName(), xs[..n])
  {}

  function ServerName(): Server -> string {
    (s: Server) => s.name
  }

  lemma SweptDistinct(d: Daemon, candidates: seq<Server>, answers: seq<Answer>)
    requires DistinctNames(candidates)
    ensures DistinctBy(RankedName(), SweepRanking(d, candidates, answers))
  {
    var ms := MeasuredBy(candidates, answers, d.config.port);
    MeasuredServers(candidates, answers, d.config.port);
    assert Score.DistinctServers(ms);
    Score.RankDistinct(ms, ScoringOf(d));
  }

  /** The list a sweep would use names every server once. */
  predicate ListDistinct(d: Daemon) {
    d.servers.Some? ==> DistinctNames(d.servers.value.list)
  }

  lemma SweepDistinct(d: Daemon, country: Option<string>, p: Probing, now: nat)
    requires ListDistinct(Refresh(d, p.fetched, now))
    ensures var r := Sweep(d, country, p, now).1; r.Ok? ==> DistinctBy(RankedName(), r.value)
  {
    var d1 := Refresh(d, p.fetched, now);
    if d1.servers.Some? {
      var list := d1.servers.value.list;
      var f := Narrowed(d.config.filters, country);
      assert DistinctBy(ServerName(), list);
      DistinctKeep(ServerName(), Eligible(f), list);
      var candidates := Accepted(list, f);
      assert forall i, j :: 0 <= i < j < |candidates| ==> ServerName()(candidates[i]) != ServerName()(candidates[j]);
      SweptDistinct(d1, candidates, p.answers);
    }
  }

  // ---- the choice ------------------------------------------------------------

  /** Whether a connect measures: what the request says, else what is configured. */
  predicate Measuring(d: Daemon, measure: Option<bool>) {
    measure == Some(true) || (measure.None? && d.config.autotune.measureBeforeConnect)
  }

  /** What is known of the line once a connect has measured it: this measurement, else an earlier one. */
  function LineRate(d: Daemon, net: ConnectNet): Option<real> {
    if net.direct.Some? then net.direct
    else if d.direct.Some? then Some(d.direct.value.mbps)
    else None
  }

  /** The candidates verified: as many of a ranking as are configured. */
  function Shortlist(d: Daemon, ranking: seq<Ranked>): seq<Ranked> {
    if d.config.autotune.verifyCandidates < |ranking| then ranking[..d.config.autotune.verifyCandidates] else ranking
  }

  /** What trying the head of a ranking, against the bar the line sets, comes to. */
  ghost predicate Chosen(d: Daemon, ranking: seq<Ranked>, net: ConnectNet, now: nat, d': Daemon,
                         r: Result<Ranked, Error>) {
    var shortlist, bar := Shortlist(d, ranking), d.config.autotune.Acceptance(LineRate(d, net));
    && shortlist != []
    && (r.Ok? <==> Works(net, bar, |shortlist|))
    && (r.Ok? ==> Outcome(d', r.value, shortlist, bar, net))
    && Records(d.seen, shortlist, bar, net, 0, now, d'.seen)
  }

  lemma BestSteps(d: Daemon, measure: Option<bool>, net: ConnectNet, now: nat)
    requires d.current.None? && Measuring(d, measure)
    ensures var d1 := if net.direct.Some? then d.(direct := Some(Sample(net.direct.value, now))) else d;
      var (d2, swept) := Sweep(d1, None, net.probing, now);
      ConnectTo(d, None, measure, net, now) ==
        match swept case Err(e) => (d2, Err(e)) case Ok(ranking) => PickFrom(d2, ranking, true, net, now)
  {}

  /** An automatic connect that verifies candidates tries the head of the ranking it swept against the bar set by the
      line it just measured. When it works it ends in one of three ways, and it works exactly when the moves do; what
      was measured is on record either way. */
  lemma ConnectBestChooses(d: Daemon, measure: Option<bool>, net: ConnectNet, now: nat)
    requires d.current.None? && Measuring(d, measure) && d.config.autotune.verifyCandidates > 0
    requires ListDistinct(Refresh(d, net.probing.fetched, now))
    ensures var d1 := if net.direct.Some? then d.(direct := Some(Sample(net.direct.value, now))) else d;
      var swept := Sweep(d1, None, net.probing, now).1;
      var (d', r) := ConnectTo(d, None, measure, net, now);
      match swept
      case Err(e) => r == Err(e)
      case Ok(ranking) => Chosen(d, ranking, net, now, d', r)
  {
    var d1 := if net.direct.Some? then d.(direct := Some(Sample(net.direct.value, now))) else d;
    BestSteps(d, measure, net, now);
    SweepForChoice(d1, net.probing, now);
    var (d2, swept) := Sweep(d1, None, net.probing, now);
    if swept.Ok? {
      PickChooses(d, d2, swept.value, net, now);
    }
  }

  lemma SweepForChoice(d: Daemon, p: Probing, now: nat)
    requires ListDistinct(Refresh(d, p.fetched, now))
    ensures var (d', r) := Sweep(d, None, p, now);
      && d'.current == d.current && d'.config == d.config && d'.direct == d.direct && d'.seen == d.seen
      && (r.Ok? ==> r.value != [] && DistinctBy(RankedName(), r.value))
  {
    SweepTouches(d, None, p, now);
    SweepDistinct(d, None, p, now);
  }

  lemma PickChooses(d0: Daemon, d: Daemon, ranked: seq<Ranked>, net: ConnectNet, now: nat)
    requires d.current.None? && d.config == d0.config && d.seen == d0.seen && d.config.autotune.verifyCandidates > 0
    requires DirectRate(d) == LineRate(d0, net) && ranked != [] && DistinctBy(RankedName(), ranked)
    ensures var (d', r) := PickFrom(d, ranked, true, net, now); Chosen(d0, ranked, net, now, d', r)
  {
    var n := AttemptsOf(d, true, |ranked|);
    var shortlist := ranked[..n];
    assert shortlist == Shortlist(d0, ranked);
    DistinctTake(ranked, n);
    VerifyChooses(d, shortlist, d.config.autotune.Acceptance(DirectRate(d)), net, 0, None, now);
    VerifyWorks(d, shortlist, d.config.autotune.Acceptance(DirectRate(d)), net, 0, None, now);
    VerifyRecords(d, shortlist, d.config.autotune.Acceptance(DirectRate(d)), net, 0, None, now);
  }

  /** The server reported is the server connected to, exactly when some candidate was measured
      or only one was tried. */
  lemma ReportedIsConnected(d: Daemon, chosen: Ranked, shortlist: seq<Ranked>, target: real, net: ConnectNet)
    requires shortlist != [] && DistinctBy(RankedName(), shortlist) && Outcome(d, chosen, shortlist, target, net)
    ensures d.current.Some?
    ensures d.current.value.server == chosen.name <==> !NoneMeasured(net, |shortlist|) || |shortlist| == 1
  {
    var n := |shortlist|;
    assert RankedName()(shortlist[0]) == shortlist[0].name && RankedName()(shortlist[n - 1]) == shortlist[n - 1].name;
    if NoneMeasured(net, n) {
      assert forall k: nat :: k < n ==> !FirstToReach(net, target, k) && !EarliestFastest(net, n, k);
    }
  }
}
