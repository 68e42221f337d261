/** Inputs on which the daemon does what one might not expect of it. */
module DaemonWitnesses {
  import opened Wrappers
  import opened Text
  import opened Address
  import opened Servers
  import opened Settings
  import opened Sorting
  import opened Filter
  import opened Tuner
  import opened DaemonModel
  import opened DaemonTheorems
  import opened DaemonChoice
  import opened DaemonRuns
  import Score

  const NEAR: Server := Server("a", "de", 10, 0, 1000, true, 1, None)
  const FAR: Server := Server("b", "de", 10, 0, 1000, true, 2, None)

  function Configured(whitelist: seq<string>): Config {
    Config(Filters(whitelist, [], [], [], 200),
           Autotune(50, 10.0, 0.5, true, None, 1.0, 2, Ask, 0.15, Weights(1.0, 1.0, 1.0)), false, 1637)
  }

  /** Both servers are listed and answer. */
  const ANSWERS: Probing := Probing(
    Some([NEAR, FAR]),
    [Answer(Some(1_000_000), 1, NEAR.Endpoint(1637)), Answer(Some(2_000_000), 1, FAR.Endpoint(1637))])

  lemma ConfiguredIsValid(whitelist: seq<string>)
    ensures Configured(whitelist).Valid()
  {}

  lemma Plain(s: string)
    requires |s| == 2 && 'a' <= s[0] <= 'z' && 'a' <= s[1] <= 'z'
    ensures Normal(s) == s
  {
    TrimKeeps(s);
  }

  lemma BothRanked(d: Daemon)
    ensures |SweepRanking(d, [NEAR, FAR], ANSWERS.answers)| == 2
  {
    var ms := MeasuredBy([NEAR, FAR], ANSWERS.answers, d.config.port);
    KeepAll(Score.Answered(), ms);
    var reach := Score.Reachable(ms);
    Score.RankIsSortedPermutation(ms, ScoringOf(d));
    SameElements(Score.Rank(ms, ScoringOf(d)), Map(Score.Scorer(ScoringOf(d), Score.Fastest(reach)), reach));
  }

  lemma SweepFinds(d: Daemon, country: Option<string>, now: nat)
    requires d.servers.None? && Eligible(Narrowed(d.config.filters, country))(NEAR)
    requires Eligible(Narrowed(d.config.filters, country))(FAR)
    ensures var (d', r) := Sweep(d, country, ANSWERS, now); r.Ok? && |r.value| == 2
  {
    KeepAll(Eligible(Narrowed(d.config.filters, country)), [NEAR, FAR]);
    BothRanked(Refresh(d, ANSWERS.fetched, now));
  }

  /** Two candidates that come up but carry nothing: the first is reported, the second is connected. */
  lemma ReportedElsewhere(ln: real -> real, now: nat)
    ensures var net := ConnectNet(None, ANSWERS, [Trial(true, false, None), Trial(true, false, None)], true, true);
      var (d', r) := ConnectTo(Start(ln, Configured([])), None, Some(true), net, now);
      Configured([]).Valid() && r.Ok? && d'.current.Some? && d'.current.value.server != r.value.name
  {
    var net := ConnectNet(None, ANSWERS, [Trial(true, false, None), Trial(true, false, None)], true, true);
    var d := Start(ln, Configured([]));
    var (d2, swept) := Sweep(d, None, ANSWERS, now);
    ConfiguredIsValid([]);
    EverybodyEligible();
    SweepFinds(d, None, now);
    SweepDistinct(d, None, ANSWERS, now);
    SweepTouches(d, None, ANSWERS, now);
    BestIsPicked(d, net, now);
    TwoPicked(d2, swept.value, net, now);
  }

  lemma BestIsPicked(d: Daemon, net: ConnectNet, now: nat)
    requires d.current.None? && net.direct.None?
    ensures var (d', swept) := Sweep(d, None, net.probing, now);
      swept.Ok? ==> ConnectTo(d, None, Some(true), net, now) == PickFrom(d', swept.value, true, net, now)
  {}

  lemma TwoPicked(d: Daemon, two: seq<Ranked>, net: ConnectNet, now: nat)
    requires |two| == 2 && DistinctBy(RankedName(), two) && d.tunnel.None? && d.current.None?
    requires d.config.autotune.verifyCandidates == 2
    requires net.trials == [Trial(true, false, None), Trial(true, false, None)]
    ensures var (d', r) := PickFrom(d, two, true, net, now);
      r.Ok? && d'.current.Some? && d'.current.value.server != r.value.name
  {
    assert two[..2] == two;
    assert RankedName()(two[0]) != RankedName()(two[1]);
    SilentPair(d, two, d.config.autotune.Acceptance(DirectRate(d)), net, now);
  }

  lemma EverybodyEligible()
    ensures Eligible(Configured([]).filters)(NEAR) && Eligible(Configured([]).filters)(FAR)
  {}

  lemma SilentPair(d: Daemon, two: seq<Ranked>, target: real, net: ConnectNet, now: nat)
    requires |two| == 2 && d.tunnel.None? && d.current.None?
    requires net.trials == [Trial(true, false, None), Trial(true, false, None)]
    ensures var (d', r) := Verify(d, two, target, net, 0, None, now);
      r == Ok(two[0]) && d'.current == Some(ConnectionTo(two[1]))
  {
    var d1 := Establish(d, two[0], true).0;
    var d2 := MoveTo(d1, two[1], true).0;
    assert Verify(d2, two, target, net, 2, None, now) == Settle(d2, two[0], None, net);
    assert Verify(d1, two, target, net, 1, None, now) == Verify(d2, two, target, net, 2, None, now);
    assert Verify(d, two, target, net, 0, None, now) == Verify(d1, two, target, net, 1, None, now);
  }

  /** A whitelist of one country and a test of another: what is stored is not allowed. */
  lemma RankingNotAllowed(ln: real -> real, now: nat)
    ensures var d := Start(ln, Configured(["us"]));
      var (d', r) := Sweep(d, Some("de"), ANSWERS, now);
      d.config.Valid() && r.Ok? && !AllAccepted(d.config.filters, d'.ranking)
  {
    var d := Start(ln, Configured(["us"]));
    ConfiguredIsValid(["us"]);
    Plain("us");
    Plain("de");
    assert "us"[0] == 'u' && "de"[0] == 'd';
    assert Folded(["us"]) == {"us"} && Folded(["de"]) == {"de"};
    assert "us" in Normalised(["us"]) && "de" in Normalised(["de"]) && "de" !in Normalised(["us"]);
    SweepFinds(d, Some("de"), now);
    CountryRankingAllowed(d, "de", ANSWERS, now);
  }
}
