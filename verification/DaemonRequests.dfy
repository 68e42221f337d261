/** What each request comes to, told from the list, the answers and the outcomes it meets. */
module DaemonRequests {
  import opened Wrappers
  import opened Text
  import opened Address
  import opened Servers
  import opened Settings
  import opened Sorting
  import opened Filter
  import opened Tuner
  import opened DaemonModel
  import opened DaemonTheorems
  import opened DaemonChoice
  import Roaming
  import Score
  import ScoreLaws

  // ---- the list, and one server of it ----------------------------------------

  /** A copy no more than five minutes old, else a fresh list, else the stale copy. */
  function ListUsed(d: Daemon, fetched: Option<seq<Server>>, now: nat): Option<seq<Server>> {
    match d.servers
    case None => fetched
    case Some(kept) => if now <= kept.at + 300 || fetched.None? then Some(kept.list) else fetched
  }

  /** The cache holds the list used, and a new time exactly when the list is a new one. */
  predicate Caches(d: Daemon, fetched: Option<seq<Server>>, now: nat, d': Daemon) {
    match ListUsed(d, fetched, now)
    case None => d'.servers == None
    case Some(list) =>
      d'.servers == Some(Cached(list, if d.servers.Some? && (now <= d.servers.value.at + 300 || fetched.None?)
                                      then d.servers.value.at else now))
  }

  lemma RefreshUses(d: Daemon, fetched: Option<seq<Server>>, now: nat)
    ensures var d' := Refresh(d, fetched, now); d' == d.(servers := d'.servers) && Caches(d, fetched, now, d')
  {}

  /** The `k`th server is the first of that name, whatever the case. */
  predicate FirstNamed(list: seq<Server>, name: string, k: nat) {
    && k < |list| && Lower(list[k].name) == Lower(name)
    && forall j :: 0 <= j < k ==> Lower(list[j].name) != Lower(name)
  }

  predicate Lists(list: seq<Server>, name: string) {
    exists s :: s in list && Lower(s.name) == Lower(name)
  }

  lemma {:induction false} FindIsFirst(list: seq<Server>, name: string)
    ensures Find(list, name).Some? <==> Lists(list, name)
    ensures Find(list, name).Some? ==> exists k: nat :: FirstNamed(list, name, k) && list[k] == Find(list, name).value
  {
    if list != [] {
      if Lower(list[0].name) == Lower(name) {
        assert FirstNamed(list, name, 0);
      } else {
        var rest := list[1..];
        FindIsFirst(rest, name);
        if Find(rest, name).Some? {
          var k: nat :| FirstNamed(rest, name, k) && rest[k] == Find(rest, name).value;
          assert list[k + 1] == rest[k];
          forall j | 0 <= j < k + 1 ensures Lower(list[j].name) != Lower(name) {
            assert j > 0 ==> list[j] == rest[j - 1];
          }
          assert FirstNamed(list, name, k + 1);
        }
      }
    }
  }

  /** The entry shows the server, the answer it gave and the rate on record for it. */
  predicate Shows(s: Server, a: Answer, seen: map<string, Sample>, r: Ranked) {
    && r.name == s.name && r.countryCode == s.countryCode && r.load == s.load
    && (if s.bw < s.bwMax then r.headroomMbps == s.bwMax - s.bw else r.headroomMbps == 0)
    && a.rtt.Some? && r.rttMs == a.rtt.value as real / 1000000.0 && r.entry == a.entry && r.endpoint == a.endpoint
    && (if s.name in seen then r.mbps == Some(seen[s.name].mbps) else r.mbps == None)
  }

  /** The `k`th server answered. */
  predicate AnsweredAt(answers: seq<Answer>, k: nat) {
    k < |answers| && answers[k].rtt.Some?
  }

  // ---- a sweep ---------------------------------------------------------------

  /** The ranking has an entry for that server with that answer. */
  predicate HasEntry(s: Server, a: Answer, seen: map<string, Sample>, ranking: seq<Ranked>) {
    exists i :: 0 <= i < |ranking| && Shows(s, a, seen, ranking[i])
  }

  /** The entry is that of a candidate with its own answer. */
  ghost predicate IsOf(candidates: seq<Server>, answers: seq<Answer>, seen: map<string, Sample>, r: Ranked) {
    exists k: nat {:trigger AnsweredAt(answers, k)} ::
      k < |candidates| && AnsweredAt(answers, k) && Shows(candidates[k], answers[k], seen, r)
  }

  /** Each entry shows a candidate with its own answer, and each candidate that answered has an entry. */
  ghost predicate Measures(candidates: seq<Server>, answers: seq<Answer>, seen: map<string, Sample>,
                           ranking: seq<Ranked>) {
    && (forall i :: 0 <= i < |ranking| ==> IsOf(candidates, answers, seen, ranking[i]))
    && (forall k: nat {:trigger HasEntry(candidates[k], answers[k], seen, ranking)} ::
          k < |candidates| && AnsweredAt(answers, k) ==> HasEntry(candidates[k], answers[k], seen, ranking))
  }

  predicate NoneAnswers(candidates: seq<Server>, answers: seq<Answer>) {
    forall k: nat :: k < |candidates| ==> !AnsweredAt(answers, k)
  }

  lemma EntryShows(seen: map<string, Sample>, list: seq<Server>, answers: seq<Answer>, port: nat, x: Score.Scored,
                   k: nat)
    requires k < |list| && MeasuredBy(list, answers, port)[k] == Score.MeasuredAs(x)
    ensures AnsweredAt(answers, k) && Shows(list[k], answers[k], seen, ToRanked(seen)(x))
  {}

  lemma RankingMeasures(d: Daemon, candidates: seq<Server>, answers: seq<Answer>)
    ensures Measures(candidates, answers, d.seen, SweepRanking(d, candidates, answers))
  {
    var ms, s, r := MeasuredBy(candidates, answers, d.config.port), ScoringOf(d), SweepRanking(d, candidates, answers);
    var scored := Score.Rank(ms, s);
    Score.RankMembers(ms, s);
    forall i | 0 <= i < |r|
      ensures IsOf(candidates, answers, d.seen, r[i])
    {
      assert scored[i] in scored;
      var k :| 0 <= k < |ms| && ms[k] == Score.MeasuredAs(scored[i]);
      EntryShows(d.seen, candidates, answers, d.config.port, scored[i], k);
    }
    forall k: nat | k < |candidates| && AnsweredAt(answers, k)
      ensures HasEntry(candidates[k], answers[k], d.seen, r)
    {
      CandidateRanked(d, candidates, answers, k);
    }
  }

  lemma CandidateRanked(d: Daemon, candidates: seq<Server>, answers: seq<Answer>, k: nat)
    requires k < |candidates| && AnsweredAt(answers, k)
    ensures HasEntry(candidates[k], answers[k], d.seen, SweepRanking(d, candidates, answers))
  {
    var ms, s, r := MeasuredBy(candidates, answers, d.config.port), ScoringOf(d), SweepRanking(d, candidates, answers);
    var scored := Score.Rank(ms, s);
    assert ms[k].rtt.Some? && ms[k] in ms;
    ScoreLaws.AnsweredIsReachable(ms, ms[k]);
    ScoreLaws.EntryThere(ms, s, ms[k]);
    var i :| 0 <= i < |scored| && ScoreLaws.Stands(scored[i], ms[k]);
    EntryShows(d.seen, candidates, answers, d.config.port, scored[i], k);
    assert r[i] == ToRanked(d.seen)(scored[i]);
  }

  lemma MeasuresNone(candidates: seq<Server>, answers: seq<Answer>, seen: map<string, Sample>, ranking: seq<Ranked>)
    requires Measures(candidates, answers, seen, ranking)
    ensures ranking == [] <==> NoneAnswers(candidates, answers)
  {
    if ranking != [] {
      assert IsOf(candidates, answers, seen, ranking[0]);
    }
    if k: nat :| k < |candidates| && AnsweredAt(answers, k) {
      assert HasEntry(candidates[k], answers[k], seen, ranking);
    }
  }

  lemma MeasuresOne(server: Server, answers: seq<Answer>, seen: map<string, Sample>, ranking: seq<Ranked>)
    requires Measures([server], answers, seen, ranking)
    ensures if AnsweredAt(answers, 0) then ranking != [] && Shows(server, answers[0], seen, ranking[0])
            else ranking == []
  {
    MeasuresNone([server], answers, seen, ranking);
    if ranking != [] {
      assert IsOf([server], answers, seen, ranking[0]);
    } else {
      assert AnsweredAt(answers, 0) ==> 0 < |[server]|;
    }
  }

  /** What was measured of the candidates, in their order. */
  predicate MeasuredAre(candidates: seq<Server>, answers: seq<Answer>, ms: seq<Score.Measured>) {
    && |ms| == |candidates|
    && forall k :: 0 <= k < |ms| ==>
      && ms[k].server == candidates[k]
      && (if AnsweredAt(answers, k) then
            ms[k] == Score.Measured(candidates[k], answers[k].endpoint, answers[k].entry, answers[k].rtt)
          else ms[k].rtt.None?)
  }

  /** The ranking is that of what was measured, with the configured weights and the capacity asked for given what is
      known of the line. */
  ghost predicate RankedBy(d: Daemon, candidates: seq<Server>, answers: seq<Answer>, ranking: seq<Ranked>) {
    var line := if d.direct.Some? then Some(d.direct.value.mbps) else None;
    var scoring := Score.Scoring(d.config.autotune.weights, d.config.autotune.HeadroomTarget(line), d.ln);
    exists ms :: MeasuredAre(candidates, answers, ms) && Entered(Score.Rank(ms, scoring), ranking)
  }

  /** The same servers in the same places with the same scores. */
  predicate Entered(scored: seq<Score.Scored>, ranking: seq<Ranked>) {
    && |scored| == |ranking|
    && forall i :: 0 <= i < |ranking| ==>
      ranking[i].name == scored[i].server.name && ranking[i].score == scored[i].score
  }

  lemma RankingRanks(d: Daemon, candidates: seq<Server>, answers: seq<Answer>)
    ensures RankedBy(d, candidates, answers, SweepRanking(d, candidates, answers))
  {
    var ms := MeasuredBy(candidates, answers, d.config.port);
    assert MeasuredAre(candidates, answers, ms);
    assert Entered(Score.Rank(ms, ScoringOf(d)), SweepRanking(d, candidates, answers));
  }

  /** What a sweep of these candidates answers, and what it leaves behind. */
  ghost predicate SweepComesTo(d: Daemon, candidates: Option<seq<Server>>, answers: seq<Answer>, d': Daemon,
                               r: Result<seq<Ranked>, Error>) {
    match candidates
    case None => r == Err(FetchFailed) && d'.ranking == d.ranking && d'.probed == d.probed
    case Some(cs) =>
      if cs == [] then r == Err(NoCandidates) && d'.ranking == d.ranking && d'.probed == d.probed
      else if NoneAnswers(cs, answers) then
        r == Err(AllUnreachable(|cs|)) && d'.ranking == d.ranking && d'.probed == Some(|cs|)
      else
        && r.Ok? && Sorted(RankedOrder(), r.value) && Measures(cs, answers, d.seen, r.value)
        && RankedBy(d, cs, answers, r.value)
        && d'.ranking == r.value && d'.probed == Some(|cs|)
  }

  /** The servers of the list used that the filters accept, one country taking the place of the whitelist. */
  function Candidates(d: Daemon, country: Option<string>, fetched: Option<seq<Server>>, now: nat)
    : Option<seq<Server>>
  {
    match ListUsed(d, fetched, now)
    case None => None
    case Some(list) =>
      match country
      case None => Some(Accepted(list, d.config.filters))
      case Some(c) => Some(Accepted(list, d.config.filters.(countryWhitelist := [c])))
  }

  /** A sweep ranks what answered of the candidates, each with its own answer; otherwise it says which of three
      things went wrong and keeps the ranking. */
  lemma SweepExactly(d: Daemon, country: Option<string>, p: Probing, now: nat)
    ensures var (d', r) := Sweep(d, country, p, now);
      && d' == d.(servers := d'.servers, probed := d'.probed, ranking := d'.ranking)
      && Caches(d, p.fetched, now, d')
      && SweepComesTo(d, Candidates(d, country, p.fetched, now), p.answers, d', r)
  {
    SweepTouches(d, country, p, now);
    RefreshUses(d, p.fetched, now);
    var d1 := Refresh(d, p.fetched, now);
    if d1.servers.Some? {
      var cs := Accepted(d1.servers.value.list, Narrowed(d.config.filters, country));
      SweptRanking(d1, cs, p.answers);
      RankingMeasures(d1, cs, p.answers);
      RankingRanks(d1, cs, p.answers);
      MeasuresNone(cs, p.answers, d1.seen, SweepRanking(d1, cs, p.answers));
    }
  }

  // ---- a server by name ------------------------------------------------------

  /** Probing the server of that name finds it, as `r`. */
  ghost predicate Finds(d: Daemon, name: string, p: Probing, now: nat, r: Ranked) {
    var list := ListUsed(d, p.fetched, now);
    && list.Some? && AnsweredAt(p.answers, 0)
    && exists k: nat :: FirstNamed(list.value, name, k) && Shows(list.value[k], p.answers[0], d.seen, r)
  }

  /** Probing the server of that name ends in this error. */
  predicate FindFails(d: Daemon, name: string, p: Probing, now: nat, e: Error) {
    match ListUsed(d, p.fetched, now)
    case None => e == FetchFailed
    case Some(list) =>
      if Lists(list, name) then e == ServerUnreachable(name) && !AnsweredAt(p.answers, 0)
      else e == UnknownServer(name)
  }

  lemma ProbeNamedExactly(d: Daemon, name: string, p: Probing, now: nat)
    ensures var (d', r) := ProbeNamed(d, name, p, now);
      && d' == d.(servers := d'.servers) && Caches(d, p.fetched, now, d')
      && (r.Ok? ==> Finds(d, name, p, now, r.value))
      && (r.Err? ==> FindFails(d, name, p, now, r.error))
  {
    RefreshUses(d, p.fetched, now);
    var d1 := Refresh(d, p.fetched, now);
    if d1.servers.Some? {
      var list := d1.servers.value.list;
      FindIsFirst(list, name);
      if Find(list, name).Some? {
        var server := Find(list, name).value;
        RankingMeasures(d1, [server], p.answers);
        MeasuresOne(server, p.answers, d1.seen, SweepRanking(d1, [server], p.answers));
      }
    }
  }

  /** The record of the connection and the tunnel both are at `r`, by this last call. */
  predicate IsAt(d: Daemon, d': Daemon, r: Ranked, call: Roaming.Call) {
    && d'.current == Some(Connection(r.name, r.countryCode, r.endpoint, r.entry))
    && d'.tunnel == Some(Handle(Some(r.endpoint)))
    && d'.calls == Then(d.calls, call)
  }

  /** Nothing was done to the tunnel. */
  predicate Stays(d: Daemon, d': Daemon) {
    d'.current == d.current && d'.tunnel == d.tunnel && d'.calls == d.calls && d'.dismissed == d.dismissed
  }

  /** What a switch to that name answers, and where it leaves the tunnel. */
  ghost predicate SwitchComesTo(d: Daemon, name: string, p: Probing, moved: bool, now: nat, d': Daemon,
                                r: Result<Ranked, Error>) {
    if d.current.None? then r == Err(Error.NotConnected) && d' == d else
    && d' == d.(servers := d'.servers, tunnel := d'.tunnel, current := d'.current, dismissed := d'.dismissed,
                calls := d'.calls)
    && Caches(d, p.fetched, now, d')
    && match r
       case Ok(chosen) =>
         && moved && Finds(d, name, p, now, chosen) && IsAt(d, d', chosen, Roaming.Move(chosen.endpoint, true))
         && d'.dismissed == None
       case Err(TunnelFailed) =>
         && !moved && d'.current == d.current && d'.tunnel == Some(Handle(None)) && d'.dismissed == d.dismissed
         && exists c :: Finds(d, name, p, now, c) && d'.calls == Then(d.calls, Roaming.Move(c.endpoint, false))
       case Err(e) => FindFails(d, name, p, now, e) && Stays(d, d')
  }

  /** A switch that works is to the server of that name in the list used, with the answer it gave, and that is what is
      on record; the name is unknown exactly when no server of the list has it. */
  lemma SwitchGoesWhereAsked(d: Daemon, name: string, p: Probing, moved: bool, now: nat)
    requires Linked(d)
    ensures var (d', r) := SwitchServer(d, name, p, moved, now);
      && SwitchComesTo(d, name, p, moved, now, d', r)
      && (r.Ok? ==> Lower(r.value.name) == Lower(name))
      && (r == Err(UnknownServer(name)) <==>
            var list := ListUsed(d, p.fetched, now); d.current.Some? && list.Some? && !Lists(list.value, name))
  {
    ProbeNamedExactly(d, name, p, now);
  }

  // ---- connecting and disconnecting ------------------------------------------

  /** What a connect to that name answers, and where it leaves the tunnel. */
  ghost predicate ConnectComesTo(d: Daemon, name: string, net: ConnectNet, now: nat, d': Daemon,
                                 r: Result<Ranked, Error>) {
    if d.current.Some? then r == Err(AlreadyConnected(d.current.value.server)) && d' == d else
    && d' == d.(servers := d'.servers, tunnel := d'.tunnel, current := d'.current, calls := d'.calls)
    && Caches(d, net.probing.fetched, now, d')
    && match r
       case Ok(chosen) =>
         && net.up && Finds(d, name, net.probing, now, chosen)
         && IsAt(d, d', chosen, Roaming.BringUp(chosen.endpoint, true))
       case Err(TunnelFailed) =>
         && !net.up && d'.current == None && d'.tunnel == d.tunnel
         && exists c :: Finds(d, name, net.probing, now, c)
                        && d'.calls == Then(d.calls, Roaming.BringUp(c.endpoint, false))
       case Err(e) => FindFails(d, name, net.probing, now, e) && Stays(d, d')
  }

  /** A connect by name that works is to the server of that name in the list used. */
  lemma ConnectGoesWhereAsked(d: Daemon, name: string, measure: Option<bool>, net: ConnectNet, now: nat)
    ensures var (d', r) := ConnectTo(d, Some(name), measure, net, now);
      && ConnectComesTo(d, name, net, now, d', r)
      && (r.Ok? ==> Lower(r.value.name) == Lower(name))
      && (r == Err(UnknownServer(name)) <==>
            var list := ListUsed(d, net.probing.fetched, now);
            d.current.None? && list.Some? && !Lists(list.value, name))
  {
    ProbeNamedExactly(d, name, net.probing, now);
  }

  lemma PicksTheHead(d: Daemon, ranked: seq<Ranked>, should: bool, net: ConnectNet, now: nat)
    requires ranked != [] && (!should || d.config.autotune.verifyCandidates == 0)
    ensures var (d', r) := PickFrom(d, ranked, should, net, now);
      && r == (if net.up then Ok(ranked[0]) else Err(TunnelFailed))
      && d' == d.(tunnel := d'.tunnel, current := d'.current, calls := d'.calls)
      && (net.up ==> IsAt(d, d', ranked[0], Roaming.BringUp(ranked[0].endpoint, true)))
  {}

  /** An automatic connect that does not verify goes to the head of the ranking it swept. */
  lemma ConnectsToTheHead(d: Daemon, measure: Option<bool>, net: ConnectNet, now: nat)
    requires d.current.None? && (!Measuring(d, measure) || d.config.autotune.verifyCandidates == 0)
    ensures var d1 := if Measuring(d, measure) && net.direct.Some?
                      then d.(direct := Some(Sample(net.direct.value, now))) else d;
      var (d2, swept) := Sweep(d1, None, net.probing, now);
      var (d', r) := ConnectTo(d, None, measure, net, now);
      match swept
      case Err(e) => r == Err(e) && d' == d2
      case Ok(ranking) =>
        && ranking != [] && r == (if net.up then Ok(ranking[0]) else Err(TunnelFailed))
        && d' == d2.(tunnel := d'.tunnel, current := d'.current, calls := d'.calls)
        && (net.up ==> IsAt(d2, d', ranking[0], Roaming.BringUp(ranking[0].endpoint, true)))
  {
    var should := Measuring(d, measure);
    var d1 := if should && net.direct.Some? then d.(direct := Some(Sample(net.direct.value, now))) else d;
    SweepTouches(d1, None, net.probing, now);
    var (d2, swept) := Sweep(d1, None, net.probing, now);
    if swept.Ok? {
      PicksTheHead(d2, swept.value, should, net, now);
    }
  }

  /** A disconnect forgets the connection and the tunnel whether or not the teardown worked. */
  lemma DisconnectForgets(d: Daemon, down: bool)
    ensures var (d', r) := Disconnected(d, down);
      && (r.Ok? <==> d.tunnel.Some? && down)
      && (r == Err(Error.NotConnected) <==> d.tunnel.None?)
      && (d.tunnel.None? ==> d' == d)
      && (d.tunnel.Some? ==> d' == d.(tunnel := None, current := None, calls := Then(d.calls, Roaming.TearDown)))
  {}

  // ---- measuring -------------------------------------------------------------

  /** The rate on record for one server is this one, in the cached ranking too; for every other it is as it was. */
  ghost predicate RecordsRate(d: Daemon, name: string, mbps: real, now: nat, d': Daemon) {
    && d' == d.(seen := d'.seen, ranking := d'.ranking)
    && name in d'.seen && d'.seen[name] == Sample(mbps, now)
    && d'.seen - {name} == d.seen - {name}
    && |d'.ranking| == |d.ranking|
    && forall i :: 0 <= i < |d.ranking| ==>
         d'.ranking[i] == d.ranking[i].(mbps := if d.ranking[i].name == name then Some(mbps) else d.ranking[i].mbps)
  }

  lemma RecordsExactly(d: Daemon, name: string, mbps: real, now: nat)
    ensures RecordsRate(d, name, mbps, now, RecordThroughput(d, name, mbps, now))
  {
    var d' := RecordThroughput(d, name, mbps, now);
    forall i | 0 <= i < |d.ranking|
      ensures d'.ranking[i] ==
        d.ranking[i].(mbps := if d.ranking[i].name == name then Some(mbps) else d.ranking[i].mbps)
    {
      assert d'.ranking[i] == WithRate(name, mbps)(d.ranking[i]);
    }
  }

  /** A sample is that of the server in use, or with none that of the line. */
  lemma SpeedtestRecords(d: Daemon, sample: Option<real>, now: nat)
    ensures var (d', r) := SpeedtestNow(d, sample, now);
      && r == (if sample.Some? then Ok(()) else Err(MeasurementFailed))
      && (sample.None? ==> d' == d)
      && (sample.Some? && d.current.Some? ==> RecordsRate(d, d.current.value.server, sample.value, now, d'))
      && (sample.Some? && d.current.None? ==> d' == d.(direct := Some(Sample(sample.value, now))))
  {
    if sample.Some? && d.current.Some? {
      RecordsExactly(d, d.current.value.server, sample.value, now);
    }
  }

  /** A server of that name is in the list used, answers, and the tunnel comes up on it. */
  predicate Reconnects(d: Daemon, name: string, net: ConnectNet, now: nat) {
    var list := ListUsed(d, net.probing.fetched, now);
    list.Some? && Lists(list.value, name) && AnsweredAt(net.probing.answers, 0) && net.up
  }

  lemma ReconnectsExactly(d: Daemon, name: string, measure: Option<bool>, net: ConnectNet, now: nat)
    requires d.current.None?
    ensures ConnectTo(d, Some(name), measure, net, now).1.Ok? <==> Reconnects(d, name, net, now)
  {
    ProbeNamedExactly(d, name, net.probing, now);
  }

  /** A baseline puts the tunnel back on the server in use before, whether or not the line could be measured; the line
      counts only when both worked. */
  lemma BaselineRestores(d: Daemon, tunnelled: Option<real>, down: bool, line: Option<real>, net: ConnectNet, now: nat)
    requires Linked(d) && d.current.Some?
    ensures var (d', r) := BaselineNow(d, tunnelled, down, line, net, now);
      var name := d.current.value.server;
      var gone := d'.(tunnel := None, current := None, calls := Then(d.calls, Roaming.TearDown));
      if tunnelled.None? then d' == d && r == Err(MeasurementFailed)
      else
        && name in d'.seen && d'.seen[name] == Sample(tunnelled.value, now)
        && (if !down then r == Err(TunnelFailed) && d' == gone && d'.direct == d.direct
            else
              && (d'.current.Some? <==> Reconnects(d, name, net, now))
              && (d'.current.Some? ==> IsBack(gone, name, d'))
              && (r.Ok? <==> line.Some? && d'.current.Some?)
              && d'.direct == (if r.Ok? then Some(Sample(line.value, now)) else d.direct))
  {
    var name := d.current.value.server;
    if tunnelled.Some? {
      var d1 := RecordThroughput(d, name, tunnelled.value, now);
      if down {
        RestoredTo(Disconnected(d1, down).0, name, net, now);
      }
    }
  }

  /** The tunnel was brought up again on a server of that name. */
  ghost predicate IsBack(gone: Daemon, name: string, d': Daemon) {
    exists c: Ranked :: Lower(c.name) == Lower(name) && IsAt(gone, d', c, Roaming.BringUp(c.endpoint, true))
  }

  lemma RestoredTo(gone: Daemon, name: string, net: ConnectNet, now: nat)
    requires gone.current.None?
    ensures var (d', r) := ConnectTo(gone, Some(name), Some(false), net, now);
      && (r.Ok? <==> d'.current.Some?) && (r.Ok? <==> Reconnects(gone, name, net, now))
      && (r.Ok? ==> IsBack(gone, name, d'))
      && d'.seen == gone.seen && d'.direct == gone.direct
  {
    ConnectGoesWhereAsked(gone, name, Some(false), net, now);
    ReconnectsExactly(gone, name, Some(false), net, now);
  }

  // ---- proposals -------------------------------------------------------------

  /** An approval is a switch to the server that was pending, which is then pending no more, whatever comes of it. */
  lemma ApprovalGoesToTheProposed(d: Daemon, p: Probing, moved: bool, now: nat)
    requires Linked(d)
    ensures var (d', r) := Approved(d, p, moved, now);
      && d'.pending == None
      && (r == Err(NoPendingSwitch) <==> d.pending.None?)
      && (d.pending.None? ==> d' == d)
      && (d.pending.Some? ==>
            var name := d.pending.value.to.name;
            && SwitchComesTo(d.(pending := None), name, p, moved, now, d', r)
            && (r.Ok? ==> Lower(r.value.name) == Lower(name)))
  {
    if d.pending.Some? {
      SwitchGoesWhereAsked(d.(pending := None), d.pending.value.to.name, p, moved, now);
    }
  }

  // ---- reloading -------------------------------------------------------------

  /** What the four lists and the load limit say of an entry. */
  predicate Permits(f: Filters, r: Ranked) {
    && !Names(f.serverBlacklist, r.name) && !Names(f.countryBlacklist, r.countryCode)
    && (Blank(f.serverWhitelist) || Names(f.serverWhitelist, r.name))
    && (Blank(f.countryWhitelist) || Names(f.countryWhitelist, r.countryCode))
    && r.load <= f.maxLoad
  }

  lemma AllowedPermits(c: Config, r: Ranked)
    ensures Allowed(c)(r) <==> Permits(c.filters, r)
  {
    NormalisedNames(c.filters.serverBlacklist, r.name);
    NormalisedNames(c.filters.countryBlacklist, r.countryCode);
    NormalisedNames(c.filters.serverWhitelist, r.name);
    NormalisedNames(c.filters.countryWhitelist, r.countryCode);
  }

  /** What a reload that succeeds leaves of the ranking and the proposal is exactly what the new lists and limit
      permit. */
  lemma ReloadDropsExactly(d: Daemon, loaded: Option<Config>)
    requires Inv(d)
    ensures var (d', r) := Reloaded(d, loaded);
      r.Ok? ==>
        && (forall x :: x in d'.ranking <==> x in d.ranking && Permits(loaded.value.filters, x))
        && d'.pending == (if d.pending.Some? && Permits(loaded.value.filters, d.pending.value.to) then d.pending
                          else None)
  {
    ReloadPrunes(d, loaded);
    if Reloaded(d, loaded).1.Ok? {
      forall x: Ranked ensures Allowed(loaded.value)(x) <==> Permits(loaded.value.filters, x) {
        AllowedPermits(loaded.value, x);
      }
    }
  }

  // ---- a tuning pass ---------------------------------------------------------

  /** What the server of that name took to answer, in milliseconds. */
  function TimeOf(d: Daemon, name: string, p: Probing, now: nat): Option<real> {
    var list := ListUsed(d, p.fetched, now);
    if list.Some? && Lists(list.value, name) && AnsweredAt(p.answers, 0)
    then Some(p.answers[0].rtt.value as real / 1000000.0) else None
  }

  lemma ProbeCurrentTimes(d: Daemon, name: string, p: Probing, now: nat)
    ensures ProbeCurrent(d, name, p, now).1 == TimeOf(d, name, p, now)
  {
    RefreshUses(d, p.fetched, now);
    var d1 := Refresh(d, p.fetched, now);
    if d1.servers.Some? {
      FindIsFirst(d1.servers.value.list, name);
    }
  }

  /** The first entry of that name. */
  predicate FirstEntry(ranking: seq<Ranked>, name: string, k: nat) {
    k < |ranking| && ranking[k].name == name && forall j :: 0 <= j < k ==> ranking[j].name != name
  }

  /** The head of the ranking is worth leaving a slow server for: it beats its score by the threshold, or undercuts its
      timing where the ranking does not have it. */
  ghost predicate WorthIt(ranking: seq<Ranked>, name: string, rttMs: real, threshold: real)
    requires ranking != []
  {
    if exists k: nat :: FirstEntry(ranking, name, k)
    then exists k: nat :: FirstEntry(ranking, name, k) && BeatsBy(ranking[k].score, ranking[0].score, threshold)
    else UndercutsBy(rttMs, ranking[0].rttMs, threshold)
  }

  lemma {:induction false} ScoreInIsFirst(ranking: seq<Ranked>, name: string)
    ensures ScoreIn(ranking, name).Some? <==> exists k: nat :: FirstEntry(ranking, name, k)
    ensures forall k: nat :: FirstEntry(ranking, name, k) ==> ScoreIn(ranking, name) == Some(ranking[k].score)
  {
    if ranking != [] {
      if ranking[0].name == name {
        assert FirstEntry(ranking, name, 0);
      } else {
        var rest := ranking[1..];
        ScoreInIsFirst(rest, name);
        forall k: nat | FirstEntry(ranking, name, k) ensures k > 0 && FirstEntry(rest, name, k - 1) {
          assert forall j :: 0 <= j < k - 1 ==> rest[j] == ranking[j + 1];
        }
        forall k: nat | FirstEntry(rest, name, k) ensures FirstEntry(ranking, name, k + 1) {
          assert ranking[k + 1] == rest[k] && forall j :: 0 < j <= k ==> ranking[j] == rest[j - 1];
        }
      }
    }
  }

  /** A refusal less than four hours old to leave that server. */
  predicate StillDeclined(d: Daemon, name: string, now: nat) {
    d.dismissed.Some? && d.dismissed.value.server == name && now < d.dismissed.value.at + 4 * 60 * 60
  }

  /** What a pass makes of the ranking it swept because the server in use was slow or silent. */
  ghost predicate Judged(d: Daemon, name: string, rtt: Option<real>, ranking: seq<Ranked>, now: nat,
                         decision: Decision) {
    var t := d.config.autotune;
    && ranking != []
    && (decision.Targets() <==>
          rtt.None? || (ranking[0].name != name && WorthIt(ranking, name, rtt.value, t.improvementThreshold)))
    && (decision.Targets() ==>
          && decision.to == ranking[0] && (decision.reason == CurrentWentSilent <==> rtt.None?)
          && (decision.Switch? <==> t.policy == Auto) && (decision.Blocked? <==> t.policy == Never)
          && (decision.Propose? <==> t.policy == Ask && (rtt.None? || !StillDeclined(d, name, now))))
    && (!decision.Targets() ==> decision.AlreadyBest? || decision.NoBetterAvailable?)
    && (decision.AlreadyBest? <==> rtt.Some? && ranking[0].name == name)
  }

  lemma DecideJudges(d: Daemon, c: Connection, rtt: Option<real>, ranking: seq<Ranked>, now: nat)
    requires ranking != [] && d.config.Valid()
    requires rtt.Some? ==> rtt.value > d.config.autotune.maxLatencyMs as real
    ensures Judged(d, c.server, rtt, ranking, now, Decide(Assess(d, c, rtt, ranking, now), d.config.autotune))
  {
    var a, t := Assess(d, c, rtt, ranking, now), d.config.autotune;
    TargetsExactly(a, t);
    ScoreInIsFirst(ranking, c.server);
    if rtt.Some? {
      GainReaches(a.current.value, rtt.value, ranking[0], t.improvementThreshold);
    }
  }

  /** The state once the server in use has been timed. */
  ghost predicate Checked(d: Daemon, e: Event, checked: Daemon)
    requires e.Tune?
  {
    && checked == d.(lastTuneAt := Some(e.started), servers := checked.servers)
    && Caches(d, e.check.fetched, e.started, checked)
  }

  ghost predicate PassSweeps(d: Daemon, e: Event, name: string, rtt: Option<real>, d': Daemon,
                             r: Result<Decision, Error>)
    requires e.Tune?
  {
    exists checked :: Checked(d, e, checked) &&
      var (after, swept) := Sweep(checked, None, e.sweep, e.now);
      && d' == after
      && match swept
         case Ok(ranking) => r.Ok? && Judged(d, name, rtt, ranking, e.now, r.value)
         case Err(AllUnreachable(n)) => r == Ok(NothingReachable(n))
         case Err(err) => r == Err(err)
  }

  lemma SweepJudged(d: Daemon, e: Event, rtt: Option<real>, checked: Daemon, d': Daemon, r: Result<Decision, Error>)
    requires e.Tune? && d.current.Some? && d.config.Valid() && Checked(d, e, checked)
    requires rtt.Some? ==> rtt.value > d.config.autotune.maxLatencyMs as real
    requires var (after, swept) := Sweep(checked, None, e.sweep, e.now);
      d' == after && r == match swept
        case Err(AllUnreachable(n)) => Ok(NothingReachable(n))
        case Err(err) => Err(err)
        case Ok(ranking) => Ok(Decide(Assess(after, d.current.value, rtt, ranking, e.now), after.config.autotune))
    ensures PassSweeps(d, e, d.current.value.server, rtt, d', r)
  {
    SweepTouches(checked, None, e.sweep, e.now);
    var swept := Sweep(checked, None, e.sweep, e.now).1;
    if swept.Ok? {
      DecideJudges(d', d.current.value, rtt, swept.value, e.now);
    }
  }

  /** A pass times the server in use, leaves it alone when it is quick, and otherwise sweeps and judges; a sweep nobody
      answers is reported and nothing more. */
  lemma PassExactly(d: Daemon, e: Event)
    requires e.Tune? && d.config.Valid()
    ensures var (d', r) := Pass(d, e);
      && d'.lastTuneAt == Some(e.started)
      && (d.current.None? ==> r == Ok(Decision.NotConnected) && d' == d.(lastTuneAt := Some(e.started)))
      && (d.current.Some? ==>
            var name, rtt := d.current.value.server, TimeOf(d, d.current.value.server, e.check, e.started);
            if rtt.Some? && rtt.value <= d.config.autotune.maxLatencyMs as real
            then r == Ok(Healthy(name, rtt.value)) && Checked(d, e, d')
            else PassSweeps(d, e, name, rtt, d', r))
  {
    if d.current.Some? {
      var name, stamped := d.current.value.server, d.(lastTuneAt := Some(e.started));
      ProbeCurrentTimes(stamped, name, e.check, e.started);
      ProbeCurrentRefreshes(stamped, name, e.check, e.started);
      RefreshUses(stamped, e.check.fetched, e.started);
      var (checked, rtt) := ProbeCurrent(stamped, name, e.check, e.started);
      if rtt.None? || rtt.value > d.config.autotune.maxLatencyMs as real {
        SweepTouches(checked, None, e.sweep, e.now);
        SweepJudged(d, e, rtt, checked, Pass(d, e).0, Pass(d, e).1);
      }
    }
  }

  /** What a pass does about its decision: it moves to the server decided on, or keeps the proposal it makes, or
      neither; any earlier proposal goes, unless the pass fails. */
  lemma TuneActs(d: Daemon, e: Event)
    requires e.Tune? && Linked(d)
    ensures var (passed, decided) := Pass(d, e);
      var (d', r) := TunePass(d, e);
      if decided.Ok? && decided.value.Switch? then
        && (exists moved :: TuneMoves(passed, e, decided.value.to.name, d', r, moved))
        && (r.Ok? ==> r == decided && d'.pending == None)
      else
        && r == decided && Stays(d, d') && d' == passed.(pending := d'.pending)
        && d'.pending == (if r.Err? then d.pending
                          else if r.value.Propose? then Some(Proposal(r.value.to, r.value.reason, e.now)) else None)
  {
    PassTouches(d, e);
    var (passed, decided) := Pass(d, e);
    if decided.Ok? && decided.value.Switch? {
      var name := decided.value.to.name;
      SwitchGoesWhereAsked(passed, name, e.target, e.moved, e.now);
      assert TuneMoves(passed, e, name, TunePass(d, e).0, TunePass(d, e).1,
                       SwitchServer(passed, name, e.target, e.moved, e.now).1);
    }
  }

  /** The move of a pass: a switch to the server decided on. */
  ghost predicate TuneMoves(passed: Daemon, e: Event, name: string, d': Daemon, r: Result<Decision, Error>,
                            moved: Result<Ranked, Error>)
    requires e.Tune?
  {
    && SwitchComesTo(passed, name, e.target, e.moved, e.now, d'.(pending := passed.pending), moved)
    && (r.Ok? <==> moved.Ok?)
    && (moved.Ok? ==> Lower(moved.value.name) == Lower(name))
    && (moved.Err? ==> r == Err(moved.error) && d'.pending == passed.pending)
  }

  // ---- dismissals ------------------------------------------------------------

  /** A dismissal remembers the server stayed on and drops the proposal. */
  lemma DismissRemembers(d: Daemon, now: nat)
    ensures var (d', r) := Dismissed(d, now);
      && (r == Err(NoPendingSwitch) <==> d.pending.None?)
      && (d.pending.None? ==> d' == d)
      && (d.pending.Some? ==> r == Ok(d.pending.value.to.name) && d'.pending == None)
      && (d.pending.Some? && d.current.Some? ==>
            forall t: nat :: StillDeclined(d', d.current.value.server, t) <==> t < now + 4 * 60 * 60)
  {}

  /** The kill switch setting follows the kill switch, and only where that could be set. */
  lemma KillswitchFollows(d: Daemon, enable: Option<bool>, done: bool)
    ensures var (d', r) := KillswitchSet(d, enable, done);
      && (r.Err? <==> enable.Some? && !done)
      && d' == d.(config := d.config.(killswitch := if enable == Some(true) && done then true
                                                    else if enable == Some(false) && done then false
                                                    else d.config.killswitch))
  {}
}
