/** The daemon's state and what each request makes of it, given everything the
    network and the clock answer while the request is handled. `DaemonState` runs
    these requests on mutable fields and is proved equal to this model. */
module DaemonModel {
  import opened Wrappers
  import opened Text
  import opened Address
  import opened Servers
  import opened Settings
  import opened Sorting
  import opened Filter
  import opened Tuner
  import Roaming
  import Score

  const SERVER_CACHE_TTL: nat := 300
  const DISMISSAL_COOLDOWN: nat := 4 * 60 * 60

  datatype Config = Config(filters: Filters, autotune: Autotune, killswitch: bool, port: nat)
  {
    predicate Valid() {
      filters.Valid() && autotune.Valid()
    }
  }

  datatype Connection = Connection(server: string, countryCode: string, endpoint: SocketAddr, entry: nat)
  datatype Cached = Cached(list: seq<Server>, at: nat)
  datatype Proposal = Proposal(to: Ranked, reason: Reason, at: nat)
  datatype Dismissal = Dismissal(server: string, at: nat)
  datatype Sample = Sample(mbps: real, at: nat)

  /** A tunnel that is up. Where it points is unknown after a switch that failed. */
  datatype Handle = Handle(endpoint: Option<SocketAddr>)

  /** The calls made on the tunnel so far, the last one outermost. */
  datatype Calls = Nothing | Then(before: Calls, call: Roaming.Call)
  {
    /** What is known of the tunnel after them. */
    function Known(): Option<Handle> {
      match this
      case Nothing => None
      case Then(before, BringUp(target, ok)) => if ok then Some(Handle(Some(target))) else before.Known()
      case Then(_, Move(target, ok)) => Some(Handle(if ok then Some(target) else None))
      case Then(_, TearDown) => None
    }

    /** A tunnel is brought up only where there is none, and moved or torn down only where there is one. */
    predicate Proper() {
      match this
      case Nothing => true
      case Then(before, call) => before.Proper() && (call.BringUp? <==> before.Known().None?)
    }
  }

  datatype Error =
    | FetchFailed
    | NotConnected
    | AlreadyConnected(server: string)
    | UnknownServer(name: string)
    | ServerUnreachable(server: string)
    | AllUnreachable(probed: nat)
    | NoCandidates
    | NoPendingSwitch
    | TunnelFailed
    | MeasurementFailed
    | BadConfig

  datatype Daemon = Daemon(
    ln: real -> real, config: Config, servers: Option<Cached>, tunnel: Option<Handle>, current: Option<Connection>,
    probed: Option<nat>, ranking: seq<Ranked>, pending: Option<Proposal>, dismissed: Option<Dismissal>,
    seen: map<string, Sample>, direct: Option<Sample>, lastTuneAt: Option<nat>, calls: Calls)

  // ---- what the world answers ------------------------------------------------

  datatype Answer = Answer(rtt: Option<nat>, entry: nat, endpoint: SocketAddr)

  /** A list fetch, should one be needed, and one answer a probed server; missing answers are silence. */
  datatype Probing = Probing(fetched: Option<seq<Server>>, answers: seq<Answer>)

  /** One candidate: does the tunnel come up on it, does it carry traffic, what does it measure. */
  datatype Trial = Trial(moved: bool, carrying: bool, sample: Option<real>)

  datatype ConnectNet = ConnectNet(direct: Option<real>, probing: Probing, trials: seq<Trial>, up: bool, settled: bool)

  datatype Event =
    | Connect(server: Option<string>, measure: Option<bool>, net: ConnectNet, now: nat)
    | Disconnect(down: bool)
    | SwitchTo(name: string, probing: Probing, moved: bool, now: nat)
    | Test(country: Option<string>, probing: Probing, now: nat)
    | ListServers(fetched: Option<seq<Server>>, now: nat)
    | Reload(loaded: Option<Config>)
    | Tune(check: Probing, sweep: Probing, target: Probing, moved: bool, started: nat, now: nat)
    | Approve(probing: Probing, moved: bool, now: nat)
    | Dismiss(now: nat)
    | Speedtest(sample: Option<real>, now: nat)
    | Baseline(tunnelled: Option<real>, down: bool, line: Option<real>, net: ConnectNet, now: nat)
    | SetKillswitch(enable: Option<bool>, done: bool)
    | Report

  // ---- the pieces ------------------------------------------------------------

  function DirectRate(d: Daemon): Option<real> {
    if d.direct.Some? then Some(d.direct.value.mbps) else None
  }

  function ScoringOf(d: Daemon): Score.Scoring {
    Score.Scoring(d.config.autotune.weights, d.config.autotune.HeadroomTarget(DirectRate(d)), d.ln)
  }

  function Rate(seen: map<string, Sample>, name: string): Option<real> {
    if name in seen then Some(seen[name].mbps) else None
  }

  function ToRanked(seen: map<string, Sample>): Score.Scored -> Ranked {
    (s: Score.Scored) => Ranked(
      s.server.name, s.server.countryCode, s.server.load, s.rtt as real / 1000000.0, s.score,
      s.entry, s.endpoint, Rate(seen, s.server.name), s.server.HeadroomMbps())
  }

  function ConnectionTo(r: Ranked): Connection {
    Connection(r.name, r.countryCode, r.endpoint, r.entry)
  }

  /** The server list: refetched when older than the cache allows, stale when that fails. */
  function Refresh(d: Daemon, fetched: Option<seq<Server>>, now: nat): Daemon {
    if (d.servers.None? || now > d.servers.value.at + SERVER_CACHE_TTL) && fetched.Some?
    then d.(servers := Some(Cached(fetched.value, now)))
    else d
  }

  function MeasuredBy(list: seq<Server>, answers: seq<Answer>, port: nat): seq<Score.Measured> {
    seq(|list|, i requires 0 <= i < |list| =>
      if i < |answers| then Score.Measured(list[i], answers[i].endpoint, answers[i].entry, answers[i].rtt)
      else Score.Measured(list[i], list[i].Endpoint(port), 1, None))
  }

  function Narrowed(f: Filters, country: Option<string>): Filters {
    if country.Some? then f.(countryWhitelist := [country.value]) else f
  }

  function SweepRanking(d: Daemon, candidates: seq<Server>, answers: seq<Answer>): seq<Ranked> {
    Map(ToRanked(d.seen), Score.Rank(MeasuredBy(candidates, answers, d.config.port), ScoringOf(d)))
  }

  /** Filter, probe and rank; the ranking is kept unless nothing answered. */
  function Sweep(d0: Daemon, country: Option<string>, p: Probing, now: nat): (Daemon, Result<seq<Ranked>, Error>) {
    var d := Refresh(d0, p.fetched, now);
    if d.servers.None? then (d, Err(FetchFailed)) else
    var candidates := Accepted(d.servers.value.list, Narrowed(d.config.filters, country));
    if candidates == [] then (d, Err(NoCandidates)) else
    var ranking := SweepRanking(d, candidates, p.answers);
    var probed := d.(probed := Some(|candidates|));
    if ranking == [] then (probed, Err(AllUnreachable(|candidates|)))
    else (probed.(ranking := ranking), Ok(ranking))
  }

  /** Probe one server by name. */
  function ProbeNamed(d0: Daemon, name: string, p: Probing, now: nat): (Daemon, Result<Ranked, Error>) {
    var d := Refresh(d0, p.fetched, now);
    if d.servers.None? then (d, Err(FetchFailed)) else
    match Find(d.servers.value.list, name)
    case None => (d, Err(UnknownServer(name)))
    case Some(server) =>
      var ranking := SweepRanking(d, [server], p.answers);
      if ranking == [] then (d, Err(ServerUnreachable(name))) else (d, Ok(ranking[0]))
  }

  function Called(d: Daemon, call: Roaming.Call): Daemon {
    d.(calls := Then(d.calls, call))
  }

  function Establish(d0: Daemon, chosen: Ranked, up: bool): (Daemon, bool) {
    var d := Called(d0, Roaming.BringUp(chosen.endpoint, up));
    if up then (d.(tunnel := Some(Handle(Some(chosen.endpoint))), current := Some(ConnectionTo(chosen))), true)
    else (d, false)
  }

  function MoveTo(d0: Daemon, chosen: Ranked, moved: bool): (Daemon, bool) {
    if d0.tunnel.None? then (d0, false) else
    var d := Called(d0, Roaming.Move(chosen.endpoint, moved));
    if moved then (d.(tunnel := Some(Handle(Some(chosen.endpoint))), current := Some(ConnectionTo(chosen))), true)
    else (d.(tunnel := Some(Handle(None))), false)
  }

  function WithRate(name: string, mbps: real): Ranked -> Ranked {
    (r: Ranked) => if r.name == name then r.(mbps := Some(mbps)) else r
  }

  function RecordThroughput(d: Daemon, name: string, mbps: real, now: nat): Daemon {
    d.(seen := d.seen[name := Sample(mbps, now)], ranking := Map(WithRate(name, mbps), d.ranking))
  }

  // ---- choosing by measurement -----------------------------------------------

  /** The best candidate measured so far, with its rate. */
  type Best = Option<(Ranked, real)>

  function Better(best: Best, candidate: Ranked, mbps: real): Best {
    if best.None? || mbps > best.value.1 then Some((candidate, mbps)) else best
  }

  function Pointed(d: Daemon, candidate: Ranked, first: bool, moved: bool): (Daemon, bool) {
    if first then Establish(d, candidate, moved) else MoveTo(d, candidate, moved)
  }

  function TrialAt(trials: seq<Trial>, i: nat): Trial {
    if i < |trials| then trials[i] else Trial(false, false, None)
  }

  function TrialRate(t: Trial): Option<real> {
    if t.carrying then t.sample else None
  }

  /** Try `shortlist` from the `i`th candidate on. */
  function Verify(d: Daemon, shortlist: seq<Ranked>, target: real, net: ConnectNet, i: nat, best: Best, now: nat)
    : (Daemon, Result<Ranked, Error>)
    requires i <= |shortlist| && shortlist != []
    decreases |shortlist| - i
  {
    if i == |shortlist| then Settle(d, shortlist[0], best, net) else
    var candidate, t := shortlist[i], TrialAt(net.trials, i);
    var (d1, ok) := Pointed(d, candidate, i == 0, t.moved);
    if !ok then (d1, Err(if d.tunnel.None? && i > 0 then Error.NotConnected else TunnelFailed)) else
    match TrialRate(t)
    case None => Verify(d1, shortlist, target, net, i + 1, best, now)
    case Some(mbps) =>
      var d2 := RecordThroughput(d1, candidate.name, mbps, now);
      if mbps >= target then (d2, Ok(candidate.(mbps := Some(mbps))))
      else Verify(d2, shortlist, target, net, i + 1, Better(best, candidate, mbps), now)
  }

  /** No candidate reached the bar: take the fastest measured, or stay where the last attempt left things. */
  function Settle(d: Daemon, first: Ranked, best: Best, net: ConnectNet): (Daemon, Result<Ranked, Error>) {
    match best
    case Some((server, mbps)) =>
      var (d1, ok) :=
        if d.current.Some? && d.current.value.server == server.name then (d, true) else MoveTo(d, server, net.settled);
      if ok then (d1, Ok(server.(mbps := Some(mbps))))
      else (d1, Err(if d.tunnel.None? then Error.NotConnected else TunnelFailed))
    case None =>
      if d.current.Some? then (d, Ok(first)) else
      var (d1, ok) := Establish(d, first, net.up);
      (d1, if ok then Ok(first) else Err(TunnelFailed))
  }

  function ShouldMeasure(d: Daemon, measure: Option<bool>): bool {
    if measure.Some? then measure.value else d.config.autotune.measureBeforeConnect
  }

  function MeasureLine(d: Daemon, line: Option<real>, now: nat): Daemon {
    if line.Some? then d.(direct := Some(Sample(line.value, now))) else d
  }

  function AttemptsOf(d: Daemon, should: bool, ranked: nat): nat {
    if !should then 0
    else if d.config.autotune.verifyCandidates < ranked then d.config.autotune.verifyCandidates
    else ranked
  }

  /** The best of a ranking: verified by measuring, when that is asked for, or taken as it comes. */
  function PickFrom(d: Daemon, ranked: seq<Ranked>, should: bool, net: ConnectNet, now: nat)
    : (Daemon, Result<Ranked, Error>)
  {
    if ranked == [] then (d, Err(AllUnreachable(0))) else
    var attempts := AttemptsOf(d, should, |ranked|);
    if attempts == 0 then
      var (d', ok) := Establish(d, ranked[0], net.up);
      (d', if ok then Ok(ranked[0]) else Err(TunnelFailed))
    else Verify(d, ranked[..attempts], d.config.autotune.Acceptance(DirectRate(d)), net, 0, None, now)
  }

  function ConnectBest(d0: Daemon, measure: Option<bool>, net: ConnectNet, now: nat): (Daemon, Result<Ranked, Error>) {
    var should := ShouldMeasure(d0, measure);
    var d1 := if should then MeasureLine(d0, net.direct, now) else d0;
    var (d, swept) := Sweep(d1, None, net.probing, now);
    if swept.Err? then (d, Err(swept.error)) else PickFrom(d, swept.value, should, net, now)
  }

  // ---- requests --------------------------------------------------------------

  function ConnectTo(d0: Daemon, server: Option<string>, measure: Option<bool>, net: ConnectNet, now: nat)
    : (Daemon, Result<Ranked, Error>)
  {
    if d0.current.Some? then (d0, Err(AlreadyConnected(d0.current.value.server)))
    else if server.None? then ConnectBest(d0, measure, net, now)
    else
      var (d, probed) := ProbeNamed(d0, server.value, net.probing, now);
      if probed.Err? then (d, probed) else
      var (d', ok) := Establish(d, probed.value, net.up);
      (d', if ok then probed else Err(TunnelFailed))
  }

  function SwitchServer(d0: Daemon, name: string, p: Probing, moved: bool, now: nat): (Daemon, Result<Ranked, Error>) {
    if d0.current.None? then (d0, Err(Error.NotConnected)) else
    var (d, probed) := ProbeNamed(d0, name, p, now);
    if probed.Err? then (d, probed) else
    var (d', ok) := MoveTo(d, probed.value, moved);
    if ok then (d'.(dismissed := None), probed)
    else (d', Err(if d.tunnel.None? then Error.NotConnected else TunnelFailed))
  }

  /** The record of the connection goes whether or not teardown succeeded. */
  function Disconnected(d: Daemon, down: bool): (Daemon, Result<(), Error>) {
    if d.tunnel.None? then (d, Err(Error.NotConnected))
    else (Called(d, Roaming.TearDown).(tunnel := None, current := None), if down then Ok(()) else Err(TunnelFailed))
  }

  function SpeedtestNow(d: Daemon, sample: Option<real>, now: nat): (Daemon, Result<(), Error>) {
    match sample
    case None => (d, Err(MeasurementFailed))
    case Some(mbps) =>
      match d.current
      case Some(c) => (RecordThroughput(d, c.server, mbps, now), Ok(()))
      case None => (MeasureLine(d, sample, now), Ok(()))
  }

  /** Measure through the tunnel, without it, and put it back whatever the second measurement did. */
  function BaselineNow(d0: Daemon, tunnelled: Option<real>, down: bool, line: Option<real>, net: ConnectNet, now: nat)
    : (Daemon, Result<(), Error>)
  {
    if d0.current.None? then SpeedtestNow(d0, tunnelled, now)
    else if tunnelled.None? then (d0, Err(MeasurementFailed))
    else
      var name := d0.current.value.server;
      var d1 := RecordThroughput(d0, name, tunnelled.value, now);
      var (d2, gone) := Disconnected(d1, down);
      if gone.Err? then (d2, gone) else
      var (d3, restored) := ConnectTo(d2, Some(name), Some(false), net, now);
      if line.None? then (d3, Err(MeasurementFailed))
      else if restored.Err? then (d3, Err(restored.error))
      else (MeasureLine(d3, line, now), Ok(()))
  }

  function Allowed(c: Config): Ranked -> bool {
    (r: Ranked) => Compile(c.filters).Accepts(r.name, r.countryCode, r.load)
  }

  /** A configuration that does not load changes nothing; one that does drops what it now excludes. */
  function Reloaded(d: Daemon, loaded: Option<Config>): (Daemon, Result<(), Error>) {
    if loaded.None? || !loaded.value.Valid() then (d, Err(BadConfig))
    else
      var c := loaded.value;
      (d.(config := c, servers := None, ranking := Keep(Allowed(c), d.ranking),
          pending := if d.pending.Some? && !Allowed(c)(d.pending.value.to) then None else d.pending),
       Ok(()))
  }

  function ActiveDismissal(d: Daemon, now: nat): Option<string> {
    if d.dismissed.Some? && now < d.dismissed.value.at + DISMISSAL_COOLDOWN
      then Some(d.dismissed.value.server) else None
  }

  /** The timing of one server, by name; nothing when the list cannot be had or does not know it. */
  function ProbeCurrent(d0: Daemon, name: string, p: Probing, now: nat): (Daemon, Option<real>) {
    var d := Refresh(d0, p.fetched, now);
    if d.servers.None? then (d, None) else
    match Find(d.servers.value.list, name)
    case None => (d, None)
    case Some(server) =>
      var m := MeasuredBy([server], p.answers, d.config.port)[0];
      (d, if m.rtt.Some? then Some(m.rtt.value as real / 1000000.0) else None)
  }

  function Record(d: Daemon, decision: Decision, now: nat): Daemon {
    d.(pending := if decision.Propose? then Some(Proposal(decision.to, decision.reason, now)) else None)
  }

  function ScoreIn(ranking: seq<Ranked>, name: string): Option<real> {
    if ranking == [] then None
    else if ranking[0].name == name then Some(ranking[0].score)
    else ScoreIn(ranking[1..], name)
  }

  /** What a pass on the current server, timed at `rtt`, makes of a ranking. */
  function Assess(d: Daemon, current: Connection, rtt: Option<real>, ranking: seq<Ranked>, now: nat): Assessment {
    Assessment(
      Some(Current(current.server, rtt, ScoreIn(ranking, current.server))),
      if ranking == [] then None else Some(ranking[0]),
      if d.probed.Some? then d.probed.value else |ranking|,
      ActiveDismissal(d, now))
  }

  /** The decision a pass comes to, with the state it leaves before acting on it. */
  function Pass(d0: Daemon, e: Event): (Daemon, Result<Decision, Error>)
    requires e.Tune?
  {
    var d := d0.(lastTuneAt := Some(e.started));
    match d.current
    case None => (d, Ok(Decision.NotConnected))
    case Some(current) =>
      var (d1, rtt) := ProbeCurrent(d, current.server, e.check, e.started);
      if rtt.Some? && rtt.value <= d1.config.autotune.maxLatencyMs as real then
        (d1, Ok(Healthy(current.server, rtt.value)))
      else
        var (d2, swept) := Sweep(d1, None, e.sweep, e.now);
        match swept
        case Err(AllUnreachable(probed)) => (d2, Ok(NothingReachable(probed)))
        case Err(err) => (d2, Err(err))
        case Ok(ranking) => (d2, Ok(Decide(Assess(d2, current, rtt, ranking, e.now), d2.config.autotune)))
  }

  function TunePass(d0: Daemon, e: Event): (Daemon, Result<Decision, Error>)
    requires e.Tune?
  {
    var (d, decided) := Pass(d0, e);
    if decided.Err? then (d, decided) else
    var decision := decided.value;
    if !decision.IsActionable() then (Record(d, decision, e.now), decided) else
    var (d', moved) := SwitchServer(d, decision.to.name, e.target, e.moved, e.now);
    if moved.Err? then (d', Err(moved.error)) else (Record(d', decision, e.now), decided)
  }

  /** The proposal is spent whether or not the move succeeds. */
  function Approved(d: Daemon, p: Probing, moved: bool, now: nat): (Daemon, Result<Ranked, Error>) {
    if d.pending.None? then (d, Err(NoPendingSwitch))
    else SwitchServer(d.(pending := None), d.pending.value.to.name, p, moved, now)
  }

  /** What is remembered is the server the user stayed on. */
  function Dismissed(d: Daemon, now: nat): (Daemon, Result<string, Error>) {
    if d.pending.None? then (d, Err(NoPendingSwitch))
    else
      (d.(pending := None,
          dismissed := if d.current.Some? then Some(Dismissal(d.current.value.server, now)) else d.dismissed),
       Ok(d.pending.value.to.name))
  }

  function KillswitchSet(d: Daemon, enable: Option<bool>, done: bool): (Daemon, Result<(), Error>) {
    if enable.None? then (d, Ok(()))
    else if !done then (d, Err(TunnelFailed))
    else (d.(config := d.config.(killswitch := enable.value)), Ok(()))
  }

  /** One request, or one scheduled pass. */
  function After(d: Daemon, e: Event): Daemon {
    match e
    case Connect(server, measure, net, now) => ConnectTo(d, server, measure, net, now).0
    case Disconnect(down) => Disconnected(d, down).0
    case SwitchTo(name, probing, moved, now) => SwitchServer(d, name, probing, moved, now).0
    case Test(country, probing, now) => Sweep(d, country, probing, now).0
    case ListServers(fetched, now) => Refresh(d, fetched, now)
    case Reload(loaded) => Reloaded(d, loaded).0
    case Tune(_, _, _, _, _, _) => TunePass(d, e).0
    case Approve(probing, moved, now) => Approved(d, probing, moved, now).0
    case Dismiss(now) => Dismissed(d, now).0
    case Speedtest(sample, now) => SpeedtestNow(d, sample, now).0
    case Baseline(tunnelled, down, line, net, now) => BaselineNow(d, tunnelled, down, line, net, now).0
    case SetKillswitch(enable, done) => KillswitchSet(d, enable, done).0
    case Report => d
  }

  function Run(d: Daemon, events: seq<Event>): Daemon
    decreases |events|
  {
    if events == [] then d else Run(After(d, events[0]), events[1..])
  }

  /** The daemon as it starts. */
  function Start(ln: real -> real, config: Config): Daemon {
    Daemon(ln, config, None, None, None, None, [], None, None, map[], None, None, Nothing)
  }
}
