/** The daemon's state as the source keeps it: one object whose fields the requests
    update. Every method is proved to do to the fields what `DaemonModel` says. */
module DaemonState {
  import opened Wrappers
  import opened Text
  import opened Address
  import opened Servers
  import opened Settings
  import opened Sorting
  import opened Tuner
  import opened DaemonModel
  import opened DaemonTheorems
  import Filter
  import Roaming
  import Score

  class State {
    const ln: real -> real
    var config: Config
    var servers: Option<Cached>
    var tunnel: Option<Handle>
    var current: Option<Connection>
    var probed: Option<nat>
    var ranking: seq<Ranked>
    var pending: Option<Proposal>
    var dismissed: Option<Dismissal>
    var seen: map<string, Sample>
    var direct: Option<Sample>
    var lastTuneAt: Option<nat>
    /** Every call on the tunnel. */
    ghost var calls: Calls

    ghost function Model(): Daemon
      reads this
    {
      Daemon(ln, config, servers, tunnel, current, probed, ranking, pending, dismissed, seen, direct, lastTuneAt,
             calls)
    }

    constructor (ln: real -> real, config: Config)
      ensures Model() == Start(ln, config) && (config.Valid() ==> Inv(Model()))
    {
      this.ln, this.config := ln, config;
      servers, tunnel, current, probed, ranking := None, None, None, None, [];
      pending, dismissed, seen, direct, lastTuneAt, calls := None, None, map[], None, None, Nothing;
    }

    // ---- configuration -------------------------------------------------------

    method LoadAgain(loaded: Option<Config>) returns (r: Result<(), Error>)
      modifies this
      ensures (Model(), r) == Reloaded(old(Model()), loaded)
    {
      if loaded.None? || !loaded.value.Valid() {
        return Err(BadConfig);
      }
      config := loaded.value;
      servers := None;
      ApplyFiltersToCachedResults();
      r := Ok(());
    }

    method StillAllowed(rules: Filter.Ruleset) returns (kept: seq<Ranked>)
      requires rules == Filter.Compile(config.filters)
      ensures kept == Keep(Allowed(config), ranking)
    {
      kept := [];
      assert ranking[..0] == [];
      for i := 0 to |ranking|
        invariant kept == Keep(Allowed(config), ranking[..i])
      {
        var s := ranking[i];
        KeepAppend(Allowed(config), ranking[..i], [s]);
        assert ranking[..i + 1] == ranking[..i] + [s] && [s][1..] == [];
        if rules.Accepts(s.name, s.countryCode, s.load) {
          kept := kept + [s];
        }
      }
      assert ranking[..|ranking|] == ranking;
    }

    /** Drop what the loaded filters no longer allow. */
    method ApplyFiltersToCachedResults()
      modifies this
      ensures Model() == old(Model()).(
        ranking := Keep(Allowed(config), old(ranking)),
        pending := if old(pending).Some? && !Allowed(config)(old(pending).value.to) then None else old(pending))
    {
      var rules := Filter.Compile(config.filters);
      ranking := StillAllowed(rules);
      if pending.Some? && !rules.Accepts(pending.value.to.name, pending.value.to.countryCode, pending.value.to.load) {
        pending := None;
      }
    }

    // ---- probing -------------------------------------------------------------

    method ServerList(fetched: Option<seq<Server>>, now: nat) returns (list: Option<seq<Server>>)
      modifies this
      ensures Model() == Refresh(old(Model()), fetched, now)
      ensures list == if servers.Some? then Some(servers.value.list) else None
    {
      var stale := servers.None? || now > servers.value.at + SERVER_CACHE_TTL;
      if stale && fetched.Some? {
        servers := Some(Cached(fetched.value, now));
      }
      list := if servers.Some? then Some(servers.value.list) else None;
    }

    /** Probe, rank and attach the rates on record. */
    method RankProbed(candidates: seq<Server>, answers: seq<Answer>) returns (r: seq<Ranked>)
      ensures r == SweepRanking(Model(), candidates, answers)
    {
      var scoring := Score.Scoring(config.autotune.weights, config.autotune.HeadroomTarget(
        if direct.Some? then Some(direct.value.mbps) else None), ln);
      var scored := Score.RankServers(MeasuredBy(candidates, answers, config.port), scoring);
      r := AttachRates(scored);
    }

    method AttachRates(scored: seq<Score.Scored>) returns (r: seq<Ranked>)
      ensures r == Map(ToRanked(seen), scored)
    {
      r := [];
      for i := 0 to |scored|
        invariant |r| == i && forall k :: 0 <= k < i ==> r[k] == ToRanked(seen)(scored[k])
      {
        r := r + [ToRanked(seen)(scored[i])];
      }
    }

    method SweepServers(country: Option<string>, p: Probing, now: nat) returns (r: Result<seq<Ranked>, Error>)
      modifies this
      ensures (Model(), r) == Sweep(old(Model()), country, p, now)
    {
      var filters := config.filters;
      if country.Some? {
        filters := filters.(countryWhitelist := [country.value]);
      }
      var list := ServerList(p.fetched, now);
      if list.None? {
        return Err(FetchFailed);
      }
      var candidates, _ := Filter.Apply(list.value, filters);
      if candidates == [] {
        return Err(NoCandidates);
      }
      r := RankAndKeep(candidates, p.answers);
    }

    method RankAndKeep(candidates: seq<Server>, answers: seq<Answer>) returns (r: Result<seq<Ranked>, Error>)
      modifies this
      ensures var ranked := SweepRanking(old(Model()), candidates, answers);
        var probed := old(Model()).(probed := Some(|candidates|));
        (Model(), r) == if ranked == [] then (probed, Err(AllUnreachable(|candidates|)))
                        else (probed.(ranking := ranked), Ok(ranked))
    {
      var ranked := RankProbed(candidates, answers);
      probed := Some(|candidates|);
      if ranked == [] {
        return Err(AllUnreachable(|candidates|));
      }
      ranking := ranked;
      r := Ok(ranked);
    }

    method ProbeByName(name: string, p: Probing, now: nat) returns (r: Result<Ranked, Error>)
      modifies this
      ensures (Model(), r) == ProbeNamed(old(Model()), name, p, now)
    {
      var list := ServerList(p.fetched, now);
      if list.None? {
        return Err(FetchFailed);
      }
      var server := Find(list.value, name);
      if server.None? {
        return Err(UnknownServer(name));
      }
      var ranked := RankProbed([server.value], p.answers);
      if ranked == [] {
        return Err(ServerUnreachable(name));
      }
      r := Ok(ranked[0]);
    }

    // ---- the tunnel ----------------------------------------------------------

    method BringUp(chosen: Ranked, up: bool) returns (ok: bool)
      modifies this
      ensures (Model(), ok) == Establish(old(Model()), chosen, up)
    {
      calls := Then(calls, Roaming.BringUp(chosen.endpoint, up));
      if !up {
        return false;
      }
      tunnel := Some(Handle(Some(chosen.endpoint)));
      current := Some(ConnectionTo(chosen));
      ok := true;
    }

    method Retarget(chosen: Ranked, moved: bool) returns (ok: bool)
      modifies this
      ensures (Model(), ok) == MoveTo(old(Model()), chosen, moved)
    {
      if tunnel.None? {
        return false;
      }
      calls := Then(calls, Roaming.Move(chosen.endpoint, moved));
      if !moved {
        tunnel := Some(Handle(None));
        return false;
      }
      tunnel := Some(Handle(Some(chosen.endpoint)));
      current := Some(ConnectionTo(chosen));
      ok := true;
    }

    method NoteThroughput(name: string, mbps: real, now: nat)
      modifies this
      ensures Model() == RecordThroughput(old(Model()), name, mbps, now)
    {
      seen := seen[name := Sample(mbps, now)];
      ghost var d1 := Model();
      var i := 0;
      while i < |ranking|
        invariant 0 <= i <= |ranking| == |old(ranking)|
        invariant Model() == d1.(ranking := ranking)
        invariant forall k :: 0 <= k < i ==> ranking[k] == WithRate(name, mbps)(old(ranking)[k])
        invariant forall k :: i <= k < |ranking| ==> ranking[k] == old(ranking)[k]
      {
        if ranking[i].name == name {
          ranking := ranking[i := ranking[i].(mbps := Some(mbps))];
        }
        i := i + 1;
      }
      assert ranking == Map(WithRate(name, mbps), old(ranking));
    }

    /** Connect to the best few in turn and keep the first that delivers. */
    method VerifyCandidates(shortlist: seq<Ranked>, target: real, net: ConnectNet, now: nat)
      returns (r: Result<Ranked, Error>)
      requires shortlist != []
      modifies this
      ensures (Model(), r) == Verify(old(Model()), shortlist, target, net, 0, None, now)
    {
      var best: Best := None;
      for i := 0 to |shortlist|
        invariant Verify(old(Model()), shortlist, target, net, 0, None, now)
          == Verify(Model(), shortlist, target, net, i, best, now)
      {
        var candidate, t := shortlist[i], TrialAt(net.trials, i);
        var hadTunnel := tunnel.Some?;
        var ok;
        if i == 0 {
          ok := BringUp(candidate, t.moved);
        } else {
          ok := Retarget(candidate, t.moved);
        }
        if !ok {
          return Err(if !hadTunnel && i > 0 then Error.NotConnected else TunnelFailed);
        }
        if !t.carrying || t.sample.None? {
          continue;
        }
        var mbps := t.sample.value;
        NoteThroughput(candidate.name, mbps, now);
        if mbps >= target {
          return Ok(candidate.(mbps := Some(mbps)));
        }
        if best.None? || mbps > best.value.1 {
          best := Some((candidate, mbps));
        }
      }
      r := SettleOn(shortlist[0], best, net);
    }

    method SettleOn(first: Ranked, best: Best, net: ConnectNet) returns (r: Result<Ranked, Error>)
      modifies this
      ensures (Model(), r) == Settle(old(Model()), first, best, net)
    {
      match best
      case Some((server, mbps)) =>
        if current.None? || current.value.server != server.name {
          var hadTunnel := tunnel.Some?;
          var ok := Retarget(server, net.settled);
          if !ok {
            return Err(if hadTunnel then TunnelFailed else Error.NotConnected);
          }
        }
        r := Ok(server.(mbps := Some(mbps)));
      case None =>
        if current.None? {
          var ok := BringUp(first, net.up);
          if !ok {
            return Err(TunnelFailed);
          }
        }
        r := Ok(first);
    }

    method PickBest(measure: Option<bool>, net: ConnectNet, now: nat) returns (r: Result<Ranked, Error>)
      modifies this
      ensures (Model(), r) == ConnectBest(old(Model()), measure, net, now)
    {
      var should := if measure.Some? then measure.value else config.autotune.measureBeforeConnect;
      if should && net.direct.Some? {
        direct := Some(Sample(net.direct.value, now));
      }
      var swept := SweepServers(None, net.probing, now);
      if swept.Err? {
        return Err(swept.error);
      }
      r := PickAmong(swept.value, should, net, now);
    }

    method PickAmong(ranked: seq<Ranked>, should: bool, net: ConnectNet, now: nat) returns (r: Result<Ranked, Error>)
      modifies this
      ensures (Model(), r) == PickFrom(old(Model()), ranked, should, net, now)
    {
      var line := if direct.Some? then Some(direct.value.mbps) else None;
      var target := config.autotune.Acceptance(line);
      var attempts := 0;
      if should {
        attempts := if config.autotune.verifyCandidates < |ranked| then config.autotune.verifyCandidates else |ranked|;
      }
      if ranked == [] {
        return Err(AllUnreachable(0));
      }
      if attempts == 0 {
        var ok := BringUp(ranked[0], net.up);
        return if ok then Ok(ranked[0]) else Err(TunnelFailed);
      }
      r := VerifyCandidates(ranked[..attempts], target, net, now);
    }

    // ---- requests ------------------------------------------------------------

    method ConnectRequest(server: Option<string>, measure: Option<bool>, net: ConnectNet, now: nat)
      returns (r: Result<Ranked, Error>)
      modifies this
      ensures (Model(), r) == ConnectTo(old(Model()), server, measure, net, now)
    {
      if current.Some? {
        return Err(AlreadyConnected(current.value.server));
      }
      if server.None? {
        r := PickBest(measure, net, now);
        return;
      }
      r := ProbeByName(server.value, net.probing, now);
      if r.Ok? {
        var ok := BringUp(r.value, net.up);
        if !ok {
          r := Err(TunnelFailed);
        }
      }
    }

    method SwitchRequest(name: string, p: Probing, moved: bool, now: nat) returns (r: Result<Ranked, Error>)
      modifies this
      ensures (Model(), r) == SwitchServer(old(Model()), name, p, moved, now)
    {
      if current.None? {
        return Err(Error.NotConnected);
      }
      r := ProbeByName(name, p, now);
      if r.Err? {
        return;
      }
      var hadTunnel := tunnel.Some?;
      var ok := Retarget(r.value, moved);
      if !ok {
        return Err(if hadTunnel then TunnelFailed else Error.NotConnected);
      }
      dismissed := None;
    }

    method DisconnectRequest(down: bool) returns (r: Result<(), Error>)
      modifies this
      ensures (Model(), r) == Disconnected(old(Model()), down)
    {
      if tunnel.None? {
        return Err(Error.NotConnected);
      }
      calls := Then(calls, Roaming.TearDown);
      tunnel := None;
      current := None;
      r := if down then Ok(()) else Err(TunnelFailed);
    }

    method SpeedtestRequest(sample: Option<real>, now: nat) returns (r: Result<(), Error>)
      modifies this
      ensures (Model(), r) == SpeedtestNow(old(Model()), sample, now)
    {
      if sample.None? {
        return Err(MeasurementFailed);
      }
      if current.Some? {
        NoteThroughput(current.value.server, sample.value, now);
      } else {
        direct := Some(Sample(sample.value, now));
      }
      r := Ok(());
    }

    method BaselineRequest(tunnelled: Option<real>, down: bool, line: Option<real>, net: ConnectNet, now: nat)
      returns (r: Result<(), Error>)
      modifies this
      ensures (Model(), r) == BaselineNow(old(Model()), tunnelled, down, line, net, now)
    {
      if current.None? {
        r := SpeedtestRequest(tunnelled, now);
        return;
      }
      if tunnelled.None? {
        return Err(MeasurementFailed);
      }
      var name := current.value.server;
      NoteThroughput(name, tunnelled.value, now);
      var gone := DisconnectRequest(down);
      if gone.Err? {
        return gone;
      }
      var restored := ConnectRequest(Some(name), Some(false), net, now);
      if line.None? {
        return Err(MeasurementFailed);
      }
      if restored.Err? {
        return Err(restored.error);
      }
      direct := Some(Sample(line.value, now));
      r := Ok(());
    }

    method KillswitchRequest(enable: Option<bool>, done: bool) returns (r: Result<(), Error>)
      modifies this
      ensures (Model(), r) == KillswitchSet(old(Model()), enable, done)
    {
      if enable.Some? {
        if !done {
          return Err(TunnelFailed);
        }
        config := config.(killswitch := enable.value);
      }
      r := Ok(());
    }

    // ---- tuning --------------------------------------------------------------

    method ProbeInUse(name: string, p: Probing, now: nat) returns (rtt: Option<real>)
      modifies this
      ensures (Model(), rtt) == ProbeCurrent(old(Model()), name, p, now)
    {
      var list := ServerList(p.fetched, now);
      if list.None? {
        return None;
      }
      var server := Find(list.value, name);
      if server.None? {
        return None;
      }
      var measured := MeasuredBy([server.value], p.answers, config.port);
      rtt := if measured[0].rtt.Some? then Some(measured[0].rtt.value as real / 1000000.0) else None;
    }

    /** What a pass decides, before anything is done about it. */
    method Judge(e: Event) returns (r: Result<Decision, Error>)
      requires e.Tune?
      modifies this
      ensures (Model(), r) == Pass(old(Model()), e)
    {
      lastTuneAt := Some(e.started);
      if current.None? {
        return Ok(Decision.NotConnected);
      }
      var inUse := current.value;
      var rtt := ProbeInUse(inUse.server, e.check, e.started);
      if rtt.Some? && rtt.value <= config.autotune.maxLatencyMs as real {
        return Ok(Healthy(inUse.server, rtt.value));
      }
      var swept := SweepServers(None, e.sweep, e.now);
      r := Verdict(inUse, rtt, swept, e.now);
    }

    method Verdict(inUse: Connection, rtt: Option<real>, swept: Result<seq<Ranked>, Error>, now: nat)
      returns (r: Result<Decision, Error>)
      ensures r == match swept
        case Err(AllUnreachable(n)) => Ok(NothingReachable(n))
        case Err(err) => Err(err)
        case Ok(ranked) => Ok(Decide(Assess(Model(), inUse, rtt, ranked, now), config.autotune))
    {
      match swept
      case Err(AllUnreachable(n)) => r := Ok(NothingReachable(n));
      case Err(err) => r := Err(err);
      case Ok(ranked) =>
        var a := AssessNow(inUse, rtt, ranked, now);
        r := Ok(Decide(a, config.autotune));
    }

    method AssessNow(inUse: Connection, rtt: Option<real>, ranked: seq<Ranked>, now: nat) returns (a: Assessment)
      ensures a == Assess(Model(), inUse, rtt, ranked, now)
    {
      var declined := None;
      if dismissed.Some? && now < dismissed.value.at + DISMISSAL_COOLDOWN {
        declined := Some(dismissed.value.server);
      }
      a := Assessment(
        Some(Current(inUse.server, rtt, ScoreIn(ranked, inUse.server))),
        if ranked == [] then None else Some(ranked[0]),
        if probed.Some? then probed.value else |ranked|, declined);
    }

    method TuneRequest(e: Event) returns (r: Result<Decision, Error>)
      requires e.Tune?
      modifies this
      ensures (Model(), r) == TunePass(old(Model()), e)
    {
      r := Judge(e);
      if r.Err? {
        return;
      }
      if r.value.IsActionable() {
        var moved := SwitchRequest(r.value.to.name, e.target, e.moved, e.now);
        if moved.Err? {
          return Err(moved.error);
        }
      }
      NoteDecision(r.value, e.now);
    }

    method NoteDecision(decision: Decision, now: nat)
      modifies this
      ensures Model() == Record(old(Model()), decision, now)
    {
      match decision
      case Propose(to, reason) => pending := Some(Proposal(to, reason, now));
      case _ => pending := None;
    }

    method ApproveRequest(p: Probing, moved: bool, now: nat) returns (r: Result<Ranked, Error>)
      modifies this
      ensures (Model(), r) == Approved(old(Model()), p, moved, now)
    {
      if pending.None? {
        return Err(NoPendingSwitch);
      }
      var name := pending.value.to.name;
      pending := None;
      r := SwitchRequest(name, p, moved, now);
    }

    method DismissRequest(now: nat) returns (r: Result<string, Error>)
      modifies this
      ensures (Model(), r) == Dismissed(old(Model()), now)
    {
      if pending.None? {
        return Err(NoPendingSwitch);
      }
      var name := pending.value.to.name;
      pending := None;
      if current.Some? {
        dismissed := Some(Dismissal(current.value.server, now));
      }
      r := Ok(name);
    }

    /** The dispatcher, one request at a time under the lock. */
    method HandleEvent(e: Event)
      requires Inv(Model())
      modifies this
      ensures Model() == After(old(Model()), e) && Inv(Model())
    {
      StepKeeps(Model(), e);
      Dispatch(e);
    }

    method Dispatch(e: Event)
      modifies this
      ensures Model() == After(old(Model()), e)
    {
      match e
      case Connect(server, measure, net, now) => var _ := ConnectRequest(server, measure, net, now);
      case Disconnect(down) => var _ := DisconnectRequest(down);
      case SwitchTo(name, probing, moved, now) => var _ := SwitchRequest(name, probing, moved, now);
      case Test(country, probing, now) => var _ := SweepServers(country, probing, now);
      case ListServers(fetched, now) => var _ := ServerList(fetched, now);
      case Reload(loaded) => var _ := LoadAgain(loaded);
      case Tune(_, _, _, _, _, _) => var _ := TuneRequest(e);
      case Approve(probing, moved, now) => var _ := ApproveRequest(probing, moved, now);
      case Dismiss(now) => var _ := DismissRequest(now);
      case Speedtest(sample, now) => var _ := SpeedtestRequest(sample, now);
      case Baseline(tunnelled, down, line, net, now) => var _ := BaselineRequest(tunnelled, down, line, net, now);
      case SetKillswitch(enable, done) => var _ := KillswitchRequest(enable, done);
      case Report =>
    }
  }
}
