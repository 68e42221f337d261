/** Properties of whole runs of the daemon: names, moves, dismissals, and what `test` stores. */
module DaemonRuns {
  import opened Wrappers
  import opened Text
  import opened Servers
  import opened Settings
  import opened Sorting
  import opened Filter
  import opened Tuner
  import opened DaemonModel
  import opened DaemonTheorems
  import opened DaemonChoice

  // ---- names stay distinct ---------------------------------------------------

  predicate DistinctFetch(fetched: Option<seq<Server>>) {
    fetched.Some? ==> DistinctNames(fetched.value)
  }

  /** Every list fetched while the event is handled names each server once. */
  predicate DistinctFetches(e: Event) {
    match e
    case Connect(_, _, net, _) => DistinctFetch(net.probing.fetched)
    case SwitchTo(_, probing, _, _) => DistinctFetch(probing.fetched)
    case Test(_, probing, _) => DistinctFetch(probing.fetched)
    case ListServers(fetched, _) => DistinctFetch(fetched)
    case Tune(check, sweep, target, _, _, _) =>
      DistinctFetch(check.fetched) && DistinctFetch(sweep.fetched) && DistinctFetch(target.fetched)
    case Approve(probing, _, _) => DistinctFetch(probing.fetched)
    case Baseline(_, _, _, net, _) => DistinctFetch(net.probing.fetched)
    case _ => true
  }

  predicate NamesDistinct(d: Daemon) {
    ListDistinct(d) && DistinctBy(RankedName(), d.ranking)
  }

  lemma SweepNames(d: Daemon, country: Option<string>, p: Probing, now: nat)
    requires NamesDistinct(d) && DistinctFetch(p.fetched)
    ensures NamesDistinct(Sweep(d, country, p, now).0)
  {
    SweepDistinct(d, country, p, now);
    SweepResult(d, country, p, now);
  }

  lemma RecordNames(d: Daemon, name: string, mbps: real, now: nat)
    requires NamesDistinct(d)
    ensures NamesDistinct(RecordThroughput(d, name, mbps, now))
  {
    var r := Map(WithRate(name, mbps), d.ranking);
    assert forall i :: 0 <= i < |r| ==> RankedName()(r[i]) == RankedName()(d.ranking[i]);
  }

  lemma {:induction false} VerifyNames(d: Daemon, shortlist: seq<Ranked>, target: real, net: ConnectNet, i: nat,
                                       best: Best, now: nat)
    requires i <= |shortlist| && shortlist != [] && NamesDistinct(d)
    ensures NamesDistinct(Verify(d, shortlist, target, net, i, best, now).0)
    decreases |shortlist| - i
  {
    if i < |shortlist| {
      var candidate, t := shortlist[i], TrialAt(net.trials, i);
      var (d1, ok) := Pointed(d, candidate, i == 0, t.moved);
      if ok {
        match TrialRate(t)
        case None => VerifyNames(d1, shortlist, target, net, i + 1, best, now);
        case Some(mbps) =>
          RecordNames(d1, candidate.name, mbps, now);
          if mbps < target {
            VerifyNames(RecordThroughput(d1, candidate.name, mbps, now), shortlist, target, net, i + 1,
                        Better(best, candidate, mbps), now);
          }
      }
    }
  }

  lemma ConnectNames(d: Daemon, server: Option<string>, measure: Option<bool>, net: ConnectNet, now: nat)
    requires NamesDistinct(d) && DistinctFetch(net.probing.fetched)
    ensures NamesDistinct(ConnectTo(d, server, measure, net, now).0)
  {
    if d.current.None? {
      if server.None? {
        BestNames(d, measure, net, now);
      } else {
        ProbeNamedRefreshes(d, server.value, net.probing, now);
        RefreshNames(d, net.probing.fetched, now);
      }
    }
  }

  lemma BestNames(d: Daemon, measure: Option<bool>, net: ConnectNet, now: nat)
    requires NamesDistinct(d) && DistinctFetch(net.probing.fetched)
    ensures NamesDistinct(ConnectBest(d, measure, net, now).0)
  {
    var should := ShouldMeasure(d, measure);
    var d1 := if should then MeasureLine(d, net.direct, now) else d;
    SweepNames(d1, None, net.probing, now);
    var (d2, swept) := Sweep(d1, None, net.probing, now);
    if swept.Ok? {
      PickNames(d2, swept.value, should, net, now);
    }
  }

  lemma PickNames(d: Daemon, ranked: seq<Ranked>, should: bool, net: ConnectNet, now: nat)
    requires NamesDistinct(d)
    ensures NamesDistinct(PickFrom(d, ranked, should, net, now).0)
  {
    var attempts := AttemptsOf(d, should, |ranked|);
    if ranked != [] && attempts > 0 {
      VerifyNames(d, ranked[..attempts], d.config.autotune.Acceptance(DirectRate(d)), net, 0, None, now);
    }
  }

  lemma BaselineNames(d: Daemon, e: Event)
    requires e.Baseline? && NamesDistinct(d) && DistinctFetches(e)
    ensures NamesDistinct(After(d, e))
  {
    if d.current.None? {
      if e.tunnelled.Some? {
        RecordNames(d, "", e.tunnelled.value, e.now);
      }
    } else if e.tunnelled.Some? {
      var name := d.current.value.server;
      RecordNames(d, name, e.tunnelled.value, e.now);
      var (d2, gone) := Disconnected(RecordThroughput(d, name, e.tunnelled.value, e.now), e.down);
      if gone.Ok? {
        ConnectNames(d2, Some(name), Some(false), e.net, e.now);
      }
    }
  }

  lemma SwitchNames(d: Daemon, name: string, p: Probing, moved: bool, now: nat)
    requires NamesDistinct(d) && DistinctFetch(p.fetched)
    ensures NamesDistinct(SwitchServer(d, name, p, moved, now).0)
  {
    RefreshNames(d, p.fetched, now);
    SwitchTouches(d, name, p, moved, now);
    NamesCarry(if d.current.None? then d else Refresh(d, p.fetched, now), SwitchServer(d, name, p, moved, now).0);
  }

  lemma RefreshNames(d: Daemon, fetched: Option<seq<Server>>, now: nat)
    requires NamesDistinct(d) && DistinctFetch(fetched)
    ensures NamesDistinct(Refresh(d, fetched, now))
  {}

  lemma SwitchTouches(d: Daemon, name: string, p: Probing, moved: bool, now: nat)
    ensures var d1 := if d.current.None? then d else Refresh(d, p.fetched, now);
      var d' := SwitchServer(d, name, p, moved, now).0;
      d'.ranking == d1.ranking && d'.servers == d1.servers
  {
    ProbeNamedRefreshes(d, name, p, now);
    var (d1, probed) := ProbeNamed(d, name, p, now);
    if probed.Ok? {
      MoveTouches(d1, probed.value, moved);
    }
  }

  lemma MoveTouches(d: Daemon, chosen: Ranked, moved: bool)
    ensures var d' := MoveTo(d, chosen, moved).0; d'.ranking == d.ranking && d'.servers == d.servers
  {}

  lemma NamesCarry(d: Daemon, d': Daemon)
    requires NamesDistinct(d) && d'.ranking == d.ranking && d'.servers == d.servers
    ensures NamesDistinct(d')
  {}

  lemma PassNames(d: Daemon, e: Event)
    requires e.Tune? && NamesDistinct(d) && DistinctFetches(e)
    ensures NamesDistinct(Pass(d, e).0)
  {
    if d.current.Some? {
      var d0 := d.(lastTuneAt := Some(e.started));
      var (d1, rtt) := ProbeCurrent(d0, d.current.value.server, e.check, e.started);
      ProbeCurrentRefreshes(d0, d.current.value.server, e.check, e.started);
      SweepNames(d1, None, e.sweep, e.now);
    }
  }

  lemma TuneNames(d: Daemon, e: Event)
    requires e.Tune? && NamesDistinct(d) && DistinctFetches(e)
    ensures NamesDistinct(TunePass(d, e).0)
  {
    PassNames(d, e);
    var (d1, decided) := Pass(d, e);
    if decided.Ok? && decided.value.IsActionable() {
      SwitchNames(d1, decided.value.to.name, e.target, e.moved, e.now);
    }
  }

  lemma StepNames(d: Daemon, e: Event)
    requires NamesDistinct(d) && DistinctFetches(e)
    ensures NamesDistinct(After(d, e))
  {
    match e
    case Connect(server, measure, net, now) => ConnectNames(d, server, measure, net, now);
    case SwitchTo(name, probing, moved, now) => SwitchNames(d, name, probing, moved, now);
    case Approve(probing, moved, now) =>
      if d.pending.Some? {
        SwitchNames(d.(pending := None), d.pending.value.to.name, probing, moved, now);
      }
    case Test(country, probing, now) => SweepNames(d, country, probing, now);
    case Reload(loaded) =>
      if loaded.Some? {
        DistinctKeep(RankedName(), Allowed(loaded.value), d.ranking);
      }
    case Tune(_, _, _, _, _, _) => TuneNames(d, e);
    case Speedtest(sample, now) =>
      if sample.Some? && d.current.Some? {
        RecordNames(d, d.current.value.server, sample.value, now);
      }
    case Baseline(_, _, _, _, _) => BaselineNames(d, e);
    case _ =>
  }

  /** As long as the provider names every server once, so does the cached ranking. */
  lemma {:induction false} RankingNamesDistinct(d: Daemon, events: seq<Event>)
    requires NamesDistinct(d) && forall e :: e in events ==> DistinctFetches(e)
    ensures NamesDistinct(Run(d, events))
    decreases |events|
  {
    if events != [] {
      assert events[0] in events;
      StepNames(d, events[0]);
      RankingNamesDistinct(After(d, events[0]), events[1..]);
    }
  }

  // ---- who moves the tunnel --------------------------------------------------

  /** A request that is a decision about the connection. */
  predicate Deliberate(e: Event) {
    e.Connect? || e.Disconnect? || e.SwitchTo? || e.Approve? || e.Baseline?
  }

  predicate TurnsAuto(e: Event) {
    e.Reload? && e.loaded.Some? && e.loaded.value.autotune.policy == Auto
  }

  lemma StepStays(d: Daemon, e: Event)
    requires d.config.autotune.policy != Auto && !Deliberate(e)
    ensures After(d, e).current == d.current && After(d, e).tunnel == d.tunnel && After(d, e).calls == d.calls
    ensures !TurnsAuto(e) ==> After(d, e).config.autotune.policy != Auto
  {
    match e
    case Test(country, probing, now) => SweepResult(d, country, probing, now);
    case Tune(_, _, _, _, _, _) => TuneStays(d, e);
    case _ =>
  }

  lemma TuneStays(d: Daemon, e: Event)
    requires e.Tune? && d.config.autotune.policy != Auto
    ensures var d' := TunePass(d, e).0;
      && d'.current == d.current && d'.tunnel == d.tunnel && d'.config == d.config && d'.dismissed == d.dismissed
      && d'.calls == d.calls
  {
    PassStays(d, e);
    UnmovedPass(d, e, Pass(d, e).0, Pass(d, e).1);
  }

  lemma UnmovedPass(d: Daemon, e: Event, d1: Daemon, decided: Result<Decision, Error>)
    requires e.Tune? && (d1, decided) == Pass(d, e) && (decided.Ok? ==> !decided.value.IsActionable())
    ensures TunePass(d, e).0 == if decided.Ok? then Record(d1, decided.value, e.now) else d1
  {}

  lemma PassStays(d: Daemon, e: Event)
    requires e.Tune?
    ensures var (d', r) := Pass(d, e);
      && d'.current == d.current && d'.tunnel == d.tunnel && d'.config == d.config && d'.dismissed == d.dismissed
      && d'.calls == d.calls
      && (r.Ok? && r.value.IsActionable() ==> d.config.autotune.policy == Auto)
  {
    PassTouches(d, e);
    if d.current.Some? {
      var d0 := d.(lastTuneAt := Some(e.started));
      var (d1, rtt) := ProbeCurrent(d0, d.current.value.server, e.check, e.started);
      ProbeCurrentRefreshes(d0, d.current.value.server, e.check, e.started);
      ActsOnAuto(d1, rtt, e);
    }
  }

  lemma ActsOnAuto(d: Daemon, rtt: Option<real>, e: Event)
    requires e.Tune? && d.current.Some?
    ensures var (d', swept) := Sweep(d, None, e.sweep, e.now);
      swept.Ok? ==>
        var decision := Decide(Assess(d', d.current.value, rtt, swept.value, e.now), d'.config.autotune);
        decision.IsActionable() ==> d.config.autotune.policy == Auto
  {
    SweepTouches(d, None, e.sweep, e.now);
    var (d', swept) := Sweep(d, None, e.sweep, e.now);
    if swept.Ok? {
      TargetsExactly(Assess(d', d.current.value, rtt, swept.value, e.now), d'.config.autotune);
    }
  }

  /** Unless the policy is to move on its own, nothing but a deliberate request moves the tunnel. */
  lemma {:induction false} OnlyDeliberateMoves(d: Daemon, events: seq<Event>)
    requires d.config.autotune.policy != Auto
    requires forall e :: e in events ==> !Deliberate(e) && !TurnsAuto(e)
    ensures Run(d, events).current == d.current && Run(d, events).tunnel == d.tunnel
    ensures Run(d, events).calls == d.calls
    decreases |events|
  {
    if events != [] {
      assert events[0] in events;
      StepStays(d, events[0]);
      OnlyDeliberateMoves(After(d, events[0]), events[1..]);
    }
  }

  // ---- dismissals ------------------------------------------------------------

  /** A pass that asks the user to leave a server that is merely slow. */
  predicate AsksToLeave(d: Daemon, e: Event) {
    e.Tune? && Pass(d, e).1.Ok? && Pass(d, e).1.value.Propose? && Pass(d, e).1.value.reason.Degraded?
  }

  /** Supersedes an earlier refusal, or renews it. */
  predicate Supersedes(e: Event) {
    e.SwitchTo? || e.Approve? || e.Dismiss?
  }

  lemma ConnectKeepsDismissal(d: Daemon, server: Option<string>, measure: Option<bool>, net: ConnectNet, now: nat)
    ensures var d' := ConnectTo(d, server, measure, net, now).0;
      d'.dismissed == d.dismissed && d'.config == d.config
  {
    if d.current.None? {
      if server.None? {
        BestKeepsDismissal(d, measure, net, now);
      } else {
        ProbeNamedRefreshes(d, server.value, net.probing, now);
      }
    }
  }

  lemma BestKeepsDismissal(d: Daemon, measure: Option<bool>, net: ConnectNet, now: nat)
    ensures var d' := ConnectBest(d, measure, net, now).0; d'.dismissed == d.dismissed && d'.config == d.config
  {
    var should := ShouldMeasure(d, measure);
    var d1 := if should then MeasureLine(d, net.direct, now) else d;
    SweepTouches(d1, None, net.probing, now);
    var (d2, swept) := Sweep(d1, None, net.probing, now);
    if swept.Ok? {
      PickKeepsDismissal(d2, swept.value, should, net, now);
    }
  }

  lemma PickKeepsDismissal(d: Daemon, ranked: seq<Ranked>, should: bool, net: ConnectNet, now: nat)
    ensures var d' := PickFrom(d, ranked, should, net, now).0; d'.dismissed == d.dismissed && d'.config == d.config
  {
    var attempts := AttemptsOf(d, should, |ranked|);
    if ranked != [] && attempts > 0 {
      VerifyKeepsDismissal(d, ranked[..attempts], d.config.autotune.Acceptance(DirectRate(d)), net, 0, None, now);
    }
  }

  lemma {:induction false} VerifyKeepsDismissal(d: Daemon, shortlist: seq<Ranked>, target: real, net: ConnectNet,
                                                i: nat, best: Best, now: nat)
    requires i <= |shortlist| && shortlist != []
    ensures var d' := Verify(d, shortlist, target, net, i, best, now).0;
      d'.dismissed == d.dismissed && d'.config == d.config
    decreases |shortlist| - i
  {
    if i < |shortlist| {
      var candidate, t := shortlist[i], TrialAt(net.trials, i);
      var (d1, ok) := Pointed(d, candidate, i == 0, t.moved);
      if ok {
        match TrialRate(t)
        case None => VerifyKeepsDismissal(d1, shortlist, target, net, i + 1, best, now);
        case Some(mbps) =>
          if mbps < target {
            VerifyKeepsDismissal(RecordThroughput(d1, candidate.name, mbps, now), shortlist, target, net, i + 1,
              Better(best, candidate, mbps), now);
          }
      }
    }
  }

  lemma DismissalStays(d: Daemon, e: Event)
    requires d.config.autotune.policy != Auto && !Supersedes(e) && !TurnsAuto(e)
    ensures After(d, e).dismissed == d.dismissed && After(d, e).config.autotune.policy != Auto
  {
    match e
    case Connect(server, measure, net, now) => ConnectKeepsDismissal(d, server, measure, net, now);
    case Test(country, probing, now) => SweepResult(d, country, probing, now);
    case Tune(_, _, _, _, _, _) => TuneStays(d, e);
    case Baseline(_, _, _, _, _) => BaselineKeepsDismissal(d, e);
    case _ =>
  }

  lemma BaselineKeepsDismissal(d: Daemon, e: Event)
    requires e.Baseline?
    ensures After(d, e).dismissed == d.dismissed && After(d, e).config == d.config
  {
    if d.current.Some? && e.tunnelled.Some? {
      var name := d.current.value.server;
      var (d2, gone) := Disconnected(RecordThroughput(d, name, e.tunnelled.value, e.now), e.down);
      ConnectKeepsDismissal(d2, Some(name), Some(false), e.net, e.now);
    }
  }

  lemma DeclinedIsNotAsked(d: Daemon, e: Event)
    requires e.Tune? && d.current.Some? && d.dismissed.Some?
    requires d.dismissed.value.server == d.current.value.server && e.now < d.dismissed.value.at + DISMISSAL_COOLDOWN
    ensures !AsksToLeave(d, e)
  {
    var d0 := d.(lastTuneAt := Some(e.started));
    var (d1, rtt) := ProbeCurrent(d0, d.current.value.server, e.check, e.started);
    SweepResult(d1, None, e.sweep, e.now);
    var (d2, swept) := Sweep(d1, None, e.sweep, e.now);
    if swept.Ok? {
      TargetsExactly(Assess(d2, d.current.value, rtt, swept.value, e.now), d2.config.autotune);
    }
  }

  /** With a refusal to leave a server on record, no pass within the cooldown asks to leave it. */
  lemma {:induction false} QuietWhileDeclined(d: Daemon, between: seq<Event>, e: Event)
    requires d.dismissed.Some? && d.config.autotune.policy != Auto
    requires e.Tune? && e.now < d.dismissed.value.at + DISMISSAL_COOLDOWN
    requires forall b :: b in between ==> !Supersedes(b) && !TurnsAuto(b)
    ensures var before := Run(d, between);
      before.current.Some? && before.current.value.server == d.dismissed.value.server ==> !AsksToLeave(before, e)
    decreases |between|
  {
    if between == [] {
      if d.current.Some? && d.current.value.server == d.dismissed.value.server {
        DeclinedIsNotAsked(d, e);
      }
    } else {
      assert between[0] in between;
      DismissalStays(d, between[0]);
      QuietWhileDeclined(After(d, between[0]), between[1..], e);
    }
  }

  lemma {:induction false} RunSplits(d: Daemon, first: seq<Event>, rest: seq<Event>)
    ensures Run(d, first + rest) == Run(Run(d, first), rest)
    decreases |first|
  {
    if first == [] {
      assert first + rest == rest;
    } else {
      assert (first + rest)[1..] == first[1..] + rest;
      RunSplits(After(d, first[0]), first[1..], rest);
    }
  }

  /** The run up to event `k`, by way of event `j`. */
  lemma RunThrough(d: Daemon, events: seq<Event>, j: nat, k: nat)
    requires j < k <= |events|
    ensures Run(d, events[..k]) == Run(After(Run(d, events[..j]), events[j]), events[j + 1..k])
  {
    var later := events[j..k];
    assert events[..k] == events[..j] + later && later[0] == events[j] && later[1..] == events[j + 1..k];
    RunSplits(d, events[..j], later);
  }

  /** From any state, over any run: once the user, asked to leave a server, declines, no pass in the four hours after
      asks again while that server is in use, whatever else happens, until a move or a further refusal. */
  lemma NoNaggingAfterDismissal(d: Daemon, events: seq<Event>, j: nat, k: nat)
    requires j < k < |events| && events[j].Dismiss? && events[k].Tune?
    requires var asked := Run(d, events[..j]);
      asked.pending.Some? && asked.current.Some? && asked.config.autotune.policy != Auto
    requires forall i :: j < i < k ==> !Supersedes(events[i]) && !TurnsAuto(events[i])
    requires events[k].now < events[j].now + 4 * 60 * 60
    ensures var asked, before := Run(d, events[..j]), Run(d, events[..k]);
      before.current.Some? && before.current.value.server == asked.current.value.server ==>
        !AsksToLeave(before, events[k])
  {
    var between := events[j + 1..k];
    RunThrough(d, events, j, k);
    forall b | b in between ensures !Supersedes(b) && !TurnsAuto(b) {
      var i :| 0 <= i < |between| && between[i] == b;
      assert events[i + j + 1] == b;
    }
    DismissQuiets(Run(d, events[..j]), events[j], between, events[k]);
  }

  lemma DismissQuiets(asked: Daemon, dismissal: Event, between: seq<Event>, e: Event)
    requires asked.pending.Some? && asked.current.Some? && asked.config.autotune.policy != Auto
    requires dismissal.Dismiss? && e.Tune? && e.now < dismissal.now + 4 * 60 * 60
    requires forall b :: b in between ==> !Supersedes(b) && !TurnsAuto(b)
    ensures var before := Run(After(asked, dismissal), between);
      before.current.Some? && before.current.value.server == asked.current.value.server ==> !AsksToLeave(before, e)
  {
    var declined := After(asked, dismissal);
    assert declined.dismissed == Some(Dismissal(asked.current.value.server, dismissal.now));
    QuietWhileDeclined(declined, between, e);
  }

  /** A refusal four hours old, or to leave some other server, changes nothing about what a pass decides. */
  lemma OldRefusalsLapse(d: Daemon, e: Event)
    requires e.Tune? && d.current.Some? && d.dismissed.Some?
    requires e.now >= d.dismissed.value.at + 4 * 60 * 60 || d.dismissed.value.server != d.current.value.server
    ensures Pass(d, e).1 == Pass(d.(dismissed := None), e).1
  {
    var d0, never := d.(lastTuneAt := Some(e.started)), d.(dismissed := None, lastTuneAt := Some(e.started));
    var name := d.current.value.server;
    ProbeCurrentRefreshes(d0, name, e.check, e.started);
    ProbeCurrentRefreshes(never, name, e.check, e.started);
    var (checked, rtt) := ProbeCurrent(d0, name, e.check, e.started);
    assert ProbeCurrent(never, name, e.check, e.started) == (checked.(dismissed := None), rtt);
    SweepIgnoresRefusals(checked, e.sweep, e.now);
    SweepTouches(checked, None, e.sweep, e.now);
    var (swept, r) := Sweep(checked, None, e.sweep, e.now);
    if r.Ok? {
      LapsedDecides(swept, d.current.value, rtt, r.value, e.now);
    }
  }

  lemma LapsedDecides(d: Daemon, c: Connection, rtt: Option<real>, ranking: seq<Ranked>, now: nat)
    requires d.dismissed.Some?
    requires now >= d.dismissed.value.at + 4 * 60 * 60 || d.dismissed.value.server != c.server
    ensures Decide(Assess(d, c, rtt, ranking, now), d.config.autotune)
      == Decide(Assess(d.(dismissed := None), c, rtt, ranking, now), d.config.autotune)
  {}

  lemma SweepIgnoresRefusals(d: Daemon, p: Probing, now: nat)
    ensures var (d', r) := Sweep(d, None, p, now);
      Sweep(d.(dismissed := None), None, p, now) == (d'.(dismissed := None), r)
  {}

  /** A silent server is proposed away from even then. */
  lemma SilentIsStillProposed(d: Daemon, e: Event)
    requires e.Tune? && d.current.Some? && d.config.autotune.policy == Ask
    requires
      var d0 := d.(lastTuneAt := Some(e.started));
      var (d1, rtt) := ProbeCurrent(d0, d.current.value.server, e.check, e.started);
      rtt.None? && Sweep(d1, None, e.sweep, e.now).1.Ok?
    ensures var d' := After(d, e);
      d'.pending.Some? && d'.pending.value.reason == CurrentWentSilent && d'.ranking != []
        && d'.pending.value.to == d'.ranking[0]
  {
    var (d1, rtt) := ProbeCurrent(d.(lastTuneAt := Some(e.started)), d.current.value.server, e.check, e.started);
    SweepTouches(d1, None, e.sweep, e.now);
    var (d2, swept) := Sweep(d1, None, e.sweep, e.now);
    SilentIsAlwaysRaised(Assess(d2, d.current.value, rtt, swept.value, e.now), d2.config.autotune);
  }

  // ---- what a one-country test stores ----------------------------------------

  predicate CountryListed(f: Filters, code: string) {
    Normalised(f.countryWhitelist) == {} || Normal(code) in Normalised(f.countryWhitelist)
  }

  /** The ranking stored by a test of one country passes the configured filters exactly when the configured
      whitelist is empty or names that country; a blank country lifts the whitelist, so then it must name
      the country of every server ranked. */
  lemma CountryRankingAllowed(d: Daemon, country: string, p: Probing, now: nat)
    ensures var (d', r) := Sweep(d, Some(country), p, now);
      r.Ok? ==>
        (AllAccepted(d.config.filters, d'.ranking) <==>
         if Normal(country) != "" then CountryListed(d.config.filters, country)
         else forall i :: 0 <= i < |d'.ranking| ==> CountryListed(d.config.filters, d'.ranking[i].countryCode))
  {
    SweepResult(d, Some(country), p, now);
    var (d', r) := Sweep(d, Some(country), p, now);
    if r.Ok? {
      forall i | 0 <= i < |d'.ranking|
        ensures Normal(country) != "" ==> Normal(d'.ranking[i].countryCode) == Normal(country)
        ensures Compile(d.config.filters).Accepts(d'.ranking[i].name, d'.ranking[i].countryCode, d'.ranking[i].load)
          <==> CountryListed(d.config.filters, d'.ranking[i].countryCode)
      {
        ReplacedWhitelist(d.config.filters, country, d'.ranking[i].name, d'.ranking[i].countryCode, d'.ranking[i].load);
      }
      assert 0 < |d'.ranking|;
    }
  }
}
