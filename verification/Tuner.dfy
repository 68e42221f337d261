/** The tuner's decision, and what a run of its decisions can do. */
module Tuner {
  import opened Wrappers
  import opened Address
  import opened Settings
  import Score

  /** A ranked server as the daemon stores and reports it. */
  datatype Ranked = Ranked(
    name: string, countryCode: string, load: nat, rttMs: real, score: real,
    entry: nat, endpoint: SocketAddr, mbps: Option<real>, headroomMbps: nat)

  /** The server in use as measured by this pass: no timing means silent, no score means filtered out. */
  datatype Current = Current(name: string, rttMs: Option<real>, score: Option<real>)

  datatype Assessment = Assessment(
    current: Option<Current>, best: Option<Ranked>, probed: nat, declinedFrom: Option<string>)

  datatype Reason = CurrentWentSilent | Degraded(rttMs: real, thresholdMs: nat, improvement: real)

  datatype Decision =
    | NotConnected
    | Healthy(server: string, rttMs: real)
    | AlreadyBest(server: string, rttMs: real)
    | NoBetterAvailable(server: string, rttMs: real, best: string, bestRttMs: real, improvement: real,
      localLinkSuspect: bool)
    | Switch(to: Ranked, reason: Reason)
    | Propose(to: Ranked, reason: Reason)
    | Blocked(to: Ranked, reason: Reason)
    | Suppressed(to: Ranked, reason: Reason)
    | NothingReachable(probed: nat)
  {
    predicate IsActionable() {
      Switch?
    }

    /** A decision that points at another server. */
    predicate Targets() {
      Switch? || Propose? || Blocked? || Suppressed?
    }
  }

  /** Fractional gain of `candidate` over `current`; none when it is no better. */
  function RelativeImprovement(current: real, candidate: real): real {
    if candidate <= current then 0.0
    else if current <= Score.EPSILON then 1.0
    else (candidate - current) / current
  }

  /** Gain by score where the server in use was ranked, by latency otherwise. */
  function Improvement(current: Current, rttMs: real, best: Ranked): real {
    match current.score
    case Some(score) => RelativeImprovement(score, best.score)
    case None => if rttMs <= Score.EPSILON then 0.0 else Max((rttMs - best.rttMs) / rttMs, 0.0)
  }

  function Act(policy: Policy, to: Ranked, reason: Reason, alreadyDeclined: bool): Decision {
    match policy
    case Auto => Switch(to, reason)
    case Ask => if alreadyDeclined then Suppressed(to, reason) else Propose(to, reason)
    case Never => Blocked(to, reason)
  }

  function Decide(a: Assessment, t: Autotune): Decision {
    match a.current
    case None => NotConnected
    case Some(current) =>
      match a.best
      case None => NothingReachable(a.probed)
      case Some(best) =>
        match current.rttMs
        case None => Act(t.policy, best, CurrentWentSilent, false)
        case Some(rttMs) =>
          if rttMs <= t.maxLatencyMs as real then Healthy(current.name, rttMs)
          else if best.name == current.name then AlreadyBest(current.name, rttMs)
          else
            var gain := Improvement(current, rttMs, best);
            if gain < t.improvementThreshold then
              NoBetterAvailable(current.name, rttMs, best.name, best.rttMs, gain, best.rttMs > t.maxLatencyMs as real)
            else
              Act(t.policy, best, Degraded(rttMs, t.maxLatencyMs, gain), a.declinedFrom == Some(current.name))
  }

  /** One score beats another by the threshold: by that share of the lower one, unless that is nothing. */
  predicate BeatsBy(score: real, best: real, threshold: real) {
    threshold == 0.0 || (best > score && (score <= Score.EPSILON || best >= score * (1.0 + threshold)))
  }

  /** One timing undercuts another by the threshold, as a share of the longer one. */
  predicate UndercutsBy(rttMs: real, best: real, threshold: real) {
    threshold == 0.0 || (rttMs > Score.EPSILON && rttMs - best >= threshold * rttMs)
  }

  /** The gain reaches the threshold: by score where the server in use was ranked, by latency otherwise. */
  lemma GainReaches(current: Current, rttMs: real, best: Ranked, threshold: real)
    requires 0.0 <= threshold <= 1.0
    ensures Improvement(current, rttMs, best) >= threshold <==>
      if current.score.Some? then BeatsBy(current.score.value, best.score, threshold)
      else UndercutsBy(rttMs, best.rttMs, threshold)
  {
    match current.score
    case Some(score) =>
      if score > Score.EPSILON {
        QuotientReaches(best.score - score, score, threshold);
        assert score * (1.0 + threshold) == score + threshold * score;
      }
    case None =>
      if rttMs > Score.EPSILON {
        QuotientReaches(rttMs - best.rttMs, rttMs, threshold);
      }
  }

  lemma QuotientReaches(part: real, whole: real, threshold: real)
    requires whole > 0.0
    ensures part / whole >= threshold <==> part >= threshold * whole
  {
    var q := part / whole;
    assert part == q * whole;
    assert (q - threshold) * whole == part - threshold * whole;
  }

  // ---- what one decision means -----------------------------------------------

  /** The server in use is silent, or slow while something else is better by the threshold. */
  predicate WorthLeaving(a: Assessment, t: Autotune) {
    && a.current.Some? && a.best.Some?
    && (match a.current.value.rttMs
        case None => true
        case Some(rttMs) =>
          && rttMs > t.maxLatencyMs as real
          && a.best.value.name != a.current.value.name
          && Improvement(a.current.value, rttMs, a.best.value) >= t.improvementThreshold)
  }

  /** A server is pointed at exactly when leaving is worth it, and it is the best of the sweep;
      whether the tunnel moves, the user is asked or nothing happens is the policy's choice. */
  lemma TargetsExactly(a: Assessment, t: Autotune)
    ensures Decide(a, t).Targets() <==> WorthLeaving(a, t)
    ensures Decide(a, t).Targets() ==> Some(Decide(a, t).to) == a.best
    ensures Decide(a, t).IsActionable() <==> WorthLeaving(a, t) && t.policy == Auto
    ensures Decide(a, t).Blocked? <==> WorthLeaving(a, t) && t.policy == Never
    ensures Decide(a, t).Propose? <==> (
        WorthLeaving(a, t) && t.policy == Ask
        && (a.current.value.rttMs.None? || a.declinedFrom != Some(a.current.value.name)))
  {}

  /** A dismissal never quietens a silent server. */
  lemma SilentIsAlwaysRaised(a: Assessment, t: Autotune)
    requires a.current.Some? && a.current.value.rttMs.None? && a.best.Some? && t.policy == Ask
    ensures Decide(a, t) == Propose(a.best.value, CurrentWentSilent)
  {}

  /** A decision to leave on grounds of slowness. */
  predicate DegradedMove(a: Assessment, t: Autotune) {
    Decide(a, t).Targets() && Decide(a, t).reason.Degraded?
  }

  /** A pass that leaves a server worth `score` for one worth no more. A pass that did not rank the server
      in use, filtered out or silent at the one entry the sweep may probe, does not know its score. */
  predicate GainlessMove(a: Assessment, ranked: bool, score: real, t: Autotune) {
    && DegradedMove(a, t) && a.current.value.score == (if ranked then Some(score) else None)
    && Decide(a, t).to.score <= score
  }

  ghost predicate MovesAlwaysGain(ranked: bool, t: Autotune) {
    forall a, score :: !GainlessMove(a, ranked, score, t)
  }

  /** Slowness alone always moves to a higher score exactly when the server in use was ranked and the threshold is
      not zero. */
  lemma GainExactly(ranked: bool, t: Autotune)
    requires t.Valid()
    ensures MovesAlwaysGain(ranked, t) <==> ranked && t.improvementThreshold > 0.0
  {
    var rtt := t.maxLatencyMs as real + 1.0;
    var best := Ranked("b", "", 0, 0.0, 0.5, 1, SocketAddr(V4(0), 0), None, 0);
    assert (rtt - 0.0) / rtt == 1.0;
    if !ranked {
      assert GainlessMove(Assessment(Some(Current("a", Some(rtt), None)), Some(best), 2, None), false, 0.5, t);
    } else if t.improvementThreshold <= 0.0 {
      assert GainlessMove(Assessment(Some(Current("a", Some(rtt), Some(0.5))), Some(best), 2, None), true, 0.5, t);
    }
  }

  // ---- runs of decisions -----------------------------------------------------

  /** What the servers are worth and how far away they are, while nothing changes. */
  datatype Fleet = Fleet(score: string -> real, rttMs: string -> real)

  /** Some pass on `from`, which ranked it or not, points at `to` because `from` is slow. */
  ghost predicate CanMove(from: string, to: string, ranked: bool, fleet: Fleet, t: Autotune) {
    exists a: Assessment ::
      && DegradedMove(a, t)
      && a.current.value == Current(from, Some(fleet.rttMs(from)), if ranked then Some(fleet.score(from)) else None)
      && Decide(a, t).to.name == to
      && Decide(a, t).to.score == fleet.score(to) && Decide(a, t).to.rttMs == fleet.rttMs(to)
  }

  /** Whether a pass ranked the server in use. */
  datatype Ranking = Ranking(included: bool)

  ghost predicate IsRun(path: seq<string>, passes: seq<Ranking>, fleet: Fleet, t: Autotune) {
    |passes| + 1 == |path|
    && forall i :: 0 <= i < |passes| ==> CanMove(path[i], path[i + 1], passes[i].included, fleet, t)
  }

  /** A move from a ranked server climbs; one from an unranked server comes closer. */
  lemma MoveProgresses(from: string, to: string, ranked: bool, fleet: Fleet, t: Autotune)
    requires t.Valid() && t.improvementThreshold > 0.0 && CanMove(from, to, ranked, fleet, t)
    ensures ranked ==> fleet.score(from) < fleet.score(to)
    ensures !ranked ==> fleet.rttMs(to) < fleet.rttMs(from)
  {
    var a: Assessment :|
      && DegradedMove(a, t)
      && a.current.value == Current(from, Some(fleet.rttMs(from)), if ranked then Some(fleet.score(from)) else None)
      && Decide(a, t).to.name == to
      && Decide(a, t).to.score == fleet.score(to) && Decide(a, t).to.rttMs == fleet.rttMs(to);
    if ranked {
      GainExactly(true, t);
      assert !GainlessMove(a, true, fleet.score(from), t);
    } else {
      CloserByShare(fleet.rttMs(from), fleet.rttMs(to));
    }
  }

  lemma CloserByShare(from: real, to: real)
    requires from > 0.0 && (from - to) / from > 0.0
    ensures to < from
  {}

  lemma {:induction false} RunProgresses(path: seq<string>, passes: seq<Ranking>, fleet: Fleet, t: Autotune, all: bool,
                                         i: nat, j: nat)
    requires t.Valid() && t.improvementThreshold > 0.0 && IsRun(path, passes, fleet, t) && i < j < |path|
    requires forall r :: r in passes ==> r.included == all
    ensures if all then fleet.score(path[i]) < fleet.score(path[j]) else fleet.rttMs(path[j]) < fleet.rttMs(path[i])
    decreases j
  {
    assert passes[j - 1] in passes;
    MoveProgresses(path[j - 1], path[j], all, fleet, t);
    if i < j - 1 {
      RunProgresses(path, passes, fleet, t, all, i, j - 1);
    }
  }

  /** With a positive threshold and a fleet that holds still, a run of moves never returns to a server and is
      no longer than the list of servers, if every pass ranked the server in use, or if none did. */
  lemma RunsNeverRevisit(path: seq<string>, passes: seq<Ranking>, names: set<string>, fleet: Fleet, t: Autotune,
                         all: bool)
    requires t.Valid() && t.improvementThreshold > 0.0 && IsRun(path, passes, fleet, t)
    requires forall r :: r in passes ==> r.included == all
    requires forall n :: n in path ==> n in names
    ensures forall i, j :: 0 <= i < j < |path| ==> path[i] != path[j]
    ensures |path| <= |names|
  {
    forall i, j | 0 <= i < j < |path| ensures path[i] != path[j] {
      RunProgresses(path, passes, fleet, t, all, i, j);
    }
    DistinctFits(path, names);
  }

  // ---- moving for ever -------------------------------------------------------

  /** A pass that ranked the first leaves it for the second, and one that did not rank the second comes back. */
  ghost predicate BothWays(x: string, y: string, fleet: Fleet, t: Autotune) {
    CanMove(x, y, true, fleet, t) && CanMove(y, x, false, fleet, t)
  }

  function Described(name: string, fleet: Fleet): Ranked {
    Ranked(name, "", 0, fleet.rttMs(name), fleet.score(name), 1, SocketAddr(V4(0), 0), None, 0)
  }

  /** The latency that is `share` more than `near`, reckoned from the larger. */
  function Farther(near: real, share: real): real
    requires share < 1.0
  {
    near / (1.0 - share)
  }

  lemma Quotient(near: real, part: real)
    requires near > 0.0 && part > 0.0
    ensures near / part > 0.0 && near / part * part == near
  {}

  lemma FartherBy(near: real, share: real)
    requires near > 0.0 && 0.0 <= share < 1.0
    ensures Farther(near, share) >= near && (Farther(near, share) - near) / Farther(near, share) == share
  {
    var far := Farther(near, share);
    Quotient(near, 1.0 - share);
    ShareOf(far, share);
    assert far - near == far * share;
  }

  lemma ShareOf(far: real, share: real)
    requires far > 0.0 && share >= 0.0
    ensures far * (1.0 - share) == far - far * share && far * share >= 0.0 && far * share / far == share
  {}

  /** Two slow servers: `x`, worth nothing, and `y`, worth everything and farther by the threshold. */
  function Pair(t: Autotune): Fleet
    requires t.improvementThreshold < 1.0
  {
    var near := t.maxLatencyMs as real + 1.0;
    Fleet((n: string) => if n == "x" then 0.0 else 1.0,
          (n: string) => if n == "x" then near else Farther(near, t.improvementThreshold))
  }

  lemma PairGoesBothWays(t: Autotune)
    requires t.Valid() && t.improvementThreshold < 1.0
    ensures BothWays("x", "y", Pair(t), t)
  {
    var near, pair := t.maxLatencyMs as real + 1.0, Pair(t);
    var far := Farther(near, t.improvementThreshold);
    FartherBy(near, t.improvementThreshold);
    var onX := Assessment(Some(Current("x", Some(near), Some(0.0))), Some(Described("y", pair)), 2, None);
    var onY := Assessment(Some(Current("y", Some(far), None)), Some(Described("x", pair)), 1, None);
    assert Improvement(onX.current.value, near, onX.best.value) == 1.0;
    assert Improvement(onY.current.value, far, onY.best.value) == t.improvementThreshold;
    assert DegradedMove(onX, t) && DegradedMove(onY, t);
  }

  /** At a threshold of one latency alone never suffices to leave for a server that takes any time to answer. */
  lemma UnrankedStays(from: string, to: string, fleet: Fleet, t: Autotune)
    requires t.Valid() && CanMove(from, to, false, fleet, t) && fleet.rttMs(to) > 0.0
    ensures t.improvementThreshold < 1.0
  {}

  lemma MovesAreFromSlow(from: string, to: string, ranked: bool, fleet: Fleet, t: Autotune)
    requires CanMove(from, to, ranked, fleet, t)
    ensures fleet.rttMs(from) > 0.0 && from != to
  {}

  /** Two servers can send a tuner back and forth exactly when the threshold is below one. */
  lemma BackAndForth(t: Autotune)
    requires t.Valid()
    ensures (exists fleet, x, y :: BothWays(x, y, fleet, t)) <==> t.improvementThreshold < 1.0
  {
    if t.improvementThreshold < 1.0 {
      PairGoesBothWays(t);
    }
    forall fleet, x, y | BothWays(x, y, fleet, t) ensures t.improvementThreshold < 1.0 {
      MovesAreFromSlow(x, y, true, fleet, t);
      UnrankedStays(y, x, fleet, t);
    }
  }

  /** A run of `n` moves over two servers. */
  ghost predicate RunsOverTwo(n: nat, path: seq<string>, passes: seq<Ranking>, x: string, y: string, fleet: Fleet,
                              t: Autotune) {
    |path| == n + 1 && IsRun(path, passes, fleet, t) && forall name :: name in path ==> name == x || name == y
  }

  ghost predicate GoesOn(n: nat, fleet: Fleet, t: Autotune) {
    exists path, passes, x, y :: RunsOverTwo(n, path, passes, x, y, fleet, t)
  }

  ghost predicate GoesOnForEver(fleet: Fleet, t: Autotune) {
    forall n :: GoesOn(n, fleet, t)
  }

  /** Some fleet that holds still keeps a tuner moving for ever over two servers exactly when the threshold is below
      one. */
  lemma MixedRunsGoOn(t: Autotune)
    requires t.Valid()
    ensures (exists fleet :: GoesOnForEver(fleet, t)) <==> t.improvementThreshold < 1.0
  {
    if t.improvementThreshold < 1.0 {
      forall n ensures GoesOn(n, Pair(t), t) {
        PairGoesOn(n, t);
      }
      assert GoesOnForEver(Pair(t), t);
    }
    forall fleet | GoesOnForEver(fleet, t) ensures t.improvementThreshold < 1.0 {
      assert GoesOn(2, fleet, t);
      TwoMovesNeed(fleet, t);
    }
  }

  lemma PairGoesOn(n: nat, t: Autotune)
    requires t.Valid() && t.improvementThreshold < 1.0
    ensures GoesOn(n, Pair(t), t)
  {
    PairGoesBothWays(t);
    var path := seq(n + 1, i => if i % 2 == 0 then "x" else "y");
    var passes := seq(n, i => Ranking(i % 2 == 0));
    forall i | 0 <= i < n ensures CanMove(path[i], path[i + 1], passes[i].included, Pair(t), t) {
      assert path[i] == (if i % 2 == 0 then "x" else "y") && path[i + 1] == (if i % 2 == 0 then "y" else "x");
    }
    assert RunsOverTwo(n, path, passes, "x", "y", Pair(t), t);
  }

  /** At a threshold of one two servers do not make a run of two moves. */
  lemma TwoMovesNeed(fleet: Fleet, t: Autotune)
    requires t.Valid() && GoesOn(2, fleet, t)
    ensures t.improvementThreshold < 1.0
  {
    var path: seq<string>, passes: seq<Ranking>, x, y :| RunsOverTwo(2, path, passes, x, y, fleet, t);
    var one, two, three := path[0], path[1], path[2];
    MovesAreFromSlow(one, two, passes[0].included, fleet, t);
    MovesAreFromSlow(two, three, passes[1].included, fleet, t);
    assert one in path && two in path && three in path;
    assert three == one;
    if !passes[0].included {
      UnrankedStays(one, two, fleet, t);
    } else if !passes[1].included {
      UnrankedStays(two, three, fleet, t);
    } else if t.improvementThreshold > 0.0 {
      MoveProgresses(one, two, true, fleet, t);
      MoveProgresses(two, three, true, fleet, t);
    }
  }

  lemma {:induction false} DistinctFits(path: seq<string>, names: set<string>)
    requires forall i, j :: 0 <= i < j < |path| ==> path[i] != path[j]
    requires forall n :: n in path ==> n in names
    ensures |path| <= |names|
  {
    if path != [] {
      var last := path[|path| - 1];
      var rest := path[..|path| - 1];
      assert last in path;
      forall n | n in rest ensures n in names - {last} {
        assert n in path;
      }
      DistinctFits(rest, names - {last});
    }
  }
}
