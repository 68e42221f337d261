/** The settings the daemon's decisions depend on, and what `validate` demands of them. */
module Settings {
  import opened Wrappers
  import opened Text

  datatype Weights = Weights(rtt: real, load: real, headroom: real)
  {
    function Sum(): real {
      rtt + load + headroom
    }

    predicate Valid() {
      rtt >= 0.0 && load >= 0.0 && headroom >= 0.0 && Sum() > 0.0
    }
  }

  datatype Filters = Filters(
    countryWhitelist: seq<string>, countryBlacklist: seq<string>,
    serverWhitelist: seq<string>, serverBlacklist: seq<string>, maxLoad: nat)
  {
    predicate Valid() {
      && maxLoad <= 200
      && Folded(countryWhitelist) !! Folded(countryBlacklist)
      && Folded(serverWhitelist) !! Folded(serverBlacklist)
    }
  }

  /** Trimmed and case-folded. */
  function Folded(values: seq<string>): set<string> {
    set v | v in values :: Normal(v)
  }

  /** Trimmed, case-folded and with empty entries left out. */
  function Normalised(values: seq<string>): (names: set<string>) {
    Folded(values) - {""}
  }

  datatype Policy = Ask | Auto | Never

  datatype Autotune = Autotune(
    maxLatencyMs: nat, minMbps: real, acceptFraction: real, measureBeforeConnect: bool,
    targetMbps: Option<real>, headroomMargin: real, verifyCandidates: nat,
    policy: Policy, improvementThreshold: real, weights: Weights)
  {
    predicate Valid() {
      && (targetMbps.Some? ==> targetMbps.value > 0.0)
      && 0.0 <= acceptFraction <= 1.0
      && headroomMargin > 0.0
      && 0.0 <= improvementThreshold <= 1.0
      && weights.Valid()
    }

    /** Throughput to aim for: the setting, else a share of a positive measurement, else a guess. */
    function Target(direct: Option<real>): real {
      if targetMbps.Some? then targetMbps.value
      else if direct.Some? && direct.value > 0.0 then direct.value * MEASURED_TARGET_FRACTION
      else DEFAULT_TARGET_MBPS
    }

    function HeadroomTarget(direct: Option<real>): real {
      Max(Target(direct) * headroomMargin, 1.0)
    }

    /** What a candidate has to deliver to be taken. */
    function Acceptance(direct: Option<real>): real {
      Max(Target(direct) * acceptFraction, minMbps)
    }
  }

  const DEFAULT_TARGET_MBPS := 500.0
  const MEASURED_TARGET_FRACTION := 0.9

  function Max(a: real, b: real): real {
    if a >= b then a else b
  }

  function Min(a: real, b: real): real {
    if a <= b then a else b
  }

  function Clamp01(x: real): real {
    Max(0.0, Min(1.0, x))
  }

  /** Division, total: the divisors here are positive for every setting `validate` accepts. */
  function Div(a: real, b: real): real {
    if b == 0.0 then 0.0 else a / b
  }

  /** The bar is the floor or the share of the target, whichever is more; the target is the setting, else nine tenths
      of a positive measurement, else 500. So with the capacity asked of a server, at least one. */
  lemma BarExactly(a: Autotune, direct: Option<real>)
    ensures var target := if a.targetMbps.Some? then a.targetMbps.value
                          else if direct.Some? && direct.value > 0.0 then direct.value * 0.9 else 500.0;
      && target * a.acceptFraction <= a.Acceptance(direct) && a.minMbps <= a.Acceptance(direct)
      && (a.Acceptance(direct) == target * a.acceptFraction || a.Acceptance(direct) == a.minMbps)
      && target * a.headroomMargin <= a.HeadroomTarget(direct) && 1.0 <= a.HeadroomTarget(direct)
      && (a.HeadroomTarget(direct) == target * a.headroomMargin || a.HeadroomTarget(direct) == 1.0)
  {}

  /** The bar never drops below the floor and never asks for more than the target or the floor. */
  lemma AcceptanceBounds(a: Autotune, direct: Option<real>)
    requires a.Valid()
    ensures a.minMbps <= a.Acceptance(direct) <= Max(a.Target(direct), a.minMbps)
    ensures a.HeadroomTarget(direct) >= 1.0
  {
    TargetPositive(a, direct);
    BarBetween(a.Target(direct), a.acceptFraction, a.minMbps);
  }

  lemma TargetPositive(a: Autotune, direct: Option<real>)
    requires a.Valid()
    ensures a.Target(direct) > 0.0
  {}

  lemma BarBetween(t: real, f: real, m: real)
    requires t > 0.0 && 0.0 <= f <= 1.0
    ensures m <= Max(t * f, m) <= Max(t, m)
  {
    assert t * (1.0 - f) >= 0.0;
    assert t * (1.0 - f) == t - t * f;
  }
}
