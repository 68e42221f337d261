/** In which direction load, round trip and spare capacity move a server in the ranking. */
module ScoreLaws {
  import opened Wrappers
  import opened Address
  import opened Servers
  import opened Settings
  import opened Sorting
  import opened Score

  // ---- standing in a ranking -------------------------------------------------

  /** This entry of a ranking is that probed server. */
  predicate Stands(r: Scored, m: Measured) {
    r.server == m.server && r.endpoint == m.endpoint && r.entry == m.entry && m.rtt == Some(r.rtt)
  }

  /** Both are in the ranking, the one always before the other. */
  ghost predicate Outranks(ranking: seq<Scored>, a: Measured, b: Measured) {
    && (exists p :: 0 <= p < |ranking| && Stands(ranking[p], a))
    && (exists q :: 0 <= q < |ranking| && Stands(ranking[q], b))
    && (forall p, q :: 0 <= p < |ranking| && 0 <= q < |ranking| && Stands(ranking[p], a) && Stands(ranking[q], b) ==>
          p < q)
  }

  /** The score of every entry for the one is that of every entry for the other. */
  ghost predicate ScoredAlike(ranking: seq<Scored>, a: Measured, b: Measured) {
    forall p, q :: 0 <= p < |ranking| && 0 <= q < |ranking| && Stands(ranking[p], a) && Stands(ranking[q], b) ==>
      ranking[p].score == ranking[q].score
  }

  /** Two probed servers that answered. */
  predicate Both(ms: seq<Measured>, a: Measured, b: Measured) {
    a in ms && b in ms && a.rtt.Some? && b.rtt.Some?
  }

  function Bottom(ms: seq<Measured>): real
    requires Reachable(ms) != []
  {
    Fastest(Reachable(ms))
  }

  lemma AnsweredIsReachable(ms: seq<Measured>, m: Measured)
    requires m in ms && m.rtt.Some?
    ensures Timing()(m) in Reachable(ms) && Reachable(ms) != []
  {
    var i :| 0 <= i < |ms| && ms[i] == m;
    ReachableMembers(ms);
    assert Timing()(ms[i]) in Reachable(ms);
  }

  lemma RankingHolds(ms: seq<Measured>, s: Scoring, x: Scored)
    requires Reachable(ms) != []
    ensures x in Rank(ms, s) <==> x in Map(Scorer(s, Bottom(ms)), Reachable(ms))
  {
    RankIsSortedPermutation(ms, s);
    SameElements(Rank(ms, s), Map(Scorer(s, Bottom(ms)), Reachable(ms)));
  }

  lemma EntryThere(ms: seq<Measured>, s: Scoring, m: Measured)
    requires Reachable(ms) != [] && m in ms && m.rtt.Some?
    ensures exists p :: 0 <= p < |Rank(ms, s)| && Stands(Rank(ms, s)[p], m)
  {
    AnsweredIsReachable(ms, m);
    var reach, x := Reachable(ms), ScoreOne(s, Bottom(ms), Timing()(m));
    var k :| 0 <= k < |reach| && reach[k] == Timing()(m);
    assert Map(Scorer(s, Bottom(ms)), reach)[k] == x;
    RankingHolds(ms, s, x);
    var p :| 0 <= p < |Rank(ms, s)| && Rank(ms, s)[p] == x;
    assert Stands(Rank(ms, s)[p], m);
  }

  lemma EntryIs(ms: seq<Measured>, s: Scoring, m: Measured, x: Scored)
    requires Reachable(ms) != [] && x in Rank(ms, s) && Stands(x, m)
    ensures x == ScoreOne(s, Bottom(ms), Timing()(m))
  {
    var reach := Reachable(ms);
    RankingHolds(ms, s, x);
    var j :| 0 <= j < |reach| && Map(Scorer(s, Bottom(ms)), reach)[j] == x;
    assert reach[j] == Timing()(m);
  }

  /** Its entries are its score against the fastest, and there is one. */
  lemma EntriesOf(ms: seq<Measured>, s: Scoring, m: Measured)
    requires Reachable(ms) != [] && m in ms && m.rtt.Some?
    ensures exists p :: 0 <= p < |Rank(ms, s)| && Stands(Rank(ms, s)[p], m)
    ensures forall p :: 0 <= p < |Rank(ms, s)| && Stands(Rank(ms, s)[p], m) ==>
      Rank(ms, s)[p] == ScoreOne(s, Bottom(ms), Timing()(m))
  {
    EntryThere(ms, s, m);
    forall p | 0 <= p < |Rank(ms, s)| && Stands(Rank(ms, s)[p], m)
      ensures Rank(ms, s)[p] == ScoreOne(s, Bottom(ms), Timing()(m))
    {
      EntryIs(ms, s, m, Rank(ms, s)[p]);
    }
  }

  lemma NotBehind(ranking: seq<Scored>, p: nat, q: nat)
    requires Sorted(Order(), ranking) && p < |ranking| && q < |ranking| && q <= p
    ensures Before(ranking[q], ranking[p])
  {
    OrderIsTotal();
    assert Order()(ranking[q], ranking[p]);
  }

  lemma ScoreDecides(ms: seq<Measured>, s: Scoring, a: Measured, b: Measured)
    requires Both(ms, a, b) && Reachable(ms) != []
    requires !Before(ScoreOne(s, Bottom(ms), Timing()(b)), ScoreOne(s, Bottom(ms), Timing()(a)))
    ensures Outranks(Rank(ms, s), a, b)
  {
    var ranking := Rank(ms, s);
    EntriesOf(ms, s, a);
    EntriesOf(ms, s, b);
    RankIsSortedPermutation(ms, s);
    forall p, q | 0 <= q <= p < |ranking| ensures Before(ranking[q], ranking[p]) {
      NotBehind(ranking, p, q);
    }
  }

  lemma ScoresEqual(ms: seq<Measured>, s: Scoring, a: Measured, b: Measured)
    requires Both(ms, a, b) && Reachable(ms) != []
    requires ScoreOne(s, Bottom(ms), Timing()(a)).score == ScoreOne(s, Bottom(ms), Timing()(b)).score
    ensures ScoredAlike(Rank(ms, s), a, b)
  {
    EntriesOf(ms, s, a);
    EntriesOf(ms, s, b);
  }

  // ---- weighing --------------------------------------------------------------

  lemma DivMore(x: real, y: real, d: real)
    requires d > 0.0
    ensures x < y ==> Div(x, d) < Div(y, d)
    ensures x <= y ==> Div(x, d) <= Div(y, d)
  {
    Quotients(x, d);
    Quotients(y, d);
    var p, q := x / d, y / d;
    assert (q - p) * d == y - x;
    Signs(q - p, d);
  }

  lemma Quotients(x: real, d: real)
    requires d > 0.0
    ensures x / d * d == x
  {}

  lemma Signs(x: real, d: real)
    requires d > 0.0
    ensures x * d > 0.0 <==> x > 0.0
    ensures x * d >= 0.0 <==> x >= 0.0
  {}

  lemma TimesMore(w: real, x: real, y: real)
    requires w >= 0.0 && x <= y
    ensures Times(w, x) <= Times(w, y)
    ensures w > 0.0 && x < y ==> Times(w, x) < Times(w, y)
    ensures w == 0.0 ==> Times(w, x) == Times(w, y) == 0.0
  {
    assert w * (y - x) == w * y - w * x;
    if w > 0.0 {
      Signs(y - x, w);
    }
  }

  /** A component that grows never lowers the score, and raises it if it grows and carries weight. */
  lemma WeighMore(w: Weights, r: real, l: real, h: real, r': real, l': real, h': real)
    requires w.Valid() && r <= r' && l <= l' && h <= h'
    ensures Weigh(w, r, l, h) <= Weigh(w, r', l', h')
    ensures (w.rtt > 0.0 && r < r') || (w.load > 0.0 && l < l') || (w.headroom > 0.0 && h < h') ==>
      Weigh(w, r, l, h) < Weigh(w, r', l', h')
  {
    TimesMore(w.rtt, r, r');
    TimesMore(w.load, l, l');
    TimesMore(w.headroom, h, h');
    DivMore(Times(w.rtt, r) + Times(w.load, l) + Times(w.headroom, h),
            Times(w.rtt, r') + Times(w.load, l') + Times(w.headroom, h'), w.Sum());
  }

  lemma NoWeight(w: Weights, r: real, l: real, h: real, r': real, l': real, h': real)
    requires (w.rtt == 0.0 || r == r') && (w.load == 0.0 || l == l') && (w.headroom == 0.0 || h == h')
    ensures Weigh(w, r, l, h) == Weigh(w, r', l', h')
  {
    assert w.rtt == 0.0 ==> Times(w.rtt, r) == 0.0 && Times(w.rtt, r') == 0.0;
    assert w.load == 0.0 ==> Times(w.load, l) == 0.0 && Times(w.load, l') == 0.0;
    assert w.headroom == 0.0 ==> Times(w.headroom, h) == 0.0 && Times(w.headroom, h') == 0.0;
  }

  // ---- load ------------------------------------------------------------------

  /** Of two servers alike but for their load, the less loaded one comes first as long as load carries weight and is
      not saturated on both. */
  lemma LessLoadedFirst(ms: seq<Measured>, s: Scoring, a: Measured, b: Measured)
    requires s.Valid() && s.weights.load > 0.0 && Both(ms, a, b)
    requires a.server.load < b.server.load && a.server.load < 100
    requires a.rtt == b.rtt && a.server.bw == b.server.bw && a.server.bwMax == b.server.bwMax
    ensures Outranks(Rank(ms, s), a, b)
  {
    AnsweredIsReachable(ms, a);
    var f := Bottom(ms);
    var r := RttScore(s.ln, Micros(a.rtt.value), f);
    var h := HeadroomScore(s.ln, a.server.HeadroomMbps(), s.headroomTarget);
    assert LoadScore(b.server) < LoadScore(a.server);
    WeighMore(s.weights, r, LoadScore(b.server), h, r, LoadScore(a.server), h);
    ScoreDecides(ms, s, a, b);
  }

  // ---- round trip ------------------------------------------------------------

  lemma ClampMore(x: real, y: real)
    requires x <= y
    ensures Clamp01(x) <= Clamp01(y)
    ensures x < y && y > 0.0 && x < 1.0 ==> Clamp01(x) < Clamp01(y)
  {}

  lemma LnMore(ln: real -> real, x: real, y: real)
    requires IsLn(ln) && 0.0 < x <= y
    ensures ln(x) <= ln(y) && (x < y ==> ln(x) < ln(y))
  {}

  lemma RatioMore(x: real, y: real, f: real)
    requires f > 0.0 && f <= x < y
    ensures 1.0 <= x / f < y / f
    ensures x < RTT_RATIO_FLOOR * f ==> x / f < RTT_RATIO_FLOOR
  {
    DivMore(f, x, f);
    DivMore(x, y, f);
    Itself(f);
    if x < RTT_RATIO_FLOOR * f {
      Quotients(x, f);
      var q := x / f;
      assert (RTT_RATIO_FLOOR - q) * f == RTT_RATIO_FLOOR * f - x;
      Signs(RTT_RATIO_FLOOR - q, f);
    }
  }

  lemma RttScoreFalls(ln: real -> real, x: real, y: real, f: real)
    requires IsLn(ln) && f <= x < y
    ensures RttScore(ln, y, f) <= RttScore(ln, x, f)
    ensures EPSILON < f && x < RTT_RATIO_FLOOR * f ==> RttScore(ln, y, f) < RttScore(ln, x, f)
  {
    if x > EPSILON && f > EPSILON {
      RatioMore(x, y, f);
      var p, q, d := ln(x / f), ln(y / f), ln(RTT_RATIO_FLOOR);
      LnMore(ln, x / f, y / f);
      LnPositive(ln, RTT_RATIO_FLOOR);
      LnMore(ln, 1.0, x / f);
      DivMore(p, q, d);
      DivMore(0.0, p, d);
      assert Div(0.0, d) == 0.0;
      if x < RTT_RATIO_FLOOR * f {
        LnMore(ln, x / f, RTT_RATIO_FLOOR);
        DivMore(p, d, d);
        Itself(d);
        assert Div(p, d) < 1.0;
      }
      ClampMore(1.0 - Div(q, d), 1.0 - Div(p, d));
    }
  }

  lemma MicrosMore(a: nat, b: nat)
    requires a < b
    ensures Micros(a) < Micros(b)
  {}

  lemma ScoreIs(s: Scoring, f: real, m: Reach, r: real, l: real, h: real)
    requires r == RttScore(s.ln, Micros(m.rtt), f) && l == LoadScore(m.server)
    requires h == HeadroomScore(s.ln, m.server.HeadroomMbps(), s.headroomTarget)
    ensures ScoreOne(s, f, m).score == Weigh(s.weights, r, l, h)
  {}

  lemma FasterNoWorse(s: Scoring, f: real, a: Reach, b: Reach)
    requires s.Valid() && f <= Micros(a.rtt) && a.rtt < b.rtt
    requires a.server.load == b.server.load && a.server.bw == b.server.bw && a.server.bwMax == b.server.bwMax
    ensures ScoreOne(s, f, a).score >= ScoreOne(s, f, b).score
  {
    var l := LoadScore(a.server);
    var h := HeadroomScore(s.ln, a.server.HeadroomMbps(), s.headroomTarget);
    var ra, rb := RttScore(s.ln, Micros(a.rtt), f), RttScore(s.ln, Micros(b.rtt), f);
    MicrosMore(a.rtt, b.rtt);
    RttScoreFalls(s.ln, Micros(a.rtt), Micros(b.rtt), f);
    WeighMore(s.weights, rb, l, h, ra, l, h);
    ScoreIs(s, f, a, ra, l, h);
    ScoreIs(s, f, b, rb, l, h);
  }

  /** Of two servers alike but for the round trip, the faster one comes first, whatever the weights. */
  lemma FasterFirst(ms: seq<Measured>, s: Scoring, a: Measured, b: Measured)
    requires s.Valid() && Both(ms, a, b) && a.rtt.value < b.rtt.value
    requires a.server.load == b.server.load && a.server.bw == b.server.bw && a.server.bwMax == b.server.bwMax
    ensures Outranks(Rank(ms, s), a, b)
  {
    AnsweredIsReachable(ms, a);
    FasterNoWorse(s, Bottom(ms), Timing()(a), Timing()(b));
    ScoreDecides(ms, s, a, b);
  }

  lemma FasterScore(s: Scoring, f: real, a: Reach, b: Reach)
    requires s.Valid() && s.weights.rtt > 0.0 && a.rtt < b.rtt
    requires a.server.load == b.server.load && a.server.bw == b.server.bw && a.server.bwMax == b.server.bwMax
    requires EPSILON < f <= Micros(a.rtt) < RTT_RATIO_FLOOR * f
    ensures ScoreOne(s, f, a).score > ScoreOne(s, f, b).score
  {
    var l := LoadScore(a.server);
    var h := HeadroomScore(s.ln, a.server.HeadroomMbps(), s.headroomTarget);
    var ra, rb := RttScore(s.ln, Micros(a.rtt), f), RttScore(s.ln, Micros(b.rtt), f);
    MicrosMore(a.rtt, b.rtt);
    RttScoreFalls(s.ln, Micros(a.rtt), Micros(b.rtt), f);
    WeighMore(s.weights, rb, l, h, ra, l, h);
    ScoreIs(s, f, a, ra, l, h);
    ScoreIs(s, f, b, rb, l, h);
  }

  /** And its score is the higher one if the round trip carries weight and the faster is within twenty times the
      fastest. */
  lemma FasterScoresHigher(ms: seq<Measured>, s: Scoring, a: Measured, b: Measured, p: nat, q: nat)
    requires s.Valid() && s.weights.rtt > 0.0 && Both(ms, a, b) && a.rtt.value < b.rtt.value
    requires a.server.load == b.server.load && a.server.bw == b.server.bw && a.server.bwMax == b.server.bwMax
    requires forall m :: m in ms && m.rtt.Some? ==> 0 < m.rtt.value && a.rtt.value < 20 * m.rtt.value
    requires p < |Rank(ms, s)| && q < |Rank(ms, s)| && Stands(Rank(ms, s)[p], a) && Stands(Rank(ms, s)[q], b)
    ensures Rank(ms, s)[p].score > Rank(ms, s)[q].score
  {
    AnsweredIsReachable(ms, a);
    FastestWithin(ms, a.rtt.value);
    FasterScore(s, Bottom(ms), Timing()(a), Timing()(b));
    EntryIs(ms, s, a, Rank(ms, s)[p]);
    EntryIs(ms, s, b, Rank(ms, s)[q]);
  }

  lemma FastestWithin(ms: seq<Measured>, rtt: nat)
    requires Reachable(ms) != []
    requires forall m :: m in ms && m.rtt.Some? ==> 0 < m.rtt.value && rtt < 20 * m.rtt.value
    ensures EPSILON < Bottom(ms) && Micros(rtt) < RTT_RATIO_FLOOR * Bottom(ms)
  {
    var reach := Reachable(ms);
    var r :| r in reach && Bottom(ms) == Micros(r.rtt);
    ReachableMembers(ms);
    var i :| 0 <= i < |ms| && IsTimingOf(r, ms[i]);
    assert ms[i] in ms;
  }

  // ---- spare capacity --------------------------------------------------------

  lemma HeadroomScoreGrows(ln: real -> real, less: nat, more: nat, target: real)
    requires IsLn(ln) && target > 0.0 && less < more && less as real < target
    ensures HeadroomScore(ln, less, target) < HeadroomScore(ln, more, target)
  {
    var x, y, d := 1.0 + less as real / target, 1.0 + more as real / target, ln(2.0);
    DivMore(0.0, less as real, target);
    DivMore(less as real, more as real, target);
    DivMore(less as real, target, target);
    Itself(target);
    LnMore(ln, 1.0, x);
    LnMore(ln, x, y);
    LnMore(ln, x, 2.0);
    LnPositive(ln, 2.0);
    DivMore(0.0, ln(x), d);
    DivMore(ln(x), ln(y), d);
    DivMore(ln(x), d, d);
    Itself(d);
    ClampMore(Div(ln(x), d), Div(ln(y), d));
  }

  /** Of two servers alike but for how much of the same capacity is used, the less used one comes first as long as
      capacity carries weight, the one has some to spare and the other less than the target. */
  lemma RoomierFirst(ms: seq<Measured>, s: Scoring, a: Measured, b: Measured)
    requires s.Valid() && s.weights.headroom > 0.0 && Both(ms, a, b)
    requires a.rtt == b.rtt && a.server.load == b.server.load && a.server.bwMax == b.server.bwMax
    requires a.server.bw < b.server.bw && a.server.bw < a.server.bwMax
    requires s.headroomTarget > 0.0 && (b.server.bwMax - b.server.bw) as real < s.headroomTarget
    ensures Outranks(Rank(ms, s), a, b)
  {
    AnsweredIsReachable(ms, a);
    var f := Bottom(ms);
    var r, l := RttScore(s.ln, Micros(a.rtt.value), f), LoadScore(a.server);
    var less, more := b.server.HeadroomMbps(), a.server.HeadroomMbps();
    HeadroomScoreGrows(s.ln, less, more, s.headroomTarget);
    WeighMore(s.weights, r, l, HeadroomScore(s.ln, less, s.headroomTarget),
              r, l, HeadroomScore(s.ln, more, s.headroomTarget));
    ScoreDecides(ms, s, a, b);
  }

  // ---- weights of zero -------------------------------------------------------

  /** What carries no weight changes no score: two servers alike in all that does score alike. */
  lemma WeightlessChangesNothing(ms: seq<Measured>, s: Scoring, a: Measured, b: Measured)
    requires Both(ms, a, b)
    requires s.weights.rtt == 0.0 || a.rtt == b.rtt
    requires s.weights.load == 0.0 || a.server.load == b.server.load
    requires s.weights.headroom == 0.0 || (a.server.bw == b.server.bw && a.server.bwMax == b.server.bwMax)
    ensures ScoredAlike(Rank(ms, s), a, b)
  {
    AnsweredIsReachable(ms, a);
    var f := Bottom(ms);
    NoWeight(s.weights, RttScore(s.ln, Micros(a.rtt.value), f), LoadScore(a.server),
             HeadroomScore(s.ln, a.server.HeadroomMbps(), s.headroomTarget),
             RttScore(s.ln, Micros(b.rtt.value), f), LoadScore(b.server),
             HeadroomScore(s.ln, b.server.HeadroomMbps(), s.headroomTarget));
    ScoresEqual(ms, s, a, b);
  }
}
