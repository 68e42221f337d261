/** Ranking of probed servers: the weighted score, its order, and what the order
    does not depend on. Reals stand for floating point; `ln` is any logarithm. */
module Score {
  import opened Wrappers
  import opened Address
  import opened Servers
  import opened Settings
  import opened Sorting

  const RTT_RATIO_FLOOR := 20.0
  const EPSILON := 0.0000000000000002220446049250313

  ghost predicate IsLn(ln: real -> real) {
    && ln(1.0) == 0.0
    && (forall x, y :: 0.0 < x < y ==> ln(x) < ln(y))
    && (forall x, y {:trigger Times(x, y)} :: 0.0 < x && 0.0 < y ==> ln(Times(x, y)) == ln(x) + ln(y))
  }

  datatype Scoring = Scoring(weights: Weights, headroomTarget: real, ln: real -> real)
  {
    ghost predicate Valid() {
      weights.Valid() && IsLn(ln)
    }
  }

  lemma LnPositive(ln: real -> real, x: real)
    requires IsLn(ln) && x > 0.0
    ensures (x > 1.0 <==> ln(x) > 0.0) && (x < 1.0 <==> ln(x) < 0.0)
  {
    assert x > 1.0 ==> ln(1.0) < ln(x);
    assert x < 1.0 ==> ln(x) < ln(1.0);
  }

  /** A probed server; the round trip is in nanoseconds. */
  datatype Measured = Measured(server: Server, endpoint: SocketAddr, entry: nat, rtt: Option<nat>)

  datatype Scored = Scored(
    server: Server, endpoint: SocketAddr, entry: nat, rtt: nat, score: real,
    rttScore: real, loadScore: real, headroomScore: real)

  /** A server that answered, with its timing. */
  datatype Reach = Reach(server: Server, endpoint: SocketAddr, entry: nat, rtt: nat)

  function Micros(d: nat): real {
    d as real / 1000.0
  }

  function Answered(): Measured -> bool {
    (m: Measured) => m.rtt.Some?
  }

  function Timing(): Measured -> Reach {
    (m: Measured) => Reach(m.server, m.endpoint, m.entry, if m.rtt.Some? then m.rtt.value else 0)
  }

  function Reachable(ms: seq<Measured>): seq<Reach> {
    Map(Timing(), Keep(Answered(), ms))
  }

  /** The smallest timing present. */
  function Fastest(rs: seq<Reach>): (f: real)
    requires rs != []
    ensures exists r :: r in rs && f == Micros(r.rtt)
    ensures forall r :: r in rs ==> f <= Micros(r.rtt)
  {
    var here := Micros(rs[0].rtt);
    if |rs| == 1 then
      assert rs[0] in rs;
      here
    else
      assert rs == [rs[0]] + rs[1..];
      Min(here, Fastest(rs[1..]))
  }

  function RttScore(ln: real -> real, us: real, fastest: real): real {
    if us <= EPSILON || fastest <= EPSILON then 1.0
    else Clamp01(1.0 - Div(ln(Max(us / fastest, 1.0)), ln(RTT_RATIO_FLOOR)))
  }

  function HeadroomScore(ln: real -> real, headroom: nat, target: real): real {
    if target <= 0.0 then 1.0
    else Clamp01(Div(ln(1.0 + headroom as real / target), ln(2.0)))
  }

  function LoadScore(server: Server): real {
    1.0 - server.LoadFraction()
  }

  function Weigh(w: Weights, rtt: real, load: real, headroom: real): real {
    Div(Times(w.rtt, rtt) + Times(w.load, load) + Times(w.headroom, headroom), w.Sum())
  }

  function Times(w: real, x: real): real {
    w * x
  }

  function ScoreOne(s: Scoring, fastest: real, m: Reach): Scored {
    var r := RttScore(s.ln, Micros(m.rtt), fastest);
    var l := LoadScore(m.server);
    var h := HeadroomScore(s.ln, m.server.HeadroomMbps(), s.headroomTarget);
    Scored(m.server, m.endpoint, m.entry, m.rtt, Weigh(s.weights, r, l, h), r, l, h)
  }

  function Scorer(s: Scoring, fastest: real): Reach -> Scored {
    (m: Reach) => ScoreOne(s, fastest, m)
  }

  /** Higher score first, then shorter round trip, then name. */
  predicate Before(a: Scored, b: Scored) {
    a.score > b.score
    || (a.score == b.score && (a.rtt < b.rtt || (a.rtt == b.rtt && TextLe(a.server.name, b.server.name))))
  }

  function Order(): (Scored, Scored) -> bool {
    (a: Scored, b: Scored) => Before(a, b)
  }

  function Rank(ms: seq<Measured>, s: Scoring): seq<Scored> {
    var reachable := Reachable(ms);
    if reachable == [] then [] else Sort(Order(), Map(Scorer(s, Fastest(reachable)), reachable))
  }

  /** The passes of `rank`: filter, fold, map, sort. */
  method RankServers(ms: seq<Measured>, s: Scoring) returns (out: seq<Scored>)
    ensures out == Rank(ms, s)
  {
    var reachable := FilterReachable(ms);
    if reachable == [] {
      return [];
    }
    var fastest := FindFastest(reachable);
    out := ScoreEach(s, fastest, reachable);
    out := Sort(Order(), out);
  }

  method FilterReachable(ms: seq<Measured>) returns (out: seq<Reach>)
    ensures out == Reachable(ms)
  {
    out := [];
    assert ms[..0] == [];
    for i := 0 to |ms|
      invariant out == Reachable(ms[..i])
    {
      ReachableAppend(ms[..i], [ms[i]]);
      assert ms[..i + 1] == ms[..i] + [ms[i]] && [ms[i]][1..] == [];
      if ms[i].rtt.Some? {
        out := out + [Reach(ms[i].server, ms[i].endpoint, ms[i].entry, ms[i].rtt.value)];
      }
    }
    assert ms[..|ms|] == ms;
  }

  method FindFastest(rs: seq<Reach>) returns (fastest: real)
    requires rs != []
    ensures fastest == Fastest(rs)
  {
    fastest := Micros(rs[0].rtt);
    for i := 1 to |rs|
      invariant exists k :: 0 <= k < |rs| && fastest == Micros(rs[k].rtt)
      invariant forall k :: 0 <= k < i ==> fastest <= Micros(rs[k].rtt)
    {
      fastest := Min(fastest, Micros(rs[i].rtt));
    }
  }

  method ScoreEach(s: Scoring, fastest: real, rs: seq<Reach>) returns (out: seq<Scored>)
    ensures out == Map(Scorer(s, fastest), rs)
  {
    out := [];
    for i := 0 to |rs|
      invariant |out| == i && forall k :: 0 <= k < i ==> out[k] == Scorer(s, fastest)(rs[k])
    {
      out := out + [ScoreOne(s, fastest, rs[i])];
    }
  }

  // ---- who is ranked ---------------------------------------------------------

  lemma ReachableAppend(a: seq<Measured>, b: seq<Measured>)
    ensures Reachable(a + b) == Reachable(a) + Reachable(b)
  {
    KeepAppend(Answered(), a, b);
    MapAppend(Timing(), Keep(Answered(), a), Keep(Answered(), b));
  }

  predicate IsTimingOf(r: Reach, m: Measured) {
    m.server == r.server && m.endpoint == r.endpoint && m.entry == r.entry && m.rtt == Some(r.rtt)
  }

  lemma ReachableMembers(ms: seq<Measured>)
    ensures forall r :: r in Reachable(ms) ==> exists i :: 0 <= i < |ms| && IsTimingOf(r, ms[i])
    ensures forall i :: 0 <= i < |ms| && ms[i].rtt.Some? ==> Timing()(ms[i]) in Reachable(ms)
  {
    var kept := Keep(Answered(), ms);
    KeepMembers(Answered(), ms);
    forall r | r in Reachable(ms) ensures exists i :: 0 <= i < |ms| && IsTimingOf(r, ms[i]) {
      var k :| 0 <= k < |kept| && Map(Timing(), kept)[k] == r;
      assert kept[k] in kept;
      var i :| 0 <= i < |ms| && ms[i] == kept[k];
      assert IsTimingOf(r, ms[i]);
    }
    forall i | 0 <= i < |ms| && ms[i].rtt.Some? ensures Timing()(ms[i]) in Reachable(ms) {
      assert ms[i] in kept;
      var k :| 0 <= k < |kept| && kept[k] == ms[i];
      assert Map(Timing(), kept)[k] == Timing()(ms[i]);
    }
  }

  lemma ReachablePermutes(a: seq<Measured>, b: seq<Measured>)
    requires multiset(a) == multiset(b)
    ensures multiset(Reachable(a)) == multiset(Reachable(b))
  {
    KeepPermutes(Answered(), a, b);
    MapPermutes(Timing(), Keep(Answered(), a), Keep(Answered(), b));
  }

  // ---- the order -------------------------------------------------------------

  lemma OrderIsTotal()
    ensures Total(Order()) && Transitive(Order())
  {
    forall a: Scored, b: Scored ensures Order()(a, b) || Order()(b, a) {
      TextTotal(a.server.name, b.server.name);
    }
    forall a: Scored, b: Scored, c: Scored | Order()(a, b) && Order()(b, c) ensures Order()(a, c) {
      if TextLe(a.server.name, b.server.name) && TextLe(b.server.name, c.server.name) {
        TextTransitive(a.server.name, b.server.name, c.server.name);
      }
    }
  }

  predicate DistinctServers(ms: seq<Measured>) {
    forall i, j :: 0 <= i < j < |ms| ==> ms[i].server.name != ms[j].server.name
  }

  /** The ranking is the servers that answered, each once, best first. */
  lemma RankIsSortedPermutation(ms: seq<Measured>, s: Scoring)
    ensures Sorted(Order(), Rank(ms, s))
    ensures var r := Reachable(ms);
      if r == [] then Rank(ms, s) == []
      else multiset(Rank(ms, s)) == multiset(Map(Scorer(s, Fastest(r)), r))
  {
    var r := Reachable(ms);
    if r != [] {
      OrderIsTotal();
      SortSorted(Order(), Map(Scorer(s, Fastest(r)), r));
      SortPermutes(Order(), Map(Scorer(s, Fastest(r)), r));
    }
  }

  // ---- what the score means --------------------------------------------------

  lemma WeighedBetween(w: Weights, r: real, l: real, h: real)
    requires w.Valid() && 0.0 <= r <= 1.0 && 0.0 <= l <= 1.0 && 0.0 <= h <= 1.0
    ensures 0.0 <= Weigh(w, r, l, h) <= 1.0
  {
    Share(w.rtt, r);
    Share(w.load, l);
    Share(w.headroom, h);
    SumOfShares(Times(w.rtt, r), Times(w.load, l), Times(w.headroom, h), w);
  }

  lemma SumOfShares(a: real, b: real, c: real, w: Weights)
    requires w.Valid() && 0.0 <= a <= w.rtt && 0.0 <= b <= w.load && 0.0 <= c <= w.headroom
    ensures 0.0 <= Div(a + b + c, w.Sum()) <= 1.0
  {
    Quotient(a + b + c, w.Sum());
  }

  lemma Share(w: real, x: real)
    requires w >= 0.0 && 0.0 <= x <= 1.0
    ensures 0.0 <= Times(w, x) <= w
  {
    assert w * (1.0 - x) >= 0.0;
    assert w * (1.0 - x) == w - w * x;
  }

  lemma Quotient(t: real, d: real)
    requires 0.0 <= t <= d && d > 0.0
    ensures 0.0 <= t / d <= 1.0
  {}

  /** Every score of a ranking lies between zero and one. */
  lemma ScoresBetween(ms: seq<Measured>, s: Scoring)
    requires s.weights.Valid()
    ensures forall r :: r in Rank(ms, s) ==> 0.0 <= r.score <= 1.0
  {
    var reach := Reachable(ms);
    if reach != [] {
      var f := Fastest(reach);
      var all := Map(Scorer(s, f), reach);
      RankIsSortedPermutation(ms, s);
      SameElements(Rank(ms, s), all);
      forall r | r in all ensures 0.0 <= r.score <= 1.0 {
        var i :| 0 <= i < |all| && all[i] == r;
        ScoreBetween(s, f, reach[i]);
      }
    }
  }

  lemma ScoreBetween(s: Scoring, f: real, m: Reach)
    requires s.weights.Valid()
    ensures 0.0 <= ScoreOne(s, f, m).score <= 1.0
  {
    var r := RttScore(s.ln, Micros(m.rtt), f);
    var h := HeadroomScore(s.ln, m.server.HeadroomMbps(), s.headroomTarget);
    WeighedBetween(s.weights, r, LoadScore(m.server), h);
  }

  /** Only the proportions of the weights matter. */
  lemma OnlyProportionsMatter(w: Weights, k: real, r: real, l: real, h: real)
    requires w.Valid() && k > 0.0
    ensures Weigh(Weights(k * w.rtt, k * w.load, k * w.headroom), r, l, h) == Weigh(w, r, l, h)
  {
    var t := w.rtt * r + w.load * l + w.headroom * h;
    assert k * w.rtt * r + k * w.load * l + k * w.headroom * h == k * t;
    assert k * w.rtt + k * w.load + k * w.headroom == k * w.Sum();
    Cancel(k, t, w.Sum());
  }

  lemma Cancel(k: real, t: real, d: real)
    requires k > 0.0 && d > 0.0
    ensures (k * t) / (k * d) == t / d
  {
    var q := t / d;
    assert q * d == t;
    assert q * (k * d) == k * t;
    assert k * d > 0.0;
  }

  lemma LnRatio(ln: real -> real, x: real, y: real)
    requires IsLn(ln) && x > 0.0 && y > 0.0
    ensures ln(x / y) == ln(x) - ln(y)
  {
    Divides(x, y);
    LnProduct(ln, x / y, y, x);
  }

  lemma Divides(x: real, y: real)
    requires x > 0.0 && y > 0.0
    ensures x / y > 0.0 && (x / y) * y == x
  {}

  lemma LnProduct(ln: real -> real, a: real, b: real, product: real)
    requires IsLn(ln) && a > 0.0 && b > 0.0 && product == a * b
    ensures ln(product) == ln(a) + ln(b)
  {
    assert Times(a, b) == product;
  }

  /** Making a server `k` times slower costs the same wherever it starts, short of the floor. */
  lemma EqualRatiosCostEqually(ln: real -> real, us: real, k: real, fastest: real)
    requires IsLn(ln) && EPSILON < fastest <= us && k >= 1.0 && k * us <= 20.0 * fastest
    ensures RttScore(ln, us, fastest) - RttScore(ln, k * us, fastest) == ln(k) / ln(20.0)
  {
    BelowMultiple(k, us, RTT_RATIO_FLOOR * fastest);
    LnProduct(ln, k, us, k * us);
    CostBetween(ln, us, k * us, fastest);
    SubtractQuotients(ln(us) - ln(fastest), ln(k), ln(RTT_RATIO_FLOOR));
  }

  lemma CostBetween(ln: real -> real, us: real, slower: real, fastest: real)
    requires IsLn(ln) && EPSILON < fastest <= us <= slower <= RTT_RATIO_FLOOR * fastest
    ensures ln(RTT_RATIO_FLOOR) > 0.0
    ensures RttScore(ln, us, fastest) == 1.0 - (ln(us) - ln(fastest)) / ln(RTT_RATIO_FLOOR)
    ensures RttScore(ln, slower, fastest) == 1.0 - (ln(slower) - ln(fastest)) / ln(RTT_RATIO_FLOOR)
  {
    RttScoreIs(ln, us, fastest);
    RttScoreIs(ln, slower, fastest);
  }

  lemma BelowMultiple(k: real, x: real, limit: real)
    requires k >= 1.0 && x > 0.0 && k * x <= limit
    ensures x <= k * x && x <= limit
  {
    Grows(k, x);
  }

  lemma Grows(k: real, x: real)
    requires k >= 1.0 && x > 0.0
    ensures k * x >= x
  {
    assert (k - 1.0) * x >= 0.0;
    assert (k - 1.0) * x == k * x - x;
  }

  lemma SubtractQuotients(a: real, b: real, d: real)
    requires d > 0.0
    ensures (1.0 - a / d) - (1.0 - (b + a) / d) == b / d
  {}

  /** Between the fastest and the floor, the score is the logarithm of the ratio. */
  lemma RttScoreIs(ln: real -> real, us: real, fastest: real)
    requires IsLn(ln) && EPSILON < fastest <= us <= RTT_RATIO_FLOOR * fastest
    ensures ln(RTT_RATIO_FLOOR) > 0.0
    ensures RttScore(ln, us, fastest) == 1.0 - (ln(us) - ln(fastest)) / ln(RTT_RATIO_FLOOR)
  {
    var floor := RTT_RATIO_FLOOR;
    LnPositive(ln, floor);
    LnRatio(ln, us, fastest);
    RatioBetween(us, fastest, floor);
    var ratio := us / fastest;
    LnPositive(ln, ratio);
    assert ratio < floor ==> ln(ratio) < ln(floor);
    Quotient(ln(ratio), ln(floor));
  }

  lemma RatioBetween(us: real, fastest: real, floor: real)
    requires 0.0 < fastest <= us <= floor * fastest
    ensures 1.0 <= us / fastest <= floor
  {
    var q := us / fastest;
    assert q * fastest == us;
    assert (q - 1.0) * fastest == us - fastest && (floor - q) * fastest == floor * fastest - us;
    SignOf(q - 1.0, fastest);
    SignOf(floor - q, fastest);
  }

  lemma SignOf(x: real, d: real)
    requires d > 0.0 && x * d >= 0.0
    ensures x >= 0.0
  {}

  /** The ends of the two logarithmic scales. */
  lemma ScaleEnds(ln: real -> real, fastest: real, target: nat)
    requires IsLn(ln) && fastest > EPSILON && target > 0
    ensures RttScore(ln, fastest, fastest) == 1.0
    ensures RttScore(ln, 20.0 * fastest, fastest) == 0.0
    ensures HeadroomScore(ln, target, target as real) == 1.0
    ensures HeadroomScore(ln, 0, target as real) == 0.0
  {
    Grows(RTT_RATIO_FLOOR, fastest);
    RttScoreIs(ln, fastest, fastest);
    FloorScoresZero(ln, fastest);
    HeadroomEnds(ln, target);
  }

  lemma FloorScoresZero(ln: real -> real, fastest: real)
    requires IsLn(ln) && fastest > EPSILON
    ensures RttScore(ln, RTT_RATIO_FLOOR * fastest, fastest) == 0.0
  {
    Grows(RTT_RATIO_FLOOR, fastest);
    RttScoreIs(ln, RTT_RATIO_FLOOR * fastest, fastest);
    LnProduct(ln, RTT_RATIO_FLOOR, fastest, RTT_RATIO_FLOOR * fastest);
    Itself(ln(RTT_RATIO_FLOOR));
  }

  lemma Itself(x: real)
    requires x > 0.0
    ensures x / x == 1.0 && 0.0 / x == 0.0
  {}

  lemma HeadroomEnds(ln: real -> real, target: nat)
    requires IsLn(ln) && target > 0
    ensures HeadroomScore(ln, target, target as real) == 1.0
    ensures HeadroomScore(ln, 0, target as real) == 0.0
  {
    LnPositive(ln, 2.0);
    Itself(target as real);
    Itself(ln(2.0));
  }

  // ---- what the ranking does not depend on -----------------------------------

  lemma FastestSame(a: seq<Reach>, b: seq<Reach>)
    requires a != [] && b != []
    requires forall r :: r in a ==> r in b
    requires forall r :: r in b ==> r in a || Fastest(a) <= Micros(r.rtt)
    ensures Fastest(a) == Fastest(b)
  {}

  predicate Apart(rs: seq<Reach>) {
    forall i, j :: 0 <= i < j < |rs| ==> rs[i].server.name != rs[j].server.name
  }

  lemma ScoredApart(s: Scoring, f: real, rs: seq<Reach>)
    requires Apart(rs)
    ensures var all := Map(Scorer(s, f), rs);
      Antisymmetric(Order(), all)
  {
    var all := Map(Scorer(s, f), rs);
    forall a, b | a in all && b in all && Order()(a, b) && Order()(b, a) ensures a == b {
      TiedAmong(s, f, rs, a, b);
    }
  }

  lemma TiedAmong(s: Scoring, f: real, rs: seq<Reach>, a: Scored, b: Scored)
    requires Apart(rs) && a in Map(Scorer(s, f), rs) && b in Map(Scorer(s, f), rs)
    requires Before(a, b) && Before(b, a)
    ensures a == b
  {
    var all := Map(Scorer(s, f), rs);
    var i :| 0 <= i < |all| && all[i] == a;
    var j :| 0 <= j < |all| && all[j] == b;
    TiedIsSame(s, f, rs, i, j);
  }

  lemma TiedIsSame(s: Scoring, f: real, rs: seq<Reach>, i: nat, j: nat)
    requires Apart(rs) && i < |rs| && j < |rs|
    requires Before(Scorer(s, f)(rs[i]), Scorer(s, f)(rs[j])) && Before(Scorer(s, f)(rs[j]), Scorer(s, f)(rs[i]))
    ensures i == j
  {
    SameName(Scorer(s, f)(rs[i]), Scorer(s, f)(rs[j]));
  }

  lemma SameName(a: Scored, b: Scored)
    requires Before(a, b) && Before(b, a)
    ensures a.server.name == b.server.name
  {
    TextTotal(a.server.name, b.server.name);
  }

  lemma {:induction false} ReachableApart(ms: seq<Measured>)
    requires DistinctServers(ms)
    ensures Apart(Reachable(ms))
  {
    if ms != [] {
      var m, rest := ms[0], ms[1..];
      assert forall i :: 0 <= i < |rest| ==> rest[i] == ms[i + 1];
      ReachableApart(rest);
      ReachableMembers(rest);
      var r := Reachable(rest);
      forall k | 0 <= k < |r| ensures r[k].server.name != m.server.name {
        assert r[k] in r;
        var i :| 0 <= i < |rest| && IsTimingOf(r[k], rest[i]);
        assert ms[i + 1] == rest[i];
      }
      ReachableAppend([m], rest);
      assert ms == [m] + rest && [m][1..] == [];
      assert Reachable(ms) == (if m.rtt.Some? then [Timing()(m)] else []) + r;
    }
  }

  /** The order in which servers were measured makes no difference. */
  lemma RankIgnoresInputOrder(a: seq<Measured>, b: seq<Measured>, s: Scoring)
    requires DistinctServers(a) && multiset(a) == multiset(b)
    ensures Rank(a, s) == Rank(b, s)
  {
    var x, y := Reachable(a), Reachable(b);
    ReachablePermutes(a, b);
    SameElements(x, y);
    if x != [] {
      FastestSame(x, y);
      var f := Scorer(s, Fastest(x));
      MapPermutes(f, x, y);
      RankIsSortedPermutation(a, s);
      RankIsSortedPermutation(b, s);
      ReachableApart(a);
      ScoredApart(s, Fastest(x), x);
      AntisymmetricSame(Order(), Map(f, x), Rank(a, s));
      SortedUnique(Order(), Rank(a, s), Rank(b, s));
    }
  }

  /** A scored server that was among `ms`. */
  function From(ms: seq<Measured>): Scored -> bool {
    (r: Scored) => exists i :: 0 <= i < |ms| && ms[i].server.name == r.server.name
  }

  lemma OwnScores(ms: seq<Measured>, extra: seq<Measured>, s: Scoring, f: real)
    requires DistinctServers(ms + extra)
    ensures forall r :: r in Map(Scorer(s, f), Reachable(ms)) ==> From(ms)(r)
    ensures forall r :: r in Map(Scorer(s, f), Reachable(extra)) ==> !From(ms)(r)
  {
    var x, e := Reachable(ms), Reachable(extra);
    var sx, se := Map(Scorer(s, f), x), Map(Scorer(s, f), e);
    ReachableMembers(ms);
    ReachableMembers(extra);
    forall r | r in sx ensures From(ms)(r) {
      var i :| 0 <= i < |sx| && sx[i] == r;
      assert x[i] in x;
    }
    forall r | r in se ensures !From(ms)(r) {
      var i :| 0 <= i < |se| && se[i] == r;
      assert e[i] in e;
      var j :| 0 <= j < |extra| && IsTimingOf(e[i], extra[j]);
      assert (ms + extra)[|ms| + j] == extra[j];
      assert forall k :: 0 <= k < |ms| ==> (ms + extra)[k] == ms[k];
    }
  }

  lemma KeptScores(ms: seq<Measured>, extra: seq<Measured>, s: Scoring, f: real)
    requires DistinctServers(ms + extra)
    ensures Keep(From(ms), Map(Scorer(s, f), Reachable(ms + extra))) == Map(Scorer(s, f), Reachable(ms))
  {
    var x, e := Reachable(ms), Reachable(extra);
    var sx, se := Map(Scorer(s, f), x), Map(Scorer(s, f), e);
    ReachableAppend(ms, extra);
    MapAppend(Scorer(s, f), x, e);
    OwnScores(ms, extra, s, f);
    KeepAppend(From(ms), sx, se);
    KeepAll(From(ms), sx);
    KeepNone(From(ms), se);
    assert sx + [] == sx;
  }

  lemma LeaderKept(ms: seq<Measured>, extra: seq<Measured>)
    requires Reachable(ms) != []
    requires forall m :: m in extra && m.rtt.Some? ==> Micros(m.rtt.value) >= Fastest(Reachable(ms))
    ensures Reachable(ms + extra) != [] && Fastest(Reachable(ms + extra)) == Fastest(Reachable(ms))
  {
    ReachableAppend(ms, extra);
    ReachableMembers(extra);
    FastestSame(Reachable(ms), Reachable(ms) + Reachable(extra));
  }

  /** Candidates no faster than the leader change no existing score and no existing order. */
  lemma SlowerCandidatesChangeNothing(ms: seq<Measured>, extra: seq<Measured>, s: Scoring)
    requires DistinctServers(ms + extra) && Reachable(ms) != []
    requires forall m :: m in extra && m.rtt.Some? ==> Micros(m.rtt.value) >= Fastest(Reachable(ms))
    ensures Keep(From(ms), Rank(ms + extra, s)) == Rank(ms, s)
  {
    LeaderKept(ms, extra);
    var f := Fastest(Reachable(ms));
    var all, own := Map(Scorer(s, f), Reachable(ms + extra)), Map(Scorer(s, f), Reachable(ms));
    var big, small := Rank(ms + extra, s), Rank(ms, s);
    RankIsSortedPermutation(ms + extra, s);
    RankIsSortedPermutation(ms, s);
    KeptScores(ms, extra, s, f);
    KeepPermutes(From(ms), big, all);
    KeepSorted(Order(), From(ms), big);
    RankedApart(ms, extra, s, f);
    AntisymmetricSame(Order(), own, small);
    SortedUnique(Order(), small, Keep(From(ms), big));
  }

  lemma RankedApart(ms: seq<Measured>, extra: seq<Measured>, s: Scoring, f: real)
    requires DistinctServers(ms + extra)
    ensures var own := Map(Scorer(s, f), Reachable(ms));
      Antisymmetric(Order(), own)
  {
    assert forall i :: 0 <= i < |ms| ==> (ms + extra)[i] == ms[i];
    ReachableApart(ms);
    ScoredApart(s, f, Reachable(ms));
  }

  function ScoredName(): Scored -> string {
    (r: Scored) => r.server.name
  }

  /** What an entry of a ranking was measured as. */
  function MeasuredAs(r: Scored): Measured {
    Measured(r.server, r.endpoint, r.entry, Some(r.rtt))
  }

  /** Every ranked server was measured, with that timing at that endpoint. */
  lemma RankMembers(ms: seq<Measured>, s: Scoring)
    ensures forall r :: r in Rank(ms, s) ==> exists i :: 0 <= i < |ms| && ms[i] == MeasuredAs(r)
    ensures Rank(ms, s) == [] <==> Reachable(ms) == []
  {
    var reach := Reachable(ms);
    RankIsSortedPermutation(ms, s);
    if reach != [] {
      var all := Map(Scorer(s, Fastest(reach)), reach);
      SameElements(Rank(ms, s), all);
      ReachableMembers(ms);
      forall r | r in Rank(ms, s) ensures exists i :: 0 <= i < |ms| && ms[i] == MeasuredAs(r) {
        var k :| 0 <= k < |all| && all[k] == r;
        assert reach[k] in reach;
        var i :| 0 <= i < |ms| && IsTimingOf(reach[k], ms[i]);
        assert ms[i] == MeasuredAs(r);
      }
    }
  }

  lemma ScoredDistinct(ms: seq<Measured>, s: Scoring, f: real)
    requires DistinctServers(ms)
    ensures DistinctBy(ScoredName(), Map(Scorer(s, f), Reachable(ms)))
  {
    ReachableApart(ms);
  }

  /** Servers with distinct names are ranked with distinct names. */
  lemma RankDistinct(ms: seq<Measured>, s: Scoring)
    requires DistinctServers(ms)
    ensures DistinctBy(ScoredName(), Rank(ms, s))
  {
    var reach := Reachable(ms);
    RankIsSortedPermutation(ms, s);
    if reach != [] {
      ScoredDistinct(ms, s, Fastest(reach));
      DistinctPermutes(ScoredName(), Map(Scorer(s, Fastest(reach)), reach), Rank(ms, s));
    }
  }
}
