/** Timing servers by handshakes: one probe and its median, many probes sharing a
    limited number of permits, and a sweep over every entry of every server. What a
    handshake comes to is arbitrary input. */
module Probe {
  import opened Wrappers
  import opened Address
  import opened Sorting
  import opened Servers
  import Score

  datatype Outcome =
    | Reachable
    | RateLimited
    | Unreachable
    | Rejected(reason: string)
    | Failed(reason: string)
    | SkippedConnected
  {
    predicate Usable() {
      Reachable? || RateLimited?
    }
  }

  datatype ProbeResult = ProbeResult(endpoint: SocketAddr, rtt: Option<nat>, samples: seq<nat>, outcome: Outcome)

  /** A handshake gives a time with a usable outcome, or an outcome that is not. */
  type Handshake = Result<(nat, Outcome), Outcome>

  predicate Plausible(h: Handshake) {
    match h
    case Ok((_, o)) => o.Usable()
    case Err(o) => !o.Usable() && !o.SkippedConnected?
  }

  // ---- the median ------------------------------------------------------------

  function AtMost(): (nat, nat) -> bool {
    (a: nat, b: nat) => a <= b
  }

  function Below(m: nat): nat -> bool {
    (x: nat) => x < m
  }

  function UpTo(m: nat): nat -> bool {
    (x: nat) => x <= m
  }

  /** The lower middle of the sorted samples. */
  function Median(samples: seq<nat>): Option<nat> {
    if samples == [] then None
    else
      SortPermutes(AtMost(), samples);
      SameElements(Sort(AtMost(), samples), samples);
      Some(Sort(AtMost(), samples)[(|samples| - 1) / 2])
  }

  /** A lower median: no more than half the samples less one are below it, more are up to it. */
  predicate IsLowerMedian(m: nat, samples: seq<nat>) {
    m in samples && |Keep(Below(m), samples)| <= (|samples| - 1) / 2 < |Keep(UpTo(m), samples)|
  }

  lemma {:induction false} KeepShortens<T>(p: T -> bool, xs: seq<T>)
    ensures |Keep(p, xs)| <= |xs|
  {
    if xs != [] {
      KeepShortens(p, xs[1..]);
    }
  }

  lemma {:induction false} KeepWider(p: nat -> bool, q: nat -> bool, xs: seq<nat>)
    requires forall x :: p(x) ==> q(x)
    ensures |Keep(p, xs)| <= |Keep(q, xs)|
  {
    if xs != [] {
      KeepWider(p, q, xs[1..]);
    }
  }

  lemma RankInSorted(s: seq<nat>, k: nat)
    requires Sorted(AtMost(), s) && k < |s|
    ensures |Keep(Below(s[k]), s)| <= k < |Keep(UpTo(s[k]), s)|
  {
    var m := s[k];
    forall i, j | 0 <= i < j < |s| ensures s[i] <= s[j] {
      assert AtMost()(s[i], s[j]);
    }
    assert s == s[..k] + s[k..] && s == s[..k + 1] + s[k + 1..];
    KeepAppend(Below(m), s[..k], s[k..]);
    KeepShortens(Below(m), s[..k]);
    KeepNone(Below(m), s[k..]);
    KeepAppend(UpTo(m), s[..k + 1], s[k + 1..]);
    KeepAll(UpTo(m), s[..k + 1]);
  }

  lemma SameCount(p: nat -> bool, xs: seq<nat>, ys: seq<nat>)
    requires multiset(xs) == multiset(ys)
    ensures |Keep(p, xs)| == |Keep(p, ys)|
  {
    KeepPermutes(p, xs, ys);
    SameElements(Keep(p, xs), Keep(p, ys));
  }

  /** The median is an observed sample of the right rank, and the only one, whatever the order. */
  lemma MedianExactly(samples: seq<nat>, m: nat)
    ensures Median(samples) == Some(m) <==> IsLowerMedian(m, samples)
  {
    if samples != [] {
      var s, k := Sort(AtMost(), samples), (|samples| - 1) / 2;
      SortPermutes(AtMost(), samples);
      SortSorted(AtMost(), samples);
      SameElements(s, samples);
      RankInSorted(s, k);
      SameCount(Below(s[k]), s, samples);
      SameCount(UpTo(s[k]), s, samples);
      assert s[k] in s;
      if m < s[k] {
        KeepWider(UpTo(m), Below(s[k]), samples);
      } else if m > s[k] {
        KeepWider(UpTo(s[k]), Below(m), samples);
      }
    }
  }

  // ---- one probe -------------------------------------------------------------

  function Times(hs: seq<Handshake>): seq<nat> {
    if hs == [] then [] else (if hs[0].Ok? then [hs[0].value.0] else []) + Times(hs[1..])
  }

  lemma {:induction false} TimesAppend(a: seq<Handshake>, b: seq<Handshake>)
    ensures Times(a + b) == Times(a) + Times(b)
    ensures |b| == 1 ==> Times(b) == if b[0].Ok? then [b[0].value.0] else []
  {
    if a == [] {
      assert a + b == b;
    } else {
      TimesAppend(a[1..], b);
      assert (a + b)[0] == a[0] && (a + b)[1..] == a[1..] + b;
      Associative(if a[0].Ok? then [a[0].value.0] else [], Times(a[1..]), Times(b));
    }
  }

  lemma {:induction false} TimesEmpty(hs: seq<Handshake>)
    ensures Times(hs) == [] <==> forall i :: 0 <= i < |hs| ==> hs[i].Err?
  {
    if hs != [] {
      TimesEmpty(hs[1..]);
      assert forall i :: 0 <= i < |hs[1..]| ==> hs[1..][i] == hs[i + 1];
    }
  }

  /** What so many handshakes establish: a clean one outdoes a cookie, which outdoes silence;
      with no time at all the last failure stands. */
  ghost predicate Establishes(hs: seq<Handshake>, o: Outcome) {
    && (o.Reachable? <==> exists i :: 0 <= i < |hs| && hs[i].Ok? && hs[i].value.1.Reachable?)
    && (o.Usable() <==> exists i :: 0 <= i < |hs| && hs[i].Ok?)
    && (!o.Usable() ==> o == if hs == [] then Unreachable else hs[|hs| - 1].error)
  }

  /** One more handshake: a time counts unless a clean one came before, a failure only while there is no time. */
  lemma OneMoreHandshake(hs: seq<Handshake>, h: Handshake, o: Outcome, o': Outcome)
    requires Establishes(hs, o) && Plausible(h)
    requires o' == match h
      case Ok((_, came)) => if o.Reachable? then o else came
      case Err(came) => if Times(hs) == [] then came else o
    ensures Establishes(hs + [h], o')
  {
    var all := hs + [h];
    TimesEmpty(hs);
    assert all[|hs|] == h;
    assert forall j :: 0 <= j < |hs| ==> all[j] == hs[j];
  }

  /** Probe one server: a timing exactly when the outcome is usable, and that timing the lower
      median of the handshakes that answered. */
  method ProbeOne(endpoint: SocketAddr, excluded: Option<SocketAddr>, hs: seq<Handshake>) returns (r: ProbeResult)
    requires forall i :: 0 <= i < |hs| ==> Plausible(hs[i])
    ensures r.endpoint == endpoint
    ensures excluded == Some(endpoint) ==> r.rtt.None? && r.samples == [] && r.outcome.SkippedConnected?
    ensures excluded != Some(endpoint) ==> r.samples == Times(hs) && Establishes(hs, r.outcome)
    ensures r.rtt == Median(r.samples)
    ensures r.rtt.Some? <==> r.outcome.Usable()
  {
    if excluded == Some(endpoint) {
      return ProbeResult(endpoint, None, [], SkippedConnected);
    }
    var samples: seq<nat>, outcome := [], Unreachable;
    for i := 0 to |hs|
      invariant samples == Times(hs[..i]) && Establishes(hs[..i], outcome)
    {
      TimesAppend(hs[..i], [hs[i]]);
      assert hs[..i + 1] == hs[..i] + [hs[i]];
      ghost var before := outcome;
      match hs[i] {
        case Ok((rtt, o)) =>
          samples := samples + [rtt];
          if outcome != Reachable {
            outcome := o;
          }
        case Err(o) =>
          if samples == [] {
            outcome := o;
          }
      }
      OneMoreHandshake(hs[..i], hs[i], before, outcome);
    }
    assert hs[..|hs|] == hs;
    TimesEmpty(hs);
    r := ProbeResult(endpoint, Median(samples), samples, outcome);
  }

  // ---- many probes -----------------------------------------------------------

  /** A spawned probe: waiting for a permit, holding one, or ended, perhaps by a panic. */
  datatype Job = Waiting | Running | Done(came: Option<ProbeResult>)

  datatype Pool = Pool(free: nat, jobs: seq<Job>)
  {
    ghost predicate AllDone() {
      forall i :: 0 <= i < |jobs| ==> jobs[i].Done?
    }
  }

  /** A job takes a permit, or ends with what its probe came to and gives the permit back. */
  datatype Move = Acquire(i: nat) | Finish(i: nat, came: Option<ProbeResult>)

  function Spawned(n: nat, concurrency: nat): Pool {
    Pool(concurrency, seq(n, i => Waiting))
  }

  predicate CanMove(p: Pool, m: Move) {
    match m
    case Acquire(i) => i < |p.jobs| && p.jobs[i].Waiting? && p.free > 0
    case Finish(i, _) => i < |p.jobs| && p.jobs[i].Running?
  }

  function Moved(p: Pool, m: Move): Pool
    requires CanMove(p, m)
  {
    match m
    case Acquire(i) => Pool(p.free - 1, p.jobs[i := Running])
    case Finish(i, came) => Pool(p.free + 1, p.jobs[i := Done(came)])
  }

  ghost predicate IsSchedule(ps: seq<Pool>, moves: seq<Move>) {
    |ps| == |moves| + 1
    && forall i :: 0 <= i < |moves| ==> CanMove(ps[i], moves[i]) && ps[i + 1] == Moved(ps[i], moves[i])
  }

  /** A schedule that started with every probe waiting and ended with every probe done. */
  ghost predicate IsComplete(ps: seq<Pool>, moves: seq<Move>, n: nat, concurrency: nat) {
    IsSchedule(ps, moves) && ps[0] == Spawned(n, concurrency) && ps[|moves|].AllDone()
  }

  function IsRunning(): Job -> bool {
    (t: Job) => t.Running?
  }

  function IsWaiting(): Job -> bool {
    (t: Job) => t.Waiting?
  }

  function InFlight(p: Pool): nat {
    |Keep(IsRunning(), p.jobs)|
  }

  /** Moves left: two for a job that waits, one for one that runs. */
  function MovesLeft(p: Pool): nat {
    2 * |Keep(IsWaiting(), p.jobs)| + InFlight(p)
  }

  lemma CountAfter<T>(p: T -> bool, xs: seq<T>, i: nat, x: T)
    requires i < |xs|
    ensures |Keep(p, xs[i := x])| == |Keep(p, xs)| - (if p(xs[i]) then 1 else 0) + (if p(x) then 1 else 0)
  {
    var a, b := xs[..i], xs[i + 1..];
    assert xs == a + ([xs[i]] + b) && xs[i := x] == a + ([x] + b);
    KeepAppend(p, a, [xs[i]] + b);
    KeepAppend(p, a, [x] + b);
    KeepCons(p, xs[i], b);
    KeepCons(p, x, b);
  }

  ghost predicate PoolInv(p: Pool, n: nat, concurrency: nat) {
    |p.jobs| == n && InFlight(p) + p.free == concurrency
  }

  lemma SpawnedInv(n: nat, concurrency: nat)
    ensures PoolInv(Spawned(n, concurrency), n, concurrency) && MovesLeft(Spawned(n, concurrency)) == 2 * n
  {
    KeepNone(IsRunning(), Spawned(n, concurrency).jobs);
    KeepAll(IsWaiting(), Spawned(n, concurrency).jobs);
  }

  lemma MoveKeeps(p: Pool, m: Move, n: nat, concurrency: nat)
    requires PoolInv(p, n, concurrency) && CanMove(p, m)
    ensures PoolInv(Moved(p, m), n, concurrency) && MovesLeft(Moved(p, m)) == MovesLeft(p) - 1
  {
    var t := if m.Acquire? then Running else Done(m.came);
    CountAfter(IsRunning(), p.jobs, m.i, t);
    CountAfter(IsWaiting(), p.jobs, m.i, t);
  }

  /** Under every schedule: never more probes in flight than permits, and two moves a probe in all. */
  lemma {:induction false} EverySchedule(ps: seq<Pool>, moves: seq<Move>, n: nat, concurrency: nat, i: nat)
    requires IsSchedule(ps, moves) && ps[0] == Spawned(n, concurrency) && i < |ps|
    ensures PoolInv(ps[i], n, concurrency) && InFlight(ps[i]) <= concurrency
    ensures MovesLeft(ps[i]) == 2 * n - i
  {
    if i == 0 {
      SpawnedInv(n, concurrency);
    } else {
      EverySchedule(ps, moves, n, concurrency, i - 1);
      MoveKeeps(ps[i - 1], moves[i - 1], n, concurrency);
    }
  }

  predicate Ready(p: Pool, i: int) {
    0 <= i < |p.jobs| && (p.jobs[i].Running? || (p.jobs[i].Waiting? && p.free > 0))
  }

  /** A schedule can stop only when every probe has ended, as long as there is a permit at all. */
  lemma NeverStuck(p: Pool, n: nat, concurrency: nat)
    requires PoolInv(p, n, concurrency) && concurrency > 0
    ensures p.AllDone() <==> forall m :: !CanMove(p, m)
    ensures p.AllDone() <==> forall i :: !Ready(p, i)
  {
    if !p.AllDone() {
      if InFlight(p) > 0 {
        KeepMembers(IsRunning(), p.jobs);
        assert Keep(IsRunning(), p.jobs)[0] in p.jobs;
        var i :| 0 <= i < n && p.jobs[i].Running?;
        assert Ready(p, i) && CanMove(p, Finish(i, None));
      } else {
        var i :| 0 <= i < n && !p.jobs[i].Done?;
        assert Ready(p, i);
        if p.jobs[i].Running? {
          assert CanMove(p, Finish(i, None));
        } else {
          assert CanMove(p, Acquire(i));
        }
      }
    }
  }

  /** What is reported for a probe; one that panicked is a failure at its own endpoint. */
  function Reported(endpoint: SocketAddr, came: Option<ProbeResult>): ProbeResult {
    if came.Some? then came.value else ProbeResult(endpoint, None, [], Failed("probe panicked"))
  }

  method Collect(jobs: seq<Job>, endpoints: seq<SocketAddr>) returns (out: seq<ProbeResult>)
    requires |jobs| == |endpoints| && forall i :: 0 <= i < |jobs| ==> jobs[i].Done?
    ensures |out| == |endpoints|
    ensures forall i :: 0 <= i < |out| ==> out[i] == Reported(endpoints[i], jobs[i].came)
  {
    out := [];
    for i := 0 to |jobs|
      invariant |out| == i && forall j :: 0 <= j < i ==> out[j] == Reported(endpoints[j], jobs[j].came)
    {
      out := out + [Reported(endpoints[i], jobs[i].came)];
    }
  }

  /** What a probe of `endpoint` may come to, its timing being the median of its samples; see `ProbeOne`. */
  ghost predicate Genuine(endpoint: SocketAddr, excluded: Option<SocketAddr>, r: ProbeResult) {
    && r.endpoint == endpoint && r.rtt == Median(r.samples) && (r.rtt.Some? <==> r.outcome.Usable())
    && (excluded == Some(endpoint) ==> r.rtt.None?)
  }

  /** Probe every endpoint under any schedule, handshakes coming to anything they can. */
  method ProbeMany(endpoints: seq<SocketAddr>, excluded: Option<SocketAddr>, samples: nat, concurrency: nat)
    returns (out: seq<ProbeResult>, ghost ps: seq<Pool>, ghost moves: seq<Move>)
    requires concurrency > 0
    ensures IsComplete(ps, moves, |endpoints|, concurrency) && |ps[|moves|].jobs| == |endpoints| == |out|
    ensures forall i :: 0 <= i < |out| ==> out[i] == Reported(endpoints[i], ps[|moves|].jobs[i].came)
    ensures forall i :: 0 <= i < |out| ==> Genuine(endpoints[i], excluded, out[i])
  {
    var pool := Spawned(|endpoints|, concurrency);
    ps, moves := [pool], [];
    SpawnedInv(|endpoints|, concurrency);
    while exists i :: 0 <= i < |pool.jobs| && !pool.jobs[i].Done?
      invariant PoolInv(pool, |endpoints|, concurrency)
      invariant IsSchedule(ps, moves) && ps[0] == Spawned(|endpoints|, concurrency) && ps[|moves|] == pool
      invariant forall i :: 0 <= i < |pool.jobs| && pool.jobs[i].Done? ==>
        Genuine(endpoints[i], excluded, Reported(endpoints[i], pool.jobs[i].came))
      decreases MovesLeft(pool)
    {
      NeverStuck(pool, |endpoints|, concurrency);
      var i :| Ready(pool, i);
      var move := Acquire(i);
      if pool.jobs[i].Running? {
        var came := RunProbe(endpoints[i], excluded, samples);
        move := Finish(i, came);
      }
      MoveKeeps(pool, move, |endpoints|, concurrency);
      pool := Moved(pool, move);
      ps, moves := ps + [pool], moves + [move];
    }
    out := Collect(pool.jobs, endpoints);
  }

  /** One probe within the pool, which may panic. */
  method RunProbe(endpoint: SocketAddr, excluded: Option<SocketAddr>, samples: nat) returns (came: Option<ProbeResult>)
    ensures Genuine(endpoint, excluded, Reported(endpoint, came))
  {
    var panics := *;
    if panics {
      came := None;
    } else {
      var silence: Handshake := Err(Unreachable);
      assert |seq(samples, _ => silence)| == samples;
      var hs: seq<Handshake> :| |hs| == samples && forall i :: 0 <= i < |hs| ==> Plausible(hs[i]);
      var r := ProbeOne(endpoint, excluded, hs);
      came := Some(r);
    }
  }

  /** A job done holds what it finished with. */
  lemma {:induction false} DoneByFinish(ps: seq<Pool>, moves: seq<Move>, n: nat, concurrency: nat, t: nat, i: nat)
    requires IsSchedule(ps, moves) && ps[0] == Spawned(n, concurrency) && t < |ps| && i < |ps[t].jobs|
    requires ps[t].jobs[i].Done?
    ensures Finish(i, ps[t].jobs[i].came) in moves
  {
    assert t > 0;
    var m := moves[t - 1];
    assert m in moves;
    if m != Finish(i, ps[t].jobs[i].came) {
      DoneByFinish(ps, moves, n, concurrency, t - 1, i);
    }
  }

  /** And keeps it to the end. */
  lemma {:induction false} DoneStays(ps: seq<Pool>, moves: seq<Move>, j: nat, t: nat)
    requires IsSchedule(ps, moves) && j < t < |ps| && moves[j].Finish?
    ensures moves[j].i < |ps[t].jobs| && ps[t].jobs[moves[j].i] == Done(moves[j].came)
  {
    if j < t - 1 {
      DoneStays(ps, moves, j, t - 1);
    }
  }

  /** Two complete schedules in which every probe comes to the same give the same results, in the order of the
      endpoints, however they interleave and whatever their permits; and each has two moves a probe. */
  lemma OrderDoesNotMatter(ps: seq<Pool>, moves: seq<Move>, qs: seq<Pool>, others: seq<Move>, n: nat, c: nat, d: nat)
    requires IsComplete(ps, moves, n, c) && IsComplete(qs, others, n, d)
    requires forall m :: m in moves && m.Finish? ==> m in others
    ensures ps[|moves|].jobs == qs[|others|].jobs && |moves| == |others| == 2 * n
  {
    EverySchedule(ps, moves, n, c, |moves|);
    EverySchedule(qs, others, n, d, |others|);
    NothingLeft(ps[|moves|]);
    NothingLeft(qs[|others|]);
    forall i | 0 <= i < n ensures ps[|moves|].jobs[i] == qs[|others|].jobs[i] {
      DoneByFinish(ps, moves, n, c, |moves|, i);
      var m := Finish(i, ps[|moves|].jobs[i].came);
      assert m in others;
      var j :| 0 <= j < |others| && others[j] == m;
      DoneStays(qs, others, j, |others|);
    }
  }

  lemma NothingLeft(p: Pool)
    requires p.AllDone()
    ensures MovesLeft(p) == 0
  {
    KeepNone(IsRunning(), p.jobs);
    KeepNone(IsWaiting(), p.jobs);
  }

  // ---- a sweep ---------------------------------------------------------------

  /** One probe of a sweep: which server it is for, by which entry. */
  datatype Shot = Shot(owner: nat, entry: nat, endpoint: SocketAddr)

  /** Every WireGuard endpoint of a server worth probing, in the order of the entries asked for. */
  function ShotsAt(owner: nat, server: Server, entries: seq<nat>, port: nat): seq<Shot> {
    if entries == [] then []
    else
      var e := server.EndpointForEntry(entries[0], port);
      (if e.Some? then [Shot(owner, entries[0], e.value)] else []) + ShotsAt(owner, server, entries[1..], port)
  }

  function Shots(servers: seq<Server>, entries: seq<nat>, port: nat): seq<Shot> {
    if servers == [] then []
    else
      var last := |servers| - 1;
      Shots(servers[..last], entries, port) + ShotsAt(last, servers[last], entries, port)
  }

  function For(owner: nat): Shot -> bool {
    (s: Shot) => s.owner == owner
  }

  lemma {:induction false} ShotsAtOwned(owner: nat, server: Server, entries: seq<nat>, port: nat, other: nat)
    ensures Keep(For(other), ShotsAt(owner, server, entries, port)) ==
      if owner == other then ShotsAt(owner, server, entries, port) else []
  {
    if entries != [] {
      ShotsAtOwned(owner, server, entries[1..], port, other);
      var e := server.EndpointForEntry(entries[0], port);
      if e.Some? {
        KeepCons(For(other), Shot(owner, entries[0], e.value), ShotsAt(owner, server, entries[1..], port));
      } else {
        assert ShotsAt(owner, server, entries, port) == ShotsAt(owner, server, entries[1..], port);
      }
    }
  }

  /** Regrouping undoes flattening: the shots for a server are its endpoints, in the order of the entries. */
  lemma {:induction false} ShotsRegroup(servers: seq<Server>, entries: seq<nat>, port: nat, owner: nat)
    requires owner < |servers|
    ensures Keep(For(owner), Shots(servers, entries, port)) == ShotsAt(owner, servers[owner], entries, port)
  {
    var last := |servers| - 1;
    var init := servers[..last];
    ShotsAtOwned(last, servers[last], entries, port, owner);
    KeepAppend(For(owner), Shots(init, entries, port), ShotsAt(last, servers[last], entries, port));
    if owner < last {
      ShotsRegroup(init, entries, port, owner);
    } else {
      ShotsBelow(init, entries, port);
      KeepNone(For(owner), Shots(init, entries, port));
    }
  }

  lemma {:induction false} ShotsBelow(servers: seq<Server>, entries: seq<nat>, port: nat)
    ensures forall i :: 0 <= i < |Shots(servers, entries, port)| ==> Shots(servers, entries, port)[i].owner < |servers|
  {
    if servers != [] {
      var last := |servers| - 1;
      ShotsBelow(servers[..last], entries, port);
      ShotsAtBelow(last, servers[last], entries, port);
    }
  }

  lemma {:induction false} ShotsAtBelow(owner: nat, server: Server, entries: seq<nat>, port: nat)
    ensures forall i :: 0 <= i < |ShotsAt(owner, server, entries, port)| ==>
      ShotsAt(owner, server, entries, port)[i].owner == owner
  {
    if entries != [] {
      ShotsAtBelow(owner, server, entries[1..], port);
    }
  }

  method Flatten(servers: seq<Server>, entries: seq<nat>, port: nat) returns (shots: seq<Shot>)
    ensures shots == Shots(servers, entries, port)
  {
    shots := [];
    for index := 0 to |servers|
      invariant shots == Shots(servers[..index], entries, port)
    {
      ghost var before := shots;
      var server := servers[index];
      assert entries[0..] == entries;
      for k := 0 to |entries|
        invariant before + ShotsAt(index, server, entries, port) == shots + ShotsAt(index, server, entries[k..], port)
      {
        assert entries[k..][0] == entries[k] && entries[k..][1..] == entries[k + 1..];
        var e := server.EndpointForEntry(entries[k], port);
        if e.Some? {
          Associative(shots, [Shot(index, entries[k], e.value)], ShotsAt(index, server, entries[k + 1..], port));
          shots := shots + [Shot(index, entries[k], e.value)];
        }
      }
      assert servers[..index + 1][..index] == servers[..index];
    }
    assert servers[..|servers|] == servers;
  }

  predicate Timed(r: ProbeResult) {
    r.rtt.Some? && r.outcome.Usable()
  }

  /** The fastest usable shot for a server among the first `n`, the earliest of equals. */
  ghost predicate Winner(shots: seq<Shot>, results: seq<ProbeResult>, n: nat, owner: nat, j: int)
    requires n <= |shots| == |results|
  {
    && 0 <= j < n && shots[j].owner == owner && Timed(results[j])
    && forall k :: 0 <= k < n && shots[k].owner == owner && Timed(results[k]) ==>
      results[j].rtt.value <= results[k].rtt.value && (k < j ==> results[j].rtt.value < results[k].rtt.value)
  }

  ghost predicate NoneTimed(shots: seq<Shot>, results: seq<ProbeResult>, n: nat, owner: nat)
    requires n <= |shots| == |results|
  {
    forall k :: 0 <= k < n && shots[k].owner == owner ==> !Timed(results[k])
  }

  datatype Timing = Timing(entry: nat, endpoint: SocketAddr, rtt: nat)

  ghost predicate IsBest(b: Option<Timing>, shots: seq<Shot>, results: seq<ProbeResult>, n: nat, owner: nat)
    requires n <= |shots| == |results|
  {
    match b
    case None => NoneTimed(shots, results, n, owner)
    case Some(t) => exists j :: Winner(shots, results, n, owner, j)
                                && t == Timing(shots[j].entry, results[j].endpoint, results[j].rtt.value)
  }

  lemma BestStep(b: Option<Timing>, shots: seq<Shot>, results: seq<ProbeResult>, n: nat, owner: nat)
    requires n < |shots| == |results| && IsBest(b, shots, results, n, owner)
    ensures shots[n].owner != owner || !Timed(results[n]) || (b.Some? && b.value.rtt <= results[n].rtt.value)
      ==> IsBest(b, shots, results, n + 1, owner)
    ensures shots[n].owner == owner && Timed(results[n]) && (b.None? || results[n].rtt.value < b.value.rtt)
      ==> IsBest(Some(Timing(shots[n].entry, results[n].endpoint, results[n].rtt.value)), shots, results, n + 1, owner)
  {
    if b.Some? {
      var j :| Winner(shots, results, n, owner, j)
               && b.value == Timing(shots[j].entry, results[j].endpoint, results[j].rtt.value);
      if shots[n].owner != owner || !Timed(results[n]) || b.value.rtt <= results[n].rtt.value {
        assert Winner(shots, results, n + 1, owner, j);
      }
    }
    if shots[n].owner == owner && Timed(results[n]) && (b.None? || results[n].rtt.value < b.value.rtt) {
      assert Winner(shots, results, n + 1, owner, n);
    }
  }

  /** The best usable timing of each server. */
  method Regroup(count: nat, shots: seq<Shot>, results: seq<ProbeResult>) returns (best: array<Option<Timing>>)
    requires |shots| == |results| && forall i :: 0 <= i < |shots| ==> shots[i].owner < count
    ensures fresh(best) && best.Length == count
    ensures forall s :: 0 <= s < count ==> IsBest(best[s], shots, results, |shots|, s)
  {
    best := new Option<Timing>[count](_ => None);
    for i := 0 to |shots|
      invariant forall s :: 0 <= s < count ==> IsBest(best[s], shots, results, i, s)
    {
      var index, result := shots[i].owner, results[i];
      forall s | 0 <= s < count {
        BestStep(best[s], shots, results, i, s);
      }
      if Timed(result) {
        var candidate := Timing(shots[i].entry, result.endpoint, result.rtt.value);
        if best[index].None? || result.rtt.value < best[index].value.rtt {
          best[index] := Some(candidate);
        }
      }
    }
  }

  /** What a sweep says of a server. */
  ghost predicate Says(m: Score.Measured, server: Server, owner: nat, entries: seq<nat>, port: nat,
                       shots: seq<Shot>, results: seq<ProbeResult>)
    requires |shots| == |results|
  {
    && m.server == server
    && (m.rtt.None? ==>
          && NoneTimed(shots, results, |shots|, owner)
          && m.endpoint == server.Endpoint(port) && m.entry == if entries == [] then 1 else entries[0])
    && (m.rtt.Some? ==> exists j ::
          && Winner(shots, results, |shots|, owner, j)
          && m == Score.Measured(server, results[j].endpoint, shots[j].entry, results[j].rtt))
  }

  function Endpoints(shots: seq<Shot>): seq<SocketAddr> {
    Map((s: Shot) => s.endpoint, shots)
  }

  /** One result a server, in order: its fastest usable entry, the earliest of equals, among what the
      probes came to under any schedule. */
  method Sweep(servers: seq<Server>, entries: seq<nat>, port: nat, excluded: Option<SocketAddr>, samples: nat,
               concurrency: nat)
    returns (out: seq<Score.Measured>, ghost results: seq<ProbeResult>, ghost ps: seq<Pool>, ghost moves: seq<Move>)
    requires concurrency > 0
    ensures |out| == |servers| && |results| == |Shots(servers, entries, port)|
    ensures IsComplete(ps, moves, |results|, concurrency) && |ps[|moves|].jobs| == |results|
    ensures var shots := Shots(servers, entries, port);
      && (forall i :: 0 <= i < |shots| ==> results[i] == Reported(shots[i].endpoint, ps[|moves|].jobs[i].came))
      && (forall i :: 0 <= i < |shots| ==> Genuine(shots[i].endpoint, excluded, results[i]))
      && (forall s :: 0 <= s < |servers| ==> Says(out[s], servers[s], s, entries, port, shots, results))
  {
    var shots := Flatten(servers, entries, port);
    var answers;
    answers, ps, moves := ProbeMany(Endpoints(shots), excluded, samples, concurrency);
    results := answers;
    ShotsBelow(servers, entries, port);
    var best := Regroup(|servers|, shots, answers);
    out := Summarise(servers, entries, port, best, shots, answers);
  }

  method Summarise(servers: seq<Server>, entries: seq<nat>, port: nat, best: array<Option<Timing>>,
                   ghost shots: seq<Shot>, ghost results: seq<ProbeResult>)
    returns (out: seq<Score.Measured>)
    requires best.Length == |servers| && |shots| == |results|
    requires forall s :: 0 <= s < |servers| ==> IsBest(best[s], shots, results, |shots|, s)
    ensures |out| == |servers|
    ensures forall s :: 0 <= s < |servers| ==> Says(out[s], servers[s], s, entries, port, shots, results)
  {
    out := [];
    for s := 0 to |servers|
      invariant |out| == s
      invariant forall t :: 0 <= t < s ==> Says(out[t], servers[t], t, entries, port, shots, results)
    {
      match best[s]
      case Some(t) => out := out + [Score.Measured(servers[s], t.endpoint, t.entry, Some(t.rtt))];
      case None =>
        var first := if entries == [] then 1 else entries[0];
        out := out + [Score.Measured(servers[s], servers[s].Endpoint(port), first, None)];
    }
  }

  ghost predicate IsEntry(shot: Shot, servers: seq<Server>, entries: seq<nat>, port: nat) {
    && shot.owner < |servers| && shot.entry in entries
    && servers[shot.owner].EndpointForEntry(shot.entry, port) == Some(shot.endpoint)
  }

  lemma {:induction false} ShotsAtEntries(servers: seq<Server>, owner: nat, entries: seq<nat>, port: nat)
    requires owner < |servers|
    ensures forall shot :: shot in ShotsAt(owner, servers[owner], entries, port) ==>
      IsEntry(shot, servers, entries, port)
  {
    if entries != [] {
      ShotsAtEntries(servers, owner, entries[1..], port);
      assert entries[0] in entries && forall e :: e in entries[1..] ==> e in entries;
    }
  }

  lemma {:induction false} ShotsAreEntries(servers: seq<Server>, n: nat, entries: seq<nat>, port: nat)
    requires n <= |servers|
    ensures forall shot :: shot in Shots(servers[..n], entries, port) ==> IsEntry(shot, servers, entries, port)
    decreases n
  {
    if n > 0 {
      ShotsAreEntries(servers, n - 1, entries, port);
      ShotsAtEntries(servers, n - 1, entries, port);
      assert servers[..n][..n - 1] == servers[..n - 1];
    }
  }

  /** Entry 1 is at the primary address, entry 3 at the other one if there is one, and no other entry is WireGuard. */
  predicate EntryAt(server: Server, entry: nat, port: nat, endpoint: SocketAddr) {
    && endpoint.port == port && endpoint.ip.V4?
    && ((entry == 1 && endpoint.ip.n == server.wgIpv4) || (entry == 3 && Some(endpoint.ip.n) == server.wgIpv4Alt))
  }

  /** A timing is of one of the entries asked for, at that entry's own endpoint, and never the excluded one;
      without one, no entry of the server answered. */
  lemma TimingIsOfAnEntry(servers: seq<Server>, entries: seq<nat>, port: nat, results: seq<ProbeResult>,
                          excluded: Option<SocketAddr>, s: nat, m: Score.Measured)
    requires s < |servers| && |results| == |Shots(servers, entries, port)|
    requires var shots := Shots(servers, entries, port);
      && (forall i :: 0 <= i < |shots| ==> Genuine(shots[i].endpoint, excluded, results[i]))
      && Says(m, servers[s], s, entries, port, shots, results)
    ensures m.rtt.Some? ==>
      m.entry in entries && EntryAt(servers[s], m.entry, port, m.endpoint) && excluded != Some(m.endpoint)
    ensures var shots := Shots(servers, entries, port);
      m.rtt.None? <==> forall i :: 0 <= i < |shots| && shots[i].owner == s ==> !results[i].outcome.Usable()
  {
    var shots := Shots(servers, entries, port);
    ShotsAreEntries(servers, |servers|, entries, port);
    assert servers[..|servers|] == servers;
    forall i | 0 <= i < |shots|
      ensures Timed(results[i]) <==> results[i].outcome.Usable()
      ensures Timed(results[i]) ==> results[i].endpoint == shots[i].endpoint && excluded != Some(shots[i].endpoint)
    {
      assert Genuine(shots[i].endpoint, excluded, results[i]);
    }
    if m.rtt.Some? {
      var j :| Winner(shots, results, |shots|, s, j)
               && m == Score.Measured(servers[s], results[j].endpoint, shots[j].entry, results[j].rtt);
      assert shots[j] in shots;
    }
  }
}
