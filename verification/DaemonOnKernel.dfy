/** The daemon and the interface together: what the daemon records of its tunnel is where the kernel sends. */
module DaemonOnKernel {
  import opened Wrappers
  import opened Address
  import opened Roaming
  import opened DaemonModel
  import opened DaemonTheorems

  /** What a call may make of an interface, whosever it was. */
  ghost predicate Does(call: Call, a: Net, b: Net) {
    forall was :: Obeys(call, was, a, b)
  }

  /** The interface can have come to be `n` after these calls, packets moving before, between and after them. */
  ghost predicate Possible(calls: Calls, n: Net) {
    match calls
    case Nothing => true
    case Then(before, call) => exists a, b :: Possible(before, a) && Does(call, a, b) && Drifts(b, n)
  }

  /** A server the tunnel was sent to, by the last call that worked or by one that failed after it. */
  predicate SentTo(calls: Calls, t: SocketAddr) {
    match calls
    case Nothing => false
    case Then(_, BringUp(target, ok)) => ok && t == target
    case Then(before, Move(target, ok)) => t == target || (!ok && SentTo(before, t))
    case Then(_, TearDown) => false
  }

  /** While there is a tunnel one server it was sent to holds the interface: the last one, if that call worked. */
  lemma {:induction false} KnownHolds(calls: Calls, n: Net)
    requires calls.Proper() && Possible(calls, n)
    ensures calls.Known().Some? ==> exists t :: SentTo(calls, t) && Held(n, t)
    ensures calls.Known().Some? && calls.Known().value.endpoint.Some? ==>
      PointsAt(n, calls.Known().value.endpoint.value)
  {
    if calls.Then? && calls.Known().Some? {
      var call := calls.call;
      var a, b :| Possible(calls.before, a) && Does(call, a, b) && Drifts(b, n);
      KnownHolds(calls.before, a);
      if call.BringUp? {
        assert Obeys(call, call.target, a, b);
        DriftPoints(b, n, call.target);
        assert SentTo(calls, call.target);
      } else {
        var was :| SentTo(calls.before, was) && Held(a, was);
        assert Obeys(call, was, a, b);
        MoveHolds(calls, was, b, n);
      }
    }
  }

  lemma MoveHolds(calls: Calls, was: SocketAddr, b: Net, n: Net)
    requires calls.Then? && calls.call.Move? && SentTo(calls.before, was) && Drifts(b, n)
    requires Held(b, was) || Held(b, calls.call.target)
    requires calls.call.ok ==> PointsAt(b, calls.call.target)
    ensures exists t :: SentTo(calls, t) && Held(n, t)
    ensures calls.call.ok ==> PointsAt(n, calls.call.target)
  {
    var target := calls.call.target;
    if calls.call.ok {
      DriftPoints(b, n, target);
      assert SentTo(calls, target);
    } else {
      var owner := if Held(b, was) then was else target;
      DriftHolds(b, n, owner);
      assert SentTo(calls, owner);
    }
  }

  /** Over every run of requests, answers, failures and packets: while a connection is recorded one server the tunnel
      was sent to holds the interface, and unless the last switch failed the kernel's peer is the server recorded and
      only that server can reach the interface. */
  lemma RecordedIsReached(ln: real -> real, config: Config, events: seq<Event>, n: Net)
    requires config.Valid() && Possible(Run(Start(ln, config), events).calls, n)
    ensures var d := Run(Start(ln, config), events);
      && (d.current.Some? <==> d.tunnel.Some?)
      && (d.current.Some? ==> exists t :: SentTo(d.calls, t) && Held(n, t))
      && (d.current.Some? && d.tunnel.value.endpoint.Some? ==> PointsAt(n, d.current.value.endpoint))
  {
    EveryReachableState(ln, config, events);
    KnownHolds(Run(Start(ln, config), events).calls, n);
  }

  /** There is always such an interface, so none of this is about nothing. */
  lemma {:induction false} SomeInterface(calls: Calls) returns (n: Net)
    ensures Possible(calls, n)
  {
    var server := SocketAddr(V4(0), 0);
    var to := if calls.Then? && !calls.call.TearDown? then calls.call.target else server;
    n := Net(0, Some(Peer(to, {})), {}, {}, {});
    if calls.Then? {
      var a := SomeInterface(calls.before);
      assert HappenAll(n, []) == n;
      assert Does(calls.call, a, n) && Drifts(n, n);
    }
  }
}
