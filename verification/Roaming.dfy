/** WireGuard roaming on a fleet that shares one key, and why a switch removes the
    peer, rotates the port and re-adds the peer, in that order.

    Every server authenticates under the one peer, so any accepted packet moves
    the peer's endpoint to its source (section 2.1 of the WireGuard whitepaper).
    The network may delay, duplicate and reorder; nothing in flight is ever lost. */
module Roaming {
  import opened Wrappers
  import opened Address

  type Port = nat

  /** A handshake initiation authenticates under the fleet key; data only under a live session. */
  datatype Kind = Handshake | Data(session: nat)

  datatype ToClient = ToClient(from: SocketAddr, port: Port, kind: Kind)
  datatype ToServer = ToServer(server: SocketAddr, port: Port)

  datatype Peer = Peer(endpoint: SocketAddr, sessions: set<nat>)

  datatype Net = Net(
    port: Port, peer: Option<Peer>, knows: set<(SocketAddr, Port)>, toClient: set<ToClient>, toServer: set<ToServer>)

  /** What can happen without the daemon. */
  datatype Step =
    | ClientSends
    | ServerLearns(heard: ToServer)
    | ServerSends(server: SocketAddr, port: Port, kind: Kind)
    | ProberSends(server: SocketAddr, port: Port)
    | ClientReceives(m: ToClient, session: nat)

  predicate Authentic(peer: Peer, kind: Kind) {
    kind.Handshake? || kind.session in peer.sessions
  }

  /** Whether a message reaches the peer: the right port, a peer to reach, a valid packet. */
  predicate Accepted(n: Net, m: ToClient) {
    m in n.toClient && m.port == n.port && n.peer.Some? && Authentic(n.peer.value, m.kind)
  }

  function Happen(n: Net, s: Step): Net {
    match s
    case ClientSends =>
      if n.peer.None? then n else n.(toServer := n.toServer + {ToServer(n.peer.value.endpoint, n.port)})
    case ServerLearns(m) =>
      if m in n.toServer then n.(knows := n.knows + {(m.server, m.port)}) else n
    case ServerSends(server, port, kind) =>
      if (server, port) in n.knows then n.(toClient := n.toClient + {ToClient(server, port, kind)}) else n
    case ProberSends(server, port) =>
      if port == n.port then n else n.(toServer := n.toServer + {ToServer(server, port)})
    case ClientReceives(m, session) =>
      if !Accepted(n, m) then n
      else n.(peer := Some(Peer(m.from, if m.kind.Handshake?
        then n.peer.value.sessions + {session} else n.peer.value.sessions)))
  }

  function HappenAll(n: Net, steps: seq<Step>): Net
    decreases |steps|
  {
    if steps == [] then n else HappenAll(Happen(n, steps[0]), steps[1..])
  }

  // ---- what the daemon does --------------------------------------------------

  function RemovePeer(n: Net): Net {
    n.(peer := None)
  }

  function RotatePort(n: Net, port: Port): Net {
    n.(port := port)
  }

  function AddPeer(n: Net, target: SocketAddr): Net {
    n.(peer := Some(Peer(target, {})))
  }

  /** A port the kernel has just bound: nobody knows it and nothing is in flight to or from it. */
  predicate Fresh(n: Net, port: Port) {
    && port != n.port
    && (forall k :: k in n.knows ==> k.1 != port)
    && (forall m :: m in n.toClient ==> m.port != port)
    && (forall m :: m in n.toServer ==> m.port != port)
  }

  // ---- holding the endpoint --------------------------------------------------

  /** Only `t` can reach the current port, and the peer, if there is one, is `t`. */
  ghost predicate Held(n: Net, t: SocketAddr) {
    && (n.peer.Some? ==> n.peer.value.endpoint == t)
    && (forall k :: k in n.knows && k.1 == n.port ==> k.0 == t)
    && (forall m :: m in n.toClient && m.port == n.port ==> m.from == t)
    && (forall m :: m in n.toServer && m.port == n.port ==> m.server == t)
  }

  lemma StepHolds(n: Net, s: Step, t: SocketAddr)
    requires Held(n, t)
    ensures Held(Happen(n, s), t)
    ensures n.peer.None? == Happen(n, s).peer.None?
    ensures Happen(n, s).port == n.port
  {}

  lemma {:induction false} StepsKeepPeer(n: Net, steps: seq<Step>)
    ensures n.peer.None? == HappenAll(n, steps).peer.None?
    decreases |steps|
  {
    if steps != [] {
      StepsKeepPeer(Happen(n, steps[0]), steps[1..]);
    }
  }

  lemma {:induction false} StepsHold(n: Net, steps: seq<Step>, t: SocketAddr)
    requires Held(n, t)
    ensures Held(HappenAll(n, steps), t)
    ensures n.peer.None? == HappenAll(n, steps).peer.None?
    ensures HappenAll(n, steps).port == n.port
    decreases |steps|
  {
    if steps != [] {
      StepHolds(n, steps[0], t);
      StepsHold(Happen(n, steps[0]), steps[1..], t);
    }
  }

  /** With no peer and a fresh port, the interface is held for whichever server comes next. */
  lemma RotationHoldsForAll(n: Net, port: Port, t: SocketAddr)
    requires n.peer.None? && Fresh(n, port)
    ensures Held(RotatePort(n, port), t)
    ensures Held(AddPeer(RotatePort(n, port), t), t)
  {}

  // ---- what the tunnel's calls come to ---------------------------------------

  /** The peer is the server wanted and only that server can reach the interface. */
  ghost predicate PointsAt(n: Net, target: SocketAddr) {
    Held(n, target) && n.peer.Some? && n.peer.value.endpoint == target
  }

  /** The world goes on by itself. */
  ghost predicate Drifts(a: Net, b: Net) {
    exists steps :: b == HappenAll(a, steps)
  }

  lemma DriftHolds(a: Net, b: Net, t: SocketAddr)
    requires Drifts(a, b) && Held(a, t)
    ensures Held(b, t) && a.peer.None? == b.peer.None?
  {
    var steps :| b == HappenAll(a, steps);
    StepsHold(a, steps, t);
  }

  lemma DriftKeepsPeer(a: Net, b: Net)
    requires Drifts(a, b)
    ensures a.peer.None? == b.peer.None?
  {
    var steps :| b == HappenAll(a, steps);
    StepsKeepPeer(a, steps);
  }

  lemma DriftPoints(a: Net, b: Net, t: SocketAddr)
    requires Drifts(a, b) && PointsAt(a, t)
    ensures PointsAt(b, t)
  {
    DriftHolds(a, b, t);
  }

  /** A call on the tunnel and its outcome. */
  datatype Call = BringUp(target: SocketAddr, ok: bool) | Move(target: SocketAddr, ok: bool) | TearDown

  /** What a call may make of an interface that was `was`'s. */
  ghost predicate Obeys(call: Call, was: SocketAddr, a: Net, b: Net) {
    match call
    case BringUp(target, ok) => ok ==> PointsAt(b, target)
    case Move(target, ok) => Held(a, was) ==> (Held(b, was) || Held(b, target)) && (ok ==> PointsAt(b, target))
    case TearDown => true
  }

  // ---- a whole run -----------------------------------------------------------

  /** Where the daemon is within a switch. */
  datatype Phase = Steady | Cleared | Rotated | Aborted

  /** `target` is the switch in hand or the last one; `owner` the target of the last switch
      that got as far as a fresh port. */
  datatype World = World(net: Net, phase: Phase, target: SocketAddr, owner: SocketAddr)

  datatype Act =
    | Env(step: Step)
    | Begin(target: SocketAddr)          // remove_peer succeeded
    | Balk(removed: bool)                // remove_peer failed, perhaps having removed the peer
    | Rotate(port: Port)
    | ReAdd                              // configure_peer succeeded
    | Abort(port: Port, peerSet: bool)   // the call in hand fails, having done part of its work

  ghost predicate Enabled(w: World, a: Act) {
    match a
    case Env(_) => true
    case Begin(_) => w.phase.Steady? || w.phase.Aborted?
    case Balk(_) => w.phase.Steady? || w.phase.Aborted?
    case Rotate(port) => w.phase.Cleared? && Fresh(w.net, port)
    case ReAdd => w.phase.Rotated?
    case Abort(port, peerSet) =>
      // a rotation that fails may have bound the new port, a re-add that fails may have set the peer
      || (w.phase.Cleared? && !peerSet && (port == w.net.port || Fresh(w.net, port)))
      || (w.phase.Rotated? && port == w.net.port)
  }

  function Do(w: World, a: Act): World {
    match a
    case Env(step) => w.(net := Happen(w.net, step))
    case Begin(target) => w.(net := RemovePeer(w.net), phase := Cleared, target := target)
    case Balk(removed) => w.(net := if removed then RemovePeer(w.net) else w.net, phase := Aborted)
    case Rotate(port) => World(RotatePort(w.net, port), Rotated, w.target, w.target)
    case ReAdd => World(AddPeer(w.net, w.target), Steady, w.target, w.owner)
    case Abort(port, peerSet) =>
      var n := RotatePort(w.net, port);
      World(if peerSet then AddPeer(n, w.target) else n, Aborted, w.target, w.owner)
  }

  ghost predicate IsRun(ws: seq<World>, acts: seq<Act>) {
    |ws| == |acts| + 1
    && forall i :: 0 <= i < |acts| ==> Enabled(ws[i], acts[i]) && ws[i + 1] == Do(ws[i], acts[i])
  }

  /** A tunnel just brought up on `t`: a peer to reach it, from a port only `t` can know. */
  ghost predicate JustUp(w: World, t: SocketAddr) {
    w.phase.Steady? && w.target == t && w.owner == t && Held(w.net, t) && w.net.peer.Some?
  }

  /** The interface belongs to one server throughout: between switches, to the last target. */
  ghost predicate Safe(w: World) {
    && Held(w.net, w.owner)
    && (w.phase.Steady? ==> w.net.peer.Some? && w.owner == w.target)
    && (w.phase.Cleared? ==> w.net.peer.None?)
    && (w.phase.Rotated? ==> w.net.peer.None? && w.owner == w.target)
  }

  lemma ActKeepsSafe(w: World, a: Act)
    requires Safe(w) && Enabled(w, a)
    ensures Safe(Do(w, a))
  {
    if a.Env? {
      StepHolds(w.net, a.step, w.owner);
    }
  }

  /** Over every interleaving of switches, failures, sends, handshakes and deliveries: whenever no
      switch is in hand the peer's endpoint is the target of the last one, and after one that
      failed it is, if there is a peer at all, the last target that got a fresh port. */
  lemma {:induction false} EndpointStays(ws: seq<World>, acts: seq<Act>, t: SocketAddr, i: nat)
    requires IsRun(ws, acts) && JustUp(ws[0], t) && i < |ws|
    ensures Safe(ws[i])
    ensures ws[i].phase.Steady? ==> ws[i].net.peer.Some? && ws[i].net.peer.value.endpoint == ws[i].target
    ensures ws[i].net.peer.Some? ==> ws[i].net.peer.value.endpoint == ws[i].owner
  {
    if i > 0 {
      EndpointStays(ws, acts, t, i - 1);
      ActKeepsSafe(ws[i - 1], acts[i - 1]);
    }
  }

  // ---- each step is load-bearing ---------------------------------------------

  /** Without the rotation, any server that knows the port can take the endpoint back with a
      fresh handshake, even though its sessions are gone. */
  lemma WithoutRotation(n: Net, left: SocketAddr, t: SocketAddr)
    requires (left, n.port) in n.knows
    ensures var n' := AddPeer(RemovePeer(n), t);
      exists steps :: HappenAll(n', steps).peer.Some? && HappenAll(n', steps).peer.value.endpoint == left
  {
    var n0 := AddPeer(RemovePeer(n), t);
    var m := ToClient(left, n.port, Handshake);
    var s1, s2 := ServerSends(left, n.port, Handshake), ClientReceives(m, 0);
    var n1 := Happen(n0, s1);
    var n2 := Happen(n1, s2);
    assert HappenAll(n1, [s2]) == n2 by {
      assert [s2][1..] == [];
    }
    assert [s1, s2][1..] == [s2];
    assert HappenAll(n0, [s1, s2]) == n2;
  }

  /** Without the removal, the old endpoint learns the fresh port before it is rewritten. */
  lemma WithoutRemoval(n: Net, left: SocketAddr, port: Port, t: SocketAddr)
    requires n.peer.Some? && n.peer.value.endpoint == left && Fresh(n, port)
    ensures exists before, after ::
      var n' := AddPeer(HappenAll(RotatePort(n, port), before), t);
      HappenAll(n', after).peer.Some? && HappenAll(n', after).peer.value.endpoint == left
  {
    var n0 := RotatePort(n, port);
    var learn := ServerLearns(ToServer(left, port));
    var n1 := Happen(n0, ClientSends);
    var n2 := Happen(n1, learn);
    assert [ClientSends, learn][1..] == [learn] && [learn][1..] == [];
    assert HappenAll(n1, [learn]) == n2;
    assert HappenAll(n0, [ClientSends, learn]) == n2;
    WithoutRotation(n2, left, t);
    assert AddPeer(RemovePeer(n2), t) == AddPeer(n2, t);
  }

  /** Rewriting the endpoint first and rotating afterwards leaves the same opening. */
  lemma RotatingLast(n: Net, left: SocketAddr, port: Port, t: SocketAddr)
    requires (left, n.port) in n.knows && Fresh(n, port)
    ensures exists before, after ::
      var n' := RotatePort(HappenAll(AddPeer(RemovePeer(n), t), before), port);
      HappenAll(n', after).peer.Some? && HappenAll(n', after).peer.value.endpoint == left
  {
    WithoutRotation(n, left, t);
    var n0 := AddPeer(RemovePeer(n), t);
    var before :| HappenAll(n0, before).peer.Some? && HappenAll(n0, before).peer.value.endpoint == left;
    var n' := RotatePort(HappenAll(n0, before), port);
    assert HappenAll(n', []) == n';
  }
}
