/** The server list as decoded from the provider's API. */
module Servers {
  import opened Wrappers
  import opened Text
  import opened Address

  datatype Server = Server(
    name: string, countryCode: string, load: nat, bw: nat, bwMax: nat, healthy: bool,
    wgIpv4: nat, wgIpv4Alt: Option<nat>)
  {
    /** Spare capacity, never negative, nothing when the capacity is unknown. */
    function HeadroomMbps(): nat {
      if bwMax == 0 || bw >= bwMax then 0 else bwMax - bw
    }

    /** Load as a fraction, saturating at one. */
    function LoadFraction(): real {
      (if load < 100 then load as real else 100.0) / 100.0
    }

    function Endpoint(port: nat): SocketAddr {
      SocketAddr(V4(wgIpv4), port)
    }

    /** Entries 1 and 3 carry WireGuard; 3 may be missing. */
    function EndpointForEntry(entry: nat, port: nat): Option<SocketAddr> {
      if entry == 1 then Some(SocketAddr(V4(wgIpv4), port))
      else if entry == 3 && wgIpv4Alt.Some? then Some(SocketAddr(V4(wgIpv4Alt.value), port))
      else None
    }
  }

  /** The first server of that name, whatever the case. */
  function Find(list: seq<Server>, name: string): (r: Option<Server>)
    ensures r.Some? ==> r.value in list && Lower(r.value.name) == Lower(name)
    ensures r.None? ==> forall s :: s in list ==> Lower(s.name) != Lower(name)
  {
    if list == [] then None
    else if Lower(list[0].name) == Lower(name) then Some(list[0])
    else Find(list[1..], name)
  }

  predicate DistinctNames(list: seq<Server>) {
    forall i, j :: 0 <= i < j < |list| ==> list[i].name != list[j].name
  }
}
