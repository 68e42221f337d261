/** Which servers the configuration allows. */
module Filter {
  import opened Wrappers
  import opened Text
  import opened Servers
  import opened Settings
  import opened Sorting

  datatype Rejection =
    | Unhealthy
    | CountryNotWhitelisted
    | CountryBlacklisted
    | ServerNotWhitelisted
    | ServerBlacklisted
    | LoadTooHigh(load: nat, max: nat)

  datatype Ruleset = Ruleset(
    countryWhite: set<string>, countryBlack: set<string>,
    serverWhite: set<string>, serverBlack: set<string>, maxLoad: nat)
  {
    /** Why a server is excluded; the blacklists are consulted first, the load last. */
    function Judge(name: string, country: string, load: nat): Option<Rejection> {
      if Normal(name) in serverBlack then Some(ServerBlacklisted)
      else if Normal(country) in countryBlack then Some(CountryBlacklisted)
      else if serverWhite != {} && Normal(name) !in serverWhite then Some(ServerNotWhitelisted)
      else if countryWhite != {} && Normal(country) !in countryWhite then Some(CountryNotWhitelisted)
      else if load > maxLoad then Some(LoadTooHigh(load, maxLoad))
      else None
    }

    predicate Accepts(name: string, country: string, load: nat) {
      Judge(name, country, load).None?
    }
  }

  function Compile(f: Filters): Ruleset {
    Ruleset(Normalised(f.countryWhitelist), Normalised(f.countryBlacklist),
            Normalised(f.serverWhitelist), Normalised(f.serverBlacklist), f.maxLoad)
  }

  function Verdict(f: Filters, s: Server): Option<Rejection> {
    if !s.healthy then Some(Unhealthy) else Compile(f).Judge(s.name, s.countryCode, s.load)
  }

  function Judgement(f: Filters): Server -> Option<Rejection> {
    (s: Server) => Verdict(f, s)
  }

  function Passed(verdict: Server -> Option<Rejection>): Server -> bool {
    (s: Server) => verdict(s).None?
  }

  function Eligible(f: Filters): Server -> bool {
    Passed(Judgement(f))
  }

  /** The candidates of a sweep, in list order. */
  function Accepted(list: seq<Server>, f: Filters): seq<Server> {
    Keep(Eligible(f), list)
  }

  /** The others, each with its reason, in list order. */
  function Refusals(verdict: Server -> Option<Rejection>, list: seq<Server>): seq<(Server, Rejection)> {
    if list == [] then [] else Refusal(list[0], verdict(list[0])) + Refusals(verdict, list[1..])
  }

  function Refusal(s: Server, v: Option<Rejection>): seq<(Server, Rejection)> {
    if v.Some? then [(s, v.value)] else []
  }

  function Rejected(list: seq<Server>, f: Filters): seq<(Server, Rejection)> {
    Refusals(Judgement(f), list)
  }

  function RejectedServer(): ((Server, Rejection)) -> Server {
    (r: (Server, Rejection)) => r.0
  }

  method Apply(list: seq<Server>, f: Filters) returns (accepted: seq<Server>, rejected: seq<(Server, Rejection)>)
    ensures accepted == Accepted(list, f) && rejected == Rejected(list, f)
  {
    accepted, rejected := [], [];
    assert list[..0] == [];
    for i := 0 to |list|
      invariant accepted == Keep(Eligible(f), list[..i]) && rejected == Rejected(list[..i], f)
    {
      var s := list[i];
      KeepAppend(Eligible(f), list[..i], [s]);
      RefusalsAppend(Judgement(f), list[..i], [s]);
      assert list[..i + 1] == list[..i] + [s] && [s][1..] == [];
      match Verdict(f, s)
      case Some(reason) => rejected := rejected + [(s, reason)];
      case None => accepted := accepted + [s];
    }
    assert list[..|list|] == list;
  }

  lemma {:induction false} RefusalsAppend(v: Server -> Option<Rejection>, a: seq<Server>, b: seq<Server>)
    ensures Refusals(v, a + b) == Refusals(v, a) + Refusals(v, b)
  {
    if a == [] {
      assert a + b == b;
    } else {
      RefusalsAppend(v, a[1..], b);
      assert (a + b)[0] == a[0] && (a + b)[1..] == a[1..] + b;
      var head := Refusal(a[0], v(a[0]));
      Associative(head, Refusals(v, a[1..]), Refusals(v, b));
    }
  }

  lemma {:induction false} RefusalReasons(v: Server -> Option<Rejection>, list: seq<Server>)
    ensures forall r :: r in Refusals(v, list) ==> v(r.0) == Some(r.1)
  {
    if list != [] {
      RefusalReasons(v, list[1..]);
    }
  }

  lemma {:induction false} EveryoneIsJudged(v: Server -> Option<Rejection>, list: seq<Server>)
    ensures multiset(Keep(Passed(v), list)) + multiset(Map(RejectedServer(), Refusals(v, list))) == multiset(list)
  {
    if list != [] {
      var s, rest := list[0], list[1..];
      EveryoneIsJudged(v, rest);
      assert list == [s] + rest;
      assert Keep(Passed(v), list) == (if v(s).None? then [s] else []) + Keep(Passed(v), rest);
      MapAppend(RejectedServer(), Refusal(s, v(s)), Refusals(v, rest));
      assert v(s).Some? ==> Map(RejectedServer(), Refusal(s, v(s))) == [s];
    }
  }

  /** Every server is either a candidate or turned down with the reason that applies to it. */
  lemma EveryServerIsJudged(list: seq<Server>, f: Filters)
    ensures multiset(Accepted(list, f)) + multiset(Map(RejectedServer(), Rejected(list, f))) == multiset(list)
    ensures forall r :: r in Rejected(list, f) ==> Verdict(f, r.0) == Some(r.1)
  {
    EveryoneIsJudged(Judgement(f), list);
    RefusalReasons(Judgement(f), list);
  }

  /** The list names it, up to case and surrounding white space. */
  predicate Names(list: seq<string>, name: string) {
    Normal(name) != "" && exists v :: v in list && Normal(v) == Normal(name)
  }

  /** The list names nothing. */
  predicate Blank(list: seq<string>) {
    forall v :: v in list ==> Normal(v) == ""
  }

  lemma NormalisedNames(list: seq<string>, name: string)
    ensures Normal(name) in Normalised(list) <==> Names(list, name)
    ensures Normalised(list) == {} <==> Blank(list)
  {
    forall v | v in list && Normal(v) != "" ensures Normal(v) in Normalised(list) {
      assert Normal(v) in Folded(list);
    }
  }

  /** What each verdict means in terms of the four lists, the health and the load. */
  lemma VerdictExactly(f: Filters, s: Server)
    ensures var offBlack := !Names(f.serverBlacklist, s.name) && !Names(f.countryBlacklist, s.countryCode);
      var onServers := Blank(f.serverWhitelist) || Names(f.serverWhitelist, s.name);
      var onCountries := Blank(f.countryWhitelist) || Names(f.countryWhitelist, s.countryCode);
      && (Verdict(f, s) == None <==> s.healthy && offBlack && onServers && onCountries && s.load <= f.maxLoad)
      && (Verdict(f, s) == Some(Unhealthy) <==> !s.healthy)
      && (Verdict(f, s) == Some(ServerBlacklisted) <==> s.healthy && Names(f.serverBlacklist, s.name))
      && (Verdict(f, s) == Some(CountryBlacklisted) <==>
            s.healthy && !Names(f.serverBlacklist, s.name) && Names(f.countryBlacklist, s.countryCode))
      && (Verdict(f, s) == Some(ServerNotWhitelisted) <==> s.healthy && offBlack && !onServers)
      && (Verdict(f, s) == Some(CountryNotWhitelisted) <==> s.healthy && offBlack && onServers && !onCountries)
      && (Verdict(f, s) == Some(LoadTooHigh(s.load, f.maxLoad)) <==>
            s.healthy && offBlack && onServers && onCountries && s.load > f.maxLoad)
  {
    NormalisedNames(f.serverBlacklist, s.name);
    NormalisedNames(f.countryBlacklist, s.countryCode);
    NormalisedNames(f.serverWhitelist, s.name);
    NormalisedNames(f.countryWhitelist, s.countryCode);
  }

  /** The same values, up to case and surrounding white space. */
  ghost predicate Respells(a: seq<string>, b: seq<string>) {
    |a| == |b| && forall i :: 0 <= i < |a| ==> Normal(a[i]) == Normal(b[i])
  }

  lemma RespeltFolds(a: seq<string>, b: seq<string>)
    requires Respells(a, b)
    ensures Normalised(a) == Normalised(b)
  {
    forall v | v in a ensures Normal(v) in Folded(b) {
      var i :| 0 <= i < |a| && a[i] == v;
      assert b[i] in b;
    }
    forall v | v in b ensures Normal(v) in Folded(a) {
      var i :| 0 <= i < |b| && b[i] == v;
      assert a[i] in a;
    }
  }

  /** A verdict ignores case and surrounding white space, in all four lists and in the server. */
  lemma SpellingDoesNotMatter(f: Filters, g: Filters, name: string, country: string, name': string, country': string,
                              load: nat)
    requires Respells(f.countryWhitelist, g.countryWhitelist) && Respells(f.countryBlacklist, g.countryBlacklist)
    requires Respells(f.serverWhitelist, g.serverWhitelist) && Respells(f.serverBlacklist, g.serverBlacklist)
    requires f.maxLoad == g.maxLoad && Normal(name) == Normal(name') && Normal(country) == Normal(country')
    ensures Compile(f).Judge(name, country, load) == Compile(g).Judge(name', country', load)
  {
    RespeltFolds(f.countryWhitelist, g.countryWhitelist);
    RespeltFolds(f.countryBlacklist, g.countryBlacklist);
    RespeltFolds(f.serverWhitelist, g.serverWhitelist);
    RespeltFolds(f.serverBlacklist, g.serverBlacklist);
  }

  /** Replacing the country whitelist by one country: what that selects under the old rules. */
  lemma ReplacedWhitelist(f: Filters, country: string, name: string, code: string, load: nat)
    requires Compile(f.(countryWhitelist := [country])).Accepts(name, code, load)
    ensures Normal(country) != "" ==> Normal(code) == Normal(country)
    ensures Compile(f).Accepts(name, code, load) <==>
      Normalised(f.countryWhitelist) == {} || Normal(code) in Normalised(f.countryWhitelist)
  {
    var one := Normalised([country]);
    assert one == {Normal(country)} - {""} by {
      assert Folded([country]) == {Normal(country)};
    }
    assert Compile(f.(countryWhitelist := [country])).countryWhite == one;
    assert Normal(country) != "" ==> Normal(country) in one;
  }
}
