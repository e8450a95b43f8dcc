/** Attribution of session outcomes to data servers and CMS sites (src/metrics.cc), on values. The
    program keys its per-class counters by class name; names differ, so classes serve here. */
module MetricsModel {
  import opened ErrorClassifier

  // ---- sums over tables --------------------------------------------------------------------

  /** The sum of a table's entries; the order in which they are taken does not matter. */
  ghost function Sum<K>(m: map<K, nat>): nat
    decreases |m|
  {
    if m == map[] then 0 else
    var k :| k in m;
    m[k] + Sum(m - {k})
  }

  lemma {:induction false} SumTakes<K>(m: map<K, nat>, k: K)
    requires k in m
    ensures Sum(m) == m[k] + Sum(m - {k})
    decreases |m|
  {
    var j :| j in m && Sum(m) == m[j] + Sum(m - {j});
    if j != k {
      SumTakes(m - {j}, k);
      SumTakes(m - {k}, j);
      assert m - {j} - {k} == m - {k} - {j};
    }
  }

  lemma SumUpdates<K>(m: map<K, nat>, k: K, v: nat)
    ensures Sum(m[k := v]) == Sum(m) + v - (if k in m then m[k] else 0)
  {
    SumTakes(m[k := v], k);
    assert m[k := v] - {k} == m - {k};
    if k in m {
      SumTakes(m, k);
    } else {
      assert m - {k} == m;
    }
  }

  // ---- counters ----------------------------------------------------------------------------

  datatype Counters = Counters(bytes: nat, ok: nat, fail: nat, errors: map<ErrorClass, nat>)

  const ZERO := Counters(0, 0, 0, map[])

  /** One of the quantities a `Counters` holds. */
  datatype Field = Bytes | Ok | Fail | Class(c: ErrorClass)

  function ErrorCount(errors: map<ErrorClass, nat>, c: ErrorClass): nat {
    if c in errors then errors[c] else 0
  }

  function Get(c: Counters, f: Field): nat {
    match f
    case Bytes => c.bytes
    case Ok => c.ok
    case Fail => c.fail
    case Class(e) => ErrorCount(c.errors, e)
  }

  function Bump(errors: map<ErrorClass, nat>, c: ErrorClass): map<ErrorClass, nat> {
    errors[c := ErrorCount(errors, c) + 1]
  }

  // ---- the registry ------------------------------------------------------------------------

  datatype Endpoint = Endpoint(site: string, counters: Counters)

  /** `ops` counts the read operations of all successes. */
  datatype Registry = Registry(total: Counters, servers: map<string, Endpoint>, ops: nat)

  const EMPTY := Registry(ZERO, map[], 0)

  const UNKNOWN_SERVER := "unknown"

  /** What is observed: a finished session, or the site of a server found out later. `site` comes
      with the observation, `mapped` from the site map. */
  datatype Observation =
    | SessionOk(bytes: nat, ops: nat, server: string, site: string, mapped: string)
    | SessionFail(error: ErrorClass, server: string, site: string, mapped: string)
    | SetSite(server: string, site: string)

  function KeyOf(server: string): string {
    if server == [] then UNKNOWN_SERVER else server
  }

  function EndpointOf(servers: map<string, Endpoint>, key: string): Endpoint {
    if key in servers then servers[key] else Endpoint([], ZERO)
  }

  /** AttributeLocked: a site once attached stays. */
  function Attribute(servers: map<string, Endpoint>, server: string, site: string, mapped: string,
                     update: Counters -> Counters): map<string, Endpoint> {
    var key := KeyOf(server);
    var ep := EndpointOf(servers, key);
    servers[key := Endpoint(if ep.site != [] then ep.site else if site != [] then site else mapped,
                            update(ep.counters))]
  }

  function AddOk(c: Counters, bytes: nat): Counters {
    c.(bytes := c.bytes + bytes, ok := c.ok + 1)
  }

  /** A server's own counters leave out the class None. */
  function AddFail(c: Counters, error: ErrorClass): Counters {
    c.(fail := c.fail + 1, errors := if error == None then c.errors else Bump(c.errors, error))
  }

  function Observe(r: Registry, o: Observation): Registry {
    match o
    case SessionOk(bytes, ops, server, site, mapped) =>
      Registry(AddOk(r.total, bytes), Attribute(r.servers, server, site, mapped, c => AddOk(c, bytes)), r.ops + ops)
    case SessionFail(error, server, site, mapped) =>
      Registry(r.total.(fail := r.total.fail + 1, errors := Bump(r.total.errors, error)),
               Attribute(r.servers, server, site, mapped, c => AddFail(c, error)), r.ops)
    case SetSite(server, site) =>
      if server == [] || site == [] || server !in r.servers then r
      else r.(servers := r.servers[server := r.servers[server].(site := site)])
  }

  function ObserveAll(observations: seq<Observation>): Registry {
    if observations == [] then EMPTY
    else Observe(ObserveAll(observations[..|observations| - 1]), observations[|observations| - 1])
  }

  // ---- conservation ------------------------------------------------------------------------

  ghost function ByServer(servers: map<string, Endpoint>, f: Field): map<string, nat> {
    map k | k in servers :: Get(servers[k].counters, f)
  }

  /** Every quantity adds up over the data servers, and the error classes add up to the failures. */
  ghost predicate Conserved(r: Registry) {
    && (forall f: Field :: f != Class(None) ==> Sum(ByServer(r.servers, f)) == Get(r.total, f))
    && Sum(r.total.errors) == r.total.fail
  }

  lemma ServerUpdates(servers: map<string, Endpoint>, key: string, ep: Endpoint, f: Field)
    ensures Sum(ByServer(servers[key := ep], f)) ==
            Sum(ByServer(servers, f)) + Get(ep.counters, f) - Get(EndpointOf(servers, key).counters, f)
  {
    assert ByServer(servers[key := ep], f) == ByServer(servers, f)[key := Get(ep.counters, f)];
    SumUpdates(ByServer(servers, f), key, Get(ep.counters, f));
  }

  lemma OkConserves(r: Registry, bytes: nat, ops: nat, server: string, site: string, mapped: string)
    requires Conserved(r)
    ensures Conserved(Observe(r, SessionOk(bytes, ops, server, site, mapped)))
  {
    var r' := Observe(r, SessionOk(bytes, ops, server, site, mapped));
    var key := KeyOf(server);
    forall f: Field | f != Class(None) ensures Sum(ByServer(r'.servers, f)) == Get(r'.total, f) {
      ServerUpdates(r.servers, key, r'.servers[key], f);
    }
  }

  /** What a failure adds to a quantity. */
  function FailShare(error: ErrorClass, f: Field): nat {
    if f == Fail || f == Class(error) then 1 else 0
  }

  lemma FailAdds(c: Counters, error: ErrorClass, f: Field)
    requires f != Class(None)
    ensures Get(AddFail(c, error), f) == Get(c, f) + FailShare(error, f)
    ensures Get(c.(fail := c.fail + 1, errors := Bump(c.errors, error)), f) == Get(c, f) + FailShare(error, f)
  {
  }

  lemma FailConserves(r: Registry, error: ErrorClass, server: string, site: string, mapped: string)
    requires Conserved(r)
    ensures Conserved(Observe(r, SessionFail(error, server, site, mapped)))
  {
    var r' := Observe(r, SessionFail(error, server, site, mapped));
    var key := KeyOf(server);
    forall f: Field | f != Class(None) ensures Sum(ByServer(r'.servers, f)) == Get(r'.total, f) {
      ServerUpdates(r.servers, key, r'.servers[key], f);
      FailAdds(EndpointOf(r.servers, key).counters, error, f);
      FailAdds(r.total, error, f);
    }
    assert Sum(r'.total.errors) == r'.total.fail by {
      SumUpdates(r.total.errors, error, ErrorCount(r.total.errors, error) + 1);
    }
  }

  lemma SetSiteConserves(r: Registry, server: string, site: string)
    requires Conserved(r)
    ensures Conserved(Observe(r, SetSite(server, site)))
  {
    var r' := Observe(r, SetSite(server, site));
    forall f: Field | f != Class(None) ensures Sum(ByServer(r'.servers, f)) == Get(r'.total, f) {
      if server in r.servers {
        ServerUpdates(r.servers, server, r.servers[server].(site := site), f);
      }
    }
  }

  lemma ObserveConserves(r: Registry, o: Observation)
    requires Conserved(r)
    ensures Conserved(Observe(r, o))
  {
    match o
    case SessionOk(bytes, ops, server, site, mapped) => OkConserves(r, bytes, ops, server, site, mapped);
    case SessionFail(error, server, site, mapped) => FailConserves(r, error, server, site, mapped);
    case SetSite(server, site) => SetSiteConserves(r, server, site);
  }

  /** After any observations, in any order, nothing is lost or counted twice. */
  lemma {:induction false} AttributionConserves(observations: seq<Observation>)
    ensures Conserved(ObserveAll(observations))
  {
    if observations == [] {
      assert forall f: Field :: ByServer(EMPTY.servers, f) == map[];
    } else {
      AttributionConserves(observations[..|observations| - 1]);
      ObserveConserves(ObserveAll(observations[..|observations| - 1]), observations[|observations| - 1]);
    }
  }

  // ---- which server, which site ------------------------------------------------------------

  /** The observation is of a session on the data server `name`; a session without a server counts as
      one on "unknown". */
  predicate Names(o: Observation, name: string) {
    !o.SetSite? && (o.server == name || (o.server == "" && name == "unknown"))
  }

  /** What one observation adds to a quantity. */
  function Share(o: Observation, f: Field): nat {
    match o
    case SessionOk(bytes, _, _, _, _) => if f == Bytes then bytes else if f == Ok then 1 else 0
    case SessionFail(error, _, _, _) => if f == Fail || f == Class(error) then 1 else 0
    case SetSite(_, _) => 0
  }

  /** The sum over the observations of sessions on one server. */
  function TallyOf(observations: seq<Observation>, name: string, f: Field): nat {
    if observations == [] then 0 else
    var o := observations[|observations| - 1];
    TallyOf(observations[..|observations| - 1], name, f) + if Names(o, name) then Share(o, f) else 0
  }

  /** The sum over all observations. */
  function Tally(observations: seq<Observation>, f: Field): nat {
    if observations == [] then 0 else
    Tally(observations[..|observations| - 1], f) + Share(observations[|observations| - 1], f)
  }

  lemma OkServer(r: Registry, bytes: nat, ops: nat, server: string, site: string, mapped: string, name: string,
                 f: Field)
    requires name != ""
    ensures var o := SessionOk(bytes, ops, server, site, mapped);
            && Get(EndpointOf(Observe(r, o).servers, name).counters, f)
               == Get(EndpointOf(r.servers, name).counters, f) + (if Names(o, name) then Share(o, f) else 0)
            && (name in Observe(r, o).servers <==> name in r.servers || Names(o, name))
  {
  }

  lemma FailServer(r: Registry, error: ErrorClass, server: string, site: string, mapped: string, name: string, f: Field)
    requires name != "" && f != Class(None)
    ensures var o := SessionFail(error, server, site, mapped);
            && Get(EndpointOf(Observe(r, o).servers, name).counters, f)
               == Get(EndpointOf(r.servers, name).counters, f) + (if Names(o, name) then Share(o, f) else 0)
            && (name in Observe(r, o).servers <==> name in r.servers || Names(o, name))
  {
    FailAdds(EndpointOf(r.servers, KeyOf(server)).counters, error, f);
  }

  lemma SetSiteServer(r: Registry, server: string, site: string, name: string, f: Field)
    ensures var o := SetSite(server, site);
            && Get(EndpointOf(Observe(r, o).servers, name).counters, f) == Get(EndpointOf(r.servers, name).counters, f)
            && (name in Observe(r, o).servers <==> name in r.servers)
  {
  }

  /** After any observations each data server has exactly the bytes, successes, failures and error
      classes of the sessions that named it, and is listed if there were any. */
  lemma {:induction false} EachServerItsOwn(observations: seq<Observation>, name: string, f: Field)
    requires name != "" && f != Class(None)
    ensures var servers := ObserveAll(observations).servers;
            && (if name in servers then Get(servers[name].counters, f) else 0) == TallyOf(observations, name, f)
            && (name in servers <==> exists i :: 0 <= i < |observations| && Names(observations[i], name))
  {
    if observations != [] {
      var before, o := observations[..|observations| - 1], observations[|observations| - 1];
      var r := ObserveAll(before);
      EachServerItsOwn(before, name, f);
      match o {
        case SessionOk(bytes, ops, server, site, mapped) => OkServer(r, bytes, ops, server, site, mapped, name, f);
        case SessionFail(error, server, site, mapped) => FailServer(r, error, server, site, mapped, name, f);
        case SetSite(server, site) => SetSiteServer(r, server, site, name, f);
      }
      NamedBefore(observations, name);
    }
  }

  lemma NamedBefore(observations: seq<Observation>, name: string)
    requires observations != []
    ensures var n := |observations| - 1;
            (exists i :: 0 <= i < |observations| && Names(observations[i], name)) <==>
            (exists i :: 0 <= i < n && Names(observations[..n][i], name)) || Names(observations[n], name)
  {
    var n := |observations| - 1;
    if i :| 0 <= i < |observations| && Names(observations[i], name) {
      if i < n {
        assert Names(observations[..n][i], name);
      }
    }
    if i :| 0 <= i < n && Names(observations[..n][i], name) {
      assert Names(observations[i], name);
    }
  }

  /** The read operations of all successes. */
  function TallyOps(observations: seq<Observation>): nat {
    if observations == [] then 0 else
    var o := observations[|observations| - 1];
    TallyOps(observations[..|observations| - 1]) + if o.SessionOk? then o.ops else 0
  }

  /** The global counters are the sums over all sessions, and no server is listed without a name. */
  lemma {:induction false} TotalsAreTallies(observations: seq<Observation>, f: Field)
    ensures Get(ObserveAll(observations).total, f) == Tally(observations, f)
    ensures ObserveAll(observations).ops == TallyOps(observations)
    ensures "" !in ObserveAll(observations).servers
  {
    if observations != [] {
      TotalsAreTallies(observations[..|observations| - 1], f);
    }
  }

  /** Remapping a known server changes its site, and nothing else. */
  lemma RemapSetsSite(r: Registry, server: string, site: string)
    requires server != "" && site != "" && server in r.servers
    ensures var r' := Observe(r, SetSite(server, site));
            && r'.servers[server] == Endpoint(site, r.servers[server].counters)
            && r'.servers - {server} == r.servers - {server} && r'.total == r.total && r'.ops == r.ops
  {
  }

  /** Without a server, a site or an entry, remapping changes nothing. */
  lemma RemapIgnored(r: Registry, server: string, site: string)
    requires server == "" || site == "" || server !in r.servers
    ensures Observe(r, SetSite(server, site)) == r
  {
  }

  /** A session leaves the site of a server that has one, and gives a server without one the site that
      came with the session, or else the one from the site map; other servers keep theirs. */
  lemma SessionKeepsSite(r: Registry, o: Observation, name: string)
    requires !o.SetSite? && name != ""
    ensures var before := if name in r.servers then r.servers[name].site else "";
            var servers := Observe(r, o).servers;
            && (Names(o, name) ==>
                  name in servers
                  && servers[name].site == if before != "" then before else if o.site != "" then o.site else o.mapped)
            && (!Names(o, name) ==>
                  && (name in servers <==> name in r.servers)
                  && (name in servers ==> servers[name] == r.servers[name]))
  {
  }

  // ---- sites -------------------------------------------------------------------------------

  ghost function OfSite(servers: map<string, Endpoint>, site: string): map<string, Endpoint> {
    map k | k in servers && servers[k].site == site :: servers[k]
  }

  ghost function BySite(sites: map<string, Counters>, f: Field): map<string, nat> {
    map s | s in sites :: Get(sites[s], f)
  }

  function SiteOf(sites: map<string, Counters>, site: string): Counters {
    if site in sites then sites[site] else ZERO
  }

  /** Each site has the sums of its servers; the empty name is no site. */
  ghost predicate RolledUp(sites: map<string, Counters>, servers: map<string, Endpoint>) {
    && [] !in sites
    && (forall s :: s in sites ==> OfSite(servers, s) != map[])
    && (forall k :: k in servers && servers[k].site != [] ==> servers[k].site in sites)
    && (forall s, f :: s != [] ==> Get(SiteOf(sites, s), f) == Sum(ByServer(OfSite(servers, s), f)))
  }

  /** Sites and unmapped servers together account for all servers. */
  ghost predicate SitesConserve(sites: map<string, Counters>, servers: map<string, Endpoint>) {
    forall f: Field :: Sum(BySite(sites, f)) + Sum(ByServer(OfSite(servers, []), f)) == Sum(ByServer(servers, f))
  }

  lemma OfSiteJoins(servers: map<string, Endpoint>, key: string, ep: Endpoint)
    requires key !in servers
    ensures OfSite(servers[key := ep], ep.site) == OfSite(servers, ep.site)[key := ep]
  {
  }

  lemma OfSiteStays(servers: map<string, Endpoint>, key: string, ep: Endpoint, site: string)
    requires key !in servers && ep.site != site
    ensures OfSite(servers[key := ep], site) == OfSite(servers, site)
  {
  }

  /** A server not seen before joins the servers of its site, and of no other. */
  lemma OfSiteGrows(servers: map<string, Endpoint>, key: string, ep: Endpoint, site: string, f: Field)
    requires key !in servers
    ensures Sum(ByServer(OfSite(servers[key := ep], site), f)) ==
            Sum(ByServer(OfSite(servers, site), f)) + if ep.site == site then Get(ep.counters, f) else 0
    ensures Sum(ByServer(servers[key := ep], f)) == Sum(ByServer(servers, f)) + Get(ep.counters, f)
  {
    ServerUpdates(servers, key, ep, f);
    if ep.site == site {
      OfSiteJoins(servers, key, ep);
      ServerUpdates(OfSite(servers, site), key, ep, f);
    } else {
      OfSiteStays(servers, key, ep, site);
    }
  }
}
