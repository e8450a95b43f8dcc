/** The metrics registry object of src/metrics.cc, its per-site roll-up, and the totals of the
    unmapped servers that src/run_command.cc prints. */
module MetricsObject {
  import opened ErrorClassifier
  import opened MetricsModel
  import opened SiteMapModel
  import opened SiteMapObject
  import H = HistogramObject

  class MetricsRegistry {
    const timings: H.SessionTimings
    var bytesReadTotal: nat
    var readOpsTotal: nat
    var sessionsOk: nat
    var sessionsFail: nat
    var errorsByClass: map<ErrorClass, nat>
    var byDataServer: map<string, Endpoint>
    var siteMap: SiteMap?

    ghost function View(): Registry
      reads this
    {
      Registry(Counters(bytesReadTotal, sessionsOk, sessionsFail, errorsByClass), byDataServer, readOpsTotal)
    }

    ghost predicate Valid()
      reads this, siteMap
    {
      siteMap != null ==> siteMap.Valid()
    }

    /** The histograms hold one reading of every success. */
    ghost predicate Timed()
      reads this, timings.Parts()
    {
      timings.Valid() && |timings.observed| == sessionsOk
    }

    constructor ()
      ensures View() == EMPTY && siteMap == null && Timed() && fresh(timings.Parts())
    {
      timings := new H.SessionTimings();
      readOpsTotal := 0;
      bytesReadTotal, sessionsOk, sessionsFail, errorsByClass := 0, 0, 0, map[];
      byDataServer, siteMap := map[], null;
    }

    /** The site a server without one gets: the observation's, else the site map's answer. */
    method ChooseSite(ep: Endpoint, key: string, site: string) returns (chosen: string)
      requires Valid()
      ensures ep.site != [] ==> chosen == ep.site
      ensures ep.site == [] && site != [] ==> chosen == site
      ensures ep.site == [] && site == [] ==>
                if siteMap == null then chosen == [] else Answer(Rules(siteMap.adds), key, chosen)
    {
      chosen := ep.site;
      if chosen == [] {
        if site != [] {
          chosen := site;
        } else if siteMap != null {
          chosen := siteMap.Lookup(key);
        }
      }
    }

    /** Count a success, and attribute it to its server; `attached` is the site the server has
        afterwards. */
    method CountOk(bytes: nat, ops: nat, server: string, site: string) returns (attached: string)
      requires Valid()
      modifies this`bytesReadTotal, this`sessionsOk, this`readOpsTotal, this`byDataServer
      ensures View() == Observe(old(View()), SessionOk(bytes, ops, server, site, attached))
      ensures byDataServer[KeyOf(server)].site == attached
      ensures EndpointOf(old(byDataServer), KeyOf(server)).site == [] && site == [] ==>
                if siteMap == null then attached == [] else Answer(Rules(siteMap.adds), KeyOf(server), attached)
    {
      bytesReadTotal := bytesReadTotal + bytes;
      sessionsOk := sessionsOk + 1;
      readOpsTotal := readOpsTotal + ops;
      var key := KeyOf(server);
      var ep := EndpointOf(byDataServer, key);
      attached := ChooseSite(ep, key, site);
      byDataServer := byDataServer[key := Endpoint(attached, AddOk(ep.counters, bytes))];
    }

    method ObserveSessionOk(bytes: nat, ops: nat, timing: H.Timing, server: string, site: string)
      returns (attached: string)
      requires Valid() && Timed()
      modifies this`bytesReadTotal, this`sessionsOk, this`readOpsTotal, this`byDataServer, timings.Parts()
      ensures Timed() && timings.observed == old(timings.observed) + [timing]
      ensures View() == Observe(old(View()), SessionOk(bytes, ops, server, site, attached))
      ensures byDataServer[KeyOf(server)].site == attached
      ensures EndpointOf(old(byDataServer), KeyOf(server)).site == [] && site == [] ==>
                if siteMap == null then attached == [] else Answer(Rules(siteMap.adds), KeyOf(server), attached)
    {
      hide Answer, Attribute, H.SessionTimings.Valid;
      timings.Observe(timing);
      attached := CountOk(bytes, ops, server, site);
    }

    method ObserveSessionFail(error: ErrorClass, server: string, site: string) returns (attached: string)
      requires Valid()
      modifies this`sessionsFail, this`errorsByClass, this`byDataServer
      ensures View() == Observe(old(View()), SessionFail(error, server, site, attached))
      ensures byDataServer[KeyOf(server)].site == attached
      ensures EndpointOf(old(byDataServer), KeyOf(server)).site == [] && site == [] ==>
                if siteMap == null then attached == [] else Answer(Rules(siteMap.adds), KeyOf(server), attached)
    {
      hide Bump, AddFail;
      sessionsFail := sessionsFail + 1;
      errorsByClass := Bump(errorsByClass, error);
      var key := KeyOf(server);
      var ep := EndpointOf(byDataServer, key);
      attached := ChooseSite(ep, key, site);
      byDataServer := byDataServer[key := Endpoint(attached, AddFail(ep.counters, error))];
    }

    method SetCmsSite(server: string, site: string)
      modifies this`byDataServer
      ensures View() == Observe(old(View()), SetSite(server, site))
    {
      if server == [] || site == [] {
        return;
      }
      if server !in byDataServer {
        return;
      }
      byDataServer := byDataServer[server := byDataServer[server].(site := site)];
    }
  }

  method MergeErrors(into: map<ErrorClass, nat>, from: map<ErrorClass, nat>) returns (r: map<ErrorClass, nat>)
    ensures forall c :: ErrorCount(r, c) == ErrorCount(into, c) + ErrorCount(from, c)
  {
    r := into;
    var todo := from.Keys;
    while todo != {}
      invariant todo <= from.Keys
      invariant forall c :: ErrorCount(r, c) == ErrorCount(into, c) + if c in todo then 0 else ErrorCount(from, c)
    {
      var c :| c in todo;
      r := r[c := ErrorCount(r, c) + from[c]];
      todo := todo - {c};
    }
  }

  method AddTo(site: Counters, ep: Counters) returns (r: Counters)
    ensures forall f: Field :: Get(r, f) == Get(site, f) + Get(ep, f)
  {
    var errors := MergeErrors(site.errors, ep.errors);
    r := Counters(site.bytes + ep.bytes, site.ok + ep.ok, site.fail + ep.fail, errors);
  }

  /** The state of a roll-up after the servers in `done`. */
  ghost predicate Rolling(sites: map<string, Counters>, done: map<string, Endpoint>) {
    RolledUp(sites, done) && SitesConserve(sites, done)
  }

  lemma RollingStarts()
    ensures Rolling(map[], map[])
  {
    forall s: string, f: Field
      ensures Sum(ByServer(OfSite(map[], s), f)) == 0 && Sum(ByServer(map[], f)) == 0 && Sum(BySite(map[], f)) == 0
    {
      assert ByServer(OfSite(map[], s), f) == map[] && ByServer(map[], f) == map[] && BySite(map[], f) == map[];
    }
  }

  lemma SiteSum(sites: map<string, Counters>, site: string, c: Counters, f: Field)
    ensures Sum(BySite(sites[site := c], f)) == Sum(BySite(sites, f)) + Get(c, f) - Get(SiteOf(sites, site), f)
  {
    assert BySite(sites[site := c], f) == BySite(sites, f)[site := Get(c, f)];
    SumUpdates(BySite(sites, f), site, Get(c, f));
  }

  lemma RollingSkips(sites: map<string, Counters>, done: map<string, Endpoint>, key: string, ep: Endpoint)
    requires Rolling(sites, done) && key !in done && ep.site == []
    ensures Rolling(sites, done[key := ep])
  {
    var done' := done[key := ep];
    forall s: string, f: Field
      ensures s != [] ==> Get(SiteOf(sites, s), f) == Sum(ByServer(OfSite(done', s), f))
    {
      OfSiteGrows(done, key, ep, s, f);
    }
    forall f: Field
      ensures Sum(BySite(sites, f)) + Sum(ByServer(OfSite(done', []), f)) == Sum(ByServer(done', f))
    {
      OfSiteGrows(done, key, ep, [], f);
    }
    forall s | s in sites ensures OfSite(done', s) != map[] {
      assert OfSite(done', s) == OfSite(done, s);
    }
  }

  lemma RollingAdds(sites: map<string, Counters>, done: map<string, Endpoint>, key: string, ep: Endpoint, c: Counters)
    requires Rolling(sites, done) && key !in done && ep.site != []
    requires forall f: Field :: Get(c, f) == Get(SiteOf(sites, ep.site), f) + Get(ep.counters, f)
    ensures Rolling(sites[ep.site := c], done[key := ep])
  {
    var sites', done' := sites[ep.site := c], done[key := ep];
    forall s: string, f: Field
      ensures s != [] ==> Get(SiteOf(sites', s), f) == Sum(ByServer(OfSite(done', s), f))
    {
      OfSiteGrows(done, key, ep, s, f);
    }
    forall f: Field
      ensures Sum(BySite(sites', f)) + Sum(ByServer(OfSite(done', []), f)) == Sum(ByServer(done', f))
    {
      OfSiteGrows(done, key, ep, [], f);
      SiteSum(sites, ep.site, c, f);
    }
    forall s | s in sites' ensures OfSite(done', s) != map[] {
      if s == ep.site {
        assert key in OfSite(done', s);
      } else {
        assert OfSite(done', s) == OfSite(done, s);
      }
    }
  }

  /** The per-site part of Snapshot: each mapped server is added to its site. */
  method RollUp(servers: map<string, Endpoint>) returns (sites: map<string, Counters>)
    ensures RolledUp(sites, servers) && SitesConserve(sites, servers)
  {
    sites := map[];
    ghost var done: map<string, Endpoint> := map[];
    var todo := servers.Keys;
    RollingStarts();
    while todo != {}
      invariant todo <= servers.Keys && done == servers - todo
      invariant Rolling(sites, done)
    {
      var key :| key in todo;
      var ep := servers[key];
      if ep.site == [] {
        RollingSkips(sites, done, key, ep);
      } else {
        var c := AddTo(SiteOf(sites, ep.site), ep.counters);
        RollingAdds(sites, done, key, ep, c);
        sites := sites[ep.site := c];
      }
      todo := todo - {key};
      done := done[key := ep];
      assert done == servers - todo;
    }
    assert done == servers;
  }

  /** These are the sums of the servers without a site. */
  ghost predicate UnmappedSums(servers: map<string, Endpoint>, bytes: nat, ok: nat, fail: nat) {
    && bytes == Sum(ByServer(OfSite(servers, []), Bytes))
    && ok == Sum(ByServer(OfSite(servers, []), Ok))
    && fail == Sum(ByServer(OfSite(servers, []), Fail))
  }

  lemma UnmappedStarts()
    ensures UnmappedSums(map[], 0, 0, 0)
  {
    RollingStarts();
  }

  lemma UnmappedGrows(done: map<string, Endpoint>, key: string, ep: Endpoint, bytes: nat, ok: nat, fail: nat)
    requires UnmappedSums(done, bytes, ok, fail) && key !in done
    ensures if ep.site != [] then UnmappedSums(done[key := ep], bytes, ok, fail)
            else UnmappedSums(done[key := ep], bytes + ep.counters.bytes, ok + ep.counters.ok, fail + ep.counters.fail)
  {
    OfSiteGrows(done, key, ep, [], Bytes);
    OfSiteGrows(done, key, ep, [], Ok);
    OfSiteGrows(done, key, ep, [], Fail);
  }

  /** The totals printed for servers without a site. */
  method UnmappedTotals(servers: map<string, Endpoint>) returns (bytes: nat, ok: nat, fail: nat)
    ensures UnmappedSums(servers, bytes, ok, fail)
  {
    hide UnmappedSums;
    bytes, ok, fail := 0, 0, 0;
    ghost var done: map<string, Endpoint> := map[];
    var todo := servers.Keys;
    UnmappedStarts();
    while todo != {}
      invariant todo <= servers.Keys && done == servers - todo
      invariant UnmappedSums(done, bytes, ok, fail)
    {
      var key :| key in todo;
      var ep := servers[key];
      UnmappedGrows(done, key, ep, bytes, ok, fail);
      if ep.site == [] {
        bytes, ok, fail := bytes + ep.counters.bytes, ok + ep.counters.ok, fail + ep.counters.fail;
      }
      todo := todo - {key};
      done := done[key := ep];
      assert done == servers - todo;
    }
    assert done == servers;
  }

  /** After any observations and remappings, the sites' sums and those of the unmapped servers
      together equal the global counters. */
  lemma SitesAccountForTotals(observations: seq<Observation>, sites: map<string, Counters>, f: Field)
    requires SitesConserve(sites, ObserveAll(observations).servers) && f != Class(None)
    ensures var r := ObserveAll(observations);
            Sum(BySite(sites, f)) + Sum(ByServer(OfSite(r.servers, []), f)) == Get(r.total, f)
  {
    AttributionConserves(observations);
  }
}
