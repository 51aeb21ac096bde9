/** What one reading of a day stores: sources, pages, quality and coverage in terms of the rows it delivers. */
module ArchiveMeaning {
  import opened Base
  import opened Totals
  import opened Archive

  // ----- visits by source -----

  // The visits of the rows from these hosts.
  function VisitsFrom(rows: seq<RumRow>, hosts: set<string>): nat {
    if rows == [] then 0
    else
      var last := rows[|rows| - 1];
      VisitsFrom(rows[..|rows| - 1], hosts) + if last.key in hosts then last.counts.visits else 0
  }

  const NAMED := {"gopheratlas.com", "www.gopheratlas.com", "bing.com", "www.bing.com", "direct-unknown"}

  predicate FromHost(rows: seq<RumRow>, hosts: set<string>) {
    exists i :: 0 <= i < |rows| && rows[i].key in hosts
  }

  /** Direct visits are those without a referrer, search visits those from Bing, and all but the site's own are external. */
  lemma {:induction false} SourcesMean(rows: seq<RumRow>)
    ensures var m := SourceCounts(rows);
      && Get(m, Direct) == VisitsFrom(rows, {"direct-unknown"}) && Get(m, Search) == VisitsFrom(rows, {"bing.com", "www.bing.com"})
      && Get(m, External) + VisitsFrom(rows, NAMED) == Visits(rows)
      && (Direct in m <==> FromHost(rows, {"direct-unknown"})) && (Search in m <==> FromHost(rows, {"bing.com", "www.bing.com"}))
  {
    if rows != [] {
      var n := |rows| - 1;
      SourcesMean(rows[..n]);
      FromMore(rows, {"direct-unknown"});
      FromMore(rows, {"bing.com", "www.bing.com"});
    }
  }

  lemma FromMore(rows: seq<RumRow>, hosts: set<string>)
    requires rows != []
    ensures FromHost(rows, hosts) <==> FromHost(rows[..|rows| - 1], hosts) || rows[|rows| - 1].key in hosts
  {
    var n := |rows| - 1;
    if i :| 0 <= i < |rows| && rows[i].key in hosts {
      if i < n { assert rows[..n][i].key in hosts; }
    }
    if i :| 0 <= i < n && rows[..n][i].key in hosts { assert rows[i].key in hosts; }
  }

  // ----- page loads by path -----

  // The page loads of the rows whose request leads to this path.
  function LoadsAt(rows: seq<RumRow>, routes: map<string, string>, path: string): nat {
    if rows == [] then 0
    else
      var last := rows[|rows| - 1];
      LoadsAt(rows[..|rows| - 1], routes, path) + if last.key in routes && routes[last.key] == path then last.counts.pageLoads else 0
  }

  predicate LeadsTo(row: RumRow, routes: map<string, string>, path: string) {
    row.key in routes && routes[row.key] == path
  }

  predicate Requested(rows: seq<RumRow>, routes: map<string, string>, path: string) {
    exists i :: 0 <= i < |rows| && LeadsTo(rows[i], routes, path)
  }

  /** Page loads are counted under the path a request leads to; a request that leads nowhere counts for none. */
  lemma {:induction false} PagesMean(rows: seq<RumRow>, routes: map<string, string>, path: string)
    ensures Get(PageCounts(rows, routes), path) == LoadsAt(rows, routes, path)
    ensures path in PageCounts(rows, routes) <==> Requested(rows, routes, path)
  {
    if rows != [] {
      var n := |rows| - 1;
      PagesMean(rows[..n], routes, path);
      if i :| 0 <= i < |rows| && LeadsTo(rows[i], routes, path) {
        if i < n { assert LeadsTo(rows[..n][i], routes, path); }
      }
      if i :| 0 <= i < n && LeadsTo(rows[..n][i], routes, path) { assert LeadsTo(rows[i], routes, path); }
    }
  }

  // ----- what is accepted, and how well it is covered -----

  // Rows that disagree with the site total, fill the limit, or were sampled.
  predicate Doubtful(g: Groups, site: Site) {
    g.returned >= g.limit || g.pageLoadsDelta != 0 || g.visitsDelta != 0
    || (g.rows != [] && !(g.sampled == Unsampled && site.sampled == Unsampled))
  }

  predicate Usable(a: Arrival)
    requires a.Reading?
  {
    var r := a.rum;
    r.Read? && r.day == a.day && r.window == a.window && r.site.status != Missing
    && r.filtered && r.site.filtered && r.pages.filtered && r.referrers.filtered
  }

  /** A reading is stored exactly when it is of the day and window asked for, has a site total and is filtered throughout. */
  lemma UsableIsStored(a: Arrival)
    requires a.Reading? && a.delivery == Works
    ensures |EventsOf(a)| == 1 && EventsOf(a)[0].day == a.day && EventsOf(a)[0].at == a.at
    ensures EventsOf(a)[0].Stored? <==> Usable(a)
  {
  }

  /** What a stored reading holds: its totals, and a coverage that is complete only without any reason for doubt. */
  lemma StoredMeans(a: Arrival)
    requires a.Reading? && a.delivery == Works && Usable(a)
    ensures var e, r := EventsOf(a)[0], a.rum;
      && e.Stored? && e.pageLoads == r.site.counts.pageLoads && e.visits == r.site.counts.visits
      && e.quality == (if r.site.status == Partial || r.site.sampled == SamplingUnknown then PartialQuality
                       else if r.site.sampled == Sampled then SampledEstimate else Observed)
      && e.states.site == (if r.site.status == Complete && r.site.sampled != SamplingUnknown then Complete else Partial)
      && e.states.pages == (if Doubtful(r.pages, r.site) || exists i :: 0 <= i < |r.pages.rows| && r.pages.rows[i].key !in a.routes
                            then Partial else r.pages.status)
      && e.states.referrers == (if Doubtful(r.referrers, r.site) then Partial else r.referrers.status)
      && e.pages == PageCounts(r.pages.rows, a.routes) && e.sources == SourceCounts(r.referrers.rows)
  {
    hide PageCounts, SourceCounts;
  }
}
