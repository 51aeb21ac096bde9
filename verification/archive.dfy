/** The readership archive: one day is one transaction of guarded upserts, in whatever order runs arrive. */
module Archive {
  import opened Base
  import opened Totals

  datatype Coverage = Complete | Partial | Missing

  datatype Dimension = SiteTotals | Pages | Referrers

  datatype Sampling = Unsampled | Sampled | SamplingUnknown

  datatype SiteQuality = Observed | SampledEstimate | PartialQuality

  datatype Source = Direct | Search | External

  datatype Counts = Counts(pageLoads: nat, visits: nat, interval: Option<int>)

  // One group of a dimension: a requested path, or a referring host.
  datatype RumRow = RumRow(key: string, counts: Counts)

  datatype Groups = Groups(rows: seq<RumRow>, status: Coverage, sampled: Sampling, filtered: bool,
                           returned: int, limit: int, pageLoadsDelta: int, visitsDelta: int)

  datatype Site = Site(counts: Counts, status: Coverage, sampled: Sampling, filtered: bool)

  // One day as the analytics client delivers it, or its failure.
  datatype RumDay =
    | Unread
    | Read(day: int, window: int, filtered: bool, site: Site, pages: Groups, referrers: Groups)

  datatype States = States(site: Coverage, pages: Coverage, referrers: Coverage)

  const NOTHING := States(Missing, Missing, Missing)

  datatype SiteRow = SiteRow(pageLoads: nat, visits: nat, quality: SiteQuality, at: int)

  datatype DimensionRow = DimensionRow(lastAttempt: int, lastSuccess: Option<int>, result: Coverage)

  datatype CountRow = CountRow(count: nat, at: int)

  // Rows by day; a day without an entry has no rows.
  datatype Tables = Tables(site: map<int, SiteRow>, dimensions: map<int, map<Dimension, DimensionRow>>,
                           pages: map<int, map<string, CountRow>>, referrers: map<int, map<Source, CountRow>>)

  const EMPTY := Tables(map[], map[], map[], map[])

  // ----- grouped: coverage deltas of one dimension -----

  function PageLoads(rows: seq<RumRow>): nat {
    if rows == [] then 0 else PageLoads(rows[..|rows| - 1]) + rows[|rows| - 1].counts.pageLoads
  }

  function Visits(rows: seq<RumRow>): nat {
    if rows == [] then 0 else Visits(rows[..|rows| - 1]) + rows[|rows| - 1].counts.visits
  }

  // The sampling of a group of rows.
  function SamplingOf(rows: seq<RumRow>): Sampling {
    if exists i :: 0 <= i < |rows| && rows[i].counts.interval.Some? && rows[i].counts.interval.value > 1 then Sampled
    else if rows == [] || exists i :: 0 <= i < |rows| && rows[i].counts.interval.None? then SamplingUnknown
    else Unsampled
  }

  predicate IntervalAbove(row: RumRow, n: int) {
    row.counts.interval.Some? && row.counts.interval.value > n
  }

  // Every event was seen.
  predicate Exact(row: RumRow) {
    row.counts.interval.Some? && row.counts.interval.value <= 1
  }

  method Grouped(rows: seq<RumRow>, site: Counts, limit: int) returns (g: Groups)
    ensures g.rows == rows && g.returned == |rows| && g.limit == limit && g.filtered
    ensures g.pageLoadsDelta == PageLoads(rows) - site.pageLoads && g.visitsDelta == Visits(rows) - site.visits
    ensures g.sampled == SamplingOf(rows)
    ensures g.sampled == Sampled <==> exists i :: 0 <= i < |rows| && IntervalAbove(rows[i], 1)
    ensures g.sampled == Unsampled <==> rows != [] && forall i | 0 <= i < |rows| :: Exact(rows[i])
    ensures g.status == Complete <==>
      && |rows| != limit && PageLoads(rows) == site.pageLoads && Visits(rows) == site.visits
      && (rows != [] ==> g.sampled == Unsampled && site.interval.Some? && site.interval.value <= 1)
    ensures g.status == Complete || g.status == Partial
  {
    var pageLoads, visits := 0, 0;
    for i := 0 to |rows|
      invariant pageLoads == PageLoads(rows[..i]) && visits == Visits(rows[..i])
    {
      assert rows[..i + 1][..i] == rows[..i];
      pageLoads := pageLoads + rows[i].counts.pageLoads;
      visits := visits + rows[i].counts.visits;
    }
    assert rows[..|rows|] == rows;
    SamplingMeans(rows);
    hide SamplingOf;
    var sampled, status := SamplingOf(rows), Complete;
    if |rows| == limit { status := Partial; }
    if pageLoads != site.pageLoads { status := Partial; }
    if visits != site.visits { status := Partial; }
    if rows != [] && (sampled != Unsampled || site.interval.None? || site.interval.value > 1) { status := Partial; }
    g := Groups(rows, status, sampled, true, |rows|, limit, pageLoads - site.pageLoads, visits - site.visits);
  }

  lemma SamplingMeans(rows: seq<RumRow>)
    ensures SamplingOf(rows) == Sampled <==> exists i :: 0 <= i < |rows| && IntervalAbove(rows[i], 1)
    ensures SamplingOf(rows) == Unsampled <==> rows != [] && forall i | 0 <= i < |rows| :: Exact(rows[i])
  {
  }

  // ----- what one run would store -----

  function PageCounts(rows: seq<RumRow>, routes: map<string, string>): map<string, nat> {
    if rows == [] then map[]
    else
      var before, row := PageCounts(rows[..|rows| - 1], routes), rows[|rows| - 1];
      if row.key in routes then Add(before, routes[row.key], row.counts.pageLoads) else before
  }

  predicate AllRouted(rows: seq<RumRow>, routes: map<string, string>) {
    forall i | 0 <= i < |rows| :: rows[i].key in routes
  }

  // None for the site's own hosts.
  function SourceOf(host: string): Option<Source> {
    if host == "gopheratlas.com" || host == "www.gopheratlas.com" then None
    else if host == "direct-unknown" then Some(Direct)
    else if host == "bing.com" || host == "www.bing.com" then Some(Search)
    else Some(External)
  }

  function SourceCounts(rows: seq<RumRow>): map<Source, nat> {
    if rows == [] then map[]
    else
      var before, row := SourceCounts(rows[..|rows| - 1]), rows[|rows| - 1];
      if SourceOf(row.key).Some? then Add(before, SourceOf(row.key).value, row.counts.visits) else before
  }

  // Evidence that a dimension is not complete after all.
  predicate Contradicted(g: Groups, site: Site) {
    || g.returned >= g.limit || g.pageLoadsDelta != 0 || g.visitsDelta != 0
    || (|g.rows| > 0 && (!g.sampled.Unsampled? || !site.sampled.Unsampled?))
  }

  function QualityOf(site: Site): SiteQuality {
    if site.status.Partial? then PartialQuality
    else match site.sampled
      case Sampled => SampledEstimate
      case Unsampled => Observed
      case SamplingUnknown => PartialQuality
  }

  function StatesOf(rum: RumDay, routes: map<string, string>): States
    requires rum.Read?
  {
    States(if QualityOf(rum.site).PartialQuality? then Partial else rum.site.status,
           if !AllRouted(rum.pages.rows, routes) || Contradicted(rum.pages, rum.site) then Partial else rum.pages.status,
           if Contradicted(rum.referrers, rum.site) then Partial else rum.referrers.status)
  }

  predicate Acceptable(day: int, window: int, rum: RumDay) {
    && rum.Read? && rum.day == day && rum.window == window && !rum.site.status.Missing?
    && rum.filtered && rum.site.filtered && rum.pages.filtered && rum.referrers.filtered
  }

  // An arrival at the archive: a stored run, or a failure recorded for the day.
  datatype Event =
    | Stored(day: int, at: int, pageLoads: nat, visits: nat, quality: SiteQuality, states: States,
             pages: map<string, nat>, sources: map<Source, nat>)
    | Failed(day: int, at: int)

  function SiteOf(e: Event): SiteRow
    requires e.Stored?
  {
    SiteRow(e.pageLoads, e.visits, e.quality, e.at)
  }

  function StoredEvent(day: int, at: int, rum: RumDay, routes: map<string, string>): Event
    requires rum.Read?
  {
    Stored(day, at, rum.site.counts.pageLoads, rum.site.counts.visits, QualityOf(rum.site), StatesOf(rum, routes),
           PageCounts(rum.pages.rows, routes), SourceCounts(rum.referrers.rows))
  }

  // ----- the statements of one transaction -----

  function UpsertSite(t: Tables, day: int, row: SiteRow): Tables {
    if day in t.site && row.at < t.site[day].at then t else t.(site := t.site[day := row])
  }

  function Row(t: Tables, day: int, d: Dimension): Option<DimensionRow> {
    if day in t.dimensions && d in t.dimensions[day] then Some(t.dimensions[day][d]) else None
  }

  function PutRow(t: Tables, day: int, d: Dimension, row: DimensionRow): Tables {
    t.(dimensions := t.dimensions[day := (if day in t.dimensions then t.dimensions[day] else map[])[d := row]])
  }

  // INSERT ... ON CONFLICT DO UPDATE ... WHERE excluded.last_attempt_at >= daily_dimensions.last_attempt_at
  function UpsertState(t: Tables, day: int, d: Dimension, state: Coverage, at: int, saved: bool): Tables {
    match Row(t, day, d)
    case None => PutRow(t, day, d, DimensionRow(at, if saved then Some(at) else None, state))
    case Some(row) =>
      if at < row.lastAttempt then t
      else PutRow(t, day, d, DimensionRow(at, if saved then Some(at) else row.lastSuccess, state))
  }

  // NOT EXISTS(... last_attempt_at > ?)
  predicate Unguarded(t: Tables, day: int, d: Dimension, at: int) {
    Row(t, day, d).Some? ==> Row(t, day, d).value.lastAttempt <= at
  }

  function Stamped<K(==)>(counts: map<K, nat>, at: int): map<K, CountRow> {
    map k | k in counts :: CountRow(counts[k], at)
  }

  function ReplacePages(t: Tables, day: int, counts: map<string, nat>, at: int): Tables {
    if Unguarded(t, day, Pages, at) then t.(pages := t.pages[day := Stamped(counts, at)]) else t
  }

  function ReplaceReferrers(t: Tables, day: int, counts: map<Source, nat>, at: int): Tables {
    if Unguarded(t, day, Referrers, at) then t.(referrers := t.referrers[day := Stamped(counts, at)]) else t
  }

  function UpsertStates(t: Tables, day: int, s: States, at: int, saved: bool): Tables {
    var site := UpsertState(t, day, SiteTotals, s.site, at, saved);
    var pages := UpsertState(site, day, Pages, s.pages, at, saved && s.pages.Complete?);
    UpsertState(pages, day, Referrers, s.referrers, at, saved && s.referrers.Complete?)
  }

  function Next(t: Tables, e: Event): Tables {
    match e
    case Failed(day, at) => UpsertStates(t, day, NOTHING, at, false)
    case Stored(day, at, _, _, _, states, pages, sources) =>
      var t1 := UpsertSite(t, day, SiteOf(e));
      var t2 := if states.pages.Complete? then ReplacePages(t1, day, pages, at) else t1;
      var t3 := if states.referrers.Complete? then ReplaceReferrers(t2, day, sources, at) else t2;
      UpsertStates(t3, day, states, at, true)
  }

  // The tables after a history of arrivals.
  function After(h: seq<Event>): Tables {
    if h == [] then EMPTY else Next(After(h[..|h| - 1]), h[|h| - 1])
  }

  // ----- the archive as code -----

  datatype Delivery = Works | Breaks | BreaksAfter

  class StatsDatabase {
    var tables: Tables

    constructor ()
      ensures tables == EMPTY
    {
      tables := EMPTY;
    }

    method RecordFailure(day: int, at: int)
      modifies this
      ensures tables == Next(old(tables), Failed(day, at))
    {
      tables := UpsertState(tables, day, SiteTotals, Missing, at, false);
      tables := UpsertState(tables, day, Pages, Missing, at, false);
      tables := UpsertState(tables, day, Referrers, Missing, at, false);
    }

    /**
     * Archives one day's reading. A refused, failed or interrupted run is recorded as a failure; a stored one is
     * the transaction of its event, and an interruption after the commit is that event followed by a failure.
     */
    method ArchiveDay(day: int, window: int, rum: RumDay, routes: map<string, string>, at: int, delivery: Delivery)
      returns (states: States)
      modifies this
      ensures !Acceptable(day, window, rum) ==> tables == Next(old(tables), Failed(day, at)) && states == NOTHING
      ensures Acceptable(day, window, rum) ==>
        match delivery
        case Works => tables == Next(old(tables), StoredEvent(day, at, rum, routes)) && states == StatesOf(rum, routes)
        case Breaks => tables == Next(old(tables), Failed(day, at))
        case BreaksAfter => tables == Next(Next(old(tables), StoredEvent(day, at, rum, routes)), Failed(day, at))
    {
      hide UpsertSite, UpsertState, ReplacePages, ReplaceReferrers, Contradicted, PageCounts, SourceCounts, QualityOf, AllRouted;
      if !Acceptable(day, window, rum) {
        RecordFailure(day, at);
        return NOTHING;
      }
      states := States(rum.site.status, rum.pages.status, rum.referrers.status);
      var pages, unrouted := CountPages(rum.pages.rows, routes);
      if unrouted { states := states.(pages := Partial); }
      var sources := CountSources(rum.referrers.rows);
      if Contradicted(rum.pages, rum.site) { states := states.(pages := Partial); }
      if Contradicted(rum.referrers, rum.site) { states := states.(referrers := Partial); }
      var quality := QualityOf(rum.site);
      if quality.PartialQuality? { states := states.(site := Partial); }
      if delivery != Breaks {
        tables := UpsertSite(tables, day, SiteRow(rum.site.counts.pageLoads, rum.site.counts.visits, quality, at));
        if states.pages.Complete? { tables := ReplacePages(tables, day, pages, at); }
        if states.referrers.Complete? { tables := ReplaceReferrers(tables, day, sources, at); }
        tables := UpsertState(tables, day, SiteTotals, states.site, at, true);
        tables := UpsertState(tables, day, Pages, states.pages, at, states.pages.Complete?);
        tables := UpsertState(tables, day, Referrers, states.referrers, at, states.referrers.Complete?);
      }
      if delivery != Works {
        RecordFailure(day, at);
      }
    }
  }

  method CountPages(rows: seq<RumRow>, routes: map<string, string>) returns (pages: map<string, nat>, unrouted: bool)
    ensures pages == PageCounts(rows, routes) && (unrouted <==> !AllRouted(rows, routes))
  {
    pages, unrouted := map[], false;
    for i := 0 to |rows|
      invariant pages == PageCounts(rows[..i], routes) && (unrouted <==> !AllRouted(rows[..i], routes))
    {
      assert rows[..i + 1][..i] == rows[..i];
      assert AllRouted(rows[..i + 1], routes) <==> AllRouted(rows[..i], routes) && rows[i].key in routes by {
        assert rows[..i + 1] == rows[..i] + [rows[i]];
      }
      if rows[i].key !in routes {
        unrouted := true;
      } else {
        var path := routes[rows[i].key];
        pages := pages[path := Get(pages, path) + rows[i].counts.pageLoads];
      }
    }
    assert rows[..|rows|] == rows;
  }

  method CountSources(rows: seq<RumRow>) returns (sources: map<Source, nat>)
    ensures sources == SourceCounts(rows)
  {
    sources := map[];
    for i := 0 to |rows|
      invariant sources == SourceCounts(rows[..i])
    {
      assert rows[..i + 1][..i] == rows[..i];
      var source := SourceOf(rows[i].key);
      if source.Some? {
        sources := sources[source.value := Get(sources, source.value) + rows[i].counts.visits];
      }
    }
    assert rows[..|rows|] == rows;
  }

  // ----- conservation inside one run -----

  lemma {:induction false} PageCountsSum(rows: seq<RumRow>, routes: map<string, string>)
    requires AllRouted(rows, routes)
    ensures Sum(PageCounts(rows, routes)) == PageLoads(rows)
  {
    if rows != [] {
      var n := |rows| - 1;
      PageCountsSum(rows[..n], routes);
      SumAdd(PageCounts(rows[..n], routes), routes[rows[n].key], rows[n].counts.pageLoads);
    }
  }

  function OwnVisits(rows: seq<RumRow>): nat {
    if rows == [] then 0
    else
      var row := rows[|rows| - 1];
      OwnVisits(rows[..|rows| - 1]) + if SourceOf(row.key).None? then row.counts.visits else 0
  }

  // The visits counted by source and those from the site's own hosts are all visits of the rows.
  lemma {:induction false} SourceCountsSum(rows: seq<RumRow>)
    ensures Sum(SourceCounts(rows)) + OwnVisits(rows) == Visits(rows)
  {
    if rows != [] {
      var n := |rows| - 1;
      SourceCountsSum(rows[..n]);
      var source := SourceOf(rows[n].key);
      if source.Some? { SumAdd(SourceCounts(rows[..n]), source.value, rows[n].counts.visits); }
    }
  }

  // The groups of a reading carry the deltas their rows have, as grouped computes them.
  predicate Honest(rum: RumDay) {
    rum.Read? ==>
      && rum.pages.pageLoadsDelta == PageLoads(rum.pages.rows) - rum.site.counts.pageLoads
      && rum.referrers.visitsDelta == Visits(rum.referrers.rows) - rum.site.counts.visits
  }

  // A stored run whose complete pages sum to its site total, and whose complete sources do not exceed it.
  ghost predicate Balanced(e: Event) {
    e.Stored? ==>
      && (e.states.pages.Complete? ==> Sum(e.pages) == e.pageLoads)
      && (e.states.referrers.Complete? ==> Sum(e.sources) <= e.visits)
  }

  lemma StoredIsBalanced(day: int, at: int, rum: RumDay, routes: map<string, string>)
    requires rum.Read? && Honest(rum)
    ensures Balanced(StoredEvent(day, at, rum, routes))
  {
    if StatesOf(rum, routes).pages.Complete? { PageCountsSum(rum.pages.rows, routes); }
    SourceCountsSum(rum.referrers.rows);
  }

  // ----- histories of deliveries -----

  // One call of the archive: a day's reading under the manifest of the moment, or a failure reported before it.
  datatype Arrival =
    | Reading(day: int, window: int, rum: RumDay, routes: map<string, string>, at: int, delivery: Delivery)
    | Lost(day: int, at: int)

  // The transactions an arrival commits.
  function EventsOf(a: Arrival): seq<Event> {
    match a
    case Lost(day, at) => [Failed(day, at)]
    case Reading(day, window, rum, routes, at, delivery) =>
      if !Acceptable(day, window, rum) then [Failed(day, at)]
      else match delivery
        case Works => [StoredEvent(day, at, rum, routes)]
        case Breaks => [Failed(day, at)]
        case BreaksAfter => [StoredEvent(day, at, rum, routes), Failed(day, at)]
  }

  function Events(arrivals: seq<Arrival>): seq<Event> {
    if arrivals == [] then [] else Events(arrivals[..|arrivals| - 1]) + EventsOf(arrivals[|arrivals| - 1])
  }

  ghost predicate AllBalanced(h: seq<Event>) {
    forall i | 0 <= i < |h| :: Balanced(h[i])
  }

  ghost predicate AllHonest(arrivals: seq<Arrival>) {
    forall i | 0 <= i < |arrivals| && arrivals[i].Reading? :: Honest(arrivals[i].rum)
  }

  /** Whatever arrives, every transaction it commits is balanced: nothing but the deltas of the readings is needed. */
  lemma {:induction false} EventsAreBalanced(arrivals: seq<Arrival>)
    requires AllHonest(arrivals)
    ensures AllBalanced(Events(arrivals))
  {
    hide Balanced, StoredEvent, Acceptable, Honest;
    if arrivals != [] {
      var n := |arrivals| - 1;
      EventsAreBalanced(arrivals[..n]);
      ArrivalIsBalanced(arrivals[n]);
    }
  }

  lemma ArrivalIsBalanced(a: Arrival)
    requires a.Reading? ==> Honest(a.rum)
    ensures AllBalanced(EventsOf(a))
  {
    hide StoredEvent;
    if a.Reading? && a.rum.Read? { StoredIsBalanced(a.day, a.at, a.rum, a.routes); }
  }

  lemma AfterOne(h: seq<Event>, e: Event)
    ensures After(h + [e]) == Next(After(h), e)
  {
    hide Next;
    assert (h + [e])[..|h|] == h;
  }

  method Arrive(db: StatsDatabase, a: Arrival, ghost h: seq<Event>)
    requires db.tables == After(h)
    modifies db
    ensures db.tables == After(h + EventsOf(a))
  {
    hide Next, StoredEvent, StatesOf, Acceptable, After;
    AfterMore(h, EventsOf(a));
    match a {
      case Lost(day, at) => db.RecordFailure(day, at);
      case Reading(day, window, rum, routes, at, delivery) =>
        var _ := db.ArchiveDay(day, window, rum, routes, at, delivery);
    }
  }

  /** Running the archive over a list of arrivals leaves the tables of their transactions. */
  method ArchiveAll(db: StatsDatabase, arrivals: seq<Arrival>)
    requires db.tables == EMPTY
    modifies db
    ensures db.tables == After(Events(arrivals))
  {
    hide EventsOf;
    for i := 0 to |arrivals|
      invariant db.tables == After(Events(arrivals[..i]))
    {
      assert arrivals[..i + 1][..i] == arrivals[..i];
      Arrive(db, arrivals[i], Events(arrivals[..i]));
    }
    assert arrivals[..|arrivals|] == arrivals;
  }

  lemma AfterMore(h: seq<Event>, es: seq<Event>)
    requires 1 <= |es| <= 2
    ensures |es| == 1 ==> After(h + es) == Next(After(h), es[0])
    ensures |es| == 2 ==> After(h + es) == Next(Next(After(h), es[0]), es[1])
  {
    hide Next, After;
    if |es| == 1 {
      assert es == [es[0]];
      AfterOne(h, es[0]);
    } else {
      assert h + es == (h + [es[0]]) + [es[1]];
      AfterOne(h, es[0]);
      AfterOne(h + [es[0]], es[1]);
    }
  }
}
