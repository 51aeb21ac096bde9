/** The public readership report over the archive: coverage, totals and rankings of a range of days. */
module Readership {
  import opened Base
  import opened Ordering
  import opened Totals
  import opened Archive
  import opened ArchiveHistory

  // ----- the queries -----

  // SELECT ... FROM daily_site_traffic WHERE day BETWEEN start AND end ORDER BY day
  function SiteDays(t: Tables, start: int, end: int): (days: seq<int>)
    ensures forall i | 0 <= i < |days| :: start <= days[i] <= end && days[i] in t.site
    ensures forall i, j | 0 <= i < j < |days| :: days[i] < days[j]
    decreases end - start
  {
    if end < start then []
    else if end in t.site then SiteDays(t, start, end - 1) + [end]
    else SiteDays(t, start, end - 1)
  }

  // The last result of a day for a dimension is complete, and the day has a site total.
  predicate CompleteDay(t: Tables, d: Dimension, day: int) {
    day in t.site && day in t.dimensions && d in t.dimensions[day] && t.dimensions[day][d].result == Complete
  }

  predicate Good(t: Tables, d: Dimension, day: int) {
    Archive.Row(t, day, d).Some? && Archive.Row(t, day, d).value.result.Complete? && day in t.site
  }

  // The days whose last result for a dimension is complete and that have a site row.
  function GoodDays(t: Tables, d: Dimension, start: int, end: int): (days: seq<int>)
    ensures forall i | 0 <= i < |days| :: start <= days[i] <= end && Good(t, d, days[i])
    decreases end - start
  {
    if end < start then []
    else if Good(t, d, end) then GoodDays(t, d, start, end - 1) + [end]
    else GoodDays(t, d, start, end - 1)
  }

  // One row of a traffic table: a page or a source, and its count on a day.
  datatype Record<K> = Record(day: int, key: K, count: nat)

  function DayRecords<K(!new, ==)>(lt: (K, K) -> bool, rows: map<int, map<K, CountRow>>, day: int): seq<Record<K>>
    requires StrictTotal(lt)
  {
    if day !in rows then []
    else
      var keys := Sorted(lt, rows[day].Keys);
      seq(|keys|, i requires 0 <= i < |keys| => Record(day, keys[i], rows[day][keys[i]].count))
  }

  // SELECT ... WHERE day BETWEEN start AND end, for the page rows and for the referrer rows
  function Records<K(!new, ==)>(lt: (K, K) -> bool, rows: map<int, map<K, CountRow>>, start: int, end: int): seq<Record<K>>
    requires StrictTotal(lt)
    decreases end - start
  {
    if end < start then [] else Records(lt, rows, start, end - 1) + DayRecords(lt, rows, end)
  }

  predicate SourceLess(a: Source, b: Source) {
    (a.Direct? && !b.Direct?) || (a.Search? && b.External?)
  }

  function PageRecords(t: Tables, start: int, end: int): seq<Record<string>> {
    PathOrder();
    Records(PathLess, t.pages, start, end)
  }

  function SourceRecords(t: Tables, start: int, end: int): seq<Record<Source>> {
    Records(SourceLess, t.referrers, start, end)
  }

  // ----- the report -----

  // The routes of the manifest that are their own canonical path, with their titles.
  predicate AllCurrent(records: seq<Record<string>>, current: map<string, string>) {
    forall i | 0 <= i < |records| :: records[i].key in current
  }

  datatype Availability = Unavailable | PartlyCovered | Covered

  datatype DimensionCoverage = DimensionCoverage(available: bool, status: Availability, days: int)

  datatype PopularPage = PopularPage(path: string, title: string, pageLoads: nat, share: real)

  datatype Report = Report(site: DimensionCoverage, pages: DimensionCoverage, referrers: DimensionCoverage,
                           totals: Option<(nat, nat)>, pageTotals: map<string, nat>, popular: seq<PopularPage>,
                           sourceTotals: map<Source, nat>, sources: seq<(Source, nat)>)

  predicate Contiguous(days: seq<int>, end: int) {
    days != [] && |days| == end - days[0] + 1
  }

  predicate RankedBefore(a: (string, nat), b: (string, nat)) {
    a.1 > b.1 || (a.1 == b.1 && PathLess(a.0, b.0))
  }

  lemma RankOrder()
    ensures StrictTotal(RankedBefore)
  {
    PathOrder();
  }

  // All pages, most read first.
  function Ranking(totals: map<string, nat>): (r: seq<(string, nat)>)
    ensures forall i, j | 0 <= i < j < |r| :: r[i].1 > r[j].1 || (r[i].1 == r[j].1 && PathLess(r[i].0, r[j].0))
    ensures forall x :: x in r <==> x.0 in totals && totals[x.0] == x.1
  {
    RankOrder();
    var r := Sorted(RankedBefore, set p | p in totals :: (p, totals[p]));
    assert forall i, j | 0 <= i < j < |r| :: RankedBefore(r[i], r[j]);
    r
  }

  predicate SourceBefore(a: (Source, nat), b: (Source, nat)) {
    a.1 > b.1 || (a.1 == b.1 && SourceLess(a.0, b.0))
  }

  // All sources, most visits first.
  function SourceRanking(totals: map<Source, nat>): (r: seq<(Source, nat)>)
    ensures forall i, j | 0 <= i < j < |r| :: r[i].1 >= r[j].1 && r[i].0 != r[j].0
    ensures forall x :: x in r <==> x.0 in totals && totals[x.0] == x.1
  {
    hide StrictTotal, Ascending, SourceBefore;
    SourceOrder();
    var r := Sorted(SourceBefore, set s | s in totals :: (s, totals[s]));
    EachSourceOnce(r, totals);
    r
  }

  lemma SourceOrder()
    ensures StrictTotal(SourceBefore)
  {
  }

  lemma EachSourceOnce(r: seq<(Source, nat)>, totals: map<Source, nat>)
    requires Ascending(SourceBefore, r)
    requires forall x :: x in r <==> x.0 in totals && totals[x.0] == x.1
    ensures forall i, j | 0 <= i < j < |r| :: r[i].1 >= r[j].1 && r[i].0 != r[j].0
  {
    forall i, j | 0 <= i < j < |r|
      ensures r[i].1 >= r[j].1 && r[i].0 != r[j].0
    {
      assert SourceBefore(r[i], r[j]) && r[i] in r && r[j] in r;
    }
  }

  // A fraction of one which of all loads is these.
  predicate IsShare(share: real, loads: nat, all: nat) {
    0.0 <= share <= 1.0 && share * all as real == loads as real
  }

  function ShareOf(loads: nat, total: nat): real {
    if total == 0 then 0.0 else loads as real / total as real
  }

  function SiteLoads(t: Tables, days: seq<int>): nat
    requires forall i | 0 <= i < |days| :: days[i] in t.site
  {
    if days == [] then 0 else SiteLoads(t, days[..|days| - 1]) + t.site[days[|days| - 1]].pageLoads
  }

  function SiteVisits(t: Tables, days: seq<int>): nat
    requires forall i | 0 <= i < |days| :: days[i] in t.site
  {
    if days == [] then 0 else SiteVisits(t, days[..|days| - 1]) + t.site[days[|days| - 1]].visits
  }

  function Loads<K>(records: seq<Record<K>>): nat {
    if records == [] then 0 else Loads(records[..|records| - 1]) + records[|records| - 1].count
  }

  function LoadsOf<K(==)>(records: seq<Record<K>>, key: K): nat {
    if records == [] then 0
    else
      var last := records[|records| - 1];
      LoadsOf(records[..|records| - 1], key) + if last.key == key then last.count else 0
  }

  function CoverageOf(t: Tables, d: Dimension, start: int, end: int): DimensionCoverage {
    var good, sites := |GoodDays(t, d, start, end)|, |SiteDays(t, start, end)|;
    var count := if d.SiteTotals? then sites else good;
    DimensionCoverage(d.SiteTotals? && count > 0,
                      if count == 0 then Unavailable
                      else if count == end - start + 1 && good == end - start + 1 then Covered else PartlyCovered,
                      count)
  }

  // The days of a range that count for a dimension.
  ghost function DaysFor(t: Tables, d: Dimension, start: int, end: int): set<int> {
    set day | start <= day <= end && if d == SiteTotals then day in t.site else CompleteDay(t, d, day)
  }

  // What the coverage of a dimension tells of the days of a range.
  ghost predicate Describes(c: DimensionCoverage, t: Tables, d: Dimension, start: int, end: int) {
    && c.days == |DaysFor(t, d, start, end)|
    && (c.status.Covered? <==> forall day | start <= day <= end :: CompleteDay(t, d, day))
    && (c.status.Unavailable? <==> c.days == 0)
  }

  lemma {:induction false} DaysCounted(t: Tables, d: Dimension, start: int, end: int)
    ensures |DaysFor(t, d, start, end)| == if d == SiteTotals then |SiteDays(t, start, end)| else |GoodDays(t, d, start, end)|
    decreases end - start
  {
    if start <= end {
      DaysCounted(t, d, start, end - 1);
      var before, all := DaysFor(t, d, start, end - 1), DaysFor(t, d, start, end);
      assert all == before || all == before + {end};
    } else {
      assert DaysFor(t, d, start, end) == {};
    }
  }

  // As many good days, or site days, as days means all of them; none means none.
  lemma {:induction false} CountDays(t: Tables, d: Dimension, start: int, end: int)
    requires start <= end + 1
    ensures |GoodDays(t, d, start, end)| <= end - start + 1 && |SiteDays(t, start, end)| <= end - start + 1
    ensures |GoodDays(t, d, start, end)| == end - start + 1 <==> forall day | start <= day <= end :: Good(t, d, day)
    ensures |GoodDays(t, d, start, end)| == 0 <==> forall day | start <= day <= end :: !Good(t, d, day)
    ensures |SiteDays(t, start, end)| == end - start + 1 <==> forall day | start <= day <= end :: day in t.site
    ensures |SiteDays(t, start, end)| == 0 <==> forall day | start <= day <= end :: day !in t.site
    ensures |SiteDays(t, start, end)| == end - start + 1 && start <= end ==> SiteDays(t, start, end)[0] == start
    decreases end - start
  {
    hide Good;
    if start <= end { CountDays(t, d, start, end - 1); }
  }

  lemma CoverageDescribes(t: Tables, d: Dimension, start: int, end: int)
    requires start <= end
    ensures Describes(CoverageOf(t, d, start, end), t, d, start, end)
  {
    GoodIsComplete(t, d);
    hide Good, CompleteDay, GoodDays, SiteDays, DaysFor;
    CountDays(t, d, start, end);
    DaysCounted(t, d, start, end);
    GoodMeansSite(t, d, start, end);
  }

  lemma GoodIsComplete(t: Tables, d: Dimension)
    ensures forall day :: Good(t, d, day) <==> CompleteDay(t, d, day)
  {
  }

  lemma GoodMeansSite(t: Tables, d: Dimension, start: int, end: int)
    ensures forall day | start <= day <= end && Good(t, d, day) :: day in t.site
  {
  }

  // Full coverage of a dimension leaves no reason to withhold it but an unknown page.
  lemma CoveredIsReady(t: Tables, d: Dimension, start: int, end: int)
    requires start <= end && forall day | start <= day <= end :: Good(t, d, day)
    ensures Contiguous(SiteDays(t, start, end), end) && |GoodDays(t, d, start, end)| == |SiteDays(t, start, end)|
  {
    hide Good, GoodDays, SiteDays;
    CountDays(t, d, start, end);
    GoodMeansSite(t, d, start, end);
  }

  method SumRecords<K(==)>(records: seq<Record<K>>) returns (totals: map<K, nat>)
    ensures Sum(totals) == Loads(records)
    ensures forall k :: Get(totals, k) == LoadsOf(records, k)
    ensures forall k :: k in totals <==> exists i :: 0 <= i < |records| && records[i].key == k
  {
    totals := map[];
    for i := 0 to |records|
      invariant Sum(totals) == Loads(records[..i])
      invariant forall k :: Get(totals, k) == LoadsOf(records[..i], k)
      invariant forall k :: k in totals <==> exists j :: 0 <= j < i && records[j].key == k
    {
      assert records[..i + 1][..i] == records[..i];
      SumAdd(totals, records[i].key, records[i].count);
      totals := totals[records[i].key := Get(totals, records[i].key) + records[i].count];
    }
    assert records[..|records|] == records;
  }

  // A day whose complete page rows sum to its site row, and whose complete referrer rows do not exceed it.
  ghost predicate DayBalanced(t: Tables, day: int) {
    && (day in t.pages || day in t.referrers ==> day in t.site)
    && (Good(t, Pages, day) ==> day in t.pages && Sum(CountsOf(t.pages[day])) == t.site[day].pageLoads)
    && (Good(t, Referrers, day) ==> day in t.referrers && Sum(CountsOf(t.referrers[day])) <= t.site[day].visits)
  }

  ghost predicate RangeConsistent(t: Tables, start: int, end: int) {
    forall day | start <= day <= end :: DayBalanced(t, day)
  }

  // ----- a range in terms of its days -----

  // From some day of the range on to its end every day is complete, and there is no site total before.
  ghost predicate CoveredFrom(t: Tables, d: Dimension, start: int, end: int, first: int) {
    && start <= first <= end && (forall day | first <= day <= end :: CompleteDay(t, d, day))
    && forall day | start <= day < first :: day !in t.site
  }

  lemma {:induction false} ReadyMeans(t: Tables, d: Dimension, start: int, end: int)
    requires start <= end
    ensures Contiguous(SiteDays(t, start, end), end) && |GoodDays(t, d, start, end)| == |SiteDays(t, start, end)|
      <==> exists first :: CoveredFrom(t, d, start, end, first)
  {
    var days := SiteDays(t, start, end);
    SiteDaysAre(t, start, end);
    AllGood(t, d, start, end);
    if Contiguous(days, end) && |GoodDays(t, d, start, end)| == |days| {
      var first := days[0];
      forall i | 0 <= i < |days|
        ensures days[i] == first + i
      {
        Consecutive(days, first, end, i);
      }
      forall day | first <= day <= end
        ensures CompleteDay(t, d, day)
      {
        assert days[day - first] == day;
      }
      forall day | start <= day < first
        ensures day !in t.site
      {
        assert day !in days;
      }
      assert CoveredFrom(t, d, start, end, first);
    }
    if first :| CoveredFrom(t, d, start, end, first) {
      SiteDaysFrom(t, d, start, end, first);
    }
  }

  lemma {:induction false} SiteDaysAre(t: Tables, start: int, end: int)
    ensures forall day :: day in SiteDays(t, start, end) <==> start <= day <= end && day in t.site
    decreases end - start
  {
    if start <= end { SiteDaysAre(t, start, end - 1); }
  }

  // Ascending days that fill the room up to the end follow one another.
  lemma {:induction false} Consecutive(days: seq<int>, first: int, end: int, i: nat)
    requires i < |days| && days[0] == first && |days| == end - first + 1
    requires (forall j, k | 0 <= j < k < |days| :: days[j] < days[k]) && forall k | 0 <= k < |days| :: days[k] <= end
    ensures days[i] == first + i
  {
    AtLeast(days, first, i);
    AtMost(days, end, i);
  }

  lemma {:induction false} AtLeast(days: seq<int>, first: int, i: nat)
    requires i < |days| && days[0] == first && forall j, k | 0 <= j < k < |days| :: days[j] < days[k]
    ensures days[i] >= first + i
  {
    if i > 0 { AtLeast(days, first, i - 1); }
  }

  lemma {:induction false} AtMost(days: seq<int>, end: int, i: nat)
    requires i < |days| && (forall j, k | 0 <= j < k < |days| :: days[j] < days[k]) && days[|days| - 1] <= end
    ensures days[i] <= end - (|days| - 1 - i)
    decreases |days| - i
  {
    if i < |days| - 1 { AtMost(days, end, i + 1); }
  }

  lemma {:induction false} SiteDaysFrom(t: Tables, d: Dimension, start: int, end: int, first: int)
    requires start <= first <= end + 1 && (forall day | first <= day <= end :: CompleteDay(t, d, day))
    requires forall day | start <= day < first :: day !in t.site
    ensures |SiteDays(t, start, end)| == |GoodDays(t, d, start, end)| == end - first + 1
    ensures first <= end ==> SiteDays(t, start, end)[0] == first
    decreases end - start
  {
    if start <= end {
      if first <= end {
        assert CompleteDay(t, d, end);
        SiteDaysFrom(t, d, start, end - 1, first);
      } else {
        SiteDaysFrom(t, d, start, end - 1, first - 1);
      }
    }
  }

  // The count of a key over the days of a range.
  function OverDays<K(==)>(rows: map<int, map<K, CountRow>>, start: int, end: int, key: K): nat
    decreases end - start
  {
    if end < start then 0
    else OverDays(rows, start, end - 1, key) + if end in rows && key in rows[end] then rows[end][key].count else 0
  }

  lemma {:induction false} RecordsCount<K(!new)>(lt: (K, K) -> bool, rows: map<int, map<K, CountRow>>, start: int, end: int, key: K)
    requires StrictTotal(lt)
    ensures LoadsOf(Records(lt, rows, start, end), key) == OverDays(rows, start, end, key)
    decreases end - start
  {
    hide StrictTotal, DayRecords;
    if start <= end {
      RecordsCount(lt, rows, start, end - 1, key);
      LoadsAdd(Records(lt, rows, start, end - 1), DayRecords(lt, rows, end), key);
      DayCount(lt, rows, end, key);
    }
  }

  lemma {:induction false} LoadsAdd<K>(a: seq<Record<K>>, b: seq<Record<K>>, key: K)
    ensures LoadsOf(a + b, key) == LoadsOf(a, key) + LoadsOf(b, key)
  {
    if b == [] {
      assert a + b == a;
    } else {
      LoadsAdd(a, b[..|b| - 1], key);
      assert (a + b)[..|a + b| - 1] == a + b[..|b| - 1];
    }
  }

  lemma DayCount<K(!new)>(lt: (K, K) -> bool, rows: map<int, map<K, CountRow>>, day: int, key: K)
    requires StrictTotal(lt)
    ensures LoadsOf(DayRecords(lt, rows, day), key) == if day in rows && key in rows[day] then rows[day][key].count else 0
  {
    hide LoadsOf;
    if day in rows {
      var keys, records := Sorted(lt, rows[day].Keys), DayRecords(lt, rows, day);
      forall i, j | 0 <= i < j < |keys|
        ensures keys[i] != keys[j]
      {
        assert lt(keys[i], keys[j]);
      }
      hide StrictTotal, Sorted;
      forall i, j | 0 <= i < j < |records|
        ensures records[i].key != records[j].key
      {
      }
      if key in rows[day] {
        assert key in keys;
        var i :| 0 <= i < |keys| && keys[i] == key;
        OneRecord(records, key, i);
      } else {
        forall i | 0 <= i < |records|
          ensures records[i].key != key
        {
          assert keys[i] in keys;
        }
        NoRecord(records, key);
      }
    } else {
      NoRecord(DayRecords(lt, rows, day), key);
    }
  }

  lemma {:induction false} NoRecord<K>(records: seq<Record<K>>, key: K)
    requires forall i | 0 <= i < |records| :: records[i].key != key
    ensures LoadsOf(records, key) == 0
  {
    if records != [] { NoRecord(records[..|records| - 1], key); }
  }

  lemma {:induction false} OneRecord<K>(records: seq<Record<K>>, key: K, i: nat)
    requires i < |records| && records[i].key == key && forall j | 0 <= j < |records| && j != i :: records[j].key != key
    ensures LoadsOf(records, key) == records[i].count
  {
    var n := |records| - 1;
    if i == n { NoRecord(records[..n], key); } else { OneRecord(records[..n], key, i); }
  }

  // The totals of the site over the days of a range.
  function LoadsOver(t: Tables, start: int, end: int): nat
    decreases end - start
  {
    if end < start then 0 else LoadsOver(t, start, end - 1) + if end in t.site then t.site[end].pageLoads else 0
  }

  function VisitsOver(t: Tables, start: int, end: int): nat
    decreases end - start
  {
    if end < start then 0 else VisitsOver(t, start, end - 1) + if end in t.site then t.site[end].visits else 0
  }

  lemma {:induction false} SiteOver(t: Tables, start: int, end: int)
    ensures SiteLoads(t, SiteDays(t, start, end)) == LoadsOver(t, start, end)
    ensures SiteVisits(t, SiteDays(t, start, end)) == VisitsOver(t, start, end)
    decreases end - start
  {
    if start <= end {
      SiteOver(t, start, end - 1);
      var days := SiteDays(t, start, end);
      if end in t.site { assert days[..|days| - 1] == SiteDays(t, start, end - 1); }
    }
  }

  lemma CountsOver(t: Tables, start: int, end: int)
    ensures forall p :: LoadsOf(PageRecords(t, start, end), p) == OverDays(t.pages, start, end, p)
    ensures forall k :: LoadsOf(SourceRecords(t, start, end), k) == OverDays(t.referrers, start, end, k)
  {
    hide LoadsOf, OverDays, Records;
    PathOrder();
    forall p
      ensures LoadsOf(PageRecords(t, start, end), p) == OverDays(t.pages, start, end, p)
    {
      RecordsCount(PathLess, t.pages, start, end, p);
    }
    forall k
      ensures LoadsOf(SourceRecords(t, start, end), k) == OverDays(t.referrers, start, end, k)
    {
      RecordsCount(SourceLess, t.referrers, start, end, k);
    }
  }

  // Every page on record in the range is a page of the site.
  ghost predicate AllKnown(t: Tables, current: map<string, string>, start: int, end: int) {
    forall day, p | start <= day <= end && day in t.pages && p in t.pages[day] :: p in current
  }

  lemma {:induction false} CurrentMeans(t: Tables, current: map<string, string>, start: int, end: int)
    ensures AllCurrent(PageRecords(t, start, end), current) <==> AllKnown(t, current, start, end)
    decreases end - start
  {
    PathOrder();
    hide StrictTotal, DayRecords;
    if start <= end {
      var before, today := PageRecords(t, start, end - 1), DayRecords(PathLess, t.pages, end);
      CurrentMeans(t, current, start, end - 1);
      DayKnown(t, current, end);
      assert forall i | 0 <= i < |before + today| :: (before + today)[i] == if i < |before| then before[i] else today[i - |before|];
      assert forall i | 0 <= i < |before| :: (before + today)[i] == before[i];
      assert forall i | 0 <= i < |today| :: (before + today)[|before| + i] == today[i];
      assert AllCurrent(before + today, current) <==> AllCurrent(before, current) && AllCurrent(today, current);
    }
  }

  lemma DayKnown(t: Tables, current: map<string, string>, day: int)
    requires StrictTotal(PathLess)
    ensures AllCurrent(DayRecords(PathLess, t.pages, day), current) <==> (day in t.pages ==> t.pages[day].Keys <= current.Keys)
  {
    hide StrictTotal, PathLess;
    if day in t.pages {
      var keys, records := Sorted(PathLess, t.pages[day].Keys), DayRecords(PathLess, t.pages, day);
      assert |records| == |keys| && forall i | 0 <= i < |keys| :: records[i].key == keys[i];
      if AllCurrent(records, current) {
        forall p | p in t.pages[day].Keys
          ensures p in current
        {
          assert p in keys;
          var i :| 0 <= i < |keys| && keys[i] == p;
          assert records[i].key in current;
        }
      }
      forall i | 0 <= i < |records| && t.pages[day].Keys <= current.Keys
        ensures records[i].key in current
      {
        assert keys[i] in keys;
      }
    }
  }

  // At most ten pages with their totals, most read first, equal ones by path, and no page left off is read more.
  ghost predicate TopTen(totals: map<string, nat>, popular: seq<PopularPage>) {
    && |popular| == (if |totals| < 10 then |totals| else 10)
    && (forall i | 0 <= i < |popular| :: popular[i].path in totals && totals[popular[i].path] == popular[i].pageLoads)
    && (forall i, j | 0 <= i < j < |popular| ::
          && popular[i].path != popular[j].path && popular[i].pageLoads >= popular[j].pageLoads
          && (popular[i].pageLoads == popular[j].pageLoads ==> PathLess(popular[i].path, popular[j].path)))
    && forall p, i | p in totals && 0 <= i < |popular| && Unlisted(popular, p) :: totals[p] <= popular[i].pageLoads
  }

  predicate Unlisted(popular: seq<PopularPage>, path: string) {
    forall i | 0 <= i < |popular| :: popular[i].path != path
  }

  // The first pages of the ranking are the top ten.
  lemma RankingIsTop(totals: map<string, nat>, popular: seq<PopularPage>)
    requires |popular| == Min(10, |Ranking(totals)|)
    requires forall i | 0 <= i < |popular| :: (popular[i].path, popular[i].pageLoads) == Ranking(totals)[i]
    ensures TopTen(totals, popular)
  {
    hide Ranking, PathLess, TopTen;
    RankedOnce(totals);
    FirstIsTop(totals, Ranking(totals), popular);
  }

  lemma FirstIsTop(totals: map<string, nat>, r: seq<(string, nat)>, popular: seq<PopularPage>)
    requires forall i, j | 0 <= i < j < |r| :: r[i].1 > r[j].1 || (r[i].1 == r[j].1 && PathLess(r[i].0, r[j].0))
    requires (forall x :: x in r <==> x.0 in totals && totals[x.0] == x.1) && |r| == |totals|
    requires |popular| == Min(10, |r|) && forall i | 0 <= i < |popular| :: (popular[i].path, popular[i].pageLoads) == r[i]
    ensures TopTen(totals, popular)
  {
    hide PathLess;
    forall i | 0 <= i < |popular|
      ensures popular[i].path in totals && totals[popular[i].path] == popular[i].pageLoads
    {
      assert r[i] in r;
    }
    forall i, j | 0 <= i < j < |popular|
      ensures popular[i].path != popular[j].path && popular[i].pageLoads >= popular[j].pageLoads
      ensures popular[i].pageLoads == popular[j].pageLoads ==> PathLess(popular[i].path, popular[j].path)
    {
      assert r[i] in r && r[j] in r;
      PathOrder();
    }
    forall p, i | p in totals && 0 <= i < |popular| && Unlisted(popular, p)
      ensures totals[p] <= popular[i].pageLoads
    {
      assert (p, totals[p]) in r;
      var k :| 0 <= k < |r| && r[k] == (p, totals[p]);
      assert k >= |popular| by {
        assert Unlisted(popular, r[k].0);
        assert forall m | 0 <= m < |popular| :: r[m].0 != r[k].0;
      }
    }
  }

  lemma RankedOnce(totals: map<string, nat>)
    ensures |Ranking(totals)| == |totals|
  {
    hide PathLess;
    RankOrder();
    var pairs := set p | p in totals :: (p, totals[p]);
    PairsOnce(totals, pairs);
  }

  lemma {:induction false} PairsOnce(totals: map<string, nat>, pairs: set<(string, nat)>)
    requires pairs == set p | p in totals :: (p, totals[p])
    ensures |pairs| == |totals|
    decreases |totals|
  {
    if totals == map[] {
      assert pairs == {};
    } else {
      var p :| p in totals;
      var rest := totals - {p};
      forall x
        ensures x in pairs - {(p, totals[p])} <==> x in set q | q in rest :: (q, rest[q])
      {
        if x in pairs && x.0 != p { assert x.0 in rest && x == (x.0, rest[x.0]); }
      }
      PairsOnce(rest, pairs - {(p, totals[p])});
    }
  }

  /**
   * The report of the days start to end. A ranking appears only when every day seen is fully covered; over a
   * consistent archive its totals then agree with the totals of the site and every share is a fraction of one.
   */
  method Read(t: Tables, current: map<string, string>, start: int, end: int) returns (r: Report)
    requires start <= end
    ensures var days := SiteDays(t, start, end);
      && (r.pages.available <==>
            Contiguous(days, end) && |GoodDays(t, Pages, start, end)| == |days|
            && AllCurrent(PageRecords(t, start, end), current))
      && (r.referrers.available <==> Contiguous(days, end) && |GoodDays(t, Referrers, start, end)| == |days|)
      && r.totals == (if days == [] then None else Some((SiteLoads(t, days), SiteVisits(t, days))))
    ensures Describes(r.site, t, SiteTotals, start, end) && (r.site.available <==> r.site.days > 0)
    ensures Describes(r.referrers, t, Referrers, start, end) && (r.referrers.status.Covered? ==> r.referrers.available)
    ensures AllCurrent(PageRecords(t, start, end), current) ==>
      Describes(r.pages, t, Pages, start, end) && (r.pages.status.Covered? ==> r.pages.available)
    ensures !AllCurrent(PageRecords(t, start, end), current) ==>
      r.pages.status.PartlyCovered? && r.pages.days == |DaysFor(t, Pages, start, end)|
    ensures r.pages.available <==> AllKnown(t, current, start, end) && exists first :: CoveredFrom(t, Pages, start, end, first)
    ensures r.referrers.available <==> exists first :: CoveredFrom(t, Referrers, start, end, first)
    ensures r.totals == if r.site.days == 0 then None else Some((LoadsOver(t, start, end), VisitsOver(t, start, end)))
    ensures r.pages.available ==> forall p :: Get(r.pageTotals, p) == OverDays(t.pages, start, end, p)
    ensures r.referrers.available ==> forall k :: Get(r.sourceTotals, k) == OverDays(t.referrers, start, end, k)
    ensures !r.pages.available ==> r.pageTotals == map[]
    ensures !r.referrers.available ==> r.sourceTotals == map[]
    ensures RangeConsistent(t, start, end) ==>
      && (r.pages.available ==> r.totals.Some? && Sum(r.pageTotals) == r.totals.value.0)
      && (r.referrers.available ==> r.totals.Some? && Sum(r.sourceTotals) <= r.totals.value.1)
      && (r.pages.available ==> forall i | 0 <= i < |r.popular| ::
            IsShare(r.popular[i].share, r.popular[i].pageLoads, r.totals.value.0))
    ensures TopTen(r.pageTotals, r.popular)
    ensures forall i | 0 <= i < |r.popular| ::
      r.popular[i].path in current && r.popular[i].title == current[r.popular[i].path]
    ensures forall i, j | 0 <= i < j < |r.sources| :: r.sources[i].1 >= r.sources[j].1 && r.sources[i].0 != r.sources[j].0
    ensures forall x :: x in r.sources <==> x.0 in r.sourceTotals && r.sourceTotals[x.0] == x.1
  {
    hide Sum, Ranking, SourceRanking, IsShare, ShareOf, RankedBefore, Archive.Row, LoadsOf, Loads, Good,
         AllKnown, CoveredFrom, OverDays, LoadsOver, VisitsOver, DaysFor;
    hide RangeConsistent, PageRecords, SourceRecords, GoodDays, SiteDays, SiteLoads, SiteVisits;
    var days, records, referrals := SiteDays(t, start, end), PageRecords(t, start, end), SourceRecords(t, start, end);
    var contiguous := Contiguous(days, end);
    var site := CoverageOf(t, SiteTotals, start, end);
    var pages := CoverageOf(t, Pages, start, end);
    var referrers := CoverageOf(t, Referrers, start, end);
    var pagesReady := contiguous && pages.days == |days|;
    var refsReady := contiguous && referrers.days == |days|;
    if !AllCurrent(records, current) {
      pagesReady := false;
      pages := pages.(status := PartlyCovered);
    }
    pages, referrers := pages.(available := pagesReady), referrers.(available := refsReady);
    var totals := SumSites(t, days);
    var pageTotals: map<string, nat>, sourceTotals: map<Source, nat> := map[], map[];
    if pagesReady { pageTotals := SumRecords(records); }
    if refsReady { sourceTotals := SumRecords(referrals); }
    Coverages(t, start, end);
    ReadyMeans(t, Pages, start, end);
    ReadyMeans(t, Referrers, start, end);
    CurrentMeans(t, current, start, end);
    CountsOver(t, start, end);
    SiteOver(t, start, end);
    DaysCounted(t, SiteTotals, start, end);
    DaysCounted(t, Pages, start, end);
    if RangeConsistent(t, start, end) && pagesReady { PagesMatchSite(t, start, end); }
    if RangeConsistent(t, start, end) && refsReady { SourcesWithinSite(t, start, end); }
    assert forall p | p in pageTotals :: p in current;
    hide TopTen;
    var popular := Popular(pageTotals, current, if totals.Some? then totals.value.0 else 0);
    RankingIsTop(pageTotals, popular);
    r := Report(site, pages, referrers, totals, pageTotals, popular, sourceTotals, SourceRanking(sourceTotals));
  }

  lemma Coverages(t: Tables, start: int, end: int)
    requires start <= end
    ensures forall d :: Describes(CoverageOf(t, d, start, end), t, d, start, end)
    ensures forall d | CoverageOf(t, d, start, end).status.Covered? ::
      Contiguous(SiteDays(t, start, end), end) && |GoodDays(t, d, start, end)| == |SiteDays(t, start, end)|
  {
    hide CoverageOf, Contiguous, GoodDays, SiteDays, Good;
    forall d
      ensures Describes(CoverageOf(t, d, start, end), t, d, start, end)
      ensures CoverageOf(t, d, start, end).status.Covered? ==>
        Contiguous(SiteDays(t, start, end), end) && |GoodDays(t, d, start, end)| == |SiteDays(t, start, end)|
    {
      CoverageDescribes(t, d, start, end);
      GoodIsComplete(t, d);
      if CoverageOf(t, d, start, end).status.Covered? { CoveredIsReady(t, d, start, end); }
    }
  }

  // The first ten of the ranking with titles and shares.
  method Popular(totals: map<string, nat>, current: map<string, string>, all: nat) returns (popular: seq<PopularPage>)
    requires forall p | p in totals :: p in current
    ensures |popular| == Min(10, |Ranking(totals)|)
    ensures forall i | 0 <= i < |popular| ::
      var (path, loads) := Ranking(totals)[i];
      path in current && popular[i] == PopularPage(path, current[path], loads, ShareOf(loads, all))
    ensures all == Sum(totals) ==> forall i | 0 <= i < |popular| :: IsShare(popular[i].share, popular[i].pageLoads, all)
  {
    hide Ranking, Sum, IsShare, ShareOf, RankedBefore;
    var ranking := Ranking(totals);
    popular := [];
    for i := 0 to Min(10, |ranking|)
      invariant |popular| == i
      invariant forall k | 0 <= k < i ::
        ranking[k].0 in current
        && popular[k] == PopularPage(ranking[k].0, current[ranking[k].0], ranking[k].1, ShareOf(ranking[k].1, all))
      invariant all == Sum(totals) ==> forall k | 0 <= k < i :: IsShare(popular[k].share, popular[k].pageLoads, all)
    {
      var (path, loads) := ranking[i];
      assert ranking[i] in ranking;
      if all == Sum(totals) { ShareIsFraction(totals, path); }
      popular := popular + [PopularPage(path, current[path], loads, ShareOf(loads, all))];
    }
  }

  lemma ShareIsFraction(totals: map<string, nat>, path: string)
    requires path in totals
    ensures IsShare(ShareOf(totals[path], Sum(totals)), totals[path], Sum(totals))
  {
    SumWithout(totals, path);
    hide Sum;
    PartIsShare(totals[path], Sum(totals));
  }

  lemma PartIsShare(loads: nat, all: nat)
    requires loads <= all
    ensures IsShare(ShareOf(loads, all), loads, all)
  {
    if all != 0 { Fraction(loads as real, all as real); }
  }

  lemma Fraction(a: real, b: real)
    requires 0.0 <= a <= b && b > 0.0
    ensures 0.0 <= a / b <= 1.0 && a / b * b == a
  {
    assert a / b * b == a;
  }

  function Min(a: nat, b: nat): nat {
    if a < b then a else b
  }

  method SumSites(t: Tables, days: seq<int>) returns (totals: Option<(nat, nat)>)
    requires forall i | 0 <= i < |days| :: days[i] in t.site
    ensures totals == if days == [] then None else Some((SiteLoads(t, days), SiteVisits(t, days)))
  {
    if days == [] { return None; }
    var loads, visits := 0, 0;
    for i := 0 to |days|
      invariant loads == SiteLoads(t, days[..i]) && visits == SiteVisits(t, days[..i])
    {
      assert days[..i + 1][..i] == days[..i];
      loads := loads + t.site[days[i]].pageLoads;
      visits := visits + t.site[days[i]].visits;
    }
    assert days[..|days|] == days;
    return Some((loads, visits));
  }

  // ----- conservation over a range -----

  // Adding up the values along a list of all keys gives the sum of the map.
  lemma {:induction false} ListedSum<K>(m: map<K, nat>, keys: seq<K>)
    requires (forall k :: k in keys <==> k in m) && forall i, j | 0 <= i < j < |keys| :: keys[i] != keys[j]
    ensures Sum(m) == Along(m, keys)
  {
    if keys == [] {
      assert m.Keys == {};
      assert m == map[];
    } else {
      var n := |keys| - 1;
      var rest := m - {keys[n]};
      assert keys == keys[..n] + [keys[n]];
      forall k
        ensures k in keys[..n] <==> k in rest
      {
        if k in rest {
          var i :| 0 <= i < |keys| && keys[i] == k;
          assert keys[..n][i] == k;
        }
      }
      ListedSum(rest, keys[..n]);
      SameAlong(m, rest, keys[..n]);
      SumWithout(m, keys[n]);
    }
  }

  function Along<K(==)>(m: map<K, nat>, keys: seq<K>): nat {
    if keys == [] then 0 else Along(m, keys[..|keys| - 1]) + Get(m, keys[|keys| - 1])
  }

  lemma {:induction false} SameAlong<K>(a: map<K, nat>, b: map<K, nat>, keys: seq<K>)
    requires forall i | 0 <= i < |keys| :: Get(a, keys[i]) == Get(b, keys[i])
    ensures Along(a, keys) == Along(b, keys)
  {
    if keys != [] { SameAlong(a, b, keys[..|keys| - 1]); }
  }

  lemma {:induction false} RecordsAdd<K>(a: seq<Record<K>>, b: seq<Record<K>>)
    ensures Loads(a + b) == Loads(a) + Loads(b)
  {
    if b == [] {
      assert a + b == a;
    } else {
      RecordsAdd(a, b[..|b| - 1]);
      assert (a + b)[..|a + b| - 1] == a + b[..|b| - 1];
    }
  }

  lemma {:induction false} RecordPrefix<K(!new)>(lt: (K, K) -> bool, rows: map<int, map<K, CountRow>>, day: int, n: nat)
    requires StrictTotal(lt) && day in rows && n <= |DayRecords(lt, rows, day)|
    ensures |DayRecords(lt, rows, day)| == |Sorted(lt, rows[day].Keys)|
    ensures Loads(DayRecords(lt, rows, day)[..n]) == Along(CountsOf(rows[day]), Sorted(lt, rows[day].Keys)[..n])
  {
    hide Sorted, StrictTotal;
    var keys, records := Sorted(lt, rows[day].Keys), DayRecords(lt, rows, day);
    if n > 0 {
      RecordPrefix(lt, rows, day, n - 1);
      assert records[..n][..n - 1] == records[..n - 1] && keys[..n][..n - 1] == keys[..n - 1];
      assert keys[n - 1] in keys;
    }
  }

  lemma DayLoads<K(!new)>(lt: (K, K) -> bool, rows: map<int, map<K, CountRow>>, day: int)
    requires StrictTotal(lt) && day in rows
    ensures Loads(DayRecords(lt, rows, day)) == Sum(CountsOf(rows[day]))
  {
    hide Sorted, DayRecords, Sum;
    var keys, records := Sorted(lt, rows[day].Keys), DayRecords(lt, rows, day);
    RecordPrefix(lt, rows, day, |records|);
    assert records[..|records|] == records && keys[..|keys|] == keys;
    forall i, j | 0 <= i < j < |keys|
      ensures keys[i] != keys[j]
    {
      assert lt(keys[i], keys[j]);
    }
    assert CountsOf(rows[day]).Keys == rows[day].Keys;
    ListedSum(CountsOf(rows[day]), keys);
  }

  // Good days are site days; as many of them means all of them.
  lemma {:induction false} AllGood(t: Tables, d: Dimension, start: int, end: int)
    ensures |GoodDays(t, d, start, end)| <= |SiteDays(t, start, end)|
    ensures |GoodDays(t, d, start, end)| == |SiteDays(t, start, end)| ==>
      forall day | start <= day <= end && day in t.site :: Good(t, d, day)
    decreases end - start
  {
    if start <= end { AllGood(t, d, start, end - 1); }
  }

  // Page rows of fully covered days sum to the site rows of the range.
  lemma {:induction false} RangeBalanced(t: Tables, start: int, end: int)
    requires forall day | start <= day <= end :: DayBalanced(t, day) && (day in t.site ==> Good(t, Pages, day))
    ensures Loads(PageRecords(t, start, end)) == SiteLoads(t, SiteDays(t, start, end))
    decreases end - start
  {
    hide Sum, Archive.Row, DayRecords;
    PathOrder();
    hide StrictTotal;
    if start <= end {
      RangeBalanced(t, start, end - 1);
      RecordsAdd(PageRecords(t, start, end - 1), DayRecords(PathLess, t.pages, end));
      if end in t.site {
        DayLoads(PathLess, t.pages, end);
        var days := SiteDays(t, start, end - 1) + [end];
        assert days[..|days| - 1] == SiteDays(t, start, end - 1);
      } else {
        assert DayBalanced(t, end);
        NoRecords(PathLess, t.pages, end);
      }
    }
  }

  // Referrer rows of fully covered days stay within the visits of the range.
  lemma {:induction false} RangeBounded(t: Tables, start: int, end: int)
    requires forall day | start <= day <= end :: DayBalanced(t, day) && (day in t.site ==> Good(t, Referrers, day))
    ensures Loads(SourceRecords(t, start, end)) <= SiteVisits(t, SiteDays(t, start, end))
    decreases end - start
  {
    hide Sum, Archive.Row, DayRecords;
    if start <= end {
      RangeBounded(t, start, end - 1);
      RecordsAdd(SourceRecords(t, start, end - 1), DayRecords(SourceLess, t.referrers, end));
      if end in t.site {
        DayLoads(SourceLess, t.referrers, end);
        var days := SiteDays(t, start, end - 1) + [end];
        assert days[..|days| - 1] == SiteDays(t, start, end - 1);
      } else {
        assert DayBalanced(t, end);
        NoRecords(SourceLess, t.referrers, end);
      }
    }
  }

  lemma NoRecords<K(!new)>(lt: (K, K) -> bool, rows: map<int, map<K, CountRow>>, day: int)
    requires StrictTotal(lt) && day !in rows
    ensures DayRecords(lt, rows, day) == []
  {
  }

  lemma PagesMatchSite(t: Tables, start: int, end: int)
    requires RangeConsistent(t, start, end) && |GoodDays(t, Pages, start, end)| == |SiteDays(t, start, end)|
    ensures Loads(PageRecords(t, start, end)) == SiteLoads(t, SiteDays(t, start, end))
  {
    hide DayBalanced, Good;
    AllGood(t, Pages, start, end);
    RangeBalanced(t, start, end);
  }

  lemma SourcesWithinSite(t: Tables, start: int, end: int)
    requires RangeConsistent(t, start, end) && |GoodDays(t, Referrers, start, end)| == |SiteDays(t, start, end)|
    ensures Loads(SourceRecords(t, start, end)) <= SiteVisits(t, SiteDays(t, start, end))
  {
    hide DayBalanced, Good;
    AllGood(t, Referrers, start, end);
    RangeBounded(t, start, end);
  }

  // A day with rows of any kind has been stored.
  lemma RowsMeanSite(h: seq<Event>, day: int, d: Dimension)
    requires SourceRun(h, day, d).Some?
    ensures Pick(h, day, Kept).Some?
  {
    PickIsGreatest(h, day, Kept);
  }

  lemma DayIsBalanced(arrivals: seq<Arrival>, day: int)
    requires AllHonest(arrivals)
    ensures DayBalanced(After(Events(arrivals)), day)
  {
    hide Archive.Row, After, Events, AllHonest, Sum, StateMatches;
    var h := Events(arrivals);
    HistoryDecides(h, day);
    if Good(After(h), Pages, day) { PageLoadsAreConserved(arrivals, day, Pages); }
    if Good(After(h), Referrers, day) { PageLoadsAreConserved(arrivals, day, Referrers); }
    if day in After(h).pages { RowsMeanSite(h, day, Pages); }
    if day in After(h).referrers { RowsMeanSite(h, day, Referrers); }
  }

  /**
   * End to end: whatever the archive is called with, and however its calls end, every range of days is consistent,
   * so the totals a report ranks (before the cut to ten) agree with the totals it claims for the site.
   */
  lemma HistoriesAreConsistent(arrivals: seq<Arrival>, start: int, end: int)
    requires AllHonest(arrivals)
    ensures RangeConsistent(After(Events(arrivals)), start, end)
  {
    hide After, Events, DayBalanced, AllHonest;
    forall day | start <= day <= end
      ensures DayBalanced(After(Events(arrivals)), day)
    {
      DayIsBalanced(arrivals, day);
    }
  }
}
