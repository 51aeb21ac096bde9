/** What the archive holds after any history of runs and failures, in any order of arrival. */
module ArchiveHistory {
  import opened Base
  import opened Totals
  import opened Archive

  ghost predicate Tried(e: Event) { true }
  ghost predicate Kept(e: Event) { e.Stored? }

  function StateOf(s: States, d: Dimension): Coverage {
    match d
    case SiteTotals => s.site
    case Pages => s.pages
    case Referrers => s.referrers
  }

  // A run that may replace what is on record for a dimension: every stored one for the site, a complete one else.
  ghost predicate Whole(e: Event, d: Dimension) {
    e.Stored? && (d.SiteTotals? || StateOf(e.states, d).Complete?)
  }

  // Of the eligible events of a day, the one of greatest time; of equal times the last to arrive.
  ghost function Pick(h: seq<Event>, day: int, eligible: Event -> bool): (i: Option<nat>)
    ensures i.Some? ==> i.value < |h| && h[i.value].day == day && eligible(h[i.value])
  {
    if h == [] then None
    else
      var n := |h| - 1;
      var before := Pick(h[..n], day, eligible);
      if h[n].day == day && eligible(h[n]) && (before.None? || h[before.value].at <= h[n].at) then Some(n) else before
  }

  /** Pick chooses by time first and by arrival second. */
  lemma {:induction false} PickIsGreatest(h: seq<Event>, day: int, eligible: Event -> bool)
    ensures forall j | 0 <= j < |h| && h[j].day == day && eligible(h[j]) ::
      var i := Pick(h, day, eligible);
      i.Some? && (h[j].at < h[i.value].at || (h[j].at == h[i.value].at && j <= i.value))
  {
    if h != [] {
      var n := |h| - 1;
      PickIsGreatest(h[..n], day, eligible);
      forall j | 0 <= j < |h| && h[j].day == day && eligible(h[j])
        ensures var i := Pick(h, day, eligible);
          i.Some? && (h[j].at < h[i.value].at || (h[j].at == h[i.value].at && j <= i.value))
      {
        if j < n { assert h[..n][j] == h[j]; }
      }
    }
  }

  // The run a dimension's success is on record from: the last whole one that no newer attempt had preceded.
  ghost function SourceRun(h: seq<Event>, day: int, d: Dimension): (i: Option<nat>)
    ensures i.Some? ==> i.value < |h| && h[i.value].day == day && Whole(h[i.value], d)
  {
    if h == [] then None
    else
      var n := |h| - 1;
      var last := Pick(h[..n], day, Tried);
      if h[n].day == day && Whole(h[n], d) && (last.None? || h[last.value].at <= h[n].at) then Some(n)
      else SourceRun(h[..n], day, d)
  }

  function ResultOf(e: Event, d: Dimension): Coverage {
    if e.Failed? then Missing else StateOf(e.states, d)
  }

  // ----- the rows of the tables, by the history -----

  ghost predicate StateMatches(h: seq<Event>, t: Tables, day: int, d: Dimension) {
    var i := Pick(h, day, Tried);
    && (Archive.Row(t, day, d).Some? <==> i.Some?)
    && (i.Some? ==>
          var row, source := Archive.Row(t, day, d).value, SourceRun(h, day, d);
          row == DimensionRow(h[i.value].at, if source.Some? then Some(h[source.value].at) else None, ResultOf(h[i.value], d)))
  }

  lemma PutRowAt(t: Tables, day: int, d: Dimension, row: DimensionRow)
    ensures var next := PutRow(t, day, d, row);
      && next == t.(dimensions := next.dimensions) && Archive.Row(next, day, d) == Some(row)
      && forall o, e | o != day || e != d :: Archive.Row(next, o, e) == Archive.Row(t, o, e)
  {
  }

  lemma UpsertStateRow(t: Tables, day: int, d: Dimension, state: Coverage, at: int, saved: bool)
    ensures var next := UpsertState(t, day, d, state, at, saved);
      && next.site == t.site && next.pages == t.pages && next.referrers == t.referrers
      && (forall o, e | o != day || e != d :: Archive.Row(next, o, e) == Archive.Row(t, o, e))
      && Archive.Row(next, day, d).Some?
      && (var was, row := Archive.Row(t, day, d), Archive.Row(next, day, d).value;
          if was.Some? && at < was.value.lastAttempt then row == was.value
          else row == DimensionRow(at, if saved then Some(at) else if was.Some? then was.value.lastSuccess else None, state))
  {
    hide PutRow, Archive.Row;
    var was := Archive.Row(t, day, d);
    var row := DimensionRow(at, if saved then Some(at) else if was.Some? then was.value.lastSuccess else None, state);
    PutRowAt(t, day, d, row);
  }

  // The coverage row an attempt leaves.
  function Updated(was: Option<DimensionRow>, at: int, saved: bool, state: Coverage): DimensionRow {
    if was.Some? && at < was.value.lastAttempt then was.value
    else DimensionRow(at, if saved then Some(at) else if was.Some? then was.value.lastSuccess else None, state)
  }

  lemma UpsertStatesRows(t: Tables, day: int, s: States, at: int, saved: bool)
    ensures var next := UpsertStates(t, day, s, at, saved);
      && next.site == t.site && next.pages == t.pages && next.referrers == t.referrers
      && (forall o, e | o != day :: Archive.Row(next, o, e) == Archive.Row(t, o, e))
      && forall d :: Archive.Row(next, day, d) ==
                     Some(Updated(Archive.Row(t, day, d), at, saved && (d.SiteTotals? || StateOf(s, d).Complete?), StateOf(s, d)))
  {
    hide UpsertState, Archive.Row;
    var site := UpsertState(t, day, SiteTotals, s.site, at, saved);
    var pages := UpsertState(site, day, Pages, s.pages, at, saved && s.pages.Complete?);
    UpsertStateRow(t, day, SiteTotals, s.site, at, saved);
    UpsertStateRow(site, day, Pages, s.pages, at, saved && s.pages.Complete?);
    UpsertStateRow(pages, day, Referrers, s.referrers, at, saved && s.referrers.Complete?);
  }

  function Written(t: Tables, e: Event): Tables
    requires e.Stored?
  {
    var t1 := UpsertSite(t, e.day, SiteOf(e));
    var t2 := if e.states.pages.Complete? then ReplacePages(t1, e.day, e.pages, e.at) else t1;
    if e.states.referrers.Complete? then ReplaceReferrers(t2, e.day, e.sources, e.at) else t2
  }

  // The effect of one arrival on the rows of every table.
  lemma NextRows(t: Tables, e: Event)
    ensures var next := Next(t, e);
      && next.site == (if e.Stored? then UpsertSite(t, e.day, SiteOf(e)).site else t.site)
      && next.pages == (if Whole(e, Pages) && Unguarded(t, e.day, Pages, e.at)
                        then t.pages[e.day := Stamped(e.pages, e.at)] else t.pages)
      && next.referrers == (if Whole(e, Referrers) && Unguarded(t, e.day, Referrers, e.at)
                            then t.referrers[e.day := Stamped(e.sources, e.at)] else t.referrers)
      && (forall o, d | o != e.day :: Archive.Row(next, o, d) == Archive.Row(t, o, d))
      && forall d :: Archive.Row(next, e.day, d) == Some(Updated(Archive.Row(t, e.day, d), e.at, Whole(e, d), ResultOf(e, d)))
  {
    hide UpsertStates, Written, Unguarded, Stamped, UpsertSite, Archive.Row, Updated;
    if e.Failed? {
      UpsertStatesRows(t, e.day, NOTHING, e.at, false);
    } else {
      WrittenRows(t, e);
      NextOfStored(t, e);
      UpsertStatesRows(Written(t, e), e.day, e.states, e.at, true);
    }
  }

  lemma NextOfStored(t: Tables, e: Event)
    requires e.Stored?
    ensures Next(t, e) == UpsertStates(Written(t, e), e.day, e.states, e.at, true)
  {
    hide UpsertStates, UpsertSite, ReplacePages, ReplaceReferrers;
  }

  lemma WrittenRows(t: Tables, e: Event)
    requires e.Stored?
    ensures var w := Written(t, e);
      && w.site == UpsertSite(t, e.day, SiteOf(e)).site
      && w.pages == (if Whole(e, Pages) && Unguarded(t, e.day, Pages, e.at)
                     then t.pages[e.day := Stamped(e.pages, e.at)] else t.pages)
      && w.referrers == (if Whole(e, Referrers) && Unguarded(t, e.day, Referrers, e.at)
                         then t.referrers[e.day := Stamped(e.sources, e.at)] else t.referrers)
      && forall o, d :: Archive.Row(w, o, d) == Archive.Row(t, o, d)
  {
    hide Stamped;
    assert Written(t, e).dimensions == t.dimensions;
  }

  ghost predicate SiteMatches(h: seq<Event>, t: Tables, day: int) {
    var kept := Pick(h, day, Kept);
    (day in t.site <==> kept.Some?) && (kept.Some? ==> t.site[day] == SiteOf(h[kept.value]))
  }

  ghost predicate PagesMatch(h: seq<Event>, t: Tables, day: int) {
    var source := SourceRun(h, day, Pages);
    && (day in t.pages <==> source.Some?)
    && (source.Some? ==> t.pages[day] == Stamped(h[source.value].pages, h[source.value].at))
  }

  ghost predicate ReferrersMatch(h: seq<Event>, t: Tables, day: int) {
    var source := SourceRun(h, day, Referrers);
    && (day in t.referrers <==> source.Some?)
    && (source.Some? ==> t.referrers[day] == Stamped(h[source.value].sources, h[source.value].at))
  }

  // Every row of a day as the history determines it.
  ghost predicate DayMatches(h: seq<Event>, t: Tables, day: int) {
    && SiteMatches(h, t, day) && PagesMatch(h, t, day) && ReferrersMatch(h, t, day)
    && forall d :: StateMatches(h, t, day, d)
  }

  /** After any history each row of each table of a day is the one the history picks. */
  lemma {:induction false} HistoryDecides(h: seq<Event>, day: int)
    ensures DayMatches(h, After(h), day)
  {
    hide Next;
    if h != [] {
      HistoryDecides(h[..|h| - 1], day);
      SiteStep(h, day);
      RowsStep(h, day);
      StatesStep(h, day);
    }
  }

  lemma SiteStep(h: seq<Event>, day: int)
    requires h != [] && DayMatches(h[..|h| - 1], After(h[..|h| - 1]), day)
    ensures SiteMatches(h, After(h), day)
  {
    hide Next, StateMatches, PagesMatch, ReferrersMatch;
    NextRows(After(h[..|h| - 1]), h[|h| - 1]);
  }

  lemma RowsStep(h: seq<Event>, day: int)
    requires h != [] && DayMatches(h[..|h| - 1], After(h[..|h| - 1]), day)
    ensures PagesMatch(h, After(h), day) && ReferrersMatch(h, After(h), day)
  {
    hide Next, Archive.Row, SiteMatches, Stamped, Whole;
    NextRows(After(h[..|h| - 1]), h[|h| - 1]);
    assert StateMatches(h[..|h| - 1], After(h[..|h| - 1]), day, Pages);
    assert StateMatches(h[..|h| - 1], After(h[..|h| - 1]), day, Referrers);
  }

  lemma StatesStep(h: seq<Event>, day: int)
    requires h != [] && DayMatches(h[..|h| - 1], After(h[..|h| - 1]), day)
    ensures forall d :: StateMatches(h, After(h), day, d)
  {
    hide Next, Archive.Row, SiteMatches, PagesMatch, ReferrersMatch, Whole;
    NextRows(After(h[..|h| - 1]), h[|h| - 1]);
    forall d
      ensures StateMatches(h, After(h), day, d)
    {
      assert StateMatches(h[..|h| - 1], After(h[..|h| - 1]), day, d);
      SourceTried(h[..|h| - 1], day, d);
    }
  }

  // A day with a success on record has been tried.
  lemma {:induction false} SourceTried(h: seq<Event>, day: int, d: Dimension)
    ensures SourceRun(h, day, d).Some? ==> Pick(h, day, Tried).Some?
  {
    if h != [] { SourceTried(h[..|h| - 1], day, d); }
  }

  // ----- theorems -----

  // The choice among fewer candidates is the same when the winner is one of them.
  lemma {:induction false} PickAmong(h: seq<Event>, day: int, eligible: Event -> bool)
    requires Pick(h, day, Tried).Some? && eligible(h[Pick(h, day, Tried).value])
    ensures Pick(h, day, eligible) == Pick(h, day, Tried)
  {
    PickIsGreatest(h, day, Tried);
    PickIsGreatest(h, day, eligible);
  }

  lemma {:induction false} WholeSource(h: seq<Event>, day: int, d: Dimension)
    requires Pick(h, day, Tried).Some? && Whole(h[Pick(h, day, Tried).value], d)
    ensures SourceRun(h, day, d) == Pick(h, day, Tried)
  {
    if h != [] {
      var n := |h| - 1;
      PickIsGreatest(h, day, Tried);
      if Pick(h, day, Tried).value < n { WholeSource(h[..n], day, d); }
    }
  }

  function CountsOf<K(==)>(rows: map<K, CountRow>): map<K, nat> {
    map k | k in rows :: rows[k].count
  }

  // The rows of a day and dimension, and its site row, are those of one stored run of the day.
  ghost predicate RowsOf(e: Event, t: Tables, day: int, d: Dimension) {
    && Whole(e, d) && e.day == day && day in t.site && t.site[day] == SiteOf(e)
    && (d.Pages? ==> day in t.pages && t.pages[day] == Stamped(e.pages, e.at))
    && (d.Referrers? ==> day in t.referrers && t.referrers[day] == Stamped(e.sources, e.at))
  }

  /**
   * When the last result of a day for a dimension is complete, the site row and the rows of the dimension are
   * those of one and the same run, whatever arrived before or after it.
   */
  lemma CompleteIsOneRun(h: seq<Event>, day: int, d: Dimension)
    requires Archive.Row(After(h), day, d).Some? && Archive.Row(After(h), day, d).value.result.Complete?
    ensures exists i :: 0 <= i < |h| && RowsOf(h[i], After(h), day, d)
  {
    hide Archive.Row, Next, Stamped;
    HistoryDecides(h, day);
    assert StateMatches(h, After(h), day, d);
    var i := Pick(h, day, Tried).value;
    PickAmong(h, day, Kept);
    WholeSource(h, day, d);
    assert RowsOf(h[i], After(h), day, d);
  }

  /**
   * Conservation over whatever the archive is called with: when the last result of a day's pages is complete, the
   * page loads on record sum to the site total on record, and when that of its referrers is, the visits by source
   * do not exceed the visits on record.
   */
  lemma PageLoadsAreConserved(arrivals: seq<Arrival>, day: int, d: Dimension)
    requires AllHonest(arrivals)
    requires var row := Archive.Row(After(Events(arrivals)), day, d); row.Some? && row.value.result.Complete?
    ensures var t := After(Events(arrivals));
      && day in t.site
      && (d.Pages? ==> day in t.pages && Sum(CountsOf(t.pages[day])) == t.site[day].pageLoads)
      && (d.Referrers? ==> day in t.referrers && Sum(CountsOf(t.referrers[day])) <= t.site[day].visits)
  {
    hide Archive.Row, After, Events, AllHonest, Balanced, RowsOf;
    var h := Events(arrivals);
    EventsAreBalanced(arrivals);
    CompleteIsOneRun(h, day, d);
    var i :| 0 <= i < |h| && RowsOf(h[i], After(h), day, d);
    RowsSum(h[i], After(h), day, d);
  }

  lemma RowsSum(e: Event, t: Tables, day: int, d: Dimension)
    requires Balanced(e) && RowsOf(e, t, day, d)
    ensures day in t.site
    ensures d.Pages? ==> day in t.pages && Sum(CountsOf(t.pages[day])) == t.site[day].pageLoads
    ensures d.Referrers? ==> day in t.referrers && Sum(CountsOf(t.referrers[day])) <= t.site[day].visits
  {
    assert CountsOf(Stamped(e.pages, e.at)) == e.pages;
    assert CountsOf(Stamped(e.sources, e.at)) == e.sources;
  }

  /** A run or failure older than the last attempt leaves page rows, referrer rows and coverage as they are. */
  lemma OlderRunsChangeNoRows(t: Tables, e: Event)
    requires forall d :: Archive.Row(t, e.day, d).Some? && e.at < Archive.Row(t, e.day, d).value.lastAttempt
    ensures Next(t, e).pages == t.pages && Next(t, e).referrers == t.referrers
    ensures forall o, d :: Archive.Row(Next(t, e), o, d) == Archive.Row(t, o, d)
  {
    hide Archive.Row, Next;
    NextRows(t, e);
    forall o, d
      ensures Archive.Row(Next(t, e), o, d) == Archive.Row(t, o, d)
    {
      assert Archive.Row(t, e.day, d).Some? && e.at < Archive.Row(t, e.day, d).value.lastAttempt;
    }
  }

  /**
   * A recorded failure keeps every traffic row and every last success; only a day not tried later than it becomes
   * missing, and no other day is touched.
   */
  lemma FailuresKeepRows(t: Tables, day: int, at: int)
    ensures var next := Next(t, Failed(day, at));
      && next.site == t.site && next.pages == t.pages && next.referrers == t.referrers
      && (forall o, d | o != day :: Archive.Row(next, o, d) == Archive.Row(t, o, d))
      && forall d ::
           var was, row := Archive.Row(t, day, d), Archive.Row(next, day, d);
           && row.Some? && row.value.lastSuccess == (if was.Some? then was.value.lastSuccess else None)
           && (row.value.result.Missing? <==> was.None? || was.value.lastAttempt <= at || was.value.result.Missing?)
  {
    hide Next, Archive.Row;
    NextRows(t, Failed(day, at));
  }

  // The success on record for a dimension is that of one whole run, at its time.
  ghost predicate SucceededBy(e: Event, t: Tables, day: int, d: Dimension) {
    Whole(e, d) && e.day == day && Archive.Row(t, day, d).Some? && Archive.Row(t, day, d).value.lastSuccess == Some(e.at)
  }

  /**
   * Page rows and referrer rows each come whole from one complete run, whose time is the last success on record,
   * and the site row is that of the newest stored run, of equal times the last to arrive.
   */
  lemma RowsComeWhole(h: seq<Event>, day: int)
    ensures var t := After(h);
      && (day in t.pages ==>
            exists i :: 0 <= i < |h| && SucceededBy(h[i], t, day, Pages) && t.pages[day] == Stamped(h[i].pages, h[i].at))
      && (day in t.referrers ==>
            exists i :: 0 <= i < |h| && SucceededBy(h[i], t, day, Referrers)
                        && t.referrers[day] == Stamped(h[i].sources, h[i].at))
      && (day in t.site ==>
            exists i :: 0 <= i < |h| && h[i].day == day && h[i].Stored? && t.site[day] == SiteOf(h[i])
              && forall j | 0 <= j < |h| && h[j].day == day && h[j].Stored? ::
                   h[j].at < h[i].at || (h[j].at == h[i].at && j <= i))
  {
    hide Archive.Row, Next, Stamped;
    HistoryDecides(h, day);
    PickIsGreatest(h, day, Kept);
    SourceTried(h, day, Pages);
    SourceTried(h, day, Referrers);
    assert StateMatches(h, After(h), day, Pages);
    assert StateMatches(h, After(h), day, Referrers);
  }
}
