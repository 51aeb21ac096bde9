/** The legacy importer's image splices, from right to left. */
module Splice {
  import opened Base
  import opened Ordering

  // Replace body[start..end], which is url, by the stored image's address.
  datatype Edit = Edit(start: int, end: int, url: string)

  predicate Planned(body: string, e: Edit) {
    0 <= e.start < e.end <= |body| && body[e.start..e.end] == e.url
  }

  predicate AllPlanned(body: string, edits: seq<Edit>) {
    forall i | 0 <= i < |edits| :: Planned(body, edits[i])
  }

  predicate Overlap(a: Edit, b: Edit) {
    a.start < b.end && b.start < a.end
  }

  ghost predicate Overlapping(edits: seq<Edit>) {
    exists i, j :: 0 <= i < j < |edits| && Overlap(edits[i], edits[j])
  }

  function StartOf(e: Edit): int { e.start }

  // From left to right, each span after the one before.
  predicate Chained(body: string, edits: seq<Edit>, from: int) {
    if edits == [] then 0 <= from <= |body|
    else 0 <= from <= edits[0].start < edits[0].end <= |body| && Chained(body, edits[1..], edits[0].end)
  }

  function Replace(replacements: map<string, string>, url: string): string {
    if url in replacements then replacements[url] else url
  }

  // All spans of body[from..] substituted at once; everything between them is kept.
  function Weave(body: string, edits: seq<Edit>, from: int, replacements: map<string, string>): string
    requires Chained(body, edits, from)
  {
    if edits == [] then body[from..]
    else body[from..edits[0].start] + Replace(replacements, edits[0].url) + Weave(body, edits[1..], edits[0].end, replacements)
  }

  lemma Associate(a: string, b: string, c: string, d: string)
    ensures (a + b) + c + d == a + (b + c + d)
  {
  }

  // Text in front of the first span can be split off.
  lemma WeaveFrom(body: string, edits: seq<Edit>, from: int, to: int, replacements: map<string, string>)
    requires Chained(body, edits, to) && 0 <= from <= to
    ensures Chained(body, edits, from)
    ensures Weave(body, edits, from, replacements) == body[from..to] + Weave(body, edits, to, replacements)
  {
    if edits == [] {
      assert body[from..] == body[from..to] + body[to..];
    } else {
      var first, rest := Replace(replacements, edits[0].url), Weave(body, edits[1..], edits[0].end, replacements);
      assert body[from..edits[0].start] == body[from..to] + body[to..edits[0].start];
      Associate(body[from..to], body[to..edits[0].start], first, rest);
    }
  }

  /** Replacing every span by the text it holds changes nothing: all text outside the spans is kept in place. */
  lemma {:induction false} WeaveIdentity(body: string, edits: seq<Edit>, from: int)
    requires Chained(body, edits, from) && AllPlanned(body, edits)
    ensures Weave(body, edits, from, map[]) == body[from..]
  {
    if edits != [] {
      assert forall i | 0 <= i < |edits[1..]| :: edits[1..][i] == edits[i + 1];
      WeaveIdentity(body, edits[1..], edits[0].end);
      assert body[from..] == body[from..edits[0].start] + body[edits[0].start..edits[0].end] + body[edits[0].end..];
    }
  }

  // ----- overlaps and order -----

  lemma {:induction false} InsertKeeps(e: Edit, s: seq<Edit>)
    ensures multiset(Insert(StartOf, e, s)) == multiset(s) + multiset{e}
  {
    if s != [] && StartOf(e) > StartOf(s[0]) {
      InsertKeeps(e, s[1..]);
      assert s == [s[0]] + s[1..];
    }
  }

  lemma {:induction false} SortKeeps(s: seq<Edit>)
    ensures multiset(SortBy(StartOf, s)) == multiset(s)
  {
    if s != [] {
      SortKeeps(s[1..]);
      InsertKeeps(s[0], SortBy(StartOf, s[1..]));
      assert s == [s[0]] + s[1..];
    }
  }

  predicate Ordered(s: seq<Edit>) {
    forall i, j | 0 <= i < j < |s| :: s[i].start <= s[j].start
  }

  lemma {:induction false} InsertOrders(e: Edit, s: seq<Edit>)
    requires Ordered(s)
    ensures Ordered(Insert(StartOf, e, s))
  {
    if s != [] && StartOf(e) > StartOf(s[0]) {
      InsertOrders(e, s[1..]);
      var rest := Insert(StartOf, e, s[1..]);
      forall y | y in rest
        ensures s[0].start <= y.start
      {
        if y != e {
          var i :| 0 <= i < |s[1..]| && s[1..][i] == y;
          assert s[0].start <= s[i + 1].start;
        }
      }
      assert forall j | 0 < j <= |rest| :: ([s[0]] + rest)[j] in rest;
    }
  }

  lemma {:induction false} SortOrders(s: seq<Edit>)
    ensures Ordered(SortBy(StartOf, s))
  {
    if s != [] {
      SortOrders(s[1..]);
      InsertOrders(s[0], SortBy(StartOf, s[1..]));
    }
  }

  lemma Removed(s: seq<Edit>, i: int)
    requires 0 <= i < |s|
    ensures multiset(s) == multiset(s[..i] + s[i + 1..]) + multiset{s[i]}
  {
    assert s == s[..i] + [s[i]] + s[i + 1..];
  }

  lemma TwoPlaces(s: seq<Edit>, x: Edit, y: Edit)
    requires multiset{x, y} <= multiset(s)
    ensures exists i, j :: 0 <= i < |s| && 0 <= j < |s| && i != j && s[i] == x && s[j] == y
  {
    assert x in multiset(s);
    var i :| 0 <= i < |s| && s[i] == x;
    var rest := s[..i] + s[i + 1..];
    Removed(s, i);
    assert multiset{x, y} == multiset{y} + multiset{x};
    assert y in multiset(rest);
    var k :| 0 <= k < |rest| && rest[k] == y;
    var j := if k < i then k else k + 1;
    assert s[j] == y && i != j;
  }

  // Whether spans overlap does not depend on the order they are listed in.
  lemma OverlapAnyOrder(a: seq<Edit>, b: seq<Edit>)
    requires multiset(a) == multiset(b) && Overlapping(a)
    ensures Overlapping(b)
  {
    var i, j :| 0 <= i < j < |a| && Overlap(a[i], a[j]);
    assert a == a[..i] + [a[i]] + a[i + 1..j] + [a[j]] + a[j + 1..];
    assert multiset{a[i], a[j]} <= multiset(a);
    TwoPlaces(b, a[i], a[j]);
    var p, q :| 0 <= p < |b| && 0 <= q < |b| && p != q && b[p] == a[i] && b[q] == a[j];
    assert Overlap(b[p], b[q]) && Overlap(b[q], b[p]);
  }

  lemma {:induction false} ChainAfter(body: string, edits: seq<Edit>, from: int, k: nat)
    requires Chained(body, edits, from) && k < |edits|
    ensures from <= edits[k].start
  {
    if k > 0 { ChainAfter(body, edits[1..], edits[0].end, k - 1); }
  }

  lemma {:induction false} ChainedApart(body: string, edits: seq<Edit>, from: int)
    requires Chained(body, edits, from)
    ensures !Overlapping(edits)
  {
    if edits != [] {
      ChainedApart(body, edits[1..], edits[0].end);
      forall i, j | 0 <= i < j < |edits|
        ensures !Overlap(edits[i], edits[j])
      {
        if i > 0 {
          assert edits[1..][i - 1] == edits[i] && edits[1..][j - 1] == edits[j];
        } else {
          ChainAfter(body, edits[1..], edits[0].end, j - 1);
          assert edits[1..][j - 1] == edits[j];
        }
      }
    }
  }

  lemma TouchingOverlap(body: string, sorted: seq<Edit>, k: int)
    requires AllPlanned(body, sorted) && Ordered(sorted) && 0 <= k < |sorted| - 1 && sorted[k].end > sorted[k + 1].start
    ensures Overlapping(sorted)
  {
    assert Overlap(sorted[k], sorted[k + 1]);
  }

  predicate Replaceable(edits: seq<Edit>, replacements: map<string, string>) {
    forall i | 0 <= i < |edits| :: edits[i].url in replacements
  }

  // Sorting changes neither which spans there are nor whether they overlap.
  lemma SortedEdits(body: string, edits: seq<Edit>, replacements: map<string, string>)
    requires AllPlanned(body, edits)
    ensures var sorted := SortBy(StartOf, edits);
      && AllPlanned(body, sorted) && Ordered(sorted) && (Overlapping(sorted) <==> Overlapping(edits))
      && (Replaceable(sorted, replacements) <==> Replaceable(edits, replacements))
  {
    hide Overlapping, Planned;
    var sorted := SortBy(StartOf, edits);
    SortKeeps(edits);
    SortOrders(edits);
    assert forall i | 0 <= i < |sorted| :: sorted[i] in edits;
    assert forall i | 0 <= i < |edits| :: edits[i] in sorted;
    if Overlapping(sorted) { OverlapAnyOrder(sorted, edits); }
    if Overlapping(edits) { OverlapAnyOrder(edits, sorted); }
  }

  method RewriteSorted(body: string, sorted: seq<Edit>, replacements: map<string, string>) returns (r: Option<string>)
    requires AllPlanned(body, sorted) && Ordered(sorted)
    ensures r.Some? <==> !Overlapping(sorted) && Replaceable(sorted, replacements)
    ensures r.Some? ==> Chained(body, sorted, 0) && r.value == Weave(body, sorted, 0, replacements)
  {
    hide Overlapping, Ordered, Weave;
    var text, end, k := body, |body|, |sorted|;
    NothingWoven(body, sorted, replacements);
    while k > 0
      invariant 0 <= k <= |sorted| && 0 <= end <= |body|
      invariant end == if k == |sorted| then |body| else sorted[k].start
      invariant Chained(body, sorted[k..], end)
      invariant text == body[..end] + Weave(body, sorted[k..], end, replacements)
      invariant forall i | k <= i < |sorted| :: sorted[i].url in replacements
    {
      k := k - 1;
      var e := sorted[k];
      if e.url !in replacements { return None; }
      if e.end > end {
        TouchingOverlap(body, sorted, k);
        return None;
      }
      SpliceStep(body, sorted, k, end, replacements);
      text := text[..e.start] + replacements[e.url] + text[e.end..];
      end := e.start;
    }
    Finish(body, sorted, end, replacements);
    return Some(text);
  }

  lemma NothingWoven(body: string, sorted: seq<Edit>, replacements: map<string, string>)
    ensures Chained(body, sorted[|sorted|..], |body|)
    ensures body == body[..|body|] + Weave(body, sorted[|sorted|..], |body|, replacements)
  {
  }

  /**
   * The loop from right to left succeeds exactly when no two spans overlap (and every image was stored), and
   * then yields the simultaneous substitution of all of them.
   */
  method Rewrite(body: string, edits: seq<Edit>, replacements: map<string, string>) returns (r: Option<string>)
    requires AllPlanned(body, edits)
    ensures r.Some? <==> !Overlapping(edits) && Replaceable(edits, replacements)
    ensures r.Some? ==> Chained(body, SortBy(StartOf, edits), 0)
                        && r.value == Weave(body, SortBy(StartOf, edits), 0, replacements)
  {
    SortedEdits(body, edits, replacements);
    r := RewriteSorted(body, SortBy(StartOf, edits), replacements);
  }

  lemma SpliceStep(body: string, sorted: seq<Edit>, k: int, end: int, replacements: map<string, string>)
    requires 0 <= k < |sorted| && Planned(body, sorted[k]) && sorted[k].end <= end <= |body| && sorted[k].url in replacements
    requires Chained(body, sorted[k + 1..], end)
    ensures Chained(body, sorted[k..], sorted[k].start)
    ensures var e, text := sorted[k], body[..end] + Weave(body, sorted[k + 1..], end, replacements);
      text[..e.start] + replacements[e.url] + text[e.end..]
        == body[..e.start] + Weave(body, sorted[k..], e.start, replacements)
  {
    var e := sorted[k];
    WeaveFrom(body, sorted[k + 1..], e.end, end, replacements);
    assert sorted[k..][1..] == sorted[k + 1..] && sorted[k..][0] == e;
    var tail := Weave(body, sorted[k + 1..], end, replacements);
    var text := body[..end] + tail;
    assert text[..e.start] == body[..e.start];
    assert text[e.end..] == body[e.end..end] + tail;
    assert body[e.start..e.start] == "";
  }

  lemma Finish(body: string, sorted: seq<Edit>, end: int, replacements: map<string, string>)
    requires Chained(body, sorted[0..], end)
    ensures Chained(body, sorted, 0) && !Overlapping(sorted)
    ensures body[..end] + Weave(body, sorted[0..], end, replacements) == Weave(body, sorted, 0, replacements)
  {
    assert sorted[0..] == sorted;
    assert 0 <= end <= |body|;
    WeaveFrom(body, sorted, 0, end, replacements);
    ChainedApart(body, sorted, 0);
    assert body[0..end] == body[..end];
  }
}
