/** The content list of the CMS: cursor pages over (updated, id), newest or oldest first. */
module ContentList {
  import opened Base
  import opened Ordering
  import opened Pages
  import opened Schema

  const PAGE_SIZE := 100

  datatype Position = Position(updated: int, id: int)

  function Self(p: Position): Position { p }

  predicate Older(a: Position, b: Position) {
    a.updated < b.updated || (a.updated == b.updated && a.id < b.id)
  }

  predicate Newer(a: Position, b: Position) {
    Older(b, a)
  }

  lemma Orders()
    ensures StrictTotal(Older) && StrictTotal(Newer)
  {
  }

  // The rows the filters keep, each with its sort key.
  function Kept(items: seq<Item>, keep: int -> bool): set<Position> {
    set i | 0 <= i < |items| && keep(i + 1) :: Position(items[i].updatedAt, i + 1)
  }

  function Listed(items: seq<Item>, keep: int -> bool, ascending: bool): (rows: seq<Position>)
    ensures forall p :: p in rows <==> p in Kept(items, keep)
    ensures Keyed(Self, if ascending then Older else Newer, rows)
  {
    Orders();
    var lt := if ascending then Older else Newer;
    Sorted(lt, Kept(items, keep))
  }

  // What a query with this cursor ranges over.
  function Rest(rows: seq<Position>, ascending: bool, cursor: Option<Position>): seq<Position> {
    match cursor
    case None => rows
    case Some(p) => RowsAfter(Self, if ascending then Older else Newer, rows, p)
  }

  function First(rows: seq<Position>, n: nat): seq<Position> {
    if |rows| <= n then rows else rows[..n]
  }

  // Row i + 1 with its time, when the filters keep it.
  ghost predicate IsKept(items: seq<Item>, keep: int -> bool, p: Position) {
    0 < p.id <= |items| && keep(p.id) && p.updated == items[p.id - 1].updatedAt
  }

  // p is listed in front of q: earlier or later by time, and by number at equal times.
  predicate InFront(ascending: bool, p: Position, q: Position) {
    if ascending then p.updated < q.updated || (p.updated == q.updated && p.id < q.id)
    else p.updated > q.updated || (p.updated == q.updated && p.id > q.id)
  }

  ghost predicate InOrder(ascending: bool, rows: seq<Position>) {
    forall i, j | 0 <= i < j < |rows| :: InFront(ascending, rows[i], rows[j])
  }

  lemma ListedMeans(items: seq<Item>, keep: int -> bool, ascending: bool)
    ensures InOrder(ascending, Listed(items, keep, ascending))
    ensures forall p :: p in Listed(items, keep, ascending) <==> IsKept(items, keep, p)
  {
    var rows := Listed(items, keep, ascending);
    var lt := if ascending then Older else Newer;
    forall i, j | 0 <= i < j < |rows|
      ensures InFront(ascending, rows[i], rows[j])
    {
      assert lt(Self(rows[i]), Self(rows[j]));
    }
    forall p
      ensures p in rows <==> IsKept(items, keep, p)
    {
      if IsKept(items, keep, p) { assert p == Position(items[p.id - 1].updatedAt, (p.id - 1) + 1); }
    }
  }

  // The rows behind the cursor, all of them without one.
  lemma RestMeans(items: seq<Item>, keep: int -> bool, ascending: bool, cursor: Option<Position>)
    ensures var rest := Rest(Listed(items, keep, ascending), ascending, cursor);
      && InOrder(ascending, rest)
      && forall p :: p in rest <==> IsKept(items, keep, p) && (cursor.Some? ==> InFront(ascending, cursor.value, p))
  {
    hide Listed;
    ListedMeans(items, keep, ascending);
    if cursor.Some? { BehindCursor(Listed(items, keep, ascending), ascending, cursor.value); }
  }

  lemma {:induction false} BehindCursor(rows: seq<Position>, ascending: bool, cursor: Position)
    requires InOrder(ascending, rows)
    ensures var rest := Rest(rows, ascending, Some(cursor));
      InOrder(ascending, rest) && forall p :: p in rest <==> p in rows && InFront(ascending, cursor, p)
  {
    if rows != [] {
      BehindCursor(rows[1..], ascending, cursor);
      assert rows == [rows[0]] + rows[1..];
      forall p | p in rows[1..]
        ensures InFront(ascending, rows[0], p)
      {
        var i :| 0 <= i < |rows[1..]| && rows[1..][i] == p;
        assert rows[i + 1] == p;
      }
    }
  }

  /** One page: one row more than shown is read to know whether there is a next page. */
  method List(items: seq<Item>, keep: int -> bool, ascending: bool, cursor: Option<Position>)
    returns (page: seq<Position>, next: Option<Position>)
    ensures var rest := Rest(Listed(items, keep, ascending), ascending, cursor);
      && page == First(rest, PAGE_SIZE)
      && next == if |rest| > PAGE_SIZE then Some(rest[PAGE_SIZE - 1]) else None
    ensures InOrder(ascending, page) && |page| <= 100
    ensures forall p | p in page :: IsKept(items, keep, p) && (cursor.Some? ==> InFront(ascending, cursor.value, p))
    ensures forall p | IsKept(items, keep, p) && (cursor.Some? ==> InFront(ascending, cursor.value, p)) && p !in page ::
      |page| == 100 && InFront(ascending, page[99], p) && next == Some(page[99])
    ensures next.Some? ==> |page| == 100 && next.value == page[99]
  {
    hide Listed, Rest;
    RestMeans(items, keep, ascending, cursor);
    var rows := First(Rest(Listed(items, keep, ascending), ascending, cursor), PAGE_SIZE + 1);
    var hasMore := |rows| > PAGE_SIZE;
    if hasMore { rows := rows[..PAGE_SIZE]; }
    page, next := rows, if hasMore then Some(rows[|rows| - 1]) else None;
  }

  // The cursor in front of page k.
  function CursorAt(rows: seq<Position>, k: nat): Option<Position>
    requires k * PAGE_SIZE <= |rows|
  {
    if k == 0 then None else Some(rows[k * PAGE_SIZE - 1])
  }

  lemma CursorRest(rows: seq<Position>, ascending: bool, k: nat)
    requires Keyed(Self, if ascending then Older else Newer, rows) && k * PAGE_SIZE <= |rows|
    ensures Rest(rows, ascending, CursorAt(rows, k)) == rows[k * PAGE_SIZE..]
  {
    if k > 0 {
      var n, lt := k * PAGE_SIZE, if ascending then Older else Newer;
      Orders();
      AdvanceCursor(Self, lt, rows, n);
      AfterIsSuffix(Self, lt, rows, Self(rows[n - 1]), n);
    }
  }

  /**
   * On a fixed state, page k holds rows 100*k up to 100*(k+1) of the filtered order, and its cursor is the one in
   * front of page k+1 exactly while rows remain.
   */
  lemma PageK(items: seq<Item>, keep: int -> bool, ascending: bool, k: nat)
    requires k * PAGE_SIZE <= |Listed(items, keep, ascending)|
    ensures var rows := Listed(items, keep, ascending); var n := k * PAGE_SIZE;
      var rest := Rest(rows, ascending, CursorAt(rows, k));
      && First(rest, PAGE_SIZE) == rows[n..if n + PAGE_SIZE <= |rows| then n + PAGE_SIZE else |rows|]
      && (|rest| > PAGE_SIZE <==> n + PAGE_SIZE < |rows|)
      && (|rest| > PAGE_SIZE ==> Some(rest[PAGE_SIZE - 1]) == CursorAt(rows, k + 1))
  {
    hide Listed, Rest, Keyed;
    CursorRest(Listed(items, keep, ascending), ascending, k);
  }

  /** A client that follows each page's own cursor until there is none has every kept row once, in order. */
  method FollowCursors(items: seq<Item>, keep: int -> bool, ascending: bool) returns (all: seq<Position>)
    ensures all == Listed(items, keep, ascending)
    ensures InOrder(ascending, all) && forall p :: p in all <==> IsKept(items, keep, p)
  {
    hide Listed, Rest, Keyed;
    ListedMeans(items, keep, ascending);
    ghost var rows := Listed(items, keep, ascending);
    ghost var k := 0;
    var cursor: Option<Position> := None;
    all := [];
    while true
      invariant k * PAGE_SIZE <= |rows| && cursor == CursorAt(rows, k) && all == rows[..k * PAGE_SIZE]
      decreases |rows| - k * PAGE_SIZE
    {
      PageK(items, keep, ascending, k);
      var page, next := List(items, keep, ascending, cursor);
      all := all + page;
      if next.None? { break; }
      k, cursor := k + 1, next;
    }
  }
}
