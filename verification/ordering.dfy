/** Strict orders, sorted enumeration of finite sets, and keyset pages over ordered rows. */
module Ordering {

  ghost predicate StrictTotal<T(!new)>(lt: (T, T) -> bool) {
    && (forall x :: !lt(x, x))
    && (forall x, y, z :: lt(x, y) && lt(y, z) ==> lt(x, z))
    && (forall x, y :: x == y || lt(x, y) || lt(y, x))
  }

  ghost predicate Ascending<T>(lt: (T, T) -> bool, s: seq<T>) {
    forall i, j | 0 <= i < j < |s| :: lt(s[i], s[j])
  }

  lemma LeastExists<T(!new)>(lt: (T, T) -> bool, s: set<T>)
    requires StrictTotal(lt) && s != {}
    ensures exists x :: x in s && forall y | y in s :: x == y || lt(x, y)
  {
    var e :| e in s;
    var rest := s - {e};
    if rest == {} {
      assert s == {e};
    } else {
      LeastExists(lt, rest);
      var m :| m in rest && forall y | y in rest :: m == y || lt(m, y);
      var x := if lt(e, m) then e else m;
      assert forall y | y in s :: y == e || y in rest;
      assert x in s && forall y | y in s :: x == y || lt(x, y);
    }
  }

  function Least<T(!new, ==)>(lt: (T, T) -> bool, s: set<T>): (m: T)
    requires StrictTotal(lt) && s != {}
    ensures m in s && forall y | y in s :: m == y || lt(m, y)
  {
    LeastExists(lt, s);
    var m :| m in s && forall y | y in s :: m == y || lt(m, y);
    m
  }

  // The elements of s, each once, in ascending order.
  function Sorted<T(!new, ==)>(lt: (T, T) -> bool, s: set<T>): (r: seq<T>)
    requires StrictTotal(lt)
    ensures Ascending(lt, r)
    ensures forall x :: x in r <==> x in s
    ensures |r| == |s|
  {
    if s == {} then []
    else
      var m := Least(lt, s);
      [m] + Sorted(lt, s - {m})
  }

  // An ascending sequence is determined by its elements.
  lemma {:induction false} AscendingUnique<T(!new)>(lt: (T, T) -> bool, a: seq<T>, b: seq<T>)
    requires StrictTotal(lt) && Ascending(lt, a) && Ascending(lt, b)
    requires forall x :: x in a <==> x in b
    ensures a == b
  {
    if a == [] {
      assert forall i | 0 <= i < |b| :: b[i] in a;
    } else {
      assert a[0] in b;
      assert b[0] in a;
      var i :| 0 <= i < |b| && b[i] == a[0];
      var j :| 0 <= j < |a| && a[j] == b[0];
      assert a[0] == b[0];
      forall x
        ensures x in a[1..] <==> x in b[1..]
      {
        assert x in a[1..] <==> x in a && x != a[0] by { TailElements(lt, a, x); }
        assert x in b[1..] <==> x in b && x != b[0] by { TailElements(lt, b, x); }
      }
      AscendingUnique(lt, a[1..], b[1..]);
      assert a == [a[0]] + a[1..];
      assert b == [b[0]] + b[1..];
    }
  }

  lemma TailElements<T(!new)>(lt: (T, T) -> bool, s: seq<T>, x: T)
    requires StrictTotal(lt) && Ascending(lt, s) && s != []
    ensures x in s[1..] <==> x in s && x != s[0]
  {
    assert s == [s[0]] + s[1..];
    if x in s[1..] {
      var i :| 0 <= i < |s[1..]| && s[1..][i] == x;
      assert lt(s[0], s[i + 1]);
    }
  }

  predicate IdLess(a: int, b: int) {
    a < b
  }

  lemma IdOrder()
    ensures StrictTotal(IdLess)
  {
  }

  // Byte order of paths, SQLite's default collation.
  predicate PathLess(a: string, b: string) {
    b != "" && (a == "" || a[0] < b[0] || (a[0] == b[0] && PathLess(a[1..], b[1..])))
  }

  lemma {:induction false} PathLessTransitive(a: string, b: string, c: string)
    requires PathLess(a, b) && PathLess(b, c)
    ensures PathLess(a, c)
  {
    if a != "" && a[0] == b[0] == c[0] {
      PathLessTransitive(a[1..], b[1..], c[1..]);
    }
  }

  lemma {:induction false} PathLessTotal(a: string, b: string)
    ensures a == b || PathLess(a, b) || PathLess(b, a)
    ensures !(PathLess(a, b) && PathLess(b, a))
  {
    if a != "" && b != "" && a[0] == b[0] {
      PathLessTotal(a[1..], b[1..]);
      assert a == [a[0]] + a[1..] && b == [b[0]] + b[1..];
    }
  }

  // a and b agree on k characters, and then a ends or goes on with the smaller one.
  ghost predicate Diverge(a: string, b: string, k: int) {
    0 <= k <= |a| && k < |b| && a[..k] == b[..k] && (k == |a| || a[k] < b[k])
  }

  /** Paths are in lexicographic order. */
  lemma {:induction false} PathLessIs(a: string, b: string)
    ensures PathLess(a, b) <==> exists k :: Diverge(a, b, k)
  {
    if a == "" || b == "" || a[0] != b[0] {
      if PathLess(a, b) { assert Diverge(a, b, 0); }
      if k :| Diverge(a, b, k) {
        if k > 0 { assert a[..k][0] == b[..k][0]; }
      }
    } else {
      PathLessIs(a[1..], b[1..]);
      if k :| Diverge(a[1..], b[1..], k) {
        assert a[..k + 1] == [a[0]] + a[1..][..k] && b[..k + 1] == [b[0]] + b[1..][..k];
        assert Diverge(a, b, k + 1);
      }
      if k :| Diverge(a, b, k) {
        assert k > 0 && a[1..][..k - 1] == a[..k][1..] && b[1..][..k - 1] == b[..k][1..];
        assert Diverge(a[1..], b[1..], k - 1);
      }
    }
  }

  lemma PathOrder()
    ensures StrictTotal(PathLess)
  {
    forall a, b
      ensures a == b || PathLess(a, b) || PathLess(b, a)
      ensures !(PathLess(a, b) && PathLess(b, a))
    {
      PathLessTotal(a, b);
    }
    forall a, b, c | PathLess(a, b) && PathLess(b, c)
      ensures PathLess(a, c)
    {
      PathLessTransitive(a, b, c);
    }
  }

  function Insert<T(!new)>(key: T -> int, x: T, s: seq<T>): (r: seq<T>)
    ensures |r| == |s| + 1
    ensures forall y :: y in r <==> y == x || y in s
  {
    if s == [] || key(x) <= key(s[0]) then [x] + s
    else
      assert s == [s[0]] + s[1..];
      [s[0]] + Insert(key, x, s[1..])
  }

  // sort.Slice by a numeric key
  function SortBy<T(!new)>(key: T -> int, s: seq<T>): (r: seq<T>)
    ensures |r| == |s|
    ensures forall y :: y in r <==> y in s
  {
    if s == [] then []
    else
      assert s == [s[0]] + s[1..];
      Insert(key, s[0], SortBy(key, s[1..]))
  }

  ghost predicate Strictly<T>(key: T -> int, s: seq<T>) {
    forall i, j | 0 <= i < j < |s| :: key(s[i]) < key(s[j])
  }

  ghost predicate DistinctBy<T>(key: T -> int, s: seq<T>) {
    forall i, j | 0 <= i < j < |s| :: key(s[i]) != key(s[j])
  }

  lemma {:induction false} InsertSorts<T(!new)>(key: T -> int, x: T, s: seq<T>)
    requires Strictly(key, s) && forall y | y in s :: key(y) != key(x)
    ensures Strictly(key, Insert(key, x, s))
  {
    if s != [] && key(s[0]) < key(x) {
      InsertSorts(key, x, s[1..]);
      var rest := Insert(key, x, s[1..]);
      forall y | y in rest
        ensures key(s[0]) < key(y)
      {
        if y != x {
          var i :| 0 <= i < |s[1..]| && s[1..][i] == y;
          assert key(s[0]) < key(s[i + 1]);
        }
      }
      assert forall j | 0 < j <= |rest| :: ([s[0]] + rest)[j] in rest;
    }
  }

  lemma {:induction false} SortSorts<T(!new)>(key: T -> int, s: seq<T>)
    requires DistinctBy(key, s)
    ensures Strictly(key, SortBy(key, s))
  {
    if s != [] {
      SortSorts(key, s[1..]);
      forall y | y in SortBy(key, s[1..])
        ensures key(y) != key(s[0])
      {
        var i :| 0 <= i < |s[1..]| && s[1..][i] == y;
        assert key(s[0]) != key(s[i + 1]);
      }
      InsertSorts(key, s[0], SortBy(key, s[1..]));
    }
  }

  function SortedIds(s: set<int>): (r: seq<int>)
    ensures Ascending(IdLess, r)
    ensures forall x :: x in r <==> x in s
    ensures |r| == |s|
  {
    Sorted(IdLess, s)
  }

  function SortedPaths(s: set<string>): (r: seq<string>)
    ensures Ascending(PathLess, r)
    ensures forall x :: x in r <==> x in s
    ensures |r| == |s|
  {
    PathOrder();
    Sorted(PathLess, s)
  }
}

/** SELECT ... WHERE key > after ORDER BY key LIMIT size, and what a keyset loop collects. */
module Pages {
  import opened Ordering

  function RowsAfter<R, K>(key: R -> K, lt: (K, K) -> bool, rows: seq<R>, after: K): seq<R> {
    if rows == [] then []
    else (if lt(after, key(rows[0])) then [rows[0]] else []) + RowsAfter(key, lt, rows[1..], after)
  }

  function Page<R, K>(key: R -> K, lt: (K, K) -> bool, rows: seq<R>, after: K, size: nat): seq<R> {
    var rest := RowsAfter(key, lt, rows, after);
    if |rest| <= size then rest else rest[..size]
  }

  ghost predicate Keyed<R, K>(key: R -> K, lt: (K, K) -> bool, rows: seq<R>) {
    forall i, j | 0 <= i < j < |rows| :: lt(key(rows[i]), key(rows[j]))
  }

  // A cursor that has consumed exactly the first n rows.
  ghost predicate Consumed<R, K>(key: R -> K, lt: (K, K) -> bool, rows: seq<R>, after: K, n: nat)
    requires n <= |rows|
  {
    && (forall i | 0 <= i < n :: !lt(after, key(rows[i])))
    && (forall i | n <= i < |rows| :: lt(after, key(rows[i])))
  }

  // The rows after a cursor are exactly the rows not consumed yet.
  lemma {:induction false} AfterIsSuffix<R, K>(key: R -> K, lt: (K, K) -> bool, rows: seq<R>, after: K, n: nat)
    requires n <= |rows| && Consumed(key, lt, rows, after, n)
    ensures RowsAfter(key, lt, rows, after) == rows[n..]
  {
    if rows != [] {
      var m := if n == 0 then 0 else n - 1;
      assert forall i | 0 <= i < |rows[1..]| :: rows[1..][i] == rows[i + 1];
      AfterIsSuffix(key, lt, rows[1..], after, m);
      if n == 0 {
        assert rows == [rows[0]] + rows[1..];
      } else {
        assert rows[1..][m..] == rows[n..];
      }
    }
  }

  // Moving the cursor to the last row of a page consumes exactly that page.
  lemma AdvanceCursor<R, K(!new)>(key: R -> K, lt: (K, K) -> bool, rows: seq<R>, n: nat)
    requires StrictTotal(lt) && Keyed(key, lt, rows) && 0 < n <= |rows|
    ensures Consumed(key, lt, rows, key(rows[n - 1]), n)
  {
    forall i | 0 <= i < n
      ensures !lt(key(rows[n - 1]), key(rows[i]))
    {
      assert i == n - 1 || lt(key(rows[i]), key(rows[n - 1]));
    }
  }

  // Where the cursor stands after a page.
  function Cursor<R, K>(key: R -> K, page: seq<R>, after: K): K {
    if page == [] then after else key(page[|page| - 1])
  }

  lemma FirstCursor<R, K>(key: R -> K, lt: (K, K) -> bool, rows: seq<R>, start: K)
    requires forall i | 0 <= i < |rows| :: lt(start, key(rows[i]))
    ensures Consumed(key, lt, rows, start, 0)
  {
  }

  // The next page is the next rows; a full page moves the cursor to its end.
  lemma PageIsNext<R, K(!new)>(key: R -> K, lt: (K, K) -> bool, rows: seq<R>, after: K, n: nat, size: nat)
    requires StrictTotal(lt) && Keyed(key, lt, rows) && n <= |rows| && Consumed(key, lt, rows, after, n) && size > 0
    ensures var page := Page(key, lt, rows, after, size);
      && n + |page| <= |rows| && page == rows[n..n + |page|]
      && (|page| < size ==> n + |page| == |rows|)
      && Consumed(key, lt, rows, Cursor(key, page, after), n + |page|)
  {
    AfterIsSuffix(key, lt, rows, after, n);
    var page := Page(key, lt, rows, after, size);
    if page != [] {
      assert page[|page| - 1] == rows[n + |page| - 1];
      AdvanceCursor(key, lt, rows, n + |page|);
    }
  }
}
