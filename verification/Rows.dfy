/** Table rows as sequences: selection, ordering and the uniqueness of an ordered listing. */
module Rows {

  /** The rows that satisfy `p`, in table order. */
  function Filter<T(!new)>(p: T -> bool, rows: seq<T>): (r: seq<T>)
    ensures forall x :: x in r <==> x in rows && p(x)
  {
    if rows == [] then []
    else if p(rows[0]) then [rows[0]] + Filter(p, rows[1..])
    else Filter(p, rows[1..])
  }

  /** UPDATE ... SET f WHERE p: rows keep their places. */
  function Update<T(!new)>(p: T -> bool, f: T -> T, rows: seq<T>): (r: seq<T>)
    ensures |r| == |rows|
    ensures forall i :: 0 <= i < |rows| ==> r[i] == if p(rows[i]) then f(rows[i]) else rows[i]
  {
    if rows == [] then []
    else [if p(rows[0]) then f(rows[0]) else rows[0]] + Update(p, f, rows[1..])
  }

  lemma {:induction false} FilterConcat<T(!new)>(p: T -> bool, a: seq<T>, b: seq<T>)
    ensures Filter(p, a + b) == Filter(p, a) + Filter(p, b)
  {
    if a == [] {
      assert a + b == b;
    } else {
      assert (a + b)[1..] == a[1..] + b;
      FilterConcat(p, a[1..], b);
    }
  }

  lemma {:induction false} FilterAll<T(!new)>(p: T -> bool, rows: seq<T>)
    requires forall x :: x in rows ==> p(x)
    ensures Filter(p, rows) == rows
  {
    if rows != [] {
      FilterAll(p, rows[1..]);
    }
  }

  lemma FilterNone<T(!new)>(p: T -> bool, rows: seq<T>)
    requires forall x :: x in rows ==> !p(x)
    ensures Filter(p, rows) == []
  {
    if Filter(p, rows) != [] {
      assert Filter(p, rows)[0] in Filter(p, rows);
    }
  }

  /** A selection depends only on what `p` says about the rows at hand. */
  lemma {:induction false} FilterAgree<T(!new)>(p: T -> bool, q: T -> bool, rows: seq<T>)
    requires forall x :: x in rows ==> p(x) == q(x)
    ensures Filter(p, rows) == Filter(q, rows)
  {
    if rows != [] {
      FilterAgree(p, q, rows[1..]);
    }
  }

  lemma {:induction false} FilterTwice<T(!new)>(p: T -> bool, q: T -> bool, both: T -> bool, rows: seq<T>)
    requires forall x :: x in rows ==> both(x) == (p(x) && q(x))
    ensures Filter(p, Filter(q, rows)) == Filter(both, rows)
  {
    if rows != [] {
      FilterTwice(p, q, both, rows[1..]);
    }
  }

  /** `lt` is a strict order: irreflexive and transitive. */
  ghost predicate StrictOrder<T(!new)>(lt: (T, T) -> bool) {
    && (forall a :: !lt(a, a))
    && (forall a, b, c :: lt(a, b) && lt(b, c) ==> lt(a, c))
  }

  /** No two rows of the sequence are tied under `lt`. */
  ghost predicate Separates<T(!new)>(lt: (T, T) -> bool, rows: seq<T>) {
    forall i, j :: 0 <= i < j < |rows| ==> lt(rows[i], rows[j]) || lt(rows[j], rows[i])
  }

  ghost predicate Sorted<T(!new)>(lt: (T, T) -> bool, rows: seq<T>) {
    forall i, j :: 0 <= i < j < |rows| ==> lt(rows[i], rows[j])
  }

  function Insert<T(!new)>(lt: (T, T) -> bool, x: T, rows: seq<T>): (r: seq<T>)
    ensures |r| == |rows| + 1
    ensures forall y :: y in r <==> y == x || y in rows
  {
    if rows == [] || lt(x, rows[0]) then [x] + rows else [rows[0]] + Insert(lt, x, rows[1..])
  }

  /** ORDER BY: the rows in `lt` order. */
  function Sort<T(!new)>(lt: (T, T) -> bool, rows: seq<T>): (r: seq<T>)
    ensures |r| == |rows|
    ensures forall y :: y in r <==> y in rows
  {
    if rows == [] then [] else Insert(lt, rows[0], Sort(lt, rows[1..]))
  }

  lemma {:induction false} InsertSorted<T(!new)>(lt: (T, T) -> bool, x: T, rows: seq<T>)
    requires StrictOrder(lt) && Sorted(lt, rows)
    requires forall y :: y in rows ==> lt(x, y) || lt(y, x)
    ensures Sorted(lt, Insert(lt, x, rows))
  {
    if rows == [] {
    } else if lt(x, rows[0]) {
      forall k | 0 <= k < |rows| ensures lt(x, rows[k]) {
      }
    } else {
      InsertSorted(lt, x, rows[1..]);
      var rest := Insert(lt, x, rows[1..]);
      forall k | 0 <= k < |rest| ensures lt(rows[0], rest[k]) {
        assert rest[k] in rest;
      }
    }
  }

  lemma {:induction false} SortSorts<T(!new)>(lt: (T, T) -> bool, rows: seq<T>)
    requires StrictOrder(lt) && Separates(lt, rows)
    ensures Sorted(lt, Sort(lt, rows))
  {
    if rows != [] {
      SortSorts(lt, rows[1..]);
      InsertSorted(lt, rows[0], Sort(lt, rows[1..]));
    }
  }

  /** Two ordered listings of the same rows are the same listing. */
  lemma {:induction false} SortedUnique<T(!new)>(lt: (T, T) -> bool, a: seq<T>, b: seq<T>)
    requires StrictOrder(lt) && Sorted(lt, a) && Sorted(lt, b)
    requires forall x :: x in a <==> x in b
    ensures a == b
  {
    assert |b| > 0 ==> b[0] in b;
    if a != [] {
      assert a[0] in a;
      var k :| 0 <= k < |b| && b[k] == a[0];
      var l :| 0 <= l < |a| && a[l] == b[0];
      assert k == 0 && l == 0;
      forall x ensures x in a[1..] <==> x in b[1..] {
        SortedTail(lt, a, x);
        SortedTail(lt, b, x);
      }
      SortedUnique(lt, a[1..], b[1..]);
    }
  }

  lemma SortedTail<T(!new)>(lt: (T, T) -> bool, a: seq<T>, x: T)
    requires StrictOrder(lt) && Sorted(lt, a) && a != []
    ensures x in a[1..] <==> x in a && x != a[0]
  {
    assert a == [a[0]] + a[1..];
  }

  lemma SortOfSorted<T(!new)>(lt: (T, T) -> bool, rows: seq<T>)
    requires StrictOrder(lt) && Sorted(lt, rows)
    ensures Sort(lt, rows) == rows
  {
    SortSorts(lt, rows);
    SortedUnique(lt, Sort(lt, rows), rows);
  }

  lemma {:induction false} FilterSorted<T(!new)>(lt: (T, T) -> bool, p: T -> bool, rows: seq<T>)
    requires Sorted(lt, rows)
    ensures Sorted(lt, Filter(p, rows))
  {
    if rows != [] {
      FilterSorted(lt, p, rows[1..]);
      var rest := Filter(p, rows[1..]);
      forall k | 0 <= k < |rest| ensures lt(rows[0], rest[k]) {
        assert rest[k] in rows[1..];
      }
    }
  }

  lemma {:induction false} FilterSeparates<T(!new)>(lt: (T, T) -> bool, p: T -> bool, rows: seq<T>)
    requires Separates(lt, rows)
    ensures Separates(lt, Filter(p, rows))
  {
    if rows != [] {
      FilterSeparates(lt, p, rows[1..]);
      var rest := Filter(p, rows[1..]);
      forall k | 0 <= k < |rest| ensures lt(rows[0], rest[k]) || lt(rest[k], rows[0]) {
        assert rest[k] in rows[1..];
      }
    }
  }

  /** WHERE and ORDER BY commute. */
  lemma SortFilter<T(!new)>(lt: (T, T) -> bool, p: T -> bool, rows: seq<T>)
    requires StrictOrder(lt) && Separates(lt, rows)
    ensures Sort(lt, Filter(p, rows)) == Filter(p, Sort(lt, rows))
  {
    FilterSeparates(lt, p, rows);
    SortSorts(lt, Filter(p, rows));
    SortSorts(lt, rows);
    FilterSorted(lt, p, Sort(lt, rows));
    SortedUnique(lt, Sort(lt, Filter(p, rows)), Filter(p, Sort(lt, rows)));
  }

  function Reverse<T(!new)>(rows: seq<T>): (r: seq<T>)
    ensures |r| == |rows|
    ensures forall i :: 0 <= i < |rows| ==> r[i] == rows[|rows| - 1 - i]
  {
    if rows == [] then [] else Reverse(rows[1..]) + [rows[0]]
  }

  /** LIMIT n, where SQLite reads a negative n as no limit. */
  function Limit<T(!new)>(rows: seq<T>, n: int): (r: seq<T>) {
    if n < 0 || n >= |rows| then rows else rows[..n]
  }
}
