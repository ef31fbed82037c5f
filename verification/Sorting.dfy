/**
 Sorting as the library offers it: some sorted arrangement of the same elements. Where the order is total on
 the elements there is only one, so nothing depends on the algorithm.
 */
module Sorting {
  type Order<!T> = (T, T) -> bool

  ghost predicate StrictTotalOn<T>(s: seq<T>, less: Order<T>) {
    && (forall x | x in s :: !less(x, x))
    && (forall x, y, z | x in s && y in s && z in s && less(x, y) && less(y, z) :: less(x, z))
    && TotalOn(s, less)
  }

  ghost predicate TotalOn<T>(s: seq<T>, less: Order<T>) {
    forall x, y | x in s && y in s && x != y :: less(x, y) || less(y, x)
  }

  ghost predicate Sorted<T>(s: seq<T>, less: Order<T>) {
    forall i, j | 0 <= i < j < |s| :: !less(s[j], s[i])
  }

  function Insert<T>(x: T, s: seq<T>, less: Order<T>): seq<T> {
    if s == [] || less(x, s[0]) then [x] + s else [s[0]] + Insert(x, s[1..], less)
  }

  function Sort<T>(s: seq<T>, less: Order<T>): seq<T> {
    if s == [] then [] else Insert(s[0], Sort(s[1..], less), less)
  }

  lemma {:induction false} InsertKeepsElements<T>(x: T, s: seq<T>, less: Order<T>)
    ensures multiset(Insert(x, s, less)) == multiset(s) + multiset{x}
  {
    if s != [] && !less(x, s[0]) {
      InsertKeepsElements(x, s[1..], less);
      assert s == [s[0]] + s[1..];
    }
  }

  lemma {:induction false} SortKeepsElements<T>(s: seq<T>, less: Order<T>)
    ensures multiset(Sort(s, less)) == multiset(s)
  {
    if s != [] {
      SortKeepsElements(s[1..], less);
      InsertKeepsElements(s[0], Sort(s[1..], less), less);
      assert s == [s[0]] + s[1..];
    }
  }

  lemma SameElements<T>(a: seq<T>, b: seq<T>)
    requires multiset(a) == multiset(b)
    ensures forall x :: x in a <==> x in b
    ensures |a| == |b|
  {
    assert forall x :: x in a <==> x in multiset(a);
    assert |multiset(a)| == |a| && |multiset(b)| == |b|;
  }

  lemma TotalOnFewer<T>(s: seq<T>, t: seq<T>, less: Order<T>)
    requires StrictTotalOn(s, less) && forall x | x in t :: x in s
    ensures StrictTotalOn(t, less)
  {
  }

  lemma {:induction false} InsertSorts<T>(x: T, s: seq<T>, less: Order<T>)
    requires StrictTotalOn([x] + s, less) && Sorted(s, less)
    ensures Sorted(Insert(x, s, less), less)
  {
    if s != [] {
      var all := [x] + s;
      assert x in all && forall y | y in s :: y in all;
      if less(x, s[0]) {
        forall j | 0 <= j < |s| ensures !less(s[j], x) {
          assert s[j] in all && s[0] in all;
        }
      } else {
        TotalOnFewer(all, [x] + s[1..], less);
        InsertSorts(x, s[1..], less);
        InsertKeepsElements(x, s[1..], less);
        var rest := Insert(x, s[1..], less);
        forall j | 0 <= j < |rest| ensures !less(rest[j], s[0]) {
          assert rest[j] in multiset(rest);
          if rest[j] != x {
            assert rest[j] in s[1..];
          }
        }
      }
    }
  }

  lemma {:induction false} SortSorts<T>(s: seq<T>, less: Order<T>)
    requires StrictTotalOn(s, less)
    ensures Sorted(Sort(s, less), less)
  {
    if s != [] {
      TotalOnFewer(s, s[1..], less);
      SortSorts(s[1..], less);
      SortKeepsElements(s[1..], less);
      var rest := Sort(s[1..], less);
      forall x | x in [s[0]] + rest ensures x in s {
        if x != s[0] {
          assert x in multiset(rest);
          assert x in s[1..];
        }
      }
      TotalOnFewer(s, [s[0]] + rest, less);
      InsertSorts(s[0], rest, less);
    }
  }

  /** Two sorted arrangements of the same elements are the same. */
  lemma {:induction false} SortedIsUnique<T>(a: seq<T>, b: seq<T>, less: Order<T>)
    requires multiset(a) == multiset(b) && TotalOn(a, less) && Sorted(a, less) && Sorted(b, less)
    ensures a == b
  {
    SameElements(a, b);
    if a != [] {
      SameFirst(a, b, less);
      TailElements(a);
      TailElements(b);
      SortedIsUnique(a[1..], b[1..], less);
    }
  }

  lemma TailElements<T>(s: seq<T>)
    requires s != []
    ensures s == [s[0]] + s[1..] && multiset(s[1..]) == multiset(s) - multiset{s[0]}
  {
    assert s == [s[0]] + s[1..];
  }

  lemma SameFirst<T>(a: seq<T>, b: seq<T>, less: Order<T>)
    requires a != [] && b != [] && a[0] in b && b[0] in a
    requires TotalOn(a, less) && Sorted(a, less) && Sorted(b, less)
    ensures a[0] == b[0]
  {
    var i :| 0 <= i < |a| && a[i] == b[0];
    var j :| 0 <= j < |b| && b[j] == a[0];
  }

  /** Sorting keeps the elements and sorts them, where the order is total on them. */
  lemma SortIsSorted<T>(s: seq<T>, less: Order<T>)
    requires StrictTotalOn(s, less)
    ensures multiset(Sort(s, less)) == multiset(s) && Sorted(Sort(s, less), less)
    ensures TotalOn(Sort(s, less), less)
  {
    SortSorts(s, less);
    SortKeepsElements(s, less);
    var t := Sort(s, less);
    forall x | x in t ensures x in s {
      assert x in multiset(t);
    }
    TotalOnFewer(s, t, less);
  }

  /** The order of the input does not show in the result. */
  lemma SortIgnoresOrder<T>(a: seq<T>, b: seq<T>, less: Order<T>)
    requires multiset(a) == multiset(b) && StrictTotalOn(a, less)
    ensures Sort(a, less) == Sort(b, less)
  {
    SameElements(a, b);
    TotalOnFewer(a, b, less);
    SortIsSorted(a, less);
    SortIsSorted(b, less);
    SortedIsUnique(Sort(a, less), Sort(b, less), less);
  }

  // ---- the order of strings ----

  predicate Before(a: string, b: string) {
    b != [] && (a == [] || a[0] < b[0] || (a[0] == b[0] && Before(a[1..], b[1..])))
  }

  lemma {:induction false} BeforeIsStrict(a: string)
    ensures !Before(a, a)
  {
    if a != [] {
      BeforeIsStrict(a[1..]);
    }
  }

  lemma {:induction false} BeforeIsTransitive(a: string, b: string, c: string)
    requires Before(a, b) && Before(b, c)
    ensures Before(a, c)
  {
    if a != [] && a[0] == b[0] && b[0] == c[0] {
      BeforeIsTransitive(a[1..], b[1..], c[1..]);
    }
  }

  lemma {:induction false} BeforeIsTotal(a: string, b: string)
    ensures a == b || Before(a, b) || Before(b, a)
  {
    if a != [] && b != [] && a[0] == b[0] {
      BeforeIsTotal(a[1..], b[1..]);
      assert a == [a[0]] + a[1..] && b == [b[0]] + b[1..];
    }
  }

  lemma BeforeOrders(names: seq<string>)
    ensures StrictTotalOn(names, Before)
  {
    forall x | x in names ensures !Before(x, x) {
      BeforeIsStrict(x);
    }
    forall x, y, z | x in names && y in names && z in names && Before(x, y) && Before(y, z) ensures Before(x, z) {
      BeforeIsTransitive(x, y, z);
    }
    forall x, y | x in names && y in names && x != y ensures Before(x, y) || Before(y, x) {
      BeforeIsTotal(x, y);
    }
  }

  lemma {:induction false} CountDistinct(names: seq<string>, x: string)
    requires forall i, j | 0 <= i < j < |names| :: names[i] != names[j]
    ensures multiset(names)[x] == if x in names then 1 else 0
  {
    if names != [] {
      var front := names[..|names| - 1];
      CountDistinct(front, x);
      assert names == front + [names[|names| - 1]];
    }
  }

  /** Any two listings of one set of names hold the same names once each. */
  lemma DistinctListings(a: seq<string>, b: seq<string>)
    requires forall i, j | 0 <= i < j < |a| :: a[i] != a[j]
    requires forall i, j | 0 <= i < j < |b| :: b[i] != b[j]
    requires forall x :: x in a <==> x in b
    ensures multiset(a) == multiset(b)
  {
    forall x: string ensures multiset(a)[x] == multiset(b)[x] {
      CountDistinct(a, x);
      CountDistinct(b, x);
    }
  }
}
