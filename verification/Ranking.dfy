/** Sorting by a strict order and taking the best few, independent of what is ranked. */
module Ranking {

  /** A strict order that decides between any two different members of `all`. */
  ghost predicate StrictOrder<T(!new)>(before: (T, T) -> bool, all: set<T>) {
    && (forall x :: x in all ==> !before(x, x))
    && (forall x, y :: x in all && y in all && x != y ==> before(x, y) || before(y, x))
    && (forall x, y, z :: x in all && y in all && z in all && before(x, y) && before(y, z) ==> before(x, z))
  }

  ghost predicate Ordered<T>(before: (T, T) -> bool, items: seq<T>) {
    forall i, j :: 0 <= i < j < |items| ==> before(items[i], items[j])
  }

  /** `items` are the best `limit` members of `all`, best first. */
  ghost predicate IsTop<T(!new)>(before: (T, T) -> bool, items: seq<T>, all: set<T>, limit: nat) {
    && Ordered(before, items)
    && (forall i :: 0 <= i < |items| ==> items[i] in all)
    && |items| <= limit
    && (|items| < limit ==> forall x :: x in all ==> x in items)
    && (forall x, i :: x in all && x !in items && 0 <= i < |items| ==> before(items[i], x))
  }

  function Elements<T>(items: seq<T>): set<T> {
    set x | x in items
  }

  function Insert<T>(before: (T, T) -> bool, x: T, items: seq<T>): seq<T> {
    if items == [] || before(x, items[0]) then [x] + items
    else [items[0]] + Insert(before, x, items[1..])
  }

  /** `list.sort` with a key that never ties. */
  function Sort<T>(before: (T, T) -> bool, items: seq<T>): seq<T> {
    if items == [] then [] else Insert(before, items[0], Sort(before, items[1..]))
  }

  lemma {:induction false} InsertElements<T>(before: (T, T) -> bool, x: T, items: seq<T>)
    ensures |Insert(before, x, items)| == |items| + 1
    ensures forall y :: y in Insert(before, x, items) <==> y == x || y in items
  {
    if items != [] && !before(x, items[0]) {
      InsertElements(before, x, items[1..]);
      assert items == [items[0]] + items[1..];
    }
  }

  lemma {:induction false} InsertOrdered<T(!new)>(before: (T, T) -> bool, x: T, items: seq<T>, all: set<T>)
    requires StrictOrder(before, all) && Ordered(before, items) && x in all && x !in items
    requires forall y :: y in items ==> y in all
    ensures Ordered(before, Insert(before, x, items))
  {
    if items != [] {
      if before(x, items[0]) {
        forall j | 0 <= j < |items| ensures before(x, items[j]) {
          assert items[0] in all && items[j] in all;
        }
      } else {
        assert items[0] in items;
        InsertOrdered(before, x, items[1..], all);
        InsertElements(before, x, items[1..]);
        var rest := Insert(before, x, items[1..]);
        forall j | 0 <= j < |rest| ensures before(items[0], rest[j]) {
          assert rest[j] in rest;
        }
      }
    }
  }

  ghost predicate Distinct<T>(items: seq<T>) {
    forall i, j :: 0 <= i < j < |items| ==> items[i] != items[j]
  }

  lemma {:induction false} SortElements<T>(before: (T, T) -> bool, items: seq<T>)
    ensures |Sort(before, items)| == |items|
    ensures forall y :: y in Sort(before, items) <==> y in items
  {
    if items != [] {
      SortElements(before, items[1..]);
      InsertElements(before, items[0], Sort(before, items[1..]));
      assert items == [items[0]] + items[1..];
    }
  }

  lemma {:induction false} SortOrdered<T(!new)>(before: (T, T) -> bool, items: seq<T>, all: set<T>)
    requires StrictOrder(before, all) && Distinct(items) && forall y :: y in items ==> y in all
    ensures Ordered(before, Sort(before, items))
  {
    if items != [] {
      assert items[0] in items;
      forall y | y in items[1..] ensures y in all {
        assert y in items;
      }
      SortOrdered(before, items[1..], all);
      SortElements(before, items[1..]);
      assert items[0] !in items[1..];
      InsertOrdered(before, items[0], Sort(before, items[1..]), all);
    }
  }

  /** Sorting distinct items and cutting at `limit` gives the best ones. */
  lemma SortedTop<T(!new)>(before: (T, T) -> bool, items: seq<T>, limit: nat)
    requires StrictOrder(before, Elements(items)) && Distinct(items)
    ensures
      var sorted := Sort(before, items);
      IsTop(before, if |sorted| <= limit then sorted else sorted[..limit], Elements(items), limit)
  {
    var sorted := Sort(before, items);
    SortElements(before, items);
    SortOrdered(before, items, Elements(items));
    var top := if |sorted| <= limit then sorted else sorted[..limit];
    forall i | 0 <= i < |top| ensures top[i] in Elements(items) {
      assert top[i] == sorted[i] && sorted[i] in sorted;
    }
    forall x, i | x in Elements(items) && x !in top && 0 <= i < |top| ensures before(top[i], x) {
      assert x in sorted;
      var k :| 0 <= k < |sorted| && sorted[k] == x;
      assert forall j :: 0 <= j < |top| ==> top[j] == sorted[j];
    }
  }

  /** The best items are determined by the order and the set alone. */
  lemma {:induction false} TopUnique<T(!new)>(before: (T, T) -> bool, a: seq<T>, b: seq<T>, all: set<T>, limit: nat)
    requires StrictOrder(before, all) && IsTop(before, a, all, limit) && IsTop(before, b, all, limit)
    ensures a == b
    decreases |a|
  {
    assert (a != [] ==> a[0] in all) && (b != [] ==> b[0] in all);
    if a == [] || b == [] {
      assert limit == 0 || all == {};
    } else {
      SameFirst(before, a, b, all, limit);
      TopTail(before, a, all, limit);
      TopTail(before, b, all, limit);
      assert forall x, y :: x in all - {a[0]} && y in all - {a[0]} ==> x in all && y in all;
      TopUnique(before, a[1..], b[1..], all - {a[0]}, limit - 1);
      assert a == [a[0]] + a[1..] && b == [b[0]] + b[1..];
    }
  }

  lemma SameFirst<T(!new)>(before: (T, T) -> bool, a: seq<T>, b: seq<T>, all: set<T>, limit: nat)
    requires StrictOrder(before, all) && IsTop(before, a, all, limit) && IsTop(before, b, all, limit)
    requires a != [] && b != []
    ensures a[0] == b[0]
  {
    FirstIsBest(before, a, all, limit, b[0]);
    FirstIsBest(before, b, all, limit, a[0]);
  }

  lemma FirstIsBest<T(!new)>(before: (T, T) -> bool, a: seq<T>, all: set<T>, limit: nat, x: T)
    requires IsTop(before, a, all, limit) && a != [] && x in all
    ensures x == a[0] || before(a[0], x)
  {
    if x in a {
      var k :| 0 <= k < |a| && a[k] == x;
    }
  }

  lemma TopTail<T(!new)>(before: (T, T) -> bool, a: seq<T>, all: set<T>, limit: nat)
    requires StrictOrder(before, all) && IsTop(before, a, all, limit) && a != []
    ensures limit > 0 && IsTop(before, a[1..], all - {a[0]}, limit - 1)
  {
    var rest := a[1..];
    forall i | 0 <= i < |rest| ensures rest[i] in all - {a[0]} {
      assert before(a[0], a[i + 1]) && a[i + 1] in all && a[0] in all;
    }
    forall x | x in all - {a[0]} ensures x in a ==> x in rest {
      if x in a {
        var k :| 0 <= k < |a| && a[k] == x;
        assert rest[k - 1] == x;
      }
    }
    forall x, i | x in all - {a[0]} && x !in rest && 0 <= i < |rest| ensures before(rest[i], x) {
      assert x !in a;
      assert rest[i] == a[i + 1];
    }
  }
}
