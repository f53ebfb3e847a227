/** Slugs compare by code points, as Python strings do, and so are entities sorted by id. */
module Ordering {
  type Id = string

  /** Strict code-point order of slugs. */
  predicate Before(a: Id, b: Id) {
    |b| > 0 && (|a| == 0 || a[0] < b[0] || (a[0] == b[0] && Before(a[1..], b[1..])))
  }

  /** `a` and `b` agree up to `k`, and there `a` ends or has the lesser character. */
  predicate PartedAt(a: Id, b: Id, k: nat) {
    && k <= |a| && k < |b| && (k == |a| || a[k] < b[k])
    && forall i :: 0 <= i < k ==> a[i] == b[i]
  }

  /** The slugs are compared at the first place where they differ. */
  lemma {:induction false} BeforeMeans(a: Id, b: Id)
    ensures Before(a, b) <==> exists k: nat :: PartedAt(a, b, k)
  {
    if |a| > 0 && |b| > 0 && a[0] == b[0] {
      BeforeMeans(a[1..], b[1..]);
      if k: nat :| PartedAt(a[1..], b[1..], k) {
        assert forall i :: 0 < i <= k ==> a[i] == a[1..][i - 1] && b[i] == b[1..][i - 1];
        assert PartedAt(a, b, k + 1);
      }
      if k: nat :| PartedAt(a, b, k) {
        assert PartedAt(a[1..], b[1..], k - 1);
      }
    } else if Before(a, b) {
      assert PartedAt(a, b, 0);
    }
  }

  lemma {:induction false} BeforeIrreflexive(a: Id)
    ensures !Before(a, a)
  {
    if |a| > 0 {
      BeforeIrreflexive(a[1..]);
    }
  }

  lemma {:induction false} BeforeTotal(a: Id, b: Id)
    ensures a == b || Before(a, b) || Before(b, a)
  {
    if |a| > 0 && |b| > 0 && a[0] == b[0] {
      BeforeTotal(a[1..], b[1..]);
      assert a == [a[0]] + a[1..] && b == [b[0]] + b[1..];
    }
  }

  lemma {:induction false} BeforeTransitive(a: Id, b: Id, c: Id)
    requires Before(a, b) && Before(b, c)
    ensures Before(a, c)
  {
    if |a| > 0 && a[0] == b[0] == c[0] {
      BeforeTransitive(a[1..], b[1..], c[1..]);
    }
  }

  lemma BeforeAsymmetric(a: Id, b: Id)
    requires Before(a, b)
    ensures !Before(b, a)
  {
    if Before(b, a) {
      BeforeTransitive(a, b, a);
      BeforeIrreflexive(a);
    }
  }

  /** No two items share an id. */
  ghost predicate Distinct<T>(items: seq<T>, id: T -> Id) {
    forall i, j :: 0 <= i < j < |items| ==> id(items[i]) != id(items[j])
  }

  ghost predicate Ascending<T>(items: seq<T>, id: T -> Id) {
    forall i, j :: 0 <= i < j < |items| ==> Before(id(items[i]), id(items[j]))
  }

  function Insert<T>(x: T, items: seq<T>, id: T -> Id): (r: seq<T>)
    ensures multiset(r) == multiset(items) + multiset{x}
  {
    if items == [] then [x]
    else if Before(id(items[0]), id(x)) then
      assert items == [items[0]] + items[1..];
      [items[0]] + Insert(x, items[1..], id)
    else [x] + items
  }

  /** The items in the order of their ids; equal ids keep their order. */
  function Sorted<T>(items: seq<T>, id: T -> Id): (r: seq<T>)
    ensures multiset(r) == multiset(items)
  {
    if items == [] then []
    else
      assert items == [items[0]] + items[1..];
      Insert(items[0], Sorted(items[1..], id), id)
  }

  lemma SameMembers<T>(a: seq<T>, b: seq<T>)
    requires multiset(a) == multiset(b)
    ensures |a| == |b|
    ensures forall x :: x in a <==> x in b
  {
    assert |multiset(a)| == |a| && |multiset(b)| == |b|;
    forall x ensures x in a <==> x in b {
      assert x in a <==> x in multiset(a);
      assert x in b <==> x in multiset(b);
    }
  }

  /** What is not before `head` comes before everything after it. */
  lemma InsertInFront<T>(x: T, items: seq<T>, id: T -> Id)
    requires items != [] && Ascending(items, id) && Before(id(x), id(items[0]))
    ensures Ascending([x] + items, id)
  {
    forall j | 0 < j < |items| ensures Before(id(x), id(items[j])) {
      BeforeTransitive(id(x), id(items[0]), id(items[j]));
    }
  }

  lemma {:induction false} InsertAscending<T>(x: T, items: seq<T>, id: T -> Id)
    requires Ascending(items, id)
    requires forall y :: y in items ==> id(y) != id(x)
    ensures Ascending(Insert(x, items, id), id)
  {
    if items != [] {
      var head, rest := items[0], items[1..];
      assert forall y :: y in rest ==> y in items;
      if Before(id(head), id(x)) {
        InsertAscending(x, rest, id);
        var r := Insert(x, rest, id);
        forall y | y in r ensures Before(id(head), id(y)) {
          assert y in multiset(r);
          assert y == x || y in rest;
        }
      } else {
        assert head in items;
        BeforeTotal(id(head), id(x));
        InsertInFront(x, items, id);
      }
    }
  }

  lemma RestAvoidsHead<T>(items: seq<T>, rest: seq<T>, id: T -> Id)
    requires items != [] && Distinct(items, id)
    requires multiset(rest) == multiset(items[1..])
    ensures forall y :: y in rest ==> id(y) != id(items[0])
  {
    var tail := items[1..];
    SameMembers(rest, tail);
    forall y | y in tail ensures id(y) != id(items[0]) {
      var j :| 0 <= j < |tail| && tail[j] == y;
      assert items[j + 1] == y;
    }
  }

  lemma {:induction false} SortedIsAscending<T>(items: seq<T>, id: T -> Id)
    requires Distinct(items, id)
    ensures Ascending(Sorted(items, id), id)
  {
    if items != [] {
      SortedIsAscending(items[1..], id);
      RestAvoidsHead(items, Sorted(items[1..], id), id);
      InsertAscending(items[0], Sorted(items[1..], id), id);
    }
  }

  /** Items with distinct ids come out strictly ascending, none lost and none added. */
  lemma SortedAscending<T>(items: seq<T>, id: T -> Id)
    requires Distinct(items, id)
    ensures Ascending(Sorted(items, id), id)
    ensures |Sorted(items, id)| == |items|
    ensures forall x :: x in Sorted(items, id) <==> x in items
  {
    SortedIsAscending(items, id);
    SameMembers(Sorted(items, id), items);
  }

  /** In an ascending sequence, position order and id order are the same. */
  lemma AscendingPositions<T>(items: seq<T>, id: T -> Id, i: nat, j: nat)
    requires Ascending(items, id) && i < |items| && j < |items|
    ensures Before(id(items[i]), id(items[j])) <==> i < j
    ensures id(items[i]) == id(items[j]) <==> i == j
  {
    BeforeIrreflexive(id(items[i]));
    if j < i {
      BeforeAsymmetric(id(items[j]), id(items[i]));
    }
  }

  /** Two ascending sequences with the same members are the same sequence. */
  lemma {:induction false} AscendingUnique<T>(a: seq<T>, b: seq<T>, id: T -> Id)
    requires Ascending(a, id) && Ascending(b, id)
    requires forall x :: x in a <==> x in b
    ensures a == b
  {
    assert a != [] ==> a[0] in a && a[0] in b;
    assert b != [] ==> b[0] in b && b[0] in a;
    if a != [] && b != [] {
      if a[0] != b[0] {
        var i :| 0 <= i < |b| && b[i] == a[0];
        var j :| 0 <= j < |a| && a[j] == b[0];
        BeforeAsymmetric(id(b[0]), id(a[0]));
        assert false;
      }
      forall x ensures x in a[1..] <==> x in b[1..] {
        BeforeIrreflexive(id(a[0]));
        assert x in a[1..] ==> x in a && x != a[0];
        assert x in b[1..] ==> x in b && x != b[0];
        assert x in a ==> x == a[0] || x in a[1..];
        assert x in b ==> x == b[0] || x in b[1..];
      }
      AscendingUnique(a[1..], b[1..], id);
    }
  }
}
