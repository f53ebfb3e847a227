/** Sequences put together from parts. */
module Sequences {
  /** The parts of all items, one after another. */
  function Concat<S, T>(items: seq<S>, part: S -> seq<T>): seq<T> {
    if items == [] then [] else Concat(items[..|items| - 1], part) + part(items[|items| - 1])
  }

  lemma ConcatPush<S, T>(items: seq<S>, x: S, part: S -> seq<T>)
    ensures Concat(items + [x], part) == Concat(items, part) + part(x)
  {
    assert (items + [x])[..|items|] == items;
  }

  /** The positions of the items that pass a test. */
  ghost function Where<T>(items: seq<T>, test: T -> bool): set<nat> {
    set i: nat | i < |items| && test(items[i])
  }

  lemma WherePush<T>(items: seq<T>, x: T, test: T -> bool)
    ensures |Where(items + [x], test)| == |Where(items, test)| + if test(x) then 1 else 0
  {
    assert Where(items + [x], test) == Where(items, test) + if test(x) then {|items|} else {};
  }

  lemma Associates<T>(u: seq<T>, v: seq<T>, w: seq<T>)
    ensures u + v + w == u + (v + w)
  {
  }

  lemma SliceOfSlice<T>(s: seq<T>, a: nat, b: nat, from: nat, to: nat)
    requires a <= b <= |s| && from <= to <= b - a
    ensures s[a..b][from..to] == s[a + from..a + to]
  {
    forall k | 0 <= k < to - from ensures s[a..b][from..to][k] == s[a + from..a + to][k] {
      assert s[a..b][from..to][k] == s[a..b][from + k];
    }
  }

  lemma {:induction false} ConcatOfTwo<S, T>(a: seq<S>, b: seq<S>, part: S -> seq<T>)
    ensures Concat(a + b, part) == Concat(a, part) + Concat(b, part)
  {
    if b == [] {
      assert a + b == a;
    } else {
      var n := |b| - 1;
      calc {
        Concat(a + b, part);
      ==  { assert (a + b)[..|a + b| - 1] == a + b[..n]; }
        Concat(a + b[..n], part) + part(b[n]);
      ==  { ConcatOfTwo(a, b[..n], part); }
        Concat(a, part) + Concat(b[..n], part) + part(b[n]);
      ==  { Associates(Concat(a, part), Concat(b[..n], part), part(b[n])); }
        Concat(a, part) + Concat(b, part);
      }
    }
  }

  lemma {:induction false} ConcatGrows<S, T>(items: seq<S>, i: nat, part: S -> seq<T>)
    requires i <= |items|
    ensures Concat(items[..i], part) <= Concat(items, part)
    decreases |items| - i
  {
    if i < |items| {
      assert items[..i + 1] == items[..i] + [items[i]];
      ConcatPush(items[..i], items[i], part);
      ConcatGrows(items, i + 1, part);
    } else {
      assert items[..i] == items;
    }
  }
}
