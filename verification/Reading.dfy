/** `_rows` and the grouping of child rows in `_read_aggregates`. */
module Reading {
  import opened Ordering
  import opened Wrappers
  import opened Tables

  /** `ORDER BY` the owner, the group and the position. */
  predicate RowBefore<V>(a: Row<V>, b: Row<V>) {
    || Before(a.owner, b.owner)
    || (a.owner == b.owner && (a.group < b.group || (a.group == b.group && a.position < b.position)))
  }

  lemma RowBeforeTransitive<V>(a: Row<V>, b: Row<V>, c: Row<V>)
    requires RowBefore(a, b) && RowBefore(b, c)
    ensures RowBefore(a, c)
  {
    if Before(a.owner, b.owner) && Before(b.owner, c.owner) {
      BeforeTransitive(a.owner, b.owner, c.owner);
    }
  }

  /** No two rows have the same key, as a primary key guarantees. */
  ghost predicate Separable<V(!new)>(rows: set<Row<V>>) {
    forall a, b :: a in rows && b in rows && a != b ==> RowBefore(a, b) || RowBefore(b, a)
  }

  lemma HeldRowsKeyed<T, V(!new)>(rows: set<Row<V>>, m: map<Id, T>, lists: (T, nat) -> seq<V>)
    requires forall row :: row in rows ==> IsRow(m, lists, row)
    ensures Separable(rows)
  {
    forall a, b | a in rows && b in rows && a != b ensures RowBefore(a, b) || RowBefore(b, a) {
      assert IsRow(m, lists, a) && IsRow(m, lists, b);
      BeforeTotal(a.owner, b.owner);
    }
  }

  ghost predicate IsFirst<V(!new)>(rows: set<Row<V>>, first: Row<V>) {
    first in rows && forall other :: other in rows && other != first ==> RowBefore(first, other)
  }

  lemma {:induction false} FirstRow<V(!new)>(rows: set<Row<V>>) returns (first: Row<V>)
    requires rows != {} && Separable(rows)
    ensures IsFirst(rows, first)
  {
    var row :| row in rows;
    var rest := rows - {row};
    assert forall other :: other in rows ==> other == row || other in rest;
    if rest == {} {
      return row;
    }
    first := FirstRow(rest);
    assert first in rows && first != row;
    if RowBefore(row, first) {
      forall other | other in rest ensures RowBefore(row, other) {
        if other != first {
          RowBeforeTransitive(row, first, other);
        }
      }
      first := row;
    }
  }

  ghost predicate InRowOrder<V>(rows: seq<Row<V>>) {
    forall i, j :: 0 <= i < j < |rows| ==> RowBefore(rows[i], rows[j])
  }

  /** `SELECT ... WHERE owner IN ids ORDER BY key, position`; without ids, every row. */
  method Select<V(!new, ==)>(rows: set<Row<V>>, ids: Option<set<Id>>) returns (ordered: seq<Row<V>>)
    requires Separable(rows)
    ensures InRowOrder(ordered)
    ensures forall row :: row in ordered <==> row in rows && (ids.None? || row.owner in ids.value)
  {
    ordered := [];
    var rest := set row | row in rows && (ids.None? || row.owner in ids.value);
    ghost var selected := rest;
    while rest != {}
      invariant rest <= selected && InRowOrder(ordered)
      invariant forall row :: row in ordered <==> row in selected && row !in rest
      invariant forall row, other :: row in ordered && other in rest ==> RowBefore(row, other)
    {
      assert Separable(rest);
      ghost var least := FirstRow(rest);
      var first :| first in rest && forall other :: other in rest && other != first ==> RowBefore(first, other);
      ordered := ordered + [first];
      rest := rest - {first};
    }
  }

  function Get<V>(groups: map<(Id, nat), seq<V>>, id: Id, group: nat): seq<V> {
    if (id, group) in groups then groups[(id, group)] else []
  }

  /** What a read of the aggregates `m` restricted to `ids` finds for one group. */
  function ListOf<T, V>(m: map<Id, T>, lists: (T, nat) -> seq<V>, ids: Option<set<Id>>, id: Id, group: nat): seq<V> {
    if id in m && (ids.None? || id in ids.value) then lists(m[id], group) else []
  }

  /** The rows read so far are the first ones of every group. */
  ghost predicate GroupedSoFar<T, V(!new)>(
    groups: map<(Id, nat), seq<V>>, read: seq<Row<V>>, m: map<Id, T>, lists: (T, nat) -> seq<V>, ids: Option<set<Id>>)
  {
    && (forall id, group :: Get(groups, id, group) <= ListOf(m, lists, ids, id, group))
    && (forall row: Row<V> :: IsRow(m, lists, row) && (ids.None? || row.owner in ids.value) ==>
          (row in read <==> row.position < |Get(groups, row.owner, row.group)|))
  }

  lemma NextOfGroup<T, V(!new)>(
    groups: map<(Id, nat), seq<V>>, ordered: seq<Row<V>>, n: nat, m: map<Id, T>, lists: (T, nat) -> seq<V>,
    ids: Option<set<Id>>)
    requires n < |ordered| && InRowOrder(ordered)
    requires forall row: Row<V> :: row in ordered <==> IsRow(m, lists, row) && (ids.None? || row.owner in ids.value)
    requires GroupedSoFar(groups, ordered[..n], m, lists, ids)
    ensures ordered[n].position == |Get(groups, ordered[n].owner, ordered[n].group)|
  {
    var row := ordered[n];
    assert row in ordered;
    BeforeIrreflexive(row.owner);
    assert row !in ordered[..n] by {
      assert forall i :: 0 <= i < n ==> RowBefore(ordered[i], row);
    }
    if row.position > 0 {
      var list := lists(m[row.owner], row.group);
      var previous := Row(row.owner, row.group, row.position - 1, list[row.position - 1]);
      assert IsRow(m, lists, previous);
      assert previous in ordered;
      var i :| 0 <= i < |ordered| && ordered[i] == previous;
      assert i > n ==> RowBefore(row, previous);
      assert ordered[..n][i] == previous;
    }
  }

  lemma GroupGrows<T, V(!new)>(
    groups: map<(Id, nat), seq<V>>, ordered: seq<Row<V>>, n: nat, m: map<Id, T>, lists: (T, nat) -> seq<V>,
    ids: Option<set<Id>>)
    requires n < |ordered|
    requires forall row: Row<V> :: row in ordered <==> IsRow(m, lists, row) && (ids.None? || row.owner in ids.value)
    requires GroupedSoFar(groups, ordered[..n], m, lists, ids)
    requires ordered[n].position == |Get(groups, ordered[n].owner, ordered[n].group)|
    ensures var row := ordered[n];
      GroupedSoFar(groups[(row.owner, row.group) := Get(groups, row.owner, row.group) + [row.value]], ordered[..n + 1],
        m, lists, ids)
  {
    var row := ordered[n];
    assert row in ordered;
    assert ordered[..n + 1] == ordered[..n] + [row];
    var grown := groups[(row.owner, row.group) := Get(groups, row.owner, row.group) + [row.value]];
    forall id, group ensures Get(grown, id, group) <= ListOf(m, lists, ids, id, group) {
      assert Get(groups, id, group) <= ListOf(m, lists, ids, id, group);
    }
    forall other: Row<V> | IsRow(m, lists, other) && (ids.None? || other.owner in ids.value)
      ensures other in ordered[..n + 1] <==> other.position < |Get(grown, other.owner, other.group)|
    {
      assert other in ordered[..n] <==> other.position < |Get(groups, other.owner, other.group)|;
    }
  }

  lemma AllGrouped<T, V(!new)>(
    groups: map<(Id, nat), seq<V>>, ordered: seq<Row<V>>, m: map<Id, T>, lists: (T, nat) -> seq<V>,
    ids: Option<set<Id>>)
    requires forall row: Row<V> :: row in ordered <==> IsRow(m, lists, row) && (ids.None? || row.owner in ids.value)
    requires GroupedSoFar(groups, ordered, m, lists, ids)
    ensures forall id, group :: Get(groups, id, group) == ListOf(m, lists, ids, id, group)
  {
    forall id, group ensures Get(groups, id, group) == ListOf(m, lists, ids, id, group) {
      var list := ListOf(m, lists, ids, id, group);
      var found := |Get(groups, id, group)|;
      assert Get(groups, id, group) <= list;
      if found < |list| {
        var next := Row(id, group, found, list[found]);
        assert IsRow(m, lists, next);
      }
    }
  }

  /** Appending the rows one by one, in order, rebuilds every list of every aggregate read. */
  method ReadGroups<T, V(!new, ==)>(
    rows: set<Row<V>>, ids: Option<set<Id>>, ghost m: map<Id, T>, ghost lists: (T, nat) -> seq<V>)
    returns (groups: map<(Id, nat), seq<V>>)
    requires HasRowsOf(rows, m, lists)
    ensures forall id, group :: Get(groups, id, group) == ListOf(m, lists, ids, id, group)
  {
    HeldRowsKeyed(rows, m, lists);
    var ordered := Select(rows, ids);
    groups := map[];
    for n := 0 to |ordered|
      invariant GroupedSoFar(groups, ordered[..n], m, lists, ids)
    {
      var row := ordered[n];
      NextOfGroup(groups, ordered, n, m, lists, ids);
      GroupGrows(groups, ordered, n, m, lists, ids);
      groups := groups[(row.owner, row.group) := Get(groups, row.owner, row.group) + [row.value]];
    }
    assert ordered[..|ordered|] == ordered;
    AllGrouped(groups, ordered, m, lists, ids);
  }
}
