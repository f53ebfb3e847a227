/** `save` and `_read_aggregates` of the PostgreSQL store as operations on flat tables. */
module Postgres {
  import opened Ordering
  import opened Models
  import T = Tables
  import opened Tables
  import opened Schema

  // ---------------------------------------------------------------- rows of the changed aggregates

  function Owned<V(==)>(owner: Id, group: nat, values: seq<V>): set<Row<V>> {
    set i: nat | i < |values| :: Row(owner, group, i, values[i])
  }

  lemma OneGroup<T, V(!new)>(id: Id, t: T, lists: (T, nat) -> seq<V>)
    requires forall g: nat :: g > 0 ==> lists(t, g) == []
    ensures HasRowsOf(Owned(id, 0, lists(t, 0)), map[id := t], lists)
  {
    forall row ensures row in Owned(id, 0, lists(t, 0)) <==> IsRow(map[id := t], lists, row) {
      if IsRow(map[id := t], lists, row) {
        assert row == Row(id, 0, row.position, lists(t, 0)[row.position]);
      }
    }
  }

  /** Rows of different aggregates together. */
  lemma RowsTogether<T(!new), V(!new)>(
    a: set<Row<V>>, b: set<Row<V>>, m: map<Id, T>, n: map<Id, T>, lists: (T, nat) -> seq<V>)
    requires HasRowsOf(a, m, lists) && HasRowsOf(b, n, lists) && m.Keys !! n.Keys
    ensures HasRowsOf(a + b, m + n, lists)
  {
    forall row ensures row in a + b <==> IsRow(m + n, lists, row) {
      assert row in a <==> IsRow(m, lists, row);
      assert row in b <==> IsRow(n, lists, row);
    }
  }

  function DeleteOwned<V(==)>(rows: set<Row<V>>, ids: set<Id>): set<Row<V>> {
    set row | row in rows && row.owner !in ids
  }

  lemma RowsDeleted<T(!new), V(!new)>(rows: set<Row<V>>, ids: set<Id>, m: map<Id, T>, lists: (T, nat) -> seq<V>)
    requires HasRowsOf(rows, m, lists)
    ensures HasRowsOf(DeleteOwned(rows, ids), m - ids, lists)
  {
    forall row ensures row in DeleteOwned(rows, ids) <==> IsRow(m - ids, lists, row) {
      assert row in rows <==> IsRow(m, lists, row);
    }
  }

  /** The loops of `_CharacterMapper.to_rows` that grow the nested rows group by group. */
  method GroupRows<V(!new, ==)>(id: Id, groups: seq<seq<V>>) returns (rows: set<Row<V>>)
    ensures forall row :: row in rows <==>
        (row.owner == id && row.group < |groups| && row.position < |groups[row.group]|
         && row.value == groups[row.group][row.position])
  {
    rows := {};
    for g := 0 to |groups|
      invariant forall row :: row in rows <==>
          (row.owner == id && row.group < g && row.position < |groups[row.group]|
           && row.value == groups[row.group][row.position])
    {
      rows := rows + Owned(id, g, groups[g]);
    }
  }

  const NO_CHARACTER_ROWS := CharacterTables(map[], {}, {}, {}, {}, {})
  const NO_PLACE_ROWS := PlaceTables(map[], {}, {}, {})
  const NO_EPISODE_ROWS := EpisodeTables(map[], {}, {}, {}, {})

  method CharacterToRows(c: Character) returns (rows: CharacterTables)
    ensures HoldsCharacters(rows, map[c.id := c])
  {
    var one := map[c.id := c];
    var versions := seq(|c.versions|, (i: nat) requires i < |c.versions| => c.versions[i].continuities);
    var relationships := seq(|c.relationships|,
      (i: nat) requires i < |c.relationships| => c.relationships[i].continuities);
    var versionContinuities := GroupRows(c.id, versions);
    var relationshipContinuities := GroupRows(c.id, relationships);
    rows := CharacterTables(
      map[c.id := CharacterRootOf(c)], Owned(c.id, 0, NameCells(c.name, c.aliases)), Owned(c.id, 0, VersionCells(c)),
      versionContinuities, Owned(c.id, 0, RelationshipCells(c)), relationshipContinuities);
    OneGroup(c.id, c, CharacterNames);
    OneGroup(c.id, c, CharacterVersions);
    OneGroup(c.id, c, CharacterRelationships);
    assert HasRowsOf(versionContinuities, one, CharacterVersionContinuities);
    assert HasRowsOf(relationshipContinuities, one, CharacterRelationshipContinuities);
  }

  method PlaceToRows(p: Place) returns (rows: PlaceTables)
    ensures HoldsPlaces(rows, map[p.id := p])
  {
    rows := PlaceTables(
      map[p.id := PlaceRootOf(p)], Owned(p.id, 0, NameCells(p.name, p.aliases)),
      Owned(p.id, 0, p.continuities), Owned(p.id, 0, p.members));
    OneGroup(p.id, p, PlaceNames);
    OneGroup(p.id, p, T.PlaceContinuities);
    OneGroup(p.id, p, PlaceMembers);
  }

  method EpisodeToRows(e: Episode) returns (rows: EpisodeTables)
    ensures HoldsEpisodes(rows, map[e.id := e])
  {
    rows := EpisodeTables(
      map[e.id := EpisodeRootOf(e)], Owned(e.id, 0, e.characters), Owned(e.id, 0, e.locations),
      Owned(e.id, 0, e.artifacts), Owned(e.id, 0, e.interactions));
    OneGroup(e.id, e, EpisodeCharacters);
    OneGroup(e.id, e, EpisodeLocations);
    OneGroup(e.id, e, EpisodeArtifacts);
    OneGroup(e.id, e, EpisodeInteractions);
  }

  lemma NotIndexedYet<T>(items: seq<T>, id: T -> Id, n: nat)
    requires Distinct(items, id) && n < |items|
    ensures id(items[n]) !in ById(items[..n], id)
  {
    var index := ById(items[..n], id);
    ByIdMembers(items[..n], id);
    assert forall x :: x in items[..n] ==> id(x) != id(items[n]);
    assert forall key :: key in index ==> id(index[key]) == key;
  }

  lemma IndexGrows<T>(items: seq<T>, id: T -> Id, n: nat)
    requires Distinct(items, id) && n < |items|
    ensures id(items[n]) !in ById(items[..n], id)
    ensures ById(items[..n + 1], id) == ById(items[..n], id) + map[id(items[n]) := items[n]]
  {
    assert items[..n + 1][..n] == items[..n];
    NotIndexedYet(items, id, n);
  }

  /** Appends the rows of every changed character to those of their tables. */
  method CharacterRows(items: seq<Character>) returns (rows: CharacterTables)
    requires Distinct(items, CharacterId)
    ensures HoldsCharacters(rows, ById(items, CharacterId))
  {
    rows := NO_CHARACTER_ROWS;
    for n := 0 to |items|
      invariant HoldsCharacters(rows, ById(items[..n], CharacterId))
    {
      ghost var before := ById(items[..n], CharacterId);
      var own := CharacterToRows(items[n]);
      IndexGrows(items, CharacterId, n);
      ghost var one := map[items[n].id := items[n]];
      RowsTogether(rows.names, own.names, before, one, CharacterNames);
      RowsTogether(rows.versions, own.versions, before, one, CharacterVersions);
      RowsTogether(rows.versionContinuities, own.versionContinuities, before, one, CharacterVersionContinuities);
      RowsTogether(rows.relationships, own.relationships, before, one, CharacterRelationships);
      RowsTogether(rows.relationshipContinuities, own.relationshipContinuities, before, one,
        CharacterRelationshipContinuities);
      rows := CharacterTables(
        rows.roots + own.roots, rows.names + own.names, rows.versions + own.versions,
        rows.versionContinuities + own.versionContinuities, rows.relationships + own.relationships,
        rows.relationshipContinuities + own.relationshipContinuities);
    }
    assert items[..|items|] == items;
  }

  method PlaceRows(items: seq<Place>) returns (rows: PlaceTables)
    requires Distinct(items, PlaceId)
    ensures HoldsPlaces(rows, ById(items, PlaceId))
  {
    rows := NO_PLACE_ROWS;
    for n := 0 to |items|
      invariant HoldsPlaces(rows, ById(items[..n], PlaceId))
    {
      ghost var before := ById(items[..n], PlaceId);
      var own := PlaceToRows(items[n]);
      IndexGrows(items, PlaceId, n);
      ghost var one := map[items[n].id := items[n]];
      RowsTogether(rows.names, own.names, before, one, PlaceNames);
      RowsTogether(rows.continuities, own.continuities, before, one, T.PlaceContinuities);
      RowsTogether(rows.members, own.members, before, one, PlaceMembers);
      rows := PlaceTables(
        rows.roots + own.roots, rows.names + own.names, rows.continuities + own.continuities,
        rows.members + own.members);
    }
    assert items[..|items|] == items;
  }

  method EpisodeRows(items: seq<Episode>) returns (rows: EpisodeTables)
    requires Distinct(items, EpisodeId)
    ensures HoldsEpisodes(rows, ById(items, EpisodeId))
  {
    rows := NO_EPISODE_ROWS;
    for n := 0 to |items|
      invariant HoldsEpisodes(rows, ById(items[..n], EpisodeId))
    {
      ghost var before := ById(items[..n], EpisodeId);
      var own := EpisodeToRows(items[n]);
      IndexGrows(items, EpisodeId, n);
      ghost var one := map[items[n].id := items[n]];
      RowsTogether(rows.characters, own.characters, before, one, EpisodeCharacters);
      RowsTogether(rows.locations, own.locations, before, one, EpisodeLocations);
      RowsTogether(rows.artifacts, own.artifacts, before, one, EpisodeArtifacts);
      RowsTogether(rows.interactions, own.interactions, before, one, EpisodeInteractions);
      rows := EpisodeTables(
        rows.roots + own.roots, rows.characters + own.characters, rows.locations + own.locations,
        rows.artifacts + own.artifacts, rows.interactions + own.interactions);
    }
    assert items[..|items|] == items;
  }

  // ---------------------------------------------------------------- statements of one transaction

  /** Deleting the children of changed owners, then inserting those of the new values, replaces the rows. */
  lemma RowsReplaced<T(!new), V(!new)>(
    kept: set<Row<V>>, added: set<Row<V>>, m: map<Id, T>, changed: map<Id, T>, lists: (T, nat) -> seq<V>)
    requires HasRowsOf(kept, m - changed.Keys, lists) && HasRowsOf(added, changed, lists)
    ensures HasRowsOf(kept + added, m + changed, lists)
  {
    RowsTogether(kept, added, m - changed.Keys, changed, lists);
    assert (m - changed.Keys) + changed == m + changed;
  }

  /** More root rows never break a key of the child rows; new works and episodes must refer to roots. */
  lemma RootsGrow(before: Tables, after: Tables)
    requires SchemaHolds(before) && KeysOf(after).Includes(KeysOf(before))
    requires after.characters == before.characters.(roots := after.characters.roots)
    requires after.locations == before.locations.(roots := after.locations.roots)
    requires after.artifacts == before.artifacts.(roots := after.artifacts.roots)
    requires after.episodes == before.episodes.(roots := after.episodes.roots)
    requires WorkSchema(after.works, KeysOf(after))
    requires forall id :: id in after.episodes.roots ==> after.episodes.roots[id].work in KeysOf(after).works
    ensures SchemaHolds(after)
  {
  }

  function PlaceTablesOf(t: Tables, kind: EntityKind): PlaceTables {
    if kind.LocationKind? then t.locations else t.artifacts
  }

  function WithPlaces(t: Tables, kind: EntityKind, places: PlaceTables): Tables {
    if kind.LocationKind? then t.(locations := places) else t.(artifacts := places)
  }

  ghost predicate OneCharacterTable(a: CharacterTables, b: CharacterTables) {
    || b == a.(roots := b.roots) || b == a.(names := b.names) || b == a.(versions := b.versions)
    || b == a.(versionContinuities := b.versionContinuities) || b == a.(relationships := b.relationships)
    || b == a.(relationshipContinuities := b.relationshipContinuities)
  }

  ghost predicate OnePlaceTable(a: PlaceTables, b: PlaceTables) {
    || b == a.(roots := b.roots) || b == a.(names := b.names) || b == a.(continuities := b.continuities)
    || b == a.(members := b.members)
  }

  ghost predicate OneEpisodeTable(a: EpisodeTables, b: EpisodeTables) {
    || b == a.(roots := b.roots) || b == a.(characters := b.characters) || b == a.(locations := b.locations)
    || b == a.(artifacts := b.artifacts) || b == a.(interactions := b.interactions)
  }

  /** A statement writes one table and leaves all others alone. */
  ghost predicate OneTable(a: Tables, b: Tables) {
    || b == a.(continuities := b.continuities) || b == a.(works := b.works)
    || (b == a.(characters := b.characters) && OneCharacterTable(a.characters, b.characters))
    || (b == a.(locations := b.locations) && OnePlaceTable(a.locations, b.locations))
    || (b == a.(artifacts := b.artifacts) && OnePlaceTable(a.artifacts, b.artifacts))
    || (b == a.(episodes := b.episodes) && OneEpisodeTable(a.episodes, b.episodes))
  }

  /** What a transaction went through: one table after another, every key and foreign key holding all the way. */
  ghost predicate Course(trace: seq<Tables>) {
    trace != [] && AllLawful(trace) && TableByTable(trace)
  }

  ghost predicate AllLawful(trace: seq<Tables>) {
    forall t :: t in trace ==> Lawful(t)
  }

  ghost predicate TableByTable(trace: seq<Tables>) {
    forall i, j :: 0 <= i && j == i + 1 && j < |trace| ==> OneTable(trace[i], trace[j])
  }

  lemma OneTableMore(trace: seq<Tables>, after: Tables)
    requires trace != [] && TableByTable(trace) && OneTable(trace[|trace| - 1], after)
    ensures TableByTable(trace + [after])
  {
    var longer, n := trace + [after], |trace|;
    forall i, j | 0 <= i && j == i + 1 && j <= n ensures OneTable(longer[i], longer[j]) {
      if j < n {
        assert OneTable(trace[i], trace[j]);
      }
    }
  }

  lemma CourseGoesOn(trace: seq<Tables>, after: Tables)
    requires Course(trace) && Lawful(after) && OneTable(trace[|trace| - 1], after)
    ensures Course(trace + [after])
  {
    OneTableMore(trace, after);
    forall t | t in trace + [after] ensures Lawful(t) {
      assert t == after || t in trace;
    }
  }

  datatype ConnectionDuty = LawfulNow | LawfulSoFar | LawfulBefore

  class Connection {
    var db: Tables
    /** The tables before the transaction: what a rollback leads back to. */
    var committed: Tables
    /** The tables at the start of the transaction and after each of its statements. */
    ghost var trace: seq<Tables>
    /** The traces of the transactions that are over, committed or rolled back. */
    ghost var ended: seq<seq<Tables>>

    ghost predicate Keeps(duty: ConnectionDuty)
      reads this
    {
      match duty
      case LawfulNow => Lawful(db)
      case LawfulSoFar => Course(trace) && trace[0] == committed && trace[|trace| - 1] == db
      case LawfulBefore => forall t :: t in ended ==> Course(t)
    }

    ghost predicate Sound()
      reads this
    {
      forall duty :: Keeps(duty)
    }

    /** No statement of a transaction was executed yet. */
    ghost predicate Fresh()
      reads this
    {
      |trace| == 1 && db == committed
    }

    /** Only statements were executed. */
    twostate predicate Ran()
      reads this
    {
      old(trace) <= trace && unchanged(`committed, `ended)
    }

    /** One more transaction is over, and the tables are those it started from. */
    twostate predicate RolledBack()
      reads this
    {
      && db == old(db) && Fresh() && |ended| == |old(ended)| + 1 && old(ended) <= ended
      && old(trace) <= ended[|ended| - 1]
    }

    constructor (db: Tables)
      requires Lawful(db)
      ensures this.db == db && Sound() && Fresh() && ended == []
    {
      this.db, committed := db, db;
      trace, ended := [db], [];
    }

    method Execute(after: Tables)
      requires Sound() && Lawful(after) && OneTable(db, after)
      modifies this
      ensures Sound() && Ran() && db == after
    {
      assert Keeps(LawfulSoFar) && Keeps(LawfulBefore);
      CourseGoesOn(trace, after);
      db := after;
      trace := trace + [after];
    }

    method Commit()
      requires Sound()
      modifies this`committed, this`trace, this`ended
      ensures Sound() && Fresh() && db == old(db) && ended == old(ended) + [old(trace)]
    {
      assert Keeps(LawfulNow) && Keeps(LawfulSoFar) && Keeps(LawfulBefore);
      ended := ended + [trace];
      committed, trace := db, [db];
    }

    /** Back to the tables the transaction started from. */
    method Rollback()
      requires Sound()
      modifies this`db, this`trace, this`ended
      ensures Sound() && Fresh() && db == old(committed) && ended == old(ended) + [old(trace)]
    {
      assert Keeps(LawfulSoFar) && Keeps(LawfulBefore);
      ended := ended + [trace];
      db := committed;
      trace := [db];
    }

    /** A statement on one child table of the characters. */
    method ExecuteOnCharacters(t: CharacterTables, ghost l: CharacterLayers, ghost m: map<Id, Character>)
      requires Sound() && t.roots == db.characters.roots && OneCharacterTable(db.characters, t)
      requires HoldsLayers(t, l) && Nested(l, m) && CharactersSound(m, KeysOf(db)) && m.Keys <= t.roots.Keys
      modifies this
      ensures Sound() && Ran() && db == old(db).(characters := t) && KeysOf(db) == KeysOf(old(db))
    {
      assert Keeps(LawfulNow);
      CharacterLayersFit(t, l, m, KeysOf(db));
      Execute(db.(characters := t));
    }

    method ExecuteOnPlaces(kind: EntityKind, t: PlaceTables, ghost l: PlaceLayers, ghost m: map<Id, Place>)
      requires Sound() && t.roots == PlaceTablesOf(db, kind).roots && OnePlaceTable(PlaceTablesOf(db, kind), t)
      requires HoldsPlaceLayers(t, l) && PlacesNested(l, m) && PlacesSound(m, KeysOf(db)) && m.Keys <= t.roots.Keys
      modifies this
      ensures Sound() && Ran() && db == WithPlaces(old(db), kind, t) && KeysOf(db) == KeysOf(old(db))
    {
      assert Keeps(LawfulNow);
      PlaceLayersFit(t, l, m, KeysOf(db));
      Execute(WithPlaces(db, kind, t));
    }

    method ExecuteOnEpisodes(t: EpisodeTables, ghost l: EpisodeLayers, ghost m: map<Id, Episode>)
      requires Sound() && t.roots == db.episodes.roots && OneEpisodeTable(db.episodes, t)
      requires HoldsEpisodeLayers(t, l) && EpisodesNested(l, m) && EpisodesSound(m, KeysOf(db))
        && m.Keys <= t.roots.Keys
      modifies this
      ensures Sound() && Ran() && db == old(db).(episodes := t) && KeysOf(db) == KeysOf(old(db))
    {
      assert Keeps(LawfulNow);
      EpisodeLayersFit(t, l, m, KeysOf(db));
      Execute(db.(episodes := t));
    }

    method DeletePlaceChildren(kind: EntityKind, ids: set<Id>, ghost m: map<Id, Place>)
      requires Sound() && HoldsPlaceLayers(PlaceTablesOf(db, kind), PlaceLayers(m, m, m))
      requires PlacesSound(m, KeysOf(db)) && m.Keys <= PlaceTablesOf(db, kind).roots.Keys
      modifies this
      ensures Sound() && Ran() && db == WithPlaces(old(db), kind, PlaceTablesOf(db, kind))
      ensures PlaceTablesOf(db, kind).roots == PlaceTablesOf(old(db), kind).roots
      ensures var u := m - ids; HoldsPlaceLayers(PlaceTablesOf(db, kind), PlaceLayers(u, u, u))
    {
      DeleteMembers(kind, ids, m);
      ghost var u := m - ids;
      var t := PlaceTablesOf(db, kind);
      RowsDeleted(t.continuities, ids, m, T.PlaceContinuities);
      t := t.(continuities := DeleteOwned(t.continuities, ids));
      ExecuteOnPlaces(kind, t, PlaceLayers(m, u, u), m);
      RowsDeleted(t.names, ids, m, PlaceNames);
      t := t.(names := DeleteOwned(t.names, ids));
      ExecuteOnPlaces(kind, t, PlaceLayers(u, u, u), m);
    }

    method DeleteMembers(kind: EntityKind, ids: set<Id>, ghost m: map<Id, Place>)
      requires Sound() && HoldsPlaceLayers(PlaceTablesOf(db, kind), PlaceLayers(m, m, m))
      requires PlacesSound(m, KeysOf(db)) && m.Keys <= PlaceTablesOf(db, kind).roots.Keys
      modifies this
      ensures Sound() && Ran() && db == WithPlaces(old(db), kind, PlaceTablesOf(db, kind))
        && KeysOf(db) == KeysOf(old(db))
      ensures PlaceTablesOf(db, kind).roots == PlaceTablesOf(old(db), kind).roots
      ensures HoldsPlaceLayers(PlaceTablesOf(db, kind), PlaceLayers(m, m, m - ids))
    {
      var t := PlaceTablesOf(db, kind);
      RowsDeleted(t.members, ids, m, PlaceMembers);
      t := t.(members := DeleteOwned(t.members, ids));
      ExecuteOnPlaces(kind, t, PlaceLayers(m, m, m - ids), m);
    }

    method InsertPlaceChildren(
      kind: EntityKind, rows: PlaceTables, ghost m: map<Id, Place>, ghost changed: map<Id, Place>)
      requires var u := m - changed.Keys; HoldsPlaceLayers(PlaceTablesOf(db, kind), PlaceLayers(u, u, u))
      requires Sound() && HoldsPlaces(rows, changed)
      requires PlacesSound(m + changed, KeysOf(db)) && (m + changed).Keys <= PlaceTablesOf(db, kind).roots.Keys
      modifies this
      ensures Sound() && Ran() && db == WithPlaces(old(db), kind, PlaceTablesOf(db, kind))
      ensures PlaceTablesOf(db, kind).roots == PlaceTablesOf(old(db), kind).roots
      ensures var n := m + changed; HoldsPlaceLayers(PlaceTablesOf(db, kind), PlaceLayers(n, n, n))
    {
      ghost var u, n := m - changed.Keys, m + changed;
      var t := PlaceTablesOf(db, kind);
      RowsReplaced(t.names, rows.names, m, changed, PlaceNames);
      t := t.(names := t.names + rows.names);
      ExecuteOnPlaces(kind, t, PlaceLayers(n, u, u), n);
      RowsReplaced(t.continuities, rows.continuities, m, changed, T.PlaceContinuities);
      t := t.(continuities := t.continuities + rows.continuities);
      ExecuteOnPlaces(kind, t, PlaceLayers(n, n, u), n);
      RowsReplaced(t.members, rows.members, m, changed, PlaceMembers);
      t := t.(members := t.members + rows.members);
      ExecuteOnPlaces(kind, t, PlaceLayers(n, n, n), n);
    }

    method DeleteEpisodeChildren(ids: set<Id>, ghost m: map<Id, Episode>)
      requires Sound() && HoldsEpisodeLayers(db.episodes, EpisodeLayers(m, m, m, m))
      requires EpisodesSound(m, KeysOf(db)) && m.Keys <= db.episodes.roots.Keys
      modifies this
      ensures Sound() && Ran() && db == old(db).(episodes := db.episodes) && db.episodes.roots == old(db.episodes.roots)
      ensures var u := m - ids; HoldsEpisodeLayers(db.episodes, EpisodeLayers(u, u, u, u))
    {
      ghost var u := m - ids;
      var t := db.episodes;
      RowsDeleted(t.interactions, ids, m, EpisodeInteractions);
      t := t.(interactions := DeleteOwned(t.interactions, ids));
      ExecuteOnEpisodes(t, EpisodeLayers(m, m, m, u), m);
      RowsDeleted(t.artifacts, ids, m, EpisodeArtifacts);
      t := t.(artifacts := DeleteOwned(t.artifacts, ids));
      ExecuteOnEpisodes(t, EpisodeLayers(m, m, u, u), m);
      RowsDeleted(t.locations, ids, m, EpisodeLocations);
      t := t.(locations := DeleteOwned(t.locations, ids));
      ExecuteOnEpisodes(t, EpisodeLayers(m, u, u, u), m);
      RowsDeleted(t.characters, ids, m, EpisodeCharacters);
      t := t.(characters := DeleteOwned(t.characters, ids));
      ExecuteOnEpisodes(t, EpisodeLayers(u, u, u, u), m);
    }

    method DeleteCharacterChildren(ids: set<Id>, ghost m: map<Id, Character>)
      requires Sound() && HoldsLayers(db.characters, CharacterLayers(m, m, m, m, m))
      requires CharactersSound(m, KeysOf(db)) && m.Keys <= db.characters.roots.Keys
      modifies this
      ensures Sound() && Ran() && db == old(db).(characters := db.characters)
        && db.characters.roots == old(db.characters.roots)
      ensures var u := m - ids; HoldsLayers(db.characters, CharacterLayers(u, u, u, u, u))
    {
      DeleteRelationships(ids, m);
      ghost var u := m - ids;
      var t := db.characters;
      RowsDeleted(t.versionContinuities, ids, m, CharacterVersionContinuities);
      t := t.(versionContinuities := DeleteOwned(t.versionContinuities, ids));
      ExecuteOnCharacters(t, CharacterLayers(m, m, u, u, u), m);
      RowsDeleted(t.versions, ids, m, CharacterVersions);
      t := t.(versions := DeleteOwned(t.versions, ids));
      ExecuteOnCharacters(t, CharacterLayers(m, u, u, u, u), m);
      RowsDeleted(t.names, ids, m, CharacterNames);
      t := t.(names := DeleteOwned(t.names, ids));
      ExecuteOnCharacters(t, CharacterLayers(u, u, u, u, u), m);
    }

    method DeleteRelationships(ids: set<Id>, ghost m: map<Id, Character>)
      requires Sound() && HoldsLayers(db.characters, CharacterLayers(m, m, m, m, m))
      requires CharactersSound(m, KeysOf(db)) && m.Keys <= db.characters.roots.Keys
      modifies this
      ensures Sound() && Ran() && db == old(db).(characters := db.characters)
        && db.characters.roots == old(db.characters.roots)
      ensures var u := m - ids; HoldsLayers(db.characters, CharacterLayers(m, m, m, u, u))
    {
      ghost var u := m - ids;
      var t := db.characters;
      RowsDeleted(t.relationshipContinuities, ids, m, CharacterRelationshipContinuities);
      t := t.(relationshipContinuities := DeleteOwned(t.relationshipContinuities, ids));
      ExecuteOnCharacters(t, CharacterLayers(m, m, m, m, u), m);
      RowsDeleted(t.relationships, ids, m, CharacterRelationships);
      t := t.(relationships := DeleteOwned(t.relationships, ids));
      ExecuteOnCharacters(t, CharacterLayers(m, m, m, u, u), m);
    }

    method InsertEpisodeChildren(rows: EpisodeTables, ghost m: map<Id, Episode>, ghost changed: map<Id, Episode>)
      requires var u := m - changed.Keys; HoldsEpisodeLayers(db.episodes, EpisodeLayers(u, u, u, u))
      requires Sound() && HoldsEpisodes(rows, changed)
      requires EpisodesSound(m + changed, KeysOf(db)) && (m + changed).Keys <= db.episodes.roots.Keys
      modifies this
      ensures Sound() && Ran() && db == old(db).(episodes := db.episodes) && db.episodes.roots == old(db.episodes.roots)
      ensures var n := m + changed; HoldsEpisodeLayers(db.episodes, EpisodeLayers(n, n, n, n))
    {
      ghost var u, n := m - changed.Keys, m + changed;
      var t := db.episodes;
      RowsReplaced(t.characters, rows.characters, m, changed, EpisodeCharacters);
      t := t.(characters := t.characters + rows.characters);
      ExecuteOnEpisodes(t, EpisodeLayers(n, u, u, u), n);
      RowsReplaced(t.locations, rows.locations, m, changed, EpisodeLocations);
      t := t.(locations := t.locations + rows.locations);
      ExecuteOnEpisodes(t, EpisodeLayers(n, n, u, u), n);
      RowsReplaced(t.artifacts, rows.artifacts, m, changed, EpisodeArtifacts);
      t := t.(artifacts := t.artifacts + rows.artifacts);
      ExecuteOnEpisodes(t, EpisodeLayers(n, n, n, u), n);
      RowsReplaced(t.interactions, rows.interactions, m, changed, EpisodeInteractions);
      t := t.(interactions := t.interactions + rows.interactions);
      ExecuteOnEpisodes(t, EpisodeLayers(n, n, n, n), n);
    }

    method InsertCharacterChildren(
      rows: CharacterTables, ghost m: map<Id, Character>, ghost changed: map<Id, Character>)
      requires var u := m - changed.Keys; HoldsLayers(db.characters, CharacterLayers(u, u, u, u, u))
      requires Sound() && HoldsCharacters(rows, changed)
      requires CharactersSound(m + changed, KeysOf(db)) && (m + changed).Keys <= db.characters.roots.Keys
      modifies this
      ensures Sound() && Ran() && db == old(db).(characters := db.characters)
        && db.characters.roots == old(db.characters.roots)
      ensures var n := m + changed; HoldsLayers(db.characters, CharacterLayers(n, n, n, n, n))
    {
      ghost var u, n := m - changed.Keys, m + changed;
      var t := db.characters;
      RowsReplaced(t.names, rows.names, m, changed, CharacterNames);
      t := t.(names := t.names + rows.names);
      ExecuteOnCharacters(t, CharacterLayers(n, u, u, u, u), n);
      RowsReplaced(t.versions, rows.versions, m, changed, CharacterVersions);
      t := t.(versions := t.versions + rows.versions);
      ExecuteOnCharacters(t, CharacterLayers(n, n, u, u, u), n);
      RowsReplaced(t.versionContinuities, rows.versionContinuities, m, changed, CharacterVersionContinuities);
      t := t.(versionContinuities := t.versionContinuities + rows.versionContinuities);
      ExecuteOnCharacters(t, CharacterLayers(n, n, n, u, u), n);
      InsertRelationships(rows, m, changed);
    }

    method InsertRelationships(rows: CharacterTables, ghost m: map<Id, Character>, ghost changed: map<Id, Character>)
      requires var u, n := m - changed.Keys, m + changed; HoldsLayers(db.characters, CharacterLayers(n, n, n, u, u))
      requires Sound() && HoldsCharacters(rows, changed)
      requires CharactersSound(m + changed, KeysOf(db)) && (m + changed).Keys <= db.characters.roots.Keys
      modifies this
      ensures Sound() && Ran() && db == old(db).(characters := db.characters)
        && db.characters.roots == old(db.characters.roots)
      ensures var n := m + changed; HoldsLayers(db.characters, CharacterLayers(n, n, n, n, n))
    {
      ghost var u, n := m - changed.Keys, m + changed;
      var t := db.characters;
      RowsReplaced(t.relationships, rows.relationships, m, changed, CharacterRelationships);
      t := t.(relationships := t.relationships + rows.relationships);
      ExecuteOnCharacters(t, CharacterLayers(n, n, n, n, u), n);
      RowsReplaced(t.relationshipContinuities, rows.relationshipContinuities, m, changed,
        CharacterRelationshipContinuities);
      t := t.(relationshipContinuities := t.relationshipContinuities + rows.relationshipContinuities);
      ExecuteOnCharacters(t, CharacterLayers(n, n, n, n, n), n);
    }
  }
}
