/** The keys and foreign keys of the `rag_*` tables, and why rows of a consistent set satisfy them. */
module Schema {
  import opened Ordering
  import opened Wrappers
  import opened Models
  import opened IntegrityRules
  import opened IntegrityTheorems
  import T = Tables
  import opened Tables

  /** Primary keys of the root tables: what foreign keys between aggregates point at. */
  datatype Keys = Keys(
    continuities: set<Id>, works: set<Id>, characters: set<Id>, locations: set<Id>, artifacts: set<Id>,
    episodes: set<Id>)
  {
    ghost predicate Includes(other: Keys) {
      && other.continuities <= continuities && other.works <= works && other.characters <= characters
      && other.locations <= locations && other.artifacts <= artifacts && other.episodes <= episodes
    }
  }

  function KeysOf(t: Tables): Keys {
    Keys(t.continuities.Keys, t.works.Keys, t.characters.roots.Keys, t.locations.roots.Keys, t.artifacts.roots.Keys,
      t.episodes.roots.Keys)
  }

  function KeysIn(x: Knowledge): Keys {
    Keys(x.continuities.Keys, x.works.Keys, x.characters.Keys, x.locations.Keys, x.artifacts.Keys, x.episodes.Keys)
  }

  // ---------------------------------------------------------------- the constraints

  ghost predicate PrimaryKey<V(!new)>(rows: set<Row<V>>) {
    forall a, b :: a in rows && b in rows && a != b ==> (a.owner, a.group, a.position) != (b.owner, b.group, b.position)
  }

  ghost predicate OwnersIn<V(!new)>(rows: set<Row<V>>, keys: set<Id>) {
    forall row :: row in rows ==> row.owner in keys
  }

  /** Rows of one owner never repeat a value: `UNIQUE (owner, value)`. */
  ghost predicate UniqueInOwner(rows: set<Row<Id>>) {
    forall a, b :: a in rows && b in rows && a != b ==> a.owner != b.owner || a.value != b.value
  }

  ghost predicate UniqueInGroup(rows: set<Row<Id>>) {
    forall a, b :: a in rows && b in rows && a != b ==> a.owner != b.owner || a.group != b.group || a.value != b.value
  }

  ghost predicate ValuesIn(rows: set<Row<Id>>, keys: set<Id>) {
    forall row :: row in rows ==> row.value in keys
  }

  /** A member table: ordered references of an aggregate to roots. */
  ghost predicate MemberTable(rows: set<Row<Id>>, owners: set<Id>, targets: set<Id>) {
    PrimaryKey(rows) && OwnersIn(rows, owners) && UniqueInOwner(rows) && ValuesIn(rows, targets)
  }

  /** Foreign key of nested rows: the group is the position of a row of the outer table. */
  ghost predicate GroupsIn<V(!new), W(!new)>(rows: set<Row<V>>, outer: set<Row<W>>) {
    forall row :: row in rows ==> exists o :: o in outer && o.owner == row.owner && o.position == row.group
  }

  ghost predicate CharacterSchema(t: CharacterTables, keys: Keys) {
    && t.roots.Keys <= keys.characters
    && PrimaryKey(t.names) && OwnersIn(t.names, t.roots.Keys)
    && (forall a, b :: a in t.names && b in t.names && a != b ==> a.value.normalized != b.value.normalized)
    && PrimaryKey(t.versions) && OwnersIn(t.versions, t.roots.Keys)
    && PrimaryKey(t.versionContinuities) && UniqueInOwner(t.versionContinuities)
    && GroupsIn(t.versionContinuities, t.versions) && ValuesIn(t.versionContinuities, keys.continuities)
    && PrimaryKey(t.relationships) && OwnersIn(t.relationships, t.roots.Keys)
    && (forall row :: row in t.relationships ==> row.value.to in keys.characters && row.value.to != row.owner)
    && PrimaryKey(t.relationshipContinuities) && UniqueInGroup(t.relationshipContinuities)
    && GroupsIn(t.relationshipContinuities, t.relationships)
    && (forall row :: row in t.relationshipContinuities ==>
          exists v :: v in t.versionContinuities && v.owner == row.owner && v.value == row.value)
  }

  ghost predicate PlaceSchema(t: PlaceTables, keys: Keys) {
    && PrimaryKey(t.names) && OwnersIn(t.names, t.roots.Keys)
    && MemberTable(t.continuities, t.roots.Keys, keys.continuities)
    && MemberTable(t.members, t.roots.Keys, keys.characters)
  }

  ghost predicate EpisodeSchema(t: EpisodeTables, keys: Keys) {
    && (forall id :: id in t.roots ==> t.roots[id].work in keys.works)
    && MemberTable(t.characters, t.roots.Keys, keys.characters)
    && MemberTable(t.locations, t.roots.Keys, keys.locations)
    && MemberTable(t.artifacts, t.roots.Keys, keys.artifacts)
    && PrimaryKey(t.interactions) && OwnersIn(t.interactions, t.roots.Keys)
    && (forall row :: row in t.interactions ==>
          && row.value.from != row.value.to
          && TakesPart(t, row.owner, row.value.from) && TakesPart(t, row.owner, row.value.to))
  }

  ghost predicate TakesPart(t: EpisodeTables, episode: Id, character: Id) {
    exists row :: row in t.characters && row.owner == episode && row.value == character
  }

  ghost predicate WorkSchema(works: map<Id, WorkRoot>, keys: Keys) {
    forall id :: id in works ==> works[id].continuity in keys.continuities
  }

  /** Every key and foreign key but `UNIQUE (work, season, number)`. */
  ghost predicate SchemaHolds(t: Tables) {
    && WorkSchema(t.works, KeysOf(t))
    && CharacterSchema(t.characters, KeysOf(t))
    && PlaceSchema(t.locations, KeysOf(t))
    && PlaceSchema(t.artifacts, KeysOf(t))
    && EpisodeSchema(t.episodes, KeysOf(t))
  }

  /** `UNIQUE NULLS NOT DISTINCT (work_id, season, number)` */
  ghost predicate NumbersUnique(roots: map<Id, EpisodeRoot>) {
    forall a, b :: a in roots && b in roots && a != b ==> NumberOf(roots[a]) != NumberOf(roots[b])
  }

  /** Every key and foreign key holds. */
  ghost predicate Lawful(t: Tables) {
    SchemaHolds(t) && NumbersUnique(t.episodes.roots)
  }

  function NumberOf(r: EpisodeRoot): (Id, Option<nat>, nat) {
    (r.work, r.season, r.number)
  }

  // ---------------------------------------------------------------- what validated models guarantee

  ghost predicate NoRepeats(ids: seq<Id>) {
    forall i, j :: 0 <= i < j < |ids| ==> ids[i] != ids[j]
  }

  /** The lists of ids of a validated model hold no value twice. */
  ghost predicate Validated(x: Knowledge) {
    && (forall e :: e in x.episodes ==>
          NoRepeats(x.episodes[e].characters) && NoRepeats(x.episodes[e].locations)
            && NoRepeats(x.episodes[e].artifacts))
    && (forall c :: c in x.characters ==> forall r :: r in x.characters[c].relationships ==> NoRepeats(r.continuities))
    && (forall p :: p in x.locations ==> NoRepeats(x.locations[p].continuities) && NoRepeats(x.locations[p].members))
    && (forall p :: p in x.artifacts ==> NoRepeats(x.artifacts[p].continuities) && NoRepeats(x.artifacts[p].members))
  }

  // ---------------------------------------------------------------- rows of nested layers

  /** `a` holds some of the aggregates of `b`, unchanged. */
  ghost predicate Within<T(!new)>(a: map<Id, T>, b: map<Id, T>) {
    forall id :: id in a ==> id in b && a[id] == b[id]
  }

  lemma RowsKeyed<T, V(!new)>(rows: set<Row<V>>, m: map<Id, T>, lists: (T, nat) -> seq<V>)
    requires HasRowsOf(rows, m, lists)
    ensures PrimaryKey(rows) && OwnersIn(rows, m.Keys)
  {
    forall a, b | a in rows && b in rows && a != b
      ensures (a.owner, a.group, a.position) != (b.owner, b.group, b.position)
    {
      assert IsRow(m, lists, a) && IsRow(m, lists, b);
    }
    forall row | row in rows ensures row.owner in m.Keys {
      assert IsRow(m, lists, row);
    }
  }

  lemma MembersKeyed<T>(
    rows: set<Row<Id>>, m: map<Id, T>, lists: (T, nat) -> seq<Id>, owners: set<Id>, targets: set<Id>)
    requires HasRowsOf(rows, m, lists) && m.Keys <= owners
    requires forall id, g: nat :: id in m && g > 0 ==> lists(m[id], g) == []
    requires forall id :: id in m ==> NoRepeats(lists(m[id], 0)) && forall v :: v in lists(m[id], 0) ==> v in targets
    ensures MemberTable(rows, owners, targets)
  {
    RowsKeyed(rows, m, lists);
    forall row | row in rows ensures row.value in targets && row.group == 0 {
      assert IsRow(m, lists, row);
    }
    forall a, b | a in rows && b in rows && a != b ensures a.owner != b.owner || a.value != b.value {
      assert IsRow(m, lists, a) && IsRow(m, lists, b);
    }
  }

  // ---------------------------------------------------------------- characters

  /**
   What the five child tables of characters hold, in insertion order. A table may lack
   some aggregates that an earlier one has, never the other way round.
   */
  datatype CharacterLayers = CharacterLayers(
    names: map<Id, Character>, versions: map<Id, Character>, versionContinuities: map<Id, Character>,
    relationships: map<Id, Character>, relationshipContinuities: map<Id, Character>)

  ghost predicate HoldsLayers(t: CharacterTables, l: CharacterLayers) {
    && HasRowsOf(t.names, l.names, CharacterNames)
    && HasRowsOf(t.versions, l.versions, CharacterVersions)
    && HasRowsOf(t.versionContinuities, l.versionContinuities, CharacterVersionContinuities)
    && HasRowsOf(t.relationships, l.relationships, CharacterRelationships)
    && HasRowsOf(t.relationshipContinuities, l.relationshipContinuities, CharacterRelationshipContinuities)
  }

  ghost predicate Nested(l: CharacterLayers, all: map<Id, Character>) {
    && Within(l.names, all) && Within(l.versions, l.names) && Within(l.versionContinuities, l.versions)
    && Within(l.relationships, l.versionContinuities) && Within(l.relationshipContinuities, l.relationships)
  }

  /** Characters of a consistent set, all their references being among `keys`. */
  ghost predicate CharactersSound(m: map<Id, Character>, keys: Keys) {
    && (forall a, b, i: nat, j: nat :: a in m && b in m && Apart(a, i, b, j) ==> !SharedName(m[a], i, m[b], j))
    && (forall id :: id in m ==> CharacterSound(m[id], id, keys))
  }

  ghost predicate CharacterSound(c: Character, id: Id, keys: Keys) {
    && VersionsDisjoint(c)
    && (forall v :: v in c.versions ==> forall k :: k in v.continuities ==> k in keys.continuities)
    && (forall r :: r in c.relationships ==>
          && r.to != id && r.to in keys.characters && NoRepeats(r.continuities)
          && forall k :: k in r.continuities ==> k in VersionContinuities(c))
  }

  lemma CharacterNamesUnique(t: CharacterTables, l: CharacterLayers, m: map<Id, Character>, keys: Keys)
    requires HoldsLayers(t, l) && Nested(l, m) && CharactersSound(m, keys)
    ensures forall a, b :: a in t.names && b in t.names && a != b ==> a.value.normalized != b.value.normalized
  {
    forall a, b | a in t.names && b in t.names && a != b ensures a.value.normalized != b.value.normalized {
      assert IsRow(l.names, CharacterNames, a) && IsRow(l.names, CharacterNames, b);
      assert Apart(a.owner, a.position, b.owner, b.position);
      assert !SharedName(m[a.owner], a.position, m[b.owner], b.position);
    }
  }

  lemma VersionRowsSound(t: CharacterTables, l: CharacterLayers, m: map<Id, Character>, keys: Keys)
    requires HoldsLayers(t, l) && Nested(l, m) && CharactersSound(m, keys)
    ensures UniqueInOwner(t.versionContinuities) && ValuesIn(t.versionContinuities, keys.continuities)
    ensures GroupsIn(t.versionContinuities, t.versions)
  {
    forall row | row in t.versionContinuities
      ensures row.value in keys.continuities
      ensures exists o :: o in t.versions && o.owner == row.owner && o.position == row.group
    {
      assert IsRow(l.versionContinuities, CharacterVersionContinuities, row);
      var c := m[row.owner];
      assert CharacterSound(c, row.owner, keys);
      assert c.versions[row.group] in c.versions;
      var outer := Row(row.owner, 0, row.group, VersionCells(c)[row.group]);
      assert IsRow(l.versions, CharacterVersions, outer);
    }
    forall a, b | a in t.versionContinuities && b in t.versionContinuities && a != b
      ensures a.owner != b.owner || a.value != b.value
    {
      assert IsRow(l.versionContinuities, CharacterVersionContinuities, a);
      assert IsRow(l.versionContinuities, CharacterVersionContinuities, b);
      if a.owner == b.owner {
        assert CharacterSound(m[a.owner], a.owner, keys);
        assert VersionSlot(m[a.owner], a.group, a.position) && VersionSlot(m[a.owner], b.group, b.position);
      }
    }
  }

  lemma RelationshipTargetsSound(t: CharacterTables, l: CharacterLayers, m: map<Id, Character>, keys: Keys)
    requires HoldsLayers(t, l) && Nested(l, m) && CharactersSound(m, keys)
    ensures forall row :: row in t.relationships ==> row.value.to in keys.characters && row.value.to != row.owner
  {
    forall row | row in t.relationships ensures row.value.to in keys.characters && row.value.to != row.owner {
      assert IsRow(l.relationships, CharacterRelationships, row);
      assert CharacterSound(m[row.owner], row.owner, keys);
      assert m[row.owner].relationships[row.position] in m[row.owner].relationships;
    }
  }

  lemma RelationshipOfContinuity(t: CharacterTables, l: CharacterLayers, m: map<Id, Character>, row: Row<Id>)
    requires HoldsLayers(t, l) && Nested(l, m) && row in t.relationshipContinuities
    ensures exists o :: o in t.relationships && o.owner == row.owner && o.position == row.group
  {
    assert IsRow(l.relationshipContinuities, CharacterRelationshipContinuities, row);
    assert IsRow(l.relationships, CharacterRelationships,
      Row(row.owner, 0, row.group, RelationshipCells(m[row.owner])[row.group]));
  }

  lemma VersionOfContinuity(t: CharacterTables, l: CharacterLayers, owner: Id, k: Id)
    requires HoldsLayers(t, l) && owner in l.versionContinuities
    requires k in VersionContinuities(l.versionContinuities[owner])
    ensures exists v :: v in t.versionContinuities && v.owner == owner && v.value == k
  {
    var c := l.versionContinuities[owner];
    var v :| v in c.versions && k in v.continuities;
    var g :| 0 <= g < |c.versions| && c.versions[g] == v;
    var i :| 0 <= i < |v.continuities| && v.continuities[i] == k;
    assert IsRow(l.versionContinuities, CharacterVersionContinuities, Row(owner, g, i, k));
  }

  lemma ContinuityOfOwner(c: Character, id: Id, keys: Keys, group: nat, k: Id)
    requires CharacterSound(c, id, keys) && group < |c.relationships| && k in c.relationships[group].continuities
    ensures k in VersionContinuities(c)
  {
    assert c.relationships[group] in c.relationships;
  }

  /** A continuity of a relationship is one of its owner's versions: both rows it points at exist. */
  lemma RelationshipContinuitySound(
    t: CharacterTables, l: CharacterLayers, m: map<Id, Character>, keys: Keys, row: Row<Id>)
    requires HoldsLayers(t, l) && Nested(l, m) && CharactersSound(m, keys) && row in t.relationshipContinuities
    ensures exists o :: o in t.relationships && o.owner == row.owner && o.position == row.group
    ensures exists v :: v in t.versionContinuities && v.owner == row.owner && v.value == row.value
  {
    RelationshipOfContinuity(t, l, m, row);
    assert IsRow(l.relationshipContinuities, CharacterRelationshipContinuities, row);
    ContinuityOfOwner(m[row.owner], row.owner, keys, row.group, row.value);
    VersionOfContinuity(t, l, row.owner, row.value);
  }

  lemma RelationshipRowsSound(t: CharacterTables, l: CharacterLayers, m: map<Id, Character>, keys: Keys)
    requires HoldsLayers(t, l) && Nested(l, m) && CharactersSound(m, keys)
    ensures GroupsIn(t.relationshipContinuities, t.relationships) && UniqueInGroup(t.relationshipContinuities)
    ensures forall row :: row in t.relationshipContinuities ==>
      exists v :: v in t.versionContinuities && v.owner == row.owner && v.value == row.value
  {
    forall row | row in t.relationshipContinuities
      ensures exists o :: o in t.relationships && o.owner == row.owner && o.position == row.group
      ensures exists v :: v in t.versionContinuities && v.owner == row.owner && v.value == row.value
    {
      RelationshipContinuitySound(t, l, m, keys, row);
    }
    forall a, b | a in t.relationshipContinuities && b in t.relationshipContinuities && a != b
      ensures a.owner != b.owner || a.group != b.group || a.value != b.value
    {
      RelationshipContinuitiesDiffer(t, l, m, keys, a, b);
    }
  }

  lemma RelationshipContinuitiesDiffer(
    t: CharacterTables, l: CharacterLayers, m: map<Id, Character>, keys: Keys, a: Row<Id>, b: Row<Id>)
    requires HoldsLayers(t, l) && Nested(l, m) && CharactersSound(m, keys)
    requires a in t.relationshipContinuities && b in t.relationshipContinuities && a != b
    ensures a.owner != b.owner || a.group != b.group || a.value != b.value
  {
    assert IsRow(l.relationshipContinuities, CharacterRelationshipContinuities, a);
    assert IsRow(l.relationshipContinuities, CharacterRelationshipContinuities, b);
    if a.owner == b.owner && a.group == b.group {
      assert CharacterSound(m[a.owner], a.owner, keys);
      assert m[a.owner].relationships[a.group] in m[a.owner].relationships;
    }
  }

  lemma CharacterLayersFit(t: CharacterTables, l: CharacterLayers, m: map<Id, Character>, keys: Keys)
    requires HoldsLayers(t, l) && Nested(l, m) && CharactersSound(m, keys)
    requires m.Keys <= t.roots.Keys <= keys.characters
    ensures CharacterSchema(t, keys)
  {
    RowsKeyed(t.names, l.names, CharacterNames);
    RowsKeyed(t.versions, l.versions, CharacterVersions);
    RowsKeyed(t.versionContinuities, l.versionContinuities, CharacterVersionContinuities);
    RowsKeyed(t.relationships, l.relationships, CharacterRelationships);
    RowsKeyed(t.relationshipContinuities, l.relationshipContinuities, CharacterRelationshipContinuities);
    CharacterNamesUnique(t, l, m, keys);
    VersionRowsSound(t, l, m, keys);
    RelationshipTargetsSound(t, l, m, keys);
    RelationshipRowsSound(t, l, m, keys);
  }

  // ---------------------------------------------------------------- places

  datatype PlaceLayers = PlaceLayers(names: map<Id, Place>, continuities: map<Id, Place>, members: map<Id, Place>)

  ghost predicate HoldsPlaceLayers(t: PlaceTables, l: PlaceLayers) {
    && HasRowsOf(t.names, l.names, PlaceNames)
    && HasRowsOf(t.continuities, l.continuities, T.PlaceContinuities)
    && HasRowsOf(t.members, l.members, PlaceMembers)
  }

  ghost predicate PlacesNested(l: PlaceLayers, all: map<Id, Place>) {
    Within(l.names, all) && Within(l.continuities, all) && Within(l.members, all)
  }

  ghost predicate PlacesSound(m: map<Id, Place>, keys: Keys) {
    forall id :: id in m ==>
      && NoRepeats(m[id].continuities) && NoRepeats(m[id].members)
      && (forall c :: c in m[id].continuities ==> c in keys.continuities)
      && (forall c :: c in m[id].members ==> c in keys.characters)
  }

  lemma PlaceLayersFit(t: PlaceTables, l: PlaceLayers, m: map<Id, Place>, keys: Keys)
    requires HoldsPlaceLayers(t, l) && PlacesNested(l, m) && PlacesSound(m, keys) && m.Keys <= t.roots.Keys
    ensures PlaceSchema(t, keys)
  {
    RowsKeyed(t.names, l.names, PlaceNames);
    MembersKeyed(t.continuities, l.continuities, T.PlaceContinuities, t.roots.Keys, keys.continuities);
    MembersKeyed(t.members, l.members, PlaceMembers, t.roots.Keys, keys.characters);
  }

  // ---------------------------------------------------------------- episodes

  datatype EpisodeLayers = EpisodeLayers(
    characters: map<Id, Episode>, locations: map<Id, Episode>, artifacts: map<Id, Episode>,
    interactions: map<Id, Episode>)

  ghost predicate HoldsEpisodeLayers(t: EpisodeTables, l: EpisodeLayers) {
    && HasRowsOf(t.characters, l.characters, EpisodeCharacters)
    && HasRowsOf(t.locations, l.locations, EpisodeLocations)
    && HasRowsOf(t.artifacts, l.artifacts, EpisodeArtifacts)
    && HasRowsOf(t.interactions, l.interactions, EpisodeInteractions)
  }

  ghost predicate EpisodesNested(l: EpisodeLayers, all: map<Id, Episode>) {
    && Within(l.characters, all) && Within(l.locations, all) && Within(l.artifacts, all)
    && Within(l.interactions, l.characters)
  }

  ghost predicate EpisodesSound(m: map<Id, Episode>, keys: Keys) {
    forall id :: id in m ==> EpisodeSound(m[id], keys)
  }

  ghost predicate EpisodeSound(e: Episode, keys: Keys) {
    && NoRepeats(e.characters) && NoRepeats(e.locations) && NoRepeats(e.artifacts)
    && (forall c :: c in e.characters ==> c in keys.characters)
    && (forall p :: p in e.locations ==> p in keys.locations)
    && (forall p :: p in e.artifacts ==> p in keys.artifacts)
    && (forall i :: i in e.interactions ==> i.from != i.to && i.from in e.characters && i.to in e.characters)
  }

  lemma EpisodeLayersFit(t: EpisodeTables, l: EpisodeLayers, m: map<Id, Episode>, keys: Keys)
    requires HoldsEpisodeLayers(t, l) && EpisodesNested(l, m) && EpisodesSound(m, keys) && m.Keys <= t.roots.Keys
    requires forall id :: id in t.roots ==> t.roots[id].work in keys.works
    ensures EpisodeSchema(t, keys)
  {
    assert forall id :: id in m ==> EpisodeSound(m[id], keys);
    MembersKeyed(t.characters, l.characters, EpisodeCharacters, t.roots.Keys, keys.characters);
    MembersKeyed(t.locations, l.locations, EpisodeLocations, t.roots.Keys, keys.locations);
    MembersKeyed(t.artifacts, l.artifacts, EpisodeArtifacts, t.roots.Keys, keys.artifacts);
    RowsKeyed(t.interactions, l.interactions, EpisodeInteractions);
    forall row | row in t.interactions
      ensures row.value.from != row.value.to && TakesPart(t, row.owner, row.value.from)
        && TakesPart(t, row.owner, row.value.to)
    {
      InteractionRowSound(t, l, m, keys, row);
    }
  }

  lemma InteractionRowSound(
    t: EpisodeTables, l: EpisodeLayers, m: map<Id, Episode>, keys: Keys, row: Row<Interaction>)
    requires HoldsEpisodeLayers(t, l) && EpisodesNested(l, m) && EpisodesSound(m, keys) && row in t.interactions
    ensures row.value.from != row.value.to
    ensures TakesPart(t, row.owner, row.value.from) && TakesPart(t, row.owner, row.value.to)
  {
    assert IsRow(l.interactions, EpisodeInteractions, row);
    assert EpisodeSound(m[row.owner], keys) && row.value in m[row.owner].interactions;
    ParticipantHasRow(t, l, row.owner, row.value.from);
    ParticipantHasRow(t, l, row.owner, row.value.to);
  }

  lemma ParticipantHasRow(t: EpisodeTables, l: EpisodeLayers, id: Id, character: Id)
    requires HoldsEpisodeLayers(t, l) && id in l.characters && character in l.characters[id].characters
    ensures TakesPart(t, id, character)
  {
    var i :| 0 <= i < |l.characters[id].characters| && l.characters[id].characters[i] == character;
    assert IsRow(l.characters, EpisodeCharacters, Row(id, 0, i, character));
  }

  // ---------------------------------------------------------------- a consistent set

  lemma CharacterIsSound(x: Knowledge, c: Id)
    requires x.Keyed() && Consistent(x) && Validated(x) && c in x.characters
    ensures CharacterSound(x.characters[c], c, KeysIn(x))
  {
    RulesOneByOne(x);
    assert CharacterClosed(x, x.characters[c]) && VersionsDisjoint(x.characters[c]);
    assert RelationshipsFit(x, x.characters[c]);
  }

  lemma EpisodeIsSound(x: Knowledge, e: Id)
    requires x.Keyed() && Consistent(x) && Validated(x) && e in x.episodes
    ensures EpisodeSound(x.episodes[e], KeysIn(x))
  {
    RulesOneByOne(x);
    assert EpisodeClosed(x, x.episodes[e]) && InteractionsConsistent(x.episodes[e]);
  }

  /** The aggregates of a consistent, validated set are sound for its own keys. */
  lemma ConsistentIsSound(x: Knowledge)
    requires x.Keyed() && Consistent(x) && Validated(x)
    ensures CharactersSound(x.characters, KeysIn(x))
    ensures PlacesSound(x.locations, KeysIn(x)) && PlacesSound(x.artifacts, KeysIn(x))
    ensures EpisodesSound(x.episodes, KeysIn(x))
  {
    RulesOneByOne(x);
    forall c | c in x.characters ensures CharacterSound(x.characters[c], c, KeysIn(x)) {
      CharacterIsSound(x, c);
    }
    forall e | e in x.episodes ensures EpisodeSound(x.episodes[e], KeysIn(x)) {
      EpisodeIsSound(x, e);
    }
    assert forall p :: p in x.locations ==> PlaceClosed(x, x.locations[p]);
    assert forall p :: p in x.artifacts ==> PlaceClosed(x, x.artifacts[p]);
  }

  lemma NumbersStayUnique(t: EpisodeTables, m: map<Id, Episode>)
    requires HoldsRoots(t.roots, m, EpisodeRootFn)
    requires forall a, b :: a in m && b in m && a != b ==> !SameNumber(m[a], m[b])
    ensures NumbersUnique(t.roots)
  {
    forall i, j | i in t.roots && j in t.roots && i != j ensures NumberOf(t.roots[i]) != NumberOf(t.roots[j]) {
      assert !SameNumber(m[i], m[j]);
    }
  }

  lemma CharactersFit(t: CharacterTables, m: map<Id, Character>, keys: Keys)
    requires HoldsCharacters(t, m) && CharactersSound(m, keys) && t.roots.Keys <= keys.characters
    ensures CharacterSchema(t, keys)
  {
    CharacterLayersFit(t, CharacterLayers(m, m, m, m, m), m, keys);
  }

  lemma PlacesFit(t: PlaceTables, m: map<Id, Place>, keys: Keys)
    requires HoldsPlaces(t, m) && PlacesSound(m, keys)
    ensures PlaceSchema(t, keys)
  {
    PlaceLayersFit(t, PlaceLayers(m, m, m), m, keys);
  }

  lemma EpisodesFit(t: EpisodeTables, m: map<Id, Episode>, keys: Keys)
    requires HoldsEpisodes(t, m) && EpisodesSound(m, keys)
    requires forall id :: id in t.roots ==> t.roots[id].work in keys.works
    requires forall a, b :: a in m && b in m && a != b ==> !SameNumber(m[a], m[b])
    ensures EpisodeSchema(t, keys) && NumbersUnique(t.roots)
  {
    EpisodeLayersFit(t, EpisodeLayers(m, m, m, m), m, keys);
    NumbersStayUnique(t, m);
  }

  /** The rows of a consistent set satisfy every key and foreign key, episode numbers included. */
  lemma ConsistentSatisfiesSchema(t: Tables, x: Knowledge)
    requires x.Keyed() && Consistent(x) && Validated(x) && Represents(t, x)
    ensures SchemaHolds(t) && NumbersUnique(t.episodes.roots)
  {
    var keys := KeysOf(t);
    ConsistentIsSound(x);
    assert keys == KeysIn(x);
    CharactersFit(t.characters, x.characters, keys);
    PlacesFit(t.locations, x.locations, keys);
    PlacesFit(t.artifacts, x.artifacts, keys);
    RootsReferToRoots(t, x);
    EpisodesFit(t.episodes, x.episodes, keys);
  }

  lemma RootsReferToRoots(t: Tables, x: Knowledge)
    requires x.Keyed() && Consistent(x) && Represents(t, x)
    ensures WorkSchema(t.works, KeysOf(t))
    ensures forall id :: id in t.episodes.roots ==> t.episodes.roots[id].work in KeysOf(t).works
    ensures forall a, b :: a in x.episodes && b in x.episodes && a != b ==> !SameNumber(x.episodes[a], x.episodes[b])
  {
    RulesOneByOne(x);
    forall id | id in t.episodes.roots ensures t.episodes.roots[id].work in KeysOf(t).works {
      assert EpisodeClosed(x, x.episodes[id]);
    }
  }
}
