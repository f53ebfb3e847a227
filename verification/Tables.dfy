/** The `rag_*` tables, the rows of each aggregate and the constraints on them. */
module Tables {
  import opened Ordering
  import opened Wrappers
  import opened Models
  import opened IntegrityRules

  /**
   A child row: `position` orders the rows of one owner, or of one group of an owner
   when rows are nested one level deeper (the version or relationship position).
   */
  datatype Row<V> = Row(owner: Id, group: nat, position: nat, value: V)

  datatype NameCell = NameCell(value: Text, normalized: Text)

  datatype VersionCell = VersionCell(
    ageGroup: Text, traits: seq<Text>, speech: SpeechStyle, catchphrases: seq<Text>, sources: seq<SourceRef>)

  datatype RelationshipCell = RelationshipCell(
    to: Id, kind: RelationshipType, description: Option<Text>, sources: seq<SourceRef>)

  datatype WorkRoot = WorkRoot(title: Text, medium: Medium, continuity: Id)

  datatype EpisodeRoot = EpisodeRoot(work: Id, season: Option<nat>, number: nat, title: Text, normalizedTitle: Text)

  datatype CharacterRoot = CharacterRoot(species: Text, sources: seq<SourceRef>)

  datatype PlaceRoot = PlaceRoot(details: PlaceDetails, sources: seq<SourceRef>)

  /** A root table has the primary key `id`; a child table is a set of rows in no particular order. */
  datatype CharacterTables = CharacterTables(
    roots: map<Id, CharacterRoot>, names: set<Row<NameCell>>, versions: set<Row<VersionCell>>,
    versionContinuities: set<Row<Id>>, relationships: set<Row<RelationshipCell>>,
    relationshipContinuities: set<Row<Id>>)

  datatype PlaceTables = PlaceTables(
    roots: map<Id, PlaceRoot>, names: set<Row<NameCell>>, continuities: set<Row<Id>>, members: set<Row<Id>>)

  datatype EpisodeTables = EpisodeTables(
    roots: map<Id, EpisodeRoot>, characters: set<Row<Id>>, locations: set<Row<Id>>, artifacts: set<Row<Id>>,
    interactions: set<Row<Interaction>>)

  datatype Tables = Tables(
    continuities: map<Id, Text>, works: map<Id, WorkRoot>, characters: CharacterTables,
    locations: PlaceTables, artifacts: PlaceTables, episodes: EpisodeTables)

  // ---------------------------------------------------------------- to_rows

  function NameCells(name: Text, aliases: seq<Text>): seq<NameCell> {
    var all := NamesOf(name, aliases);
    seq(|all|, (i: nat) requires i < |all| => NameCell(all[i], NormalizeName(all[i])))
  }

  function VersionCells(c: Character): seq<VersionCell> {
    seq(|c.versions|, (i: nat) requires i < |c.versions| =>
      var v := c.versions[i]; VersionCell(v.ageGroup, v.traits, v.speech, v.catchphrases, v.sources))
  }

  function RelationshipCells(c: Character): seq<RelationshipCell> {
    seq(|c.relationships|, (i: nat) requires i < |c.relationships| =>
      var r := c.relationships[i]; RelationshipCell(r.to, r.kind, r.description, r.sources))
  }

  /** The rows of flat child tables are all in group 0. */
  function Flat<V>(values: seq<V>, group: nat): seq<V> {
    if group == 0 then values else []
  }

  const CharacterNames := (c: Character, g: nat) => Flat(NameCells(c.name, c.aliases), g)
  const CharacterVersions := (c: Character, g: nat) => Flat(VersionCells(c), g)
  const CharacterVersionContinuities := (c: Character, g: nat) =>
    if g < |c.versions| then c.versions[g].continuities else []
  const CharacterRelationships := (c: Character, g: nat) => Flat(RelationshipCells(c), g)
  const CharacterRelationshipContinuities :=
    (c: Character, g: nat) => if g < |c.relationships| then c.relationships[g].continuities else []
  const PlaceNames := (p: Place, g: nat) => Flat(NameCells(p.name, p.aliases), g)
  const PlaceContinuities := (p: Place, g: nat) => Flat(p.continuities, g)
  const PlaceMembers := (p: Place, g: nat) => Flat(p.members, g)
  const EpisodeCharacters := (e: Episode, g: nat) => Flat(e.characters, g)
  const EpisodeLocations := (e: Episode, g: nat) => Flat(e.locations, g)
  const EpisodeArtifacts := (e: Episode, g: nat) => Flat(e.artifacts, g)
  const EpisodeInteractions := (e: Episode, g: nat) => Flat(e.interactions, g)

  function WorkRootOf(w: Work): WorkRoot {
    WorkRoot(w.title, w.medium, w.continuity)
  }

  function EpisodeRootOf(e: Episode): EpisodeRoot {
    EpisodeRoot(e.work, e.season, e.number, e.title, NormalizeName(e.title))
  }

  function CharacterRootOf(c: Character): CharacterRoot {
    CharacterRoot(c.species, c.sources)
  }

  function PlaceRootOf(p: Place): PlaceRoot {
    PlaceRoot(p.details, p.sources)
  }

  // ---------------------------------------------------------------- from_rows

  /** Rows with no name at position 0 do not form an entity. */
  function CharacterFrom(
    id: Id, root: CharacterRoot, names: seq<NameCell>, versions: seq<VersionCell>, versionContinuities: nat -> seq<Id>,
    relationships: seq<RelationshipCell>, relationshipContinuities: nat -> seq<Id>): Option<Character>
  {
    if names == [] then None
    else Some(Character(
      id, names[0].value, NameValues(names[1..]), root.species,
      seq(|versions|, (i: nat) requires i < |versions| =>
        var v := versions[i]; Version(versionContinuities(i), v.ageGroup, v.traits, v.speech, v.catchphrases,
          v.sources)),
      seq(|relationships|, (i: nat) requires i < |relationships| =>
        var r := relationships[i]; Relationship(r.to, r.kind, relationshipContinuities(i), r.description, r.sources)),
      root.sources))
  }

  function NameValues(names: seq<NameCell>): seq<Text> {
    seq(|names|, (i: nat) requires i < |names| => names[i].value)
  }

  function PlaceFrom(
    id: Id, root: PlaceRoot, names: seq<NameCell>, continuities: seq<Id>, members: seq<Id>): Option<Place>
  {
    if names == [] then None
    else Some(Place(id, names[0].value, NameValues(names[1..]), root.details, continuities, members, root.sources))
  }

  function EpisodeFrom(
    id: Id, root: EpisodeRoot, characters: seq<Id>, locations: seq<Id>, artifacts: seq<Id>,
    interactions: seq<Interaction>): Episode
  {
    Episode(id, root.work, root.season, root.number, root.title, characters, locations, artifacts, interactions)
  }

  /** `from_rows` undoes `to_rows` for a character, nested groups included. */
  lemma CharacterRoundTrip(c: Character)
    ensures CharacterFrom(
      c.id, CharacterRootOf(c), NameCells(c.name, c.aliases), VersionCells(c),
      (g: nat) => CharacterVersionContinuities(c, g),
      RelationshipCells(c), (g: nat) => CharacterRelationshipContinuities(c, g)) == Some(c)
  {
    var names := NameCells(c.name, c.aliases);
    assert NameValues(names[1..]) == c.aliases;
    var r := CharacterFrom(
      c.id, CharacterRootOf(c), names, VersionCells(c), (g: nat) => CharacterVersionContinuities(c, g),
      RelationshipCells(c), (g: nat) => CharacterRelationshipContinuities(c, g)).value;
    assert r.versions == c.versions;
    assert r.relationships == c.relationships;
  }

  lemma PlaceRoundTrip(p: Place)
    ensures PlaceFrom(p.id, PlaceRootOf(p), NameCells(p.name, p.aliases), p.continuities, p.members) == Some(p)
  {
    assert NameValues(NameCells(p.name, p.aliases)[1..]) == p.aliases;
  }

  // ---------------------------------------------------------------- rows of many aggregates

  /** `row` is one of the rows of the aggregates `m`. */
  predicate IsRow<T, V(==)>(m: map<Id, T>, lists: (T, nat) -> seq<V>, row: Row<V>) {
    && row.owner in m && row.position < |lists(m[row.owner], row.group)|
    && row.value == lists(m[row.owner], row.group)[row.position]
  }

  /** The child table holds exactly the rows of the aggregates. */
  ghost predicate HasRowsOf<T, V(!new)>(rows: set<Row<V>>, m: map<Id, T>, lists: (T, nat) -> seq<V>) {
    forall row :: row in rows <==> IsRow(m, lists, row)
  }

  ghost predicate HoldsRoots<T, R>(roots: map<Id, R>, m: map<Id, T>, root: T -> R) {
    roots.Keys == m.Keys && forall id :: id in m ==> roots[id] == root(m[id])
  }

  const ContinuityRoot := (c: Continuity) => c.name
  const WorkRootFn := (w: Work) => WorkRootOf(w)
  const EpisodeRootFn := (e: Episode) => EpisodeRootOf(e)
  const CharacterRootFn := (c: Character) => CharacterRootOf(c)
  const PlaceRootFn := (p: Place) => PlaceRootOf(p)

  ghost predicate HoldsCharacters(t: CharacterTables, m: map<Id, Character>) {
    && HoldsRoots(t.roots, m, CharacterRootFn)
    && HasRowsOf(t.names, m, CharacterNames)
    && HasRowsOf(t.versions, m, CharacterVersions)
    && HasRowsOf(t.versionContinuities, m, CharacterVersionContinuities)
    && HasRowsOf(t.relationships, m, CharacterRelationships)
    && HasRowsOf(t.relationshipContinuities, m, CharacterRelationshipContinuities)
  }

  ghost predicate HoldsPlaces(t: PlaceTables, m: map<Id, Place>) {
    && HoldsRoots(t.roots, m, PlaceRootFn)
    && HasRowsOf(t.names, m, PlaceNames)
    && HasRowsOf(t.continuities, m, PlaceContinuities)
    && HasRowsOf(t.members, m, PlaceMembers)
  }

  ghost predicate HoldsEpisodes(t: EpisodeTables, m: map<Id, Episode>) {
    && HoldsRoots(t.roots, m, EpisodeRootFn)
    && HasRowsOf(t.characters, m, EpisodeCharacters)
    && HasRowsOf(t.locations, m, EpisodeLocations)
    && HasRowsOf(t.artifacts, m, EpisodeArtifacts)
    && HasRowsOf(t.interactions, m, EpisodeInteractions)
  }

  /** The tables hold exactly the rows of the knowledge. */
  ghost predicate Represents(t: Tables, x: Knowledge) {
    && HoldsRoots(t.continuities, x.continuities, ContinuityRoot)
    && HoldsRoots(t.works, x.works, WorkRootFn)
    && HoldsCharacters(t.characters, x.characters)
    && HoldsPlaces(t.locations, x.locations)
    && HoldsPlaces(t.artifacts, x.artifacts)
    && HoldsEpisodes(t.episodes, x.episodes)
  }
}
