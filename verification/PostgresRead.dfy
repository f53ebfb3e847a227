/** `_read_aggregates`: ordered rows grouped into lists and rebuilt into aggregates. */
module PostgresRead {
  import opened Ordering
  import opened Wrappers
  import opened Models
  import opened IntegrityRules
  import opened EntityLists
  import T = Tables
  import opened Tables
  import opened Reading

  const ItselfId := (id: Id) => id

  /** `WHERE id IN ids`, or every row. */
  predicate Wanted(ids: Option<set<Id>>, id: Id) {
    ids.None? || id in ids.value
  }

  /** The root rows read, ordered by `id`. */
  method RootIds(keys: set<Id>, ids: Option<set<Id>>) returns (ordered: seq<Id>)
    ensures Ascending(ordered, ItselfId)
    ensures forall id :: id in ordered <==> id in keys && Wanted(ids, id)
  {
    var found: seq<Id> := [];
    var rest := set id | id in keys && Wanted(ids, id);
    ghost var all := rest;
    while rest != {}
      invariant rest <= all && Distinct(found, ItselfId)
      invariant forall id :: id in found <==> id in all && id !in rest
    {
      var id :| id in rest;
      found := found + [id];
      rest := rest - {id};
    }
    ordered := Sorted(found, ItselfId);
    SortedAscending(found, ItselfId);
  }

  /** `items` are the wanted aggregates of `m`, in id order. */
  ghost predicate ReadOf<T(!new)>(items: seq<T>, id: T -> Id, m: map<Id, T>, ids: Option<set<Id>>) {
    && Ascending(items, id)
    && forall t :: t in items <==> id(t) in m && m[id(t)] == t && Wanted(ids, id(t))
  }

  /** Aggregates rebuilt one by one in the order of their root rows. */
  ghost predicate RebuiltSoFar<T(!new)>(items: seq<T>, id: T -> Id, m: map<Id, T>, ordered: seq<Id>, n: nat) {
    |items| == n <= |ordered| && forall i ::
      0 <= i < n ==> ordered[i] in m && items[i] == m[ordered[i]] && id(items[i]) == ordered[i]
  }

  lemma Rebuilt<T(!new)>(items: seq<T>, id: T -> Id, m: map<Id, T>, ordered: seq<Id>, ids: Option<set<Id>>)
    requires RebuiltSoFar(items, id, m, ordered, |ordered|) && Ascending(ordered, ItselfId)
    requires forall key :: key in ordered <==> key in m && Wanted(ids, key)
    ensures ReadOf(items, id, m, ids)
  {
    forall i, j | 0 <= i < j < |items| ensures Before(id(items[i]), id(items[j])) {
      assert Before(ItselfId(ordered[i]), ItselfId(ordered[j]));
    }
    forall t ensures t in items <==> id(t) in m && m[id(t)] == t && Wanted(ids, id(t)) {
      if t in items {
        var i :| 0 <= i < |items| && items[i] == t;
        assert ordered[i] in ordered;
      }
      if id(t) in m && m[id(t)] == t && Wanted(ids, id(t)) {
        assert id(t) in ordered;
        var i :| 0 <= i < |ordered| && ordered[i] == id(t);
        assert items[i] == t;
      }
    }
  }

  /** Only the lists matter, not the functions they are read through. */
  lemma CharacterFromLists(
    id: Id, root: CharacterRoot, names: seq<NameCell>, versions: seq<VersionCell>, relationships: seq<RelationshipCell>,
    f: nat -> seq<Id>, f': nat -> seq<Id>, g: nat -> seq<Id>, g': nat -> seq<Id>)
    requires forall i: nat :: f(i) == f'(i) && g(i) == g'(i)
    ensures CharacterFrom(id, root, names, versions, f, relationships, g) ==
      CharacterFrom(id, root, names, versions, f', relationships, g')
  {
    if names != [] {
      var a := CharacterFrom(id, root, names, versions, f, relationships, g).value;
      var b := CharacterFrom(id, root, names, versions, f', relationships, g').value;
      assert a.versions == b.versions && a.relationships == b.relationships;
    }
  }

  method ReadCharacters(t: CharacterTables, ids: Option<set<Id>>, ghost m: map<Id, Character>)
    returns (items: Option<seq<Character>>)
    requires HoldsCharacters(t, m) && forall id :: id in m ==> m[id].id == id
    ensures items.Some? && ReadOf(items.value, CharacterId, m, ids)
  {
    var names := ReadGroups(t.names, ids, m, CharacterNames);
    var versions := ReadGroups(t.versions, ids, m, CharacterVersions);
    var versionContinuities := ReadGroups(t.versionContinuities, ids, m, CharacterVersionContinuities);
    var relationships := ReadGroups(t.relationships, ids, m, CharacterRelationships);
    var relationshipContinuities := ReadGroups(t.relationshipContinuities, ids, m, CharacterRelationshipContinuities);
    var ordered := RootIds(t.roots.Keys, ids);
    var read := [];
    for n := 0 to |ordered|
      invariant RebuiltSoFar(read, CharacterId, m, ordered, n)
    {
      var id := ordered[n];
      assert id in ordered;
      var character := CharacterFrom(
        id, t.roots[id], Get(names, id, 0), Get(versions, id, 0), (g: nat) => Get(versionContinuities, id, g),
        Get(relationships, id, 0), (g: nat) => Get(relationshipContinuities, id, g));
      ghost var c := m[id];
      CharacterFromLists(
        id, t.roots[id], Get(names, id, 0), Get(versions, id, 0), Get(relationships, id, 0),
        (g: nat) => Get(versionContinuities, id, g), (g: nat) => CharacterVersionContinuities(c, g),
        (g: nat) => Get(relationshipContinuities, id, g), (g: nat) => CharacterRelationshipContinuities(c, g));
      CharacterRoundTrip(c);
      if character.None? {
        return None;
      }
      read := read + [character.value];
    }
    Rebuilt(read, CharacterId, m, ordered, ids);
    return Some(read);
  }

  method ReadPlaces(t: PlaceTables, ids: Option<set<Id>>, ghost m: map<Id, Place>) returns (items: Option<seq<Place>>)
    requires HoldsPlaces(t, m) && forall id :: id in m ==> m[id].id == id
    ensures items.Some? && ReadOf(items.value, PlaceId, m, ids)
  {
    var names := ReadGroups(t.names, ids, m, PlaceNames);
    var continuities := ReadGroups(t.continuities, ids, m, T.PlaceContinuities);
    var members := ReadGroups(t.members, ids, m, PlaceMembers);
    var ordered := RootIds(t.roots.Keys, ids);
    var read := [];
    for n := 0 to |ordered|
      invariant RebuiltSoFar(read, PlaceId, m, ordered, n)
    {
      var id := ordered[n];
      assert id in ordered;
      var place := PlaceFrom(id, t.roots[id], Get(names, id, 0), Get(continuities, id, 0), Get(members, id, 0));
      PlaceRoundTrip(m[id]);
      if place.None? {
        return None;
      }
      read := read + [place.value];
    }
    Rebuilt(read, PlaceId, m, ordered, ids);
    return Some(read);
  }

  method ReadEpisodes(t: EpisodeTables, ids: Option<set<Id>>, ghost m: map<Id, Episode>) returns (items: seq<Episode>)
    requires HoldsEpisodes(t, m) && forall id :: id in m ==> m[id].id == id
    ensures ReadOf(items, EpisodeId, m, ids)
  {
    var characters := ReadGroups(t.characters, ids, m, EpisodeCharacters);
    var locations := ReadGroups(t.locations, ids, m, EpisodeLocations);
    var artifacts := ReadGroups(t.artifacts, ids, m, EpisodeArtifacts);
    var interactions := ReadGroups(t.interactions, ids, m, EpisodeInteractions);
    var ordered := RootIds(t.roots.Keys, ids);
    items := [];
    for n := 0 to |ordered|
      invariant RebuiltSoFar(items, EpisodeId, m, ordered, n)
    {
      var id := ordered[n];
      assert id in ordered;
      var e := EpisodeFrom(
        id, t.roots[id], Get(characters, id, 0), Get(locations, id, 0), Get(artifacts, id, 0),
        Get(interactions, id, 0));
      assert e == m[id];
      items := items + [e];
    }
    Rebuilt(items, EpisodeId, m, ordered, ids);
  }

  method ReadWorks(roots: map<Id, WorkRoot>, ids: Option<set<Id>>, ghost m: map<Id, Work>) returns (items: seq<Work>)
    requires HoldsRoots(roots, m, WorkRootFn) && forall id :: id in m ==> m[id].id == id
    ensures ReadOf(items, WorkId, m, ids)
  {
    var ordered := RootIds(roots.Keys, ids);
    items := [];
    for n := 0 to |ordered|
      invariant RebuiltSoFar(items, WorkId, m, ordered, n)
    {
      var id := ordered[n];
      assert id in ordered;
      items := items + [Work(id, roots[id].title, roots[id].medium, roots[id].continuity)];
    }
    Rebuilt(items, WorkId, m, ordered, ids);
  }

  method ReadContinuities(roots: map<Id, Text>, ghost m: map<Id, Continuity>) returns (items: seq<Continuity>)
    requires HoldsRoots(roots, m, ContinuityRoot) && forall id :: id in m ==> m[id].id == id
    ensures ReadOf(items, ContinuityId, m, None)
  {
    var ordered := RootIds(roots.Keys, None);
    items := [];
    for n := 0 to |ordered|
      invariant RebuiltSoFar(items, ContinuityId, m, ordered, n)
    {
      var id := ordered[n];
      assert id in ordered;
      items := items + [Continuity(id, roots[id])];
    }
    Rebuilt(items, ContinuityId, m, ordered, None);
  }

  lemma ReadIndexed<T(!new)>(items: seq<T>, id: T -> Id, m: map<Id, T>)
    requires ReadOf(items, id, m, None) && forall key :: key in m ==> id(m[key]) == key
    ensures Distinct(items, id) && ById(items, id) == m
  {
    forall i, j | 0 <= i < j < |items| ensures id(items[i]) != id(items[j]) {
      BeforeIrreflexive(id(items[i]));
    }
    ByIdMembers(items, id);
    forall key | key in m ensures key in ById(items, id) && ById(items, id)[key] == m[key] {
      assert m[key] in items;
      ByIdFinds(items, id, m[key]);
    }
  }

  /** A read restricted to some ids is the full read without the others. */
  lemma RestrictedRead<T(!new)>(all: seq<T>, some: seq<T>, id: T -> Id, m: map<Id, T>, ids: set<Id>)
    requires ReadOf(all, id, m, None) && ReadOf(some, id, m, Some(ids))
    ensures forall t :: t in some <==> t in all && id(t) in ids
  {
  }

  /** `read_all` gives back exactly what the tables hold, each type in id order. */
  method ReadAll(t: Tables, ghost x: Knowledge) returns (k: Option<KnowledgeSet>)
    requires Represents(t, x) && x.Keyed()
    ensures k.Some? && UniqueIds(k.value) && InOrder(k.value) && KnowledgeOf(k.value) == x
  {
    var continuities := ReadContinuities(t.continuities, x.continuities);
    var works := ReadWorks(t.works, None, x.works);
    var characters := ReadCharacters(t.characters, None, x.characters);
    var locations := ReadPlaces(t.locations, None, x.locations);
    var artifacts := ReadPlaces(t.artifacts, None, x.artifacts);
    var episodes := ReadEpisodes(t.episodes, None, x.episodes);
    ReadIndexed(continuities, ContinuityId, x.continuities);
    ReadIndexed(works, WorkId, x.works);
    ReadIndexed(characters.value, CharacterId, x.characters);
    ReadIndexed(locations.value, PlaceId, x.locations);
    ReadIndexed(artifacts.value, PlaceId, x.artifacts);
    ReadIndexed(episodes, EpisodeId, x.episodes);
    return Some(KnowledgeSet(continuities, works, episodes, characters.value, locations.value, artifacts.value));
  }
}
