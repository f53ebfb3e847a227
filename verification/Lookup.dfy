/** Exact lookup: `find` of both stores and the cards built from what it found. */
module Lookup {
  import opened Ordering
  import opened Wrappers
  import opened Models
  import opened IntegrityRules
  import opened IntegrityTheorems
  import opened Tables
  import opened PostgresRead

  /** Entities matching a key, the works of the episodes among them, and the names of what they refer to. */
  datatype Found = Found(
    characters: seq<Character>, locations: seq<Place>, artifacts: seq<Place>, episodes: seq<Episode>, works: seq<Work>,
    names: map<EntityRef, Text>)

  // ---------------------------------------------------------------- what a lookup finds

  predicate CharacterMatches(c: Character, key: Text) {
    c.id == key || Named(c.name, c.aliases, key)
  }

  predicate PlaceMatches(p: Place, key: Text) {
    p.id == key || HasName(p, key)
  }

  predicate EpisodeMatches(e: Episode, key: Text) {
    e.id == key || NormalizeName(e.title) == key
  }

  // What an entity refers to, its sources left out.

  predicate WorkMentions(w: Work, r: EntityRef) {
    r.kind.ContinuityKind? && r.id == w.continuity
  }

  predicate EpisodeMentions(e: Episode, r: EntityRef) {
    match r.kind
    case WorkKind => r.id == e.work
    case CharacterKind => r.id in e.characters
    case LocationKind => r.id in e.locations
    case ArtifactKind => r.id in e.artifacts
    case _ => false
  }

  predicate CharacterMentions(c: Character, r: EntityRef) {
    match r.kind
    case ContinuityKind =>
      (exists v :: v in c.versions && r.id in v.continuities)
        || (exists rel :: rel in c.relationships && r.id in rel.continuities)
    case CharacterKind => exists rel :: rel in c.relationships && rel.to == r.id
    case _ => false
  }

  predicate PlaceMentions(p: Place, r: EntityRef) {
    match r.kind
    case ContinuityKind => r.id in p.continuities
    case CharacterKind => r.id in p.members
    case _ => false
  }

  ghost predicate WorksMention(works: seq<Work>, r: EntityRef) {
    exists w :: w in works && WorkMentions(w, r)
  }

  ghost predicate EpisodesMention(episodes: seq<Episode>, r: EntityRef) {
    exists e :: e in episodes && EpisodeMentions(e, r)
  }

  ghost predicate CharactersMention(characters: seq<Character>, r: EntityRef) {
    exists c :: c in characters && CharacterMentions(c, r)
  }

  ghost predicate PlacesMention(places: seq<Place>, r: EntityRef) {
    exists p :: p in places && PlaceMentions(p, r)
  }

  /** The found entities refer to `r`. */
  ghost predicate Mentions(f: Found, r: EntityRef) {
    || WorksMention(f.works, r)
    || EpisodesMention(f.episodes, r)
    || CharactersMention(f.characters, r)
    || PlacesMention(f.locations, r)
    || PlacesMention(f.artifacts, r)
  }

  /** The name or title under which an entity is shown. */
  function NameOf(x: Knowledge, r: EntityRef): Text
    requires x.Has(r)
  {
    match r.kind
    case ContinuityKind => x.continuities[r.id].name
    case WorkKind => x.works[r.id].title
    case EpisodeKind => x.episodes[r.id].title
    case CharacterKind => x.characters[r.id].name
    case LocationKind => x.locations[r.id].name
    case ArtifactKind => x.artifacts[r.id].name
  }

  ghost predicate Selects<V(!new)>(items: seq<V>, id: V -> Id, m: map<Id, V>, wanted: V -> bool) {
    && Ascending(items, id)
    && forall t :: t in items <==> id(t) in m && m[id(t)] == t && wanted(t)
  }

  ghost predicate EntitiesFound(f: Found, x: Knowledge, key: Text) {
    && Selects(f.characters, CharacterId, x.characters, (c: Character) => CharacterMatches(c, key))
    && Selects(f.locations, PlaceId, x.locations, (p: Place) => PlaceMatches(p, key))
    && Selects(f.artifacts, PlaceId, x.artifacts, (p: Place) => PlaceMatches(p, key))
    && Selects(f.episodes, EpisodeId, x.episodes, (e: Episode) => EpisodeMatches(e, key))
    && Ascending(f.works, WorkId)
    && (forall w :: w in f.works <==> w.id in x.works && x.works[w.id] == w && exists e ::
      e in f.episodes && e.work == w.id)
  }

  ghost predicate NamesFound(f: Found, x: Knowledge) {
    && (forall r :: r in f.names <==> Mentions(f, r) && x.Has(r))
    && (forall r :: r in f.names ==> f.names[r] == NameOf(x, r))
  }

  /** Exactly what a lookup of `key` has to find, each type in id order, with the names of all it refers to. */
  ghost predicate IsFound(f: Found, x: Knowledge, key: Text) {
    EntitiesFound(f, x, key) && NamesFound(f, x)
  }

  /** A key finds what has it as its id, and what has a name, an alias or a title that normalizes to it. */
  lemma FindsByIdOrName(f: Found, x: Knowledge, key: Text)
    requires x.Keyed() && EntitiesFound(f, x, key)
    ensures forall id :: id in x.characters ==>
      var c := x.characters[id];
      c in f.characters <==> id == key || NormalizeName(c.name) == key || Aliased(c.aliases, key)
    ensures forall id :: id in x.locations ==>
      var p := x.locations[id];
      p in f.locations <==> id == key || NormalizeName(p.name) == key || Aliased(p.aliases, key)
    ensures forall id :: id in x.artifacts ==>
      var p := x.artifacts[id];
      p in f.artifacts <==> id == key || NormalizeName(p.name) == key || Aliased(p.aliases, key)
    ensures forall id :: id in x.episodes ==>
      (x.episodes[id] in f.episodes <==> id == key || NormalizeName(x.episodes[id].title) == key)
  {
    forall name: Text, aliases: seq<Text>
      ensures Named(name, aliases, key) <==> NormalizeName(name) == key || Aliased(aliases, key)
    {
      NamedMeans(name, aliases, key);
    }
  }

  predicate Aliased(aliases: seq<Text>, key: Text) {
    exists i :: 0 <= i < |aliases| && NormalizeName(aliases[i]) == key
  }

  lemma NamedMeans(name: Text, aliases: seq<Text>, key: Text)
    ensures Named(name, aliases, key) <==> NormalizeName(name) == key || Aliased(aliases, key)
  {
    var all := NamesOf(name, aliases);
    assert all[0] == name && all[1..] == aliases;
    if n :| n in all && NormalizeName(n) == key {
      var i :| 0 <= i < |all| && all[i] == n;
      assert i == 0 || aliases[i - 1] == n;
    }
    if i :| 0 <= i < |aliases| && NormalizeName(aliases[i]) == key {
      assert all[i + 1] in all;
    }
  }

  lemma SelectsOnce<V(!new)>(a: seq<V>, b: seq<V>, id: V -> Id, m: map<Id, V>, wanted: V -> bool)
    requires Selects(a, id, m, wanted) && Selects(b, id, m, wanted)
    ensures a == b
  {
    AscendingUnique(a, b, id);
  }

  lemma EntitiesFoundOnce(f: Found, g: Found, x: Knowledge, key: Text)
    requires EntitiesFound(f, x, key) && EntitiesFound(g, x, key)
    ensures f.(names := map[]) == g.(names := map[])
  {
    SelectsOnce(f.characters, g.characters, CharacterId, x.characters, (c: Character) => CharacterMatches(c, key));
    SelectsOnce(f.locations, g.locations, PlaceId, x.locations, (p: Place) => PlaceMatches(p, key));
    SelectsOnce(f.artifacts, g.artifacts, PlaceId, x.artifacts, (p: Place) => PlaceMatches(p, key));
    SelectsOnce(f.episodes, g.episodes, EpisodeId, x.episodes, (e: Episode) => EpisodeMatches(e, key));
    WorksFoundOnce(f, g, x, key);
  }

  lemma WorksFoundOnce(f: Found, g: Found, x: Knowledge, key: Text)
    requires EntitiesFound(f, x, key) && EntitiesFound(g, x, key) && f.episodes == g.episodes
    ensures f.works == g.works
  {
    AscendingUnique(f.works, g.works, WorkId);
  }

  lemma NamesFoundOnce(f: Found, g: Found, x: Knowledge)
    requires NamesFound(f, x) && NamesFound(g, x) && f.(names := map[]) == g.(names := map[])
    ensures f.names == g.names
  {
    SameMentions(f, g);
  }

  /** The description is complete: the two stores, meeting it, find the same. */
  lemma FoundOnce(f: Found, g: Found, x: Knowledge, key: Text)
    requires IsFound(f, x, key) && IsFound(g, x, key)
    ensures f == g
  {
    assert f.(names := map[]) == g.(names := map[]) by { EntitiesFoundOnce(f, g, x, key); }
    assert f.names == g.names by { NamesFoundOnce(f, g, x); }
  }

  // ---------------------------------------------------------------- everything found is known

  /** On a consistent set every reference of what was found is a stored entity. */
  lemma FoundRefersToStored(f: Found, x: Knowledge, key: Text, r: EntityRef)
    requires x.Keyed() && Consistent(x) && EntitiesFound(f, x, key) && Mentions(f, r)
    ensures x.Has(r)
  {
    FoundIsStored(f, x, key);
    assert ReferencesClosed(x) by {
      RulesOneByOne(x);
    }
    ClosedMentions(x, r);
  }

  /** A lookup finds nothing but stored entities. */
  lemma FoundIsStored(f: Found, x: Knowledge, key: Text)
    requires EntitiesFound(f, x, key)
    ensures forall w :: w in f.works ==> w.id in x.works && x.works[w.id] == w
    ensures forall e :: e in f.episodes ==> e.id in x.episodes && x.episodes[e.id] == e
    ensures forall c :: c in f.characters ==> c.id in x.characters && x.characters[c.id] == c
    ensures forall p :: p in f.locations ==> p.id in x.locations && x.locations[p.id] == p
    ensures forall p :: p in f.artifacts ==> p.id in x.artifacts && x.artifacts[p.id] == p
  {
  }

  lemma ClosedMentions(x: Knowledge, r: EntityRef)
    requires ReferencesClosed(x)
    ensures forall w :: w in x.works && WorkMentions(x.works[w], r) ==> x.Has(r)
    ensures forall e :: e in x.episodes && EpisodeMentions(x.episodes[e], r) ==> x.Has(r)
    ensures forall c :: c in x.characters && CharacterMentions(x.characters[c], r) ==> x.Has(r)
    ensures forall p :: p in x.locations && PlaceMentions(x.locations[p], r) ==> x.Has(r)
    ensures forall p :: p in x.artifacts && PlaceMentions(x.artifacts[p], r) ==> x.Has(r)
  {
    forall e | e in x.episodes && EpisodeMentions(x.episodes[e], r) ensures x.Has(r) {
      assert EpisodeClosed(x, x.episodes[e]);
    }
    forall c | c in x.characters && CharacterMentions(x.characters[c], r) ensures x.Has(r) {
      assert CharacterClosed(x, x.characters[c]);
    }
    forall p | p in x.locations && PlaceMentions(x.locations[p], r) ensures x.Has(r) {
      assert PlaceClosed(x, x.locations[p]);
    }
    forall p | p in x.artifacts && PlaceMentions(x.artifacts[p], r) ensures x.Has(r) {
      assert PlaceClosed(x, x.artifacts[p]);
    }
  }

  /** `_name`: a missing name falls back to the slug. */
  function Shown(f: Found, kind: EntityKind, id: Id): Text {
    if EntityRef(kind, id) in f.names then f.names[EntityRef(kind, id)] else id
  }

  /** So no card ever falls back to the slug: what is shown is the stored name. */
  lemma ShownByName(f: Found, x: Knowledge, key: Text, r: EntityRef)
    requires x.Keyed() && Consistent(x) && IsFound(f, x, key) && Mentions(f, r)
    ensures x.Has(r) && Shown(f, r.kind, r.id) == NameOf(x, r)
  {
    FoundRefersToStored(f, x, key, r);
    assert r == EntityRef(r.kind, r.id);
  }

  /** The work of a found episode is found with it, so its card has a continuity, shown by name. */
  lemma EpisodeCardHasContinuity(f: Found, x: Knowledge, key: Text, e: Episode)
    requires x.Keyed() && Consistent(x) && IsFound(f, x, key) && e in f.episodes
    ensures e.work in x.works && x.works[e.work] in f.works
    ensures var continuity := x.works[e.work].continuity;
      continuity in x.continuities && Shown(f, ContinuityKind, continuity) == x.continuities[continuity].name
  {
    FoundWorksExist(x, f.episodes, key);
    var w := x.works[e.work];
    assert w.id == e.work && w in f.works;
    var r := EntityRef(ContinuityKind, w.continuity);
    assert WorkMentions(w, r);
    ShownByName(f, x, key, r);
  }

  lemma CharacterReferenceShown(f: Found, x: Knowledge, key: Text, c: Character, r: EntityRef)
    requires x.Keyed() && Consistent(x) && IsFound(f, x, key) && c in f.characters && CharacterMentions(c, r)
    ensures x.Has(r) && Shown(f, r.kind, r.id) == NameOf(x, r)
  {
    assert CharactersMention(f.characters, r);
    ShownByName(f, x, key, r);
  }

  lemma EpisodeReferenceShown(f: Found, x: Knowledge, key: Text, e: Episode, r: EntityRef)
    requires x.Keyed() && Consistent(x) && IsFound(f, x, key) && e in f.episodes && EpisodeMentions(e, r)
    ensures x.Has(r) && Shown(f, r.kind, r.id) == NameOf(x, r)
  {
    assert EpisodesMention(f.episodes, r);
    ShownByName(f, x, key, r);
  }

  /** The card of a character shows everyone it is tied to, and the canon variants of its versions and ties, by name. */
  lemma CharacterCardByName(f: Found, x: Knowledge, key: Text, c: Character)
    requires x.Keyed() && Consistent(x) && IsFound(f, x, key) && c in f.characters
    ensures forall v, k :: v in c.versions && k in v.continuities ==>
      k in x.continuities && Shown(f, ContinuityKind, k) == x.continuities[k].name
    ensures forall tie, k :: tie in c.relationships && k in tie.continuities ==>
      k in x.continuities && Shown(f, ContinuityKind, k) == x.continuities[k].name
    ensures forall tie :: tie in c.relationships ==>
      tie.to in x.characters && Shown(f, CharacterKind, tie.to) == x.characters[tie.to].name
  {
    forall v, k | v in c.versions && k in v.continuities
      ensures k in x.continuities && Shown(f, ContinuityKind, k) == x.continuities[k].name
    {
      CharacterReferenceShown(f, x, key, c, EntityRef(ContinuityKind, k));
    }
    forall tie, k | tie in c.relationships && k in tie.continuities
      ensures k in x.continuities && Shown(f, ContinuityKind, k) == x.continuities[k].name
    {
      CharacterReferenceShown(f, x, key, c, EntityRef(ContinuityKind, k));
    }
    forall tie | tie in c.relationships
      ensures tie.to in x.characters && Shown(f, CharacterKind, tie.to) == x.characters[tie.to].name
    {
      CharacterReferenceShown(f, x, key, c, EntityRef(CharacterKind, tie.to));
    }
  }

  /** The card of a place shows its canon variants and its residents or creators by name. */
  lemma PlaceCardByName(f: Found, x: Knowledge, key: Text, p: Place)
    requires x.Keyed() && Consistent(x) && IsFound(f, x, key) && (p in f.locations || p in f.artifacts)
    ensures forall k :: k in p.continuities ==>
      k in x.continuities && Shown(f, ContinuityKind, k) == x.continuities[k].name
    ensures forall m :: m in p.members ==>
      m in x.characters && Shown(f, CharacterKind, m) == x.characters[m].name
  {
    forall r | PlaceMentions(p, r) ensures x.Has(r) && Shown(f, r.kind, r.id) == NameOf(x, r) {
      assert PlacesMention(f.locations, r) || PlacesMention(f.artifacts, r);
      ShownByName(f, x, key, r);
    }
    assert forall k :: k in p.continuities ==> PlaceMentions(p, EntityRef(ContinuityKind, k));
    assert forall m :: m in p.members ==> PlaceMentions(p, EntityRef(CharacterKind, m));
  }

  /** The card of an episode shows its work by title and all it lists by name. */
  lemma EpisodeCardByName(f: Found, x: Knowledge, key: Text, e: Episode)
    requires x.Keyed() && Consistent(x) && IsFound(f, x, key) && e in f.episodes
    ensures e.work in x.works && Shown(f, WorkKind, e.work) == x.works[e.work].title
    ensures forall c :: c in e.characters ==> c in x.characters && Shown(f, CharacterKind, c) == x.characters[c].name
    ensures forall p :: p in e.locations ==> p in x.locations && Shown(f, LocationKind, p) == x.locations[p].name
    ensures forall p :: p in e.artifacts ==> p in x.artifacts && Shown(f, ArtifactKind, p) == x.artifacts[p].name
  {
    EpisodeReferenceShown(f, x, key, e, EntityRef(WorkKind, e.work));
    forall c | c in e.characters ensures c in x.characters && Shown(f, CharacterKind, c) == x.characters[c].name {
      EpisodeReferenceShown(f, x, key, e, EntityRef(CharacterKind, c));
    }
    forall p | p in e.locations ensures p in x.locations && Shown(f, LocationKind, p) == x.locations[p].name {
      EpisodeReferenceShown(f, x, key, e, EntityRef(LocationKind, p));
    }
    forall p | p in e.artifacts ensures p in x.artifacts && Shown(f, ArtifactKind, p) == x.artifacts[p].name {
      EpisodeReferenceShown(f, x, key, e, EntityRef(ArtifactKind, p));
    }
  }

  /** The participants of an interaction are shown by name though nothing asks for their names. */
  lemma InteractionCardIsComplete(f: Found, x: Knowledge, key: Text, e: Episode, i: Interaction)
    requires x.Keyed() && Consistent(x) && IsFound(f, x, key) && e in f.episodes && i in e.interactions
    ensures i.from in x.characters && Shown(f, CharacterKind, i.from) == x.characters[i.from].name
    ensures i.to in x.characters && Shown(f, CharacterKind, i.to) == x.characters[i.to].name
  {
    RulesOneByOne(x);
    assert e.id in x.episodes && x.episodes[e.id] == e;
    assert InteractionsConsistent(x.episodes[e.id]);
    var from, to := EntityRef(CharacterKind, i.from), EntityRef(CharacterKind, i.to);
    assert EpisodeMentions(e, from) && EpisodeMentions(e, to);
    ShownByName(f, x, key, from);
    ShownByName(f, x, key, to);
  }

  /** One key names at most one character, so it finds at most two: that one and the one with this id. */
  lemma KeyNamesOneCharacter(x: Knowledge, key: Text, a: Id, b: Id)
    requires x.Keyed() && Consistent(x) && a in x.characters && b in x.characters
    requires Named(x.characters[a].name, x.characters[a].aliases, key)
      && Named(x.characters[b].name, x.characters[b].aliases, key)
    ensures a == b
  {
    RulesOneByOne(x);
    var m, n := NamesOf(x.characters[a].name, x.characters[a].aliases),
      NamesOf(x.characters[b].name, x.characters[b].aliases);
    var p :| p in m && NormalizeName(p) == key;
    var q :| q in n && NormalizeName(q) == key;
    var i :| 0 <= i < |m| && m[i] == p;
    var j :| 0 <= j < |n| && n[j] == q;
    assert SharedName(x.characters[a], i, x.characters[b], j);
    assert !Apart(a, i, b, j);
  }

  lemma AtMostTwoCharacters(f: Found, x: Knowledge, key: Text)
    requires x.Keyed() && Consistent(x) && IsFound(f, x, key)
    ensures |f.characters| <= 2
  {
    if |f.characters| > 2 {
      var a, b, c := f.characters[0], f.characters[1], f.characters[2];
      BeforeIrreflexive(a.id);
      assert Before(CharacterId(a), CharacterId(b)) && Before(CharacterId(a), CharacterId(c))
        && Before(CharacterId(b), CharacterId(c));
      BeforeIrreflexive(b.id);
      assert a in f.characters && b in f.characters && c in f.characters;
      assert CharacterMatches(a, key) && CharacterMatches(b, key) && CharacterMatches(c, key);
      if a.id == key {
        KeyNamesOneCharacter(x, key, b.id, c.id);
      } else if b.id == key {
        KeyNamesOneCharacter(x, key, a.id, c.id);
      } else {
        KeyNamesOneCharacter(x, key, a.id, b.id);
      }
    }
  }

  // ---------------------------------------------------------------- names of references

  function WorkRefs(w: Work): (refs: set<EntityRef>)
    ensures forall r :: r in refs <==> WorkMentions(w, r)
  {
    {EntityRef(ContinuityKind, w.continuity)}
  }

  function RefsTo(kind: EntityKind, ids: seq<Id>): (refs: set<EntityRef>)
    ensures forall r :: r in refs <==> r.kind == kind && r.id in ids
  {
    set id | id in ids :: EntityRef(kind, id)
  }

  function EpisodeRefs(e: Episode): (refs: set<EntityRef>)
    ensures forall r :: r in refs <==> EpisodeMentions(e, r)
  {
    {EntityRef(WorkKind, e.work)} + RefsTo(CharacterKind, e.characters)
    + RefsTo(LocationKind, e.locations) + RefsTo(ArtifactKind, e.artifacts)
  }

  function PlaceRefs(p: Place): (refs: set<EntityRef>)
    ensures forall r :: r in refs <==> PlaceMentions(p, r)
  {
    RefsTo(ContinuityKind, p.continuities) + RefsTo(CharacterKind, p.members)
  }

  method CharacterRefs(c: Character) returns (refs: set<EntityRef>)
    ensures forall r :: r in refs <==> CharacterMentions(c, r)
  {
    var versions := Gather(c.versions, (v: Version) => RefsTo(ContinuityKind, v.continuities));
    var relationships := Gather(c.relationships,
      (rel: Relationship) => {EntityRef(CharacterKind, rel.to)} + RefsTo(ContinuityKind, rel.continuities));
    refs := versions + relationships;
  }

  method Gather<V(!new)>(items: seq<V>, refsOf: V -> set<EntityRef>) returns (refs: set<EntityRef>)
    ensures forall r :: r in refs <==> exists t :: t in items && r in refsOf(t)
  {
    refs := {};
    for i := 0 to |items|
      invariant forall r :: r in refs <==> exists t :: t in items[..i] && r in refsOf(t)
    {
      assert items[..i + 1] == items[..i] + [items[i]];
      refs := refs + refsOf(items[i]);
    }
    assert items[..|items|] == items;
  }

  method GatherWorks(items: seq<Work>) returns (refs: set<EntityRef>)
    ensures forall r :: r in refs <==> WorksMention(items, r)
  {
    refs := Gather(items, (w: Work) => WorkRefs(w));
  }

  method GatherEpisodes(items: seq<Episode>) returns (refs: set<EntityRef>)
    ensures forall r :: r in refs <==> EpisodesMention(items, r)
  {
    refs := Gather(items, (e: Episode) => EpisodeRefs(e));
  }

  method GatherPlaces(items: seq<Place>) returns (refs: set<EntityRef>)
    ensures forall r :: r in refs <==> PlacesMention(items, r)
  {
    refs := Gather(items, (p: Place) => PlaceRefs(p));
  }

  method GatherCharacters(items: seq<Character>) returns (refs: set<EntityRef>)
    ensures forall r :: r in refs <==> CharactersMention(items, r)
  {
    refs := {};
    for i := 0 to |items|
      invariant forall r :: r in refs <==> CharactersMention(items[..i], r)
    {
      assert items[..i + 1] == items[..i] + [items[i]];
      var own := CharacterRefs(items[i]);
      refs := refs + own;
    }
    assert items[..|items|] == items;
  }

  /** `references_of`: a set filled in loops over the found entities. */
  method ReferencesOf(f: Found) returns (refs: set<EntityRef>)
    ensures forall r :: r in refs <==> Mentions(f, r)
  {
    var works := GatherWorks(f.works);
    var episodes := GatherEpisodes(f.episodes);
    var characters := GatherCharacters(f.characters);
    var locations := GatherPlaces(f.locations);
    var artifacts := GatherPlaces(f.artifacts);
    refs := works + episodes + characters + locations + artifacts;
  }

  // ---------------------------------------------------------------- find in memory

  /** A scan of all stored entities of a type, in id order. */
  method Scan<V(!new)>(m: map<Id, V>, id: V -> Id, wanted: V -> bool) returns (items: seq<V>)
    requires forall key :: key in m ==> id(m[key]) == key
    ensures Selects(items, id, m, wanted)
  {
    var ordered := RootIds(m.Keys, None);
    items := [];
    for n := 0 to |ordered|
      invariant Ascending(items, id)
      invariant forall t :: t in items <==> id(t) in ordered[..n] && id(t) in m && m[id(t)] == t && wanted(t)
    {
      var key := ordered[n];
      assert key in ordered;
      assert ordered[..n + 1] == ordered[..n] + [key];
      if wanted(m[key]) {
        forall t | t in items ensures Before(id(t), key) {
          var i :| 0 <= i < n && ordered[i] == id(t);
          assert Before(ItselfId(ordered[i]), ItselfId(ordered[n]));
        }
        items := items + [m[key]];
      }
    }
    assert ordered[..|ordered|] == ordered;
  }

  method FindInMemory(x: Knowledge, key: Text) returns (f: Found)
    requires x.Keyed() && Consistent(x)
    ensures IsFound(f, x, key)
  {
    f := ScanEntities(x, key);
    var refs := ReferencesOf(f);
    var names := map r | r in refs && x.Has(r) :: NameOf(x, r);
    f := AddNames(f, names, x, key);
  }

  method ScanEntities(x: Knowledge, key: Text) returns (f: Found)
    requires x.Keyed() && Consistent(x)
    ensures EntitiesFound(f, x, key)
  {
    var characters := Scan(x.characters, CharacterId, (c: Character) => CharacterMatches(c, key));
    var locations := Scan(x.locations, PlaceId, (p: Place) => PlaceMatches(p, key));
    var artifacts := Scan(x.artifacts, PlaceId, (p: Place) => PlaceMatches(p, key));
    var episodes := Scan(x.episodes, EpisodeId, (e: Episode) => EpisodeMatches(e, key));
    FoundWorksExist(x, episodes, key);
    var workIds := set e | e in episodes :: e.work;
    var works := Scan(map w | w in workIds :: x.works[w], WorkId, (w: Work) => true);
    f := Found(characters, locations, artifacts, episodes, works, map[]);
  }

  method AddNames(found: Found, names: map<EntityRef, Text>, ghost x: Knowledge, ghost key: Text) returns (f: Found)
    requires EntitiesFound(found, x, key)
    requires forall r :: r in names <==> Mentions(found, r) && x.Has(r)
    requires forall r :: r in names ==> names[r] == NameOf(x, r)
    ensures f == found.(names := names) && IsFound(f, x, key)
  {
    f := found.(names := names);
    SameMentions(f, found);
  }

  lemma SameMentions(f: Found, g: Found)
    requires f.(names := map[]) == g.(names := map[])
    ensures forall r :: Mentions(f, r) <==> Mentions(g, r)
  {
  }

  /** The dictionary lookup of a work by the id an episode names never fails. */
  lemma FoundWorksExist(x: Knowledge, episodes: seq<Episode>, key: Text)
    requires x.Keyed() && Consistent(x)
    requires Selects(episodes, EpisodeId, x.episodes, (e: Episode) => EpisodeMatches(e, key))
    ensures forall e :: e in episodes ==> e.work in x.works
  {
    RulesOneByOne(x);
    forall e | e in episodes ensures e.work in x.works {
      assert e.id in x.episodes && EpisodeClosed(x, x.episodes[e.id]);
    }
  }

  // ---------------------------------------------------------------- find through the name tables

  /** `_matching_ids` of a named type: an id, or the owner of a name row with that search key. */
  method MatchingIds<R>(roots: map<Id, R>, names: set<Row<NameCell>>, key: Text) returns (ids: set<Id>)
    ensures forall id :: id in ids <==>
        (id in roots && (id == key || exists row :: row in names && row.owner == id && row.value.normalized == key))
  {
    ids := set id | id in roots
      && (id == key || exists row | row in names :: row.owner == id && row.value.normalized == key);
  }

  /** The name rows hold exactly the normalized names of the aggregates. */
  lemma NameRowsMatch<V>(
    rows: set<Row<NameCell>>, m: map<Id, V>, lists: (V, nat) -> seq<NameCell>, id: Id, name: Text, aliases: seq<Text>,
    key: Text)
    requires HasRowsOf(rows, m, lists) && id in m
    requires forall g: nat :: lists(m[id], g) == Flat(NameCells(name, aliases), g)
    ensures Named(name, aliases, key) <==> exists row :: row in rows && row.owner == id && row.value.normalized == key
  {
    var all := NamesOf(name, aliases);
    if Named(name, aliases, key) {
      var n :| n in all && NormalizeName(n) == key;
      var i :| 0 <= i < |all| && all[i] == n;
      var row := Row(id, 0, i, NameCells(name, aliases)[i]);
      assert IsRow(m, lists, row);
    }
    if row :| row in rows && row.owner == id && row.value.normalized == key {
      assert IsRow(m, lists, row);
      assert row.group == 0 && row.value == NameCell(all[row.position], NormalizeName(all[row.position]));
      assert all[row.position] in all;
    }
  }

  method FindInTables(t: Tables, key: Text, ghost x: Knowledge) returns (f: Found)
    requires x.Keyed() && Consistent(x) && Represents(t, x)
    ensures IsFound(f, x, key)
  {
    f := SelectEntities(t, key, x);
    var refs := ReferencesOf(f);
    var names := SelectNames(t, refs, x);
    f := AddNames(f, names, x, key);
  }

  method SelectEntities(t: Tables, key: Text, ghost x: Knowledge) returns (f: Found)
    requires x.Keyed() && Consistent(x) && Represents(t, x)
    ensures EntitiesFound(f, x, key)
  {
    var characters := FindCharacters(t.characters, key, x.characters);
    var locations := FindPlaces(t.locations, key, x.locations);
    var artifacts := FindPlaces(t.artifacts, key, x.artifacts);
    var episodes := FindEpisodes(t.episodes, key, x.episodes);
    FoundWorksExist(x, episodes, key);
    var works := WorksOf(t.works, episodes, x.works);
    f := Found(characters, locations, artifacts, episodes, works, map[]);
  }

  /** The works of some episodes. */
  method WorksOf(roots: map<Id, WorkRoot>, episodes: seq<Episode>, ghost m: map<Id, Work>) returns (works: seq<Work>)
    requires HoldsRoots(roots, m, WorkRootFn) && forall id :: id in m ==> m[id].id == id
    ensures Ascending(works, WorkId)
    ensures forall w :: w in works <==> w.id in m && m[w.id] == w && exists e :: e in episodes && e.work == w.id
  {
    var workIds := set e | e in episodes :: e.work;
    works := ReadWorks(roots, Some(workIds), m);
  }

  method FindCharacters(t: CharacterTables, key: Text, ghost m: map<Id, Character>) returns (items: seq<Character>)
    requires HoldsCharacters(t, m) && forall id :: id in m ==> m[id].id == id
    ensures Selects(items, CharacterId, m, (c: Character) => CharacterMatches(c, key))
  {
    var ids := MatchingIds(t.roots, t.names, key);
    forall id | id in m ensures id in ids <==> CharacterMatches(m[id], key) {
      NameRowsMatch(t.names, m, CharacterNames, id, m[id].name, m[id].aliases, key);
    }
    var read := ReadCharacters(t, Some(ids), m);
    items := read.value;
  }

  method FindPlaces(t: PlaceTables, key: Text, ghost m: map<Id, Place>) returns (items: seq<Place>)
    requires HoldsPlaces(t, m) && forall id :: id in m ==> m[id].id == id
    ensures Selects(items, PlaceId, m, (p: Place) => PlaceMatches(p, key))
  {
    var ids := MatchingIds(t.roots, t.names, key);
    forall id | id in m ensures id in ids <==> PlaceMatches(m[id], key) {
      NameRowsMatch(t.names, m, PlaceNames, id, m[id].name, m[id].aliases, key);
    }
    var read := ReadPlaces(t, Some(ids), m);
    items := read.value;
  }

  method FindEpisodes(t: EpisodeTables, key: Text, ghost m: map<Id, Episode>) returns (items: seq<Episode>)
    requires HoldsEpisodes(t, m) && forall id :: id in m ==> m[id].id == id
    ensures Selects(items, EpisodeId, m, (e: Episode) => EpisodeMatches(e, key))
  {
    var ids := set id | id in t.roots && (id == key || t.roots[id].normalizedTitle == key);
    forall id | id in m ensures id in ids <==> EpisodeMatches(m[id], key) {
      assert t.roots[id] == EpisodeRootOf(m[id]);
    }
    items := ReadEpisodes(t, Some(ids), m);
  }

  /** The name at position 0 of each referenced owner. */
  method FirstNames(rows: set<Row<NameCell>>, ids: set<Id>) returns (names: map<Id, Text>)
    requires forall a, b :: a in rows && b in rows && a.owner == b.owner && a.position == b.position ==> a == b
    ensures forall id :: id in names <==> id in ids && exists row :: row in rows && row.owner == id && row.position == 0
    ensures forall row ::
      row in rows && row.owner in ids && row.position == 0 ==> row.owner in names && names[row.owner] == row.value.value
  {
    names := map[];
    var rest := set row | row in rows && row.owner in ids && row.position == 0;
    ghost var all := rest;
    while rest != {}
      invariant rest <= all
      invariant forall id :: id in names <==> exists row :: row in all && row !in rest && row.owner == id
      invariant forall row :: row in all && row !in rest ==> row.owner in names && names[row.owner] == row.value.value
    {
      var row :| row in rest;
      rest := rest - {row};
      names := names[row.owner := row.value.value];
    }
  }

  lemma FirstNameIs<V>(
    rows: set<Row<NameCell>>, m: map<Id, V>, lists: (V, nat) -> seq<NameCell>, id: Id, name: Text, aliases: seq<Text>)
    requires HasRowsOf(rows, m, lists) && id in m
    requires forall g: nat :: lists(m[id], g) == Flat(NameCells(name, aliases), g)
    ensures exists row :: row in rows && row.owner == id && row.position == 0
    ensures forall row :: row in rows && row.owner == id && row.position == 0 ==> row.value.value == name
  {
    assert IsRow(m, lists, Row(id, 0, 0, NameCells(name, aliases)[0]));
    forall row | row in rows && row.owner == id && row.position == 0 ensures row.value.value == name {
      assert IsRow(m, lists, row);
    }
  }

  /** Names of one named type; `nameOf` is the name of an aggregate. */
  method NamesOfType<V(!new)>(
    rows: set<Row<NameCell>>, ids: set<Id>, ghost m: map<Id, V>, ghost lists: (V, nat) -> seq<NameCell>,
    ghost nameOf: V -> Text, ghost aliasesOf: V -> seq<Text>) returns (names: map<Id, Text>)
    requires HasRowsOf(rows, m, lists)
    requires forall t: V, g: nat :: lists(t, g) == Flat(NameCells(nameOf(t), aliasesOf(t)), g)
    ensures forall id :: id in names <==> id in ids && id in m
    ensures forall id :: id in names ==> names[id] == nameOf(m[id])
  {
    forall a, b | a in rows && b in rows && a.owner == b.owner && a.position == b.position ensures a == b {
      assert IsRow(m, lists, a) && IsRow(m, lists, b);
    }
    names := FirstNames(rows, ids);
    forall id | id in m
      ensures exists row :: row in rows && row.owner == id && row.position == 0
      ensures forall row :: row in rows && row.owner == id && row.position == 0 ==> row.value.value == nameOf(m[id])
    {
      FirstNameIs(rows, m, lists, id, nameOf(m[id]), aliasesOf(m[id]));
    }
    forall row | row in rows ensures row.owner in m {
      assert IsRow(m, lists, row);
    }
  }

  function IdsOf(refs: set<EntityRef>, kind: EntityKind): (ids: set<Id>)
    ensures forall id :: id in ids <==> EntityRef(kind, id) in refs
  {
    set r | r in refs && r.kind == kind :: r.id
  }

  method SelectNames(t: Tables, refs: set<EntityRef>, ghost x: Knowledge) returns (names: map<EntityRef, Text>)
    requires Represents(t, x) && forall r :: r in refs ==> !r.kind.EpisodeKind?
    ensures forall r :: r in names <==> r in refs && x.Has(r)
    ensures forall r :: r in names ==> names[r] == NameOf(x, r)
  {
    var characters, locations, artifacts := NamesOfTypes(t, refs, x);
    RepresentedNames(t, x);
    forall r | r in refs
      ensures NameStored(t, characters, locations, artifacts, r) <==> x.Has(r)
      ensures x.Has(r) ==> StoredName(t, characters, locations, artifacts, r) == NameOf(x, r)
    {
      NameIsStored(t, characters, locations, artifacts, x, refs, r);
    }
    names := map r | r in refs && NameStored(t, characters, locations, artifacts, r) ::
      StoredName(t, characters, locations, artifacts, r);
  }

  ghost predicate NamesKept(names: map<Id, Text>, ids: set<Id>, stored: map<Id, Text>) {
    names.Keys == ids * stored.Keys && forall id :: id in names ==> names[id] == stored[id]
  }

  ghost function CharacterNamesOf(x: Knowledge): map<Id, Text> {
    map id | id in x.characters :: x.characters[id].name
  }

  ghost function PlaceNamesOf(m: map<Id, Place>): map<Id, Text> {
    map id | id in m :: m[id].name
  }

  method NamesOfTypes(t: Tables, refs: set<EntityRef>, ghost x: Knowledge)
    returns (characters: map<Id, Text>, locations: map<Id, Text>, artifacts: map<Id, Text>)
    requires Represents(t, x)
    ensures NamesKept(characters, IdsOf(refs, CharacterKind), CharacterNamesOf(x))
    ensures NamesKept(locations, IdsOf(refs, LocationKind), PlaceNamesOf(x.locations))
    ensures NamesKept(artifacts, IdsOf(refs, ArtifactKind), PlaceNamesOf(x.artifacts))
  {
    characters := NamesOfType(
      t.characters.names, IdsOf(refs, CharacterKind), x.characters, CharacterNames, (c: Character) => c.name,
      (c: Character) => c.aliases);
    locations := NamesOfType(
      t.locations.names, IdsOf(refs, LocationKind), x.locations, PlaceNames, (p: Place) => p.name,
      (p: Place) => p.aliases);
    artifacts := NamesOfType(
      t.artifacts.names, IdsOf(refs, ArtifactKind), x.artifacts, PlaceNames, (p: Place) => p.name,
      (p: Place) => p.aliases);
  }

  /** Continuities and works carry their names in their own rows. */
  ghost predicate RootNamesKept(t: Tables, x: Knowledge) {
    && t.continuities.Keys == x.continuities.Keys && t.works.Keys == x.works.Keys
    && (forall id :: id in x.continuities ==> t.continuities[id] == x.continuities[id].name)
    && (forall id :: id in x.works ==> t.works[id].title == x.works[id].title)
  }

  lemma RepresentedNames(t: Tables, x: Knowledge)
    requires Represents(t, x)
    ensures RootNamesKept(t, x)
  {
  }

  lemma NameIsStored(
    t: Tables, characters: map<Id, Text>, locations: map<Id, Text>, artifacts: map<Id, Text>, x: Knowledge,
    refs: set<EntityRef>, r: EntityRef)
    requires RootNamesKept(t, x) && r in refs && !r.kind.EpisodeKind?
    requires NamesKept(characters, IdsOf(refs, CharacterKind), CharacterNamesOf(x))
    requires NamesKept(locations, IdsOf(refs, LocationKind), PlaceNamesOf(x.locations))
    requires NamesKept(artifacts, IdsOf(refs, ArtifactKind), PlaceNamesOf(x.artifacts))
    ensures NameStored(t, characters, locations, artifacts, r) <==> x.Has(r)
    ensures x.Has(r) ==> StoredName(t, characters, locations, artifacts, r) == NameOf(x, r)
  {
    match r.kind
    case CharacterKind => NameKept(characters, refs, CharacterNamesOf(x), r);
    case LocationKind => NameKept(locations, refs, PlaceNamesOf(x.locations), r);
    case ArtifactKind => NameKept(artifacts, refs, PlaceNamesOf(x.artifacts), r);
    case _ => {
    }
  }

  lemma NameKept(names: map<Id, Text>, refs: set<EntityRef>, stored: map<Id, Text>, r: EntityRef)
    requires NamesKept(names, IdsOf(refs, r.kind), stored) && r in refs
    ensures r.id in names <==> r.id in stored
    ensures r.id in names ==> names[r.id] == stored[r.id]
  {
    assert r == EntityRef(r.kind, r.id);
  }

  predicate NameStored(
    t: Tables, characters: map<Id, Text>, locations: map<Id, Text>, artifacts: map<Id, Text>, r: EntityRef)
  {
    match r.kind
    case ContinuityKind => r.id in t.continuities
    case WorkKind => r.id in t.works
    case EpisodeKind => false
    case CharacterKind => r.id in characters
    case LocationKind => r.id in locations
    case ArtifactKind => r.id in artifacts
  }

  function StoredName(
    t: Tables, characters: map<Id, Text>, locations: map<Id, Text>, artifacts: map<Id, Text>, r: EntityRef): Text
    requires NameStored(t, characters, locations, artifacts, r)
  {
    match r.kind
    case ContinuityKind => t.continuities[r.id]
    case WorkKind => t.works[r.id].title
    case CharacterKind => characters[r.id]
    case LocationKind => locations[r.id]
    case ArtifactKind => artifacts[r.id]
  }
}
