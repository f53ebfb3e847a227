/** What an empty report means, and why the check of a package alone is never stricter. */
module IntegrityTheorems {
  import opened Ordering
  import opened Wrappers
  import opened Models
  import opened IntegrityRules

  // ---------------------------------------------------------------- consistency, pair by pair

  ghost predicate SourcesKnown(x: Knowledge, sources: seq<SourceRef>) {
    forall s :: s in sources && s.FromEpisode? ==> s.episode in x.episodes
  }

  ghost predicate AllIn<T>(ids: seq<Id>, index: map<Id, T>) {
    forall i :: i in ids ==> i in index
  }

  ghost predicate ReferencesClosed(x: Knowledge) {
    && (forall w :: w in x.works ==> x.works[w].continuity in x.continuities)
    && (forall e :: e in x.episodes ==> EpisodeClosed(x, x.episodes[e]))
    && (forall c :: c in x.characters ==> CharacterClosed(x, x.characters[c]))
    && (forall p :: p in x.locations ==> PlaceClosed(x, x.locations[p]))
    && (forall p :: p in x.artifacts ==> PlaceClosed(x, x.artifacts[p]))
  }

  ghost predicate EpisodeClosed(x: Knowledge, e: Episode) {
    && e.work in x.works
    && AllIn(e.characters, x.characters) && AllIn(e.locations, x.locations) && AllIn(e.artifacts, x.artifacts)
    && (forall i :: i in e.interactions ==> SourcesKnown(x, i.sources))
  }

  ghost predicate CharacterClosed(x: Knowledge, c: Character) {
    && (forall v :: v in c.versions ==> AllIn(v.continuities, x.continuities) && SourcesKnown(x, v.sources))
    && (forall r :: r in c.relationships ==>
          r.to in x.characters && AllIn(r.continuities, x.continuities) && SourcesKnown(x, r.sources))
    && SourcesKnown(x, c.sources)
  }

  ghost predicate PlaceClosed(x: Knowledge, p: Place) {
    AllIn(p.continuities, x.continuities) && AllIn(p.members, x.characters) && SourcesKnown(x, p.sources)
  }

  ghost predicate EpisodesConsistent(x: Knowledge) {
    && (forall a, b :: a in x.episodes && b in x.episodes && a != b ==> !SameNumber(x.episodes[a], x.episodes[b]))
    && (forall a, b ::
          (a in x.episodes && b in x.episodes && a != b && x.episodes[a].work == x.episodes[b].work
           && x.episodes[a].work in x.works) ==> !x.works[x.episodes[a].work].medium.Film?)
    && (forall e :: e in x.episodes ==> ParticipantsFit(x, x.episodes[e]) && InteractionsConsistent(x.episodes[e]))
  }

  ghost predicate ParticipantsFit(x: Knowledge, e: Episode) {
    e.work in x.works ==>
      var continuity := x.works[e.work].continuity;
      && (forall c :: c in e.characters && c in x.characters ==> continuity in VersionContinuities(x.characters[c]))
      && (forall p :: p in e.locations && p in x.locations ==> continuity in x.locations[p].continuities)
      && (forall p :: p in e.artifacts && p in x.artifacts ==> continuity in x.artifacts[p].continuities)
  }

  ghost predicate InteractionsConsistent(e: Episode) {
    && (forall i :: i in e.interactions ==> i.from != i.to && i.from in e.characters && i.to in e.characters)
    && (forall i, j ::
      0 <= i < j < |e.interactions| ==> !SameInteraction(e.interactions[i], e.interactions[j]))
  }

  /** Two slots, of two characters or of one, unless they are the same slot. */
  predicate Apart(a: Id, i: nat, b: Id, j: nat) {
    a != b || i != j
  }

  ghost predicate CharactersConsistent(x: Knowledge) {
    && (forall c :: c in x.characters ==> VersionsDisjoint(x.characters[c]) && RelationshipsFit(x, x.characters[c]))
    && (forall a, b, i: nat, j: nat ::
          a in x.characters && b in x.characters && Apart(a, i, b, j) ==>
            !SameRelationship(x.characters[a], i, x.characters[b], j))
    && (forall a, b, i: nat, j: nat ::
          a in x.characters && b in x.characters && Apart(a, i, b, j) ==>
            !SharedName(x.characters[a], i, x.characters[b], j))
  }

  ghost predicate VersionsDisjoint(c: Character) {
    forall i: nat, j: nat, m: nat, n: nat ::
      VersionSlot(c, i, j) && VersionSlot(c, m, n) && (i != m || j != n) ==>
        c.versions[i].continuities[j] != c.versions[m].continuities[n]
  }

  ghost predicate RelationshipsFit(x: Knowledge, c: Character) {
    forall r :: r in c.relationships ==>
      && r.to != c.id
      && (forall k :: k in r.continuities ==>
            k in VersionContinuities(c) && (r.to in x.characters ==> k in VersionContinuities(x.characters[r.to])))
  }

  ghost predicate PlacesConsistent(x: Knowledge, places: map<Id, Place>) {
    && (forall p :: p in places ==> OwnNamesDistinct(places[p]) && MembersFit(x, places[p]))
    && (forall p, q ::
      p in places && q in places && p != q && Overlap(places[p].continuities, places[q].continuities) ==>
          !NamesMeet(places[p], places[q]))
  }

  ghost predicate OwnNamesDistinct(p: Place) {
    var names := NamesOf(p.name, p.aliases);
    forall i, j :: 0 <= i < j < |names| ==> !SameName(names[i], names[j])
  }

  ghost predicate MembersFit(x: Knowledge, p: Place) {
    forall m :: m in p.members && m in x.characters ==>
      exists k :: k in p.continuities && k in VersionContinuities(x.characters[m])
  }

  ghost predicate NamesMeet(p: Place, q: Place) {
    exists m, n :: m in NamesOf(p.name, p.aliases) && n in NamesOf(q.name, q.aliases) && SameName(m, n)
  }

  datatype Rule = ReferenceRule | EpisodeRule | CharacterRule | PlaceRule(kind: EntityKind)

  ghost predicate Holds(x: Knowledge, rule: Rule) {
    match rule
    case ReferenceRule => ReferencesClosed(x)
    case EpisodeRule => EpisodesConsistent(x)
    case CharacterRule => CharactersConsistent(x)
    case PlaceRule(kind) => PlacesConsistent(x, x.Places(kind))
  }

  /** A consistent set: every reference is closed and no two entities conflict. */
  ghost predicate Consistent(x: Knowledge) {
    forall rule :: Holds(x, rule)
  }

  /** No two entities conflict, though some may refer to entities outside the set. */
  ghost predicate ConflictFree(x: Knowledge) {
    forall rule: Rule :: !rule.ReferenceRule? ==> Holds(x, rule)
  }

  lemma RulesOneByOne(x: Knowledge)
    ensures ConflictFree(x) <==>
      EpisodesConsistent(x) && CharactersConsistent(x) && PlacesConsistent(x, x.locations)
        && PlacesConsistent(x, x.artifacts)
    ensures Consistent(x) <==> ReferencesClosed(x) && ConflictFree(x)
  {
    assert Holds(x, ReferenceRule) <==> ReferencesClosed(x);
    assert Holds(x, EpisodeRule) <==> EpisodesConsistent(x);
    assert Holds(x, CharacterRule) <==> CharactersConsistent(x);
    assert Holds(x, PlaceRule(LocationKind)) <==> PlacesConsistent(x, x.locations);
    assert Holds(x, PlaceRule(ArtifactKind)) <==> PlacesConsistent(x, x.artifacts);
  }

  ghost predicate Clean(x: Knowledge, complete: bool) {
    forall v :: !Flagged(x, complete, {}, v)
  }

  // ---------------------------------------------------------------- a clean report is consistency

  lemma EpisodesOfClean(x: Knowledge)
    requires x.Keyed() && forall v: Violation :: v.entity.kind.EpisodeKind? ==> !RuleFlag(x, v)
    ensures EpisodesConsistent(x)
  {
    forall e, path, code | e in x.episodes ensures !EpisodeFlag(x, x.episodes[e], path, code) {
      assert !RuleFlag(x, Violation(EntityRef(EpisodeKind, e), path, code));
    }
    forall a, b | a in x.episodes && b in x.episodes && a != b
      ensures !SameNumber(x.episodes[a], x.episodes[b])
    {
      BeforeTotal(a, b);
      assert !EpisodeFlag(x, x.episodes[a], EpisodeNumber, DuplicateEpisodeNumber);
      assert !EpisodeFlag(x, x.episodes[b], EpisodeNumber, DuplicateEpisodeNumber);
    }
    forall a, b | a in x.episodes && b in x.episodes && a != b && x.episodes[a].work == x.episodes[b].work
      && x.episodes[a].work in x.works
      ensures !x.works[x.episodes[a].work].medium.Film?
    {
      assert !EpisodeFlag(x, x.episodes[a], EpisodeWork, FilmEpisodeCount);
    }
    forall id | id in x.episodes ensures ParticipantsFit(x, x.episodes[id]) && InteractionsConsistent(x.episodes[id]) {
      EpisodeOfClean(x, x.episodes[id]);
    }
  }

  lemma EpisodeOfClean(x: Knowledge, e: Episode)
    requires forall path, code :: !EpisodeFlag(x, e, path, code)
    ensures ParticipantsFit(x, e) && InteractionsConsistent(e)
  {
    if e.work in x.works {
      var continuity := x.works[e.work].continuity;
      forall i: nat, field | OutsideCanon(x, e, field, i, continuity) ensures false {
        assert EpisodeFlag(x, e, Item(field, i), ContinuityMismatch);
      }
      forall c | c in e.characters && c in x.characters ensures continuity in VersionContinuities(x.characters[c]) {
        var i :| 0 <= i < |e.characters| && e.characters[i] == c;
        assert !OutsideCanon(x, e, Characters, i, continuity);
      }
      forall p | p in e.locations && p in x.locations ensures continuity in x.locations[p].continuities {
        var i :| 0 <= i < |e.locations| && e.locations[i] == p;
        assert !OutsideCanon(x, e, Locations, i, continuity);
      }
      forall p | p in e.artifacts && p in x.artifacts ensures continuity in x.artifacts[p].continuities {
        var i :| 0 <= i < |e.artifacts| && e.artifacts[i] == p;
        assert !OutsideCanon(x, e, Artifacts, i, continuity);
      }
    }
    forall i | i in e.interactions ensures i.from != i.to && i.from in e.characters && i.to in e.characters {
      var n :| 0 <= n < |e.interactions| && e.interactions[n] == i;
      assert !EpisodeFlag(x, e, InteractionTo(n), SelfReference);
      assert !EpisodeFlag(x, e, InteractionFrom(n), InteractionParticipant);
      assert !EpisodeFlag(x, e, InteractionTo(n), InteractionParticipant);
    }
    forall i, j | 0 <= i < j < |e.interactions|
      ensures !SameInteraction(e.interactions[i], e.interactions[j])
    {
      assert e.interactions[i] in e.interactions && e.interactions[j] in e.interactions;
      assert !EpisodeFlag(x, e, InteractionAt(j), DuplicateInteraction);
    }
  }

  lemma EpisodeCleanIfConsistent(x: Knowledge, e: Episode, path: Path, code: Code)
    requires ParticipantsFit(x, e) && InteractionsConsistent(e)
    requires !code.DuplicateEpisodeNumber? && !code.FilmEpisodeCount?
    ensures !EpisodeFlag(x, e, path, code)
  {
  }

  lemma EpisodesCleanIfConsistent(x: Knowledge, e: Id, path: Path, code: Code)
    requires x.Keyed() && EpisodesConsistent(x) && e in x.episodes
    ensures !EpisodeFlag(x, x.episodes[e], path, code)
  {
    match code {
      case DuplicateEpisodeNumber =>
        if o :| o in x.episodes && Before(o, e) && SameNumber(x.episodes[o], x.episodes[e]) {
          BeforeIrreflexive(e);
        }
      case FilmEpisodeCount =>
      case _ =>
        EpisodeCleanIfConsistent(x, x.episodes[e], path, code);
    }
  }

  lemma CharactersOfClean(x: Knowledge)
    requires x.Keyed() && forall v: Violation :: v.entity.kind.CharacterKind? ==> !RuleFlag(x, v)
    ensures CharactersConsistent(x)
  {
    forall c, path, code | c in x.characters ensures !CharacterFlag(x, x.characters[c], path, code) {
      assert !RuleFlag(x, Violation(EntityRef(CharacterKind, c), path, code));
    }
    forall c | c in x.characters ensures VersionsDisjoint(x.characters[c]) && RelationshipsFit(x, x.characters[c]) {
      CharacterOfClean(x, x.characters[c]);
    }
    forall a, b, i: nat, j: nat | a in x.characters && b in x.characters && Apart(a, i, b, j)
      ensures !SameRelationship(x.characters[a], i, x.characters[b], j)
      ensures !SharedName(x.characters[a], i, x.characters[b], j)
    {
      BeforeTotal(a, b);
      if Earlier(a, i, b, j) {
        assert !CharacterFlag(x, x.characters[b], RelationshipAt(j), DuplicateRelationship);
        assert !CharacterFlag(x, x.characters[b], NameAt(j), DuplicateName);
      } else {
        assert Earlier(b, j, a, i);
        assert !CharacterFlag(x, x.characters[a], RelationshipAt(i), DuplicateRelationship);
        assert !CharacterFlag(x, x.characters[a], NameAt(i), DuplicateName);
      }
    }
  }

  lemma CharacterOfClean(x: Knowledge, c: Character)
    requires forall path, code :: !CharacterFlag(x, c, path, code)
    ensures VersionsDisjoint(c) && RelationshipsFit(x, c)
  {
    forall i: nat, j: nat, m: nat, n: nat | VersionSlot(c, i, j) && VersionSlot(c, m, n) && (i != m || j != n)
      ensures c.versions[i].continuities[j] != c.versions[m].continuities[n]
    {
      assert !CharacterFlag(x, c, VersionContinuity(i, j), OverlappingVersions);
      assert !CharacterFlag(x, c, VersionContinuity(m, n), OverlappingVersions);
    }
    forall r | r in c.relationships
      ensures r.to != c.id
      ensures forall k :: k in r.continuities ==>
        k in VersionContinuities(c) && (r.to in x.characters ==> k in VersionContinuities(x.characters[r.to]))
    {
      var i :| 0 <= i < |c.relationships| && c.relationships[i] == r;
      assert !CharacterFlag(x, c, RelationshipTo(i), SelfReference);
      forall k | k in r.continuities
        ensures k in VersionContinuities(c) && (r.to in x.characters ==> k in VersionContinuities(x.characters[r.to]))
      {
        var j :| 0 <= j < |r.continuities| && r.continuities[j] == k;
        assert !CharacterFlag(x, c, RelationshipContinuity(i, j), ContinuityMismatch);
      }
    }
  }

  lemma CharactersCleanIfConsistent(x: Knowledge, c: Id, path: Path, code: Code)
    requires x.Keyed() && CharactersConsistent(x) && c in x.characters
    ensures !CharacterFlag(x, x.characters[c], path, code)
  {
    BeforeIrreflexive(c);
    match code {
      case OverlappingVersions =>
        assert VersionsDisjoint(x.characters[c]);
      case DuplicateRelationship =>
        if path.RelationshipAt? {
          forall o, j: nat | o in x.characters && Earlier(o, j, c, path.position)
            ensures !SameRelationship(x.characters[o], j, x.characters[c], path.position)
          {
            assert Apart(o, j, c, path.position);
          }
        }
      case DuplicateName =>
        if path.NameAt? {
          forall o, j: nat | o in x.characters && Earlier(o, j, c, path.position)
            ensures !SharedName(x.characters[o], j, x.characters[c], path.position)
          {
            assert Apart(o, j, c, path.position);
          }
        }
      case _ =>
        assert RelationshipsFit(x, x.characters[c]);
    }
  }

  lemma PlacesOfClean(x: Knowledge, kind: EntityKind)
    requires x.Keyed() && (kind.LocationKind? || kind.ArtifactKind?)
    requires forall v: Violation :: v.entity.kind == kind ==> !RuleFlag(x, v)
    ensures PlacesConsistent(x, x.Places(kind))
  {
    var places := x.Places(kind);
    forall p, path, code | p in places ensures !PlaceFlag(x, kind, places[p], path, code) {
      assert !RuleFlag(x, Violation(EntityRef(kind, p), path, code));
    }
    forall p | p in places ensures OwnNamesDistinct(places[p]) && MembersFit(x, places[p]) {
      var names := NamesOf(places[p].name, places[p].aliases);
      forall i, j | 0 <= i < j < |names| ensures !SameName(names[i], names[j]) {
        assert !PlaceFlag(x, kind, places[p], NameAt(j), DuplicateName);
      }
      forall m | m in places[p].members && m in x.characters
        ensures exists k :: k in places[p].continuities && k in VersionContinuities(x.characters[m])
      {
        var i :| 0 <= i < |places[p].members| && places[p].members[i] == m;
        assert !PlaceFlag(x, kind, places[p], Item(MemberField(kind), i), ContinuityMismatch);
        assert !Elsewhere(x, places[p], i);
      }
    }
    forall p, q | p in places && q in places && p != q && Overlap(places[p].continuities, places[q].continuities)
      ensures !NamesMeet(places[p], places[q])
    {
      if NamesMeet(places[p], places[q]) {
        BeforeTotal(p, q);
        if Before(p, q) { LaterPlaceFlagged(x, kind, p, q); } else { LaterPlaceFlagged(x, kind, q, p); }
      }
    }
  }

  lemma LaterPlaceFlagged(x: Knowledge, kind: EntityKind, p: Id, q: Id)
    requires x.Keyed() && p in x.Places(kind) && q in x.Places(kind) && Before(p, q)
    requires exists k :: k in x.Places(kind)[p].continuities && k in x.Places(kind)[q].continuities
    requires exists m, n ::
      m in NamesOf(x.Places(kind)[p].name, x.Places(kind)[p].aliases)
      && n in NamesOf(x.Places(kind)[q].name, x.Places(kind)[q].aliases) && SameName(m, n)
    ensures exists i: nat :: PlaceFlag(x, kind, x.Places(kind)[q], NameAt(i), DuplicateName)
  {
    var names := NamesOf(x.Places(kind)[q].name, x.Places(kind)[q].aliases);
    var m, n :| m in NamesOf(x.Places(kind)[p].name, x.Places(kind)[p].aliases) && n in names && SameName(m, n);
    var i :| 0 <= i < |names| && names[i] == n;
    assert HasName(x.Places(kind)[p], NormalizeName(names[i]));
    assert PlaceFlag(x, kind, x.Places(kind)[q], NameAt(i), DuplicateName);
  }

  lemma PlacesCleanIfConsistent(x: Knowledge, kind: EntityKind, p: Id, path: Path, code: Code)
    requires x.Keyed() && PlacesConsistent(x, x.Places(kind)) && p in x.Places(kind)
    ensures !PlaceFlag(x, kind, x.Places(kind)[p], path, code)
  {
    var place := x.Places(kind)[p];
    assert OwnNamesDistinct(place) && MembersFit(x, place);
    BeforeIrreflexive(p);
    match code {
      case DuplicateName =>
        if path.NameAt? && path.position < |NamesOf(place.name, place.aliases)| {
          var name := NamesOf(place.name, place.aliases)[path.position];
          forall o | o in x.Places(kind) && Before(o, place.id)
            && Overlap(x.Places(kind)[o].continuities, place.continuities)
            ensures !HasName(x.Places(kind)[o], NormalizeName(name))
          {
            assert !NamesMeet(x.Places(kind)[o], place);
            assert name in NamesOf(place.name, place.aliases);
          }
        }
      case _ =>
    }
  }

  // ---------------------------------------------------------------- references

  lemma AtCloses<T>(kind: EntityKind, ids: seq<Id>, index: map<Id, T>)
    ensures AllIn(ids, index) <==> forall i: nat :: At(kind, ids, i).Some? ==> At(kind, ids, i).value.id in index
  {
    if forall i: nat :: At(kind, ids, i).Some? ==> At(kind, ids, i).value.id in index {
      forall id | id in ids ensures id in index {
        var i :| 0 <= i < |ids| && ids[i] == id;
        assert At(kind, ids, i).Some?;
      }
    }
  }

  lemma SourcesClose(x: Knowledge, sources: seq<SourceRef>)
    ensures SourcesKnown(x, sources) <==> forall i: nat ::
      SourceAt(sources, i).Some? ==> SourceAt(sources, i).value.id in x.episodes
  {
    if forall i: nat :: SourceAt(sources, i).Some? ==> SourceAt(sources, i).value.id in x.episodes {
      forall s | s in sources && s.FromEpisode? ensures s.episode in x.episodes {
        var i :| 0 <= i < |sources| && sources[i] == s;
        assert SourceAt(sources, i).Some?;
      }
    }
  }

  ghost predicate Resolves(x: Knowledge, r: Option<EntityRef>) {
    r.Some? ==> x.Has(r.value)
  }

  lemma EpisodeCloses(x: Knowledge, e: Episode)
    ensures EpisodeClosed(x, e) <==> forall path :: Resolves(x, EpisodeRef(e, path))
  {
    AtCloses(CharacterKind, e.characters, x.characters);
    AtCloses(LocationKind, e.locations, x.locations);
    AtCloses(ArtifactKind, e.artifacts, x.artifacts);
    forall i: nat | i < |e.interactions|
      ensures SourcesKnown(x, e.interactions[i].sources) <==>
        forall j: nat :: Resolves(x, EpisodeRef(e, SourceEpisode(OfInteraction(i), j)))
    {
      SourcesClose(x, e.interactions[i].sources);
      assert forall j: nat ::
        EpisodeRef(e, SourceEpisode(OfInteraction(i), j)) == SourceAt(e.interactions[i].sources, j);
    }
    if forall path :: Resolves(x, EpisodeRef(e, path)) {
      assert Resolves(x, EpisodeRef(e, EpisodeWork));
      forall i: nat
        ensures Resolves(x, At(CharacterKind, e.characters, i))
        ensures Resolves(x, At(LocationKind, e.locations, i))
        ensures Resolves(x, At(ArtifactKind, e.artifacts, i))
      {
        assert Resolves(x, EpisodeRef(e, Item(Characters, i)));
        assert Resolves(x, EpisodeRef(e, Item(Locations, i)));
        assert Resolves(x, EpisodeRef(e, Item(Artifacts, i)));
      }
    }
  }

  lemma VersionCloses(x: Knowledge, c: Character, i: nat)
    requires i < |c.versions|
    ensures AllIn(c.versions[i].continuities, x.continuities) && SourcesKnown(x, c.versions[i].sources) <==>
      forall j: nat ::
        Resolves(x, CharacterRef(c, VersionContinuity(i, j)))
          && Resolves(x, CharacterRef(c, SourceEpisode(OfVersion(i), j)))
  {
    AtCloses(ContinuityKind, c.versions[i].continuities, x.continuities);
    SourcesClose(x, c.versions[i].sources);
    assert forall j: nat ::
      CharacterRef(c, VersionContinuity(i, j)) == At(ContinuityKind, c.versions[i].continuities, j);
    assert forall j: nat :: CharacterRef(c, SourceEpisode(OfVersion(i), j)) == SourceAt(c.versions[i].sources, j);
  }

  lemma RelationshipCloses(x: Knowledge, c: Character, i: nat)
    requires i < |c.relationships| && c.relationships[i].to != c.id
    ensures
      var r := c.relationships[i];
      r.to in x.characters && AllIn(r.continuities, x.continuities) && SourcesKnown(x, r.sources) <==>
      && Resolves(x, CharacterRef(c, RelationshipTo(i)))
      && forall j: nat ::
           Resolves(x, CharacterRef(c, RelationshipContinuity(i, j)))
           && Resolves(x, CharacterRef(c, SourceEpisode(OfRelationship(i), j)))
  {
    var r := c.relationships[i];
    AtCloses(ContinuityKind, r.continuities, x.continuities);
    SourcesClose(x, r.sources);
    assert forall j: nat :: CharacterRef(c, RelationshipContinuity(i, j)) == At(ContinuityKind, r.continuities, j);
    assert forall j: nat :: CharacterRef(c, SourceEpisode(OfRelationship(i), j)) == SourceAt(r.sources, j);
  }

  lemma CharacterCloses(x: Knowledge, c: Character)
    requires forall r :: r in c.relationships ==> r.to != c.id
    ensures CharacterClosed(x, c) <==> forall path :: Resolves(x, CharacterRef(c, path))
  {
    SourcesClose(x, c.sources);
    assert forall j: nat :: CharacterRef(c, SourceEpisode(Own, j)) == SourceAt(c.sources, j);
    if CharacterClosed(x, c) {
      forall path ensures Resolves(x, CharacterRef(c, path)) {
        CharacterPathCloses(x, c, path);
      }
    }
    if forall path :: Resolves(x, CharacterRef(c, path)) {
      forall v | v in c.versions ensures AllIn(v.continuities, x.continuities) && SourcesKnown(x, v.sources) {
        var i :| 0 <= i < |c.versions| && c.versions[i] == v;
        VersionCloses(x, c, i);
      }
      forall r | r in c.relationships
        ensures r.to in x.characters && AllIn(r.continuities, x.continuities) && SourcesKnown(x, r.sources)
      {
        var i :| 0 <= i < |c.relationships| && c.relationships[i] == r;
        RelationshipCloses(x, c, i);
      }
    }
  }

  lemma CharacterPathCloses(x: Knowledge, c: Character, path: Path)
    requires CharacterClosed(x, c)
    ensures Resolves(x, CharacterRef(c, path))
  {
    if path.SourceEpisode? && path.holder.Own? {
      SourcesClose(x, c.sources);
    } else if path.SourceEpisode? && path.holder.OfVersion? && path.holder.version < |c.versions| {
      SourcesClose(x, c.versions[path.holder.version].sources);
    } else if path.SourceEpisode? && path.holder.OfRelationship? && path.holder.relationship < |c.relationships| {
      SourcesClose(x, c.relationships[path.holder.relationship].sources);
    }
  }

  lemma PlaceCloses(x: Knowledge, kind: EntityKind, p: Place)
    ensures PlaceClosed(x, p) <==> forall path :: Resolves(x, PlaceRef(kind, p, path))
  {
    SourcesClose(x, p.sources);
    AtCloses(ContinuityKind, p.continuities, x.continuities);
    AtCloses(CharacterKind, p.members, x.characters);
    assert forall j: nat :: PlaceRef(kind, p, Item(Continuities, j)) == At(ContinuityKind, p.continuities, j);
    assert forall j: nat :: PlaceRef(kind, p, Item(MemberField(kind), j)) == At(CharacterKind, p.members, j);
    assert forall j: nat :: PlaceRef(kind, p, SourceEpisode(Own, j)) == SourceAt(p.sources, j);
  }

  ghost predicate NoRuleFlag(x: Knowledge) {
    forall v :: !RuleFlag(x, v)
  }

  ghost predicate AllResolve(x: Knowledge) {
    forall owner, path :: Resolves(x, RefAt(x, owner, path))
  }

  lemma ReferencesClose(x: Knowledge)
    requires x.Keyed() && CharactersConsistent(x)
    ensures ReferencesClosed(x) <==> AllResolve(x)
  {
    forall e | e in x.episodes { EpisodeCloses(x, x.episodes[e]); }
    forall c | c in x.characters
      ensures CharacterClosed(x, x.characters[c]) <==> forall path :: Resolves(x, CharacterRef(x.characters[c], path))
    {
      assert RelationshipsFit(x, x.characters[c]);
      CharacterCloses(x, x.characters[c]);
    }
    forall p | p in x.locations { PlaceCloses(x, LocationKind, x.locations[p]); }
    forall p | p in x.artifacts { PlaceCloses(x, ArtifactKind, x.artifacts[p]); }
    if AllResolve(x) {
      forall w | w in x.works ensures x.works[w].continuity in x.continuities {
        assert Resolves(x, RefAt(x, EntityRef(WorkKind, w), WorkContinuity));
      }
      forall e, path | e in x.episodes ensures Resolves(x, EpisodeRef(x.episodes[e], path)) {
        assert Resolves(x, RefAt(x, EntityRef(EpisodeKind, e), path));
      }
      forall c, path | c in x.characters ensures Resolves(x, CharacterRef(x.characters[c], path)) {
        assert Resolves(x, RefAt(x, EntityRef(CharacterKind, c), path));
      }
      forall p, path | p in x.locations ensures Resolves(x, PlaceRef(LocationKind, x.locations[p], path)) {
        assert Resolves(x, RefAt(x, EntityRef(LocationKind, p), path));
      }
      forall p, path | p in x.artifacts ensures Resolves(x, PlaceRef(ArtifactKind, x.artifacts[p], path)) {
        assert Resolves(x, RefAt(x, EntityRef(ArtifactKind, p), path));
      }
    }
  }

  lemma RulesClean(x: Knowledge)
    requires x.Keyed()
    ensures ConflictFree(x) <==> NoRuleFlag(x)
  {
    RulesOneByOne(x);
    if NoRuleFlag(x) {
      EpisodesOfClean(x);
      CharactersOfClean(x);
      PlacesOfClean(x, LocationKind);
      PlacesOfClean(x, ArtifactKind);
    }
    if ConflictFree(x) {
      forall v ensures !RuleFlag(x, v) {
        match v.entity.kind {
          case EpisodeKind =>
            if v.entity.id in x.episodes {
              EpisodesCleanIfConsistent(x, v.entity.id, v.path, v.code);
            }
          case CharacterKind =>
            if v.entity.id in x.characters {
              CharactersCleanIfConsistent(x, v.entity.id, v.path, v.code);
            }
          case LocationKind =>
            if v.entity.id in x.locations {
              PlacesCleanIfConsistent(x, LocationKind, v.entity.id, v.path, v.code);
            }
          case ArtifactKind =>
            if v.entity.id in x.artifacts {
              PlacesCleanIfConsistent(x, ArtifactKind, v.entity.id, v.path, v.code);
            }
          case _ =>
        }
      }
    }
  }

  /** A report of a complete set is empty when no rule is broken and every reference leads somewhere. */
  lemma CleanMeans(x: Knowledge)
    requires x.Keyed()
    ensures Clean(x, true) <==> NoRuleFlag(x) && AllResolve(x)
  {
    if Clean(x, true) {
      forall v ensures !RuleFlag(x, v) {
        assert !Flagged(x, true, {}, v);
      }
      forall owner, path ensures Resolves(x, RefAt(x, owner, path)) {
        assert !Flagged(x, true, {}, Violation(owner, path, UnknownReference));
      }
    }
    if NoRuleFlag(x) && AllResolve(x) {
      forall v ensures !Flagged(x, true, {}, v) {
        assert Resolves(x, RefAt(x, v.entity, v.path));
      }
    }
  }

  /** The report of a complete set is empty exactly when the set is consistent. */
  lemma CleanIsConsistent(x: Knowledge)
    requires x.Keyed()
    ensures Clean(x, true) <==> Consistent(x)
  {
    CleanMeans(x);
    RulesClean(x);
    RulesOneByOne(x);
    if ConflictFree(x) {
      ReferencesClose(x);
    }
  }

  /** Alone, a package is clean when no two of its entities conflict, whatever it refers to. */
  lemma PackageCleanIsConflictFree(x: Knowledge)
    requires x.Keyed()
    ensures Clean(x, false) <==> ConflictFree(x)
  {
    RulesClean(x);
    if Clean(x, false) {
      forall v ensures !RuleFlag(x, v) {
        assert !Flagged(x, false, {}, v);
      }
    }
  }

  // ---------------------------------------------------------------- a package inside a larger set

  /** `_merge`: entities of the package replace stored ones of the same type and id. */
  function Merged(stored: Knowledge, package: Knowledge): Knowledge {
    Knowledge(
      stored.continuities + package.continuities, stored.works + package.works, stored.episodes + package.episodes,
      stored.characters + package.characters, stored.locations + package.locations,
      stored.artifacts + package.artifacts)
  }

  lemma EpisodeFlagPersists(stored: Knowledge, package: Knowledge, e: Id, path: Path, code: Code)
    requires e in package.episodes && EpisodeFlag(package, package.episodes[e], path, code)
    ensures EpisodeFlag(Merged(stored, package), package.episodes[e], path, code)
  {
    var x, episode := Merged(stored, package), package.episodes[e];
    match code {
      case DuplicateEpisodeNumber =>
        var o :| o in package.episodes && Before(o, episode.id) && SameNumber(package.episodes[o], episode);
        assert o in x.episodes && x.episodes[o] == package.episodes[o];
      case FilmEpisodeCount =>
        var o :| o in package.episodes && o != episode.id && package.episodes[o].work == episode.work;
        assert o in x.episodes && x.episodes[o] == package.episodes[o];
      case DuplicateInteraction =>
      case _ =>
    }
  }

  lemma CharacterFlagPersists(stored: Knowledge, package: Knowledge, c: Id, path: Path, code: Code)
    requires c in package.characters && CharacterFlag(package, package.characters[c], path, code)
    ensures CharacterFlag(Merged(stored, package), package.characters[c], path, code)
  {
    var x, character := Merged(stored, package), package.characters[c];
    match code {
      case OverlappingVersions =>
      case DuplicateRelationship =>
        var o, j: nat :| o in package.characters && Earlier(o, j, character.id, path.position)
          && SameRelationship(package.characters[o], j, character, path.position);
        assert o in x.characters && x.characters[o] == package.characters[o];
      case DuplicateName =>
        var o, j: nat :| o in package.characters && Earlier(o, j, character.id, path.position)
          && SharedName(package.characters[o], j, character, path.position);
        assert o in x.characters && x.characters[o] == package.characters[o];
      case _ =>
    }
  }

  lemma PlaceFlagPersists(stored: Knowledge, package: Knowledge, kind: EntityKind, p: Id, path: Path, code: Code)
    requires p in package.Places(kind) && PlaceFlag(package, kind, package.Places(kind)[p], path, code)
    ensures PlaceFlag(Merged(stored, package), kind, package.Places(kind)[p], path, code)
  {
    var x, place := Merged(stored, package), package.Places(kind)[p];
    match code {
      case DuplicateName =>
        var names := NamesOf(place.name, place.aliases);
        if !exists j: nat :: j < path.position && SameName(names[j], names[path.position]) {
          var o :| o in package.Places(kind) && Before(o, place.id)
            && Overlap(package.Places(kind)[o].continuities, place.continuities)
            && HasName(package.Places(kind)[o], NormalizeName(names[path.position]));
          assert o in x.Places(kind) && x.Places(kind)[o] == package.Places(kind)[o];
        }
      case _ =>
    }
  }

  /**
   Whatever the check of a package alone reports, the full check of the merged set
   reports too, for every stored set and whatever was unverified: the same violation
   of the same entity at the same path.
   */
  lemma PrecheckNeverStricter(stored: Knowledge, package: Knowledge, unverified: set<EntityRef>, v: Violation)
    requires Flagged(package, false, unverified, v)
    ensures Flagged(Merged(stored, package), true, {}, v)
  {
    match v.entity.kind {
      case EpisodeKind => EpisodeFlagPersists(stored, package, v.entity.id, v.path, v.code);
      case CharacterKind => CharacterFlagPersists(stored, package, v.entity.id, v.path, v.code);
      case LocationKind => PlaceFlagPersists(stored, package, LocationKind, v.entity.id, v.path, v.code);
      case ArtifactKind => PlaceFlagPersists(stored, package, ArtifactKind, v.entity.id, v.path, v.code);
      case _ =>
    }
  }

  /** What the check of the package alone rejects makes every merged set inconsistent. */
  lemma FlaggedAloneIsInconsistent(stored: Knowledge, package: Knowledge, unverified: set<EntityRef>, v: Violation)
    requires stored.Keyed() && package.Keyed() && Flagged(package, false, unverified, v)
    ensures !Consistent(Merged(stored, package))
  {
    PrecheckNeverStricter(stored, package, unverified, v);
    CleanIsConsistent(Merged(stored, package));
    assert !Clean(Merged(stored, package), true);
  }
}
