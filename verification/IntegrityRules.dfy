/**
 What the integrity check promises, stated without its indexes: which violations a
 knowledge set has, one by one, and what it means for the set to be consistent.
 */
module IntegrityRules {
  import opened Ordering
  import opened Wrappers
  import opened Models

  datatype Code =
    | UnknownReference | DuplicateEpisodeNumber | FilmEpisodeCount | ContinuityMismatch | SelfReference
    | InteractionParticipant | DuplicateInteraction | OverlappingVersions | DuplicateRelationship | DuplicateName

  /** Lists of ids an entity holds directly. */
  datatype Field = Characters | Locations | Artifacts | Continuities | Residents | Creators

  datatype Holder = Own | OfVersion(version: nat) | OfRelationship(relationship: nat) | OfInteraction(interaction: nat)

  /** The field path of a violation, `versions[2].continuities[0]` being `VersionContinuity(2, 0)`. */
  datatype Path =
    | WorkContinuity
    | EpisodeWork
    | EpisodeNumber
    | Item(field: Field, position: nat)
    | InteractionAt(position: nat)
    | InteractionFrom(position: nat)
    | InteractionTo(position: nat)
    | VersionContinuity(version: nat, position: nat)
    | RelationshipAt(position: nat)
    | RelationshipTo(position: nat)
    | RelationshipContinuity(relationship: nat, position: nat)
    | NameAt(position: nat)
    | SourceEpisode(holder: Holder, position: nat)

  datatype Violation = Violation(entity: EntityRef, path: Path, code: Code)

  /** A reference met at `path` of `owner`. */
  datatype Ask = Ask(owner: EntityRef, path: Path, target: EntityRef)

  /** A knowledge set with each type indexed by id. */
  datatype Knowledge = Knowledge(
    continuities: map<Id, Continuity>, works: map<Id, Work>, episodes: map<Id, Episode>,
    characters: map<Id, Character>, locations: map<Id, Place>, artifacts: map<Id, Place>)
  {
    predicate Has(r: EntityRef) {
      match r.kind
      case ContinuityKind => r.id in continuities
      case WorkKind => r.id in works
      case EpisodeKind => r.id in episodes
      case CharacterKind => r.id in characters
      case LocationKind => r.id in locations
      case ArtifactKind => r.id in artifacts
    }

    /** Every entity is stored under its own id. */
    ghost predicate Keyed() {
      && (forall i :: i in continuities ==> continuities[i].id == i)
      && (forall i :: i in works ==> works[i].id == i)
      && (forall i :: i in episodes ==> episodes[i].id == i)
      && (forall i :: i in characters ==> characters[i].id == i)
      && (forall i :: i in locations ==> locations[i].id == i)
      && (forall i :: i in artifacts ==> artifacts[i].id == i)
    }

    function Places(kind: EntityKind): map<Id, Place> {
      if kind.LocationKind? then locations else artifacts
    }
  }

  function KnowledgeOf(k: KnowledgeSet): (x: Knowledge)
    ensures x.Keyed()
  {
    ByIdMembers(k.continuities, ContinuityId);
    ByIdMembers(k.works, WorkId);
    ByIdMembers(k.episodes, EpisodeId);
    ByIdMembers(k.characters, CharacterId);
    ByIdMembers(k.locations, PlaceId);
    ByIdMembers(k.artifacts, PlaceId);
    Knowledge(
      ById(k.continuities, ContinuityId), ById(k.works, WorkId), ById(k.episodes, EpisodeId),
      ById(k.characters, CharacterId), ById(k.locations, PlaceId), ById(k.artifacts, PlaceId))
  }

  // ---------------------------------------------------------------- references

  function SourceAt(sources: seq<SourceRef>, position: nat): Option<EntityRef> {
    if position < |sources| && sources[position].FromEpisode?
    then Some(EntityRef(EpisodeKind, sources[position].episode))
    else None
  }

  function At(kind: EntityKind, ids: seq<Id>, position: nat): Option<EntityRef> {
    if position < |ids| then Some(EntityRef(kind, ids[position])) else None
  }

  function WorkRef(w: Work, path: Path): Option<EntityRef> {
    if path.WorkContinuity? then Some(EntityRef(ContinuityKind, w.continuity)) else None
  }

  function EpisodeRef(e: Episode, path: Path): Option<EntityRef> {
    match path
    case EpisodeWork => Some(EntityRef(WorkKind, e.work))
    case Item(Characters, i) => At(CharacterKind, e.characters, i)
    case Item(Locations, i) => At(LocationKind, e.locations, i)
    case Item(Artifacts, i) => At(ArtifactKind, e.artifacts, i)
    case SourceEpisode(OfInteraction(j), i) =>
      if j < |e.interactions| then SourceAt(e.interactions[j].sources, i) else None
    case _ => None
  }

  /** A relationship of a character to itself is reported as such and its fields are not followed. */
  function CharacterRef(c: Character, path: Path): Option<EntityRef> {
    match path
    case VersionContinuity(i, j) =>
      if i < |c.versions| then At(ContinuityKind, c.versions[i].continuities, j) else None
    case RelationshipTo(i) =>
      if i < |c.relationships| && c.relationships[i].to != c.id
      then Some(EntityRef(CharacterKind, c.relationships[i].to)) else None
    case RelationshipContinuity(i, j) =>
      if i < |c.relationships| && c.relationships[i].to != c.id
      then At(ContinuityKind, c.relationships[i].continuities, j) else None
    case SourceEpisode(Own, i) => SourceAt(c.sources, i)
    case SourceEpisode(OfVersion(j), i) =>
      if j < |c.versions| then SourceAt(c.versions[j].sources, i) else None
    case SourceEpisode(OfRelationship(j), i) =>
      if j < |c.relationships| then SourceAt(c.relationships[j].sources, i) else None
    case _ => None
  }

  function MemberField(kind: EntityKind): Field {
    if kind.LocationKind? then Residents else Creators
  }

  function PlaceRef(kind: EntityKind, p: Place, path: Path): Option<EntityRef> {
    match path
    case Item(field, i) =>
      if field == Continuities then At(ContinuityKind, p.continuities, i)
      else if field == (if kind.LocationKind? then Residents else Creators) then At(CharacterKind, p.members, i)
      else None
    case SourceEpisode(Own, i) => SourceAt(p.sources, i)
    case _ => None
  }

  /** The reference the check follows at `path` of `owner`, if there is one. */
  function RefAt(x: Knowledge, owner: EntityRef, path: Path): Option<EntityRef> {
    match owner.kind
    case ContinuityKind => None
    case WorkKind => if owner.id in x.works then WorkRef(x.works[owner.id], path) else None
    case EpisodeKind => if owner.id in x.episodes then EpisodeRef(x.episodes[owner.id], path) else None
    case CharacterKind => if owner.id in x.characters then CharacterRef(x.characters[owner.id], path) else None
    case LocationKind => if owner.id in x.locations then PlaceRef(LocationKind, x.locations[owner.id], path) else None
    case ArtifactKind => if owner.id in x.artifacts then PlaceRef(ArtifactKind, x.artifacts[owner.id], path) else None
  }

  // ---------------------------------------------------------------- episodes

  predicate SameNumber(a: Episode, b: Episode) {
    a.work == b.work && a.season == b.season && a.number == b.number
  }

  /** The entity listed there exists, but not in the canon variant. */
  predicate OutsideCanon(x: Knowledge, e: Episode, field: Field, position: nat, continuity: Id) {
    match field
    case Characters =>
      && position < |e.characters| && e.characters[position] in x.characters
      && continuity !in VersionContinuities(x.characters[e.characters[position]])
    case Locations =>
      && position < |e.locations| && e.locations[position] in x.locations
      && continuity !in x.locations[e.locations[position]].continuities
    case Artifacts =>
      && position < |e.artifacts| && e.artifacts[position] in x.artifacts
      && continuity !in x.artifacts[e.artifacts[position]].continuities
    case _ => false
  }

  /** The same between the same two characters; a conflict may be told from either side. */
  predicate SameInteraction(i: Interaction, j: Interaction) {
    && i.kind == j.kind
    && ((i.from == j.from && i.to == j.to) || (i.kind.Conflict? && i.from == j.to && i.to == j.from))
  }

  ghost predicate RepeatsInteraction(e: Episode, position: nat) {
    && position < |e.interactions|
    && e.interactions[position].from != e.interactions[position].to
    && exists j: nat ::
         && j < position && e.interactions[j].from != e.interactions[j].to
         && SameInteraction(e.interactions[j], e.interactions[position])
  }

  ghost predicate EpisodeFlag(x: Knowledge, e: Episode, path: Path, code: Code) {
    match code
    case DuplicateEpisodeNumber =>
      path.EpisodeNumber? && exists o :: o in x.episodes && Before(o, e.id) && SameNumber(x.episodes[o], e)
    case FilmEpisodeCount =>
      && path.EpisodeWork? && e.work in x.works && x.works[e.work].medium.Film?
      && exists o :: o in x.episodes && o != e.id && x.episodes[o].work == e.work
    case ContinuityMismatch =>
      path.Item? && e.work in x.works && OutsideCanon(x, e, path.field, path.position, x.works[e.work].continuity)
    case SelfReference =>
      && path.InteractionTo? && path.position < |e.interactions|
      && e.interactions[path.position].from == e.interactions[path.position].to
    case InteractionParticipant =>
      && (path.InteractionFrom? || path.InteractionTo?) && path.position < |e.interactions|
      && var i := e.interactions[path.position];
         i.from != i.to && (if path.InteractionFrom? then i.from else i.to) !in e.characters
    case DuplicateInteraction => path.InteractionAt? && RepeatsInteraction(e, path.position)
    case _ => false
  }

  // ---------------------------------------------------------------- characters

  predicate VersionSlot(c: Character, i: nat, j: nat) {
    i < |c.versions| && j < |c.versions[i].continuities|
  }

  /** `r` of `a` and `s` of `b` tie the same two characters; friends and neighbours are so on either side. */
  predicate SameTie(a: Id, r: Relationship, b: Id, s: Relationship) {
    && r.kind == s.kind
    && ((a == b && r.to == s.to) || ((r.kind.Friendship? || r.kind.Neighborhood?) && a == s.to && r.to == b))
  }

  predicate Overlap(a: seq<Id>, b: seq<Id>) {
    exists c :: c in a && c in b
  }

  /** Relationship `i` of `a` and relationship `j` of `b` say the same in a common canon variant. */
  predicate SameRelationship(a: Character, i: nat, b: Character, j: nat) {
    && i < |a.relationships| && j < |b.relationships|
    && a.relationships[i].to != a.id && b.relationships[j].to != b.id
    && SameTie(a.id, a.relationships[i], b.id, b.relationships[j])
    && Overlap(a.relationships[i].continuities, b.relationships[j].continuities)
  }

  predicate SameName(a: Text, b: Text) {
    NormalizeName(a) == NormalizeName(b)
  }

  predicate SharedName(a: Character, i: nat, b: Character, j: nat) {
    var m, n := NamesOf(a.name, a.aliases), NamesOf(b.name, b.aliases);
    i < |m| && j < |n| && SameName(m[i], n[j])
  }

  /** Slot `j` of `o` is visited before slot `i` of `c`. */
  predicate Earlier(o: Id, j: nat, c: Id, i: nat) {
    Before(o, c) || (o == c && j < i)
  }

  /** The continuity does not belong to both characters of the relationship. */
  predicate UnsharedContinuity(x: Knowledge, c: Character, i: nat, j: nat) {
    && i < |c.relationships| && j < |c.relationships[i].continuities|
    && var r := c.relationships[i];
       && r.to != c.id
       && (|| r.continuities[j] !in VersionContinuities(c)
           || (r.to in x.characters && r.continuities[j] !in VersionContinuities(x.characters[r.to])))
  }

  ghost predicate CharacterFlag(x: Knowledge, c: Character, path: Path, code: Code) {
    match code
    case OverlappingVersions =>
      && path.VersionContinuity? && VersionSlot(c, path.version, path.position)
      && exists i: nat, j: nat ::
           && VersionSlot(c, i, j)
           && (i < path.version || (i == path.version && j < path.position))
           && c.versions[i].continuities[j] == c.versions[path.version].continuities[path.position]
    case SelfReference =>
      path.RelationshipTo? && path.position < |c.relationships| && c.relationships[path.position].to == c.id
    case ContinuityMismatch =>
      path.RelationshipContinuity? && UnsharedContinuity(x, c, path.relationship, path.position)
    case DuplicateRelationship =>
      && path.RelationshipAt?
      && exists o, j: nat ::
           o in x.characters && Earlier(o, j, c.id, path.position)
           && SameRelationship(x.characters[o], j, c, path.position)
    case DuplicateName =>
      && path.NameAt?
      && exists o, j: nat ::
           o in x.characters && Earlier(o, j, c.id, path.position)
           && SharedName(x.characters[o], j, c, path.position)
    case _ => false
  }

  // ---------------------------------------------------------------- places

  predicate Elsewhere(x: Knowledge, p: Place, position: nat) {
    && position < |p.members| && p.members[position] in x.characters
    && forall c :: c in p.continuities ==> c !in VersionContinuities(x.characters[p.members[position]])
  }

  /** Some name or alias normalizes to the key. */
  predicate Named(name: Text, aliases: seq<Text>, key: Text) {
    exists n :: n in NamesOf(name, aliases) && NormalizeName(n) == key
  }

  predicate HasName(p: Place, key: Text) {
    Named(p.name, p.aliases, key)
  }

  ghost predicate PlaceFlag(x: Knowledge, kind: EntityKind, p: Place, path: Path, code: Code) {
    match code
    case ContinuityMismatch =>
      && path.Item? && path.field == (if kind.LocationKind? then Residents else Creators)
      && Elsewhere(x, p, path.position)
    case DuplicateName =>
      && path.NameAt? && path.position < |NamesOf(p.name, p.aliases)|
      && var names := NamesOf(p.name, p.aliases);
         || (exists j: nat :: j < path.position && SameName(names[j], names[path.position]))
         || (exists o ::
               && o in x.Places(kind) && Before(o, p.id) && Overlap(x.Places(kind)[o].continuities, p.continuities)
               && HasName(x.Places(kind)[o], NormalizeName(names[path.position])))
    case _ => false
  }

  // ---------------------------------------------------------------- the report

  ghost predicate RuleFlag(x: Knowledge, v: Violation) {
    match v.entity.kind
    case ContinuityKind => false
    case WorkKind => false
    case EpisodeKind => v.entity.id in x.episodes && EpisodeFlag(x, x.episodes[v.entity.id], v.path, v.code)
    case CharacterKind => v.entity.id in x.characters && CharacterFlag(x, x.characters[v.entity.id], v.path, v.code)
    case LocationKind =>
      v.entity.id in x.locations && PlaceFlag(x, LocationKind, x.locations[v.entity.id], v.path, v.code)
    case ArtifactKind =>
      v.entity.id in x.artifacts && PlaceFlag(x, ArtifactKind, x.artifacts[v.entity.id], v.path, v.code)
  }

  predicate Missing(x: Knowledge, unverified: set<EntityRef>, r: EntityRef) {
    !x.Has(r) && r !in unverified
  }

  /** Exactly the violations of the set: of two conflicting entities the later one has it. */
  ghost predicate Flagged(x: Knowledge, complete: bool, unverified: set<EntityRef>, v: Violation) {
    if v.code.UnknownReference? then
      && complete
      && RefAt(x, v.entity, v.path).Some?
      && Missing(x, unverified, RefAt(x, v.entity, v.path).value)
    else
      RuleFlag(x, v)
  }

  /** Exactly the external references of an incomplete set. */
  ghost predicate External(x: Knowledge, complete: bool, unverified: set<EntityRef>, r: EntityRef) {
    !complete && Missing(x, unverified, r) && exists owner, path :: RefAt(x, owner, path) == Some(r)
  }
}
