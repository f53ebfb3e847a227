/** Entities of a knowledge set (`rag/models.py`). */
module Models {
  import opened Ordering
  import opened Wrappers

  /** `normalize_name` stays uninterpreted: nothing below depends on Unicode rules. */
  const NormalizeName: Text -> Text

  datatype EntityKind = ContinuityKind | WorkKind | EpisodeKind | CharacterKind | LocationKind | ArtifactKind

  datatype EntityRef = EntityRef(kind: EntityKind, id: Id)

  datatype Medium = Series | Film

  datatype RelationshipType = Friendship | Neighborhood | Affection | Mentor | Guardian {
    predicate Symmetric() {
      Friendship? || Neighborhood?
    }
  }

  datatype InteractionType = Conflict | Support | Empathy {
    predicate Symmetric() {
      Conflict?
    }
  }

  /** A source is an episode or a document, never both; the other fields are opaque. */
  datatype SourceRef = FromEpisode(episode: Id, details: Text) | FromDocument(details: Text)

  datatype Continuity = Continuity(id: Id, name: Text)

  datatype Work = Work(id: Id, title: Text, medium: Medium, continuity: Id)

  datatype Interaction = Interaction(
    from: Id, to: Id, kind: InteractionType, description: Text, sources: seq<SourceRef>)

  datatype Episode = Episode(
    id: Id, work: Id, season: Option<nat>, number: nat, title: Text,
    characters: seq<Id>, locations: seq<Id>, artifacts: seq<Id>, interactions: seq<Interaction>)

  datatype SpeechStyle = SpeechStyle(register: Text, markers: seq<Text>, constraints: seq<Text>)

  datatype Version = Version(
    continuities: seq<Id>, ageGroup: Text, traits: seq<Text>, speech: SpeechStyle,
    catchphrases: seq<Text>, sources: seq<SourceRef>)

  datatype Relationship = Relationship(
    to: Id, kind: RelationshipType, continuities: seq<Id>, description: Option<Text>, sources: seq<SourceRef>)

  datatype Character = Character(
    id: Id, name: Text, aliases: seq<Text>, species: Text,
    versions: seq<Version>, relationships: seq<Relationship>, sources: seq<SourceRef>)

  /** The fields in which a location and an artifact differ. */
  datatype PlaceDetails =
    | LocationDetails(description: Text)
    | ArtifactDetails(artifactType: Text, description: Text, capabilities: seq<Text>, limitations: seq<Text>)

  /** A location or an artifact; `members` are its residents or its creators. */
  datatype Place = Place(
    id: Id, name: Text, aliases: seq<Text>, details: PlaceDetails,
    continuities: seq<Id>, members: seq<Id>, sources: seq<SourceRef>)

  datatype KnowledgeSet = KnowledgeSet(
    continuities: seq<Continuity>, works: seq<Work>, episodes: seq<Episode>,
    characters: seq<Character>, locations: seq<Place>, artifacts: seq<Place>)

  const ContinuityId := (c: Continuity) => c.id
  const WorkId := (w: Work) => w.id
  const EpisodeId := (e: Episode) => e.id
  const CharacterId := (c: Character) => c.id
  const PlaceId := (p: Place) => p.id

  /** Ids are unique within a type: file names guarantee it in a package, entity keys in a store. */
  ghost predicate UniqueIds(k: KnowledgeSet) {
    && Distinct(k.continuities, ContinuityId)
    && Distinct(k.works, WorkId)
    && Distinct(k.episodes, EpisodeId)
    && Distinct(k.characters, CharacterId)
    && Distinct(k.locations, PlaceId)
    && Distinct(k.artifacts, PlaceId)
  }

  /** The items under their ids; of two with the same id the last one. */
  function ById<T>(items: seq<T>, id: T -> Id): map<Id, T> {
    if items == [] then map[]
    else ById(items[..|items| - 1], id)[id(items[|items| - 1]) := items[|items| - 1]]
  }

  lemma {:induction false} ByIdMembers<T>(items: seq<T>, id: T -> Id)
    ensures forall key :: key in ById(items, id) ==> ById(items, id)[key] in items && id(ById(items, id)[key]) == key
    ensures forall x :: x in items ==> id(x) in ById(items, id)
  {
    if items != [] {
      var n := |items| - 1;
      ByIdMembers(items[..n], id);
      assert items == items[..n] + [items[n]];
    }
  }

  /** With distinct ids, every item is found under its own. */
  lemma ByIdFinds<T>(items: seq<T>, id: T -> Id, x: T)
    requires Distinct(items, id) && x in items
    ensures id(x) in ById(items, id) && ById(items, id)[id(x)] == x
  {
    ByIdMembers(items, id);
    var y := ById(items, id)[id(x)];
    var i :| 0 <= i < |items| && items[i] == x;
    var j :| 0 <= j < |items| && items[j] == y;
  }

  function NamesOf(name: Text, aliases: seq<Text>): (r: seq<Text>) {
    [name] + aliases
  }

  function VersionContinuities(c: Character): (r: set<Id>)
    ensures forall k :: k in r <==> exists v :: v in c.versions && k in v.continuities
  {
    set v, x | v in c.versions && x in v.continuities :: x
  }
}
