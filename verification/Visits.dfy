/** The order in which the integrity check visits a set, and thereby reports its violations. */
module Visits {
  import opened Ordering
  import opened Models
  import opened IntegrityRules

  /** Where the check stands: phase, entity, and the place within the entity down to the test made there. */
  datatype Spot = Spot(phase: nat, id: Id, section: nat, item: nat, part: nat, position: nat, step: nat)

  predicate Within(a: Spot, b: Spot) {
    || a.section < b.section
    || (a.section == b.section &&
        (|| a.item < b.item
         || (a.item == b.item &&
             (|| a.part < b.part
              || (a.part == b.part &&
                  (a.position < b.position || (a.position == b.position && a.step < b.step)))))))
  }

  predicate Sooner(a: Spot, b: Spot) {
    a.phase < b.phase || (a.phase == b.phase && (Before(a.id, b.id) || (a.id == b.id && Within(a, b))))
  }

  lemma SoonerTransitive(a: Spot, b: Spot, c: Spot)
    requires Sooner(a, b) && Sooner(b, c)
    ensures Sooner(a, c)
  {
    if Before(a.id, b.id) && Before(b.id, c.id) {
      BeforeTransitive(a.id, b.id, c.id);
    }
  }

  lemma SoonerAsymmetric(a: Spot, b: Spot)
    requires Sooner(a, b)
    ensures !Sooner(b, a)
  {
    BeforeIrreflexive(a.id);
    if Before(a.id, b.id) {
      BeforeAsymmetric(a.id, b.id);
    } else if Before(b.id, a.id) {
      BeforeAsymmetric(b.id, a.id);
    }
  }

  // ---------------------------------------------------------------- where a violation is found

  const FILM_PHASE := 3

  function PhaseOf(kind: EntityKind): (phase: nat)
    ensures phase != FILM_PHASE
  {
    match kind
    case ContinuityKind => 0
    case WorkKind => 1
    case EpisodeKind => 2
    case CharacterKind => 4
    case LocationKind => 5
    case ArtifactKind => 6
  }

  function ListSection(field: Field): nat {
    match field
    case Continuities => 2
    case Characters => 3
    case Locations => 4
    case Artifacts => 5
    case Residents => 6
    case Creators => 7
  }

  const INTERACTIONS := 8
  const VERSIONS := 9
  const RELATIONSHIPS := 10
  const OWN_SOURCES := 11
  const NAMES := 12
  const ENTITY_END := 13

  /** The sections of an entity in the order of the check; within one, an item after another. */
  function Start(owner: EntityRef, section: nat, item: nat): Spot {
    Spot(PhaseOf(owner.kind), owner.id, section, item, 0, 0, 0)
  }

  function PathSpot(owner: EntityRef, path: Path): Spot {
    match path
    case WorkContinuity => Start(owner, 0, 0)
    case EpisodeWork => Start(owner, 0, 0)
    case EpisodeNumber => Start(owner, 1, 0)
    case Item(field, i) => Start(owner, ListSection(field), i)
    case SourceEpisode(OfInteraction(i), j) => Start(owner, INTERACTIONS, i).(position := j)
    case InteractionFrom(i) => Start(owner, INTERACTIONS, i).(part := 1)
    case InteractionTo(i) => Start(owner, INTERACTIONS, i).(part := 2)
    case InteractionAt(i) => Start(owner, INTERACTIONS, i).(part := 3)
    case VersionContinuity(i, j) => Start(owner, VERSIONS, i).(position := j)
    case SourceEpisode(OfVersion(i), j) => Start(owner, VERSIONS, i).(part := 1, position := j)
    case SourceEpisode(OfRelationship(i), j) => Start(owner, RELATIONSHIPS, i).(position := j)
    case RelationshipTo(i) => Start(owner, RELATIONSHIPS, i).(part := 1)
    case RelationshipContinuity(i, j) => Start(owner, RELATIONSHIPS, i).(part := 2, position := j)
    case RelationshipAt(i) => Start(owner, RELATIONSHIPS, i).(part := 3)
    case SourceEpisode(Own, j) => Start(owner, OWN_SOURCES, 0).(position := j)
    case NameAt(i) => Start(owner, NAMES, i)
  }

  const FILMS := Spot(FILM_PHASE, "", 0, 0, 0, 0, 0)

  /** At one path the reference is followed before a rule is tested; films come after all episodes. */
  function SpotOf(v: Violation): Spot {
    if v.code.FilmEpisodeCount? then FILMS
    else PathSpot(v.entity, v.path).(step := if v.code.UnknownReference? then 0 else 1)
  }

  // ---------------------------------------------------------------- the order of a report

  predicate OfWork(x: Knowledge, o: Id, work: Id) {
    o in x.episodes && x.episodes[o].work == work
  }

  /** Films come in the order of their first episodes, the episodes of one film in id order. */
  ghost predicate FilmSooner(x: Knowledge, a: Id, b: Id) {
    && a in x.episodes && b in x.episodes
    && var v, w := x.episodes[a].work, x.episodes[b].work;
       if v == w then Before(a, b) else exists o :: OfWork(x, o, v) && forall p :: OfWork(x, p, w) ==> Before(o, p)
  }

  lemma FilmSoonerAsymmetric(x: Knowledge, a: Id, b: Id)
    requires FilmSooner(x, a, b)
    ensures !FilmSooner(x, b, a)
  {
    var v, w := x.episodes[a].work, x.episodes[b].work;
    if v == w {
      BeforeAsymmetric(a, b);
    } else if FilmSooner(x, b, a) {
      var o :| OfWork(x, o, v) && forall p :: OfWork(x, p, w) ==> Before(o, p);
      var q :| OfWork(x, q, w) && forall p :: OfWork(x, p, v) ==> Before(q, p);
      BeforeAsymmetric(o, q);
    }
  }

  /** The check comes upon `v` before `w`. */
  ghost predicate Precedes(x: Knowledge, v: Violation, w: Violation) {
    || Sooner(SpotOf(v), SpotOf(w))
    || (v.code.FilmEpisodeCount? && w.code.FilmEpisodeCount? && FilmSooner(x, v.entity.id, w.entity.id))
  }

  lemma PrecedesAsymmetric(x: Knowledge, v: Violation, w: Violation)
    requires Precedes(x, v, w)
    ensures !Precedes(x, w, v)
  {
    if Sooner(SpotOf(v), SpotOf(w)) {
      SoonerAsymmetric(SpotOf(v), SpotOf(w));
    } else {
      FilmSoonerAsymmetric(x, v.entity.id, w.entity.id);
      BeforeIrreflexive("");
    }
  }

  /** The violations stand in the order in which the check comes upon them. */
  ghost predicate InVisitingOrder(x: Knowledge, violations: seq<Violation>) {
    forall i, j :: 0 <= i < j < |violations| ==> Precedes(x, violations[i], violations[j])
  }

  /** What is reported in visiting order is reported once. */
  lemma OrderedOnce(x: Knowledge, violations: seq<Violation>)
    requires InVisitingOrder(x, violations)
    ensures forall i, j :: 0 <= i < j < |violations| ==> violations[i] != violations[j]
  {
    forall i, j | 0 <= i < j < |violations| ensures violations[i] != violations[j] {
      PrecedesAsymmetric(x, violations[i], violations[j]);
    }
  }

  lemma SameFirst(x: Knowledge, a: seq<Violation>, b: seq<Violation>)
    requires InVisitingOrder(x, a) && InVisitingOrder(x, b) && (forall v :: v in a <==> v in b) && a != []
    ensures b != [] && a[0] == b[0]
  {
    assert a[0] in b;
    var k :| 0 <= k < |b| && b[k] == a[0];
    assert b[0] in a;
    var m :| 0 <= m < |a| && a[m] == b[0];
    if k > 0 && m > 0 {
      PrecedesAsymmetric(x, a[0], b[0]);
    }
  }

  /** A set has one report only: the violations and the visiting order fix the sequence. */
  lemma {:induction false} OneReport(x: Knowledge, a: seq<Violation>, b: seq<Violation>)
    requires InVisitingOrder(x, a) && InVisitingOrder(x, b) && forall v :: v in a <==> v in b
    ensures a == b
  {
    if a == [] {
      if b != [] {
        SameFirst(x, b, a);
      }
    } else {
      SameFirst(x, a, b);
      OrderedOnce(x, a);
      OrderedOnce(x, b);
      forall v ensures v in a[1..] <==> v in b[1..] {
        assert v in a[1..] <==> v in a && v != a[0];
        assert v in b[1..] <==> v in b && v != b[0];
      }
      OneReport(x, a[1..], b[1..]);
    }
  }
}
