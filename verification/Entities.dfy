/** Entities of all types together: `entity_ref`, `entities_of` and grouping by type. */
module Entities {
  import opened Ordering
  import opened Wrappers
  import opened Models
  import opened IntegrityRules
  import opened IntegrityTheorems

  datatype Entity =
    | OfContinuity(continuity: Continuity) | OfWork(work: Work) | OfEpisode(episode: Episode)
    | OfCharacter(character: Character) | OfLocation(location: Place) | OfArtifact(artifact: Place)
  {
    function Ref(): EntityRef {
      match this
      case OfContinuity(c) => EntityRef(ContinuityKind, c.id)
      case OfWork(w) => EntityRef(WorkKind, w.id)
      case OfEpisode(e) => EntityRef(EpisodeKind, e.id)
      case OfCharacter(c) => EntityRef(CharacterKind, c.id)
      case OfLocation(p) => EntityRef(LocationKind, p.id)
      case OfArtifact(p) => EntityRef(ArtifactKind, p.id)
    }
  }

  type EntityMap = map<EntityRef, Entity>

  const RefId := (e: Entity) => e.Ref().id

  /** Entities stored under their own type and id. */
  ghost predicate Keyed(m: EntityMap) {
    forall r :: r in m ==> m[r].Ref() == r
  }

  ghost predicate DistinctRefs(es: seq<Entity>) {
    forall i, j :: 0 <= i < j < |es| ==> es[i].Ref() != es[j].Ref()
  }

  /** The entities under their types and ids; of two with the same the last one. */
  function RefMap(es: seq<Entity>): EntityMap {
    if es == [] then map[]
    else RefMap(es[..|es| - 1])[es[|es| - 1].Ref() := es[|es| - 1]]
  }

  lemma {:induction false} RefMapMembers(es: seq<Entity>)
    ensures Keyed(RefMap(es))
    ensures forall r :: r in RefMap(es) ==> RefMap(es)[r] in es
    ensures forall e :: e in es ==> e.Ref() in RefMap(es)
  {
    if es != [] {
      var n := |es| - 1;
      RefMapMembers(es[..n]);
      assert es == es[..n] + [es[n]];
    }
  }

  lemma RefMapFinds(es: seq<Entity>, e: Entity)
    requires DistinctRefs(es) && e in es
    ensures e.Ref() in RefMap(es) && RefMap(es)[e.Ref()] == e
  {
    RefMapMembers(es);
    var other := RefMap(es)[e.Ref()];
    var i :| 0 <= i < |es| && es[i] == e;
    var j :| 0 <= j < |es| && es[j] == other;
  }

  function Wrap<T>(items: seq<T>, make: T -> Entity): (r: seq<Entity>)
    ensures |r| == |items| && forall i :: 0 <= i < |items| ==> r[i] == make(items[i])
  {
    seq(|items|, i requires 0 <= i < |items| => make(items[i]))
  }

  const MakeContinuity := (c: Continuity) => OfContinuity(c)
  const MakeWork := (w: Work) => OfWork(w)
  const MakeEpisode := (e: Episode) => OfEpisode(e)
  const MakeCharacter := (c: Character) => OfCharacter(c)
  const MakeLocation := (p: Place) => OfLocation(p)
  const MakeArtifact := (p: Place) => OfArtifact(p)

  /** Every entity of the set, in the order of the types. */
  function EntitiesOf(k: KnowledgeSet): seq<Entity> {
    Wrap(k.continuities, MakeContinuity) + Wrap(k.works, MakeWork) + Wrap(k.episodes, MakeEpisode)
    + Wrap(k.characters, MakeCharacter) + Wrap(k.locations, MakeLocation) + Wrap(k.artifacts, MakeArtifact)
  }

  function Only<T>(r: Option<T>): seq<T> {
    if r.Some? then [r.value] else []
  }

  /** The entities of one type, in order. */
  function Collect<T>(es: seq<Entity>, pick: Entity -> Option<T>): seq<T> {
    if es == [] then []
    else Collect(es[..|es| - 1], pick) + Only(pick(es[|es| - 1]))
  }

  lemma {:induction false} CollectMembers<T(!new)>(es: seq<Entity>, pick: Entity -> Option<T>)
    ensures forall t :: t in Collect(es, pick) <==> exists e :: e in es && pick(e) == Some(t)
  {
    if es != [] {
      var n := |es| - 1;
      CollectMembers(es[..n], pick);
      assert es == es[..n] + [es[n]];
    }
  }

  const PickContinuity := (e: Entity) => if e.OfContinuity? then Some(e.continuity) else None
  const PickWork := (e: Entity) => if e.OfWork? then Some(e.work) else None
  const PickEpisode := (e: Entity) => if e.OfEpisode? then Some(e.episode) else None
  const PickCharacter := (e: Entity) => if e.OfCharacter? then Some(e.character) else None
  const PickLocation := (e: Entity) => if e.OfLocation? then Some(e.location) else None
  const PickArtifact := (e: Entity) => if e.OfArtifact? then Some(e.artifact) else None

  function GroupOf(es: seq<Entity>): KnowledgeSet {
    KnowledgeSet(
      Collect(es, PickContinuity), Collect(es, PickWork), Collect(es, PickEpisode),
      Collect(es, PickCharacter), Collect(es, PickLocation), Collect(es, PickArtifact))
  }

  /** The loop that appends each entity to the list of its type. */
  method Group(es: seq<Entity>) returns (k: KnowledgeSet)
    ensures k == GroupOf(es)
  {
    k := KnowledgeSet([], [], [], [], [], []);
    for i := 0 to |es|
      invariant k == GroupOf(es[..i])
    {
      match es[i] {
        case OfContinuity(c) => k := k.(continuities := k.continuities + [c]);
        case OfWork(w) => k := k.(works := k.works + [w]);
        case OfEpisode(e) => k := k.(episodes := k.episodes + [e]);
        case OfCharacter(c) => k := k.(characters := k.characters + [c]);
        case OfLocation(p) => k := k.(locations := k.locations + [p]);
        case OfArtifact(p) => k := k.(artifacts := k.artifacts + [p]);
      }
      assert es[..i + 1][..i] == es[..i];
    }
    assert es[..|es|] == es;
  }

  /** `pick` takes out the entities of one type, `id` being their id. */
  ghost predicate Picks<T>(pick: Entity -> Option<T>, id: T -> Id, kind: EntityKind) {
    forall e :: (pick(e).Some? <==> e.Ref().kind == kind) && (pick(e).Some? ==> e.Ref().id == id(pick(e).value))
  }

  lemma PicksOfTypes()
    ensures Picks(PickContinuity, ContinuityId, ContinuityKind)
    ensures Picks(PickWork, WorkId, WorkKind)
    ensures Picks(PickEpisode, EpisodeId, EpisodeKind)
    ensures Picks(PickCharacter, CharacterId, CharacterKind)
    ensures Picks(PickLocation, PlaceId, LocationKind)
    ensures Picks(PickArtifact, PlaceId, ArtifactKind)
  {
  }

  function Slice<T>(m: EntityMap, kind: EntityKind, pick: Entity -> Option<T>): map<Id, T> {
    map r | r in m && r.kind == kind && pick(m[r]).Some? :: r.id := pick(m[r]).value
  }

  /** The index of each type, read off the entities. */
  function KnowledgeFrom(m: EntityMap): Knowledge {
    Knowledge(
      Slice(m, ContinuityKind, PickContinuity), Slice(m, WorkKind, PickWork), Slice(m, EpisodeKind, PickEpisode),
      Slice(m, CharacterKind, PickCharacter), Slice(m, LocationKind, PickLocation),
      Slice(m, ArtifactKind, PickArtifact))
  }

  lemma SliceFinds<T>(m: EntityMap, kind: EntityKind, pick: Entity -> Option<T>, id: T -> Id)
    requires Keyed(m) && Picks(pick, id, kind)
    ensures forall key :: key in Slice(m, kind, pick) <==> EntityRef(kind, key) in m
    ensures forall key :: key in Slice(m, kind, pick) ==>
      pick(m[EntityRef(kind, key)]) == Some(Slice(m, kind, pick)[key]) && id(Slice(m, kind, pick)[key]) == key
  {
    forall key ensures key in Slice(m, kind, pick) <==> EntityRef(kind, key) in m {
      if EntityRef(kind, key) in m {
        assert m[EntityRef(kind, key)].Ref() == EntityRef(kind, key);
      }
    }
    forall key | key in Slice(m, kind, pick)
      ensures pick(m[EntityRef(kind, key)]) == Some(Slice(m, kind, pick)[key]) && id(Slice(m, kind, pick)[key]) == key
    {
      assert m[EntityRef(kind, key)].Ref() == EntityRef(kind, key);
    }
  }

  lemma SliceFound<T>(m: EntityMap, kind: EntityKind, pick: Entity -> Option<T>, id: T -> Id, key: Id)
    requires Keyed(m) && Picks(pick, id, kind)
    ensures key in Slice(m, kind, pick) <==> EntityRef(kind, key) in m
    ensures key in Slice(m, kind, pick) ==> pick(m[EntityRef(kind, key)]) == Some(Slice(m, kind, pick)[key])
  {
    SliceFinds(m, kind, pick, id);
  }

  lemma SliceMerged<T>(a: EntityMap, b: EntityMap, kind: EntityKind, pick: Entity -> Option<T>, id: T -> Id)
    requires Keyed(a) && Keyed(b) && Picks(pick, id, kind)
    ensures Slice(a + b, kind, pick) == Slice(a, kind, pick) + Slice(b, kind, pick)
  {
    var x, y := Slice(a + b, kind, pick), Slice(a, kind, pick) + Slice(b, kind, pick);
    forall key ensures key in x <==> key in y ensures key in x ==> x[key] == y[key] {
      SliceFound(a, kind, pick, id, key);
      SliceFound(b, kind, pick, id, key);
      SliceFound(a + b, kind, pick, id, key);
    }
  }

  lemma KnowledgeFromHas(m: EntityMap, r: EntityRef)
    requires Keyed(m)
    ensures r in m <==> KnowledgeFrom(m).Has(r)
  {
    PicksOfTypes();
    assert r == EntityRef(r.kind, r.id);
    match r.kind {
      case ContinuityKind => SliceFinds(m, ContinuityKind, PickContinuity, ContinuityId);
      case WorkKind => SliceFinds(m, WorkKind, PickWork, WorkId);
      case EpisodeKind => SliceFinds(m, EpisodeKind, PickEpisode, EpisodeId);
      case CharacterKind => SliceFinds(m, CharacterKind, PickCharacter, CharacterId);
      case LocationKind => SliceFinds(m, LocationKind, PickLocation, PlaceId);
      case ArtifactKind => SliceFinds(m, ArtifactKind, PickArtifact, PlaceId);
    }
  }

  lemma KnowledgeFromKeyed(m: EntityMap)
    requires Keyed(m)
    ensures KnowledgeFrom(m).Keyed()
    ensures forall r :: r in m <==> KnowledgeFrom(m).Has(r)
  {
    forall r {
      KnowledgeFromHas(m, r);
    }
    var x := KnowledgeFrom(m);
    assert forall i :: i in x.continuities ==> x.continuities[i].id == i by {
      PicksOfTypes();
      SliceFinds(m, ContinuityKind, PickContinuity, ContinuityId);
    }
    assert forall i :: i in x.works ==> x.works[i].id == i by {
      PicksOfTypes();
      SliceFinds(m, WorkKind, PickWork, WorkId);
    }
    assert forall i :: i in x.episodes ==> x.episodes[i].id == i by {
      PicksOfTypes();
      SliceFinds(m, EpisodeKind, PickEpisode, EpisodeId);
    }
    assert forall i :: i in x.characters ==> x.characters[i].id == i by {
      PicksOfTypes();
      SliceFinds(m, CharacterKind, PickCharacter, CharacterId);
    }
    assert forall i :: i in x.locations ==> x.locations[i].id == i by {
      PicksOfTypes();
      SliceFinds(m, LocationKind, PickLocation, PlaceId);
    }
    assert forall i :: i in x.artifacts ==> x.artifacts[i].id == i by {
      PicksOfTypes();
      SliceFinds(m, ArtifactKind, PickArtifact, PlaceId);
    }
  }

  lemma MergedKnowledge(a: EntityMap, b: EntityMap)
    requires Keyed(a) && Keyed(b)
    ensures KnowledgeFrom(a + b) == Merged(KnowledgeFrom(a), KnowledgeFrom(b))
  {
    PicksOfTypes();
    SliceMerged(a, b, ContinuityKind, PickContinuity, ContinuityId);
    SliceMerged(a, b, WorkKind, PickWork, WorkId);
    SliceMerged(a, b, EpisodeKind, PickEpisode, EpisodeId);
    SliceMerged(a, b, CharacterKind, PickCharacter, CharacterId);
    SliceMerged(a, b, LocationKind, PickLocation, PlaceId);
    SliceMerged(a, b, ArtifactKind, PickArtifact, PlaceId);
  }

  /** Distinct entities give distinct items of each type. */
  lemma {:induction false} CollectDistinct<T(!new)>(
    es: seq<Entity>, pick: Entity -> Option<T>, id: T -> Id, kind: EntityKind)
    requires DistinctRefs(es) && Picks(pick, id, kind)
    ensures Distinct(Collect(es, pick), id)
  {
    if es != [] {
      var n := |es| - 1;
      CollectDistinct(es[..n], pick, id, kind);
      CollectMembers(es[..n], pick);
      var before := Collect(es[..n], pick);
      if pick(es[n]).Some? {
        forall i | 0 <= i < |before| ensures id(before[i]) != id(pick(es[n]).value) {
          assert before[i] in before;
          var e :| e in es[..n] && pick(e) == Some(before[i]);
          var j :| 0 <= j < n && es[j] == e;
          assert e.Ref() != es[n].Ref();
        }
      }
    }
  }

  lemma CollectFinds<T(!new)>(es: seq<Entity>, pick: Entity -> Option<T>, id: T -> Id, kind: EntityKind, key: Id)
    requires DistinctRefs(es) && Picks(pick, id, kind)
    ensures key in ById(Collect(es, pick), id) <==> EntityRef(kind, key) in RefMap(es)
    ensures key in ById(Collect(es, pick), id) ==>
      pick(RefMap(es)[EntityRef(kind, key)]) == Some(ById(Collect(es, pick), id)[key])
  {
    var items, m := Collect(es, pick), RefMap(es);
    var x := ById(items, id);
    CollectDistinct(es, pick, id, kind);
    CollectMembers(es, pick);
    RefMapMembers(es);
    ByIdMembers(items, id);
    if key in x {
      var e :| e in es && pick(e) == Some(x[key]);
      assert e.Ref() == EntityRef(kind, key);
      RefMapFinds(es, e);
    }
    if EntityRef(kind, key) in m {
      var e := m[EntityRef(kind, key)];
      assert e in es && e.Ref() == EntityRef(kind, key) && pick(e).Some?;
      ByIdFinds(items, id, pick(e).value);
    }
  }

  /** One type of a grouped set, indexed, is that type of the entity map. */
  lemma CollectIndexed<T(!new)>(es: seq<Entity>, pick: Entity -> Option<T>, id: T -> Id, kind: EntityKind)
    requires DistinctRefs(es) && Picks(pick, id, kind)
    ensures Distinct(Collect(es, pick), id)
    ensures ById(Collect(es, pick), id) == Slice(RefMap(es), kind, pick)
  {
    CollectDistinct(es, pick, id, kind);
    RefMapMembers(es);
    SliceFinds(RefMap(es), kind, pick, id);
    forall key {
      CollectFinds(es, pick, id, kind, key);
    }
  }

  /** Grouping by type and indexing each type says the same as the entity map. */
  lemma GroupKnowledge(es: seq<Entity>)
    requires DistinctRefs(es)
    ensures UniqueIds(GroupOf(es))
    ensures KnowledgeOf(GroupOf(es)) == KnowledgeFrom(RefMap(es))
  {
    PicksOfTypes();
    CollectIndexed(es, PickContinuity, ContinuityId, ContinuityKind);
    CollectIndexed(es, PickWork, WorkId, WorkKind);
    CollectIndexed(es, PickEpisode, EpisodeId, EpisodeKind);
    CollectIndexed(es, PickCharacter, CharacterId, CharacterKind);
    CollectIndexed(es, PickLocation, PlaceId, LocationKind);
    CollectIndexed(es, PickArtifact, PlaceId, ArtifactKind);
  }
}

/** Sorting, listing and regrouping of entities keeps them all and keeps them apart. */
module EntityLists {
  import opened Ordering
  import opened Wrappers
  import opened Models
  import opened Sequences
  import opened IntegrityRules
  import opened Entities

  lemma {:induction false} InsertKeepsApart(x: Entity, es: seq<Entity>)
    requires DistinctRefs(es) && forall y :: y in es ==> y.Ref() != x.Ref()
    ensures DistinctRefs(Insert(x, es, RefId))
  {
    if es != [] && Before(RefId(es[0]), RefId(x)) {
      var rest := es[1..];
      InsertKeepsApart(x, rest);
      var r := Insert(x, rest, RefId);
      forall y | y in r ensures y.Ref() != es[0].Ref() {
        assert y in multiset(r);
        if y in rest {
          var j :| 0 <= j < |rest| && rest[j] == y;
          assert es[j + 1] == y;
        }
      }
    }
  }

  lemma {:induction false} SortedKeepsApart(es: seq<Entity>)
    requires DistinctRefs(es)
    ensures DistinctRefs(Sorted(es, RefId))
  {
    if es != [] {
      var rest := es[1..];
      SortedKeepsApart(rest);
      SameMembers(Sorted(rest, RefId), rest);
      forall y | y in rest ensures y.Ref() != es[0].Ref() {
        var j :| 0 <= j < |rest| && rest[j] == y;
        assert es[j + 1] == y;
      }
      InsertKeepsApart(es[0], Sorted(rest, RefId));
    }
  }

  /** No later entity has a smaller id. */
  ghost predicate Rising(es: seq<Entity>) {
    forall i, j :: 0 <= i < j < |es| ==> !Before(RefId(es[j]), RefId(es[i]))
  }

  lemma {:induction false} InsertRises(x: Entity, es: seq<Entity>)
    requires Rising(es)
    ensures Rising(Insert(x, es, RefId))
  {
    if es != [] {
      if Before(RefId(es[0]), RefId(x)) {
        var rest := es[1..];
        InsertRises(x, rest);
        var r := Insert(x, rest, RefId);
        forall y | y in r ensures !Before(RefId(y), RefId(es[0])) {
          assert y in multiset(r);
          if y in rest {
            var j :| 0 <= j < |rest| && rest[j] == y;
            assert es[j + 1] == y;
          } else {
            BeforeAsymmetric(RefId(es[0]), RefId(x));
          }
        }
      } else {
        forall j | 0 <= j < |es| ensures !Before(RefId(es[j]), RefId(x)) {
          if Before(RefId(es[j]), RefId(x)) && j > 0 {
            BeforeTotal(RefId(es[0]), RefId(es[j]));
            if Before(RefId(es[0]), RefId(es[j])) {
              BeforeTransitive(RefId(es[0]), RefId(es[j]), RefId(x));
            }
          }
        }
      }
    }
  }

  lemma {:induction false} SortedRises(es: seq<Entity>)
    ensures Rising(Sorted(es, RefId))
  {
    if es != [] {
      SortedRises(es[1..]);
      InsertRises(es[0], Sorted(es[1..], RefId));
    }
  }

  lemma {:induction false} CollectRises<T(!new)>(
    es: seq<Entity>, pick: Entity -> Option<T>, id: T -> Id, kind: EntityKind)
    requires DistinctRefs(es) && Rising(es) && Picks(pick, id, kind)
    ensures Ascending(Collect(es, pick), id)
  {
    if es != [] {
      var n := |es| - 1;
      CollectRises(es[..n], pick, id, kind);
      CollectMembers(es[..n], pick);
      var before := Collect(es[..n], pick);
      if pick(es[n]).Some? {
        forall i | 0 <= i < |before| ensures Before(id(before[i]), id(pick(es[n]).value)) {
          assert before[i] in before;
          var e :| e in es[..n] && pick(e) == Some(before[i]);
          var j :| 0 <= j < n && es[j] == e;
          assert e.Ref() != es[n].Ref();
          BeforeTotal(RefId(e), RefId(es[n]));
        }
      }
    }
  }

  /** Each type in id order, as `read_all` promises. */
  ghost predicate InOrder(k: KnowledgeSet) {
    && Ascending(k.continuities, ContinuityId) && Ascending(k.works, WorkId) && Ascending(k.episodes, EpisodeId)
    && Ascending(k.characters, CharacterId) && Ascending(k.locations, PlaceId) && Ascending(k.artifacts, PlaceId)
  }

  lemma GroupRises(es: seq<Entity>)
    requires DistinctRefs(es) && Rising(es)
    ensures InOrder(GroupOf(es))
  {
    PicksOfTypes();
    CollectRises(es, PickContinuity, ContinuityId, ContinuityKind);
    CollectRises(es, PickWork, WorkId, WorkKind);
    CollectRises(es, PickEpisode, EpisodeId, EpisodeKind);
    CollectRises(es, PickCharacter, CharacterId, CharacterKind);
    CollectRises(es, PickLocation, PlaceId, LocationKind);
    CollectRises(es, PickArtifact, PlaceId, ArtifactKind);
  }

  lemma SameRefMap(a: seq<Entity>, m: EntityMap)
    requires DistinctRefs(a) && Keyed(m)
    requires forall e :: e in a <==> e.Ref() in m && m[e.Ref()] == e
    ensures RefMap(a) == m
  {
    RefMapMembers(a);
    forall r | r in RefMap(a) ensures r in m && m[r] == RefMap(a)[r] {
      var e := RefMap(a)[r];
      assert e in a && e.Ref() == r;
    }
    forall r | r in m ensures r in RefMap(a) {
      assert m[r] in a;
    }
  }

  /** The values of a map, in some order. */
  method Values(m: EntityMap) returns (es: seq<Entity>)
    requires Keyed(m)
    ensures DistinctRefs(es) && RefMap(es) == m && |es| == |m|
    ensures forall e :: e in es <==> e.Ref() in m && m[e.Ref()] == e
  {
    es := [];
    var rest := m.Keys;
    while rest != {}
      invariant rest <= m.Keys && DistinctRefs(es) && |es| + |rest| == |m|
      invariant forall e :: e in es <==> e.Ref() in m.Keys - rest && m[e.Ref()] == e
    {
      var r :| r in rest;
      es := es + [m[r]];
      rest := rest - {r};
    }
    SameRefMap(es, m);
  }

  // ---------------------------------------------------------------- a set and its entities

  lemma {:induction false} CollectAppend<T(!new)>(a: seq<Entity>, b: seq<Entity>, pick: Entity -> Option<T>)
    ensures Collect(a + b, pick) == Collect(a, pick) + Collect(b, pick)
  {
    if b == [] {
      assert a + b == a;
    } else {
      var n := |b| - 1;
      var last := Only(pick(b[n]));
      calc {
        Collect(a + b, pick);
      ==  { assert (a + b)[..|a + b| - 1] == a + b[..n]; }
        Collect(a + b[..n], pick) + last;
      ==  { CollectAppend(a, b[..n], pick); }
        Collect(a, pick) + Collect(b[..n], pick) + last;
      ==  { Associates(Collect(a, pick), Collect(b[..n], pick), last); }
        Collect(a, pick) + Collect(b, pick);
      }
    }
  }

  lemma {:induction false} CollectNothing<T(!new)>(es: seq<Entity>, pick: Entity -> Option<T>)
    requires forall e :: e in es ==> pick(e).None?
    ensures Collect(es, pick) == []
  {
    if es != [] {
      assert es[|es| - 1] in es;
      CollectNothing(es[..|es| - 1], pick);
    }
  }

  lemma {:induction false} CollectOwn<T(!new)>(items: seq<T>, make: T -> Entity, pick: Entity -> Option<T>)
    requires forall t :: t in items ==> pick(make(t)) == Some(t)
    ensures Collect(Wrap(items, make), pick) == items
  {
    if items != [] {
      var n := |items| - 1;
      CollectOwn(items[..n], make, pick);
      assert Wrap(items, make)[..n] == Wrap(items[..n], make);
      assert items[n] in items && items == items[..n] + [items[n]];
    }
  }

  /** The entities of one type, wrapped. */
  function PartOf(k: KnowledgeSet, kind: EntityKind): (es: seq<Entity>)
    ensures forall e :: e in es ==> e.Ref().kind == kind
  {
    match kind
    case ContinuityKind => Wrap(k.continuities, MakeContinuity)
    case WorkKind => Wrap(k.works, MakeWork)
    case EpisodeKind => Wrap(k.episodes, MakeEpisode)
    case CharacterKind => Wrap(k.characters, MakeCharacter)
    case LocationKind => Wrap(k.locations, MakeLocation)
    case ArtifactKind => Wrap(k.artifacts, MakeArtifact)
  }

  lemma CollectOfSix<T(!new)>(
    a: seq<Entity>, b: seq<Entity>, c: seq<Entity>, d: seq<Entity>, e: seq<Entity>, f: seq<Entity>,
    pick: Entity -> Option<T>)
    ensures Collect(a + b + c + d + e + f, pick)
      == Collect(a, pick) + Collect(b, pick) + Collect(c, pick) + Collect(d, pick) + Collect(e, pick) + Collect(f, pick)
  {
    CollectAppend(a, b, pick);
    CollectAppend(a + b, c, pick);
    CollectAppend(a + b + c, d, pick);
    CollectAppend(a + b + c + d, e, pick);
    CollectAppend(a + b + c + d + e, f, pick);
  }

  lemma OneOfSix<T>(a: seq<T>, b: seq<T>, c: seq<T>, d: seq<T>, e: seq<T>, f: seq<T>)
    ensures b == c == d == e == f == [] ==> a + b + c + d + e + f == a
    ensures a == c == d == e == f == [] ==> a + b + c + d + e + f == b
    ensures a == b == d == e == f == [] ==> a + b + c + d + e + f == c
    ensures a == b == c == e == f == [] ==> a + b + c + d + e + f == d
    ensures a == b == c == d == f == [] ==> a + b + c + d + e + f == e
    ensures a == b == c == d == e == [] ==> a + b + c + d + e + f == f
  {
  }

  lemma PartsOf(k: KnowledgeSet)
    ensures EntitiesOf(k) ==
      PartOf(k, ContinuityKind) + PartOf(k, WorkKind) + PartOf(k, EpisodeKind)
      + PartOf(k, CharacterKind) + PartOf(k, LocationKind) + PartOf(k, ArtifactKind)
  {
  }

  lemma CollectOther<T(!new)>(
    k: KnowledgeSet, pick: Entity -> Option<T>, id: T -> Id, kind: EntityKind, other: EntityKind)
    requires Picks(pick, id, kind) && other != kind
    ensures Collect(PartOf(k, other), pick) == []
  {
    CollectNothing(PartOf(k, other), pick);
  }

  /** Entities of the other types add nothing. */
  lemma CollectPart<T(!new)>(k: KnowledgeSet, pick: Entity -> Option<T>, id: T -> Id, kind: EntityKind)
    requires Picks(pick, id, kind)
    ensures Collect(EntitiesOf(k), pick) == Collect(PartOf(k, kind), pick)
  {
    var part := (other: EntityKind) => Collect(PartOf(k, other), pick);
    assert Collect(EntitiesOf(k), pick) == part(ContinuityKind) + part(WorkKind) + part(EpisodeKind)
      + part(CharacterKind) + part(LocationKind) + part(ArtifactKind)
    by {
      PartsOf(k);
      CollectOfSix(
        PartOf(k, ContinuityKind), PartOf(k, WorkKind), PartOf(k, EpisodeKind),
        PartOf(k, CharacterKind), PartOf(k, LocationKind), PartOf(k, ArtifactKind), pick);
    }
    forall other | other != kind ensures part(other) == [] {
      CollectOther(k, pick, id, kind, other);
    }
    OneOfSix(
      part(ContinuityKind), part(WorkKind), part(EpisodeKind), part(CharacterKind), part(LocationKind),
      part(ArtifactKind));
  }

  /** A type's part of the grouped entities is the list itself. */
  lemma CollectList<T(!new)>(
    k: KnowledgeSet, items: seq<T>, make: T -> Entity, pick: Entity -> Option<T>, id: T -> Id, kind: EntityKind)
    requires Picks(pick, id, kind) && PartOf(k, kind) == Wrap(items, make)
    requires forall t :: t in items ==> pick(make(t)) == Some(t)
    ensures Collect(EntitiesOf(k), pick) == items
  {
    CollectPart(k, pick, id, kind);
    CollectOwn(items, make, pick);
  }

  /** Grouping the entities of a set gives the set back. */
  lemma GroupEntities(k: KnowledgeSet)
    ensures GroupOf(EntitiesOf(k)) == k
  {
    PicksOfTypes();
    assert Collect(EntitiesOf(k), PickContinuity) == k.continuities by {
      CollectList(k, k.continuities, MakeContinuity, PickContinuity, ContinuityId, ContinuityKind);
    }
    assert Collect(EntitiesOf(k), PickWork) == k.works by {
      CollectList(k, k.works, MakeWork, PickWork, WorkId, WorkKind);
    }
    assert Collect(EntitiesOf(k), PickEpisode) == k.episodes by {
      CollectList(k, k.episodes, MakeEpisode, PickEpisode, EpisodeId, EpisodeKind);
    }
    assert Collect(EntitiesOf(k), PickCharacter) == k.characters by {
      CollectList(k, k.characters, MakeCharacter, PickCharacter, CharacterId, CharacterKind);
    }
    assert Collect(EntitiesOf(k), PickLocation) == k.locations by {
      CollectList(k, k.locations, MakeLocation, PickLocation, PlaceId, LocationKind);
    }
    assert Collect(EntitiesOf(k), PickArtifact) == k.artifacts by {
      CollectList(k, k.artifacts, MakeArtifact, PickArtifact, PlaceId, ArtifactKind);
    }
  }

  lemma WrapApart<T>(before: seq<Entity>, items: seq<T>, make: T -> Entity, id: T -> Id, kind: EntityKind)
    requires DistinctRefs(before) && Distinct(items, id)
    requires forall t :: t in items ==> make(t).Ref() == EntityRef(kind, id(t))
    requires forall e :: e in before ==> e.Ref().kind != kind
    ensures DistinctRefs(before + Wrap(items, make))
    ensures forall e :: e in before + Wrap(items, make) ==> e in before || e.Ref().kind == kind
  {
    var all := before + Wrap(items, make);
    assert forall i ::
      0 <= i < |items| ==> items[i] in items && Wrap(items, make)[i].Ref() == EntityRef(kind, id(items[i]));
    forall i, j | 0 <= i < j < |all| ensures all[i].Ref() != all[j].Ref() {
      if i < |before| {
        assert all[i] in before;
      }
    }
  }

  /** Unique ids make the entities of a set distinct. */
  lemma EntitiesApart(k: KnowledgeSet)
    requires UniqueIds(k)
    ensures DistinctRefs(EntitiesOf(k))
  {
    var a := Wrap(k.continuities, MakeContinuity);
    WrapApart([], k.continuities, MakeContinuity, ContinuityId, ContinuityKind);
    assert [] + a == a;
    var b := a + Wrap(k.works, MakeWork);
    WrapApart(a, k.works, MakeWork, WorkId, WorkKind);
    var c := b + Wrap(k.episodes, MakeEpisode);
    WrapApart(b, k.episodes, MakeEpisode, EpisodeId, EpisodeKind);
    var d := c + Wrap(k.characters, MakeCharacter);
    WrapApart(c, k.characters, MakeCharacter, CharacterId, CharacterKind);
    var e := d + Wrap(k.locations, MakeLocation);
    WrapApart(d, k.locations, MakeLocation, PlaceId, LocationKind);
    WrapApart(e, k.artifacts, MakeArtifact, PlaceId, ArtifactKind);
  }

  /** A set indexed type by type and the map of its entities say the same. */
  lemma KnowledgeOfEntities(k: KnowledgeSet)
    requires UniqueIds(k)
    ensures DistinctRefs(EntitiesOf(k))
    ensures KnowledgeOf(k) == KnowledgeFrom(RefMap(EntitiesOf(k)))
  {
    EntitiesApart(k);
    GroupEntities(k);
    GroupKnowledge(EntitiesOf(k));
  }
}
