/** Loading a package: merge, check, change list and the transaction that keeps a revision log. */
module Loads {
  import opened Wrappers
  import opened Models
  import opened Sequences
  import opened Entities

  datatype Operation = Create | Update

  datatype Change = Change(operation: Operation, entity: Entity)

  /** `payload` stands for the JSON snapshot of the entity. */
  datatype Revision = Revision(number: nat, operation: Operation, loadId: nat, payload: Entity)

  datatype Counts = Counts(added: nat, updated: nat, kept: nat)

  datatype Summary = Summary(finishedAt: int, durationMs: nat, entityCount: nat, counts: map<EntityKind, Counts>)

  datatype LoadRecord = LoadRecord(startedAt: int, summary: Option<Summary>)

  type Log = map<EntityRef, seq<Revision>>

  // ---------------------------------------------------------------- the change list

  function ChangeOf(stored: EntityMap, e: Entity): Option<Change> {
    if e.Ref() !in stored then Some(Change(Create, e))
    else if stored[e.Ref()] != e then Some(Change(Update, e))
    else None
  }

  function ChangesOf(stored: EntityMap, es: seq<Entity>): seq<Change> {
    if es == [] then []
    else ChangesOf(stored, es[..|es| - 1]) + Only(ChangeOf(stored, es[|es| - 1]))
  }

  lemma {:induction false} ChangesMembers(stored: EntityMap, es: seq<Entity>)
    ensures forall c :: c in ChangesOf(stored, es) <==> c.entity in es && ChangeOf(stored, c.entity) == Some(c)
  {
    if es != [] {
      var n := |es| - 1;
      ChangesMembers(stored, es[..n]);
      assert es == es[..n] + [es[n]];
    }
  }

  ghost predicate DistinctChanges(changes: seq<Change>) {
    forall i, j :: 0 <= i < j < |changes| ==> changes[i].entity.Ref() != changes[j].entity.Ref()
  }

  lemma {:induction false} ChangesApart(stored: EntityMap, es: seq<Entity>)
    requires DistinctRefs(es)
    ensures DistinctChanges(ChangesOf(stored, es))
  {
    if es != [] {
      var n := |es| - 1;
      ChangesApart(stored, es[..n]);
      ChangesMembers(stored, es[..n]);
      var before := ChangesOf(stored, es[..n]);
      forall i | 0 <= i < |before| ensures before[i].entity.Ref() != es[n].Ref() {
        assert before[i] in before;
        var j :| 0 <= j < n && es[j] == before[i].entity;
      }
    }
  }

  function Plus(a: Counts, b: Counts): Counts {
    Counts(a.added + b.added, a.updated + b.updated, a.kept + b.kept)
  }

  function CountOne(stored: EntityMap, e: Entity): Counts {
    if e.Ref() !in stored then Counts(1, 0, 0)
    else if stored[e.Ref()] != e then Counts(0, 1, 0)
    else Counts(0, 0, 1)
  }

  function CountOf(stored: EntityMap, es: seq<Entity>, kind: EntityKind): Counts {
    if es == [] then Counts(0, 0, 0)
    else
      var e := es[|es| - 1];
      var before := CountOf(stored, es[..|es| - 1], kind);
      if e.Ref().kind == kind then Plus(before, CountOne(stored, e)) else before
  }

  function SizeOf(es: seq<Entity>, kind: EntityKind): nat {
    if es == [] then 0
    else SizeOf(es[..|es| - 1], kind) + if es[|es| - 1].Ref().kind == kind then 1 else 0
  }

  const ALL_KINDS := {ContinuityKind, WorkKind, EpisodeKind, CharacterKind, LocationKind, ArtifactKind}

  function Total(f: EntityKind -> nat): nat {
    f(ContinuityKind) + f(WorkKind) + f(EpisodeKind) + f(CharacterKind) + f(LocationKind) + f(ArtifactKind)
  }

  datatype Fate = New | Changed | Equal

  /** What a load finds about an entity of the package: it is new, stored otherwise, or stored just so. */
  predicate Meets(stored: EntityMap, e: Entity, fate: Fate) {
    match fate
    case New => e.Ref() !in stored
    case Changed => e.Ref() in stored && stored[e.Ref()] != e
    case Equal => e.Ref() in stored && stored[e.Ref()] == e
  }

  ghost function FateTest(stored: EntityMap, kind: EntityKind, fate: Fate): Entity -> bool {
    (e: Entity) => e.Ref().kind == kind && Meets(stored, e, fate)
  }

  /** The positions of the entities of a type that meet this fate. */
  ghost function Met(stored: EntityMap, es: seq<Entity>, kind: EntityKind, fate: Fate): set<nat> {
    Where(es, FateTest(stored, kind, fate))
  }

  function CountFor(c: Counts, fate: Fate): nat {
    match fate
    case New => c.added
    case Changed => c.updated
    case Equal => c.kept
  }

  lemma OneMeets(stored: EntityMap, e: Entity, fate: Fate)
    ensures CountFor(CountOne(stored, e), fate) == if Meets(stored, e, fate) then 1 else 0
  {
  }

  /** Each count of a type is the number of its entities in the package that met this fate. */
  lemma {:induction false} CountsMean(stored: EntityMap, es: seq<Entity>, kind: EntityKind, fate: Fate)
    ensures CountFor(CountOf(stored, es, kind), fate) == |Met(stored, es, kind, fate)|
  {
    if es != [] {
      var n := |es| - 1;
      CountsMean(stored, es[..n], kind, fate);
      OneMeets(stored, es[n], fate);
      WherePush(es[..n], es[n], FateTest(stored, kind, fate));
      assert es == es[..n] + [es[n]];
    }
  }

  ghost function ChangeTest(kind: EntityKind, operation: Operation): Change -> bool {
    (c: Change) => c.entity.Ref().kind == kind && c.operation == operation
  }

  /** The positions of the changes of a type with this operation. */
  ghost function Brought(changes: seq<Change>, kind: EntityKind, operation: Operation): set<nat> {
    Where(changes, ChangeTest(kind, operation))
  }

  lemma BroughtGrows(before: seq<Change>, change: Option<Change>, kind: EntityKind, operation: Operation)
    ensures |Brought(before + Only(change), kind, operation)| == |Brought(before, kind, operation)| +
      if change.Some? && change.value.entity.Ref().kind == kind && change.value.operation == operation then 1 else 0
  {
    if change.Some? {
      WherePush(before, change.value, ChangeTest(kind, operation));
    } else {
      assert before + Only(change) == before;
    }
  }

  /** The changes of a type that create are as many as its added entities, those that update as its updated ones. */
  lemma {:induction false} ChangesCounted(stored: EntityMap, es: seq<Entity>, kind: EntityKind)
    ensures |Brought(ChangesOf(stored, es), kind, Create)| == CountOf(stored, es, kind).added
    ensures |Brought(ChangesOf(stored, es), kind, Update)| == CountOf(stored, es, kind).updated
  {
    if es != [] {
      var n := |es| - 1;
      ChangesCounted(stored, es[..n], kind);
      BroughtGrows(ChangesOf(stored, es[..n]), ChangeOf(stored, es[n]), kind, Create);
      BroughtGrows(ChangesOf(stored, es[..n]), ChangeOf(stored, es[n]), kind, Update);
    }
  }

  /** Every entity of the package is added, updated or unchanged, type by type. */
  lemma {:induction false} CountsAddUp(stored: EntityMap, es: seq<Entity>, kind: EntityKind)
    ensures
      var c := CountOf(stored, es, kind);
      c.added + c.updated + c.kept == SizeOf(es, kind)
  {
    if es != [] {
      CountsAddUp(stored, es[..|es| - 1], kind);
    }
  }

  lemma {:induction false} SizesAddUp(es: seq<Entity>)
    ensures Total(kind => SizeOf(es, kind)) == |es|
  {
    if es != [] {
      SizesAddUp(es[..|es| - 1]);
    }
  }

  function AddedOf(stored: EntityMap, es: seq<Entity>): nat {
    if es == [] then 0
    else AddedOf(stored, es[..|es| - 1]) + if es[|es| - 1].Ref() in stored then 0 else 1
  }

  lemma {:induction false} AddedAddUp(stored: EntityMap, es: seq<Entity>)
    ensures Total(kind => CountOf(stored, es, kind).added) == AddedOf(stored, es)
  {
    if es != [] {
      AddedAddUp(stored, es[..|es| - 1]);
    }
  }

  lemma FreshRef(es: seq<Entity>)
    requires DistinctRefs(es) && es != []
    ensures es[|es| - 1].Ref() !in RefMap(es[..|es| - 1])
    ensures DistinctRefs(es[..|es| - 1])
  {
    RefMapMembers(es[..|es| - 1]);
    var n := |es| - 1;
    assert forall e :: e in es[..n] ==> e.Ref() != es[n].Ref();
  }

  /** The merged set has as many entities as before plus those added. */
  lemma {:induction false} MergedSize(stored: EntityMap, es: seq<Entity>)
    requires DistinctRefs(es)
    ensures |stored + RefMap(es)| == |stored| + AddedOf(stored, es)
  {
    if es == [] {
      assert stored + RefMap(es) == stored;
    } else {
      var n := |es| - 1;
      var r := es[n].Ref();
      MergedSize(stored, es[..n]);
      var m := RefMap(es[..n]);
      FreshRef(es);
      GrowBy(stored, m, r, es[n]);
      assert RefMap(es) == m[r := es[n]];
    }
  }

  lemma GrowBy(a: EntityMap, m: EntityMap, r: EntityRef, e: Entity)
    requires r !in m
    ensures |a + m[r := e]| == |a + m| + if r in a then 0 else 1
  {
    assert (a + m[r := e]).Keys == (a + m).Keys + {r};
    assert |(a + m).Keys| == |a + m| && |(a + m[r := e]).Keys| == |a + m[r := e]|;
    if r in a {
      assert (a + m[r := e]).Keys == (a + m).Keys;
    }
  }

  // ---------------------------------------------------------------- the revision log

  /** The change of an entity in a list of changes of distinct entities. */
  function FindChange(changes: seq<Change>, r: EntityRef): Option<Change> {
    if changes == [] then None
    else if changes[|changes| - 1].entity.Ref() == r then Some(changes[|changes| - 1])
    else FindChange(changes[..|changes| - 1], r)
  }

  lemma {:induction false} FindChangeFinds(changes: seq<Change>, r: EntityRef)
    requires DistinctChanges(changes)
    ensures FindChange(changes, r).Some? ==>
      FindChange(changes, r).value in changes && FindChange(changes, r).value.entity.Ref() == r
    ensures forall c :: c in changes && c.entity.Ref() == r ==> FindChange(changes, r) == Some(c)
  {
    if changes != [] {
      var n := |changes| - 1;
      FindChangeFinds(changes[..n], r);
      assert changes == changes[..n] + [changes[n]];
    }
  }

  function RevisionsOf(log: Log, r: EntityRef): seq<Revision> {
    if r in log then log[r] else []
  }

  /** What a load writes for one entity: its changed value, if it changed. */
  function EntityAfter(entities: EntityMap, changes: seq<Change>, r: EntityRef): Option<Entity> {
    var c := FindChange(changes, r);
    if c.Some? then Some(c.value.entity) else if r in entities then Some(entities[r]) else None
  }

  function Continued(before: seq<Revision>, change: Option<Change>, loadId: nat): seq<Revision> {
    if change.None? then before
    else before + [Revision(|before| + 1, change.value.operation, loadId, change.value.entity)]
  }

  /** What a load writes for one entity: one more revision, if it changed. */
  function RevisionsAfter(log: Log, loadId: nat, changes: seq<Change>, r: EntityRef): seq<Revision> {
    Continued(RevisionsOf(log, r), FindChange(changes, r), loadId)
  }

  /** What the store held once the load with this id was committed. Ids grow, and may skip numbers. */
  datatype Moment = Moment(loadId: nat, entities: EntityMap)

  function Beginning(): seq<Moment> {
    [Moment(0, map[])]
  }

  /** The committed loads in order, after the empty beginning. */
  ghost predicate Chronicle(past: seq<Moment>) {
    && past != [] && past[0].loadId == 0 && past[0].entities == map[]
    && forall i, j :: 0 <= i < j < |past| ==> past[i].loadId < past[j].loadId
  }

  function Latest(past: seq<Moment>): Moment
    requires past != []
  {
    past[|past| - 1]
  }

  lemma ChronicleGoesOn(past: seq<Moment>, next: Moment)
    requires Chronicle(past) && Latest(past).loadId < next.loadId
    ensures Chronicle(past + [next]) && Latest(past + [next]) == next
  {
    forall i | 0 <= i < |past| ensures past[i].loadId < next.loadId {
      assert i == |past| - 1 || past[i].loadId < past[|past| - 1].loadId;
    }
  }

  predicate IsLoad(past: seq<Moment>, loadId: nat) {
    exists k :: 0 < k < |past| && past[k].loadId == loadId
  }

  /** A history of one entity: created, then updated, each time to something else by a later load. */
  ghost predicate History(revisions: seq<Revision>, r: EntityRef, past: seq<Moment>) {
    && (forall i :: 0 <= i < |revisions| ==>
          && revisions[i].number == i + 1
          && revisions[i].payload.Ref() == r
          && IsLoad(past, revisions[i].loadId)
          && (revisions[i].operation == if i == 0 then Create else Update))
    && (forall i, j :: 0 <= i < j < |revisions| ==> revisions[i].loadId < revisions[j].loadId)
    && (forall i, j :: 0 <= i && j == i + 1 && j < |revisions| ==> revisions[i].payload != revisions[j].payload)
  }

  /** The last snapshot written by loads up to id `k`. */
  function Snapshot(revisions: seq<Revision>, k: nat): Option<Entity> {
    if revisions == [] then None
    else if revisions[|revisions| - 1].loadId <= k then Some(revisions[|revisions| - 1].payload)
    else Snapshot(revisions[..|revisions| - 1], k)
  }

  function Lookup(m: EntityMap, r: EntityRef): Option<Entity> {
    if r in m then Some(m[r]) else None
  }

  lemma LoadsAreNotLater(past: seq<Moment>, loadId: nat)
    requires Chronicle(past) && IsLoad(past, loadId)
    ensures 0 < loadId <= Latest(past).loadId
  {
    var k :| 0 < k < |past| && past[k].loadId == loadId;
    assert past[0].loadId < past[k].loadId;
    assert k == |past| - 1 || past[k].loadId < past[|past| - 1].loadId;
  }

  /** From the last load on the last snapshot is the latest of all. */
  lemma SnapshotLatest(revisions: seq<Revision>, r: EntityRef, past: seq<Moment>, n: nat)
    requires Chronicle(past) && History(revisions, r, past) && n >= Latest(past).loadId
    ensures Snapshot(revisions, n) == if revisions == [] then None else Some(revisions[|revisions| - 1].payload)
  {
    if revisions != [] {
      LoadsAreNotLater(past, revisions[|revisions| - 1].loadId);
    }
  }

  lemma SnapshotOlder(revisions: seq<Revision>, added: Revision, k: nat)
    requires k < added.loadId
    ensures Snapshot(revisions + [added], k) == Snapshot(revisions, k)
  {
    assert (revisions + [added])[..|revisions|] == revisions;
  }

  /** The history of one entity, or its absence, is in order, and up to each load it leads to what was held then. */
  ghost predicate Story(revisions: seq<Revision>, past: seq<Moment>, r: EntityRef) {
    && Chronicle(past) && History(revisions, r, past)
    && (forall k: nat :: k < |past| ==> Snapshot(revisions, past[k].loadId) == Lookup(past[k].entities, r))
  }

  ghost predicate Told(log: Log, past: seq<Moment>, r: EntityRef) {
    Story(RevisionsOf(log, r), past, r)
  }

  /** The log of a store; `past` is what the store held after each committed load. */
  ghost predicate LogInvariant(entities: EntityMap, log: Log, past: seq<Moment>) {
    && past != [] && Latest(past).entities == entities
    && log.Keys == entities.Keys && (forall r :: r in log ==> log[r] != [])
    && forall r :: Told(log, past, r)
  }

  lemma LoadsStay(past: seq<Moment>, next: Moment, loadId: nat)
    requires IsLoad(past, loadId)
    ensures IsLoad(past + [next], loadId)
  {
    var k :| 0 < k < |past| && past[k].loadId == loadId;
    assert (past + [next])[k] == past[k];
  }

  lemma HistoryStays(revisions: seq<Revision>, r: EntityRef, past: seq<Moment>, next: Moment)
    requires History(revisions, r, past)
    ensures History(revisions, r, past + [next])
  {
    forall i | 0 <= i < |revisions| ensures IsLoad(past + [next], revisions[i].loadId) {
      LoadsStay(past, next, revisions[i].loadId);
    }
  }

  lemma HistoryGrows(revisions: seq<Revision>, added: Revision, r: EntityRef, past: seq<Moment>, next: Moment)
    requires Chronicle(past) && History(revisions, r, past) && Latest(past).loadId < next.loadId == added.loadId
    requires added.number == |revisions| + 1 && added.payload.Ref() == r
    requires added.operation == if revisions == [] then Create else Update
    requires revisions != [] ==> revisions[|revisions| - 1].payload != added.payload
    ensures History(revisions + [added], r, past + [next])
  {
    var longer := revisions + [added];
    assert IsLoad(past + [next], added.loadId) by {
      assert (past + [next])[|past|] == next;
    }
    forall i | 0 <= i < |revisions|
      ensures longer[i] == revisions[i] && revisions[i].loadId < added.loadId && IsLoad(past + [next], longer[i].loadId)
    {
      LoadsAreNotLater(past, revisions[i].loadId);
      LoadsStay(past, next, revisions[i].loadId);
    }
  }

  lemma StoryGoesOn(revisions: seq<Revision>, added: Revision, past: seq<Moment>, next: Moment, r: EntityRef)
    requires Story(revisions, past, r) && Latest(past).loadId < next.loadId == added.loadId
    requires added.number == |revisions| + 1 && added.payload.Ref() == r
    requires added.operation == if revisions == [] then Create else Update
    requires revisions != [] ==> revisions[|revisions| - 1].payload != added.payload
    requires Lookup(next.entities, r) == Some(added.payload)
    ensures Story(revisions + [added], past + [next], r)
  {
    var longer := past + [next];
    ChronicleGoesOn(past, next);
    HistoryGrows(revisions, added, r, past, next);
    forall k: nat | k < |longer|
      ensures Snapshot(revisions + [added], longer[k].loadId) == Lookup(longer[k].entities, r)
    {
      if k < |past| {
        assert longer[k] == past[k] && longer[k].loadId < longer[|past|].loadId;
        SnapshotOlder(revisions, added, past[k].loadId);
      }
    }
  }

  lemma StoryPauses(revisions: seq<Revision>, past: seq<Moment>, next: Moment, r: EntityRef)
    requires Story(revisions, past, r) && Latest(past).loadId < next.loadId
    requires Lookup(next.entities, r) == Lookup(Latest(past).entities, r)
    ensures Story(revisions, past + [next], r)
  {
    var longer := past + [next];
    ChronicleGoesOn(past, next);
    HistoryStays(revisions, r, past, next);
    SnapshotLatest(revisions, r, past, Latest(past).loadId);
    SnapshotLatest(revisions, r, past, next.loadId);
    forall k: nat | k < |longer| ensures Snapshot(revisions, longer[k].loadId) == Lookup(longer[k].entities, r) {
      if k < |past| {
        assert longer[k] == past[k];
      }
    }
  }

  lemma StoryOf(entities: EntityMap, log: Log, past: seq<Moment>, r: EntityRef)
    requires LogInvariant(entities, log, past)
    ensures Story(RevisionsOf(log, r), past, r)
    ensures var before := RevisionsOf(log, r);
      Lookup(entities, r) == if before == [] then None else Some(before[|before| - 1].payload)
  {
    var before := RevisionsOf(log, r);
    assert Told(log, past, r);
    assert Snapshot(before, Latest(past).loadId) == Lookup(Latest(past).entities, r);
    SnapshotLatest(before, r, past, Latest(past).loadId);
  }

  /** A story continues with a change of the entity, if there is one. */
  lemma StoryContinues(
    before: seq<Revision>, latest: Option<Entity>, change: Option<Change>, past: seq<Moment>, next: Moment,
    r: EntityRef)
    requires Story(before, past, r) && Latest(past).loadId < next.loadId
    requires latest == if before == [] then None else Some(before[|before| - 1].payload)
    requires latest == Lookup(Latest(past).entities, r)
    requires change.Some? ==>
      && change.value.entity.Ref() == r && latest != Some(change.value.entity)
      && change.value.operation == if latest.None? then Create else Update
    requires Lookup(next.entities, r) == if change.Some? then Some(change.value.entity) else latest
    ensures Story(Continued(before, change, next.loadId), past + [next], r)
  {
    if change.Some? {
      var added := Revision(|before| + 1, change.value.operation, next.loadId, change.value.entity);
      StoryGoesOn(before, added, past, next, r);
    } else {
      StoryPauses(before, past, next, r);
    }
  }

  /** What the change list writes for one entity continues its story. */
  lemma EntityKeepsStory(
    entities: EntityMap, log: Log, past: seq<Moment>, changes: seq<Change>, next: Moment, r: EntityRef)
    requires LogInvariant(entities, log, past) && DistinctChanges(changes) && Latest(past).loadId < next.loadId
    requires forall c :: c in changes ==> ChangeOf(entities, c.entity) == Some(c)
    requires Lookup(next.entities, r) == EntityAfter(entities, changes, r)
    ensures Story(RevisionsAfter(log, next.loadId, changes, r), past + [next], r)
  {
    StoryOf(entities, log, past, r);
    FindChangeFinds(changes, r);
    StoryContinues(RevisionsOf(log, r), Lookup(entities, r), FindChange(changes, r), past, next, r);
  }

  lemma {:induction false} SnapshotBetween(revisions: seq<Revision>, m: nat, n: nat)
    requires m <= n && forall i :: 0 <= i < |revisions| ==> revisions[i].loadId <= m || n < revisions[i].loadId
    ensures Snapshot(revisions, n) == Snapshot(revisions, m)
  {
    if revisions != [] {
      SnapshotBetween(revisions[..|revisions| - 1], m, n);
    }
  }

  /** An id that was skipped leads to what the store held after the last load committed before it. */
  lemma SkippedIdReplays(entities: EntityMap, log: Log, past: seq<Moment>, k: nat, n: nat, r: EntityRef)
    requires LogInvariant(entities, log, past) && k < |past| && past[k].loadId <= n
    requires k + 1 < |past| ==> n < past[k + 1].loadId
    ensures Snapshot(RevisionsOf(log, r), n) == Lookup(past[k].entities, r)
  {
    StoryOf(entities, log, past, r);
    var revisions := RevisionsOf(log, r);
    forall i | 0 <= i < |revisions| ensures revisions[i].loadId <= past[k].loadId || n < revisions[i].loadId {
      var j :| 0 < j < |past| && past[j].loadId == revisions[i].loadId;
      assert j <= k ==> j == k || past[j].loadId < past[k].loadId;
      assert j > k ==> j == k + 1 || past[k + 1].loadId < past[j].loadId;
    }
    SnapshotBetween(revisions, past[k].loadId, n);
  }

  /** Applying the change list overrides the stored entities with those of the package. */
  lemma ChangesApply(entities: EntityMap, es: seq<Entity>, r: EntityRef)
    requires DistinctRefs(es)
    ensures EntityAfter(entities, ChangesOf(entities, es), r) == Lookup(entities + RefMap(es), r)
  {
    var changes := ChangesOf(entities, es);
    ChangesApart(entities, es);
    ChangesMembers(entities, es);
    FindChangeFinds(changes, r);
    RefMapMembers(es);
    if r in RefMap(es) {
      var e := RefMap(es)[r];
      RefMapFinds(es, e);
      if ChangeOf(entities, e).Some? {
        assert ChangeOf(entities, e).value in changes;
      } else {
        forall c | c in changes ensures c.entity.Ref() != r {
          if c.entity.Ref() == r {
            RefMapFinds(es, c.entity);
          }
        }
      }
    }
  }

  /** The entities and the log after writing `changes` as load `loadId`. */
  ghost predicate Written(
    entities: EntityMap, log: Log, loadId: nat, changes: seq<Change>, entities': EntityMap, log': Log)
  {
    && (forall r :: Lookup(entities', r) == EntityAfter(entities, changes, r))
    && (forall r :: RevisionsOf(log', r) == RevisionsAfter(log, loadId, changes, r))
    && log'.Keys == entities'.Keys
  }

  /** Writing the changes of one load, whatever later id it has, keeps every history and the replay to every load. */
  lemma LoadKeepsLog(
    entities: EntityMap, log: Log, past: seq<Moment>, loadId: nat,
    es: seq<Entity>, entities': EntityMap, log': Log)
    requires LogInvariant(entities, log, past) && DistinctRefs(es) && Latest(past).loadId < loadId
    requires Written(entities, log, loadId, ChangesOf(entities, es), entities', log')
    ensures entities' == entities + RefMap(es)
    ensures LogInvariant(entities', log', past + [Moment(loadId, entities')])
  {
    var changes, next := ChangesOf(entities, es), Moment(loadId, entities');
    assert entities' == entities + RefMap(es) by {
      forall r ensures Lookup(entities', r) == Lookup(entities + RefMap(es), r) {
        ChangesApply(entities, es, r);
      }
      SameLookups(entities', entities + RefMap(es));
    }
    forall r ensures Told(log', past + [next], r) {
      ChangesApart(entities, es);
      ChangesMembers(entities, es);
      EntityKeepsStory(entities, log, past, changes, next, r);
      assert RevisionsOf(log', r) == RevisionsAfter(log, loadId, changes, r);
    }
    LogHasEntries(entities, log, past, loadId, changes, entities', log');
  }

  lemma LogHasEntries(
    entities: EntityMap, log: Log, past: seq<Moment>, loadId: nat, changes: seq<Change>,
    entities': EntityMap, log': Log)
    requires LogInvariant(entities, log, past) && Written(entities, log, loadId, changes, entities', log')
    ensures forall r :: r in log' ==> log'[r] != []
  {
    forall r | r in log' ensures log'[r] != [] {
      StoryOf(entities, log, past, r);
      assert Lookup(entities', r) == EntityAfter(entities, changes, r);
      assert RevisionsOf(log', r) == RevisionsAfter(log, loadId, changes, r);
    }
  }

  lemma SameLookups(a: EntityMap, b: EntityMap)
    requires forall r :: Lookup(a, r) == Lookup(b, r)
    ensures a == b
  {
    forall r ensures r in a <==> r in b {
      assert Lookup(a, r) == Lookup(b, r);
    }
    forall r | r in a ensures a[r] == b[r] {
      assert Lookup(a, r) == Lookup(b, r);
    }
  }
}
