/** The knowledge store and `load_package` over it. */
module KnowledgeStore {
  import opened Ordering
  import opened Wrappers
  import opened Models
  import opened IntegrityRules
  import opened IntegrityTheorems
  import opened IntegrityChecker
  import opened Entities
  import opened EntityLists
  import opened Loads

  /** The steps of a load at which the store may fail. */
  datatype Fault = NoFault | AtRead | AtStart | AtSave(written: nat) | AtFinish

  datatype LoadReport =
    | Loaded(loadId: nat, counts: map<EntityKind, Counts>, entityCount: nat)
    | PackageRejected(violations: seq<Violation>)
    | SetRejected(violations: seq<Violation>)
    | StoreFailed

  /** The record tells when the load started and ended, how long it took at least, and what was reported. */
  ghost predicate Records(record: LoadRecord, startedAt: int, finishedAt: int, report: LoadReport) {
    && report.Loaded? && record.startedAt == startedAt && record.summary.Some?
    && var summary := record.summary.value;
       && summary.finishedAt == finishedAt && summary.durationMs >= finishedAt - startedAt
       && (summary.durationMs > 0 ==> summary.durationMs == finishedAt - startedAt)
       && summary.entityCount == report.entityCount && summary.counts == report.counts
  }

  /** The record of a committed load. */
  function RecordOf(startedAt: int, finishedAt: int, report: LoadReport): (record: LoadRecord)
    requires report.Loaded?
    ensures Records(record, startedAt, finishedAt, report)
  {
    var duration := if finishedAt > startedAt then finishedAt - startedAt else 0;
    LoadRecord(startedAt, Some(Summary(finishedAt, duration, report.entityCount, report.counts)))
  }

  ghost predicate ExactlyFlagged(violations: seq<Violation>, x: Knowledge, complete: bool, unverified: set<EntityRef>) {
    forall v :: v in violations <==> Flagged(x, complete, unverified, v)
  }

  /** `_State`: the containers one transaction works on. */
  class State {
    var entities: EntityMap
    var revisions: Log
    var loads: map<nat, LoadRecord>

    constructor Empty()
      ensures entities == map[] && revisions == map[] && loads == map[]
    {
      entities, revisions, loads := map[], map[], map[];
    }

    constructor Copy(other: State)
      ensures entities == other.entities && revisions == other.revisions && loads == other.loads
    {
      entities, revisions, loads := other.entities, other.revisions, other.loads;
    }

    /** Every stored entity, ordered by id within each type. */
    method ReadAll() returns (k: KnowledgeSet)
      requires Keyed(entities)
      ensures UniqueIds(k) && InOrder(k)
      ensures DistinctRefs(EntitiesOf(k)) && RefMap(EntitiesOf(k)) == entities
      ensures KnowledgeOf(k) == KnowledgeFrom(entities)
    {
      var values := Values(entities);
      var es := Sorted(values, RefId);
      SortedKeepsApart(values);
      SortedRises(values);
      SameMembers(es, values);
      SameRefMap(es, entities);
      k := Group(es);
      GroupKnowledge(es);
      GroupRises(es);
      KnowledgeOfEntities(k);
      RegroupedMap(es);
    }

    method StartLoad(startedAt: int) returns (loadId: nat)
      modifies this`loads
      ensures loadId > 0 && (forall n :: n in old(loads) ==> n < loadId)
      ensures loadId > 1 ==> loadId - 1 in old(loads)
      ensures loads == old(loads)[loadId := LoadRecord(startedAt, None)]
    {
      loadId := 1;
      var rest := loads.Keys;
      while rest != {}
        invariant rest <= loads.Keys && loadId > 0
        invariant forall n :: n in loads && n !in rest ==> n < loadId
        invariant loadId > 1 ==> loadId - 1 in loads
      {
        var n :| n in rest;
        rest := rest - {n};
        loadId := if n + 1 > loadId then n + 1 else loadId;
      }
      loads := loads[loadId := LoadRecord(startedAt, None)];
    }

    /** Writes the first `upto` changes: all of them unless the store fails halfway. */
    method Save(loadId: nat, changes: seq<Change>, upto: nat)
      requires upto <= |changes| && DistinctChanges(changes)
      requires revisions.Keys == entities.Keys
      modifies this`entities, this`revisions
      ensures Written(old(entities), old(revisions), loadId, changes[..upto], entities, revisions)
    {
      for i := 0 to upto
        invariant Written(old(entities), old(revisions), loadId, changes[..i], entities, revisions)
      {
        var c := changes[i];
        var ref := c.entity.Ref();
        NotYetChanged(changes, i);
        assert RevisionsOf(revisions, ref) == RevisionsAfter(old(revisions), loadId, changes[..i], ref);
        label Before:
        var history := RevisionsOf(revisions, ref);
        entities := entities[ref := c.entity];
        revisions := revisions[ref := history + [Revision(|history| + 1, c.operation, loadId, c.entity)]];
        forall r
          ensures Lookup(entities, r) == EntityAfter(old(entities), changes[..i + 1], r)
          ensures RevisionsOf(revisions, r) == RevisionsAfter(old(revisions), loadId, changes[..i + 1], r)
        {
          FindChangeStep(changes, i, r);
          assert Lookup(old@Before(entities), r) == EntityAfter(old(entities), changes[..i], r);
          assert RevisionsOf(old@Before(revisions), r) == RevisionsAfter(old(revisions), loadId, changes[..i], r);
        }
      }
    }

    method FinishLoad(loadId: nat, summary: Summary)
      requires loadId in loads
      modifies this`loads
      ensures loads == old(loads)[loadId := old(loads)[loadId].(summary := Some(summary))]
    {
      loads := loads[loadId := loads[loadId].(summary := Some(summary))];
    }
  }

  lemma FindChangeStep(changes: seq<Change>, i: nat, r: EntityRef)
    requires i < |changes|
    ensures FindChange(changes[..i + 1], r) == if changes[i].entity.Ref() == r then Some(changes[i])
      else FindChange(changes[..i], r)
  {
    assert changes[..i + 1][..i] == changes[..i];
  }

  lemma NotYetChanged(changes: seq<Change>, i: nat)
    requires DistinctChanges(changes) && i < |changes|
    ensures FindChange(changes[..i], changes[i].entity.Ref()).None?
  {
    FindChangeFinds(changes[..i], changes[i].entity.Ref());
  }

  /** Reading a set back from its groups finds the same entities. */
  lemma RegroupedMap(es: seq<Entity>)
    requires DistinctRefs(es)
    ensures UniqueIds(GroupOf(es)) && RefMap(EntitiesOf(GroupOf(es))) == RefMap(es)
  {
    var k := GroupOf(es);
    GroupKnowledge(es);
    KnowledgeOfEntities(k);
    RefMapMembers(es);
    RefMapMembers(EntitiesOf(k));
    KnowledgeTellsEntities(RefMap(es), RefMap(EntitiesOf(k)));
  }

  /** `pick` takes an entity out whole. */
  ghost predicate Whole<T(!new)>(pick: Entity -> Option<T>) {
    forall e, f :: pick(e).Some? && pick(e) == pick(f) ==> e == f
  }

  lemma PicksAreWhole()
    ensures Whole(PickContinuity) && Whole(PickWork) && Whole(PickEpisode)
    ensures Whole(PickCharacter) && Whole(PickLocation) && Whole(PickArtifact)
  {
  }

  lemma SliceTellsEntity<T(!new)>(
    a: EntityMap, b: EntityMap, kind: EntityKind, pick: Entity -> Option<T>, id: T -> Id, r: EntityRef)
    requires Keyed(a) && Keyed(b) && Picks(pick, id, kind) && Whole(pick) && r.kind == kind && r in a
    requires Slice(a, kind, pick) == Slice(b, kind, pick)
    ensures r in b && a[r] == b[r]
  {
    assert r == EntityRef(kind, r.id);
    SliceFinds(a, kind, pick, id);
    SliceFinds(b, kind, pick, id);
    assert r.id in Slice(a, kind, pick);
  }

  lemma KnowledgeTellsEntity(a: EntityMap, b: EntityMap, r: EntityRef)
    requires Keyed(a) && Keyed(b) && KnowledgeFrom(a) == KnowledgeFrom(b) && r in a
    ensures r in b && a[r] == b[r]
  {
    PicksOfTypes();
    PicksAreWhole();
    match r.kind {
      case ContinuityKind => SliceTellsEntity(a, b, ContinuityKind, PickContinuity, ContinuityId, r);
      case WorkKind => SliceTellsEntity(a, b, WorkKind, PickWork, WorkId, r);
      case EpisodeKind => SliceTellsEntity(a, b, EpisodeKind, PickEpisode, EpisodeId, r);
      case CharacterKind => SliceTellsEntity(a, b, CharacterKind, PickCharacter, CharacterId, r);
      case LocationKind => SliceTellsEntity(a, b, LocationKind, PickLocation, PlaceId, r);
      case ArtifactKind => SliceTellsEntity(a, b, ArtifactKind, PickArtifact, PlaceId, r);
    }
  }

  lemma KnowledgeTellsEntities(a: EntityMap, b: EntityMap)
    requires Keyed(a) && Keyed(b) && KnowledgeFrom(a) == KnowledgeFrom(b)
    ensures a == b
  {
    forall r | r in a ensures r in b && a[r] == b[r] { KnowledgeTellsEntity(a, b, r); }
    forall r | r in b ensures r in a { KnowledgeTellsEntity(b, a, r); }
  }

  /** `_merge`: one dictionary of both sets, the package last, grouped by type. */
  method Merge(current: KnowledgeSet, package: KnowledgeSet) returns (merged: KnowledgeSet)
    requires UniqueIds(current) && UniqueIds(package)
    ensures UniqueIds(merged)
    ensures KnowledgeOf(merged) == Merged(KnowledgeOf(current), KnowledgeOf(package))
    ensures |EntitiesOf(merged)| == |RefMap(EntitiesOf(current)) + RefMap(EntitiesOf(package))|
  {
    var entities := RefMap(EntitiesOf(current)) + RefMap(EntitiesOf(package));
    RefMapMembers(EntitiesOf(current));
    RefMapMembers(EntitiesOf(package));
    var es := Values(entities);
    merged := Group(es);
    KnowledgeOfEntities(current);
    KnowledgeOfEntities(package);
    GroupKnowledge(es);
    MergedKnowledge(RefMap(EntitiesOf(current)), RefMap(EntitiesOf(package)));
    RegroupedMap(es);
    KnowledgeOfEntities(merged);
    RefMapSize(EntitiesOf(merged));
  }

  lemma {:induction false} RefMapSize(es: seq<Entity>)
    requires DistinctRefs(es)
    ensures |RefMap(es)| == |es|
  {
    if es != [] {
      var n := |es| - 1;
      FreshRef(es);
      RefMapSize(es[..n]);
      GrowBy(map[], RefMap(es[..n]), es[n].Ref(), es[n]);
      assert map[] + RefMap(es[..n]) == RefMap(es[..n]) && map[] + RefMap(es) == RefMap(es);
    }
  }

  method Classify(stored: EntityMap, e: Entity, total: Counts) returns (change: Option<Change>, total': Counts)
    ensures change == ChangeOf(stored, e) && total' == Plus(total, CountOne(stored, e))
  {
    var ref := e.Ref();
    if ref !in stored {
      return Some(Change(Create, e)), total.(added := total.added + 1);
    } else if stored[ref] != e {
      return Some(Change(Update, e)), total.(updated := total.updated + 1);
    } else {
      return None, total.(kept := total.kept + 1);
    }
  }

  method ChangeLoop(stored: EntityMap, es: seq<Entity>) returns (changes: seq<Change>, counts: map<EntityKind, Counts>)
    ensures changes == ChangesOf(stored, es)
    ensures counts.Keys == ALL_KINDS
    ensures forall kind :: kind in counts ==> counts[kind] == CountOf(stored, es, kind)
  {
    counts := map kind | kind in ALL_KINDS :: Counts(0, 0, 0);
    changes := [];
    for i := 0 to |es|
      invariant changes == ChangesOf(stored, es[..i])
      invariant counts.Keys == ALL_KINDS
      invariant forall kind :: kind in counts ==> counts[kind] == CountOf(stored, es[..i], kind)
    {
      assert es[..i + 1][..i] == es[..i];
      var kind := es[i].Ref().kind;
      var change, total := Classify(stored, es[i], counts[kind]);
      counts := counts[kind := total];
      changes := changes + Only(change);
    }
    assert es[..|es|] == es;
  }

  /** `_changes`: the change list of a package and the counts of each type. */
  method Changes(current: KnowledgeSet, package: KnowledgeSet)
    returns (changes: seq<Change>, counts: map<EntityKind, Counts>)
    ensures changes == ChangesOf(RefMap(EntitiesOf(current)), EntitiesOf(package))
    ensures CountsOfLoad(RefMap(EntitiesOf(current)), package, counts)
  {
    changes, counts := ChangeLoop(RefMap(EntitiesOf(current)), EntitiesOf(package));
    forall kind {
      CountsTell(RefMap(EntitiesOf(current)), EntitiesOf(package), kind);
    }
    SizesAddUp(EntitiesOf(package));
  }

  method CheckMerged(merged: KnowledgeSet) returns (violations: seq<Violation>)
    requires UniqueIds(merged)
    ensures ExactlyFlagged(violations, KnowledgeOf(merged), true, {})
    ensures violations == [] <==> Consistent(KnowledgeOf(merged))
  {
    var external;
    violations, external := CheckIntegrity(merged, true, {});
    CleanIsConsistent(KnowledgeOf(merged));
    if violations != [] {
      assert violations[0] in violations;
    }
  }

  class Store {
    var state: State
    /** What the store held after each committed load, the empty start first. */
    ghost var past: seq<Moment>

    ghost predicate Valid()
      reads this, state
    {
      && Keyed(state.entities)
      && LogInvariant(state.entities, state.revisions, past) && Counted(past)
      && Consistent(KnowledgeFrom(state.entities))
      && JournalInvariant(state.loads, |past|)
    }

    constructor ()
      ensures Valid() && fresh(state) && state.entities == map[] && past == Beginning()
    {
      var empty := new State.Empty();
      state := empty;
      past := Beginning();
      new;
      EmptyIsValid(state.entities, state.revisions, state.loads, past);
    }

    ghost predicate Untouched(other: State, entities: EntityMap, revisions: Log, loads: map<nat, LoadRecord>)
      reads this, state
    {
      state == other && state.entities == entities && state.revisions == revisions && state.loads == loads
    }

    /**
     `load_package`: check the package alone, then merge it in one transaction and check
     the merged set; nothing of a rejected or failed load is kept.
     */
    method Load(
      package: KnowledgeSet, unverified: set<EntityRef>, readable: bool, startedAt: int, finishedAt: int, fault: Fault)
      returns (report: LoadReport)
      requires Valid() && UniqueIds(package)
      modifies this
      ensures Valid()
      // The set that counts is the merged one: the check of the package alone turns away nothing more.
      ensures report.Loaded? <==>
        && readable && fault.NoFault?
        && Consistent(Merged(KnowledgeFrom(old(state.entities)), KnowledgeOf(package)))
      ensures !report.Loaded? ==>
        Untouched(old(state), old(state.entities), old(state.revisions), old(state.loads)) && past == old(past)
      ensures report.PackageRejected? ==> ExactlyFlagged(report.violations, KnowledgeOf(package), false, unverified)
      ensures report.SetRejected? ==>
        ExactlyFlagged(report.violations, Merged(KnowledgeFrom(old(state.entities)), KnowledgeOf(package)), true, {})
      ensures report.Loaded? ==> Committed(old(state.entities), old(past), package, report)
      ensures report.Loaded? ==>
        state.loads == old(state.loads)[report.loadId := RecordOf(startedAt, finishedAt, report)]
    {
      var violations, _ := CheckIntegrity(package, false, unverified);
      KnowledgeFromKeyed(state.entities);
      if readable && violations == [] {
        report := LoadChecked(package, startedAt, finishedAt, fault);
      } else {
        if violations != [] {
          RejectedAlone(KnowledgeFrom(state.entities), KnowledgeOf(package), unverified, violations);
        }
        report := PackageRejected(violations);
      }
    }

    /** What a committed load did to the store and said about it. */
    ghost predicate Committed(entities: EntityMap, before: seq<Moment>, package: KnowledgeSet, report: LoadReport)
      reads this, state
    {
      && report.Loaded?
      && state.entities == entities + RefMap(EntitiesOf(package))
      && past == before + [Moment(report.loadId, state.entities)]
      && Says(entities, |before|, package, report)
    }

    /** The part of a load that runs in the transaction. */
    method LoadChecked(package: KnowledgeSet, startedAt: int, finishedAt: int, fault: Fault)
      returns (report: LoadReport)
      requires Valid() && UniqueIds(package)
      modifies this
      ensures Valid() && !report.PackageRejected?
      ensures report.Loaded? <==>
        fault.NoFault? && Consistent(Merged(KnowledgeFrom(old(state.entities)), KnowledgeOf(package)))
      ensures !report.Loaded? ==>
        Untouched(old(state), old(state.entities), old(state.revisions), old(state.loads)) && past == old(past)
      ensures report.SetRejected? ==>
        ExactlyFlagged(report.violations, Merged(KnowledgeFrom(old(state.entities)), KnowledgeOf(package)), true, {})
      ensures report.Loaded? ==> Committed(old(state.entities), old(past), package, report)
      ensures report.Loaded? ==>
        state.loads == old(state.loads)[report.loadId := RecordOf(startedAt, finishedAt, report)]
    {
      var working;
      ghost var changes;
      report, working, changes := RunTransaction(package, startedAt, finishedAt, fault);
      if report.Loaded? {
        Adopt(working, package, changes, report, RecordOf(startedAt, finishedAt, report));
      }
    }

    /** The transaction works on a copy of the state and touches nothing else. */
    method RunTransaction(package: KnowledgeSet, startedAt: int, finishedAt: int, fault: Fault)
      returns (report: LoadReport, working: State, ghost changes: seq<Change>)
      requires Valid() && UniqueIds(package)
      ensures fresh(working) && !report.PackageRejected?
      ensures report.Loaded? <==>
        fault.NoFault? && Consistent(Merged(KnowledgeFrom(state.entities), KnowledgeOf(package)))
      ensures report.SetRejected? ==>
        ExactlyFlagged(report.violations, Merged(KnowledgeFrom(state.entities), KnowledgeOf(package)), true, {})
      ensures report.Loaded? ==>
        && changes == ChangesOf(state.entities, EntitiesOf(package))
        && Written(state.entities, state.revisions, |past|, changes, working.entities, working.revisions)
        && Says(state.entities, |past|, package, report)
        && working.loads == state.loads[|past| := RecordOf(startedAt, finishedAt, report)]
    {
      working := new State.Copy(state);
      report, changes := Attempt(working, package, startedAt, finishedAt, fault, |past|);
    }

    /** The end of the transaction: its copy of the state becomes the state. */
    method Adopt(
      working: State, package: KnowledgeSet, ghost changes: seq<Change>, ghost report: LoadReport,
      ghost record: LoadRecord)
      requires Valid() && UniqueIds(package) && changes == ChangesOf(state.entities, EntitiesOf(package))
      requires Written(state.entities, state.revisions, |past|, changes, working.entities, working.revisions)
      requires working.loads == state.loads[|past| := record] && record.summary.Some?
      requires Consistent(Merged(KnowledgeFrom(state.entities), KnowledgeOf(package)))
      requires Says(state.entities, |past|, package, report)
      modifies this
      ensures Committed(old(state.entities), old(past), package, report)
      ensures Valid() && state == working && past == old(past) + [Moment(|old(past)|, working.entities)]
      ensures working.entities == old(state.entities) + RefMap(EntitiesOf(package))
      ensures state.loads == old(state.loads)[|old(past)| := record]
    {
      JournalGoesOn(state.loads, |past|, record, working.loads);
      CommitInTurn(state.entities, state.revisions, past, package, working.entities, working.revisions);
      state := working;
      past := past + [Moment(|past|, working.entities)];
    }
  }

  /** The counts and the size of the merged set add up. */
  ghost predicate Tallied(
    entities: EntityMap, package: KnowledgeSet, counts: map<EntityKind, Counts>, entityCount: nat)
  {
    && CountsOfLoad(entities, package, counts)
    && entityCount == |entities + RefMap(EntitiesOf(package))| == |entities| + AddedIn(counts)
  }

  /** What the report of a committed load says: its id, the counts, and how many entities there are now. */
  ghost predicate Says(entities: EntityMap, loadId: nat, package: KnowledgeSet, report: LoadReport) {
    && report.Loaded? && report.loadId == loadId
    && Tallied(entities, package, report.counts, report.entityCount)
  }

  /** The body of the transaction; it writes to its own copy of the state only. */
  method Attempt(working: State, package: KnowledgeSet, startedAt: int, finishedAt: int, fault: Fault, ghost n: nat)
    returns (report: LoadReport, ghost changes: seq<Change>)
    requires Keyed(working.entities) && UniqueIds(package) && working.revisions.Keys == working.entities.Keys
    requires n > 0 && JournalInvariant(working.loads, n)
    modifies working
    ensures !report.PackageRejected?
    ensures report.Loaded? <==>
      fault.NoFault? && Consistent(Merged(KnowledgeFrom(old(working.entities)), KnowledgeOf(package)))
    ensures report.SetRejected? ==>
      ExactlyFlagged(report.violations, Merged(KnowledgeFrom(old(working.entities)), KnowledgeOf(package)), true, {})
    ensures report.Loaded? ==>
      && changes == ChangesOf(old(working.entities), EntitiesOf(package))
      && Written(old(working.entities), old(working.revisions), n, changes, working.entities, working.revisions)
      && Says(old(working.entities), n, package, report)
      && working.loads == old(working.loads)[n := RecordOf(startedAt, finishedAt, report)]
  {
    changes := [];
    if fault.AtRead? {
      return StoreFailed, changes;
    }
    var current := working.ReadAll();
    var conflicts, list, counts, entityCount := Plan(
      current, package, KnowledgeFrom(working.entities), working.entities);
    if conflicts != [] {
      return SetRejected(conflicts), changes;
    }
    changes := list;
    PackageChangesApart(working.entities, package);
    var loadId, written := Write(working, list, startedAt, finishedAt, counts, entityCount, fault, n);
    report := if written then Loaded(loadId, counts, entityCount) else StoreFailed;
  }

  /** The entities a load reports in any of its counts. */
  function CountedIn(counts: map<EntityKind, Counts>): nat
    requires counts.Keys == ALL_KINDS
  {
    Total(kind => if kind in counts then counts[kind].added + counts[kind].updated + counts[kind].kept else 0)
  }

  function AddedIn(counts: map<EntityKind, Counts>): nat
    requires counts.Keys == ALL_KINDS
  {
    Total(kind => if kind in counts then counts[kind].added else 0)
  }

  /** The writing half of the transaction; a store that fails leaves its copy half written. */
  method Write(
    working: State, changes: seq<Change>, startedAt: int, finishedAt: int, counts: map<EntityKind, Counts>,
    entityCount: nat, fault: Fault, ghost n: nat)
    returns (loadId: nat, written: bool)
    requires DistinctChanges(changes) && working.revisions.Keys == working.entities.Keys
    requires n > 0 && JournalInvariant(working.loads, n)
    modifies working
    ensures written <==> !(fault.AtStart? || fault.AtSave? || fault.AtFinish?)
    ensures written ==>
      && Written(old(working.entities), old(working.revisions), n, changes, working.entities, working.revisions)
      && loadId == n
      && working.loads == old(working.loads)[n := RecordOf(startedAt, finishedAt, Loaded(n, counts, entityCount))]
  {
    loadId, written := 0, false;
    if fault.AtStart? {
      return;
    }
    loadId := working.StartLoad(startedAt);
    assert loadId == n by {
      assert n > 1 ==> n - 1 in old(working.loads);
    }
    if fault.AtSave? {
      working.Save(loadId, changes, if fault.written < |changes| then fault.written else |changes|);
      return;
    }
    assert changes[..|changes|] == changes;
    working.Save(loadId, changes, |changes|);
    if fault.AtFinish? {
      return;
    }
    working.FinishLoad(loadId, RecordOf(startedAt, finishedAt, Loaded(loadId, counts, entityCount)).summary.value);
    written := true;
  }

  /** Merges the package into what was read, checks the merged set and lists what the load would change. */
  method Plan(current: KnowledgeSet, package: KnowledgeSet, ghost x: Knowledge, ghost entities: EntityMap)
    returns (violations: seq<Violation>, changes: seq<Change>, counts: map<EntityKind, Counts>, entityCount: nat)
    requires UniqueIds(current) && UniqueIds(package)
    requires RefMap(EntitiesOf(current)) == entities && KnowledgeOf(current) == x
    ensures ExactlyFlagged(violations, Merged(x, KnowledgeOf(package)), true, {})
    ensures violations == [] <==> Consistent(Merged(x, KnowledgeOf(package)))
    ensures changes == ChangesOf(entities, EntitiesOf(package))
    ensures Tallied(entities, package, counts, entityCount)
  {
    var merged := Merge(current, package);
    entityCount := |EntitiesOf(merged)|;
    violations := CheckMerged(merged);
    changes, counts := Changes(current, package);
    CountOfCommit(entities, package, counts);
  }

  lemma PackageChangesApart(stored: EntityMap, package: KnowledgeSet)
    requires UniqueIds(package)
    ensures DistinctChanges(ChangesOf(stored, EntitiesOf(package)))
  {
    EntitiesApart(package);
    ChangesApart(stored, EntitiesOf(package));
  }

  ghost predicate JournalInvariant(loads: map<nat, LoadRecord>, moments: nat) {
    && (forall n :: n in loads <==> 1 <= n < moments)
    && (forall n :: n in loads ==> loads[n].summary.Some?)
  }

  /** The counts of a type: as many of its entities were new, changed and equal, and as many changes it brought. */
  ghost predicate Tells(stored: EntityMap, es: seq<Entity>, kind: EntityKind, c: Counts) {
    && c == CountOf(stored, es, kind) && c.added + c.updated + c.kept == SizeOf(es, kind)
    && (forall fate :: CountFor(c, fate) == |Met(stored, es, kind, fate)|)
    && c.added == |Brought(ChangesOf(stored, es), kind, Create)|
    && c.updated == |Brought(ChangesOf(stored, es), kind, Update)|
  }

  lemma CountsTell(stored: EntityMap, es: seq<Entity>, kind: EntityKind)
    ensures Tells(stored, es, kind, CountOf(stored, es, kind))
  {
    CountsAddUp(stored, es, kind);
    ChangesCounted(stored, es, kind);
    forall fate ensures CountFor(CountOf(stored, es, kind), fate) == |Met(stored, es, kind, fate)| {
      CountsMean(stored, es, kind, fate);
    }
  }

  /** Counts of a load: per type and over all types, every entity of the package is in exactly one of them. */
  ghost predicate CountsOfLoad(stored: EntityMap, package: KnowledgeSet, counts: map<EntityKind, Counts>) {
    && counts.Keys == ALL_KINDS && CountedIn(counts) == |EntitiesOf(package)|
    && forall kind :: kind in counts ==> Tells(stored, EntitiesOf(package), kind, counts[kind])
  }

  lemma JournalGoesOn(loads: map<nat, LoadRecord>, moments: nat, record: LoadRecord, loads': map<nat, LoadRecord>)
    requires JournalInvariant(loads, moments) && loads' == loads[moments := record] && record.summary.Some?
    requires moments > 0
    ensures JournalInvariant(loads', moments + 1)
  {
  }

  lemma EmptyLogIsValid(entities: EntityMap, log: Log, past: seq<Moment>)
    requires entities == map[] && log == map[] && past == Beginning()
    ensures LogInvariant(entities, log, past) && Counted(past)
  {
    assert past[0].entities == entities;
    forall r ensures Told(log, past, r) {
      assert RevisionsOf(log, r) == [];
    }
  }

  lemma NothingConflicts(x: Knowledge)
    requires x == Knowledge(map[], map[], map[], map[], map[], map[])
    ensures ReferencesClosed(x) && EpisodesConsistent(x) && CharactersConsistent(x)
    ensures PlacesConsistent(x, x.locations) && PlacesConsistent(x, x.artifacts)
  {
  }

  const NOTHING := Knowledge(map[], map[], map[], map[], map[], map[])

  lemma EmptyIsValid(entities: EntityMap, log: Log, loads: map<nat, LoadRecord>, past: seq<Moment>)
    requires entities == map[] && log == map[] && loads == map[] && past == Beginning()
    ensures LogInvariant(entities, log, past) && Counted(past) && JournalInvariant(loads, |past|)
    ensures KnowledgeFrom(entities) == NOTHING && Consistent(NOTHING)
  {
    EmptyLogIsValid(entities, log, past);
    var x := KnowledgeFrom(entities);
    assert x == NOTHING;
    assert Consistent(x) by {
      NothingConflicts(x);
      RulesOneByOne(x);
    }
  }

  /** Committing the changes of a package keeps the log. */
  lemma CommitKeepsLog(
    entities: EntityMap, log: Log, past: seq<Moment>, loadId: nat, package: KnowledgeSet,
    entities': EntityMap, log': Log)
    requires Keyed(entities) && LogInvariant(entities, log, past) && UniqueIds(package)
    requires Latest(past).loadId < loadId
    requires Written(entities, log, loadId, ChangesOf(entities, EntitiesOf(package)), entities', log')
    ensures Keyed(entities') && LogInvariant(entities', log', past + [Moment(loadId, entities')])
    ensures entities' == entities + RefMap(EntitiesOf(package))
  {
    EntitiesApart(package);
    RefMapMembers(EntitiesOf(package));
    LoadKeepsLog(entities, log, past, loadId, EntitiesOf(package), entities', log');
  }

  /** The in-memory store counts its committed loads, so no id is skipped. */
  ghost predicate Counted(past: seq<Moment>) {
    past != [] && Latest(past).loadId == |past| - 1
  }

  lemma CommitInTurn(
    entities: EntityMap, log: Log, past: seq<Moment>, package: KnowledgeSet, entities': EntityMap, log': Log)
    requires Keyed(entities) && LogInvariant(entities, log, past) && Counted(past) && UniqueIds(package)
    requires Written(entities, log, |past|, ChangesOf(entities, EntitiesOf(package)), entities', log')
    ensures Keyed(entities') && entities' == entities + RefMap(EntitiesOf(package))
    ensures LogInvariant(entities', log', past + [Moment(|past|, entities')])
    ensures Counted(past + [Moment(|past|, entities')])
    ensures KnowledgeFrom(entities') == Merged(KnowledgeFrom(entities), KnowledgeOf(package))
  {
    CommitKeepsLog(entities, log, past, |past|, package, entities', log');
    CommitMerges(entities, package);
  }

  /** The committed set is the merged set. */
  lemma CommitMerges(entities: EntityMap, package: KnowledgeSet)
    requires Keyed(entities) && UniqueIds(package)
    ensures KnowledgeFrom(entities + RefMap(EntitiesOf(package))) ==
      Merged(KnowledgeFrom(entities), KnowledgeOf(package))
  {
    KnowledgeOfEntities(package);
    RefMapMembers(EntitiesOf(package));
    MergedKnowledge(entities, RefMap(EntitiesOf(package)));
  }

  lemma CountOfCommit(entities: EntityMap, package: KnowledgeSet, counts: map<EntityKind, Counts>)
    requires UniqueIds(package) && CountsOfLoad(entities, package, counts)
    ensures |entities + RefMap(EntitiesOf(package))| == |entities| + AddedIn(counts)
  {
    EntitiesApart(package);
    MergedSize(entities, EntitiesOf(package));
    AddedAddUp(entities, EntitiesOf(package));
  }

  /** A package whose own check fails is one whose merged set is inconsistent. */
  lemma RejectedAlone(stored: Knowledge, package: Knowledge, unverified: set<EntityRef>, violations: seq<Violation>)
    requires stored.Keyed() && package.Keyed()
    requires ExactlyFlagged(violations, package, false, unverified) && violations != []
    ensures !Consistent(Merged(stored, package))
  {
    var v := violations[0];
    assert v in violations;
    FlaggedAloneIsInconsistent(stored, package, unverified, v);
  }
}
