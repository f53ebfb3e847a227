/** `load_package` over PostgreSQL: one transaction that reads, checks, saves and logs. */
module PostgresLoad {
  import opened Ordering
  import opened Models
  import opened IntegrityRules
  import opened IntegrityTheorems
  import opened IntegrityChecker
  import opened Entities
  import opened EntityLists
  import opened Loads
  import opened KnowledgeStore
  import opened Tables
  import opened Schema
  import opened Postgres
  import opened PostgresSave
  import opened PostgresRead
  import opened Revisions

  function ChangedEntities(changes: seq<Change>): (es: seq<Entity>)
    ensures |es| == |changes| && forall i :: 0 <= i < |es| ==> es[i] == changes[i].entity
  {
    seq(|changes|, i requires 0 <= i < |changes| => changes[i].entity)
  }

  lemma {:induction false} ChangedMap(changes: seq<Change>, r: EntityRef)
    ensures r in RefMap(ChangedEntities(changes)) <==> FindChange(changes, r).Some?
    ensures r in RefMap(ChangedEntities(changes)) ==>
      RefMap(ChangedEntities(changes))[r] == FindChange(changes, r).value.entity
  {
    if changes != [] {
      var n := |changes| - 1;
      ChangedMap(changes[..n], r);
      assert ChangedEntities(changes)[..n] == ChangedEntities(changes[..n]);
    }
  }

  /** Writing the changed entities alone gives the merged set. */
  lemma ChangedMerge(entities: EntityMap, es: seq<Entity>)
    requires DistinctRefs(es)
    ensures entities + RefMap(ChangedEntities(ChangesOf(entities, es))) == entities + RefMap(es)
  {
    var changes := ChangesOf(entities, es);
    var a, b := entities + RefMap(ChangedEntities(changes)), entities + RefMap(es);
    forall r ensures Lookup(a, r) == Lookup(b, r) {
      ChangedMap(changes, r);
      ChangesApply(entities, es, r);
    }
    SameLookups(a, b);
  }

  lemma ChangedKnowledge(entities: EntityMap, package: KnowledgeSet, changed: KnowledgeSet)
    requires Keyed(entities) && UniqueIds(package)
    requires changed == GroupOf(ChangedEntities(ChangesOf(entities, EntitiesOf(package))))
    ensures UniqueIds(changed)
    ensures Merged(KnowledgeFrom(entities), KnowledgeOf(changed)) ==
      Merged(KnowledgeFrom(entities), KnowledgeOf(package))
  {
    var es := ChangedEntities(ChangesOf(entities, EntitiesOf(package)));
    PackageChangesApart(entities, package);
    GroupKnowledge(es);
    KnowledgeOfEntities(package);
    RefMapMembers(es);
    RefMapMembers(EntitiesOf(package));
    ChangedMerge(entities, EntitiesOf(package));
    MergedKnowledge(entities, RefMap(es));
    MergedKnowledge(entities, RefMap(EntitiesOf(package)));
  }

  /** The set read from tables that hold some entities is those entities. */
  lemma ReadBack(entities: EntityMap, current: KnowledgeSet)
    requires Keyed(entities) && UniqueIds(current) && KnowledgeOf(current) == KnowledgeFrom(entities)
    ensures RefMap(EntitiesOf(current)) == entities
  {
    KnowledgeOfEntities(current);
    RefMapMembers(EntitiesOf(current));
    KnowledgeTellsEntities(RefMap(EntitiesOf(current)), entities);
  }

  lemma ValidatedMerge(x: Knowledge, y: Knowledge)
    requires Validated(x) && Validated(y)
    ensures Validated(Merged(x, y))
  {
  }

  lemma LogIsNumbered(entities: EntityMap, log: Log, past: seq<Moment>)
    requires LogInvariant(entities, log, past)
    ensures forall r :: Numbered(RevisionsOf(log, r))
  {
    forall r ensures Numbered(RevisionsOf(log, r)) {
      assert Told(log, past, r);
    }
  }

  /** A package that changes nothing leaves the set as it is. */
  lemma NothingChanged(entities: EntityMap, package: KnowledgeSet)
    requires Keyed(entities) && UniqueIds(package) && ChangesOf(entities, EntitiesOf(package)) == []
    ensures entities + RefMap(EntitiesOf(package)) == entities
  {
    EntitiesApart(package);
    ChangedMerge(entities, EntitiesOf(package));
    assert RefMap(ChangedEntities([])) == map[];
  }

  /** The rows of `rag_loads` are the committed loads, each with its summary. */
  ghost predicate JournalHolds(loads: map<nat, LoadRecord>, past: seq<Moment>) {
    forall n :: (n in loads <==> IsLoad(past, n)) && (n in loads ==> loads[n].summary.Some?)
  }

  lemma JournalGrows(loads: map<nat, LoadRecord>, past: seq<Moment>, next: Moment, record: LoadRecord)
    requires JournalHolds(loads, past) && past != [] && record.summary.Some?
    ensures JournalHolds(loads[next.loadId := record], past + [next])
  {
    var longer := past + [next];
    forall n ensures IsLoad(longer, n) <==> IsLoad(past, n) || n == next.loadId {
      if IsLoad(past, n) {
        LoadsStay(past, next, n);
      }
      if n == next.loadId {
        assert longer[|past|].loadId == n;
      }
      if k :| 0 < k < |longer| && longer[k].loadId == n {
        assert k == |past| || past[k].loadId == n;
      }
    }
  }

  /** No changed episode takes a number that a later changed one still holds. */
  ghost predicate Savable(roots: map<Id, EpisodeRoot>, entities: EntityMap, package: KnowledgeSet) {
    NoHandover(roots, GroupOf(ChangedEntities(ChangesOf(entities, EntitiesOf(package)))).episodes)
  }

  /** What the tables of a store stand for: a knowledge set, the same as a map of entities, and its log. */
  datatype Content = Content(knowledge: Knowledge, entities: EntityMap, log: Log, past: seq<Moment>)

  ghost predicate Fit(x: Knowledge) {
    Consistent(x) && Validated(x)
  }

  datatype Part = Entities | Rules | Histories | Journal

  ghost predicate HoldsPart(
    part: Part, db: Tables, revisions: set<RevisionRow>, loads: map<nat, LoadRecord>, v: Content)
  {
    match part
    case Entities => Represents(db, v.knowledge) && Keyed(v.entities) && v.knowledge == KnowledgeFrom(v.entities)
    case Rules => v.knowledge.Keyed() && Fit(v.knowledge)
    case Histories => HoldsLog(revisions, v.log) && LogInvariant(v.entities, v.log, v.past)
    case Journal => JournalHolds(loads, v.past)
  }

  ghost predicate HoldsContent(db: Tables, revisions: set<RevisionRow>, loads: map<nat, LoadRecord>, v: Content) {
    v.past != [] && forall part :: HoldsPart(part, db, revisions, loads, v)
  }

  /** The tables hold the content, and no committed load has an id that was not drawn yet. */
  ghost predicate Stored(
    db: Tables, revisions: set<RevisionRow>, loads: map<nat, LoadRecord>, drawn: nat, v: Content)
  {
    HoldsContent(db, revisions, loads, v) && Latest(v.past).loadId <= drawn
  }

  /** The content once load `loadId` of a package is committed: one more revision of each changed entity. */
  ghost function After(v: Content, package: KnowledgeSet, loadId: nat): Content {
    var merged := v.entities + RefMap(EntitiesOf(package));
    var changes := ChangesOf(v.entities, EntitiesOf(package));
    Content(
      Merged(v.knowledge, KnowledgeOf(package)), merged, map r | r in merged ::
        RevisionsAfter(v.log, loadId, changes, r),
      v.past + [Moment(loadId, merged)])
  }

  ghost predicate Follows(v: Content, w: Content, package: KnowledgeSet, loadId: nat) {
    w == After(v, package, loadId)
  }

  lemma NextLog(v: Content, w: Content, package: KnowledgeSet, loadId: nat)
    requires Keyed(v.entities) && LogInvariant(v.entities, v.log, v.past) && UniqueIds(package)
    requires Latest(v.past).loadId < loadId && Follows(v, w, package, loadId)
    ensures LogInvariant(w.entities, w.log, w.past)
    ensures var changes := ChangesOf(v.entities, EntitiesOf(package));
      forall r :: RevisionsOf(w.log, r) == RevisionsAfter(v.log, loadId, changes, r)
  {
    var es := EntitiesOf(package);
    var changes := ChangesOf(v.entities, es);
    EntitiesApart(package);
    forall r ensures Lookup(w.entities, r) == EntityAfter(v.entities, changes, r) {
      ChangesApply(v.entities, es, r);
    }
    forall r ensures RevisionsOf(w.log, r) == RevisionsAfter(v.log, loadId, changes, r) {
      assert Lookup(w.entities, r) == EntityAfter(v.entities, changes, r);
      assert r !in w.entities ==> r !in v.entities && r !in v.log && FindChange(changes, r).None?;
    }
    CommitKeepsLog(v.entities, v.log, v.past, loadId, package, w.entities, w.log);
  }

  lemma MergedEntities(v: Content, w: Content, package: KnowledgeSet, loadId: nat)
    requires Keyed(v.entities) && v.knowledge == KnowledgeFrom(v.entities) && UniqueIds(package)
    requires Follows(v, w, package, loadId)
    ensures Keyed(w.entities) && w.knowledge == KnowledgeFrom(w.entities)
  {
    RefMapMembers(EntitiesOf(package));
    CommitMerges(v.entities, package);
  }

  lemma EntitiesContinue(
    db: Tables, db': Tables, rows: set<RevisionRow>, rows': set<RevisionRow>, loads: map<nat, LoadRecord>,
    loads': map<nat, LoadRecord>, v: Content, w: Content, package: KnowledgeSet, loadId: nat)
    requires HoldsPart(Entities, db, rows, loads, v) && UniqueIds(package) && Follows(v, w, package, loadId)
    requires Represents(db', Merged(v.knowledge, KnowledgeOf(package)))
    ensures HoldsPart(Entities, db', rows', loads', w)
  {
    MergedEntities(v, w, package, loadId);
  }

  lemma RulesContinue(
    db: Tables, db': Tables, rows: set<RevisionRow>, rows': set<RevisionRow>, loads: map<nat, LoadRecord>,
    loads': map<nat, LoadRecord>, v: Content, w: Content, package: KnowledgeSet, loadId: nat)
    requires HoldsPart(Rules, db, rows, loads, v) && Follows(v, w, package, loadId)
    requires Fit(Merged(v.knowledge, KnowledgeOf(package)))
    ensures HoldsPart(Rules, db', rows', loads', w)
  {
    MergedKeyed(v.knowledge, KnowledgeOf(package));
  }

  lemma RowsOfLog(rows: set<RevisionRow>, log: Log, log': Log, loadId: nat, changes: seq<Change>)
    requires forall r :: RevisionsOf(log', r) == RevisionsAfter(log, loadId, changes, r)
    requires forall row :: row in rows <==> row.revision in RevisionsAfter(log, loadId, changes, row.ref)
    ensures HoldsLog(rows, log')
  {
    forall row ensures row in rows <==> row.revision in RevisionsOf(log', row.ref) {
      assert RevisionsOf(log', row.ref) == RevisionsAfter(log, loadId, changes, row.ref);
    }
  }

  lemma HistoriesContinue(
    db: Tables, db': Tables, rows: set<RevisionRow>, rows': set<RevisionRow>, loads: map<nat, LoadRecord>,
    loads': map<nat, LoadRecord>, v: Content, w: Content, package: KnowledgeSet, loadId: nat)
    requires HoldsPart(Histories, db, rows, loads, v) && Keyed(v.entities) && UniqueIds(package)
    requires Latest(v.past).loadId < loadId && Follows(v, w, package, loadId)
    requires forall row :: row in rows' <==>
      row.revision in RevisionsAfter(v.log, loadId, ChangesOf(v.entities, EntitiesOf(package)), row.ref)
    ensures HoldsPart(Histories, db', rows', loads', w)
  {
    NextLog(v, w, package, loadId);
    RowsOfLog(rows', v.log, w.log, loadId, ChangesOf(v.entities, EntitiesOf(package)));
  }

  lemma JournalContinues(
    db: Tables, db': Tables, rows: set<RevisionRow>, rows': set<RevisionRow>, loads: map<nat, LoadRecord>,
    record: LoadRecord, v: Content, w: Content, package: KnowledgeSet, loadId: nat)
    requires HoldsPart(Journal, db, rows, loads, v) && v.past != [] && record.summary.Some?
    requires Follows(v, w, package, loadId)
    ensures w.past != [] && HoldsPart(Journal, db', rows', loads[loadId := record], w)
  {
    JournalGrows(loads, v.past, Latest(w.past), record);
  }

  /** The tables after a load: those of the merged set, and a row for it and for each of its revisions. */
  lemma ContentContinues(
    db: Tables, db': Tables, rows: set<RevisionRow>, rows': set<RevisionRow>, loads: map<nat, LoadRecord>,
    record: LoadRecord, v: Content, w: Content, package: KnowledgeSet, loadId: nat)
    requires HoldsContent(db, rows, loads, v) && UniqueIds(package) && Follows(v, w, package, loadId)
    requires Latest(v.past).loadId < loadId && record.summary.Some?
    requires Represents(db', Merged(v.knowledge, KnowledgeOf(package)))
    requires Fit(Merged(v.knowledge, KnowledgeOf(package)))
    requires forall row :: row in rows' <==>
      row.revision in RevisionsAfter(v.log, loadId, ChangesOf(v.entities, EntitiesOf(package)), row.ref)
    ensures Stored(db', rows', loads[loadId := record], loadId, w)
  {
    var loads' := loads[loadId := record];
    assert HoldsPart(Entities, db, rows, loads, v) && HoldsPart(Rules, db, rows, loads, v);
    assert HoldsPart(Histories, db, rows, loads, v) && HoldsPart(Journal, db, rows, loads, v);
    JournalContinues(db, db', rows, rows', loads, record, v, w, package, loadId);
    forall part ensures HoldsPart(part, db', rows', loads', w) {
      match part
      case Entities => EntitiesContinue(db, db', rows, rows', loads, loads', v, w, package, loadId);
      case Rules => RulesContinue(db, db', rows, rows', loads, loads', v, w, package, loadId);
      case Histories => HistoriesContinue(db, db', rows, rows', loads, loads', v, w, package, loadId);
      case Journal =>
    }
  }

  /** Writes the changes, if there are any; the tables then hold the merged set, or are as before. */
  method SaveChanges(
    c: Connection, changes: seq<Change>, package: KnowledgeSet, ghost x: Knowledge, ghost entities: EntityMap)
    returns (saved: bool)
    requires c.Sound() && c.Fresh() && Represents(c.db, x) && x.Keyed() && Fit(x)
    requires Keyed(entities) && x == KnowledgeFrom(entities)
    requires UniqueIds(package) && changes == ChangesOf(entities, EntitiesOf(package))
    requires Fit(Merged(x, KnowledgeOf(package)))
    modifies c
    ensures c.Sound()
    ensures saved <==> Savable(old(c.db.episodes.roots), entities, package)
    ensures if saved then c.Ran() else c.RolledBack()
    ensures saved ==> Represents(c.db, Merged(x, KnowledgeOf(package)))
  {
    if changes == [] {
      NothingChanged(entities, package);
      CommitMerges(entities, package);
      return true;
    }
    var changed := Group(ChangedEntities(changes));
    ChangedKnowledge(entities, package, changed);
    saved := Save(c, changed, x);
  }

  /** The statements of a load, committed unless the saving or the end of the transaction fails. */
  method Write(
    c: Connection, changes: seq<Change>, package: KnowledgeSet, fault: Fault, ghost x: Knowledge,
    ghost entities: EntityMap)
    returns (written: bool)
    requires c.Sound() && c.Fresh() && Represents(c.db, x) && x.Keyed() && Fit(x)
    requires Keyed(entities) && x == KnowledgeFrom(entities)
    requires UniqueIds(package) && changes == ChangesOf(entities, EntitiesOf(package))
    requires Fit(Merged(x, KnowledgeOf(package)))
    modifies c
    ensures c.Sound() && c.Fresh()
    ensures written <==>
      !(fault.AtSave? || fault.AtFinish?) && Savable(old(c.db.episodes.roots), entities, package)
    ensures written ==> Represents(c.db, Merged(x, KnowledgeOf(package)))
    ensures !written ==> c.db == old(c.db)
  {
    if fault.AtSave? {
      return false;
    }
    var before := c.db;
    written := SaveChanges(c, changes, package, x, entities);
    if written && fault.AtFinish? {
      c.Rollback();
      written := false;
    } else if written {
      c.Commit();
    }
  }

  /** Saves the changes of a load and adds its rows, or rolls everything back. */
  method WriteLoad(
    c: Connection, revisions: set<RevisionRow>, loads: map<nat, LoadRecord>, loadId: nat, changes: seq<Change>,
    package: KnowledgeSet, record: LoadRecord, fault: Fault, ghost v: Content)
    returns (written: bool, revisions': set<RevisionRow>, loads': map<nat, LoadRecord>, ghost w: Content)
    requires c.Sound() && c.Fresh() && HoldsContent(c.db, revisions, loads, v)
    requires Latest(v.past).loadId < loadId && record.summary.Some?
    requires UniqueIds(package) && changes == ChangesOf(v.entities, EntitiesOf(package))
    requires Fit(Merged(v.knowledge, KnowledgeOf(package)))
    modifies c
    ensures c.Sound() && c.Fresh()
    ensures written <==>
      !(fault.AtSave? || fault.AtFinish?) && Savable(old(c.db.episodes.roots), v.entities, package)
    ensures written ==> Stored(c.db, revisions', loads', loadId, w) && Follows(v, w, package, loadId)
    ensures written ==> loads' == loads[loadId := record]
    ensures !written ==> c.db == old(c.db)
  {
    ghost var before := c.db;
    revisions', loads', w := revisions, loads, v;
    assert HoldsPart(Entities, before, revisions, loads, v) && HoldsPart(Rules, before, revisions, loads, v);
    written := Write(c, changes, package, fault, v.knowledge, v.entities);
    if written {
      w := After(v, package, loadId);
      revisions' := AppendRows(before, revisions, loads, loadId, changes, package, v);
      loads' := loads[loadId := record];
      ContentContinues(before, c.db, revisions, revisions', loads, record, v, w, package, loadId);
    }
  }

  /** The rows of the revisions of a load, numbered from one query. */
  method AppendRows(
    ghost before: Tables, revisions: set<RevisionRow>, ghost loads: map<nat, LoadRecord>, loadId: nat,
    changes: seq<Change>, package: KnowledgeSet, ghost v: Content)
    returns (revisions': set<RevisionRow>)
    requires HoldsContent(before, revisions, loads, v)
    requires UniqueIds(package) && changes == ChangesOf(v.entities, EntitiesOf(package))
    ensures forall row :: row in revisions' <==> row.revision in RevisionsAfter(v.log, loadId, changes, row.ref)
  {
    assert HoldsPart(Histories, before, revisions, loads, v);
    LogIsNumbered(v.entities, v.log, v.past);
    PackageChangesApart(v.entities, package);
    revisions' := AppendRevisions(revisions, loadId, changes, v.log);
  }

  const NO_TABLES := Tables(map[], map[], NO_CHARACTER_ROWS, NO_PLACE_ROWS, NO_PLACE_ROWS, NO_EPISODE_ROWS)

  /** The content of the tables as the migrations leave them. */
  ghost function Blank(): Content {
    Content(NOTHING, map[], map[], Beginning())
  }

  lemma BlankTables()
    ensures Represents(NO_TABLES, NOTHING) && NOTHING.Keyed() && Validated(NOTHING)
  {
  }

  lemma BlankHeld(part: Part)
    ensures HoldsPart(part, NO_TABLES, {}, map[], Blank()) && Fit(NOTHING)
  {
    BlankTables();
    EmptyIsValid(map[], map[], map[], Beginning());
  }

  lemma BlankStored()
    ensures Stored(NO_TABLES, {}, map[], 0, Blank())
    ensures Lawful(NO_TABLES)
  {
    forall part ensures HoldsPart(part, NO_TABLES, {}, map[], Blank()) {
      BlankHeld(part);
    }
    BlankTables();
    BlankHeld(Rules);
    ConsistentSatisfiesSchema(NO_TABLES, NOTHING);
  }

  class PostgresStore {
    const connection: Connection
    var revisions: set<RevisionRow>
    var loads: map<nat, LoadRecord>
    /** The identity of `rag_loads`: the last id drawn. A load that is rolled back does not give its id back. */
    var drawn: nat
    ghost var content: Content

    ghost predicate Valid()
      reads this, connection
    {
      && connection.Sound() && connection.Fresh()
      && Stored(connection.db, revisions, loads, drawn, content)
    }

    /** The tables as the migrations leave them. */
    constructor ()
      ensures Valid() && fresh(connection) && content == Blank() && drawn == 0
    {
      BlankStored();
      connection := new Connection(NO_TABLES);
      revisions, loads, drawn := {}, map[], 0;
      content := Blank();
    }

    /** The store is as it was, but for ids drawn in vain. */
    twostate predicate Untouched()
      reads this, connection
    {
      connection.db == old(connection.db) && unchanged(`revisions, `loads, `content) && old(drawn) <= drawn
    }

    /**
     `load_package` over PostgreSQL: it commits exactly if the package is readable, no fault occurs, the clock did
     not go back, the merged set is consistent and no changed episode takes a number that a later changed one holds.
     */
    method Load(
      package: KnowledgeSet, unverified: set<EntityRef>, readable: bool, startedAt: int, finishedAt: int, fault: Fault)
      returns (report: LoadReport)
      requires Valid() && UniqueIds(package) && Validated(KnowledgeOf(package))
      modifies this, connection
      ensures Valid()
      ensures report.Loaded? <==>
        && readable && fault.NoFault? && startedAt <= finishedAt
        && Consistent(Merged(old(content.knowledge), KnowledgeOf(package)))
        && Savable(old(connection.db.episodes.roots), old(content.entities), package)
      ensures !report.Loaded? ==> Untouched()
      ensures report.PackageRejected? ==> ExactlyFlagged(report.violations, KnowledgeOf(package), false, unverified)
      ensures report.SetRejected? ==>
        ExactlyFlagged(report.violations, Merged(old(content.knowledge), KnowledgeOf(package)), true, {})
      ensures report.Loaded? ==>
        && drawn == old(drawn) + 1 && Follows(old(content), content, package, drawn)
        && Says(old(content.entities), drawn, package, report)
        && loads == old(loads)[drawn := RecordOf(startedAt, finishedAt, report)]
    {
      var violations, _ := CheckIntegrity(package, false, unverified);
      if readable && violations == [] {
        report := LoadChecked(package, startedAt, finishedAt, fault);
      } else {
        if violations != [] {
          assert HoldsPart(Rules, connection.db, revisions, loads, content);
          RejectedAlone(content.knowledge, KnowledgeOf(package), unverified, violations);
        }
        report := PackageRejected(violations);
      }
    }

    /** The transaction. */
    method LoadChecked(package: KnowledgeSet, startedAt: int, finishedAt: int, fault: Fault)
      returns (report: LoadReport)
      requires Valid() && UniqueIds(package) && Validated(KnowledgeOf(package))
      modifies this, connection
      ensures Valid() && !report.PackageRejected?
      ensures report.Loaded? <==>
        && fault.NoFault? && startedAt <= finishedAt
        && Consistent(Merged(old(content.knowledge), KnowledgeOf(package)))
        && Savable(old(connection.db.episodes.roots), old(content.entities), package)
      ensures !report.Loaded? ==> Untouched()
      ensures report.SetRejected? ==>
        ExactlyFlagged(report.violations, Merged(old(content.knowledge), KnowledgeOf(package)), true, {})
      ensures report.Loaded? ==>
        && drawn == old(drawn) + 1 && Follows(old(content), content, package, drawn)
        && Says(old(content.entities), drawn, package, report)
        && loads == old(loads)[drawn := RecordOf(startedAt, finishedAt, report)]
    {
      if fault.AtRead? {
        return StoreFailed;
      }
      var conflicts, changes, counts, entityCount := Prepare(package);
      if conflicts != [] {
        return SetRejected(conflicts);
      }
      report := Conclude(changes, counts, entityCount, package, startedAt, finishedAt, fault);
    }

    /** The half of the transaction that runs once the merged set passed the check. */
    method Conclude(
      changes: seq<Change>, counts: map<EntityKind, Counts>, entityCount: nat, package: KnowledgeSet,
      startedAt: int, finishedAt: int, fault: Fault)
      returns (report: LoadReport)
      requires Valid() && UniqueIds(package) && changes == ChangesOf(content.entities, EntitiesOf(package))
      requires Tallied(content.entities, package, counts, entityCount)
      requires Fit(Merged(content.knowledge, KnowledgeOf(package)))
      modifies this, connection
      ensures Valid() && (report.Loaded? || report.StoreFailed?)
      ensures report.Loaded? <==>
        && !(fault.AtStart? || fault.AtSave? || fault.AtFinish?) && startedAt <= finishedAt
        && Savable(old(connection.db.episodes.roots), old(content.entities), package)
      ensures !report.Loaded? ==> Untouched()
      ensures report.Loaded? ==>
        && drawn == old(drawn) + 1 && Follows(old(content), content, package, drawn)
        && Says(old(content.entities), drawn, package, report)
        && loads == old(loads)[drawn := RecordOf(startedAt, finishedAt, report)]
    {
      if fault.AtStart? {
        return StoreFailed;
      }
      report := Loaded(drawn + 1, counts, entityCount);
      // The row of a load that finishes before it started is refused.
      var failure := if finishedAt < startedAt && !fault.AtSave? then AtFinish else fault;
      var written := Commit(changes, package, RecordOf(startedAt, finishedAt, report), failure);
      if !written {
        report := StoreFailed;
      }
    }

    /** The reading half of the transaction. */
    method Prepare(package: KnowledgeSet)
      returns (conflicts: seq<Violation>, changes: seq<Change>, counts: map<EntityKind, Counts>, entityCount: nat)
      requires Valid() && UniqueIds(package) && Validated(KnowledgeOf(package))
      ensures ExactlyFlagged(conflicts, Merged(content.knowledge, KnowledgeOf(package)), true, {})
      ensures conflicts == [] <==> Consistent(Merged(content.knowledge, KnowledgeOf(package)))
      ensures conflicts == [] ==> Fit(Merged(content.knowledge, KnowledgeOf(package)))
      ensures changes == ChangesOf(content.entities, EntitiesOf(package))
      ensures Tallied(content.entities, package, counts, entityCount)
    {
      assert HoldsPart(Entities, connection.db, revisions, loads, content);
      var current := ReadStored(connection.db, content.knowledge, content.entities);
      conflicts, changes, counts, entityCount := Plan(current, package, content.knowledge, content.entities);
      assert HoldsPart(Rules, connection.db, revisions, loads, content);
      ValidatedMerge(content.knowledge, KnowledgeOf(package));
    }

    /** The committed rows are those of the store from now on. */
    method Keep(rows: set<RevisionRow>, table: map<nat, LoadRecord>, package: KnowledgeSet, ghost next: Content)
      requires connection.Sound() && connection.Fresh() && Stored(connection.db, rows, table, drawn, next)
      requires Follows(content, next, package, drawn)
      modifies this`revisions, this`loads, this`content
      ensures Valid() && Follows(old(content), content, package, drawn) && loads == table
    {
      revisions, loads, content := rows, table, next;
    }

    /** The writing half, under the next id of the identity. */
    method Commit(changes: seq<Change>, package: KnowledgeSet, record: LoadRecord, fault: Fault) returns (written: bool)
      requires Valid() && record.summary.Some?
      requires UniqueIds(package) && changes == ChangesOf(content.entities, EntitiesOf(package))
      requires Fit(Merged(content.knowledge, KnowledgeOf(package)))
      modifies this, connection
      ensures Valid() && drawn == old(drawn) + 1
      ensures written <==>
        && !(fault.AtSave? || fault.AtFinish?)
        && Savable(old(connection.db.episodes.roots), old(content.entities), package)
      ensures if written then Follows(old(content), content, package, drawn) else Untouched()
      ensures written ==> loads == old(loads)[drawn := record]
    {
      drawn := drawn + 1;
      var rows, table;
      ghost var next;
      written, rows, table, next := WriteLoad(
        connection, revisions, loads, drawn, changes, package, record, fault, content);
      if written {
        Keep(rows, table, package, next);
      }
    }
  }

  method ReadStored(db: Tables, ghost x: Knowledge, ghost entities: EntityMap) returns (current: KnowledgeSet)
    requires Represents(db, x) && Keyed(entities) && x == KnowledgeFrom(entities)
    ensures UniqueIds(current) && RefMap(EntitiesOf(current)) == entities && KnowledgeOf(current) == x
  {
    KnowledgeFromKeyed(entities);
    var read := ReadAll(db, x);
    current := read.value;
    ReadBack(entities, current);
  }
}
