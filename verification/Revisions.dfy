/** `_append_revisions`: numbering a whole batch from one query of the latest revisions. */
module Revisions {
  import opened Models
  import opened Entities
  import opened Loads

  datatype RevisionRow = RevisionRow(ref: EntityRef, revision: Revision)

  /** The table holds exactly the revisions of the log. */
  ghost predicate HoldsLog(rows: set<RevisionRow>, log: Log) {
    forall row :: row in rows <==> row.revision in RevisionsOf(log, row.ref)
  }

  ghost predicate Numbered(revisions: seq<Revision>) {
    forall i :: 0 <= i < |revisions| ==> revisions[i].number == i + 1
  }

  /** The greatest revision number stored for an entity, 0 if it has none. */
  method LatestNumber(rows: set<RevisionRow>, ref: EntityRef, ghost log: Log) returns (latest: nat)
    requires HoldsLog(rows, log) && Numbered(RevisionsOf(log, ref))
    ensures latest == |RevisionsOf(log, ref)|
  {
    latest := 0;
    ghost var history := RevisionsOf(log, ref);
    var rest := set row | row in rows && row.ref == ref;
    while rest != {}
      invariant rest <= (set row | row in rows && row.ref == ref)
      invariant latest <= |history|
      invariant forall row :: row in rows && row.ref == ref && row !in rest ==> row.revision.number <= latest
    {
      var row :| row in rest;
      rest := rest - {row};
      assert row.revision in history;
      if row.revision.number > latest {
        latest := row.revision.number;
      }
    }
    if history != [] {
      assert history[|history| - 1] in history;
      assert RevisionRow(ref, history[|history| - 1]) in rows;
    }
  }

  /**
   Numbers are all read before any row is written, yet the table ends up holding what
   appending the changes one after another gives.
   */
  method AppendRevisions(rows: set<RevisionRow>, loadId: nat, changes: seq<Change>, ghost log: Log)
    returns (rows': set<RevisionRow>)
    requires HoldsLog(rows, log) && DistinctChanges(changes)
    requires forall r :: Numbered(RevisionsOf(log, r))
    ensures forall row :: row in rows' <==> row.revision in RevisionsAfter(log, loadId, changes, row.ref)
  {
    rows' := rows;
    for i := 0 to |changes|
      invariant forall row :: row in rows' <==> row.revision in RevisionsAfter(log, loadId, changes[..i], row.ref)
    {
      var c := changes[i];
      var ref := c.entity.Ref();
      var latest := LatestNumber(rows, ref, log);
      var added := RevisionRow(ref, Revision(latest + 1, c.operation, loadId, c.entity));
      assert changes[..i + 1][..i] == changes[..i];
      FindChangeFinds(changes[..i], ref);
      forall row: RevisionRow
        ensures row.revision in RevisionsAfter(log, loadId, changes[..i + 1], row.ref) <==>
          row == added || row.revision in RevisionsAfter(log, loadId, changes[..i], row.ref)
      {
      }
      rows' := rows' + {added};
    }
    assert changes[..|changes|] == changes;
  }

  /** Entities equal to the stored ones are not written again. */
  lemma {:induction false} ReloadChangesNothing(stored: EntityMap, es: seq<Entity>)
    requires forall e :: e in es ==> e.Ref() in stored && stored[e.Ref()] == e
    ensures ChangesOf(stored, es) == []
  {
    if es != [] {
      assert forall e :: e in es[..|es| - 1] ==> e in es;
      ReloadChangesNothing(stored, es[..|es| - 1]);
    }
  }

  /** Loading the package that was just loaded changes nothing, so it adds no revision. */
  lemma ReloadAddsNoRevision(stored: EntityMap, es: seq<Entity>)
    requires DistinctRefs(es)
    ensures ChangesOf(stored + RefMap(es), es) == []
  {
    forall e | e in es ensures e.Ref() in stored + RefMap(es) && (stored + RefMap(es))[e.Ref()] == e {
      RefMapFinds(es, e);
    }
    ReloadChangesNothing(stored + RefMap(es), es);
  }
}
