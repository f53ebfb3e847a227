/** `save` as a whole, and when it succeeds. */
module PostgresSave {
  import opened Ordering
  import opened Wrappers
  import opened Models
  import opened IntegrityRules
  import opened IntegrityTheorems
  import opened Tables
  import opened Schema
  import opened Postgres

  lemma OneRootUpserted<V(!new), R>(roots: map<Id, R>, m: map<Id, V>, key: Id, value: V, root: V -> R)
    requires HoldsRoots(roots, m, root)
    ensures HoldsRoots(roots[key := root(value)], m[key := value], root)
  {
  }

  lemma RootUpserted<V(!new), R>(roots: map<Id, R>, m: map<Id, V>, items: seq<V>, id: V -> Id, root: V -> R, n: nat)
    requires Distinct(items, id) && n < |items| && HoldsRoots(roots, m + ById(items[..n], id), root)
    ensures HoldsRoots(roots[id(items[n]) := root(items[n])], m + ById(items[..n + 1], id), root)
  {
    IndexGrows(items, id, n);
    OneRootUpserted(roots, m + ById(items[..n], id), id(items[n]), items[n], root);
    assert m + ById(items[..n + 1], id) == (m + ById(items[..n], id))[id(items[n]) := items[n]];
  }

  // ---------------------------------------------------------------- UNIQUE (work, season, number)

  /**
   No upserted episode takes a number that an episode upserted after it still holds.
   It can be checked against the stored episodes before saving.
   */
  ghost predicate NoHandover(roots: map<Id, EpisodeRoot>, items: seq<Episode>) {
    forall i, j :: 0 <= i < j < |items| && items[j].id in roots ==>
      NumberOf(roots[items[j].id]) != NumberOf(EpisodeRootOf(items[i]))
  }

  predicate NumberTaken(roots: map<Id, EpisodeRoot>, e: Episode) {
    exists o :: o in roots && o != e.id && NumberOf(roots[o]) == NumberOf(EpisodeRootOf(e))
  }

  /** The stored episodes with the first `n` of the changed ones upserted. */
  function Upserted(m: map<Id, Episode>, items: seq<Episode>, n: nat): map<Id, Episode>
    requires n <= |items|
  {
    m + ById(items[..n], EpisodeId)
  }

  lemma UpsertedFinds(m: map<Id, Episode>, items: seq<Episode>, n: nat, o: Id)
    requires Distinct(items, EpisodeId) && n <= |items|
    ensures o in Upserted(m, items, n) <==> o in m || exists i :: 0 <= i < n && items[i].id == o
    ensures forall i ::
      0 <= i < n && items[i].id == o ==> o in Upserted(m, items, n) && Upserted(m, items, n)[o] == items[i]
    ensures o in m && (forall i :: 0 <= i < n ==> items[i].id != o) ==>
      o in Upserted(m, items, n) && Upserted(m, items, n)[o] == m[o]
  {
    var index := ById(items[..n], EpisodeId);
    ByIdMembers(items[..n], EpisodeId);
    forall i | 0 <= i < n && items[i].id == o ensures o in index && index[o] == items[i] {
      assert items[i] == items[..n][i];
      ByIdFinds(items[..n], EpisodeId, items[i]);
    }
    if o in index {
      assert index[o] in items[..n] && index[o].id == o;
      var i :| 0 <= i < n && items[i] == index[o];
    }
  }

  /** Changed episode `j` is stored with the number that changed episode `n` is to have. */
  predicate Hands(m: map<Id, Episode>, items: seq<Episode>, n: nat, j: nat)
    requires n < |items| && j < |items|
  {
    items[j].id in m && SameNumber(m[items[j].id], items[n])
  }

  ghost predicate NumbersDiffer(m: map<Id, Episode>) {
    forall a, b :: a in m && b in m && a != b ==> !SameNumber(m[a], m[b])
  }

  lemma CollisionHands(m: map<Id, Episode>, items: seq<Episode>, n: nat, o: Id)
    requires Distinct(items, EpisodeId) && n < |items| && NumbersDiffer(Upserted(m, items, |items|))
    requires o in Upserted(m, items, n) && o != items[n].id && SameNumber(Upserted(m, items, n)[o], items[n])
    ensures exists j: nat :: n < j < |items| && Hands(m, items, n, j)
  {
    var all := Upserted(m, items, |items|);
    UpsertedFinds(m, items, |items|, items[n].id);
    UpsertedFinds(m, items, n, o);
    UpsertedFinds(m, items, |items|, o);
    assert !SameNumber(all[o], all[items[n].id]);
    var j: nat :| j < |items| && items[j].id == o && n < j;
    assert Hands(m, items, n, j);
  }

  lemma HandsCollides(m: map<Id, Episode>, items: seq<Episode>, n: nat, j: nat)
    requires Distinct(items, EpisodeId) && n < j < |items| && Hands(m, items, n, j)
    ensures var o := items[j].id;
      o in Upserted(m, items, n) && o != items[n].id && SameNumber(Upserted(m, items, n)[o], items[n])
  {
    UpsertedFinds(m, items, n, items[j].id);
  }

  /** The next row collides exactly when a later changed episode still holds its number. */
  lemma CollisionIsHandover(m: map<Id, Episode>, items: seq<Episode>, n: nat, roots: map<Id, EpisodeRoot>)
    requires Distinct(items, EpisodeId) && n < |items| && NumbersDiffer(Upserted(m, items, |items|))
    requires HoldsRoots(roots, Upserted(m, items, n), EpisodeRootFn)
    ensures NumberTaken(roots, items[n]) <==> exists j: nat :: n < j < |items| && Hands(m, items, n, j)
  {
    var now := Upserted(m, items, n);
    if NumberTaken(roots, items[n]) {
      var o :| o in roots && o != items[n].id && NumberOf(roots[o]) == NumberOf(EpisodeRootOf(items[n]));
      assert roots[o] == EpisodeRootOf(now[o]);
      CollisionHands(m, items, n, o);
    }
    if j: nat :| n < j < |items| && Hands(m, items, n, j) {
      HandsCollides(m, items, n, j);
      assert roots[items[j].id] == EpisodeRootOf(now[items[j].id]);
    }
  }

  /** A later changed episode still holds the number of episode `n`. */
  ghost predicate LaterHands(m: map<Id, Episode>, items: seq<Episode>, n: nat)
    requires n < |items|
  {
    exists j: nat :: n < j < |items| && Hands(m, items, n, j)
  }

  lemma NothingUpserted(m: map<Id, Episode>, items: seq<Episode>)
    ensures Upserted(m, items, 0) == m
  {
  }

  lemma HandoverInRoots(m: map<Id, Episode>, items: seq<Episode>, roots: map<Id, EpisodeRoot>)
    requires HoldsRoots(roots, m, EpisodeRootFn)
    ensures NoHandover(roots, items) <==> forall i: nat :: i < |items| ==> !LaterHands(m, items, i)
  {
    forall i: nat, j: nat | i < j < |items|
      ensures Hands(m, items, i, j) <==>
        items[j].id in roots && NumberOf(roots[items[j].id]) == NumberOf(EpisodeRootOf(items[i]))
    {
      if items[j].id in m {
        assert roots[items[j].id] == EpisodeRootOf(m[items[j].id]);
      }
    }
    forall i: nat, j: nat | i < j < |items| && Hands(m, items, i, j) ensures LaterHands(m, items, i) {
    }
  }

  // ---------------------------------------------------------------- upserts, row by row

  method UpsertContinuities(c: Connection, items: seq<Continuity>, ghost m: map<Id, Continuity>)
    requires c.Sound() && Distinct(items, ContinuityId) && HoldsRoots(c.db.continuities, m, ContinuityRoot)
    modifies c
    ensures c.Sound() && c.Ran() && c.db == old(c.db).(continuities := c.db.continuities)
    ensures HoldsRoots(c.db.continuities, m + ById(items, ContinuityId), ContinuityRoot)
  {
    assert m + ById(items[..0], ContinuityId) == m;
    for n := 0 to |items|
      invariant c.Sound() && c.Ran() && c.db == old(c.db).(continuities := c.db.continuities)
      invariant HoldsRoots(c.db.continuities, m + ById(items[..n], ContinuityId), ContinuityRoot)
    {
      RootUpserted(c.db.continuities, m, items, ContinuityId, ContinuityRoot, n);
      var after := c.db.(continuities := c.db.continuities[items[n].id := items[n].name]);
      assert c.Keeps(LawfulNow);
      RootsGrow(c.db, after);
      c.Execute(after);
    }
    assert items[..|items|] == items;
  }

  method UpsertWorks(c: Connection, items: seq<Work>, ghost m: map<Id, Work>)
    requires c.Sound() && Distinct(items, WorkId) && HoldsRoots(c.db.works, m, WorkRootFn)
    requires forall w :: w in items ==> w.continuity in c.db.continuities
    modifies c
    ensures c.Sound() && c.Ran() && c.db == old(c.db).(works := c.db.works)
    ensures HoldsRoots(c.db.works, m + ById(items, WorkId), WorkRootFn)
  {
    assert m + ById(items[..0], WorkId) == m;
    for n := 0 to |items|
      invariant c.Sound() && c.Ran() && c.db == old(c.db).(works := c.db.works)
      invariant HoldsRoots(c.db.works, m + ById(items[..n], WorkId), WorkRootFn)
    {
      RootUpserted(c.db.works, m, items, WorkId, WorkRootFn, n);
      assert items[n] in items;
      var after := c.db.(works := c.db.works[items[n].id := WorkRootOf(items[n])]);
      assert c.Keeps(LawfulNow);
      RootsGrow(c.db, after);
      c.Execute(after);
    }
    assert items[..|items|] == items;
  }

  method UpsertCharacters(c: Connection, items: seq<Character>, ghost m: map<Id, Character>)
    requires c.Sound() && Distinct(items, CharacterId) && HoldsRoots(c.db.characters.roots, m, CharacterRootFn)
    modifies c
    ensures c.Sound() && c.Ran()
      && c.db == old(c.db).(characters := old(c.db.characters).(roots := c.db.characters.roots))
    ensures HoldsRoots(c.db.characters.roots, m + ById(items, CharacterId), CharacterRootFn)
  {
    assert m + ById(items[..0], CharacterId) == m;
    for n := 0 to |items|
      invariant c.Sound() && c.Ran()
        && c.db == old(c.db).(characters := old(c.db.characters).(roots := c.db.characters.roots))
      invariant HoldsRoots(c.db.characters.roots, m + ById(items[..n], CharacterId), CharacterRootFn)
    {
      RootUpserted(c.db.characters.roots, m, items, CharacterId, CharacterRootFn, n);
      var t := c.db.characters;
      var after := c.db.(characters := t.(roots := t.roots[items[n].id := CharacterRootOf(items[n])]));
      assert c.Keeps(LawfulNow);
      RootsGrow(c.db, after);
      c.Execute(after);
    }
    assert items[..|items|] == items;
  }

  method UpsertPlaces(c: Connection, kind: EntityKind, items: seq<Place>, ghost m: map<Id, Place>)
    requires c.Sound() && Distinct(items, PlaceId) && HoldsRoots(PlaceTablesOf(c.db, kind).roots, m, PlaceRootFn)
    modifies c
    ensures c.Sound() && c.Ran()
    ensures c.db ==
      WithPlaces(old(c.db), kind, PlaceTablesOf(old(c.db), kind).(roots := PlaceTablesOf(c.db, kind).roots))
    ensures HoldsRoots(PlaceTablesOf(c.db, kind).roots, m + ById(items, PlaceId), PlaceRootFn)
  {
    assert m + ById(items[..0], PlaceId) == m;
    for n := 0 to |items|
      invariant c.Sound() && c.Ran()
      invariant c.db ==
        WithPlaces(old(c.db), kind, PlaceTablesOf(old(c.db), kind).(roots := PlaceTablesOf(c.db, kind).roots))
      invariant HoldsRoots(PlaceTablesOf(c.db, kind).roots, m + ById(items[..n], PlaceId), PlaceRootFn)
    {
      var t := PlaceTablesOf(c.db, kind);
      RootUpserted(t.roots, m, items, PlaceId, PlaceRootFn, n);
      var after := WithPlaces(c.db, kind, t.(roots := t.roots[items[n].id := PlaceRootOf(items[n])]));
      assert c.Keeps(LawfulNow);
      RootsGrow(c.db, after);
      c.Execute(after);
    }
    assert items[..|items|] == items;
  }

  /** Stops at the first row that breaks `UNIQUE (work, season, number)`. */
  method UpsertEpisodes(c: Connection, items: seq<Episode>, ghost m: map<Id, Episode>) returns (ok: bool)
    requires c.Sound() && Distinct(items, EpisodeId) && HoldsRoots(c.db.episodes.roots, m, EpisodeRootFn)
    requires forall e :: e in items ==> e.work in c.db.works
    requires NumbersDiffer(Upserted(m, items, |items|))
    modifies c
    ensures c.Sound() && c.Ran() && c.db == old(c.db).(episodes := old(c.db.episodes).(roots := c.db.episodes.roots))
    ensures ok <==> NoHandover(old(c.db.episodes.roots), items)
    ensures ok ==> HoldsRoots(c.db.episodes.roots, Upserted(m, items, |items|), EpisodeRootFn)
  {
    HandoverInRoots(m, items, c.db.episodes.roots);
    NothingUpserted(m, items);
    ok := UpsertEach(c, items, m);
  }

  ghost predicate NoneHands(m: map<Id, Episode>, items: seq<Episode>, n: nat)
    requires n <= |items|
  {
    forall i: nat :: i < n ==> !LaterHands(m, items, i)
  }

  method UpsertEach(c: Connection, items: seq<Episode>, ghost m: map<Id, Episode>) returns (ok: bool)
    requires c.Sound() && Distinct(items, EpisodeId)
      && HoldsRoots(c.db.episodes.roots, Upserted(m, items, 0), EpisodeRootFn)
    requires forall e :: e in items ==> e.work in c.db.works
    requires NumbersDiffer(Upserted(m, items, |items|))
    modifies c
    ensures c.Sound() && c.Ran() && c.db == old(c.db).(episodes := old(c.db.episodes).(roots := c.db.episodes.roots))
    ensures ok <==> NoneHands(m, items, |items|)
    ensures ok ==> HoldsRoots(c.db.episodes.roots, Upserted(m, items, |items|), EpisodeRootFn)
  {
    ok := true;
    for n := 0 to |items|
      invariant c.Sound() && c.Ran()
        && c.db == old(c.db).(episodes := old(c.db.episodes).(roots := c.db.episodes.roots))
      invariant ok && HoldsRoots(c.db.episodes.roots, Upserted(m, items, n), EpisodeRootFn)
      invariant NoneHands(m, items, n)
    {
      assert items[n].work in c.db.works by { assert items[n] in items; }
      var taken := TryEpisode(c, items, n, m);
      NoneHandsNext(m, items, n);
      if taken {
        ok := false;
        break;
      }
    }
  }

  lemma NoneHandsNext(m: map<Id, Episode>, items: seq<Episode>, n: nat)
    requires n < |items|
    ensures NoneHands(m, items, n + 1) <==> NoneHands(m, items, n) && !LaterHands(m, items, n)
    ensures NoneHands(m, items, |items|) ==> !LaterHands(m, items, n)
  {
  }

  method TryEpisode(c: Connection, items: seq<Episode>, n: nat, ghost m: map<Id, Episode>) returns (taken: bool)
    requires c.Sound() && Distinct(items, EpisodeId) && n < |items| && items[n].work in c.db.works
    requires HoldsRoots(c.db.episodes.roots, Upserted(m, items, n), EpisodeRootFn)
    requires NumbersDiffer(Upserted(m, items, |items|))
    modifies c
    ensures c.Sound() && c.Ran() && c.db == old(c.db).(episodes := old(c.db.episodes).(roots := c.db.episodes.roots))
    ensures taken <==> LaterHands(m, items, n)
    ensures !taken ==> HoldsRoots(c.db.episodes.roots, Upserted(m, items, n + 1), EpisodeRootFn)
  {
    CollisionIsHandover(m, items, n, c.db.episodes.roots);
    taken := NumberTaken(c.db.episodes.roots, items[n]);
    if !taken {
      RootUpserted(c.db.episodes.roots, m, items, EpisodeId, EpisodeRootFn, n);
      UpsertEpisode(c, items[n]);
    }
  }

  method UpsertEpisode(c: Connection, e: Episode)
    requires c.Sound() && e.work in c.db.works && !NumberTaken(c.db.episodes.roots, e)
    modifies c
    ensures c.Sound() && c.Ran()
    ensures c.db ==
      old(c.db).(episodes := old(c.db.episodes).(roots := old(c.db.episodes.roots)[e.id := EpisodeRootOf(e)]))
  {
    var t := c.db.episodes;
    var after := c.db.(episodes := t.(roots := t.roots[e.id := EpisodeRootOf(e)]));
    assert c.Keeps(LawfulNow);
    RootsGrow(c.db, after);
    c.Execute(after);
  }

  // ---------------------------------------------------------------- the three phases

  ghost predicate RootsHold(t: Tables, x: Knowledge) {
    && HoldsRoots(t.continuities, x.continuities, ContinuityRoot) && HoldsRoots(t.works, x.works, WorkRootFn)
    && HoldsRoots(t.characters.roots, x.characters, CharacterRootFn)
    && HoldsRoots(t.locations.roots, x.locations, PlaceRootFn)
      && HoldsRoots(t.artifacts.roots, x.artifacts, PlaceRootFn)
    && HoldsRoots(t.episodes.roots, x.episodes, EpisodeRootFn)
  }

  ghost predicate ChildrenHold(
    t: Tables, e: map<Id, Episode>, c: map<Id, Character>, l: map<Id, Place>, a: map<Id, Place>)
  {
    && HoldsEpisodeLayers(t.episodes, EpisodeLayers(e, e, e, e))
    && HoldsLayers(t.characters, CharacterLayers(c, c, c, c, c))
    && HoldsPlaceLayers(t.locations, PlaceLayers(l, l, l))
    && HoldsPlaceLayers(t.artifacts, PlaceLayers(a, a, a))
  }

  lemma RepresentsParts(t: Tables, x: Knowledge)
    ensures Represents(t, x) <==> RootsHold(t, x) && ChildrenHold(t, x.episodes, x.characters, x.locations, x.artifacts)
  {
  }

  lemma RootKeys(t: Tables, x: Knowledge)
    requires RootsHold(t, x)
    ensures KeysOf(t) == KeysIn(x)
  {
  }

  ghost predicate SetSound(x: Knowledge, keys: Keys) {
    && CharactersSound(x.characters, keys) && EpisodesSound(x.episodes, keys)
    && PlacesSound(x.locations, keys) && PlacesSound(x.artifacts, keys)
  }

  /** Child rows of every changed aggregate go first. */
  method DeleteChildren(c: Connection, changed: KnowledgeSet, ghost x: Knowledge)
    requires c.Sound() && RootsHold(c.db, x) && ChildrenHold(c.db, x.episodes, x.characters, x.locations, x.artifacts)
    requires SetSound(x, KeysIn(x))
    modifies c
    ensures c.Sound() && c.Ran() && RootsHold(c.db, x)
    ensures var y := KnowledgeOf(changed);
      ChildrenHold(c.db, x.episodes - y.episodes.Keys, x.characters - y.characters.Keys,
                   x.locations - y.locations.Keys, x.artifacts - y.artifacts.Keys)
  {
    RootKeys(c.db, x);
    c.DeleteEpisodeChildren(ById(changed.episodes, EpisodeId).Keys, x.episodes);
    c.DeleteCharacterChildren(ById(changed.characters, CharacterId).Keys, x.characters);
    c.DeletePlaceChildren(LocationKind, ById(changed.locations, PlaceId).Keys, x.locations);
    c.DeletePlaceChildren(ArtifactKind, ById(changed.artifacts, PlaceId).Keys, x.artifacts);
  }

  /** Roots in the order of the mappers: what an aggregate refers to is written before it. */
  method UpsertRoots(c: Connection, changed: KnowledgeSet, ghost x: Knowledge) returns (ok: bool)
    requires c.Sound() && RootsHold(c.db, x) && UniqueIds(changed)
    requires var z := Merged(x, KnowledgeOf(changed));
      && (forall w :: w in changed.works ==> w.continuity in z.continuities)
      && (forall e :: e in changed.episodes ==> e.work in z.works)
      && NumbersDiffer(z.episodes)
    modifies c
    ensures c.Sound() && c.Ran()
    ensures ok <==> NoHandover(old(c.db.episodes.roots), changed.episodes)
    ensures ok ==> RootsHold(c.db, Merged(x, KnowledgeOf(changed)))
    ensures SameChildren(old(c.db), c.db)
  {
    UpsertOtherRoots(c, changed, x);
    ok := UpsertLastRoots(c, changed, x);
  }

  method UpsertLastRoots(c: Connection, changed: KnowledgeSet, ghost x: Knowledge) returns (ok: bool)
    requires c.Sound() && UniqueIds(changed)
      && RootsHold(c.db, Merged(x, KnowledgeOf(changed)).(episodes := x.episodes))
    requires forall e :: e in changed.episodes ==> e.work in Merged(x, KnowledgeOf(changed)).works
    requires NumbersDiffer(Merged(x, KnowledgeOf(changed)).episodes)
    modifies c
    ensures c.Sound() && c.Ran()
    ensures ok <==> NoHandover(old(c.db.episodes.roots), changed.episodes)
    ensures ok ==> RootsHold(c.db, Merged(x, KnowledgeOf(changed)))
    ensures SameChildren(old(c.db), c.db)
  {
    assert changed.episodes[..|changed.episodes|] == changed.episodes;
    ok := UpsertEpisodes(c, changed.episodes, x.episodes);
  }

  method UpsertOtherRoots(c: Connection, changed: KnowledgeSet, ghost x: Knowledge)
    requires c.Sound() && RootsHold(c.db, x) && UniqueIds(changed)
    requires forall w :: w in changed.works ==> w.continuity in Merged(x, KnowledgeOf(changed)).continuities
    modifies c
    ensures c.Sound() && c.Ran() && c.db.episodes == old(c.db.episodes)
    ensures RootsHold(c.db, Merged(x, KnowledgeOf(changed)).(episodes := x.episodes))
    ensures SameChildren(old(c.db), c.db)
  {
    UpsertContinuities(c, changed.continuities, x.continuities);
    UpsertWorks(c, changed.works, x.works);
    UpsertCharacters(c, changed.characters, x.characters);
    UpsertPlaces(c, LocationKind, changed.locations, x.locations);
    UpsertPlaces(c, ArtifactKind, changed.artifacts, x.artifacts);
  }

  ghost predicate SameChildren(before: Tables, after: Tables) {
    && after.characters.(roots := before.characters.roots) == before.characters
    && after.locations.(roots := before.locations.roots) == before.locations
    && after.artifacts.(roots := before.artifacts.roots) == before.artifacts
    && after.episodes.(roots := before.episodes.roots) == before.episodes
  }

  method InsertChildren(c: Connection, changed: KnowledgeSet, ghost x: Knowledge)
    requires c.Sound() && UniqueIds(changed)
    requires var y := KnowledgeOf(changed);
      && RootsHold(c.db, Merged(x, y)) && SetSound(Merged(x, y), KeysIn(Merged(x, y)))
      && ChildrenHold(c.db, x.episodes - y.episodes.Keys, x.characters - y.characters.Keys,
                      x.locations - y.locations.Keys, x.artifacts - y.artifacts.Keys)
    modifies c
    ensures c.Sound() && c.Ran() && RootsHold(c.db, Merged(x, KnowledgeOf(changed)))
    ensures var z := Merged(x, KnowledgeOf(changed));
      ChildrenHold(c.db, z.episodes, z.characters, z.locations, z.artifacts)
  {
    ghost var y := KnowledgeOf(changed);
    RootKeys(c.db, Merged(x, y));
    var characters := CharacterRows(changed.characters);
    c.InsertCharacterChildren(characters, x.characters, y.characters);
    var locations := PlaceRows(changed.locations);
    c.InsertPlaceChildren(LocationKind, locations, x.locations, y.locations);
    var artifacts := PlaceRows(changed.artifacts);
    c.InsertPlaceChildren(ArtifactKind, artifacts, x.artifacts, y.artifacts);
    var episodes := EpisodeRows(changed.episodes);
    c.InsertEpisodeChildren(episodes, x.episodes, y.episodes);
  }

  lemma ReadyToUpsert(x: Knowledge, changed: KnowledgeSet)
    requires UniqueIds(changed) && x.Keyed() && Consistent(Merged(x, KnowledgeOf(changed)))
    ensures var z := Merged(x, KnowledgeOf(changed));
      && (forall w :: w in changed.works ==> w.continuity in z.continuities)
      && (forall e :: e in changed.episodes ==> e.work in z.works)
      && NumbersDiffer(z.episodes)
  {
    var z := Merged(x, KnowledgeOf(changed));
    RulesOneByOne(z);
    forall w | w in changed.works ensures w.continuity in z.continuities {
      ByIdFinds(changed.works, WorkId, w);
      assert w.id in z.works && z.works[w.id] == w;
    }
    forall e | e in changed.episodes ensures e.work in z.works {
      ByIdFinds(changed.episodes, EpisodeId, e);
      assert e.id in z.episodes && EpisodeClosed(z, z.episodes[e.id]);
    }
  }

  lemma SoundSet(x: Knowledge)
    requires x.Keyed() && Consistent(x) && Validated(x)
    ensures SetSound(x, KeysIn(x))
  {
    ConsistentIsSound(x);
  }

  /**
   `save` between two consistent sets: the tables then hold exactly the merged set, and
   every key and foreign key held after every statement, each of which wrote one table.
   It fails, and is rolled back, exactly when an episode takes a number that a later changed episode still holds.
   */
  method Save(c: Connection, changed: KnowledgeSet, ghost x: Knowledge) returns (ok: bool)
    requires c.Sound() && c.Fresh() && Represents(c.db, x) && UniqueIds(changed)
    requires x.Keyed() && Consistent(x) && Validated(x)
    requires Consistent(Merged(x, KnowledgeOf(changed))) && Validated(Merged(x, KnowledgeOf(changed)))
    modifies c
    ensures c.Sound()
    ensures ok <==> NoHandover(old(c.db.episodes.roots), changed.episodes)
    ensures if ok then c.Ran() else c.RolledBack()
    ensures ok ==> Represents(c.db, Merged(x, KnowledgeOf(changed)))
  {
    ReadyToSave(c.db, x, changed);
    ok := RunPhases(c, changed, x);
    if ok {
      RepresentsParts(c.db, Merged(x, KnowledgeOf(changed)));
    }
  }

  /** What the phases rely on: the tables hold `x`, and both `x` and the merged set fit the schema. */
  ghost predicate Ready(t: Tables, x: Knowledge, changed: KnowledgeSet) {
    && RootsHold(t, x) && ChildrenHold(t, x.episodes, x.characters, x.locations, x.artifacts)
    && SetSound(x, KeysIn(x))
    && var z := Merged(x, KnowledgeOf(changed));
       && SetSound(z, KeysIn(z))
       && (forall w :: w in changed.works ==> w.continuity in z.continuities)
       && (forall e :: e in changed.episodes ==> e.work in z.works)
       && NumbersDiffer(z.episodes)
  }

  lemma ReadyToSave(t: Tables, x: Knowledge, changed: KnowledgeSet)
    requires Represents(t, x) && UniqueIds(changed)
    requires x.Keyed() && Consistent(x) && Validated(x)
    requires Consistent(Merged(x, KnowledgeOf(changed))) && Validated(Merged(x, KnowledgeOf(changed)))
    ensures Ready(t, x, changed)
  {
    assert RootsHold(t, x) && ChildrenHold(t, x.episodes, x.characters, x.locations, x.artifacts) by {
      RepresentsParts(t, x);
    }
    var y := KnowledgeOf(changed);
    MergedKeyed(x, y);
    assert SetSound(x, KeysIn(x)) by {
      SoundSet(x);
    }
    assert SetSound(Merged(x, y), KeysIn(Merged(x, y))) by {
      SoundSet(Merged(x, y));
    }
    ReadyToUpsert(x, changed);
  }

  lemma MergedKeyed(x: Knowledge, y: Knowledge)
    requires x.Keyed() && y.Keyed()
    ensures Merged(x, y).Keyed()
  {
  }

  method RunPhases(c: Connection, changed: KnowledgeSet, ghost x: Knowledge) returns (ok: bool)
    requires c.Sound() && c.Fresh() && UniqueIds(changed) && Ready(c.db, x, changed)
    modifies c
    ensures c.Sound()
    ensures ok <==> NoHandover(old(c.db.episodes.roots), changed.episodes)
    ensures if ok then c.Ran() else c.RolledBack()
    ensures ok ==>
      var z := Merged(x, KnowledgeOf(changed));
      RootsHold(c.db, z) && ChildrenHold(c.db, z.episodes, z.characters, z.locations, z.artifacts)
  {
    var before := c.db;
    DeleteChildren(c, changed, x);
    SameRoots(before, c.db, x);
    ghost var deleted := c.db;
    ok := UpsertRoots(c, changed, x);
    if ok {
      ghost var y := KnowledgeOf(changed);
      SameChildrenHold(deleted, c.db, x.episodes - y.episodes.Keys, x.characters - y.characters.Keys,
                       x.locations - y.locations.Keys, x.artifacts - y.artifacts.Keys);
      InsertChildren(c, changed, x);
    } else {
      c.Rollback();
    }
  }

  lemma SameChildrenHold(
    before: Tables, after: Tables, e: map<Id, Episode>, c: map<Id, Character>, l: map<Id, Place>, a: map<Id, Place>)
    requires ChildrenHold(before, e, c, l, a) && SameChildren(before, after)
    ensures ChildrenHold(after, e, c, l, a)
  {
  }

  lemma SameRoots(a: Tables, b: Tables, x: Knowledge)
    requires RootsHold(a, x) && RootsHold(b, x)
    ensures a.episodes.roots == b.episodes.roots
  {
  }

  /** An episode of season 1 of one series, with nobody in it. */
  function NumberedEpisode(id: Id, number: nat): Episode {
    Episode(id, "series", Some(1), number, id, [], [], [], [])
  }

  function SeriesOf(a: Episode, b: Episode): Knowledge {
    Knowledge(
      map["canon" := Continuity("canon", "canon")], map["series" := Work("series", "series", Series, "canon")],
      map["a" := a, "b" := b], map[], map[], map[])
  }

  lemma NumberedEpisodeIsConsistent(x: Knowledge, id: Id, n: nat)
    requires "series" in x.works && x.works["series"].continuity in x.continuities
    ensures EpisodeClosed(x, NumberedEpisode(id, n)) && ParticipantsFit(x, NumberedEpisode(id, n))
      && InteractionsConsistent(NumberedEpisode(id, n))
  {
  }

  lemma SeriesEpisodes(m: nat, n: nat)
    requires m != n
    ensures EpisodesConsistent(SeriesOf(NumberedEpisode("a", m), NumberedEpisode("b", n)))
  {
    var x := SeriesOf(NumberedEpisode("a", m), NumberedEpisode("b", n));
    NumberedEpisodeIsConsistent(x, "a", m);
    NumberedEpisodeIsConsistent(x, "b", n);
  }

  lemma SeriesReferences(m: nat, n: nat)
    ensures ReferencesClosed(SeriesOf(NumberedEpisode("a", m), NumberedEpisode("b", n)))
  {
    var x := SeriesOf(NumberedEpisode("a", m), NumberedEpisode("b", n));
    NumberedEpisodeIsConsistent(x, "a", m);
    NumberedEpisodeIsConsistent(x, "b", n);
  }

  /** What is asked of a set before it is saved. */
  ghost predicate Proper(x: Knowledge) {
    x.Keyed() && Consistent(x) && Validated(x)
  }

  lemma SeriesIsProper(m: nat, n: nat)
    requires m != n
    ensures Proper(SeriesOf(NumberedEpisode("a", m), NumberedEpisode("b", n)))
  {
    SeriesIsConsistent(m, n);
    SeriesIsValidated(m, n);
  }

  lemma SeriesIsValidated(m: nat, n: nat)
    ensures SeriesOf(NumberedEpisode("a", m), NumberedEpisode("b", n)).Keyed()
    ensures Validated(SeriesOf(NumberedEpisode("a", m), NumberedEpisode("b", n)))
  {
  }

  lemma SeriesIsConsistent(m: nat, n: nat)
    requires m != n
    ensures Consistent(SeriesOf(NumberedEpisode("a", m), NumberedEpisode("b", n)))
  {
    var x := SeriesOf(NumberedEpisode("a", m), NumberedEpisode("b", n));
    SeriesReferences(m, n);
    SeriesEpisodes(m, n);
    forall rule ensures Holds(x, rule) {
      match rule {
        case ReferenceRule =>
        case EpisodeRule =>
        case CharacterRule =>
        case PlaceRule(kind) =>
      }
    }
  }

  /**
   A consistent package need not be savable. Swapping the numbers of two stored episodes
   leads from one consistent set to another, and the in-memory store makes the step, but
   the first row upserted collides with the second episode's old number.
   */
  lemma SwappedNumbersCannotBeSaved(t: Tables)
    requires Represents(t, SeriesOf(NumberedEpisode("a", 1), NumberedEpisode("b", 2)))
    ensures Represents(SwapTables(), SeriesOf(NumberedEpisode("a", 1), NumberedEpisode("b", 2)))
    ensures Proper(SeriesOf(NumberedEpisode("a", 1), NumberedEpisode("b", 2))) && UniqueIds(SwapPackage())
    ensures Proper(Merged(SeriesOf(NumberedEpisode("a", 1), NumberedEpisode("b", 2)), KnowledgeOf(SwapPackage())))
    ensures !NoHandover(t.episodes.roots, SwapPackage().episodes)
  {
    SwapTablesHoldTheSeries();
    SeriesIsProper(1, 2);
    SeriesIsProper(2, 1);
    SwapMerged();
    var items := SwapPackage().episodes;
    assert t.episodes.roots["b"] == EpisodeRootOf(NumberedEpisode("b", 2));
    assert items[1].id in t.episodes.roots
      && NumberOf(t.episodes.roots[items[1].id]) == NumberOf(EpisodeRootOf(items[0]));
  }

  /** The rows of the two numbered episodes of the series. */
  function SwapTables(): Tables {
    Tables(
      map["canon" := "canon"], map["series" := WorkRoot("series", Series, "canon")],
      NO_CHARACTER_ROWS, NO_PLACE_ROWS, NO_PLACE_ROWS,
      NO_EPISODE_ROWS.(roots := map[
        "a" := EpisodeRootOf(NumberedEpisode("a", 1)), "b" := EpisodeRootOf(NumberedEpisode("b", 2))]))
  }

  lemma NobodyInEpisodes(m: map<Id, Episode>, roots: map<Id, EpisodeRoot>)
    requires HoldsRoots(roots, m, EpisodeRootFn)
    requires forall id :: id in m ==> m[id] == NumberedEpisode(m[id].id, m[id].number)
    ensures HoldsEpisodes(NO_EPISODE_ROWS.(roots := roots), m)
  {
    forall id | id in m ensures m[id].characters == m[id].locations == m[id].artifacts == [] {
    }
  }

  lemma SwapTablesHoldTheSeries()
    ensures Represents(SwapTables(), SeriesOf(NumberedEpisode("a", 1), NumberedEpisode("b", 2)))
  {
    var x := SeriesOf(NumberedEpisode("a", 1), NumberedEpisode("b", 2));
    NobodyInEpisodes(x.episodes, SwapTables().episodes.roots);
  }

  function SwapPackage(): KnowledgeSet {
    KnowledgeSet([], [], [NumberedEpisode("a", 2), NumberedEpisode("b", 1)], [], [], [])
  }

  lemma SwapMerged()
    ensures UniqueIds(SwapPackage())
    ensures Merged(SeriesOf(NumberedEpisode("a", 1), NumberedEpisode("b", 2)), KnowledgeOf(SwapPackage())) ==
      SeriesOf(NumberedEpisode("a", 2), NumberedEpisode("b", 1))
  {
    var items := SwapPackage().episodes;
    assert items[..1] == [items[0]];
    assert ById(items, EpisodeId) == map["a" := items[0], "b" := items[1]];
  }
}
