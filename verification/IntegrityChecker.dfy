/** `_Checker`: one pass over the sorted entities with indexes filled on the way. */
module IntegrityChecker {
  import opened Ordering
  import opened Wrappers
  import opened Models
  import opened IntegrityRules
  import opened Visits

  /** `_pair_key`: the ids of a symmetric type in order. */
  function PairKey(first: Id, second: Id, symmetric: bool): (Id, Id) {
    if symmetric && Before(second, first) then (second, first) else (first, second)
  }

  /** The key of a pair tells exactly the pair, and its direction unless the type is symmetric. */
  lemma PairKeyTells(a: Id, b: Id, c: Id, d: Id, symmetric: bool)
    ensures PairKey(a, b, symmetric) == PairKey(c, d, symmetric) <==>
      (a == c && b == d) || (symmetric && a == d && b == c)
  {
    BeforeTotal(a, b);
    if Before(a, b) {
      BeforeAsymmetric(a, b);
    }
    if Before(b, a) {
      BeforeAsymmetric(b, a);
    }
  }

  function InteractionKey(i: Interaction): ((Id, Id), InteractionType) {
    (PairKey(i.from, i.to, i.kind.Symmetric()), i.kind)
  }

  lemma InteractionKeyTells(i: Interaction, j: Interaction)
    ensures InteractionKey(i) == InteractionKey(j) <==> SameInteraction(i, j)
  {
    PairKeyTells(i.from, i.to, j.from, j.to, i.kind.Symmetric());
  }

  function RelationshipKey(owner: Id, r: Relationship): ((Id, Id), RelationshipType) {
    (PairKey(owner, r.to, r.kind.Symmetric()), r.kind)
  }

  lemma RelationshipKeyTells(a: Id, r: Relationship, b: Id, s: Relationship)
    ensures RelationshipKey(a, r) == RelationshipKey(b, s) <==> SameTie(a, r, b, s)
  {
    PairKeyTells(a, r.to, b, s.to, r.kind.Symmetric());
  }

  type RelationshipIndex = map<((Id, Id), RelationshipType), seq<(Id, set<Id>)>>

  /** Slot `j` of character `o` was visited: `o` is done, or it is the current one and `j < upto`. */
  predicate Visited(done: set<Id>, current: Id, upto: nat, o: Id, j: nat) {
    o in done || (o == current && j < upto)
  }

  ghost predicate NameIndexed(x: Knowledge, names: map<Text, Id>, done: set<Id>, current: Id, upto: nat) {
    forall key :: key in names <==>
      exists o, j: nat :: o in x.characters && Visited(done, current, upto, o, j) && NameKeyed(x.characters[o], j, key)
  }

  predicate NameKeyed(c: Character, j: nat, key: Text) {
    j < |NamesOf(c.name, c.aliases)| && NormalizeName(NamesOf(c.name, c.aliases)[j]) == key
  }

  predicate Listed(seen: RelationshipIndex, key: ((Id, Id), RelationshipType), entry: (Id, set<Id>)) {
    key in seen && entry in seen[key]
  }

  ghost predicate RelationshipsIndexed(
    x: Knowledge, seen: RelationshipIndex, done: set<Id>, current: Id, upto: nat)
  {
    forall key, entry :: Listed(seen, key, entry) <==>
      exists o, j: nat ::
        o in x.characters && Visited(done, current, upto, o, j) && RelationshipKeyed(x.characters[o], j, key, entry)
  }

  predicate RelationshipKeyed(c: Character, j: nat, key: ((Id, Id), RelationshipType), entry: (Id, set<Id>)) {
    && j < |c.relationships| && c.relationships[j].to != c.id
    && RelationshipKey(c.id, c.relationships[j]) == key
    && entry == (c.id, Set(c.relationships[j].continuities))
  }

  function Set(ids: seq<Id>): (r: set<Id>) {
    set c | c in ids
  }

  predicate InScope(names: map<Text, seq<(Id, set<Id>)>>, key: Text, entry: (Id, set<Id>)) {
    key in names && entry in names[key]
  }

  ghost predicate Held(places: map<Id, Place>, done: set<Id>, key: Text, entry: (Id, set<Id>)) {
    && entry.0 in done && entry.0 in places && entry.1 == Set(places[entry.0].continuities)
    && HasName(places[entry.0], key)
  }

  ghost predicate ScopesIndexed(places: map<Id, Place>, names: map<Text, seq<(Id, set<Id>)>>, done: set<Id>) {
    forall key, entry :: InScope(names, key, entry) <==> Held(places, done, key, entry)
  }

  predicate OnInteraction(path: Path) {
    || path.InteractionAt? || path.InteractionFrom? || path.InteractionTo?
    || (path.SourceEpisode? && path.holder.OfInteraction?)
  }

  /** Paths inside interaction `i` of an episode. */
  predicate InteractionPath(path: Path, i: nat) {
    OnInteraction(path) && i == if path.SourceEpisode? then path.holder.interaction else path.position
  }

  predicate InteractionBelow(path: Path, i: nat) {
    OnInteraction(path) && (if path.SourceEpisode? then path.holder.interaction else path.position) < i
  }

  ghost predicate InteractionsIndexed(e: Episode, seen: map<((Id, Id), InteractionType), nat>, upto: nat) {
    forall key :: key in seen <==>
      exists j: nat ::
        && j < upto && j < |e.interactions| && e.interactions[j].from != e.interactions[j].to
        && InteractionKey(e.interactions[j]) == key
  }

  /** The four findings about interaction `i`, given whether its key was seen. */
  predicate InteractionFlag(e: Episode, i: nat, repeated: bool, path: Path, code: Code)
    requires i < |e.interactions|
  {
    var from, to := e.interactions[i].from, e.interactions[i].to;
    if from == to then path == InteractionTo(i) && code.SelfReference?
    else
      || (path == InteractionFrom(i) && code.InteractionParticipant? && from !in e.characters)
      || (path == InteractionTo(i) && code.InteractionParticipant? && to !in e.characters)
      || (path == InteractionAt(i) && code.DuplicateInteraction? && repeated)
  }

  lemma InteractionFlags(x: Knowledge, e: Episode, i: nat, seen: map<((Id, Id), InteractionType), nat>)
    requires i < |e.interactions| && InteractionsIndexed(e, seen, i)
    ensures forall path, code ::
      InteractionPath(path, i) && EpisodeFlag(x, e, path, code) <==>
      InteractionFlag(e, i, InteractionKey(e.interactions[i]) in seen, path, code)
  {
    forall path, code
      ensures
        InteractionPath(path, i) && EpisodeFlag(x, e, path, code) <==>
        InteractionFlag(e, i, InteractionKey(e.interactions[i]) in seen, path, code)
    {
      match code {
        case DuplicateInteraction =>
          forall j: nat | j < |e.interactions|
            ensures InteractionKey(e.interactions[j]) == InteractionKey(e.interactions[i])
              <==> SameInteraction(e.interactions[j], e.interactions[i])
          {
            InteractionKeyTells(e.interactions[j], e.interactions[i]);
          }
        case _ =>
      }
    }
  }

  function NumberKey(e: Episode): (Id, Option<nat>, nat) {
    (e.work, e.season, e.number)
  }

  ghost predicate NumbersIndexed(x: Knowledge, numbers: map<(Id, Option<nat>, nat), Id>, done: set<Id>) {
    forall key :: key in numbers <==> exists o :: o in done && o in x.episodes && NumberKey(x.episodes[o]) == key
  }

  predicate OfFilm(x: Knowledge, o: Id, work: Id) {
    o in x.episodes && x.episodes[o].work == work && work in x.works && x.works[work].medium.Film?
  }

  /** The film dictionary: its entries, and its keys in the order in which they were entered. */
  datatype Films = Films(owners: map<Id, seq<EntityRef>>, order: seq<Id>) {
    function Noted(work: Id, owner: EntityRef): Films {
      if work in owners then Films(owners[work := owners[work] + [owner]], order)
      else Films(owners[work := [owner]], order + [work])
    }
  }

  ghost predicate FilmsIndexed(x: Knowledge, films: Films, done: set<Id>) {
    && KeptInOrder(films)
    && (forall w, r :: w in films.owners && r in films.owners[w] <==>
          r.kind.EpisodeKind? && r.id in done && OfFilm(x, r.id, w))
  }

  ghost predicate InIdOrder(refs: seq<EntityRef>) {
    forall i, j :: 0 <= i < j < |refs| ==> Before(refs[i].id, refs[j].id)
  }

  /** The first episode of one film comes before that of the other. */
  predicate FirstSooner(films: Films, v: Id, w: Id) {
    && v in films.owners && w in films.owners && films.owners[v] != [] && films.owners[w] != []
    && Before(films.owners[v][0].id, films.owners[w][0].id)
  }

  ghost predicate InLongFilm(films: Films, n: nat, r: EntityRef) {
    exists i :: 0 <= i < n <= |films.order| && OfLongFilm(films, films.order[i], r)
  }

  ghost predicate OfLongFilm(films: Films, w: Id, r: EntityRef) {
    w in films.owners && |films.owners[w]| > 1 && r in films.owners[w]
  }

  lemma FilmNoted(x: Knowledge, films: Films, done: set<Id>, e: Episode)
    requires FilmsIndexed(x, films, done) && e.id in x.episodes && x.episodes[e.id] == e
    requires forall o :: o in done ==> Before(o, e.id)
    requires OfFilm(x, e.id, e.work)
    ensures FilmsIndexed(x, films.Noted(e.work, EntityRef(EpisodeKind, e.id)), done + {e.id})
  {
    var noted := films.Noted(e.work, EntityRef(EpisodeKind, e.id));
    assert forall w, r :: w in noted.owners && r in noted.owners[w] <==>
      (w in films.owners && r in films.owners[w]) || (w == e.work && r == EntityRef(EpisodeKind, e.id));
    forall w | w in films.owners ensures OnlySooner(films.owners[w], e.id) {
      forall i | 0 <= i < |films.owners[w]| ensures Before(films.owners[w][i].id, e.id) {
        assert films.owners[w][i] in films.owners[w];
      }
    }
    FilmsGrowInOrder(films, e.work, e.id);
  }

  ghost predicate OnlySooner(refs: seq<EntityRef>, id: Id) {
    forall i :: 0 <= i < |refs| ==> Before(refs[i].id, id)
  }

  ghost predicate KeptInOrder(films: Films) {
    && (forall w :: w in films.order <==> w in films.owners)
    && (forall w :: w in films.owners ==> films.owners[w] != [] && InIdOrder(films.owners[w]))
    && (forall i, j :: 0 <= i < j < |films.order| ==> FirstSooner(films, films.order[i], films.order[j]))
  }

  lemma FilmsGrowInOrder(films: Films, work: Id, id: Id)
    requires KeptInOrder(films) && forall w :: w in films.owners ==> OnlySooner(films.owners[w], id)
    ensures KeptInOrder(films.Noted(work, EntityRef(EpisodeKind, id)))
  {
    var noted := films.Noted(work, EntityRef(EpisodeKind, id));
    forall w | w in noted.owners ensures noted.owners[w] != [] && InIdOrder(noted.owners[w]) {
      assert w in films.owners ==> OnlySooner(films.owners[w], id) && InIdOrder(films.owners[w]);
    }
    forall i, j | 0 <= i < j < |noted.order| ensures FirstSooner(noted, noted.order[i], noted.order[j]) {
      var v, w := noted.order[i], noted.order[j];
      assert v in films.order && OnlySooner(films.owners[v], id);
      if j < |films.order| {
        assert FirstSooner(films, films.order[i], films.order[j]);
      }
    }
  }

  lemma NoFilmNoted(x: Knowledge, films: Films, done: set<Id>, e: Episode)
    requires FilmsIndexed(x, films, done) && !OfFilm(x, e.id, e.work)
    requires e.id in x.episodes && x.episodes[e.id] == e
    ensures FilmsIndexed(x, films, done + {e.id})
  {
  }

  /** A film with two listed episodes is one in which some episode has another beside it. */
  lemma FilmFlags(x: Knowledge, films: Films, all: set<Id>)
    requires FilmsIndexed(x, films, all) && x.Keyed() && all == x.episodes.Keys
    ensures forall r ::
      InLongFilm(films, |films.order|, r) <==>
      r.kind.EpisodeKind? && r.id in x.episodes && EpisodeFlag(x, x.episodes[r.id], EpisodeWork, FilmEpisodeCount)
  {
    forall r
      ensures
        InLongFilm(films, |films.order|, r) <==>
        r.kind.EpisodeKind? && r.id in x.episodes && EpisodeFlag(x, x.episodes[r.id], EpisodeWork, FilmEpisodeCount)
    {
      if InLongFilm(films, |films.order|, r) {
        LongFilmFlagged(x, films, r);
      }
      if r.kind.EpisodeKind? && r.id in x.episodes && EpisodeFlag(x, x.episodes[r.id], EpisodeWork, FilmEpisodeCount) {
        FlaggedInLongFilm(x, films, r);
      }
    }
  }

  lemma LongFilmFlagged(x: Knowledge, films: Films, r: EntityRef)
    requires FilmsIndexed(x, films, x.episodes.Keys) && x.Keyed() && InLongFilm(films, |films.order|, r)
    ensures r.kind.EpisodeKind? && r.id in x.episodes
    ensures EpisodeFlag(x, x.episodes[r.id], EpisodeWork, FilmEpisodeCount)
  {
    var i :| 0 <= i < |films.order| && OfLongFilm(films, films.order[i], r);
    var w := films.order[i];
    FilmHasAnother(films.owners[w], r);
    var other :| other in films.owners[w] && other.id != r.id;
    assert OfFilm(x, r.id, w) && OfFilm(x, other.id, w);
  }

  lemma FlaggedInLongFilm(x: Knowledge, films: Films, r: EntityRef)
    requires FilmsIndexed(x, films, x.episodes.Keys) && x.Keyed() && r.kind.EpisodeKind? && r.id in x.episodes
    requires EpisodeFlag(x, x.episodes[r.id], EpisodeWork, FilmEpisodeCount)
    ensures InLongFilm(films, |films.order|, r)
  {
    var w := x.episodes[r.id].work;
    var o :| o in x.episodes && o != r.id && x.episodes[o].work == w;
    assert OfFilm(x, r.id, w) && OfFilm(x, o, w);
    assert w in films.owners && r in films.owners[w] && EntityRef(EpisodeKind, o) in films.owners[w];
    var i :| 0 <= i < |films.order| && films.order[i] == w;
    assert OfLongFilm(films, films.order[i], r);
  }

  lemma FilmHasAnother(refs: seq<EntityRef>, r: EntityRef)
    requires InIdOrder(refs) && |refs| > 1 && r in refs
    ensures exists other :: other in refs && other.id != r.id
  {
    BeforeIrreflexive(r.id);
    assert Before(refs[0].id, refs[1].id);
    assert refs[0] in refs && refs[1] in refs;
  }

  lemma LongFilmsGrow(films: Films, n: nat)
    requires n < |films.order|
    ensures forall r :: InLongFilm(films, n + 1, r) <==>
      InLongFilm(films, n, r) || OfLongFilm(films, films.order[n], r)
  {
    forall r
      ensures InLongFilm(films, n + 1, r) <==> InLongFilm(films, n, r) || OfLongFilm(films, films.order[n], r)
    {
      if i :| 0 <= i < n && OfLongFilm(films, films.order[i], r) {
        assert OfLongFilm(films, films.order[i], r);
      }
    }
  }

  /** Going through the films in dictionary order meets their episodes in visiting order. */
  lemma FilmsInOrder(x: Knowledge, films: Films, i: nat, j: nat, a: EntityRef, b: EntityRef)
    requires FilmsIndexed(x, films, x.episodes.Keys) && i < j < |films.order|
    requires films.order[i] in films.owners && a in films.owners[films.order[i]]
    requires films.order[j] in films.owners && b in films.owners[films.order[j]]
    ensures FilmSooner(x, a.id, b.id)
  {
    var v, w := films.order[i], films.order[j];
    assert FirstSooner(films, v, w);
    var o, first := films.owners[v][0], films.owners[w][0];
    assert o in films.owners[v] && OfFilm(x, o.id, v) && OfFilm(x, a.id, v) && OfFilm(x, b.id, w);
    BeforeIrreflexive(o.id);
    assert OfWork(x, o.id, v);
    forall p | OfWork(x, p, w) ensures Before(o.id, p) {
      assert OfFilm(x, p, w);
      assert EntityRef(EpisodeKind, p) in films.owners[w];
      var k :| 0 <= k < |films.owners[w]| && films.owners[w][k] == EntityRef(EpisodeKind, p);
      if k > 0 {
        BeforeTransitive(o.id, first.id, p);
      }
    }
  }

  /** Everything but the film count is settled when an episode is visited. */
  predicate EpisodePlace(path: Path) {
    path.EpisodeNumber? || path.Item? || OnInteraction(path)
  }

  lemma EpisodePaths(x: Knowledge, e: Episode)
    ensures forall path, code :: EpisodeFlag(x, e, path, code) && !code.FilmEpisodeCount? ==> EpisodePlace(path)
    ensures forall path, code :: EpisodePlace(path) && EpisodeFlag(x, e, path, code) ==> !code.FilmEpisodeCount?
    ensures forall path :: EpisodeRef(e, path).Some? ==> path.EpisodeWork? || path.Item? || OnInteraction(path)
  {
    forall path, code | EpisodeFlag(x, e, path, code)
      ensures !code.FilmEpisodeCount? <==> EpisodePlace(path)
    {
      match code {
        case DuplicateEpisodeNumber =>
        case FilmEpisodeCount =>
        case DuplicateInteraction =>
        case _ =>
      }
    }
  }

  ghost predicate EpisodeDone(x: Knowledge, done: set<Id>, v: Violation) {
    && v.entity.kind.EpisodeKind? && v.entity.id in done && v.entity.id in x.episodes && !v.code.FilmEpisodeCount?
    && EpisodeFlag(x, x.episodes[v.entity.id], v.path, v.code)
  }

  predicate AskDone(x: Knowledge, kind: EntityKind, done: set<Id>, a: Ask) {
    a.owner.kind == kind && a.owner.id in done && RefAt(x, a.owner, a.path) == Some(a.target)
  }

  ghost function Ids<T>(items: seq<T>, id: T -> Id): set<Id> {
    set t | t in items :: id(t)
  }

  /** `items` lists the indexed entities in id order. */
  ghost predicate Listing<T(!new)>(items: seq<T>, id: T -> Id, index: map<Id, T>) {
    && Ascending(items, id)
    && (forall key :: key in index ==> id(index[key]) == key)
    && (forall t :: t in items <==> id(t) in index && index[id(t)] == t)
  }

  /** What the sorted loop has done before round `i` are the entities with smaller ids. */
  lemma DoneBefore<T(!new)>(items: seq<T>, id: T -> Id, index: map<Id, T>, i: nat)
    requires Listing(items, id, index) && i < |items|
    ensures items[i] in items && id(items[i]) !in Ids(items[..i], id)
    ensures forall o :: o in Ids(items[..i], id) <==> o in index && Before(o, id(items[i]))
    ensures Ids(items[..i + 1], id) == Ids(items[..i], id) + {id(items[i])}
  {
    assert items[..i + 1] == items[..i] + [items[i]];
    var done := Ids(items[..i], id);
    forall o ensures o in done <==> o in index && Before(o, id(items[i])) {
      if o in done {
        var t :| t in items[..i] && id(t) == o;
        assert t in items;
      }
      if o in index && Before(o, id(items[i])) {
        assert index[o] in items;
        var j :| 0 <= j < |items| && items[j] == index[o];
        AscendingPositions(items, id, j, i);
        assert items[..i][j] == items[j];
      }
    }
    BeforeIrreflexive(id(items[i]));
  }

  lemma AllDone<T(!new)>(items: seq<T>, id: T -> Id, index: map<Id, T>)
    requires Listing(items, id, index)
    ensures Ids(items[..|items|], id) == index.Keys
  {
    assert items[..|items|] == items;
    forall o ensures o in Ids(items, id) <==> o in index.Keys {
      if o in index { assert index[o] in items; }
    }
  }

  // ---------------------------------------------------------------- characters

  predicate SlotBefore(i: nat, j: nat, version: nat, position: nat) {
    i < version || (i == version && j < position)
  }

  ghost predicate VersionsIndexed(c: Character, versionOf: map<Id, nat>, version: nat, position: nat) {
    forall key :: key in versionOf <==>
      exists i: nat, j: nat ::
        VersionSlot(c, i, j) && SlotBefore(i, j, version, position) && c.versions[i].continuities[j] == key
  }

  predicate OnVersion(path: Path, i: nat) {
    || (path.VersionContinuity? && path.version == i)
    || (path.SourceEpisode? && path.holder == OfVersion(i))
  }

  predicate VersionBelow(path: Path, i: nat) {
    || (path.VersionContinuity? && path.version < i)
    || (path.SourceEpisode? && path.holder.OfVersion? && path.holder.version < i)
  }

  predicate OnRelationship(path: Path, i: nat) {
    || path == RelationshipAt(i) || path == RelationshipTo(i)
    || (path.RelationshipContinuity? && path.relationship == i)
    || (path.SourceEpisode? && path.holder == OfRelationship(i))
  }

  predicate RelationshipBelow(path: Path, i: nat) {
    || (path.RelationshipAt? && path.position < i) || (path.RelationshipTo? && path.position < i)
    || (path.RelationshipContinuity? && path.relationship < i)
    || (path.SourceEpisode? && path.holder.OfRelationship? && path.holder.relationship < i)
  }

  lemma CharacterPaths(x: Knowledge, c: Character)
    ensures forall path, code :: CharacterFlag(x, c, path, code) ==>
      || VersionBelow(path, |c.versions|) || RelationshipBelow(path, |c.relationships|) || path.NameAt?
    ensures forall path, code :: CharacterFlag(x, c, path, code) ==> !path.SourceEpisode?
    ensures forall path :: CharacterRef(c, path).Some? ==>
      || VersionBelow(path, |c.versions|) || RelationshipBelow(path, |c.relationships|)
      || (path.SourceEpisode? && path.holder == Own)
  {
    forall path, code | CharacterFlag(x, c, path, code)
      ensures VersionBelow(path, |c.versions|) || RelationshipBelow(path, |c.relationships|) || path.NameAt?
      ensures !path.SourceEpisode?
    {
      match code {
        case OverlappingVersions =>
        case DuplicateRelationship =>
        case DuplicateName =>
        case _ =>
      }
    }
  }

  lemma RelationshipFlags(x: Knowledge, c: Character, i: nat)
    requires i < |c.relationships|
    ensures forall path, code :: OnRelationship(path, i) && CharacterFlag(x, c, path, code) ==>
      || (path == RelationshipTo(i) && code.SelfReference? && c.relationships[i].to == c.id)
      || (path.RelationshipContinuity? && path.relationship == i && c.relationships[i].to != c.id)
      || (path == RelationshipAt(i) && code.DuplicateRelationship? && c.relationships[i].to != c.id)
  {
    forall path, code | OnRelationship(path, i) && CharacterFlag(x, c, path, code)
      ensures
        || (path == RelationshipTo(i) && code.SelfReference? && c.relationships[i].to == c.id)
        || (path.RelationshipContinuity? && path.relationship == i && c.relationships[i].to != c.id)
        || (path == RelationshipAt(i) && code.DuplicateRelationship? && c.relationships[i].to != c.id)
    {
      match code {
        case DuplicateRelationship =>
        case _ =>
      }
    }
  }

  lemma RelationshipSkipped(x: Knowledge, seen: RelationshipIndex, done: set<Id>, c: Character, i: nat)
    requires c.id in x.characters && x.characters[c.id] == c
    requires i < |c.relationships| && c.relationships[i].to == c.id
    requires RelationshipsIndexed(x, seen, done, c.id, i)
    ensures RelationshipsIndexed(x, seen, done, c.id, i + 1)
  {
    forall key, entry
      ensures Listed(seen, key, entry) <==>
        exists o, j: nat ::
          o in x.characters && Visited(done, c.id, i + 1, o, j) && RelationshipKeyed(x.characters[o], j, key, entry)
    {
      forall o, j: nat | o in x.characters && RelationshipKeyed(x.characters[o], j, key, entry)
        ensures Visited(done, c.id, i + 1, o, j) <==> Visited(done, c.id, i, o, j)
      {
      }
    }
  }

  lemma RelationshipAdded(
    x: Knowledge, seen: RelationshipIndex, done: set<Id>, c: Character, i: nat, seen': RelationshipIndex)
    requires c.id in x.characters && x.characters[c.id] == c
    requires i < |c.relationships| && c.relationships[i].to != c.id
    requires RelationshipsIndexed(x, seen, done, c.id, i)
    requires var key := RelationshipKey(c.id, c.relationships[i]);
      seen' == seen[key := (if key in seen then seen[key] else []) + [(c.id, Set(c.relationships[i].continuities))]]
    ensures RelationshipsIndexed(x, seen', done, c.id, i + 1)
  {
    var own := RelationshipKey(c.id, c.relationships[i]);
    forall key, entry
      ensures Listed(seen', key, entry) <==>
        exists o, j: nat ::
          o in x.characters && Visited(done, c.id, i + 1, o, j) && RelationshipKeyed(x.characters[o], j, key, entry)
    {
      var before := Listed(seen, key, entry);
      assert Listed(seen', key, entry) <==> before || RelationshipKeyed(c, i, key, entry);
      if before {
        var o, j: nat :| o in x.characters && Visited(done, c.id, i, o, j)
          && RelationshipKeyed(x.characters[o], j, key, entry);
        assert Visited(done, c.id, i + 1, o, j);
      }
      if RelationshipKeyed(c, i, key, entry) {
        assert Visited(done, c.id, i + 1, c.id, i);
      }
      if o, j: nat :|
          o in x.characters && Visited(done, c.id, i + 1, o, j)
          && RelationshipKeyed(x.characters[o], j, key, entry)
      {
        assert Visited(done, c.id, i, o, j) || (o == c.id && j == i);
      }
    }
  }

  lemma RelationshipsDone(x: Knowledge, seen: RelationshipIndex, done: set<Id>, c: Character)
    requires c.id in x.characters && x.characters[c.id] == c
    requires RelationshipsIndexed(x, seen, done, c.id, |c.relationships|)
    ensures RelationshipsIndexed(x, seen, done + {c.id}, c.id, 0)
  {
    forall key, entry
      ensures Listed(seen, key, entry) <==>
        exists o, j: nat ::
          o in x.characters && Visited(done + {c.id}, c.id, 0, o, j)
            && RelationshipKeyed(x.characters[o], j, key, entry)
    {
      forall o, j: nat | o in x.characters && RelationshipKeyed(x.characters[o], j, key, entry)
        ensures Visited(done + {c.id}, c.id, 0, o, j) <==> Visited(done, c.id, |c.relationships|, o, j)
      {
      }
    }
  }

  /** The indexed comparison finds a clash exactly when an earlier relationship says the same. */
  lemma RelationshipRepeats(x: Knowledge, seen: RelationshipIndex, done: set<Id>, c: Character, i: nat)
    requires x.Keyed() && c.id in x.characters && x.characters[c.id] == c
    requires i < |c.relationships| && c.relationships[i].to != c.id
    requires forall o :: o in done <==> o in x.characters && Before(o, c.id)
    requires RelationshipsIndexed(x, seen, done, c.id, i)
    ensures var key, own := RelationshipKey(c.id, c.relationships[i]), Set(c.relationships[i].continuities);
      CharacterFlag(x, c, RelationshipAt(i), DuplicateRelationship) <==>
      (key in seen && exists entry :: entry in seen[key] && entry.1 * own != {})
  {
    var key, own := RelationshipKey(c.id, c.relationships[i]), Set(c.relationships[i].continuities);
    if CharacterFlag(x, c, RelationshipAt(i), DuplicateRelationship) {
      var o, j: nat :| o in x.characters && Earlier(o, j, c.id, i) && SameRelationship(x.characters[o], j, c, i);
      var entry := (o, Set(x.characters[o].relationships[j].continuities));
      RelationshipKeyTells(o, x.characters[o].relationships[j], c.id, c.relationships[i]);
      assert Visited(done, c.id, i, o, j) && RelationshipKeyed(x.characters[o], j, key, entry);
      assert Listed(seen, key, entry);
      var common :| common in x.characters[o].relationships[j].continuities
        && common in c.relationships[i].continuities;
      assert common in entry.1 * own;
    }
    if key in seen && exists entry :: entry in seen[key] && entry.1 * own != {} {
      var entry :| entry in seen[key] && entry.1 * own != {};
      assert Listed(seen, key, entry);
      var o, j: nat :| o in x.characters && Visited(done, c.id, i, o, j)
        && RelationshipKeyed(x.characters[o], j, key, entry);
      var common :| common in entry.1 * own;
      RelationshipKeyTells(o, x.characters[o].relationships[j], c.id, c.relationships[i]);
      assert Earlier(o, j, c.id, i) && SameRelationship(x.characters[o], j, c, i);
    }
  }

  lemma NameRepeats(x: Knowledge, names: map<Text, Id>, done: set<Id>, c: Character, i: nat)
    requires c.id in x.characters && x.characters[c.id] == c && i < |NamesOf(c.name, c.aliases)|
    requires forall o :: o in done <==> o in x.characters && Before(o, c.id)
    requires NameIndexed(x, names, done, c.id, i)
    ensures CharacterFlag(x, c, NameAt(i), DuplicateName) <==> NormalizeName(NamesOf(c.name, c.aliases)[i]) in names
    ensures forall code :: CharacterFlag(x, c, NameAt(i), code) ==> code.DuplicateName?
  {
    var key := NormalizeName(NamesOf(c.name, c.aliases)[i]);
    if CharacterFlag(x, c, NameAt(i), DuplicateName) {
      var o, j: nat :| o in x.characters && Earlier(o, j, c.id, i) && SharedName(x.characters[o], j, c, i);
      assert Visited(done, c.id, i, o, j) && NameKeyed(x.characters[o], j, key);
    }
    if key in names {
      var o, j: nat :| o in x.characters && Visited(done, c.id, i, o, j) && NameKeyed(x.characters[o], j, key);
      assert Earlier(o, j, c.id, i) && SharedName(x.characters[o], j, c, i);
    }
    forall code | CharacterFlag(x, c, NameAt(i), code) ensures code.DuplicateName? {
      match code {
        case OverlappingVersions =>
        case _ =>
      }
    }
  }

  lemma NameAdded(x: Knowledge, names: map<Text, Id>, done: set<Id>, c: Character, i: nat, names': map<Text, Id>)
    requires c.id in x.characters && x.characters[c.id] == c && i < |NamesOf(c.name, c.aliases)|
    requires NameIndexed(x, names, done, c.id, i)
    requires names'.Keys == names.Keys + {NormalizeName(NamesOf(c.name, c.aliases)[i])}
    ensures NameIndexed(x, names', done, c.id, i + 1)
  {
    forall key
      ensures key in names' <==>
        exists o, j: nat :: o in x.characters && Visited(done, c.id, i + 1, o, j) && NameKeyed(x.characters[o], j, key)
    {
      if key in names {
        var o, j: nat :| o in x.characters && Visited(done, c.id, i, o, j) && NameKeyed(x.characters[o], j, key);
        assert Visited(done, c.id, i + 1, o, j);
      }
      if NameKeyed(c, i, key) {
        assert Visited(done, c.id, i + 1, c.id, i);
        assert key in names';
      }
      if o, j: nat :| o in x.characters && Visited(done, c.id, i + 1, o, j) && NameKeyed(x.characters[o], j, key) {
        assert Visited(done, c.id, i, o, j) || (o == c.id && j == i);
      }
      assert key in names' <==> key in names || key == NormalizeName(NamesOf(c.name, c.aliases)[i]);
    }
  }

  lemma NamesDone(x: Knowledge, names: map<Text, Id>, done: set<Id>, c: Character)
    requires c.id in x.characters && x.characters[c.id] == c
    requires NameIndexed(x, names, done, c.id, |NamesOf(c.name, c.aliases)|)
    ensures NameIndexed(x, names, done + {c.id}, c.id, 0)
  {
    forall key
      ensures key in names <==>
        exists o, j: nat ::
          o in x.characters && Visited(done + {c.id}, c.id, 0, o, j) && NameKeyed(x.characters[o], j, key)
    {
      forall o, j: nat | o in x.characters && NameKeyed(x.characters[o], j, key)
        ensures Visited(done + {c.id}, c.id, 0, o, j) <==> Visited(done, c.id, |NamesOf(c.name, c.aliases)|, o, j)
      {
      }
    }
  }

  /** Between two characters no slot of a current one counts. */
  lemma CurrentIrrelevant(x: Knowledge, names: map<Text, Id>, seen: RelationshipIndex, done: set<Id>, a: Id, b: Id)
    requires NameIndexed(x, names, done, a, 0) && RelationshipsIndexed(x, seen, done, a, 0)
    ensures NameIndexed(x, names, done, b, 0) && RelationshipsIndexed(x, seen, done, b, 0)
  {
    assert forall o, j: nat :: Visited(done, a, 0, o, j) <==> Visited(done, b, 0, o, j);
  }

  ghost predicate CharacterDone(x: Knowledge, done: set<Id>, v: Violation) {
    && v.entity.kind.CharacterKind? && v.entity.id in done && v.entity.id in x.characters
    && CharacterFlag(x, x.characters[v.entity.id], v.path, v.code)
  }

  // ---------------------------------------------------------------- places

  ghost predicate PlaceDone(x: Knowledge, kind: EntityKind, done: set<Id>, v: Violation) {
    && v.entity.kind == kind && v.entity.id in done && v.entity.id in x.Places(kind)
    && PlaceFlag(x, kind, x.Places(kind)[v.entity.id], v.path, v.code)
  }

  lemma OneMorePlaceDone(x: Knowledge, kind: EntityKind, done: set<Id>, id: Id)
    ensures forall v :: PlaceDone(x, kind, done + {id}, v) <==>
      PlaceDone(x, kind, done, v) || PlaceDone(x, kind, {id}, v)
    ensures forall a :: AskDone(x, kind, done + {id}, a) <==> AskDone(x, kind, done, a) || AskDone(x, kind, {id}, a)
  {
  }

  lemma ElsewhereIsDisjoint(x: Knowledge, p: Place, i: nat)
    requires i < |p.members|
    ensures Elsewhere(x, p, i) <==>
      p.members[i] in x.characters && Set(p.continuities) * VersionContinuities(x.characters[p.members[i]]) == {}
  {
    if p.members[i] in x.characters {
      var common := Set(p.continuities) * VersionContinuities(x.characters[p.members[i]]);
      assert forall c :: c in p.continuities <==> c in Set(p.continuities);
      if common != {} {
        var c :| c in common;
        assert c in p.continuities && c in VersionContinuities(x.characters[p.members[i]]);
      } else {
        forall c | c in p.continuities ensures c !in VersionContinuities(x.characters[p.members[i]]) {
          assert c !in common;
        }
      }
    }
  }

  /** Keys of the first `i` names of a place. */
  ghost function OwnKeys(p: Place, i: nat): set<Text>
    requires i <= |NamesOf(p.name, p.aliases)|
  {
    set name | name in NamesOf(p.name, p.aliases)[..i] :: NormalizeName(name)
  }

  lemma OwnKeysGrow(p: Place, i: nat)
    requires i < |NamesOf(p.name, p.aliases)|
    ensures OwnKeys(p, i + 1) == OwnKeys(p, i) + {NormalizeName(NamesOf(p.name, p.aliases)[i])}
    ensures forall key :: key in OwnKeys(p, i) <==>
      exists j :: 0 <= j < i && NormalizeName(NamesOf(p.name, p.aliases)[j]) == key
  {
    var names := NamesOf(p.name, p.aliases);
    assert names[..i + 1] == names[..i] + [names[i]];
    forall key
      ensures key in OwnKeys(p, i) <==> exists j :: 0 <= j < i && NormalizeName(names[j]) == key
    {
      if j :| 0 <= j < i && NormalizeName(names[j]) == key {
        assert names[..i][j] == names[j];
      }
    }
  }

  /** Places done entirely, and of `p` the keys of its first `i` names. */
  ghost predicate PartlyIndexed(
    places: map<Id, Place>, names: map<Text, seq<(Id, set<Id>)>>, done: set<Id>, p: Place, i: nat)
    requires i <= |NamesOf(p.name, p.aliases)|
  {
    forall key, entry :: InScope(names, key, entry) <==>
      (Held(places, done, key, entry) || (entry == (p.id, Set(p.continuities)) && key in OwnKeys(p, i)))
  }

  lemma ScopeAdded(
    places: map<Id, Place>, names: map<Text, seq<(Id, set<Id>)>>, done: set<Id>, p: Place, i: nat,
    names': map<Text, seq<(Id, set<Id>)>>)
    requires i < |NamesOf(p.name, p.aliases)| && PartlyIndexed(places, names, done, p, i)
    requires var key := NormalizeName(NamesOf(p.name, p.aliases)[i]);
      names' == names[key := (if key in names then names[key] else []) + [(p.id, Set(p.continuities))]]
    ensures PartlyIndexed(places, names', done, p, i + 1)
  {
    OwnKeysGrow(p, i);
    var own := NormalizeName(NamesOf(p.name, p.aliases)[i]);
    forall key, entry
      ensures InScope(names', key, entry) <==>
        (InScope(names, key, entry) || (key == own && entry == (p.id, Set(p.continuities))))
    {
    }
  }

  lemma ScopesDone(places: map<Id, Place>, names: map<Text, seq<(Id, set<Id>)>>, done: set<Id>, p: Place)
    requires p.id in places && places[p.id] == p
    requires PartlyIndexed(places, names, done, p, |NamesOf(p.name, p.aliases)|)
    ensures ScopesIndexed(places, names, done + {p.id})
  {
    var all := NamesOf(p.name, p.aliases);
    assert all[..|all|] == all;
  }

  /** The two ways a name of a place is taken, as the scoped index sees them. */
  lemma ScopedNameFlags(
    x: Knowledge, kind: EntityKind, p: Place, i: nat, names: map<Text, seq<(Id, set<Id>)>>, done: set<Id>)
    requires p.id in x.Places(kind) && x.Places(kind)[p.id] == p && i < |NamesOf(p.name, p.aliases)|
    requires forall o :: o in done <==> o in x.Places(kind) && Before(o, p.id)
    requires PartlyIndexed(x.Places(kind), names, done, p, i)
    ensures forall code :: PlaceFlag(x, kind, p, NameAt(i), code) ==> code.DuplicateName?
    ensures
      var key := NormalizeName(NamesOf(p.name, p.aliases)[i]);
      PlaceFlag(x, kind, p, NameAt(i), DuplicateName) <==>
      (key in OwnKeys(p, i) ||
       (key in names && exists entry :: entry in names[key] && entry.1 * Set(p.continuities) != {}))
  {
    var all := NamesOf(p.name, p.aliases);
    var key := NormalizeName(all[i]);
    OwnKeysGrow(p, i);
    if PlaceFlag(x, kind, p, NameAt(i), DuplicateName) && key !in OwnKeys(p, i) {
      assert forall j: nat :: j < i ==> !SameName(all[j], all[i]);
      var o :| o in x.Places(kind) && Before(o, p.id) && Overlap(x.Places(kind)[o].continuities, p.continuities)
               && HasName(x.Places(kind)[o], key);
      var entry := (o, Set(x.Places(kind)[o].continuities));
      assert Held(x.Places(kind), done, key, entry);
      assert InScope(names, key, entry);
      var common :| common in x.Places(kind)[o].continuities && common in p.continuities;
      assert common in entry.1 * Set(p.continuities);
    }
    if key in OwnKeys(p, i) {
      var j :| 0 <= j < i && NormalizeName(all[j]) == key;
      assert SameName(all[j], all[i]);
    } else if key in names && exists entry :: entry in names[key] && entry.1 * Set(p.continuities) != {} {
      var entry :| entry in names[key] && entry.1 * Set(p.continuities) != {};
      assert InScope(names, key, entry);
      var common :| common in entry.1 * Set(p.continuities);
      assert Overlap(x.Places(kind)[entry.0].continuities, p.continuities);
    }
  }

  /** Sorting keeps exactly the entities the index finds. */
  lemma SortedIndex<T(!new)>(items: seq<T>, id: T -> Id)
    requires Distinct(items, id)
    ensures Listing(Sorted(items, id), id, ById(items, id))
  {
    SortedAscending(items, id);
    ByIdMembers(items, id);
    forall t ensures t in Sorted(items, id) <==> id(t) in ById(items, id) && ById(items, id)[id(t)] == t {
      if t in items {
        ByIdFinds(items, id, t);
      }
    }
  }

  const CHECKED_KINDS: set<EntityKind> := {WorkKind, EpisodeKind, CharacterKind, LocationKind, ArtifactKind}

  /** The report is in order, and it says exactly what was flagged and what was asked for in vain. */
  datatype Duty = Orderly | Faithful

  class Checker {
    const x: Knowledge
    const complete: bool
    const unverified: set<EntityRef>
    var violations: seq<Violation>
    var external: set<EntityRef>
    /** Rule violations reported and references followed so far. */
    ghost var flagged: iset<Violation>
    ghost var asked: iset<Ask>
    /** Everything reported was found before this spot. */
    ghost var reached: Spot

    ghost predicate Meets(duty: Duty)
      reads this
    {
      match duty
      case Orderly => InVisitingOrder(x, violations) && forall v :: v in violations ==> Sooner(SpotOf(v), reached)
      case Faithful =>
        && (forall v :: v in flagged ==> !v.code.UnknownReference?)
        && (forall v :: v in violations && !v.code.UnknownReference? <==> v in flagged)
        && (forall v :: v in violations && v.code.UnknownReference? <==>
              v.code.UnknownReference? && complete
              && exists r :: Missing(x, unverified, r) && Ask(v.entity, v.path, r) in asked)
        && (forall r :: r in external <==>
              !complete && Missing(x, unverified, r) && exists owner, path :: Ask(owner, path, r) in asked)
    }

    ghost predicate Valid()
      reads this
    {
      x.Keyed() && forall duty :: Meets(duty)
    }

    constructor (k: KnowledgeSet, complete: bool, unverified: set<EntityRef>)
      ensures Valid() && x == KnowledgeOf(k) && this.complete == complete && this.unverified == unverified
      ensures flagged == iset{} && asked == iset{} && reached.phase == 0
    {
      x := KnowledgeOf(k);
      this.complete, this.unverified := complete, unverified;
      violations, external := [], {};
      flagged, asked, reached := iset{}, iset{}, Spot(0, "", 0, 0, 0, 0, 0);
    }

    /** The check is at the entity of `spot` and has not come further than `spot`. */
    ghost predicate Upto(spot: Spot)
      reads this
    {
      reached.phase == spot.phase && reached.id == spot.id && (reached == spot || Within(reached, spot))
    }

    /** Nothing else is found before `spot`. */
    ghost method Advance(spot: Spot)
      requires Valid() && (Upto(spot) || Sooner(reached, spot))
      modifies this`reached
      ensures Valid() && reached == spot
    {
      assert Meets(Orderly) && Meets(Faithful);
      forall v | v in violations ensures Sooner(SpotOf(v), spot) {
        if reached != spot {
          SoonerTransitive(SpotOf(v), reached, spot);
        }
      }
      reached := spot;
      assert Meets(Orderly) && Meets(Faithful);
    }

    method Append(v: Violation)
      requires Valid() && Upto(SpotOf(v)) && !v.code.FilmEpisodeCount?
      modifies this`violations, this`reached
      ensures violations == old(violations) + [v]
      ensures Meets(Orderly) && reached == SpotOf(v).(step := SpotOf(v).step + 1)
    {
      Advance(SpotOf(v));
      assert Meets(Orderly);
      ghost var spot := SpotOf(v);
      violations := violations + [v];
      reached := spot.(step := spot.step + 1);
      forall w | w in violations ensures Sooner(SpotOf(w), reached) {
        if w != v {
          SoonerTransitive(SpotOf(w), spot, reached);
        }
      }
    }

    method Report(owner: EntityRef, path: Path, code: Code)
      requires Valid() && !code.UnknownReference? && !code.FilmEpisodeCount?
      requires Upto(SpotOf(Violation(owner, path, code)))
      modifies this
      ensures Valid() && asked == old(asked) && reached == PathSpot(owner, path).(step := 2)
      ensures flagged == old(flagged) + iset{Violation(owner, path, code)}
    {
      assert Meets(Faithful);
      Append(Violation(owner, path, code));
      flagged := flagged + iset{Violation(owner, path, code)};
      assert Meets(Orderly) && Meets(Faithful);
    }

    /** Whether `target` is in the set; a missing one is recorded. */
    method Resolve(owner: EntityRef, path: Path, target: EntityRef) returns (found: bool)
      requires Valid() && Upto(SpotOf(Violation(owner, path, UnknownReference)))
      modifies this
      ensures Valid() && flagged == old(flagged) && Upto(PathSpot(owner, path).(step := 1))
      ensures asked == old(asked) + iset{Ask(owner, path, target)}
      ensures found == x.Has(target)
    {
      assert Meets(Orderly) && Meets(Faithful);
      found := x.Has(target);
      if !found && target !in unverified {
        if complete {
          Append(Violation(owner, path, UnknownReference));
        } else {
          external := external + {target};
        }
      }
      asked := asked + iset{Ask(owner, path, target)};
      assert Meets(Orderly) && Meets(Faithful);
    }

    function AfterSources(owner: EntityRef, holder: Holder): Spot {
      var first := PathSpot(owner, SourceEpisode(holder, 0));
      first.(part := first.part + 1)
    }

    method CheckSources(owner: EntityRef, holder: Holder, sources: seq<SourceRef>)
      requires Valid()
      requires Upto(PathSpot(owner, SourceEpisode(holder, 0)))
      modifies this
      ensures Valid() && flagged == old(flagged)
      ensures Upto(AfterSources(owner, holder))
      ensures forall a :: a in asked <==>
          (a in old(asked) || (a.owner == owner && a.path.SourceEpisode? && a.path.holder == holder
            && SourceAt(sources, a.path.position) == Some(a.target)))
    {
      for i := 0 to |sources|
        invariant Valid() && flagged == old(flagged)
        invariant Upto(PathSpot(owner, SourceEpisode(holder, i)))
        invariant forall a :: a in asked <==>
            (a in old(asked)
              || (a.owner == owner && a.path.SourceEpisode? && a.path.holder == holder && a.path.position < i
              && SourceAt(sources, a.path.position) == Some(a.target)))
      {
        if sources[i].FromEpisode? {
          var _ := Resolve(owner, SourceEpisode(holder, i), EntityRef(EpisodeKind, sources[i].episode));
        }
      }
    }

    method ResolveAll(owner: EntityRef, field: Field, kind: EntityKind, targets: seq<Id>)
      requires Valid()
      requires Upto(Start(owner, ListSection(field), 0))
      modifies this
      ensures Valid() && flagged == old(flagged)
      ensures Upto(Start(owner, ListSection(field) + 1, 0))
      ensures forall a :: a in asked <==>
          (a in old(asked)
            || (a.owner == owner && a.path.Item? && a.path.field == field
            && At(kind, targets, a.path.position) == Some(a.target)))
    {
      for i := 0 to |targets|
        invariant Valid() && flagged == old(flagged)
        invariant Upto(Start(owner, ListSection(field), i))
        invariant forall a :: a in asked <==>
            (a in old(asked) || (a.owner == owner && a.path.Item? && a.path.field == field && a.path.position < i
              && At(kind, targets, a.path.position) == Some(a.target)))
      {
        var _ := Resolve(owner, Item(field, i), EntityRef(kind, targets[i]));
      }
    }

    // -------------------------------------------------------------- episodes

    method CheckListed(
      owner: EntityRef, e: Episode, field: Field, kind: EntityKind, listed: seq<Id>, continuity: Option<Id>)
      requires Valid()
      requires (field, kind, listed) in
                 {(Characters, CharacterKind, e.characters), (Locations, LocationKind, e.locations),
                  (Artifacts, ArtifactKind, e.artifacts)}
      requires continuity == if e.work in x.works then Some(x.works[e.work].continuity) else None
      requires Upto(Start(owner, ListSection(field), 0))
      modifies this
      ensures Valid()
      ensures Upto(Start(owner, ListSection(field) + 1, 0))
      ensures forall v :: v in flagged <==>
          (v in old(flagged)
            || (v.entity == owner && v.path.Item? && v.path.field == field && EpisodeFlag(x, e, v.path, v.code)))
      ensures forall a :: a in asked <==>
          (a in old(asked)
            || (a.owner == owner && a.path.Item? && a.path.field == field && EpisodeRef(e, a.path) == Some(a.target)))
    {
      for i := 0 to |listed|
        invariant Valid()
        invariant Upto(Start(owner, ListSection(field), i))
        invariant forall v :: v in flagged <==>
            (v in old(flagged)
              || (v.entity == owner && v.path.Item? && v.path.field == field && v.path.position < i
              && EpisodeFlag(x, e, v.path, v.code)))
        invariant forall a :: a in asked <==>
            (a in old(asked) || (a.owner == owner && a.path.Item? && a.path.field == field && a.path.position < i
              && EpisodeRef(e, a.path) == Some(a.target)))
      {
        CheckItem(owner, e, field, kind, listed, i, continuity);
      }
    }

    method CheckItem(
      owner: EntityRef, e: Episode, field: Field, kind: EntityKind, listed: seq<Id>, i: nat, continuity: Option<Id>)
      requires Valid() && i < |listed|
      requires (field, kind, listed) in
                 {(Characters, CharacterKind, e.characters), (Locations, LocationKind, e.locations),
                  (Artifacts, ArtifactKind, e.artifacts)}
      requires continuity == if e.work in x.works then Some(x.works[e.work].continuity) else None
      requires Upto(Start(owner, ListSection(field), i))
      modifies this
      ensures Valid()
      ensures Upto(Start(owner, ListSection(field), i + 1))
      ensures forall v :: v in flagged <==>
          (v in old(flagged) || (v.entity == owner && v.path == Item(field, i) && EpisodeFlag(x, e, v.path, v.code)))
      ensures forall a :: a in asked <==>
          (a in old(asked) || (a.owner == owner && a.path == Item(field, i) && EpisodeRef(e, a.path) == Some(a.target)))
    {
      var target := listed[i];
      var found := Resolve(owner, Item(field, i), EntityRef(kind, target));
      if found && continuity.Some? {
        var inside :=
          if kind == CharacterKind then continuity.value in VersionContinuities(x.characters[target])
          else if kind == LocationKind then continuity.value in x.locations[target].continuities
          else continuity.value in x.artifacts[target].continuities;
        if !inside {
          Report(owner, Item(field, i), ContinuityMismatch);
        }
      }
    }

    method CheckParticipants(owner: EntityRef, e: Episode, continuity: Option<Id>)
      requires Valid()
      requires continuity == if e.work in x.works then Some(x.works[e.work].continuity) else None
      requires Upto(Start(owner, ListSection(Characters), 0))
      modifies this
      ensures Valid()
      ensures Upto(Start(owner, INTERACTIONS, 0))
      ensures forall v :: v in flagged <==>
          (v in old(flagged) || (v.entity == owner && v.path.Item? && EpisodeFlag(x, e, v.path, v.code)))
      ensures forall a :: a in asked <==>
          (a in old(asked) || (a.owner == owner && a.path.Item? && EpisodeRef(e, a.path) == Some(a.target)))
    {
      CheckListed(owner, e, Characters, CharacterKind, e.characters, continuity);
      CheckListed(owner, e, Locations, LocationKind, e.locations, continuity);
      CheckListed(owner, e, Artifacts, ArtifactKind, e.artifacts, continuity);
    }

    method CheckInteraction(owner: EntityRef, e: Episode, i: nat, seen: map<((Id, Id), InteractionType), nat>)
      returns (seen': map<((Id, Id), InteractionType), nat>)
      requires Valid() && i < |e.interactions| && InteractionsIndexed(e, seen, i)
      requires Upto(Start(owner, INTERACTIONS, i))
      modifies this
      ensures Valid() && InteractionsIndexed(e, seen', i + 1)
      ensures Upto(Start(owner, INTERACTIONS, i + 1))
      ensures forall v :: v in flagged <==>
          (v in old(flagged) || (v.entity == owner && InteractionPath(v.path, i) && EpisodeFlag(x, e, v.path, v.code)))
      ensures forall a :: a in asked <==>
          (a in old(asked)
            || (a.owner == owner && InteractionPath(a.path, i) && EpisodeRef(e, a.path) == Some(a.target)))
    {
      var interaction := e.interactions[i];
      var key := InteractionKey(interaction);
      CheckSources(owner, OfInteraction(i), interaction.sources);
      ReportInteraction(owner, e, i, key in seen);
      InteractionFlags(x, e, i, seen);
      seen' := if interaction.from == interaction.to || key in seen then seen else seen[key := i];
    }

    method ReportInteraction(owner: EntityRef, e: Episode, i: nat, repeated: bool)
      requires Valid() && i < |e.interactions|
      requires Upto(Start(owner, INTERACTIONS, i).(part := 1))
      modifies this
      ensures Valid() && asked == old(asked)
      ensures Upto(Start(owner, INTERACTIONS, i + 1))
      ensures forall v :: v in flagged <==>
          (v in old(flagged) || (v.entity == owner && InteractionFlag(e, i, repeated, v.path, v.code)))
    {
      var interaction := e.interactions[i];
      if interaction.from == interaction.to {
        Report(owner, InteractionTo(i), SelfReference);
        return;
      }
      if interaction.from !in e.characters {
        Report(owner, InteractionFrom(i), InteractionParticipant);
      }
      if interaction.to !in e.characters {
        Report(owner, InteractionTo(i), InteractionParticipant);
      }
      if repeated {
        Report(owner, InteractionAt(i), DuplicateInteraction);
      }
    }

    method CheckInteractions(owner: EntityRef, e: Episode)
      requires Valid()
      requires Upto(Start(owner, INTERACTIONS, 0))
      modifies this
      ensures Valid()
      ensures Upto(Start(owner, ENTITY_END, 0))
      ensures forall v :: v in flagged <==>
          (v in old(flagged) || (v.entity == owner && OnInteraction(v.path) && EpisodeFlag(x, e, v.path, v.code)))
      ensures forall a :: a in asked <==>
          (a in old(asked) || (a.owner == owner && OnInteraction(a.path) && EpisodeRef(e, a.path) == Some(a.target)))
    {
      var seen: map<((Id, Id), InteractionType), nat> := map[];
      for i := 0 to |e.interactions|
        invariant Valid() && InteractionsIndexed(e, seen, i)
        invariant Upto(Start(owner, INTERACTIONS, i))
        invariant forall v :: v in flagged <==>
            (v in old(flagged) ||
             (v.entity == owner && InteractionBelow(v.path, i) && EpisodeFlag(x, e, v.path, v.code)))
        invariant forall a :: a in asked <==>
            (a in old(asked) ||
             (a.owner == owner && InteractionBelow(a.path, i) && EpisodeRef(e, a.path) == Some(a.target)))
      {
        seen := CheckInteraction(owner, e, i, seen);
      }
    }

    /** Follows the work of an episode and notes the episode if the work is a film. */
    method FollowWork(e: Episode, films: Films, ghost done: set<Id>)
      returns (continuity: Option<Id>, films': Films)
      requires Valid() && e.id in x.episodes && x.episodes[e.id] == e
      requires (forall o :: o in done ==> Before(o, e.id)) && FilmsIndexed(x, films, done)
      requires Upto(Start(EntityRef(EpisodeKind, e.id), 0, 0))
      modifies this
      ensures Valid() && flagged == old(flagged)
      ensures Upto(Start(EntityRef(EpisodeKind, e.id), 1, 0))
      ensures asked == old(asked) + iset{Ask(EntityRef(EpisodeKind, e.id), EpisodeWork, EntityRef(WorkKind, e.work))}
      ensures continuity == if e.work in x.works then Some(x.works[e.work].continuity) else None
      ensures FilmsIndexed(x, films', done + {e.id})
    {
      var owner := EntityRef(EpisodeKind, e.id);
      continuity, films' := None, films;
      var found := Resolve(owner, EpisodeWork, EntityRef(WorkKind, e.work));
      if found {
        var work := x.works[e.work];
        continuity := Some(work.continuity);
        if work.medium == Film {
          films' := films.Noted(work.id, owner);
        }
      }
      if OfFilm(x, e.id, e.work) {
        FilmNoted(x, films, done, e);
      } else {
        NoFilmNoted(x, films, done, e);
      }
    }

    method CheckNumber(e: Episode, numbers: map<(Id, Option<nat>, nat), Id>, ghost done: set<Id>)
      returns (numbers': map<(Id, Option<nat>, nat), Id>)
      requires Valid() && e.id in x.episodes && x.episodes[e.id] == e
      requires forall o :: o in done <==> o in x.episodes && Before(o, e.id)
      requires NumbersIndexed(x, numbers, done)
      requires Upto(Start(EntityRef(EpisodeKind, e.id), 1, 0))
      modifies this
      ensures Valid() && asked == old(asked)
      ensures Upto(Start(EntityRef(EpisodeKind, e.id), 2, 0))
      ensures NumbersIndexed(x, numbers', done + {e.id})
      ensures forall v :: v in flagged <==>
          (v in old(flagged) ||
           (v.entity == EntityRef(EpisodeKind, e.id) && v.path.EpisodeNumber? && EpisodeFlag(x, e, v.path, v.code)))
    {
      numbers' := numbers;
      var key := NumberKey(e);
      if key in numbers {
        Report(EntityRef(EpisodeKind, e.id), EpisodeNumber, DuplicateEpisodeNumber);
      } else {
        numbers' := numbers[key := e.id];
      }
    }

    /** One round of the loop over episodes; what concerns films is reported at the end. */
    method CheckEpisode(
      e: Episode, numbers: map<(Id, Option<nat>, nat), Id>, films: Films, ghost done: set<Id>)
      returns (numbers': map<(Id, Option<nat>, nat), Id>, films': Films)
      requires Valid() && e.id in x.episodes && x.episodes[e.id] == e && e.id !in done
      requires forall o :: o in done <==> o in x.episodes && Before(o, e.id)
      requires NumbersIndexed(x, numbers, done) && FilmsIndexed(x, films, done)
      requires Upto(Start(EntityRef(EpisodeKind, e.id), 0, 0))
      modifies this
      ensures Valid()
      ensures Upto(Start(EntityRef(EpisodeKind, e.id), ENTITY_END, 0))
      ensures NumbersIndexed(x, numbers', done + {e.id}) && FilmsIndexed(x, films', done + {e.id})
      ensures forall v :: v in flagged <==>
          (v in old(flagged) ||
           (v.entity == EntityRef(EpisodeKind, e.id) && !v.code.FilmEpisodeCount? && EpisodeFlag(x, e, v.path, v.code)))
      ensures forall a :: a in asked <==>
          (a in old(asked) || (a.owner == EntityRef(EpisodeKind, e.id) && EpisodeRef(e, a.path) == Some(a.target)))
    {
      var owner := EntityRef(EpisodeKind, e.id);
      var continuity;
      continuity, films' := FollowWork(e, films, done);
      numbers' := CheckNumber(e, numbers, done);
      CheckParticipants(owner, e, continuity);
      CheckInteractions(owner, e);
      EpisodePaths(x, e);
    }

    /** All episodes were visited, and perhaps some films. */
    ghost predicate BeforeFilms()
      reads this
    {
      reached.phase < FILM_PHASE || reached == FILMS.(step := 1)
    }

    /** Reported after all episodes, in the order in which films and their episodes were noted. */
    method ReportFilmEpisode(owner: EntityRef)
      requires Valid() && BeforeFilms()
      requires forall v :: v in flagged && v.code.FilmEpisodeCount? ==> FilmSooner(x, v.entity.id, owner.id)
      modifies this
      ensures Valid() && asked == old(asked) && reached == FILMS.(step := 1)
      ensures flagged == old(flagged) + iset{Violation(owner, EpisodeWork, FilmEpisodeCount)}
    {
      Advance(FILMS.(step := 1));
      assert Meets(Orderly) && Meets(Faithful);
      forall v | v in violations ensures Precedes(x, v, Violation(owner, EpisodeWork, FilmEpisodeCount)) {
        assert Sooner(SpotOf(v), reached);
      }
      violations := violations + [Violation(owner, EpisodeWork, FilmEpisodeCount)];
      flagged := flagged + iset{Violation(owner, EpisodeWork, FilmEpisodeCount)};
      assert Meets(Orderly) && Meets(Faithful);
    }

    /** Everything reported of films belongs to the first `n` of them. */
    ghost predicate FilmsReported(films: Films, n: nat)
      reads this
    {
      forall v :: v in flagged && v.code.FilmEpisodeCount? ==> InLongFilm(films, n, v.entity)
    }

    method ReportFilm(films: Films, n: nat)
      requires Valid() && BeforeFilms()
      requires FilmsIndexed(x, films, x.episodes.Keys) && n < |films.order| && FilmsReported(films, n)
      modifies this
      ensures Valid() && asked == old(asked) && BeforeFilms()
      ensures forall v :: v in flagged <==>
          (v in old(flagged)
            || (v.path.EpisodeWork? && v.code.FilmEpisodeCount? && v.entity in films.owners[films.order[n]]))
    {
      var owners := films.owners[films.order[n]];
      for i := 0 to |owners|
        invariant Valid() && asked == old(asked) && BeforeFilms()
        invariant forall v :: v in flagged <==>
            (v in old(flagged) || (v.path.EpisodeWork? && v.code.FilmEpisodeCount? && v.entity in owners[..i]))
      {
        assert owners[..i + 1] == owners[..i] + [owners[i]];
        FilmEpisodeNext(films, n, i, old(flagged));
        ReportFilmEpisode(owners[i]);
      }
      assert owners[..|owners|] == owners;
    }

    lemma FilmEpisodeNext(films: Films, n: nat, i: nat, before: iset<Violation>)
      requires FilmsIndexed(x, films, x.episodes.Keys) && n < |films.order|
      requires i < |films.owners[films.order[n]]|
      requires forall v :: v in before && v.code.FilmEpisodeCount? ==> InLongFilm(films, n, v.entity)
      requires forall v :: v in flagged ==>
          v in before || (v.code.FilmEpisodeCount? && v.entity in films.owners[films.order[n]][..i])
      ensures forall v :: v in flagged && v.code.FilmEpisodeCount? ==>
        FilmSooner(x, v.entity.id, films.owners[films.order[n]][i].id)
    {
      var owners := films.owners[films.order[n]];
      forall v | v in flagged && v.code.FilmEpisodeCount? ensures FilmSooner(x, v.entity.id, owners[i].id) {
        if v in before {
          var m :| 0 <= m < n && OfLongFilm(films, films.order[m], v.entity);
          FilmsInOrder(x, films, m, n, v.entity, owners[i]);
        } else {
          var k :| 0 <= k < i && owners[k] == v.entity;
          assert OfFilm(x, owners[k].id, films.order[n]) && OfFilm(x, owners[i].id, films.order[n]);
        }
      }
    }

    method ReportFilms(films: Films)
      requires Valid() && reached.phase < FILM_PHASE && FilmsIndexed(x, films, x.episodes.Keys)
      requires forall v :: v in flagged ==> !v.code.FilmEpisodeCount?
      modifies this
      ensures Valid() && asked == old(asked) && reached.phase <= FILM_PHASE
      ensures forall v :: v in flagged <==>
          (v in old(flagged)
            || (v.path.EpisodeWork? && v.code.FilmEpisodeCount? && InLongFilm(films, |films.order|, v.entity)))
    {
      for n := 0 to |films.order|
        invariant Valid() && asked == old(asked) && BeforeFilms()
        invariant forall v :: v in flagged <==>
            (v in old(flagged)
              || (v.path.EpisodeWork? && v.code.FilmEpisodeCount? && InLongFilm(films, n, v.entity)))
      {
        LongFilmsGrow(films, n);
        if |films.owners[films.order[n]]| > 1 {
          ReportFilm(films, n);
        }
      }
    }

    /** One more episode is done. */
    method CheckNextEpisode(
      e: Episode, numbers: map<(Id, Option<nat>, nat), Id>, films: Films,
      ghost done: set<Id>, ghost flaggedBefore: iset<Violation>, ghost askedBefore: iset<Ask>)
      returns (numbers': map<(Id, Option<nat>, nat), Id>, films': Films)
      requires Valid() && e.id in x.episodes && x.episodes[e.id] == e && e.id !in done
      requires forall o :: o in done <==> o in x.episodes && Before(o, e.id)
      requires NumbersIndexed(x, numbers, done) && FilmsIndexed(x, films, done)
      requires forall v :: v in flagged <==> (v in flaggedBefore || EpisodeDone(x, done, v))
      requires forall a :: a in asked <==> (a in askedBefore || AskDone(x, EpisodeKind, done, a))
      requires Sooner(reached, Start(EntityRef(EpisodeKind, e.id), 0, 0))
      modifies this
      ensures Valid()
      ensures reached == Start(EntityRef(EpisodeKind, e.id), ENTITY_END, 0)
      ensures NumbersIndexed(x, numbers', done + {e.id}) && FilmsIndexed(x, films', done + {e.id})
      ensures forall v :: v in flagged <==> (v in flaggedBefore || EpisodeDone(x, done + {e.id}, v))
      ensures forall a :: a in asked <==> (a in askedBefore || AskDone(x, EpisodeKind, done + {e.id}, a))
    {
      Advance(Start(EntityRef(EpisodeKind, e.id), 0, 0));
      numbers', films' := CheckEpisode(e, numbers, films, done);
      Advance(Start(EntityRef(EpisodeKind, e.id), ENTITY_END, 0));
    }

    method EpisodesLoop(episodes: seq<Episode>) returns (films: Films)
      requires Valid() && Listing(episodes, EpisodeId, x.episodes)
      requires reached.phase < PhaseOf(EpisodeKind)
      modifies this
      ensures Valid() && FilmsIndexed(x, films, x.episodes.Keys)
      ensures reached.phase <= PhaseOf(EpisodeKind)
      ensures forall v :: v in flagged <==> (v in old(flagged) || EpisodeDone(x, x.episodes.Keys, v))
      ensures forall a :: a in asked <==> (a in old(asked) || AskDone(x, EpisodeKind, x.episodes.Keys, a))
    {
      var numbers: map<(Id, Option<nat>, nat), Id> := map[];
      films := Films(map[], []);
      ghost var done: set<Id> := {};
      for i := 0 to |episodes|
        invariant Valid() && done == Ids(episodes[..i], EpisodeId)
        invariant reached.phase < PhaseOf(EpisodeKind)
          || (i > 0 && reached == Start(EntityRef(EpisodeKind, episodes[i - 1].id), ENTITY_END, 0))
        invariant NumbersIndexed(x, numbers, done) && FilmsIndexed(x, films, done)
        invariant forall v :: v in flagged <==> (v in old(flagged) || EpisodeDone(x, done, v))
        invariant forall a :: a in asked <==> (a in old(asked) || AskDone(x, EpisodeKind, done, a))
      {
        var e := episodes[i];
        DoneBefore(episodes, EpisodeId, x.episodes, i);
        numbers, films := CheckNextEpisode(e, numbers, films, done, old(flagged), old(asked));
        done := done + {e.id};
      }
      AllDone(episodes, EpisodeId, x.episodes);
    }

    method CheckEpisodes(episodes: seq<Episode>)
      requires Valid() && Listing(episodes, EpisodeId, x.episodes) && reached.phase < PhaseOf(EpisodeKind)
      requires forall v :: v in flagged ==> !v.code.FilmEpisodeCount?
      modifies this
      ensures Valid() && reached.phase <= FILM_PHASE
      ensures forall v :: v in flagged <==> (v in old(flagged) || (v.entity.kind.EpisodeKind? && RuleFlag(x, v)))
      ensures forall a :: a in asked <==> (a in old(asked) || AskDone(x, EpisodeKind, x.episodes.Keys, a))
    {
      var films := EpisodesLoop(episodes);
      ReportFilms(films);
      FilmFlags(x, films, x.episodes.Keys);
    }

    // -------------------------------------------------------------- characters

    method CheckVersion(owner: EntityRef, c: Character, i: nat, versionOf: map<Id, nat>)
      returns (versionOf': map<Id, nat>)
      requires Valid() && i < |c.versions| && VersionsIndexed(c, versionOf, i, 0)
      requires Upto(Start(owner, VERSIONS, i))
      modifies this
      ensures Valid() && VersionsIndexed(c, versionOf', i + 1, 0)
      ensures Upto(Start(owner, VERSIONS, i + 1))
      ensures forall v :: v in flagged <==>
          (v in old(flagged) || (v.entity == owner && OnVersion(v.path, i) && CharacterFlag(x, c, v.path, v.code)))
      ensures forall a :: a in asked <==>
          (a in old(asked) || (a.owner == owner && OnVersion(a.path, i) && CharacterRef(c, a.path) == Some(a.target)))
    {
      versionOf' := versionOf;
      var continuities := c.versions[i].continuities;
      for j := 0 to |continuities|
        invariant Valid() && VersionsIndexed(c, versionOf', i, j)
        invariant Upto(Start(owner, VERSIONS, i).(position := j))
        invariant forall v :: v in flagged <==>
            (v in old(flagged) ||
             (v.entity == owner && v.path.VersionContinuity? && v.path.version == i && v.path.position < j
              && CharacterFlag(x, c, v.path, v.code)))
        invariant forall a :: a in asked <==>
            (a in old(asked) ||
             (a.owner == owner && a.path.VersionContinuity? && a.path.version == i && a.path.position < j
              && CharacterRef(c, a.path) == Some(a.target)))
      {
        versionOf' := CheckVersionContinuity(owner, c, i, j, versionOf');
      }
      CheckSources(owner, OfVersion(i), c.versions[i].sources);
    }

    method CheckVersionContinuity(owner: EntityRef, c: Character, i: nat, j: nat, versionOf: map<Id, nat>)
      returns (versionOf': map<Id, nat>)
      requires Valid() && VersionSlot(c, i, j) && VersionsIndexed(c, versionOf, i, j)
      requires Upto(Start(owner, VERSIONS, i).(position := j))
      modifies this
      ensures Valid() && VersionsIndexed(c, versionOf', i, j + 1)
      ensures Upto(Start(owner, VERSIONS, i).(position := j + 1))
      ensures forall v :: v in flagged <==>
          (v in old(flagged)
            || (v.entity == owner && v.path == VersionContinuity(i, j) && CharacterFlag(x, c, v.path, v.code)))
      ensures forall a :: a in asked <==>
          (a in old(asked)
            || (a.owner == owner && a.path == VersionContinuity(i, j) && CharacterRef(c, a.path) == Some(a.target)))
    {
      versionOf' := versionOf;
      var continuity := c.versions[i].continuities[j];
      var _ := Resolve(owner, VersionContinuity(i, j), EntityRef(ContinuityKind, continuity));
      if continuity in versionOf {
        Report(owner, VersionContinuity(i, j), OverlappingVersions);
      } else {
        versionOf' := versionOf[continuity := i];
      }
    }

    method CheckVersions(owner: EntityRef, c: Character)
      requires Valid()
      requires Upto(Start(owner, VERSIONS, 0))
      modifies this
      ensures Valid()
      ensures Upto(Start(owner, RELATIONSHIPS, 0))
      ensures forall v :: v in flagged <==>
          (v in old(flagged) || (v.entity == owner && v.path.VersionContinuity? && CharacterFlag(x, c, v.path, v.code)))
      ensures forall a :: a in asked <==>
          (a in old(asked)
            || (a.owner == owner && VersionBelow(a.path, |c.versions|) && CharacterRef(c, a.path) == Some(a.target)))
    {
      var versionOf: map<Id, nat> := map[];
      for i := 0 to |c.versions|
        invariant Valid() && VersionsIndexed(c, versionOf, i, 0)
        invariant Upto(Start(owner, VERSIONS, i))
        invariant forall v :: v in flagged <==>
            (v in old(flagged) || (v.entity == owner && VersionBelow(v.path, i) && CharacterFlag(x, c, v.path, v.code)))
        invariant forall a :: a in asked <==>
            (a in old(asked)
              || (a.owner == owner && VersionBelow(a.path, i) && CharacterRef(c, a.path) == Some(a.target)))
      {
        versionOf := CheckVersion(owner, c, i, versionOf);
      }
      CharacterPaths(x, c);
    }

    /**
     * Follows one continuity of a relationship of `c`; `other` are the continuities of the other character, if known.
     */
    method CheckRelationshipContinuities(owner: EntityRef, c: Character, i: nat, other: Option<set<Id>>)
      requires Valid() && i < |c.relationships| && c.relationships[i].to != c.id
      requires other == if c.relationships[i].to in x.characters
                        then Some(VersionContinuities(x.characters[c.relationships[i].to])) else None
      requires Upto(Start(owner, RELATIONSHIPS, i).(part := 2))
      modifies this
      ensures Valid()
      ensures Upto(Start(owner, RELATIONSHIPS, i).(part := 3))
      ensures forall v :: v in flagged <==>
          (v in old(flagged) ||
           (v.entity == owner && v.path.RelationshipContinuity? && v.path.relationship == i
             && CharacterFlag(x, c, v.path, v.code)))
      ensures forall a :: a in asked <==>
          (a in old(asked) ||
           (a.owner == owner && a.path.RelationshipContinuity? && a.path.relationship == i
             && CharacterRef(c, a.path) == Some(a.target)))
    {
      var own := VersionContinuities(c);
      var continuities := c.relationships[i].continuities;
      for j := 0 to |continuities|
        invariant Valid()
        invariant Upto(Start(owner, RELATIONSHIPS, i).(part := 2, position := j))
        invariant forall v :: v in flagged <==>
            (v in old(flagged) ||
             (v.entity == owner && v.path.RelationshipContinuity? && v.path.relationship == i && v.path.position < j
              && CharacterFlag(x, c, v.path, v.code)))
        invariant forall a :: a in asked <==>
            (a in old(asked) ||
             (a.owner == owner && a.path.RelationshipContinuity? && a.path.relationship == i && a.path.position < j
              && CharacterRef(c, a.path) == Some(a.target)))
      {
        CheckRelationshipContinuity(owner, c, i, j, own, other);
      }
    }

    method CheckRelationshipContinuity(
      owner: EntityRef, c: Character, i: nat, j: nat, own: set<Id>, other: Option<set<Id>>)
      requires Valid() && i < |c.relationships| && c.relationships[i].to != c.id
      requires j < |c.relationships[i].continuities| && own == VersionContinuities(c)
      requires other == if c.relationships[i].to in x.characters
                        then Some(VersionContinuities(x.characters[c.relationships[i].to])) else None
      requires Upto(Start(owner, RELATIONSHIPS, i).(part := 2, position := j))
      modifies this
      ensures Valid()
      ensures Upto(Start(owner, RELATIONSHIPS, i).(part := 2, position := j + 1))
      ensures forall v :: v in flagged <==>
          (v in old(flagged) ||
           (v.entity == owner && v.path == RelationshipContinuity(i, j) && CharacterFlag(x, c, v.path, v.code)))
      ensures forall a :: a in asked <==>
          (a in old(asked) ||
           (a.owner == owner && a.path == RelationshipContinuity(i, j) && CharacterRef(c, a.path) == Some(a.target)))
    {
      var continuity := c.relationships[i].continuities[j];
      var _ := Resolve(owner, RelationshipContinuity(i, j), EntityRef(ContinuityKind, continuity));
      if continuity !in own || (other.Some? && continuity !in other.value) {
        Report(owner, RelationshipContinuity(i, j), ContinuityMismatch);
      }
    }

    method CheckRelationship(owner: EntityRef, c: Character, i: nat, seen: RelationshipIndex, ghost done: set<Id>)
      returns (seen': RelationshipIndex)
      requires Valid() && c.id in x.characters && x.characters[c.id] == c && i < |c.relationships|
      requires forall o :: o in done <==> o in x.characters && Before(o, c.id)
      requires RelationshipsIndexed(x, seen, done, c.id, i)
      requires Upto(Start(owner, RELATIONSHIPS, i))
      modifies this
      ensures Valid() && RelationshipsIndexed(x, seen', done, c.id, i + 1)
      ensures Upto(Start(owner, RELATIONSHIPS, i + 1))
      ensures forall v :: v in flagged <==>
          (v in old(flagged) || (v.entity == owner && OnRelationship(v.path, i) && CharacterFlag(x, c, v.path, v.code)))
      ensures forall a :: a in asked <==>
          (a in old(asked)
            || (a.owner == owner && OnRelationship(a.path, i) && CharacterRef(c, a.path) == Some(a.target)))
    {
      CheckSources(owner, OfRelationship(i), c.relationships[i].sources);
      if c.relationships[i].to == c.id {
        RelationshipFlags(x, c, i);
        Report(owner, RelationshipTo(i), SelfReference);
        RelationshipSkipped(x, seen, done, c, i);
        seen' := seen;
      } else {
        seen' := CheckOther(owner, c, i, seen, done);
      }
    }

    /** Everything about a relationship to another character but its sources. */
    method CheckOther(owner: EntityRef, c: Character, i: nat, seen: RelationshipIndex, ghost done: set<Id>)
      returns (seen': RelationshipIndex)
      requires Valid() && c.id in x.characters && x.characters[c.id] == c
      requires i < |c.relationships| && c.relationships[i].to != c.id
      requires forall o :: o in done <==> o in x.characters && Before(o, c.id)
      requires RelationshipsIndexed(x, seen, done, c.id, i)
      requires Upto(Start(owner, RELATIONSHIPS, i).(part := 1))
      modifies this
      ensures Valid() && RelationshipsIndexed(x, seen', done, c.id, i + 1)
      ensures Upto(Start(owner, RELATIONSHIPS, i + 1))
      ensures forall v :: v in flagged <==>
          (v in old(flagged) || (v.entity == owner && OnRelationship(v.path, i) && CharacterFlag(x, c, v.path, v.code)))
      ensures forall a :: a in asked <==>
          (a in old(asked) ||
           (a.owner == owner && OnRelationship(a.path, i) && !a.path.SourceEpisode?
            && CharacterRef(c, a.path) == Some(a.target)))
    {
      FollowRelationship(owner, c, i);
      seen' := CheckRepetition(owner, c, i, seen, done);
      RelationshipFlags(x, c, i);
    }

    /** Follows the other character of a relationship and its continuities. */
    method FollowRelationship(owner: EntityRef, c: Character, i: nat)
      requires Valid() && i < |c.relationships| && c.relationships[i].to != c.id
      requires Upto(Start(owner, RELATIONSHIPS, i).(part := 1))
      modifies this
      ensures Valid()
      ensures Upto(Start(owner, RELATIONSHIPS, i).(part := 3))
      ensures forall v :: v in flagged <==>
          (v in old(flagged) ||
           (v.entity == owner && v.path.RelationshipContinuity? && v.path.relationship == i
            && CharacterFlag(x, c, v.path, v.code)))
      ensures forall a :: a in asked <==>
          (a in old(asked) ||
           (a.owner == owner && OnRelationship(a.path, i) && !a.path.SourceEpisode?
            && CharacterRef(c, a.path) == Some(a.target)))
    {
      var to := c.relationships[i].to;
      var found := Resolve(owner, RelationshipTo(i), EntityRef(CharacterKind, to));
      CheckRelationshipContinuities(
        owner, c, i, if found then Some(VersionContinuities(x.characters[to])) else None);
    }

    /** Compares a relationship with the earlier ones of the same key only. */
    method CheckRepetition(owner: EntityRef, c: Character, i: nat, seen: RelationshipIndex, ghost done: set<Id>)
      returns (seen': RelationshipIndex)
      requires Valid() && c.id in x.characters && x.characters[c.id] == c
      requires i < |c.relationships| && c.relationships[i].to != c.id
      requires forall o :: o in done <==> o in x.characters && Before(o, c.id)
      requires RelationshipsIndexed(x, seen, done, c.id, i)
      requires Upto(Start(owner, RELATIONSHIPS, i).(part := 3))
      modifies this
      ensures Valid() && asked == old(asked)
      ensures Upto(Start(owner, RELATIONSHIPS, i + 1))
      ensures RelationshipsIndexed(x, seen', done, c.id, i + 1)
      ensures forall v :: v in flagged <==>
          (v in old(flagged) ||
           (v.entity == owner && v.path == RelationshipAt(i) && v.code.DuplicateRelationship?
             && CharacterFlag(x, c, v.path, v.code)))
    {
      var continuities := Set(c.relationships[i].continuities);
      var key := RelationshipKey(c.id, c.relationships[i]);
      var entries := if key in seen then seen[key] else [];
      var clash := SomeOverlap(entries, continuities);
      RelationshipRepeats(x, seen, done, c, i);
      if clash {
        Report(owner, RelationshipAt(i), DuplicateRelationship);
      }
      seen' := seen[key := entries + [(c.id, continuities)]];
      RelationshipAdded(x, seen, done, c, i, seen');
    }

    method CheckRelationships(owner: EntityRef, c: Character, seen: RelationshipIndex, ghost done: set<Id>)
      returns (seen': RelationshipIndex)
      requires Valid() && c.id in x.characters && x.characters[c.id] == c
      requires forall o :: o in done <==> o in x.characters && Before(o, c.id)
      requires RelationshipsIndexed(x, seen, done, c.id, 0)
      requires Upto(Start(owner, RELATIONSHIPS, 0))
      modifies this
      ensures Valid() && RelationshipsIndexed(x, seen', done + {c.id}, c.id, 0)
      ensures Upto(Start(owner, OWN_SOURCES, 0))
      ensures forall v :: v in flagged <==>
          (v in old(flagged)
            || (v.entity == owner && RelationshipBelow(v.path, |c.relationships|)
            && CharacterFlag(x, c, v.path, v.code)))
      ensures forall a :: a in asked <==>
          (a in old(asked)
            || (a.owner == owner && RelationshipBelow(a.path, |c.relationships|)
            && CharacterRef(c, a.path) == Some(a.target)))
    {
      seen' := seen;
      for i := 0 to |c.relationships|
        invariant Valid() && RelationshipsIndexed(x, seen', done, c.id, i)
        invariant Upto(Start(owner, RELATIONSHIPS, i))
        invariant forall v :: v in flagged <==>
            (v in old(flagged)
              || (v.entity == owner && RelationshipBelow(v.path, i) && CharacterFlag(x, c, v.path, v.code)))
        invariant forall a :: a in asked <==>
            (a in old(asked)
              || (a.owner == owner && RelationshipBelow(a.path, i) && CharacterRef(c, a.path) == Some(a.target)))
      {
        seen' := CheckRelationship(owner, c, i, seen', done);
      }
      RelationshipsDone(x, seen', done, c);
    }

    method CheckCharacterNames(owner: EntityRef, c: Character, names: map<Text, Id>, ghost done: set<Id>)
      returns (names': map<Text, Id>)
      requires Valid() && c.id in x.characters && x.characters[c.id] == c
      requires forall o :: o in done <==> o in x.characters && Before(o, c.id)
      requires NameIndexed(x, names, done, c.id, 0)
      requires Upto(Start(owner, NAMES, 0))
      modifies this
      ensures Valid() && asked == old(asked) && NameIndexed(x, names', done + {c.id}, c.id, 0)
      ensures Upto(Start(owner, ENTITY_END, 0))
      ensures forall v :: v in flagged <==>
          (v in old(flagged) || (v.entity == owner && v.path.NameAt? && CharacterFlag(x, c, v.path, v.code)))
    {
      names' := names;
      var own := NamesOf(c.name, c.aliases);
      for i := 0 to |own|
        invariant Valid() && asked == old(asked) && NameIndexed(x, names', done, c.id, i)
        invariant Upto(Start(owner, NAMES, i))
        invariant forall v :: v in flagged <==>
            (v in old(flagged) ||
             (v.entity == owner && v.path.NameAt? && v.path.position < i && CharacterFlag(x, c, v.path, v.code)))
      {
        names' := CheckCharacterName(owner, c, i, names', done);
      }
      NamesDone(x, names', done, c);
    }

    method CheckCharacterName(owner: EntityRef, c: Character, i: nat, names: map<Text, Id>, ghost done: set<Id>)
      returns (names': map<Text, Id>)
      requires Valid() && c.id in x.characters && x.characters[c.id] == c && i < |NamesOf(c.name, c.aliases)|
      requires forall o :: o in done <==> o in x.characters && Before(o, c.id)
      requires NameIndexed(x, names, done, c.id, i)
      requires Upto(Start(owner, NAMES, i))
      modifies this
      ensures Valid() && asked == old(asked) && NameIndexed(x, names', done, c.id, i + 1)
      ensures Upto(Start(owner, NAMES, i + 1))
      ensures forall v :: v in flagged <==>
          (v in old(flagged) || (v.entity == owner && v.path == NameAt(i) && CharacterFlag(x, c, v.path, v.code)))
    {
      var key := NormalizeName(NamesOf(c.name, c.aliases)[i]);
      NameRepeats(x, names, done, c, i);
      NameAdded(x, names, done, c, i, if key in names then names else names[key := c.id]);
      // The message says whether the holder is this character; the violation is the same.
      ReportName(owner, c, i, key in names);
      names' := if key in names then names else names[key := c.id];
    }

    method ReportName(owner: EntityRef, c: Character, i: nat, taken: bool)
      requires Valid() && Upto(Start(owner, NAMES, i))
      requires taken <==> CharacterFlag(x, c, NameAt(i), DuplicateName)
      requires forall code :: CharacterFlag(x, c, NameAt(i), code) ==> code.DuplicateName?
      modifies this
      ensures Valid() && asked == old(asked)
      ensures Upto(Start(owner, NAMES, i + 1))
      ensures forall v :: v in flagged <==>
          (v in old(flagged) || (v.entity == owner && v.path == NameAt(i) && CharacterFlag(x, c, v.path, v.code)))
    {
      if taken {
        Report(owner, NameAt(i), DuplicateName);
      }
    }

    method CheckCharacter(c: Character, names: map<Text, Id>, seen: RelationshipIndex, ghost done: set<Id>)
      returns (names': map<Text, Id>, seen': RelationshipIndex)
      requires Valid() && c.id in x.characters && x.characters[c.id] == c
      requires forall o :: o in done <==> o in x.characters && Before(o, c.id)
      requires NameIndexed(x, names, done, c.id, 0) && RelationshipsIndexed(x, seen, done, c.id, 0)
      requires Upto(Start(EntityRef(CharacterKind, c.id), 0, 0))
      modifies this
      ensures Valid()
      ensures Upto(Start(EntityRef(CharacterKind, c.id), ENTITY_END, 0))
      ensures NameIndexed(x, names', done + {c.id}, c.id, 0) && RelationshipsIndexed(x, seen', done + {c.id}, c.id, 0)
      ensures forall v :: v in flagged <==>
          (v in old(flagged) || (v.entity == EntityRef(CharacterKind, c.id) && CharacterFlag(x, c, v.path, v.code)))
      ensures forall a :: a in asked <==>
          (a in old(asked) || (a.owner == EntityRef(CharacterKind, c.id) && CharacterRef(c, a.path) == Some(a.target)))
    {
      var owner := EntityRef(CharacterKind, c.id);
      CheckVersions(owner, c);
      seen' := CheckRelationships(owner, c, seen, done);
      CheckSources(owner, Own, c.sources);
      names' := CheckCharacterNames(owner, c, names, done);
      CharacterPaths(x, c);
    }

    method CheckCharacterInTurn(c: Character, names: map<Text, Id>, seen: RelationshipIndex, ghost done: set<Id>)
      returns (names': map<Text, Id>, seen': RelationshipIndex)
      requires Valid() && c.id in x.characters && x.characters[c.id] == c
      requires forall o :: o in done <==> o in x.characters && Before(o, c.id)
      requires NameIndexed(x, names, done, "", 0) && RelationshipsIndexed(x, seen, done, "", 0)
      requires Sooner(reached, Start(EntityRef(CharacterKind, c.id), 0, 0))
      modifies this
      ensures Valid()
      ensures reached == Start(EntityRef(CharacterKind, c.id), ENTITY_END, 0)
      ensures NameIndexed(x, names', done + {c.id}, "", 0) && RelationshipsIndexed(x, seen', done + {c.id}, "", 0)
      ensures forall v :: v in flagged <==> (v in old(flagged) || CharacterDone(x, {c.id}, v))
      ensures forall a :: a in asked <==> (a in old(asked) || AskDone(x, CharacterKind, {c.id}, a))
    {
      CurrentIrrelevant(x, names, seen, done, "", c.id);
      Advance(Start(EntityRef(CharacterKind, c.id), 0, 0));
      names', seen' := CheckCharacter(c, names, seen, done);
      CurrentIrrelevant(x, names', seen', done + {c.id}, c.id, "");
      Advance(Start(EntityRef(CharacterKind, c.id), ENTITY_END, 0));
    }

    method CheckCharacters(characters: seq<Character>)
      requires Valid() && Listing(characters, CharacterId, x.characters)
      requires reached.phase < PhaseOf(CharacterKind)
      modifies this
      ensures Valid()
      ensures reached.phase <= PhaseOf(CharacterKind)
      ensures forall v :: v in flagged <==> (v in old(flagged) || CharacterDone(x, x.characters.Keys, v))
      ensures forall a :: a in asked <==> (a in old(asked) || AskDone(x, CharacterKind, x.characters.Keys, a))
    {
      var names: map<Text, Id> := map[];
      var seen: RelationshipIndex := map[];
      ghost var done: set<Id> := {};
      for i := 0 to |characters|
        invariant Valid() && done == Ids(characters[..i], CharacterId)
        invariant reached.phase < PhaseOf(CharacterKind)
          || (i > 0 && reached == Start(EntityRef(CharacterKind, characters[i - 1].id), ENTITY_END, 0))
        invariant NameIndexed(x, names, done, "", 0) && RelationshipsIndexed(x, seen, done, "", 0)
        invariant forall v :: v in flagged <==> (v in old(flagged) || CharacterDone(x, done, v))
        invariant forall a :: a in asked <==> (a in old(asked) || AskDone(x, CharacterKind, done, a))
      {
        DoneBefore(characters, CharacterId, x.characters, i);
        names, seen := CheckCharacterInTurn(characters[i], names, seen, done);
        done := done + {characters[i].id};
      }
      AllDone(characters, CharacterId, x.characters);
    }

    // -------------------------------------------------------------- places

    method CheckMembers(owner: EntityRef, kind: EntityKind, p: Place)
      requires Valid() && (kind.LocationKind? || kind.ArtifactKind?)
      requires Upto(Start(owner, ListSection(MemberField(kind)), 0))
      modifies this
      ensures Valid()
      ensures Upto(Start(owner, INTERACTIONS, 0))
      ensures forall v :: v in flagged <==>
          (v in old(flagged) || (v.entity == owner && v.path.Item? && PlaceFlag(x, kind, p, v.path, v.code)))
      ensures forall a :: a in asked <==>
          (a in old(asked) ||
           (a.owner == owner && a.path.Item? && a.path.field == MemberField(kind)
             && PlaceRef(kind, p, a.path) == Some(a.target)))
    {
      for i := 0 to |p.members|
        invariant Valid()
        invariant Upto(Start(owner, ListSection(MemberField(kind)), i))
        invariant forall v :: v in flagged <==>
            (v in old(flagged)
              || (v.entity == owner && v.path.Item? && v.path.position < i && PlaceFlag(x, kind, p, v.path, v.code)))
        invariant forall a :: a in asked <==>
            (a in old(asked) ||
             (a.owner == owner && a.path.Item? && a.path.field == MemberField(kind) && a.path.position < i
              && PlaceRef(kind, p, a.path) == Some(a.target)))
      {
        CheckMember(owner, kind, p, i);
      }
    }

    method CheckMember(owner: EntityRef, kind: EntityKind, p: Place, i: nat)
      requires Valid() && (kind.LocationKind? || kind.ArtifactKind?) && i < |p.members|
      requires Upto(Start(owner, ListSection(MemberField(kind)), i))
      modifies this
      ensures Valid()
      ensures Upto(Start(owner, ListSection(MemberField(kind)), i + 1))
      ensures forall v :: v in flagged <==>
          (v in old(flagged) ||
           (v.entity == owner && v.path == Item(MemberField(kind), i) && PlaceFlag(x, kind, p, v.path, v.code)))
      ensures forall a :: a in asked <==>
          (a in old(asked) ||
           (a.owner == owner && a.path == Item(MemberField(kind), i) && PlaceRef(kind, p, a.path) == Some(a.target)))
    {
      var character := p.members[i];
      var found := Resolve(owner, Item(MemberField(kind), i), EntityRef(CharacterKind, character));
      ElsewhereIsDisjoint(x, p, i);
      if found && Set(p.continuities) * VersionContinuities(x.characters[character]) == {} {
        Report(owner, Item(MemberField(kind), i), ContinuityMismatch);
      }
    }

    /** Whether some entry of an index shares a continuity; the search ends at the first that does. */
    method SomeOverlap(entries: seq<(Id, set<Id>)>, continuities: set<Id>) returns (held: bool)
      ensures held <==> exists entry :: entry in entries && entry.1 * continuities != {}
    {
      for i := 0 to |entries|
        invariant forall entry :: entry in entries[..i] ==> entry.1 * continuities == {}
      {
        assert entries[..i + 1] == entries[..i] + [entries[i]];
        if entries[i].1 * continuities != {} {
          assert entries[i] in entries;
          return true;
        }
      }
      assert entries[..|entries|] == entries;
      return false;
    }

    method CheckScopedName(
      owner: EntityRef, kind: EntityKind, p: Place, i: nat, names: map<Text, seq<(Id, set<Id>)>>, own: set<Text>,
      ghost done: set<Id>)
      returns (names': map<Text, seq<(Id, set<Id>)>>, own': set<Text>)
      requires Valid() && p.id in x.Places(kind) && x.Places(kind)[p.id] == p && i < |NamesOf(p.name, p.aliases)|
      requires forall o :: o in done <==> o in x.Places(kind) && Before(o, p.id)
      requires own == OwnKeys(p, i) && PartlyIndexed(x.Places(kind), names, done, p, i)
      requires Upto(Start(owner, NAMES, i))
      modifies this
      ensures Valid() && asked == old(asked)
      ensures Upto(Start(owner, NAMES, i + 1))
      ensures own' == OwnKeys(p, i + 1) && PartlyIndexed(x.Places(kind), names', done, p, i + 1)
      ensures forall v :: v in flagged <==>
          (v in old(flagged) || (v.entity == owner && v.path == NameAt(i) && PlaceFlag(x, kind, p, v.path, v.code)))
    {
      var key := NormalizeName(NamesOf(p.name, p.aliases)[i]);
      var continuities := Set(p.continuities);
      OwnKeysGrow(p, i);
      own', names' := own + {key}, names;
      var entries := if key in names then names[key] else [];
      ScopedNameFlags(x, kind, p, i, names, done);
      if key in own {
        Report(owner, NameAt(i), DuplicateName);
        return;
      }
      var held := SomeOverlap(entries, continuities);
      if held {
        Report(owner, NameAt(i), DuplicateName);
      }
      names' := names[key := entries + [(p.id, continuities)]];
      ScopeAdded(x.Places(kind), names, done, p, i, names');
    }

    method CheckScopedNames(
      owner: EntityRef, kind: EntityKind, p: Place, names: map<Text, seq<(Id, set<Id>)>>, ghost done: set<Id>)
      returns (names': map<Text, seq<(Id, set<Id>)>>)
      requires Valid() && p.id in x.Places(kind) && x.Places(kind)[p.id] == p
      requires forall o :: o in done <==> o in x.Places(kind) && Before(o, p.id)
      requires ScopesIndexed(x.Places(kind), names, done)
      requires Upto(Start(owner, NAMES, 0))
      modifies this
      ensures Valid() && asked == old(asked) && ScopesIndexed(x.Places(kind), names', done + {p.id})
      ensures Upto(Start(owner, ENTITY_END, 0))
      ensures forall v :: v in flagged <==>
          (v in old(flagged) || (v.entity == owner && v.path.NameAt? && PlaceFlag(x, kind, p, v.path, v.code)))
    {
      names' := names;
      var own: set<Text> := {};
      for i := 0 to |NamesOf(p.name, p.aliases)|
        invariant Valid() && asked == old(asked)
        invariant Upto(Start(owner, NAMES, i))
        invariant own == OwnKeys(p, i) && PartlyIndexed(x.Places(kind), names', done, p, i)
        invariant forall v :: v in flagged <==>
            (v in old(flagged) ||
             (v.entity == owner && v.path.NameAt? && v.path.position < i && PlaceFlag(x, kind, p, v.path, v.code)))
      {
        names', own := CheckScopedName(owner, kind, p, i, names', own, done);
      }
      ScopesDone(x.Places(kind), names', done, p);
    }

    /** Everything about a place but its names. */
    method CheckPlaceReferences(owner: EntityRef, kind: EntityKind, p: Place)
      requires Valid() && (kind.LocationKind? || kind.ArtifactKind?)
      requires Upto(Start(owner, 0, 0))
      modifies this
      ensures Valid()
      ensures Upto(Start(owner, NAMES, 0))
      ensures forall v :: v in flagged <==>
          (v in old(flagged) || (v.entity == owner && !v.path.NameAt? && PlaceFlag(x, kind, p, v.path, v.code)))
      ensures forall a :: a in asked <==>
          (a in old(asked) || (a.owner == owner && PlaceRef(kind, p, a.path) == Some(a.target)))
    {
      ResolveAll(owner, Continuities, ContinuityKind, p.continuities);
      CheckMembers(owner, kind, p);
      CheckSources(owner, Own, p.sources);
    }

    method CheckPlace(kind: EntityKind, p: Place, names: map<Text, seq<(Id, set<Id>)>>, ghost done: set<Id>)
      returns (names': map<Text, seq<(Id, set<Id>)>>)
      requires Valid() && (kind.LocationKind? || kind.ArtifactKind?)
      requires p.id in x.Places(kind) && x.Places(kind)[p.id] == p
      requires forall o :: o in done <==> o in x.Places(kind) && Before(o, p.id)
      requires ScopesIndexed(x.Places(kind), names, done)
      requires Sooner(reached, Start(EntityRef(kind, p.id), 0, 0))
      modifies this
      ensures Valid() && ScopesIndexed(x.Places(kind), names', done + {p.id})
      ensures reached == Start(EntityRef(kind, p.id), ENTITY_END, 0)
      ensures forall v :: v in flagged <==> (v in old(flagged) || PlaceDone(x, kind, {p.id}, v))
      ensures forall a :: a in asked <==> (a in old(asked) || AskDone(x, kind, {p.id}, a))
    {
      var owner := EntityRef(kind, p.id);
      Advance(Start(owner, 0, 0));
      CheckPlaceReferences(owner, kind, p);
      names' := CheckScopedNames(owner, kind, p, names, done);
      Advance(Start(owner, ENTITY_END, 0));
    }

    method CheckPlaces(kind: EntityKind, places: seq<Place>)
      requires Valid() && (kind.LocationKind? || kind.ArtifactKind?) && Listing(places, PlaceId, x.Places(kind))
      requires reached.phase < PhaseOf(kind)
      modifies this
      ensures Valid()
      ensures reached.phase <= PhaseOf(kind)
      ensures forall v :: v in flagged <==> (v in old(flagged) || PlaceDone(x, kind, x.Places(kind).Keys, v))
      ensures forall a :: a in asked <==> (a in old(asked) || AskDone(x, kind, x.Places(kind).Keys, a))
    {
      var names: map<Text, seq<(Id, set<Id>)>> := map[];
      ghost var done: set<Id> := {};
      for i := 0 to |places|
        invariant Valid() && done == Ids(places[..i], PlaceId)
        invariant reached.phase < PhaseOf(kind)
          || (i > 0 && reached == Start(EntityRef(kind, places[i - 1].id), ENTITY_END, 0))
        invariant ScopesIndexed(x.Places(kind), names, done)
        invariant forall v :: v in flagged <==> (v in old(flagged) || PlaceDone(x, kind, done, v))
        invariant forall a :: a in asked <==> (a in old(asked) || AskDone(x, kind, done, a))
      {
        DoneBefore(places, PlaceId, x.Places(kind), i);
        names := CheckPlace(kind, places[i], names, done);
        OneMorePlaceDone(x, kind, done, places[i].id);
        done := done + {places[i].id};
      }
      AllDone(places, PlaceId, x.Places(kind));
    }

    // -------------------------------------------------------------- the whole check

    method CheckWorks(works: seq<Work>)
      requires Valid() && Listing(works, WorkId, x.works)
      requires reached.phase < PhaseOf(WorkKind)
      modifies this
      ensures Valid() && flagged == old(flagged)
      ensures reached.phase <= PhaseOf(WorkKind)
      ensures forall a :: a in asked <==> (a in old(asked) || AskDone(x, WorkKind, x.works.Keys, a))
    {
      ghost var done: set<Id> := {};
      for i := 0 to |works|
        invariant Valid() && flagged == old(flagged) && done == Ids(works[..i], WorkId)
        invariant reached.phase < PhaseOf(WorkKind)
          || (i > 0 && reached == Start(EntityRef(WorkKind, works[i - 1].id), ENTITY_END, 0))
        invariant forall a :: a in asked <==> (a in old(asked) || AskDone(x, WorkKind, done, a))
      {
        DoneBefore(works, WorkId, x.works, i);
        Advance(Start(EntityRef(WorkKind, works[i].id), 0, 0));
        var _ := Resolve(EntityRef(WorkKind, works[i].id), WorkContinuity,
          EntityRef(ContinuityKind, works[i].continuity));
        Advance(Start(EntityRef(WorkKind, works[i].id), ENTITY_END, 0));
        done := done + {works[i].id};
      }
      AllDone(works, WorkId, x.works);
    }

    /** What is reported and followed once the entities of these types are done. */
    ghost predicate DoneWith(kinds: set<EntityKind>)
      reads this
    {
      && (forall v :: v in flagged <==> v.entity.kind in kinds && RuleFlag(x, v))
      && (forall a :: a in asked <==> a.owner.kind in kinds && RefAt(x, a.owner, a.path) == Some(a.target))
    }

    method RunStories(works: seq<Work>, episodes: seq<Episode>)
      requires Valid() && flagged == iset{} && asked == iset{} && reached.phase == 0
      requires Listing(works, WorkId, x.works) && Listing(episodes, EpisodeId, x.episodes)
      modifies this
      ensures Valid() && DoneWith({WorkKind, EpisodeKind}) && reached.phase <= FILM_PHASE
    {
      CheckWorks(works);
      CheckEpisodes(episodes);
    }

    method RunCharacters(characters: seq<Character>)
      requires Valid() && DoneWith({WorkKind, EpisodeKind}) && reached.phase <= FILM_PHASE
      requires Listing(characters, CharacterId, x.characters)
      modifies this
      ensures Valid() && DoneWith({WorkKind, EpisodeKind, CharacterKind})
      ensures reached.phase <= PhaseOf(CharacterKind)
    {
      CheckCharacters(characters);
    }

    method RunPlaces(kind: EntityKind, places: seq<Place>, ghost kinds: set<EntityKind>)
      requires Valid() && (kind.LocationKind? || kind.ArtifactKind?) && Listing(places, PlaceId, x.Places(kind))
      requires DoneWith(kinds) && kind !in kinds && reached.phase < PhaseOf(kind)
      modifies this
      ensures Valid() && DoneWith(kinds + {kind}) && reached.phase <= PhaseOf(kind)
    {
      CheckPlaces(kind, places);
    }

    method Run(
      works: seq<Work>, episodes: seq<Episode>, characters: seq<Character>, locations: seq<Place>,
      artifacts: seq<Place>)
      requires Valid() && flagged == iset{} && asked == iset{} && reached.phase == 0
      requires Listing(works, WorkId, x.works) && Listing(episodes, EpisodeId, x.episodes)
      requires Listing(characters, CharacterId, x.characters)
      requires Listing(locations, PlaceId, x.locations) && Listing(artifacts, PlaceId, x.artifacts)
      modifies this
      ensures Valid() && DoneWith(CHECKED_KINDS)
    {
      RunStories(works, episodes);
      RunCharacters(characters);
      RunPlaces(LocationKind, locations, {WorkKind, EpisodeKind, CharacterKind});
      RunPlaces(ArtifactKind, artifacts, {WorkKind, EpisodeKind, CharacterKind, LocationKind});
    }
  }

  /** No rule concerns a continuity, and no rule violation is a missing reference. */
  lemma RulesCheckedKinds(x: Knowledge)
    ensures forall v :: RuleFlag(x, v) ==> !v.code.UnknownReference? && v.entity.kind in CHECKED_KINDS
    ensures forall owner, path :: RefAt(x, owner, path).Some? ==> owner.kind in CHECKED_KINDS
  {
  }

  /** Once every type is checked, what was gathered is the whole report. */
  lemma AllReported(checker: Checker)
    requires checker.Valid() && checker.DoneWith(CHECKED_KINDS)
    ensures forall v ::
      v in checker.violations <==> Flagged(checker.x, checker.complete, checker.unverified, v)
    ensures forall r :: r in checker.external <==> External(checker.x, checker.complete, checker.unverified, r)
    ensures InVisitingOrder(checker.x, checker.violations)
  {
    RulesCheckedKinds(checker.x);
    assert checker.Meets(Orderly) && checker.Meets(Faithful);
    forall r ensures r in checker.external <==> External(checker.x, checker.complete, checker.unverified, r) {
      if owner, path :| RefAt(checker.x, owner, path) == Some(r) {
        assert Ask(owner, path, r) in checker.asked;
      }
    }
  }

  /** `check_integrity`: exactly the violations, in visiting order, and exactly the external references. */
  method CheckIntegrity(k: KnowledgeSet, complete: bool, unverified: set<EntityRef>)
    returns (violations: seq<Violation>, external: set<EntityRef>)
    requires UniqueIds(k)
    ensures forall v :: v in violations <==> Flagged(KnowledgeOf(k), complete, unverified, v)
    ensures InVisitingOrder(KnowledgeOf(k), violations)
    ensures forall r :: r in external <==> External(KnowledgeOf(k), complete, unverified, r)
  {
    var checker := new Checker(k, complete, unverified);
    SortedIndex(k.works, WorkId);
    SortedIndex(k.episodes, EpisodeId);
    SortedIndex(k.characters, CharacterId);
    SortedIndex(k.locations, PlaceId);
    SortedIndex(k.artifacts, PlaceId);
    checker.Run(
      Sorted(k.works, WorkId), Sorted(k.episodes, EpisodeId), Sorted(k.characters, CharacterId),
      Sorted(k.locations, PlaceId), Sorted(k.artifacts, PlaceId));
    violations, external := checker.violations, checker.external;
    AllReported(checker);
  }
}
