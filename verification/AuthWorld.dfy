/** What the three stores together say about access tokens, and what revoking families does to it. */
module AuthWorld {
  import opened Wrappers
  import opened Clocks
  import opened Sessions
  import opened Tokens
  import opened AuthStores

  /** The contents of all stores, the tokens issued so far and the last clock reading. */
  datatype World = World(
    users: map<Uuid, Account>, sessions: Table, issued: set<Claims>,
    expirations: map<Uuid, Time>, families: map<Uuid, Time>, now: Time)

  /** The clock readings of one call: for the expiry, for the token's own entry and for the entry of its family. */
  datatype Readings = Readings(first: Time, second: Time, third: Time)

  predicate InTime(from: Time, at: Readings, to: Time) {
    from <= at.first <= at.second <= at.third <= to
  }

  /** An access token passes a check that reads the clock at these times. */
  predicate Passes(w: World, c: Claims, at: Readings) {
    && c.expiresAt > at.first
    && !Listed(w.expirations, c.jti, at.second)
    && !Listed(w.families, c.family, at.third)
    && c.user in w.users
  }

  /** An access token is accepted at `t`. */
  predicate Accepts(w: World, c: Claims, t: Time) {
    Passes(w, c, Readings(t, t, t))
  }

  /** The token has expired, or its family stays on the blacklist until it has. */
  ghost predicate Covered(w: World, c: Claims) {
    c.expiresAt <= w.now || (c.family in w.families && c.expiresAt <= w.families[c.family])
  }

  /** No issued token outlives `now + ttl`. */
  ghost predicate NoneOutlives(issued: set<Claims>, now: Time, ttl: nat) {
    forall c :: c in issued ==> c.expiresAt <= now + ttl * SECOND
  }

  /** All sessions of a family belong to one user. */
  ghost predicate OneUserEach(s: Table) {
    forall a, b :: a in s && b in s && s[a].family == s[b].family ==> s[a].user == s[b].user
  }

  /** The sessions of a family belong to this user. */
  ghost predicate BelongsTo(s: Table, family: Uuid, user: Uuid) {
    forall id :: id in s && s[id].family == family ==> s[id].user == user
  }

  datatype Duty = Bounded | Recorded | Owned | Enforced

  ghost predicate Met(w: World, ttl: nat, duty: Duty) {
    match duty
    case Bounded => NoneOutlives(w.issued, w.now, ttl)
    case Recorded =>
      && (forall c :: c in w.issued ==> Known(w.sessions, c.family))
      && (forall f :: f in w.families ==> Known(w.sessions, f) && Dead(w.sessions, f))
    case Owned => OneUserEach(w.sessions) && forall c :: c in w.issued ==> BelongsTo(w.sessions, c.family, c.user)
    case Enforced => forall c :: c in w.issued && Dead(w.sessions, c.family) ==> Covered(w, c)
  }

  /**
   * The invariant of the service: tokens belong to the user of their family, only dead families are
   * listed, and they are for as long as their tokens could pass.
   */
  ghost predicate Sound(w: World, ttl: nat) {
    forall duty :: Met(w, ttl, duty)
  }

  lemma SoundMeans(w: World, ttl: nat)
    requires Sound(w, ttl)
    ensures Met(w, ttl, Bounded) && Met(w, ttl, Recorded) && Met(w, ttl, Owned) && Met(w, ttl, Enforced)
  {
  }

  datatype Bond = Growth | Revocation

  ghost predicate Kept(a: World, b: World, bond: Bond) {
    match bond
    case Growth =>
      && a.now <= b.now && a.issued <= b.issued && a.users.Keys <= b.users.Keys
      && (forall f :: Known(a.sessions, f) ==> Known(b.sessions, f))
    case Revocation =>
      && (forall f :: Known(a.sessions, f) && Dead(a.sessions, f) ==> Dead(b.sessions, f))
      && (forall id :: id in a.sessions && !a.sessions[id].Active() ==> id in b.sessions && !b.sessions[id].Active())
  }

  /** `b` comes after `a`: nothing issued is forgotten and what was revoked stays revoked. */
  ghost predicate Onward(a: World, b: World) {
    forall bond :: Kept(a, b, bond)
  }

  lemma OnwardMeans(a: World, b: World)
    requires Onward(a, b)
    ensures Kept(a, b, Growth) && Kept(a, b, Revocation)
  {
  }

  lemma OnwardTransitive(a: World, b: World, c: World)
    requires Onward(a, b) && Onward(b, c)
    ensures Onward(a, c)
  {
    OnwardMeans(a, b);
    OnwardMeans(b, c);
  }

  // ---------------------------------------------------------------- tokens of dead families

  /** A family without an active session has no access token that is accepted now or later. */
  lemma DeadFamilyIsRejected(w: World, ttl: nat, c: Claims, t: Time)
    requires Sound(w, ttl) && c in w.issued && Dead(w.sessions, c.family) && t >= w.now
    ensures !Accepts(w, c, t)
  {
    SoundMeans(w, ttl);
    assert Covered(w, c);
  }

  /**
   * Within one call that reads the clock more than once, such a token passes exactly if it was alive at the
   * first reading and the entry of its family lapses before the last one.
   */
  lemma DeadFamilyPasses(w: World, ttl: nat, c: Claims, at: Readings)
    requires Sound(w, ttl) && c in w.issued && Dead(w.sessions, c.family) && w.now <= at.first
    ensures Passes(w, c, at) <==>
      && at.first < c.expiresAt
      && c.family in w.families && w.families[c.family] <= at.third
      && !Listed(w.expirations, c.jti, at.second) && c.user in w.users
  {
    SoundMeans(w, ttl);
    assert Covered(w, c);
  }

  /** While a family has an active session its tokens are rejected only when expired or logged out one by one. */
  lemma LiveFamilyIsAccepted(w: World, ttl: nat, c: Claims, t: Time)
    requires Sound(w, ttl) && !Dead(w.sessions, c.family)
    ensures Accepts(w, c, t) <==> c.expiresAt > t && !Listed(w.expirations, c.jti, t) && c.user in w.users
  {
    SoundMeans(w, ttl);
  }

  /** A family revoked at `a` is cut off in every later state `b`, whatever was issued in between. */
  lemma RevokedForGood(a: World, b: World, ttl: nat, c: Claims, t: Time)
    requires Onward(a, b) && Sound(b, ttl) && c in b.issued
    requires Known(a.sessions, c.family) && Dead(a.sessions, c.family) && t >= b.now
    ensures !Accepts(b, c, t)
  {
    OnwardMeans(a, b);
    DeadFamilyIsRejected(b, ttl, c, t);
  }

  // ---------------------------------------------------------------- revoking and issuing

  lemma ApplyIsOnward(s: Table, op: Op)
    requires Allowed(s, op)
    ensures forall f :: Known(s, f) ==> Known(Apply(s, op), f)
    ensures forall f :: Known(s, f) && Dead(s, f) ==> Dead(Apply(s, op), f)
    ensures forall id :: id in s && !s[id].Active() ==> id in Apply(s, op) && !Apply(s, op)[id].Active()
  {
    forall f | Known(s, f) ensures Known(Apply(s, op), f) {
      var id :| id in s && s[id].family == f;
      assert Apply(s, op)[id].family == f;
    }
  }

  /** Revoking changes neither who owns a session nor what family it is in. */
  lemma RevokingKeepsOwners(w: World, v: World, ttl: nat, op: Op, now: Time)
    requires Met(w, ttl, Owned) && v.sessions == Revoked(w.sessions, op, now) && v.issued == w.issued
    ensures Met(v, ttl, Owned)
  {
    forall c | c in v.issued ensures BelongsTo(v.sessions, c.family, c.user) {
      assert BelongsTo(w.sessions, c.family, c.user);
    }
  }

  function RevokedUntil(families: map<Uuid, Time>, f: Uuid, until: Time, t: Time): map<Uuid, Time> {
    if until > t then families[f := until] else families
  }

  /** `_revoke_family`: the sessions first, then the blacklist until `now` plus the token lifetime. */
  function FamilyRevokedIn(w: World, f: Uuid, now: Time, ttl: nat, t: Time): World {
    w.(sessions := Apply(w.sessions, RevokeFamily(f, now)),
       families := RevokedUntil(w.families, f, now + ttl * SECOND, t), now := t)
  }

  /**
   Every token of `f` that outlives the call, which ends at `t`, expires with the entry made for the family. An entry
   that would have lapsed by then is not made; only a family revoked before can be listed all the same.
   */
  ghost predicate Reaches(w: World, f: Uuid, now: Time, ttl: nat, t: Time) {
    forall c :: c in w.issued && c.family == f && c.expiresAt > t ==>
      if now + ttl * SECOND > t then c.expiresAt <= now + ttl * SECOND
      else f in w.families && c.expiresAt <= w.families[f]
  }

  lemma RevokingKeepsCover(w: World, f: Uuid, now: Time, ttl: nat, t: Time)
    requires Met(w, ttl, Enforced) && w.now <= t
    ensures Dead(FamilyRevokedIn(w, f, now, ttl, t).sessions, f)
    ensures Met(FamilyRevokedIn(w, f, now, ttl, t), ttl, Enforced) <==> Reaches(w, f, now, ttl, t)
  {
    var v := FamilyRevokedIn(w, f, now, ttl, t);
    forall c | c in w.issued && c.family != f && Dead(v.sessions, c.family) ensures Covered(v, c) {
      OtherFamilyUntouched(w.sessions, RevokeFamily(f, now), c.family);
      assert Covered(w, c);
    }
    if Met(v, ttl, Enforced) {
      forall c | c in w.issued && c.family == f ensures Covered(v, c) {
        assert c in v.issued && Dead(v.sessions, c.family);
      }
    }
  }

  /** The exact condition under which ending a family with a clock reading from before keeps the invariant. */
  lemma RevokingKeepsSoundWhen(w: World, f: Uuid, now: Time, ttl: nat, t: Time)
    requires Sound(w, ttl) && Known(w.sessions, f) && w.now <= t
    ensures Sound(FamilyRevokedIn(w, f, now, ttl, t), ttl) <==> Reaches(w, f, now, ttl, t)
    ensures Onward(w, FamilyRevokedIn(w, f, now, ttl, t))
    ensures Dead(FamilyRevokedIn(w, f, now, ttl, t).sessions, f)
  {
    var v, op := FamilyRevokedIn(w, f, now, ttl, t), RevokeFamily(f, now);
    ApplyIsOnward(w.sessions, op);
    SoundMeans(w, ttl);
    RevokingKeepsOwners(w, v, ttl, op, now);
    RevokingKeepsCover(w, f, now, ttl, t);
    assert Met(v, ttl, Bounded) && Met(v, ttl, Recorded);
    if Sound(v, ttl) {
      assert Met(v, ttl, Enforced);
    }
  }

  /** It does with a reading that no token was issued after. */
  lemma RevokingKeepsSound(w: World, f: Uuid, now: Time, ttl: nat, t: Time)
    requires Sound(w, ttl) && Known(w.sessions, f) && NoneOutlives(w.issued, now, ttl) && w.now <= t
    ensures Sound(FamilyRevokedIn(w, f, now, ttl, t), ttl) && Onward(w, FamilyRevokedIn(w, f, now, ttl, t))
    ensures Dead(FamilyRevokedIn(w, f, now, ttl, t).sessions, f)
  {
    RevokingKeepsSoundWhen(w, f, now, ttl, t);
  }

  lemma OtherFamilyUntouched(s: Table, op: Op, f: Uuid)
    requires op.RevokeFamily? && f != op.family
    ensures Dead(Apply(s, op), f) <==> Dead(s, f)
  {
    forall id | id in s && s[id].family == f ensures Apply(s, op)[id] == s[id] {
    }
  }

  /** Sessions outside the families are as they were. */
  ghost predicate OthersUntouched(s: Table, t: Table, families: set<Uuid>) {
    s.Keys == t.Keys && forall id :: id in s && s[id].family !in families ==> t[id] == s[id]
  }

  /** Entries outside the families are as they were. */
  ghost predicate OthersUnlisted(a: map<Uuid, Time>, b: map<Uuid, Time>, families: set<Uuid>) {
    forall f :: f !in families ==> (f in b <==> f in a) && (f in a ==> b[f] == a[f])
  }

  /**
   * From `w` to `v` the families in `done` were revoked, those in `families` may have been, and nothing else changed.
   */
  ghost predicate RevokedOnly(w: World, v: World, families: set<Uuid>, done: set<Uuid>) {
    && v == w.(sessions := v.sessions, families := v.families, now := v.now)
    && OthersUntouched(w.sessions, v.sessions, families) && OthersUnlisted(w.families, v.families, families)
    && forall f :: f in done ==> Dead(v.sessions, f)
  }

  lemma RevokingOneMore(w: World, v: World, families: set<Uuid>, done: set<Uuid>, f: Uuid, now: Time, ttl: nat, t: Time)
    requires RevokedOnly(w, v, families, done) && f in families
    ensures RevokedOnly(w, FamilyRevokedIn(v, f, now, ttl, t), families, done + {f})
  {
    var u := FamilyRevokedIn(v, f, now, ttl, t);
    forall g | g in done ensures Dead(u.sessions, g) {
      assert Dead(v.sessions, g);
    }
    forall id | id in w.sessions && w.sessions[id].family !in families ensures u.sessions[id] == w.sessions[id] {
      assert v.sessions[id] == w.sessions[id];
    }
  }

  /** Time passing takes nothing away. */
  lemma LaterIsSound(w: World, ttl: nat, t: Time)
    requires Sound(w, ttl) && w.now <= t
    ensures Sound(w.(now := t), ttl) && Onward(w, w.(now := t))
  {
    SoundMeans(w, ttl);
    forall c | c in w.issued && Dead(w.sessions, c.family) ensures Covered(w.(now := t), c) {
      assert Covered(w, c);
    }
  }

  /** A new session `x`, first of its family or in place of an active one, with an access token. */
  function IssuedIn(w: World, op: Op, c: Claims): World {
    w.(sessions := Apply(w.sessions, op), issued := w.issued + {c})
  }

  ghost predicate Issues(w: World, op: Op, x: Session, c: Claims, ttl: nat) {
    && Allowed(w.sessions, op) && c.family == x.family && c.user == x.user && c.expiresAt <= w.now + ttl * SECOND
    && (op == Create(x) || (op.Rotate? && op.replacement == x && Rotates(w.sessions, op.current)))
  }

  lemma IssuingKeepsOwners(w: World, op: Op, x: Session, c: Claims, ttl: nat)
    requires Met(w, ttl, Owned) && Met(w, ttl, Recorded) && Issues(w, op, x, c, ttl)
    ensures Met(IssuedIn(w, op, c), ttl, Owned)
  {
    var v := IssuedIn(w, op, c);
    assert BelongsTo(v.sessions, x.family, x.user);
    forall b | b in v.issued ensures BelongsTo(v.sessions, b.family, b.user) {
      if b in w.issued {
        assert BelongsTo(w.sessions, b.family, b.user) && Known(w.sessions, b.family);
        assert op.Rotate? ==> w.sessions[op.current].user == x.user && w.sessions[op.current].family == x.family;
      }
    }
  }

  lemma IssuingKeepsRecords(w: World, op: Op, x: Session, c: Claims, ttl: nat)
    requires Met(w, ttl, Recorded) && Issues(w, op, x, c, ttl)
    ensures Met(IssuedIn(w, op, c), ttl, Recorded)
  {
    var v := IssuedIn(w, op, c);
    ApplyIsOnward(w.sessions, op);
    assert v.sessions[x.id] == x && x.Active();
    assert x.family !in w.families by {
      if op.Rotate? {
        assert w.sessions[op.current].Active();
      }
    }
  }

  lemma IssuingKeepsCover(w: World, op: Op, x: Session, c: Claims, ttl: nat)
    requires Met(w, ttl, Enforced) && Issues(w, op, x, c, ttl)
    ensures Met(IssuedIn(w, op, c), ttl, Enforced)
  {
    var v := IssuedIn(w, op, c);
    assert v.sessions[x.id] == x && x.Active();
    forall b | b in v.issued && Dead(v.sessions, b.family) ensures Covered(v, b) {
      assert b.family != x.family && b in w.issued;
      DeadBefore(w.sessions, op, x, b.family);
      assert Covered(w, b);
    }
  }

  /** A token may be issued for a new family, or for one whose active session was replaced. */
  lemma IssuingKeepsSound(w: World, op: Op, x: Session, c: Claims, ttl: nat)
    requires Sound(w, ttl) && Issues(w, op, x, c, ttl)
    ensures Sound(IssuedIn(w, op, c), ttl) && Onward(w, IssuedIn(w, op, c))
  {
    ApplyIsOnward(w.sessions, op);
    forall duty ensures Met(IssuedIn(w, op, c), ttl, duty) {
      SoundMeans(w, ttl);
      match duty
      case Bounded =>
      case Recorded => IssuingKeepsRecords(w, op, x, c, ttl);
      case Owned => IssuingKeepsOwners(w, op, x, c, ttl);
      case Enforced => IssuingKeepsCover(w, op, x, c, ttl);
    }
  }

  lemma DeadBefore(s: Table, op: Op, x: Session, f: Uuid)
    requires Allowed(s, op) && (op == Create(x) || (op.Rotate? && op.replacement == x))
    requires f != x.family && Dead(Apply(s, op), f)
    ensures Dead(s, f)
  {
    forall id | id in s && s[id].family == f ensures !s[id].Active() {
      assert Apply(s, op)[id] == s[id];
    }
  }

  // ---------------------------------------------------------------- a token that outlives its revocation

  const ALICE := Account(User(0, "alice", UserRole), "secret")
  const FIRST_SESSION := Session(0, 0, 0, 0, 0, 100 * SECOND, None, None)
  const FIRST_CLAIMS := NewClaims(0, UserRole, 0, 0, 0, 0, 5)

  /** After a login at 0 s, with tokens that live five seconds, and a logout at 2 s by the refresh token alone. */
  function LoggedOut(): World {
    var empty := World(map[0 := ALICE], map[], {}, map[], map[], 0);
    FamilyRevokedIn(IssuedIn(empty, Create(FIRST_SESSION), FIRST_CLAIMS), 0, 2 * SECOND, 5, 2 * SECOND)
  }

  /**
   * The token was alive when a call began at 4 s. Were the family looked up at 6 s it would be rejected, expired
   * though it is by then; looked up at 7 s, when the entry has lapsed, it passes.
   */
  lemma RevokedTokenCanPass()
    ensures Sound(LoggedOut(), 5) && FIRST_CLAIMS in LoggedOut().issued && Dead(LoggedOut().sessions, 0)
    ensures !Passes(LoggedOut(), FIRST_CLAIMS, Readings(4 * SECOND, 5 * SECOND, 6 * SECOND))
    ensures Passes(LoggedOut(), FIRST_CLAIMS, Readings(4 * SECOND, 5 * SECOND, 7 * SECOND))
  {
    var empty := World(map[0 := ALICE], map[], {}, map[], map[], 0);
    IssuingKeepsSound(empty, Create(FIRST_SESSION), FIRST_SESSION, FIRST_CLAIMS, 5);
    var w := IssuedIn(empty, Create(FIRST_SESSION), FIRST_CLAIMS);
    assert w.sessions[0] == FIRST_SESSION;
    RevokingKeepsSound(w, 0, 2 * SECOND, 5, 2 * SECOND);
    assert LoggedOut().families == map[0 := 7 * SECOND];
  }

  const NEXT_SESSION := Session(1, 0, 0, 1, 3 * SECOND, 103 * SECOND, None, None)
  const NEXT_CLAIMS := NewClaims(0, UserRole, 1, 1, 0, 3 * SECOND, 5)

  /** After a login at 0 s and a refresh at 3 s, again with tokens that live five seconds. */
  function RefreshedOnce(): World {
    var empty := World(map[0 := ALICE], map[], {}, map[], map[], 0);
    var w := IssuedIn(empty, Create(FIRST_SESSION), FIRST_CLAIMS).(now := 3 * SECOND);
    IssuedIn(w, Rotate(0, NEXT_SESSION, 3 * SECOND), NEXT_CLAIMS)
  }

  /**
   A second refresh with the used token read its clock at 1 s and finds the token exchanged at 3 s. It ends the
   family with an entry until 6 s, and at 7 s the token issued at 3 s is accepted.
   */
  lemma LostRaceLeavesTokenAlive()
    ensures Sound(RefreshedOnce(), 5) && !Reaches(RefreshedOnce(), 0, 1 * SECOND, 5, 3 * SECOND)
    ensures var v := FamilyRevokedIn(RefreshedOnce(), 0, 1 * SECOND, 5, 3 * SECOND);
      Dead(v.sessions, 0) && !Sound(v, 5) && NEXT_CLAIMS in v.issued && Accepts(v, NEXT_CLAIMS, 7 * SECOND)
  {
    var empty := World(map[0 := ALICE], map[], {}, map[], map[], 0);
    IssuingKeepsSound(empty, Create(FIRST_SESSION), FIRST_SESSION, FIRST_CLAIMS, 5);
    var w := IssuedIn(empty, Create(FIRST_SESSION), FIRST_CLAIMS);
    assert w.sessions[0] == FIRST_SESSION;
    LaterIsSound(w, 5, 3 * SECOND);
    IssuingKeepsSound(w.(now := 3 * SECOND), Rotate(0, NEXT_SESSION, 3 * SECOND), NEXT_SESSION, NEXT_CLAIMS, 5);
    assert RefreshedOnce().sessions[1] == NEXT_SESSION;
    assert NEXT_CLAIMS in RefreshedOnce().issued && NEXT_CLAIMS.expiresAt == 8 * SECOND;
    RevokingKeepsSoundWhen(RefreshedOnce(), 0, 1 * SECOND, 5, 3 * SECOND);
  }

  // ---------------------------------------------------------------- changing a password

  /** The blacklist after the families of `listed` were entered until `until`, as far as that lay ahead. */
  ghost predicate Entered(before: map<Uuid, Time>, after: map<Uuid, Time>, listed: set<Uuid>, until: Time, now: Time) {
    && OthersUnlisted(before, after, listed)
    && (forall f :: f in listed ==> (f in after && after[f] == until) || until <= now)
  }

  /** All other sessions of the user are gone and their families are entered in the blacklist. */
  ghost predicate SignedOutElsewhere(
    w: World, v: World, user: Uuid, keep: Uuid, now: Time, ttl: nat, listed: set<Uuid>)
  {
    && v.sessions == Apply(w.sessions, RevokeUser(user, keep, now))
    && (forall f :: f in listed <==> Loses(w.sessions, {}, user, keep, f))
    && Entered(w.families, v.families, listed, now + ttl * SECOND, v.now)
    && v.issued == w.issued && v.expirations == w.expirations && v.users.Keys == w.users.Keys && w.now <= v.now
  }

  lemma ListedAreDead(w: World, chains: Chains, user: Uuid, keep: Uuid, now: Time, f: Uuid)
    requires Linked(w.sessions, chains) && Loses(w.sessions, {}, user, keep, f)
    ensures Known(w.sessions, f) && Dead(Apply(w.sessions, RevokeUser(user, keep, now)), f)
  {
    var one :| one in w.sessions && w.sessions[one].family == f && w.sessions[one].user == user
      && w.sessions[one].Active();
    forall id | id in w.sessions && w.sessions[id].family == f && w.sessions[id].Active() ensures id == one {
      AtMostOneActive(w.sessions, chains, id, one);
    }
  }

  lemma EnteredAreDead(
    w: World, v: World, chains: Chains, user: Uuid, keep: Uuid, now: Time, ttl: nat, listed: set<Uuid>, f: Uuid)
    requires Linked(w.sessions, chains) && SignedOutElsewhere(w, v, user, keep, now, ttl, listed) && f in v.families
    requires f in w.families ==> Known(w.sessions, f) && Dead(w.sessions, f)
    ensures Known(v.sessions, f) && Dead(v.sessions, f)
  {
    ApplyIsOnward(w.sessions, RevokeUser(user, keep, now));
    if f in listed {
      ListedAreDead(w, chains, user, keep, now, f);
    }
  }

  lemma StillCovered(w: World, v: World, user: Uuid, keep: Uuid, now: Time, ttl: nat, listed: set<Uuid>, c: Claims)
    requires SignedOutElsewhere(w, v, user, keep, now, ttl, listed) && NoneOutlives(w.issued, now, ttl)
    requires c in w.issued && Dead(v.sessions, c.family) && (Dead(w.sessions, c.family) ==> Covered(w, c))
    ensures Covered(v, c)
  {
    if c.family !in listed {
      forall id | id in w.sessions && w.sessions[id].family == c.family ensures !w.sessions[id].Active() {
        assert !v.sessions[id].Active();
      }
    }
  }

  lemma SigningOutMeets(
    w: World, v: World, chains: Chains, user: Uuid, keep: Uuid, now: Time, ttl: nat, listed: set<Uuid>, duty: Duty)
    requires Linked(w.sessions, chains)
    requires Sound(w, ttl) && NoneOutlives(w.issued, now, ttl) && SignedOutElsewhere(w, v, user, keep, now, ttl, listed)
    ensures Met(v, ttl, duty)
  {
    SoundMeans(w, ttl);
    match duty
    case Bounded =>
    case Recorded =>
      ApplyIsOnward(w.sessions, RevokeUser(user, keep, now));
      forall f | f in v.families ensures Known(v.sessions, f) && Dead(v.sessions, f) {
        EnteredAreDead(w, v, chains, user, keep, now, ttl, listed, f);
      }
    case Owned => RevokingKeepsOwners(w, v, ttl, RevokeUser(user, keep, now), now);
    case Enforced =>
      forall c | c in v.issued && Dead(v.sessions, c.family) ensures Covered(v, c) {
        StillCovered(w, v, user, keep, now, ttl, listed, c);
      }
  }

  lemma SigningOutKeepsSound(
    w: World, v: World, chains: Chains, user: Uuid, keep: Uuid, now: Time, ttl: nat, listed: set<Uuid>)
    requires Linked(w.sessions, chains)
    requires Sound(w, ttl) && NoneOutlives(w.issued, now, ttl) && SignedOutElsewhere(w, v, user, keep, now, ttl, listed)
    ensures Sound(v, ttl) && Onward(w, v)
  {
    ApplyIsOnward(w.sessions, RevokeUser(user, keep, now));
    forall duty ensures Met(v, ttl, duty) {
      SigningOutMeets(w, v, chains, user, keep, now, ttl, listed, duty);
    }
  }

  /** A token of the kept family, or of another user, is accepted exactly as before. */
  lemma KeptFamilyStillWorks(
    w: World, v: World, user: Uuid, keep: Uuid, now: Time, ttl: nat, listed: set<Uuid>, c: Claims, t: Time)
    requires Sound(w, ttl) && SignedOutElsewhere(w, v, user, keep, now, ttl, listed)
    requires c in w.issued && (c.family == keep || c.user != user)
    ensures Accepts(v, c, t) <==> Accepts(w, c, t)
  {
    SoundMeans(w, ttl);
    assert BelongsTo(w.sessions, c.family, c.user);
    assert !Loses(w.sessions, {}, user, keep, c.family);
  }

  /** Every other token of the user, whatever its family, is cut off at once. */
  lemma OtherFamiliesCutOff(w: World, v: World, user: Uuid, keep: Uuid, now: Time, ttl: nat, c: Claims, t: Time)
    requires Sound(w, ttl) && Sound(v, ttl) && v.sessions == Apply(w.sessions, RevokeUser(user, keep, now))
    requires c in w.issued && c in v.issued && c.user == user && c.family != keep && t >= v.now
    ensures Dead(v.sessions, c.family) && !Accepts(v, c, t)
  {
    SoundMeans(w, ttl);
    assert BelongsTo(w.sessions, c.family, c.user);
    DeadFamilyIsRejected(v, ttl, c, t);
  }
}
