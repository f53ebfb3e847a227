/** `auth/service.py`: every call is one step of the service; the clock may move on between its readings. */
module AuthService {
  import opened Wrappers
  import opened Clocks
  import opened Sessions
  import opened Tokens
  import opened AuthStores
  import opened AuthWorld
  import opened Limiter

  datatype AuthError =
    | Unauthorized | InvalidCredentials | WrongPassword | SamePassword | LoginTaken
    | TooManyAttempts(wait: nat)

  datatype AuthResult = AuthResult(
    user: User, access: AccessToken, accessExpiresAt: Time, refresh: Token, refreshExpiresAt: Time)

  /** A value not used so far, as a new UUID or random token is taken to be. */
  method FreshValue(used: set<nat>) returns (n: nat)
    ensures n !in used
  {
    n := 0;
    var rest := used;
    while rest != {}
      invariant rest <= used
      invariant forall x :: x in used && x !in rest ==> x < n
    {
      var x :| x in rest;
      rest := rest - {x};
      if x >= n {
        n := x + 1;
      }
    }
  }

  /** No failure window counts more than `most` failures, and none ends later than one window from `now`. */
  ghost predicate FailuresBounded(counters: map<Key, Counter>, now: Time, most: nat, window: nat) {
    forall k :: k in counters && (k.LoginFailures? || k.PasswordFailures?) ==>
      counters[k].count <= most && counters[k].endsAt <= now + window * SECOND
  }

  ghost predicate ClaimsFit(v: World, r: AuthResult, family: Uuid, c: Claims) {
    && c in v.issued && c.user == r.user.id && c.role == r.user.role && c.family == family
    && c.expiresAt == r.accessExpiresAt
    && c.session in v.sessions && SessionFits(v.sessions[c.session], r, family)
  }

  predicate SessionFits(x: Session, r: AuthResult, family: Uuid) {
    x.Active() && x.token == r.refresh && x.family == family && x.user == r.user.id && x.expiresAt == r.refreshExpiresAt
  }

  /** A session of this user, holding the refresh token of `r`, for which its access token was issued. */
  ghost predicate SignedIn(v: World, r: AuthResult, family: Uuid) {
    r.access.Some? && ClaimsFit(v, r, family, ClaimsOf(r.access.value))
  }

  /** Both tokens run from this reading of the clock for their lifetimes, the access token in whole seconds. */
  ghost predicate Timed(r: AuthResult, reading: Time, accessTtl: nat, refreshTtl: nat) {
    && r.accessExpiresAt == WholeSecond(reading) + accessTtl * SECOND
    && r.refreshExpiresAt == reading + refreshTtl * SECOND
  }

  /** This user has the login and the password. */
  predicate Owns(users: map<Uuid, Account>, user: User, login: string, password: string) {
    user.id in users && users[user.id] == Account(user, password) && Lower(user.login) == Lower(login)
  }

  /** The login and the password of an account. */
  ghost predicate Correct(users: map<Uuid, Account>, login: string, password: string) {
    exists id :: id in users && Lower(users[id].user.login) == Lower(login) && users[id].password == password
  }

  /** No token issued before has the id of this one. */
  ghost predicate OwnId(issued: set<Claims>, c: Claims) {
    forall b :: b in issued ==> b.jti != c.jti
  }

  /** Tokens differ in their ids. */
  ghost predicate IdsDiffer(issued: set<Claims>) {
    forall a, b :: a in issued && b in issued && a.jti == b.jti ==> a == b
  }

  /** The first session of a new family and its access token were added; nothing else changed. */
  ghost predicate Opened(w: World, v: World, r: AuthResult, family: Uuid) {
    && SignedIn(v, r, family) && !Known(w.sessions, family)
    && v == IssuedIn(w, Create(v.sessions[ClaimsOf(r.access.value).session]), ClaimsOf(r.access.value))
    && OwnId(w.issued, ClaimsOf(r.access.value))
    && ClaimsOf(r.access.value).session !in w.sessions
    && ClaimsOf(r.access.value).jti !in w.expirations && ClaimsOf(r.access.value).expiresAt > w.now
  }

  /** The session of `r` replaced `used` in its family; nothing else changed. */
  ghost predicate Exchanged(w: World, v: World, used: Session, r: AuthResult, now: Time) {
    && SignedIn(v, r, used.family) && r.user.id == used.user
    && v.users == w.users && v.expirations == w.expirations && v.families == w.families
    && v.issued == w.issued + {ClaimsOf(r.access.value)} && OwnId(w.issued, ClaimsOf(r.access.value))
    && ClaimsOf(r.access.value).session !in w.sessions
    && v.sessions == Apply(w.sessions, Rotate(used.id, v.sessions[ClaimsOf(r.access.value).session], now))
    && ClaimsOf(r.access.value).jti !in w.expirations && ClaimsOf(r.access.value).expiresAt > now
  }

  lemma SignedInIsAccepted(v: World, ttl: nat, r: AuthResult, family: Uuid, now: Time)
    requires Sound(v, ttl) && SignedIn(v, r, family) && r.user.id in v.users
    requires ClaimsOf(r.access.value).jti !in v.expirations && ClaimsOf(r.access.value).expiresAt > now
    ensures Accepts(v, ClaimsOf(r.access.value), now)
  {
    LiveFamilyIsAccepted(v, ttl, ClaimsOf(r.access.value), now);
  }

  /** The invariant is about tokens and sessions only. */
  lemma UsersAreAside(w: World, v: World, ttl: nat)
    requires Sound(w, ttl) && v == w.(users := v.users) && w.users.Keys <= v.users.Keys
    ensures Sound(v, ttl) && Onward(w, v)
  {
    SoundMeans(w, ttl);
    assert forall c :: c in w.issued && Covered(w, c) ==> Covered(v, c);
  }

  lemma ListingIsAside(w: World, v: World, ttl: nat)
    requires Sound(w, ttl) && v == w.(expirations := v.expirations, now := v.now) && w.now <= v.now
    ensures Sound(v, ttl) && Onward(w, v)
  {
    SoundMeans(w, ttl);
    assert forall c :: c in w.issued && Covered(w, c) ==> Covered(v, c);
  }

  ghost predicate PasswordReplaced(
    before: map<Uuid, Account>, after: map<Uuid, Account>, user: Uuid, replacement: string)
  {
    user in before && after == before[user := before[user].(password := replacement)]
  }

  ghost predicate HasPassword(users: map<Uuid, Account>, user: Uuid, password: string) {
    user in users && users[user].password == password
  }

  /** The session that holds the presented refresh token, if one does. */
  ghost predicate Shows(s: Table, token: Token, shown: Option<Session>) {
    match shown
    case None => forall id :: id in s ==> s[id].token != token
    case Some(x) => x.id in s && s[x.id] == x && x.token == token
  }

  /** Family `f` is that of the access token, if it is alive at `t`, or of the session with the refresh token. */
  ghost predicate Presented(s: Table, access: AccessToken, refresh: Option<Token>, t: Time, f: Uuid) {
    || (access.Some? && ClaimsOf(access.value).expiresAt > t && ClaimsOf(access.value).family == f)
    || (exists id :: id in s && Some(s[id].token) == refresh && s[id].family == f)
  }

  /** At most the entry of the access token was added, and it was if the token is still alive at the end. */
  ghost predicate ListedAlone(a: map<Uuid, Time>, b: map<Uuid, Time>, access: AccessToken, from: Time, to: Time) {
    if access.None? || ClaimsOf(access.value).expiresAt <= from then b == a
    else
      var c := ClaimsOf(access.value);
      b == a[c.jti := c.expiresAt] || (b == a && c.expiresAt <= to)
  }

  /** Signing out touches no token but the presented one and those of the families that end. */
  lemma OthersStaySignedIn(
    w: World, v: World, access: AccessToken, families: set<Uuid>, from: Time, to: Time, c: Claims, t: Time)
    requires IdsDiffer(w.issued) && c in w.issued && (access.Some? ==> ClaimsOf(access.value) in w.issued)
    requires RevokedOnly(w.(expirations := v.expirations), v, families, families)
    requires ListedAlone(w.expirations, v.expirations, access, from, to)
    requires c.family !in families && (access.Some? ==> ClaimsOf(access.value) != c)
    ensures Accepts(v, c, t) <==> Accepts(w, c, t)
  {
  }

  lemma LoginTells(users: map<Uuid, Account>, login: string, password: string, account: Option<Account>)
    requires LoginsUnique(users)
    requires account.Some? ==> account.value.user.id in users && users[account.value.user.id] == account.value
    requires account.Some? ==> Lower(account.value.user.login) == Lower(login)
    requires account.None? ==> forall id :: id in users ==> Lower(users[id].user.login) != Lower(login)
    ensures Correct(users, login, password) <==> account.Some? && account.value.password == password
  {
  }

  ghost function Entry(counters: map<Key, Counter>, key: Key): Option<Counter> {
    if key in counters then Some(counters[key]) else None
  }

  lemma WithOrWithout(a: map<Key, Counter>, b: map<Key, Counter>, key: Key, value: Counter)
    requires a - {key} == b - {key}
    ensures a[key := value] == b[key := value]
  {
    forall k | k != key ensures (k in a <==> k in b) && (k in a ==> a[k] == b[k]) {
      assert k in a <==> k in a - {key};
      assert k in b <==> k in b - {key};
      assert k in a ==> a[k] == (a - {key})[k] && b[k] == (b - {key})[k];
    }
  }

  class AuthService {
    const clock: Clock
    const users: UserStore
    const sessions: SessionStore
    const blacklist: TokenBlacklist
    const limiter: AttemptLimiter
    const accessTtl: nat
    const refreshTtl: nat
    const maxFailures: nat
    const failureWindow: nat
    /** The ids of access tokens so far; a newly drawn UUID is none of them. */
    var drawn: set<Uuid>
    ghost var issued: set<Claims>

    ghost function State(): World
      reads this, clock, users, sessions, blacklist
    {
      World(users.users, sessions.sessions, issued, blacklist.expirations, blacklist.families, clock.now)
    }

    ghost predicate Wired() {
      && blacklist.clock == clock && limiter.clock == clock
      && accessTtl > 0 && maxFailures > 0 && failureWindow > 0
    }

    ghost predicate Identified()
      reads this, blacklist
    {
      && IdsDiffer(issued) && (forall c :: c in issued ==> c.jti in drawn)
      && blacklist.expirations.Keys <= drawn
    }

    ghost predicate Valid()
      reads this, clock, users, sessions, blacklist, limiter
    {
      && Wired() && Identified() && users.Valid() && sessions.Valid() && Sound(State(), accessTtl)
      && FailuresBounded(limiter.counters, clock.now, maxFailures, failureWindow)
    }

    constructor (clock: Clock, accessTtl: nat, refreshTtl: nat, maxFailures: nat, failureWindow: nat)
      requires accessTtl > 0 && maxFailures > 0 && failureWindow > 0
      ensures Valid() && fresh(users) && fresh(sessions) && fresh(blacklist) && fresh(limiter) && this.clock == clock
    {
      this.clock := clock;
      users := new UserStore();
      sessions := new SessionStore();
      blacklist := new TokenBlacklist(clock);
      limiter := new AttemptLimiter(clock);
      this.accessTtl, this.refreshTtl, this.maxFailures, this.failureWindow := accessTtl, refreshTtl, maxFailures,
        failureWindow;
      issued, drawn := {}, {};
    }

    /** A token the signature check lets through was issued here. */
    ghost predicate Genuine(token: AccessToken) reads this {
      token.Some? ==> ClaimsOf(token.value) in issued
    }

    // -------------------------------------------------------------- access tokens

    /** `_resolve`: an entry is read on the clock only where there is one. */
    method Resolve(c: Claims) returns (r: Option<User>, ghost second: Time, ghost third: Time)
      requires Valid()
      modifies clock
      ensures Valid() && State() == old(State()).(now := clock.now) && old(clock.now) <= second <= third <= clock.now
      ensures r.Some? <==>
        !Listed(blacklist.expirations, c.jti, second) && !Listed(blacklist.families, c.family, third)
          && c.user in users.users
      ensures r.Some? ==> r.value == users.users[c.user].user
    {
      ghost var before := State();
      var listed := blacklist.Contains(c.jti);
      LaterIsSound(before, accessTtl, clock.now);
      second, third := clock.now, clock.now;
      if listed {
        return None, second, third;
      }
      listed := blacklist.FamilyRevoked(c.family);
      LaterIsSound(before, accessTtl, clock.now);
      third := clock.now;
      if listed || c.user !in users.users {
        return None, second, third;
      }
      r := Some(users.users[c.user].user);
    }

    /** Exactly the tokens that pass at the three clock readings of the call are accepted. */
    method Authenticate(token: AccessToken) returns (r: Result<User, AuthError>, ghost at: Readings)
      requires Valid() && Genuine(token)
      modifies clock
      ensures Valid() && State() == old(State()).(now := clock.now) && InTime(old(clock.now), at, clock.now)
      ensures r.Ok? <==> token.Some? && Passes(State(), ClaimsOf(token.value), at)
      ensures r.Ok? ==> r.value == users.users[ClaimsOf(token.value).user].user
    {
      ghost var before := State();
      var now := clock.Read();
      LaterIsSound(before, accessTtl, clock.now);
      at := Readings(now, now, now);
      var claims := Decode(token, now);
      if claims.None? {
        return Err(Unauthorized), at;
      }
      var user;
      ghost var second, third;
      user, second, third := Resolve(claims.value);
      at := Readings(now, second, third);
      r := if user.Some? then Ok(user.value) else Err(Unauthorized);
    }

    // -------------------------------------------------------------- revoking

    /** `_revoke_family` */
    method RevokeFamily(family: Uuid, now: Time)
      requires Valid() && Known(sessions.sessions, family)
      modifies sessions, blacklist, clock
      ensures old(clock.now) <= clock.now && unchanged(users)
      ensures Valid() <==> Reaches(old(State()), family, now, accessTtl, clock.now)
      ensures State() == FamilyRevokedIn(old(State()), family, now, accessTtl, clock.now)
      ensures Onward(old(State()), State()) && Dead(sessions.sessions, family)
    {
      ghost var before := State();
      sessions.RevokeSessionsOf(family, now);
      blacklist.RevokeFamily(family, now + accessTtl * SECOND);
      assert State() == FamilyRevokedIn(before, family, now, accessTtl, clock.now);
      RevokingKeepsSoundWhen(before, family, now, accessTtl, clock.now);
    }

    /** Revokes these families and no others, in whatever order the set gives them. */
    method RevokeFamilies(families: set<Uuid>, now: Time)
      requires Valid() && NoneOutlives(issued, now, accessTtl)
      requires forall f :: f in families ==> Known(sessions.sessions, f)
      modifies sessions, blacklist, clock
      ensures Valid() && old(clock.now) <= clock.now
      ensures Onward(old(State()), State()) && RevokedOnly(old(State()), State(), families, families)
    {
      ghost var before := State();
      var rest := families;
      while rest != {}
        invariant rest <= families && before.now <= clock.now && Valid()
        invariant Onward(before, State()) && RevokedOnly(before, State(), families, families - rest)
      {
        var f :| f in rest;
        rest := rest - {f};
        RevokeNext(before, families, families - rest - {f}, f, now);
        assert families - rest == families - rest - {f} + {f};
      }
      assert families - {} == families;
    }

    method RevokeNext(ghost before: World, ghost families: set<Uuid>, ghost done: set<Uuid>, f: Uuid, now: Time)
      requires Valid() && NoneOutlives(issued, now, accessTtl) && f in families
      requires Known(before.sessions, f) && Onward(before, State()) && RevokedOnly(before, State(), families, done)
      modifies sessions, blacklist, clock
      ensures Valid() && old(clock.now) <= clock.now && issued == old(issued)
      ensures Onward(before, State()) && RevokedOnly(before, State(), families, done + {f})
    {
      ghost var middle := State();
      assert Known(sessions.sessions, f) by { OnwardMeans(before, middle); }
      RevokeFamily(f, now);
      OnwardTransitive(before, middle, State());
      RevokingOneMore(before, middle, families, done, f, now, accessTtl, clock.now);
    }

    // -------------------------------------------------------------- issuing

    method NewSession(user: Uuid, family: Uuid, now: Time) returns (x: Session)
      ensures x.New() && Unused(sessions.sessions, x) && x.user == user && x.family == family
      ensures x.createdAt == now && x.expiresAt == now + refreshTtl * SECOND
    {
      var id := FreshValue(sessions.sessions.Keys);
      var token := FreshValue(set k | k in sessions.sessions :: sessions.sessions[k].token);
      x := Session(id, user, family, token, now, now + refreshTtl * SECOND, None, None);
    }

    /** `_result` */
    method Result(user: User, x: Session, now: Time) returns (r: AuthResult, ghost c: Claims)
      requires accessTtl > 0 && Identified()
      modifies `issued, `drawn
      ensures Identified() && OwnId(old(issued), c)
      ensures c == NewClaims(user.id, user.role, c.jti, x.id, x.family, now, accessTtl)
        && c.jti !in blacklist.expirations
      ensures now < c.expiresAt <= now + accessTtl * SECOND && issued == old(issued) + {c}
      ensures r == AuthResult(user, Encode(c), c.expiresAt, x.token, x.expiresAt) && ClaimsOf(r.access.value) == c
    {
      var jti := FreshValue(drawn);
      drawn := drawn + {jti};
      var claims := NewClaims(user.id, user.role, jti, x.id, x.family, now, accessTtl);
      DecodeUndoesEncode(claims, user.id, user.role, jti, x.id, x.family, now, accessTtl, now);
      c := claims;
      issued := issued + {c};
      r := AuthResult(user, Encode(claims), claims.expiresAt, x.token, x.expiresAt);
    }

    /** A new family for the user, with its first session and access token. */
    method Open(user: User, now: Time) returns (r: AuthResult, ghost family: Uuid)
      requires Valid() && now == clock.now && user.id in users.users
      modifies sessions, `issued, `drawn
      ensures Valid() && Onward(old(State()), State()) && r.user == user && Timed(r, now, accessTtl, refreshTtl)
      ensures Opened(old(State()), State(), r, family) && Accepts(State(), ClaimsOf(r.access.value), now)
    {
      ghost var before := State();
      var unused := FreshValue(set k | k in sessions.sessions :: sessions.sessions[k].family);
      family := unused;
      var x := NewSession(user.id, unused, now);
      ghost var op := Create(x);
      ghost var c;
      sessions.CreateSession(x);
      r, c := Result(user, x, now);
      assert State() == IssuedIn(before, op, c);
      IssuingKeepsSound(before, op, x, c, accessTtl);
      assert sessions.sessions[x.id] == x;
      LiveFamilyIsAccepted(State(), accessTtl, c, now);
    }

    // -------------------------------------------------------------- refreshing

    /**
     * The end of `refresh` for a session read earlier, perhaps before another request rotated it: the token
     * is exchanged if its session is still active, and otherwise its family, and only that, is revoked. The
     * invariant is kept unless a token issued since the reading outlives the entry of the family.
     */
    method Exchange(current: Session, user: User, now: Time) returns (r: Option<AuthResult>)
      requires Valid() && now <= clock.now
      requires current.id in sessions.sessions && current.user == user.id && user.id in users.users
      requires sessions.sessions[current.id].family == current.family
        && sessions.sessions[current.id].user == current.user
      modifies sessions, blacklist, clock, `issued, `drawn
      ensures Onward(old(State()), State()) && old(clock.now) <= clock.now
      ensures Valid() <==> r.Some? || Reaches(old(State()), current.family, now, accessTtl, clock.now)
      ensures r.Some? <==> old(sessions.sessions)[current.id].Active()
      ensures r.Some? ==> Exchanged(old(State()), State(), current, r.value, now) && r.value.user == user
      ensures r.Some? ==> clock.now == old(clock.now) && Timed(r.value, now, accessTtl, refreshTtl)
      ensures r.None? ==> State() == FamilyRevokedIn(old(State()), current.family, now, accessTtl, clock.now)
    {
      ghost var before := State();
      var x := NewSession(user.id, current.family, now);
      var rotated := sessions.RotateSession(current.id, x, now);
      if !rotated {
        assert State() == before;
        RevokeFamily(current.family, now);
        return None;
      }
      var result := FinishExchange(before, current, x, user, now);
      r := Some(result);
    }

    method FinishExchange(ghost before: World, current: Session, x: Session, user: User, now: Time)
      returns (r: AuthResult)
      requires Wired() && Identified() && users.Valid() && sessions.Valid()
      requires Sound(before, accessTtl) && x.New() && now <= before.now
      requires FailuresBounded(limiter.counters, clock.now, maxFailures, failureWindow)
      requires Allowed(before.sessions, Rotate(current.id, x, now)) && Rotates(before.sessions, current.id)
      requires State() == before.(sessions := Apply(before.sessions, Rotate(current.id, x, now)))
      requires x.family == current.family && x.user == current.user == user.id
      requires x.expiresAt == now + refreshTtl * SECOND
      modifies `issued, `drawn
      ensures Valid() && Onward(before, State()) && Exchanged(before, State(), current, r, now) && r.user == user
      ensures Timed(r, now, accessTtl, refreshTtl)
    {
      ghost var op := Rotate(current.id, x, now);
      ghost var c;
      r, c := Result(user, x, now);
      assert State() == IssuedIn(before, op, c);
      IssuingKeepsSound(before, op, x, c, accessTtl);
      assert sessions.sessions[x.id] == x;
    }

    /**
     * A refresh token is exchanged exactly if its session is active and not expired and its user exists;
     * presenting a used token ends its family and no other. `shown` is the session of the presented token
     * and `at` the clock reading.
     */
    method Refresh(token: Token)
      returns (r: Result<AuthResult, AuthError>, ghost shown: Option<Session>, ghost at: Time)
      requires Valid()
      modifies sessions, blacklist, clock, `issued, `drawn
      ensures Valid() && Onward(old(State()), State()) && old(clock.now) <= at <= clock.now
      ensures Shows(old(sessions.sessions), token, shown)
      ensures r.Ok? <==>
        shown.Some? && shown.value.Active() && shown.value.expiresAt > at && shown.value.user in old(users.users)
      ensures r.Ok? ==> Exchanged(old(State()), State(), shown.value, r.value, at) && clock.now == at
      ensures r.Ok? ==> Timed(r.value, at, accessTtl, refreshTtl) && r.value.user == users.users[shown.value.user].user
      ensures r.Ok? ==> Accepts(State(), ClaimsOf(r.value.access.value), at)
      ensures shown.Some? && !shown.value.Active() ==>
        && State() == FamilyRevokedIn(old(State()), shown.value.family, at, accessTtl, clock.now)
        && OthersUntouched(old(sessions.sessions), sessions.sessions, {shown.value.family})
      ensures r.Err? && (shown.None? || shown.value.Active()) ==> State() == old(State()).(now := at)
    {
      ghost var before := State();
      var now := clock.Read();
      at := now;
      LaterIsSound(before, accessTtl, now);
      ghost var middle := State();
      r, shown := RefreshAt(token, now);
      OnwardTransitive(before, middle, State());
    }

    /** A refresh token meets the condition of `Refresh` from its issue until its expiry while its user exists. */
    lemma IssuedIsExchanged(r: AuthResult, family: Uuid, shown: Option<Session>, at: Time)
      requires sessions.Valid() && SignedIn(State(), r, family) && r.user.id in users.users
      requires Shows(sessions.sessions, r.refresh, shown)
      ensures shown.Some? && shown.value.Active() && shown.value.user in users.users
      ensures shown.value.expiresAt > at <==> at < r.refreshExpiresAt
    {
      var x := sessions.sessions[ClaimsOf(r.access.value).session];
      LinkedMeans(sessions.sessions, sessions.chains);
      TokensDiffer(x);
    }

    method RefreshAt(token: Token, now: Time) returns (r: Result<AuthResult, AuthError>, ghost shown: Option<Session>)
      requires Valid() && now == clock.now
      modifies sessions, blacklist, clock, `issued, `drawn
      ensures Valid() && Onward(old(State()), State()) && now <= clock.now
      ensures Shows(old(sessions.sessions), token, shown)
      ensures r.Ok? <==>
        shown.Some? && shown.value.Active() && shown.value.expiresAt > now && shown.value.user in old(users.users)
      ensures r.Ok? ==> Exchanged(old(State()), State(), shown.value, r.value, now) && clock.now == now
      ensures r.Ok? ==> Timed(r.value, now, accessTtl, refreshTtl) && r.value.user == users.users[shown.value.user].user
      ensures r.Ok? ==> Accepts(State(), ClaimsOf(r.value.access.value), now)
      ensures shown.Some? && !shown.value.Active() ==>
        State() == FamilyRevokedIn(old(State()), shown.value.family, now, accessTtl, clock.now)
      ensures r.Err? && (shown.None? || shown.value.Active()) ==> State() == old(State())
    {
      LaterIsSound(State(), accessTtl, now);
      var current := sessions.FindByToken(token);
      shown := current;
      if current.None? {
        return Err(Unauthorized), shown;
      }
      assert NoneOutlives(issued, now, accessTtl) by { SoundMeans(State(), accessTtl); }
      if current.value.revokedAt.Some? {
        RevokeFamily(current.value.family, now);
        return Err(Unauthorized), shown;
      }
      if current.value.expiresAt <= now || current.value.user !in users.users {
        return Err(Unauthorized), shown;
      }
      var user := users.users[current.value.user].user;
      var result := Exchange(current.value, user, now);
      SignedInIsAccepted(State(), accessTtl, result.value, current.value.family, now);
      r := Ok(result.value);
    }

    // -------------------------------------------------------------- failed attempts

    /** Seconds to wait when this key already has the failures one window allows. */
    method Blocked(key: Key) returns (wait: Option<nat>, ghost at: Time)
      requires Valid() && (key.LoginFailures? || key.PasswordFailures?)
      modifies limiter, clock
      ensures Valid() && old(clock.now) <= at <= clock.now && State() == old(State()).(now := clock.now)
      ensures wait.Some? <==> Full(old(limiter.Seen(key)), at, maxFailures)
      ensures wait.Some? ==> 1 <= wait.value <= failureWindow
      ensures limiter.Seen(key) == Live(old(limiter.Seen(key)), at)
      ensures limiter.counters - {key} == old(limiter.counters) - {key}
    {
      ghost var before := State();
      wait, at := limiter.Blocked(key, maxFailures);
      LaterIsSound(before, accessTtl, clock.now);
      if wait.Some? {
        WaitIsTight(limiter.counters[key], clock.now, failureWindow);
      }
    }

    method RecordFailure(key: Key) returns (ghost at: Time)
      requires Valid() && (key in limiter.counters ==> limiter.counters[key].count < maxFailures)
      modifies limiter, clock
      ensures Valid() && old(clock.now) <= at <= clock.now && State() == old(State()).(now := clock.now)
      ensures limiter.counters == old(limiter.counters)[key := Incremented(old(limiter.Seen(key)), at, failureWindow)]
    {
      ghost var before := State();
      at := limiter.RecordFailure(key, failureWindow);
      LaterIsSound(before, accessTtl, clock.now);
    }

    /**
     * After a secret was checked on a window that is not full: a wrong one is counted, a right one clears the
     * counter. `before` holds the counters from before the window was looked at, at `tried`.
     */
    method Settle(key: Key, right: bool, ghost before: map<Key, Counter>, ghost tried: Time)
      returns (ghost counted: Time)
      requires Valid() && (key.LoginFailures? || key.PasswordFailures?) && tried <= clock.now
      requires limiter.counters - {key} == before - {key} && !Full(Entry(before, key), tried, maxFailures)
      requires limiter.Seen(key) == Live(Entry(before, key), tried)
      modifies limiter, clock
      ensures Valid() && State() == old(State()).(now := clock.now) && old(clock.now) <= counted <= clock.now
      ensures limiter.counters ==
        if right then before - {key} else before[key := Incremented(Entry(before, key), counted, failureWindow)]
    {
      ghost var left := limiter.counters;
      counted := clock.now;
      if right {
        limiter.Reset(key);
      } else {
        counted := RecordFailure(key);
        WithOrWithout(before, left, key, limiter.counters[key]);
      }
    }

    // -------------------------------------------------------------- login and registration

    method Register(login: string, password: string) returns (r: Result<User, AuthError>)
      requires Valid()
      modifies users
      ensures Valid() && Onward(old(State()), State()) && State() == old(State()).(users := users.users)
      ensures r.Ok? <==> forall id :: id in old(users.users) ==> Lower(old(users.users)[id].user.login) != Lower(login)
      ensures r.Ok? ==> r.value.id !in old(users.users) && r.value.login == login && r.value.role == UserRole
      ensures r.Ok? ==> users.users == old(users.users)[r.value.id := Account(r.value, password)]
      ensures r.Err? ==> users.users == old(users.users)
    {
      ghost var before := State();
      var id := FreshValue(users.users.Keys);
      var user := users.CreateUser(id, login, password, UserRole);
      UsersAreAside(before, State(), accessTtl);
      r := if user.None? then Err(LoginTaken) else Ok(user.value);
    }

    /**
     * The right password opens a new family exactly unless the failures of the window are used up, which the
     * limiter read at `tried`; a wrong one is counted. Every failure leaves users, sessions and tokens alone.
     */
    method Login(login: string, password: string, ip: string)
      returns (r: Result<AuthResult, AuthError>, ghost family: Uuid, ghost tried: Time, ghost counted: Time)
      requires Valid()
      modifies sessions, limiter, clock, `issued, `drawn
      ensures Valid() && Onward(old(State()), State()) && old(clock.now) <= tried <= counted <= clock.now
      ensures var full := Full(old(limiter.Seen(LoginFailures(Lower(login), ip))), tried, maxFailures);
        && (r.Ok? <==> !full && Correct(old(users.users), login, password))
        && (r == Err(InvalidCredentials) <==> !full && !Correct(old(users.users), login, password))
        && (r.Err? && r.error.TooManyAttempts? <==> full)
      ensures r.Err? && r.error.TooManyAttempts? ==> 1 <= r.error.wait <= failureWindow
      ensures var key, before := LoginFailures(Lower(login), ip), old(limiter.counters);
        && (r.Ok? ==> limiter.counters == before - {key})
        && (r == Err(InvalidCredentials) ==>
              limiter.counters == before[key := Incremented(Entry(before, key), counted, failureWindow)])
      ensures r.Err? ==> State() == old(State()).(now := clock.now)
      ensures r.Ok? ==> Opened(old(State()).(now := clock.now), State(), r.value, family)
      ensures r.Ok? ==> Timed(r.value, clock.now, accessTtl, refreshTtl)
      ensures r.Ok? ==> Owns(users.users, r.value.user, login, password)
      ensures r.Ok? ==> Accepts(State(), ClaimsOf(r.value.access.value), clock.now)
    {
      family := 0;
      ghost var before, counters := State(), limiter.counters;
      var key := LoginFailures(Lower(login), ip);
      var wait;
      wait, tried := Blocked(key);
      counted := tried;
      LaterIsSound(before, accessTtl, clock.now);
      if wait.Some? {
        return Err(TooManyAttempts(wait.value)), family, tried, counted;
      }
      var account := users.FindByLogin(login);
      var right := account.Some? && account.value.password == password;
      LoginTells(users.users, login, password, account);
      counted := Settle(key, right, counters, tried);
      LaterIsSound(before, accessTtl, clock.now);
      if !right {
        return Err(InvalidCredentials), family, tried, counted;
      }
      ghost var middle := State();
      var now := clock.Read();
      LaterIsSound(middle, accessTtl, now);
      ghost var ready := State();
      var result;
      result, family := Open(account.value.user, now);
      OnwardTransitive(before, middle, ready);
      OnwardTransitive(before, ready, State());
      r := Ok(result);
    }

    // -------------------------------------------------------------- logout

    /** The families of the presented tokens; a valid access token is also blacklisted on its own. */
    method PresentedFamilies(access: AccessToken, refresh: Option<Token>, now: Time) returns (families: set<Uuid>)
      requires Valid() && Genuine(access) && now == clock.now
      modifies blacklist`expirations, clock
      ensures Valid() && Onward(old(State()), State()) && now <= clock.now
      ensures State() == old(State()).(expirations := blacklist.expirations, now := clock.now)
      ensures ListedAlone(old(blacklist.expirations), blacklist.expirations, access, now, clock.now)
      ensures forall f :: f in families ==> Known(sessions.sessions, f)
      ensures forall f :: f in families <==> Presented(old(sessions.sessions), access, refresh, now, f)
    {
      ghost var before := State();
      assert Met(before, accessTtl, Recorded);
      families := {};
      var claims := Decode(access, now);
      if claims.Some? {
        families := {claims.value.family};
        blacklist.Add(claims.value.jti, claims.value.expiresAt);
      }
      ListingIsAside(before, State(), accessTtl);
      if refresh.Some? {
        var session := sessions.FindByToken(refresh.value);
        if session.Some? {
          families := families + {session.value.family};
          TokensDiffer(session.value);
        }
      }
    }

    lemma TokensDiffer(x: Session)
      requires sessions.Valid() && x.id in sessions.sessions && sessions.sessions[x.id] == x
      ensures forall id ::
        id in sessions.sessions && sessions.sessions[id].token == x.token ==> sessions.sessions[id] == x
    {
      LinkedMeans(sessions.sessions, sessions.chains);
    }

    /**
     * Exactly the families of the presented tokens are ended: that of the access token if it had not expired
     * at `at`, and that of the session with the refresh token. No other session or entry is touched.
     */
    method Logout(access: AccessToken, refresh: Option<Token>) returns (ghost families: set<Uuid>, ghost at: Time)
      requires Valid() && Genuine(access)
      modifies sessions, blacklist, clock
      ensures Valid() && Onward(old(State()), State()) && old(clock.now) <= at <= clock.now
      ensures forall f :: f in families <==> Presented(old(sessions.sessions), access, refresh, at, f)
      ensures RevokedOnly(old(State()).(expirations := blacklist.expirations), State(), families, families)
      ensures ListedAlone(old(blacklist.expirations), blacklist.expirations, access, at, clock.now)
    {
      ghost var before := State();
      var now := clock.Read();
      at := now;
      LaterIsSound(before, accessTtl, now);
      assert NoneOutlives(issued, now, accessTtl) by { SoundMeans(State(), accessTtl); }
      ghost var ready := State();
      var presented := PresentedFamilies(access, refresh, now);
      families := presented;
      ghost var middle := State();
      RevokeFamilies(presented, now);
      OnwardTransitive(before, ready, middle);
      OnwardTransitive(before, middle, State());
    }

    // -------------------------------------------------------------- changing the password

    method EnterFamilies(listed: set<Uuid>, until: Time)
      requires blacklist.clock == clock
      modifies blacklist`families, clock
      ensures old(clock.now) <= clock.now
      ensures Entered(old(blacklist.families), blacklist.families, listed, until, clock.now)
    {
      var rest := listed;
      while rest != {}
        invariant rest <= listed && old(clock.now) <= clock.now
        invariant Entered(old(blacklist.families), blacklist.families, listed - rest, until, clock.now)
      {
        var f :| f in rest;
        blacklist.RevokeFamily(f, until);
        rest := rest - {f};
      }
      assert listed - {} == listed;
    }

    /** Signs out every other session of the user; the caller's own family keeps working. */
    method SignOutElsewhere(user: Uuid, keep: Uuid, now: Time) returns (ghost listed: set<Uuid>)
      requires Valid() && NoneOutlives(issued, now, accessTtl)
      modifies sessions, blacklist`families, clock
      ensures Valid() && Onward(old(State()), State())
      ensures SignedOutElsewhere(old(State()), State(), user, keep, now, accessTtl, listed)
    {
      ghost var before, chains := State(), sessions.chains;
      var families := sessions.RevokeUserSessions(user, keep, now);
      EnterFamilies(families, now + accessTtl * SECOND);
      listed := families;
      SigningOutKeepsSound(before, State(), chains, user, keep, now, accessTtl, listed);
    }

    method ReplacePassword(user: Uuid, keep: Uuid, replacement: string, now: Time) returns (ghost listed: set<Uuid>)
      requires Valid() && NoneOutlives(issued, now, accessTtl) && user in users.users
      modifies users, sessions, blacklist`families, clock
      ensures Valid() && Onward(old(State()), State())
      ensures SignedOutElsewhere(old(State()), State(), user, keep, now, accessTtl, listed)
      ensures PasswordReplaced(old(users.users), users.users, user, replacement)
    {
      ghost var before := State();
      users.SetPassword(user, replacement);
      UsersAreAside(before, State(), accessTtl);
      ghost var middle := State();
      listed := SignOutElsewhere(user, keep, now);
      OnwardTransitive(before, middle, State());
    }

    /**
     * An accepted token, the right password and a different new one change the password exactly unless the
     * failures of the window are used up, and sign the user out of every other family; otherwise nothing changes.
     */
    method ChangePassword(access: AccessToken, current: string, replacement: string)
      returns (
        r: Result<(), AuthError>, ghost at: Readings, ghost tried: Time, ghost counted: Time, ghost listed: set<Uuid>)
      requires Valid() && Genuine(access)
      modifies users, sessions, blacklist`families, limiter, clock
      ensures Valid() && Onward(old(State()), State())
      ensures InTime(old(clock.now), at, clock.now) && at.third <= tried <= counted <= clock.now
      ensures var accepted := access.Some? && Passes(old(State()), ClaimsOf(access.value), at);
        && (r == Err(Unauthorized) <==> !accepted)
        && (accepted ==>
          var user := ClaimsOf(access.value).user;
          var full := Full(old(limiter.Seen(PasswordFailures(user))), tried, maxFailures);
          var right := HasPassword(old(users.users), user, current);
          && (r.Ok? <==> !full && right && replacement != current)
          && (r == Err(WrongPassword) <==> !full && !right)
          && (r == Err(SamePassword) <==> !full && right && replacement == current)
          && (r.Err? && r.error.TooManyAttempts? <==> full))
      ensures r.Err? && r.error.TooManyAttempts? ==> 1 <= r.error.wait <= failureWindow
      ensures r == Err(Unauthorized) ==> limiter.counters == old(limiter.counters)
      ensures r.Ok? || r == Err(WrongPassword) || r == Err(SamePassword) ==>
        var key, before := PasswordFailures(ClaimsOf(access.value).user), old(limiter.counters);
        limiter.counters ==
          if r == Err(WrongPassword) then before[key := Incremented(Entry(before, key), counted, failureWindow)]
          else before - {key}
      ensures r.Err? ==> State() == old(State()).(now := clock.now)
      ensures r.Ok? ==> PasswordReplaced(old(users.users), users.users, ClaimsOf(access.value).user, replacement)
      ensures r.Ok? ==> var c := ClaimsOf(access.value);
        SignedOutElsewhere(old(State()), State(), c.user, c.family, at.first, accessTtl, listed)
    {
      listed := {};
      ghost var before := State();
      var checked;
      checked, at, tried, counted := CheckChange(access, current, replacement);
      LaterIsSound(before, accessTtl, clock.now);
      if checked.Err? {
        return Err(checked.error), at, tried, counted, listed;
      }
      var c := ClaimsOf(access.value);
      ghost var middle := State();
      listed := ReplacePassword(c.user, c.family, replacement, checked.value);
      OnwardTransitive(before, middle, State());
      r := Ok(());
    }

    /** Everything `change_password` checks before it writes; on success the first clock reading. */
    method CheckChange(access: AccessToken, current: string, replacement: string)
      returns (r: Result<Time, AuthError>, ghost at: Readings, ghost tried: Time, ghost counted: Time)
      requires Valid() && Genuine(access)
      modifies limiter, clock
      ensures Valid() && State() == old(State()).(now := clock.now)
      ensures InTime(old(clock.now), at, clock.now) && at.third <= tried <= counted <= clock.now
      ensures r.Ok? ==> r.value == at.first && NoneOutlives(issued, r.value, accessTtl)
      ensures var accepted := access.Some? && Passes(old(State()), ClaimsOf(access.value), at);
        && (r == Err(Unauthorized) <==> !accepted)
        && (accepted ==>
          var user := ClaimsOf(access.value).user;
          var full := Full(old(limiter.Seen(PasswordFailures(user))), tried, maxFailures);
          var right := HasPassword(users.users, user, current);
          && (r.Ok? <==> !full && right && replacement != current)
          && (r == Err(WrongPassword) <==> !full && !right)
          && (r == Err(SamePassword) <==> !full && right && replacement == current)
          && (r.Err? && r.error.TooManyAttempts? <==> full))
      ensures r.Err? && r.error.TooManyAttempts? ==> 1 <= r.error.wait <= failureWindow
      ensures r == Err(Unauthorized) ==> limiter.counters == old(limiter.counters)
      ensures r.Ok? || r == Err(WrongPassword) || r == Err(SamePassword) ==>
        var key, before := PasswordFailures(ClaimsOf(access.value).user), old(limiter.counters);
        limiter.counters ==
          if r == Err(WrongPassword) then before[key := Incremented(Entry(before, key), counted, failureWindow)]
          else before - {key}
    {
      ghost var before := State();
      var now := clock.Read();
      LaterIsSound(before, accessTtl, now);
      assert NoneOutlives(issued, now, accessTtl) by { SoundMeans(State(), accessTtl); }
      at, tried, counted := Readings(now, now, now), now, now;
      var claims := Decode(access, now);
      if claims.None? {
        return Err(Unauthorized), at, tried, counted;
      }
      var c := claims.value;
      var user;
      ghost var second, third;
      user, second, third := Resolve(c);
      at, tried, counted := Readings(now, second, third), clock.now, clock.now;
      if user.None? {
        return Err(Unauthorized), at, tried, counted;
      }
      ghost var counters := limiter.counters;
      var key := PasswordFailures(c.user);
      var wait;
      wait, tried := Blocked(key);
      counted := tried;
      if wait.Some? {
        return Err(TooManyAttempts(wait.value)), at, tried, counted;
      }
      var right := users.users[c.user].password == current;
      counted := Settle(key, right, counters, tried);
      r := if !right then Err(WrongPassword) else if replacement == current then Err(SamePassword) else Ok(now);
    }
  }
}
