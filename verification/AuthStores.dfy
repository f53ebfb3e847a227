/** The user store and the token blacklist. */
module AuthStores {
  import opened Wrappers
  import opened Clocks
  import opened Sessions
  import opened Tokens

  /** `str.lower` stays uninterpreted. */
  const Lower: string -> string

  datatype User = User(id: Uuid, login: string, role: Role)

  /** Hashing is injective, so a password stands for its own hash. */
  datatype Account = Account(user: User, password: string)

  /** No two accounts share a login, whatever its case. */
  ghost predicate LoginsUnique(users: map<Uuid, Account>) {
    forall a, b :: a in users && b in users && Lower(users[a].user.login) == Lower(users[b].user.login) ==> a == b
  }

  /** `InMemoryUserStore` */
  class UserStore {
    var users: map<Uuid, Account>

    ghost predicate Valid() reads this {
      LoginsUnique(users) && forall id :: id in users ==> users[id].user.id == id
    }

    constructor ()
      ensures Valid() && users == map[]
    {
      users := map[];
    }

    method FindByLogin(login: string) returns (r: Option<Account>)
      requires Valid()
      ensures r.Some? ==>
        r.value.user.id in users && users[r.value.user.id] == r.value && Lower(r.value.user.login) == Lower(login)
      ensures r.None? ==> forall id :: id in users ==> Lower(users[id].user.login) != Lower(login)
    {
      var rest := users.Keys;
      while rest != {}
        invariant rest <= users.Keys
        invariant forall id :: id in users && id !in rest ==> Lower(users[id].user.login) != Lower(login)
      {
        var id :| id in rest;
        if Lower(users[id].user.login) == Lower(login) {
          return Some(users[id]);
        }
        rest := rest - {id};
      }
      r := None;
    }

    /** A login taken in any case is refused. */
    method CreateUser(id: Uuid, login: string, password: string, role: Role) returns (r: Option<User>)
      requires Valid() && id !in users
      modifies this
      ensures Valid()
      ensures r.Some? <==> forall k :: k in old(users) ==> Lower(old(users)[k].user.login) != Lower(login)
      ensures r.Some? ==> r.value == User(id, login, role) && users == old(users)[id := Account(r.value, password)]
      ensures r.None? ==> users == old(users)
    {
      var taken := FindByLogin(login);
      if taken.Some? {
        return None;
      }
      users := users[id := Account(User(id, login, role), password)];
      r := Some(User(id, login, role));
    }

    method SetPassword(id: Uuid, password: string)
      requires Valid()
      modifies this
      ensures Valid()
      ensures users == if id in old(users) then old(users)[id := old(users)[id].(password := password)] else old(users)
    {
      if id in users {
        users := users[id := users[id].(password := password)];
      }
    }
  }

  /** Whether an entry is in force at `t`. */
  predicate Listed(entries: map<Uuid, Time>, key: Uuid, t: Time) {
    key in entries && entries[key] > t
  }

  /** `InMemoryTokenBlacklist` */
  class TokenBlacklist {
    const clock: Clock
    var expirations: map<Uuid, Time>
    var families: map<Uuid, Time>

    constructor (clock: Clock)
      ensures this.clock == clock && expirations == map[] && families == map[]
    {
      this.clock := clock;
      expirations, families := map[], map[];
    }

    method Add(jti: Uuid, expiresAt: Time)
      modifies `expirations, clock
      ensures old(clock.now) <= clock.now
      ensures expirations == if expiresAt > clock.now then old(expirations)[jti := expiresAt] else old(expirations)
    {
      var t := clock.Read();
      if expiresAt > t {
        expirations := expirations[jti := expiresAt];
      }
    }

    method RevokeFamily(family: Uuid, until: Time)
      modifies `families, clock
      ensures old(clock.now) <= clock.now
      ensures families == if until > clock.now then old(families)[family := until] else old(families)
    {
      var t := clock.Read();
      if until > t {
        families := families[family := until];
      }
    }

    method Contains(jti: Uuid) returns (r: bool)
      modifies clock
      ensures old(clock.now) <= clock.now && r == Listed(expirations, jti, clock.now)
    {
      r := false;
      if jti in expirations {
        var t := clock.Read();
        r := expirations[jti] > t;
      }
    }

    method FamilyRevoked(family: Uuid) returns (r: bool)
      modifies clock
      ensures old(clock.now) <= clock.now && r == Listed(families, family, clock.now)
    {
      r := false;
      if family in families {
        var t := clock.Read();
        r := families[family] > t;
      }
    }
  }
}
