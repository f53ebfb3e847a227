/** Refresh sessions: the store, its operations as values, and what any run of them keeps. */
module Sessions {
  import opened Wrappers
  import opened Clocks

  /** Fresh identifiers and tokens are values not used before; a token stands for its own hash. */
  type Uuid = nat
  type Token = nat

  datatype Session = Session(
    id: Uuid, user: Uuid, family: Uuid, token: Token, createdAt: Time, expiresAt: Time,
    revokedAt: Option<Time>, replacedBy: Option<Uuid>)
  {
    predicate Active() {
      revokedAt.None?
    }

    predicate New() {
      revokedAt.None? && replacedBy.None?
    }
  }

  type Table = map<Uuid, Session>

  /** The operations of the store, each one step under its lock. */
  datatype Op =
    | Create(session: Session)
    | Rotate(current: Uuid, replacement: Session, now: Time)
    | Revoke(id: Uuid, now: Time)
    | RevokeFamily(family: Uuid, now: Time)
    | RevokeUser(user: Uuid, keep: Uuid, now: Time)

  predicate Rotates(s: Table, current: Uuid) {
    current in s && s[current].Active()
  }

  predicate Concerns(x: Session, op: Op) {
    match op
    case Revoke(id, _) => x.id == id
    case RevokeFamily(family, _) => x.family == family
    case RevokeUser(user, keep, _) => x.user == user && x.family != keep
    case _ => false
  }

  function Revoked(s: Table, op: Op, now: Time): (r: Table)
    ensures r.Keys == s.Keys
  {
    map id | id in s :: if s[id].Active() && Concerns(s[id], op) then s[id].(revokedAt := Some(now)) else s[id]
  }

  function Apply(s: Table, op: Op): Table {
    match op
    case Create(x) => s[x.id := x]
    case Rotate(current, replacement, now) =>
      if Rotates(s, current)
      then s[current := s[current].(revokedAt := Some(now),
        replacedBy := Some(replacement.id))][replacement.id := replacement]
      else s
    case Revoke(_, now) => Revoked(s, op, now)
    case RevokeFamily(_, now) => Revoked(s, op, now)
    case RevokeUser(_, _, now) => Revoked(s, op, now)
  }

  /** No session has this id or this token. */
  ghost predicate Unused(s: Table, x: Session) {
    x.id !in s && forall id :: id in s ==> s[id].token != x.token
  }

  /** What the service guarantees: new sessions are fresh, and a replacement stays in the family of what it replaces. */
  ghost predicate Allowed(s: Table, op: Op) {
    match op
    case Create(x) => x.New() && Unused(s, x) && !Known(s, x.family)
    case Rotate(current, x, _) =>
      x.New() && Unused(s, x) && current in s && s[current].family == x.family && s[current].user == x.user
    case _ => true
  }

  ghost predicate Known(s: Table, family: Uuid) {
    exists id :: id in s && s[id].family == family
  }

  /** No session of the family is active. */
  ghost predicate Dead(s: Table, family: Uuid) {
    forall id :: id in s && s[id].family == family ==> !s[id].Active()
  }

  // ---------------------------------------------------------------- families are chains

  ghost predicate Links(s: Table, a: Uuid, b: Uuid) {
    a in s && !s[a].Active() && s[a].replacedBy == Some(b)
  }

  /** `chain` lists the sessions of a family, each replaced by the next one. */
  ghost predicate IsChain(s: Table, family: Uuid, chain: seq<Uuid>) {
    && chain != []
    && (forall i :: 0 <= i < |chain| ==> chain[i] in s && s[chain[i]].family == family)
    && (forall i, j :: 0 <= i < j < |chain| ==> chain[i] != chain[j])
    && (forall i, j :: 0 <= i < |chain| && j == i + 1 < |chain| ==> Links(s, chain[i], chain[j]))
    && s[chain[|chain| - 1]].replacedBy == None
    && (forall id :: id in s && s[id].family == family ==> id in chain)
  }

  type Chains = map<Uuid, seq<Uuid>>

  ghost predicate Keyed(s: Table) {
    && (forall id :: id in s ==> s[id].id == id)
    && (forall a, b :: a in s && b in s && s[a].token == s[b].token ==> a == b)
  }

  datatype Aspect = Keys | Families

  ghost predicate Orderly(s: Table, chains: Chains, aspect: Aspect) {
    match aspect
    case Keys => Keyed(s)
    case Families =>
      && (forall f :: f in chains ==> IsChain(s, f, chains[f]))
      && (forall id :: id in s ==> s[id].family in chains)
  }

  /** Ids and tokens are keys, and every family is one chain. */
  ghost predicate Linked(s: Table, chains: Chains) {
    forall aspect :: Orderly(s, chains, aspect)
  }

  lemma LinkedMeans(s: Table, chains: Chains)
    requires Linked(s, chains)
    ensures Keyed(s)
    ensures forall f :: f in chains ==> IsChain(s, f, chains[f])
    ensures forall id :: id in s ==> s[id].family in chains
  {
    assert Orderly(s, chains, Keys) && Orderly(s, chains, Families);
  }

  function Extended(s: Table, chains: Chains, op: Op): Chains {
    match op
    case Create(x) => chains[x.family := [x.id]]
    case Rotate(current, x, _) =>
      if Rotates(s, current) && x.family in chains then chains[x.family := chains[x.family] + [x.id]] else chains
    case _ => chains
  }

  /** An active session is the end of its chain. */
  lemma ActiveEndsChain(s: Table, f: Uuid, chain: seq<Uuid>, id: Uuid)
    requires IsChain(s, f, chain) && id in s && s[id].family == f && s[id].Active()
    ensures id == chain[|chain| - 1] && s[id].replacedBy == None
  {
    var i :| 0 <= i < |chain| && chain[i] == id;
    assert i < |chain| - 1 ==> Links(s, chain[i], chain[i + 1]);
  }

  lemma AtMostOneActive(s: Table, chains: Chains, a: Uuid, b: Uuid)
    requires Linked(s, chains) && a in s && b in s && s[a].family == s[b].family && s[a].Active() && s[b].Active()
    ensures a == b
  {
    LinkedMeans(s, chains);
    var f := s[a].family;
    ActiveEndsChain(s, f, chains[f], a);
    ActiveEndsChain(s, f, chains[f], b);
  }

  /** The session reached by `n` replacements. */
  function Follow(s: Table, id: Uuid, n: nat): Option<Uuid> {
    if n == 0 then Some(id)
    else
      var before := Follow(s, id, n - 1);
      if before.Some? && before.value in s then s[before.value].replacedBy else None
  }

  lemma {:induction false} FollowsChain(s: Table, f: Uuid, chain: seq<Uuid>, i: nat, n: nat)
    requires IsChain(s, f, chain) && i < |chain|
    ensures Follow(s, chain[i], n) == if i + n < |chain| then Some(chain[i + n]) else None
  {
    if n > 0 {
      FollowsChain(s, f, chain, i, n - 1);
      if i + n < |chain| {
        assert Links(s, chain[i + n - 1], chain[i + n]);
      }
    }
  }

  /** No session is, however many steps later, replaced by itself. */
  lemma ReplacementsNeverCycle(s: Table, chains: Chains, id: Uuid, n: nat)
    requires Linked(s, chains) && id in s && n > 0
    ensures Follow(s, id, n) != Some(id)
  {
    LinkedMeans(s, chains);
    var f := s[id].family;
    var i :| 0 <= i < |chains[f]| && chains[f][i] == id;
    FollowsChain(s, f, chains[f], i, n);
  }

  lemma RevokingKeepsChain(s: Table, op: Op, now: Time, f: Uuid, chain: seq<Uuid>)
    requires IsChain(s, f, chain)
    ensures IsChain(Revoked(s, op, now), f, chain)
  {
    var t := Revoked(s, op, now);
    forall i, j | 0 <= i < |chain| && j == i + 1 < |chain| ensures Links(t, chain[i], chain[j]) {
      assert Links(s, chain[i], chain[j]);
    }
  }

  lemma RevokingKeepsKeys(s: Table, op: Op, now: Time)
    requires Keyed(s)
    ensures Keyed(Revoked(s, op, now))
  {
  }

  lemma RevokingKeepsFamilies(s: Table, chains: Chains, op: Op, now: Time)
    requires Orderly(s, chains, Families)
    ensures Orderly(Revoked(s, op, now), chains, Families)
  {
    forall f | f in chains ensures IsChain(Revoked(s, op, now), f, chains[f]) {
      RevokingKeepsChain(s, op, now, f, chains[f]);
    }
  }

  lemma RevokingKeepsChains(s: Table, chains: Chains, op: Op, now: Time)
    requires Linked(s, chains)
    ensures Linked(Revoked(s, op, now), chains)
  {
    assert Orderly(Revoked(s, op, now), chains, Keys) by {
      assert Orderly(s, chains, Keys);
      RevokingKeepsKeys(s, op, now);
    }
    RevokingKeepsFamilies(s, chains, op, now);
  }

  lemma CreatingKeepsKeys(s: Table, op: Op)
    requires Keyed(s) && op.Create? && Allowed(s, op)
    ensures Keyed(Apply(s, op))
  {
  }

  lemma CreatingKeepsOtherChain(s: Table, op: Op, f: Uuid, chain: seq<Uuid>)
    requires op.Create? && Allowed(s, op) && IsChain(s, f, chain) && f != op.session.family
    ensures IsChain(Apply(s, op), f, chain)
  {
    KeepsOtherChain(s, Apply(s, op), f, chain);
  }

  lemma CreatingStartsChain(s: Table, op: Op)
    requires op.Create? && Allowed(s, op)
    ensures IsChain(Apply(s, op), op.session.family, [op.session.id])
  {
    var x, t := op.session, Apply(s, op);
    assert forall id :: id in s ==> s[id].family != x.family;
  }

  lemma CreatingKeepsChains(s: Table, chains: Chains, op: Op)
    requires Linked(s, chains) && op.Create? && Allowed(s, op)
    ensures Linked(Apply(s, op), Extended(s, chains, op))
  {
    var x, t, c := op.session, Apply(s, op), Extended(s, chains, op);
    LinkedMeans(s, chains);
    assert Orderly(t, c, Keys) by { CreatingKeepsKeys(s, op); }
    assert Orderly(t, c, Families) by {
      CreatingStartsChain(s, op);
      forall f | f in c && f != x.family ensures IsChain(t, f, c[f]) {
        CreatingKeepsOtherChain(s, op, f, chains[f]);
      }
    }
  }

  /** A chain survives when the sessions of its family stay as they are. */
  lemma KeepsOtherChain(s: Table, t: Table, f: Uuid, chain: seq<Uuid>)
    requires IsChain(s, f, chain)
    requires forall id :: id in s && s[id].family == f ==> id in t && t[id] == s[id]
    requires forall id :: id in t && t[id].family == f ==> id in s && s[id].family == f
    ensures IsChain(t, f, chain)
  {
    forall i, j | 0 <= i < |chain| && j == i + 1 < |chain| ensures Links(t, chain[i], chain[j]) {
      assert Links(s, chain[i], chain[j]);
    }
  }

  lemma RotatingExtendsChain(s: Table, chain: seq<Uuid>, op: Op)
    requires op.Rotate? && Allowed(s, op) && Rotates(s, op.current) && IsChain(s, op.replacement.family, chain)
    ensures IsChain(Apply(s, op), op.replacement.family, chain + [op.replacement.id])
  {
    var x, t, longer, n := op.replacement, Apply(s, op), chain + [op.replacement.id], |chain|;
    ActiveEndsChain(s, x.family, chain, op.current);
    assert x.id !in chain;
    forall i, j | 0 <= i < |longer| && j == i + 1 < |longer| ensures Links(t, longer[i], longer[j]) {
      if j < n {
        assert Links(s, chain[i], chain[j]);
      } else {
        assert longer[i] == op.current;
      }
    }
    forall id | id in t && t[id].family == x.family ensures id in longer {
      assert id == x.id || id in chain;
    }
  }

  lemma RotatingKeepsKeys(s: Table, op: Op)
    requires Keyed(s) && op.Rotate? && Allowed(s, op) && Rotates(s, op.current)
    ensures Keyed(Apply(s, op))
  {
  }

  lemma RotatingKeepsOtherChain(s: Table, op: Op, f: Uuid, chain: seq<Uuid>)
    requires Keyed(s) && op.Rotate? && Allowed(s, op) && Rotates(s, op.current) && IsChain(s, f, chain)
      && f != op.replacement.family
    ensures IsChain(Apply(s, op), f, chain)
  {
    KeepsOtherChain(s, Apply(s, op), f, chain);
  }

  lemma RotatedChain(s: Table, op: Op, f: Uuid, chain: seq<Uuid>)
    requires Keyed(s) && op.Rotate? && Allowed(s, op) && Rotates(s, op.current) && IsChain(s, f, chain)
    ensures IsChain(Apply(s, op), f, if f == op.replacement.family then chain + [op.replacement.id] else chain)
  {
    if f == op.replacement.family {
      RotatingExtendsChain(s, chain, op);
    } else {
      RotatingKeepsOtherChain(s, op, f, chain);
    }
  }

  lemma RotatingKeepsFamilies(s: Table, chains: Chains, op: Op)
    requires Orderly(s, chains, Families) && Keyed(s) && op.Rotate? && Allowed(s, op) && Rotates(s, op.current)
    ensures Orderly(Apply(s, op), Extended(s, chains, op), Families)
  {
    var x, t, c := op.replacement, Apply(s, op), Extended(s, chains, op);
    assert forall id :: id in t ==> t[id].family in c;
    forall f | f in c ensures IsChain(t, f, c[f]) {
      RotatedChain(s, op, f, chains[f]);
    }
  }

  lemma RotatingKeepsChains(s: Table, chains: Chains, op: Op)
    requires Linked(s, chains) && op.Rotate? && Allowed(s, op) && Rotates(s, op.current)
    ensures Linked(Apply(s, op), Extended(s, chains, op))
  {
    assert Orderly(s, chains, Keys) && Orderly(s, chains, Families);
    RotatingKeepsKeys(s, op);
    RotatingKeepsFamilies(s, chains, op);
  }

  /** Every operation of the store keeps each family one chain. */
  lemma StepKeepsChains(s: Table, chains: Chains, op: Op)
    requires Linked(s, chains) && Allowed(s, op)
    ensures Linked(Apply(s, op), Extended(s, chains, op))
  {
    match op
    case Create(_) => CreatingKeepsChains(s, chains, op);
    case Rotate(current, _, _) =>
      if Rotates(s, current) {
        RotatingKeepsChains(s, chains, op);
      }
    case Revoke(_, now) => RevokingKeepsChains(s, chains, op, now);
    case RevokeFamily(_, now) => RevokingKeepsChains(s, chains, op, now);
    case RevokeUser(_, _, now) => RevokingKeepsChains(s, chains, op, now);
  }

  // ---------------------------------------------------------------- runs of operations

  function Run(s: Table, ops: seq<Op>): Table
    decreases |ops|
  {
    if ops == [] then s else Run(Apply(s, ops[0]), ops[1..])
  }

  ghost predicate AllAllowed(s: Table, ops: seq<Op>)
    decreases |ops|
  {
    ops == [] || (Allowed(s, ops[0]) && AllAllowed(Apply(s, ops[0]), ops[1..]))
  }

  /** In every reachable state each family is one acyclic chain whose end alone may be active. */
  lemma {:induction false} RunKeepsChains(s: Table, chains: Chains, ops: seq<Op>) returns (after: Chains)
    requires Linked(s, chains) && AllAllowed(s, ops)
    ensures Linked(Run(s, ops), after)
    decreases |ops|
  {
    if ops == [] {
      after := chains;
    } else {
      StepKeepsChains(s, chains, ops[0]);
      after := RunKeepsChains(Apply(s, ops[0]), Extended(s, chains, ops[0]), ops[1..]);
    }
  }

  /** How often the token of session `id` is exchanged for another in a run. */
  function Exchanges(s: Table, ops: seq<Op>, id: Uuid): nat
    decreases |ops|
  {
    if ops == [] then 0
    else
      var first := if ops[0].Rotate? && ops[0].current == id && Rotates(s, id) then 1 else 0;
      first + Exchanges(Apply(s, ops[0]), ops[1..], id)
  }

  lemma {:induction false} RevokedStaysRevoked(s: Table, ops: seq<Op>, id: Uuid)
    requires AllAllowed(s, ops) && id in s && !s[id].Active()
    ensures Exchanges(s, ops, id) == 0
    ensures id in Run(s, ops) && !Run(s, ops)[id].Active()
    decreases |ops|
  {
    if ops != [] {
      RevokedStaysRevoked(Apply(s, ops[0]), ops[1..], id);
    }
  }

  /** Whatever runs in between, a refresh token is exchanged at most once. */
  lemma {:induction false} ExchangedAtMostOnce(s: Table, ops: seq<Op>, id: Uuid)
    requires AllAllowed(s, ops)
    ensures Exchanges(s, ops, id) <= 1
    decreases |ops|
  {
    if ops != [] {
      var t := Apply(s, ops[0]);
      if ops[0].Rotate? && ops[0].current == id && Rotates(s, id) {
        RevokedStaysRevoked(t, ops[1..], id);
      } else {
        ExchangedAtMostOnce(t, ops[1..], id);
      }
    }
  }

  lemma DeadStaysDeadOneStep(s: Table, op: Op, family: Uuid)
    requires Allowed(s, op) && Known(s, family) && Dead(s, family)
    ensures Known(Apply(s, op), family) && Dead(Apply(s, op), family)
  {
    var id :| id in s && s[id].family == family;
    assert Apply(s, op)[id].family == family;
  }

  /** Once a family has no active session it never has one again. */
  lemma {:induction false} DeadStaysDead(s: Table, ops: seq<Op>, family: Uuid)
    requires AllAllowed(s, ops) && Known(s, family) && Dead(s, family)
    ensures Known(Run(s, ops), family) && Dead(Run(s, ops), family)
    decreases |ops|
  {
    if ops != [] {
      DeadStaysDeadOneStep(s, ops[0], family);
      DeadStaysDead(Apply(s, ops[0]), ops[1..], family);
    }
  }

  // ---------------------------------------------------------------- the store

  /** Family `f` has an active session of the user, outside `rest`, that revoking all but `keep` takes away. */
  ghost predicate Loses(s: Table, rest: set<Uuid>, user: Uuid, keep: Uuid, f: Uuid) {
    f != keep && exists id :: id in s && id !in rest && s[id].family == f && s[id].user == user && s[id].Active()
  }

  /** `InMemoryRefreshSessionStore` */
  class SessionStore {
    var sessions: Table
    ghost var chains: Chains

    ghost predicate Valid() reads this {
      Linked(sessions, chains)
    }

    constructor ()
      ensures Valid() && sessions == map[]
    {
      sessions, chains := map[], map[];
    }

    method CreateSession(x: Session)
      requires Valid() && Allowed(sessions, Create(x))
      modifies this
      ensures Valid() && sessions == Apply(old(sessions), Create(x))
    {
      StepKeepsChains(sessions, chains, Create(x));
      chains := Extended(sessions, chains, Create(x));
      sessions := sessions[x.id := x];
    }

    /** A scan for the token; tokens differ, so the order of the scan does not matter. */
    method FindByToken(token: Token) returns (r: Option<Session>)
      requires Valid()
      ensures r.Some? ==> r.value.id in sessions && sessions[r.value.id] == r.value && r.value.token == token
      ensures r.None? ==> forall id :: id in sessions ==> sessions[id].token != token
    {
      LinkedMeans(sessions, chains);
      var rest := sessions.Keys;
      while rest != {}
        invariant rest <= sessions.Keys
        invariant forall id :: id in sessions && id !in rest ==> sessions[id].token != token
      {
        var id :| id in rest;
        if sessions[id].token == token {
          return Some(sessions[id]);
        }
        rest := rest - {id};
      }
      r := None;
    }

    method RotateSession(current: Uuid, replacement: Session, now: Time) returns (ok: bool)
      requires Valid() && Allowed(sessions, Rotate(current, replacement, now))
      modifies this
      ensures Valid() && sessions == Apply(old(sessions), Rotate(current, replacement, now))
      ensures ok == Rotates(old(sessions), current)
      ensures ok ==>
        var used := old(sessions)[current].(revokedAt := Some(now), replacedBy := Some(replacement.id));
        sessions == old(sessions)[current := used][replacement.id := replacement]
    {
      ghost var op := Rotate(current, replacement, now);
      StepKeepsChains(sessions, chains, op);
      chains := Extended(sessions, chains, op);
      if current !in sessions || sessions[current].revokedAt.Some? {
        return false;
      }
      sessions := sessions[current := sessions[current].(revokedAt := Some(now), replacedBy := Some(replacement.id))];
      sessions := sessions[replacement.id := replacement];
      ok := true;
    }

    method RevokeSessionsOf(family: Uuid, now: Time)
      requires Valid()
      modifies this
      ensures Valid() && sessions == Apply(old(sessions), RevokeFamily(family, now))
      ensures sessions.Keys == old(sessions).Keys && Dead(sessions, family)
      ensures forall id :: id in sessions ==>
        var x := old(sessions)[id];
        sessions[id] == if x.family == family && x.revokedAt.None? then x.(revokedAt := Some(now)) else x
    {
      ghost var before := sessions;
      MarkFamily(family, now);
      StepKeepsChains(before, chains, RevokeFamily(family, now));
    }

    method MarkFamily(family: Uuid, now: Time)
      modifies this`sessions
      ensures sessions == Apply(old(sessions), RevokeFamily(family, now))
    {
      ghost var op := RevokeFamily(family, now);
      var rest := sessions.Keys;
      while rest != {}
        invariant rest <= sessions.Keys == old(sessions).Keys
        invariant forall id :: id in rest ==> sessions[id] == old(sessions)[id]
        invariant forall id :: id in sessions && id !in rest ==> sessions[id] == Apply(old(sessions), op)[id]
      {
        var id :| id in rest;
        if sessions[id].family == family && sessions[id].revokedAt.None? {
          sessions := sessions[id := sessions[id].(revokedAt := Some(now))];
        }
        rest := rest - {id};
      }
    }

    method RevokeUserSessions(user: Uuid, keep: Uuid, now: Time) returns (families: set<Uuid>)
      requires Valid()
      modifies this
      ensures Valid() && sessions == Apply(old(sessions), RevokeUser(user, keep, now))
      ensures sessions.Keys == old(sessions).Keys && forall id :: id in sessions ==>
        var x := old(sessions)[id];
        sessions[id] ==
          if x.user == user && x.family != keep && x.revokedAt.None? then x.(revokedAt := Some(now)) else x
      ensures forall f :: f in families <==> Loses(old(sessions), {}, user, keep, f)
    {
      ghost var before := sessions;
      families := MarkUser(user, keep, now);
      StepKeepsChains(before, chains, RevokeUser(user, keep, now));
    }

    method MarkUser(user: Uuid, keep: Uuid, now: Time) returns (families: set<Uuid>)
      modifies this`sessions
      ensures sessions == Apply(old(sessions), RevokeUser(user, keep, now))
      ensures forall f :: f in families <==> Loses(old(sessions), {}, user, keep, f)
    {
      ghost var op := RevokeUser(user, keep, now);
      var rest := sessions.Keys;
      families := {};
      while rest != {}
        invariant rest <= sessions.Keys == old(sessions).Keys
        invariant forall id :: id in rest ==> sessions[id] == old(sessions)[id]
        invariant forall id :: id in sessions && id !in rest ==> sessions[id] == Apply(old(sessions), op)[id]
        invariant forall f :: f in families <==> Loses(old(sessions), rest, user, keep, f)
      {
        var id :| id in rest;
        if sessions[id].user == user && sessions[id].family != keep && sessions[id].revokedAt.None? {
          families := families + {sessions[id].family};
          sessions := sessions[id := sessions[id].(revokedAt := Some(now))];
        }
        rest := rest - {id};
      }
    }
  }
}
