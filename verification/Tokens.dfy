/** Access tokens: claims, their payload with whole seconds, and the expiry test. */
module Tokens {
  import opened Wrappers
  import opened Clocks
  import opened Sessions

  datatype Role = UserRole | AdminRole

  datatype Claims = Claims(
    user: Uuid, role: Role, jti: Uuid, session: Uuid, family: Uuid, issuedAt: Time, expiresAt: Time)

  /** The signed payload; `iat` and `exp` are whole seconds. */
  datatype Payload = Payload(sub: Uuid, role: Role, jti: Uuid, sid: Uuid, fid: Uuid, iat: int, exp: int)

  /** What the signature check makes of a presented string: nothing, or a payload signed by this service. */
  type AccessToken = Option<Payload>

  /** The time without its fraction of a second. */
  function WholeSecond(t: Time): (r: Time)
    ensures r <= t < r + SECOND && r % SECOND == 0
  {
    t - t % SECOND
  }

  function NewClaims(user: Uuid, role: Role, jti: Uuid, session: Uuid, family: Uuid, now: Time, ttl: nat): Claims {
    Claims(user, role, jti, session, family, WholeSecond(now), WholeSecond(now) + ttl * SECOND)
  }

  function Encode(c: Claims): AccessToken {
    Some(Payload(c.user, c.role, c.jti, c.session, c.family, c.issuedAt / SECOND, c.expiresAt / SECOND))
  }

  function ClaimsOf(p: Payload): Claims {
    Claims(p.sub, p.role, p.jti, p.sid, p.fid, p.iat * SECOND, p.exp * SECOND)
  }

  /** `decode_access`: nothing for a token that is not signed by us or has expired at `now`. */
  function Decode(token: AccessToken, now: Time): Option<Claims> {
    if token.Some? && ClaimsOf(token.value).expiresAt > now then Some(ClaimsOf(token.value)) else None
  }

  /**
   * Truncation loses nothing of a token's own times, and it is valid from its second for `ttl` seconds, never longer.
   */
  lemma DecodeUndoesEncode(
    c: Claims, user: Uuid, role: Role, jti: Uuid, session: Uuid, family: Uuid, now: Time, ttl: nat, t: Time)
    requires c == NewClaims(user, role, jti, session, family, now, ttl)
    ensures Decode(Encode(c), t) == if t < WholeSecond(now) + ttl * SECOND then Some(c) else None
    ensures Decode(Encode(c), t).Some? ==> t < now + ttl * SECOND
    ensures ttl > 0 ==> Decode(Encode(c), now) == Some(c)
  {
    assert c.expiresAt % SECOND == 0;
  }
}
