/** Access tokens: a signed payload with an expiry in whole seconds (section 4.1.4 of RFC 7519). */
module AccessTokens {
  import opened Wrappers
  import opened Domain

  /** `iat` and `exp` are NumericDates: whole seconds, truncated from the clock. */
  datatype AccessToken = AccessToken(sub: UserId, iat: nat, exp: nat)

  function Create(u: UserId, now: Time, ttl: nat): AccessToken {
    AccessToken(u, now / SECOND, (now + ttl) / SECOND)
  }

  /** The signature check is idealised: it accepts exactly the tokens the server has issued. A token is
      not yet valid before its `iat`, and no longer valid from its `exp` on. */
  function Decode(token: AccessToken, issued: set<AccessToken>, now: Time): Option<UserId> {
    if token in issued && token.iat * SECOND <= now < token.exp * SECOND then Some(token.sub) else None
  }

  /** A token never outlives its nominal lifetime, and truncation costs it less than one second. */
  lemma ExpiryWindow(u: UserId, now: Time, ttl: nat, at: Time, issued: set<AccessToken>)
    requires Create(u, now, ttl) in issued
    ensures now <= at && at + SECOND <= now + ttl ==> Decode(Create(u, now, ttl), issued, at) == Some(u)
    ensures now + ttl <= at ==> Decode(Create(u, now, ttl), issued, at) == None
  {
  }
}
