/** The refresh-token table: what each repository statement does to it, what one
    serial `refresh` request does to it, and the invariants of the family discipline
    (section 5.2.2.3 of RFC 6819). */
module RefreshTokens {
  import opened Wrappers
  import opened Domain

  function Created(t: TokenTable, h: TokenHash, row: RefreshToken): TokenTable {
    t[h := row]
  }

  function Revoked(t: TokenTable, h: TokenHash): TokenTable
    requires h in t
  {
    t[h := t[h].(revoked := true)]
  }

  function FamilyRevoked(t: TokenTable, f: FamilyId): TokenTable {
    map h | h in t :: if t[h].familyId == f then t[h].(revoked := true) else t[h]
  }

  function UserRevoked(t: TokenTable, u: UserId): TokenTable {
    map h | h in t :: if t[h].userId == u && !t[h].revoked then t[h].(revoked := true) else t[h]
  }

  // ---- one serial refresh ----

  predicate Unusable(t: TokenTable, h: TokenHash, now: Time) {
    h !in t || t[h].expiresAt < now
  }

  /** The branch that treats the request as evidence of theft. */
  predicate IsReuse(t: TokenTable, h: TokenHash, now: Time) {
    !Unusable(t, h, now) && t[h].revoked
  }

  datatype Rotation = Rotation(owner: Option<UserId>, table: TokenTable)

  /** `owner` is the user a new pair is issued to, if the token is accepted. */
  function Refresh(t: TokenTable, presented: TokenHash, now: Time, minted: TokenHash, ttl: nat): Rotation {
    if Unusable(t, presented, now) then
      Rotation(None, t)
    else if t[presented].revoked then
      Rotation(None, FamilyRevoked(t, t[presented].familyId))
    else
      var stored := t[presented];
      Rotation(
        Some(stored.userId),
        Created(Revoked(t, presented), minted, RefreshToken(stored.userId, stored.familyId, false, now + ttl)))
  }

  // ---- invariants ----

  predicate Live(t: TokenTable, h: TokenHash) {
    h in t && !t[h].revoked
  }

  /** Every token of a family belongs to the same user. */
  ghost predicate OneUserPerFamily(t: TokenTable) {
    forall g, h :: g in t && h in t && t[g].familyId == t[h].familyId ==> t[g].userId == t[h].userId
  }

  /** A family has at most one unrevoked token. */
  ghost predicate OneLivePerFamily(t: TokenTable) {
    forall g, h :: Live(t, g) && Live(t, h) && t[g].familyId == t[h].familyId ==> g == h
  }

  ghost predicate Disciplined(t: TokenTable) {
    OneUserPerFamily(t) && OneLivePerFamily(t)
  }

  /** No token of the family is unrevoked. */
  ghost predicate FamilyDead(t: TokenTable, f: FamilyId) {
    forall h :: h in t && t[h].familyId == f ==> t[h].revoked
  }

  /** No token of the user is unrevoked. */
  ghost predicate UserDead(t: TokenTable, u: UserId) {
    forall h :: h in t && t[h].userId == u ==> t[h].revoked
  }

  ghost predicate UnusedFamily(t: TokenTable, f: FamilyId) {
    forall h :: h in t ==> t[h].familyId != f
  }

  /** Rows are never dropped and keep their family, user and expiry; revocation is for ever. */
  ghost predicate OnlyRevokes(t: TokenTable, t2: TokenTable) {
    forall h :: h in t ==> h in t2 && (t2[h] == t[h] || t2[h] == t[h].(revoked := true))
  }
}
