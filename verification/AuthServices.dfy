/** Registration, login, rotation and logout, one statement at a time. */
module AuthServices {
  import opened Wrappers
  import opened Domain
  import opened AccessTokens
  import opened Sessions
  import opened Users
  import Rules
  import RefreshTokens

  class RefreshTokenRepository {
    const db: Session

    constructor (db: Session)
      ensures this.db == db
    {
      this.db := db;
    }

    method Create(u: UserId, h: TokenHash, f: FamilyId, expiresAt: Time) returns (r: Outcome<()>)
      modifies db
      ensures db.committed == old(db.committed) && !r.Raised?
      ensures db.CrashedIffRefused(old(db.statements), r.Crashed?)
      ensures r.Ok? ==> db.pending == old(db.pending).(
        tokens := RefreshTokens.Created(old(db.pending.tokens), h, RefreshToken(u, f, false, expiresAt)))
    {
      var token := RefreshToken(u, f, false, expiresAt);
      db.pending := db.pending.(tokens := db.pending.tokens[h := token]);
      r := db.Flush();
    }

    method GetByHash(h: TokenHash) returns (r: Option<RefreshToken>)
      ensures r == if h in db.pending.tokens then Some(db.pending.tokens[h]) else None
    {
      r := if h in db.pending.tokens then Some(db.pending.tokens[h]) else None;
    }

    method Revoke(h: TokenHash) returns (r: Outcome<()>)
      requires h in db.pending.tokens
      modifies db
      ensures db.committed == old(db.committed) && !r.Raised?
      ensures db.CrashedIffRefused(old(db.statements), r.Crashed?)
      ensures r.Ok? ==> db.pending == old(db.pending).(tokens := RefreshTokens.Revoked(old(db.pending.tokens), h))
    {
      db.pending := db.pending.(tokens := db.pending.tokens[h := db.pending.tokens[h].(revoked := true)]);
      r := db.Flush();
    }

    method RevokeFamily(f: FamilyId) returns (r: Outcome<()>)
      modifies db
      ensures db.committed == old(db.committed) && !r.Raised?
      ensures db.CrashedIffRefused(old(db.statements), r.Crashed?)
      ensures r.Ok? ==> db.pending == old(db.pending).(tokens := db.pending.tokens)
      ensures r.Ok? ==> db.pending.tokens.Keys == old(db.pending.tokens).Keys
      ensures r.Ok? ==> forall h :: h in old(db.pending.tokens) ==>
        var before, after := old(db.pending.tokens)[h], db.pending.tokens[h];
        if before.familyId == f then after.revoked && after == before.(revoked := true) else after == before
    {
      db.pending := db.pending.(tokens := RefreshTokens.FamilyRevoked(db.pending.tokens, f));
      r := db.Flush();
    }

    method RevokeAllForUser(u: UserId) returns (r: Outcome<()>)
      modifies db
      ensures db.committed == old(db.committed) && !r.Raised?
      ensures db.CrashedIffRefused(old(db.statements), r.Crashed?)
      ensures r.Ok? ==> db.pending == old(db.pending).(tokens := db.pending.tokens)
      ensures r.Ok? ==> db.pending.tokens.Keys == old(db.pending.tokens).Keys
      ensures r.Ok? ==> forall h :: h in old(db.pending.tokens) ==>
        var before, after := old(db.pending.tokens)[h], db.pending.tokens[h];
        if before.userId == u then after.revoked && after == before.(revoked := true) else after == before
    {
      db.pending := db.pending.(tokens := RefreshTokens.UserRevoked(db.pending.tokens, u));
      r := db.Flush();
    }
  }

  class AuthService {
    const db: Session
    const users: UserService
    const refreshTokens: RefreshTokenRepository

    ghost predicate Wired()
      reads {}
    {
      users.db == db && refreshTokens.db == db && users.Wired()
    }

    constructor (db: Session)
      ensures this.db == db && Wired()
    {
      this.db := db;
      var users := new UserService(db);
      var tokens := new RefreshTokenRepository(db);
      this.users, this.refreshTokens := users, tokens;
    }

    method Register(env: Rules.Env, email: Email, password: string, displayName: string)
      returns (r: Outcome<Rules.Reply>)
      requires Wired() && db.pending == db.committed
      modifies db
      ensures db.committed == old(db.committed)
      ensures db.CrashedIffRefused(old(db.statements), r.Crashed?)
      ensures r.Crashed? ||
        Rules.Effect(r, db.pending) == Rules.RegisterUser(old(db.pending), env, email, password, displayName)
    {
      if Rules.ByEmail(db.pending, env.settings.fold(email)).Some? { return Raised(ValidationFailed); }
      var u :- users.CreateUser(env, email, Argon2(password), displayName);
      r := Ok(Rules.UserCreated(u));
    }

    method Login(env: Rules.Env, email: Email, password: string) returns (r: Outcome<Rules.Reply>)
      requires Wired()
      modifies db
      ensures db.committed == old(db.committed)
      ensures db.CrashedIffRefused(old(db.statements), r.Crashed?)
      ensures r.Crashed? || Rules.Effect(r, db.pending) == Rules.LoginUser(old(db.pending), env, email, password)
    {
      var user := Rules.ByEmail(db.pending, env.settings.fold(email));
      if user.None? || !VerifyPassword(password, db.pending.users[user.value].password) {
        return Raised(InvalidCredentials);
      }
      if !db.pending.users[user.value].isActive { return Raised(InvalidCredentials); }
      r := IssueTokenPair(env, user.value, env.minted.family);
    }

    method Refresh(env: Rules.Env, presented: TokenHash) returns (r: Outcome<Rules.Reply>)
      requires Wired()
      modifies db
      ensures db.committed == old(db.committed)
      ensures db.CrashedIffRefused(old(db.statements), r.Crashed?)
      ensures r.Crashed? || Rules.Effect(r, db.pending) == Rules.RefreshPair(old(db.pending), env, Some(presented))
    {
      var found := refreshTokens.GetByHash(presented);
      if found.None? || found.value.expiresAt < env.now { return Raised(InvalidRefreshToken); }
      var stored := found.value;
      if stored.revoked {
        var _ :- refreshTokens.RevokeFamily(stored.familyId);
        assert db.pending.tokens == RefreshTokens.FamilyRevoked(old(db.pending.tokens), stored.familyId);
        return Raised(InvalidRefreshToken);
      }
      var _ :- refreshTokens.Revoke(presented);
      r := IssueTokenPair(env, stored.userId, stored.familyId);
    }

    method Logout(presented: TokenHash) returns (r: Outcome<Rules.Reply>)
      requires Wired()
      modifies db
      ensures db.committed == old(db.committed)
      ensures db.CrashedIffRefused(old(db.statements), r.Crashed?)
      ensures r.Crashed? || Rules.Effect(r, db.pending) == Rules.LogoutToken(old(db.pending), Some(presented))
    {
      var stored := refreshTokens.GetByHash(presented);
      if stored.Some? && !stored.value.revoked {
        var _ :- refreshTokens.Revoke(presented);
      }
      r := Ok(Rules.NoContent);
    }

    method RevokeAllTokensForUser(u: UserId) returns (r: Outcome<()>)
      requires Wired()
      modifies db
      ensures db.committed == old(db.committed) && !r.Raised?
      ensures db.CrashedIffRefused(old(db.statements), r.Crashed?)
      ensures r.Ok? ==> db.pending == old(db.pending).(tokens := RefreshTokens.UserRevoked(old(db.pending.tokens), u))
    {
      r := refreshTokens.RevokeAllForUser(u);
      assert r.Ok? ==> db.pending.tokens == RefreshTokens.UserRevoked(old(db.pending.tokens), u);
    }

    method IssueTokenPair(env: Rules.Env, u: UserId, f: FamilyId) returns (r: Outcome<Rules.Reply>)
      requires Wired()
      modifies db
      ensures db.committed == old(db.committed)
      ensures db.CrashedIffRefused(old(db.statements), r.Crashed?)
      ensures r.Crashed? || Rules.Effect(r, db.pending) == Rules.Issued(old(db.pending), env, u,
        RefreshTokens.Created(old(db.pending.tokens), env.minted.token,
          RefreshToken(u, f, false, env.now + env.settings.refreshTtl)))
    {
      var access := AccessTokens.Create(u, env.now, env.settings.accessTtl);
      var _ :- refreshTokens.Create(u, env.minted.token, f, env.now + env.settings.refreshTtl);
      r := Ok(Rules.TokenPair(access, env.minted.token));
    }
  }
}
