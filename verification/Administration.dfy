/** Moderation: each accepted action changes its target and appends one audit row. */
module Administration {
  import opened Wrappers
  import opened Domain
  import opened Sessions
  import opened Users
  import opened Listings
  import opened AuthServices
  import Rules

  class AdminActionRepository {
    const db: Session

    constructor (db: Session)
      ensures this.db == db
    {
      this.db := db;
    }

    method Create(admin: UserId, action: Action, target: nat, reason: Option<string>) returns (r: Outcome<()>)
      modifies db
      ensures db.committed == old(db.committed) && !r.Raised?
      ensures db.CrashedIffRefused(old(db.statements), r.Crashed?)
      ensures r.Ok? ==> db.pending == Rules.Audited(old(db.pending), admin, action, target, reason)
    {
      db.pending := db.pending.(audit := db.pending.audit + [AuditRow(admin, action, target, reason)]);
      r := db.Flush();
    }
  }

  class AdminService {
    const db: Session
    const users: UserService
    const listings: ListingService
    const auth: AuthService
    const adminActions: AdminActionRepository

    ghost predicate Wired()
      reads {}
    {
      && users.db == db && users.Wired()
      && listings.db == db && listings.Wired()
      && auth.db == db && auth.Wired()
      && adminActions.db == db
    }

    constructor (db: Session, storage: StorageBackend)
      ensures this.db == db && Wired()
    {
      this.db := db;
      var users := new UserService(db);
      var listings := new ListingService(db, storage);
      var auth := new AuthService(db);
      var actions := new AdminActionRepository(db);
      this.users, this.listings, this.auth, this.adminActions := users, listings, auth, actions;
    }

    /** `UserService.Suspend` may raise, so it comes before either of the other writes. */
    method SuspendUser(admin: UserId, target: UserId, reason: string) returns (r: Outcome<Rules.Reply>)
      requires Wired()
      modifies db
      ensures db.committed == old(db.committed)
      ensures db.CrashedIffRefused(old(db.statements), r.Crashed?)
      ensures r.Crashed? || Rules.Effect(r, db.pending) == Rules.Suspend(old(db.pending), admin, target, reason)
    {
      if target !in db.pending.users { return Raised(NotFound); }
      var _ :- users.Suspend(target);
      var _ :- auth.RevokeAllTokensForUser(target);
      var _ :- adminActions.Create(admin, Action.SuspendUser, target, Some(reason));
      r := Ok(Rules.NoContent);
    }

    method ReinstateUser(admin: UserId, target: UserId) returns (r: Outcome<Rules.Reply>)
      requires Wired()
      modifies db
      ensures db.committed == old(db.committed)
      ensures db.CrashedIffRefused(old(db.statements), r.Crashed?)
      ensures r.Crashed? || Rules.Effect(r, db.pending) == Rules.Reinstate(old(db.pending), admin, target)
    {
      if target !in db.pending.users { return Raised(NotFound); }
      var _ :- users.Reinstate(target);
      var _ :- adminActions.Create(admin, Action.ReinstateUser, target, None);
      r := Ok(Rules.NoContent);
    }

    method ResetPassword(env: Rules.Env, admin: UserId, target: UserId) returns (r: Outcome<Rules.Reply>)
      requires Wired()
      modifies db
      ensures db.committed == old(db.committed)
      ensures db.CrashedIffRefused(old(db.statements), r.Crashed?)
      ensures r.Crashed? || Rules.Effect(r, db.pending) == Rules.Reset(old(db.pending), env, admin, target)
    {
      if target !in db.pending.users { return Raised(NotFound); }
      var temporary :- users.ResetPassword(env, target);
      var _ :- adminActions.Create(admin, Action.ResetPassword, target, None);
      r := Ok(Rules.TemporaryPassword(temporary));
    }

    method RemoveListing(env: Rules.Env, admin: UserId, l: ListingId, reason: string) returns (r: Outcome<Rules.Reply>)
      requires Wired()
      modifies db
      ensures db.committed == old(db.committed)
      ensures db.CrashedIffRefused(old(db.statements), r.Crashed?)
      ensures r.Crashed? || Rules.Effect(r, db.pending) == Rules.Remove(old(db.pending), env, admin, l, reason)
    {
      var transitioned :- listings.AdminRemove(env, l);
      if transitioned {
        var _ :- adminActions.Create(admin, Action.RemoveListing, l, Some(reason));
      }
      r := Ok(Rules.NoContent);
    }
  }
}
