/** Accounts: creation, profile, passwords, suspension. */
module Users {
  import opened Wrappers
  import opened Domain
  import opened Sessions
  import Rules

  class UserRepository {
    const db: Session

    constructor (db: Session)
      ensures this.db == db
    {
      this.db := db;
    }

    /** The unique index decides: a doomed insert rolls the session back and reports the duplicate. */
    method Create(env: Rules.Env, email: Email, hash: PasswordHash, displayName: string)
      returns (r: Outcome<UserId>)
      modifies db
      ensures db.committed == old(db.committed)
      ensures db.CrashedIffRefused(old(db.statements), r.Crashed?)
      ensures r.Raised? ==>
        && r == Raised(ValidationFailed) && db.pending == db.committed
        && (env.settings.fold(email) in old(db.pending).emails || env.raced)
      ensures env.settings.fold(email) in old(db.pending).emails || env.raced ==> r.Raised?
      ensures r.Ok? ==>
        && r.value == env.minted.user && env.settings.fold(email) !in old(db.pending).emails && !env.raced
        && db.pending == old(db.pending).(
          users := old(db.pending).users[r.value := User(hash, displayName, RegularUser, true, false)],
          emails := old(db.pending).emails[env.settings.fold(email) := r.value])
    {
      var id := env.minted.user;
      var key := env.settings.fold(email);
      var duplicate := key in db.pending.emails || env.raced;
      db.pending := db.pending.(
        users := db.pending.users[id := User(hash, displayName, RegularUser, true, false)],
        emails := db.pending.emails[key := id]);
      if duplicate {
        db.Rollback();
        return Raised(ValidationFailed);
      }
      var _ :- db.Flush();
      r := Ok(id);
    }

    /** Every other primitive assigns fields of one row and flushes. */
    method Save(u: UserId, row: User) returns (r: Outcome<()>)
      modifies db
      ensures db.committed == old(db.committed) && !r.Raised?
      ensures db.CrashedIffRefused(old(db.statements), r.Crashed?)
      ensures r.Ok? ==> db.pending == Rules.WithUser(old(db.pending), u, row)
    {
      db.pending := db.pending.(users := db.pending.users[u := row]);
      r := db.Flush();
    }

    method UpdateDisplayName(u: UserId, name: string) returns (r: Outcome<()>)
      requires u in db.pending.users
      modifies db
      ensures db.committed == old(db.committed) && !r.Raised?
      ensures db.CrashedIffRefused(old(db.statements), r.Crashed?)
      ensures r.Ok? ==> db.pending == Rules.WithUser(old(db.pending), u, old(db.pending).users[u].(displayName := name))
    {
      r := Save(u, db.pending.users[u].(displayName := name));
    }

    method SetPassword(u: UserId, hash: PasswordHash) returns (r: Outcome<()>)
      requires u in db.pending.users
      modifies db
      ensures db.committed == old(db.committed) && !r.Raised?
      ensures db.CrashedIffRefused(old(db.statements), r.Crashed?)
      ensures r.Ok? ==> db.pending == Rules.WithUser(
        old(db.pending), u, old(db.pending).users[u].(password := hash, mustChangePassword := false))
    {
      r := Save(u, db.pending.users[u].(password := hash, mustChangePassword := false));
    }

    method SetTemporaryPassword(u: UserId, hash: PasswordHash) returns (r: Outcome<()>)
      requires u in db.pending.users
      modifies db
      ensures db.committed == old(db.committed) && !r.Raised?
      ensures db.CrashedIffRefused(old(db.statements), r.Crashed?)
      ensures r.Ok? ==> db.pending == Rules.WithUser(
        old(db.pending), u, old(db.pending).users[u].(password := hash, mustChangePassword := true))
    {
      r := Save(u, db.pending.users[u].(password := hash, mustChangePassword := true));
    }

    /** `suspend` and `reinstate`, which differ only in the value assigned. */
    method SetActive(u: UserId, active: bool) returns (r: Outcome<()>)
      requires u in db.pending.users
      modifies db
      ensures db.committed == old(db.committed) && !r.Raised?
      ensures db.CrashedIffRefused(old(db.statements), r.Crashed?)
      ensures r.Ok? ==> db.pending == Rules.WithUser(old(db.pending), u, old(db.pending).users[u].(isActive := active))
    {
      r := Save(u, db.pending.users[u].(isActive := active));
    }
  }

  class UserService {
    const db: Session
    const repository: UserRepository

    ghost predicate Wired()
      reads {}
    {
      repository.db == db
    }

    constructor (db: Session)
      ensures this.db == db && Wired()
    {
      this.db := db;
      var repository := new UserRepository(db);
      this.repository := repository;
    }

    method CreateUser(env: Rules.Env, email: Email, hash: PasswordHash, displayName: string)
      returns (r: Outcome<UserId>)
      requires Wired()
      modifies db
      ensures db.committed == old(db.committed)
      ensures db.CrashedIffRefused(old(db.statements), r.Crashed?)
      ensures r.Raised? ==>
        && r == Raised(ValidationFailed) && db.pending == db.committed
        && (env.settings.fold(email) in old(db.pending).emails || env.raced)
      ensures env.settings.fold(email) in old(db.pending).emails || env.raced ==> r.Raised?
      ensures r.Ok? ==>
        && r.value == env.minted.user && env.settings.fold(email) !in old(db.pending).emails && !env.raced
        && db.pending == old(db.pending).(
          users := old(db.pending).users[r.value := User(hash, displayName, RegularUser, true, false)],
          emails := old(db.pending).emails[env.settings.fold(email) := r.value])
    {
      r := repository.Create(env, email, hash, displayName);
    }

    method ChangePassword(u: UserId, current: string, replacement: string) returns (r: Outcome<Rules.Reply>)
      requires Wired() && u in db.pending.users
      modifies db
      ensures db.committed == old(db.committed)
      ensures db.CrashedIffRefused(old(db.statements), r.Crashed?)
      ensures r.Crashed? ||
        Rules.Effect(r, db.pending) == Rules.ChangeOwnPassword(old(db.pending), u, current, replacement)
    {
      if !VerifyPassword(current, db.pending.users[u].password) { return Raised(ValidationFailed); }
      var _ :- repository.SetPassword(u, Argon2(replacement));
      r := Ok(Rules.NoContent);
    }

    method Suspend(target: UserId) returns (r: Outcome<()>)
      requires Wired() && target in db.pending.users
      modifies db
      ensures db.committed == old(db.committed)
      ensures db.CrashedIffRefused(old(db.statements), r.Crashed?)
      ensures r.Raised? ==> db.pending == old(db.pending) && r == Raised(
        if db.pending.users[target].role == Admin then Forbidden else Conflict)
      ensures r.Raised? ==> db.pending.users[target].role == Admin || !db.pending.users[target].isActive
      ensures r.Ok? ==>
        && old(db.pending).users[target].role != Admin && old(db.pending).users[target].isActive
        && db.pending == Rules.WithUser(old(db.pending), target, old(db.pending).users[target].(isActive := false))
    {
      if db.pending.users[target].role == Admin { return Raised(Forbidden); }
      if !db.pending.users[target].isActive { return Raised(Conflict); }
      r := repository.SetActive(target, false);
    }

    method Reinstate(target: UserId) returns (r: Outcome<()>)
      requires Wired() && target in db.pending.users
      modifies db
      ensures db.committed == old(db.committed)
      ensures db.CrashedIffRefused(old(db.statements), r.Crashed?)
      ensures r.Raised? ==> db.pending == old(db.pending) && r == Raised(
        if db.pending.users[target].role == Admin then Forbidden else Conflict)
      ensures r.Raised? ==> db.pending.users[target].role == Admin || db.pending.users[target].isActive
      ensures r.Ok? ==>
        && old(db.pending).users[target].role != Admin && !old(db.pending).users[target].isActive
        && db.pending == Rules.WithUser(old(db.pending), target, old(db.pending).users[target].(isActive := true))
    {
      if db.pending.users[target].role == Admin { return Raised(Forbidden); }
      if db.pending.users[target].isActive { return Raised(Conflict); }
      r := repository.SetActive(target, true);
    }

    method ResetPassword(env: Rules.Env, target: UserId) returns (r: Outcome<string>)
      requires Wired() && target in db.pending.users
      modifies db
      ensures db.committed == old(db.committed)
      ensures db.CrashedIffRefused(old(db.statements), r.Crashed?)
      ensures r.Raised? ==>
        db.pending == old(db.pending) && r == Raised(Forbidden) && db.pending.users[target].role == Admin
      ensures r.Ok? ==>
        && r.value == env.minted.password && old(db.pending).users[target].role != Admin
        && db.pending == Rules.WithUser(old(db.pending), target,
             old(db.pending).users[target].(password := Argon2(r.value), mustChangePassword := true))
    {
      if db.pending.users[target].role == Admin { return Raised(Forbidden); }
      var temporary := env.minted.password;
      var _ :- repository.SetTemporaryPassword(target, Argon2(temporary));
      r := Ok(temporary);
    }
  }
}
