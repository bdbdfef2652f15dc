/** Who an account is, and who may change what, over whole serial runs. */
module Accounts {
  import opened Wrappers
  import opened Domain
  import opened Rules
  import opened Runs
  import opened Effects
  import ForcedPasswordChange

  // ---- roles ----

  /** Nobody's role ever changes, nobody disappears, and nobody registers as an admin. */
  ghost predicate RolesKept(users: map<UserId, User>, users2: map<UserId, User>) {
    && (forall u :: u in users ==> u in users2 && users2[u].role == users[u].role)
    && (forall u :: u in users2 && u !in users ==> users2[u].role == RegularUser)
  }

  lemma StepKeepsRoles(s: Settings, w: World, e: Event)
    requires Possible(w, e)
    ensures RolesKept(w.db.users, Step(s, w, e).db.users)
  {
    hide Step, Answer;
    UsersAreThose(s, w, e);
  }

  lemma {:induction false} RolesAreFixed(s: Settings, w: World, es: seq<Event>)
    requires ValidRun(s, w, es)
    ensures RolesKept(w.db.users, Run(s, w, es).db.users)
  {
    hide Step;
    if es != [] {
      RolesAreFixed(s, w, es[..|es| - 1]);
      StepKeepsRoles(s, Run(s, w, es[..|es| - 1]), es[|es| - 1]);
    }
  }

  // ---- one account per email ----

  /** Every email names an account, every account has an email, and no two emails name the same account. */
  ghost predicate OneAccountPerEmail(users: map<UserId, User>, emails: map<EmailKey, UserId>) {
    && (forall x :: x in emails ==> emails[x] in users)
    && (forall x, y :: x in emails && y in emails && emails[x] == emails[y] ==> x == y)
    && (forall u :: u in users ==> u in emails.Values)
  }

  lemma AccountAdded(
    users: map<UserId, User>, users2: map<UserId, User>, emails: map<EmailKey, UserId>, x: EmailKey, u: UserId)
    requires OneAccountPerEmail(users, emails)
    requires x !in emails && u !in users && users2.Keys == users.Keys + {u}
    ensures OneAccountPerEmail(users2, emails[x := u])
  {
    var emails2 := emails[x := u];
    forall v | v in users2 ensures v in emails2.Values {
      if v == u {
        assert emails2[x] == u;
      } else {
        var y :| y in emails && emails[y] == v;
        assert emails2[y] == v;
      }
    }
  }

  /** A registered email goes on naming the same account. */
  ghost predicate EmailsKept(emails: map<EmailKey, UserId>, emails2: map<EmailKey, UserId>) {
    forall x :: x in emails ==> x in emails2 && emails2[x] == emails[x]
  }

  lemma StepKeepsAccounts(s: Settings, w: World, e: Event)
    requires Possible(w, e) && OneAccountPerEmail(w.db.users, w.db.emails)
    ensures OneAccountPerEmail(Step(s, w, e).db.users, Step(s, w, e).db.emails)
    ensures EmailsKept(w.db.emails, Step(s, w, e).db.emails)
  {
    hide Step, Answer;
    UsersAreThose(s, w, e);
    EmailsAfter(s, w, e);
    if e.req.Register? && Answer(s, w, e).Ok? {
      AccountAdded(w.db.users, Step(s, w, e).db.users, w.db.emails, s.fold(e.req.email), e.minted.user);
    } else {
      assert Step(s, w, e).db.users.Keys == w.db.users.Keys;
    }
  }

  lemma {:induction false} EmailsAreForever(s: Settings, w: World, es: seq<Event>)
    requires ValidRun(s, w, es) && OneAccountPerEmail(w.db.users, w.db.emails)
    ensures OneAccountPerEmail(Run(s, w, es).db.users, Run(s, w, es).db.emails)
    ensures EmailsKept(w.db.emails, Run(s, w, es).db.emails)
  {
    hide Step, OneAccountPerEmail;
    if es != [] {
      EmailsAreForever(s, w, es[..|es| - 1]);
      StepKeepsAccounts(s, Run(s, w, es[..|es| - 1]), es[|es| - 1]);
    }
  }

  lemma ReachableAccounts(s: Settings, w: World)
    requires Reachable(s, w)
    ensures OneAccountPerEmail(w.db.users, w.db.emails)
  {
    hide Step, Run, ValidRun;
    var start, es :| Genesis(start) && ValidRun(s, start, es) && w == Run(s, start, es);
    EmailsAreForever(s, start, es);
  }

  // ---- owners ----

  ghost predicate OwnersExist(users: map<UserId, User>, listings: map<ListingId, Listing>) {
    forall l :: l in listings ==> listings[l].ownerId in users
  }

  lemma StepKeepsOwners(s: Settings, w: World, e: Event)
    requires Possible(w, e) && OwnersExist(w.db.users, w.db.listings)
    ensures OwnersExist(Step(s, w, e).db.users, Step(s, w, e).db.listings)
  {
    hide Step, Answer, RolesKept;
    StepKeepsRoles(s, w, e);
    ListingsAreThose(s, w, e);
    assert w.db.users.Keys <= Step(s, w, e).db.users.Keys by { UsersAreThose(s, w, e); }
  }

  lemma {:induction false} RunKeepsOwners(s: Settings, w: World, es: seq<Event>)
    requires ValidRun(s, w, es) && OwnersExist(w.db.users, w.db.listings)
    ensures OwnersExist(Run(s, w, es).db.users, Run(s, w, es).db.listings)
  {
    hide Step, OwnersExist;
    if es != [] {
      RunKeepsOwners(s, w, es[..|es| - 1]);
      StepKeepsOwners(s, Run(s, w, es[..|es| - 1]), es[|es| - 1]);
    }
  }

  /** In every reachable state each listing's owner is an account. */
  lemma ReachableOwners(s: Settings, w: World)
    requires Reachable(s, w)
    ensures OwnersExist(w.db.users, w.db.listings)
  {
    var start, es :| Genesis(start) && ValidRun(s, start, es) && w == Run(s, start, es);
    RunKeepsOwners(s, start, es);
  }

  // ---- which password logs in ----

  /** The password an account was last given over a run, by a change of its own or by a reset, having
      begun with `initial`. */
  function PasswordInForce(s: Settings, w: World, es: seq<Event>, u: UserId, initial: string): string {
    if es == [] then initial
    else
      var init, last := es[..|es| - 1], es[|es| - 1];
      if ForcedPasswordChange.Changes(s, Run(s, w, init), last, u) then last.req.replacement
      else if ForcedPasswordChange.Resets(s, Run(s, w, init), last, u) then last.minted.password
      else PasswordInForce(s, w, init, u, initial)
  }

  ghost predicate HasPassword(w: World, u: UserId, password: string) {
    u in w.db.users && w.db.users[u].password == Argon2(password)
  }

  lemma StepKeepsPassword(s: Settings, w: World, e: Event, u: UserId, password: string)
    requires Possible(w, e) && HasPassword(w, u, password)
    ensures HasPassword(Step(s, w, e), u,
      if ForcedPasswordChange.Changes(s, w, e, u) then e.req.replacement
      else if ForcedPasswordChange.Resets(s, w, e, u) then e.minted.password
      else password)
  {
    hide Step;
    UsersAreThose(s, w, e);
  }

  lemma {:induction false} RunKeepsPassword(s: Settings, w: World, es: seq<Event>, u: UserId, initial: string)
    requires ValidRun(s, w, es) && HasPassword(w, u, initial)
    ensures HasPassword(Run(s, w, es), u, PasswordInForce(s, w, es, u, initial))
  {
    hide Step, HasPassword;
    if es != [] {
      var init, last := es[..|es| - 1], es[|es| - 1];
      RunKeepsPassword(s, w, init, u, initial);
      StepKeepsPassword(s, Run(s, w, init), last, u, PasswordInForce(s, w, init, u, initial));
    }
  }

  lemma RegistrationTakesHold(s: Settings, w: World, e: Event)
    requires Possible(w, e) && e.req.Register? && Answer(s, w, e).Ok?
    ensures HasPassword(Step(s, w, e), e.minted.user, e.req.password)
    ensures
      var emails, key := Step(s, w, e).db.emails, s.fold(e.req.email);
      key in emails && emails[key] == e.minted.user
  {
    UsersAreThose(s, w, e);
    EmailsAfter(s, w, e);
  }

  /** From an accepted registration on, whatever happens in between: a login with that email, in any letter
      case, succeeds if and only if it gives the password the account was last given and the account is not
      suspended. */
  lemma RegisteredCanLogIn(s: Settings, w: World, e: Event, es: seq<Event>, login: Event)
    requires Reachable(s, w) && Possible(w, e) && e.req.Register? && Answer(s, w, e).Ok?
    requires ValidRun(s, Step(s, w, e), es)
    requires login.req.Login? && s.fold(login.req.email) == s.fold(e.req.email)
    ensures
      var u, w1 := e.minted.user, Step(s, w, e);
      var w2 := Run(s, w1, es);
      && u in w2.db.users
      && (Answer(s, w2, login).Ok? <==>
            && !login.crash && w2.db.users[u].isActive
            && login.req.password == PasswordInForce(s, w1, es, u, e.req.password))
  {
    hide Step, Run, ValidRun, Answer, Possible, PasswordInForce, OneAccountPerEmail, Reachable;
    var w1 := Step(s, w, e);
    RegistrationTakesHold(s, w, e);
    ReachableAccounts(s, w);
    StepKeepsAccounts(s, w, e);
    EmailsAreForever(s, w1, es);
    RunKeepsPassword(s, w1, es, e.minted.user, e.req.password);
    LoginNeedsPassword(s, Run(s, w1, es), login, e.minted.user);
  }

  lemma LoginNeedsPassword(s: Settings, w: World, e: Event, u: UserId)
    requires e.req.Login? && u in w.db.users
    requires s.fold(e.req.email) in w.db.emails && w.db.emails[s.fold(e.req.email)] == u
    ensures Answer(s, w, e).Ok? <==>
      !e.crash && w.db.users[u].isActive && w.db.users[u].password == Argon2(e.req.password)
  {
  }

  // ---- who may change what ----

  /** The request carries a valid access token of `u`. */
  predicate By(s: Settings, w: World, e: Event, u: UserId) {
    ResolveCurrentUser(w.db, EnvFor(s, w, e), AccessOf(e.req)) == Ok(u)
  }

  predicate IsAdmin(w: World, u: UserId) {
    u in w.db.users && w.db.users[u].role == Admin
  }

  function FindUser(users: map<UserId, User>, u: UserId): Option<User> {
    if u in users then Some(users[u]) else None
  }

  ghost predicate ByAdmin(s: Settings, w: World, e: Event) {
    exists a :: IsAdmin(w, a) && By(s, w, e, a)
  }

  lemma AdminRequests(s: Settings, w: World, e: Event)
    requires Answer(s, w, e).Ok?
    requires e.req.SuspendUser? || e.req.ReinstateUser? || e.req.ResetPassword? || e.req.RemoveListing?
    ensures ByAdmin(s, w, e)
    ensures !e.req.RemoveListing? ==> !IsAdmin(w, e.req.target)
  {
    var who := RequireAdmin(w.db, EnvFor(s, w, e), e.req.access);
    assert IsAdmin(w, who.value) && By(s, w, e, who.value);
  }

  /** A listing's row changes only at its owner's request, or when an admin removes it. */
  lemma ListingsChangeByOwnerOrAdmin(s: Settings, w: World, e: Event, l: ListingId)
    requires Possible(w, e) && l in w.db.listings
    requires FindIn(Step(s, w, e).db.listings, l) != FindIn(w.db.listings, l)
    ensures
      || By(s, w, e, w.db.listings[l].ownerId)
      || (e.req.RemoveListing? && ByAdmin(s, w, e))
  {
    hide Step;
    ListingsAreThose(s, w, e);
    if e.req.RemoveListing? { AdminRequests(s, w, e); }
  }

  /** Images are added only at the owner's request. */
  lemma ImagesComeFromTheOwner(s: Settings, w: World, e: Event)
    requires Possible(w, e) && Step(s, w, e).db.images != w.db.images
    ensures e.req.UploadImages? && e.req.listing in w.db.listings
    ensures By(s, w, e, w.db.listings[e.req.listing].ownerId)
  {
    ImagesGrow(s, w, e);
  }

  /** An account's row changes only at its own request, or at an admin's and never to an admin's. */
  lemma AccountsChangeBySelfOrAdmin(s: Settings, w: World, e: Event, u: UserId)
    requires Possible(w, e) && u in w.db.users
    requires FindUser(Step(s, w, e).db.users, u) != FindUser(w.db.users, u)
    ensures
      || By(s, w, e, u)
      || (!IsAdmin(w, u) && ByAdmin(s, w, e))
  {
    hide Step;
    UsersAreThose(s, w, e);
    if e.req.SuspendUser? || e.req.ReinstateUser? || e.req.ResetPassword? { AdminRequests(s, w, e); }
  }

  /** Every audit row names an admin as its actor. */
  ghost predicate ActorsAreAdmins(w: World) {
    forall i :: 0 <= i < |w.db.audit| ==> IsAdmin(w, w.db.audit[i].admin)
  }

  lemma StepKeepsActors(s: Settings, w: World, e: Event)
    requires Possible(w, e) && ActorsAreAdmins(w)
    ensures ActorsAreAdmins(Step(s, w, e))
  {
    hide Step, Answer;
    AuditIsThat(s, w, e);
    StepKeepsRoles(s, w, e);
  }

  lemma {:induction false} RunKeepsActors(s: Settings, w: World, es: seq<Event>)
    requires ValidRun(s, w, es) && ActorsAreAdmins(w)
    ensures ActorsAreAdmins(Run(s, w, es))
  {
    hide Step, ActorsAreAdmins;
    if es != [] {
      RunKeepsActors(s, w, es[..|es| - 1]);
      StepKeepsActors(s, Run(s, w, es[..|es| - 1]), es[|es| - 1]);
    }
  }

  lemma ReachableActors(s: Settings, w: World)
    requires Reachable(s, w)
    ensures ActorsAreAdmins(w)
  {
    hide Step, Run, ValidRun;
    var start, es :| Genesis(start) && ValidRun(s, start, es) && w == Run(s, start, es);
    RunKeepsActors(s, start, es);
  }
}
