/** What rotation, reuse detection and suspension guarantee over whole serial runs. */
module SessionSafety {
  import opened Wrappers
  import opened Domain
  import opened AccessTokens
  import opened Rules
  import opened Runs
  import opened Effects
  import opened RefreshTokens

  ghost predicate Inv(s: Settings, w: World) {
    && Disciplined(w.db.tokens)
    && (forall u :: u in w.db.users && !w.db.users[u].isActive ==> UserDead(w.db.tokens, u))
    && (forall a :: a in w.issued ==> a.exp * SECOND <= w.now + s.accessTtl)
  }

  lemma LoginIsActive(s: Settings, w: World, e: Event)
    requires e.req.Login? && Answer(s, w, e).Ok?
    ensures ByEmail(w.db, s.fold(e.req.email)).Some? && w.db.users[ByEmail(w.db, s.fold(e.req.email)).value].isActive
  {
  }

  lemma RefreshKeepsDiscipline(t: TokenTable, h: TokenHash, now: Time, minted: TokenHash, ttl: nat)
    requires Disciplined(t) && minted !in t
    ensures Disciplined(RefreshTokens.Refresh(t, h, now, minted, ttl).table)
  {
    var t2 := RefreshTokens.Refresh(t, h, now, minted, ttl).table;
    if !Unusable(t, h, now) && !t[h].revoked {
      forall g | g in t && g != h && t[g].familyId == t[h].familyId ensures t[g].revoked {
        assert Live(t, h);
        assert Live(t, g) ==> g == h;
      }
    }
  }

  lemma DisciplineKept(s: Settings, w: World, e: Event)
    requires Disciplined(w.db.tokens) && Possible(w, e)
    ensures Disciplined(Step(s, w, e).db.tokens)
  {
    hide Step, Answer;
    TokensAreThose(s, w, e);
    if e.req.Refresh? && e.req.cookie.Some? {
      RefreshKeepsDiscipline(w.db.tokens, e.req.cookie.value, e.now, e.minted.token, s.refreshTtl);
    }
  }

  /** Refresh never looks at `is_active`; that a suspended user cannot be issued anything rests on
      this being kept by every request. */
  lemma SuspendedStayDead(s: Settings, w: World, e: Event, u: UserId)
    requires Inv(s, w) && Possible(w, e)
    requires u in Step(s, w, e).db.users && !Step(s, w, e).db.users[u].isActive
    ensures UserDead(Step(s, w, e).db.tokens, u)
  {
    hide Step;
    TokensAreThose(s, w, e);
    if u !in w.db.users {
      NewUsersAreActive(s, w, e, u);
    } else {
      StandingAfter(s, w, e, u);
      if e.req.Login? && Answer(s, w, e).Ok? { LoginIsActive(s, w, e); }
    }
  }

  /** The request logs in as `u`: its email, its password, and `u` in good standing. */
  predicate KnowsPassword(s: Settings, w: World, e: Event, u: UserId) {
    && e.req.Login? && s.fold(e.req.email) in w.db.emails && w.db.emails[s.fold(e.req.email)] == u
    && u in w.db.users && VerifyPassword(e.req.password, w.db.users[u].password) && w.db.users[u].isActive
  }

  /** The request presents an unrevoked, unexpired refresh token of `u`. */
  predicate HoldsToken(w: World, e: Event, u: UserId) {
    && e.req.Refresh? && e.req.cookie.Some? && Live(w.db.tokens, e.req.cookie.value)
    && w.db.tokens[e.req.cookie.value].userId == u && e.now <= w.db.tokens[e.req.cookie.value].expiresAt
  }

  /** A request is given tokens of `u` if and only if it shows one or the other. */
  lemma TokensAreEarned(s: Settings, w: World, e: Event, u: UserId)
    ensures
      var answer := Answer(s, w, e);
      (answer.Ok? && answer.value.TokenPair? && answer.value.access.sub == u) <==>
        !e.crash && (KnowsPassword(s, w, e, u) || HoldsToken(w, e, u))
  {
    hide ResolveCurrentUser, CurrentUser, RequireAdmin;
    match e.req
    case Login(_, _) =>
    case Refresh(_) =>
    case UploadImages(_, _, _) =>
    case _ =>
  }

  /** An access token handed out by this request belongs to a user in good standing. */
  lemma IssueNeedsStanding(s: Settings, w: World, e: Event, a: AccessToken)
    requires Inv(s, w) && Possible(w, e)
    requires a in Step(s, w, e).issued && a !in w.issued
    ensures a == AccessTokens.Create(a.sub, e.now, s.accessTtl)
    ensures a.exp * SECOND <= e.now + s.accessTtl
    ensures a.sub in w.db.users ==> w.db.users[a.sub].isActive
  {
    NewTokens(s, w, e, a);
    hide Step, Answer;
    TokensAreEarned(s, w, e, a.sub);
    if HoldsToken(w, e, a.sub) { assert !UserDead(w.db.tokens, a.sub); }
  }

  lemma NewTokens(s: Settings, w: World, e: Event, a: AccessToken)
    requires a in Step(s, w, e).issued && a !in w.issued
    ensures Answer(s, w, e).Ok? && Answer(s, w, e).value.TokenPair? && Answer(s, w, e).value.access == a
    ensures a == AccessTokens.Create(a.sub, e.now, s.accessTtl)
  {
    assert Answer(s, w, e).Ok? && Answer(s, w, e).value.TokenPair? && Answer(s, w, e).value.access == a by {
      hide Answer, Served;
    }
    PairsAreForNow(s, w, e);
  }

  lemma PairsAreForNow(s: Settings, w: World, e: Event)
    requires Answer(s, w, e).Ok? && Answer(s, w, e).value.TokenPair?
    ensures
      var a := Answer(s, w, e).value.access;
      a == AccessTokens.Create(a.sub, e.now, s.accessTtl)
  {
    assert e.req.Login? || e.req.Refresh?;
  }

  lemma InvKept(s: Settings, w: World, e: Event)
    requires Inv(s, w) && Possible(w, e)
    ensures Inv(s, Step(s, w, e))
  {
    hide Served, Disciplined, UserDead;
    var w2 := Step(s, w, e);
    DisciplineKept(s, w, e);
    forall u | u in w2.db.users && !w2.db.users[u].isActive ensures UserDead(w2.db.tokens, u) {
      SuspendedStayDead(s, w, e, u);
    }
    forall a | a in w2.issued ensures a.exp * SECOND <= w2.now + s.accessTtl {
      if a !in w.issued { IssueNeedsStanding(s, w, e, a); }
    }
  }

  lemma {:induction false} RunKeepsInv(s: Settings, w: World, es: seq<Event>)
    requires Inv(s, w) && ValidRun(s, w, es)
    ensures Inv(s, Run(s, w, es))
  {
    hide Step, Inv;
    if es != [] {
      RunKeepsInv(s, w, es[..|es| - 1]);
      InvKept(s, Run(s, w, es[..|es| - 1]), es[|es| - 1]);
    }
  }

  /** In every reachable state: families have one user and at most one unrevoked token, and a
      suspended user has no unrevoked token at all. */
  lemma ReachableInv(s: Settings, w: World)
    requires Reachable(s, w)
    ensures Inv(s, w)
  {
    hide Step, Run, ValidRun;
    var start, es :| Genesis(start) && ValidRun(s, start, es) && w == Run(s, start, es);
    RunKeepsInv(s, start, es);
  }

  // ---- suspension is bounded-immediate ----

  ghost predicate NeverReinstated(s: Settings, w: World, es: seq<Event>, u: UserId) {
    es == [] ||
    var init, last := es[..|es| - 1], es[|es| - 1];
    NeverReinstated(s, w, init, u) && !Reinstates(s, Run(s, w, init), last, u)
  }

  /** `u` is suspended, and every access token it holds is dead by `deadline`. */
  ghost predicate ShutBy(w: World, u: UserId, deadline: Time) {
    && u in w.db.users && !w.db.users[u].isActive
    && forall a :: a in w.issued && a.sub == u ==> a.exp * SECOND <= deadline
  }

  lemma ShutKept(s: Settings, w: World, e: Event, u: UserId, deadline: Time)
    requires Inv(s, w) && Possible(w, e) && ShutBy(w, u, deadline) && !Reinstates(s, w, e, u)
    ensures ShutBy(Step(s, w, e), u, deadline)
  {
    StandingAfter(s, w, e, u);
    forall a | a in Step(s, w, e).issued && a.sub == u ensures a.exp * SECOND <= deadline {
      if a !in w.issued { IssueNeedsStanding(s, w, e, a); }
    }
  }

  lemma {:induction false} ShutThroughout(s: Settings, w: World, es: seq<Event>, u: UserId, deadline: Time)
    requires Inv(s, w) && ValidRun(s, w, es) && ShutBy(w, u, deadline) && NeverReinstated(s, w, es, u)
    ensures ShutBy(Run(s, w, es), u, deadline)
  {
    hide Step, Inv, ShutBy;
    if es != [] {
      var init := es[..|es| - 1];
      ShutThroughout(s, w, init, u, deadline);
      RunKeepsInv(s, w, init);
      ShutKept(s, Run(s, w, init), es[|es| - 1], u, deadline);
    }
  }

  lemma SuspensionShuts(s: Settings, w: World, e: Event, u: UserId)
    requires Inv(s, w) && Possible(w, e) && Suspends(s, w, e, u)
    ensures ShutBy(Step(s, w, e), u, e.now + s.accessTtl)
  {
    hide Served;
    VerdictsNeedStanding(s, w, e);
    StandingAfter(s, w, e, u);
    InvKept(s, w, e);
  }

  lemma ShutMeansNone(s: Settings, w: World, u: UserId, deadline: Time, token: AccessToken, at: Time)
    requires Inv(s, w) && ShutBy(w, u, deadline) && token.sub == u && at >= deadline
    ensures Decode(token, w.issued, at) == None && UserDead(w.db.tokens, u)
  {
  }

  /** If `u` is suspended at time `e.now` and not reinstated, then whatever happens next, no access
      token of `u` decodes at or after `e.now` plus the token lifetime, and no refresh token of `u`
      is usable at all. */
  lemma SuspensionIsBounded(
    s: Settings, w: World, e: Event, es: seq<Event>, u: UserId, token: AccessToken, at: Time)
    requires Reachable(s, w) && Possible(w, e) && Suspends(s, w, e, u)
    requires ValidRun(s, Step(s, w, e), es) && NeverReinstated(s, Step(s, w, e), es, u)
    requires token.sub == u && at >= e.now + s.accessTtl
    ensures Decode(token, Run(s, Step(s, w, e), es).issued, at) == None
    ensures UserDead(Run(s, Step(s, w, e), es).db.tokens, u)
  {
    hide Step, Run, ValidRun, Reachable, Inv, ShutBy, Suspends, NeverReinstated;
    var w1, deadline := Step(s, w, e), e.now + s.accessTtl;
    ReachableInv(s, w);
    InvKept(s, w, e);
    SuspensionShuts(s, w, e, u);
    ShutThroughout(s, w1, es, u, deadline);
    RunKeepsInv(s, w1, es);
    ShutMeansNone(s, Run(s, w1, es), u, deadline, token, at);
  }

  // ---- theft response ----

  lemma StepOnlyRevokes(s: Settings, w: World, e: Event)
    requires Possible(w, e)
    ensures OnlyRevokes(w.db.tokens, Step(s, w, e).db.tokens)
  {
    hide Step, Answer;
    TokensAreThose(s, w, e);
  }

  lemma {:induction false} RunOnlyRevokes(s: Settings, w: World, es: seq<Event>)
    requires ValidRun(s, w, es)
    ensures OnlyRevokes(w.db.tokens, Run(s, w, es).db.tokens)
  {
    hide Step;
    if es != [] {
      RunOnlyRevokes(s, w, es[..|es| - 1]);
      StepOnlyRevokes(s, Run(s, w, es[..|es| - 1]), es[|es| - 1]);
    }
  }

  ghost predicate KilledFamily(t: TokenTable, f: FamilyId) {
    FamilyDead(t, f) && exists h :: h in t && t[h].familyId == f
  }

  /** A dead family gets no new member: only an unrevoked token has a successor. */
  lemma DeadStaysDead(s: Settings, w: World, e: Event, f: FamilyId)
    requires Possible(w, e) && KilledFamily(w.db.tokens, f)
    ensures KilledFamily(Step(s, w, e).db.tokens, f)
  {
    hide Step, Answer;
    var t := w.db.tokens;
    var h :| h in t && t[h].familyId == f;
    TokensAreThose(s, w, e);
    StepOnlyRevokes(s, w, e);
    assert e.minted.family != f;
    var t2 := Step(s, w, e).db.tokens;
    assert h in t2 && t2[h].familyId == f;
  }

  lemma {:induction false} DeadForever(s: Settings, w: World, es: seq<Event>, f: FamilyId)
    requires ValidRun(s, w, es) && KilledFamily(w.db.tokens, f)
    ensures KilledFamily(Run(s, w, es).db.tokens, f)
  {
    hide Step, KilledFamily;
    if es != [] {
      DeadForever(s, w, es[..|es| - 1], f);
      DeadStaysDead(s, Run(s, w, es[..|es| - 1]), es[|es| - 1], f);
    }
  }

  /** Logging out with a live token ends the session for good: no token of its family is unrevoked in any
      continuation, so no refresh within that family is ever accepted again. */
  lemma LogoutEndsTheSession(s: Settings, w: World, e: Event, es: seq<Event>, h: TokenHash)
    requires Reachable(s, w) && Possible(w, e) && e.req.Logout? && Answer(s, w, e).Ok?
    requires e.req.cookie == Some(h) && Live(w.db.tokens, h)
    requires ValidRun(s, Step(s, w, e), es)
    ensures FamilyDead(Run(s, Step(s, w, e), es).db.tokens, w.db.tokens[h].familyId)
  {
    hide Step, Run, ValidRun, Reachable;
    ReachableInv(s, w);
    TokensAreThose(s, w, e);
    var t, t2, f := w.db.tokens, Step(s, w, e).db.tokens, w.db.tokens[h].familyId;
    assert h in t2 && t2[h].familyId == f;
    DeadForever(s, Step(s, w, e), es, f);
  }

  predicate Presents(e: Event, h: TokenHash) {
    e.req.Refresh? && e.req.cookie == Some(h) && !e.crash
  }

  lemma RotationRevokes(s: Settings, w: World, e: Event, h: TokenHash)
    requires Possible(w, e) && Presents(e, h) && Answer(s, w, e).Ok?
    ensures h in w.db.tokens
    ensures h in Step(s, w, e).db.tokens && Step(s, w, e).db.tokens[h] == w.db.tokens[h].(revoked := true)
  {
  }

  lemma ReuseKills(s: Settings, w: World, e: Event, h: TokenHash)
    requires Presents(e, h) && IsReuse(w.db.tokens, h, e.now)
    ensures Answer(s, w, e) == Raised(InvalidRefreshToken)
    ensures Step(s, w, e).db.tokens == FamilyRevoked(w.db.tokens, w.db.tokens[h].familyId)
  {
  }

  /** What killing family `f` with `h` leaves behind. */
  ghost predicate KilledExactly(t: TokenTable, t2: TokenTable, f: FamilyId) {
    && KilledFamily(t2, f)
    && forall g :: g in t && t[g].familyId != f ==> g in t2 && t2[g] == t[g]
  }

  /** A token is rotated (`first`), arbitrary requests follow (`between`), and it is presented again
      no later than its expiry (`again`). The second request is answered with an error, and yet the
      committed state has the whole family revoked, and no token of another family touched. */
  lemma ReuseIsPunished(s: Settings, w: World, h: TokenHash, first: Event, between: seq<Event>, again: Event)
    requires Possible(w, first) && Presents(first, h) && Answer(s, w, first).Ok?
    requires ValidRun(s, Step(s, w, first), between)
    requires Presents(again, h) && h in w.db.tokens && again.now <= w.db.tokens[h].expiresAt
    ensures
      var w2 := Run(s, Step(s, w, first), between);
      && Answer(s, w2, again) == Raised(InvalidRefreshToken)
      && KilledExactly(w2.db.tokens, Step(s, w2, again).db.tokens, w.db.tokens[h].familyId)
  {
    hide Step, Run, ValidRun, Answer, Possible;
    var w1 := Step(s, w, first);
    var w2 := Run(s, w1, between);
    RotationRevokes(s, w, first, h);
    RunOnlyRevokes(s, w1, between);
    ReuseKills(s, w2, again, h);
    assert h in Step(s, w2, again).db.tokens && Step(s, w2, again).db.tokens[h].familyId == w.db.tokens[h].familyId;
  }

  /** The theft response is final: from then on, in every continuation, the family is dead. All its
      tokens belong to one user, so no other user's session is affected. */
  lemma TheftResponse(
    s: Settings, w: World, h: TokenHash, first: Event, between: seq<Event>, again: Event, after: seq<Event>)
    requires Reachable(s, w)
    requires Possible(w, first) && Presents(first, h) && Answer(s, w, first).Ok?
    requires ValidRun(s, Step(s, w, first), between)
    requires Possible(Run(s, Step(s, w, first), between), again)
    requires Presents(again, h) && h in w.db.tokens && again.now <= w.db.tokens[h].expiresAt
    requires ValidRun(s, Step(s, Run(s, Step(s, w, first), between), again), after)
    ensures
      var f := w.db.tokens[h].familyId;
      var t := Run(s, Step(s, Run(s, Step(s, w, first), between), again), after).db.tokens;
      && FamilyDead(t, f)
      && OneUserPerFamily(t)
  {
    hide Step, Run, ValidRun, Reachable, Answer, Possible;
    var w1 := Step(s, w, first);
    var w3 := Step(s, Run(s, w1, between), again);
    ReuseIsPunished(s, w, h, first, between, again);
    DeadForever(s, w3, after, w.db.tokens[h].familyId);
    ReachableInv(s, w);
    InvKept(s, w, first);
    RunKeepsInv(s, w1, between);
    InvKept(s, Run(s, w1, between), again);
    RunKeepsInv(s, w3, after);
  }

  /** The documented price of this rule: when two requests present one live token in turn, as two tabs
      of one session can, the second takes the first one's brand-new token down with the family. */
  lemma WinnerLosesToo(s: Settings, w: World, h: TokenHash, first: Event, second: Event)
    requires Possible(w, first) && Presents(first, h) && Answer(s, w, first).Ok?
    requires Presents(second, h) && h in w.db.tokens && second.now <= w.db.tokens[h].expiresAt
    ensures
      var w1 := Step(s, w, first);
      var w2 := Step(s, w1, second);
      && Answer(s, w, first).value.TokenPair? && Live(w1.db.tokens, Answer(s, w, first).value.refresh)
      && !Live(w2.db.tokens, Answer(s, w, first).value.refresh)
  {
    var w1 := Step(s, w, first);
    RotationRevokes(s, w, first, h);
    TokensAreThose(s, w, first);
    ReuseKills(s, w1, second, h);
  }
}
