/** The pair of tokens that a login or a refresh answers with: it is the one that was stored, and it works. */
module IssuedPairs {
  import opened Wrappers
  import opened Domain
  import opened AccessTokens
  import opened Rules
  import opened Runs
  import opened Effects
  import opened RefreshTokens
  import Accounts
  import SessionSafety

  predicate AnsweredWith(s: Settings, w: World, e: Event, access: AccessToken, refresh: TokenHash) {
    Answer(s, w, e) == Ok(TokenPair(access, refresh))
  }

  /** The only row that a refresh changes is the one it presents. */
  ghost predicate OthersKept(t: TokenTable, t2: TokenTable, presented: Option<TokenHash>) {
    forall g :: g in t ==> g in t2 && t2[g] == if presented == Some(g) then t[g].(revoked := true) else t[g]
  }

  /** The refresh token in the answer is new, stored, unrevoked, of the user the access token names, and
      expires one lifetime from now; a login opens a new family with it, a refresh continues the family of
      the token presented, and no row but the presented one changes. The access token is on record. */
  lemma PairIsStored(s: Settings, w: World, e: Event, access: AccessToken, refresh: TokenHash)
    requires Possible(w, e) && AnsweredWith(s, w, e, access, refresh)
    ensures access in Step(s, w, e).issued && access == AccessTokens.Create(access.sub, e.now, s.accessTtl)
    ensures
      var t, t2 := w.db.tokens, Step(s, w, e).db.tokens;
      && refresh !in t && Live(t2, refresh) && t2.Keys == t.Keys + {refresh}
      && t2[refresh].userId == access.sub && t2[refresh].expiresAt == e.now + s.refreshTtl
      && (e.req.Login? || (e.req.Refresh? && e.req.cookie.Some? && e.req.cookie.value in t))
      && (e.req.Login? ==> UnusedFamily(t, t2[refresh].familyId) && OthersKept(t, t2, None))
      && (e.req.Refresh? ==>
            t2[refresh].familyId == t[e.req.cookie.value].familyId && OthersKept(t, t2, e.req.cookie))
  {
    assert e.req.Login? || e.req.Refresh?;
    TokensAreThose(s, w, e);
  }

  /** Round trip: presenting the refresh token next, no later than its expiry, is accepted. */
  lemma PairCanBeRefreshed(
    s: Settings, w: World, e: Event, access: AccessToken, refresh: TokenHash, next: Event)
    requires Possible(w, e) && AnsweredWith(s, w, e, access, refresh)
    requires SessionSafety.Presents(next, refresh) && next.now <= e.now + s.refreshTtl
    ensures
      var answer := Answer(s, Step(s, w, e), next);
      answer.Ok? && answer.value.TokenPair? && answer.value.access.sub == access.sub
  {
    hide Step, Answer;
    PairIsStored(s, w, e, access, refresh);
    SessionSafety.TokensAreEarned(s, Step(s, w, e), next, access.sub);
  }

  // ---- the access token ----

  ghost predicate HoldersExist(users: map<UserId, User>, tokens: TokenTable) {
    forall h :: h in tokens ==> tokens[h].userId in users
  }

  lemma StepKeepsHolders(s: Settings, w: World, e: Event)
    requires Possible(w, e) && HoldersExist(w.db.users, w.db.tokens)
    ensures HoldersExist(Step(s, w, e).db.users, Step(s, w, e).db.tokens)
  {
    hide Step, Answer;
    TokensAreThose(s, w, e);
    assert w.db.users.Keys <= Step(s, w, e).db.users.Keys by { UsersAreThose(s, w, e); }
  }

  lemma {:induction false} RunKeepsHolders(s: Settings, w: World, es: seq<Event>)
    requires ValidRun(s, w, es) && HoldersExist(w.db.users, w.db.tokens)
    ensures HoldersExist(Run(s, w, es).db.users, Run(s, w, es).db.tokens)
  {
    hide Step, HoldersExist;
    if es != [] {
      RunKeepsHolders(s, w, es[..|es| - 1]);
      StepKeepsHolders(s, Run(s, w, es[..|es| - 1]), es[|es| - 1]);
    }
  }

  /** In every reachable state each refresh token belongs to an account. */
  lemma ReachableHolders(s: Settings, w: World)
    requires Reachable(s, w)
    ensures HoldersExist(w.db.users, w.db.tokens)
  {
    var start, es :| Genesis(start) && ValidRun(s, start, es) && w == Run(s, start, es);
    RunKeepsHolders(s, start, es);
  }

  lemma {:induction false} RecordsAreKept(s: Settings, w: World, es: seq<Event>)
    requires ValidRun(s, w, es)
    ensures w.issued <= Run(s, w, es).issued && w.now <= Run(s, w, es).now
  {
    hide Served, Answer;
    if es != [] { RecordsAreKept(s, w, es[..|es| - 1]); }
  }

  /** Whatever happens after it was handed out, the access token identifies its user until it expires, less
      than a second before its nominal end, and from then on nobody. */
  lemma AccessTokenWorks(
    s: Settings, w: World, e: Event, access: AccessToken, refresh: TokenHash, es: seq<Event>, next: Event)
    requires Reachable(s, w) && Possible(w, e) && AnsweredWith(s, w, e, access, refresh)
    requires ValidRun(s, Step(s, w, e), es) && Possible(Run(s, Step(s, w, e), es), next)
    requires AccessOf(next.req) == Some(access)
    ensures
      var w2 := Run(s, Step(s, w, e), es);
      Identifies(w2.db, EnvFor(s, w2, next), Some(access), access.sub) <==> next.now < access.exp * SECOND
    ensures access.exp * SECOND <= e.now + s.accessTtl < access.exp * SECOND + SECOND
  {
    var w1 := Step(s, w, e);
    var w2 := Run(s, w1, es);
    PairIsStored(s, w, e, access, refresh);
    ReachableHolders(s, w);
    StepKeepsHolders(s, w, e);
    assert w1.now == e.now;
    hide Step, Run, ValidRun, Reachable, Answer;
    RecordsAreKept(s, w1, es);
    Accounts.RolesAreFixed(s, w1, es);
    assert access.sub in w1.db.users;
  }
}
