/** The forced password change: what a reset shuts, and what alone opens it again. */
module ForcedPasswordChange {
  import opened Wrappers
  import opened Domain
  import opened AccessTokens
  import opened Rules
  import opened Runs
  import opened Effects

  predicate Resets(s: Settings, w: World, e: Event, u: UserId) {
    e.req.ResetPassword? && e.req.target == u && Answer(s, w, e).Ok?
  }

  /** The request carries an access token issued to `u`. */
  predicate ActsAs(e: Event, u: UserId) {
    AccessOf(e.req).Some? && AccessOf(e.req).value.sub == u
  }

  predicate Changes(s: Settings, w: World, e: Event, u: UserId) {
    e.req.ChangePassword? && ActsAs(e, u) && Answer(s, w, e).Ok?
  }

  ghost predicate NeverChanged(s: Settings, w: World, es: seq<Event>, u: UserId) {
    es == [] ||
    var init, last := es[..|es| - 1], es[|es| - 1];
    NeverChanged(s, w, init, u) && !Changes(s, Run(s, w, init), last, u)
  }

  /** The temporary password in force after a run that began with `initial` in force. */
  function LastTemporary(s: Settings, w: World, es: seq<Event>, u: UserId, initial: string): string {
    if es == [] then initial
    else
      var init, last := es[..|es| - 1], es[|es| - 1];
      if Resets(s, Run(s, w, init), last, u) then last.minted.password else LastTemporary(s, w, init, u, initial)
  }

  ghost predicate Gated(w: World, u: UserId, temporary: string) {
    u in w.db.users && w.db.users[u].mustChangePassword && w.db.users[u].password == Argon2(temporary)
  }

  lemma GateKept(s: Settings, w: World, e: Event, u: UserId, temporary: string)
    requires Possible(w, e) && Gated(w, u, temporary) && !Changes(s, w, e, u)
    ensures Gated(Step(s, w, e), u, if Resets(s, w, e, u) then e.minted.password else temporary)
  {
    hide Step, Answer;
    UsersAreThose(s, w, e);
  }

  lemma {:induction false} GateHolds(s: Settings, w: World, es: seq<Event>, u: UserId, initial: string)
    requires ValidRun(s, w, es) && Gated(w, u, initial) && NeverChanged(s, w, es, u)
    ensures Gated(Run(s, w, es), u, LastTemporary(s, w, es, u, initial))
  {
    hide Step, Gated;
    if es != [] {
      var init, last := es[..|es| - 1], es[|es| - 1];
      GateHolds(s, w, init, u, initial);
      GateKept(s, Run(s, w, init), last, u, LastTemporary(s, w, init, u, initial));
    }
  }

  /** Behind the gate, a request that carries `u`'s access token alters nothing, except the one
      password change that presents the temporary password in force. */
  lemma GateBlocks(s: Settings, w: World, e: Event, u: UserId, temporary: string)
    requires Possible(w, e) && Gated(w, u, temporary) && ActsAs(e, u)
    ensures !Changes(s, w, e, u) ==>
      Step(s, w, e).db == w.db && Step(s, w, e).objects == w.objects && Step(s, w, e).issued == w.issued
    ensures Changes(s, w, e, u) <==>
      && e.req.ChangePassword? && !e.crash && e.req.current == temporary
      && Decode(e.req.access.value, w.issued, e.now) == Some(u)
  {
    var env := EnvFor(s, w, e);
    if !e.req.ChangePassword? {
      assert !CurrentUser(w.db, env, e.req.access).Ok?;
    }
  }

  /** From an accepted reset of `u` until `u`'s next successful password change, whatever else
      happens: no request carrying `u`'s access token alters any state, a failed change keeps the
      gate shut, and the change that opens it presents the temporary password of the last reset. */
  lemma OnlyLastTemporaryOpens(s: Settings, w: World, reset: Event, es: seq<Event>, e: Event, u: UserId)
    requires Possible(w, reset) && Resets(s, w, reset, u)
    requires ValidRun(s, Step(s, w, reset), es) && NeverChanged(s, Step(s, w, reset), es, u)
    requires Possible(Run(s, Step(s, w, reset), es), e) && ActsAs(e, u)
    ensures
      var w1 := Step(s, w, reset);
      var w2 := Run(s, w1, es);
      var temporary := LastTemporary(s, w1, es, u, reset.minted.password);
      && Gated(w2, u, temporary)
      && (Changes(s, w2, e, u) <==>
            && e.req.ChangePassword? && !e.crash && e.req.current == temporary
            && Decode(e.req.access.value, w2.issued, e.now) == Some(u))
      && (!Changes(s, w2, e, u) ==>
            && Step(s, w2, e).db == w2.db && Step(s, w2, e).objects == w2.objects && Step(s, w2, e).issued == w2.issued
            && Gated(Step(s, w2, e), u, temporary))
  {
    hide Run, ValidRun, NeverChanged, LastTemporary, Changes;
    var w1 := Step(s, w, reset);
    UsersAreThose(s, w, reset);
    assert Gated(w1, u, reset.minted.password);
    GateHolds(s, w1, es, u, reset.minted.password);
    GateBlocks(s, Run(s, w1, es), e, u, LastTemporary(s, w1, es, u, reset.minted.password));
  }
}
