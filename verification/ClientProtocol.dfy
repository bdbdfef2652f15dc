/** One browser tab and the server, as one step system: any number of concurrent API calls, logins and
    session restores, with every message in flight, and every other client of the server around them.

    Assumed: every answer is delivered, nobody logs the tab's own sessions out or suspends their user, and
    nobody else presents the tab's tokens (there is one tab). */
module ClientProtocol {
  import opened Wrappers
  import opened Domain
  import opened RefreshTokens
  import opened ApiClients

  /** `mine` are the families of the sessions this tab has ever held. */
  datatype System = System(table: TokenTable, mine: set<FamilyId>, tab: Tab)

  datatype Step =
    // the tab
    | RestoreSession
    | StartFetch(path: Path)
    | Resume(call: nat)
    | Deliver(call: nat, unauthorized: bool)
    | Continue(call: nat)
    | RefreshArrives(id: RefreshId)
    | ReadBody(id: RefreshId)
    | RunFinally(id: RefreshId)
    | AppSetsToken(value: Option<Access>)
    | CookieExpires
    // the server, for the tab
    | ServeLogin(call: nat, user: UserId, family: FamilyId, minted: TokenHash, expiresAt: Time)
    | ServeRefresh(id: RefreshId, now: Time, minted: TokenHash, ttl: nat, access: Access)
    | RefuseRefresh(id: RefreshId)  // rate limited, or failed before anything was committed
    // the server, for everybody else
    | OtherLogin(user: UserId, family: FamilyId, minted: TokenHash, expiresAt: Time)
    | OtherRefresh(presented: TokenHash, now: Time, minted: TokenHash, ttl: nat)
    | OtherLogout(presented: TokenHash)
    | OtherSuspended(user: UserId)

  predicate IsCall(s: System, c: nat) {
    c < |s.tab.calls|
  }

  predicate Owned(s: System, h: TokenHash) {
    h in s.table && s.table[h].familyId in s.mine
  }

  predicate Enabled(s: System, step: Step) {
    var t := s.tab;
    match step
    case RestoreSession => true
    case StartFetch(_) => true
    case Resume(c) => IsCall(s, c) && t.calls[c].pc.Waiting? && t.calls[c].pc.refresh in t.results
    case Deliver(c, _) => IsCall(s, c) && (t.calls[c].pc.Sent? || t.calls[c].pc.LoginAnswered?)
    case Continue(c) => IsCall(s, c) && t.calls[c].pc.Refreshing? && t.calls[c].pc.refresh in t.results
    case RefreshArrives(id) => id in t.refreshes && (t.refreshes[id].Accepted? || t.refreshes[id].Refused?)
    case ReadBody(id) => id in t.refreshes && t.refreshes[id].Arrived?
    case RunFinally(id) => id in t.refreshes && t.refreshes[id].Settled?
    case AppSetsToken(_) => true
    case CookieExpires => true
    case ServeLogin(c, _, f, minted, _) =>
      && IsCall(s, c) && t.calls[c].path == LoginPath && t.calls[c].pc.Sent?
      && minted !in s.table && f !in s.mine && forall h :: h in s.table ==> s.table[h].familyId != f
    case ServeRefresh(id, _, minted, _, _) => id in t.refreshes && t.refreshes[id].Requested? && minted !in s.table
    case RefuseRefresh(id) => id in t.refreshes && t.refreshes[id].Requested?
    case OtherLogin(_, f, minted, _) =>
      minted !in s.table && f !in s.mine && forall h :: h in s.table ==> s.table[h].familyId != f
    case OtherRefresh(h, _, minted, _) => minted !in s.table && !Owned(s, h)
    case OtherLogout(h) => !Owned(s, h)
    case OtherSuspended(u) => forall h :: h in s.table && Owned(s, h) ==> s.table[h].userId != u
  }

  function ServedRefresh(s: System, step: Step): System
    requires step.ServeRefresh? && Enabled(s, step)
  {
    var t := s.tab;
    var cookie := t.refreshes[step.id].cookie;
    if cookie.None? then
      s.(tab := t.(refreshes := t.refreshes[step.id := Refused]))
    else
      var r := RefreshTokens.Refresh(s.table, cookie.value, step.now, step.minted, step.ttl);
      var answer := if r.owner.Some? then Accepted(cookie.value, step.minted, step.access) else Refused;
      s.(table := r.table, tab := t.(refreshes := t.refreshes[step.id := answer]))
  }

  function Apply(s: System, step: Step): System
    requires Enabled(s, step)
  {
    var t := s.tab;
    match step
    case RestoreSession => s.(tab := Joined(t))
    case StartFetch(path) => s.(tab := Started(t, path))
    case Resume(c) => s.(tab := Resumed(t, c))
    case Deliver(c, unauthorized) => s.(tab := Delivered(t, c, unauthorized))
    case Continue(c) => s.(tab := Continued(t, c))
    case RefreshArrives(id) => s.(tab := Arrives(t, id))
    case ReadBody(id) => s.(tab := BodyRead(t, id))
    case RunFinally(id) => s.(tab := Cleared(t, id))
    case AppSetsToken(value) => s.(tab := t.(access := value))
    case CookieExpires => s.(tab := t.(cookie := None))
    case ServeLogin(c, u, f, minted, expiresAt) =>
      System(
        Created(s.table, minted, RefreshToken(u, f, false, expiresAt)),
        s.mine + {f},
        t.(calls := t.calls[c := t.calls[c].(pc := LoginAnswered(minted))]))
    case ServeRefresh(_, _, _, _, _) => ServedRefresh(s, step)
    case RefuseRefresh(id) => s.(tab := t.(refreshes := t.refreshes[id := Refused]))
    case OtherLogin(u, f, minted, expiresAt) =>
      s.(table := Created(s.table, minted, RefreshToken(u, f, false, expiresAt)))
    case OtherRefresh(h, now, minted, ttl) => s.(table := RefreshTokens.Refresh(s.table, h, now, minted, ttl).table)
    case OtherLogout(h) => s.(table := if Live(s.table, h) then Revoked(s.table, h) else s.table)
    case OtherSuspended(u) => s.(table := UserRevoked(s.table, u))
  }

  // ---- runs ----

  /** A page has just loaded, perhaps with a live session cookie from before. */
  ghost predicate Init(s: System) {
    && s.tab == Tab(s.tab.cookie, None, None, map[], map[], [], 0)
    && (s.tab.cookie.Some? ==> Live(s.table, s.tab.cookie.value) && Owned(s, s.tab.cookie.value))
  }

  function Run(s: System, steps: seq<Step>): Option<System> {
    if steps == [] then Some(s)
    else
      var before := Run(s, steps[..|steps| - 1]);
      if before.None? || !Enabled(before.value, steps[|steps| - 1]) then None
      else Some(Apply(before.value, steps[|steps| - 1]))
  }

  ghost predicate Reachable(s: System) {
    exists start, steps :: Init(start) && Run(start, steps) == Some(s)
  }

  // ---- single flight ----

  ghost predicate SingleFlight(t: Tab) {
    && (forall id :: id in t.refreshes <==> t.refreshInFlight == Some(id))
    && (forall id: RefreshId :: id in t.results <==> id < t.nextRefresh && id !in t.refreshes)
    && (t.refreshInFlight.Some? ==> t.refreshInFlight.value < t.nextRefresh)
  }

  // ---- tokens ----

  /** A token the tab may still present: live, and of one of its own sessions. */
  ghost predicate Usable(s: System, h: TokenHash) {
    Live(s.table, h) && Owned(s, h)
  }

  ghost predicate RefreshOk(s: System, r: Refresh) {
    match r
    case Requested(cookie) => cookie.Some? ==> Usable(s, cookie.value)
    case Accepted(presented, minted, _) => Usable(s, minted) && presented in s.table && presented != minted
    case _ => true
  }

  /** The cookie in the jar is live, unless the answer that replaces it is already on its way. */
  ghost predicate CookieOk(s: System) {
    var t := s.tab;
    t.cookie.Some? ==>
      || Usable(s, t.cookie.value)
      || exists id :: id in t.refreshes && t.refreshes[id].Accepted? && t.refreshes[id].presented == t.cookie.value
  }

  /** Tokens that are somewhere between the server and the jar, other than a login's. */
  predicate Carries(r: Refresh, h: TokenHash) {
    match r
    case Requested(cookie) => cookie == Some(h)
    case Accepted(presented, minted, _) => h == presented || h == minted
    case _ => false
  }

  /** A login's new token is live and is nowhere else yet. */
  ghost predicate LoginOk(s: System, c: nat)
    requires c < |s.tab.calls| && s.tab.calls[c].pc.LoginAnswered?
  {
    var t := s.tab;
    var h := t.calls[c].pc.token;
    && Usable(s, h)
    && t.cookie != Some(h)
    && (forall id :: id in t.refreshes ==> !Carries(t.refreshes[id], h))
    && forall d :: 0 <= d < |t.calls| && d != c ==> t.calls[d].pc != LoginAnswered(h)
  }

  ghost predicate TokensOk(s: System) {
    && CookieOk(s)
    && (forall id :: id in s.tab.refreshes ==> RefreshOk(s, s.tab.refreshes[id]))
    && (forall c :: 0 <= c < |s.tab.calls| && s.tab.calls[c].pc.LoginAnswered? ==> LoginOk(s, c))
  }

  // ---- calls ----

  ghost predicate SendsOk(call: Call) {
    match call.pc
    case Waiting(_) => |call.sends| == if call.allowRetry then 0 else 1
    case Sent => |call.sends| == if call.allowRetry then 1 else 2
    case LoginAnswered(_) => |call.sends| == 1 && call.allowRetry && call.path == LoginPath
    case Refreshing(_) => |call.sends| == 1 && call.allowRetry
    case Done(_) => |call.sends| == if call.allowRetry then 1 else 2
  }

  ghost predicate CallOk(t: Tab, call: Call) {
    && SendsOk(call)
    && (!call.allowRetry ==> call.path == ApiPath)
    && (call.pc.Waiting? ==> call.pc.refresh < t.nextRefresh)
    && (call.pc.Refreshing? ==> call.pc.refresh < t.nextRefresh && call.path == ApiPath)
    && (call.retriedAfter.Some? <==> !call.allowRetry)
    && (call.retriedAfter.Some? ==> call.retriedAfter.value in t.results && t.results[call.retriedAfter.value].Some?)
    && (call.pc.Done? && call.pc.expiredAfter.Some? ==>
          call.pc.expiredAfter.value in t.results && t.results[call.pc.expiredAfter.value].None?)
    && (call.begunDuring.Some? ==> call.begunDuring.value < t.nextRefresh)
    && (call.begunDuring.Some? && call.sends != [] ==> call.begunDuring.value in t.results)
    && (call.begunDuring.Some? && call.sends == [] ==> call.pc == Waiting(call.begunDuring.value))
  }

  ghost predicate TabOk(t: Tab) {
    SingleFlight(t) && forall c :: 0 <= c < |t.calls| ==> CallOk(t, t.calls[c])
  }

  ghost predicate Inv(s: System) {
    TabOk(s.tab) && TokensOk(s)
  }

  // ---- the tab's own discipline ----

  /** Refreshes get started, answered and settled; nothing a call relies on is undone. */
  ghost predicate Progresses(t: Tab, t2: Tab) {
    && t.nextRefresh <= t2.nextRefresh
    && forall id :: id in t.results ==> id in t2.results && t2.results[id] == t.results[id]
  }

  lemma CallsKept(t: Tab, t2: Tab, c: nat)
    requires TabOk(t) && SingleFlight(t2) && Progresses(t, t2)
    requires |t2.calls| == |t.calls| || (|t2.calls| == |t.calls| + 1 && c == |t.calls|)
    requires forall d :: 0 <= d < |t.calls| && d != c ==> t2.calls[d] == t.calls[d]
    requires c < |t2.calls| ==> CallOk(t2, t2.calls[c])
    ensures TabOk(t2)
  {
  }

  lemma JoinedIsSingle(t: Tab)
    requires SingleFlight(t)
    ensures SingleFlight(Joined(t)) && Progresses(t, Joined(t))
  {
  }

  predicate OnCalls(step: Step) {
    step.StartFetch? || step.Resume? || step.Deliver? || step.Continue? || step.ServeLogin?
  }

  lemma CallStepKeepsTab(s: System, step: Step)
    requires TabOk(s.tab) && Enabled(s, step) && OnCalls(step)
    ensures TabOk(Apply(s, step).tab)
  {
    if step.Deliver? || step.Continue? { AnsweredKeepsTab(s, step); } else { SentKeepsTab(s, step); }
  }

  /** A call goes on with the answer it was waiting for. */
  lemma AnsweredKeepsTab(s: System, step: Step)
    requires TabOk(s.tab) && Enabled(s, step) && (step.Deliver? || step.Continue?)
    ensures TabOk(Apply(s, step).tab)
  {
    var t, t2 := s.tab, Apply(s, step).tab;
    JoinedIsSingle(t);
    assert CallOk(t, t.calls[step.call]);
    CallsKept(t, t2, step.call);
  }

  /** A call starts, sends after waiting, or is answered by the server. */
  lemma SentKeepsTab(s: System, step: Step)
    requires TabOk(s.tab) && Enabled(s, step) && (step.StartFetch? || step.Resume? || step.ServeLogin?)
    ensures TabOk(Apply(s, step).tab)
  {
    var t, t2 := s.tab, Apply(s, step).tab;
    var c := if step.StartFetch? then |t.calls| else step.call;
    if c < |t.calls| { assert CallOk(t, t.calls[c]); }
    CallsKept(t, t2, c);
  }

  lemma RefreshStepKeepsTab(s: System, step: Step)
    requires TabOk(s.tab) && Enabled(s, step) && !OnCalls(step)
    ensures TabOk(Apply(s, step).tab)
  {
    var t, t2 := s.tab, Apply(s, step).tab;
    JoinedIsSingle(t);
    assert SingleFlight(t2) && Progresses(t, t2);
    CallsKept(t, t2, |t.calls|);
  }

  lemma TabKept(s: System, step: Step)
    requires TabOk(s.tab) && Enabled(s, step)
    ensures TabOk(Apply(s, step).tab)
  {
    if OnCalls(step) { CallStepKeepsTab(s, step); } else { RefreshStepKeepsTab(s, step); }
  }

  // ---- the tokens ----

  /** Nobody else can touch the tab's sessions. */
  lemma OthersSpare(s: System, step: Step, h: TokenHash)
    requires Enabled(s, step) && (step.OtherLogin? || step.OtherRefresh? || step.OtherLogout? || step.OtherSuspended?)
    requires Owned(s, h)
    ensures Owned(Apply(s, step), h) && Apply(s, step).table[h] == s.table[h]
  {
  }

  lemma OthersKeepTokens(s: System, step: Step)
    requires Inv(s) && Enabled(s, step)
    requires step.OtherLogin? || step.OtherRefresh? || step.OtherLogout? || step.OtherSuspended?
    ensures TokensOk(Apply(s, step))
  {
    var s2 := Apply(s, step);
    forall h | Owned(s, h) ensures Owned(s2, h) && s2.table[h] == s.table[h] {
      OthersSpare(s, step, h);
    }
    assert forall h :: h in s.table ==> h in s2.table;
    forall id | id in s2.tab.refreshes ensures RefreshOk(s2, s2.tab.refreshes[id]) {
      assert RefreshOk(s, s.tab.refreshes[id]);
    }
    forall c | 0 <= c < |s2.tab.calls| && s2.tab.calls[c].pc.LoginAnswered? ensures LoginOk(s2, c) {
      assert LoginOk(s, c);
    }
  }

  /** A presented token is never on its way from a login, so rotating it spares the logins' tokens. */
  lemma RefreshServedKeepsTokens(s: System, step: Step)
    requires Inv(s) && Enabled(s, step) && step.ServeRefresh?
    ensures TokensOk(Apply(s, step))
  {
    var t, s2 := s.tab, Apply(s, step);
    var cookie := t.refreshes[step.id].cookie;
    assert RefreshOk(s, t.refreshes[step.id]);
    assert t.refreshes.Keys == {step.id};
    if cookie.Some? && !Unusable(s.table, cookie.value, step.now) {
      var h := cookie.value;
      forall g | Usable(s, g) && g != h ensures Usable(s2, g) {}
      assert Usable(s2, step.minted);
      assert s2.tab.refreshes[step.id] == Accepted(h, step.minted, step.access);
    }
    assert CookieOk(s2) by {
      if t.cookie.Some? {
        assert Usable(s, t.cookie.value);
        if s2.tab.refreshes[step.id].Accepted? && t.cookie != cookie { assert Usable(s2, t.cookie.value); }
      }
    }
    forall c | 0 <= c < |s2.tab.calls| && s2.tab.calls[c].pc.LoginAnswered? ensures LoginOk(s2, c) {
      assert LoginOk(s, c);
      assert !Carries(t.refreshes[step.id], t.calls[c].pc.token);
    }
  }

  lemma LoginServedKeepsTokens(s: System, step: Step)
    requires Inv(s) && Enabled(s, step) && step.ServeLogin?
    ensures TokensOk(Apply(s, step))
  {
    var t, s2 := s.tab, Apply(s, step);
    forall h | Usable(s, h) ensures Usable(s2, h) && h != step.minted {}
    forall id | id in t.refreshes ensures RefreshOk(s2, t.refreshes[id]) && !Carries(t.refreshes[id], step.minted) {
      assert RefreshOk(s, t.refreshes[id]);
    }
    forall c | 0 <= c < |s2.tab.calls| && s2.tab.calls[c].pc.LoginAnswered? ensures LoginOk(s2, c) {
      if c != step.call { assert LoginOk(s, c); }
    }
  }

  lemma DeliveryKeepsTokens(s: System, step: Step)
    requires Inv(s) && Enabled(s, step) && step.Deliver?
    ensures TokensOk(Apply(s, step))
  {
    var t, s2 := s.tab, Apply(s, step);
    if t.calls[step.call].pc.LoginAnswered? { assert LoginOk(s, step.call); }
    JoinKeepsCarried(s);
    forall id | id in s2.tab.refreshes ensures RefreshOk(s2, s2.tab.refreshes[id]) {
      if id in t.refreshes { assert RefreshOk(s, t.refreshes[id]); }
    }
    forall c | 0 <= c < |s2.tab.calls| && s2.tab.calls[c].pc.LoginAnswered? ensures LoginOk(s2, c) {
      assert LoginOk(s, c);
      forall id | id in s2.tab.refreshes ensures !Carries(s2.tab.refreshes[id], t.calls[c].pc.token) {}
    }
  }

  /** A refresh that starts now carries the cookie in the jar, and no other answer is on its way. */
  lemma JoinKeepsCarried(s: System)
    requires Inv(s)
    ensures
      var t2 := Joined(s.tab);
      && (forall id :: id in s.tab.refreshes ==> id in t2.refreshes && t2.refreshes[id] == s.tab.refreshes[id])
      && (forall id :: id in t2.refreshes && id !in s.tab.refreshes ==>
            t2.refreshes[id] == Requested(s.tab.cookie) && RefreshOk(s, t2.refreshes[id]))
  {
  }

  lemma OwnStepKeepsTokens(s: System, step: Step)
    requires Inv(s) && Enabled(s, step)
    requires step.RestoreSession? || step.StartFetch? || step.Resume? || step.Continue?
      || step.AppSetsToken? || step.CookieExpires?
    ensures TokensOk(Apply(s, step))
  {
    var t, s2 := s.tab, Apply(s, step);
    JoinKeepsCarried(s);
    forall id | id in s2.tab.refreshes ensures RefreshOk(s2, s2.tab.refreshes[id]) {
      if id in t.refreshes { assert RefreshOk(s, t.refreshes[id]); }
    }
    forall c | 0 <= c < |s2.tab.calls| && s2.tab.calls[c].pc.LoginAnswered? ensures LoginOk(s2, c) {
      assert c < |t.calls| && s2.tab.calls[c] == t.calls[c];
      assert LoginOk(s, c);
    }
  }

  lemma AnswerKeepsTokens(s: System, step: Step)
    requires Inv(s) && Enabled(s, step)
    requires step.RefreshArrives? || step.ReadBody? || step.RunFinally? || step.RefuseRefresh?
    ensures TokensOk(Apply(s, step))
  {
    var t, s2 := s.tab, Apply(s, step);
    assert t.refreshes.Keys == {step.id};
    assert RefreshOk(s, t.refreshes[step.id]);
    forall c | 0 <= c < |s2.tab.calls| && s2.tab.calls[c].pc.LoginAnswered? ensures LoginOk(s2, c) {
      assert LoginOk(s, c);
      assert !Carries(t.refreshes[step.id], t.calls[c].pc.token);
    }
  }

  lemma StepKeepsInv(s: System, step: Step)
    requires Inv(s) && Enabled(s, step)
    ensures Inv(Apply(s, step))
  {
    TabKept(s, step);
    match step
    case RestoreSession => OwnStepKeepsTokens(s, step);
    case StartFetch(_) => OwnStepKeepsTokens(s, step);
    case Resume(_) => OwnStepKeepsTokens(s, step);
    case Deliver(_, _) => DeliveryKeepsTokens(s, step);
    case Continue(_) => OwnStepKeepsTokens(s, step);
    case RefreshArrives(_) => AnswerKeepsTokens(s, step);
    case ReadBody(_) => AnswerKeepsTokens(s, step);
    case RunFinally(_) => AnswerKeepsTokens(s, step);
    case AppSetsToken(_) => OwnStepKeepsTokens(s, step);
    case CookieExpires => OwnStepKeepsTokens(s, step);
    case ServeLogin(_, _, _, _, _) => LoginServedKeepsTokens(s, step);
    case ServeRefresh(_, _, _, _, _) => RefreshServedKeepsTokens(s, step);
    case RefuseRefresh(_) => AnswerKeepsTokens(s, step);
    case OtherLogin(_, _, _, _) => OthersKeepTokens(s, step);
    case OtherRefresh(_, _, _, _) => OthersKeepTokens(s, step);
    case OtherLogout(_) => OthersKeepTokens(s, step);
    case OtherSuspended(_) => OthersKeepTokens(s, step);
  }

  lemma {:induction false} RunKeepsInv(s: System, steps: seq<Step>)
    requires Inv(s) && Run(s, steps).Some?
    ensures Inv(Run(s, steps).value)
  {
    if steps != [] {
      var init := steps[..|steps| - 1];
      RunKeepsInv(s, init);
      StepKeepsInv(Run(s, init).value, steps[|steps| - 1]);
    }
  }

  lemma ReachableInv(s: System)
    requires Reachable(s)
    ensures Inv(s)
  {
    var start, steps :| Init(start) && Run(start, steps) == Some(s);
    RunKeepsInv(start, steps);
  }

  // ---- main results ----

  /** In every interleaving, refresh requests never overlap, and the server's reuse branch is never
      taken: the tab is never mistaken for a thief. */
  lemma NeverMistakenForTheft(s: System, step: Step)
    requires Reachable(s) && Enabled(s, step) && step.ServeRefresh?
    ensures s.tab.refreshes.Keys == {step.id}
    ensures
      var cookie := s.tab.refreshes[step.id].cookie;
      cookie.Some? ==> Live(s.table, cookie.value) && !IsReuse(s.table, cookie.value, step.now)
  {
    ReachableInv(s);
    assert RefreshOk(s, s.tab.refreshes[step.id]);
    assert forall id :: id in s.tab.refreshes ==> id == step.id;
  }

  /** After a run of `steps`, serving the refresh of `step` takes the server into its reuse branch. */
  predicate ReuseAfter(s: System, steps: seq<Step>, step: Step) {
    Run(s, steps).Some? && step.ServeRefresh? && Enabled(Run(s, steps).value, step) &&
    var s2 := Run(s, steps).value;
    s2.tab.refreshes[step.id].cookie.Some? && IsReuse(s2.table, s2.tab.refreshes[step.id].cookie.value, step.now)
  }

  /** A page has just loaded with the cookie of one of the tab's own sessions in the jar, live or not. */
  ghost predicate Loaded(s: System) {
    && s.tab == Tab(s.tab.cookie, None, None, map[], map[], [], 0)
    && s.tab.cookie.Some? && Owned(s, s.tab.cookie.value)
  }

  /** Exactly when a page load is safe: no run ever reaches the reuse branch if and only if the cookie the
      page loads with is live. No failed refresh clears a revoked one from the jar. */
  lemma SafeIffCookieIsLive(s: System)
    requires Loaded(s)
    ensures (forall steps, step :: !ReuseAfter(s, steps, step)) <==> Live(s.table, s.tab.cookie.value)
  {
    if Live(s.table, s.tab.cookie.value) {
      forall steps, step ensures !ReuseAfter(s, steps, step) {
        if Run(s, steps).Some? && step.ServeRefresh? && Enabled(Run(s, steps).value, step) {
          assert Init(s) && Reachable(Run(s, steps).value);
          NeverMistakenForTheft(Run(s, steps).value, step);
        }
      }
    } else {
      var minted := NewHash(s.table.Keys);
      RevokedCookieIsReuse(s, ServeRefresh(0, 0, minted, 0, 0));
    }
  }

  lemma RevokedCookieIsReuse(s: System, step: Step)
    requires Loaded(s) && !Live(s.table, s.tab.cookie.value)
    requires step.ServeRefresh? && step.id == 0 && step.minted !in s.table
    requires step.now <= s.table[s.tab.cookie.value].expiresAt
    ensures ReuseAfter(s, [RestoreSession], step)
  {
    assert [RestoreSession][..0] == [];
    assert Run(s, [RestoreSession]) == Some(Apply(s, RestoreSession));
  }

  /** The session is always somewhere: the token in the jar is unrevoked, or else the answer that
      will replace it is on its way and carries an unrevoked one. */
  lemma SessionNeverLost(s: System)
    requires Reachable(s) && s.tab.cookie.Some?
    ensures Live(s.table, s.tab.cookie.value) || exists id ::
      && id in s.tab.refreshes && s.tab.refreshes[id].Accepted?
      && s.tab.refreshes[id].presented == s.tab.cookie.value && Live(s.table, s.tab.refreshes[id].minted)
  {
    ReachableInv(s);
    if !Live(s.table, s.tab.cookie.value) {
      var id :| id in s.tab.refreshes && s.tab.refreshes[id].Accepted?
        && s.tab.refreshes[id].presented == s.tab.cookie.value;
      assert RefreshOk(s, s.tab.refreshes[id]);
    }
  }

  /** At most one refresh is ever outstanding, and it is the shared one. */
  lemma RefreshesNeverOverlap(s: System, a: RefreshId, b: RefreshId)
    requires Reachable(s) && a in s.tab.refreshes && b in s.tab.refreshes
    ensures a == b && s.tab.refreshInFlight == Some(a)
  {
    ReachableInv(s);
  }

  /** Every `apiFetch` sends at most twice. The second time comes only after a refresh that returned
      a token; a call begun during a refresh has sent nothing until that refresh has settled; and the
      session is declared expired only after a refresh that returned none. */
  lemma CallDiscipline(s: System, c: nat)
    requires Reachable(s) && c < |s.tab.calls|
    ensures
      var t, call := s.tab, s.tab.calls[c];
      && |call.sends| <= 2
      && (|call.sends| == 2 ==>
            && call.path == ApiPath && call.retriedAfter.Some?
            && call.retriedAfter.value in t.results && t.results[call.retriedAfter.value].Some?)
      && (call.begunDuring.Some? && call.sends != [] ==> call.begunDuring.value in t.results)
      && (call.pc.Done? && call.pc.expiredAfter.Some? ==>
            call.pc.expiredAfter.value in t.results && t.results[call.pc.expiredAfter.value].None?)
      && (call.pc.Done? ==> call.sends != [])
  {
    ReachableInv(s);
    assert CallOk(s.tab, s.tab.calls[c]);
  }

  /** A request is sent exactly when a call starts, or retries with a new token, while no refresh is in
      flight, or when the refresh it waited for has settled; and it carries what the token store holds at
      that moment. */
  lemma SendsCarryTheStore(s: System, step: Step, c: nat)
    requires Enabled(s, step) && c < |s.tab.calls|
    ensures
      var t := s.tab;
      var retries := step == Continue(c) && t.results[t.calls[c].pc.refresh].Some? && t.refreshInFlight.None?;
      Apply(s, step).tab.calls[c].sends ==
        t.calls[c].sends + if step == Resume(c) || retries then [t.access] else []
    ensures step.StartFetch? ==>
      Apply(s, step).tab.calls[|s.tab.calls|].sends == if s.tab.refreshInFlight.None? then [s.tab.access] else []
  {
  }

  // ---- termination ----

  /** How much a call still has to do. A 401 may start a refresh, so it must pay for one. */
  function CallRank(call: Call): nat {
    match call.pc
    case Waiting(_) => if call.allowRetry then 9 else 2
    case Sent => if call.allowRetry then 8 else 1
    case LoginAnswered(_) => 1
    case Refreshing(_) => 3
    case Done(_) => 0
  }

  function CallsRank(calls: seq<Call>): nat {
    if calls == [] then 0 else CallsRank(calls[..|calls| - 1]) + CallRank(calls[|calls| - 1])
  }

  function RefreshRank(t: Tab): nat {
    if t.refreshInFlight.None? || t.refreshInFlight.value !in t.refreshes then 0
    else
      match t.refreshes[t.refreshInFlight.value]
      case Requested(_) => 4
      case Accepted(_, _, _) => 3
      case Refused => 3
      case Arrived(_) => 2
      case Settled(_) => 1
  }

  function Rank(t: Tab): nat {
    CallsRank(t.calls) + RefreshRank(t)
  }

  /** The steps by which work in hand gets done: not the ones by which the application, the clock or
      other clients bring something new. */
  predicate Internal(step: Step) {
    || CallStep(step)
    || step.RefreshArrives? || step.ReadBody? || step.RunFinally? || step.ServeRefresh? || step.RefuseRefresh?
  }

  lemma {:induction false} CallsRankUpdate(calls: seq<Call>, c: nat, call: Call)
    requires c < |calls|
    ensures CallsRank(calls[c := call]) == CallsRank(calls) - CallRank(calls[c]) + CallRank(call)
  {
    var n := |calls| - 1;
    if c == n {
      assert calls[c := call][..n] == calls[..n];
    } else {
      assert calls[c := call][..n] == calls[..n][c := call];
      CallsRankUpdate(calls[..n], c, call);
    }
  }

  predicate CallStep(step: Step) {
    step.Resume? || step.Deliver? || step.Continue? || step.ServeLogin?
  }

  lemma CallStepPays(s: System, step: Step)
    requires TabOk(s.tab) && Enabled(s, step) && CallStep(step)
    ensures
      var t, t2 := s.tab, Apply(s, step).tab;
      && |t2.calls| == |t.calls| && t2.calls == t.calls[step.call := t2.calls[step.call]]
      && CallRank(t2.calls[step.call]) + RefreshRank(t2) < CallRank(t.calls[step.call]) + RefreshRank(t)
  {
  }

  lemma RefreshStepPays(s: System, step: Step)
    requires TabOk(s.tab) && Enabled(s, step) && Internal(step) && !CallStep(step)
    ensures Apply(s, step).tab.calls == s.tab.calls && RefreshRank(Apply(s, step).tab) < RefreshRank(s.tab)
  {
  }

  lemma InternalStepsDecrease(s: System, step: Step)
    requires TabOk(s.tab) && Enabled(s, step) && Internal(step)
    ensures Rank(Apply(s, step).tab) < Rank(s.tab)
  {
    if CallStep(step) {
      CallStepPays(s, step);
      CallsRankUpdate(s.tab.calls, step.call, Apply(s, step).tab.calls[step.call]);
    } else {
      RefreshStepPays(s, step);
    }
  }

  /** Work in hand gets done in a bounded number of steps: from any reachable state, no more than
      its rank, until something new is brought in. */
  lemma {:induction false} InternalRunsAreBounded(s: System, steps: seq<Step>)
    requires Reachable(s) && Run(s, steps).Some? && forall i :: 0 <= i < |steps| ==> Internal(steps[i])
    ensures |steps| + Rank(Run(s, steps).value.tab) <= Rank(s.tab)
  {
    if steps != [] {
      var init, last := steps[..|steps| - 1], steps[|steps| - 1];
      InternalRunsAreBounded(s, init);
      ReachableInv(s);
      RunKeepsInv(s, init);
      assert Internal(last);
      InternalStepsDecrease(Run(s, init).value, last);
    }
  }

  /** Nothing ever gets stuck: as long as some call is unfinished, one of those steps is enabled, and one
      that needs no refusal by the server. With the bound, every `apiFetch` finishes. */
  lemma UnfinishedCallsProgress(s: System, c: nat)
    requires Reachable(s) && c < |s.tab.calls| && !s.tab.calls[c].pc.Done?
    ensures exists step :: Internal(step) && !step.RefuseRefresh? && Enabled(s, step)
  {
    ReachableInv(s);
    var t, call := s.tab, s.tab.calls[c];
    assert CallOk(t, call);
    match call.pc
    case Sent => Witness(s, Deliver(c, false));
    case LoginAnswered(_) => Witness(s, Deliver(c, false));
    case Waiting(id) => if id in t.results { Witness(s, Resume(c)); } else { RefreshesProgress(s, id); }
    case Refreshing(id) => if id in t.results { Witness(s, Continue(c)); } else { RefreshesProgress(s, id); }
  }

  lemma Witness(s: System, step: Step)
    requires Internal(step) && !step.RefuseRefresh? && Enabled(s, step)
    ensures exists step :: Internal(step) && !step.RefuseRefresh? && Enabled(s, step)
  {
  }

  lemma RefreshesProgress(s: System, id: RefreshId)
    requires id in s.tab.refreshes
    ensures exists step :: Internal(step) && !step.RefuseRefresh? && Enabled(s, step)
  {
    match s.tab.refreshes[id]
    case Requested(_) =>
      var minted := NewHash(s.table.Keys);
      Witness(s, ServeRefresh(id, 0, minted, 0, 0));
    case Accepted(_, _, _) => Witness(s, RefreshArrives(id));
    case Refused => Witness(s, RefreshArrives(id));
    case Arrived(_) => Witness(s, ReadBody(id));
    case Settled(_) => Witness(s, RunFinally(id));
  }

  /** There is always another token to mint. */
  lemma {:induction false} NewHash(hs: set<TokenHash>) returns (h: TokenHash)
    ensures forall g :: g in hs ==> g < h
    decreases |hs|
  {
    if hs == {} {
      h := 0;
    } else {
      var g :| g in hs;
      h := NewHash(hs - {g});
      if h <= g { h := g + 1; }
      assert forall k :: k in hs ==> k == g || k in hs - {g};
    }
  }
}
