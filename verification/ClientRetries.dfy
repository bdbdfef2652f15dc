/** What becomes of a call that is answered with a 401, and of the token store and the cookie jar. */
module ClientRetries {
  import opened Wrappers
  import opened Domain
  import opened RefreshTokens
  import opened ApiClients
  import opened ClientProtocol

  // ---- what each step does to the jar, the store and the refresh in flight ----

  /** The one cookie the browser keeps: set by the answers to logins and refreshes, as they arrive. */
  lemma JarAfter(s: System, step: Step)
    requires Enabled(s, step)
    ensures
      var t, cookie := s.tab, Apply(s, step).tab.cookie;
      match step
      case Deliver(c, _) => cookie == if t.calls[c].pc.LoginAnswered? then Some(t.calls[c].pc.token) else t.cookie
      case RefreshArrives(id) => cookie == if t.refreshes[id].Accepted? then Some(t.refreshes[id].minted) else t.cookie
      case CookieExpires => cookie == None
      case _ => cookie == t.cookie
  {
  }

  /** The access-token cell: emptied by a refused refresh, filled when the body of an accepted one is read. */
  lemma StoreAfter(s: System, step: Step)
    requires Enabled(s, step)
    ensures
      var t, access := s.tab, Apply(s, step).tab.access;
      match step
      case RefreshArrives(id) => access == if t.refreshes[id].Refused? then None else t.access
      case ReadBody(id) => access == Some(t.refreshes[id].access)
      case AppSetsToken(value) => access == value
      case _ => access == t.access
  {
  }

  /** A refresh that was in flight before is shared; otherwise a new one is requested with the cookie in
      the jar. Either way `id` is in flight afterwards. */
  ghost predicate Shares(t: Tab, t2: Tab, id: RefreshId) {
    && t2.refreshInFlight == Some(id) && id in t2.refreshes
    && if t.refreshInFlight.Some? then t2.refreshInFlight == t.refreshInFlight && t2.refreshes == t.refreshes
       else id !in t.refreshes && id !in t.results && t2.refreshes == t.refreshes[id := Requested(t.cookie)]
  }

  /** The call may be retried, and is waiting for its first answer. */
  predicate Retryable(call: Call) {
    call.pc.Sent? && call.allowRetry && call.path == ApiPath
  }

  /** A 401 to a retryable call starts or joins a refresh and has the call wait for it; no other delivery
      starts a refresh, and it ends its call. Nothing else is touched. */
  lemma UnauthorizedIsRefreshed(s: System, c: nat, unauthorized: bool)
    requires Reachable(s) && Enabled(s, Deliver(c, unauthorized))
    ensures
      var t, t2 := s.tab, Apply(s, Deliver(c, unauthorized)).tab;
      && |t2.calls| == |t.calls| && t2.calls[c].sends == t.calls[c].sends
      && (forall d :: 0 <= d < |t.calls| && d != c ==> t2.calls[d] == t.calls[d])
      && if unauthorized && Retryable(t.calls[c]) then
           t2.calls[c].pc.Refreshing? && Shares(t, t2, t2.calls[c].pc.refresh)
         else
           && t2.calls[c].pc == Done(None)
           && t2.refreshes == t.refreshes && t2.refreshInFlight == t.refreshInFlight
  {
    ReachableInv(s);
    assert CallOk(s.tab, s.tab.calls[c]);
  }

  /** A call starts with its path and one retry ahead of it. */
  lemma StartIsFaithful(s: System, path: Path)
    ensures
      var t, t2 := s.tab, Apply(s, StartFetch(path)).tab;
      && |t2.calls| == |t.calls| + 1 && t2.calls[..|t.calls|] == t.calls
      && t2.calls[|t.calls|].path == path && t2.calls[|t.calls|].allowRetry
      && t2.calls[|t.calls|].begunDuring == t.refreshInFlight
  {
  }

  /** Restoring the session shares the same refresh. */
  lemma RestoreIsShared(s: System)
    requires Reachable(s)
    ensures
      var t2 := Apply(s, RestoreSession).tab;
      t2.refreshInFlight.Some? && Shares(s.tab, t2, t2.refreshInFlight.value) && t2.calls == s.tab.calls
  {
    ReachableInv(s);
  }

  /** The server accepts a refresh exactly if it presents a live, unexpired token. */
  lemma RefreshIsAnswered(s: System, step: Step)
    requires Enabled(s, step) && step.ServeRefresh?
    ensures
      var cookie, answer := s.tab.refreshes[step.id].cookie, Apply(s, step).tab.refreshes[step.id];
      if cookie.Some? && Live(s.table, cookie.value) && step.now <= s.table[cookie.value].expiresAt then
        answer == Accepted(cookie.value, step.minted, step.access) && Live(Apply(s, step).table, step.minted)
      else
        answer == Refused
  {
  }

  /** What a settled refresh returned is what the waiting calls get: the token that was read from its
      answer, or none. */
  lemma ResultIsTheAnswer(s: System, id: RefreshId)
    ensures Enabled(s, ReadBody(id)) ==>
      Apply(s, ReadBody(id)).tab.refreshes[id] == Settled(Some(s.tab.refreshes[id].access))
    ensures Enabled(s, RefreshArrives(id)) && s.tab.refreshes[id].Refused? ==>
      Apply(s, RefreshArrives(id)).tab.refreshes[id] == Settled(None)
    ensures Enabled(s, RefreshArrives(id)) && s.tab.refreshes[id].Accepted? ==>
      Apply(s, RefreshArrives(id)).tab.refreshes[id] == Arrived(s.tab.refreshes[id].access)
    ensures Enabled(s, RunFinally(id)) ==>
      var t2 := Apply(s, RunFinally(id)).tab;
      id in t2.results && t2.results[id] == s.tab.refreshes[id].result && t2.refreshInFlight.None?
  {
  }

  // ---- over whole runs ----

  /** The call has been answered with a 401 and has not given up: it waits for a refresh, or has gone on
      to its second attempt, or has ended because the refresh returned nothing. */
  predicate Chased(call: Call) {
    call.pc.Refreshing? || !call.allowRetry || (call.pc.Done? && call.pc.expiredAfter.Some?)
  }

  lemma ChasedStays(s: System, step: Step, c: nat)
    requires Enabled(s, step) && c < |s.tab.calls| && Chased(s.tab.calls[c])
    ensures c < |Apply(s, step).tab.calls| && Chased(Apply(s, step).tab.calls[c])
  {
  }

  lemma {:induction false} ChasedThroughout(s: System, steps: seq<Step>, c: nat)
    requires Run(s, steps).Some? && c < |s.tab.calls| && Chased(s.tab.calls[c])
    ensures c < |Run(s, steps).value.tab.calls| && Chased(Run(s, steps).value.tab.calls[c])
  {
    hide Apply, Enabled, Chased;
    if steps != [] {
      var init := steps[..|steps| - 1];
      ChasedThroughout(s, init, c);
      ChasedStays(Run(s, init).value, steps[|steps| - 1], c);
    }
  }

  lemma {:induction false} RunOn(start: System, steps: seq<Step>, more: seq<Step>)
    requires Run(start, steps).Some? && Run(Run(start, steps).value, more).Some?
    ensures Run(start, steps + more) == Run(Run(start, steps).value, more)
  {
    hide Apply, Enabled;
    if more == [] {
      assert steps + more == steps;
    } else {
      RunOn(start, steps, more[..|more| - 1]);
      assert (steps + more)[..|steps + more| - 1] == steps + more[..|more| - 1];
    }
  }

  lemma StillReachable(s: System, steps: seq<Step>)
    requires Reachable(s) && Run(s, steps).Some?
    ensures Reachable(Run(s, steps).value)
  {
    hide Run, Init;
    var start, before :| Init(start) && Run(start, before) == Some(s);
    RunOn(start, before, steps);
    assert Run(start, before + steps) == Some(Run(s, steps).value);
  }

  /** The call was sent a second time, after a refresh that returned a token, or it ended with the session
      expired, after a refresh that returned none. */
  predicate RetriedOrGaveUp(t: Tab, call: Call) {
    || (|call.sends| == 2 && call.retriedAfter.Some?
        && call.retriedAfter.value in t.results && t.results[call.retriedAfter.value].Some?)
    || (|call.sends| == 1 && call.pc.Done? && call.pc.expiredAfter.Some?
        && call.pc.expiredAfter.value in t.results && t.results[call.pc.expiredAfter.value].None?)
  }

  /** A retryable call that is answered with a 401 does not end there: whatever happens afterwards, when it
      is done it has either been retried with a new token, or the session has expired. */
  lemma RetriedOrExpired(s: System, c: nat, steps: seq<Step>)
    requires Reachable(s) && Enabled(s, Deliver(c, true)) && Retryable(s.tab.calls[c])
    requires Run(Apply(s, Deliver(c, true)), steps).Some?
    ensures
      var t := Run(Apply(s, Deliver(c, true)), steps).value.tab;
      c < |t.calls| && (t.calls[c].pc.Done? ==> RetriedOrGaveUp(t, t.calls[c]))
  {
    var s1 := Apply(s, Deliver(c, true));
    UnauthorizedIsRefreshed(s, c, true);
    FirstStep(s, Deliver(c, true));
    hide Apply, Enabled, Run, Reachable, RetriedOrGaveUp;
    ChasedThroughout(s1, steps, c);
    StillReachable(s, [Deliver(c, true)]);
    StillReachable(s1, steps);
    var s2 := Run(s1, steps).value;
    if s2.tab.calls[c].pc.Done? { ChasedToTheEnd(s2, c); }
  }

  lemma FirstStep(s: System, step: Step)
    requires Enabled(s, step)
    ensures Run(s, [step]) == Some(Apply(s, step))
  {
    assert [step][..0] == [];
  }

  lemma ChasedToTheEnd(s: System, c: nat)
    requires Reachable(s) && c < |s.tab.calls| && Chased(s.tab.calls[c]) && s.tab.calls[c].pc.Done?
    ensures RetriedOrGaveUp(s.tab, s.tab.calls[c])
  {
    ReachableInv(s);
    assert CallOk(s.tab, s.tab.calls[c]);
  }
}
