/** The client code under the protocol: any run of `ClientProtocol`, performed by the methods of `ApiClient`. */
module BrowserTab {
  import opened Wrappers
  import opened RefreshTokens
  import opened ApiClients
  import opened ClientProtocol

  /** One step. The tab's own steps are calls of the client's code; a step of the server only changes the
      message in flight that it answers. `reused` says that the server took its reuse branch. */
  method Perform(client: ApiClient, s: System, step: Step) returns (reused: bool)
    requires Enabled(s, step) && client.View() == s.tab
    modifies client
    ensures client.View() == Apply(s, step).tab
    ensures reused <==>
      step.ServeRefresh? && s.tab.refreshes[step.id].cookie.Some? &&
      IsReuse(s.table, s.tab.refreshes[step.id].cookie.value, step.now)
  {
    reused := false;
    match step
    case RestoreSession => var _ := client.RefreshAccessToken();
    case StartFetch(path) => var _ := client.ApiFetch(path);
    case Resume(c) => client.Send(c);
    case Deliver(c, unauthorized) => client.OnResponse(c, unauthorized);
    case Continue(c) => client.OnRefreshed(c);
    case RefreshArrives(id) => client.OnRefreshAnswer(id);
    case ReadBody(id) => client.OnRefreshBody(id);
    case RunFinally(id) => client.OnFinally(id);
    case AppSetsToken(value) => client.access := value;
    case CookieExpires => client.cookie := None;
    case ServeLogin(c, _, _, minted, _) =>
      client.calls := client.calls[c := client.calls[c].(pc := LoginAnswered(minted))];
    case ServeRefresh(id, now, minted, _, access) =>
      var cookie := client.refreshes[id].cookie;
      var accepted := cookie.Some? && !Unusable(s.table, cookie.value, now) && !s.table[cookie.value].revoked;
      reused := cookie.Some? && IsReuse(s.table, cookie.value, now);
      client.refreshes := client.refreshes[id :=
        if accepted then Accepted(cookie.value, minted, access) else Refused];
    case RefuseRefresh(id) => client.refreshes := client.refreshes[id := Refused];
    case OtherLogin(_, _, _, _) =>
    case OtherRefresh(_, _, _, _) =>
    case OtherLogout(_) =>
    case OtherSuspended(_) =>
  }

  lemma {:induction false} PrefixRuns(s: System, steps: seq<Step>, i: nat)
    requires Run(s, steps).Some? && i <= |steps|
    ensures Run(s, steps[..i]).Some?
    ensures i < |steps| ==>
      Enabled(Run(s, steps[..i]).value, steps[i]) &&
      Run(s, steps[..i + 1]) == Some(Apply(Run(s, steps[..i]).value, steps[i]))
    decreases |steps| - i
  {
    hide Enabled, Apply;
    if i == |steps| {
      assert steps[..i] == steps;
    } else {
      PrefixRuns(s, steps, i + 1);
      assert steps[..i + 1][..i] == steps[..i];
    }
  }

  /** From a page load on, the client's code does what the protocol says, step for step, and so what is
      proved of the protocol holds of the code: refreshes never overlap, no call sends more than twice, the
      session is never lost, and nothing the tab ever sends makes the server take it for a thief. */
  method Play(start: System, steps: seq<Step>) returns (client: ApiClient, reused: bool)
    requires Init(start) && Run(start, steps).Some?
    ensures fresh(client)
    ensures client.View() == Run(start, steps).value.tab
    ensures !reused
    ensures forall id :: id in client.refreshes ==> client.refreshInFlight == Some(id)
    ensures forall c :: 0 <= c < |client.calls| ==> |client.calls[c].sends| <= 2
    ensures
      var table := Run(start, steps).value.table;
      client.cookie.Some? && !Live(table, client.cookie.value) ==> exists id ::
        && id in client.refreshes && client.refreshes[id].Accepted?
        && client.refreshes[id].presented == client.cookie.value && Live(table, client.refreshes[id].minted)
  {
    hide Enabled, Apply, Init, Live;
    client := new ApiClient(start.tab.cookie);
    reused := false;
    var s := start;
    assert client.View() == s.tab by { InitialTab(start); }
    var i := 0;
    while i < |steps|
      invariant i <= |steps| && Run(start, steps[..i]) == Some(s)
      invariant client.View() == s.tab && !reused
    {
      PrefixRuns(start, steps, i);
      var again := Perform(client, s, steps[i]);
      NeverReused(start, steps[..i], steps[i]);
      reused := reused || again;
      s := Apply(s, steps[i]);
      i := i + 1;
    }
    assert steps[..i] == steps;
    Outcome(start, steps);
  }

  lemma InitialTab(s: System)
    requires Init(s)
    ensures s.tab == Tab(s.tab.cookie, None, None, map[], map[], [], 0)
  {
  }

  lemma NeverReused(start: System, steps: seq<Step>, step: Step)
    requires Init(start) && Run(start, steps).Some? && Enabled(Run(start, steps).value, step)
    ensures
      var s := Run(start, steps).value;
      step.ServeRefresh? && s.tab.refreshes[step.id].cookie.Some? ==>
        !IsReuse(s.table, s.tab.refreshes[step.id].cookie.value, step.now)
  {
    var s := Run(start, steps).value;
    assert Reachable(s);
    if step.ServeRefresh? { NeverMistakenForTheft(s, step); }
  }

  lemma Outcome(start: System, steps: seq<Step>)
    requires Init(start) && Run(start, steps).Some?
    ensures
      var s := Run(start, steps).value;
      && (forall id :: id in s.tab.refreshes ==> s.tab.refreshInFlight == Some(id))
      && (forall c :: 0 <= c < |s.tab.calls| ==> |s.tab.calls[c].sends| <= 2)
      && (s.tab.cookie.Some? && !Live(s.table, s.tab.cookie.value) ==> exists id ::
            && id in s.tab.refreshes && s.tab.refreshes[id].Accepted?
            && s.tab.refreshes[id].presented == s.tab.cookie.value && Live(s.table, s.tab.refreshes[id].minted))
  {
    hide Enabled, Apply, Inv;
    var s := Run(start, steps).value;
    assert Reachable(s);
    forall id | id in s.tab.refreshes ensures s.tab.refreshInFlight == Some(id) { RefreshesNeverOverlap(s, id, id); }
    forall c | 0 <= c < |s.tab.calls| ensures |s.tab.calls[c].sends| <= 2 { CallDiscipline(s, c); }
    if s.tab.cookie.Some? { SessionNeverLost(s); }
  }
}
