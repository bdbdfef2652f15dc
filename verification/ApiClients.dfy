/** The browser side of token rotation: the shared fetch wrapper of one tab.

    JavaScript runs one synchronous stretch of code at a time; an `await` ends a stretch. Each function
    below is one such stretch, as a change of the tab's state, and each method of `ApiClient` is the
    code of that stretch. */
module ApiClients {
  import opened Wrappers
  import opened Domain

  type RefreshId = nat

  /** An access token as the client sees it: an opaque, non-empty value. */
  type Access = nat

  datatype Path = LoginPath | RegisterPath | ApiPath

  /** How far one `performRefresh` has got. */
  datatype Refresh =
    | Requested(cookie: Option<TokenHash>)                     // the request is on its way
    | Accepted(presented: TokenHash, minted: TokenHash, access: Access)  // a successful answer is on its way
    | Refused                                                  // an error answer is on its way
    | Arrived(access: Access)                                  // the answer is here, its body is being read
    | Settled(result: Option<Access>)                          // done, but `finally` has not run

  /** Where one `apiFetch` is suspended. */
  datatype Pc =
    | Waiting(refresh: RefreshId)      // for a refresh that was in flight, before sending
    | Sent                             // for its response
    | LoginAnswered(token: TokenHash)  // the same, and the server has logged the user in
    | Refreshing(refresh: RefreshId)   // for a refresh, after a 401
    | Done(expiredAfter: Option<RefreshId>)  // finished; the session expired if that refresh failed it

  /** `sends` holds the access token each request of this call carried. The last two fields record
      history: which refresh was in flight at the start, and after which refresh it retried. */
  datatype Call = Call(
    path: Path,
    allowRetry: bool,
    pc: Pc,
    sends: seq<Option<Access>>,
    begunDuring: Option<RefreshId>,
    retriedAfter: Option<RefreshId>)

  /** `results` are the settled refresh promises. */
  datatype Tab = Tab(
    cookie: Option<TokenHash>,
    access: Option<Access>,
    refreshInFlight: Option<RefreshId>,
    refreshes: map<RefreshId, Refresh>,
    results: map<RefreshId, Option<Access>>,
    calls: seq<Call>,
    nextRefresh: RefreshId)

  /** `refreshAccessToken`: share the refresh in flight, or start one. */
  function Joined(t: Tab): Tab {
    if t.refreshInFlight.Some? then t
    else
      t.(refreshes := t.refreshes[t.nextRefresh := Requested(t.cookie)],
         refreshInFlight := Some(t.nextRefresh),
         nextRefresh := t.nextRefresh + 1)
  }

  function JoinedId(t: Tab): RefreshId {
    if t.refreshInFlight.Some? then t.refreshInFlight.value else t.nextRefresh
  }

  /** Read the token store and send. */
  function Sending(t: Tab, call: Call): Call {
    call.(pc := Sent, sends := call.sends + [t.access])
  }

  /** `performFetch` up to its first suspension. */
  function Entering(t: Tab, call: Call): Call {
    if t.refreshInFlight.Some? then call.(pc := Waiting(t.refreshInFlight.value)) else Sending(t, call)
  }

  function Started(t: Tab, path: Path): Tab {
    t.(calls := t.calls + [Entering(t, Call(path, true, Sent, [], t.refreshInFlight, None))])
  }

  function Resumed(t: Tab, c: nat): Tab
    requires c < |t.calls|
  {
    t.(calls := t.calls[c := Sending(t, t.calls[c])])
  }

  /** A response arrives. */
  function Delivered(t: Tab, c: nat, unauthorized: bool): Tab
    requires c < |t.calls|
  {
    var call := t.calls[c];
    if call.pc.LoginAnswered? then
      t.(cookie := Some(call.pc.token), calls := t.calls[c := call.(pc := Done(None))])
    else if unauthorized && call.allowRetry && call.path == ApiPath then
      Joined(t).(calls := t.calls[c := call.(pc := Refreshing(JoinedId(t)))])
    else
      t.(calls := t.calls[c := call.(pc := Done(None))])
  }

  /** The refresh a call was waiting for after a 401 has settled. */
  function Continued(t: Tab, c: nat): Tab
    requires c < |t.calls| && t.calls[c].pc.Refreshing? && t.calls[c].pc.refresh in t.results
  {
    var call := t.calls[c];
    var id := call.pc.refresh;
    t.(calls := t.calls[c :=
      if t.results[id].Some? then Entering(t, call.(allowRetry := false, retriedAfter := Some(id)))
      else call.(pc := Done(Some(id)))])
  }

  /** The answer to a refresh arrives; the browser stores its cookie first. */
  function Arrives(t: Tab, id: RefreshId): Tab
    requires id in t.refreshes
  {
    match t.refreshes[id]
    case Accepted(_, minted, access) => t.(cookie := Some(minted), refreshes := t.refreshes[id := Arrived(access)])
    case _ => t.(access := None, refreshes := t.refreshes[id := Settled(None)])
  }

  function BodyRead(t: Tab, id: RefreshId): Tab
    requires id in t.refreshes && t.refreshes[id].Arrived?
  {
    var access := t.refreshes[id].access;
    t.(access := Some(access), refreshes := t.refreshes[id := Settled(Some(access))])
  }

  /** `finally`: clear the shared promise and let everyone waiting for it go on. */
  function Cleared(t: Tab, id: RefreshId): Tab
    requires id in t.refreshes && t.refreshes[id].Settled?
  {
    t.(refreshInFlight := None, refreshes := t.refreshes - {id}, results := t.results[id := t.refreshes[id].result])
  }

  class ApiClient {
    var cookie: Option<TokenHash>
    var access: Option<Access>
    var refreshInFlight: Option<RefreshId>
    var refreshes: map<RefreshId, Refresh>
    var results: map<RefreshId, Option<Access>>
    var calls: seq<Call>
    var nextRefresh: RefreshId

    ghost function View(): Tab
      reads this
    {
      Tab(cookie, access, refreshInFlight, refreshes, results, calls, nextRefresh)
    }

    constructor (cookie: Option<TokenHash>)
      ensures View() == Tab(cookie, None, None, map[], map[], [], 0)
    {
      this.cookie, access, refreshInFlight := cookie, None, None;
      refreshes, results, calls, nextRefresh := map[], map[], [], 0;
    }

    method RefreshAccessToken() returns (id: RefreshId)
      modifies this
      ensures View() == Joined(old(View())) && id == JoinedId(old(View()))
    {
      if refreshInFlight.None? {
        refreshes := refreshes[nextRefresh := Requested(cookie)];
        refreshInFlight := Some(nextRefresh);
        nextRefresh := nextRefresh + 1;
      }
      id := refreshInFlight.value;
    }

    method Send(c: nat)
      requires c < |calls|
      modifies this`calls
      ensures View() == old(View()).(calls := old(calls)[c := Sending(old(View()), old(calls)[c])])
    {
      calls := calls[c := calls[c].(pc := Sent, sends := calls[c].sends + [access])];
    }

    method PerformFetch(c: nat)
      requires c < |calls|
      modifies this`calls
      ensures View() == old(View()).(calls := old(calls)[c := Entering(old(View()), old(calls)[c])])
    {
      if refreshInFlight.Some? {
        calls := calls[c := calls[c].(pc := Waiting(refreshInFlight.value))];
      } else {
        Send(c);
      }
    }

    method ApiFetch(path: Path) returns (c: nat)
      modifies this`calls
      ensures View() == Started(old(View()), path) && c == |old(calls)|
    {
      c := |calls|;
      calls := calls + [Call(path, true, Sent, [], refreshInFlight, None)];
      PerformFetch(c);
    }

    method OnResponse(c: nat, unauthorized: bool)
      requires c < |calls|
      modifies this
      ensures View() == Delivered(old(View()), c, unauthorized)
    {
      var call := calls[c];
      if call.pc.LoginAnswered? { cookie := Some(call.pc.token); }
      if !call.pc.LoginAnswered? && unauthorized && call.allowRetry && call.path == ApiPath {
        var id := RefreshAccessToken();
        calls := calls[c := call.(pc := Refreshing(id))];
      } else {
        calls := calls[c := call.(pc := Done(None))];
      }
    }

    method OnRefreshed(c: nat)
      requires c < |calls| && calls[c].pc.Refreshing? && calls[c].pc.refresh in results
      modifies this`calls
      ensures View() == Continued(old(View()), c)
    {
      var id := calls[c].pc.refresh;
      if results[id].Some? {
        calls := calls[c := calls[c].(allowRetry := false, retriedAfter := Some(id))];
        PerformFetch(c);
      } else {
        calls := calls[c := calls[c].(pc := Done(Some(id)))];
      }
    }

    method OnRefreshAnswer(id: RefreshId)
      requires id in refreshes
      modifies this
      ensures View() == Arrives(old(View()), id)
    {
      var answer := refreshes[id];
      if answer.Accepted? {
        cookie := Some(answer.minted);
        refreshes := refreshes[id := Arrived(answer.access)];
      } else {
        access := None;
        refreshes := refreshes[id := Settled(None)];
      }
    }

    method OnRefreshBody(id: RefreshId)
      requires id in refreshes && refreshes[id].Arrived?
      modifies this
      ensures View() == BodyRead(old(View()), id)
    {
      access := Some(refreshes[id].access);
      refreshes := refreshes[id := Settled(access)];
    }

    method OnFinally(id: RefreshId)
      requires id in refreshes && refreshes[id].Settled?
      modifies this
      ensures View() == Cleared(old(View()), id)
    {
      results := results[id := refreshes[id].result];
      refreshes := refreshes - {id};
      refreshInFlight := None;
    }
  }
}
