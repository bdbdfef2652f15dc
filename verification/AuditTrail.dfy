/** The audit log replays to the state it describes. */
module AuditTrail {
  import opened Domain
  import opened Rules
  import opened Runs
  import opened Effects

  predicate IsVerdict(row: AuditRow, u: UserId) {
    row.target == u && (row.action == Action.SuspendUser || row.action == Action.ReinstateUser)
  }

  /** The suspensions and reinstatements of one user, oldest first. */
  function Verdicts(log: seq<AuditRow>, u: UserId): seq<Action> {
    if log == [] then []
    else
      var last := log[|log| - 1];
      var before := Verdicts(log[..|log| - 1], u);
      if IsVerdict(last, u) then before + [last.action] else before
  }

  /** Suspension first, then strictly in turn. */
  ghost predicate Alternates(vs: seq<Action>) {
    forall i :: 0 <= i < |vs| ==> vs[i] == if i % 2 == 0 then Action.SuspendUser else Action.ReinstateUser
  }

  /** Folding the log: everybody starts active, and the last verdict stands. */
  function Replay(log: seq<AuditRow>, u: UserId): bool {
    if log == [] then true
    else if IsVerdict(log[|log| - 1], u) then log[|log| - 1].action == Action.ReinstateUser
    else Replay(log[..|log| - 1], u)
  }

  function Removals(log: seq<AuditRow>, l: ListingId): nat {
    if log == [] then 0
    else
      var last := log[|log| - 1];
      Removals(log[..|log| - 1], l) + if last.action == Action.RemoveListing && last.target == l then 1 else 0
  }

  /** What the log says about one user, given the user table. */
  ghost predicate ToldOfUser(users: map<UserId, User>, log: seq<AuditRow>, u: UserId) {
    if u in users then Alternates(Verdicts(log, u)) && users[u].isActive == (|Verdicts(log, u)| % 2 == 0)
    else Verdicts(log, u) == []
  }

  /** What the log says about one listing, given the listing table. */
  ghost predicate ToldOfListing(listings: map<ListingId, Listing>, log: seq<AuditRow>, l: ListingId) {
    && Removals(log, l) <= 1
    && (Removals(log, l) == 1 ==> l in listings && listings[l].status == Deleted)
  }

  ghost predicate AuditInv(w: World) {
    && (forall u :: ToldOfUser(w.db.users, w.db.audit, u))
    && (forall l :: ToldOfListing(w.db.listings, w.db.audit, l))
  }

  lemma Appended(log: seq<AuditRow>, row: AuditRow, x: nat)
    ensures Verdicts(log + [row], x) == Verdicts(log, x) + if IsVerdict(row, x) then [row.action] else []
    ensures Removals(log + [row], x) ==
      Removals(log, x) + if row.action == Action.RemoveListing && row.target == x then 1 else 0
  {
  }

  lemma AlternatesMore(vs: seq<Action>, v: Action)
    requires Alternates(vs) && v == if |vs| % 2 == 0 then Action.SuspendUser else Action.ReinstateUser
    ensures Alternates(vs + [v])
  {
  }

  lemma VerdictsKept(s: Settings, w: World, e: Event, u: UserId)
    requires Possible(w, e) && ToldOfUser(w.db.users, w.db.audit, u)
    ensures ToldOfUser(Step(s, w, e).db.users, Step(s, w, e).db.audit, u)
  {
    hide Step, Answer, Removals, Verdicts, CurrentUser, RequireAdmin;
    var log, log2 := w.db.audit, Step(s, w, e).db.audit;
    AuditIsThat(s, w, e);
    if u in w.db.users {
      StandingAfter(s, w, e, u);
    } else {
      if u in Step(s, w, e).db.users { NewUsersAreActive(s, w, e, u); }
    }
    if Answer(s, w, e).Ok? { VerdictsNeedStanding(s, w, e); }
    if log2 != log {
      var row := log2[|log|];
      assert log2 == log + [row];
      Appended(log, row, u);
      if IsVerdict(row, u) { AlternatesMore(Verdicts(log, u), row.action); }
    }
  }

  lemma RemovalsKept(s: Settings, w: World, e: Event, l: ListingId)
    requires Possible(w, e) && ToldOfListing(w.db.listings, w.db.audit, l)
    ensures ToldOfListing(Step(s, w, e).db.listings, Step(s, w, e).db.audit, l)
  {
    hide Step, Answer, Removals, Verdicts, Applied, CurrentUser, RequireAdmin;
    var log, log2 := w.db.audit, Step(s, w, e).db.audit;
    AuditIsThat(s, w, e);
    ListingsAreThose(s, w, e);
    if (e.req.UpdateListing? || e.req.MarkSold?) && Answer(s, w, e).Ok? { EditsNeedAvailable(s, w, e); }
    if log2 != log {
      assert log2 == log + [log2[|log|]];
      Appended(log, log2[|log|], l);
    }
  }

  lemma AuditKept(s: Settings, w: World, e: Event)
    requires AuditInv(w) && Possible(w, e)
    ensures AuditInv(Step(s, w, e)) && w.db.audit <= Step(s, w, e).db.audit
  {
    hide Step, Answer, ToldOfUser, ToldOfListing;
    AuditIsThat(s, w, e);
    forall u ensures ToldOfUser(Step(s, w, e).db.users, Step(s, w, e).db.audit, u) {
      VerdictsKept(s, w, e, u);
    }
    forall l ensures ToldOfListing(Step(s, w, e).db.listings, Step(s, w, e).db.audit, l) {
      RemovalsKept(s, w, e, l);
    }
  }

  lemma {:induction false} RunKeepsAudit(s: Settings, w: World, es: seq<Event>)
    requires AuditInv(w) && ValidRun(s, w, es)
    ensures AuditInv(Run(s, w, es))
    ensures w.db.audit <= Run(s, w, es).db.audit
  {
    hide Step, AuditInv;
    if es != [] {
      RunKeepsAudit(s, w, es[..|es| - 1]);
      AuditKept(s, Run(s, w, es[..|es| - 1]), es[|es| - 1]);
    }
  }

  lemma GenesisIsTold(w: World)
    requires Genesis(w)
    ensures AuditInv(w)
  {
  }

  lemma ReachableAudit(s: Settings, w: World)
    requires Reachable(s, w)
    ensures AuditInv(w)
  {
    hide Step, Run, ValidRun, AuditInv;
    var start, es :| Genesis(start) && ValidRun(s, start, es) && w == Run(s, start, es);
    GenesisIsTold(start);
    RunKeepsAudit(s, start, es);
  }

  lemma {:induction false} ReplayIsLastVerdict(log: seq<AuditRow>, u: UserId)
    ensures Replay(log, u) ==
      (Verdicts(log, u) == [] || Verdicts(log, u)[|Verdicts(log, u)| - 1] == Action.ReinstateUser)
  {
    if log != [] { ReplayIsLastVerdict(log[..|log| - 1], u); }
  }

  lemma ReplayGivesStanding(users: map<UserId, User>, log: seq<AuditRow>, u: UserId)
    requires u in users && ToldOfUser(users, log, u)
    ensures users[u].isActive == Replay(log, u)
  {
    ReplayIsLastVerdict(log, u);
    var vs := Verdicts(log, u);
    if vs != [] {
      var i := |vs| - 1;
      assert vs[i] == if i % 2 == 0 then Action.SuspendUser else Action.ReinstateUser;
    }
  }

  /** In every reachable state: replaying the log gives a user's standing, and the user's verdicts
      alternate from a suspension. */
  lemma AuditReplays(s: Settings, w: World, u: UserId)
    requires Reachable(s, w) && u in w.db.users
    ensures w.db.users[u].isActive == Replay(w.db.audit, u)
    ensures Alternates(Verdicts(w.db.audit, u))
  {
    hide Step, Run, ValidRun, Reachable;
    ReachableAudit(s, w);
    assert ToldOfUser(w.db.users, w.db.audit, u);
    ReplayGivesStanding(w.db.users, w.db.audit, u);
  }

  /** In every reachable state a listing has at most one removal row, which means it is deleted. */
  lemma AtMostOneRemoval(s: Settings, w: World, l: ListingId)
    requires Reachable(s, w)
    ensures Removals(w.db.audit, l) <= 1
    ensures Removals(w.db.audit, l) == 1 ==> l in w.db.listings && w.db.listings[l].status == Deleted
  {
    hide Step, Run, ValidRun, Reachable;
    ReachableAudit(s, w);
    assert ToldOfListing(w.db.listings, w.db.audit, l);
  }

  /** The log is append-only over every run. */
  lemma LogOnlyGrows(s: Settings, w: World, es: seq<Event>)
    requires Reachable(s, w) && ValidRun(s, w, es)
    ensures w.db.audit <= Run(s, w, es).db.audit
  {
    hide Step, Run, ValidRun, Reachable;
    ReachableAudit(s, w);
    RunKeepsAudit(s, w, es);
  }
}
