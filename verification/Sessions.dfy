/** A request's database session and the commit-or-rollback rule around its body. */
module Sessions {
  import opened Wrappers
  import opened Domain

  class Session {
    var committed: Db
    var pending: Db
    /** For each statement of the request, in order, whether the database refuses it for an unforeseen
        reason. A statement beyond the script is carried out. */
    const faults: seq<bool>
    /** How many statements have been sent. */
    var statements: nat

    predicate Refused(i: nat) {
      i < |faults| && faults[i]
    }

    /** Some statement from number `since` on has been refused. */
    ghost predicate RefusedSince(since: nat)
      reads this
    {
      exists i :: since <= i < statements && Refused(i)
    }

    /** What happened since statement number `since` ended in a crash if and only if the database refused
        one of the statements sent. */
    ghost predicate CrashedIffRefused(since: nat, crashed: bool)
      reads this
    {
      since <= statements && (crashed <==> RefusedSince(since))
    }

    constructor (db: Db, faults: seq<bool>)
      ensures committed == db && pending == db && this.faults == faults && statements == 0
    {
      committed, pending, this.faults, statements := db, db, faults, 0;
    }

    /** Send the pending writes to the database. */
    method Flush() returns (r: Outcome<()>)
      modifies this`statements
      ensures statements == old(statements) + 1
      ensures r == if Refused(old(statements)) then Crashed else Ok(())
    {
      r := if Refused(statements) then Crashed else Ok(());
      statements := statements + 1;
    }

    method Rollback()
      modifies this`pending
      ensures pending == committed
    {
      pending := committed;
    }

    method Commit() returns (r: Outcome<()>)
      modifies this
      ensures statements == old(statements) + 1 && pending == old(pending)
      ensures r == if Refused(old(statements)) then Crashed else Ok(())
      ensures committed == if r.Ok? then old(pending) else old(committed)
    {
      r := Flush();
      if r.Ok? { committed := pending; }
    }

    /** The transactional lifecycle: a body that succeeds or raises a `DomainError` is committed,
        and any other exception (the commit's own included) leaves the committed state alone. */
    method Finish<T>(body: Outcome<T>) returns (r: Outcome<T>)
      modifies this
      ensures statements == if body.Crashed? then old(statements) else old(statements) + 1
      ensures r == if body.Crashed? || Refused(old(statements)) then Crashed else body
      ensures committed == if r.Crashed? then old(committed) else old(pending)
      ensures pending == committed
    {
      r := body;
      if body.Crashed? {
        Rollback();
      } else {
        var done := Commit();
        if done.Crashed? {
          Rollback();
          r := Crashed;
        }
      }
    }
  }
}
