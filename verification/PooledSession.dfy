/**
 What a checked-out client carries when it goes back to the pool: withBoundedTransaction
 (backend/src/core/plugins/auth.ts), runMigrations (backend/src/core/db/postgres.ts) and
 withLocalAttachmentMutationLock (backend/src/core/services/attachment-snapshot-lock.ts).

 Every statement may work, fail in a session that lives on, or find or leave the session dead.
 */
module PooledSession {
  import opened Options

  datatype Setting = StatementTimeout | LockTimeout

  datatype Tx = Idle | Active | Aborted

  /** `altered` are the session settings that differ from the pool's; `bounded` says that the transaction-local
      deadlines are in force, which end with the transaction. */
  datatype Session = Session(alive: bool, tx: Tx, bounded: bool, locked: bool, altered: set<Setting>)

  const DEAD := Session(false, Idle, false, false, {})

  datatype Statement =
    | Begin | Commit | Rollback
    | SetLocal                       // set_config(..., true)
    | Disable(setting: Setting)      // SET ... = 0
    | Reset(settings: set<Setting>)
    | Lock | Unlock
    | Sql

  datatype Fault = Works | Fails | Dies

  /** PostgreSQL: an aborted transaction refuses everything but its end; a failed COMMIT also ends it. */
  function After(s: Session, st: Statement, fault: Fault): (Session, bool) {
    if !s.alive || fault.Dies? then (DEAD, false)
    else if fault.Fails? then
      (if st.Commit? then s.(tx := Idle, bounded := false)
       else if s.tx.Active? && !st.Rollback? then s.(tx := Aborted) else s, false)
    else if s.tx.Aborted? && !st.Commit? && !st.Rollback? then (s, false)
    else (Effect(s, st), true)
  }

  function Effect(s: Session, st: Statement): Session {
    match st
    case Begin => s.(tx := Active)
    case Commit => s.(tx := Idle, bounded := false)
    case Rollback => s.(tx := Idle, bounded := false)
    case SetLocal => s.(bounded := s.tx.Active?)
    case Disable(x) => s.(altered := s.altered + {x})
    case Reset(xs) => s.(altered := s.altered - xs)
    case Lock => s.(locked := true)
    case Unlock => s.(locked := false)
    case _ => s
  }

  /** What the next borrower may assume. */
  predicate Clean(s: Session) {
    s.tx.Idle? && !s.bounded && !s.locked && s.altered == {}
  }

  // ---------------------------------------------------------------- the two leaks, as concrete exchanges

  /** Statements in the order they are issued, with what befalls each and whether it is answered without an error. */
  datatype Exchange = Over | Then(statement: Statement, fault: Fault, answered: bool, rest: Exchange)

  /** The exchange can take place in session `s` and leaves it as `end`. */
  predicate Leads(s: Session, e: Exchange, end: Session)
    decreases e
  {
    match e
    case Over => s == end
    case Then(statement, fault, answered, rest) =>
      After(s, statement, fault).1 == answered && Leads(After(s, statement, fault).0, rest, end)
  }

  /** What runMigrations issues when nothing is pending, with an unlock that fails while the session lives on: the
      reset still succeeds, so the client is not destroyed, and its session holds the lock. */
  lemma UnlockFailureLeaksLock(s: Session)
    requires s.alive && Clean(s)
    ensures Leads(s, Then(Disable(StatementTimeout), Works, true, Then(Disable(LockTimeout), Works, true,
      Then(Lock, Works, true, Then(Sql, Works, true, Then(Sql, Works, true,
      Then(Unlock, Fails, false, Then(Reset({StatementTimeout, LockTimeout}), Works, true, Over))))))),
      s.(locked := true))
    ensures !Clean(s.(locked := true))
  {
    var both: set<Setting> := {StatementTimeout, LockTimeout};
    var end, waiting := s.(locked := true), s.(altered := both);
    var held := waiting.(locked := true);
    assert held.altered - both == s.altered && s.altered + {StatementTimeout} + {LockTimeout} == both;
    var reset := Then(Reset(both), Works, true, Over);
    var unlock := Then(Unlock, Fails, false, reset);
    var create := Then(Sql, Works, true, Then(Sql, Works, true, unlock));
    assert Leads(held, reset, end);
    assert Leads(held, unlock, end);
    assert Leads(held, Then(Sql, Works, true, unlock), end);
    assert Leads(held, create, end);
    assert Leads(waiting, Then(Lock, Works, true, create), end);
    assert Leads(s.(altered := {StatementTimeout}),
                 Then(Disable(LockTimeout), Works, true, Then(Lock, Works, true, create)), end);
  }

  /** What withLocalAttachmentMutationLock issues around an operation that opens a transaction and returns: every
      statement works, so the client is not destroyed, and its session has the transaction open. */
  lemma OpenOperationLeaksTransaction(s: Session)
    requires s.alive && Clean(s)
    ensures Leads(s, Then(Disable(StatementTimeout), Works, true, Then(Lock, Works, true, Then(Begin, Works, true,
      Then(Unlock, Works, true, Then(Reset({StatementTimeout}), Works, true, Over))))), s.(tx := Active))
    ensures !Clean(s.(tx := Active))
  {
    var one: set<Setting> := {StatementTimeout};
    var end, waiting := s.(tx := Active), s.(altered := one);
    assert one - one == s.altered;
    var reset := Then(Reset(one), Works, true, Over);
    var unlock := Then(Unlock, Works, true, reset);
    assert Leads(waiting.(tx := Active), reset, end);
    assert Leads(waiting.(tx := Active, locked := true), unlock, end);
    assert Leads(waiting.(locked := true), Then(Begin, Works, true, unlock), end);
    assert Leads(waiting, Then(Lock, Works, true, Then(Begin, Works, true, unlock)), end);
  }

  // ---------------------------------------------------------------- clients

  datatype Failure = Failure(deadline: bool)

  class Client {
    var session: Session
    var releases: seq<bool>          // one entry per release(): was the client destroyed?
    var connectionError: Option<Failure>
    ghost var survived: set<Statement>   // statements that failed in a session that lived on

    method Query(st: Statement) returns (error: Option<Failure>)
      modifies this`session, this`connectionError, this`survived
      ensures exists fault :: After(old(session), st, fault) == (session, error.None?)
      ensures survived == old(survived) + (if error.Some? && session.alive then {st} else {})
      ensures old(connectionError).Some? || session.alive ==> connectionError == old(connectionError)
    {
      var fault: Fault, deadline: bool, reported: bool, reason: bool := *, *, *, *;
      ghost var before := session;
      var r := After(session, st, fault);
      session := r.0;
      error := if r.1 then None else Some(Failure(deadline));
      if !r.1 && session.alive { survived := survived + {st}; }
      // An ended session is reported by the query, by an event on the client, or by both.
      if !session.alive && connectionError.None? && reported { connectionError := Some(Failure(reason)); }
      assert After(before, st, fault) == (session, error.None?);
    }

    method Release(destroy: bool)
      modifies this`releases
      ensures releases == old(releases) + [destroy]
    {
      releases := releases + [destroy];
    }

    /** Dead, or alive with the session-level state it had. */
    twostate predicate Kept()
      reads this
    {
      || session == DEAD
      || (session.alive && session.locked == old(session).locked && session.altered == old(session).altered
          && (session.bounded ==> old(session).bounded))
    }

    // -------------------------------------------------------------- withBoundedTransaction

    /** The callback: some statements on this client, ended by the first error or by an exception of its own. */
    method Work(statements: nat) returns (error: Option<Failure>)
      requires session.alive && session.tx.Active? && session.bounded
      modifies this`session, this`connectionError, this`survived
      ensures Kept() && (error.None? ==> session.alive && session.tx.Active?)
      ensures session.alive ==> !session.tx.Idle? && connectionError == old(connectionError)
      ensures old(connectionError).Some? ==> connectionError == old(connectionError)
    {
      error := None;
      for i := 0 to statements
        invariant error.None? && session == old(session) && connectionError == old(connectionError)
      {
        error := Query(Sql);
        if error.Some? { return; }
      }
      var throws: bool := *;
      if throws { error := Some(Failure(false)); }
    }

    /** Released exactly once; whatever goes back to the pool holds nothing; success means an acknowledged
        COMMIT; the callback runs in a transaction with its deadlines in force; and the error is a deadline whenever either of the two reports of the failure is one. */
    method WithBoundedTransaction(statements: nat)
      returns (error: Option<Failure>, destroyed: bool, ghost committed: bool, ghost first: Option<Failure>)
      requires session.alive && Clean(session)
      modifies this
      ensures releases == old(releases) + [destroyed]
      ensures !destroyed ==> Clean(session)
      ensures error.None? <==> committed
      ensures first.Some? <==> error.Some?
      ensures error.Some? ==>
        (error.value.deadline <==> first.value.deadline || (connectionError.Some? && connectionError.value.deadline))
      ensures connectionError.Some? ==> destroyed && !session.alive
    {
      connectionError, committed, destroyed := None, false, false;
      error := Query(Begin);
      if error.None? { error := Query(SetLocal); }
      if error.None? { error := Work(statements); }
      if error.None? {
        error := Query(Commit);
        committed := error.None?;
      }
      first := error;
      if error.Some? {
        var rollback := Query(Rollback);
        destroyed := rollback.Some?;
        if !error.value.deadline && connectionError.Some? { error := connectionError; }
      }
      destroyed := destroyed || connectionError.Some?;
      Release(destroyed);
    }

    // -------------------------------------------------------------- runMigrations

    /** One file in its own transaction, under the lock; only statements after BEGIN are rolled back. */
    method ApplyFile() returns (error: Option<Failure>)
      requires session.alive && session.tx.Idle? && session.locked
      modifies this`session, this`connectionError, this`survived
      ensures Kept() && !session.tx.Active? && (error.None? ==> session.alive && session.tx.Idle?)
      ensures Unlock in survived <==> Unlock in old(survived)
    {
      error := Query(Begin);
      if error.Some? { return; }
      error := Query(Sql);
      if error.None? { error := Query(Sql); }
      if error.None? { error := Query(Commit); }
      if error.Some? {
        var rollback := Query(Rollback);
        if rollback.Some? { error := rollback; }
      }
    }

    /** Lift the timeouts, then wait for the advisory lock. */
    method TakeLock() returns (error: Option<Failure>)
      requires session.alive && Clean(session)
      modifies this`session, this`connectionError, this`survived
      ensures session == DEAD
        || (session.alive && session.tx.Idle? && !session.bounded && (session.locked <==> error.None?))
      ensures session.alive ==> session.altered <= {StatementTimeout, LockTimeout}
      ensures error.None? ==> session.alive && session.altered == {StatementTimeout, LockTimeout}
      ensures Unlock in survived <==> Unlock in old(survived)
    {
      error := Query(Disable(StatementTimeout));
      if error.None? { error := Query(Disable(LockTimeout)); }
      if error.None? { error := Query(Lock); }
    }

    /** Everything between taking and releasing the advisory lock. */
    method ApplyFiles(pending: nat) returns (error: Option<Failure>)
      requires session.alive && session.tx.Idle? && session.locked
      modifies this`session, this`connectionError, this`survived
      ensures Kept() && !session.tx.Active? && (error.None? ==> session.alive && session.tx.Idle?)
      ensures Unlock in survived <==> Unlock in old(survived)
    {
      error := Query(Sql);
      if error.None? { error := Query(Sql); }
      if error.Some? { return; }
      for i := 0 to pending
        invariant Kept() && session.alive && session.tx.Idle? && error.None?
        invariant Unlock in survived <==> Unlock in old(survived)
      {
        var unreadable: bool := *;
        if unreadable { return Some(Failure(false)); }
        error := ApplyFile();
        if error.Some? { return; }
      }
    }

    /** The files are applied under the lock with the timeouts lifted, and success means that they were.  Released
        exactly once; a client that goes back has no open transaction and the pool's timeouts, and
        it still holds the migrations lock exactly when the swallowed unlock failed in a session that lived. */
    method RunMigrations(pending: nat) returns (error: Option<Failure>, destroyed: bool, ghost started: Option<Session>)
      requires session.alive && Clean(session)
      modifies this
      ensures releases == old(releases) + [destroyed]
      ensures !destroyed ==> session.alive && session.tx.Idle? && session.altered == {}
      ensures !destroyed ==> (session.locked <==> Unlock in survived)
      ensures !destroyed && Unlock !in survived ==> Clean(session)
      ensures error.None? ==> started.Some?
      ensures started.Some? ==> started.value.locked && started.value.altered == {StatementTimeout, LockTimeout}
    {
      survived, started := {}, None;
      error := TakeLock();
      if error.None? {
        started := Some(session);
        error := ApplyFiles(pending);
        var ignored := Query(Unlock);
      }
      var reset := Query(Reset({StatementTimeout, LockTimeout}));
      destroyed := reset.Some?;
      Release(destroyed);
    }

    // -------------------------------------------------------------- withLocalAttachmentMutationLock

    /** The operation may run any statements but the lock and setting ones, and may end its own transactions or not. */
    method Operation(statements: nat) returns (error: Option<Failure>)
      modifies this`session, this`connectionError, this`survived
      requires session.alive && session.locked
      ensures Kept()
    {
      error := None;
      for i := 0 to statements
        invariant Kept()
      {
        var st: Statement := *;
        if st.Begin? || st.Commit? || st.Rollback? || st.Sql? { error := Query(st); }
        var handled: bool := *;
        if error.Some? && !handled { return; }
      }
      var throws: bool := *;
      error := if throws then Some(Failure(false)) else None;
    }

    /** The operation runs under the lock, and success means that it ran.  Released exactly once; a client that goes
        back holds no lock and has the pool's timeouts whatever
        failed, and it is wholly clean exactly when the operation left no transaction open. */
    method WithLocalAttachmentMutationLock(statements: nat)
      returns (error: Option<Failure>, destroyed: bool, ghost started: Option<Session>, ghost operation: Option<Failure>,
               ghost left: Tx)
      requires session.alive && Clean(session)
      modifies this
      ensures releases == old(releases) + [destroyed]
      ensures !destroyed ==> session.alive && !session.locked && session.altered == {} && session.tx == left
      ensures !destroyed ==> (Clean(session) <==> left.Idle?)
      ensures operation.Some? ==> error == operation
      ensures error.None? ==> !destroyed && started.Some?
      ensures started.Some? ==> started.value.alive && started.value.locked && started.value.tx.Idle?
    {
      left, destroyed, started := Idle, false, None;
      var lockAcquired := false;
      error := Query(Disable(StatementTimeout));
      if error.None? { error := Query(Lock); }
      if error.None? {
        lockAcquired := true;
        started := Some(session);
        error := Operation(statements);
        left := session.tx;
      }
      operation := error;
      if lockAcquired {
        var unlock := Query(Unlock);
        if unlock.Some? {
          destroyed := true;
          if error.None? { error := unlock; }
        }
      }
      var reset := Query(Reset({StatementTimeout}));
      if reset.Some? {
        destroyed := true;
        if error.None? { error := reset; }
      }
      Release(destroyed);
    }

    /** A caller that already owns the lock lends its client, which is neither locked again nor released. */
    method WithLentClient(statements: nat) returns (error: Option<Failure>)
      requires session.alive && session.locked
      modifies this
      ensures releases == old(releases) && Kept()
    {
      error := Operation(statements);
    }
  }
}
