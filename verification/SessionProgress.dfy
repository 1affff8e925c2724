/**
 With nobody in its way every session operation gets where it should: the counterpart of the guarantees that hold
 whatever the others do.
 */
module SessionProgress {
  import opened Options
  import opened Sessions
  import opened SessionInvariant
  import opened SessionFallback
  import opened SessionReuse
  import opened SessionServer

  /** No transaction is open. */
  predicate Idle(s: State) {
    forall q :: q in s.procs ==> s.procs[q].phase.Ended?
  }

  /** Nobody but `p` holds a lock or has written anything. */
  predicate Free(s: State, p: Pid) {
    forall q :: q in s.procs && q != p ==> s.procs[q].lock == NoLock && s.procs[q].writes == map[]
  }

  /** From `s`, with only `p` acting, `p` can get to be `x` over the tables `db`. */
  ghost predicate Gets(s: State, p: Pid, x: Proc, db: Tables) {
    exists t :: GetsIn(s, t, p, x, db)
  }

  ghost predicate GetsIn(s: State, t: State, p: Pid, x: Proc, db: Tables) {
    Path(s, t) && Free(t, p) && p in t.procs && t.procs[p] == x && t.db == db
  }

  lemma QuietBegin(s: State, p: Pid, task: Task)
    requires Inv(s) && Idle(s) && p !in s.procs && TaskAllowed(s.db, task)
    ensures Gets(s, p, Proc(task, Opening, NoLock, map[]), s.db)
  {
    forall q | q in s.procs ensures s.procs[q].lock == NoLock && s.procs[q].writes == map[] {
      assert ProcOk(s.db, s.procs[q]);
    }
    PathApply(s, Begin(p, task));
    assert GetsIn(s, Apply(s, Begin(p, task)), p, Proc(task, Opening, NoLock, map[]), s.db);
  }

  lemma QuietApply(s: State, p: Pid, a: Action)
    requires Free(s, p) && p in s.procs && Actor(a) == Some(p) && Ripe(s.procs[p], a)
    ensures Enabled(s, a)
    ensures var t := Apply(s, a);
      && Free(t, p) && p in t.procs && t.procs[p] == ProcAfter(s.db, s.procs[p], a)
      && t.db == if a.Commit? then CommitTables(s.db, s.procs[p]) else s.db
  {
    RipeRuns(s, p, a);
    hide CommitTables;
  }

  /** One statement of `p`: nothing makes it wait. */
  lemma QuietStep(s: State, p: Pid, x: Proc, db: Tables, a: Action)
    requires Gets(s, p, x, db) && Actor(a) == Some(p) && Ripe(x, a)
    ensures Gets(s, p, ProcAfter(db, x, a), if a.Commit? then CommitTables(db, x) else db)
  {
    var t :| GetsIn(s, t, p, x, db);
    QuietApply(t, p, a);
    PathApply(t, a);
    PathTrans(s, t, Apply(t, a));
    hide ProcAfter; hide CommitTables; hide Apply; hide Path; hide Free;
    assert GetsIn(s, Apply(t, a), p, ProcAfter(db, x, a), if a.Commit? then CommitTables(db, x) else db);
  }

  lemma QuietInsert(s: State, p: Pid, x: Proc, db: Tables, successor: Jti)
    requires Gets(s, p, x, db) && x.task.Rotate? && x.phase.Claimed? && successor !in db.issued
    ensures Gets(s, p, AfterInsert(x, successor), db.(issued := db.issued + {successor}))
  {
    var t :| GetsIn(s, t, p, x, db);
    PathApply(t, Insert(p, successor));
    PathTrans(s, t, Apply(t, Insert(p, successor)));
    assert GetsIn(s, Apply(t, Insert(p, successor)), p, AfterInsert(x, successor), db.(issued := db.issued + {successor}));
  }

  lemma QuietWrite(s: State, p: Pid, x: Proc, db: Tables)
    requires Gets(s, p, x, db) && x.task.Change? && x.phase.Holding? && x.phase.found.Some?
    ensures Gets(s, p, x.(phase := Written(x.phase.found.value)), db)
  {
    var t :| GetsIn(s, t, p, x, db);
    PathApply(t, Write(p));
    PathTrans(s, t, Apply(t, Write(p)));
    assert GetsIn(s, Apply(t, Write(p)), p, x.(phase := Written(x.phase.found.value)), db);
  }

  /** `p` can finish with this outcome. */
  ghost predicate CanEnd(s: State, p: Pid, task: Task, outcome: Outcome) {
    exists t :: Path(s, t) && p in t.procs && t.procs[p].task == task && t.procs[p].phase == Ended(outcome)
  }

  lemma Ends(s: State, p: Pid, x: Proc, db: Tables)
    requires Gets(s, p, x, db) && x.phase.Ended?
    ensures CanEnd(s, p, x.task, x.phase.outcome)
  {
    var t :| GetsIn(s, t, p, x, db);
  }

  lemma QuietClaim(s: State, p: Pid, x: Proc, db: Tables)
    requires Gets(s, p, x, db) && x.task.Rotate? && x.phase.Holding?
    requires x.phase.found.Some? && !x.phase.found.value.deactivated
    ensures Gets(s, p, AfterClaim(db, x), db)
  {
    hide Gets; hide AfterClaim;
    QuietStep(s, p, x, db, Claim(p));
  }

  lemma QuietProbe(s: State, p: Pid, x: Proc, db: Tables)
    requires Gets(s, p, x, db) && x.phase.Missed?
    ensures Gets(s, p, AfterProbe(db, x), db)
  {
    hide Gets; hide AfterProbe;
    QuietStep(s, p, x, db, Probe(p));
  }

  /** Snapshot and execution of a multi-row statement. */
  lemma QuietUpdate(s: State, p: Pid, x: Proc, db: Tables)
    requires Gets(s, p, x, db) && AtSnapshot(x) && !x.phase.Ended?
    ensures Gets(s, p, x.(phase := Executed(Covered(db, x.task)), writes := Rewrites(db, x.task, Matching(db, x.task))), db)
  {
    hide Gets; hide Matching; hide Rewrites; hide Covered;
    QuietStep(s, p, x, db, Snapshot(p));
    QuietStep(s, p, AfterSnapshot(db, x), db, Execute(p));
  }

  lemma QuietCommit(s: State, p: Pid, x: Proc, db: Tables)
    requires Gets(s, p, x, db) && AtCommit(x) && !x.phase.Ended?
    ensures Gets(s, p, AfterCommit(x), CommitTables(db, x))
  {
    hide Gets; hide CommitTables; hide AfterCommit;
    QuietStep(s, p, x, db, Commit(p));
  }

  /** The lock is free, so the users row is read at once. */
  lemma QuietGrant(s: State, p: Pid, task: Task) returns (x: Proc)
    requires Inv(s) && Idle(s) && p !in s.procs && TaskAllowed(s.db, task)
    requires task.Revoke? ==> task.attempt.First?
    ensures x == AfterGrant(s.db, Proc(task, Opening, NoLock, map[])) && Gets(s, p, x, s.db)
  {
    QuietBegin(s, p, task);
    x := Proc(task, Opening, NoLock, map[]);
    hide Inv; hide Idle; hide Gets;
    QuietStep(s, p, x, s.db, Grant(p));
    x := AfterGrant(s.db, x);
  }

  /** A live token of an active user is rotated. */
  lemma QuietRotation(s: State, p: Pid, user: UserId, jti: Jti, family: Family, successor: Jti)
    requires Inv(s) && Idle(s) && p !in s.procs && successor !in s.db.issued
    requires Active(s.db, user) && HasRow(s.db, user, jti, family) && !s.db.tokens[jti].revoked
    ensures CanEnd(s, p, Rotate(user, jti, family), Rotated(successor))
  {
    var x := QuietGrant(s, p, Rotate(user, jti, family));
    var db := s.db;
    hide Inv; hide Idle; hide Gets; hide CanEnd; hide CommitTables; hide Ripe; hide ProcAfter; hide Actor;
    QuietClaim(s, p, x, db);
    x := AfterClaim(db, x);
    QuietInsert(s, p, x, db, successor);
    x, db := AfterInsert(x, successor), db.(issued := db.issued + {successor});
    QuietCommit(s, p, x, db);
    Ends(s, p, AfterCommit(x), CommitTables(db, x));
  }

  /** A revoked one is answered as reuse. */
  lemma QuietReuse(s: State, p: Pid, user: UserId, jti: Jti, family: Family)
    requires Inv(s) && Idle(s) && p !in s.procs
    requires Active(s.db, user) && HasRow(s.db, user, jti, family) && s.db.tokens[jti].revoked
    ensures CanEnd(s, p, Rotate(user, jti, family), Reuse)
  {
    var x := QuietGrant(s, p, Rotate(user, jti, family));
    var db := s.db;
    hide Inv; hide Idle; hide Gets; hide CanEnd; hide CommitTables; hide Ripe; hide ProcAfter; hide Actor;
    hide Matching; hide Rewrites;
    QuietClaim(s, p, x, db);
    x := AfterClaim(db, x);
    QuietProbe(s, p, x, db);
    x := AfterProbe(db, x);
    QuietUpdate(s, p, x, db);
    x := x.(phase := Executed(Covered(db, x.task)), writes := Rewrites(db, x.task, Matching(db, x.task)));
    QuietCommit(s, p, x, db);
    Ends(s, p, AfterCommit(x), CommitTables(db, x));
  }

  /** One of no active user, or with no row, is rejected. */
  lemma QuietRejection(s: State, p: Pid, user: UserId, jti: Jti, family: Family)
    requires Inv(s) && Idle(s) && p !in s.procs
    requires !Active(s.db, user) || !HasRow(s.db, user, jti, family)
    ensures CanEnd(s, p, Rotate(user, jti, family), Rejected)
  {
    var x := QuietGrant(s, p, Rotate(user, jti, family));
    var db := s.db;
    hide Inv; hide Idle; hide Gets; hide CanEnd; hide CommitTables; hide Ripe; hide ProcAfter; hide Actor;
    if user in db.users {
      if db.users[user].deactivated {
        QuietStep(s, p, x, db, RevokePresented(p));
        x := AfterPresented(db, x);
      } else {
        QuietClaim(s, p, x, db);
        x := AfterClaim(db, x);
        QuietProbe(s, p, x, db);
        x := AfterProbe(db, x);
      }
    }
    QuietCommit(s, p, x, db);
    Ends(s, p, AfterCommit(x), CommitTables(db, x));
  }

  /** A revocation finishes its first, locked pass. */
  lemma QuietRevocation(s: State, p: Pid, user: UserId, scope: Scope)
    requires Inv(s) && Idle(s) && p !in s.procs && TaskAllowed(s.db, Revoke(user, scope, First))
    ensures CanEnd(s, p, Revoke(user, scope, First), LockedPass(if scope.OneFamily? then {scope.family} else FamiliesOf(s.db, user)))
  {
    var x := QuietGrant(s, p, Revoke(user, scope, First));
    var db := s.db;
    hide Inv; hide Idle; hide Gets; hide CanEnd; hide CommitTables; hide Ripe; hide ProcAfter; hide Actor;
    hide Matching; hide Rewrites; hide FamiliesOf;
    QuietUpdate(s, p, x, db);
    x := x.(phase := Executed(Covered(db, x.task)), writes := Rewrites(db, x.task, Matching(db, x.task)));
    QuietCommit(s, p, x, db);
    Ends(s, p, AfterCommit(x), CommitTables(db, x));
  }

  /** An admin change of an existing user takes effect; it drops the user's sessions exactly unless it sets the role
      the user already has. */
  lemma QuietChange(s: State, p: Pid, user: UserId, edit: Edit) returns (x: Proc, db: Tables)
    requires Inv(s) && Idle(s) && p !in s.procs && user in s.db.users
    ensures Gets(s, p, x, db) && x.task == Change(user, edit) && x.phase.Ended? && x.phase.outcome.Changed?
    ensures db.users == EditUsers(s.db.users, user, edit)
    ensures edit.SetRole? && edit.role == s.db.users[user].role ==> db.tokens == s.db.tokens
    ensures !(edit.SetRole? && edit.role == s.db.users[user].role) ==>
      forall j :: j in db.tokens <==> j in s.db.tokens && s.db.tokens[j].user != user
  {
    x := QuietGrant(s, p, Change(user, edit));
    db := s.db;
    hide Inv; hide Idle; hide Gets; hide Matching; hide Rewrites; hide Merge; hide EditUsers; hide Covered;
    hide Ripe; hide ProcAfter; hide Actor;
    QuietWrite(s, p, x, db);
    x := x.(phase := Written(x.phase.found.value));
    if DropsSessions(edit, s.db.users[user]) {
      QuietUpdate(s, p, x, db);
      x := x.(phase := Executed(Covered(db, x.task)), writes := Rewrites(db, x.task, Matching(db, x.task)));
      AllGone(db, user, edit);
    } else {
      NothingMerged(db);
    }
    QuietCommit(s, p, x, db);
    x, db := AfterCommit(x), CommitTables(db, x);
  }

  lemma AllGone(db: Tables, user: UserId, edit: Edit)
    ensures var rewritten := Rewrites(db, Change(user, edit), Matching(db, Change(user, edit)));
      forall j :: j in Merge(db.tokens, rewritten) <==> j in db.tokens && db.tokens[j].user != user
  {
  }

  lemma NothingMerged(db: Tables)
    ensures Merge(db.tokens, map[]) == db.tokens
  {
  }
}
