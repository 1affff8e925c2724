/**
 When a presented refresh token is rotated, refused or punished: the facts about the tables that decide it, and
 why they still stand when the transaction acts on them.
 */
module SessionReuse {
  import opened Options
  import opened Sessions
  import opened SessionInvariant
  import opened SessionFallback

  predicate Active(db: Tables, user: UserId) {
    user in db.users && !db.users[user].deactivated
  }

  /** The table has the presented row: this JTI, of this user, in this family. */
  predicate HasRow(db: Tables, user: UserId, jti: Jti, family: Family) {
    jti in db.tokens && db.tokens[jti].user == user && db.tokens[jti].family == family
  }

  /** What each answer to a presented token says of the tables it was decided on.  The presented JTI has been
      signed before, as the signature check sees to; the reservation is for one that has not. */
  predicate Justified(before: Tables, seen: Tables, user: UserId, jti: Jti, family: Family, outcome: Outcome) {
    match outcome
    case Rotated(_) => Active(seen, user) && HasRow(seen, user, jti, family) && !seen.tokens[jti].revoked
    case Reuse =>
      && Active(seen, user) && HasRow(seen, user, jti, family)
      && (jti in before.issued ==> seen.tokens[jti].revoked)
    case Rejected => !Active(seen, user) || !HasRow(seen, user, jti, family)
    case _ => true
  }

  // ---------------------------------------------------------------- the users row is held

  lemma HoldingActive(s: State, p: Pid)
    requires Inv(s) && p in s.procs && s.procs[p].phase.Holding?
    requires s.procs[p].phase.found.Some? && !s.procs[p].phase.found.value.deactivated
    ensures Active(s.db, s.procs[p].task.user) && s.procs[p].lock != NoLock
  {
    assert ProcOk(s.db, s.procs[p]);
  }

  lemma InsertedFacts(s: State, p: Pid)
    requires Inv(s) && p in s.procs && s.procs[p].phase.Inserted?
    ensures var task := s.procs[p].task;
      && task.Rotate? && Active(s.db, task.user) && HasRow(s.db, task.user, task.jti, task.family)
      && !s.db.tokens[task.jti].revoked
  {
    assert ProcOk(s.db, s.procs[p]);
  }

  // ---------------------------------------------------------------- between the lost claim and the probe

  /** The claim found no live row to take, of a JTI that was signed before. */
  predicate Lost(db: Tables, task: Task) requires task.Rotate? {
    && task.jti in db.issued
    && (HasRow(db, task.user, task.jti, task.family) ==> db.tokens[task.jti].revoked)
  }

  /** The transaction is past its lost claim. */
  predicate PastMissed(x: Proc) {
    x.task.Rotate? && (x.phase.Found? || x.phase.Absent? || x.phase.Snapped? || x.phase.Executed? || x.phase.Ended?)
  }

  lemma PastMissedStep(s: State, a: Action, p: Pid)
    requires Enabled(s, a) && p in s.procs && PastMissed(s.procs[p])
    ensures p in Apply(s, a).procs && PastMissed(Apply(s, a).procs[p])
  {
    hide CommitTables;
  }

  /** Nobody changes the users row of a transaction that holds its lock. */
  lemma ActiveStays(s: State, a: Action, p: Pid)
    requires Inv(s) && Enabled(s, a) && p in s.procs && s.procs[p].lock != NoLock && Active(s.db, s.procs[p].task.user)
    requires !a.Commit? || a.pid != p
    ensures Active(Apply(s, a).db, s.procs[p].task.user)
  {
    if a.Commit? && s.procs[a.pid].task.Change? {
      assert ProcOk(s.db, s.procs[a.pid]);
      assert s.procs[a.pid].lock != NoLock;
    }
    hide TablesOk; hide ProcOk; hide Merge;
  }

  /** Nor does anybody give a signed JTI of that user a row: a login signs a new one, and a rotation of the user
      would hold the same lock. */
  lemma LostStays(s: State, a: Action, p: Pid)
    requires Inv(s) && Enabled(s, a) && p in s.procs && s.procs[p].task.Rotate? && s.procs[p].lock != NoLock
    requires Lost(s.db, s.procs[p].task) && (!a.Commit? || a.pid != p)
    ensures Lost(Apply(s, a).db, s.procs[p].task)
  {
    var task := s.procs[p].task;
    if a.Commit? {
      assert ProcOk(s.db, s.procs[a.pid]);
      NoNewRow(s, a.pid, p);
    }
    hide Inv; hide CommitTables;
  }

  lemma NoNewRow(s: State, q: Pid, p: Pid)
    requires Inv(s) && Enabled(s, Commit(q)) && q != p && p in s.procs && s.procs[p].task.Rotate?
    requires s.procs[p].lock != NoLock && Lost(s.db, s.procs[p].task)
    ensures Lost(CommitTables(s.db, s.procs[q]), s.procs[p].task)
  {
    var x, task := s.procs[q], s.procs[p].task;
    assert ProcOk(s.db, x);
    if x.phase.Inserted? { assert x.task.user != task.user; }
    if task.jti in x.writes { assert WriteOk(s.db, x, task.jti); }
    hide TablesOk; hide ProcOk;
  }

  /** The transaction is where it lost the claim, with an active user and no live row to have claimed. */
  predicate MissedHere(s: State, p: Pid, x: Proc) {
    && p in s.procs && s.procs[p] == x && x.task.Rotate? && x.phase.Missed? && x.lock != NoLock
    && Active(s.db, x.task.user)
  }

  lemma MissedMoves(s: State, a: Action, p: Pid)
    requires Enabled(s, a) && p in s.procs && s.procs[p].task.Rotate? && s.procs[p].phase.Missed?
    ensures p in Apply(s, a).procs && (Apply(s, a).procs[p] == s.procs[p] || PastMissed(Apply(s, a).procs[p]))
    ensures !(a.Commit? && a.pid == p)
  {
    hide CommitTables;
  }

  lemma MissedStep(s: State, a: Action, p: Pid, x: Proc)
    requires Inv(s) && Enabled(s, a) && MissedHere(s, p, x)
    ensures
      || (p in Apply(s, a).procs && PastMissed(Apply(s, a).procs[p]))
      || (MissedHere(Apply(s, a), p, x) && (Lost(s.db, x.task) ==> Lost(Apply(s, a).db, x.task)))
  {
    MissedMoves(s, a, p);
    hide Inv; hide Active; hide Lost; hide Apply; hide Enabled; hide PastMissed;
    ActiveStays(s, a, p);
    if Lost(s.db, x.task) { LostStays(s, a, p); }
  }

  lemma {:induction false} PastMissedRun(s: State, run: seq<Action>, p: Pid)
    requires ValidRun(s, run) && p in s.procs && PastMissed(s.procs[p])
    ensures p in Exec(s, run).procs && PastMissed(Exec(s, run).procs[p])
    decreases |run|
  {
    if run != [] {
      PastMissedStep(s, run[0], p);
      PastMissedRun(Apply(s, run[0]), run[1..], p);
    }
  }

  /** As long as the transaction has not gone on, the user stays active and a lost claim stays lost. */
  lemma {:induction false} MissedRun(s: State, run: seq<Action>, p: Pid, x: Proc)
    requires Inv(s) && ValidRun(s, run) && MissedHere(s, p, x)
    ensures var t := Exec(s, run);
      || (p in t.procs && PastMissed(t.procs[p]))
      || (MissedHere(t, p, x) && (Lost(s.db, x.task) ==> Lost(t.db, x.task)))
    decreases |run|
  {
    if run != [] {
      MissedStep(s, run[0], p, x);
      InvStep(s, run[0]);
      var t := Apply(s, run[0]);
      if MissedHere(t, p, x) { MissedRun(t, run[1..], p, x); } else { PastMissedRun(t, run[1..], p); }
    }
  }
}
