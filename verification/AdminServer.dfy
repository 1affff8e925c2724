/**
 updateUser, deactivateUser, deleteUser and the two bootstrap routes as straight-line code over the shared
 database, with other clients running between any two statements.
 */
module AdminServer {
  import opened AdminMembership

  /** What any stretch of the protocol keeps: admins stay, and the routes create at most the very first one. */
  ghost predicate Keeps(s: State, t: State) {
    && Inv(t)
    && (SomeActiveAdmin(s.users) ==> SomeActiveAdmin(t.users))
    && (RealAdminExists(s.users) ==> RealAdminExists(t.users))
    && (t.routeAdmins == s.routeAdmins
        || (!RealAdminExists(s.users) && RealAdminExists(t.users) && t.routeAdmins == s.routeAdmins + 1))
  }

  lemma StepKeeps(s: State, a: Action)
    requires Inv(s) && Enabled(s, a)
    ensures Keeps(s, Apply(s, a))
  {
    InvStep(s, a);
    if SomeActiveAdmin(s.users) { ActiveAdminStays(s, a); }
    if RealAdminExists(s.users) { RealAdminStays(s, a); }
    if Apply(s, a).routeAdmins != s.routeAdmins { RouteAdminIsFirst(s, a); }
  }

  /** What the operation leaves at its target, whoever that is: a deactivation keeps the role, a role change keeps the
      status, a deletion re-asserts the sentinel; and it leaves every other row as it was. */
  predicate TookEffect(users: map<UserId, Row>, users': map<UserId, Row>, target: UserId, edit: Edit) {
    && target in users
    && (match edit
        case SetRole(admin) => target in users' && users'[target] == Row(admin, users[target].deactivated)
        case Deactivate => target in users' && users'[target] == Row(users[target].admin, true)
        case Remove => target !in users' && SYSTEM in users' && users'[SYSTEM] == Row(true, false))
    && (forall id :: id in users && id != target ==> id in users' && users'[id] == users[id])
    && (forall id :: id in users' && id != target && !(edit.Remove? && id == SYSTEM) ==> id in users)
  }

  predicate ActsFor(a: Action, p: Pid) {
    !a.CreateUser? && !a.Reactivate? && a.pid == p
  }

  /** The transaction itself is at the point of issuing the statement. */
  predicate Ripe(x: Proc, a: Action) {
    match a
    case Grant(_) => x.task.Change? && x.phase.Opening?
    case Guard(_) => x.task.Change? && x.phase.Holding? && Removes(x.task.edit, x.phase.row)
    case Check(_) => x.task.Change? && x.phase.Guarding?
    case Write(_) =>
      x.task.Change? && (x.phase.Checked? || (x.phase.Holding? && !Removes(x.task.edit, x.phase.row)))
    case LockTable(_) => !x.task.Change? && x.phase.Opening?
    case Decide(_, _, _) => !x.task.Change? && x.phase.TableLocked?
    case Insert(_, _) => x.phase.Decided?
    case Commit(_) => x.phase.Written? || x.phase.Inserted?
    case _ => false
  }

  /** Another transaction's lock, or a taken id, stands in the way. */
  predicate Blocked(s: State, p: Pid, a: Action) {
    p in s.procs &&
    match a
    case Grant(_) => s.procs[p].task.Change? && RowTaken(s, s.procs[p].task.target)
    case Guard(_) => AdvisoryTaken(s)
    case Write(_) => TableTaken(s)
    case LockTable(_) => TableTaken(s) || TableWritten(s)
    case Insert(_, id) => id == SYSTEM || id in s.everUsers
    case _ => false
  }

  class Server {
    var s: State

    constructor ()
      ensures s == INIT && Inv(s)
    {
      s := INIT;
    }

    method Perform(a: Action)
      requires Inv(s) && Enabled(s, a)
      modifies this
      ensures s == Apply(old(s), a) && Keeps(old(s), s)
    {
      StepKeeps(s, a);
      s := Apply(s, a);
    }

    /** Any number of statements of other clients. */
    method Interfere(p: Pid)
      requires Inv(s)
      modifies this
      ensures Keeps(old(s), s)
      ensures p in s.procs <==> p in old(s).procs
      ensures p in s.procs ==> s.procs[p] == old(s).procs[p]
    {
      var n: int :| 0 <= n;
      for i := 0 to n
        invariant Keeps(old(s), s)
        invariant p in s.procs <==> p in old(s).procs
        invariant p in s.procs ==> s.procs[p] == old(s).procs[p]
      {
        var a: Action := *;
        if Enabled(s, a) && !ActsFor(a, p) {
          Perform(a);
        }
      }
    }

    /** One awaited statement of `p`: it runs once nothing blocks it, or fails and rolls back. */
    method Step(p: Pid, a: Action) returns (ok: bool, ghost before: State)
      requires Inv(s) && p in s.procs && ActsFor(a, p) && Ripe(s.procs[p], a)
      modifies this
      ensures Keeps(old(s), s) && p in s.procs && s.procs[p].task == old(s).procs[p].task
      ensures ok ==>
        && Keeps(old(s), before) && p in before.procs && before.procs[p] == old(s).procs[p]
        && Enabled(before, a) && s == Apply(before, a)
      ensures !ok ==> s.procs[p].phase == Ended(Aborted)
    {
      Interfere(p);
      before := s;
      if Blocked(s, p, a) {
        ok := false;
      } else {
        ok := *;
      }
      if ok {
        Perform(a);
      } else {
        Perform(Abort(p));
      }
    }

    /** updateUser / deactivateUser / deleteUser: lock the row, guard a removal, write, COMMIT.  `seen` is the
        state in which the operation was decided: of the commit on success, of the refusing statement else. */
    method ChangeUser(p: Pid, target: UserId, actor: UserId, edit: Edit) returns (outcome: Outcome, ghost seen: State)
      requires Inv(s) && p !in s.procs
      modifies this
      ensures Keeps(old(s), s) && p in s.procs && s.procs[p].phase == Ended(outcome)
      ensures outcome == Refused <==> target == SYSTEM || (target == actor && !edit.SetRole?)
      ensures outcome == Done || outcome == Refused || outcome == NotFound || outcome == LastAdmin || outcome == Aborted
      ensures outcome == Done || outcome == NotFound || outcome == LastAdmin ==> Keeps(old(s), seen)
      ensures outcome == Done ==> TookEffect(seen.users, s.users, target, edit)
      ensures outcome == NotFound ==> target !in seen.users
      ensures outcome == LastAdmin ==> target in seen.users && seen.users[target].admin && edit != SetRole(true)
      ensures outcome == LastAdmin ==>
        forall id :: id in seen.users && id != target && id != SYSTEM ==> !seen.users[id].admin || seen.users[id].deactivated
    {
      hide Keeps; hide Inv; hide TookEffect;
      seen := s;
      Perform(Begin(p, Change(target, actor, edit)));
      KeepsInv(old(s), s);
      if RefusedOutright(Change(target, actor, edit)) { return Refused, s; }
      ghost var t := s;
      var ok;
      ok, seen := Step(p, Grant(p));
      KeepsTrans(old(s), t, s);
      if ok { KeepsTrans(old(s), t, seen); }
      if s.procs[p].phase.Ended? { return s.procs[p].phase.outcome, seen; }
      if Removes(edit, s.procs[p].phase.row) {
        t := s;
        outcome, seen := GuardRemoval(p);
        KeepsTrans(old(s), t, s);
        if outcome == LastAdmin { KeepsTrans(old(s), t, seen); }
        if outcome != Done { return outcome, seen; }
      }
      t := s;
      outcome, seen := WriteAndCommit(p);
      KeepsTrans(old(s), t, s);
      if outcome == Done { KeepsTrans(old(s), t, seen); }
    }

    /** assertNotLastActiveAdminTx; Done means the removal may go on. */
    method GuardRemoval(p: Pid) returns (outcome: Outcome, ghost seen: State)
      requires Inv(s) && p in s.procs && Ripe(s.procs[p], Guard(p))
      modifies this
      ensures Keeps(old(s), s) && p in s.procs && s.procs[p].task == old(s).procs[p].task
      ensures outcome == Done || outcome == LastAdmin || outcome == Aborted
      ensures outcome == Done ==> s.procs[p].phase == Checked(old(s).procs[p].phase.row)
      ensures outcome != Done ==> s.procs[p].phase == Ended(outcome)
      ensures outcome == LastAdmin ==> Keeps(old(s), seen)
      ensures outcome == LastAdmin ==> var task := s.procs[p].task;
        && task.target in seen.users && seen.users[task.target].admin && task.edit != SetRole(true)
        && forall id :: id in seen.users && id != task.target && id != SYSTEM ==>
             !seen.users[id].admin || seen.users[id].deactivated
    {
      hide Keeps; hide Inv;
      ghost var t;
      var ok;
      ok, seen := Step(p, Guard(p));
      if !ok { return Aborted, s; }
      KeepsInv(old(s), s);
      t := s;
      ok, seen := Step(p, Check(p));
      KeepsTrans(old(s), t, s);
      if !ok { return Aborted, s; }
      KeepsTrans(old(s), t, seen);
      RefusedAsLast(seen, p);
      outcome := if s.procs[p].phase.Ended? then LastAdmin else Done;
    }

    method WriteAndCommit(p: Pid) returns (outcome: Outcome, ghost seen: State)
      requires Inv(s) && p in s.procs && Ripe(s.procs[p], Write(p))
      modifies this
      ensures Keeps(old(s), s) && p in s.procs && s.procs[p].phase == Ended(outcome)
      ensures outcome == Done || outcome == Aborted
      ensures outcome == Done ==> var task := old(s).procs[p].task;
        Keeps(old(s), seen) && TookEffect(seen.users, s.users, task.target, task.edit)
    {
      ghost var t;
      var ok;
      ok, seen := Step(p, Write(p));
      if !ok { return Aborted, s; }
      t := s;
      ok, seen := Step(p, Commit(p));
      KeepsTrans(old(s), t, s);
      if ok {
        CommitTakesEffect(seen, p);
        KeepsTrans(old(s), t, seen);
      }
      outcome := s.procs[p].phase.outcome;
    }

    /** createRegistrationUser (`task == Register`) and createSetupAdministrator, under the table lock. */
    method CreateFirstUser(p: Pid, task: Task, open: bool, id: UserId)
      returns (outcome: Outcome, asAdmin: bool, ghost probeFailed: bool, ghost seen: State)
      requires Inv(s) && p !in s.procs && !task.Change?
      modifies this
      ensures Keeps(old(s), s) && p in s.procs && s.procs[p].phase == Ended(outcome)
      ensures outcome == Done || outcome == RegistrationDisabled || outcome == AlreadySetUp || outcome == Aborted
      ensures outcome == Done ==> Keeps(old(s), seen) && s.users == seen.users[id := Row(asAdmin, false)]
      ensures outcome == Done ==> id !in seen.users && id != SYSTEM
      ensures outcome == Done ==> (asAdmin <==> forall u :: u in seen.users && u != SYSTEM ==> !seen.users[u].admin)
      ensures outcome == Done && !asAdmin ==> task.Register? && open
      ensures outcome == RegistrationDisabled ==> task.Register? && !open && (RealAdminExists(s.users) || probeFailed)
      ensures outcome == AlreadySetUp ==> task.SetupAdmin? && RealAdminExists(s.users)
      ensures probeFailed ==> outcome == RegistrationDisabled || outcome == Aborted
    {
      hide Keeps; hide Inv; hide RealAdminExists;
      outcome, asAdmin, probeFailed, seen := Aborted, false, false, s;
      KeepsStart(s, p, task);
      Perform(Begin(p, task));
      ghost var t := s;
      var ok;
      ok, seen := Step(p, LockTable(p));
      KeepsTrans(old(s), t, s);
      if !ok { return; }
      t := s;
      var failed;
      outcome, asAdmin, failed := DecideRole(p, open);
      probeFailed := failed;
      KeepsTrans(old(s), t, s);
      if outcome != Done { return; }
      t := s;
      outcome, seen := InsertAndCommit(p, id);
      KeepsTrans(old(s), t, s);
      if outcome == Done {
        if !asAdmin { KeepsReal(t, seen); }
        KeepsTrans(old(s), t, seen);
        NoRealAdmin(seen.users);
      }
    }

    /** The policy read under the table lock; Done means a user may be created. */
    method DecideRole(p: Pid, open: bool) returns (outcome: Outcome, asAdmin: bool, probeFails: bool)
      requires Inv(s) && p in s.procs && Ripe(s.procs[p], Decide(p, open, false))
      modifies this
      ensures Keeps(old(s), s) && p in s.procs && s.procs[p].task == old(s).procs[p].task
      ensures outcome == Done || outcome == RegistrationDisabled || outcome == AlreadySetUp || outcome == Aborted
      ensures outcome == Done ==> s.procs[p].phase == Decided(asAdmin)
      ensures outcome != Done ==> s.procs[p].phase == Ended(outcome)
      ensures outcome == Done && !asAdmin ==> s.procs[p].task.Register? && open && RealAdminExists(s.users)
      ensures outcome == RegistrationDisabled ==>
        s.procs[p].task.Register? && !open && (RealAdminExists(s.users) || probeFails)
      ensures outcome == AlreadySetUp ==> s.procs[p].task.SetupAdmin? && RealAdminExists(s.users)
      ensures probeFails ==> outcome == RegistrationDisabled || outcome == Aborted
    {
      ghost var before;
      var ok;
      probeFails := *;
      ok, before := Step(p, Decide(p, open, probeFails));
      asAdmin := s.procs[p].phase.Decided? && s.procs[p].phase.asAdmin;
      outcome := if s.procs[p].phase.Ended? then s.procs[p].phase.outcome else Done;
    }

    method InsertAndCommit(p: Pid, id: UserId) returns (outcome: Outcome, ghost seen: State)
      requires Inv(s) && p in s.procs && s.procs[p].phase.Decided? && !s.procs[p].task.Change?
      modifies this
      ensures Keeps(old(s), s) && p in s.procs && s.procs[p].phase == Ended(outcome)
      ensures outcome == Done || outcome == Aborted
      ensures outcome == Done ==> var asAdmin := old(s).procs[p].phase.asAdmin;
        && Keeps(old(s), seen) && s.users == seen.users[id := Row(asAdmin, false)] && id !in seen.users && id != SYSTEM
        && (asAdmin ==> !RealAdminExists(seen.users))
    {
      ghost var t;
      var ok;
      ok, seen := Step(p, Insert(p, id));
      if !ok { return Aborted, s; }
      t := s;
      ok, seen := Step(p, Commit(p));
      KeepsTrans(old(s), t, s);
      if ok { KeepsTrans(old(s), t, seen); }
      outcome := s.procs[p].phase.outcome;
    }
  }

  lemma TargetPresent(s: State, p: Pid)
    requires Inv(s) && p in s.procs && s.procs[p].phase.Written?
    ensures s.procs[p].task.Change? && s.procs[p].task.target in s.users && s.procs[p].task.target != SYSTEM
  {
    assert PositionOk(s.users, s.procs[p]);
  }

  lemma CommitTakesEffect(s: State, p: Pid)
    requires Inv(s) && Enabled(s, Commit(p)) && s.procs[p].phase.Written?
    ensures var task := s.procs[p].task;
      task.Change? && TookEffect(s.users, Apply(s, Commit(p)).users, task.target, task.edit)
  {
    TargetPresent(s, p);
  }

  /** LAST_ADMIN is only ever answered about an administrator, and with no other active one but the sentinel. */
  lemma RefusedAsLast(s: State, p: Pid)
    requires Inv(s) && Enabled(s, Check(p))
    ensures var x, t := s.procs[p], Apply(s, Check(p));
      && p in t.procs && t.procs[p].task == x.task && x.task.Change?
      && (t.procs[p].phase == Ended(LastAdmin) ==>
            && x.task.target in s.users && s.users[x.task.target].admin && x.task.edit != SetRole(true)
            && forall id :: id in s.users && id != x.task.target && id != SYSTEM ==>
                 !s.users[id].admin || s.users[id].deactivated)
  {
    var users, target := s.users, s.procs[p].task.target;
    assert PositionOk(users, s.procs[p]);
    forall id | id in users && id != target && id != SYSTEM && users[id].admin && !users[id].deactivated
      ensures OtherActiveAdmin(users, target)
    {
      assert ActiveAdmin(users, id);
    }
  }

  lemma KeepsStart(s: State, p: Pid, task: Task)
    requires Inv(s) && p !in s.procs && !task.Change?
    ensures Enabled(s, Begin(p, task)) && p in Apply(s, Begin(p, task)).procs
    ensures Apply(s, Begin(p, task)).procs[p] == Proc(task, Opening)
    ensures Keeps(s, Apply(s, Begin(p, task))) && Inv(Apply(s, Begin(p, task)))
  {
    StepKeeps(s, Begin(p, task));
  }

  lemma NoRealAdmin(users: map<UserId, Row>)
    ensures !RealAdminExists(users) <==> forall u :: u in users && u != SYSTEM ==> !users[u].admin
  {
    forall u | u in users && u != SYSTEM && users[u].admin ensures RealAdminExists(users) {
      assert RealAdmin(users, u);
    }
  }

  lemma KeepsReal(s: State, t: State)
    requires Keeps(s, t) && RealAdminExists(s.users)
    ensures RealAdminExists(t.users)
  {
  }

  lemma KeepsInv(s: State, t: State)
    requires Keeps(s, t)
    ensures Inv(t)
  {
  }

  lemma KeepsTrans(s: State, t: State, u: State)
    requires Keeps(s, t) && Keeps(t, u)
    ensures Keeps(s, u) && Inv(u)
  {
  }
}
