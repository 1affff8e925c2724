/**
 Who is an administrator (backend/src/core/services/admin-user-service.ts and
 account-bootstrap-service.ts), under concurrent transactions.

 Locks: FOR UPDATE on the target's row, one transaction-scoped advisory lock for every removal of an
 admin, and SHARE ROW EXCLUSIVE on the users table for the two public bootstrap routes.  A transaction
 that has written `users` holds ROW EXCLUSIVE on the table until it ends, which conflicts with the
 bootstrap lock; a mere SELECT ... FOR UPDATE does not.
 */
module AdminMembership {
  type UserId = nat
  type Pid = nat

  /** The sentinel that owns built-in templates: role admin, cannot log in. */
  const SYSTEM: UserId := 0

  datatype Row = Row(admin: bool, deactivated: bool)

  datatype Edit = SetRole(admin: bool) | Deactivate | Remove

  datatype Task =
    | Change(target: UserId, actor: UserId, edit: Edit)
    | Register
    | SetupAdmin

  datatype Outcome = Done | Refused | NotFound | LastAdmin | RegistrationDisabled | AlreadySetUp | Aborted

  datatype Phase =
    | Opening
    | Holding(row: Row)               // SELECT ... FOR UPDATE returned the target
    | Guarding(row: Row)              // pg_advisory_xact_lock granted
    | Checked(row: Row)               // another active admin was seen
    | Written(row: Row)               // UPDATE or DELETE of users done
    | TableLocked                     // LOCK TABLE users granted
    | Decided(asAdmin: bool)          // policy read under the table lock
    | Inserted(id: UserId, asAdmin: bool)
    | Ended(outcome: Outcome)

  datatype Proc = Proc(task: Task, phase: Phase)

  datatype State = State(
    users: map<UserId, Row>,          // committed
    procs: map<Pid, Proc>,
    everUsers: set<UserId>,           // history: every id ever handed out
    routeAdmins: nat)                 // history: admins the two public routes have created

  datatype Action =
    | CreateUser(id: UserId, admin: bool)
    | Reactivate(id: UserId)
    | Begin(pid: Pid, task: Task)
    | Grant(pid: Pid)
    | Guard(pid: Pid)
    | Check(pid: Pid)
    | Write(pid: Pid)
    | LockTable(pid: Pid)
    | Decide(pid: Pid, open: bool, probeFails: bool)
    | Insert(pid: Pid, id: UserId)
    | Commit(pid: Pid)
    | Abort(pid: Pid)

  // ---------------------------------------------------------------- lock ownership

  predicate HoldsRow(x: Proc, id: UserId) {
    && x.task.Change? && x.task.target == id
    && (x.phase.Holding? || x.phase.Guarding? || x.phase.Checked? || x.phase.Written?)
  }

  /** The removals that must leave another active admin behind. */
  predicate Removes(edit: Edit, row: Row) {
    row.admin && (edit.SetRole? ==> !edit.admin)
  }

  predicate HoldsAdvisory(x: Proc) {
    || x.phase.Guarding? || x.phase.Checked?
    || (x.phase.Written? && x.task.Change? && Removes(x.task.edit, x.phase.row))
  }

  predicate HoldsTable(x: Proc) {
    x.phase.TableLocked? || x.phase.Decided? || x.phase.Inserted?
  }

  /** ROW EXCLUSIVE on the users table. */
  predicate HasWritten(x: Proc) {
    x.phase.Written? || x.phase.Inserted?
  }

  predicate RowTaken(s: State, id: UserId) {
    exists q :: q in s.procs && HoldsRow(s.procs[q], id)
  }

  predicate AdvisoryTaken(s: State) {
    exists q :: q in s.procs && HoldsAdvisory(s.procs[q])
  }

  predicate TableTaken(s: State) {
    exists q :: q in s.procs && HoldsTable(s.procs[q])
  }

  predicate TableWritten(s: State) {
    exists q :: q in s.procs && HasWritten(s.procs[q])
  }

  // ---------------------------------------------------------------- reads

  predicate ActiveAdmin(users: map<UserId, Row>, id: UserId) {
    id in users && id != SYSTEM && users[id].admin && !users[id].deactivated
  }

  predicate OtherActiveAdmin(users: map<UserId, Row>, target: UserId) {
    exists id :: id in users && id != target && ActiveAdmin(users, id)
  }

  predicate SomeActiveAdmin(users: map<UserId, Row>) {
    exists id :: id in users && ActiveAdmin(users, id)
  }

  predicate RealAdmin(users: map<UserId, Row>, id: UserId) {
    id in users && id != SYSTEM && users[id].admin
  }

  /** realAdminExists: a deactivated admin counts, the sentinel does not. */
  predicate RealAdminExists(users: map<UserId, Row>) {
    exists id :: id in users && RealAdmin(users, id)
  }

  // ---------------------------------------------------------------- transitions

  predicate Open(s: State, p: Pid) {
    p in s.procs && !s.procs[p].phase.Ended?
  }

  /** assertNotSystemUser and the self checks, made before any transaction. */
  predicate RefusedOutright(task: Task) {
    task.Change? && (task.target == SYSTEM || (!task.edit.SetRole? && task.target == task.actor))
  }

  /** Everything but the exclusiveness of the advisory lock. */
  predicate EnabledByRows(s: State, a: Action) {
    match a
    case CreateUser(id, _) => id != SYSTEM && id !in s.everUsers && !TableTaken(s)
    case Reactivate(id) => id != SYSTEM && id in s.users && !RowTaken(s, id) && !TableTaken(s)
    case Begin(p, _) => p !in s.procs
    case Grant(p) =>
      Open(s, p) && s.procs[p].task.Change? && s.procs[p].phase.Opening? && !RowTaken(s, s.procs[p].task.target)
    case Guard(p) =>
      Open(s, p) && s.procs[p].task.Change? && s.procs[p].phase.Holding?
      && Removes(s.procs[p].task.edit, s.procs[p].phase.row)
    case Check(p) => Open(s, p) && s.procs[p].task.Change? && s.procs[p].phase.Guarding?
    case Write(p) =>
      && Open(s, p) && s.procs[p].task.Change? && !TableTaken(s)
      && (s.procs[p].phase.Checked?
          || (s.procs[p].phase.Holding? && !Removes(s.procs[p].task.edit, s.procs[p].phase.row)))
    case LockTable(p) =>
      Open(s, p) && !s.procs[p].task.Change? && s.procs[p].phase.Opening? && !TableTaken(s) && !TableWritten(s)
    case Decide(p, _, _) => Open(s, p) && !s.procs[p].task.Change? && s.procs[p].phase.TableLocked?
    case Insert(p, id) => Open(s, p) && s.procs[p].phase.Decided? && id != SYSTEM && id !in s.everUsers
    case Commit(p) => Open(s, p) && (s.procs[p].phase.Written? || s.procs[p].phase.Inserted?)
    case Abort(p) => Open(s, p)
  }

  predicate Enabled(s: State, a: Action) {
    EnabledByRows(s, a) && (a.Guard? ==> !AdvisoryTaken(s))
  }

  function Edited(users: map<UserId, Row>, target: UserId, edit: Edit): map<UserId, Row> {
    if target !in users then users
    else match edit
      case SetRole(admin) => users[target := users[target].(admin := admin)]
      case Deactivate => users[target := users[target].(deactivated := true)]
      case Remove =>
        // the sentinel is re-asserted before templates are handed to it
        (if SYSTEM in users then users else users[SYSTEM := Row(true, false)]) - {target}
  }

  /** `open` is the registration mode as read, closed when that read fails.  When the count of administrators fails,
      setup throws and registration presumes that there is one; the transaction is aborted with that statement, so
      an INSERT that would follow is refused. */
  function Decision(users: map<UserId, Row>, task: Task, open: bool, probeFails: bool): Phase {
    if probeFails then Ended(if task.SetupAdmin? || open then Aborted else RegistrationDisabled)
    else if task.SetupAdmin? then
      if RealAdminExists(users) then Ended(AlreadySetUp) else Decided(true)
    else
      var bootstrap := !RealAdminExists(users);
      if bootstrap || open then Decided(bootstrap) else Ended(RegistrationDisabled)
  }

  function Move(s: State, p: Pid, phase: Phase): State requires p in s.procs {
    s.(procs := s.procs[p := s.procs[p].(phase := phase)])
  }

  function Apply(s: State, a: Action): State requires EnabledByRows(s, a) {
    match a
    case CreateUser(id, admin) => s.(users := s.users[id := Row(admin, false)], everUsers := s.everUsers + {id})
    case Reactivate(id) => s.(users := s.users[id := s.users[id].(deactivated := false)])
    case Begin(p, task) =>
      s.(procs := s.procs[p := Proc(task, if RefusedOutright(task) then Ended(Refused) else Opening)])
    case Grant(p) =>
      var target := s.procs[p].task.target;
      Move(s, p, if target in s.users then Holding(s.users[target]) else Ended(NotFound))
    case Guard(p) => Move(s, p, Guarding(s.procs[p].phase.row))
    case Check(p) =>
      Move(s, p, if OtherActiveAdmin(s.users, s.procs[p].task.target) then Checked(s.procs[p].phase.row)
                 else Ended(LastAdmin))
    case Write(p) => Move(s, p, Written(s.procs[p].phase.row))
    case LockTable(p) => Move(s, p, TableLocked)
    case Decide(p, open, probeFails) => Move(s, p, Decision(s.users, s.procs[p].task, open, probeFails))
    case Insert(p, id) =>
      Move(s, p, Inserted(id, s.procs[p].phase.asAdmin)).(everUsers := s.everUsers + {id})
    case Commit(p) =>
      var x := s.procs[p];
      var t := Move(s, p, Ended(Done));
      if x.phase.Inserted? then
        t.(users := s.users[x.phase.id := Row(x.phase.asAdmin, false)],
           routeAdmins := s.routeAdmins + if x.phase.asAdmin then 1 else 0)
      else if x.task.Change? then t.(users := Edited(s.users, x.task.target, x.task.edit))
      else t
    case Abort(p) => Move(s, p, Ended(Aborted))
  }

  predicate ValidRun(s: State, run: seq<Action>) decreases |run| {
    run == [] || (Enabled(s, run[0]) && ValidRun(Apply(s, run[0]), run[1..]))
  }

  function Exec(s: State, run: seq<Action>): State
    requires ValidRun(s, run)
    decreases |run|
  {
    if run == [] then s else Exec(Apply(s, run[0]), run[1..])
  }

  // ---------------------------------------------------------------- the invariant

  predicate AdvisoryExclusive(procs: map<Pid, Proc>) {
    forall p, q :: p in procs && q in procs && HoldsAdvisory(procs[p]) && HoldsAdvisory(procs[q]) ==> p == q
  }

  /** The bootstrap lock excludes itself and every transaction that has written the table. */
  predicate TableExclusive(procs: map<Pid, Proc>) {
    forall p, q :: p in procs && q in procs && HoldsTable(procs[p]) && (HoldsTable(procs[q]) || HasWritten(procs[q])) ==>
      p == q
  }

  ghost predicate RowsExclusive(procs: map<Pid, Proc>) {
    forall p, q, id :: p in procs && q in procs && HoldsRow(procs[p], id) && HoldsRow(procs[q], id) ==> p == q
  }

  ghost predicate LocksExclusive(s: State) {
    AdvisoryExclusive(s.procs) && TableExclusive(s.procs) && RowsExclusive(s.procs)
  }

  /** What each position has established about the committed rows. */
  predicate PositionOk(users: map<UserId, Row>, x: Proc) {
    match x.phase
    case Holding(row) => TargetHeld(users, x, row)
    case Guarding(row) => TargetHeld(users, x, row) && Removes(x.task.edit, row)
    case Checked(row) =>
      TargetHeld(users, x, row) && Removes(x.task.edit, row) && OtherActiveAdmin(users, x.task.target)
    case Written(row) =>
      TargetHeld(users, x, row) && (Removes(x.task.edit, row) ==> OtherActiveAdmin(users, x.task.target))
    case Decided(asAdmin) => !x.task.Change? && (asAdmin ==> !RealAdminExists(users))
    case Inserted(id, asAdmin) =>
      !x.task.Change? && id != SYSTEM && id !in users && (asAdmin ==> !RealAdminExists(users))
    case TableLocked => !x.task.Change?
    case _ => true
  }

  predicate TargetHeld(users: map<UserId, Row>, x: Proc, row: Row) {
    x.task.Change? && x.task.target != SYSTEM && x.task.target in users && users[x.task.target] == row
  }

  /** The sentinel's row is only ever re-asserted, so wherever it is it is an active administrator's. */
  predicate SentinelOk(users: map<UserId, Row>) {
    SYSTEM in users ==> users[SYSTEM] == Row(true, false)
  }

  ghost predicate Inv(s: State) {
    && LocksExclusive(s) && SentinelOk(s.users)
    && IdsOk(s)
    && (forall p :: p in s.procs ==> PositionOk(s.users, s.procs[p]))
  }

  const INIT := State(map[], map[], {}, 0)

  ghost predicate Reachable(s: State) {
    exists run: seq<Action> :: ValidRun(INIT, run) && Exec(INIT, run) == s
  }

  lemma ReachableInv(s: State)
    requires Reachable(s)
    ensures Inv(s)
  {
    var run: seq<Action> :| ValidRun(INIT, run) && Exec(INIT, run) == s;
    RunKeepsInv(INIT, run);
  }

  // ---------------------------------------------------------------- preservation: locks

  /** `p` may take up position `x'`: every lock it gains is one it had or one that is free. */
  predicate MayTake(s: State, p: Pid, x': Proc) {
    && (HoldsAdvisory(x') ==> (p in s.procs && HoldsAdvisory(s.procs[p])) || !AdvisoryTaken(s))
    && (HoldsTable(x') ==> (p in s.procs && HoldsTable(s.procs[p])) || (!TableTaken(s) && !TableWritten(s)))
    && (HasWritten(x') ==>
          (p in s.procs && (HasWritten(s.procs[p]) || HoldsTable(s.procs[p]))) || !TableTaken(s))
    && (x'.task.Change? && HoldsRow(x', x'.task.target) ==>
          (p in s.procs && HoldsRow(s.procs[p], x'.task.target)) || !RowTaken(s, x'.task.target))
  }

  lemma LocksMove(s: State, p: Pid, x': Proc)
    requires LocksExclusive(s) && MayTake(s, p, x')
    ensures LocksExclusive(s.(procs := s.procs[p := x']))
  {
    var procs' := s.procs[p := x'];
    assert AdvisoryExclusive(procs');
    assert TableExclusive(procs');
    assert RowsExclusive(procs');
  }

  lemma ActorMayTake(s: State, a: Action)
    requires Enabled(s, a) && !a.CreateUser? && !a.Reactivate?
    ensures a.pid in Apply(s, a).procs && MayTake(s, a.pid, Apply(s, a).procs[a.pid])
  {
  }

  // ---------------------------------------------------------------- preservation: positions

  /** Nobody but `p` changes what it has established, whoever commits. */
  lemma OthersCommit(s: State, p: Pid, q: Pid)
    requires Inv(s) && Enabled(s, Commit(p)) && s.procs[p].phase.Written? && q in s.procs && q != p
    ensures PositionOk(Apply(s, Commit(p)).users, s.procs[q])
  {
    var x, y := s.procs[p], s.procs[q];
    var users' := Apply(s, Commit(p)).users;
    assert PositionOk(s.users, x) && PositionOk(s.users, y);
    if HoldsAdvisory(y) {
      assert !HoldsAdvisory(x);
      if y.phase.Checked? || y.phase.Written? {
        var id :| id in s.users && id != y.task.target && ActiveAdmin(s.users, id);
        assert ActiveAdmin(users', id);
      }
    }
    if y.task.Change? && HoldsRow(y, y.task.target) {
      assert x.task.target != y.task.target by { assert HoldsRow(x, x.task.target); }
    }
  }

  lemma OthersInsert(s: State, p: Pid, q: Pid)
    requires Inv(s) && Enabled(s, Commit(p)) && s.procs[p].phase.Inserted? && q in s.procs && q != p
    ensures PositionOk(Apply(s, Commit(p)).users, s.procs[q])
  {
    var x, y := s.procs[p], s.procs[q];
    var users' := Apply(s, Commit(p)).users;
    assert PositionOk(s.users, x) && PositionOk(s.users, y);
    assert HoldsTable(x) && !HoldsTable(y);
    AdminsStay(s.users, users', y);
  }

  /** Adding a row or reactivating one takes no admin away. */
  lemma AdminsStay(users: map<UserId, Row>, users': map<UserId, Row>, y: Proc)
    requires forall id :: ActiveAdmin(users, id) ==> ActiveAdmin(users', id)
    ensures y.task.Change? && OtherActiveAdmin(users, y.task.target) ==> OtherActiveAdmin(users', y.task.target)
  {
    if y.task.Change? && OtherActiveAdmin(users, y.task.target) {
      var id :| id in users && id != y.task.target && ActiveAdmin(users, id);
      assert id in users' && ActiveAdmin(users', id);
    }
  }

  lemma OthersAutocommit(s: State, a: Action, q: Pid)
    requires Inv(s) && Enabled(s, a) && (a.CreateUser? || a.Reactivate?) && q in s.procs
    ensures PositionOk(Apply(s, a).users, s.procs[q])
  {
    assert PositionOk(s.users, s.procs[q]) && !HoldsTable(s.procs[q]);
    assert a.Reactivate? ==> !HoldsRow(s.procs[q], a.id);
    AdminsStay(s.users, Apply(s, a).users, s.procs[q]);
  }

  /** The acting transaction establishes its own next position. */
  lemma OwnPosition(s: State, a: Action)
    requires Inv(s) && Enabled(s, a) && !a.CreateUser? && !a.Reactivate? && !a.Commit?
    ensures PositionOk(s.users, Apply(s, a).procs[a.pid])
  {
    assert !a.Begin? ==> PositionOk(s.users, s.procs[a.pid]);
  }

  lemma PositionsStep(s: State, a: Action, q: Pid)
    requires Inv(s) && Enabled(s, a) && q in Apply(s, a).procs
    ensures PositionOk(Apply(s, a).users, Apply(s, a).procs[q])
  {
    if a.CreateUser? || a.Reactivate? {
      OthersAutocommit(s, a, q);
    } else if a.Commit? {
      if q != a.pid {
        if s.procs[a.pid].phase.Written? { OthersCommit(s, a.pid, q); } else { OthersInsert(s, a.pid, q); }
      }
    } else if q == a.pid {
      OwnPosition(s, a);
    } else {
      assert PositionOk(s.users, s.procs[q]);
    }
  }

  lemma LocksStep(s: State, a: Action)
    requires LocksExclusive(s) && Enabled(s, a)
    ensures LocksExclusive(Apply(s, a))
  {
    var t := Apply(s, a);
    if !a.CreateUser? && !a.Reactivate? {
      ActorMayTake(s, a);
      LocksMove(s, a.pid, t.procs[a.pid]);
      assert t.procs == s.procs[a.pid := t.procs[a.pid]];
      hide EnabledByRows;
    }
  }

  ghost predicate IdsOk(s: State) {
    && s.users.Keys <= s.everUsers + {SYSTEM}
    && (forall p :: p in s.procs && s.procs[p].phase.Inserted? ==> s.procs[p].phase.id in s.everUsers)
    && (forall p :: p in s.procs && s.procs[p].task.Change? && s.procs[p].phase.Opening? ==>
          s.procs[p].task.target != SYSTEM)
  }

  lemma IdsStep(s: State, a: Action)
    requires IdsOk(s) && Enabled(s, a)
    ensures IdsOk(Apply(s, a))
  {
  }

  lemma InvStep(s: State, a: Action)
    requires Inv(s) && Enabled(s, a)
    ensures Inv(Apply(s, a))
  {
    LocksStep(s, a);
    IdsStep(s, a);
    forall q | q in Apply(s, a).procs ensures PositionOk(Apply(s, a).users, Apply(s, a).procs[q]) {
      PositionsStep(s, a, q);
    }
  }

  lemma {:induction false} RunKeepsInv(s: State, run: seq<Action>)
    requires Inv(s) && ValidRun(s, run)
    ensures Inv(Exec(s, run))
    decreases |run|
  {
    if run != [] {
      InvStep(s, run[0]);
      RunKeepsInv(Apply(s, run[0]), run[1..]);
    }
  }

  // ---------------------------------------------------------------- an active admin stays

  /** The guard: what a removal saw when it checked is still true when it commits. */
  lemma RemovalLeavesAnother(s: State, p: Pid)
    requires Inv(s) && Enabled(s, Commit(p)) && s.procs[p].phase.Written?
    requires Removes(s.procs[p].task.edit, s.procs[p].phase.row)
    ensures SomeActiveAdmin(Apply(s, Commit(p)).users)
  {
    var x := s.procs[p];
    assert PositionOk(s.users, x);
    var id :| id in s.users && id != x.task.target && ActiveAdmin(s.users, id);
    assert ActiveAdmin(Apply(s, Commit(p)).users, id);
  }

  /** LAST_ADMIN is answered exactly when the removal would leave no active real admin. */
  lemma RefusedExactlyWhenLast(s: State, p: Pid)
    requires Inv(s) && Enabled(s, Check(p))
    ensures Apply(s, Check(p)).procs[p].phase == Ended(LastAdmin) <==>
      !SomeActiveAdmin(Edited(s.users, s.procs[p].task.target, s.procs[p].task.edit))
  {
    var x := s.procs[p];
    assert PositionOk(s.users, x);
    var users' := Edited(s.users, x.task.target, x.task.edit);
    if id :| id in s.users && id != x.task.target && ActiveAdmin(s.users, id) {
      assert ActiveAdmin(users', id);
    }
    if id :| id in users' && ActiveAdmin(users', id) {
      assert id in s.users && id != x.task.target && ActiveAdmin(s.users, id);
    }
  }

  lemma ActiveAdminStays(s: State, a: Action)
    requires Inv(s) && Enabled(s, a) && SomeActiveAdmin(s.users)
    ensures SomeActiveAdmin(Apply(s, a).users)
  {
    var t := Apply(s, a);
    if a.Commit? && s.procs[a.pid].phase.Written? && PositionOk(s.users, s.procs[a.pid])
       && Removes(s.procs[a.pid].task.edit, s.procs[a.pid].phase.row) {
      RemovalLeavesAnother(s, a.pid);
    } else {
      var id :| id in s.users && ActiveAdmin(s.users, id);
      assert a.Commit? ==> PositionOk(s.users, s.procs[a.pid]);
      assert ActiveAdmin(t.users, id);
    }
  }

  /** Once an active real admin is committed, every later committed state has one, whatever interleaves. */
  lemma {:induction false} ActiveAdminForever(s: State, run: seq<Action>)
    requires Inv(s) && SomeActiveAdmin(s.users) && ValidRun(s, run)
    ensures SomeActiveAdmin(Exec(s, run).users)
    decreases |run|
  {
    if run != [] {
      ActiveAdminStays(s, run[0]);
      InvStep(s, run[0]);
      ActiveAdminForever(Apply(s, run[0]), run[1..]);
    }
  }

  // ---------------------------------------------------------------- the bootstrap window

  /** The same for the bootstrap routes' notion of a real admin, which counts deactivated ones. */
  lemma RealAdminStays(s: State, a: Action)
    requires Inv(s) && Enabled(s, a) && RealAdminExists(s.users)
    ensures RealAdminExists(Apply(s, a).users)
  {
    var t := Apply(s, a);
    assert a.Commit? ==> PositionOk(s.users, s.procs[a.pid]);
    if a.Commit? && s.procs[a.pid].phase.Written? && Removes(s.procs[a.pid].task.edit, s.procs[a.pid].phase.row) {
      RemovalLeavesAnother(s, a.pid);
      var id :| id in t.users && ActiveAdmin(t.users, id);
      assert RealAdmin(t.users, id);
    } else {
      var id :| id in s.users && RealAdmin(s.users, id);
      assert RealAdmin(t.users, id);
    }
  }

  /** A bootstrap route creates an admin only into a table that has none at that very commit. */
  lemma RouteAdminIsFirst(s: State, a: Action)
    requires Inv(s) && Enabled(s, a) && Apply(s, a).routeAdmins != s.routeAdmins
    ensures !RealAdminExists(s.users) && RealAdminExists(Apply(s, a).users)
    ensures Apply(s, a).routeAdmins == s.routeAdmins + 1
  {
    var x := s.procs[a.pid];
    assert PositionOk(s.users, x);
    assert RealAdmin(Apply(s, a).users, x.phase.id);
  }

  /** The window never reopens: with a real admin committed, neither public route ever creates another. */
  lemma {:induction false} WindowStaysShut(s: State, run: seq<Action>)
    requires Inv(s) && RealAdminExists(s.users) && ValidRun(s, run)
    ensures RealAdminExists(Exec(s, run).users) && Exec(s, run).routeAdmins == s.routeAdmins
    decreases |run|
  {
    if run != [] {
      if Apply(s, run[0]).routeAdmins != s.routeAdmins { RouteAdminIsFirst(s, run[0]); }
      RealAdminStays(s, run[0]);
      InvStep(s, run[0]);
      WindowStaysShut(Apply(s, run[0]), run[1..]);
    }
  }

  /** From any state whatever the two public routes together create at most one admin, and none if one exists. */
  lemma {:induction false} AtMostOneRouteAdmin(s: State, run: seq<Action>)
    requires Inv(s) && ValidRun(s, run)
    ensures Exec(s, run).routeAdmins <= s.routeAdmins + 1
    ensures RealAdminExists(s.users) ==> Exec(s, run).routeAdmins == s.routeAdmins
    decreases |run|
  {
    if RealAdminExists(s.users) {
      WindowStaysShut(s, run);
    } else if run != [] {
      var t := Apply(s, run[0]);
      InvStep(s, run[0]);
      if t.routeAdmins != s.routeAdmins { RouteAdminIsFirst(s, run[0]); }
      AtMostOneRouteAdmin(t, run[1..]);
    }
  }

  // ---------------------------------------------------------------- why row locks are not enough

  predicate ValidByRows(s: State, run: seq<Action>) decreases |run| {
    run == [] || (EnabledByRows(s, run[0]) && ValidByRows(Apply(s, run[0]), run[1..]))
  }

  function ExecByRows(s: State, run: seq<Action>): State
    requires ValidByRows(s, run)
    decreases |run|
  {
    if run == [] then s else ExecByRows(Apply(s, run[0]), run[1..])
  }

  /** `t` is reached from `s` when the advisory lock excludes nobody. */
  ghost predicate ReachedByRows(s: State, t: State) {
    exists run: seq<Action> :: ValidByRows(s, run) && ExecByRows(s, run) == t
  }

  lemma {:induction false} AppendByRows(s: State, run: seq<Action>, a: Action)
    requires ValidByRows(s, run) && EnabledByRows(ExecByRows(s, run), a)
    ensures ValidByRows(s, run + [a]) && ExecByRows(s, run + [a]) == Apply(ExecByRows(s, run), a)
    decreases |run|
  {
    if run == [] {
      assert ([] + [a])[1..] == [];
    } else {
      AppendByRows(Apply(s, run[0]), run[1..], a);
      assert (run + [a])[1..] == run[1..] + [a];
    }
  }

  lemma NextByRows(s: State, t: State, a: Action) returns (t': State)
    requires ReachedByRows(s, t) && EnabledByRows(t, a)
    ensures t' == Apply(t, a) && ReachedByRows(s, t')
  {
    var run: seq<Action> :| ValidByRows(s, run) && ExecByRows(s, run) == t;
    AppendByRows(s, run, a);
    t' := Apply(t, a);
  }

  const ADMIN := Row(true, false)
  const TWO_ADMINS := State(map[1 := ADMIN, 2 := ADMIN], map[], {1, 2}, 0)

  function Pair(x: Phase, y: Phase): map<Pid, Proc> {
    map[1 := Proc(Change(1, 2, Deactivate), x), 2 := Proc(Change(2, 1, Deactivate), y)]
  }

  lemma BothHoldTheirRows()
    ensures ReachedByRows(TWO_ADMINS, TWO_ADMINS.(procs := Pair(Holding(ADMIN), Holding(ADMIN))))
  {
    assert ValidByRows(TWO_ADMINS, []) && ExecByRows(TWO_ADMINS, []) == TWO_ADMINS;
    var t := NextByRows(TWO_ADMINS, TWO_ADMINS, Begin(1, Change(1, 2, Deactivate)));
    t := NextByRows(TWO_ADMINS, t, Begin(2, Change(2, 1, Deactivate)));
    t := NextByRows(TWO_ADMINS, t, Grant(1));
    t := NextByRows(TWO_ADMINS, t, Grant(2));
    assert t == TWO_ADMINS.(procs := Pair(Holding(ADMIN), Holding(ADMIN)));
  }

  lemma BothPassTheCheck()
    ensures ReachedByRows(TWO_ADMINS, TWO_ADMINS.(procs := Pair(Checked(ADMIN), Checked(ADMIN))))
  {
    BothHoldTheirRows();
    var t := TWO_ADMINS.(procs := Pair(Holding(ADMIN), Holding(ADMIN)));
    t := NextByRows(TWO_ADMINS, t, Guard(1));
    t := NextByRows(TWO_ADMINS, t, Guard(2));
    assert ActiveAdmin(t.users, 1) && ActiveAdmin(t.users, 2);
    t := NextByRows(TWO_ADMINS, t, Check(1));
    t := NextByRows(TWO_ADMINS, t, Check(2));
    assert t == TWO_ADMINS.(procs := Pair(Checked(ADMIN), Checked(ADMIN)));
  }

  /** Row locks alone do not suffice: two admins can deactivate each other and leave none. */
  lemma RowLocksAloneLoseTheLastAdmin() returns (t: State)
    ensures SomeActiveAdmin(TWO_ADMINS.users)
    ensures ReachedByRows(TWO_ADMINS, t) && !SomeActiveAdmin(t.users)
  {
    BothPassTheCheck();
    assert ActiveAdmin(TWO_ADMINS.users, 1);
    t := TWO_ADMINS.(procs := Pair(Checked(ADMIN), Checked(ADMIN)));
    t := NextByRows(TWO_ADMINS, t, Write(1));
    t := NextByRows(TWO_ADMINS, t, Write(2));
    t := NextByRows(TWO_ADMINS, t, Commit(1));
    t := NextByRows(TWO_ADMINS, t, Commit(2));
    assert t.users == map[1 := Row(true, true), 2 := Row(true, true)];
  }
}
