/** With nobody in its way every administrator operation gets where it should. */
module AdminProgress {
  import opened AdminMembership
  import opened AdminServer

  predicate Idle(s: State) {
    forall q :: q in s.procs ==> s.procs[q].phase.Ended?
  }

  predicate Alone(s: State, p: Pid) {
    forall q :: q in s.procs && q != p ==> s.procs[q].phase.Ended?
  }

  /** `t` is reached from `s` by some run. */
  ghost predicate Leads(s: State, t: State) {
    exists run: seq<Action> :: ValidRun(s, run) && Exec(s, run) == t
  }

  lemma {:induction false} Append(s: State, run: seq<Action>, a: Action)
    requires ValidRun(s, run) && Enabled(Exec(s, run), a)
    ensures ValidRun(s, run + [a]) && Exec(s, run + [a]) == Apply(Exec(s, run), a)
    decreases |run|
  {
    if run == [] {
      assert ([] + [a])[1..] == [];
    } else {
      Append(Apply(s, run[0]), run[1..], a);
      assert (run + [a])[1..] == run[1..] + [a];
    }
  }

  lemma LeadsOn(s: State, t: State, a: Action)
    requires Leads(s, t) && Enabled(t, a)
    ensures Leads(s, Apply(t, a))
  {
    var run: seq<Action> :| ValidRun(s, run) && Exec(s, run) == t;
    Append(s, run, a);
  }

  /** From `s`, with only `p` acting, `p` can get to this phase over these users. */
  ghost predicate Gets(s: State, p: Pid, task: Task, phase: Phase, users: map<UserId, Row>) {
    exists t :: GetsIn(s, t, p, task, phase, users)
  }

  ghost predicate GetsIn(s: State, t: State, p: Pid, task: Task, phase: Phase, users: map<UserId, Row>) {
    Leads(s, t) && Alone(t, p) && p in t.procs && t.procs[p] == Proc(task, phase) && t.users == users
    && (phase.Decided? ==> t.everUsers == s.everUsers)
    && (phase.TableLocked? ==> t.everUsers == s.everUsers)
    && (phase.Opening? ==> t.everUsers == s.everUsers)
  }

  lemma Start(s: State, p: Pid, task: Task)
    requires Idle(s) && p !in s.procs && !RefusedOutright(task)
    ensures Gets(s, p, task, Opening, s.users)
  {
    assert ValidRun(s, []) && Exec(s, []) == s;
    LeadsOn(s, s, Begin(p, task));
    assert GetsIn(s, Apply(s, Begin(p, task)), p, task, Opening, s.users);
  }

  /** The phase a statement of a transaction that is alone leads to. */
  lemma Go(s: State, p: Pid, task: Task, phase: Phase, users: map<UserId, Row>, a: Action, phase': Phase, users': map<UserId, Row>)
    requires Gets(s, p, task, phase, users) && ActsFor(a, p) && Ripe(Proc(task, phase), a)
    requires a.Insert? ==> a.id != SYSTEM && a.id !in s.everUsers
    requires forall t :: Alone(t, p) && p in t.procs && t.procs[p] == Proc(task, phase) && t.users == users && Enabled(t, a) ==>
      Apply(t, a).procs[p] == Proc(task, phase') && Apply(t, a).users == users'
      && (phase'.Decided? || phase'.TableLocked? || phase'.Opening? ==> Apply(t, a).everUsers == t.everUsers)
    ensures Gets(s, p, task, phase', users')
  {
    var t :| GetsIn(s, t, p, task, phase, users);
    assert Enabled(t, a);
    LeadsOn(s, t, a);
    assert GetsIn(s, Apply(t, a), p, task, phase', users');
  }

  lemma {:induction false} StartChange(s: State, p: Pid, task: Task)
    requires Idle(s) && p !in s.procs && task.Change? && !RefusedOutright(task) && task.target in s.users
    ensures Gets(s, p, task, Holding(s.users[task.target]), s.users)
  {
    Start(s, p, task);
    Go(s, p, task, Opening, s.users, Grant(p), Holding(s.users[task.target]), s.users);
  }

  lemma {:induction false} FinishChange(s: State, p: Pid, task: Task, phase: Phase)
    requires task.Change? && task.target in s.users && Ripe(Proc(task, phase), Write(p))
    requires Gets(s, p, task, phase, s.users)
    ensures Gets(s, p, task, Ended(Done), Edited(s.users, task.target, task.edit))
  {
    Go(s, p, task, phase, s.users, Write(p), Written(phase.row), s.users);
    Go(s, p, task, Written(phase.row), s.users, Commit(p), Ended(Done), Edited(s.users, task.target, task.edit));
  }

  /** The operation can end in `t` this way. */
  ghost predicate CanEnd(s: State, t: State, p: Pid, outcome: Outcome) {
    Leads(s, t) && p in t.procs && t.procs[p].phase == Ended(outcome)
  }

  lemma Ending(s: State, p: Pid, task: Task, outcome: Outcome, users: map<UserId, Row>) returns (t: State)
    requires Gets(s, p, task, Ended(outcome), users)
    ensures CanEnd(s, t, p, outcome) && t.users == users
  {
    t :| GetsIn(s, t, p, task, Ended(outcome), users);
  }

  /** With nobody else at work a change of an existing user goes through, and takes effect, unless it would remove
      the last active administrator. */
  lemma QuietChange(s: State, p: Pid, target: UserId, actor: UserId, edit: Edit) returns (t: State)
    requires Inv(s) && Idle(s) && p !in s.procs && target in s.users && target != SYSTEM
    requires edit.SetRole? || target != actor
    requires Removes(edit, s.users[target]) ==> exists id :: id != target && ActiveAdmin(s.users, id)
    ensures CanEnd(s, t, p, Done) && TookEffect(s.users, t.users, target, edit)
  {
    var task, row := Change(target, actor, edit), s.users[target];
    StartChange(s, p, task);
    if Removes(edit, row) {
      Go(s, p, task, Holding(row), s.users, Guard(p), Guarding(row), s.users);
      var id :| id != target && ActiveAdmin(s.users, id);
      Go(s, p, task, Guarding(row), s.users, Check(p), Checked(row), s.users);
      FinishChange(s, p, task, Checked(row));
    } else {
      FinishChange(s, p, task, Holding(row));
    }
    t := Ending(s, p, task, Done, Edited(s.users, target, edit));
  }

  /** With nobody else at work the removal of the last active administrator is refused, and changes no user. */
  lemma QuietLast(s: State, p: Pid, target: UserId, actor: UserId, edit: Edit) returns (t: State)
    requires Idle(s) && p !in s.procs && target in s.users && target != SYSTEM
    requires edit.SetRole? || target != actor
    requires Removes(edit, s.users[target]) && forall id :: id != target ==> !ActiveAdmin(s.users, id)
    ensures CanEnd(s, t, p, LastAdmin) && t.users == s.users
  {
    var task, row := Change(target, actor, edit), s.users[target];
    StartChange(s, p, task);
    Go(s, p, task, Holding(row), s.users, Guard(p), Guarding(row), s.users);
    Go(s, p, task, Guarding(row), s.users, Check(p), Ended(LastAdmin), s.users);
    t := Ending(s, p, task, LastAdmin, s.users);
  }

  lemma {:induction false} Decides(s: State, p: Pid, task: Task, open: bool)
    requires Idle(s) && p !in s.procs && !task.Change?
    ensures Gets(s, p, task, Decision(s.users, task, open, false), s.users)
  {
    hide RealAdminExists;
    Start(s, p, task);
    Go(s, p, task, Opening, s.users, LockTable(p), TableLocked, s.users);
    Go(s, p, task, TableLocked, s.users, Decide(p, open, false), Decision(s.users, task, open, false), s.users);
  }

  lemma {:induction false} Creates(s: State, p: Pid, task: Task, asAdmin: bool, id: UserId)
    requires Gets(s, p, task, Decided(asAdmin), s.users) && !task.Change? && id !in s.everUsers && id != SYSTEM
    ensures Gets(s, p, task, Ended(Done), s.users[id := Row(asAdmin, false)])
  {
    hide RealAdminExists;
    Go(s, p, task, Decided(asAdmin), s.users, Insert(p, id), Inserted(id, asAdmin), s.users);
    Go(s, p, task, Inserted(id, asAdmin), s.users, Commit(p), Ended(Done), s.users[id := Row(asAdmin, false)]);
  }

  /** With nobody else at work the first of the two bootstrap routes creates the administrator, and a registration
      that finds one creates a member if registration is open. */
  lemma QuietFirst(s: State, p: Pid, task: Task, open: bool, id: UserId) returns (t: State)
    requires Idle(s) && p !in s.procs && !task.Change? && id !in s.everUsers && id != SYSTEM
    requires RealAdminExists(s.users) ==> task.Register? && open
    ensures CanEnd(s, t, p, Done) && t.users == s.users[id := Row(!RealAdminExists(s.users), false)]
  {
    var first := !RealAdminExists(s.users);
    Decides(s, p, task, open);
    Creates(s, p, task, first, id);
    t := Ending(s, p, task, Done, s.users[id := Row(first, false)]);
  }

  /** With nobody else at work the other cases are refused, and change no user. */
  lemma QuietRefusal(s: State, p: Pid, task: Task) returns (t: State)
    requires Idle(s) && p !in s.procs && !task.Change? && RealAdminExists(s.users)
    ensures CanEnd(s, t, p, if task.SetupAdmin? then AlreadySetUp else RegistrationDisabled) && t.users == s.users
  {
    Decides(s, p, task, false);
    t := Ending(s, p, task, if task.SetupAdmin? then AlreadySetUp else RegistrationDisabled, s.users);
  }
}
