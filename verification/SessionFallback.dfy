/**
 What the unlocked pass of a revocation does and does not revoke, over every run from its snapshot to its COMMIT.
 */
module SessionFallback {
  import opened Options
  import opened Sessions
  import opened SessionInvariant
  import opened SessionTheorems

  // ---------------------------------------------------------------- rows only fade

  /** Of the JTIs ever committed, none comes back, and a row that is left is as it was or revoked. */
  predicate OnlyFades(db: Tables, db': Tables) {
    && db.recorded <= db'.recorded
    && forall j :: j in db.recorded && j in db'.tokens ==>
         j in db.tokens && (db'.tokens[j] == db.tokens[j] || db'.tokens[j] == db.tokens[j].(revoked := true))
  }

  lemma FadeCommit(db: Tables, x: Proc)
    requires TablesOk(db) && ProcOk(db, x) && AtCommit(x)
    ensures OnlyFades(db, CommitTables(db, x))
  {
    CommitKeepsRecords(db, x);
    FadeMerge(db, x);
  }

  lemma CommitKeepsRecords(db: Tables, x: Proc)
    ensures x.task.Rotate? && x.phase.Inserted? ==> CommitTables(db, x).recorded == db.recorded + {x.phase.successor}
    ensures CommitTables(db, x).recorded >= db.recorded && CommitTables(db, x).tokens == Merge(db.tokens, x.writes)
  {
    hide Merge;
  }

  lemma FadeMerge(db: Tables, x: Proc)
    requires TablesOk(db) && ProcOk(db, x)
    ensures OnlyFades(db, db.(tokens := Merge(db.tokens, x.writes)))
  {
    hide TablesOk;
    forall j | j in x.writes ensures WriteOk(db, x, j) {}
  }

  lemma FadeStep(s: State, a: Action)
    requires Inv(s) && Enabled(s, a)
    ensures OnlyFades(s.db, Apply(s, a).db)
  {
    if a.Commit? {
      assert ProcOk(s.db, s.procs[a.pid]);
      FadeCommit(s.db, s.procs[a.pid]);
      hide OnlyFades;
    } else {
      assert s.db.recorded <= s.db.issued;
      hide Inv; hide CommitTables;
    }
  }

  lemma FadeTrans(db: Tables, db': Tables, db'': Tables)
    requires OnlyFades(db, db') && OnlyFades(db', db'')
    ensures OnlyFades(db, db'')
  {
  }

  predicate FamiliesStay(db: Tables, db': Tables) {
    && LinesGrow(db, db')
    && forall f :: f in db.families ==> f in db'.families && db'.families[f].user == db.families[f].user
  }

  lemma FamiliesStep(s: State, a: Action)
    requires Inv(s) && Enabled(s, a)
    ensures FamiliesStay(s.db, Apply(s, a).db)
  {
    StepGrowsLines(s, a);
    if a.Commit? && s.procs[a.pid].phase.Inserted? {
      assert ProcOk(s.db, s.procs[a.pid]);
      CommitRotationLine(s.db, s.procs[a.pid]);
    }
  }

  lemma FamiliesTrans(db: Tables, db': Tables, db'': Tables)
    requires FamiliesStay(db, db') && FamiliesStay(db', db'')
    ensures FamiliesStay(db, db'')
  {
    forall f | f in db.families ensures f in db''.families && db.families[f].links <= db''.families[f].links {
      assert db.families[f].links <= db'.families[f].links <= db''.families[f].links;
    }
  }

  /** Along any run tokens fade, families stay with their user, and their lines only grow. */
  lemma {:induction false} RunFades(s: State, run: seq<Action>)
    requires Inv(s) && ValidRun(s, run)
    ensures OnlyFades(s.db, Exec(s, run).db) && FamiliesStay(s.db, Exec(s, run).db)
    decreases |run|
  {
    if run != [] {
      var t := Apply(s, run[0]);
      FadeStep(s, run[0]);
      FamiliesStep(s, run[0]);
      InvStep(s, run[0]);
      RunFades(t, run[1..]);
      hide OnlyFades; hide FamiliesStay;
      FadeTrans(s.db, t.db, Exec(t, run[1..]).db);
      FamiliesTrans(s.db, t.db, Exec(t, run[1..]).db);
    }
  }

  /** A live token of a family that has none of its earlier tokens left is a successor committed since. */
  predicate Grown(db: Tables, db': Tables, f: Family) {
    f in db.families && f in db'.families && |db'.families[f].links| > |db.families[f].links|
  }

  // ---------------------------------------------------------------- one unlocked commit

  /** Exactly the live tokens outside its write set survive the commit of a revocation, locked or not. */
  lemma UnlockedCommitExact(s: State, p: Pid, f: Family)
    requires Inv(s) && Enabled(s, Commit(p)) && s.procs[p].task.Revoke?
    ensures FamilyLive(Apply(s, Commit(p)).db, f) <==>
      exists j :: j in s.db.tokens && Live(s.db, j) && s.db.tokens[j].family == f && j !in s.procs[p].writes
  {
    var x, t := s.procs[p], Apply(s, Commit(p));
    assert ProcOk(s.db, x);
    RevocationMerge(s.db, x);
    hide Inv; hide ProcOk; hide Merge;
    if j :| j in t.db.tokens && Live(t.db, j) && t.db.tokens[j].family == f {
      assert j in s.db.tokens && Live(s.db, j) && s.db.tokens[j].family == f && j !in x.writes;
    }
    if j :| j in s.db.tokens && Live(s.db, j) && s.db.tokens[j].family == f && j !in x.writes {
      assert Live(t.db, j) && t.db.tokens[j].family == f;
    }
  }

  lemma RevocationMerge(db: Tables, x: Proc)
    requires ProcOk(db, x) && x.task.Revoke? && AtCommit(x)
    ensures CommitTables(db, x) == db.(tokens := Merge(db.tokens, x.writes))
    ensures forall j :: j in Merge(db.tokens, x.writes) <==> j in db.tokens
    ensures forall j :: j in db.tokens ==>
      Merge(db.tokens, x.writes)[j] == if j in x.writes then db.tokens[j].(revoked := true) else db.tokens[j]
  {
    forall j | j in x.writes ensures WriteOk(db, x, j) {}
  }

  /** An open transaction is about to commit a live token of `f` exactly when it is a rotation of `f` that has
      inserted its successor. */
  lemma PendingIsRotation(db: Tables, x: Proc, f: Family)
    requires TablesOk(db) && ProcOk(db, x)
    ensures NoLiveWrite(x, f) <==> !(x.phase.Inserted? && x.task.family == f)
  {
    if x.phase.Inserted? {
      assert x.writes[x.phase.successor] == Put(Token(x.task.user, x.task.family, false));
    }
    forall j | j in x.writes ensures WriteOk(db, x, j) {}
  }

  // ---------------------------------------------------------------- from the snapshot to the commit

  /** The unlocked pass is under way with this snapshot: each snapshot row is either in its write set or gone. */
  predicate UnderWay(s: State, p: Pid, task: Task, rows: set<Jti>) {
    && p in s.procs && s.procs[p].task == task && SkipsLock(s.procs[p]) && rows <= s.db.recorded
    && match s.procs[p].phase
       case Snapped(r, _) => r == rows
       case Executed(_) =>
         && s.procs[p].writes.Keys <= rows
         && forall j :: j in rows ==> j in s.procs[p].writes || j !in s.db.tokens
       case _ => false
  }

  /** The pass is over: committed, rolled back or failed. */
  predicate Over(s: State, p: Pid) {
    && p in s.procs && s.procs[p].task.Revoke? && !s.procs[p].task.attempt.First?
    && (!SkipsLock(s.procs[p]) || s.procs[p].phase.Ended?)
  }

  lemma UnderWayStep(s: State, a: Action, p: Pid, task: Task, rows: set<Jti>)
    requires Inv(s) && Enabled(s, a) && UnderWay(s, p, task, rows)
    ensures UnderWay(Apply(s, a), p, task, rows) || Over(Apply(s, a), p)
  {
    FadeStep(s, a);
    hide Inv; hide Merge; hide CommitTables;
  }

  lemma OverStep(s: State, a: Action, p: Pid)
    requires Enabled(s, a) && Over(s, p)
    ensures Over(Apply(s, a), p)
  {
    hide CommitTables;
  }

  lemma {:induction false} UnderWayRun(s: State, run: seq<Action>, p: Pid, task: Task, rows: set<Jti>)
    requires Inv(s) && ValidRun(s, run) && (UnderWay(s, p, task, rows) || Over(s, p))
    ensures UnderWay(Exec(s, run), p, task, rows) || Over(Exec(s, run), p)
    decreases |run|
  {
    if run != [] {
      if UnderWay(s, p, task, rows) { UnderWayStep(s, run[0], p, task, rows); } else { OverStep(s, run[0], p); }
      InvStep(s, run[0]);
      UnderWayRun(Apply(s, run[0]), run[1..], p, task, rows);
    }
  }

  /** Every snapshot row is spent once the pass has committed. */
  lemma RowsSpent(s: State, p: Pid, task: Task, rows: set<Jti>)
    requires Inv(s) && UnderWay(s, p, task, rows) && Enabled(s, Commit(p)) && s.procs[p].task.Revoke?
    ensures forall j :: j in rows ==> Spent(Apply(s, Commit(p)).db, j)
  {
    RevocationMerge(s.db, s.procs[p]);
    hide Merge; hide Inv;
  }

  /** At a snapshot every token of a covered family is matched. */
  lemma SnapshotMatches(db: Tables, task: Task, f: Family, j: Jti)
    requires TablesOk(db) && task.Revoke? && f in Covered(db, task)
    requires f in db.families && db.families[f].user == task.user
    requires j in db.tokens && db.tokens[j].family == f
    ensures j in Matching(db, task)
  {
    assert TokenOk(db, j);
  }

  /** And every matched token is on a line as long as it was then. */
  lemma RowOnLine(db: Tables, j: Jti) returns (i: nat)
    requires TablesOk(db) && j in db.tokens
    ensures db.tokens[j].family in db.families && i < |db.families[db.tokens[j].family].links|
    ensures db.families[db.tokens[j].family].links[i].jti == j
  {
    assert TokenOk(db, j);
    i :| 0 <= i < |db.families[db.tokens[j].family].links| && db.families[db.tokens[j].family].links[i].jti == j;
  }

  /** A token live at the end and not among the matched rows is a successor the family has gained since. */
  lemma SurvivorIsNew(db: Tables, db': Tables, task: Task, f: Family, j: Jti)
    requires TablesOk(db) && TablesOk(db') && OnlyFades(db, db') && FamiliesStay(db, db')
    requires task.Revoke? && f in Covered(db, task) && f in db.families && db.families[f].user == task.user
    requires j in db'.tokens && Live(db', j) && db'.tokens[j].family == f && j !in Matching(db, task)
    ensures Grown(db, db', f) && Tip(db'.families[f]) == Some(j)
  {
    assert TokenOk(db', j) && LineOk(db, f);
    if j in db.recorded {
      SnapshotMatches(db, task, f, j);
      assert false;
    }
    var links, links' := db.families[f].links, db'.families[f].links;
    assert links[|links| - 1].jti in db.recorded;
  }

  /** A successor gained since was no matched row. */
  lemma NewIsUnmatched(db: Tables, db': Tables, task: Task, f: Family)
    requires TablesOk(db) && TablesOk(db') && FamiliesStay(db, db') && Grown(db, db', f)
    ensures db'.families[f].links != [] && Tip(db'.families[f]).value !in Matching(db, task)
  {
    var j := Tip(db'.families[f]).value;
    if j in db.tokens { var i := RowOnLine(db, j); }
  }

  /** An open rotation of the family has inserted a successor. */
  predicate Rotating(s: State, f: Family) {
    exists q :: q in s.procs && s.procs[q].task.Rotate? && s.procs[q].phase.Inserted? && s.procs[q].task.family == f
  }

  lemma SurvivorExact(db: Tables, s: State, p: Pid, task: Task, f: Family)
    requires TablesOk(db) && Inv(s) && OnlyFades(db, s.db) && FamiliesStay(db, s.db)
    requires task.Revoke? && f in Covered(db, task) && f in db.families && db.families[f].user == task.user
    requires UnderWay(s, p, task, Matching(db, task)) && Enabled(s, Commit(p))
    ensures FamilyLive(Apply(s, Commit(p)).db, f) <==> Grown(db, s.db, f) && Live(s.db, Tip(s.db.families[f]).value)
  {
    UnlockedCommitExact(s, p, f);
    var x := s.procs[p];
    hide UnderWay; hide Apply; hide FamilyLive; hide Grown; hide OnlyFades; hide FamiliesStay;
    hide Covered; hide Matching;
    UnderWayWrites(s, p, task, Matching(db, task));
    if j :| j in s.db.tokens && Live(s.db, j) && s.db.tokens[j].family == f && j !in x.writes {
      SurvivorIsNew(db, s.db, task, f, j);
    }
    if Grown(db, s.db, f) && Live(s.db, Tip(s.db.families[f]).value) {
      NewIsUnmatched(db, s.db, task, f);
      TipFamily(s.db, f);
    }
  }

  lemma UnderWayWrites(s: State, p: Pid, task: Task, rows: set<Jti>)
    requires UnderWay(s, p, task, rows) && Enabled(s, Commit(p)) && task.Revoke?
    ensures s.procs[p].writes.Keys <= rows && forall j :: j in rows && j in s.db.tokens ==> j in s.procs[p].writes
  {
  }

  lemma TipFamily(db: Tables, f: Family)
    requires TablesOk(db) && f in db.families && db.families[f].links != [] && Live(db, Tip(db.families[f]).value)
    ensures db.tokens[Tip(db.families[f]).value].family == f
  {
    var i := RowOnLine(db, Tip(db.families[f]).value);
  }

  lemma NoneRotating(s: State, f: Family)
    requires Inv(s)
    ensures (forall q :: q in s.procs ==> NoLiveWrite(s.procs[q], f)) <==> !Rotating(s, f)
  {
    forall q | q in s.procs ensures NoLiveWrite(s.procs[q], f) <==>
      !(s.procs[q].task.Rotate? && s.procs[q].phase.Inserted? && s.procs[q].task.family == f)
    {
      assert ProcOk(s.db, s.procs[q]);
      PendingIsRotation(s.db, s.procs[q], f);
    }
    hide Inv; hide NoLiveWrite;
  }

  /** Dead means: no live row, and nobody about to commit one. */
  lemma DeadParts(s: State, f: Family)
    requires f in s.db.families
    ensures Dead(s, f) <==> !FamilyLive(s.db, f) && forall q :: q in s.procs ==> NoLiveWrite(s.procs[q], f)
  {
    hide NoLiveWrite;
    if !FamilyLive(s.db, f) {
      forall j | j in s.db.tokens && s.db.tokens[j].family == f ensures s.db.tokens[j].revoked {
        assert !Live(s.db, j);
      }
    }
  }

  lemma CommitMoves(s: State, p: Pid)
    requires Enabled(s, Commit(p)) && s.procs[p].task.Revoke?
    ensures var t := Apply(s, Commit(p));
      && t.procs.Keys == s.procs.Keys && t.db.families == s.db.families
      && forall q :: q in s.procs && q != p ==> t.procs[q] == s.procs[q]
  {
  }

  lemma DeadExact(s: State, p: Pid, f: Family)
    requires Inv(s) && Enabled(s, Commit(p)) && s.procs[p].task.Revoke? && f in s.db.families
    ensures Dead(Apply(s, Commit(p)), f) <==> !FamilyLive(Apply(s, Commit(p)).db, f) && !Rotating(s, f)
  {
    NoneRotating(s, f);
    EmptyWrite(s, p, f);
    CommitMoves(s, p);
    hide Inv; hide NoLiveWrite; hide Apply; hide Rotating; hide FamilyLive; hide Dead; hide Enabled;
    DeadParts(Apply(s, Commit(p)), f);
  }

  lemma EmptyWrite(s: State, p: Pid, f: Family)
    requires Inv(s) && Enabled(s, Commit(p)) && s.procs[p].task.Revoke?
    ensures NoLiveWrite(Apply(s, Commit(p)).procs[p], f) && NoLiveWrite(s.procs[p], f)
  {
    assert ProcOk(s.db, s.procs[p]);
    PendingIsRotation(s.db, s.procs[p], f);
  }

  /** Exactly when the unlocked pass alone leaves a family it was meant for alive: some rotation has given the
      family a successor since the snapshot, and that successor is still live.  It leaves the family dead for good
      exactly when, besides, no open rotation of it has inserted one. */
  lemma UnlockedPassExact(s: State, p: Pid, run: seq<Action>, f: Family)
    requires Reachable(s) && Enabled(s, Snapshot(p)) && s.procs[p].task.Revoke? && SkipsLock(s.procs[p])
    requires f in Covered(s.db, s.procs[p].task) && ValidRun(Apply(s, Snapshot(p)), run)
    requires var t := Exec(Apply(s, Snapshot(p)), run); Enabled(t, Commit(p)) && SkipsLock(t.procs[p])
    ensures var t := Exec(Apply(s, Snapshot(p)), run);
      FamilyLive(Apply(t, Commit(p)).db, f) <==> Grown(s.db, t.db, f) && Live(t.db, Tip(t.db.families[f]).value)
    ensures var t := Exec(Apply(s, Snapshot(p)), run);
      Dead(Apply(t, Commit(p)), f) <==> !FamilyLive(Apply(t, Commit(p)).db, f) && !Rotating(t, f)
  {
    var task := s.procs[p].task;
    var s', t := Apply(s, Snapshot(p)), Exec(Apply(s, Snapshot(p)), run);
    ReachableInv(s);
    CoveredFamily(s, p, f);
    UnlockedReaches(s, p, run);
    SurvivorExact(s.db, t, p, task, f);
    DeadExact(t, p, f);
  }

  lemma CoveredFamily(s: State, p: Pid, f: Family)
    requires Inv(s) && p in s.procs && s.procs[p].task.Revoke? && f in Covered(s.db, s.procs[p].task)
    ensures f in s.db.families && s.db.families[f].user == s.procs[p].task.user
  {
    assert ProcOk(s.db, s.procs[p]);
  }

  lemma SnapshotStarts(s: State, p: Pid)
    requires Inv(s) && Enabled(s, Snapshot(p)) && s.procs[p].task.Revoke? && SkipsLock(s.procs[p])
    ensures var s' := Apply(s, Snapshot(p));
      Inv(s') && s'.db == s.db && UnderWay(s', p, s.procs[p].task, Matching(s.db, s.procs[p].task))
  {
    InvStep(s, Snapshot(p));
    MatchedRecorded(s.db, s.procs[p].task);
    hide Inv; hide Matching;
  }

  /** What holds at the end of a run from the unlocked snapshot to the commit. */
  lemma UnlockedReaches(s: State, p: Pid, run: seq<Action>)
    requires Inv(s) && Enabled(s, Snapshot(p)) && s.procs[p].task.Revoke? && SkipsLock(s.procs[p])
    requires ValidRun(Apply(s, Snapshot(p)), run)
    requires var t := Exec(Apply(s, Snapshot(p)), run); Enabled(t, Commit(p)) && SkipsLock(t.procs[p])
    ensures var t := Exec(Apply(s, Snapshot(p)), run);
      && Inv(t) && UnderWay(t, p, s.procs[p].task, Matching(s.db, s.procs[p].task))
      && t.procs[p].task == s.procs[p].task
      && OnlyFades(s.db, t.db) && FamiliesStay(s.db, t.db)
  {
    var task, s' := s.procs[p].task, Apply(s, Snapshot(p));
    SnapshotStarts(s, p);
    hide Inv; hide Apply; hide Matching; hide OnlyFades; hide FamiliesStay; hide Exec; hide ValidRun;
    RunKeepsInv(s', run);
    UnderWayRun(s', run, p, task, Matching(s.db, task));
    RunFades(s', run);
  }

  lemma MatchedRecorded(db: Tables, task: Task)
    requires TablesOk(db)
    ensures Matching(db, task) <= db.recorded
  {
    forall j | j in Matching(db, task) ensures j in db.recorded { assert TokenOk(db, j); }
  }

  /** The purpose of the fallback: every token it was meant for is spent once it has committed, and stays so. */
  lemma UnlockedPassSpends(s: State, p: Pid, run: seq<Action>, later: seq<Action>)
    requires Reachable(s) && Enabled(s, Snapshot(p)) && s.procs[p].task.Revoke? && SkipsLock(s.procs[p])
    requires ValidRun(Apply(s, Snapshot(p)), run)
    requires var t := Exec(Apply(s, Snapshot(p)), run);
      Enabled(t, Commit(p)) && SkipsLock(t.procs[p]) && ValidRun(Apply(t, Commit(p)), later)
    ensures var u := Apply(Exec(Apply(s, Snapshot(p)), run), Commit(p));
      forall j :: j in Matching(s.db, s.procs[p].task) ==> Spent(Exec(u, later).db, j)
  {
    var t := Exec(Apply(s, Snapshot(p)), run);
    ReachableInv(s);
    UnlockedReaches(s, p, run);
    RowsSpent(t, p, s.procs[p].task, Matching(s.db, s.procs[p].task));
    InvStep(t, Commit(p));
    forall j | j in Matching(s.db, s.procs[p].task) ensures Spent(Exec(Apply(t, Commit(p)), later).db, j) {
      SpentForever(Apply(t, Commit(p)), j, later);
    }
  }

  // ---------------------------------------------------------------- what a caller may rely on

  /** The tokens a revocation is meant for. */
  function Targets(db: Tables, user: UserId, scope: Scope): set<Jti> {
    Matching(db, Revoke(user, scope, First))
  }

  predicate AllSpent(db: Tables, js: set<Jti>) {
    forall j :: j in js ==> Spent(db, j)
  }

  lemma SpentStays(db: Tables, db': Tables, js: set<Jti>)
    requires AllSpent(db, js) && OnlyFades(db, db')
    ensures AllSpent(db', js)
  {
  }

  /** What was meant earlier is either meant later too, or spent by then. */
  lemma EarlierTargets(db: Tables, db': Tables, db'': Tables, user: UserId, scope: Scope)
    requires TablesOk(db) && OnlyFades(db, db') && OnlyFades(db', db'') && AllSpent(db'', Targets(db', user, scope))
    ensures AllSpent(db'', Targets(db, user, scope))
  {
    MatchedRecorded(db, Revoke(user, scope, First));
    hide TablesOk;
    forall j | j in Targets(db, user, scope) ensures Spent(db'', j) {
      if j !in Targets(db', user, scope) { assert j !in db'.tokens; }
    }
  }

  /** Where every covered family is dead, every token meant before is spent. */
  lemma CoveredSpent(db: Tables, s: State, user: UserId, scope: Scope, covered: set<Family>)
    requires TablesOk(db) && OnlyFades(db, s.db) && forall f :: f in covered ==> Dead(s, f)
    requires if scope.OneFamily? then scope.family in covered else FamiliesOf(db, user) <= covered
    ensures AllSpent(s.db, Targets(db, user, scope))
  {
    MatchedRecorded(db, Revoke(user, scope, First));
    forall j | j in Targets(db, user, scope) ensures Spent(s.db, j) {
      assert TokenOk(db, j);
      assert db.tokens[j].family in covered;
      assert Dead(s, db.tokens[j].family);
    }
  }

  /** With every token it was meant for spent, a family it was meant for can only be live by a later successor. */
  lemma LiveMeansGrown(db: Tables, db': Tables, user: UserId, scope: Scope, f: Family)
    requires TablesOk(db) && TablesOk(db') && OnlyFades(db, db') && FamiliesStay(db, db')
    requires AllSpent(db', Targets(db, user, scope)) && f in Covered(db, Revoke(user, scope, First))
    requires f in FamiliesOf(db, user) && FamilyLive(db', f)
    ensures Grown(db, db', f)
  {
    var j :| j in db'.tokens && Live(db', j) && db'.tokens[j].family == f;
    SurvivorIsNew(db, db', Revoke(user, scope, First), f, j);
  }
}
