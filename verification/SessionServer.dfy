/**
 The session operations of backend/src/core/plugins/auth.ts in their own shape: straight-line code over
 a shared database, with every other client running between any two statements (`Interfere`) and with
 each statement free to hit its deadline or to fail (`Await`).
 */
module SessionServer {
  import opened Options
  import opened Sessions
  import opened SessionInvariant
  import opened SessionTheorems
  import opened SessionFallback
  import opened SessionReuse

  /** `t` is reached from `s` by some run of the protocol. */
  ghost predicate Path(s: State, t: State) {
    exists run: seq<Action> :: ValidRun(s, run) && Exec(s, run) == t
  }

  lemma PathStep(s: State, t: State, a: Action)
    requires Path(s, t) && Enabled(t, a)
    ensures Path(s, Apply(t, a))
  {
    var run: seq<Action> :| ValidRun(s, run) && Exec(s, run) == t;
    RunAppend(s, run, a);
  }

  lemma PathApply(s: State, a: Action)
    requires Enabled(s, a)
    ensures Path(s, Apply(s, a))
  {
    PathRefl(s);
    PathStep(s, s, a);
  }

  lemma PathRefl(s: State)
    ensures Path(s, s)
  {
    assert ValidRun(s, []) && Exec(s, []) == s;
  }

  lemma {:induction false} RunConcat(s: State, r1: seq<Action>, r2: seq<Action>)
    requires ValidRun(s, r1) && ValidRun(Exec(s, r1), r2)
    ensures ValidRun(s, r1 + r2) && Exec(s, r1 + r2) == Exec(Exec(s, r1), r2)
    decreases |r1|
  {
    if r1 == [] {
      assert [] + r2 == r2;
    } else {
      RunConcat(Apply(s, r1[0]), r1[1..], r2);
      assert (r1 + r2)[1..] == r1[1..] + r2;
    }
  }

  lemma PathTrans(s: State, t: State, u: State)
    requires Path(s, t) && Path(t, u)
    ensures Path(s, u)
  {
    var r1: seq<Action> :| ValidRun(s, r1) && Exec(s, r1) == t;
    var r2: seq<Action> :| ValidRun(t, r2) && Exec(t, r2) == u;
    RunConcat(s, r1, r2);
  }

  /** Along a path tokens only fade, and families stay with their user. */
  lemma PathFades(s: State, t: State)
    requires Inv(s) && Path(s, t)
    ensures OnlyFades(s.db, t.db) && FamiliesStay(s.db, t.db)
  {
    var run: seq<Action> :| ValidRun(s, run) && Exec(s, run) == t;
    RunFades(s, run);
  }

  lemma PathUnderWay(s: State, t: State, p: Pid, task: Task, rows: set<Jti>)
    requires Inv(s) && Path(s, t) && UnderWay(s, p, task, rows) && p in t.procs && !Over(t, p)
    ensures UnderWay(t, p, task, rows)
  {
    var run: seq<Action> :| ValidRun(s, run) && Exec(s, run) == t;
    UnderWayRun(s, run, p, task, rows);
  }

  /** The client process an action belongs to, if any. */
  function Actor(a: Action): Option<Pid> {
    match a
    case Begin(p, _) => Some(p)
    case Grant(p) => Some(p)
    case RevokePresented(p) => Some(p)
    case Claim(p) => Some(p)
    case Probe(p) => Some(p)
    case Insert(p, _) => Some(p)
    case Write(p) => Some(p)
    case Snapshot(p) => Some(p)
    case Execute(p) => Some(p)
    case Commit(p) => Some(p)
    case Deadline(p) => Some(p)
    case Fail(p) => Some(p)
    case _ => None
  }

  lemma OthersLeaveAlone(s: State, a: Action, p: Pid)
    requires Enabled(s, a) && Actor(a) != Some(p)
    ensures p in s.procs <==> p in Apply(s, a).procs
    ensures p in s.procs ==> Apply(s, a).procs[p] == s.procs[p]
  {
  }

  predicate Others(run: seq<Action>, p: Pid) {
    forall i :: 0 <= i < |run| ==> Actor(run[i]) != Some(p)
  }

  lemma {:induction false} OthersRun(s: State, run: seq<Action>, p: Pid)
    requires ValidRun(s, run) && Others(run, p) && p in s.procs
    ensures p in Exec(s, run).procs && Exec(s, run).procs[p] == s.procs[p]
    decreases |run|
  {
    if run != [] {
      OthersLeaveAlone(s, run[0], p);
      OthersRun(Apply(s, run[0]), run[1..], p);
    }
  }

  /** A deactivated user's presented token is revoked when its transaction commits, whatever the others did
      in between, and is never live again. */
  lemma PresentedIsRetired(s: State, p: Pid, run: seq<Action>, later: seq<Action>)
    requires Reachable(s) && Enabled(s, RevokePresented(p)) && Presents(s.db, s.procs[p].task)
    requires ValidRun(Apply(s, RevokePresented(p)), run) && Others(run, p)
    requires var t := Exec(Apply(s, RevokePresented(p)), run);
      Enabled(t, Commit(p)) && ValidRun(Apply(t, Commit(p)), later)
    ensures !Live(Exec(Apply(Exec(Apply(s, RevokePresented(p)), run), Commit(p)), later).db, s.procs[p].task.jti)
  {
    var t0 := Apply(s, RevokePresented(p));
    var t, j := Exec(t0, run), s.procs[p].task.jti;
    ReachableInv(s);
    assert TokenOk(s.db, j);
    InvStep(s, RevokePresented(p));
    RunKeepsInv(t0, run);
    OthersRun(t0, run, p);
    InvStep(t, Commit(p));
    RetireSpends(t, p, j);
    SpentForever(Apply(t, Commit(p)), j, later);
  }

  lemma RetireSpends(s: State, p: Pid, j: Jti)
    requires Inv(s) && Enabled(s, Commit(p)) && s.procs[p].phase.Presented? && j in s.procs[p].writes
    ensures Spent(Apply(s, Commit(p)).db, j)
  {
    assert ProcOk(s.db, s.procs[p]) && WriteOk(s.db, s.procs[p], j);
    if j in s.db.tokens { assert TokenOk(s.db, j); }
  }

  /** randomUUID always finds an unused value. */
  lemma UnusedExists(used: set<nat>) returns (j: nat)
    ensures j !in used
  {
    if used == {} {
      j := 0;
    } else {
      var m := Bound(used);
      j := m + 1;
    }
  }

  lemma {:induction false} Bound(used: set<nat>) returns (m: nat)
    ensures forall j :: j in used ==> j <= m
  {
    if used == {} {
      m := 0;
    } else {
      var k :| k in used;
      m := Bound(used - {k});
      if m < k { m := k; }
      assert used == (used - {k}) + {k};
    }
  }

  /** The transaction itself is at the point of issuing the statement. */
  predicate Ripe(x: Proc, a: Action) {
    !x.phase.Ended? &&
    match a
    case Grant(_) => x.phase.Opening? && !SkipsLock(x)
    case RevokePresented(_) =>
      x.task.Rotate? && x.phase.Holding? && x.phase.found.Some? && x.phase.found.value.deactivated
    case Claim(_) => x.task.Rotate? && x.phase.Holding? && x.phase.found.Some? && !x.phase.found.value.deactivated
    case Probe(_) => x.phase.Missed?
    case Snapshot(_) => AtSnapshot(x)
    case Execute(_) => x.phase.Snapped?
    case Commit(_) => AtCommit(x)
    case _ => false
  }

  /** Another transaction's lock makes the statement wait. */
  predicate Blocked(s: State, p: Pid, a: Action) {
    p in s.procs &&
    match a
    case Grant(_) => UserLocked(s, s.procs[p].task.user, {p})
    case RevokePresented(_) => s.procs[p].task.Rotate? && RowLocked(s, s.procs[p].task.jti, {p})
    case Claim(_) => s.procs[p].task.Rotate? && RowLocked(s, s.procs[p].task.jti, {p})
    case Execute(_) => s.procs[p].phase.Snapped? && exists j :: j in s.procs[p].phase.rows && RowLocked(s, j, {p})
    case _ => false
  }

  lemma RipeRuns(s: State, p: Pid, a: Action)
    requires p in s.procs && Actor(a) == Some(p) && Ripe(s.procs[p], a) && !Blocked(s, p, a)
    ensures Enabled(s, a)
  {
  }

  /** What the transaction itself becomes. */
  function ProcAfter(db: Tables, x: Proc, a: Action): Proc
    requires Ripe(x, a)
  {
    match a
    case Grant(_) => AfterGrant(db, x)
    case RevokePresented(_) => AfterPresented(db, x)
    case Claim(_) => AfterClaim(db, x)
    case Probe(_) => AfterProbe(db, x)
    case Snapshot(_) => AfterSnapshot(db, x)
    case Execute(_) => AfterExecute(db, x)
    case Commit(_) => AfterCommit(x)
  }

  /** A locked pass over one family leaves exactly that family dead. */
  lemma FamilyPass(s: State, p: Pid)
    requires Inv(s) && p in s.procs && s.procs[p].task.Revoke? && s.procs[p].task.scope.OneFamily?
    ensures LockedPassDone(s.procs[p]) ==>
      && Dead(s, s.procs[p].task.scope.family)
      && s.procs[p].phase.outcome.covered == {s.procs[p].task.scope.family}
  {
    var x := s.procs[p];
    assert ProcOk(s.db, x);
    hide TablesOk; hide ProcsOk; hide Dead;
    if LockedPassDone(x) { assert x.task.scope.family in KilledBy(x); }
  }

  /** A detected reuse leaves the presented token's family dead. */
  lemma ReusePass(s: State, p: Pid)
    requires Inv(s) && p in s.procs && s.procs[p].task.Rotate? && s.procs[p].phase == Ended(Reuse)
    ensures Dead(s, s.procs[p].task.family)
  {
    assert s.procs[p].task.family in KilledBy(s.procs[p]);
  }

  /** The session a successful rotation hands out is in the table, and the presented one is spent. */
  predicate Issued(db: Tables, user: UserId, jti: Jti, family: Family, successor: Jti) {
    && successor in db.tokens && db.tokens[successor] == Token(user, family, false)
    && jti in db.tokens && db.tokens[jti] == Token(user, family, true)
    && family in db.families && db.families[family].links != []
    && var tip := db.families[family].links[|db.families[family].links| - 1];
       tip.jti == successor && tip.claimed == Some(jti) && tip.claims.sub == user
  }

  lemma CommitIssues(db: Tables, x: Proc)
    requires TablesOk(db) && ProcOk(db, x) && x.phase.Inserted?
    ensures x.task.Rotate? && Issued(CommitTables(db, x), x.task.user, x.task.jti, x.task.family, x.phase.successor)
  {
    RotationTokens(db, x);
    CommitRotationLine(db, x);
  }

  lemma IssuedByCommit(s: State, p: Pid)
    requires Inv(s) && Enabled(s, Commit(p)) && s.procs[p].phase.Inserted?
    ensures var task := s.procs[p].task;
      task.Rotate? && Issued(Apply(s, Commit(p)).db, task.user, task.jti, task.family, s.procs[p].phase.successor)
  {
    assert ProcOk(s.db, s.procs[p]);
    CommitIssues(s.db, s.procs[p]);
  }

  /** Retiring found the presented token, and then its commit spends it, or it was spent before. */
  lemma RetiredOrGone(s: State, seen: State, t: State, task: Task, writes: map<Jti, Version>)
    requires Inv(s) && Path(s, seen) && Inv(seen) && Path(seen, t) && task.Rotate?
    requires task.jti in s.db.tokens && s.db.tokens[task.jti].user == task.user
    requires task.jti in seen.db.tokens && seen.db.tokens[task.jti].user == task.user ==> task.jti in writes
    requires task.jti in writes ==> Spent(t.db, task.jti)
    ensures Spent(t.db, task.jti)
  {
    PathFades(s, seen);
    PathFades(seen, t);
    assert TokenOk(s.db, task.jti);
  }

  /** From the lost claim to the probe the transaction has stood still, and so has what it lost the claim to. */
  lemma MissedPath(s: State, t: State, p: Pid)
    requires Inv(s) && Path(s, t) && p in s.procs && MissedHere(s, p, s.procs[p])
    requires p in t.procs && t.procs[p] == s.procs[p]
    ensures Active(t.db, s.procs[p].task.user) && (Lost(s.db, s.procs[p].task) ==> Lost(t.db, s.procs[p].task))
  {
    var run: seq<Action> :| ValidRun(s, run) && Exec(s, run) == t;
    MissedRun(s, run, p, s.procs[p]);
  }

  /** The claim is lost exactly where there is no live row to take. */
  lemma ClaimDecides(s: State, p: Pid)
    requires Inv(s) && Enabled(s, Claim(p))
    ensures var x, t := s.procs[p], Apply(s, Claim(p));
      && x.task.Rotate? && p in t.procs && t.procs[p].task == x.task && t.db == s.db && Active(s.db, x.task.user)
      && (t.procs[p].phase.Missed? <==>
            !(HasRow(s.db, x.task.user, x.task.jti, x.task.family) && !s.db.tokens[x.task.jti].revoked))
      && (t.procs[p].phase.Missed? ==> MissedHere(t, p, t.procs[p]))
  {
    HoldingActive(s, p);
  }

  /** The probe tells reuse from an unknown token by the row alone, revoked or not. */
  lemma ProbeDecides(s: State, p: Pid)
    requires Enabled(s, Probe(p)) && s.procs[p].task.Rotate?
    ensures var x, t := s.procs[p], Apply(s, Probe(p));
      && p in t.procs && (t.procs[p].phase.Found? <==> HasRow(s.db, x.task.user, x.task.jti, x.task.family))
      && (t.procs[p].phase.Found? || t.procs[p].phase.Absent?)
  {
  }

  lemma IssuedGrows(s: State, t: State)
    requires Inv(s) && Path(s, t)
    ensures s.db.issued <= t.db.issued
  {
    var run: seq<Action> :| ValidRun(s, run) && Exec(s, run) == t;
    RunIssues(s, run);
  }

  lemma {:induction false} RunIssues(s: State, run: seq<Action>)
    requires ValidRun(s, run)
    ensures s.db.issued <= Exec(s, run).db.issued
    decreases |run|
  {
    if run != [] {
      StepIssues(s, run[0]);
      RunIssues(Apply(s, run[0]), run[1..]);
    }
  }

  lemma StepIssues(s: State, a: Action)
    requires Enabled(s, a)
    ensures s.db.issued <= Apply(s, a).db.issued
  {
    hide Merge;
  }

  /** A row that is revoked is never found live later, so a replayed token is never rotated. */
  lemma RevokedNotRotated(s: State, seen: State, user: UserId, jti: Jti, family: Family)
    requires Inv(s) && Path(s, seen) && HasRow(s.db, user, jti, family) && s.db.tokens[jti].revoked
    requires HasRow(seen.db, user, jti, family)
    ensures seen.db.tokens[jti].revoked
  {
    PathFades(s, seen);
    assert TokenOk(s.db, jti);
  }

  // ---------------------------------------------------------------- what a revocation has reached

  /** `covered` is what a pass begun on `db` must cover: the family named, or all the user had by then. */
  predicate Reaches(db: Tables, task: Task, covered: set<Family>) {
    task.Revoke? && if task.scope.OneFamily? then covered == {task.scope.family} else FamiliesOf(db, task.user) <= covered
  }

  lemma SnapshotReaches(s: State, seen: State, task: Task)
    requires Inv(s) && Path(s, seen) && task.Revoke?
    ensures Reaches(s.db, task, Covered(seen.db, task))
  {
    PathFades(s, seen);
  }

  lemma LaterReaches(s: State, t: State, x: Proc)
    requires Inv(s) && Path(s, t) && LockedPassDone(x) && Reaches(t.db, x.task, x.phase.outcome.covered)
    ensures Reaches(s.db, x.task, x.phase.outcome.covered)
  {
    PathFades(s, t);
  }

  lemma PassKills(s: State, p: Pid)
    requires Inv(s) && p in s.procs && LockedPassDone(s.procs[p])
    ensures forall f :: f in s.procs[p].phase.outcome.covered ==> Dead(s, f)
  {
    assert forall f :: f in s.procs[p].phase.outcome.covered ==> f in KilledBy(s.procs[p]);
  }

  lemma PassSpends(s: State, t: State, p: Pid, user: UserId, scope: Scope)
    requires Inv(s) && Path(s, t) && p in t.procs && LockedPassDone(t.procs[p])
    requires t.procs[p].task.user == user && t.procs[p].task.scope == scope
    requires forall f :: f in t.procs[p].phase.outcome.covered ==> Dead(t, f)
    requires Reaches(s.db, t.procs[p].task, t.procs[p].phase.outcome.covered)
    ensures AllSpent(t.db, Targets(s.db, user, scope))
    ensures if scope.OneFamily? then t.procs[p].phase.outcome.covered == {scope.family}
      else FamiliesOf(s.db, user) <= t.procs[p].phase.outcome.covered
  {
    PathFades(s, t);
    CoveredSpent(s.db, t, user, scope, t.procs[p].phase.outcome.covered);
  }

  lemma BeginAllowed(s: State, p: Pid, task: Task)
    requires p !in s.procs && TaskAllowed(s.db, task)
    ensures Enabled(s, Begin(p, task))
  {
  }

  lemma BeginSame(s: State, p: Pid, task: Task)
    requires Enabled(s, Begin(p, task))
    ensures Apply(s, Begin(p, task)).db == s.db && p in Apply(s, Begin(p, task)).procs
    ensures Apply(s, Begin(p, task)).procs[p] == Proc(task, Opening, NoLock, map[])
  {
  }

  /** The tokens meant when the unlocked attempt began are spent by the commit of its snapshot. */
  lemma FallbackSpends(s: State, first: State, taken: State, seen: State, p: Pid)
    requires Inv(s) && Path(s, first) && Inv(first) && Enabled(first, Snapshot(p))
    requires first.procs[p].task.Revoke? && SkipsLock(first.procs[p]) && taken == Apply(first, Snapshot(p))
    requires Inv(taken) && Path(taken, seen) && Inv(seen) && p in seen.procs && Enabled(seen, Commit(p))
    requires seen.procs[p].task == first.procs[p].task && seen.procs[p].phase.Executed?
    ensures var task := first.procs[p].task;
      AllSpent(Apply(seen, Commit(p)).db, Targets(s.db, task.user, task.scope))
  {
    var task, rows := first.procs[p].task, Matching(first.db, first.procs[p].task);
    SnapshotStarts(first, p);
    PathUnderWay(taken, seen, p, task, rows);
    RowsSpent(seen, p, task, rows);
    PathFades(s, first);
    PathFades(taken, seen);
    FadeStep(first, Snapshot(p));
    FadeStep(seen, Commit(p));
    var u := Apply(seen, Commit(p));
    assert taken.db == first.db && rows == Targets(first.db, task.user, task.scope);
    hide Inv; hide Apply; hide OnlyFades; hide Targets; hide Matching; hide UnderWay;
    FadeTrans(first.db, seen.db, u.db);
    InvTables(s);
    EarlierTargets(s.db, first.db, u.db, task.user, task.scope);
  }

  lemma InvTables(s: State)
    requires Inv(s)
    ensures TablesOk(s.db)
  {
  }

  lemma LaterSpent(s: State, t: State, u: State, v: State, user: UserId, scope: Scope)
    requires Inv(s) && Inv(t) && Path(s, t) && Path(t, u) && u == v && AllSpent(u.db, Targets(t.db, user, scope))
    ensures AllSpent(v.db, Targets(s.db, user, scope))
  {
    PathFades(s, t);
    PathFades(t, u);
    EarlierTargets(s.db, t.db, u.db, user, scope);
  }

  lemma StillSpent(t: State, u: State, s: State, user: UserId, scope: Scope)
    requires Inv(t) && Path(t, u) && AllSpent(t.db, Targets(s.db, user, scope))
    ensures AllSpent(u.db, Targets(s.db, user, scope))
  {
    PathFades(t, u);
  }

  lemma FallbackGrows(s: State, t: State, user: UserId, scope: Scope)
    requires Inv(s) && Inv(t) && Path(s, t) && AllSpent(t.db, Targets(s.db, user, scope))
    requires TaskAllowed(s.db, Revoke(user, scope, First))
    ensures forall f :: f in Covered(s.db, Revoke(user, scope, First)) && FamilyLive(t.db, f) ==> Grown(s.db, t.db, f)
  {
    PathFades(s, t);
    forall f | f in Covered(s.db, Revoke(user, scope, First)) && FamilyLive(t.db, f) ensures Grown(s.db, t.db, f) {
      LiveMeansGrown(s.db, t.db, user, scope, f);
    }
  }

  /** The owner read from any token of a family is the family's user, then and later. */
  lemma OwnerStays(s: State, t: State, j: Jti)
    requires Inv(s) && Path(s, t) && j in s.db.tokens
    ensures TaskAllowed(t.db, Revoke(s.db.tokens[j].user, OneFamily(s.db.tokens[j].family), First))
  {
    PathFades(s, t);
    assert TokenOk(s.db, j);
  }

  lemma FamilySpent(s: State, t: State, u: State, owner: UserId, family: Family, j: Jti)
    requires Inv(s) && Inv(t) && Path(s, t) && Path(t, u) && AllSpent(u.db, Targets(t.db, owner, OneFamily(family)))
    requires j in s.db.tokens && s.db.tokens[j].family == family && s.db.tokens[j].user == owner
    ensures forall k :: k in s.db.tokens && s.db.tokens[k].family == family ==> Spent(u.db, k)
  {
    LaterSpent(s, t, u, u, owner, OneFamily(family));
    assert TokenOk(s.db, j);
    forall k | k in s.db.tokens && s.db.tokens[k].family == family ensures Spent(u.db, k) {
      assert TokenOk(s.db, k) && k in Targets(s.db, owner, OneFamily(family));
    }
  }

  lemma GrownSince(s: State, t: State, u: State, f: Family)
    requires Inv(s) && Path(s, t) && Grown(t.db, u.db, f) && f in s.db.families
    ensures Grown(s.db, u.db, f)
  {
    PathFades(s, t);
  }

  predicate LockedPassDone(x: Proc) {
    x.task.Revoke? && x.phase.Ended? && x.phase.outcome.LockedPass?
  }

  /** How waiting for a statement ended. */
  datatype Waited = Ready | TimedOut | Broken

  function Settled(x: Proc, w: Waited): Proc {
    match w
    case Ready => x
    case TimedOut => AfterDeadline(x.task)
    case Broken => AfterFailure(x.task)
  }

  class Server {
    var s: State

    constructor ()
      ensures s == INIT && Inv(s)
    {
      s := INIT;
      new;
      InvInit();
    }

    /** One statement of the protocol. */
    method Perform(a: Action)
      requires Inv(s) && Enabled(s, a)
      modifies this
      ensures s == Apply(old(s), a) && Inv(s) && Path(old(s), s)
    {
      InvStep(s, a);
      PathRefl(s);
      PathStep(s, s, a);
      s := Apply(s, a);
    }

    /** Any number of statements of other clients. */
    method Interfere(p: Pid)
      requires Inv(s)
      modifies this
      ensures Inv(s) && Path(old(s), s)
      ensures p in s.procs <==> p in old(s).procs
      ensures p in s.procs ==> s.procs[p] == old(s).procs[p]
    {
      var n: int :| 0 <= n;
      PathRefl(s);
      for i := 0 to n
        invariant Inv(s) && Path(old(s), s)
        invariant p in s.procs <==> p in old(s).procs
        invariant p in s.procs ==> s.procs[p] == old(s).procs[p]
      {
        var a: Action := *;
        if Enabled(s, a) && Actor(a) != Some(p) {
          ghost var before := s;
          OthersLeaveAlone(s, a, p);
          Perform(a);
          PathTrans(old(s), before, s);
        }
      }
    }

    /** Waiting for a statement: others run, then it is ready, over its deadline, or broken. */
    method Await(p: Pid) returns (w: Waited)
      requires Inv(s) && Open(s, p)
      modifies this
      ensures Inv(s) && Path(old(s), s) && p in s.procs
      ensures s.procs[p] == Settled(old(s).procs[p], w)
    {
      Interfere(p);
      ghost var mid := s;
      w := Ready;
      if * {
        w := TimedOut;
        Perform(Deadline(p));
        PathTrans(old(s), mid, s);
      } else if * {
        w := Broken;
        Perform(Fail(p));
        PathTrans(old(s), mid, s);
      }
    }

    /** One awaited statement: it runs unless somebody's lock holds it back until the deadline. */
    method Step(p: Pid, a: Action) returns (w: Waited, ghost seen: State)
      requires Inv(s) && p in s.procs && Actor(a) == Some(p) && Ripe(s.procs[p], a)
      modifies this
      ensures Inv(s) && Path(old(s), s) && p in s.procs
      ensures s.procs[p] == if w.Ready? then ProcAfter(seen.db, old(s).procs[p], a) else Settled(old(s).procs[p], w)
      ensures w.Ready? ==>
        && Inv(seen) && Path(old(s), seen) && p in seen.procs && seen.procs[p] == old(s).procs[p]
        && Enabled(seen, a) && s == Apply(seen, a)
    {
      w := Await(p);
      seen := s;
      if w.Ready? {
        ghost var before := s;
        if Blocked(s, p, a) {
          w := TimedOut;
          Perform(Deadline(p));
        } else {
          RipeRuns(s, p, a);
          Perform(a);
        }
        PathTrans(old(s), before, s);
      }
    }

    /** withUserSessionLock(UPDATE) of one revocation attempt: lock, snapshot, execute, COMMIT.  What it covered is
        dead, and with no family named that is at least every family the user had when the attempt began. */
    method RevokeLocked(p: Pid) returns (w: Waited)
      requires Inv(s) && p in s.procs && s.procs[p].task.Revoke? && s.procs[p].phase.Opening? && !SkipsLock(s.procs[p])
      modifies this
      ensures Inv(s) && Path(old(s), s) && p in s.procs
      ensures w.Ready? ==> s.procs[p].task == old(s).procs[p].task && LockedPassDone(s.procs[p])
      ensures w.Ready? ==> forall f :: f in s.procs[p].phase.outcome.covered ==> Dead(s, f)
      ensures w.Ready? ==> Reaches(old(s).db, old(s).procs[p].task, s.procs[p].phase.outcome.covered)
      ensures !w.Ready? ==> s.procs[p] == Settled(old(s).procs[p], w)
    {
      hide Inv; hide Path; hide Apply; hide Reaches; hide Dead; hide Enabled;
      ghost var seen, t;
      w, seen := Step(p, Grant(p));
      if !w.Ready? { return; }
      t := s;
      w, seen := Step(p, Snapshot(p));
      PathTrans(old(s), t, s);
      if !w.Ready? { return; }
      PathTrans(old(s), t, seen);
      ghost var covered := s.procs[p].phase.covered;
      SnapshotReaches(old(s), seen, old(s).procs[p].task);
      t := s;
      w, seen := Step(p, Execute(p));
      PathTrans(old(s), t, s);
      if !w.Ready? { return; }
      t := s;
      w, seen := Step(p, Commit(p));
      PathTrans(old(s), t, s);
      if w.Ready? { PassKills(s, p); }
    }

    /** The fallback UPDATE in a transaction of its own, without the users-row lock: it commits only with every
        token spent that was meant when it began. */
    method RevokeUnlocked(p: Pid) returns (w: Waited)
      requires Inv(s) && p in s.procs && s.procs[p].task.Revoke? && s.procs[p].phase.Opening? && SkipsLock(s.procs[p])
      modifies this
      ensures Inv(s) && Path(old(s), s) && p in s.procs
      ensures w.Ready? ==>
        s.procs[p] == Proc(old(s).procs[p].task.(attempt := Second(true)), Opening, NoLock, map[])
      ensures w.Ready? ==> AllSpent(s.db, Targets(old(s).db, old(s).procs[p].task.user, old(s).procs[p].task.scope))
      ensures !w.Ready? ==> s.procs[p] == Settled(old(s).procs[p], w)
    {
      hide Inv; hide Path; hide Apply; hide AllSpent; hide Enabled; hide UnderWay;
      ghost var seen, t;
      w, seen := Step(p, Snapshot(p));
      if !w.Ready? { return; }
      ghost var first, taken := seen, s;
      SnapshotStarts(seen, p);
      t := s;
      w, seen := Step(p, Execute(p));
      PathTrans(old(s), t, s);
      if !w.Ready? { return; }
      t := s;
      w, seen := Step(p, Commit(p));
      PathTrans(old(s), t, s);
      if w.Ready? {
        PathTrans(taken, t, seen);
        FallbackSpends(old(s), first, taken, seen, p);
      }
    }

    /** revokeUnderUserLock: locked, then on a deadline unlocked, then locked once more.  Unless it answers busy or
        fails, every token it was meant for is spent; a locked pass leaves what it covered dead; and after an
        unlocked pass alone a family can be live only by a successor it has gained since the call. */
    method RevokeUnderUserLock(p: Pid, user: UserId, scope: Scope) returns (outcome: Outcome)
      requires Inv(s) && p !in s.procs && TaskAllowed(s.db, Revoke(user, scope, First))
      modifies this
      ensures Inv(s) && Path(old(s), s) && p in s.procs
      ensures s.procs[p].task.Revoke? && s.procs[p].task.user == user && s.procs[p].task.scope == scope
      ensures s.procs[p].phase == Ended(outcome)
      ensures outcome.LockedPass? || outcome.UnlockedOnly? || outcome.Busy? || outcome.Failed?
      ensures outcome.LockedPass? || outcome.UnlockedOnly? ==> AllSpent(s.db, Targets(old(s).db, user, scope))
      ensures outcome.LockedPass? ==> forall f :: f in outcome.covered ==> Dead(s, f)
      ensures outcome.LockedPass? ==>
        if scope.OneFamily? then outcome.covered == {scope.family} else FamiliesOf(old(s).db, user) <= outcome.covered
      ensures outcome.UnlockedOnly? ==> forall f ::
        f in Covered(old(s).db, Revoke(user, scope, First)) && FamilyLive(s.db, f) ==> Grown(old(s).db, s.db, f)
    {
      hide Inv; hide Path; hide Apply; hide Enabled; hide AllSpent; hide Dead; hide Reaches; hide Targets;
      hide FamilyLive; hide Grown; hide Covered; hide FamiliesOf;
      BeginAllowed(s, p, Revoke(user, scope, First));
      Perform(Begin(p, Revoke(user, scope, First)));
      BeginSame(old(s), p, Revoke(user, scope, First));
      ghost var begun, t := s, s;
      var first := RevokeLocked(p);
      PathTrans(old(s), t, s);
      if first.Ready? {
        PassSpends(old(s), s, p, user, scope);
        return s.procs[p].phase.outcome;
      }
      if first.Broken? { return Failed; }

      var ranUnlocked := true;
      t := s;
      var fallback := RevokeUnlocked(p);
      if fallback.Ready? { LaterSpent(old(s), t, s, s, user, scope); }
      PathTrans(old(s), t, s);
      if fallback.Broken? { return Failed; }
      if fallback.TimedOut? { ranUnlocked := false; }

      t := s;
      var second := RevokeLocked(p);
      if ranUnlocked { StillSpent(t, s, old(s), user, scope); }
      ghost var attempt := t;
      PathTrans(old(s), t, s);
      match second {
        case Ready =>
          LaterReaches(old(s), attempt, s.procs[p]);
          PassSpends(old(s), s, p, user, scope);
          outcome := s.procs[p].phase.outcome;
        case TimedOut =>
          if ranUnlocked { FallbackGrows(old(s), s, user, scope); }
          outcome := if ranUnlocked then UnlockedOnly else Busy;
        case Broken => outcome := Failed;
      }
    }

    /** revokeTokenFamily: None when the family has no token left to name its owner.  Between the SELECT that
        names the owner and the transaction anything may happen to the family. */
    method RevokeTokenFamily(p: Pid, family: Family) returns (outcome: Option<Outcome>)
      requires Inv(s) && p !in s.procs
      modifies this
      ensures Inv(s) && Path(old(s), s)
      ensures outcome.None? <==> forall j :: j in old(s).db.tokens ==> old(s).db.tokens[j].family != family
      ensures outcome.None? ==> s == old(s)
      ensures outcome.Some? ==>
        outcome.value.LockedPass? || outcome.value.UnlockedOnly? || outcome.value.Busy? || outcome.value.Failed?
      ensures outcome.Some? && outcome.value.LockedPass? ==> outcome.value.covered == {family} && Dead(s, family)
      ensures outcome.Some? && (outcome.value.LockedPass? || outcome.value.UnlockedOnly?) ==>
        forall j :: j in old(s).db.tokens && old(s).db.tokens[j].family == family ==> Spent(s.db, j)
      ensures outcome.Some? && outcome.value.UnlockedOnly? && FamilyLive(s.db, family) ==> Grown(old(s).db, s.db, family)
    {
      if j :| j in s.db.tokens && s.db.tokens[j].family == family {
        hide Inv; hide Path; hide AllSpent; hide FamilyLive; hide Grown; hide Dead; hide OnlyFades; hide FamiliesStay;
        var owner := s.db.tokens[j].user;
        Interfere(p);
        OwnerStays(old(s), s, j);
        ghost var t := s;
        var o := RevokeUnderUserLock(p, owner, OneFamily(family));
        PathTrans(old(s), t, s);
        if o.LockedPass? || o.UnlockedOnly? { FamilySpent(old(s), t, s, owner, family, j); }
        if o.UnlockedOnly? && FamilyLive(s.db, family) { GrownSince(old(s), t, s, family); }
        outcome := Some(o);
      } else {
        PathRefl(s);
        outcome := None;
      }
    }

    /** revokeAllUserTokens: every token the user had is spent, and after a locked pass every family too is dead. */
    method RevokeAllUserTokens(p: Pid, user: UserId) returns (outcome: Outcome)
      requires Inv(s) && p !in s.procs && user in s.db.everUsers
      modifies this
      ensures Inv(s) && Path(old(s), s)
      ensures outcome.LockedPass? || outcome.UnlockedOnly? || outcome.Busy? || outcome.Failed?
      ensures outcome.LockedPass? || outcome.UnlockedOnly? ==>
        forall j :: j in old(s).db.tokens && old(s).db.tokens[j].user == user ==> Spent(s.db, j)
      ensures outcome.LockedPass? ==> forall f :: f in FamiliesOf(old(s).db, user) ==> Dead(s, f)
      ensures outcome.UnlockedOnly? ==>
        forall f :: f in FamiliesOf(old(s).db, user) && FamilyLive(s.db, f) ==> Grown(old(s).db, s.db, f)
    {
      hide Inv; hide Path; hide Dead; hide FamilyLive; hide Grown;
      outcome := RevokeUnderUserLock(p, user, AllFamilies);
    }

    /** rotateRefreshToken for a decoded token.  `seen` is the state in which the answer was decided: of the commit
        for a rotation, of the statement that found the row, or did not find it or an active user, for the rest. */
    method RotateRefreshToken(p: Pid, user: UserId, jti: Jti, family: Family)
      returns (outcome: Outcome, ghost seen: State)
      requires Inv(s) && p !in s.procs
      modifies this
      ensures Inv(s) && Path(old(s), s) && p in s.procs
      ensures s.procs[p].task == Rotate(user, jti, family) && s.procs[p].phase == Ended(outcome)
      ensures outcome.Rotated? || outcome.Reuse? || outcome.Rejected? || outcome.Busy? || outcome.Failed?
      ensures outcome.Rotated? ==> Issued(s.db, user, jti, family, outcome.successor)
      ensures outcome.Reuse? ==> Dead(s, family)
      ensures outcome.Rotated? || outcome.Reuse? || outcome.Rejected? ==>
        && Path(old(s), seen) && Path(seen, s)
        && Justified(old(s).db, seen.db, user, jti, family, outcome)
      ensures HasRow(old(s).db, user, jti, family) && old(s).db.tokens[jti].revoked ==> !outcome.Rotated?
    {
      hide Inv; hide Path; hide Issued; hide Spent; hide Justified; hide Apply; hide Enabled; hide Dead;
      seen := s;
      Opened(s, p, Rotate(user, jti, family));
      Perform(Begin(p, Rotate(user, jti, family)));
      ghost var t := s;
      var w;
      w, seen := Step(p, Grant(p));
      PathTrans(old(s), t, s);
      if !w.Ready? { return s.procs[p].phase.outcome, seen; }
      PathTrans(old(s), t, seen);
      PathApply(seen, Grant(p));
      var found := s.procs[p].phase.found;

      ghost var granted := seen;
      t := s;
      if found.None? {
        outcome, seen := Finish(p);
        seen := granted;
        RejectedUnknown(old(s), granted, user, jti, family);
        PathTrans(granted, t, s);
      } else if found.value.deactivated {
        outcome := RetirePresented(p);
        seen := granted;
        RejectedUnknown(old(s), granted, user, jti, family);
        PathTrans(granted, t, s);
      } else {
        outcome, seen := ClaimAndSucceed(p);
        if outcome.Rotated? || outcome.Reuse? || outcome.Rejected? {
          EarlierJustified(old(s), t, seen, user, jti, family, outcome);
          PathTrans(old(s), t, seen);
        }
      }
      PathTrans(old(s), t, s);
      if outcome.Rotated? { NotReplayed(old(s), seen, user, jti, family, outcome); }
    }

    /** The user is deactivated: only the presented token is revoked, and nothing is issued. */
    method RetirePresented(p: Pid) returns (outcome: Outcome)
      requires Inv(s) && p in s.procs && s.procs[p].task.Rotate? && s.procs[p].phase.Holding?
      requires s.procs[p].phase.found.Some? && s.procs[p].phase.found.value.deactivated
      modifies this
      ensures Inv(s) && Path(old(s), s) && p in s.procs
      ensures s.procs[p].task == old(s).procs[p].task && s.procs[p].phase == Ended(outcome)
      ensures outcome.Rejected? || outcome.Busy? || outcome.Failed?
      ensures var task := s.procs[p].task;
        outcome.Rejected? && task.jti in old(s).db.tokens && old(s).db.tokens[task.jti].user == task.user ==>
          Spent(s.db, task.jti)
    {
      hide Inv; hide Path; hide Issued; hide Apply; hide Enabled; hide Spent;
      ghost var seen, t, committed;
      var w;
      w, seen := Step(p, RevokePresented(p));
      if !w.Ready? { return s.procs[p].phase.outcome; }
      t := s;
      outcome, committed := Finish(p);
      PathTrans(old(s), t, s);
      ghost var task := s.procs[p].task;
      if outcome.Rejected? && task.jti in old(s).db.tokens && old(s).db.tokens[task.jti].user == task.user {
        PathApply(seen, RevokePresented(p));
        PathTrans(seen, t, s);
        RetiredOrGone(old(s), seen, s, task, t.procs[p].writes);
      }
    }

    /** The single-use claim, and what follows from winning or losing it. */
    method ClaimAndSucceed(p: Pid) returns (outcome: Outcome, ghost seen: State)
      requires Inv(s) && p in s.procs && s.procs[p].task.Rotate? && s.procs[p].phase.Holding?
      requires s.procs[p].phase.found.Some? && !s.procs[p].phase.found.value.deactivated
      modifies this
      ensures Inv(s) && Path(old(s), s) && p in s.procs
      ensures s.procs[p].task == old(s).procs[p].task && s.procs[p].phase == Ended(outcome)
      ensures outcome.Rotated? || outcome.Reuse? || outcome.Rejected? || outcome.Busy? || outcome.Failed?
      ensures outcome.Rotated? ==> var task := s.procs[p].task;
        Issued(s.db, task.user, task.jti, task.family, outcome.successor)
      ensures outcome.Reuse? ==> Dead(s, s.procs[p].task.family)
      ensures outcome.Rotated? || outcome.Reuse? || outcome.Rejected? ==> var task := s.procs[p].task;
        && Path(old(s), seen) && Path(seen, s)
        && Justified(old(s).db, seen.db, task.user, task.jti, task.family, outcome)
    {
      hide Inv; hide Path; hide Issued; hide Justified; hide Apply; hide Enabled; hide Dead; hide Lost; hide MissedHere;
      var w;
      w, seen := Step(p, Claim(p));
      if !w.Ready? { return s.procs[p].phase.outcome, seen; }
      ClaimDecides(seen, p);
      PathApply(seen, Claim(p));
      ghost var claimed, t := seen, s;
      if s.procs[p].phase.Missed? {
        outcome, seen := PunishReuse(p);
        if outcome.Reuse? { ReusePass(s, p); }
        if outcome.Reuse? || outcome.Rejected? {
          PunishedRightly(old(s), claimed, t, seen, p, outcome);
          PathTrans(old(s), t, seen);
        }
      } else {
        outcome, seen := IssueSuccessor(p);
        if outcome.Rotated? {
          PathTrans(old(s), t, seen);
          RotatedRightly(old(s), seen, p, outcome);
        }
      }
      PathTrans(old(s), t, s);
    }

    /** COMMIT of a rotation's transaction. */
    method Finish(p: Pid) returns (outcome: Outcome, ghost seen: State)
      requires Inv(s) && p in s.procs && s.procs[p].task.Rotate? && Ripe(s.procs[p], Commit(p))
      modifies this
      ensures Inv(s) && Path(old(s), s) && p in s.procs
      ensures s.procs[p].task == old(s).procs[p].task && s.procs[p].phase == Ended(outcome)
      ensures outcome == AfterCommit(old(s).procs[p]).phase.outcome || outcome.Busy? || outcome.Failed?
      ensures outcome.Rotated? ==> var task := s.procs[p].task;
        Issued(s.db, task.user, task.jti, task.family, outcome.successor)
      ensures outcome.Rejected? && old(s).procs[p].phase.Presented? ==>
        forall j :: j in old(s).procs[p].writes ==> Spent(s.db, j)
      ensures outcome.Rotated? || outcome.Reuse? || outcome.Rejected? ==>
        && Inv(seen) && Path(old(s), seen) && Path(seen, s)
        && p in seen.procs && seen.procs[p] == old(s).procs[p]
    {
      hide Inv; hide Path; hide TablesOk; hide ProcOk; hide Issued; hide Apply; hide Enabled; hide Spent;
      var w;
      w, seen := Step(p, Commit(p));
      outcome := s.procs[p].phase.outcome;
      if w.Ready? { PathApply(seen, Commit(p)); }
      if outcome.Rotated? { IssuedByCommit(seen, p); }
      if outcome.Rejected? && old(s).procs[p].phase.Presented? {
        forall j | j in old(s).procs[p].writes ensures Spent(s.db, j) { RetireSpends(seen, p, j); }
      }
    }

    /** The claim matched nothing: an existing token means reuse, and its whole family is revoked; an unknown one is
        merely rejected. */
    method PunishReuse(p: Pid) returns (outcome: Outcome, ghost seen: State)
      requires Inv(s) && p in s.procs && s.procs[p].task.Rotate? && s.procs[p].phase.Missed?
      modifies this
      ensures Inv(s) && Path(old(s), s) && p in s.procs
      ensures s.procs[p].task == old(s).procs[p].task && s.procs[p].phase == Ended(outcome)
      ensures outcome.Reuse? || outcome.Rejected? || outcome.Busy? || outcome.Failed?
      ensures outcome.Reuse? || outcome.Rejected? ==> var task := s.procs[p].task;
        && Path(old(s), seen) && Path(seen, s) && p in seen.procs && seen.procs[p] == old(s).procs[p]
        && (outcome.Reuse? <==> HasRow(seen.db, task.user, task.jti, task.family))
    {
      hide Inv; hide Path; hide Apply; hide Enabled; hide Spent; hide Issued; hide HasRow;
      var w;
      w, seen := Step(p, Probe(p));
      if !w.Ready? { return s.procs[p].phase.outcome, seen; }
      ProbeDecides(seen, p);
      PathApply(seen, Probe(p));
      ghost var t, committed := s, s;
      if s.procs[p].phase.Found? {
        outcome := RevokeWholeFamily(p);
      } else {
        outcome, committed := Finish(p);
      }
      PathTrans(old(s), t, s);
      PathTrans(seen, t, s);
    }

    /** UPDATE of the family in the rotation's own transaction, then COMMIT. */
    method RevokeWholeFamily(p: Pid) returns (outcome: Outcome)
      requires Inv(s) && p in s.procs && s.procs[p].task.Rotate? && s.procs[p].phase.Found?
      modifies this
      ensures Inv(s) && Path(old(s), s) && p in s.procs
      ensures s.procs[p].task == old(s).procs[p].task && s.procs[p].phase == Ended(outcome)
      ensures outcome.Reuse? || outcome.Busy? || outcome.Failed?
    {
      hide Inv; hide Path; hide Apply; hide Enabled; hide Spent; hide Issued;
      ghost var seen, t;
      var w;
      w, seen := Step(p, Snapshot(p));
      if !w.Ready? { return s.procs[p].phase.outcome; }
      t := s;
      w, seen := Step(p, Execute(p));
      PathTrans(old(s), t, s);
      if !w.Ready? { return s.procs[p].phase.outcome; }
      t := s;
      outcome, seen := Finish(p);
      PathTrans(old(s), t, s);
    }

    /** The claim won: insert the successor under the same lock and COMMIT. */
    method IssueSuccessor(p: Pid) returns (outcome: Outcome, ghost seen: State)
      requires Inv(s) && p in s.procs && s.procs[p].task.Rotate? && s.procs[p].phase.Claimed?
      modifies this
      ensures Inv(s) && Path(old(s), s) && p in s.procs
      ensures s.procs[p].task == old(s).procs[p].task && s.procs[p].phase == Ended(outcome)
      ensures outcome.Rotated? || outcome.Busy? || outcome.Failed?
      ensures outcome.Rotated? ==> var task := s.procs[p].task;
        Issued(s.db, task.user, task.jti, task.family, outcome.successor)
      ensures outcome.Rotated? ==>
        && Inv(seen) && Path(old(s), seen) && Path(seen, s)
        && p in seen.procs && seen.procs[p].task == old(s).procs[p].task && seen.procs[p].phase.Inserted?
    {
      hide Inv; hide Path; hide Issued; hide Spent;
      seen := s;
      var w := Await(p);
      if !w.Ready? { return s.procs[p].phase.outcome, seen; }
      ghost var free := UnusedExists(s.db.issued);
      var successor: Jti :| successor !in s.db.issued;
      ghost var t := s;
      Perform(Insert(p, successor));
      PathTrans(old(s), t, s);
      t := s;
      outcome, seen := Finish(p);
      PathTrans(old(s), t, s);
      if outcome.Rotated? { PathTrans(old(s), t, seen); }
    }
  }

  lemma Opened(s: State, p: Pid, task: Task)
    requires Inv(s) && p !in s.procs && task.Rotate?
    ensures Enabled(s, Begin(p, task)) && p in Apply(s, Begin(p, task)).procs
    ensures Apply(s, Begin(p, task)).procs[p] == Proc(task, Opening, NoLock, map[])
  {
  }

  /** The row was read under the grant: there was no active user. */
  lemma RejectedUnknown(s: State, granted: State, user: UserId, jti: Jti, family: Family)
    requires !Active(granted.db, user)
    ensures Justified(s.db, granted.db, user, jti, family, Rejected)
  {
  }

  lemma EarlierJustified(s: State, t: State, seen: State, user: UserId, jti: Jti, family: Family, outcome: Outcome)
    requires Inv(s) && Path(s, t) && Justified(t.db, seen.db, user, jti, family, outcome)
    ensures Justified(s.db, seen.db, user, jti, family, outcome)
  {
    IssuedGrows(s, t);
  }

  lemma NotReplayed(s: State, seen: State, user: UserId, jti: Jti, family: Family, outcome: Outcome)
    requires Inv(s) && Path(s, seen) && outcome.Rotated? && Justified(s.db, seen.db, user, jti, family, outcome)
    ensures !(HasRow(s.db, user, jti, family) && s.db.tokens[jti].revoked)
  {
    if HasRow(s.db, user, jti, family) && s.db.tokens[jti].revoked { RevokedNotRotated(s, seen, user, jti, family); }
  }

  lemma RotatedRightly(s: State, seen: State, p: Pid, outcome: Outcome)
    requires Inv(seen) && p in seen.procs && seen.procs[p].phase.Inserted? && outcome.Rotated?
    ensures var task := seen.procs[p].task;
      task.Rotate? && Justified(s.db, seen.db, task.user, task.jti, task.family, outcome)
  {
    InsertedFacts(seen, p);
  }

  lemma PunishedRightly(s: State, claimed: State, t: State, seen: State, p: Pid, outcome: Outcome)
    requires Inv(s) && Path(s, claimed) && Inv(claimed) && Enabled(claimed, Claim(p)) && t == Apply(claimed, Claim(p))
    requires Inv(t) && p in t.procs && t.procs[p].phase.Missed? && t.procs[p].task.Rotate?
    requires Path(t, seen) && p in seen.procs && seen.procs[p] == t.procs[p] && (outcome.Reuse? || outcome.Rejected?)
    requires var task := t.procs[p].task; outcome.Reuse? <==> HasRow(seen.db, task.user, task.jti, task.family)
    ensures var task := t.procs[p].task; Justified(s.db, seen.db, task.user, task.jti, task.family, outcome)
  {
    ClaimDecides(claimed, p);
    IssuedGrows(s, claimed);
    MissedPath(t, seen, p);
  }
}
