/** What the session protocol guarantees in every reachable state and along every run. */
module SessionTheorems {
  import opened Options
  import opened Sessions
  import opened SessionInvariant

  // ---------------------------------------------------------------- families

  /** A dead family stays dead, and its succession never grows again, whatever runs afterwards. */
  lemma {:induction false} DeadForever(s: State, f: Family, run: seq<Action>)
    requires Inv(s) && Dead(s, f) && ValidRun(s, run)
    ensures Dead(Exec(s, run), f)
    ensures Exec(s, run).db.families[f] == s.db.families[f]
    decreases |run|
  {
    if run != [] {
      var a := run[0];
      DeadStep(s, a, f);
      InvStep(s, a);
      if a.Commit? && s.procs[a.pid].phase.Inserted? {
        DeadStopsRotation(s, a.pid, f);
      }
      DeadForever(Apply(s, a), f, run[1..]);
    }
  }

  /** At most one token of a family is live, and it is the tip of the family's line. */
  lemma OneLivePerFamily(s: State, j: Jti, k: Jti)
    requires Reachable(s)
    requires Live(s.db, j) && Live(s.db, k) && s.db.tokens[j].family == s.db.tokens[k].family
    ensures j == k
    ensures s.db.tokens[j].family in s.db.families && Tip(s.db.families[s.db.tokens[j].family]) == Some(j)
  {
    ReachableInv(s);
    assert TokenOk(s.db, j) && TokenOk(s.db, k);
  }

  /** Committed rotations form one chain per family: each claims exactly the JTI before it, and
      every token still in the table is a member of its family's chain. */
  lemma LinearSuccession(s: State, f: Family, i: nat)
    requires Reachable(s) && f in s.db.families && i < |s.db.families[f].links|
    ensures s.db.families[f].links[i].claimed == if i == 0 then None else Some(s.db.families[f].links[i - 1].jti)
    ensures forall j :: j in s.db.tokens && s.db.tokens[j].family == f ==> InLine(s.db.families[f], j)
  {
    ReachableInv(s);
    assert LineOk(s.db, f);
    assert forall j :: j in s.db.tokens ==> TokenOk(s.db, j);
  }

  /** No JTI is claimed by two committed rotations, in one family or across families. */
  lemma ClaimedOnce(s: State, f: Family, i: nat, g: Family, k: nat)
    requires Reachable(s)
    requires f in s.db.families && i < |s.db.families[f].links| && s.db.families[f].links[i].claimed.Some?
    requires g in s.db.families && k < |s.db.families[g].links|
    requires s.db.families[f].links[i].claimed == s.db.families[g].links[k].claimed
    ensures f == g && i == k
  {
    ReachableInv(s);
    assert LineOk(s.db, f) && LineOk(s.db, g);
    assert i > 0 && k > 0;
    assert s.db.families[f].links[i - 1].jti == s.db.families[g].links[k - 1].jti;
  }

  // ---------------------------------------------------------------- rotation

  /** What the committed tokens become: the presented one consumed, the successor added, nothing else. */
  lemma RotationTokens(db: Tables, x: Proc)
    requires TablesOk(db) && ProcOk(db, x) && x.phase.Inserted?
    ensures x.task.Rotate? && Live(db, x.task.jti) && x.phase.successor !in db.tokens
    ensures Merge(db.tokens, x.writes) ==
      db.tokens[x.task.jti := Token(x.task.user, x.task.family, true)]
               [x.phase.successor := Token(x.task.user, x.task.family, false)]
  {
    assert forall j :: j in db.tokens ==> TokenOk(db, j);
    assert WriteOk(db, x, x.task.jti);
    var expected := db.tokens[x.task.jti := Token(x.task.user, x.task.family, true)]
                             [x.phase.successor := Token(x.task.user, x.task.family, false)];
    assert Merge(db.tokens, x.writes).Keys == expected.Keys;
  }

  /** A committing rotation: its claims are the users row of that very moment, the user is active,
      the presented token was live and is consumed, its successor is the only new token. */
  lemma RotationCommit(s: State, p: Pid)
    requires Reachable(s) && Enabled(s, Commit(p)) && s.procs[p].phase.Inserted?
    ensures var x := s.procs[p]; var t := Apply(s, Commit(p));
      && x.task.Rotate? && x.task.user in s.db.users && t.db.users == s.db.users
      && !s.db.users[x.task.user].deactivated
      && Live(s.db, x.task.jti) && x.phase.successor !in s.db.tokens
      && t.db.tokens == s.db.tokens[x.task.jti := Token(x.task.user, x.task.family, true)]
                                   [x.phase.successor := Token(x.task.user, x.task.family, false)]
    ensures var x := s.procs[p]; var t := Apply(s, Commit(p)); var row := s.db.users[x.task.user];
      && x.task.family in s.db.families && x.task.family in t.db.families
      && t.db.families[x.task.family].links == s.db.families[x.task.family].links
           + [Link(x.phase.successor, Some(x.task.jti), Claims(x.task.user, row.username, row.role))]
  {
    ReachableInv(s);
    assert ProcOk(s.db, s.procs[p]);
    CommitRotationLine(s.db, s.procs[p]);
    RotationTokens(s.db, s.procs[p]);
  }

  /** A rotation that reported success left its link in the family's line. */
  predicate RotationLogged(db: Tables, x: Proc) {
    x.task.Rotate? && x.phase.Ended? && x.phase.outcome.Rotated? ==>
      && x.task.family in db.families
      && HasLink(db.families[x.task.family], x.phase.outcome.successor, x.task.jti)
  }

  predicate HasLink(line: Line, j: Jti, claimed: Jti) {
    exists i :: 0 <= i < |line.links| && line.links[i].jti == j && line.links[i].claimed == Some(claimed)
  }

  predicate RotationsOk(s: State) {
    && (forall p :: p in s.procs ==> RotationLogged(s.db, s.procs[p]))
    && (forall p, q ::
         (p in s.procs && q in s.procs && p != q && Succeeded(s.procs[p]) && Succeeded(s.procs[q])) ==>
           s.procs[p].phase.outcome.successor != s.procs[q].phase.outcome.successor)
  }

  predicate Succeeded(x: Proc) {
    x.task.Rotate? && x.phase.Ended? && x.phase.outcome.Rotated?
  }

  predicate LinesGrow(db: Tables, db': Tables) {
    forall f :: f in db.families ==> f in db'.families && db.families[f].links <= db'.families[f].links
  }

  lemma LoggedStays(db: Tables, db': Tables, x: Proc)
    requires RotationLogged(db, x) && LinesGrow(db, db')
    ensures RotationLogged(db', x)
  {
    if Succeeded(x) {
      var line, line' := db.families[x.task.family], db'.families[x.task.family];
      var i :| 0 <= i < |line.links| && line.links[i].jti == x.phase.outcome.successor
            && line.links[i].claimed == Some(x.task.jti);
      assert line'.links[i] == line.links[i];
    }
  }

  lemma StepGrowsLines(s: State, a: Action)
    requires Inv(s) && Enabled(s, a)
    ensures LinesGrow(s.db, Apply(s, a).db)
  {
    if a.Commit? && s.procs[a.pid].phase.Inserted? {
      assert ProcOk(s.db, s.procs[a.pid]);
      CommitRotationLine(s.db, s.procs[a.pid]);
    }
  }

  /** Only `Commit(p)` of a pending successor makes `p` succeed. */
  lemma SuccessOrigin(s: State, a: Action, p: Pid)
    requires Inv(s) && Enabled(s, a) && p in Apply(s, a).procs && Succeeded(Apply(s, a).procs[p])
    ensures (p in s.procs && s.procs[p] == Apply(s, a).procs[p]) || (a == Commit(p) && s.procs[p].phase.Inserted?)
  {
  }

  lemma SuccessIsNew(s: State, p: Pid, q: Pid)
    requires Inv(s) && RotationsOk(s) && Enabled(s, Commit(p)) && s.procs[p].phase.Inserted?
    requires q in s.procs && Succeeded(s.procs[q])
    ensures s.procs[p].phase.successor != s.procs[q].phase.outcome.successor
  {
    var y := s.procs[q];
    assert ProcOk(s.db, s.procs[p]);
    assert RotationLogged(s.db, y);
    assert LineOk(s.db, y.task.family);
  }

  lemma RotationsStep(s: State, a: Action)
    requires Inv(s) && RotationsOk(s) && Enabled(s, a)
    ensures RotationsOk(Apply(s, a))
  {
    var t := Apply(s, a);
    StepGrowsLines(s, a);
    forall p | p in t.procs ensures RotationLogged(t.db, t.procs[p]) {
      if Succeeded(t.procs[p]) {
        SuccessOrigin(s, a, p);
        if a == Commit(p) && s.procs[p].phase.Inserted? {
          CommitLogs(s, p);
        } else {
          LoggedStays(s.db, t.db, s.procs[p]);
        }
      }
    }
    forall p, q | p in t.procs && q in t.procs && p != q && Succeeded(t.procs[p]) && Succeeded(t.procs[q])
      ensures t.procs[p].phase.outcome.successor != t.procs[q].phase.outcome.successor
    {
      SuccessOrigin(s, a, p);
      SuccessOrigin(s, a, q);
      if a == Commit(p) && s.procs[p].phase.Inserted? {
        SuccessIsNew(s, p, q);
      } else if a == Commit(q) && s.procs[q].phase.Inserted? {
        SuccessIsNew(s, q, p);
      }
    }
  }

  lemma CommitLogs(s: State, p: Pid)
    requires Inv(s) && Enabled(s, Commit(p)) && s.procs[p].phase.Inserted?
    ensures RotationLogged(Apply(s, Commit(p)).db, Apply(s, Commit(p)).procs[p])
  {
    var x := s.procs[p];
    assert ProcOk(s.db, x);
    CommitRotationLine(s.db, x);
    var links := Apply(s, Commit(p)).db.families[x.task.family].links;
    assert links[|links| - 1].jti == x.phase.successor;
  }

  lemma {:induction false} RotationsRun(s: State, run: seq<Action>)
    requires Inv(s) && RotationsOk(s) && ValidRun(s, run)
    ensures RotationsOk(Exec(s, run))
    decreases |run|
  {
    if run != [] {
      RotationsStep(s, run[0]);
      InvStep(s, run[0]);
      RotationsRun(Apply(s, run[0]), run[1..]);
    }
  }

  /** Single use: of any number of presentations of one token, at most one is ever rotated. */
  lemma SingleUse(s: State, p: Pid, q: Pid)
    requires Reachable(s) && p in s.procs && q in s.procs
    requires Succeeded(s.procs[p]) && Succeeded(s.procs[q]) && s.procs[p].task.jti == s.procs[q].task.jti
    ensures p == q
  {
    var run: seq<Action> :| ValidRun(INIT, run) && Exec(INIT, run) == s;
    InvInit();
    RotationsRun(INIT, run);
    ReachableInv(s);
    var x, y := s.procs[p], s.procs[q];
    assert RotationLogged(s.db, x) && RotationLogged(s.db, y);
    var i :| 0 <= i < |s.db.families[x.task.family].links|
          && s.db.families[x.task.family].links[i].jti == x.phase.outcome.successor
          && s.db.families[x.task.family].links[i].claimed == Some(x.task.jti);
    var k :| 0 <= k < |s.db.families[y.task.family].links|
          && s.db.families[y.task.family].links[k].jti == y.phase.outcome.successor
          && s.db.families[y.task.family].links[k].claimed == Some(y.task.jti);
    ClaimedOnce(s, x.task.family, i, y.task.family, k);
  }

  // ---------------------------------------------------------------- single tokens

  /** The token was once committed and is now revoked or deleted. */
  predicate Spent(db: Tables, j: Jti) {
    j in db.recorded && !Live(db, j)
  }

  lemma SpentCommit(db: Tables, x: Proc, j: Jti)
    requires TablesOk(db) && ProcOk(db, x) && AtCommit(x) && Spent(db, j)
    ensures Spent(CommitTables(db, x), j)
  {
    if j in x.writes { assert WriteOk(db, x, j); }
  }

  lemma SpentStep(s: State, a: Action, j: Jti)
    requires Inv(s) && Enabled(s, a) && Spent(s.db, j)
    ensures Spent(Apply(s, a).db, j)
  {
    if a.Commit? {
      assert ProcOk(s.db, s.procs[a.pid]);
      SpentCommit(s.db, s.procs[a.pid], j);
    }
  }

  /** No run makes a spent token live again. */
  lemma {:induction false} SpentForever(s: State, j: Jti, run: seq<Action>)
    requires Inv(s) && Spent(s.db, j) && ValidRun(s, run)
    ensures Spent(Exec(s, run).db, j)
    decreases |run|
  {
    if run != [] {
      SpentStep(s, run[0], j);
      InvStep(s, run[0]);
      SpentForever(Apply(s, run[0]), j, run[1..]);
    }
  }

  /** Revoking one JTI, and rotating it, each spend it for good. */
  lemma SpendingIsFinal(s: State, a: Action, j: Jti, run: seq<Action>)
    requires Reachable(s) && Enabled(s, a) && ValidRun(Apply(s, a), run)
    requires
      || (a == RevokeOne(j) && j in s.db.recorded)
      || (a.Commit? && s.procs[a.pid].phase.Inserted? && Presented(s, a.pid, j))
    ensures !Live(Exec(Apply(s, a), run).db, j)
  {
    ReachableInv(s);
    InvStep(s, a);
    if a.Commit? { RotationSpends(s, a.pid); }
    SpentForever(Apply(s, a), j, run);
  }

  predicate Presented(s: State, p: Pid, j: Jti) {
    p in s.procs && s.procs[p].task.Rotate? && s.procs[p].task.jti == j
  }

  lemma RotationSpends(s: State, p: Pid)
    requires Inv(s) && Enabled(s, Commit(p)) && s.procs[p].phase.Inserted?
    ensures s.procs[p].task.Rotate? && Spent(Apply(s, Commit(p)).db, s.procs[p].task.jti)
  {
    assert ProcOk(s.db, s.procs[p]);
    RotationTokens(s.db, s.procs[p]);
    assert TokenOk(s.db, s.procs[p].task.jti);
  }

  // ---------------------------------------------------------------- revocation

  /** A locked pass of revokeUnderUserLock, a detected reuse and an admin change are final:
      in no continuation is a token of a family they covered live, or rotated. */
  lemma KilledForever(s: State, p: Pid, f: Family, run: seq<Action>)
    requires Reachable(s) && p in s.procs && f in KilledBy(s.procs[p]) && ValidRun(s, run)
    ensures var t := Exec(s, run);
      && f in s.db.families && f in t.db.families && t.db.families[f] == s.db.families[f]
      && (forall j :: j in t.db.tokens && t.db.tokens[j].family == f ==> t.db.tokens[j].revoked)
      && (forall q :: q in t.procs && t.procs[q].phase.Inserted? ==>
            t.procs[q].task.Rotate? && t.procs[q].task.family != f)
  {
    ReachableInv(s);
    DeadForever(s, f, run);
    RunKeepsInv(s, run);
    var t := Exec(s, run);
    forall q | q in t.procs && t.procs[q].phase.Inserted?
      ensures t.procs[q].task.Rotate? && t.procs[q].task.family != f
    {
      DeadStopsRotation(t, q, f);
    }
  }

  /** What a locked pass covers: the one family asked for, or every family the user had when
      the UPDATE took its snapshot. */
  lemma LockedPassCovers(s: State, p: Pid)
    requires Reachable(s) && Enabled(s, Snapshot(p)) && s.procs[p].task.Revoke?
    ensures var t := Apply(s, Snapshot(p));
      t.procs[p].phase.covered == match s.procs[p].task.scope
        case OneFamily(f) => {f}
        case AllFamilies => FamiliesOf(s.db, s.procs[p].task.user)
    ensures s.procs[p].task.scope.OneFamily? ==> s.procs[p].task.scope.family in s.db.families
  {
    ReachableInv(s);
    assert ProcOk(s.db, s.procs[p]);
  }

  predicate FamilyLive(db: Tables, f: Family) {
    exists j :: j in db.tokens && Live(db, j) && db.tokens[j].family == f
  }

  /** Exactly which families of the user outlive the commit of a locked pass: those with a live token
      that were opened after the UPDATE's snapshot.  A login needs only FOR KEY SHARE on the users row,
      so FOR NO KEY UPDATE does not hold it back. */
  lemma LockedPassExact(s: State, p: Pid, f: Family)
    requires Reachable(s) && Enabled(s, Commit(p)) && s.procs[p].task.Revoke? && !SkipsLock(s.procs[p])
    requires f in FamiliesOf(s.db, s.procs[p].task.user)
    ensures FamilyLive(Apply(s, Commit(p)).db, f) <==>
      FamilyLive(s.db, f) && f !in s.procs[p].phase.covered
  {
    ReachableInv(s);
    if f in s.procs[p].phase.covered {
      CommitKills(s, p, f);
    } else {
      UncoveredUntouched(s.db, s.procs[p], f);
    }
  }

  /** A revocation's commit leaves the rows of every other family exactly as they were. */
  lemma UncoveredUntouched(db: Tables, x: Proc, f: Family)
    requires ProcOk(db, x) && x.phase.Executed? && !x.task.Change? && f !in x.phase.covered
    ensures forall j :: j in db.tokens && db.tokens[j].family == f ==>
      j in Merge(db.tokens, x.writes) && Merge(db.tokens, x.writes)[j] == db.tokens[j]
    ensures forall j :: j in Merge(db.tokens, x.writes) && Merge(db.tokens, x.writes)[j].family == f ==>
      j in db.tokens && db.tokens[j].family == f
    ensures FamilyLive(CommitTables(db, x), f) <==> FamilyLive(db, f)
  {
    MergeRevokes(db, x);
    assert WithinCovered(db, x.writes.Keys, x.phase.covered);
    hide ProcOk;
    var db' := CommitTables(db, x);
    if j :| j in db.tokens && Live(db, j) && db.tokens[j].family == f {
      assert Live(db', j) && db'.tokens[j].family == f;
    }
    if j :| j in db'.tokens && Live(db', j) && db'.tokens[j].family == f {
      assert Live(db, j) && db.tokens[j].family == f;
    }
  }

  /** After a role change, deactivation or deletion commits, every family the user has ever had is dead. */
  lemma ChangeKillsEveryFamily(s: State, p: Pid, f: Family)
    requires Reachable(s) && Enabled(s, Commit(p)) && s.procs[p].task.Change? && s.procs[p].phase.Executed?
    requires f in FamiliesOf(s.db, s.procs[p].task.user)
    ensures Dead(Apply(s, Commit(p)), f)
    ensures forall j :: j in Apply(s, Commit(p)).db.tokens ==> Apply(s, Commit(p)).db.tokens[j].user != s.procs[p].task.user
    ensures var users, u := Apply(s, Commit(p)).db.users, s.procs[p].task.user;
      match s.procs[p].task.edit
      case SetRole(r) => u in users && users[u].role == r
      case Deactivate => u in users && users[u].deactivated
      case Remove => u !in users
  {
    ReachableInv(s);
    assert ProcOk(s.db, s.procs[p]);
    CommitKills(s, p, f);
    CommitChangeEmpties(s.db, s.procs[p]);
  }

  /** After that commit no run whatever, a reactivation and new logins included, makes a token of such a
      family live or rotates one: the family's line is final. */
  lemma ChangeEndsSessions(s: State, p: Pid, f: Family, run: seq<Action>)
    requires Reachable(s) && Enabled(s, Commit(p)) && s.procs[p].task.Change? && s.procs[p].phase.Executed?
    requires f in FamiliesOf(s.db, s.procs[p].task.user) && ValidRun(Apply(s, Commit(p)), run)
    ensures var t := Exec(Apply(s, Commit(p)), run);
      && Dead(t, f) && t.db.families[f] == Apply(s, Commit(p)).db.families[f]
      && forall q :: q in t.procs && (t.procs[q].phase.Claimed? || t.procs[q].phase.Inserted?) ==>
           t.procs[q].task.Rotate? && t.procs[q].task.family != f
  {
    ReachableInv(s);
    InvStep(s, Commit(p));
    ChangeKillsEveryFamily(s, p, f);
    var t := Apply(s, Commit(p));
    DeadForever(t, f, run);
    RunKeepsInv(t, run);
    var u := Exec(t, run);
    hide Inv; hide Dead; hide Apply; hide Exec;
    forall q | q in u.procs && (u.procs[q].phase.Claimed? || u.procs[q].phase.Inserted?)
      ensures u.procs[q].task.Rotate? && u.procs[q].task.family != f
    {
      NoRotationOf(u, q, f);
    }
  }

  lemma NoRotationOf(s: State, q: Pid, f: Family)
    requires Inv(s) && Dead(s, f) && q in s.procs && (s.procs[q].phase.Claimed? || s.procs[q].phase.Inserted?)
    ensures s.procs[q].task.Rotate? && s.procs[q].task.family != f
  {
    DeadStopsRotation(s, q, f);
  }

  // ---------------------------------------------------------------- and nothing else is touched

  /** The row of `j`, or its absence, is the same in both tables. */
  predicate SameRow(db: Tables, db': Tables, j: Jti) {
    (j in db.tokens <==> j in db'.tokens) && (j in db.tokens ==> db'.tokens[j] == db.tokens[j])
  }

  /** An admin change leaves every other user's row and tokens as they were. */
  lemma ChangeTouchesOnlyItsUser(s: State, p: Pid, u: UserId, j: Jti)
    requires Reachable(s) && Enabled(s, Commit(p)) && s.procs[p].task.Change? && u != s.procs[p].task.user
    ensures var db := Apply(s, Commit(p)).db;
      && (u in db.users <==> u in s.db.users) && (u in s.db.users ==> db.users[u] == s.db.users[u])
      && (j in s.db.tokens && s.db.tokens[j].user != s.procs[p].task.user ==> SameRow(s.db, db, j))
      && (j in db.tokens ==> j in s.db.tokens)
  {
    ReachableInv(s);
    assert ProcOk(s.db, s.procs[p]);
    ChangeMerge(s.db, s.procs[p], j);
    hide Inv; hide ProcOk; hide Merge;
  }

  lemma ChangeMerge(db: Tables, x: Proc, j: Jti)
    requires TablesOk(db) && ProcOk(db, x) && AtCommit(x) && x.task.Change?
    ensures j in db.tokens && db.tokens[j].user != x.task.user ==> SameRow(db, db.(tokens := Merge(db.tokens, x.writes)), j)
    ensures j in Merge(db.tokens, x.writes) ==> j in db.tokens
  {
    if j in x.writes {
      assert WriteOk(db, x, j);
      if j in db.tokens { assert TokenOk(db, j); }
    }
  }

  /** Logging out one JTI, cleaning up and logging in touch the rows they name and no other; a login's row is live. */
  lemma OtherRowsStay(s: State, a: Action, j: Jti)
    requires Enabled(s, a) && (a.RevokeOne? || a.Cleanup? || a.Login?)
    ensures a.RevokeOne? && j != a.jti ==> SameRow(s.db, Apply(s, a).db, j)
    ensures a.Cleanup? && j !in a.jtis ==> SameRow(s.db, Apply(s, a).db, j)
    ensures a.Cleanup? && j in a.jtis ==> j !in Apply(s, a).db.tokens
    ensures a.Login? && j != a.jti ==> SameRow(s.db, Apply(s, a).db, j)
    ensures a.Login? ==> Live(Apply(s, a).db, a.jti) && Apply(s, a).db.tokens[a.jti].user == a.user
  {
  }

  /** A deactivated user's rotation touches the presented row, if it is the user's own, and no other. */
  lemma RetireTouchesOnly(s: State, p: Pid, j: Jti)
    requires Reachable(s) && Enabled(s, Commit(p)) && s.procs[p].phase.Presented?
    requires j != s.procs[p].task.jti || (j in s.db.tokens && s.db.tokens[j].user != s.procs[p].task.user)
    ensures SameRow(s.db, Apply(s, Commit(p)).db, j)
  {
    ReachableInv(s);
    assert ProcOk(s.db, s.procs[p]);
    assert j !in s.procs[p].writes;
    hide Inv; hide ProcOk;
  }

  // ---------------------------------------------------------------- busy means nothing happened

  /** The operation has committed something and can no longer end busy. */
  predicate PastBusy(x: Proc) {
    || (x.phase.Ended? && !x.phase.outcome.Busy?)
    || (x.task.Revoke? && x.task.attempt == Second(true) && !x.phase.Ended?)
  }

  lemma PastBusyStep(s: State, a: Action, p: Pid)
    requires Enabled(s, a) && p in s.procs && (PastBusy(s.procs[p]) || a == Commit(p))
    ensures p in Apply(s, a).procs && PastBusy(Apply(s, a).procs[p])
  {
  }

  lemma {:induction false} PastBusyRun(s: State, run: seq<Action>, p: Pid)
    requires ValidRun(s, run) && p in s.procs && PastBusy(s.procs[p])
    ensures p in Exec(s, run).procs && PastBusy(Exec(s, run).procs[p])
    decreases |run|
  {
    if run != [] {
      PastBusyStep(s, run[0], p);
      PastBusyRun(Apply(s, run[0]), run[1..], p);
    }
  }

  /** A rotation or revocation that answers "busy" committed nothing: none of its attempts did. */
  lemma {:induction false} BusyCommitsNothing(s: State, run: seq<Action>, p: Pid, i: nat)
    requires ValidRun(s, run) && p in Exec(s, run).procs && Exec(s, run).procs[p].phase == Ended(Busy)
    requires i < |run|
    ensures run[i] != Commit(p)
    decreases |run|
  {
    var t := Apply(s, run[0]);
    if i == 0 {
      if run[0] == Commit(p) {
        PastBusyStep(s, run[0], p);
        PastBusyRun(t, run[1..], p);
      }
    } else {
      BusyCommitsNothing(t, run[1..], p, i - 1);
    }
  }

  // ---------------------------------------------------------------- the two windows, as concrete runs

  lemma {:induction false} RunAppend(s: State, run: seq<Action>, a: Action)
    requires ValidRun(s, run) && Enabled(Exec(s, run), a)
    ensures ValidRun(s, run + [a]) && Exec(s, run + [a]) == Apply(Exec(s, run), a)
    decreases |run|
  {
    if run == [] {
      assert ([] + [a])[1..] == [];
    } else {
      RunAppend(Apply(s, run[0]), run[1..], a);
      assert (run + [a])[1..] == run[1..] + [a];
    }
  }

  lemma Reached(s: State, a: Action) returns (t: State)
    requires Reachable(s) && Enabled(s, a)
    ensures t == Apply(s, a) && Reachable(t)
  {
    var run: seq<Action> :| ValidRun(INIT, run) && Exec(INIT, run) == s;
    RunAppend(INIT, run, a);
    t := Apply(s, a);
  }

  lemma InitReachable()
    ensures Reachable(INIT)
  {
    assert ValidRun(INIT, []) && Exec(INIT, []) == INIT;
  }

  const ALICE := UserRow("alice", Member, false)
  const CLAIMS := Claims(1, "alice", Member)
  const LOGGED_IN := Tables(
    map[1 := ALICE], map[10 := Token(1, 100, false)], map[100 := Line(1, [Link(10, None, CLAIMS)])], {1}, {10}, {10})

  /** One user with one session, and nothing running. */
  lemma LoggedIn()
    ensures Reachable(State(LOGGED_IN, map[]))
  {
    InitReachable();
    var s := Reached(INIT, CreateUser(1, ALICE));
    s := Reached(s, Login(1, 10, 100, CLAIMS));
    assert s == State(LOGGED_IN, map[]);
  }

  const PENDING := Proc(Rotate(1, 10, 100), Inserted(ALICE, 11), NoKeyUpdate,
                        map[10 := Put(Token(1, 100, true)), 11 := Put(Token(1, 100, false))])

  const HELD := Proc(Rotate(1, 10, 100), Holding(Some(ALICE)), NoKeyUpdate, map[])

  /** A rotation holds the users-row lock and has read the row. */
  lemma RotationHolds()
    ensures Reachable(State(LOGGED_IN, map[1 := HELD]))
  {
    LoggedIn();
    var s := Reached(State(LOGGED_IN, map[]), Begin(1, Rotate(1, 10, 100)));
    s := Reached(s, Grant(1));
    assert s == State(LOGGED_IN, map[1 := HELD]);
  }

  /** A rotation has claimed the session's token and inserted, but not committed, its successor. */
  lemma RotationPending()
    ensures Reachable(State(LOGGED_IN.(issued := {10, 11}), map[1 := PENDING]))
  {
    RotationHolds();
    var s := Reached(State(LOGGED_IN, map[1 := HELD]), Claim(1));
    s := Reached(s, Insert(1, 11));
    assert s == State(LOGGED_IN.(issued := {10, 11}), map[1 := PENDING]);
  }

  /** The revocation's first lock wait timed out and its unlocked UPDATE has taken its snapshot. */
  lemma UnlockedSnapshotTaken() returns (s: State)
    ensures Reachable(s) && s.procs.Keys == {1, 2} && s.procs[1] == PENDING && s.db == LOGGED_IN.(issued := {10, 11})
    ensures s.procs[2] == Proc(Revoke(1, OneFamily(100), Unlocked), Snapped({10}, {100}), NoLock, map[])
  {
    RotationPending();
    s := State(LOGGED_IN.(issued := {10, 11}), map[1 := PENDING]);
    assert 10 in RowsOfFamily(s.db, 1, 100);
    assert RowsOfFamily(s.db, 1, 100) == {10};
    s := Reached(s, Begin(2, Revoke(1, OneFamily(100), First)));
    s := Reached(s, Deadline(2));
    s := Reached(s, Snapshot(2));
  }

  const MISSED := Proc(Revoke(1, OneFamily(100), Unlocked), Snapped({10}, {100}), NoLock, map[])

  /** The rotation commits between that snapshot and the UPDATE of the row it was waiting for. */
  lemma RotationCommitted() returns (s: State)
    ensures Reachable(s) && s.procs.Keys == {1, 2} && s.procs[1].writes == map[] && s.procs[2] == MISSED
    ensures s.db.tokens == map[10 := Token(1, 100, true), 11 := Token(1, 100, false)]
  {
    s := UnlockedSnapshotTaken();
    s := Reached(s, Commit(1));
    assert s.db.tokens == map[10 := Token(1, 100, true), 11 := Token(1, 100, false)];
  }

  lemma UnlockedExecuted() returns (s: State)
    ensures Reachable(s) && s.procs.Keys == {1, 2}
    ensures s.db.tokens == map[10 := Token(1, 100, true), 11 := Token(1, 100, false)]
    ensures s.procs[2] == Proc(Revoke(1, OneFamily(100), Unlocked), Executed({100}), NoLock,
                               map[10 := Put(Token(1, 100, true))])
  {
    s := RotationCommitted();
    hide CommitTables; hide AfterCommit;
    s := Reached(s, Execute(2));
  }

  /** The documented residue: the first locked attempt times out while a rotation has inserted but not
      committed its successor, the unlocked UPDATE misses that successor, the second locked attempt
      times out too, and the successor stays live. */
  lemma UnlockedPassMissesSuccessor() returns (s: State, revoker: Pid, successor: Jti)
    ensures Reachable(s) && revoker in s.procs
    ensures s.procs[revoker].task.Revoke? && s.procs[revoker].phase == Ended(UnlockedOnly)
    ensures s.procs[revoker].task.scope.OneFamily?
    ensures Live(s.db, successor) && s.db.tokens[successor].family == s.procs[revoker].task.scope.family
  {
    s := UnlockedExecuted();
    s := Reached(s, Commit(2));
    s := Reached(s, Deadline(2));
    revoker, successor := 2, 11;
  }

  /** A logout has taken the users-row lock and the snapshot of its UPDATE. */
  lemma LogoutSnapshotTaken() returns (s: State)
    ensures Reachable(s) && s.procs.Keys == {2} && s.db == LOGGED_IN
    ensures s.procs[2] == Proc(Revoke(1, AllFamilies, First), Snapped({10}, {100}), NoKeyUpdate, map[])
  {
    LoggedIn();
    s := Reached(State(LOGGED_IN, map[]), Begin(2, Revoke(1, AllFamilies, First)));
    s := Reached(s, Grant(2));
    assert RowsOf(s.db, 1) == {10} && FamiliesOf(s.db, 1) == {100};
    s := Reached(s, Snapshot(2));
  }

  /** A logout under the lock does not cover a session opened between its UPDATE's snapshot and its COMMIT. */
  lemma LoginDuringLogoutSurvives() returns (s: State, logout: Pid, j: Jti)
    ensures Reachable(s) && logout in s.procs
    ensures s.procs[logout].task.Revoke? && s.procs[logout].task.scope == AllFamilies
    ensures s.procs[logout].phase.Ended? && s.procs[logout].phase.outcome.LockedPass?
    ensures Live(s.db, j) && s.db.tokens[j].user == s.procs[logout].task.user
  {
    s := LogoutSnapshotTaken();
    s := Reached(s, Login(1, 20, 200, CLAIMS));
    s := Reached(s, Execute(2));
    assert s.procs[2].writes.Keys <= {10};
    s := Reached(s, Commit(2));
    logout, j := 2, 20;
  }
}
