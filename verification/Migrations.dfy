/**
 runMigrations (backend/src/core/db/postgres.ts) on any number of replicas booting at once, each free to
 crash or to fail at any statement.  Replica `p` ships the first `count` files of one common sorted list
 (all of them, or fewer when an older release boots beside a newer one).
 */
module Migrations {
  import opened Options

  type Pid = nat

  /** How far the transaction of one file has come. */
  datatype Position = Begun | Ran | Recorded

  datatype Phase =
    | Waiting                                        // pg_advisory_lock issued
    | Locked                                         // lock granted, _migrations exists
    | Looping(applied: set<string>, i: nat)          // at file i
    | InTx(applied: set<string>, i: nat, at: Position, newEffects: seq<string>, newRows: seq<string>)
    | Unlocking(ok: bool)                            // in the inner finally
    | Returned
    | Failed
    | Crashed

  datatype Replica = Replica(count: nat, phase: Phase)

  /** `rows` is the committed _migrations table in id order, `effects` the committed file effects in order; what an
      open transaction has done so far is in its own buffers until COMMIT, and lost with it. */
  datatype State = State(
    files: seq<string>, rows: seq<string>, effects: seq<string>, lock: Option<Pid>, replicas: map<Pid, Replica>)

  datatype Action =
    | Boot(pid: Pid, count: nat)
    | Lock(pid: Pid)
    | ReadApplied(pid: Pid)
    | Skip(pid: Pid)
    | Begin(pid: Pid)
    | RunSql(pid: Pid)
    | Record(pid: Pid)
    | Commit(pid: Pid)
    | Finish(pid: Pid)
    | Unlock(pid: Pid)
    | Fail(pid: Pid)
    | Crash(pid: Pid)

  function SetOf(rows: seq<string>): set<string> {
    set f | f in rows
  }

  predicate Running(s: State, p: Pid) {
    p in s.replicas && !s.replicas[p].phase.Returned? && !s.replicas[p].phase.Failed? && !s.replicas[p].phase.Crashed?
  }

  /** readdir().sort() of replica `x`. */
  function Shipped(s: State, x: Replica): seq<string> {
    if x.count <= |s.files| then s.files[..x.count] else s.files
  }

  predicate Enabled(s: State, a: Action) {
    match a
    case Boot(p, count) => p !in s.replicas && count <= |s.files|
    case Lock(p) => Running(s, p) && s.replicas[p].phase.Waiting? && s.lock.None?
    case ReadApplied(p) => Running(s, p) && s.replicas[p].phase.Locked?
    case Skip(p) =>
      && Running(s, p) && s.replicas[p].phase.Looping? && s.replicas[p].phase.i < |Shipped(s, s.replicas[p])|
      && Shipped(s, s.replicas[p])[s.replicas[p].phase.i] in s.replicas[p].phase.applied
    case Begin(p) =>
      && Running(s, p) && s.replicas[p].phase.Looping? && s.replicas[p].phase.i < |Shipped(s, s.replicas[p])|
      && Shipped(s, s.replicas[p])[s.replicas[p].phase.i] !in s.replicas[p].phase.applied
    case RunSql(p) =>
      && Running(s, p) && s.replicas[p].phase.InTx? && s.replicas[p].phase.at.Begun?
      && s.replicas[p].phase.i < |Shipped(s, s.replicas[p])|
    case Record(p) => // the UNIQUE constraint on name refuses a second row
      && Running(s, p) && s.replicas[p].phase.InTx? && s.replicas[p].phase.at.Ran?
      && s.replicas[p].phase.i < |Shipped(s, s.replicas[p])|
      && Shipped(s, s.replicas[p])[s.replicas[p].phase.i] !in s.rows + s.replicas[p].phase.newRows
    case Commit(p) => Running(s, p) && s.replicas[p].phase.InTx? && s.replicas[p].phase.at.Recorded?
    case Finish(p) =>
      Running(s, p) && s.replicas[p].phase.Looping? && s.replicas[p].phase.i >= |Shipped(s, s.replicas[p])|
    case Unlock(p) => Running(s, p) && s.replicas[p].phase.Unlocking?
    case Fail(p) => Running(s, p)
    case Crash(p) => Running(s, p)
  }

  function Move(s: State, p: Pid, phase: Phase): State requires p in s.replicas {
    s.(replicas := s.replicas[p := s.replicas[p].(phase := phase)])
  }

  function Release(s: State, p: Pid): State {
    if s.lock == Some(p) then s.(lock := None) else s
  }

  /** A failing statement: an open transaction rolls back, a held lock is still to be released. */
  function AfterFail(s: State, p: Pid): State requires p in s.replicas {
    match s.replicas[p].phase
    case Waiting => Move(s, p, Failed)
    // a failed unlock is swallowed: the session is dead and its lock gone with it
    case Unlocking(ok) => Release(Move(s, p, if ok then Returned else Failed), p)
    case _ => Move(s, p, Unlocking(false))
  }

  function Apply(s: State, a: Action): State requires Enabled(s, a) {
    match a
    case Boot(p, count) => s.(replicas := s.replicas[p := Replica(count, Waiting)])
    case Lock(p) => Move(s, p, Locked).(lock := Some(p))
    case ReadApplied(p) => Move(s, p, Looping(SetOf(s.rows), 0))
    case Skip(p) => Move(s, p, Looping(s.replicas[p].phase.applied, s.replicas[p].phase.i + 1))
    case Begin(p) => Move(s, p, InTx(s.replicas[p].phase.applied, s.replicas[p].phase.i, Begun, [], []))
    case RunSql(p) =>
      var x := s.replicas[p].phase;
      Move(s, p, x.(at := Ran, newEffects := x.newEffects + [Shipped(s, s.replicas[p])[x.i]]))
    case Record(p) =>
      var x := s.replicas[p].phase;
      Move(s, p, x.(at := Recorded, newRows := x.newRows + [Shipped(s, s.replicas[p])[x.i]]))
    case Commit(p) =>
      var x := s.replicas[p].phase;
      Move(s, p, Looping(x.applied, x.i + 1)).(rows := s.rows + x.newRows, effects := s.effects + x.newEffects)
    case Finish(p) => Move(s, p, Unlocking(true))
    case Unlock(p) => Release(Move(s, p, if s.replicas[p].phase.ok then Returned else Failed), p)
    case Fail(p) => AfterFail(s, p)
    case Crash(p) => Release(Move(s, p, Crashed), p)
  }

  // ---------------------------------------------------------------- the invariant

  predicate Distinct(files: seq<string>) {
    forall i, k :: 0 <= i < |files| && 0 <= k < |files| && files[i] == files[k] ==> i == k
  }

  predicate HoldsLock(phase: Phase) {
    phase.Locked? || phase.Looping? || phase.InTx? || phase.Unlocking?
  }

  /** `applied` is what some prefix of the files of length `known` names. */
  predicate Knows(files: seq<string>, applied: set<string>, known: int) {
    0 <= known <= |files| && applied == SetOf(files[..known])
  }

  /** Where a replica stands says exactly how many rows there are, because nobody else may add one. */
  ghost predicate PhaseOk(s: State, x: Replica) {
    match x.phase
    case Looping(applied, i) =>
      i <= x.count && exists known :: Knows(s.files, applied, known) && |s.rows| == Max(known, i)
    case InTx(applied, i, at, newEffects, newRows) =>
      && i < x.count <= |s.files| && |s.rows| == i && (exists known :: Knows(s.files, applied, known) && known <= i)
      && newEffects == (if at.Begun? then [] else [s.files[i]])
      && newRows == (if at.Recorded? then [s.files[i]] else [])
    case Unlocking(ok) => ok ==> x.count <= |s.rows|
    case Returned => x.count <= |s.rows|
    case _ => true
  }

  function Max(a: int, b: int): int { if a < b then b else a }

  predicate TablesOk(s: State) {
    |s.rows| <= |s.files| && s.rows == s.files[..|s.rows|] && s.effects == s.rows
  }

  predicate LockOk(s: State) {
    forall p :: p in s.replicas && HoldsLock(s.replicas[p].phase) ==> s.lock == Some(p)
  }

  ghost predicate Inv(s: State) {
    && Distinct(s.files) && TablesOk(s) && LockOk(s)
    && (forall p :: p in s.replicas ==> s.replicas[p].count <= |s.files| && PhaseOk(s, s.replicas[p]))
  }

  // ---------------------------------------------------------------- preservation

  /** In a duplicate-free list the first `known` names contain files[i] exactly when i < known. */
  lemma KnownIsPrefix(files: seq<string>, applied: set<string>, known: int, i: nat)
    requires Distinct(files) && Knows(files, applied, known) && i < |files|
    ensures files[i] in applied <==> i < known
  {
    if i < known { assert files[..known][i] == files[i]; }
    if files[i] in applied {
      var k :| 0 <= k < |files[..known]| && files[..known][k] == files[i];
      assert files[k] == files[i];
    }
  }

  lemma OthersKept(s: State, t: State, x: Replica)
    requires PhaseOk(s, x) && t.files == s.files && (t.rows == s.rows || (|t.rows| > |s.rows| && !HoldsLock(x.phase)))
    ensures PhaseOk(t, x)
  {
  }

  /** The replica's own next position. */
  lemma OwnPhase(s: State, a: Action)
    requires Inv(s) && Enabled(s, a)
    ensures PhaseOk(Apply(s, a), Apply(s, a).replicas[a.pid])
  {
    var p := a.pid;
    if !a.Boot? {
      var x := s.replicas[p];
      assert PhaseOk(s, x);
      match a {
        case ReadApplied(_) =>
          assert Knows(s.files, SetOf(s.rows), |s.rows|);
          assert |s.rows| == Max(|s.rows|, 0);
        case Skip(_) =>
          var known :| Knows(s.files, x.phase.applied, known) && |s.rows| == Max(known, x.phase.i);
          KnownIsPrefix(s.files, x.phase.applied, known, x.phase.i);
          assert |s.rows| == Max(known, x.phase.i + 1);
        case Begin(_) =>
          var known :| Knows(s.files, x.phase.applied, known) && |s.rows| == Max(known, x.phase.i);
          KnownIsPrefix(s.files, x.phase.applied, known, x.phase.i);
        case Commit(_) =>
          var known :| Knows(s.files, x.phase.applied, known) && known <= x.phase.i;
          assert |Apply(s, a).rows| == Max(known, x.phase.i + 1);
        case Finish(_) =>
          var known :| Knows(s.files, x.phase.applied, known) && |s.rows| == Max(known, x.phase.i);
        case _ =>
      }
    }
  }

  /** A commit appends the next file of the common list. */
  lemma CommitAppends(s: State, p: Pid)
    requires Inv(s) && Enabled(s, Commit(p))
    ensures |s.rows| < |s.files| && Apply(s, Commit(p)).rows == s.files[..|s.rows| + 1]
    ensures Apply(s, Commit(p)).effects == Apply(s, Commit(p)).rows
  {
    assert PhaseOk(s, s.replicas[p]);
  }

  lemma OtherPhase(s: State, a: Action, p: Pid)
    requires Inv(s) && Enabled(s, a) && p in s.replicas && p != a.pid
    ensures PhaseOk(Apply(s, a), s.replicas[p])
  {
    assert PhaseOk(s, s.replicas[p]);
    assert a.Commit? ==> s.lock == Some(a.pid);
    OthersKept(s, Apply(s, a), s.replicas[p]);
  }

  /** Only a lock grant gives anybody the lock, and only its holder gives it up. */
  lemma LockStep(s: State, a: Action)
    requires Enabled(s, a) && LockOk(s)
    ensures LockOk(Apply(s, a))
  {
  }

  /** Only a commit changes the tables. */
  lemma TablesStep(s: State, a: Action)
    requires Inv(s) && Enabled(s, a)
    ensures TablesOk(Apply(s, a)) && Apply(s, a).files == s.files
  {
    if a.Commit? {
      CommitAppends(s, a.pid);
    } else {
      hide PhaseOk; hide LockOk;
      assert Apply(s, a).rows == s.rows && Apply(s, a).effects == s.effects;
    }
  }

  lemma CountStep(s: State, a: Action, p: Pid)
    requires Inv(s) && Enabled(s, a) && p in Apply(s, a).replicas
    ensures Apply(s, a).replicas[p].count <= |s.files|
    ensures p != a.pid ==> p in s.replicas && Apply(s, a).replicas[p] == s.replicas[p]
  {
    hide PhaseOk; hide LockOk; hide TablesOk;
  }

  lemma InvStep(s: State, a: Action)
    requires Inv(s) && Enabled(s, a)
    ensures Inv(Apply(s, a))
  {
    var t := Apply(s, a);
    OwnPhase(s, a);
    LockStep(s, a);
    TablesStep(s, a);
    forall p | p in t.replicas ensures t.replicas[p].count <= |t.files| && PhaseOk(t, t.replicas[p]) {
      CountStep(s, a, p);
      if p != a.pid { OtherPhase(s, a, p); }
    }
    hide PhaseOk; hide LockOk; hide TablesOk; hide Apply;
  }

  // ---------------------------------------------------------------- what every run guarantees

  predicate ValidRun(s: State, run: seq<Action>) decreases |run| {
    run == [] || (Enabled(s, run[0]) && ValidRun(Apply(s, run[0]), run[1..]))
  }

  function Exec(s: State, run: seq<Action>): State
    requires ValidRun(s, run)
    decreases |run|
  {
    if run == [] then s else Exec(Apply(s, run[0]), run[1..])
  }

  /** Before anything boots: some prefix of the files has been applied by earlier deployments. */
  predicate Fresh(s: State) {
    && Distinct(s.files)
    && |s.rows| <= |s.files| && s.rows == s.files[..|s.rows|] && s.effects == s.rows
    && s.replicas == map[] && s.lock.None?
  }

  lemma {:induction false} RunKeepsInv(s: State, run: seq<Action>)
    requires Inv(s) && ValidRun(s, run)
    ensures Inv(Exec(s, run)) && Exec(s, run).files == s.files && s.rows <= Exec(s, run).rows
    decreases |run|
  {
    if run != [] {
      InvStep(s, run[0]);
      RunKeepsInv(Apply(s, run[0]), run[1..]);
    }
  }

  /** However many replicas boot, crash and fail: the rows are a duplicate-free prefix of the sorted files,
      every file's effect is committed exactly as often as its row, and nothing applied is ever lost. */
  lemma RowsArePrefix(s: State, run: seq<Action>)
    requires Fresh(s) && ValidRun(s, run)
    ensures var t := Exec(s, run);
      && |t.rows| <= |s.files| && t.rows == s.files[..|t.rows|] && Distinct(t.rows)
      && multiset(t.effects) == multiset(t.rows) && s.rows <= t.rows
  {
    RunKeepsInv(s, run);
    var t := Exec(s, run);
    assert forall i :: 0 <= i < |t.rows| ==> t.rows[i] == s.files[i];
  }

  /** A replica that returns normally has seen every file it ships applied, and they stay applied. */
  lemma ReturnedSeesAll(s: State, run: seq<Action>, p: Pid, later: seq<Action>)
    requires Fresh(s) && ValidRun(s, run) && ValidRun(Exec(s, run), later)
    requires p in Exec(s, run).replicas && Exec(s, run).replicas[p].phase.Returned?
    ensures var t := Exec(Exec(s, run), later);
      Exec(s, run).replicas[p].count <= |s.files| && s.files[..Exec(s, run).replicas[p].count] <= t.rows
  {
    RunKeepsInv(s, run);
    RunKeepsInv(Exec(s, run), later);
    ReturnedHasAll(Exec(s, run), p);
  }

  /** The recorded rows never make the UNIQUE constraint fire: a replica inside a transaction can always record. */
  lemma NeverRecordsTwice(s: State, p: Pid)
    requires Inv(s) && Running(s, p) && s.replicas[p].phase.InTx? && s.replicas[p].phase.at.Ran?
    ensures Enabled(s, Record(p))
  {
    var x := s.replicas[p];
    assert PhaseOk(s, x);
    assert forall k :: 0 <= k < |s.rows| ==> s.rows[k] == s.files[k];
  }

  // ---------------------------------------------------------------- the runner itself

  class Database {
    var s: State

    constructor (files: seq<string>)
      requires Distinct(files)
      ensures s == State(files, [], [], None, map[]) && Inv(s)
    {
      s := State(files, [], [], None, map[]);
    }

    method Perform(a: Action)
      requires Inv(s) && Enabled(s, a)
      modifies this
      ensures s == Apply(old(s), a) && Inv(s) && s.files == old(s).files && old(s).rows <= s.rows
    {
      InvStep(s, a);
      s := Apply(s, a);
    }

    /** Any number of statements, failures and crashes of the other replicas; none of them can add a row
        while `p` holds the lock. */
    method Interfere(p: Pid)
      requires Inv(s) && p in s.replicas
      modifies this
      ensures Inv(s) && s.files == old(s).files && old(s).rows <= s.rows
      ensures p in s.replicas && s.replicas[p] == old(s).replicas[p]
      ensures HoldsLock(s.replicas[p].phase) ==> s.rows == old(s).rows
    {
      var n: int :| 0 <= n;
      for i := 0 to n
        invariant Inv(s) && s.files == old(s).files && old(s).rows <= s.rows
        invariant p in s.replicas && s.replicas[p] == old(s).replicas[p]
        invariant HoldsLock(s.replicas[p].phase) ==> s.rows == old(s).rows
      {
        var a: Action := *;
        if Enabled(s, a) && a.pid != p {
          LockKeepsRows(s, p, a);
          Perform(a);
        }
      }
    }

    /** One awaited statement of the lock holder `p`: done, or failed. */
    method Step(p: Pid, a: Action) returns (ok: bool)
      requires Inv(s) && Running(s, p) && HoldsLock(s.replicas[p].phase) && Enabled(s, a) && a.pid == p && !a.Boot?
      modifies this
      ensures Inv(s) && s.files == old(s).files && p in s.replicas && s.replicas[p].count == old(s).replicas[p].count
      ensures ok ==> s.replicas[p] == Apply(old(s), a).replicas[p] && s.rows == Apply(old(s), a).rows
      ensures !ok ==> s.replicas[p] == AfterFail(old(s), p).replicas[p] && s.rows == old(s).rows
    {
      Interfere(p);
      LockedView(old(s), s, p, a);
      ok := *;
      if ok { Perform(a); } else { Perform(Fail(p)); }
    }

    /** Waiting for pg_advisory_lock. */
    method Acquire(p: Pid) returns (ok: bool)
      requires Inv(s) && p in s.replicas && s.replicas[p].phase.Waiting?
      modifies this
      ensures Inv(s) && s.files == old(s).files && p in s.replicas && s.replicas[p].count == old(s).replicas[p].count
      ensures s.replicas[p].phase == if ok then Locked else Failed
    {
      Interfere(p);
      if s.lock.Some? {
        ok := false;
      } else {
        ok := *;
      }
      if ok { Perform(Lock(p)); } else { Perform(Fail(p)); }
    }

    /** One file of the loop: skipped if applied, else run and recorded in one transaction. */
    method MigrateFile(p: Pid) returns (ok: bool)
      requires Inv(s) && p in s.replicas && s.replicas[p].phase.Looping? && s.replicas[p].phase.i < s.replicas[p].count
      modifies this
      ensures Inv(s) && s.files == old(s).files && p in s.replicas && s.replicas[p].count == old(s).replicas[p].count
      ensures ok ==> s.replicas[p].phase.Looping? && s.replicas[p].phase.i == old(s).replicas[p].phase.i + 1
      ensures !ok ==> s.replicas[p].phase == Unlocking(false)
    {
      var file := Shipped(s, s.replicas[p])[s.replicas[p].phase.i];
      if file in s.replicas[p].phase.applied {
        ok := Step(p, Skip(p));
        return;
      }
      ok := RunFile(p);
    }

    /** BEGIN, the file's SQL, its row, COMMIT; whatever fails takes the rest of the transaction with it. */
    method RunFile(p: Pid) returns (ok: bool)
      requires Inv(s) && p in s.replicas && Enabled(s, Begin(p))
      modifies this
      ensures Inv(s) && s.files == old(s).files && p in s.replicas && s.replicas[p].count == old(s).replicas[p].count
      ensures ok ==> s.replicas[p].phase.Looping? && s.replicas[p].phase.i == old(s).replicas[p].phase.i + 1
      ensures ok ==> s.rows == old(s).rows + [s.files[old(s).replicas[p].phase.i]]
      ensures !ok ==> s.replicas[p].phase == Unlocking(false) && s.rows == old(s).rows
    {
      hide Knows; hide Distinct;
      ok := Step(p, Begin(p));
      if !ok { return; }
      ok := Step(p, RunSql(p));
      if !ok { return; }
      NeverRecordsTwice(s, p);
      ok := Step(p, Record(p));
      if !ok { return; }
      ok := Step(p, Commit(p));
    }

    /** The loop over the shipped files. */
    method MigrateAll(p: Pid) returns (ok: bool)
      requires Inv(s) && p in s.replicas && s.replicas[p].phase.Looping? && s.replicas[p].phase.i == 0
      modifies this
      ensures Inv(s) && s.files == old(s).files && p in s.replicas && s.replicas[p].count == old(s).replicas[p].count
      ensures s.replicas[p].phase == Unlocking(ok)
    {
      hide Inv;
      ghost var count := s.replicas[p].count;
      ok := true;
      while ok && s.replicas[p].phase.i < s.replicas[p].count
        invariant Inv(s) && s.files == old(s).files && p in s.replicas && s.replicas[p].count == count
        invariant ok ==> s.replicas[p].phase.Looping? && s.replicas[p].phase.i <= count
        invariant !ok ==> s.replicas[p].phase == Unlocking(false)
        decreases ok, if ok then count - s.replicas[p].phase.i else 0
      {
        ok := MigrateFile(p);
      }
      if ok {
        AtEnd(s, p);
        ok := Step(p, Finish(p));
      }
    }

    /** runMigrations: normal return means every shipped file is applied. */
    method RunMigrations(p: Pid, count: nat) returns (ok: bool)
      requires Inv(s) && p !in s.replicas && count <= |s.files|
      modifies this
      ensures Inv(s) && s.files == old(s).files && p in s.replicas
      ensures s.replicas[p] == Replica(count, if ok then Returned else Failed)
      ensures ok ==> s.files[..count] <= s.rows
    {
      Perform(Boot(p, count));
      ok := Acquire(p);
      if ok {
        ok := Step(p, ReadApplied(p));
        if ok { ok := MigrateAll(p); }
        Release(p);
      }
      if ok { ReturnedHasAll(s, p); }
    }

    /** The inner finally: unlock, and carry on either way. */
    method Release(p: Pid)
      requires Inv(s) && p in s.replicas && s.replicas[p].phase.Unlocking?
      modifies this
      ensures Inv(s) && s.files == old(s).files && p in s.replicas
      ensures s.replicas[p] == old(s).replicas[p].(phase := if old(s).replicas[p].phase.ok then Returned else Failed)
    {
      Interfere(p);
      if * {
        Perform(Unlock(p));
      } else {
        Perform(Fail(p));
      }
    }
  }

  lemma AtEnd(s: State, p: Pid)
    requires Inv(s) && p in s.replicas && s.replicas[p].phase.Looping? && s.replicas[p].phase.i >= s.replicas[p].count
    ensures Enabled(s, Finish(p))
  {
  }

  lemma ReturnedHasAll(s: State, p: Pid)
    requires Inv(s) && p in s.replicas && s.replicas[p].phase.Returned?
    ensures s.replicas[p].count <= |s.files| && s.files[..s.replicas[p].count] <= s.rows
  {
    assert PhaseOk(s, s.replicas[p]);
  }

  /** The lock holder is the only one that can commit a row. */
  lemma LockKeepsRows(s: State, p: Pid, a: Action)
    requires Inv(s) && Enabled(s, a) && p in s.replicas && a.pid != p
    ensures HoldsLock(s.replicas[p].phase) ==> Apply(s, a).rows == s.rows
  {
    assert HoldsLock(s.replicas[p].phase) ==> s.lock == Some(p);
  }

  /** While `p` holds the lock, what the others do leaves its next statement as it was. */
  lemma LockedView(s: State, t: State, p: Pid, a: Action)
    requires Inv(s) && Inv(t) && Enabled(s, a) && a.pid == p && !a.Boot? && t.files == s.files && s.rows == t.rows
    requires p in s.replicas && HoldsLock(s.replicas[p].phase) && p in t.replicas && t.replicas[p] == s.replicas[p]
    ensures Enabled(t, a) && Running(t, p)
    ensures Apply(t, a).replicas[p] == Apply(s, a).replicas[p] && Apply(t, a).rows == Apply(s, a).rows
    ensures AfterFail(t, p).replicas[p] == AfterFail(s, p).replicas[p]
  {
  }
}
