/** With the lock free, and nobody in its way, a booting replica applies all that it ships. */
module MigrationProgress {
  import opened Migrations
  import opened Options

  /** `t` is reached from `s` by some run. */
  ghost predicate Leads(s: State, t: State) {
    exists run: seq<Action> :: ValidRun(s, run) && Exec(s, run) == t
  }

  lemma {:induction false} Append(s: State, run: seq<Action>, a: Action)
    requires ValidRun(s, run) && Enabled(Exec(s, run), a)
    ensures ValidRun(s, run + [a]) && Exec(s, run + [a]) == Apply(Exec(s, run), a)
    decreases |run|
  {
    if run == [] {
      assert ([] + [a])[1..] == [];
    } else {
      Append(Apply(s, run[0]), run[1..], a);
      assert (run + [a])[1..] == run[1..] + [a];
    }
  }

  /** `t` is reached from `s` by statements of `p` that all work. */
  ghost predicate Gets(s: State, t: State, p: Pid, count: nat) {
    && Inv(t) && Leads(s, t) && t.files == s.files && s.rows <= t.rows && |t.rows| <= Max(count, |s.rows|)
    && p in t.replicas && t.replicas[p].count == count
    && forall q :: q != p ==> (q in t.replicas <==> q in s.replicas) && (q in s.replicas ==> t.replicas[q] == s.replicas[q])
  }

  lemma LeadsOn(s: State, t: State, a: Action)
    requires Leads(s, t) && Enabled(t, a)
    ensures Leads(s, Apply(t, a))
  {
    var run: seq<Action> :| ValidRun(s, run) && Exec(s, run) == t;
    Append(s, run, a);
  }

  lemma Moves(t: State, a: Action)
    requires Inv(t) && Enabled(t, a) && !a.Boot?
    ensures var u, x := Apply(t, a), t.replicas[a.pid];
      && u.files == t.files && t.rows <= u.rows && (u.rows == t.rows || |u.rows| <= x.count)
      && u.replicas == t.replicas[a.pid := x.(phase := u.replicas[a.pid].phase)]
  {
    assert PhaseOk(t, t.replicas[a.pid]);
    hide LockOk; hide TablesOk;
  }

  lemma Goes(s: State, t: State, p: Pid, count: nat, a: Action) returns (u: State)
    requires Gets(s, t, p, count) && Enabled(t, a) && a.pid == p && !a.Boot? && !a.Crash? && !a.Fail?
    ensures u == Apply(t, a) && Gets(s, u, p, count)
  {
    u := Apply(t, a);
    InvStep(t, a);
    Moves(t, a);
    LeadsOn(s, t, a);
    hide Inv; hide Leads; hide Apply; hide Enabled;
  }

  /** One file, whether it has been applied before or not. */
  lemma GoesOn(s: State, t: State, p: Pid, count: nat) returns (u: State)
    requires Gets(s, t, p, count) && t.replicas[p].phase.Looping? && t.replicas[p].phase.i < count
    ensures Gets(s, u, p, count) && u.replicas[p].phase == Looping(t.replicas[p].phase.applied, t.replicas[p].phase.i + 1)
    ensures u.lock == t.lock
  {
    var x := t.replicas[p].phase;
    hide PhaseOk; hide Leads; hide LockOk; hide TablesOk; hide Distinct;
    if Shipped(t, t.replicas[p])[x.i] in x.applied {
      u := Goes(s, t, p, count, Skip(p));
    } else {
      u := Goes(s, t, p, count, Begin(p));
      u := Goes(s, u, p, count, RunSql(p));
      u := Records(s, u, p, count);
    }
  }

  lemma Records(s: State, t: State, p: Pid, count: nat) returns (u: State)
    requires Gets(s, t, p, count) && t.replicas[p].phase.InTx? && t.replicas[p].phase.at.Ran?
    ensures Gets(s, u, p, count) && u.replicas[p].phase == Looping(t.replicas[p].phase.applied, t.replicas[p].phase.i + 1)
    ensures u.lock == t.lock
  {
    NeverRecordsTwice(t, p);
    hide PhaseOk; hide Leads; hide LockOk; hide TablesOk; hide Distinct;
    u := Goes(s, t, p, count, Record(p));
    u := Goes(s, u, p, count, Commit(p));
  }

  lemma {:induction false} GoesThrough(s: State, t: State, p: Pid, count: nat) returns (u: State)
    requires Gets(s, t, p, count) && t.replicas[p].phase.Looping? && t.replicas[p].phase.i <= count
    ensures Gets(s, u, p, count) && u.replicas[p].phase == Unlocking(true) && u.lock == t.lock
    decreases count - t.replicas[p].phase.i
  {
    hide PhaseOk; hide Leads; hide LockOk; hide TablesOk;
    if t.replicas[p].phase.i == count {
      u := Goes(s, t, p, count, Finish(p));
    } else {
      u := GoesOn(s, t, p, count);
      u := GoesThrough(s, u, p, count);
    }
  }

  lemma Boots(s: State, p: Pid, count: nat) returns (t: State)
    requires Inv(s) && p !in s.replicas && count <= |s.files|
    ensures t == Apply(s, Boot(p, count)) && Gets(s, t, p, count)
  {
    t := Apply(s, Boot(p, count));
    InvStep(s, Boot(p, count));
    assert ValidRun(s, []) && Exec(s, []) == s;
    LeadsOn(s, s, Boot(p, count));
    hide Inv; hide Leads;
  }

  lemma Acquires(s: State, t: State, p: Pid, count: nat) returns (u: State)
    requires Gets(s, t, p, count) && t.replicas[p].phase.Waiting? && t.lock.None?
    ensures Gets(s, u, p, count) && u.replicas[p].phase.Looping? && u.replicas[p].phase.i == 0 && u.lock == Some(p)
  {
    hide Inv; hide Leads;
    u := Goes(s, t, p, count, Lock(p));
    u := Goes(s, u, p, count, ReadApplied(p));
  }

  lemma Returns(s: State, t: State, p: Pid, count: nat) returns (u: State)
    requires Gets(s, t, p, count) && t.replicas[p].phase == Unlocking(true) && t.lock == Some(p)
    ensures Gets(s, u, p, count) && u.replicas[p].phase.Returned? && u.lock.None?
  {
    hide Inv; hide Leads;
    u := Goes(s, t, p, count, Unlock(p));
  }

  /** A replica that boots while the lock is free can return with exactly the files it ships applied, after those
      that were applied before; it leaves the lock free and every other replica where it was. */
  lemma QuietBoot(s: State, p: Pid, count: nat) returns (t: State)
    requires Inv(s) && p !in s.replicas && s.lock.None? && count <= |s.files|
    ensures Leads(s, t) && t.lock.None? && t.replicas == s.replicas[p := Replica(count, Returned)]
    ensures t.rows == s.files[..Max(count, |s.rows|)] && t.effects == t.rows
  {
    hide Enabled; hide Leads; hide PhaseOk; hide LockOk;
    t := Boots(s, p, count);
    t := Acquires(s, t, p, count);
    t := GoesThrough(s, t, p, count);
    t := Returns(s, t, p, count);
    ReturnedHasAll(t, p);
  }
}
