/** The inductive invariant of the session protocol and its preservation by every action. */
module SessionInvariant {
  import opened Options
  import opened Sessions

  // ---------------------------------------------------------------- the invariant

  /** A committed token belongs to its family's line, and only the tip of the line can be live. */
  predicate TokenOk(db: Tables, j: Jti) requires j in db.tokens {
    var t := db.tokens[j];
    && t.user in db.users
    && j in db.recorded
    && t.family in db.families
    && db.families[t.family].user == t.user
    && InLine(db.families[t.family], j)
    && (!t.revoked ==> Tip(db.families[t.family]) == Some(j))
  }

  predicate InLine(line: Line, j: Jti) {
    exists i :: 0 <= i < |line.links| && line.links[i].jti == j
  }

  function Tip(line: Line): Option<Jti> {
    if line.links == [] then None else Some(line.links[|line.links| - 1].jti)
  }

  /** Each link after the first claims exactly its predecessor. */
  predicate LineOk(db: Tables, f: Family) requires f in db.families {
    var line := db.families[f];
    && line.links != []
    && line.user in db.everUsers
    && line.links[0].claimed == None
    && (forall i :: 0 <= i < |line.links| ==> line.links[i].jti in db.recorded)
    && (forall i :: 0 < i < |line.links| ==> line.links[i].claimed == Some(line.links[i - 1].jti))
  }

  /** No JTI was ever committed twice. */
  predicate LinksDistinct(db: Tables) {
    forall f, g, i, k ::
      (&& f in db.families && g in db.families
       && 0 <= i < |db.families[f].links| && 0 <= k < |db.families[g].links|
       && db.families[f].links[i].jti == db.families[g].links[k].jti) ==> f == g && i == k
  }

  predicate TablesOk(db: Tables) {
    && (forall j :: j in db.tokens ==> TokenOk(db, j))
    && (forall f :: f in db.families ==> LineOk(db, f))
    && LinksDistinct(db)
    && db.recorded <= db.issued
    && db.users.Keys <= db.everUsers
  }

  /** The transaction excludes every rotation of its user, by the row lock or because there is no such user. */
  predicate Guarded(db: Tables, x: Proc) {
    x.lock != NoLock || (x.task.user !in db.users && x.task.user in db.everUsers)
  }

  predicate SkipsLock(x: Proc) {
    x.task.Revoke? && x.task.attempt.Unlocked?
  }

  /** An uncommitted version either revokes a committed token, deletes one of the user's, or inserts a successor. */
  predicate WriteOk(db: Tables, x: Proc, j: Jti) requires j in x.writes {
    match x.writes[j]
    case Put(t) =>
      if j in db.tokens then t == db.tokens[j].(revoked := true)
      else x.phase.Inserted? && j == x.phase.successor
    case Gone => x.task.Change? && j in db.tokens
  }

  predicate CoversTokens(db: Tables, x: Proc, rows: set<Jti>, covered: set<Family>) {
    forall j :: j in db.tokens && db.tokens[j].user == x.task.user && db.tokens[j].family in covered ==> j in rows
  }

  /** The rows a statement matched belong to the covered families. */
  predicate WithinCovered(db: Tables, rows: set<Jti>, covered: set<Family>) {
    forall j :: j in rows && j in db.tokens ==> db.tokens[j].family in covered
  }

  /** Every committed token of the covered families is revoked or about to be revoked or deleted. */
  predicate CoversLive(db: Tables, x: Proc, covered: set<Family>) {
    forall j :: j in db.tokens && db.tokens[j].user == x.task.user && db.tokens[j].family in covered ==>
      db.tokens[j].revoked || j in x.writes
  }

  predicate CoveredOk(db: Tables, x: Proc, covered: set<Family>) {
    && covered <= FamiliesOf(db, x.task.user)
    && (x.task.Change? ==> covered == FamiliesOf(db, x.task.user))
    && (x.task.Revoke? && x.task.scope.OneFamily? ==> covered == {x.task.scope.family})
    && (x.task.Rotate? ==> covered == {x.task.family})
  }

  predicate LockOk(db: Tables, x: Proc) {
    && (x.lock != NoLock ==> x.task.user in db.users)
    && (x.lock == ForUpdate ==> x.task.Change?)
    && (x.task.Change? ==> x.lock != NoKeyUpdate)
  }

  predicate TaskOk(db: Tables, x: Proc) {
    x.task.Revoke? ==>
      && x.task.user in db.everUsers
      && (x.task.scope.OneFamily? ==>
            x.task.scope.family in db.families && db.families[x.task.scope.family].user == x.task.user)
  }

  predicate HoldsRow(db: Tables, x: Proc, row: UserRow) {
    x.lock != NoLock && x.task.user in db.users && db.users[x.task.user] == row
  }

  /** What each phase has established. */
  predicate PhaseOk(db: Tables, x: Proc) {
    match x.phase
    case Opening => x.lock == NoLock && x.writes == map[]
    case Holding(found) =>
      && x.writes == map[] && !SkipsLock(x)
      && (found.Some? ==> HoldsRow(db, x, found.value))
      && (found.None? && x.task.Revoke? ==> x.task.user !in db.users)
      && (found.None? ==> x.lock == NoLock)
    case Presented =>
      && x.task.Rotate? && x.writes.Keys <= {x.task.jti}
      && forall j :: j in x.writes ==> x.writes[j].Put? && x.writes[j].token.user == x.task.user
    case Claimed(row) =>
      && x.task.Rotate? && HoldsRow(db, x, row) && !row.deactivated && Presents(db, x.task)
      && !db.tokens[x.task.jti].revoked && x.writes.Keys == {x.task.jti}
    case Inserted(row, succ) =>
      && x.task.Rotate? && HoldsRow(db, x, row) && !row.deactivated && Presents(db, x.task)
      && !db.tokens[x.task.jti].revoked && x.writes.Keys == {x.task.jti, succ}
      && x.writes[succ] == Put(Token(x.task.user, x.task.family, false))
      && succ in db.issued && succ !in db.recorded
    case Missed => x.task.Rotate? && x.lock != NoLock && x.writes == map[]
    case Absent => x.writes == map[]
    case Found => x.task.Rotate? && x.lock != NoLock && x.writes == map[]
        && x.task.family in db.families && db.families[x.task.family].user == x.task.user
    case Written(row) => x.task.Change? && HoldsRow(db, x, row) && x.writes == map[]
    case Snapped(rows, covered) =>
      && x.writes == map[]
      && CoveredOk(db, x, covered)
      && rows <= db.recorded && WithinCovered(db, rows, covered)
      && (x.task.Rotate? || x.task.Change? ==> x.lock != NoLock)
      && (!SkipsLock(x) ==> Guarded(db, x) && CoversTokens(db, x, rows, covered))
    case Executed(covered) =>
      && CoveredOk(db, x, covered)
      && WithinCovered(db, x.writes.Keys, covered)
      && (x.task.Rotate? || x.task.Change? ==> x.lock != NoLock)
      && (!SkipsLock(x) ==> Guarded(db, x) && CoversLive(db, x, covered))
      && (x.task.Change? ==> CoversTokens(db, x, x.writes.Keys, covered) && forall j :: j in x.writes ==> x.writes[j].Gone?)
      && (!x.task.Change? ==> forall j :: j in x.writes ==> x.writes[j].Put?)
    case Ended(outcome) =>
      && x.lock == NoLock && x.writes == map[]
      && (x.task.Revoke? && x.task.scope.OneFamily? && outcome.LockedPass? ==> outcome.covered == {x.task.scope.family})
  }

  predicate ProcOk(db: Tables, x: Proc) {
    && TaskOk(db, x) && LockOk(db, x) && PhaseOk(db, x)
    && (forall j :: j in x.writes ==> WriteOk(db, x, j))
  }

  /** One lock owner per users row. */
  predicate LocksExclusive(procs: map<Pid, Proc>) {
    forall p, q ::
      (p in procs && q in procs && p != q && procs[p].lock != NoLock && procs[q].lock != NoLock) ==>
        procs[p].task.user != procs[q].task.user
  }

  /** One writer per refresh_tokens row. */
  predicate WritersExclusive(procs: map<Pid, Proc>) {
    forall p, q, j :: p in procs && q in procs && p != q && j in procs[p].writes ==> j !in procs[q].writes
  }

  predicate ProcsOk(s: State) {
    && (forall p :: p in s.procs ==> ProcOk(s.db, s.procs[p]))
    && LocksExclusive(s.procs)
    && WritersExclusive(s.procs)
  }

  /** Every family an operation reported as killed is dead. */
  predicate OutcomesOk(s: State) {
    forall p, f :: p in s.procs && f in KilledBy(s.procs[p]) ==> Dead(s, f)
  }

  predicate Inv(s: State) {
    TablesOk(s.db) && ProcsOk(s) && OutcomesOk(s)
  }

  // ---------------------------------------------------------------- interference

  predicate UsersUndisturbed(db: Tables, db': Tables, x: Proc) {
    && db.everUsers <= db'.everUsers
    && (x.task.user in db.everUsers && x.task.user !in db.users ==> x.task.user !in db'.users)
    && (x.lock != NoLock && x.task.user in db.users ==>
          x.task.user in db'.users && db'.users[x.task.user] == db.users[x.task.user])
  }

  /** Rows `x` has written stay as they were, and no other row comes back to life. */
  predicate RowsUndisturbed(db: Tables, db': Tables, x: Proc) {
    && (forall j :: j in x.writes && j in db.tokens ==> j in db'.tokens && db'.tokens[j] == db.tokens[j])
    && (forall j :: j in db'.tokens && j in db.tokens ==>
          db'.tokens[j] == db.tokens[j] || db'.tokens[j] == db.tokens[j].(revoked := true))
  }

  /** A new row is a JTI never committed before, and outside the families `x` guards. */
  predicate NewRowsApart(db: Tables, db': Tables, x: Proc) {
    && db.issued <= db'.issued && db.recorded <= db'.recorded
    && (forall j :: j in x.writes ==> j !in db'.recorded - db.recorded)
    && (forall j :: j in db'.tokens && j !in db.tokens ==>
          && j in db'.recorded - db.recorded
          && (x.lock == ForUpdate ==> db'.tokens[j].user != x.task.user)
          && (Guarded(db, x) && db'.tokens[j].user == x.task.user ==> db'.tokens[j].family !in db.families))
  }

  predicate FamiliesUndisturbed(db: Tables, db': Tables, x: Proc) {
    && (forall f :: f in db.families ==> f in db'.families && db'.families[f].user == db.families[f].user)
    && (x.lock == ForUpdate ==> FamiliesOf(db', x.task.user) == FamiliesOf(db, x.task.user))
  }

  /** What any action leaves intact of the tables, seen by a transaction `x` of somebody else. */
  predicate Undisturbed(db: Tables, db': Tables, x: Proc) {
    && UsersUndisturbed(db, db', x) && RowsUndisturbed(db, db', x)
    && NewRowsApart(db, db', x) && FamiliesUndisturbed(db, db', x)
  }

  lemma OtherKept(db: Tables, db': Tables, x: Proc)
    requires ProcOk(db, x) && Undisturbed(db, db', x)
    ensures ProcOk(db', x)
  {
    hide TablesOk;
    forall j | j in x.writes ensures WriteOk(db', x, j) {
      assert WriteOk(db, x, j);
    }
    match x.phase {
      case Snapped(rows, covered) => CoveredKept(db, db', x, covered);
      case Executed(covered) => CoveredKept(db, db', x, covered);
      case _ =>
    }
  }

  lemma CoveredKept(db: Tables, db': Tables, x: Proc, covered: set<Family>)
    requires CoveredOk(db, x, covered) && Undisturbed(db, db', x)
    requires x.task.Change? ==> x.lock == ForUpdate
    ensures CoveredOk(db', x, covered)
  {
    forall f | f in covered ensures f in FamiliesOf(db', x.task.user) {
      assert f in FamiliesOf(db, x.task.user);
    }
  }

  // ---------------------------------------------------------------- one step, generically

  /** Transaction `p` becomes `x'` and the committed tables become `db'`. */
  predicate StepOk(s: State, db': Tables, p: Pid, x': Proc) {
    && TablesOk(db')
    && ProcOk(db', x')
    && (forall q :: q in s.procs && q != p ==> Undisturbed(s.db, db', s.procs[q]))
    && (x'.lock != NoLock ==> !UserLocked(s, x'.task.user, {p}))
    && (forall j :: j in x'.writes ==> !RowLocked(s, j, {p}))
  }

  lemma Advance(s: State, db': Tables, p: Pid, x': Proc)
    requires ProcsOk(s) && StepOk(s, db', p, x')
    ensures ProcsOk(State(db', s.procs[p := x']))
  {
    var t := State(db', s.procs[p := x']);
    forall q | q in t.procs ensures ProcOk(t.db, t.procs[q]) {
      if q != p {
        OtherKept(s.db, db', s.procs[q]);
      }
    }
  }

  lemma AdvanceTables(s: State, db': Tables)
    requires ProcsOk(s)
    requires forall q :: q in s.procs ==> Undisturbed(s.db, db', s.procs[q])
    ensures ProcsOk(State(db', s.procs))
  {
    forall q | q in s.procs ensures ProcOk(db', s.procs[q]) {
      OtherKept(s.db, db', s.procs[q]);
    }
  }

  /** The lock a transaction holds already excludes everybody else. */
  lemma OwnLock(s: State, p: Pid)
    requires ProcsOk(s) && p in s.procs
    ensures s.procs[p].lock != NoLock ==> !UserLocked(s, s.procs[p].task.user, {p})
    ensures forall j :: j in s.procs[p].writes ==> !RowLocked(s, j, {p})
  {
  }

  // ---------------------------------------------------------------- autocommitted statements

  lemma UsersTables(db: Tables, db': Tables)
    requires TablesOk(db) && db' == db.(users := db'.users, everUsers := db'.everUsers)
    requires db'.users.Keys <= db'.everUsers && db.everUsers <= db'.everUsers
    requires forall j :: j in db.tokens && db.tokens[j].user in db.users ==> db.tokens[j].user in db'.users
    ensures TablesOk(db')
  {
    forall j | j in db'.tokens ensures TokenOk(db', j) { assert TokenOk(db, j); }
    forall f | f in db'.families ensures LineOk(db', f) { assert LineOk(db, f); }
  }

  lemma CreateUserKeeps(s: State, u: UserId, row: UserRow)
    requires TablesOk(s.db) && ProcsOk(s) && Enabled(s, CreateUser(u, row))
    ensures TablesOk(Apply(s, CreateUser(u, row)).db) && ProcsOk(Apply(s, CreateUser(u, row)))
  {
    var db' := s.db.(users := s.db.users[u := row], everUsers := s.db.everUsers + {u});
    UsersTables(s.db, db');
    forall q | q in s.procs ensures Undisturbed(s.db, db', s.procs[q]) {
      assert LockOk(s.db, s.procs[q]);
    }
    AdvanceTables(s, db');
  }

  lemma ReactivateKeeps(s: State, u: UserId)
    requires TablesOk(s.db) && ProcsOk(s) && Enabled(s, Reactivate(u))
    ensures TablesOk(Apply(s, Reactivate(u)).db) && ProcsOk(Apply(s, Reactivate(u)))
  {
    var db' := s.db.(users := s.db.users[u := s.db.users[u].(deactivated := false)]);
    UsersTables(s.db, db');
    forall q | q in s.procs ensures Undisturbed(s.db, db', s.procs[q]) {
      assert s.procs[q].lock != NoLock ==> s.procs[q].task.user != u;
    }
    AdvanceTables(s, db');
  }

  /** A JTI that was never signed is in no table and in no write buffer. */
  lemma FreshJti(db: Tables, x: Proc, j: Jti)
    requires TablesOk(db) && ProcOk(db, x) && j !in db.issued
    ensures j !in x.writes && j !in db.tokens && j !in db.recorded
  {
    assert forall k :: k in db.tokens ==> TokenOk(db, k);
    assert j in x.writes ==> WriteOk(db, x, j);
  }

  lemma LoginTables(db: Tables, u: UserId, j: Jti, f: Family, claims: Claims)
    requires TablesOk(db) && u in db.users && j !in db.issued && f !in db.families
    ensures TablesOk(LoginInto(db, u, j, f, claims))
  {
    var db' := LoginInto(db, u, j, f, claims);
    assert db'.families[f].links[0].jti == j;
    forall k | k in db'.tokens ensures TokenOk(db', k) {
      if k != j { assert TokenOk(db, k); }
    }
    forall g | g in db'.families ensures LineOk(db', g) {
      if g != f { assert LineOk(db, g); }
    }
    forall g, h, i, k |
      (&& g in db'.families && h in db'.families
       && 0 <= i < |db'.families[g].links| && 0 <= k < |db'.families[h].links|
       && db'.families[g].links[i].jti == db'.families[h].links[k].jti)
      ensures g == h && i == k
    {
      if g != f { assert LineOk(db, g); }
      if h != f { assert LineOk(db, h); }
    }
  }

  lemma LoginUndisturbed(s: State, u: UserId, j: Jti, f: Family, claims: Claims, x: Proc)
    requires TablesOk(s.db) && ProcOk(s.db, x) && u in s.db.users && j !in s.db.issued && f !in s.db.families
    requires x.lock == ForUpdate ==> x.task.user != u
    ensures Undisturbed(s.db, LoginInto(s.db, u, j, f, claims), x)
  {
    FreshJti(s.db, x, j);
  }

  lemma LoginKeeps(s: State, u: UserId, j: Jti, f: Family, claims: Claims)
    requires TablesOk(s.db) && ProcsOk(s) && Enabled(s, Login(u, j, f, claims))
    ensures TablesOk(Apply(s, Login(u, j, f, claims)).db) && ProcsOk(Apply(s, Login(u, j, f, claims)))
  {
    LoginTables(s.db, u, j, f, claims);
    forall q | q in s.procs ensures Undisturbed(s.db, LoginInto(s.db, u, j, f, claims), s.procs[q]) {
      LoginUndisturbed(s, u, j, f, claims, s.procs[q]);
    }
    AdvanceTables(s, LoginInto(s.db, u, j, f, claims));
  }

  /** `tokens` is what revoking and deleting rows can make of the committed tokens. */
  predicate OnlyRevokes(db: Tables, tokens: map<Jti, Token>) {
    forall j :: j in tokens ==>
      j in db.tokens && (tokens[j] == db.tokens[j] || tokens[j] == db.tokens[j].(revoked := true))
  }

  lemma RevokingTables(db: Tables, tokens: map<Jti, Token>)
    requires TablesOk(db) && OnlyRevokes(db, tokens)
    ensures TablesOk(db.(tokens := tokens))
  {
    var db' := db.(tokens := tokens);
    forall j | j in tokens ensures TokenOk(db', j) { assert TokenOk(db, j); }
    forall f | f in db'.families ensures LineOk(db', f) { assert LineOk(db, f); }
  }

  lemma RevokingUndisturbed(db: Tables, tokens: map<Jti, Token>, x: Proc)
    requires OnlyRevokes(db, tokens)
    requires forall j :: j in x.writes && j in db.tokens ==> j in tokens && tokens[j] == db.tokens[j]
    ensures Undisturbed(db, db.(tokens := tokens), x)
  {
  }

  lemma RevokingKeeps(s: State, tokens: map<Jti, Token>)
    requires TablesOk(s.db) && ProcsOk(s) && OnlyRevokes(s.db, tokens)
    requires forall p, j :: p in s.procs && j in s.procs[p].writes && j in s.db.tokens ==>
      j in tokens && tokens[j] == s.db.tokens[j]
    ensures TablesOk(s.db.(tokens := tokens)) && ProcsOk(s.(db := s.db.(tokens := tokens)))
  {
    RevokingTables(s.db, tokens);
    forall q | q in s.procs ensures Undisturbed(s.db, s.db.(tokens := tokens), s.procs[q]) {
      RevokingUndisturbed(s.db, tokens, s.procs[q]);
    }
    AdvanceTables(s, s.db.(tokens := tokens));
  }

  lemma RevokeOneKeeps(s: State, j: Jti)
    requires TablesOk(s.db) && ProcsOk(s) && Enabled(s, RevokeOne(j))
    ensures TablesOk(Apply(s, RevokeOne(j)).db) && ProcsOk(Apply(s, RevokeOne(j)))
  {
    if j in s.db.tokens {
      var tokens := s.db.tokens[j := s.db.tokens[j].(revoked := true)];
      hide TablesOk; hide ProcsOk;
      assert forall p, k :: p in s.procs && k in s.procs[p].writes && k in s.db.tokens ==>
        k in tokens && tokens[k] == s.db.tokens[k];
      RevokingKeeps(s, tokens);
    }
  }

  lemma CleanupKeeps(s: State, js: set<Jti>)
    requires TablesOk(s.db) && ProcsOk(s) && Enabled(s, Cleanup(js))
    ensures TablesOk(Apply(s, Cleanup(js)).db) && ProcsOk(Apply(s, Cleanup(js)))
  {
    RevokingKeeps(s, s.db.tokens - js);
  }

  // ---------------------------------------------------------------- statements inside a transaction

  /** An action that only moves transaction `p` on. */
  lemma LocalKeeps(s: State, p: Pid, x': Proc)
    requires TablesOk(s.db) && ProcsOk(s) && StepOk(s, s.db, p, x')
    ensures ProcsOk(s.(procs := s.procs[p := x']))
  {
    Advance(s, s.db, p, x');
  }

  /** Rolling back (deadline or failure) or beginning: no lock, no writes. */
  lemma ReleaseKeeps(s: State, p: Pid, x': Proc)
    requires TablesOk(s.db) && ProcsOk(s)
    requires x'.lock == NoLock && x'.writes == map[] && TaskOk(s.db, x')
    requires x'.phase.Opening? || (x'.phase.Ended? && !x'.phase.outcome.LockedPass?)
    ensures ProcsOk(s.(procs := s.procs[p := x']))
  {
    forall q | q in s.procs && q != p ensures Undisturbed(s.db, s.db, s.procs[q]) {}
    Advance(s, s.db, p, x');
  }

  lemma BeginTaskOk(s: State, p: Pid, task: Task)
    requires TablesOk(s.db) && Enabled(s, Begin(p, task))
    ensures TaskOk(s.db, Proc(task, Opening, NoLock, map[]))
  {
    if task.Revoke? && task.scope.OneFamily? { assert LineOk(s.db, task.scope.family); }
  }

  lemma GrantKeeps(s: State, p: Pid)
    requires TablesOk(s.db) && ProcsOk(s) && Enabled(s, Grant(p))
    ensures ProcsOk(Apply(s, Grant(p)))
  {
    assert ProcOk(s.db, s.procs[p]);
    LocalKeeps(s, p, AfterGrant(s.db, s.procs[p]));
  }

  lemma PresentedOk(db: Tables, x: Proc)
    requires ProcOk(db, x) && x.task.Rotate? && x.phase.Holding?
    ensures ProcOk(db, AfterPresented(db, x))
  {
  }

  lemma PresentedKeeps(s: State, p: Pid)
    requires TablesOk(s.db) && ProcsOk(s) && Enabled(s, RevokePresented(p))
    ensures ProcsOk(Apply(s, RevokePresented(p)))
  {
    OwnLock(s, p);
    PresentedOk(s.db, s.procs[p]);
    hide ProcOk;
    LocalKeeps(s, p, AfterPresented(s.db, s.procs[p]));
  }

  lemma ClaimOk(db: Tables, x: Proc)
    requires ProcOk(db, x) && x.task.Rotate? && x.phase.Holding?
    requires x.phase.found.Some? && !x.phase.found.value.deactivated
    ensures ProcOk(db, AfterClaim(db, x))
  {
  }

  lemma ClaimKeeps(s: State, p: Pid)
    requires TablesOk(s.db) && ProcsOk(s) && Enabled(s, Claim(p))
    ensures ProcsOk(Apply(s, Claim(p)))
  {
    OwnLock(s, p);
    ClaimOk(s.db, s.procs[p]);
    hide ProcOk;
    LocalKeeps(s, p, AfterClaim(s.db, s.procs[p]));
  }

  lemma ProbeOk(db: Tables, x: Proc)
    requires TablesOk(db) && ProcOk(db, x) && x.phase.Missed?
    ensures ProcOk(db, AfterProbe(db, x))
  {
    assert forall j :: j in db.tokens ==> TokenOk(db, j);
  }

  lemma ProbeKeeps(s: State, p: Pid)
    requires TablesOk(s.db) && ProcsOk(s) && Enabled(s, Probe(p))
    ensures ProcsOk(Apply(s, Probe(p)))
  {
    OwnLock(s, p);
    ProbeOk(s.db, s.procs[p]);
    hide ProcOk;
    LocalKeeps(s, p, AfterProbe(s.db, s.procs[p]));
  }

  lemma WriteKeeps(s: State, p: Pid)
    requires TablesOk(s.db) && ProcsOk(s) && Enabled(s, Write(p))
    ensures ProcsOk(Apply(s, Write(p)))
  {
    OwnLock(s, p);
    assert ProcOk(s.db, s.procs[p]);
    LocalKeeps(s, p, Apply(s, Write(p)).procs[p]);
  }

  /** The rows a statement matches are committed, and all the committed rows of what it covers. */
  lemma SnapshotOk(db: Tables, x: Proc)
    requires TablesOk(db) && ProcOk(db, x) && !x.phase.Ended? && AtSnapshot(x)
    ensures ProcOk(db, AfterSnapshot(db, x))
  {
    var rows, covered := Matching(db, x.task), Covered(db, x.task);
    forall j | j in rows ensures j in db.recorded && db.tokens[j].family in covered { assert TokenOk(db, j); }
    assert x.task.Revoke? && x.task.scope.OneFamily? ==> TaskOk(db, x);
    assert CoversTokens(db, x, rows, covered);
    assert CoveredOk(db, x, covered);
  }

  lemma SnapshotKeeps(s: State, p: Pid)
    requires TablesOk(s.db) && ProcsOk(s) && Enabled(s, Snapshot(p))
    ensures ProcsOk(Apply(s, Snapshot(p)))
  {
    OwnLock(s, p);
    SnapshotOk(s.db, s.procs[p]);
    hide ProcOk;
    LocalKeeps(s, p, AfterSnapshot(s.db, s.procs[p]));
  }

  lemma ExecuteOk(db: Tables, x: Proc)
    requires ProcOk(db, x) && x.phase.Snapped?
    ensures ProcOk(db, AfterExecute(db, x))
  {
    var x' := AfterExecute(db, x);
    forall j | j in x'.writes ensures WriteOk(db, x', j) {}
    assert CoveredOk(db, x, x.phase.covered) && CoveredOk(db, x', x.phase.covered);
  }

  lemma ExecuteKeeps(s: State, p: Pid)
    requires TablesOk(s.db) && ProcsOk(s) && Enabled(s, Execute(p))
    ensures ProcsOk(Apply(s, Execute(p)))
  {
    OwnLock(s, p);
    ExecuteOk(s.db, s.procs[p]);
    hide ProcOk;
    LocalKeeps(s, p, AfterExecute(s.db, s.procs[p]));
  }

  lemma SigningTables(db: Tables, j: Jti)
    requires TablesOk(db)
    ensures TablesOk(db.(issued := db.issued + {j}))
  {
    var db' := db.(issued := db.issued + {j});
    forall k | k in db'.tokens ensures TokenOk(db', k) { assert TokenOk(db, k); }
    forall f | f in db'.families ensures LineOk(db', f) { assert LineOk(db, f); }
  }

  lemma InsertedOk(db: Tables, x: Proc, succ: Jti)
    requires TablesOk(db) && ProcOk(db, x) && x.phase.Claimed? && succ !in db.issued
    ensures ProcOk(db.(issued := db.issued + {succ}), AfterInsert(x, succ))
  {
    FreshJti(db, x, succ);
    var db', x' := db.(issued := db.issued + {succ}), AfterInsert(x, succ);
    forall j | j in x'.writes ensures WriteOk(db', x', j) {
      if j != succ { assert WriteOk(db, x, j); }
    }
  }

  /** Nobody else can have the fresh JTI in a write buffer. */
  lemma FreshEverywhere(s: State, succ: Jti)
    requires TablesOk(s.db) && ProcsOk(s) && succ !in s.db.issued
    ensures !RowLocked(s, succ, {})
    ensures forall q :: q in s.procs ==> Undisturbed(s.db, s.db.(issued := s.db.issued + {succ}), s.procs[q])
  {
    forall q | q in s.procs ensures succ !in s.procs[q].writes { FreshJti(s.db, s.procs[q], succ); }
  }

  lemma InsertStepOk(s: State, p: Pid, succ: Jti)
    requires TablesOk(s.db) && ProcsOk(s) && p in s.procs && s.procs[p].phase.Claimed? && succ !in s.db.issued
    ensures s.procs[p].task.Rotate?
    ensures StepOk(s, s.db.(issued := s.db.issued + {succ}), p, AfterInsert(s.procs[p], succ))
  {
    var x := s.procs[p];
    assert x.task.Rotate? by { assert ProcOk(s.db, x); }
    SigningTables(s.db, succ);
    InsertedOk(s.db, x, succ);
    OwnLock(s, p);
    FreshEverywhere(s, succ);
    assert AfterInsert(x, succ).writes.Keys == x.writes.Keys + {succ};
  }

  lemma InsertKeeps(s: State, p: Pid, succ: Jti)
    requires TablesOk(s.db) && ProcsOk(s) && Enabled(s, Insert(p, succ))
    ensures TablesOk(Apply(s, Insert(p, succ)).db) && ProcsOk(Apply(s, Insert(p, succ)))
  {
    InsertStepOk(s, p, succ);
    Advance(s, s.db.(issued := s.db.issued + {succ}), p, AfterInsert(s.procs[p], succ));
  }

  // ---------------------------------------------------------------- COMMIT

  /** Committing a buffer without a successor only revokes and deletes rows. */
  lemma MergeRevokes(db: Tables, x: Proc)
    requires ProcOk(db, x) && !x.phase.Inserted?
    ensures OnlyRevokes(db, Merge(db.tokens, x.writes))
  {
    forall j | j in Merge(db.tokens, x.writes) && j in x.writes ensures j in db.tokens {
      assert WriteOk(db, x, j);
    }
    forall j | j in Merge(db.tokens, x.writes)
      ensures Merge(db.tokens, x.writes)[j] == db.tokens[j]
           || Merge(db.tokens, x.writes)[j] == db.tokens[j].(revoked := true)
    {
      if j in x.writes { assert WriteOk(db, x, j); }
    }
  }

  /** A transaction with disjoint writes and another user keeps its footing over the commit of `x`. */
  predicate Apart(x: Proc, y: Proc) {
    && x.writes.Keys !! y.writes.Keys
    && (x.lock != NoLock && y.lock != NoLock ==> x.task.user != y.task.user)
  }

  predicate CommitsRevocation(x: Proc) {
    AtCommit(x) && !x.phase.Inserted? && !x.task.Change?
  }

  lemma CommitRevocation(db: Tables, x: Proc)
    requires TablesOk(db) && ProcOk(db, x) && CommitsRevocation(x)
    ensures TablesOk(CommitTables(db, x))
  {
    MergeRevokes(db, x);
    RevokingTables(db, Merge(db.tokens, x.writes));
  }

  lemma CommitRevocationApart(db: Tables, x: Proc, y: Proc)
    requires ProcOk(db, x) && ProcOk(db, y) && Apart(x, y) && CommitsRevocation(x)
    ensures Undisturbed(db, CommitTables(db, x), y)
  {
    MergeRevokes(db, x);
    RevokingUndisturbed(db, Merge(db.tokens, x.writes), y);
  }

  /** After the DELETE no token of the changed user is left. */
  lemma CommitChangeEmpties(db: Tables, x: Proc)
    requires TablesOk(db) && ProcOk(db, x) && x.phase.Executed? && x.task.Change?
    ensures forall j :: j in Merge(db.tokens, x.writes) ==> Merge(db.tokens, x.writes)[j].user != x.task.user
  {
    forall j | j in db.tokens && db.tokens[j].user == x.task.user ensures j in x.writes {
      assert TokenOk(db, j);
      assert db.tokens[j].family in FamiliesOf(db, x.task.user);
    }
  }

  lemma CommitChange(db: Tables, x: Proc)
    requires TablesOk(db) && ProcOk(db, x) && AtCommit(x) && x.task.Change?
    ensures TablesOk(CommitTables(db, x))
  {
    var tokens := Merge(db.tokens, x.writes);
    MergeRevokes(db, x);
    RevokingTables(db, tokens);
    assert x.phase.Executed? || !x.task.edit.Remove?;
    if x.phase.Executed? { CommitChangeEmpties(db, x); }
    EditedTables(db.(tokens := tokens), x.task.user, x.task.edit);
  }

  lemma EditedTables(db: Tables, u: UserId, edit: Edit)
    requires TablesOk(db)
    requires edit.Remove? ==> forall j :: j in db.tokens ==> db.tokens[j].user != u
    ensures TablesOk(db.(users := EditUsers(db.users, u, edit)))
  {
    UsersTables(db, db.(users := EditUsers(db.users, u, edit)));
  }

  lemma CommitChangeApart(db: Tables, x: Proc, y: Proc)
    requires ProcOk(db, x) && ProcOk(db, y) && Apart(x, y) && AtCommit(x) && x.task.Change?
    ensures Undisturbed(db, CommitTables(db, x), y)
  {
    MergeRevokes(db, x);
    RevokingUndisturbed(db, Merge(db.tokens, x.writes), y);
  }

  /** The successor's link extends its family's line at the tip it claimed. */
  lemma CommitRotationLine(db: Tables, x: Proc)
    requires TablesOk(db) && ProcOk(db, x) && x.phase.Inserted?
    ensures x.task.Rotate? && x.task.family in db.families
    ensures db.families[x.task.family].user == x.task.user
    ensures Tip(db.families[x.task.family]) == Some(x.task.jti)
    ensures LineOk(CommitTables(db, x), x.task.family)
  {
    assert TokenOk(db, x.task.jti);
    assert LineOk(db, x.task.family);
  }

  lemma CommitRotationTokens(db: Tables, x: Proc, j: Jti)
    requires TablesOk(db) && ProcOk(db, x) && x.phase.Inserted? && j in CommitTables(db, x).tokens
    ensures TokenOk(CommitTables(db, x), j)
  {
    CommitRotationLine(db, x);
    var line, line' := db.families[x.task.family], CommitTables(db, x).families[x.task.family];
    if j == x.phase.successor {
      assert line'.links[|line.links|].jti == j;
    } else {
      if j in x.writes { assert WriteOk(db, x, j); }
      assert TokenOk(db, j);
      InLineGrows(line, line', j);
    }
  }

  lemma InLineGrows(line: Line, line': Line, j: Jti)
    requires line.links <= line'.links
    ensures InLine(line, j) ==> InLine(line', j)
  {
    if InLine(line, j) {
      var i :| 0 <= i < |line.links| && line.links[i].jti == j;
      assert line'.links[i].jti == j;
    }
  }

  lemma CommitRotationDistinct(db: Tables, x: Proc)
    requires TablesOk(db) && ProcOk(db, x) && x.phase.Inserted?
    ensures LinksDistinct(CommitTables(db, x))
  {
    CommitRotationLine(db, x);
    assert x.phase.successor !in db.recorded by { assert PhaseOk(db, x); }
    hide ProcOk;
    var db', u := CommitTables(db, x), x.task.family;
    var n := |db.families[u].links|;
    forall f, g, i, k |
      (&& f in db'.families && g in db'.families
       && 0 <= i < |db'.families[f].links| && 0 <= k < |db'.families[g].links|
       && db'.families[f].links[i].jti == db'.families[g].links[k].jti)
      ensures f == g && i == k
    {
      assert LineOk(db, f) && LineOk(db, g);
      assert (f == u && i == n) || db'.families[f].links[i] == db.families[f].links[i];
      assert (g == u && k == n) || db'.families[g].links[k] == db.families[g].links[k];
    }
  }

  lemma CommitRotation(db: Tables, x: Proc)
    requires TablesOk(db) && ProcOk(db, x) && x.phase.Inserted?
    ensures TablesOk(CommitTables(db, x))
  {
    var db' := CommitTables(db, x);
    CommitRotationLine(db, x);
    CommitRotationDistinct(db, x);
    forall j | j in db'.tokens ensures TokenOk(db', j) { CommitRotationTokens(db, x, j); }
    forall f | f in db'.families ensures LineOk(db', f) {
      if f != x.task.family { assert LineOk(db, f); }
    }
  }

  /** What the commit of a rotation does to the tables, without the reasons. */
  predicate Succeeds(db: Tables, x: Proc) {
    && x.task.Rotate? && x.phase.Inserted? && x.lock != NoLock && x.task.user in db.users
    && x.task.family in db.families && db.families[x.task.family].user == x.task.user
    && x.phase.successor in x.writes && x.phase.successor !in db.tokens
    && x.writes[x.phase.successor] == Put(Token(x.task.user, x.task.family, false))
    && (forall j :: j in x.writes && j != x.phase.successor ==>
          j in db.tokens && x.writes[j] == Put(db.tokens[j].(revoked := true)))
  }

  lemma RotationSucceeds(db: Tables, x: Proc)
    requires TablesOk(db) && ProcOk(db, x) && x.phase.Inserted?
    ensures Succeeds(db, x)
  {
    CommitRotationLine(db, x);
    assert forall j :: j in db.tokens ==> TokenOk(db, j);
    forall j | j in x.writes && j != x.phase.successor
      ensures j in db.tokens && x.writes[j] == Put(db.tokens[j].(revoked := true))
    {
      assert WriteOk(db, x, j);
    }
  }

  lemma SucceedsApart(db: Tables, x: Proc, y: Proc)
    requires Succeeds(db, x) && Apart(x, y) && x.phase.successor !in db.recorded
    requires y.lock != NoLock ==> y.task.user in db.users
    ensures Undisturbed(db, CommitTables(db, x), y)
  {
    var db' := CommitTables(db, x);
    assert FamiliesOf(db', y.task.user) == FamiliesOf(db, y.task.user);
  }

  lemma CommitRotationApart(db: Tables, x: Proc, y: Proc)
    requires TablesOk(db) && ProcOk(db, x) && ProcOk(db, y) && Apart(x, y) && x.phase.Inserted?
    ensures Undisturbed(db, CommitTables(db, x), y)
  {
    RotationSucceeds(db, x);
    assert LockOk(db, y) && PhaseOk(db, x);
    SucceedsApart(db, x, y);
  }

  lemma EndedOk(db: Tables, x: Proc)
    requires ProcOk(db, x) && AtCommit(x)
    ensures ProcOk(CommitTables(db, x), AfterCommit(x))
  {
    assert x.task.Revoke? ==> CommitTables(db, x).families == db.families;
  }

  lemma CommitKeeps(s: State, p: Pid)
    requires TablesOk(s.db) && ProcsOk(s) && Enabled(s, Commit(p))
    ensures TablesOk(Apply(s, Commit(p)).db) && ProcsOk(Apply(s, Commit(p)))
  {
    var x := s.procs[p];
    if x.phase.Inserted? {
      CommitRotation(s.db, x);
    } else if x.task.Change? {
      CommitChange(s.db, x);
    } else {
      CommitRevocation(s.db, x);
    }
    forall q | q in s.procs && q != p ensures Undisturbed(s.db, CommitTables(s.db, x), s.procs[q]) {
      var y := s.procs[q];
      assert Apart(x, y);
      if x.phase.Inserted? {
        CommitRotationApart(s.db, x, y);
      } else if x.task.Change? {
        CommitChangeApart(s.db, x, y);
      } else {
        CommitRevocationApart(s.db, x, y);
      }
    }
    EndedOk(s.db, x);
    Advance(s, CommitTables(s.db, x), p, AfterCommit(x));
  }

  // ---------------------------------------------------------------- death is absorbing

  /** The tables keep `f` dead: no new token of `f`, and no token of `f` comes back to life. */
  predicate StaysDead(db: Tables, db': Tables, f: Family) {
    && f in db'.families
    && forall j :: j in db'.tokens && db'.tokens[j].family == f && !db'.tokens[j].revoked ==>
      Live(db, j) && db.tokens[j].family == f
  }

  lemma DeadAdvance(s: State, db': Tables, p: Pid, x': Proc, f: Family)
    requires Dead(s, f) && StaysDead(s.db, db', f) && NoLiveWrite(x', f)
    ensures Dead(State(db', s.procs[p := x']), f)
  {
  }

  /** A claim needs a live token, so a dead family never gets as far as a pending successor. */
  lemma DeadStopsRotation(s: State, p: Pid, f: Family)
    requires ProcsOk(s) && Dead(s, f) && p in s.procs && (s.procs[p].phase.Claimed? || s.procs[p].phase.Inserted?)
    ensures s.procs[p].task.Rotate? && s.procs[p].task.family != f
  {
    assert ProcOk(s.db, s.procs[p]);
  }

  lemma DeadTables(db: Tables, x: Proc, f: Family)
    requires TablesOk(db) && ProcOk(db, x) && AtCommit(x) && f in db.families && NoLiveWrite(x, f)
    requires x.phase.Inserted? ==> x.task.family != f
    ensures StaysDead(db, CommitTables(db, x), f)
  {
    if x.phase.Inserted? { CommitRotationLine(db, x); }
  }

  lemma DeadCommit(s: State, p: Pid, f: Family)
    requires TablesOk(s.db) && ProcsOk(s) && Dead(s, f) && Enabled(s, Commit(p))
    ensures Dead(Apply(s, Commit(p)), f)
  {
    var x := s.procs[p];
    assert NoLiveWrite(x, f);
    if x.phase.Inserted? { DeadStopsRotation(s, p, f); }
    DeadTables(s.db, x, f);
    DeadAdvance(s, CommitTables(s.db, x), p, AfterCommit(x), f);
  }

  /** The autocommitted statements. */
  lemma DeadAutocommit(s: State, a: Action, f: Family)
    requires Dead(s, f) && Enabled(s, a)
    requires a.CreateUser? || a.Reactivate? || a.Login? || a.RevokeOne? || a.Cleanup?
    ensures Dead(Apply(s, a), f)
  {
    assert Apply(s, a).procs == s.procs;
  }

  lemma DeadStatement(s: State, a: Action, f: Family)
    requires ProcsOk(s) && Dead(s, f) && Enabled(s, a)
    requires a.RevokePresented? || a.Claim? || a.Insert? || a.Execute?
    ensures Dead(Apply(s, a), f)
  {
    assert NoLiveWrite(s.procs[a.pid], f);
    if a.Insert? { DeadStopsRotation(s, a.pid, f); }
    DeadAdvance(s, Apply(s, a).db, a.pid, Apply(s, a).procs[a.pid], f);
  }

  lemma DeadMove(s: State, a: Action, f: Family)
    requires Dead(s, f) && Enabled(s, a)
    requires a.Begin? || a.Grant? || a.Probe? || a.Write? || a.Snapshot? || a.Deadline? || a.Fail?
    ensures Dead(Apply(s, a), f)
  {
    assert a.Begin? || NoLiveWrite(s.procs[a.pid], f);
    DeadAdvance(s, s.db, a.pid, Apply(s, a).procs[a.pid], f);
  }

  lemma DeadStep(s: State, a: Action, f: Family)
    requires TablesOk(s.db) && ProcsOk(s) && Dead(s, f) && Enabled(s, a)
    ensures Dead(Apply(s, a), f)
  {
    if a.CreateUser? || a.Reactivate? || a.Login? || a.RevokeOne? || a.Cleanup? {
      DeadAutocommit(s, a, f);
    } else if a.Commit? {
      DeadCommit(s, a.pid, f);
    } else if a.RevokePresented? || a.Claim? || a.Insert? || a.Execute? {
      DeadStatement(s, a, f);
    } else {
      DeadMove(s, a, f);
    }
  }

  // ---------------------------------------------------------------- killing commits

  /** The commit of a guarded multi-row revocation or deletion kills every family it covers. */
  lemma CommitKills(s: State, p: Pid, f: Family)
    requires TablesOk(s.db) && ProcsOk(s) && Enabled(s, Commit(p))
    requires s.procs[p].phase.Executed? && !SkipsLock(s.procs[p]) && f in s.procs[p].phase.covered
    ensures Dead(Apply(s, Commit(p)), f)
  {
    var x := s.procs[p];
    var t := Apply(s, Commit(p));
    assert f in FamiliesOf(s.db, x.task.user);
    forall j | j in t.db.tokens && t.db.tokens[j].family == f ensures t.db.tokens[j].revoked {
      CoveredRevoked(s.db, x, f, j);
    }
    forall q | q in t.procs ensures NoLiveWrite(t.procs[q], f) {
      if q != p { GuardExcludesSuccessor(s, p, q, f); }
    }
  }

  lemma CoveredRevoked(db: Tables, x: Proc, f: Family, j: Jti)
    requires TablesOk(db) && ProcOk(db, x) && x.phase.Executed? && !SkipsLock(x) && f in x.phase.covered
    requires j in Merge(db.tokens, x.writes) && Merge(db.tokens, x.writes)[j].family == f
    ensures Merge(db.tokens, x.writes)[j].revoked
  {
    MergeRevokes(db, x);
    assert TokenOk(db, j);
    assert f in FamiliesOf(db, x.task.user);
    if j in x.writes { assert WriteOk(db, x, j); }
  }

  /** While one transaction is guarded, nobody else has an uncommitted successor for that user. */
  lemma GuardExcludesSuccessor(s: State, p: Pid, q: Pid, f: Family)
    requires TablesOk(s.db) && ProcsOk(s) && p in s.procs && q in s.procs && p != q
    requires Guarded(s.db, s.procs[p]) && f in FamiliesOf(s.db, s.procs[p].task.user)
    ensures NoLiveWrite(s.procs[q], f)
  {
    var y := s.procs[q];
    assert y.phase.Inserted? ==> PhaseOk(s.db, y) && TokenOk(s.db, y.task.jti);
    forall j | j in y.writes && y.writes[j].Put? && y.writes[j].token.family == f ensures y.writes[j].token.revoked {
      assert ProcOk(s.db, y) && WriteOk(s.db, y, j);
      if j !in s.db.tokens { assert false; }
    }
  }

  // ---------------------------------------------------------------- every step keeps the invariant

  lemma StepKeepsShape(s: State, a: Action)
    requires TablesOk(s.db) && ProcsOk(s) && Enabled(s, a)
    ensures TablesOk(Apply(s, a).db) && ProcsOk(Apply(s, a))
  {
    match a {
      case CreateUser(u, row) => CreateUserKeeps(s, u, row);
      case Reactivate(u) => ReactivateKeeps(s, u);
      case Login(u, j, f, claims) => LoginKeeps(s, u, j, f, claims);
      case RevokeOne(j) => RevokeOneKeeps(s, j);
      case Cleanup(js) => CleanupKeeps(s, js);
      case Begin(p, task) =>
        BeginTaskOk(s, p, task);
        ReleaseKeeps(s, p, Proc(task, Opening, NoLock, map[]));
      case Grant(p) => GrantKeeps(s, p);
      case RevokePresented(p) => PresentedKeeps(s, p);
      case Claim(p) => ClaimKeeps(s, p);
      case Probe(p) => ProbeKeeps(s, p);
      case Insert(p, j) => InsertKeeps(s, p, j);
      case Write(p) => WriteKeeps(s, p);
      case Snapshot(p) => SnapshotKeeps(s, p);
      case Execute(p) => ExecuteKeeps(s, p);
      case Commit(p) => CommitKeeps(s, p);
      case Deadline(p) => RollbackKeeps(s, p, AfterDeadline(s.procs[p].task));
      case Fail(p) => RollbackKeeps(s, p, AfterFailure(s.procs[p].task));
    }
  }

  lemma RollbackKeeps(s: State, p: Pid, x': Proc)
    requires TablesOk(s.db) && ProcsOk(s) && Open(s, p)
    requires x' == AfterDeadline(s.procs[p].task) || x' == AfterFailure(s.procs[p].task)
    ensures ProcsOk(s.(procs := s.procs[p := x']))
  {
    assert ProcOk(s.db, s.procs[p]);
    ReleaseKeeps(s, p, x');
  }

  lemma ExecutedCovers(db: Tables, x: Proc)
    requires ProcOk(db, x) && x.task.Rotate? && x.phase.Executed?
    ensures x.phase.covered == {x.task.family}
  {
  }

  /** An operation's outcome is only ever recorded by its own commit. */
  lemma OutcomeOrigin(s: State, a: Action, q: Pid, f: Family)
    requires TablesOk(s.db) && ProcsOk(s) && Enabled(s, a)
    requires q in Apply(s, a).procs && f in KilledBy(Apply(s, a).procs[q])
    ensures
      || (q in s.procs && f in KilledBy(s.procs[q]))
      || (a == Commit(q) && s.procs[q].phase.Executed? && !SkipsLock(s.procs[q]) && f in s.procs[q].phase.covered)
  {
    if a == Commit(q) {
      if s.procs[q].task.Rotate? && s.procs[q].phase.Executed? { ExecutedCovers(s.db, s.procs[q]); }
      hide TablesOk; hide ProcsOk; hide CommitTables; hide ProcOk; hide Merge;
    } else {
      OnlyCommitKills(s, a, q);
    }
  }

  lemma OnlyCommitKills(s: State, a: Action, q: Pid)
    requires Enabled(s, a) && a != Commit(q) && q in Apply(s, a).procs
    ensures KilledBy(Apply(s, a).procs[q]) == {} || (q in s.procs && Apply(s, a).procs[q] == s.procs[q])
  {
    hide CommitTables; hide Merge; hide Matching; hide Rewrites; hide Covered;
  }

  lemma InvStep(s: State, a: Action)
    requires Inv(s) && Enabled(s, a)
    ensures Inv(Apply(s, a))
  {
    var t := Apply(s, a);
    StepKeepsShape(s, a);
    forall q, f | q in t.procs && f in KilledBy(t.procs[q]) ensures Dead(t, f) {
      OutcomeOrigin(s, a, q, f);
      if q in s.procs && f in KilledBy(s.procs[q]) {
        DeadStep(s, a, f);
      } else {
        CommitKills(s, q, f);
      }
    }
  }

  lemma InvInit()
    ensures Inv(INIT)
  {
  }

  lemma {:induction false} RunKeepsInv(s: State, run: seq<Action>)
    requires Inv(s) && ValidRun(s, run)
    ensures Inv(Exec(s, run))
    decreases |run|
  {
    if run != [] {
      InvStep(s, run[0]);
      RunKeepsInv(Apply(s, run[0]), run[1..]);
    }
  }

  lemma ReachableInv(s: State)
    requires Reachable(s)
    ensures Inv(s)
  {
    var run: seq<Action> :| ValidRun(INIT, run) && Exec(INIT, run) == s;
    RunKeepsInv(INIT, run);
  }
}
