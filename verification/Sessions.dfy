/**
 Refresh-token sessions (backend/src/core/plugins/auth.ts and the session side of
 backend/src/core/services/admin-user-service.ts) as a transition system.

 One action is one statement, one lock grant, one COMMIT or one failure of one
 transaction.  A transaction's row versions stay in its write buffer until COMMIT;
 every other transaction reads committed tables only.  Rows in a write buffer are
 row-locked against every other writer, and the users row has one lock owner.
 */
module Sessions {
  import opened Options

  type UserId = nat
  type Jti = nat
  type Family = nat
  type Pid = nat

  datatype Role = Member | Administrator

  datatype UserRow = UserRow(username: string, role: Role, deactivated: bool)

  datatype Token = Token(user: UserId, family: Family, revoked: bool)

  /** What a rotated token pair is signed with: the JWT payload. */
  datatype Claims = Claims(sub: UserId, username: string, role: Role)

  /** One committed member of a family: the JTI and, for a rotation, the JTI it claimed. */
  datatype Link = Link(jti: Jti, claimed: Option<Jti>, claims: Claims)

  /** History of one family, in commit order. */
  datatype Line = Line(user: UserId, links: seq<Link>)

  /** `users` and `refresh_tokens` are the committed tables; the rest is history. */
  datatype Tables = Tables(
    users: map<UserId, UserRow>,
    tokens: map<Jti, Token>,
    families: map<Family, Line>,   // every family ever opened
    everUsers: set<UserId>,        // every user id ever committed
    issued: set<Jti>,              // every JTI ever signed
    recorded: set<Jti>)            // every JTI ever committed

  /** An uncommitted row version. */
  datatype Version = Put(token: Token) | Gone

  /** Lock held on the users row of the transaction's user. */
  datatype Lock = NoLock | NoKeyUpdate | ForUpdate

  /** WHERE clause of a revocation: `family = $1 AND user_id = $2`, or `user_id = $1`. */
  datatype Scope = OneFamily(family: Family) | AllFamilies

  /** Progress through the three attempts of a revocation. */
  datatype Attempt = First | Unlocked | Second(ranUnlocked: bool)

  datatype Edit = SetRole(role: Role) | Deactivate | Remove

  datatype Task =
    | Rotate(user: UserId, jti: Jti, family: Family)
    | Revoke(user: UserId, scope: Scope, attempt: Attempt)
    | Change(user: UserId, edit: Edit)

  datatype Outcome =
    | Rotated(successor: Jti)
    | Reuse
    | Rejected
    | Busy
    | Failed
    | LockedPass(covered: set<Family>)
    | UnlockedOnly
    | Changed(covered: set<Family>)

  /** What the open transaction has done so far. */
  datatype Phase =
    | Opening                                         // BEGIN done, no statement finished
    | Holding(found: Option<UserRow>)                 // SELECT ... FOR [NO KEY] UPDATE returned
    | Presented                                       // deactivated user: presented JTI revoked
    | Claimed(row: UserRow)                           // conditional UPDATE returned the JTI
    | Inserted(row: UserRow, successor: Jti)          // successor INSERT done
    | Missed                                          // conditional UPDATE matched nothing
    | Absent                                          // no such token either
    | Found                                           // the token exists: reuse
    | Written(row: UserRow)                           // UPDATE/DELETE users done
    | Snapped(rows: set<Jti>, covered: set<Family>)   // multi-row statement took its snapshot
    | Executed(covered: set<Family>)                  // multi-row statement finished
    | Ended(outcome: Outcome)

  datatype Proc = Proc(task: Task, phase: Phase, lock: Lock, writes: map<Jti, Version>)

  datatype State = State(db: Tables, procs: map<Pid, Proc>)

  datatype Action =
    | CreateUser(user: UserId, row: UserRow)
    | Reactivate(user: UserId)
    | Login(user: UserId, jti: Jti, family: Family, claims: Claims)
    | RevokeOne(jti: Jti)
    | Cleanup(jtis: set<Jti>)
    | Begin(pid: Pid, task: Task)
    | Grant(pid: Pid)
    | RevokePresented(pid: Pid)
    | Claim(pid: Pid)
    | Probe(pid: Pid)
    | Insert(pid: Pid, successor: Jti)
    | Write(pid: Pid)
    | Snapshot(pid: Pid)
    | Execute(pid: Pid)
    | Commit(pid: Pid)
    | Deadline(pid: Pid)
    | Fail(pid: Pid)

  const EMPTY_TABLES := Tables(map[], map[], map[], {}, {}, {})
  const INIT := State(EMPTY_TABLES, map[])

  // ---------------------------------------------------------------- locks

  /** Some other open transaction holds a lock on `user`'s row. */
  predicate UserLocked(s: State, user: UserId, except: set<Pid>) {
    exists q :: q in s.procs && q !in except && s.procs[q].lock != NoLock && s.procs[q].task.user == user
  }

  /** Some open transaction holds FOR UPDATE on `user`'s row, which blocks foreign-key inserts. */
  predicate UserLockedForUpdate(s: State, user: UserId) {
    exists q :: q in s.procs && s.procs[q].lock == ForUpdate && s.procs[q].task.user == user
  }

  /** Some other open transaction has an uncommitted version of the row. */
  predicate RowLocked(s: State, jti: Jti, except: set<Pid>) {
    exists q :: q in s.procs && q !in except && jti in s.procs[q].writes
  }

  // ---------------------------------------------------------------- statements

  function RowsOf(db: Tables, user: UserId): set<Jti> {
    set j | j in db.tokens && db.tokens[j].user == user
  }

  function RowsOfFamily(db: Tables, user: UserId, family: Family): set<Jti> {
    set j | j in db.tokens && db.tokens[j].user == user && db.tokens[j].family == family
  }

  function FamiliesOf(db: Tables, user: UserId): set<Family> {
    set f | f in db.families && db.families[f].user == user
  }

  /** Rows the multi-row statement of `task` matches in the committed tables. */
  function Matching(db: Tables, task: Task): set<Jti> {
    match task
    case Rotate(u, _, f) => RowsOfFamily(db, u, f)
    case Revoke(u, OneFamily(f), _) => RowsOfFamily(db, u, f)
    case Revoke(u, AllFamilies, _) => RowsOf(db, u)
    case Change(u, _) => RowsOf(db, u)
  }

  /** Families those rows can belong to. */
  function Covered(db: Tables, task: Task): set<Family> {
    match task
    case Rotate(_, _, f) => {f}
    case Revoke(_, OneFamily(f), _) => {f}
    case Revoke(u, AllFamilies, _) => FamiliesOf(db, u)
    case Change(u, _) => FamiliesOf(db, u)
  }

  /** Row versions the multi-row statement writes: it re-reads each matched row, skipping deleted ones. */
  function Rewrites(db: Tables, task: Task, rows: set<Jti>): map<Jti, Version> {
    map j | j in rows && j in db.tokens :: if task.Change? then Gone else Put(db.tokens[j].(revoked := true))
  }

  /** The committed tokens after a COMMIT of `writes`. */
  function Merge(tokens: map<Jti, Token>, writes: map<Jti, Version>): map<Jti, Token> {
    map j | j in tokens.Keys + writes.Keys && (j in writes ==> writes[j].Put?) ::
      if j in writes then writes[j].token else tokens[j]
  }

  function EditUsers(users: map<UserId, UserRow>, user: UserId, edit: Edit): map<UserId, UserRow> {
    if user !in users then users
    else match edit
      case SetRole(r) => users[user := users[user].(role := r)]
      case Deactivate => users[user := users[user].(deactivated := true)]
      case Remove => users - {user}
  }

  /** A role patch equal to the stored role leaves the sessions alone. */
  predicate DropsSessions(edit: Edit, row: UserRow) {
    edit.SetRole? ==> edit.role != row.role
  }

  // ---------------------------------------------------------------- transitions

  predicate Open(s: State, pid: Pid) {
    pid in s.procs && !s.procs[pid].phase.Ended?
  }

  /** A revocation is called with a user that exists or has existed, and a family of that user, whether or not any
      of its tokens is left by the time it begins. */
  predicate TaskAllowed(db: Tables, task: Task) {
    match task
    case Rotate(_, _, _) => true
    case Revoke(u, OneFamily(f), a) => a == First && f in FamiliesOf(db, u)
    case Revoke(u, AllFamilies, a) => a == First && u in db.everUsers
    case Change(_, _) => true
  }

  /** Phases from which the multi-row statement starts. */
  predicate AtSnapshot(x: Proc) {
    match x.task
    case Rotate(_, _, _) => x.phase.Found?
    case Revoke(_, _, a) => if a.Unlocked? then x.phase.Opening? else x.phase.Holding?
    case Change(_, edit) => x.phase.Written? && DropsSessions(edit, x.phase.row)
  }

  /** Phases from which COMMIT is issued. */
  predicate AtCommit(x: Proc) {
    match x.task
    case Rotate(_, _, _) =>
      x.phase.Inserted? || x.phase.Presented? || x.phase.Absent? || x.phase.Executed? || x.phase == Holding(None)
    case Revoke(_, _, _) => x.phase.Executed?
    case Change(_, edit) => x.phase.Executed? || (x.phase.Written? && !DropsSessions(edit, x.phase.row))
  }

  predicate Enabled(s: State, a: Action) {
    match a
    case CreateUser(u, _) => u !in s.db.everUsers
    case Reactivate(u) => u in s.db.users && !UserLocked(s, u, {})
    case Login(u, j, f, _) =>
      u in s.db.users && !UserLockedForUpdate(s, u) && j !in s.db.issued && f !in s.db.families
    case RevokeOne(j) => !RowLocked(s, j, {})
    case Cleanup(js) => forall j :: j in js ==> !RowLocked(s, j, {})
    case Begin(p, task) => p !in s.procs && TaskAllowed(s.db, task)
    case Grant(p) =>
      && Open(s, p) && s.procs[p].phase.Opening?
      && !(s.procs[p].task.Revoke? && s.procs[p].task.attempt.Unlocked?)
      && !UserLocked(s, s.procs[p].task.user, {p})
    case RevokePresented(p) =>
      && Open(s, p) && s.procs[p].task.Rotate?
      && s.procs[p].phase.Holding? && s.procs[p].phase.found.Some? && s.procs[p].phase.found.value.deactivated
      && !RowLocked(s, s.procs[p].task.jti, {p})
    case Claim(p) =>
      && Open(s, p) && s.procs[p].task.Rotate?
      && s.procs[p].phase.Holding? && s.procs[p].phase.found.Some? && !s.procs[p].phase.found.value.deactivated
      && (s.procs[p].task.jti in s.db.tokens ==> !RowLocked(s, s.procs[p].task.jti, {p}))
    case Probe(p) => Open(s, p) && s.procs[p].phase.Missed?
    case Insert(p, j) => Open(s, p) && s.procs[p].phase.Claimed? && j !in s.db.issued
    case Write(p) =>
      && Open(s, p) && s.procs[p].task.Change? && s.procs[p].phase.Holding? && s.procs[p].phase.found.Some?
    case Snapshot(p) => Open(s, p) && AtSnapshot(s.procs[p])
    case Execute(p) =>
      && Open(s, p) && s.procs[p].phase.Snapped?
      && forall j :: j in s.procs[p].phase.rows ==> !RowLocked(s, j, {p})
    case Commit(p) => Open(s, p) && AtCommit(s.procs[p])
    case Deadline(p) => Open(s, p)
    case Fail(p) => Open(s, p)
  }

  /** The row the rotation may claim: `jti = $1 AND user_id = $2 AND family = $3`. */
  predicate Presents(db: Tables, task: Task) requires task.Rotate? {
    task.jti in db.tokens && db.tokens[task.jti].user == task.user && db.tokens[task.jti].family == task.family
  }

  function AfterGrant(db: Tables, x: Proc): Proc {
    var row := if x.task.user in db.users then Some(db.users[x.task.user]) else None;
    x.(phase := Holding(row),
       lock := if row.None? then NoLock else if x.task.Change? then ForUpdate else NoKeyUpdate)
  }

  /** UPDATE ... WHERE jti = $1 AND user_id = $2, for a deactivated user. */
  function AfterPresented(db: Tables, x: Proc): Proc requires x.task.Rotate? {
    var j := x.task.jti;
    x.(phase := Presented,
       writes := if j in db.tokens && db.tokens[j].user == x.task.user
                 then map[j := Put(db.tokens[j].(revoked := true))] else map[])
  }

  function AfterClaim(db: Tables, x: Proc): Proc
    requires x.task.Rotate? && x.phase.Holding? && x.phase.found.Some?
  {
    var j := x.task.jti;
    if Presents(db, x.task) && !db.tokens[j].revoked
    then x.(phase := Claimed(x.phase.found.value), writes := map[j := Put(db.tokens[j].(revoked := true))])
    else x.(phase := Missed)
  }

  /** SELECT 1 FROM refresh_tokens for the token whose claim matched nothing. */
  function AfterProbe(db: Tables, x: Proc): Proc {
    x.(phase := if x.task.Rotate? && Presents(db, x.task) then Found else Absent)
  }

  function AfterSnapshot(db: Tables, x: Proc): Proc {
    x.(phase := Snapped(Matching(db, x.task), Covered(db, x.task)))
  }

  function AfterExecute(db: Tables, x: Proc): Proc requires x.phase.Snapped? {
    x.(phase := Executed(x.phase.covered), writes := Rewrites(db, x.task, x.phase.rows))
  }

  function AfterInsert(x: Proc, successor: Jti): Proc requires x.task.Rotate? && x.phase.Claimed? {
    x.(phase := Inserted(x.phase.row, successor),
       writes := x.writes[successor := Put(Token(x.task.user, x.task.family, false))])
  }

  /** Rolling back a revocation attempt moves on to the next one; anything else ends busy. */
  function AfterDeadline(task: Task): Proc {
    match task
    case Revoke(u, scope, First) => Proc(Revoke(u, scope, Unlocked), Opening, NoLock, map[])
    case Revoke(u, scope, Unlocked) => Proc(Revoke(u, scope, Second(false)), Opening, NoLock, map[])
    case Revoke(_, _, Second(ran)) => Proc(task, Ended(if ran then UnlockedOnly else Busy), NoLock, map[])
    case Rotate(_, _, _) => Proc(task, Ended(Busy), NoLock, map[])
    case Change(_, _) => Proc(task, Ended(Failed), NoLock, map[])
  }

  function AfterFailure(task: Task): Proc {
    Proc(task, Ended(Failed), NoLock, map[])
  }

  function AfterCommit(x: Proc): Proc requires AtCommit(x) {
    var next := x.(lock := NoLock, writes := map[]);
    match x.task
    case Rotate(_, _, _) =>
      next.(phase := Ended(if x.phase.Inserted? then Rotated(x.phase.successor)
                           else if x.phase.Executed? then Reuse else Rejected))
    case Revoke(u, scope, attempt) =>
      if attempt.Unlocked? then next.(task := Revoke(u, scope, Second(true)), phase := Opening)
      else next.(phase := Ended(LockedPass(x.phase.covered)))
    case Change(_, _) => next.(phase := Ended(Changed(if x.phase.Executed? then x.phase.covered else {})))
  }

  /** The tables a COMMIT of `x` leaves behind. */
  function CommitTables(db: Tables, x: Proc): Tables {
    var merged := db.(tokens := Merge(db.tokens, x.writes));
    if x.task.Rotate? && x.phase.Inserted? then
      var f := x.task.family;
      var claims := Claims(x.task.user, x.phase.row.username, x.phase.row.role);
      var line := if f in db.families then db.families[f] else Line(x.task.user, []);
      var link := Link(x.phase.successor, Some(x.task.jti), claims);
      merged.(families := db.families[f := line.(links := line.links + [link])],
              recorded := db.recorded + {x.phase.successor})
    else if x.task.Change? then merged.(users := EditUsers(db.users, x.task.user, x.task.edit))
    else merged
  }

  /** INSERT of a first token in a new family; the claims are whatever the login read earlier. */
  function LoginInto(db: Tables, u: UserId, j: Jti, f: Family, claims: Claims): Tables {
    db.(tokens := db.tokens[j := Token(u, f, false)],
        families := db.families[f := Line(u, [Link(j, None, claims)])],
        issued := db.issued + {j},
        recorded := db.recorded + {j})
  }

  function Apply(s: State, a: Action): State requires Enabled(s, a) {
    match a
    case CreateUser(u, row) => s.(db := s.db.(users := s.db.users[u := row], everUsers := s.db.everUsers + {u}))
    case Reactivate(u) => s.(db := s.db.(users := s.db.users[u := s.db.users[u].(deactivated := false)]))
    case Login(u, j, f, claims) =>
      s.(db := LoginInto(s.db, u, j, f, claims))
    case RevokeOne(j) =>
      if j in s.db.tokens then s.(db := s.db.(tokens := s.db.tokens[j := s.db.tokens[j].(revoked := true)])) else s
    case Cleanup(js) => s.(db := s.db.(tokens := s.db.tokens - js))
    case Begin(p, task) => s.(procs := s.procs[p := Proc(task, Opening, NoLock, map[])])
    case Grant(p) => s.(procs := s.procs[p := AfterGrant(s.db, s.procs[p])])
    case RevokePresented(p) => s.(procs := s.procs[p := AfterPresented(s.db, s.procs[p])])
    case Claim(p) => s.(procs := s.procs[p := AfterClaim(s.db, s.procs[p])])
    case Probe(p) => s.(procs := s.procs[p := AfterProbe(s.db, s.procs[p])])
    case Insert(p, j) =>
      if s.procs[p].task.Rotate?
      then State(s.db.(issued := s.db.issued + {j}), s.procs[p := AfterInsert(s.procs[p], j)])
      else s
    case Write(p) =>
      var x := s.procs[p];
      s.(procs := s.procs[p := x.(phase := Written(x.phase.found.value))])
    case Snapshot(p) => s.(procs := s.procs[p := AfterSnapshot(s.db, s.procs[p])])
    case Execute(p) => s.(procs := s.procs[p := AfterExecute(s.db, s.procs[p])])
    case Commit(p) => State(CommitTables(s.db, s.procs[p]), s.procs[p := AfterCommit(s.procs[p])])
    case Deadline(p) => s.(procs := s.procs[p := AfterDeadline(s.procs[p].task)])
    case Fail(p) => s.(procs := s.procs[p := AfterFailure(s.procs[p].task)])
  }

  // ---------------------------------------------------------------- runs

  predicate ValidRun(s: State, run: seq<Action>) decreases |run| {
    run == [] || (Enabled(s, run[0]) && ValidRun(Apply(s, run[0]), run[1..]))
  }

  function Exec(s: State, run: seq<Action>): State
    requires ValidRun(s, run)
    decreases |run|
  {
    if run == [] then s else Exec(Apply(s, run[0]), run[1..])
  }

  ghost predicate Reachable(s: State) {
    exists run: seq<Action> :: ValidRun(INIT, run) && Exec(INIT, run) == s
  }

  // ---------------------------------------------------------------- what is claimed about states

  predicate Live(db: Tables, j: Jti) {
    j in db.tokens && !db.tokens[j].revoked
  }

  /** `x` is not about to commit a live token of `f`. */
  predicate NoLiveWrite(x: Proc, f: Family) {
    forall j :: j in x.writes && x.writes[j].Put? ==> x.writes[j].token.family != f || x.writes[j].token.revoked
  }

  /** No live committed token of `f`, and no open transaction about to commit one. */
  predicate Dead(s: State, f: Family) {
    && f in s.db.families
    && (forall j :: j in s.db.tokens && s.db.tokens[j].family == f ==> s.db.tokens[j].revoked)
    && (forall p :: p in s.procs ==> NoLiveWrite(s.procs[p], f))
  }

  /** Families whose death the recorded outcome of a finished operation asserts. */
  function KilledBy(x: Proc): set<Family> {
    if !x.phase.Ended? then {}
    else match x.phase.outcome
      case LockedPass(fs) => fs
      case Changed(fs) => fs
      case Reuse => if x.task.Rotate? then {x.task.family} else {}
      case _ => {}
  }
}
