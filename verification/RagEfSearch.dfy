/**
 resolveRagEfSearch (backend/src/core/services/admin-settings-service.ts): a cached asynchronous reader
 whose module state can change across its await, because an admin save does not wait for readers.
 */
module RagEfSearch {
  import opened Decimals
  import opened Options
  import opened Trimming

  const DEFAULT := 100
  const MIN := 1
  const MAX := 1000

  datatype Source = Row | Env | Default

  datatype Resolution = Resolution(value: int, source: Source)

  datatype Entry = Entry(resolution: Resolution, expiresAt: int)

  /** The module's two variables. */
  datatype Memory = Memory(cache: Option<Entry>, writtenRow: Option<int>)

  /** What the SELECT came back with: it threw, or it returned a first row's setting_value or no row. */
  datatype Select = Threw | Returned(row: Option<string>)

  // ---------------------------------------------------------------- parsing

  /** A usable row: whole, at least 1, capped at 1000. */
  function FromRow(row: Option<string>): (n: Option<int>)
    ensures n.Some? ==> MIN <= n.value <= MAX
  {
    var raw := Trim(if row.Some? then row.value else "", JsSpace);
    if raw != "" && AllDigits(raw) && Number(raw) >= MIN then Some(if Number(raw) < MAX then Number(raw) else MAX) else None
  }

  /** RAG_EF_SEARCH, trimmed by its caller: out of range is unusable, not capped. */
  function FromEnv(env: Option<string>): (n: Option<int>)
    ensures n.Some? ==> MIN <= n.value <= MAX
  {
    var raw := Trim(if env.Some? then env.value else "", JsSpace);
    if raw != "" && AllDigits(raw) && MIN <= Number(raw) <= MAX then Some(Number(raw)) else None
  }

  /** The text is the decimal of `n`: white space around it and leading zeros aside. */
  ghost predicate Writes(text: string, n: nat) {
    exists front, zeros, back ::
      AllSpace(front, JsSpace) && Zeros(zeros) && AllSpace(back, JsSpace) && text == front + (zeros + Decimal(n)) + back
  }

  /** Trimmed digits are how a number is written. */
  lemma WritesMeans(text: string, n: nat)
    ensures Writes(text, n) <==>
      var raw := Trim(text, JsSpace); raw != "" && AllDigits(raw) && Number(raw) == n
  {
    var raw := Trim(text, JsSpace);
    if Writes(text, n) {
      WritesTrims(text, n);
      hide Trim; hide Number; hide Writes; hide AllDigits;
    }
    if raw != "" && AllDigits(raw) && Number(raw) == n {
      var front, back := TrimSplits(text, JsSpace);
      var zeros := DigitsForm(raw);
      hide Trim; hide Number; hide Decimal;
    }
  }

  lemma WritesTrims(text: string, n: nat)
    requires Writes(text, n)
    ensures var raw := Trim(text, JsSpace); raw != "" && AllDigits(raw) && Number(raw) == n
  {
    hide Trim; hide Number; hide Decimal;
    var front, zeros, back :|
      AllSpace(front, JsSpace) && Zeros(zeros) && AllSpace(back, JsSpace) && text == front + (zeros + Decimal(n)) + back;
    NumberDecimal(zeros, n);
    TrimOf(front, zeros + Decimal(n), back, JsSpace);
  }

  /** What the reader makes of a row: exactly the positive decimals are usable, and a large one is capped. */
  lemma FromRowExactly(text: string, v: int)
    ensures FromRow(Some(text)) == Some(v) <==> exists n: nat :: Writes(text, n) && n >= 1 && v == if n < 1000 then n else 1000
    ensures FromRow(None) == None
  {
    var raw := Trim(text, JsSpace);
    if raw != "" && AllDigits(raw) { WritesMeans(text, Number(raw)); }
    if n: nat :| Writes(text, n) && n >= 1 && v == if n < 1000 then n else 1000 { WritesMeans(text, n); }
    assert Trim("", JsSpace) == "";
  }

  /** What it makes of the variable: exactly the decimals from 1 to 1000 are usable, as they stand. */
  lemma FromEnvExactly(text: string, v: nat)
    ensures FromEnv(Some(text)) == Some(v) <==> Writes(text, v) && 1 <= v <= 1000
    ensures FromEnv(None) == None
  {
    WritesMeans(text, v);
    assert Trim("", JsSpace) == "";
  }

  // ---------------------------------------------------------------- what each step does to the memory

  /** The synchronous start: a fresh cache entry answers at once. */
  function Hit(m: Memory, now: int): Option<Resolution> {
    if m.cache.Some? && now < m.cache.value.expiresAt then Some(m.cache.value.resolution) else None
  }

  /** What a completed read resolves to, given the memory as it is after the await. */
  function Conclude(m: Memory, read: Select, env: Option<string>): Resolution {
    var row := if read.Returned? then FromRow(read.row) else None;
    if read.Threw? && m.cache.Some? then m.cache.value.resolution
    else if row.Some? then Resolution(row.value, Row)
    else if m.writtenRow.Some? then Resolution(m.writtenRow.value, Row)
    else if FromEnv(env).Some? then Resolution(FromEnv(env).value, Env)
    else Resolution(DEFAULT, Default)
  }

  function AfterFinish(m: Memory, read: Select, env: Option<string>, expiresAt: int): Memory {
    m.(cache := Some(Entry(Conclude(m, read, env), expiresAt)))
  }

  const FORGOTTEN := Memory(None, None)

  /** A save the route would accept; anything else is only a forget. */
  predicate Saveable(value: Option<int>) {
    value.Some? && MIN <= value.value <= MAX
  }

  function AfterSave(value: Option<int>): Memory {
    if Saveable(value) then FORGOTTEN.(writtenRow := value) else FORGOTTEN
  }

  /** The number a read came back with, if it came back with a usable one. */
  function UsableRow(read: Select): Option<int> {
    if read.Returned? then FromRow(read.row) else None
  }

  /** What a process goes by that knows of no row: the variable if it is usable, else the constant. */
  function Bootstrap(env: Option<string>): Resolution {
    if FromEnv(env).Some? then Resolution(FromEnv(env).value, Env) else Resolution(DEFAULT, Default)
  }

  // ---------------------------------------------------------------- the module

  class Resolver {
    const env: Option<string>
    const ttl: nat
    var cache: Option<Entry>
    var writtenRow: Option<int>

    function Mem(): Memory
      reads this
    {
      Memory(cache, writtenRow)
    }

    constructor (env: Option<string>, ttl: nat)
      ensures this.env == env && this.ttl == ttl && Mem() == FORGOTTEN
    {
      this.env := env;
      this.ttl := ttl;
      cache := None;
      writtenRow := None;
    }

    /** Up to the await: the answer if the cache is fresh. */
    method StartResolve(now: int) returns (hit: Option<Resolution>)
      ensures hit == Hit(Mem(), now)
    {
      var cachedBeforeRead := cache;
      hit := None;
      if cachedBeforeRead.Some? && now < cachedBeforeRead.value.expiresAt {
        hit := Some(cachedBeforeRead.value.resolution);
      }
    }

    /** From the await on. */
    method FinishResolve(read: Select, now: int) returns (r: Resolution)
      modifies this
      ensures r == Conclude(old(Mem()), read, env)
      ensures UsableRow(read).Some? ==> r == Resolution(UsableRow(read).value, Row)
      ensures read.Threw? && old(cache).Some? ==> r == old(cache).value.resolution
      ensures r.source != Row && !(read.Threw? && old(cache).Some?) ==> old(writtenRow).None? && r == Bootstrap(env)
      ensures Mem() == AfterFinish(old(Mem()), read, env, now + ttl)
    {
      var resolved := DEFAULT;
      var source := Default;
      var readFailed := false;
      if read.Returned? {
        var n := FromRow(read.row);
        if n.Some? {
          resolved := n.value;
          source := Row;
        }
      } else {
        readFailed := true;
      }
      var lastResolved := cache;
      if readFailed && lastResolved.Some? {
        resolved := lastResolved.value.resolution.value;
        source := lastResolved.value.resolution.source;
      } else if source != Row && writtenRow.Some? {
        resolved := writtenRow.value;
        source := Row;
      } else if source != Row {
        var fromEnv := FromEnv(env);
        if fromEnv.Some? {
          resolved := fromEnv.value;
          source := Env;
        }
      }
      cache := Some(Entry(Resolution(resolved, source), now + ttl));
      r := Resolution(resolved, source);
    }

    /** invalidateRagEfSearchCache */
    method Invalidate()
      modifies this
      ensures Mem() == FORGOTTEN
    {
      cache := None;
      writtenRow := None;
    }

    /** noteRagEfSearchRowSaved; None stands for undefined and for every non-integer. */
    method NoteRowSaved(value: Option<int>)
      modifies this
      ensures Mem() == AfterSave(value)
    {
      Invalidate();
      if value.None? { return; }
      if value.value < MIN || value.value > MAX { return; }
      writtenRow := value;
    }
  }

  // ---------------------------------------------------------------- runs, with any number of resolves in flight

  datatype Event =
    | Start(id: nat, now: int)
    | Finish(id: nat, read: Select, expiresAt: int)
    | Save(value: Option<int>)
    | Forget

  datatype World = World(memory: Memory, inFlight: set<nat>)

  predicate Enabled(w: World, e: Event) {
    match e
    case Start(id, _) => id !in w.inFlight
    case Finish(id, _, _) => id in w.inFlight
    case _ => true
  }

  function Next(w: World, e: Event, env: Option<string>): World {
    match e
    case Start(id, now) => if Hit(w.memory, now).Some? then w else w.(inFlight := w.inFlight + {id})
    case Finish(id, read, expiresAt) =>
      World(AfterFinish(w.memory, read, env, expiresAt), w.inFlight - {id})
    case Save(value) => w.(memory := AfterSave(value))
    case Forget => w.(memory := FORGOTTEN)
  }

  /** The resolution an event delivers to its caller, if it completes a resolve. */
  function Delivers(w: World, e: Event, env: Option<string>): Option<Resolution> {
    match e
    case Start(_, now) => Hit(w.memory, now)
    case Finish(_, read, _) => Some(Conclude(w.memory, read, env))
    case _ => None
  }

  predicate ValidRun(w: World, run: seq<Event>, env: Option<string>) decreases |run| {
    run == [] || (Enabled(w, run[0]) && ValidRun(Next(w, run[0], env), run[1..], env))
  }

  /** Everything the run delivers satisfies `ok`. */
  predicate AllDelivered(w: World, run: seq<Event>, env: Option<string>, ok: Resolution -> bool) decreases |run| {
    run == [] ||
    (&& (Delivers(w, run[0], env).Some? ==> ok(Delivers(w, run[0], env).value))
     && AllDelivered(Next(w, run[0], env), run[1..], env, ok))
  }

  predicate IsRow(r: Resolution) { r.source == Row }

  predicate InRange(r: Resolution) { MIN <= r.value <= MAX }

  /** Every value in memory is in range. */
  predicate Sane(m: Memory) {
    (m.cache.Some? ==> InRange(m.cache.value.resolution)) && (m.writtenRow.Some? ==> MIN <= m.writtenRow.value <= MAX)
  }

  /** A row is evidenced, and nothing cached says otherwise. */
  predicate Evidenced(m: Memory) {
    m.writtenRow.Some? && (m.cache.Some? ==> m.cache.value.resolution.source == Row)
  }

  /** Nothing in the run forgets the saved row. */
  predicate NoForget(run: seq<Event>) {
    forall i :: 0 <= i < |run| ==> !run[i].Forget? && (run[i].Save? ==> Saveable(run[i].value))
  }

  /** Every resolve that ever completes delivers a legal ef_search. */
  lemma {:induction false} AlwaysInRange(w: World, run: seq<Event>, env: Option<string>)
    requires Sane(w.memory) && ValidRun(w, run, env)
    ensures AllDelivered(w, run, env, InRange)
    decreases |run|
  {
    if run != [] {
      AlwaysInRange(Next(w, run[0], env), run[1..], env);
    }
  }

  lemma {:induction false} EvidenceHolds(w: World, run: seq<Event>, env: Option<string>)
    requires Evidenced(w.memory) && ValidRun(w, run, env) && NoForget(run)
    ensures AllDelivered(w, run, env, IsRow)
    decreases |run|
  {
    if run != [] {
      assert !run[0].Forget? && (run[0].Save? ==> Saveable(run[0].value));
      forall i | 0 <= i < |run[1..]| ensures !run[1..][i].Forget? && (run[1..][i].Save? ==> Saveable(run[1..][i].value)) {
        assert run[1..][i] == run[i + 1];
      }
      EvidenceHolds(Next(w, run[0], env), run[1..], env);
    }
  }

  /** After a valid save in this process every resolve that completes, whenever it started and whatever its
      read did, reports the row, until the next forget.  The retired variable never comes back. */
  lemma SavedMeansRow(w: World, value: int, run: seq<Event>, env: Option<string>)
    requires MIN <= value <= MAX && ValidRun(Next(w, Save(Some(value)), env), run, env) && NoForget(run)
    ensures AllDelivered(Next(w, Save(Some(value)), env), run, env, IsRow)
  {
    EvidenceHolds(Next(w, Save(Some(value)), env), run, env);
  }

  /** A read that tells nothing against `value`: it threw, saw no usable row, or saw that very row. */
  predicate Consistent(read: Select, value: int) {
    read.Threw? || FromRow(read.row) == None || FromRow(read.row) == Some(value)
  }

  /** No later save, and no read from a snapshot that still held an older row. */
  predicate OnlyConsistent(run: seq<Event>, value: int) {
    forall i :: 0 <= i < |run| ==>
      !run[i].Forget? && !run[i].Save? && (run[i].Finish? ==> Consistent(run[i].read, value))
  }

  predicate Holds(m: Memory, value: int) {
    m.writtenRow == Some(value) && (m.cache.Some? ==> m.cache.value.resolution == Resolution(value, Row))
  }

  lemma {:induction false} ValueHolds(w: World, value: int, run: seq<Event>, env: Option<string>)
    requires Holds(w.memory, value) && ValidRun(w, run, env) && OnlyConsistent(run, value)
    ensures AllDelivered(w, run, env, r => r == Resolution(value, Row))
    decreases |run|
  {
    if run != [] {
      assert !run[0].Forget? && !run[0].Save? && (run[0].Finish? ==> Consistent(run[0].read, value));
      forall i | 0 <= i < |run[1..]|
        ensures !run[1..][i].Forget? && !run[1..][i].Save? && (run[1..][i].Finish? ==> Consistent(run[1..][i].read, value))
      {
        assert run[1..][i] == run[i + 1];
      }
      ValueHolds(Next(w, run[0], env), value, run[1..], env);
    }
  }

  /** Failures and pre-INSERT snapshots deliver exactly the saved number: every resolve completing after the
      save returns it, as long as no read returns an older row. */
  lemma SavedValueStands(w: World, value: int, run: seq<Event>, env: Option<string>)
    requires MIN <= value <= MAX && ValidRun(Next(w, Save(Some(value)), env), run, env) && OnlyConsistent(run, value)
    ensures AllDelivered(Next(w, Save(Some(value)), env), run, env, r => r == Resolution(value, Row))
  {
    ValueHolds(Next(w, Save(Some(value)), env), value, run, env);
  }

  /** Starts, expiries and reads that throw; no save, no forget and no read that returns. */
  predicate OnlyFailures(run: seq<Event>) {
    forall i :: 0 <= i < |run| ==> run[i].Start? || (run[i].Finish? && run[i].read.Threw?)
  }

  lemma {:induction false} CachedThroughFailures(w: World, run: seq<Event>, env: Option<string>, held: Resolution)
    requires ValidRun(w, run, env) && OnlyFailures(run)
    requires w.memory.cache.Some? && w.memory.cache.value.resolution == held
    ensures AllDelivered(w, run, env, r => r == held)
    decreases |run|
  {
    if run != [] {
      assert run[0].Start? || (run[0].Finish? && run[0].read.Threw?);
      assert forall i :: 0 <= i < |run[1..]| ==> run[1..][i] == run[i + 1];
      CachedThroughFailures(Next(w, run[0], env), run[1..], env, held);
    }
  }

  /** A failed read holds the last resolution: once a read has completed, however it went, every resolve that
      completes delivers that same value and source through any number of expiries and failing reads, until the
      next save, forget or read that returns.  So a row once read is never given up for the variable. */
  lemma HeldThroughFailures(w: World, e: Event, run: seq<Event>, env: Option<string>)
    requires Enabled(w, e) && e.Finish? && ValidRun(Next(w, e, env), run, env) && OnlyFailures(run)
    ensures var held := Delivers(w, e, env).value; AllDelivered(Next(w, e, env), run, env, r => r == held)
  {
    CachedThroughFailures(Next(w, e, env), run, env, Delivers(w, e, env).value);
  }

  /** A row that is read is used, whatever the process remembers, and is held through failing reads and expiries. */
  lemma ReadRowIsUsed(w: World, id: nat, read: Select, expiresAt: int, run: seq<Event>, env: Option<string>)
    requires id in w.inFlight && UsableRow(read).Some?
    requires var t := Next(w, Finish(id, read, expiresAt), env); ValidRun(t, run, env) && OnlyFailures(run)
    ensures var e, r := Finish(id, read, expiresAt), Resolution(UsableRow(read).value, Row);
      Delivers(w, e, env) == Some(r) && AllDelivered(Next(w, e, env), run, env, x => x == r)
  {
    HeldThroughFailures(w, Finish(id, read, expiresAt), run, env);
  }

  /** Nothing in the run tells of a row. */
  predicate NoRowKnown(run: seq<Event>) {
    forall i :: 0 <= i < |run| ==>
      (run[i].Save? ==> !Saveable(run[i].value)) && (run[i].Finish? ==> UsableRow(run[i].read).None?)
  }

  lemma {:induction false} BootstrapHolds(w: World, run: seq<Event>, env: Option<string>)
    requires w.memory.writtenRow.None? && (w.memory.cache.Some? ==> w.memory.cache.value.resolution == Bootstrap(env))
    requires ValidRun(w, run, env) && NoRowKnown(run)
    ensures AllDelivered(w, run, env, r => r == Bootstrap(env))
    decreases |run|
  {
    if run != [] {
      assert (run[0].Save? ==> !Saveable(run[0].value)) && (run[0].Finish? ==> UsableRow(run[0].read).None?);
      forall i | 0 <= i < |run[1..]|
        ensures (run[1..][i].Save? ==> !Saveable(run[1..][i].value))
                && (run[1..][i].Finish? ==> UsableRow(run[1..][i].read).None?)
      {
        assert run[1..][i] == run[i + 1];
      }
      BootstrapHolds(Next(w, run[0], env), run[1..], env);
    }
  }

  /** A process that has read no usable row and saved none delivers exactly the variable's number, else 100. */
  lemma NoRowMeansBootstrap(run: seq<Event>, env: Option<string>)
    requires ValidRun(World(FORGOTTEN, {}), run, env) && NoRowKnown(run)
    ensures AllDelivered(World(FORGOTTEN, {}), run, env, r => r == Bootstrap(env))
  {
    BootstrapHolds(World(FORGOTTEN, {}), run, env);
  }

  /** Conversely: in any run, what is delivered as other than a row is the variable's number or the constant. */
  lemma {:induction false} OnlyBootstrapIsNoRow(w: World, run: seq<Event>, env: Option<string>)
    requires ValidRun(w, run, env)
    requires w.memory.cache.Some? && w.memory.cache.value.resolution.source != Row ==>
      w.memory.cache.value.resolution == Bootstrap(env)
    ensures AllDelivered(w, run, env, (r: Resolution) => r.source == Row || r == Bootstrap(env))
    decreases |run|
  {
    if run != [] {
      OnlyBootstrapIsNoRow(Next(w, run[0], env), run[1..], env);
    }
  }

  /** A completed read delivers such a thing only if it returned no usable row and none had been written, or if it
      threw and that very resolution was held. */
  lemma NoRowOnlyWithoutEvidence(w: World, id: nat, read: Select, expiresAt: int, env: Option<string>)
    requires Delivers(w, Finish(id, read, expiresAt), env).Some?
    requires Delivers(w, Finish(id, read, expiresAt), env).value.source != Row
    ensures UsableRow(read).None?
    ensures var m, r := w.memory, Delivers(w, Finish(id, read, expiresAt), env).value;
      if read.Threw? && m.cache.Some? then r == m.cache.value.resolution else m.writtenRow.None? && r == Bootstrap(env)
  {
  }

  /** What a read delivered is answered without a read until it expires; from then on a read is started. */
  lemma CachedUntilExpiry(w: World, e: Event, id: nat, now: int, env: Option<string>)
    requires Enabled(w, e) && e.Finish? && id !in Next(w, e, env).inFlight
    ensures var t := Next(w, e, env);
      if now < e.expiresAt then Delivers(t, Start(id, now), env) == Delivers(w, e, env) && Next(t, Start(id, now), env) == t
      else Delivers(t, Start(id, now), env) == None && id in Next(t, Start(id, now), env).inFlight
  {
  }

  /** The documented open race: a read whose snapshot held the pre-save row re-caches the older number. */
  lemma OlderRowWins()
    ensures var w := Next(World(FORGOTTEN, {7}), Save(Some(200)), None);
      Enabled(w, Finish(7, Returned(Some("150")), 0))
      && Delivers(w, Finish(7, Returned(Some("150")), 0), None) == Some(Resolution(150, Row))
  {
    var s := "150";
    TrimOf("", s, "", JsSpace);
    assert "" + s + "" == s;
    assert s[..2] == "15" && s[..2][..1] == "1" && s[..2][..1][..0] == "";
    assert Number("1") == 1 && Number("15") == 15 && Number("150") == 150;
  }
}
