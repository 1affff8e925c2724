/**
 The attachment stores that share one root (backend/src/core/services/attachment-store.ts and
 local-attachment-service.ts): the path builders over POSIX path resolution, and the two removers.
 */
module AttachmentPaths {
  import opened Decimals
  import opened Options
  import opened PosixPaths

  function LocalStore(): string { "local" }
  function IconStore(): string { "page-icons" }
  function ModelStore(): string { "client-models" }
  function BaselineStore(): string { "page-baselines" }
  function Media(): string { "media" }
  function Extensions(): seq<string> { ["png", "jpg", "webp", "gif"] }

  /** Entries of the root that are stores of their own, although each is a valid attachment key. */
  function Reserved(): set<string> { {LocalStore(), IconStore(), ModelStore(), BaselineStore()} }

  // ---------------------------------------------------------------- validators

  predicate PageIdChar(c: char) {
    'A' <= c <= 'Z' || 'a' <= c <= 'z' || '0' <= c <= '9' || c == '_' || c == '-'
  }

  predicate ValidPageId(id: string) {
    id != "" && forall i :: 0 <= i < |id| ==> PageIdChar(id[i])
  }

  lemma PageIdSegment(id: string)
    requires ValidPageId(id)
    ensures Segment(id)
  {
    assert id[0] != '.';
  }

  /** The cache's filename rule. */
  predicate Storable(filename: string) {
    var base := Basename(filename);
    '\\' !in filename && base != "" && '\0' !in base && base[0] != '.'
  }

  /** The local store's filename rule: it caps the length instead of rejecting NUL. */
  predicate StorableLocally(filename: string) {
    var base := Basename(filename);
    '\\' !in filename && base != "" && base[0] != '.' && |base| <= 255
  }

  predicate LowerHex(c: char) {
    '0' <= c <= '9' || 'a' <= c <= 'f'
  }

  predicate AnyHex(c: char) {
    LowerHex(c) || 'A' <= c <= 'F'
  }

  predicate Uuid(s: string) {
    && |s| == 36
    && (forall i :: 0 <= i < 36 ==> if i in {8, 13, 18, 23} then s[i] == '-' else AnyHex(s[i]))
    && '1' <= s[14] <= '8'
    && s[19] in "89abAB"
  }

  predicate HexGroup(s: string, n: nat) {
    |s| == n && forall i :: 0 <= i < n ==> AnyHex(s[i])
  }

  /** A version-and-variant UUID is five groups of hexadecimal digits. */
  ghost predicate FiveGroups(s: string) {
    exists a, b, c, d, e ::
      && HexGroup(a, 8) && HexGroup(b, 4) && HexGroup(c, 4) && HexGroup(d, 4) && HexGroup(e, 12)
      && '1' <= c[0] <= '8' && d[0] in {'8', '9', 'a', 'b', 'A', 'B'}
      && s == a + "-" + b + "-" + c + "-" + d + "-" + e
  }

  lemma UuidExactly(s: string)
    ensures Uuid(s) <==> FiveGroups(s)
  {
    if Uuid(s) {
      var a, b, c, d, e := s[..8], s[9..13], s[14..18], s[19..23], s[24..];
      UuidGroups(s);
      assert s == a + "-" + b + "-" + c + "-" + d + "-" + e;
    }
  }

  lemma UuidGroups(s: string)
    requires Uuid(s)
    ensures HexGroup(s[..8], 8) && HexGroup(s[9..13], 4) && HexGroup(s[14..18], 4) && HexGroup(s[19..23], 4)
    ensures HexGroup(s[24..], 12)
  {
  }

  predicate Sha256(s: string) {
    |s| == 64 && forall i :: 0 <= i < 64 ==> LowerHex(s[i])
  }

  lemma DecimalSegment(n: nat)
    ensures Segment(Decimal(n))
  {
    assert Decimal(n)[0] != '.';
  }

  // ---------------------------------------------------------------- path builders (None: the call throws)

  function AttachmentDir(root: Path, pageId: string): Option<Path> {
    if !ValidPageId(pageId) then None
    else
      var dir := Resolve(root, pageId);
      if StartsUnder(root, dir) then Some(dir) else None
  }

  function CachedAttachmentPath(root: Path, pageId: string, filename: string): Option<Path> {
    var dir := AttachmentDir(root, pageId);
    if dir.None? || !Storable(filename) then None
    else
      var p := Resolve(dir.value, Basename(filename));
      if StartsUnder(root, p) then Some(p) else None
  }

  function LocalPageDir(root: Path, pageId: nat): Option<Path> {
    var dir := Resolve(Resolve(root, LocalStore()), Decimal(pageId));
    if StartsUnder(root, dir) || dir == root then Some(dir) else None
  }

  function LocalStorePath(root: Path, pageId: int, key: string): Option<Path> {
    if pageId <= 0 || !StorableLocally(key) then None
    else
      var dir := LocalPageDir(root, pageId);
      if dir.None? then None
      else
        var p := Resolve(dir.value, key);
        if StartsUnder(dir.value, p) then Some(p) else None
  }

  function BaselineMediaPath(root: Path, baselineId: string, attemptId: string, mediaId: string): Option<Path> {
    if !Sha256(mediaId) || !Uuid(baselineId) || !Uuid(attemptId) then None
    else
      var store := Resolve(root, BaselineStore());
      var p := Resolve(Resolve(store, baselineId), attemptId);
      if StartsUnder(store, p) then Some(Resolve(Resolve(p, Media()), mediaId)) else None
  }

  function PageIconPath(root: Path, pageId: int, sha: string, extension: string): Option<Path> {
    if pageId <= 0 || !Sha256(sha) || extension !in Extensions() then None
    else
      var dir := Resolve(Resolve(root, IconStore()), Decimal(pageId));
      if StartsUnder(root, dir) then Some(Resolve(dir, sha + "." + extension)) else None
  }

  // ---------------------------------------------------------------- where each builder lands

  lemma StoreNames()
    ensures Segment(LocalStore()) && Segment(IconStore()) && Segment(ModelStore()) && Segment(BaselineStore())
    ensures Segment(Media()) && |Reserved()| == 4
    ensures forall e :: e in Extensions() ==> NoSlash(e)
  {
    assert LocalStore()[0] == 'l' && IconStore()[5] == 'i' && ModelStore()[0] == 'c' && BaselineStore()[5] == 'b';
    assert LocalStore() != IconStore() && LocalStore() != BaselineStore() && LocalStore() != ModelStore();
    assert IconStore() != BaselineStore() && IconStore() != ModelStore() && BaselineStore() != ModelStore();
    var rest := {IconStore(), ModelStore(), BaselineStore()};
    assert Reserved() == {LocalStore()} + rest;
  }

  lemma CachedShape(root: Path, pageId: string, filename: string)
    requires Proper(root)
    ensures CachedAttachmentPath(root, pageId, filename) ==
      if root != [] && ValidPageId(pageId) && Storable(filename) then Some(root + [pageId, Basename(filename)]) else None
  {
    if ValidPageId(pageId) {
      PageIdSegment(pageId);
      ResolveSegment(root, pageId);
      StartsUnderMeans(root, root + [pageId]);
      if Storable(filename) {
        ResolveSegment(root + [pageId], Basename(filename));
        StartsUnderMeans(root, root + [pageId] + [Basename(filename)]);
        assert root + [pageId] + [Basename(filename)] == root + [pageId, Basename(filename)];
      }
    }
  }

  lemma LocalDirShape(root: Path, pageId: nat)
    requires Proper(root)
    ensures LocalPageDir(root, pageId) == if root != [] then Some(root + [LocalStore(), Decimal(pageId)]) else None
  {
    StoreNames();
    DecimalSegment(pageId);
    ResolvePair(root, LocalStore(), Decimal(pageId));
    hide LocalStore; hide Resolve; hide StartsUnder; hide Decimal;
    StartsUnderMeans(root, root + [LocalStore(), Decimal(pageId)]);
  }

  /** Any accepted key stays strictly inside its page's directory; a plain filename lands directly in it. */
  lemma LocalShape(root: Path, pageId: int, key: string)
    requires Proper(root)
    ensures var r := LocalStorePath(root, pageId, key);
      && (r.Some? ==> (
          && pageId > 0 && root != [] && Proper(r.value)
          && |root| + 2 < |r.value| && root + [LocalStore(), Decimal(pageId)] <= r.value))
      && (Basename(key) == key ==>
          r == if root != [] && pageId > 0 && StorableLocally(key)
            then Some(root + [LocalStore(), Decimal(pageId), key]) else None)
  {
    hide LocalStore;
    if pageId > 0 && StorableLocally(key) {
      LocalDirShape(root, pageId);
      if root != [] {
        var dir := root + [LocalStore(), Decimal(pageId)];
        StoreNames();
        DecimalSegment(pageId);
        ProperPair(root, LocalStore(), Decimal(pageId));
        hide Decimal; hide Resolve; hide LocalPageDir; hide StartsUnder;
        ResolveProper(dir, key);
        StartsUnderMeans(dir, Resolve(dir, key));
        if Basename(key) == key {
          ResolveSegment(dir, key);
          assert dir + [key] == root + [LocalStore(), Decimal(pageId), key];
        }
      }
    }
  }

  lemma HexSegments(baselineId: string, attemptId: string, mediaId: string)
    requires Uuid(baselineId) && Uuid(attemptId) && Sha256(mediaId)
    ensures Segment(baselineId) && Segment(attemptId) && Segment(mediaId)
  {
    assert baselineId[0] != '.' && attemptId[0] != '.' && mediaId[0] != '.';
  }

  lemma BaselineAttempt(root: Path, baselineId: string, attemptId: string)
    requires Proper(root) && Segment(baselineId) && Segment(attemptId)
    ensures var store, attempt := Resolve(root, BaselineStore()), root + [BaselineStore(), baselineId, attemptId];
      && Resolve(Resolve(store, baselineId), attemptId) == attempt && StartsUnder(store, attempt) && Proper(attempt)
  {
    hide BaselineStore;
    StoreNames();
    var store := root + [BaselineStore()];
    ResolveSegment(root, BaselineStore());
    ProperPair(store, baselineId, attemptId);
    hide Resolve; hide StartsUnder; hide Segment; hide Proper;
    ResolvePair(store, baselineId, attemptId);
    StartsUnderMeans(store, store + [baselineId, attemptId]);
    assert store + [baselineId, attemptId] == root + [BaselineStore(), baselineId, attemptId];
  }

  lemma BaselineShape(root: Path, baselineId: string, attemptId: string, mediaId: string)
    requires Proper(root)
    ensures BaselineMediaPath(root, baselineId, attemptId, mediaId) ==
      if Sha256(mediaId) && Uuid(baselineId) && Uuid(attemptId)
      then Some(root + [BaselineStore(), baselineId, attemptId, Media(), mediaId]) else None
  {
    hide BaselineStore; hide Media;
    StoreNames();
    if Sha256(mediaId) && Uuid(baselineId) && Uuid(attemptId) {
      HexSegments(baselineId, attemptId, mediaId);
      hide Uuid; hide Sha256; hide Resolve; hide StartsUnder; hide Segment; hide Proper;
      BaselineAttempt(root, baselineId, attemptId);
      var attempt := root + [BaselineStore(), baselineId, attemptId];
      ResolvePair(attempt, Media(), mediaId);
      JoinFive(root, BaselineStore(), baselineId, attemptId, Media(), mediaId);
    }
  }

  lemma JoinFive(root: Path, v: string, w: string, x: string, y: string, z: string)
    ensures root + [v, w, x] + [y, z] == root + [v, w, x, y, z]
  {
  }

  lemma IconSegment(sha: string, extension: string)
    requires Sha256(sha) && extension in Extensions()
    ensures Segment(sha + "." + extension)
  {
    StoreNames();
    hide Extensions;
    var name := sha + "." + extension;
    assert forall i :: 0 <= i < 64 ==> name[i] == sha[i];
    assert forall i :: 65 <= i < |name| ==> name[i] == extension[i - 65];
    assert name[64] == '.';
  }

  lemma IconShape(root: Path, pageId: int, sha: string, extension: string)
    requires Proper(root)
    ensures PageIconPath(root, pageId, sha, extension) ==
      if root != [] && pageId > 0 && Sha256(sha) && extension in Extensions()
      then Some(root + [IconStore(), Decimal(pageId), sha + "." + extension]) else None
  {
    hide IconStore; hide Extensions;
    StoreNames();
    if pageId > 0 && Sha256(sha) && extension in Extensions() {
      IconSegment(sha, extension);
      DecimalSegment(pageId);
      ProperPair(root, IconStore(), Decimal(pageId));
      hide Sha256; hide Resolve; hide StartsUnder; hide Decimal; hide Segment; hide Proper;
      var dir := root + [IconStore(), Decimal(pageId)];
      ResolvePair(root, IconStore(), Decimal(pageId));
      StartsUnderMeans(root, dir);
      ResolveSegment(dir, sha + "." + extension);
      assert dir + [sha + "." + extension] == root + [IconStore(), Decimal(pageId), sha + "." + extension];
    }
  }

  // ---------------------------------------------------------------- the stores together

  datatype Request =
    | Cached(key: string, filename: string)
    | Local(pageId: int, name: string)
    | Baseline(baselineId: string, attemptId: string, mediaId: string)
    | Icon(page: int, sha: string, extension: string)

  function PathOf(root: Path, r: Request): Option<Path> {
    match r
    case Cached(k, f) => CachedAttachmentPath(root, k, f)
    case Local(n, f) => LocalStorePath(root, n, f)
    case Baseline(b, a, m) => BaselineMediaPath(root, b, a, m)
    case Icon(n, s, e) => PageIconPath(root, n, s, e)
  }

  /** What isDirectChildKey asks of a filename before either store is consulted. */
  predicate Direct(r: Request) {
    match r
    case Cached(_, f) => Basename(f) == f
    case Local(_, f) => Basename(f) == f
    case _ => true
  }

  lemma BasenameSegment(root: Path, r: Request)
    requires Proper(root) && PathOf(root, r).Some? && r.Cached?
    ensures Segment(Basename(r.filename))
  {
  }

  /** The first segment below the root, and how deep below the root the file is. */
  lemma Placed(root: Path, r: Request)
    requires Proper(root) && PathOf(root, r).Some?
    ensures var p := PathOf(root, r).value;
      && Proper(p) && root <= p
      && match r
         case Cached(k, _) => |p| == |root| + 2 && p[|root|] == k
         case Local(_, _) => |p| > |root| + 2 && p[|root|] == LocalStore()
         case Baseline(_, _, _) => |p| == |root| + 5 && p[|root|] == BaselineStore()
         case Icon(_, _, _) => |p| == |root| + 3 && p[|root|] == IconStore()
  {
    hide CachedAttachmentPath; hide LocalStorePath; hide BaselineMediaPath; hide PageIconPath; hide Segment;
    hide Basename; hide Storable; hide Sha256; hide Uuid; hide ValidPageId; hide Decimal;
    if r.Cached? { BasenameSegment(root, r); }
    match r
    case Cached(k, f) => CachedShape(root, k, f); PageIdSegment(k);
    case Local(n, f) => LocalShape(root, n, f);
    case Baseline(b, a, m) => BaselineShape(root, b, a, m); HexSegments(b, a, m); StoreNames();
    case Icon(n, s, e) => IconShape(root, n, s, e); IconSegment(s, e); DecimalSegment(n); StoreNames();
  }

  /** Whatever the inputs, a path that is handed out is strictly inside the root, and passes the string check
      except where the root is "/" itself (which only the baseline builder then still accepts). */
  lemma Contained(root: Path, r: Request)
    requires Proper(root) && PathOf(root, r).Some?
    ensures root <= PathOf(root, r).value && |root| < |PathOf(root, r).value|
    ensures root != [] ==> StartsUnder(root, PathOf(root, r).value)
    ensures root == [] ==> r.Baseline?
  {
    Placed(root, r);
    StartsUnderMeans(root, PathOf(root, r).value);
    match r
    case Cached(k, f) => CachedShape(root, k, f);
    case Local(n, f) => LocalShape(root, n, f);
    case Baseline(_, _, _) =>
    case Icon(n, s, e) => IconShape(root, n, s, e);
  }

  /** Paths of different stores never coincide, not even for keys that are not plain filenames. */
  lemma Disjoint(root: Path, q: Request, r: Request)
    requires Proper(root) && PathOf(root, q).Some? && PathOf(root, r).Some?
    requires Text(PathOf(root, q).value) == Text(PathOf(root, r).value)
    ensures q.Cached? == r.Cached? && q.Local? == r.Local? && q.Baseline? == r.Baseline? && q.Icon? == r.Icon?
  {
    Placed(root, q);
    Placed(root, r);
    TextInjective(PathOf(root, q).value, PathOf(root, r).value);
  }

  /** Plain filenames name exactly one file: the same path string means the same request. */
  lemma Injective(root: Path, q: Request, r: Request)
    requires Proper(root) && PathOf(root, q).Some? && PathOf(root, r).Some? && Direct(q) && Direct(r)
    ensures Text(PathOf(root, q).value) == Text(PathOf(root, r).value) <==> q == r
  {
    if Text(PathOf(root, q).value) == Text(PathOf(root, r).value) {
      Disjoint(root, q, r);
      Placed(root, q);
      Placed(root, r);
      TextInjective(PathOf(root, q).value, PathOf(root, r).value);
      SamePath(root, q, r);
    }
  }

  lemma SamePath(root: Path, q: Request, r: Request)
    requires Proper(root) && PathOf(root, q).Some? && PathOf(root, q) == PathOf(root, r) && Direct(q) && Direct(r)
    requires q.Cached? == r.Cached? && q.Local? == r.Local? && q.Baseline? == r.Baseline? && q.Icon? == r.Icon?
    ensures q == r
  {
    match q
    case Cached(_, _) => SameCached(root, q, r);
    case Local(_, _) => SameLocal(root, q, r);
    case Baseline(_, _, _) => SameBaseline(root, q, r);
    case Icon(_, _, _) => SameIcon(root, q, r);
  }

  lemma TailEqual(root: Path, s: Path, t: Path)
    requires root + s == root + t
    ensures s == t
  {
    assert (root + s)[|root|..] == s && (root + t)[|root|..] == t;
  }

  lemma SameCached(root: Path, q: Request, r: Request)
    requires Proper(root) && PathOf(root, q).Some? && PathOf(root, q) == PathOf(root, r) && Direct(q) && Direct(r)
    requires q.Cached? && r.Cached?
    ensures q == r
  {
    CachedShape(root, q.key, q.filename);
    CachedShape(root, r.key, r.filename);
    TailEqual(root, [q.key, q.filename], [r.key, r.filename]);
  }

  lemma SameLocal(root: Path, q: Request, r: Request)
    requires Proper(root) && PathOf(root, q).Some? && PathOf(root, q) == PathOf(root, r) && Direct(q) && Direct(r)
    requires q.Local? && r.Local?
    ensures q == r
  {
    LocalShape(root, q.pageId, q.name);
    LocalShape(root, r.pageId, r.name);
    TailEqual(root, [LocalStore(), Decimal(q.pageId), q.name], [LocalStore(), Decimal(r.pageId), r.name]);
    hide LocalStorePath; hide Decimal; hide LocalStore;
    DecimalInjective(q.pageId, r.pageId);
  }

  lemma SameBaseline(root: Path, q: Request, r: Request)
    requires Proper(root) && PathOf(root, q).Some? && PathOf(root, q) == PathOf(root, r)
    requires q.Baseline? && r.Baseline?
    ensures q == r
  {
    BaselineShape(root, q.baselineId, q.attemptId, q.mediaId);
    BaselineShape(root, r.baselineId, r.attemptId, r.mediaId);
    hide BaselineMediaPath; hide Uuid; hide Sha256; hide BaselineStore; hide Media;
    TailEqual(root, [BaselineStore(), q.baselineId, q.attemptId, Media(), q.mediaId],
              [BaselineStore(), r.baselineId, r.attemptId, Media(), r.mediaId]);
    SameFive(BaselineStore(), q.baselineId, q.attemptId, Media(), q.mediaId, r.baselineId, r.attemptId, r.mediaId);
  }

  lemma SameFive(v: string, w: string, x: string, y: string, z: string, w': string, x': string, z': string)
    requires [v, w, x, y, z] == [v, w', x', y, z']
    ensures w == w' && x == x' && z == z'
  {
    var s, t := [v, w, x, y, z], [v, w', x', y, z'];
    assert s[1] == t[1] && s[2] == t[2] && s[4] == t[4];
  }

  lemma SameIcon(root: Path, q: Request, r: Request)
    requires Proper(root) && PathOf(root, q).Some? && PathOf(root, q) == PathOf(root, r)
    requires q.Icon? && r.Icon?
    ensures q == r
  {
    IconShape(root, q.page, q.sha, q.extension);
    IconShape(root, r.page, r.sha, r.extension);
    assert |q.sha| == 64 == |r.sha|;
    hide PageIconPath; hide Decimal; hide Sha256; hide IconStore; hide Extensions;
    var f, g := q.sha + "." + q.extension, r.sha + "." + r.extension;
    TailEqual(root, [IconStore(), Decimal(q.page), f], [IconStore(), Decimal(r.page), g]);
    SameThree(IconStore(), Decimal(q.page), f, Decimal(r.page), g);
    SameName(q.sha, q.extension, r.sha, r.extension);
    DecimalInjective(q.page, r.page);
  }

  lemma SameName(s: string, e: string, s': string, e': string)
    requires |s| == |s'| && s + "." + e == s' + "." + e'
    ensures s == s' && e == e'
  {
    var f, g := s + "." + e, s' + "." + e';
    assert s == f[..|s|] == g[..|s|] == s' && e == f[|s| + 1..] == g[|s| + 1..] == e';
  }

  lemma SameThree(x: string, y: string, z: string, y': string, z': string)
    requires [x, y, z] == [x, y', z']
    ensures y == y' && z == z'
  {
    var s, t := [x, y, z], [x, y', z'];
    assert s[1] == t[1] && s[2] == t[2];
  }

  /** The cache builder collapses a filename to its basename, and that is all it forgets. */
  lemma CacheCollapses(root: Path, k: string, f: string, k': string, f': string)
    requires Proper(root) && CachedAttachmentPath(root, k, f).Some? && CachedAttachmentPath(root, k', f').Some?
    ensures CachedAttachmentPath(root, k, f) == CachedAttachmentPath(root, k', f') <==>
      k == k' && Basename(f) == Basename(f')
  {
    CachedShape(root, k, f);
    CachedShape(root, k', f');
    var p, q := root + [k, Basename(f)], root + [k', Basename(f')];
    assert p[|root|] == k && p[|root| + 1] == Basename(f) && q[|root|] == k' && q[|root| + 1] == Basename(f');
  }

  /** Without its callers' check the local builder gives no accepted key a path of its own: the same key with a
      slash behind it is accepted too, and lands on the same path. */
  lemma LocalKeysCollapse(root: Path, pageId: int, key: string)
    requires LocalStorePath(root, pageId, key).Some?
    ensures LocalStorePath(root, pageId, key + "/") == LocalStorePath(root, pageId, key)
    ensures key + "/" != key && Basename(key + "/") != key + "/"
  {
    assert Split("") == [""];
    assert key != "" by {
      assert WithoutTrailingSlashes("") == "";
    }
    TrailingSlash(LocalPageDir(root, pageId).value, key);
    assert (key + "/")[|key|] in key + "/";
    hide Resolve; hide Basename; hide LocalPageDir; hide StartsUnder;
    assert '\\' !in key + "/";
  }

  /** Which is exactly what that check repairs: among all keys of a page that give one path, at most one is a
      plain filename, and every key that is none shares its path with another key. */
  lemma LocalKeyUnique(root: Path, pageId: int, key: string, other: string)
    requires Proper(root) && LocalStorePath(root, pageId, key).Some?
    requires LocalStorePath(root, pageId, other) == LocalStorePath(root, pageId, key)
    requires Basename(key) == key && Basename(other) == other
    ensures other == key
  {
    SameLocal(root, Local(pageId, key), Local(pageId, other));
  }

  // ---------------------------------------------------------------- removal

  predicate Below(dir: Path, p: Path) {
    dir <= p
  }

  /** A key that is not a reserved name has no path of another store, and no model weight, below its directory. */
  lemma ReservedOutside(root: Path, pageId: string, r: Request)
    requires Proper(root) && pageId !in Reserved() && PathOf(root, r).Some? && !r.Cached?
    ensures !Below(root + [pageId], PathOf(root, r).value)
  {
    Placed(root, r);
    var p := PathOf(root, r).value;
    assert (root + [pageId])[|root|] == pageId;
  }

  lemma Apart(root: Path, a: string, b: string, p: Path)
    requires a != b && Below(root + [a], p)
    ensures !Below(root + [b], p)
  {
    assert (root + [a])[|root|] == a && (root + [b])[|root|] == b;
  }

  class FileTree {
    const root: Path
    var files: map<Path, seq<bv8>>

    constructor (root: Path)
      ensures this.root == root && files == map[]
    {
      this.root, files := root, map[];
    }

    /** The recursive removal takes exactly the files below one key's directory, and refuses the reserved
        stores; no path of another store, and nothing below the model weights, can go with it. */
    method RemoveCachedAttachmentDirectory(pageId: string) returns (ok: bool)
      requires Proper(root)
      modifies this`files
      ensures ok <==> root != [] && ValidPageId(pageId) && pageId !in Reserved()
      ensures !ok ==> files == old(files)
      ensures ok ==> forall p :: p in files <==> p in old(files) && !Below(root + [pageId], p)
      ensures forall p :: p in files ==> files[p] == old(files)[p]
      ensures forall r: Request :: !r.Cached? && PathOf(root, r).Some? && PathOf(root, r).value in old(files) ==>
        PathOf(root, r).value in files
      ensures forall p :: p in old(files) && Below(root + [ModelStore()], p) ==> p in files
    {
      if pageId in Reserved() { return false; }
      var dir := AttachmentDir(root, pageId);
      if ValidPageId(pageId) {
        PageIdSegment(pageId);
        ResolveSegment(root, pageId);
        StartsUnderMeans(root, root + [pageId]);
      }
      if dir.None? { return false; }
      files := map p | p in files && !Below(dir.value, p) :: files[p];
      ok := true;
      forall r: Request | !r.Cached? && PathOf(root, r).Some? && PathOf(root, r).value in old(files)
        ensures PathOf(root, r).value in files
      {
        ReservedOutside(root, pageId, r);
      }
      forall p | p in old(files) && Below(root + [ModelStore()], p) ensures p in files {
        assert !Below(root + [pageId], p) by { Apart(root, ModelStore(), pageId, p); }
      }
    }

    /** The single-file removal never guesses: anything but a plain filename is refused, and otherwise exactly
        the named file goes. */
    method RemoveCachedAttachmentFile(pageId: string, filename: string) returns (ok: bool)
      requires Proper(root)
      modifies this`files
      ensures ok <==> Basename(filename) == filename && PathOf(root, Cached(pageId, filename)).Some?
      ensures files == if ok then old(files) - {PathOf(root, Cached(pageId, filename)).value} else old(files)
      ensures forall r: Request :: Direct(r) && r != Cached(pageId, filename) && PathOf(root, r).Some? ==>
        (PathOf(root, r).value in old(files) ==> PathOf(root, r).value in files)
    {
      if Basename(filename) != filename { return false; }
      var p := CachedAttachmentPath(root, pageId, filename);
      if p.None? { return false; }
      files := files - {p.value};
      ok := true;
      forall r: Request | Direct(r) && r != Cached(pageId, filename) && PathOf(root, r).Some?
        && PathOf(root, r).value in old(files)
        ensures PathOf(root, r).value in files
      {
        Injective(root, r, Cached(pageId, filename));
      }
    }
  }
}
