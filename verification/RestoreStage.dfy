/**
 stageAndValidateBackup (backend/src/core/services/backup-restore.ts): read the archive members one by one into
 a staging directory, then check the manifest against what was staged.  Hashing, manifest parsing and the
 "newer than this binary" comparison are parameters; the path rules of backup-stream.ts are not.
 */
module RestoreStage {
  import opened Options
  import opened PosixPaths

  type Bytes = string

  const MANIFEST := "manifest.json"
  const DUMP := "database.dump"
  const ATTACHMENTS := "attachments/"

  datatype Member = Member(name: string, bytes: Bytes)

  datatype Manifest = Manifest(
    checksums: map<string, string>, databaseSize: nat, fingerprint: string, schemaMigration: string)

  /** What staging a member returns. */
  datatype StagedMember = StagedMember(checksum: string, size: nat)

  /** The stage directory: the dump, and the files below the attachments directory by their path in it. */
  datatype Stage = Stage(dump: Option<Bytes>, attachments: map<Path, Bytes>)

  datatype Error =
    | UnsafePath(name: string)
    | Duplicate(name: string)
    | Unknown(name: string)
    | NotAnAttachment(name: string)
    | Occupied(name: string)
    | ManifestTooLarge
    | MissingDump
    | MissingManifest
    | InvalidManifest
    | ChecksumSet(missing: set<string>, extra: set<string>)
    | ChecksumMismatch(name: string)
    | DumpSize
    | Fingerprint
    | NewerMigration

  datatype Result = Ok(stage: Stage, manifest: Manifest) | Err(error: Error)

  /** What the host contributes. */
  datatype Host = Host(
    digest: Bytes -> string, parse: Bytes -> Option<Manifest>,
    fingerprint: string, force: bool, tooNew: string -> bool, maxManifest: nat)

  // ---------------------------------------------------------------- where a member is staged

  /** assertSafeArchivePath: parent and empty segments are refused, "." segments are not. */
  predicate SafeArchivePath(name: string) {
    name != "" && Clear(name) && name[0] != '/' && Descends(Split(name))
  }

  predicate IsAttachment(name: string) {
    ATTACHMENTS <= name
  }

  /** resolveAttachmentDest, relative to the attachments directory.  A first segment that merely starts with
      two dots is taken for a way out, and refused with it. */
  function Destination(name: string): Option<Path> {
    if !SafeArchivePath(name) || !IsAttachment(name) || |name| <= |ATTACHMENTS| then None
    else
      var d := Walk([], Split(name[|ATTACHMENTS|..]));
      if d != [] && ".." <= d[0] then None else Some(d)
  }

  /** The relative path is what resolving the member's name against any attachments directory adds to it. */
  lemma DestinationResolves(root: Path, name: string)
    requires Proper(root) && Destination(name).Some?
    ensures Resolve(root, name[|ATTACHMENTS|..]) == root + Destination(name).value
    ensures Proper(Destination(name).value)
  {
    var rel := name[|ATTACHMENTS|..];
    SafeRest(name);
    WalkDown(root, [], Split(rel));
    assert root + [] == root;
    WalkProper([], Split(rel));
  }

  predicate Descends(segments: seq<string>) {
    forall i :: 0 <= i < |segments| ==> segments[i] != "" && segments[i] != ".."
  }

  predicate Clear(s: string) {
    '\0' !in s && '\\' !in s
  }

  /** What follows "attachments/" in a safe name is no absolute path and has no parent segment either. */
  lemma SafeRest(name: string)
    requires SafeArchivePath(name) && IsAttachment(name) && |name| > |ATTACHMENTS|
    ensures var rel := name[|ATTACHMENTS|..]; rel[0] != '/' && Descends(Split(rel))
  {
    var front, rel := ATTACHMENTS[..|ATTACHMENTS| - 1], name[|ATTACHMENTS|..];
    assert ATTACHMENTS == front + "/";
    assert name == ATTACHMENTS + rel;
    RestDescends(front, rel);
  }

  lemma RestDescends(front: string, rel: string)
    requires Descends(Split(front + "/" + rel)) && rel != ""
    ensures rel[0] != '/' && Descends(Split(rel))
  {
    SplitConcat(front, rel);
    LaterDescends(Split(front), Split(rel));
    StartsInside(rel);
  }

  lemma LaterDescends(s: seq<string>, t: seq<string>)
    requires Descends(s + t)
    ensures Descends(t)
  {
    assert forall i :: 0 <= i < |t| ==> (s + t)[|s| + i] == t[i];
  }

  lemma StartsInside(rel: string)
    requires Descends(Split(rel)) && rel != ""
    ensures rel[0] != '/'
  {
    assert Split(rel)[0] != "";
  }

  lemma SplitSegment(s: string)
    requires NoSlash(s)
    ensures Split(s) == [s]
  {
    NoSlashAt(s);
  }

  lemma Lengthen(a: string, b: string, c: string)
    ensures a + ("/" + b + c) == a + "/" + b + c
  {
  }

  lemma {:induction false} SplitSlashed(a: string, p: Path)
    requires Proper(p)
    ensures Split(a + Slashed(p)) == Split(a) + p
    decreases |p|
  {
    if p == [] {
      assert a + Slashed(p) == a && Split(a) + p == Split(a);
    } else {
      assert Segment(p[0]) && Proper(p[1..]);
      SplitSegment(p[0]);
      SplitConcat(a, p[0]);
      SplitSlashed(a + "/" + p[0], p[1..]);
      Lengthen(a, p[0], Slashed(p[1..]));
      assert Slashed(p) == "/" + p[0] + Slashed(p[1..]);
      hide Split; hide Slashed; hide Proper; hide Segment;
      assert Split(a) + [p[0]] + p[1..] == Split(a) + p;
    }
  }

  lemma {:induction false} WalkSegments(p: Path, q: Path)
    requires Proper(q)
    ensures Walk(p, q) == p + q
    decreases |q|
  {
    if q != [] {
      assert Segment(q[0]) && Proper(q[1..]);
      WalkSegments(p + [q[0]], q[1..]);
      assert p + [q[0]] + q[1..] == p + q;
    } else {
      assert p + q == p;
    }
  }

  /** Every file below the attachments directory is restored to the place it was backed up from, unless its name holds
      a NUL or a backslash or its first segment starts with two dots. */
  lemma RestoredToItsPlace(p: Path)
    requires Proper(p) && p != []
    ensures var name := "attachments" + Slashed(p);
      Destination(name) == if Clear(name) && !(".." <= p[0]) then Some(p) else None
  {
    var rel := p[0] + Slashed(p[1..]);
    RelativeName(p);
    hide Split; hide Walk; hide Slashed; hide Proper; hide Destination;
    if Clear(rel) && !(".." <= p[0]) {
      DestinationOf(rel, p);
    } else {
      NoDestination(rel, p);
    }
  }

  lemma RelativeName(p: Path)
    requires Proper(p) && p != []
    ensures var rel := p[0] + Slashed(p[1..]);
      && "attachments" + Slashed(p) == ATTACHMENTS + rel && rel != "" && Split(rel) == p && Walk([], p) == p && Descends(p)
      && (Clear("attachments" + Slashed(p)) <==> Clear(rel))
  {
    var rel := p[0] + Slashed(p[1..]);
    RelativeSplit(p);
    SegmentsDescend(p);
    SlashedOf(p);
    hide *;
    BelowAttachments(rel);
  }

  lemma RelativeSplit(p: Path)
    requires Proper(p) && p != []
    ensures var rel := p[0] + Slashed(p[1..]); rel != "" && Split(rel) == p && Walk([], p) == p
  {
    assert Segment(p[0]) && Proper(p[1..]);
    SplitSegment(p[0]);
    SplitSlashed(p[0], p[1..]);
    WalkSegments([], p);
    assert p[0] != "";
    hide *;
    assert [p[0]] + p[1..] == p && [] + p == p;
  }

  lemma BelowAttachments(rel: string)
    ensures "attachments" + ("/" + rel) == ATTACHMENTS + rel
    ensures Clear(ATTACHMENTS + rel) <==> Clear(rel)
  {
    assert ATTACHMENTS == "attachments" + "/";
  }

  lemma NoDestination(rel: string, p: Path)
    requires rel != "" && Split(rel) == p && Walk([], p) == p && p != [] && (!Clear(rel) || ".." <= p[0])
    ensures Destination(ATTACHMENTS + rel).None?
  {
    hide Split; hide Walk;
    BelowAttachments(rel);
    assert (ATTACHMENTS + rel)[|ATTACHMENTS|..] == rel;
  }

  lemma SlashedOf(p: Path)
    requires p != []
    ensures Slashed(p) == "/" + (p[0] + Slashed(p[1..]))
  {
  }

  lemma SegmentsDescend(p: Path)
    requires Proper(p)
    ensures Descends(p)
  {
  }

  /** An empty or parent segment anywhere in the name is refused. */
  lemma DestinationRefuses(front: string, segment: string, back: string)
    requires segment == "" || segment == ".."
    ensures Destination(front + "/" + segment + "/" + back).None?
    ensures Destination(front + "/" + segment).None? && Destination(segment + "/" + back).None?
  {
    NoSlashAt(segment);
    assert Split(segment) == [segment];
    SplitConcat(front, segment);
    SplitConcat(segment, back);
    SplitConcat(front + "/" + segment, back);
    hide Split;
    assert (Split(front) + [segment])[|Split(front)|] == segment;
    assert (Split(front) + [segment] + Split(back))[|Split(front)|] == segment;
    assert ([segment] + Split(back))[0] == segment;
  }

  /** Two files cannot have one path, and a file cannot be a directory on the way to another. */
  predicate Clash(d: Path, e: Path) {
    d <= e || e <= d
  }

  // ---------------------------------------------------------------- acceptable archives

  /** A member that can be read on its own: "attachments/." and its like name the directory itself. */
  predicate Known(h: Host, m: Member) {
    || (m.name == MANIFEST && |m.bytes| <= h.maxManifest)
    || m.name == DUMP
    || (Destination(m.name).Some? && Destination(m.name).value != [])
  }

  predicate DistinctNames(ms: seq<Member>) {
    forall i, j :: 0 <= i < j < |ms| ==> ms[i].name != ms[j].name
  }

  predicate ApartOnDisk(ms: seq<Member>) {
    forall i, j :: 0 <= i < j < |ms| && Destination(ms[i].name).Some? && Destination(ms[j].name).Some? ==>
      !Clash(Destination(ms[i].name).value, Destination(ms[j].name).value)
  }

  /** Distinct, known members, no two of which get in each other's way on disk. */
  predicate Sound(h: Host, ms: seq<Member>) {
    && DistinctNames(ms) && ApartOnDisk(ms)
    && forall i :: 0 <= i < |ms| ==> Known(h, ms[i])
  }

  function Names(ms: seq<Member>): set<string> {
    set i | 0 <= i < |ms| :: ms[i].name
  }

  function Destinations(ms: seq<Member>): set<Path> {
    set i | 0 <= i < |ms| && Destination(ms[i].name).Some? :: Destination(ms[i].name).value
  }

  /** The manifest member of an archive, parsed. */
  predicate Declares(h: Host, ms: seq<Member>, manifest: Manifest) {
    exists i :: 0 <= i < |ms| && ms[i].name == MANIFEST && h.parse(ms[i].bytes) == Some(manifest)
  }

  /** The manifest's checksums name exactly the other members and match each of them. */
  predicate Attests(h: Host, manifest: Manifest, ms: seq<Member>) {
    && manifest.checksums.Keys == Names(ms) - {MANIFEST}
    && (forall i :: 0 <= i < |ms| && ms[i].name != MANIFEST ==>
      manifest.checksums[ms[i].name] == h.digest(ms[i].bytes))
    && (forall i :: 0 <= i < |ms| && ms[i].name == DUMP ==> |ms[i].bytes| == manifest.databaseSize)
  }

  predicate Admits(h: Host, manifest: Manifest) {
    && (manifest.fingerprint == h.fingerprint || h.force)
    && !h.tooNew(manifest.schemaMigration)
  }

  ghost predicate Acceptable(h: Host, ms: seq<Member>, manifest: Manifest) {
    && Sound(h, ms) && DUMP in Names(ms)
    && Declares(h, ms, manifest) && Attests(h, manifest, ms) && Admits(h, manifest)
  }

  /** The attachments directory holds exactly the attachments, each at its destination. */
  predicate HoldsAttachments(attachments: map<Path, Bytes>, ms: seq<Member>) {
    && attachments.Keys == Destinations(ms)
    && forall i :: 0 <= i < |ms| && Destination(ms[i].name).Some? ==>
         attachments[Destination(ms[i].name).value] == ms[i].bytes
  }

  /** The stage holds exactly the bytes of the non-manifest members, each at its own place. */
  predicate Holds(stage: Stage, ms: seq<Member>) {
    && (stage.dump.Some? <==> DUMP in Names(ms))
    && (forall i :: 0 <= i < |ms| && ms[i].name == DUMP ==> stage.dump == Some(ms[i].bytes))
    && HoldsAttachments(stage.attachments, ms)
  }

  /** `staged` has the digest and size of every non-manifest member. */
  predicate Recorded(h: Host, staged: map<string, StagedMember>, ms: seq<Member>) {
    && staged.Keys == Names(ms) - {MANIFEST}
    && forall i :: 0 <= i < |ms| && ms[i].name != MANIFEST ==>
         staged[ms[i].name] == StagedMember(h.digest(ms[i].bytes), |ms[i].bytes|)
  }

  function SeqSet(s: seq<string>): set<string> {
    set x | x in s
  }

  predicate RawManifest(ms: seq<Member>, raw: Option<Bytes>) {
    match raw
    case None => MANIFEST !in Names(ms)
    case Some(bytes) => exists i :: 0 <= i < |ms| && ms[i].name == MANIFEST && ms[i].bytes == bytes
  }

  /** The variables of the archive loop. */
  datatype Progress = Progress(
    stage: Stage, staged: map<string, StagedMember>, attachmentNames: seq<string>, manifestRaw: Option<Bytes>)

  /** What they say once the members `ms` have been read. */
  predicate Read(h: Host, ms: seq<Member>, r: Progress) {
    && Holds(r.stage, ms) && Recorded(h, r.staged, ms)
    && SeqSet(r.attachmentNames) == Names(ms) - {MANIFEST, DUMP} && RawManifest(ms, r.manifestRaw)
  }

  // ---------------------------------------------------------------- one member more

  lemma FixedNames()
    ensures MANIFEST != DUMP && Destination(MANIFEST).None? && Destination(DUMP).None?
  {
    assert MANIFEST[0] != DUMP[0] && MANIFEST[0] != ATTACHMENTS[0] && DUMP[0] != ATTACHMENTS[0];
  }

  lemma NamesGrow(ms: seq<Member>, m: Member)
    ensures Names(ms + [m]) == Names(ms) + {m.name}
  {
    var all := ms + [m];
    forall n | n in Names(ms) ensures n in Names(all) {
      var i :| 0 <= i < |ms| && ms[i].name == n;
      assert all[i].name == n;
    }
    assert all[|ms|].name == m.name;
  }

  lemma DestinationsGrow(ms: seq<Member>, m: Member)
    ensures Destinations(ms + [m]) ==
      Destinations(ms) + (if Destination(m.name).Some? then {Destination(m.name).value} else {})
  {
    var all := ms + [m];
    hide Destination;
    forall d | d in Destinations(ms) ensures d in Destinations(all) {
      var i :| 0 <= i < |ms| && Destination(ms[i].name).Some? && Destination(ms[i].name).value == d;
      assert all[i] == ms[i];
    }
    assert all[|ms|] == m;
  }

  lemma ApartGrows(ms: seq<Member>, m: Member)
    ensures ApartOnDisk(ms + [m]) <==>
      && ApartOnDisk(ms)
      && (Destination(m.name).Some? ==> forall d :: d in Destinations(ms) ==> !Clash(d, Destination(m.name).value))
  {
    var all := ms + [m];
    hide Destination; hide Clash;
    assert all[|ms|] == m && forall i :: 0 <= i < |ms| ==> all[i] == ms[i];
    if ApartOnDisk(all) && Destination(m.name).Some? {
      forall d | d in Destinations(ms) ensures !Clash(d, Destination(m.name).value) {
        var i :| 0 <= i < |ms| && Destination(ms[i].name).Some? && Destination(ms[i].name).value == d;
        assert all[i].name == ms[i].name && all[|ms|].name == m.name;
      }
    }
  }

  lemma SoundGrows(h: Host, ms: seq<Member>, m: Member)
    ensures Sound(h, ms + [m]) <==>
      && Sound(h, ms) && m.name !in Names(ms) && Known(h, m)
      && (Destination(m.name).Some? ==> forall d :: d in Destinations(ms) ==> !Clash(d, Destination(m.name).value))
  {
    var all := ms + [m];
    ApartGrows(ms, m);
    hide Known; hide ApartOnDisk; hide Destination; hide Clash; hide Destinations;
    assert all[|ms|] == m && forall i :: 0 <= i < |ms| ==> all[i] == ms[i];
    if m.name in Names(ms) {
      var i :| 0 <= i < |ms| && ms[i].name == m.name;
      assert all[i].name == all[|ms|].name;
    }
  }

  lemma SoundPrefix(h: Host, ms: seq<Member>, k: nat)
    requires k <= |ms| && Sound(h, ms)
    ensures Sound(h, ms[..k])
  {
    hide Known; hide Destination; hide Clash;
  }

  lemma NothingRead(h: Host)
    ensures Sound(h, []) && Read(h, [], Progress(Stage(None, map[]), map[], [], None)) && Names([]) == {}
  {
  }

  lemma ReadManifest(h: Host, ms: seq<Member>, m: Member, r: Progress)
    requires Read(h, ms, r) && m.name == MANIFEST
    ensures Read(h, ms + [m], r.(manifestRaw := Some(m.bytes)))
  {
    FixedNames();
    NamesGrow(ms, m);
    DestinationsGrow(ms, m);
    hide Destination; hide Destinations;
    var all := ms + [m];
    assert all[|ms|] == m && forall i :: 0 <= i < |ms| ==> all[i] == ms[i];
  }

  /** A staged member is recorded under its name. */
  lemma RecordMember(h: Host, ms: seq<Member>, m: Member, staged: map<string, StagedMember>)
    requires Recorded(h, staged, ms) && m.name != MANIFEST && m.name !in Names(ms)
    ensures Recorded(h, staged[m.name := StagedMember(h.digest(m.bytes), |m.bytes|)], ms + [m])
  {
    NamesGrow(ms, m);
    var all := ms + [m];
    forall i | 0 <= i < |all| && all[i].name != MANIFEST && i < |ms| ensures all[i].name != m.name {
      assert ms[i].name in Names(ms);
    }
  }

  lemma KeepRaw(ms: seq<Member>, m: Member, raw: Option<Bytes>)
    requires RawManifest(ms, raw) && m.name != MANIFEST
    ensures RawManifest(ms + [m], raw)
  {
    NamesGrow(ms, m);
    if raw.Some? {
      var i :| 0 <= i < |ms| && ms[i].name == MANIFEST && ms[i].bytes == raw.value;
      assert (ms + [m])[i] == ms[i];
    }
  }

  lemma NotAttached(ms: seq<Member>, m: Member, attachments: map<Path, Bytes>)
    requires HoldsAttachments(attachments, ms) && Destination(m.name).None?
    ensures HoldsAttachments(attachments, ms + [m])
  {
    DestinationsGrow(ms, m);
    hide Destination;
    var all := ms + [m];
    assert all[|ms|] == m && forall i :: 0 <= i < |ms| ==> all[i] == ms[i];
  }

  lemma HoldDump(ms: seq<Member>, m: Member, stage: Stage)
    requires Holds(stage, ms) && m.name == DUMP && DUMP !in Names(ms)
    ensures Holds(stage.(dump := Some(m.bytes)), ms + [m])
  {
    FixedNames();
    NamesGrow(ms, m);
    NotAttached(ms, m, stage.attachments);
    hide Destination; hide HoldsAttachments;
    var all := ms + [m];
    assert all[|ms|] == m && forall i :: 0 <= i < |ms| ==> all[i] == ms[i];
    assert forall i :: 0 <= i < |ms| ==> ms[i].name in Names(ms);
  }

  lemma ReadDump(h: Host, ms: seq<Member>, m: Member, r: Progress)
    requires Read(h, ms, r) && m.name == DUMP && DUMP !in Names(ms)
    ensures Read(h, ms + [m], r.(stage := r.stage.(dump := Some(m.bytes)),
                                 staged := r.staged[DUMP := StagedMember(h.digest(m.bytes), |m.bytes|)]))
  {
    FixedNames();
    HoldDump(ms, m, r.stage);
    RecordMember(h, ms, m, r.staged);
    KeepRaw(ms, m, r.manifestRaw);
    NamesGrow(ms, m);
    hide Destination; hide Holds; hide Recorded; hide RawManifest; hide Names;
  }

  lemma AttachmentAdded(ms: seq<Member>, m: Member, attachments: map<Path, Bytes>)
    requires HoldsAttachments(attachments, ms) && Destination(m.name).Some?
    requires Destination(m.name).value !in Destinations(ms)
    ensures HoldsAttachments(attachments[Destination(m.name).value := m.bytes], ms + [m])
  {
    DestinationsGrow(ms, m);
    hide Destination;
    var all := ms + [m];
    assert all[|ms|] == m && forall i :: 0 <= i < |ms| ==> all[i] == ms[i];
    forall i | 0 <= i < |ms| && Destination(ms[i].name).Some? ensures Destination(ms[i].name).value in Destinations(ms) {
    }
  }

  lemma HoldAttachment(ms: seq<Member>, m: Member, stage: Stage)
    requires Holds(stage, ms) && Destination(m.name).Some?
    requires forall d :: d in Destinations(ms) ==> !Clash(d, Destination(m.name).value)
    ensures Holds(stage.(attachments := stage.attachments[Destination(m.name).value := m.bytes]), ms + [m])
  {
    FixedNames();
    NamesGrow(ms, m);
    assert Destination(m.name).value !in Destinations(ms);
    AttachmentAdded(ms, m, stage.attachments);
    hide Destination; hide HoldsAttachments; hide Destinations;
    var all := ms + [m];
    assert all[|ms|] == m && forall i :: 0 <= i < |ms| ==> all[i] == ms[i];
  }

  lemma ReadAttachment(h: Host, ms: seq<Member>, m: Member, r: Progress)
    requires Read(h, ms, r) && Destination(m.name).Some? && m.name !in Names(ms)
    requires forall d :: d in Destinations(ms) ==> !Clash(d, Destination(m.name).value)
    ensures Read(h, ms + [m], Progress(
      r.stage.(attachments := r.stage.attachments[Destination(m.name).value := m.bytes]),
      r.staged[m.name := StagedMember(h.digest(m.bytes), |m.bytes|)], r.attachmentNames + [m.name], r.manifestRaw))
  {
    FixedNames();
    HoldAttachment(ms, m, r.stage);
    RecordMember(h, ms, m, r.staged);
    KeepRaw(ms, m, r.manifestRaw);
    NamesGrow(ms, m);
    hide Destination; hide Destinations; hide Recorded; hide RawManifest; hide Holds; hide Clash; hide Names;
    assert SeqSet(r.attachmentNames + [m.name]) == SeqSet(r.attachmentNames) + {m.name};
  }

  // ---------------------------------------------------------------- the code

  function First(e: Option<Error>, next: Error): Option<Error> {
    if e.Some? then e else Some(next)
  }

  /** The archive loop.  A duplicate or unknown member is remembered and reported only after the whole archive has
      been read; an unsafe path, an oversized manifest or an occupied place stops the loop at once. */
  method ReadMembers(h: Host, ms: seq<Member>) returns (error: Option<Error>, r: Progress)
    ensures error.None? <==> Sound(h, ms)
    ensures error.None? ==> Read(h, ms, r)
  {
    hide Sound; hide Read; hide Names; hide Destinations; hide Destination; hide Clash;
    var seen: set<string> := {};
    var memberError := None;
    error, r := None, Progress(Stage(None, map[]), map[], [], None);
    assert Sound(h, []) && Read(h, [], r) && Names([]) == {} by { NothingRead(h); }
    for n := 0 to |ms|
      invariant error.None? && seen == Names(ms[..n])
      invariant memberError.None? <==> Sound(h, ms[..n])
      invariant memberError.None? ==> Read(h, ms[..n], r)
    {
      var m := ms[n];
      assert ms[..n + 1] == ms[..n] + [m];
      NamesGrow(ms[..n], m);
      SoundGrows(h, ms[..n], m);
      if Sound(h, ms) { SoundPrefix(h, ms, n + 1); }
      if !SafeArchivePath(m.name) {
        UnsafeUnknown(h, m);
        return Some(UnsafePath(m.name)), r;
      }
      if m.name in seen {
        memberError := First(memberError, Duplicate(m.name));
        assert Names(ms[..n + 1]) == seen;
        continue;
      }
      seen := seen + {m.name};
      if m.name == MANIFEST || m.name == DUMP {
        FixedNames();
        if m.name == MANIFEST && |m.bytes| > h.maxManifest { return Some(ManifestTooLarge), r; }
        if memberError.None? { ReadFixed(h, ms[..n], m, r); }
        r := AfterFixed(h, m, r);
      } else if IsAttachment(m.name) {
        var stop := StageAttachment(m, r.stage);
        if stop.Some? {
          if memberError.None? { ReadDestinations(h, ms[..n], r); }
          return stop, r;
        }
        if memberError.None? {
          ReadDestinations(h, ms[..n], r);
          ReadAttachment(h, ms[..n], m, r);
        }
        r := AfterAttachment(h, m, r);
      } else {
        UnknownMember(h, m);
        memberError := First(memberError, Unknown(m.name));
      }
    }
    assert ms[..|ms|] == ms;
    error := memberError;
  }

  /** The manifest is kept aside, the dump is staged. */
  function AfterFixed(h: Host, m: Member, r: Progress): Progress {
    if m.name == MANIFEST then r.(manifestRaw := Some(m.bytes))
    else r.(stage := r.stage.(dump := Some(m.bytes)),
            staged := r.staged[DUMP := StagedMember(h.digest(m.bytes), |m.bytes|)])
  }

  function AfterAttachment(h: Host, m: Member, r: Progress): Progress
    requires Destination(m.name).Some?
  {
    Progress(r.stage.(attachments := r.stage.attachments[Destination(m.name).value := m.bytes]),
             r.staged[m.name := StagedMember(h.digest(m.bytes), |m.bytes|)], r.attachmentNames + [m.name], r.manifestRaw)
  }

  /** resolveAttachmentDest and the exclusive open: why an attachment cannot be staged, if it cannot. */
  method StageAttachment(m: Member, stage: Stage) returns (stop: Option<Error>)
    ensures stop.None? <==>
      && Destination(m.name).Some? && Destination(m.name).value != []
      && forall d :: d in stage.attachments.Keys ==> !Clash(d, Destination(m.name).value)
  {
    var d := Destination(m.name);
    if d.None? { return Some(NotAnAttachment(m.name)); }
    if d.value == [] || exists e :: e in stage.attachments.Keys && Clash(e, d.value) {
      return Some(Occupied(m.name));
    }
    stop := None;
  }

  lemma ReadFixed(h: Host, ms: seq<Member>, m: Member, r: Progress)
    requires Read(h, ms, r) && m.name !in Names(ms) && (m.name == MANIFEST || m.name == DUMP)
    ensures Read(h, ms + [m], AfterFixed(h, m, r))
  {
    hide Read;
    if m.name == MANIFEST { ReadManifest(h, ms, m, r); } else { ReadDump(h, ms, m, r); }
  }

  lemma ReadDestinations(h: Host, ms: seq<Member>, r: Progress)
    requires Read(h, ms, r)
    ensures r.stage.attachments.Keys == Destinations(ms)
  {
  }

  lemma UnsafeUnknown(h: Host, m: Member)
    requires !SafeArchivePath(m.name)
    ensures !Known(h, m)
  {
    FixedSafe();
  }

  lemma FixedSafe()
    ensures SafeArchivePath(MANIFEST) && SafeArchivePath(DUMP)
  {
    hide SafeArchivePath;
    assert MANIFEST[0] == 'm' && DUMP[0] == 'd';
    PlainSafe(MANIFEST);
    PlainSafe(DUMP);
  }

  lemma PlainSafe(s: string)
    requires s != "" && s != ".." && NoSlash(s) && Clear(s)
    ensures SafeArchivePath(s)
  {
    PlainSplit(s);
  }

  lemma PlainSplit(s: string)
    requires NoSlash(s)
    ensures Split(s) == [s]
  {
    NoSlashAt(s);
  }

  lemma UnknownMember(h: Host, m: Member)
    requires m.name != MANIFEST && m.name != DUMP && !IsAttachment(m.name)
    ensures !Known(h, m)
  {
  }

  function AssertExactChecksumSet(actual: set<string>, expected: set<string>): (r: Option<Error>)
    ensures r.None? <==> actual == expected
    ensures r.Some? ==> r.value.ChecksumSet? && actual + r.value.missing - r.value.extra == expected
  {
    var missing, extra := expected - actual, actual - expected;
    if missing == {} && extra == {} then
      assert actual == expected;
      None
    else
      Some(ChecksumSet(missing, extra))
  }

  /** A backup is accepted exactly when its members can all be staged side by side, its manifest accounts for
      every other member by name and digest, and this host may restore it; the stage then holds exactly them. */
  method StageAndValidateBackup(h: Host, ms: seq<Member>) returns (r: Result)
    ensures r.Ok? <==> exists manifest :: Acceptable(h, ms, manifest)
    ensures r.Ok? ==> Acceptable(h, ms, r.manifest) && Holds(r.stage, ms)
  {
    var error, read := ReadMembers(h, ms);
    if error.Some? { return Err(error.value); }
    if DUMP !in read.staged {
      FixedNames();
      return Err(MissingDump);
    }
    if read.manifestRaw.None? {
      NoManifest(h, ms);
      return Err(MissingManifest);
    }
    OneManifest(h, ms, read.manifestRaw.value);
    hide Declares; hide Sound; hide Attests; hide Admits; hide Names; hide Recorded;
    var parsed := h.parse(read.manifestRaw.value);
    if parsed.None? { return Err(InvalidManifest); }
    var manifest := parsed.value;
    error := CheckManifest(h, ms, read.staged, read.attachmentNames, manifest);
    if error.Some? { return Err(error.value); }
    assert Acceptable(h, ms, manifest);
    r := Ok(read.stage, manifest);
  }

  lemma NoManifest(h: Host, ms: seq<Member>)
    requires MANIFEST !in Names(ms)
    ensures forall manifest :: !Declares(h, ms, manifest)
  {
  }

  /** The checks of the parsed manifest against the stage and the host. */
  method CheckManifest(h: Host, ms: seq<Member>, staged: map<string, StagedMember>, attachmentNames: seq<string>,
                       manifest: Manifest)
    returns (error: Option<Error>)
    requires Recorded(h, staged, ms) && DUMP in staged && SeqSet(attachmentNames) == Names(ms) - {MANIFEST, DUMP}
    ensures error.None? <==> Attests(h, manifest, ms) && Admits(h, manifest)
  {
    hide Recorded; hide Attests; hide Names;
    AttestsStage(h, ms, staged, manifest);
    var expected := {DUMP} + SeqSet(attachmentNames);
    assert expected == staged.Keys by { ExpectedNames(h, ms, staged, attachmentNames); }
    error := AssertExactChecksumSet(manifest.checksums.Keys, expected);
    if error.Some? { return; }
    var names := [DUMP] + attachmentNames;
    assert forall n :: n in names <==> n in expected;
    for k := 0 to |names|
      invariant forall i :: 0 <= i < k ==> staged[names[i]].checksum == manifest.checksums[names[i]]
    {
      assert names[k] in expected;
      if staged[names[k]].checksum != manifest.checksums[names[k]] { return Some(ChecksumMismatch(names[k])); }
    }
    if staged[DUMP].size != manifest.databaseSize { return Some(DumpSize); }
    if manifest.fingerprint != h.fingerprint && !h.force { return Some(Fingerprint); }
    if h.tooNew(manifest.schemaMigration) { return Some(NewerMigration); }
  }

  lemma ExpectedNames(h: Host, ms: seq<Member>, staged: map<string, StagedMember>, names: seq<string>)
    requires Recorded(h, staged, ms) && DUMP in staged && SeqSet(names) == Names(ms) - {MANIFEST, DUMP}
    ensures {DUMP} + SeqSet(names) == staged.Keys
  {
  }

  /** Attesting the archive is attesting what was recorded while staging it. */
  lemma AttestsStage(h: Host, ms: seq<Member>, staged: map<string, StagedMember>, manifest: Manifest)
    requires Recorded(h, staged, ms) && DUMP in staged
    ensures Attests(h, manifest, ms) <==>
      && manifest.checksums.Keys == staged.Keys
      && (forall n :: n in staged ==> manifest.checksums[n] == staged[n].checksum)
      && staged[DUMP].size == manifest.databaseSize
  {
    if Attests(h, manifest, ms) {
      forall n | n in staged ensures manifest.checksums[n] == staged[n].checksum {
        var i :| 0 <= i < |ms| && ms[i].name == n;
      }
      var i :| 0 <= i < |ms| && ms[i].name == DUMP;
    }
  }

  /** Names being distinct, the archive declares what its one manifest parses to and nothing else. */
  lemma OneManifest(h: Host, ms: seq<Member>, raw: Bytes)
    requires DistinctNames(ms)
    requires exists i :: 0 <= i < |ms| && ms[i].name == MANIFEST && ms[i].bytes == raw
    ensures forall manifest :: Declares(h, ms, manifest) <==> h.parse(raw) == Some(manifest)
  {
  }

  /** "." segments pass the path rule, so two different safe names can claim one place; such an archive is
      refused whatever its manifest says. */
  lemma SamePlaceRefused(h: Host, ms: seq<Member>, i: nat, j: nat, manifest: Manifest)
    requires i < j < |ms| && ms[i].name == "attachments/a" && ms[j].name == "attachments/./a"
    ensures Destination(ms[i].name) == Some(["a"]) && Destination(ms[j].name) == Some(["a"])
    ensures !Acceptable(h, ms, manifest)
  {
    DottedNames();
    hide Destination;
    assert Clash(["a"], ["a"]);
  }

  lemma DottedNames()
    ensures Destination("attachments/a") == Some(["a"]) && Destination("attachments/./a") == Some(["a"])
  {
    PlainPlace();
    DottedPlace();
    hide Destination;
    assert ATTACHMENTS + "a" == "attachments/a" && ATTACHMENTS + "./a" == "attachments/./a";
  }

  lemma PlainPlace()
    ensures Destination(ATTACHMENTS + "a") == Some(["a"])
  {
    PlainSplit("a");
    assert Walk([], ["a"]) == Walk(["a"], []);
    hide Split; hide Walk; hide Destination;
    DestinationOf("a", ["a"]);
  }

  lemma DottedPlace()
    ensures Destination(ATTACHMENTS + "./a") == Some(["a"])
  {
    PlainSplit("a");
    PlainSplit(".");
    SplitConcat(".", "a");
    assert "." + "/" + "a" == "./a";
    assert Walk([], [".", "a"]) == Walk([], ["a"]) == Walk(["a"], []);
    hide Split; hide Walk; hide Destination;
    DestinationOf("./a", [".", "a"]);
  }

  lemma DestinationOf(rel: string, segments: seq<string>)
    requires rel != "" && Clear(rel) && Split(rel) == segments && Descends(segments)
    requires var d := Walk([], segments); d != [] && !(".." <= d[0])
    ensures Destination(ATTACHMENTS + rel) == Some(Walk([], segments))
  {
    var front := ATTACHMENTS[..|ATTACHMENTS| - 1];
    assert ATTACHMENTS == front + "/" && NoSlash(front) && Clear(front) && front[0] == 'a';
    JoinedSafe(front, rel);
    hide SafeArchivePath; hide Split; hide Walk;
    assert (ATTACHMENTS + rel)[|ATTACHMENTS|..] == rel;
  }

  lemma JoinedSafe(front: string, rel: string)
    requires front != "" && front != ".." && NoSlash(front) && Clear(front)
    requires Clear(rel) && Descends(Split(rel))
    ensures SafeArchivePath(front + "/" + rel)
  {
    PlainSplit(front);
    SplitConcat(front, rel);
    var name := front + "/" + rel;
    hide Split;
    assert name[0] == front[0] && front[0] in front;
    forall c | c in name ensures c != '\0' && c != '\\' {
      assert c in front || c == '/' || c in rel;
    }
  }
}
