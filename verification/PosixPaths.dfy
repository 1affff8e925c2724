/**
 POSIX path strings as Node's path module treats them: splitting, resolution, basename and the prefix check.

 A resolved path is the list of its segments; `Text` is the string the code compares.
 */
module PosixPaths {
  type Path = seq<string>

  // ---------------------------------------------------------------- paths and their text

  predicate NoSlash(s: string) {
    '/' !in s
  }

  predicate Segment(s: string) {
    NoSlash(s) && s != "" && s != "." && s != ".."
  }

  predicate Proper(p: Path) {
    forall i :: 0 <= i < |p| ==> Segment(p[i])
  }

  function Slashed(p: Path): string {
    if p == [] then "" else "/" + p[0] + Slashed(p[1..])
  }

  function Text(p: Path): string {
    if p == [] then "/" else Slashed(p)
  }

  function SlashAt(s: string): (i: nat)
    ensures i <= |s| && (i < |s| ==> s[i] == '/') && NoSlash(s[..i])
  {
    if s == "" || s[0] == '/' then 0 else 1 + SlashAt(s[1..])
  }

  function Split(s: string): (segments: seq<string>)
    ensures segments != [] && forall i :: 0 <= i < |segments| ==> NoSlash(segments[i])
    decreases |s|
  {
    var i := SlashAt(s);
    if i == |s| then assert s[..i] == s; [s] else [s[..i]] + Split(s[i + 1..])
  }

  function Step(p: Path, segment: string): Path {
    if segment == "" || segment == "." then p
    else if segment == ".." then (if p == [] then p else p[..|p| - 1])
    else p + [segment]
  }

  function Walk(p: Path, segments: seq<string>): Path
    decreases |segments|
  {
    if segments == [] then p else Walk(Step(p, segments[0]), segments[1..])
  }

  /** path.resolve(base, s) for an absolute, normalised base. */
  function Resolve(base: Path, s: string): Path {
    Walk(if s != "" && s[0] == '/' then [] else base, Split(s))
  }

  function WithoutTrailingSlashes(s: string): string {
    if s != "" && s[|s| - 1] == '/' then WithoutTrailingSlashes(s[..|s| - 1]) else s
  }

  /** path.basename. */
  function Basename(s: string): (b: string)
    ensures NoSlash(b)
  {
    var segments := Split(WithoutTrailingSlashes(s));
    segments[|segments| - 1]
  }

  /** The containment check: resolved.startsWith(root + path.sep). */
  predicate StartsUnder(root: Path, p: Path) {
    Text(root) + "/" <= Text(p)
  }

  lemma {:induction false} WalkProper(p: Path, segments: seq<string>)
    requires Proper(p) && forall i :: 0 <= i < |segments| ==> NoSlash(segments[i])
    ensures Proper(Walk(p, segments))
    decreases |segments|
  {
    if segments != [] { WalkProper(Step(p, segments[0]), segments[1..]); }
  }

  lemma ResolveProper(base: Path, s: string)
    requires Proper(base)
    ensures Proper(Resolve(base, s))
  {
    WalkProper(if s != "" && s[0] == '/' then [] else base, Split(s));
  }

  lemma {:induction false} NoSlashAt(s: string)
    requires NoSlash(s)
    ensures SlashAt(s) == |s|
  {
    if s != "" { NoSlashAt(s[1..]); }
  }

  lemma ResolveSegment(base: Path, s: string)
    requires Segment(s)
    ensures Resolve(base, s) == base + [s]
  {
    NoSlashAt(s);
    assert Split(s) == [s];
    assert Walk(base, [s]) == Walk(base + [s], []);
  }

  lemma ResolvePair(base: Path, a: string, b: string)
    requires Segment(a) && Segment(b)
    ensures Resolve(Resolve(base, a), b) == base + [a, b]
  {
    ResolveSegment(base, a);
    ResolveSegment(base + [a], b);
    hide Resolve;
    assert base + [a] + [b] == base + [a, b];
  }

  lemma ProperPair(base: Path, a: string, b: string)
    requires Proper(base) && Segment(a) && Segment(b)
    ensures Proper(base + [a]) && Proper(base + [a, b])
  {
  }

  lemma {:induction false} SlashAtConcat(a: string, b: string)
    ensures SlashAt(a + "/" + b) == SlashAt(a)
  {
    if a == "" || a[0] == '/' {
      assert (a + "/" + b)[0] == '/';
    } else {
      assert (a + "/" + b)[1..] == a[1..] + "/" + b;
      SlashAtConcat(a[1..], b);
    }
  }

  lemma SplitFirst(s: string)
    requires SlashAt(s) < |s|
    ensures Split(s) == [s[..SlashAt(s)]] + Split(s[SlashAt(s) + 1..])
  {
  }

  lemma LaterPart(a: string, b: string, i: nat)
    requires i < |a|
    ensures var s := a + "/" + b; s[..i] == a[..i] && s[i + 1..] == a[i + 1..] + "/" + b
  {
  }

  lemma LastPart(a: string, b: string)
    ensures var s := a + "/" + b; s[..|a|] == a && s[|a| + 1..] == b
  {
  }

  lemma Regroup(x: seq<string>, y: seq<string>, z: seq<string>)
    ensures x + (y + z) == (x + y) + z
  {
  }

  /** Splitting distributes over a slash. */
  lemma {:induction false} SplitConcat(a: string, b: string)
    ensures Split(a + "/" + b) == Split(a) + Split(b)
    decreases |a|
  {
    var i := SlashAt(a);
    SlashAtConcat(a, b);
    SplitFirst(a + "/" + b);
    if i == |a| {
      LastPart(a, b);
      assert Split(a) == [a];
    } else {
      var rest := a[i + 1..];
      LaterPart(a, b, i);
      SplitFirst(a);
      SplitConcat(rest, b);
      hide Split; hide SlashAt;
      Regroup([a[..i]], Split(rest), Split(b));
    }
  }

  lemma {:induction false} WalkConcat(p: Path, s: seq<string>, t: seq<string>)
    ensures Walk(p, s + t) == Walk(Walk(p, s), t)
    decreases |s|
  {
    if s == [] {
      assert s + t == t;
    } else {
      assert (s + t)[1..] == s[1..] + t;
      WalkConcat(Step(p, s[0]), s[1..], t);
    }
  }

  /** Without parent segments a walk only ever goes down. */
  lemma {:induction false} WalkDown(p: Path, q: Path, segments: seq<string>)
    requires forall i :: 0 <= i < |segments| ==> segments[i] != ".."
    ensures Walk(p + q, segments) == p + Walk(q, segments)
    decreases |segments|
  {
    if segments != [] {
      assert p + q + [segments[0]] == p + (q + [segments[0]]);
      WalkDown(p, Step(q, segments[0]), segments[1..]);
    }
  }

  /** A trailing slash changes neither the basename nor the resolved path. */
  lemma TrailingSlash(base: Path, s: string)
    requires s != ""
    ensures Basename(s + "/") == Basename(s) && Resolve(base, s + "/") == Resolve(base, s)
  {
    var t := s + "/";
    assert Basename(t) == Basename(s) by {
      assert t[|t| - 1] == '/' && t[..|t| - 1] == s;
      hide Split;
    }
    hide Basename; hide Split; hide Resolve; hide Walk;
    ResolveLonger(base, s, "");
    ResolveOne(Resolve(base, s), "");
    assert s + "/" + "" == t;
  }

  /** What path.resolve makes of the pieces of a relative path: it goes down into a segment, up at a parent segment
      as long as there is one, stays for an empty or a dot segment, and takes a longer path one piece at a time. */
  lemma ResolvePieces(base: Path, s: string, t: string)
    ensures Segment(s) ==> Resolve(base, s) == base + [s]
    ensures Resolve(base, "..") == if base == [] then [] else base[..|base| - 1]
    ensures Resolve(base, ".") == base && Resolve(base, "") == base
    ensures s != "" && !("/" <= t) ==> Resolve(base, s + "/" + t) == Resolve(Resolve(base, s), t)
    ensures !("/" <= t) ==> Resolve(base, "/" + t) == Resolve([], t)
  {
    if Segment(s) { ResolveSegment(base, s); }
    hide Split; hide Walk;
    ResolveOne(base, "..");
    ResolveOne(base, ".");
    ResolveOne(base, "");
    if !("/" <= t) {
      assert t == "" || t[0] != '/';
      if s != "" { ResolveLonger(base, s, t); }
      ResolveFromRoot(base, t);
    }
  }

  lemma ResolveFromRoot(base: Path, t: string)
    requires t == "" || t[0] != '/'
    ensures Resolve(base, "/" + t) == Resolve([], t)
  {
    SplitConcat("", t);
    assert "" + "/" + t == "/" + t && Split("") == [""];
    WalkConcat([], [""], Split(t));
    assert Walk([], [""]) == Walk([], []);
  }

  lemma ResolveOne(base: Path, s: string)
    requires NoSlash(s)
    ensures Resolve(base, s) == Step(base, s)
  {
    NoSlashAt(s);
    assert Split(s) == [s];
    assert Walk(base, [s]) == Walk(Step(base, s), []);
  }

  lemma ResolveLonger(base: Path, s: string, t: string)
    requires s != "" && (t == "" || t[0] != '/')
    ensures Resolve(base, s + "/" + t) == Resolve(Resolve(base, s), t)
  {
    SplitConcat(s, t);
    WalkConcat(if s[0] == '/' then [] else base, Split(s), Split(t));
    assert (s + "/" + t)[0] == s[0];
  }

  /** The basename is what follows the last slash that has anything behind it but slashes. */
  lemma BasenameOf(dir: string, name: string)
    requires NoSlash(name) && name != ""
    ensures Basename(dir + "/" + name) == name && Basename(name) == name
  {
    var s := dir + "/" + name;
    assert s[|s| - 1] == name[|name| - 1] && name[|name| - 1] in name;
    SplitConcat(dir, name);
    NoSlashAt(name);
    assert Split(name) == [name];
  }

  lemma {:induction false} BasenameOfSlashes(s: string)
    requires forall i :: 0 <= i < |s| ==> s[i] == '/'
    ensures Basename(s) == ""
  {
    assert Split("") == [""];
    if s != "" { BasenameOfSlashes(s[..|s| - 1]); }
  }

  /** Up to the next slash two texts can only agree segment by segment. */
  lemma FirstSegment(x: string, y: string, r: string, t: string)
    requires NoSlash(x) && NoSlash(y) && r != "" && r[0] == '/' && (t == "" || t[0] == '/')
    ensures x + r <= y + t <==> x == y && r <= t
  {
    if x + r <= y + t {
      SegmentLength(x, y, r, t);
      assert x == (x + r)[..|x|] == (y + t)[..|x|] == y;
      assert r == (x + r)[|x|..] && t == (y + t)[|x|..];
    }
  }

  lemma SegmentLength(x: string, y: string, r: string, t: string)
    requires NoSlash(x) && NoSlash(y) && r != "" && r[0] == '/' && (t == "" || t[0] == '/')
    requires x + r <= y + t
    ensures |x| == |y|
  {
    var l, w := x + r, y + t;
    assert l[|x|] == '/' && l[|x|] == w[|x|];
    assert |y| < |w| ==> w[|y|] == '/';
  }

  lemma {:induction false} SlashedPrefix(a: Path, b: Path)
    requires Proper(a) && Proper(b)
    ensures Slashed(a) + "/" <= Slashed(b) <==> |a| < |b| && a <= b
  {
    if a != [] && b != [] {
      SlashedPrefix(a[1..], b[1..]);
      assert Segment(a[0]) && Segment(b[0]);
      SlashedHead(a, "/");
      SlashedHead(b, "");
      FirstSegment(a[0], b[0], Slashed(a[1..]) + "/", Slashed(b[1..]) + "");
      SlashBoth(a[0] + (Slashed(a[1..]) + "/"), b[0] + (Slashed(b[1..]) + ""));
      assert Slashed(b[1..]) + "" == Slashed(b[1..]) && Slashed(b) + "" == Slashed(b);
      hide Slashed; hide Segment;
      PrefixStep(a, b);
    } else if a == [] && b != [] {
      assert Slashed(b)[0] == '/';
    }
  }

  lemma SlashedHead(p: Path, rest: string)
    requires p != []
    ensures Slashed(p) + rest == "/" + (p[0] + (Slashed(p[1..]) + rest))
  {
  }

  lemma SlashBoth(l: string, r: string)
    ensures "/" + l <= "/" + r <==> l <= r
  {
    assert ("/" + l)[1..] == l && ("/" + r)[1..] == r;
  }

  lemma PrefixStep(a: Path, b: Path)
    requires a != [] && b != []
    ensures a <= b <==> a[0] == b[0] && a[1..] <= b[1..]
  {
    assert a == [a[0]] + a[1..] && b == [b[0]] + b[1..];
  }

  /** The string check is the real thing: strictly inside, segment by segment.  With "/" itself as the root
      the check refuses everything. */
  lemma StartsUnderMeans(root: Path, p: Path)
    requires Proper(root) && Proper(p)
    ensures StartsUnder(root, p) <==> root != [] && |root| < |p| && root <= p
  {
    if root == [] {
      if p != [] {
        assert Segment(p[0]);
        assert Text(p)[1] == p[0][0] && p[0][0] in p[0];
        assert Text(p)[1] != '/' == (Text(root) + "/")[1];
      }
    } else {
      SlashedPrefix(root, p);
    }
  }

  lemma LongText(p: Path)
    requires Proper(p) && p != []
    ensures |Text(p)| >= 2
  {
    assert Segment(p[0]);
  }

  lemma {:induction false} SlashedSnoc(a: Path, s: string)
    ensures Slashed(a + [s]) == Slashed(a) + "/" + s
  {
    if a != [] {
      SlashedSnoc(a[1..], s);
      assert (a + [s])[1..] == a[1..] + [s];
    }
  }

  /** Different segment lists are different path strings. */
  lemma TextInjective(a: Path, b: Path)
    requires Proper(a) && Proper(b) && Text(a) == Text(b)
    ensures a == b
  {
    if a != [] && b != [] {
      SlashedSnoc(a, "x");
      SlashedSnoc(b, "x");
      SlashedPrefix(a, b + ["x"]);
      SlashedPrefix(b, a + ["x"]);
      assert Slashed(a) + "/" <= Slashed(b + ["x"]) && Slashed(b) + "/" <= Slashed(a + ["x"]);
    } else if a != [] {
      LongText(a);
    } else if b != [] {
      LongText(b);
    }
  }
}
