/**
 The X-Forwarded-For walk (backend/src/core/plugins/ip-allowlist-hook.ts) on the raw header text: which hop is
 taken for the client, and which part of the header can have a say in that.  `trusted` is isTrustedProxy.
 */
module ForwardedHops {
  import opened Trimming

  datatype Header = Absent | Single(text: string) | Multiple(texts: seq<string>)

  datatype Resolved = Resolved(clientIp: string, socketIp: string)

  // ---------------------------------------------------------------- the header's hops

  function CommaAt(s: string): (i: nat)
    ensures i <= |s| && (i < |s| ==> s[i] == ',') && ',' !in s[..i]
  {
    if s == "" || s[0] == ',' then 0 else 1 + CommaAt(s[1..])
  }

  function Split(s: string): seq<string>
    decreases |s|
  {
    var i := CommaAt(s);
    if i == |s| then [s] else [s[..i]] + Split(s[i + 1..])
  }

  function NonEmpty(fields: seq<string>): seq<string> {
    if fields == [] then []
    else
      var hop := Trim(fields[0], JsSpace);
      (if hop == "" then [] else [hop]) + NonEmpty(fields[1..])
  }

  function Hops(text: string): seq<string> {
    NonEmpty(Split(text))
  }

  lemma {:induction false} CommaAtConcat(a: string, b: string)
    ensures CommaAt(a + "," + b) == CommaAt(a)
  {
    if a == "" || a[0] == ',' {
      assert (a + "," + b)[0] == ',';
    } else {
      assert (a + "," + b)[1..] == a[1..] + "," + b;
      CommaAtConcat(a[1..], b);
    }
  }

  lemma {:induction false} SplitConcat(a: string, b: string)
    ensures Split(a + "," + b) == Split(a) + Split(b)
    decreases |a|
  {
    CommaAtConcat(a, b);
    var i := CommaAt(a);
    SplitField(a);
    hide CommaAt; hide Split;
    SplitField(a + "," + b);
    if i == |a| {
      FirstField(a, b);
    } else {
      LaterField(a, b, i);
      SplitConcat(a[i + 1..], b);
      Regroup([a[..i]], Split(a[i + 1..]), Split(b));
    }
  }

  lemma FirstField(a: string, b: string)
    ensures var s := a + "," + b; s[..|a|] == a && s[|a| + 1..] == b
  {
  }

  lemma LaterField(a: string, b: string, i: nat)
    requires i < |a|
    ensures var s := a + "," + b; s[..i] == a[..i] && s[i + 1..] == a[i + 1..] + "," + b
  {
  }

  lemma Regroup(x: seq<string>, y: seq<string>, z: seq<string>)
    ensures x + (y + z) == (x + y) + z
  {
  }

  /** The first field ends at the first comma, and the rest of the text is split on its own. */
  lemma SplitField(s: string)
    ensures var i := CommaAt(s); Split(s) == if i == |s| then [s] else [s[..i]] + Split(s[i + 1..])
  {
    hide CommaAt;
  }

  lemma {:induction false} NonEmptyConcat(f: seq<string>, g: seq<string>)
    ensures NonEmpty(f + g) == NonEmpty(f) + NonEmpty(g)
  {
    if f == [] {
      assert f + g == g;
    } else {
      assert (f + g)[1..] == f[1..] + g;
      NonEmptyConcat(f[1..], g);
    }
  }

  lemma HopsConcat(a: string, b: string)
    ensures Hops(a + "," + b) == Hops(a) + Hops(b)
  {
    SplitConcat(a, b);
    NonEmptyConcat(Split(a), Split(b));
  }

  /** A field is a hop once the white space around it is gone, unless nothing is left then. */
  lemma OneHop(front: string, core: string, back: string)
    requires AllSpace(front, JsSpace) && AllSpace(back, JsSpace) && Tight(core, JsSpace) && ',' !in core
    ensures Hops(front + core + back) == if core == "" then [] else [core]
  {
    var field := front + core + back;
    assert CommaAt(field) == |field|;
    TrimOf(front, core, back, JsSpace);
    assert NonEmpty([field]) == (if core == "" then [] else [core]) + NonEmpty([]);
  }

  lemma {:induction false} NoEmptyHop(fields: seq<string>)
    ensures forall i :: 0 <= i < |NonEmpty(fields)| ==> NonEmpty(fields)[i] != ""
  {
    if fields != [] { NoEmptyHop(fields[1..]); }
  }

  // ---------------------------------------------------------------- the walk

  /** Hop `i` is the rightmost untrusted one. */
  predicate RightmostUntrusted(hops: seq<string>, trusted: string -> bool, i: int) {
    0 <= i < |hops| && !trusted(hops[i]) && forall k :: i < k < |hops| ==> trusted(hops[k])
  }

  predicate AllTrusted(hops: seq<string>, trusted: string -> bool) {
    forall k :: 0 <= k < |hops| ==> trusted(hops[k])
  }

  /** The documented choice among the hops. */
  ghost predicate Chosen(hops: seq<string>, trusted: string -> bool, socketIp: string, ip: string) {
    if hops == [] then ip == socketIp
    else if AllTrusted(hops, trusted) then ip == hops[0]
    else exists i :: RightmostUntrusted(hops, trusted, i) && ip == hops[i]
  }

  function TextOf(h: Header): string {
    match h
    case Absent => ""
    case Single(t) => t
    case Multiple(ts) => if ts == [] then "" else ts[0]
  }

  method ResolveClientIpFromXff(h: Header, trusted: string -> bool, socketIp: string) returns (ip: string)
    ensures Chosen(Hops(TextOf(h)), trusted, socketIp, ip)
  {
    var xff := TextOf(h);
    if xff == "" {
      assert Split("") == [""] && Trim("", JsSpace) == "";
      assert NonEmpty([""]) == NonEmpty([]);
      return socketIp;
    }
    var hops := Hops(xff);
    if |hops| == 0 { return socketIp; }
    NoEmptyHop(Split(xff));
    var lastTrusted := "";
    for i := |hops| downto 0
      invariant forall k :: i <= k < |hops| ==> trusted(hops[k])
      invariant lastTrusted == if i < |hops| then hops[i] else ""
    {
      if !trusted(hops[i]) {
        assert RightmostUntrusted(hops, trusted, i);
        return hops[i];
      }
      lastTrusted := hops[i];
    }
    ip := if lastTrusted != "" then lastTrusted else socketIp;
  }

  /** Drops the prefix of an IPv4 address mapped into IPv6. */
  function NormaliseSocketAddr(raw: string): string {
    if "::ffff:" <= raw then raw[7..] else raw
  }

  method ResolveClientIp(peer: string, h: Header, trusted: string -> bool) returns (r: Resolved)
    ensures r.socketIp == NormaliseSocketAddr(peer)
    ensures r.socketIp == "" || !trusted(r.socketIp) ==> r.clientIp == r.socketIp
    ensures r.socketIp != "" && trusted(r.socketIp) ==> Chosen(Hops(TextOf(h)), trusted, r.socketIp, r.clientIp)
  {
    var socketIp := NormaliseSocketAddr(peer);
    if socketIp == "" { return Resolved("", ""); }
    if !trusted(socketIp) { return Resolved(socketIp, socketIp); }
    var clientIp := ResolveClientIpFromXff(h, trusted, socketIp);
    r := Resolved(clientIp, socketIp);
  }

  // ---------------------------------------------------------------- what cannot influence the choice

  /** The choice is a function of the hops. */
  lemma ChosenUnique(hops: seq<string>, trusted: string -> bool, socketIp: string, x: string, y: string)
    requires Chosen(hops, trusted, socketIp, x) && Chosen(hops, trusted, socketIp, y)
    ensures x == y
  {
    if hops != [] && !AllTrusted(hops, trusted) {
      var i :| RightmostUntrusted(hops, trusted, i) && x == hops[i];
      var j :| RightmostUntrusted(hops, trusted, j) && y == hops[j];
    }
  }

  /** Whatever a client writes in front of a header is ignored exactly as far as the header it is put in front
      of still names an untrusted hop; failing that, the choice is made among what was put in front. */
  lemma LeftHopsIgnored(front: string, header: string, trusted: string -> bool, socketIp: string, ip: string)
    ensures !AllTrusted(Hops(header), trusted) ==>
      (Chosen(Hops(front + "," + header), trusted, socketIp, ip) <==> Chosen(Hops(header), trusted, socketIp, ip))
    ensures AllTrusted(Hops(header), trusted) && Hops(front) != [] ==>
      (Chosen(Hops(front + "," + header), trusted, socketIp, ip) <==> Chosen(Hops(front), trusted, socketIp, ip))
    ensures Hops(front) == [] ==> Hops(front + "," + header) == Hops(header)
  {
    HopsConcat(front, header);
    var f, g := Hops(front), Hops(header);
    if !AllTrusted(g, trusted) {
      RightPart(f, g, trusted, socketIp, ip);
    } else if f != [] {
      LeftPart(f, g, trusted, socketIp, ip);
    }
    assert f == [] ==> f + g == g;
  }

  lemma RightPart(f: seq<string>, g: seq<string>, trusted: string -> bool, socketIp: string, ip: string)
    requires !AllTrusted(g, trusted)
    ensures Chosen(f + g, trusted, socketIp, ip) <==> Chosen(g, trusted, socketIp, ip)
  {
    var all := f + g;
    var u :| 0 <= u < |g| && !trusted(g[u]);
    assert all[|f| + u] == g[u];
    if Chosen(all, trusted, socketIp, ip) {
      var i :| RightmostUntrusted(all, trusted, i) && ip == all[i];
      assert i >= |f| + u && forall k :: i - |f| < k < |g| ==> g[k] == all[|f| + k];
      assert RightmostUntrusted(g, trusted, i - |f|);
    }
    if Chosen(g, trusted, socketIp, ip) {
      var i :| RightmostUntrusted(g, trusted, i) && ip == g[i];
      assert RightmostUntrusted(all, trusted, |f| + i);
    }
  }

  lemma LeftPart(f: seq<string>, g: seq<string>, trusted: string -> bool, socketIp: string, ip: string)
    requires AllTrusted(g, trusted) && f != []
    ensures Chosen(f + g, trusted, socketIp, ip) <==> Chosen(f, trusted, socketIp, ip)
  {
    var all := f + g;
    assert forall k :: 0 <= k < |f| ==> all[k] == f[k];
    assert forall k :: |f| <= k < |all| ==> all[k] == g[k - |f|];
    assert forall i :: RightmostUntrusted(all, trusted, i) <==> RightmostUntrusted(f, trusted, i);
    assert AllTrusted(all, trusted) <==> AllTrusted(f, trusted);
  }
}
