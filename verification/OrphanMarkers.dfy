/**
 drop_orphan_markers (tools/eval-corpus-images/build.py): removes lines that are only a footnote marker, except
 inside fenced code.  `decimal` is what the pattern's \d accepts.
 */
module OrphanMarkers {
  import opened HeadingPruning
  import opened Trimming

  // ---------------------------------------------------------------- one line

  function Strip(s: string): string {
    Trim(s, IsSpace)
  }

  predicate Fence(line: string) {
    "```" <= Strip(line)
  }

  predicate Number(s: string, decimal: char -> bool) {
    1 <= |s| <= 2 && forall i :: 0 <= i < |s| ==> decimal(s[i])
  }

  /** `count` asterisks, each optionally escaped by a backslash. */
  predicate Stars(s: string, count: nat) {
    if count == 0 then s == ""
    else if |s| >= 2 && s[0] == '\\' && s[1] == '*' then Stars(s[2..], count - 1)
    else s != "" && s[0] == '*' && Stars(s[1..], count - 1)
  }

  /** The whole stripped line is (1), 1, 1), one to four asterisks, or a dagger. */
  predicate Marker(s: string, decimal: char -> bool) {
    || (|s| >= 2 && s[0] == '(' && s[|s| - 1] == ')' && Number(s[1..|s| - 1], decimal))
    || Number(s, decimal)
    || (s != "" && s[|s| - 1] == ')' && Number(s[..|s| - 1], decimal))
    || (exists n :: 1 <= n <= 4 && Stars(s, n))
    || s == "\U{2020}" || s == "\U{2021}"
  }

  /** An asterisk for each entry, escaped where it says so. */
  function StarText(escaped: seq<bool>): string {
    if escaped == [] then "" else (if escaped[0] then "\\*" else "*") + StarText(escaped[1..])
  }

  lemma {:induction false} StarTextIsStars(escaped: seq<bool>)
    ensures Stars(StarText(escaped), |escaped|)
  {
    if escaped != [] {
      StarTextIsStars(escaped[1..]);
      var s, rest := StarText(escaped), StarText(escaped[1..]);
      assert if escaped[0] then s[2..] == rest else s[1..] == rest;
    }
  }

  lemma {:induction false} StarsAreStarText(s: string, count: nat) returns (escaped: seq<bool>)
    requires Stars(s, count)
    ensures |escaped| == count && s == StarText(escaped)
  {
    if count == 0 {
      escaped := [];
    } else {
      var first := s[0] == '\\';
      var rest := StarsAreStarText(if first then s[2..] else s[1..], count - 1);
      escaped := [first] + rest;
      assert escaped[1..] == rest;
      assert s == (if first then "\\*" + s[2..] else "*" + s[1..]);
    }
  }

  /** The written forms of a marker. */
  ghost predicate MarkerForm(s: string, decimal: char -> bool) {
    || (exists d :: Number(d, decimal) && (s == d || s == d + ")" || s == "(" + d + ")"))
    || (exists escaped :: 1 <= |escaped| <= 4 && s == StarText(escaped))
    || s == "\U{2020}" || s == "\U{2021}"
  }

  /** Which lines go: those that are a marker in one of its written forms, with white space around it or not. */
  lemma OrphanExactly(front: string, core: string, back: string, decimal: char -> bool)
    requires AllSpace(front, IsSpace) && AllSpace(back, IsSpace) && Tight(core, IsSpace)
    ensures Fence(front + core + back) <==> "```" <= core
    ensures Orphan(front + core + back, decimal) <==> !("```" <= core) && MarkerForm(core, decimal)
  {
    TrimOf(front, core, back, IsSpace);
    MarkerExactly(core, decimal);
  }

  lemma MarkerExactly(s: string, decimal: char -> bool)
    ensures Marker(s, decimal) <==> MarkerForm(s, decimal)
  {
    hide Stars; hide StarText;
    if Marker(s, decimal) {
      if n :| 1 <= n <= 4 && Stars(s, n) {
        var escaped := StarsAreStarText(s, n);
      } else {
        NumberMarked(s, decimal);
      }
    }
    if MarkerForm(s, decimal) {
      if escaped :| 1 <= |escaped| <= 4 && s == StarText(escaped) {
        StarTextIsStars(escaped);
      } else {
        NumberMarked(s, decimal);
      }
    }
  }

  lemma NumberMarked(s: string, decimal: char -> bool)
    ensures (|s| >= 2 && s[0] == '(' && s[|s| - 1] == ')' && Number(s[1..|s| - 1], decimal))
            || Number(s, decimal) || (s != "" && s[|s| - 1] == ')' && Number(s[..|s| - 1], decimal)) <==>
      exists d :: Number(d, decimal) && (s == d || s == d + ")" || s == "(" + d + ")")
  {
    hide Number;
    if |s| >= 2 && s[0] == '(' && s[|s| - 1] == ')' { assert s == "(" + s[1..|s| - 1] + ")"; }
    if s != "" && s[|s| - 1] == ')' { assert s == s[..|s| - 1] + ")"; }
    forall d ensures s == d + ")" ==> s[..|s| - 1] == d {}
    forall d ensures s == "(" + d + ")" ==> s[1..|s| - 1] == d {}
  }

  predicate Orphan(line: string, decimal: char -> bool) {
    !Fence(line) && Marker(Strip(line), decimal)
  }

  // ---------------------------------------------------------------- the sweep

  /** Whether a line that follows `lines` is inside a fence: the fence lines seen so far pair up or not. */
  function InFence(lines: seq<string>): bool {
    if lines == [] then false
    else InFence(lines[..|lines| - 1]) != Fence(lines[|lines| - 1])
  }

  /** What survives: fences, everything inside them, and outside them every line that is no marker. */
  function Swept(lines: seq<string>, decimal: char -> bool): seq<string> {
    if lines == [] then []
    else
      var before, line := lines[..|lines| - 1], lines[|lines| - 1];
      Swept(before, decimal) + (if Orphan(line, decimal) && !InFence(before) then [] else [line])
  }

  method DropOrphanMarkers(md: string, decimal: char -> bool) returns (r: string)
    ensures r == Join(Swept(Split(md), decimal))
  {
    var lines := Split(md);
    var kept: seq<string> := [];
    var inFence := false;
    for i := 0 to |lines|
      invariant inFence == InFence(lines[..i])
      invariant kept == Swept(lines[..i], decimal)
    {
      assert lines[..i + 1][..i] == lines[..i];
      var stripped := Strip(lines[i]);
      if "```" <= stripped {
        inFence := !inFence;
      } else if !inFence && Marker(stripped, decimal) {
        continue;
      }
      kept := kept + [lines[i]];
    }
    assert lines[..|lines|] == lines;
    r := Join(kept);
  }

  // ---------------------------------------------------------------- what the sweep keeps

  lemma Snoc(lines: seq<string>, line: string, decimal: char -> bool)
    ensures InFence(lines + [line]) == (InFence(lines) != Fence(line))
    ensures Swept(lines + [line], decimal) ==
      Swept(lines, decimal) + (if Orphan(line, decimal) && !InFence(lines) then [] else [line])
  {
    assert (lines + [line])[..|lines|] == lines;
  }

  /** Every fence survives, so no later line changes sides. */
  lemma {:induction false} FencesKept(lines: seq<string>, decimal: char -> bool)
    ensures InFence(Swept(lines, decimal)) == InFence(lines)
  {
    if lines != [] {
      var before, line := lines[..|lines| - 1], lines[|lines| - 1];
      FencesKept(before, decimal);
      Snoc(Swept(before, decimal), line, decimal);
      assert Swept(before, decimal) + [] == Swept(before, decimal);
    }
  }

  /** A second sweep finds nothing. */
  lemma {:induction false} SweptTwice(lines: seq<string>, decimal: char -> bool)
    ensures Swept(Swept(lines, decimal), decimal) == Swept(lines, decimal)
  {
    if lines != [] {
      var before, line := lines[..|lines| - 1], lines[|lines| - 1];
      SweptTwice(before, decimal);
      FencesKept(before, decimal);
      Snoc(Swept(before, decimal), line, decimal);
      assert Swept(before, decimal) + [] == Swept(before, decimal);
    }
  }

  /** A line of the result that is outside its fences is no marker. */
  lemma NoOrphanLeft(lines: seq<string>, decimal: char -> bool, i: nat)
    requires i < |Swept(lines, decimal)| && !InFence(Swept(lines, decimal)[..i])
    ensures !Orphan(Swept(lines, decimal)[i], decimal)
  {
    SweptTwice(lines, decimal);
    FixedHasNoOrphan(Swept(lines, decimal), decimal, i);
  }

  lemma {:induction false} SweptLength(lines: seq<string>, decimal: char -> bool)
    ensures |Swept(lines, decimal)| <= |lines|
  {
    if lines != [] { SweptLength(lines[..|lines| - 1], decimal); }
  }

  lemma {:induction false} FixedHasNoOrphan(lines: seq<string>, decimal: char -> bool, i: nat)
    requires Swept(lines, decimal) == lines && i < |lines| && !InFence(lines[..i])
    ensures !Orphan(lines[i], decimal)
  {
    var before, line := lines[..|lines| - 1], lines[|lines| - 1];
    SweptLength(before, decimal);
    assert Swept(before, decimal) == before && (i < |before| || !Orphan(line, decimal)) by {
      assert lines == before + [line];
      assert Swept(lines, decimal)[..|before|] == before;
    }
    if i < |before| {
      assert before[..i] == lines[..i];
      FixedHasNoOrphan(before, decimal, i);
    }
  }

  /** A fenced block comes out as it went in, whatever precedes it; an unclosed one up to the end. */
  lemma {:induction false} FencedBlockKept(before: seq<string>, block: seq<string>, decimal: char -> bool)
    requires InFence(before) && forall i :: 0 <= i < |block| ==> !Fence(block[i])
    ensures Swept(before + block, decimal) == Swept(before, decimal) + block
    ensures InFence(before + block)
  {
    hide Swept; hide InFence; hide Fence; hide Orphan;
    if block == [] {
      assert before + block == before;
    } else {
      var init, line := block[..|block| - 1], block[|block| - 1];
      FencedBlockKept(before, init, decimal);
      Snoc(before + init, line, decimal);
      assert before + block == before + init + [line] && block == init + [line];
    }
  }

  /** Outside fences exactly the markers go, and the rest keeps its order. */
  lemma {:induction false} ProseSwept(before: seq<string>, prose: seq<string>, decimal: char -> bool)
    requires !InFence(before) && forall i :: 0 <= i < |prose| ==> !Fence(prose[i])
    ensures Swept(before + prose, decimal) == Swept(before, decimal) + NonOrphans(prose, decimal)
    ensures !InFence(before + prose)
  {
    hide Swept; hide InFence; hide Fence; hide Orphan;
    if prose == [] {
      assert before + prose == before;
    } else {
      var init, line := prose[..|prose| - 1], prose[|prose| - 1];
      ProseSwept(before, init, decimal);
      Snoc(before + init, line, decimal);
      assert before + prose == before + init + [line];
    }
  }

  function NonOrphans(lines: seq<string>, decimal: char -> bool): seq<string> {
    if lines == [] then []
    else
      var line := lines[|lines| - 1];
      NonOrphans(lines[..|lines| - 1], decimal) + (if Orphan(line, decimal) then [] else [line])
  }

  lemma {:induction false} SweptOneLine(lines: seq<string>, decimal: char -> bool)
    requires AllOneLine(lines)
    ensures AllOneLine(Swept(lines, decimal))
  {
    if lines != [] { SweptOneLine(lines[..|lines| - 1], decimal); }
  }

  /** The same on the text: what a sweep returns, another sweep returns unchanged. */
  lemma TextSweptTwice(md: string, decimal: char -> bool)
    ensures var r := Join(Swept(Split(md), decimal)); Join(Swept(Split(r), decimal)) == r
  {
    var kept := Swept(Split(md), decimal);
    SplitLines(md);
    SweptOneLine(Split(md), decimal);
    SplitJoin(kept);
    SweptTwice(Split(md), decimal);
    if kept == [] {
      assert !Orphan("", decimal);
      var none: seq<string> := [];
      Snoc(none, "", decimal);
      assert none + [""] == [""];
    }
  }
}
