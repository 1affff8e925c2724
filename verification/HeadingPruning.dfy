/**
 drop_empty_headings (tools/eval-corpus-images/build.py): an eight-pass rewrite that removes headings with
 nothing under them, shown to reach a fixpoint and to equal a one-shot specification.
 */
module HeadingPruning {
  import opened Options

  // ---------------------------------------------------------------- lines

  /** The characters Python's str.strip() removes. */
  predicate IsSpace(c: char) {
    var n := c as int;
    || 0x09 <= n <= 0x0D || 0x1C <= n <= 0x20 || n == 0x85 || n == 0xA0 || n == 0x1680 || 0x2000 <= n <= 0x200A
    || n == 0x2028 || n == 0x2029 || n == 0x202F || n == 0x205F || n == 0x3000
  }

  /** line.strip() is empty. */
  predicate Blank(line: string) {
    forall i :: 0 <= i < |line| ==> IsSpace(line[i])
  }

  function Hashes(line: string): (n: nat)
    ensures n <= |line|
  {
    if line == [] || line[0] != '#' then 0 else 1 + Hashes(line[1..])
  }

  /** The heading level: one to six hashes and a space. */
  function Level(line: string): Option<nat> {
    var n := Hashes(line);
    if 1 <= n <= 6 && n < |line| && line[n] == ' ' then Some(n) else None
  }

  /** `k` number signs, a space and any title. */
  predicate Heads(line: string, k: nat) {
    1 <= k <= 6 && seq(k, _ => '#') + " " <= line
  }

  lemma {:induction false} HashesOf(k: nat, title: string)
    ensures Hashes(seq(k, _ => '#') + " " + title) == k
  {
    var line := seq(k, _ => '#') + " " + title;
    if k > 0 {
      HashesOf(k - 1, title);
      assert line[1..] == seq(k - 1, _ => '#') + " " + title;
    }
  }

  lemma {:induction false} HashesAre(line: string)
    ensures forall i :: 0 <= i < Hashes(line) ==> line[i] == '#'
  {
    if line != [] && line[0] == '#' { HashesAre(line[1..]); }
  }

  /** Which lines are headings, and of what level: a heading with more signs is deeper. */
  lemma LevelExactly(line: string, k: nat)
    ensures Level(line) == Some(k) <==> Heads(line, k)
  {
    if Level(line) == Some(k) {
      HashesAre(line);
      assert seq(k, _ => '#') + " " == line[..k + 1];
    }
    if Heads(line, k) {
      HashesOf(k, line[k + 1..]);
      assert line == seq(k, _ => '#') + " " + line[k + 1..];
      assert line[k] == ' ';
    }
  }

  predicate Content(line: string) {
    !Blank(line) && Level(line).None?
  }

  /** md.split("\\n"): never empty. */
  function Split(md: string): (lines: seq<string>)
    ensures lines != []
  {
    if md == [] then [[]]
    else
      var rest := Split(md[1..]);
      if md[0] == '\n' then [[]] + rest else [[md[0]] + rest[0]] + rest[1..]
  }

  /** "\\n".join(lines). */
  function Join(lines: seq<string>): string {
    if lines == [] then []
    else if |lines| == 1 then lines[0]
    else lines[0] + ['\n'] + Join(lines[1..])
  }

  predicate OneLine(line: string) { '\n' !in line }

  predicate AllOneLine(lines: seq<string>) {
    forall i :: 0 <= i < |lines| ==> OneLine(lines[i])
  }

  // ---------------------------------------------------------------- sections

  predicate EndsSection(level: nat, line: string) {
    Level(line).Some? && Level(line).value <= level
  }

  /** Length of the section of a heading of `level` whose first body line is rest[0]. */
  function Span(level: nat, rest: seq<string>): (n: nat)
    ensures n <= |rest|
    ensures forall i :: 0 <= i < n ==> !EndsSection(level, rest[i])
    ensures n < |rest| ==> EndsSection(level, rest[n])
  {
    if rest == [] || EndsSection(level, rest[0]) then 0 else 1 + Span(level, rest[1..])
  }

  /** Some line of the section is not blank; a deeper heading counts. */
  predicate HasText(level: nat, rest: seq<string>) {
    exists i :: 0 <= i < Span(level, rest) && !Blank(rest[i])
  }

  /** Some line of the section is neither blank nor a heading. */
  predicate HasContent(level: nat, rest: seq<string>) {
    exists i :: 0 <= i < Span(level, rest) && Content(rest[i])
  }

  // ---------------------------------------------------------------- one pass, and the specification

  /** One pass of the loop: every heading is judged against the lines the pass started from. */
  function Pass(lines: seq<string>): seq<string> {
    if lines == [] then []
    else if Level(lines[0]).Some? && !HasText(Level(lines[0]).value, lines[1..]) then Pass(lines[1..])
    else [lines[0]] + Pass(lines[1..])
  }

  /** A heading stays exactly when its section holds a content line; every other line stays. */
  function Prune(lines: seq<string>): seq<string> {
    if lines == [] then []
    else if Level(lines[0]).Some? && !HasContent(Level(lines[0]).value, lines[1..]) then Prune(lines[1..])
    else [lines[0]] + Prune(lines[1..])
  }

  function Passes(n: nat, lines: seq<string>): seq<string> {
    if n == 0 then lines else Pass(Passes(n - 1, lines))
  }

  // ---------------------------------------------------------------- sections, one line at a time

  lemma HeadingNotBlank(line: string)
    ensures Level(line).Some? ==> !Blank(line) && 1 <= Level(line).value <= 6
  {
    if Level(line).Some? { assert line[0] == '#' && !IsSpace(line[0]); }
  }

  lemma ContentStep(level: nat, rest: seq<string>)
    ensures HasContent(level, rest) <==>
      rest != [] && !EndsSection(level, rest[0]) && (Content(rest[0]) || HasContent(level, rest[1..]))
  {
    if rest != [] && !EndsSection(level, rest[0]) {
      var n := Span(level, rest[1..]);
      if i :| 0 <= i < n && Content(rest[1..][i]) { assert Content(rest[i + 1]); }
      if i :| 0 <= i < 1 + n && Content(rest[i]) { assert i > 0 ==> Content(rest[1..][i - 1]); }
    }
  }

  lemma TextStep(level: nat, rest: seq<string>)
    ensures HasText(level, rest) <==>
      rest != [] && !EndsSection(level, rest[0]) && (!Blank(rest[0]) || HasText(level, rest[1..]))
  {
    if rest != [] && !EndsSection(level, rest[0]) {
      var n := Span(level, rest[1..]);
      if i :| 0 <= i < n && !Blank(rest[1..][i]) { assert !Blank(rest[i + 1]); }
      if i :| 0 <= i < 1 + n && !Blank(rest[i]) { assert i > 0 ==> !Blank(rest[1..][i - 1]); }
    }
  }

  lemma ContentIsText(level: nat, rest: seq<string>)
    ensures HasContent(level, rest) ==> HasText(level, rest)
  {
  }

  /** Behind a heading with nothing under it, a wider section holds nothing of its own either. */
  lemma {:induction false} BareTail(k: nat, l: nat, rest: seq<string>)
    requires k <= l && !HasText(k, rest)
    ensures !HasContent(l, rest)
    decreases |rest|
  {
    TextStep(k, rest);
    ContentStep(l, rest);
    if rest != [] && !EndsSection(l, rest[0]) {
      BareTail(k, l, rest[1..]);
    }
  }

  // ---------------------------------------------------------------- a pass changes no verdict

  lemma {:induction false} PassKeepsContent(level: nat, lines: seq<string>)
    ensures HasContent(level, Pass(lines)) <==> HasContent(level, lines)
    decreases |lines|
  {
    ContentStep(level, lines);
    if lines != [] {
      PassKeepsContent(level, lines[1..]);
      var head := Level(lines[0]);
      if head.Some? && !HasText(head.value, lines[1..]) {
        if head.value <= level { BareTail(head.value, level, lines[1..]); }
      } else {
        ContentStep(level, Pass(lines));
        assert Pass(lines)[1..] == Pass(lines[1..]);
      }
    }
  }

  /** A pass removes only headings the specification removes, and leaves its verdicts on the rest alone. */
  lemma {:induction false} PruneAfterPass(lines: seq<string>)
    ensures Prune(Pass(lines)) == Prune(lines)
    decreases |lines|
  {
    if lines != [] {
      PruneAfterPass(lines[1..]);
      var head := Level(lines[0]);
      if head.Some? && !HasText(head.value, lines[1..]) {
        ContentIsText(head.value, lines[1..]);
      } else {
        assert Pass(lines) == [lines[0]] + Pass(lines[1..]);
        assert Pass(lines)[1..] == Pass(lines[1..]);
        if head.Some? { PassKeepsContent(head.value, lines[1..]); }
      }
    }
  }

  // ---------------------------------------------------------------- convergence, by heading level

  /** No heading of level `m` or deeper has a section without content. */
  predicate Settled(m: nat, lines: seq<string>) {
    lines != [] ==>
      && (Level(lines[0]).Some? && Level(lines[0]).value >= m ==> HasContent(Level(lines[0]).value, lines[1..]))
      && Settled(m, lines[1..])
  }

  /** Where every deeper heading stands over content, any text in a section is or introduces content. */
  lemma {:induction false} TextIsContent(level: nat, rest: seq<string>)
    requires Settled(level + 1, rest) && HasText(level, rest)
    ensures HasContent(level, rest)
    decreases |rest|
  {
    TextStep(level, rest);
    ContentStep(level, rest);
    if Level(rest[0]).Some? {
      DeeperContent(Level(rest[0]).value, level, rest[1..]);
    } else if Blank(rest[0]) {
      TextIsContent(level, rest[1..]);
    }
  }

  /** Content of a subsection is content of the section around it. */
  lemma {:induction false} DeeperContent(k: nat, level: nat, rest: seq<string>)
    requires level < k && HasContent(k, rest)
    ensures HasContent(level, rest)
    decreases |rest|
  {
    ContentStep(k, rest);
    ContentStep(level, rest);
    if !Content(rest[0]) {
      DeeperContent(k, level, rest[1..]);
    }
  }

  lemma {:induction false} PassSettles(m: nat, lines: seq<string>)
    requires Settled(m + 1, lines)
    ensures Settled(m, Pass(lines))
    decreases |lines|
  {
    if lines != [] {
      PassSettles(m, lines[1..]);
      var head := Level(lines[0]);
      if !(head.Some? && !HasText(head.value, lines[1..])) {
        assert Pass(lines)[1..] == Pass(lines[1..]);
        if head.Some? && head.value >= m {
          if head.value == m { TextIsContent(m, lines[1..]); }
          PassKeepsContent(head.value, lines[1..]);
        }
      }
    }
  }

  lemma {:induction false} DeepestSettled(lines: seq<string>)
    ensures Settled(7, lines)
    decreases |lines|
  {
    if lines != [] {
      HeadingNotBlank(lines[0]);
      DeepestSettled(lines[1..]);
    }
  }

  lemma {:induction false} SettledIsPruned(lines: seq<string>)
    requires Settled(1, lines)
    ensures Prune(lines) == lines && Pass(lines) == lines
    decreases |lines|
  {
    if lines != [] {
      HeadingNotBlank(lines[0]);
      SettledIsPruned(lines[1..]);
      if Level(lines[0]).Some? { ContentIsText(Level(lines[0]).value, lines[1..]); }
      assert lines == [lines[0]] + lines[1..];
    }
  }

  lemma {:induction false} PassesSettle(n: nat, lines: seq<string>)
    requires n <= 6
    ensures Settled(7 - n, Passes(n, lines)) && Prune(Passes(n, lines)) == Prune(lines)
  {
    if n == 0 {
      DeepestSettled(lines);
    } else {
      PassesSettle(n - 1, lines);
      PassSettles(7 - n, Passes(n - 1, lines));
      PruneAfterPass(Passes(n - 1, lines));
    }
  }

  /** Six passes, one per heading level, always reach the specification. */
  lemma SixPassesPrune(lines: seq<string>)
    ensures Passes(6, lines) == Prune(lines) && Pass(Prune(lines)) == Prune(lines)
  {
    PassesSettle(6, lines);
    SettledIsPruned(Passes(6, lines));
  }

  /** Stopping at the first pass that changes nothing is stopping at the specification. */
  lemma FixpointIsPruned(lines: seq<string>)
    requires Pass(lines) == lines
    ensures Prune(lines) == lines
  {
    SixPassesPrune(lines);
    FixpointStays(6, lines);
  }

  lemma {:induction false} FixpointStays(n: nat, lines: seq<string>)
    requires Pass(lines) == lines
    ensures Passes(n, lines) == lines
  {
    if n > 0 { FixpointStays(n - 1, lines); }
  }

  // ---------------------------------------------------------------- what survives

  function NonHeadings(lines: seq<string>): seq<string> {
    if lines == [] then []
    else if Level(lines[0]).Some? then NonHeadings(lines[1..])
    else [lines[0]] + NonHeadings(lines[1..])
  }

  /** Every line that is not a heading survives, in order. */
  lemma {:induction false} NonHeadingsSurvive(lines: seq<string>)
    ensures NonHeadings(Prune(lines)) == NonHeadings(lines)
    decreases |lines|
  {
    if lines != [] {
      NonHeadingsSurvive(lines[1..]);
      if !(Level(lines[0]).Some? && !HasContent(Level(lines[0]).value, lines[1..])) {
        assert Prune(lines)[1..] == Prune(lines[1..]);
      }
    }
  }

  /** In the result every heading stands over content: nothing bare is left. */
  lemma NothingBareLeft(lines: seq<string>)
    ensures Settled(1, Prune(lines))
  {
    PassesSettle(6, lines);
    SixPassesPrune(lines);
  }

  /** What stays of the lines in front of `rest`. */
  function KeptBefore(before: seq<string>, rest: seq<string>): seq<string> {
    if before == [] then []
    else
      var head, more := Level(before[0]), KeptBefore(before[1..], rest);
      if head.Some? && !HasContent(head.value, before[1..] + rest) then more else [before[0]] + more
  }

  /** Pruning goes by what follows a line alone. */
  lemma {:induction false} PruneSuffix(before: seq<string>, rest: seq<string>)
    ensures Prune(before + rest) == KeptBefore(before, rest) + Prune(rest)
    decreases |before|
  {
    if before == [] {
      assert before + rest == rest;
    } else {
      PruneSuffix(before[1..], rest);
      assert (before + rest)[1..] == before[1..] + rest;
    }
  }

  /** No line of the section is a heading as shallow as `k`. */
  ghost predicate Within(k: nat, section: seq<string>) {
    forall i, l: nat :: 0 <= i < |section| && Heads(section[i], l) ==> k < l
  }

  /** What follows the section is no part of it: nothing, or a heading at least as shallow. */
  ghost predicate Closes(k: nat, after: seq<string>) {
    after == [] || exists l: nat :: Heads(after[0], l) && l <= k
  }

  /** Neither blank nor a heading. */
  ghost predicate Prose(line: string) {
    !Blank(line) && forall l: nat :: !Heads(line, l)
  }

  ghost predicate Populated(section: seq<string>) {
    exists i :: 0 <= i < |section| && Prose(section[i])
  }

  lemma LinesByForm(line: string)
    ensures Content(line) <==> Prose(line)
    ensures forall k: nat :: EndsSection(k, line) <==> exists l: nat :: Heads(line, l) && l <= k
  {
    forall l: nat ensures Level(line) == Some(l) <==> Heads(line, l) { LevelExactly(line, l); }
  }

  lemma {:induction false} SectionSpan(k: nat, section: seq<string>, after: seq<string>)
    requires Within(k, section) && Closes(k, after)
    ensures Span(k, section + after) == |section|
    decreases |section|
  {
    if section == [] {
      assert section + after == after;
      if after != [] { LinesByForm(after[0]); }
    } else {
      LinesByForm(section[0]);
      assert Within(k, section[1..]);
      SectionSpan(k, section[1..], after);
      assert (section + after)[1..] == section[1..] + after;
    }
  }

  /** A heading goes exactly when its section, deeper headings included, has no prose; a heading above a populated
      deeper one stays, wherever in the document it is. */
  lemma HeadingStays(before: seq<string>, heading: string, k: nat, section: seq<string>, after: seq<string>)
    requires Heads(heading, k) && Within(k, section)
    requires Closes(k, after)
    ensures var rest := section + after;
      Prune(before + [heading] + rest) == KeptBefore(before, [heading] + rest)
        + (if Populated(section) then [heading] else []) + Prune(rest)
  {
    var rest := section + after;
    PruneHeading(heading, k, rest);
    SectionHasProse(k, section, after);
    PruneSuffix(before, [heading] + rest);
    hide *;
    Regroup(before, [heading], rest);
    Regroup(KeptBefore(before, [heading] + rest), if Populated(section) then [heading] else [], Prune(rest));
  }

  lemma Regroup(a: seq<string>, b: seq<string>, c: seq<string>)
    ensures a + b + c == a + (b + c)
  {
  }

  lemma PruneHeading(heading: string, k: nat, rest: seq<string>)
    requires Heads(heading, k)
    ensures Prune([heading] + rest) == (if HasContent(k, rest) then [heading] else []) + Prune(rest)
  {
    LevelExactly(heading, k);
    assert ([heading] + rest)[1..] == rest;
    hide HasContent; hide Heads; hide Level;
  }

  lemma SectionHasProse(k: nat, section: seq<string>, after: seq<string>)
    requires Within(k, section) && Closes(k, after)
    ensures HasContent(k, section + after) <==> Populated(section)
  {
    var rest := section + after;
    SectionSpan(k, section, after);
    forall i | 0 <= i < |section| ensures Content(rest[i]) <==> Prose(section[i]) { LinesByForm(section[i]); }
    hide Content; hide Prose; hide Span; hide Within; hide Closes;
    if i :| 0 <= i < |section| && Prose(section[i]) { assert Content(rest[i]); }
  }

  // ---------------------------------------------------------------- documents

  lemma {:induction false} SplitLines(md: string)
    ensures AllOneLine(Split(md)) && Join(Split(md)) == md
  {
    if md != [] {
      SplitLines(md[1..]);
      var rest := Split(md[1..]);
      if md[0] == '\n' {
        assert Split(md)[1..] == rest;
        assert md == [] + ['\n'] + md[1..];
      } else {
        var first := [md[0]] + rest[0];
        assert Split(md)[1..] == rest[1..];
        assert md == [md[0]] + md[1..];
        if |rest| > 1 {
          assert Join(Split(md)) == first + ['\n'] + Join(rest[1..]);
          assert Join(rest) == rest[0] + ['\n'] + Join(rest[1..]);
        }
      }
    }
  }

  lemma {:induction false} SplitOneLine(line: string)
    requires OneLine(line)
    ensures Split(line) == [line]
  {
    if line != [] {
      assert OneLine(line[1..]);
      SplitOneLine(line[1..]);
      assert line == [line[0]] + line[1..];
    }
  }

  lemma {:induction false} SplitPrefix(line: string, tail: string)
    requires OneLine(line)
    ensures Split(line + ['\n'] + tail) == [line] + Split(tail)
  {
    var md := line + ['\n'] + tail;
    if line == [] {
      assert md[1..] == tail;
    } else {
      assert OneLine(line[1..]);
      SplitPrefix(line[1..], tail);
      assert md[1..] == line[1..] + ['\n'] + tail;
      assert line == [line[0]] + line[1..];
    }
  }

  /** Splitting undoes joining, except that no lines at all come back as one empty line. */
  lemma {:induction false} SplitJoin(lines: seq<string>)
    requires AllOneLine(lines)
    ensures Split(Join(lines)) == if lines == [] then [[]] else lines
    decreases |lines|
  {
    if |lines| == 1 {
      SplitOneLine(lines[0]);
      assert lines == [lines[0]];
    } else if |lines| > 1 {
      assert AllOneLine(lines[1..]);
      SplitJoin(lines[1..]);
      SplitPrefix(lines[0], Join(lines[1..]));
      assert lines == [lines[0]] + lines[1..];
    }
  }

  lemma {:induction false} PassOneLine(lines: seq<string>)
    requires AllOneLine(lines)
    ensures AllOneLine(Pass(lines))
    decreases |lines|
  {
    if lines != [] {
      assert AllOneLine(lines[1..]);
      PassOneLine(lines[1..]);
    }
  }

  /** What drop_empty_headings makes of a document. */
  function Pruned(md: string): string {
    Join(Prune(Split(md)))
  }

  /** The same on the text of a document. */
  lemma TextHeadingStays(before: seq<string>, heading: string, k: nat, section: seq<string>, after: seq<string>)
    requires AllOneLine(before + [heading] + section + after) && Heads(heading, k) && Within(k, section)
    requires Closes(k, after)
    ensures Pruned(Join(before + [heading] + section + after)) == Join(KeptBefore(before, [heading] + (section + after))
      + (if Populated(section) then [heading] else []) + Prune(section + after))
  {
    var lines := before + [heading] + section + after;
    SplitJoin(lines);
    assert lines == before + [heading] + (section + after);
    HeadingStays(before, heading, k, section, after);
  }

  lemma BlankLineStays()
    ensures Pass([[]]) == [[]] && Prune([[]]) == [[]]
  {
    assert Level([]).None?;
  }

  /** Pruning again changes nothing, even when every line was removed. */
  lemma PrunedIsFixpoint(md: string)
    ensures Pruned(Pruned(md)) == Pruned(md)
    ensures Join(Pass(Split(Pruned(md)))) == Pruned(md)
  {
    var lines := Split(md);
    SplitLines(md);
    SixPassesPrune(lines);
    PassesOneLine(6, lines);
    SplitJoin(Prune(lines));
    SixPassesPrune(Prune(lines));
    FixpointIsPruned(Prune(lines));
    BlankLineStays();
  }

  lemma {:induction false} PassesOneLine(n: nat, lines: seq<string>)
    requires AllOneLine(lines)
    ensures AllOneLine(Passes(n, lines))
  {
    if n > 0 {
      PassesOneLine(n - 1, lines);
      PassOneLine(Passes(n - 1, lines));
    }
  }

  lemma {:induction false} PassesKeepVerdict(n: nat, lines: seq<string>)
    ensures Prune(Passes(n, lines)) == Prune(lines)
  {
    if n > 0 {
      PassesKeepVerdict(n - 1, lines);
      PruneAfterPass(Passes(n - 1, lines));
    }
  }

  /** A pass that gives back the same text has reached the specification, whatever the text was. */
  lemma StoppedAtSpecification(n: nat, start: seq<string>)
    requires AllOneLine(start)
    requires Join(Pass(Split(Join(Passes(n, start))))) == Join(Passes(n, start))
    ensures Join(Passes(n, start)) == Join(Prune(start))
  {
    var lines := Passes(n, start);
    PassesOneLine(n, start);
    PassesKeepVerdict(n, start);
    SplitJoin(lines);
    BlankLineStays();
    if lines != [] {
      PassOneLine(lines);
      SplitJoin(Pass(lines));
      FixpointIsPruned(lines);
    }
  }

  // ---------------------------------------------------------------- the loop itself

  /** The inner scan: the index of the next heading at the same or a shallower level. */
  method FindStop(lines: seq<string>, index: nat, level: nat) returns (stop: nat)
    requires index < |lines|
    ensures stop == index + 1 + Span(level, lines[index + 1..])
  {
    stop := index + 1;
    while stop < |lines| && !EndsSection(level, lines[stop])
      invariant index + 1 <= stop <= |lines|
      invariant Span(level, lines[index + 1..]) == stop - (index + 1) + Span(level, lines[stop..])
    {
      assert lines[stop..][1..] == lines[stop + 1..];
      stop := stop + 1;
    }
  }

  method AnyText(lines: seq<string>, from: nat, to: nat) returns (any: bool)
    requires from <= to <= |lines|
    ensures any <==> exists i :: from <= i < to && !Blank(lines[i])
  {
    any := false;
    for i := from to to
      invariant any <==> exists k :: from <= k < i && !Blank(lines[k])
    {
      if !Blank(lines[i]) { any := true; }
    }
  }

  /** One iteration of the outer loop. */
  method RunPass(lines: seq<string>) returns (out: seq<string>)
    ensures out == Pass(lines)
  {
    out := [];
    assert lines[0..] == lines;
    for index := 0 to |lines|
      invariant out + Pass(lines[index..]) == Pass(lines)
    {
      var line := lines[index];
      var rest := lines[index + 1..];
      assert lines[index..][1..] == rest && lines[index..][0] == line;
      var level := Level(line);
      if level.Some? {
        var stop := FindStop(lines, index, level.value);
        var any := AnyText(lines, index + 1, stop);
        assert any <==> HasText(level.value, rest) by {
          if k :| index + 1 <= k < stop && !Blank(lines[k]) { assert !Blank(rest[k - (index + 1)]); }
          if k :| 0 <= k < Span(level.value, rest) && !Blank(rest[k]) { assert !Blank(lines[k + index + 1]); }
        }
        if !any { continue; }
      }
      out := out + [line];
    }
    assert lines[|lines|..] == [];
  }

  /** The fixpoint test fires in the seventh pass at the latest, so eight passes never run out. */
  lemma SeventhPassStops(start: seq<string>)
    requires AllOneLine(start)
    ensures Join(Pass(Split(Join(Passes(6, start))))) == Join(Passes(6, start))
  {
    SixPassesPrune(start);
    PassesOneLine(6, start);
    SplitJoin(Prune(start));
    BlankLineStays();
  }

  /** The eight-pass loop returns the specification, and one more pass would change nothing. */
  method DropEmptyHeadings(document: string) returns (md: string)
    ensures md == Pruned(document)
    ensures Join(Pass(Split(md))) == md
  {
    md := document;
    SplitLines(md);
    PrunedIsFixpoint(document);
    ghost var start := Split(document);
    ghost var lines := start;
    for n := 0 to 8
      invariant lines == Passes(n, start) && AllOneLine(lines)
      invariant md == Join(lines)
    {
      SplitJoin(lines);
      var current := Split(md);
      var out := RunPass(current);
      var collapsed := Join(out);
      PassOneLine(current);
      SplitJoin(out);
      BlankLineStays();
      if collapsed == md {
        StoppedAtSpecification(n, start);
        return;
      }
      lines := out;
      md := collapsed;
    }
    SixPassesPrune(start);
  }
}
