/**
 The image-analysis token budget (packages/contracts/src/image-analysis.ts): the payload schema at an
 output-token ceiling T, its JSON encoding, and the bound the ceiling is sized for.
 */
module ImageBudget {
  import opened Options
  import opened Json
  import JsonReader

  // ---------------------------------------------------------------- constants

  const REFERENCE := 8192
  const FIXED_CHARS := 1622
  const HEADROOM := 76

  const LANGUAGE := 16
  const DESCRIPTION := 1200

  const VISIBLE_TEXT := 2500
  const TABLE_CELL := 100
  const CHART_FIELD := 120
  const CHART_SERIES := 60
  const DIAGRAM_NODE := 50
  const DIAGRAM_EDGE := 70
  const LIMITATION := 120

  const TABLE_ROWS := 30
  const SERIES := 10
  const NODES := 25
  const EDGES := 30
  const LIMITATIONS := 6

  // ---------------------------------------------------------------- payloads

  datatype Kind = Screenshot | Diagram | Chart | Table | Photo | Other

  datatype ChartBlock = ChartBlock(
    xAxis: Option<Text>, yAxis: Option<Text>, trend: Option<Text>, series: Option<seq<Text>>)

  datatype DiagramBlock = DiagramBlock(nodes: Option<seq<Text>>, edges: Option<seq<Text>>)

  datatype Structured = Structured(
    tableRows: Option<seq<Text>>, chart: Option<ChartBlock>, diagram: Option<DiagramBlock>)

  datatype Payload = Payload(
    kind: Kind, language: Text, description: Text, visibleText: Text,
    structured: Option<Structured>, limitations: seq<Text>)

  // ---------------------------------------------------------------- the schema

  /** floor(base * min(1, (T - 1622) / (8192 - 1622))) in exact arithmetic. */
  function Scale(base: nat, T: int): int {
    if T >= REFERENCE then base else base * (T - FIXED_CHARS) / (REFERENCE - FIXED_CHARS)
  }

  /** JSON.stringify(value).length - 2. */
  function EmittedLength(s: Text): int {
    |Quote(s)| - 2
  }

  predicate Bounded(s: Text, max: int) {
    EmittedLength(s) <= max
  }

  predicate BoundedOption(s: Option<Text>, max: int) {
    s.Some? ==> Bounded(s.value, max)
  }

  predicate BoundedItems(items: seq<Text>, count: nat, max: int) {
    |items| <= count && forall i :: 0 <= i < |items| ==> Bounded(items[i], max)
  }

  predicate BoundedItemsOption(items: Option<seq<Text>>, count: nat, max: int) {
    items.Some? ==> BoundedItems(items.value, count, max)
  }

  predicate ValidChart(c: ChartBlock, T: int) {
    && BoundedOption(c.xAxis, Scale(CHART_FIELD, T))
    && BoundedOption(c.yAxis, Scale(CHART_FIELD, T))
    && BoundedOption(c.trend, Scale(CHART_FIELD, T))
    && BoundedItemsOption(c.series, SERIES, Scale(CHART_SERIES, T))
  }

  predicate ValidDiagram(d: DiagramBlock, T: int) {
    && BoundedItemsOption(d.nodes, NODES, Scale(DIAGRAM_NODE, T))
    && BoundedItemsOption(d.edges, EDGES, Scale(DIAGRAM_EDGE, T))
  }

  /** Only the block that matches the kind may be present. */
  predicate BlocksMatch(kind: Kind, s: Structured) {
    && (s.tableRows.Some? ==> kind.Table?)
    && (s.chart.Some? ==> kind.Chart?)
    && (s.diagram.Some? ==> kind.Diagram?)
  }

  predicate ValidStructured(kind: Kind, s: Structured, T: int) {
    && BlocksMatch(kind, s)
    && BoundedItemsOption(s.tableRows, TABLE_ROWS, Scale(TABLE_CELL, T))
    && (s.chart.Some? ==> ValidChart(s.chart.value, T))
    && (s.diagram.Some? ==> ValidDiagram(s.diagram.value, T))
  }

  /** imageAnalysisPayloadSchema(T) accepts the payload. */
  predicate Valid(p: Payload, T: int) {
    && Bounded(p.language, LANGUAGE)
    && Bounded(p.description, DESCRIPTION)
    && Bounded(p.visibleText, Scale(VISIBLE_TEXT, T))
    && (p.structured.Some? ==> ValidStructured(p.kind, p.structured.value, T))
    && BoundedItems(p.limitations, LIMITATIONS, Scale(LIMITATION, T))
  }

  // ---------------------------------------------------------------- the encoding

  function KindName(kind: Kind): Text {
    match kind
    case Screenshot => Ascii("screenshot")
    case Diagram => Ascii("diagram")
    case Chart => Ascii("chart")
    case Table => Ascii("table")
    case Photo => Ascii("photo")
    case Other => Ascii("other")
  }

  function Strings(items: seq<Text>): Value {
    Array(seq(|items|, i requires 0 <= i < |items| => String(items[i])))
  }

  /** An optional member: JSON.stringify leaves undefined ones out. */
  function Optional(key: Text, v: Option<Value>): seq<Member> {
    if v.None? then [] else [Member(key, v.value)]
  }

  function OptString(s: Option<Text>): Option<Value> {
    if s.None? then None else Some(String(s.value))
  }

  function OptStrings(items: Option<seq<Text>>): Option<Value> {
    if items.None? then None else Some(Strings(items.value))
  }

  function ChartValue(c: ChartBlock): Value {
    Object(Optional(Ascii("xAxis"), OptString(c.xAxis)) + Optional(Ascii("yAxis"), OptString(c.yAxis))
           + Optional(Ascii("trend"), OptString(c.trend)) + Optional(Ascii("series"), OptStrings(c.series)))
  }

  function DiagramValue(d: DiagramBlock): Value {
    Object(Optional(Ascii("nodes"), OptStrings(d.nodes)) + Optional(Ascii("edges"), OptStrings(d.edges)))
  }

  function OptChart(s: Structured): Option<Value> {
    if s.chart.None? then None else Some(ChartValue(s.chart.value))
  }

  function OptDiagram(s: Structured): Option<Value> {
    if s.diagram.None? then None else Some(DiagramValue(s.diagram.value))
  }

  function StructuredValue(s: Structured): Value {
    Object(Optional(Ascii("tableRows"), OptStrings(s.tableRows))
           + Optional(Ascii("chart"), OptChart(s)) + Optional(Ascii("diagram"), OptDiagram(s)))
  }

  function OptStructured(p: Payload): Option<Value> {
    if p.structured.None? then None else Some(StructuredValue(p.structured.value))
  }

  function Head(p: Payload): seq<Member> {
    Optional(Ascii("schemaVersion"), Some(Number(Ascii("1")))) + Optional(Ascii("kind"), Some(String(KindName(p.kind))))
  }

  function Texts(p: Payload): seq<Member> {
    Optional(Ascii("language"), Some(String(p.language)))
    + Optional(Ascii("description"), Some(String(p.description)))
    + Optional(Ascii("visibleText"), Some(String(p.visibleText)))
  }

  function Tail(p: Payload): seq<Member> {
    Optional(Ascii("limitations"), Some(Strings(p.limitations)))
  }

  function PayloadValue(p: Payload): Value {
    Object(Head(p) + Texts(p) + Optional(Ascii("structured"), OptStructured(p)) + Tail(p))
  }

  /** JSON.stringify(payload). */
  function Encode(p: Payload): Text {
    Stringify(PayloadValue(p))
  }

  // ---------------------------------------------------------------- plain ASCII costs itself

  predicate Plain(s: Text) {
    forall i :: 0 <= i < |s| ==> 0x23 <= s[i] < 0x5C || 0x5C < s[i] < 0x7F
  }

  lemma {:induction false} PlainEscape(s: Text)
    requires Plain(s)
    ensures Escape(s) == s
  {
    if s != [] {
      assert !PairAt(s) && EscapeUnit(s[0]) == [s[0]];
      PlainEscape(s[1..]);
      assert s == [s[0]] + s[1..];
    }
  }

  predicate Letters(key: string) {
    forall i :: 0 <= i < |key| ==> 'A' <= key[i] <= 'Z' || 'a' <= key[i] <= 'z'
  }

  lemma BlockKeys()
    ensures Letters("xAxis") && Letters("yAxis") && Letters("trend") && Letters("series")
    ensures Letters("nodes") && Letters("edges")
    ensures Letters("tableRows") && Letters("chart") && Letters("diagram")
  {
  }

  lemma PayloadKeys()
    ensures Letters("schemaVersion") && Letters("kind") && Letters("language") && Letters("description")
    ensures Letters("visibleText") && Letters("structured") && Letters("limitations")
  {
  }

  lemma KeyLength(key: string)
    requires Letters(key)
    ensures |Quote(Ascii(key))| == |key| + 2
  {
    PlainEscape(Ascii(key));
  }

  lemma KindLength(kind: Kind)
    ensures |Quote(KindName(kind))| == match kind
      case Screenshot => 12
      case Diagram => 9
      case _ => 7
  {
    match kind {
      case Screenshot => KeyLength("screenshot");
      case Diagram => KeyLength("diagram");
      case Chart => KeyLength("chart");
      case Table => KeyLength("table");
      case Photo => KeyLength("photo");
      case Other => KeyLength("other");
    }
  }

  // ---------------------------------------------------------------- lengths of the parts

  lemma ObjectLength(members: seq<Member>)
    ensures |Stringify(Object(members))| == if Width(members) == 0 then 2 else 1 + Width(members)
  {
    MembersLength(members);
    assert Width(members) == 0 <==> members == [];
  }

  lemma OptionalWidth(key: string, v: Option<Value>)
    requires Letters(key)
    ensures Width(Optional(Ascii(key), v)) == if v.None? then 0 else |key| + 4 + |Stringify(v.value)|
  {
    KeyLength(key);
    if v.Some? {
      var m := Member(Ascii(key), v.value);
      assert Width([m]) == |StringifyMember(m)| + 1 + Width([]);
    }
  }

  /** A member that is always present. */
  lemma RequiredWidth(key: string, v: Value)
    requires Letters(key)
    ensures Width(Optional(Ascii(key), Some(v))) == |key| + 4 + |Stringify(v)|
  {
    OptionalWidth(key, Some(v));
  }

  lemma WidthThree(a: seq<Member>, b: seq<Member>, c: seq<Member>)
    ensures Width(a + b + c) == Width(a) + Width(b) + Width(c)
  {
    hide Width;
    WidthAppend(a, b);
    WidthAppend(a + b, c);
  }

  lemma WidthFour(a: seq<Member>, b: seq<Member>, c: seq<Member>, d: seq<Member>)
    ensures Width(a + b + c + d) == Width(a) + Width(b) + Width(c) + Width(d)
  {
    hide Width;
    WidthThree(a, b, c);
    WidthAppend(a + b + c, d);
  }

  /** The longest array of `count` strings of emitted length `max`. */
  function ArrayMax(count: nat, max: int): int {
    count * (max + 3) + 1
  }

  lemma TimesStep(n: int, k: int)
    ensures n * k == (n - 1) * k + k
  {
  }

  lemma ItemsWidthCons(items: seq<Text>)
    requires items != []
    ensures ItemsWidth(Strings(items).items) == EmittedLength(items[0]) + 3 + ItemsWidth(Strings(items[1..]).items)
  {
    assert Strings(items).items[1..] == Strings(items[1..]).items;
  }

  lemma {:induction false} ItemsWidthBound(items: seq<Text>, max: int)
    requires forall i :: 0 <= i < |items| ==> Bounded(items[i], max)
    ensures ItemsWidth(Strings(items).items) <= |items| * (max + 3)
    decreases |items|
  {
    if items != [] {
      ItemsWidthBound(items[1..], max);
      ItemsWidthCons(items);
      TimesStep(|items|, max + 3);
      assert Bounded(items[0], max);
      hide ItemsWidth; hide Stringify; hide Strings; hide Quote;
    }
  }

  lemma {:induction false} ItemsWidthExact(items: seq<Text>, max: int)
    requires forall i :: 0 <= i < |items| ==> EmittedLength(items[i]) == max
    ensures ItemsWidth(Strings(items).items) == |items| * (max + 3)
    decreases |items|
  {
    if items != [] {
      ItemsWidthExact(items[1..], max);
      ItemsWidthCons(items);
      TimesStep(|items|, max + 3);
      assert EmittedLength(items[0]) == max;
      hide ItemsWidth; hide Stringify; hide Strings; hide Quote;
    }
  }

  lemma TimesMonotone(a: int, b: int, c: int)
    requires a <= b && c >= 0
    ensures a * c <= b * c
  {
  }

  lemma ArrayLength(items: seq<Value>)
    ensures |Stringify(Array(items))| == if items == [] then 2 else 1 + ItemsWidth(items)
  {
    ItemsLength(items);
  }

  lemma StringsLength(items: seq<Text>, count: nat, max: int)
    requires BoundedItems(items, count, max) && max >= 0 && count >= 1
    ensures |Stringify(Strings(items))| <= ArrayMax(count, max)
  {
    ItemsWidthBound(items, max);
    ArrayLength(Strings(items).items);
    TimesMonotone(|items|, count, max + 3);
    TimesMonotone(1, count, max + 3);
    hide Stringify; hide ItemsWidth;
  }

  lemma OptStringsLength(items: Option<seq<Text>>, count: nat, max: int)
    requires BoundedItemsOption(items, count, max) && max >= 0 && count >= 1
    ensures items.Some? ==> |Stringify(OptStrings(items).value)| <= ArrayMax(count, max)
  {
    if items.Some? { StringsLength(items.value, count, max); }
  }

  // ---------------------------------------------------------------- the largest payload of each kind

  function ChartMax(T: int): int {
    1 + 3 * (11 + Scale(CHART_FIELD, T)) + 10 + ArrayMax(SERIES, Scale(CHART_SERIES, T))
  }

  function DiagramMax(T: int): int {
    1 + 9 + ArrayMax(NODES, Scale(DIAGRAM_NODE, T)) + 9 + ArrayMax(EDGES, Scale(DIAGRAM_EDGE, T))
  }

  function StructuredMax(kind: Kind, T: int): int {
    match kind
    case Table => 1 + 13 + ArrayMax(TABLE_ROWS, Scale(TABLE_CELL, T))
    case Chart => 1 + 9 + ChartMax(T)
    case Diagram => 1 + 11 + DiagramMax(T)
    case _ => 2
  }

  /** Length of the largest payload of a kind at a ceiling. */
  function PayloadMax(kind: Kind, T: int): int {
    1 + 18 + (8 + |Quote(KindName(kind))|) + (14 + LANGUAGE) + (17 + DESCRIPTION) + (17 + Scale(VISIBLE_TEXT, T))
      + (14 + StructuredMax(kind, T)) + (15 + ArrayMax(LIMITATIONS, Scale(LIMITATION, T)))
  }

  lemma ScaleSign(base: nat, T: int)
    requires base > 0
    ensures Scale(base, T) >= 0 <==> T >= FIXED_CHARS
  {
    if T < FIXED_CHARS {
      assert base * (T - FIXED_CHARS) < 0;
    } else {
      assert base * (T - FIXED_CHARS) >= 0;
    }
  }

  lemma ScalesNonNegative(T: int)
    requires T >= FIXED_CHARS
    ensures Scale(VISIBLE_TEXT, T) >= 0 && Scale(TABLE_CELL, T) >= 0 && Scale(CHART_FIELD, T) >= 0
    ensures Scale(CHART_SERIES, T) >= 0 && Scale(DIAGRAM_NODE, T) >= 0 && Scale(DIAGRAM_EDGE, T) >= 0
    ensures Scale(LIMITATION, T) >= 0
  {
    ScaleSign(VISIBLE_TEXT, T);
    ScaleSign(TABLE_CELL, T);
    ScaleSign(CHART_FIELD, T);
    ScaleSign(CHART_SERIES, T);
    ScaleSign(DIAGRAM_NODE, T);
    ScaleSign(DIAGRAM_EDGE, T);
    ScaleSign(LIMITATION, T);
  }

  /** Characters of an optional member whose key has `n` letters, with its separator. */
  function OptCost(n: nat, v: Option<Value>): nat {
    if v.None? then 0 else n + 4 + |Stringify(v.value)|
  }

  /** Characters of an object whose members cost `n`. */
  function Braces(n: nat): nat {
    if n == 0 then 2 else 1 + n
  }

  lemma ChartCost(c: ChartBlock)
    ensures |Stringify(ChartValue(c))| == Braces(
      OptCost(5, OptString(c.xAxis)) + OptCost(5, OptString(c.yAxis)) + OptCost(5, OptString(c.trend))
      + OptCost(6, OptStrings(c.series)))
  {
    BlockKeys();
    hide Letters;
    var x, y := Optional(Ascii("xAxis"), OptString(c.xAxis)), Optional(Ascii("yAxis"), OptString(c.yAxis));
    var t, s := Optional(Ascii("trend"), OptString(c.trend)), Optional(Ascii("series"), OptStrings(c.series));
    OptionalWidth("xAxis", OptString(c.xAxis));
    OptionalWidth("yAxis", OptString(c.yAxis));
    OptionalWidth("trend", OptString(c.trend));
    OptionalWidth("series", OptStrings(c.series));
    WidthFour(x, y, t, s);
    ObjectLength(x + y + t + s);
    hide Width; hide Optional; hide OptString; hide OptStrings;
  }

  lemma DiagramCost(d: DiagramBlock)
    ensures |Stringify(DiagramValue(d))| == Braces(OptCost(5, OptStrings(d.nodes)) + OptCost(5, OptStrings(d.edges)))
  {
    BlockKeys();
    hide Letters;
    var n, e := Optional(Ascii("nodes"), OptStrings(d.nodes)), Optional(Ascii("edges"), OptStrings(d.edges));
    OptionalWidth("nodes", OptStrings(d.nodes));
    OptionalWidth("edges", OptStrings(d.edges));
    WidthAppend(n, e);
    ObjectLength(n + e);
    hide Width; hide Optional; hide OptStrings;
  }

  lemma StructuredCost(s: Structured)
    ensures |Stringify(StructuredValue(s))| == Braces(
      OptCost(9, OptStrings(s.tableRows)) + OptCost(5, OptChart(s)) + OptCost(7, OptDiagram(s)))
  {
    BlockKeys();
    hide Letters;
    var t, c, d := Optional(Ascii("tableRows"), OptStrings(s.tableRows)),
                   Optional(Ascii("chart"), OptChart(s)), Optional(Ascii("diagram"), OptDiagram(s));
    OptionalWidth("tableRows", OptStrings(s.tableRows));
    OptionalWidth("chart", OptChart(s));
    OptionalWidth("diagram", OptDiagram(s));
    WidthThree(t, c, d);
    ObjectLength(t + c + d);
    hide Width; hide Optional; hide OptStrings; hide OptChart; hide OptDiagram;
  }

  lemma ChartLength(c: ChartBlock, T: int)
    requires ValidChart(c, T) && T >= FIXED_CHARS
    ensures |Stringify(ChartValue(c))| <= ChartMax(T)
  {
    ScalesNonNegative(T);
    OptStringsLength(c.series, SERIES, Scale(CHART_SERIES, T));
    ChartCost(c);
    hide Scale; hide ChartValue;
  }

  lemma DiagramLength(d: DiagramBlock, T: int)
    requires ValidDiagram(d, T) && T >= FIXED_CHARS
    ensures |Stringify(DiagramValue(d))| <= DiagramMax(T)
  {
    ScalesNonNegative(T);
    OptStringsLength(d.nodes, NODES, Scale(DIAGRAM_NODE, T));
    OptStringsLength(d.edges, EDGES, Scale(DIAGRAM_EDGE, T));
    DiagramCost(d);
    hide Scale; hide DiagramValue; hide Stringify;
  }

  lemma StructuredLength(kind: Kind, s: Structured, T: int)
    requires ValidStructured(kind, s, T) && T >= FIXED_CHARS
    ensures |Stringify(StructuredValue(s))| <= StructuredMax(kind, T)
  {
    ScalesNonNegative(T);
    StructuredCost(s);
    OptStringsLength(s.tableRows, TABLE_ROWS, Scale(TABLE_CELL, T));
    if s.chart.Some? { ChartLength(s.chart.value, T); }
    if s.diagram.Some? { DiagramLength(s.diagram.value, T); }
  }

  lemma HeadWidth(p: Payload)
    ensures Width(Head(p)) == 18 + 8 + |Quote(KindName(p.kind))|
  {
    PayloadKeys();
    hide Letters;
    RequiredWidth("schemaVersion", Number(Ascii("1")));
    RequiredWidth("kind", String(KindName(p.kind)));
    WidthAppend(Optional(Ascii("schemaVersion"), Some(Number(Ascii("1")))),
                Optional(Ascii("kind"), Some(String(KindName(p.kind)))));
    hide Width; hide Optional;
  }

  lemma TextsWidth(p: Payload)
    ensures Width(Texts(p)) ==
      14 + EmittedLength(p.language) + 17 + EmittedLength(p.description) + 17 + EmittedLength(p.visibleText)
  {
    PayloadKeys();
    hide Letters;
    RequiredWidth("language", String(p.language));
    RequiredWidth("description", String(p.description));
    RequiredWidth("visibleText", String(p.visibleText));
    WidthThree(Optional(Ascii("language"), Some(String(p.language))),
               Optional(Ascii("description"), Some(String(p.description))),
               Optional(Ascii("visibleText"), Some(String(p.visibleText))));
    hide Width; hide Optional;
  }

  lemma PayloadWidth(p: Payload)
    ensures Width(Head(p) + Texts(p) + Optional(Ascii("structured"), OptStructured(p)) + Tail(p)) ==
      Width(Head(p)) + Width(Texts(p)) + OptCost(10, OptStructured(p)) + (15 + |Stringify(Strings(p.limitations))|)
  {
    PayloadKeys();
    hide Letters;
    OptionalWidth("structured", OptStructured(p));
    RequiredWidth("limitations", Strings(p.limitations));
    WidthFour(Head(p), Texts(p), Optional(Ascii("structured"), OptStructured(p)), Tail(p));
    hide Width; hide Optional; hide Head; hide Texts; hide OptStructured; hide Stringify;
  }

  lemma PayloadLength(p: Payload)
    ensures |Encode(p)| ==
      1 + 18 + 8 + |Quote(KindName(p.kind))| + 14 + EmittedLength(p.language)
        + 17 + EmittedLength(p.description) + 17 + EmittedLength(p.visibleText)
        + OptCost(10, OptStructured(p)) + 15 + |Stringify(Strings(p.limitations))|
  {
    HeadWidth(p);
    TextsWidth(p);
    PayloadWidth(p);
    hide OptCost; hide Width; hide Stringify; hide Optional; hide Head; hide Texts; hide Tail; hide Quote; hide Strings;
    ObjectLength(Head(p) + Texts(p) + Optional(Ascii("structured"), OptStructured(p)) + Tail(p));
  }

  /** No payload the schema accepts is longer than its kind's maximum. */
  lemma PayloadBounded(p: Payload, T: int)
    requires Valid(p, T)
    ensures T >= FIXED_CHARS && |Encode(p)| <= PayloadMax(p.kind, T)
  {
    ScaleSign(VISIBLE_TEXT, T);
    ScalesNonNegative(T);
    PayloadLength(p);
    if p.structured.Some? { StructuredLength(p.kind, p.structured.value, T); }
    StringsLength(p.limitations, LIMITATIONS, Scale(LIMITATION, T));
  }

  // ---------------------------------------------------------------- the budget

  /** Flooring loses at most what the base figure gains: weights that sum to at most 6570 stay within T - 1622. */
  lemma FloorBudget(base: nat, T: int)
    requires FIXED_CHARS <= T <= REFERENCE
    ensures 6570 * Scale(base, T) <= base * (T - FIXED_CHARS) < 6570 * (Scale(base, T) + 1)
    ensures 6570 * Scale(base, T) == base * (T - FIXED_CHARS) <==> base * (T - FIXED_CHARS) % 6570 == 0
  {
    if T == REFERENCE { assert base * 6570 % 6570 == 0; }
  }

  lemma BudgetBelowReference(kind: Kind, T: int)
    requires FIXED_CHARS <= T <= REFERENCE
    ensures PayloadMax(kind, T) <= T - HEADROOM
    ensures PayloadMax(kind, T) == T - HEADROOM ==> kind.Diagram?
  {
    KindLength(kind);
    FloorBudget(VISIBLE_TEXT, T);
    FloorBudget(LIMITATION, T);
    match kind {
      case Diagram => FloorBudget(DIAGRAM_NODE, T); FloorBudget(DIAGRAM_EDGE, T);
      case Table => FloorBudget(TABLE_CELL, T);
      case Chart => FloorBudget(CHART_FIELD, T); FloorBudget(CHART_SERIES, T);
      case _ =>
    }
  }

  /** The floors lose nothing exactly when 657 divides T - 1622. */
  lemma DiagramTight(T: int)
    requires FIXED_CHARS <= T <= REFERENCE
    ensures PayloadMax(Diagram, T) == T - HEADROOM <==> (T - FIXED_CHARS) % 657 == 0
  {
    var u := T - FIXED_CHARS;
    KindLength(Diagram);
    FloorBudget(VISIBLE_TEXT, T);
    FloorBudget(LIMITATION, T);
    FloorBudget(DIAGRAM_NODE, T);
    FloorBudget(DIAGRAM_EDGE, T);
    FloorsExact(u);
    var v, n, e, l := Scale(VISIBLE_TEXT, T), Scale(DIAGRAM_NODE, T), Scale(DIAGRAM_EDGE, T), Scale(LIMITATION, T);
    hide Scale;
    assert PayloadMax(Diagram, T) == 1546 + v + 25 * n + 30 * e + 6 * l;
  }

  lemma FloorsExact(u: nat)
    ensures 2500 * u % 6570 == 0 && 120 * u % 6570 == 0 && 50 * u % 6570 == 0 && 70 * u % 6570 == 0 <==> u % 657 == 0
  {
    if u % 657 == 0 { MultipleLosesNothing(u / 657); }
    if 50 * u % 6570 == 0 && 70 * u % 6570 == 0 {
      var n, e := 50 * u / 6570, 70 * u / 6570;
      assert u == 657 * (3 * n - 2 * e);
    }
  }

  lemma MultipleLosesNothing(k: nat)
    ensures var u := 657 * k;
      2500 * u % 6570 == 0 && 120 * u % 6570 == 0 && 50 * u % 6570 == 0 && 70 * u % 6570 == 0
  {
    Divides(2500 * (657 * k), 250 * k);
    Divides(120 * (657 * k), 12 * k);
    Divides(50 * (657 * k), 5 * k);
    Divides(70 * (657 * k), 7 * k);
  }

  lemma Divides(a: int, b: int)
    requires a == 6570 * b
    ensures a % 6570 == 0
  {
  }

  /** The budget invariant, for every kind and every integer ceiling at which any payload is accepted. */
  lemma Budget(kind: Kind, T: int)
    requires T >= FIXED_CHARS
    ensures PayloadMax(kind, T) <= T - HEADROOM
    ensures PayloadMax(kind, T) == T - HEADROOM <==>
      kind.Diagram? && T <= REFERENCE && (T - FIXED_CHARS) % 657 == 0
  {
    if T <= REFERENCE {
      BudgetBelowReference(kind, T);
      DiagramTight(T);
    } else {
      BudgetBelowReference(kind, REFERENCE);
      assert PayloadMax(kind, T) == PayloadMax(kind, REFERENCE);
    }
  }

  /** The stated theorem: whatever the schema accepts encodes to at most T - 76 characters. */
  lemma EncodingFits(p: Payload, T: int)
    requires Valid(p, T)
    ensures |Encode(p)| <= T - HEADROOM
  {
    PayloadBounded(p, T);
    Budget(p.kind, T);
  }

  // ---------------------------------------------------------------- the bounds are met

  function Fill(n: nat): Text {
    seq(n, _ => 0x78)
  }

  lemma FillLength(n: nat)
    ensures EmittedLength(Fill(n)) == n
  {
    PlainEscape(Fill(n));
  }

  function FillAll(count: nat, max: nat): seq<Text> {
    seq(count, _ => Fill(max))
  }

  lemma FillAllLength(count: nat, max: nat)
    requires count >= 1
    ensures BoundedItems(FillAll(count, max), count, max)
    ensures |Stringify(Strings(FillAll(count, max)))| == ArrayMax(count, max)
  {
    FillLength(max);
    ItemsWidthExact(FillAll(count, max), max);
    ArrayLength(Strings(FillAll(count, max)).items);
  }

  /** Every string at its bound, every array at its count, every block the kind may carry. */
  function Maximal(kind: Kind, T: int): Payload
    requires T >= FIXED_CHARS
  {
    ScalesNonNegative(T);
    var chart := ChartBlock(Some(Fill(Scale(CHART_FIELD, T))), Some(Fill(Scale(CHART_FIELD, T))),
                            Some(Fill(Scale(CHART_FIELD, T))), Some(FillAll(SERIES, Scale(CHART_SERIES, T))));
    var diagram := DiagramBlock(Some(FillAll(NODES, Scale(DIAGRAM_NODE, T))),
                                Some(FillAll(EDGES, Scale(DIAGRAM_EDGE, T))));
    Payload(kind, Fill(LANGUAGE), Fill(DESCRIPTION), Fill(Scale(VISIBLE_TEXT, T)),
            Some(Structured(if kind.Table? then Some(FillAll(TABLE_ROWS, Scale(TABLE_CELL, T))) else None,
                            if kind.Chart? then Some(chart) else None,
                            if kind.Diagram? then Some(diagram) else None)),
            FillAll(LIMITATIONS, Scale(LIMITATION, T)))
  }

  lemma MaximalChart(c: ChartBlock, T: int)
    requires T >= FIXED_CHARS && Maximal(Chart, T).structured.value.chart == Some(c)
    ensures ValidChart(c, T) && |Stringify(ChartValue(c))| == ChartMax(T)
  {
    ScalesNonNegative(T);
    FillLength(Scale(CHART_FIELD, T));
    FillAllLength(SERIES, Scale(CHART_SERIES, T));
    ChartCost(c);
    hide Scale; hide ChartValue;
  }

  lemma MaximalDiagram(d: DiagramBlock, T: int)
    requires T >= FIXED_CHARS && Maximal(Diagram, T).structured.value.diagram == Some(d)
    ensures ValidDiagram(d, T) && |Stringify(DiagramValue(d))| == DiagramMax(T)
  {
    ScalesNonNegative(T);
    FillAllLength(NODES, Scale(DIAGRAM_NODE, T));
    FillAllLength(EDGES, Scale(DIAGRAM_EDGE, T));
    DiagramCost(d);
    hide Scale; hide DiagramValue; hide Stringify;
  }

  lemma MaximalStructured(kind: Kind, T: int)
    requires T >= FIXED_CHARS
    ensures var s := Maximal(kind, T).structured.value;
      ValidStructured(kind, s, T) && |Stringify(StructuredValue(s))| == StructuredMax(kind, T)
  {
    ScalesNonNegative(T);
    var s := Maximal(kind, T).structured.value;
    StructuredCost(s);
    if kind.Table? { FillAllLength(TABLE_ROWS, Scale(TABLE_CELL, T)); }
    if kind.Chart? { MaximalChart(s.chart.value, T); }
    if kind.Diagram? { MaximalDiagram(s.diagram.value, T); }
  }

  /** The maximum of a kind is the length of a payload the schema accepts. */
  lemma MaximalReached(kind: Kind, T: int)
    requires T >= FIXED_CHARS
    ensures Valid(Maximal(kind, T), T) && |Encode(Maximal(kind, T))| == PayloadMax(kind, T)
  {
    ScalesNonNegative(T);
    var p := Maximal(kind, T);
    FillLength(LANGUAGE);
    FillLength(DESCRIPTION);
    FillLength(Scale(VISIBLE_TEXT, T));
    FillAllLength(LIMITATIONS, Scale(LIMITATION, T));
    MaximalStructured(kind, T);
    PayloadLength(p);
  }

  /** Exactly which kinds and ceilings use the budget up: nothing is left over for the diagram kind at
      8192 and at every smaller ceiling 657 steps apart. */
  lemma BudgetTight(kind: Kind, T: int)
    ensures (exists p: Payload :: p.kind == kind && Valid(p, T) && |Encode(p)| == T - HEADROOM) <==>
      kind.Diagram? && FIXED_CHARS <= T <= REFERENCE && (T - FIXED_CHARS) % 657 == 0
  {
    if p: Payload :| p.kind == kind && Valid(p, T) && |Encode(p)| == T - HEADROOM {
      PayloadBounded(p, T);
      Budget(kind, T);
    }
    if kind.Diagram? && FIXED_CHARS <= T <= REFERENCE && (T - FIXED_CHARS) % 657 == 0 {
      MaximalReached(kind, T);
      Budget(kind, T);
    }
  }

  // ---------------------------------------------------------------- what the schema accepts

  predicate NoLonger(s': Text, s: Text) {
    EmittedLength(s') <= EmittedLength(s)
  }

  predicate NoLongerOption(s': Option<Text>, s: Option<Text>) {
    s'.Some? ==> s.Some? && NoLonger(s'.value, s.value)
  }

  /** Items may be left out, and each that is kept is no longer than one that was there. */
  predicate NoMore(items': seq<Text>, items: seq<Text>) {
    |items'| <= |items|
    && forall i :: 0 <= i < |items'| ==> exists j :: 0 <= j < |items| && NoLonger(items'[i], items[j])
  }

  predicate NoMoreOption(items': Option<seq<Text>>, items: Option<seq<Text>>) {
    items'.Some? ==> items.Some? && NoMore(items'.value, items.value)
  }

  predicate SmallerChart(c': ChartBlock, c: ChartBlock) {
    NoLongerOption(c'.xAxis, c.xAxis) && NoLongerOption(c'.yAxis, c.yAxis) && NoLongerOption(c'.trend, c.trend)
    && NoMoreOption(c'.series, c.series)
  }

  predicate SmallerDiagram(d': DiagramBlock, d: DiagramBlock) {
    NoMoreOption(d'.nodes, d.nodes) && NoMoreOption(d'.edges, d.edges)
  }

  predicate SmallerStructured(s': Structured, s: Structured) {
    && NoMoreOption(s'.tableRows, s.tableRows)
    && (s'.chart.Some? ==> s.chart.Some? && SmallerChart(s'.chart.value, s.chart.value))
    && (s'.diagram.Some? ==> s.diagram.Some? && SmallerDiagram(s'.diagram.value, s.diagram.value))
  }

  /** The same kind of payload with optional members and items left out and no text longer than before. */
  predicate Smaller(p': Payload, p: Payload) {
    && p'.kind == p.kind
    && NoLonger(p'.language, p.language) && NoLonger(p'.description, p.description)
    && NoLonger(p'.visibleText, p.visibleText) && NoMore(p'.limitations, p.limitations)
    && (p'.structured.Some? ==> p.structured.Some? && SmallerStructured(p'.structured.value, p.structured.value))
  }

  lemma FewerItems(items': seq<Text>, items: seq<Text>, count: nat, max: int)
    requires NoMore(items', items) && BoundedItems(items, count, max)
    ensures BoundedItems(items', count, max)
  {
    forall i | 0 <= i < |items'| ensures Bounded(items'[i], max) {
      var j :| 0 <= j < |items| && NoLonger(items'[i], items[j]);
      assert Bounded(items[j], max);
    }
  }

  lemma FewerOption(items': Option<seq<Text>>, items: Option<seq<Text>>, count: nat, max: int)
    requires NoMoreOption(items', items) && BoundedItemsOption(items, count, max)
    ensures BoundedItemsOption(items', count, max)
  {
    if items'.Some? { FewerItems(items'.value, items.value, count, max); }
  }

  lemma LeavingOutStructured(s': Structured, s: Structured, kind: Kind, T: int)
    requires SmallerStructured(s', s) && ValidStructured(kind, s, T)
    ensures ValidStructured(kind, s', T)
  {
    hide EmittedLength; hide Scale;
    FewerOption(s'.tableRows, s.tableRows, TABLE_ROWS, Scale(TABLE_CELL, T));
    if s'.chart.Some? { FewerOption(s'.chart.value.series, s.chart.value.series, SERIES, Scale(CHART_SERIES, T)); }
    if s'.diagram.Some? {
      FewerOption(s'.diagram.value.nodes, s.diagram.value.nodes, NODES, Scale(DIAGRAM_NODE, T));
      FewerOption(s'.diagram.value.edges, s.diagram.value.edges, EDGES, Scale(DIAGRAM_EDGE, T));
    }
  }

  /** The schema sets upper bounds only: whatever is accepted stays acceptable when texts get shorter and optional
      parts or items go. */
  lemma LeavingOut(p': Payload, p: Payload, T: int)
    requires Smaller(p', p) && Valid(p, T)
    ensures Valid(p', T)
  {
    FewerItems(p'.limitations, p.limitations, LIMITATIONS, Scale(LIMITATION, T));
    if p'.structured.Some? { LeavingOutStructured(p'.structured.value, p.structured.value, p.kind, T); }
  }

  lemma ScaleMonotone(base: nat, T: int, T': int)
    requires T <= T'
    ensures Scale(base, T) <= Scale(base, T')
  {
    var D := REFERENCE - FIXED_CHARS;
    TimesMonotone(T - FIXED_CHARS, T' - FIXED_CHARS, base);
    assert base * D / D == base;
    if T < REFERENCE <= T' {
      TimesMonotone(T - FIXED_CHARS, D, base);
    }
  }

  /** A higher ceiling accepts whatever a lower one does. */
  lemma HigherCeiling(p: Payload, T: int, T': int)
    requires Valid(p, T) && T <= T'
    ensures Valid(p, T')
  {
    ScaleMonotone(VISIBLE_TEXT, T, T');
    ScaleMonotone(TABLE_CELL, T, T');
    ScaleMonotone(CHART_FIELD, T, T');
    ScaleMonotone(CHART_SERIES, T, T');
    ScaleMonotone(DIAGRAM_NODE, T, T');
    ScaleMonotone(DIAGRAM_EDGE, T, T');
    ScaleMonotone(LIMITATION, T, T');
    hide Scale; hide EmittedLength;
  }

  lemma BoundedIsNoLonger(s: Text, n: nat)
    ensures Bounded(s, n) <==> NoLonger(s, Fill(n))
  {
    FillLength(n);
  }

  lemma BoundedIsNoMore(items: seq<Text>, count: nat, n: nat)
    ensures BoundedItems(items, count, n) <==> NoMore(items, FillAll(count, n))
  {
    var all := FillAll(count, n);
    forall i | 0 <= i < |items| ensures Bounded(items[i], n) <==> NoLonger(items[i], Fill(n)) {
      BoundedIsNoLonger(items[i], n);
    }
    hide EmittedLength; hide Bounded;
    if BoundedItems(items, count, n) {
      forall i | 0 <= i < |items| ensures exists j :: 0 <= j < |all| && NoLonger(items[i], all[j]) {
        assert NoLonger(items[i], all[0]);
      }
    }
  }

  /** Exactly what is accepted: the payloads no larger than the maximal one of their kind. */
  lemma AcceptedExactly(p: Payload, T: int)
    ensures Valid(p, T) <==> T >= FIXED_CHARS && Smaller(p, Maximal(p.kind, T))
  {
    if T < FIXED_CHARS {
      ScaleSign(VISIBLE_TEXT, T);
      assert EmittedLength(p.visibleText) >= 0;
    } else if Smaller(p, Maximal(p.kind, T)) {
      MaximalReached(p.kind, T);
      LeavingOut(p, Maximal(p.kind, T), T);
    } else if Valid(p, T) {
      AcceptedIsSmaller(p, T);
    }
  }

  lemma AcceptedIsSmaller(p: Payload, T: int)
    requires T >= FIXED_CHARS && Valid(p, T)
    ensures Smaller(p, Maximal(p.kind, T))
  {
    ScalesNonNegative(T);
    BoundedIsNoLonger(p.language, LANGUAGE);
    BoundedIsNoLonger(p.description, DESCRIPTION);
    BoundedIsNoLonger(p.visibleText, Scale(VISIBLE_TEXT, T));
    BoundedIsNoMore(p.limitations, LIMITATIONS, Scale(LIMITATION, T));
    hide EmittedLength; hide Scale;
    if p.structured.Some? {
      var s := p.structured.value;
      if s.tableRows.Some? { BoundedIsNoMore(s.tableRows.value, TABLE_ROWS, Scale(TABLE_CELL, T)); }
      if s.chart.Some? { ChartIsSmaller(s.chart.value, T); }
      if s.diagram.Some? { DiagramIsSmaller(s.diagram.value, T); }
    }
  }

  lemma ChartIsSmaller(c: ChartBlock, T: int)
    requires T >= FIXED_CHARS && ValidChart(c, T)
    ensures SmallerChart(c, Maximal(Chart, T).structured.value.chart.value)
  {
    ScalesNonNegative(T);
    var n := Scale(CHART_FIELD, T);
    if c.xAxis.Some? { BoundedIsNoLonger(c.xAxis.value, n); }
    if c.yAxis.Some? { BoundedIsNoLonger(c.yAxis.value, n); }
    if c.trend.Some? { BoundedIsNoLonger(c.trend.value, n); }
    if c.series.Some? { BoundedIsNoMore(c.series.value, SERIES, Scale(CHART_SERIES, T)); }
    hide EmittedLength; hide Scale; hide NoMore; hide BoundedItems;
  }

  lemma DiagramIsSmaller(d: DiagramBlock, T: int)
    requires T >= FIXED_CHARS && ValidDiagram(d, T)
    ensures SmallerDiagram(d, Maximal(Diagram, T).structured.value.diagram.value)
  {
    ScalesNonNegative(T);
    if d.nodes.Some? { BoundedIsNoMore(d.nodes.value, NODES, Scale(DIAGRAM_NODE, T)); }
    if d.edges.Some? { BoundedIsNoMore(d.edges.value, EDGES, Scale(DIAGRAM_EDGE, T)); }
    hide EmittedLength; hide Scale; hide NoMore; hide BoundedItems;
  }

  // ---------------------------------------------------------------- the encoding is JSON

  predicate AllPlain(members: seq<Member>) {
    forall i :: 0 <= i < |members| ==> JsonReader.Plain(members[i].value)
  }

  lemma AppendPlain(a: seq<Member>, b: seq<Member>)
    requires AllPlain(a) && AllPlain(b)
    ensures AllPlain(a + b)
  {
  }

  lemma StringsPlain(items: Option<seq<Text>>)
    ensures items.Some? ==> JsonReader.Plain(OptStrings(items).value)
  {
  }

  lemma ChartPlain(c: ChartBlock)
    ensures JsonReader.Plain(ChartValue(c))
  {
    StringsPlain(c.series);
    var x, y := Optional(Ascii("xAxis"), OptString(c.xAxis)), Optional(Ascii("yAxis"), OptString(c.yAxis));
    var t, s := Optional(Ascii("trend"), OptString(c.trend)), Optional(Ascii("series"), OptStrings(c.series));
    AppendPlain(x, y);
    AppendPlain(x + y, t);
    AppendPlain(x + y + t, s);
  }

  lemma DiagramPlain(d: DiagramBlock)
    ensures JsonReader.Plain(DiagramValue(d))
  {
    StringsPlain(d.nodes);
    StringsPlain(d.edges);
    AppendPlain(Optional(Ascii("nodes"), OptStrings(d.nodes)), Optional(Ascii("edges"), OptStrings(d.edges)));
  }

  lemma StructuredPlain(s: Structured)
    ensures JsonReader.Plain(StructuredValue(s))
  {
    StringsPlain(s.tableRows);
    if s.chart.Some? { ChartPlain(s.chart.value); }
    if s.diagram.Some? { DiagramPlain(s.diagram.value); }
    hide ChartValue; hide DiagramValue;
    var r, c := Optional(Ascii("tableRows"), OptStrings(s.tableRows)), Optional(Ascii("chart"), OptChart(s));
    var d := Optional(Ascii("diagram"), OptDiagram(s));
    AppendPlain(r, c);
    AppendPlain(r + c, d);
  }

  lemma PayloadPlain(p: Payload)
    ensures JsonReader.Plain(PayloadValue(p))
  {
    if p.structured.Some? { StructuredPlain(p.structured.value); }
    StringsPlain(Some(p.limitations));
    assert AllPlain(Head(p)) && AllPlain(Texts(p)) && AllPlain(Tail(p));
    hide StructuredValue; hide Head; hide Texts; hide Tail;
    var s := Optional(Ascii("structured"), OptStructured(p));
    AppendPlain(Head(p), Texts(p));
    AppendPlain(Head(p) + Texts(p), s);
    AppendPlain(Head(p) + Texts(p) + s, Tail(p));
  }

  /** The text whose length is bounded is the payload's JSON: any reader gets the payload's members back from it. */
  lemma EncodingReads(p: Payload)
    ensures JsonReader.ParseValue(Encode(p)) == Some(JsonReader.Parsed(PayloadValue(p), []))
  {
    PayloadPlain(p);
    JsonReader.RoundTrip(PayloadValue(p), []);
    assert Encode(p) + [] == Encode(p);
  }
}
