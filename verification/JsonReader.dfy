/**
 A reader for the JSON the printer emits (section 2 of RFC 8259, without insignificant whitespace), and the
 proof that it reads back every value the printer writes.
 */
module JsonReader {
  import opened Options
  import opened Json

  const OPEN_ARRAY: Unit := 0x5B
  const CLOSE_ARRAY: Unit := 0x5D
  const OPEN_OBJECT: Unit := 0x7B
  const CLOSE_OBJECT: Unit := 0x7D

  datatype Parsed<T> = Parsed(value: T, rest: Text)

  predicate Digit(c: Unit) {
    0x30 <= c <= 0x39
  }

  function DigitRun(t: Text): (n: nat)
    ensures n <= |t| && forall i :: 0 <= i < n ==> Digit(t[i])
  {
    if t == [] || !Digit(t[0]) then 0 else 1 + DigitRun(t[1..])
  }

  lemma {:induction false} UnquoteShrinks(t: Text)
    ensures Unquote(t).Some? ==> |Unquote(t).value.rest| < |t|
    decreases |t|
  {
    if t != [] && t[0] != QUOTE {
      if t[0] == BACKSLASH {
        if |t| >= 6 && t[1] == 0x75 {
          UnquoteShrinks(t[6..]);
        } else if |t| >= 2 {
          UnquoteShrinks(t[2..]);
        }
      } else {
        UnquoteShrinks(t[1..]);
      }
    }
  }

  /** A string whose opening quote is t[0]. */
  function ParseString(t: Text): (r: Option<Parsed<Text>>)
    ensures r.Some? ==> |r.value.rest| < |t|
  {
    if t == [] || t[0] != QUOTE then None
    else
      UnquoteShrinks(t[1..]);
      match Unquote(t[1..])
      case Some(x) => Some(Parsed(x.value, x.rest))
      case None => None
  }

  function ParseValue(t: Text): (r: Option<Parsed<Value>>)
    ensures r.Some? ==> |r.value.rest| < |t|
    decreases |t|, 0
  {
    if t == [] then None
    else if t[0] == QUOTE then
      match ParseString(t)
      case Some(p) => Some(Parsed(String(p.value), p.rest))
      case None => None
    else if t[0] == OPEN_ARRAY then
      if |t| > 1 && t[1] == CLOSE_ARRAY then Some(Parsed(Array([]), t[2..]))
      else
        match ParseItems(t[1..])
        case Some(p) => Some(Parsed(Array(p.value), p.rest))
        case None => None
    else if t[0] == OPEN_OBJECT then
      if |t| > 1 && t[1] == CLOSE_OBJECT then Some(Parsed(Object([]), t[2..]))
      else
        match ParseMembers(t[1..])
        case Some(p) => Some(Parsed(Object(p.value), p.rest))
        case None => None
    else
      var n := DigitRun(t);
      if n == 0 then None else Some(Parsed(Number(t[..n]), t[n..]))
  }

  /** One or more values up to the closing bracket. */
  function ParseItems(t: Text): (r: Option<Parsed<seq<Value>>>)
    ensures r.Some? ==> |r.value.rest| < |t|
    decreases |t|, 2
  {
    match ParseValue(t)
    case None => None
    case Some(p) =>
      if p.rest == [] then None
      else if p.rest[0] == CLOSE_ARRAY then Some(Parsed([p.value], p.rest[1..]))
      else if p.rest[0] != COMMA then None
      else
        match ParseItems(p.rest[1..])
        case Some(q) => Some(Parsed([p.value] + q.value, q.rest))
        case None => None
  }

  function ParseMember(t: Text): (r: Option<Parsed<Member>>)
    ensures r.Some? ==> |r.value.rest| < |t|
    decreases |t|, 1
  {
    match ParseString(t)
    case None => None
    case Some(k) =>
      if k.rest == [] || k.rest[0] != COLON then None
      else
        match ParseValue(k.rest[1..])
        case Some(v) => Some(Parsed(Member(k.value, v.value), v.rest))
        case None => None
  }

  /** One or more members up to the closing brace. */
  function ParseMembers(t: Text): (r: Option<Parsed<seq<Member>>>)
    ensures r.Some? ==> |r.value.rest| < |t|
    decreases |t|, 2
  {
    match ParseMember(t)
    case None => None
    case Some(p) =>
      if p.rest == [] then None
      else if p.rest[0] == CLOSE_OBJECT then Some(Parsed([p.value], p.rest[1..]))
      else if p.rest[0] != COMMA then None
      else
        match ParseMembers(p.rest[1..])
        case Some(q) => Some(Parsed([p.value] + q.value, q.rest))
        case None => None
  }

  // ---------------------------------------------------------------- reading back

  /** Every number in the value is a non-empty run of digits. */
  predicate Plain(v: Value) {
    match v
    case Number(digits) => digits != [] && forall i :: 0 <= i < |digits| ==> Digit(digits[i])
    case String(_) => true
    case Array(items) => forall i :: 0 <= i < |items| ==> Plain(items[i])
    case Object(members) => forall i :: 0 <= i < |members| ==> Plain(members[i].value)
  }

  predicate Ends(rest: Text) {
    rest == [] || !Digit(rest[0])
  }

  lemma {:induction false} RunOf(digits: Text, rest: Text)
    requires (forall i :: 0 <= i < |digits| ==> Digit(digits[i])) && Ends(rest)
    ensures DigitRun(digits + rest) == |digits|
  {
    if digits == [] {
      assert digits + rest == rest;
    } else {
      assert (digits + rest)[1..] == digits[1..] + rest;
      RunOf(digits[1..], rest);
    }
  }

  lemma QuoteReads(s: Text, rest: Text)
    ensures ParseString(Quote(s) + rest) == Some(Parsed(s, rest))
  {
    QuoteRoundTrip(s, rest);
    assert (Quote(s) + rest)[1..] == Escape(s) + ([QUOTE] + rest);
  }

  /** What a printed value can start with. */
  lemma Start(v: Value)
    requires Plain(v)
    ensures Stringify(v) != []
    ensures var c := Stringify(v)[0]; c == QUOTE || c == OPEN_ARRAY || c == OPEN_OBJECT || Digit(c)
  {
  }

  lemma NumberReads(digits: Text, rest: Text)
    requires Plain(Number(digits)) && Ends(rest)
    ensures ParseValue(digits + rest) == Some(Parsed(Number(digits), rest))
  {
    var t := digits + rest;
    RunOf(digits, rest);
    assert t[..|digits|] == digits && t[|digits|..] == rest;
  }

  lemma StringReads(s: Text, rest: Text)
    ensures ParseValue(Quote(s) + rest) == Some(Parsed(String(s), rest))
  {
    QuoteReads(s, rest);
    assert (Quote(s) + rest)[0] == QUOTE;
    hide Quote; hide ParseString;
  }

  lemma Cut(c: Unit, tail: Text)
    ensures ([c] + tail)[1..] == tail
  {
  }

  lemma ArrayText(items: seq<Value>, rest: Text)
    ensures Stringify(Array(items)) + rest == [OPEN_ARRAY] + (StringifyItems(items) + ([CLOSE_ARRAY] + rest))
  {
    assert Ascii("[") == [OPEN_ARRAY] && Ascii("]") == [CLOSE_ARRAY];
    Around([OPEN_ARRAY], StringifyItems(items), [CLOSE_ARRAY], rest);
  }

  lemma ObjectText(members: seq<Member>, rest: Text)
    ensures Stringify(Object(members)) + rest == [OPEN_OBJECT] + (StringifyMembers(members) + ([CLOSE_OBJECT] + rest))
  {
    assert Ascii("{") == [OPEN_OBJECT] && Ascii("}") == [CLOSE_OBJECT];
    Around([OPEN_OBJECT], StringifyMembers(members), [CLOSE_OBJECT], rest);
  }

  lemma Around(a: Text, b: Text, c: Text, rest: Text)
    ensures a + b + c + rest == a + (b + (c + rest))
  {
  }

  lemma EmptyReads(rest: Text)
    ensures ParseValue([OPEN_ARRAY] + ([CLOSE_ARRAY] + rest)) == Some(Parsed(Array([]), rest))
    ensures ParseValue([OPEN_OBJECT] + ([CLOSE_OBJECT] + rest)) == Some(Parsed(Object([]), rest))
  {
    assert ([OPEN_ARRAY] + ([CLOSE_ARRAY] + rest))[2..] == rest && ([OPEN_OBJECT] + ([CLOSE_OBJECT] + rest))[2..] == rest;
  }

  lemma ArrayReads(items: seq<Value>, inner: Text, rest: Text)
    requires inner != [] && inner[0] != CLOSE_ARRAY && ParseItems(inner) == Some(Parsed(items, rest))
    ensures ParseValue([OPEN_ARRAY] + inner) == Some(Parsed(Array(items), rest))
  {
    Cut(OPEN_ARRAY, inner);
    hide ParseItems;
  }

  lemma ObjectReads(members: seq<Member>, inner: Text, rest: Text)
    requires inner != [] && inner[0] != CLOSE_OBJECT && ParseMembers(inner) == Some(Parsed(members, rest))
    ensures ParseValue([OPEN_OBJECT] + inner) == Some(Parsed(Object(members), rest))
  {
    Cut(OPEN_OBJECT, inner);
    hide ParseMembers;
  }

  lemma LastItem(t: Text, v: Value, rest: Text)
    requires ParseValue(t) == Some(Parsed(v, [CLOSE_ARRAY] + rest))
    ensures ParseItems(t) == Some(Parsed([v], rest))
  {
    Cut(CLOSE_ARRAY, rest);
    hide ParseValue;
  }

  lemma NextItem(t: Text, v: Value, tail: Text, items: seq<Value>, rest: Text)
    requires ParseValue(t) == Some(Parsed(v, [COMMA] + tail)) && ParseItems(tail) == Some(Parsed(items, rest))
    ensures ParseItems(t) == Some(Parsed([v] + items, rest))
  {
    Cut(COMMA, tail);
    hide ParseValue;
  }

  lemma LastMember(t: Text, m: Member, rest: Text)
    requires ParseMember(t) == Some(Parsed(m, [CLOSE_OBJECT] + rest))
    ensures ParseMembers(t) == Some(Parsed([m], rest))
  {
    Cut(CLOSE_OBJECT, rest);
    hide ParseMember;
  }

  lemma NextMember(t: Text, m: Member, tail: Text, members: seq<Member>, rest: Text)
    requires ParseMember(t) == Some(Parsed(m, [COMMA] + tail)) && ParseMembers(tail) == Some(Parsed(members, rest))
    ensures ParseMembers(t) == Some(Parsed([m] + members, rest))
  {
    Cut(COMMA, tail);
    hide ParseMember;
  }

  lemma KeyAndValue(t: Text, key: Text, tail: Text, v: Value, rest: Text)
    requires ParseString(t) == Some(Parsed(key, [COLON] + tail)) && ParseValue(tail) == Some(Parsed(v, rest))
    ensures ParseMember(t) == Some(Parsed(Member(key, v), rest))
  {
    Cut(COLON, tail);
    hide ParseString; hide ParseValue;
  }

  lemma ItemsText(items: seq<Value>, rest: Text)
    requires |items| > 1
    ensures StringifyItems(items) + rest == Stringify(items[0]) + ([COMMA] + (StringifyItems(items[1..]) + rest))
  {
    Around(Stringify(items[0]), [COMMA], StringifyItems(items[1..]), rest);
  }

  lemma MembersText(members: seq<Member>, rest: Text)
    requires |members| > 1
    ensures StringifyMembers(members) + rest ==
      StringifyMember(members[0]) + ([COMMA] + (StringifyMembers(members[1..]) + rest))
  {
    Around(StringifyMember(members[0]), [COMMA], StringifyMembers(members[1..]), rest);
  }

  /** Whatever is written is read back, and reading stops exactly where writing did. */
  lemma {:induction false} RoundTrip(v: Value, rest: Text)
    requires Plain(v) && Ends(rest)
    ensures ParseValue(Stringify(v) + rest) == Some(Parsed(v, rest))
    decreases v
  {
    match v
    case Number(digits) => NumberReads(digits, rest);
    case String(s) => StringReads(s, rest);
    case Array(items) =>
      ArrayText(items, rest);
      if items == [] {
        EmptyReads(rest);
        assert StringifyItems(items) + ([CLOSE_ARRAY] + rest) == [CLOSE_ARRAY] + rest;
      } else {
        RoundTripItems(items, rest);
        ItemsStart(items);
        hide ParseValue; hide ParseItems; hide Stringify; hide StringifyItems;
        ArrayReads(items, StringifyItems(items) + ([CLOSE_ARRAY] + rest), rest);
      }
    case Object(members) =>
      ObjectText(members, rest);
      if members == [] {
        EmptyReads(rest);
        assert StringifyMembers(members) + ([CLOSE_OBJECT] + rest) == [CLOSE_OBJECT] + rest;
      } else {
        RoundTripMembers(members, rest);
        MembersStart(members);
        hide ParseValue; hide ParseMembers; hide Stringify; hide StringifyMembers;
        ObjectReads(members, StringifyMembers(members) + ([CLOSE_OBJECT] + rest), rest);
      }
  }

  lemma ItemsStart(items: seq<Value>)
    requires items != [] && Plain(items[0])
    ensures StringifyItems(items) != [] && StringifyItems(items)[0] != CLOSE_ARRAY
  {
    Start(items[0]);
  }

  lemma MembersStart(members: seq<Member>)
    requires members != []
    ensures StringifyMembers(members) != [] && StringifyMembers(members)[0] != CLOSE_OBJECT
  {
    assert StringifyMember(members[0])[0] == QUOTE;
  }

  lemma {:induction false} RoundTripItems(items: seq<Value>, rest: Text)
    requires items != [] && forall i :: 0 <= i < |items| ==> Plain(items[i])
    ensures ParseItems(StringifyItems(items) + ([CLOSE_ARRAY] + rest)) == Some(Parsed(items, rest))
    decreases items
  {
    var end := [CLOSE_ARRAY] + rest;
    if |items| == 1 {
      RoundTrip(items[0], end);
      LastItem(Stringify(items[0]) + end, items[0], rest);
      assert items == [items[0]];
    } else {
      var tail := StringifyItems(items[1..]) + end;
      ItemsText(items, end);
      RoundTrip(items[0], [COMMA] + tail);
      RoundTripItems(items[1..], rest);
      hide ParseValue; hide ParseItems; hide Stringify; hide StringifyItems; hide Plain;
      NextItem(StringifyItems(items) + end, items[0], tail, items[1..], rest);
      assert items == [items[0]] + items[1..];
    }
  }

  lemma RoundTripMember(m: Member, rest: Text)
    requires Plain(m.value) && Ends(rest)
    ensures ParseMember(StringifyMember(m) + rest) == Some(Parsed(m, rest))
    decreases m
  {
    var tail := Stringify(m.value) + rest;
    Around(Quote(m.key), [COLON], Stringify(m.value), rest);
    QuoteReads(m.key, [COLON] + tail);
    RoundTrip(m.value, rest);
    hide Stringify; hide Quote; hide ParseString; hide ParseValue; hide ParseMember;
    KeyAndValue(StringifyMember(m) + rest, m.key, tail, m.value, rest);
  }

  lemma {:induction false} RoundTripMembers(members: seq<Member>, rest: Text)
    requires members != [] && forall i :: 0 <= i < |members| ==> Plain(members[i].value)
    ensures ParseMembers(StringifyMembers(members) + ([CLOSE_OBJECT] + rest)) == Some(Parsed(members, rest))
    decreases members
  {
    var end := [CLOSE_OBJECT] + rest;
    if |members| == 1 {
      RoundTripMember(members[0], end);
      LastMember(StringifyMember(members[0]) + end, members[0], rest);
      assert members == [members[0]];
    } else {
      var tail := StringifyMembers(members[1..]) + end;
      MembersText(members, end);
      RoundTripMember(members[0], [COMMA] + tail);
      RoundTripMembers(members[1..], rest);
      hide ParseMember; hide ParseMembers; hide StringifyMember; hide StringifyMembers; hide Plain;
      NextMember(StringifyMembers(members) + end, members[0], tail, members[1..], rest);
      assert members == [members[0]] + members[1..];
    }
  }

  /** Different values print differently. */
  lemma StringifyInjective(v: Value, w: Value)
    requires Plain(v) && Plain(w) && Stringify(v) == Stringify(w)
    ensures v == w
  {
    RoundTrip(v, []);
    RoundTrip(w, []);
    assert Stringify(v) + [] == Stringify(v) && Stringify(w) + [] == Stringify(w);
  }
}
