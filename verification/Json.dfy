/**
 JSON text as JSON.stringify emits it, on UTF-16 code units: string escaping per section 7 of RFC 8259
 (lone surrogates included), arrays and objects without insignificant whitespace.
 */
module Json {
  import opened Options

  /** A UTF-16 code unit. */
  type Unit = c: int | 0 <= c < 0x1_0000

  type Text = seq<Unit>

  const QUOTE: Unit := 0x22
  const BACKSLASH: Unit := 0x5C
  const COMMA: Unit := 0x2C
  const COLON: Unit := 0x3A

  /** The code units of an ASCII literal. */
  function Ascii(s: string): (t: Text)
    requires forall i :: 0 <= i < |s| ==> s[i] as int < 128
    ensures |t| == |s|
    ensures forall i :: 0 <= i < |s| ==> t[i] == s[i] as int
  {
    seq(|s|, i requires 0 <= i < |s| => s[i] as int)
  }

  // ---------------------------------------------------------------- strings

  predicate High(c: Unit) { 0xD800 <= c < 0xDC00 }

  predicate Low(c: Unit) { 0xDC00 <= c < 0xE000 }

  /** A pair of surrogates that encodes one code point. */
  predicate PairAt(s: Text) {
    |s| >= 2 && High(s[0]) && Low(s[1])
  }

  /** Lower-case hexadecimal digit. */
  function Hex(n: int): Unit requires 0 <= n < 16 {
    if n < 10 then 0x30 + n else 0x57 + n
  }

  function UnicodeEscape(c: Unit): Text {
    [BACKSLASH, 0x75, Hex(c / 0x1000), Hex(c / 0x100 % 16), Hex(c / 0x10 % 16), Hex(c % 16)]
  }

  /** The character after the backslash of a two-character escape. */
  function ShortEscape(c: Unit): Option<Unit> {
    match c
    case 0x08 => Some(0x62)
    case 0x09 => Some(0x74)
    case 0x0A => Some(0x6E)
    case 0x0C => Some(0x66)
    case 0x0D => Some(0x72)
    case 0x22 => Some(QUOTE)
    case 0x5C => Some(BACKSLASH)
    case _ => None
  }

  /** One code unit that is not half of a pair. */
  function EscapeUnit(c: Unit): Text {
    if ShortEscape(c).Some? then [BACKSLASH, ShortEscape(c).value]
    else if c < 0x20 || High(c) || Low(c) then UnicodeEscape(c)
    else [c]
  }

  function Escape(s: Text): Text {
    if s == [] then []
    else if PairAt(s) then s[..2] + Escape(s[2..])
    else EscapeUnit(s[0]) + Escape(s[1..])
  }

  /** JSON.stringify of a string. */
  function Quote(s: Text): Text {
    [QUOTE] + Escape(s) + [QUOTE]
  }

  // ---------------------------------------------------------------- reading a string back

  function HexValue(c: Unit): Option<int> {
    if 0x30 <= c <= 0x39 then Some(c - 0x30)
    else if 0x61 <= c <= 0x66 then Some(c - 0x57)
    else if 0x41 <= c <= 0x46 then Some(c - 0x37)
    else None
  }

  /** Four hexadecimal digits. */
  function FourHex(t: Text): Option<Unit> requires |t| >= 4 {
    match (HexValue(t[0]), HexValue(t[1]), HexValue(t[2]), HexValue(t[3]))
    case (Some(a), Some(b), Some(c), Some(d)) =>
      if 0 <= a < 16 && 0 <= b < 16 && 0 <= c < 16 && 0 <= d < 16 then Some(((a * 16 + b) * 16 + c) * 16 + d) else None
    case _ => None
  }

  function Unescaped(c: Unit): Option<Unit> {
    match c
    case 0x62 => Some(0x08)
    case 0x74 => Some(0x09)
    case 0x6E => Some(0x0A)
    case 0x66 => Some(0x0C)
    case 0x72 => Some(0x0D)
    case 0x22 => Some(0x22)
    case 0x5C => Some(0x5C)
    case 0x2F => Some(0x2F)
    case _ => None
  }

  datatype Read = Read(value: Text, rest: Text)

  /** Reads up to and including the closing quote, the way any RFC 8259 reader does. */
  function Unquote(t: Text): Option<Read> {
    if t == [] then None
    else if t[0] == QUOTE then Some(Read([], t[1..]))
    else if t[0] == BACKSLASH then
      if |t| >= 6 && t[1] == 0x75 then
        match (FourHex(t[2..]), Unquote(t[6..]))
        case (Some(c), Some(r)) => Some(Read([c] + r.value, r.rest))
        case _ => None
      else if |t| >= 2 then
        match (Unescaped(t[1]), Unquote(t[2..]))
        case (Some(c), Some(r)) => Some(Read([c] + r.value, r.rest))
        case _ => None
      else None
    else if t[0] < 0x20 then None
    else
      match Unquote(t[1..])
      case Some(r) => Some(Read([t[0]] + r.value, r.rest))
      case None => None
  }

  lemma HexDigits(c: Unit)
    ensures c == ((c / 0x1000 * 16 + c / 0x100 % 16) * 16 + c / 0x10 % 16) * 16 + c % 16
    ensures 0 <= c / 0x1000 < 16
  {
    assert c / 0x100 == c / 0x10 / 0x10 && c / 0x1000 == c / 0x100 / 0x10;
  }

  lemma HexValueOf(n: int)
    requires 0 <= n < 16
    ensures HexValue(Hex(n)) == Some(n)
  {
  }

  lemma FourHexOf(c: Unit, t: Text)
    requires |t| >= 4 && t[0] == Hex(c / 0x1000) && t[1] == Hex(c / 0x100 % 16) && t[2] == Hex(c / 0x10 % 16)
    requires t[3] == Hex(c % 16)
    ensures FourHex(t) == Some(c)
  {
    HexValueOf(c / 0x1000);
    HexValueOf(c / 0x100 % 16);
    HexValueOf(c / 0x10 % 16);
    HexValueOf(c % 16);
    HexDigits(c);
  }

  /** Consing what was read onto what follows. */
  function Cons(c: Unit, r: Read): Read {
    Read([c] + r.value, r.rest)
  }

  lemma UnquoteLong(c: Unit, t: Text)
    requires Unquote(t).Some?
    ensures Unquote(UnicodeEscape(c) + t) == Some(Cons(c, Unquote(t).value))
  {
    var whole := UnicodeEscape(c) + t;
    FourHexOf(c, whole[2..]);
    assert whole[6..] == t;
  }

  lemma UnquoteShort(c: Unit, t: Text)
    requires Unquote(t).Some? && ShortEscape(c).Some?
    ensures Unquote([BACKSLASH, ShortEscape(c).value] + t) == Some(Cons(c, Unquote(t).value))
  {
    var whole := [BACKSLASH, ShortEscape(c).value] + t;
    assert whole[2..] == t;
    assert Unescaped(ShortEscape(c).value) == Some(c);
  }

  lemma UnquoteLiteral(c: Unit, t: Text)
    requires Unquote(t).Some? && c >= 0x20 && c != QUOTE && c != BACKSLASH
    ensures Unquote([c] + t) == Some(Cons(c, Unquote(t).value))
  {
    assert ([c] + t)[1..] == t;
  }

  /** Reading one escaped code unit yields that code unit. */
  lemma UnquoteUnit(c: Unit, t: Text)
    requires Unquote(t).Some?
    ensures Unquote(EscapeUnit(c) + t) == Some(Cons(c, Unquote(t).value))
  {
    if ShortEscape(c).Some? {
      UnquoteShort(c, t);
    } else if c < 0x20 || High(c) || Low(c) {
      UnquoteLong(c, t);
    } else {
      UnquoteLiteral(c, t);
    }
  }

  lemma UnquotePair(s: Text, t: Text)
    requires PairAt(s) && Unquote(t).Some?
    ensures Unquote(s[..2] + t) == Some(Read(s[..2] + Unquote(t).value.value, Unquote(t).value.rest))
  {
    UnquoteLiteral(s[1], t);
    UnquoteLiteral(s[0], [s[1]] + t);
    assert s[..2] + t == [s[0]] + ([s[1]] + t);
    var v := Unquote(t).value.value;
    assert s[..2] + v == [s[0]] + ([s[1]] + v);
  }

  /** Escaping peels off a pair or a single code unit. */
  function Peel(s: Text): nat requires s != [] { if PairAt(s) then 2 else 1 }

  lemma EscapePeels(s: Text, tail: Text)
    requires s != []
    ensures Escape(s) + tail ==
      (if PairAt(s) then s[..2] else EscapeUnit(s[0])) + (Escape(s[Peel(s)..]) + tail)
  {
  }

  /** The encoding is faithful: reading back what was written returns the very same code units. */
  lemma {:induction false} QuoteRoundTrip(s: Text, rest: Text)
    ensures Unquote(Escape(s) + ([QUOTE] + rest)) == Some(Read(s, rest))
    decreases |s|
  {
    var tail := [QUOTE] + rest;
    if s == [] {
      assert Escape(s) + tail == tail;
      assert tail[1..] == rest;
    } else {
      var k := Peel(s);
      QuoteRoundTrip(s[k..], rest);
      EscapePeels(s, tail);
      assert s == s[..k] + s[k..];
      hide Unquote; hide Escape;
      if PairAt(s) {
        UnquotePair(s, Escape(s[k..]) + tail);
      } else {
        UnquoteUnit(s[0], Escape(s[k..]) + tail);
        assert s[..1] == [s[0]];
      }
    }
  }

  /** Every surrogate is half of a pair, so that the text can be written as UTF-8. */
  predicate WellFormed(t: Text) {
    || t == []
    || (PairAt(t) && WellFormed(t[2..]))
    || (!High(t[0]) && !Low(t[0]) && WellFormed(t[1..]))
  }

  lemma EscapeOneMore(c: Unit, r: Text)
    ensures |Escape([c] + r)| <= |EscapeUnit(c)| + |Escape(r)|
  {
    var s := [c] + r;
    if PairAt(s) {
      assert s[2..] == r[1..] && Escape(r) == EscapeUnit(r[0]) + Escape(r[1..]);
    } else {
      assert s[1..] == r;
    }
  }

  lemma {:induction false} WellFormedDrop(t: Text, n: nat)
    requires WellFormed(t) && n <= |t| && forall i :: 0 <= i < n ==> !High(t[i]) && !Low(t[i])
    ensures WellFormed(t[n..])
  {
    if n > 0 {
      WellFormedDrop(t[1..], n - 1);
      assert t[1..][n - 1..] == t[n..];
    }
  }

  /** What a reader has left of the string behind a literal code unit. */
  lemma ReadsLiteral(s: Text, t: Text)
    requires t != [] && t[0] != QUOTE && t[0] != BACKSLASH && Unquote(t) == Some(Read(s, []))
    ensures s != [] && s[0] == t[0] && Unquote(t[1..]) == Some(Read(s[1..], []))
  {
    var r := Unquote(t[1..]).value;
    assert ([t[0]] + r.value)[1..] == r.value;
  }

  /** The same behind an escape: of six code units, or of two for what has a short escape, and for the slash. */
  lemma ReadsEscape(s: Text, t: Text) returns (n: nat)
    requires t != [] && t[0] == BACKSLASH && Unquote(t) == Some(Read(s, []))
    ensures s != [] && n <= |t| && (n == 6 || (n == 2 && |EscapeUnit(s[0])| <= 2))
    ensures Unquote(t[n..]) == Some(Read(s[1..], [])) && forall i :: 0 <= i < n ==> !High(t[i]) && !Low(t[i])
  {
    n := if |t| >= 6 && t[1] == 0x75 then 6 else 2;
    var r := Unquote(t[n..]).value;
    assert forall c: Unit :: ([c] + r.value)[1..] == r.value;
    hide Unquote;
    if n == 6 {
      assert FourHex(t[2..]).Some?;
      HexDigitsPlain(t[2..]);
      assert forall i :: 2 <= i < 6 ==> t[i] == t[2..][i - 2];
    }
  }

  lemma HexDigitsPlain(t: Text)
    requires |t| >= 4 && FourHex(t).Some?
    ensures forall i :: 0 <= i < 4 ==> !High(t[i]) && !Low(t[i])
  {
    assert HexValue(t[0]).Some? && HexValue(t[1]).Some? && HexValue(t[2]).Some? && HexValue(t[3]).Some?;
  }

  /** No well-formed text that reads as the same string is shorter. */
  lemma {:induction false} EscapeIsShortest(s: Text, t: Text)
    requires WellFormed(t) && Unquote(t) == Some(Read(s, []))
    ensures |Escape(s)| + 1 <= |t|
    decreases |t|
  {
    if t[0] == QUOTE {
      assert s == [];
    } else if t[0] == BACKSLASH {
      var n := ReadsEscape(s, t);
      WellFormedDrop(t, n);
      hide Unquote; hide WellFormed;
      EscapeIsShortest(s[1..], t[n..]);
      EscapeOneMore(s[0], s[1..]);
      assert s == [s[0]] + s[1..];
      hide Escape;
    } else if PairAt(t) {
      ReadsLiteral(s, t);
      ReadsLiteral(s[1..], t[1..]);
      hide Unquote; hide WellFormed;
      assert s[1..][1..] == s[2..] && t[1..][1..] == t[2..] && PairAt(s);
      EscapeIsShortest(s[2..], t[2..]);
    } else {
      ReadsLiteral(s, t);
      assert |EscapeUnit(s[0])| == 1;
      hide Unquote;
      EscapeIsShortest(s[1..], t[1..]);
      EscapeOneMore(s[0], s[1..]);
      assert s == [s[0]] + s[1..];
      hide Escape;
    }
  }

  lemma {:induction false} EscapeIsWellFormed(s: Text)
    ensures WellFormed(Escape(s) + [QUOTE])
    decreases |s|
  {
    if s == [] {
      assert [QUOTE][1..] == [];
    } else {
      var k := Peel(s);
      EscapeIsWellFormed(s[k..]);
      EscapePeels(s, [QUOTE]);
      if !PairAt(s) { WellFormedAdd(EscapeUnit(s[0]), Escape(s[k..]) + [QUOTE]); }
    }
  }

  lemma {:induction false} WellFormedAdd(a: Text, t: Text)
    requires WellFormed(t) && forall i :: 0 <= i < |a| ==> !High(a[i]) && !Low(a[i])
    ensures WellFormed(a + t)
  {
    if a == [] {
      assert a + t == t;
    } else {
      WellFormedAdd(a[1..], t);
      assert (a + t)[1..] == a[1..] + t;
    }
  }

  /** What a string costs: its quoted form is the shortest well-formed JSON text that a reader takes for it. */
  lemma QuoteIsShortest(s: Text, t: Text)
    requires WellFormed(t) && Unquote(t) == Some(Read(s, []))
    ensures |Quote(s)| <= 1 + |t|
    ensures WellFormed(Escape(s) + [QUOTE]) && Unquote(Escape(s) + [QUOTE]) == Some(Read(s, []))
  {
    EscapeIsShortest(s, t);
    EscapeIsWellFormed(s);
    QuoteRoundTrip(s, []);
    assert [QUOTE] + [] == [QUOTE];
  }

  // ---------------------------------------------------------------- values

  datatype Value =
    | Number(digits: Text)
    | String(s: Text)
    | Array(items: seq<Value>)
    | Object(members: seq<Member>)

  datatype Member = Member(key: Text, value: Value)

  function Stringify(v: Value): Text {
    match v
    case Number(digits) => digits
    case String(s) => Quote(s)
    case Array(items) => Ascii("[") + StringifyItems(items) + Ascii("]")
    case Object(members) => Ascii("{") + StringifyMembers(members) + Ascii("}")
  }

  function StringifyItems(items: seq<Value>): Text {
    if items == [] then []
    else if |items| == 1 then Stringify(items[0])
    else Stringify(items[0]) + [COMMA] + StringifyItems(items[1..])
  }

  function StringifyMember(m: Member): Text {
    Quote(m.key) + [COLON] + Stringify(m.value)
  }

  function StringifyMembers(members: seq<Member>): Text {
    if members == [] then []
    else if |members| == 1 then StringifyMember(members[0])
    else StringifyMember(members[0]) + [COMMA] + StringifyMembers(members[1..])
  }

  // ---------------------------------------------------------------- lengths

  /** Characters of the members with one separator each. */
  function Width(members: seq<Member>): nat {
    if members == [] then 0 else |StringifyMember(members[0])| + 1 + Width(members[1..])
  }

  function ItemsWidth(items: seq<Value>): nat {
    if items == [] then 0 else |Stringify(items[0])| + 1 + ItemsWidth(items[1..])
  }

  lemma {:induction false} MembersLength(members: seq<Member>)
    ensures |StringifyMembers(members)| == if members == [] then 0 else Width(members) - 1
    decreases |members|
  {
    if |members| > 1 {
      MembersLength(members[1..]);
    } else if |members| == 1 {
      assert Width(members) == |StringifyMember(members[0])| + 1 + Width([]);
    }
  }

  lemma {:induction false} ItemsLength(items: seq<Value>)
    ensures |StringifyItems(items)| == if items == [] then 0 else ItemsWidth(items) - 1
    decreases |items|
  {
    if |items| > 1 {
      ItemsLength(items[1..]);
    } else if |items| == 1 {
      assert ItemsWidth(items) == |Stringify(items[0])| + 1 + ItemsWidth([]);
    }
  }

  lemma {:induction false} WidthAppend(a: seq<Member>, b: seq<Member>)
    ensures Width(a + b) == Width(a) + Width(b)
    decreases |a|
  {
    if a == [] {
      assert a + b == b;
    } else {
      WidthAppend(a[1..], b);
      assert (a + b)[1..] == a[1..] + b;
    }
  }
}
