/** The JSON text of tuples of strings and integers, as JSON.stringify writes it: strings are
    sequences of UTF-16 code units, escaped as in section 7 of RFC 8259, with lone surrogates written
    as \u escapes. */
module JsonText {
  import opened Outcomes

  type CodeUnit = c: int | 0 <= c < 0x1_0000
  type Text = seq<CodeUnit>

  const QUOTE: CodeUnit := 0x22
  const MINUS: CodeUnit := 0x2D
  const COMMA: CodeUnit := 0x2C
  const OPEN: CodeUnit := 0x5B
  const BACKSLASH: CodeUnit := 0x5C
  const CLOSE: CodeUnit := 0x5D
  const LETTER_U: CodeUnit := 0x75

  // ----- strings

  predicate Leading(c: CodeUnit) {
    0xD800 <= c < 0xDC00
  }

  predicate Trailing(c: CodeUnit) {
    0xDC00 <= c < 0xE000
  }

  function HexDigit(n: int): CodeUnit
    requires 0 <= n < 16
  {
    if n < 10 then 0x30 + n else 0x61 + n - 10
  }

  function HexValue(c: CodeUnit): (v: Option<int>)
    ensures v.Some? ==> 0 <= v.value < 16
  {
    if 0x30 <= c <= 0x39 then Some(c - 0x30)
    else if 0x61 <= c <= 0x66 then Some(c - 0x61 + 10)
    else if 0x41 <= c <= 0x46 then Some(c - 0x41 + 10)
    else None
  }

  function UnicodeEscape(c: CodeUnit): Text {
    var q := c / 16;
    var p := q / 16;
    [BACKSLASH, LETTER_U, HexDigit(p / 16), HexDigit(p % 16), HexDigit(q % 16), HexDigit(c % 16)]
  }

  /** The letter of the two-character escape, for the units that have one. */
  function ShortEscape(c: CodeUnit): Option<CodeUnit> {
    if c == 0x08 then Some(0x62)
    else if c == 0x09 then Some(0x74)
    else if c == 0x0A then Some(0x6E)
    else if c == 0x0C then Some(0x66)
    else if c == 0x0D then Some(0x72)
    else if c == QUOTE then Some(QUOTE)
    else if c == BACKSLASH then Some(BACKSLASH)
    else None
  }

  function Escaped(c: CodeUnit): Text {
    if ShortEscape(c).Some? then [BACKSLASH, ShortEscape(c).value]
    else if c < 0x20 || Leading(c) || Trailing(c) then UnicodeEscape(c)
    else [c]
  }

  function QuotedBody(s: Text): Text {
    if s == [] then []
    else if |s| > 1 && Leading(s[0]) && Trailing(s[1]) then [s[0], s[1]] + QuotedBody(s[2..])
    else Escaped(s[0]) + QuotedBody(s[1..])
  }

  function Quoted(s: Text): Text {
    [QUOTE] + QuotedBody(s) + [QUOTE]
  }

  datatype Read<T> = Read(value: T, rest: Text)

  /** What follows a backslash: the unit it stands for. */
  function ReadEscape(t: Text): (r: Option<Read<CodeUnit>>)
    ensures r.Some? ==> |r.value.rest| < |t|
  {
    if t == [] then None
    else if t[0] == 0x62 then Some(Read(0x08, t[1..]))
    else if t[0] == 0x74 then Some(Read(0x09, t[1..]))
    else if t[0] == 0x6E then Some(Read(0x0A, t[1..]))
    else if t[0] == 0x66 then Some(Read(0x0C, t[1..]))
    else if t[0] == 0x72 then Some(Read(0x0D, t[1..]))
    else if t[0] == QUOTE || t[0] == BACKSLASH || t[0] == 0x2F then Some(Read(t[0], t[1..]))
    else if t[0] == LETTER_U && |t| >= 5 then
      var a, b, c, d := HexValue(t[1]), HexValue(t[2]), HexValue(t[3]), HexValue(t[4]);
      if a.Some? && b.Some? && c.Some? && d.Some?
      then Some(Read(a.value * 0x1000 + b.value * 0x100 + c.value * 16 + d.value, t[5..]))
      else None
    else None
  }

  /** The units up to the closing quote, as a JSON parser reads them. */
  function ReadBody(t: Text): (r: Option<Read<Text>>)
    ensures r.Some? ==> |r.value.rest| < |t|
    decreases |t|
  {
    if t == [] then None
    else if t[0] == QUOTE then Some(Read([], t[1..]))
    else if t[0] == BACKSLASH then
      var escape := ReadEscape(t[1..]);
      if escape.None? then None
      else
        var more := ReadBody(escape.value.rest);
        if more.None? then None else Some(Read([escape.value.value] + more.value.value, more.value.rest))
    else if t[0] < 0x20 then None
    else
      var more := ReadBody(t[1..]);
      if more.None? then None else Some(Read([t[0]] + more.value.value, more.value.rest))
  }

  lemma HexRoundTrip(c: CodeUnit, t: Text)
    ensures ReadEscape(UnicodeEscape(c)[1..] + t) == Some(Read(c, t))
  {
    var u := UnicodeEscape(c)[1..] + t;
    assert u[5..] == t;
    var q := c / 16;
    var p := q / 16;
    assert c == 16 * q + c % 16 && q == 16 * p + q % 16 && p == 16 * (p / 16) + p % 16;
  }

  lemma ShortEscapeRoundTrip(c: CodeUnit, t: Text)
    requires ShortEscape(c).Some?
    ensures ReadEscape([ShortEscape(c).value] + t) == Some(Read(c, t))
  {
    assert ([ShortEscape(c).value] + t)[1..] == t;
  }

  /** What reading a body yields when it starts with the unit `c`. */
  function Before(c: CodeUnit, more: Option<Read<Text>>): Option<Read<Text>> {
    if more.None? then None else Some(Read([c] + more.value.value, more.value.rest))
  }

  lemma EscapeStep(escape: Text, c: CodeUnit, t: Text)
    requires ReadEscape(escape + t) == Some(Read(c, t))
    ensures ReadBody([BACKSLASH] + escape + t) == Before(c, ReadBody(t))
  {
    hide ReadEscape;
    assert ([BACKSLASH] + escape + t)[1..] == escape + t;
  }

  lemma PlainStep(c: CodeUnit, t: Text)
    requires c >= 0x20 && c != QUOTE && c != BACKSLASH
    ensures ReadBody([c] + t) == Before(c, ReadBody(t))
  {
    hide ReadEscape;
    assert ([c] + t)[1..] == t;
  }

  lemma EscapedStep(c: CodeUnit, t: Text)
    ensures ReadBody(Escaped(c) + t) == Before(c, ReadBody(t))
  {
    hide ReadBody, ReadEscape;
    if ShortEscape(c).Some? {
      ShortEscapeRoundTrip(c, t);
      EscapeStep([ShortEscape(c).value], c, t);
      assert Escaped(c) == [BACKSLASH] + [ShortEscape(c).value];
    } else if c < 0x20 || Leading(c) || Trailing(c) {
      HexRoundTrip(c, t);
      EscapeStep(UnicodeEscape(c)[1..], c, t);
      assert Escaped(c) == [BACKSLASH] + UnicodeEscape(c)[1..];
    } else {
      PlainStep(c, t);
    }
  }

  lemma BodyEnds(rest: Text)
    ensures ReadBody([QUOTE] + rest) == Some(Read([], rest))
  {
    assert ([QUOTE] + rest)[1..] == rest;
  }

  lemma {:induction false} BodyRoundTrip(s: Text, rest: Text)
    ensures ReadBody(QuotedBody(s) + ([QUOTE] + rest)) == Some(Read(s, rest))
    decreases |s|
  {
    hide ReadBody, Escaped;
    var tail := [QUOTE] + rest;
    if s == [] {
      BodyEnds(rest);
      assert QuotedBody(s) + tail == tail;
    } else if |s| > 1 && Leading(s[0]) && Trailing(s[1]) {
      PairRoundTrip(s[0], s[1], s[2..], rest);
      BodyRoundTrip(s[2..], rest);
      assert QuotedBody(s) == [s[0], s[1]] + QuotedBody(s[2..]);
      assert s == [s[0]] + ([s[1]] + s[2..]);
    } else {
      var body := QuotedBody(s[1..]);
      BodyRoundTrip(s[1..], rest);
      EscapedStep(s[0], body + tail);
      assert QuotedBody(s) + tail == Escaped(s[0]) + (body + tail);
      assert s == [s[0]] + s[1..];
    }
  }

  lemma PairRoundTrip(a: CodeUnit, b: CodeUnit, s: Text, rest: Text)
    requires Leading(a) && Trailing(b)
    ensures ReadBody([a, b] + QuotedBody(s) + ([QUOTE] + rest)) ==
      Before(a, Before(b, ReadBody(QuotedBody(s) + ([QUOTE] + rest))))
  {
    hide ReadBody, QuotedBody;
    var tail := QuotedBody(s) + ([QUOTE] + rest);
    PlainStep(b, tail);
    PlainStep(a, [b] + tail);
    assert [a, b] + QuotedBody(s) + ([QUOTE] + rest) == [a] + ([b] + tail);
  }

  // ----- integers

  function Digits(n: nat): Text {
    if n < 10 then [0x30 + n] else Digits(n / 10) + [0x30 + n % 10]
  }

  /** A safe integer prints in full, without exponent. */
  function Printed(n: int): Text {
    if n < 0 then [MINUS] + Digits(-n) else Digits(n)
  }

  predicate IsDigit(c: CodeUnit) {
    0x30 <= c <= 0x39
  }

  function Value(digits: Text): int
    requires forall c | c in digits :: IsDigit(c)
  {
    if digits == [] then 0 else Value(digits[..|digits| - 1]) * 10 + digits[|digits| - 1] - 0x30
  }

  /** The leading digits of a text. */
  function DigitsOf(t: Text): (d: Text)
    ensures |d| <= |t| && d == t[..|d|]
    ensures forall c | c in d :: IsDigit(c)
  {
    if t == [] || !IsDigit(t[0]) then [] else [t[0]] + DigitsOf(t[1..])
  }

  function ReadInteger(t: Text): (r: Option<Read<int>>)
    ensures r.Some? ==> |r.value.rest| < |t|
  {
    if t != [] && t[0] == MINUS then
      var d := DigitsOf(t[1..]);
      if d == [] then None else Some(Read(-Value(d), t[1 + |d|..]))
    else
      var d := DigitsOf(t);
      if d == [] then None else Some(Read(Value(d), t[|d|..]))
  }

  lemma {:induction false} DigitsValue(n: nat)
    ensures Digits(n) != [] && (forall c | c in Digits(n) :: IsDigit(c))
    ensures Value(Digits(n)) == n
  {
    if n >= 10 {
      DigitsValue(n / 10);
      assert Digits(n)[..|Digits(n)| - 1] == Digits(n / 10);
    } else {
      assert Digits(n)[..0] == [];
      assert Value([]) == 0;
    }
  }

  lemma {:induction false} DigitsOfDigits(d: Text, rest: Text)
    requires forall c | c in d :: IsDigit(c)
    requires rest == [] || !IsDigit(rest[0])
    ensures DigitsOf(d + rest) == d
  {
    if d == [] {
      assert d + rest == rest;
    } else {
      assert (d + rest)[1..] == d[1..] + rest;
      DigitsOfDigits(d[1..], rest);
    }
  }

  lemma DigitsRead(d: Text, rest: Text)
    requires d != [] && (forall c | c in d :: IsDigit(c)) && (rest == [] || !IsDigit(rest[0]))
    ensures ReadInteger(d + rest) == Some(Read(Value(d), rest))
  {
    DigitsOfDigits(d, rest);
    hide DigitsOf, Value;
    assert (d + rest)[0] != MINUS by { assert IsDigit(d[0]); }
    assert (d + rest)[|d|..] == rest;
  }

  lemma NegativeRead(d: Text, rest: Text)
    requires d != [] && (forall c | c in d :: IsDigit(c)) && (rest == [] || !IsDigit(rest[0]))
    ensures ReadInteger([MINUS] + (d + rest)) == Some(Read(-Value(d), rest))
  {
    DigitsOfDigits(d, rest);
    hide DigitsOf, Value;
    var t := [MINUS] + (d + rest);
    assert t[1..] == d + rest && t[1 + |d|..] == rest;
  }

  lemma IntegerRoundTrip(n: int, rest: Text)
    requires rest == [] || !IsDigit(rest[0])
    ensures ReadInteger(Printed(n) + rest) == Some(Read(n, rest))
  {
    var d := Digits(if n < 0 then -n else n);
    DigitsValue(if n < 0 then -n else n);
    hide Digits, DigitsOf, Value, ReadInteger;
    if n < 0 {
      NegativeRead(d, rest);
      assert Printed(n) + rest == [MINUS] + (d + rest);
    } else {
      DigitsRead(d, rest);
    }
  }

  // ----- tuples

  datatype Atom = Str(text: Text) | Int(value: int)

  function AtomText(a: Atom): Text {
    match a
    case Str(text) => Quoted(text)
    case Int(value) => Printed(value)
  }

  /** The atoms with commas between them, and the closing bracket. */
  function Joined(atoms: seq<Atom>): Text {
    if atoms == [] then [CLOSE]
    else if |atoms| == 1 then AtomText(atoms[0]) + [CLOSE]
    else AtomText(atoms[0]) + [COMMA] + Joined(atoms[1..])
  }

  /** `JSON.stringify` of an array of strings and integers. */
  function TupleText(atoms: seq<Atom>): Text {
    [OPEN] + Joined(atoms)
  }

  function ReadAtom(t: Text): (r: Option<Read<Atom>>)
    ensures r.Some? ==> |r.value.rest| < |t|
  {
    if t != [] && t[0] == QUOTE then
      var body := ReadBody(t[1..]);
      if body.None? then None else Some(Read(Str(body.value.value), body.value.rest))
    else
      var number := ReadInteger(t);
      if number.None? then None else Some(Read(Int(number.value.value), number.value.rest))
  }

  function ReadJoined(t: Text): Option<seq<Atom>>
    decreases |t|
  {
    var first := ReadAtom(t);
    if first.None? then None
    else
      var rest := first.value.rest;
      if rest == [CLOSE] then Some([first.value.value])
      else if rest != [] && rest[0] == COMMA then
        var more := ReadJoined(rest[1..]);
        if more.None? then None else Some([first.value.value] + more.value)
      else None
  }

  function ReadTuple(t: Text): Option<seq<Atom>> {
    if t == [] || t[0] != OPEN then None
    else if t[1..] == [CLOSE] then Some([])
    else ReadJoined(t[1..])
  }

  lemma StringRoundTrip(text: Text, rest: Text)
    ensures ReadAtom(Quoted(text) + rest) == Some(Read(Str(text), rest))
  {
    hide ReadBody, QuotedBody, ReadInteger;
    BodyRoundTrip(text, rest);
    assert (Quoted(text) + rest)[1..] == QuotedBody(text) + ([QUOTE] + rest);
  }

  lemma NumberRoundTrip(n: int, rest: Text)
    requires rest == [] || !IsDigit(rest[0])
    ensures ReadAtom(Printed(n) + rest) == Some(Read(Int(n), rest))
    ensures Printed(n)[0] == MINUS || IsDigit(Printed(n)[0])
  {
    IntegerRoundTrip(n, rest);
    DigitsValue(if n < 0 then -n else n);
    hide ReadBody, ReadInteger, Value, DigitsOf;
    assert n >= 0 ==> IsDigit(Digits(n)[0]);
  }

  lemma AtomRoundTrip(a: Atom, rest: Text)
    requires rest != [] && (rest[0] == COMMA || rest[0] == CLOSE)
    ensures ReadAtom(AtomText(a) + rest) == Some(Read(a, rest))
    ensures AtomText(a) != [] && AtomText(a)[0] != CLOSE
  {
    hide ReadAtom, Digits;
    match a
    case Str(text) => StringRoundTrip(text, rest);
    case Int(value) => NumberRoundTrip(value, rest);
  }

  lemma {:induction false} JoinedRoundTrip(atoms: seq<Atom>)
    requires atoms != []
    ensures ReadJoined(Joined(atoms)) == Some(atoms)
    ensures Joined(atoms) != [CLOSE]
  {
    hide ReadAtom, AtomText;
    var text := AtomText(atoms[0]);
    if |atoms| == 1 {
      AtomRoundTrip(atoms[0], [CLOSE]);
      assert atoms == [atoms[0]];
    } else {
      var rest := [COMMA] + Joined(atoms[1..]);
      assert Joined(atoms) == text + rest;
      AtomRoundTrip(atoms[0], rest);
      assert rest[1..] == Joined(atoms[1..]);
      JoinedRoundTrip(atoms[1..]);
      assert [atoms[0]] + atoms[1..] == atoms;
    }
  }

  /** Reading back the JSON text of a tuple yields the tuple: for all strings and integers. */
  lemma TupleRoundTrip(atoms: seq<Atom>)
    ensures ReadTuple(TupleText(atoms)) == Some(atoms)
  {
    assert TupleText(atoms)[1..] == Joined(atoms);
    if atoms != [] { JoinedRoundTrip(atoms); }
  }

  /** So the text is a key: different tuples never have the same one. */
  lemma TupleTextIsInjective(a: seq<Atom>, b: seq<Atom>)
    ensures TupleText(a) == TupleText(b) <==> a == b
  {
    TupleRoundTrip(a);
    TupleRoundTrip(b);
  }
}
