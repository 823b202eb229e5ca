/**
  String literals as RFC 8259, section 7 defines them, what a JSON decoder makes of them, and
  what the credential scanner adds: it accepts exactly the literals whose decoding loses nothing.
 */
module Literals {
  import opened Basics
  import opened Credentials

  // ---------------------------------------------------------------- the grammar

  /** One character of a literal: unescaped, a two-character escape, or a code escape. */
  datatype Unit = Plain(rune: seq<Byte>) | Short(letter: Byte) | Code(hex: seq<Byte>)

  predicate ShortLetter(b: Byte) {
    b == 0x22 || b == 0x5C || b == 0x2F || b == 0x62 || b == 0x66 || b == 0x6E || b == 0x72 || b == 0x74
  }

  predicate ValidUnit(u: Unit) {
    match u
    case Plain(r) => |r| > 0 && RuneLength(r) == |r| && r[0] >= 0x20 && r[0] != QUOTE && r[0] != BACKSLASH
    case Short(b) => ShortLetter(b)
    case Code(h) => |h| == 4 && Hex4(h).Some?
  }

  predicate ValidUnits(units: seq<Unit>) {
    forall k :: 0 <= k < |units| ==> ValidUnit(units[k])
  }

  function RenderUnit(u: Unit): (b: seq<Byte>) {
    match u
    case Plain(r) => r
    case Short(c) => [BACKSLASH, c]
    case Code(h) => [BACKSLASH, LETTER_U] + h
  }

  function Render(units: seq<Unit>): seq<Byte> {
    if units == [] then [] else RenderUnit(units[0]) + Render(units[1..])
  }

  /** The literal with its quotes. */
  function Literal(units: seq<Unit>): seq<Byte> { [QUOTE] + Render(units) + [QUOTE] }

  // ---------------------------------------------------------------- what a literal means

  function CodeValue(u: Unit): int
    requires ValidUnit(u) && u.Code?
  {
    Hex4(u.hex).value
  }

  predicate HighUnit(u: Unit) { ValidUnit(u) && u.Code? && High(CodeValue(u)) }

  predicate LowUnit(u: Unit) { ValidUnit(u) && u.Code? && Low(CodeValue(u)) }

  /** The UTF-16 code units of a scalar value. */
  function Utf16(v: int): (c: seq<int>)
  {
    if v < 0x10000 then [v] else [0xD800 + (v - 0x10000) / 0x400, 0xDC00 + (v - 0x10000) % 0x400]
  }

  function Utf16All(values: seq<int>): seq<int> {
    if values == [] then [] else Utf16(values[0]) + Utf16All(values[1..])
  }

  function ShortValue(b: Byte): int {
    if b == 0x62 then 8 else if b == 0x66 then 12 else if b == 0x6E then 10 else if b == 0x72 then 13 else if b == 0x74 then 9 else b
  }

  const SHORT_LETTERS := "\"\\/bfnrt"
  const SHORT_MEANINGS := "\"\\/\U{8}\U{C}\n\r\t"

  /** The eight two-character escapes and the characters they stand for. */
  lemma ShortTable(b: Byte)
    ensures ShortLetter(b) <==> exists k :: 0 <= k < 8 && SHORT_LETTERS[k] as int == b
    ensures forall k :: 0 <= k < 8 && SHORT_LETTERS[k] as int == b ==> ShortValue(b) == SHORT_MEANINGS[k] as int
  {
    assert ShortLetter(b) ==>
        SHORT_LETTERS[0] as int == b || SHORT_LETTERS[1] as int == b || SHORT_LETTERS[2] as int == b || SHORT_LETTERS[3] as int == b
        || SHORT_LETTERS[4] as int == b || SHORT_LETTERS[5] as int == b || SHORT_LETTERS[6] as int == b || SHORT_LETTERS[7] as int == b;
  }

  /** The UTF-16 code units one unit spells out. */
  function SpelledUnit(u: Unit): seq<int>
    requires ValidUnit(u)
  {
    match u
    case Plain(r) => Utf16(RuneValue(r))
    case Short(b) => [ShortValue(b)]
    case Code(_) => [CodeValue(u)]
  }

  /** The UTF-16 code units the literal spells out, each escape for itself. */
  function Spelled(units: seq<Unit>): seq<int>
    requires ValidUnits(units)
  {
    if units == [] then [] else SpelledUnit(units[0]) + Spelled(units[1..])
  }

  const REPLACEMENT := 0xFFFD

  /** The scalar value of a unit that is not part of a pair. */
  function Single(u: Unit): int
    requires ValidUnit(u)
  {
    match u
    case Plain(r) => RuneValue(r)
    case Short(b) => ShortValue(b)
    case Code(_) => if High(CodeValue(u)) || Low(CodeValue(u)) then REPLACEMENT else CodeValue(u)
  }

  function Combined(high: int, low: int): int {
    0x10000 + (high - 0xD800) * 0x400 + (low - 0xDC00)
  }

  /**
    What a JSON decoder returns: the scalar values, adjacent surrogate escapes combined and every
    other surrogate escape replaced.
   */
  function Unmarshal(units: seq<Unit>): (values: seq<int>)
    requires ValidUnits(units)
    decreases |units|
  {
    if units == [] then []
    else if |units| > 1 && HighUnit(units[0]) && LowUnit(units[1]) then
      [Combined(CodeValue(units[0]), CodeValue(units[1]))] + Unmarshal(units[2..])
    else [Single(units[0])] + Unmarshal(units[1..])
  }

  /**
    Every escaped high surrogate is immediately followed by an escaped low one, and every escaped
    low one immediately preceded by a high one.
   */
  ghost predicate Paired(units: seq<Unit>) {
    && (forall k :: 0 <= k < |units| && HighUnit(units[k]) ==> k + 1 < |units| && LowUnit(units[k + 1]))
    && (forall k :: 0 <= k < |units| && LowUnit(units[k]) ==> 0 < k && HighUnit(units[k - 1]))
  }

  /** The same, read from the front. */
  ghost predicate PairedFrom(units: seq<Unit>)
    decreases |units|
  {
    if units == [] then true
    else if HighUnit(units[0]) then |units| > 1 && LowUnit(units[1]) && PairedFrom(units[2..])
    else !LowUnit(units[0]) && PairedFrom(units[1..])
  }

  lemma {:induction false} PairedTwice(units: seq<Unit>)
    ensures Paired(units) <==> PairedFrom(units)
    decreases |units|
  {
    if units != [] {
      if HighUnit(units[0]) {
        if |units| > 1 && LowUnit(units[1]) {
          PairedTwice(units[2..]);
          PairedTail(units, 2);
        }
      } else if !LowUnit(units[0]) {
        PairedTwice(units[1..]);
        PairedTail(units, 1);
      }
    }
  }

  /** Cutting off a leading pair, or a leading unit that is no surrogate, changes nothing. */
  lemma PairedTail(units: seq<Unit>, n: nat)
    requires 1 <= n <= |units|
    requires n == 1 ==> !HighUnit(units[0]) && !LowUnit(units[0])
    requires n != 1 ==> n == 2 && HighUnit(units[0]) && LowUnit(units[1])
    ensures Paired(units) <==> Paired(units[n..])
  {
    var rest := units[n..];
    hide HighUnit, LowUnit;
    assert forall k :: 0 <= k < |rest| ==> rest[k] == units[k + n];
    NotBoth(units[n - 1]);
    if Paired(rest) {
      forall k | 0 <= k < |units| && HighUnit(units[k]) ensures k + 1 < |units| && LowUnit(units[k + 1]) {
        assert k >= n ==> HighUnit(rest[k - n]);
      }
      forall k | 0 <= k < |units| && LowUnit(units[k]) ensures 0 < k && HighUnit(units[k - 1]) {
        assert k >= n ==> LowUnit(rest[k - n]);
        NotBoth(units[0]);
      }
    }
    if Paired(units) {
      forall k | 0 <= k < |rest| && HighUnit(rest[k]) ensures k + 1 < |rest| && LowUnit(rest[k + 1]) {
        assert HighUnit(units[k + n]);
      }
      forall k | 0 <= k < |rest| && LowUnit(rest[k]) ensures 0 < k && HighUnit(rest[k - 1]) {
        assert LowUnit(units[k + n]) && HighUnit(units[k + n - 1]);
      }
    }
  }

  lemma NotBoth(u: Unit)
    ensures !(HighUnit(u) && LowUnit(u))
  {
  }

  // ---------------------------------------------------------------- the scanner on literals

  /** The scanner accepts the inside of a well-formed literal exactly when it is paired. */
  lemma {:induction false} ScanPaired(units: seq<Unit>)
    requires ValidUnits(units)
    ensures ScanOk(Render(units)) <==> PairedFrom(units)
    decreases |units|
  {
    if units != [] {
      ScanPaired(units[1..]);
      if |units| > 1 { ScanPaired(units[2..]); }
      if units[0].Code? {
        ScanCode(units);
      } else {
        ScanOther(units);
      }
    }
  }

  lemma ScanOther(units: seq<Unit>)
    requires ValidUnits(units) && units != [] && !units[0].Code?
    ensures ScanOk(Render(units)) <==> ScanOk(Render(units[1..]))
    ensures !HighUnit(units[0]) && !LowUnit(units[0])
  {
    var rest := Render(units[1..]);
    assert ValidUnit(units[0]);
    match units[0] {
      case Plain(r) =>
        RuneAlone(r, rest);
        hide Render;
        assert ScanOk(r + rest) <==> ScanOk(rest);
      case Short(c) =>
        assert Render(units)[2..] == rest;
    }
  }

  /** A well-formed sequence stays the first one whatever follows it. */
  lemma RuneAlone(r: seq<Byte>, rest: seq<Byte>)
    requires |r| > 0 && RuneLength(r) == |r|
    ensures RuneLength(r + rest) == |r| && (r + rest)[|r|..] == rest && (r + rest)[0] == r[0]
  {
    assert forall k :: 0 <= k < |r| ==> (r + rest)[k] == r[k];
  }

  lemma RenderStart(units: seq<Unit>)
    requires ValidUnits(units)
    ensures var b := Render(units);
            (|b| >= 6 && b[0] == BACKSLASH && b[1] == LETTER_U) ==>
              units != [] && units[0].Code? && b[2..6] == units[0].hex && b[6..] == Render(units[1..])
    ensures units != [] && units[0].Code? ==>
              var b := Render(units);
              |b| >= 6 && b[0] == BACKSLASH && b[1] == LETTER_U && b[2..6] == units[0].hex && b[6..] == Render(units[1..])
  {
    if units != [] {
      assert ValidUnit(units[0]);
    }
  }

  lemma ScanEscape(b: seq<Byte>)
    requires |b| >= 6 && b[0] == BACKSLASH && b[1] == LETTER_U && Hex4(b[2..6]).Some?
    ensures var code := Hex4(b[2..6]).value;
            ScanOk(b) <==>
              if High(code) then
                |b| >= 12 && b[6] == BACKSLASH && b[7] == LETTER_U && Hex4(b[8..12]).Some? && Low(Hex4(b[8..12]).value) && ScanOk(b[12..])
              else !Low(code) && ScanOk(b[6..])
  {
    hide Hex4;
  }

  lemma ScanCode(units: seq<Unit>)
    requires ValidUnits(units) && units != [] && units[0].Code?
    ensures ScanOk(Render(units)) <==>
              if HighUnit(units[0]) then |units| > 1 && LowUnit(units[1]) && ScanOk(Render(units[2..]))
              else !LowUnit(units[0]) && ScanOk(Render(units[1..]))
  {
    hide Hex4, Render, ScanOk;
    assert ValidUnit(units[0]);
    assert |units| > 1 ==> ValidUnit(units[1]);
    RenderStart(units);
    RenderStart(units[1..]);
    var b := Render(units);
    ScanEscape(b);
    assert |units| > 1 ==> units[1..][0] == units[1] && units[1..][1..] == units[2..];
    assert |b| >= 12 ==> b[6..][2..6] == b[8..12] && b[6..][6..] == b[12..] && b[6..][0] == b[6] && b[6..][1] == b[7];
  }

  // ---------------------------------------------------------------- nothing is lost

  /**
    A literal is paired exactly when decoding it loses nothing: its scalar values spell the same
    UTF-16 code units as its escapes do.
   */
  lemma {:induction false} LosslessPaired(units: seq<Unit>)
    requires ValidUnits(units)
    ensures Utf16All(Unmarshal(units)) == Spelled(units) <==> PairedFrom(units)
    decreases |units|
  {
    if units != [] {
      assert ValidUnit(units[0]);
      LosslessPaired(units[1..]);
      if HighUnit(units[0]) && |units| > 1 && LowUnit(units[1]) {
        LosslessPaired(units[2..]);
        LosslessPair(units);
      } else {
        LosslessOne(units);
      }
    }
  }

  lemma LosslessPair(units: seq<Unit>)
    requires ValidUnits(units) && |units| > 1 && HighUnit(units[0]) && LowUnit(units[1])
    ensures Utf16All(Unmarshal(units)) == Spelled(units) <==> Utf16All(Unmarshal(units[2..])) == Spelled(units[2..])
  {
    var high, low := CodeValue(units[0]), CodeValue(units[1]);
    SpelledPair(units);
    PairUtf16(high, low);
    UtfFirst(Combined(high, low), Unmarshal(units[2..]));
    SamePrefix([high, low], Utf16All(Unmarshal(units[2..])), Spelled(units[2..]));
  }

  lemma PairUtf16(high: int, low: int)
    requires High(high) && Low(low)
    ensures Utf16(Combined(high, low)) == [high, low]
  {
  }

  lemma SpelledPair(units: seq<Unit>)
    requires ValidUnits(units) && |units| > 1 && units[0].Code? && units[1].Code?
    ensures Spelled(units) == [CodeValue(units[0]), CodeValue(units[1])] + Spelled(units[2..])
  {
    assert units[1..][0] == units[1] && units[1..][1..] == units[2..];
    assert ValidUnits(units[1..]) && ValidUnit(units[0]) && ValidUnit(units[1]);
    hide CodeValue, ValidUnit, Utf16, ShortValue;
    assert Spelled(units[1..]) == SpelledUnit(units[1]) + Spelled(units[2..]);
    assert Spelled(units) == SpelledUnit(units[0]) + Spelled(units[1..]);
  }

  lemma UtfFirst(v: int, rest: seq<int>)
    ensures Utf16All([v] + rest) == Utf16(v) + Utf16All(rest)
  {
    assert ([v] + rest)[1..] == rest;
  }

  lemma SamePrefix(p: seq<int>, a: seq<int>, b: seq<int>)
    ensures p + a == p + b <==> a == b
  {
    assert (p + a)[|p|..] == a && (p + b)[|p|..] == b;
  }

  /** A unit that is not the start of a pair: kept, unless it is a surrogate, which is replaced. */
  lemma LosslessOne(units: seq<Unit>)
    requires ValidUnits(units) && units != []
    requires !(|units| > 1 && HighUnit(units[0]) && LowUnit(units[1]))
    ensures Utf16All(Unmarshal(units)) == Spelled(units) <==>
              !HighUnit(units[0]) && !LowUnit(units[0]) && Utf16All(Unmarshal(units[1..])) == Spelled(units[1..])
  {
    hide HighUnit, LowUnit, Utf16All, Utf16, Single, SpelledUnit;
    assert ValidUnit(units[0]);
    var u, rest, spelled := units[0], Unmarshal(units[1..]), Spelled(units[1..]);
    SingleSpelled(u);
    UtfFirst(Single(u), rest);
    assert Spelled(units) == SpelledUnit(u) + spelled;
    if HighUnit(u) || LowUnit(u) {
      assert Spelled(units)[0] != Utf16All(Unmarshal(units))[0];
    } else {
      SamePrefix(SpelledUnit(u), Utf16All(rest), spelled);
    }
  }

  lemma SingleSpelled(u: Unit)
    requires ValidUnit(u)
    ensures |Utf16(Single(u))| > 0 && |SpelledUnit(u)| > 0
    ensures HighUnit(u) || LowUnit(u) ==> Utf16(Single(u))[0] != SpelledUnit(u)[0]
    ensures !HighUnit(u) && !LowUnit(u) ==> Utf16(Single(u)) == SpelledUnit(u)
  {
  }

  /** The escape of one scalar value, as one code escape or as a surrogate pair. */
  function Escaped(v: int, digits: int -> seq<Byte>): seq<Unit>
  {
    if v < 0x10000 then [Code(digits(v))]
    else [Code(digits(0xD800 + (v - 0x10000) / 0x400)), Code(digits(0xDC00 + (v - 0x10000) % 0x400))]
  }

  function EscapedAll(values: seq<int>, digits: int -> seq<Byte>): seq<Unit> {
    if values == [] then [] else Escaped(values[0], digits) + EscapedAll(values[1..], digits)
  }

  /** Any way to write code units as four hexadecimal digits. */
  ghost predicate Writes(digits: int -> seq<Byte>) {
    forall v :: 0 <= v < 0x10000 ==> |digits(v)| == 4 && Hex4(digits(v)) == Some(v)
  }

  /** A fully escaped scalar sequence is accepted and decodes back to itself. */
  lemma {:induction false} EscapesRoundTrip(values: seq<int>, digits: int -> seq<Byte>)
    requires Writes(digits) && forall k :: 0 <= k < |values| ==> Scalar(values[k])
    ensures ValidUnits(EscapedAll(values, digits)) && PairedFrom(EscapedAll(values, digits))
    ensures Unmarshal(EscapedAll(values, digits)) == values
  {
    if values != [] {
      hide *;
      EscapesRoundTrip(values[1..], digits);
      var v, rest := values[0], EscapedAll(values[1..], digits);
      if v < 0x10000 {
        OneEscape(v, digits, rest);
      } else {
        TwoEscapes(v, digits, rest);
      }
      assert values == [v] + values[1..];
    }
  }

  /** The usual writer: the four digits of a code unit, taken from either table. */
  function FourDigits(v: int, table: seq<Byte>): (s: seq<Byte>)
    requires |table| == 16
  {
    var a := v / 16;
    var b := a / 16;
    if 0 <= v < 0x10000 then [table[b / 16], table[b % 16], table[a % 16], table[v % 16]] else []
  }

  /** Four digits stand for the number they write in base sixteen. */
  lemma DigitsValue(s: seq<Byte>, a: nat, b: nat, c: nat, d: nat)
    requires |s| == 4 && HexDigit(s[0]) == Some(a) && HexDigit(s[1]) == Some(b) && HexDigit(s[2]) == Some(c) && HexDigit(s[3]) == Some(d)
    ensures Hex4(s) == Some(((a * 16 + b) * 16 + c) * 16 + d)
  {
    hide HexDigit;
    assert s[..3][..2] == s[..2] && s[..2][..1] == s[..1] && s[..1][..0] == [];
    assert HexNumber(s[..1]) == Some(a);
    assert HexNumber(s[..2]) == Some(a * 16 + b);
    assert HexNumber(s[..3]) == Some((a * 16 + b) * 16 + c);
  }

  lemma FourDigitsValue(v: int, table: seq<Byte>)
    requires (table == LOWER_DIGITS || table == UPPER_DIGITS) && 0 <= v < 0x10000
    ensures |FourDigits(v, table)| == 4 && Hex4(FourDigits(v, table)) == Some(v)
  {
    hide HexDigit, Hex4;
    var a := v / 16;
    var b := a / 16;
    DigitTable(table[b / 16], b / 16);
    DigitTable(table[b % 16], b % 16);
    DigitTable(table[a % 16], a % 16);
    DigitTable(table[v % 16], v % 16);
    DigitsValue(FourDigits(v, table), b / 16, b % 16, a % 16, v % 16);
  }

  lemma FourDigitsWrite(table: seq<Byte>)
    requires table == LOWER_DIGITS || table == UPPER_DIGITS
    ensures Writes(v => FourDigits(v, table))
  {
    forall v | 0 <= v < 0x10000 ensures |FourDigits(v, table)| == 4 && Hex4(FourDigits(v, table)) == Some(v) {
      FourDigitsValue(v, table);
    }
  }

  /** Written in lower-case or in upper-case digits, escapes decode to the values they were made of. */
  lemma EscapesDecode(values: seq<int>, table: seq<Byte>)
    requires (table == LOWER_DIGITS || table == UPPER_DIGITS) && forall k :: 0 <= k < |values| ==> Scalar(values[k])
    ensures var units := EscapedAll(values, v => FourDigits(v, table));
            ValidUnits(units) && PairedFrom(units) && Unmarshal(units) == values
  {
    FourDigitsWrite(table);
    EscapesRoundTrip(values, v => FourDigits(v, table));
  }

  lemma EscapeUnit(v: int, digits: int -> seq<Byte>)
    requires Writes(digits) && 0 <= v < 0x10000
    ensures ValidUnit(Code(digits(v))) && CodeValue(Code(digits(v))) == v
    ensures !High(v) && !Low(v) ==> Single(Code(digits(v))) == v
    ensures HighUnit(Code(digits(v))) <==> High(v)
    ensures LowUnit(Code(digits(v))) <==> Low(v)
  {
  }

  lemma ConsUnit(u: Unit, rest: seq<Unit>)
    requires ValidUnit(u) && ValidUnits(rest) && !HighUnit(u) && !LowUnit(u)
    ensures ValidUnits([u] + rest) && (PairedFrom([u] + rest) <==> PairedFrom(rest))
  {
    hide ValidUnit, HighUnit, LowUnit;
    assert ([u] + rest)[1..] == rest;
  }

  lemma ConsValue(u: Unit, rest: seq<Unit>)
    requires ValidUnit(u) && ValidUnits(rest) && ValidUnits([u] + rest) && !HighUnit(u)
    ensures Unmarshal([u] + rest) == [Single(u)] + Unmarshal(rest)
  {
    hide ValidUnit, HighUnit, LowUnit, Single, Combined, CodeValue, ValidUnits;
    assert ([u] + rest)[1..] == rest;
  }

  lemma ConsPair(u: Unit, v: Unit, rest: seq<Unit>)
    requires ValidUnit(u) && ValidUnit(v) && ValidUnits(rest) && HighUnit(u) && LowUnit(v)
    ensures ValidUnits([u, v] + rest) && (PairedFrom([u, v] + rest) <==> PairedFrom(rest))
  {
    hide ValidUnit, HighUnit, LowUnit;
    assert ([u, v] + rest)[2..] == rest;
  }

  lemma PairValue(u: Unit, v: Unit, rest: seq<Unit>)
    requires ValidUnits(rest) && ValidUnits([u, v] + rest) && HighUnit(u) && LowUnit(v)
    ensures Unmarshal([u, v] + rest) == [Combined(CodeValue(u), CodeValue(v))] + Unmarshal(rest)
  {
    hide ValidUnit, Combined, CodeValue, ValidUnits;
    assert ([u, v] + rest)[2..] == rest;
  }

  lemma OneEscape(v: int, digits: int -> seq<Byte>, rest: seq<Unit>)
    requires Writes(digits) && Scalar(v) && v < 0x10000 && ValidUnits(rest)
    ensures var units := Escaped(v, digits) + rest;
            && ValidUnits(units) && (PairedFrom(units) <==> PairedFrom(rest))
            && Unmarshal(units) == [v] + Unmarshal(rest)
  {
    EscapeUnit(v, digits);
    ConsUnit(Code(digits(v)), rest);
    ConsValue(Code(digits(v)), rest);
    assert Escaped(v, digits) == [Code(digits(v))];
  }

  lemma SurrogateParts(v: int)
    requires Scalar(v) && v >= 0x10000
    ensures var high, low := 0xD800 + (v - 0x10000) / 0x400, 0xDC00 + (v - 0x10000) % 0x400;
            High(high) && Low(low) && !Low(high) && 0 <= high < 0x10000 && 0 <= low < 0x10000 && Combined(high, low) == v
  {
  }

  lemma EscapedPair(v: int, digits: int -> seq<Byte>)
    requires v >= 0x10000
    ensures Escaped(v, digits) == [Code(digits(0xD800 + (v - 0x10000) / 0x400)), Code(digits(0xDC00 + (v - 0x10000) % 0x400))]
  {
  }

  lemma TwoEscapes(v: int, digits: int -> seq<Byte>, rest: seq<Unit>)
    requires Writes(digits) && Scalar(v) && v >= 0x10000 && ValidUnits(rest)
    ensures var units := Escaped(v, digits) + rest;
            && ValidUnits(units) && (PairedFrom(units) <==> PairedFrom(rest))
            && Unmarshal(units) == [v] + Unmarshal(rest)
  {
    hide *;
    var high, low := 0xD800 + (v - 0x10000) / 0x400, 0xDC00 + (v - 0x10000) % 0x400;
    SurrogateParts(v);
    EscapedPair(v, digits);
    EscapeUnit(high, digits);
    EscapeUnit(low, digits);
    ConsPair(Code(digits(high)), Code(digits(low)), rest);
    PairValue(Code(digits(high)), Code(digits(low)), rest);
  }

  // ---------------------------------------------------------------- parsing literals

  /** Reads the inside of a literal unit by unit, as a JSON decoder does. */
  function Parse(b: seq<Byte>): (units: Option<seq<Unit>>)
    decreases |b|
  {
    if b == [] then Some([])
    else if b[0] == BACKSLASH then
      if |b| >= 2 && ShortLetter(b[1]) then Prepend(Short(b[1]), Parse(b[2..]))
      else if |b| >= 6 && b[1] == LETTER_U && Hex4(b[2..6]).Some? then Prepend(Code(b[2..6]), Parse(b[6..]))
      else None
    else if b[0] < 0x20 || b[0] == QUOTE || RuneLength(b) == 0 then None
    else Prepend(Plain(b[..RuneLength(b)]), Parse(b[RuneLength(b)..]))
  }

  function Prepend(u: Unit, units: Option<seq<Unit>>): Option<seq<Unit>> {
    if units.None? then None else Some([u] + units.value)
  }

  lemma PrefixRune(b: seq<Byte>)
    requires b != [] && RuneLength(b) > 0
    ensures var r := b[..RuneLength(b)]; |r| > 0 && RuneLength(r) == |r| && r[0] == b[0]
  {
  }

  /** The first unit of a parsed literal and the bytes it takes. */
  lemma ParseFirst(b: seq<Byte>) returns (u: Unit, n: nat)
    requires b != [] && Parse(b).Some?
    ensures 0 < n <= |b| && Parse(b[n..]).Some? && Parse(b).value == [u] + Parse(b[n..]).value
    ensures ValidUnit(u) && RenderUnit(u) == b[..n]
  {
    hide Hex4, ShortLetter;
    if b[0] == BACKSLASH {
      u := if |b| >= 2 && ShortLetter(b[1]) then Short(b[1]) else Code(b[2..6]);
      n := if u.Short? then 2 else 6;
    } else {
      n := RuneLength(b);
      u := Plain(b[..n]);
      PrefixRune(b);
    }
  }

  lemma {:induction false} ParseRenders(b: seq<Byte>)
    ensures Parse(b).Some? ==> ValidUnits(Parse(b).value) && Render(Parse(b).value) == b
    decreases |b|
  {
    if b != [] && Parse(b).Some? {
      var u, n := ParseFirst(b);
      hide ValidUnit, RenderUnit, RuneLength;
      ParseRenders(b[n..]);
      assert b == b[..n] + b[n..];
      assert Parse(b).value[1..] == Parse(b[n..]).value;
    }
  }

  lemma {:induction false} RenderParses(units: seq<Unit>)
    requires ValidUnits(units)
    ensures Parse(Render(units)) == Some(units)
  {
    if units != [] {
      var u, rest := units[0], Render(units[1..]);
      assert ValidUnit(u);
      RenderParses(units[1..]);
      var b := RenderUnit(u) + rest;
      assert units == [u] + units[1..];
      match u {
        case Plain(r) =>
          RuneAlone(r, rest);
          assert b[..|r|] == r;
        case Short(c) =>
          assert b[2..] == rest;
        case Code(h) =>
          assert b[2..6] == h && b[6..] == rest;
      }
    }
  }

  // ---------------------------------------------------------------- valid UTF-8

  lemma {:induction false} Utf8Concat(a: seq<Byte>, b: seq<Byte>)
    requires ValidUtf8(a) && ValidUtf8(b)
    ensures ValidUtf8(a + b)
    decreases |a|
  {
    if a == [] {
      assert a + b == b;
    } else {
      var n := RuneLength(a);
      assert a == a[..n] + a[n..];
      PrefixRune(a);
      RuneAlone(a[..n], a[n..] + b);
      assert a + b == a[..n] + (a[n..] + b);
      Utf8Concat(a[n..], b);
    }
  }

  lemma {:induction false} AsciiUtf8(a: seq<Byte>)
    requires forall k :: 0 <= k < |a| ==> a[k] < 0x80
    ensures ValidUtf8(a)
  {
    if a != [] { AsciiUtf8(a[1..]); }
  }

  lemma UnitUtf8(u: Unit)
    requires ValidUnit(u)
    ensures ValidUtf8(RenderUnit(u))
  {
    match u {
      case Plain(r) =>
        assert r[RuneLength(r)..] == [];
      case Short(c) =>
        AsciiUtf8(RenderUnit(u));
      case Code(h) =>
        forall k | 0 <= k < 4 ensures h[k] < 0x80 {
          assert HexDigit(h[k]).Some?;
        }
        AsciiUtf8(RenderUnit(u));
    }
  }

  lemma {:induction false} RenderUtf8(units: seq<Unit>)
    requires ValidUnits(units)
    ensures ValidUtf8(Render(units))
  {
    if units != [] {
      assert ValidUnit(units[0]);
      UnitUtf8(units[0]);
      RenderUtf8(units[1..]);
      Utf8Concat(RenderUnit(units[0]), Render(units[1..]));
    }
  }

  lemma LiteralFramed(units: seq<Unit>)
    requires ValidUnits(units)
    ensures Framed(Literal(units)) && Literal(units)[1..|Literal(units)| - 1] == Render(units)
  {
    RenderUtf8(units);
    AsciiUtf8([QUOTE]);
    Utf8Concat([QUOTE], Render(units));
    Utf8Concat([QUOTE] + Render(units), [QUOTE]);
  }

  // ---------------------------------------------------------------- the decoder

  /** Every value a decoder returns is a scalar value: surrogates are combined or replaced. */
  lemma {:induction false} UnmarshalScalars(units: seq<Unit>)
    requires ValidUnits(units)
    ensures forall k :: 0 <= k < |Unmarshal(units)| ==> Scalar(Unmarshal(units)[k])
    decreases |units|
  {
    if units == [] {
    } else if |units| > 1 && HighUnit(units[0]) && LowUnit(units[1]) {
      UnmarshalScalars(units[2..]);
    } else {
      assert ValidUnit(units[0]);
      SingleScalar(units[0]);
      UnmarshalScalars(units[1..]);
    }
  }

  lemma SingleScalar(u: Unit)
    requires ValidUnit(u)
    ensures Scalar(Single(u))
  {
    if u.Plain? { RuneScalar(u.rune); }
  }

  /** The literal is well formed and paired. */
  ghost predicate Decodable(raw: seq<Byte>, units: seq<Unit>) {
    ValidUnits(units) && raw == Literal(units) && Paired(units)
  }

  /** The value of an accepted literal. */
  function StrictDecode(raw: seq<Byte>): Option<seq<int>> {
    if Framed(raw) && ScanOk(raw[1..|raw| - 1]) && Parse(raw[1..|raw| - 1]).Some? then
      ParseRenders(raw[1..|raw| - 1]);
      Some(Unmarshal(Parse(raw[1..|raw| - 1]).value))
    else None
  }

  /**
    The strict decoder accepts exactly the well-formed literals whose surrogate escapes are paired,
    and what it returns spells the literal without a replacement.
   */
  lemma StrictDecodes(raw: seq<Byte>)
    ensures StrictDecode(raw).Some? <==> exists units :: Decodable(raw, units)
    ensures forall units :: Decodable(raw, units) ==>
              StrictDecode(raw) == Some(Unmarshal(units)) && Utf16All(Unmarshal(units)) == Spelled(units)
    ensures StrictDecode(raw).Some? ==> forall k :: 0 <= k < |StrictDecode(raw).value| ==> Scalar(StrictDecode(raw).value[k])
  {
    hide ScanOk, Paired, Parse, ValidUtf8, Unmarshal, Spelled, Utf16All;
    forall units | ValidUnits(units) && raw == Literal(units)
      ensures Framed(raw) && Parse(raw[1..|raw| - 1]) == Some(units)
      ensures ScanOk(raw[1..|raw| - 1]) <==> Paired(units)
      ensures Paired(units) ==> Utf16All(Unmarshal(units)) == Spelled(units)
    {
      LiteralFramed(units);
      RenderParses(units);
      ScanPaired(units);
      PairedTwice(units);
      LosslessPaired(units);
    }
    if StrictDecode(raw).Some? {
      var body := raw[1..|raw| - 1];
      ParseRenders(body);
      assert raw == [QUOTE] + body + [QUOTE];
      assert Decodable(raw, Parse(body).value);
      UnmarshalScalars(Parse(body).value);
    }
  }

  method DecodeStrictCredentialString(raw: seq<Byte>) returns (value: Option<seq<int>>)
    ensures value == StrictDecode(raw)
    ensures value.Some? <==> exists units :: Decodable(raw, units)
  {
    StrictDecodes(raw);
    hide ScanOk, Paired, Parse, ValidUtf8, Unmarshal;
    var ok := ScanCredentialString(raw);
    if !ok { return None; }
    ParseRenders(raw[1..|raw| - 1]);
    var units := Parse(raw[1..|raw| - 1]);
    if units.None? { return None; }
    return Some(Unmarshal(units.value));
  }
}
