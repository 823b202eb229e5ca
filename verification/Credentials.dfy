/**
  Strict decoding of credential strings (internal/cli/reconcile_credentials.go): the byte scanner
  that rejects unpaired surrogate escapes before a JSON decoder would silently replace them.

  String literals follow RFC 8259, section 7; surrogate pairs section 7 and 8.2; UTF-8 is RFC 3629.
 */
module Credentials {
  import opened Basics

  const QUOTE: Byte := 0x22
  const BACKSLASH: Byte := 0x5C
  const LETTER_U: Byte := 0x75

  // ---------------------------------------------------------------- UTF-8

  predicate Continuation(b: Byte) { 0x80 <= b <= 0xBF }

  /** The length of the well-formed sequence `s` starts with, 0 if it starts with none. */
  function RuneLength(s: seq<Byte>): (n: nat)
    ensures n <= |s| && n <= 4
    ensures forall k :: 0 < k < n ==> Continuation(s[k])
    ensures 1 < n ==> 0x80 <= s[0]
  {
    if |s| >= 1 && s[0] < 0x80 then 1
    else if |s| >= 2 && 0xC2 <= s[0] <= 0xDF && Continuation(s[1]) then 2
    else if |s| >= 3 && 0xE0 <= s[0] <= 0xEF && Continuation(s[1]) && Continuation(s[2])
            && (s[0] == 0xE0 ==> 0xA0 <= s[1]) && (s[0] == 0xED ==> s[1] <= 0x9F) then 3
    else if |s| >= 4 && 0xF0 <= s[0] <= 0xF4 && Continuation(s[1]) && Continuation(s[2]) && Continuation(s[3])
            && (s[0] == 0xF0 ==> 0x90 <= s[1]) && (s[0] == 0xF4 ==> s[1] <= 0x8F) then 4
    else 0
  }

  /** The step of a rune decoder: an invalid byte counts for one. */
  function RuneStep(s: seq<Byte>): (n: nat)
    ensures n == 0 <==> s == []
    ensures n <= |s|
  {
    if s == [] then 0 else if RuneLength(s) == 0 then 1 else RuneLength(s)
  }

  predicate ValidUtf8(s: seq<Byte>) {
    s == [] || (RuneLength(s) > 0 && ValidUtf8(s[RuneLength(s)..]))
  }

  /** The scalar value of a single well-formed sequence. */
  function RuneValue(s: seq<Byte>): int
    requires |s| > 0 && RuneLength(s) == |s|
  {
    var lead: int, tail := s[0], (k: int) requires 0 < k < |s| => s[k] as int - 0x80;
    if |s| == 1 then lead
    else if |s| == 2 then (lead - 0xC0) * 0x40 + tail(1)
    else if |s| == 3 then (lead - 0xE0) * 0x1000 + tail(1) * 0x40 + tail(2)
    else (lead - 0xF0) * 0x40000 + tail(1) * 0x1000 + tail(2) * 0x40 + tail(3)
  }

  predicate Scalar(v: int) {
    0 <= v < 0xD800 || 0xE000 <= v < 0x110000
  }

  lemma RuneScalar(s: seq<Byte>)
    requires |s| > 0 && RuneLength(s) == |s|
    ensures Scalar(RuneValue(s))
  {
  }

  // ---------------------------------------------------------------- UTF-8, from the scalar values

  /** The low six bits of a number in a continuation byte. */
  function Tail(v: int): Byte { 0x80 + v % 0x40 }

  /** The encoding of a scalar value: the table of section 3 of RFC 3629. */
  function Utf8(v: int): (s: seq<Byte>)
    requires Scalar(v)
  {
    var a := v / 0x40;
    var b := a / 0x40;
    if v < 0x80 then [v]
    else if v < 0x800 then [0xC0 + a, Tail(v)]
    else if v < 0x10000 then [0xE0 + b, Tail(a), Tail(v)]
    else [0xF0 + b / 0x40, Tail(b), Tail(a), Tail(v)]
  }

  /** Every scalar value is encoded by one well-formed sequence, which is read back. */
  lemma Utf8Reads(v: int)
    requires Scalar(v)
    ensures RuneLength(Utf8(v)) == |Utf8(v)| && RuneValue(Utf8(v)) == v
  {
    var s, a := Utf8(v), v / 0x40;
    var b := a / 0x40;
    Halves(v);
    Halves(a);
    Halves(b);
    hide Tail;
    if v < 0x80 {
    } else if v < 0x800 {
      assert s == [0xC0 + a, Tail(v)];
    } else if v < 0x10000 {
      assert s == [0xE0 + b, Tail(a), Tail(v)];
    } else {
      assert s == [0xF0 + b / 0x40, Tail(b), Tail(a), Tail(v)];
    }
  }

  /** A number is its high part and its low six bits. */
  lemma Halves(v: int)
    requires 0 <= v
    ensures v == v / 0x40 * 0x40 + (Tail(v) - 0x80) && 0x80 <= Tail(v) <= 0xBF
  {
  }

  lemma Recombine(high: int, low: Byte)
    requires 0 <= high && Continuation(low)
    ensures var v := high * 0x40 + (low as int - 0x80); v / 0x40 == high && Tail(v) == low
  {
  }

  /** A well-formed sequence is the encoding of its value: there is no other. */
  lemma Utf8Writes(s: seq<Byte>)
    requires |s| > 0 && RuneLength(s) == |s|
    ensures Utf8(RuneValue(s)) == s
  {
    RuneScalar(s);
    hide Tail;
    var lead: int := s[0];
    if |s| == 2 {
      Recombine(lead - 0xC0, s[1]);
    } else if |s| == 3 {
      Recombine(lead - 0xE0, s[1]);
      Recombine((lead - 0xE0) * 0x40 + (s[1] as int - 0x80), s[2]);
    } else if |s| == 4 {
      var b := (lead - 0xF0) * 0x40 + (s[1] as int - 0x80);
      Recombine(lead - 0xF0, s[1]);
      Recombine(b, s[2]);
      Recombine(b * 0x40 + (s[2] as int - 0x80), s[3]);
    }
  }

  function Utf8All(values: seq<int>): seq<Byte>
    requires forall k :: 0 <= k < |values| ==> Scalar(values[k])
  {
    if values == [] then [] else Utf8(values[0]) + Utf8All(values[1..])
  }

  lemma {:induction false} Utf8AllValid(values: seq<int>)
    requires forall k :: 0 <= k < |values| ==> Scalar(values[k])
    ensures ValidUtf8(Utf8All(values))
  {
    if values != [] {
      var s, rest := Utf8(values[0]), Utf8All(values[1..]);
      Utf8Reads(values[0]);
      Utf8AllValid(values[1..]);
      RuneFirst(s, rest);
    }
  }

  lemma RuneFirst(s: seq<Byte>, rest: seq<Byte>)
    requires |s| > 0 && RuneLength(s) == |s|
    ensures RuneLength(s + rest) == |s| && (s + rest)[|s|..] == rest && s + rest != []
  {
    assert forall k :: 0 <= k < |s| ==> (s + rest)[k] == s[k];
  }

  lemma RuneCut(s: seq<Byte>)
    requires s != [] && RuneLength(s) > 0
    ensures var r := s[..RuneLength(s)]; |r| > 0 && RuneLength(r) == |r|
  {
  }

  /** The scalar values of valid UTF-8. */
  lemma {:induction false} Utf8Values(s: seq<Byte>) returns (values: seq<int>)
    requires ValidUtf8(s)
    ensures (forall k :: 0 <= k < |values| ==> Scalar(values[k])) && Utf8All(values) == s
    decreases |s|
  {
    if s == [] {
      values := [];
    } else {
      var n := RuneLength(s);
      RuneCut(s);
      RuneScalar(s[..n]);
      Utf8Writes(s[..n]);
      var rest := Utf8Values(s[n..]);
      values := [RuneValue(s[..n])] + rest;
      hide RuneLength, RuneValue, Utf8, ValidUtf8;
      assert values[1..] == rest && s == s[..n] + s[n..];
    }
  }

  /** Valid UTF-8 is the encoding of a sequence of scalar values, and nothing else is. */
  lemma Utf8Strings(s: seq<Byte>)
    ensures ValidUtf8(s) <==> exists values :: (forall k :: 0 <= k < |values| ==> Scalar(values[k])) && s == Utf8All(values)
  {
    if ValidUtf8(s) {
      var values := Utf8Values(s);
    }
    if values :| (forall k :: 0 <= k < |values| ==> Scalar(values[k])) && s == Utf8All(values) {
      Utf8AllValid(values);
    }
  }

  // ---------------------------------------------------------------- hexadecimal digits

  function HexDigit(b: Byte): (d: Option<nat>)
    ensures d.Some? ==> d.value < 16
  {
    if 0x30 <= b <= 0x39 then Some(b - 0x30)
    else if 0x61 <= b <= 0x66 then Some(b - 0x61 + 10)
    else if 0x41 <= b <= 0x46 then Some(b - 0x41 + 10)
    else None
  }

  const LOWER_DIGITS: seq<Byte> := [0x30, 0x31, 0x32, 0x33, 0x34, 0x35, 0x36, 0x37, 0x38, 0x39, 0x61, 0x62, 0x63, 0x64, 0x65, 0x66]
  const UPPER_DIGITS: seq<Byte> := [0x30, 0x31, 0x32, 0x33, 0x34, 0x35, 0x36, 0x37, 0x38, 0x39, 0x41, 0x42, 0x43, 0x44, 0x45, 0x46]

  /** The sixteen digits, in either case, and nothing else. */
  lemma DigitTable(b: Byte, d: nat)
    ensures HexDigit(b) == Some(d) <==> d < 16 && (b == LOWER_DIGITS[d] || b == UPPER_DIGITS[d])
  {
  }

  /** The number a run of hexadecimal digits stands for. */
  function HexNumber(s: seq<Byte>): (v: Option<nat>)
  {
    if s == [] then Some(0)
    else
      var front, last := HexNumber(s[..|s| - 1]), HexDigit(s[|s| - 1]);
      if front.Some? && last.Some? then Some(front.value * 16 + last.value) else None
  }

  function Hex4(s: seq<Byte>): (v: Option<nat>)
    requires |s| == 4
    ensures v.Some? ==> v.value < 0x10000 && forall k :: 0 <= k < 4 ==> HexDigit(s[k]).Some?
  {
    HexBound(s, 4);
    HexNumber(s)
  }

  lemma {:induction false} HexBound(s: seq<Byte>, n: nat)
    requires n <= |s| && n <= 4
    ensures HexNumber(s[..n]).Some? ==>
              && HexNumber(s[..n]).value < (if n == 0 then 1 else if n == 1 then 16 else if n == 2 then 256 else if n == 3 then 4096 else 65536)
              && forall k :: 0 <= k < n ==> HexDigit(s[k]).Some?
    ensures |s| == n ==> s[..n] == s
    ensures HexNumber(s[..n]).None? && n < |s| ==> HexNumber(s[..n + 1]).None?
  {
    if n > 0 {
      HexBound(s, n - 1);
      assert s[..n][..n - 1] == s[..n - 1] && s[..n][n - 1] == s[n - 1];
    }
    if n < |s| {
      assert s[..n + 1][..n] == s[..n];
    }
  }

  lemma HexNone()
    ensures HexNumber([]) == Some(0)
  {
  }

  lemma HexStep(s: seq<Byte>, n: nat, value: nat)
    requires n < |s| == 4 && HexNumber(s[..n]) == Some(value)
    ensures value * 16 + 15 < 0x10000
    ensures HexDigit(s[n]).Some? ==> HexNumber(s[..n + 1]) == Some(value * 16 + HexDigit(s[n]).value)
    ensures HexDigit(s[n]).None? ==> Hex4(s).None?
  {
    HexBound(s, n);
    assert s[..n + 1][..n] == s[..n];
    if HexDigit(s[n]).None? { HexFails(s, n + 1); }
  }

  /** The shift-and-add accumulator over a 16-bit word. */
  method DecodeHex4(raw: seq<Byte>, start: int) returns (value: nat, ok: bool)
    ensures ok <==> 0 <= start && start + 4 <= |raw| && Hex4(raw[start..start + 4]).Some?
    ensures ok ==> value == Hex4(raw[start..start + 4]).value
    ensures value < 0x10000
  {
    if start < 0 || start + 4 > |raw| { return 0, false; }
    var digits := raw[start..start + 4];
    assert digits[..0] == [] && digits[..4] == digits && Hex4(digits) == HexNumber(digits);
    hide HexNumber, Hex4, HexDigit;
    value := 0;
    var n := 0;
    assert HexNumber(digits[..0]) == Some(0) by { HexNone(); }
    while n < 4
      invariant n <= 4 && value < 0x10000
      invariant HexNumber(digits[..n]) == Some(value)
    {
      HexStep(digits, n, value);
      value := value * 16 % 0x10000;
      var digit := HexDigit(digits[n]);
      if digit.None? { return 0, false; }
      value := (value + digit.value) % 0x10000;
      n := n + 1;
    }
    ok := true;
  }

  lemma {:induction false} HexFails(s: seq<Byte>, n: nat)
    requires n <= |s| == 4 && HexNumber(s[..n]).None?
    ensures Hex4(s).None?
    decreases 4 - n
  {
    HexBound(s, n);
    if n < 4 {
      HexFails(s, n + 1);
    } else {
      assert s[..4] == s;
    }
  }

  predicate High(code: int) { 0xD800 <= code <= 0xDBFF }

  predicate Low(code: int) { 0xDC00 <= code <= 0xDFFF }

  // ---------------------------------------------------------------- the scanner

  /** What the scanner makes of the bytes between its index and the closing quote. */
  predicate ScanOk(b: seq<Byte>)
    decreases |b|
  {
    if b == [] then true
    else if b[0] != BACKSLASH then ScanOk(b[RuneStep(b)..])
    else if |b| < 2 then false
    else if b[1] != LETTER_U then ScanOk(b[2..])
    else if |b| < 6 || Hex4(b[2..6]).None? then false
    else
      var code := Hex4(b[2..6]).value;
      if High(code) then
        |b| >= 12 && b[6] == BACKSLASH && b[7] == LETTER_U && Hex4(b[8..12]).Some? && Low(Hex4(b[8..12]).value) && ScanOk(b[12..])
      else !Low(code) && ScanOk(b[6..])
  }

  /** Framed by quotes and valid UTF-8: the precondition of the scan. */
  predicate Framed(raw: seq<Byte>) {
    |raw| >= 2 && raw[0] == QUOTE && raw[|raw| - 1] == QUOTE && ValidUtf8(raw)
  }

  /** A rune that starts before the closing quote ends before it. */
  lemma RuneBeforeQuote(raw: seq<Byte>, index: nat)
    requires index < |raw| - 1 && raw[|raw| - 1] == QUOTE
    ensures RuneStep(raw[index..]) == RuneStep(raw[index..|raw| - 1])
    ensures index + RuneStep(raw[index..]) <= |raw| - 1
  {
    var s, b := raw[index..], raw[index..|raw| - 1];
    assert s == b + [QUOTE];
    assert forall k :: 0 <= k < |b| ==> s[k] == b[k];
    assert s[|b|] == QUOTE && !Continuation(QUOTE);
  }

  lemma Slice(raw: seq<Byte>, from: nat, end: nat, lo: nat, hi: nat)
    requires from <= end <= |raw| && lo <= hi <= end - from
    ensures raw[from..end][lo..hi] == raw[from + lo..from + hi]
  {
    assert forall k :: 0 <= k < hi - lo ==> raw[from..end][lo..hi][k] == raw[from + lo + k];
  }

  /** A `u` escape in the middle of a literal, in terms of the literal. */
  lemma EscapeAt(raw: seq<Byte>, start: nat)
    requires start + 1 < |raw| - 1 && raw[start] == BACKSLASH && raw[start + 1] == LETTER_U
    ensures ScanFrom(raw, start) <==>
              && start + 6 <= |raw| - 1 && Hex4(raw[start + 2..start + 6]).Some?
              && var code := Hex4(raw[start + 2..start + 6]).value;
                 if High(code) then
                   && start + 12 <= |raw| - 1 && raw[start + 6] == BACKSLASH && raw[start + 7] == LETTER_U
                   && Hex4(raw[start + 8..start + 12]).Some? && Low(Hex4(raw[start + 8..start + 12]).value)
                   && ScanFrom(raw, start + 12)
                 else !Low(code) && ScanFrom(raw, start + 6)
  {
    hide Hex4, High, Low, RuneStep;
    var end := |raw| - 1;
    var size := end - start;
    if size >= 6 {
      Slice(raw, start, end, 2, 6);
      Slice(raw, start, end, 6, size);
    }
    if size >= 12 {
      Slice(raw, start, end, 8, 12);
      Slice(raw, start, end, 12, size);
    }
  }

  /** One `u` escape, or a surrogate pair of them; `index` is at the `u`. */
  method ScanUnicode(raw: seq<Byte>, index: nat) returns (next: nat, ok: bool)
    requires 1 <= index < |raw| - 1 && raw[|raw| - 1] == QUOTE && raw[index - 1] == BACKSLASH && raw[index] == LETTER_U
    ensures ok ==> index < next <= |raw| - 1 && (ScanFrom(raw, index - 1) <==> ScanFrom(raw, next))
    ensures !ok ==> !ScanFrom(raw, index - 1)
  {
    hide *;
    var end := |raw| - 1;
    EscapeAt(raw, index - 1);
    var code, decoded := DecodeHex4(raw, index + 1);
    HexInside(raw, index + 1);
    next := index + 5;
    if !decoded { return next, false; }
    if High(code) {
      if next + 6 > end || raw[next] != BACKSLASH || raw[next + 1] != LETTER_U { return next, false; }
      var low, lowDecoded := DecodeHex4(raw, next + 2);
      if !lowDecoded || !Low(low) { return next, false; }
      next := next + 6;
    } else if Low(code) {
      return next, false;
    }
    ok := true;
  }

  lemma ScanUnfolds(b: seq<Byte>)
    requires b != []
    ensures b[0] != BACKSLASH ==> (ScanOk(b) <==> ScanOk(b[RuneStep(b)..]))
    ensures b[0] == BACKSLASH && |b| < 2 ==> !ScanOk(b)
    ensures b[0] == BACKSLASH && |b| >= 2 && b[1] != LETTER_U ==> (ScanOk(b) <==> ScanOk(b[2..]))
  {
    hide RuneStep, Hex4;
  }

  /** What the scanner makes of the bytes from `index` to the closing quote. */
  ghost predicate ScanFrom(raw: seq<Byte>, index: nat)
    requires index < |raw|
  {
    ScanOk(raw[index..|raw| - 1])
  }

  lemma ScanAt(raw: seq<Byte>, index: nat)
    requires index < |raw| - 1 && raw[|raw| - 1] == QUOTE
    ensures var size := RuneStep(raw[index..]);
            0 < size && index + size <= |raw| - 1 && (raw[index] != BACKSLASH ==> (ScanFrom(raw, index) <==> ScanFrom(raw, index + size)))
    ensures raw[index] == BACKSLASH && index + 1 == |raw| - 1 ==> !ScanFrom(raw, index)
    ensures raw[index] == BACKSLASH && index + 1 < |raw| - 1 && raw[index + 1] != LETTER_U ==>
              (ScanFrom(raw, index) <==> ScanFrom(raw, index + 2))
  {
    hide RuneLength, ScanOk;
    var end := |raw| - 1;
    var b := raw[index..end];
    RuneBeforeQuote(raw, index);
    ScanUnfolds(b);
    assert b[RuneStep(b)..] == raw[index + RuneStep(b)..end];
    assert |b| >= 2 ==> b[2..] == raw[index + 2..end];
  }

  lemma ScanEnds(raw: seq<Byte>)
    requires raw != []
    ensures ScanFrom(raw, |raw| - 1)
  {
    assert raw[|raw| - 1..|raw| - 1] == [];
  }

  /** Scans a framed literal; the index never passes the closing quote. */
  method ScanInside(raw: seq<Byte>) returns (ok: bool)
    requires |raw| >= 2 && raw[|raw| - 1] == QUOTE
    ensures ok <==> ScanFrom(raw, 1)
  {
    ScanEnds(raw);
    hide *;
    var index := 1;
    while index < |raw| - 1
      invariant 1 <= index <= |raw| - 1
      invariant ScanFrom(raw, 1) <==> ScanFrom(raw, index)
      decreases |raw| - index
    {
      ScanAt(raw, index);
      if raw[index] != BACKSLASH {
        index := index + RuneStep(raw[index..]);
        continue;
      }
      index := index + 1;
      if index >= |raw| - 1 { return false; }
      if raw[index] != LETTER_U {
        index := index + 1;
        continue;
      }
      var next, paired := ScanUnicode(raw, index);
      if !paired { return false; }
      index := next;
    }
    ok := true;
  }

  method ScanCredentialString(raw: seq<Byte>) returns (ok: bool)
    ensures ok <==> Framed(raw) && ScanOk(raw[1..|raw| - 1])
  {
    if |raw| < 2 || raw[0] != QUOTE || raw[|raw| - 1] != QUOTE || !ValidUtf8(raw) { return false; }
    hide ScanOk, ValidUtf8;
    ok := ScanInside(raw);
  }

  /** Four digits that decode cannot include the closing quote. */
  lemma HexInside(raw: seq<Byte>, start: nat)
    requires |raw| > 0 && raw[|raw| - 1] == QUOTE
    ensures start + 4 <= |raw| && Hex4(raw[start..start + 4]).Some? ==> start + 4 <= |raw| - 1
  {
    if start + 4 == |raw| {
      assert raw[start..start + 4][3] == QUOTE;
    }
  }
}
