/**
  Release versions of scripts/release.py: which strings they are, the sort key, and precedence as
  section 11 of Semantic Versioning 2.0.0 defines it.
 */
module Versions {
  import opened Basics

  // ---------------------------------------------------------------- strings

  predicate IsDigit(c: char) { '0' <= c <= '9' }

  predicate IdentifierChar(c: char) { IsDigit(c) || 'a' <= c <= 'z' || 'A' <= c <= 'Z' || c == '-' }

  /** The position of the first `c`, or the length. */
  function Find(s: string, c: char): (n: nat)
    ensures n <= |s| && (n < |s| ==> s[n] == c) && forall k :: 0 <= k < n ==> s[k] != c
  {
    if s == "" || s[0] == c then 0 else 1 + Find(s[1..], c)
  }

  function Split(s: string, c: char): (parts: seq<string>)
    ensures parts != []
    decreases |s|
  {
    var n := Find(s, c);
    if n == |s| then [s] else [s[..n]] + Split(s[n + 1..], c)
  }

  function Join(parts: seq<string>, c: char): string {
    if parts == [] then "" else if |parts| == 1 then parts[0] else parts[0] + [c] + Join(parts[1..], c)
  }

  /** Splitting cuts off what stands before the first separator. */
  lemma SplitStep(s: string, c: char)
    ensures var n := Find(s, c); n < |s| ==> Split(s, c) == [s[..n]] + Split(s[n + 1..], c)
    ensures Find(s, c) == |s| ==> Split(s, c) == [s]
  {
    hide Find;
  }

  lemma JoinStep(head: string, parts: seq<string>, c: char)
    ensures Join([head], c) == head
    ensures parts != [] ==> Join([head] + parts, c) == head + [c] + Join(parts, c)
  {
    assert ([head] + parts)[1..] == parts;
  }

  lemma {:induction false} JoinSplit(s: string, c: char)
    ensures Join(Split(s, c), c) == s
    decreases |s|
  {
    hide *;
    var n := Find(s, c);
    SplitStep(s, c);
    if n < |s| {
      JoinSplit(s[n + 1..], c);
      JoinStep(s[..n], Split(s[n + 1..], c), c);
      assert s == s[..n] + [c] + s[n + 1..];
    } else {
      JoinStep(s, [], c);
    }
  }

  // ---------------------------------------------------------------- numbers

  predicate AllDigits(s: string) { s != "" && forall k :: 0 <= k < |s| ==> IsDigit(s[k]) }

  /** A number without a leading zero. */
  predicate Numeric(s: string) { AllDigits(s) && (|s| > 1 ==> s[0] != '0') }

  function DigitValue(c: char): nat {
    if IsDigit(c) then c as int - '0' as int else 0
  }

  function IntOf(s: string): (n: nat) {
    if s == "" then 0 else IntOf(s[..|s| - 1]) * 10 + DigitValue(s[|s| - 1])
  }

  lemma {:induction false} IntPositive(s: string)
    requires Numeric(s)
    ensures IntOf(s) == 0 <==> s == "0"
    ensures s != "0" ==> IntOf(s) > 0
  {
    if |s| == 1 {
      assert s[..0] == "";
    } else {
      assert s[..|s| - 1][0] == s[0];
      IntPositive(s[..|s| - 1]);
    }
  }

  /** Without leading zeros, numbers are written in one way only. */
  lemma {:induction false} IntInjective(s: string, t: string)
    requires Numeric(s) && Numeric(t) && IntOf(s) == IntOf(t)
    ensures s == t
    decreases |s|
  {
    IntPositive(s);
    IntPositive(t);
    var a, b := s[..|s| - 1], t[..|t| - 1];
    assert s == a + [s[|s| - 1]] && t == b + [t[|t| - 1]];
    if a == "" || b == "" {
      LastDigit(s);
      LastDigit(t);
    } else {
      assert a[0] == s[0] && b[0] == t[0];
      LastDigit(s);
      LastDigit(t);
      IntInjective(a, b);
    }
  }

  lemma LastDigit(s: string)
    requires Numeric(s)
    ensures IntOf(s) / 10 == IntOf(s[..|s| - 1]) && IntOf(s) % 10 == DigitValue(s[|s| - 1])
    ensures IntOf(s[..|s| - 1]) == 0 <==> |s| == 1
  {
    var a := s[..|s| - 1];
    if a != "" {
      assert a[0] == s[0];
      IntPositive(a);
    }
  }

  // ---------------------------------------------------------------- the order of numerals

  /** Lexical order in ASCII: the first differing character decides, else the shorter is lower. */
  ghost predicate AsciiBefore(p: string, q: string) {
    || (exists k :: 0 <= k < |p| && k < |q| && p[k] < q[k] && p[..k] == q[..k])
    || (|p| < |q| && p == q[..|p|])
  }

  /** Without leading zeros the longer numeral is greater; of equally long ones the first difference decides. */
  ghost predicate NumeralBefore(s: string, t: string) {
    |s| < |t| || (|s| == |t| && AsciiBefore(s, t))
  }

  const DIGITS := "0123456789"

  lemma DigitTable(c: char)
    ensures IsDigit(c) <==> exists d :: 0 <= d < 10 && DIGITS[d] == c
    ensures forall d :: 0 <= d < 10 && DIGITS[d] == c ==> DigitValue(c) == d
  {
    if IsDigit(c) { assert DIGITS[c as int - '0' as int] == c; }
  }

  /** One more digit: the front decides, and among equal fronts the last digit. */
  lemma AsciiLast(p: string, q: string)
    requires |p| == |q| > 0
    ensures var a, b := p[..|p| - 1], q[..|q| - 1];
            AsciiBefore(p, q) <==> AsciiBefore(a, b) || (a == b && p[|p| - 1] < q[|q| - 1])
  {
    var a, b := p[..|p| - 1], q[..|q| - 1];
    if AsciiBefore(p, q) {
      var k :| 0 <= k < |p| && p[k] < q[k] && p[..k] == q[..k];
      if k < |a| { assert a[k] < b[k] && a[..k] == p[..k] && b[..k] == q[..k]; }
    }
    if AsciiBefore(a, b) {
      var k :| 0 <= k < |a| && a[k] < b[k] && a[..k] == b[..k];
      assert p[k] < q[k] && p[..k] == a[..k] && q[..k] == b[..k];
    }
    if a == b && p[|p| - 1] < q[|q| - 1] { assert p[..|a|] == q[..|a|]; }
  }

  predicate OnlyDigits(s: string) { forall k :: 0 <= k < |s| ==> IsDigit(s[k]) }

  lemma {:induction false} SameLength(s: string, t: string)
    requires |s| == |t| && OnlyDigits(s) && OnlyDigits(t)
    ensures IntOf(s) < IntOf(t) <==> AsciiBefore(s, t)
    ensures IntOf(s) == IntOf(t) <==> s == t
  {
    if s == "" {
      assert t == "";
    } else {
      var a, b := s[..|s| - 1], t[..|t| - 1];
      SameLength(a, b);
      AsciiLast(s, t);
      assert s == a + [s[|s| - 1]] && t == b + [t[|t| - 1]];
      DigitOrder(s[|s| - 1], t[|t| - 1]);
      hide AsciiBefore, DigitValue, IsDigit;
      assert IntOf(s) == IntOf(a) * 10 + DigitValue(s[|s| - 1]) && IntOf(t) == IntOf(b) * 10 + DigitValue(t[|t| - 1]);
    }
  }

  lemma DigitOrder(c: char, d: char)
    requires IsDigit(c) && IsDigit(d)
    ensures DigitValue(c) < 10 && DigitValue(d) < 10
    ensures (DigitValue(c) < DigitValue(d) <==> c < d) && (DigitValue(c) == DigitValue(d) <==> c == d)
  {
  }

  function Pow10(n: nat): (p: nat)
    ensures p > 0
  {
    if n == 0 then 1 else 10 * Pow10(n - 1)
  }

  lemma {:induction false} PowGrows(m: nat, n: nat)
    requires m <= n
    ensures Pow10(m) <= Pow10(n)
  {
    if m < n { PowGrows(m, n - 1); }
  }

  lemma {:induction false} IntBounds(s: string)
    requires OnlyDigits(s)
    ensures IntOf(s) < Pow10(|s|)
    ensures s != "" && s[0] != '0' ==> Pow10(|s| - 1) <= IntOf(s)
  {
    if s != "" {
      var a := s[..|s| - 1];
      IntBounds(a);
      assert a != "" ==> a[0] == s[0];
      DigitOrder(s[|s| - 1], s[|s| - 1]);
    }
  }

  /** The number a numeral stands for orders numerals as their digits do. */
  lemma IntOrder(s: string, t: string)
    requires Numeric(s) && Numeric(t)
    ensures IntOf(s) < IntOf(t) <==> NumeralBefore(s, t)
    ensures IntOf(s) == IntOf(t) <==> s == t
  {
    assert OnlyDigits(s) && OnlyDigits(t);
    if |s| == |t| {
      SameLength(s, t);
    } else {
      IntBounds(s);
      IntBounds(t);
      if |s| < |t| { PowGrows(|s|, |t| - 1); } else { PowGrows(|t|, |s| - 1); }
    }
  }

  // ---------------------------------------------------------------- versions

  /** The core numbers and the prerelease identifiers of a version. */
  datatype Version = Version(core: seq<string>, prerelease: seq<string>)

  predicate ValidIdentifier(p: string) {
    && p != "" && (forall k :: 0 <= k < |p| ==> IdentifierChar(p[k]))
    && (AllDigits(p) ==> Numeric(p))
  }

  predicate ValidVersion(v: Version) {
    && |v.core| == 3
    && (forall k :: 0 <= k < 3 ==> Numeric(v.core[k]))
    && (forall k :: 0 <= k < |v.prerelease| ==> ValidIdentifier(v.prerelease[k]))
  }

  /** Reads "vMAJOR.MINOR.PATCH" with an optional "-" and dot-separated identifiers. */
  function Parse(value: string): Version
    requires value != ""
  {
    var body := value[1..];
    var dash := Find(body, '-');
    Version(Split(body[..dash], '.'), if dash == |body| then [] else Split(body[dash + 1..], '.'))
  }

  predicate ReleaseVersion(value: string) {
    value != "" && value[0] == 'v' && ValidVersion(Parse(value))
  }

  function Render(v: Version): string {
    "v" + Join(v.core, '.') + if v.prerelease == [] then "" else "-" + Join(v.prerelease, '.')
  }

  lemma ParseIs(value: string)
    requires value != ""
    ensures var body := value[1..];
            var dash := Find(body, '-');
            Parse(value) == Version(Split(body[..dash], '.'), if dash == |body| then [] else Split(body[dash + 1..], '.'))
  {
    hide Find, Split;
  }

  /** The parts that a version was read from make up its string. */
  lemma RenderedParts(core: string, tail: Option<string>)
    ensures Render(Version(Split(core, '.'), if tail.None? then [] else Split(tail.value, '.'))) ==
              "v" + (core + if tail.None? then "" else "-" + tail.value)
  {
    JoinSplit(core, '.');
    if tail.Some? { JoinSplit(tail.value, '.'); }
  }

  lemma RenderParse(value: string)
    requires ReleaseVersion(value)
    ensures Render(Parse(value)) == value
  {
    hide *;
    Marked(value);
    ParseIs(value);
    BodyParts(value);
    var body := value[1..];
    var dash := Find(body, '-');
    RenderedParts(body[..dash], if dash == |body| then None else Some(body[dash + 1..]));
  }

  lemma Marked(value: string)
    requires ReleaseVersion(value)
    ensures value != "" && value[0] == 'v'
  {
    hide ValidVersion, Parse;
  }

  lemma BodyParts(value: string)
    requires value != "" && value[0] == 'v'
    ensures var body := value[1..];
            var dash := Find(body, '-');
            value == "v" + (body[..dash] + if dash == |body| then "" else "-" + body[dash + 1..])
  {
    hide Find;
    var body := value[1..];
    var dash := Find(body, '-');
    assert body == body[..dash] + if dash == |body| then "" else "-" + body[dash + 1..];
  }

  const LOWER_LETTERS := "abcdefghijklmnopqrstuvwxyz"
  const UPPER_LETTERS := "ABCDEFGHIJKLMNOPQRSTUVWXYZ"

  lemma LowerTable(c: char)
    ensures 'a' <= c <= 'z' <==> c in LOWER_LETTERS
  {
    assert 'a' <= c <= 'z' ==> LOWER_LETTERS[c as int - 'a' as int] == c;
  }

  lemma UpperTable(c: char)
    ensures 'A' <= c <= 'Z' <==> c in UPPER_LETTERS
  {
    assert 'A' <= c <= 'Z' ==> UPPER_LETTERS[c as int - 'A' as int] == c;
  }

  lemma DigitChars(c: char)
    ensures '0' <= c <= '9' <==> c in DIGITS
  {
    assert '0' <= c <= '9' ==> DIGITS[c as int - '0' as int] == c;
  }

  /** The characters of a prerelease identifier. */
  lemma IdentifierTable(c: char)
    ensures IdentifierChar(c) <==> c == '-' || c in DIGITS || c in LOWER_LETTERS || c in UPPER_LETTERS
  {
    DigitChars(c);
    LowerTable(c);
    UpperTable(c);
  }

  // ---------------------------------------------------------------- which strings are versions

  predicate Lacks(s: string, c: char) { forall k :: 0 <= k < |s| ==> s[k] != c }

  lemma FindAt(head: string, rest: string, c: char)
    requires Lacks(head, c)
    ensures Find(head, c) == |head| && Find(head + [c] + rest, c) == |head|
  {
    assert (head + [c] + rest)[|head|] == c;
  }

  lemma {:induction false} SplitJoin(parts: seq<string>, c: char)
    requires parts != [] && forall k :: 0 <= k < |parts| ==> Lacks(parts[k], c)
    ensures Split(Join(parts, c), c) == parts
  {
    hide *;
    var head, rest := parts[0], parts[1..];
    assert parts == [head] + rest;
    JoinStep(head, rest, c);
    FindAt(head, Join(rest, c), c);
    SplitStep(Join(parts, c), c);
    if rest == [] {
      assert parts == [head];
    } else {
      assert forall k :: 0 <= k < |rest| ==> rest[k] == parts[k + 1];
      SplitJoin(rest, c);
      var s := head + [c] + Join(rest, c);
      assert s[..|head|] == head && s[|head| + 1..] == Join(rest, c);
    }
  }

  lemma {:induction false} JoinLacks(parts: seq<string>, c: char, d: char)
    requires c != d && forall k :: 0 <= k < |parts| ==> Lacks(parts[k], d)
    ensures Lacks(Join(parts, c), d)
  {
    if |parts| > 1 { JoinLacks(parts[1..], c, d); }
  }

  lemma NumericLacks(s: string)
    requires Numeric(s)
    ensures Lacks(s, '.') && Lacks(s, '-')
  {
  }

  lemma IdentifierLacks(p: string)
    requires ValidIdentifier(p)
    ensures Lacks(p, '.')
  {
    hide Numeric;
  }

  lemma ParseParts(core: string, tail: Option<string>)
    requires Lacks(core, '-')
    ensures var value := "v" + (core + if tail.None? then "" else "-" + tail.value);
            Parse(value) == Version(Split(core, '.'), if tail.None? then [] else Split(tail.value, '.'))
  {
    hide *;
    var value := "v" + (core + if tail.None? then "" else "-" + tail.value);
    ParseIs(value);
    var body := value[1..];
    FindAt(core, if tail.None? then "" else tail.value, '-');
    if tail.None? {
      assert body == core && core[..|core|] == core;
    } else {
      assert body == core + ['-'] + tail.value;
      assert body[..|core|] == core && body[|core| + 1..] == tail.value;
    }
  }

  lemma PartsLack(v: Version)
    requires ValidVersion(v)
    ensures forall k :: 0 <= k < |v.core| ==> Lacks(v.core[k], '.') && Lacks(v.core[k], '-')
    ensures forall k :: 0 <= k < |v.prerelease| ==> Lacks(v.prerelease[k], '.')
    ensures v.core != []
  {
    hide Numeric, ValidIdentifier, Lacks;
    forall k | 0 <= k < 3 ensures Lacks(v.core[k], '.') && Lacks(v.core[k], '-') { NumericLacks(v.core[k]); }
    forall k | 0 <= k < |v.prerelease| ensures Lacks(v.prerelease[k], '.') { IdentifierLacks(v.prerelease[k]); }
  }

  lemma RenderIs(v: Version)
    ensures Render(v) == "v" + (Join(v.core, '.') + if v.prerelease == [] then "" else "-" + Join(v.prerelease, '.'))
  {
    hide Join;
  }

  lemma IsRelease(value: string, v: Version)
    requires value != "" && value[0] == 'v' && Parse(value) == v && ValidVersion(v)
    ensures ReleaseVersion(value)
  {
  }

  /** Every valid version is read back from its string: the release versions are exactly those strings. */
  lemma ParseRender(v: Version)
    requires ValidVersion(v)
    ensures ReleaseVersion(Render(v)) && Parse(Render(v)) == v
  {
    hide *;
    PartsLack(v);
    SplitJoin(v.core, '.');
    JoinLacks(v.core, '.', '-');
    if v.prerelease != [] { SplitJoin(v.prerelease, '.'); }
    RenderIs(v);
    ParseParts(Join(v.core, '.'), if v.prerelease == [] then None else Some(Join(v.prerelease, '.')));
    IsRelease(Render(v), v);
  }

  // ---------------------------------------------------------------- the sort key

  /** (0, number, "") for a numeric identifier, (1, 0, text) for any other. */
  datatype KeyId = KeyId(rank: int, number: int, text: string)

  /** (1,) without a prerelease, (0, identifiers) with one. */
  datatype Tail = Tail(rank: int, ids: seq<KeyId>)

  datatype Key = Key(numbers: seq<int>, tail: Tail)

  function IdKey(p: string): KeyId {
    if AllDigits(p) then KeyId(0, IntOf(p), "") else KeyId(1, 0, p)
  }

  function VersionKey(value: string): Key
    requires ReleaseVersion(value)
  {
    var v := Parse(value);
    Key([IntOf(v.core[0]), IntOf(v.core[1]), IntOf(v.core[2])],
        if v.prerelease == [] then Tail(1, []) else Tail(0, seq(|v.prerelease|, i requires 0 <= i < |v.prerelease| => IdKey(v.prerelease[i]))))
  }

  /** The key determines the version string. */
  lemma KeyInjective(a: string, b: string)
    requires ReleaseVersion(a) && ReleaseVersion(b) && VersionKey(a) == VersionKey(b)
    ensures a == b
  {
    RenderParse(a);
    RenderParse(b);
    assert ValidVersion(Parse(a)) && ValidVersion(Parse(b));
    hide Parse, Render, IdKey, Numeric, ValidIdentifier, IntOf;
    CoreInjective(Parse(a).core, Parse(b).core, VersionKey(a).numbers);
    var p, q := Parse(a).prerelease, Parse(b).prerelease;
    assert VersionKey(a).tail.ids == VersionKey(b).tail.ids && |p| == |q|;
    forall k | 0 <= k < |p| ensures p[k] == q[k] {
      assert VersionKey(a).tail.ids[k] == IdKey(p[k]) && VersionKey(b).tail.ids[k] == IdKey(q[k]);
      IdInjective(p[k], q[k]);
    }
    assert p == q;
  }

  lemma CoreInjective(v: seq<string>, w: seq<string>, numbers: seq<int>)
    requires |v| == 3 && |w| == 3 && forall k :: 0 <= k < 3 ==> Numeric(v[k]) && Numeric(w[k])
    requires numbers == [IntOf(v[0]), IntOf(v[1]), IntOf(v[2])] == [IntOf(w[0]), IntOf(w[1]), IntOf(w[2])]
    ensures v == w
  {
    hide Numeric, IntOf;
    assert numbers[0] == IntOf(v[0]) == IntOf(w[0]) && numbers[1] == IntOf(v[1]) == IntOf(w[1]) && numbers[2] == IntOf(v[2]) == IntOf(w[2]);
    IntInjective(v[0], w[0]);
    IntInjective(v[1], w[1]);
    IntInjective(v[2], w[2]);
  }

  lemma IdInjective(p: string, q: string)
    requires ValidIdentifier(p) && ValidIdentifier(q)
    ensures IdKey(p) == IdKey(q) <==> p == q
  {
    if AllDigits(p) && AllDigits(q) && IntOf(p) == IntOf(q) { IntInjective(p, q); }
  }

  // ---------------------------------------------------------------- tuple order

  /** Strings compare by their characters from the left, a proper prefix first. */
  predicate TextLess(a: string, b: string) {
    if b == "" then false
    else if a == "" then true
    else a[0] < b[0] || (a[0] == b[0] && TextLess(a[1..], b[1..]))
  }

  predicate IdLess(x: KeyId, y: KeyId) {
    || x.rank < y.rank
    || (x.rank == y.rank && (x.number < y.number || (x.number == y.number && TextLess(x.text, y.text))))
  }

  predicate IdsLess(a: seq<KeyId>, b: seq<KeyId>) {
    if b == [] then false
    else if a == [] then true
    else IdLess(a[0], b[0]) || (a[0] == b[0] && IdsLess(a[1..], b[1..]))
  }

  predicate NumbersLess(a: seq<int>, b: seq<int>) {
    if b == [] then false
    else if a == [] then true
    else a[0] < b[0] || (a[0] == b[0] && NumbersLess(a[1..], b[1..]))
  }

  predicate TailLess(a: Tail, b: Tail) {
    a.rank < b.rank || (a.rank == b.rank && IdsLess(a.ids, b.ids))
  }

  /** The order of the keys as nested tuples. */
  predicate KeyLess(a: Key, b: Key) {
    NumbersLess(a.numbers, b.numbers) || (a.numbers == b.numbers && TailLess(a.tail, b.tail))
  }

  // ---------------------------------------------------------------- precedence, independently

  /** Numeric identifiers compare as numerals and are lower than others, which compare lexically. */
  ghost predicate IdentifierBefore(p: string, q: string) {
    if AllDigits(p) && AllDigits(q) then NumeralBefore(p, q)
    else if AllDigits(p) || AllDigits(q) then AllDigits(p)
    else AsciiBefore(p, q)
  }

  /** The first differing identifier decides; if all are equal the shorter list is lower. */
  ghost predicate FieldsBefore(p: seq<string>, q: seq<string>) {
    || (exists k :: 0 <= k < |p| && k < |q| && IdentifierBefore(p[k], q[k]) && p[..k] == q[..k])
    || (|p| < |q| && p == q[..|p|])
  }

  /** Major, minor and patch compare numerically, the first difference decides. */
  ghost predicate CoreBefore(a: seq<string>, b: seq<string>)
    requires |a| == 3 && |b| == 3
  {
    exists k :: 0 <= k < 3 && NumeralBefore(a[k], b[k]) && forall j :: 0 <= j < k ==> a[j] == b[j]
  }

  /** Section 11: the core decides; with equal cores a prerelease precedes the release. */
  ghost predicate Precedes(a: Version, b: Version)
    requires ValidVersion(a) && ValidVersion(b)
  {
    || CoreBefore(a.core, b.core)
    || (&& a.core == b.core
        && (|| (a.prerelease != [] && b.prerelease == [])
            || (a.prerelease != [] && b.prerelease != [] && FieldsBefore(a.prerelease, b.prerelease))))
  }

  lemma {:induction false} TextIsAscii(p: string, q: string)
    ensures TextLess(p, q) <==> AsciiBefore(p, q)
  {
    if p != "" && q != "" {
      TextIsAscii(p[1..], q[1..]);
      if p[0] == q[0] { AsciiTail(p, q); }
    }
  }

  lemma AsciiTail(p: string, q: string)
    requires p != "" && q != "" && p[0] == q[0]
    ensures AsciiBefore(p, q) <==> AsciiBefore(p[1..], q[1..])
  {
    hide AsciiBefore;
    if AsciiBefore(p, q) { AsciiDown(p, q); }
    if AsciiBefore(p[1..], q[1..]) { AsciiUp(p, q); }
  }

  lemma AsciiDown(p: string, q: string)
    requires p != "" && q != "" && p[0] == q[0] && AsciiBefore(p, q)
    ensures AsciiBefore(p[1..], q[1..])
  {
    var a, b := p[1..], q[1..];
    if k :| 0 <= k < |p| && k < |q| && p[k] < q[k] && p[..k] == q[..k] {
      assert a[k - 1] < b[k - 1];
      assert a[..k - 1] == p[..k][1..] && b[..k - 1] == q[..k][1..];
    } else {
      assert a == p[1..] && b[..|a|] == q[..|p|][1..];
    }
  }

  lemma AsciiUp(p: string, q: string)
    requires p != "" && q != "" && p[0] == q[0] && AsciiBefore(p[1..], q[1..])
    ensures AsciiBefore(p, q)
  {
    var a, b := p[1..], q[1..];
    assert p == [p[0]] + a && q == [q[0]] + b;
    if k :| 0 <= k < |a| && k < |b| && a[k] < b[k] && a[..k] == b[..k] {
      assert p[k + 1] < q[k + 1] && p[..k + 1] == [p[0]] + a[..k] && q[..k + 1] == [q[0]] + b[..k];
    } else {
      assert q[..|p|] == [q[0]] + b[..|a|];
    }
  }

  lemma IdOrder(p: string, q: string)
    requires ValidIdentifier(p) && ValidIdentifier(q)
    ensures IdLess(IdKey(p), IdKey(q)) <==> IdentifierBefore(p, q)
  {
    TextIsAscii(p, q);
    if AllDigits(p) && AllDigits(q) { IntOrder(p, q); }
    hide TextLess, AsciiBefore, AllDigits, IntOf;
    assert !TextLess("", "") by { NothingLess(); }
  }

  lemma NothingLess()
    ensures !TextLess("", "")
  {
  }

  function IdKeys(p: seq<string>): seq<KeyId> {
    seq(|p|, i requires 0 <= i < |p| => IdKey(p[i]))
  }

  lemma {:induction false} FieldsOrder(p: seq<string>, q: seq<string>)
    requires (forall k :: 0 <= k < |p| ==> ValidIdentifier(p[k])) && forall k :: 0 <= k < |q| ==> ValidIdentifier(q[k])
    ensures IdsLess(IdKeys(p), IdKeys(q)) <==> FieldsBefore(p, q)
  {
    hide IdKey, IdLess, IdentifierBefore, ValidIdentifier;
    if p != [] && q != [] {
      FieldsOrder(p[1..], q[1..]);
      IdOrder(p[0], q[0]);
      IdInjective(p[0], q[0]);
      assert IdKeys(p)[1..] == IdKeys(p[1..]) && IdKeys(q)[1..] == IdKeys(q[1..]);
      assert IdKeys(p)[0] == IdKey(p[0]) && IdKeys(q)[0] == IdKey(q[0]);
      FieldsTail(p, q);
    }
  }

  lemma FieldsFirst(p: seq<string>, q: seq<string>)
    requires p != [] && q != []
    ensures IdentifierBefore(p[0], q[0]) ==> FieldsBefore(p, q)
    ensures p[0] != q[0] && FieldsBefore(p, q) ==> IdentifierBefore(p[0], q[0])
  {
    hide IdentifierBefore;
    assert p[..0] == q[..0];
    if k :| 0 < k < |p| && k < |q| && IdentifierBefore(p[k], q[k]) && p[..k] == q[..k] {
      assert p[..k][0] == p[0] && q[..k][0] == q[0];
    }
    if |p| < |q| && p == q[..|p|] {
      assert q[..|p|][0] == q[0];
    }
  }

  lemma FieldsDown(p: seq<string>, q: seq<string>)
    requires p != [] && q != [] && p[0] == q[0] && FieldsBefore(p, q)
    ensures IdentifierBefore(p[0], q[0]) || FieldsBefore(p[1..], q[1..])
  {
    hide IdentifierBefore;
    var a, b := p[1..], q[1..];
    if k :| 0 <= k < |p| && k < |q| && IdentifierBefore(p[k], q[k]) && p[..k] == q[..k] {
      if k > 0 {
        assert IdentifierBefore(a[k - 1], b[k - 1]) && a[..k - 1] == p[..k][1..] && b[..k - 1] == q[..k][1..];
      }
    } else {
      assert a == p[1..] && b[..|a|] == q[..|p|][1..];
    }
  }

  lemma FieldsUp(p: seq<string>, q: seq<string>)
    requires p != [] && q != [] && p[0] == q[0] && FieldsBefore(p[1..], q[1..])
    ensures FieldsBefore(p, q)
  {
    hide IdentifierBefore;
    var a, b := p[1..], q[1..];
    assert p == [p[0]] + a && q == [q[0]] + b;
    if k :| 0 <= k < |a| && k < |b| && IdentifierBefore(a[k], b[k]) && a[..k] == b[..k] {
      assert IdentifierBefore(p[k + 1], q[k + 1]) && p[..k + 1] == [p[0]] + a[..k] && q[..k + 1] == [q[0]] + b[..k];
    } else {
      assert q[..|p|] == [q[0]] + b[..|a|];
    }
  }

  lemma FieldsTail(p: seq<string>, q: seq<string>)
    requires p != [] && q != []
    ensures IdentifierBefore(p[0], q[0]) ==> FieldsBefore(p, q)
    ensures p[0] == q[0] ==> (FieldsBefore(p, q) <==> IdentifierBefore(p[0], q[0]) || FieldsBefore(p[1..], q[1..]))
    ensures p[0] != q[0] ==> (FieldsBefore(p, q) <==> IdentifierBefore(p[0], q[0]))
  {
    hide IdentifierBefore, FieldsBefore;
    FieldsFirst(p, q);
    if p[0] == q[0] {
      if FieldsBefore(p, q) { FieldsDown(p, q); }
      if FieldsBefore(p[1..], q[1..]) { FieldsUp(p, q); }
    }
  }

  lemma NumbersOrder(a: seq<string>, b: seq<string>)
    requires |a| == 3 && |b| == 3 && forall k :: 0 <= k < 3 ==> Numeric(a[k]) && Numeric(b[k])
    ensures var m, n := [IntOf(a[0]), IntOf(a[1]), IntOf(a[2])], [IntOf(b[0]), IntOf(b[1]), IntOf(b[2])];
            NumbersLess(m, n) <==> CoreBefore(a, b)
  {
    hide IntOf, NumbersLess, NumeralBefore, Numeric;
    var m, n := [IntOf(a[0]), IntOf(a[1]), IntOf(a[2])], [IntOf(b[0]), IntOf(b[1]), IntOf(b[2])];
    IntOrder(a[0], b[0]);
    IntOrder(a[1], b[1]);
    IntOrder(a[2], b[2]);
    ThreeNumbers(m, n);
    if NumbersLess(m, n) {
      var k := if m[0] < n[0] then 0 else if m[1] < n[1] then 1 else 2;
      assert NumeralBefore(a[k], b[k]) && forall j :: 0 <= j < k ==> a[j] == b[j];
    }
  }

  lemma ThreeNumbers(m: seq<int>, n: seq<int>)
    requires |m| == 3 && |n| == 3
    ensures NumbersLess(m, n) <==>
              m[0] < n[0] || (m[0] == n[0] && (m[1] < n[1] || (m[1] == n[1] && m[2] < n[2])))
  {
    assert m[1..][1..] == [m[2]] && n[1..][1..] == [n[2]];
    assert NumbersLess([m[2]], [n[2]]) <==> m[2] < n[2];
    assert NumbersLess(m[1..], n[1..]) <==> m[1] < n[1] || (m[1] == n[1] && m[2] < n[2]);
  }

  /** The tuple order of the keys is section 11 precedence. */
  lemma KeyOrder(a: string, b: string)
    requires ReleaseVersion(a) && ReleaseVersion(b)
    ensures KeyLess(VersionKey(a), VersionKey(b)) <==> Precedes(Parse(a), Parse(b))
  {
    var v, w := Parse(a), Parse(b);
    NumbersOrder(v.core, w.core);
    FieldsOrder(v.prerelease, w.prerelease);
    if VersionKey(a).numbers == VersionKey(b).numbers { CoreInjective(v.core, w.core, VersionKey(a).numbers); }
    assert VersionKey(a).tail == if v.prerelease == [] then Tail(1, []) else Tail(0, IdKeys(v.prerelease));
    assert VersionKey(b).tail == if w.prerelease == [] then Tail(1, []) else Tail(0, IdKeys(w.prerelease));
    assert !IdsLess([], []);
  }

  /** The order of release versions is total and strict, so a newest tag exists among any tags. */
  lemma KeyTotal(a: string, b: string)
    requires ReleaseVersion(a) && ReleaseVersion(b)
    ensures a == b || KeyLess(VersionKey(a), VersionKey(b)) || KeyLess(VersionKey(b), VersionKey(a))
    ensures !(KeyLess(VersionKey(a), VersionKey(b)) && KeyLess(VersionKey(b), VersionKey(a)))
  {
    hide VersionKey, NumbersLess, IdsLess;
    var k, l := VersionKey(a), VersionKey(b);
    NumbersTotal(k.numbers, l.numbers);
    IdsTotal(k.tail.ids, l.tail.ids);
    if k == l { KeyInjective(a, b); }
  }

  lemma {:induction false} NumbersTotal(a: seq<int>, b: seq<int>)
    ensures NumbersLess(a, b) || NumbersLess(b, a) || a == b
    ensures !(NumbersLess(a, b) && NumbersLess(b, a)) && !NumbersLess(a, a)
    decreases |a|
  {
    if a != [] {
      NumbersTotal(a[1..], a[1..]);
      if b != [] {
        NumbersTotal(a[1..], b[1..]);
        assert a[0] == b[0] && a[1..] == b[1..] ==> a == [a[0]] + a[1..] == b;
      }
    }
  }

  lemma {:induction false} TextTotal(a: string, b: string)
    ensures TextLess(a, b) || TextLess(b, a) || a == b
    ensures !(TextLess(a, b) && TextLess(b, a)) && !TextLess(a, a)
    decreases |a|
  {
    if a != "" {
      TextTotal(a[1..], a[1..]);
      if b != "" {
        TextTotal(a[1..], b[1..]);
        assert a[0] == b[0] && a[1..] == b[1..] ==> a == [a[0]] + a[1..] == b;
      }
    }
  }

  lemma {:induction false} IdsTotal(a: seq<KeyId>, b: seq<KeyId>)
    ensures IdsLess(a, b) || IdsLess(b, a) || a == b
    ensures !(IdsLess(a, b) && IdsLess(b, a)) && !IdsLess(a, a)
    decreases |a|
  {
    hide TextLess;
    if a != [] {
      IdsTotal(a[1..], a[1..]);
      TextTotal(a[0].text, a[0].text);
      if b != [] {
        IdsTotal(a[1..], b[1..]);
        TextTotal(a[0].text, b[0].text);
        assert a[0] == b[0] && a[1..] == b[1..] ==> a == [a[0]] + a[1..] == b;
      }
    }
  }
}
