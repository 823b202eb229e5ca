/**
  The bencode encoder of scripts/readonly_acceptance.py (bencoding is BEP 3): integers, byte
  strings, lists and dictionaries with sorted keys.

  A dictionary is the sequence of its entries in insertion order; two dictionaries are equal when
  they have the same entries in any order, which is what `Canon` compares.
 */
module Bencode {
  import opened Basics

  datatype Value =
    | Int(n: int)
    | Bytes(b: seq<Byte>)
    | List(items: seq<Value>)
    | Dict(entries: seq<Entry>)

  datatype Entry = Entry(key: seq<Byte>, value: Value)

  /** A dictionary has each key once. */
  predicate Valid(v: Value) {
    match v
    case Int(_) => true
    case Bytes(_) => true
    case List(items) => forall i :: 0 <= i < |items| ==> Valid(items[i])
    case Dict(entries) =>
      && (forall i, j :: 0 <= i < j < |entries| ==> entries[i].key != entries[j].key)
      && (forall i :: 0 <= i < |entries| ==> Valid(entries[i].value))
  }

  // ---------------------------------------------------------------- numbers

  const MINUS: Byte := 0x2D
  const COLON: Byte := 0x3A
  const LETTER_I: Byte := 0x69
  const LETTER_L: Byte := 0x6C
  const LETTER_D: Byte := 0x64
  const LETTER_E: Byte := 0x65

  predicate Digit(b: Byte) { 0x30 <= b <= 0x39 }

  function Digits(n: nat): (s: seq<Byte>)
    ensures s != [] && forall k :: 0 <= k < |s| ==> Digit(s[k])
  {
    if n < 10 then [0x30 + n] else Digits(n / 10) + [0x30 + n % 10]
  }

  function Decimal(n: int): (s: seq<Byte>)
    ensures s != [] && forall k :: 0 <= k < |s| ==> Digit(s[k]) || s[k] == MINUS
  {
    if n < 0 then [MINUS] + Digits(-n) else Digits(n)
  }

  function Number(s: seq<Byte>): int
    requires forall k :: 0 <= k < |s| ==> Digit(s[k])
  {
    if s == [] then 0 else Number(s[..|s| - 1]) * 10 + (s[|s| - 1] as int - 0x30)
  }

  lemma {:induction false} NumberDigits(n: nat)
    ensures Number(Digits(n)) == n
  {
    if n >= 10 {
      NumberDigits(n / 10);
      assert Digits(n)[..|Digits(n)| - 1] == Digits(n / 10);
    } else {
      assert Digits(n)[..0] == [];
    }
  }

  lemma DecimalInjective(m: int, n: int)
    requires Decimal(m) == Decimal(n)
    ensures m == n
  {
    if m < 0 {
      assert Decimal(m)[0] == MINUS && Decimal(m)[1..] == Digits(-m);
      assert n < 0;
      assert Decimal(n)[1..] == Digits(-n);
      NumberDigits(-m);
      NumberDigits(-n);
    } else {
      assert n >= 0 by { assert Digit(Decimal(m)[0]); }
      NumberDigits(m);
      NumberDigits(n);
    }
  }

  /** A run without the terminator is determined by the stream it starts. */
  lemma RunUnique(a: seq<Byte>, b: seq<Byte>, end: Byte, s: seq<Byte>, t: seq<Byte>)
    requires a + [end] + s == b + [end] + t && end !in a && end !in b
    ensures a == b && s == t
  {
    var u := a + [end] + s;
    assert forall k :: 0 <= k < |a| ==> u[k] == a[k] && u[k] != end;
    assert forall k :: 0 <= k < |b| ==> u[k] == b[k] && u[k] != end;
    assert u[|a|] == end && u[|b|] == end;
    assert u[..|a|] == a && u[..|b|] == b && u[|a| + 1..] == s && u[|b| + 1..] == t;
  }

  // ---------------------------------------------------------------- key order

  /** Lexicographic order of byte strings. */
  predicate Less(a: seq<Byte>, b: seq<Byte>) {
    if b == [] then false
    else if a == [] then true
    else a[0] < b[0] || (a[0] == b[0] && Less(a[1..], b[1..]))
  }

  lemma {:induction false} LessTotal(a: seq<Byte>, b: seq<Byte>)
    ensures Less(a, b) || Less(b, a) || a == b
    ensures !(Less(a, b) && Less(b, a)) && !Less(a, a)
  {
    if a != [] && b != [] {
      LessTotal(a[1..], b[1..]);
      LessTotal(a[1..], a[1..]);
      assert a[0] == b[0] && a[1..] == b[1..] ==> a == [a[0]] + a[1..] == b;
    } else if a != [] {
      LessTotal(a[1..], a[1..]);
    }
  }

  lemma {:induction false} LessTrans(a: seq<Byte>, b: seq<Byte>, c: seq<Byte>)
    requires Less(a, b) && Less(b, c)
    ensures Less(a, c)
  {
    if a != [] && a[0] == b[0] && b[0] == c[0] {
      LessTrans(a[1..], b[1..], c[1..]);
    }
  }

  /** Raw byte order, independently: the first difference decides, else the shorter key comes first. */
  ghost predicate Before(a: seq<Byte>, b: seq<Byte>) {
    || (exists k :: 0 <= k < |a| && k < |b| && a[k] < b[k] && a[..k] == b[..k])
    || (|a| < |b| && a == b[..|a|])
  }

  lemma {:induction false} LessIsBefore(a: seq<Byte>, b: seq<Byte>)
    ensures Less(a, b) <==> Before(a, b)
  {
    if a != [] && b != [] {
      LessIsBefore(a[1..], b[1..]);
      if a[0] == b[0] { BeforeTail(a, b); }
    }
  }

  lemma BeforeTail(a: seq<Byte>, b: seq<Byte>)
    requires a != [] && b != [] && a[0] == b[0]
    ensures Before(a, b) <==> Before(a[1..], b[1..])
  {
    hide Before;
    if Before(a, b) { BeforeDown(a, b); }
    if Before(a[1..], b[1..]) { BeforeUp(a, b); }
  }

  lemma BeforeDown(a: seq<Byte>, b: seq<Byte>)
    requires a != [] && b != [] && a[0] == b[0] && Before(a, b)
    ensures Before(a[1..], b[1..])
  {
    var p, q := a[1..], b[1..];
    if k :| 0 <= k < |a| && k < |b| && a[k] < b[k] && a[..k] == b[..k] {
      assert p[k - 1] < q[k - 1];
      assert p[..k - 1] == a[..k][1..] && q[..k - 1] == b[..k][1..];
    } else {
      assert p == a[1..] && q[..|p|] == b[..|a|][1..];
    }
  }

  lemma BeforeUp(a: seq<Byte>, b: seq<Byte>)
    requires a != [] && b != [] && a[0] == b[0] && Before(a[1..], b[1..])
    ensures Before(a, b)
  {
    var p, q := a[1..], b[1..];
    assert a == [a[0]] + p && b == [b[0]] + q;
    if k :| 0 <= k < |p| && k < |q| && p[k] < q[k] && p[..k] == q[..k] {
      assert a[k + 1] < b[k + 1] && a[..k + 1] == [a[0]] + p[..k] && b[..k + 1] == [b[0]] + q[..k];
    } else {
      assert b[..|a|] == [b[0]] + q[..|p|];
    }
  }

  function Insert(e: Entry, entries: seq<Entry>): (r: seq<Entry>)
    ensures |r| == |entries| + 1 && forall x :: x in r <==> x == e || x in entries
  {
    if entries == [] then [e]
    else if Less(entries[0].key, e.key) then
      var rest := Insert(e, entries[1..]);
      assert forall x :: x in [entries[0]] + rest <==> x == entries[0] || x in rest;
      assert forall x :: x in entries <==> x == entries[0] || x in entries[1..];
      [entries[0]] + rest
    else [e] + entries
  }

  /** The entries in the order of their keys. */
  function Sort(entries: seq<Entry>): (r: seq<Entry>)
    ensures |r| == |entries| && forall x :: x in r <==> x in entries
  {
    if entries == [] then []
    else
      assert forall x :: x in entries <==> x == entries[0] || x in entries[1..];
      Insert(entries[0], Sort(entries[1..]))
  }

  // ---------------------------------------------------------------- the encoder

  function EncodeBytes(b: seq<Byte>): seq<Byte> { Decimal(|b|) + [COLON] + b }

  /** The encoder as it is written: dictionary keys are sorted, then each is followed by its value. */
  function Encode(v: Value): seq<Byte>
    decreases v, 1
  {
    match v
    case Int(n) => [LETTER_I] + Decimal(n) + [LETTER_E]
    case Bytes(b) => EncodeBytes(b)
    case List(items) => [LETTER_L] + EncodeItems(v, items) + [LETTER_E]
    case Dict(entries) => [LETTER_D] + EncodeEntries(v, Sort(entries)) + [LETTER_E]
  }

  function EncodeItems(v: Value, items: seq<Value>): seq<Byte>
    requires forall x :: x in items ==> x < v
    decreases v, 0, |items|
  {
    if items == [] then [] else
      assert items[0] in items && forall x :: x in items[1..] ==> x in items;
      Encode(items[0]) + EncodeItems(v, items[1..])
  }

  function EncodeEntries(v: Value, entries: seq<Entry>): seq<Byte>
    requires forall x :: x in entries ==> x.value < v
    decreases v, 0, |entries|
  {
    if entries == [] then [] else
      assert entries[0] in entries;
      EncodeBytes(entries[0].key) + Encode(entries[0].value) + EncodeEntries(v, entries[1..])
  }

  // ---------------------------------------------------------------- canonical values

  /** The value with the entries of every dictionary in key order. */
  function Canon(v: Value): (c: Value)
    decreases v, 1
  {
    match v
    case Int(_) => v
    case Bytes(_) => v
    case List(items) => List(CanonItems(v, items))
    case Dict(entries) => Dict(CanonEntries(v, Sort(entries)))
  }

  function CanonItems(v: Value, items: seq<Value>): (c: seq<Value>)
    requires forall x :: x in items ==> x < v
    ensures |c| == |items|
    decreases v, 0, |items|
  {
    if items == [] then [] else
      assert items[0] in items && forall x :: x in items[1..] ==> x in items;
      [Canon(items[0])] + CanonItems(v, items[1..])
  }

  function CanonEntries(v: Value, entries: seq<Entry>): (c: seq<Entry>)
    requires forall x :: x in entries ==> x.value < v
    ensures |c| == |entries| && forall k :: 0 <= k < |c| ==> c[k].key == entries[k].key
    decreases v, 0, |entries|
  {
    if entries == [] then [] else
      assert entries[0] in entries;
      [Entry(entries[0].key, Canon(entries[0].value))] + CanonEntries(v, entries[1..])
  }

  /** Encoding without sorting: every value in the order it is written down. */
  function Flat(v: Value): (s: seq<Byte>)
    ensures s != [] && s[0] != LETTER_E
  {
    match v
    case Int(n) => [LETTER_I] + Decimal(n) + [LETTER_E]
    case Bytes(b) => EncodeBytes(b)
    case List(items) => [LETTER_L] + FlatItems(items) + [LETTER_E]
    case Dict(entries) => [LETTER_D] + FlatEntries(entries) + [LETTER_E]
  }

  function FlatItems(items: seq<Value>): seq<Byte> {
    if items == [] then [] else Flat(items[0]) + FlatItems(items[1..])
  }

  function FlatEntries(entries: seq<Entry>): seq<Byte> {
    if entries == [] then [] else EncodeBytes(entries[0].key) + Flat(entries[0].value) + FlatEntries(entries[1..])
  }

  /** Sorting while encoding is encoding the sorted value. */
  lemma {:induction false} EncodeCanon(v: Value)
    ensures Encode(v) == Flat(Canon(v))
    decreases v, 1
  {
    match v {
      case Int(_) =>
      case Bytes(_) =>
      case List(items) => EncodeCanonItems(v, items);
      case Dict(entries) => EncodeCanonEntries(v, Sort(entries));
    }
  }

  lemma {:induction false} EncodeCanonItems(v: Value, items: seq<Value>)
    requires forall x :: x in items ==> x < v
    ensures EncodeItems(v, items) == FlatItems(CanonItems(v, items))
    decreases v, 0, |items|
  {
    if items != [] {
      assert items[0] in items && forall x :: x in items[1..] ==> x in items;
      EncodeCanon(items[0]);
      EncodeCanonItems(v, items[1..]);
      assert CanonItems(v, items)[1..] == CanonItems(v, items[1..]);
    }
  }

  lemma {:induction false} EncodeCanonEntries(v: Value, entries: seq<Entry>)
    requires forall x :: x in entries ==> x.value < v
    ensures EncodeEntries(v, entries) == FlatEntries(CanonEntries(v, entries))
    decreases v, 0, |entries|
  {
    if entries != [] {
      assert entries[0] in entries;
      EncodeCanon(entries[0].value);
      EncodeCanonEntries(v, entries[1..]);
      assert CanonEntries(v, entries)[1..] == CanonEntries(v, entries[1..]);
    }
  }

  // ---------------------------------------------------------------- unique decodability

  lemma BytesUnique(a: seq<Byte>, b: seq<Byte>, s: seq<Byte>, t: seq<Byte>)
    requires EncodeBytes(a) + s == EncodeBytes(b) + t
    ensures a == b && s == t
  {
    assert EncodeBytes(a) + s == Decimal(|a|) + [COLON] + (a + s);
    assert EncodeBytes(b) + t == Decimal(|b|) + [COLON] + (b + t);
    RunUnique(Decimal(|a|), Decimal(|b|), COLON, a + s, b + t);
    DecimalInjective(|a|, |b|);
    assert (a + s)[..|a|] == a && (b + t)[..|b|] == b && (a + s)[|a|..] == s && (b + t)[|b|..] == t;
  }

  lemma KindUnique(a: Value, b: Value, s: seq<Byte>, t: seq<Byte>)
    requires Flat(a) + s == Flat(b) + t
    ensures (a.Int? <==> b.Int?) && (a.Bytes? <==> b.Bytes?) && (a.List? <==> b.List?)
  {
    hide Flat;
    assert (Flat(a) + s)[0] == Flat(a)[0] && (Flat(b) + t)[0] == Flat(b)[0];
    FirstByte(a);
    FirstByte(b);
  }

  lemma FirstByte(v: Value)
    ensures match v
            case Int(_) => Flat(v)[0] == LETTER_I
            case Bytes(_) => Digit(Flat(v)[0])
            case List(_) => Flat(v)[0] == LETTER_L
            case Dict(_) => Flat(v)[0] == LETTER_D
  {
  }

  lemma RestUnique(c: Byte, u: seq<Byte>, v: seq<Byte>)
    requires [c] + u == [c] + v
    ensures u == v
  {
    assert ([c] + u)[1..] == u && ([c] + v)[1..] == v;
  }

  lemma InsideUnique(c: Byte, x: seq<Byte>, y: seq<Byte>, s: seq<Byte>, t: seq<Byte>)
    requires [c] + x + [LETTER_E] + s == [c] + y + [LETTER_E] + t
    ensures x + [LETTER_E] + s == y + [LETTER_E] + t
  {
    assert [c] + x + [LETTER_E] + s == [c] + (x + [LETTER_E] + s);
    assert [c] + y + [LETTER_E] + t == [c] + (y + [LETTER_E] + t);
    RestUnique(c, x + [LETTER_E] + s, y + [LETTER_E] + t);
  }

  lemma IntUnique(m: int, n: int, s: seq<Byte>, t: seq<Byte>)
    requires Decimal(m) + [LETTER_E] + s == Decimal(n) + [LETTER_E] + t
    ensures m == n && s == t
  {
    RunUnique(Decimal(m), Decimal(n), LETTER_E, s, t);
    DecimalInjective(m, n);
  }

  /** Equal concatenations of an encoding and a suffix come from equal values and equal suffixes. */
  lemma {:induction false} FlatUnique(a: Value, b: Value, s: seq<Byte>, t: seq<Byte>)
    requires Flat(a) + s == Flat(b) + t
    ensures a == b && s == t
    decreases a, 1
  {
    KindUnique(a, b, s, t);
    hide Decimal, FlatItems, FlatEntries, EncodeBytes;
    match a {
      case Int(n) =>
        InsideUnique(LETTER_I, Decimal(n), Decimal(b.n), s, t);
        IntUnique(n, b.n, s, t);
      case Bytes(x) =>
        BytesUnique(x, b.b, s, t);
      case List(items) =>
        InsideUnique(LETTER_L, FlatItems(items), FlatItems(b.items), s, t);
        FlatItemsUnique(a, items, b.items, s, t);
      case Dict(entries) =>
        InsideUnique(LETTER_D, FlatEntries(entries), FlatEntries(b.entries), s, t);
        FlatEntriesUnique(a, entries, b.entries, s, t);
    }
  }

  lemma {:induction false} FlatItemsUnique(v: Value, xs: seq<Value>, ys: seq<Value>, s: seq<Byte>, t: seq<Byte>)
    requires FlatItems(xs) + [LETTER_E] + s == FlatItems(ys) + [LETTER_E] + t
    requires forall x :: x in xs ==> x < v
    ensures xs == ys && s == t
    decreases v, 0, |xs|
  {
    ItemsStart(xs, s);
    ItemsStart(ys, t);
    hide Flat, FlatItems;
    if xs == [] {
      RestUnique(LETTER_E, s, t);
    } else {
      var xTail, yTail := FlatItems(xs[1..]) + [LETTER_E] + s, FlatItems(ys[1..]) + [LETTER_E] + t;
      assert xs[0] in xs && forall x :: x in xs[1..] ==> x in xs;
      FlatUnique(xs[0], ys[0], xTail, yTail);
      FlatItemsUnique(v, xs[1..], ys[1..], s, t);
      assert xs == [xs[0]] + xs[1..] && ys == [ys[0]] + ys[1..];
    }
  }

  lemma ItemsStart(xs: seq<Value>, s: seq<Byte>)
    ensures (FlatItems(xs) + [LETTER_E] + s)[0] == LETTER_E <==> xs == []
    ensures xs == [] ==> FlatItems(xs) + [LETTER_E] + s == [LETTER_E] + s
    ensures xs != [] ==> FlatItems(xs) + [LETTER_E] + s == Flat(xs[0]) + (FlatItems(xs[1..]) + [LETTER_E] + s)
  {
    hide Flat;
    if xs == [] {
      assert FlatItems(xs) + [LETTER_E] == [LETTER_E];
    } else {
      Regroup(Flat(xs[0]), [], FlatItems(xs[1..]), [LETTER_E], s);
    }
  }

  lemma {:induction false} FlatEntriesUnique(v: Value, xs: seq<Entry>, ys: seq<Entry>, s: seq<Byte>, t: seq<Byte>)
    requires FlatEntries(xs) + [LETTER_E] + s == FlatEntries(ys) + [LETTER_E] + t
    requires forall x :: x in xs ==> x.value < v
    ensures xs == ys && s == t
    decreases v, 0, |xs|
  {
    EntriesStart(xs, s);
    EntriesStart(ys, t);
    hide Flat, FlatEntries, EncodeBytes;
    if xs == [] {
      RestUnique(LETTER_E, s, t);
    } else {
      var xTail, yTail := FlatEntries(xs[1..]) + [LETTER_E] + s, FlatEntries(ys[1..]) + [LETTER_E] + t;
      assert xs[0] in xs && forall x :: x in xs[1..] ==> x in xs;
      BytesUnique(xs[0].key, ys[0].key, Flat(xs[0].value) + xTail, Flat(ys[0].value) + yTail);
      FlatUnique(xs[0].value, ys[0].value, xTail, yTail);
      FlatEntriesUnique(v, xs[1..], ys[1..], s, t);
      assert xs == [xs[0]] + xs[1..] && ys == [ys[0]] + ys[1..];
    }
  }

  lemma EntriesStart(xs: seq<Entry>, s: seq<Byte>)
    ensures (FlatEntries(xs) + [LETTER_E] + s)[0] == LETTER_E <==> xs == []
    ensures xs == [] ==> FlatEntries(xs) + [LETTER_E] + s == [LETTER_E] + s
    ensures xs != [] ==>
              FlatEntries(xs) + [LETTER_E] + s ==
              EncodeBytes(xs[0].key) + (Flat(xs[0].value) + (FlatEntries(xs[1..]) + [LETTER_E] + s))
  {
    hide Flat, EncodeBytes;
    if xs == [] {
      assert FlatEntries(xs) + [LETTER_E] == [LETTER_E];
    } else {
      BytesStart(xs[0].key);
      Regroup(EncodeBytes(xs[0].key), Flat(xs[0].value), FlatEntries(xs[1..]), [LETTER_E], s);
    }
  }

  lemma Regroup(x: seq<Byte>, f: seq<Byte>, r: seq<Byte>, e: seq<Byte>, s: seq<Byte>)
    ensures (x + f + r) + e + s == x + (f + (r + e + s))
    ensures x != [] ==> ((x + f + r) + e + s)[0] == x[0]
  {
  }

  lemma BytesStart(b: seq<Byte>)
    ensures EncodeBytes(b) != [] && EncodeBytes(b)[0] != LETTER_E
  {
  }

  // ---------------------------------------------------------------- equality of values

  /** Equality as the encoder's language has it: dictionaries compare by key, not by insertion. */
  ghost predicate Same(a: Value, b: Value)
    decreases a, 1
  {
    match a
    case Int(_) => a == b
    case Bytes(_) => a == b
    case List(items) => b.List? && |items| == |b.items| && forall k :: 0 <= k < |items| ==> Same(items[k], b.items[k])
    case Dict(entries) => b.Dict? && SameEntries(a, entries, b.entries)
  }

  /** Entry by entry, the two dictionaries hold the same values. */
  ghost predicate SameEntries(v: Value, es: seq<Entry>, fs: seq<Entry>)
    requires forall e :: e in es ==> e.value < v
    decreases v, 0
  {
    && (forall f :: f in fs ==> HasKey(es, f.key))
    && (forall e :: e in es ==> exists f :: f in fs && e.key == f.key && Same(e.value, f.value))
  }

  /** Unique decodability, for any two values: equality up to the order of dictionary entries. */
  lemma Decodable(a: Value, b: Value, s: seq<Byte>, t: seq<Byte>)
    requires Encode(a) + s == Encode(b) + t
    ensures Canon(a) == Canon(b) && s == t
  {
    EncodeCanon(a);
    EncodeCanon(b);
    FlatUnique(Canon(a), Canon(b), s, t);
  }

  lemma {:induction false} CanonItemsAt(v: Value, items: seq<Value>, k: nat)
    requires (forall x :: x in items ==> x < v) && k < |items|
    ensures CanonItems(v, items)[k] == Canon(items[k])
    decreases |items|
  {
    assert items[0] in items && forall x :: x in items[1..] ==> x in items;
    if k > 0 { CanonItemsAt(v, items[1..], k - 1); }
  }

  lemma {:induction false} CanonEntriesAt(v: Value, entries: seq<Entry>, k: nat)
    requires (forall x :: x in entries ==> x.value < v) && k < |entries|
    ensures CanonEntries(v, entries)[k] == Entry(entries[k].key, Canon(entries[k].value))
    decreases |entries|
  {
    assert entries[0] in entries && forall x :: x in entries[1..] ==> x in entries;
    if k > 0 { CanonEntriesAt(v, entries[1..], k - 1); }
  }

  ghost predicate StrictKeys(entries: seq<Entry>) {
    forall i, j :: 0 <= i < j < |entries| ==> Less(entries[i].key, entries[j].key)
  }

  ghost predicate DistinctKeys(entries: seq<Entry>) {
    forall i, j :: 0 <= i < j < |entries| ==> entries[i].key != entries[j].key
  }

  lemma {:induction false} SortStrict(entries: seq<Entry>)
    requires DistinctKeys(entries)
    ensures StrictKeys(Sort(entries))
  {
    if entries != [] {
      SortStrict(entries[1..]);
      var rest := Sort(entries[1..]);
      forall x | x in rest ensures x.key != entries[0].key {
        assert x in entries[1..];
        var k :| 0 <= k < |entries| - 1 && entries[1..][k] == x;
        assert entries[0].key != entries[k + 1].key;
      }
      InsertStrict(entries[0], rest);
    }
  }

  lemma {:induction false} InsertStrict(e: Entry, entries: seq<Entry>)
    requires StrictKeys(entries) && forall x :: x in entries ==> x.key != e.key
    ensures StrictKeys(Insert(e, entries))
  {
    if entries != [] {
      assert entries[0] in entries && forall x :: x in entries[1..] ==> x in entries;
      LessTotal(entries[0].key, e.key);
      if Less(entries[0].key, e.key) {
        var rest := Insert(e, entries[1..]);
        InsertStrict(e, entries[1..]);
        forall j | 0 <= j < |rest| ensures Less(entries[0].key, rest[j].key) {
          assert rest[j] in rest;
          if rest[j] != e {
            var k :| 0 <= k < |entries| - 1 && entries[1..][k] == rest[j];
            assert Less(entries[0].key, entries[k + 1].key);
          }
        }
      } else {
        forall j | 0 <= j < |entries| ensures Less(e.key, entries[j].key) {
          if 0 < j { LessTrans(e.key, entries[0].key, entries[j].key); }
        }
      }
    }
  }

  /** Strictly sorted key sequences over the same keys are equal. */
  lemma {:induction false} SameKeys(xs: seq<Entry>, ys: seq<Entry>)
    requires StrictKeys(xs) && StrictKeys(ys)
    requires (forall x :: x in xs ==> HasKey(ys, x.key)) && forall y :: y in ys ==> HasKey(xs, y.key)
    ensures |xs| == |ys| && forall k :: 0 <= k < |xs| ==> xs[k].key == ys[k].key
    decreases |xs|
  {
    if xs != [] && ys != [] {
      assert xs[0] in xs && ys[0] in ys;
      FirstKey(xs, ys);
      TailKeys(xs, ys);
      TailKeys(ys, xs);
      SameKeys(xs[1..], ys[1..]);
      forall k | 0 <= k < |xs| ensures xs[k].key == ys[k].key {
        assert 0 < k ==> xs[1..][k - 1] == xs[k] && ys[1..][k - 1] == ys[k];
      }
    } else {
      NoKeys(xs, ys);
      NoKeys(ys, xs);
    }
  }

  lemma NoKeys(xs: seq<Entry>, ys: seq<Entry>)
    requires forall y :: y in ys ==> HasKey(xs, y.key)
    ensures xs == [] ==> ys == []
  {
    if ys != [] {
      assert ys[0] in ys;
      var k :| 0 <= k < |xs| && xs[k].key == ys[0].key;
    }
  }

  ghost predicate HasKey(entries: seq<Entry>, key: seq<Byte>) {
    exists k :: 0 <= k < |entries| && entries[k].key == key
  }

  lemma FirstKey(xs: seq<Entry>, ys: seq<Entry>)
    requires StrictKeys(xs) && StrictKeys(ys) && xs != [] && ys != []
    requires HasKey(ys, xs[0].key) && HasKey(xs, ys[0].key)
    ensures xs[0].key == ys[0].key
  {
    var i :| 0 <= i < |ys| && ys[i].key == xs[0].key;
    var j :| 0 <= j < |xs| && xs[j].key == ys[0].key;
    LessTotal(xs[0].key, ys[0].key);
    NotBelowFirst(xs, j);
    NotBelowFirst(ys, i);
  }

  lemma NotBelowFirst(xs: seq<Entry>, k: nat)
    requires StrictKeys(xs) && k < |xs|
    ensures xs[k].key == xs[0].key || Less(xs[0].key, xs[k].key)
  {
  }

  lemma TailKeys(xs: seq<Entry>, ys: seq<Entry>)
    requires StrictKeys(xs) && StrictKeys(ys) && xs != [] && ys != [] && xs[0].key == ys[0].key
    requires forall x :: x in xs ==> HasKey(ys, x.key)
    ensures forall x :: x in xs[1..] ==> HasKey(ys[1..], x.key)
    ensures StrictKeys(xs[1..])
  {
    forall x | x in xs[1..] ensures HasKey(ys[1..], x.key) {
      var k :| 0 <= k < |xs| - 1 && xs[1..][k] == x;
      assert xs[k + 1] in xs;
      var n :| 0 <= n < |ys| && ys[n].key == x.key;
      LessTotal(xs[0].key, xs[k + 1].key);
      assert Less(xs[0].key, xs[k + 1].key);
      assert n > 0;
      assert ys[1..][n - 1].key == x.key;
    }
  }

  // ---------------------------------------------------------------- equal values, equal encodings

  lemma EntryOfKey(entries: seq<Entry>, e: Entry, f: Entry)
    requires DistinctKeys(entries) && e in entries && f in entries && e.key == f.key
    ensures e == f
  {
    var i :| 0 <= i < |entries| && entries[i] == e;
    var j :| 0 <= j < |entries| && entries[j] == f;
  }

  /** The canonical entries agree position by position. */
  ghost predicate Aligned(xs: seq<Entry>, ys: seq<Entry>) {
    |xs| == |ys| && forall k :: 0 <= k < |xs| ==> xs[k].key == ys[k].key && Canon(xs[k].value) == Canon(ys[k].value)
  }

  lemma AlignedCanon(a: Value, b: Value, xs: seq<Entry>, ys: seq<Entry>)
    requires (forall x :: x in xs ==> x.value < a) && forall y :: y in ys ==> y.value < b
    ensures CanonEntries(a, xs) == CanonEntries(b, ys) <==> Aligned(xs, ys)
  {
    hide CanonEntries, Canon;
    forall k | 0 <= k < |xs| ensures CanonEntries(a, xs)[k] == Entry(xs[k].key, Canon(xs[k].value)) { CanonEntriesAt(a, xs, k); }
    forall k | 0 <= k < |ys| ensures CanonEntries(b, ys)[k] == Entry(ys[k].key, Canon(ys[k].value)) { CanonEntriesAt(b, ys, k); }
    if CanonEntries(a, xs) == CanonEntries(b, ys) {
      forall k | 0 <= k < |xs| ensures xs[k].key == ys[k].key && Canon(xs[k].value) == Canon(ys[k].value) {
        assert CanonEntries(a, xs)[k] == CanonEntries(b, ys)[k];
      }
    }
  }

  /** For the values of these entries, sameness is equality of canonical forms. */
  ghost predicate Corresponds(es: seq<Entry>, fs: seq<Entry>) {
    forall x, y :: x in es && y in fs ==> (Same(x.value, y.value) <==> Canon(x.value) == Canon(y.value))
  }

  lemma CorrespondsAt(es: seq<Entry>, fs: seq<Entry>, x: Entry, y: Entry)
    requires Corresponds(es, fs) && x in es && y in fs
    ensures Same(x.value, y.value) <==> Canon(x.value) == Canon(y.value)
  {
    hide Same, Canon;
  }

  lemma KeyIn(es: seq<Entry>, e: Entry)
    requires e in es
    ensures HasKey(es, e.key)
  {
  }

  lemma SameEntriesAt(v: Value, es: seq<Entry>, fs: seq<Entry>, x: Entry) returns (f: Entry)
    requires (forall e :: e in es ==> e.value < v) && SameEntries(v, es, fs) && x in es
    ensures f in fs && x.key == f.key && Same(x.value, f.value)
  {
    f :| f in fs && x.key == f.key && Same(x.value, f.value);
  }

  lemma SameEntriesBack(v: Value, es: seq<Entry>, fs: seq<Entry>, f: Entry) returns (e: Entry)
    requires (forall e :: e in es ==> e.value < v) && SameEntries(v, es, fs) && f in fs
    ensures e in es && e.key == f.key
  {
    hide Same;
    var k :| 0 <= k < |es| && es[k].key == f.key;
    e := es[k];
  }

  lemma SameToAligned(v: Value, es: seq<Entry>, fs: seq<Entry>)
    requires (forall e :: e in es ==> e.value < v) && SameEntries(v, es, fs)
    requires DistinctKeys(es) && DistinctKeys(fs) && Corresponds(es, fs)
    ensures Aligned(Sort(es), Sort(fs))
  {
    var xs, ys := Sort(es), Sort(fs);
    SortStrict(es);
    SortStrict(fs);
    hide Sort, Same, Canon, SameEntries, Corresponds, DistinctKeys, StrictKeys, HasKey;
    forall x | x in xs ensures HasKey(ys, x.key) {
      var f := SameEntriesAt(v, es, fs, x);
      KeyIn(ys, f);
    }
    forall y | y in ys ensures HasKey(xs, y.key) {
      var e := SameEntriesBack(v, es, fs, y);
      KeyIn(xs, e);
    }
    SameKeys(xs, ys);
    forall k | 0 <= k < |xs| ensures Canon(xs[k].value) == Canon(ys[k].value) {
      assert xs[k] in xs && ys[k] in ys;
      var f := SameEntriesAt(v, es, fs, xs[k]);
      EntryOfKey(fs, f, ys[k]);
      CorrespondsAt(es, fs, xs[k], ys[k]);
    }
  }

  lemma AlignedAt(xs: seq<Entry>, ys: seq<Entry>, x: Entry) returns (y: Entry)
    requires Aligned(xs, ys) && x in xs
    ensures y in ys && y.key == x.key && Canon(x.value) == Canon(y.value)
  {
    hide Canon;
    var k :| 0 <= k < |xs| && xs[k] == x;
    y := ys[k];
  }

  lemma AlignedBack(xs: seq<Entry>, ys: seq<Entry>, y: Entry) returns (x: Entry)
    requires Aligned(xs, ys) && y in ys
    ensures x in xs && x.key == y.key
  {
    hide Canon;
    var k :| 0 <= k < |ys| && ys[k] == y;
    x := xs[k];
  }

  lemma AlignedToSame(v: Value, es: seq<Entry>, fs: seq<Entry>)
    requires (forall e :: e in es ==> e.value < v)
    requires Aligned(Sort(es), Sort(fs)) && Corresponds(es, fs)
    ensures SameEntries(v, es, fs)
  {
    var xs, ys := Sort(es), Sort(fs);
    hide Sort, Canon, Aligned, Corresponds;
    forall f | f in fs ensures HasKey(es, f.key) {
      var x := AlignedBack(xs, ys, f);
      KeyIn(es, x);
    }
    forall e | e in es ensures exists f :: f in fs && e.key == f.key && Same(e.value, f.value) {
      var y := AlignedAt(xs, ys, e);
      CorrespondsAt(es, fs, e, y);
    }
  }

  /** Values are the same exactly when their canonical forms are. */
  lemma {:induction false} SameCanon(a: Value, b: Value)
    requires Valid(a) && Valid(b)
    ensures Same(a, b) <==> Canon(a) == Canon(b)
    decreases a
  {
    if a.List? && b.List? {
      forall k | 0 <= k < |a.items| ensures CanonItems(a, a.items)[k] == Canon(a.items[k]) { CanonItemsAt(a, a.items, k); }
      forall k | 0 <= k < |b.items| ensures CanonItems(b, b.items)[k] == Canon(b.items[k]) { CanonItemsAt(b, b.items, k); }
      forall k | 0 <= k < |a.items| && k < |b.items| ensures Same(a.items[k], b.items[k]) <==> Canon(a.items[k]) == Canon(b.items[k]) {
        SameCanon(a.items[k], b.items[k]);
      }
      SameLists(a, b);
    } else if a.Dict? && b.Dict? {
      forall x, y | x in a.entries && y in b.entries ensures Same(x.value, y.value) <==> Canon(x.value) == Canon(y.value) {
        var i :| 0 <= i < |a.entries| && a.entries[i] == x;
        var j :| 0 <= j < |b.entries| && b.entries[j] == y;
        SameCanon(x.value, y.value);
      }
      hide Same, Canon;
      SameDicts(a, b);
    }
  }

  lemma SameLists(a: Value, b: Value)
    requires a.List? && b.List?
    requires forall k :: 0 <= k < |a.items| ==> CanonItems(a, a.items)[k] == Canon(a.items[k])
    requires forall k :: 0 <= k < |b.items| ==> CanonItems(b, b.items)[k] == Canon(b.items[k])
    requires forall k :: 0 <= k < |a.items| && k < |b.items| ==> (Same(a.items[k], b.items[k]) <==> Canon(a.items[k]) == Canon(b.items[k]))
    ensures Same(a, b) <==> Canon(a) == Canon(b)
  {
    var x, y := CanonItems(a, a.items), CanonItems(b, b.items);
    assert Canon(a) == Canon(b) <==> x == y;
    if Same(a, b) {
      assert |x| == |y| && forall k :: 0 <= k < |x| ==> x[k] == y[k];
    }
    if x == y {
      assert |a.items| == |b.items|;
      forall k | 0 <= k < |a.items| ensures Same(a.items[k], b.items[k]) {
        assert x[k] == y[k];
      }
    }
  }

  lemma UnfoldDicts(a: Value, b: Value)
    requires a.Dict? && b.Dict?
    ensures (forall x :: x in a.entries ==> x.value < a)
    ensures Same(a, b) <==> SameEntries(a, a.entries, b.entries)
    ensures (forall x :: x in Sort(a.entries) ==> x.value < a) && forall y :: y in Sort(b.entries) ==> y.value < b
    ensures Canon(a) == Canon(b) <==> CanonEntries(a, Sort(a.entries)) == CanonEntries(b, Sort(b.entries))
  {
    hide Sort, CanonEntries, SameEntries;
  }

  lemma SameDicts(a: Value, b: Value)
    requires a.Dict? && b.Dict? && DistinctKeys(a.entries) && DistinctKeys(b.entries) && Corresponds(a.entries, b.entries)
    ensures Same(a, b) <==> Canon(a) == Canon(b)
  {
    UnfoldDicts(a, b);
    hide Same, Canon, CanonEntries, SameEntries, Sort, Aligned, Corresponds;
    AlignedCanon(a, b, Sort(a.entries), Sort(b.entries));
    if SameEntries(a, a.entries, b.entries) { SameToAligned(a, a.entries, b.entries); }
    if Aligned(Sort(a.entries), Sort(b.entries)) { AlignedToSame(a, a.entries, b.entries); }
  }

  /**
    The encoding is unique and depends on nothing but the value: two encodings are equal exactly
    when the values are the same, whatever the insertion order of their dictionaries.
   */
  lemma EncodingUnique(a: Value, b: Value, s: seq<Byte>, t: seq<Byte>)
    requires Valid(a) && Valid(b)
    ensures Encode(a) + s == Encode(b) + t <==> Same(a, b) && s == t
  {
    SameCanon(a, b);
    EncodeCanon(a);
    EncodeCanon(b);
    if Encode(a) + s == Encode(b) + t { Decodable(a, b, s, t); }
  }

  // ---------------------------------------------------------------- what the encoding looks like

  /** Dictionaries are written with their keys in ascending raw byte order, each once. */
  lemma KeysAscend(v: Value)
    requires Valid(v) && v.Dict?
    ensures var entries := Canon(v).entries;
            && |entries| == |v.entries|
            && (forall i, j :: 0 <= i < j < |entries| ==> Before(entries[i].key, entries[j].key))
            && forall key :: HasKey(entries, key) <==> HasKey(v.entries, key)
  {
    hide Canon, CanonEntries, Sort, Before, Less;
    SortStrict(v.entries);
    CanonDict(v);
    var sorted, entries := Sort(v.entries), Canon(v).entries;
    forall i, j | 0 <= i < j < |entries| ensures Before(entries[i].key, entries[j].key) {
      LessIsBefore(sorted[i].key, sorted[j].key);
    }
    forall key ensures HasKey(entries, key) <==> HasKey(v.entries, key) {
      if HasKey(entries, key) {
        var k :| 0 <= k < |entries| && entries[k].key == key;
        assert sorted[k] in sorted && sorted[k] in v.entries;
      }
      if HasKey(v.entries, key) {
        var k :| 0 <= k < |v.entries| && v.entries[k].key == key;
        assert v.entries[k] in sorted;
        var n :| 0 <= n < |sorted| && sorted[n] == v.entries[k];
        assert entries[n].key == key;
      }
    }
  }

  lemma CanonDict(v: Value)
    requires v.Dict?
    ensures Canon(v).Dict? && |Canon(v).entries| == |Sort(v.entries)| == |v.entries|
    ensures forall k :: 0 <= k < |v.entries| ==> Canon(v).entries[k].key == Sort(v.entries)[k].key
  {
    hide Sort, CanonEntries;
  }

  function Ascii(s: string): (b: seq<Byte>)
    requires forall k :: 0 <= k < |s| ==> s[k] as int < 0x80
    ensures |b| == |s| && forall k :: 0 <= k < |s| ==> b[k] == s[k] as int
  {
    seq(|s|, k requires 0 <= k < |s| => s[k] as int)
  }

  /** The examples of BEP 3. */
  lemma Examples()
    ensures Encode(Int(3)) == Ascii("i3e") && Encode(Int(-3)) == Ascii("i-3e") && Encode(Int(0)) == Ascii("i0e")
    ensures Encode(Bytes(Ascii("spam"))) == Ascii("4:spam")
    ensures Encode(List([Bytes(Ascii("spam")), Bytes(Ascii("eggs"))])) == Ascii("l4:spam4:eggse")
    ensures Encode(Dict([Entry(Ascii("spam"), Bytes(Ascii("eggs"))), Entry(Ascii("cow"), Bytes(Ascii("moo")))])) == Ascii("d3:cow3:moo4:spam4:eggse")
  {
    hide Encode, Ascii, EncodeBytes;
    NumberExamples();
    TextExamples();
    EncodeText(Ascii("spam"));
    EncodeText(Ascii("eggs"));
    EncodeText(Ascii("moo"));
    CowBeforeSpam();
    ListExample(Bytes(Ascii("spam")), Bytes(Ascii("eggs")));
    DictExample(Entry(Ascii("spam"), Bytes(Ascii("eggs"))), Entry(Ascii("cow"), Bytes(Ascii("moo"))));
    Spellings();
  }

  lemma EncodeText(b: seq<Byte>)
    ensures Encode(Bytes(b)) == EncodeBytes(b)
  {
  }

  lemma CowBeforeSpam()
    ensures Less(Ascii("cow"), Ascii("spam"))
  {
  }

  lemma Spellings()
    ensures [LETTER_L] + Ascii("4:spam") + Ascii("4:eggs") + [LETTER_E] == Ascii("l4:spam4:eggse")
    ensures [LETTER_D] + Ascii("3:cow") + Ascii("3:moo") + Ascii("4:spam") + Ascii("4:eggs") + [LETTER_E] == Ascii("d3:cow3:moo4:spam4:eggse")
  {
  }

  lemma NumberExamples()
    ensures Encode(Int(3)) == Ascii("i3e") && Encode(Int(-3)) == Ascii("i-3e") && Encode(Int(0)) == Ascii("i0e")
  {
  }

  lemma TextExamples()
    ensures EncodeBytes(Ascii("spam")) == Ascii("4:spam") && EncodeBytes(Ascii("eggs")) == Ascii("4:eggs")
    ensures EncodeBytes(Ascii("cow")) == Ascii("3:cow") && EncodeBytes(Ascii("moo")) == Ascii("3:moo")
  {
  }

  lemma ListExample(a: Value, b: Value)
    ensures Encode(List([a, b])) == [LETTER_L] + Encode(a) + Encode(b) + [LETTER_E]
  {
    var v := List([a, b]);
    assert [a, b][1..] == [b] && [b][1..] == [];
    assert EncodeItems(v, [b]) == Encode(b);
    assert EncodeItems(v, [a, b]) == Encode(a) + Encode(b);
  }

  lemma SortTwo(e: Entry, f: Entry)
    requires Less(f.key, e.key)
    ensures Sort([e, f]) == [f, e]
  {
    hide Less;
    assert [e, f][1..] == [f] && [f][1..] == [];
    assert Sort([f]) == [f] by { assert Sort([]) == []; }
    assert Insert(e, [f]) == [f] + Insert(e, []) == [f, e];
  }

  lemma EntriesTwo(v: Value, f: Entry, e: Entry)
    requires f.value < v && e.value < v
    ensures EncodeEntries(v, [f, e]) == EncodeBytes(f.key) + Encode(f.value) + (EncodeBytes(e.key) + Encode(e.value))
  {
    hide EncodeBytes;
    assert [f, e][1..] == [e] && [e][1..] == [];
    assert EncodeEntries(v, [e]) == EncodeBytes(e.key) + Encode(e.value);
  }

  lemma DictExample(e: Entry, f: Entry)
    requires Less(f.key, e.key)
    ensures Encode(Dict([e, f])) ==
              [LETTER_D] + EncodeBytes(f.key) + Encode(f.value) + EncodeBytes(e.key) + Encode(e.value) + [LETTER_E]
  {
    hide Sort, EncodeEntries, EncodeBytes, Less;
    var v := Dict([e, f]);
    assert v.entries[0] == e && v.entries[1] == f;
    SortTwo(e, f);
    EntriesTwo(v, f, e);
  }
}
