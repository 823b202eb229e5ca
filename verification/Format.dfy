/**
  The canonical record codec and the duplicate-key walker (internal/bonusexchange/format.go).

  JSON values are seen through the token stream of a JSON decoder: braces, brackets and scalars;
  commas and colons never reach the walker.  How tokens are spelled in bytes is a parameter of the
  codec (`Lexer`); what the tokens of a record are is not (Wire).
 */
module Format {
  import opened Basics

  datatype Token = OpenObject | CloseObject | OpenArray | CloseArray
    | Text(text: string) | Number(number: int) | Flag(flag: bool) | Null | Other(spelling: string)   // other numbers

  datatype Json = Scalar(token: Token) | Array(items: seq<Json>) | Object(members: seq<Member>)

  datatype Member = Member(key: string, value: Json)

  predicate IsScalar(t: Token) { t.Text? || t.Number? || t.Flag? || t.Null? || t.Other? }

  /** Scalars are never brackets. */
  predicate WellFormed(v: Json) {
    match v
    case Scalar(t) => IsScalar(t)
    case Array(items) => forall i :: 0 <= i < |items| ==> WellFormed(items[i])
    case Object(members) => forall i :: 0 <= i < |members| ==> WellFormed(members[i].value)
  }

  // ---------------------------------------------------------------- token streams

  function Flatten(v: Json): (tokens: seq<Token>)
    ensures tokens != []
  {
    match v
    case Scalar(t) => [t]
    case Array(items) => [OpenArray] + FlattenItems(items) + [CloseArray]
    case Object(members) => [OpenObject] + FlattenMembers(members) + [CloseObject]
  }

  function FlattenItems(items: seq<Json>): seq<Token> {
    if items == [] then [] else Flatten(items[0]) + FlattenItems(items[1..])
  }

  function FlattenMembers(members: seq<Member>): seq<Token> {
    if members == [] then [] else [Text(members[0].key)] + Flatten(members[0].value) + FlattenMembers(members[1..])
  }

  /** No object at any depth repeats a key. */
  predicate NoDuplicates(v: Json) {
    match v
    case Scalar(_) => true
    case Array(items) => forall i :: 0 <= i < |items| ==> NoDuplicates(items[i])
    case Object(members) =>
      && (forall i, j :: 0 <= i < j < |members| ==> members[i].key != members[j].key)
      && (forall i :: 0 <= i < |members| ==> NoDuplicates(members[i].value))
  }

  // ---------------------------------------------------------------- the walker, as a function

  /** The rest of the stream after one value without duplicate keys. */
  function Walk(tokens: seq<Token>): (rest: Option<seq<Token>>)
    ensures rest.Some? ==> |rest.value| < |tokens|
    decreases |tokens|, 1
  {
    if tokens == [] then None
    else match tokens[0]
      case OpenObject => WalkMembers(tokens[1..], {})
      case OpenArray => WalkItems(tokens[1..])
      case CloseObject => None
      case CloseArray => None
      case _ => Some(tokens[1..])
  }

  /** Members up to the closing brace; `seen` are the keys already met in this object. */
  function WalkMembers(tokens: seq<Token>, seen: set<string>): (rest: Option<seq<Token>>)
    ensures rest.Some? ==> |rest.value| < |tokens|
    decreases |tokens|, 0
  {
    if tokens == [] then None
    else match tokens[0]
      case CloseObject => Some(tokens[1..])
      case Text(key) =>
        if key in seen then None
        else
          var rest := Walk(tokens[1..]);
          if rest.None? then None else WalkMembers(rest.value, seen + {key})
      case _ => None
  }

  function WalkItems(tokens: seq<Token>): (rest: Option<seq<Token>>)
    ensures rest.Some? ==> |rest.value| < |tokens|
    decreases |tokens|, 2
  {
    if tokens == [] then None
    else if tokens[0] == CloseArray then Some(tokens[1..])
    else
      var rest := Walk(tokens);
      if rest.None? then None else WalkItems(rest.value)
  }

  // ---------------------------------------------------------------- exactly one value, no key twice

  /** Keys new to this object, each once, and values without duplicates. */
  predicate CleanMembers(members: seq<Member>, seen: set<string>) {
    && (forall i, j :: 0 <= i < j < |members| ==> members[i].key != members[j].key)
    && (forall i :: 0 <= i < |members| ==> members[i].key !in seen && NoDuplicates(members[i].value))
  }

  /** On the stream of a value the walker stops right behind it, exactly when no key repeats. */
  lemma {:induction false} WalkFlatten(v: Json, rest: seq<Token>)
    requires WellFormed(v)
    ensures Walk(Flatten(v) + rest) == if NoDuplicates(v) then Some(rest) else None
    decreases v, 1
  {
    match v {
      case Scalar(t) =>
        assert (Flatten(v) + rest)[1..] == rest;
      case Array(items) =>
        var body := FlattenItems(items) + [CloseArray] + rest;
        assert (Flatten(v) + rest)[1..] == body;
        WalkItemsFlatten(v, items, rest);
      case Object(members) =>
        var body := FlattenMembers(members) + [CloseObject] + rest;
        assert (Flatten(v) + rest)[1..] == body;
        WalkMembersFlatten(v, members, {}, rest);
    }
  }

  lemma {:induction false} WalkItemsFlatten(v: Json, items: seq<Json>, rest: seq<Token>)
    requires forall i :: 0 <= i < |items| ==> items[i] < v && WellFormed(items[i])
    ensures WalkItems(FlattenItems(items) + [CloseArray] + rest) ==
              if forall i :: 0 <= i < |items| ==> NoDuplicates(items[i]) then Some(rest) else None
    decreases v, 0, |items|
  {
    var tokens := FlattenItems(items) + [CloseArray] + rest;
    if items == [] {
      assert tokens == [CloseArray] + rest;
    } else {
      var tail := FlattenItems(items[1..]) + [CloseArray] + rest;
      assert tokens == Flatten(items[0]) + tail;
      assert WellFormed(items[0]) && Flatten(items[0])[0] != CloseArray;
      WalkFlatten(items[0], tail);
      WalkItemsFlatten(v, items[1..], rest);
      assert (forall i :: 0 <= i < |items| ==> NoDuplicates(items[i])) <==>
             NoDuplicates(items[0]) && forall i :: 0 <= i < |items[1..]| ==> NoDuplicates(items[1..][i]);
    }
  }

  lemma {:induction false} WalkMembersFlatten(v: Json, members: seq<Member>, seen: set<string>, rest: seq<Token>)
    requires forall i :: 0 <= i < |members| ==> members[i].value < v && WellFormed(members[i].value)
    ensures WalkMembers(FlattenMembers(members) + [CloseObject] + rest, seen) == if CleanMembers(members, seen) then Some(rest) else None
    decreases v, 0, |members|
  {
    var tokens := FlattenMembers(members) + [CloseObject] + rest;
    if members == [] {
      assert tokens == [CloseObject] + rest;
    } else {
      var key, value := members[0].key, members[0].value;
      var tail := FlattenMembers(members[1..]) + [CloseObject] + rest;
      assert tokens == [Text(key)] + (Flatten(value) + tail);
      assert tokens[1..] == Flatten(value) + tail;
      WalkFlatten(value, tail);
      WalkMembersFlatten(v, members[1..], seen + {key}, rest);
      CleanFirst(members, seen);
    }
  }

  lemma CleanFirst(members: seq<Member>, seen: set<string>)
    requires members != []
    ensures CleanMembers(members, seen) <==>
              members[0].key !in seen && NoDuplicates(members[0].value) && CleanMembers(members[1..], seen + {members[0].key})
  {
    hide NoDuplicates;
    var rest := members[1..];
    if CleanMembers(rest, seen + {members[0].key}) && members[0].key !in seen && NoDuplicates(members[0].value) {
      forall i, j | 0 <= i < j < |members| ensures members[i].key != members[j].key {
        assert rest[j - 1] == members[j];
        assert 0 < i ==> rest[i - 1] == members[i];
      }
      forall i | 0 <= i < |members| ensures members[i].key !in seen && NoDuplicates(members[i].value) {
        assert 0 < i ==> rest[i - 1] == members[i];
      }
    }
  }

  /** Conversely, a successful walk has consumed exactly one value, and one without duplicates. */
  lemma {:induction false} WalkReads(tokens: seq<Token>) returns (v: Json)
    requires Walk(tokens).Some?
    ensures WellFormed(v) && NoDuplicates(v) && tokens == Flatten(v) + Walk(tokens).value
    decreases |tokens|, 1
  {
    match tokens[0] {
      case OpenArray =>
        var items := WalkItemsReads(tokens[1..]);
        v := Array(items);
      case OpenObject =>
        var members := WalkMembersReads(tokens[1..], {});
        v := Object(members);
      case Text(_) => v := Scalar(tokens[0]);
      case Number(_) => v := Scalar(tokens[0]);
      case Flag(_) => v := Scalar(tokens[0]);
      case Null => v := Scalar(tokens[0]);
      case Other(_) => v := Scalar(tokens[0]);
    }
  }

  lemma {:induction false} WalkItemsReads(tokens: seq<Token>) returns (items: seq<Json>)
    requires WalkItems(tokens).Some?
    ensures forall i :: 0 <= i < |items| ==> WellFormed(items[i]) && NoDuplicates(items[i])
    ensures tokens == FlattenItems(items) + [CloseArray] + WalkItems(tokens).value
    decreases |tokens|, 2
  {
    if tokens[0] == CloseArray {
      items := [];
    } else {
      var first := WalkReads(tokens);
      var others := WalkItemsReads(Walk(tokens).value);
      items := [first] + others;
      assert items[1..] == others;
    }
  }

  lemma {:induction false} WalkMembersReads(tokens: seq<Token>, seen: set<string>) returns (members: seq<Member>)
    requires WalkMembers(tokens, seen).Some?
    ensures CleanMembers(members, seen) && forall i :: 0 <= i < |members| ==> WellFormed(members[i].value)
    ensures tokens == FlattenMembers(members) + [CloseObject] + WalkMembers(tokens, seen).value
    decreases |tokens|, 0
  {
    if tokens[0] == CloseObject {
      members := [];
    } else {
      hide *;
      var key := tokens[0].text;
      var value := WalkReads(tokens[1..]);
      var rest := Walk(tokens[1..]).value;
      var others := WalkMembersReads(rest, seen + {key});
      members := [Member(key, value)] + others;
      assert WalkMembers(tokens, seen) == WalkMembers(rest, seen + {key});
      assert tokens == [Text(key)] + tokens[1..];
      FirstMember(Member(key, value), others, seen);
      Regroup([Text(key)], Flatten(value), FlattenMembers(others), [CloseObject], WalkMembers(tokens, seen).value);
    }
  }

  lemma FirstMember(m: Member, others: seq<Member>, seen: set<string>)
    requires WellFormed(m.value) && NoDuplicates(m.value) && m.key !in seen && CleanMembers(others, seen + {m.key})
    requires forall i :: 0 <= i < |others| ==> WellFormed(others[i].value)
    ensures CleanMembers([m] + others, seen)
    ensures forall i :: 0 <= i < |[m] + others| ==> WellFormed(([m] + others)[i].value)
    ensures FlattenMembers([m] + others) == [Text(m.key)] + Flatten(m.value) + FlattenMembers(others)
  {
    hide NoDuplicates, WellFormed, CleanMembers, Flatten;
    assert ([m] + others)[1..] == others;
    CleanFirst([m] + others, seen);
  }

  lemma Regroup(a: seq<Token>, b: seq<Token>, c: seq<Token>, d: seq<Token>, e: seq<Token>)
    ensures a + (b + (c + d + e)) == (a + b + c) + d + e
  {
  }

  // ---------------------------------------------------------------- the walker, over a decoder

  class Decoder {
    var rest: seq<Token>

    constructor (tokens: seq<Token>)
      ensures rest == tokens
    {
      rest := tokens;
    }

    /** Another element follows in the current array or object. */
    predicate More()
      reads this
    {
      rest != [] && rest[0] != CloseObject && rest[0] != CloseArray
    }

    method Next() returns (token: Option<Token>)
      modifies this
      ensures old(rest) == [] ==> token.None? && rest == []
      ensures old(rest) != [] ==> token == Some(old(rest)[0]) && rest == old(rest)[1..]
    {
      if rest == [] { return None; }
      token := Some(rest[0]);
      rest := rest[1..];
    }
  }

  method RejectDuplicateKeys(decoder: Decoder) returns (ok: bool)
    modifies decoder
    ensures ok <==> Walk(old(decoder.rest)).Some?
    ensures ok ==> Some(decoder.rest) == Walk(old(decoder.rest))
    decreases |decoder.rest|
  {
    var token := decoder.Next();
    if token.None? { return false; }
    match token.value {
      case OpenObject =>
        var seen: set<string> := {};
        while decoder.More()
          invariant |decoder.rest| < |old(decoder.rest)|
          invariant WalkMembers(old(decoder.rest)[1..], {}) == WalkMembers(decoder.rest, seen)
          decreases |decoder.rest|
        {
          var key := decoder.Next();
          if key.None? || !key.value.Text? { return false; }
          if key.value.text in seen { return false; }
          seen := seen + {key.value.text};
          var inner := RejectDuplicateKeys(decoder);
          if !inner { return false; }
        }
        var close := decoder.Next();
        return close == Some(CloseObject);
      case OpenArray =>
        while decoder.More()
          invariant |decoder.rest| < |old(decoder.rest)|
          invariant WalkItems(old(decoder.rest)[1..]) == WalkItems(decoder.rest)
          decreases |decoder.rest|
        {
          var inner := RejectDuplicateKeys(decoder);
          if !inner { return false; }
        }
        var close := decoder.Next();
        return close == Some(CloseArray);
      case CloseObject => return false;
      case CloseArray => return false;
      case _ => return true;
    }
  }

  // ---------------------------------------------------------------- reading a value

  /** The value at the front of a token stream, and what follows it. */
  function ReadValue(tokens: seq<Token>): (read: Option<(Json, seq<Token>)>)
    ensures read.Some? ==> |read.value.1| < |tokens|
    decreases |tokens|, 1
  {
    if tokens == [] then None
    else match tokens[0]
      case OpenObject =>
        var read := ReadMembers(tokens[1..]);
        if read.None? then None else Some((Object(read.value.0), read.value.1))
      case OpenArray =>
        var read := ReadItems(tokens[1..]);
        if read.None? then None else Some((Array(read.value.0), read.value.1))
      case CloseObject => None
      case CloseArray => None
      case _ => Some((Scalar(tokens[0]), tokens[1..]))
  }

  function ReadMembers(tokens: seq<Token>): (read: Option<(seq<Member>, seq<Token>)>)
    ensures read.Some? ==> |read.value.1| < |tokens|
    decreases |tokens|, 0
  {
    if tokens == [] then None
    else match tokens[0]
      case CloseObject => Some(([], tokens[1..]))
      case Text(key) =>
        var first := ReadValue(tokens[1..]);
        if first.None? then None
        else
          var others := ReadMembers(first.value.1);
          if others.None? then None else Some(([Member(key, first.value.0)] + others.value.0, others.value.1))
      case _ => None
  }

  function ReadItems(tokens: seq<Token>): (read: Option<(seq<Json>, seq<Token>)>)
    ensures read.Some? ==> |read.value.1| < |tokens|
    decreases |tokens|, 2
  {
    if tokens == [] then None
    else if tokens[0] == CloseArray then Some(([], tokens[1..]))
    else
      var first := ReadValue(tokens);
      if first.None? then None
      else
        var others := ReadItems(first.value.1);
        if others.None? then None else Some(([first.value.0] + others.value.0, others.value.1))
  }

  /** Reading undoes flattening: a token stream determines its value. */
  lemma {:induction false} ReadFlatten(v: Json, rest: seq<Token>)
    requires WellFormed(v)
    ensures ReadValue(Flatten(v) + rest) == Some((v, rest))
    decreases v, 1
  {
    match v {
      case Scalar(t) =>
        assert (Flatten(v) + rest)[1..] == rest;
      case Array(items) =>
        assert (Flatten(v) + rest)[1..] == FlattenItems(items) + [CloseArray] + rest;
        ReadItemsFlatten(v, items, rest);
      case Object(members) =>
        assert (Flatten(v) + rest)[1..] == FlattenMembers(members) + [CloseObject] + rest;
        ReadMembersFlatten(v, members, rest);
    }
  }

  lemma {:induction false} ReadItemsFlatten(v: Json, items: seq<Json>, rest: seq<Token>)
    requires forall i :: 0 <= i < |items| ==> items[i] < v && WellFormed(items[i])
    ensures ReadItems(FlattenItems(items) + [CloseArray] + rest) == Some((items, rest))
    decreases v, 0, |items|
  {
    var tokens := FlattenItems(items) + [CloseArray] + rest;
    if items == [] {
      assert tokens == [CloseArray] + rest;
    } else {
      var tail := FlattenItems(items[1..]) + [CloseArray] + rest;
      assert tokens == Flatten(items[0]) + tail;
      assert WellFormed(items[0]) && Flatten(items[0])[0] != CloseArray;
      ReadFlatten(items[0], tail);
      ReadItemsFlatten(v, items[1..], rest);
      assert [items[0]] + items[1..] == items;
    }
  }

  lemma {:induction false} ReadMembersFlatten(v: Json, members: seq<Member>, rest: seq<Token>)
    requires forall i :: 0 <= i < |members| ==> members[i].value < v && WellFormed(members[i].value)
    ensures ReadMembers(FlattenMembers(members) + [CloseObject] + rest) == Some((members, rest))
    decreases v, 0, |members|
  {
    var tokens := FlattenMembers(members) + [CloseObject] + rest;
    if members == [] {
      assert tokens == [CloseObject] + rest;
    } else {
      var tail := FlattenMembers(members[1..]) + [CloseObject] + rest;
      assert tokens == [Text(members[0].key)] + (Flatten(members[0].value) + tail);
      assert tokens[1..] == Flatten(members[0].value) + tail;
      ReadFlatten(members[0].value, tail);
      ReadMembersFlatten(v, members[1..], rest);
      assert [Member(members[0].key, members[0].value)] + members[1..] == members;
    }
  }

  lemma FlattenInjective(v: Json, w: Json)
    requires WellFormed(v) && WellFormed(w) && Flatten(v) == Flatten(w)
    ensures v == w
  {
    ReadFlatten(v, []);
    ReadFlatten(w, []);
    assert Flatten(v) + [] == Flatten(w) + [];
  }

  // ---------------------------------------------------------------- the canonical codec

  const NEWLINE: Byte := 10

  /** How tokens are spelled: `spell` writes the tokens of a value, `scan` reads valid JSON text. */
  datatype Lexer = Lexer(spell: seq<Token> -> seq<Byte>, scan: seq<Byte> -> Option<seq<Token>>)

  /** The values the records are written as: objects and arrays of texts, integers and flags. */
  predicate Written(v: Json) {
    match v
    case Scalar(t) => t.Text? || t.Number? || t.Flag?
    case Array(items) => forall i :: 0 <= i < |items| ==> Written(items[i])
    case Object(members) => forall i :: 0 <= i < |members| ==> Written(members[i].value)
  }

  lemma {:induction false} WrittenFormed(v: Json)
    requires Written(v)
    ensures WellFormed(v)
  {
    match v {
      case Scalar(t) =>
      case Array(items) =>
        forall i | 0 <= i < |items| ensures WellFormed(items[i]) { WrittenFormed(items[i]); }
      case Object(members) =>
        forall i | 0 <= i < |members| ensures WellFormed(members[i].value) { WrittenFormed(members[i].value); }
    }
  }

  /** What is relied on of the spelling: one line per value, and the tokens are read back. */
  ghost predicate Lexical(lexer: Lexer) {
    forall v :: Written(v) ==>
      && NEWLINE !in lexer.spell(Flatten(v))
      && lexer.scan(lexer.spell(Flatten(v)) + [NEWLINE]) == Some(Flatten(v))
  }

  /** One record type: its JSON form, its reading from JSON, its own validation. */
  datatype Codec<!T> = Codec(toJson: T -> Json, fromJson: Json -> Option<T>, valid: T -> bool)

  /** The form is a JSON value without repeated keys, and is read back.  Wire proves it of every record type. */
  ghost predicate Exact<T(!new)>(codec: Codec<T>) {
    forall x :: Written(codec.toJson(x)) && NoDuplicates(codec.toJson(x)) && codec.fromJson(codec.toJson(x)) == Some(x)
  }

  function Spelled<T>(lexer: Lexer, codec: Codec<T>, value: T): seq<Byte> {
    lexer.spell(Flatten(codec.toJson(value))) + [NEWLINE]
  }

  /** The canonical bytes of a record that validates and fits its limit. */
  function Encode<T>(lexer: Lexer, codec: Codec<T>, value: T, maxBytes: nat): Option<seq<Byte>> {
    if codec.valid(value) && |Spelled(lexer, codec, value)| <= maxBytes then Some(Spelled(lexer, codec, value)) else None
  }

  function Count(s: seq<Byte>, b: Byte): nat {
    if s == [] then 0 else (if s[|s| - 1] == b then 1 else 0) + Count(s[..|s| - 1], b)
  }

  lemma {:induction false} CountNone(s: seq<Byte>, b: Byte)
    ensures Count(s, b) == 0 <==> b !in s
  {
    if s != [] {
      CountNone(s[..|s| - 1], b);
      assert s == s[..|s| - 1] + [s[|s| - 1]];
    }
  }

  lemma CountOnce(s: seq<Byte>, b: Byte)
    requires s != [] && s[|s| - 1] == b && Count(s, b) == 1
    ensures forall k :: 0 <= k < |s| - 1 ==> s[k] != b
  {
    var front := s[..|s| - 1];
    CountNone(front, b);
    assert forall k :: 0 <= k < |s| - 1 ==> s[k] == front[k] && front[k] in front;
  }

  /** What decoding does with the canonical bytes of a record. */
  lemma SpelledReads<T(!new)>(lexer: Lexer, codec: Codec<T>, x: T)
    requires Lexical(lexer) && Exact(codec)
    ensures var raw := Spelled(lexer, codec, x); var tokens := Flatten(codec.toJson(x));
      && 0 < |raw| && raw[|raw| - 1] == NEWLINE && Count(raw, NEWLINE) == 1
      && lexer.scan(raw) == Some(tokens)
      && Walk(tokens) == Some([]) && ReadValue(tokens) == Some((codec.toJson(x), []))
  {
    hide Flatten, Walk, ReadValue, WellFormed, Written, NoDuplicates;
    var v := codec.toJson(x);
    var line := lexer.spell(Flatten(v));
    CountNone(line, NEWLINE);
    assert (line + [NEWLINE])[..|line|] == line;
    WrittenFormed(v);
    WalkFlatten(v, []);
    ReadFlatten(v, []);
    assert Flatten(v) + [] == Flatten(v);
  }

  /**
    Decodes canonical bytes only.  Whatever is accepted is the encoding of what is returned; it is
    one JSON value without repeated keys; and every encoding is accepted, so the decoder is the
    exact inverse of the encoder.
   */
  method DecodeRecord<T(==, !new)>(lexer: Lexer, codec: Codec<T>, raw: seq<Byte>, maxBytes: nat) returns (value: Option<T>)
    ensures value.Some? ==> Encode(lexer, codec, value.value, maxBytes) == Some(raw)
    ensures value.Some? ==> 0 < |raw| <= maxBytes && forall k :: 0 <= k < |raw| ==> (raw[k] == 0x0A <==> k == |raw| - 1)
    ensures value.Some? ==> exists v :: WellFormed(v) && NoDuplicates(v) && lexer.scan(raw) == Some(Flatten(v))
    ensures value.Some? && Lexical(lexer) && Exact(codec) ==> lexer.scan(raw) == Some(Flatten(codec.toJson(value.value)))
    ensures Lexical(lexer) && Exact(codec) ==> forall x :: Encode(lexer, codec, x, maxBytes) == Some(raw) <==> value == Some(x)
  {
    hide Flatten, Walk, ReadValue, WellFormed, Written, NoDuplicates, Count, Lexical, Exact;
    forall x | Lexical(lexer) && Exact(codec) && Encode(lexer, codec, x, maxBytes) == Some(raw)
      ensures 0 < |raw| <= maxBytes && raw[|raw| - 1] == NEWLINE && Count(raw, NEWLINE) == 1
      ensures lexer.scan(raw) == Some(Flatten(codec.toJson(x))) && Walk(Flatten(codec.toJson(x))) == Some([])
      ensures ReadValue(Flatten(codec.toJson(x))) == Some((codec.toJson(x), [])) && codec.fromJson(codec.toJson(x)) == Some(x)
    {
      SpelledReads(lexer, codec, x);
      ReadsBack(codec, x);
    }
    if |raw| > maxBytes { return None; }
    if |raw| == 0 || raw[|raw| - 1] != NEWLINE || Count(raw, NEWLINE) != 1 { return None; }
    CountOnce(raw, NEWLINE);
    var tokens := lexer.scan(raw);
    if tokens.None? { return None; }
    var decoder := new Decoder(tokens.value);
    var clean := RejectDuplicateKeys(decoder);
    if !clean { return None; }
    if decoder.rest != [] { return None; }
    ghost var v := WalkReads(tokens.value);
    assert tokens.value == Flatten(v);
    var read := ReadValue(tokens.value);
    if read.None? || read.value.1 != [] { return None; }
    var decoded := codec.fromJson(read.value.0);
    if decoded.None? || !codec.valid(decoded.value) { return None; }
    if raw != Spelled(lexer, codec, decoded.value) { return None; }
    return decoded;
  }

  lemma ReadsBack<T(!new)>(codec: Codec<T>, x: T)
    requires Exact(codec)
    ensures codec.fromJson(codec.toJson(x)) == Some(x)
  {
    hide Written, NoDuplicates;
  }

  /** Two records never share their canonical bytes. */
  lemma SpelledInjective<T(!new)>(lexer: Lexer, codec: Codec<T>, x: T, y: T)
    requires Lexical(lexer) && Exact(codec) && Spelled(lexer, codec, x) == Spelled(lexer, codec, y)
    ensures x == y
  {
    hide Flatten, Walk, ReadValue, Written, NoDuplicates, Count, Lexical, Exact, Spelled;
    SpelledReads(lexer, codec, x);
    SpelledReads(lexer, codec, y);
    ReadsBack(codec, x);
    ReadsBack(codec, y);
  }
}
