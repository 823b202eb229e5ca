/**
  The credential bundle decoder (internal/cli/reconcile_credentials.go): one JSON object over a
  token stream, every required key, some optional keys, nothing else, no key twice.
 */
module Bundle {
  import opened Basics
  import opened Credentials
  import opened Literals

  /** What the JSON decoder hands out: braces, decoded keys, raw values, or a syntax error. */
  datatype Token = Open | Close | Key(key: seq<int>) | Raw(value: seq<Byte>) | Broken

  datatype Member = Member(key: seq<int>, value: seq<Byte>)

  /** The stream of one object with these members in this order, and nothing after it. */
  ghost predicate IsStream(tokens: seq<Token>, members: seq<Member>) {
    && |tokens| == 2 * |members| + 2
    && tokens[0] == Open && tokens[|tokens| - 1] == Close
    && forall k :: 0 <= k < |members| ==> MemberAt(tokens, k, members[k])
  }

  /** The `k`-th member of the object in the stream. */
  ghost predicate MemberAt(tokens: seq<Token>, k: nat, m: Member) {
    2 + 2 * k < |tokens| && tokens[1 + 2 * k] == Key(m.key) && tokens[2 + 2 * k] == Raw(m.value)
  }

  ghost predicate DistinctKeys(members: seq<Member>) {
    forall a, b :: 0 <= a < b < |members| ==> members[a].key != members[b].key
  }

  ghost predicate HasKey(members: seq<Member>, key: seq<int>) {
    exists k :: 0 <= k < |members| && members[k].key == key
  }

  /** The key set lies between the required and the required plus optional keys, each key once. */
  ghost predicate Acceptable(members: seq<Member>, required: seq<seq<int>>, optional: seq<seq<int>>) {
    && DistinctKeys(members)
    && (forall k :: 0 <= k < |members| ==> members[k].key in required || members[k].key in optional)
    && (forall k :: 0 <= k < |members| ==> StrictDecode(members[k].value).Some?)
    && (forall f :: f in required ==> HasKey(members, f))
  }

  /** The decoded values of the members, by key. */
  ghost predicate Holds(values: map<seq<int>, seq<int>>, members: seq<Member>) {
    && (forall k :: 0 <= k < |members| ==> members[k].key in values && Some(values[members[k].key]) == StrictDecode(members[k].value))
    && (forall key :: key in values ==> HasKey(members, key))
  }

  /** A stream is the stream of one member list only. */
  lemma StreamUnique(tokens: seq<Token>, a: seq<Member>, b: seq<Member>)
    requires IsStream(tokens, a) && IsStream(tokens, b)
    ensures a == b
  {
    assert |a| == |b|;
    forall k | 0 <= k < |a| ensures a[k] == b[k] {
      assert MemberAt(tokens, k, a[k]) && MemberAt(tokens, k, b[k]);
    }
  }

  /**
    The order of the members does not matter: the same members in another order are accepted
    alike and give the same values.
   */
  lemma OrderIndependent(a: seq<Member>, b: seq<Member>, required: seq<seq<int>>, optional: seq<seq<int>>)
    requires DistinctKeys(a) && DistinctKeys(b) && forall m :: m in a <==> m in b
    ensures Acceptable(a, required, optional) <==> Acceptable(b, required, optional)
    ensures forall v, w :: Holds(v, a) && Holds(w, b) ==> v == w
  {
    if Acceptable(a, required, optional) { SameMembers(a, b, required, optional); }
    if Acceptable(b, required, optional) { SameMembers(b, a, required, optional); }
    hide Acceptable, Holds, DistinctKeys;
    forall v, w | Holds(v, a) && Holds(w, b) ensures v == w {
      SameValues(a, b, v, w);
    }
  }

  lemma SameValues(a: seq<Member>, b: seq<Member>, v: map<seq<int>, seq<int>>, w: map<seq<int>, seq<int>>)
    requires (forall m :: m in a <==> m in b) && Holds(v, a) && Holds(w, b)
    ensures v == w
  {
    hide StrictDecode;
    KeysHeld(v, a);
    KeysHeld(w, b);
    forall key ensures key in v <==> key in w {
      if key in v { KeyOver(a, b, key); }
      if key in w { KeyOver(b, a, key); }
    }
    forall key | key in v ensures v[key] == w[key] {
      var k :| 0 <= k < |a| && a[k].key == key;
      assert a[k] in b;
      var n :| 0 <= n < |b| && b[n] == a[k];
    }
  }

  lemma KeyOver(a: seq<Member>, b: seq<Member>, key: seq<int>)
    requires (forall m :: m in a ==> m in b) && HasKey(a, key)
    ensures HasKey(b, key)
  {
    var k :| 0 <= k < |a| && a[k].key == key;
    assert a[k] in b;
  }

  lemma SameMembers(a: seq<Member>, b: seq<Member>, required: seq<seq<int>>, optional: seq<seq<int>>)
    requires DistinctKeys(b) && (forall m :: m in a <==> m in b) && Acceptable(a, required, optional)
    ensures Acceptable(b, required, optional)
  {
    forall k | 0 <= k < |b| ensures (b[k].key in required || b[k].key in optional) && StrictDecode(b[k].value).Some? {
      assert b[k] in a;
      var n :| 0 <= n < |a| && a[n] == b[k];
    }
    forall f | f in required ensures HasKey(b, f) {
      KeyOver(a, b, f);
    }
  }

  // ---------------------------------------------------------------- the decoder

  /** What the loop has seen: the first members of the object, acceptable so far. */
  ghost predicate Seen(tokens: seq<Token>, seen: seq<Member>, fields: seq<seq<int>>) {
    && 1 + 2 * |seen| <= |tokens| && tokens[0] == Open
    && (forall k :: 0 <= k < |seen| ==> MemberAt(tokens, k, seen[k]))
    && DistinctKeys(seen)
    && (forall k :: 0 <= k < |seen| ==> seen[k].key in fields && StrictDecode(seen[k].value).Some?)
  }

  /** The stream goes on with a member that can be accepted after those seen. */
  ghost predicate Extends(tokens: seq<Token>, seen: seq<Member>, fields: seq<seq<int>>) {
    var n := |seen|;
    && 2 + 2 * n < |tokens| && tokens[1 + 2 * n].Key? && tokens[2 + 2 * n].Raw?
    && tokens[1 + 2 * n].key in fields && !HasKey(seen, tokens[1 + 2 * n].key)
    && StrictDecode(tokens[2 + 2 * n].value).Some?
  }

  ghost predicate Ends(tokens: seq<Token>, seen: seq<Member>) {
    |tokens| == 2 * |seen| + 2 && tokens[1 + 2 * |seen|] == Close
  }

  lemma NotLonger(tokens: seq<Token>, seen: seq<Member>, fields: seq<seq<int>>, members: seq<Member>)
    requires Seen(tokens, seen, fields) && IsStream(tokens, members)
    ensures |seen| <= |members|
  {
    hide StrictDecode;
    forall q | 1 <= q < 2 * |seen| && q % 2 == 1 ensures tokens[q].Key? {
      var k := (q - 1) / 2;
      assert MemberAt(tokens, k, seen[k]) && q == 1 + 2 * k;
    }
    assert tokens[1 + 2 * |members|] == Close;
  }

  /** An acceptable stream either ends after the members seen or goes on acceptably. */
  lemma Continues(tokens: seq<Token>, seen: seq<Member>, required: seq<seq<int>>, optional: seq<seq<int>>, members: seq<Member>)
    requires Seen(tokens, seen, required + optional) && IsStream(tokens, members) && Acceptable(members, required, optional)
    ensures |seen| <= |members| && forall k :: 0 <= k < |seen| ==> seen[k] == members[k]
    ensures if |members| == |seen| then Ends(tokens, seen) else Extends(tokens, seen, required + optional)
  {
    var n := |seen|;
    forall k | 0 <= k < n && k < |members| ensures seen[k] == members[k] {
      assert MemberAt(tokens, k, seen[k]) && MemberAt(tokens, k, members[k]);
    }
    NotLonger(tokens, seen, required + optional, members);
    if n < |members| {
      assert MemberAt(tokens, n, members[n]);
      assert members[n].key in required + optional;
    }
  }

  lemma Rejects(tokens: seq<Token>, seen: seq<Member>, required: seq<seq<int>>, optional: seq<seq<int>>)
    requires Seen(tokens, seen, required + optional)
    requires !Ends(tokens, seen) && !Extends(tokens, seen, required + optional)
    ensures forall members :: !(IsStream(tokens, members) && Acceptable(members, required, optional))
  {
    forall members | IsStream(tokens, members) && Acceptable(members, required, optional) ensures false {
      Continues(tokens, seen, required, optional, members);
    }
  }

  /** The stream has ended: it is acceptable exactly when no required key is missing. */
  lemma Decides(tokens: seq<Token>, seen: seq<Member>, required: seq<seq<int>>, optional: seq<seq<int>>)
    requires Seen(tokens, seen, required + optional) && Ends(tokens, seen)
    ensures IsStream(tokens, seen)
    ensures Acceptable(seen, required, optional) <==> forall f :: f in required ==> HasKey(seen, f)
    ensures forall members :: IsStream(tokens, members) ==> members == seen
  {
    hide StrictDecode, MemberAt;
    forall members | IsStream(tokens, members) ensures members == seen {
      StreamUnique(tokens, members, seen);
    }
    assert forall k :: 0 <= k < |seen| ==> seen[k].key in required + optional;
  }

  lemma SeenMore(tokens: seq<Token>, seen: seq<Member>, fields: seq<seq<int>>, m: Member)
    requires Seen(tokens, seen, fields) && Extends(tokens, seen, fields) && MemberAt(tokens, |seen|, m)
    ensures Seen(tokens, seen + [m], fields)
  {
  }

  lemma NothingSeen(tokens: seq<Token>, fields: seq<seq<int>>)
    requires |tokens| > 0 && tokens[0] == Open
    ensures Seen(tokens, [], fields) && Holds(map[], [])
  {
  }

  lemma HoldsMore(values: map<seq<int>, seq<int>>, seen: seq<Member>, m: Member)
    requires Holds(values, seen) && m.key !in values && StrictDecode(m.value).Some?
    ensures Holds(values[m.key := StrictDecode(m.value).value], seen + [m])
  {
    var more := seen + [m];
    assert more[|seen|] == m;
    hide StrictDecode;
    forall key | key in values ensures HasKey(more, key) {
      var k :| 0 <= k < |seen| && seen[k].key == key;
      assert more[k].key == key;
    }
  }

  lemma KeysHeld(values: map<seq<int>, seq<int>>, seen: seq<Member>)
    requires Holds(values, seen)
    ensures forall key :: key in values <==> HasKey(seen, key)
  {
    hide StrictDecode;
  }

  /** Every required key is there. */
  method HasAll(found: map<seq<int>, seq<int>>, required: seq<seq<int>>) returns (all: bool)
    ensures all <==> forall f :: f in required ==> f in found
  {
    var n := 0;
    while n < |required|
      invariant n <= |required| && forall k :: 0 <= k < n ==> required[k] in found
    {
      if required[n] !in found { return false; }
      n := n + 1;
    }
    all := true;
  }

  /**
    The bundle decoder accepts exactly the objects whose key set lies between the required and the
    required plus optional keys, in any order, and returns their decoded values.
   */
  method DecodeCredentialBundle(tokens: seq<Token>, required: seq<seq<int>>, optional: seq<seq<int>>)
    returns (values: Option<map<seq<int>, seq<int>>>)
    ensures values.Some? <==> exists members :: IsStream(tokens, members) && Acceptable(members, required, optional)
    ensures values.Some? ==> forall members :: IsStream(tokens, members) ==> Holds(values.value, members)
  {
    var fields := required + optional;
    if |tokens| == 0 || tokens[0] != Open { return None; }
    var found: map<seq<int>, seq<int>> := map[];
    ghost var seen: seq<Member> := [];
    var n := 0;
    NothingSeen(tokens, fields);
    hide IsStream, Acceptable, Seen, Holds, StrictDecode, HasKey;
    while 1 + 2 * n < |tokens| && tokens[1 + 2 * n] != Close && tokens[1 + 2 * n] != Broken
      invariant n == |seen| && Seen(tokens, seen, fields) && Holds(found, seen)
      decreases |tokens| - n
    {
      KeysHeld(found, seen);
      if !Extends(tokens, seen, fields) { Rejects(tokens, seen, required, optional); }
      var key := tokens[1 + 2 * n];
      if !key.Key? { return None; }
      if key.key !in fields { return None; }
      if key.key in found { return None; }
      if 2 + 2 * n >= |tokens| || !tokens[2 + 2 * n].Raw? { return None; }
      var value := DecodeStrictCredentialString(tokens[2 + 2 * n].value);
      if value.None? { return None; }
      ghost var m := Member(key.key, tokens[2 + 2 * n].value);
      SeenMore(tokens, seen, fields, m);
      HoldsMore(found, seen, m);
      found := found[key.key := value.value];
      seen := seen + [m];
      n := n + 1;
    }
    if !Ends(tokens, seen) { Rejects(tokens, seen, required, optional); }
    if 1 + 2 * n >= |tokens| || tokens[1 + 2 * n] != Close { return None; }
    if 2 + 2 * n != |tokens| { return None; }
    KeysHeld(found, seen);
    Decides(tokens, seen, required, optional);
    var complete := HasAll(found, required);
    if !complete { return None; }
    return Some(found);
  }
}
