/**
  `ListOperations` over a session: two equal intent inventories, every intent loaded in both, two
  equal inventories each of tombstones and forget markers, then the join, sorted by intent record ID.
 */
module Listing {
  import opened Basics
  import opened Records
  import opened Program
  import opened Journal
  import opened Metastore
  import opened Budget
  import opened Sequential
  import opened Scripts
  import opened Inventory
  import opened Session

  // ---------------------------------------------------------------- what the store determines

  /** A row of the join, read off the store. */
  ghost predicate StoreRow(s: Summary, records: set<Record>) {
    && (Intent(s.intent) in records || s.retention.Some? || s.forget.Some?)
    && (match s.retention
        case Some(r) => Retention(r) in records && r.intent == s.intent
        case None => forall r :: Retention(r) in records ==> r.intent != s.intent)
    && (match s.forget
        case Some(f) => Forget(f) in records && f.retention.intent == s.intent
        case None => forall f :: Forget(f) in records ==> f.retention.intent != s.intent)
    && (s.status == ForgettingNotInspected <==> s.forget.Some?)
    && (s.status == PruningNotInspected <==> s.forget.None? && s.retention.Some? && Intent(s.intent) in records)
    && (s.status == PrunedNotInspected <==> s.forget.None? && s.retention.Some? && Intent(s.intent) !in records)
    && (s.status == NotInspected <==> s.forget.None? && s.retention.None?)
  }

  /** Every operation identity names one intent, one tombstone and one marker, which agree. */
  ghost predicate Agreeing(records: set<Record>) {
    && (forall i, j :: Intent(i) in records && Intent(j) in records && i.operationId == j.operationId ==> i == j)
    && (forall r, t :: Retention(r) in records && Retention(t) in records && r.operationId == t.operationId ==> r == t)
    && (forall f, g :: Forget(f) in records && Forget(g) in records && f.operationId == g.operationId ==> f == g)
    && (forall i, r :: Intent(i) in records && Retention(r) in records && i.operationId == r.operationId ==> r.intent == i)
    && (forall i, f :: Intent(i) in records && Forget(f) in records && i.operationId == f.operationId ==> f.retention.intent == i)
    && (forall r, f :: Retention(r) in records && Forget(f) in records && r.operationId == f.operationId ==> f.retention == r)
  }

  function Intents(q: seq<Record>): (live: seq<IntentRecord>)
    requires forall r :: r in q ==> r.Intent?
    ensures |live| == |q| && forall k :: 0 <= k < |q| ==> q[k] == Intent(live[k])
  {
    if q == [] then [] else Intents(q[..|q| - 1]) + [q[|q| - 1].intent]
  }

  function Tombstones(q: seq<Record>): (retained: seq<RetentionRecord>)
    requires forall r :: r in q ==> r.Retention?
    ensures |retained| == |q| && forall k :: 0 <= k < |q| ==> q[k] == Retention(retained[k])
  {
    if q == [] then [] else Tombstones(q[..|q| - 1]) + [q[|q| - 1].retention]
  }

  function Markers(q: seq<Record>): (forgotten: seq<ForgetRecord>)
    requires forall r :: r in q ==> r.Forget?
    ensures |forgotten| == |q| && forall k :: 0 <= k < |q| ==> q[k] == Record.Forget(forgotten[k])
  {
    if q == [] then [] else Markers(q[..|q| - 1]) + [q[|q| - 1].forget]
  }

  ghost predicate ListsIntents(live: seq<IntentRecord>, records: set<Record>) {
    && (forall i :: i in live <==> Intent(i) in records)
    && (forall a, b :: 0 <= a < b < |live| ==> live[a] != live[b])
  }

  ghost predicate ListsTombstones(retained: seq<RetentionRecord>, records: set<Record>) {
    && (forall r :: r in retained <==> Retention(r) in records)
    && (forall a, b :: 0 <= a < b < |retained| ==> retained[a] != retained[b])
  }

  ghost predicate ListsMarkers(forgotten: seq<ForgetRecord>, records: set<Record>) {
    && (forall f :: f in forgotten <==> Record.Forget(f) in records)
    && (forall a, b :: 0 <= a < b < |forgotten| ==> forgotten[a] != forgotten[b])
  }

  /** The three inventories are complete lists of what the store holds. */
  ghost predicate Inventories(records: set<Record>, live: seq<IntentRecord>, retained: seq<RetentionRecord>, forgotten: seq<ForgetRecord>) {
    ListsIntents(live, records) && ListsTombstones(retained, records) && ListsMarkers(forgotten, records)
  }

  lemma RowsOfStore(records: set<Record>, live: seq<IntentRecord>, retained: seq<RetentionRecord>, forgotten: seq<ForgetRecord>, s: Summary)
    requires Inventories(records, live, retained, forgotten)
    ensures IsRow(s, live, retained, forgotten) <==> StoreRow(s, records)
  {
  }

  lemma AgreeingInventories(records: set<Record>, live: seq<IntentRecord>, retained: seq<RetentionRecord>, forgotten: seq<ForgetRecord>)
    requires Inventories(records, live, retained, forgotten)
    ensures Consistent(live, retained, forgotten) <==> Agreeing(records)
    ensures Distinct(live, IntentOperation) || !Agreeing(records)
  {
    if Agreeing(records) {
      forall a, b | 0 <= a < b < |live| ensures live[a].operationId != live[b].operationId {
        assert live[a] in live && live[b] in live;
      }
      forall a, b | 0 <= a < b < |retained| ensures retained[a].operationId != retained[b].operationId {
        assert retained[a] in retained && retained[b] in retained;
      }
      forall a, b | 0 <= a < b < |forgotten| ensures forgotten[a].operationId != forgotten[b].operationId {
        assert forgotten[a] in forgotten && forgotten[b] in forgotten;
      }
    }
  }

  // ---------------------------------------------------------------- the passes

  /** Loads every record of an inventory within the byte budget, on top of what was read before. */
  method LoadAll(session: Session, q: seq<Record>, vanished: Err, read: nat) returns (read': nat, err: Option<Err>)
    requires session.bound.Valid() && read <= session.bound.limits.maxStatusBytes
    modifies session.bound`records, session.bound`seen, session.bound`log
    ensures session.bound.Valid() && Later(old(session.bound.log), session.bound.log)
    ensures read' <= session.bound.limits.maxStatusBytes
    ensures err.None? ==> forall r :: r in q ==> Decodes(r)
    ensures err.None? || err == Some(CorruptExchange) || err == Some(vanished) || Inconclusive(err.value)
    ensures session.bound.exclusive ==> session.bound.records == old(session.bound.records)
    ensures session.bound.exclusive && err == Some(vanished) && !Inconclusive(vanished) && !vanished.CorruptExchange? ==>
              exists r :: r in q && r !in session.bound.records
    ensures session.bound.exclusive && err == Some(CorruptExchange) && !vanished.CorruptExchange? ==> exists r :: r in q && !Decodes(r)
    ensures read' <= read + Bytes(q, session.bound.sizeOf)
    ensures session.bound.exclusive && Calm(old(session.bound.log), session.bound.log) ==>
              (Loadable(session.bound, q, read) && (forall r :: r in q ==> r in session.bound.records) ==> Settled(err))
  {
    hide *;
    LoadFirst(session.bound, q);
    AnyInconclusive();
    LaterAlways();
    var bound := session.bound;
    read', err := read, None;
    var n := 0;
    while n < |q|
      invariant n <= |q| && read' <= bound.limits.maxStatusBytes && read' == read + Bytes(q[..n], bound.sizeOf)
      invariant forall k :: 0 <= k < n ==> Decodes(q[k])
      invariant bound.Valid() && Later(old(bound.log), bound.log)
      invariant bound.exclusive ==> bound.records == old(bound.records)
    {
      LoadNext(bound, q, n, read);
      BytesGrow(q, bound.sizeOf, n);
      BytesGrow(q, bound.sizeOf, n + 1);
      assert q[n] in q;
      if bound.sizeOf(q[n]) > bound.limits.maxStatusBytes - read' { return read', Some(StatusIncomplete); }
      var loaded, size := bound.Load(q[n]);
      Looked(bound.seen, q[n], loaded, bound.records);
      read' := read' + size;
      if loaded.Absent? {
        assert q[n] in q;
        return read', Some(vanished);
      }
      if loaded.Fault? { return read', Some(Interrupted); }
      if !Decodes(q[n]) {
        assert q[n] in q;
        return read', Some(CorruptExchange);
      }
      n := n + 1;
    }
  }

  /** Two equal inventories of one kind, every record of both loaded. */
  method ListAllStable(session: Session, k: Kind, read: nat)
    returns (listed: seq<Record>, read': nat, err: Option<Err>, ghost at: set<Record>)
    requires session.bound.Valid() && read <= session.bound.limits.maxStatusBytes
    modifies session.bound`records, session.bound`seen, session.bound`log
    ensures session.bound.Valid() && Later(old(session.bound.log), session.bound.log)
    ensures read' <= session.bound.limits.maxStatusBytes
    ensures err.None? ==> (forall r :: r in listed ==> KindOf(r) == k && Decodes(r)) && SortedByRank(listed, session.bound.rank)
    ensures err.None? || err == Some(CorruptExchange) || err == Some(RecordNotFound) || Inconclusive(err.value)
    ensures session.bound.exclusive ==> session.bound.records == old(session.bound.records) && err != Some(RecordNotFound)
    ensures err.None? ==> Glimpsed(old(session.bound.log), session.bound.log, at) && Enumerates(listed, at, k)
    ensures session.bound.exclusive && err.None? ==> at == session.bound.records
    ensures session.bound.exclusive && err == Some(CorruptExchange) ==> !WellFormed(session.bound.records)
    ensures session.bound.exclusive ==> read' <= read + 2 * StoredBytes(session.bound, session.bound.records, k)
    ensures session.bound.exclusive && Calm(old(session.bound.log), session.bound.log) && Small(session.bound, session.bound.records) ==>
              (RoomTwice(session.bound, session.bound.records, k, read) ==> Settled(err))
  {
    hide *;
    RoomOnce(session.bound, session.bound.records, k, read);
    RoomFits(session.bound, k, read);
    AnyInconclusive();
    LaterAlways();
    NotFoundLasts();
    var bound := session.bound;
    var before: seq<Record> := [];
    at := bound.records;
    read' := read;
    for pass := 0 to 2
      invariant read' <= bound.limits.maxStatusBytes
      invariant bound.Valid() && Later(old(bound.log), bound.log)
      invariant bound.exclusive ==> bound.records == old(bound.records) && at == bound.records
      invariant pass > 0 ==> (forall r :: r in before ==> KindOf(r) == k && Decodes(r)) && SortedByRank(before, bound.rank)
      invariant pass > 0 ==> Glimpsed(old(bound.log), bound.log, at) && Enumerates(before, at, k)
      invariant bound.exclusive ==> read' <= read + pass * StoredBytes(bound, bound.records, k)
    {
      if bound.exclusive && pass == 1 { RoomAgain(bound, bound.records, k, read, read'); }
      var resp, truncated := bound.Inventory(k);
      ListedAll(bound.seen, k, resp, bound.records);
      if truncated { return [], read', Some(StatusIncomplete), at; }
      if resp.Fault? { return [], read', Some(Interrupted), at; }
      InventoryBytes(bound, bound.seen, k, resp.records, read');
      if pass == 1 && bound.seen == at { SameListing(bound, at, k, before, resp.records); }
      if pass == 1 && resp.records != before { return [], read', Some(StatusIncomplete), at; }
      before, at := resp.records, bound.seen;
      ListedInvalid(bound.records, before, k);
      var more, loadErr := LoadAll(session, before, RecordNotFound, read');
      read' := more;
      if loadErr.Some? {
        ListedInvalid(bound.records, before, k);
        return [], read', loadErr, at;
      }
    }
    return before, read', None, at;
  }

  lemma NotFoundLasts()
    ensures !Inconclusive(RecordNotFound) && !Inconclusive(CorruptExchange) && !Inconclusive(Closed)
  {
  }

  lemma ListedInvalid(s: set<Record>, q: seq<Record>, k: Kind)
    ensures Enumerates(q, s, k) ==> forall r :: r in q ==> r in s
    ensures Enumerates(q, s, k) && (exists r :: r in q && !Decodes(r)) ==> !WellFormed(s)
  {
    hide Decodes;
  }

  /** The operation identities of the first `n` intents. */
  ghost predicate SeenFirst(live: seq<IntentRecord>, n: nat, seen: set<string>)
    requires n <= |live|
  {
    && (forall a, b :: 0 <= a < b < n ==> live[a].operationId != live[b].operationId)
    && (forall op :: op in seen <==> exists a :: 0 <= a < n && live[a].operationId == op)
  }

  lemma SeenNext(live: seq<IntentRecord>, n: nat, seen: set<string>)
    requires n < |live| && SeenFirst(live, n, seen)
    ensures live[n].operationId in seen ==> !Distinct(live, IntentOperation)
    ensures live[n].operationId !in seen ==> SeenFirst(live, n + 1, seen + {live[n].operationId})
  {
  }

  lemma SeenAll(live: seq<IntentRecord>, seen: set<string>)
    ensures SeenFirst(live, 0, {})
    ensures SeenFirst(live, |live|, seen) ==> Distinct(live, IntentOperation)
  {
  }

  /** The first pass over the intents: each is loaded, and none may share an operation identity. */
  method LoadDistinct(session: Session, q: seq<Record>) returns (read: nat, err: Option<Err>)
    requires session.bound.Valid() && forall r :: r in q ==> r.Intent?
    modifies session.bound`records, session.bound`seen, session.bound`log
    ensures session.bound.Valid() && Later(old(session.bound.log), session.bound.log)
    ensures read <= session.bound.limits.maxStatusBytes
    ensures err.None? ==> (forall r :: r in q ==> Decodes(r)) && Distinct(Intents(q), IntentOperation)
    ensures err.None? || err == Some(CorruptExchange) || Inconclusive(err.value)
    ensures session.bound.exclusive ==> session.bound.records == old(session.bound.records)
    ensures err == Some(CorruptExchange) ==> (exists r :: r in q && !Decodes(r)) || !Distinct(Intents(q), IntentOperation)
    ensures read <= Bytes(q, session.bound.sizeOf)
    ensures session.bound.exclusive && Calm(old(session.bound.log), session.bound.log) ==>
              (Loadable(session.bound, q, 0) && (forall r :: r in q ==> r in session.bound.records) ==> Settled(err))
  {
    hide *;
    LoadFirst(session.bound, q);
    AnyInconclusive();
    LaterAlways();
    var live := Intents(q);
    var bound := session.bound;
    SeenAll(live, {});
    read, err := 0, None;
    var seen: set<string> := {};
    var n := 0;
    while n < |q|
      invariant n <= |q| && read <= bound.limits.maxStatusBytes && read == Bytes(q[..n], bound.sizeOf)
      invariant forall k :: 0 <= k < n ==> Decodes(q[k])
      invariant SeenFirst(live, n, seen)
      invariant bound.Valid() && Later(old(bound.log), bound.log)
      invariant bound.exclusive ==> bound.records == old(bound.records)
    {
      LoadNext(bound, q, n, 0);
      BytesGrow(q, bound.sizeOf, n);
      BytesGrow(q, bound.sizeOf, n + 1);
      assert q[n] in q;
      if bound.sizeOf(q[n]) > bound.limits.maxStatusBytes - read { return read, Some(StatusIncomplete); }
      var loaded, size := bound.Load(q[n]);
      Looked(bound.seen, q[n], loaded, bound.records);
      read := read + size;
      if loaded.Absent? { return read, Some(StatusIncomplete); }
      if loaded.Fault? { return read, Some(Interrupted); }
      if !Decodes(q[n]) {
        assert q[n] in q;
        return read, Some(CorruptExchange);
      }
      SeenNext(live, n, seen);
      if q[n].intent.operationId in seen { return read, Some(CorruptExchange); }
      seen := seen + {q[n].intent.operationId};
      n := n + 1;
    }
    SeenAll(live, seen);
  }

  /** Two equal intent inventories; every intent is loaded in both, none shares its identity. */
  method ListLive(session: Session) returns (live: seq<IntentRecord>, read: nat, err: Option<Err>, ghost at: set<Record>)
    requires session.bound.Valid()
    modifies session.bound`records, session.bound`seen, session.bound`log
    ensures session.bound.Valid() && Later(old(session.bound.log), session.bound.log)
    ensures read <= session.bound.limits.maxStatusBytes
    ensures err.None? ==> Distinct(live, IntentOperation) && forall i :: i in live ==> ValidIntent(i)
    ensures err.None? || err == Some(CorruptExchange) || Inconclusive(err.value)
    ensures session.bound.exclusive ==> session.bound.records == old(session.bound.records)
    ensures err.None? ==> Glimpsed(old(session.bound.log), session.bound.log, at) && ListsIntents(live, at)
    ensures session.bound.exclusive && err.None? ==> at == session.bound.records
    ensures session.bound.exclusive && err == Some(CorruptExchange) ==> !WellFormed(session.bound.records) || !Agreeing(session.bound.records)
    ensures session.bound.exclusive && Calm(old(session.bound.log), session.bound.log) && Small(session.bound, session.bound.records) ==>
              (RoomTwice(session.bound, session.bound.records, IntentKind, 0) ==> Settled(err))
  {
    hide *;
    RoomOnce(session.bound, session.bound.records, IntentKind, 0);
    RoomFits(session.bound, IntentKind, 0);
    AnyInconclusive();
    LaterAlways();
    var bound := session.bound;
    live, read, err, at := [], 0, None, bound.records;
    var resp, truncated := bound.Inventory(IntentKind);
    ListedAll(bound.seen, IntentKind, resp, bound.records);
    if truncated { return [], 0, Some(StatusIncomplete), at; }
    if resp.Fault? { return [], 0, Some(Interrupted), at; }
    var before := resp.records;
    ghost var first := bound.seen;
    InventoryBytes(bound, first, IntentKind, before, 0);
    ListedInvalid(bound.records, before, IntentKind);
    OfIntents(before);
    LiveListed(bound.records, before);
    read, err := LoadDistinct(session, before);
    if err.Some? {
      SharedIdentity(bound.records, Intents(before));
      return [], read, err, at;
    }
    live := Intents(before);
    if bound.exclusive { RoomAgain(bound, bound.records, IntentKind, 0, read); }
    var again, truncatedAgain := bound.Inventory(IntentKind);
    ListedAll(bound.seen, IntentKind, again, bound.records);
    if truncatedAgain { return [], read, Some(StatusIncomplete), at; }
    if again.Fault? { return [], read, Some(Interrupted), at; }
    if bound.seen == first { SameListing(bound, first, IntentKind, before, again.records); }
    if again.records != before { return [], read, Some(StatusIncomplete), at; }
    at := bound.seen;
    LiveListed(at, before);
    InventoryBytes(bound, at, IntentKind, before, read);
    ListedInvalid(bound.records, before, IntentKind);
    read, err := LoadAll(session, before, StatusIncomplete, read);
  }

  lemma OfIntents(q: seq<Record>)
    ensures (forall r :: r in q ==> KindOf(r) == IntentKind) ==> forall r :: r in q ==> r.Intent?
    ensures (forall r :: r in q ==> KindOf(r) == RetentionKind) ==> forall r :: r in q ==> r.Retention?
    ensures (forall r :: r in q ==> KindOf(r) == ForgetKind) ==> forall r :: r in q ==> r.Forget?
  {
  }

  lemma LiveListed(records: set<Record>, q: seq<Record>)
    requires forall r :: r in q ==> r.Intent?
    ensures (forall r :: r in q ==> Decodes(r)) ==> forall i :: i in Intents(q) ==> ValidIntent(i)
    ensures Enumerates(q, records, IntentKind) ==> ListsIntents(Intents(q), records)
  {
    hide ValidIntent;
    forall i ensures i in Intents(q) <==> Intent(i) in q {
      if i in Intents(q) {
        var k :| 0 <= k < |q| && Intents(q)[k] == i;
      }
      if Intent(i) in q {
        var k :| 0 <= k < |q| && q[k] == Intent(i);
      }
    }
  }

  lemma SharedIdentity(records: set<Record>, live: seq<IntentRecord>)
    ensures !Distinct(live, IntentOperation) && ListsIntents(live, records) ==> !Agreeing(records)
  {
    forall a, b | 0 <= a < b < |live| ensures live[a] in live && live[b] in live {
    }
  }

  // ---------------------------------------------------------------- ListOperations

  ghost predicate SortedRows(ops: seq<Summary>, rank: Record -> int) {
    forall a, b :: 0 <= a < b < |ops| ==> rank(Intent(ops[a].intent)) < rank(Intent(ops[b].intent))
  }

  /** Sorts the summaries by the ID of their intent record. */
  method SortRows(ops: seq<Summary>, rank: Record -> int) returns (sorted: seq<Summary>)
    requires forall r, s :: rank(r) == rank(s) ==> r == s
    requires forall a, b :: 0 <= a < b < |ops| ==> ops[a].intent.operationId != ops[b].intent.operationId
    ensures SortedRows(sorted, rank) && |sorted| == |ops| && forall s :: s in sorted <==> s in ops
  {
    var key := (s: Summary) => rank(Intent(s.intent));
    sorted := [];
    var n := 0;
    while n < |ops|
      invariant n <= |ops| && |sorted| == n && SortedByRank(sorted, key)
      invariant forall s :: s in sorted <==> s in ops[..n]
    {
      assert ops[..n + 1] == ops[..n] + [ops[n]];
      forall t | t in sorted ensures key(t) != key(ops[n]) {
        var a :| 0 <= a < n && ops[..n][a] == t;
        assert ops[a].intent.operationId != ops[n].intent.operationId;
      }
      sorted := Insert(sorted, ops[n], key);
      n := n + 1;
    }
    assert ops[..n] == ops;
    assert forall a, b :: 0 <= a < b < |sorted| ==> key(sorted[a]) < key(sorted[b]);
  }

  /** The intent a record of an inventory is about. */
  function Named(r: Record): Option<IntentRecord> {
    match r
    case Intent(i) => Some(i)
    case Retention(t) => Some(t.intent)
    case Forget(f) => Some(f.retention.intent)
    case _ => None
  }

  /** The operations the store knows of. */
  function Operations(s: set<Record>): set<IntentRecord> {
    set r | r in s && Named(r).Some? :: Named(r).value
  }

  /** The limits hold the three inventories, read twice each. */
  ghost predicate ListRoom(bound: Bound, s: set<Record>) {
    && RoomTwice(bound, s, IntentKind, 0) && RoomTwice(bound, s, RetentionKind, 0)
    && RoomTwice(bound, s, ForgetKind, 2 * StoredBytes(bound, s, RetentionKind))
  }

  lemma ListFits(bound: Bound, s: set<Record>, used: nat)
    ensures ListRoom(bound, s) ==> RoomTwice(bound, s, IntentKind, 0) && RoomTwice(bound, s, RetentionKind, 0)
    ensures ListRoom(bound, s) && used <= 2 * StoredBytes(bound, s, RetentionKind) ==> RoomTwice(bound, s, ForgetKind, used)
  {
    if ListRoom(bound, s) && used <= 2 * StoredBytes(bound, s, RetentionKind) {
      TwiceLess(bound, s, ForgetKind, 2 * StoredBytes(bound, s, RetentionKind), used);
    }
  }

  /** The inventory of operations exists, and the limits hold it and what finding it reads. */
  ghost predicate CanList(bound: Bound, s: set<Record>) {
    && WellFormed(s) && Agreeing(s) && Small(bound, s) && ListRoom(bound, s)
    && |Operations(s)| <= bound.limits.maxStatusRecords
  }

  lemma CanListIs(bound: Bound, s: set<Record>)
    ensures CanList(bound, s) ==>
              && WellFormed(s) && Agreeing(s) && Small(bound, s) && ListRoom(bound, s)
              && |Operations(s)| <= bound.limits.maxStatusRecords
  {
    hide WellFormed, Agreeing, Small, ListRoom, Operations;
  }

  lemma {:induction false} DistinctCount<T>(q: seq<T>, s: set<T>)
    requires (forall x :: x in q ==> x in s) && forall a, b :: 0 <= a < b < |q| ==> q[a] != q[b]
    ensures |q| <= |s|
  {
    if q != [] {
      var front, last := q[..|q| - 1], q[|q| - 1];
      forall x | x in front ensures x in s - {last} {
        var a :| 0 <= a < |front| && front[a] == x;
        assert q[a] == x && q[|q| - 1] == last;
      }
      DistinctCount(front, s - {last});
    }
  }

  /** There are at most as many rows as operations. */
  lemma RowsBounded(rows: seq<Summary>, s: set<Record>)
    requires forall a, b :: 0 <= a < b < |rows| ==> rows[a].intent.operationId != rows[b].intent.operationId
    ensures (forall row :: row in rows ==> StoreRow(row, s)) ==> |rows| <= |Operations(s)|
  {
    if forall row :: row in rows ==> StoreRow(row, s) {
      var intents := seq(|rows|, k requires 0 <= k < |rows| => rows[k].intent);
      forall i | i in intents ensures i in Operations(s) {
        var k :| 0 <= k < |rows| && intents[k] == i;
        assert rows[k] in rows;
        RowNamed(rows[k], s);
      }
      DistinctCount(intents, Operations(s));
    }
  }

  lemma RowNamed(row: Summary, s: set<Record>)
    requires StoreRow(row, s)
    ensures row.intent in Operations(s)
  {
    var r := if Intent(row.intent) in s then Intent(row.intent)
             else if row.retention.Some? then Retention(row.retention.value) else Record.Forget(row.forget.value);
    assert r in s && Named(r) == Some(row.intent);
  }

  /** The stores at the instants of the second listing of each inventory. */
  datatype Instants = Instants(live: set<Record>, retained: set<Record>, forgotten: set<Record>)

  /** Each inventory is complete for a store that was found between the two. */
  ghost predicate ListedAt(p: Log, q: Log, at: Instants, live: seq<IntentRecord>, retained: seq<RetentionRecord>, forgotten: seq<ForgetRecord>) {
    && Glimpsed(p, q, at.live) && ListsIntents(live, at.live)
    && Glimpsed(p, q, at.retained) && ListsTombstones(retained, at.retained)
    && Glimpsed(p, q, at.forgotten) && ListsMarkers(forgotten, at.forgotten)
  }

  /** The three verified inventories. */
  method ReadInventories(session: Session)
    returns (live: seq<IntentRecord>, retained: seq<RetentionRecord>, forgotten: seq<ForgetRecord>,
             intentBytes: nat, retentionBytes: nat, err: Option<Err>, ghost at: Instants)
    requires session.bound.Valid()
    modifies session.bound`records, session.bound`seen, session.bound`log
    ensures session.bound.Valid() && Later(old(session.bound.log), session.bound.log)
    ensures intentBytes <= session.bound.limits.maxStatusBytes && retentionBytes <= session.bound.limits.maxStatusBytes
    ensures err.None? ==> Distinct(live, IntentOperation) && Identified(retained, forgotten)
    ensures err != Some(Closed)
    ensures session.bound.exclusive ==> session.bound.records == old(session.bound.records)
    ensures err.None? ==> ListedAt(old(session.bound.log), session.bound.log, at, live, retained, forgotten)
    ensures session.bound.exclusive && err.None? ==> at == Instants(session.bound.records, session.bound.records, session.bound.records)
    ensures session.bound.exclusive && err.Some? ==>
              Inconclusive(err.value) || !WellFormed(session.bound.records) || !Agreeing(session.bound.records)
    ensures session.bound.exclusive && Calm(old(session.bound.log), session.bound.log) && Small(session.bound, session.bound.records) ==>
              (ListRoom(session.bound, session.bound.records) ==> Settled(err))
  {
    hide *;
    ListFits(session.bound, session.bound.records, 0);
    AnyInconclusive();
    LaterAlways();
    NotFoundLasts();
    var bound := session.bound;
    live, retained, forgotten, intentBytes, retentionBytes, err := [], [], [], 0, 0, None;
    at := Instants(bound.records, bound.records, bound.records);
    ghost var atLive, atRetained, atForgotten;
    live, intentBytes, err, atLive := ListLive(session);
    if err.Some? { return; }
    var tombstones, markers;
    tombstones, retentionBytes, err, atRetained := ListAllStable(session, RetentionKind, 0);
    if err.Some? { return; }
    ListFits(bound, bound.records, retentionBytes);
    markers, retentionBytes, err, atForgotten := ListAllStable(session, ForgetKind, retentionBytes);
    if err.Some? { return; }
    OfIntents(tombstones);
    OfIntents(markers);
    at := Instants(atLive, atRetained, atForgotten);
    retained, forgotten := Tombstones(tombstones), Markers(markers);
    AllInventories(old(bound.log), bound.log, at, live, tombstones, markers);
  }

  /**
    The inventory of operations: the full outer join of three inventories, each of them complete at
    the instant of its second listing, sorted by intent record ID.  In a store nobody else changes
    it fails, other than inconclusively, only if a record is invalid or an identity is duplicated
    or disagrees.
   */
  method ListOperations(session: Session)
    returns (ops: Option<seq<Summary>>, intentBytes: nat, retentionBytes: nat, err: Option<Err>,
             ghost live: seq<IntentRecord>, ghost retained: seq<RetentionRecord>, ghost forgotten: seq<ForgetRecord>, ghost at: Instants)
    requires session.bound.Valid()
    modifies session.bound`records, session.bound`seen, session.bound`log
    ensures session.bound.Valid() && Later(old(session.bound.log), session.bound.log)
    ensures err.None? <==> ops.Some?
    ensures intentBytes <= session.bound.limits.maxStatusBytes && retentionBytes <= session.bound.limits.maxStatusBytes
    ensures err == Some(Closed) <==> session.closed
    ensures err.None? ==> SortedRows(ops.value, session.bound.rank) && |ops.value| <= session.bound.limits.maxStatusRecords
    ensures err.None? ==>
              && ListedAt(old(session.bound.log), session.bound.log, at, live, retained, forgotten)
              && Consistent(live, retained, forgotten)
              && forall s :: s in ops.value <==> IsRow(s, live, retained, forgotten)
    ensures session.bound.exclusive ==> session.bound.records == old(session.bound.records)
    ensures session.bound.exclusive && err.None? ==>
              Agreeing(session.bound.records) && forall s :: s in ops.value <==> StoreRow(s, session.bound.records)
    ensures session.bound.exclusive && !session.closed && err.Some? ==>
              Inconclusive(err.value) || !WellFormed(session.bound.records) || !Agreeing(session.bound.records)
    // what can be listed is listed
    ensures session.bound.exclusive && Calm(old(session.bound.log), session.bound.log) && !session.closed ==>
              (CanList(session.bound, session.bound.records) ==> err.None?)
  {
    hide *;
    AnyInconclusive();
    LaterAlways();
    RanksDiffer(session.bound);
    CanListIs(session.bound, session.bound.records);
    var bound := session.bound;
    ops, intentBytes, retentionBytes, err := None, 0, 0, None;
    live, retained, forgotten, at := [], [], [], Instants(bound.records, bound.records, bound.records);
    if session.closed { err := Some(Closed); return; }
    var intents, tombstones, markers;
    intents, tombstones, markers, intentBytes, retentionBytes, err, at := ReadInventories(session);
    live, retained, forgotten := intents, tombstones, markers;
    if err.Some? { return; }
    var ok, rows := Join(intents, tombstones, markers);
    JoinOfStore(old(bound.log), bound.log, at, live, retained, forgotten);
    if !ok { err := Some(CorruptExchange); return; }
    if bound.exclusive { RowsBounded(rows, bound.records); }
    if |rows| > bound.limits.maxStatusRecords { err := Some(StatusIncomplete); return; }
    var sorted := SortRows(rows, bound.rank);
    ListedLater(old(bound.log), bound.log, at, live, retained, forgotten);
    var checked := bound.Recheck();
    if !checked { err := Some(Interrupted); return; }
    ops := Some(sorted);
  }

  lemma ListedLater(p: Log, q: Log, at: Instants, live: seq<IntentRecord>, retained: seq<RetentionRecord>, forgotten: seq<ForgetRecord>)
    requires ListedAt(p, q, at, live, retained, forgotten)
    ensures forall r :: Later(q, r) ==> ListedAt(p, r, at, live, retained, forgotten)
  {
    hide Glimpsed, Later, ListsIntents, ListsTombstones, ListsMarkers;
    LaterAlways();
  }

  lemma RanksDiffer(bound: Bound)
    requires bound.Valid()
    ensures forall r, s :: bound.rank(r) == bound.rank(s) ==> r == s
  {
  }

  lemma AllInventories(p: Log, q: Log, at: Instants, live: seq<IntentRecord>, retained: seq<Record>, forgotten: seq<Record>)
    requires (forall r :: r in retained ==> r.Retention? && Decodes(r)) && (forall r :: r in forgotten ==> r.Forget? && Decodes(r))
    requires Glimpsed(p, q, at.live) && Glimpsed(p, q, at.retained) && Glimpsed(p, q, at.forgotten)
    requires ListsIntents(live, at.live) && Enumerates(retained, at.retained, RetentionKind) && Enumerates(forgotten, at.forgotten, ForgetKind)
    ensures Identified(Tombstones(retained), Markers(forgotten))
    ensures ListedAt(p, q, at, live, Tombstones(retained), Markers(forgotten))
  {
    hide Decodes, Tombstones, Markers, Enumerates, ListsIntents, ListsTombstones, ListsMarkers, Glimpsed;
    TombstonesListed(at.retained, retained);
    MarkersListed(at.forgotten, forgotten);
  }

  lemma RetentionIdentity(r: RetentionRecord)
    ensures Decodes(Retention(r)) ==> r.operationId == r.intent.operationId
  {
    hide ValidIntent, ValidAttempt, ValidOutcome, AttemptMatchesIntent, OutcomeMatches;
  }

  lemma ForgetIdentity(f: ForgetRecord)
    ensures Decodes(Record.Forget(f)) ==> f.operationId == f.retention.intent.operationId
  {
    hide ValidIntent, ValidAttempt, ValidOutcome, AttemptMatchesIntent, OutcomeMatches;
  }

  lemma TombstonesListed(records: set<Record>, q: seq<Record>)
    requires forall r :: r in q ==> r.Retention? && Decodes(r)
    ensures forall r :: r in Tombstones(q) ==> r.operationId == r.intent.operationId
    ensures Enumerates(q, records, RetentionKind) ==> ListsTombstones(Tombstones(q), records)
  {
    hide Decodes;
    forall r ensures r in Tombstones(q) <==> Retention(r) in q {
      if r in Tombstones(q) {
        var k :| 0 <= k < |q| && Tombstones(q)[k] == r;
      }
      if Retention(r) in q {
        var k :| 0 <= k < |q| && q[k] == Retention(r);
      }
    }
    forall r | r in Tombstones(q) ensures r.operationId == r.intent.operationId {
      RetentionIdentity(r);
    }
  }

  lemma MarkersListed(records: set<Record>, q: seq<Record>)
    requires forall r :: r in q ==> r.Forget? && Decodes(r)
    ensures forall f :: f in Markers(q) ==> f.operationId == f.retention.intent.operationId
    ensures Enumerates(q, records, ForgetKind) ==> ListsMarkers(Markers(q), records)
  {
    hide Decodes;
    forall f ensures f in Markers(q) <==> Record.Forget(f) in q {
      if f in Markers(q) {
        var k :| 0 <= k < |q| && Markers(q)[k] == f;
      }
      if Record.Forget(f) in q {
        var k :| 0 <= k < |q| && q[k] == Record.Forget(f);
      }
    }
    forall f | f in Markers(q) ensures f.operationId == f.retention.intent.operationId {
      ForgetIdentity(f);
    }
  }

  lemma JoinOfStore(p: Log, q: Log, at: Instants, live: seq<IntentRecord>, retained: seq<RetentionRecord>, forgotten: seq<ForgetRecord>)
    requires ListedAt(p, q, at, live, retained, forgotten)
    ensures forall records :: at == Instants(records, records, records) ==>
              && (Consistent(live, retained, forgotten) <==> Agreeing(records))
              && forall s :: IsRow(s, live, retained, forgotten) <==> StoreRow(s, records)
  {
    if at.live == at.retained == at.forgotten {
      var records := at.live;
      AgreeingInventories(records, live, retained, forgotten);
      forall s ensures IsRow(s, live, retained, forgotten) <==> StoreRow(s, records) {
        RowsOfStore(records, live, retained, forgotten, s);
      }
    }
  }
}
