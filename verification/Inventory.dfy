/**
  The inventory of operations (`ListOperations` in internal/bonusexchange/repository.go): live
  intents, tombstones and forget markers joined by operation identity.
 */
module Inventory {
  import opened Basics
  import opened Records

  datatype ListStatus = NotInspected | PruningNotInspected | PrunedNotInspected | ForgettingNotInspected

  /** `intent` stands for the intent's record ID and the fields the summary copies from it. */
  datatype Summary = Summary(
    intent: IntentRecord, retention: Option<RetentionRecord>, forget: Option<ForgetRecord>, status: ListStatus)

  function StatusFor(live: bool, retained: bool, forgotten: bool): ListStatus {
    if forgotten then ForgettingNotInspected
    else if retained then (if live then PruningNotInspected else PrunedNotInspected)
    else NotInspected
  }

  // ---------------------------------------------------------------- the join, independently

  /** A row of the full outer join of the three inventories. */
  ghost predicate IsRow(s: Summary, live: seq<IntentRecord>, retained: seq<RetentionRecord>, forgotten: seq<ForgetRecord>) {
    && (s.intent in live || s.retention.Some? || s.forget.Some?)
    && (match s.retention
        case Some(r) => r in retained && r.intent == s.intent
        case None => forall r :: r in retained ==> r.intent != s.intent)
    && (match s.forget
        case Some(f) => f in forgotten && f.retention.intent == s.intent
        case None => forall f :: f in forgotten ==> f.retention.intent != s.intent)
    && s.status == StatusFor(s.intent in live, s.retention.Some?, s.forget.Some?)
  }

  function IntentOperation(i: IntentRecord): string { i.operationId }

  function RetentionOperation(r: RetentionRecord): string { r.operationId }

  function ForgetOperation(f: ForgetRecord): string { f.operationId }

  /** No operation identity occurs twice. */
  ghost predicate Distinct<T>(q: seq<T>, operation: T -> string) {
    forall a, b :: 0 <= a < b < |q| ==> operation(q[a]) != operation(q[b])
  }

  /** No operation identity twice in one inventory, and no disagreement between two of them. */
  ghost predicate Consistent(live: seq<IntentRecord>, retained: seq<RetentionRecord>, forgotten: seq<ForgetRecord>) {
    && Distinct(live, IntentOperation)
    && Distinct(retained, RetentionOperation)
    && Distinct(forgotten, ForgetOperation)
    && (forall i, r :: i in live && r in retained && i.operationId == r.operationId ==> r.intent == i)
    && (forall i, f :: i in live && f in forgotten && i.operationId == f.operationId ==> f.retention.intent == i)
    && (forall r, f :: r in retained && f in forgotten && r.operationId == f.operationId ==> f.retention == r)
  }

  // ---------------------------------------------------------------- the index

  /** The index maps every operation identity to the one summary that has it. */
  ghost predicate Indexed(ops: seq<Summary>, index: map<string, nat>) {
    && (forall op :: op in index ==> index[op] < |ops| && ops[index[op]].intent.operationId == op)
    && (forall k :: 0 <= k < |ops| ==> ops[k].intent.operationId in index && index[ops[k].intent.operationId] == k)
  }

  /** Every record is found in the row of its operation. */
  ghost predicate Placed(ops: seq<Summary>, index: map<string, nat>, live: seq<IntentRecord>,
                         retained: seq<RetentionRecord>, forgotten: seq<ForgetRecord>)
    requires Indexed(ops, index)
  {
    && (forall i :: i in live ==> i.operationId in index && ops[index[i.operationId]].intent == i)
    && (forall r :: r in retained ==>
          r.intent.operationId in index && ops[index[r.intent.operationId]].intent == r.intent
          && ops[index[r.intent.operationId]].retention == Some(r))
    && (forall f :: f in forgotten ==>
          f.retention.intent.operationId in index && ops[index[f.retention.intent.operationId]].intent == f.retention.intent
          && ops[index[f.retention.intent.operationId]].forget == Some(f))
  }

  /** Every row comes from records. */
  ghost predicate AllSourced(ops: seq<Summary>, live: seq<IntentRecord>, retained: seq<RetentionRecord>, forgotten: seq<ForgetRecord>) {
    forall k :: 0 <= k < |ops| ==> Sourced(ops[k], live, retained, forgotten)
  }

  /** What the summaries hold after some records of each inventory. */
  ghost predicate Joined(ops: seq<Summary>, index: map<string, nat>, live: seq<IntentRecord>,
                         retained: seq<RetentionRecord>, forgotten: seq<ForgetRecord>) {
    Indexed(ops, index) && Placed(ops, index, live, retained, forgotten) && AllSourced(ops, live, retained, forgotten)
  }

  ghost predicate Sourced(s: Summary, live: seq<IntentRecord>, retained: seq<RetentionRecord>, forgotten: seq<ForgetRecord>) {
    && (s.intent in live || s.retention.Some? || s.forget.Some?)
    && (s.retention.Some? ==> s.retention.value in retained && s.retention.value.intent == s.intent)
    && (s.forget.Some? ==> s.forget.value in forgotten && s.forget.value.retention.intent == s.intent)
    && (s.retention.Some? && s.forget.Some? ==> s.forget.value.retention == s.retention.value)
    && s.status == StatusFor(s.intent in live, s.retention.Some?, s.forget.Some?)
  }

  lemma JoinedRow(ops: seq<Summary>, index: map<string, nat>, live: seq<IntentRecord>,
                  retained: seq<RetentionRecord>, forgotten: seq<ForgetRecord>, s: Summary)
    requires Joined(ops, index, live, retained, forgotten)
    ensures s in ops ==> IsRow(s, live, retained, forgotten)
  {
    if s in ops {
      var k :| 0 <= k < |ops| && ops[k] == s;
      assert Sourced(ops[k], live, retained, forgotten);
    }
  }

  lemma RowJoined(ops: seq<Summary>, index: map<string, nat>, live: seq<IntentRecord>,
                  retained: seq<RetentionRecord>, forgotten: seq<ForgetRecord>, s: Summary)
    requires Joined(ops, index, live, retained, forgotten) && IsRow(s, live, retained, forgotten)
    ensures s in ops
  {
    var t := ops[index[s.intent.operationId]];
    assert Sourced(t, live, retained, forgotten);
    assert t == s;
  }

  lemma JoinedRows(ops: seq<Summary>, index: map<string, nat>, live: seq<IntentRecord>,
                   retained: seq<RetentionRecord>, forgotten: seq<ForgetRecord>)
    requires Joined(ops, index, live, retained, forgotten)
    ensures forall s :: s in ops <==> IsRow(s, live, retained, forgotten)
  {
    hide *;
    forall s ensures s in ops <==> IsRow(s, live, retained, forgotten) {
      JoinedRow(ops, index, live, retained, forgotten, s);
      if IsRow(s, live, retained, forgotten) { RowJoined(ops, index, live, retained, forgotten, s); }
    }
  }

  // ---------------------------------------------------------------- one record at a time

  ghost predicate Identified(retained: seq<RetentionRecord>, forgotten: seq<ForgetRecord>) {
    && (forall r :: r in retained ==> r.operationId == r.intent.operationId)
    && (forall f :: f in forgotten ==> f.operationId == f.retention.intent.operationId)
  }

  lemma AddRow(ops: seq<Summary>, index: map<string, nat>, s: Summary)
    requires Indexed(ops, index) && s.intent.operationId !in index
    ensures Indexed(ops + [s], index[s.intent.operationId := |ops|])
    ensures forall op :: op in index ==> (ops + [s])[index[s.intent.operationId := |ops|][op]] == ops[index[op]]
  {
  }

  /** The rows elsewhere are found where they were. */
  lemma ReplaceRow(ops: seq<Summary>, index: map<string, nat>, op: string, s: Summary)
    requires Indexed(ops, index) && op in index && s.intent == ops[index[op]].intent
    ensures Indexed(ops[index[op] := s], index)
    ensures forall o :: o in index && o != op ==> ops[index[op] := s][index[o]] == ops[index[o]]
  {
  }

  lemma AddLive(ops: seq<Summary>, index: map<string, nat>, live: seq<IntentRecord>, i: IntentRecord)
    requires Joined(ops, index, live, [], []) && i.operationId !in index
    ensures Joined(ops + [Summary(i, None, None, NotInspected)], index[i.operationId := |ops|], live + [i], [], [])
    ensures forall j :: j in live ==> j.operationId != i.operationId
  {
    hide Indexed;
    AddRow(ops, index, Summary(i, None, None, NotInspected));
  }

  lemma AddRetained(ops: seq<Summary>, index: map<string, nat>, live: seq<IntentRecord>, retained: seq<RetentionRecord>, r: RetentionRecord)
    requires Joined(ops, index, live, retained, []) && r.intent.operationId !in index
    ensures Joined(ops + [Summary(r.intent, Some(r), None, PrunedNotInspected)], index[r.intent.operationId := |ops|],
                   live, retained + [r], [])
    ensures forall t :: t in retained ==> t.intent.operationId != r.intent.operationId
  {
    hide Indexed;
    AddRow(ops, index, Summary(r.intent, Some(r), None, PrunedNotInspected));
  }

  lemma MergeRetained(ops: seq<Summary>, index: map<string, nat>, live: seq<IntentRecord>, retained: seq<RetentionRecord>, r: RetentionRecord)
    requires Joined(ops, index, live, retained, []) && r.intent.operationId in index
    requires var s := ops[index[r.intent.operationId]]; s.intent == r.intent && s.retention.None?
    ensures var k := index[r.intent.operationId];
            Joined(ops[k := ops[k].(retention := Some(r), status := PruningNotInspected)], index, live, retained + [r], [])
    ensures forall t :: t in retained ==> t.intent.operationId != r.intent.operationId
  {
  }

  lemma ConflictRetained(ops: seq<Summary>, index: map<string, nat>, live: seq<IntentRecord>, retained: seq<RetentionRecord>,
                         forgotten: seq<ForgetRecord>, n: nat)
    requires n < |retained| && Identified(retained, forgotten)
    requires Joined(ops, index, live, retained[..n], []) && retained[n].operationId in index
    requires var s := ops[index[retained[n].operationId]]; s.intent != retained[n].intent || s.retention.Some?
    ensures !Consistent(live, retained, forgotten)
  {
    var s := ops[index[retained[n].operationId]];
    assert Sourced(s, live, retained[..n], []);
    assert retained[n] in retained;
    if s.retention.Some? {
      var a :| 0 <= a < n && retained[..n][a] == s.retention.value;
      assert retained[a] in retained;
    }
  }

  lemma AddForgotten(ops: seq<Summary>, index: map<string, nat>, live: seq<IntentRecord>, retained: seq<RetentionRecord>,
                     forgotten: seq<ForgetRecord>, f: ForgetRecord)
    requires Joined(ops, index, live, retained, forgotten) && f.retention.intent.operationId !in index
    ensures Joined(ops + [Summary(f.retention.intent, None, Some(f), ForgettingNotInspected)],
                   index[f.retention.intent.operationId := |ops|], live, retained, forgotten + [f])
    ensures forall t :: t in forgotten ==> t.retention.intent.operationId != f.retention.intent.operationId
  {
    hide Indexed;
    AddRow(ops, index, Summary(f.retention.intent, None, Some(f), ForgettingNotInspected));
  }

  lemma ForgetPlaced(ops: seq<Summary>, index: map<string, nat>, live: seq<IntentRecord>, retained: seq<RetentionRecord>,
                     forgotten: seq<ForgetRecord>, f: ForgetRecord)
    requires Indexed(ops, index) && Placed(ops, index, live, retained, forgotten) && f.retention.intent.operationId in index
    requires var s := ops[index[f.retention.intent.operationId]]; s.intent == f.retention.intent && s.forget.None?
    ensures var k := index[f.retention.intent.operationId];
            var ops' := ops[k := ops[k].(forget := Some(f), status := ForgettingNotInspected)];
            Indexed(ops', index) && Placed(ops', index, live, retained, forgotten + [f])
    ensures forall t :: t in forgotten ==> t.retention.intent.operationId != f.retention.intent.operationId
  {
    var op := f.retention.intent.operationId;
    ReplaceRow(ops, index, op, ops[index[op]].(forget := Some(f), status := ForgettingNotInspected));
  }

  lemma ForgetSourced(ops: seq<Summary>, k: nat, live: seq<IntentRecord>, retained: seq<RetentionRecord>,
                      forgotten: seq<ForgetRecord>, f: ForgetRecord)
    requires AllSourced(ops, live, retained, forgotten) && k < |ops|
    requires ops[k].intent == f.retention.intent && ops[k].forget.None? && (ops[k].retention.Some? ==> ops[k].retention.value == f.retention)
    ensures AllSourced(ops[k := ops[k].(forget := Some(f), status := ForgettingNotInspected)], live, retained, forgotten + [f])
  {
  }

  lemma MergeForgotten(ops: seq<Summary>, index: map<string, nat>, live: seq<IntentRecord>, retained: seq<RetentionRecord>,
                       forgotten: seq<ForgetRecord>, f: ForgetRecord)
    requires Joined(ops, index, live, retained, forgotten) && f.retention.intent.operationId in index
    requires var s := ops[index[f.retention.intent.operationId]];
             s.intent == f.retention.intent && s.forget.None? && (s.retention.Some? ==> s.retention.value == f.retention)
    ensures var k := index[f.retention.intent.operationId];
            Joined(ops[k := ops[k].(forget := Some(f), status := ForgettingNotInspected)], index, live, retained, forgotten + [f])
    ensures forall t :: t in forgotten ==> t.retention.intent.operationId != f.retention.intent.operationId
  {
    hide Placed, AllSourced;
    var op := f.retention.intent.operationId;
    var s := ops[index[op]].(forget := Some(f), status := ForgettingNotInspected);
    ReplaceRow(ops, index, op, s);
    ForgetPlaced(ops, index, live, retained, forgotten, f);
    ForgetSourced(ops, index[op], live, retained, forgotten, f);
  }

  lemma ConflictForgotten(ops: seq<Summary>, index: map<string, nat>, live: seq<IntentRecord>, retained: seq<RetentionRecord>,
                          forgotten: seq<ForgetRecord>, n: nat)
    requires n < |forgotten| && Identified(retained, forgotten)
    requires Joined(ops, index, live, retained, forgotten[..n]) && forgotten[n].operationId in index
    requires var s := ops[index[forgotten[n].operationId]];
             s.intent != forgotten[n].retention.intent || s.forget.Some? || (s.retention.Some? && s.retention.value != forgotten[n].retention)
    ensures !Consistent(live, retained, forgotten)
  {
    var s := ops[index[forgotten[n].operationId]];
    assert Sourced(s, live, retained, forgotten[..n]);
    assert forgotten[n] in forgotten;
    if s.forget.Some? {
      var a :| 0 <= a < n && forgotten[..n][a] == s.forget.value;
      assert forgotten[a] in forgotten;
    }
  }

  lemma OneMore<T>(q: seq<T>, x: T, operation: T -> string)
    requires Distinct(q, operation) && forall y :: y in q ==> operation(y) != operation(x)
    ensures Distinct(q + [x], operation)
  {
    assert forall k :: 0 <= k < |q| ==> q[k] in q;
  }

  lemma NoneYet<T>(q: seq<T>, operation: T -> string)
    ensures q[..0] == [] && Distinct(q[..0], operation)
  {
  }

  lemma NextOne<T>(q: seq<T>, n: nat)
    requires n < |q|
    ensures q[n] in q && q[..n + 1] == q[..n] + [q[n]]
  {
  }

  lemma IndexAt(ops: seq<Summary>, index: map<string, nat>, live: seq<IntentRecord>,
                retained: seq<RetentionRecord>, forgotten: seq<ForgetRecord>, op: string)
    requires Joined(ops, index, live, retained, forgotten) && op in index
    ensures index[op] < |ops|
  {
    hide Sourced;
  }

  /** An indexed identity belongs to a record already seen. */
  lemma IndexedBefore(ops: seq<Summary>, index: map<string, nat>, live: seq<IntentRecord>, op: string)
    requires Joined(ops, index, live, [], []) && op in index
    ensures exists a :: 0 <= a < |live| && live[a].operationId == op
  {
    var s := ops[index[op]];
    assert Sourced(s, live, [], []);
    var a :| 0 <= a < |live| && live[a] == s.intent;
  }

  lemma NotYetIndexed(ops: seq<Summary>, index: map<string, nat>, live: seq<IntentRecord>, n: nat)
    requires n < |live| && Distinct(live, IntentOperation) && Joined(ops, index, live[..n], [], [])
    ensures live[n].operationId !in index
  {
    hide Joined;
    assert forall a :: 0 <= a < n ==> live[..n][a].operationId != live[n].operationId;
    forall op | op in index ensures op != live[n].operationId {
      IndexedBefore(ops, index, live[..n], op);
    }
  }

  lemma JoinedConsistent(ops: seq<Summary>, index: map<string, nat>, live: seq<IntentRecord>,
                         retained: seq<RetentionRecord>, forgotten: seq<ForgetRecord>)
    requires Joined(ops, index, live, retained, forgotten) && Identified(retained, forgotten)
    requires Distinct(live, IntentOperation) && Distinct(retained, RetentionOperation) && Distinct(forgotten, ForgetOperation)
    ensures Consistent(live, retained, forgotten)
  {
    forall r, f | r in retained && f in forgotten && r.operationId == f.operationId ensures f.retention == r {
      assert Sourced(ops[index[r.intent.operationId]], live, retained, forgotten);
    }
  }

  // ---------------------------------------------------------------- the join, as it is computed

  /** The rows of the live intents, whose identities were found distinct when they were loaded. */
  method IndexLive(live: seq<IntentRecord>) returns (ops: seq<Summary>, index: map<string, nat>)
    requires Distinct(live, IntentOperation)
    ensures Joined(ops, index, live, [], [])
  {
    ops, index := [], map[];
    var n := 0;
    while n < |live|
      invariant n <= |live| && Joined(ops, index, live[..n], [], [])
    {
      var i := live[n];
      NotYetIndexed(ops, index, live, n);
      AddLive(ops, index, live[..n], i);
      ops, index := ops + [Summary(i, None, None, NotInspected)], index[i.operationId := |ops|];
      assert live[..n + 1] == live[..n] + [i];
      n := n + 1;
    }
    assert live[..n] == live;
  }

  lemma JoinMergeRetained(ops: seq<Summary>, index: map<string, nat>, live: seq<IntentRecord>, retained: seq<RetentionRecord>, n: nat)
    requires n < |retained| && Identified(retained, []) && Distinct(retained[..n], RetentionOperation)
    requires Joined(ops, index, live, retained[..n], []) && retained[n].operationId in index
    requires var s := ops[index[retained[n].operationId]]; s.intent == retained[n].intent && s.retention.None?
    ensures var k := index[retained[n].operationId];
            Joined(ops[k := ops[k].(retention := Some(retained[n]), status := PruningNotInspected)], index, live, retained[..n + 1], [])
    ensures Distinct(retained[..n + 1], RetentionOperation)
  {
    hide Joined, Distinct;
    NextOne(retained, n);
    MergeRetained(ops, index, live, retained[..n], retained[n]);
    OneMore(retained[..n], retained[n], RetentionOperation);
  }

  lemma JoinAddRetained(ops: seq<Summary>, index: map<string, nat>, live: seq<IntentRecord>, retained: seq<RetentionRecord>, n: nat)
    requires n < |retained| && Identified(retained, []) && Distinct(retained[..n], RetentionOperation)
    requires Joined(ops, index, live, retained[..n], []) && retained[n].operationId !in index
    ensures Joined(ops + [Summary(retained[n].intent, Some(retained[n]), None, PrunedNotInspected)],
                   index[retained[n].operationId := |ops|], live, retained[..n + 1], [])
    ensures Distinct(retained[..n + 1], RetentionOperation)
  {
    hide Joined, Distinct;
    NextOne(retained, n);
    AddRetained(ops, index, live, retained[..n], retained[n]);
    OneMore(retained[..n], retained[n], RetentionOperation);
  }

  method JoinRetained(ops0: seq<Summary>, index0: map<string, nat>, live: seq<IntentRecord>, retained: seq<RetentionRecord>)
    returns (ok: bool, ops: seq<Summary>, index: map<string, nat>)
    requires Joined(ops0, index0, live, [], []) && Identified(retained, [])
    ensures ok ==> Joined(ops, index, live, retained, []) && Distinct(retained, RetentionOperation)
    ensures !ok ==> forall forgotten :: Identified(retained, forgotten) ==> !Consistent(live, retained, forgotten)
  {
    hide *;
    NoneYet(retained, RetentionOperation);
    ops, index := ops0, index0;
    var n := 0;
    while n < |retained|
      invariant n <= |retained| && Joined(ops, index, live, retained[..n], []) && Distinct(retained[..n], RetentionOperation)
    {
      var r := retained[n];
      if r.operationId in index {
        IndexAt(ops, index, live, retained[..n], [], r.operationId);
        var k := index[r.operationId];
        if ops[k].intent != r.intent || ops[k].retention.Some? {
          forall forgotten | Identified(retained, forgotten) ensures !Consistent(live, retained, forgotten) {
            ConflictRetained(ops, index, live, retained, forgotten, n);
          }
          return false, ops, index;
        }
        JoinMergeRetained(ops, index, live, retained, n);
        ops := ops[k := ops[k].(retention := Some(r), status := PruningNotInspected)];
      } else {
        JoinAddRetained(ops, index, live, retained, n);
        ops, index := ops + [Summary(r.intent, Some(r), None, PrunedNotInspected)], index[r.operationId := |ops|];
      }
      n := n + 1;
    }
    assert retained[..n] == retained;
    ok := true;
  }

  lemma JoinMergeForgotten(ops: seq<Summary>, index: map<string, nat>, live: seq<IntentRecord>, retained: seq<RetentionRecord>,
                           forgotten: seq<ForgetRecord>, n: nat)
    requires n < |forgotten| && Identified(retained, forgotten) && Distinct(forgotten[..n], ForgetOperation)
    requires Joined(ops, index, live, retained, forgotten[..n]) && forgotten[n].operationId in index
    requires var f, s := forgotten[n], ops[index[forgotten[n].operationId]];
             s.intent == f.retention.intent && s.forget.None? && (s.retention.Some? ==> s.retention.value == f.retention)
    ensures var k := index[forgotten[n].operationId];
            Joined(ops[k := ops[k].(forget := Some(forgotten[n]), status := ForgettingNotInspected)], index, live, retained, forgotten[..n + 1])
    ensures Distinct(forgotten[..n + 1], ForgetOperation)
  {
    hide Joined, Distinct;
    NextOne(forgotten, n);
    MergeForgotten(ops, index, live, retained, forgotten[..n], forgotten[n]);
    OneMore(forgotten[..n], forgotten[n], ForgetOperation);
  }

  lemma JoinAddForgotten(ops: seq<Summary>, index: map<string, nat>, live: seq<IntentRecord>, retained: seq<RetentionRecord>,
                         forgotten: seq<ForgetRecord>, n: nat)
    requires n < |forgotten| && Identified(retained, forgotten) && Distinct(forgotten[..n], ForgetOperation)
    requires Joined(ops, index, live, retained, forgotten[..n]) && forgotten[n].operationId !in index
    ensures Joined(ops + [Summary(forgotten[n].retention.intent, None, Some(forgotten[n]), ForgettingNotInspected)],
                   index[forgotten[n].operationId := |ops|], live, retained, forgotten[..n + 1])
    ensures Distinct(forgotten[..n + 1], ForgetOperation)
  {
    hide Joined, Distinct;
    NextOne(forgotten, n);
    AddForgotten(ops, index, live, retained, forgotten[..n], forgotten[n]);
    OneMore(forgotten[..n], forgotten[n], ForgetOperation);
  }

  method JoinForgotten(ops0: seq<Summary>, index0: map<string, nat>, live: seq<IntentRecord>,
                       retained: seq<RetentionRecord>, forgotten: seq<ForgetRecord>)
    returns (ok: bool, ops: seq<Summary>, index: map<string, nat>)
    requires Joined(ops0, index0, live, retained, []) && Identified(retained, forgotten)
    ensures ok ==> Joined(ops, index, live, retained, forgotten) && Distinct(forgotten, ForgetOperation)
    ensures !ok ==> !Consistent(live, retained, forgotten)
  {
    hide *;
    NoneYet(forgotten, ForgetOperation);
    ops, index := ops0, index0;
    var n := 0;
    while n < |forgotten|
      invariant n <= |forgotten| && Joined(ops, index, live, retained, forgotten[..n]) && Distinct(forgotten[..n], ForgetOperation)
    {
      var f := forgotten[n];
      if f.operationId in index {
        IndexAt(ops, index, live, retained, forgotten[..n], f.operationId);
        var k := index[f.operationId];
        if ops[k].intent != f.retention.intent || ops[k].forget.Some?
           || (ops[k].retention.Some? && ops[k].retention.value != f.retention) {
          ConflictForgotten(ops, index, live, retained, forgotten, n);
          return false, ops, index;
        }
        JoinMergeForgotten(ops, index, live, retained, forgotten, n);
        ops := ops[k := ops[k].(forget := Some(f), status := ForgettingNotInspected)];
      } else {
        JoinAddForgotten(ops, index, live, retained, forgotten, n);
        ops, index := ops + [Summary(f.retention.intent, None, Some(f), ForgettingNotInspected)], index[f.operationId := |ops|];
      }
      n := n + 1;
    }
    assert forgotten[..n] == forgotten;
    ok := true;
  }

  /** The full outer join; it fails exactly when an identity is duplicated or disagrees. */
  method Join(live: seq<IntentRecord>, retained: seq<RetentionRecord>, forgotten: seq<ForgetRecord>)
    returns (ok: bool, ops: seq<Summary>)
    requires Identified(retained, forgotten) && Distinct(live, IntentOperation)
    ensures ok <==> Consistent(live, retained, forgotten)
    ensures ok ==> forall s :: s in ops <==> IsRow(s, live, retained, forgotten)
    ensures ok ==> forall a, b :: 0 <= a < b < |ops| ==> ops[a].intent.operationId != ops[b].intent.operationId
  {
    hide Joined, Distinct, Consistent, IsRow;
    var index;
    ops, index := IndexLive(live);
    ok, ops, index := JoinRetained(ops, index, live, retained);
    if !ok { return false, []; }
    ok, ops, index := JoinForgotten(ops, index, live, retained, forgotten);
    if !ok { return false, []; }
    JoinedConsistent(ops, index, live, retained, forgotten);
    JoinedRows(ops, index, live, retained, forgotten);
    JoinedOnce(ops, index, live, retained, forgotten);
  }

  lemma JoinedOnce(ops: seq<Summary>, index: map<string, nat>, live: seq<IntentRecord>,
                   retained: seq<RetentionRecord>, forgotten: seq<ForgetRecord>)
    requires Joined(ops, index, live, retained, forgotten)
    ensures forall a, b :: 0 <= a < b < |ops| ==> ops[a].intent.operationId != ops[b].intent.operationId
  {
  }
}
