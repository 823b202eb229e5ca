/**
  Sequences of sequential calls, any of which may have crashed anywhere: what resuming a prune or
  a forget leads to, and what the whole life of one operation leaves behind.
 */
module Recovery {
  import opened Basics
  import opened Records
  import opened Program
  import opened Metastore
  import opened Sequential

  // ---------------------------------------------------------------- Prune

  /** The receipt and error of one call. */
  datatype CallResult = CallResult(receipt: RetentionReceipt, err: Option<Err>)

  /** Prunes of one operation, one after the other, each complete, failed or crashed. */
  ghost predicate PruneCalls(stores: seq<set<Record>>, results: seq<CallResult>, i: IntentRecord, op: string) {
    && |stores| == |results| + 1
    && forall k {:trigger results[k]} :: 0 <= k < |results| ==>
         PruneEffect(stores[k], stores[k + 1], i, op, results[k].receipt, results[k].err)
  }

  lemma ChainKinds(r: RetentionRecord)
    requires ValidRetention(r)
    ensures Original(r, 0) == Intent(r.intent) && Original(r, 1) == Attempt(r.attempt) && Original(r, 2) == Outcome(r.outcome)
    ensures r.attempt == AttemptFromIntent(r.intent)
  {
    hide ValidIntent, ValidAttempt, OutcomeMatches, AttemptMatchesIntent, ValidOutcome;
    RetentionDeterministic(r);
  }

  /** Every stage of a prune can be resumed, with the same tombstone. */
  lemma StagePrunable(s: set<Record>, i: IntentRecord, op: string, r: RetentionRecord, k: nat)
    requires Prunable(s, i, op, r)
    ensures Prunable(PruneStage(s, r, k), i, op, r)
    ensures WellFormed(s) ==> WellFormed(PruneStage(s, r, k))
  {
    ChainKinds(r);
    hide ValidRetention, TheOutcome;
    var s' := PruneStage(s, r, k);
    assert forall t :: t in s' ==> t in s || t == Retention(r);
    assert Retention(r) in s';
    StageSelects(s, s', i, op, r);
  }

  lemma StageSelects(s: set<Record>, s': set<Record>, i: IntentRecord, op: string, r: RetentionRecord)
    requires forall t :: t in s' ==> t in s || t == Retention(r)
    requires Retention(r) in s' && r.intent == i && r.intentRef == IntentRef(i)
    ensures Selected(s, PruneForget(i, op), None) ==> Selected(s', PruneForget(i, op), None)
    ensures Selected(s, PruneRetention(i, op), None) || Selected(s, PruneRetention(i, op), Some(Retention(r))) ==>
              Selected(s', PruneRetention(i, op), Some(Retention(r)))
  {
  }

  /** Two stages after each other are the later one. */
  lemma StageOfStage(s: set<Record>, r: RetentionRecord, j: nat, k: nat)
    requires ValidRetention(r) && j <= 3 && k <= 3
    ensures PruneStage(PruneStage(s, r, j), r, k) == PruneStage(s, r, if j < k then k else j)
  {
    ChainKinds(r);
    hide ValidRetention, Original;
    assert FirstOriginals(r, j) <= FirstOriginals(r, if j < k then k else j);
    assert FirstOriginals(r, k) <= FirstOriginals(r, if j < k then k else j);
    assert forall t :: t in FirstOriginals(r, if j < k then k else j) ==> t in FirstOriginals(r, j) || t in FirstOriginals(r, k);
    assert Retention(r) !in FirstOriginals(r, 3) && Retention(r) !in FirstOriginals(r, j);
  }

  /** The store is the old one, or at some stage of this tombstone's prune. */
  ghost predicate AtStage(s: set<Record>, s': set<Record>, r: RetentionRecord) {
    s' == s || exists k: nat :: k <= 3 && s' == PruneStage(s, r, k)
  }

  lemma OnePrune(s: set<Record>, s': set<Record>, i: IntentRecord, op: string, r: RetentionRecord, result: CallResult)
    requires Prunable(s, i, op, r) && PruneEffect(s, s', i, op, result.receipt, result.err)
    ensures AtStage(s, s', r) && (result.err.None? ==> s' == PruneStage(s, r, 3))
    ensures Prunable(s', i, op, r) && (WellFormed(s) ==> WellFormed(s'))
  {
    hide Prunable, WellFormed, PruneStage;
    if result.receipt.retention.Some? {
      PrunableUnique(s, i, op, r, result.receipt.retention.value);
      var n := |result.receipt.removals|;
      StagePrunable(s, i, op, r, n);
      if 0 < n { StagePrunable(s, i, op, r, n - 1); }
    }
  }

  /** Some call among the first `n` reported success. */
  ghost predicate Succeeded(results: seq<CallResult>, n: nat)
    requires n <= |results|
  {
    exists k :: 0 <= k < n && results[k].err.None?
  }

  /**
    Prune resumes: however many prunes of the operation crashed wherever they did, the store is at
    some stage of the same tombstone, the next prune can go on, and once one succeeds the store is
    what a single uninterrupted prune of the first store leaves, for good.
   */
  lemma {:induction false} PruneResumes(stores: seq<set<Record>>, results: seq<CallResult>, i: IntentRecord, op: string,
                                        r: RetentionRecord, n: nat)
    requires PruneCalls(stores, results, i, op) && Prunable(stores[0], i, op, r) && n <= |results|
    ensures AtStage(stores[0], stores[n], r) && Prunable(stores[n], i, op, r)
    ensures WellFormed(stores[0]) ==> WellFormed(stores[n]) && !NothingToPrune(stores[n], i, op)
    ensures Succeeded(results, n) ==> stores[n] == PruneStage(stores[0], r, 3)
  {
    hide Prunable, WellFormed, PruneEffect, PruneStage, NothingToPrune;
    if n > 0 {
      PruneResumes(stores, results, i, op, r, n - 1);
      PruneGoesOn(stores, results, i, op, r, n - 1);
    }
    CanPrune(stores[n], i, op, r);
  }

  lemma PruneGoesOn(stores: seq<set<Record>>, results: seq<CallResult>, i: IntentRecord, op: string, r: RetentionRecord, n: nat)
    requires PruneCalls(stores, results, i, op) && n < |results|
    requires AtStage(stores[0], stores[n], r) && Prunable(stores[n], i, op, r)
    requires Succeeded(results, n) ==> stores[n] == PruneStage(stores[0], r, 3)
    ensures AtStage(stores[0], stores[n + 1], r) && Prunable(stores[n + 1], i, op, r)
    ensures WellFormed(stores[n]) ==> WellFormed(stores[n + 1])
    ensures Succeeded(results, n + 1) ==> stores[n + 1] == PruneStage(stores[0], r, 3)
  {
    var result := results[n];
    PrunableValid(stores[n], i, op, r);
    hide PruneEffect, Prunable, WellFormed, PruneStage, ValidRetention, AtStage;
    OnePrune(stores[n], stores[n + 1], i, op, r, result);
    AtStageTrans(stores[0], stores[n], stores[n + 1], r);
  }

  lemma PrunableValid(s: set<Record>, i: IntentRecord, op: string, r: RetentionRecord)
    requires Prunable(s, i, op, r)
    ensures ValidRetention(r)
  {
  }

  lemma CanPrune(s: set<Record>, i: IntentRecord, op: string, r: RetentionRecord)
    requires Prunable(s, i, op, r)
    ensures WellFormed(s) ==> !NothingToPrune(s, i, op)
  {
    hide Prunable, WellFormed;
  }

  lemma AtStageTrans(s: set<Record>, t: set<Record>, u: set<Record>, r: RetentionRecord)
    requires ValidRetention(r) && AtStage(s, t, r) && AtStage(t, u, r)
    ensures AtStage(s, u, r)
    ensures t == PruneStage(s, r, 3) || u == PruneStage(t, r, 3) ==> u == PruneStage(s, r, 3)
  {
    StageOfStage(s, r, 3, 3);
    if t != s {
      var j: nat :| j <= 3 && t == PruneStage(s, r, j);
      StageOfStage(s, r, j, 3);
      if u != t {
        var k: nat :| k <= 3 && u == PruneStage(t, r, k);
        StageOfStage(s, r, j, k);
        if t == PruneStage(s, r, 3) { StageOfStage(s, r, 3, k); }
      }
    }
  }

  /** A completed prune replaces exactly the chain by the tombstone; nothing else changes. */
  lemma PruneTouches(s: set<Record>, r: RetentionRecord, t: Record)
    requires ValidRetention(r)
    ensures t in PruneStage(s, r, 3) <==>
              t == Retention(r) || (t in s && t != Intent(r.intent) && t != Marker(r.intent) && t != Outcome(r.outcome))
  {
    hide ValidRetention;
    ChainKinds(r);
  }

  // ---------------------------------------------------------------- Forget

  /** Forgets of one tombstone, one after the other, each complete, failed or crashed. */
  ghost predicate ForgetCalls(stores: seq<set<Record>>, results: seq<CallResult>, r: RetentionRecord, op: string) {
    && |stores| == |results| + 1
    && forall k {:trigger results[k]} :: 0 <= k < |results| ==>
         ForgetEffect(stores[k], stores[k + 1], r, op, results[k].receipt, results[k].err)
  }

  /** Before the last removal: the marker or the tombstone is there, so the call can be repeated. */
  ghost predicate Forgetting(s: set<Record>, s': set<Record>, r: RetentionRecord) {
    s' == s || s' == ForgetStage(s, r, 0) || s' == ForgetStage(s, r, 1)
  }

  lemma ForgettingStays(s: set<Record>, s': set<Record>, r: RetentionRecord, op: string)
    requires Forgettable(s, r, op) && Forgetting(s, s', r)
    ensures Forgettable(s', r, op) && (Retention(r) in s' || Forget(ForgetFor(r)) in s')
    ensures WellFormed(s) ==> WellFormed(s')
  {
    ChainKinds(r);
    ForgetDeterministic(ForgetFor(r));
    assert Decodes(Forget(ForgetFor(r)));
  }

  lemma ForgettingTrans(s: set<Record>, t: set<Record>, u: set<Record>, r: RetentionRecord)
    requires Forgetting(s, t, r)
    ensures Forgetting(t, u, r) ==> Forgetting(s, u, r)
    ensures ForgetStage(t, r, 2) == ForgetStage(s, r, 2)
  {
    hide ForgetFor;
  }

  lemma OneForget(s: set<Record>, s': set<Record>, r: RetentionRecord, op: string, result: CallResult)
    requires ForgetEffect(s, s', r, op, result.receipt, result.err)
    ensures Forgetting(s, s', r) || s' == ForgetStage(s, r, 2)
    ensures result.err.None? ==> s' == ForgetStage(s, r, 2)
    ensures !Forgettable(s, r, op) ==> s' == s && result.err.Some?
    ensures result.err == Some(ExchangeNotFound) ==> s' == s && !Forgettable(s, r, op)
  {
    hide Erasing, ForgetFor, ValidRetention, OriginalsRemain;
    assert s + {Forget(ForgetFor(r))} == Erasing(s + {Forget(ForgetFor(r))}, r, 0) by { EraseNone(s + {Forget(ForgetFor(r))}, r); }
  }

  lemma EraseNone(s: set<Record>, r: RetentionRecord)
    ensures Erasing(s, r, 0) == s
  {
  }

  lemma ForgottenFinal(s: set<Record>, r: RetentionRecord, op: string)
    ensures !Forgettable(ForgetStage(s, r, 2), r, op)
    ensures ForgetStage(s, r, 2) == s - {Retention(r), Forget(ForgetFor(r))}
  {
    hide ForgetFor, ValidRetention, OriginalsRemain;
  }

  /**
    Forget resumes: until the last removal the marker or the tombstone is in the store and the next
    call can complete; after it the store is the first one without the two, later calls fail and
    change nothing.  A success means the last removal has happened.
   */
  lemma {:induction false} ForgetResumes(stores: seq<set<Record>>, results: seq<CallResult>, r: RetentionRecord, op: string, n: nat)
    requires ForgetCalls(stores, results, r, op) && Forgettable(stores[0], r, op) && n <= |results|
    ensures var final := stores[0] - {Retention(r), Forget(ForgetFor(r))};
            || stores[n] == final
            || (&& Forgetting(stores[0], stores[n], r)
                && (Retention(r) in stores[n] || Forget(ForgetFor(r)) in stores[n])
                && (WellFormed(stores[0]) ==> !NothingToForget(stores[n], r, op)))
    ensures Succeeded(results, n) ==> stores[n] == stores[0] - {Retention(r), Forget(ForgetFor(r))}
    ensures forall k :: 0 <= k < n && stores[k] == stores[0] - {Retention(r), Forget(ForgetFor(r))} ==>
              results[k].err.Some? && stores[k + 1] == stores[k]
  {
    hide ForgetFor, Forgettable, WellFormed, ForgetEffect, ForgetStage, NothingToForget, Forgetting;
    ForgottenFinal(stores[0], r, op);
    NotYetForgotten(stores[0], r, op);
    if n > 0 {
      ForgetResumes(stores, results, r, op, n - 1);
      ForgetGoesOn(stores, results, r, op, n - 1);
    }
    if Forgetting(stores[0], stores[n], r) {
      ForgettingStays(stores[0], stores[n], r, op);
      CanForget(stores[n], r, op);
    }
  }

  lemma NotYetForgotten(s: set<Record>, r: RetentionRecord, op: string)
    ensures Forgetting(s, s, r)
  {
  }

  lemma CanForget(s: set<Record>, r: RetentionRecord, op: string)
    requires Forgettable(s, r, op)
    ensures WellFormed(s) ==> !NothingToForget(s, r, op)
  {
    hide Forgettable, WellFormed;
  }

  lemma ForgetGoesOn(stores: seq<set<Record>>, results: seq<CallResult>, r: RetentionRecord, op: string, n: nat)
    requires ForgetCalls(stores, results, r, op) && Forgettable(stores[0], r, op) && n < |results|
    requires stores[n] == ForgetStage(stores[0], r, 2) || Forgetting(stores[0], stores[n], r)
    ensures stores[n + 1] == ForgetStage(stores[0], r, 2) || Forgetting(stores[0], stores[n + 1], r)
    ensures results[n].err.None? ==> stores[n + 1] == ForgetStage(stores[0], r, 2)
    ensures stores[n] == ForgetStage(stores[0], r, 2) ==> results[n].err.Some? && stores[n + 1] == stores[n]
  {
    var result := results[n];
    hide ForgetEffect, ForgetFor, ForgetStage, Forgetting, Forgettable;
    OneForget(stores[n], stores[n + 1], r, op, result);
    ForgottenFinal(stores[0], r, op);
    if stores[n] != ForgetStage(stores[0], r, 2) {
      ForgettingTrans(stores[0], stores[n], stores[n + 1], r);
    }
  }

  // ---------------------------------------------------------------- across operations

  /** What remains at a stage of a prune: an original that was there and whose turn has not come. */
  lemma StageRemains(s: set<Record>, r: RetentionRecord, k: nat)
    requires ValidRetention(r) && k <= 3
    ensures OriginalsRemain(PruneStage(s, r, k), r) <==> exists j {:trigger Original(r, j)} :: k <= j < 3 && Original(r, j) in s
  {
    ChainKinds(r);
    hide ValidRetention;
    assert Original(r, 0) == r.intentRef.of && Original(r, 1) == r.attemptRef.of && Original(r, 2) == r.outcomeRef.of;
  }

  /**
    A status taken at any stage of a prune tells how far it got: pruning while an original that was
    there has not been removed, pruned afterwards.
   */
  lemma StatusAfterPrune(s: set<Record>, i: IntentRecord, op: string, r: RetentionRecord, k: nat)
    requires Prunable(s, i, op, r) && k <= 3
    ensures StatusOf(PruneStage(s, r, k), i, RetainedReport(r, OriginalsRemain(PruneStage(s, r, k), r)))
    ensures OriginalsRemain(PruneStage(s, r, k), r) <==> exists j {:trigger Original(r, j)} :: k <= j < 3 && Original(r, j) in s
    ensures !OriginalsRemain(PruneStage(s, r, 3), r)
    ensures op == r.operationId && Forgettable(PruneStage(s, r, 3), r, op)
  {
    StageRemains(s, r, k);
    StagePrunable(s, i, op, r, k);
    StagePrunable(s, i, op, r, 3);
    ChainKinds(r);
    assert Retention(r) in PruneStage(s, r, k) && Retention(r) in PruneStage(s, r, 3);
    assert !OriginalsRemain(PruneStage(s, r, 3), r);
    TombstoneSelected(PruneStage(s, r, k), i, op, r);
  }

  lemma TombstoneSelected(s: set<Record>, i: IntentRecord, op: string, r: RetentionRecord)
    requires Prunable(s, i, op, r) && Retention(r) in s
    ensures Selected(s, StatusForget(i, Api), None) && Selected(s, StatusRetention(i, Api), Some(Retention(r)))
  {
    hide ValidRetention, TheOutcome;
    assert r.intentRef == IntentRef(i) by { ChainKinds(r); }
  }

  /** Nothing but the intent belongs to the operation yet. */
  ghost predicate FreshlyPrepared(s: set<Record>, i: IntentRecord) {
    && ValidIntent(i) && Intent(i) in s && Marker(i) !in s && NoOutcome(s, i)
    && Selected(s, StatusForget(i, Api), None) && Selected(s, StatusRetention(i, Api), None)
  }

  function PreparedReport(): StatusReport { StatusReport(Prepared, None, None, None, None) }

  function ReservedReport(i: IntentRecord): StatusReport {
    StatusReport(AttemptReservedUnknown, Some(AttemptFromIntent(i)), None, None, None)
  }

  lemma Unselected(s: set<Record>, i: IntentRecord, r: Record)
    requires Selected(s, StatusForget(i, Api), None) && Selected(s, StatusRetention(i, Api), None)
    requires r.Attempt? || r.Outcome?
    ensures Selected(s + {r}, StatusForget(i, Api), None) && Selected(s + {r}, StatusRetention(i, Api), None)
  {
  }

  lemma AfterReserve(s: set<Record>, s1: set<Record>, i: IntentRecord)
    requires FreshlyPrepared(s, i) && ReserveEffect(s, s1, i, None)
    ensures s1 == s + {Marker(i)} && NoOutcome(s1, i)
    ensures StatusOf(s, i, PreparedReport()) && StatusOf(s1, i, ReservedReport(i))
    ensures Selected(s1, StatusForget(i, Api), None) && Selected(s1, StatusRetention(i, Api), None)
  {
    Unselected(s, i, Marker(i));
    assert forall o :: Outcome(o) in s1 <==> Outcome(o) in s;
    assert NoOutcome(s1, i);
    assert OutcomeScan(s, i, None) && OutcomeScan(s1, i, None);
  }

  lemma AfterOutcome(s1: set<Record>, s2: set<Record>, i: IntentRecord, receipt: ExchangeReceipt, out: OutcomeReceipt)
    requires NoOutcome(s1, i) && Selected(s1, StatusForget(i, Api), None) && Selected(s1, StatusRetention(i, Api), None)
    requires var o := OutcomeFor(i, receipt); Linked(o, i) && OutcomeEffect(s1, s2, i, o, out, None)
    ensures var o := OutcomeFor(i, receipt);
            && s2 == s1 + {Outcome(o)}
            && StatusOf(s2, i, TerminalReport(i, o))
            && Prunable(s2, i, i.operationId, RetentionFor(i, o))
  {
    var o := OutcomeFor(i, receipt);
    Unselected(s1, i, Outcome(o));
    assert TheOutcome(s2, i, o) by { hide OutcomeMatches, Selected; }
    assert OutcomeScan(s2, i, Some(o));
    RetentionDeterministic(RetentionFor(i, o));
    SameForPrune(s2, i, i.operationId);
  }

  lemma SameForPrune(s: set<Record>, i: IntentRecord, op: string)
    ensures Selected(s, PruneForget(i, op), None) <==> Selected(s, StatusForget(i, Api), None)
    ensures Selected(s, PruneRetention(i, op), None) <==> Selected(s, StatusRetention(i, Api), None)
  {
  }

  /**
    The whole life of an operation: each step changes the status as promised, and after the forget
    the store is the one before the reservation without the intent.
   */
  lemma WholeLife(s: set<Record>, s1: set<Record>, s2: set<Record>, s3: set<Record>, s4: set<Record>,
                  i: IntentRecord, receipt: ExchangeReceipt, out: OutcomeReceipt, pruned: CallResult, forgot: CallResult)
    requires FreshlyPrepared(s, i)
    requires Linked(OutcomeFor(i, receipt), i)
    requires ReserveEffect(s, s1, i, None)
    requires OutcomeEffect(s1, s2, i, OutcomeFor(i, receipt), out, None)
    requires pruned.err.None? && PruneEffect(s2, s3, i, i.operationId, pruned.receipt, pruned.err)
    requires forgot.err.None? && ForgetEffect(s3, s4, RetentionFor(i, OutcomeFor(i, receipt)), i.operationId, forgot.receipt, forgot.err)
    ensures var o := OutcomeFor(i, receipt);
            && StatusOf(s, i, PreparedReport()) && StatusOf(s1, i, ReservedReport(i)) && StatusOf(s2, i, TerminalReport(i, o))
            && StatusOf(s3, i, RetainedReport(RetentionFor(i, o), false))
    ensures s4 == s - {Intent(i)}
  {
    var o := OutcomeFor(i, receipt);
    var r := RetentionFor(i, o);
    assert Outcome(o) !in s by { NotItsOutcome(s, i, o); }
    AfterReserve(s, s1, i);
    AfterOutcome(s1, s2, i, receipt, out);
    OnePrune(s2, s3, i, i.operationId, r, pruned);
    StatusAfterPrune(s2, i, i.operationId, r, 3);
    OneForget(s3, s4, r, i.operationId, forgot);
    ForgottenFinal(s3, r, i.operationId);
    NoMarkerBefore(s, i, r);
    assert ValidRetention(r);
    ChainKinds(r);
    hide OutcomeMatches, OutcomeFor, RetentionFor, StatusOf, Prunable, ReserveEffect, OutcomeEffect, PruneEffect,
         ForgetEffect, ValidRetention, PruneStage, ForgetStage, FreshlyPrepared;
    forall t ensures t in s4 <==> t in s - {Intent(i)} {
      PruneTouches(s2, r, t);
    }
  }

  lemma NotItsOutcome(s: set<Record>, i: IntentRecord, o: OutcomeRecord)
    requires NoOutcome(s, i) && o.operationId == i.operationId
    ensures Outcome(o) !in s
  {
  }

  /** No forget marker and no tombstone of this chain before the prune. */
  lemma NoMarkerBefore(s: set<Record>, i: IntentRecord, r: RetentionRecord)
    requires FreshlyPrepared(s, i) && r.intentRef == IntentRef(i)
    ensures Forget(ForgetFor(r)) !in s && Retention(r) !in s
  {
  }

  // ---------------------------------------------------------------- a marker left by a stale reservation

  /** A prune that succeeds has removed the marker of its intent. */
  lemma PruneTakesMarker(s: set<Record>, s': set<Record>, i: IntentRecord, op: string, receipt: RetentionReceipt)
    requires PruneEffect(s, s', i, op, receipt, None)
    ensures Marker(i) !in s' && exists r :: Prunable(s, i, op, r)
  {
    hide ValidRetention, TheOutcome, Selected;
    var r := receipt.retention.value;
    assert Prunable(s, i, op, r);
    ChainKinds(r);
  }

  /** A prune of a prunable store may succeed. */
  lemma PruneCanSucceed(s: set<Record>, i: IntentRecord, op: string, r: RetentionRecord)
    requires Prunable(s, i, op, r)
    ensures exists s', receipt :: PruneEffect(s, s', i, op, receipt, None)
  {
    hide Prunable, PruneStage;
    var gone := Removal(true, false, 2);
    var receipt := RetentionReceipt(true, Some(r), 0, 6, 3, 0, [gone, gone, gone], Usage(0, 0, 0));
    assert PruneEffect(s, PruneStage(s, r, 3), i, op, receipt, None);
  }

  /**
    When rerunning prune removes a marker that was left behind after its intent was removed: exactly
    if the operation named is the intent's, no forget marker selects the intent, and a tombstone
    does.
   */
  lemma StrayMarkerRemovable(s: set<Record>, i: IntentRecord, op: string)
    requires WellFormed(s) && Marker(i) in s && Intent(i) !in s
    ensures (exists s', receipt :: PruneEffect(s, s', i, op, receipt, None)) <==>
              && i.operationId == op
              && Selected(s, PruneForget(i, op), None)
              && exists r :: Selected(s, PruneRetention(i, op), Some(Retention(r)))
    ensures forall s', receipt :: PruneEffect(s, s', i, op, receipt, None) ==> Marker(i) !in s'
  {
    hide WellFormed, PruneEffect, Prunable, Selected;
    forall s', receipt | PruneEffect(s, s', i, op, receipt, None)
      ensures Marker(i) !in s' && exists r :: Prunable(s, i, op, r)
    {
      PruneTakesMarker(s, s', i, op, receipt);
    }
    forall r | Prunable(s, i, op, r)
      ensures exists s', receipt :: PruneEffect(s, s', i, op, receipt, None)
      ensures i.operationId == op && Selected(s, PruneForget(i, op), None) && Selected(s, PruneRetention(i, op), Some(Retention(r)))
    {
      PruneCanSucceed(s, i, op, r);
      PrunableGone(s, i, op, r);
    }
    forall r | i.operationId == op && Selected(s, PruneForget(i, op), None) && Selected(s, PruneRetention(i, op), Some(Retention(r)))
      ensures Prunable(s, i, op, r)
    {
      SelectedPrunable(s, i, op, r);
    }
  }

  lemma PrunableGone(s: set<Record>, i: IntentRecord, op: string, r: RetentionRecord)
    requires Prunable(s, i, op, r) && Intent(i) !in s
    ensures i.operationId == op && Selected(s, PruneForget(i, op), None) && Selected(s, PruneRetention(i, op), Some(Retention(r)))
  {
    hide Selected, ValidRetention;
  }

  lemma SelectedPrunable(s: set<Record>, i: IntentRecord, op: string, r: RetentionRecord)
    requires WellFormed(s) && i.operationId == op
    requires Selected(s, PruneForget(i, op), None) && Selected(s, PruneRetention(i, op), Some(Retention(r)))
    ensures Prunable(s, i, op, r)
  {
    assert Decodes(Retention(r));
    ChainKinds(r);
  }

  /** The store holds a forget marker beside the attempt marker of the same intent. */
  ghost predicate Stuck(s: set<Record>, r: RetentionRecord) {
    ValidRetention(r) && Forget(ForgetFor(r)) in s && Marker(r.intent) in s
  }

  /**
    A stray marker beside a forget marker: no prune and no forget of the intent, under whatever
    operation identity, changes the store or succeeds.
   */
  lemma StuckRefuses(s: set<Record>, s': set<Record>, r: RetentionRecord, op: string, receipt: RetentionReceipt, err: Option<Err>)
    requires Stuck(s, r)
    ensures NothingToPrune(s, r.intent, op) && NothingToForget(s, r, op)
    ensures PruneEffect(s, s', r.intent, op, receipt, err) || ForgetEffect(s, s', r, op, receipt, err) ==> s' == s && err.Some?
  {
    hide Prunable, Forgettable, WellFormed, PruneReached, ForgetReached, Nowhere;
    StuckPrune(s, r, op);
    StuckForget(s, r, op);
  }

  lemma StuckPrune(s: set<Record>, r: RetentionRecord, op: string)
    requires Stuck(s, r)
    ensures forall t :: !Prunable(s, r.intent, op, t)
  {
    ChainKinds(r);
    assert r.intentRef == IntentRef(r.intent);
    assert Selects(PruneForget(r.intent, op), Forget(ForgetFor(r)));
  }

  lemma StuckForget(s: set<Record>, r: RetentionRecord, op: string)
    requires Stuck(s, r)
    ensures !Forgettable(s, r, op) && OriginalsRemain(s, r)
  {
    hide ValidRetention, ForgetFor;
    ChainKinds(r);
  }

  /** A rerun of prune or forget under some operation identity. */
  datatype Rerun = PruneAgain(operationId: string) | ForgetAgain(operationId: string)

  ghost predicate Reruns(stores: seq<set<Record>>, calls: seq<Rerun>, results: seq<CallResult>, r: RetentionRecord) {
    && |stores| == |calls| + 1 && |results| == |calls|
    && forall k {:trigger calls[k]} :: 0 <= k < |calls| ==>
         match calls[k]
         case PruneAgain(op) => PruneEffect(stores[k], stores[k + 1], r.intent, op, results[k].receipt, results[k].err)
         case ForgetAgain(op) => ForgetEffect(stores[k], stores[k + 1], r, op, results[k].receipt, results[k].err)
  }

  /** The stuck state is final: whatever is rerun, however often, the stray marker stays. */
  lemma {:induction false} StuckForever(stores: seq<set<Record>>, calls: seq<Rerun>, results: seq<CallResult>, r: RetentionRecord, n: nat)
    requires Reruns(stores, calls, results, r) && Stuck(stores[0], r) && n <= |calls|
    ensures stores[n] == stores[0] && Marker(r.intent) in stores[n]
    ensures 0 < n ==> results[n - 1].err.Some?
  {
    if n > 0 {
      StuckForever(stores, calls, results, r, n - 1);
      hide PruneEffect, ForgetEffect, NothingToPrune, NothingToForget, ValidRetention;
      StuckRefuses(stores[n - 1], stores[n], r, calls[n - 1].operationId, results[n - 1].receipt, results[n - 1].err);
      assert calls[n - 1].PruneAgain? || calls[n - 1].ForgetAgain?;
    }
  }

  /** The three records that a forget and a stale reservation of one intent leave behind are such a store. */
  lemma StuckStore(i: IntentRecord, o: OutcomeRecord)
    requires Linked(o, i)
    ensures var r := RetentionFor(i, o);
            Stuck({Retention(r), Forget(ForgetFor(r)), Marker(i)}, r) && WellFormed({Retention(r), Forget(ForgetFor(r)), Marker(i)})
  {
    var r := RetentionFor(i, o);
    RetentionDeterministic(r);
    ForgetDeterministic(ForgetFor(r));
    assert Decodes(Marker(i)) by { ValidChain(i); }
  }

  // ---------------------------------------------------------------- the order of removal

  /**
    The removal order.  In the order of the code no stage of a prune lets a reservation acquire
    where it could not before; with the outcome and the marker gone first, as the help text lists
    them, the intent that is still there can be reserved a second time.
   */
  lemma OrderMatters(s: set<Record>, i: IntentRecord, op: string, r: RetentionRecord, k: nat)
    requires Prunable(s, i, op, r) && Intent(i) in s && Marker(i) in s && TheOutcome(s, i, r.outcome)
    ensures !exists s' :: ReserveEffect(PruneStage(s, r, k), s', i, None)
    ensures var t := (s + {Retention(r)}) - {Outcome(r.outcome), Marker(i)}; ReserveEffect(t, t + {Marker(i)}, i, None)
  {
    hide ValidRetention, Selected, Linked, AttemptFromIntent;
    ChainKinds(r);
  }
}
