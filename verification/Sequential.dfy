/**
  What the operations do when no other session acts: the specification the session methods are
  proved against, and what follows for sequences of interrupted and repeated calls.
 */
module Sequential {
  import opened Basics
  import opened Records
  import opened Program
  import opened Metastore

  // ---------------------------------------------------------------- inventories

  /** No outcome in the store belongs to the operation. */
  ghost predicate NoOutcome(s: set<Record>, i: IntentRecord) {
    forall o :: Outcome(o) in s ==> o.operationId != i.operationId
  }

  /** Exactly one outcome in the store belongs to the operation, and it is linked to the chain. */
  ghost predicate TheOutcome(s: set<Record>, i: IntentRecord, o: OutcomeRecord) {
    && Outcome(o) in s
    && o.operationId == i.operationId
    && Linked(o, i)
    && forall p :: Outcome(p) in s && p.operationId == i.operationId ==> p == o
  }

  ghost predicate OutcomeScan(s: set<Record>, i: IntentRecord, found: Option<OutcomeRecord>) {
    if found.None? then NoOutcome(s, i) else TheOutcome(s, i, found.value)
  }

  /** The unique record a scan selects, or the proof that there is none. */
  ghost predicate Selected(s: set<Record>, g: Goal, found: Option<Record>) {
    if found.None? then forall r :: r in s && KindOf(r) == GoalKind(g) ==> !Selects(g, r)
    else
      && found.value in s && KindOf(found.value) == GoalKind(g) && Selects(g, found.value)
      && forall r :: r in s && KindOf(r) == GoalKind(g) && Selects(g, r) ==> r == found.value
  }

  /** The unique match in an inventory, or the proof that it has none. */
  ghost predicate UniqueIn(q: seq<Record>, g: Goal, found: Option<Record>) {
    && (forall r :: r in q && Selects(g, r) ==> found == Some(r))
    && (found.Some? ==> found.value in q && Selects(g, found.value))
  }

  /** The record passes the validation its decoder performs. */
  predicate Decodes(r: Record) {
    match r
    case Intent(i) => ValidIntent(i)
    case Attempt(a) => ValidAttempt(a)
    case Outcome(o) => ValidOutcome(o)
    case Retention(t) => ValidRetention(t)
    case Forget(f) => ValidForget(f)
  }

  ghost predicate WellFormed(s: set<Record>) {
    forall r :: r in s ==> Decodes(r)
  }

  // ---------------------------------------------------------------- Status

  /** What a completed Status reports. */
  datatype StatusReport = StatusReport(
    state: Verdict, attempt: Option<AttemptRecord>, outcome: Option<OutcomeRecord>,
    retention: Option<RetentionRecord>, forget: Option<ForgetRecord>)

  function RetainedReport(r: RetentionRecord, remain: bool): StatusReport {
    StatusReport(if remain then Pruning else Pruned, Some(r.attempt), Some(r.outcome), Some(r), None)
  }

  ghost predicate OriginalsRemain(s: set<Record>, r: RetentionRecord) {
    r.intentRef.of in s || r.attemptRef.of in s || r.outcomeRef.of in s
  }

  /** The status of an operation is determined by the store: forget marker, tombstone, live chain. */
  ghost predicate StatusOf(s: set<Record>, i: IntentRecord, st: StatusReport) {
    match st.forget
    case Some(f) =>
      && Selected(s, StatusForget(i, Api), Some(Forget(f)))
      && st == StatusReport(Forgetting, Some(f.retention.attempt), Some(f.retention.outcome), Some(f.retention), Some(f))
    case None =>
      && Selected(s, StatusForget(i, Api), None)
      && match st.retention
         case Some(r) =>
           && Selected(s, StatusRetention(i, Api), Some(Retention(r)))
           && st == RetainedReport(r, OriginalsRemain(s, r))
         case None =>
           && Selected(s, StatusRetention(i, Api), None)
           && LiveStatus(s, i, st)
  }

  ghost predicate LiveStatus(s: set<Record>, i: IntentRecord, st: StatusReport) {
    && Intent(i) in s
    && OutcomeScan(s, i, st.outcome)
    && (st.outcome.Some? ==> Marker(i) in s)
    && st.attempt == (if Marker(i) in s then Some(AttemptFromIntent(i)) else None)
    && st.state == CandidateState(Marker(i) in s, st.outcome)
  }

  lemma SelectedUnique(s: set<Record>, g: Goal, a: Option<Record>, b: Option<Record>)
    requires Selected(s, g, a) && Selected(s, g, b)
    ensures a == b
  {
    hide Selects;
  }

  /** A store determines at most one status of an operation. */
  lemma StatusUnique(s: set<Record>, i: IntentRecord, a: StatusReport, b: StatusReport)
    requires StatusOf(s, i, a) && StatusOf(s, i, b)
    ensures a == b
  {
    hide Selected, OutcomeMatches;
    SelectedUnique(s, StatusForget(i, Api), if a.forget.Some? then Some(Forget(a.forget.value)) else None,
                   if b.forget.Some? then Some(Forget(b.forget.value)) else None);
    if a.forget.None? {
      SelectedUnique(s, StatusRetention(i, Api), if a.retention.Some? then Some(Retention(a.retention.value)) else None,
                     if b.retention.Some? then Some(Retention(b.retention.value)) else None);
    }
  }

  // ---------------------------------------------------------------- what a status means

  ghost predicate Forgotten(s: set<Record>, i: IntentRecord) {
    exists f :: Forget(f) in s && f.retention.intent == i
  }

  ghost predicate Tombstoned(s: set<Record>, i: IntentRecord) {
    exists r :: Retention(r) in s && r.intent == i
  }

  /** The store holds an outcome of the operation, as its identity goes. */
  ghost predicate Answered(s: set<Record>, i: IntentRecord) {
    exists o :: Outcome(o) in s && o.operationId == i.operationId
  }

  /** In a store of valid records a scan for an intent selects by the intent itself. */
  lemma SelectsIntent(s: set<Record>, i: IntentRecord, c: Caller)
    requires WellFormed(s)
    ensures forall f :: Forget(f) in s ==> (Selects(StatusForget(i, c), Forget(f)) <==> f.retention.intent == i)
    ensures forall r :: Retention(r) in s ==> (Selects(StatusRetention(i, c), Retention(r)) <==> r.intent == i)
  {
    hide ValidIntent, ValidAttempt, OutcomeMatches, AttemptMatchesIntent, ValidOutcome;
    forall f | Forget(f) in s ensures Selects(StatusForget(i, c), Forget(f)) <==> f.retention.intent == i {
      assert Decodes(Forget(f));
      RetentionDeterministic(f.retention);
    }
    forall r | Retention(r) in s ensures Selects(StatusRetention(i, c), Retention(r)) <==> r.intent == i {
      assert Decodes(Retention(r));
      RetentionDeterministic(r);
    }
  }

  /**
    The status of an operation in terms of what the store holds: a forget marker wins, then a
    tombstone, and of a live chain the attempt marker and the outcome decide.
   */
  lemma StatusMeans(s: set<Record>, i: IntentRecord, st: StatusReport)
    requires WellFormed(s) && StatusOf(s, i, st)
    ensures st.state.Forgetting? <==> Forgotten(s, i)
    ensures st.state.Pruning? || st.state.Pruned? <==> !Forgotten(s, i) && Tombstoned(s, i)
    ensures !Forgotten(s, i) && !Tombstoned(s, i) ==>
              && Intent(i) in s
              && (st.state.Prepared? <==> Marker(i) !in s)
              && (st.state.AttemptReservedUnknown? <==> Marker(i) in s && !Answered(s, i))
              && (TerminalState(st.state) <==> Marker(i) in s && Answered(s, i))
              && (st.outcome.Some? <==> Answered(s, i))
    ensures st.state.Pruning? || st.state.Pruned? ==>
              && st.retention.Some? && Retention(st.retention.value) in s && st.retention.value.intent == i
              && (st.state.Pruning? <==> Intent(i) in s || Marker(i) in s || Outcome(st.retention.value.outcome) in s)
    ensures st.forget.Some? ==> Forget(st.forget.value) in s && st.forget.value.retention.intent == i
  {
    SelectsIntent(s, i, Api);
    hide Selects, WellFormed, ValidIntent, Linked;
    if st.forget.Some? {
    } else if st.retention.Some? {
      TombstoneChain(s, st.retention.value);
    } else {
      LiveMeans(s, i, st);
    }
  }

  lemma TombstoneChain(s: set<Record>, r: RetentionRecord)
    requires WellFormed(s) && Retention(r) in s
    ensures OriginalsRemain(s, r) <==> Intent(r.intent) in s || Marker(r.intent) in s || Outcome(r.outcome) in s
  {
    hide ValidIntent, ValidAttempt, OutcomeMatches, AttemptMatchesIntent, ValidOutcome;
    assert Decodes(Retention(r));
    RetentionDeterministic(r);
  }

  lemma LiveMeans(s: set<Record>, i: IntentRecord, st: StatusReport)
    requires LiveStatus(s, i, st)
    ensures Intent(i) in s
    ensures st.state.Prepared? <==> Marker(i) !in s
    ensures st.state.AttemptReservedUnknown? <==> Marker(i) in s && !Answered(s, i)
    ensures TerminalState(st.state) <==> Marker(i) in s && Answered(s, i)
    ensures st.outcome.Some? <==> Answered(s, i)
    ensures !st.state.Forgetting? && !st.state.Pruning? && !st.state.Pruned?
  {
    hide Linked;
  }

  function TerminalReport(i: IntentRecord, o: OutcomeRecord): StatusReport {
    StatusReport(StateFromOutcome(o.receipt.outcome), Some(AttemptFromIntent(i)), Some(o), None, None)
  }

  /** The chain a live report names, whatever the store holds. */
  predicate LiveShape(i: IntentRecord, st: StatusReport) {
    && ValidIntent(i)
    && st.retention.None? && st.forget.None?
    && (st.attempt.Some? ==> st.attempt.value == AttemptFromIntent(i))
    && (st.outcome.Some? ==> st.attempt.Some? && Linked(st.outcome.value, i))
    && st.state == CandidateState(st.attempt.Some?, st.outcome)
  }

  /** A report names the chain of the operation asked for, and a terminal one names its outcome. */
  predicate Shaped(i: IntentRecord, st: StatusReport) {
    && ValidIntent(i)
    && (st.attempt.Some? ==> st.attempt.value == AttemptFromIntent(i))
    && (st.outcome.Some? ==> st.attempt.Some? && Linked(st.outcome.value, i))
    && (TerminalState(st.state) <==> st.outcome.Some? && st.retention.None?)
    && (TerminalState(st.state) ==> st.state == StateFromOutcome(st.outcome.value.receipt.outcome))
    && (st.retention.Some? ==> ValidRetention(st.retention.value) && st.retention.value.intent == i
                               && st.outcome == Some(st.retention.value.outcome))
  }

  /** The result of inspecting a live chain. */
  ghost predicate LiveEffect(s: set<Record>, i: IntentRecord, report: Option<StatusReport>, err: Option<Err>) {
    match err
    case None => report.Some? && LiveStatus(s, i, report.value)
    case Some(RecordNotFound) => Intent(i) !in s
    case Some(CorruptExchange) => (Intent(i) in s && forall st :: !LiveStatus(s, i, st)) || !WellFormed(s)
    case Some(_) => true
  }

  /** Nothing in the store belongs to the operation: no marker, no tombstone, no intent. */
  ghost predicate Nowhere(s: set<Record>, i: IntentRecord) {
    && Selected(s, StatusForget(i, Api), None)
    && Selected(s, StatusRetention(i, Api), None)
    && Intent(i) !in s
  }

  /** The records of the operation contradict each other, or some record is invalid. */
  ghost predicate Undecided(s: set<Record>, i: IntentRecord) {
    !WellFormed(s) || (!Nowhere(s, i) && forall st :: !StatusOf(s, i, st))
  }

  /** A store of valid records gives exactly one of three answers: a status, not found, corrupt. */
  lemma StatusAnswers(s: set<Record>, i: IntentRecord)
    requires WellFormed(s)
    ensures Nowhere(s, i) ==> forall st :: !StatusOf(s, i, st)
    ensures Undecided(s, i) <==> !Nowhere(s, i) && !exists st :: StatusOf(s, i, st)
  {
    hide Selects, WellFormed;
  }

  // ---------------------------------------------------------------- ReserveAttempt and StoreOutcome

  /** What a reservation did: which of its ends is reached is determined by the store it started on. */
  ghost predicate ReserveEffect(s: set<Record>, s': set<Record>, i: IntentRecord, err: Option<Err>) {
    match err
    case None => Intent(i) in s && Marker(i) !in s && NoOutcome(s, i) && s' == s + {Marker(i)}
    case Some(RetentionPolicy) => Intent(i) !in s && s' == s
    case Some(AlreadyReserved) => Intent(i) in s && Marker(i) in s && s' == s
    case Some(CorruptExchange) => Intent(i) in s && Marker(i) !in s && (!NoOutcome(s, i) || !WellFormed(s)) && s' == s + {Marker(i)}
    case Some(Oversized) => Intent(i) in s && s' == s
    case Some(InvalidExchange) => s' == s
    case Some(Closed) => s' == s
    case Some(_) => s' == s || (Intent(i) in s && s' == s + {Marker(i)})
  }

  /** Nothing in the store stands against a reservation. */
  ghost predicate Reservable(s: set<Record>, i: IntentRecord) {
    WellFormed(s) && Intent(i) in s && Marker(i) !in s && NoOutcome(s, i)
  }

  datatype OutcomeReceipt = OutcomeReceipt(writes: nat, alreadyPresent: bool, durable: bool)

  ghost predicate OutcomeEffect(s: set<Record>, s': set<Record>, i: IntentRecord, o: OutcomeRecord,
                                receipt: OutcomeReceipt, err: Option<Err>) {
    match err
    case None =>
      && Intent(i) in s && Marker(i) in s && s' == s + {Outcome(o)}
      && (receipt.writes == 1 <==> Outcome(o) !in s)
    case Some(Unverified) => s' == s + {Outcome(o)}
    case Some(Interrupted) => s' == s || s' == s + {Outcome(o)}
    case Some(_) => s' == s
  }

  // ---------------------------------------------------------------- removal receipts

  datatype Removal = Removal(removed: bool, alreadyAbsent: bool, writes: nat)

  datatype RetentionReceipt = RetentionReceipt(
    complete: bool, retention: Option<RetentionRecord>, publicationWrites: nat, writes: nat,
    recordsRemoved: nat, recordsAlreadyAbsent: nat, removals: seq<Removal>, used: Usage)

  datatype Usage = Usage(passes: nat, recordsRead: nat, bytesRead: nat)

  function SumWrites(q: seq<Removal>): nat {
    if q == [] then 0 else SumWrites(q[..|q| - 1]) + q[|q| - 1].writes
  }

  function CountRemoved(q: seq<Removal>): nat {
    if q == [] then 0 else CountRemoved(q[..|q| - 1]) + if q[|q| - 1].removed then 1 else 0
  }

  function CountAbsent(q: seq<Removal>): nat {
    if q == [] then 0 else CountAbsent(q[..|q| - 1]) + if q[|q| - 1].alreadyAbsent then 1 else 0
  }

  /** The counters are the sums over the single receipts; a complete call removed every record once. */
  ghost predicate Accounted(receipt: RetentionReceipt, records: nat) {
    && receipt.writes == receipt.publicationWrites + SumWrites(receipt.removals)
    && receipt.recordsRemoved == CountRemoved(receipt.removals)
    && receipt.recordsAlreadyAbsent == CountAbsent(receipt.removals)
    && receipt.publicationWrites <= 1
    && |receipt.removals| <= records
    && receipt.recordsRemoved + receipt.recordsAlreadyAbsent <= |receipt.removals|
    && (receipt.complete ==> receipt.recordsRemoved + receipt.recordsAlreadyAbsent == |receipt.removals| == records)
  }

  // ---------------------------------------------------------------- Prune

  /** The first `k` records of the chain, in removal order. */
  ghost function FirstOriginals(r: RetentionRecord, k: nat): set<Record> {
    if k == 0 then {}
    else if k == 1 then {Original(r, 0)}
    else if k == 2 then {Original(r, 0), Original(r, 1)}
    else {Original(r, 0), Original(r, 1), Original(r, 2)}
  }

  /** The store after publishing the tombstone and removing `k` records of its chain. */
  ghost function PruneStage(s: set<Record>, r: RetentionRecord, k: nat): set<Record> {
    (s + {Retention(r)}) - FirstOriginals(r, k)
  }

  /** Prune of this operation has this tombstone to publish, or to resume from. */
  ghost predicate Prunable(s: set<Record>, i: IntentRecord, op: string, r: RetentionRecord) {
    && Selected(s, PruneForget(i, op), None)
    && i.operationId == op
    && ValidRetention(r) && r.intent == i
    && (|| Selected(s, PruneRetention(i, op), Some(Retention(r)))
        || (&& Selected(s, PruneRetention(i, op), None)
            && Intent(i) in s && Marker(i) in s && TheOutcome(s, i, r.outcome)))
  }

  lemma SelectedNot(s: set<Record>, g: Goal, r: Record)
    requires Selected(s, g, None)
    ensures !Selected(s, g, Some(r))
  {
    hide Selects;
  }

  /** A store determines the tombstone its prune publishes or resumes from. */
  lemma PrunableUnique(s: set<Record>, i: IntentRecord, op: string, r1: RetentionRecord, r2: RetentionRecord)
    requires Prunable(s, i, op, r1) && Prunable(s, i, op, r2)
    ensures r1 == r2
  {
    if Selected(s, PruneRetention(i, op), None) {
      SelectedNot(s, PruneRetention(i, op), Retention(r1));
      SelectedNot(s, PruneRetention(i, op), Retention(r2));
      assert r1.outcome == r2.outcome by { hide Selected, ValidRetention, Linked; }
      RetentionDeterministic(r1);
      RetentionDeterministic(r2);
    } else {
      SelectedUnique(s, PruneRetention(i, op), Some(Retention(r1)), Some(Retention(r2)));
    }
  }

  /** What the scans of a prune select in a store of valid records. */
  lemma PruneFinds(s: set<Record>, i: IntentRecord, op: string, r: RetentionRecord)
    requires WellFormed(s)
    ensures Selected(s, PruneForget(i, op), None) <==> !Forgotten(s, i)
    ensures Selected(s, PruneRetention(i, op), None) <==> !Tombstoned(s, i)
    ensures Selected(s, PruneRetention(i, op), Some(Retention(r))) <==>
              Tombstoned(s, i) && forall t :: Retention(t) in s && t.intent == i <==> t == r
  {
    hide WellFormed, Selects, Selected, Forgotten, Tombstoned;
    SelectsIntent(s, i, ByPrune(op));
    PruneSelects(i, op);
    NoneForgotten(s, PruneForget(i, op), i);
    TombstoneFound(s, PruneRetention(i, op), i, r);
  }

  lemma NoneForgotten(s: set<Record>, g: Goal, i: IntentRecord)
    requires GoalKind(g) == ForgetKind && forall f :: Forget(f) in s ==> (Selects(g, Forget(f)) <==> f.retention.intent == i)
    ensures Selected(s, g, None) <==> !Forgotten(s, i)
  {
    hide Selects;
    forall x | x in s && KindOf(x) == ForgetKind ensures x == Forget(x.forget) {}
  }

  lemma TombstoneFound(s: set<Record>, g: Goal, i: IntentRecord, r: RetentionRecord)
    requires GoalKind(g) == RetentionKind && forall t :: Retention(t) in s ==> (Selects(g, Retention(t)) <==> t.intent == i)
    ensures Selected(s, g, None) <==> !Tombstoned(s, i)
    ensures Selected(s, g, Some(Retention(r))) <==> Tombstoned(s, i) && forall t :: Retention(t) in s && t.intent == i <==> t == r
  {
    hide Selects;
    forall x | x in s && KindOf(x) == RetentionKind ensures x == Retention(x.retention) {}
  }

  /**
    When a prune can do something, in terms of what the store holds: the operation is the intent's,
    no forget marker is about it, and either one tombstone is, or none is and the chain is there
    with the one outcome of the operation, linked.
   */
  lemma PrunableMeans(s: set<Record>, i: IntentRecord, op: string, r: RetentionRecord)
    requires WellFormed(s)
    ensures Prunable(s, i, op, r) <==>
              && i.operationId == op && !Forgotten(s, i) && r.intent == i && ValidRetention(r)
              && if Tombstoned(s, i) then forall t :: Retention(t) in s && t.intent == i <==> t == r
                 else Intent(i) in s && Marker(i) in s && forall o :: Outcome(o) in s && o.operationId == op <==> o == r.outcome
  {
    hide ValidRetention, Linked, WellFormed, Selected, Forgotten, Tombstoned;
    PruneFinds(s, i, op, r);
    LinkedRetention(r);
  }

  lemma PruneSelects(i: IntentRecord, op: string)
    ensures forall r :: Selects(PruneForget(i, op), r) <==> Selects(StatusForget(i, ByPrune(op)), r)
    ensures forall r :: Selects(PruneRetention(i, op), r) <==> Selects(StatusRetention(i, ByPrune(op)), r)
  {
  }

  lemma LinkedRetention(r: RetentionRecord)
    ensures ValidRetention(r) ==> Linked(r.outcome, r.intent) && r.outcome.operationId == r.intent.operationId
  {
    hide ValidIntent, ValidAttempt, ValidOutcome;
    RetentionDeterministic(r);
  }

  /** No tombstone of this operation can be published or resumed from, or some record is invalid. */
  ghost predicate NothingToPrune(s: set<Record>, i: IntentRecord, op: string) {
    !WellFormed(s) || forall r :: !Prunable(s, i, op, r)
  }

  /** Why a prune refuses: every refusal names its own reason in the store. */
  ghost predicate PruneRefused(s: set<Record>, i: IntentRecord, op: string, why: Err) {
    match why
    case InvalidExchange => !ValidSha256Id(op) || (i.operationId != op && exists st :: StatusOf(s, i, st) && st.retention.None?)
    case ExchangeNotFound => Nowhere(s, i)
    case RetentionPolicy =>
      && i.operationId == op
      && exists st :: StatusOf(s, i, st) && (st.forget.Some? || (st.retention.None? && !TerminalState(st.state)))
    case CorruptExchange => Undecided(s, i) || (i.operationId != op && exists st :: StatusOf(s, i, st) && st.retention.Some?)
    case _ => false
  }

  /** The chain up to its `n`-th record is gone: the last removal may have failed without effect. */
  ghost predicate RemovedFirst(s: set<Record>, s': set<Record>, r: RetentionRecord, n: nat, err: Option<Err>) {
    if err.None? then n == 3 && s' == s - FirstOriginals(r, 3)
    else n <= 3 && (s' == s - FirstOriginals(r, n) || (0 < n && s' == s - FirstOriginals(r, n - 1)))
  }

  /** Where `n` removal receipts leave the store: the last removal may have failed without effect. */
  ghost predicate PruneReached(s: set<Record>, s': set<Record>, r: RetentionRecord, n: nat, err: Option<Err>) {
    if err.None? then n == 3 && s' == PruneStage(s, r, 3)
    else n <= 3 && (s' == PruneStage(s, r, n) || (0 < n && s' == PruneStage(s, r, n - 1)) || (n == 0 && s' == s))
  }

  /** What a prune did: nothing, or some stages of the one tombstone the store determines. */
  ghost predicate PruneEffect(s: set<Record>, s': set<Record>, i: IntentRecord, op: string,
                              receipt: RetentionReceipt, err: Option<Err>) {
    && (receipt.retention.None? ==> err.Some? && s' == s)
    && (receipt.retention.Some? ==>
          Prunable(s, i, op, receipt.retention.value) && PruneReached(s, s', receipt.retention.value, |receipt.removals|, err))
    && (err == Some(ExchangeNotFound) ==> Nowhere(s, i))
  }

  // ---------------------------------------------------------------- Forget

  /** The store after publishing the forget marker and removing the tombstone, then the marker. */
  ghost function ForgetStage(s: set<Record>, r: RetentionRecord, k: nat): set<Record> {
    Erasing(s + {Forget(ForgetFor(r))}, r, k)
  }

  /** Forget of this tombstone can start, or resume from its marker. */
  ghost predicate Forgettable(s: set<Record>, r: RetentionRecord, op: string) {
    && ValidRetention(r) && r.operationId == op
    && !OriginalsRemain(s, r)
    && (Forget(ForgetFor(r)) in s || Retention(r) in s)
  }

  ghost predicate NothingToForget(s: set<Record>, r: RetentionRecord, op: string) {
    !WellFormed(s) || !Forgettable(s, r, op)
  }

  /** Why a forget refuses: every refusal names its own reason in the store. */
  ghost predicate ForgetRefused(s: set<Record>, r: RetentionRecord, op: string, why: Err) {
    var marked, kept := Forget(ForgetFor(r)) in s, Retention(r) in s;
    match why
    case InvalidExchange => !ValidSha256Id(op) || (!marked && kept && r.operationId != op)
    case ExchangeNotFound => !marked && !kept
    case RetentionPolicy => (marked || kept) && r.operationId == op && OriginalsRemain(s, r)
    case CorruptExchange => !WellFormed(s) || (marked && r.operationId != op)
    case _ => false
  }

  /** A forget of a valid operation ID refuses exactly when there is nothing to forget, and the store says how. */
  lemma ForgetRefusals(s: set<Record>, r: RetentionRecord, op: string)
    ensures forall why :: ForgetRefused(s, r, op, why) ==> NothingToForget(s, r, op)
    ensures NothingToForget(s, r, op) ==> exists why :: ForgetRefused(s, r, op, why)
    ensures WellFormed(s) && ValidSha256Id(op) ==>
              forall a, b :: ForgetRefused(s, r, op, a) && ForgetRefused(s, r, op, b) ==> a == b
  {
    ForgettableValid(s, r, op);
    hide ValidSha256Id, ValidRetention, OriginalsRemain, Decodes, ForgetFor;
    if NothingToForget(s, r, op) {
      var marked, kept := Forget(ForgetFor(r)) in s, Retention(r) in s;
      var why := if !WellFormed(s) then CorruptExchange else if !marked && !kept then ExchangeNotFound
                 else if r.operationId == op then RetentionPolicy else if marked then CorruptExchange else InvalidExchange;
      assert ForgetRefused(s, r, op, why);
    }
  }

  lemma ForgettableValid(s: set<Record>, r: RetentionRecord, op: string)
    ensures Forgettable(s, r, op) ==> ValidSha256Id(op)
    ensures WellFormed(s) && (Retention(r) in s || Forget(ForgetFor(r)) in s) ==> ValidRetention(r)
  {
    hide ValidSha256Id, SafeText, ValidReceipt, ValidAttempt, AttemptMatchesIntent, OutcomeMatches, OriginalsRemain;
  }

  /** Neither the tombstone nor a marker for it: forgotten, or never there. */
  ghost predicate Gone(s: set<Record>, r: RetentionRecord) {
    WellFormed(s) && Retention(r) !in s && Forget(ForgetFor(r)) !in s
  }

  /** The store after removing `k` of the tombstone and its marker, in that order. */
  ghost function Erasing(s: set<Record>, r: RetentionRecord, k: nat): set<Record> {
    if k == 0 then s else if k == 1 then s - {Retention(r)} else s - {Retention(r), Forget(ForgetFor(r))}
  }

  ghost predicate ErasedFirst(s: set<Record>, s': set<Record>, r: RetentionRecord, n: nat, err: Option<Err>) {
    if err.None? then n == 2 && s' == Erasing(s, r, 2)
    else n <= 2 && (s' == Erasing(s, r, n) || (0 < n && s' == Erasing(s, r, n - 1)))
  }

  ghost predicate ForgetReached(s: set<Record>, s': set<Record>, r: RetentionRecord, n: nat, err: Option<Err>) {
    if err.None? then n == 2 && s' == ForgetStage(s, r, 2)
    else n <= 2 && (s' == ForgetStage(s, r, n) || (0 < n && s' == ForgetStage(s, r, n - 1)) || (n == 0 && s' == s))
  }

  ghost predicate ForgetEffect(s: set<Record>, s': set<Record>, r: RetentionRecord, op: string,
                               receipt: RetentionReceipt, err: Option<Err>) {
    && (receipt.retention.None? ==> err.Some? && s' == s)
    && (receipt.retention.Some? ==>
          && receipt.retention.value == r
          && ((err.Some? && s' == s) || (Forgettable(s, r, op) && ForgetReached(s, s', r, |receipt.removals|, err))))
    && (err == Some(ExchangeNotFound) ==> Retention(r) !in s && Forget(ForgetFor(r)) !in s)
  }
}
