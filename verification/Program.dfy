/**
  What one running call does, store operation by store operation.

  A `Pc` is the place a call has reached together with the locals it still needs.  `Want` is the
  store operation the call performs next and `Advance` is where it goes on the response.  The
  interleaving model (Protocol) runs many of these side by side over one store; the methods of
  Session run one at a time, and every store operation they perform must be the one `Want` names.

  A call may also stop anywhere: budgets, cancellation and crashes are not program counters.
 */
module Program {
  import opened Basics
  import opened Records

  /** One atomic operation on the store (or, for SubmitOp, on the site). */
  datatype Op =
    | LookOp(record: Record)          // load, presence check or one step of a set verification
    | ListOp(kind: Kind)
    | ImportOp(record: Record)        // no-replace publication
    | RemoveOp(record: Record)
    | CheckOp
    | SubmitOp                        // the form POST
    | NoOp

  datatype Response =
    | Found
    | Absent
    | Listed(records: seq<Record>)
    | Imported(written: bool)
    | Removed(hadState: bool)
    | Staged                          // a removal took the name away, or found it gone, and goes on
    | Checked
    | Submitted
    | Fault                           // error, cancellation, ambiguous result

  predicate Fits(op: Op, resp: Response) {
    resp.Fault? ||
    match op
    case LookOp(_) => resp.Found? || resp.Absent?
    case ListOp(_) => resp.Listed?
    case ImportOp(_) => resp.Imported?
    case RemoveOp(_) => resp.Removed? || resp.Staged?
    case CheckOp => resp.Checked?
    case SubmitOp => resp.Submitted?
    case NoOp => false
  }

  ghost predicate Enumerates(q: seq<Record>, s: set<Record>, k: Kind) {
    && (forall a, b :: 0 <= a < b < |q| ==> q[a] != q[b])
    && forall r :: r in q <==> r in s && KindOf(r) == k
  }

  /**
    The store's contract: every operation takes effect at one instant, except that a removal may
    first take the name away any number of times.  A fault may or may not have left the effect of a
    write behind.  A removal reports recovered residue as removed.
   */
  ghost predicate Responds(s: set<Record>, op: Op, resp: Response, s': set<Record>) {
    && Fits(op, resp)
    && match op
       case LookOp(r) => s' == s && (resp.Found? ==> r in s) && (resp.Absent? ==> r !in s)
       case ListOp(k) => s' == s && (resp.Listed? ==> Enumerates(resp.records, s, k))
       case ImportOp(r) =>
         if resp.Fault? then s' == s || s' == s + {r}
         else resp.written == (r !in s) && s' == s + {r}
       case RemoveOp(r) =>
         if resp.Fault? || resp.Staged? then s' == s || s' == s - {r}
         else (r in s ==> resp.hadState) && s' == s - {r}
       case CheckOp => s' == s
       case SubmitOp => s' == s
       case NoOp => false
  }

  /** Who asked for a status: a caller, or a prune of the named operation. */
  datatype Caller = Api | ByPrune(operationId: string)

  /** What a two-pass scan of tombstones or forget markers is looking for. */
  datatype Goal =
    | StatusForget(intent: IntentRecord, caller: Caller)
    | StatusRetention(intent: IntentRecord, caller: Caller)
    | PruneForget(intent: IntentRecord, operationId: string)
    | PruneRetention(intent: IntentRecord, operationId: string)
    | ForgetMarker(retention: RetentionRecord, operationId: string)

  function GoalKind(g: Goal): Kind {
    if g.StatusRetention? || g.PruneRetention? then RetentionKind else ForgetKind
  }

  predicate Selects(g: Goal, r: Record) {
    match g
    case StatusForget(i, _) => r.Forget? && r.forget.retention.intentRef == IntentRef(i)
    case StatusRetention(i, _) => r.Retention? && r.retention.intentRef == IntentRef(i)
    case PruneForget(i, _) => r.Forget? && r.forget.retention.intentRef == IntentRef(i)
    case PruneRetention(i, _) => r.Retention? && r.retention.intentRef == IntentRef(i)
    case ForgetMarker(ret, _) => r.Forget? && r.forget.retentionRef == Ref(Retention(ret))
  }

  datatype Result =
    | Stopped
    | MultipleOutcomes
    | StatusIs(intent: IntentRecord, verdict: Verdict, outcome: Option<OutcomeRecord>)
    | OutcomeStored(stored: OutcomeRecord)
    | PruneDone(retention: RetentionRecord)
    | ForgetDone(retention: RetentionRecord)

  datatype Pc =
    // ReserveAttempt
    | ReserveCheck(intent: IntentRecord)
    | ReserveImport(intent: IntentRecord)
    | ReserveList(intent: IntentRecord)
    | ReserveScan(intent: IntentRecord, queue: seq<Record>, found: Option<OutcomeRecord>)
    | ReserveVerify(intent: IntentRecord, index: nat)
    | Acquired(intent: IntentRecord)
    | Posted(intent: IntentRecord)
    // StoreOutcome
    | OutcomeImport(intent: IntentRecord, outcome: OutcomeRecord)
    | OutcomeVerify(intent: IntentRecord, outcome: OutcomeRecord, index: nat)
    // the stable two-pass scans
    | ScanList(goal: Goal, second: bool, before: seq<Record>)
    | ScanLoad(goal: Goal, second: bool, before: seq<Record>, queue: seq<Record>, hit: Option<Record>)
    // Status
    | StatusRemain(intent: IntentRecord, caller: Caller, retention: RetentionRecord, index: nat)
    | StatusIntent(intent: IntentRecord, caller: Caller)
    | StatusList(intent: IntentRecord, caller: Caller)
    | StatusScan(intent: IntentRecord, caller: Caller, queue: seq<Record>, found: Option<OutcomeRecord>)
    | StatusAttempt(intent: IntentRecord, caller: Caller, found: Option<OutcomeRecord>)
    | StatusVerify(intent: IntentRecord, caller: Caller, marked: bool, found: Option<OutcomeRecord>, index: nat)
    // Prune
    | PruneImport(retention: RetentionRecord)
    | PruneConfirmSet(retention: RetentionRecord, index: nat)
    | PruneConfirm(retention: RetentionRecord, index: nat)
    | PruneRemove(retention: RetentionRecord, index: nat)
    | PruneFinish(retention: RetentionRecord, index: nat)
    // Forget
    | ForgetLoad(retention: RetentionRecord, operationId: string)
    | ForgetAbsent(retention: RetentionRecord, published: bool, index: nat)
    | ForgetImport(retention: RetentionRecord)
    | ForgetConfirm(retention: RetentionRecord, index: nat)
    | ForgetRemove(retention: RetentionRecord, last: bool)
    | ForgetCheck(retention: RetentionRecord)
    | Done(result: Result)

  /** The places of a reservation, up to the submission. */
  predicate IsReserve(pc: Pc) {
    pc.ReserveCheck? || pc.ReserveImport? || pc.ReserveList? || pc.ReserveScan? || pc.ReserveVerify? || pc.Acquired?
  }

  /** The chain a tombstone stands for, in the order prune removes it. */
  function Original(r: RetentionRecord, index: nat): Record {
    if index == 0 then r.intentRef.of else if index == 1 then r.attemptRef.of else r.outcomeRef.of
  }

  /** The sets whose records are verified one after the other. */
  function ReserveSet(i: IntentRecord): seq<Record> { [Intent(i), Marker(i)] }

  function OutcomeSet(i: IntentRecord, o: OutcomeRecord): seq<Record> { [Intent(i), Marker(i), Outcome(o)] }

  function StatusSet(i: IntentRecord, marked: bool, found: Option<OutcomeRecord>): seq<Record> {
    if !marked then [Intent(i)]
    else if found.None? then [Intent(i), Marker(i)]
    else [Intent(i), Marker(i), Outcome(found.value)]
  }

  /** A durability confirmation verifies its set twice, around a directory sync. */
  function Twice(q: seq<Record>): seq<Record> { q + q }

  function TombstoneSet(r: RetentionRecord): seq<Record> { Twice([Retention(r)]) }

  function PruneSet(r: RetentionRecord): seq<Record> {
    Twice([Retention(r), r.intentRef.of, r.attemptRef.of, r.outcomeRef.of])
  }

  function ForgetSet(r: RetentionRecord): seq<Record> { Twice([Forget(ForgetFor(r))]) }

  function Head(q: seq<Record>): Op {
    if q == [] then NoOp else LookOp(q[0])
  }

  function At(q: seq<Record>, index: nat): Op {
    if index < |q| then LookOp(q[index]) else NoOp
  }

  function Want(pc: Pc): Op {
    match pc
    case ReserveCheck(i) => LookOp(Intent(i))
    case ReserveImport(i) => ImportOp(Marker(i))
    case ReserveList(_) => ListOp(OutcomeKind)
    case ReserveScan(_, q, _) => Head(q)
    case ReserveVerify(i, k) => At(ReserveSet(i), k)
    case Acquired(_) => SubmitOp
    case Posted(_) => NoOp
    case OutcomeImport(_, o) => ImportOp(Outcome(o))
    case OutcomeVerify(i, o, k) => At(OutcomeSet(i, o), k)
    case ScanList(g, _, _) => ListOp(GoalKind(g))
    case ScanLoad(_, _, _, q, _) => Head(q)
    case StatusRemain(_, _, r, k) => LookOp(Original(r, k))
    case StatusIntent(i, _) => LookOp(Intent(i))
    case StatusList(_, _) => ListOp(OutcomeKind)
    case StatusScan(_, _, q, _) => Head(q)
    case StatusAttempt(i, _, _) => LookOp(Marker(i))
    case StatusVerify(i, _, marked, m, k) => At(StatusSet(i, marked, m), k)
    case PruneImport(r) => ImportOp(Retention(r))
    case PruneConfirmSet(r, k) => At(PruneSet(r), k)
    case PruneConfirm(r, k) => At(TombstoneSet(r), k)
    case PruneRemove(r, k) => RemoveOp(Original(r, k))
    case PruneFinish(r, k) => At(TombstoneSet(r), k)
    case ForgetLoad(r, _) => LookOp(Retention(r))
    case ForgetAbsent(r, _, k) => LookOp(Original(r, k))
    case ForgetImport(r) => ImportOp(Forget(ForgetFor(r)))
    case ForgetConfirm(r, k) => At(ForgetSet(r), k)
    case ForgetRemove(r, last) => RemoveOp(if last then Forget(ForgetFor(r)) else Retention(r))
    case ForgetCheck(_) => CheckOp
    case Done(_) => NoOp
  }

  const STOP := Done(Stopped)

  // ---------------------------------------------------------------- the outcome scan

  /** One loaded outcome: skipped, matched, a broken link, or a second match. */
  datatype Scanned = Skip | Match(outcome: OutcomeRecord) | Broken | Second

  function ScanOne(i: IntentRecord, r: Record, found: Option<OutcomeRecord>): Scanned {
    if !r.Outcome? || r.outcome.operationId != i.operationId then Skip
    else if !Linked(r.outcome, i) then Broken
    else if found.Some? then Second
    else Match(r.outcome)
  }

  // ---------------------------------------------------------------- ReserveAttempt

  function ReserveNext(i: IntentRecord, queue: seq<Record>, found: Option<OutcomeRecord>): Pc {
    if queue != [] then ReserveScan(i, queue, found)
    else if found.Some? then STOP
    else ReserveVerify(i, 0)
  }

  function ReserveScanned(i: IntentRecord, queue: seq<Record>, found: Option<OutcomeRecord>): Pc {
    if queue == [] then STOP else
    match ScanOne(i, queue[0], found)
    case Skip => ReserveNext(i, queue[1..], found)
    case Match(o) => ReserveNext(i, queue[1..], Some(o))
    case Broken => STOP
    case Second => Done(MultipleOutcomes)
  }

  /** Where the call of a bound authority begins: nowhere, if its outcome does not match the intent. */
  function BoundPlace(i: IntentRecord, receipt: ExchangeReceipt): Pc {
    var o := OutcomeFor(i, receipt);
    if Linked(o, i) then OutcomeImport(i, o) else STOP
  }

  // ---------------------------------------------------------------- Status

  /** A status as its caller sees it: an answer, or the decision a prune takes on it. */
  function StatusExit(i: IntentRecord, caller: Caller, v: Verdict, found: Option<OutcomeRecord>): Pc {
    match caller
    case Api => Done(StatusIs(i, v, found))
    case ByPrune(op) =>
      if i.operationId == op && TerminalState(v) && found.Some? then PruneImport(RetentionFor(i, found.value))
      else STOP
  }

  function StatusNext(i: IntentRecord, caller: Caller, queue: seq<Record>, found: Option<OutcomeRecord>): Pc {
    if queue != [] then StatusScan(i, caller, queue, found) else StatusAttempt(i, caller, found)
  }

  function StatusScanned(i: IntentRecord, caller: Caller, queue: seq<Record>, found: Option<OutcomeRecord>): Pc {
    if queue == [] then STOP else
    match ScanOne(i, queue[0], found)
    case Skip => StatusNext(i, caller, queue[1..], found)
    case Match(o) => StatusNext(i, caller, queue[1..], Some(o))
    case Broken => STOP
    case Second => Done(MultipleOutcomes)
  }

  function CandidateState(marked: bool, found: Option<OutcomeRecord>): Verdict {
    if !marked then Prepared
    else if found.None? then AttemptReservedUnknown
    else StateFromOutcome(found.value.receipt.outcome)
  }

  // ---------------------------------------------------------------- the two-pass scans

  function ScanStart(g: Goal): Pc { ScanList(g, false, []) }

  /** The scans with which a status, a prune and a forget begin. */
  predicate ScanOpens(pc: Pc) {
    && pc.ScanList? && pc == ScanStart(pc.goal)
    && ((pc.goal.StatusForget? && pc.goal.caller == Api) || pc.goal.PruneForget? || pc.goal.ForgetMarker?)
  }

  /** Where a finished scan leads. */
  function ScanExit(g: Goal, found: Option<Record>): Pc {
    match g
    case StatusForget(i, c) =>
      if found.Some? && found.value.Forget? then StatusExit(i, c, Forgetting, Some(found.value.forget.retention.outcome))
      else ScanStart(StatusRetention(i, c))
    case StatusRetention(i, c) =>
      if found.Some? && found.value.Retention? then StatusRemain(i, c, found.value.retention, 0)
      else StatusIntent(i, c)
    case PruneForget(i, op) =>
      if found.Some? then STOP else ScanStart(PruneRetention(i, op))
    case PruneRetention(i, op) =>
      if found.Some? && found.value.Retention? then
        if found.value.retention.operationId == op then PruneBegin(found.value.retention) else STOP
      else ScanStart(StatusForget(i, ByPrune(op)))
    case ForgetMarker(r, op) =>
      if found.Some? && found.value.Forget? then
        if found.value.forget.operationId == op then ForgetAbsent(found.value.forget.retention, true, 0) else STOP
      else ForgetLoad(r, op)
  }

  function ScanNext(g: Goal, second: bool, before: seq<Record>, queue: seq<Record>, found: Option<Record>): Pc {
    if queue != [] then ScanLoad(g, second, before, queue, found)
    else if !second then ScanList(g, true, before)
    else ScanExit(g, found)
  }

  function ScanLoaded(g: Goal, second: bool, before: seq<Record>, queue: seq<Record>, found: Option<Record>): Pc {
    if queue == [] then STOP else
    if !Selects(g, queue[0]) then ScanNext(g, second, before, queue[1..], found)
    else if found.Some? then STOP
    else ScanNext(g, second, before, queue[1..], Some(queue[0]))
  }

  // ---------------------------------------------------------------- Prune and Forget

  function PruneBegin(r: RetentionRecord): Pc { PruneConfirm(r, 0) }

  function ListedRecords(resp: Response): seq<Record> {
    if resp.Listed? then resp.records else []
  }

  function Advance(pc: Pc, resp: Response): Pc {
    if resp.Fault? then STOP else
    match pc
    case ReserveCheck(i) => if resp.Found? then ReserveImport(i) else STOP
    case ReserveImport(i) => if resp == Imported(true) then ReserveList(i) else STOP
    case ReserveList(i) => ReserveNext(i, ListedRecords(resp), None)
    case ReserveScan(i, q, m) => if resp.Found? then ReserveScanned(i, q, m) else STOP
    case ReserveVerify(i, k) =>
      if resp.Absent? then STOP
      else if k + 1 < |ReserveSet(i)| then ReserveVerify(i, k + 1) else Acquired(i)
    case Acquired(i) => Posted(i)
    case OutcomeImport(i, o) => OutcomeVerify(i, o, 0)
    case OutcomeVerify(i, o, k) =>
      if resp.Absent? then STOP
      else if k + 1 < |OutcomeSet(i, o)| then OutcomeVerify(i, o, k + 1) else Done(OutcomeStored(o))
    case ScanList(g, second, before) =>
      if second && ListedRecords(resp) != before then STOP
      else ScanNext(g, second, ListedRecords(resp), ListedRecords(resp), None)
    case ScanLoad(g, second, before, q, m) => if resp.Found? then ScanLoaded(g, second, before, q, m) else STOP
    case StatusRemain(i, c, r, k) =>
      if resp.Found? then StatusExit(i, c, Pruning, Some(r.outcome))
      else if k < 2 then StatusRemain(i, c, r, k + 1)
      else StatusExit(i, c, Pruned, Some(r.outcome))
    case StatusIntent(i, c) => if resp.Found? then StatusList(i, c) else STOP
    case StatusList(i, c) => StatusNext(i, c, ListedRecords(resp), None)
    case StatusScan(i, c, q, m) => if resp.Found? then StatusScanned(i, c, q, m) else STOP
    case StatusAttempt(i, c, m) =>
      if resp.Absent? && m.Some? then STOP
      else StatusVerify(i, c, resp.Found?, m, 0)
    case StatusVerify(i, c, marked, m, k) =>
      if resp.Absent? then STOP
      else if k + 1 < |StatusSet(i, marked, m)| then StatusVerify(i, c, marked, m, k + 1)
      else StatusExit(i, c, CandidateState(marked, m), m)
    case PruneImport(r) => PruneConfirmSet(r, 0)
    case PruneConfirmSet(r, k) =>
      if resp.Absent? then STOP
      else if k + 1 < |PruneSet(r)| then PruneConfirmSet(r, k + 1) else PruneBegin(r)
    case PruneConfirm(r, k) =>
      if resp.Absent? then STOP
      else if k + 1 < |TombstoneSet(r)| then PruneConfirm(r, k + 1) else PruneRemove(r, 0)
    case PruneRemove(r, k) =>
      if resp.Staged? then pc
      else if k < 2 then PruneRemove(r, k + 1) else PruneFinish(r, 0)
    case PruneFinish(r, k) =>
      if resp.Absent? then STOP
      else if k + 1 < |TombstoneSet(r)| then PruneFinish(r, k + 1) else Done(PruneDone(r))
    case ForgetLoad(r, op) =>
      if resp.Absent? || r.operationId != op then STOP else ForgetAbsent(r, false, 0)
    case ForgetAbsent(r, published, k) =>
      if resp.Found? then STOP
      else if k < 2 then ForgetAbsent(r, published, k + 1)
      else if published then ForgetConfirm(r, 0) else ForgetImport(r)
    case ForgetImport(r) => ForgetAbsent(r, true, 0)
    case ForgetConfirm(r, k) =>
      if resp.Absent? then STOP
      else if k + 1 < |ForgetSet(r)| then ForgetConfirm(r, k + 1) else ForgetRemove(r, false)
    case ForgetRemove(r, last) => if resp.Staged? then pc else if last then ForgetCheck(r) else ForgetRemove(r, true)
    case ForgetCheck(r) => Done(ForgetDone(r))
    case Posted(_) => STOP
    case Done(_) => STOP
  }
}
