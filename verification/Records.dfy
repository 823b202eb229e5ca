/**
  The five record kinds of the bonus-exchange store (internal/bonusexchange/types.go).

  A record's ID is a SHA-256 digest over its kind and its canonical bytes, and the canonical
  bytes are a function of the record.  The model takes the digest to be collision free: a
  reference is the record it addresses, so equal references mean equal records of equal kind.
 */
module Records {
  import opened Basics

  const INTENT_SCHEMA := "ptctl.site-bonus-exchange-intent/v1"
  const ATTEMPT_SCHEMA := "ptctl.site-bonus-exchange-attempt/v1"
  const OUTCOME_SCHEMA := "ptctl.site-bonus-exchange-outcome/v1"
  const RETENTION_SCHEMA := "ptctl.site-bonus-exchange-retention/v1"
  const FORGET_SCHEMA := "ptctl.site-bonus-exchange-forget/v1"
  const RETENTION_BASIS := "exact_terminal_bonus_exchange_record_set"
  const FORGET_BASIS := "exact_bonus_exchange_retention_selected_for_erasure"
  const INPUT_NONE := "none"
  const SUBMIT_EFFECT := "submit_site_bonus_exchange"
  const ZERO_TIME := "0001-01-01T00:00:00Z"

  /** The identity of the store at hand: sessions refuse tombstones and markers of any other. */
  const STORE_ID: string

  const OUTCOME_CONFIRMED := "confirmed"
  const OUTCOME_REJECTED := "rejected"
  const OUTCOME_NOT_SUBMITTED := "not_submitted"
  const OUTCOME_UNKNOWN := "unknown"

  datatype Kind = IntentKind | AttemptKind | OutcomeKind | RetentionKind | ForgetKind

  /** The states an operation can be reported in. */
  datatype Verdict =
    | Prepared
    | AttemptReservedUnknown
    | Confirmed
    | Rejected
    | Unknown
    | NotSubmitted
    | InspectionIncomplete
    | Pruning
    | Pruned
    | Forgetting

  datatype ReviewLimits = ReviewLimits(
    maxRequests: Int64, maxResponseBytes: Int64, maxResponseHeaderBytes: Int64, maxForms: Int64,
    maxFields: Int64, maxTokens: Int64, maxVisibleTextBytes: Int64)

  datatype ExchangeLimits = ExchangeLimits(
    maxSessionRequests: Int64, maxSubmissionRequests: Int64, maxFormFields: Int64, maxFormBytes: Int64,
    maxResponseBytes: Int64, maxResponseHeaderBytes: Int64)

  datatype ExchangeUsage = ExchangeUsage(
    totalRequests: Int64, reviewRequests: Int64, submissionRequests: Int64, automaticRetries: Int64,
    redirects: Int64, formFields: Int64, formBytes: Int64, responseBytes: Int64, responseBytesKnown: bool)

  /** Times are their canonical RFC 3339 text in UTC. */
  datatype IntentRecord = IntentRecord(
    schema: string, operationId: string, siteId: string, selector: string, expectedReviewId: string,
    origin: string, reviewRouteId: string, actionRouteId: string, inputMode: string,
    createdAt: string, reviewLimits: ReviewLimits, exchangeLimits: ExchangeLimits)

  datatype AttemptRecord = AttemptRecord(
    schema: string, operationId: string, intentRecordId: RecordRef, siteId: string, selector: string,
    expectedReviewId: string, origin: string, reviewRouteId: string, actionRouteId: string)

  /** What the site adapter reports about one submission. */
  datatype ExchangeReceipt = ExchangeReceipt(
    effect: string, siteId: string, selector: string, expectedReviewId: string, freshReviewId: string,
    origin: string, reviewRouteId: string, actionRouteId: string, observedAtStart: string, observedAtEnd: string,
    complete: bool, requestAttempted: bool, responseComplete: bool, outcome: string, confirmationCode: string,
    limits: ExchangeLimits, used: ExchangeUsage, stopReason: string)

  datatype OutcomeRecord = OutcomeRecord(
    schema: string, operationId: string, intentRecordId: RecordRef, attemptRecordId: RecordRef,
    recordedAt: string, receipt: ExchangeReceipt)

  datatype RetentionRecord = RetentionRecord(
    schema: string, basis: string, storeId: string, operationId: string, terminalState: Verdict,
    intent: IntentRecord, intentRef: RecordRef,
    attempt: AttemptRecord, attemptRef: RecordRef,
    outcome: OutcomeRecord, outcomeRef: RecordRef)

  datatype ForgetRecord = ForgetRecord(
    schema: string, basis: string, storeId: string, operationId: string,
    retention: RetentionRecord, retentionRef: RecordRef)

  /** A site observation; the identity tells equal receipts of different objects apart. */
  datatype Observation = Observation(identity: nat, receipt: ExchangeReceipt)

  datatype Record =
    | Intent(intent: IntentRecord)
    | Attempt(attempt: AttemptRecord)
    | Outcome(outcome: OutcomeRecord)
    | Retention(retention: RetentionRecord)
    | Forget(forget: ForgetRecord)

  /** A locator: the content it addresses stands for kind and digest. */
  datatype RecordRef = Ref(of: Record)

  function KindOf(r: Record): Kind {
    match r
    case Intent(_) => IntentKind
    case Attempt(_) => AttemptKind
    case Outcome(_) => OutcomeKind
    case Retention(_) => RetentionKind
    case Forget(_) => ForgetKind
  }

  // ---------------------------------------------------------------- value checks

  predicate LowerHex(c: char) {
    '0' <= c <= '9' || 'a' <= c <= 'f'
  }

  /** "sha256:" followed by 64 lower-case hexadecimal digits. */
  predicate ValidSha256Id(value: string) {
    && |value| == 71
    && value[..7] == "sha256:"
    && forall k :: 7 <= k < 71 ==> LowerHex(value[k])
  }

  /** The number of bytes of a text in UTF-8; a character is a Unicode scalar value. */
  function Utf8Size(value: string): nat {
    if value == "" then 0
    else
      var c := value[|value| - 1] as int;
      Utf8Size(value[..|value| - 1]) + if c < 0x80 then 1 else if c < 0x800 then 2 else if c < 0x10000 then 3 else 4
  }

  predicate SafeText(value: string, maximum: nat) {
    && value != "" && Utf8Size(value) <= maximum
    && forall k :: 0 <= k < |value| ==> ' ' <= value[k] && value[k] != '\U{7F}'
  }

  predicate ValidRouteId(value: string) {
    && 0 < |value| <= 128
    && forall k :: 0 <= k < |value| ==>
         'a' <= value[k] <= 'z' || '0' <= value[k] <= '9' || value[k] == '.' || value[k] == '_' || value[k] == '-'
  }

  predicate Digits(value: string, from: nat, to: nat)
    requires from <= to <= |value|
  {
    forall k :: from <= k < to ==> '0' <= value[k] <= '9'
  }

  /** "2006-01-02T15:04:05Z", with a fraction of up to nine digits that does not end in zero. */
  predicate UtcTime(value: string) {
    && 20 <= |value| <= 30
    && Digits(value, 0, 4) && value[4] == '-' && Digits(value, 5, 7) && value[7] == '-' && Digits(value, 8, 10)
    && value[10] == 'T' && Digits(value, 11, 13) && value[13] == ':' && Digits(value, 14, 16) && value[16] == ':'
    && Digits(value, 17, 19) && value[|value| - 1] == 'Z'
    && (|value| > 20 ==> |value| > 21 && value[19] == '.' && Digits(value, 20, |value| - 1) && value[|value| - 2] != '0')
  }

  predicate ValidTime(value: string) { UtcTime(value) && value != ZERO_TIME }

  predicate ValidReviewLimits(l: ReviewLimits) {
    && l.maxRequests == 1
    && 0 < l.maxResponseBytes <= 0x80_0000 && 0 < l.maxResponseHeaderBytes <= 0x1_0000
    && 0 < l.maxForms <= 256 && 0 < l.maxFields <= 8192 && 0 < l.maxTokens <= 200000 && 0 < l.maxVisibleTextBytes <= 0x10_0000
  }

  predicate ValidExchangeLimits(l: ExchangeLimits) {
    && l.maxSessionRequests == 2 && l.maxSubmissionRequests == 1
    && 0 < l.maxFormFields <= 256 && 0 < l.maxFormBytes <= 0x1_0000
    && 0 < l.maxResponseBytes <= 0x80_0000 && 0 < l.maxResponseHeaderBytes <= 0x1_0000
  }

  predicate ValidIntent(r: IntentRecord) {
    && r.schema == INTENT_SCHEMA
    && ValidSha256Id(r.operationId)
    && SafeText(r.siteId, 128)
    && SafeText(r.selector, 128)
    && ValidSha256Id(r.expectedReviewId)
    && ValidRouteId(r.reviewRouteId) && ValidRouteId(r.actionRouteId)
    && r.inputMode == INPUT_NONE
    && ValidTime(r.createdAt)
    && ValidReviewLimits(r.reviewLimits) && ValidExchangeLimits(r.exchangeLimits)
  }

  predicate ValidAttempt(r: AttemptRecord) {
    && r.schema == ATTEMPT_SCHEMA
    && ValidSha256Id(r.operationId)
    && SafeText(r.siteId, 128)
    && SafeText(r.selector, 128)
    && ValidSha256Id(r.expectedReviewId)
    && ValidRouteId(r.reviewRouteId) && ValidRouteId(r.actionRouteId)
  }

  /** The counters of a receipt stay within its limits and within one review and one submission. */
  predicate ValidUsage(u: ExchangeUsage, l: ExchangeLimits) {
    && u.reviewRequests == 1 && 1 <= u.totalRequests <= 2
    && u.automaticRetries == 0 && u.redirects == 0
    && 0 <= u.formFields <= l.maxFormFields && 0 <= u.formBytes <= l.maxFormBytes && 0 <= u.responseBytes <= l.maxResponseBytes
  }

  predicate ValidReceipt(r: ExchangeReceipt) {
    && r.effect == SUBMIT_EFFECT && r.complete && ValidExchangeLimits(r.limits)
    && SafeText(r.siteId, 128) && SafeText(r.selector, 128)
    && ValidSha256Id(r.expectedReviewId) && r.freshReviewId == r.expectedReviewId
    && ValidTime(r.observedAtStart) && ValidTime(r.observedAtEnd)
    && ValidRouteId(r.reviewRouteId) && ValidRouteId(r.actionRouteId)
    && ValidUsage(r.used, r.limits)
    && (if r.requestAttempted
        then r.used.submissionRequests == 1 && r.used.totalRequests == 2 && r.used.formFields > 0 && r.used.formBytes > 0
        else r.used.submissionRequests == 0 && r.used.totalRequests == 1 && r.used.formFields == 0 && r.used.formBytes == 0
             && !r.responseComplete && !r.used.responseBytesKnown && r.used.responseBytes == 0)
    && r.responseComplete == r.used.responseBytesKnown
    && if r.outcome == OUTCOME_CONFIRMED then
         r.requestAttempted && r.responseComplete && ValidRouteId(r.confirmationCode) && r.stopReason == ""
       else
         && ValidRouteId(r.stopReason) && r.confirmationCode == ""
         && if r.outcome == OUTCOME_REJECTED then r.requestAttempted && r.responseComplete
            else if r.outcome == OUTCOME_UNKNOWN then r.requestAttempted
            else r.outcome == OUTCOME_NOT_SUBMITTED && !r.requestAttempted
  }

  predicate ValidOutcome(r: OutcomeRecord) {
    && r.schema == OUTCOME_SCHEMA
    && ValidSha256Id(r.operationId)
    && ValidTime(r.recordedAt)
    && ValidReceipt(r.receipt)
  }

  predicate AttemptMatchesIntent(a: AttemptRecord, i: IntentRecord, ref: RecordRef) {
    && ValidAttempt(a)
    && ValidIntent(i)
    && KindOf(ref.of) == IntentKind
    && a.intentRecordId == ref
    && a.operationId == i.operationId
    && a.siteId == i.siteId
    && a.selector == i.selector
    && a.expectedReviewId == i.expectedReviewId
    && a.origin == i.origin
    && a.reviewRouteId == i.reviewRouteId
    && a.actionRouteId == i.actionRouteId
  }

  predicate OutcomeMatches(o: OutcomeRecord, i: IntentRecord, intentRef: RecordRef, a: AttemptRecord, attemptRef: RecordRef) {
    && ValidOutcome(o)
    && AttemptMatchesIntent(a, i, intentRef)
    && KindOf(attemptRef.of) == AttemptKind
    && o.operationId == i.operationId
    && o.intentRecordId == intentRef
    && o.attemptRecordId == attemptRef
    && o.receipt.siteId == i.siteId
    && o.receipt.selector == i.selector
    && o.receipt.expectedReviewId == i.expectedReviewId
    && o.receipt.freshReviewId == i.expectedReviewId
    && o.receipt.origin == i.origin
    && o.receipt.reviewRouteId == i.reviewRouteId
    && o.receipt.actionRouteId == i.actionRouteId
    && o.receipt.limits == i.exchangeLimits
  }

  predicate TerminalState(v: Verdict) {
    v.Confirmed? || v.Rejected? || v.Unknown? || v.NotSubmitted?
  }

  function StateFromOutcome(outcome: string): (v: Verdict)
    ensures TerminalState(v)
  {
    if outcome == OUTCOME_CONFIRMED then Confirmed
    else if outcome == OUTCOME_REJECTED then Rejected
    else if outcome == OUTCOME_NOT_SUBMITTED then NotSubmitted
    else Unknown
  }

  /** What a terminal state says about the submission, in terms of the receipt alone. */
  ghost predicate Tells(v: Verdict, receipt: ExchangeReceipt) {
    && (v.Confirmed? <==> receipt.outcome == "confirmed")
    && (v.Rejected? <==> receipt.outcome == "rejected")
    && (v.Unknown? <==> receipt.outcome == "unknown")
    && (v.NotSubmitted? <==> receipt.outcome == "not_submitted")
    && (v.NotSubmitted? <==> !receipt.requestAttempted)
    && (v.Confirmed? || v.Rejected? ==> receipt.requestAttempted && receipt.responseComplete)
  }

  lemma StateTells(receipt: ExchangeReceipt)
    requires ValidReceipt(receipt)
    ensures Tells(StateFromOutcome(receipt.outcome), receipt)
  {
    hide SafeText, ValidSha256Id, ValidRouteId, ValidTime, ValidUsage, ValidExchangeLimits;
  }

  /** The record's own validation, and the store identity every session compares with its own. */
  predicate ValidRetention(r: RetentionRecord) {
    && r.schema == RETENTION_SCHEMA
    && r.basis == RETENTION_BASIS
    && r.storeId == STORE_ID
    && ValidIntent(r.intent) && ValidAttempt(r.attempt) && ValidOutcome(r.outcome)
    && r.operationId == r.intent.operationId
    && AttemptMatchesIntent(r.attempt, r.intent, r.intentRef)
    && OutcomeMatches(r.outcome, r.intent, r.intentRef, r.attempt, r.attemptRef)
    && r.terminalState == StateFromOutcome(r.outcome.receipt.outcome)
    && TerminalState(r.terminalState)
    && r.intentRef == Ref(Intent(r.intent))
    && r.attemptRef == Ref(Attempt(r.attempt))
    && r.outcomeRef == Ref(Outcome(r.outcome))
  }

  predicate ValidForget(r: ForgetRecord) {
    && r.schema == FORGET_SCHEMA
    && r.basis == FORGET_BASIS
    && r.storeId == STORE_ID && r.storeId == r.retention.storeId
    && ValidRetention(r.retention)
    && r.operationId == r.retention.operationId
    && r.retentionRef == Ref(Retention(r.retention))
  }

  // ---------------------------------------------------------------- deterministic content

  function IntentRef(i: IntentRecord): RecordRef { Ref(Intent(i)) }

  function AttemptFromIntent(i: IntentRecord): AttemptRecord {
    AttemptRecord(ATTEMPT_SCHEMA, i.operationId, IntentRef(i), i.siteId, i.selector, i.expectedReviewId,
                  i.origin, i.reviewRouteId, i.actionRouteId)
  }

  /** The one attempt marker an intent can have. */
  function Marker(i: IntentRecord): Record { Attempt(AttemptFromIntent(i)) }

  function OutcomeFor(i: IntentRecord, receipt: ExchangeReceipt): OutcomeRecord {
    OutcomeRecord(OUTCOME_SCHEMA, i.operationId, IntentRef(i), Ref(Marker(i)), receipt.observedAtEnd, receipt)
  }

  function RetentionFor(i: IntentRecord, o: OutcomeRecord): RetentionRecord {
    RetentionRecord(RETENTION_SCHEMA, RETENTION_BASIS, STORE_ID, i.operationId, StateFromOutcome(o.receipt.outcome),
                    i, IntentRef(i), AttemptFromIntent(i), Ref(Marker(i)), o, Ref(Outcome(o)))
  }

  function ForgetFor(r: RetentionRecord): ForgetRecord {
    ForgetRecord(FORGET_SCHEMA, FORGET_BASIS, STORE_ID, r.operationId, r, Ref(Retention(r)))
  }

  /** The outcome names this intent by reference. */
  predicate OutcomeOf(o: OutcomeRecord, i: IntentRecord) {
    o.intentRecordId == IntentRef(i)
  }

  /** The outcome passes the full link check against the chain of this intent. */
  predicate Linked(o: OutcomeRecord, i: IntentRecord) {
    OutcomeMatches(o, i, IntentRef(i), AttemptFromIntent(i), Ref(Marker(i)))
  }

  /** The site's observation is of the submission this intent describes. */
  predicate ObservationMatches(receipt: ExchangeReceipt, i: IntentRecord) {
    && ValidReceipt(receipt)
    && receipt.siteId == i.siteId
    && receipt.selector == i.selector
    && receipt.expectedReviewId == i.expectedReviewId
    && receipt.freshReviewId == i.expectedReviewId
    && receipt.origin == i.origin
    && receipt.reviewRouteId == i.reviewRouteId
    && receipt.actionRouteId == i.actionRouteId
  }

  lemma ValidChain(i: IntentRecord)
    requires ValidIntent(i)
    ensures AttemptMatchesIntent(AttemptFromIntent(i), i, IntentRef(i))
  {
  }

  /**
    A tombstone built from a linked chain validates, and a tombstone that validates is the one
    built from its own chain: publishing a tombstone loses nothing that a later prune needs.
   */
  lemma RetentionDeterministic(r: RetentionRecord)
    ensures ValidRetention(r) <==> Linked(r.outcome, r.intent) && r == RetentionFor(r.intent, r.outcome)
    ensures ValidRetention(r) ==> Tells(r.terminalState, r.outcome.receipt)
  {
    if ValidRetention(r) {
      assert r.attempt == AttemptFromIntent(r.intent);
      StateTells(r.outcome.receipt);
    }
    if Linked(r.outcome, r.intent) && r == RetentionFor(r.intent, r.outcome) {
      assert ValidOutcome(r.outcome);
    }
  }

  lemma ForgetDeterministic(f: ForgetRecord)
    ensures ValidForget(f) <==> ValidRetention(f.retention) && f == ForgetFor(f.retention)
  {
  }

  // ---------------------------------------------------------------- what validity means

  const HEX_DIGITS := "0123456789abcdef"

  lemma HexTable(c: char)
    ensures LowerHex(c) <==> c in HEX_DIGITS
  {
    assert LowerHex(c) ==> HEX_DIGITS[if c <= '9' then c as int - '0' as int else 10 + (c as int - 'a' as int)] == c;
  }

  /** An ID is its prefix and sixty-four hexadecimal digits. */
  lemma IdMeans(value: string)
    ensures ValidSha256Id(value) <==> exists h: string :: |h| == 64 && value == "sha256:" + h && forall k :: 0 <= k < 64 ==> h[k] in HEX_DIGITS
  {
    hide LowerHex;
    if ValidSha256Id(value) {
      var h := value[7..];
      assert value == "sha256:" + h;
      forall k | 0 <= k < 64 ensures h[k] in HEX_DIGITS { HexTable(value[7 + k]); }
    }
    if h: string :| |h| == 64 && value == "sha256:" + h && forall k :: 0 <= k < 64 ==> h[k] in HEX_DIGITS {
      assert value[..7] == "sha256:";
      forall k | 7 <= k < 71 ensures LowerHex(value[k]) {
        assert value[k] == h[k - 7];
        HexTable(h[k - 7]);
      }
    }
  }

  const LETTERS := "abcdefghijklmnopqrstuvwxyz"
  const DECIMALS := "0123456789"

  lemma LetterTable(c: char)
    ensures 'a' <= c <= 'z' <==> c in LETTERS
  {
    assert 'a' <= c <= 'z' ==> LETTERS[c as int - 'a' as int] == c;
  }

  lemma DecimalTable(c: char)
    ensures '0' <= c <= '9' <==> c in DECIMALS
  {
    assert '0' <= c <= '9' ==> DECIMALS[c as int - '0' as int] == c;
  }

  lemma RouteMeans(value: string)
    ensures ValidRouteId(value) <==>
              && 1 <= |value| <= 128
              && forall k :: 0 <= k < |value| ==> value[k] in LETTERS || value[k] in DECIMALS || value[k] in "._-"
  {
    forall k | 0 <= k < |value|
      ensures 'a' <= value[k] <= 'z' <==> value[k] in LETTERS
      ensures '0' <= value[k] <= '9' <==> value[k] in DECIMALS
      ensures value[k] in "._-" <==> value[k] == '.' || value[k] == '_' || value[k] == '-'
    {
      LetterTable(value[k]);
      DecimalTable(value[k]);
    }
  }

  /** A text without control characters: none below the space, and no delete character. */
  lemma TextMeans(value: string, maximum: nat)
    ensures SafeText(value, maximum) <==>
              && 1 <= |value| && Utf8Size(value) <= maximum
              && forall k :: 0 <= k < |value| ==> value[k] as int >= 32 && value[k] as int != 127
  {
  }

  /** A request was made: one review, one form post, nothing repeated. */
  ghost predicate PostedOnce(u: ExchangeUsage) {
    && u.totalRequests == 2 && u.reviewRequests == 1 && u.submissionRequests == 1 && u.automaticRetries == 0 && u.redirects == 0
    && u.formFields >= 1 && u.formBytes >= 1
  }

  /** Only the review was requested. */
  ghost predicate NeverPosted(u: ExchangeUsage) {
    u == ExchangeUsage(1, 1, 0, 0, 0, 0, 0, 0, false)
  }

  /** What every receipt is: of one complete exchange, with the offer that was reviewed before, within its limits. */
  ghost predicate Reported(r: ExchangeReceipt) {
    && r.effect == "submit_site_bonus_exchange" && r.complete
    && SafeText(r.siteId, 128) && SafeText(r.selector, 128) && ValidRouteId(r.reviewRouteId) && ValidRouteId(r.actionRouteId)
    && ValidSha256Id(r.expectedReviewId) && r.expectedReviewId == r.freshReviewId
    && ValidTime(r.observedAtStart) && ValidTime(r.observedAtEnd)
    && ValidExchangeLimits(r.limits)
    && r.used.formFields <= r.limits.maxFormFields && r.used.formBytes <= r.limits.maxFormBytes
    && 0 <= r.used.responseBytes <= r.limits.maxResponseBytes
    && (r.responseComplete <==> r.used.responseBytesKnown)
  }

  ghost predicate ConfirmedReceipt(r: ExchangeReceipt) {
    && r.outcome == "confirmed" && r.requestAttempted && PostedOnce(r.used) && r.responseComplete
    && ValidRouteId(r.confirmationCode) && r.stopReason == ""
  }

  ghost predicate RejectedReceipt(r: ExchangeReceipt) {
    && r.outcome == "rejected" && r.requestAttempted && PostedOnce(r.used) && r.responseComplete
    && r.confirmationCode == "" && ValidRouteId(r.stopReason)
  }

  ghost predicate UnknownReceipt(r: ExchangeReceipt) {
    && r.outcome == "unknown" && r.requestAttempted && PostedOnce(r.used)
    && r.confirmationCode == "" && ValidRouteId(r.stopReason)
  }

  ghost predicate UnpostedReceipt(r: ExchangeReceipt) {
    && r.outcome == "not_submitted" && !r.requestAttempted && NeverPosted(r.used) && !r.responseComplete
    && r.confirmationCode == "" && ValidRouteId(r.stopReason)
  }

  /** There are four kinds of receipts, by what became of the form post. */
  lemma ReceiptKinds(r: ExchangeReceipt)
    ensures ValidReceipt(r) <==>
              Reported(r) && (ConfirmedReceipt(r) || RejectedReceipt(r) || UnknownReceipt(r) || UnpostedReceipt(r))
  {
    hide SafeText, ValidSha256Id, ValidRouteId, ValidTime, ValidExchangeLimits;
  }

  /** The limits: one review request, two requests in a session, one of them a form post; and sizes. */
  lemma LimitsMean(l: ReviewLimits, m: ExchangeLimits)
    ensures ValidReviewLimits(l) <==>
              && l.maxRequests == 1
              && 1 <= l.maxResponseBytes <= 8 * 1024 * 1024 && 1 <= l.maxResponseHeaderBytes <= 64 * 1024
              && 1 <= l.maxForms <= 256 && 1 <= l.maxFields <= 8192 && 1 <= l.maxTokens <= 200000
              && 1 <= l.maxVisibleTextBytes <= 1024 * 1024
    ensures ValidExchangeLimits(m) <==>
              && m.maxSessionRequests == 2 && m.maxSubmissionRequests == 1
              && 1 <= m.maxFormFields <= 256 && 1 <= m.maxFormBytes <= 64 * 1024
              && 1 <= m.maxResponseBytes <= 8 * 1024 * 1024 && 1 <= m.maxResponseHeaderBytes <= 64 * 1024
  {
  }

  /** An intent is what its marker copies, with no input, a time and limits. */
  lemma IntentMeans(i: IntentRecord)
    ensures ValidIntent(i) <==>
              && i.schema == "ptctl.site-bonus-exchange-intent/v1" && i.inputMode == "none"
              && ValidAttempt(AttemptFromIntent(i))
              && UtcTime(i.createdAt) && i.createdAt != "0001-01-01T00:00:00Z"
              && ValidReviewLimits(i.reviewLimits) && ValidExchangeLimits(i.exchangeLimits)
  {
    hide SafeText, ValidSha256Id, ValidRouteId, UtcTime, ValidReviewLimits, ValidExchangeLimits;
  }

  /** So many decimal digits. */
  ghost predicate DigitRun(s: string, n: nat) {
    |s| == n && forall k :: 0 <= k < n ==> s[k] in DECIMALS
  }

  /** Nothing, or a point and up to nine digits of which the last is not zero. */
  ghost predicate Fraction(s: string) {
    s == "" || (2 <= |s| <= 10 && s[0] == '.' && DigitRun(s[1..], |s| - 1) && s[|s| - 1] != '0')
  }

  ghost predicate TimeOf(value: string, year: string, month: string, day: string, hour: string, minute: string, second: string, fraction: string) {
    && DigitRun(year, 4) && DigitRun(month, 2) && DigitRun(day, 2) && DigitRun(hour, 2) && DigitRun(minute, 2) && DigitRun(second, 2)
    && Fraction(fraction)
    && value == year + "-" + month + "-" + day + "T" + hour + ":" + minute + ":" + second + fraction + "Z"
  }

  lemma RunMeans(value: string, from: nat, to: nat)
    requires from <= to <= |value|
    ensures Digits(value, from, to) <==> DigitRun(value[from..to], to - from)
  {
    forall k | from <= k < to ensures '0' <= value[k] <= '9' <==> value[from..to][k - from] in DECIMALS {
      DecimalTable(value[k]);
    }
    if DigitRun(value[from..to], to - from) {
      forall k | from <= k < to ensures '0' <= value[k] <= '9' {
        assert value[from..to][k - from] in DECIMALS;
      }
    }
  }

  /** A time is written by its parts. */
  lemma TimeMeans(value: string)
    ensures UtcTime(value) ==> exists year, month, day, hour, minute, second, fraction ::
              TimeOf(value, year, month, day, hour, minute, second, fraction)
  {
    if UtcTime(value) {
      hide Digits, DigitRun;
      var n := |value|;
      RunMeans(value, 0, 4);
      RunMeans(value, 5, 7);
      RunMeans(value, 8, 10);
      RunMeans(value, 11, 13);
      RunMeans(value, 14, 16);
      RunMeans(value, 17, 19);
      if n > 20 { RunMeans(value, 20, n - 1); }
      var fraction := value[19..n - 1];
      assert n > 20 ==> fraction[1..] == value[20..n - 1];
      assert value == value[0..4] + "-" + value[5..7] + "-" + value[8..10] + "T" + value[11..13] + ":" + value[14..16] + ":" + value[17..19] + fraction + "Z";
      assert TimeOf(value, value[0..4], value[5..7], value[8..10], value[11..13], value[14..16], value[17..19], fraction);
    }
  }

  lemma TimesAccepted(value: string, year: string, month: string, day: string, hour: string, minute: string, second: string, fraction: string)
    requires TimeOf(value, year, month, day, hour, minute, second, fraction)
    ensures UtcTime(value)
  {
    PartsAt(value, year, month, day, hour, minute, second, fraction);
    hide Digits, DigitRun;
    var n := |value|;
    RunMeans(value, 0, 4);
    RunMeans(value, 5, 7);
    RunMeans(value, 8, 10);
    RunMeans(value, 11, 13);
    RunMeans(value, 14, 16);
    RunMeans(value, 17, 19);
    if n > 20 { RunMeans(value, 20, n - 1); }
  }

  lemma PartsAt(value: string, year: string, month: string, day: string, hour: string, minute: string, second: string, fraction: string)
    requires TimeOf(value, year, month, day, hour, minute, second, fraction)
    ensures var n := |value|;
      && n == 20 + |fraction| && (fraction == "" || 2 <= |fraction| <= 10)
      && value[0..4] == year && value[4] == '-' && value[5..7] == month && value[7] == '-' && value[8..10] == day && value[10] == 'T'
      && value[11..13] == hour && value[13] == ':' && value[14..16] == minute && value[16] == ':' && value[17..19] == second
      && value[19..n - 1] == fraction && value[n - 1] == 'Z'
      && (fraction != "" ==> value[19] == '.' && value[20..n - 1] == fraction[1..] && value[n - 2] == fraction[|fraction| - 1])
  {
    var front := year + "-" + month + "-" + day + "T" + hour + ":" + minute + ":" + second;
    assert value == front + fraction + "Z";
    assert |front| == 19 && value[..19] == front && value[19..|value| - 1] == fraction;
    assert front[0..4] == year && front[5..7] == month && front[8..10] == day && front[11..13] == hour && front[14..16] == minute && front[17..19] == second;
  }
}
