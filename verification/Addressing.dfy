/**
  Canonical bytes and content addressing of the five records (internal/bonusexchange/format.go,
  types.go; internal/metastore/record.go:232-248).

  A record's ID is a digest over its kind and its canonical bytes, and records name one another by
  ID.  `Form` writes a record of the model with its references replaced by the IDs of the records
  they address.  With a digest without collisions the ID determines the record, down to the records
  it refers to: the reason why the model can take a reference for what it addresses.
 */
module Addressing {
  import opened Basics
  import Credentials
  import opened Records
  import opened Format
  import opened Wire

  // ---------------------------------------------------------------- validation of the written forms

  predicate ValidAttemptForm(a: AttemptForm) {
    && a.schema == ATTEMPT_SCHEMA
    && ValidSha256Id(a.operationId) && ValidSha256Id(a.intentRecordId)
    && SafeText(a.siteId, 128) && SafeText(a.selector, 128)
    && ValidSha256Id(a.expectedReviewId)
    && ValidRouteId(a.reviewRouteId) && ValidRouteId(a.actionRouteId)
  }

  predicate AttemptFormMatches(a: AttemptForm, i: IntentRecord, ref: Locator) {
    && ValidAttemptForm(a) && ValidIntent(i)
    && ref.kind == KindName(IntentKind) && a.intentRecordId == ref.id
    && a.operationId == i.operationId && a.siteId == i.siteId && a.selector == i.selector
    && a.expectedReviewId == i.expectedReviewId && a.origin == i.origin
    && a.reviewRouteId == i.reviewRouteId && a.actionRouteId == i.actionRouteId
  }

  predicate ValidOutcomeForm(o: OutcomeForm) {
    && o.schema == OUTCOME_SCHEMA
    && ValidSha256Id(o.operationId) && ValidSha256Id(o.intentRecordId) && ValidSha256Id(o.attemptRecordId)
    && ValidTime(o.recordedAt) && ValidReceipt(o.receipt)
  }

  predicate OutcomeFormMatches(o: OutcomeForm, i: IntentRecord, intentRef: Locator, a: AttemptForm, attemptRef: Locator) {
    && ValidOutcomeForm(o) && AttemptFormMatches(a, i, intentRef)
    && attemptRef.kind == KindName(AttemptKind)
    && o.operationId == i.operationId && o.intentRecordId == intentRef.id && o.attemptRecordId == attemptRef.id
    && o.receipt.siteId == i.siteId && o.receipt.selector == i.selector
    && o.receipt.expectedReviewId == i.expectedReviewId && o.receipt.freshReviewId == i.expectedReviewId
    && o.receipt.origin == i.origin && o.receipt.reviewRouteId == i.reviewRouteId && o.receipt.actionRouteId == i.actionRouteId
    && o.receipt.limits == i.exchangeLimits
  }

  predicate ValidRetentionForm(seal: Sealer, r: RetentionForm) {
    && r.schema == RETENTION_SCHEMA && r.basis == RETENTION_BASIS && SafeText(r.storeId, 128)
    && ValidIntent(r.intent) && ValidAttemptForm(r.attempt) && ValidOutcomeForm(r.outcome)
    && r.operationId == r.intent.operationId
    && AttemptFormMatches(r.attempt, r.intent, r.intentRef)
    && OutcomeFormMatches(r.outcome, r.intent, r.intentRef, r.attempt, r.attemptRef)
    && r.terminalState == StateText(StateFromOutcome(r.outcome.receipt.outcome))
    && r.intentRef == Locate(seal, IntentKind, Object(IntentMembers(r.intent)))
    && r.attemptRef == Locate(seal, AttemptKind, Object(AttemptMembers(r.attempt)))
    && r.outcomeRef == Locate(seal, OutcomeKind, Object(OutcomeMembers(r.outcome)))
  }

  predicate ValidForgetForm(seal: Sealer, f: ForgetForm) {
    && f.schema == FORGET_SCHEMA && f.basis == FORGET_BASIS && SafeText(f.storeId, 128)
    && ValidRetentionForm(seal, f.retention)
    && f.storeId == f.retention.storeId && f.operationId == f.retention.operationId
    && f.retentionRef == Locate(seal, RetentionKind, Object(RetentionMembers(f.retention)))
  }

  // ---------------------------------------------------------------- kinds, states, digests

  function KindName(k: Kind): string {
    match k
    case IntentKind => "site.bonus.exchange.intent.v1"
    case AttemptKind => "site.bonus.exchange.attempt.v1"
    case OutcomeKind => "site.bonus.exchange.outcome.v1"
    case RetentionKind => "site.bonus.exchange.retention.v1"
    case ForgetKind => "site.bonus.exchange.forget.v1"
  }

  lemma KindNames(k: Kind, l: Kind)
    ensures KindName(k) == KindName(l) ==> k == l
  {
  }

  function StateText(v: Verdict): string {
    match v
    case Prepared => "prepared"
    case AttemptReservedUnknown => "attempt_reserved_submission_unknown"
    case Confirmed => "confirmed"
    case Rejected => "rejected"
    case Unknown => "unknown"
    case NotSubmitted => "not_submitted"
    case InspectionIncomplete => "inspection_incomplete"
    case Pruning => "pruning"
    case Pruned => "pruned"
    case Forgetting => "forgetting"
  }

  lemma StateTexts(v: Verdict, w: Verdict)
    ensures StateText(v) == StateText(w) ==> v == w
  {
  }

  /** The state a tombstone writes is the outcome its receipt names. */
  lemma StateWords(receipt: ExchangeReceipt)
    requires ValidReceipt(receipt)
    ensures StateText(StateFromOutcome(receipt.outcome)) == receipt.outcome
  {
    hide SafeText, ValidSha256Id, ValidRouteId, ValidTime, ValidUsage, ValidExchangeLimits;
  }

  /** The spelling of tokens, and the digest over kind and payload. */
  datatype Sealer = Sealer(lexer: Lexer, digest: (string, seq<Byte>) -> string)

  ghost predicate CollisionFree(seal: Sealer) {
    forall k, b, l, c :: seal.digest(k, b) == seal.digest(l, c) ==> k == l && b == c
  }

  function Bytes(seal: Sealer, v: Json): seq<Byte> { seal.lexer.spell(Flatten(v)) + [NEWLINE] }

  function Size(b: seq<Byte>): Int64 {
    if |b| < 0x8000_0000_0000_0000 then |b| else 0x7FFF_FFFF_FFFF_FFFF
  }

  function Locate(seal: Sealer, k: Kind, v: Json): Locator {
    Locator(KindName(k), seal.digest(KindName(k), Bytes(seal, v)), Size(Bytes(seal, v)))
  }

  // ---------------------------------------------------------------- the five codecs

  function IntentCodec(): Codec<IntentRecord> {
    Codec((x: IntentRecord) => Object(IntentMembers(x)),
          (v: Json) => if ReadTop(v).None? then None else ReadIntent(ReadTop(v).value),
          (x: IntentRecord) => ValidIntent(x))
  }

  function AttemptCodec(): Codec<AttemptForm> {
    Codec((x: AttemptForm) => Object(AttemptMembers(x)),
          (v: Json) => if ReadTop(v).None? then None else ReadAttempt(ReadTop(v).value),
          (x: AttemptForm) => ValidAttemptForm(x))
  }

  function OutcomeCodec(): Codec<OutcomeForm> {
    Codec((x: OutcomeForm) => Object(OutcomeMembers(x)),
          (v: Json) => if ReadTop(v).None? then None else ReadOutcome(ReadTop(v).value),
          (x: OutcomeForm) => ValidOutcomeForm(x))
  }

  function RetentionCodec(seal: Sealer): Codec<RetentionForm> {
    Codec((x: RetentionForm) => Object(RetentionMembers(x)),
          (v: Json) => if ReadTop(v).None? then None else ReadRetention(ReadTop(v).value),
          (x: RetentionForm) => ValidRetentionForm(seal, x))
  }

  function ForgetCodec(seal: Sealer): Codec<ForgetForm> {
    Codec((x: ForgetForm) => Object(ForgetMembers(x)),
          (v: Json) => if ReadTop(v).None? then None else ReadForget(ReadTop(v).value),
          (x: ForgetForm) => ValidForgetForm(seal, x))
  }

  /** Every record type is written as one JSON value without repeated keys, and read back. */
  lemma RecordsExact(seal: Sealer)
    ensures Exact(IntentCodec()) && Exact(AttemptCodec()) && Exact(OutcomeCodec())
    ensures Exact(RetentionCodec(seal)) && Exact(ForgetCodec(seal))
  {
    hide Written, NoDuplicates, IntentMembers, AttemptMembers, OutcomeMembers, RetentionMembers, ForgetMembers,
         ReadIntent, ReadAttempt, ReadOutcome, ReadRetention, ReadForget;
    forall x { IntentReads(x); }
    forall x { AttemptReads(x); }
    forall x { OutcomeReads(x); }
    forall x { RetentionReads(x); }
    forall x { ForgetReads(x); }
  }

  method DecodeIntent(lexer: Lexer, raw: seq<Byte>, maxBytes: nat) returns (value: Option<IntentRecord>)
    ensures Lexical(lexer) ==> forall x :: Encode(lexer, IntentCodec(), x, maxBytes) == Some(raw) <==> value == Some(x)
  {
    hide *;
    RecordsExact(Sealer(lexer, (k, b) => k));
    value := DecodeRecord(lexer, IntentCodec(), raw, maxBytes);
  }

  method DecodeAttempt(lexer: Lexer, raw: seq<Byte>, maxBytes: nat) returns (value: Option<AttemptForm>)
    ensures Lexical(lexer) ==> forall x :: Encode(lexer, AttemptCodec(), x, maxBytes) == Some(raw) <==> value == Some(x)
  {
    hide *;
    RecordsExact(Sealer(lexer, (k, b) => k));
    value := DecodeRecord(lexer, AttemptCodec(), raw, maxBytes);
  }

  method DecodeOutcome(lexer: Lexer, raw: seq<Byte>, maxBytes: nat) returns (value: Option<OutcomeForm>)
    ensures Lexical(lexer) ==> forall x :: Encode(lexer, OutcomeCodec(), x, maxBytes) == Some(raw) <==> value == Some(x)
  {
    hide *;
    RecordsExact(Sealer(lexer, (k, b) => k));
    value := DecodeRecord(lexer, OutcomeCodec(), raw, maxBytes);
  }

  method DecodeRetention(seal: Sealer, raw: seq<Byte>, maxBytes: nat) returns (value: Option<RetentionForm>)
    ensures Lexical(seal.lexer) ==>
              forall x :: Encode(seal.lexer, RetentionCodec(seal), x, maxBytes) == Some(raw) <==> value == Some(x)
  {
    hide *;
    RecordsExact(seal);
    value := DecodeRecord(seal.lexer, RetentionCodec(seal), raw, maxBytes);
  }

  method DecodeForget(seal: Sealer, raw: seq<Byte>, maxBytes: nat) returns (value: Option<ForgetForm>)
    ensures Lexical(seal.lexer) ==>
              forall x :: Encode(seal.lexer, ForgetCodec(seal), x, maxBytes) == Some(raw) <==> value == Some(x)
  {
    hide *;
    RecordsExact(seal);
    value := DecodeRecord(seal.lexer, ForgetCodec(seal), raw, maxBytes);
  }

  // ---------------------------------------------------------------- the records of the model, written

  function AttemptOf(seal: Sealer, a: AttemptRecord): AttemptForm
    decreases a, 0
  {
    AttemptForm(a.schema, a.operationId, IdOf(seal, a.intentRecordId.of), a.siteId, a.selector, a.expectedReviewId,
                a.origin, a.reviewRouteId, a.actionRouteId)
  }

  function OutcomeOf(seal: Sealer, o: OutcomeRecord): OutcomeForm
    decreases o, 0
  {
    OutcomeForm(o.schema, o.operationId, IdOf(seal, o.intentRecordId.of), IdOf(seal, o.attemptRecordId.of), o.recordedAt, o.receipt)
  }

  function RetentionOf(seal: Sealer, r: RetentionRecord): RetentionForm
    decreases r, 0
  {
    RetentionForm(r.schema, r.basis, r.storeId, r.operationId, StateText(r.terminalState),
                  r.intent, RefOf(seal, r.intentRef.of), AttemptOf(seal, r.attempt), RefOf(seal, r.attemptRef.of),
                  OutcomeOf(seal, r.outcome), RefOf(seal, r.outcomeRef.of))
  }

  function ForgetOf(seal: Sealer, f: ForgetRecord): ForgetForm
    decreases f, 0
  {
    ForgetForm(f.schema, f.basis, f.storeId, f.operationId, RetentionOf(seal, f.retention), RefOf(seal, f.retentionRef.of))
  }

  /** The JSON value of a record. */
  function Form(seal: Sealer, r: Record): Json
    decreases r, 1
  {
    match r
    case Intent(i) => Object(IntentMembers(i))
    case Attempt(a) => Object(AttemptMembers(AttemptOf(seal, a)))
    case Outcome(o) => Object(OutcomeMembers(OutcomeOf(seal, o)))
    case Retention(t) => Object(RetentionMembers(RetentionOf(seal, t)))
    case Forget(f) => Object(ForgetMembers(ForgetOf(seal, f)))
  }

  function RefOf(seal: Sealer, r: Record): Locator
    decreases r, 2
  {
    Locate(seal, KindOf(r), Form(seal, r))
  }

  function IdOf(seal: Sealer, r: Record): string
    decreases r, 3
  {
    RefOf(seal, r).id
  }

  lemma FormClean(seal: Sealer, r: Record)
    ensures Clean(Form(seal, r))
  {
    hide Clean, IntentMembers, AttemptMembers, OutcomeMembers, RetentionMembers, ForgetMembers,
         AttemptOf, OutcomeOf, RetentionOf, ForgetOf, ReadIntent, ReadAttempt, ReadOutcome, ReadRetention, ReadForget;
    match r {
      case Intent(i) => IntentReads(i);
      case Attempt(a) => AttemptReads(AttemptOf(seal, a));
      case Outcome(o) => OutcomeReads(OutcomeOf(seal, o));
      case Retention(t) => RetentionReads(RetentionOf(seal, t));
      case Forget(f) => ForgetReads(ForgetOf(seal, f));
    }
  }

  /** A JSON value is written by one form only. */
  lemma SameFields(seal: Sealer, r: Record, q: Record)
    requires KindOf(r) == KindOf(q) && Form(seal, r) == Form(seal, q)
    ensures r.Intent? ==> q == r
    ensures r.Attempt? ==> q.Attempt? && AttemptOf(seal, r.attempt) == AttemptOf(seal, q.attempt)
    ensures r.Outcome? ==> q.Outcome? && OutcomeOf(seal, r.outcome) == OutcomeOf(seal, q.outcome)
    ensures r.Retention? ==> q.Retention? && RetentionOf(seal, r.retention) == RetentionOf(seal, q.retention)
    ensures r.Forget? ==> q.Forget? && ForgetOf(seal, r.forget) == ForgetOf(seal, q.forget)
  {
    hide Clean, IntentMembers, AttemptMembers, OutcomeMembers, RetentionMembers, ForgetMembers,
         AttemptOf, OutcomeOf, RetentionOf, ForgetOf, ReadIntent, ReadAttempt, ReadOutcome, ReadRetention, ReadForget;
    match r {
      case Intent(i) =>
        IntentReads(i);
        IntentReads(q.intent);
      case Attempt(a) =>
        AttemptReads(AttemptOf(seal, a));
        AttemptReads(AttemptOf(seal, q.attempt));
      case Outcome(o) =>
        OutcomeReads(OutcomeOf(seal, o));
        OutcomeReads(OutcomeOf(seal, q.outcome));
      case Retention(t) =>
        RetentionReads(RetentionOf(seal, t));
        RetentionReads(RetentionOf(seal, q.retention));
      case Forget(f) =>
        ForgetReads(ForgetOf(seal, f));
        ForgetReads(ForgetOf(seal, q.forget));
    }
  }

  /** Equal IDs come from equal kinds and equal JSON values. */
  lemma SameForm(seal: Sealer, r: Record, q: Record)
    requires Lexical(seal.lexer) && CollisionFree(seal) && IdOf(seal, r) == IdOf(seal, q)
    ensures KindOf(r) == KindOf(q) && Form(seal, r) == Form(seal, q)
  {
    hide Form, Flatten, Written, WellFormed, NoDuplicates;
    KindNames(KindOf(r), KindOf(q));
    FormClean(seal, r);
    FormClean(seal, q);
    var v, w := Form(seal, r), Form(seal, q);
    assert Bytes(seal, v) == Bytes(seal, w);
    WrittenFormed(v);
    WrittenFormed(w);
    FlattenInjective(v, w);
  }

  /**
    Content addressing: with a digest without collisions two records with one ID are one record,
    together with everything they refer to.
   */
  lemma {:induction false} IdInjective(seal: Sealer, r: Record, q: Record)
    requires Lexical(seal.lexer) && CollisionFree(seal) && IdOf(seal, r) == IdOf(seal, q)
    ensures r == q
    decreases r, 1
  {
    hide *;
    SameForm(seal, r, q);
    SameFields(seal, r, q);
    match r {
      case Intent(i) =>
      case Attempt(a) => SameAttempt(seal, a, q.attempt);
      case Outcome(o) => SameOutcome(seal, o, q.outcome);
      case Retention(t) => SameRetention(seal, t, q.retention);
      case Forget(f) => SameForget(seal, f, q.forget);
    }
  }

  lemma {:induction false} SameAttempt(seal: Sealer, a: AttemptRecord, b: AttemptRecord)
    requires Lexical(seal.lexer) && CollisionFree(seal) && AttemptOf(seal, a) == AttemptOf(seal, b)
    ensures a == b
    decreases a, 0
  {
    hide IdOf, Lexical, CollisionFree;
    IdInjective(seal, a.intentRecordId.of, b.intentRecordId.of);
  }

  lemma {:induction false} SameOutcome(seal: Sealer, o: OutcomeRecord, p: OutcomeRecord)
    requires Lexical(seal.lexer) && CollisionFree(seal) && OutcomeOf(seal, o) == OutcomeOf(seal, p)
    ensures o == p
    decreases o, 0
  {
    hide IdOf, Lexical, CollisionFree;
    IdInjective(seal, o.intentRecordId.of, p.intentRecordId.of);
    IdInjective(seal, o.attemptRecordId.of, p.attemptRecordId.of);
  }

  lemma {:induction false} SameRetention(seal: Sealer, r: RetentionRecord, t: RetentionRecord)
    requires Lexical(seal.lexer) && CollisionFree(seal) && RetentionOf(seal, r) == RetentionOf(seal, t)
    ensures r == t
    decreases r, 0
  {
    hide RefOf, Lexical, CollisionFree, AttemptOf, OutcomeOf, StateText;
    StateTexts(r.terminalState, t.terminalState);
    SameRef(seal, r.intentRef.of, t.intentRef.of);
    SameRef(seal, r.attemptRef.of, t.attemptRef.of);
    SameRef(seal, r.outcomeRef.of, t.outcomeRef.of);
    SameAttempt(seal, r.attempt, t.attempt);
    SameOutcome(seal, r.outcome, t.outcome);
  }

  lemma {:induction false} SameForget(seal: Sealer, f: ForgetRecord, g: ForgetRecord)
    requires Lexical(seal.lexer) && CollisionFree(seal) && ForgetOf(seal, f) == ForgetOf(seal, g)
    ensures f == g
    decreases f, 0
  {
    hide RefOf, Lexical, CollisionFree, RetentionOf;
    SameRef(seal, f.retentionRef.of, g.retentionRef.of);
    SameRetention(seal, f.retention, g.retention);
  }

  lemma {:induction false} SameRef(seal: Sealer, r: Record, q: Record)
    requires Lexical(seal.lexer) && CollisionFree(seal) && RefOf(seal, r) == RefOf(seal, q)
    ensures r == q
    decreases r, 2
  {
    hide RefOf, Lexical, CollisionFree;
    IdInjective(seal, r, q);
  }

  /** A written reference is the exact reference of a record if and only if it refers to that record. */
  lemma ExactRef(seal: Sealer, ref: RecordRef, r: Record)
    requires Lexical(seal.lexer) && CollisionFree(seal)
    ensures RefOf(seal, ref.of) == RefOf(seal, r) <==> ref == Ref(r)
  {
    hide RefOf, Lexical, CollisionFree;
    if RefOf(seal, ref.of) == RefOf(seal, r) { SameRef(seal, ref.of, r); }
  }

  // ---------------------------------------------------------------- validation, written and modelled

  lemma SameId(seal: Sealer, a: RecordRef, b: RecordRef)
    requires Lexical(seal.lexer) && CollisionFree(seal)
    ensures IdOf(seal, a.of) == IdOf(seal, b.of) <==> a == b
  {
    hide IdOf, Lexical, CollisionFree;
    if IdOf(seal, a.of) == IdOf(seal, b.of) { IdInjective(seal, a.of, b.of); }
  }

  lemma RefIs(seal: Sealer, r: Record, k: Kind)
    ensures RefOf(seal, r).kind == KindName(k) <==> KindOf(r) == k
    ensures RefOf(seal, r).id == IdOf(seal, r)
  {
    hide Form;
    KindNames(KindOf(r), k);
  }

  /** A written attempt matches its intent exactly when the attempt of the model does. */
  lemma AttemptValidated(seal: Sealer, a: AttemptRecord, i: IntentRecord, ref: RecordRef)
    requires Lexical(seal.lexer) && CollisionFree(seal) && ValidSha256Id(IdOf(seal, a.intentRecordId.of))
    ensures ValidAttemptForm(AttemptOf(seal, a)) <==> ValidAttempt(a)
    ensures AttemptFormMatches(AttemptOf(seal, a), i, RefOf(seal, ref.of)) <==> AttemptMatchesIntent(a, i, ref)
  {
    hide IdOf, RefOf, Lexical, CollisionFree, ValidIntent, ValidSha256Id, SafeText, ValidRouteId, KindName;
    SameId(seal, a.intentRecordId, ref);
    RefIs(seal, ref.of, IntentKind);
  }

  lemma OutcomeValidated(seal: Sealer, o: OutcomeRecord, i: IntentRecord, ref: RecordRef, a: AttemptRecord, attemptRef: RecordRef)
    requires Lexical(seal.lexer) && CollisionFree(seal) && ValidSha256Id(IdOf(seal, a.intentRecordId.of))
    requires ValidSha256Id(IdOf(seal, o.intentRecordId.of)) && ValidSha256Id(IdOf(seal, o.attemptRecordId.of))
    ensures ValidOutcomeForm(OutcomeOf(seal, o)) <==> ValidOutcome(o)
    ensures OutcomeFormMatches(OutcomeOf(seal, o), i, RefOf(seal, ref.of), AttemptOf(seal, a), RefOf(seal, attemptRef.of)) <==>
              OutcomeMatches(o, i, ref, a, attemptRef)
  {
    hide IdOf, RefOf, Lexical, CollisionFree, ValidIntent, ValidSha256Id, ValidReceipt, ValidTime, KindName, AttemptOf,
         AttemptFormMatches, AttemptMatchesIntent;
    AttemptValidated(seal, a, i, ref);
    SameId(seal, o.intentRecordId, ref);
    SameId(seal, o.attemptRecordId, attemptRef);
    RefIs(seal, ref.of, IntentKind);
    RefIs(seal, attemptRef.of, AttemptKind);
  }

  /** The digests of the records a tombstone's chain refers to have the format of an ID. */
  predicate Identified(seal: Sealer, r: RetentionRecord) {
    && ValidSha256Id(IdOf(seal, r.attempt.intentRecordId.of))
    && ValidSha256Id(IdOf(seal, r.outcome.intentRecordId.of)) && ValidSha256Id(IdOf(seal, r.outcome.attemptRecordId.of))
  }

  /**
    A written tombstone of this store validates, with its exact references recomputed from the bytes
    of the records it copies, exactly when the tombstone of the model does.
   */
  lemma RetentionValidated(seal: Sealer, r: RetentionRecord)
    requires Lexical(seal.lexer) && CollisionFree(seal) && Identified(seal, r)
    requires r.storeId == STORE_ID && SafeText(STORE_ID, 128)
    ensures ValidRetentionForm(seal, RetentionOf(seal, r)) <==> ValidRetention(r)
  {
    hide Lexical, CollisionFree, ValidIntent, ValidSha256Id, SafeText, AttemptOf, StateText, RefOf, IdOf, Locate,
         OutcomeFormMatches, OutcomeMatches, AttemptFormMatches, AttemptMatchesIntent, ValidAttemptForm, ValidAttempt,
         ValidOutcomeForm, ValidOutcome, IntentMembers, AttemptMembers, OutcomeMembers;
    AttemptValidated(seal, r.attempt, r.intent, r.intentRef);
    OutcomeValidated(seal, r.outcome, r.intent, r.intentRef, r.attempt, r.attemptRef);
    StateTexts(r.terminalState, StateFromOutcome(r.outcome.receipt.outcome));
    ExactRef(seal, r.intentRef, Intent(r.intent));
    ExactRef(seal, r.attemptRef, Attempt(r.attempt));
    ExactRef(seal, r.outcomeRef, Outcome(r.outcome));
    RefForms(seal, r);
  }

  lemma RefForms(seal: Sealer, r: RetentionRecord)
    ensures RefOf(seal, Intent(r.intent)) == Locate(seal, IntentKind, Object(IntentMembers(r.intent)))
    ensures RefOf(seal, Attempt(r.attempt)) == Locate(seal, AttemptKind, Object(AttemptMembers(AttemptOf(seal, r.attempt))))
    ensures RefOf(seal, Outcome(r.outcome)) == Locate(seal, OutcomeKind, Object(OutcomeMembers(OutcomeOf(seal, r.outcome))))
    ensures RefOf(seal, Retention(r)) == Locate(seal, RetentionKind, Object(RetentionMembers(RetentionOf(seal, r))))
  {
    hide Locate, AttemptOf, OutcomeOf, RetentionOf, IntentMembers, AttemptMembers, OutcomeMembers, RetentionMembers;
  }

  /** Likewise for a forget marker and the tombstone it copies. */
  lemma ForgetValidated(seal: Sealer, f: ForgetRecord)
    requires Lexical(seal.lexer) && CollisionFree(seal) && Identified(seal, f.retention)
    requires f.storeId == STORE_ID && f.retention.storeId == STORE_ID && SafeText(STORE_ID, 128)
    ensures ValidForgetForm(seal, ForgetOf(seal, f)) <==> ValidForget(f)
  {
    hide Lexical, CollisionFree, SafeText, RefOf, IdOf, Locate, ValidRetentionForm, ValidRetention, RetentionMembers, Identified,
         AttemptOf, OutcomeOf, StateText;
    RetentionValidated(seal, f.retention);
    ExactRef(seal, f.retentionRef, Retention(f.retention));
    RefForms(seal, f.retention);
  }

  // ---------------------------------------------------------------- the size of a text

  /** The bytes of a text. */
  function Encoded(value: string): seq<Byte>
    requires forall k :: 0 <= k < |value| ==> Credentials.Scalar(value[k] as int)
  {
    if value == "" then [] else Encoded(value[..|value| - 1]) + Credentials.Utf8(value[|value| - 1] as int)
  }

  /** The size that limits a text is the number of its bytes in UTF-8. */
  lemma {:induction false} SizeIsUtf8(value: string)
    requires forall k :: 0 <= k < |value| ==> Credentials.Scalar(value[k] as int)
    ensures Utf8Size(value) == |Encoded(value)|
  {
    if value != "" { SizeIsUtf8(value[..|value| - 1]); }
  }
}
