/**
  The five records as the JSON values they are written as: the fields of each Go structure in the
  order in which the encoder writes them, nested structures as nested objects, empty optional
  fields left out.  Reading takes the fields in any order, gives a missing one its zero value and
  refuses an unknown one; that only the written order decodes in the end is the work of
  `Format.DecodeRecord`.
 */
module Wire {
  import opened Basics
  import opened Records
  import opened Format

  /** A record reference as it is written: the kind, the ID and the size of the record it names. */
  datatype Locator = Locator(kind: string, id: string, size: Int64)

  datatype AttemptForm = AttemptForm(
    schema: string, operationId: string, intentRecordId: string, siteId: string, selector: string,
    expectedReviewId: string, origin: string, reviewRouteId: string, actionRouteId: string)

  datatype OutcomeForm = OutcomeForm(
    schema: string, operationId: string, intentRecordId: string, attemptRecordId: string,
    recordedAt: string, receipt: ExchangeReceipt)

  datatype RetentionForm = RetentionForm(
    schema: string, basis: string, storeId: string, operationId: string, terminalState: string,
    intent: IntentRecord, intentRef: Locator, attempt: AttemptForm, attemptRef: Locator,
    outcome: OutcomeForm, outcomeRef: Locator)

  datatype ForgetForm = ForgetForm(
    schema: string, basis: string, storeId: string, operationId: string,
    retention: RetentionForm, retentionRef: Locator)

  // ---------------------------------------------------------------- structures

  const EMPTY: Json := Scalar(Text(""))

  function TextValue(s: string): Json { Scalar(Text(s)) }

  function NumberValue(n: Int64): Json { Scalar(Number(n)) }

  function FlagValue(b: bool): Json { Scalar(Flag(b)) }

  /** The members of a structure; an empty field in `omit` is left out. */
  function Struct(keys: seq<string>, values: seq<Json>, omit: set<string>): seq<Member>
    requires |keys| == |values|
  {
    if keys == [] then []
    else (if keys[0] in omit && values[0] == EMPTY then [] else [Member(keys[0], values[0])]) + Struct(keys[1..], values[1..], omit)
  }

  function Find(members: seq<Member>, key: string): Option<Json> {
    if members == [] then None
    else if members[0].key == key then Some(members[0].value)
    else Find(members[1..], key)
  }

  /** No unknown field. */
  predicate Known(members: seq<Member>, keys: seq<string>) {
    forall k :: 0 <= k < |members| ==> members[k].key in keys
  }

  function ReadText(members: seq<Member>, key: string): Option<string> {
    match Find(members, key)
    case None => Some("")
    case Some(v) =>
      if v.Scalar? && v.token.Text? then Some(v.token.text) else if v == Scalar(Null) then Some("") else None
  }

  function ReadNumber(members: seq<Member>, key: string): Option<Int64> {
    match Find(members, key)
    case None => Some(0)
    case Some(v) =>
      if v.Scalar? && v.token.Number? then
        if -0x8000_0000_0000_0000 <= v.token.number < 0x8000_0000_0000_0000 then Some(v.token.number) else None
      else if v == Scalar(Null) then Some(0) else None
  }

  function ReadFlag(members: seq<Member>, key: string): Option<bool> {
    match Find(members, key)
    case None => Some(false)
    case Some(v) =>
      if v.Scalar? && v.token.Flag? then Some(v.token.flag) else if v == Scalar(Null) then Some(false) else None
  }

  function ReadStruct(members: seq<Member>, key: string): Option<seq<Member>> {
    match Find(members, key)
    case None => Some([])
    case Some(v) => if v.Object? then Some(v.members) else if v == Scalar(Null) then Some([]) else None
  }

  function ReadTop(v: Json): Option<seq<Member>> {
    if v.Object? then Some(v.members) else if v == Scalar(Null) then Some([]) else None
  }

  ghost predicate Distinct(keys: seq<string>) {
    forall i, j :: 0 <= i < j < |keys| ==> keys[i] != keys[j]
  }

  ghost predicate DistinctMembers(members: seq<Member>) {
    forall i, j :: 0 <= i < j < |members| ==> members[i].key != members[j].key
  }

  ghost predicate Clean(v: Json) { Written(v) && NoDuplicates(v) }

  lemma {:induction false} StructHas(keys: seq<string>, values: seq<Json>, omit: set<string>)
    requires |keys| == |values|
    ensures forall m :: m in Struct(keys, values, omit) ==> exists k :: 0 <= k < |keys| && m == Member(keys[k], values[k])
  {
    if keys != [] {
      StructHas(keys[1..], values[1..], omit);
      forall m | m in Struct(keys, values, omit) ensures exists k :: 0 <= k < |keys| && m == Member(keys[k], values[k]) {
        if m in Struct(keys[1..], values[1..], omit) {
          var k :| 0 <= k < |keys[1..]| && m == Member(keys[1..][k], values[1..][k]);
          assert m == Member(keys[k + 1], values[k + 1]);
        } else {
          assert m == Member(keys[0], values[0]);
        }
      }
    }
  }

  /** A written field is read back; one that was left out was empty. */
  lemma {:induction false} StructFind(keys: seq<string>, values: seq<Json>, omit: set<string>, k: nat)
    requires |keys| == |values| && Distinct(keys) && k < |keys|
    ensures Find(Struct(keys, values, omit), keys[k]) == if keys[k] in omit && values[k] == EMPTY then None else Some(values[k])
  {
    if k == 0 {
      StructHas(keys[1..], values[1..], omit);
      NotFound(Struct(keys[1..], values[1..], omit), keys[0]);
      FirstField(keys, values, omit);
    } else {
      StructFind(keys[1..], values[1..], omit, k - 1);
      FirstField(keys, values, omit);
    }
  }

  lemma FirstField(keys: seq<string>, values: seq<Json>, omit: set<string>)
    requires |keys| == |values| && keys != []
    ensures forall key :: Find(Struct(keys, values, omit), key) ==
              if key == keys[0] && !(keys[0] in omit && values[0] == EMPTY) then Some(values[0])
              else Find(Struct(keys[1..], values[1..], omit), key)
  {
    var rest := Struct(keys[1..], values[1..], omit);
    assert ([Member(keys[0], values[0])] + rest)[1..] == rest;
    assert [] + rest == rest;
  }

  lemma {:induction false} NotFound(members: seq<Member>, key: string)
    requires forall m :: m in members ==> m.key != key
    ensures Find(members, key) == None
  {
    if members != [] {
      assert members[0] in members;
      NotFound(members[1..], key);
    }
  }

  /** A structure of clean values is clean, and has no unknown field. */
  lemma StructClean(keys: seq<string>, values: seq<Json>, omit: set<string>)
    requires |keys| == |values| && Distinct(keys) && forall k :: 0 <= k < |values| ==> Clean(values[k])
    ensures Clean(Object(Struct(keys, values, omit))) && Known(Struct(keys, values, omit), keys)
  {
    var members := Struct(keys, values, omit);
    StructHas(keys, values, omit);
    forall i | 0 <= i < |members| ensures members[i].key in keys && Clean(members[i].value) {
      assert members[i] in members;
      var k :| 0 <= k < |keys| && members[i] == Member(keys[k], values[k]);
    }
    StructDistinct(keys, values, omit);
  }

  lemma {:induction false} StructDistinct(keys: seq<string>, values: seq<Json>, omit: set<string>)
    requires |keys| == |values| && Distinct(keys)
    ensures DistinctMembers(Struct(keys, values, omit))
  {
    if keys != [] {
      StructDistinct(keys[1..], values[1..], omit);
      StructHas(keys[1..], values[1..], omit);
      var members, rest := Struct(keys, values, omit), Struct(keys[1..], values[1..], omit);
      forall j | 0 <= j < |rest| ensures rest[j].key != keys[0] {
        assert rest[j] in rest;
        var k :| 0 <= k < |keys[1..]| && rest[j] == Member(keys[1..][k], values[1..][k]);
        assert keys[1..][k] == keys[k + 1];
      }
      DistinctFirst(Member(keys[0], values[0]), rest);
      assert [] + rest == rest;
    }
  }

  lemma DistinctFirst(m: Member, rest: seq<Member>)
    requires forall j :: 0 <= j < |rest| ==> rest[j].key != m.key
    requires DistinctMembers(rest)
    ensures DistinctMembers([m] + rest)
  {
    var members := [m] + rest;
    forall i, j | 0 <= i < j < |members| ensures members[i].key != members[j].key {
      assert members[j] == rest[j - 1];
      if i > 0 { assert members[i] == rest[i - 1]; }
    }
  }

  lemma ReadsText(keys: seq<string>, values: seq<Json>, omit: set<string>, k: nat, s: string)
    requires |keys| == |values| && Distinct(keys) && k < |keys| && values[k] == TextValue(s)
    ensures ReadText(Struct(keys, values, omit), keys[k]) == Some(s)
  {
    StructFind(keys, values, omit, k);
  }

  lemma ReadsNumber(keys: seq<string>, values: seq<Json>, k: nat, n: Int64)
    requires |keys| == |values| && Distinct(keys) && k < |keys| && values[k] == NumberValue(n)
    ensures ReadNumber(Struct(keys, values, {}), keys[k]) == Some(n)
  {
    StructFind(keys, values, {}, k);
  }

  lemma ReadsFlag(keys: seq<string>, values: seq<Json>, omit: set<string>, k: nat, b: bool)
    requires |keys| == |values| && Distinct(keys) && k < |keys| && values[k] == FlagValue(b)
    ensures ReadFlag(Struct(keys, values, omit), keys[k]) == Some(b)
  {
    StructFind(keys, values, omit, k);
  }

  lemma ReadsStruct(keys: seq<string>, values: seq<Json>, omit: set<string>, k: nat, members: seq<Member>)
    requires |keys| == |values| && Distinct(keys) && k < |keys| && values[k] == Object(members)
    ensures ReadStruct(Struct(keys, values, omit), keys[k]) == Some(members)
  {
    StructFind(keys, values, omit, k);
  }

  lemma ScalarsClean()
    ensures forall s :: Clean(TextValue(s))
    ensures forall n :: Clean(NumberValue(n))
    ensures forall b :: Clean(FlagValue(b))
  {
  }

  // ---------------------------------------------------------------- limits and counters

  const REVIEW_LIMITS_KEYS: seq<string> := [
    "max_requests", "max_response_bytes", "max_response_header_bytes", "max_forms", "max_fields", "max_tokens",
    "max_visible_text_bytes"]

  function ReviewLimitsValues(x: ReviewLimits): seq<Json> {
    [NumberValue(x.maxRequests), NumberValue(x.maxResponseBytes), NumberValue(x.maxResponseHeaderBytes),
     NumberValue(x.maxForms), NumberValue(x.maxFields), NumberValue(x.maxTokens),
     NumberValue(x.maxVisibleTextBytes)]
  }

  function ReviewLimitsMembers(x: ReviewLimits): seq<Member> { Struct(REVIEW_LIMITS_KEYS, ReviewLimitsValues(x), {}) }

  function ReadReviewLimits(m: seq<Member>): Option<ReviewLimits> {
    var maxRequests := ReadNumber(m, "max_requests");
    var maxResponseBytes := ReadNumber(m, "max_response_bytes");
    var maxResponseHeaderBytes := ReadNumber(m, "max_response_header_bytes");
    var maxForms := ReadNumber(m, "max_forms");
    var maxFields := ReadNumber(m, "max_fields");
    var maxTokens := ReadNumber(m, "max_tokens");
    var maxVisibleTextBytes := ReadNumber(m, "max_visible_text_bytes");
    if Known(m, REVIEW_LIMITS_KEYS) && maxRequests.Some? && maxResponseBytes.Some? &&
       maxResponseHeaderBytes.Some? && maxForms.Some? && maxFields.Some? && maxTokens.Some? &&
       maxVisibleTextBytes.Some?
    then Some(ReviewLimits(maxRequests.value, maxResponseBytes.value, maxResponseHeaderBytes.value,
      maxForms.value, maxFields.value, maxTokens.value, maxVisibleTextBytes.value))
    else None
  }

  lemma ReviewLimitsReads(x: ReviewLimits)
    ensures ReadReviewLimits(ReviewLimitsMembers(x)) == Some(x) && Clean(Object(ReviewLimitsMembers(x)))
  {
    hide Find, Known, ReadText, ReadNumber, ReadFlag, ReadStruct, Struct, Clean, Distinct;
    var keys, values := REVIEW_LIMITS_KEYS, ReviewLimitsValues(x);
    ReviewLimitsKeysDistinct();
    ScalarsClean();
    StructClean(keys, values, {});
    ReadsNumber(keys, values, 0, x.maxRequests);
    ReadsNumber(keys, values, 1, x.maxResponseBytes);
    ReadsNumber(keys, values, 2, x.maxResponseHeaderBytes);
    ReadsNumber(keys, values, 3, x.maxForms);
    ReadsNumber(keys, values, 4, x.maxFields);
    ReadsNumber(keys, values, 5, x.maxTokens);
    ReadsNumber(keys, values, 6, x.maxVisibleTextBytes);
  }

  lemma ReviewLimitsKeysDistinct()
    ensures Distinct(REVIEW_LIMITS_KEYS)
  {
    assert forall i, j :: 0 <= i < j < |REVIEW_LIMITS_KEYS| ==> REVIEW_LIMITS_KEYS[i] != REVIEW_LIMITS_KEYS[j];
  }

  const EXCHANGE_LIMITS_KEYS: seq<string> := [
    "max_session_requests", "max_submission_requests", "max_form_fields", "max_form_bytes",
    "max_response_bytes", "max_response_header_bytes"]

  function ExchangeLimitsValues(x: ExchangeLimits): seq<Json> {
    [NumberValue(x.maxSessionRequests), NumberValue(x.maxSubmissionRequests), NumberValue(x.maxFormFields),
     NumberValue(x.maxFormBytes), NumberValue(x.maxResponseBytes), NumberValue(x.maxResponseHeaderBytes)]
  }

  function ExchangeLimitsMembers(x: ExchangeLimits): seq<Member> { Struct(EXCHANGE_LIMITS_KEYS, ExchangeLimitsValues(x), {}) }

  function ReadExchangeLimits(m: seq<Member>): Option<ExchangeLimits> {
    var maxSessionRequests := ReadNumber(m, "max_session_requests");
    var maxSubmissionRequests := ReadNumber(m, "max_submission_requests");
    var maxFormFields := ReadNumber(m, "max_form_fields");
    var maxFormBytes := ReadNumber(m, "max_form_bytes");
    var maxResponseBytes := ReadNumber(m, "max_response_bytes");
    var maxResponseHeaderBytes := ReadNumber(m, "max_response_header_bytes");
    if Known(m, EXCHANGE_LIMITS_KEYS) && maxSessionRequests.Some? && maxSubmissionRequests.Some? &&
       maxFormFields.Some? && maxFormBytes.Some? && maxResponseBytes.Some? && maxResponseHeaderBytes.Some?
    then Some(ExchangeLimits(maxSessionRequests.value, maxSubmissionRequests.value, maxFormFields.value,
      maxFormBytes.value, maxResponseBytes.value, maxResponseHeaderBytes.value))
    else None
  }

  lemma ExchangeLimitsReads(x: ExchangeLimits)
    ensures ReadExchangeLimits(ExchangeLimitsMembers(x)) == Some(x) && Clean(Object(ExchangeLimitsMembers(x)))
  {
    hide Find, Known, ReadText, ReadNumber, ReadFlag, ReadStruct, Struct, Clean, Distinct;
    var keys, values := EXCHANGE_LIMITS_KEYS, ExchangeLimitsValues(x);
    ExchangeLimitsKeysDistinct();
    ScalarsClean();
    StructClean(keys, values, {});
    ReadsNumber(keys, values, 0, x.maxSessionRequests);
    ReadsNumber(keys, values, 1, x.maxSubmissionRequests);
    ReadsNumber(keys, values, 2, x.maxFormFields);
    ReadsNumber(keys, values, 3, x.maxFormBytes);
    ReadsNumber(keys, values, 4, x.maxResponseBytes);
    ReadsNumber(keys, values, 5, x.maxResponseHeaderBytes);
  }

  lemma ExchangeLimitsKeysDistinct()
    ensures Distinct(EXCHANGE_LIMITS_KEYS)
  {
    assert forall i, j :: 0 <= i < j < |EXCHANGE_LIMITS_KEYS| ==> EXCHANGE_LIMITS_KEYS[i] != EXCHANGE_LIMITS_KEYS[j];
  }

  const USAGE_KEYS: seq<string> := [
    "total_requests_attempted", "review_requests_attempted", "submission_requests_attempted",
    "automatic_retries", "redirects_followed", "form_fields_submitted", "form_bytes_submitted",
    "response_bytes_read", "response_bytes_known"]

  function UsageValues(x: ExchangeUsage): seq<Json> {
    [NumberValue(x.totalRequests), NumberValue(x.reviewRequests), NumberValue(x.submissionRequests),
     NumberValue(x.automaticRetries), NumberValue(x.redirects), NumberValue(x.formFields),
     NumberValue(x.formBytes), NumberValue(x.responseBytes), FlagValue(x.responseBytesKnown)]
  }

  function UsageMembers(x: ExchangeUsage): seq<Member> { Struct(USAGE_KEYS, UsageValues(x), {}) }

  function ReadUsage(m: seq<Member>): Option<ExchangeUsage> {
    var totalRequests := ReadNumber(m, "total_requests_attempted");
    var reviewRequests := ReadNumber(m, "review_requests_attempted");
    var submissionRequests := ReadNumber(m, "submission_requests_attempted");
    var automaticRetries := ReadNumber(m, "automatic_retries");
    var redirects := ReadNumber(m, "redirects_followed");
    var formFields := ReadNumber(m, "form_fields_submitted");
    var formBytes := ReadNumber(m, "form_bytes_submitted");
    var responseBytes := ReadNumber(m, "response_bytes_read");
    var responseBytesKnown := ReadFlag(m, "response_bytes_known");
    if Known(m, USAGE_KEYS) && totalRequests.Some? && reviewRequests.Some? && submissionRequests.Some? &&
       automaticRetries.Some? && redirects.Some? && formFields.Some? && formBytes.Some? &&
       responseBytes.Some? && responseBytesKnown.Some?
    then Some(ExchangeUsage(totalRequests.value, reviewRequests.value, submissionRequests.value,
      automaticRetries.value, redirects.value, formFields.value, formBytes.value, responseBytes.value,
      responseBytesKnown.value))
    else None
  }

  lemma UsageReads(x: ExchangeUsage)
    ensures ReadUsage(UsageMembers(x)) == Some(x) && Clean(Object(UsageMembers(x)))
  {
    hide Find, Known, ReadText, ReadNumber, ReadFlag, ReadStruct, Struct, Clean, Distinct;
    var keys, values := USAGE_KEYS, UsageValues(x);
    UsageKeysDistinct();
    ScalarsClean();
    StructClean(keys, values, {});
    ReadsNumber(keys, values, 0, x.totalRequests);
    ReadsNumber(keys, values, 1, x.reviewRequests);
    ReadsNumber(keys, values, 2, x.submissionRequests);
    ReadsNumber(keys, values, 3, x.automaticRetries);
    ReadsNumber(keys, values, 4, x.redirects);
    ReadsNumber(keys, values, 5, x.formFields);
    ReadsNumber(keys, values, 6, x.formBytes);
    ReadsNumber(keys, values, 7, x.responseBytes);
    ReadsFlag(keys, values, {}, 8, x.responseBytesKnown);
  }

  lemma UsageKeysDistinct()
    ensures Distinct(USAGE_KEYS)
  {
    assert forall i, j :: 0 <= i < j < |USAGE_KEYS| ==> USAGE_KEYS[i] != USAGE_KEYS[j];
  }

  // ---------------------------------------------------------------- the receipt and the records

  /** Fields the encoder leaves out when they are empty. */
  const RECEIPT_OMITTED: set<string> := {"confirmation_code", "stop_reason"}

  const RECEIPT_KEYS: seq<string> := [
    "effect", "site_id", "selector", "expected_review_id", "fresh_review_id", "origin", "review_route_id",
    "action_route_id", "observed_at_start", "observed_at_end", "complete", "request_attempted",
    "response_complete", "outcome", "confirmation_code", "limits", "used", "stop_reason"]

  function ReceiptValues(x: ExchangeReceipt): seq<Json> {
    [TextValue(x.effect), TextValue(x.siteId), TextValue(x.selector), TextValue(x.expectedReviewId),
     TextValue(x.freshReviewId), TextValue(x.origin), TextValue(x.reviewRouteId), TextValue(x.actionRouteId),
     TextValue(x.observedAtStart), TextValue(x.observedAtEnd), FlagValue(x.complete),
     FlagValue(x.requestAttempted), FlagValue(x.responseComplete), TextValue(x.outcome),
     TextValue(x.confirmationCode), Object(ExchangeLimitsMembers(x.limits)), Object(UsageMembers(x.used)),
     TextValue(x.stopReason)]
  }

  function ReceiptMembers(x: ExchangeReceipt): seq<Member> { Struct(RECEIPT_KEYS, ReceiptValues(x), RECEIPT_OMITTED) }

  function ReadReceipt(m: seq<Member>): Option<ExchangeReceipt> {
    var effect := ReadText(m, "effect");
    var siteId := ReadText(m, "site_id");
    var selector := ReadText(m, "selector");
    var expectedReviewId := ReadText(m, "expected_review_id");
    var freshReviewId := ReadText(m, "fresh_review_id");
    var origin := ReadText(m, "origin");
    var reviewRouteId := ReadText(m, "review_route_id");
    var actionRouteId := ReadText(m, "action_route_id");
    var observedAtStart := ReadText(m, "observed_at_start");
    var observedAtEnd := ReadText(m, "observed_at_end");
    var complete := ReadFlag(m, "complete");
    var requestAttempted := ReadFlag(m, "request_attempted");
    var responseComplete := ReadFlag(m, "response_complete");
    var outcome := ReadText(m, "outcome");
    var confirmationCode := ReadText(m, "confirmation_code");
    var limitsMembers := ReadStruct(m, "limits");
    var limits := if limitsMembers.None? then None else ReadExchangeLimits(limitsMembers.value);
    var usedMembers := ReadStruct(m, "used");
    var used := if usedMembers.None? then None else ReadUsage(usedMembers.value);
    var stopReason := ReadText(m, "stop_reason");
    if Known(m, RECEIPT_KEYS) && effect.Some? && siteId.Some? && selector.Some? && expectedReviewId.Some? &&
       freshReviewId.Some? && origin.Some? && reviewRouteId.Some? && actionRouteId.Some? &&
       observedAtStart.Some? && observedAtEnd.Some? && complete.Some? && requestAttempted.Some? &&
       responseComplete.Some? && outcome.Some? && confirmationCode.Some? && limits.Some? && used.Some? &&
       stopReason.Some?
    then Some(ExchangeReceipt(effect.value, siteId.value, selector.value, expectedReviewId.value,
      freshReviewId.value, origin.value, reviewRouteId.value, actionRouteId.value, observedAtStart.value,
      observedAtEnd.value, complete.value, requestAttempted.value, responseComplete.value, outcome.value,
      confirmationCode.value, limits.value, used.value, stopReason.value))
    else None
  }

  /** A written receipt has all its fields, but for an empty confirmation code and an empty stop reason. */
  lemma ReceiptFields(x: ExchangeReceipt, k: nat)
    requires k < |RECEIPT_KEYS|
    ensures Find(ReceiptMembers(x), RECEIPT_KEYS[k]).None? <==>
              (RECEIPT_KEYS[k] == "confirmation_code" && x.confirmationCode == "") || (RECEIPT_KEYS[k] == "stop_reason" && x.stopReason == "")
  {
    hide Find, Struct, Distinct, ExchangeLimitsMembers, UsageMembers;
    ReceiptKeysDistinct();
    StructFind(RECEIPT_KEYS, ReceiptValues(x), RECEIPT_OMITTED, k);
    OmittedAt(x, k);
  }

  lemma OmittedAt(x: ExchangeReceipt, k: nat)
    requires k < |RECEIPT_KEYS|
    ensures |ReceiptValues(x)| == |RECEIPT_KEYS|
    ensures RECEIPT_KEYS[k] in RECEIPT_OMITTED <==> k == 14 || k == 17
    ensures k == 14 ==> RECEIPT_KEYS[k] == "confirmation_code" && (ReceiptValues(x)[k] == EMPTY <==> x.confirmationCode == "")
    ensures k == 17 ==> RECEIPT_KEYS[k] == "stop_reason" && (ReceiptValues(x)[k] == EMPTY <==> x.stopReason == "")
    ensures RECEIPT_KEYS[k] == "confirmation_code" <==> k == 14
    ensures RECEIPT_KEYS[k] == "stop_reason" <==> k == 17
  {
  }

  lemma ReceiptSubjectRead(x: ExchangeReceipt)
    ensures ReadText(ReceiptMembers(x), "effect") == Some(x.effect)
    ensures ReadText(ReceiptMembers(x), "site_id") == Some(x.siteId)
    ensures ReadText(ReceiptMembers(x), "selector") == Some(x.selector)
  {
    hide Find, ReadText, ReadNumber, ReadFlag, ReadStruct, Struct, Distinct, ReadExchangeLimits, ExchangeLimitsMembers, ReadUsage, UsageMembers;
    var keys, values := RECEIPT_KEYS, ReceiptValues(x);
    ReceiptKeysDistinct();
    ReadsText(keys, values, RECEIPT_OMITTED, 0, x.effect);
    ReadsText(keys, values, RECEIPT_OMITTED, 1, x.siteId);
    ReadsText(keys, values, RECEIPT_OMITTED, 2, x.selector);
  }

  lemma ReceiptReviewsRead(x: ExchangeReceipt)
    ensures ReadText(ReceiptMembers(x), "expected_review_id") == Some(x.expectedReviewId)
    ensures ReadText(ReceiptMembers(x), "fresh_review_id") == Some(x.freshReviewId)
    ensures ReadText(ReceiptMembers(x), "origin") == Some(x.origin)
  {
    hide Find, ReadText, ReadNumber, ReadFlag, ReadStruct, Struct, Distinct, ReadExchangeLimits, ExchangeLimitsMembers, ReadUsage, UsageMembers;
    var keys, values := RECEIPT_KEYS, ReceiptValues(x);
    ReceiptKeysDistinct();
    ReadsText(keys, values, RECEIPT_OMITTED, 3, x.expectedReviewId);
    ReadsText(keys, values, RECEIPT_OMITTED, 4, x.freshReviewId);
    ReadsText(keys, values, RECEIPT_OMITTED, 5, x.origin);
  }

  lemma ReceiptRoutesRead(x: ExchangeReceipt)
    ensures ReadText(ReceiptMembers(x), "review_route_id") == Some(x.reviewRouteId)
    ensures ReadText(ReceiptMembers(x), "action_route_id") == Some(x.actionRouteId)
    ensures ReadText(ReceiptMembers(x), "observed_at_start") == Some(x.observedAtStart)
  {
    hide Find, ReadText, ReadNumber, ReadFlag, ReadStruct, Struct, Distinct, ReadExchangeLimits, ExchangeLimitsMembers, ReadUsage, UsageMembers;
    var keys, values := RECEIPT_KEYS, ReceiptValues(x);
    ReceiptKeysDistinct();
    ReadsText(keys, values, RECEIPT_OMITTED, 6, x.reviewRouteId);
    ReadsText(keys, values, RECEIPT_OMITTED, 7, x.actionRouteId);
    ReadsText(keys, values, RECEIPT_OMITTED, 8, x.observedAtStart);
  }

  lemma ReceiptProgressRead(x: ExchangeReceipt)
    ensures ReadText(ReceiptMembers(x), "observed_at_end") == Some(x.observedAtEnd)
    ensures ReadFlag(ReceiptMembers(x), "complete") == Some(x.complete)
    ensures ReadFlag(ReceiptMembers(x), "request_attempted") == Some(x.requestAttempted)
  {
    hide Find, ReadText, ReadNumber, ReadFlag, ReadStruct, Struct, Distinct, ReadExchangeLimits, ExchangeLimitsMembers, ReadUsage, UsageMembers;
    var keys, values := RECEIPT_KEYS, ReceiptValues(x);
    ReceiptKeysDistinct();
    ReadsText(keys, values, RECEIPT_OMITTED, 9, x.observedAtEnd);
    ReadsFlag(keys, values, RECEIPT_OMITTED, 10, x.complete);
    ReadsFlag(keys, values, RECEIPT_OMITTED, 11, x.requestAttempted);
  }

  lemma ReceiptOutcomeRead(x: ExchangeReceipt)
    ensures ReadFlag(ReceiptMembers(x), "response_complete") == Some(x.responseComplete)
    ensures ReadText(ReceiptMembers(x), "outcome") == Some(x.outcome)
    ensures ReadText(ReceiptMembers(x), "confirmation_code") == Some(x.confirmationCode)
    ensures ReadStruct(ReceiptMembers(x), "limits") == Some(ExchangeLimitsMembers(x.limits))
    ensures ReadStruct(ReceiptMembers(x), "used") == Some(UsageMembers(x.used))
    ensures ReadText(ReceiptMembers(x), "stop_reason") == Some(x.stopReason)
  {
    hide Find, ReadText, ReadNumber, ReadFlag, ReadStruct, Struct, Distinct, ReadExchangeLimits, ExchangeLimitsMembers, ReadUsage, UsageMembers;
    var keys, values := RECEIPT_KEYS, ReceiptValues(x);
    ReceiptKeysDistinct();
    ReadsFlag(keys, values, RECEIPT_OMITTED, 12, x.responseComplete);
    ReadsText(keys, values, RECEIPT_OMITTED, 13, x.outcome);
    ReadsText(keys, values, RECEIPT_OMITTED, 14, x.confirmationCode);
    ReadsStruct(keys, values, RECEIPT_OMITTED, 15, ExchangeLimitsMembers(x.limits));
    ReadsStruct(keys, values, RECEIPT_OMITTED, 16, UsageMembers(x.used));
    ReadsText(keys, values, RECEIPT_OMITTED, 17, x.stopReason);
  }

  lemma ReceiptClean(x: ExchangeReceipt)
    ensures Clean(Object(ReceiptMembers(x))) && Known(ReceiptMembers(x), RECEIPT_KEYS)
  {
    hide Known, Struct, Clean, Distinct, ReadExchangeLimits, ExchangeLimitsMembers, ReadUsage, UsageMembers;
    ReceiptKeysDistinct();
    ScalarsClean();
    ExchangeLimitsReads(x.limits);
    UsageReads(x.used);
    StructClean(RECEIPT_KEYS, ReceiptValues(x), RECEIPT_OMITTED);
  }

  lemma ReceiptReads(x: ExchangeReceipt)
    ensures ReadReceipt(ReceiptMembers(x)) == Some(x) && Clean(Object(ReceiptMembers(x)))
  {
    hide *;
    ReceiptOf(x, ReceiptMembers(x));
    ReceiptSubjectRead(x);
    ReceiptReviewsRead(x);
    ReceiptRoutesRead(x);
    ReceiptProgressRead(x);
    ReceiptOutcomeRead(x);
    ReceiptClean(x);
    ExchangeLimitsReads(x.limits);
    UsageReads(x.used);
  }

  /** A reading is determined by what its fields read as. */
  lemma ReceiptOf(x: ExchangeReceipt, m: seq<Member>)
    ensures Known(m, RECEIPT_KEYS)
      && ReadText(m, "effect") == Some(x.effect)
      && ReadText(m, "site_id") == Some(x.siteId)
      && ReadText(m, "selector") == Some(x.selector)
      && ReadText(m, "expected_review_id") == Some(x.expectedReviewId)
      && ReadText(m, "fresh_review_id") == Some(x.freshReviewId)
      && ReadText(m, "origin") == Some(x.origin)
      && ReadText(m, "review_route_id") == Some(x.reviewRouteId)
      && ReadText(m, "action_route_id") == Some(x.actionRouteId)
      && ReadText(m, "observed_at_start") == Some(x.observedAtStart)
      && ReadText(m, "observed_at_end") == Some(x.observedAtEnd)
      && ReadFlag(m, "complete") == Some(x.complete)
      && ReadFlag(m, "request_attempted") == Some(x.requestAttempted)
      && ReadFlag(m, "response_complete") == Some(x.responseComplete)
      && ReadText(m, "outcome") == Some(x.outcome)
      && ReadText(m, "confirmation_code") == Some(x.confirmationCode)
      && ReadStruct(m, "limits") == Some(ExchangeLimitsMembers(x.limits))
      && ReadExchangeLimits(ExchangeLimitsMembers(x.limits)) == Some(x.limits)
      && ReadStruct(m, "used") == Some(UsageMembers(x.used))
      && ReadUsage(UsageMembers(x.used)) == Some(x.used)
      && ReadText(m, "stop_reason") == Some(x.stopReason)
      ==> ReadReceipt(m) == Some(x)
  {
    hide Find, Known, ReadText, ReadNumber, ReadFlag, ReadStruct, Struct, ReadExchangeLimits, ExchangeLimitsMembers, ReadUsage, UsageMembers;
  }

  lemma ReceiptKeysDistinct()
    ensures Distinct(RECEIPT_KEYS)
  {
    assert forall i, j :: 0 <= i < j < |RECEIPT_KEYS| ==> RECEIPT_KEYS[i] != RECEIPT_KEYS[j];
  }

  const INTENT_KEYS: seq<string> := [
    "schema", "operation_id", "site_id", "selector", "expected_review_id", "origin", "review_route_id",
    "action_route_id", "input_mode", "created_at", "review_limits", "exchange_limits"]

  function IntentValues(x: IntentRecord): seq<Json> {
    [TextValue(x.schema), TextValue(x.operationId), TextValue(x.siteId), TextValue(x.selector),
     TextValue(x.expectedReviewId), TextValue(x.origin), TextValue(x.reviewRouteId),
     TextValue(x.actionRouteId), TextValue(x.inputMode), TextValue(x.createdAt),
     Object(ReviewLimitsMembers(x.reviewLimits)), Object(ExchangeLimitsMembers(x.exchangeLimits))]
  }

  function IntentMembers(x: IntentRecord): seq<Member> { Struct(INTENT_KEYS, IntentValues(x), {}) }

  function ReadIntent(m: seq<Member>): Option<IntentRecord> {
    var schema := ReadText(m, "schema");
    var operationId := ReadText(m, "operation_id");
    var siteId := ReadText(m, "site_id");
    var selector := ReadText(m, "selector");
    var expectedReviewId := ReadText(m, "expected_review_id");
    var origin := ReadText(m, "origin");
    var reviewRouteId := ReadText(m, "review_route_id");
    var actionRouteId := ReadText(m, "action_route_id");
    var inputMode := ReadText(m, "input_mode");
    var createdAt := ReadText(m, "created_at");
    var reviewLimitsMembers := ReadStruct(m, "review_limits");
    var reviewLimits := if reviewLimitsMembers.None? then None else ReadReviewLimits(reviewLimitsMembers.value);
    var exchangeLimitsMembers := ReadStruct(m, "exchange_limits");
    var exchangeLimits := if exchangeLimitsMembers.None? then None else ReadExchangeLimits(exchangeLimitsMembers.value);
    if Known(m, INTENT_KEYS) && schema.Some? && operationId.Some? && siteId.Some? && selector.Some? &&
       expectedReviewId.Some? && origin.Some? && reviewRouteId.Some? && actionRouteId.Some? &&
       inputMode.Some? && createdAt.Some? && reviewLimits.Some? && exchangeLimits.Some?
    then Some(IntentRecord(schema.value, operationId.value, siteId.value, selector.value,
      expectedReviewId.value, origin.value, reviewRouteId.value, actionRouteId.value, inputMode.value,
      createdAt.value, reviewLimits.value, exchangeLimits.value))
    else None
  }

  lemma IntentReads(x: IntentRecord)
    ensures ReadIntent(IntentMembers(x)) == Some(x) && Clean(Object(IntentMembers(x)))
  {
    hide Find, Known, ReadText, ReadNumber, ReadFlag, ReadStruct, Struct, Clean, Distinct, ReadExchangeLimits,
         ExchangeLimitsMembers, ReadReviewLimits, ReviewLimitsMembers;
    var keys, values := INTENT_KEYS, IntentValues(x);
    IntentKeysDistinct();
    ScalarsClean();
    ReviewLimitsReads(x.reviewLimits);
    ExchangeLimitsReads(x.exchangeLimits);
    StructClean(keys, values, {});
    ReadsText(keys, values, {}, 0, x.schema);
    ReadsText(keys, values, {}, 1, x.operationId);
    ReadsText(keys, values, {}, 2, x.siteId);
    ReadsText(keys, values, {}, 3, x.selector);
    ReadsText(keys, values, {}, 4, x.expectedReviewId);
    ReadsText(keys, values, {}, 5, x.origin);
    ReadsText(keys, values, {}, 6, x.reviewRouteId);
    ReadsText(keys, values, {}, 7, x.actionRouteId);
    ReadsText(keys, values, {}, 8, x.inputMode);
    ReadsText(keys, values, {}, 9, x.createdAt);
    ReadsStruct(keys, values, {}, 10, ReviewLimitsMembers(x.reviewLimits));
    ReadsStruct(keys, values, {}, 11, ExchangeLimitsMembers(x.exchangeLimits));
  }

  lemma IntentKeysDistinct()
    ensures Distinct(INTENT_KEYS)
  {
    assert forall i, j :: 0 <= i < j < |INTENT_KEYS| ==> INTENT_KEYS[i] != INTENT_KEYS[j];
  }

  const ATTEMPT_KEYS: seq<string> := [
    "schema", "operation_id", "intent_record_id", "site_id", "selector", "expected_review_id", "origin",
    "review_route_id", "action_route_id"]

  function AttemptValues(x: AttemptForm): seq<Json> {
    [TextValue(x.schema), TextValue(x.operationId), TextValue(x.intentRecordId), TextValue(x.siteId),
     TextValue(x.selector), TextValue(x.expectedReviewId), TextValue(x.origin), TextValue(x.reviewRouteId),
     TextValue(x.actionRouteId)]
  }

  function AttemptMembers(x: AttemptForm): seq<Member> { Struct(ATTEMPT_KEYS, AttemptValues(x), {}) }

  function ReadAttempt(m: seq<Member>): Option<AttemptForm> {
    var schema := ReadText(m, "schema");
    var operationId := ReadText(m, "operation_id");
    var intentRecordId := ReadText(m, "intent_record_id");
    var siteId := ReadText(m, "site_id");
    var selector := ReadText(m, "selector");
    var expectedReviewId := ReadText(m, "expected_review_id");
    var origin := ReadText(m, "origin");
    var reviewRouteId := ReadText(m, "review_route_id");
    var actionRouteId := ReadText(m, "action_route_id");
    if Known(m, ATTEMPT_KEYS) && schema.Some? && operationId.Some? && intentRecordId.Some? && siteId.Some? &&
       selector.Some? && expectedReviewId.Some? && origin.Some? && reviewRouteId.Some? && actionRouteId.Some?
    then Some(AttemptForm(schema.value, operationId.value, intentRecordId.value, siteId.value, selector.value,
      expectedReviewId.value, origin.value, reviewRouteId.value, actionRouteId.value))
    else None
  }

  lemma AttemptReads(x: AttemptForm)
    ensures ReadAttempt(AttemptMembers(x)) == Some(x) && Clean(Object(AttemptMembers(x)))
  {
    hide Find, Known, ReadText, ReadNumber, ReadFlag, ReadStruct, Struct, Clean, Distinct;
    var keys, values := ATTEMPT_KEYS, AttemptValues(x);
    AttemptKeysDistinct();
    ScalarsClean();
    StructClean(keys, values, {});
    ReadsText(keys, values, {}, 0, x.schema);
    ReadsText(keys, values, {}, 1, x.operationId);
    ReadsText(keys, values, {}, 2, x.intentRecordId);
    ReadsText(keys, values, {}, 3, x.siteId);
    ReadsText(keys, values, {}, 4, x.selector);
    ReadsText(keys, values, {}, 5, x.expectedReviewId);
    ReadsText(keys, values, {}, 6, x.origin);
    ReadsText(keys, values, {}, 7, x.reviewRouteId);
    ReadsText(keys, values, {}, 8, x.actionRouteId);
  }

  lemma AttemptKeysDistinct()
    ensures Distinct(ATTEMPT_KEYS)
  {
    assert forall i, j :: 0 <= i < j < |ATTEMPT_KEYS| ==> ATTEMPT_KEYS[i] != ATTEMPT_KEYS[j];
  }

  const OUTCOME_KEYS: seq<string> := [
    "schema", "operation_id", "intent_record_id", "attempt_record_id", "recorded_at", "receipt"]

  function OutcomeValues(x: OutcomeForm): seq<Json> {
    [TextValue(x.schema), TextValue(x.operationId), TextValue(x.intentRecordId), TextValue(x.attemptRecordId),
     TextValue(x.recordedAt), Object(ReceiptMembers(x.receipt))]
  }

  function OutcomeMembers(x: OutcomeForm): seq<Member> { Struct(OUTCOME_KEYS, OutcomeValues(x), {}) }

  function ReadOutcome(m: seq<Member>): Option<OutcomeForm> {
    var schema := ReadText(m, "schema");
    var operationId := ReadText(m, "operation_id");
    var intentRecordId := ReadText(m, "intent_record_id");
    var attemptRecordId := ReadText(m, "attempt_record_id");
    var recordedAt := ReadText(m, "recorded_at");
    var receiptMembers := ReadStruct(m, "receipt");
    var receipt := if receiptMembers.None? then None else ReadReceipt(receiptMembers.value);
    if Known(m, OUTCOME_KEYS) && schema.Some? && operationId.Some? && intentRecordId.Some? &&
       attemptRecordId.Some? && recordedAt.Some? && receipt.Some?
    then Some(OutcomeForm(schema.value, operationId.value, intentRecordId.value, attemptRecordId.value,
      recordedAt.value, receipt.value))
    else None
  }

  lemma OutcomeReads(x: OutcomeForm)
    ensures ReadOutcome(OutcomeMembers(x)) == Some(x) && Clean(Object(OutcomeMembers(x)))
  {
    hide Find, Known, ReadText, ReadNumber, ReadFlag, ReadStruct, Struct, Clean, Distinct, ReadReceipt, ReceiptMembers;
    var keys, values := OUTCOME_KEYS, OutcomeValues(x);
    OutcomeKeysDistinct();
    ScalarsClean();
    ReceiptReads(x.receipt);
    StructClean(keys, values, {});
    ReadsText(keys, values, {}, 0, x.schema);
    ReadsText(keys, values, {}, 1, x.operationId);
    ReadsText(keys, values, {}, 2, x.intentRecordId);
    ReadsText(keys, values, {}, 3, x.attemptRecordId);
    ReadsText(keys, values, {}, 4, x.recordedAt);
    ReadsStruct(keys, values, {}, 5, ReceiptMembers(x.receipt));
  }

  lemma OutcomeKeysDistinct()
    ensures Distinct(OUTCOME_KEYS)
  {
    assert forall i, j :: 0 <= i < j < |OUTCOME_KEYS| ==> OUTCOME_KEYS[i] != OUTCOME_KEYS[j];
  }

  const LOCATOR_KEYS: seq<string> := [
    "kind", "record_id", "size_bytes"]

  function LocatorValues(x: Locator): seq<Json> {
    [TextValue(x.kind), TextValue(x.id), NumberValue(x.size)]
  }

  function LocatorMembers(x: Locator): seq<Member> { Struct(LOCATOR_KEYS, LocatorValues(x), {}) }

  function ReadLocator(m: seq<Member>): Option<Locator> {
    var kind := ReadText(m, "kind");
    var id := ReadText(m, "record_id");
    var size := ReadNumber(m, "size_bytes");
    if Known(m, LOCATOR_KEYS) && kind.Some? && id.Some? && size.Some?
    then Some(Locator(kind.value, id.value, size.value))
    else None
  }

  lemma LocatorReads(x: Locator)
    ensures ReadLocator(LocatorMembers(x)) == Some(x) && Clean(Object(LocatorMembers(x)))
  {
    hide Find, Known, ReadText, ReadNumber, ReadFlag, ReadStruct, Struct, Clean, Distinct;
    var keys, values := LOCATOR_KEYS, LocatorValues(x);
    LocatorKeysDistinct();
    ScalarsClean();
    StructClean(keys, values, {});
    ReadsText(keys, values, {}, 0, x.kind);
    ReadsText(keys, values, {}, 1, x.id);
    ReadsNumber(keys, values, 2, x.size);
  }

  lemma LocatorKeysDistinct()
    ensures Distinct(LOCATOR_KEYS)
  {
    assert forall i, j :: 0 <= i < j < |LOCATOR_KEYS| ==> LOCATOR_KEYS[i] != LOCATOR_KEYS[j];
  }

  const RETENTION_KEYS: seq<string> := [
    "schema", "basis", "store_id", "operation_id", "terminal_state", "intent", "intent_record", "attempt",
    "attempt_record", "outcome", "outcome_record"]

  function RetentionValues(x: RetentionForm): seq<Json> {
    [TextValue(x.schema), TextValue(x.basis), TextValue(x.storeId), TextValue(x.operationId),
     TextValue(x.terminalState), Object(IntentMembers(x.intent)), Object(LocatorMembers(x.intentRef)),
     Object(AttemptMembers(x.attempt)), Object(LocatorMembers(x.attemptRef)),
     Object(OutcomeMembers(x.outcome)), Object(LocatorMembers(x.outcomeRef))]
  }

  function RetentionMembers(x: RetentionForm): seq<Member> { Struct(RETENTION_KEYS, RetentionValues(x), {}) }

  function ReadRetention(m: seq<Member>): Option<RetentionForm> {
    var schema := ReadText(m, "schema");
    var basis := ReadText(m, "basis");
    var storeId := ReadText(m, "store_id");
    var operationId := ReadText(m, "operation_id");
    var terminalState := ReadText(m, "terminal_state");
    var intentMembers := ReadStruct(m, "intent");
    var intent := if intentMembers.None? then None else ReadIntent(intentMembers.value);
    var intentRefMembers := ReadStruct(m, "intent_record");
    var intentRef := if intentRefMembers.None? then None else ReadLocator(intentRefMembers.value);
    var attemptMembers := ReadStruct(m, "attempt");
    var attempt := if attemptMembers.None? then None else ReadAttempt(attemptMembers.value);
    var attemptRefMembers := ReadStruct(m, "attempt_record");
    var attemptRef := if attemptRefMembers.None? then None else ReadLocator(attemptRefMembers.value);
    var outcomeMembers := ReadStruct(m, "outcome");
    var outcome := if outcomeMembers.None? then None else ReadOutcome(outcomeMembers.value);
    var outcomeRefMembers := ReadStruct(m, "outcome_record");
    var outcomeRef := if outcomeRefMembers.None? then None else ReadLocator(outcomeRefMembers.value);
    if Known(m, RETENTION_KEYS) && schema.Some? && basis.Some? && storeId.Some? && operationId.Some? &&
       terminalState.Some? && intent.Some? && intentRef.Some? && attempt.Some? && attemptRef.Some? &&
       outcome.Some? && outcomeRef.Some?
    then Some(RetentionForm(schema.value, basis.value, storeId.value, operationId.value, terminalState.value,
      intent.value, intentRef.value, attempt.value, attemptRef.value, outcome.value, outcomeRef.value))
    else None
  }

  lemma RetentionReads(x: RetentionForm)
    ensures ReadRetention(RetentionMembers(x)) == Some(x) && Clean(Object(RetentionMembers(x)))
  {
    hide Find, Known, ReadText, ReadNumber, ReadFlag, ReadStruct, Struct, Clean, Distinct, ReadAttempt, AttemptMembers,
         ReadIntent, IntentMembers, ReadLocator, LocatorMembers, ReadOutcome, OutcomeMembers;
    var keys, values := RETENTION_KEYS, RetentionValues(x);
    RetentionKeysDistinct();
    ScalarsClean();
    IntentReads(x.intent);
    LocatorReads(x.intentRef);
    AttemptReads(x.attempt);
    LocatorReads(x.attemptRef);
    OutcomeReads(x.outcome);
    LocatorReads(x.outcomeRef);
    StructClean(keys, values, {});
    ReadsText(keys, values, {}, 0, x.schema);
    ReadsText(keys, values, {}, 1, x.basis);
    ReadsText(keys, values, {}, 2, x.storeId);
    ReadsText(keys, values, {}, 3, x.operationId);
    ReadsText(keys, values, {}, 4, x.terminalState);
    ReadsStruct(keys, values, {}, 5, IntentMembers(x.intent));
    ReadsStruct(keys, values, {}, 6, LocatorMembers(x.intentRef));
    ReadsStruct(keys, values, {}, 7, AttemptMembers(x.attempt));
    ReadsStruct(keys, values, {}, 8, LocatorMembers(x.attemptRef));
    ReadsStruct(keys, values, {}, 9, OutcomeMembers(x.outcome));
    ReadsStruct(keys, values, {}, 10, LocatorMembers(x.outcomeRef));
  }

  lemma RetentionKeysDistinct()
    ensures Distinct(RETENTION_KEYS)
  {
    assert forall i, j :: 0 <= i < j < |RETENTION_KEYS| ==> RETENTION_KEYS[i] != RETENTION_KEYS[j];
  }

  const FORGET_KEYS: seq<string> := [
    "schema", "basis", "store_id", "operation_id", "retention", "retention_record"]

  function ForgetValues(x: ForgetForm): seq<Json> {
    [TextValue(x.schema), TextValue(x.basis), TextValue(x.storeId), TextValue(x.operationId),
     Object(RetentionMembers(x.retention)), Object(LocatorMembers(x.retentionRef))]
  }

  function ForgetMembers(x: ForgetForm): seq<Member> { Struct(FORGET_KEYS, ForgetValues(x), {}) }

  function ReadForget(m: seq<Member>): Option<ForgetForm> {
    var schema := ReadText(m, "schema");
    var basis := ReadText(m, "basis");
    var storeId := ReadText(m, "store_id");
    var operationId := ReadText(m, "operation_id");
    var retentionMembers := ReadStruct(m, "retention");
    var retention := if retentionMembers.None? then None else ReadRetention(retentionMembers.value);
    var retentionRefMembers := ReadStruct(m, "retention_record");
    var retentionRef := if retentionRefMembers.None? then None else ReadLocator(retentionRefMembers.value);
    if Known(m, FORGET_KEYS) && schema.Some? && basis.Some? && storeId.Some? && operationId.Some? &&
       retention.Some? && retentionRef.Some?
    then Some(ForgetForm(schema.value, basis.value, storeId.value, operationId.value, retention.value,
      retentionRef.value))
    else None
  }

  lemma ForgetReads(x: ForgetForm)
    ensures ReadForget(ForgetMembers(x)) == Some(x) && Clean(Object(ForgetMembers(x)))
  {
    hide Find, Known, ReadText, ReadNumber, ReadFlag, ReadStruct, Struct, Clean, Distinct, ReadLocator, LocatorMembers,
         ReadRetention, RetentionMembers;
    var keys, values := FORGET_KEYS, ForgetValues(x);
    ForgetKeysDistinct();
    ScalarsClean();
    RetentionReads(x.retention);
    LocatorReads(x.retentionRef);
    StructClean(keys, values, {});
    ReadsText(keys, values, {}, 0, x.schema);
    ReadsText(keys, values, {}, 1, x.basis);
    ReadsText(keys, values, {}, 2, x.storeId);
    ReadsText(keys, values, {}, 3, x.operationId);
    ReadsStruct(keys, values, {}, 4, RetentionMembers(x.retention));
    ReadsStruct(keys, values, {}, 5, LocatorMembers(x.retentionRef));
  }

  lemma ForgetKeysDistinct()
    ensures Distinct(FORGET_KEYS)
  {
    assert forall i, j :: 0 <= i < j < |FORGET_KEYS| ==> FORGET_KEYS[i] != FORGET_KEYS[j];
  }
}
