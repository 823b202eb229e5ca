/**
  The submit command (`siteBonusExchangeSubmit` in internal/cli/site_bonus_exchange.go) as driver
  of the protocol: preflight, fresh review, reservation, one submission, outcome, final status.

  Flags, credentials and opening the site session are steps that can fail before the reservation.
 */
module Driver {
  import opened Basics
  import opened Records
  import opened Program
  import opened Journal
  import opened Metastore
  import opened Budget
  import opened Sequential
  import opened Scripts
  import opened Session
  import Protocol
  import Refinement

  /** The selectors of the invocation and the limits the command uses. */
  datatype Invocation = Invocation(
    siteId: string, selector: string, reviewId: string, origin: string, reviewRouteId: string, actionRouteId: string,
    reviewLimits: ReviewLimits, exchangeLimits: ExchangeLimits)

  predicate IntentMatchesInvocation(i: IntentRecord, inv: Invocation) {
    && ValidIntent(i)
    && i.siteId == inv.siteId && i.selector == inv.selector && i.expectedReviewId == inv.reviewId
    && i.origin == inv.origin && i.reviewRouteId == inv.reviewRouteId && i.actionRouteId == inv.actionRouteId
    && i.reviewLimits == inv.reviewLimits && i.exchangeLimits == inv.exchangeLimits
    && i.inputMode == INPUT_NONE
  }

  /** The intent is the one the invocation describes, field by field. */
  ghost predicate Invokes(inv: Invocation, i: IntentRecord) {
    && inv.siteId == i.siteId && inv.selector == i.selector && inv.origin == i.origin
    && inv.reviewId == i.expectedReviewId
    && inv.reviewRouteId == i.reviewRouteId && inv.actionRouteId == i.actionRouteId
    && inv.reviewLimits == i.reviewLimits && inv.exchangeLimits == i.exchangeLimits
  }

  lemma InvokesIs(inv: Invocation, i: IntentRecord)
    ensures IntentMatchesInvocation(i, inv) <==> ValidIntent(i) && Invokes(inv, i)
  {
    hide ValidSha256Id, SafeText, ValidRouteId, ValidTime, ValidReviewLimits, ValidExchangeLimits;
  }

  /** The site's observation is complete, of this submission, and of one submission request at most. */
  predicate ValidObservation(i: IntentRecord, observed: Option<Observation>, exchange: ExchangeReceipt, requests: nat) {
    && Session.Observes(observed, exchange, i)
    && exchange.limits == i.exchangeLimits
    && requests == exchange.used.totalRequests
    && exchange.used.reviewRequests == 1
    && exchange.used.submissionRequests <= 1 && exchange.used.automaticRetries == 0 && exchange.used.redirects == 0
  }

  /** What the site adapter reports about a submission. */
  datatype SiteResult = SiteResult(observed: Option<Observation>, exchange: ExchangeReceipt, requests: nat)

  /** The result is of this intent's submission: one review, one form post at most, no retry, no redirect. */
  ghost predicate OneSubmission(i: IntentRecord, result: SiteResult) {
    && result.observed.Some? && result.observed.value.receipt == result.exchange
    && result.exchange.limits == i.exchangeLimits
    && result.requests == result.exchange.used.totalRequests
    && result.exchange.used.reviewRequests == 1 && 0 <= result.exchange.used.submissionRequests <= 1
    && result.exchange.used.automaticRetries == 0 && result.exchange.used.redirects == 0
  }

  /** The site adapter: what it answers is arbitrary; how often the form is submitted is counted. */
  class Site {
    var submissions: nat
    ghost var review: Option<Review>        // the fresh review it last showed
    ghost var result: Option<SiteResult>    // what it last reported about a submission
    ghost var faults: nat                   // how often it could not be used

    constructor ()
      ensures submissions == 0
    {
      submissions := 0;
      review, result, faults := None, None, 0;
    }

    /** A step outside the store: credentials, the site session, a request. */
    method Fails() returns (fails: bool)
      modifies this`faults
      ensures if fails then faults > old(faults) else faults == old(faults)
    {
      fails := *;
      if fails { faults := faults + 1; }
    }

    method ReadFreshReview() returns (shown: Option<Review>, failed: bool)
      modifies this`faults, this`review
      ensures if failed then faults > old(faults) else faults == old(faults)
      ensures review == shown
    {
      shown := *;
      review := shown;
      failed := Fails();
    }

    /** Submitting is the step that only a reservation that acquired its marker can take. */
    method SubmitFresh(bound: Bound)
      returns (observed: Option<Observation>, exchange: ExchangeReceipt, requests: nat, failed: bool)
      requires bound.Valid() && Want(bound.pc) == SubmitOp
      modifies this, bound
      ensures submissions == old(submissions) + 1 && review == old(review)
      ensures if failed then faults > old(faults) else faults == old(faults)
      ensures result == Some(SiteResult(observed, exchange, requests)) && Calm(old(bound.log), bound.log)
      ensures bound.Valid() && Later(old(bound.log), bound.log) && bound.Now() == AfterDid(old(bound.Now()), Submitted)
      ensures bound.exclusive ==> bound.records == old(bound.records)
    {
      hide *;
      submissions := submissions + 1;
      bound.Post();
      observed, exchange, requests := *, *, *;
      result := Some(SiteResult(observed, exchange, requests));
      failed := Fails();
    }
  }

  datatype SubmitReport = SubmitReport(
    acquired: bool, stored: Option<OutcomeRecord>, durable: bool, final: Option<StatusReport>)

  /** The operation is prepared, nothing stands against its reservation, and the limits hold what that reads. */
  ghost predicate CanPrepare(bound: Bound, s: set<Record>, i: IntentRecord) {
    && CanReserve(bound, s, i) && StatusRoom(bound, s)
    && Selected(s, StatusForget(i, Api), None) && Selected(s, StatusRetention(i, Api), None)
  }

  const PREPARED := StatusReport(Prepared, None, None, None, None)

  lemma PreparedOnly(bound: Bound, s: set<Record>, i: IntentRecord)
    ensures CanPrepare(bound, s, i) ==>
              && ValidIntent(i) && Intent(i) in s && !bound.TooBig(Intent(i)) && CanReserve(bound, s, i) && CanInspect(bound, s, i)
              && forall st :: StatusOf(s, i, st) ==> st == PREPARED && st.state.Prepared?
  {
    hide ValidIntent, Selected, StatusRoom, NoOutcome;
    if CanPrepare(bound, s, i) {
      assert Decodes(Intent(i));
      assert StatusOf(s, i, PREPARED);
      forall st | StatusOf(s, i, st) ensures st == PREPARED {
        hide StatusOf;
        StatusUnique(s, i, st, PREPARED);
      }
    }
  }

  /** Everything that happens before a credential is read: the intent is loaded and still prepared. */
  method Preflight(session: Session, i: IntentRecord, inv: Invocation) returns (intent: Option<VerifiedIntent>)
    requires session.bound.Valid()
    modifies session.bound
    ensures session.bound.Valid() && Later(old(session.bound.log), session.bound.log)
    ensures intent.Some? ==>
              && session.IntentValidFor(intent.value) && session.Loaded(intent.value)
              && intent.value.record == i && IntentMatchesInvocation(i, inv)
    ensures session.bound.exclusive ==> session.bound.records == old(session.bound.records)
    ensures session.bound.exclusive && intent.Some? ==> exists st :: StatusOf(session.bound.records, i, st) && st.state.Prepared?
    ensures intent.Some? ==> Invokes(inv, i)
    ensures session.bound.exclusive && Calm(old(session.bound.log), session.bound.log) && !session.closed ==>
              (Invokes(inv, i) && CanPrepare(session.bound, session.bound.records, i) ==> intent.Some?)
  {
    hide *;
    LaterAlways();
    InvokesIs(inv, i);
    AnyInconclusive();
    PreparedOnly(session.bound, session.bound.records, i);
    var loaded, err := session.LoadIntent(i);
    if err.Some? { return None; }
    if !IntentMatchesInvocation(i, inv) { return None; }
    ghost var before := session.bound.log;
    LoadedMeans(session, loaded.value);
    var report, _, _, statusErr := session.Status(i, Api);
    if statusErr.Some? || !report.value.state.Prepared? { return None; }
    KeepsLoaded(session, before, loaded.value);
    return loaded;
  }

  /** The outcome a submission of this intent stores: built from its own receipt, linked to its chain. */
  ghost predicate OwnOutcome(i: IntentRecord, o: OutcomeRecord) {
    o == OutcomeFor(i, o.receipt) && Linked(o, i)
  }

  lemma StillLoaded(p: Log, q: Log, i: IntentRecord)
    requires LegalLog(q.actions) && Later(p, q)
    ensures i in Replay(p.actions).verified ==> i in Replay(q.actions).verified
  {
    Grows(p.actions, q.actions);
  }

  lemma LoadedMeans(session: Session, intent: VerifiedIntent)
    ensures session.Loaded(intent) <==>
              (intent.authority != null && intent.authority.session == session ==>
                 intent.authority.intent in Replay(session.bound.log.actions).verified)
  {
  }

  /** What an authority loaded at `p` stands for stays known. */
  lemma KeepsLoaded(session: Session, p: Log, intent: VerifiedIntent)
    requires session.bound.Valid() && Later(p, session.bound.log)
    requires intent.authority != null && intent.authority.session == session ==> intent.authority.intent in Replay(p.actions).verified
    ensures session.Loaded(intent)
  {
    if intent.authority != null && intent.authority.session == session {
      StillLoaded(p, session.bound.log, intent.authority.intent);
    }
  }

  lemma SubmissionStays(p: Log, q: Log, i: IntentRecord, o: OutcomeRecord)
    requires LegalLog(q.actions) && Later(p, q)
    ensures OwnSubmission(Replay(p.actions), i, o) ==> OwnSubmission(Replay(q.actions), i, o)
  {
    hide OutcomeFor;
    Grows(p.actions, q.actions);
    var v, w := Replay(p.actions), Replay(q.actions);
    if OwnSubmission(v, i, o) {
      var g :| 0 <= g < |v.grants| && SubmittedBy(v, g, i, o);
      var k :| 0 <= k < |v.posts| && v.posts[k] == g;
      assert w.posts[k] == g;
      assert SubmittedBy(w, g, i, o);
    }
  }

  /** The authority that posted is the one whose outcome is stored. */
  lemma SubmissionStored(bound: Bound, posted: Log, g: nat, i: IntentRecord, observed: Option<Observation>, o: OutcomeRecord)
    requires bound.Valid() && Later(posted, bound.log) && g in Replay(posted.actions).posts
    requires bound.pc == Done(OutcomeStored(o)) && observed.Some? && o == OutcomeFor(i, observed.value.receipt)
    requires g < |bound.Now().grants| && bound.Now().grants[g] == Reservation(i, observed)
    ensures OwnSubmission(bound.Now(), i, o)
  {
    hide OutcomeFor, Replay, LegalLog, Ranked;
    Grows(posted.actions, bound.log.actions);
    LogKnows(bound.log.actions);
    var k :| 0 <= k < |Replay(posted.actions).posts| && Replay(posted.actions).posts[k] == g;
    assert bound.Now().posts[k] == g;
    assert SubmittedBy(bound.Now(), g, i, o);
  }

  /** An answered status is in the journal. */
  lemma StatusReplied(bound: Bound, i: IntentRecord, v: Verdict, o: Option<OutcomeRecord>)
    requires bound.Valid() && bound.pc == StatusExit(i, Api, v, o)
    ensures Reply(i, v, o) in bound.Now().replies
  {
    hide Replay, LegalLog, Ranked;
    LogKnows(bound.log.actions);
  }

  /** The result belongs to the intent, and nothing in the store or the limits stands against storing it. */
  ghost predicate CanStore(bound: Bound, s: set<Record>, i: IntentRecord, result: SiteResult) {
    var o := OutcomeFor(i, result.exchange);
    && ValidReceipt(result.exchange) && OneSubmission(i, result) && Session.StoresResult(o, i, result.exchange)
    && ValidIntent(i) && ChainFits(bound, s, i, o) && Outcome(o) !in s
  }

  lemma ResultIs(bound: Bound, s: set<Record>, i: IntentRecord, result: SiteResult)
    ensures ValidObservation(i, result.observed, result.exchange, result.requests) ==> OneSubmission(i, result)
    ensures CanStore(bound, s, i, result) ==>
              && ValidObservation(i, result.observed, result.exchange, result.requests)
              && Session.Observes(result.observed, result.exchange, i)
              && Linked(OutcomeFor(i, result.exchange), i)
              && ChainFits(bound, s, i, OutcomeFor(i, result.exchange)) && Outcome(OutcomeFor(i, result.exchange)) !in s
  {
    hide ChainFits, SafeText, ValidRouteId, ValidSha256Id, UtcTime;
    if CanStore(bound, s, i, result) { ValidChain(i); }
  }

  /** The one submission of an acquired attempt and the publication of its result. */
  method SubmitAndStore(session: Session, site: Site, intent: VerifiedIntent, reserved: ReservedAttempt)
    returns (report: SubmitReport, submitFailed: bool)
    requires session.bound.Valid() && session.AttemptValidFor(reserved, intent) && reserved.authority.bound == None
    requires session.Granted(reserved) && reserved.authority.grant == |session.bound.Now().grants| - 1
    requires session.bound.pc == Acquired(intent.record)
    modifies session.bound, site, reserved.authority
    ensures session.bound.Valid() && Later(old(session.bound.log), session.bound.log)
    ensures site.submissions == old(site.submissions) + 1
    ensures report.acquired && report.final.None?
    ensures report.durable ==> report.stored.Some?
    ensures report.stored.Some? ==> OwnOutcome(intent.record, report.stored.value)
    ensures report.durable ==> OwnSubmission(session.bound.Now(), intent.record, report.stored.value)
    ensures session.bound.exclusive ==>
              || session.bound.records == old(session.bound.records)
              || (report.stored.Some? && session.bound.records == old(session.bound.records) + {Outcome(report.stored.value)})
    ensures session.bound.exclusive && report.durable ==>
              && session.bound.records == old(session.bound.records) + {Outcome(report.stored.value)}
              && Outcome(report.stored.value) !in old(session.bound.records)
              && Intent(intent.record) in old(session.bound.records) && Marker(intent.record) in old(session.bound.records)
    ensures site.result.Some? && site.review == old(site.review)
    ensures if submitFailed then site.faults > old(site.faults) else site.faults == old(site.faults)
    ensures report.stored.Some? ==>
              && OneSubmission(intent.record, site.result.value)
              && Session.StoresResult(report.stored.value, intent.record, site.result.value.exchange)
    ensures session.bound.exclusive && Calm(old(session.bound.log), session.bound.log) ==>
              (CanStore(session.bound, old(session.bound.records), intent.record, site.result.value) ==> report.durable)
  {
    hide *;
    report, submitFailed := SubmitReport(true, None, false, None), false;
    SubmitWants(intent.record);
    LaterAlways();
    AuthorityIs(session, intent, reserved);
    ghost var grant := reserved.authority.grant;
    ghost var v := session.bound.Now();
    PlaceIs(session.bound);
    GrantIs(session, reserved);
    var observed, exchange, requests, failed := site.SubmitFresh(session.bound);
    Posting(v, grant);
    GrantIs(session, reserved);
    PlaceIs(session.bound);
    ghost var posted := session.bound.log;
    submitFailed := failed;
    ResultIs(session.bound, old(session.bound.records), intent.record, site.result.value);
    if !ValidObservation(intent.record, observed, exchange, requests) { return; }
    Observed(intent.record, observed, exchange, requests);
    var outcome, receipt, err := session.StoreOutcome(intent, reserved, observed, exchange);
    StoredLinked(intent.record, exchange, outcome);
    GrantIs(session, reserved);
    StoredEffect(old(session.bound.records), session.bound.records, intent.record, outcome, receipt, err);
    if err.None? { SubmissionStored(session.bound, posted, grant, intent.record, observed, outcome.value); }
    report := report.(stored := outcome, durable := err.None? && receipt.durable);
  }

  lemma SubmitWants(i: IntentRecord)
    ensures Want(Acquired(i)) == SubmitOp
  {
  }

  /** The post belongs to the last authority. */
  lemma Posting(v: View, g: nat)
    requires v.pc.Acquired? && g == |v.grants| - 1
    ensures var w := AfterDid(v, Submitted); w.grants == v.grants && w.posts == v.posts + [g] && g in w.posts
  {
    assert (v.posts + [g])[|v.posts|] == g;
  }

  lemma Observed(i: IntentRecord, observed: Option<Observation>, exchange: ExchangeReceipt, requests: nat)
    requires ValidObservation(i, observed, exchange, requests)
    ensures observed.Some? && observed.value.receipt == exchange && Session.Observes(observed, exchange, i)
  {
    hide ObservationMatches;
  }

  lemma AuthorityIs(session: Session, intent: VerifiedIntent, reserved: ReservedAttempt)
    requires session.AttemptValidFor(reserved, intent)
    ensures !session.closed && reserved.authority != null && reserved.authority.session == session
    ensures reserved.authority.intent.intent == intent.record
  {
    hide AttemptMatchesIntent, ValidIntent, ValidAttempt;
  }

  lemma GrantIs(session: Session, reserved: ReservedAttempt)
    requires reserved.authority != null && reserved.authority.session == session
    ensures var grants := session.bound.Now().grants; var a := reserved.authority;
            session.Granted(reserved) <==> a.grant < |grants| && grants[a.grant] == Reservation(a.intent.intent, a.bound)
  {
    hide Replay;
  }

  lemma PlaceIs(bound: Bound)
    requires bound.Valid()
    ensures bound.Now().pc == bound.pc && bound.Now() == Replay(bound.log.actions)
  {
    hide Replay, LegalLog;
  }

  lemma StoredEffect(s: set<Record>, s': set<Record>, i: IntentRecord, o: Option<OutcomeRecord>, receipt: OutcomeReceipt, err: Option<Err>)
    ensures o.Some? && OutcomeEffect(s, s', i, o.value, receipt, err) ==>
              && (s' == s || s' == s + {Outcome(o.value)})
              && (err.None? && receipt.writes == 1 ==>
                    s' == s + {Outcome(o.value)} && Outcome(o.value) !in s && Intent(i) in s && Marker(i) in s)
              && (err.None? && Outcome(o.value) !in s ==> receipt.writes == 1)
  {
    hide OutcomeFor, AttemptFromIntent;
  }

  lemma StoredLinked(i: IntentRecord, exchange: ExchangeReceipt, outcome: Option<OutcomeRecord>)
    requires outcome.Some? ==> outcome == Some(OutcomeFor(i, exchange)) && Linked(outcome.value, i)
    ensures outcome.Some? ==> outcome.value.receipt == exchange && OwnOutcome(i, outcome.value)
  {
    hide OutcomeMatches;
  }

  /** The last look: the status future callers will see, the store's identity, the close. */
  method Finalize(session: Session, i: IntentRecord) returns (final: Option<StatusReport>, closed: bool)
    requires session.bound.Valid()
    modifies session, session.bound
    ensures session.bound.Valid() && Later(old(session.bound.log), session.bound.log)
    ensures session.closed
    ensures final.Some? ==> Shaped(i, final.value)
    ensures final.Some? ==> Reply(i, final.value.state, final.value.outcome) in session.bound.Now().replies
    ensures session.bound.exclusive ==> session.bound.records == old(session.bound.records)
    ensures session.bound.exclusive && final.Some? ==> StatusOf(session.bound.records, i, final.value)
    ensures session.bound.exclusive && Calm(old(session.bound.log), session.bound.log) && !old(session.closed) ==>
              closed && (CanInspect(session.bound, session.bound.records, i) ==> final.Some?)
  {
    LaterAlways();
    hide StatusOf, Shaped, WellFormed, StatusExit, Later, Replay, LegalLog, CanInspect, Calm, Settled, Tells;
    var report, _, _, err := session.Status(i, Api);
    if err.None? { StatusReplied(session.bound, i, report.value.state, report.value.outcome); }
    var checked := session.bound.Recheck();
    session.closed := true;
    var closing := session.bound.Fails();
    closed := !closing;
    final := if err.None? && checked then report else None;
  }

  /** In a store with one linked outcome of the operation, a confirmed status is about that outcome. */
  lemma ConfirmedIsOwn(s: set<Record>, i: IntentRecord, o: OutcomeRecord, st: StatusReport)
    requires StatusOf(s, i, st) && Shaped(i, st) && st.state.Confirmed?
    requires Outcome(o) in s && OwnOutcome(i, o)
    ensures st.outcome == Some(o) && o.receipt.outcome == OUTCOME_CONFIRMED
  {
    hide Selected, ValidIntent, OutcomeMatches, ValidRetention;
  }

  /** What a submit that reports success has done to a store nobody else touched. */
  ghost predicate SubmitEffect(s: set<Record>, s': set<Record>, i: IntentRecord, o: OutcomeRecord) {
    && Intent(i) in s && Marker(i) !in s && NoOutcome(s, i)
    && s' == s + {Marker(i), Outcome(o)}
    && o.receipt.outcome == OUTCOME_CONFIRMED
  }

  /** Everything before the reservation: the intent, the credentials and the site session, the fresh review. */
  method Approach(session: Session, site: Site, i: IntentRecord, inv: Invocation)
    returns (intent: Option<VerifiedIntent>, review: Option<Review>)
    requires session.bound.Valid()
    modifies session.bound, site
    ensures session.bound.Valid() && Later(old(session.bound.log), session.bound.log)
    ensures site.submissions == old(site.submissions) && old(site.faults) <= site.faults
    ensures intent.Some? ==>
              && session.IntentValidFor(intent.value) && session.Loaded(intent.value) && intent.value.record == i
              && Invokes(inv, i) && site.review == review && review.Some? && Reproduces(review.value, i)
    ensures session.bound.exclusive ==> session.bound.records == old(session.bound.records)
    ensures session.bound.exclusive && Calm(old(session.bound.log), session.bound.log) && !session.closed && site.faults == old(site.faults) ==>
              (Invokes(inv, i) && CanPrepare(session.bound, session.bound.records, i) && Shows(site, i) ==> intent.Some?)
  {
    LaterAlways();
    hide IntentMatchesInvocation, Invokes, CanPrepare, StatusOf, FreshReviewMatchesIntent, Reproduces, Later, Calm, Replay, LegalLog, ValidIntent;
    intent := Preflight(session, i, inv);
    review := None;
    if intent.None? { return; }
    var unready := site.Fails();
    if unready { return None, None; }
    var shown, unread := site.ReadFreshReview();
    ReviewedIs(i, shown);
    if unread || !FreshReviewMatchesIntent(i, shown) { return None, shown; }
    review := shown;
  }

  /** The site shows the offer of the intent. */
  ghost predicate Shows(site: Site, i: IntentRecord)
    reads site
  {
    site.review.Some? && Reproduces(site.review.value, i)
  }

  /** The submission of an acquired attempt, its outcome, and the last look. */
  method Complete(session: Session, site: Site, intent: VerifiedIntent, reserved: ReservedAttempt)
    returns (report: SubmitReport, ok: bool)
    requires session.bound.Valid() && session.AttemptValidFor(reserved, intent) && reserved.authority.bound == None
    requires session.Granted(reserved) && reserved.authority.grant == |session.bound.Now().grants| - 1
    requires session.bound.pc == Acquired(intent.record)
    modifies session, session.bound, site, reserved.authority
    ensures session.bound.Valid() && Later(old(session.bound.log), session.bound.log)
    ensures site.submissions == old(site.submissions) + 1 && site.review == old(site.review) && old(site.faults) <= site.faults
    ensures report.acquired && (report.durable ==> report.stored.Some?)
    ensures report.stored.Some? ==> OwnOutcome(intent.record, report.stored.value)
    ensures report.stored.Some? ==>
              && site.result.Some? && OneSubmission(intent.record, site.result.value)
              && Session.StoresResult(report.stored.value, intent.record, site.result.value.exchange)
    ensures ok ==> report.durable && report.final.Some? && report.final.value.state.Confirmed?
    ensures report.final.Some? ==> Shaped(intent.record, report.final.value)
    ensures ok ==> OwnSubmission(session.bound.Now(), intent.record, report.stored.value)
                   && Reply(intent.record, Confirmed, report.final.value.outcome) in session.bound.Now().replies
    ensures session.bound.exclusive ==>
              && (session.bound.records == old(session.bound.records)
                  || (report.stored.Some? && session.bound.records == old(session.bound.records) + {Outcome(report.stored.value)}))
              && (report.durable ==> session.bound.records == old(session.bound.records) + {Outcome(report.stored.value)})
              && (report.final.Some? ==> StatusOf(session.bound.records, intent.record, report.final.value))
    ensures session.bound.exclusive && Calm(old(session.bound.log), session.bound.log) && site.faults == old(site.faults) ==>
              (site.result.Some? && CanConfirm(session.bound, old(session.bound.records), intent.record, site.result.value) ==> ok)
  {
    hide *;
    AuthorityIs(session, intent, reserved);
    LaterAlways();
    var submitFailed;
    report, submitFailed := SubmitAndStore(session, site, intent, reserved);
    CanConfirmIs(session.bound, old(session.bound.records), intent.record, site.result.value);
    StoredIs(intent.record, report.stored, site.result.value.exchange);
    PlaceIs(session.bound);
    var unclosed := site.Fails();
    ghost var stored := session.bound.log;
    var final, closed := Finalize(session, intent.record);
    PlaceIs(session.bound);
    LogLegal(session.bound);
    if report.durable { SubmissionStays(stored, session.bound.log, intent.record, report.stored.value); }
    report := report.(final := final);
    ok := report.durable && final.Some? && !unclosed && closed && !submitFailed && final.value.state.Confirmed?;
  }

  lemma StoredIs(i: IntentRecord, stored: Option<OutcomeRecord>, exchange: ExchangeReceipt)
    ensures stored.Some? && OwnOutcome(i, stored.value) && Session.StoresResult(stored.value, i, exchange) ==>
              stored.value == OutcomeFor(i, exchange)
  {
    hide Linked, OutcomeFor;
  }

  /** The result can be stored and says that the exchange is confirmed, and the status read afterwards will say so. */
  ghost predicate CanConfirm(bound: Bound, s: set<Record>, i: IntentRecord, result: SiteResult) {
    var o := OutcomeFor(i, result.exchange);
    && CanStore(bound, s, i, result) && result.exchange.outcome == "confirmed"
    && CanInspect(bound, s + {Outcome(o)}, i)
    && forall st :: StatusOf(s + {Outcome(o)}, i, st) ==> st == TerminalReport(i, o)
  }

  lemma CanConfirmIs(bound: Bound, s: set<Record>, i: IntentRecord, result: SiteResult)
    ensures CanConfirm(bound, s, i, result) ==>
              var o := OutcomeFor(i, result.exchange);
              && CanStore(bound, s, i, result) && CanInspect(bound, s + {Outcome(o)}, i)
              && forall st :: StatusOf(s + {Outcome(o)}, i, st) ==> st.state.Confirmed?
  {
    hide CanStore, CanInspect, StatusOf;
  }

  /** Nothing in the store or the limits stands against the whole command, given the site's result. */
  ghost predicate CanSubmit(bound: Bound, s: set<Record>, i: IntentRecord, result: SiteResult) {
    && CanPrepare(bound, s, i) && CanStore(bound, s + {Marker(i)}, i, result) && result.exchange.outcome == "confirmed"
    && StatusRoom(bound, s + {Marker(i), Outcome(OutcomeFor(i, result.exchange))})
  }

  /** From a prepared store the marker and an outcome lead to the outcome's status. */
  lemma ConfirmsStatus(bound: Bound, s: set<Record>, i: IntentRecord, o: OutcomeRecord)
    requires CanPrepare(bound, s, i) && Linked(o, i) && !bound.TooBig(Outcome(o)) && StatusRoom(bound, s + {Marker(i), Outcome(o)})
    ensures var s' := s + {Marker(i)} + {Outcome(o)};
            CanInspect(bound, s', i) && forall st :: StatusOf(s', i, st) ==> st == TerminalReport(i, o)
  {
    hide Linked, StatusRoom, WellFormed, StatusOf, NoOutcome, Selected, ValidIntent, TerminalReport;
    PreparedOnly(bound, s, i);
    ConfirmedStore(s, i, o);
    var s' := s + {Marker(i)} + {Outcome(o)};
    assert s' == s + {Marker(i), Outcome(o)};
    forall st | StatusOf(s', i, st) ensures st == TerminalReport(i, o) {
      StatusUnique(s', i, st, TerminalReport(i, o));
    }
  }

  lemma Confirms(bound: Bound, s: set<Record>, i: IntentRecord, result: SiteResult)
    requires CanSubmit(bound, s, i, result)
    ensures CanConfirm(bound, s + {Marker(i)}, i, result)
  {
    hide CanPrepare, CanStore, CanInspect, StatusRoom, OutcomeFor, Linked, TerminalReport, StatusOf, ChainFits, OneSubmission;
    var o := OutcomeFor(i, result.exchange);
    ResultIs(bound, s + {Marker(i)}, i, result);
    FitsItself(bound, s + {Marker(i)}, i, o);
    ConfirmsStatus(bound, s, i, o);
  }

  lemma ConfirmedStore(s: set<Record>, i: IntentRecord, o: OutcomeRecord)
    requires Reservable(s, i) && ValidIntent(i) && Linked(o, i)
    requires Selected(s, StatusForget(i, Api), None) && Selected(s, StatusRetention(i, Api), None)
    ensures var s' := s + {Marker(i)} + {Outcome(o)}; WellFormed(s') && StatusOf(s', i, TerminalReport(i, o))
  {
    hide ValidIntent, ValidReceipt, ValidAttempt, AttemptFromIntent, StateFromOutcome;
    MarkerDecodes(i);
    LinkedDecodes(o, i);
    var s' := s + {Marker(i)} + {Outcome(o)};
    assert TheOutcome(s', i, o) by { LinkedNamesOperation(o, i); hide Linked; }
  }

  lemma LinkedDecodes(o: OutcomeRecord, i: IntentRecord)
    requires Linked(o, i)
    ensures Decodes(Outcome(o))
  {
    hide AttemptMatchesIntent, ValidReceipt;
  }

  lemma LinkedNamesOperation(o: OutcomeRecord, i: IntentRecord)
    requires Linked(o, i)
    ensures o.operationId == i.operationId
  {
    hide AttemptMatchesIntent, ValidOutcome;
  }

  /**
    The command.  A submission needs an acquired marker, and there is at most one.  Success means:
    this invocation acquired the marker, submitted once, stored the outcome with its own receipt
    durably, and the status read afterwards is confirmed.
   */
  method Submit(session: Session, site: Site, i: IntentRecord, inv: Invocation) returns (report: SubmitReport, ok: bool)
    requires session.bound.Valid()
    modifies session, session.bound, site
    ensures session.bound.Valid() && Later(old(session.bound.log), session.bound.log)
    ensures site.submissions <= old(site.submissions) + 1
    ensures site.submissions == old(site.submissions) + 1 <==> report.acquired
    ensures report.stored.Some? ==> report.acquired && OwnOutcome(i, report.stored.value)
    ensures ok ==> report.acquired && report.durable && report.stored.Some?
    ensures ok ==> report.final.Some? && Shaped(i, report.final.value) && report.final.value.state.Confirmed?
    // whatever other sessions do: what Refinement.SubmitConfirmed is about
    ensures ok ==> OwnSubmission(session.bound.Now(), i, report.stored.value)
                   && Reply(i, Confirmed, report.final.value.outcome) in session.bound.Now().replies
    ensures session.bound.exclusive && Marker(i) in old(session.bound.records) ==> !report.acquired
    ensures session.bound.exclusive && report.acquired ==> Marker(i) in session.bound.records
    ensures session.bound.exclusive && ok ==>
              SubmitEffect(old(session.bound.records), session.bound.records, i, report.stored.value)
    // the offer that was submitted is the one of the intent and of the invocation, and what is stored is the site's result
    ensures report.acquired ==> Shows(site, i) && Invokes(inv, i)
    ensures report.stored.Some? ==>
              site.result.Some? && OneSubmission(i, site.result.value) && Session.StoresResult(report.stored.value, i, site.result.value.exchange)
    // a prepared operation is submitted, and a confirmed submission succeeds
    ensures session.bound.exclusive && Calm(old(session.bound.log), session.bound.log) && site.faults == old(site.faults) && !old(session.closed) ==>
              && (Invokes(inv, i) && CanPrepare(session.bound, old(session.bound.records), i) && Shows(site, i) ==> report.acquired)
              && (report.acquired && site.result.Some? && CanSubmit(session.bound, old(session.bound.records), i, site.result.value) ==> ok)
  {
    hide StatusOf, Shaped, ValidIntent, ReserveEffect, OwnOutcome, WellFormed, FreshReviewMatchesIntent, Reproduces, Invokes,
         AttemptMatchesIntent, SubmitEffect, ValidAttempt, OwnSubmission, Later, Calm, Replay, LegalLog, CanPrepare, CanReserve,
         CanSubmit, CanConfirm, OneSubmission;
    LaterAlways();
    PreparedOnly(session.bound, session.bound.records, i);
    report, ok := SubmitReport(false, None, false, None), false;
    var intent, review := Approach(session, site, i, inv);
    if intent.None? { session.closed := true; return; }
    var reserved, receipt, reserveErr := session.ReserveAttempt(intent.value, review);
    if reserveErr.Some? {
      var _, _ := Finalize(session, i);
      return;
    }
    ghost var s1 := session.bound.records;
    report, ok := Complete(session, site, intent.value, reserved.value);
    if session.bound.exclusive {
      Submits(session.bound, old(session.bound.records), s1, session.bound.records, i, report, ok, site.result);
    }
  }

  /** What the reservation and the rest make of the command, when nobody else acts. */
  lemma Submits(bound: Bound, s: set<Record>, s1: set<Record>, s2: set<Record>, i: IntentRecord, report: SubmitReport, ok: bool,
                result: Option<SiteResult>)
    requires ReserveEffect(s, s1, i, None)
    requires s2 == s1 || (report.stored.Some? && s2 == s1 + {Outcome(report.stored.value)})
    requires report.durable ==> report.stored.Some? && OwnOutcome(i, report.stored.value) && s2 == s1 + {Outcome(report.stored.value)}
    requires report.final.Some? ==> StatusOf(s2, i, report.final.value) && Shaped(i, report.final.value)
    ensures Marker(i) in s2 && Marker(i) !in s
    ensures report.durable && report.final.Some? && report.final.value.state.Confirmed? ==> SubmitEffect(s, s2, i, report.stored.value)
    ensures result.Some? && CanSubmit(bound, s, i, result.value) ==> CanConfirm(bound, s1, i, result.value)
  {
    hide OwnOutcome, StatusOf, Shaped, CanConfirm, CanPrepare, CanStore, NoOutcome;
    SubmitLeaves(s, s1, s2, i, report);
    if result.Some? && CanSubmit(bound, s, i, result.value) {
      assert s1 == s + {Marker(i)};
      Confirms(bound, s, i, result.value);
    }
  }

  lemma SubmitLeaves(s: set<Record>, s1: set<Record>, s2: set<Record>, i: IntentRecord, report: SubmitReport)
    requires ReserveEffect(s, s1, i, None)
    requires s2 == s1 || (report.stored.Some? && s2 == s1 + {Outcome(report.stored.value)})
    requires report.durable ==> report.stored.Some? && OwnOutcome(i, report.stored.value) && s2 == s1 + {Outcome(report.stored.value)}
    requires report.final.Some? ==> StatusOf(s2, i, report.final.value) && Shaped(i, report.final.value)
    ensures Marker(i) in s2 && Marker(i) !in s
    ensures report.durable && report.final.Some? && report.final.value.state.Confirmed? ==> SubmitEffect(s, s2, i, report.stored.value)
  {
    hide OwnOutcome, StatusOf, Shaped, NoOutcome;
    if report.durable && report.final.Some? && report.final.value.state.Confirmed? {
      ConfirmedIsOwn(s2, i, report.stored.value, report.final.value);
      assert s + {Marker(i)} + {Outcome(report.stored.value)} == s + {Marker(i), Outcome(report.stored.value)};
    }
  }

  /**
    What success means among other sessions.  However the others act, as long as the stores were the
    ones this session's journal saw: the confirmed status that the command read is about its own
    outcome, that outcome's receipt is confirmed, and the only form post ever made for the intent is
    the one this session's reservation made.
   */
  lemma SubmitMeans(session: Session, before: seq<Protocol.World>, run: seq<Protocol.World>, sid: nat,
                    moves: seq<Refinement.Move>, ties: seq<Refinement.Tie>,
                    i: IntentRecord, o: OutcomeRecord, final: Option<OutcomeRecord>)
    requires session.bound.Valid() && Refinement.OwnActions(moves) == session.bound.log.actions
    requires OwnSubmission(session.bound.Now(), i, o) && Reply(i, Confirmed, final) in session.bound.Now().replies
    requires Protocol.IsRun(before) && |run| == |ties| == |moves| + 1
    requires Refinement.Played(run, sid, moves, ties) && before[|before| - 1] == run[0]
    ensures final == Some(o) && o.receipt.outcome == OUTCOME_CONFIRMED
    ensures exists g :: Refinement.Submission(run[|moves|], sid, g, i, o)
  {
    PlaceIs(session.bound);
    LogLegal(session.bound);
    hide *;
    Refinement.SubmitConfirmed(before, run, sid, moves, ties, i, o, final);
  }

  lemma LogLegal(bound: Bound)
    requires bound.Valid()
    ensures LegalLog(bound.log.actions)
  {
    hide LegalLog, Replay, Ranked;
  }
}
