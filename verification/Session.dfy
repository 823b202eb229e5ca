/**
  The session methods of internal/bonusexchange/repository.go and retention.go.

  Each method performs, on its bound store, exactly the operations of its protocol program, in
  that order and with that reaction to every response.  The contracts under `exclusive` say what
  the method does to the store when no other session acts in between.  For the interleaved case
  every method extends the journal of its bound store legally, and Refinement turns a journal into
  a run.
 */
module Session {
  import opened Basics
  import opened Records
  import opened Program
  import opened Journal
  import opened Metastore
  import opened Budget
  import opened Scripts
  import opened Sequential

  /** Process-local proof that an intent was loaded by an open session; never serialized. */
  class IntentAuthority {
    const session: Session
    const intent: IntentRecord
    constructor (session: Session, intent: IntentRecord)
      ensures this.session == session && this.intent == intent
    {
      this.session, this.intent := session, intent;
    }
  }

  /** A loaded intent; a deserialized copy has no authority. */
  datatype VerifiedIntent = VerifiedIntent(record: IntentRecord, ref: RecordRef, authority: IntentAuthority?)

  class AttemptAuthority {
    const session: Session
    const intent: IntentAuthority
    ghost const grant: nat              // its place among the authorities of its session
    var bound: Option<Observation>
    constructor (session: Session, intent: IntentAuthority, ghost grant: nat)
      ensures this.session == session && this.intent == intent && this.grant == grant && bound == None
    {
      this.session, this.intent, this.grant := session, intent, grant;
      bound := None;
    }

    /** The first observation binds the authority; afterwards only the same one is accepted. */
    method BindOutcome(observed: Observation) returns (ok: bool)
      modifies this`bound
      ensures ok <==> old(bound) == None || old(bound) == Some(observed)
      ensures bound == if ok then Some(observed) else old(bound)
    {
      if bound == None {
        bound := Some(observed);
        return true;
      }
      return bound == Some(observed);
    }
  }

  /** Submission authority: exists only in the process whose reservation published the marker. */
  datatype ReservedAttempt = ReservedAttempt(record: AttemptRecord, ref: RecordRef, authority: AttemptAuthority?)

  /** The fresh review a site session read just before the reservation. */
  datatype Review = Review(
    siteId: string, selector: string, origin: string, routeId: string, limits: ReviewLimits, reviewId: string,
    availability: string, inputMode: string, actionMethod: string, actionRouteId: string)

  predicate FreshReviewMatchesIntent(i: IntentRecord, review: Option<Review>) {
    && review.Some?
    && var r := review.value;
    && r.siteId == i.siteId && r.selector == i.selector && r.origin == i.origin && r.routeId == i.reviewRouteId
    && r.limits == i.reviewLimits
    && r.reviewId == i.expectedReviewId
    && r.availability == "available"
    && r.inputMode == INPUT_NONE
    && r.actionMethod == "post"
    && r.actionRouteId == i.actionRouteId
  }

  /** The review shows the offer of the intent, available, to be accepted by one form post. */
  ghost predicate Reproduces(review: Review, i: IntentRecord) {
    && review.reviewId == i.expectedReviewId
    && review.siteId == i.siteId
    && review.selector == i.selector
    && review.origin == i.origin
    && review.routeId == i.reviewRouteId
    && review.actionRouteId == i.actionRouteId
    && review.limits == i.reviewLimits
    && review.availability == "available" && review.inputMode == "none" && review.actionMethod == "post"
  }

  lemma ReviewedIs(i: IntentRecord, review: Option<Review>)
    ensures FreshReviewMatchesIntent(i, review) <==> review.Some? && Reproduces(review.value, i)
  {
  }

  /** The limits hold what a reservation reads, the marker it publishes included. */
  ghost predicate ReserveRoom(bound: Bound, s: set<Record>, i: IntentRecord) {
    Small(bound, s) && Room(bound, s + {Marker(i)}, OutcomeKind, 0)
  }

  /** Nothing in the store or the limits stands against a reservation. */
  ghost predicate CanReserve(bound: Bound, s: set<Record>, i: IntentRecord) {
    Reservable(s, i) && ReserveRoom(bound, s, i) && !bound.TooBig(Marker(i))
  }

  lemma CanReserveIs(bound: Bound, s: set<Record>, i: IntentRecord)
    ensures CanReserve(bound, s, i) ==> Reservable(s, i) && ReserveRoom(bound, s, i) && !bound.TooBig(Marker(i))
  {
    hide Reservable, ReserveRoom;
  }

  /** The chain is there, and the limits hold it and the outcome. */
  ghost predicate ChainFits(bound: Bound, s: set<Record>, i: IntentRecord, o: OutcomeRecord) {
    && Intent(i) in s && Marker(i) in s
    && !bound.TooBig(Intent(i)) && !bound.TooBig(Marker(i)) && !bound.TooBig(Outcome(o))
  }

  lemma ChainLooks(bound: Bound, s: set<Record>, i: IntentRecord, o: OutcomeRecord)
    ensures ChainFits(bound, s, i, o) ==> forall r :: r in OutcomeSet(i, o) ==> r in s + {Outcome(o)} && !bound.TooBig(r)
  {
    OutcomeSetIs(i, o);
  }

  lemma FitsItself(bound: Bound, s: set<Record>, i: IntentRecord, o: OutcomeRecord)
    ensures ChainFits(bound, s, i, o) ==> !bound.TooBig(Outcome(o))
  {
  }

  /** The operation has a status, and the limits hold what finding it reads. */
  ghost predicate CanInspect(bound: Bound, s: set<Record>, i: IntentRecord) {
    WellFormed(s) && (exists st :: StatusOf(s, i, st)) && Small(bound, s) && StatusRoom(bound, s) && !bound.TooBig(Marker(i))
  }

  lemma StatusFits(bound: Bound, s: set<Record>, i: IntentRecord)
    ensures StatusRoom(bound, s) ==> ScanRoom(bound, s) && Room(bound, s, OutcomeKind, 0)
    ensures CanInspect(bound, s, i) ==>
              && WellFormed(s) && Small(bound, s) && StatusRoom(bound, s) && !bound.TooBig(Marker(i)) && !Nowhere(s, i)
              && !Undecided(s, i)
  {
    hide StatusOf, WellFormed, RoomTwice, Room;
    if st :| CanInspect(bound, s, i) && StatusOf(s, i, st) { StatusSomewhere(s, i, st); }
  }

  /** A prune of the operation has this tombstone to publish or to resume from, and the limits hold what it reads and writes. */
  ghost predicate CanPrune(bound: Bound, s: set<Record>, i: IntentRecord, op: string, r: RetentionRecord) {
    && WellFormed(s) && Prunable(s, i, op, r)
    && Small(bound, s) && StatusRoom(bound, s) && !bound.TooBig(Marker(i)) && !bound.TooBig(Retention(r))
  }

  lemma PruneCompletes(bound: Bound, s: set<Record>, i: IntentRecord, op: string, r: RetentionRecord)
    requires CanPrune(bound, s, i, op, r)
    ensures (forall why :: !PruneRefused(s, i, op, why)) && Small(bound, s) && StatusRoom(bound, s) && !bound.TooBig(Marker(i)) && !bound.TooBig(Retention(r))
    ensures forall t :: Prunable(s, i, op, t) ==> t == r
    ensures forall s', receipt :: PruneEffect(s, s', i, op, receipt, None) ==> s' == PruneStage(s, r, 3)
  {
    hide Prunable, WellFormed, StatusRoom, PruneStage, PruneRefused;
    PruneRefusals(s, i, op);
    forall t | Prunable(s, i, op, t) ensures t == r { PrunableUnique(s, i, op, r, t); }
  }

  /** A forget of the tombstone can start or resume, and the limits hold what it reads and writes. */
  ghost predicate CanForget(bound: Bound, s: set<Record>, r: RetentionRecord, op: string) {
    && WellFormed(s) && Forgettable(s, r, op)
    && Small(bound, s) && RoomTwice(bound, s, ForgetKind, 0) && !bound.TooBig(Record.Forget(ForgetFor(r)))
  }

  lemma ForgetCompletesIf(bound: Bound, s: set<Record>, r: RetentionRecord, op: string)
    ensures CanForget(bound, s, r, op) ==>
              && (forall why :: !ForgetRefused(s, r, op, why)) && Small(bound, s) && RoomTwice(bound, s, ForgetKind, 0)
              && !bound.TooBig(Record.Forget(ForgetFor(r)))
              && forall s', receipt :: ForgetEffect(s, s', r, op, receipt, None) ==> s' == ForgetStage(s, r, 2)
  {
    hide Forgettable, WellFormed, ForgetStage, ForgetRefused;
    ForgetRefusals(s, r, op);
  }

  lemma ReserveFits(bound: Bound, s: set<Record>, i: IntentRecord)
    ensures ReserveRoom(bound, s, i) ==>
              Room(bound, s + {Marker(i)}, OutcomeKind, 0) && (!bound.TooBig(Marker(i)) ==> Small(bound, s + {Marker(i)}))
    ensures ReserveRoom(bound, s, i) && Intent(i) in s ==> !bound.TooBig(Intent(i))
  {
    hide Room;
  }

  datatype ReserveReceipt = ReserveReceipt(writes: nat, alreadyPresent: bool, acquired: bool)

  class Session {
    const bound: Bound
    var closed: bool

    constructor (bound: Bound)
      ensures this.bound == bound && !closed
    {
      this.bound := bound;
      closed := false;
    }

    predicate IntentValidFor(intent: VerifiedIntent)
      reads this
    {
      && intent.authority != null
      && ValidIntent(intent.record)
      && intent.ref == IntentRef(intent.record)
      && intent.record == intent.authority.intent
      && intent.authority.session == this
      && !closed
    }

    predicate AttemptValidFor(attempt: ReservedAttempt, intent: VerifiedIntent)
      reads this
    {
      && attempt.authority != null
      && ValidAttempt(attempt.record)
      && IntentValidFor(intent)
      && attempt.ref == Ref(Attempt(attempt.record))
      && attempt.authority.session == this
      && attempt.authority.intent == intent.authority
      && AttemptMatchesIntent(attempt.record, intent.record, intent.ref)
    }

    /** An authority of this session is one that LoadIntent made: nothing else can make one. */
    ghost predicate Loaded(intent: VerifiedIntent)
      reads bound
    {
      intent.authority != null && intent.authority.session == this ==> intent.authority.intent in bound.Now().verified
    }

    /** Likewise for ReserveAttempt, and the journal knows what the authority is bound to. */
    ghost predicate Granted(reserved: ReservedAttempt)
      reads bound, if reserved.authority == null then {} else {reserved.authority}
    {
      reserved.authority != null && reserved.authority.session == this ==>
        && reserved.authority.grant < |bound.Now().grants|
        && bound.Now().grants[reserved.authority.grant] == Reservation(reserved.authority.intent.intent, reserved.authority.bound)
    }

    /** Loads one intent by its record ID and grants session-local authority over it. */
    method LoadIntent(i: IntentRecord) returns (verified: Option<VerifiedIntent>, err: Option<Err>)
      requires bound.Valid()
      modifies bound
      ensures bound.Valid() && Later(old(bound.log), bound.log)
      ensures err.None? <==> verified.Some?
      ensures verified.Some? ==> IntentValidFor(verified.value) && Loaded(verified.value) && verified.value.record == i
      ensures bound.exclusive ==> bound.records == old(bound.records)
      ensures bound.exclusive && err.None? ==> Intent(i) in bound.records
      ensures bound.exclusive && err == Some(RecordNotFound) ==> Intent(i) !in bound.records
      ensures err == Some(Closed) <==> closed
      ensures err == Some(CorruptExchange) ==> !ValidIntent(i)
      ensures err.None? || err == Some(Closed) || err == Some(CorruptExchange) || err == Some(RecordNotFound) || err == Some(Interrupted)
      ensures Calm(old(bound.log), bound.log) && !bound.TooBig(Intent(i)) ==> Settled(err)
    {
      LaterAlways();
      hide ValidIntent, Later;
      if closed { return None, Some(Closed); }
      var resp, bytes := bound.Load(Intent(i));
      match resp {
        case Absent => return None, Some(RecordNotFound);
        case Found =>
          if !ValidIntent(i) { return None, Some(CorruptExchange); }
          bound.Admit(i);
          var authority := new IntentAuthority(this, i);
          return Some(VerifiedIntent(i, IntentRef(i), authority)), None;
        case _ => return None, Some(Interrupted);
      }
    }

    /**
      Loads every listed outcome within the byte budget: skipped, matched, or corrupt on an invalid
      record, a broken link or a second match.
     */
    method MatchOutcomes(i: IntentRecord, ghost start: Pc, listed: seq<Record>)
      returns (found: Option<OutcomeRecord>, bytes: nat, err: Option<Err>)
      requires bound.Valid() && (start.ReserveList? || start.StatusList?) && start.intent == i
      requires bound.pc == ScanPlace(start, listed, None) && forall r :: r in listed ==> r.Outcome?
      modifies bound
      ensures bound.Valid() && Later(old(bound.log), bound.log)
      ensures err.None? ==> bound.pc == ScanPlace(start, [], found) && ScannedSoFar(listed, i, found)
      ensures bytes <= bound.limits.maxStatusBytes
      ensures bound.exclusive ==> bound.records == old(bound.records)
      ensures bound.exclusive && err == Some(CorruptExchange) && Enumerates(listed, bound.records, OutcomeKind) ==>
                (forall m :: !OutcomeScan(bound.records, i, m)) || !WellFormed(bound.records)
      ensures bound.exclusive && Enumerates(listed, bound.records, OutcomeKind) ==> err != Some(RecordNotFound)
      ensures err.None? || err == Some(CorruptExchange) || err == Some(RecordNotFound) || Inconclusive(err.value)
      ensures Calm(old(bound.log), bound.log) && Loadable(bound, listed, 0) ==> Settled(err)
    {
      hide *;
      AnyInconclusive();
      NothingScanned(listed, i);
      LoadFirst(bound, listed);
      LaterAlways();
      found, bytes, err := None, 0, None;
      var n := 0;
      while n < |listed|
        invariant bound.Valid() && Later(old(bound.log), bound.log)
        invariant n <= |listed| && bytes <= bound.limits.maxStatusBytes && bytes == Bytes(listed[..n], bound.sizeOf)
        invariant bound.pc == ScanPlace(start, listed[n..], found)
        invariant bound.exclusive ==> bound.records == old(bound.records)
        invariant ScannedSoFar(listed[..n], i, found)
      {
        var candidate := listed[n];
        LoadNext(bound, listed, n, 0);
        if bound.sizeOf(candidate) > bound.limits.maxStatusBytes - bytes {
          return None, bytes, Some(StatusIncomplete);
        }
        assert listed[n..][0] == candidate && listed[n..][1..] == listed[n + 1..];
        ScanWants(start, listed[n..], found);
        var loaded, size := bound.Look(candidate);
        Looked(bound.seen, candidate, loaded, bound.records);
        bytes := bytes + size;
        if loaded.Absent? {
          ScanListed(bound.records, listed, n, OutcomeKind);
          return None, bytes, Some(RecordNotFound);
        }
        if loaded.Fault? { return None, bytes, Some(Interrupted); }
        assert candidate in listed;
        OutcomeDecodes(candidate);
        var decoded := candidate.outcome;
        if !ValidOutcome(decoded) {
          ScanInvalid(bound.records, listed, n);
          return None, bytes, Some(CorruptExchange);
        }
        ScanGoes(start, listed[n..], found);
        if decoded.operationId == i.operationId {
          if !Linked(decoded, i) || found.Some? {
            ScanCorrupt(bound.records, listed, n, i, found);
            return None, bytes, Some(CorruptExchange);
          }
          ScanMatches(listed, n, i, found);
          found := Some(decoded);
        } else {
          ScanSkips(listed, n, i, found);
        }
        n := n + 1;
      }
      assert listed[..n] == listed && listed[n..] == [];
    }

    /** Scans the outcome inventory for the operation. */
    method ScanOutcomes(i: IntentRecord, ghost start: Pc)
      returns (found: Option<OutcomeRecord>, bytes: nat, err: Option<Err>)
      requires bound.Valid() && (start.ReserveList? || start.StatusList?) && start.intent == i && bound.pc == start
      modifies bound
      ensures bound.Valid() && Later(old(bound.log), bound.log)
      ensures err.None? ==> bound.pc == ScanPlace(start, [], found) && (found.Some? ==> Linked(found.value, i))
      ensures bytes <= bound.limits.maxStatusBytes
      ensures bound.exclusive ==> bound.records == old(bound.records)
      ensures bound.exclusive && err.None? ==> OutcomeScan(bound.records, i, found)
      ensures bound.exclusive && err == Some(CorruptExchange) ==>
                (forall m :: !OutcomeScan(bound.records, i, m)) || !WellFormed(bound.records)
      ensures bound.exclusive ==> err != Some(RecordNotFound)
      ensures err.None? || err == Some(CorruptExchange) || err == Some(RecordNotFound) || Inconclusive(err.value)
      ensures bound.exclusive && Calm(old(bound.log), bound.log) ==>
                (Small(bound, bound.records) && Room(bound, bound.records, OutcomeKind, 0) ==> Settled(err))
    {
      hide *;
      RoomFits(bound, OutcomeKind, 0);
      PlaceWants(start);
      AnyInconclusive();
      LaterAlways();
      var resp, truncated := bound.List(OutcomeKind);
      ListedAll(bound.seen, OutcomeKind, resp, bound.records);
      if truncated { return None, 0, Some(StatusIncomplete); }
      if resp.Fault? { return None, 0, Some(Interrupted); }
      InventoryBytes(bound, bound.records, OutcomeKind, resp.records, 0);
      OnlyOutcomes(resp.records);
      ScanStarts(start, resp.records, i);
      found, bytes, err := MatchOutcomes(i, start, resp.records);
      if err.None? {
        ScanLinked(resp.records, i, found);
        ScanComplete(bound.records, resp.records, i, found);
      }
    }

    /**
      Verifies the records one after the other.  A missing record is not told apart from an
      unreadable one; only a cancellation is.
     */
    method VerifyRecordSet(refs: seq<Record>, ghost places: seq<Pc>) returns (err: Option<Err>)
      requires bound.Valid() && 0 < |refs| && Leads(places, refs) && bound.pc == places[0]
      modifies bound
      ensures bound.Valid() && Later(old(bound.log), bound.log)
      ensures err.None? || err == Some(Interrupted) || err == Some(Unverified)
      ensures err.None? ==> bound.pc == places[|refs|]
      ensures bound.exclusive ==> bound.records == old(bound.records)
      ensures bound.exclusive && err.None? ==> forall r :: r in refs ==> r in bound.records
      ensures bound.exclusive && Calm(old(bound.log), bound.log) && (forall r :: r in refs ==> r in bound.records && !bound.TooBig(r)) ==>
                err.None?
    {
      hide *;
      LaterAlways();
      PlaceAt(places, refs, 0);
      var n := 0;
      while n < |refs|
        invariant n <= |refs|
        invariant bound.Valid() && Later(old(bound.log), bound.log) && bound.pc == places[n]
        invariant bound.exclusive ==> bound.records == old(bound.records)
        invariant bound.exclusive ==> forall k :: 0 <= k < n ==> refs[k] in old(bound.records)
      {
        PlaceAt(places, refs, n);
        assert refs[n] in refs;
        var resp, bytes := bound.Look(refs[n]);
        Looked(bound.seen, refs[n], resp, bound.records);
        if resp.Absent? { return Some(Unverified); }
        if resp.Fault? {
          var cancelled: bool := *;
          return Some(if cancelled then Interrupted else Unverified);
        }
        n := n + 1;
      }
      if bound.exclusive { AllPresent(refs, bound.records); }
      return None;
    }

    /** The marker is published by this call: no outcome may exist yet, and the intent must still be there. */
    method VerifyMarked(i: IntentRecord) returns (err: Option<Err>)
      requires bound.Valid() && bound.pc == ReserveList(i)
      modifies bound
      ensures bound.Valid() && Later(old(bound.log), bound.log)
      ensures err.None? ==> bound.pc == Acquired(i)
      ensures err.None? || err == Some(CorruptExchange) || err == Some(RecordNotFound) || Inconclusive(err.value)
      ensures bound.exclusive ==> bound.records == old(bound.records)
      ensures bound.exclusive && err.None? ==> OutcomeScan(bound.records, i, None)
      ensures bound.exclusive && err == Some(CorruptExchange) ==> !OutcomeScan(bound.records, i, None) || !WellFormed(bound.records)
      ensures bound.exclusive ==> err != Some(RecordNotFound)
      ensures bound.exclusive && Calm(old(bound.log), bound.log) && Intent(i) in bound.records && Marker(i) in bound.records ==>
                (Small(bound, bound.records) && Room(bound, bound.records, OutcomeKind, 0) ==> Settled(err))
    {
      hide *;
      ReserveScript(i);
      ghost var places := ReservePlaces(i);
      AnyInconclusive();
      LaterAlways();
      var matched, _, scanErr := ScanOutcomes(i, ReserveList(i));
      if scanErr.Some? { return scanErr; }
      if matched.Some? {
        NotNone(bound.records, i, matched.value);
        return Some(CorruptExchange);
      }
      ReserveSteps(i);
      SmallRefs(bound, bound.records, ReserveSet(i));
      err := VerifyRecordSet(ReserveSet(i), places);
    }

    /** The store operations of a reservation: check, publish, scan, verify. */
    method Reserve(i: IntentRecord) returns (receipt: ReserveReceipt, err: Option<Err>)
      requires bound.Valid() && ValidIntent(i) && i in bound.Now().verified
      modifies bound
      ensures bound.Valid() && Later(old(bound.log), bound.log)
      ensures receipt.acquired <==> err.None?
      ensures receipt.writes <= 1 && (receipt.alreadyPresent ==> receipt.writes == 0)
      ensures receipt.acquired ==> receipt.writes == 1 && bound.pc == Acquired(i)
      ensures bound.exclusive ==> ReserveEffect(old(bound.records), bound.records, i, err)
      ensures err.None? || err == Some(RetentionPolicy) || err == Some(AlreadyReserved) || err == Some(CorruptExchange)
              || err == Some(Oversized) || err == Some(RecordNotFound) || Inconclusive(err.value)
      ensures err == Some(Oversized) ==> bound.TooBig(Marker(i))
      ensures bound.exclusive ==> err != Some(RecordNotFound)
      ensures bound.exclusive && Calm(old(bound.log), bound.log) ==>
                (ReserveRoom(bound, old(bound.records), i) ==> Settled(err))
    {
      hide *;
      ReserveFits(bound, bound.records, i);
      ReserveScript(i);
      ReserveBegins(bound.Now(), i);
      ghost var s := bound.records;
      ReserveEnds(s, i);
      MarkerIsNoOutcome(s, i);
      AnyInconclusive();
      LaterAlways();
      receipt, err := ReserveReceipt(0, false, false), None;
      bound.Begin(ReserveCheck(i));
      var present, _ := bound.Look(Intent(i));
      Looked(bound.seen, Intent(i), present, bound.records);
      if present.Fault? { return receipt, Some(Interrupted); }
      if present.Absent? { return receipt, Some(RetentionPolicy); }
      if bound.TooBig(Marker(i)) { return receipt, Some(Oversized); }
      var imported := bound.Import(Marker(i));
      Published(bound.seen, Marker(i), imported, bound.records);
      if imported.Fault? { return receipt, Some(Interrupted); }
      receipt := receipt.(writes := if imported.written then 1 else 0, alreadyPresent := !imported.written);
      if receipt.alreadyPresent { return receipt, Some(AlreadyReserved); }
      err := VerifyMarked(i);
      if err.Some? {
        if err != Some(CorruptExchange) { ReserveFails(s, i, err.value); }
        return receipt, err;
      }
      receipt := receipt.(acquired := true);
    }

    /**
      Publishes the at-most-once marker after the fresh review reproduced the intent.  Authority is
      handed out only when this very call wrote the marker and the intent was still there after it.
     */
    method ReserveAttempt(intent: VerifiedIntent, review: Option<Review>)
      returns (reserved: Option<ReservedAttempt>, receipt: ReserveReceipt, err: Option<Err>)
      requires bound.Valid() && Loaded(intent)
      modifies bound
      ensures bound.Valid() && Later(old(bound.log), bound.log)
      ensures err.None? <==> reserved.Some?
      ensures receipt.acquired <==> reserved.Some?
      ensures reserved.Some? ==>
                && AttemptValidFor(reserved.value, intent)
                && fresh(reserved.value.authority) && reserved.value.authority.bound == None
                && reserved.value.record == AttemptFromIntent(intent.record)
                && Granted(reserved.value) && reserved.value.authority.grant == |bound.Now().grants| - 1
                && bound.pc == Acquired(intent.record)
      ensures receipt.writes <= 1 && (receipt.alreadyPresent ==> receipt.writes == 0)
      ensures receipt.acquired ==> receipt.writes == 1
      ensures bound.exclusive ==> ReserveEffect(old(bound.records), bound.records, intent.record, err)
      ensures err == Some(Closed) <==> closed
      ensures err == Some(InvalidExchange) <==>
                !closed && !(IntentValidFor(intent) && FreshReviewMatchesIntent(intent.record, review))
      ensures err == Some(Oversized) ==> bound.TooBig(Marker(intent.record))
      // authority of this session over this intent, and the offer that was reviewed before, field by field
      ensures reserved.Some? ==>
                && !closed && intent.authority != null && intent.authority.session == this && intent.authority.intent == intent.record
                && ValidIntent(intent.record) && reserved.value.authority.session == this && reserved.value.authority.intent == intent.authority
      ensures reserved.Some? ==> review.Some? && Reproduces(review.value, intent.record)
      ensures err == Some(InvalidExchange) && IntentValidFor(intent) ==> review.None? || !Reproduces(review.value, intent.record)
      // a failure has its reason in the store, in the limits, or in a fault
      ensures bound.exclusive && Calm(old(bound.log), bound.log) ==>
                (ReserveRoom(bound, old(bound.records), intent.record) ==> Settled(err))
      ensures bound.exclusive && Calm(old(bound.log), bound.log) && !closed && IntentValidFor(intent) && review.Some? ==>
                (Reproduces(review.value, intent.record) && CanReserve(bound, old(bound.records), intent.record) ==> reserved.Some?)
    {
      LaterAlways();
      ReviewedIs(intent.record, review);
      AnyInconclusive();
      hide ReserveEffect, FreshReviewMatchesIntent, ValidIntent, ValidAttempt, Later, Replay, ReserveRoom, Reservable, Settled,
           Inconclusive, Calm, Reproduces, CanReserve;
      CanReserveIs(bound, bound.records, intent.record);
      reserved, receipt, err := None, ReserveReceipt(0, false, false), None;
      NothingReserved(bound.records, intent.record);
      if closed { return None, receipt, Some(Closed); }
      if !IntentValidFor(intent) || !FreshReviewMatchesIntent(intent.record, review) {
        return None, receipt, Some(InvalidExchange);
      }
      receipt, err := Reserve(intent.record);
      if err.Some? {
        if bound.exclusive && CanReserve(bound, old(bound.records), intent.record) {
          ReserveSucceeds(old(bound.records), bound.records, intent.record, err);
        }
        return None, receipt, err;
      }
      ValidChain(intent.record);
      AcquiredGrant(bound);
      var authority := new AttemptAuthority(this, intent.authority, |bound.Now().grants| - 1);
      var attempt := AttemptFromIntent(intent.record);
      reserved := Some(ReservedAttempt(attempt, Ref(Attempt(attempt)), authority));
    }

    // -------------------------------------------------------------- StoreOutcome

    /** Publishes the outcome and verifies the chain it completes. */
    method Publish(i: IntentRecord, o: OutcomeRecord) returns (receipt: OutcomeReceipt, err: Option<Err>)
      requires bound.Valid() && bound.pc == OutcomeImport(i, o)
      modifies bound
      ensures bound.Valid() && Later(old(bound.log), bound.log)
      ensures err.None? || err == Some(Interrupted) || err == Some(Unverified)
      ensures receipt.writes <= 1 && (receipt.alreadyPresent ==> receipt.writes == 0)
      ensures receipt.durable <==> err.None? && receipt.writes == 1
      ensures err.None? ==> bound.pc == Done(OutcomeStored(o)) && (receipt.writes == 1 || receipt.alreadyPresent)
      ensures bound.exclusive ==> OutcomeEffect(old(bound.records), bound.records, i, o, receipt, err)
      ensures bound.exclusive && Calm(old(bound.log), bound.log) ==>
                (ChainFits(bound, old(bound.records), i, o) ==> err.None?)
    {
      hide *;
      ChainLooks(bound, bound.records, i, o);
      OutcomeScript(i, o);
      ghost var places := OutcomePlaces(i, o);
      OutcomeEnds(bound.records, i, o);
      LaterAlways();
      receipt, err := OutcomeReceipt(0, false, false), None;
      var imported := bound.Import(Outcome(o));
      Published(bound.seen, Outcome(o), imported, bound.records);
      if imported.Fault? { return receipt, Some(Interrupted); }
      receipt := OutcomeReceipt(if imported.written then 1 else 0, !imported.written, false);
      err := VerifyRecordSet(OutcomeSet(i, o), places);
      if err.Some? { return receipt, err; }
      // Only the call that wrote the record can vouch for its durability.
      receipt := receipt.(durable := imported.written);
    }

    /** The outcome of this intent's one submission, recorded when the site's answer had been observed. */
    static ghost predicate StoresResult(o: OutcomeRecord, i: IntentRecord, exchange: ExchangeReceipt) {
      && o.operationId == i.operationId
      && o.intentRecordId.of == Intent(i)
      && o.attemptRecordId.of == Marker(i)
      && o.receipt == exchange && o.recordedAt == exchange.observedAtEnd
      && Concerns(exchange, i) && exchange.limits == i.exchangeLimits
    }

    /** The receipt is about the offer of the intent, field by field. */
    static ghost predicate Concerns(exchange: ExchangeReceipt, i: IntentRecord) {
      && exchange.siteId == i.siteId && exchange.selector == i.selector && exchange.origin == i.origin
      && exchange.expectedReviewId == exchange.freshReviewId == i.expectedReviewId
      && exchange.reviewRouteId == i.reviewRouteId && exchange.actionRouteId == i.actionRouteId
    }

    static lemma ObservesIs(observed: Option<Observation>, exchange: ExchangeReceipt, i: IntentRecord)
      ensures Observes(observed, exchange, i) <==>
                observed.Some? && observed.value.receipt == exchange && ValidReceipt(exchange) && Concerns(exchange, i)
    {
      hide ValidReceipt;
    }

    static lemma StoresObserved(i: IntentRecord, exchange: ExchangeReceipt)
      ensures Linked(OutcomeFor(i, exchange), i) ==> StoresResult(OutcomeFor(i, exchange), i, exchange)
    {
      hide ValidOutcome, AttemptMatchesIntent;
    }

    /** The site observation belongs to the receipt, and both to the intent. */
    static predicate Observes(observed: Option<Observation>, exchange: ExchangeReceipt, i: IntentRecord) {
      observed.Some? && observed.value.receipt == exchange && ObservationMatches(exchange, i)
    }

    /**
      Links the observed result of the submission to the marker.  The authority is bound to the
      first observation for good, whether or not anything could be stored.
     */
    method StoreOutcome(intent: VerifiedIntent, reserved: ReservedAttempt, observed: Option<Observation>, exchange: ExchangeReceipt)
      returns (outcome: Option<OutcomeRecord>, receipt: OutcomeReceipt, err: Option<Err>)
      requires bound.Valid() && Granted(reserved)
      modifies bound, if reserved.authority == null then {} else {reserved.authority}
      ensures bound.Valid() && Later(old(bound.log), bound.log)
      ensures outcome.Some? ==> outcome == Some(OutcomeFor(intent.record, exchange)) && Linked(outcome.value, intent.record)
      ensures err.None? ==> outcome.Some? && bound.pc == Done(OutcomeStored(outcome.value))
      ensures Granted(reserved)
      ensures reserved.authority != null && reserved.authority.bound != old(reserved.authority.bound) ==>
                reserved.authority.bound == observed && observed.Some? && observed.value.receipt == exchange
                && ValidReceipt(exchange) && Concerns(exchange, intent.record)
      ensures err == Some(Oversized) ==> bound.TooBig(Outcome(OutcomeFor(intent.record, exchange))) && bound.records == old(bound.records)
      ensures receipt.durable <==> err.None? && receipt.writes == 1
      ensures err == Some(Closed) <==> closed
      // the authority and its one-shot binding
      ensures err.None? ==> old(AttemptValidFor(reserved, intent)) && Observes(observed, exchange, intent.record)
      ensures !closed && !(old(AttemptValidFor(reserved, intent)) && Observes(observed, exchange, intent.record)) ==>
                err == Some(InvalidExchange) && bound.records == old(bound.records)
                && (reserved.authority != null ==> reserved.authority.bound == old(reserved.authority.bound))
      ensures !closed && old(AttemptValidFor(reserved, intent)) && Observes(observed, exchange, intent.record) ==>
                var before := old(reserved.authority.bound);
                if before.Some? && before != observed
                then err == Some(CorruptExchange) && bound.records == old(bound.records) && reserved.authority.bound == before
                else reserved.authority.bound == observed
      ensures err == Some(CorruptExchange) ==> bound.records == old(bound.records)
      // authority of this session, granted for this intent, and the record that is published, field by field
      ensures outcome.Some? ==>
                && !closed && intent.authority != null && intent.authority.session == this && intent.authority.intent == intent.record
                && reserved.authority != null && reserved.authority.session == this && reserved.authority.intent == intent.authority
      ensures outcome.Some? ==> StoresResult(outcome.value, intent.record, exchange)
      // a failure has its reason in what was passed in, in the store, in the limits, or in a fault
      ensures err.None? || err == Some(Closed) || err == Some(InvalidExchange) || err == Some(CorruptExchange) || err == Some(Oversized)
              || err == Some(Interrupted) || err == Some(Unverified)
      ensures !closed && old(AttemptValidFor(reserved, intent)) && Observes(observed, exchange, intent.record) ==>
                var before, o := old(reserved.authority.bound), OutcomeFor(intent.record, exchange);
                && (err == Some(InvalidExchange) ==> !Linked(o, intent.record))
                && (err == Some(CorruptExchange) ==> before.Some? && before != observed)
                && (bound.exclusive && Calm(old(bound.log), bound.log) && ChainFits(bound, old(bound.records), intent.record, o) ==>
                      err.None? || err == Some(InvalidExchange) || err == Some(CorruptExchange))
      ensures bound.exclusive ==>
                if outcome.Some? then OutcomeEffect(old(bound.records), bound.records, intent.record, outcome.value, receipt, err)
                else bound.records == old(bound.records)
    {
      LaterAlways();
      StoresObserved(intent.record, exchange);
      ObservesIs(observed, exchange, intent.record);
      hide OutcomeEffect, ValidIntent, OutcomeMatches, ObservationMatches, ValidAttempt, AttemptMatchesIntent, Replay, Later, Calm,
           StoresResult, ChainFits, Concerns, ValidReceipt;
      outcome, receipt, err := None, OutcomeReceipt(0, false, false), None;
      if closed { return None, receipt, Some(Closed); }
      if !AttemptValidFor(reserved, intent) || !Observes(observed, exchange, intent.record) {
        return None, receipt, Some(InvalidExchange);
      }
      var ok := reserved.authority.BindOutcome(observed.value);
      if !ok { return None, receipt, Some(CorruptExchange); }
      var i := intent.record;
      var o := OutcomeFor(i, exchange);
      bound.Bind(reserved.authority.grant, observed.value);
      if !Linked(o, i) { return None, receipt, Some(InvalidExchange); }
      FitsItself(bound, bound.records, i, o);
      if bound.TooBig(Outcome(o)) { return None, receipt, Some(Oversized); }
      ghost var before := bound.log;
      receipt, err := Publish(i, o);
      StillBound(before, bound.log, reserved.authority.grant);
      outcome := Some(o);
    }

    // -------------------------------------------------------------- the two-pass scans

    /** Loads every record of an inventory within the byte budget and matches it. */
    method MatchAll(goal: Goal, second: bool, q: seq<Record>, usage: Usage)
      returns (found: Option<Record>, usage': Usage, err: Option<Err>)
      requires bound.Valid() && bound.pc == ScanNext(goal, second, q, q, None) && usage.bytesRead <= bound.limits.maxStatusBytes
      modifies bound
      ensures bound.Valid() && Later(old(bound.log), bound.log)
      ensures err.None? ==> UniqueIn(q, goal, found) && (found.Some? ==> Selects(goal, found.value) && Decodes(found.value))
      ensures err.None? ==> bound.pc == if second then ScanExit(goal, found) else ScanList(goal, true, q)
      ensures usage'.bytesRead <= bound.limits.maxStatusBytes
      ensures err.Some? ==> err == Some(CorruptExchange) || err == Some(RecordNotFound) || Inconclusive(err.value)
      ensures bound.exclusive ==> bound.records == old(bound.records)
      ensures bound.exclusive && Enumerates(q, bound.records, GoalKind(goal)) ==>
                && err != Some(RecordNotFound)
                && (err == Some(CorruptExchange) ==> (forall m :: !Selected(bound.records, goal, m)) || !WellFormed(bound.records))
      ensures usage'.bytesRead <= usage.bytesRead + Bytes(q, bound.sizeOf)
      ensures err.None? ==> usage' == Usage(usage.passes, usage.recordsRead + |q|, usage.bytesRead + Bytes(q, bound.sizeOf))
      ensures Calm(old(bound.log), bound.log) && Loadable(bound, q, usage.bytesRead) ==> Settled(err)
    {
      hide *;
      LoadFirst(bound, q);
      PassStarts(goal, second, q);
      AnyInconclusive();
      LaterAlways();
      found, usage', err := None, usage, None;
      var n := 0;
      while n < |q|
        invariant bound.Valid() && Later(old(bound.log), bound.log)
        invariant n <= |q| && usage'.bytesRead <= bound.limits.maxStatusBytes
        invariant usage' == Usage(usage.passes, usage.recordsRead + n, usage.bytesRead + Bytes(q[..n], bound.sizeOf))
        invariant bound.pc == ScanNext(goal, second, q, q[n..], found)
        invariant bound.exclusive ==> bound.records == old(bound.records)
        invariant UniqueIn(q[..n], goal, found) && (found.Some? ==> Selects(goal, found.value) && Decodes(found.value))
      {
        var candidate := q[n];
        LoadNext(bound, q, n, usage.bytesRead);
        BytesGrow(q, bound.sizeOf, n);
        BytesGrow(q, bound.sizeOf, n + 1);
        if bound.sizeOf(candidate) > 0 && bound.sizeOf(candidate) > bound.limits.maxStatusBytes - usage'.bytesRead {
          return None, usage', Some(StatusIncomplete);
        }
        PassGoes(goal, second, q, n, found);
        var loaded, size := bound.Look(candidate);
        Looked(bound.seen, candidate, loaded, bound.records);
        usage' := Usage(usage'.passes, usage'.recordsRead + 1, usage'.bytesRead + size);
        if loaded.Absent? {
          ScanListed(bound.records, q, n, GoalKind(goal));
          return None, usage', Some(RecordNotFound);
        }
        if loaded.Fault? { return None, usage', Some(Interrupted); }
        if !Decodes(candidate) {
          PassInvalid(bound.records, q, n, GoalKind(goal));
          return None, usage', Some(CorruptExchange);
        }
        if Selects(goal, candidate) {
          if found.Some? {
            PassTwice(bound.records, q, n, goal, found);
            return None, usage', Some(CorruptExchange);
          }
          found := Some(candidate);
        }
        n := n + 1;
      }
      assert q[..n] == q && q[n..] == [];
      PassEnds(goal, second, q, found);
    }

    /** One pass: a complete inventory, the same as before if it is the second, loaded and matched. */
    method ScanPass(goal: Goal, second: bool, before: seq<Record>, usage: Usage)
      returns (listed: Option<seq<Record>>, found: Option<Record>, usage': Usage, err: Option<Err>, ghost at: set<Record>)
      requires bound.Valid() && bound.pc == ScanList(goal, second, before) && usage.bytesRead <= bound.limits.maxStatusBytes
      modifies bound
      ensures bound.Valid() && Later(old(bound.log), bound.log)
      ensures err.None? ==> listed.Some? && UniqueIn(listed.value, goal, found) && (second ==> listed.value == before)
      ensures err.None? && found.Some? ==> Selects(goal, found.value) && Decodes(found.value)
      ensures err.None? ==> bound.pc == if second then ScanExit(goal, found) else ScanList(goal, true, listed.value)
      ensures second && listed.Some? && listed.value != before ==> err == Some(StatusIncomplete)
      ensures err.None? ==> usage' == Usage(usage.passes + 1, usage.recordsRead + |listed.value|,
                                            usage.bytesRead + Bytes(listed.value, bound.sizeOf))
      // the store at the instant of the listing, whatever others do before and after
      ensures listed.Some? ==> Glimpsed(old(bound.log), bound.log, at)
                               && Enumerates(listed.value, at, GoalKind(goal)) && SortedByRank(listed.value, bound.rank)
      ensures usage'.bytesRead <= bound.limits.maxStatusBytes
      ensures err.Some? ==> err == Some(CorruptExchange) || err == Some(RecordNotFound) || Inconclusive(err.value)
      ensures bound.exclusive ==> bound.records == old(bound.records) && err != Some(RecordNotFound)
      ensures bound.exclusive && listed.Some? ==> at == bound.records
      ensures bound.exclusive && err == Some(CorruptExchange) ==>
                (forall m :: !Selected(bound.records, goal, m)) || !WellFormed(bound.records)
      ensures bound.exclusive ==> usage'.bytesRead <= usage.bytesRead + StoredBytes(bound, bound.records, GoalKind(goal))
      ensures bound.exclusive && Calm(old(bound.log), bound.log) ==>
                (Small(bound, bound.records) && Room(bound, bound.records, GoalKind(goal), usage.bytesRead) ==>
                   Settled(err) || (second && listed.Some? && listed.value != before))
    {
      hide *;
      RoomFits(bound, GoalKind(goal), usage.bytesRead);
      PassScript(goal, second, before);
      AnyInconclusive();
      LaterAlways();
      usage' := usage.(passes := usage.passes + 1);
      var resp, truncated := bound.List(GoalKind(goal));
      ListedAll(bound.seen, GoalKind(goal), resp, bound.records);
      at := bound.seen;
      if truncated { return None, None, usage', Some(StatusIncomplete), at; }
      if resp.Fault? { return None, None, usage', Some(Interrupted), at; }
      var q := resp.records;
      if second && q != before { return Some(q), None, usage', Some(StatusIncomplete), at; }
      PassListed(goal, second, before, q);
      InventoryBytes(bound, bound.seen, GoalKind(goal), q, usage.bytesRead);
      listed := Some(q);
      found, usage', err := MatchAll(goal, second, q, usage');
    }

    /**
      Two equal listings, every record of both loaded and matched: what is returned is the unique
      match in the second listing, or the proof that it has none.
     */
    method ScanStable(goal: Goal, usage: Usage)
      returns (listed: seq<Record>, found: Option<Record>, usage': Usage, err: Option<Err>, ghost at: set<Record>)
      requires bound.Valid() && bound.pc == ScanStart(goal) && usage.bytesRead <= bound.limits.maxStatusBytes
      modifies bound
      ensures bound.Valid() && Later(old(bound.log), bound.log)
      ensures err.None? ==> UniqueIn(listed, goal, found) && bound.pc == ScanExit(goal, found)
      // both passes are accounted for
      ensures err.None? ==> usage' == Usage(usage.passes + 2, usage.recordsRead + 2 * |listed|,
                                            usage.bytesRead + 2 * Bytes(listed, bound.sizeOf))
      // what it found is what the store held when it was listed for the second time
      ensures err.None? ==> Glimpsed(old(bound.log), bound.log, at) && Selected(at, goal, found)
      ensures err.None? && found.Some? ==> Selects(goal, found.value) && Decodes(found.value)
      ensures usage'.bytesRead <= bound.limits.maxStatusBytes
      ensures err.Some? ==> err == Some(CorruptExchange) || err == Some(RecordNotFound) || Inconclusive(err.value)
      ensures bound.exclusive ==> bound.records == old(bound.records) && err != Some(RecordNotFound)
      ensures bound.exclusive && err.None? ==> Selected(bound.records, goal, found)
      ensures bound.exclusive && err == Some(CorruptExchange) ==>
                (forall m :: !Selected(bound.records, goal, m)) || !WellFormed(bound.records)
      ensures bound.exclusive ==> usage'.bytesRead <= usage.bytesRead + 2 * StoredBytes(bound, bound.records, GoalKind(goal))
      ensures bound.exclusive && Calm(old(bound.log), bound.log) ==>
                (Small(bound, bound.records) && RoomTwice(bound, bound.records, GoalKind(goal), usage.bytesRead) ==> Settled(err))
    {
      hide *;
      AnyInconclusive();
      RoomOnce(bound, bound.records, GoalKind(goal), usage.bytesRead);
      StartScript(goal);
      LaterAlways();
      var first, found1, used1, err1, at1 := ScanPass(goal, false, [], usage);
      if err1.Some? { return [], None, used1, err1, at1; }
      if bound.exclusive { RoomAgain(bound, bound.records, GoalKind(goal), usage.bytesRead, used1.bytesRead); }
      var again, found2, used2, err2, at2 := ScanPass(goal, true, first.value, used1);
      if again.Some? && at1 == at2 { SameListing(bound, at1, GoalKind(goal), first.value, again.value); }
      if err2.Some? { return [], None, used2, err2, at2; }
      SelectedInventory(at2, again.value, goal, found2);
      return again.value, found2, used2, None, at2;
    }

    // -------------------------------------------------------------- Status

    /** Is any record of the tombstone's chain still present?  Stops at the first that is. */
    method RetainedOriginalsRemain(r: RetentionRecord, ghost places: seq<Pc>, ghost hit: Pc)
      returns (remain: bool, err: Option<Err>)
      requires bound.Valid() && LeadsAbsent(places, r, hit) && bound.pc == places[0]
      modifies bound
      ensures bound.Valid() && Later(old(bound.log), bound.log)
      ensures err.None? || err == Some(Interrupted)
      ensures err.None? ==> bound.pc == if remain then hit else places[3]
      ensures bound.exclusive ==> bound.records == old(bound.records)
      ensures bound.exclusive && err.None? ==> remain == OriginalsRemain(bound.records, r)
      ensures bound.exclusive && Calm(old(bound.log), bound.log) && Small(bound, bound.records) ==> err.None?
    {
      hide *;
      SmallAll(bound, bound.records);
      LaterAlways();
      AbsentAt(places, r, hit, 0);
      remain, err := false, None;
      var n := 0;
      while n < 3
        invariant bound.Valid() && Later(old(bound.log), bound.log)
        invariant n <= 3 && bound.pc == places[n]
        invariant bound.exclusive ==> bound.records == old(bound.records)
        invariant bound.exclusive ==> forall k :: 0 <= k < n ==> Original(r, k) !in bound.records
      {
        AbsentAt(places, r, hit, n);
        var present, _ := bound.Look(Original(r, n));
        Looked(bound.seen, Original(r, n), present, bound.records);
        if present.Fault? { return false, Some(Interrupted); }
        if present.Found? {
          RemainsIf(bound.records, r);
          return true, None;
        }
        n := n + 1;
      }
      RemainsIf(bound.records, r);
    }

    /** The marker decides the state; the set it belongs to is verified before it is reported. */
    method InspectMarker(i: IntentRecord, caller: Caller, matched: Option<OutcomeRecord>)
      returns (report: Option<StatusReport>, err: Option<Err>)
      requires bound.Valid() && ValidIntent(i) && (matched.Some? ==> Linked(matched.value, i))
      requires bound.pc == StatusAttempt(i, caller, matched)
      modifies bound
      ensures bound.Valid() && Later(old(bound.log), bound.log)
      ensures err.None? <==> report.Some?
      ensures err.None? ==> bound.pc == StatusExit(i, caller, report.value.state, report.value.outcome) && LiveShape(i, report.value)
      ensures err.Some? ==> err == Some(CorruptExchange) || Inconclusive(err.value)
      ensures bound.exclusive ==> bound.records == old(bound.records)
      ensures bound.exclusive && Intent(i) in bound.records && OutcomeScan(bound.records, i, matched) ==> LiveEffect(bound.records, i, report, err)
      ensures bound.exclusive && Calm(old(bound.log), bound.log) && Small(bound, bound.records) ==>
                (Intent(i) in bound.records && OutcomeScan(bound.records, i, matched) ==> Settled(err))
    {
      hide *;
      SmallAll(bound, bound.records);
      LiveLooks(i, caller, matched);
      LiveEnds(bound.records, i);
      AnyInconclusive();
      LaterAlways();
      report, err := None, None;
      var marked, _ := bound.Look(Marker(i));
      Looked(bound.seen, Marker(i), marked, bound.records);
      if marked.Fault? { return None, Some(Interrupted); }
      if marked.Absent? && matched.Some? {
        LiveOrphan(bound.records, i, matched.value);
        return None, Some(CorruptExchange);
      }
      ghost var places := StatusPlaces(i, caller, marked.Found?, matched);
      StatusSetIn(bound.records, i, marked.Found?, matched);
      err := VerifyRecordSet(StatusSet(i, marked.Found?, matched), places);
      if err.Some? { return None, err; }
      var st := StatusReport(CandidateState(marked.Found?, matched),
                             if marked.Found? then Some(AttemptFromIntent(i)) else None, matched, None, None);
      LiveReport(bound.records, i, marked.Found?, matched, st);
      report := Some(st);
    }

    /** The live chain: load the intent, scan the outcomes, look for the marker, verify the set. */
    method InspectLive(i: IntentRecord, caller: Caller)
      returns (report: Option<StatusReport>, bytes: nat, err: Option<Err>)
      requires bound.Valid() && bound.pc == StatusIntent(i, caller)
      modifies bound
      ensures bound.Valid() && Later(old(bound.log), bound.log)
      ensures err.None? <==> report.Some?
      ensures err.None? ==> bound.pc == StatusExit(i, caller, report.value.state, report.value.outcome) && LiveShape(i, report.value)
      ensures bytes <= bound.limits.maxStatusBytes
      ensures err.Some? ==> err == Some(CorruptExchange) || err == Some(RecordNotFound) || err == Some(Oversized) || Inconclusive(err.value)
      ensures err == Some(Oversized) ==> bound.TooBig(Marker(i))
      ensures bound.exclusive ==> bound.records == old(bound.records)
      ensures bound.exclusive ==> LiveEffect(bound.records, i, report, err)
      ensures bound.exclusive && Calm(old(bound.log), bound.log) && Small(bound, bound.records) ==>
                (Room(bound, bound.records, OutcomeKind, 0) ==> Settled(err))
    {
      hide *;
      SmallAll(bound, bound.records);
      LiveScript(i, caller);
      LiveEnds(bound.records, i);
      AnyInconclusive();
      LaterAlways();
      report, bytes, err := None, 0, None;
      var loaded, _ := bound.Look(Intent(i));
      Looked(bound.seen, Intent(i), loaded, bound.records);
      if loaded.Absent? { return None, 0, Some(RecordNotFound); }
      if loaded.Fault? { return None, 0, Some(Interrupted); }
      if !ValidIntent(i) { return None, 0, Some(CorruptExchange); }
      if bound.TooBig(Marker(i)) { return None, 0, Some(Oversized); }
      var matched, read, scanErr := ScanOutcomes(i, StatusList(i, caller));
      bytes := read;
      if scanErr.Some? { return None, bytes, scanErr; }
      LiveLooks(i, caller, matched);
      report, err := InspectMarker(i, caller, matched);
    }

    /** A tombstone: pruning while a record of its chain remains, pruned afterwards. */
    method InspectRetained(i: IntentRecord, caller: Caller, found: Record)
      returns (report: Option<StatusReport>, err: Option<Err>)
      requires bound.Valid() && Selects(StatusRetention(i, caller), found) && Decodes(found)
      requires bound.pc == ScanExit(StatusRetention(i, caller), Some(found))
      modifies bound
      ensures bound.Valid() && Later(old(bound.log), bound.log)
      ensures err.None? <==> report.Some?
      ensures err.None? || err == Some(Interrupted)
      ensures err.None? ==> report.value.retention.Some? && Shaped(i, report.value)
                            && bound.pc == StatusExit(i, caller, report.value.state, report.value.outcome)
      ensures bound.exclusive ==> bound.records == old(bound.records)
      ensures bound.exclusive && err.None? ==>
                (Selected(bound.records, StatusForget(i, caller), None) && Selected(bound.records, StatusRetention(i, caller), Some(found)) ==>
                   StatusOf(bound.records, i, report.value))
      ensures bound.exclusive && Calm(old(bound.log), bound.log) && Small(bound, bound.records) ==> err.None?
    {
      hide *;
      RetainedShape(bound.records, i, caller, found);
      LaterAlways();
      var r := found.retention;
      ghost var places := RemainPlaces(i, caller, r);
      var remain, presenceErr := RetainedOriginalsRemain(r, places, StatusExit(i, caller, Pruning, Some(r.outcome)));
      if presenceErr.Some? { return None, presenceErr; }
      RetainedIs(r, remain);
      return Some(RetainedReport(r, remain)), None;
    }

    /** Looks for a forget marker, and without one for a tombstone. */
    method FindStatus(i: IntentRecord, caller: Caller)
      returns (forget: Option<Record>, retained: Option<Record>, usage: Usage, err: Option<Err>)
      requires bound.Valid() && bound.pc == ScanStart(StatusForget(i, caller))
      modifies bound
      ensures bound.Valid() && Later(old(bound.log), bound.log)
      ensures usage.bytesRead <= bound.limits.maxStatusBytes
      ensures err.None? && forget.Some? ==> bound.pc == ScanExit(StatusForget(i, caller), forget)
                                            && Selects(StatusForget(i, caller), forget.value) && Decodes(forget.value)
      ensures err.None? && forget.None? ==> bound.pc == ScanExit(StatusRetention(i, caller), retained)
      ensures err.None? && forget.None? && retained.Some? ==> Selects(StatusRetention(i, caller), retained.value) && Decodes(retained.value)
      ensures err.Some? ==> err == Some(CorruptExchange) || err == Some(RecordNotFound) || Inconclusive(err.value)
      ensures bound.exclusive ==> bound.records == old(bound.records) && err != Some(RecordNotFound)
      ensures bound.exclusive && err.None? ==>
                && Selected(bound.records, StatusForget(i, caller), forget)
                && (forget.None? ==> Selected(bound.records, StatusRetention(i, caller), retained))
      ensures bound.exclusive && err == Some(CorruptExchange) ==> Undecided(bound.records, i)
      ensures bound.exclusive && Calm(old(bound.log), bound.log) && Small(bound, bound.records) ==>
                (ScanRoom(bound, bound.records) ==> Settled(err))
    {
      hide *;
      ScansFit(bound, bound.records, 0);
      ScanGoals(i, caller);
      StatusScript(i, caller);
      StatusOpens(bound.records, i, caller);
      AnyInconclusive();
      LaterAlways();
      var _, found, used1, forgetErr, _ := ScanStable(StatusForget(i, caller), Usage(0, 0, 0));
      if forgetErr.Some? || found.Some? { return found, None, used1, forgetErr; }
      ScansFit(bound, bound.records, used1.bytesRead);
      var _, tombstone, used2, retentionErr, _ := ScanStable(StatusRetention(i, caller), used1);
      return None, tombstone, used2, retentionErr;
    }

    /**
      Inspects one operation: a forget marker wins over a tombstone, a tombstone over the live
      chain.  `i` stands for the record ID the caller names; a prune asks from its own place.
     */
    method Status(i: IntentRecord, caller: Caller)
      returns (report: Option<StatusReport>, usage: Usage, bytes: nat, err: Option<Err>)
      requires bound.Valid() && (caller == Api || bound.pc == ScanStart(StatusForget(i, caller)))
      modifies bound
      ensures bound.Valid() && Later(old(bound.log), bound.log)
      ensures err.None? <==> report.Some?
      ensures err == Some(Closed) <==> closed
      ensures err.None? ==> bound.pc == StatusExit(i, caller, report.value.state, report.value.outcome) && Shaped(i, report.value)
      ensures usage.bytesRead <= bound.limits.maxStatusBytes && bytes <= bound.limits.maxStatusBytes
      ensures bound.exclusive ==> bound.records == old(bound.records)
      ensures bound.exclusive && err.None? ==> StatusOf(bound.records, i, report.value)
      ensures bound.exclusive && err == Some(RecordNotFound) ==> Nowhere(bound.records, i)
      ensures err.Some? ==> err == Some(Closed) || err == Some(CorruptExchange) || err == Some(RecordNotFound) || err == Some(Oversized)
                            || Inconclusive(err.value)
      ensures err == Some(Oversized) ==> bound.TooBig(Marker(i))
      ensures bound.exclusive && err == Some(CorruptExchange) ==> Undecided(bound.records, i)
      // a terminal state is the one the site's answer tells
      ensures err.None? && report.value.outcome.Some? && report.value.retention.None? ==>
                Tells(report.value.state, report.value.outcome.value.receipt)
      // a failure has its reason in the store, in the limits, or in a fault
      ensures bound.exclusive && Calm(old(bound.log), bound.log) && Small(bound, bound.records) ==>
                (StatusRoom(bound, bound.records) ==> Settled(err))
      ensures bound.exclusive && Calm(old(bound.log), bound.log) && !closed ==>
                (CanInspect(bound, bound.records, i) ==> err.None?)
    {
      hide *;
      StatusFits(bound, bound.records, i);
      StatusScript(i, caller);
      StatusBegins(bound.Now(), i);
      AnyInconclusive();
      LaterAlways();
      report, usage, bytes, err := None, Usage(0, 0, 0), 0, None;
      if closed { return None, usage, 0, Some(Closed); }
      if caller == Api { bound.Begin(ScanStart(StatusForget(i, Api))); }
      var forget, retained, used, scanErr := FindStatus(i, caller);
      usage := used;
      if scanErr.Some? { return None, usage, 0, scanErr; }
      if forget.Some? {
        StatusForgetting(bound.records, i, caller, forget.value);
        var f := forget.value.forget;
        var r := f.retention;
        return Some(StatusReport(Forgetting, Some(r.attempt), Some(r.outcome), Some(r), Some(f))), usage, 0, None;
      }
      if retained.Some? {
        report, err := InspectRetained(i, caller, retained.value);
        return report, usage, 0, err;
      }
      report, bytes, err := InspectLive(i, caller);
      if bound.exclusive { StatusLive(bound.records, i, caller, report, err); }
      if err.None? {
        LiveShaped(i, report.value);
        LiveTells(i, report.value);
      }
    }

    // -------------------------------------------------------------- Prune

    /** One exact removal, accounted for in the receipt. */
    method RemoveRecord(r: Record, receipt: RetentionReceipt, records: nat)
      returns (receipt': RetentionReceipt, err: Option<Err>, ghost had: bool)
      requires bound.Valid() && Want(bound.pc) == RemoveOp(r) && Advance(bound.pc, Staged) == bound.pc
      requires Accounted(receipt, records) && !receipt.complete && |receipt.removals| < records
      modifies bound
      ensures bound.Valid() && Later(old(bound.log), bound.log)
      ensures receipt' == receipt.(writes := receipt'.writes, recordsRemoved := receipt'.recordsRemoved,
                                   recordsAlreadyAbsent := receipt'.recordsAlreadyAbsent, removals := receipt'.removals)
      ensures |receipt'.removals| == |receipt.removals| + 1 && Accounted(receipt', records)
      ensures err.None? ==> receipt'.recordsRemoved + receipt'.recordsAlreadyAbsent == receipt.recordsRemoved + receipt.recordsAlreadyAbsent + 1
      ensures err.None? || err == Some(Interrupted)
      ensures err.None? ==> bound.pc == Advance(old(bound.pc), Removed(had))
      ensures bound.exclusive && err.None? ==> bound.records == old(bound.records) - {r}
      ensures bound.exclusive && err.Some? ==> bound.records == old(bound.records) || bound.records == old(bound.records) - {r}
      ensures bound.exclusive && Calm(old(bound.log), bound.log) ==> err.None?
    {
      LaterAlways();
      hide Advance, Want, Responds, Later;
      var resp, writes, removed, alreadyAbsent := bound.Remove(r);
      var removal := Removal(removed, alreadyAbsent, writes);
      Tally(receipt.removals, removal);
      receipt' := receipt.(
        writes := receipt.writes + removal.writes,
        recordsRemoved := receipt.recordsRemoved + if removal.removed then 1 else 0,
        recordsAlreadyAbsent := receipt.recordsAlreadyAbsent + if removal.alreadyAbsent then 1 else 0,
        removals := receipt.removals + [removal]);
      err := if resp.Fault? then Some(Interrupted) else None;
      had := if resp.Removed? then resp.hadState else false;
    }

    /**
      Removes the chain behind a durable tombstone: the intent first, the marker before the
      outcome, so that no crash point shows an intent without its marker.
     */
    method RemoveChain(r: RetentionRecord, receipt0: RetentionReceipt) returns (receipt: RetentionReceipt, err: Option<Err>)
      requires bound.Valid() && bound.pc == PruneRemove(r, 0)
      requires Accounted(receipt0, 3) && receipt0.removals == [] && !receipt0.complete
      modifies bound
      ensures bound.Valid() && Later(old(bound.log), bound.log)
      ensures Accounted(receipt, 3) && !receipt.complete
      ensures receipt.retention == receipt0.retention && receipt.used == receipt0.used
      ensures err.None? ==> bound.pc == PruneFinish(r, 0) && |receipt.removals| == 3
                            && receipt.recordsRemoved + receipt.recordsAlreadyAbsent == 3
      ensures err.None? || err == Some(Interrupted)
      ensures bound.exclusive ==> RemovedFirst(old(bound.records), bound.records, r, |receipt.removals|, err)
      ensures bound.exclusive && Calm(old(bound.log), bound.log) ==> err.None?
    {
      hide *;
      RemoveScript(r);
      NothingCounted(receipt0);
      RemoveEnds(bound.records, r);
      LaterAlways();
      receipt, err := receipt0, None;
      var n := 0;
      while n < 3
        invariant bound.Valid() && Later(old(bound.log), bound.log)
        invariant n <= 3 && |receipt.removals| == n && !receipt.complete && Accounted(receipt, 3)
        invariant receipt.recordsRemoved + receipt.recordsAlreadyAbsent == n
        invariant receipt.retention == receipt0.retention && receipt.used == receipt0.used
        invariant bound.pc == if n < 3 then PruneRemove(r, n) else PruneFinish(r, 0)
        invariant bound.exclusive ==> bound.records == old(bound.records) - FirstOriginals(r, n)
      {
        RemoveNext(old(bound.records), r, n);
        var removeErr;
        ghost var had;
        receipt, removeErr, had := RemoveRecord(Original(r, n), receipt, 3);
        RemoveStep(r, n, had);
        if removeErr.Some? { return receipt, removeErr; }
        n := n + 1;
        var interrupted := bound.Hook();
        if interrupted { return receipt, Some(Interrupted); }
      }
    }

    /** The tombstone is durable, before the removal of its chain or after it. */
    method ConfirmTombstone(r: RetentionRecord, ghost finish: bool) returns (err: Option<Err>)
      requires bound.Valid() && bound.pc == if finish then PruneFinish(r, 0) else PruneConfirm(r, 0)
      modifies bound
      ensures bound.Valid() && Later(old(bound.log), bound.log)
      ensures err.None? || err == Some(Interrupted) || err == Some(Unverified)
      ensures err.None? ==> bound.pc == if finish then Done(PruneDone(r)) else PruneRemove(r, 0)
      ensures bound.exclusive ==> bound.records == old(bound.records) && (err.None? ==> Retention(r) in bound.records)
      ensures bound.exclusive && Calm(old(bound.log), bound.log) && Retention(r) in bound.records && !bound.TooBig(Retention(r)) ==> err.None?
    {
      hide *;
      ghost var places := TombstonePlaces(r, finish);
      err := VerifyRecordSet(TombstoneSet(r), places);
    }

    /** Confirms the tombstone, removes its chain and confirms the tombstone again. */
    method CompletePrune(r: RetentionRecord, receipt0: RetentionReceipt) returns (receipt: RetentionReceipt, err: Option<Err>)
      requires bound.Valid() && ValidRetention(r) && bound.pc == PruneConfirm(r, 0)
      requires Accounted(receipt0, 3) && receipt0.removals == [] && !receipt0.complete
      modifies bound
      ensures bound.Valid() && Later(old(bound.log), bound.log)
      ensures Accounted(receipt, 3) && (receipt.complete <==> err.None?)
      ensures receipt.retention == receipt0.retention && receipt.used == receipt0.used
      ensures err.None? ==> bound.pc == Done(PruneDone(r))
      ensures err.None? || err == Some(Interrupted) || err == Some(Unverified)
      ensures bound.exclusive ==> RemovedFirst(old(bound.records), bound.records, r, |receipt.removals|, err)
      ensures bound.exclusive && Calm(old(bound.log), bound.log) ==>
                (Retention(r) in old(bound.records) && !bound.TooBig(Retention(r)) ==> err.None?)
    {
      hide *;
      TombstoneStays(bound.records, r);
      RemoveEnds(bound.records, r);
      LaterAlways();
      receipt, err := receipt0, None;
      err := ConfirmTombstone(r, false);
      if err.Some? { return receipt, err; }
      receipt, err := RemoveChain(r, receipt);
      if err.Some? { return receipt, err; }
      RemovedAll(old(bound.records), bound.records, r, |receipt.removals|);
      err := ConfirmTombstone(r, true);
      if err.Some? { return receipt, err; }
      CompleteAccount(receipt.(complete := true));
      receipt := receipt.(complete := true);
    }

    /** Publishes the tombstone of a terminal chain, confirms it with the chain, and completes. */
    method PruneTerminal(r: RetentionRecord, receipt0: RetentionReceipt) returns (receipt: RetentionReceipt, err: Option<Err>)
      requires bound.Valid() && ValidRetention(r) && bound.pc == PruneImport(r)
      requires receipt0 == RetentionReceipt(false, Some(r), 0, 0, 0, 0, [], receipt0.used)
      modifies bound
      ensures bound.Valid() && Later(old(bound.log), bound.log)
      ensures Accounted(receipt, 3) && (receipt.complete <==> err.None?)
      ensures receipt.retention == receipt0.retention && receipt.used == receipt0.used
      ensures err.None? ==> bound.pc == Done(PruneDone(r))
      ensures err.None? || err == Some(Interrupted) || err == Some(Unverified)
      ensures bound.exclusive ==> PruneReached(old(bound.records), bound.records, r, |receipt.removals|, err)
      ensures bound.exclusive && Calm(old(bound.log), bound.log) && Small(bound, old(bound.records)) ==>
                ((forall k :: 0 <= k < 3 ==> Original(r, k) in old(bound.records)) && !bound.TooBig(Retention(r)) ==> err.None?)
    {
      hide *;
      PruneSetIn(bound.records, r);
      SmallAll(bound, bound.records);
      ghost var places := PrunePlaces(r);
      PublishScript(r, receipt0);
      PruneEnds(bound.records, r);
      LaterAlways();
      receipt, err := receipt0, None;
      var imported := bound.Import(Retention(r));
      Published(bound.seen, Retention(r), imported, bound.records);
      if imported.Fault? { return receipt, Some(Interrupted); }
      var wrote := if imported.written then 1 else 0;
      receipt := receipt.(publicationWrites := wrote, writes := wrote);
      err := VerifyRecordSet(PruneSet(r), places);
      if err.Some? { return receipt, err; }
      var interrupted := bound.Hook();
      if interrupted { return receipt, Some(Interrupted); }
      receipt, err := CompletePrune(r, receipt);
      PruneReaches(old(bound.records), bound.records, r, |receipt.removals|, err);
    }

    /** No tombstone yet: the status decides whether there is a terminal chain to replace. */
    method PruneLive(i: IntentRecord, op: string, receipt0: RetentionReceipt) returns (receipt: RetentionReceipt, err: Option<Err>)
      requires bound.Valid() && !closed && bound.pc == ScanStart(StatusForget(i, ByPrune(op)))
      requires receipt0 == RetentionReceipt(false, None, 0, 0, 0, 0, [], receipt0.used)
      modifies bound
      ensures bound.Valid() && Later(old(bound.log), bound.log)
      ensures Accounted(receipt, 3) && (receipt.complete <==> err.None?) && receipt.used == receipt0.used
      ensures err.None? ==> receipt.retention.Some? && receipt.retention.value.intent == i && i.operationId == op
                            && bound.pc == Done(PruneDone(receipt.retention.value))
      ensures err != Some(Closed)
      ensures err == Some(Oversized) ==> bound.TooBig(Marker(i)) || exists r: RetentionRecord :: r.intent == i && bound.TooBig(Retention(r))
      ensures var s := old(bound.records);
              bound.exclusive && Selected(s, PruneForget(i, op), None) && Selected(s, PruneRetention(i, op), None) ==>
                && PruneEffect(s, bound.records, i, op, receipt, err)
                && (err.None? || Inconclusive(err.value) || err == Some(Oversized) || PruneRefused(s, i, op, err.value))
                && (err == Some(Oversized) ==>
                      bound.TooBig(Marker(i)) || exists r {:trigger Prunable(s, i, op, r)} :: Prunable(s, i, op, r) && bound.TooBig(Retention(r)))
                && (Calm(old(bound.log), bound.log) && Small(bound, s) ==> (StatusRoom(bound, s) ==> Settled(err)))
    {
      hide *;
      PruneUses(receipt0);
      AnyInconclusive();
      LaterAlways();
      receipt, err := receipt0, None;
      var report, _, _, statusErr := Status(i, ByPrune(op));
      if statusErr.Some? {
        PruneStatusFailed(bound.records, i, op, receipt, statusErr.value);
        return receipt, if statusErr.value.RecordNotFound? then Some(ExchangeNotFound) else statusErr;
      }
      var st := report.value;
      PruneStatus(bound.records, i, op, st);
      PruneStays(bound.records, i, op, receipt, Some(InvalidExchange));
      PruneStays(bound.records, i, op, receipt, Some(RetentionPolicy));
      PruneStays(bound.records, i, op, receipt, Some(Oversized));
      if i.operationId != op { return receipt, Some(InvalidExchange); }
      if !TerminalState(st.state) || st.attempt.None? || st.outcome.None? { return receipt, Some(RetentionPolicy); }
      var r := RetentionRecord(RETENTION_SCHEMA, RETENTION_BASIS, STORE_ID, op, st.state, i, IntentRef(i),
                               st.attempt.value, Ref(Attempt(st.attempt.value)), st.outcome.value, Ref(Outcome(st.outcome.value)));
      if bound.TooBig(Retention(r)) { return receipt, Some(Oversized); }
      receipt := receipt.(retention := Some(r));
      receipt, err := PruneTerminal(r, receipt);
      PrunedTerminal(old(bound.records), bound.records, i, op, receipt, err);
    }

    /** Looks for a forget marker, which ends the prune, and for a tombstone to resume from. */
    method FindTombstone(i: IntentRecord, op: string)
      returns (retained: Option<Record>, usage: Usage, err: Option<Err>)
      requires bound.Valid() && bound.pc == ScanStart(PruneForget(i, op))
      modifies bound
      ensures bound.Valid() && Later(old(bound.log), bound.log)
      ensures usage.bytesRead <= bound.limits.maxStatusBytes
      ensures err.None? ==> bound.pc == ScanExit(PruneRetention(i, op), retained)
      ensures err.None? && retained.Some? ==> Selects(PruneRetention(i, op), retained.value) && Decodes(retained.value)
      ensures err != Some(Closed) && err != Some(ExchangeNotFound) && err != Some(Oversized)
      ensures bound.exclusive ==> bound.records == old(bound.records)
      ensures bound.exclusive && err.None? ==>
                Selected(bound.records, PruneForget(i, op), None) && Selected(bound.records, PruneRetention(i, op), retained)
      ensures bound.exclusive && err.Some? ==>
                Inconclusive(err.value) || PruneRefused(bound.records, i, op, err.value)
      ensures bound.exclusive && Calm(old(bound.log), bound.log) && Small(bound, bound.records) ==>
                (ScanRoom(bound, bound.records) ==> Settled(err))
    {
      hide *;
      ScansFit(bound, bound.records, 0);
      PruneGoals(i, op);
      PruneScript(i, op);
      PruneCorrupt(bound.records, i, op);
      AnyInconclusive();
      LaterAlways();
      var _, forget, used1, forgetErr, _ := ScanStable(PruneForget(i, op), Usage(0, 0, 0));
      if forgetErr.Some? { return None, used1, forgetErr; }
      if forget.Some? {
        PruneBlocked(bound.records, i, op, forget.value);
        return None, used1, Some(if forget.value.forget.operationId != op then CorruptExchange else RetentionPolicy);
      }
      ScansFit(bound, bound.records, used1.bytesRead);
      var _, found, used2, retentionErr, _ := ScanStable(PruneRetention(i, op), used1);
      return found, used2, retentionErr;
    }

    /** A tombstone exists: an earlier prune published it and may have stopped anywhere after. */
    method PruneResume(i: IntentRecord, op: string, found: Record, receipt0: RetentionReceipt)
      returns (receipt: RetentionReceipt, err: Option<Err>)
      requires bound.Valid() && bound.pc == ScanExit(PruneRetention(i, op), Some(found))
      requires Selects(PruneRetention(i, op), found) && Decodes(found)
      requires receipt0 == RetentionReceipt(false, None, 0, 0, 0, 0, [], receipt0.used)
      modifies bound
      ensures bound.Valid() && Later(old(bound.log), bound.log)
      ensures Accounted(receipt, 3) && (receipt.complete <==> err.None?) && receipt.used == receipt0.used
      ensures err.None? ==> receipt.retention.Some? && receipt.retention.value.intent == i && i.operationId == op
                            && bound.pc == Done(PruneDone(receipt.retention.value))
      ensures err != Some(Closed) && err != Some(Oversized)
      ensures var s := old(bound.records);
              bound.exclusive && Selected(s, PruneForget(i, op), None) && Selected(s, PruneRetention(i, op), Some(found)) ==>
                && PruneEffect(s, bound.records, i, op, receipt, err)
                && (err.None? || Inconclusive(err.value) || PruneRefused(s, i, op, err.value))
                && (Calm(old(bound.log), bound.log) && Small(bound, s) ==> Settled(err))
    {
      hide *;
      PruneResuming(bound.records, i, op, found);
      SmallAll(bound, bound.records);
      AnyInconclusive();
      PruneUses(receipt0);
      LaterAlways();
      receipt, err := receipt0, None;
      var r := found.retention;
      if r.operationId != op {
        PruneStays(bound.records, i, op, receipt, Some(CorruptExchange));
        return receipt, Some(CorruptExchange);
      }
      receipt := receipt.(retention := Some(r));
      PruneUses(receipt);
      receipt, err := CompletePrune(r, receipt);
      PruneResumed(old(bound.records), bound.records, i, op, receipt, err);
    }

    /**
      Replaces one explicitly selected terminal chain by its tombstone, or resumes doing so.
      `i` stands for the intent's record ID.
     */
    method Prune(i: IntentRecord, op: string) returns (receipt: RetentionReceipt, err: Option<Err>)
      requires bound.Valid()
      modifies bound
      ensures bound.Valid() && Later(old(bound.log), bound.log)
      ensures Accounted(receipt, 3) && (receipt.complete <==> err.None?)
      ensures err.None? ==> receipt.retention.Some? && receipt.retention.value.intent == i && i.operationId == op
                            && bound.pc == Done(PruneDone(receipt.retention.value))
      ensures receipt.used.bytesRead <= bound.limits.maxStatusBytes
      ensures err == Some(Closed) <==> closed
      ensures !closed && !ValidSha256Id(op) ==> err == Some(InvalidExchange)
      ensures bound.exclusive ==> PruneEffect(old(bound.records), bound.records, i, op, receipt, err)
      ensures bound.exclusive && !closed ==>
                err.None? || Inconclusive(err.value) || err == Some(Oversized) || PruneRefused(old(bound.records), i, op, err.value)
      ensures err == Some(Oversized) ==> bound.TooBig(Marker(i)) || exists r: RetentionRecord :: r.intent == i && bound.TooBig(Retention(r))
      // a failure has its reason in the store, in the limits, or in a fault
      ensures bound.exclusive && Calm(old(bound.log), bound.log) && Small(bound, old(bound.records)) ==>
                (StatusRoom(bound, old(bound.records)) ==> Settled(err))
      // what can be pruned, or resumed, is pruned
      ensures bound.exclusive && Calm(old(bound.log), bound.log) && !closed ==>
                forall r :: CanPrune(bound, old(bound.records), i, op, r) ==>
                              err.None? && bound.records == PruneStage(old(bound.records), r, 3)
    {
      hide *;
      forall r | CanPrune(bound, bound.records, i, op, r)
        ensures (forall why :: !PruneRefused(bound.records, i, op, why)) && Small(bound, bound.records) && StatusRoom(bound, bound.records) && !bound.TooBig(Marker(i))
        ensures !bound.TooBig(Retention(r)) && forall t :: Prunable(bound.records, i, op, t) ==> t == r
        ensures forall s', receipt :: PruneEffect(bound.records, s', i, op, receipt, None) ==> s' == PruneStage(bound.records, r, 3)
      {
        PruneCompletes(bound, bound.records, i, op, r);
      }
      StatusFits(bound, bound.records, i);
      ScansFit(bound, bound.records, 0);
      PruneScript(i, op);
      PruneBegins(bound.Now(), i, op);
      AnyInconclusive();
      LaterAlways();
      receipt, err := RetentionReceipt(false, None, 0, 0, 0, 0, [], Usage(0, 0, 0)), None;
      PruneUses(receipt);
      if closed {
        PruneStays(bound.records, i, op, receipt, Some(Closed));
        return receipt, Some(Closed);
      }
      if !ValidSha256Id(op) {
        PruneInvalid(bound.records, i, op);
        PruneStays(bound.records, i, op, receipt, Some(InvalidExchange));
        return receipt, Some(InvalidExchange);
      }
      bound.Begin(ScanStart(PruneForget(i, op)));
      var retained, used, scanErr := FindTombstone(i, op);
      receipt := receipt.(used := used);
      PruneUses(receipt);
      if scanErr.Some? {
        PruneStays(bound.records, i, op, receipt, scanErr);
        return receipt, scanErr;
      }
      if retained.Some? {
        receipt, err := PruneResume(i, op, retained.value, receipt);
      } else {
        receipt, err := PruneLive(i, op, receipt);
      }
    }

    // -------------------------------------------------------------- Forget

    /** Removes the tombstone, then the marker that allows a later call to finish. */
    method RemoveMarked(r: RetentionRecord, receipt0: RetentionReceipt) returns (receipt: RetentionReceipt, err: Option<Err>)
      requires bound.Valid() && bound.pc == ForgetRemove(r, false)
      requires Accounted(receipt0, 2) && receipt0.removals == [] && !receipt0.complete
      modifies bound
      ensures bound.Valid() && Later(old(bound.log), bound.log)
      ensures Accounted(receipt, 2) && !receipt.complete
      ensures receipt.retention == receipt0.retention && receipt.used == receipt0.used
      ensures err.None? ==> bound.pc == ForgetCheck(r) && |receipt.removals| == 2
                            && receipt.recordsRemoved + receipt.recordsAlreadyAbsent == 2
      ensures err.None? || err == Some(Interrupted)
      ensures bound.exclusive ==> ErasedFirst(old(bound.records), bound.records, r, |receipt.removals|, err)
      ensures bound.exclusive && Calm(old(bound.log), bound.log) ==> err.None?
    {
      hide *;
      EraseScript(r);
      NoneCounted(receipt0);
      EraseEnds(bound.records, r);
      LaterAlways();
      receipt, err := receipt0, None;
      var n := 0;
      while n < 2
        invariant bound.Valid() && Later(old(bound.log), bound.log)
        invariant n <= 2 && |receipt.removals| == n && !receipt.complete && Accounted(receipt, 2)
        invariant receipt.recordsRemoved + receipt.recordsAlreadyAbsent == n
        invariant receipt.retention == receipt0.retention && receipt.used == receipt0.used
        invariant bound.pc == if n < 2 then ForgetRemove(r, n == 1) else ForgetCheck(r)
        invariant bound.exclusive ==> bound.records == Erasing(old(bound.records), r, n)
      {
        EraseNext(old(bound.records), r, n);
        var removeErr;
        ghost var had;
        receipt, removeErr, had := RemoveRecord(if n == 0 then Retention(r) else Record.Forget(ForgetFor(r)), receipt, 2);
        if removeErr.Some? { return receipt, removeErr; }
        n := n + 1;
        var interrupted := bound.Hook();
        if interrupted { return receipt, Some(Interrupted); }
      }
    }

    /** Behind a published marker: the originals are still gone, and the marker is durable. */
    method ConfirmMarker(r: RetentionRecord) returns (err: Option<Err>)
      requires bound.Valid() && bound.pc == ForgetAbsent(r, true, 0)
      modifies bound
      ensures bound.Valid() && Later(old(bound.log), bound.log)
      ensures err.None? ==> bound.pc == ForgetRemove(r, false)
      ensures err.None? || err == Some(Interrupted) || err == Some(Unverified) || err == Some(RetentionPolicy)
      ensures bound.exclusive ==> bound.records == old(bound.records)
      ensures bound.exclusive && (err.None? || err == Some(RetentionPolicy)) ==> (err.Some? <==> OriginalsRemain(bound.records, r))
      ensures bound.exclusive && Calm(old(bound.log), bound.log) && Small(bound, bound.records) ==>
                (Record.Forget(ForgetFor(r)) in bound.records ==> Settled(err))
    {
      hide *;
      ghost var absent := AbsentPlaces(r, true);
      ghost var confirm := MarkerPlaces(r);
      AnyInconclusive();
      SmallAll(bound, bound.records);
      LaterAlways();
      var remain, presenceErr := RetainedOriginalsRemain(r, absent, STOP);
      if presenceErr.Some? { return presenceErr; }
      if remain { return Some(RetentionPolicy); }
      err := VerifyRecordSet(ForgetSet(r), confirm);
      if err.Some? { return err; }
      var interrupted := bound.Hook();
      if interrupted { return Some(Interrupted); }
    }

    /** Completes a forget whose marker is published. */
    method CompleteForget(r: RetentionRecord, receipt0: RetentionReceipt) returns (receipt: RetentionReceipt, err: Option<Err>)
      requires bound.Valid() && bound.pc == ForgetAbsent(r, true, 0)
      requires Accounted(receipt0, 2) && receipt0.removals == [] && !receipt0.complete
      modifies bound
      ensures bound.Valid() && Later(old(bound.log), bound.log)
      ensures Accounted(receipt, 2) && (receipt.complete <==> err.None?)
      ensures receipt.retention == receipt0.retention && receipt.used == receipt0.used
      ensures err.None? ==> bound.pc == Done(ForgetDone(r))
      ensures err.None? || err == Some(Interrupted) || err == Some(Unverified) || err == Some(RetentionPolicy)
      ensures bound.exclusive ==> ErasedFirst(old(bound.records), bound.records, r, |receipt.removals|, err)
      ensures bound.exclusive && err == Some(RetentionPolicy) ==> OriginalsRemain(old(bound.records), r)
      ensures bound.exclusive && OriginalsRemain(old(bound.records), r) ==> err.Some? && bound.records == old(bound.records)
      ensures bound.exclusive && Calm(old(bound.log), bound.log) && Small(bound, old(bound.records)) ==>
                (Record.Forget(ForgetFor(r)) in old(bound.records) ==> Settled(err))
    {
      hide *;
      AnyInconclusive();
      FinishScript(r);
      EraseEnds(bound.records, r);
      LaterAlways();
      receipt, err := receipt0, None;
      err := ConfirmMarker(r);
      if err.Some? { return receipt, err; }
      receipt, err := RemoveMarked(r, receipt);
      ErasedAll(old(bound.records), bound.records, r, |receipt.removals|);
      if err.Some? { return receipt, err; }
      var checked := bound.Check();
      CheckedOnly(bound.seen, checked, bound.records);
      if checked.Fault? { return receipt, Some(Interrupted); }
      FinishAccount(receipt.(complete := true));
      receipt := receipt.(complete := true);
    }

    /** Loads the tombstone and refuses while originals remain. */
    method LoadForgettable(r: RetentionRecord, op: string, used0: Usage) returns (used: Usage, err: Option<Err>)
      requires bound.Valid() && bound.pc == ForgetLoad(r, op)
      modifies bound
      ensures bound.Valid() && Later(old(bound.log), bound.log)
      ensures used.bytesRead <= used0.bytesRead + bound.limits.maxRecordBytes
      ensures err.None? ==> ValidRetention(r) && r.operationId == op && bound.pc == ForgetImport(r)
      ensures err.None? || err == Some(ExchangeNotFound) || err == Some(CorruptExchange) || err == Some(InvalidExchange)
              || err == Some(RetentionPolicy) || Inconclusive(err.value)
      ensures bound.exclusive ==> bound.records == old(bound.records)
      ensures bound.exclusive && err.None? ==> Retention(r) in bound.records && !OriginalsRemain(bound.records, r)
      ensures bound.exclusive && Retention(r) !in bound.records ==> err == Some(ExchangeNotFound) || err == Some(Interrupted)
      ensures bound.exclusive && err == Some(ExchangeNotFound) ==> Retention(r) !in bound.records
      ensures bound.exclusive && err.Some? && Selected(bound.records, ForgetMarker(r, op), None) ==>
                Inconclusive(err.value) || ForgetRefused(bound.records, r, op, err.value)
      ensures bound.exclusive && Calm(old(bound.log), bound.log) && Small(bound, bound.records) ==> Settled(err)
    {
      hide *;
      SmallAll(bound, bound.records);
      ghost var absent := AbsentPlaces(r, false);
      FreshScript(r, op);
      ForgetNothing(bound.records, r, op, used0);
      MarkerAbsent(bound.records, r, op);
      AnyInconclusive();
      LaterAlways();
      err := None;
      var loaded, size := bound.Look(Retention(r));
      Looked(bound.seen, Retention(r), loaded, bound.records);
      used := Usage(used0.passes, used0.recordsRead + 1, used0.bytesRead + size);
      if loaded.Absent? { return used, Some(ExchangeNotFound); }
      if loaded.Fault? { return used, Some(Interrupted); }
      if !ValidRetention(r) { return used, Some(CorruptExchange); }
      if r.operationId != op { return used, Some(InvalidExchange); }
      var remain, presenceErr := RetainedOriginalsRemain(r, absent, STOP);
      if presenceErr.Some? { return used, presenceErr; }
      if remain { return used, Some(RetentionPolicy); }
    }

    /** Publishes the marker of a tombstone whose originals are gone, and completes. */
    method PublishMarker(r: RetentionRecord, op: string, receipt0: RetentionReceipt) returns (receipt: RetentionReceipt, err: Option<Err>)
      requires bound.Valid() && bound.pc == ForgetImport(r) && ValidRetention(r) && r.operationId == op
      requires receipt0 == RetentionReceipt(false, Some(r), 0, 0, 0, 0, [], receipt0.used)
      modifies bound
      ensures bound.Valid() && Later(old(bound.log), bound.log)
      ensures Accounted(receipt, 2) && (receipt.complete <==> err.None?)
      ensures receipt.retention == Some(r) && receipt.used == receipt0.used
      ensures err.None? ==> bound.pc == Done(ForgetDone(r))
      ensures err.None? || err == Some(Interrupted) || err == Some(Unverified) || err == Some(RetentionPolicy)
      ensures var s := old(bound.records);
              bound.exclusive && Retention(r) in s && !OriginalsRemain(s, r) ==>
                ForgetEffect(s, bound.records, r, op, receipt, err) && err != Some(RetentionPolicy)
      ensures bound.exclusive && Calm(old(bound.log), bound.log) && Small(bound, old(bound.records)) ==>
                (!bound.TooBig(Record.Forget(ForgetFor(r))) ==> Settled(err))
    {
      hide *;
      AnyInconclusive();
      SmallMore(bound, bound.records, Record.Forget(ForgetFor(r)));
      FreshScript(r, op);
      ForgetStarts(bound.records, r, op, receipt0);
      NoForgetYet(receipt0);
      LaterAlways();
      receipt, err := receipt0, None;
      var imported := bound.Import(Record.Forget(ForgetFor(r)));
      Published(bound.seen, Record.Forget(ForgetFor(r)), imported, bound.records);
      if imported.Fault? { return receipt, Some(Interrupted); }
      var wrote := if imported.written then 1 else 0;
      receipt := receipt.(publicationWrites := wrote, writes := wrote);
      ghost var s1 := bound.records;
      receipt, err := CompleteForget(r, receipt);
      MarkerEnds(old(bound.records), s1, bound.records, r, op, receipt, err);
    }

    /** No marker yet: load the tombstone, refuse while originals remain, publish the marker. */
    method ForgetFresh(r: RetentionRecord, op: string, receipt0: RetentionReceipt)
      returns (receipt: RetentionReceipt, err: Option<Err>)
      requires bound.Valid() && bound.pc == ForgetLoad(r, op)
      requires receipt0 == RetentionReceipt(false, None, 0, 0, 0, 0, [], receipt0.used)
      modifies bound
      ensures bound.Valid() && Later(old(bound.log), bound.log)
      ensures Accounted(receipt, 2) && (receipt.complete <==> err.None?)
      ensures receipt.used.bytesRead <= receipt0.used.bytesRead + bound.limits.maxRecordBytes
      ensures err.None? ==> receipt.retention == Some(r) && r.operationId == op && bound.pc == Done(ForgetDone(r))
      ensures err != Some(Closed)
      ensures err == Some(Oversized) ==> bound.TooBig(Record.Forget(ForgetFor(r)))
      ensures bound.exclusive && Retention(r) !in old(bound.records) ==> err == Some(ExchangeNotFound) || err == Some(Interrupted)
      ensures var s := old(bound.records);
              bound.exclusive && Selected(s, ForgetMarker(r, op), None) ==>
                && ForgetEffect(s, bound.records, r, op, receipt, err)
                && (err.None? || Inconclusive(err.value) || err == Some(Oversized) || ForgetRefused(s, r, op, err.value))
      ensures bound.exclusive && Calm(old(bound.log), bound.log) && Small(bound, old(bound.records)) ==> Settled(err)
    {
      hide *;
      MarkerAbsent(bound.records, r, op);
      AnyInconclusive();
      LaterAlways();
      receipt, err := receipt0, None;
      var used;
      used, err := LoadForgettable(r, op, receipt.used);
      receipt := receipt.(used := used);
      NoForgetYet(receipt);
      ForgetNothing(bound.records, r, op, used);
      if err.Some? { return receipt, err; }
      if bound.TooBig(Record.Forget(ForgetFor(r))) { return receipt, Some(Oversized); }
      receipt := receipt.(retention := Some(r));
      receipt, err := PublishMarker(r, op, receipt);
    }

    /** A marker exists: an earlier forget published it and may have stopped anywhere after. */
    method ForgetResume(r: RetentionRecord, op: string, found: Record, receipt0: RetentionReceipt)
      returns (receipt: RetentionReceipt, err: Option<Err>)
      requires bound.Valid() && bound.pc == ScanExit(ForgetMarker(r, op), Some(found))
      requires Selects(ForgetMarker(r, op), found) && Decodes(found)
      requires receipt0 == RetentionReceipt(false, None, 0, 0, 0, 0, [], receipt0.used)
      modifies bound
      ensures bound.Valid() && Later(old(bound.log), bound.log)
      ensures Accounted(receipt, 2) && (receipt.complete <==> err.None?) && receipt.used == receipt0.used
      ensures err.None? ==> receipt.retention == Some(r) && r.operationId == op && bound.pc == Done(ForgetDone(r))
      ensures err != Some(Closed) && err != Some(Oversized)
      ensures var s := old(bound.records);
              bound.exclusive && found in s ==>
                && ForgetEffect(s, bound.records, r, op, receipt, err)
                && (err.None? || Inconclusive(err.value) || ForgetRefused(s, r, op, err.value))
                && (Calm(old(bound.log), bound.log) && Small(bound, s) ==> Settled(err))
    {
      hide *;
      ForgetNothing(bound.records, r, op, receipt0.used);
      MarkerFound(bound.records, r, op, found);
      AnyInconclusive();
      LaterAlways();
      receipt, err := receipt0, None;
      NoForgetYet(receipt);
      if found.forget.operationId != op { return receipt, Some(CorruptExchange); }
      receipt := receipt.(retention := Some(r));
      NoForgetYet(receipt);
      receipt, err := CompleteForget(r, receipt);
      ResumeEnds(old(bound.records), bound.records, r, op, found, receipt, err);
    }

    /** Looks for the marker of an earlier forget. */
    method FindMarker(r: RetentionRecord, op: string) returns (found: Option<Record>, usage: Usage, err: Option<Err>)
      requires bound.Valid() && bound.pc == ScanStart(ForgetMarker(r, op))
      modifies bound
      ensures bound.Valid() && Later(old(bound.log), bound.log)
      ensures usage.bytesRead <= bound.limits.maxStatusBytes
      ensures err.None? ==> bound.pc == ScanExit(ForgetMarker(r, op), found)
      ensures err.None? && found.Some? ==> Selects(ForgetMarker(r, op), found.value) && Decodes(found.value)
      ensures err != Some(Closed) && err != Some(ExchangeNotFound) && err != Some(Oversized)
      ensures bound.exclusive ==> bound.records == old(bound.records)
      ensures bound.exclusive && err.None? ==> Selected(bound.records, ForgetMarker(r, op), found)
      ensures bound.exclusive && err.Some? ==> Inconclusive(err.value) || (err == Some(CorruptExchange) && !WellFormed(bound.records))
      ensures bound.exclusive && Calm(old(bound.log), bound.log) && Small(bound, bound.records) ==>
                (RoomTwice(bound, bound.records, ForgetKind, 0) ==> Settled(err))
    {
      hide *;
      MarkerGoal(r, op);
      ForgetScanFails(bound.records, r, op);
      AnyInconclusive();
      LaterAlways();
      var listed;
      ghost var at;
      listed, found, usage, err, at := ScanStable(ForgetMarker(r, op), Usage(0, 0, 0));
    }

    /**
      Irreversibly removes one explicitly selected tombstone behind its marker, or resumes doing so.
      `r` stands for the tombstone's record ID.
     */
    method Forget(r: RetentionRecord, op: string) returns (receipt: RetentionReceipt, err: Option<Err>)
      requires bound.Valid()
      modifies bound
      ensures bound.Valid() && Later(old(bound.log), bound.log)
      ensures Accounted(receipt, 2) && (receipt.complete <==> err.None?)
      ensures err.None? ==> receipt.retention == Some(r) && r.operationId == op && bound.pc == Done(ForgetDone(r))
      ensures receipt.used.bytesRead <= bound.limits.maxStatusBytes + bound.limits.maxRecordBytes
      ensures err == Some(Closed) <==> closed
      ensures !closed && !ValidSha256Id(op) ==> err == Some(InvalidExchange)
      ensures bound.exclusive ==> ForgetEffect(old(bound.records), bound.records, r, op, receipt, err)
      ensures bound.exclusive && !closed && ValidSha256Id(op) && Gone(old(bound.records), r) ==>
                err == Some(ExchangeNotFound) || Inconclusive(err.value)
      ensures bound.exclusive && !closed ==>
                err.None? || Inconclusive(err.value) || err == Some(Oversized) || ForgetRefused(old(bound.records), r, op, err.value)
      ensures err == Some(Oversized) ==> bound.TooBig(Record.Forget(ForgetFor(r)))
      // a failure has its reason in the store, in the limits, or in a fault
      ensures bound.exclusive && Calm(old(bound.log), bound.log) && Small(bound, old(bound.records)) ==>
                (RoomTwice(bound, old(bound.records), ForgetKind, 0) ==> Settled(err))
      // what can be forgotten, or resumed, is forgotten
      ensures bound.exclusive && Calm(old(bound.log), bound.log) && !closed && CanForget(bound, old(bound.records), r, op) ==>
                err.None? && bound.records == ForgetStage(old(bound.records), r, 2)
    {
      hide *;
      AnyInconclusive();
      ForgetCompletesIf(bound, bound.records, r, op);
      ForgetBegins(bound.Now(), r, op);
      LaterAlways();
      receipt, err := RetentionReceipt(false, None, 0, 0, 0, 0, [], Usage(0, 0, 0)), None;
      NoForgetYet(receipt);
      if closed {
        ForgetStays(bound.records, r, op, receipt, Closed);
        return receipt, Some(Closed);
      }
      if !ValidSha256Id(op) {
        ForgetStays(bound.records, r, op, receipt, InvalidExchange);
        ForgetInvalid(bound.records, r, op);
        return receipt, Some(InvalidExchange);
      }
      bound.Begin(ScanStart(ForgetMarker(r, op)));
      var found, used, scanErr := FindMarker(r, op);
      receipt := receipt.(used := used);
      NoForgetYet(receipt);
      if scanErr.Some? {
        ForgetStays(bound.records, r, op, receipt, scanErr.value);
        GoneOnly(bound.records, r);
        if bound.exclusive && !Inconclusive(scanErr.value) { ForgetInvalidRecord(bound.records, r, op); }
        return receipt, scanErr;
      }
      if found.Some? {
        FoundIn(bound.records, r, op, found.value);
        MarkerFound(bound.records, r, op, found.value);
        GoneOnly(bound.records, r);
        receipt, err := ForgetResume(r, op, found.value, receipt);
      } else {
        StartForget(bound.records, r, op);
        GoneOnly(bound.records, r);
        receipt, err := ForgetFresh(r, op, receipt);
      }
    }
  }
}
