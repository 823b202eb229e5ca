/**
  The protocol programs place by place: small facts about `Want` and `Advance` that the session
  methods use with both hidden, and what the loops of a scan establish.
 */
module Scripts {
  import opened Basics
  import opened Records
  import opened Program
  import opened Journal
  import opened Metastore
  import opened Sequential

  /** The place of an outcome scan inside ReserveAttempt or Status. */
  ghost function ScanPlace(start: Pc, queue: seq<Record>, found: Option<OutcomeRecord>): Pc
    requires start.ReserveList? || start.StatusList?
  {
    if start.ReserveList? then ReserveNext(start.intent, queue, found)
    else StatusNext(start.intent, start.caller, queue, found)
  }

  /** The places of a call that verifies `refs` in order and goes on to the last place. */
  ghost predicate Leads(places: seq<Pc>, refs: seq<Record>) {
    && |places| == |refs| + 1
    && forall k {:trigger places[k]} :: 0 <= k < |refs| ==> Want(places[k]) == LookOp(refs[k]) && Advance(places[k], Found) == places[k + 1]
  }

  /** Place by place, for loops in which `Want` and `Advance` are hidden. */
  lemma PlaceAt(places: seq<Pc>, refs: seq<Record>, k: nat)
    requires Leads(places, refs)
    ensures |places| == |refs| + 1
    ensures k < |refs| ==> Want(places[k]) == LookOp(refs[k]) && Advance(places[k], Found) == places[k + 1]
  {
    hide Want, Advance;
  }

  lemma AbsentAt(places: seq<Pc>, r: RetentionRecord, hit: Pc, k: nat)
    requires LeadsAbsent(places, r, hit)
    ensures |places| == 4
    ensures k < 3 ==>
              && Want(places[k]) == LookOp(Original(r, k))
              && Advance(places[k], Absent) == places[k + 1]
              && Advance(places[k], Found) == hit
  {
    hide Want, Advance, Original;
  }

  lemma AllPresent(refs: seq<Record>, s: set<Record>)
    requires forall k :: 0 <= k < |refs| ==> refs[k] in s
    ensures forall r :: r in refs ==> r in s
  {
  }

  /** Where a call of a session may begin. */
  lemma ReserveBegins(v: View, i: IntentRecord)
    ensures i in v.verified ==> Legal(v, Begin(ReserveCheck(i)))
  {
  }

  lemma StatusBegins(v: View, i: IntentRecord)
    ensures Legal(v, Begin(ScanStart(StatusForget(i, Api))))
  {
  }

  lemma PruneBegins(v: View, i: IntentRecord, op: string)
    ensures Legal(v, Begin(ScanStart(PruneForget(i, op))))
  {
  }

  lemma ForgetBegins(v: View, r: RetentionRecord, op: string)
    ensures Legal(v, Begin(ScanStart(ForgetMarker(r, op))))
  {
  }

  /** A reservation that has acquired holds the last authority of its session, unbound. */
  lemma AcquiredGrant(bound: Bound)
    requires bound.Valid() && bound.pc.Acquired?
    ensures var grants := bound.Now().grants;
            grants != [] && grants[|grants| - 1] == Reservation(bound.pc.intent, None)
  {
    hide Replay, LegalLog, Ranked;
    LogKnows(bound.log.actions);
  }

  /** A bound authority stays bound to its observation. */
  lemma StillBound(p: Log, q: Log, g: nat)
    requires LegalLog(q.actions) && Later(p, q)
    requires g < |Replay(p.actions).grants| && Replay(p.actions).grants[g].bound.Some?
    ensures g < |Replay(q.actions).grants| && Replay(q.actions).grants[g] == Replay(p.actions).grants[g]
  {
    Grows(p.actions, q.actions);
  }

  lemma PlaceWants(start: Pc)
    requires start.ReserveList? || start.StatusList?
    ensures Want(start) == ListOp(OutcomeKind)
  {
  }

  lemma AnyInconclusive()
    ensures forall err :: Inconclusive(err) <==> err.Interrupted? || err.Unverified? || err.StatusIncomplete?
    ensures forall err {:trigger Settled(err)} ::
              Settled(err) <==> err != Some(Interrupted) && err != Some(Unverified) && err != Some(StatusIncomplete)
  {
  }

  lemma OnlyOutcomes(listed: seq<Record>)
    requires forall r :: r in listed ==> KindOf(r) == OutcomeKind
    ensures listed == listed[0..] && forall r :: r in listed ==> r.Outcome?
  {
  }

  // ---------------------------------------------------------------- responses

  lemma Looked(s: set<Record>, r: Record, resp: Response, s': set<Record>)
    requires Responds(s, LookOp(r), resp, s')
    ensures s' == s && (resp.Found? ==> r in s) && (resp.Absent? ==> r !in s)
    ensures resp.Found? || resp.Absent? || resp.Fault?
  {
  }

  lemma Published(s: set<Record>, r: Record, resp: Response, s': set<Record>)
    requires Responds(s, ImportOp(r), resp, s')
    ensures resp.Imported? ==> s' == s + {r} && resp.written == (r !in s)
    ensures resp.Fault? ==> s' == s || s' == s + {r}
    ensures resp.Imported? || resp.Fault?
  {
  }

  lemma ListedAll(s: set<Record>, k: Kind, resp: Response, s': set<Record>)
    requires Responds(s, ListOp(k), resp, s')
    ensures s' == s && (resp.Listed? ==> Enumerates(resp.records, s, k))
    ensures resp.Listed? || resp.Fault?
  {
  }

  // ---------------------------------------------------------------- the programs, place by place

  lemma ReserveScript(i: IntentRecord)
    ensures Want(ReserveCheck(i)) == LookOp(Intent(i)) && Advance(ReserveCheck(i), Found) == ReserveImport(i)
    ensures Want(ReserveImport(i)) == ImportOp(Marker(i)) && Advance(ReserveImport(i), Imported(true)) == ReserveList(i)
    ensures Want(ReserveList(i)) == ListOp(OutcomeKind)
    ensures ScanPlace(ReserveList(i), [], None) == ReserveVerify(i, 0)
    ensures |ReserveSet(i)| == 2
  {
  }

  lemma MarkerDecodes(i: IntentRecord)
    requires ValidIntent(i)
    ensures Decodes(Marker(i))
  {
    ValidChain(i);
  }

  lemma ReserveEnds(s: set<Record>, i: IntentRecord)
    requires ValidIntent(i)
    ensures ReserveEffect(s, s, i, Some(Interrupted))
    ensures Intent(i) !in s ==> ReserveEffect(s, s, i, Some(RetentionPolicy))
    ensures Intent(i) in s ==>
              ReserveEffect(s, s, i, Some(Oversized)) && ReserveEffect(s, s + {Marker(i)}, i, Some(Interrupted))
    ensures Intent(i) in s && Marker(i) in s ==> ReserveEffect(s, s + {Marker(i)}, i, Some(AlreadyReserved))
    ensures Intent(i) in s && Marker(i) !in s ==>
              && (NoOutcome(s, i) ==> ReserveEffect(s, s + {Marker(i)}, i, None))
              && (!NoOutcome(s, i) || !WellFormed(s + {Marker(i)}) ==> ReserveEffect(s, s + {Marker(i)}, i, Some(CorruptExchange)))
  {
    hide NoOutcome, ValidIntent, AttemptMatchesIntent;
    ValidChain(i);
    assert Decodes(Marker(i)) by { MarkerDecodes(i); }
    assert Marker(i) in s ==> s + {Marker(i)} == s;
  }

  /** A reservation that nothing in the store stands against. */
  lemma ReserveSucceeds(s: set<Record>, s': set<Record>, i: IntentRecord, err: Option<Err>)
    requires ReserveEffect(s, s', i, err) && Reservable(s, i)
    ensures err.None? || !(err.value.RetentionPolicy? || err.value.AlreadyReserved? || err.value.CorruptExchange?)
  {
    hide WellFormed;
  }

  /** A reservation that fails after its publication, for a reason outside the store. */
  lemma ReserveFails(s: set<Record>, i: IntentRecord, err: Err)
    requires Inconclusive(err) || err.RecordNotFound?
    ensures Intent(i) in s ==> ReserveEffect(s, s + {Marker(i)}, i, Some(err))
  {
    hide NoOutcome;
  }

  lemma NothingReserved(s: set<Record>, i: IntentRecord)
    ensures ReserveEffect(s, s, i, Some(Closed)) && ReserveEffect(s, s, i, Some(InvalidExchange))
  {
  }

  /** Two records looked up in a row. */
  lemma TwoPlaces(a: Pc, b: Pc, c: Pc, x: Record, y: Record)
    requires Want(a) == LookOp(x) && Advance(a, Found) == b
    requires Want(b) == LookOp(y) && Advance(b, Found) == c
    ensures Leads([a, b, c], [x, y])
  {
    hide Want, Advance;
  }

  lemma ReservePlaces(i: IntentRecord) returns (places: seq<Pc>)
    ensures Leads(places, ReserveSet(i)) && places[0] == ReserveVerify(i, 0) && places[|ReserveSet(i)|] == Acquired(i)
  {
    hide *;
    ReserveSteps(i);
    TwoPlaces(ReserveVerify(i, 0), ReserveVerify(i, 1), Acquired(i), Intent(i), Marker(i));
    places := [ReserveVerify(i, 0), ReserveVerify(i, 1), Acquired(i)];
  }

  lemma ReserveSteps(i: IntentRecord)
    ensures ReserveSet(i) == [Intent(i), Marker(i)]
    ensures Want(ReserveVerify(i, 0)) == LookOp(Intent(i)) && Advance(ReserveVerify(i, 0), Found) == ReserveVerify(i, 1)
    ensures Want(ReserveVerify(i, 1)) == LookOp(Marker(i)) && Advance(ReserveVerify(i, 1), Found) == Acquired(i)
  {
  }

  lemma MarkerIsNoOutcome(s: set<Record>, i: IntentRecord)
    ensures OutcomeScan(s + {Marker(i)}, i, None) <==> NoOutcome(s, i)
  {
    assert forall o :: Outcome(o) in s + {Marker(i)} <==> Outcome(o) in s;
  }

  lemma NotNone(s: set<Record>, i: IntentRecord, o: OutcomeRecord)
    ensures OutcomeScan(s, i, Some(o)) ==> !OutcomeScan(s, i, None)
  {
    hide Linked;
  }

  lemma OutcomeScript(i: IntentRecord, o: OutcomeRecord)
    ensures Want(OutcomeImport(i, o)) == ImportOp(Outcome(o))
    ensures forall w :: Advance(OutcomeImport(i, o), Imported(w)) == OutcomeVerify(i, o, 0)
  {
  }

  lemma OutcomePlaces(i: IntentRecord, o: OutcomeRecord) returns (places: seq<Pc>)
    ensures Leads(places, OutcomeSet(i, o)) && |OutcomeSet(i, o)| == 3
    ensures places[0] == OutcomeVerify(i, o, 0) && places[3] == Done(OutcomeStored(o))
  {
    hide Want, Advance, OutcomeSet;
    places := seq(3, (k: nat) => OutcomeVerify(i, o, k)) + [Done(OutcomeStored(o))];
    OutcomeStep(i, o, 0);
    forall k | 0 <= k < 3
      ensures Want(places[k]) == LookOp(OutcomeSet(i, o)[k]) && Advance(places[k], Found) == places[k + 1]
    {
      OutcomeStep(i, o, k);
    }
  }

  lemma OutcomeSetIs(i: IntentRecord, o: OutcomeRecord)
    ensures forall r :: r in OutcomeSet(i, o) <==> r == Intent(i) || r == Marker(i) || r == Outcome(o)
  {
  }

  lemma OutcomeStep(i: IntentRecord, o: OutcomeRecord, k: nat)
    requires k < 3
    ensures |OutcomeSet(i, o)| == 3 && Want(OutcomeVerify(i, o, k)) == LookOp(OutcomeSet(i, o)[k])
    ensures Advance(OutcomeVerify(i, o, k), Found) == if k < 2 then OutcomeVerify(i, o, k + 1) else Done(OutcomeStored(o))
  {
  }

  lemma OutcomeEnds(s: set<Record>, i: IntentRecord, o: OutcomeRecord)
    ensures forall receipt :: OutcomeEffect(s, s, i, o, receipt, Some(Interrupted))
    ensures forall receipt :: OutcomeEffect(s, s + {Outcome(o)}, i, o, receipt, Some(Interrupted))
    ensures forall receipt :: OutcomeEffect(s, s + {Outcome(o)}, i, o, receipt, Some(Unverified))
    ensures (forall r :: r in OutcomeSet(i, o) ==> r in s + {Outcome(o)}) ==>
              forall receipt: OutcomeReceipt :: (receipt.writes == 1 <==> Outcome(o) !in s) ==>
                OutcomeEffect(s, s + {Outcome(o)}, i, o, receipt, None)
  {
    if forall r :: r in OutcomeSet(i, o) ==> r in s + {Outcome(o)} {
      assert Intent(i) in OutcomeSet(i, o) && Marker(i) in OutcomeSet(i, o);
    }
  }

  // ---------------------------------------------------------------- about Status

  /** The places of a presence check over the chain, which ends at the first record present. */
  ghost predicate LeadsAbsent(places: seq<Pc>, r: RetentionRecord, hit: Pc) {
    && |places| == 4
    && forall k {:trigger places[k]} :: 0 <= k < 3 ==>
         && Want(places[k]) == LookOp(Original(r, k))
         && Advance(places[k], Absent) == places[k + 1]
         && Advance(places[k], Found) == hit
  }

  lemma RemainsIf(s: set<Record>, r: RetentionRecord)
    ensures OriginalsRemain(s, r) <==> exists k {:trigger Original(r, k)} :: 0 <= k < 3 && Original(r, k) in s
  {
    assert Original(r, 0) == r.intentRef.of && Original(r, 1) == r.attemptRef.of && Original(r, 2) == r.outcomeRef.of;
  }

  lemma LiveScript(i: IntentRecord, c: Caller)
    ensures Want(StatusIntent(i, c)) == LookOp(Intent(i)) && Advance(StatusIntent(i, c), Found) == StatusList(i, c)
    ensures StatusList(i, c).intent == i
  {
  }

  lemma LiveEnds(s: set<Record>, i: IntentRecord)
    ensures forall err :: Inconclusive(err) || err.Oversized? ==> LiveEffect(s, i, None, Some(err))
    ensures Intent(i) !in s ==> LiveEffect(s, i, None, Some(RecordNotFound))
    ensures Intent(i) in s && !ValidIntent(i) ==> LiveEffect(s, i, None, Some(CorruptExchange))
    ensures (Intent(i) in s && forall m :: !OutcomeScan(s, i, m)) || !WellFormed(s) ==> LiveEffect(s, i, None, Some(CorruptExchange))
  {
    hide OutcomeScan, ValidIntent;
    assert Intent(i) in s && !Decodes(Intent(i)) ==> !WellFormed(s);
  }

  lemma LiveLooks(i: IntentRecord, c: Caller, m: Option<OutcomeRecord>)
    ensures ScanPlace(StatusList(i, c), [], m) == StatusAttempt(i, c, m)
    ensures Want(StatusAttempt(i, c, m)) == LookOp(Marker(i))
    ensures Advance(StatusAttempt(i, c, m), Found) == StatusVerify(i, c, true, m, 0)
    ensures m.None? ==> Advance(StatusAttempt(i, c, m), Absent) == StatusVerify(i, c, false, m, 0)
  {
  }

  lemma StatusPlaces(i: IntentRecord, c: Caller, marked: bool, m: Option<OutcomeRecord>) returns (places: seq<Pc>)
    requires m.Some? ==> marked
    ensures var refs := StatusSet(i, marked, m);
            && 0 < |refs| && Leads(places, refs)
            && places[0] == StatusVerify(i, c, marked, m, 0)
            && places[|refs|] == StatusExit(i, c, CandidateState(marked, m), m)
  {
    hide StatusExit, CandidateState, Want, Advance, StatusSet;
    StatusSetSize(i, marked, m);
    var refs := StatusSet(i, marked, m);
    places := seq(|refs|, (k: nat) => StatusVerify(i, c, marked, m, k)) + [StatusExit(i, c, CandidateState(marked, m), m)];
    forall k | 0 <= k < |refs|
      ensures Want(places[k]) == LookOp(refs[k]) && Advance(places[k], Found) == places[k + 1]
    {
      assert places[k] == StatusVerify(i, c, marked, m, k);
      StatusStep(i, c, marked, m, k);
    }
  }

  lemma StatusSetSize(i: IntentRecord, marked: bool, m: Option<OutcomeRecord>)
    ensures 0 < |StatusSet(i, marked, m)|
  {
  }

  lemma StatusStep(i: IntentRecord, c: Caller, marked: bool, m: Option<OutcomeRecord>, k: nat)
    requires k < |StatusSet(i, marked, m)|
    ensures Want(StatusVerify(i, c, marked, m, k)) == LookOp(StatusSet(i, marked, m)[k])
    ensures Advance(StatusVerify(i, c, marked, m, k), Found) ==
              if k + 1 < |StatusSet(i, marked, m)| then StatusVerify(i, c, marked, m, k + 1)
              else StatusExit(i, c, CandidateState(marked, m), m)
  {
    hide StatusExit, CandidateState, StatusSet;
  }

  lemma LiveOrphan(s: set<Record>, i: IntentRecord, o: OutcomeRecord)
    ensures Intent(i) in s && Marker(i) !in s && OutcomeScan(s, i, Some(o)) ==> LiveEffect(s, i, None, Some(CorruptExchange))
  {
    if Marker(i) !in s && OutcomeScan(s, i, Some(o)) {
      hide OutcomeMatches;
      forall st ensures !LiveStatus(s, i, st) {
        hide WellFormed;
      }
    }
  }

  lemma LiveReport(s: set<Record>, i: IntentRecord, marked: bool, m: Option<OutcomeRecord>, st: StatusReport)
    requires ValidIntent(i) && (m.Some? ==> marked && Linked(m.value, i))
    requires st == StatusReport(CandidateState(marked, m), if marked then Some(AttemptFromIntent(i)) else None, m, None, None)
    ensures LiveShape(i, st)
    ensures (forall r :: r in StatusSet(i, marked, m) ==> r in s) && OutcomeScan(s, i, m) && (marked <==> Marker(i) in s) ==>
              LiveEffect(s, i, Some(st), None)
  {
    hide OutcomeMatches, OutcomeScan, CandidateState;
    assert Intent(i) in StatusSet(i, marked, m);
  }

  lemma StatusScript(i: IntentRecord, c: Caller)
    ensures ScanExit(StatusForget(i, c), None) == ScanStart(StatusRetention(i, c))
    ensures ScanExit(StatusRetention(i, c), None) == StatusIntent(i, c)
  {
  }

  /** What a scan selects does not depend on who asked. */
  lemma AnyCaller(s: set<Record>, i: IntentRecord, c: Caller, found: Option<Record>)
    ensures Selected(s, StatusForget(i, c), found) <==> Selected(s, StatusForget(i, Api), found)
    ensures Selected(s, StatusRetention(i, c), found) <==> Selected(s, StatusRetention(i, Api), found)
  {
  }

  lemma ScanGoals(i: IntentRecord, c: Caller)
    ensures GoalKind(StatusForget(i, c)) == ForgetKind && GoalKind(StatusRetention(i, c)) == RetentionKind
  {
  }

  /** What is verified before a live status is reported: the whole chain that the report names. */
  lemma StatusSetIs(i: IntentRecord, marked: bool, m: Option<OutcomeRecord>)
    requires m.Some? ==> marked
    ensures forall r :: r in StatusSet(i, marked, m) <==>
              r == Intent(i) || (marked && r == Marker(i)) || (m.Some? && r == Outcome(m.value))
  {
  }

  lemma StatusSetIn(s: set<Record>, i: IntentRecord, marked: bool, m: Option<OutcomeRecord>)
    requires m.Some? ==> marked
    ensures Intent(i) in s && (marked ==> Marker(i) in s) && OutcomeScan(s, i, m) ==> forall r :: r in StatusSet(i, marked, m) ==> r in s
  {
    hide Linked, StatusSet;
    StatusSetIs(i, marked, m);
  }

  lemma LiveTells(i: IntentRecord, st: StatusReport)
    requires LiveShape(i, st)
    ensures st.outcome.Some? ==> Tells(st.state, st.outcome.value.receipt)
  {
    hide ValidReceipt, ValidIntent, AttemptMatchesIntent, Tells, StateFromOutcome;
    if st.outcome.Some? { StateTells(st.outcome.value.receipt); }
  }

  /** An operation with a status is not nowhere. */
  lemma StatusSomewhere(s: set<Record>, i: IntentRecord, st: StatusReport)
    requires StatusOf(s, i, st)
    ensures !Nowhere(s, i)
  {
    hide Selects;
  }

  lemma StatusOpens(s: set<Record>, i: IntentRecord, c: Caller)
    ensures !WellFormed(s) || (forall m :: !Selected(s, StatusForget(i, c), m)) ==> Undecided(s, i)
    ensures Selected(s, StatusForget(i, c), None) && (forall m :: !Selected(s, StatusRetention(i, c), m)) ==> Undecided(s, i)
  {
    hide Selected, LiveStatus, WellFormed;
    forall m { AnyCaller(s, i, c, m); }
    forall f | Selected(s, StatusForget(i, c), None) ensures !Selected(s, StatusForget(i, Api), Some(f)) {
      SelectedNot(s, StatusForget(i, Api), f);
    }
  }

  /** What a found forget marker reports. */
  lemma StatusForgetting(s: set<Record>, i: IntentRecord, c: Caller, found: Record)
    requires Selects(StatusForget(i, c), found) && Decodes(found)
    ensures found.Forget?
    ensures var r := found.forget.retention;
            var st := StatusReport(Forgetting, Some(r.attempt), Some(r.outcome), Some(r), Some(found.forget));
            && Shaped(i, st)
            && ScanExit(StatusForget(i, c), Some(found)) == StatusExit(i, c, Forgetting, Some(r.outcome))
            && (Selected(s, StatusForget(i, c), Some(found)) ==> StatusOf(s, i, st))
  {
    hide StatusExit, ValidIntent, ValidAttempt, OutcomeMatches, Selected;
    RetentionDeterministic(found.forget.retention);
    AnyCaller(s, i, c, Some(found));
  }

  lemma RetainedShape(s: set<Record>, i: IntentRecord, c: Caller, found: Record)
    requires Selects(StatusRetention(i, c), found) && Decodes(found)
    ensures found.Retention? && found.retention.intent == i
    ensures ScanExit(StatusRetention(i, c), Some(found)) == StatusRemain(i, c, found.retention, 0)
    ensures forall v: Verdict :: v.Pruning? || v.Pruned? ==>
              Shaped(i, StatusReport(v, Some(found.retention.attempt), Some(found.retention.outcome), Some(found.retention), None))
    ensures Selected(s, StatusForget(i, c), None) && Selected(s, StatusRetention(i, c), Some(found)) ==>
              StatusOf(s, i, RetainedReport(found.retention, OriginalsRemain(s, found.retention)))
  {
    hide Linked, ValidRetention, Selected, OriginalsRemain, ValidIntent, RetentionFor;
    TombstoneFacts(i, c, found);
    AnyCaller(s, i, c, Some(found));
    AnyCaller(s, i, c, None);
  }

  lemma TombstoneFacts(i: IntentRecord, c: Caller, found: Record)
    requires Selects(StatusRetention(i, c), found) && Decodes(found)
    ensures found.Retention? && ValidRetention(found.retention) && found.retention.intent == i
    ensures ValidIntent(i) && found.retention.attempt == AttemptFromIntent(i) && Linked(found.retention.outcome, i)
  {
    hide ValidIntent, ValidAttempt, ValidOutcome;
    RetentionDeterministic(found.retention);
  }

  lemma RetainedIs(r: RetentionRecord, remain: bool)
    ensures RetainedReport(r, remain) ==
              StatusReport(if remain then Pruning else Pruned, Some(r.attempt), Some(r.outcome), Some(r), None)
  {
  }

  lemma RemainPlaces(i: IntentRecord, c: Caller, r: RetentionRecord) returns (places: seq<Pc>)
    ensures LeadsAbsent(places, r, StatusExit(i, c, Pruning, Some(r.outcome)))
    ensures places[0] == StatusRemain(i, c, r, 0) && places[3] == StatusExit(i, c, Pruned, Some(r.outcome))
  {
    hide StatusExit, Want, Advance, Original;
    places := seq(3, (k: nat) => StatusRemain(i, c, r, k)) + [StatusExit(i, c, Pruned, Some(r.outcome))];
    forall k | 0 <= k < 3
      ensures Want(places[k]) == LookOp(Original(r, k)) && Advance(places[k], Absent) == places[k + 1]
              && Advance(places[k], Found) == StatusExit(i, c, Pruning, Some(r.outcome))
    {
      assert places[k] == StatusRemain(i, c, r, k);
      RemainStep(i, c, r, k);
    }
  }

  lemma RemainStep(i: IntentRecord, c: Caller, r: RetentionRecord, k: nat)
    requires k < 3
    ensures Want(StatusRemain(i, c, r, k)) == LookOp(Original(r, k))
    ensures Advance(StatusRemain(i, c, r, k), Found) == StatusExit(i, c, Pruning, Some(r.outcome))
    ensures Advance(StatusRemain(i, c, r, k), Absent) ==
              if k < 2 then StatusRemain(i, c, r, k + 1) else StatusExit(i, c, Pruned, Some(r.outcome))
  {
    hide StatusExit, Original;
  }

  lemma StatusLive(s: set<Record>, i: IntentRecord, c: Caller, report: Option<StatusReport>, err: Option<Err>)
    requires LiveEffect(s, i, report, err)
    requires Selected(s, StatusForget(i, c), None) && Selected(s, StatusRetention(i, c), None)
    requires report.Some? ==> LiveShape(i, report.value)
    ensures err.None? ==> report.Some? && StatusOf(s, i, report.value)
    ensures err == Some(RecordNotFound) ==> Nowhere(s, i)
    ensures err == Some(CorruptExchange) ==> Undecided(s, i)
  {
    hide Selected, LiveStatus, WellFormed, ValidIntent, OutcomeMatches;
    AnyCaller(s, i, c, None);
    forall f ensures !Selected(s, StatusForget(i, Api), Some(f)) && !Selected(s, StatusRetention(i, Api), Some(f)) {
      SelectedNot(s, StatusForget(i, Api), f);
      SelectedNot(s, StatusRetention(i, Api), f);
    }
  }

  lemma LiveShaped(i: IntentRecord, st: StatusReport)
    requires LiveShape(i, st)
    ensures Shaped(i, st)
  {
    hide ValidIntent, OutcomeMatches;
  }

  // ---------------------------------------------------------------- about Prune

  lemma Tally(q: seq<Removal>, last: Removal)
    ensures SumWrites(q + [last]) == SumWrites(q) + last.writes
    ensures CountRemoved(q + [last]) == CountRemoved(q) + if last.removed then 1 else 0
    ensures CountAbsent(q + [last]) == CountAbsent(q) + if last.alreadyAbsent then 1 else 0
  {
    assert (q + [last])[..|q|] == q;
  }

  lemma TombstonePlaces(r: RetentionRecord, finish: bool) returns (places: seq<Pc>)
    ensures Leads(places, TombstoneSet(r)) && |TombstoneSet(r)| == 2
    ensures finish ==> places[0] == PruneFinish(r, 0) && places[2] == Done(PruneDone(r))
    ensures !finish ==> places[0] == PruneConfirm(r, 0) && places[2] == PruneRemove(r, 0)
    ensures forall t :: t in TombstoneSet(r) <==> t == Retention(r)
  {
    hide *;
    TombstoneSteps(r);
    places := if finish then [PruneFinish(r, 0), PruneFinish(r, 1), Done(PruneDone(r))]
              else [PruneConfirm(r, 0), PruneConfirm(r, 1), PruneRemove(r, 0)];
    TwoPlaces(places[0], places[1], places[2], Retention(r), Retention(r));
  }

  lemma TombstoneSteps(r: RetentionRecord)
    ensures TombstoneSet(r) == [Retention(r), Retention(r)]
    ensures Want(PruneFinish(r, 0)) == Want(PruneFinish(r, 1)) == LookOp(Retention(r))
    ensures Want(PruneConfirm(r, 0)) == Want(PruneConfirm(r, 1)) == LookOp(Retention(r))
    ensures Advance(PruneFinish(r, 0), Found) == PruneFinish(r, 1) && Advance(PruneFinish(r, 1), Found) == Done(PruneDone(r))
    ensures Advance(PruneConfirm(r, 0), Found) == PruneConfirm(r, 1) && Advance(PruneConfirm(r, 1), Found) == PruneRemove(r, 0)
  {
  }

  lemma RemoveScript(r: RetentionRecord)
    ensures forall k: nat :: Want(PruneRemove(r, k)) == RemoveOp(Original(r, k)) && Advance(PruneRemove(r, k), Staged) == PruneRemove(r, k)
  {
  }

  lemma RemoveStep(r: RetentionRecord, k: nat, had: bool)
    requires k < 3
    ensures Advance(PruneRemove(r, k), Removed(had)) == if k < 2 then PruneRemove(r, k + 1) else PruneFinish(r, 0)
  {
  }

  lemma RemoveEnds(s: set<Record>, r: RetentionRecord)
    ensures s - FirstOriginals(r, 0) == s
    ensures forall err: Err, n: nat :: n <= 3 ==> RemovedFirst(s, s - FirstOriginals(r, n), r, n, Some(err))
    ensures forall err: Err, n: nat :: n < 3 ==> RemovedFirst(s, s - FirstOriginals(r, n), r, n + 1, Some(err))
    ensures RemovedFirst(s, s - FirstOriginals(r, 3), r, 3, None)
  {
    hide FirstOriginals;
    assert FirstOriginals(r, 0) == {} by { NoneFirst(r); }
  }

  lemma NoneFirst(r: RetentionRecord)
    ensures FirstOriginals(r, 0) == {}
  {
  }

  lemma RemoveNext(s: set<Record>, r: RetentionRecord, n: nat)
    requires n < 3
    ensures (s - FirstOriginals(r, n)) - {Original(r, n)} == s - FirstOriginals(r, n + 1)
  {
    hide Original;
    assert FirstOriginals(r, n) + {Original(r, n)} == FirstOriginals(r, n + 1);
  }

  lemma RemovedAll(s: set<Record>, s': set<Record>, r: RetentionRecord, n: nat)
    ensures RemovedFirst(s, s', r, n, None) ==> n == 3 && s' == s - FirstOriginals(r, 3)
  {
  }

  lemma NothingCounted(receipt: RetentionReceipt)
    requires Accounted(receipt, 3) && receipt.removals == []
    ensures receipt.recordsRemoved + receipt.recordsAlreadyAbsent == 0
  {
  }

  lemma CompleteAccount(receipt: RetentionReceipt)
    requires Accounted(receipt.(complete := false), 3) && |receipt.removals| == 3
    requires receipt.recordsRemoved + receipt.recordsAlreadyAbsent == 3
    ensures Accounted(receipt, 3)
  {
  }

  lemma PrunePlaces(r: RetentionRecord) returns (places: seq<Pc>)
    ensures Leads(places, PruneSet(r)) && |PruneSet(r)| == 8
    ensures places[0] == PruneConfirmSet(r, 0) && places[8] == PruneConfirm(r, 0)
  {
    hide Want, Advance, PruneSet;
    places := seq(8, (k: nat) => PruneConfirmSet(r, k)) + [PruneConfirm(r, 0)];
    PruneConfirms(r, 0);
    forall k | 0 <= k < 8
      ensures Want(places[k]) == LookOp(PruneSet(r)[k]) && Advance(places[k], Found) == places[k + 1]
    {
      PruneConfirms(r, k);
    }
  }

  lemma PruneConfirms(r: RetentionRecord, k: nat)
    requires k < 8
    ensures |PruneSet(r)| == 8 && Want(PruneConfirmSet(r, k)) == LookOp(PruneSet(r)[k])
    ensures Advance(PruneConfirmSet(r, k), Found) == if k < 7 then PruneConfirmSet(r, k + 1) else PruneConfirm(r, 0)
  {
  }

  lemma PublishScript(r: RetentionRecord, receipt: RetentionReceipt)
    requires receipt == RetentionReceipt(false, Some(r), 0, 0, 0, 0, [], receipt.used)
    ensures Want(PruneImport(r)) == ImportOp(Retention(r))
    ensures forall w :: Advance(PruneImport(r), Imported(w)) == PruneConfirmSet(r, 0)
    ensures Accounted(receipt, 3) && Accounted(receipt.(publicationWrites := 1, writes := 1), 3)
  {
  }

  lemma PruneEnds(s: set<Record>, r: RetentionRecord)
    ensures forall err: Err :: PruneReached(s, s, r, 0, Some(err)) && PruneReached(s, s + {Retention(r)}, r, 0, Some(err))
  {
  }

  lemma PruneReaches(s: set<Record>, s': set<Record>, r: RetentionRecord, n: nat, err: Option<Err>)
    ensures RemovedFirst(s + {Retention(r)}, s', r, n, err) ==> PruneReached(s, s', r, n, err)
  {
    hide FirstOriginals;
  }

  lemma PruneScript(i: IntentRecord, op: string)
    ensures ScanExit(PruneForget(i, op), None) == ScanStart(PruneRetention(i, op))
    ensures ScanExit(PruneRetention(i, op), None) == ScanStart(StatusForget(i, ByPrune(op)))
  {
  }

  lemma PruneUses(receipt: RetentionReceipt)
    requires receipt == RetentionReceipt(false, receipt.retention, 0, 0, 0, 0, [], receipt.used)
    ensures Accounted(receipt, 3)
  {
  }

  lemma NeverPrunable(s: set<Record>, i: IntentRecord, op: string, r: RetentionRecord)
    requires Prunable(s, i, op, r)
    ensures ValidSha256Id(op) && Selected(s, PruneForget(i, op), None)
    ensures Selected(s, PruneRetention(i, op), None) || Selected(s, PruneRetention(i, op), Some(Retention(r)))
  {
    hide Selected, Linked, SafeText, ValidReceipt, ValidAttempt, AttemptMatchesIntent, OutcomeMatches;
  }

  /** A prune that ends before a tombstone is known leaves the store unchanged. */
  lemma PruneStays(s: set<Record>, i: IntentRecord, op: string, receipt: RetentionReceipt, err: Option<Err>)
    requires receipt.retention.None? && err.Some? && err != Some(ExchangeNotFound)
    ensures PruneEffect(s, s, i, op, receipt, err)
  {
  }

  lemma PruneInvalid(s: set<Record>, i: IntentRecord, op: string)
    requires !ValidSha256Id(op)
    ensures PruneRefused(s, i, op, InvalidExchange)
  {
    hide ValidSha256Id;
  }

  lemma MarkerGoal(r: RetentionRecord, op: string)
    ensures GoalKind(ForgetMarker(r, op)) == ForgetKind
  {
  }

  lemma PruneGoals(i: IntentRecord, op: string)
    ensures GoalKind(PruneForget(i, op)) == ForgetKind && GoalKind(PruneRetention(i, op)) == RetentionKind
  {
  }

  /** The tombstone survives the removal of its chain. */
  lemma TombstoneStays(s: set<Record>, r: RetentionRecord)
    requires ValidRetention(r)
    ensures Retention(r) in s ==> Retention(r) in s - FirstOriginals(r, 3)
  {
    hide ValidIntent, ValidAttempt, OutcomeMatches;
  }

  /** What is verified before anything is removed: the tombstone and the chain it copies. */
  lemma PruneSetIs(r: RetentionRecord)
    ensures forall t :: t in PruneSet(r) <==> t == Retention(r) || t == Original(r, 0) || t == Original(r, 1) || t == Original(r, 2)
  {
    assert Original(r, 0) == r.intentRef.of && Original(r, 1) == r.attemptRef.of && Original(r, 2) == r.outcomeRef.of;
    assert forall t :: t in PruneSet(r) <==> t in [Retention(r), r.intentRef.of, r.attemptRef.of, r.outcomeRef.of];
  }

  lemma PruneSetIn(s: set<Record>, r: RetentionRecord)
    ensures (forall k :: 0 <= k < 3 ==> Original(r, k) in s) ==>
              forall t :: t in PruneSet(r) ==> t == Retention(r) || t in s
  {
    hide Original, PruneSet;
    PruneSetIs(r);
  }

  lemma PruneCorrupt(s: set<Record>, i: IntentRecord, op: string)
    ensures !WellFormed(s) || (forall m :: !Selected(s, PruneForget(i, op), m)) ==> PruneRefused(s, i, op, CorruptExchange)
    ensures Selected(s, PruneForget(i, op), None) && (forall m :: !Selected(s, PruneRetention(i, op), m)) ==>
              PruneRefused(s, i, op, CorruptExchange)
  {
    hide Selected, Undecided, StatusOf;
    forall m { SameSelection(s, i, op, m); }
    StatusOpens(s, i, Api);
  }

  lemma PruneBlocked(s: set<Record>, i: IntentRecord, op: string, found: Record)
    requires Selects(PruneForget(i, op), found) && Decodes(found)
    ensures found.Forget? && found.forget.operationId == i.operationId
    ensures Selected(s, PruneForget(i, op), Some(found)) ==>
              PruneRefused(s, i, op, if i.operationId != op then CorruptExchange else RetentionPolicy)
  {
    hide *;
    PruneSelects(i, op);
    SameSelection(s, i, op, Some(found));
    AnyCaller(s, i, ByPrune(op), Some(found));
    StatusForgetting(s, i, ByPrune(op), found);
    MarkerOperation(i, op, found);
    forall st | StatusOf(s, i, st) { StatusRefuses(s, i, op, st); }
  }

  lemma StatusRefuses(s: set<Record>, i: IntentRecord, op: string, st: StatusReport)
    requires StatusOf(s, i, st)
    ensures i.operationId != op ==> PruneRefused(s, i, op, if st.retention.Some? then CorruptExchange else InvalidExchange)
    ensures i.operationId == op && (st.forget.Some? || (st.retention.None? && !TerminalState(st.state))) ==>
              PruneRefused(s, i, op, RetentionPolicy)
  {
    hide StatusOf, Undecided, ValidSha256Id;
  }

  lemma MarkerOperation(i: IntentRecord, op: string, found: Record)
    requires Selects(PruneForget(i, op), found) && Decodes(found)
    ensures found.forget.operationId == i.operationId
  {
    hide ValidIntent, ValidAttempt, OutcomeMatches;
    ForgetDeterministic(found.forget);
    RetentionDeterministic(found.forget.retention);
  }

  lemma PruneResuming(s: set<Record>, i: IntentRecord, op: string, found: Record)
    requires Selects(PruneRetention(i, op), found) && Decodes(found)
    ensures found.Retention? && found.retention.intent == i && ValidRetention(found.retention)
    ensures found.retention.operationId == i.operationId
    ensures i.operationId == op ==> ScanExit(PruneRetention(i, op), Some(found)) == PruneConfirm(found.retention, 0)
    ensures Selected(s, PruneForget(i, op), None) && Selected(s, PruneRetention(i, op), Some(found)) && i.operationId != op ==>
              PruneRefused(s, i, op, CorruptExchange)
    ensures Selected(s, PruneRetention(i, op), Some(found)) && Selected(s, PruneForget(i, op), None) && i.operationId == op ==>
              Prunable(s, i, op, found.retention) && found in s
  {
    TombstonePrunes(s, i, op, found);
    hide ValidIntent, ValidAttempt, OutcomeMatches, StatusOf, Undecided;
    RetentionDeterministic(found.retention);
  }

  lemma TombstonePrunes(s: set<Record>, i: IntentRecord, op: string, found: Record)
    requires Selects(PruneRetention(i, op), found) && Decodes(found)
    ensures Selected(s, PruneForget(i, op), None) && Selected(s, PruneRetention(i, op), Some(found)) && i.operationId != op ==>
              PruneRefused(s, i, op, CorruptExchange)
  {
    hide *;
    PruneSelects(i, op);
    SameSelection(s, i, op, None);
    SameSelection(s, i, op, Some(found));
    AnyCaller(s, i, ByPrune(op), None);
    AnyCaller(s, i, ByPrune(op), Some(found));
    RetainedShape(s, i, ByPrune(op), found);
    RetainedIs(found.retention, OriginalsRemain(s, found.retention));
    forall st | StatusOf(s, i, st) { StatusRefuses(s, i, op, st); }
  }

  lemma PruneResumed(s: set<Record>, s': set<Record>, i: IntentRecord, op: string, receipt: RetentionReceipt, err: Option<Err>)
    requires receipt.retention.Some?
    ensures var r := receipt.retention.value;
            RemovedFirst(s, s', r, |receipt.removals|, err) && Retention(r) in s && Prunable(s, i, op, r) && err != Some(ExchangeNotFound) ==>
              PruneEffect(s, s', i, op, receipt, err)
  {
    hide Prunable, FirstOriginals;
    assert Retention(receipt.retention.value) in s ==> s + {Retention(receipt.retention.value)} == s;
  }

  lemma PrunedTerminal(s: set<Record>, s': set<Record>, i: IntentRecord, op: string, receipt: RetentionReceipt, err: Option<Err>)
    requires receipt.retention.Some? && err != Some(ExchangeNotFound)
    ensures var r := receipt.retention.value;
            Prunable(s, i, op, r) && PruneReached(s, s', r, |receipt.removals|, err) ==> PruneEffect(s, s', i, op, receipt, err)
  {
    hide Prunable, PruneReached;
  }

  /** A status and a prune select by the same identity. */
  lemma SameSelection(s: set<Record>, i: IntentRecord, op: string, found: Option<Record>)
    ensures Selected(s, PruneForget(i, op), found) <==> Selected(s, StatusForget(i, Api), found)
    ensures Selected(s, PruneRetention(i, op), found) <==> Selected(s, StatusRetention(i, Api), found)
  {
  }

  /** A live prunable chain has a terminal status. */
  lemma PrunableStatus(s: set<Record>, i: IntentRecord, op: string, r: RetentionRecord)
    requires Prunable(s, i, op, r) && Selected(s, PruneRetention(i, op), None)
    ensures Intent(i) in s && StatusOf(s, i, TerminalReport(i, r.outcome))
  {
    hide Selected, TheOutcome, ValidRetention;
    SameSelection(s, i, op, None);
    NotBoth(s, i, op, r);
  }

  lemma NotBoth(s: set<Record>, i: IntentRecord, op: string, r: RetentionRecord)
    requires Selected(s, PruneRetention(i, op), None)
    ensures !Selected(s, PruneRetention(i, op), Some(Retention(r)))
  {
    SelectedNot(s, PruneRetention(i, op), Retention(r));
  }

  /** A live status in a store of valid records has the shape a prune takes apart. */
  lemma LiveIsShaped(s: set<Record>, i: IntentRecord, st: StatusReport)
    requires WellFormed(s) && StatusOf(s, i, st) && st.retention.None?
    ensures Shaped(i, st) && st.forget.None?
    ensures Selected(s, StatusForget(i, Api), None) && Selected(s, StatusRetention(i, Api), None)
  {
    hide WellFormed, Selected, ValidIntent, Linked;
    assert Decodes(Intent(i)) by { hide *; ValidRecords(s, Intent(i)); }
    LiveShaped(i, st);
  }

  lemma ValidRecords(s: set<Record>, r: Record)
    ensures WellFormed(s) && r in s ==> Decodes(r)
  {
    hide Decodes;
  }

  /**
    A prune of a valid operation ID refuses exactly when there is nothing to prune, and the status
    of the operation says which refusal it is.
   */
  lemma PruneRefusals(s: set<Record>, i: IntentRecord, op: string)
    ensures forall why :: PruneRefused(s, i, op, why) ==> NothingToPrune(s, i, op)
    ensures NothingToPrune(s, i, op) ==> exists why :: PruneRefused(s, i, op, why)
    ensures WellFormed(s) && ValidSha256Id(op) ==>
              forall a, b :: PruneRefused(s, i, op, a) && PruneRefused(s, i, op, b) ==> a == b
  {
    hide *;
    forall why | PruneRefused(s, i, op, why) ensures NothingToPrune(s, i, op) { RefusedHasNothing(s, i, op, why); }
    if NothingToPrune(s, i, op) { var why := NothingIsRefused(s, i, op); }
    if WellFormed(s) && ValidSha256Id(op) {
      forall a, b | PruneRefused(s, i, op, a) && PruneRefused(s, i, op, b) ensures a == b { OneRefusal(s, i, op, a, b); }
    }
  }

  lemma OneRefusal(s: set<Record>, i: IntentRecord, op: string, a: Err, b: Err)
    requires WellFormed(s) && ValidSha256Id(op) && PruneRefused(s, i, op, a) && PruneRefused(s, i, op, b)
    ensures a == b
  {
    hide StatusOf, Nowhere, WellFormed, ValidSha256Id;
    StatusAnswers(s, i);
    forall p, q | StatusOf(s, i, p) && StatusOf(s, i, q) ensures p == q { StatusUnique(s, i, p, q); }
    forall st | StatusOf(s, i, st) && st.forget.Some? ensures st.retention.Some? { ForgettingRetains(s, i, st); }
  }

  lemma ForgettingRetains(s: set<Record>, i: IntentRecord, st: StatusReport)
    requires StatusOf(s, i, st) && st.forget.Some?
    ensures st.retention.Some?
  {
    hide Selected;
  }

  lemma RefusedHasNothing(s: set<Record>, i: IntentRecord, op: string, why: Err)
    requires PruneRefused(s, i, op, why)
    ensures NothingToPrune(s, i, op)
  {
    hide StatusOf, Nowhere, WellFormed, ValidSha256Id, Prunable;
    forall r | WellFormed(s) && Prunable(s, i, op, r) ensures false {
      var st := PrunableReports(s, i, op, r);
      StatusAnswers(s, i);
      forall p | StatusOf(s, i, p) ensures p == st { StatusUnique(s, i, p, st); }
    }
  }

  lemma PrunableReports(s: set<Record>, i: IntentRecord, op: string, r: RetentionRecord) returns (st: StatusReport)
    requires Prunable(s, i, op, r)
    ensures StatusOf(s, i, st) && st.forget.None? && (st.retention.Some? || TerminalState(st.state))
    ensures i.operationId == op && ValidSha256Id(op)
  {
    hide Selected, StatusOf, ValidSha256Id, OriginalsRemain, Linked, ValidRetention;
    NeverPrunable(s, i, op, r);
    if Selected(s, PruneRetention(i, op), None) {
      PrunableStatus(s, i, op, r);
      st := TerminalReport(i, r.outcome);
    } else {
      SameSelection(s, i, op, None);
      SameSelection(s, i, op, Some(Retention(r)));
      st := RetainedReport(r, OriginalsRemain(s, r));
      assert StatusOf(s, i, st) by { hide *; RetainedStatus(s, i, r); }
    }
  }

  lemma RetainedStatus(s: set<Record>, i: IntentRecord, r: RetentionRecord)
    ensures Selected(s, StatusForget(i, Api), None) && Selected(s, StatusRetention(i, Api), Some(Retention(r))) ==>
              StatusOf(s, i, RetainedReport(r, OriginalsRemain(s, r)))
  {
    hide Selected, OriginalsRemain;
  }

  lemma NothingIsRefused(s: set<Record>, i: IntentRecord, op: string) returns (why: Err)
    requires NothingToPrune(s, i, op)
    ensures PruneRefused(s, i, op, why)
  {
    hide StatusOf, Nowhere, WellFormed, ValidSha256Id, Prunable;
    forall st | StatusOf(s, i, st) { StatusRefuses(s, i, op, st); }
    if !WellFormed(s) || (!Nowhere(s, i) && forall st :: !StatusOf(s, i, st)) { return CorruptExchange; }
    if Nowhere(s, i) { return ExchangeNotFound; }
    var st :| StatusOf(s, i, st);
    if i.operationId != op { return if st.retention.Some? then CorruptExchange else InvalidExchange; }
    if st.forget.None? && (st.retention.Some? || TerminalState(st.state)) { ReportedPrunable(s, i, op, st); }
    return RetentionPolicy;
  }

  lemma ReportedPrunable(s: set<Record>, i: IntentRecord, op: string, st: StatusReport)
    requires WellFormed(s) && StatusOf(s, i, st) && i.operationId == op
    requires st.forget.None? && (st.retention.Some? || TerminalState(st.state))
    ensures exists r :: Prunable(s, i, op, r)
  {
    hide *;
    SameSelection(s, i, op, None);
    if st.retention.None? {
      LiveIsShaped(s, i, st);
      ShapedOutcome(i, st);
      PruneTerminalStatus(s, i, op, st);
    } else {
      RetainedPrunable(s, i, op, st);
    }
  }

  lemma ShapedOutcome(i: IntentRecord, st: StatusReport)
    requires Shaped(i, st) && TerminalState(st.state)
    ensures st.attempt.Some? && st.outcome.Some?
  {
    hide ValidIntent, Linked;
  }

  lemma RetainedPrunable(s: set<Record>, i: IntentRecord, op: string, st: StatusReport)
    requires WellFormed(s) && StatusOf(s, i, st) && i.operationId == op && st.forget.None? && st.retention.Some?
    ensures Prunable(s, i, op, st.retention.value)
  {
    var r := st.retention.value;
    assert Selected(s, PruneForget(i, op), None) && Selected(s, PruneRetention(i, op), Some(Retention(r))) by {
      hide Selected;
      SameSelection(s, i, op, None);
      SameSelection(s, i, op, Some(Retention(r)));
    }
    assert Retention(r) in s && Selects(PruneRetention(i, op), Retention(r)) by { hide StatusOf, WellFormed; }
    ValidRecords(s, Retention(r));
    hide StatusOf, Selected, WellFormed, ValidRetention, Linked;
    assert r.intent == i by { TombstoneFacts(i, ByPrune(op), Retention(r)); }
  }

  lemma PruneStatusFailed(s: set<Record>, i: IntentRecord, op: string, receipt: RetentionReceipt, err: Err)
    requires receipt.retention.None? && err != ExchangeNotFound
    ensures PruneEffect(s, s, i, op, receipt, Some(err))
    ensures Nowhere(s, i) ==>
              PruneRefused(s, i, op, ExchangeNotFound) && PruneEffect(s, s, i, op, receipt, Some(ExchangeNotFound))
    ensures Undecided(s, i) ==> PruneRefused(s, i, op, CorruptExchange)
  {
    hide Nowhere, Undecided, StatusOf;
  }

  lemma PruneStatus(s: set<Record>, i: IntentRecord, op: string, st: StatusReport)
    requires Shaped(i, st)
    ensures i.operationId == op && TerminalState(st.state) && st.attempt.Some? && st.outcome.Some? ==>
              var r := RetentionRecord(RETENTION_SCHEMA, RETENTION_BASIS, STORE_ID, op, st.state, i, IntentRef(i),
                                       st.attempt.value, Ref(Attempt(st.attempt.value)), st.outcome.value, Ref(Outcome(st.outcome.value)));
              && ValidRetention(r) && r.intent == i
              && StatusExit(i, ByPrune(op), st.state, st.outcome) == PruneImport(r)
              && (StatusOf(s, i, st) && Selected(s, PruneForget(i, op), None) && Selected(s, PruneRetention(i, op), None) ==>
                    Prunable(s, i, op, r) && forall k :: 0 <= k < 3 ==> Original(r, k) in s)
    ensures StatusOf(s, i, st) && Selected(s, PruneForget(i, op), None) && Selected(s, PruneRetention(i, op), None) ==>
              && (i.operationId != op ==> PruneRefused(s, i, op, InvalidExchange))
              && (i.operationId == op && (!TerminalState(st.state) || st.attempt.None? || st.outcome.None?) ==>
                    PruneRefused(s, i, op, RetentionPolicy))
  {
    if i.operationId == op && TerminalState(st.state) && st.attempt.Some? && st.outcome.Some? {
      PruneTerminalStatus(s, i, op, st);
    }
    hide Selected, ValidSha256Id, ValidRetention;
    SameSelection(s, i, op, None);
    if Selected(s, PruneForget(i, op), None) && Selected(s, PruneRetention(i, op), None) {
      if st.forget.Some? { SelectedNot(s, StatusForget(i, Api), Forget(st.forget.value)); }
      if st.retention.Some? { SelectedNot(s, StatusRetention(i, Api), Retention(st.retention.value)); }
    }
  }

  lemma PruneTerminalStatus(s: set<Record>, i: IntentRecord, op: string, st: StatusReport)
    requires Shaped(i, st) && i.operationId == op && TerminalState(st.state) && st.attempt.Some? && st.outcome.Some?
    ensures var r := RetentionFor(i, st.outcome.value);
            && st.attempt.value == AttemptFromIntent(i) && st.state == r.terminalState
            && ValidRetention(r) && r.intent == i
            && StatusExit(i, ByPrune(op), st.state, st.outcome) == PruneImport(r)
            && (StatusOf(s, i, st) && Selected(s, PruneForget(i, op), None) && Selected(s, PruneRetention(i, op), None) ==>
                  Prunable(s, i, op, r) && forall k :: 0 <= k < 3 ==> Original(r, k) in s)
  {
    hide Selected, ValidIntent, OutcomeMatches, ValidRetention;
    var r := RetentionFor(i, st.outcome.value);
    RetentionDeterministic(r);
  }

  // ---------------------------------------------------------------- about Forget

  lemma AbsentPlaces(r: RetentionRecord, published: bool) returns (places: seq<Pc>)
    ensures LeadsAbsent(places, r, STOP)
    ensures places[0] == ForgetAbsent(r, published, 0)
    ensures places[3] == if published then ForgetConfirm(r, 0) else ForgetImport(r)
  {
    hide Want, Advance, Original;
    places := seq(3, (k: nat) => ForgetAbsent(r, published, k)) + [if published then ForgetConfirm(r, 0) else ForgetImport(r)];
    forall k | 0 <= k < 3
      ensures Want(places[k]) == LookOp(Original(r, k)) && Advance(places[k], Absent) == places[k + 1] && Advance(places[k], Found) == STOP
    {
      AbsentStep(r, published, k);
    }
  }

  lemma AbsentStep(r: RetentionRecord, published: bool, k: nat)
    requires k < 3
    ensures Want(ForgetAbsent(r, published, k)) == LookOp(Original(r, k))
    ensures Advance(ForgetAbsent(r, published, k), Found) == STOP
    ensures Advance(ForgetAbsent(r, published, k), Absent) ==
              if k < 2 then ForgetAbsent(r, published, k + 1) else if published then ForgetConfirm(r, 0) else ForgetImport(r)
  {
  }

  lemma MarkerPlaces(r: RetentionRecord) returns (places: seq<Pc>)
    ensures Leads(places, ForgetSet(r)) && |ForgetSet(r)| == 2
    ensures places[0] == ForgetConfirm(r, 0) && places[2] == ForgetRemove(r, false)
    ensures forall t :: t in ForgetSet(r) <==> t == Forget(ForgetFor(r))
  {
    hide *;
    MarkerSteps(r);
    places := [ForgetConfirm(r, 0), ForgetConfirm(r, 1), ForgetRemove(r, false)];
    TwoPlaces(places[0], places[1], places[2], Forget(ForgetFor(r)), Forget(ForgetFor(r)));
  }

  lemma MarkerSteps(r: RetentionRecord)
    ensures ForgetSet(r) == [Forget(ForgetFor(r)), Forget(ForgetFor(r))]
    ensures Want(ForgetConfirm(r, 0)) == Want(ForgetConfirm(r, 1)) == LookOp(Forget(ForgetFor(r)))
    ensures Advance(ForgetConfirm(r, 0), Found) == ForgetConfirm(r, 1) && Advance(ForgetConfirm(r, 1), Found) == ForgetRemove(r, false)
  {
    hide ForgetFor;
  }

  lemma EraseScript(r: RetentionRecord)
    ensures Want(ForgetRemove(r, false)) == RemoveOp(Retention(r))
    ensures Want(ForgetRemove(r, true)) == RemoveOp(Forget(ForgetFor(r)))
    ensures forall last :: Advance(ForgetRemove(r, last), Staged) == ForgetRemove(r, last)
    ensures forall had :: Advance(ForgetRemove(r, false), Removed(had)) == ForgetRemove(r, true)
    ensures forall had :: Advance(ForgetRemove(r, true), Removed(had)) == ForgetCheck(r)
  {
  }

  lemma FinishScript(r: RetentionRecord)
    ensures Want(ForgetCheck(r)) == CheckOp && Advance(ForgetCheck(r), Checked) == Done(ForgetDone(r))
  {
  }

  lemma FreshScript(r: RetentionRecord, op: string)
    ensures Want(ForgetLoad(r, op)) == LookOp(Retention(r))
    ensures r.operationId == op ==> Advance(ForgetLoad(r, op), Found) == ForgetAbsent(r, false, 0)
    ensures Want(ForgetImport(r)) == ImportOp(Forget(ForgetFor(r)))
    ensures forall w :: Advance(ForgetImport(r), Imported(w)) == ForgetAbsent(r, true, 0)
  {
  }

  lemma EraseEnds(s: set<Record>, r: RetentionRecord)
    ensures Erasing(s, r, 0) == s
    ensures forall err: Err, n: nat :: n <= 2 ==> ErasedFirst(s, Erasing(s, r, n), r, n, Some(err))
    ensures forall err: Err, n: nat :: n < 2 ==> ErasedFirst(s, Erasing(s, r, n), r, n + 1, Some(err))
    ensures ErasedFirst(s, Erasing(s, r, 2), r, 2, None)
  {
  }

  lemma EraseNext(s: set<Record>, r: RetentionRecord, n: nat)
    requires n < 2
    ensures Erasing(s, r, n) - {if n == 0 then Retention(r) else Forget(ForgetFor(r))} == Erasing(s, r, n + 1)
  {
  }

  lemma NoneCounted(receipt: RetentionReceipt)
    requires Accounted(receipt, 2) && receipt.removals == []
    ensures receipt.recordsRemoved + receipt.recordsAlreadyAbsent == 0
  {
  }

  lemma ErasedAll(s: set<Record>, s': set<Record>, r: RetentionRecord, n: nat)
    ensures ErasedFirst(s, s', r, n, None) ==>
              n == 2 && s' == Erasing(s, r, 2) && forall err: Err :: ErasedFirst(s, s', r, n, Some(err))
  {
  }

  lemma FinishAccount(receipt: RetentionReceipt)
    requires Accounted(receipt.(complete := false), 2) && |receipt.removals| == 2
    requires receipt.recordsRemoved + receipt.recordsAlreadyAbsent == 2
    ensures Accounted(receipt, 2)
  {
  }

  lemma CheckedOnly(s: set<Record>, resp: Response, s': set<Record>)
    requires Responds(s, CheckOp, resp, s')
    ensures s' == s && (resp.Fault? || resp.Checked?)
  {
  }

  lemma NoForgetYet(receipt: RetentionReceipt)
    requires receipt == RetentionReceipt(false, receipt.retention, 0, 0, 0, 0, [], receipt.used)
    ensures Accounted(receipt, 2) && Accounted(receipt.(publicationWrites := 1, writes := 1), 2)
  {
  }

  lemma ForgetStays(s: set<Record>, r: RetentionRecord, op: string, receipt: RetentionReceipt, err: Err)
    requires receipt.retention.None? && !err.ExchangeNotFound?
    ensures ForgetEffect(s, s, r, op, receipt, Some(err))
  {
  }

  lemma ForgetInvalid(s: set<Record>, r: RetentionRecord, op: string)
    requires !ValidSha256Id(op)
    ensures ForgetRefused(s, r, op, InvalidExchange)
  {
    hide ValidSha256Id;
  }

  /** What a forget that ends before the marker leaves, whichever error it ends with. */
  lemma ForgetNothing(s: set<Record>, r: RetentionRecord, op: string, used: Usage)
    ensures var receipt := RetentionReceipt(false, None, 0, 0, 0, 0, [], used);
            && (forall err: Err :: !err.ExchangeNotFound? ==> ForgetEffect(s, s, r, op, receipt, Some(err)))
            && (Retention(r) !in s && Forget(ForgetFor(r)) !in s ==>
                  ForgetEffect(s, s, r, op, receipt, Some(ExchangeNotFound)) && ForgetRefused(s, r, op, ExchangeNotFound))
    ensures !ValidRetention(r) && Retention(r) in s ==> ForgetRefused(s, r, op, CorruptExchange)
    ensures r.operationId != op && Retention(r) in s && Forget(ForgetFor(r)) !in s ==> ForgetRefused(s, r, op, InvalidExchange)
    ensures r.operationId != op && Forget(ForgetFor(r)) in s ==> ForgetRefused(s, r, op, CorruptExchange)
    ensures r.operationId == op && OriginalsRemain(s, r) && (Retention(r) in s || Forget(ForgetFor(r)) in s) ==> ForgetRefused(s, r, op, RetentionPolicy)
  {
    hide ValidRetention, OriginalsRemain;
    assert !ValidRetention(r) ==> !Decodes(Retention(r));
  }

  lemma MarkerAbsent(s: set<Record>, r: RetentionRecord, op: string)
    ensures Selected(s, ForgetMarker(r, op), None) ==> Forget(ForgetFor(r)) !in s
  {
  }

  lemma ForgetStarts(s: set<Record>, r: RetentionRecord, op: string, receipt: RetentionReceipt)
    requires ValidRetention(r) && r.operationId == op
    requires receipt == RetentionReceipt(false, Some(r), 0, 0, 0, 0, [], receipt.used)
    ensures !OriginalsRemain(s, r) && Retention(r) in s ==>
              && ForgetEffect(s, s, r, op, receipt, Some(Interrupted))
              && ForgetEffect(s, s + {Forget(ForgetFor(r))}, r, op, receipt, Some(Interrupted))
              && Forgettable(s, r, op) && !OriginalsRemain(s + {Forget(ForgetFor(r))}, r)
  {
    assert !OriginalsRemain(s, r) ==> !OriginalsRemain(s + {Forget(ForgetFor(r))}, r);
  }

  lemma ForgetCompletes(s: set<Record>, s': set<Record>, r: RetentionRecord, op: string, receipt: RetentionReceipt, err: Option<Err>)
    ensures receipt.retention == Some(r) && Forgettable(s, r, op) && err != Some(ExchangeNotFound)
            && ErasedFirst(s + {Forget(ForgetFor(r))}, s', r, |receipt.removals|, err) ==>
              ForgetEffect(s, s', r, op, receipt, err)
  {
    hide Forgettable, Erasing;
  }

  lemma MarkerEnds(s: set<Record>, s1: set<Record>, s': set<Record>, r: RetentionRecord, op: string,
                   receipt: RetentionReceipt, err: Option<Err>)
    requires ValidRetention(r) && r.operationId == op && receipt.retention == Some(r) && err != Some(ExchangeNotFound)
    ensures s1 == s + {Forget(ForgetFor(r))} && Retention(r) in s && !OriginalsRemain(s, r) && ErasedFirst(s1, s', r, |receipt.removals|, err) ==>
              ForgetEffect(s, s', r, op, receipt, err)
  {
    hide ValidRetention, OriginalsRemain, ForgetEffect, ErasedFirst, ForgetFor;
    ForgetCompletes(s, s', r, op, receipt, err);
  }

  lemma MarkerFound(s: set<Record>, r: RetentionRecord, op: string, found: Record)
    requires Selects(ForgetMarker(r, op), found) && Decodes(found)
    ensures found == Forget(ForgetFor(r)) && found.forget.operationId == r.operationId
    ensures r.operationId == op ==> ScanExit(ForgetMarker(r, op), Some(found)) == ForgetAbsent(r, true, 0)
    ensures found in s ==> s + {found} == s
    ensures r.operationId == op && found in s && !OriginalsRemain(s, r) ==> Forgettable(s, r, op)
  {
    hide ValidRetention, OriginalsRemain;
    ForgetDeterministic(found.forget);
  }

  /** A resumed forget did nothing while originals remain; otherwise it went on erasing. */
  lemma ResumeEnds(s: set<Record>, s': set<Record>, r: RetentionRecord, op: string, found: Record,
                   receipt: RetentionReceipt, err: Option<Err>)
    requires Selects(ForgetMarker(r, op), found) && Decodes(found) && r.operationId == op
    requires receipt.retention == Some(r) && err != Some(ExchangeNotFound)
    ensures found in s && (OriginalsRemain(s, r) ==> err.Some? && s' == s) && ErasedFirst(s, s', r, |receipt.removals|, err) ==>
              ForgetEffect(s, s', r, op, receipt, err)
  {
    hide ValidRetention, OriginalsRemain, ErasedFirst, ForgetFor, Forgettable, ForgetReached;
    MarkerFound(s, r, op, found);
    ForgetCompletes(s, s', r, op, receipt, err);
  }

  lemma StartForget(s: set<Record>, r: RetentionRecord, op: string)
    ensures ScanExit(ForgetMarker(r, op), None) == ForgetLoad(r, op)
  {
  }

  /** Valid markers of one tombstone are equal, so only an invalid record can make the scan corrupt. */
  lemma MarkersUnique(s: set<Record>, r: RetentionRecord, op: string)
    requires WellFormed(s)
    ensures exists m :: Selected(s, ForgetMarker(r, op), m)
  {
    var f := Forget(ForgetFor(r));
    forall t | t in s && Selects(ForgetMarker(r, op), t) ensures t == f {
      MarkerFound(s, r, op, t);
    }
    hide WellFormed, ValidRetention;
    assert Selected(s, ForgetMarker(r, op), if f in s then Some(f) else None);
  }

  lemma ForgetScanFails(s: set<Record>, r: RetentionRecord, op: string)
    ensures (forall m :: !Selected(s, ForgetMarker(r, op), m)) ==> !WellFormed(s)
  {
    hide WellFormed, Selected;
    if WellFormed(s) { MarkersUnique(s, r, op); }
  }

  lemma ForgetInvalidRecord(s: set<Record>, r: RetentionRecord, op: string)
    requires !WellFormed(s)
    ensures ForgetRefused(s, r, op, CorruptExchange)
  {
    hide WellFormed;
  }

  lemma GoneOnly(s: set<Record>, r: RetentionRecord)
    ensures Gone(s, r) ==> WellFormed(s) && Retention(r) !in s && Forget(ForgetFor(r)) !in s
  {
  }

  lemma FoundIn(s: set<Record>, r: RetentionRecord, op: string, found: Record)
    ensures Selected(s, ForgetMarker(r, op), Some(found)) ==> found in s
  {
  }

  // ---------------------------------------------------------------- about the two-pass scans

  lemma StartScript(g: Goal)
    ensures ScanStart(g) == ScanList(g, false, [])
  {
  }

  lemma PassScript(g: Goal, second: bool, before: seq<Record>)
    ensures Want(ScanList(g, second, before)) == ListOp(GoalKind(g))
  {
  }

  lemma PassListed(g: Goal, second: bool, before: seq<Record>, q: seq<Record>)
    requires second ==> q == before
    ensures Advance(ScanList(g, second, before), Listed(q)) == ScanNext(g, second, q, q, None)
  {
  }

  lemma PassStarts(g: Goal, second: bool, q: seq<Record>)
    ensures q[0..] == q && q[..0] == [] && UniqueIn([], g, None)
  {
  }

  lemma PassGoes(g: Goal, second: bool, q: seq<Record>, n: nat, found: Option<Record>)
    requires n < |q| && UniqueIn(q[..n], g, found)
    ensures Want(ScanNext(g, second, q, q[n..], found)) == LookOp(q[n])
    ensures !Selects(g, q[n]) ==>
              && Advance(ScanNext(g, second, q, q[n..], found), Found) == ScanNext(g, second, q, q[n + 1..], found)
              && UniqueIn(q[..n + 1], g, found)
    ensures Selects(g, q[n]) && found.None? ==>
              && Advance(ScanNext(g, second, q, q[n..], found), Found) == ScanNext(g, second, q, q[n + 1..], Some(q[n]))
              && UniqueIn(q[..n + 1], g, Some(q[n]))
  {
    hide Selects, ScanExit;
    assert q[..n + 1] == q[..n] + [q[n]];
    assert q[n..] == [q[n]] + q[n + 1..] && q[n..][1..] == q[n + 1..];
  }

  lemma PassEnds(g: Goal, second: bool, q: seq<Record>, found: Option<Record>)
    ensures ScanNext(g, second, q, [], found) == if second then ScanExit(g, found) else ScanList(g, true, q)
  {
    hide ScanExit;
  }

  lemma PassInvalid(s: set<Record>, q: seq<Record>, n: nat, k: Kind)
    requires n < |q| && !Decodes(q[n])
    ensures Enumerates(q, s, k) ==> !WellFormed(s)
  {
    hide Decodes;
    assert q[n] in q;
  }

  lemma PassTwice(s: set<Record>, q: seq<Record>, n: nat, g: Goal, found: Option<Record>)
    requires n < |q| && UniqueIn(q[..n], g, found) && found.Some? && Selects(g, q[n])
    ensures Enumerates(q, s, GoalKind(g)) ==> forall m :: !Selected(s, g, m)
  {
    hide Selects, GoalKind;
    if Enumerates(q, s, GoalKind(g)) {
      var k :| 0 <= k < n && q[..n][k] == found.value;
      assert q[k] != q[n] && q[k] in q && q[n] in q;
    }
  }

  lemma SelectedInventory(s: set<Record>, q: seq<Record>, g: Goal, found: Option<Record>)
    requires Enumerates(q, s, GoalKind(g)) && UniqueIn(q, g, found)
    ensures Selected(s, g, found)
  {
    hide Selects, GoalKind;
  }

  // ---------------------------------------------------------------- about the outcome scan

  /** After the records in `done`: the one match among them, if any. */
  ghost predicate ScannedSoFar(done: seq<Record>, i: IntentRecord, found: Option<OutcomeRecord>) {
    && (forall o :: Outcome(o) in done && o.operationId == i.operationId ==> found == Some(o))
    && (found.Some? ==> Outcome(found.value) in done && Linked(found.value, i) && found.value.operationId == i.operationId)
  }

  lemma ScanStarts(start: Pc, listed: seq<Record>, i: IntentRecord)
    requires start.ReserveList? || start.StatusList?
    ensures Advance(start, Listed(listed)) == ScanPlace(start, listed, None)
  {
  }

  lemma NothingScanned(listed: seq<Record>, i: IntentRecord)
    ensures listed[0..] == listed && listed[..0] == [] && ScannedSoFar([], i, None)
  {
  }

  lemma ScanWants(start: Pc, queue: seq<Record>, found: Option<OutcomeRecord>)
    requires start.ReserveList? || start.StatusList?
    requires queue != []
    ensures Want(ScanPlace(start, queue, found)) == LookOp(queue[0])
  {
  }

  lemma ScanGoes(start: Pc, queue: seq<Record>, found: Option<OutcomeRecord>)
    requires start.ReserveList? || start.StatusList?
    requires queue != [] && queue[0].Outcome?
    ensures queue[0].outcome.operationId != start.intent.operationId ==>
              Advance(ScanPlace(start, queue, found), Found) == ScanPlace(start, queue[1..], found)
    ensures queue[0].outcome.operationId == start.intent.operationId && Linked(queue[0].outcome, start.intent) && found.None? ==>
              Advance(ScanPlace(start, queue, found), Found) == ScanPlace(start, queue[1..], Some(queue[0].outcome))
  {
    hide OutcomeMatches;
  }

  lemma ScanSkips(listed: seq<Record>, n: nat, i: IntentRecord, found: Option<OutcomeRecord>)
    requires n < |listed| && ScannedSoFar(listed[..n], i, found)
    requires listed[n].Outcome? && listed[n].outcome.operationId != i.operationId
    ensures ScannedSoFar(listed[..n + 1], i, found)
  {
    hide OutcomeMatches;
    assert listed[..n + 1] == listed[..n] + [listed[n]];
  }

  lemma ScanMatches(listed: seq<Record>, n: nat, i: IntentRecord, found: Option<OutcomeRecord>)
    requires n < |listed| && ScannedSoFar(listed[..n], i, found)
    requires listed[n].Outcome? && listed[n].outcome.operationId == i.operationId
    requires Linked(listed[n].outcome, i) && found.None?
    ensures ScannedSoFar(listed[..n + 1], i, Some(listed[n].outcome))
  {
    hide OutcomeMatches;
    assert listed[..n + 1] == listed[..n] + [listed[n]];
  }

  lemma ScanCorrupt(s: set<Record>, listed: seq<Record>, n: nat, i: IntentRecord, found: Option<OutcomeRecord>)
    requires n < |listed| && ScannedSoFar(listed[..n], i, found)
    requires listed[n].Outcome? && listed[n].outcome.operationId == i.operationId
    requires !Linked(listed[n].outcome, i) || found.Some?
    ensures Enumerates(listed, s, OutcomeKind) ==> forall m :: !OutcomeScan(s, i, m)
  {
    hide OutcomeMatches;
    assert listed[n] in listed;
    if Enumerates(listed, s, OutcomeKind) && found.Some? {
      var k :| 0 <= k < n && listed[..n][k] == Outcome(found.value);
      assert listed[k] != listed[n] && listed[k] in s;
    }
  }

  lemma ScanListed(s: set<Record>, listed: seq<Record>, n: nat, k: Kind)
    requires n < |listed|
    ensures Enumerates(listed, s, k) ==> listed[n] in s
  {
    assert listed[n] in listed;
  }

  lemma ScanInvalid(s: set<Record>, listed: seq<Record>, n: nat)
    requires n < |listed| && !Decodes(listed[n])
    ensures Enumerates(listed, s, OutcomeKind) ==> !WellFormed(s)
  {
    hide Decodes;
    assert listed[n] in listed;
  }

  lemma OutcomeDecodes(r: Record)
    requires r.Outcome?
    ensures Decodes(r) <==> ValidOutcome(r.outcome)
  {
  }

  lemma ScanLinked(listed: seq<Record>, i: IntentRecord, found: Option<OutcomeRecord>)
    requires ScannedSoFar(listed, i, found)
    ensures found.Some? ==> Linked(found.value, i)
  {
  }

  lemma ScanComplete(s: set<Record>, listed: seq<Record>, i: IntentRecord, found: Option<OutcomeRecord>)
    requires ScannedSoFar(listed, i, found)
    ensures Enumerates(listed, s, OutcomeKind) ==> OutcomeScan(s, i, found)
  {
    hide OutcomeMatches;
  }
}
