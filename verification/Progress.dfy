/** What the call that steps knows at the place it reaches, step by step. */
module Progress {
  import opened Basics
  import opened Records
  import opened Program
  import opened Protocol
  import opened Invariant

  /** The locals after the step, in the world the step read. */
  function Moved(w: World, th: Thread, resp: Response): Thread {
    Thread(th.session, Advance(th.pc, resp), th.begun,
           if th.pc.StatusList? then w.clock else th.listedAt,
           if th.pc.StatusAttempt? then w.clock else th.lookedAt)
  }

  // ---------------------------------------------------------------- the outcome scan

  lemma ListedOutcomes(w: World, i: IntentRecord, q: seq<Record>)
    requires OutcomesInv(w) && Enumerates(q, w.store, OutcomeKind) && q != []
    ensures QueueInv(w, i, q, None)
  {
  }

  lemma ListedCovers(w: World, i: IntentRecord, q: seq<Record>)
    requires OutcomesInv(w) && Enumerates(q, w.store, OutcomeKind)
    ensures Covered(w, i, w.clock, q, None)
  {
    hide OutcomesBound;
    if Intent(i) in w.store {
      forall o | o in w.outcomes && OutcomeOf(o, i) && w.outcomes[o] < w.clock
        ensures Outcome(o) in q
      {
        assert o.intentRecordId.of == Intent(i);
      }
    }
  }

  lemma SecondIs(i: IntentRecord, r: Record, m: Option<OutcomeRecord>)
    requires ScanOne(i, r, m).Second?
    ensures r.Outcome? && Linked(r.outcome, i) && m.Some?
  {
    hide Linked;
  }

  lemma HeadQueued(w: World, i: IntentRecord, q: seq<Record>, m: Option<OutcomeRecord>)
    requires QueueInv(w, i, q, m)
    ensures q != [] && (q[0].Outcome? ==> q[0].outcome in w.outcomes)
    ensures m.Some? ==> m.value in w.outcomes && Linked(m.value, i) && q[0] != Outcome(m.value)
  {
    hide Linked;
    assert q[0] in q;
  }

  /** A second match cannot occur: at most one outcome was ever published. */
  lemma NoSecond(w: World, i: IntentRecord, q: seq<Record>, m: Option<OutcomeRecord>)
    requires GrantsInv(w) && OutcomesInv(w) && QueueInv(w, i, q, m)
    ensures !ScanOne(i, q[0], m).Second?
  {
    hide *;
    HeadQueued(w, i, q, m);
    if ScanOne(i, q[0], m).Second? {
      SecondIs(i, q[0], m);
      LinkedNames(q[0].outcome, i);
      LinkedNames(m.value, i);
      OutcomeUnique(w, q[0].outcome, m.value, i);
    }
  }

  lemma TailQueue(w: World, i: IntentRecord, q: seq<Record>, m: Option<OutcomeRecord>)
    requires QueueInv(w, i, q, m) && q[1..] != []
    ensures QueueInv(w, i, q[1..], m)
    ensures q[0].Outcome? && Linked(q[0].outcome, i) ==> QueueInv(w, i, q[1..], Some(q[0].outcome))
  {
    assert q[0] in q;
    assert forall r :: r in q[1..] ==> r in q;
  }

  /** The match so far, after the record at the head was looked at. */
  function NextFound(i: IntentRecord, r: Record, m: Option<OutcomeRecord>): Option<OutcomeRecord> {
    match ScanOne(i, r, m)
    case Match(o) => Some(o)
    case _ => m
  }

  /** Scanning one record keeps the queue exact. */
  lemma ScannedQueue(w: World, i: IntentRecord, q: seq<Record>, m: Option<OutcomeRecord>)
    requires GrantsInv(w) && OutcomesInv(w) && QueueInv(w, i, q, m)
    ensures FoundInv(w, i, NextFound(i, q[0], m))
    ensures q[1..] != [] ==> QueueInv(w, i, q[1..], NextFound(i, q[0], m))
  {
    hide OutcomeMatches, GrantsInv, OutcomesInv;
    assert q[0] in q;
    if q[1..] != [] { TailQueue(w, i, q, m); }
  }

  lemma SameOperation(w: World, i: IntentRecord, o: OutcomeRecord)
    requires OutcomesInv(w) && o in w.outcomes && OutcomeOf(o, i)
    ensures o.operationId == i.operationId
  {
    hide OutcomesStored, Bound, MarkerBefore;
    assert Linked(o, o.intentRecordId.of.intent);
  }

  lemma ScannedOne(i: IntentRecord, q: seq<Record>, m: Option<OutcomeRecord>, o: OutcomeRecord)
    requires q != [] && !ScanOne(i, q[0], m).Broken? && !ScanOne(i, q[0], m).Second?
    requires o.operationId == i.operationId && (Outcome(o) in q || m == Some(o))
    ensures Outcome(o) in q[1..] || NextFound(i, q[0], m) == Some(o)
  {
    hide Linked;
    assert q == [q[0]] + q[1..];
  }

  lemma ScannedCovered(w: World, i: IntentRecord, at: nat, q: seq<Record>, m: Option<OutcomeRecord>)
    requires OutcomesInv(w) && QueueInv(w, i, q, m) && Covered(w, i, at, q, m) && !ScanOne(i, q[0], m).Broken? && !ScanOne(i, q[0], m).Second?
    ensures Covered(w, i, at, q[1..], NextFound(i, q[0], m))
  {
    hide OutcomesInv, QueueInv, ScanOne, NextFound;
    HeadQueued(w, i, q, m);
    if Intent(i) in w.store {
      forall o | o in w.outcomes && OutcomeOf(o, i) && w.outcomes[o] < at
        ensures Outcome(o) in q[1..] || NextFound(i, q[0], m) == Some(o)
      {
        SameOperation(w, i, o);
        ScannedOne(i, q, m, o);
      }
    }
  }

  // ---------------------------------------------------------------- ReserveAttempt

  lemma ReserveListReads(w: World, t: nat, th: Thread, resp: Response)
    requires OutcomesInv(w) && th.pc.ReserveList?
    requires ReserveInv(w, t, th.pc) && Responds(w.store, Want(th.pc), resp, w.store)
    ensures PcInv(w, t, Moved(w, th, resp))
  {
    hide OutcomesInv, Linked, ValidIntent, StatusInv, QueueInv, GoodTombstone, ScanInv, Bound;
    if resp.Listed? && resp.records != [] { ListedOutcomes(w, th.pc.intent, resp.records); }
  }

  lemma ReserveReads(w: World, t: nat, th: Thread, resp: Response)
    requires IntentsInv(w) && MarkersInv(w) && OutcomesInv(w)
    requires th.pc.ReserveCheck? || th.pc.ReserveList? || (th.pc.ReserveVerify? && th.pc.index == 0)
    requires ReserveInv(w, t, th.pc) && Responds(w.store, Want(th.pc), resp, w.store)
    ensures PcInv(w, t, Moved(w, th, resp))
  {
    hide OutcomesInv, Linked, ValidIntent, StatusInv, QueueInv, GoodTombstone, ScanInv, Bound;
    if th.pc.ReserveList? { ReserveListReads(w, t, th, resp); }
  }

  lemma StoppedKnows(w: World, t: nat, th: Thread)
    requires th.pc == STOP
    ensures PcInv(w, t, th)
  {
  }

  lemma ReserveNextKnows(w: World, t: nat, th: Thread, i: IntentRecord, q: seq<Record>, m: Option<OutcomeRecord>)
    requires th.pc == ReserveNext(i, q, m) && Fresh(w, t, i) && Publisher(w, t, i)
    requires q != [] ==> QueueInv(w, i, q, m)
    ensures PcInv(w, t, th)
  {
  }

  lemma ReserveScanGoes(w: World, th: Thread, resp: Response, i: IntentRecord, q: seq<Record>, m: Option<OutcomeRecord>)
    requires th.pc == ReserveScan(i, q, m) && q != [] && !ScanOne(i, q[0], m).Second?
    ensures Moved(w, th, resp).pc == STOP || Moved(w, th, resp).pc == ReserveNext(i, q[1..], NextFound(i, q[0], m))
  {
    hide OutcomeMatches;
  }

  lemma ReserveScanReads(w: World, t: nat, th: Thread, resp: Response, i: IntentRecord, q: seq<Record>, m: Option<OutcomeRecord>)
    requires OutcomesInv(w) && GrantsInv(w)
    requires q != [] && th.pc == ReserveScan(i, q, m) && Fresh(w, t, i) && Publisher(w, t, i) && QueueInv(w, i, q, m)
    ensures PcInv(w, t, Moved(w, th, resp))
  {
    hide *;
    NoSecond(w, i, q, m);
    ReserveScanGoes(w, th, resp, i, q, m);
    if Moved(w, th, resp).pc == STOP {
      StoppedKnows(w, t, Moved(w, th, resp));
    } else {
      ScannedQueue(w, i, q, m);
      ReserveNextKnows(w, t, Moved(w, th, resp), i, q[1..], NextFound(i, q[0], m));
    }
  }

  // ---------------------------------------------------------------- Status

  lemma StatusListReads(w: World, t: nat, th: Thread, resp: Response)
    requires OutcomesInv(w) && th.begun <= w.clock
    requires th.pc.StatusList? && StatusInv(w, th) && Responds(w.store, Want(th.pc), resp, w.store)
    ensures PcInv(w, t, Moved(w, th, resp))
  {
    if resp.Listed? {
      ListedCovers(w, th.pc.intent, resp.records);
      if resp.records != [] { ListedOutcomes(w, th.pc.intent, resp.records); }
    }
  }

  lemma StatusNextKnows(w: World, t: nat, th: Thread, i: IntentRecord, c: Caller, q: seq<Record>, m: Option<OutcomeRecord>)
    requires th.pc == StatusNext(i, c, q, m) && i in w.intents && th.begun <= th.listedAt
    requires FoundInv(w, i, m) && (q != [] ==> QueueInv(w, i, q, m)) && Covered(w, i, th.listedAt, q, m)
    ensures PcInv(w, t, th)
  {
    hide OutcomeMatches, ValidIntent;
  }

  lemma StatusScanGoes(w: World, th: Thread, resp: Response, i: IntentRecord, c: Caller, q: seq<Record>, m: Option<OutcomeRecord>)
    requires th.pc == StatusScan(i, c, q, m) && q != [] && !ScanOne(i, q[0], m).Second?
    ensures
      || Moved(w, th, resp).pc == STOP
      || (!ScanOne(i, q[0], m).Broken?
          && Moved(w, th, resp) == th.(pc := StatusNext(i, c, q[1..], NextFound(i, q[0], m))))
  {
    hide OutcomeMatches;
  }

  lemma StatusScanReads(w: World, t: nat, th: Thread, resp: Response, i: IntentRecord, c: Caller, q: seq<Record>, m: Option<OutcomeRecord>)
    requires OutcomesInv(w) && GrantsInv(w)
    requires q != [] && th.pc == StatusScan(i, c, q, m) && i in w.intents && th.begun <= th.listedAt
    requires QueueInv(w, i, q, m) && Covered(w, i, th.listedAt, q, m)
    ensures PcInv(w, t, Moved(w, th, resp))
  {
    hide *;
    NoSecond(w, i, q, m);
    StatusScanGoes(w, th, resp, i, c, q, m);
    if Moved(w, th, resp).pc == STOP {
      StoppedKnows(w, t, Moved(w, th, resp));
    } else {
      ScannedQueue(w, i, q, m);
      ScannedCovered(w, i, th.listedAt, q, m);
      StatusNextKnows(w, t, Moved(w, th, resp), i, c, q[1..], NextFound(i, q[0], m));
    }
  }

  lemma StatusAttemptReads(w: World, t: nat, th: Thread, resp: Response)
    requires MarkersInv(w) && th.listedAt <= w.clock
    requires th.pc.StatusAttempt? && StatusInv(w, th) && Responds(w.store, Want(th.pc), resp, w.store)
    ensures PcInv(w, t, Moved(w, th, resp))
  {
    hide ValidOutcome, ValidIntent, ValidAttempt, ValidReceipt, ValidRetention;
  }

  lemma StatusExitKnows(w: World, t: nat, th: Thread, i: IntentRecord, c: Caller, v: Verdict, m: Option<OutcomeRecord>)
    requires th.pc == StatusExit(i, c, v, m)
    requires TerminalState(v) ==> i in w.intents && FoundInv(w, i, m)
    ensures PcInv(w, t, th)
  {
  }

  /** The intent is verified first, so what held while it was present holds from then on. */
  /** Where the verification of a live status goes. */
  lemma StatusVerifyGoes(w: World, th: Thread, resp: Response)
    requires th.pc.StatusVerify? && (resp.Found? || resp.Absent? || resp.Fault?)
    ensures var StatusVerify(i, c, marked, m, k) := th.pc; var th' := Moved(w, th, resp);
      && th'.begun == th.begun && th'.listedAt == th.listedAt && th'.lookedAt == th.lookedAt
      && (th'.pc == STOP
          || (resp.Found? && th'.pc == StatusVerify(i, c, marked, m, k + 1))
          || (resp.Found? && th'.pc == StatusExit(i, c, CandidateState(marked, m), m)))
  {
    hide StatusSet, StatusExit, CandidateState;
  }

  lemma StopKnows(w: World, t: nat, th: Thread)
    requires th.pc == STOP
    ensures PcInv(w, t, th)
  {
  }

  lemma StatusVerifyKnows(w: World, t: nat, th: Thread)
    requires th.pc.StatusVerify? && VerifyInv(w, th, th.pc.intent, th.pc.marked, th.pc.found, th.pc.index)
    ensures PcInv(w, t, th)
  {
    hide FoundInv, MarkerBefore, Established, ReserveInv;
  }

  lemma StatusVerifyReads(w: World, t: nat, th: Thread, resp: Response)
    requires th.pc.StatusVerify? && VerifyInv(w, th, th.pc.intent, th.pc.marked, th.pc.found, th.pc.index)
    requires (resp.Found? || resp.Absent? || resp.Fault?)
    requires resp.Found? && th.pc.index == 0 ==> Intent(th.pc.intent) in w.store
    ensures PcInv(w, t, Moved(w, th, resp))
  {
    hide Moved, PcInv, FoundInv, MarkerBefore, Established, StatusExit, CandidateState;
    var StatusVerify(i, c, marked, m, k) := th.pc;
    var th' := Moved(w, th, resp);
    StatusVerifyGoes(w, th, resp);
    if th'.pc == STOP {
      StopKnows(w, t, th');
    } else if th'.pc == StatusVerify(i, c, marked, m, k + 1) {
      StatusVerifyKnows(w, t, th');
    } else {
      StatusExitKnows(w, t, th', i, c, CandidateState(marked, m), m);
    }
  }

  // ---------------------------------------------------------------- tombstone and forget scans

  lemma ListedKnown(w: World, g: Goal, q: seq<Record>)
    requires TombstonesInv(w) && Enumerates(q, w.store, GoalKind(g))
    ensures ScanInv(w, g, q, None)
  {
    forall r | r in q ensures Known(w, g, r) {
      assert r in w.store;
    }
  }

  lemma ScanLeaves(w: World, t: nat, th: Thread, g: Goal, found: Option<Record>)
    requires TombstonesInv(w)
    requires th.pc == ScanExit(g, found) && ScanInv(w, g, [], found)
    ensures PcInv(w, t, th)
  {
    hide ScanExit, PcInv, StatusExit, GoodTombstone, TombstonesInv, ScanInv;
    match g {
      case StatusForget(i, c) =>
        ForgetScanLeaves(w, t, th, i, c, found);
      case StatusRetention(i, c) =>
        RetentionScanLeaves(w, t, th, i, c, found);
      case _ =>
        RecoveryScanLeaves(w, t, th, g, found);
    }
  }

  lemma ForgetScanLeaves(w: World, t: nat, th: Thread, i: IntentRecord, c: Caller, found: Option<Record>)
    requires th.pc == ScanExit(StatusForget(i, c), found)
    ensures PcInv(w, t, th)
  {
    hide StatusExit, GoodTombstone, FoundInv, QueueInv, VerifyInv;
    if found.Some? && found.value.Forget? {
      StatusExitKnows(w, t, th, i, c, Forgetting, Some(found.value.forget.retention.outcome));
    }
  }

  lemma FoundTombstone(w: World, i: IntentRecord, c: Caller, found: Option<Record>)
    requires TombstonesInv(w) && ScanInv(w, StatusRetention(i, c), [], found) && found.Some?
    ensures found.value.Retention? && found.value.retention in w.tombstones && found.value.retention.intent == i
  {
    hide Linked;
    assert GoodTombstone(w, found.value.retention);
  }

  lemma RetentionScanLeaves(w: World, t: nat, th: Thread, i: IntentRecord, c: Caller, found: Option<Record>)
    requires TombstonesInv(w) && th.pc == ScanExit(StatusRetention(i, c), found) && ScanInv(w, StatusRetention(i, c), [], found)
    ensures PcInv(w, t, th)
  {
    hide TombstonesInv, ScanInv, GoodTombstone, ReserveInv;
    if found.Some? { FoundTombstone(w, i, c, found); }
  }

  lemma RecoveryScanLeaves(w: World, t: nat, th: Thread, g: Goal, found: Option<Record>)
    requires g.PruneForget? || g.PruneRetention? || g.ForgetMarker?
    requires th.pc == ScanExit(g, found) && ScanInv(w, g, [], found)
    ensures PcInv(w, t, th)
  {
    hide GoodTombstone, ReserveInv, StatusInv, Selects, ForgetFor;
  }

  lemma ScanListReads(w: World, t: nat, th: Thread, resp: Response)
    requires TombstonesInv(w) && th.pc.ScanList? && Responds(w.store, Want(th.pc), resp, w.store)
    ensures PcInv(w, t, Moved(w, th, resp))
  {
    var th' := Moved(w, th, resp);
    var ScanList(g, second, before) := th.pc;
    if resp.Listed? {
      ListedKnown(w, g, resp.records);
      if second && resp.records == [] && before == [] { ScanLeaves(w, t, th', g, None); }
    }
  }

  /** The match so far, after the record at the head was looked at. */
  function NextHit(g: Goal, r: Record, m: Option<Record>): Option<Record> {
    if Selects(g, r) then Some(r) else m
  }

  lemma ScanLoadGoes(th: Thread, w: World, resp: Response, g: Goal, second: bool, before: seq<Record>, q: seq<Record>, m: Option<Record>)
    requires th.pc == ScanLoad(g, second, before, q, m) && q != []
    ensures
      || Moved(w, th, resp).pc == STOP
      || Moved(w, th, resp).pc == ScanNext(g, second, before, q[1..], NextHit(g, q[0], m))
  {
    hide Selects, ScanNext;
  }

  lemma ScannedKnown(w: World, g: Goal, q: seq<Record>, m: Option<Record>)
    requires q != [] && ScanInv(w, g, q, m)
    ensures ScanInv(w, g, q[1..], NextHit(g, q[0], m))
  {
    hide Known, Selects;
    assert q[0] in q;
    assert forall r :: r in q[1..] ==> r in q;
  }

  lemma ScanNextKnows(w: World, t: nat, th: Thread, g: Goal, second: bool, before: seq<Record>, q: seq<Record>, m: Option<Record>)
    requires TombstonesInv(w) && ScanInv(w, g, q, m) && th.pc == ScanNext(g, second, before, q, m)
    ensures PcInv(w, t, th)
  {
    hide ScanExit, TombstonesInv, ScanInv, GoodTombstone, Bound, ReserveInv, StatusInv;
    if q == [] && second {
      EmptyScan(w, g, q, m);
      ScanLeaves(w, t, th, g, m);
    }
  }

  lemma EmptyScan(w: World, g: Goal, q: seq<Record>, m: Option<Record>)
    requires ScanInv(w, g, q, m)
    ensures ScanInv(w, g, [], m)
  {
    hide Known, Selects;
  }

  lemma ScanLoadReads(w: World, t: nat, th: Thread, resp: Response)
    requires TombstonesInv(w) && th.pc.ScanLoad? && RetentionInv(w, th.pc)
    ensures PcInv(w, t, Moved(w, th, resp))
  {
    var ScanLoad(g, second, before, q, m) := th.pc;
    hide TombstonesInv, ScanInv, PcInv, Moved, ScanNext, NextHit;
    ScanLoadGoes(th, w, resp, g, second, before, q, m);
    if Moved(w, th, resp).pc == STOP {
      StoppedKnows(w, t, Moved(w, th, resp));
    } else {
      ScannedKnown(w, g, q, m);
      ScanNextKnows(w, t, Moved(w, th, resp), g, second, before, q[1..], NextHit(g, q[0], m));
    }
  }

  lemma ScanReads(w: World, t: nat, th: Thread, resp: Response)
    requires TombstonesInv(w)
    requires th.pc.ScanList? || (th.pc.ScanLoad? && RetentionInv(w, th.pc))
    requires Responds(w.store, Want(th.pc), resp, w.store)
    ensures PcInv(w, t, Moved(w, th, resp))
  {
    hide *;
    if th.pc.ScanList? { ScanListReads(w, t, th, resp); } else { ScanLoadReads(w, t, th, resp); }
  }

  // ---------------------------------------------------------------- Prune and Forget

  lemma StatusRemainReads(w: World, t: nat, th: Thread, resp: Response)
    requires th.pc.StatusRemain? && RetentionInv(w, th.pc) && Responds(w.store, Want(th.pc), resp, w.store)
    ensures PcInv(w, t, Moved(w, th, resp))
  {
    var StatusRemain(i, c, r, k) := th.pc;
    if resp.Found? {
      StatusExitKnows(w, t, Moved(w, th, resp), i, c, Pruning, Some(r.outcome));
    } else if resp.Absent? && 2 <= k {
      StatusExitKnows(w, t, Moved(w, th, resp), i, c, Pruned, Some(r.outcome));
    }
  }

  lemma IntentReads(w: World, t: nat, th: Thread, resp: Response)
    requires th.pc.StatusIntent?
    requires IntentsInv(w) && RetentionInv(w, th.pc) && Responds(w.store, Want(th.pc), resp, w.store)
    ensures PcInv(w, t, Moved(w, th, resp))
  {
    hide GoodTombstone, ScanInv, Bound, ReserveInv, Linked, ValidIntent;
  }

  lemma OutcomeReads(w: World, t: nat, th: Thread, resp: Response)
    requires th.pc.OutcomeVerify?
    requires RetentionInv(w, th.pc) && Responds(w.store, Want(th.pc), resp, w.store)
    ensures PcInv(w, t, Moved(w, th, resp))
  {
    hide GoodTombstone, ScanInv, ReserveInv, StatusInv, Linked, ValidIntent;
  }

  lemma TombstoneReads(w: World, t: nat, th: Thread, resp: Response)
    requires th.pc.PruneConfirmSet? || th.pc.PruneConfirm? || th.pc.PruneFinish?
    requires RetentionInv(w, th.pc) && Responds(w.store, Want(th.pc), resp, w.store)
    ensures PcInv(w, t, Moved(w, th, resp))
  {
    hide GoodTombstone, ScanInv, Bound, ReserveInv, StatusInv, Linked, ValidIntent;
  }

  lemma ChainReads(w: World, t: nat, th: Thread, resp: Response)
    requires th.pc.StatusIntent? || th.pc.OutcomeVerify? || th.pc.PruneConfirmSet? || th.pc.PruneConfirm? || th.pc.PruneFinish?
    requires IntentsInv(w) && RetentionInv(w, th.pc) && Responds(w.store, Want(th.pc), resp, w.store)
    ensures PcInv(w, t, Moved(w, th, resp))
  {
    hide *;
    if th.pc.StatusIntent? {
      IntentReads(w, t, th, resp);
    } else if th.pc.OutcomeVerify? {
      OutcomeReads(w, t, th, resp);
    } else {
      TombstoneReads(w, t, th, resp);
    }
  }

  lemma ForgetReads(w: World, t: nat, th: Thread, resp: Response)
    requires th.pc.ForgetLoad? || th.pc.ForgetAbsent? || th.pc.ForgetConfirm? || th.pc.ForgetCheck?
    requires TombstonesInv(w) && RetentionInv(w, th.pc) && Responds(w.store, Want(th.pc), resp, w.store)
    ensures PcInv(w, t, Moved(w, th, resp))
  {
    hide GoodTombstone, ScanInv, Bound, ReserveInv, StatusInv, TombstonesInv;
    var th' := Moved(w, th, resp);
    if th.pc.ForgetLoad? {
      assert resp.Found? ==> th.pc.retention in w.tombstones by { hide PcInv, Moved; LoadedTombstone(w, th.pc.retention); }
    }
  }

  lemma LoadedTombstone(w: World, r: RetentionRecord)
    requires TombstonesInv(w)
    ensures Retention(r) in w.store ==> r in w.tombstones
  {
    hide GoodTombstone;
  }

  // ---------------------------------------------------------------- answers

  lemma VerifiedAnswer(w: World, th: Thread, resp: Response, a: Answer)
    requires th.pc.StatusVerify? && VerifyInv(w, th, th.pc.intent, th.pc.marked, th.pc.found, th.pc.index)
    requires resp.Found? && th.pc.index == 0 ==> Intent(th.pc.intent) in w.store
    requires resp.Found? || resp.Absent? || resp.Fault?
    requires OutcomesBound(w) && th.lookedAt <= w.clock
    requires Advance(th.pc, resp) == Done(StatusIs(a.intent, a.verdict, a.outcome))
    requires a.begun == th.begun && a.listedAt == th.listedAt && a.lookedAt == th.lookedAt && a.ended == w.clock
    ensures AnswerInv(w, a)
  {
    hide Bound, OutcomeMatches, AttemptMatchesIntent, ValidOutcome, ValidIntent, ValidAttempt, ValidReceipt, ValidRetention;
    if th.pc.found.Some? { LinkedNames(th.pc.found.value, th.pc.intent); }
  }

  lemma TombstoneNames(w: World, r: RetentionRecord)
    requires GoodTombstone(w, r) && OutcomesBound(w)
    ensures r.outcome in w.outcomes && w.outcomes[r.outcome] < w.clock && OutcomeOf(r.outcome, r.intent)
  {
    hide Bound, MarkerBefore, Linked, RetentionFor;
    LinkedNames(r.outcome, r.intent);
  }

  lemma DecidedAnswer(w: World, o: OutcomeRecord, a: Answer)
    requires o in w.outcomes && w.outcomes[o] < w.clock && OutcomeOf(o, a.intent)
    requires a.outcome == Some(o) && a.ended == w.clock
    requires a.verdict.Pruning? || a.verdict.Pruned? || a.verdict.Forgetting?
    ensures AnswerInv(w, a)
  {
  }

  lemma TombstoneAnswer(w: World, r: RetentionRecord, a: Answer)
    requires GoodTombstone(w, r) && OutcomesBound(w)
    requires a.intent == r.intent && a.outcome == Some(r.outcome) && a.ended == w.clock
    requires a.verdict.Pruning? || a.verdict.Pruned? || a.verdict.Forgetting?
    ensures AnswerInv(w, a)
  {
    hide *;
    TombstoneNames(w, r);
    DecidedAnswer(w, r.outcome, a);
  }

  lemma RemainGoes(pc: Pc, resp: Response, a: Answer)
    requires pc.StatusRemain? && Advance(pc, resp) == Done(StatusIs(a.intent, a.verdict, a.outcome))
    ensures a.intent == pc.intent && a.outcome == Some(pc.retention.outcome) && (a.verdict.Pruning? || a.verdict.Pruned?)
  {
  }

  lemma RemainAnswer(w: World, th: Thread, resp: Response, a: Answer)
    requires th.pc.StatusRemain? && RetentionInv(w, th.pc) && OutcomesBound(w) && TombstonesInv(w)
    requires Advance(th.pc, resp) == Done(StatusIs(a.intent, a.verdict, a.outcome)) && a.ended == w.clock
    ensures AnswerInv(w, a)
  {
    hide Advance, AnswerInv, OutcomesBound, GoodTombstone;
    RemainGoes(th.pc, resp, a);
    TombstoneAnswer(w, th.pc.retention, a);
  }

  lemma ScanAnswerGoes(pc: Pc, resp: Response, a: Answer)
    requires pc.ScanLoad? && pc.queue != []
    requires Advance(pc, resp) == Done(StatusIs(a.intent, a.verdict, a.outcome))
    ensures pc.goal.StatusForget? && a.intent == pc.goal.intent && a.verdict == Forgetting
    ensures exists f :: (pc.hit == Some(Forget(f)) || (pc.queue[0] == Forget(f) && Selects(pc.goal, Forget(f))))
                        && a.outcome == Some(f.retention.outcome)
  {
    hide ValidIntent;
    var found := if Selects(pc.goal, pc.queue[0]) then Some(pc.queue[0]) else pc.hit;
    assert ScanExit(pc.goal, found) == Done(StatusIs(a.intent, a.verdict, a.outcome));
    var f := found.value.forget;
    assert a.outcome == Some(f.retention.outcome);
  }

  lemma TombstoneRef(w: World, r: RetentionRecord)
    requires GoodTombstone(w, r)
    ensures r.intentRef == IntentRef(r.intent)
  {
    hide Linked;
  }

  lemma ScanAnswer(w: World, th: Thread, resp: Response, a: Answer)
    requires th.pc.ScanLoad? && RetentionInv(w, th.pc) && OutcomesBound(w) && TombstonesInv(w)
    requires Advance(th.pc, resp) == Done(StatusIs(a.intent, a.verdict, a.outcome)) && a.ended == w.clock
    ensures AnswerInv(w, a)
  {
    hide Advance, OutcomesBound, AnswerInv, GoodTombstone;
    ScanAnswerGoes(th.pc, resp, a);
    var f :| (th.pc.hit == Some(Forget(f)) || (th.pc.queue[0] == Forget(f) && Selects(th.pc.goal, Forget(f))))
             && a.outcome == Some(f.retention.outcome);
    assert th.pc.queue[0] in th.pc.queue;
    assert Known(w, th.pc.goal, Forget(f)) && Selects(th.pc.goal, Forget(f));
    assert GoodTombstone(w, f.retention);
    TombstoneRef(w, f.retention);
    TombstoneAnswer(w, f.retention, a);
  }

  /** Only these places answer a status. */
  lemma AnswersFrom(pc: Pc, resp: Response)
    requires Advance(pc, resp).Done? && Advance(pc, resp).result.StatusIs?
    ensures pc.StatusVerify? || pc.StatusRemain? || pc.ScanLoad?
  {
  }
}
