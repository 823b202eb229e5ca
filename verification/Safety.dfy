/** Every action keeps the invariant, so every reachable world has it; and what follows. */
module Safety {
  import opened Basics
  import opened Records
  import opened Program
  import opened Protocol
  import opened Invariant
  import opened Preservation
  import opened Progress

  // ---------------------------------------------------------------- the call that steps

  lemma QuietEvolves(w: World, w': World, t: nat, pc: Pc)
    requires Delta(w, w', t, pc) && w'.grants == w.grants && w'.posts == w.posts
    ensures Evolves(w, w', w.nextThread)
  {
  }

  ghost predicate Reader(pc: Pc) {
    && !pc.ReserveImport? && !pc.Acquired? && !pc.Posted? && !pc.OutcomeImport? && !pc.PruneImport? && !pc.PruneRemove?
    && !pc.ForgetImport? && !pc.ForgetRemove? && !pc.Done? && !(pc.ReserveVerify? && 0 < pc.index)
  }

  lemma ReaderStatus(w: World, t: nat, th: Thread, resp: Response)
    requires SharedInv(w) && ThreadInv(w, t, th) && IsStatus(th.pc)
    requires Responds(w.store, Want(th.pc), resp, w.store)
    ensures PcInv(w, t, Moved(w, th, resp))
  {
    hide OutcomeMatches, Moved, QueueInv, Covered, VerifyInv, PcInv, TombstonesInv, AnswersInv, PostsInv, IntentsInv;
    assert StatusInv(w, th) by { UnfoldStatus(w, t, th); }
    match th.pc {
      case StatusList(i, c) => StatusListReads(w, t, th, resp);
      case StatusScan(i, c, q, m) =>
        assert q != [] by { NonEmpty(w, i, q, m); }
        StatusScanReads(w, t, th, resp, i, c, q, m);
      case StatusAttempt(i, c, m) => StatusAttemptReads(w, t, th, resp);
      case StatusVerify(i, c, marked, m, k) => StatusVerifyReads(w, t, th, resp);
    }
  }

  lemma UnfoldStatus(w: World, t: nat, th: Thread)
    requires PcInv(w, t, th) && IsStatus(th.pc)
    ensures StatusInv(w, th)
  {
  }

  lemma NonEmpty(w: World, i: IntentRecord, q: seq<Record>, m: Option<OutcomeRecord>)
    requires QueueInv(w, i, q, m)
    ensures q != []
  {
  }

  lemma UnfoldReserve(w: World, t: nat, th: Thread)
    requires PcInv(w, t, th) && IsReserve(th.pc)
    ensures ReserveInv(w, t, th.pc)
  {
  }

  lemma UnfoldRetention(w: World, t: nat, th: Thread)
    requires PcInv(w, t, th) && !IsReserve(th.pc) && !IsStatus(th.pc)
    ensures RetentionInv(w, th.pc)
  {
  }

  lemma ReaderReserve(w: World, t: nat, th: Thread, resp: Response)
    requires SharedInv(w) && ThreadInv(w, t, th) && IsReserve(th.pc) && Reader(th.pc)
    requires Responds(w.store, Want(th.pc), resp, w.store)
    ensures PcInv(w, t, Moved(w, th, resp))
  {
    hide OutcomeMatches, Moved, QueueInv, PcInv, TombstonesInv, AnswersInv, PostsInv;
    UnfoldReserve(w, t, th);
    if th.pc.ReserveScan? {
      NonEmpty(w, th.pc.intent, th.pc.queue, th.pc.found);
      ReserveScanReads(w, t, th, resp, th.pc.intent, th.pc.queue, th.pc.found);
    } else {
      ReserveReads(w, t, th, resp);
    }
  }

  lemma ReaderRetention(w: World, t: nat, th: Thread, resp: Response)
    requires IntentsInv(w) && TombstonesInv(w) && RetentionInv(w, th.pc)
    requires !IsReserve(th.pc) && !IsStatus(th.pc) && Reader(th.pc)
    requires Responds(w.store, Want(th.pc), resp, w.store)
    ensures PcInv(w, t, Moved(w, th, resp))
  {
    hide RetentionInv, IntentsInv, TombstonesInv, Responds, Moved, PcInv;
    if th.pc.ScanList? || th.pc.ScanLoad? {
      ScanReads(w, t, th, resp);
    } else if th.pc.StatusRemain? {
      StatusRemainReads(w, t, th, resp);
    } else if th.pc.StatusIntent? || th.pc.OutcomeVerify? || th.pc.PruneConfirmSet? || th.pc.PruneConfirm? || th.pc.PruneFinish? {
      ChainReads(w, t, th, resp);
    } else {
      ForgetReads(w, t, th, resp);
    }
  }

  /** A step that only reads leaves the call knowing what its next place needs. */
  lemma ReaderKnows(w: World, w': World, t: nat, th: Thread, resp: Response)
    requires SharedInv(w) && ThreadInv(w, t, th) && Reader(th.pc)
    requires Responds(w.store, Want(th.pc), resp, w.store)
    requires Delta(w, w', t, th.pc) && w'.grants == w.grants && w'.posts == w.posts
    ensures ThreadInv(w', t, Moved(w, th, resp))
  {
    hide IntentsInv, MarkersInv, OutcomesInv, GrantsInv, PostsInv, AnswersInv, ReserveInv, StatusInv, RetentionInv,
         Responds, Want, Advance, Reader, Delta, Evolves, GoodTombstone, IsReserve, IsStatus, PcInv;
    if IsReserve(th.pc) { ReaderReserve(w, t, th, resp); }
    else if IsStatus(th.pc) { ReaderStatus(w, t, th, resp); }
    else {
      UnfoldRetention(w, t, th);
      ReaderRetention(w, t, th, resp);
    }
    QuietEvolves(w, w', t, th.pc);
    ThreadStable(w, w', w.nextThread, t, Moved(w, th, resp));
  }

  // ---------------------------------------------------------------- steps that write, acquire or submit

  lemma ReserveWrites(w: World, w': World, t: nat, th: Thread, resp: Response)
    requires MarkersInv(w) && t < w.nextThread
    requires th.pc.ReserveImport? && ReserveInv(w, t, th.pc) && Delta(w, w', t, th.pc)
    requires Responds(w.store, Want(th.pc), resp, w'.store)
    ensures PcInv(w', t, Moved(w, th, resp))
  {
    hide ValidOutcome, ValidIntent, ValidAttempt, ValidReceipt, ValidRetention;
    var i := th.pc.intent;
    if resp == Imported(true) {
      assert Marker(i) in w'.store && Marker(i) !in w.store;
      assert Intent(i) in w'.store ==> Intent(i) in w.store;
    }
  }

  /** Only the first publisher of the marker passes the check of the intent: it acquires. */
  lemma ReserveAcquires(w: World, w': World, t: nat, th: Thread, resp: Response)
    requires th.pc.ReserveVerify? && 0 < th.pc.index && ReserveInv(w, t, th.pc)
    requires w'.posts == w.posts && resp.Found?
    requires w'.grants == w.grants + [Grant(th.session, t, th.pc.intent, w.clock, None)]
    ensures PcInv(w', t, Moved(w, th, resp))
  {
    assert w'.grants[|w.grants|].thread == t;
  }

  lemma PrunePublishes(w: World, w': World, t: nat, th: Thread, resp: Response)
    requires th.pc.PruneImport? && RetentionInv(w, th.pc) && Delta(w, w', t, th.pc)
    requires Responds(w.store, Want(th.pc), resp, w'.store)
    ensures PcInv(w', t, Moved(w, th, resp))
  {
    hide OutcomeMatches, AuthorityDelta;
  }

  lemma PruneRemoves(w: World, w': World, t: nat, th: Thread, resp: Response)
    requires TombstonesInv(w) && th.pc.PruneRemove? && RetentionInv(w, th.pc) && Delta(w, w', t, th.pc)
    requires Responds(w.store, Want(th.pc), resp, w'.store)
    ensures PcInv(w', t, Moved(w, th, resp))
  {
    hide *;
    RemoverKnows(w, th.pc);
    RemovedAt(w.store, w'.store, th.pc, resp);
    RemoverKeeps(w, w', t, th.pc);
    RemoveGoes(w, th, resp);
    RemoveKnows(w', t, Moved(w, th, resp), th.pc.retention);
  }

  lemma RemoverKnows(w: World, pc: Pc)
    requires TombstonesInv(w) && pc.PruneRemove? && RetentionInv(w, pc)
    ensures pc.retention in w.tombstones && Original(pc.retention, 0) == Intent(pc.retention.intent)
    ensures pc.index == 0 || Intent(pc.retention.intent) !in w.store
  {
    hide OutcomeMatches;
    assert GoodTombstone(w, pc.retention);
  }

  lemma RemoverKeeps(w: World, w': World, t: nat, pc: Pc)
    requires pc.PruneRemove? && Delta(w, w', t, pc)
    ensures w'.tombstones == w.tombstones
  {
    hide StoreDelta, AuthorityDelta;
  }

  /** A removal that goes on stays at its place; a finished one is followed by the next. */
  lemma RemoveGoes(w: World, th: Thread, resp: Response)
    requires th.pc.PruneRemove?
    ensures var pc := Moved(w, th, resp).pc; var r := th.pc.retention;
            || pc == STOP || (resp.Staged? && pc == th.pc)
            || (!resp.Fault? && !resp.Staged? && (pc == PruneRemove(r, th.pc.index + 1) || pc == PruneFinish(r, 0)))
  {
  }

  lemma RemoveKnows(w: World, t: nat, th: Thread, r: RetentionRecord)
    requires
      || th.pc == STOP
      || (r in w.tombstones && th.pc == PruneRemove(r, 0))
      || (r in w.tombstones && Intent(r.intent) !in w.store && (th.pc == PruneFinish(r, 0) || (th.pc.PruneRemove? && th.pc.retention == r)))
    ensures PcInv(w, t, th)
  {
    hide GoodTombstone, ScanInv, Bound, ReserveInv, StatusInv;
  }

  lemma RemovedAt(s: set<Record>, s': set<Record>, pc: Pc, resp: Response)
    requires pc.PruneRemove? && Responds(s, Want(pc), resp, s')
    ensures s' <= s && (resp.Fault? || resp.Staged? || s' == s - {Original(pc.retention, pc.index)})
  {
    hide Original;
  }

  lemma OtherWrites(w: World, w': World, t: nat, th: Thread, resp: Response)
    requires th.pc.OutcomeImport? || th.pc.ForgetImport? || th.pc.ForgetRemove? || th.pc.Acquired?
    requires PcInv(w, t, th) && Delta(w, w', t, th.pc)
    ensures PcInv(w', t, Moved(w, th, resp))
  {
    hide *;
    OtherGoes(w, th, resp);
    OtherTombstone(w, w', t, th);
    OtherKnows(w', t, Moved(w, th, resp));
  }

  lemma OtherGoes(w: World, th: Thread, resp: Response)
    requires th.pc.OutcomeImport? || th.pc.ForgetImport? || th.pc.ForgetRemove? || th.pc.Acquired?
    ensures var pc := Moved(w, th, resp).pc;
      || pc == STOP || pc.OutcomeVerify? || pc.Posted? || pc.ForgetCheck?
      || (th.pc.ForgetImport? && pc == ForgetAbsent(th.pc.retention, true, 0))
      || (th.pc.ForgetRemove? && pc.ForgetRemove? && pc.retention == th.pc.retention)
  {
  }

  lemma OtherTombstone(w: World, w': World, t: nat, th: Thread)
    requires PcInv(w, t, th) && Delta(w, w', t, th.pc)
    ensures th.pc.ForgetImport? || th.pc.ForgetRemove? ==> th.pc.retention in w'.tombstones
  {
    hide StoreDelta, AuthorityDelta, GoodTombstone, ScanInv, Bound, ReserveInv, StatusInv;
  }

  lemma OtherKnows(w: World, t: nat, th: Thread)
    requires th.pc == STOP || th.pc.OutcomeVerify? || th.pc.Posted? || th.pc.ForgetCheck?
             || ((th.pc.ForgetAbsent? || th.pc.ForgetRemove?) && th.pc.retention in w.tombstones)
    ensures PcInv(w, t, th)
  {
    hide GoodTombstone, ScanInv, Bound, ReserveInv, StatusInv;
  }

  lemma FailureStops(w: World, th: Thread, resp: Response)
    requires resp.Fault? || (th.pc.ReserveVerify? && resp.Absent?)
    ensures Moved(w, th, resp).pc == STOP
  {
  }

  lemma WriterKnows(w: World, w': World, t: nat, th: Thread, resp: Response)
    requires SharedInv(w) && ThreadInv(w, t, th) && !Reader(th.pc)
    requires Responds(w.store, Want(th.pc), resp, w'.store) && Delta(w, w', t, th.pc)
    requires th.pc.ReserveVerify? && resp.Found? ==>
               w'.grants == w.grants + [Grant(th.session, t, th.pc.intent, w.clock, None)]
    ensures ThreadInv(w', t, Moved(w, th, resp))
  {
    hide IntentsInv, MarkersInv, OutcomesInv, TombstonesInv, GrantsInv, PostsInv, AnswersInv, ReserveInv, RetentionInv,
         Want, Advance, HistoryDelta, PcInv;
    WantsWrite(w, t, th, resp, w'.store);
    if resp.Fault? || (th.pc.ReserveVerify? && resp.Absent?) {
      FailureStops(w, th, resp);
      StoppedKnows(w', t, Moved(w, th, resp));
    } else if th.pc.ReserveImport? {
      UnfoldReserve(w, t, th);
      ReserveWrites(w, w', t, th, resp);
    } else if th.pc.ReserveVerify? && resp.Found? {
      UnfoldReserve(w, t, th);
      ReserveAcquires(w, w', t, th, resp);
    } else if th.pc.PruneImport? || th.pc.PruneRemove? {
      UnfoldRetention(w, t, th);
      if th.pc.PruneImport? { PrunePublishes(w, w', t, th, resp); } else { PruneRemoves(w, w', t, th, resp); }
    } else {
      OtherWrites(w, w', t, th, resp);
    }
  }

  lemma WantsWrite(w: World, t: nat, th: Thread, resp: Response, s': set<Record>)
    requires !Reader(th.pc) && Responds(w.store, Want(th.pc), resp, s')
    ensures !th.pc.Posted? && !th.pc.Done?
    ensures th.pc.ReserveVerify? ==> resp.Found? || resp.Absent? || resp.Fault?
  {
  }

  // ---------------------------------------------------------------- one step of one call

  lemma StepMoves(w: World, w': World, t: nat, resp: Response, s': set<Record>)
    requires Step(w, w', t, resp, s')
    ensures w'.threads[t] == Moved(w, w.threads[t], resp) && w'.store == s'
  {
    hide Want, Advance, Responds;
  }

  lemma ReaderKeeps(w: World, w': World, t: nat, resp: Response, s': set<Record>)
    requires Step(w, w', t, resp, s') && Reader(w.threads[t].pc)
    ensures s' == w.store && w'.grants == w.grants && w'.posts == w.posts
  {
    hide Linked, Selects;
  }

  lemma VerifyAcquires(w: World, w': World, t: nat, resp: Response, s': set<Record>)
    requires Step(w, w', t, resp, s') && resp.Found?
    requires var pc := w.threads[t].pc; pc.ReserveVerify? && 0 < pc.index
    ensures var th := w.threads[t]; w'.grants == w.grants + [Grant(th.session, t, th.pc.intent, w.clock, None)]
  {
    hide Responds, Linked, Selects;
  }

  lemma StepGrants(w: World, w': World, t: nat, resp: Response, s': set<Record>)
    requires Step(w, w', t, resp, s')
    ensures var th := w.threads[t];
      && w'.threads[t] == Moved(w, th, resp)
      && w'.store == s'
      && (Reader(th.pc) ==> s' == w.store && w'.grants == w.grants && w'.posts == w.posts)
      && (th.pc.ReserveVerify? && 0 < th.pc.index && resp.Found? ==>
            w'.grants == w.grants + [Grant(th.session, t, th.pc.intent, w.clock, None)])
  {
    StepThread(w, w', t, resp, s');
    hide *;
    StepMoves(w, w', t, resp, s');
    var pc := w.threads[t].pc;
    if Reader(pc) { ReaderKeeps(w, w', t, resp, s'); }
    if pc.ReserveVerify? && 0 < pc.index && resp.Found? { VerifyAcquires(w, w', t, resp, s'); }
  }

  lemma StepThread(w: World, w': World, t: nat, resp: Response, s': set<Record>)
    requires Step(w, w', t, resp, s')
    ensures t in w.threads && t in w'.threads
  {
    hide Want, Advance, Responds;
  }

  /** A new answer is what the stepping call returned. */
  lemma NewAnswer(w: World, w': World, t: nat, resp: Response, s': set<Record>, a: Answer)
    requires Step(w, w', t, resp, s') && a in w'.answers && a !in w.answers
    ensures var th := w.threads[t];
      && Advance(th.pc, resp) == Done(StatusIs(a.intent, a.verdict, a.outcome))
      && a.begun == th.begun && a.listedAt == th.listedAt && a.lookedAt == th.lookedAt && a.ended == w.clock
      && Responds(w.store, Want(th.pc), resp, s')
  {
    hide Advance, Responds, Want;
  }

  lemma StepAnswers(w: World, w': World, t: nat, resp: Response, s': set<Record>, a: Answer)
    requires SharedInv(w) && t in w.threads && Step(w, w', t, resp, s') && ThreadInv(w, t, w.threads[t])
    requires a in w'.answers && a !in w.answers
    ensures AnswerInv(w, a)
  {
    hide IntentsInv, MarkersInv, GrantsInv, PostsInv, AnswersInv, OutcomesStored, AnswerInv, Step, Advance, TombstonesInv, OutcomesBound,
         Responds, PcInv, Want;
    var th := w.threads[t];
    NewAnswer(w, w', t, resp, s', a);
    AnswersFrom(th.pc, resp);
    if th.pc.StatusVerify? {
      VerifyKnows(w, t, th, resp, s');
      VerifiedAnswer(w, th, resp, a);
    } else if th.pc.StatusRemain? {
      UnfoldRetention(w, t, th);
      RemainAnswer(w, th, resp, a);
    } else {
      UnfoldRetention(w, t, th);
      ScanAnswer(w, th, resp, a);
    }
  }

  lemma VerifyKnows(w: World, t: nat, th: Thread, resp: Response, s': set<Record>)
    requires PcInv(w, t, th) && th.pc.StatusVerify? && Responds(w.store, Want(th.pc), resp, s')
    ensures VerifyInv(w, th, th.pc.intent, th.pc.marked, th.pc.found, th.pc.index)
    ensures resp.Found? && th.pc.index == 0 ==> Intent(th.pc.intent) in w.store
    ensures resp.Found? || resp.Absent? || resp.Fault?
  {
    hide VerifyInv, ReserveInv;
  }

  /** What the invariant of the stepping call says about the record it may write. */
  ghost predicate MayWrite(w: World, t: nat, pc: Pc) {
    && (pc.ReserveImport? ==> pc.intent in w.intents && t < w.nextThread)
    && (pc.OutcomeImport? ==> Bound(w, pc.outcome) && Linked(pc.outcome, pc.intent))
    && (pc.PruneRemove? ==>
          pc.retention in w.tombstones && GoodTombstone(w, pc.retention)
          && (0 < pc.index ==> Intent(pc.retention.intent) !in w.store))
    && (pc.PruneImport? ==> GoodTombstone(w, pc.retention))
    && (pc.ForgetImport? ==> pc.retention in w.tombstones)
    && (pc.ReserveVerify? || pc.Acquired? ==> ReserveInv(w, t, pc))
  }

  lemma ThreadMayWrite(w: World, t: nat, th: Thread)
    requires ThreadInv(w, t, th) && TombstonesInv(w)
    ensures MayWrite(w, t, th.pc)
  {
    hide Bound, OutcomeMatches, HasGrant, NoGrant, NoPost;
    assert th.pc.PruneRemove? ==> GoodTombstone(w, th.pc.retention);
  }

  lemma DeltaShared(w: World, w': World, t: nat, pc: Pc)
    requires SharedInv(w) && Delta(w, w', t, pc) && Evolves(w, w', t) && MayWrite(w, t, pc)
    ensures IntentsInv(w') && MarkersInv(w') && OutcomesInv(w') && TombstonesInv(w') && GrantsInv(w') && PostsInv(w')
  {
    hide Evolves, Delta, IntentsInv, MarkersInv, OutcomesInv, TombstonesInv, GrantsInv, PostsInv, AnswersInv,
         Bound, OutcomeMatches, ReserveInv, GoodTombstone;
    DeltaIntents(w, w', t, pc);
    DeltaMarkers(w, w', t, pc);
    DeltaOutcomes(w, w', t, pc);
    DeltaTombstones(w, w', t, pc);
    DeltaGrants(w, w', t, pc);
    DeltaPosts(w, w', t, pc);
  }

  lemma StepAnswersInv(w: World, w': World, t: nat, resp: Response, s': set<Record>)
    requires SharedInv(w) && t in w.threads && Step(w, w', t, resp, s') && ThreadInv(w, t, w.threads[t]) && Evolves(w, w', t)
    ensures AnswersInv(w')
  {
    hide Step, Evolves, ThreadInv, AnswerInv, IntentsInv, MarkersInv, OutcomesInv, TombstonesInv, GrantsInv, PostsInv;
    AnswersStable(w, w', t);
    forall a | a in w'.answers ensures AnswerInv(w', a) {
      if a !in w.answers {
        StepAnswers(w, w', t, resp, s', a);
        AnswerStable(w, w', t, a);
      }
    }
  }

  lemma AnswerStable(w: World, w': World, t: nat, a: Answer)
    requires Evolves(w, w', t) && AnswerInv(w, a)
    ensures AnswerInv(w', a)
  {
  }

  lemma StepKeeps(w: World, w': World, t: nat, resp: Response, s': set<Record>)
    requires Inv(w) && Step(w, w', t, resp, s')
    ensures Inv(w')
  {
    hide IntentsInv, MarkersInv, OutcomesInv, TombstonesInv, GrantsInv, PostsInv, AnswersInv, ThreadInv, Evolves, Delta,
         Responds, Reader, Moved, MayWrite, After;
    var th := w.threads[t];
    StepDelta(w, w', t, resp, s');
    StepGrants(w, w', t, resp, s');
    DeltaEvolves(w, w', t, th.pc);
    StepOwn(w, w', t, resp, s');
    StepOthers(w, w', t);
  }

  lemma StepOwn(w: World, w': World, t: nat, resp: Response, s': set<Record>)
    requires Inv(w) && Step(w, w', t, resp, s')
    requires Delta(w, w', t, w.threads[t].pc) && Evolves(w, w', t)
    ensures SharedInv(w') && ThreadInv(w', t, w'.threads[t])
  {
    hide IntentsInv, MarkersInv, OutcomesInv, TombstonesInv, GrantsInv, PostsInv, AnswersInv, ThreadInv, Evolves, Delta,
         Responds, Moved, MayWrite, After;
    var th := w.threads[t];
    StepGrants(w, w', t, resp, s');
    ThreadMayWrite(w, t, th);
    DeltaShared(w, w', t, th.pc);
    StepAnswersInv(w, w', t, resp, s');
    if Reader(th.pc) {
      ReaderKnows(w, w', t, th, resp);
    } else {
      WriterKnows(w, w', t, th, resp);
    }
  }

  lemma StepOthers(w: World, w': World, actor: nat)
    requires Inv(w) && Evolves(w, w', actor)
    ensures forall u :: u in w.threads && u != actor ==> ThreadInv(w', u, w.threads[u])
  {
    hide ThreadInv, Evolves, IntentsInv, MarkersInv, OutcomesInv, GrantsInv, PostsInv, AnswersInv, GoodTombstone;
    forall u | u in w.threads && u != actor ensures ThreadInv(w', u, w.threads[u]) {
      ThreadStable(w, w', actor, u, w.threads[u]);
    }
  }
}
