/**
  What holds of every run: any number of sessions reserving, submitting, storing outcomes,
  inspecting, pruning and forgetting, interleaved between single store operations, with crashes
  anywhere.
 */
module Theorems {
  import opened Basics
  import opened Records
  import opened Program
  import opened Protocol
  import opened Invariant
  import opened Preservation
  import opened Safety

  // ---------------------------------------------------------------- the remaining actions

  /** Opening, closing and crashing sessions, loading intents and starting calls write nothing. */
  lemma InertKeeps(w: World, w': World)
    requires Inv(w) && Delta(w, w', w.nextThread, STOP) && w'.answers == w.answers
    requires forall t :: t in w'.threads ==>
      (t in w.threads && w'.threads[t] == w.threads[t]) || ThreadInv(w', t, w'.threads[t])
    ensures Inv(w')
  {
    DeltaEvolves(w, w', w.nextThread, STOP);
    InertShared(w, w');
    ThreadsBelow(w);
    hide Evolves, Delta, SharedInv, ThreadInv;
    StepOthers(w, w', w.nextThread);
  }

  lemma InertShared(w: World, w': World)
    requires SharedInv(w) && Delta(w, w', w.nextThread, STOP) && w'.answers == w.answers
    ensures SharedInv(w')
  {
    DeltaEvolves(w, w', w.nextThread, STOP);
    hide Evolves, Delta, IntentsInv, MarkersInv, OutcomesInv, TombstonesInv, GrantsInv, PostsInv, AnswerInv, GoodTombstone, Bound, ReserveInv;
    AnswersStable(w, w', w.nextThread);
    DeltaShared(w, w', w.nextThread, STOP);
  }

  lemma ThreadsBelow(w: World)
    requires Inv(w)
    ensures forall t :: t in w.threads ==> t < w.nextThread
  {
    forall t | t in w.threads ensures t < w.nextThread {
      assert ThreadInv(w, t, w.threads[t]);
    }
  }

  lemma SessionKeeps(w: World, w': World)
    requires Inv(w)
    requires
      || OpenSession(w, w')
      || (exists session :: EndSession(w, w', session))
      || (exists session, i :: LoadIntent(w, w', session, i))
    ensures Inv(w')
  {
    hide SharedInv, ThreadInv;
    InertKeeps(w, w');
  }

  lemma StartKeeps(w: World, w': World, session: nat, pc: Pc)
    requires Inv(w) && Start(w, w', session, pc)
    ensures Inv(w')
  {
    hide ValidOutcome, ValidIntent, ValidAttempt, ValidReceipt, ValidRetention;
    StartKnows(w, w', session, pc);
    assert w'.threads.Keys == w.threads.Keys + {w.nextThread};
    hide SharedInv, ThreadInv, Startable;
    InertKeeps(w, w');
  }

  lemma StartKnows(w: World, w': World, session: nat, pc: Pc)
    requires IntentsInv(w) && GrantsInv(w) && PostsInv(w) && MarkersInv(w) && Start(w, w', session, pc)
    ensures ThreadInv(w', w.nextThread, w'.threads[w.nextThread])
  {
    hide ValidOutcome, ValidIntent, ValidAttempt, ValidReceipt, ValidRetention;
  }

  lemma PrepareKeeps(w: World, w': World, i: IntentRecord)
    requires Inv(w) && Prepare(w, w', i)
    ensures Inv(w')
  {
    PrepareShared(w, w', i);
    PrepareEvolves(w, w', i);
    ThreadsBelow(w);
    hide Evolves, SharedInv, ThreadInv;
    StepOthers(w, w', w.nextThread);
  }

  lemma PrepareEvolves(w: World, w': World, i: IntentRecord)
    requires Prepare(w, w', i)
    ensures Evolves(w, w', w.nextThread)
  {
  }

  lemma PrepareOutcome(w: World, w': World, i: IntentRecord, o: OutcomeRecord)
    requires MarkersInv(w) && OutcomesBound(w) && Evolves(w, w', w.nextThread) && i !in w.intents
    requires o in w.outcomes
    ensures o.intentRecordId.of.Intent? && o.intentRecordId.of.intent != i && Bound(w', o)
    ensures MarkerBefore(w', o.intentRecordId.of.intent, w.outcomes[o])
  {
    hide OutcomeMatches;
    BoundStable(w, w', w.nextThread, o);
    assert MarkerBefore(w, o.intentRecordId.of.intent, w.outcomes[o]);
  }

  lemma PrepareOutcomes(w: World, w': World, i: IntentRecord)
    requires MarkersInv(w) && OutcomesInv(w) && Prepare(w, w', i)
    ensures OutcomesInv(w')
  {
    hide Linked, ValidIntent, Evolves, Bound, MarkersInv, MarkerBefore;
    PrepareEvolves(w, w', i);
    NewIntent(w, w', i);
    forall o | o in w.outcomes
      ensures o.intentRecordId.of.Intent? && o.intentRecordId.of.intent != i && Bound(w', o)
              && MarkerBefore(w', o.intentRecordId.of.intent, w.outcomes[o])
    {
      PrepareOutcome(w, w', i, o);
    }
  }

  lemma NewIntent(w: World, w': World, i: IntentRecord)
    requires Prepare(w, w', i)
    ensures i !in w.intents
  {
    hide ValidIntent;
  }

  lemma PrepareIntents(w: World, w': World, i: IntentRecord)
    requires IntentsInv(w) && Prepare(w, w', i)
    ensures IntentsInv(w')
  {
    hide ValidIntent;
    forall j | j in w'.intents && Intent(j) !in w'.store ensures exists r :: r in w'.tombstones && r.intent == j {
      var r :| r in w.tombstones && r.intent == j;
      assert r in w'.tombstones;
    }
  }

  lemma PrepareHistory(w: World, w': World, i: IntentRecord)
    requires IntentsInv(w) && MarkersInv(w) && GrantsInv(w) && PostsInv(w) && Prepare(w, w', i)
    ensures MarkersInv(w') && GrantsInv(w') && PostsInv(w')
  {
    hide ValidIntent;
    PrepareEvolves(w, w', i);
    forall p | 0 <= p < |w'.posts| ensures HasGrant(w', w'.posts[p].thread, w'.posts[p].intent) {
      HasGrantStable(w, w', w.nextThread, w'.posts[p].thread, w'.posts[p].intent);
    }
  }

  lemma PrepareTombstones(w: World, w': World, i: IntentRecord)
    requires TombstonesInv(w) && Prepare(w, w', i)
    ensures TombstonesInv(w')
  {
    hide GoodTombstone, ValidIntent;
    PrepareEvolves(w, w', i);
    forall r | r in w'.tombstones ensures GoodTombstone(w', r) { TombstoneGood(w, w', w.nextThread, r); }
  }

  lemma PrepareShared(w: World, w': World, i: IntentRecord)
    requires SharedInv(w) && Prepare(w, w', i)
    ensures SharedInv(w')
  {
    PrepareEvolves(w, w', i);
    hide Evolves, IntentsInv, MarkersInv, OutcomesInv, TombstonesInv, GrantsInv, PostsInv, AnswerInv, ValidIntent;
    PrepareIntents(w, w', i);
    PrepareOutcomes(w, w', i);
    PrepareHistory(w, w', i);
    PrepareTombstones(w, w', i);
    AnswersStable(w, w', w.nextThread);
  }

  lemma BindEvolves(w: World, w': World, session: nat, g: nat, obs: Observation)
    requires StartOutcome(w, w', session, g, obs)
    ensures Evolves(w, w', w.nextThread)
  {
  }

  lemma BindOutcomes(w: World, w': World, session: nat, g: nat, obs: Observation)
    requires OutcomesInv(w) && StartOutcome(w, w', session, g, obs)
    ensures OutcomesInv(w')
  {
    BindEvolves(w, w', session, g, obs);
    BindSame(w, w', session, g, obs);
    hide OutcomesInv, Evolves, Bound, StartOutcome;
    forall o | o in w.outcomes ensures Bound(w, o) ==> Bound(w', o) {
      if Bound(w, o) { BoundStable(w, w', w.nextThread, o); }
    }
    SameOutcomes(w, w');
  }

  lemma SameOutcomes(w: World, w': World)
    requires OutcomesInv(w) && w'.store == w.store && w'.markers == w.markers && w'.outcomes == w.outcomes && w.clock <= w'.clock
    requires forall o :: o in w.outcomes ==> Bound(w, o) ==> Bound(w', o)
    ensures OutcomesInv(w')
  {
    hide OutcomeMatches, Bound;
  }

  lemma BindSame(w: World, w': World, session: nat, g: nat, obs: Observation)
    requires StartOutcome(w, w', session, g, obs)
    ensures w'.store == w.store && w'.intents == w.intents && w'.verified == w.verified && w'.markers == w.markers
    ensures w'.tombstones == w.tombstones && w'.outcomes == w.outcomes && w'.answers == w.answers
    ensures w'.clock == w.clock + 1 && w'.nextThread == w.nextThread + 1
  {
    hide ObservationMatches, OutcomeMatches;
  }

  lemma BindStore(w: World, w': World, session: nat, g: nat, obs: Observation)
    requires IntentsInv(w) && MarkersInv(w) && TombstonesInv(w) && StartOutcome(w, w', session, g, obs)
    ensures IntentsInv(w') && MarkersInv(w') && TombstonesInv(w')
  {
    hide IntentsInv, MarkersInv, TombstonesInv;
    BindSame(w, w', session, g, obs);
    hide StartOutcome;
    BindIntents(w, w');
    BindMarkers(w, w');
    BindTombstones(w, w');
  }

  lemma BindIntents(w: World, w': World)
    requires IntentsInv(w) && w'.store == w.store && w'.intents == w.intents && w'.verified == w.verified && w'.tombstones == w.tombstones
    ensures IntentsInv(w')
  {
    hide ValidIntent;
  }

  lemma BindMarkers(w: World, w': World)
    requires MarkersInv(w) && w'.store == w.store && w'.intents == w.intents && w'.markers == w.markers
    requires w.clock <= w'.clock && w.nextThread <= w'.nextThread
    ensures MarkersInv(w')
  {
  }

  lemma BindTombstones(w: World, w': World)
    requires TombstonesInv(w) && w'.store == w.store && w'.intents == w.intents && w'.tombstones == w.tombstones && w'.outcomes == w.outcomes
    ensures TombstonesInv(w')
  {
    hide OutcomeMatches;
  }

  lemma BindGrants(w: World, w': World, session: nat, g: nat, obs: Observation)
    requires GrantsInv(w) && PostsInv(w) && StartOutcome(w, w', session, g, obs)
    ensures GrantsInv(w') && PostsInv(w')
  {
    hide OutcomeMatches, ValidIntent;
    BindEvolves(w, w', session, g, obs);
    forall p | 0 <= p < |w'.posts| ensures HasGrant(w', w'.posts[p].thread, w'.posts[p].intent) {
      HasGrantStable(w, w', w.nextThread, w'.posts[p].thread, w'.posts[p].intent);
    }
  }

  lemma BindKnows(w: World, w': World, session: nat, g: nat, obs: Observation)
    requires StartOutcome(w, w', session, g, obs)
    ensures ThreadInv(w', w.nextThread, w'.threads[w.nextThread])
  {
    hide OutcomeMatches;
    assert w'.grants[g].bound == Some(obs) && w'.grants[g].intent == w.grants[g].intent;
  }

  lemma BindShared(w: World, w': World, session: nat, g: nat, obs: Observation)
    requires SharedInv(w) && StartOutcome(w, w', session, g, obs)
    ensures SharedInv(w')
  {
    hide Evolves, IntentsInv, MarkersInv, OutcomesInv, TombstonesInv, GrantsInv, PostsInv, AnswerInv, StartOutcome;
    BindEvolves(w, w', session, g, obs);
    BindSame(w, w', session, g, obs);
    BindOutcomes(w, w', session, g, obs);
    BindStore(w, w', session, g, obs);
    BindGrants(w, w', session, g, obs);
    AnswersStable(w, w', w.nextThread);
  }

  lemma BindThreads(w: World, w': World, session: nat, g: nat, obs: Observation)
    requires StartOutcome(w, w', session, g, obs)
    ensures w'.threads.Keys == w.threads.Keys + {w.nextThread}
    ensures forall t :: t in w.threads && t != w.nextThread ==> w'.threads[t] == w.threads[t]
  {
    hide ObservationMatches, OutcomeMatches;
  }

  lemma StartOutcomeKeeps(w: World, w': World, session: nat, g: nat, obs: Observation)
    requires Inv(w) && StartOutcome(w, w', session, g, obs)
    ensures Inv(w')
  {
    hide Evolves, SharedInv, ThreadInv, StartOutcome;
    BindShared(w, w', session, g, obs);
    BindKnows(w, w', session, g, obs);
    BindThreads(w, w', session, g, obs);
    BindEvolves(w, w', session, g, obs);
    ThreadsBelow(w);
    StepOthers(w, w', w.nextThread);
  }

  /** The invariant is inductive. */
  lemma NextKeeps(w: World, w': World)
    requires Inv(w) && Next(w, w')
    ensures Inv(w')
  {
    hide Inv, OpenSession, EndSession, Prepare, LoadIntent, Start, StartOutcome, Step;
    if i :| Prepare(w, w', i) {
      PrepareKeeps(w, w', i);
    } else if session, pc :| Start(w, w', session, pc) {
      StartKeeps(w, w', session, pc);
    } else if session, g, obs :| StartOutcome(w, w', session, g, obs) {
      StartOutcomeKeeps(w, w', session, g, obs);
    } else if t, resp, s' :| Step(w, w', t, resp, s') {
      StepKeeps(w, w', t, resp, s');
    } else {
      SessionKeeps(w, w');
    }
  }

  // ---------------------------------------------------------------- runs

  /** Time is the position in the run. */
  lemma {:induction false} RunInv(run: seq<World>, k: nat)
    requires IsRun(run) && k < |run|
    ensures Inv(run[k]) && run[k].clock == k
  {
    if k == 0 {
      assert Init(run[0]);
    } else {
      RunInv(run, k - 1);
      assert Follows(run, k);
      NextKeeps(run[k - 1], run[k]);
      NextTicks(run[k - 1], run[k]);
    }
  }

  lemma RunShared(run: seq<World>, k: nat)
    requires IsRun(run) && k < |run|
    ensures IntentsInv(run[k]) && MarkersInv(run[k]) && OutcomesInv(run[k]) && TombstonesInv(run[k])
    ensures GrantsInv(run[k]) && PostsInv(run[k]) && AnswersInv(run[k])
  {
    hide IsRun, IntentsInv, MarkersInv, OutcomesInv, TombstonesInv, GrantsInv, PostsInv, AnswersInv, ThreadInv;
    RunInv(run, k);
  }

  lemma NextTicks(w: World, w': World)
    requires Next(w, w')
    ensures w'.clock == w.clock + 1
  {
    hide Step, StartOutcome, Startable, ValidIntent;
    if t, resp, s' :| Step(w, w', t, resp, s') {
      StepTicks(w, w', t, resp, s');
    } else if session, g, obs :| StartOutcome(w, w', session, g, obs) {
      BindTicks(w, w', session, g, obs);
    }
  }

  lemma StepTicks(w: World, w': World, t: nat, resp: Response, s': set<Record>)
    requires Step(w, w', t, resp, s')
    ensures w'.clock == w.clock + 1
  {
    hide Responds, Advance;
  }

  lemma BindTicks(w: World, w': World, session: nat, g: nat, obs: Observation)
    requires StartOutcome(w, w', session, g, obs)
    ensures w'.clock == w.clock + 1
  {
    hide ObservationMatches, OutcomeMatches;
  }

  /**
    At most once: over a whole run no two submission authorities, and no two form posts, are for
    the same intent, and there is no post without an authority.
   */
  lemma AtMostOnce(run: seq<World>, k: nat)
    requires IsRun(run) && k < |run|
    ensures forall g, h :: 0 <= g < h < |run[k].grants| ==> run[k].grants[g].intent != run[k].grants[h].intent
    ensures forall p, q :: 0 <= p < q < |run[k].posts| ==> run[k].posts[p].intent != run[k].posts[q].intent
    ensures forall p :: 0 <= p < |run[k].posts| ==> HasGrant(run[k], run[k].posts[p].thread, run[k].posts[p].intent)
  {
    hide IsRun, GrantsInv;
    RunShared(run, k);
    UniqueHistory(run[k]);
  }

  lemma UniqueHistory(w: World)
    requires GrantsInv(w) && PostsInv(w)
    ensures forall g, h :: 0 <= g < h < |w.grants| ==> w.grants[g].intent != w.grants[h].intent
    ensures forall p, q :: 0 <= p < q < |w.posts| ==> w.posts[p].intent != w.posts[q].intent
  {
    forall p, q | 0 <= p < q < |w.posts| ensures w.posts[p].intent != w.posts[q].intent {
      assert HasGrant(w, w.posts[p].thread, w.posts[p].intent) && HasGrant(w, w.posts[q].thread, w.posts[q].intent);
    }
  }

  // ---------------------------------------------------------------- histories along a run

  /** What was published stays published, with its time; what is new is later. */
  ghost predicate Grows(w: World, w': World) {
    && w.intents <= w'.intents
    && (forall i :: i in w.markers ==> i in w'.markers && w'.markers[i] == w.markers[i])
    && (forall i :: i in w'.markers && i !in w.markers ==> w.clock <= w'.markers[i].at)
    && (forall o :: o in w.outcomes ==> o in w'.outcomes && w'.outcomes[o] == w.outcomes[o])
    && (forall o :: o in w'.outcomes && o !in w.outcomes ==> w.clock <= w'.outcomes[o])
    && w.tombstones <= w'.tombstones
  }

  lemma EvolvesGrows(w: World, w': World, actor: nat)
    requires Evolves(w, w', actor)
    ensures Grows(w, w')
  {
  }

  lemma InertGrows(w: World, w': World)
    requires
      || OpenSession(w, w')
      || (exists session :: EndSession(w, w', session))
      || (exists session, i :: LoadIntent(w, w', session, i))
      || (exists session, pc :: Start(w, w', session, pc))
    ensures Grows(w, w')
  {
  }

  lemma NextGrows(w: World, w': World)
    requires Next(w, w')
    ensures Grows(w, w')
  {
    hide Grows, Evolves, OpenSession, EndSession, Prepare, LoadIntent, Start, StartOutcome;
    if i :| Prepare(w, w', i) {
      PrepareEvolves(w, w', i);
      EvolvesGrows(w, w', w.nextThread);
    } else if session, g, obs :| StartOutcome(w, w', session, g, obs) {
      BindEvolves(w, w', session, g, obs);
      EvolvesGrows(w, w', w.nextThread);
    } else if t, resp, s' :| Step(w, w', t, resp, s') {
      StepDelta(w, w', t, resp, s');
      DeltaEvolves(w, w', t, w.threads[t].pc);
      EvolvesGrows(w, w', t);
    } else {
      InertGrows(w, w');
    }
  }

  lemma GrowsTrans(u: World, v: World, w: World)
    requires Grows(u, v) && Grows(v, w) && u.clock <= v.clock
    ensures Grows(u, w)
  {
  }

  lemma {:induction false} RunGrows(run: seq<World>, j: nat, k: nat)
    requires IsRun(run) && j <= k < |run|
    ensures Grows(run[j], run[k])
    decreases k - j
  {
    if j < k {
      assert Follows(run, k);
      hide IsRun, Next, Grows;
      RunGrows(run, j, k - 1);
      RunClock(run, j);
      RunClock(run, k - 1);
      NextGrows(run[k - 1], run[k]);
      GrowsTrans(run[j], run[k - 1], run[k]);
    }
  }

  lemma RunClock(run: seq<World>, k: nat)
    requires IsRun(run) && k < |run|
    ensures run[k].clock == k
  {
    hide Inv;
    RunInv(run, k);
  }

  // ---------------------------------------------------------------- marker and outcome

  /**
    The marker invariant at every instant: while an intent is in the store without its attempt
    marker, no marker was ever published for it, nobody was authorised and nothing was posted.
   */
  lemma MarkerInvariant(run: seq<World>, k: nat, i: IntentRecord)
    requires IsRun(run) && k < |run|
    requires Intent(i) in run[k].store && Marker(i) !in run[k].store
    ensures i !in run[k].markers
    ensures forall g :: 0 <= g < |run[k].grants| ==> run[k].grants[g].intent != i
    ensures forall p :: 0 <= p < |run[k].posts| ==> run[k].posts[p].intent != i
  {
    hide IsRun, PostsInv, OutcomesInv, TombstonesInv, IntentsInv, AnswersInv;
    RunShared(run, k);
    AtMostOnce(run, k);
  }

  /**
    Outcome uniqueness: at most one outcome is ever published for an intent, and no scan ever
    meets a second one.
   */
  lemma OneOutcome(run: seq<World>, k: nat, o1: OutcomeRecord, o2: OutcomeRecord, i: IntentRecord)
    requires IsRun(run) && k < |run|
    requires o1 in run[k].outcomes && o2 in run[k].outcomes && OutcomeOf(o1, i) && OutcomeOf(o2, i)
    ensures o1 == o2
  {
    hide IsRun, GrantsInv, PostsInv, OutcomesInv, TombstonesInv, IntentsInv, AnswersInv, MarkersInv;
    RunShared(run, k);
    OutcomeUnique(run[k], o1, o2, i);
  }

  lemma NeverMultipleOutcomes(run: seq<World>, k: nat, t: nat)
    requires IsRun(run) && k < |run| && t in run[k].threads
    ensures run[k].threads[t].pc != Done(MultipleOutcomes)
  {
    hide IsRun, Inv;
    RunInv(run, k);
    NoThreadMultiple(run[k], t);
  }

  lemma NoThreadMultiple(w: World, t: nat)
    requires Inv(w) && t in w.threads
    ensures w.threads[t].pc != Done(MultipleOutcomes)
  {
    hide SharedInv, ThreadInv;
    assert ThreadInv(w, t, w.threads[t]);
    if w.threads[t].pc.Done? { DoneResult(w, t, w.threads[t]); }
  }

  lemma DoneResult(w: World, t: nat, th: Thread)
    requires ThreadInv(w, t, th) && th.pc.Done?
    ensures th.pc.result != MultipleOutcomes
  {
    hide ReserveInv, StatusInv, GoodTombstone, ScanInv, Bound;
  }

  // ---------------------------------------------------------------- Status

  /** A verdict with an outcome: terminal, or a tombstone's. */
  predicate Decided(v: Verdict) {
    TerminalState(v) || v.Pruning? || v.Pruned? || v.Forgetting?
  }

  /** The receipt of a published outcome is valid, so its state tells what it says. */
  lemma PublishedTells(w: World, o: OutcomeRecord)
    requires OutcomesInv(w) && o in w.outcomes
    ensures Tells(StateFromOutcome(o.receipt.outcome), o.receipt)
  {
    hide ValidReceipt, AttemptMatchesIntent, Tells, StateFromOutcome, Bound, OutcomesStored, MarkerBefore;
    assert Linked(o, o.intentRecordId.of.intent);
    StateTells(o.receipt);
  }

  /**
    Status is sound.  Prepared: when the marker was looked up, no marker had been published and
    nobody was authorised.  Submission unknown: the marker had been published when it was looked
    up, and no outcome had been when outcomes were listed.  Anything else names the one outcome
    published for the intent, and a terminal verdict is that outcome's.
   */
  lemma StatusSound(run: seq<World>, k: nat, a: Answer)
    requires IsRun(run) && k < |run| && a in run[k].answers
    ensures a.ended <= k
    ensures a.verdict.Prepared? ==>
              && a.begun <= a.lookedAt <= a.ended
              && a.intent !in run[a.lookedAt].markers
              && forall g :: 0 <= g < |run[a.lookedAt].grants| ==> run[a.lookedAt].grants[g].intent != a.intent
    ensures a.verdict.AttemptReservedUnknown? ==>
              && a.begun <= a.listedAt <= a.lookedAt <= a.ended
              && a.intent in run[a.lookedAt].markers
              && forall o :: o in run[a.listedAt].outcomes ==> !OutcomeOf(o, a.intent)
    ensures Decided(a.verdict) ==>
              && a.outcome.Some? && OutcomeOf(a.outcome.value, a.intent)
              && a.outcome.value in run[k].outcomes
              && (forall o :: o in run[k].outcomes && OutcomeOf(o, a.intent) ==> o == a.outcome.value)
              && (TerminalState(a.verdict) ==> Tells(a.verdict, a.outcome.value.receipt))
  {
    hide IsRun, IntentsInv, TombstonesInv, PostsInv, GrantsInv, MarkersInv, OutcomesInv;
    RunShared(run, k);
    RunClock(run, k);
    if a.verdict.Prepared? {
      PreparedSound(run, k, a);
    } else if a.verdict.AttemptReservedUnknown? {
      UnknownSound(run, k, a);
    } else {
      forall o | o in run[k].outcomes && OutcomeOf(o, a.intent) ensures o == a.outcome.value {
        OneOutcome(run, k, o, a.outcome.value, a.intent);
      }
      PublishedTells(run[k], a.outcome.value);
    }
  }

  lemma PreparedSound(run: seq<World>, k: nat, a: Answer)
    requires IsRun(run) && k < |run| && a.lookedAt <= k && NoMarkerBefore(run[k], a.intent, a.lookedAt)
    ensures a.intent !in run[a.lookedAt].markers
    ensures forall g :: 0 <= g < |run[a.lookedAt].grants| ==> run[a.lookedAt].grants[g].intent != a.intent
  {
    hide IsRun, IntentsInv, TombstonesInv, PostsInv, OutcomesInv, AnswersInv;
    RunShared(run, a.lookedAt);
    RunClock(run, a.lookedAt);
    RunGrows(run, a.lookedAt, k);
  }

  lemma UnknownSound(run: seq<World>, k: nat, a: Answer)
    requires IsRun(run) && k < |run| && a.listedAt <= a.lookedAt <= k
    requires MarkerBefore(run[k], a.intent, a.lookedAt) && NoOutcomeBefore(run[k], a.intent, a.listedAt)
    ensures a.intent in run[a.lookedAt].markers
    ensures forall o :: o in run[a.listedAt].outcomes ==> !OutcomeOf(o, a.intent)
  {
    hide IsRun, IntentsInv, TombstonesInv, PostsInv, OutcomesStored, AnswersInv, GrantsInv, Bound, OutcomeMatches;
    RunShared(run, a.listedAt);
    RunClock(run, a.listedAt);
    RunClock(run, a.lookedAt);
    RunGrows(run, a.listedAt, k);
    RunGrows(run, a.lookedAt, k);
  }

  /**
    Verdict stability: all decided answers about one intent, and all its tombstones, name the same
    outcome, so terminal verdicts agree; and a status that begins after a decided one ended is
    never prepared and never submission-unknown again.
   */
  lemma VerdictStable(run: seq<World>, k: nat, a: Answer, b: Answer)
    requires IsRun(run) && k < |run| && a in run[k].answers && b in run[k].answers
    requires a.intent == b.intent && Decided(a.verdict)
    ensures Decided(b.verdict) ==> a.outcome == b.outcome
    ensures TerminalState(a.verdict) && TerminalState(b.verdict) ==> a.verdict == b.verdict
    ensures a.ended <= b.begun ==> !b.verdict.Prepared? && !b.verdict.AttemptReservedUnknown?
  {
    hide IsRun, IntentsInv, TombstonesInv, PostsInv, GrantsInv, MarkersInv, OutcomesStored, Bound, OutcomeMatches;
    RunShared(run, k);
    if Decided(b.verdict) {
      OneOutcome(run, k, a.outcome.value, b.outcome.value, a.intent);
    } else {
      assert MarkerBefore(run[k], a.intent, run[k].outcomes[a.outcome.value]);
    }
  }

  /**
    A confirmed answer and any outcome stored for the intent, by whatever session, are about the
    same submission: the stored receipt is the confirmed one.
   */
  lemma ConfirmedIsStored(run: seq<World>, k: nat, a: Answer, o: OutcomeRecord)
    requires IsRun(run) && k < |run| && a in run[k].answers && a.verdict.Confirmed?
    requires o in run[k].outcomes && OutcomeOf(o, a.intent)
    ensures a.outcome == Some(o) && o.receipt.outcome == OUTCOME_CONFIRMED
  {
    StatusSound(run, k, a);
    hide IsRun, OutcomeOf;
    assert StateFromOutcome(o.receipt.outcome) == Confirmed;
  }

  /** Exactly one form post was ever made for the intent, by this call. */
  ghost predicate OnlyPost(w: World, t: nat, i: IntentRecord) {
    exists p :: 0 <= p < |w.posts| && w.posts[p] == Post(t, i)
                && forall q :: 0 <= q < |w.posts| && w.posts[q].intent == i ==> q == p
  }

  /**
    The submission of a confirmed operation.  If an authority is bound to an observation whose
    outcome was published, then any confirmed answer about its intent, to whatever session, names
    that outcome; its receipt is confirmed; nobody else posted for the intent, and if the call that
    was granted the authority posted, it did so once.
   */
  lemma ConfirmedSubmission(run: seq<World>, k: nat, g: nat, a: Answer)
    requires IsRun(run) && k < |run| && g < |run[k].grants| && run[k].grants[g].bound.Some?
    requires OutcomeFor(run[k].grants[g].intent, run[k].grants[g].bound.value.receipt) in run[k].outcomes
    requires a in run[k].answers && a.intent == run[k].grants[g].intent && a.verdict.Confirmed?
    ensures var o := OutcomeFor(a.intent, run[k].grants[g].bound.value.receipt);
            a.outcome == Some(o) && o.receipt.outcome == OUTCOME_CONFIRMED
    ensures forall p :: 0 <= p < |run[k].posts| && run[k].posts[p].intent == a.intent ==> run[k].posts[p].thread == run[k].grants[g].thread
    ensures forall p :: 0 <= p < |run[k].posts| && run[k].posts[p].thread == run[k].grants[g].thread ==>
              OnlyPost(run[k], run[k].grants[g].thread, a.intent)
  {
    hide IsRun, Inv, IntentsInv, MarkersInv, OutcomesInv, TombstonesInv, AnswersInv;
    var w := run[k];
    var o := OutcomeFor(a.intent, w.grants[g].bound.value.receipt);
    ConfirmedIsStored(run, k, a, o);
    RunShared(run, k);
    AtMostOnce(run, k);
    forall p | 0 <= p < |w.posts| ensures w.posts[p].intent == a.intent <==> w.posts[p].thread == w.grants[g].thread {
      PostOfGrant(w, g, p);
    }
  }

  lemma PostOfGrant(w: World, g: nat, p: nat)
    requires GrantsInv(w) && PostsInv(w) && g < |w.grants| && p < |w.posts|
    ensures w.posts[p].intent == w.grants[g].intent <==> w.posts[p].thread == w.grants[g].thread
  {
    assert HasGrant(w, w.posts[p].thread, w.posts[p].intent);
    var h :| 0 <= h < |w.grants| && w.grants[h].thread == w.posts[p].thread && w.grants[h].intent == w.posts[p].intent;
    if w.grants[h].intent == w.grants[g].intent { GrantUnique(w, g, h); }
  }

  lemma TombstoneOutcome(run: seq<World>, k: nat, r: RetentionRecord)
    requires IsRun(run) && k < |run| && r in run[k].tombstones
    ensures GoodTombstone(run[k], r) && OutcomeOf(r.outcome, r.intent)
  {
    hide IsRun, IntentsInv, PostsInv, GrantsInv, MarkersInv, OutcomesInv, AnswersInv, OutcomeMatches;
    RunShared(run, k);
    LinkedNames(r.outcome, r.intent);
  }

  lemma TombstoneUnique(run: seq<World>, k: nat, r: RetentionRecord, s: RetentionRecord)
    requires IsRun(run) && k < |run| && r in run[k].tombstones && s in run[k].tombstones && r.intent == s.intent
    ensures r == s
  {
    hide IsRun, OutcomeOf, OutcomeMatches;
    TombstoneOutcome(run, k, r);
    TombstoneOutcome(run, k, s);
    OneOutcome(run, k, r.outcome, s.outcome, r.intent);
  }

  /** A tombstone names the outcome every decided answer names, and it is the only one of its intent. */
  lemma TombstoneStable(run: seq<World>, k: nat, a: Answer, r: RetentionRecord)
    requires IsRun(run) && k < |run| && a in run[k].answers && r in run[k].tombstones
    requires a.intent == r.intent && Decided(a.verdict)
    ensures a.outcome == Some(r.outcome)
    ensures TerminalState(a.verdict) ==> a.verdict == r.terminalState
    ensures forall s :: s in run[k].tombstones && s.intent == r.intent ==> s == r
  {
    hide IsRun, OutcomeOf, OutcomeMatches;
    StatusSound(run, k, a);
    TombstoneOutcome(run, k, r);
    OneOutcome(run, k, a.outcome.value, r.outcome, a.intent);
    forall s | s in run[k].tombstones && s.intent == r.intent ensures s == r {
      TombstoneUnique(run, k, s, r);
    }
  }

  // ---------------------------------------------------------------- unknown submissions

  /**
    Unknown submissions are permanent: as long as no outcome was ever stored for a published
    marker, the marker and its intent are in the store, whatever prunes and forgets have run.
   */
  lemma UnknownPermanent(run: seq<World>, k: nat, i: IntentRecord)
    requires IsRun(run) && k < |run|
    requires i in run[k].markers && forall o :: o in run[k].outcomes ==> !OutcomeOf(o, i)
    ensures Intent(i) in run[k].store && Marker(i) in run[k].store
    ensures forall r :: r in run[k].tombstones ==> r.intent != i
  {
    hide IsRun, PostsInv, GrantsInv, OutcomesInv, AnswersInv;
    RunShared(run, k);
    forall r | r in run[k].tombstones ensures r.intent != i {
      assert GoodTombstone(run[k], r);
    }
  }

  /** The places of a reservation before it has acquired. */
  predicate Reserving(pc: Pc) {
    pc.ReserveCheck? || pc.ReserveImport? || pc.ReserveList? || pc.ReserveScan? || pc.ReserveVerify?
  }

  /** The call that published the marker of `i` has acquired, returned or died. */
  ghost predicate Settled(w: World, i: IntentRecord) {
    && i in w.markers
    && (w.markers[i].thread in w.threads ==> !Reserving(w.threads[w.markers[i].thread].pc))
  }

  ghost predicate NoNewGrant(w: World, w': World, i: IntentRecord) {
    forall g :: 0 <= g < |w'.grants| && w'.grants[g].intent == i ==> g < |w.grants|
  }

  lemma AdvanceLeaves(pc: Pc, resp: Response)
    requires !Reserving(pc)
    ensures !Reserving(Advance(pc, resp))
  {
    hide ValidOutcome, ValidIntent, ValidAttempt, ValidReceipt, ValidRetention;
  }

  lemma StepNoGrant(w: World, w': World, t: nat, pc: Pc, i: IntentRecord)
    requires AuthorityDelta(w, w', t, pc) && Settled(w, i) && t in w.threads && pc == w.threads[t].pc
    requires pc.ReserveVerify? && 0 < pc.index ==> pc.intent in w.markers && w.markers[pc.intent].thread == t
    ensures NoNewGrant(w, w', i)
  {
  }

  lemma OwnMarker(w: World, t: nat)
    requires Inv(w) && t in w.threads
    ensures var pc := w.threads[t].pc;
            pc.ReserveVerify? && 0 < pc.index ==> pc.intent in w.markers && w.markers[pc.intent].thread == t
  {
    hide SharedInv, StatusInv, RetentionInv, Fresh;
    assert ThreadInv(w, t, w.threads[t]);
  }

  lemma StepGoes(w: World, w': World, t: nat, resp: Response, s': set<Record>)
    requires t in w.threads && Step(w, w', t, resp, s')
    ensures w'.threads.Keys == w.threads.Keys && w'.threads[t].pc == Advance(w.threads[t].pc, resp)
    ensures forall u :: u in w.threads && u != t ==> w'.threads[u] == w.threads[u]
  {
    hide Advance, Responds;
  }

  lemma StepSettled(w: World, w': World, t: nat, resp: Response, s': set<Record>, i: IntentRecord)
    requires Inv(w) && t in w.threads && Step(w, w', t, resp, s') && Settled(w, i)
    ensures Settled(w', i) && NoNewGrant(w, w', i)
  {
    hide Step, Inv, StoreDelta, Advance, NoNewGrant, Reserving;
    StepDelta(w, w', t, resp, s');
    StepGoes(w, w', t, resp, s');
    OwnMarker(w, t);
    var pc := w.threads[t].pc;
    if !Reserving(pc) { AdvanceLeaves(pc, resp); }
    StepNoGrant(w, w', t, pc, i);
  }

  lemma InertSettled(w: World, w': World, i: IntentRecord)
    requires
      || OpenSession(w, w')
      || (exists session :: EndSession(w, w', session))
      || (exists session, j :: LoadIntent(w, w', session, j))
      || (exists j :: Prepare(w, w', j))
    requires Settled(w, i)
    ensures Settled(w', i) && NoNewGrant(w, w', i)
  {
    hide ValidIntent;
  }

  lemma StartSettled(w: World, w': World, i: IntentRecord)
    requires
      || (exists session, pc :: Start(w, w', session, pc))
      || (exists session, g, obs :: StartOutcome(w, w', session, g, obs))
    requires MarkersInv(w) && Settled(w, i)
    ensures Settled(w', i) && NoNewGrant(w, w', i)
  {
    hide ValidIntent, OutcomeMatches;
  }

  lemma NextSettled(w: World, w': World, i: IntentRecord)
    requires Inv(w) && Next(w, w') && Settled(w, i)
    ensures Settled(w', i) && NoNewGrant(w, w', i)
  {
    hide ThreadInv, MarkersInv, OpenSession, EndSession, Prepare, LoadIntent, Start, StartOutcome, Settled, NoNewGrant;
    if t, resp, s' :| Step(w, w', t, resp, s') {
      StepSettled(w, w', t, resp, s', i);
    } else if (exists session, pc :: Start(w, w', session, pc))
        || (exists session, g, obs :: StartOutcome(w, w', session, g, obs)) {
      StartSettled(w, w', i);
    } else {
      InertSettled(w, w', i);
    }
  }

  lemma NoNewGrantTrans(u: World, v: World, w: World, i: IntentRecord)
    requires NoNewGrant(u, v, i) && NoNewGrant(v, w, i)
    requires forall g :: 0 <= g < |v.grants| && g < |w.grants| ==> v.grants[g].intent == w.grants[g].intent
    ensures NoNewGrant(u, w, i)
  {
  }

  /** Once the publishing call is out of the way, nobody is ever authorised for the intent again. */
  lemma {:induction false} NeverAgain(run: seq<World>, j: nat, k: nat, i: IntentRecord)
    requires IsRun(run) && j <= k < |run| && Settled(run[j], i)
    ensures Settled(run[k], i)
    ensures forall g :: 0 <= g < |run[k].grants| && run[k].grants[g].intent == i ==> g < |run[j].grants|
    decreases k - j
  {
    if j < k {
      assert Follows(run, k);
      hide IsRun, Next, Settled, Inv;
      NeverAgain(run, j, k - 1, i);
      assert NoNewGrant(run[j], run[k - 1], i);
      RunInv(run, k - 1);
      NextSettled(run[k - 1], run[k], i);
      NextGrants(run[k - 1], run[k]);
      NoNewGrantTrans(run[j], run[k - 1], run[k], i);
    }
  }

  lemma NextGrants(w: World, w': World)
    requires Next(w, w')
    ensures |w.grants| <= |w'.grants| && forall g :: 0 <= g < |w.grants| ==> w'.grants[g].intent == w.grants[g].intent
  {
    hide ValidOutcome, ValidIntent, ValidAttempt, ValidReceipt, ValidRetention;
    if t, resp, s' :| Step(w, w', t, resp, s') {
      hide Step;
      StepDelta(w, w', t, resp, s');
    }
  }

  // ---------------------------------------------------------------- calls that come too late

  ghost predicate GoneFor(w: World, i: IntentRecord) {
    i in w.intents && Intent(i) !in w.store
  }

  /** A call that has yet to verify the intent of its chain, and the intent is gone; or one that has stopped. */
  ghost predicate Stale(w: World, pc: Pc) {
    || pc == STOP || pc == Done(MultipleOutcomes)
    || ((Reserving(pc) && (pc.ReserveVerify? ==> pc.index == 0)) && GoneFor(w, pc.intent))
    || ((pc.OutcomeImport? || (pc.OutcomeVerify? && pc.index == 0)) && GoneFor(w, pc.intent))
    || ((pc.PruneImport? || (pc.PruneConfirmSet? && pc.index <= 1))
        && pc.retention.intentRef == IntentRef(pc.retention.intent) && GoneFor(w, pc.retention.intent))
  }

  ghost predicate Doomed(w: World, t: nat) {
    t < w.nextThread && (t in w.threads ==> Stale(w, w.threads[t].pc))
  }

  /** A removed intent never comes back. */
  lemma GoneForGood(w: World, w': World, i: IntentRecord)
    requires Next(w, w') && GoneFor(w, i)
    ensures GoneFor(w', i)
  {
    hide Evolves, OpenSession, EndSession, Prepare, LoadIntent, Start, StartOutcome, GoneFor;
    if j :| Prepare(w, w', j) {
      PrepareEvolves(w, w', j);
      EvolvesGone(w, w', w.nextThread, i);
    } else if session, g, obs :| StartOutcome(w, w', session, g, obs) {
      BindEvolves(w, w', session, g, obs);
      EvolvesGone(w, w', w.nextThread, i);
    } else if t, resp, s' :| Step(w, w', t, resp, s') {
      StepDelta(w, w', t, resp, s');
      DeltaEvolves(w, w', t, w.threads[t].pc);
      EvolvesGone(w, w', t, i);
    } else {
      InertGone(w, w', i);
    }
  }

  lemma EvolvesGone(w: World, w': World, actor: nat, i: IntentRecord)
    requires Evolves(w, w', actor) && GoneFor(w, i)
    ensures GoneFor(w', i)
  {
  }

  lemma InertGone(w: World, w': World, i: IntentRecord)
    requires
      || OpenSession(w, w')
      || (exists session :: EndSession(w, w', session))
      || (exists session, j :: LoadIntent(w, w', session, j))
      || (exists session, pc :: Start(w, w', session, pc))
    requires GoneFor(w, i)
    ensures GoneFor(w', i)
  {
    hide Startable;
  }

  lemma StaleStays(w: World, w': World, pc: Pc)
    requires Next(w, w') && Stale(w, pc)
    ensures Stale(w', pc)
  {
    hide Next, GoneFor;
    if Reserving(pc) || pc.OutcomeImport? || pc.OutcomeVerify? {
      if GoneFor(w, pc.intent) { GoneForGood(w, w', pc.intent); }
    } else if pc.PruneImport? || pc.PruneConfirmSet? {
      if GoneFor(w, pc.retention.intent) { GoneForGood(w, w', pc.retention.intent); }
    }
  }

  /** The verification of the chain finds the intent missing. */
  lemma StaleAdvances(w: World, pc: Pc, resp: Response, s': set<Record>)
    requires Stale(w, pc) && Responds(w.store, Want(pc), resp, s')
    ensures Stale(w, Advance(pc, resp))
  {
    hide Advance, Responds, Want, GoneFor;
    if Reserving(pc) {
      StaleReserve(w, pc, resp, s');
    } else if pc.OutcomeImport? || pc.OutcomeVerify? {
      StaleOutcome(w, pc, resp, s');
    } else if pc.PruneImport? || pc.PruneConfirmSet? {
      StalePrune(w, pc, resp, s');
    } else {
      EndStays(pc, resp);
    }
  }

  lemma EndStays(pc: Pc, resp: Response)
    ensures pc.Done? ==> Advance(pc, resp) == STOP
  {
  }

  lemma StaleReserve(w: World, pc: Pc, resp: Response, s': set<Record>)
    requires Stale(w, pc) && Reserving(pc) && Responds(w.store, Want(pc), resp, s')
    ensures Stale(w, Advance(pc, resp))
  {
    hide Linked;
  }

  lemma StaleOutcome(w: World, pc: Pc, resp: Response, s': set<Record>)
    requires Stale(w, pc) && (pc.OutcomeImport? || pc.OutcomeVerify?) && Responds(w.store, Want(pc), resp, s')
    ensures Stale(w, Advance(pc, resp))
  {
    hide Linked;
  }

  lemma StalePrune(w: World, pc: Pc, resp: Response, s': set<Record>)
    requires Stale(w, pc) && (pc.PruneImport? || pc.PruneConfirmSet?) && Responds(w.store, Want(pc), resp, s')
    ensures Stale(w, Advance(pc, resp))
  {
    hide Linked;
  }

  lemma NextThreads(w: World, w': World, t: nat)
    requires Next(w, w') && t < w.nextThread
    ensures t < w'.nextThread && (t in w'.threads ==> t in w.threads)
    ensures t in w'.threads ==>
              || w'.threads[t] == w.threads[t]
              || exists resp, s' :: Responds(w.store, Want(w.threads[t].pc), resp, s') && w'.threads[t].pc == Advance(w.threads[t].pc, resp)
  {
    hide Responds, Want, Advance, Startable, ObservationMatches, BoundPlace, ValidIntent;
    if u, resp, s' :| Step(w, w', u, resp, s') {
      StepGoes(w, w', u, resp, s');
      assert w'.nextThread == w.nextThread;
      if u != t { assert t in w.threads ==> w'.threads[t] == w.threads[t]; }
    }
  }

  lemma NextDoomed(w: World, w': World, t: nat)
    requires Next(w, w') && Doomed(w, t)
    ensures Doomed(w', t)
  {
    hide Next, Stale, Responds, Want, Advance;
    NextThreads(w, w', t);
    if t in w'.threads {
      var pc := w.threads[t].pc;
      if w'.threads[t] != w.threads[t] {
        var resp, s' :| Responds(w.store, Want(pc), resp, s') && w'.threads[t].pc == Advance(pc, resp);
        StaleAdvances(w, pc, resp, s');
      }
      StaleStays(w, w', w'.threads[t].pc);
    }
  }

  /**
    A call that comes too late never succeeds: whatever it still publishes, a reservation, an
    outcome or a tombstone whose intent is gone before its verification is refused by its own
    verification, and its end is not acquired, stored or pruned.
   */
  lemma {:induction false} StaleNeverSucceeds(run: seq<World>, j: nat, k: nat, t: nat)
    requires IsRun(run) && j <= k < |run| && t in run[j].threads && Stale(run[j], run[j].threads[t].pc)
    ensures Doomed(run[k], t)
    ensures t in run[k].threads ==>
              var pc := run[k].threads[t].pc;
              !pc.Acquired? && !pc.Posted? && (pc.Done? ==> pc == STOP || pc == Done(MultipleOutcomes))
    decreases k - j
  {
    if j == k {
      hide IsRun, GoneFor;
      RunThreads(run, j, t);
    } else {
      hide IsRun, Next, Stale, Doomed;
      RunFollows(run, k);
      StaleNeverSucceeds(run, j, k - 1, t);
      NextDoomed(run[k - 1], run[k], t);
      DoomedEnds(run[k], t);
    }
  }

  lemma RunFollows(run: seq<World>, k: nat)
    requires IsRun(run) && 0 < k < |run|
    ensures Next(run[k - 1], run[k])
  {
    hide Next;
    assert Follows(run, k);
  }

  lemma RunThreads(run: seq<World>, k: nat, t: nat)
    requires IsRun(run) && k < |run| && t in run[k].threads
    ensures t < run[k].nextThread
  {
    hide IsRun, Inv;
    RunInv(run, k);
    ThreadsBelow(run[k]);
  }

  lemma DoomedEnds(w: World, t: nat)
    requires Doomed(w, t)
    ensures t in w.threads ==>
              var pc := w.threads[t].pc;
              !pc.Acquired? && !pc.Posted? && (pc.Done? ==> pc == STOP || pc == Done(MultipleOutcomes))
  {
    hide GoneFor;
  }
}
