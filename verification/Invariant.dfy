/**
  The inductive invariant of the interleaving model and its preservation by every action.

  `Evolves` is what a call may rely on while others act; `PcInv` is what it knows at each place.
  Every knowledge about the store is of one of two shapes that survive interference: "this was
  published" (histories only grow) or "unless the intent is gone for good".
 */
module Invariant {
  import opened Basics
  import opened Records
  import opened Program
  import opened Protocol

  // ---------------------------------------------------------------- the store and its history

  ghost predicate Bound(w: World, o: OutcomeRecord) {
    exists g :: 0 <= g < |w.grants| && w.grants[g].bound.Some?
                && o == OutcomeFor(w.grants[g].intent, w.grants[g].bound.value.receipt)
  }

  /** The intent an attempt marker belongs to, read off its content. */
  ghost predicate MarkerOf(a: AttemptRecord, i: IntentRecord) {
    a == AttemptFromIntent(i)
  }

  /** No marker published before `at`. */
  ghost predicate NoMarkerBefore(w: World, i: IntentRecord, at: nat) {
    i in w.markers ==> at <= w.markers[i].at
  }

  ghost predicate MarkerBefore(w: World, i: IntentRecord, at: nat) {
    i in w.markers && w.markers[i].at < at
  }

  ghost predicate GoodTombstone(w: World, r: RetentionRecord) {
    && r.intent in w.intents
    && r.outcome in w.outcomes
    && Linked(r.outcome, r.intent)
    && r == RetentionFor(r.intent, r.outcome)
  }

  ghost predicate IntentsInv(w: World) {
    && (forall i :: Intent(i) in w.store ==> i in w.intents)
    && (forall i :: i in w.intents ==> ValidIntent(i))
    && (forall i, j :: i in w.intents && j in w.intents && i.operationId == j.operationId ==> i == j)
    && (forall v :: v in w.verified ==> v.1 in w.intents)
    && (forall i :: i in w.intents && Intent(i) !in w.store ==> exists r :: r in w.tombstones && r.intent == i)
  }

  ghost predicate MarkersInv(w: World) {
    && (forall a :: Attempt(a) in w.store ==>
          a.intentRecordId.of.Intent? && MarkerOf(a, a.intentRecordId.of.intent) && a.intentRecordId.of.intent in w.markers)
    && (forall i :: i in w.markers ==>
          i in w.intents && w.markers[i].at < w.clock && w.markers[i].thread < w.nextThread)
    // the marker invariant: intent present, marker absent, then no marker was ever published
    && (forall i :: i in w.markers && Intent(i) in w.store ==> Marker(i) in w.store)
  }

  ghost predicate OutcomesStored(w: World) {
    && (forall o :: Outcome(o) in w.store ==> o in w.outcomes)
    && (forall o :: o in w.outcomes && o.intentRecordId.of in w.store ==> Outcome(o) in w.store)
  }

  ghost predicate OutcomesBound(w: World) {
    forall o :: o in w.outcomes ==>
      && w.outcomes[o] < w.clock && Bound(w, o) && o.intentRecordId.of.Intent? && Linked(o, o.intentRecordId.of.intent)
      && MarkerBefore(w, o.intentRecordId.of.intent, w.outcomes[o])
  }

  ghost predicate OutcomesInv(w: World) {
    OutcomesStored(w) && OutcomesBound(w)
  }

  ghost predicate TombstonesInv(w: World) {
    && (forall r :: Retention(r) in w.store ==> r in w.tombstones)
    && (forall f :: Forget(f) in w.store ==> f.retention in w.tombstones && f == ForgetFor(f.retention))
    && (forall r :: r in w.tombstones ==> GoodTombstone(w, r))
  }

  ghost predicate GrantsInv(w: World) {
    && (forall g :: 0 <= g < |w.grants| ==>
          && w.grants[g].intent in w.markers
          && w.markers[w.grants[g].intent].thread == w.grants[g].thread
          && w.markers[w.grants[g].intent].at < w.grants[g].at < w.clock)
    && (forall g, h :: 0 <= g < h < |w.grants| ==> w.grants[g].thread != w.grants[h].thread)
  }

  ghost predicate HasGrant(w: World, t: nat, i: IntentRecord) {
    exists g :: 0 <= g < |w.grants| && w.grants[g].thread == t && w.grants[g].intent == i
  }

  ghost predicate PostsInv(w: World) {
    && (forall p :: 0 <= p < |w.posts| ==> HasGrant(w, w.posts[p].thread, w.posts[p].intent))
    && (forall p, q :: 0 <= p < q < |w.posts| ==> w.posts[p].thread != w.posts[q].thread)
  }

  ghost predicate NoOutcomeBefore(w: World, i: IntentRecord, at: nat) {
    forall o :: o in w.outcomes && OutcomeOf(o, i) ==> at <= w.outcomes[o]
  }

  /** What an answered status means, in terms of what had been published when it looked. */
  ghost predicate AnswerInv(w: World, a: Answer) {
    && a.ended <= w.clock
    && match a.verdict
       case Prepared =>
         && a.begun <= a.listedAt <= a.lookedAt <= a.ended
         && NoMarkerBefore(w, a.intent, a.lookedAt)
       case AttemptReservedUnknown =>
         && a.begun <= a.listedAt <= a.lookedAt <= a.ended
         && MarkerBefore(w, a.intent, a.lookedAt)
         && NoOutcomeBefore(w, a.intent, a.listedAt)
       case _ =>
         && a.outcome.Some?
         && a.outcome.value in w.outcomes
         && OutcomeOf(a.outcome.value, a.intent)
         && w.outcomes[a.outcome.value] < a.ended
         && (TerminalState(a.verdict) ==> a.verdict == StateFromOutcome(a.outcome.value.receipt.outcome))
  }

  ghost predicate AnswersInv(w: World) {
    forall a :: a in w.answers ==> AnswerInv(w, a)
  }

  ghost predicate SharedInv(w: World) {
    IntentsInv(w) && MarkersInv(w) && OutcomesInv(w) && TombstonesInv(w) && GrantsInv(w) && PostsInv(w) && AnswersInv(w)
  }

  // ---------------------------------------------------------------- what a call knows

  ghost predicate NoGrant(w: World, t: nat) {
    forall g :: 0 <= g < |w.grants| ==> w.grants[g].thread != t
  }

  ghost predicate NoPost(w: World, t: nat) {
    forall p :: 0 <= p < |w.posts| ==> w.posts[p].thread != t
  }

  ghost predicate Fresh(w: World, t: nat, i: IntentRecord) {
    i in w.intents && NoGrant(w, t) && NoPost(w, t)
  }

  /** Call `t` was the first to publish the marker, or the intent is gone for good. */
  ghost predicate Publisher(w: World, t: nat, i: IntentRecord) {
    i in w.markers && (w.markers[i].thread == t || Intent(i) !in w.store)
  }

  ghost predicate FoundInv(w: World, i: IntentRecord, found: Option<OutcomeRecord>) {
    found.Some? ==> found.value in w.outcomes && Linked(found.value, i)
  }

  ghost predicate QueueInv(w: World, i: IntentRecord, queue: seq<Record>, found: Option<OutcomeRecord>) {
    && queue != []
    && (forall a, b :: 0 <= a < b < |queue| ==> queue[a] != queue[b])
    && (forall r :: r in queue ==> r.Outcome? && r.outcome in w.outcomes)
    && FoundInv(w, i, found)
    && (found.Some? ==> Outcome(found.value) !in queue)
  }

  /** Unless the intent is gone, every outcome published before `at` is queued or found. */
  ghost predicate Covered(w: World, i: IntentRecord, at: nat, queue: seq<Record>, found: Option<OutcomeRecord>) {
    Intent(i) in w.store ==>
      forall o :: o in w.outcomes && OutcomeOf(o, i) && w.outcomes[o] < at ==> Outcome(o) in queue || found == Some(o)
  }

  /** What the lookups of a status established, provided the intent was still there. */
  ghost predicate Established(w: World, i: IntentRecord, marked: bool, found: Option<OutcomeRecord>, listedAt: nat, lookedAt: nat) {
    && (!marked ==> NoMarkerBefore(w, i, lookedAt))
    && (marked && found.None? ==> NoOutcomeBefore(w, i, listedAt))
  }

  ghost predicate Known(w: World, g: Goal, r: Record) {
    && KindOf(r) == GoalKind(g)
    && (r.Retention? ==> r.retention in w.tombstones)
    && (r.Forget? ==> r.forget.retention in w.tombstones && r.forget == ForgetFor(r.forget.retention))
  }

  predicate IsStatus(pc: Pc) {
    pc.StatusList? || pc.StatusScan? || pc.StatusAttempt? || pc.StatusVerify?
  }

  ghost predicate ScanInv(w: World, g: Goal, queue: seq<Record>, found: Option<Record>) {
    && (forall r :: r in queue ==> Known(w, g, r))
    && (found.Some? ==> Known(w, g, found.value) && Selects(g, found.value))
  }

  ghost predicate ReserveInv(w: World, t: nat, pc: Pc)
    requires IsReserve(pc)
  {
    match pc
    case ReserveCheck(i) => Fresh(w, t, i)
    case ReserveImport(i) => Fresh(w, t, i)
    case ReserveList(i) => Fresh(w, t, i) && Publisher(w, t, i)
    case ReserveScan(i, q, m) => Fresh(w, t, i) && Publisher(w, t, i) && QueueInv(w, i, q, m)
    case ReserveVerify(i, k) => Fresh(w, t, i) && Publisher(w, t, i) && (0 < k ==> w.markers[i].thread == t)
    case Acquired(i) => HasGrant(w, t, i) && NoPost(w, t)
  }

  ghost predicate VerifyInv(w: World, th: Thread, i: IntentRecord, marked: bool, m: Option<OutcomeRecord>, index: nat) {
    && th.begun <= th.listedAt <= th.lookedAt
    && i in w.intents
    && FoundInv(w, i, m)
    && (!marked ==> m.None?)
    && (marked ==> MarkerBefore(w, i, th.lookedAt))
    && (Intent(i) in w.store || 0 < index ==> Established(w, i, marked, m, th.listedAt, th.lookedAt))
  }

  ghost predicate StatusInv(w: World, th: Thread)
    requires IsStatus(th.pc)
  {
    th.pc.intent in w.intents &&
    match th.pc
    case StatusList(i, c) => true
    case StatusScan(i, c, q, m) =>
      th.begun <= th.listedAt && QueueInv(w, i, q, m) && Covered(w, i, th.listedAt, q, m)
    case StatusAttempt(i, c, m) =>
      th.begun <= th.listedAt && FoundInv(w, i, m) && Covered(w, i, th.listedAt, [], m)
    case StatusVerify(i, c, marked, m, k) => VerifyInv(w, th, i, marked, m, k)
  }

  ghost predicate RetentionInv(w: World, pc: Pc) {
    match pc
    case OutcomeImport(i, o) => Bound(w, o) && Linked(o, i)
    case ScanLoad(g, second, before, q, m) => q != [] && ScanInv(w, g, q, m)
    case StatusRemain(i, c, r, k) => r in w.tombstones && r.intent == i
    case PruneImport(r) => GoodTombstone(w, r)
    case PruneConfirmSet(r, _) => r in w.tombstones
    case PruneConfirm(r, _) => r in w.tombstones
    case PruneRemove(r, k) => r in w.tombstones && (0 < k ==> Intent(r.intent) !in w.store)
    case PruneFinish(r, _) => r in w.tombstones
    case ForgetAbsent(r, _, _) => r in w.tombstones
    case ForgetImport(r) => r in w.tombstones
    case ForgetConfirm(r, _) => r in w.tombstones
    case ForgetRemove(r, _) => r in w.tombstones
    case Done(result) => result != MultipleOutcomes
    case _ => true
  }

  ghost predicate PcInv(w: World, t: nat, th: Thread) {
    if IsReserve(th.pc) then ReserveInv(w, t, th.pc)
    else if IsStatus(th.pc) then StatusInv(w, th)
    else RetentionInv(w, th.pc)
  }

  ghost predicate ThreadInv(w: World, t: nat, th: Thread) {
    && t < w.nextThread
    && th.begun <= w.clock && th.listedAt <= w.clock && th.lookedAt <= w.clock
    && PcInv(w, t, th)
  }

  ghost predicate Inv(w: World) {
    && SharedInv(w)
    && forall t :: t in w.threads ==> ThreadInv(w, t, w.threads[t])
  }

  // ---------------------------------------------------------------- interference

  /** What other calls can rely on when `actor` acts: histories grow, a removed intent stays away. */
  ghost predicate Evolves(w: World, w': World, actor: nat) {
    && w.clock < w'.clock
    && w.nextThread <= w'.nextThread
    && w.intents <= w'.intents
    && (forall i :: i in w.markers ==> i in w'.markers && w'.markers[i] == w.markers[i])
    && (forall i :: i in w'.markers && i !in w.markers ==> w.clock <= w'.markers[i].at)
    && (forall o :: o in w.outcomes ==> o in w'.outcomes && w'.outcomes[o] == w.outcomes[o])
    && (forall o :: o in w'.outcomes && o !in w.outcomes ==> w.clock <= w'.outcomes[o])
    && w.tombstones <= w'.tombstones
    && |w.grants| <= |w'.grants|
    && (forall g :: 0 <= g < |w.grants| ==>
          && w'.grants[g].thread == w.grants[g].thread
          && w'.grants[g].intent == w.grants[g].intent
          && (w.grants[g].bound.Some? ==> w'.grants[g].bound == w.grants[g].bound))
    && (forall g :: |w.grants| <= g < |w'.grants| ==> w'.grants[g].thread == actor)
    && |w.posts| <= |w'.posts|
    && (forall p :: 0 <= p < |w.posts| ==> w'.posts[p] == w.posts[p])
    && (forall p :: |w.posts| <= p < |w'.posts| ==> w'.posts[p].thread == actor)
    && (forall i :: i in w.intents && Intent(i) in w'.store ==> Intent(i) in w.store)
  }

  lemma HasGrantStable(w: World, w': World, actor: nat, t: nat, i: IntentRecord)
    requires Evolves(w, w', actor) && HasGrant(w, t, i)
    ensures HasGrant(w', t, i)
  {
    var g :| 0 <= g < |w.grants| && w.grants[g].thread == t && w.grants[g].intent == i;
    assert w'.grants[g].thread == t;
  }

  lemma BoundStable(w: World, w': World, actor: nat, o: OutcomeRecord)
    requires Evolves(w, w', actor) && Bound(w, o)
    ensures Bound(w', o)
  {
    var g :| 0 <= g < |w.grants| && w.grants[g].bound.Some?
             && o == OutcomeFor(w.grants[g].intent, w.grants[g].bound.value.receipt);
    assert w'.grants[g].bound == w.grants[g].bound;
  }

  lemma ScanStable(w: World, w': World, actor: nat, g: Goal, queue: seq<Record>, found: Option<Record>)
    requires Evolves(w, w', actor) && ScanInv(w, g, queue, found)
    ensures ScanInv(w', g, queue, found)
  {
  }

  lemma QueueStable(w: World, w': World, actor: nat, i: IntentRecord, queue: seq<Record>, found: Option<OutcomeRecord>)
    requires Evolves(w, w', actor) && QueueInv(w, i, queue, found)
    ensures QueueInv(w', i, queue, found)
  {
  }

  lemma CoveredStable(w: World, w': World, actor: nat, i: IntentRecord, at: nat, queue: seq<Record>, found: Option<OutcomeRecord>)
    requires Evolves(w, w', actor) && i in w.intents && at <= w.clock && Covered(w, i, at, queue, found)
    ensures Covered(w', i, at, queue, found)
  {
  }

  lemma EstablishedStable(w: World, w': World, actor: nat, i: IntentRecord, marked: bool, found: Option<OutcomeRecord>,
                          listedAt: nat, lookedAt: nat)
    requires Evolves(w, w', actor) && listedAt <= w.clock && lookedAt <= w.clock
    requires Established(w, i, marked, found, listedAt, lookedAt)
    ensures Established(w', i, marked, found, listedAt, lookedAt)
  {
  }

  lemma StatusStable(w: World, w': World, actor: nat, t: nat, th: Thread)
    requires Evolves(w, w', actor) && ThreadInv(w, t, th) && t != actor
    requires IsStatus(th.pc)
    ensures StatusInv(w', th)
  {
    match th.pc {
      case StatusList(i, c) =>
      case StatusScan(i, c, q, m) =>
        QueueStable(w, w', actor, i, q, m);
        CoveredStable(w, w', actor, i, th.listedAt, q, m);
      case StatusAttempt(i, c, m) =>
        CoveredStable(w, w', actor, i, th.listedAt, [], m);
      case StatusVerify(i, c, marked, m, k) =>
        if Established(w, i, marked, m, th.listedAt, th.lookedAt) {
          EstablishedStable(w, w', actor, i, marked, m, th.listedAt, th.lookedAt);
        }
    }
  }

  lemma ReserveStable(w: World, w': World, actor: nat, t: nat, th: Thread)
    requires Evolves(w, w', actor) && ThreadInv(w, t, th) && t != actor
    requires IsReserve(th.pc)
    ensures ReserveInv(w', t, th.pc)
  {
    if th.pc.Acquired? {
      HasGrantStable(w, w', actor, t, th.pc.intent);
    }
  }

  lemma RetentionStable(w: World, w': World, actor: nat, pc: Pc)
    requires Evolves(w, w', actor) && RetentionInv(w, pc)
    requires forall r :: r in w.tombstones ==> GoodTombstone(w, r)
    ensures RetentionInv(w', pc)
  {
    if pc.OutcomeImport? {
      BoundStable(w, w', actor, pc.outcome);
    } else if pc.ScanLoad? {
      ScanStable(w, w', actor, pc.goal, pc.queue, pc.hit);
    }
  }

  /** Whatever another call does, a call still knows what it knew. */
  lemma ThreadStable(w: World, w': World, actor: nat, t: nat, th: Thread)
    requires Evolves(w, w', actor) && ThreadInv(w, t, th) && t != actor
    requires forall r :: r in w.tombstones ==> GoodTombstone(w, r)
    ensures ThreadInv(w', t, th)
  {
    if IsReserve(th.pc) {
      ReserveStable(w, w', actor, t, th);
    } else if IsStatus(th.pc) {
      StatusStable(w, w', actor, t, th);
    } else {
      RetentionStable(w, w', actor, th.pc);
    }
  }

  lemma AnswersStable(w: World, w': World, actor: nat)
    requires Evolves(w, w', actor) && AnswersInv(w)
    ensures forall a :: a in w.answers ==> AnswerInv(w', a)
  {
  }

  lemma LinkedNames(o: OutcomeRecord, i: IntentRecord)
    requires Linked(o, i)
    ensures OutcomeOf(o, i)
  {
  }

  // ---------------------------------------------------------------- uniqueness

  /** At most one authority per intent: all are granted to the first publisher of its marker. */
  lemma GrantUnique(w: World, g: nat, h: nat)
    requires GrantsInv(w) && g < |w.grants| && h < |w.grants| && w.grants[g].intent == w.grants[h].intent
    ensures g == h
  {
  }

  /** At most one outcome per intent was ever published. */
  lemma OutcomeUnique(w: World, o1: OutcomeRecord, o2: OutcomeRecord, i: IntentRecord)
    requires GrantsInv(w) && OutcomesInv(w)
    requires o1 in w.outcomes && o2 in w.outcomes && OutcomeOf(o1, i) && OutcomeOf(o2, i)
    ensures o1 == o2
  {
    hide *;
    var g := OutcomeGrant(w, o1);
    var h := OutcomeGrant(w, o2);
    NamesIntent(w.grants[g].intent, w.grants[g].bound.value.receipt, i);
    NamesIntent(w.grants[h].intent, w.grants[h].bound.value.receipt, i);
    GrantUnique(w, g, h);
  }

  /** The authority that an outcome was stored under. */
  lemma OutcomeGrant(w: World, o: OutcomeRecord) returns (g: nat)
    requires OutcomesInv(w) && o in w.outcomes
    ensures g < |w.grants| && w.grants[g].bound.Some? && o == OutcomeFor(w.grants[g].intent, w.grants[g].bound.value.receipt)
  {
    hide OutcomeFor;
    g :| 0 <= g < |w.grants| && w.grants[g].bound.Some?
         && o == OutcomeFor(w.grants[g].intent, w.grants[g].bound.value.receipt);
  }

  lemma NamesIntent(j: IntentRecord, receipt: ExchangeReceipt, i: IntentRecord)
    requires OutcomeOf(OutcomeFor(j, receipt), i)
    ensures j == i
  {
    hide ValidOutcome, ValidIntent, ValidAttempt, ValidReceipt, ValidRetention;
  }
}
