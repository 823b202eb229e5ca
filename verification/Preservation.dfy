/** Every action of the interleaving model keeps the invariant. */
module Preservation {
  import opened Basics
  import opened Records
  import opened Program
  import opened Protocol
  import opened Invariant

  // ---------------------------------------------------------------- what one step changes

  ghost predicate MayImport(pc: Pc, r: Record) {
    || (pc.ReserveImport? && r == Marker(pc.intent))
    || (pc.OutcomeImport? && r == Outcome(pc.outcome))
    || (pc.PruneImport? && r == Retention(pc.retention))
    || (pc.ForgetImport? && r == Forget(ForgetFor(pc.retention)))
  }

  ghost predicate MayRemove(pc: Pc, r: Record) {
    || (pc.PruneRemove? && r == Original(pc.retention, pc.index))
    || (pc.ForgetRemove? && r == if pc.last then Forget(ForgetFor(pc.retention)) else Retention(pc.retention))
  }

  ghost predicate StoreDelta(w: World, w': World, pc: Pc) {
    && w'.clock == w.clock + 1
    && w.nextThread <= w'.nextThread
    && w'.intents == w.intents
    && (forall v :: v in w'.verified ==> v in w.verified || Intent(v.1) in w.store)
    && (forall r :: r in w'.store && r !in w.store ==> MayImport(pc, r))
    && (forall r :: r in w.store && r !in w'.store ==> MayRemove(pc, r))
  }

  ghost predicate HistoryDelta(w: World, w': World, t: nat, pc: Pc) {
    && (if pc.ReserveImport? && Marker(pc.intent) in w'.store && Marker(pc.intent) !in w.store && pc.intent !in w.markers
        then w'.markers == w.markers[pc.intent := Publication(t, w.clock)] else w'.markers == w.markers)
    && (if pc.OutcomeImport? && Outcome(pc.outcome) in w'.store && pc.outcome !in w.outcomes
        then w'.outcomes == w.outcomes[pc.outcome := w.clock] else w'.outcomes == w.outcomes)
    && (if pc.PruneImport? && Retention(pc.retention) in w'.store
        then w'.tombstones == w.tombstones + {pc.retention} else w'.tombstones == w.tombstones)
  }

  ghost predicate AuthorityDelta(w: World, w': World, t: nat, pc: Pc) {
    && (|| w'.grants == w.grants
        || (pc.ReserveVerify? && 0 < pc.index
            && exists s :: w'.grants == w.grants + [Grant(s, t, pc.intent, w.clock, None)]))
    && w'.posts == (if pc.Acquired? then w.posts + [Post(t, pc.intent)] else w.posts)
  }

  ghost predicate Delta(w: World, w': World, t: nat, pc: Pc) {
    StoreDelta(w, w', pc) && HistoryDelta(w, w', t, pc) && AuthorityDelta(w, w', t, pc)
  }

  lemma StoreWrites(s: set<Record>, op: Op, resp: Response, s': set<Record>)
    requires Responds(s, op, resp, s')
    ensures forall r :: r in s' && r !in s ==> op == ImportOp(r)
    ensures forall r :: r in s && r !in s' ==> op == RemoveOp(r)
  {
  }

  /** The places that import, and what each imports. */
  lemma Importers(pc: Pc)
    ensures Want(pc).ImportOp? ==>
              || (pc.ReserveImport? && Want(pc) == ImportOp(Marker(pc.intent)))
              || (pc.OutcomeImport? && Want(pc) == ImportOp(Outcome(pc.outcome)))
              || (pc.PruneImport? && Want(pc) == ImportOp(Retention(pc.retention)))
              || (pc.ForgetImport? && Want(pc) == ImportOp(Forget(ForgetFor(pc.retention))))
  {
    hide ForgetFor, AttemptFromIntent, Original;
  }

  lemma PlaceImports(pc: Pc, r: Record)
    ensures Want(pc) == ImportOp(r) ==> MayImport(pc, r)
  {
    hide Want, ForgetFor;
    Importers(pc);
  }

  lemma Removers(pc: Pc)
    ensures Want(pc).RemoveOp? ==>
              || (pc.PruneRemove? && Want(pc) == RemoveOp(Original(pc.retention, pc.index)))
              || (pc.ForgetRemove? && Want(pc) == RemoveOp(if pc.last then Forget(ForgetFor(pc.retention)) else Retention(pc.retention)))
  {
    hide ForgetFor, AttemptFromIntent, Original;
  }

  lemma PlaceRemoves(pc: Pc, r: Record)
    ensures Want(pc) == RemoveOp(r) ==> MayRemove(pc, r)
  {
    hide Want, Original, ForgetFor;
    Removers(pc);
  }

  lemma StepStore(w: World, w': World, t: nat, resp: Response, s': set<Record>)
    requires Step(w, w', t, resp, s')
    ensures StoreDelta(w, w', w.threads[t].pc)
  {
    hide Want, Advance, Responds, MayImport, MayRemove;
    var pc := w.threads[t].pc;
    StoreWrites(w.store, Want(pc), resp, s');
    forall r ensures Want(pc) == ImportOp(r) ==> MayImport(pc, r) { PlaceImports(pc, r); }
    forall r ensures Want(pc) == RemoveOp(r) ==> MayRemove(pc, r) { PlaceRemoves(pc, r); }
  }

  lemma StepDelta(w: World, w': World, t: nat, resp: Response, s': set<Record>)
    requires Step(w, w', t, resp, s')
    ensures Delta(w, w', t, w.threads[t].pc)
    ensures w'.threads.Keys == w.threads.Keys
    ensures forall u :: u in w.threads && u != t ==> w'.threads[u] == w.threads[u]
  {
    StepStore(w, w', t, resp, s');
    var pc := w.threads[t].pc;
    var th := w.threads[t];
    if pc.ReserveVerify? && Advance(pc, resp).Acquired? {
      assert w'.grants == w.grants + [Grant(th.session, t, pc.intent, w.clock, None)];
    }
  }

  // ---------------------------------------------------------------- the shared invariant

  lemma DeltaEvolves(w: World, w': World, t: nat, pc: Pc)
    requires Delta(w, w', t, pc)
    ensures Evolves(w, w', t)
  {
    hide ValidOutcome, ValidIntent, ValidAttempt, ValidReceipt, ValidRetention;
  }

  lemma DeltaIntents(w: World, w': World, t: nat, pc: Pc)
    requires IntentsInv(w) && Delta(w, w', t, pc)
    requires pc.PruneRemove? ==> pc.retention in w.tombstones && GoodTombstone(w, pc.retention)
    ensures IntentsInv(w')
  {
    hide OutcomeMatches, ValidIntent, AuthorityDelta;
    forall i | i in w'.intents && Intent(i) !in w'.store
      ensures exists r :: r in w'.tombstones && r.intent == i
    {
      if Intent(i) !in w.store {
        var r :| r in w.tombstones && r.intent == i;
        assert r in w'.tombstones;
      } else {
        assert MayRemove(pc, Intent(i));
        assert pc.retention in w'.tombstones;
      }
    }
  }

  lemma MarkerContent(w: World, w': World, t: nat, pc: Pc, a: AttemptRecord)
    requires MarkersInv(w) && StoreDelta(w, w', pc) && HistoryDelta(w, w', t, pc)
    requires Attempt(a) in w'.store
    ensures a.intentRecordId.of.Intent? && MarkerOf(a, a.intentRecordId.of.intent) && a.intentRecordId.of.intent in w'.markers
  {
    assert Attempt(a) !in w.store ==> MayImport(pc, Attempt(a));
  }

  /** Prune takes the marker only after the intent, so a present intent keeps its marker. */
  lemma MarkerKept(w: World, w': World, t: nat, pc: Pc, i: IntentRecord)
    requires MarkersInv(w) && StoreDelta(w, w', pc) && HistoryDelta(w, w', t, pc)
    requires pc.PruneRemove? ==> GoodTombstone(w, pc.retention) && (0 < pc.index ==> Intent(pc.retention.intent) !in w.store)
    requires i in w'.markers && Intent(i) in w'.store
    ensures Marker(i) in w'.store
  {
    assert Intent(i) !in w.store ==> MayImport(pc, Intent(i));
    assert Marker(i) in w.store && Marker(i) !in w'.store ==> MayRemove(pc, Marker(i));
  }

  lemma DeltaMarkers(w: World, w': World, t: nat, pc: Pc)
    requires MarkersInv(w) && Delta(w, w', t, pc)
    requires pc.ReserveImport? ==> pc.intent in w.intents && t < w.nextThread
    requires pc.PruneRemove? ==> GoodTombstone(w, pc.retention) && (0 < pc.index ==> Intent(pc.retention.intent) !in w.store)
    ensures MarkersInv(w')
  {
    forall a | Attempt(a) in w'.store
      ensures a.intentRecordId.of.Intent? && MarkerOf(a, a.intentRecordId.of.intent) && a.intentRecordId.of.intent in w'.markers
    {
      MarkerContent(w, w', t, pc, a);
    }
    forall i | i in w'.markers && Intent(i) in w'.store
      ensures Marker(i) in w'.store
    {
      MarkerKept(w, w', t, pc, i);
    }
  }

  lemma OutcomeAuthorised(w: World, w': World, t: nat, pc: Pc, o: OutcomeRecord)
    requires OutcomesBound(w) && StoreDelta(w, w', pc) && HistoryDelta(w, w', t, pc) && Evolves(w, w', t)
    requires pc.OutcomeImport? ==> Bound(w, pc.outcome) && Linked(pc.outcome, pc.intent)
    requires o in w'.outcomes
    ensures w'.outcomes[o] < w'.clock && Bound(w', o) && o.intentRecordId.of.Intent? && Linked(o, o.intentRecordId.of.intent)
  {
    BoundStable(w, w', t, o);
  }

  /** An outcome needs an authority, and an authority needs a published marker. */
  lemma OutcomeMarked(w: World, w': World, t: nat, pc: Pc, o: OutcomeRecord)
    requires OutcomesBound(w) && GrantsInv(w) && HistoryDelta(w, w', t, pc) && Evolves(w, w', t)
    requires pc.OutcomeImport? ==> Bound(w, pc.outcome)
    requires o in w'.outcomes && o.intentRecordId.of.Intent?
    ensures MarkerBefore(w', o.intentRecordId.of.intent, w'.outcomes[o])
  {
    hide OutcomeMatches;
    if o !in w.outcomes {
      var g :| 0 <= g < |w.grants| && w.grants[g].bound.Some?
               && o == OutcomeFor(w.grants[g].intent, w.grants[g].bound.value.receipt);
      assert MarkerBefore(w, w.grants[g].intent, w.clock);
    }
  }

  /** Prune takes the outcome only after the intent, so a present intent keeps its outcome. */
  lemma OutcomeKept(w: World, w': World, t: nat, pc: Pc, o: OutcomeRecord)
    requires OutcomesStored(w) && StoreDelta(w, w', pc) && HistoryDelta(w, w', t, pc)
    requires o.intentRecordId.of.Intent?
    requires pc.PruneRemove? ==> GoodTombstone(w, pc.retention) && (0 < pc.index ==> Intent(pc.retention.intent) !in w.store)
    requires o in w'.outcomes && o.intentRecordId.of in w'.store
    ensures Outcome(o) in w'.store
  {
    assert o.intentRecordId.of !in w.store ==> MayImport(pc, o.intentRecordId.of);
    assert Outcome(o) in w.store && Outcome(o) !in w'.store ==> MayRemove(pc, Outcome(o));
  }

  lemma OutcomePublished(w: World, w': World, t: nat, pc: Pc, o: OutcomeRecord)
    requires OutcomesStored(w) && StoreDelta(w, w', pc) && HistoryDelta(w, w', t, pc)
    requires Outcome(o) in w'.store
    ensures o in w'.outcomes
  {
    assert Outcome(o) !in w.store ==> MayImport(pc, Outcome(o));
  }

  lemma DeltaOutcomes(w: World, w': World, t: nat, pc: Pc)
    requires OutcomesInv(w) && GrantsInv(w) && Delta(w, w', t, pc) && Evolves(w, w', t)
    requires pc.OutcomeImport? ==> Bound(w, pc.outcome) && Linked(pc.outcome, pc.intent)
    requires pc.PruneRemove? ==> GoodTombstone(w, pc.retention) && (0 < pc.index ==> Intent(pc.retention.intent) !in w.store)
    ensures OutcomesInv(w')
  {
    hide OutcomesStored, OutcomesBound, StoreDelta, HistoryDelta, AuthorityDelta, GrantsInv, Evolves, Bound, Linked, GoodTombstone;
    DeltaBound(w, w', t, pc);
    DeltaStored(w, w', t, pc);
  }

  lemma DeltaBound(w: World, w': World, t: nat, pc: Pc)
    requires OutcomesBound(w) && GrantsInv(w) && StoreDelta(w, w', pc) && HistoryDelta(w, w', t, pc) && Evolves(w, w', t)
    requires pc.OutcomeImport? ==> Bound(w, pc.outcome) && Linked(pc.outcome, pc.intent)
    ensures OutcomesBound(w')
  {
    hide GrantsInv, StoreDelta, HistoryDelta, Evolves, Bound, Linked, MarkerBefore;
    forall o | o in w'.outcomes
      ensures w'.outcomes[o] < w'.clock && Bound(w', o) && o.intentRecordId.of.Intent? && Linked(o, o.intentRecordId.of.intent)
              && MarkerBefore(w', o.intentRecordId.of.intent, w'.outcomes[o])
    {
      OutcomeAuthorised(w, w', t, pc, o);
      OutcomeMarked(w, w', t, pc, o);
    }
  }

  lemma DeltaStored(w: World, w': World, t: nat, pc: Pc)
    requires OutcomesStored(w) && OutcomesBound(w') && StoreDelta(w, w', pc) && HistoryDelta(w, w', t, pc)
    requires pc.PruneRemove? ==> GoodTombstone(w, pc.retention) && (0 < pc.index ==> Intent(pc.retention.intent) !in w.store)
    ensures OutcomesStored(w')
  {
    hide StoreDelta, HistoryDelta, Bound, Linked, MarkerBefore, GoodTombstone;
    forall o | Outcome(o) in w'.store ensures o in w'.outcomes {
      OutcomePublished(w, w', t, pc, o);
    }
    forall o | o in w'.outcomes && o.intentRecordId.of in w'.store ensures Outcome(o) in w'.store {
      OutcomeKept(w, w', t, pc, o);
    }
  }

  lemma TombstonePublished(w: World, w': World, t: nat, pc: Pc, r: RetentionRecord)
    requires TombstonesInv(w) && StoreDelta(w, w', pc) && HistoryDelta(w, w', t, pc)
    requires Retention(r) in w'.store
    ensures r in w'.tombstones
  {
    assert Retention(r) !in w.store ==> MayImport(pc, Retention(r));
  }

  lemma ForgetPublished(w: World, w': World, t: nat, pc: Pc, f: ForgetRecord)
    requires TombstonesInv(w) && StoreDelta(w, w', pc) && HistoryDelta(w, w', t, pc)
    requires pc.ForgetImport? ==> pc.retention in w.tombstones
    requires Forget(f) in w'.store
    ensures f.retention in w'.tombstones && f == ForgetFor(f.retention)
  {
    assert Forget(f) !in w.store ==> MayImport(pc, Forget(f));
  }

  lemma TombstoneGood(w: World, w': World, t: nat, r: RetentionRecord)
    requires Evolves(w, w', t) && GoodTombstone(w, r)
    ensures GoodTombstone(w', r)
  {
  }

  lemma TombstoneKept(w: World, w': World, t: nat, pc: Pc, r: RetentionRecord)
    requires TombstonesInv(w) && HistoryDelta(w, w', t, pc) && Evolves(w, w', t)
    requires pc.PruneImport? ==> GoodTombstone(w, pc.retention)
    requires r in w'.tombstones
    ensures GoodTombstone(w', r)
  {
    hide GoodTombstone, Evolves;
    TombstoneGood(w, w', t, r);
  }

  lemma DeltaTombstones(w: World, w': World, t: nat, pc: Pc)
    requires TombstonesInv(w) && Delta(w, w', t, pc) && Evolves(w, w', t)
    requires pc.PruneImport? ==> GoodTombstone(w, pc.retention)
    requires pc.ForgetImport? ==> pc.retention in w.tombstones
    ensures TombstonesInv(w')
  {
    hide StoreDelta, HistoryDelta, AuthorityDelta, GoodTombstone, Evolves, ForgetFor;
    forall r | Retention(r) in w'.store ensures r in w'.tombstones { TombstonePublished(w, w', t, pc, r); }
    forall f | Forget(f) in w'.store
      ensures f.retention in w'.tombstones && f == ForgetFor(f.retention)
    {
      ForgetPublished(w, w', t, pc, f);
    }
    forall r | r in w'.tombstones ensures GoodTombstone(w', r) { TombstoneKept(w, w', t, pc, r); }
  }

  lemma DeltaGrants(w: World, w': World, t: nat, pc: Pc)
    requires MarkersInv(w) && GrantsInv(w) && Delta(w, w', t, pc)
    requires pc.ReserveVerify? ==> ReserveInv(w, t, pc)
    ensures GrantsInv(w')
  {
  }

  lemma DeltaPosts(w: World, w': World, t: nat, pc: Pc)
    requires PostsInv(w) && Delta(w, w', t, pc) && Evolves(w, w', t)
    requires pc.Acquired? ==> ReserveInv(w, t, pc)
    ensures PostsInv(w')
  {
    forall p | 0 <= p < |w'.posts|
      ensures HasGrant(w', w'.posts[p].thread, w'.posts[p].intent)
    {
      HasGrantStable(w, w', t, w'.posts[p].thread, w'.posts[p].intent);
    }
  }
}
