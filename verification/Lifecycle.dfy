/**
  Runs that exist: one intent reserved, submitted, stored, pruned and forgotten, as a run of the
  interleaving model; the run that leaves a stray marker beside a forget marker; and the second
  authority that the documented removal order would allow.
 */
module Lifecycle {
  import opened Basics
  import opened Records
  import opened Program
  import opened Protocol
  import opened Invariant
  import opened Theorems
  import opened Scripts

  ghost predicate Path(run: seq<World>) {
    && 0 < |run|
    && forall k {:trigger Follows(run, k)} :: 0 < k < |run| ==> Follows(run, k)
  }

  function Last(run: seq<World>): World
    requires run != []
  {
    run[|run| - 1]
  }

  /** The session's call `t` has reached this place, and the store holds `s`. */
  ghost predicate Running(run: seq<World>, t: nat, session: nat, i: IntentRecord, pc: Pc, s: set<Record>) {
    && Path(run)
    && var w := Last(run);
    && session in w.sessions && (session, i) in w.verified
    && t in w.threads && t < w.nextThread && w.threads[t].session == session && w.threads[t].pc == pc
    && w.store == s
  }

  /** The run goes on; calls begun before `base` are where they were. */
  ghost predicate Continues(run: seq<World>, run': seq<World>, base: nat) {
    && run != [] && run <= run'
    && var w, w' := Last(run), Last(run');
    && w.sessions <= w'.sessions && w.verified <= w'.verified && w.nextThread <= w'.nextThread
    && (forall u :: u in w.threads && u < base ==> u in w'.threads && w'.threads[u] == w.threads[u])
    && w.posts <= w'.posts
    && |w.grants| <= |w'.grants|
    && forall g :: 0 <= g < |w.grants| ==> w'.grants[g].intent == w.grants[g].intent
  }

  lemma ContinuesAlways()
    ensures forall p, q, r, base {:trigger Continues(p, q, base), Continues(q, r, base)} ::
              Continues(p, q, base) && Continues(q, r, base) ==> Continues(p, r, base)
  {
  }

  lemma Extend(run: seq<World>, w: World) returns (run': seq<World>)
    requires Path(run) && Next(Last(run), w)
    ensures Path(run') && run' == run + [w] && Last(run') == w
  {
    run' := run + [w];
    hide Next;
    forall k | 0 < k < |run'| ensures Follows(run', k) {
      if k < |run| { assert Follows(run, k); }
    }
  }

  lemma StepNext(w: World, t: nat, resp: Response, s': set<Record>)
    requires t in w.threads && Responds(w.store, Want(w.threads[t].pc), resp, s')
    ensures Next(w, After(w, t, resp, s'))
  {
    hide After, Want, Responds;
    assert Step(w, After(w, t, resp, s'), t, resp, s');
  }

  lemma AfterKeeps(w: World, t: nat, resp: Response, s': set<Record>)
    requires t in w.threads
    ensures var w' := After(w, t, resp, s');
      && w'.sessions == w.sessions && w'.verified == w.verified && w'.nextThread == w.nextThread && w'.store == s'
      && (forall u :: u in w.threads && u != t ==> u in w'.threads && w'.threads[u] == w.threads[u])
      && t in w'.threads && w'.threads[t].session == w.threads[t].session && w'.threads[t].pc == Advance(w.threads[t].pc, resp)
      && w.grants <= w'.grants && w.posts <= w'.posts
  {
    hide Advance;
  }

  /** One store operation of the call. */
  lemma Go(run: seq<World>, t: nat, session: nat, i: IntentRecord, pc: Pc, s: set<Record>, resp: Response, s': set<Record>, base: nat)
    returns (run': seq<World>)
    requires Running(run, t, session, i, pc, s) && base <= t && Responds(s, Want(pc), resp, s')
    ensures Running(run', t, session, i, Advance(pc, resp), s') && Continues(run, run', base)
    ensures run != [] && t in Last(run).threads && run' == run + [After(Last(run), t, resp, s')]
  {
    hide After, Want, Advance, Responds, Next, Follows;
    StepNext(Last(run), t, resp, s');
    AfterKeeps(Last(run), t, resp, s');
    run' := Extend(run, After(Last(run), t, resp, s'));
  }

  /** A set verification, record by record. */
  lemma {:induction false} Looks(run: seq<World>, t: nat, session: nat, i: IntentRecord, places: seq<Pc>, refs: seq<Record>, n: nat,
                                 s: set<Record>, base: nat) returns (run': seq<World>)
    requires Leads(places, refs) && n <= |refs| && forall r :: r in refs ==> r in s
    requires Running(run, t, session, i, places[n], s) && base <= t
    ensures Running(run', t, session, i, places[|refs|], s) && (run' == run || Continues(run, run', base))
    decreases |refs| - n
  {
    hide *;
    ContinuesAlways();
    PlaceAt(places, refs, n);
    if n == |refs| {
      run' := run;
    } else {
      assert refs[n] in refs;
      LookResponds(s, refs[n]);
      var next := Go(run, t, session, i, places[n], s, Found, s, base);
      run' := Looks(next, t, session, i, places, refs, n + 1, s, base);
    }
  }

  lemma LookResponds(s: set<Record>, r: Record)
    ensures r in s ==> Responds(s, LookOp(r), Found, s)
    ensures r !in s ==> Responds(s, LookOp(r), Absent, s)
  {
  }

  lemma WriteResponds(s: set<Record>, r: Record)
    ensures r !in s ==> Responds(s, ImportOp(r), Imported(true), s + {r})
    ensures r in s ==> Responds(s, RemoveOp(r), Removed(true), s - {r})
  {
  }

  /** No record of the kind. */
  ghost predicate NoneOf(s: set<Record>, k: Kind) {
    forall r :: r in s ==> KindOf(r) != k
  }

  lemma ListResponds(s: set<Record>, k: Kind)
    ensures NoneOf(s, k) ==> Responds(s, ListOp(k), Listed([]), s)
  {
  }

  /** The originals of a tombstone are looked up and absent. */
  lemma LooksAbsent(run: seq<World>, t: nat, session: nat, i: IntentRecord, places: seq<Pc>, r: RetentionRecord, hit: Pc,
                    s: set<Record>, base: nat) returns (run': seq<World>)
    requires LeadsAbsent(places, r, hit) && Running(run, t, session, i, places[0], s) && base <= t
    requires forall k :: 0 <= k < 3 ==> Original(r, k) !in s
    ensures Running(run', t, session, i, places[3], s) && Continues(run, run', base)
  {
    hide *;
    ContinuesAlways();
    AbsentAt(places, r, hit, 0);
    AbsentAt(places, r, hit, 1);
    AbsentAt(places, r, hit, 2);
    LookResponds(s, Original(r, 0));
    LookResponds(s, Original(r, 1));
    LookResponds(s, Original(r, 2));
    run' := Go(run, t, session, i, places[0], s, Absent, s, base);
    run' := Go(run', t, session, i, places[1], s, Absent, s, base);
    run' := Go(run', t, session, i, places[2], s, Absent, s, base);
  }

  /** A two-pass scan that finds no record of its kind. */
  lemma EmptyScan(run: seq<World>, t: nat, session: nat, i: IntentRecord, g: Goal, s: set<Record>, base: nat) returns (run': seq<World>)
    requires Running(run, t, session, i, ScanStart(g), s) && base <= t && NoneOf(s, GoalKind(g))
    ensures Running(run', t, session, i, ScanExit(g, None), s) && Continues(run, run', base)
  {
    hide *;
    ContinuesAlways();
    StartScript(g);
    PassScript(g, false, []);
    PassScript(g, true, []);
    PassListed(g, false, [], []);
    PassListed(g, true, [], []);
    PassEnds(g, false, [], None);
    PassEnds(g, true, [], None);
    ListResponds(s, GoalKind(g));
    run' := Go(run, t, session, i, ScanList(g, false, []), s, Listed([]), s, base);
    run' := Go(run', t, session, i, ScanList(g, true, []), s, Listed([]), s, base);
  }

  // ---------------------------------------------------------------- reserve, submit, store

  ghost predicate OwnGrant(w: World, t: nat, session: nat, i: IntentRecord) {
    exists g :: 0 <= g < |w.grants| && w.grants[g] == Grant(session, t, i, w.grants[g].at, None)
  }

  /** A reservation of an intent without marker and outcome acquires. */
  lemma Reserves(run: seq<World>, t: nat, session: nat, i: IntentRecord, s: set<Record>, base: nat) returns (run': seq<World>)
    requires Running(run, t, session, i, ReserveImport(i), s) && base <= t
    requires Intent(i) in s && Marker(i) !in s && NoneOf(s, OutcomeKind)
    ensures Running(run', t, session, i, Acquired(i), s + {Marker(i)}) && Continues(run, run', base)
    ensures |Last(run).grants| < |Last(run').grants| && OwnGrant(Last(run'), t, session, i)
    ensures Last(run').grants[|Last(run').grants| - 1].intent == i
  {
    hide *;
    ContinuesAlways();
    ReserveScript(i);
    NoOutcomeYet(s, i);
    WriteResponds(s, Marker(i));
    var s' := s + {Marker(i)};
    ListResponds(s', OutcomeKind);
    LookResponds(s', Intent(i));
    LookResponds(s', Marker(i));
    ScanStarts(ReserveList(i), [], i);
    ReserveVerifies(i);
    run' := Go(run, t, session, i, ReserveImport(i), s, Imported(true), s', base);
    run' := Go(run', t, session, i, ReserveList(i), s', Listed([]), s', base);
    run' := Go(run', t, session, i, ReserveVerify(i, 0), s', Found, s', base);
    ghost var verified := run';
    Counted(run, verified, base);
    run' := Go(run', t, session, i, ReserveVerify(i, 1), s', Found, s', base);
    Acquires(verified, run', t, session, i, s');
  }

  lemma NoOutcomeYet(s: set<Record>, i: IntentRecord)
    ensures NoneOf(s, OutcomeKind) ==> NoneOf(s + {Marker(i)}, OutcomeKind)
  {
  }

  lemma ReserveVerifies(i: IntentRecord)
    ensures Want(ReserveVerify(i, 0)) == LookOp(Intent(i)) && Advance(ReserveVerify(i, 0), Found) == ReserveVerify(i, 1)
    ensures Want(ReserveVerify(i, 1)) == LookOp(Marker(i)) && Advance(ReserveVerify(i, 1), Found) == Acquired(i)
  {
  }

  lemma Counted(run: seq<World>, run': seq<World>, base: nat)
    requires Continues(run, run', base)
    ensures |Last(run).grants| <= |Last(run').grants|
  {
  }

  lemma Acquires(run: seq<World>, run': seq<World>, t: nat, session: nat, i: IntentRecord, s: set<Record>)
    requires Running(run, t, session, i, ReserveVerify(i, 1), s) && run' == run + [After(Last(run), t, Found, s)]
    ensures |Last(run').grants| == |Last(run).grants| + 1 && OwnGrant(Last(run'), t, session, i)
    ensures Last(run').grants[|Last(run').grants| - 1].intent == i
  {
    var w, w' := Last(run), Last(run');
    assert w'.grants == w.grants + [Grant(session, t, i, w.clock, None)];
    assert w'.grants[|w.grants|] == Grant(session, t, i, w'.grants[|w.grants|].at, None);
  }

  ghost predicate PostedBy(w: World, t: nat, i: IntentRecord) {
    exists p :: 0 <= p < |w.posts| && w.posts[p] == Post(t, i)
  }

  /** The acquired reservation posts, and its authority is bound to what the site answered. */
  lemma Submits(run: seq<World>, t: nat, session: nat, i: IntentRecord, s: set<Record>, obs: Observation, base: nat)
    returns (run': seq<World>, u: nat)
    requires Running(run, t, session, i, Acquired(i), s) && base <= t && OwnGrant(Last(run), t, session, i)
    requires Linked(OutcomeFor(i, obs.receipt), i)
    ensures Running(run', u, session, i, OutcomeImport(i, OutcomeFor(i, obs.receipt)), s) && base <= u && Continues(run, run', base)
    ensures PostedBy(Last(run'), t, i)
  {
    var posted := Posts(run, t, session, i, s, base);
    run', u := Binds(posted, t, session, i, s, obs, base);
    hide *;
    ContinuesAlways();
  }

  lemma Posts(run: seq<World>, t: nat, session: nat, i: IntentRecord, s: set<Record>, base: nat) returns (run': seq<World>)
    requires Running(run, t, session, i, Acquired(i), s) && base <= t && OwnGrant(Last(run), t, session, i)
    ensures Running(run', t, session, i, Posted(i), s) && Continues(run, run', base)
    ensures PostedBy(Last(run'), t, i) && OwnGrant(Last(run'), t, session, i)
  {
    hide Path, Follows, Continues;
    run' := Go(run, t, session, i, Acquired(i), s, Submitted, s, base);
    var w, w' := Last(run), Last(run');
    assert w'.posts[|w.posts|] == Post(t, i);
    assert w'.grants == w.grants;
  }

  lemma Binds(run: seq<World>, t: nat, session: nat, i: IntentRecord, s: set<Record>, obs: Observation, base: nat)
    returns (run': seq<World>, u: nat)
    requires Running(run, t, session, i, Posted(i), s) && base <= t
    requires OwnGrant(Last(run), t, session, i) && PostedBy(Last(run), t, i)
    requires Linked(OutcomeFor(i, obs.receipt), i)
    ensures Running(run', u, session, i, OutcomeImport(i, OutcomeFor(i, obs.receipt)), s) && base <= u && Continues(run, run', base)
    ensures PostedBy(Last(run'), t, i)
  {
    hide Follows, OutcomeFor, Linked, ObservationMatches, Next;
    var w := Last(run);
    var g :| 0 <= g < |w.grants| && w.grants[g] == Grant(session, t, i, w.grants[g].at, None);
    LinkedMatches(i, obs.receipt);
    var w' := Spawn(w, session, BoundPlace(i, obs.receipt)).(grants := w.grants[g := w.grants[g].(bound := Some(obs))]);
    assert StartOutcome(w, w', session, g, obs);
    BindNext(w, w', session, g, obs);
    run' := Extend(run, w');
    u := w.nextThread;
  }

  lemma LinkedMatches(i: IntentRecord, receipt: ExchangeReceipt)
    requires Linked(OutcomeFor(i, receipt), i)
    ensures ObservationMatches(receipt, i)
  {
    hide ValidReceipt, AttemptMatchesIntent;
  }

  lemma BindNext(w: World, w': World, session: nat, g: nat, obs: Observation)
    requires StartOutcome(w, w', session, g, obs)
    ensures Next(w, w')
  {
    hide StartOutcome;
  }

  /** The bound outcome is published and its chain verified. */
  lemma Stores(run: seq<World>, t: nat, session: nat, i: IntentRecord, o: OutcomeRecord, s: set<Record>, base: nat)
    returns (run': seq<World>)
    requires Running(run, t, session, i, OutcomeImport(i, o), s) && base <= t
    requires Intent(i) in s && Marker(i) in s && Outcome(o) !in s
    ensures Running(run', t, session, i, Done(OutcomeStored(o)), s + {Outcome(o)}) && Continues(run, run', base)
  {
    hide *;
    ContinuesAlways();
    OutcomeScript(i, o);
    WriteResponds(s, Outcome(o));
    var places := OutcomePlaces(i, o);
    var s' := s + {Outcome(o)};
    ChainHolds(i, o, s');
    run' := Go(run, t, session, i, OutcomeImport(i, o), s, Imported(true), s', base);
    run' := Looks(run', t, session, i, places, OutcomeSet(i, o), 0, s', base);
  }

  lemma ChainHolds(i: IntentRecord, o: OutcomeRecord, s: set<Record>)
    ensures Intent(i) in s && Marker(i) in s && Outcome(o) in s ==>
              && (forall r :: r in OutcomeSet(i, o) ==> r in s)
              && (forall r :: r in StatusSet(i, true, Some(o)) ==> r in s)
  {
  }

  // ---------------------------------------------------------------- prune

  /** The chain of a stored outcome, and nothing else. */
  function Chain(i: IntentRecord, o: OutcomeRecord): set<Record> { {Intent(i), Marker(i), Outcome(o)} }

  lemma ChainLists(i: IntentRecord, o: OutcomeRecord)
    ensures NoneOf(Chain(i, o), RetentionKind) && NoneOf(Chain(i, o), ForgetKind)
    ensures Responds(Chain(i, o), ListOp(OutcomeKind), Listed([Outcome(o)]), Chain(i, o))
    ensures Responds(Chain(i, o), LookOp(Outcome(o)), Found, Chain(i, o))
    ensures Responds(Chain(i, o), LookOp(Intent(i)), Found, Chain(i, o)) && Responds(Chain(i, o), LookOp(Marker(i)), Found, Chain(i, o))
    ensures Intent(i) in Chain(i, o) && Marker(i) in Chain(i, o) && Outcome(o) in Chain(i, o)
  {
  }

  /** The places of a prune that takes its status itself, up to the verification of the set. */
  lemma PruneWalk(i: IntentRecord, o: OutcomeRecord)
    requires Linked(o, i)
    ensures var c := ByPrune(i.operationId);
      && Want(StatusIntent(i, c)) == LookOp(Intent(i)) && Advance(StatusIntent(i, c), Found) == StatusList(i, c)
      && Want(StatusList(i, c)) == ListOp(OutcomeKind)
      && Advance(StatusList(i, c), Listed([Outcome(o)])) == StatusScan(i, c, [Outcome(o)], None)
      && Want(StatusScan(i, c, [Outcome(o)], None)) == LookOp(Outcome(o))
      && Advance(StatusScan(i, c, [Outcome(o)], None), Found) == StatusAttempt(i, c, Some(o))
      && Want(StatusAttempt(i, c, Some(o))) == LookOp(Marker(i))
      && Advance(StatusAttempt(i, c, Some(o)), Found) == StatusVerify(i, c, true, Some(o), 0)
  {
    hide ScanOne, Linked, AttemptFromIntent, StatusScanned;
    OneMatch(i, o, ByPrune(i.operationId));
  }

  lemma OneMatch(i: IntentRecord, o: OutcomeRecord, c: Caller)
    requires Linked(o, i)
    ensures StatusScanned(i, c, [Outcome(o)], None) == StatusAttempt(i, c, Some(o))
  {
    assert o.operationId == i.operationId;
    assert [Outcome(o)][1..] == [];
  }

  lemma PruneDecides(i: IntentRecord, o: OutcomeRecord)
    ensures StatusExit(i, ByPrune(i.operationId), CandidateState(true, Some(o)), Some(o)) == PruneImport(RetentionFor(i, o))
  {
  }

  /** A prune of a stored chain reaches the publication of its tombstone. */
  lemma Decides(run: seq<World>, t: nat, session: nat, i: IntentRecord, o: OutcomeRecord, base: nat) returns (run': seq<World>)
    requires Running(run, t, session, i, ScanStart(PruneForget(i, i.operationId)), Chain(i, o)) && base <= t && Linked(o, i)
    ensures Running(run', t, session, i, PruneImport(RetentionFor(i, o)), Chain(i, o)) && Continues(run, run', base)
  {
    hide *;
    ContinuesAlways();
    var op, c, s := i.operationId, ByPrune(i.operationId), Chain(i, o);
    ChainLists(i, o);
    GoalKinds(i, op);
    PruneScript(i, op);
    StatusScript(i, c);
    PruneWalk(i, o);
    PruneDecides(i, o);
    ChainHolds(i, o, s);
    var places := StatusPlaces(i, c, true, Some(o));
    run' := EmptyScan(run, t, session, i, PruneForget(i, op), s, base);
    run' := EmptyScan(run', t, session, i, PruneRetention(i, op), s, base);
    run' := EmptyScan(run', t, session, i, StatusForget(i, c), s, base);
    run' := EmptyScan(run', t, session, i, StatusRetention(i, c), s, base);
    run' := Go(run', t, session, i, StatusIntent(i, c), s, Found, s, base);
    run' := Go(run', t, session, i, StatusList(i, c), s, Listed([Outcome(o)]), s, base);
    run' := Go(run', t, session, i, StatusScan(i, c, [Outcome(o)], None), s, Found, s, base);
    run' := Go(run', t, session, i, StatusAttempt(i, c, Some(o)), s, Found, s, base);
    run' := Looks(run', t, session, i, places, StatusSet(i, true, Some(o)), 0, s, base);
  }

  lemma GoalKinds(i: IntentRecord, op: string)
    ensures GoalKind(PruneForget(i, op)) == ForgetKind && GoalKind(PruneRetention(i, op)) == RetentionKind
    ensures forall c :: GoalKind(StatusForget(i, c)) == ForgetKind && GoalKind(StatusRetention(i, c)) == RetentionKind
    ensures forall r :: GoalKind(ForgetMarker(r, op)) == ForgetKind
  {
  }

  lemma ChainOf(i: IntentRecord, o: OutcomeRecord)
    ensures var r := RetentionFor(i, o); var s := Chain(i, o);
      && Original(r, 0) == Intent(i) && Original(r, 1) == Marker(i) && Original(r, 2) == Outcome(o)
      && Original(r, 0) != Original(r, 1) && Original(r, 0) != Original(r, 2) && Original(r, 1) != Original(r, 2)
      && Retention(r) !in s
      && (forall t :: t in PruneSet(r) ==> t in s + {Retention(r)})
      && (((s + {Retention(r)}) - {Intent(i)}) - {Marker(i)}) - {Outcome(o)} == {Retention(r)}
  {
    hide AttemptFromIntent;
  }

  /** The tombstone is published, the chain removed, the tombstone confirmed. */
  lemma Prunes(run: seq<World>, t: nat, session: nat, i: IntentRecord, o: OutcomeRecord, base: nat) returns (run': seq<World>)
    requires Running(run, t, session, i, PruneImport(RetentionFor(i, o)), Chain(i, o)) && base <= t
    ensures Running(run', t, session, i, Done(PruneDone(RetentionFor(i, o))), {Retention(RetentionFor(i, o))}) && Continues(run, run', base)
  {
    hide *;
    ContinuesAlways();
    var r, s := RetentionFor(i, o), Chain(i, o);
    ChainOf(i, o);
    ChainLists(i, o);
    WriteResponds(s, Retention(r));
    PruneImports(r);
    var sets := PrunePlaces(r);
    var before := TombstonePlaces(r, false);
    var after := TombstonePlaces(r, true);
    var s0 := s + {Retention(r)};
    run' := Go(run, t, session, i, PruneImport(r), s, Imported(true), s0, base);
    run' := Looks(run', t, session, i, sets, PruneSet(r), 0, s0, base);
    run' := Looks(run', t, session, i, before, TombstoneSet(r), 0, s0, base);
    run' := Removes3(run', t, session, i, r, s0, base);
    run' := Looks(run', t, session, i, after, TombstoneSet(r), 0, {Retention(r)}, base);
  }

  lemma PruneImports(r: RetentionRecord)
    ensures Want(PruneImport(r)) == ImportOp(Retention(r)) && Advance(PruneImport(r), Imported(true)) == PruneConfirmSet(r, 0)
  {
  }

  /** One removal that finds its record. */
  lemma Removes1(run: seq<World>, t: nat, session: nat, i: IntentRecord, r: RetentionRecord, n: nat, s: set<Record>, base: nat)
    returns (run': seq<World>)
    requires n < 3 && Running(run, t, session, i, PruneRemove(r, n), s) && base <= t && Original(r, n) in s
    ensures Running(run', t, session, i, if n < 2 then PruneRemove(r, n + 1) else PruneFinish(r, 0), s - {Original(r, n)})
    ensures Continues(run, run', base)
  {
    hide *;
    RemoveScript(r);
    RemoveStep(r, n, true);
    WriteResponds(s, Original(r, n));
    run' := Go(run, t, session, i, PruneRemove(r, n), s, Removed(true), s - {Original(r, n)}, base);
  }

  lemma Removes3(run: seq<World>, t: nat, session: nat, i: IntentRecord, r: RetentionRecord, s: set<Record>, base: nat)
    returns (run': seq<World>)
    requires Running(run, t, session, i, PruneRemove(r, 0), s) && base <= t
    requires Original(r, 0) in s && Original(r, 1) in s && Original(r, 2) in s
    requires Original(r, 0) != Original(r, 1) && Original(r, 0) != Original(r, 2) && Original(r, 1) != Original(r, 2)
    ensures Running(run', t, session, i, PruneFinish(r, 0), ((s - {Original(r, 0)}) - {Original(r, 1)}) - {Original(r, 2)})
    ensures Continues(run, run', base)
  {
    hide *;
    ContinuesAlways();
    run' := Removes1(run, t, session, i, r, 0, s, base);
    run' := Removes1(run', t, session, i, r, 1, s - {Original(r, 0)}, base);
    run' := Removes1(run', t, session, i, r, 2, (s - {Original(r, 0)}) - {Original(r, 1)}, base);
  }

  // ---------------------------------------------------------------- forget

  lemma ForgetWalk(r: RetentionRecord)
    ensures var op := r.operationId;
      && ScanExit(ForgetMarker(r, op), None) == ForgetLoad(r, op)
      && Want(ForgetLoad(r, op)) == LookOp(Retention(r)) && Advance(ForgetLoad(r, op), Found) == ForgetAbsent(r, false, 0)
      && Want(ForgetImport(r)) == ImportOp(Forget(ForgetFor(r))) && Advance(ForgetImport(r), Imported(true)) == ForgetAbsent(r, true, 0)
  {
    hide ForgetFor;
  }

  lemma Forgettables(r: RetentionRecord)
    ensures NoneOf({Retention(r)}, ForgetKind) && Forget(ForgetFor(r)) !in {Retention(r)}
    ensures Responds({Retention(r)}, LookOp(Retention(r)), Found, {Retention(r)})
    ensures {Retention(r)} + {Forget(ForgetFor(r))} == {Retention(r), Forget(ForgetFor(r))}
  {
    hide ForgetFor;
  }

  /** A forget of a pruned tombstone publishes its marker. */
  lemma Marks(run: seq<World>, t: nat, session: nat, i: IntentRecord, r: RetentionRecord, base: nat) returns (run': seq<World>)
    requires Running(run, t, session, i, ScanStart(ForgetMarker(r, r.operationId)), {Retention(r)}) && base <= t
    requires forall k :: 0 <= k < 3 ==> Original(r, k) !in {Retention(r)}
    ensures Running(run', t, session, i, ForgetAbsent(r, true, 0), {Retention(r), Forget(ForgetFor(r))}) && Continues(run, run', base)
  {
    hide *;
    ContinuesAlways();
    var op, s := r.operationId, {Retention(r)};
    Forgettables(r);
    ForgetWalk(r);
    GoalKinds(i, op);
    WriteResponds(s, Forget(ForgetFor(r)));
    var absent := AbsentPlaces(r, false);
    run' := EmptyScan(run, t, session, i, ForgetMarker(r, op), s, base);
    run' := Go(run', t, session, i, ForgetLoad(r, op), s, Found, s, base);
    run' := LooksAbsent(run', t, session, i, absent, r, STOP, s, base);
    run' := Go(run', t, session, i, ForgetImport(r), s, Imported(true), s + {Forget(ForgetFor(r))}, base);
  }

  lemma EraseWalk(r: RetentionRecord)
    ensures Want(ForgetRemove(r, false)) == RemoveOp(Retention(r)) && Advance(ForgetRemove(r, false), Removed(true)) == ForgetRemove(r, true)
    ensures Want(ForgetRemove(r, true)) == RemoveOp(Forget(ForgetFor(r))) && Advance(ForgetRemove(r, true), Removed(true)) == ForgetCheck(r)
    ensures Want(ForgetCheck(r)) == CheckOp && Advance(ForgetCheck(r), Checked) == Done(ForgetDone(r))
  {
    hide ForgetFor;
  }

  lemma EraseResponds(r: RetentionRecord)
    ensures Responds({Retention(r), Forget(ForgetFor(r))}, RemoveOp(Retention(r)), Removed(true), {Forget(ForgetFor(r))})
    ensures Responds({Forget(ForgetFor(r))}, RemoveOp(Forget(ForgetFor(r))), Removed(true), {})
    ensures Responds({}, CheckOp, Checked, {})
  {
    hide ForgetFor;
    assert {Retention(r), Forget(ForgetFor(r))} - {Retention(r)} == {Forget(ForgetFor(r))};
  }

  /** The tombstone is removed, then the marker. */
  lemma Erases(run: seq<World>, t: nat, session: nat, i: IntentRecord, r: RetentionRecord, base: nat) returns (run': seq<World>)
    requires Running(run, t, session, i, ForgetRemove(r, false), {Retention(r), Forget(ForgetFor(r))}) && base <= t
    ensures Running(run', t, session, i, Done(ForgetDone(r)), {}) && Continues(run, run', base)
  {
    hide *;
    ContinuesAlways();
    EraseWalk(r);
    EraseResponds(r);
    run' := Go(run, t, session, i, ForgetRemove(r, false), {Retention(r), Forget(ForgetFor(r))}, Removed(true), {Forget(ForgetFor(r))}, base);
    run' := Go(run', t, session, i, ForgetRemove(r, true), {Forget(ForgetFor(r))}, Removed(true), {}, base);
    run' := Go(run', t, session, i, ForgetCheck(r), {}, Checked, {}, base);
  }

  /** Behind its marker the tombstone is removed, then the marker. */
  lemma Forgets(run: seq<World>, t: nat, session: nat, i: IntentRecord, r: RetentionRecord, base: nat) returns (run': seq<World>)
    requires Running(run, t, session, i, ForgetAbsent(r, true, 0), {Retention(r), Forget(ForgetFor(r))}) && base <= t
    requires forall k :: 0 <= k < 3 ==> Original(r, k) !in {Retention(r), Forget(ForgetFor(r))}
    ensures Running(run', t, session, i, Done(ForgetDone(r)), {}) && Continues(run, run', base)
  {
    hide *;
    ContinuesAlways();
    var s := {Retention(r), Forget(ForgetFor(r))};
    var absent := AbsentPlaces(r, true);
    var confirm := MarkerPlaces(r);
    run' := LooksAbsent(run, t, session, i, absent, r, STOP, s, base);
    run' := Looks(run', t, session, i, confirm, ForgetSet(r), 0, s, base);
    run' := Erases(run', t, session, i, r, base);
  }

  // ---------------------------------------------------------------- the whole life

  /** Two sessions are open, the intent is prepared and both have loaded it. */
  lemma Prepared(i: IntentRecord) returns (run: seq<World>)
    requires ValidIntent(i)
    ensures Path(run) && Init(run[0])
    ensures var w := Last(run);
      && w.sessions == {0, 1} && w.verified == {(0, i), (1, i)} && w.threads == map[] && w.nextThread == 0
      && w.store == {Intent(i)} && w.grants == []
  {
    hide ValidIntent, Step, StartOutcome, Start;
    var w0 := World({}, {}, 0, {}, map[], 0, 0, {}, map[], map[], {}, [], [], {});
    var w1 := w0.(sessions := {0}, nextSession := 1, clock := 1);
    var w2 := w1.(sessions := {0, 1}, nextSession := 2, clock := 2);
    var w3 := w2.(store := {Intent(i)}, intents := {i}, clock := 3);
    var w4 := w3.(verified := {(0, i)}, clock := 4);
    var w5 := w4.(verified := {(0, i), (1, i)}, clock := 5);
    assert OpenSession(w0, w1) && OpenSession(w1, w2) && Prepare(w2, w3, i) && LoadIntent(w3, w4, 0, i) && LoadIntent(w4, w5, 1, i);
    run := [w0];
    run := Extend(run, w1);
    run := Extend(run, w2);
    run := Extend(run, w3);
    run := Extend(run, w4);
    run := Extend(run, w5);
  }

  /** A session begins a call. */
  lemma Begins(run: seq<World>, session: nat, i: IntentRecord, pc: Pc, s: set<Record>, base: nat) returns (run': seq<World>, t: nat)
    requires Path(run) && Last(run).store == s && base <= Last(run).nextThread
    requires session in Last(run).sessions && (session, i) in Last(run).verified
    requires pc == ReserveCheck(i) || ScanOpens(pc)
    ensures Running(run', t, session, i, pc, s) && Continues(run, run', base) && t == Last(run).nextThread
  {
    hide ScanOpens, Step, StartOutcome, Follows, Next;
    var w := Last(run);
    assert Start(w, Spawn(w, session, pc), session, pc);
    StartNext(w, Spawn(w, session, pc), session, pc);
    run' := Extend(run, Spawn(w, session, pc));
    t := w.nextThread;
  }

  lemma StartNext(w: World, w': World, session: nat, pc: Pc)
    requires Start(w, w', session, pc)
    ensures Next(w, w')
  {
    hide Start;
  }

  lemma RunningFacts(run: seq<World>, t: nat, session: nat, i: IntentRecord, pc: Pc, s: set<Record>)
    requires Running(run, t, session, i, pc, s)
    ensures Path(run) && run != [] && Last(run).store == s && t < Last(run).nextThread
    ensures session in Last(run).sessions && (session, i) in Last(run).verified
    ensures t in Last(run).threads && Last(run).threads[t].pc == pc
  {
    hide Follows;
  }

  lemma OpenPlaces(i: IntentRecord, op: string, r: RetentionRecord)
    ensures ScanOpens(ScanStart(PruneForget(i, op))) && ScanOpens(ScanStart(ForgetMarker(r, op)))
  {
  }

  lemma FirstStore(i: IntentRecord, o: OutcomeRecord)
    ensures Intent(i) in {Intent(i)} && Marker(i) !in {Intent(i)} && NoneOf({Intent(i)}, OutcomeKind)
    ensures var s := {Intent(i)} + {Marker(i)};
      Intent(i) in s && Marker(i) in s && Outcome(o) !in s && s + {Outcome(o)} == Chain(i, o)
    ensures Responds({Intent(i)}, LookOp(Intent(i)), Found, {Intent(i)})
  {
  }

  /** A call that waits is where it was. */
  lemma StillWaits(run: seq<World>, run': seq<World>, t: nat, session: nat, i: IntentRecord, pc: Pc, s: set<Record>, s': set<Record>, base: nat)
    requires Running(run, t, session, i, pc, s) && Continues(run, run', base) && t < base
    requires Path(run') && Last(run').store == s'
    ensures Running(run', t, session, i, pc, s')
  {
    hide Path;
  }

  lemma StillPosted(run: seq<World>, run': seq<World>, t: nat, i: IntentRecord, base: nat)
    requires Continues(run, run', base) && PostedBy(Last(run), t, i)
    ensures PostedBy(Last(run'), t, i)
  {
    var p :| 0 <= p < |Last(run).posts| && Last(run).posts[p] == Post(t, i);
    assert Last(run').posts[p] == Post(t, i);
  }

  lemma StillAuthorised(run: seq<World>, run': seq<World>, i: IntentRecord, base: nat)
    requires Continues(run, run', base) && Last(run).grants != [] && Last(run).grants[|Last(run).grants| - 1].intent == i
    ensures exists g :: 0 <= g < |Last(run').grants| && Last(run').grants[g].intent == i
  {
    assert Last(run').grants[|Last(run).grants| - 1].intent == i;
  }

  /** The first world and everything since are those of the shorter run. */
  lemma Prefixes(run: seq<World>, run': seq<World>, base: nat)
    requires Continues(run, run', base)
    ensures run != [] && run <= run' && run'[0] == run[0]
    ensures |Last(run).grants| <= |Last(run').grants| && Last(run).nextThread <= Last(run').nextThread
    ensures Last(run).sessions <= Last(run').sessions && Last(run).verified <= Last(run').verified
  {
  }

  /**
    Another session reserves, posts and stores while the first waits with a reservation that has
    passed its check of the intent and has not published its marker.
   */
  lemma AcquiredAndStored(i: IntentRecord, obs: Observation) returns (acquired: seq<World>, stored: seq<World>, t: nat)
    requires ValidIntent(i) && Linked(OutcomeFor(i, obs.receipt), i)
    ensures acquired != [] && acquired <= stored && Init(stored[0])
    ensures t in Last(acquired).threads && Last(acquired).threads[t].pc == Acquired(i)
    ensures PostedBy(Last(stored), t, i)
    ensures Path(stored) && Last(stored).store == Chain(i, OutcomeFor(i, obs.receipt))
    ensures 1 in Last(stored).sessions && (1, i) in Last(stored).verified && 1 <= Last(stored).nextThread
    ensures Running(stored, 0, 0, i, ReserveImport(i), Chain(i, OutcomeFor(i, obs.receipt)))
    ensures exists g :: 0 <= g < |Last(stored).grants| && Last(stored).grants[g].intent == i
  {
    hide *;
    ContinuesAlways();
    var o := OutcomeFor(i, obs.receipt);
    FirstStore(i, o);
    ReserveScript(i);
    var run := Prepared(i);
    var begun, t0 := Begins(run, 0, i, ReserveCheck(i), {Intent(i)}, 0);
    var checked := Go(begun, t0, 0, i, ReserveCheck(i), {Intent(i)}, Found, {Intent(i)}, 0);
    RunningFacts(checked, t0, 0, i, ReserveImport(i), {Intent(i)});
    Prefixes(run, checked, 0);
    var second;
    second, t := Begins(checked, 1, i, ReserveCheck(i), {Intent(i)}, 1);
    var passed := Go(second, t, 1, i, ReserveCheck(i), {Intent(i)}, Found, {Intent(i)}, 1);
    acquired := Reserves(passed, t, 1, i, {Intent(i)}, 1);
    RunningFacts(acquired, t, 1, i, Acquired(i), {Intent(i)} + {Marker(i)});
    var posted, u := Submits(acquired, t, 1, i, {Intent(i)} + {Marker(i)}, obs, 1);
    stored := Stores(posted, u, 1, i, o, {Intent(i)} + {Marker(i)}, 1);
    RunningFacts(stored, u, 1, i, Done(OutcomeStored(o)), Chain(i, o));
    StillWaits(checked, stored, 0, 0, i, ReserveImport(i), {Intent(i)}, Chain(i, o), 1);
    StillPosted(posted, stored, t, i, 1);
    StillAuthorised(acquired, stored, i, 1);
    Prefixes(checked, stored, 1);
    Prefixes(acquired, stored, 1);
  }

  lemma PrunedAndMarked(i: IntentRecord, obs: Observation, stored: seq<World>) returns (pruned: seq<World>, marked: seq<World>, u: nat)
    requires Linked(OutcomeFor(i, obs.receipt), i)
    requires Path(stored) && Last(stored).store == Chain(i, OutcomeFor(i, obs.receipt))
    requires 1 in Last(stored).sessions && (1, i) in Last(stored).verified && 1 <= Last(stored).nextThread
    ensures var r := RetentionFor(i, OutcomeFor(i, obs.receipt));
      && pruned != [] && Path(pruned) && Last(pruned).store == {Retention(r)}
      && Running(marked, u, 1, i, ForgetAbsent(r, true, 0), {Retention(r), Forget(ForgetFor(r))}) && 1 <= u
      && Continues(stored, pruned, 1) && Continues(pruned, marked, 1)
  {
    hide *;
    ContinuesAlways();
    var o := OutcomeFor(i, obs.receipt);
    var r := RetentionFor(i, o);
    OpenPlaces(i, i.operationId, r);
    RetentionOf(i, o);
    OriginalsGone(r, i, o);
    var begun, t := Begins(stored, 1, i, ScanStart(PruneForget(i, i.operationId)), Chain(i, o), 1);
    var decided := Decides(begun, t, 1, i, o, 1);
    pruned := Prunes(decided, t, 1, i, o, 1);
    RunningFacts(pruned, t, 1, i, Done(PruneDone(r)), {Retention(r)});
    var again, t2 := Begins(pruned, 1, i, ScanStart(ForgetMarker(r, r.operationId)), {Retention(r)}, 1);
    marked := Marks(again, t2, 1, i, r, 1);
    u := t2;
  }

  lemma RetentionOf(i: IntentRecord, o: OutcomeRecord)
    ensures RetentionFor(i, o).operationId == i.operationId
  {
  }

  lemma OriginalsGone(r: RetentionRecord, i: IntentRecord, o: OutcomeRecord)
    requires r == RetentionFor(i, o)
    ensures forall k :: 0 <= k < 3 ==> Original(r, k) !in {Retention(r)} && Original(r, k) !in {Retention(r), Forget(ForgetFor(r))}
  {
    hide Original, RetentionFor, ForgetFor, AttemptFromIntent;
    ChainOf(i, o);
  }

  /**
    There is a run in which an intent is reserved, submitted, stored, pruned and forgotten, and the
    store ends empty.
   */
  lemma WholeLife(i: IntentRecord, obs: Observation)
    returns (acquired: seq<World>, stored: seq<World>, pruned: seq<World>, forgotten: seq<World>, t: nat)
    requires ValidIntent(i) && Linked(OutcomeFor(i, obs.receipt), i)
    ensures IsRun(forgotten) && acquired != [] && acquired <= stored <= pruned <= forgotten
    ensures t in Last(acquired).threads && Last(acquired).threads[t].pc == Acquired(i)
    ensures var o := OutcomeFor(i, obs.receipt);
      && PostedBy(Last(stored), t, i) && Last(stored).store == Chain(i, o)
      && Last(pruned).store == {Retention(RetentionFor(i, o))}
      && Last(forgotten).store == {}
  {
    hide *;
    ContinuesAlways();
    var o := OutcomeFor(i, obs.receipt);
    var r := RetentionFor(i, o);
    acquired, stored, t := AcquiredAndStored(i, obs);
    var marked, u;
    pruned, marked, u := PrunedAndMarked(i, obs, stored);
    OriginalsGone(r, i, o);
    forgotten := Forgets(marked, u, 1, i, r, 1);
    RunningFacts(forgotten, u, 1, i, Done(ForgetDone(r)), {});
    Prefixes(stored, pruned, 1);
    Prefixes(pruned, marked, 1);
    Prefixes(marked, forgotten, 1);
    PathIsRun(forgotten);
  }

  lemma PathIsRun(run: seq<World>)
    requires Path(run)
    ensures Init(run[0]) ==> IsRun(run)
  {
    hide Init, Follows;
  }

  /**
    The run that gets stuck: a reservation passes its check of the intent and waits; another session
    submits, stores and prunes the operation, and its forget has published its marker when the
    waiting reservation publishes its own.
   */
  lemma StrayMarkerRun(i: IntentRecord, obs: Observation) returns (run: seq<World>)
    requires ValidIntent(i) && Linked(OutcomeFor(i, obs.receipt), i)
    ensures IsRun(run) && run != []
    ensures var r := RetentionFor(i, OutcomeFor(i, obs.receipt));
            Last(run).store == {Retention(r), Forget(ForgetFor(r)), Marker(i)}
  {
    hide *;
    ContinuesAlways();
    var o := OutcomeFor(i, obs.receipt);
    var r := RetentionFor(i, o);
    var acquired, stored, t := AcquiredAndStored(i, obs);
    var pruned, marked, u := PrunedAndMarked(i, obs, stored);
    var s := {Retention(r), Forget(ForgetFor(r))};
    RunningFacts(marked, u, 1, i, ForgetAbsent(r, true, 0), s);
    StillWaits(stored, marked, 0, 0, i, ReserveImport(i), Chain(i, o), s, 1);
    ReserveScript(i);
    MarkerIsNew(s, i, r);
    WriteResponds(s, Marker(i));
    run := Go(marked, 0, 0, i, ReserveImport(i), s, Imported(true), s + {Marker(i)}, 0);
    RunningFacts(run, 0, 0, i, ReserveList(i), s + {Marker(i)});
    Prefixes(stored, pruned, 1);
    Prefixes(pruned, marked, 1);
    Prefixes(marked, run, 0);
    PathIsRun(run);
  }

  lemma MarkerIsNew(s: set<Record>, i: IntentRecord, r: RetentionRecord)
    requires s == {Retention(r), Forget(ForgetFor(r))}
    ensures Marker(i) !in s && s + {Marker(i)} == {Retention(r), Forget(ForgetFor(r)), Marker(i)}
  {
    hide ForgetFor, AttemptFromIntent;
  }

  /**
    Why prune removes the intent first.  Take a stored operation and remove its outcome and its
    marker, as the help text lists them: the calls of the code lead from there to a second
    submission authority for the same intent.
   */
  lemma ReversedOrderGrantsTwice(i: IntentRecord, obs: Observation) returns (stored: seq<World>, again: seq<World>)
    requires ValidIntent(i) && Linked(OutcomeFor(i, obs.receipt), i)
    ensures IsRun(stored) && stored != [] && Last(stored).store == Chain(i, OutcomeFor(i, obs.receipt))
    ensures again != [] && Path(again)
    ensures again[0] == Last(stored).(store := (Last(stored).store - {Outcome(OutcomeFor(i, obs.receipt))}) - {Marker(i)})
    ensures var grants := Last(again).grants;
            exists g, h :: 0 <= g < h < |grants| && grants[g].intent == i && grants[h].intent == i
  {
    hide *;
    ContinuesAlways();
    var o := OutcomeFor(i, obs.receipt);
    var acquired, t;
    acquired, stored, t := AcquiredAndStored(i, obs);
    PathIsRun(stored);
    var start := [Last(stored).(store := {Intent(i)})];
    Removed2(i, o);
    StartPath(start);
    FirstStore(i, o);
    ReserveScript(i);
    var begun, u := Begins(start, 1, i, ReserveCheck(i), {Intent(i)}, 0);
    var checked := Go(begun, u, 1, i, ReserveCheck(i), {Intent(i)}, Found, {Intent(i)}, 0);
    again := Reserves(checked, u, 1, i, {Intent(i)}, 0);
    RunningFacts(again, u, 1, i, Acquired(i), {Intent(i)} + {Marker(i)});
    Prefixes(start, checked, 0);
    Prefixes(start, again, 0);
    StillGrants(start, again, i);
  }

  lemma Removed2(i: IntentRecord, o: OutcomeRecord)
    ensures (Chain(i, o) - {Outcome(o)}) - {Marker(i)} == {Intent(i)}
  {
    hide AttemptFromIntent;
  }

  lemma StartPath(run: seq<World>)
    requires |run| == 1
    ensures Path(run) && Last(run) == run[0]
  {
  }

  lemma StillGrants(run: seq<World>, run': seq<World>, i: IntentRecord)
    requires Continues(run, run', 0) && |Last(run).grants| < |Last(run').grants|
    requires Last(run').grants[|Last(run').grants| - 1].intent == i
    requires exists g :: 0 <= g < |Last(run).grants| && Last(run).grants[g].intent == i
    ensures exists g, h :: 0 <= g < h < |Last(run').grants| && Last(run').grants[g].intent == i && Last(run').grants[h].intent == i
  {
    var g :| 0 <= g < |Last(run).grants| && Last(run).grants[g].intent == i;
    assert Last(run').grants[g].intent == i;
  }
}
