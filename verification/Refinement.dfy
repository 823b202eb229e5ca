/**
  A legal journal is its session's part of a run of the interleaving model.

  The journal of a bound store says which stores its operations found and left.  Whenever others
  act in between so that these are the stores there are, the actions of the journal, put between
  the actions of the others, make a run of Protocol, and what the journal proves the session to
  know is true of the world the run has reached.
 */
module Refinement {
  import opened Basics
  import opened Records
  import opened Program
  import opened Journal
  import opened Protocol
  import opened Invariant
  import opened Preservation
  import opened Theorems

  /** Which call of the world the session is running, and which authorities are its own. */
  datatype Tie = Tie(thread: nat, grants: seq<nat>)

  // ---------------------------------------------------------------- what ties a session to a world

  ghost predicate Posted(w: World, t: nat, i: IntentRecord) {
    exists q :: 0 <= q < |w.posts| && w.posts[q] == Post(t, i)
  }

  ghost predicate Answered(w: World, r: Reply) {
    exists a :: a in w.answers && a.intent == r.intent && a.verdict == r.verdict && a.outcome == r.outcome
  }

  ghost predicate TiedGrants(w: World, sid: nat, tie: Tie, v: View) {
    && |tie.grants| == |v.grants|
    && (forall g, h :: 0 <= g < h < |tie.grants| ==> tie.grants[g] < tie.grants[h])
    && forall g :: 0 <= g < |v.grants| ==>
         && tie.grants[g] < |w.grants|
         && w.grants[tie.grants[g]].session == sid
         && w.grants[tie.grants[g]].intent == v.grants[g].intent
         && w.grants[tie.grants[g]].bound == v.grants[g].bound
  }

  ghost predicate TiedPosts(w: World, tie: Tie, v: View)
    requires |tie.grants| == |v.grants|
  {
    forall p :: 0 <= p < |v.posts| ==>
      && v.posts[p] < |v.grants| && tie.grants[v.posts[p]] < |w.grants|
      && Posted(w, w.grants[tie.grants[v.posts[p]]].thread, v.grants[v.posts[p]].intent)
  }

  ghost predicate TiedHistory(w: World, sid: nat, tie: Tie, v: View) {
    && sid in w.sessions
    && (forall i :: i in v.verified ==> (sid, i) in w.verified)
    && TiedGrants(w, sid, tie, v)
    && TiedPosts(w, tie, v)
    && (forall o :: o in v.published ==> o in w.outcomes)
    && (forall r :: r in v.replies ==> Answered(w, r))
  }

  /** The running call is where the journal says; an acquired one holds the last authority. */
  ghost predicate TiedCall(w: World, sid: nat, tie: Tie, pc: Pc) {
    pc != STOP ==>
      && tie.thread in w.threads && w.threads[tie.thread].session == sid && w.threads[tie.thread].pc == pc
      && (pc.Acquired? ==>
            && tie.grants != []
            && tie.grants[|tie.grants| - 1] < |w.grants|
            && w.grants[tie.grants[|tie.grants| - 1]].thread == tie.thread)
  }

  ghost predicate Tied(w: World, sid: nat, tie: Tie, v: View) {
    TiedHistory(w, sid, tie, v) && TiedCall(w, sid, tie, v.pc)
  }

  /** A session that has just been opened. */
  lemma OpenedTied(w: World, w': World, tie: Tie)
    requires OpenSession(w, w') && tie.grants == []
    ensures Tied(w', w.nextSession, tie, BLANK)
  {
  }

  // ---------------------------------------------------------------- what others do

  /** An action that leaves the session's running call and its authorities alone. */
  ghost predicate Elsewhere(w: World, w': World, sid: nat, tie: Tie) {
    && Next(w, w')
    && sid in w'.sessions
    && (tie.thread in w.threads ==> tie.thread in w'.threads && w'.threads[tie.thread] == w.threads[tie.thread])
    && forall g :: 0 <= g < |tie.grants| && tie.grants[g] < |w.grants| && tie.grants[g] < |w'.grants| ==>
         w'.grants[tie.grants[g]] == w.grants[tie.grants[g]]
  }

  /** History only grows. */
  ghost predicate Lasts(w: World, w': World) {
    && w.verified <= w'.verified
    && (forall o :: o in w.outcomes ==> o in w'.outcomes)
    && w.answers <= w'.answers
    && w.posts <= w'.posts
    && |w.grants| <= |w'.grants|
  }

  lemma StepLasts(w: World, w': World, t: nat, resp: Response, s': set<Record>)
    requires Step(w, w', t, resp, s')
    ensures Lasts(w, w')
  {
    hide Advance, Responds;
  }

  lemma BindLasts(w: World, w': World, session: nat, g: nat, obs: Observation)
    requires StartOutcome(w, w', session, g, obs)
    ensures Lasts(w, w')
  {
    hide ObservationMatches, Linked;
  }

  lemma NextLasts(w: World, w': World)
    requires Next(w, w')
    ensures Lasts(w, w')
  {
    hide Step, StartOutcome, Startable, ValidIntent;
    if t, resp, s' :| Step(w, w', t, resp, s') {
      StepLasts(w, w', t, resp, s');
    } else if session, g, obs :| StartOutcome(w, w', session, g, obs) {
      BindLasts(w, w', session, g, obs);
    }
  }

  lemma PostedLasts(w: World, w': World, t: nat, i: IntentRecord)
    requires Lasts(w, w') && Posted(w, t, i)
    ensures Posted(w', t, i)
  {
    var q :| 0 <= q < |w.posts| && w.posts[q] == Post(t, i);
    assert w'.posts[q] == Post(t, i);
  }

  lemma AnsweredLasts(w: World, w': World, r: Reply)
    requires Lasts(w, w') && Answered(w, r)
    ensures Answered(w', r)
  {
  }

  /** The authorities are the same ones in the later world, except perhaps for what they are bound to. */
  ghost predicate SameGrants(w: World, w': World, tie: Tie) {
    forall g :: 0 <= g < |tie.grants| && tie.grants[g] < |w.grants| ==>
      && tie.grants[g] < |w'.grants|
      && w'.grants[tie.grants[g]].session == w.grants[tie.grants[g]].session
      && w'.grants[tie.grants[g]].thread == w.grants[tie.grants[g]].thread
      && w'.grants[tie.grants[g]].intent == w.grants[tie.grants[g]].intent
  }

  ghost predicate SameBounds(w: World, w': World, tie: Tie)
    requires SameGrants(w, w', tie)
  {
    forall g :: 0 <= g < |tie.grants| && tie.grants[g] < |w.grants| ==>
      w'.grants[tie.grants[g]].bound == w.grants[tie.grants[g]].bound
  }

  lemma PostsLast(w: World, w': World, sid: nat, tie: Tie, v: View)
    requires TiedGrants(w, sid, tie, v) && TiedPosts(w, tie, v) && Lasts(w, w') && SameGrants(w, w', tie)
    ensures TiedPosts(w', tie, v)
  {
    hide Posted, Lasts;
    forall p | 0 <= p < |v.posts|
      ensures v.posts[p] < |v.grants| && tie.grants[v.posts[p]] < |w'.grants|
      ensures Posted(w', w'.grants[tie.grants[v.posts[p]]].thread, v.grants[v.posts[p]].intent)
    {
      PostedLasts(w, w', w.grants[tie.grants[v.posts[p]]].thread, v.grants[v.posts[p]].intent);
    }
  }

  /** What is known stays true. */
  lemma HistoryLasts(w: World, w': World, sid: nat, tie: Tie, v: View)
    requires TiedHistory(w, sid, tie, v) && Lasts(w, w') && sid in w'.sessions && SameGrants(w, w', tie) && SameBounds(w, w', tie)
    ensures TiedHistory(w', sid, tie, v)
  {
    hide Answered, TiedPosts, Posted;
    PostsLast(w, w', sid, tie, v);
    forall r | r in v.replies ensures Answered(w', r) { AnsweredLasts(w, w', r); }
  }

  lemma ElsewhereTied(w: World, w': World, sid: nat, tie: Tie, v: View)
    requires Tied(w, sid, tie, v) && Elsewhere(w, w', sid, tie)
    ensures Tied(w', sid, tie, v)
  {
    hide Next, TiedPosts, Answered;
    NextLasts(w, w');
    HistoryLasts(w, w', sid, tie, v);
  }

  // ---------------------------------------------------------------- what the session does

  /** The action, at the instant at which the store is what the journal says it found. */
  ghost predicate Performs(w: World, w': World, sid: nat, tie: Tie, tie': Tie, a: Action) {
    match a
    case Load(i, seen) =>
      && w.store == seen && tie' == tie
      && w' == w.(verified := w.verified + {(sid, i)}, clock := w.clock + 1)
    case Begin(pc) =>
      w' == Spawn(w, sid, pc) && tie' == tie.(thread := w.nextThread)
    case Bind(g, obs) =>
      && g < |tie.grants| && tie.grants[g] < |w.grants| && tie' == tie.(thread := w.nextThread)
      && var k := tie.grants[g];
         w' == Spawn(w, sid, BoundPlace(w.grants[k].intent, obs.receipt)).(grants := w.grants[k := w.grants[k].(bound := Some(obs))])
    case Did(found, resp, left) =>
      && w.store == found && tie.thread in w.threads
      && w' == After(w, tie.thread, resp, left)
      && tie' == if |w.grants| < |w'.grants| then tie.(grants := tie.grants + [|w.grants|]) else tie
  }

  /** The session can act wherever the store is what its action found. */
  lemma CanPerform(w: World, sid: nat, tie: Tie, v: View, a: Action) returns (w': World, tie': Tie)
    requires Tied(w, sid, tie, v) && Legal(v, a)
    requires (a.Did? ==> w.store == a.found) && (a.Load? ==> w.store == a.seen)
    ensures Performs(w, w', sid, tie, tie', a)
  {
    hide After, Advance, BoundPlace, TiedHistory, ObservationMatches;
    match a {
      case Load(i, seen) =>
        w', tie' := w.(verified := w.verified + {(sid, i)}, clock := w.clock + 1), tie;
      case Begin(pc) =>
        w', tie' := Spawn(w, sid, pc), tie.(thread := w.nextThread);
      case Bind(g, obs) =>
        BindTied(w, sid, tie, v, g);
        var k := tie.grants[g];
        w' := Spawn(w, sid, BoundPlace(w.grants[k].intent, obs.receipt)).(grants := w.grants[k := w.grants[k].(bound := Some(obs))]);
        tie' := tie.(thread := w.nextThread);
      case Did(found, resp, left) =>
        StoppedDoes(v.pc, found, resp, left);
        w' := After(w, tie.thread, resp, left);
        tie' := if |w.grants| < |w'.grants| then tie.(grants := tie.grants + [|w.grants|]) else tie;
    }
  }

  lemma BindTied(w: World, sid: nat, tie: Tie, v: View, g: nat)
    requires TiedHistory(w, sid, tie, v) && g < |v.grants|
    ensures g < |tie.grants| && tie.grants[g] < |w.grants|
    ensures w.grants[tie.grants[g]].session == sid && w.grants[tie.grants[g]].intent == v.grants[g].intent
    ensures w.grants[tie.grants[g]].bound == v.grants[g].bound
  {
    hide TiedPosts, Answered;
  }

  lemma StoppedDoes(pc: Pc, found: set<Record>, resp: Response, left: set<Record>)
    requires Responds(found, Want(pc), resp, left)
    ensures pc != STOP
  {
  }

  lemma LoadIsNext(w: World, w': World, sid: nat, tie: Tie, v: View, i: IntentRecord)
    requires Tied(w, sid, tie, v) && Intent(i) in w.store
    requires w' == w.(verified := w.verified + {(sid, i)}, clock := w.clock + 1)
    ensures Next(w, w') && Tied(w', sid, tie, v.(verified := v.verified + {i}))
  {
    assert LoadIntent(w, w', sid, i);
    hide Step, StartOutcome, TiedPosts, Answered;
    NextLasts(w, w');
    HistoryLasts(w, w', sid, tie, v);
  }

  lemma BeginIsNext(w: World, w': World, sid: nat, tie: Tie, v: View, pc: Pc)
    requires Tied(w, sid, tie, v) && Legal(v, Begin(pc)) && w' == Spawn(w, sid, pc)
    ensures Next(w, w') && Tied(w', sid, tie.(thread := w.nextThread), v.(pc := pc))
  {
    assert Start(w, w', sid, pc);
    hide Step, StartOutcome, TiedPosts, Answered, ScanOpens;
    NextLasts(w, w');
    HistoryLasts(w, w', sid, tie, v);
    SameTie(w', sid, tie, v, tie.(thread := w.nextThread), v.(pc := pc));
    assert !pc.Acquired? by { NoBeginAcquired(v, pc); }
  }

  lemma NoBeginAcquired(v: View, pc: Pc)
    requires Legal(v, Begin(pc))
    ensures !pc.Acquired?
  {
  }

  /** The history does not depend on the running call. */
  lemma SameTie(w: World, sid: nat, tie: Tie, v: View, tie': Tie, v': View)
    requires TiedHistory(w, sid, tie, v) && tie'.grants == tie.grants && v' == v.(pc := v'.pc)
    ensures TiedHistory(w, sid, tie', v')
  {
    hide Posted, Answered;
  }

  lemma BindIsNext(w: World, w': World, sid: nat, tie: Tie, tie': Tie, v: View, g: nat, obs: Observation)
    requires Tied(w, sid, tie, v) && Legal(v, Bind(g, obs)) && Performs(w, w', sid, tie, tie', Bind(g, obs))
    requires (sid, v.grants[g].intent) in w.verified
    ensures Next(w, w') && Tied(w', sid, tie', Then(v, Bind(g, obs)))
  {
    hide Linked, ObservationMatches, TiedPosts, Answered, Next;
    assert StartOutcome(w, w', sid, tie.grants[g], obs);
    StartOutcomeNext(w, w', sid, tie.grants[g], obs);
    hide StartOutcome;
    NextLasts(w, w');
    PostsLast(w, w', sid, tie, v);
    PostsSame(w', tie, v, tie', Then(v, Bind(g, obs)));
    BoundIs(v, g, obs);
    forall r | r in v.replies ensures Answered(w', r) { AnsweredLasts(w, w', r); }
  }

  lemma PostsSame(w: World, tie: Tie, v: View, tie': Tie, v': View)
    requires |tie.grants| == |v.grants| && TiedPosts(w, tie, v)
    requires tie'.grants == tie.grants && v'.posts == v.posts && |v'.grants| == |v.grants|
    requires forall g :: 0 <= g < |v.grants| ==> v'.grants[g].intent == v.grants[g].intent
    ensures TiedPosts(w, tie', v')
  {
    hide Posted;
  }

  lemma BoundIs(v: View, g: nat, obs: Observation)
    requires g < |v.grants|
    ensures !BoundPlace(v.grants[g].intent, obs.receipt).Acquired?
  {
    hide Linked;
  }

  lemma StartOutcomeNext(w: World, w': World, sid: nat, g: nat, obs: Observation)
    requires StartOutcome(w, w', sid, g, obs)
    ensures Next(w, w')
  {
    hide StartOutcome;
  }

  /** Every store operation of the session's call is a step of the world's call it is tied to. */
  lemma DidIsNext(w: World, w': World, sid: nat, tie: Tie, tie': Tie, v: View, resp: Response, left: set<Record>)
    requires Tied(w, sid, tie, v) && Knows(v) && Responds(w.store, Want(v.pc), resp, left)
    requires Performs(w, w', sid, tie, tie', Did(w.store, resp, left))
    ensures Next(w, w') && Tied(w', sid, tie', AfterDid(v, resp))
  {
    hide Responds, Want, Advance, After, Knows, TiedHistory, Next;
    StoppedDoes(v.pc, w.store, resp, left);
    assert Step(w, w', tie.thread, resp, left);
    StepIsNext(w, w', tie.thread, resp, left);
    DidCall(w, w', sid, tie, tie', v, resp, left);
    DidHistory(w, w', sid, tie, tie', v, resp, left);
  }

  lemma StepIsNext(w: World, w': World, t: nat, resp: Response, s': set<Record>)
    requires Step(w, w', t, resp, s')
    ensures Next(w, w')
  {
    hide Step;
  }

  /** What the step does to the authorities: an acquired reservation gets one. */
  lemma StepAcquires(w: World, w': World, t: nat, resp: Response, left: set<Record>, v: View)
    requires t in w.threads && w.threads[t].pc == v.pc && w' == After(w, t, resp, left)
    requires Responds(w.store, Want(v.pc), resp, left)
    ensures var acquires := v.pc.ReserveVerify? && Advance(v.pc, resp).Acquired?;
      && w'.grants == (if acquires then w.grants + [Grant(w.threads[t].session, t, v.pc.intent, w.clock, None)] else w.grants)
      && AfterDid(v, resp).grants == (if acquires then v.grants + [Reservation(v.pc.intent, None)] else v.grants)
      && (Advance(v.pc, resp).Acquired? ==> acquires)
  {
    hide Advance, Want, Responds;
    DidGoes(v.pc, w.store, resp, left);
  }

  lemma DidCall(w: World, w': World, sid: nat, tie: Tie, tie': Tie, v: View, resp: Response, left: set<Record>)
    requires Tied(w, sid, tie, v) && Responds(w.store, Want(v.pc), resp, left) && v.pc != STOP
    requires Performs(w, w', sid, tie, tie', Did(w.store, resp, left))
    ensures TiedCall(w', sid, tie', Advance(v.pc, resp))
  {
    hide Advance, Want, Responds, TiedHistory, AfterDid, After;
    StepAcquires(w, w', tie.thread, resp, left, v);
    AfterThread(w, tie.thread, resp, left);
  }

  lemma AfterThread(w: World, t: nat, resp: Response, left: set<Record>)
    requires t in w.threads
    ensures var w' := After(w, t, resp, left);
            t in w'.threads && w'.threads[t].session == w.threads[t].session && w'.threads[t].pc == Advance(w.threads[t].pc, resp)
  {
    hide Advance;
  }

  lemma DidHistory(w: World, w': World, sid: nat, tie: Tie, tie': Tie, v: View, resp: Response, left: set<Record>)
    requires Tied(w, sid, tie, v) && Knows(v) && Responds(w.store, Want(v.pc), resp, left) && v.pc != STOP
    requires Performs(w, w', sid, tie, tie', Did(w.store, resp, left))
    ensures TiedHistory(w', sid, tie', AfterDid(v, resp))
  {
    hide Advance, Want, Responds, After, Knows, AfterDid, TiedGrants, TiedPosts, Answered, Lasts;
    assert Step(w, w', tie.thread, resp, left);
    StepLasts(w, w', tie.thread, resp, left);
    DidGrants(w, w', sid, tie, tie', v, resp, left);
    DidPosts(w, w', sid, tie, tie', v, resp, left);
    DidRest(w, w', sid, tie, v, resp, left);
  }

  lemma DidGrants(w: World, w': World, sid: nat, tie: Tie, tie': Tie, v: View, resp: Response, left: set<Record>)
    requires Tied(w, sid, tie, v) && Responds(w.store, Want(v.pc), resp, left) && v.pc != STOP
    requires Performs(w, w', sid, tie, tie', Did(w.store, resp, left))
    ensures TiedGrants(w', sid, tie', AfterDid(v, resp))
  {
    hide Advance, Want, Responds, After, AfterDid, TiedPosts, Answered;
    StepAcquires(w, w', tie.thread, resp, left, v);
    if w'.grants != w.grants {
      GrantTied(w, w', sid, tie, v, tie.thread, v.pc.intent);
    } else {
      hide TiedGrants;
      SameGrantsTied(w, w', sid, tie, v, AfterDid(v, resp));
    }
  }

  lemma GrantTied(w: World, w': World, sid: nat, tie: Tie, v: View, t: nat, i: IntentRecord)
    requires TiedGrants(w, sid, tie, v) && w'.grants == w.grants + [Grant(sid, t, i, w.clock, None)]
    ensures forall v': View :: v'.grants == v.grants + [Reservation(i, None)] ==>
              TiedGrants(w', sid, tie.(grants := tie.grants + [|w.grants|]), v')
  {
  }

  lemma SameGrantsTied(w: World, w': World, sid: nat, tie: Tie, v: View, v': View)
    requires TiedGrants(w, sid, tie, v) && w'.grants == w.grants && v'.grants == v.grants
    ensures TiedGrants(w', sid, tie, v')
  {
  }

  /** A post belongs to the authority the posting call was granted. */
  lemma DidPosts(w: World, w': World, sid: nat, tie: Tie, tie': Tie, v: View, resp: Response, left: set<Record>)
    requires Tied(w, sid, tie, v) && Knows(v) && Responds(w.store, Want(v.pc), resp, left) && v.pc != STOP
    requires Performs(w, w', sid, tie, tie', Did(w.store, resp, left)) && Lasts(w, w')
    requires TiedGrants(w', sid, tie', AfterDid(v, resp))
    ensures TiedPosts(w', tie', AfterDid(v, resp))
  {
    hide Advance, Want, Responds, After, AfterDid, Answered, Posted, Lasts, TiedPosts, TiedGrants, Knows;
    GrantsFit(w, sid, tie, v);
    GrantsFit(w', sid, tie', AfterDid(v, resp));
    StepAcquires(w, w', tie.thread, resp, left, v);
    PostsGrow(w, w', tie.thread, resp, left, v);
    PrefixGrants(w, w', tie);
    PostsLast(w, w', sid, tie, v);
    if v.pc.Acquired? {
      PostAdded(w', tie, v, AfterDid(v, resp));
    } else {
      PostsExtend(w', tie, v, tie', AfterDid(v, resp));
    }
  }

  lemma GrantsFit(w: World, sid: nat, tie: Tie, v: View)
    requires TiedGrants(w, sid, tie, v)
    ensures |tie.grants| == |v.grants|
  {
  }

  lemma PrefixGrants(w: World, w': World, tie: Tie)
    requires w.grants <= w'.grants
    ensures SameGrants(w, w', tie)
  {
  }

  lemma PostsExtend(w: World, tie: Tie, v: View, tie': Tie, v': View)
    requires |tie.grants| == |v.grants| && |tie'.grants| == |v'.grants| && TiedPosts(w, tie, v)
    requires tie.grants <= tie'.grants && v.grants <= v'.grants && v'.posts == v.posts
    ensures TiedPosts(w, tie', v')
  {
    hide Posted;
  }

  lemma PostAdded(w: World, tie: Tie, v: View, v': View)
    requires |tie.grants| == |v.grants| == |v'.grants| && TiedPosts(w, tie, v) && v.grants == v'.grants != []
    requires v'.posts == v.posts + [|v.grants| - 1] && tie.grants[|tie.grants| - 1] < |w.grants|
    requires Posted(w, w.grants[tie.grants[|tie.grants| - 1]].thread, v.grants[|v.grants| - 1].intent)
    ensures TiedPosts(w, tie, v')
  {
    hide Posted;
  }

  lemma PostsGrow(w: World, w': World, t: nat, resp: Response, left: set<Record>, v: View)
    requires t in w.threads && w.threads[t].pc == v.pc && w' == After(w, t, resp, left) && Knows(v)
    ensures v.pc.Acquired? ==>
      && v.grants != [] && v.grants[|v.grants| - 1] == Reservation(v.pc.intent, None)
      && Posted(w', t, v.pc.intent)
      && AfterDid(v, resp).posts == v.posts + [|v.grants| - 1]
    ensures !v.pc.Acquired? ==> AfterDid(v, resp).posts == v.posts
  {
    hide Advance;
    if v.pc.Acquired? {
      assert w'.posts[|w.posts|] == Post(t, v.pc.intent);
    }
  }

  lemma DidRest(w: World, w': World, sid: nat, tie: Tie, v: View, resp: Response, left: set<Record>)
    requires Tied(w, sid, tie, v) && Responds(w.store, Want(v.pc), resp, left) && v.pc != STOP
    requires tie.thread in w.threads && w' == After(w, tie.thread, resp, left) && Lasts(w, w')
    ensures var v' := AfterDid(v, resp);
      && sid in w'.sessions
      && (forall i :: i in v'.verified ==> (sid, i) in w'.verified)
      && (forall o :: o in v'.published ==> o in w'.outcomes)
      && (forall r :: r in v'.replies ==> Answered(w', r))
  {
    DidPublishes(w, w', tie.thread, v, resp, left);
    hide Advance, Want, Responds, TiedGrants, TiedPosts, Answered;
    forall r | r in v.replies ensures Answered(w', r) { AnsweredLasts(w, w', r); }
    DidReplies(w, w', tie.thread, v, resp, left);
  }

  lemma DidPublishes(w: World, w': World, t: nat, v: View, resp: Response, left: set<Record>)
    requires t in w.threads && w.threads[t].pc == v.pc && w' == After(w, t, resp, left)
    requires Responds(w.store, Want(v.pc), resp, left)
    ensures v.pc.OutcomeImport? && resp.Imported? ==> v.pc.outcome in w'.outcomes
  {
    hide Advance;
  }

  lemma DidReplies(w: World, w': World, t: nat, v: View, resp: Response, left: set<Record>)
    requires t in w.threads && w.threads[t].pc == v.pc && w' == After(w, t, resp, left)
    ensures forall r :: r in AfterDid(v, resp).replies && r !in v.replies ==> Answered(w', r)
  {
    hide Advance;
    var pc' := Advance(v.pc, resp);
    if pc'.Done? && pc'.result.StatusIs? {
      var th := w.threads[t];
      assert Answer(pc'.result.intent, pc'.result.verdict, pc'.result.outcome, th.begun, th.listedAt, th.lookedAt, w.clock) in w'.answers;
    }
  }

  /** Every action of a legal journal, taken where the store is what it found, is an action of the world. */
  lemma ActionIsNext(w: World, w': World, sid: nat, tie: Tie, tie': Tie, v: View, a: Action)
    requires Tied(w, sid, tie, v) && Knows(v) && Legal(v, a) && Performs(w, w', sid, tie, tie', a)
    ensures Next(w, w') && Tied(w', sid, tie', Then(v, a))
  {
    hide Next, Tied, AfterDid, After, Responds, Want, Advance, ScanOpens, BoundPlace, ObservationMatches;
    match a {
      case Load(i, seen) => LoadIsNext(w, w', sid, tie, v, i);
      case Begin(pc) => BeginIsNext(w, w', sid, tie, v, pc);
      case Bind(g, obs) =>
        VerifiedTied(w, sid, tie, v, v.grants[g].intent);
        BindIsNext(w, w', sid, tie, tie', v, g, obs);
      case Did(found, resp, left) => DidIsNext(w, w', sid, tie, tie', v, resp, left);
    }
  }

  lemma VerifiedTied(w: World, sid: nat, tie: Tie, v: View, i: IntentRecord)
    requires Tied(w, sid, tie, v) && i in v.verified
    ensures (sid, i) in w.verified
  {
    hide TiedGrants, TiedPosts, Answered;
  }

  // ---------------------------------------------------------------- a session among others

  /** A move of somebody else, or the next action of the session's journal. */
  datatype Move = Other | Own(action: Action)

  function OwnActions(moves: seq<Move>): seq<Action> {
    if moves == [] then []
    else OwnActions(moves[..|moves| - 1]) + if moves[|moves| - 1].Own? then [moves[|moves| - 1].action] else []
  }

  ghost predicate Plays(run: seq<World>, sid: nat, moves: seq<Move>, ties: seq<Tie>, k: nat)
    requires |run| == |ties| == |moves| + 1 && k < |moves|
  {
    match moves[k]
    case Other => ties[k + 1] == ties[k] && Elsewhere(run[k], run[k + 1], sid, ties[k])
    case Own(a) => Performs(run[k], run[k + 1], sid, ties[k], ties[k + 1], a)
  }

  /**
    From a world in which the session knows nothing yet, each move either is somebody else's or
    performs the journal's next action on the store that action found.
   */
  ghost predicate Played(run: seq<World>, sid: nat, moves: seq<Move>, ties: seq<Tie>) {
    && |run| == |ties| == |moves| + 1
    && Tied(run[0], sid, ties[0], BLANK)
    && forall k {:trigger Plays(run, sid, moves, ties, k)} :: 0 <= k < |moves| ==> Plays(run, sid, moves, ties, k)
  }

  lemma OwnLast(moves: seq<Move>, n: nat)
    requires 0 < n <= |moves|
    ensures OwnActions(moves[..n]) ==
              if moves[n - 1].Own? then OwnActions(moves[..n - 1]) + [moves[n - 1].action] else OwnActions(moves[..n - 1])
  {
    assert moves[..n][..n - 1] == moves[..n - 1];
  }

  lemma LegalLast(log: seq<Action>, a: Action)
    requires LegalLog(log + [a])
    ensures LegalLog(log) && Legal(Replay(log), a) && Replay(log + [a]) == Then(Replay(log), a)
  {
    hide Legal, Then;
    assert (log + [a])[..|log|] == log;
  }

  /** One move of a play. */
  lemma MoveTied(run: seq<World>, sid: nat, moves: seq<Move>, ties: seq<Tie>, n: nat, log: seq<Action>)
    requires |run| == |ties| == |moves| + 1 && n < |moves| && Plays(run, sid, moves, ties, n)
    requires Tied(run[n], sid, ties[n], Replay(log)) && LegalLog(log)
    requires moves[n].Own? ==> Legal(Replay(log), moves[n].action)
    ensures Next(run[n], run[n + 1])
    ensures Tied(run[n + 1], sid, ties[n + 1], if moves[n].Own? then Then(Replay(log), moves[n].action) else Replay(log))
  {
    hide Tied, Performs, Elsewhere, Next, Legal, Then, Knows, Replay, LegalLog;
    if moves[n].Own? {
      LogKnows(log);
      ActionIsNext(run[n], run[n + 1], sid, ties[n], ties[n + 1], Replay(log), moves[n].action);
    } else {
      ElsewhereNext(run[n], run[n + 1], sid, ties[n]);
      ElsewhereTied(run[n], run[n + 1], sid, ties[n], Replay(log));
    }
  }

  lemma PlayedAt(run: seq<World>, sid: nat, moves: seq<Move>, ties: seq<Tie>, n: nat)
    requires Played(run, sid, moves, ties)
    ensures |run| == |ties| == |moves| + 1 && Tied(run[0], sid, ties[0], BLANK)
    ensures n < |moves| ==> Plays(run, sid, moves, ties, n)
  {
    hide Plays, Tied;
  }

  lemma {:induction false} PlayedTied(run: seq<World>, sid: nat, moves: seq<Move>, ties: seq<Tie>, n: nat)
    requires Played(run, sid, moves, ties) && n <= |moves| && LegalLog(OwnActions(moves[..n]))
    ensures |run| == |ties| == |moves| + 1 && Tied(run[n], sid, ties[n], Replay(OwnActions(moves[..n])))
    ensures forall k :: 0 < k <= n ==> Follows(run, k)
  {
    hide *;
    PlayedAt(run, sid, moves, ties, 0);
    NoMoves(moves);
    if n > 0 {
      PlayedAt(run, sid, moves, ties, n - 1);
      var log := OwnActions(moves[..n - 1]);
      OwnLast(moves, n);
      if moves[n - 1].Own? { LegalLast(log, moves[n - 1].action); }
      PlayedTied(run, sid, moves, ties, n - 1);
      MoveTied(run, sid, moves, ties, n - 1, log);
      NextFollows(run, n);
    }
  }

  lemma NoMoves(moves: seq<Move>)
    ensures OwnActions(moves[..0]) == [] && Replay(OwnActions(moves[..0])) == BLANK
  {
  }

  lemma NextFollows(run: seq<World>, k: nat)
    requires 0 < k < |run| && Next(run[k - 1], run[k])
    ensures Follows(run, k)
  {
    hide Next;
  }

  lemma ElsewhereNext(w: World, w': World, sid: nat, tie: Tie)
    requires Elsewhere(w, w', sid, tie)
    ensures Next(w, w')
  {
    hide Next;
  }

  /**
    A session is its part of a run: with whatever the others do, as long as the stores are the ones
    the journal saw, the actions of a legal journal continue a run, and what the journal proves the
    session to know is true where the run has got to.
   */
  lemma SessionIsRun(before: seq<World>, run: seq<World>, sid: nat, moves: seq<Move>, ties: seq<Tie>)
    requires IsRun(before) && |run| == |ties| == |moves| + 1 && Played(run, sid, moves, ties) && before[|before| - 1] == run[0]
    requires LegalLog(OwnActions(moves))
    ensures IsRun(before + run[1..])
    ensures Tied(run[|moves|], sid, ties[|moves|], Replay(OwnActions(moves)))
  {
    hide *;
    assert moves[..|moves|] == moves;
    PlayedTied(run, sid, moves, ties, |moves|);
    Joined(before, run);
  }

  /**
    The same from the moment the session is opened: nothing is assumed of it.  An authority, an
    outcome or a status that its journal proves is there in the run.
   */
  lemma OpenedIsRun(before: seq<World>, run: seq<World>, sid: nat, moves: seq<Move>, ties: seq<Tie>)
    requires IsRun(before) && |run| == |ties| == |moves| + 1
    requires OpenSession(before[|before| - 1], run[0]) && sid == before[|before| - 1].nextSession && ties[0].grants == []
    requires forall k {:trigger Plays(run, sid, moves, ties, k)} :: 0 <= k < |moves| ==> Plays(run, sid, moves, ties, k)
    requires LegalLog(OwnActions(moves))
    ensures IsRun(before + run)
    ensures Tied(run[|moves|], sid, ties[|moves|], Replay(OwnActions(moves)))
  {
    hide *;
    OpenedFollows(before, run[0], ties[0]);
    OpenedPlayed(run, sid, moves, ties);
    SessionIsRun(before + [run[0]], run, sid, moves, ties);
    assert (before + [run[0]]) + run[1..] == before + run;
  }

  lemma OpenedPlayed(run: seq<World>, sid: nat, moves: seq<Move>, ties: seq<Tie>)
    requires |run| == |ties| == |moves| + 1 && Tied(run[0], sid, ties[0], BLANK)
    requires forall k {:trigger Plays(run, sid, moves, ties, k)} :: 0 <= k < |moves| ==> Plays(run, sid, moves, ties, k)
    ensures Played(run, sid, moves, ties)
  {
    hide Tied, Plays;
  }

  lemma OpenedFollows(before: seq<World>, w: World, tie: Tie)
    requires IsRun(before) && OpenSession(before[|before| - 1], w) && tie.grants == []
    ensures IsRun(before + [w]) && Tied(w, before[|before| - 1].nextSession, tie, BLANK)
  {
    hide OpenSession, Init, Tied;
    OpenedTied(before[|before| - 1], w, tie);
    var run := before + [w];
    forall k | 0 < k < |run| ensures Follows(run, k) {
      if k < |before| { assert Follows(before, k); }
    }
  }

  lemma Joined(before: seq<World>, run: seq<World>)
    requires IsRun(before) && run != [] && before[|before| - 1] == run[0]
    requires forall k :: 0 < k < |run| ==> Follows(run, k)
    ensures IsRun(before + run[1..])
  {
    var whole := before + run[1..];
    hide Next, Init;
    forall k | 0 < k < |whole| ensures Follows(whole, k) {
      if k < |before| {
        assert Follows(before, k);
      } else {
        assert Follows(run, k - |before| + 1);
        assert whole[k] == run[k - |before| + 1];
        assert whole[k - 1] == run[k - |before|];
      }
    }
  }

  /** The submission a journal proves its session to have made, in the world. */
  ghost predicate Submission(w: World, sid: nat, g: nat, i: IntentRecord, o: OutcomeRecord) {
    && g < |w.grants| && w.grants[g].session == sid && w.grants[g].intent == i && w.grants[g].bound.Some?
    && o == OutcomeFor(i, w.grants[g].bound.value.receipt) && o in w.outcomes
    && OnlyPost(w, w.grants[g].thread, i)
  }

  /**
    What a successful submit command means, whatever other sessions do meanwhile: the confirmed
    status it read is about its own outcome, whose receipt is confirmed, and the one form post ever
    made for the intent is the one its own reservation made.
   */
  lemma SubmitConfirmed(before: seq<World>, run: seq<World>, sid: nat, moves: seq<Move>, ties: seq<Tie>,
                        i: IntentRecord, o: OutcomeRecord, found: Option<OutcomeRecord>)
    requires IsRun(before) && |run| == |ties| == |moves| + 1 && Played(run, sid, moves, ties) && before[|before| - 1] == run[0]
    requires LegalLog(OwnActions(moves))
    requires OwnSubmission(Replay(OwnActions(moves)), i, o) && Reply(i, Confirmed, found) in Replay(OwnActions(moves)).replies
    ensures found == Some(o) && o.receipt.outcome == OUTCOME_CONFIRMED
    ensures exists g :: Submission(run[|moves|], sid, g, i, o)
  {
    hide *;
    SessionIsRun(before, run, sid, moves, ties);
    var v := Replay(OwnActions(moves));
    var whole := before + run[1..];
    WholeEnds(before, run);
    var g := OwnAuthority(run[|moves|], sid, ties[|moves|], v, i, o);
    var a := OwnAnswer(run[|moves|], sid, ties[|moves|], v, Reply(i, Confirmed, found));
    SubmissionConfirmed(whole, |whole| - 1, sid, g, i, o, a);
  }

  lemma WholeEnds(before: seq<World>, run: seq<World>)
    requires IsRun(before) && run != [] && before[|before| - 1] == run[0]
    ensures var whole := before + run[1..]; 0 < |whole| && whole[|whole| - 1] == run[|run| - 1]
  {
    hide Follows;
  }

  /** The authority of the journal, in the world. */
  lemma OwnAuthority(w: World, sid: nat, tie: Tie, v: View, i: IntentRecord, o: OutcomeRecord) returns (k: nat)
    requires Tied(w, sid, tie, v) && OwnSubmission(v, i, o)
    ensures k < |w.grants| && w.grants[k].session == sid && w.grants[k].intent == i && w.grants[k].bound.Some?
    ensures o == OutcomeFor(i, w.grants[k].bound.value.receipt) && o in w.outcomes
    ensures Posted(w, w.grants[k].thread, i)
  {
    hide OutcomeFor, Answered, TiedPosts;
    var g :| 0 <= g < |v.grants| && SubmittedBy(v, g, i, o);
    BindTied(w, sid, tie, v, g);
    k := tie.grants[g];
    var p :| 0 <= p < |v.posts| && v.posts[p] == g;
    PostAt(w, tie, v, p);
  }

  lemma PostAt(w: World, tie: Tie, v: View, p: nat)
    requires |tie.grants| == |v.grants| && TiedPosts(w, tie, v) && p < |v.posts|
    ensures v.posts[p] < |v.grants| && tie.grants[v.posts[p]] < |w.grants|
    ensures Posted(w, w.grants[tie.grants[v.posts[p]]].thread, v.grants[v.posts[p]].intent)
  {
    hide Posted;
  }

  lemma OwnAnswer(w: World, sid: nat, tie: Tie, v: View, r: Reply) returns (a: Answer)
    requires Tied(w, sid, tie, v) && r in v.replies
    ensures a in w.answers && a.intent == r.intent && a.verdict == r.verdict && a.outcome == r.outcome
  {
    assert Answered(w, r) by { hide TiedGrants, TiedPosts; }
    a :| a in w.answers && a.intent == r.intent && a.verdict == r.verdict && a.outcome == r.outcome;
  }

  lemma SubmissionConfirmed(run: seq<World>, k: nat, sid: nat, g: nat, i: IntentRecord, o: OutcomeRecord, a: Answer)
    requires IsRun(run) && k < |run| && g < |run[k].grants|
    requires run[k].grants[g].session == sid && run[k].grants[g].intent == i && run[k].grants[g].bound.Some?
    requires o == OutcomeFor(i, run[k].grants[g].bound.value.receipt) && o in run[k].outcomes && Posted(run[k], run[k].grants[g].thread, i)
    requires a in run[k].answers && a.intent == i && a.verdict.Confirmed?
    ensures a.outcome == Some(o) && o.receipt.outcome == OUTCOME_CONFIRMED
    ensures Submission(run[k], sid, g, i, o)
  {
    hide IsRun, OutcomeFor, OnlyPost;
    ConfirmedSubmission(run, k, g, a);
  }
}
