/**
  What a session did, action by action.

  A bound store keeps the journal of its session.  Every action must be legal where it is taken: a
  call begins at a place where calls begin, goes on with the store operation its place wants, and
  an authority is bound only as the protocol binds it.  `Replay` is what the journal proves the
  session to know: the place of its running call, the intents it loaded, its authorities, its
  posts, the outcomes it published and the statuses it answered.  Refinement shows that a legal
  journal is the session's part of a run of the interleaving model.
 */
module Journal {
  import opened Basics
  import opened Records
  import opened Program

  datatype Action =
    | Load(intent: IntentRecord, seen: set<Record>)   // an intent was loaded
    | Begin(place: Pc)                                // a call begins
    | Bind(grant: nat, observed: Observation)         // an authority is bound and its outcome's call begins
    | Did(found: set<Record>, resp: Response, left: set<Record>)

  /** An authority of this session. */
  datatype Reservation = Reservation(intent: IntentRecord, bound: Option<Observation>)

  datatype Reply = Reply(intent: IntentRecord, verdict: Verdict, outcome: Option<OutcomeRecord>)

  datatype View = View(
    pc: Pc, verified: set<IntentRecord>, grants: seq<Reservation>, posts: seq<nat>,
    published: set<OutcomeRecord>, replies: set<Reply>)

  const BLANK := View(STOP, {}, [], [], {}, {})

  ghost predicate Legal(v: View, a: Action) {
    match a
    case Load(i, seen) => Intent(i) in seen
    case Begin(pc) => (pc.ReserveCheck? && pc.intent in v.verified) || ScanOpens(pc)
    case Bind(g, obs) =>
      && g < |v.grants|
      && ObservationMatches(obs.receipt, v.grants[g].intent)
      && (v.grants[g].bound == None || v.grants[g].bound == Some(obs))
    case Did(found, resp, left) => Responds(found, Want(v.pc), resp, left)
  }

  function AfterDid(v: View, resp: Response): View {
    var pc' := Advance(v.pc, resp);
    v.(pc := pc',
       grants := if v.pc.ReserveVerify? && pc'.Acquired? then v.grants + [Reservation(v.pc.intent, None)] else v.grants,
       posts := if v.pc.Acquired? && v.grants != [] then v.posts + [|v.grants| - 1] else v.posts,
       published := if v.pc.OutcomeImport? && resp.Imported? then v.published + {v.pc.outcome} else v.published,
       replies := if pc'.Done? && pc'.result.StatusIs?
                  then v.replies + {Reply(pc'.result.intent, pc'.result.verdict, pc'.result.outcome)} else v.replies)
  }

  function Then(v: View, a: Action): View {
    match a
    case Load(i, _) => v.(verified := v.verified + {i})
    case Begin(pc) => v.(pc := pc)
    case Bind(g, obs) =>
      if g < |v.grants| then
        v.(grants := v.grants[g := v.grants[g].(bound := Some(obs))], pc := BoundPlace(v.grants[g].intent, obs.receipt))
      else v
    case Did(_, resp, _) => AfterDid(v, resp)
  }

  function Replay(actions: seq<Action>): View {
    if actions == [] then BLANK else Then(Replay(actions[..|actions| - 1]), actions[|actions| - 1])
  }

  ghost predicate LegalLog(actions: seq<Action>) {
    actions == []
    || (LegalLog(actions[..|actions| - 1]) && Legal(Replay(actions[..|actions| - 1]), actions[|actions| - 1]))
  }

  lemma Appended(actions: seq<Action>, a: Action)
    requires LegalLog(actions) && Legal(Replay(actions), a)
    ensures LegalLog(actions + [a]) && Replay(actions + [a]) == Then(Replay(actions), a)
  {
    hide Legal, Then;
    assert (actions + [a])[..|actions|] == actions;
  }

  // ---------------------------------------------------------------- the journal of a bound store

  /**
    The actions, every store that an operation of the session found, and how often something
    failed that the stores do not explain: an I/O error, a cancellation, a crash hook that fired.
   */
  datatype Log = Log(actions: seq<Action>, sights: seq<set<Record>>, faults: nat)

  ghost predicate Later(p: Log, q: Log) {
    p.actions <= q.actions && p.sights <= q.sights && p.faults <= q.faults
  }

  /** Nothing has failed in between. */
  ghost predicate Calm(p: Log, q: Log) {
    p.faults == q.faults
  }

  /** A store that was found between the two. */
  ghost predicate Glimpsed(p: Log, q: Log, at: set<Record>) {
    exists k :: |p.sights| <= k < |q.sights| && q.sights[k] == at
  }

  lemma LaterAlways()
    ensures forall p :: Later(p, p)
    ensures forall p, q {:trigger Later(p, q)} :: Later(p, q) ==> p.faults <= q.faults
    ensures forall p, q {:trigger Calm(p, q)} :: Calm(p, q) <==> p.faults == q.faults
    ensures forall p, q, r {:trigger Later(p, q), Later(q, r)} :: Later(p, q) && Later(q, r) ==> Later(p, r)
    ensures forall p, q, r, at {:trigger Glimpsed(p, q, at), Later(q, r)} :: Glimpsed(p, q, at) && Later(q, r) ==> Glimpsed(p, r, at)
    ensures forall p, q, r, at {:trigger Later(p, q), Glimpsed(q, r, at)} :: Later(p, q) && Glimpsed(q, r, at) ==> Glimpsed(p, r, at)
  {
    forall p, q, r, at | Glimpsed(p, q, at) && Later(q, r) ensures Glimpsed(p, r, at) {
      var k :| |p.sights| <= k < |q.sights| && q.sights[k] == at;
      assert r.sights[k] == at;
    }
  }

  /** What is known stays known. */
  ghost predicate Grown(v: View, w: View) {
    && v.verified <= w.verified
    && |v.grants| <= |w.grants|
    && (forall g :: 0 <= g < |v.grants| ==>
          w.grants[g].intent == v.grants[g].intent && (v.grants[g].bound.Some? ==> w.grants[g].bound == v.grants[g].bound))
    && v.posts <= w.posts
    && v.published <= w.published
    && v.replies <= w.replies
  }

  lemma GrowsThen(v: View, a: Action)
    requires Legal(v, a)
    ensures Grown(v, Then(v, a))
  {
    hide Advance, Want, Responds, ObservationMatches, Linked;
  }

  lemma GrownTrans(u: View, v: View, w: View)
    requires Grown(u, v) && Grown(v, w)
    ensures Grown(u, w)
  {
  }

  lemma {:induction false} Grows(p: seq<Action>, q: seq<Action>)
    requires LegalLog(q) && p <= q
    ensures Grown(Replay(p), Replay(q))
    decreases |q|
  {
    if p == q {
    } else {
      var q' := q[..|q| - 1];
      assert p <= q';
      hide Legal, Then, Grown;
      Grows(p, q');
      GrowsThen(Replay(q'), q[|q| - 1]);
      GrownTrans(Replay(p), Replay(q'), Replay(q));
    }
  }

  /** What the place of the running call says about the rest of the view. */
  ghost predicate Knows(v: View) {
    && (IsReserve(v.pc) ==> v.pc.intent in v.verified)
    && (forall g :: 0 <= g < |v.grants| ==> v.grants[g].intent in v.verified)
    && (v.pc.Acquired? ==> v.grants != [] && v.grants[|v.grants| - 1] == Reservation(v.pc.intent, None))
    && (v.pc.OutcomeVerify? ==> v.pc.outcome in v.published)
    && (v.pc.Done? && v.pc.result.OutcomeStored? ==> v.pc.result.stored in v.published)
    && (v.pc.Done? && v.pc.result.StatusIs? ==> Reply(v.pc.result.intent, v.pc.result.verdict, v.pc.result.outcome) in v.replies)
    && (forall p :: 0 <= p < |v.posts| ==> v.posts[p] < |v.grants|)
  }

  lemma ThenKnows(v: View, a: Action)
    requires Knows(v) && Legal(v, a)
    ensures Knows(Then(v, a))
  {
    hide Advance, Want, Responds, ObservationMatches, Linked, AfterDid;
    if a.Did? { DidKnows(v, a.found, a.resp, a.left); }
  }

  lemma DidKnows(v: View, found: set<Record>, resp: Response, left: set<Record>)
    requires Knows(v) && Responds(found, Want(v.pc), resp, left)
    ensures Knows(AfterDid(v, resp))
  {
    hide Advance, Want, Responds;
    DidGoes(v.pc, found, resp, left);
  }

  /** The places that are reached from one place only. */
  lemma DidGoes(pc: Pc, found: set<Record>, resp: Response, left: set<Record>)
    requires Responds(found, Want(pc), resp, left)
    ensures var pc' := Advance(pc, resp);
      && (IsReserve(pc') ==> IsReserve(pc) && pc'.intent == pc.intent)
      && (pc'.Acquired? ==> pc.ReserveVerify?)
      && (pc'.OutcomeVerify? ==> ((pc.OutcomeImport? && resp.Imported?) || pc.OutcomeVerify?) && pc'.outcome == pc.outcome)
      && (pc'.Done? && pc'.result.OutcomeStored? ==> pc.OutcomeVerify? && pc'.result.stored == pc.outcome)
  {
    hide Advance, Want, Responds;
    ReserveComes(pc, resp);
    if pc.OutcomeImport? { ImportAnswers(pc, found, resp, left); }
    OutcomeComes(pc, resp);
  }

  lemma ReserveComes(pc: Pc, resp: Response)
    ensures IsReserve(Advance(pc, resp)) ==> IsReserve(pc) && Advance(pc, resp).intent == pc.intent
    ensures Advance(pc, resp).Acquired? ==> pc.ReserveVerify?
  {
    hide Linked, Selects;
  }

  lemma OutcomeComes(pc: Pc, resp: Response)
    ensures var pc' := Advance(pc, resp);
      && (pc'.OutcomeVerify? ==> ((pc.OutcomeImport? && !resp.Fault?) || pc.OutcomeVerify?) && pc'.outcome == pc.outcome)
      && (pc'.Done? && pc'.result.OutcomeStored? ==> pc.OutcomeVerify? && pc'.result.stored == pc.outcome)
  {
    hide Linked, Selects;
  }

  lemma ImportAnswers(pc: Pc, found: set<Record>, resp: Response, left: set<Record>)
    requires pc.OutcomeImport? && Responds(found, Want(pc), resp, left)
    ensures resp.Imported? || resp.Fault?
  {
  }

  lemma {:induction false} LogKnows(actions: seq<Action>)
    requires LegalLog(actions)
    ensures Knows(Replay(actions))
  {
    if actions != [] {
      hide Legal, Then, Knows;
      LogKnows(actions[..|actions| - 1]);
      ThenKnows(Replay(actions[..|actions| - 1]), actions[|actions| - 1]);
    }
  }

  // ---------------------------------------------------------------- submissions

  /**
    What the journal of a session proves about a submission of its own: one of its authorities for
    the intent is bound to an observation and has posted, and the outcome with that observation's
    receipt is published.
   */
  ghost predicate OwnSubmission(v: View, i: IntentRecord, o: OutcomeRecord) {
    exists g :: 0 <= g < |v.grants| && SubmittedBy(v, g, i, o)
  }

  ghost predicate SubmittedBy(v: View, g: nat, i: IntentRecord, o: OutcomeRecord)
    requires g < |v.grants|
  {
    && v.grants[g].intent == i && v.grants[g].bound.Some?
    && o == OutcomeFor(i, v.grants[g].bound.value.receipt)
    && g in v.posts && o in v.published
  }
}
