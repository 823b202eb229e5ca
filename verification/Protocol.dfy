/**
  Any number of sessions over one store, interleaved store operation by store operation.

  Beside the store and the running calls the world keeps what has ever happened: first
  publications with their times, granted submission authorities, form posts and answered
  statuses.  Nothing a call does depends on that history except through the store and through
  the authorities of its own session.
 */
module Protocol {
  import opened Basics
  import opened Records
  import opened Program

  /** First publication of an attempt marker: by which call, at what time. */
  datatype Publication = Publication(thread: nat, at: nat)

  datatype Thread = Thread(session: nat, pc: Pc, begun: nat, listedAt: nat, lookedAt: nat)

  /** A granted submission authority (a `ReservedAttempt`) and the outcome it is bound to. */
  datatype Grant = Grant(session: nat, thread: nat, intent: IntentRecord, at: nat, bound: Option<Observation>)

  datatype Post = Post(thread: nat, intent: IntentRecord)

  datatype Answer = Answer(
    intent: IntentRecord, verdict: Verdict, outcome: Option<OutcomeRecord>,
    begun: nat, listedAt: nat, lookedAt: nat, ended: nat)

  datatype World = World(
    store: set<Record>,
    sessions: set<nat>,
    nextSession: nat,
    verified: set<(nat, IntentRecord)>,
    threads: map<nat, Thread>,
    nextThread: nat,
    clock: nat,
    // history
    intents: set<IntentRecord>,
    markers: map<IntentRecord, Publication>,
    outcomes: map<OutcomeRecord, nat>,
    tombstones: set<RetentionRecord>,
    grants: seq<Grant>,
    posts: seq<Post>,
    answers: set<Answer>)

  ghost predicate Init(w: World) {
    w == World({}, {}, 0, {}, map[], 0, 0, {}, map[], map[], {}, [], [], {})
  }

  // ---------------------------------------------------------------- actions

  ghost predicate OpenSession(w: World, w': World) {
    w' == w.(sessions := w.sessions + {w.nextSession}, nextSession := w.nextSession + 1, clock := w.clock + 1)
  }

  /** A process dies, or closes its session: its calls and its authorities are gone. */
  ghost predicate EndSession(w: World, w': World, session: nat) {
    w' == w.(sessions := w.sessions - {session},
             threads := map t | t in w.threads && w.threads[t].session != session :: w.threads[t],
             clock := w.clock + 1)
  }

  /** Prepare draws a fresh operation identity and publishes the intent. */
  ghost predicate Prepare(w: World, w': World, i: IntentRecord) {
    && ValidIntent(i)
    && (forall j :: j in w.intents ==> j.operationId != i.operationId)
    && w' == w.(store := w.store + {Intent(i)}, intents := w.intents + {i}, clock := w.clock + 1)
  }

  ghost predicate LoadIntent(w: World, w': World, session: nat, i: IntentRecord) {
    && session in w.sessions
    && Intent(i) in w.store
    && w' == w.(verified := w.verified + {(session, i)}, clock := w.clock + 1)
  }

  ghost predicate Startable(w: World, session: nat, pc: Pc) {
    || (pc.ReserveCheck? && (session, pc.intent) in w.verified)
    || ScanOpens(pc)
  }

  function Spawn(w: World, session: nat, pc: Pc): World {
    w.(threads := w.threads[w.nextThread := Thread(session, pc, w.clock, 0, 0)],
       nextThread := w.nextThread + 1, clock := w.clock + 1)
  }

  /** A live session starts ReserveAttempt, Status, Prune or Forget. */
  ghost predicate Start(w: World, w': World, session: nat, pc: Pc) {
    session in w.sessions && Startable(w, session, pc) && w' == Spawn(w, session, pc)
  }

  /** StoreOutcome starts: the authority is bound to this observation, once and for all. */
  ghost predicate StartOutcome(w: World, w': World, session: nat, g: nat, obs: Observation) {
    && session in w.sessions
    && g < |w.grants|
    && w.grants[g].session == session
    && var i := w.grants[g].intent;
    && (session, i) in w.verified
    && ObservationMatches(obs.receipt, i)
    && (w.grants[g].bound == None || w.grants[g].bound == Some(obs))
    && w' == Spawn(w, session, BoundPlace(i, obs.receipt)).(grants := w.grants[g := w.grants[g].(bound := Some(obs))])
  }

  /** The world after call `t` got response `resp` and left the store as `s'`. */
  function After(w: World, t: nat, resp: Response, s': set<Record>): World
    requires t in w.threads
  {
    var th := w.threads[t];
    var pc := th.pc;
    var pc' := Advance(pc, resp);
    w.(
      store := s',
      clock := w.clock + 1,
      threads := w.threads[t := Thread(th.session, pc', th.begun,
                                       if pc.StatusList? then w.clock else th.listedAt,
                                       if pc.StatusAttempt? then w.clock else th.lookedAt)],
      markers := if pc.ReserveImport? && Marker(pc.intent) in s' && Marker(pc.intent) !in w.store && pc.intent !in w.markers
                 then w.markers[pc.intent := Publication(t, w.clock)] else w.markers,
      outcomes := if pc.OutcomeImport? && Outcome(pc.outcome) in s' && pc.outcome !in w.outcomes
                  then w.outcomes[pc.outcome := w.clock] else w.outcomes,
      tombstones := if pc.PruneImport? && Retention(pc.retention) in s'
                    then w.tombstones + {pc.retention} else w.tombstones,
      grants := if pc.ReserveVerify? && pc'.Acquired?
                then w.grants + [Grant(th.session, t, pc.intent, w.clock, None)] else w.grants,
      posts := if pc.Acquired? then w.posts + [Post(t, pc.intent)] else w.posts,
      answers := if pc'.Done? && pc'.result.StatusIs?
                 then w.answers + {Answer(pc'.result.intent, pc'.result.verdict, pc'.result.outcome,
                                                th.begun, th.listedAt, th.lookedAt, w.clock)}
                 else w.answers)
  }

  /** One running call performs its next store operation. */
  ghost predicate Step(w: World, w': World, t: nat, resp: Response, s': set<Record>) {
    && t in w.threads
    && Responds(w.store, Want(w.threads[t].pc), resp, s')
    && w' == After(w, t, resp, s')
  }

  ghost predicate Next(w: World, w': World) {
    || OpenSession(w, w')
    || (exists session :: EndSession(w, w', session))
    || (exists i :: Prepare(w, w', i))
    || (exists session, i :: LoadIntent(w, w', session, i))
    || (exists session, pc :: Start(w, w', session, pc))
    || (exists session, g, obs :: StartOutcome(w, w', session, g, obs))
    || (exists t, resp, s' :: Step(w, w', t, resp, s'))
  }

  /** The `k`-th world of a run follows from the one before by one action. */
  ghost predicate Follows(run: seq<World>, k: nat)
    requires 0 < k < |run|
  {
    Next(run[k - 1], run[k])
  }

  ghost predicate IsRun(run: seq<World>) {
    && 0 < |run|
    && Init(run[0])
    && forall k {:trigger Follows(run, k)} :: 0 < k < |run| ==> Follows(run, k)
  }
}
