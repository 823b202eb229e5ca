/**
  The bound record session of internal/metastore, as far as the bonus-exchange protocol uses it.

  Every store operation of a call goes through one of the primitives below.  Each demands that the
  operation is the one the protocol program wants next (`Want(pc)`) and writes it into the journal
  of the session, and `Valid` says that the journal is legal and that `pc` is the place it leads
  to.  Code written against the primitives is thereby a sequence of calls of the interleaving
  model, whatever other sessions do in between: an operation finds the store as `seen` and leaves
  it as `records`.  When `exclusive` is set no other session acts, and the contracts say exactly
  what the operation did to the store.
 */
module Metastore {
  import opened Basics
  import opened Records
  import opened Program
  import opened Journal

  /** Error classes a caller can tell apart. */
  datatype Err =
    | Interrupted          // cancellation, I/O failure, ambiguous or unconfirmed effect
    | Unverified           // a record set did not verify, for another reason than cancellation
    | InvalidExchange
    | Oversized            // a record to publish exceeds the record limit: reported as invalid
    | CorruptExchange
    | AlreadyReserved
    | StatusIncomplete
    | ExchangeNotFound
    | RetentionPolicy
    | RecordNotFound
    | Closed

  datatype Limits = Limits(
    maxRecordBytes: nat, maxStatusEntries: nat, maxStatusRecords: nat, maxStatusPathBytes: nat, maxStatusBytes: nat)

  /** Failures that what the store holds does not explain: an operation failed, or a budget was exceeded. */
  predicate Inconclusive(err: Err) {
    err.Interrupted? || err.Unverified? || err.StatusIncomplete?
  }

  /** A success, or a failure that what the store holds explains. */
  predicate Settled(err: Option<Err>) {
    err.None? || !Inconclusive(err.value)
  }

  function OfKind(s: set<Record>, k: Kind): set<Record> {
    set r | r in s && KindOf(r) == k
  }

  ghost predicate SortedByRank<T>(q: seq<T>, rank: T -> int) {
    forall a, b :: 0 <= a < b < |q| ==> rank(q[a]) < rank(q[b])
  }

  lemma HeadIn<T>(q: seq<T>)
    ensures q == [] || q[0] in q
  {
  }

  /** IDs are collision free, so an inventory sorted by ID is determined by what it holds. */
  lemma {:induction false} SortedUnique<T>(p: seq<T>, q: seq<T>, rank: T -> int)
    requires SortedByRank(p, rank) && SortedByRank(q, rank)
    requires forall r :: r in p <==> r in q
    ensures p == q
    decreases |p|
  {
    if p == [] {
      HeadIn(q);
    } else {
      assert p[0] in q && |q| > 0;
      assert q[0] in p;
      assert p[0] == q[0] by {
        var a :| 0 <= a < |q| && q[a] == p[0];
        var b :| 0 <= b < |p| && p[b] == q[0];
      }
      forall r ensures r in p[1..] <==> r in q[1..] {
        if r in p[1..] {
          var a :| 0 <= a < |p| - 1 && p[1..][a] == r;
          assert rank(p[0]) < rank(p[a + 1]);
          assert r in p && r in q;
          var b :| 0 <= b < |q| && q[b] == r;
          assert q[1..][b - 1] == r;
        }
        if r in q[1..] {
          var b :| 0 <= b < |q| - 1 && q[1..][b] == r;
          assert rank(q[0]) < rank(q[b + 1]);
          assert r in q && r in p;
          var a :| 0 <= a < |p| && p[a] == r;
          assert p[1..][a - 1] == r;
        }
      }
      SortedUnique(p[1..], q[1..], rank);
    }
  }

  /** One process's bound session over the store; `records` is what it observes. */
  class Bound {
    const exclusive: bool
    const limits: Limits
    const rank: Record -> int
    const sizeOf: Record -> nat
    const pathBytes: set<Record> -> nat    // the length of all object paths
    var records: set<Record>
    ghost var seen: set<Record>            // the store at the instant the last operation took effect
    ghost var log: Log
    ghost var pc: Pc

    ghost predicate Valid()
      reads this`log, this`pc
    {
      && Ranked(rank)
      && LegalLog(log.actions)
      && pc == Replay(log.actions).pc
    }

    /** What the journal proves the session to know. */
    ghost function Now(): View
      reads this`log
    {
      Replay(log.actions)
    }

    predicate TooBig(r: Record) { sizeOf(r) > limits.maxRecordBytes }

    constructor (exclusive: bool, limits: Limits, rank: Record -> int, sizeOf: Record -> nat, pathBytes: set<Record> -> nat,
                 records: set<Record>)
      requires Ranked(rank)
      ensures Valid() && this.exclusive == exclusive && this.records == records && this.limits == limits && log == Log([], [], 0)
    {
      this.exclusive, this.limits, this.rank, this.sizeOf, this.records := exclusive, limits, rank, sizeOf, records;
      this.pathBytes := pathBytes;
      seen, log, pc := records, Log([], [], 0), STOP;
    }

    /** Other sessions act before this one's next operation takes effect. */
    method Interfere()
      requires Valid()
      modifies this`records, this`seen, this`log
      ensures Valid() && pc == old(pc) && Later(old(log), log) && log == old(log).(sights := old(log).sights + [seen])
      ensures seen == records && (exclusive ==> records == old(records))
    {
      if !exclusive {
        records := *;
      }
      seen := records;
      log := log.(sights := log.sights + [seen]);
    }

    /** The next operation fails, for a reason that the store does not explain. */
    method Fails() returns (fails: bool)
      requires Valid()
      modifies this`log
      ensures Valid() && Later(old(log), log)
      ensures log == old(log).(faults := log.faults) && (fails <==> old(log).faults < log.faults)
    {
      fails := *;
      if fails { log := log.(faults := log.faults + 1); }
    }

    /** A crash hook between two transitions. */
    method Hook() returns (interrupted: bool)
      requires Valid()
      modifies this`log
      ensures Valid() && Later(old(log), log) && (interrupted <==> !Calm(old(log), log))
    {
      interrupted := Fails();
    }

    /** A call begins. */
    ghost method Begin(place: Pc)
      requires Valid() && Legal(Now(), Action.Begin(place))
      modifies this`log, this`pc
      ensures Valid() && pc == place && Later(old(log), log) && Calm(old(log), log)
      ensures Now() == Then(old(Now()), Action.Begin(place))
    {
      Appended(log.actions, Action.Begin(place));
      log := log.(actions := log.actions + [Action.Begin(place)]);
      pc := place;
    }

    /** An authority is bound to an observation, and the call that publishes its outcome begins. */
    ghost method Bind(grant: nat, observed: Observation)
      requires Valid() && Legal(Now(), Action.Bind(grant, observed))
      modifies this`log, this`pc
      ensures Valid() && Later(old(log), log) && Calm(old(log), log)
      ensures Now() == Then(old(Now()), Action.Bind(grant, observed)) && pc == Now().pc
    {
      hide ObservationMatches, Linked;
      Appended(log.actions, Action.Bind(grant, observed));
      log := log.(actions := log.actions + [Action.Bind(grant, observed)]);
      pc := Now().pc;
    }

    /** The intent that the last operation found is loaded. */
    ghost method Admit(i: IntentRecord)
      requires Valid() && Intent(i) in seen
      modifies this`log
      ensures Valid() && Later(old(log), log) && Calm(old(log), log) && i in Now().verified
    {
      Appended(log.actions, Action.Load(i, seen));
      log := log.(actions := log.actions + [Action.Load(i, seen)]);
    }

    /** The running call has performed the operation it wanted. */
    ghost method Note(resp: Response)
      requires Valid() && Responds(seen, Want(pc), resp, records)
      modifies this`log, this`pc
      ensures Valid() && pc == Advance(old(pc), resp) && Later(old(log), log)
      ensures log == old(log).(actions := old(log).actions + [Did(seen, resp, records)])
      ensures Now() == AfterDid(old(Now()), resp)
    {
      hide Want, Advance, Responds;
      Appended(log.actions, Did(seen, resp, records));
      log := log.(actions := log.actions + [Did(seen, resp, records)]);
      pc := Advance(pc, resp);
    }

    /** Loads one record; `bytes` is what was read. */
    method Load(r: Record) returns (resp: Response, bytes: nat)
      requires Valid()
      modifies this`records, this`seen, this`log
      ensures Valid() && pc == old(pc) && Later(old(log), log) && log.actions == old(log).actions
      ensures Responds(seen, LookOp(r), resp, records) && (exclusive ==> seen == old(records))
      ensures bytes <= sizeOf(r) && bytes <= limits.maxRecordBytes
      ensures resp.Found? ==> bytes == sizeOf(r)
      ensures resp.Absent? ==> bytes == 0
      ensures resp.Fault? ==> (r in seen && TooBig(r)) || !Calm(old(log), log)
      ensures TooBig(r) <==> limits.maxRecordBytes < sizeOf(r)
    {
      Interfere();
      var fails := Fails();
      if fails {
        bytes := *;
        if sizeOf(r) < bytes || limits.maxRecordBytes < bytes { bytes := 0; }
        resp := Fault;
      } else if r !in records {
        resp, bytes := Absent, 0;
      } else if TooBig(r) {
        resp, bytes := Fault, 0;
      } else {
        resp, bytes := Found, sizeOf(r);
      }
    }

    /** A load, presence check or verification as a step of the running call. */
    method Look(r: Record) returns (resp: Response, bytes: nat)
      requires Valid() && Want(pc) == LookOp(r)
      modifies this`records, this`seen, this`log, this`pc
      ensures Valid() && pc == Advance(old(pc), resp) && Later(old(log), log)
      ensures Responds(seen, LookOp(r), resp, records) && (exclusive ==> seen == old(records))
      ensures bytes <= sizeOf(r) && bytes <= limits.maxRecordBytes
      ensures resp.Found? ==> bytes == sizeOf(r)
      ensures resp.Absent? ==> bytes == 0
      ensures resp.Fault? ==> (r in seen && TooBig(r)) || !Calm(old(log), log)
    {
      hide Valid, Want, Advance, Responds;
      resp, bytes := Load(r);
      Note(resp);
    }

    /** An inventory is cut short by the entry, record or path budget. */
    predicate Overflows(s: set<Record>, k: Kind) {
      || |s| > limits.maxStatusEntries || |OfKind(s, k)| > limits.maxStatusRecords
      || pathBytes(s) > limits.maxStatusPathBytes
    }

    /** A complete inventory of one kind, sorted by ID; it stops at the entry, path and record budgets. */
    method Inventory(k: Kind) returns (resp: Response, truncated: bool)
      requires Valid()
      modifies this`records, this`seen, this`log
      ensures Valid() && pc == old(pc) && Later(old(log), log) && Glimpsed(old(log), log, seen) && log.actions == old(log).actions
      ensures Responds(seen, ListOp(k), resp, records) && (exclusive ==> seen == old(records))
      ensures resp.Listed? ==> SortedByRank(resp.records, rank) && forall r :: r in resp.records ==> KindOf(r) == k
      ensures truncated ==> resp.Fault?
      ensures Overflows(records, k) ==> !resp.Listed?
      ensures truncated ==> Overflows(records, k)
      ensures truncated ==> limits.maxStatusEntries < |seen| || limits.maxStatusRecords < |OfKind(seen, k)|
                            || limits.maxStatusPathBytes < pathBytes(seen)
      ensures resp.Fault? ==> truncated || !Calm(old(log), log)
    {
      Interfere();
      assert log.sights[|old(log).sights|] == seen;
      var fails := Fails();
      truncated := false;
      if fails {
        resp := Fault;
      } else if Overflows(records, k) {
        resp, truncated := Fault, true;
      } else {
        var q := SortByRank(OfKind(records, k), rank);
        assert Enumerates(q, records, k);
        resp := Listed(q);
      }
    }

    /** An inventory as a step of the running call. */
    method List(k: Kind) returns (resp: Response, truncated: bool)
      requires Valid() && Want(pc) == ListOp(k)
      modifies this`records, this`seen, this`log, this`pc
      ensures Valid() && pc == Advance(old(pc), resp) && Later(old(log), log) && Glimpsed(old(log), log, seen)
      ensures Responds(seen, ListOp(k), resp, records) && (exclusive ==> seen == old(records))
      ensures resp.Listed? ==> SortedByRank(resp.records, rank) && forall r :: r in resp.records ==> KindOf(r) == k
      ensures truncated ==> resp.Fault?
      ensures truncated ==> Overflows(records, k)
      ensures resp.Fault? ==> truncated || !Calm(old(log), log)
    {
      hide Valid, Want, Advance, Responds, SortedByRank, Overflows;
      resp, truncated := Inventory(k);
      label Listed:
      Note(resp);
      assert Glimpsed(old(log), log, seen) by {
        var n :| |old(log).sights| <= n < |old@Listed(log).sights| && old@Listed(log).sights[n] == seen;
        assert log.sights[n] == seen;
      }
    }

    /** No-replace publication: exactly one of newly written and already present. */
    method Import(r: Record) returns (resp: Response)
      requires Valid() && Want(pc) == ImportOp(r)
      modifies this`records, this`seen, this`log, this`pc
      ensures Valid() && pc == Advance(old(pc), resp) && Later(old(log), log)
      ensures Responds(seen, ImportOp(r), resp, records) && (exclusive ==> seen == old(records))
      ensures resp.Fault? ==> !Calm(old(log), log)
    {
      hide Valid, Want, Advance;
      Interfere();
      var fails := Fails();
      var effect: bool := *;
      if fails {
        if effect { records := records + {r}; }
        resp := Fault;
      } else {
        resp := Imported(r !in records);
        records := records + {r};
      }
      Note(resp);
    }

    /** Takes the name away as part of a removal that goes on, and looks again. */
    method Stage(r: Record) returns (again: bool)
      requires Valid() && Want(pc) == RemoveOp(r) && Advance(pc, Staged) == pc && seen == records
      modifies this`records, this`seen, this`log, this`pc
      ensures Valid() && pc == old(pc) && Later(old(log), log) && seen == records
      ensures again == (r in records) && (exclusive ==> records == old(records) - {r})
      ensures Calm(old(log), log)
    {
      Removes(pc, r, records);
      hide Valid, Want, Advance, Responds;
      records := records - {r};
      Note(Staged);
      Interfere();
      again := r in records;
    }

    /**
      Exact removal.  The name is moved to staging, taken away again if another session has
      republished it meanwhile, and the staged copy is deleted; residue of an earlier removal
      counts as removed.  A removal whose durability could not be confirmed fails and still says
      what it found.
     */
    method Remove(r: Record) returns (resp: Response, writes: nat, removed: bool, alreadyAbsent: bool)
      requires Valid() && Want(pc) == RemoveOp(r) && Advance(pc, Staged) == pc
      modifies this`records, this`seen, this`log, this`pc
      ensures Valid() && Later(old(log), log) && (resp.Fault? || resp.Removed?)
      ensures pc == Advance(old(pc), resp)
      ensures resp.Removed? ==> r !in records
      ensures exclusive && resp.Removed? ==> records == old(records) - {r} && (r in old(records) ==> resp.hadState)
      ensures exclusive && resp.Fault? ==> records == old(records) || records == old(records) - {r}
      ensures writes <= 3 && !(removed && alreadyAbsent)
      ensures resp.Removed? ==> (resp.hadState <==> 0 < writes) && removed == resp.hadState && alreadyAbsent == !resp.hadState
      ensures exclusive && resp.Fault? ==> !Calm(old(log), log)
    {
      LaterAlways();
      hide *;
      writes, removed, alreadyAbsent := 0, false, false;
      Interfere();
      var residue: bool, unsynced: bool := *, *;
      var fails := Fails();
      var stops := Fails();
      var unconfirmed := Fails();
      var present := r in records;
      var hadState := present || residue;
      if fails {
        Removes(pc, r, records);
        if present && stops { records, writes := records - {r}, 1; }
        resp := Fault;
        Note(resp);
        return;
      }
      if present && !residue {
        writes := 1;
        present := Stage(r);
      }
      if present && !stops {
        writes := writes + 1;
        present := Stage(r);
      }
      Removes(pc, r, records);
      if hadState { writes := writes + 1; }
      if present || unconfirmed {
        removed, alreadyAbsent := !present && unsynced && hadState, !present && unsynced && !hadState;
        resp := Fault;
      } else {
        removed, alreadyAbsent := hadState, !hadState;
        resp := Removed(hadState);
      }
      Note(resp);
    }

    /** Revalidates the store's identity outside the running call. */
    method Recheck() returns (ok: bool)
      requires Valid()
      modifies this`records, this`seen, this`log
      ensures Valid() && pc == old(pc) && Later(old(log), log) && log.actions == old(log).actions
      ensures records == seen && (exclusive ==> seen == old(records))
      ensures !ok ==> !Calm(old(log), log)
    {
      Interfere();
      var fails := Fails();
      ok := !fails;
    }

    method Check() returns (resp: Response)
      requires Valid() && Want(pc) == CheckOp
      modifies this`records, this`seen, this`log, this`pc
      ensures Valid() && pc == Advance(old(pc), resp) && Later(old(log), log)
      ensures Responds(seen, CheckOp, resp, records) && (exclusive ==> seen == old(records))
      ensures resp.Fault? ==> !Calm(old(log), log)
    {
      hide Valid, Want, Advance;
      Interfere();
      var fails := Fails();
      resp := if fails then Fault else Checked;
      Note(resp);
    }

    /** The form POST of an acquired reservation, as a step of the running call. */
    method Post()
      requires Valid() && Want(pc) == SubmitOp
      modifies this`records, this`seen, this`log, this`pc
      ensures Valid() && pc == Advance(old(pc), Submitted) && Later(old(log), log)
      ensures records == seen && (exclusive ==> seen == old(records))
      ensures Now() == AfterDid(old(Now()), Submitted) && Calm(old(log), log)
    {
      hide Valid, Want, Advance, AfterDid;
      Interfere();
      Note(Submitted);
    }
  }

  /** IDs are injective. */
  ghost predicate Ranked(rank: Record -> int) {
    forall r, s :: rank(r) == rank(s) ==> r == s
  }

  lemma Removes(pc: Pc, r: Record, s: set<Record>)
    requires Want(pc) == RemoveOp(r)
    ensures Responds(s, Want(pc), Staged, s - {r})
    ensures Responds(s, Want(pc), Fault, s) && Responds(s, Want(pc), Fault, s - {r})
    ensures r !in s ==> forall had :: Responds(s, Want(pc), Removed(had), s)
  {
    hide Want;
    assert r !in s ==> s - {r} == s;
  }

  method SortByRank(s: set<Record>, rank: Record -> int) returns (q: seq<Record>)
    requires forall r, t :: r in s && t in s && rank(r) == rank(t) ==> r == t
    ensures SortedByRank(q, rank)
    ensures forall r :: r in q <==> r in s
  {
    q := [];
    var todo := s;
    while todo != {}
      invariant todo <= s
      invariant SortedByRank(q, rank)
      invariant forall r :: r in q <==> r in s - todo
      decreases todo
    {
      var r :| r in todo;
      todo := todo - {r};
      q := Insert(q, r, rank);
    }
  }

  method Insert<T>(q: seq<T>, r: T, rank: T -> int) returns (q': seq<T>)
    requires SortedByRank(q, rank) && forall t :: t in q ==> rank(t) != rank(r)
    ensures SortedByRank(q', rank) && |q'| == |q| + 1
    ensures forall t :: t in q' <==> t in q || t == r
  {
    var n := 0;
    while n < |q| && rank(q[n]) < rank(r)
      invariant n <= |q|
      invariant forall k :: 0 <= k < n ==> rank(q[k]) < rank(r)
    {
      n := n + 1;
    }
    InsertAt(q, n, r, rank);
    q' := q[..n] + [r] + q[n..];
  }

  lemma InsertAt<T>(q: seq<T>, n: nat, r: T, rank: T -> int)
    requires SortedByRank(q, rank) && n <= |q|
    requires forall k :: 0 <= k < n ==> rank(q[k]) < rank(r)
    requires n < |q| ==> rank(r) < rank(q[n])
    ensures SortedByRank(q[..n] + [r] + q[n..], rank)
    ensures forall t :: t in q[..n] + [r] + q[n..] <==> t in q || t == r
  {
    assert q == q[..n] + q[n..];
    var q' := q[..n] + [r] + q[n..];
    assert forall k :: n <= k < |q| ==> rank(r) < rank(q[k]);
    forall a, b | 0 <= a < b < |q'| ensures rank(q'[a]) < rank(q'[b]) {
      assert a < n ==> q'[a] == q[a];
      assert n < b ==> q'[b] == q[b - 1];
      assert n < a ==> q'[a] == q[a - 1];
      assert b < n ==> q'[b] == q[b];
    }
  }
}
