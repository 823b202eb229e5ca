/**
  The room the limits of a bound store leave: how much a scan of a store reads, and when the entry,
  record, path and byte budgets of internal/metastore and internal/bonusexchange hold it.
 */
module Budget {
  import opened Records
  import opened Program
  import opened Metastore

  /** The size of an inventory. */
  function Bytes(q: seq<Record>, sizeOf: Record -> nat): nat {
    if q == [] then 0 else Bytes(q[..|q| - 1], sizeOf) + sizeOf(q[|q| - 1])
  }

  /** The size of a set of records, however they are listed. */
  ghost function TotalSize(s: set<Record>, sizeOf: Record -> nat): nat {
    if s == {} then 0
    else
      var r :| r in s;
      TotalSize(s - {r}, sizeOf) + sizeOf(r)
  }

  lemma {:induction false} TotalWithout(s: set<Record>, sizeOf: Record -> nat, r: Record)
    requires r in s
    ensures TotalSize(s, sizeOf) == TotalSize(s - {r}, sizeOf) + sizeOf(r)
  {
    var t :| t in s && TotalSize(s, sizeOf) == TotalSize(s - {t}, sizeOf) + sizeOf(t);
    if t != r {
      TotalWithout(s - {t}, sizeOf, r);
      TotalWithout(s - {r}, sizeOf, t);
      assert s - {t} - {r} == s - {r} - {t};
    }
  }

  /** A list of the set without repetition has its size. */
  lemma {:induction false} BytesTotal(q: seq<Record>, s: set<Record>, sizeOf: Record -> nat)
    requires (forall r :: r in q <==> r in s) && forall a, b :: 0 <= a < b < |q| ==> q[a] != q[b]
    ensures Bytes(q, sizeOf) == TotalSize(s, sizeOf)
  {
    if q == [] {
      assert s == {};
    } else {
      var front, last := q[..|q| - 1], q[|q| - 1];
      assert q == front + [last];
      forall r ensures r in front <==> r in s - {last} {
        if r in front {
          var a :| 0 <= a < |front| && front[a] == r;
          assert q[a] != q[|q| - 1];
        }
      }
      BytesTotal(front, s - {last}, sizeOf);
      TotalWithout(s, sizeOf, last);
    }
  }

  lemma BytesStep(q: seq<Record>, sizeOf: Record -> nat, n: nat)
    requires n < |q|
    ensures Bytes(q[..n + 1], sizeOf) == Bytes(q[..n], sizeOf) + sizeOf(q[n])
    ensures Bytes(q[..0], sizeOf) == 0
  {
    assert q[..n + 1][..n] == q[..n];
  }

  lemma {:induction false} BytesGrow(q: seq<Record>, sizeOf: Record -> nat, n: nat)
    requires n <= |q|
    ensures Bytes(q[..n], sizeOf) <= Bytes(q, sizeOf)
    decreases |q| - n
  {
    if n < |q| {
      BytesStep(q, sizeOf, n);
      BytesGrow(q, sizeOf, n + 1);
    } else {
      assert q[..n] == q;
    }
  }

  // ---------------------------------------------------------------- room for a pass

  /** No record exceeds the record limit. */
  ghost predicate Small(bound: Bound, s: set<Record>) {
    forall r :: r in s ==> !bound.TooBig(r)
  }

  ghost function StoredBytes(bound: Bound, s: set<Record>, k: Kind): nat {
    TotalSize(OfKind(s, k), bound.sizeOf)
  }

  /** Every record of an inventory can be loaded, with `used` bytes already read. */
  ghost predicate Loadable(bound: Bound, q: seq<Record>, used: nat) {
    used + Bytes(q, bound.sizeOf) <= bound.limits.maxStatusBytes && forall r :: r in q ==> !bound.TooBig(r)
  }

  /** One pass over a kind: the inventory is complete, and its records fit the byte budget. */
  ghost predicate Room(bound: Bound, s: set<Record>, k: Kind, used: nat) {
    !bound.Overflows(s, k) && used + StoredBytes(bound, s, k) <= bound.limits.maxStatusBytes
  }

  /** Two passes over it. */
  ghost predicate RoomTwice(bound: Bound, s: set<Record>, k: Kind, used: nat) {
    Room(bound, s, k, used + StoredBytes(bound, s, k))
  }

  lemma RoomOnce(bound: Bound, s: set<Record>, k: Kind, used: nat)
    ensures RoomTwice(bound, s, k, used) ==> Room(bound, s, k, used)
    ensures forall more: nat {:trigger Room(bound, s, k, more)} :: more <= used && Room(bound, s, k, used) ==> Room(bound, s, k, more)
  {
  }

  lemma TwiceLess(bound: Bound, s: set<Record>, k: Kind, used: nat, more: nat)
    requires more <= used && RoomTwice(bound, s, k, used)
    ensures RoomTwice(bound, s, k, more)
  {
  }

  /** A complete sorted inventory has the size of what the store holds, and can be loaded if that fits. */
  lemma InventoryBytes(bound: Bound, s: set<Record>, k: Kind, q: seq<Record>, used: nat)
    requires Enumerates(q, s, k) && SortedByRank(q, bound.rank)
    ensures Bytes(q, bound.sizeOf) == StoredBytes(bound, s, k)
    ensures Room(bound, s, k, used) && Small(bound, s) ==> Loadable(bound, q, used)
  {
    forall a, b | 0 <= a < b < |q| ensures q[a] != q[b] {
      assert bound.rank(q[a]) < bound.rank(q[b]);
    }
    BytesTotal(q, OfKind(s, k), bound.sizeOf);
  }

  // ---------------------------------------------------------------- room for the calls

  /** The two scans behind every status and every prune. */
  ghost predicate ScanRoom(bound: Bound, s: set<Record>) {
    && RoomTwice(bound, s, ForgetKind, 0)
    && RoomTwice(bound, s, RetentionKind, 2 * StoredBytes(bound, s, ForgetKind))
  }

  /** And the outcome scan of a live chain. */
  ghost predicate StatusRoom(bound: Bound, s: set<Record>) {
    ScanRoom(bound, s) && Room(bound, s, OutcomeKind, 0)
  }

  // ---------------------------------------------------------------- one record at a time

  /** The next record of a list that can be loaded. */
  lemma LoadNext(bound: Bound, q: seq<Record>, n: nat, used: nat)
    requires n < |q|
    ensures Bytes(q[..n + 1], bound.sizeOf) == Bytes(q[..n], bound.sizeOf) + bound.sizeOf(q[n])
    ensures Loadable(bound, q, used) ==>
              !bound.TooBig(q[n]) && used + Bytes(q[..n], bound.sizeOf) + bound.sizeOf(q[n]) <= bound.limits.maxStatusBytes
  {
    BytesStep(q, bound.sizeOf, n);
    BytesGrow(q, bound.sizeOf, n + 1);
  }

  lemma LoadFirst(bound: Bound, q: seq<Record>)
    ensures Bytes(q[..0], bound.sizeOf) == 0 && Bytes(q[..|q|], bound.sizeOf) == Bytes(q, bound.sizeOf)
  {
    assert q[..|q|] == q;
  }

  /** An inventory is cut short only without room. */
  lemma RoomFits(bound: Bound, k: Kind, used: nat)
    ensures forall s :: Room(bound, s, k, used) ==> !bound.Overflows(s, k)
  {
  }

  lemma RoomAgain(bound: Bound, s: set<Record>, k: Kind, used: nat, more: nat)
    requires more <= used + StoredBytes(bound, s, k)
    ensures RoomTwice(bound, s, k, used) ==> Room(bound, s, k, more)
  {
  }

  lemma SmallRefs(bound: Bound, s: set<Record>, refs: seq<Record>)
    ensures Small(bound, s) ==> forall r :: r in refs && r in s ==> !bound.TooBig(r)
  {
  }

  /** Two listings of one store are the same. */
  lemma SameListing(bound: Bound, s: set<Record>, k: Kind, p: seq<Record>, q: seq<Record>)
    requires Enumerates(p, s, k) && SortedByRank(p, bound.rank) && Enumerates(q, s, k) && SortedByRank(q, bound.rank)
    ensures p == q
  {
    SortedUnique(p, q, bound.rank);
  }

  lemma SmallMore(bound: Bound, s: set<Record>, r: Record)
    ensures Small(bound, s) && !bound.TooBig(r) ==> Small(bound, s + {r})
    ensures Small(bound, s) && r in s ==> !bound.TooBig(r)
  {
  }

  lemma SmallAll(bound: Bound, s: set<Record>)
    ensures Small(bound, s) ==> forall r :: r in s ==> !bound.TooBig(r)
  {
  }

  /** The two scans of a status, one after the other. */
  lemma ScansFit(bound: Bound, s: set<Record>, used: nat)
    ensures ScanRoom(bound, s) ==> RoomTwice(bound, s, ForgetKind, 0)
    ensures ScanRoom(bound, s) && used <= 2 * StoredBytes(bound, s, ForgetKind) ==> RoomTwice(bound, s, RetentionKind, used)
    ensures StatusRoom(bound, s) ==> ScanRoom(bound, s) && Room(bound, s, OutcomeKind, 0)
  {
    if ScanRoom(bound, s) && used <= 2 * StoredBytes(bound, s, ForgetKind) {
      TwiceLess(bound, s, RetentionKind, 2 * StoredBytes(bound, s, ForgetKind), used);
    }
  }
}
