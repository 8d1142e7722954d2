/**
  The audit_records table and the queries the worker and the gateway run on it.

  Both sides read with ORDER BY created_at, id. The table is held in that order, so a
  query is a filter of the sequence; Insert puts a new row in its place.
 */
module AuditTable {
  import opened Wrappers
  import opened Hashing

  /** uuid7 keys, in their lexicographic order. */
  type RecordId = nat

  datatype Record = Record(
    id: RecordId,
    createdAt: int,
    org: string,
    eventHash: Digest,
    anchoredBatch: Option<nat>)

  datatype Query =
    | Pending                     // anchored_batch_id IS NULL
    | InBatch(batchId: nat)       // anchored_batch_id = :batch
    | WithIds(ids: set<RecordId>) // id IN (:ids)

  predicate Matches(q: Query, r: Record) {
    match q
    case Pending => r.anchoredBatch.None?
    case InBatch(b) => r.anchoredBatch == Some(b)
    case WithIds(ids) => r.id in ids
  }

  function Where(t: seq<Record>, q: Query): seq<Record> {
    if t == [] then []
    else (if Matches(q, t[0]) then [t[0]] else []) + Where(t[1..], q)
  }

  function Hashes(t: seq<Record>): (hs: seq<Digest>)
    ensures |hs| == |t|
    ensures forall i | 0 <= i < |t| :: hs[i] == t[i].eventHash
  {
    if t == [] then [] else [t[0].eventHash] + Hashes(t[1..])
  }

  function Ids(t: seq<Record>): set<RecordId> { set r <- t :: r.id }

  predicate Before(a: Record, b: Record) {
    a.createdAt < b.createdAt || (a.createdAt == b.createdAt && a.id < b.id)
  }

  function Insert(t: seq<Record>, r: Record): seq<Record> {
    if t == [] || Before(r, t[0]) then [r] + t else [t[0]] + Insert(t[1..], r)
  }

  /** UPDATE ... SET anchored_batch_id = b WHERE id IN ids. */
  function Mark(t: seq<Record>, ids: set<RecordId>, b: nat): (t': seq<Record>)
    ensures |t'| == |t|
    ensures forall i | 0 <= i < |t| ::
      t'[i] == if t[i].id in ids then t[i].(anchoredBatch := Some(b)) else t[i]
  {
    if t == [] then []
    else [if t[0].id in ids then t[0].(anchoredBatch := Some(b)) else t[0]] + Mark(t[1..], ids, b)
  }

  ghost predicate Ordered(t: seq<Record>) {
    forall i, j | 0 <= i < j < |t| :: Before(t[i], t[j])
  }

  ghost predicate UniqueIds(t: seq<Record>) {
    forall i, j | 0 <= i < j < |t| :: t[i].id != t[j].id
  }

  // ------------------------------------------------------------------ lemmas

  lemma {:induction false} InsertMembers(t: seq<Record>, r: Record)
    ensures |Insert(t, r)| == |t| + 1
    ensures forall x :: x in Insert(t, r) <==> x == r || x in t
  {
    if t != [] && !Before(r, t[0]) {
      InsertMembers(t[1..], r);
      assert t == [t[0]] + t[1..];
    }
  }

  lemma {:induction false} InsertKeepsOrder(t: seq<Record>, r: Record)
    requires Ordered(t) && UniqueIds(t)
    requires forall x <- t :: x.id != r.id
    ensures Ordered(Insert(t, r)) && UniqueIds(Insert(t, r))
  {
    if t == [] {
    } else if Before(r, t[0]) {
      assert forall j | 1 <= j < |t| :: Before(t[0], t[j]);
    } else {
      var rest := Insert(t[1..], r);
      InsertKeepsOrder(t[1..], r);
      InsertMembers(t[1..], r);
      forall j | 0 <= j < |rest|
        ensures Before(t[0], rest[j]) && t[0].id != rest[j].id
      {
        assert rest[j] in rest;
        assert t[0] in t;
      }
    }
  }

  /** The order of the table: older records first, and of records of one instant the smaller key first. */
  lemma OrderedByAge(t: seq<Record>)
    ensures Ordered(t) <==> forall i, j | 0 <= i < j < |t| ::
              t[i].createdAt <= t[j].createdAt && (t[i].createdAt == t[j].createdAt ==> t[i].id < t[j].id)
  {
  }

  /** A query keeps that order, so the first of its rows are the oldest. */
  lemma {:induction false} WhereKeepsOrder(t: seq<Record>, q: Query)
    requires Ordered(t)
    ensures Ordered(Where(t, q))
  {
    if t != [] {
      var rest := Where(t[1..], q);
      WhereKeepsOrder(t[1..], q);
      WhereMembers(t[1..], q);
      forall j | 0 <= j < |rest|
        ensures Before(t[0], rest[j])
      {
        assert rest[j] in rest;
      }
    }
  }

  lemma {:induction false} InsertIsInvisible(t: seq<Record>, r: Record, q: Query)
    requires !Matches(q, r)
    ensures Where(Insert(t, r), q) == Where(t, q)
  {
    if t != [] && !Before(r, t[0]) {
      InsertIsInvisible(t[1..], r, q);
    }
  }

  lemma {:induction false} WhereMembers(t: seq<Record>, q: Query)
    ensures forall x :: x in Where(t, q) <==> x in t && Matches(q, x)
  {
    if t != [] {
      WhereMembers(t[1..], q);
      assert t == [t[0]] + t[1..];
    }
  }

  lemma {:induction false} SameMatchesSameRows(t: seq<Record>, q: Query, q': Query)
    requires forall r <- t :: Matches(q, r) == Matches(q', r)
    ensures Where(t, q) == Where(t, q')
  {
    if t != [] {
      assert t[0] in t;
      SameMatchesSameRows(t[1..], q, q');
    }
  }

  /** Re-reading the first n pending rows by their ids gives exactly those rows, in order. */
  lemma {:induction false} LoadedRows(t: seq<Record>, n: nat)
    requires UniqueIds(t)
    requires n <= |Where(t, Pending)|
    ensures Where(t, WithIds(Ids(Where(t, Pending)[..n]))) == Where(t, Pending)[..n]
    decreases |t|
  {
    var pending := Where(t, Pending);
    var ids := Ids(pending[..n]);
    if t == [] {
    } else if !Matches(Pending, t[0]) {
      LoadedRows(t[1..], n);
      WhereMembers(t[1..], Pending);
      assert pending == Where(t[1..], Pending);
      assert t[0].id !in ids by {
        forall r | r in pending[..n] ensures r.id != t[0].id {
          assert r in t[1..];
        }
      }
    } else if n == 0 {
      SameMatchesSameRows(t, WithIds({}), WithIds(ids));
      NoIdsNoRows(t);
      assert pending[..0] == [] && ids == {};
    } else {
      var rest := Where(t[1..], Pending)[..n - 1];
      assert pending[..n] == [t[0]] + rest;
      assert ids == {t[0].id} + Ids(rest);
      LoadedRows(t[1..], n - 1);
      SameMatchesSameRows(t[1..], WithIds(ids), WithIds(Ids(rest)));
    }
  }

  lemma {:induction false} NoIdsNoRows(t: seq<Record>)
    ensures Where(t, WithIds({})) == []
  {
    if t != [] {
      NoIdsNoRows(t[1..]);
    }
  }

  /** After marking, the rows of batch b are the marked ids' rows. */
  lemma {:induction false} MarkedRowsAreTheBatch(t: seq<Record>, ids: set<RecordId>, b: nat)
    requires forall r <- t :: r.anchoredBatch != Some(b)
    ensures Hashes(Where(Mark(t, ids, b), InBatch(b))) == Hashes(Where(t, WithIds(ids)))
  {
    if t != [] {
      assert t[0] in t;
      MarkedRowsAreTheBatch(t[1..], ids, b);
      assert Mark(t, ids, b)[1..] == Mark(t[1..], ids, b);
      HashesAppend(if t[0].id in ids then [t[0]] else [], Where(t[1..], WithIds(ids)));
      HashesAppend(if t[0].id in ids then [Mark(t, ids, b)[0]] else [], Where(Mark(t[1..], ids, b), InBatch(b)));
    }
  }

  lemma HashesAppend(a: seq<Record>, b: seq<Record>)
    ensures Hashes(a + b) == Hashes(a) + Hashes(b)
  {
  }

  /** Marking pending rows with b leaves every other batch as it was. */
  lemma {:induction false} OtherBatchesUntouched(t: seq<Record>, ids: set<RecordId>, b: nat, other: nat)
    requires other != b
    requires forall r <- t :: r.id in ids ==> r.anchoredBatch.None?
    ensures Where(Mark(t, ids, b), InBatch(other)) == Where(t, InBatch(other))
  {
    if t != [] {
      assert t[0] in t;
      OtherBatchesUntouched(t[1..], ids, b, other);
      assert Mark(t, ids, b)[1..] == Mark(t[1..], ids, b);
    }
  }

  /** Marking removes exactly the marked rows from the pending ones. */
  lemma {:induction false} MarkShrinksPending(t: seq<Record>, ids: set<RecordId>, b: nat)
    requires forall r <- t :: r.id in ids ==> r.anchoredBatch.None?
    ensures |Where(Mark(t, ids, b), Pending)| == |Where(t, Pending)| - |Where(t, WithIds(ids))|
  {
    if t != [] {
      assert t[0] in t;
      MarkShrinksPending(t[1..], ids, b);
      assert Mark(t, ids, b)[1..] == Mark(t[1..], ids, b);
    }
  }
}
