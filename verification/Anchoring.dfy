/**
  Durable audit anchoring as a step system: services/audit-service (worker.py, batcher.py,
  chain.py) against the AuditAnchor contract and the database.

  One worker runs; between any two of its effects records may arrive, anybody may call the
  contract (an earlier submission may land now, later or never), any read or write may
  fail, and the worker may crash. Reads of the contract return its current state.
 */
module Anchoring {
  import opened Wrappers
  import opened Hashing
  import opened Merkle
  import opened AuditAnchor
  import opened AuditTable

  datatype Config = Config(maxRecords: nat, maxAttempts: nat)

  datatype BatchStatus = Anchored | Failed

  datatype BatchRow = BatchRow(merkleRoot: Digest, recordCount: nat, status: BatchStatus)

  /** What one tick loaded: the rows, their leaves in query order, and the root over them. */
  datatype Job = Job(ids: set<RecordId>, leaves: seq<Digest>, root: Digest)

  /** The worker's position inside a tick. */
  datatype Phase =
    | Idle
    | ReadingLastId(job: Job, attempt: nat)
    | Submitting(job: Job, attempt: nat, batchId: nat)
    | Verifying(job: Job, attempt: nat, batchId: nat)
    | Resolving(job: Job, attempt: nat, batchId: nat)
    | GaveUp(job: Job, batchId: nat)      // AnchorSubmissionError raised, failed row not yet written
    | Confirmed(job: Job, batchId: nat)   // flush returned, row not yet written
    | Recorded(job: Job, batchId: nat)    // row written, records not yet marked

  datatype World = World(
    records: seq<Record>,
    batches: map<nat, BatchRow>,
    chain: Ledger,
    phase: Phase)

  datatype Event =
    | Arrive(record: Record)
    | ContractCall(call: Call)
    | Load(due: bool)
    | FlushStarted(leaves: seq<Digest>)   // a batcher is flushed on its own, for no rows
    | LastIdRead
    | SubmitReturned
    | SubmitRaised
    | RootVerified
    | RootResolved(readOk: bool)
    | FailureRecorded
    | SuccessRecorded
    | RecordsMarked
    | Crash   // process death, an exception that escapes the tick, or the end of a flush for no rows

  // -------------------------------------------------------------------- steps

  predicate CanArrive(w: World, r: Record) { r.anchoredBatch.None? && r.id !in Ids(w.records) }

  function FirstPending(cfg: Config, w: World): seq<Record> {
    var pending := Where(w.records, Pending);
    if |pending| <= cfg.maxRecords then pending else pending[..cfg.maxRecords]
  }

  function NewJob(k: Keccak, loaded: seq<Record>): Job
    requires loaded != []
  {
    Job(Ids(loaded), Hashes(loaded), Root(k, Hashes(loaded)))
  }

  /** A buffer that stands for no rows. */
  function FreeJob(k: Keccak, leaves: seq<Digest>): Job
    requires leaves != []
  {
    Job({}, leaves, Root(k, leaves))
  }

  function LoadStep(cfg: Config, k: Keccak, w: World, due: bool): World {
    var loaded := FirstPending(cfg, w);
    if loaded == [] || (|loaded| < cfg.maxRecords && !due) then w
    else w.(phase := ReadingLastId(NewJob(k, loaded), 1))
  }

  /** A tick takes up work exactly if something is pending and a full batch of it, or for long enough. */
  lemma LoadsWhenDue(cfg: Config, k: Keccak, w: World, due: bool)
    requires w.phase.Idle?
    ensures var pending := |Where(w.records, Pending)|;
            Next(cfg, k, w, Load(due)) != w <==>
              cfg.maxRecords > 0 && pending > 0 && (due || pending >= cfg.maxRecords)
  {
    hide Where, Root, Hashes, Ids;
  }

  function NotAnchored(cfg: Config, job: Job, attempt: nat, batchId: nat): Phase {
    if attempt < cfg.maxAttempts then ReadingLastId(job, attempt + 1) else GaveUp(job, batchId)
  }

  function Next(cfg: Config, k: Keccak, w: World, e: Event): World {
    match (e, w.phase)
    case (Arrive(r), _) =>
      if CanArrive(w, r) then w.(records := Insert(w.records, r)) else w
    case (ContractCall(c), _) => w.(chain := Exec(w.chain, c))
    case (Crash, _) => w.(phase := Idle)
    case (Load(due), Idle) => LoadStep(cfg, k, w, due)
    case (FlushStarted(leaves), Idle) =>
      if leaves == [] then w else w.(phase := ReadingLastId(FreeJob(k, leaves), 1))
    case (LastIdRead, ReadingLastId(job, n)) => w.(phase := Submitting(job, n, w.chain.last + 1))
    case (SubmitReturned, Submitting(job, n, b)) => w.(phase := Verifying(job, n, b))
    case (SubmitRaised, Submitting(job, n, b)) => w.(phase := Resolving(job, n, b))
    case (RootVerified, Verifying(job, n, b)) =>
      if GetBatchRoot(w.chain, b) == job.root then w.(phase := Confirmed(job, b))
      else w.(phase := Resolving(job, n, b))
    case (RootResolved(ok), Resolving(job, n, b)) =>
      if ok && GetBatchRoot(w.chain, b) == job.root then w.(phase := Confirmed(job, b))
      else w.(phase := NotAnchored(cfg, job, n, b))
    case (FailureRecorded, GaveUp(job, b)) =>
      if job.ids == {} then w
        else w.(batches := w.batches[b := BatchRow(job.root, |job.leaves|, Failed)], phase := Idle)
    case (SuccessRecorded, Confirmed(job, b)) =>
      if job.ids == {} then w
        else w.(batches := w.batches[b := BatchRow(job.root, |job.leaves|, Anchored)], phase := Recorded(job, b))
    case (RecordsMarked, Recorded(job, b)) =>
      w.(records := Mark(w.records, job.ids, b), phase := Idle)
    case _ => w
  }

  function Run(cfg: Config, k: Keccak, w: World, es: seq<Event>): World
    decreases |es|
  {
    if es == [] then w else Run(cfg, k, Next(cfg, k, w, es[0]), es[1..])
  }

  predicate NoZeroJob(w: World) { w.phase.Idle? || w.phase.job.root != ZERO_DIGEST }

  /** None of the roots that the run submits is the zero digest. */
  predicate NoZeroRoot(cfg: Config, k: Keccak, w: World, es: seq<Event>)
    decreases |es|
  {
    es == [] || (NoZeroJob(Next(cfg, k, w, es[0])) && NoZeroRoot(cfg, k, Next(cfg, k, w, es[0]), es[1..]))
  }

  function Fresh(owner: Address, signer: Address): World {
    World([], map[], Deployed(owner, signer), Idle)
  }

  // ---------------------------------------------------------------- invariant

  function BatchLeaves(w: World, b: nat): seq<Digest> { Hashes(Where(w.records, InBatch(b))) }

  /** The chain, the batch row and the records marked b agree on one root. */
  ghost predicate Agrees(k: Keccak, w: World, b: nat) {
    && b in w.chain.roots
    && b in w.batches
    && w.batches[b].merkleRoot == w.chain.roots[b]
    && BatchLeaves(w, b) != []
    && Root(k, BatchLeaves(w, b)) == w.chain.roots[b]
  }

  ghost predicate MarksAgree(k: Keccak, w: World) {
    forall r <- w.records :: r.anchoredBatch.Some? ==> Agrees(k, w, r.anchoredBatch.value)
  }

  ghost predicate NoneMarked(t: seq<Record>, b: nat) {
    forall r <- t :: r.anchoredBatch != Some(b)
  }

  /** The loaded rows are still in the table, still pending, and still spell the same leaves. */
  ghost predicate JobCurrent(k: Keccak, t: seq<Record>, job: Job) {
    && job.leaves != []
    && job.root == Root(k, job.leaves)
    && job.ids <= Ids(t)
    && (job.ids != {} ==> job.leaves == Hashes(Where(t, WithIds(job.ids))))
    && (forall r <- t :: r.id in job.ids ==> r.anchoredBatch.None?)
  }

  /** A root the contract can tell from none is there once it is confirmed. */
  predicate Landed(l: Ledger, b: nat, root: Digest) { root == ZERO_DIGEST || GetBatchRoot(l, b) == root }

  ghost predicate PhaseOk(k: Keccak, w: World) {
    && (!w.phase.Idle? ==> JobCurrent(k, w.records, w.phase.job))
    && (w.phase.Confirmed? || w.phase.Recorded? ==> Landed(w.chain, w.phase.batchId, w.phase.job.root))
    && (w.phase.Recorded? ==>
          && w.phase.job.ids != {}
          && w.phase.batchId in w.batches && w.batches[w.phase.batchId].merkleRoot == w.phase.job.root)
  }

  ghost predicate TableOk(t: seq<Record>) { Ordered(t) && UniqueIds(t) }

  /** What holds in every reachable state, whatever the roots. */
  ghost predicate Base(k: Keccak, w: World) {
    WellFormed(w.chain) && TableOk(w.records) && PhaseOk(k, w)
  }

  /** The worker has no zero root in hand, and writes to no batch that records are marked with. */
  ghost predicate Unused(w: World) {
    && NoZeroJob(w)
    && (!w.phase.Idle? && !w.phase.ReadingLastId? ==> NoneMarked(w.records, w.phase.batchId))
  }

  ghost predicate Inv(k: Keccak, w: World) {
    Base(k, w) && MarksAgree(k, w) && Unused(w)
  }

  // ---------------------------------------------------- steps keep the invariant

  lemma JobSurvivesArrival(k: Keccak, t: seq<Record>, r: Record, job: Job)
    requires JobCurrent(k, t, job)
    requires r.id !in Ids(t) && r.anchoredBatch.None?
    ensures JobCurrent(k, Insert(t, r), job)
  {
    InsertMembers(t, r);
    InsertIsInvisible(t, r, WithIds(job.ids));
    assert Ids(Insert(t, r)) == Ids(t) + {r.id} by {
      assert forall x <- t :: x in Insert(t, r);
    }
  }

  lemma ArrivalKeepsBase(k: Keccak, w: World, r: Record)
    requires Base(k, w) && CanArrive(w, r)
    ensures Base(k, w.(records := Insert(w.records, r)))
  {
    assert forall x <- w.records :: x.id in Ids(w.records);
    InsertKeepsOrder(w.records, r);
    if !w.phase.Idle? {
      JobSurvivesArrival(k, w.records, r, w.phase.job);
    }
  }

  lemma ArrivalKeepsMarks(k: Keccak, w: World, r: Record)
    requires Inv(k, w) && CanArrive(w, r)
    ensures MarksAgree(k, w.(records := Insert(w.records, r))) && Unused(w.(records := Insert(w.records, r)))
  {
    var w' := w.(records := Insert(w.records, r));
    InsertMembers(w.records, r);
    forall x <- w'.records | x.anchoredBatch.Some?
      ensures Agrees(k, w', x.anchoredBatch.value)
    {
      InsertIsInvisible(w.records, r, InBatch(x.anchoredBatch.value));
      assert Agrees(k, w, x.anchoredBatch.value);
    }
  }

  lemma ContractCallKeepsBase(k: Keccak, w: World, c: Call)
    requires Base(k, w)
    ensures Base(k, w.(chain := Exec(w.chain, c)))
  {
    CallKeepsHistory(w.chain, c);
  }

  lemma ContractCallKeepsMarks(k: Keccak, w: World, c: Call)
    requires Inv(k, w)
    ensures MarksAgree(k, w.(chain := Exec(w.chain, c)))
  {
    var w' := w.(chain := Exec(w.chain, c));
    CallKeepsHistory(w.chain, c);
    forall r <- w'.records | r.anchoredBatch.Some?
      ensures Agrees(k, w', r.anchoredBatch.value)
    {
      assert Agrees(k, w, r.anchoredBatch.value);
    }
  }

  lemma LoadKeepsBase(cfg: Config, k: Keccak, w: World, due: bool)
    requires Base(k, w) && w.phase.Idle?
    ensures Base(k, LoadStep(cfg, k, w, due))
  {
    var loaded := FirstPending(cfg, w);
    if loaded != [] {
      var n := |loaded|;
      assert loaded == Where(w.records, Pending)[..n];
      LoadedRows(w.records, n);
      WhereMembers(w.records, Pending);
      assert forall i | 0 <= i < n :: loaded[i] in Where(w.records, Pending);
      forall r <- w.records | r.id in Ids(loaded)
        ensures r.anchoredBatch.None?
      {
        WhereMembers(w.records, WithIds(Ids(loaded)));
        assert r in loaded;
      }
    }
  }

  /** The id after the last anchored one is marked on no record. */
  lemma NextIdIsUnused(k: Keccak, w: World)
    requires Inv(k, w)
    ensures NoneMarked(w.records, w.chain.last + 1)
  {
  }

  lemma MarkKeepsTable(t: seq<Record>, ids: set<RecordId>, b: nat)
    requires TableOk(t)
    ensures TableOk(Mark(t, ids, b))
  {
    var t' := Mark(t, ids, b);
    assert forall i | 0 <= i < |t| :: t[i] in t;
    forall i, j | 0 <= i < j < |t'|
      ensures Before(t'[i], t'[j]) && t'[i].id != t'[j].id
    {
      assert Before(t[i], t[j]);
    }
  }

  lemma MarkingKeepsMarks(k: Keccak, w: World)
    requires Inv(k, w) && w.phase.Recorded?
    ensures MarksAgree(k, w.(records := Mark(w.records, w.phase.job.ids, w.phase.batchId), phase := Idle))
  {
    var job, b := w.phase.job, w.phase.batchId;
    var w' := w.(records := Mark(w.records, job.ids, b), phase := Idle);
    MarkedRowsAreTheBatch(w.records, job.ids, b);
    assert Agrees(k, w', b);
    forall i | 0 <= i < |w'.records| && w'.records[i].anchoredBatch.Some?
      ensures Agrees(k, w', w'.records[i].anchoredBatch.value)
    {
      var other := w'.records[i].anchoredBatch.value;
      if other != b {
        assert w'.records[i] == w.records[i] && w.records[i] in w.records;
        assert Agrees(k, w, other);
        OtherBatchesUntouched(w.records, job.ids, b, other);
      }
    }
  }

  lemma SameDataKeepsMarks(k: Keccak, w: World, w': World)
    requires MarksAgree(k, w)
    requires w'.records == w.records && w'.batches == w.batches && w'.chain == w.chain
    ensures MarksAgree(k, w')
  {
  }

  /** The two row writes of a tick, the failed attempt and the anchored batch, touch no marked batch. */
  lemma RecordingKeepsMarks(k: Keccak, w: World, row: BatchRow, next: Phase)
    requires Inv(k, w)
    requires w.phase.GaveUp? || w.phase.Confirmed?
    ensures MarksAgree(k, w.(batches := w.batches[w.phase.batchId := row], phase := next))
  {
  }

  lemma StepKeepsBase(cfg: Config, k: Keccak, w: World, e: Event)
    requires Base(k, w)
    ensures Base(k, Next(cfg, k, w, e))
  {
    hide TableOk, WellFormed, Insert, Exec, Mark, LoadStep;
    match (e, w.phase) {
      case (Arrive(r), _) =>
        if CanArrive(w, r) { ArrivalKeepsBase(k, w, r); }
      case (ContractCall(c), _) => ContractCallKeepsBase(k, w, c);
      case (Load(due), Idle) => LoadKeepsBase(cfg, k, w, due);
      case (RecordsMarked, Recorded(job, b)) => MarkKeepsTable(w.records, job.ids, b);
      case _ =>
    }
  }

  lemma StepKeepsMarks(cfg: Config, k: Keccak, w: World, e: Event)
    requires Inv(k, w) && NoZeroJob(Next(cfg, k, w, e))
    ensures MarksAgree(k, Next(cfg, k, w, e)) && Unused(Next(cfg, k, w, e))
  {
    hide MarksAgree, TableOk, WellFormed, JobCurrent, Insert, Exec, Mark;
    match (e, w.phase) {
      case (Arrive(r), _) =>
        if CanArrive(w, r) { ArrivalKeepsMarks(k, w, r); }
      case (ContractCall(c), _) => ContractCallKeepsMarks(k, w, c);
      case (FailureRecorded, GaveUp(job, b)) =>
        if job.ids != {} { RecordingKeepsMarks(k, w, BatchRow(job.root, |job.leaves|, Failed), Idle); }
      case (SuccessRecorded, Confirmed(job, b)) =>
        if job.ids != {} { RecordingKeepsMarks(k, w, BatchRow(job.root, |job.leaves|, Anchored), Recorded(job, b)); }
      case (RecordsMarked, Recorded(job, b)) => MarkingKeepsMarks(k, w);
      case _ =>
        NextIdIsUnused(k, w);
        SameDataKeepsMarks(k, w, Next(cfg, k, w, e));
    }
  }

  lemma StepKeepsInv(cfg: Config, k: Keccak, w: World, e: Event)
    requires Inv(k, w) && NoZeroJob(Next(cfg, k, w, e))
    ensures Inv(k, Next(cfg, k, w, e))
  {
    hide Base, MarksAgree, Unused, Next;
    StepKeepsBase(cfg, k, w, e);
    StepKeepsMarks(cfg, k, w, e);
  }

  lemma {:induction false} RunKeepsBase(cfg: Config, k: Keccak, w: World, es: seq<Event>)
    requires Base(k, w)
    ensures Base(k, Run(cfg, k, w, es))
    decreases |es|
  {
    hide Base, Next;
    if es != [] {
      StepKeepsBase(cfg, k, w, es[0]);
      RunKeepsBase(cfg, k, Next(cfg, k, w, es[0]), es[1..]);
    }
  }

  lemma {:induction false} RunKeepsInv(cfg: Config, k: Keccak, w: World, es: seq<Event>)
    requires Inv(k, w) && NoZeroRoot(cfg, k, w, es)
    ensures Inv(k, Run(cfg, k, w, es))
    decreases |es|
  {
    hide Inv, Next;
    if es != [] {
      StepKeepsInv(cfg, k, w, es[0]);
      RunKeepsInv(cfg, k, Next(cfg, k, w, es[0]), es[1..]);
    }
  }

  lemma FreshIsSound(k: Keccak, owner: Address, signer: Address)
    ensures Inv(k, Fresh(owner, signer))
  {
  }

  // -------------------------------------------------------------- zero roots

  /** The leaves of the first zero root a run computes. */
  function ZeroLeaves(cfg: Config, k: Keccak, w: World, es: seq<Event>): seq<Digest>
    requires !NoZeroRoot(cfg, k, w, es)
    decreases |es|
  {
    var w' := Next(cfg, k, w, es[0]);
    if NoZeroJob(w') then ZeroLeaves(cfg, k, w', es[1..]) else w'.phase.job.leaves
  }

  /** A zero event hash in a batch of its own, or a pair of nodes that the hash takes to zero. */
  predicate YieldsZero(k: Keccak, leaves: seq<Digest>) {
    leaves == [ZERO_DIGEST] || (|leaves| > 1 && k(TopPair(k, leaves)) == ZERO_DIGEST)
  }

  lemma ZeroRootHasPreimage(k: Keccak, leaves: seq<Digest>)
    requires leaves != [] && Root(k, leaves) == ZERO_DIGEST
    ensures YieldsZero(k, leaves)
  {
    if |leaves| > 1 {
      RootIsHashOfTopPair(k, leaves);
    }
  }

  lemma {:induction false} ZeroRootIsComputed(cfg: Config, k: Keccak, w: World, es: seq<Event>)
    requires Base(k, w) && !NoZeroRoot(cfg, k, w, es)
    ensures YieldsZero(k, ZeroLeaves(cfg, k, w, es))
    decreases |es|
  {
    hide Next, WellFormed, TableOk, YieldsZero;
    var w' := Next(cfg, k, w, es[0]);
    StepKeepsBase(cfg, k, w, es[0]);
    if NoZeroJob(w') {
      ZeroRootIsComputed(cfg, k, w', es[1..]);
    } else {
      ZeroRootHasPreimage(k, w'.phase.job.leaves);
    }
  }

  /**
    Over every run from a fresh deployment, at every point of every tick: whatever batch a record
    is marked with, the contract, the batch row and the marked records themselves agree on its
    root; or the run has computed an input that the hash takes to zero, which is named.
   */
  lemma EveryReachableStateAgrees(cfg: Config, k: Keccak, owner: Address, signer: Address, es: seq<Event>)
    ensures Base(k, Run(cfg, k, Fresh(owner, signer), es))
    ensures NoZeroRoot(cfg, k, Fresh(owner, signer), es) ==> Inv(k, Run(cfg, k, Fresh(owner, signer), es))
    ensures !NoZeroRoot(cfg, k, Fresh(owner, signer), es) ==>
              YieldsZero(k, ZeroLeaves(cfg, k, Fresh(owner, signer), es))
  {
    hide Base, MarksAgree, Unused, Run, NoZeroRoot;
    FreshIsSound(k, owner, signer);
    RunKeepsBase(cfg, k, Fresh(owner, signer), es);
    if NoZeroRoot(cfg, k, Fresh(owner, signer), es) {
      RunKeepsInv(cfg, k, Fresh(owner, signer), es);
    } else {
      ZeroRootIsComputed(cfg, k, Fresh(owner, signer), es);
    }
  }

  lemma {:induction false} RunSplits(cfg: Config, k: Keccak, w: World, es: seq<Event>, i: nat)
    requires i <= |es|
    ensures Run(cfg, k, w, es) == Run(cfg, k, Run(cfg, k, w, es[..i]), es[i..])
    decreases i
  {
    if i > 0 {
      RunSplits(cfg, k, Next(cfg, k, w, es[0]), es[1..], i - 1);
      assert es[..i][1..] == es[1..][..i - 1] && es[1..][i - 1..] == es[i..];
    }
  }

  lemma {:induction false} NoZeroRootSplits(cfg: Config, k: Keccak, w: World, es: seq<Event>, i: nat)
    requires i <= |es|
    ensures NoZeroRoot(cfg, k, w, es) <==>
            NoZeroRoot(cfg, k, w, es[..i]) && NoZeroRoot(cfg, k, Run(cfg, k, w, es[..i]), es[i..])
    decreases i
  {
    hide Next;
    if i > 0 {
      NoZeroRootSplits(cfg, k, Next(cfg, k, w, es[0]), es[1..], i - 1);
      assert es[..i][1..] == es[1..][..i - 1] && es[1..][i - 1..] == es[i..];
    }
  }
}
