/** What the anchoring protocol guarantees to auditors, over whole runs. */
module AnchoringResults {
  import opened Wrappers
  import opened Hashing
  import opened Merkle
  import opened AuditAnchor
  import opened AuditTable
  import opened Anchoring

  // ------------------------------------------------------------- record_proof

  datatype ProofError = RecordNotFound | NotAnchoredYet | BatchNotFound

  datatype ProofBundle = ProofBundle(
    leaf: Digest,
    root: Digest,
    batchId: nat,
    proof: seq<Step>,
    verified: bool)

  /** First stored row with this id in the caller's organisation. */
  function Find(t: seq<Record>, id: RecordId, org: string): Option<Record> {
    if t == [] then None
    else if t[0].id == id && t[0].org == org then Some(t[0])
    else Find(t[1..], id, org)
  }

  function FirstIndex(hashes: seq<Digest>, h: Digest): (i: nat)
    requires h in hashes
    ensures i < |hashes| && hashes[i] == h
  {
    if hashes[0] == h then 0 else 1 + FirstIndex(hashes[1..], h)
  }

  lemma {:induction false} MarkedHashIsInBatch(t: seq<Record>, r: Record, b: nat)
    requires r in t && r.anchoredBatch == Some(b)
    ensures r.eventHash in Hashes(Where(t, InBatch(b)))
  {
    WhereMembers(t, InBatch(b));
    var rows := Where(t, InBatch(b));
    var i :| 0 <= i < |rows| && rows[i] == r;
    assert Hashes(rows)[i] == r.eventHash;
  }

  lemma {:induction false} FindReturnsRow(t: seq<Record>, id: RecordId, org: string)
    ensures var found := Find(t, id, org);
            found.Some? ==> found.value in t && found.value.id == id && found.value.org == org
    ensures UniqueIds(t) ==> forall r <- t :: r.id == id && r.org == org ==> Find(t, id, org) == Some(r)
  {
    if t != [] {
      FindReturnsRow(t[1..], id, org);
    }
  }

  /** GET /v1/audit/records/{id}/proof. */
  function RecordProof(k: Keccak, w: World, id: RecordId, org: string): Result<ProofBundle, ProofError> {
    var record := Find(w.records, id, org);
    if record.None? then Err(RecordNotFound)
    else if record.value.anchoredBatch.None? then Err(NotAnchoredYet)
    else if record.value.anchoredBatch.value !in w.batches then Err(BatchNotFound)
    else
      var r, b := record.value, record.value.anchoredBatch.value;
      FindReturnsRow(w.records, id, org);
      MarkedHashIsInBatch(w.records, r, b);
      var leaves := BatchLeaves(w, b);
      var index := FirstIndex(leaves, r.eventHash);
      var proof := Proof(k, leaves, index);
      var root := w.batches[b].merkleRoot;
      Ok(ProofBundle(r.eventHash, root, b, proof, Accepts(k, r.eventHash, proof, root)))
  }

  /** An organisation is told "not found" exactly for what is no record of its own. */
  lemma OthersRecordsAreNotFound(k: Keccak, w: World, id: RecordId, org: string)
    ensures RecordProof(k, w, id, org) == Err(RecordNotFound) <==>
              forall r <- w.records :: r.id != id || r.org != org
  {
    hide Proof, Fold;
    FindReturnsRow(w.records, id, org);
    NotFound(w.records, id, org);
  }

  lemma {:induction false} NotFound(t: seq<Record>, id: RecordId, org: string)
    ensures Find(t, id, org).None? <==> forall r <- t :: r.id != id || r.org != org
  {
    if t != [] {
      NotFound(t[1..], id, org);
      assert t == [t[0]] + t[1..];
    }
  }

  /**
    For a stored record the answer fails exactly if it is not anchored or its batch row is missing;
    otherwise it serves the generated proof of the record's leaf and the root of the batch row, and
    says whether the two fit.
   */
  lemma ProofInFull(k: Keccak, w: World, r: Record)
    requires UniqueIds(w.records) && r in w.records
    ensures var answer := RecordProof(k, w, r.id, r.org);
            match r.anchoredBatch
            case None => answer == Err(NotAnchoredYet)
            case Some(b) =>
              if b !in w.batches then answer == Err(BatchNotFound)
              else
                var leaves := Hashes(Where(w.records, InBatch(b)));
                && answer.Ok? && answer.value.batchId == b
                && answer.value.leaf == r.eventHash && answer.value.root == w.batches[b].merkleRoot
                && (exists i | 0 <= i < |leaves| ::
                      leaves[i] == r.eventHash && answer.value.proof == Proof(k, leaves, i))
                && (answer.value.verified <==> Fold(k, r.eventHash, answer.value.proof) == w.batches[b].merkleRoot)
  {
    hide Proof, Fold, UniqueIds;
    FindReturnsRow(w.records, r.id, r.org);
    if r.anchoredBatch.Some? && r.anchoredBatch.value in w.batches {
      var leaves := BatchLeaves(w, r.anchoredBatch.value);
      MarkedHashIsInBatch(w.records, r, r.anchoredBatch.value);
      assert leaves[FirstIndex(leaves, r.eventHash)] == r.eventHash;
    }
  }

  /** The record's proof is served and verifies, against the root the contract holds. */
  predicate Verifies(k: Keccak, w: World, r: Record) {
    var answer := RecordProof(k, w, r.id, r.org);
    && answer.Ok?
    && answer.value.leaf == r.eventHash
    && answer.value.verified
    && r.anchoredBatch == Some(answer.value.batchId)
    && answer.value.root == GetBatchRoot(w.chain, answer.value.batchId)
  }

  lemma MarkedRecordVerifies(k: Keccak, w: World, r: Record)
    requires Inv(k, w) && r in w.records && r.anchoredBatch.Some?
    ensures Verifies(k, w, r)
  {
    FindReturnsRow(w.records, r.id, r.org);
    var b := r.anchoredBatch.value;
    assert Agrees(k, w, b);
    MarkedHashIsInBatch(w.records, r, b);
    var leaves := BatchLeaves(w, b);
    GeneratedProofVerifies(k, leaves, FirstIndex(leaves, r.eventHash));
  }

  /**
    In every reachable state every marked record gets a proof, it verifies, and it verifies
    against the root the contract holds: neither a failed attempt nor a crash between the
    chain write, the batch row and the marks can break it. A run that breaks it has computed
    an input that the hash takes to zero.
   */
  lemma EveryMarkedRecordVerifies(
      cfg: Config, k: Keccak, owner: Address, signer: Address, es: seq<Event>, r: Record)
    requires r in Run(cfg, k, Fresh(owner, signer), es).records && r.anchoredBatch.Some?
    ensures Verifies(k, Run(cfg, k, Fresh(owner, signer), es), r)
         || (!NoZeroRoot(cfg, k, Fresh(owner, signer), es)
             && YieldsZero(k, ZeroLeaves(cfg, k, Fresh(owner, signer), es)))
  {
    hide Inv, Run, NoZeroRoot, Verifies;
    EveryReachableStateAgrees(cfg, k, owner, signer, es);
    if NoZeroRoot(cfg, k, Fresh(owner, signer), es) {
      MarkedRecordVerifies(k, Run(cfg, k, Fresh(owner, signer), es), r);
    }
  }

  /** The resolve read takes "never anchored" for a zero root. */
  lemma ZeroRootIsTakenForAnchored(cfg: Config, k: Keccak, w: World)
    requires WellFormed(w.chain) && w.phase.Resolving?
    ensures var w' := Next(cfg, k, w, RootResolved(true));
            w'.phase.Confirmed? && w'.phase.batchId !in w'.chain.roots
            <==> w.phase.job.root == ZERO_DIGEST && w.phase.batchId !in w.chain.roots
  {
  }

  /** A tick whose one submission is refused, and whose resolve read succeeds. */
  const REFUSED_TICK: seq<Event> :=
    [Load(true), LastIdRead, SubmitRaised, RootResolved(true), SuccessRecorded, RecordsMarked]

  lemma RefusedTickStarts(cfg: Config, k: Keccak, w: World)
    requires WellFormed(w.chain) && w.phase.Idle? && FirstPending(cfg, w) != []
    ensures var job, b := NewJob(k, FirstPending(cfg, w)), w.chain.last + 1;
            Run(cfg, k, w, REFUSED_TICK[..4]) ==
            w.(phase := if job.root == ZERO_DIGEST then Confirmed(job, b) else NotAnchored(cfg, job, 1, b))
  {
    hide Run, FirstPending;
    var job, b := NewJob(k, FirstPending(cfg, w)), w.chain.last + 1;
    assert REFUSED_TICK[..4] == [Load(true), LastIdRead, SubmitRaised, RootResolved(true)];
    RunOfFour(cfg, k, w, Load(true), LastIdRead, SubmitRaised, RootResolved(true));
    LoadStarts(cfg, k, w);
    NextIdReadsZero(w.chain);
    var w1 := w.(phase := ReadingLastId(job, 1));
    assert Next(cfg, k, w1, LastIdRead) == w.(phase := Submitting(job, 1, b));
    assert Next(cfg, k, w.(phase := Submitting(job, 1, b)), SubmitRaised) == w.(phase := Resolving(job, 1, b));
  }

  lemma NothingToRecord(cfg: Config, k: Keccak, w: World)
    requires w.phase.ReadingLastId? || w.phase.GaveUp?
    ensures Run(cfg, k, w, [SuccessRecorded, RecordsMarked]) == w
  {
    hide Run;
    RunOfTwo(cfg, k, w, SuccessRecorded, RecordsMarked);
  }

  /** The records keep their old marks if the tick gives up, and are marked with an id not on the chain otherwise. */
  lemma RefusedTickEnds(cfg: Config, k: Keccak, w: World)
    requires WellFormed(w.chain) && w.phase.Idle? && FirstPending(cfg, w) != []
    ensures RefusedTickLeaves(cfg, w, Run(cfg, k, w, REFUSED_TICK), NewJob(k, FirstPending(cfg, w)))
  {
    hide Run, RefusedTickLeaves, FirstPending;
    JobsHaveIds(k, FirstPending(cfg, w));
    RefusedTickSplits(cfg, k, w);
    RefusedTickStarts(cfg, k, w);
    RefusedJobEnds(cfg, k, w, NewJob(k, FirstPending(cfg, w)));
  }

  lemma RefusedTickSplits(cfg: Config, k: Keccak, w: World)
    ensures Run(cfg, k, w, REFUSED_TICK) ==
      Run(cfg, k, Run(cfg, k, w, REFUSED_TICK[..4]), [SuccessRecorded, RecordsMarked])
  {
    hide Run;
    assert REFUSED_TICK == REFUSED_TICK[..4] + [SuccessRecorded, RecordsMarked];
    RunConcat(cfg, k, w, REFUSED_TICK[..4], [SuccessRecorded, RecordsMarked]);
  }

  ghost predicate RefusedTickLeaves(cfg: Config, w: World, w': World, job: Job) {
    && w'.chain == w.chain && w.chain.last + 1 !in w'.chain.roots
    && w'.records == (if job.root == ZERO_DIGEST then Mark(w.records, job.ids, w.chain.last + 1) else w.records)
    && (job.root != ZERO_DIGEST ==> w'.batches == w.batches)
  }

  lemma RefusedJobEnds(cfg: Config, k: Keccak, w: World, job: Job)
    requires WellFormed(w.chain) && job.ids != {}
    ensures var b := w.chain.last + 1;
            var resolved := w.(phase := if job.root == ZERO_DIGEST then Confirmed(job, b)
              else NotAnchored(cfg, job, 1, b));
            RefusedTickLeaves(cfg, w, Run(cfg, k, resolved, [SuccessRecorded, RecordsMarked]), job)
  {
    hide Run, Mark, Next;
    var b := w.chain.last + 1;
    if job.root == ZERO_DIGEST {
      FinishTick(cfg, k, w.(phase := Confirmed(job, b)));
    } else {
      NothingToRecord(cfg, k, w.(phase := NotAnchored(cfg, job, 1, b)));
    }
  }

  /**
    The hypothesis on zero roots is needed, in every state with something to load: whether a
    refused submission can leave records marked with a batch the contract never saw depends on
    the root alone.
   */
  lemma ZeroRootMarksUnanchored(cfg: Config, k: Keccak, w: World)
    requires Inv(k, w) && w.phase.Idle? && FirstPending(cfg, w) != []
    ensures MarksAgree(k, Run(cfg, k, w, REFUSED_TICK)) <==> Root(k, Hashes(FirstPending(cfg, w))) != ZERO_DIGEST
  {
    hide Run, FirstPending, MarksAgree, WellFormed, TableOk, PhaseOk, Unused;
    RefusedTickEnds(cfg, k, w);
    RefusedTickMarks(cfg, k, w, Run(cfg, k, w, REFUSED_TICK));
  }

  lemma RefusedTickMarks(cfg: Config, k: Keccak, w: World, w': World)
    requires MarksAgree(k, w) && FirstPending(cfg, w) != []
    requires RefusedTickLeaves(cfg, w, w', NewJob(k, FirstPending(cfg, w)))
    ensures MarksAgree(k, w') <==> NewJob(k, FirstPending(cfg, w)).root != ZERO_DIGEST
  {
    hide FirstPending, MarksAgree, NoneMarked, Root, Hashes;
    if NewJob(k, FirstPending(cfg, w)).root == ZERO_DIGEST {
      SomethingIsMarked(cfg, w, w.chain.last + 1);
      MarkedOffChain(k, w', w.chain.last + 1);
    } else {
      SameDataKeepsMarks(k, w, w');
    }
  }

  lemma SomethingIsMarked(cfg: Config, w: World, b: nat)
    requires FirstPending(cfg, w) != []
    ensures !NoneMarked(Mark(w.records, Ids(FirstPending(cfg, w)), b), b)
  {
    var loaded := FirstPending(cfg, w);
    var pending := Where(w.records, Pending);
    assert loaded[0] == pending[0] && pending[0] in pending;
    WhereMembers(w.records, Pending);
    var i :| 0 <= i < |w.records| && w.records[i] == loaded[0];
    var t := Mark(w.records, Ids(loaded), b);
    assert t[i] in t && t[i].anchoredBatch == Some(b);
  }

  lemma MarkedOffChain(k: Keccak, w: World, b: nat)
    requires b !in w.chain.roots && !NoneMarked(w.records, b)
    ensures !MarksAgree(k, w)
  {
    assert !Agrees(k, w, b);
  }

  // ------------------------------------------------- nothing is lost or undone

  /** The same event, possibly marked since. */
  predicate SameEvent(r: Record, r': Record) {
    && r' == r.(anchoredBatch := r'.anchoredBatch)
    && (r.anchoredBatch.Some? ==> r' == r)
  }

  ghost predicate Kept(t: seq<Record>, t': seq<Record>) {
    forall r <- t :: exists r' <- t' :: SameEvent(r, r')
  }

  lemma StepKeepsRecords(cfg: Config, k: Keccak, w: World, e: Event)
    requires Base(k, w)
    ensures Kept(w.records, Next(cfg, k, w, e).records)
  {
    var w' := Next(cfg, k, w, e);
    if e.Arrive? && CanArrive(w, e.record) {
      InsertMembers(w.records, e.record);
      assert forall r <- w.records :: r in w'.records && SameEvent(r, r);
    } else if e.RecordsMarked? && w.phase.Recorded? {
      forall i | 0 <= i < |w.records|
        ensures exists r' <- w'.records :: SameEvent(w.records[i], r')
      {
        assert w.records[i] in w.records;
        assert w'.records[i] in w'.records && SameEvent(w.records[i], w'.records[i]);
      }
    } else {
      assert forall r <- w.records :: r in w'.records && SameEvent(r, r);
    }
  }

  lemma KeptIsTransitive(t0: seq<Record>, t1: seq<Record>, t2: seq<Record>)
    requires Kept(t0, t1) && Kept(t1, t2)
    ensures Kept(t0, t2)
  {
  }

  /** Records, marks and anchored batches only ever accumulate. */
  lemma {:induction false} RunKeepsHistory(cfg: Config, k: Keccak, w: World, es: seq<Event>)
    requires Base(k, w)
    ensures Kept(w.records, Run(cfg, k, w, es).records)
    ensures Extends(w.chain, Run(cfg, k, w, es).chain)
    decreases |es|
  {
    hide Base, Next, Kept, Extends;
    if es == [] {
      NothingChanges(w);
    } else {
      var w' := Next(cfg, k, w, es[0]);
      StepKeepsBase(cfg, k, w, es[0]);
      StepKeepsRecords(cfg, k, w, es[0]);
      StepExtendsChain(cfg, k, w, es[0]);
      RunKeepsHistory(cfg, k, w', es[1..]);
      KeptIsTransitive(w.records, w'.records, Run(cfg, k, w, es).records);
      ExtendsIsTransitive(w.chain, w'.chain, Run(cfg, k, w, es).chain);
    }
  }

  lemma NothingChanges(w: World)
    ensures Kept(w.records, w.records) && Extends(w.chain, w.chain)
  {
    assert forall r <- w.records :: SameEvent(r, r);
  }

  lemma StepExtendsChain(cfg: Config, k: Keccak, w: World, e: Event)
    requires Base(k, w)
    ensures Extends(w.chain, Next(cfg, k, w, e).chain)
  {
    if e.ContractCall? {
      CallKeepsHistory(w.chain, e.call);
    }
  }

  lemma ExtendsIsTransitive(a: Ledger, b: Ledger, c: Ledger)
    requires Extends(a, b) && Extends(b, c)
    ensures Extends(a, c)
  {
  }

  /**
    No record is ever dropped or altered, and a mark, once set, is never removed or
    changed: from any point of any run to any later point.
   */
  lemma RecordsAndMarksAreForever(
      cfg: Config, k: Keccak, owner: Address, signer: Address, es: seq<Event>, i: nat)
    requires i <= |es|
    ensures Kept(Run(cfg, k, Fresh(owner, signer), es[..i]).records, Run(cfg, k, Fresh(owner, signer), es).records)
  {
    hide Base, Run, Kept;
    var w := Run(cfg, k, Fresh(owner, signer), es[..i]);
    EveryReachableStateAgrees(cfg, k, owner, signer, es[..i]);
    RunKeepsHistory(cfg, k, w, es[i..]);
    RunSplits(cfg, k, Fresh(owner, signer), es, i);
  }

  // ------------------------------------------------------------- exactly once

  /** The ids above `since` that carry `root`. */
  function Copies(l: Ledger, since: nat, root: Digest): set<nat> {
    set id <- l.roots | id > since && l.roots[id] == root
  }

  predicate InDoubt(w: World) { w.phase.Submitting? || w.phase.Verifying? || w.phase.Resolving? }

  /**
    A step inside one flush of `root` in which an errored submission does not land after its
    resolve check, and that check can be read. Anybody may anchor other roots meanwhile.
   */
  predicate Undisturbed(w: World, e: Event, root: Digest) {
    match e
    case ContractCall(AnchorBatch(_, id, r, _)) => r == root ==> InDoubt(w) && id == w.phase.batchId
    case ContractCall(_) => true
    case RootResolved(readOk) => readOk
    case Arrive(_) => true
    case LastIdRead => true
    case SubmitReturned => true
    case SubmitRaised => true
    case RootVerified => true
    case _ => false
  }

  predicate UndisturbedRun(cfg: Config, k: Keccak, w: World, es: seq<Event>, root: Digest)
    decreases |es|
  {
    es == [] || (Undisturbed(w, es[0], root) && UndisturbedRun(cfg, k, Next(cfg, k, w, es[0]), es[1..], root))
  }

  /** Where a flush stands with respect to the copies of its root. */
  ghost predicate CopiesMatchPhase(w: World, since: nat, job: Job) {
    var copies := Copies(w.chain, since, job.root);
    && since <= w.chain.last
    && !w.phase.Idle? && w.phase.job == job
    && match w.phase
       case ReadingLastId(_, _) => copies == {}
       case Submitting(_, _, b) => copies <= {b} && since < b
       case Verifying(_, _, b) => copies <= {b} && since < b
       case Resolving(_, _, b) => copies <= {b} && since < b
       case GaveUp(_, _) => copies == {}
       case Confirmed(_, b) => copies == {b}
       case Recorded(_, _) => false
  }

  lemma UndisturbedStep(cfg: Config, k: Keccak, w: World, e: Event, since: nat, job: Job)
    requires Inv(k, w)
    requires CopiesMatchPhase(w, since, job)
    requires Undisturbed(w, e, job.root)
    ensures CopiesMatchPhase(Next(cfg, k, w, e), since, job)
  {
    if e.ContractCall? {
      CallKeepsHistory(w.chain, e.call);
    }
  }

  lemma {:induction false} UndisturbedRunKeepsCopies(
      cfg: Config, k: Keccak, w: World, es: seq<Event>, since: nat, job: Job)
    requires Inv(k, w)
    requires CopiesMatchPhase(w, since, job)
    requires UndisturbedRun(cfg, k, w, es, job.root)
    ensures CopiesMatchPhase(Run(cfg, k, w, es), since, job)
    decreases |es|
  {
    if es != [] {
      UndisturbedStep(cfg, k, w, es[0], since, job);
      StepKeepsInv(cfg, k, w, es[0]);
      UndisturbedRunKeepsCopies(cfg, k, Next(cfg, k, w, es[0]), es[1..], since, job);
    }
  }

  /**
    Exactly-once when undisturbed: a flush that confirms leaves exactly one new batch with
    its root, the confirmed one; a flush that gives up leaves none.
   */
  lemma UndisturbedFlushAnchorsOnce(cfg: Config, k: Keccak, w: World, es: seq<Event>)
    requires Inv(k, w) && w.phase.ReadingLastId?
    requires UndisturbedRun(cfg, k, w, es, w.phase.job.root)
    ensures var w' := Run(cfg, k, w, es);
            var copies := Copies(w'.chain, w.chain.last, w.phase.job.root);
            && (w'.phase.Confirmed? ==> copies == {w'.phase.batchId})
            && (w'.phase.GaveUp? ==> copies == {})
  {
    UndisturbedRunKeepsCopies(cfg, k, w, es, w.chain.last, w.phase.job);
  }

  /**
    At-least-once, always: in whatever way the flush of a non-zero root ends in confirmation, the
    chain holds that root.
   */
  lemma ConfirmedFlushIsAnchored(cfg: Config, k: Keccak, w: World, es: seq<Event>)
    requires Base(k, w)
    ensures var w' := Run(cfg, k, w, es);
            w'.phase.Confirmed? && w'.phase.job.root != ZERO_DIGEST ==>
              w'.phase.batchId in w'.chain.roots && w'.chain.roots[w'.phase.batchId] == w'.phase.job.root
  {
    hide Run;
    RunKeepsBase(cfg, k, w, es);
  }

  // ------------------------------------------------------ how often it is tried

  /** The flush has neither ended nor been cut off at any point of the run. */
  predicate StaysInFlush(cfg: Config, k: Keccak, w: World, es: seq<Event>)
    decreases |es|
  {
    && !w.phase.Idle? && !w.phase.Recorded?
    && (es == [] || StaysInFlush(cfg, k, Next(cfg, k, w, es[0]), es[1..]))
  }

  /** How many submissions a run goes on to. */
  function Submissions(cfg: Config, k: Keccak, w: World, es: seq<Event>): nat
    decreases |es|
  {
    if es == [] then 0
    else
      var w' := Next(cfg, k, w, es[0]);
      (if !w.phase.Submitting? && w'.phase.Submitting? then 1 else 0) + Submissions(cfg, k, w', es[1..])
  }

  predicate Tried(p: Phase) { p.Submitting? || p.Verifying? || p.Resolving? }

  /** Submissions made in the flush so far, by the attempt that it is in. */
  function Made(p: Phase): int
    requires p.ReadingLastId? || Tried(p)
  {
    if p.ReadingLastId? then p.attempt - 1 else p.attempt
  }

  lemma {:induction false} EndedFlushSubmitsNothing(cfg: Config, k: Keccak, w: World, es: seq<Event>)
    requires (w.phase.GaveUp? || w.phase.Confirmed?) && StaysInFlush(cfg, k, w, es)
    ensures Submissions(cfg, k, w, es) == 0 && Run(cfg, k, w, es).phase == w.phase
    decreases |es|
  {
    hide Insert, Exec;
    if es != [] {
      EndedFlushSubmitsNothing(cfg, k, Next(cfg, k, w, es[0]), es[1..]);
    }
  }

  lemma {:induction false} AttemptsAddUp(cfg: Config, k: Keccak, w: World, es: seq<Event>)
    requires (w.phase.ReadingLastId? || Tried(w.phase)) && StaysInFlush(cfg, k, w, es)
    requires 1 <= w.phase.attempt <= cfg.maxAttempts
    ensures var n := Made(w.phase) + Submissions(cfg, k, w, es);
            var p := Run(cfg, k, w, es).phase;
            && n <= cfg.maxAttempts
            && (p.GaveUp? ==> n == cfg.maxAttempts)
            && (p.Confirmed? ==> n >= 1)
    decreases |es|
  {
    hide Insert, Exec, GetBatchRoot;
    if es != [] {
      var w' := Next(cfg, k, w, es[0]);
      if w'.phase.ReadingLastId? || Tried(w'.phase) {
        AttemptsAddUp(cfg, k, w', es[1..]);
      } else {
        EndedFlushSubmitsNothing(cfg, k, w', es[1..]);
      }
    }
  }

  /**
    A flush submits at most as often as it may, and gives up only when it has; it confirms nothing
    it has not submitted.
   */
  lemma FlushUsesItsAttempts(cfg: Config, k: Keccak, w: World, es: seq<Event>)
    requires w.phase.ReadingLastId? && w.phase.attempt == 1 && cfg.maxAttempts > 0
    requires StaysInFlush(cfg, k, w, es)
    ensures var p := Run(cfg, k, w, es).phase;
            && Submissions(cfg, k, w, es) <= cfg.maxAttempts
            && (p.GaveUp? ==> Submissions(cfg, k, w, es) == cfg.maxAttempts)
            && (p.Confirmed? ==> Submissions(cfg, k, w, es) >= 1)
  {
    hide Run, Submissions, StaysInFlush;
    AttemptsAddUp(cfg, k, w, es);
  }

  lemma RunOfFour(cfg: Config, k: Keccak, w: World, a: Event, b: Event, c: Event, d: Event)
    ensures Run(cfg, k, w, [a, b, c, d]) == Next(cfg, k, Next(cfg, k, Next(cfg, k, Next(cfg, k, w, a), b), c), d)
  {
    hide Next;
    var es := [a, b, c, d];
    assert es[1..] == [b, c, d];
    assert [b, c, d][1..] == [c, d];
    assert [c, d][1..] == [d];
    var w1 := Next(cfg, k, w, a);
    var w2 := Next(cfg, k, w1, b);
    var w3 := Next(cfg, k, w2, c);
    assert Run(cfg, k, w, es) == Run(cfg, k, w1, [b, c, d]);
    assert Run(cfg, k, w1, [b, c, d]) == Run(cfg, k, w2, [c, d]);
    assert Run(cfg, k, w2, [c, d]) == Run(cfg, k, w3, [d]);
    assert [d][1..] == [];
    assert Run(cfg, k, w3, [d]) == Next(cfg, k, w3, d);
  }

  /** An attempt that errors, is resolved as not anchored, and lands afterwards. */
  function LateAttempt(w: World, root: Digest, signer: Address, now: nat): seq<Event> {
    [LastIdRead, SubmitRaised, RootResolved(true), ContractCall(AnchorBatch(signer, w.chain.last + 1, root, now))]
  }

  /** An attempt that lands and is confirmed. */
  function GoodAttempt(w: World, root: Digest, signer: Address, now: nat): seq<Event> {
    [LastIdRead, ContractCall(AnchorBatch(signer, w.chain.last + 1, root, now)), SubmitReturned, RootVerified]
  }

  function WithNewBatch(l: Ledger, root: Digest, now: nat): Ledger {
    l.(roots := l.roots[l.last + 1 := root], timestamps := l.timestamps[l.last + 1 := now], last := l.last + 1)
  }

  lemma NextIdReadsZero(l: Ledger)
    requires WellFormed(l)
    ensures GetBatchRoot(l, l.last + 1) == ZERO_DIGEST
  {
  }

  lemma LateAttemptEffect(cfg: Config, k: Keccak, w: World, signer: Address, now: nat)
    requires w.phase.ReadingLastId? && w.phase.attempt < cfg.maxAttempts && w.phase.job.root != ZERO_DIGEST
    requires GetBatchRoot(w.chain, w.chain.last + 1) == ZERO_DIGEST
    requires signer in w.chain.authorized && w.chain.last < UINT256_MAX
    ensures Run(cfg, k, w, LateAttempt(w, w.phase.job.root, signer, now))
         == w.(chain := WithNewBatch(w.chain, w.phase.job.root, now),
               phase := ReadingLastId(w.phase.job, w.phase.attempt + 1))
  {
    var job, n, id := w.phase.job, w.phase.attempt, w.chain.last + 1;
    var es := LateAttempt(w, job.root, signer, now);
    RunOfFour(cfg, k, w, es[0], es[1], es[2], es[3]);
    var w1 := w.(phase := Submitting(job, n, id));
    var w2 := w.(phase := Resolving(job, n, id));
    var w3 := w.(phase := ReadingLastId(job, n + 1));
    assert Next(cfg, k, w, es[0]) == w1;
    assert Next(cfg, k, w1, es[1]) == w2;
    assert Next(cfg, k, w2, es[2]) == w3;
  }

  lemma GoodAttemptEffect(cfg: Config, k: Keccak, w: World, signer: Address, now: nat)
    requires w.phase.ReadingLastId? && w.phase.job.root != ZERO_DIGEST
    requires signer in w.chain.authorized && w.chain.last < UINT256_MAX
    ensures Run(cfg, k, w, GoodAttempt(w, w.phase.job.root, signer, now))
         == w.(chain := WithNewBatch(w.chain, w.phase.job.root, now),
               phase := Confirmed(w.phase.job, w.chain.last + 1))
  {
    var job, n, id := w.phase.job, w.phase.attempt, w.chain.last + 1;
    var es := GoodAttempt(w, job.root, signer, now);
    RunOfFour(cfg, k, w, es[0], es[1], es[2], es[3]);
    var landed := WithNewBatch(w.chain, job.root, now);
    var w1 := w.(phase := Submitting(job, n, id));
    var w2 := w1.(chain := landed);
    var w3 := w2.(phase := Verifying(job, n, id));
    assert Next(cfg, k, w, es[0]) == w1;
    assert Next(cfg, k, w1, es[1]) == w2;
    assert Next(cfg, k, w2, es[2]) == w3;
  }

  lemma TwoNewBatches(l: Ledger, root: Digest, now: nat)
    requires WellFormed(l)
    ensures Copies(WithNewBatch(WithNewBatch(l, root, now), root, now), l.last, root) == {l.last + 1, l.last + 2}
  {
  }

  /**
    Without the condition the root can be anchored twice: the first submission lands after
    its resolve check, the retry then anchors the same root under the next id.
   */
  lemma LateLandingAnchorsTwice(cfg: Config, k: Keccak, w: World, signer: Address, now: nat)
    requires w.phase.ReadingLastId? && w.phase.attempt < cfg.maxAttempts
    requires WellFormed(w.chain) && w.phase.job.root != ZERO_DIGEST
    requires signer in w.chain.authorized && w.chain.last + 2 <= UINT256_MAX
    ensures var root := w.phase.job.root;
            var late := Run(cfg, k, w, LateAttempt(w, root, signer, now));
            var w' := Run(cfg, k, late, GoodAttempt(late, root, signer, now));
            w'.phase.Confirmed? && Copies(w'.chain, w.chain.last, root) == {w.chain.last + 1, w.chain.last + 2}
  {
    hide Run, LateAttempt, GoodAttempt, WithNewBatch, Copies;
    var root := w.phase.job.root;
    NextIdReadsZero(w.chain);
    LateAttemptEffect(cfg, k, w, signer, now);
    NewBatchIsLast(w.chain, root, now);
    GoodAttemptEffect(cfg, k, Run(cfg, k, w, LateAttempt(w, root, signer, now)), signer, now);
    TwoNewBatches(w.chain, root, now);
  }

  lemma NewBatchIsLast(l: Ledger, root: Digest, now: nat)
    ensures var l' := WithNewBatch(l, root, now);
            l'.last == l.last + 1 && l'.authorized == l.authorized
  {
  }

  /** An attempt that lands, errors, and whose resolve read fails. */
  function UnreadAttempt(w: World, root: Digest, signer: Address, now: nat): seq<Event> {
    [LastIdRead, ContractCall(AnchorBatch(signer, w.chain.last + 1, root, now)), SubmitRaised, RootResolved(false)]
  }

  lemma UnreadAttemptEffect(cfg: Config, k: Keccak, w: World, signer: Address, now: nat)
    requires w.phase.ReadingLastId? && w.phase.attempt < cfg.maxAttempts && w.phase.job.root != ZERO_DIGEST
    requires signer in w.chain.authorized && w.chain.last < UINT256_MAX
    ensures Run(cfg, k, w, UnreadAttempt(w, w.phase.job.root, signer, now))
         == w.(chain := WithNewBatch(w.chain, w.phase.job.root, now),
               phase := ReadingLastId(w.phase.job, w.phase.attempt + 1))
  {
    var job, n, id := w.phase.job, w.phase.attempt, w.chain.last + 1;
    var es := UnreadAttempt(w, job.root, signer, now);
    RunOfFour(cfg, k, w, es[0], es[1], es[2], es[3]);
    var w1 := w.(phase := Submitting(job, n, id));
    var w2 := w1.(chain := WithNewBatch(w.chain, job.root, now));
    var w3 := w2.(phase := Resolving(job, n, id));
    assert Next(cfg, k, w, es[0]) == w1;
    assert Next(cfg, k, w1, es[1]) == w2;
    assert Next(cfg, k, w2, es[2]) == w3;
  }

  /** The other half of the condition: landing in time does not help if the resolve read fails. */
  lemma FailedResolveAnchorsTwice(cfg: Config, k: Keccak, w: World, signer: Address, now: nat)
    requires w.phase.ReadingLastId? && w.phase.attempt < cfg.maxAttempts
    requires WellFormed(w.chain) && w.phase.job.root != ZERO_DIGEST
    requires signer in w.chain.authorized && w.chain.last + 2 <= UINT256_MAX
    ensures var root := w.phase.job.root;
            var unread := Run(cfg, k, w, UnreadAttempt(w, root, signer, now));
            var w' := Run(cfg, k, unread, GoodAttempt(unread, root, signer, now));
            w'.phase.Confirmed? && Copies(w'.chain, w.chain.last, root) == {w.chain.last + 1, w.chain.last + 2}
  {
    hide UnreadAttempt, GoodAttempt, Run;
    var root := w.phase.job.root;
    UnreadAttemptEffect(cfg, k, w, signer, now);
    GoodAttemptEffect(cfg, k, Run(cfg, k, w, UnreadAttempt(w, root, signer, now)), signer, now);
    TwoNewBatches(w.chain, root, now);
  }

  // ------------------------------------------------------------------- drain

  function PendingCount(w: World): nat { |Where(w.records, Pending)| }

  /** The steps of a due tick in which nothing fails and nothing else happens. */
  function HealthyTick(cfg: Config, k: Keccak, w: World, signer: Address, now: nat): seq<Event> {
    if FirstPending(cfg, w) == [] then [Load(true)]
    else
      [Load(true)]
      + GoodAttempt(w, Root(k, Hashes(FirstPending(cfg, w))), signer, now)
      + [SuccessRecorded, RecordsMarked]
  }

  lemma RunConcat(cfg: Config, k: Keccak, w: World, a: seq<Event>, b: seq<Event>)
    ensures Run(cfg, k, w, a + b) == Run(cfg, k, Run(cfg, k, w, a), b)
  {
    RunSplits(cfg, k, w, a + b, |a|);
    assert (a + b)[..|a|] == a && (a + b)[|a|..] == b;
  }

  lemma RunOne(cfg: Config, k: Keccak, w: World, e: Event)
    ensures Run(cfg, k, w, [e]) == Next(cfg, k, w, e)
  {
  }

  lemma RunOfTwo(cfg: Config, k: Keccak, w: World, a: Event, b: Event)
    ensures Run(cfg, k, w, [a, b]) == Next(cfg, k, Next(cfg, k, w, a), b)
  {
    hide Next;
    assert [a, b][1..] == [b] && [b][1..] == [];
    assert Run(cfg, k, w, [a, b]) == Run(cfg, k, Next(cfg, k, w, a), [b]);
  }

  lemma FinishTick(cfg: Config, k: Keccak, w: World)
    requires w.phase.Confirmed? && w.phase.job.ids != {}
    ensures var w' := Run(cfg, k, w, [SuccessRecorded, RecordsMarked]);
            && w'.records == Mark(w.records, w.phase.job.ids, w.phase.batchId)
            && w'.phase.Idle?
            && w'.chain == w.chain
  {
    hide Run;
    RunOfTwo(cfg, k, w, SuccessRecorded, RecordsMarked);
  }

  /** The batch of a tick stands for rows. */
  lemma JobsHaveIds(k: Keccak, loaded: seq<Record>)
    requires loaded != []
    ensures NewJob(k, loaded).ids != {}
  {
    assert loaded[0].id in Ids(loaded);
  }

  lemma LoadStarts(cfg: Config, k: Keccak, w: World)
    requires w.phase.Idle? && FirstPending(cfg, w) != []
    ensures Next(cfg, k, w, Load(true)) == w.(phase := ReadingLastId(NewJob(k, FirstPending(cfg, w)), 1))
  {
    hide FirstPending;
  }

  lemma RunOfThreeParts(cfg: Config, k: Keccak, w: World, a: seq<Event>, b: seq<Event>, c: seq<Event>)
    ensures Run(cfg, k, w, a + b + c) == Run(cfg, k, Run(cfg, k, Run(cfg, k, w, a), b), c)
  {
    hide Run;
    RunConcat(cfg, k, w, a + b, c);
    RunConcat(cfg, k, w, a, b);
  }

  lemma HealthyTickMarks(cfg: Config, k: Keccak, w: World, signer: Address, now: nat)
    requires w.phase.Idle?
    requires signer in w.chain.authorized && w.chain.last < UINT256_MAX
    requires FirstPending(cfg, w) != [] && NewJob(k, FirstPending(cfg, w)).root != ZERO_DIGEST
    ensures var w' := Run(cfg, k, w, HealthyTick(cfg, k, w, signer, now));
            && w'.records == Mark(w.records, Ids(FirstPending(cfg, w)), w.chain.last + 1)
            && w'.phase.Idle?
            && w'.chain == WithNewBatch(w.chain, Root(k, Hashes(FirstPending(cfg, w))), now)
  {
    hide Run, Next, GoodAttempt, WithNewBatch, FirstPending, Mark, Root, Hashes, Ids;
    var job := NewJob(k, FirstPending(cfg, w));
    var attempt := GoodAttempt(w, job.root, signer, now);
    RunOfThreeParts(cfg, k, w, [Load(true)], attempt, [SuccessRecorded, RecordsMarked]);
    RunOne(cfg, k, w, Load(true));
    LoadStarts(cfg, k, w);
    JobsHaveIds(k, FirstPending(cfg, w));
    SameAttempt(w, w.(phase := ReadingLastId(job, 1)), job.root, signer, now);
    LoadedTickMarks(cfg, k, w.(phase := ReadingLastId(job, 1)), signer, now);
  }

  lemma LoadedTickMarks(cfg: Config, k: Keccak, w: World, signer: Address, now: nat)
    requires w.phase.ReadingLastId? && w.phase.job.ids != {} && w.phase.job.root != ZERO_DIGEST
    requires signer in w.chain.authorized && w.chain.last < UINT256_MAX
    ensures var job := w.phase.job;
            var w' := Run(cfg, k, Run(cfg, k, w, GoodAttempt(w, job.root, signer, now)),
              [SuccessRecorded, RecordsMarked]);
            && w'.records == Mark(w.records, job.ids, w.chain.last + 1)
            && w'.phase.Idle?
            && w'.chain == WithNewBatch(w.chain, job.root, now)
  {
    hide Run, Next, GoodAttempt, WithNewBatch;
    GoodAttemptEffect(cfg, k, w, signer, now);
    FinishTick(cfg, k, Run(cfg, k, w, GoodAttempt(w, w.phase.job.root, signer, now)));
  }

  lemma SameAttempt(w: World, w': World, root: Digest, signer: Address, now: nat)
    requires w'.chain == w.chain
    ensures GoodAttempt(w, root, signer, now) == GoodAttempt(w', root, signer, now)
  {
  }

  lemma LoadedRowsLeavePending(cfg: Config, w: World, b: nat)
    requires UniqueIds(w.records)
    ensures |Where(Mark(w.records, Ids(FirstPending(cfg, w)), b), Pending)|
         == PendingCount(w) - |FirstPending(cfg, w)|
  {
    var loaded := FirstPending(cfg, w);
    LoadedRows(w.records, |loaded|);
    assert loaded == Where(w.records, Pending)[..|loaded|];
    WhereMembers(w.records, WithIds(Ids(loaded)));
    WhereMembers(w.records, Pending);
    forall r <- w.records | r.id in Ids(loaded)
      ensures r.anchoredBatch.None?
    {
      assert r in loaded;
    }
    MarkShrinksPending(w.records, Ids(loaded), b);
  }

  /** The batch a tick would load has a root other than the zero digest. */
  predicate LoadsNoZeroRoot(cfg: Config, k: Keccak, w: World) {
    FirstPending(cfg, w) == [] || Root(k, Hashes(FirstPending(cfg, w))) != ZERO_DIGEST
  }

  lemma HealthyTickHasNoZeroRoot(cfg: Config, k: Keccak, w: World, signer: Address, now: nat)
    requires w.phase.Idle? && LoadsNoZeroRoot(cfg, k, w)
    ensures NoZeroRoot(cfg, k, w, HealthyTick(cfg, k, w, signer, now))
  {
    var es := HealthyTick(cfg, k, w, signer, now);
    OnlyLoadsStartJobs(cfg, k, Next(cfg, k, w, es[0]), es[1..]);
  }

  /** Steps that do not start a flush submit no new root. */
  lemma {:induction false} OnlyLoadsStartJobs(cfg: Config, k: Keccak, w: World, es: seq<Event>)
    requires NoZeroJob(w) && forall e <- es :: !e.Load? && !e.FlushStarted?
    ensures NoZeroRoot(cfg, k, w, es)
    decreases |es|
  {
    if es != [] {
      OnlyLoadsStartJobs(cfg, k, Next(cfg, k, w, es[0]), es[1..]);
    }
  }

  lemma HealthyTickShrinks(cfg: Config, k: Keccak, w: World, signer: Address, now: nat)
    requires Inv(k, w) && w.phase.Idle? && LoadsNoZeroRoot(cfg, k, w)
    requires signer in w.chain.authorized && w.chain.last < UINT256_MAX
    ensures var w' := Run(cfg, k, w, HealthyTick(cfg, k, w, signer, now));
            && Inv(k, w') && w'.phase.Idle? && signer in w'.chain.authorized
            && w'.chain.last <= w.chain.last + 1
            && PendingCount(w') == if PendingCount(w) <= cfg.maxRecords then 0 else PendingCount(w) - cfg.maxRecords
  {
    hide Inv, GoodAttempt;
    HealthyTickHasNoZeroRoot(cfg, k, w, signer, now);
    RunKeepsInv(cfg, k, w, HealthyTick(cfg, k, w, signer, now));
    if FirstPending(cfg, w) == [] {
      RunOne(cfg, k, w, Load(true));
    } else {
      HealthyTickMarks(cfg, k, w, signer, now);
      InvMeansUniqueIds(k, w);
      LoadedRowsLeavePending(cfg, w, w.chain.last + 1);
    }
  }

  lemma InvMeansUniqueIds(k: Keccak, w: World)
    requires Inv(k, w)
    ensures UniqueIds(w.records)
  {
  }

  /** The world after m healthy due ticks in a row. */
  function AfterTicks(cfg: Config, k: Keccak, w: World, signer: Address, now: nat, m: nat): World
    decreases m
  {
    if m == 0 then w
    else AfterTicks(cfg, k, Run(cfg, k, w, HealthyTick(cfg, k, w, signer, now)), signer, now, m - 1)
  }

  predicate TicksLoadNoZeroRoot(cfg: Config, k: Keccak, w: World, signer: Address, now: nat, m: nat)
    decreases m
  {
    m == 0 || (LoadsNoZeroRoot(cfg, k, w)
               && TicksLoadNoZeroRoot(cfg, k, Run(cfg, k, w, HealthyTick(cfg, k, w, signer, now)), signer, now, m - 1))
  }

  /** n pending records are drained by m healthy ticks exactly when m * maxRecords >= n. */
  lemma {:induction false} PendingDrains(cfg: Config, k: Keccak, w: World, signer: Address, now: nat, m: nat)
    requires Inv(k, w) && w.phase.Idle? && TicksLoadNoZeroRoot(cfg, k, w, signer, now, m)
    requires signer in w.chain.authorized && w.chain.last + m <= UINT256_MAX
    ensures PendingCount(AfterTicks(cfg, k, w, signer, now, m)) == 0 <==> PendingCount(w) <= m * cfg.maxRecords
    decreases m
  {
    hide Inv, HealthyTick, PendingCount, Run, LoadsNoZeroRoot;
    if m > 0 {
      HealthyTickShrinks(cfg, k, w, signer, now);
      PendingDrains(cfg, k, Run(cfg, k, w, HealthyTick(cfg, k, w, signer, now)), signer, now, m - 1);
      assert m * cfg.maxRecords == (m - 1) * cfg.maxRecords + cfg.maxRecords;
    }
  }

  lemma {:induction false} TicksKeepInv(cfg: Config, k: Keccak, w: World, signer: Address, now: nat, m: nat)
    requires Inv(k, w) && w.phase.Idle? && TicksLoadNoZeroRoot(cfg, k, w, signer, now, m)
    requires signer in w.chain.authorized && w.chain.last + m <= UINT256_MAX
    ensures Inv(k, AfterTicks(cfg, k, w, signer, now, m))
    ensures Kept(w.records, AfterTicks(cfg, k, w, signer, now, m).records)
    decreases m
  {
    hide Inv, HealthyTick, PendingCount, Run, LoadsNoZeroRoot, Kept, Extends;
    NothingChanges(w);
    if m > 0 {
      var w' := Run(cfg, k, w, HealthyTick(cfg, k, w, signer, now));
      HealthyTickShrinks(cfg, k, w, signer, now);
      InvMeansBase(k, w);
      RunKeepsHistory(cfg, k, w, HealthyTick(cfg, k, w, signer, now));
      TicksKeepInv(cfg, k, w', signer, now, m - 1);
      KeptIsTransitive(w.records, w'.records, AfterTicks(cfg, k, w, signer, now, m).records);
    }
  }

  lemma InvMeansBase(k: Keccak, w: World)
    requires Inv(k, w)
    ensures Base(k, w)
  {
  }

  lemma NothingPendingMeansAllMarked(w: World)
    ensures PendingCount(w) == 0 <==> forall r <- w.records :: r.anchoredBatch.Some?
  {
    var pending := Where(w.records, Pending);
    WhereMembers(w.records, Pending);
    if pending != [] {
      assert pending[0] in pending;
    }
    assert forall r <- w.records :: r.anchoredBatch.None? ==> r in pending;
  }

  /**
    End to end: from every sound state between ticks, m healthy ticks give every stored record a
    proof that verifies against the contract, and drop none, exactly when m * maxRecords covers
    what was pending.
   */
  lemma EveryRecordEndsUpVerified(cfg: Config, k: Keccak, w: World, signer: Address, now: nat, m: nat)
    requires Inv(k, w) && w.phase.Idle? && TicksLoadNoZeroRoot(cfg, k, w, signer, now, m)
    requires signer in w.chain.authorized && w.chain.last + m <= UINT256_MAX
    ensures var w' := AfterTicks(cfg, k, w, signer, now, m);
            && Kept(w.records, w'.records)
            && ((forall r <- w'.records :: Verifies(k, w', r)) <==> PendingCount(w) <= m * cfg.maxRecords)
  {
    hide Inv, AfterTicks, TicksLoadNoZeroRoot, Kept, PendingCount, RecordProof;
    var w' := AfterTicks(cfg, k, w, signer, now, m);
    TicksKeepInv(cfg, k, w, signer, now, m);
    PendingDrains(cfg, k, w, signer, now, m);
    NothingPendingMeansAllMarked(w');
    forall r <- w'.records | r.anchoredBatch.Some?
      ensures Verifies(k, w', r)
    {
      MarkedRecordVerifies(k, w', r);
    }
    assert forall r <- w'.records :: Verifies(k, w', r) ==> r.anchoredBatch.Some?;
  }
}
