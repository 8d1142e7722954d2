/**
  The worker, the batcher and the store of services/audit-service, in their own form.

  Deployment is what they share: the database tables and the contract, changed in place.
  Every method of it that crosses the network or the database first lets the rest of the
  world act, then may fail. A ghost trace records each effect as an event of the Anchoring
  protocol; Valid says the trace is a run of the protocol from a fresh deployment to the
  present state, and no method shortens it, so every result about runs holds at every point
  of every tick.
 */
module AnchorWorker {
  import opened Wrappers
  import opened Hashing
  import opened Merkle
  import opened AuditAnchor
  import opened AuditTable
  import opened Anchoring
  import opened AnchoringResults

  datatype SubmitOutcome = Submitted | SubmissionError | SubmitEscaped

  /** No zero root is taken up: the worker goes idle, goes on with its job, or starts one with another root. */
  predicate KeepsRootInHand(p: Phase, next: Phase) {
    next.Idle? || (!p.Idle? && next.job == p.job) || next.job.root != ZERO_DIGEST
  }

  datatype VerifyOutcome = RootMatches | RootDiffers | VerifyEscaped

  class Deployment {
    const cfg: Config
    const k: Keccak
    const owner: Address
    const signer: Address

    var records: seq<Record>
    var batches: map<nat, BatchRow>
    var ledger: Ledger

    ghost var phase: Phase
    ghost var trace: seq<Event>

    ghost function Present(): World
      reads this
    {
      World(records, batches, ledger, phase)
    }

    ghost predicate Valid()
      reads this
    {
      cfg.maxAttempts > 0 && Present() == Run(cfg, k, Fresh(owner, signer), trace)
    }

    /** No root submitted so far was the zero digest. */
    ghost predicate Clean()
      reads this
    {
      NoZeroRoot(cfg, k, Fresh(owner, signer), trace)
    }

    constructor (cfg: Config, k: Keccak, owner: Address, signer: Address)
      requires cfg.maxAttempts > 0
      ensures Valid() && Clean() && Present() == Fresh(owner, signer)
      ensures this.cfg == cfg && this.k == k && this.owner == owner && this.signer == signer
    {
      this.cfg, this.k, this.owner, this.signer := cfg, k, owner, signer;
      records, batches, ledger, phase := [], map[], Deployed(owner, signer), Idle;
      trace := [];
    }

    lemma PresentIsSound()
      requires Valid()
      ensures Base(k, Present()) && (Clean() ==> Inv(k, Present()))
    {
      EveryReachableStateAgrees(cfg, k, owner, signer, trace);
    }

    /** Whatever a method does, it adds to the history of the deployment. */
    twostate lemma HistoryGrows()
      requires old(Valid()) && Valid() && old(trace) <= trace
      ensures Kept(old(records), records) && Extends(old(ledger), ledger)
    {
      hide Run, NoZeroRoot, Base, Inv, Kept, Extends;
      var n := |old(trace)|;
      assert trace[..n] == old(trace);
      RunSplits(cfg, k, Fresh(owner, signer), trace, n);
      EveryReachableStateAgrees(cfg, k, owner, signer, old(trace));
      RunKeepsHistory(cfg, k, old(Present()), trace[n..]);
    }

    /**
      At every moment each marked record gets a proof that verifies against the contract, or an
      input that the hash takes to zero has been computed.
     */
    lemma MarkedRecordsVerify(r: Record)
      requires Valid() && r in records && r.anchoredBatch.Some?
      ensures Verifies(k, Present(), r)
           || (!Clean() && YieldsZero(k, ZeroLeaves(cfg, k, Fresh(owner, signer), trace)))
    {
      EveryMarkedRecordVerifies(cfg, k, owner, signer, trace, r);
    }

    /** Appends to the trace the event whose effect has just been written. */
    ghost method Log(e: Event, before: World, next: Phase)
      requires cfg.maxAttempts > 0 && before == Run(cfg, k, Fresh(owner, signer), trace) && phase == before.phase
      requires World(records, batches, ledger, next) == Next(cfg, k, before, e)
      modifies this`trace, this`phase
      ensures Valid() && phase == next && trace == old(trace) + [e]
      ensures old(Clean()) && KeepsRootInHand(before.phase, next) ==> Clean()
    {
      hide Next, Base;
      LogIsRun(cfg, k, Fresh(owner, signer), trace, e);
      EveryReachableStateAgrees(cfg, k, owner, signer, trace);
      trace := trace + [e];
      phase := next;
    }

    /** Anything the others do: new audit records, calls of the contract, earlier submissions landing. */
    method Others()
      requires Valid()
      modifies this`records, this`ledger, this`trace, this`phase
      ensures Valid() && phase == old(phase) && old(trace) <= trace && (old(Clean()) ==> Clean())
    {
      hide Run, NoZeroRoot;
      var n: nat := *;
      while n > 0
        invariant Valid() && phase == old(phase) && old(trace) <= trace && (old(Clean()) ==> Clean())
      {
        PresentIsSound();
        var e: Event := *;
        ghost var before := Present();
        if e.ContractCall? {
          ledger := Exec(ledger, e.call);
          Log(e, before, phase);
        } else if e.Arrive? && e.record.anchoredBatch.None? && e.record.id !in Ids(records) {
          records := Insert(records, e.record);
          Log(e, before, phase);
        }
        n := n - 1;
      }
    }

    /** An exception leaves the tick, or the process dies: the worker's local state is gone. */
    ghost method Escape()
      requires Valid()
      modifies this`trace, this`phase
      ensures Valid() && phase == Idle && old(trace) <= trace && (old(Clean()) ==> Clean())
    {
      hide Run, NoZeroRoot;
      Log(Crash, Present(), Idle);
    }

    // ------------------------------------------------------------- chain.py

    method LastBatchId() returns (id: Option<nat>)
      requires Valid() && phase.ReadingLastId?
      modifies this`records, this`ledger, this`trace, this`phase
      ensures Valid() && old(trace) <= trace && (old(Clean()) ==> Clean())
      ensures id.Some? ==> phase == Submitting(old(phase.job), old(phase.attempt), id.value + 1)
      ensures id.None? ==> phase == Idle
    {
      hide Run, NoZeroRoot;
      Others();
      PresentIsSound();
      if * {
        Escape();
        return None;
      }
      Log(LastIdRead, Present(), Submitting(phase.job, phase.attempt, ledger.last + 1));
      return Some(ledger.last);
    }

    /** eth_call getBatchRoot; None when the read fails. */
    method AnchoredRoot(batchId: nat) returns (root: Option<Digest>)
      requires Valid()
      modifies this`records, this`ledger, this`trace, this`phase
      ensures Valid() && phase == old(phase) && old(trace) <= trace && (old(Clean()) ==> Clean())
      ensures root.Some? ==> root.value == GetBatchRoot(ledger, batchId)
    {
      hide Run, NoZeroRoot;
      Others();
      if * {
        return None;
      }
      return Some(GetBatchRoot(ledger, batchId));
    }

    /**
      Sign, send and wait. The call may reach the contract or not, whatever is reported; an
      RPC failure other than a submission error escapes the caller's handler.
     */
    method Submit(batchId: nat, root: Digest, blockTime: nat) returns (r: SubmitOutcome)
      requires Valid() && phase.Submitting? && batchId == phase.batchId && root == phase.job.root
      modifies this`records, this`ledger, this`trace, this`phase
      ensures Valid() && old(trace) <= trace && (old(Clean()) ==> Clean())
      ensures match r
              case Submitted => phase == Verifying(old(phase.job), old(phase.attempt), batchId)
              case SubmissionError => phase == Resolving(old(phase.job), old(phase.attempt), batchId)
              case SubmitEscaped => phase == Idle
    {
      hide Run, NoZeroRoot, Base, Inv;
      PresentIsSound();
      JobIsCurrent(k, Present());
      Others();
      if * {
        ghost var before := Present();
        var call := AnchorBatch(signer, batchId, root, blockTime);
        ledger := Exec(ledger, call);
        Log(ContractCall(call), before, phase);
      }
      Others();
      if * {
        Log(SubmitReturned, Present(), Verifying(phase.job, phase.attempt, batchId));
        return Submitted;
      } else if * {
        Log(SubmitRaised, Present(), Resolving(phase.job, phase.attempt, batchId));
        return SubmissionError;
      }
      Escape();
      return SubmitEscaped;
    }

    method VerifyAnchored(batchId: nat, root: Digest) returns (r: VerifyOutcome)
      requires Valid() && phase.Verifying? && batchId == phase.batchId && root == phase.job.root
      modifies this`records, this`ledger, this`trace, this`phase
      ensures Valid() && old(trace) <= trace && (old(Clean()) ==> Clean())
      ensures match r
              case RootMatches => phase == Confirmed(old(phase.job), batchId)
              case RootDiffers => phase == Resolving(old(phase.job), old(phase.attempt), batchId)
              case VerifyEscaped => phase == Idle
    {
      hide Run, NoZeroRoot, Base, Inv;
      PresentIsSound();
      JobIsCurrent(k, Present());
      var anchored := AnchoredRoot(batchId);
      if anchored.None? {
        Escape();
        return VerifyEscaped;
      }
      if anchored.value != root {
        Log(RootVerified, Present(), Resolving(phase.job, phase.attempt, batchId));
        return RootDiffers;
      }
      Log(RootVerified, Present(), Confirmed(phase.job, batchId));
      return RootMatches;
    }

    // --------------------------------------------------- SqlAlchemyBatchStore

    method LoadPending(limit: nat) returns (rows: seq<Record>)
      ensures rows == if |Where(records, Pending)| <= limit then Where(records, Pending)
        else Where(records, Pending)[..limit]
    {
      var pending := Where(records, Pending);
      rows := if |pending| <= limit then pending else pending[..limit];
    }

    /** Inserts or overwrites the row of a batch; false when the commit fails. */
    method UpsertBatch(batchId: nat, root: Digest, recordCount: nat, status: BatchStatus) returns (committed: bool)
      requires Valid()
      requires match status
               case Failed => phase.GaveUp?
               case Anchored => phase.Confirmed?
      requires phase.job.ids != {}
      requires batchId == phase.batchId && root == phase.job.root && recordCount == |phase.job.leaves|
      modifies this
      ensures Valid() && old(trace) <= trace && (old(Clean()) ==> Clean())
      ensures committed ==> batches == old(batches)[batchId := BatchRow(root, recordCount, status)]
      ensures committed ==> phase == if status == Failed then Idle else Recorded(old(phase.job), batchId)
      ensures committed && status == Failed ==> NonePast(records, old(phase.job.ids))
      ensures !committed ==> phase == Idle && batches == old(batches)
    {
      hide Run, NoZeroRoot, Base, Inv;
      Others();
      PresentIsSound();
      JobIsCurrent(k, Present());
      if * {
        Escape();
        return false;
      }
      ghost var before := Present();
      batches := batches[batchId := BatchRow(root, recordCount, status)];
      if status == Failed {
        Log(FailureRecorded, before, Idle);
      } else {
        Log(SuccessRecorded, before, Recorded(before.phase.job, batchId));
      }
      return true;
    }

    /** UPDATE of one row, inside the transaction of MarkAnchored. */
    static method MarkOne(t: seq<Record>, id: RecordId, batchId: nat) returns (t': seq<Record>)
      ensures t' == Mark(t, {id}, batchId)
    {
      t' := t;
      for i := 0 to |t|
        invariant |t'| == |t|
        invariant forall j | 0 <= j < i :: t'[j] == if t[j].id == id then t[j].(anchoredBatch := Some(batchId))
          else t[j]
        invariant forall j | i <= j < |t| :: t'[j] == t[j]
      {
        if t[i].id == id {
          t' := t'[i := t[i].(anchoredBatch := Some(batchId))];
        }
      }
    }

    static method MarkAll(t: seq<Record>, ids: seq<RecordId>, batchId: nat) returns (t': seq<Record>)
      ensures t' == Mark(t, IdSet(ids), batchId)
    {
      t' := t;
      for i := 0 to |ids|
        invariant t' == Mark(t, IdSet(ids[..i]), batchId)
      {
        assert ids[..i + 1] == ids[..i] + [ids[i]];
        assert IdSet(ids[..i + 1]) == IdSet(ids[..i]) + {ids[i]};
        MarkTwice(t, IdSet(ids[..i]), {ids[i]}, batchId);
        t' := MarkOne(t', ids[i], batchId);
      }
      assert ids[..|ids|] == ids;
    }

    /** Others may add records before the update; it then marks exactly the given ids, in one commit. */
    method MarkAnchored(ids: seq<RecordId>, batchId: nat) returns (committed: bool, ghost found: seq<Record>)
      requires Valid() && phase.Recorded? && batchId == phase.batchId
      requires IdSet(ids) == phase.job.ids
      modifies this
      ensures Valid() && phase == Idle && old(trace) <= trace && batches == old(batches)
      ensures old(Clean()) ==> Clean()
      ensures Kept(old(records), found)
      ensures records == if committed then Mark(found, IdSet(ids), batchId) else found
      ensures committed ==> Landed(ledger, batchId, old(phase.job.root))
    {
      hide Run, NoZeroRoot, Base, Inv, Kept;
      Others();
      HistoryGrows();
      PresentIsSound();
      ConfirmedIsOnChain(k, Present());
      found := records;
      if * {
        Escape();
        return false, found;
      }
      ghost var before := Present();
      records := MarkAll(records, ids, batchId);
      Log(RecordsMarked, before, Idle);
      return true, found;
    }
  }

  lemma LogIsRun(cfg: Config, k: Keccak, w: World, es: seq<Event>, e: Event)
    ensures Run(cfg, k, w, es + [e]) == Next(cfg, k, Run(cfg, k, w, es), e)
    ensures NoZeroRoot(cfg, k, w, es + [e]) <==>
      NoZeroRoot(cfg, k, w, es) && NoZeroJob(Next(cfg, k, Run(cfg, k, w, es), e))
  {
    hide Next, NoZeroJob;
    var w' := Run(cfg, k, w, es);
    assert (es + [e])[..|es|] == es && (es + [e])[|es|..] == [e];
    RunSplits(cfg, k, w, es + [e], |es|);
    NoZeroRootSplits(cfg, k, w, es + [e], |es|);
    assert [e][1..] == [];
    assert Run(cfg, k, w', [e]) == Run(cfg, k, Next(cfg, k, w', e), []);
  }

  lemma JobIsCurrent(k: Keccak, w: World)
    requires Base(k, w) && !w.phase.Idle?
    ensures w.phase.job.root == Root(k, w.phase.job.leaves)
    ensures NonePast(w.records, w.phase.job.ids)
  {
  }

  lemma ConfirmedIsOnChain(k: Keccak, w: World)
    requires Base(k, w) && (w.phase.Confirmed? || w.phase.Recorded?)
    ensures Landed(w.chain, w.phase.batchId, w.phase.job.root)
  {
  }

  /** The rows of these ids are still pending. */
  ghost predicate NonePast(t: seq<Record>, ids: set<RecordId>) {
    forall r <- t :: r.id in ids ==> r.anchoredBatch.None?
  }

  function IdSet(ids: seq<RecordId>): set<RecordId> { set id | id in ids }

  lemma MarkTwice(t: seq<Record>, a: set<RecordId>, b: set<RecordId>, batchId: nat)
    ensures Mark(Mark(t, a, batchId), b, batchId) == Mark(t, a + b, batchId)
  {
  }

  // ------------------------------------------------------------- batcher.py

  datatype FlushOutcome =
    | NothingPending
    | Flushed(batchId: nat)
    | Raised(batchId: nat, root: Digest)   // AnchorSubmissionError
    | Escaped                              // any other exception
    | BadLeaf                              // MerkleError: a leaf has 32 bytes

  class AnchorBatcher {
    const chain: Deployment
    const maxRecords: nat
    const maxAttempts: nat
    var leaves: seq<Digest>
    var lastAnchoredBatchId: Option<nat>
    ghost var flushes: seq<seq<Digest>>   // the buffers the non-empty flushes ran over

    constructor (chain: Deployment, maxRecords: nat)
      ensures this.chain == chain && this.maxRecords == maxRecords && maxAttempts == chain.cfg.maxAttempts
      ensures leaves == [] && lastAnchoredBatchId == None && flushes == []
    {
      this.chain, this.maxRecords, maxAttempts := chain, maxRecords, chain.cfg.maxAttempts;
      leaves, lastAnchoredBatchId, flushes := [], None, [];
    }

    /** The buffer stands for the rows that a tick has loaded, or, between ticks, for no rows at all. */
    ghost predicate Serves(buffer: seq<Digest>)
      reads chain
    {
      && chain.Valid() && maxAttempts == chain.cfg.maxAttempts
      && (chain.phase.Idle?
          || (chain.phase.ReadingLastId? && chain.phase.attempt == 1
              && chain.phase.job.ids != {} && chain.phase.job.leaves == buffer))
    }

    ghost function JobFor(buffer: seq<Digest>): Job
      requires buffer != []
      reads chain
    {
      if chain.phase.Idle? then FreeJob(chain.k, buffer) else chain.phase.job
    }

    /** The worker goes on from a confirmed or given-up batch of rows; nobody does for a buffer without rows. */
    ghost function After(job: Job, p: Phase): Phase { if job.ids == {} then Idle else p }

    /** What a flush of a non-empty buffer leaves behind. */
    ghost predicate FlushDone(r: FlushOutcome, job: Job, buffer: seq<Digest>)
      requires buffer != []
      reads this, chain
    {
      match r
      case Flushed(b) =>
        && leaves == [] && lastAnchoredBatchId == Some(b) && chain.phase == After(job, Confirmed(job, b))
        && Landed(chain.ledger, b, Root(chain.k, buffer))
      case Raised(b, root) =>
        leaves == buffer && root == Root(chain.k, buffer) && chain.phase == After(job, GaveUp(job, b))
      case Escaped => leaves == buffer && chain.phase == Idle
      case _ => false
    }

    method Flush() returns (r: FlushOutcome)
      requires chain.Valid()
      requires leaves != [] ==> Serves(leaves)
      modifies this, chain
      ensures chain.Valid() && old(chain.trace) <= chain.trace && chain.batches == old(chain.batches)
      ensures old(leaves) == [] ==> r == NothingPending && unchanged(this) && unchanged(chain)
      ensures old(leaves) != [] ==>
                FlushDone(r, old(JobFor(leaves)), old(leaves)) && flushes == old(flushes) + [old(leaves)]
      ensures old(chain.Clean() && (chain.phase.Idle? && leaves != [] ==> Root(chain.k, leaves) != ZERO_DIGEST)) ==>
                chain.Clean()
    {
      hide Run, NoZeroRoot, Base, Inv, Deployment.Valid, Deployment.Clean, Landed, Root;
      if leaves == [] {
        return NothingPending;
      }
      flushes := flushes + [leaves];
      var computed := MerkleRoot(chain.k, leaves);
      var root := computed.value;
      StartFlush(root);
      r := Attempts(root);
      match r {
        case Flushed(b) => MarkFlushed(b);
        case _ =>
      }
    }

    /** A buffer without rows becomes a job of its own here. */
    ghost method StartFlush(root: Digest)
      requires leaves != [] && Serves(leaves) && root == Root(chain.k, leaves)
      modifies chain`trace, chain`phase
      ensures chain.Valid() && old(chain.trace) <= chain.trace
      ensures chain.phase == ReadingLastId(old(JobFor(leaves)), 1) && old(JobFor(leaves)).root == root
      ensures old(chain.Clean() && (chain.phase.Idle? ==> root != ZERO_DIGEST)) ==> chain.Clean()
    {
      hide Run, NoZeroRoot, Base, Inv;
      chain.PresentIsSound();
      if chain.phase.Idle? {
        chain.Log(FlushStarted(leaves), chain.Present(), ReadingLastId(FreeJob(chain.k, leaves), 1));
      } else {
        JobIsCurrent(chain.k, chain.Present());
      }
    }

    /** The attempt loop; the buffer is not touched by it. */
    method Attempts(root: Digest) returns (r: FlushOutcome)
      requires chain.Valid() && maxAttempts == chain.cfg.maxAttempts
      requires chain.phase.ReadingLastId? && chain.phase.attempt == 1 && root == chain.phase.job.root
      modifies chain
      ensures chain.Valid() && old(chain.trace) <= chain.trace && chain.batches == old(chain.batches)
      ensures old(chain.Clean()) ==> chain.Clean()
      ensures var job := old(chain.phase.job);
              match r
              case Flushed(b) =>
                chain.phase == After(job, Confirmed(job, b)) && Landed(chain.ledger, b, root)
              case Raised(b, raised) => chain.phase == After(job, GaveUp(job, b)) && raised == root
              case Escaped => chain.phase == Idle
              case _ => false
    {
      hide Run, NoZeroRoot, Base, Inv;
      ghost var job := chain.phase.job;
      var batchId: nat := 0;
      for attempt := 1 to maxAttempts + 1
        invariant chain.Valid() && old(chain.trace) <= chain.trace && chain.batches == old(chain.batches)
        invariant old(chain.Clean()) ==> chain.Clean()
        invariant attempt <= maxAttempts ==> chain.phase == ReadingLastId(job, attempt)
        invariant attempt > maxAttempts ==> chain.phase == GaveUp(job, batchId)
      {
        r := Attempt(root);
        match r {
          case Raised(b, _) => batchId := b;
          case Flushed(b) =>
            chain.PresentIsSound();
            ConfirmedIsOnChain(chain.k, chain.Present());
            FinishFree(job);
            return;
          case _ => return;
        }
      }
      FinishFree(job);
      return Raised(batchId, root);
    }

    ghost method FinishFree(job: Job)
      requires chain.Valid()
      modifies chain`trace, chain`phase
      ensures chain.Valid() && old(chain.trace) <= chain.trace && (old(chain.Clean()) ==> chain.Clean())
      ensures chain.phase == After(job, old(chain.phase))
    {
      if job.ids == {} {
        chain.Escape();
      }
    }

    /** One pass of the attempt loop: Raised when the batch is not known to be anchored. */
    method Attempt(root: Digest) returns (r: FlushOutcome)
      requires chain.Valid() && maxAttempts == chain.cfg.maxAttempts
      requires chain.phase.ReadingLastId? && root == chain.phase.job.root
      modifies chain
      ensures chain.Valid() && old(chain.trace) <= chain.trace && chain.batches == old(chain.batches)
      ensures old(chain.Clean()) ==> chain.Clean()
      ensures var job, n := old(chain.phase.job), old(chain.phase.attempt);
              match r
              case Flushed(b) => chain.phase == Confirmed(job, b)
              case Raised(b, _) => chain.phase == NotAnchored(chain.cfg, job, n, b)
              case Escaped => chain.phase == Idle
              case _ => false
    {
      hide Run, NoZeroRoot, Base, Inv, Deployment.Valid;
      var last := chain.LastBatchId();
      if last.None? {
        return Escaped;
      }
      var batchId := last.value + 1;
      var submitted := chain.Submit(batchId, root, 0);
      if submitted == SubmitEscaped {
        return Escaped;
      }
      if submitted == Submitted {
        var verified := chain.VerifyAnchored(batchId, root);
        if verified == VerifyEscaped {
          return Escaped;
        }
        if verified == RootMatches {
          return Flushed(batchId);
        }
      }
      var resolved := Resolved(batchId, root);
      r := if resolved then Flushed(batchId) else Raised(batchId, root);
    }

    /** Did the transaction land despite the error? A failed read counts as no. */
    method Resolved(batchId: nat, root: Digest) returns (yes: bool)
      requires chain.Valid() && maxAttempts == chain.cfg.maxAttempts
      requires chain.phase.Resolving? && batchId == chain.phase.batchId && root == chain.phase.job.root
      modifies chain
      ensures chain.Valid() && old(chain.trace) <= chain.trace && chain.batches == old(chain.batches)
      ensures old(chain.Clean()) ==> chain.Clean()
      ensures chain.phase == if yes then Confirmed(old(chain.phase.job), batchId)
                             else NotAnchored(chain.cfg, old(chain.phase.job), old(chain.phase.attempt), batchId)
    {
      hide Run, NoZeroRoot, Base, Inv;
      chain.PresentIsSound();
      JobIsCurrent(chain.k, chain.Present());
      var anchored := chain.AnchoredRoot(batchId);
      yes := anchored.Some? && anchored.value == root;
      chain.Log(RootResolved(anchored.Some?), chain.Present(),
        if yes then Confirmed(chain.phase.job, batchId)
        else NotAnchored(chain.cfg, chain.phase.job, chain.phase.attempt, batchId));
    }

    method MarkFlushed(batchId: nat)
      modifies this`leaves, this`lastAnchoredBatchId
      ensures leaves == [] && lastAnchoredBatchId == Some(batchId)
    {
      leaves := [];
      lastAnchoredBatchId := Some(batchId);
    }

    /** Between ticks any leaf may come; a tick feeds the leaves it has loaded, in order. */
    ghost predicate Accepts(leaf: Bytes)
      reads this, chain
    {
      && chain.Valid() && maxAttempts == chain.cfg.maxAttempts
      && (chain.phase.Idle?
          || (chain.phase.ReadingLastId? && chain.phase.attempt == 1 && chain.phase.job.ids != {}
              && |leaves| < |chain.phase.job.leaves| <= maxRecords && leaves <= chain.phase.job.leaves
              && leaf == chain.phase.job.leaves[|leaves|]))
    }

    /** Appends a leaf; flushes when the record threshold is reached. */
    method Add(leaf: Bytes) returns (r: FlushOutcome)
      requires Accepts(leaf)
      modifies this, chain
      ensures chain.Valid() && old(chain.trace) <= chain.trace && chain.batches == old(chain.batches)
      ensures |leaf| != DIGEST_BYTES ==> r == BadLeaf && unchanged(this) && unchanged(chain)
      ensures |leaf| == DIGEST_BYTES && |old(leaves)| + 1 < maxRecords ==>
        r == NothingPending && leaves == old(leaves) + [leaf] && flushes == old(flushes) && unchanged(chain)
      ensures |leaf| == DIGEST_BYTES && |old(leaves)| + 1 >= maxRecords ==>
        && flushes == old(flushes) + [old(leaves) + [leaf]]
        && FlushDone(r, old(JobFor(leaves + [leaf])), old(leaves) + [leaf])
        && (old(chain.Clean() && (chain.phase.Idle? ==> Root(chain.k, leaves + [leaf]) != ZERO_DIGEST)) ==>
              chain.Clean())
    {
      hide Run, NoZeroRoot, Base, Inv;
      if |leaf| != DIGEST_BYTES {
        return BadLeaf;
      }
      ghost var before := leaves;
      leaves := leaves + [leaf];
      if |leaves| >= maxRecords {
        assert chain.phase.Idle? || leaves == chain.phase.job.leaves;
        r := Flush();
      } else {
        r := NothingPending;
      }
    }
  }

  // -------------------------------------------------------------- worker.py

  datatype TickOutcome =
    | NothingToDo
    | NotDue
    | TickFailed(batchId: nat)
    | TickAnchored(batchId: nat, ids: seq<RecordId>)
    | TickEscaped

  /** Every row of `loaded` is still stored, with the mark `mark`. */
  ghost predicate AllHave(t: seq<Record>, loaded: seq<Record>, mark: Option<nat>) {
    forall r <- loaded :: exists r' <- t :: SameEvent(r, r') && r'.anchoredBatch == mark
  }

  lemma MarkedRowsHave(t: seq<Record>, found: seq<Record>, loaded: seq<Record>, b: nat)
    requires Kept(t, found) && forall r <- loaded :: r in t && r.anchoredBatch.None?
    ensures AllHave(Mark(found, Ids(loaded), b), loaded, Some(b))
  {
    hide Mark;
    forall r <- loaded
      ensures exists r' <- Mark(found, Ids(loaded), b) :: SameEvent(r, r') && r'.anchoredBatch == Some(b)
    {
      var x :| x in found && SameEvent(r, x);
      RowIsMarked(found, x, Ids(loaded), b);
      assert SameEvent(r, x.(anchoredBatch := Some(b)));
    }
  }

  lemma RowIsMarked(t: seq<Record>, r: Record, ids: set<RecordId>, b: nat)
    requires r in t && r.id in ids
    ensures r.(anchoredBatch := Some(b)) in Mark(t, ids, b)
  {
    var i :| 0 <= i < |t| && t[i] == r;
    assert Mark(t, ids, b)[i] in Mark(t, ids, b);
  }

  lemma PendingRowsHave(t: seq<Record>, t': seq<Record>, loaded: seq<Record>)
    requires Kept(t, t') && NonePast(t', Ids(loaded)) && forall r <- loaded :: r in t
    ensures AllHave(t', loaded, None)
  {
    forall r <- loaded
      ensures exists r' <- t' :: SameEvent(r, r') && r'.anchoredBatch == None
    {
      var x :| x in t' && SameEvent(r, x);
      assert x.id in Ids(loaded);
    }
  }

  lemma LoadedArePending(cfg: Config, w: World)
    ensures forall r <- FirstPending(cfg, w) :: r in w.records && r.anchoredBatch.None?
  {
    WhereMembers(w.records, Pending);
    var pending := Where(w.records, Pending);
    assert forall r <- FirstPending(cfg, w) :: r in pending;
  }

  lemma LoadedFit(cfg: Config, w: World)
    ensures |FirstPending(cfg, w)| <= cfg.maxRecords
  {
  }

  class DbAnchorWorker {
    const deployment: Deployment
    const maxRecords: nat
    const intervalSeconds: int
    var firstPendingAt: Option<int>
    var lastAnchoredBatchId: Option<nat>

    constructor (deployment: Deployment, intervalSeconds: int)
      ensures this.deployment == deployment && maxRecords == deployment.cfg.maxRecords
      ensures firstPendingAt == None && lastAnchoredBatchId == None
    {
      this.deployment, maxRecords := deployment, deployment.cfg.maxRecords;
      this.intervalSeconds := intervalSeconds;
      firstPendingAt, lastAnchoredBatchId := None, None;
    }

    /** Between ticks. */
    ghost predicate Ready()
      reads this, deployment
    {
      deployment.Valid() && deployment.phase.Idle? && maxRecords == deployment.cfg.maxRecords
    }

    /** No zero root so far, and none in the batch a tick would load now. */
    ghost predicate StaysClean()
      reads this, deployment
    {
      deployment.Clean() && LoadsNoZeroRoot(deployment.cfg, deployment.k, deployment.Present())
    }

    ghost function Loaded(): seq<Record>
      reads this, deployment
    {
      FirstPending(deployment.cfg, deployment.Present())
    }

    /** A full batch is waiting, or rows have been for long enough. */
    ghost predicate Due(now: int)
      reads this, deployment
    {
      || |Loaded()| >= maxRecords
      || now - (if firstPendingAt.Some? then firstPendingAt.value else now) >= intervalSeconds
    }

    ghost method LoadJob(pending: seq<Record>)
      requires Ready() && pending != [] && pending == Loaded()
      modifies deployment`trace, deployment`phase
      ensures deployment.Valid() && old(deployment.trace) <= deployment.trace
      ensures deployment.phase == ReadingLastId(NewJob(deployment.k, pending), 1)
      ensures old(StaysClean()) ==> deployment.Clean()
    {
      hide Run, NoZeroRoot, Root, FirstPending, Deployment.Clean;
      LoadStarts(deployment.cfg, deployment.k, deployment.Present());
      deployment.Log(Load(true), deployment.Present(), ReadingLastId(NewJob(deployment.k, pending), 1));
    }

    /** Feeds the loaded leaves to a new batcher and flushes what is left in it. */
    method FlushLoaded(batcher: AnchorBatcher, pending: seq<Record>) returns (r: FlushOutcome)
      requires Ready() && pending != [] && pending == Loaded()
      requires batcher.chain == deployment && batcher.leaves == [] && batcher.flushes == []
      requires batcher.maxRecords == maxRecords && batcher.maxAttempts == deployment.cfg.maxAttempts
      modifies batcher, deployment
      ensures deployment.Valid() && old(deployment.trace) <= deployment.trace
      ensures deployment.batches == old(deployment.batches)
      ensures old(StaysClean()) ==> deployment.Clean()
      ensures batcher.flushes == [Hashes(pending)]
      ensures var job := NewJob(deployment.k, pending);
              match r
              case Flushed(b) => deployment.phase == Confirmed(job, b)
              case Raised(b, root) => deployment.phase == GaveUp(job, b) && root == job.root
              case Escaped => deployment.phase == Idle
              case _ => false
    {
      hide Run, NoZeroRoot, Base, Inv, Deployment.Valid, Deployment.Clean, Root, LoadsNoZeroRoot, FirstPending;
      var leaves := Hashes(pending);
      ghost var job := NewJob(deployment.k, pending);
      JobsHaveIds(deployment.k, pending);
      LoadedFit(deployment.cfg, deployment.Present());
      LoadJob(pending);
      for i := 0 to |leaves|
        invariant deployment.Valid() && old(deployment.trace) <= deployment.trace
        invariant deployment.batches == old(deployment.batches)
        invariant old(StaysClean()) ==> deployment.Clean()
        invariant i < |leaves| || i < maxRecords ==>
          && batcher.leaves == leaves[..i] && batcher.flushes == []
          && deployment.phase == ReadingLastId(job, 1)
        invariant i == |leaves| && i >= maxRecords ==>
          && batcher.leaves == [] && batcher.flushes == [leaves]
          && batcher.lastAnchoredBatchId.Some?
          && deployment.phase == Confirmed(job, batcher.lastAnchoredBatchId.value)
      {
        assert leaves[..i] + [leaves[i]] == leaves[..i + 1];
        assert i + 1 >= maxRecords ==> leaves[..i + 1] == leaves;
        var added := batcher.Add(leaves[i]);
        if added.Raised? || added.Escaped? {
          return added;
        }
      }
      assert leaves[..|leaves|] == leaves;
      var rest := batcher.Flush();
      if rest.Raised? || rest.Escaped? {
        return rest;
      }
      return Flushed(batcher.lastAnchoredBatchId.value);
    }

    /** The two commits that follow a confirmed flush. */
    method Persist(batchId: nat, root: Digest, pending: seq<Record>) returns (done: bool, ghost found: seq<Record>)
      requires deployment.Valid()
      requires pending != [] && deployment.phase == Confirmed(NewJob(deployment.k, pending), batchId)
      requires root == deployment.phase.job.root
      modifies deployment
      ensures deployment.Valid() && deployment.phase.Idle? && old(deployment.trace) <= deployment.trace
      ensures old(deployment.Clean()) ==> deployment.Clean()
      ensures done ==>
        && Kept(old(deployment.records), found) && deployment.records == Mark(found, Ids(pending), batchId)
        && deployment.batches == old(deployment.batches)[batchId := BatchRow(root, |pending|, Anchored)]
        && Landed(deployment.ledger, batchId, root)
    {
      hide Run, NoZeroRoot, Base, Inv, Kept, Deployment.Valid;
      found := [];
      ghost var before := deployment.records;
      JobsHaveIds(deployment.k, pending);
      var written := deployment.UpsertBatch(batchId, root, |pending|, Anchored);
      if !written {
        return false, found;
      }
      deployment.HistoryGrows();
      ghost var between := deployment.records;
      IdsOfIsIds(pending);
      done, found := deployment.MarkAnchored(IdsOf(pending), batchId);
      KeptIsTransitive(before, between, found);
    }

    /**
      One tick. Whatever fails inside it, it only adds to the history of the deployment. A tick
      with something due runs exactly one non-empty flush, over exactly the rows it loaded. An
      anchored one leaves every loaded row marked and the chain and the batch row with their
      root; a failed one leaves them pending and the attempt on record.
     */
    method Tick(now: int) returns (r: TickOutcome, ghost flushes: seq<seq<Digest>>)
      requires Ready()
      modifies this, deployment
      ensures deployment.Valid() && deployment.phase.Idle? && old(deployment.trace) <= deployment.trace
      ensures Kept(old(deployment.records), deployment.records)
      ensures Extends(old(deployment.ledger), deployment.ledger)
      ensures old(StaysClean()) ==> deployment.Clean()
      ensures r.NothingToDo? <==> old(Loaded()) == []
      ensures r.NothingToDo? || r.NotDue? ==> flushes == [] && unchanged(deployment)
      ensures r.NotDue? <==> old(Loaded()) != [] && !old(Due(now))
      ensures firstPendingAt == match r
                                case NothingToDo => None
                                case TickAnchored(_, _) => None
                                case TickFailed(_) => Some(now)
                                case _ => if old(firstPendingAt).None? then Some(now) else old(firstPendingAt)
      ensures !r.NothingToDo? && !r.NotDue? ==> flushes == [Hashes(old(Loaded()))]
      ensures r.TickAnchored? ==>
        var root := Root(deployment.k, Hashes(old(Loaded())));
        && lastAnchoredBatchId == Some(r.batchId) && r.ids == IdsOf(old(Loaded()))
        && AllHave(deployment.records, old(Loaded()), Some(r.batchId))
        && Landed(deployment.ledger, r.batchId, root)
        && deployment.batches == old(deployment.batches)[r.batchId := BatchRow(root, |old(Loaded())|, Anchored)]
      ensures r.TickFailed? ==>
        var root := Root(deployment.k, Hashes(old(Loaded())));
        && AllHave(deployment.records, old(Loaded()), None)
        && deployment.batches == old(deployment.batches)[r.batchId := BatchRow(root, |old(Loaded())|, Failed)]
      ensures !r.TickAnchored? ==> lastAnchoredBatchId == old(lastAnchoredBatchId)
    {
      hide Run, NoZeroRoot, Base, Inv, Kept, Extends, AllHave, Where, LoadsNoZeroRoot, Deployment.Valid;
      NothingChanges(deployment.Present());
      var pending := deployment.LoadPending(maxRecords);
      if pending == [] {
        firstPendingAt := None;
        return NothingToDo, [];
      }
      if firstPendingAt.None? {
        firstPendingAt := Some(now);
      }
      var countDue := |pending| >= maxRecords;
      var intervalDue := now - firstPendingAt.value >= intervalSeconds;
      if !countDue && !intervalDue {
        return NotDue, [];
      }
      var batchId;
      r, flushes, batchId := RunBatch(pending);
      match r {
        case TickFailed(_) => firstPendingAt := Some(now);
        case TickAnchored(_, _) =>
          lastAnchoredBatchId := Some(batchId);
          firstPendingAt := None;
        case _ =>
      }
    }

    /** The part of a due tick that reaches the network and the database. */
    method RunBatch(pending: seq<Record>) returns (r: TickOutcome, ghost flushes: seq<seq<Digest>>, batchId: nat)
      requires Ready() && pending != [] && pending == Loaded()
      modifies deployment
      ensures deployment.Valid() && deployment.phase.Idle? && old(deployment.trace) <= deployment.trace
      ensures Kept(old(deployment.records), deployment.records)
      ensures Extends(old(deployment.ledger), deployment.ledger)
      ensures old(StaysClean()) ==> deployment.Clean()
      ensures !r.NothingToDo? && !r.NotDue? && flushes == [Hashes(pending)]
      ensures var root := Root(deployment.k, Hashes(pending));
              match r
              case TickAnchored(b, ids) =>
                && b == batchId && ids == IdsOf(pending) && AllHave(deployment.records, pending, Some(b))
                && Landed(deployment.ledger, b, root)
                && deployment.batches == old(deployment.batches)[b := BatchRow(root, |pending|, Anchored)]
              case TickFailed(b) =>
                && b == batchId && AllHave(deployment.records, pending, None)
                && deployment.batches == old(deployment.batches)[b := BatchRow(root, |pending|, Failed)]
              case _ => true
    {
      hide Run, NoZeroRoot, Base, Inv, Kept, Extends, AllHave;
      ghost var before := deployment.records;
      LoadedArePending(deployment.cfg, deployment.Present());
      JobsHaveIds(deployment.k, pending);
      var computed := MerkleRoot(deployment.k, Hashes(pending));
      var batcher := new AnchorBatcher(deployment, maxRecords);
      var flushed := FlushLoaded(batcher, pending);
      deployment.HistoryGrows();
      ghost var after := deployment.records;
      flushes := batcher.flushes;
      r, batchId := TickEscaped, 0;
      match flushed {
        case Raised(b, root) =>
          batchId := b;
          var written := deployment.UpsertBatch(batchId, root, |pending|, Failed);
          deployment.HistoryGrows();
          if written {
            PendingRowsHave(before, deployment.records, pending);
            r := TickFailed(batchId);
          }
        case Flushed(b) =>
          batchId := b;
          ghost var found;
          var done;
          done, found := Persist(batchId, computed.value, pending);
          deployment.HistoryGrows();
          if done {
            KeptIsTransitive(before, after, found);
            MarkedRowsHave(before, found, pending, batchId);
            r := TickAnchored(batchId, IdsOf(pending));
          }
        case _ =>
      }
    }
  }

  lemma {:induction false} IdsOfIsIds(rows: seq<Record>)
    ensures IdSet(IdsOf(rows)) == Ids(rows)
  {
  }

  function IdsOf(rows: seq<Record>): (ids: seq<RecordId>)
    ensures |ids| == |rows|
    ensures forall i | 0 <= i < |rows| :: ids[i] == rows[i].id
  {
    if rows == [] then [] else [rows[0].id] + IdsOf(rows[1..])
  }
}
