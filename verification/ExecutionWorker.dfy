/**
  The loops over rows: monitor.py, flag_stuck of rbf.py and the tick of worker.py, and the two
  places that expire or decide escalations (approvals.py of the gateway, expire.py of the
  notification service).
 */
module ExecutionWorker {
  import opened Wrappers
  import opened SignedTx
  import opened Execution
  import opened ExecutionInvariant
  import opened ExecutionNonces
  import opened ExecutionRows
  import opened ExecutionResults
  import opened ExecutionFrames
  import opened ExecutionPlatform

  /** What a loop of the worker found out about a row at some instant; `now` is when it made its query. */
  datatype Finding =
    | Deep(id: TxId, block: nat, tip: int, depth: int, at: int)        // a receipt, so far below the tip
    | Orphaned(id: TxId, receipt: Option<nat>, now: int, at: int)      // no receipt any more, or in another block
    | Overstaying(id: TxId, now: int, at: int)

  /** One loop's readings of the clock: for its query, and while it handles a row. */
  datatype Clock = Clock(query: int, row: TxId -> int)

  /** What the chain answers about a transaction while a loop runs; an RPC may fail. */
  datatype Receipt = RpcFailed | NotMined | Mined(block: nat, tip: Option<int>, depth: int)

  predicate IsDeep(r: Receipt) { r.Mined? && r.tip.Some? && r.tip.value - r.block >= r.depth }

  function BlockOf(r: Receipt): Option<nat> { if r.Mined? then Some(r.block) else None }

  function Found(fs: seq<Finding>): set<TxId> { set f <- fs :: f.id }

  predicate Distinct(ids: seq<TxId>) { forall i, j | 0 <= i < j < |ids| :: ids[i] != ids[j] }

  predicate OncePerRow(fs: seq<Finding>) { forall i, j | 0 <= i < j < |fs| :: fs[i].id != fs[j].id }

  predicate AwaitsReceipt(row: Row) { row.status == Broadcast && row.txHash.Some? }

  predicate Reverifiable(row: Row, since: int) {
    row.status == Executed && row.txHash.Some? && row.confirmedAt.Some? && row.confirmedAt.value >= since
  }

  predicate Overstays(row: Row, cutoff: int) {
    row.status == Broadcast && row.stuckAt.None? && row.broadcastAt.Some? && row.broadcastAt.value < cutoff
  }

  predicate Differs(receipt: Option<nat>, block: Option<nat>) {
    receipt.None? || (block.Some? && receipt != block)
  }

  predicate IsGone(receipt: Receipt, block: Option<nat>) { !receipt.RpcFailed? && Differs(BlockOf(receipt), block) }

  /** The finding is what the chain answered, at that instant. */
  predicate FoundDeep(f: Finding, chain: TxId -> Receipt, clock: TxId -> int) {
    f.Deep? && Some(f.block) == BlockOf(chain(f.id)) && f.at == clock(f.id)
  }

  predicate FoundGone(f: Finding, chain: TxId -> Receipt, clock: Clock) {
    f.Orphaned? && f.receipt == BlockOf(chain(f.id)) && f.now == clock.query && f.at == clock.row(f.id)
  }

  predicate FoundLate(f: Finding, clock: Clock) {
    f.Overstaying? && f.now == clock.query && f.at == clock.row(f.id)
  }

  /** The row satisfies the loop's query and the finding its test. */
  predicate Applies(cfg: Config, f: Finding, row: Row) {
    match f
    case Deep(_, block, tip, depth, _) => AwaitsReceipt(row) && tip - block >= depth
    case Orphaned(_, receipt, now, _) => Reverifiable(row, now - cfg.reorgWatch) && Differs(receipt, row.block)
    case Overstaying(_, now, _) => Overstays(row, now - cfg.stuckAfter)
  }

  function Updated(f: Finding, row: Row): Row {
    match f
    case Deep(_, block, _, _, at) => row.(status := Executed, block := Some(block), confirmedAt := Some(at))
    case Orphaned(_, _, _, at) => row.(status := Reorged, reorgedAt := Some(at))
    case Overstaying(_, _, at) => row.(status := Stuck, stuckAt := Some(at))
  }

  function EventOf(f: Finding): Event {
    match f
    case Deep(id, block, tip, depth, at) => RowConfirmed(id, block, tip, depth, at)
    case Orphaned(id, receipt, now, at) => RowReorged(id, receipt, now, at)
    case Overstaying(id, now, at) => RowStuck(id, now, at)
  }

  /** A finding applies exactly if the protocol takes its step, and is then written as the protocol writes it. */
  lemma FindingIsAStep(cfg: Config, s: State, f: Finding)
    requires f.id in s.rows
    ensures Applies(cfg, f, s.rows[f.id]) <==> Next(cfg, s, EventOf(f)) != s
    ensures Applies(cfg, f, s.rows[f.id]) ==> Next(cfg, s, EventOf(f)) == WithRow(s, f.id, Updated(f, s.rows[f.id]))
  {
    hide WithRow;
  }

  function Elements(ids: seq<TxId>): set<TxId> { set id <- ids }

  /** SELECT without a limit: the candidates in some order. */
  method All(candidates: set<TxId>) returns (ids: seq<TxId>)
    ensures Distinct(ids) && Elements(ids) == candidates
  {
    ids := [];
    var rest := candidates;
    while rest != {}
      invariant Distinct(ids) && rest <= candidates
      invariant forall id <- ids :: id !in rest
      invariant Elements(ids) + rest == candidates
      decreases rest
    {
      var id :| id in rest;
      ids := ids + [id];
      rest := rest - {id};
    }
  }

  /** SELECT ... LIMIT: all candidates, or as many as the limit allows. */
  method Pick(candidates: set<TxId>, limit: nat) returns (ids: seq<TxId>)
    ensures |ids| <= limit && Polled(ids, limit, candidates) && forall id <- ids :: id in candidates
  {
    ids := All(candidates);
    assert forall id <- ids :: id in Elements(ids);
    if |ids| > limit {
      ids := ids[..limit];
    }
  }

  /** tx.status = ... on one row, as part of a commit. */
  method Put(db: Platform, f: Finding)
    requires db.Valid() && f.id in db.rows && Applies(db.cfg, f, db.rows[f.id])
    modifies db
    ensures db.Valid() && old(db.trace) <= db.trace
    ensures db.rows == old(db.rows)[f.id := Updated(f, old(db.rows)[f.id])]
  {
    hide Run, Next, TriesOf, Updated, Applies;
    var before := db.Present();
    FindingIsAStep(db.cfg, before, f);
    db.rows := db.rows[f.id := Updated(f, db.rows[f.id])];
    db.Log(EventOf(f), before);
  }

  /** The one commit of a loop: every finding is written, nothing else changes. */
  method Commit(db: Platform, fs: seq<Finding>)
    requires db.Valid() && OncePerRow(fs)
    requires forall f <- fs :: f.id in db.rows && Applies(db.cfg, f, db.rows[f.id])
    modifies db
    ensures db.Valid() && old(db.trace) <= db.trace && db.rows.Keys == old(db.rows).Keys
    ensures forall f <- fs :: f.id in db.rows && db.rows[f.id] == Updated(f, old(db.rows)[f.id])
    ensures forall id <- db.rows :: id !in Found(fs) ==> db.rows[id] == old(db.rows)[id]
  {
    hide Run, Next, TriesOf, Updated, Applies, Platform.Valid;
    for i := 0 to |fs|
      invariant db.Valid() && old(db.trace) <= db.trace && db.rows.Keys == old(db.rows).Keys
      invariant forall id <- db.rows :: id !in Found(fs[..i]) ==> db.rows[id] == old(db.rows)[id]
      invariant forall j | 0 <= j < i :: db.rows[fs[j].id] == Updated(fs[j], old(db.rows)[fs[j].id])
    {
      assert fs[..i + 1] == fs[..i] + [fs[i]];
      Put(db, fs[i]);
    }
    assert fs[..|fs|] == fs;
  }

  /** The outcome of a worker loop, whatever the others did to other rows meanwhile. */
  ghost predicate Written(cfg: Config, rows: Rows, rows': Rows, fs: seq<Finding>) {
    && OncePerRow(fs)
    && (forall f <- fs :: f.id in rows && Applies(cfg, f, rows[f.id]) && f.id in rows'
          && rows'[f.id] == Updated(f, rows[f.id]).(nonce := rows'[f.id].nonce))
    && (forall id <- rows :: Watched(rows[id]) && id !in Found(fs) ==> KeepsRow(rows, rows', id))
  }

  /** What was found of a row stays true until the commit: only the worker moves such rows. */
  lemma FindingsStayTrue(cfg: Config, rows: Rows, rows': Rows, fs: seq<Finding>)
    requires KeepsWatched(rows, rows')
    requires forall f <- fs :: f.id in rows && Applies(cfg, f, rows[f.id])
    ensures forall f <- fs :: f.id in rows' && Applies(cfg, f, rows'[f.id])
  {
  }

  lemma WatchedRowStays(rows: Rows, rows': Rows, id: TxId)
    requires KeepsWatched(rows, rows') && id in rows && Watched(rows[id])
    ensures KeepsRow(rows, rows', id)
  {
  }

  lemma AllAreFlagged(cfg: Config, rows: Rows, rows': Rows, ids: seq<TxId>, stuck: seq<Finding>, clock: Clock)
    requires forall id <- rows :: Overstays(rows[id], clock.query - cfg.stuckAfter) ==> id in ids
    requires |stuck| == |ids| && forall j | 0 <= j < |ids| ::
      stuck[j] == Overstaying(ids[j], clock.query, clock.row(ids[j]))
    requires rows'.Keys == rows.Keys && forall f <- stuck :: f.id in rows && rows'[f.id] == Updated(f, rows[f.id])
    requires forall id <- rows :: id !in Found(stuck) ==> rows'[id] == rows[id]
    ensures forall id <- rows' :: !Overstays(rows'[id], clock.query - cfg.stuckAfter)
  {
  }

  /** Only a broadcast row that has been out for too long is flagged, and that is all that happens to it. */
  lemma OnlyLateRowsAreFlagged(cfg: Config, rows: Rows, rows': Rows, stuck: seq<Finding>, clock: Clock)
    requires rows'.Keys == rows.Keys
    requires forall f <- stuck :: FoundLate(f, clock) && f.id in rows && Applies(cfg, f, rows[f.id])
    requires forall f <- stuck :: f.id in rows && rows'[f.id] == Updated(f, rows[f.id])
    requires forall id <- rows :: id !in Found(stuck) ==> rows'[id] == rows[id]
    ensures forall id <- rows :: rows'[id] != rows[id] ==>
              && rows[id].status == Broadcast && rows[id].stuckAt.None?
              && rows[id].broadcastAt.Some? && clock.query - rows[id].broadcastAt.value > cfg.stuckAfter
              && rows'[id] == rows[id].(status := Stuck, stuckAt := Some(clock.row(id)))
  {
  }

  /** The rows a limited query returned: distinct candidates, and all of them unless the limit cut in. */
  ghost predicate Polled(ids: seq<TxId>, limit: nat, candidates: set<TxId>) {
    Distinct(ids) && Elements(ids) <= candidates && (|ids| == limit || Elements(ids) == candidates)
  }

  /** confirm_broadcasts: of the polled rows exactly those with a deep receipt became executed, in its block. */
  ghost predicate Confirmed(cfg: Config, chain: TxId -> Receipt, clock: TxId -> int, limit: nat,
      rows: Rows, rows': Rows, polled: seq<TxId>, deep: seq<Finding>) {
    && Polled(polled, limit, set id <- rows | AwaitsReceipt(rows[id]))
    && (forall id <- polled :: id in Found(deep) <==> IsDeep(chain(id)))
    && (forall f <- deep :: f.id in polled && FoundDeep(f, chain, clock))
    && Written(cfg, rows, rows', deep)
  }

  /** detect_reorgs: of the polled rows exactly those whose block is gone became reorged. */
  ghost predicate Reverified(cfg: Config, chain: TxId -> Receipt, clock: Clock, limit: nat,
      rows: Rows, rows': Rows, polled: seq<TxId>, gone: seq<Finding>) {
    && Polled(polled, limit, set id <- rows | Reverifiable(rows[id], clock.query - cfg.reorgWatch))
    && (forall id <- polled :: id in rows && (id in Found(gone) <==> IsGone(chain(id), rows[id].block)))
    && (forall f <- gone :: f.id in polled && FoundGone(f, chain, clock))
    && Written(cfg, rows, rows', gone)
  }

  /** Only a receipt that far below the tip ends the wait. */
  lemma ConfirmedMeans(cfg: Config, chain: TxId -> Receipt, clock: TxId -> int, limit: nat,
      rows: Rows, rows': Rows, polled: seq<TxId>, deep: seq<Finding>)
    requires Confirmed(cfg, chain, clock, limit, rows, rows', polled, deep)
    ensures forall id <- polled :: id in rows && id in rows' &&
              match chain(id)
              case Mined(block, Some(tip), depth) =>
                if tip - block >= depth
                then rows'[id].status == Executed && rows'[id].block == Some(block)
                     && rows'[id].confirmedAt == Some(clock(id))
                else KeepsRow(rows, rows', id) && rows[id].status == Broadcast
              case _ => KeepsRow(rows, rows', id) && rows[id].status == Broadcast
    ensures |polled| != limit ==>
              forall id <- rows :: id in polled <==> rows[id].status == Broadcast && rows[id].txHash.Some?
  {
    PolledMeans(polled, limit, set id <- rows | AwaitsReceipt(rows[id]));
  }

  lemma PolledMeans(ids: seq<TxId>, limit: nat, candidates: set<TxId>)
    requires Polled(ids, limit, candidates)
    ensures forall id <- ids :: id in candidates
    ensures |ids| != limit ==> forall id <- candidates :: id in ids
  {
    assert forall id <- ids :: id in Elements(ids);
  }

  /** No receipt, or a receipt in another block than the recorded one, is a reorg; a failed read is not. */
  lemma ReverifiedMeans(cfg: Config, chain: TxId -> Receipt, clock: Clock, limit: nat,
      rows: Rows, rows': Rows, polled: seq<TxId>, gone: seq<Finding>)
    requires Reverified(cfg, chain, clock, limit, rows, rows', polled, gone)
    ensures forall id <- polled :: id in rows && id in rows' &&
              match chain(id)
              case RpcFailed => rows'[id].status == Executed && KeepsRow(rows, rows', id)
              case NotMined => rows'[id].status == Reorged && rows'[id].reorgedAt == Some(clock.row(id))
              case Mined(block, _, _) =>
                if rows[id].block.None? || rows[id].block == Some(block)
                then rows'[id].status == Executed && KeepsRow(rows, rows', id)
                else rows'[id].status == Reorged && rows'[id].reorgedAt == Some(clock.row(id))
    ensures |polled| != limit ==>
              forall id <- rows :: id in polled <==>
                && rows[id].status == Executed && rows[id].txHash.Some?
                && rows[id].confirmedAt.Some? && rows[id].confirmedAt.value >= clock.query - cfg.reorgWatch
  {
    PolledMeans(polled, limit, set id <- rows | Reverifiable(rows[id], clock.query - cfg.reorgWatch));
  }

  /** What the loops of a tick polled and found, and the rows as each left them to the next. */
  datatype Report = Report(
    polled: seq<TxId>, deep: seq<Finding>, confirmed: Rows,
    reverified: seq<TxId>, gone: seq<Finding>, checked: Rows,
    late: seq<Finding>)

  function OneMore(fs: seq<Finding>, f: Finding): (fs': seq<Finding>)
    ensures Found(fs') == Found(fs) + {f.id}
    ensures fs' == fs + [f]
  {
    assert forall x <- fs :: x in fs + [f];
    fs + [f]
  }

  class ConfirmMonitor {
    const db: Platform

    constructor (db: Platform)
      ensures this.db == db
    {
      this.db := db;
    }

    /** The polling loop of confirm_broadcasts; others go on during each RPC. */
    method PollConfirmations(chain: TxId -> Receipt, clock: TxId -> int, ids: seq<TxId>) returns (deep: seq<Finding>)
      requires db.Valid() && Distinct(ids) && forall id <- ids :: id in db.rows && AwaitsReceipt(db.rows[id])
      modifies db
      ensures db.Valid() && old(db.trace) <= db.trace && KeepsWatched(old(db.rows), db.rows)
      ensures OncePerRow(deep)
      ensures forall f <- deep :: f.id in ids && FoundDeep(f, chain, clock)
      ensures forall f <- deep :: Applies(db.cfg, f, old(db.rows)[f.id])
      ensures forall id <- ids :: id in Found(deep) <==> IsDeep(chain(id))
    {
      hide Run, Next, TriesOf, KeepsWatched, RowsMove, Platform.Valid;
      deep := [];
      NobodyKeepsWatched(db.rows);
      for i := 0 to |ids|
        invariant db.Valid() && old(db.trace) <= db.trace && KeepsWatched(old(db.rows), db.rows)
        invariant OncePerRow(deep)
        invariant forall f <- deep :: f.id in ids[..i] && FoundDeep(f, chain, clock)
        invariant forall f <- deep :: Applies(db.cfg, f, old(db.rows)[f.id])
        invariant forall id <- ids[..i] :: id in Found(deep) <==> IsDeep(chain(id))
      {
        ghost var rows0 := db.rows;
        db.Others(Worker);
        KeepsWatchedTwice(old(db.rows), rows0, db.rows);
        var receipt := chain(ids[i]);
        if IsDeep(receipt) {
          deep := OneMore(deep, Deep(ids[i], receipt.block, receipt.tip.value, receipt.depth, clock(ids[i])));
        }
      }
    }

    /** Marks rows executed once their receipt is deep enough. */
    method ConfirmBroadcasts(chain: TxId -> Receipt, clock: TxId -> int, limit: nat)
      returns (deep: seq<Finding>, ghost polled: seq<TxId>)
      requires db.Valid()
      modifies db
      ensures db.Valid() && old(db.trace) <= db.trace
      ensures Confirmed(db.cfg, chain, clock, limit, old(db.rows), db.rows, polled, deep)
      ensures forall id <- polled :: id in old(db.rows) && id in db.rows && db.rows[id].status ==
                match chain(id)
                case Mined(block, Some(tip), depth) => if tip - block >= depth then Executed else Broadcast
                case _ => Broadcast
    {
      hide Run, Next, TriesOf, KeepsWatched, RowsMove, Written, Updated, Platform.Valid;
      var waiting := set id <- db.rows | AwaitsReceipt(db.rows[id]);
      var ids := Pick(waiting, limit);
      polled := ids;
      deep := PollConfirmations(chain, clock, ids);
      FindingsStayTrue(db.cfg, old(db.rows), db.rows, deep);
      CommitWritten(old(db.rows), deep);
      ConfirmedMeans(db.cfg, chain, clock, limit, old(db.rows), db.rows, polled, deep);
    }

    /** The polling loop of detect_reorgs. */
    method PollReorgs(chain: TxId -> Receipt, clock: Clock, ids: seq<TxId>) returns (gone: seq<Finding>)
      requires db.Valid() && Distinct(ids)
      requires forall id <- ids :: id in db.rows && Reverifiable(db.rows[id], clock.query - db.cfg.reorgWatch)
      modifies db
      ensures db.Valid() && old(db.trace) <= db.trace && KeepsWatched(old(db.rows), db.rows)
      ensures OncePerRow(gone)
      ensures forall f <- gone :: f.id in ids && FoundGone(f, chain, clock) && Applies(db.cfg, f, old(db.rows)[f.id])
      ensures forall id <- ids :: id in Found(gone) <==> IsGone(chain(id), old(db.rows)[id].block)
    {
      hide Run, Next, TriesOf, KeepsWatched, RowsMove, Differs, Platform.Valid;
      gone := [];
      NobodyKeepsWatched(db.rows);
      for i := 0 to |ids|
        invariant db.Valid() && old(db.trace) <= db.trace && KeepsWatched(old(db.rows), db.rows)
        invariant OncePerRow(gone)
        invariant forall f <- gone ::
          f.id in ids[..i] && FoundGone(f, chain, clock) && Applies(db.cfg, f, old(db.rows)[f.id])
        invariant forall id <- ids[..i] :: id in Found(gone) <==> IsGone(chain(id), old(db.rows)[id].block)
      {
        ghost var rows0 := db.rows;
        db.Others(Worker);
        KeepsWatchedTwice(old(db.rows), rows0, db.rows);
        WatchedRowStays(old(db.rows), db.rows, ids[i]);
        var receipt := chain(ids[i]);
        if !receipt.RpcFailed? && Differs(BlockOf(receipt), db.rows[ids[i]].block) {
          gone := OneMore(gone, Orphaned(ids[i], BlockOf(receipt), clock.query, clock.row(ids[i])));
        }
      }
    }

    /** Flags executed rows of the watch window whose block was orphaned. */
    method DetectReorgs(chain: TxId -> Receipt, clock: Clock, limit: nat)
      returns (gone: seq<Finding>, ghost polled: seq<TxId>)
      requires db.Valid()
      modifies db
      ensures db.Valid() && old(db.trace) <= db.trace
      ensures Reverified(db.cfg, chain, clock, limit, old(db.rows), db.rows, polled, gone)
      ensures forall id <- polled :: id in old(db.rows) && id in db.rows && db.rows[id].status ==
                match chain(id)
                case RpcFailed => Executed
                case NotMined => Reorged
                case Mined(block, _, _) =>
                  if old(db.rows)[id].block.None? || old(db.rows)[id].block == Some(block) then Executed else Reorged
    {
      hide Run, Next, TriesOf, KeepsWatched, RowsMove, Written, Updated, IsGone, Platform.Valid;
      var watched := set id <- db.rows | Reverifiable(db.rows[id], clock.query - db.cfg.reorgWatch);
      var ids := Pick(watched, limit);
      polled := ids;
      gone := PollReorgs(chain, clock, ids);
      FindingsStayTrue(db.cfg, old(db.rows), db.rows, gone);
      CommitWritten(old(db.rows), gone);
      ReverifiedMeans(db.cfg, chain, clock, limit, old(db.rows), db.rows, polled, gone);
    }

    static method Flag(ids: seq<TxId>, clock: Clock) returns (stuck: seq<Finding>)
      ensures |stuck| == |ids| && forall j | 0 <= j < |ids| ::
        stuck[j] == Overstaying(ids[j], clock.query, clock.row(ids[j]))
    {
      stuck := [];
      for i := 0 to |ids|
        invariant |stuck| == i
        invariant forall j | 0 <= j < i :: stuck[j] == Overstaying(ids[j], clock.query, clock.row(ids[j]))
      {
        stuck := stuck + [Overstaying(ids[i], clock.query, clock.row(ids[i]))];
      }
    }

    /** flag_stuck: no RPC, so query and commit see the same rows. */
    method FlagStuck(limit: nat, clock: Clock) returns (stuck: seq<Finding>)
      requires db.Valid()
      modifies db
      ensures db.Valid() && old(db.trace) <= db.trace && |stuck| <= limit && forall f <- stuck :: FoundLate(f, clock)
      ensures Written(db.cfg, old(db.rows), db.rows, stuck)
      ensures forall id <- old(db.rows) :: id in db.rows &&
                (db.rows[id] != old(db.rows)[id] ==>
                 && old(db.rows)[id].status == Broadcast && old(db.rows)[id].stuckAt.None?
                 && old(db.rows)[id].broadcastAt.Some?
                 && clock.query - old(db.rows)[id].broadcastAt.value > db.cfg.stuckAfter
                 && db.rows[id] == old(db.rows)[id].(status := Stuck, stuckAt := Some(clock.row(id))))
      ensures |stuck| == limit || forall id <- db.rows ::
                db.rows[id].status == Broadcast && db.rows[id].stuckAt.None? && db.rows[id].broadcastAt.Some? ==>
                  clock.query - db.rows[id].broadcastAt.value <= db.cfg.stuckAfter
    {
      hide Run, Next, TriesOf, RowsMove, Platform.Valid;
      var late := set id <- db.rows | Overstays(db.rows[id], clock.query - db.cfg.stuckAfter);
      var ids := Pick(late, limit);
      assert forall id <- ids :: id in db.rows && Overstays(db.rows[id], clock.query - db.cfg.stuckAfter);
      stuck := Flag(ids, clock);
      Commit(db, stuck);
      OnlyLateRowsAreFlagged(db.cfg, old(db.rows), db.rows, stuck, clock);
      if |stuck| < limit {
        assert forall id <- late :: id in Elements(ids) && id in ids;
        AllAreFlagged(db.cfg, old(db.rows), db.rows, ids, stuck, clock);
      }
    }

    /**
      worker.tick: confirm, then look for reorgs, then flag what is stuck, each on what the one
      before left. Every row a loop polled is written exactly if the chain's answer demands it.
     */
    method Tick(seen: TxId -> Receipt, confirming: TxId -> int, again: TxId -> Receipt, checking: Clock,
        flagging: Clock, limit: nat)
      returns (executed: nat, reorged: nat, stuck: nat, ghost r: Report)
      requires db.Valid()
      modifies db
      ensures db.Valid() && old(db.trace) <= db.trace
      ensures executed == |r.deep| && reorged == |r.gone| && stuck == |r.late| <= limit
      ensures Confirmed(db.cfg, seen, confirming, limit, old(db.rows), r.confirmed, r.polled, r.deep)
      ensures Reverified(db.cfg, again, checking, limit, r.confirmed, r.checked, r.reverified, r.gone)
      ensures Written(db.cfg, r.checked, db.rows, r.late) && forall f <- r.late :: FoundLate(f, flagging)
      ensures forall id <- r.polled :: id in r.confirmed && r.confirmed[id].status ==
                match seen(id)
                case Mined(block, Some(tip), depth) => if tip - block >= depth then Executed else Broadcast
                case _ => Broadcast
      ensures forall id <- r.reverified :: id in r.confirmed && id in r.checked && r.checked[id].status ==
                match again(id)
                case RpcFailed => Executed
                case NotMined => Reorged
                case Mined(block, _, _) =>
                  if r.confirmed[id].block.None? || r.confirmed[id].block == Some(block) then Executed else Reorged
      ensures stuck == limit || forall id <- db.rows ::
                db.rows[id].status == Broadcast && db.rows[id].stuckAt.None? && db.rows[id].broadcastAt.Some? ==>
                  flagging.query - db.rows[id].broadcastAt.value <= db.cfg.stuckAfter
    {
      hide Written, Run, Confirmed, Reverified, Platform.Valid;
      var deep, polled := ConfirmBroadcasts(seen, confirming, limit);
      ghost var confirmed := db.rows;
      var gone, reverified := DetectReorgs(again, checking, limit);
      ghost var checked := db.rows;
      var late := FlagStuck(limit, flagging);
      return |deep|, |gone|, |late|, Report(polled, deep, confirmed, reverified, gone, checked, late);
    }

    method CommitWritten(ghost rows: Rows, fs: seq<Finding>)
      requires db.Valid() && OncePerRow(fs) && KeepsWatched(rows, db.rows)
      requires forall f <- fs :: f.id in rows && Applies(db.cfg, f, rows[f.id])
      requires forall f <- fs :: f.id in db.rows && Applies(db.cfg, f, db.rows[f.id])
      modifies db
      ensures db.Valid() && old(db.trace) <= db.trace
      ensures Written(db.cfg, rows, db.rows, fs)
    {
      hide Run, Next, TriesOf, Platform.Valid;
      ghost var polled := db.rows;
      forall f <- fs
        ensures KeepsRow(rows, polled, f.id)
      {
        assert Watched(rows[f.id]);
      }
      Commit(db, fs);
    }
  }

  // -------------------------------------------------------------- escalations

  datatype Verdict = Decided | NotFound | AlreadyDecided(status: ApprovalStatus)

  lemma NothingToExpire(s: State, due: set<TxId>)
    requires due == {}
    ensures Expire(s, due) == s
  {
  }

  lemma SweptTables(s: State, due: set<TxId>)
    ensures var s' := Expire(s, due);
            && s'.rows.Keys == s.rows.Keys && s'.approvals.Keys == s.approvals.Keys
            && s'.tokens == s.tokens && s'.counters == s.counters && s'.locks == s.locks && s'.sent == s.sent
  {
  }

  lemma DecidedTables(s: State, id: TxId, org: string, approve: bool, checked: int, decided: int)
    requires OverdueIn(s, org, checked) == {}
    requires id in s.approvals && s.approvals[id].org == org && s.approvals[id].status == Pending
    requires id in s.rows && s.rows[id].org == org
    ensures var s' := DecideStep(s, id, org, approve, checked, decided);
            && s'.approvals == s.approvals[id := s.approvals[id].(status := DecidedStatus(approve, checked, decided))]
            && s'.rows == s.rows[id := s.rows[id].(status := if approve then Approved else Rejected)]
            && s'.tokens == s.tokens && s'.counters == s.counters && s'.locks == s.locks && s'.sent == s.sent
  {
    hide Expire;
    NothingToExpire(s, OverdueIn(s, org, checked));
  }

  /** What is left after a sweep is not overdue by the same reading of the clock. */
  lemma SweepOnceIsEnough(s: State, id: TxId, org: string, approve: bool, checked: int, decided: int)
    ensures var swept := Expire(s, OverdueIn(s, org, checked));
            && OverdueIn(swept, org, checked) == {}
            && DecideStep(swept, id, org, approve, checked, decided)
               == DecideStep(s, id, org, approve, checked, decided)
  {
    var swept := Expire(s, OverdueIn(s, org, checked));
    assert OverdueIn(swept, org, checked) == {};
    NothingToExpire(swept, OverdueIn(swept, org, checked));
  }

  /** A sweep expires what is pending past its time, and rejects those rows with it. */
  lemma SweepMeans(s: State, org: string, now: int)
    ensures var s' := Expire(s, OverdueIn(s, org, now));
            && (forall id <- s.approvals :: id in s'.approvals && s'.approvals[id].status ==
                  var a := s.approvals[id];
                  if a.org == org && a.status == Pending && a.expiresAt.Some? && now > a.expiresAt.value
                  then Expired else a.status)
            && (forall id <- s.rows :: id in s'.rows && s'.rows[id].status ==
                  if id in s.approvals && s.approvals[id].org == org && s.approvals[id].status == Pending
                     && s.approvals[id].expiresAt.Some? && now > s.approvals[id].expiresAt.value
                  then Rejected else s.rows[id].status)
  {
  }

  class Escalations {
    const db: Platform

    constructor (db: Platform)
      ensures this.db == db
    {
      this.db := db;
    }

    /** Each overdue approval and its row change together, in one commit. */
    method Sweep(due: seq<TxId>, e: Event)
      requires db.Valid() && !e.SendTried? && Distinct(due)
      requires Next(db.cfg, db.Present(), e) == Expire(db.Present(), Elements(due))
      requires forall id <- due :: id in db.approvals
      modifies db
      ensures db.Valid() && old(db.trace) <= db.trace
      ensures db.Present() == Expire(old(db.Present()), Elements(due))
    {
      hide Run, Next, TriesOf, Expire;
      var before := db.Present();
      SweptTables(before, Elements(due));
      db.approvals, db.rows := ExpireAll(before, due);
      db.Log(e, before);
    }

    /** _expire_overdue: everything overdue in the organisation. */
    method ExpireOverdue(org: string, now: int)
      requires db.Valid()
      modifies db
      ensures db.Valid() && old(db.trace) <= db.trace
      ensures db.Present() == Expire(old(db.Present()), OverdueIn(old(db.Present()), org, now))
      ensures forall id <- old(db.approvals) :: id in db.approvals && db.approvals[id].status ==
                var a := old(db.approvals)[id];
                if a.org == org && a.status == Pending && a.expiresAt.Some? && now > a.expiresAt.value
                then Expired else a.status
    {
      hide Run, Expire;
      SweepMeans(db.Present(), org, now);
      var due := All(OverdueIn(db.Present(), org, now));
      if due != [] {
        assert forall id <- due :: id in Elements(due);
        Sweep(due, OrgSwept(org, now));
      } else {
        NothingToExpire(db.Present(), OverdueIn(db.Present(), org, now));
      }
    }

    /** expire_overdue of the notification service: any organisation, a bounded number at a time. */
    method ExpireSome(limit: nat, now: int) returns (expired: seq<TxId>)
      requires db.Valid()
      modifies db
      ensures db.Valid() && old(db.trace) <= db.trace && |expired| <= limit && Distinct(expired)
      ensures forall id <- expired ::
                && id in old(db.approvals) && old(db.approvals)[id].status == Pending
                && old(db.approvals)[id].expiresAt.Some? && now > old(db.approvals)[id].expiresAt.value
      ensures db.Present() == Expire(old(db.Present()), Elements(expired))
      ensures |expired| == limit || forall id <- db.approvals ::
                db.approvals[id].status == Pending && db.approvals[id].expiresAt.Some? ==>
                  now <= db.approvals[id].expiresAt.value
    {
      hide Run, Platform.Valid;
      var overdue := set id <- db.approvals | IsOverdue(db.approvals[id], now);
      expired := Pick(overdue, limit);
      assert forall id <- expired :: id in Elements(expired);
      assert OverdueAmong(db.Present(), Elements(expired), now) == Elements(expired);
      Sweep(expired, Swept(Elements(expired), now));
    }

    /** _decide: expire what is overdue at `checked`, then decide at `decided` what is still pending. */
    method Decide(id: TxId, org: string, approve: bool, checked: int, decided: int) returns (v: Verdict)
      requires db.Valid()
      modifies db
      ensures db.Valid() && old(db.trace) <= db.trace
      ensures v == NotFound <==> !(id in old(db.approvals) && old(db.approvals)[id].org == org)
      ensures v.AlreadyDecided? ==> id in db.approvals && db.approvals[id].status == v.status != Pending
      ensures v.Decided? <==>
                && id in old(db.approvals) && old(db.approvals)[id].org == org
                && old(db.approvals)[id].status == Pending
                && (old(db.approvals)[id].expiresAt.Some? ==> checked <= old(db.approvals)[id].expiresAt.value)
      ensures v.Decided? ==>
                && id in db.approvals
                && db.approvals[id].status == (if approve then ApprovedBy(decided, checked) else RejectedBy(decided))
                && id in db.rows && db.rows[id].status == (if approve then Approved else Rejected)
      ensures db.Present() == DecideStep(old(db.Present()), id, org, approve, checked, decided)
    {
      hide Run, Platform.Valid;
      SweepOnceIsEnough(db.Present(), id, org, approve, checked, decided);
      ExpireOverdue(org, checked);
      if id !in db.approvals || db.approvals[id].org != org {
        return NotFound;
      }
      if db.approvals[id].status != Pending {
        return AlreadyDecided(db.approvals[id].status);
      }
      DecidePending(id, org, approve, checked, decided);
      return Decided;
    }

    method DecidePending(id: TxId, org: string, approve: bool, checked: int, decided: int)
      requires db.Valid() && OverdueIn(db.Present(), org, checked) == {}
      requires id in db.approvals && db.approvals[id].org == org && db.approvals[id].status == Pending
      modifies db
      ensures db.Valid() && old(db.trace) <= db.trace
      ensures id in db.approvals && db.approvals[id].status == DecidedStatus(approve, checked, decided)
      ensures id in db.rows && db.rows[id].status == (if approve then Approved else Rejected)
      ensures db.Present() == DecideStep(old(db.Present()), id, org, approve, checked, decided)
    {
      hide Run, Inv, Payloads, DecideStep;
      var before := db.Present();
      db.PresentIsSound();
      PendingIsEscalated(before, {id});
      ApprovalFacts(before, id);
      DecidedTables(before, id, org, approve, checked, decided);
      db.approvals := db.approvals[id := db.approvals[id].(status := DecidedStatus(approve, checked, decided))];
      if id in db.rows && db.rows[id].org == org {
        db.rows := db.rows[id := db.rows[id].(status := if approve then Approved else Rejected)];
      }
      db.Log(ApprovalDecided(id, org, approve, checked, decided), before);
    }

    static method ExpireAll(s: State, due: seq<TxId>) returns (approvals: map<TxId, Approval>, rows: Rows)
      requires Distinct(due) && forall id <- due :: id in s.approvals
      ensures approvals == Expire(s, Elements(due)).approvals && rows == Expire(s, Elements(due)).rows
    {
      hide Expire;
      approvals, rows := s.approvals, s.rows;
      assert due[..0] == [];
      NothingToExpire(s, Elements(due[..0]));
      for i := 0 to |due|
        invariant approvals == Expire(s, Elements(due[..i])).approvals
        invariant rows == Expire(s, Elements(due[..i])).rows
      {
        ExpireOneMore(s, due[..i], due[i]);
        assert due[..i + 1] == due[..i] + [due[i]];
        approvals := approvals[due[i] := approvals[due[i]].(status := Expired)];
        if due[i] in rows {
          rows := rows[due[i] := rows[due[i]].(status := Rejected)];
        }
      }
      assert due[..|due|] == due;
    }
  }

  lemma ExpireOneMore(s: State, due: seq<TxId>, id: TxId)
    requires id in s.approvals && id !in due
    ensures var s0, s1 := Expire(s, Elements(due)), Expire(s, Elements(due + [id]));
            && id in s0.approvals && s1.approvals == s0.approvals[id := s0.approvals[id].(status := Expired)]
            && s1.rows == if id in s0.rows then s0.rows[id := s0.rows[id].(status := Rejected)] else s0.rows
  {
  }

}
