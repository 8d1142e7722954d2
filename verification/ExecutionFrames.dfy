/** What one party of the broadcast protocol may rely on while all the others take steps. */
module ExecutionFrames {
  import opened SignedTx
  import opened Execution
  import opened ExecutionInvariant
  import opened ExecutionNonces
  import opened ExecutionRows
  import opened ExecutionResults

  datatype Actor = Caller(c: CallId) | Worker | Anyone | Nobody

  /** Who takes a step: a call in flight, the one worker loop, or somebody else. No step is Nobody's. */
  function ActorOf(e: Event): Actor {
    match e
    case PrepareRead(c, _) => Caller(c)
    case NonceReserved(c, _) => Caller(c)
    case NonceStored(c) => Caller(c)
    case TokenMinted(c) => Caller(c)
    case TokenConsumed(c, _, _, _, _) => Caller(c)
    case RowChecked(c) => Caller(c)
    case Rescreened(c, _) => Caller(c)
    case RowClaimed(c, _) => Caller(c)
    case SendTried(c, _) => Caller(c)
    case CallCommitted(c, _) => Caller(c)
    case CallReverted(c, _) => Caller(c)
    case CallCrashed(c) => Caller(c)
    case RowConfirmed(_, _, _, _, _) => Worker
    case RowReorged(_, _, _, _) => Worker
    case RowStuck(_, _, _) => Worker
    case _ => Anyone
  }

  /** The worker takes only the three steps of its loops, and a call only those that name it. */
  lemma WhoActs(e: Event)
    ensures ActorOf(e) == Worker <==> e.RowConfirmed? || e.RowReorged? || e.RowStuck?
    ensures ActorOf(e).Caller? <==>
      || e.PrepareRead? || e.NonceReserved? || e.NonceStored? || e.TokenMinted? || e.TokenConsumed? || e.RowChecked?
      || e.Rescreened? || e.RowClaimed? || e.SendTried? || e.CallCommitted? || e.CallReverted? || e.CallCrashed?
    ensures ActorOf(e).Caller? ==> e.c == ActorOf(e).c
    ensures ActorOf(e) != Nobody
  {
  }

  ghost predicate SameCall(calls: Calls, calls': Calls, c: CallId) {
    && (c in calls <==> c in calls')
    && (c in calls ==> calls'[c] == calls[c])
  }

  lemma FirstStepsKeepCall(cfg: Config, s: State, e: Event, c: CallId)
    requires ActorOf(e) != Caller(c) && (e.PrepareRead? || e.TokenConsumed? || e.TokenMinted?)
    ensures SameCall(s.calls, Next(cfg, s, e).calls, c)
  {
    hide PrepareInFlight, WithCalls;
  }

  lemma NonceStepsKeepCall(cfg: Config, s: State, e: Event, c: CallId)
    requires ActorOf(e) != Caller(c) && (e.NonceReserved? || e.NonceStored?)
    ensures SameCall(s.calls, Next(cfg, s, e).calls, c)
  {
    hide WithRow, WithCalls;
  }

  lemma CallStepsKeepCall(cfg: Config, s: State, e: Event, c: CallId)
    requires ActorOf(e) != Caller(c)
    requires e.RowChecked? || e.Rescreened? || e.RowClaimed? || e.SendTried?
    ensures SameCall(s.calls, Next(cfg, s, e).calls, c)
  {
    hide AfterCheck, AfterClaim, AfterSend, WithCalls, WithLock, WithSent;
  }

  lemma EndClaimDropsCall(s: State, c: CallId)
    ensures c in s.calls && s.calls[c].Working? && s.calls[c].id in s.charged ==>
              forall row :: EndClaim(s, c, row).calls == s.calls - {c}
  {
  }

  lemma LastStepsKeepCall(cfg: Config, s: State, e: Event, c: CallId)
    requires ActorOf(e) != Caller(c)
    requires e.CallCommitted? || e.CallReverted? || e.CallCrashed?
    ensures SameCall(s.calls, Next(cfg, s, e).calls, c)
  {
    hide WithCalls, EndClaim;
    EndClaimDropsCall(s, e.c);
  }

  lemma DecisionStepsKeepCall(cfg: Config, s: State, e: Event, c: CallId)
    requires e.RowScreened? || e.ApprovalDecided? || e.OrgSwept? || e.Swept?
    ensures Next(cfg, s, e).calls == s.calls
  {
  }

  lemma WatcherStepsKeepCall(cfg: Config, s: State, e: Event, c: CallId)
    requires e.TokenLapsed? || e.RowCancelled? || e.RowConfirmed? || e.RowReorged? || e.RowStuck?
    ensures Next(cfg, s, e).calls == s.calls
  {
    hide WithRow, WithoutToken;
  }

  lemma OthersKeepCall(cfg: Config, s: State, e: Event, c: CallId)
    requires ActorOf(e) != Caller(c)
    ensures SameCall(s.calls, Next(cfg, s, e).calls, c)
  {
    hide Next;
    if e.PrepareRead? || e.TokenConsumed? || e.TokenMinted? {
      FirstStepsKeepCall(cfg, s, e, c);
    } else if e.NonceReserved? || e.NonceStored? {
      NonceStepsKeepCall(cfg, s, e, c);
    } else if e.RowChecked? || e.Rescreened? || e.RowClaimed? || e.SendTried? {
      CallStepsKeepCall(cfg, s, e, c);
    } else if e.CallCommitted? || e.CallReverted? || e.CallCrashed? {
      LastStepsKeepCall(cfg, s, e, c);
    } else if e.RowScreened? || e.ApprovalDecided? || e.OrgSwept? || e.Swept? {
      DecisionStepsKeepCall(cfg, s, e, c);
    } else {
      WatcherStepsKeepCall(cfg, s, e, c);
    }
  }

  // ------------------------------------------------------------ rows move forward

  ghost predicate RowsMove(rows: Rows, rows': Rows) {
    forall id <- rows :: id in rows' && Advances(rows[id], rows'[id]) && SameNonce(rows[id], rows'[id])
  }

  lemma StepMovesRows(cfg: Config, s: State, e: Event)
    requires Sound(s) && Payloads(s)
    ensures RowsMove(s.rows, Next(cfg, s, e).rows)
  {
    hide Inv, Payloads, Next;
    StepAdvancesRows(cfg, s, e);
    StepKeepsRowNonces(cfg, s, e);
  }

  lemma RowsMoveTwice(a: Rows, b: Rows, c: Rows)
    requires RowsMove(a, b) && RowsMove(b, c)
    ensures RowsMove(a, c)
  {
    hide Advances;
    forall id <- a
      ensures id in c && Advances(a[id], c[id]) && SameNonce(a[id], c[id])
    {
      AdvancesIsTransitive(a[id], b[id], c[id]);
    }
  }

  lemma RowsStayPut(rows: Rows)
    ensures RowsMove(rows, rows)
  {
  }

  // ------------------------------------------------- rows the worker looks after

  /** The row is as it was, save perhaps for a nonce written into it. */
  ghost predicate KeepsRow(rows: Rows, rows': Rows, id: TxId) {
    id in rows && id in rows' && rows'[id] == rows[id].(nonce := rows'[id].nonce)
  }

  predicate Watched(row: Row) { row.status == Broadcast || row.status == Executed }

  ghost predicate KeepsWatched(rows: Rows, rows': Rows) {
    forall id <- rows :: Watched(rows[id]) ==> KeepsRow(rows, rows', id)
  }

  lemma KeepsWatchedTwice(a: Rows, b: Rows, c: Rows)
    requires KeepsWatched(a, b) && KeepsWatched(b, c)
    ensures KeepsWatched(a, c)
  {
  }

  lemma SweepKeepsWatchedRow(s: State, due: set<TxId>, id: TxId)
    requires Inv(s) && id in s.rows && Watched(s.rows[id])
    requires forall x <- due :: x in s.approvals && s.approvals[x].status == Pending
    ensures KeepsRow(s.rows, Expire(s, due).rows, id)
  {
    hide Inv;
    PendingIsEscalated(s, due);
  }

  lemma DecisionKeepsWatchedRow(s: State, id: TxId, chosen: TxId, org: string, approve: bool, checked: int,
      decided: int)
    requires Inv(s) && id in s.rows && Watched(s.rows[id])
    ensures KeepsRow(s.rows, DecideStep(s, chosen, org, approve, checked, decided).rows, id)
  {
    hide Inv, WithRow, WithApproval;
    var due := OverdueIn(s, org, checked);
    SweepKeepsWatchedRow(s, due, id);
    if chosen in s.approvals && s.approvals[chosen].status == Pending {
      PendingIsEscalated(s, {chosen});
    }
  }

  lemma EndedClaimKeepsWatchedRow(s: State, c: CallId, row: Row, id: TxId)
    requires Inv(s) && id in s.rows && Watched(s.rows[id])
    requires Holds(s, c) && s.calls[c].id in s.rows && s.calls[c].id in s.charged
    ensures KeepsRow(s.rows, EndClaim(s, c, row).rows, id)
  {
    hide Inv;
    HoldersAreSending(s, c);
    SenderFacts(s, c);
  }

  lemma CallStepsKeepWatchedRow(cfg: Config, s: State, e: Event, id: TxId)
    requires Inv(s) && id in s.rows && Watched(s.rows[id])
    requires e.CallCommitted? || e.CallReverted? || e.CallCrashed?
    ensures KeepsRow(s.rows, Next(cfg, s, e).rows, id)
  {
    hide Inv, EndClaim, WithCalls;
    if Holds(s, e.c) && s.calls[e.c].id in s.rows && s.calls[e.c].id in s.charged {
      forall row: Row
        ensures KeepsRow(s.rows, EndClaim(s, e.c, row).rows, id)
      {
        EndedClaimKeepsWatchedRow(s, e.c, row, id);
      }
    }
  }

  /** Broadcast and executed rows are the worker's alone, which is why it may update them by key. */
  lemma OthersKeepWatchedRow(cfg: Config, s: State, e: Event, id: TxId)
    requires Inv(s) && id in s.rows && Watched(s.rows[id]) && ActorOf(e) != Worker
    ensures KeepsRow(s.rows, Next(cfg, s, e).rows, id)
  {
    hide Inv, DecideStep, Expire, EndClaim, CommitStep, RevertStep, CrashStep, AfterCheck, AfterClaim, AfterSend,
      WithRow, WithCalls, WithLock, WithSent, WithoutToken, Fresh, KeepsRow;
    if e.CallCommitted? || e.CallReverted? || e.CallCrashed? {
      CallStepsKeepWatchedRow(cfg, s, e, id);
    } else if e.ApprovalDecided? {
      DecisionKeepsWatchedRow(s, id, e.id, e.org, e.approve, e.checked, e.decided);
    } else if e.OrgSwept? {
      SweepKeepsWatchedRow(s, OverdueIn(s, e.org, e.now), id);
    } else if e.Swept? {
      SweepKeepsWatchedRow(s, OverdueAmong(s, e.ids, e.now), id);
    } else {
      PlainStepsKeepWatchedRow(cfg, s, e, id);
    }
  }

  lemma PlainStepsKeepWatchedRow(cfg: Config, s: State, e: Event, id: TxId)
    requires id in s.rows && Watched(s.rows[id])
    requires e.RowScreened? || e.RowCancelled? || e.TokenLapsed? || e.PrepareRead? || e.NonceReserved? || e.NonceStored?
          || e.TokenMinted? || e.TokenConsumed? || e.RowChecked? || e.Rescreened? || e.RowClaimed? || e.SendTried?
    ensures KeepsRow(s.rows, Next(cfg, s, e).rows, id)
  {
    hide Next;
    if e.RowChecked? || e.Rescreened? || e.RowClaimed? || e.SendTried? {
      CheckingStepsKeepRows(cfg, s, e);
    } else {
      TableStepsKeepWatchedRow(cfg, s, e, id);
    }
  }

  lemma CheckingStepsKeepRows(cfg: Config, s: State, e: Event)
    requires e.RowChecked? || e.Rescreened? || e.RowClaimed? || e.SendTried?
    ensures Next(cfg, s, e).rows == s.rows
  {
    hide AfterCheck, AfterClaim, AfterSend, WithCalls, WithLock, WithSent;
  }

  lemma TableStepsKeepWatchedRow(cfg: Config, s: State, e: Event, id: TxId)
    requires id in s.rows && Watched(s.rows[id])
    requires e.RowScreened? || e.RowCancelled? || e.TokenLapsed? || e.PrepareRead? || e.NonceReserved? || e.NonceStored?
          || e.TokenMinted? || e.TokenConsumed?
    ensures KeepsRow(s.rows, Next(cfg, s, e).rows, id)
  {
    hide WithRow, WithCalls, WithoutToken, Fresh;
  }

  // --------------------------------------------------------------- row locks

  predicate IsLocked(s: State, id: TxId) { id in s.locks && id in s.rows && s.rows[id].status in {Approved, Stuck} }

  lemma LockedRowsAreClaimed(s: State, id: TxId)
    requires Inv(s) && id in s.locks
    ensures id in s.rows && IsLocked(s, id)
  {
    hide ApprovalsOk, TokensOk, ChargesOk, CallTokensOk, SentOk, UsesOk, OutOk;
  }

  lemma SweepKeepsLockedRow(s: State, due: set<TxId>, id: TxId)
    requires Inv(s) && IsLocked(s, id)
    requires forall x <- due :: x in s.approvals && s.approvals[x].status == Pending
    ensures id in Expire(s, due).rows && Expire(s, due).rows[id] == s.rows[id]
  {
    hide Inv;
    PendingIsEscalated(s, due);
  }

  lemma DecisionKeepsLockedRow(s: State, id: TxId, chosen: TxId, org: string, approve: bool, checked: int, decided: int)
    requires Inv(s) && IsLocked(s, id)
    ensures var rows := DecideStep(s, chosen, org, approve, checked, decided).rows;
            id in rows && rows[id] == s.rows[id]
  {
    hide Inv, WithRow, WithApproval;
    SweepKeepsLockedRow(s, OverdueIn(s, org, checked), id);
    if chosen in s.approvals && s.approvals[chosen].status == Pending {
      PendingIsEscalated(s, {chosen});
    }
  }

  lemma CallStepsKeepLockedRow(cfg: Config, s: State, e: Event, id: TxId)
    requires IsLocked(s, id) && (e.CallCommitted? || e.CallReverted? || e.CallCrashed?) && e.c != s.locks[id]
    ensures id in Next(cfg, s, e).rows && Next(cfg, s, e).rows[id] == s.rows[id]
  {
    hide WithCalls;
  }

  lemma TableStepsKeepLockedRow(cfg: Config, s: State, e: Event, id: TxId)
    requires IsLocked(s, id)
    requires e.RowScreened? || e.TokenLapsed? || e.PrepareRead? || e.NonceReserved? || e.NonceStored?
          || e.TokenMinted? || e.TokenConsumed?
    ensures id in Next(cfg, s, e).rows && Next(cfg, s, e).rows[id] == s.rows[id]
  {
    hide WithRow, WithCalls, WithoutToken, Fresh;
  }

  lemma WatcherStepsKeepLockedRow(cfg: Config, s: State, e: Event, id: TxId)
    requires IsLocked(s, id)
    requires e.RowCancelled? || e.RowConfirmed? || e.RowReorged? || e.RowStuck?
    ensures id in Next(cfg, s, e).rows && Next(cfg, s, e).rows[id] == s.rows[id]
  {
    hide WithRow;
  }

  /** A claimed row is changed by nobody but the call that has its lock: all others wait, or find it out of reach. */
  lemma LockedRowIsItsHolders(cfg: Config, s: State, e: Event, id: TxId)
    requires Inv(s) && id in s.locks && ActorOf(e) != Caller(s.locks[id])
    ensures id in s.rows && id in Next(cfg, s, e).rows && Next(cfg, s, e).rows[id] == s.rows[id]
  {
    hide Inv, Next, IsLocked, Expire;
    LockedRowsAreClaimed(s, id);
    if e.CallCommitted? || e.CallReverted? || e.CallCrashed? {
      CallStepsKeepLockedRow(cfg, s, e, id);
    } else if e.RowChecked? || e.Rescreened? || e.RowClaimed? || e.SendTried? {
      CheckingStepsKeepRows(cfg, s, e);
    } else if e.ApprovalDecided? || e.OrgSwept? || e.Swept? {
      SweepStepsKeepLockedRow(cfg, s, e, id);
    } else if e.RowCancelled? || e.RowConfirmed? || e.RowReorged? || e.RowStuck? {
      WatcherStepsKeepLockedRow(cfg, s, e, id);
    } else {
      TableStepsKeepLockedRow(cfg, s, e, id);
    }
  }

  lemma SweepStepsKeepLockedRow(cfg: Config, s: State, e: Event, id: TxId)
    requires Inv(s) && id in s.rows && IsLocked(s, id) && (e.ApprovalDecided? || e.OrgSwept? || e.Swept?)
    ensures id in Next(cfg, s, e).rows && Next(cfg, s, e).rows[id] == s.rows[id]
  {
    hide Inv, DecideStep, Expire, IsLocked;
    match e
    case ApprovalDecided(chosen, org, approve, checked, decided) =>
      DecisionKeepsLockedRow(s, id, chosen, org, approve, checked, decided);
    case OrgSwept(org, now) =>
      SweepKeepsLockedRow(s, OverdueIn(s, org, now), id);
    case Swept(ids, now) =>
      SweepKeepsLockedRow(s, OverdueAmong(s, ids, now), id);
  }
}
