/** How a transaction row can change: every step of the protocol only moves it forward. */
module ExecutionRows {
  import opened Wrappers
  import opened Text
  import opened SignedTx
  import opened Execution
  import opened ExecutionInvariant

  // ------------------------------------------------------ how a row can change

  /** Position of a row in its life: it only ever moves to a lower rank. */
  function Rank(row: Row): nat {
    match row.status
    case Escalated => 7
    case Approved => 6
    case Broadcast => if row.stuckAt.None? then 5 else 2
    case Stuck => 4
    case Broadcasting => 3
    case Executed => 1
    case Reorged => 0
    case Rejected => 0
    case Cancelled => 0
  }

  /** A row is marked stuck exactly from the moment it is first flagged. */
  predicate StuckMarkOk(row: Row) {
    && (row.status in {Escalated, Approved} ==> row.stuckAt.None?)
    && (row.status in {Stuck, Broadcasting} ==> row.stuckAt.Some?)
  }

  predicate RowOk(row: Row) { row.wallet == Lower(row.wallet) && StuckMarkOk(row) }

  ghost predicate AllRowsOk(rows: Rows) { forall id <- rows :: RowOk(rows[id]) }

  /** One commit: intent stays, and unless the row keeps its place it moves down. */
  predicate Advances(row: Row, row': Row) {
    && SameIntent(row, row')
    && (row.stuckAt.Some? ==> row'.stuckAt == row.stuckAt)
    && ((row'.status == row.status && row'.stuckAt == row.stuckAt) || Rank(row') < Rank(row))
  }

  ghost predicate RowsAdvance(rows: Rows, rows': Rows) {
    && (forall id <- rows :: id in rows' && Advances(rows[id], rows'[id]) && RowOk(rows'[id]))
    && (forall id <- rows' :: id !in rows ==> Fresh(rows'[id]))
  }

  lemma OneRowAdvances(rows: Rows, id: TxId, row: Row)
    requires AllRowsOk(rows) && id in rows && Advances(rows[id], row) && RowOk(row)
    ensures RowsAdvance(rows, rows[id := row])
  {
  }

  lemma ExpireAdvances(s: State, due: set<TxId>)
    requires AllRowsOk(s.rows)
    requires forall id <- due :: id in s.rows ==> s.rows[id].status == Escalated
    ensures RowsAdvance(s.rows, Expire(s, due).rows)
  {
  }

  lemma PendingIsEscalated(s: State, due: set<TxId>)
    requires Inv(s) && forall id <- due :: id in s.approvals && s.approvals[id].status == Pending
    ensures forall id <- due :: id in s.rows && s.rows[id].status == Escalated
  {
  }

  lemma SweepAdvances(s: State, ids: set<TxId>, now: int)
    requires Inv(s) && AllRowsOk(s.rows)
    ensures RowsAdvance(s.rows, SweepStep(s, ids, now).rows)
  {
    hide Inv, RowsAdvance, AllRowsOk, Expire;
    PendingIsEscalated(s, OverdueAmong(s, ids, now));
    ExpireAdvances(s, OverdueAmong(s, ids, now));
  }

  lemma OrgSweepAdvances(s: State, org: string, now: int)
    requires Inv(s) && AllRowsOk(s.rows)
    ensures RowsAdvance(s.rows, Expire(s, OverdueIn(s, org, now)).rows)
  {
    hide Inv, RowsAdvance, AllRowsOk, Expire;
    PendingIsEscalated(s, OverdueIn(s, org, now));
    ExpireAdvances(s, OverdueIn(s, org, now));
  }

  lemma DecideAdvances(s: State, id: TxId, org: string, approve: bool, checked: int, decided: int)
    requires Inv(s) && AllRowsOk(s.rows)
    ensures RowsAdvance(s.rows, DecideStep(s, id, org, approve, checked, decided).rows)
  {
    hide Inv, WithApproval, WithRow, RowsAdvance, AllRowsOk;
    var due := OverdueIn(s, org, checked);
    var swept := Expire(s, due);
    PendingIsEscalated(s, due);
    ExpireAdvances(s, due);
    if id in swept.approvals && swept.approvals[id].status == Pending {
      assert s.approvals[id].status == Pending && id !in due;
      PendingIsEscalated(s, {id});
      DecidedRowAdvances(s.rows, swept.rows, id, if approve then Approved else Rejected);
    }
  }

  lemma DecidedRowAdvances(rows: Rows, swept: Rows, id: TxId, status: Status)
    requires AllRowsOk(rows) && RowsAdvance(rows, swept)
    requires id in rows && id in swept && swept[id] == rows[id] && rows[id].status == Escalated
    requires status in {Approved, Rejected}
    ensures RowsAdvance(rows, swept[id := swept[id].(status := status)])
  {
  }

  lemma EndClaimAdvances(s: State, c: CallId, row: Row)
    requires Inv(s) && AllRowsOk(s.rows)
    requires Holds(s, c) && s.calls[c].id in s.rows && s.calls[c].id in s.charged
    requires row == s.rows[s.calls[c].id].(status := row.status, txHash := row.txHash, broadcastAt := row.broadcastAt)
    requires row.status in
      (if s.calls[c].kind == Submit then {Approved, Broadcast} else {Stuck, Broadcasting, Broadcast})
    ensures RowsAdvance(s.rows, EndClaim(s, c, row).rows)
  {
    hide Inv, RowsAdvance, Lower;
    HoldersAreSending(s, c);
    SenderFacts(s, c);
    ClaimedRowAdvances(s.rows[s.calls[c].id], row.(attempts := row.attempts + 1), s.calls[c].kind);
    OneRowAdvances(s.rows, s.calls[c].id, row.(attempts := row.attempts + 1));
  }

  lemma ClaimedRowAdvances(row: Row, row': Row, kind: Kind)
    requires RowOk(row) && row.status == ClaimableStatus(kind)
    requires row' ==
      row.(status := row'.status, txHash := row'.txHash, broadcastAt := row'.broadcastAt, attempts := row'.attempts)
    requires row'.status in (if kind == Submit then {Approved, Broadcast} else {Stuck, Broadcasting, Broadcast})
    ensures Advances(row, row') && RowOk(row')
  {
  }

  lemma StoreStepAdvances(cfg: Config, s: State, e: Event)
    requires Inv(s) && AllRowsOk(s.rows) && e.NonceStored?
    ensures RowsAdvance(s.rows, Next(cfg, s, e).rows)
  {
    hide Inv, RowsAdvance, AllRowsOk;
    NoRowChanges(s);
    if StoreStep(s, e.c) != s {
      StoredNonceAdvances(s, e.c);
    }
  }

  lemma StoredNonceAdvances(s: State, c: CallId)
    requires Inv(s) && AllRowsOk(s.rows) && c in s.calls && s.calls[c].Storing? && s.calls[c].id in s.rows
    ensures RowsAdvance(s.rows, s.rows[s.calls[c].id := s.rows[s.calls[c].id].(nonce := Some(s.calls[c].nonce))])
  {
    hide Inv;
    CallFacts(s, c);
    OneRowAdvances(s.rows, s.calls[c].id, s.rows[s.calls[c].id].(nonce := Some(s.calls[c].nonce)));
  }

  lemma NoRowChanges(s: State)
    requires AllRowsOk(s.rows)
    ensures RowsAdvance(s.rows, s.rows)
  {
  }

  lemma ConfirmAdvances(s: State, id: TxId, block: nat, tip: int, confirmations: int, now: int)
    requires AllRowsOk(s.rows)
    ensures RowsAdvance(s.rows, ConfirmStep(s, id, block, tip, confirmations, now).rows)
  {
    hide RowsAdvance, Lower;
    NoRowChanges(s);
    if ConfirmStep(s, id, block, tip, confirmations, now) != s {
      OneRowAdvances(s.rows, id, s.rows[id].(status := Executed, block := Some(block), confirmedAt := Some(now)));
    }
  }

  lemma ReorgAdvances(cfg: Config, s: State, id: TxId, block: Option<nat>, now: int, at: int)
    requires AllRowsOk(s.rows)
    ensures RowsAdvance(s.rows, ReorgStep(cfg, s, id, block, now, at).rows)
  {
    hide RowsAdvance, Lower;
    NoRowChanges(s);
    if ReorgStep(cfg, s, id, block, now, at) != s {
      OneRowAdvances(s.rows, id, s.rows[id].(status := Reorged, reorgedAt := Some(at)));
    }
  }

  lemma StuckAdvances(cfg: Config, s: State, id: TxId, now: int, at: int)
    requires AllRowsOk(s.rows)
    ensures RowsAdvance(s.rows, StuckStep(cfg, s, id, now, at).rows)
  {
    hide RowsAdvance, Lower;
    NoRowChanges(s);
    if StuckStep(cfg, s, id, now, at) != s {
      OneRowAdvances(s.rows, id, s.rows[id].(status := Stuck, stuckAt := Some(at)));
    }
  }

  lemma CancelAdvances(s: State, id: TxId)
    requires AllRowsOk(s.rows)
    ensures RowsAdvance(s.rows, CancelStep(s, id).rows)
  {
    hide RowsAdvance, Lower;
    NoRowChanges(s);
    if CancelStep(s, id) != s {
      OneRowAdvances(s.rows, id, s.rows[id].(status := Cancelled));
    }
  }

  lemma ScreenAdvances(s: State, id: TxId, row: Row, expiresAt: int)
    requires AllRowsOk(s.rows)
    ensures RowsAdvance(s.rows, ScreenStep(s, id, row, expiresAt).rows)
  {
  }

  lemma PrepareAndTokenStepsAdvance(cfg: Config, s: State, e: Event)
    requires AllRowsOk(s.rows)
    requires e.PrepareRead? || e.NonceReserved? || e.TokenMinted? || e.TokenLapsed? || e.TokenConsumed?
    ensures RowsAdvance(s.rows, Next(cfg, s, e).rows)
  {
    hide RowsAdvance, AllRowsOk;
    NoRowChanges(s);
  }

  lemma CheckAdvances(cfg: Config, s: State, c: CallId)
    requires AllRowsOk(s.rows)
    ensures RowsAdvance(s.rows, CheckStep(cfg, s, c).rows)
  {
    hide RowsAdvance, AllRowsOk, AfterCheck, AfterClaim, AfterSend, WithCalls;
    NoRowChanges(s);
  }

  lemma RescreenAdvances(s: State, c: CallId, approved: bool)
    requires AllRowsOk(s.rows)
    ensures RowsAdvance(s.rows, RescreenStep(s, c, approved).rows)
  {
  }

  lemma ClaimAdvances(cfg: Config, s: State, c: CallId, configured: bool)
    requires AllRowsOk(s.rows)
    ensures RowsAdvance(s.rows, ClaimStep(cfg, s, c, configured).rows)
  {
    hide RowsAdvance, AllRowsOk, AfterCheck, AfterClaim, AfterSend, WithCalls;
    NoRowChanges(s);
  }

  lemma SendAdvances(cfg: Config, s: State, c: CallId, answer: Option<string>)
    requires AllRowsOk(s.rows)
    ensures RowsAdvance(s.rows, SendStep(cfg, s, c, answer).rows)
  {
  }

  lemma CrashAdvances(s: State, c: CallId)
    requires AllRowsOk(s.rows)
    ensures RowsAdvance(s.rows, CrashStep(s, c).rows)
  {
    hide RowsAdvance, AllRowsOk, AfterCheck, AfterClaim, AfterSend, WithCalls;
    NoRowChanges(s);
  }

  /** The steps of a call that has spent its token. */
  lemma CallStepsAdvance(cfg: Config, s: State, e: Event)
    requires Inv(s) && AllRowsOk(s.rows)
    requires e.RowChecked? || e.Rescreened? || e.RowClaimed? || e.SendTried?
          || e.CallCommitted? || e.CallReverted? || e.CallCrashed?
    ensures RowsAdvance(s.rows, Next(cfg, s, e).rows)
  {
    hide Inv, RowsAdvance, AllRowsOk, CheckStep, RescreenStep, ClaimStep, SendStep, CommitStep, RevertStep, CrashStep;
    match e
    case CallCommitted(c, now) => CommitAdvances(s, c, now);
    case CallReverted(c, backToStuck) => RevertAdvances(s, c, backToStuck);
    case RowChecked(c) => CheckAdvances(cfg, s, c);
    case Rescreened(c, approved) => RescreenAdvances(s, c, approved);
    case RowClaimed(c, configured) => ClaimAdvances(cfg, s, c, configured);
    case SendTried(c, answer) => SendAdvances(cfg, s, c, answer);
    case CallCrashed(c) => CrashAdvances(s, c);
  }

  /** The steps of the pipeline, the approvers, the sweeps and the worker. */
  lemma TableStepsAdvance(cfg: Config, s: State, e: Event)
    requires Inv(s) && AllRowsOk(s.rows)
    requires e.RowScreened? || e.ApprovalDecided? || e.OrgSwept? || e.Swept?
          || e.RowConfirmed? || e.RowReorged? || e.RowStuck? || e.RowCancelled?
    ensures RowsAdvance(s.rows, Next(cfg, s, e).rows)
  {
    hide Inv, RowsAdvance, AllRowsOk, Expire, DecideStep, ConfirmStep, ReorgStep, StuckStep, CancelStep, ScreenStep,
      SweepStep, OverdueIn;
    match e
    case RowScreened(id, row, expiresAt) => ScreenAdvances(s, id, row, expiresAt);
    case ApprovalDecided(id, org, approve, checked, decided) => DecideAdvances(s, id, org, approve, checked, decided);
    case OrgSwept(org, now) => OrgSweepAdvances(s, org, now);
    case Swept(ids, now) => SweepAdvances(s, ids, now);
    case RowConfirmed(id, block, tip, confirmations, now) => ConfirmAdvances(s, id, block, tip, confirmations, now);
    case RowReorged(id, block, now, at) => ReorgAdvances(cfg, s, id, block, now, at);
    case RowStuck(id, now, at) => StuckAdvances(cfg, s, id, now, at);
    case RowCancelled(id) => CancelAdvances(s, id);
  }

  lemma StepAdvancesRows(cfg: Config, s: State, e: Event)
    requires Inv(s) && AllRowsOk(s.rows)
    ensures RowsAdvance(s.rows, Next(cfg, s, e).rows)
  {
    hide Inv, RowsAdvance, AllRowsOk, Next;
    if e.NonceStored? {
      StoreStepAdvances(cfg, s, e);
    } else if e.PrepareRead? || e.NonceReserved? || e.TokenMinted? || e.TokenLapsed? || e.TokenConsumed? {
      PrepareAndTokenStepsAdvance(cfg, s, e);
    } else if e.RowScreened? || e.ApprovalDecided? || e.OrgSwept? || e.Swept?
           || e.RowConfirmed? || e.RowReorged? || e.RowStuck? || e.RowCancelled? {
      TableStepsAdvance(cfg, s, e);
    } else {
      CallStepsAdvance(cfg, s, e);
    }
  }

  lemma CommitAdvances(s: State, c: CallId, now: int)
    requires Inv(s) && AllRowsOk(s.rows)
    ensures RowsAdvance(s.rows, CommitStep(s, c, now).rows)
  {
    hide Inv, RowsAdvance, AllRowsOk;
    NoRowChanges(s);
    if CommitStep(s, c, now) != s {
      EndClaimAdvances(s, c, s.rows[s.calls[c].id].(
        status := Broadcast, txHash := Some(s.calls[c].stage.hash), broadcastAt := Some(now)));
    }
  }

  lemma RevertAdvances(s: State, c: CallId, backToStuck: bool)
    requires Inv(s) && AllRowsOk(s.rows)
    ensures RowsAdvance(s.rows, RevertStep(s, c, backToStuck).rows)
  {
    hide Inv, RowsAdvance, AllRowsOk;
    NoRowChanges(s);
    if RevertStep(s, c, backToStuck) != s {
      EndClaimAdvances(s, c, s.rows[s.calls[c].id].(
        status := if s.calls[c].kind == Submit then Approved else if backToStuck then Stuck else Broadcasting));
    }
  }

  ghost predicate Sound(s: State) { Inv(s) && AllRowsOk(s.rows) }

  lemma AdvancedRowsAreOk(rows: Rows, rows': Rows)
    requires RowsAdvance(rows, rows')
    ensures AllRowsOk(rows')
  {
  }

  lemma StepKeepsSound(cfg: Config, s: State, e: Event)
    requires Sound(s)
    ensures Sound(Next(cfg, s, e)) && RowsAdvance(s.rows, Next(cfg, s, e).rows)
  {
    hide Inv, RowsAdvance, AllRowsOk;
    StepKeepsInv(cfg, s, e);
    StepAdvancesRows(cfg, s, e);
    AdvancedRowsAreOk(s.rows, Next(cfg, s, e).rows);
  }

  lemma {:induction false} RunKeepsSound(cfg: Config, s: State, es: seq<Event>)
    requires Sound(s)
    ensures Sound(Run(cfg, s, es))
    decreases |es|
  {
    hide Sound;
    if es != [] {
      StepKeepsSound(cfg, s, es[0]);
      RunKeepsSound(cfg, Next(cfg, s, es[0]), es[1..]);
    }
  }

  lemma {:induction false} RunSplits(cfg: Config, s: State, es: seq<Event>, i: nat)
    requires i <= |es|
    ensures Run(cfg, s, es) == Run(cfg, Run(cfg, s, es[..i]), es[i..])
    decreases i
  {
    hide Next;
    if i > 0 {
      RunSplits(cfg, Next(cfg, s, es[0]), es[1..], i - 1);
      assert es[..i][1..] == es[1..][..i - 1] && es[1..][i - 1..] == es[i..];
    }
  }
}
