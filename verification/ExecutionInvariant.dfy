/**
  What every reachable state of the broadcast protocol satisfies, however calls overlap. What
  holds of nonces and payloads only if prepares are serialized is in ExecutionNonces.

  Each conjunct names only the tables it speaks about, so that a step that leaves those
  tables alone keeps it for free; the lemmas below say how the touched ones are kept.
 */
module ExecutionInvariant {
  import opened Wrappers
  import opened SignedTx
  import opened Execution

  type Rows = map<TxId, Row>
  type Calls = map<CallId, Call>
  type TokenSets = map<TxId, set<Token>>

  // ------------------------------------------------------------ the invariant

  /** Approvals and rows move together. */
  ghost predicate ApprovalsOk(rows: Rows, approvals: map<TxId, Approval>) {
    && (forall id <- rows :: id in approvals <==> rows[id].decision == Escalate)
    && (forall id <- approvals :: id in rows && ApprovalMatches(rows[id], approvals[id]))
    && (forall id <- rows :: rows[id].decision == Reject ==> rows[id].status == Rejected)
    && (forall id <- rows :: rows[id].decision == Approve ==> rows[id].status !in {Escalated, Rejected})
  }

  predicate ApprovalMatches(row: Row, a: Approval) {
    && row.org == a.org
    && match a.status
       case Pending => row.status == Escalated
       case ApprovedBy(_, checked) =>
         row.status !in {Escalated, Rejected} && (a.expiresAt.Some? ==> checked <= a.expiresAt.value)
       case RejectedBy(_) => row.status == Rejected
       case Expired => row.status == Rejected
  }

  predicate Holding(stage: Stage) { stage.Sending? || stage.Accepted? || stage == Failing }

  predicate InSendingPhase(call: Call) { call.Working? && Holding(call.stage) }

  /** A lock belongs to exactly one call in its sending phase, and the row under it is as claimed. */
  ghost predicate LocksOk(rows: Rows, locks: map<TxId, CallId>, calls: Calls) {
    && (forall c <- calls :: calls[c].id in rows)
    && (forall id <- locks ::
          && id in rows && locks[id] in calls
          && InSendingPhase(calls[locks[id]]) && calls[locks[id]].id == id
          && rows[id].status == ClaimableStatus(calls[locks[id]].kind))
    && (forall c <- calls :: InSendingPhase(calls[c]) ==> calls[c].id in locks && locks[calls[c].id] == c)
  }

  /** Minted tokens are fresh; the one on offer for a row has not been spent. */
  ghost predicate TokensOk(tokens: map<TxId, Token>, minted: nat, issued: TokenSets, spent: set<Token>) {
    && (forall t <- spent :: t < minted)
    && (forall id <- issued, t <- issued[id] :: t < minted)
    && (forall a, b | a in issued && b in issued && a != b :: issued[a] !! issued[b])
    && (forall id <- tokens :: id in issued && tokens[id] in issued[id] && tokens[id] !in spent)
  }

  /** Each counted attempt is charged to its own spent token. */
  ghost predicate ChargesOk(rows: Rows, issued: TokenSets, spent: set<Token>, charged: TokenSets) {
    && issued.Keys == rows.Keys
    && charged.Keys == rows.Keys
    && (forall id <- rows :: charged[id] <= issued[id] && charged[id] <= spent && |charged[id]| == rows[id].attempts)
  }

  /** A call owns its token: spent, issued for its row, not yet charged, and held by no other call. */
  ghost predicate CallTokensOk(calls: Calls, issued: TokenSets, spent: set<Token>, charged: TokenSets) {
    && (forall c <- calls :: calls[c].Working? ==>
          && calls[c].id in issued && calls[c].id in charged
          && calls[c].token in spent
          && calls[c].token in issued[calls[c].id]
          && calls[c].token !in charged[calls[c].id])
    && (forall c, d | c in calls && d in calls && c != d ::
          calls[c].Working? && calls[d].Working? && calls[c].id == calls[d].id
          ==> calls[c].token != calls[d].token)
  }

  /** Everything ever handed to the network was so under a spent token, after any approval needed. */
  ghost predicate SentOk(
      rows: Rows, approvals: map<TxId, Approval>, issued: TokenSets, spent: set<Token>, sent: seq<Sent>) {
    forall e <- sent ::
      && e.id in rows && e.id in issued
      && e.token in spent && e.token in issued[e.id]
      && rows[e.id].decision != Reject
      && (rows[e.id].decision == Escalate ==> e.id in approvals && approvals[e.id].status.ApprovedBy?)
  }

  predicate SameUse(e: Sent, f: Sent) {
    e.id == f.id && e.token == f.token ==> e.payload == f.payload && e.kind == f.kind
  }

  /** One token stands for one payload. */
  ghost predicate UsesOk(calls: Calls, sent: seq<Sent>) {
    && (forall c <- calls, e <- sent ::
          calls[c].Working? && calls[c].id == e.id && calls[c].token == e.token
          ==> Holding(calls[c].stage) && calls[c].payload == Some(e.payload) && calls[c].kind == e.kind)
    && (forall e <- sent, f <- sent :: SameUse(e, f))
  }

  /** The row has been broadcast. */
  predicate WentOut(row: Row) { row.status in {Broadcast, Stuck, Broadcasting, Executed, Reorged} }

  ghost predicate Submitted(sent: seq<Sent>, id: TxId) { exists e <- sent :: e.id == id && e.kind == Submit }

  /** No row is broadcast, and no submission accepted, without a payload that was handed over. */
  ghost predicate OutOk(rows: Rows, calls: Calls, sent: seq<Sent>) {
    && (forall id <- rows :: WentOut(rows[id]) ==> Submitted(sent, id))
    && (forall c <- calls :: calls[c].Working? && calls[c].kind == Submit && calls[c].stage.Accepted? ==>
          Submitted(sent, calls[c].id))
  }

  ghost predicate Inv(s: State) {
    && ApprovalsOk(s.rows, s.approvals)
    && LocksOk(s.rows, s.locks, s.calls)
    && TokensOk(s.tokens, s.minted, s.issued, s.spent)
    && ChargesOk(s.rows, s.issued, s.spent, s.charged)
    && CallTokensOk(s.calls, s.issued, s.spent, s.charged)
    && SentOk(s.rows, s.approvals, s.issued, s.spent, s.sent)
    && UsesOk(s.calls, s.sent)
    && OutOk(s.rows, s.calls, s.sent)
  }

  // ----------------------------------------------- rows change, intent does not

  ghost predicate SameRows(rows: Rows, rows': Rows) {
    rows'.Keys == rows.Keys && forall id <- rows :: SameIntent(rows[id], rows'[id])
  }

  lemma SentFrame(rows: Rows, rows': Rows, approvals: map<TxId, Approval>, approvals': map<TxId, Approval>,
                  issued: TokenSets, issued': TokenSets, spent: set<Token>, spent': set<Token>, sent: seq<Sent>)
    requires SentOk(rows, approvals, issued, spent, sent)
    requires forall id <- rows :: id in rows' && SameIntent(rows[id], rows'[id])
    requires forall id <- approvals ::
      id in approvals' && (approvals[id].status.ApprovedBy? ==> approvals'[id] == approvals[id])
    requires forall id <- issued :: id in issued' && issued[id] <= issued'[id]
    requires spent <= spent'
    ensures SentOk(rows', approvals', issued', spent', sent)
  {
  }

  lemma ChargesFrame(rows: Rows, rows': Rows, issued: TokenSets, spent: set<Token>, charged: TokenSets)
    requires ChargesOk(rows, issued, spent, charged)
    requires rows'.Keys == rows.Keys && forall id <- rows :: rows'[id].attempts == rows[id].attempts
    ensures ChargesOk(rows', issued, spent, charged)
  {
  }

  lemma LocksFrame(rows: Rows, rows': Rows, locks: map<TxId, CallId>, calls: Calls)
    requires LocksOk(rows, locks, calls)
    requires rows'.Keys == rows.Keys && forall id <- locks :: id in rows ==> rows'[id].status == rows[id].status
    ensures LocksOk(rows', locks, calls)
  {
  }

  lemma OutFrame(rows: Rows, rows': Rows, calls: Calls, sent: seq<Sent>)
    requires OutOk(rows, calls, sent)
    requires forall id <- rows' :: WentOut(rows'[id]) ==> id in rows && WentOut(rows[id])
    ensures OutOk(rows', calls, sent)
  {
  }

  /** A commit that changes rows outside any open claim, keeping intent and attempts. */
  lemma RowsKeepInv(s: State, rows': Rows, approvals': map<TxId, Approval>)
    requires Inv(s)
    requires SameRows(s.rows, rows')
    requires forall id <- s.rows :: rows'[id].attempts == s.rows[id].attempts
    requires forall id <- s.locks :: id in s.rows ==> rows'[id].status == s.rows[id].status
    requires forall id <- s.rows :: WentOut(rows'[id]) ==> WentOut(s.rows[id])
    requires ApprovalsOk(rows', approvals')
    requires forall id <- s.approvals ::
      id in approvals' && (s.approvals[id].status.ApprovedBy? ==> approvals'[id] == s.approvals[id])
    ensures Inv(s.(rows := rows', approvals := approvals'))
  {
    hide ApprovalsOk, LocksOk, TokensOk, ChargesOk, CallTokensOk, SentOk, UsesOk, OutOk;
    LocksFrame(s.rows, rows', s.locks, s.calls);
    ChargesFrame(s.rows, rows', s.issued, s.spent, s.charged);
    SentFrame(s.rows, rows', s.approvals, approvals', s.issued, s.issued, s.spent, s.spent, s.sent);
    OutFrame(s.rows, rows', s.calls, s.sent);
  }

  // -------------------------------------------------- screening and approvals

  lemma NewRowKeepsApprovals(rows: Rows, approvals: map<TxId, Approval>, id: TxId, row: Row, expiresAt: int)
    requires ApprovalsOk(rows, approvals) && id !in rows && Fresh(row)
    ensures ApprovalsOk(rows[id := row],
      if row.decision == Escalate then approvals[id := Approval(row.org, Pending, Some(expiresAt))] else approvals)
    ensures id !in approvals
  {
  }

  lemma NewRowKeepsCalls(s: State, id: TxId, row: Row)
    requires LocksOk(s.rows, s.locks, s.calls) && id !in s.rows
    ensures LocksOk(s.rows[id := row], s.locks, s.calls)
  {
  }

  lemma NewRowKeepsTokens(s: State, id: TxId, row: Row)
    requires TokensOk(s.tokens, s.minted, s.issued, s.spent)
    requires ChargesOk(s.rows, s.issued, s.spent, s.charged)
    requires CallTokensOk(s.calls, s.issued, s.spent, s.charged)
    requires id !in s.rows && row.attempts == 0
    ensures TokensOk(s.tokens, s.minted, s.issued[id := {}], s.spent)
    ensures ChargesOk(s.rows[id := row], s.issued[id := {}], s.spent, s.charged[id := {}])
    ensures CallTokensOk(s.calls, s.issued[id := {}], s.spent, s.charged[id := {}])
    ensures id !in s.issued
  {
  }

  lemma ScreenKeepsInv(s: State, id: TxId, row: Row, expiresAt: int)
    requires Inv(s)
    ensures Inv(ScreenStep(s, id, row, expiresAt))
  {
    hide ApprovalsOk, LocksOk, TokensOk, ChargesOk, CallTokensOk, SentOk, UsesOk, OutOk;
    if id !in s.rows && Fresh(row) {
      var s' := ScreenStep(s, id, row, expiresAt);
      NewRowKeepsApprovals(s.rows, s.approvals, id, row, expiresAt);
      NewRowKeepsCalls(s, id, row);
      NewRowKeepsTokens(s, id, row);
      SentFrame(s.rows, s'.rows, s.approvals, s'.approvals, s.issued, s'.issued, s.spent, s.spent, s.sent);
      OutFrame(s.rows, s'.rows, s.calls, s.sent);
    }
  }

  lemma PendingRowsAreUnlocked(rows: Rows, approvals: map<TxId, Approval>, locks: map<TxId, CallId>, calls: Calls,
      id: TxId)
    requires ApprovalsOk(rows, approvals) && LocksOk(rows, locks, calls)
    requires id in approvals && approvals[id].status == Pending
    ensures id in rows && rows[id].status == Escalated && id !in locks
  {
  }

  lemma ExpireKeepsApprovals(s: State, due: set<TxId>)
    requires ApprovalsOk(s.rows, s.approvals)
    requires forall id <- due :: id in s.approvals && s.approvals[id].status == Pending
    ensures ApprovalsOk(Expire(s, due).rows, Expire(s, due).approvals)
  {
  }

  lemma ExpireKeepsInv(s: State, due: set<TxId>)
    requires Inv(s)
    requires forall id <- due :: id in s.approvals && s.approvals[id].status == Pending
    ensures Inv(Expire(s, due))
  {
    hide ApprovalsOk, LocksOk, TokensOk, ChargesOk, CallTokensOk, SentOk, UsesOk, OutOk;
    var s' := Expire(s, due);
    forall id <- due
      ensures id in s.rows && id !in s.locks
    {
      PendingRowsAreUnlocked(s.rows, s.approvals, s.locks, s.calls, id);
    }
    ExpireKeepsApprovals(s, due);
    RowsKeepInv(s, s'.rows, s'.approvals);
  }

  lemma DecisionKeepsApprovals(s: State, id: TxId, approve: bool, checked: int, decided: int)
    requires ApprovalsOk(s.rows, s.approvals)
    requires id in s.approvals && s.approvals[id].status == Pending && !IsOverdue(s.approvals[id], checked)
    ensures id in s.rows && s.rows[id].org == s.approvals[id].org
    ensures ApprovalsOk(
      s.rows[id := s.rows[id].(status := if approve then Approved else Rejected)],
      s.approvals[id := s.approvals[id].(status := DecidedStatus(approve, checked, decided))])
  {
  }

  lemma ResolveKeepsInv(s: State, id: TxId, approve: bool, checked: int, decided: int)
    requires Inv(s) && id in s.approvals && s.approvals[id].status == Pending && !IsOverdue(s.approvals[id], checked)
    ensures id in s.rows && s.rows[id].org == s.approvals[id].org
    ensures Inv(WithRow(
      WithApproval(s, id, s.approvals[id].(status := DecidedStatus(approve, checked, decided))),
      id, s.rows[id].(status := if approve then Approved else Rejected)))
  {
    hide ApprovalsOk, LocksOk, TokensOk, ChargesOk, CallTokensOk, SentOk, UsesOk, OutOk;
    PendingRowsAreUnlocked(s.rows, s.approvals, s.locks, s.calls, id);
    DecisionKeepsApprovals(s, id, approve, checked, decided);
    RowsKeepInv(s, s.rows[id := s.rows[id].(status := if approve then Approved else Rejected)],
                s.approvals[id := s.approvals[id].(status := DecidedStatus(approve, checked, decided))]);
  }

  lemma OrgSweepKeepsInv(s: State, org: string, now: int)
    requires Inv(s)
    ensures var swept := Expire(s, OverdueIn(s, org, now));
            && Inv(swept)
            && forall id <- swept.approvals ::
                 swept.approvals[id].org == org && swept.approvals[id].status == Pending ==>
                   !IsOverdue(swept.approvals[id], now)
  {
    hide Inv;
    ExpireKeepsInv(s, OverdueIn(s, org, now));
  }

  lemma DecideKeepsInv(s: State, id: TxId, org: string, approve: bool, checked: int, decided: int)
    requires Inv(s)
    ensures Inv(DecideStep(s, id, org, approve, checked, decided))
  {
    hide Inv, Expire, OverdueIn, IsOverdue, WithRow, WithApproval;
    var swept := Expire(s, OverdueIn(s, org, checked));
    OrgSweepKeepsInv(s, org, checked);
    if id in swept.approvals && swept.approvals[id].org == org && swept.approvals[id].status == Pending {
      ResolveKeepsInv(swept, id, approve, checked, decided);
    }
  }

  // ------------------------------------------------------- single-row commits

  lemma StatusKeepsApprovals(rows: Rows, approvals: map<TxId, Approval>, id: TxId, row: Row)
    requires ApprovalsOk(rows, approvals) && id in rows
    requires SameIntent(rows[id], row)
    requires rows[id].status !in {Escalated, Rejected} && row.status !in {Escalated, Rejected}
    ensures ApprovalsOk(rows[id := row], approvals)
  {
  }

  /** A status change that neither enters nor leaves escalated or rejected. */
  lemma StatusChangeKeepsInv(s: State, id: TxId, row: Row)
    requires Inv(s) && id in s.rows && id !in s.locks
    requires SameIntent(s.rows[id], row) && row.attempts == s.rows[id].attempts
    requires s.rows[id].status !in {Escalated, Rejected} && row.status !in {Escalated, Rejected}
    requires WentOut(row) ==> WentOut(s.rows[id])
    ensures Inv(s.(rows := s.rows[id := row]))
  {
    hide ApprovalsOk, LocksOk, TokensOk, ChargesOk, CallTokensOk, SentOk, UsesOk, OutOk;
    StatusKeepsApprovals(s.rows, s.approvals, id, row);
    RowsKeepInv(s, s.rows[id := row], s.approvals);
  }

  lemma LockedRowsAreClaimable(s: State, id: TxId)
    requires Inv(s) && id in s.locks
    ensures id in s.rows && s.rows[id].status in {Approved, Stuck}
  {
  }

  lemma CancelKeepsInv(s: State, id: TxId)
    requires Inv(s)
    ensures Inv(CancelStep(s, id))
  {
    hide Inv;
    if id in s.rows && s.rows[id].status == Approved && id !in s.locks {
      StatusChangeKeepsInv(s, id, s.rows[id].(status := Cancelled));
    }
  }

  lemma ConfirmKeepsInv(s: State, id: TxId, block: nat, tip: int, confirmations: int, now: int)
    requires Inv(s)
    ensures Inv(ConfirmStep(s, id, block, tip, confirmations, now))
  {
    hide Inv;
    if id in s.locks { LockedRowsAreClaimable(s, id); }
    if ConfirmStep(s, id, block, tip, confirmations, now) != s {
      StatusChangeKeepsInv(s, id, s.rows[id].(status := Executed, block := Some(block), confirmedAt := Some(now)));
    }
  }

  lemma ReorgKeepsInv(cfg: Config, s: State, id: TxId, block: Option<nat>, now: int, at: int)
    requires Inv(s)
    ensures Inv(ReorgStep(cfg, s, id, block, now, at))
  {
    hide Inv;
    if id in s.locks { LockedRowsAreClaimable(s, id); }
    if ReorgStep(cfg, s, id, block, now, at) != s {
      StatusChangeKeepsInv(s, id, s.rows[id].(status := Reorged, reorgedAt := Some(at)));
    }
  }

  lemma StuckKeepsInv(cfg: Config, s: State, id: TxId, now: int, at: int)
    requires Inv(s)
    ensures Inv(StuckStep(cfg, s, id, now, at))
  {
    hide Inv;
    if id in s.locks { LockedRowsAreClaimable(s, id); }
    if StuckStep(cfg, s, id, now, at) != s {
      StatusChangeKeepsInv(s, id, s.rows[id].(status := Stuck, stuckAt := Some(at)));
    }
  }

  // -------------------------------------- calls outside their sending phase

  /** The call is the only one with its token, and nothing was sent under it yet. */
  ghost predicate OwnsToken(s: State, c: CallId, call: Call)
    requires call.Working?
  {
    && call.id in s.issued && call.id in s.charged
    && call.token in s.spent && call.token in s.issued[call.id] && call.token !in s.charged[call.id]
    && (forall d <- s.calls :: d != c && s.calls[d].Working? && s.calls[d].id == call.id ==>
      s.calls[d].token != call.token)
    && (forall e <- s.sent :: e.id == call.id ==> e.token != call.token)
  }

  lemma PutKeepsTokens(s: State, c: CallId, call: Call)
    requires CallTokensOk(s.calls, s.issued, s.spent, s.charged) && UsesOk(s.calls, s.sent)
    requires call.Working? ==> OwnsToken(s, c, call)
    ensures CallTokensOk(s.calls[c := call], s.issued, s.spent, s.charged)
    ensures UsesOk(s.calls[c := call], s.sent)
  {
  }

  lemma PutKeepsLocks(rows: Rows, locks: map<TxId, CallId>, calls: Calls, c: CallId, call: Call)
    requires LocksOk(rows, locks, calls)
    requires call.id in rows && !InSendingPhase(call) && (c in calls ==> !InSendingPhase(calls[c]))
    ensures LocksOk(rows, locks, calls[c := call])
  {
  }

  /** The conditions under which call c may be (re)placed by one that is not sending. */
  ghost predicate MayPut(s: State, c: CallId, call: Call) {
    && call.id in s.rows && !InSendingPhase(call) && (c in s.calls ==> !InSendingPhase(s.calls[c]))
    && (call.Working? ==> OwnsToken(s, c, call))
  }

  lemma PutKeepsOut(rows: Rows, calls: Calls, sent: seq<Sent>, c: CallId, call: Call)
    requires OutOk(rows, calls, sent)
    requires call.Working? && call.kind == Submit && call.stage.Accepted? ==> Submitted(sent, call.id)
    ensures OutOk(rows, calls[c := call], sent)
  {
  }

  lemma PutKeepsInv(s: State, c: CallId, call: Call)
    requires Inv(s) && MayPut(s, c, call)
    ensures Inv(s.(calls := s.calls[c := call]))
  {
    hide ApprovalsOk, LocksOk, TokensOk, ChargesOk, CallTokensOk, SentOk, UsesOk, OutOk;
    PutKeepsTokens(s, c, call);
    PutKeepsLocks(s.rows, s.locks, s.calls, c, call);
    PutKeepsOut(s.rows, s.calls, s.sent, c, call);
  }

  lemma DropKeepsCalls(s: State, c: CallId)
    requires UsesOk(s.calls, s.sent) && OutOk(s.rows, s.calls, s.sent)
    requires CallTokensOk(s.calls, s.issued, s.spent, s.charged)
    ensures UsesOk(s.calls - {c}, s.sent) && OutOk(s.rows, s.calls - {c}, s.sent)
    ensures CallTokensOk(s.calls - {c}, s.issued, s.spent, s.charged)
  {
  }

  lemma DropKeepsLocks(rows: Rows, locks: map<TxId, CallId>, calls: Calls, c: CallId)
    requires LocksOk(rows, locks, calls)
    requires c in calls ==> !InSendingPhase(calls[c])
    ensures LocksOk(rows, locks, calls - {c})
  {
  }

  lemma ReleaseKeepsLocks(rows: Rows, locks: map<TxId, CallId>, calls: Calls, c: CallId)
    requires LocksOk(rows, locks, calls)
    requires c in calls && InSendingPhase(calls[c])
    ensures LocksOk(rows, locks - {calls[c].id}, calls - {c})
  {
  }

  lemma DropKeepsInv(s: State, c: CallId)
    requires Inv(s) && (c in s.calls ==> !InSendingPhase(s.calls[c]))
    ensures Inv(Drop(s, c))
  {
    hide ApprovalsOk, LocksOk, TokensOk, ChargesOk, CallTokensOk, SentOk, UsesOk, OutOk;
    DropKeepsCalls(s, c);
    DropKeepsLocks(s.rows, s.locks, s.calls, c);
  }

  lemma HoldersAreSending(s: State, c: CallId)
    requires Inv(s) && c in s.calls
    ensures Holds(s, c) <==> InSendingPhase(s.calls[c])
  {
  }

  lemma CrashKeepsInv(s: State, c: CallId)
    requires Inv(s)
    ensures Inv(CrashStep(s, c))
  {
    hide ApprovalsOk, LocksOk, TokensOk, ChargesOk, CallTokensOk, SentOk, UsesOk, OutOk;
    if c in s.calls {
      HoldersAreSending(s, c);
      DropKeepsCalls(s, c);
      if Holds(s, c) {
        ReleaseKeepsLocks(s.rows, s.locks, s.calls, c);
      } else {
        DropKeepsLocks(s.rows, s.locks, s.calls, c);
      }
    }
  }

  // ------------------------------------------------------------------- prepare

  lemma PrepareKeepsInv(cfg: Config, s: State, c: CallId, id: TxId)
    requires Inv(s)
    ensures Inv(PrepareStep(cfg, s, c, id))
  {
    hide Inv;
    if PrepareStep(cfg, s, c, id) != s {
      PutKeepsInv(s, c, if s.rows[id].nonce.None? then Reserving(id) else Minting(id));
    }
  }

  lemma CallFacts(s: State, c: CallId)
    requires Inv(s) && c in s.calls
    ensures s.calls[c].id in s.rows && s.calls[c].id in s.issued && s.calls[c].id in s.charged
  {
  }

  lemma ReserveKeepsInv(s: State, c: CallId, base: nat)
    requires Inv(s)
    ensures Inv(ReserveStep(s, c, base))
  {
    hide ApprovalsOk, LocksOk, TokensOk, ChargesOk, CallTokensOk, SentOk, UsesOk, OutOk;
    if ReserveStep(s, c, base) != s {
      var id := s.calls[c].id;
      var wallet := s.rows[id].wallet;
      var nonce := if wallet in s.counters then s.counters[wallet] else base;
      CallFacts(s, c);
      PutKeepsInv(s.(counters := s.counters[wallet := nonce + 1], reservedFor := s.reservedFor[(wallet, nonce) := id]),
        c, Storing(id, nonce));
    }
  }

  lemma NonceKeepsApprovals(rows: Rows, approvals: map<TxId, Approval>, id: TxId, nonce: nat)
    requires ApprovalsOk(rows, approvals) && id in rows
    ensures ApprovalsOk(rows[id := rows[id].(nonce := Some(nonce))], approvals)
  {
  }

  lemma NonceKeepsInv(s: State, id: TxId, nonce: nat)
    requires Inv(s) && id in s.rows
    ensures Inv(s.(rows := s.rows[id := s.rows[id].(nonce := Some(nonce))]))
  {
    hide ApprovalsOk, LocksOk, TokensOk, ChargesOk, CallTokensOk, SentOk, UsesOk, OutOk;
    NonceKeepsApprovals(s.rows, s.approvals, id, nonce);
    RowsKeepInv(s, s.rows[id := s.rows[id].(nonce := Some(nonce))], s.approvals);
  }

  lemma StoreKeepsInv(s: State, c: CallId)
    requires Inv(s)
    ensures Inv(StoreStep(s, c))
  {
    hide Inv;
    if StoreStep(s, c) != s {
      var id := s.calls[c].id;
      PutKeepsInv(s, c, Minting(id));
      NonceKeepsInv(s.(calls := s.calls[c := Minting(id)]), id, s.calls[c].nonce);
    }
  }

  lemma MintKeepsTokens(tokens: map<TxId, Token>, minted: nat, issued: TokenSets, spent: set<Token>, id: TxId)
    requires TokensOk(tokens, minted, issued, spent) && id in issued
    ensures TokensOk(tokens[id := minted], minted + 1, issued[id := issued[id] + {minted}], spent)
  {
  }

  lemma MintKeepsCharges(s: State, id: TxId)
    requires ChargesOk(s.rows, s.issued, s.spent, s.charged)
    requires CallTokensOk(s.calls, s.issued, s.spent, s.charged)
    requires id in s.issued
    ensures var issued' := s.issued[id := s.issued[id] + {s.minted}];
            && ChargesOk(s.rows, issued', s.spent, s.charged)
            && CallTokensOk(s.calls, issued', s.spent, s.charged)
  {
  }

  function Minted(s: State, id: TxId): State
    requires id in s.issued
  {
    s.(tokens := s.tokens[id := s.minted], minted := s.minted + 1, issued := s.issued[id := s.issued[id] + {s.minted}])
  }

  lemma MintingKeepsInv(s: State, id: TxId)
    requires Inv(s) && id in s.issued
    ensures Inv(Minted(s, id))
  {
    hide ApprovalsOk, LocksOk, TokensOk, ChargesOk, CallTokensOk, SentOk, UsesOk, OutOk;
    var issued' := s.issued[id := s.issued[id] + {s.minted}];
    MintKeepsTokens(s.tokens, s.minted, s.issued, s.spent, id);
    MintKeepsCharges(s, id);
    SentFrame(s.rows, s.rows, s.approvals, s.approvals, s.issued, issued', s.spent, s.spent, s.sent);
  }

  lemma MintKeepsInv(s: State, c: CallId)
    requires Inv(s)
    ensures Inv(MintStep(s, c))
  {
    hide Inv;
    if MintStep(s, c) != s {
      MintingKeepsInv(s, s.calls[c].id);
      DropKeepsInv(Minted(s, s.calls[c].id), c);
    }
  }

  lemma LapseKeepsInv(s: State, id: TxId)
    requires Inv(s)
    ensures Inv(WithoutToken(s, id))
  {
    hide ApprovalsOk, LocksOk, ChargesOk, CallTokensOk, SentOk, UsesOk, OutOk;
  }

  // ---------------------------------------------------------- submit, replace

  lemma SpendKeepsTokens(tokens: map<TxId, Token>, minted: nat, issued: TokenSets, spent: set<Token>, id: TxId)
    requires TokensOk(tokens, minted, issued, spent) && id in tokens
    ensures TokensOk(tokens - {id}, minted, issued, spent + {tokens[id]})
  {
  }

  lemma SpendKeepsCharges(s: State, token: Token)
    requires ChargesOk(s.rows, s.issued, s.spent, s.charged)
    requires CallTokensOk(s.calls, s.issued, s.spent, s.charged)
    ensures ChargesOk(s.rows, s.issued, s.spent + {token}, s.charged)
    ensures CallTokensOk(s.calls, s.issued, s.spent + {token}, s.charged)
  {
  }

  lemma UnspentTokenIsUnused(s: State, id: TxId)
    requires TokensOk(s.tokens, s.minted, s.issued, s.spent)
    requires ChargesOk(s.rows, s.issued, s.spent, s.charged)
    requires CallTokensOk(s.calls, s.issued, s.spent, s.charged)
    requires SentOk(s.rows, s.approvals, s.issued, s.spent, s.sent)
    requires id in s.tokens
    ensures id in s.rows && id in s.issued && id in s.charged
    ensures s.tokens[id] in s.issued[id] && s.tokens[id] !in s.charged[id]
    ensures forall d <- s.calls :: s.calls[d].Working? ==> s.calls[d].token != s.tokens[id]
    ensures forall e <- s.sent :: e.token != s.tokens[id]
  {
  }

  lemma ConsumeKeepsInv(s: State, c: CallId, id: TxId, token: Token, kind: Kind, payload: Option<Payload>)
    requires Inv(s)
    ensures Inv(ConsumeStep(s, c, id, token, kind, payload))
  {
    hide ApprovalsOk, LocksOk, TokensOk, ChargesOk, CallTokensOk, SentOk, UsesOk, OutOk;
    if ConsumeStep(s, c, id, token, kind, payload) != s {
      SpendKeepsTokens(s.tokens, s.minted, s.issued, s.spent, id);
      SpendKeepsCharges(s, token);
      UnspentTokenIsUnused(s, id);
      SentFrame(s.rows, s.rows, s.approvals, s.approvals, s.issued, s.issued, s.spent, s.spent + {token}, s.sent);
      var s1 := s.(tokens := s.tokens - {id}, spent := s.spent + {token});
      PutKeepsInv(s1, c, Working(id, token, kind, payload, Consumed));
    }
  }

  lemma IdleCallOwnsToken(s: State, c: CallId)
    requires Inv(s) && c in s.calls && s.calls[c].Working? && !Holding(s.calls[c].stage)
    ensures OwnsToken(s, c, s.calls[c])
  {
  }

  /** Moving on a call that stays outside its sending phase. */
  lemma StageKeepsInv(s: State, c: CallId, stage: Stage)
    requires Inv(s) && c in s.calls && s.calls[c].Working? && s.calls[c].id in s.rows
    requires !Holding(s.calls[c].stage) && !Holding(stage)
    ensures Inv(AtStage(s, c, stage))
  {
    hide ApprovalsOk, LocksOk, TokensOk, ChargesOk, CallTokensOk, SentOk, UsesOk, OutOk;
    IdleCallOwnsToken(s, c);
    PutKeepsInv(s, c, s.calls[c].(stage := stage));
  }

  lemma CheckKeepsInv(cfg: Config, s: State, c: CallId)
    requires Inv(s)
    ensures Inv(CheckStep(cfg, s, c))
  {
    hide Inv;
    if c in s.calls && s.calls[c].Working? && s.calls[c].stage == Consumed {
      var call := s.calls[c];
      CallFacts(s, c);
      var row := s.rows[call.id];
      if call.kind == Submit && row.status == Approved && row.nonce.Some? {
        StageKeepsInv(s, c, Cleared(row.nonce.value));
      } else if call.kind != Submit && row.status == Stuck && call.payload.Some?
                && ValidateReplacement(row, call.payload.value, call.kind, BumpFor(cfg, call.kind)).None? {
        StageKeepsInv(s, c, Rescreening);
      } else {
        DropKeepsInv(s, c);
      }
    }
  }

  lemma RescreenKeepsInv(s: State, c: CallId, approved: bool)
    requires Inv(s)
    ensures Inv(RescreenStep(s, c, approved))
  {
    hide Inv;
    if RescreenStep(s, c, approved) != s {
      CallFacts(s, c);
      if approved {
        StageKeepsInv(s, c, Cleared(s.calls[c].payload.value.nonce));
      } else {
        DropKeepsInv(s, c);
      }
    }
  }

  lemma ClaimKeepsLocks(rows: Rows, locks: map<TxId, CallId>, calls: Calls, c: CallId, call: Call)
    requires LocksOk(rows, locks, calls)
    requires call.id in rows && call.id !in locks
      && rows[call.id].status == ClaimableStatus(if call.Working? then call.kind else Submit)
    requires InSendingPhase(call)
    requires c in calls && !InSendingPhase(calls[c])
    ensures LocksOk(rows, locks[call.id := c], calls[c := call])
  {
  }

  lemma ClaimKeepsTokens(s: State, c: CallId, call: Call)
    requires CallTokensOk(s.calls, s.issued, s.spent, s.charged) && UsesOk(s.calls, s.sent)
    requires c in s.calls && s.calls[c].Working? && !Holding(s.calls[c].stage)
    requires call.Working? && call == s.calls[c].(stage := call.stage)
    ensures CallTokensOk(s.calls[c := call], s.issued, s.spent, s.charged)
    ensures UsesOk(s.calls[c := call], s.sent)
  {
  }

  /** The conditional UPDATE takes the row lock. */
  lemma LockKeepsInv(s: State, c: CallId, stage: Stage)
    requires Inv(s) && c in s.calls && s.calls[c].Working? && s.calls[c].id in s.rows && s.calls[c].id !in s.locks
    requires !Holding(s.calls[c].stage) && Holding(stage)
    requires s.rows[s.calls[c].id].status == ClaimableStatus(s.calls[c].kind) && !stage.Accepted?
    ensures Inv(WithLock(AtStage(s, c, stage), s.calls[c].id, c))
  {
    hide ApprovalsOk, LocksOk, TokensOk, ChargesOk, CallTokensOk, SentOk, UsesOk, OutOk;
    var call := s.calls[c].(stage := stage);
    ClaimKeepsLocks(s.rows, s.locks, s.calls, c, call);
    ClaimKeepsTokens(s, c, call);
    PutKeepsOut(s.rows, s.calls, s.sent, c, call);
  }

  lemma ClaimedStageHolds(cfg: Config, row: Row, call: Call, configured: bool)
    requires call.Working? && call.stage.Cleared?
    ensures var stage := AfterClaim(cfg, row, call.kind, call.payload, call.stage.nonce, configured);
            Holding(stage) && !stage.Accepted?
  {
  }

  lemma NotYetHolding(stage: Stage)
    ensures stage.Cleared? ==> !Holding(stage)
  {
  }

  lemma ClaimKeepsInv(cfg: Config, s: State, c: CallId, configured: bool)
    requires Inv(s)
    ensures Inv(ClaimStep(cfg, s, c, configured))
  {
    hide Inv, AfterClaim, WithLock, AtStage, Drop, Holding;
    if c in s.calls && s.calls[c].Working? && s.calls[c].stage.Cleared? && s.calls[c].id !in s.locks {
      var call := s.calls[c];
      CallFacts(s, c);
      NotYetHolding(call.stage);
      if s.rows[call.id].status != ClaimableStatus(call.kind) {
        DropKeepsInv(s, c);
      } else {
        var stage := AfterClaim(cfg, s.rows[call.id], call.kind, call.payload, call.stage.nonce, configured);
        ClaimedStageHolds(cfg, s.rows[call.id], call, configured);
        LockKeepsInv(s, c, stage);
      }
    }
  }

  lemma SenderFacts(s: State, c: CallId)
    requires Inv(s) && c in s.calls && InSendingPhase(s.calls[c])
    ensures s.calls[c].id in s.rows && s.calls[c].id in s.locks && s.locks[s.calls[c].id] == c
    ensures s.rows[s.calls[c].id].status == ClaimableStatus(s.calls[c].kind)
  {
    hide ApprovalsOk, TokensOk, ChargesOk, CallTokensOk, SentOk, UsesOk, OutOk;
  }

  /** A row that can be claimed was approved by the pipeline, or in time by an approver. */
  lemma ClaimableRowsAreApproved(rows: Rows, approvals: map<TxId, Approval>, id: TxId)
    requires ApprovalsOk(rows, approvals) && id in rows && rows[id].status in {Approved, Stuck}
    ensures rows[id].decision != Reject
    ensures rows[id].decision == Escalate ==> id in approvals && approvals[id].status.ApprovedBy?
  {
  }

  lemma AppendKeepsSent(s: State, e: Sent)
    requires SentOk(s.rows, s.approvals, s.issued, s.spent, s.sent)
    requires SentOk(s.rows, s.approvals, s.issued, s.spent, [e])
    ensures SentOk(s.rows, s.approvals, s.issued, s.spent, s.sent + [e])
  {
  }

  lemma SendKeepsUses(s: State, c: CallId, call: Call, e: Sent)
    requires CallTokensOk(s.calls, s.issued, s.spent, s.charged) && UsesOk(s.calls, s.sent)
    requires c in s.calls && s.calls[c].Working? && Holding(s.calls[c].stage)
    requires call.Working? && call == s.calls[c].(stage := call.stage) && Holding(call.stage)
    requires call.payload.Some? && e == Sent(call.id, call.token, call.kind, call.payload.value)
    ensures CallTokensOk(s.calls[c := call], s.issued, s.spent, s.charged)
    ensures UsesOk(s.calls[c := call], s.sent + [e])
  {
    assert forall f <- s.sent + [e] :: f in s.sent || f == e;
  }

  lemma SendKeepsLocks(rows: Rows, locks: map<TxId, CallId>, calls: Calls, c: CallId, call: Call)
    requires LocksOk(rows, locks, calls)
    requires c in calls && InSendingPhase(calls[c]) && InSendingPhase(call) && call == calls[c].(stage := call.stage)
    ensures LocksOk(rows, locks, calls[c := call])
  {
  }

  lemma CallTokenFacts(s: State, c: CallId)
    requires Inv(s) && c in s.calls && s.calls[c].Working?
    ensures s.calls[c].id in s.issued && s.calls[c].id in s.charged
    ensures s.calls[c].token in s.spent && s.calls[c].token in s.issued[s.calls[c].id]
    ensures s.calls[c].token !in s.charged[s.calls[c].id]
  {
  }

  lemma SendKeepsInv(cfg: Config, s: State, c: CallId, answer: Option<string>)
    requires Inv(s)
    ensures Inv(SendStep(cfg, s, c, answer))
  {
    hide ApprovalsOk, LocksOk, TokensOk, ChargesOk, CallTokensOk, SentOk, UsesOk, OutOk;
    if SendStep(cfg, s, c, answer) != s {
      var s' := SendStep(cfg, s, c, answer);
      var call, call' := s.calls[c], s'.calls[c];
      var e := Sent(call.id, call.token, call.kind, call.payload.value);
      SenderFacts(s, c);
      CallTokenFacts(s, c);
      ClaimableRowsAreApproved(s.rows, s.approvals, call.id);
      SingleSentOk(s, e);
      AppendKeepsSent(s, e);
      SendKeepsUses(s, c, call', e);
      SendKeepsLocks(s.rows, s.locks, s.calls, c, call');
      SentIsSubmitted(s.sent, e);
      MoreIsSent(s.rows, s.calls, s.sent, e);
      PutKeepsOut(s.rows, s.calls, s.sent + [e], c, call');
    }
  }

  lemma SentIsSubmitted(sent: seq<Sent>, e: Sent)
    ensures e.kind == Submit ==> Submitted(sent + [e], e.id)
  {
    assert e in sent + [e];
  }

  lemma MoreIsSent(rows: Rows, calls: Calls, sent: seq<Sent>, e: Sent)
    requires OutOk(rows, calls, sent)
    ensures OutOk(rows, calls, sent + [e])
  {
    assert forall id | Submitted(sent, id) :: Submitted(sent + [e], id) by {
      assert forall x <- sent :: x in sent + [e];
    }
  }

  lemma SingleSentOk(s: State, e: Sent)
    requires e.id in s.rows && e.id in s.issued
    requires e.token in s.spent && e.token in s.issued[e.id]
    requires s.rows[e.id].decision != Reject
    requires s.rows[e.id].decision == Escalate ==> e.id in s.approvals && s.approvals[e.id].status.ApprovedBy?
    ensures SentOk(s.rows, s.approvals, s.issued, s.spent, [e])
  {
  }

  lemma ChargeKeepsTables(s: State, c: CallId, row: Row)
    requires ChargesOk(s.rows, s.issued, s.spent, s.charged)
    requires CallTokensOk(s.calls, s.issued, s.spent, s.charged)
    requires c in s.calls && s.calls[c].Working? && s.calls[c].id in s.rows
    requires row.attempts == s.rows[s.calls[c].id].attempts + 1
    ensures var call := s.calls[c];
            && call.id in s.charged
            && var charged' := s.charged[call.id := s.charged[call.id] + {call.token}];
               && ChargesOk(s.rows[call.id := row], s.issued, s.spent, charged')
               && CallTokensOk(s.calls - {c}, s.issued, s.spent, charged')
  {
  }

  /** A claim that ends, successfully or not, with its attempt counted. */
  lemma EndClaimKeepsInv(s: State, c: CallId, row: Row)
    requires Inv(s) && c in s.calls && InSendingPhase(s.calls[c]) && s.calls[c].id in s.rows
      && s.calls[c].id in s.charged
    requires SameIntent(s.rows[s.calls[c].id], row) && row.attempts == s.rows[s.calls[c].id].attempts
    requires row.status !in {Escalated, Rejected}
    requires WentOut(row) ==> Submitted(s.sent, s.calls[c].id)
    ensures Inv(EndClaim(s, c, row))
  {
    hide ApprovalsOk, LocksOk, TokensOk, ChargesOk, CallTokensOk, SentOk, UsesOk, OutOk;
    var s' := EndClaim(s, c, row);
    var id := s.calls[c].id;
    SenderFacts(s, c);
    StatusKeepsApprovals(s.rows, s.approvals, id, s'.rows[id]);
    ChargeKeepsTables(s, c, s'.rows[id]);
    DropKeepsCalls(s, c);
    ReleaseKeepsLocks(s.rows, s.locks, s.calls, c);
    LocksFrame(s.rows, s'.rows, s'.locks, s'.calls);
    SentFrame(s.rows, s'.rows, s.approvals, s.approvals, s.issued, s.issued, s.spent, s.spent, s.sent);
    EndedRowIsOut(s.rows, s'.calls, s.sent, id, s'.rows[id]);
  }

  lemma EndedRowIsOut(rows: Rows, calls: Calls, sent: seq<Sent>, id: TxId, row: Row)
    requires OutOk(rows, calls, sent) && (WentOut(row) ==> Submitted(sent, id))
    ensures OutOk(rows[id := row], calls, sent)
  {
  }

  /** What a call in its sending phase may leave its row in: a submission that was accepted was handed over. */
  lemma SenderWasSubmitted(s: State, c: CallId)
    requires Inv(s) && c in s.calls && InSendingPhase(s.calls[c])
    ensures s.calls[c].stage.Accepted? || s.calls[c].kind != Submit ==> Submitted(s.sent, s.calls[c].id)
  {
    SenderFacts(s, c);
  }

  lemma CommitKeepsInv(s: State, c: CallId, now: int)
    requires Inv(s)
    ensures Inv(CommitStep(s, c, now))
  {
    hide Inv;
    if CommitStep(s, c, now) != s {
      HoldersAreSending(s, c);
      SenderWasSubmitted(s, c);
      EndClaimKeepsInv(s, c, s.rows[s.calls[c].id].(
        status := Broadcast, txHash := Some(s.calls[c].stage.hash), broadcastAt := Some(now)));
    }
  }

  lemma RevertKeepsInv(s: State, c: CallId, backToStuck: bool)
    requires Inv(s)
    ensures Inv(RevertStep(s, c, backToStuck))
  {
    hide Inv;
    if RevertStep(s, c, backToStuck) != s {
      HoldersAreSending(s, c);
      SenderWasSubmitted(s, c);
      EndClaimKeepsInv(s, c, s.rows[s.calls[c].id].(
        status := if s.calls[c].kind == Submit then Approved else if backToStuck then Stuck else Broadcasting));
    }
  }

  // ---------------------------------------------------------------------- runs

  lemma StepKeepsInv(cfg: Config, s: State, e: Event)
    requires Inv(s)
    ensures Inv(Next(cfg, s, e))
  {
    hide Inv, Expire, DecideStep, PrepareStep, ReserveStep, StoreStep, MintStep, ConsumeStep, CheckStep, RescreenStep,
      ClaimStep, SendStep, CommitStep, RevertStep, CrashStep, ConfirmStep, ReorgStep, StuckStep, CancelStep,
      ScreenStep, WithoutToken;
    match e
    case RowScreened(id, row, expiresAt) => ScreenKeepsInv(s, id, row, expiresAt);
    case ApprovalDecided(id, org, approve, checked, decided) =>
      DecideKeepsInv(s, id, org, approve, checked, decided);
    case OrgSwept(org, now) => ExpireKeepsInv(s, OverdueIn(s, org, now));
    case Swept(ids, now) => ExpireKeepsInv(s, OverdueAmong(s, ids, now));
    case PrepareRead(c, id) => PrepareKeepsInv(cfg, s, c, id);
    case NonceReserved(c, base) => ReserveKeepsInv(s, c, base);
    case NonceStored(c) => StoreKeepsInv(s, c);
    case TokenMinted(c) => MintKeepsInv(s, c);
    case TokenLapsed(id) => LapseKeepsInv(s, id);
    case RowCancelled(id) => CancelKeepsInv(s, id);
    case TokenConsumed(c, id, token, kind, payload) => ConsumeKeepsInv(s, c, id, token, kind, payload);
    case RowChecked(c) => CheckKeepsInv(cfg, s, c);
    case Rescreened(c, approved) => RescreenKeepsInv(s, c, approved);
    case RowClaimed(c, configured) => ClaimKeepsInv(cfg, s, c, configured);
    case SendTried(c, answer) => SendKeepsInv(cfg, s, c, answer);
    case CallCommitted(c, now) => CommitKeepsInv(s, c, now);
    case CallReverted(c, backToStuck) => RevertKeepsInv(s, c, backToStuck);
    case CallCrashed(c) => CrashKeepsInv(s, c);
    case RowConfirmed(id, block, tip, confirmations, now) => ConfirmKeepsInv(s, id, block, tip, confirmations, now);
    case RowReorged(id, block, now, at) => ReorgKeepsInv(cfg, s, id, block, now, at);
    case RowStuck(id, now, at) => StuckKeepsInv(cfg, s, id, now, at);
  }

  lemma {:induction false} RunKeepsInv(cfg: Config, s: State, es: seq<Event>)
    requires Inv(s)
    ensures Inv(Run(cfg, s, es))
    decreases |es|
  {
    hide Inv;
    if es != [] {
      StepKeepsInv(cfg, s, es[0]);
      RunKeepsInv(cfg, Next(cfg, s, es[0]), es[1..]);
    }
  }

  lemma NothingIsSound()
    ensures Inv(EMPTY)
  {
  }

  lemma ReachableStatesAreSound(cfg: Config, es: seq<Event>)
    ensures Inv(Run(cfg, EMPTY, es))
  {
    hide Inv, Run;
    NothingIsSound();
    RunKeepsInv(cfg, EMPTY, es);
  }
}
