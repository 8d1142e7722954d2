/**
  The broadcast protocol of an approved decision as a step system: executor.py, rbf.py,
  tokens.py, monitor.py of services/execution, nonce.py of services/blockchain, and the two
  places that decide or expire an escalation.

  Calls interleave freely. A call that has won the conditional UPDATE holds the row lock of
  its open database transaction until it commits, reverts or dies: others still read the
  committed row but cannot write it. Redis effects are immediate and survive a crash. Every
  hand-over to the network is logged, whatever the node answers.
 */
module Execution {
  import opened Wrappers
  import opened Text
  import opened SignedTx

  type TxId = string
  type CallId = nat
  type Token = nat   // token_urlsafe(32): the n-th one ever minted

  datatype Config = Config(
    maxBroadcastAttempts: nat,
    rbfBump: real,
    cancelBump: real,
    reorgWatch: int,
    stuckAfter: int,
    serializedPrepare: bool)   // callers serialize `prepare` per row, as tokens.py asks

  /** `at` is decided_at; `checked` is history: when that handler looked for overdue approvals. */
  datatype ApprovalStatus = Pending | ApprovedBy(at: int, checked: int) | RejectedBy(at: int) | Expired

  /** A row of `approvals`, keyed by its unique transaction id. */
  datatype Approval = Approval(org: string, status: ApprovalStatus, expiresAt: Option<int>)

  datatype Stage =
    | Consumed                 // token spent, row not yet read
    | Rescreening              // replacement validated, waiting for the pipeline's decision
    | Cleared(nonce: nat)      // may try to claim the row
    | Sending(tries: nat)      // row claimed
    | Accepted(hash: string)   // the node answered with a hash
    | Failing                  // about to revert

  datatype Call =
    | Reserving(id: TxId)
    | Storing(id: TxId, nonce: nat)
    | Minting(id: TxId)
    | Working(id: TxId, token: Token, kind: Kind, payload: Option<Payload>, stage: Stage)

  datatype Sent = Sent(id: TxId, token: Token, kind: Kind, payload: Payload)

  datatype State = State(
    rows: map<TxId, Row>,
    approvals: map<TxId, Approval>,
    tokens: map<TxId, Token>,            // execution:decision:{id}:token
    counters: map<string, nat>,          // nonce:{wallet}:counter
    locks: map<TxId, CallId>,            // row locks of open transactions
    calls: map<CallId, Call>,
    sent: seq<Sent>,
    minted: nat,                         // history: number of tokens minted so far
    issued: map<TxId, set<Token>>,       // history: tokens minted for a row
    spent: set<Token>,                   // history: tokens consumed
    charged: map<TxId, set<Token>>,      // history: tokens whose claim was committed
    reservedFor: map<(string, nat), TxId>)  // history: who a wallet's nonce was reserved for

  datatype Event =
    | RowScreened(id: TxId, row: Row, expiresAt: int)
    | ApprovalDecided(id: TxId, org: string, approve: bool, checked: int, decided: int)
    | OrgSwept(org: string, now: int)
    | Swept(ids: set<TxId>, now: int)
    | PrepareRead(c: CallId, id: TxId)
    | NonceReserved(c: CallId, base: nat)
    | NonceStored(c: CallId)
    | TokenMinted(c: CallId)
    | TokenLapsed(id: TxId)                // TTL, or revoke in `cancel`
    | RowCancelled(id: TxId)
    | TokenConsumed(c: CallId, id: TxId, token: Token, kind: Kind, payload: Option<Payload>)
    | RowChecked(c: CallId)
    | Rescreened(c: CallId, approved: bool)
    | RowClaimed(c: CallId, configured: bool)
    | SendTried(c: CallId, answer: Option<string>)
    | CallCommitted(c: CallId, now: int)
    | CallReverted(c: CallId, backToStuck: bool)
    | CallCrashed(c: CallId)
    | RowConfirmed(id: TxId, minedIn: nat, tip: int, confirmations: int, now: int)
    | RowReorged(id: TxId, receiptBlock: Option<nat>, now: int, at: int)
    | RowStuck(id: TxId, now: int, at: int)

  const EMPTY: State :=
    State(map[], map[], map[], map[], map[], map[], [], 0, map[], {}, map[], map[])

  // -------------------------------------------------------------------- tables

  function WithCalls(s: State, calls: map<CallId, Call>): (s': State)
    ensures s'.rows == s.rows && s'.sent == s.sent && s'.calls == calls && s'.approvals == s.approvals
  {
    s.(calls := calls)
  }

  function WithRow(s: State, id: TxId, row: Row): (s': State)
    ensures s'.rows == s.rows[id := row] && s'.sent == s.sent && s'.calls == s.calls && s'.approvals == s.approvals
  {
    s.(rows := s.rows[id := row])
  }

  function WithApproval(s: State, id: TxId, a: Approval): (s': State)
    ensures s'.rows == s.rows && s'.sent == s.sent && s'.calls == s.calls
  {
    s.(approvals := s.approvals[id := a])
  }

  function WithLock(s: State, id: TxId, c: CallId): (s': State)
    ensures s'.rows == s.rows && s'.sent == s.sent && s'.calls == s.calls && s'.approvals == s.approvals
  {
    s.(locks := s.locks[id := c])
  }

  function WithSent(s: State, e: Sent): (s': State)
    ensures s'.rows == s.rows && s'.sent == s.sent + [e] && s'.calls == s.calls && s'.approvals == s.approvals
  {
    s.(sent := s.sent + [e])
  }

  function WithoutToken(s: State, id: TxId): (s': State)
    ensures s'.rows == s.rows && s'.sent == s.sent && s'.calls == s.calls && s'.approvals == s.approvals
  {
    s.(tokens := s.tokens - {id})
  }

  // ------------------------------------------------------ screening, approvals

  function InitialStatus(d: Decision): Status {
    match d
    case Approve => Approved
    case Reject => Rejected
    case Escalate => Escalated
  }

  /** What the pipeline writes; the request schema has lower-cased the wallet. */
  predicate Fresh(row: Row) {
    && row.wallet == Lower(row.wallet)
    && row.status == InitialStatus(row.decision)
    && row.nonce.None? && row.txHash.None? && row.broadcastAt.None? && row.attempts == 0
    && row.stuckAt.None? && row.confirmedAt.None? && row.block.None? && row.reorgedAt.None?
  }

  /** The screening pipeline commits a row, and with an escalation its approval. */
  function ScreenStep(s: State, id: TxId, row: Row, expiresAt: int): State {
    if id in s.rows || !Fresh(row) then s
    else
      s.(rows := s.rows[id := row],
         approvals := if row.decision == Escalate
                      then s.approvals[id := Approval(row.org, Pending, Some(expiresAt))] else s.approvals,
         issued := s.issued[id := {}],
         charged := s.charged[id := {}])
  }

  predicate IsOverdue(a: Approval, now: int) {
    a.status == Pending && a.expiresAt.Some? && a.expiresAt.value < now
  }

  function OverdueIn(s: State, org: string, now: int): set<TxId> {
    set id <- s.approvals | s.approvals[id].org == org && IsOverdue(s.approvals[id], now)
  }

  function OverdueAmong(s: State, ids: set<TxId>, now: int): set<TxId> {
    set id <- ids | id in s.approvals && IsOverdue(s.approvals[id], now)
  }

  /** Expired approvals take their rows to `rejected` in the same transaction. */
  function Expire(s: State, due: set<TxId>): State {
    s.(approvals := map id <- s.approvals :: if id in due then s.approvals[id].(status := Expired) else s.approvals[id],
       rows := map id <- s.rows :: if id in due then s.rows[id].(status := Rejected) else s.rows[id])
  }

  function SweepStep(s: State, ids: set<TxId>, now: int): State {
    Expire(s, OverdueAmong(s, ids, now))
  }

  function DecidedStatus(approve: bool, checked: int, decided: int): ApprovalStatus {
    if approve then ApprovedBy(decided, checked) else RejectedBy(decided)
  }

  /** _decide: expire what is overdue by one reading of the clock, then decide by a second one. */
  function DecideStep(s: State, id: TxId, org: string, approve: bool, checked: int, decided: int): State {
    var s := Expire(s, OverdueIn(s, org, checked));
    if id !in s.approvals || s.approvals[id].org != org || s.approvals[id].status != Pending then s
    else
      var s' := WithApproval(s, id, s.approvals[id].(status := DecidedStatus(approve, checked, decided)));
      if id in s.rows && s.rows[id].org == org
      then WithRow(s', id, s.rows[id].(status := if approve then Approved else Rejected))
      else s'
  }

  // ------------------------------------------------------------------- prepare

  predicate Preparing(call: Call) { !call.Working? }

  predicate PrepareInFlight(s: State, id: TxId) {
    exists c <- s.calls :: Preparing(s.calls[c]) && s.calls[c].id == id
  }

  function PrepareStep(cfg: Config, s: State, c: CallId, id: TxId): State {
    if c in s.calls || id !in s.rows || s.rows[id].status != Approved
       || (cfg.serializedPrepare && PrepareInFlight(s, id)) then s
    else WithCalls(s, s.calls[c := if s.rows[id].nonce.None? then Reserving(id) else Minting(id)])
  }

  /** The seed-or-increment script; base is the on-chain pending nonce. */
  function ReserveStep(s: State, c: CallId, base: nat): State {
    if c !in s.calls || !s.calls[c].Reserving? || s.calls[c].id !in s.rows then s
    else
      var id := s.calls[c].id;
      var wallet := s.rows[id].wallet;
      var nonce := if wallet in s.counters then s.counters[wallet] else base;
      s.(counters := s.counters[wallet := nonce + 1],
         reservedFor := s.reservedFor[(wallet, nonce) := id],
         calls := s.calls[c := Storing(id, nonce)])
  }

  function StoreStep(s: State, c: CallId): State {
    if c !in s.calls || !s.calls[c].Storing? || s.calls[c].id !in s.rows || s.calls[c].id in s.locks then s
    else
      var id := s.calls[c].id;
      WithCalls(WithRow(s, id, s.rows[id].(nonce := Some(s.calls[c].nonce))), s.calls[c := Minting(id)])
  }

  function MintStep(s: State, c: CallId): State {
    if c !in s.calls || !s.calls[c].Minting? || s.calls[c].id !in s.issued then s
    else
      var id := s.calls[c].id;
      s.(tokens := s.tokens[id := s.minted],
         minted := s.minted + 1,
         issued := s.issued[id := s.issued[id] + {s.minted}],
         calls := s.calls - {c})
  }

  function CancelStep(s: State, id: TxId): State {
    if id !in s.rows || s.rows[id].status != Approved || id in s.locks then s
    else WithRow(s, id, s.rows[id].(status := Cancelled))
  }

  // ---------------------------------------------------------- submit, replace

  /** Compare-and-delete of the token; only the caller that presents it goes on. */
  function ConsumeStep(s: State, c: CallId, id: TxId, token: Token, kind: Kind, payload: Option<Payload>): State {
    if c in s.calls || id !in s.tokens || s.tokens[id] != token then s
    else
      s.(tokens := s.tokens - {id},
         spent := s.spent + {token},
         calls := s.calls[c := Working(id, token, kind, payload, Consumed)])
  }

  function Drop(s: State, c: CallId): State { WithCalls(s, s.calls - {c}) }

  function AtStage(s: State, c: CallId, stage: Stage): State
    requires c in s.calls && s.calls[c].Working?
  {
    WithCalls(s, s.calls[c := s.calls[c].(stage := stage)])
  }

  function BumpFor(cfg: Config, kind: Kind): real { if kind == Cancel then cfg.cancelBump else cfg.rbfBump }

  /** The stage a caller reaches by reading the committed row; Failing when it is refused. */
  function AfterCheck(cfg: Config, row: Row, kind: Kind, payload: Option<Payload>): Stage {
    if kind == Submit then
      if row.status == Approved && row.nonce.Some? then Cleared(row.nonce.value) else Failing
    else if row.status == Stuck && payload.Some?
         && ValidateReplacement(row, payload.value, kind, BumpFor(cfg, kind)).None?
    then Rescreening
    else Failing
  }

  function CheckStep(cfg: Config, s: State, c: CallId): State {
    if c !in s.calls || !s.calls[c].Working? || s.calls[c].stage != Consumed then s
    else
      var call := s.calls[c];
      if call.id !in s.rows then Drop(s, c)
      else
        var stage := AfterCheck(cfg, s.rows[call.id], call.kind, call.payload);
        if stage == Failing then Drop(s, c) else AtStage(s, c, stage)
  }

  function RescreenStep(s: State, c: CallId, approved: bool): State {
    if c !in s.calls || !s.calls[c].Working? || s.calls[c].stage != Rescreening || s.calls[c].payload.None? then s
    else if approved then AtStage(s, c, Cleared(s.calls[c].payload.value.nonce))
    else Drop(s, c)
  }

  function ClaimableStatus(kind: Kind): Status { if kind == Submit then Approved else Stuck }

  /** Under the claim a submission is validated, then a provider is looked up. */
  function AfterClaim(cfg: Config, row: Row, kind: Kind, payload: Option<Payload>, nonce: nat,
      configured: bool): Stage {
    if payload.None? || !configured then Failing
    else if kind == Submit
      && (ValidateSigned(row, payload.value, nonce).Some? || cfg.maxBroadcastAttempts == 0) then Failing
    else Sending(0)
  }

  /** UPDATE ... WHERE status = ...: takes the row lock, or finds rowcount 0. */
  function ClaimStep(cfg: Config, s: State, c: CallId, configured: bool): State {
    if c !in s.calls || !s.calls[c].Working? || !s.calls[c].stage.Cleared? || s.calls[c].id in s.locks then s
    else
      var call := s.calls[c];
      if call.id !in s.rows || s.rows[call.id].status != ClaimableStatus(call.kind) then Drop(s, c)
      else
        var stage := AfterClaim(cfg, s.rows[call.id], call.kind, call.payload, call.stage.nonce, configured);
        WithLock(AtStage(s, c, stage), call.id, c)
  }

  /** A hash ends the retries; otherwise a submit has its attempts, a replacement just one. */
  function AfterSend(cfg: Config, kind: Kind, tries: nat, answer: Option<string>): Stage {
    if answer.Some? then Accepted(answer.value)
    else if kind == Submit && tries < cfg.maxBroadcastAttempts then Sending(tries)
    else Failing
  }

  function SendStep(cfg: Config, s: State, c: CallId, answer: Option<string>): State {
    if c !in s.calls || !s.calls[c].Working? || !s.calls[c].stage.Sending? || s.calls[c].payload.None? then s
    else
      var call := s.calls[c];
      WithSent(AtStage(s, c, AfterSend(cfg, call.kind, call.stage.tries + 1, answer)),
               Sent(call.id, call.token, call.kind, call.payload.value))
  }

  /** Ends the claim of call c, committing `row` with the attempt counted. */
  function EndClaim(s: State, c: CallId, row: Row): State
    requires c in s.calls && s.calls[c].Working? && s.calls[c].id in s.charged
  {
    var call := s.calls[c];
    s.(rows := s.rows[call.id := row.(attempts := row.attempts + 1)],
       charged := s.charged[call.id := s.charged[call.id] + {call.token}],
       locks := s.locks - {call.id},
       calls := s.calls - {c})
  }

  predicate Holds(s: State, c: CallId) {
    && c in s.calls && s.calls[c].Working?
    && s.calls[c].id in s.locks && s.locks[s.calls[c].id] == c
  }

  function CommitStep(s: State, c: CallId, now: int): State {
    if !Holds(s, c) || !s.calls[c].stage.Accepted? || s.calls[c].id !in s.rows || s.calls[c].id !in s.charged then s
    else
      EndClaim(s, c, s.rows[s.calls[c].id].(
        status := Broadcast, txHash := Some(s.calls[c].stage.hash), broadcastAt := Some(now)))
  }

  /** A failed replacement ends as `stuck`, or stays `broadcasting`: the source permits both. */
  function RevertStep(s: State, c: CallId, backToStuck: bool): State {
    if !Holds(s, c) || s.calls[c].stage != Failing || s.calls[c].id !in s.rows || s.calls[c].id !in s.charged then s
    else
      EndClaim(s, c, s.rows[s.calls[c].id].(
        status := if s.calls[c].kind == Submit then Approved else if backToStuck then Stuck else Broadcasting))
  }

  /** The process dies or an unexpected error rolls the transaction back: only Redis effects stay. */
  function CrashStep(s: State, c: CallId): State {
    if c !in s.calls then s
    else if Holds(s, c) then s.(locks := s.locks - {s.calls[c].id}, calls := s.calls - {c})
    else Drop(s, c)
  }

  // ------------------------------------------------------------------- worker

  function ConfirmStep(s: State, id: TxId, block: nat, tip: int, confirmations: int, now: int): State {
    if id in s.rows && s.rows[id].status == Broadcast && s.rows[id].txHash.Some? && tip - block >= confirmations
    then WithRow(s, id, s.rows[id].(status := Executed, block := Some(block), confirmedAt := Some(now)))
    else s
  }

  function ReorgStep(cfg: Config, s: State, id: TxId, block: Option<nat>, now: int, at: int): State {
    if && id in s.rows && s.rows[id].status == Executed && s.rows[id].txHash.Some?
       && s.rows[id].confirmedAt.Some? && s.rows[id].confirmedAt.value >= now - cfg.reorgWatch
       && (block.None? || (s.rows[id].block.Some? && block != s.rows[id].block))
    then WithRow(s, id, s.rows[id].(status := Reorged, reorgedAt := Some(at)))
    else s
  }

  function StuckStep(cfg: Config, s: State, id: TxId, now: int, at: int): State {
    if && id in s.rows && s.rows[id].status == Broadcast && s.rows[id].stuckAt.None?
       && s.rows[id].broadcastAt.Some? && s.rows[id].broadcastAt.value < now - cfg.stuckAfter
    then WithRow(s, id, s.rows[id].(status := Stuck, stuckAt := Some(at)))
    else s
  }

  // ---------------------------------------------------------------------- runs

  function Next(cfg: Config, s: State, e: Event): State {
    match e
    case RowScreened(id, row, expiresAt) => ScreenStep(s, id, row, expiresAt)
    case ApprovalDecided(id, org, approve, checked, decided) => DecideStep(s, id, org, approve, checked, decided)
    case OrgSwept(org, now) => Expire(s, OverdueIn(s, org, now))
    case Swept(ids, now) => SweepStep(s, ids, now)
    case PrepareRead(c, id) => PrepareStep(cfg, s, c, id)
    case NonceReserved(c, base) => ReserveStep(s, c, base)
    case NonceStored(c) => StoreStep(s, c)
    case TokenMinted(c) => MintStep(s, c)
    case TokenLapsed(id) => WithoutToken(s, id)
    case RowCancelled(id) => CancelStep(s, id)
    case TokenConsumed(c, id, token, kind, payload) => ConsumeStep(s, c, id, token, kind, payload)
    case RowChecked(c) => CheckStep(cfg, s, c)
    case Rescreened(c, approved) => RescreenStep(s, c, approved)
    case RowClaimed(c, configured) => ClaimStep(cfg, s, c, configured)
    case SendTried(c, answer) => SendStep(cfg, s, c, answer)
    case CallCommitted(c, now) => CommitStep(s, c, now)
    case CallReverted(c, backToStuck) => RevertStep(s, c, backToStuck)
    case CallCrashed(c) => CrashStep(s, c)
    case RowConfirmed(id, block, tip, confirmations, now) => ConfirmStep(s, id, block, tip, confirmations, now)
    case RowReorged(id, block, now, at) => ReorgStep(cfg, s, id, block, now, at)
    case RowStuck(id, now, at) => StuckStep(cfg, s, id, now, at)
  }

  function Run(cfg: Config, s: State, es: seq<Event>): State
    decreases |es|
  {
    if es == [] then s else Run(cfg, Next(cfg, s, es[0]), es[1..])
  }
}
