/** What the broadcast protocol guarantees, over whole runs of interleaved calls. */
module ExecutionResults {
  import opened Wrappers
  import opened Text
  import opened SignedTx
  import opened Execution
  import opened ExecutionInvariant
  import opened ExecutionNonces
  import opened ExecutionRows

  function Reached(cfg: Config, es: seq<Event>): State { Run(cfg, EMPTY, es) }

  lemma ReachedIsSound(cfg: Config, es: seq<Event>)
    ensures Sound(Reached(cfg, es))
  {
    RunKeepsSound(cfg, EMPTY, es);
  }

  lemma NothingIsHeld()
    ensures Inv(EMPTY) && Nonces(EMPTY) && Payloads(EMPTY)
  {
  }

  lemma ReachedNonces(cfg: Config, es: seq<Event>)
    ensures Nonces(Reached(cfg, es))
  {
    hide Inv, Nonces, Payloads, Run;
    NothingIsHeld();
    RunKeepsNonces(cfg, EMPTY, es);
  }

  lemma ReachedPayloads(cfg: Config, es: seq<Event>)
    requires cfg.serializedPrepare
    ensures Payloads(Reached(cfg, es))
  {
    hide Inv, Nonces, Payloads, Run;
    NothingIsHeld();
    RunKeepsPayloads(cfg, EMPTY, es);
  }

  // --------------------------------------------------- what reaches the network

  /** The screened transfer, or nothing moved at all. */
  predicate MovesOnlyWhatWasScreened(row: Row, p: Payload) {
    || (LowerOpt(p.to) == LowerOpt(row.to) && p.value == row.value)
    || (LowerOpt(p.to) == Some(row.wallet) && p.value == 0)
  }

  /** The screened transaction as a whole, on the chain it was screened for, but for its price. */
  predicate MakesTheScreenedCall(row: Row, p: Payload) {
    && (match row.chain
        case Ethereum => p.chainId == 1
        case Base => p.chainId == 8453
        case Arbitrum => p.chainId == 42161
        case Unsupported(_) => false)
    && p.to == LowerOpt(row.to) && p.value == row.value
    && Lower(p.data) == (if row.calldata.Some? then Lower(row.calldata.value) else "0x")
    && (row.gasLimit.Some? ==> p.gas <= row.gasLimit.value)
  }

  lemma SentIsAllowed(s: State, e: Sent)
    requires Payloads(s) && e in s.sent
    ensures e.id in s.rows && Allowed(s.rows[e.id], e.payload, e.kind)
  {
  }

  lemma SentFacts(s: State, e: Sent)
    requires Inv(s) && e in s.sent
    ensures e.id in s.rows
    ensures s.rows[e.id].decision != Reject
    ensures s.rows[e.id].decision == Escalate ==> e.id in s.approvals && s.approvals[e.id].status.ApprovedBy?
  {
  }

  lemma OwnNonce(s: State, id: TxId, other: TxId)
    requires Nonces(s) && id in s.rows && other in s.rows
    requires s.rows[id].nonce.Some? && s.rows[other].nonce == s.rows[id].nonce
      && s.rows[other].wallet == s.rows[id].wallet
    ensures other == id
  {
  }

  /** Over every run, serialized or not: no two rows of a wallet ever hold one nonce. */
  lemma NoNonceServesTwoRows(cfg: Config, es: seq<Event>, id: TxId, other: TxId)
    requires id in Reached(cfg, es).rows && other in Reached(cfg, es).rows && other != id
    requires Reached(cfg, es).rows[id].nonce.Some?
    requires Reached(cfg, es).rows[other].wallet == Reached(cfg, es).rows[id].wallet
    ensures Reached(cfg, es).rows[other].nonce != Reached(cfg, es).rows[id].nonce
  {
    hide Nonces, Run;
    ReachedNonces(cfg, es);
    if Reached(cfg, es).rows[other].nonce == Reached(cfg, es).rows[id].nonce {
      OwnNonce(Reached(cfg, es), id, other);
    }
  }

  /**
    Over all interleavings, failed-but-accepted sends and crashes: every payload ever handed
    to the network carries its row's wallet and its row's one nonce, which no other row of
    that wallet has, and moves the screened value to the screened address or nothing. A
    submission moreover makes the screened call, on the row's chain and under its gas ceiling.
   */
  lemma EveryPayloadIsItsRowsOwn(cfg: Config, es: seq<Event>, e: Sent)
    requires cfg.serializedPrepare && e in Reached(cfg, es).sent
    ensures var s := Reached(cfg, es);
            && e.id in s.rows
            && Lower(e.payload.from) == s.rows[e.id].wallet
            && s.rows[e.id].nonce == Some(e.payload.nonce)
            && MovesOnlyWhatWasScreened(s.rows[e.id], e.payload)
            && (e.kind == Submit ==> MakesTheScreenedCall(s.rows[e.id], e.payload))
            && forall other <- s.rows ::
                 s.rows[other].wallet == s.rows[e.id].wallet && s.rows[other].nonce == s.rows[e.id].nonce ==>
                   other == e.id
  {
    hide Inv, Nonces, Payloads;
    var s := Reached(cfg, es);
    ReachedIsSound(cfg, es);
    ReachedNonces(cfg, es);
    ReachedPayloads(cfg, es);
    SentIsAllowed(s, e);
    var row := s.rows[e.id];
    assert RowOk(row);
    if row.to.Some? {
      LowerTwice(row.to.value);
    }
    forall other <- s.rows | s.rows[other].wallet == row.wallet && s.rows[other].nonce == row.nonce
      ensures other == e.id
    {
      OwnNonce(s, e.id, other);
    }
  }

  /** A chain executes at most one transaction per sender and nonce. */
  ghost predicate OnePerNonce(mined: set<Sent>) {
    forall e, f | e in mined && f in mined ::
      Lower(e.payload.from) == Lower(f.payload.from) && e.payload.nonce == f.payload.nonce ==> e.payload == f.payload
  }

  /**
    Whatever a chain mines of what it was handed, it mines at most one payload per row, and
    no payload serves two rows.
   */
  lemma AtMostOneMinedPerRow(cfg: Config, es: seq<Event>, mined: set<Sent>)
    requires cfg.serializedPrepare
    requires forall e <- mined :: e in Reached(cfg, es).sent
    requires OnePerNonce(mined)
    ensures forall e, f | e in mined && f in mined :: e.id == f.id <==> e.payload == f.payload
  {
    forall e, f | e in mined && f in mined
      ensures e.id == f.id <==> e.payload == f.payload
    {
      EveryPayloadIsItsRowsOwn(cfg, es, e);
      EveryPayloadIsItsRowsOwn(cfg, es, f);
    }
  }

  // ----------------------------------------------------------------- escalation

  lemma ApprovalFacts(s: State, id: TxId)
    requires Inv(s)
    ensures id in s.approvals <==> id in s.rows && s.rows[id].decision == Escalate
    ensures id in s.approvals ==> ApprovalMatches(s.rows[id], s.approvals[id])
  {
  }

  /** An approver's decision that leaves the approval of a row with this status. */
  predicate Grants(e: Event, id: TxId, status: ApprovalStatus) {
    e.ApprovalDecided? && e.id == id && e.approve && status == ApprovedBy(e.decided, e.checked)
  }

  predicate IsApproved(s: State, id: TxId) { id in s.approvals && s.approvals[id].status.ApprovedBy? }

  predicate IsApprovedAs(s: State, id: TxId, status: ApprovalStatus) {
    IsApproved(s, id) && s.approvals[id].status == status
  }

  lemma SweepsGrantNothing(s: State, due: set<TxId>, id: TxId, status: ApprovalStatus)
    ensures IsApprovedAs(Expire(s, due), id, status) ==> IsApprovedAs(s, id, status)
  {
  }

  lemma ScreeningGrantsNothing(s: State, row: Row, expiresAt: int, other: TxId, id: TxId, status: ApprovalStatus)
    ensures IsApprovedAs(ScreenStep(s, other, row, expiresAt), id, status) ==> IsApprovedAs(s, id, status)
  {
    hide Fresh;
  }

  lemma DecidedApprovals(s: State, id: TxId, org: string, approve: bool, checked: int, decided: int)
    ensures var swept := Expire(s, OverdueIn(s, org, checked)).approvals;
            var s' := DecideStep(s, id, org, approve, checked, decided);
            || s'.approvals == swept
            || (id in swept
                && s'.approvals == swept[id := swept[id].(status := DecidedStatus(approve, checked, decided))])
  {
    hide WithRow, Expire, OverdueIn, DecidedStatus;
  }

  lemma DecisionGrants(s: State, e: Event, id: TxId, status: ApprovalStatus)
    requires e.ApprovalDecided?
    requires IsApprovedAs(DecideStep(s, e.id, e.org, e.approve, e.checked, e.decided), id, status)
    ensures Grants(e, id, status) || IsApprovedAs(s, id, status)
  {
    hide DecideStep, Expire, OverdueIn;
    DecidedApprovals(s, e.id, e.org, e.approve, e.checked, e.decided);
    SweepsGrantNothing(s, OverdueIn(s, e.org, e.checked), id, status);
  }

  lemma DecidingStepsGrant(cfg: Config, s: State, e: Event, id: TxId, status: ApprovalStatus)
    requires e.RowScreened? || e.ApprovalDecided? || e.OrgSwept? || e.Swept?
    requires IsApprovedAs(Next(cfg, s, e), id, status)
    ensures Grants(e, id, status) || IsApprovedAs(s, id, status)
  {
    hide IsApprovedAs, Grants, ScreenStep, DecideStep, Expire, OverdueIn, OverdueAmong;
    match e
    case RowScreened(other, row, expiresAt) => ScreeningGrantsNothing(s, row, expiresAt, other, id, status);
    case ApprovalDecided(_, _, _, _, _) => DecisionGrants(s, e, id, status);
    case OrgSwept(org, now) => SweepsGrantNothing(s, OverdueIn(s, org, now), id, status);
    case Swept(ids, now) => SweepsGrantNothing(s, OverdueAmong(s, ids, now), id, status);
  }

  lemma PrepareStepsKeepApprovals(cfg: Config, s: State, e: Event)
    requires e.PrepareRead? || e.NonceReserved? || e.NonceStored? || e.TokenMinted?
          || e.TokenConsumed? || e.TokenLapsed?
    ensures Next(cfg, s, e).approvals == s.approvals
  {
    hide WithRow, WithCalls, WithoutToken;
  }

  lemma CallStepsKeepApprovals(cfg: Config, s: State, e: Event)
    requires e.RowChecked? || e.Rescreened? || e.RowClaimed? || e.SendTried?
          || e.CallCommitted? || e.CallReverted? || e.CallCrashed?
    ensures Next(cfg, s, e).approvals == s.approvals
  {
    hide AfterCheck, AfterClaim, AfterSend, WithRow, WithCalls, WithLock, WithSent;
  }

  lemma WatcherStepsKeepApprovals(cfg: Config, s: State, e: Event)
    requires e.RowCancelled? || e.RowConfirmed? || e.RowReorged? || e.RowStuck?
    ensures Next(cfg, s, e).approvals == s.approvals
  {
    hide WithRow;
  }

  lemma StepGrants(cfg: Config, s: State, e: Event, id: TxId, status: ApprovalStatus)
    requires IsApprovedAs(Next(cfg, s, e), id, status)
    ensures Grants(e, id, status) || IsApprovedAs(s, id, status)
  {
    hide Next, Grants;
    if e.RowScreened? || e.ApprovalDecided? || e.OrgSwept? || e.Swept? {
      DecidingStepsGrant(cfg, s, e, id, status);
    } else if e.RowCancelled? || e.RowConfirmed? || e.RowReorged? || e.RowStuck? {
      WatcherStepsKeepApprovals(cfg, s, e);
    } else if e.RowChecked? || e.Rescreened? || e.RowClaimed? || e.SendTried?
           || e.CallCommitted? || e.CallReverted? || e.CallCrashed? {
      CallStepsKeepApprovals(cfg, s, e);
    } else {
      PrepareStepsKeepApprovals(cfg, s, e);
    }
  }

  /** Whatever is approved was so before the run, or was granted by one of its decisions. */
  lemma {:induction false} ApprovalsAreGranted(cfg: Config, s: State, es: seq<Event>, id: TxId, status: ApprovalStatus)
    requires IsApprovedAs(Run(cfg, s, es), id, status)
    ensures IsApprovedAs(s, id, status) || exists e <- es :: Grants(e, id, status)
    decreases |es|
  {
    hide Next, Grants, IsApprovedAs;
    if es != [] {
      var s' := Next(cfg, s, es[0]);
      ApprovalsAreGranted(cfg, s', es[1..], id, status);
      if IsApprovedAs(s', id, status) {
        StepGrants(cfg, s, es[0], id, status);
      }
    }
  }

  /**
    Nothing is sent for an escalated row before an approver granted it, in a decision that had
    found it unexpired, and nothing is ever sent for a row the pipeline rejected.
   */
  lemma EscalationIsNeverBypassed(cfg: Config, es: seq<Event>, e: Sent)
    requires e in Reached(cfg, es).sent
    ensures var s := Reached(cfg, es);
            && e.id in s.rows && s.rows[e.id].decision != Reject
            && (s.rows[e.id].decision == Escalate ==>
                 && IsApproved(s, e.id)
                 && (exists d <- es :: Grants(d, e.id, s.approvals[e.id].status))
                 && (s.approvals[e.id].expiresAt.Some? ==>
                      s.approvals[e.id].status.checked <= s.approvals[e.id].expiresAt.value))
  {
    hide Inv;
    var s := Reached(cfg, es);
    ReachedIsSound(cfg, es);
    SentFacts(s, e);
    ApprovalFacts(s, e.id);
    if s.rows[e.id].decision == Escalate {
      ApprovalsAreGranted(cfg, EMPTY, es, e.id, s.approvals[e.id].status);
    }
  }

  /** No handler of the run takes longer than `lag` from its sweep to its decision. */
  predicate DecidesWithin(es: seq<Event>, lag: int) {
    forall e <- es :: e.ApprovalDecided? ==> e.decided - e.checked <= lag
  }

  /** Approvals are granted no later than they expire, as long as handlers are no slower than `lag`. */
  ghost predicate ExpiryIsRespected(cfg: Config, lag: int) {
    forall es, id | DecidesWithin(es, lag) && IsApproved(Reached(cfg, es), id) ::
      var a := Reached(cfg, es).approvals[id];
      a.expiresAt.Some? ==> a.status.at <= a.expiresAt.value
  }

  lemma GrantedWithinTheLag(cfg: Config, es: seq<Event>, id: TxId, lag: int)
    requires DecidesWithin(es, lag) && IsApproved(Reached(cfg, es), id)
    ensures var a := Reached(cfg, es).approvals[id];
            a.expiresAt.Some? ==> a.status.at <= a.expiresAt.value + lag
  {
    hide Inv;
    ReachedIsSound(cfg, es);
    ApprovalFacts(Reached(cfg, es), id);
    ApprovalsAreGranted(cfg, EMPTY, es, id, Reached(cfg, es).approvals[id].status);
  }

  const ESCALATED: Row :=
    Row("org", "0xa", Ethereum, Some("0xb"), 1, None, None, None, Escalate, Escalated,
        None, None, None, 0, None, None, None, None)

  lemma RunTwo(cfg: Config, s: State, es: seq<Event>, i: nat)
    requires i + 1 < |es|
    ensures Run(cfg, s, es[i..]) == Run(cfg, Next(cfg, Next(cfg, s, es[i]), es[i + 1]), es[i + 2..])
  {
  }

  lemma SlowDecisionIsLate(cfg: Config, lag: int)
    requires lag > 0
    ensures !ExpiryIsRespected(cfg, lag)
  {
    hide Reached, DecideStep, ScreenStep;
    var es := [RowScreened("t", ESCALATED, 0), ApprovalDecided("t", "org", true, 0, lag)];
    SlowDecisionRuns(cfg, lag);
    LateGrant(lag);
    assert IsApproved(Reached(cfg, es), "t") && DecidesWithin(es, lag);
  }

  lemma SlowDecisionRuns(cfg: Config, lag: int)
    ensures Reached(cfg, [RowScreened("t", ESCALATED, 0), ApprovalDecided("t", "org", true, 0, lag)]) ==
            DecideStep(ScreenStep(EMPTY, "t", ESCALATED, 0), "t", "org", true, 0, lag)
  {
    hide ScreenStep, DecideStep, ESCALATED;
    var es := [RowScreened("t", ESCALATED, 0), ApprovalDecided("t", "org", true, 0, lag)];
    RunTwo(cfg, EMPTY, es, 0);
    assert es[0..] == es && es[2..] == [];
  }

  lemma LateGrant(lag: int)
    ensures DecideStep(ScreenStep(EMPTY, "t", ESCALATED, 0), "t", "org", true, 0, lag).approvals ==
            map["t" := Approval("org", ApprovedBy(lag, 0), Some(0))]
  {
    hide Expire;
    var s := ScreenStep(EMPTY, "t", ESCALATED, 0);
    assert Lower("0xa") == "0xa";
    assert s.approvals == map["t" := Approval("org", Pending, Some(0))];
    assert OverdueIn(s, "org", 0) == {};
    NothingExpires(s);
  }

  lemma NothingExpires(s: State)
    ensures Expire(s, {}) == s
  {
  }

  /**
    An approver's decision reads the clock once to sweep and again to sign: over all runs, every
    approval is granted no later than it expires if and only if no time passes between the two.
   */
  lemma ExpiryNeedsNoLag(cfg: Config, lag: int)
    ensures ExpiryIsRespected(cfg, lag) <==> lag <= 0
  {
    hide DecidesWithin, Reached;
    if lag <= 0 {
      forall es, id | DecidesWithin(es, lag) && IsApproved(Reached(cfg, es), id)
        ensures var a := Reached(cfg, es).approvals[id];
                a.expiresAt.Some? ==> a.status.at <= a.expiresAt.value
      {
        GrantedWithinTheLag(cfg, es, id, lag);
      }
    } else {
      SlowDecisionIsLate(cfg, lag);
    }
  }

  /** The approval and its row never disagree. */
  lemma ApprovalsAndRowsMoveTogether(cfg: Config, es: seq<Event>, id: TxId)
    requires id in Reached(cfg, es).approvals
    ensures var s := Reached(cfg, es);
            && id in s.rows
            && (s.approvals[id].status == Pending <==> s.rows[id].status == Escalated)
            && (s.approvals[id].status.RejectedBy? || s.approvals[id].status == Expired <==>
              s.rows[id].status == Rejected)
  {
    hide Inv;
    ReachedIsSound(cfg, es);
    ApprovalFacts(Reached(cfg, es), id);
  }

  // ------------------------------------------------------------ the row's life

  /** A row never returns to an earlier place in its life. */
  lemma {:induction false} RowsNeverGoBack(cfg: Config, s: State, es: seq<Event>, id: TxId)
    requires Sound(s) && id in s.rows
    ensures id in Run(cfg, s, es).rows
    ensures Advances(s.rows[id], Run(cfg, s, es).rows[id])
    decreases |es|
  {
    hide Inv;
    if es != [] {
      var s' := Next(cfg, s, es[0]);
      StepKeepsSound(cfg, s, es[0]);
      RowsNeverGoBack(cfg, s', es[1..], id);
      AdvancesIsTransitive(s.rows[id], s'.rows[id], Run(cfg, s', es[1..]).rows[id]);
    }
  }

  lemma AdvancesIsTransitive(a: Row, b: Row, c: Row)
    requires Advances(a, b) && Advances(b, c)
    ensures Advances(a, c)
  {
  }

  /** From the bottom of its life a row goes nowhere: rejected, cancelled and reorged rows stay so. */
  lemma TerminalRowsStay(cfg: Config, es: seq<Event>, i: nat, id: TxId)
    requires i <= |es|
    requires id in Reached(cfg, es[..i]).rows
    requires Reached(cfg, es[..i]).rows[id].status in {Rejected, Cancelled, Reorged}
    ensures id in Reached(cfg, es).rows
    ensures Reached(cfg, es).rows[id].status == Reached(cfg, es[..i]).rows[id].status
  {
    hide Inv;
    ReachedIsSound(cfg, es[..i]);
    RowsNeverGoBack(cfg, Reached(cfg, es[..i]), es[i..], id);
    RunSplits(cfg, EMPTY, es, i);
  }

  predicate Moved(row: Row, row': Row) { row'.status != row.status || row'.stuckAt != row.stuckAt }

  datatype Transition = AnyMove | FlaggedStuck | Replaced

  predicate Makes(t: Transition, row: Row, row': Row) {
    match t
    case AnyMove => Moved(row, row')
    case FlaggedStuck => row.status == Broadcast && row'.status == Stuck
    case Replaced => row.status == Stuck && row'.status == Broadcast
  }

  /** How often a run takes a row through a transition. */
  function Times(cfg: Config, s: State, es: seq<Event>, id: TxId, t: Transition): nat
    decreases |es|
  {
    if es == [] then 0
    else
      var s' := Next(cfg, s, es[0]);
      (if id in s.rows && id in s'.rows && Makes(t, s.rows[id], s'.rows[id]) then 1 else 0)
      + Times(cfg, s', es[1..], id, t)
  }

  function AtMost(t: Transition, row: Row): nat {
    match t
    case AnyMove => Rank(row)
    case FlaggedStuck => if Rank(row) >= 5 then 1 else 0
    case Replaced => if Rank(row) >= 4 then 1 else 0
  }

  /**
    Failed submits and failed replacements aside, each committed change costs rank: a row
    changes place at most seven times, is flagged stuck at most once and replaced at most
    once, from any point of any run.
   */
  lemma {:induction false} TransitionsAreBounded(cfg: Config, s: State, es: seq<Event>, id: TxId, t: Transition)
    requires Sound(s) && id in s.rows
    ensures Times(cfg, s, es, id, t) <= AtMost(t, s.rows[id])
    decreases |es|
  {
    hide Inv, Lower, SameIntent, Next;
    if es != [] {
      var s' := Next(cfg, s, es[0]);
      StepKeepsSound(cfg, s, es[0]);
      assert Advances(s.rows[id], s'.rows[id]) && RowOk(s.rows[id]) && RowOk(s'.rows[id]);
      TransitionsAreBounded(cfg, s', es[1..], id, t);
    }
  }

  /** Number of payloads handed over for a row. */
  function SentFor(sent: seq<Sent>, id: TxId): nat {
    if sent == [] then 0 else SentFor(sent[..|sent| - 1], id) + if sent[|sent| - 1].id == id then 1 else 0
  }

  /** Nothing is handed over, or one payload for a row that is approved or stuck at that moment. */
  ghost predicate SendsForClaimedRow(rows: Rows, sent: seq<Sent>, sent': seq<Sent>) {
    sent' == sent
    || exists x :: sent' == sent + [x] && x.id in rows && rows[x.id].status == ClaimableStatus(x.kind)
  }

  lemma NothingIsSent(s: State)
    ensures SendsForClaimedRow(s.rows, s.sent, s.sent)
  {
  }

  lemma SendingStepSends(cfg: Config, s: State, c: CallId, answer: Option<string>)
    requires Inv(s)
    ensures SendsForClaimedRow(s.rows, s.sent, SendStep(cfg, s, c, answer).sent)
  {
    hide Inv, AfterSend, WithCalls, WithSent;
    if SendStep(cfg, s, c, answer) != s {
      SenderFacts(s, c);
      var x := Sent(s.calls[c].id, s.calls[c].token, s.calls[c].kind, s.calls[c].payload.value);
      assert SendStep(cfg, s, c, answer).sent == s.sent + [x];
    }
  }

  lemma SweepsSendNothing(cfg: Config, s: State, e: Event)
    requires e.OrgSwept? || e.Swept?
    ensures SendsForClaimedRow(s.rows, s.sent, Next(cfg, s, e).sent)
  {
  }

  lemma DecisionStepsSendNothing(cfg: Config, s: State, e: Event)
    requires e.RowScreened? || e.ApprovalDecided?
    ensures SendsForClaimedRow(s.rows, s.sent, Next(cfg, s, e).sent)
  {
  }

  lemma WatcherStepsSendNothing(cfg: Config, s: State, e: Event)
    requires e.RowCancelled? || e.RowConfirmed? || e.RowReorged? || e.RowStuck? || e.TokenLapsed?
    ensures SendsForClaimedRow(s.rows, s.sent, Next(cfg, s, e).sent)
  {
    hide SendsForClaimedRow, WithRow, WithoutToken;
    NothingIsSent(s);
  }

  lemma PrepareStepsSendNothing(cfg: Config, s: State, e: Event)
    requires e.PrepareRead? || e.NonceReserved? || e.NonceStored? || e.TokenMinted? || e.TokenConsumed?
    ensures SendsForClaimedRow(s.rows, s.sent, Next(cfg, s, e).sent)
  {
    hide SendsForClaimedRow, WithRow, WithCalls;
    NothingIsSent(s);
  }

  lemma CallStepsSendNothing(cfg: Config, s: State, e: Event)
    requires e.RowChecked? || e.Rescreened? || e.RowClaimed? || e.CallCommitted? || e.CallReverted? || e.CallCrashed?
    ensures SendsForClaimedRow(s.rows, s.sent, Next(cfg, s, e).sent)
  {
    hide SendsForClaimedRow, WithRow, WithCalls, WithLock, AfterCheck, AfterClaim;
    NothingIsSent(s);
  }

  lemma StepSendsForClaimedRow(cfg: Config, s: State, e: Event)
    requires Inv(s)
    ensures SendsForClaimedRow(s.rows, s.sent, Next(cfg, s, e).sent)
  {
    hide Inv, SendsForClaimedRow, Expire, DecideStep, PrepareStep, ReserveStep, StoreStep, MintStep, ConsumeStep,
      CheckStep, RescreenStep, ClaimStep, SendStep, CommitStep, RevertStep, CrashStep, ConfirmStep, ReorgStep,
      StuckStep, CancelStep, ScreenStep;
    if e.SendTried? {
      SendingStepSends(cfg, s, e.c, e.answer);
    } else if e.PrepareRead? || e.NonceReserved? || e.NonceStored? || e.TokenMinted? || e.TokenConsumed? {
      PrepareStepsSendNothing(cfg, s, e);
    } else if e.RowChecked? || e.Rescreened? || e.RowClaimed? || e.CallCommitted? || e.CallReverted? || e.CallCrashed? {
      CallStepsSendNothing(cfg, s, e);
    } else if e.OrgSwept? || e.Swept? {
      SweepsSendNothing(cfg, s, e);
    } else if e.RowScreened? || e.ApprovalDecided? {
      DecisionStepsSendNothing(cfg, s, e);
    } else {
      WatcherStepsSendNothing(cfg, s, e);
    }
  }

  lemma {:induction false} LowRankIsNeverSent(cfg: Config, s: State, es: seq<Event>, id: TxId)
    requires Sound(s) && id in s.rows && Rank(s.rows[id]) <= 3
    ensures SentFor(Run(cfg, s, es).sent, id) == SentFor(s.sent, id)
    decreases |es|
  {
    hide Inv, Lower, SameIntent, Next;
    if es != [] {
      var s' := Next(cfg, s, es[0]);
      StepKeepsSound(cfg, s, es[0]);
      StepSendsForClaimedRow(cfg, s, es[0]);
      assert Advances(s.rows[id], s'.rows[id]) && RowOk(s'.rows[id]);
      if s'.sent != s.sent {
        var x :| s'.sent == s.sent + [x] && x.id in s.rows && s.rows[x.id].status == ClaimableStatus(x.kind);
        assert s'.sent[..|s'.sent| - 1] == s.sent;
      }
      LowRankIsNeverSent(cfg, s', es[1..], id);
    }
  }

  /** Executed, reorged, rejected and cancelled rows, and rows once replaced, are never sent again. */
  lemma FinishedRowsAreNeverSentAgain(cfg: Config, es: seq<Event>, i: nat, id: TxId)
    requires i <= |es|
    requires id in Reached(cfg, es[..i]).rows
    requires var row := Reached(cfg, es[..i]).rows[id];
             row.status in {Executed, Reorged, Rejected, Cancelled, Broadcasting}
             || (row.status == Broadcast && row.stuckAt.Some?)
    ensures SentFor(Reached(cfg, es).sent, id) == SentFor(Reached(cfg, es[..i]).sent, id)
  {
    hide Inv;
    ReachedIsSound(cfg, es[..i]);
    LowRankIsNeverSent(cfg, Reached(cfg, es[..i]), es[i..], id);
    RunSplits(cfg, EMPTY, es, i);
  }

  /** A row that is broadcast, stuck, executed or reorged has a submission among what was handed over. */
  lemma BroadcastRowsWereSubmitted(cfg: Config, es: seq<Event>, id: TxId)
    requires id in Reached(cfg, es).rows && WentOut(Reached(cfg, es).rows[id])
    ensures exists e <- Reached(cfg, es).sent :: e.id == id && e.kind == Submit
  {
    hide ApprovalsOk, LocksOk, TokensOk, ChargesOk, CallTokensOk, SentOk, UsesOk, Run, AllRowsOk;
    ReachedIsSound(cfg, es);
  }

  // ----------------------------------------------------- tokens and exclusion

  lemma ChargeFacts(s: State, id: TxId)
    requires Inv(s) && id in s.rows
    ensures id in s.issued && id in s.charged
    ensures s.charged[id] <= s.issued[id] && |s.charged[id]| == s.rows[id].attempts
  {
  }

  lemma SubsetIsSmaller(a: set<Token>, b: set<Token>)
    requires a <= b
    ensures |a| <= |b|
  {
    assert b == a + (b - a);
  }

  /** Committed attempts of a row never exceed the tokens issued for it. */
  lemma AttemptsNeedTokens(cfg: Config, es: seq<Event>, id: TxId)
    requires id in Reached(cfg, es).rows
    ensures var s := Reached(cfg, es);
            id in s.issued && s.rows[id].attempts <= |s.issued[id]|
  {
    hide Inv;
    var s := Reached(cfg, es);
    ReachedIsSound(cfg, es);
    ChargeFacts(s, id);
    SubsetIsSmaller(s.charged[id], s.issued[id]);
  }

  /** One token lets one payload through: all sends under it are retries of the same submission. */
  lemma OneTokenOnePayload(cfg: Config, es: seq<Event>, e: Sent, f: Sent)
    requires e in Reached(cfg, es).sent && f in Reached(cfg, es).sent
    requires e.id == f.id && e.token == f.token
    ensures e == f && e.id in Reached(cfg, es).issued && e.token in Reached(cfg, es).issued[e.id]
  {
    hide ApprovalsOk, LocksOk, NoncesOk, PreparesOk, PayloadsOk, TokensOk, ChargesOk, CallTokensOk;
    ReachedIsSound(cfg, es);
    assert SameUse(e, f);
  }

  /** No two calls are ever in the sending phase for one row. */
  lemma OneSenderPerRow(cfg: Config, es: seq<Event>, c: CallId, d: CallId)
    requires c in Reached(cfg, es).calls && d in Reached(cfg, es).calls
    requires InSendingPhase(Reached(cfg, es).calls[c]) && InSendingPhase(Reached(cfg, es).calls[d])
    requires Reached(cfg, es).calls[c].id == Reached(cfg, es).calls[d].id
    ensures c == d
  {
    hide Inv;
    ReachedIsSound(cfg, es);
    SenderFacts(Reached(cfg, es), c);
    SenderFacts(Reached(cfg, es), d);
  }
}
