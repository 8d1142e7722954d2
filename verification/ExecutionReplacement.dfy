/**
  When a stuck transaction can be replaced at all: the only issuer of tokens refuses a row that is
  not approved, so a token for a stuck row is left over from calls that overlapped.
 */
module ExecutionReplacement {
  import opened Wrappers
  import opened Text
  import opened SignedTx
  import opened Execution
  import opened ExecutionInvariant
  import opened ExecutionResults
  import opened ExecutionSerialization

  // ------------------------------------------------ no overlap: nothing is replaced

  predicate InFlight(s: State, id: TxId) { exists c <- s.calls :: s.calls[c].id == id }

  /** A caller that begins a prepare or spends a token while no other call of that row is open. */
  predicate BeginsAlone(s: State, e: Event) {
    e.PrepareRead? || e.TokenConsumed? ==> !InFlight(s, e.id)
  }

  /** Calls of one row come one after the other, over a whole run. */
  predicate OneCallAtATime(cfg: Config, s: State, es: seq<Event>)
    decreases |es|
  {
    es == [] || (BeginsAlone(s, es[0]) && OneCallAtATime(cfg, Next(cfg, s, es[0]), es[1..]))
  }

  ghost predicate CallsAreAlone(calls: map<CallId, Call>, tokens: map<TxId, Token>) {
    && (forall c, d | c in calls && d in calls && c != d :: calls[c].id != calls[d].id)
    && (forall c <- calls :: calls[c].Working? ==>
          calls[c].id !in tokens && (calls[c].kind == Submit || calls[c].stage == Consumed))
  }

  /** A broadcast row has no token on offer and no call in flight. */
  ghost predicate OutIsClosed(rows: map<TxId, Row>, calls: map<CallId, Call>, tokens: map<TxId, Token>) {
    forall id <- rows :: WentOut(rows[id]) ==> id !in tokens && forall c <- calls :: calls[c].id != id
  }

  ghost predicate Submits(sent: seq<Sent>) { forall e <- sent :: e.kind == Submit }

  ghost predicate Orderly(s: State) {
    CallsAreAlone(s.calls, s.tokens) && OutIsClosed(s.rows, s.calls, s.tokens) && Submits(s.sent)
  }

  lemma SweepKeepsOrder(s: State, due: set<TxId>)
    requires Orderly(s)
    ensures Orderly(Expire(s, due))
  {
  }

  /** A row that has not been broadcast does not become so. */
  lemma RowUpdateKeepsOrder(s: State, id: TxId, row: Row)
    requires Orderly(s) && (WentOut(row) ==> id in s.rows && WentOut(s.rows[id]))
    ensures Orderly(s.(rows := s.rows[id := row]))
  {
    hide WentOut;
  }

  /** Call c ends; what it was doing may have taken its row out. */
  lemma EndingKeepsOrder(s: State, s': State, c: CallId)
    requires Orderly(s) && c in s.calls && (s.calls[c].Working? || s'.rows == s.rows)
    requires s'.calls == s.calls - {c} && s'.sent == s.sent && s'.tokens == s.tokens
    requires forall id <- s'.rows :: id in s.rows && (id != s.calls[c].id ==> s'.rows[id] == s.rows[id])
    ensures Orderly(s')
  {
  }

  /** Submission c moves on, and may hand its payload over. */
  lemma MovingOnKeepsOrder(s: State, s': State, c: CallId, stage: Stage)
    requires Orderly(s) && c in s.calls && s.calls[c].Working? && s.calls[c].kind == Submit
    requires s'.calls == s.calls[c := s.calls[c].(stage := stage)] && s'.rows == s.rows && s'.tokens == s.tokens
    requires s'.sent == s.sent || exists e: Sent :: e.kind == Submit && s'.sent == s.sent + [e]
    ensures Orderly(s')
  {
    hide WentOut;
  }

  lemma ApprovalsKeepOrder(s: State, id: TxId, a: Approval)
    requires Orderly(s)
    ensures Orderly(WithApproval(s, id, a))
  {
  }

  lemma ScreenKeepsOrder(s: State, id: TxId, row: Row, expiresAt: int)
    requires Orderly(s)
    ensures Orderly(ScreenStep(s, id, row, expiresAt))
  {
    hide CallsAreAlone, OutIsClosed, Submits;
    RowUpdateKeepsOrder(s, id, if Fresh(row) then row else row.(status := Approved));
  }

  lemma DecideKeepsOrder(s: State, id: TxId, org: string, approve: bool, checked: int, decided: int)
    requires Orderly(s)
    ensures Orderly(DecideStep(s, id, org, approve, checked, decided))
  {
    hide Orderly, Expire, OverdueIn, WithApproval;
    var swept := Expire(s, OverdueIn(s, org, checked));
    SweepKeepsOrder(s, OverdueIn(s, org, checked));
    if id in swept.approvals {
      var s' := WithApproval(swept, id, swept.approvals[id].(status := DecidedStatus(approve, checked, decided)));
      ApprovalsKeepOrder(swept, id, swept.approvals[id].(status := DecidedStatus(approve, checked, decided)));
      if id in s'.rows {
        RowUpdateKeepsOrder(s', id, s'.rows[id].(status := if approve then Approved else Rejected));
      }
    }
  }

  lemma WatchingStepsKeepOrder(cfg: Config, s: State, e: Event)
    requires Orderly(s)
    requires e.RowConfirmed? || e.RowReorged? || e.RowStuck?
    ensures Orderly(Next(cfg, s, e))
  {
    hide Orderly;
    if Next(cfg, s, e) != s {
      RowUpdateKeepsOrder(s, e.id, Next(cfg, s, e).rows[e.id]);
    }
  }

  lemma CancelKeepsOrder(s: State, id: TxId)
    requires Orderly(s)
    ensures Orderly(CancelStep(s, id))
  {
    hide Orderly;
    if CancelStep(s, id) != s {
      RowUpdateKeepsOrder(s, id, s.rows[id].(status := Cancelled));
    }
  }

  lemma LapseKeepsOrder(s: State, id: TxId)
    requires Orderly(s)
    ensures Orderly(WithoutToken(s, id))
  {
  }

  /** A call begins for a row that has none. */
  lemma BeginningKeepsOrder(s: State, s': State, c: CallId, call: Call)
    requires Orderly(s) && c !in s.calls && !InFlight(s, call.id)
    requires s'.calls == s.calls[c := call] && s'.rows == s.rows && s'.sent == s.sent
    requires s'.tokens.Keys <= s.tokens.Keys
    requires call.Working? ==> call.id in s.tokens && call.id !in s'.tokens && call.stage == Consumed
    requires call.Working? || (call.id in s.rows && !WentOut(s.rows[call.id]))
    ensures Orderly(s')
  {
    hide WentOut;
  }

  lemma PrepareKeepsOrder(cfg: Config, s: State, c: CallId, id: TxId)
    requires Orderly(s) && !InFlight(s, id)
    ensures Orderly(PrepareStep(cfg, s, c, id))
  {
    hide Orderly, InFlight, PrepareInFlight;
    var s' := PrepareStep(cfg, s, c, id);
    if s' != s {
      BeginningKeepsOrder(s, s', c, s'.calls[c]);
    }
  }

  lemma ConsumeKeepsOrder(s: State, c: CallId, id: TxId, token: Token, kind: Kind, payload: Option<Payload>)
    requires Orderly(s) && !InFlight(s, id)
    ensures Orderly(ConsumeStep(s, c, id, token, kind, payload))
  {
    hide Orderly, InFlight;
    var s' := ConsumeStep(s, c, id, token, kind, payload);
    if s' != s {
      BeginningKeepsOrder(s, s', c, s'.calls[c]);
    }
  }

  lemma ReserveKeepsOrder(s: State, c: CallId, base: nat)
    requires Orderly(s)
    ensures Orderly(ReserveStep(s, c, base))
  {
    hide Submits, WentOut;
  }

  lemma StoreKeepsOrder(s: State, c: CallId)
    requires Orderly(s)
    ensures Orderly(StoreStep(s, c))
  {
    hide Submits;
  }

  lemma MintKeepsOrder(s: State, c: CallId)
    requires Orderly(s)
    ensures Orderly(MintStep(s, c))
  {
    hide Submits, WentOut;
  }

  lemma OnlySubmissionsPass(cfg: Config, s: State, c: CallId)
    requires Orderly(s) && c in s.calls && s.calls[c].Working? && s.calls[c].id in s.rows
    ensures s.calls[c].kind == Submit
            || AfterCheck(cfg, s.rows[s.calls[c].id], s.calls[c].kind, s.calls[c].payload) == Failing
  {
    hide ValidateReplacement, Submits;
  }

  lemma OnlySubmissionsGoOn(s: State, c: CallId)
    requires Orderly(s) && c in s.calls && s.calls[c].Working? && s.calls[c].stage != Consumed
    ensures s.calls[c].kind == Submit
  {
  }

  lemma CheckKeepsOrder(cfg: Config, s: State, c: CallId)
    requires Orderly(s)
    ensures Orderly(CheckStep(cfg, s, c))
  {
    hide Orderly, AfterCheck;
    if c in s.calls && s.calls[c].Working? && s.calls[c].stage == Consumed {
      EndingKeepsOrder(s, Drop(s, c), c);
      if s.calls[c].id in s.rows {
        OnlySubmissionsPass(cfg, s, c);
        var stage := AfterCheck(cfg, s.rows[s.calls[c].id], s.calls[c].kind, s.calls[c].payload);
        if stage != Failing {
          MovingOnKeepsOrder(s, AtStage(s, c, stage), c, stage);
        }
      }
    }
  }

  lemma RescreenKeepsOrder(s: State, c: CallId, approved: bool)
    requires Orderly(s)
    ensures Orderly(RescreenStep(s, c, approved))
  {
    hide Orderly;
    var s' := RescreenStep(s, c, approved);
    if s' != s {
      OnlySubmissionsGoOn(s, c);
      if approved {
        MovingOnKeepsOrder(s, s', c, s'.calls[c].stage);
      } else {
        EndingKeepsOrder(s, s', c);
      }
    }
  }

  lemma ClaimKeepsOrder(cfg: Config, s: State, c: CallId, configured: bool)
    requires Orderly(s)
    ensures Orderly(ClaimStep(cfg, s, c, configured))
  {
    hide Orderly, AfterClaim;
    if c in s.calls && s.calls[c].Working? && s.calls[c].stage.Cleared? {
      OnlySubmissionsGoOn(s, c);
      EndingKeepsOrder(s, Drop(s, c), c);
      if s.calls[c].id in s.rows {
        var call := s.calls[c];
        var stage := AfterClaim(cfg, s.rows[call.id], call.kind, call.payload, call.stage.nonce, configured);
        MovingOnKeepsOrder(s, WithLock(AtStage(s, c, stage), call.id, c), c, stage);
      }
    }
  }

  lemma SendKeepsOrder(cfg: Config, s: State, c: CallId, answer: Option<string>)
    requires Orderly(s)
    ensures Orderly(SendStep(cfg, s, c, answer))
  {
    hide Orderly, AfterSend;
    var s' := SendStep(cfg, s, c, answer);
    if s' != s {
      OnlySubmissionsGoOn(s, c);
      var call := s.calls[c];
      assert s'.sent == s.sent + [Sent(call.id, call.token, call.kind, call.payload.value)];
      MovingOnKeepsOrder(s, s', c, s'.calls[c].stage);
    }
  }

  lemma EndClaimKeepsOrder(s: State, c: CallId, row: Row)
    requires Orderly(s) && c in s.calls && s.calls[c].Working? && s.calls[c].id in s.charged && s.calls[c].id in s.rows
    ensures Orderly(EndClaim(s, c, row))
  {
    hide Orderly;
    EndingKeepsOrder(s, EndClaim(s, c, row), c);
  }

  lemma EndingStepsKeepOrder(cfg: Config, s: State, e: Event)
    requires Orderly(s)
    requires e.CallCommitted? || e.CallReverted?
    ensures Orderly(Next(cfg, s, e))
  {
    hide Orderly, EndClaim;
    var c := e.c;
    if c in s.calls && s.calls[c].Working? && s.calls[c].id in s.charged && s.calls[c].id in s.rows {
      forall row: Row
        ensures Orderly(EndClaim(s, c, row))
      {
        EndClaimKeepsOrder(s, c, row);
      }
    }
  }

  lemma CrashKeepsOrder(s: State, c: CallId)
    requires Orderly(s)
    ensures Orderly(CrashStep(s, c))
  {
    hide Orderly, Holds;
    if c in s.calls {
      EndingKeepsOrder(s, Drop(s, c), c);
      if Holds(s, c) {
        EndingKeepsOrder(s, CrashStep(s, c), c);
      }
    }
  }

  lemma StepKeepsOrder(cfg: Config, s: State, e: Event)
    requires Orderly(s) && BeginsAlone(s, e)
    ensures Orderly(Next(cfg, s, e))
  {
    hide Orderly, InFlight, Expire, DecideStep, PrepareStep, ReserveStep, StoreStep, MintStep, ConsumeStep,
      CheckStep, RescreenStep, ClaimStep, SendStep, CommitStep, RevertStep, CrashStep, ConfirmStep, ReorgStep,
      StuckStep, CancelStep, ScreenStep, OverdueIn, OverdueAmong, WithoutToken;
    match e
    case RowScreened(id, row, expiresAt) => ScreenKeepsOrder(s, id, row, expiresAt);
    case ApprovalDecided(id, org, approve, checked, decided) =>
      DecideKeepsOrder(s, id, org, approve, checked, decided);
    case OrgSwept(org, now) => SweepKeepsOrder(s, OverdueIn(s, org, now));
    case Swept(ids, now) => SweepKeepsOrder(s, OverdueAmong(s, ids, now));
    case TokenLapsed(id) => LapseKeepsOrder(s, id);
    case RowCancelled(id) => CancelKeepsOrder(s, id);
    case PrepareRead(c, id) => PrepareKeepsOrder(cfg, s, c, id);
    case NonceReserved(c, base) => ReserveKeepsOrder(s, c, base);
    case NonceStored(c) => StoreKeepsOrder(s, c);
    case TokenMinted(c) => MintKeepsOrder(s, c);
    case TokenConsumed(c, id, token, kind, payload) => ConsumeKeepsOrder(s, c, id, token, kind, payload);
    case RowChecked(c) => CheckKeepsOrder(cfg, s, c);
    case Rescreened(c, approved) => RescreenKeepsOrder(s, c, approved);
    case RowClaimed(c, configured) => ClaimKeepsOrder(cfg, s, c, configured);
    case SendTried(c, answer) => SendKeepsOrder(cfg, s, c, answer);
    case CallCommitted(_, _) => EndingStepsKeepOrder(cfg, s, e);
    case CallReverted(_, _) => EndingStepsKeepOrder(cfg, s, e);
    case CallCrashed(c) => CrashKeepsOrder(s, c);
    case RowConfirmed(_, _, _, _, _) => WatchingStepsKeepOrder(cfg, s, e);
    case RowReorged(_, _, _, _) => WatchingStepsKeepOrder(cfg, s, e);
    case RowStuck(_, _, _) => WatchingStepsKeepOrder(cfg, s, e);
  }

  lemma {:induction false} OrderIsKept(cfg: Config, s: State, es: seq<Event>)
    requires Orderly(s) && OneCallAtATime(cfg, s, es)
    ensures Orderly(Run(cfg, s, es))
    decreases |es|
  {
    hide Orderly, BeginsAlone;
    if es != [] {
      StepKeepsOrder(cfg, s, es[0]);
      OrderIsKept(cfg, Next(cfg, s, es[0]), es[1..]);
    }
  }

  /**
    Tokens are issued for approved rows only, so a replacement can be handed over only if calls
    of its row overlapped: in every run where they come one after the other, all that is ever
    handed over are submissions.
   */
  lemma ReplacementNeedsOverlap(cfg: Config, es: seq<Event>, e: Sent)
    requires OneCallAtATime(cfg, EMPTY, es) && e in Reached(cfg, es).sent
    ensures e.kind == Submit
  {
    hide Run, OneCallAtATime;
    OrderIsKept(cfg, EMPTY, es);
  }

  // --------------------------------------------- and with overlap it can be replaced

  /** A first token is on offer, and a second prepare has read the row but not minted its token. */
  ghost predicate TwiceReady(s: State) {
    && s.rows == map["t" := Payment(Some(0))] && s.calls == map[2 := Minting("t")] && s.tokens == map["t" := 0]
    && s.locks == map[] && s.minted == 1 && "t" in s.issued && "t" in s.charged
  }

  function SentOut(): Row {
    Payment(Some(0)).(status := Broadcast, txHash := Some("h"), broadcastAt := Some(0), attempts := 1)
  }

  ghost predicate OutWithPrepare(s: State) {
    && s.rows == map["t" := SentOut()] && s.calls == map[2 := Minting("t")] && s.tokens == map[]
    && s.locks == map[] && s.minted == 1 && "t" in s.issued
  }

  ghost predicate StuckWithToken(s: State, at: int) {
    && s.rows == map["t" := SentOut().(status := Stuck, stuckAt := Some(at))]
    && s.calls == map[] && s.tokens == map["t" := 1] && s.locks == map[]
  }

  const PREPARE_TWICE: seq<Event> :=
    [RowScreened("t", Payment(None), 0), PrepareRead(1, "t")] + [NonceReserved(1, 0), NonceStored(1)]
    + [TokenMinted(1), PrepareRead(2, "t")]

  const SUBMIT_ONCE: seq<Event> :=
    SpendAndCheck(3, 0, 0) + [RowClaimed(3, true), SendTried(3, Some("h"))] + [CallCommitted(3, 0)]

  function MintLate(at: int): seq<Event> { [TokenMinted(2), RowStuck("t", at, at)] }

  const REPLACE_IT: seq<Event> :=
    [TokenConsumed(4, "t", 1, Rbf, Some(Signed(0))), RowChecked(4)] + [Rescreened(4, true), RowClaimed(4, true)]
    + [SendTried(4, None)]

  lemma RunThreePairs(cfg: Config, s: State, a: Event, b: Event, c: Event, d: Event, e: Event, f: Event)
    ensures Run(cfg, s, [a, b] + [c, d] + [e, f]) ==
            Next(cfg, Next(cfg, Next(cfg, Next(cfg, Next(cfg, Next(cfg, s, a), b), c), d), e), f)
  {
    hide Run, Next;
    RunConcat(cfg, s, [a, b] + [c, d], [e, f]);
    RunConcat(cfg, s, [a, b], [c, d]);
    RunPair(cfg, s, a, b);
    RunPair(cfg, Next(cfg, Next(cfg, s, a), b), c, d);
    RunPair(cfg, Next(cfg, Next(cfg, Next(cfg, Next(cfg, s, a), b), c), d), e, f);
  }

  lemma RunThreeParts(cfg: Config, s: State, a: seq<Event>, b: seq<Event>, c: seq<Event>)
    ensures Run(cfg, s, a + b + c) == Run(cfg, Run(cfg, Run(cfg, s, a), b), c)
  {
    hide Run;
    RunConcat(cfg, s, a + b, c);
    RunConcat(cfg, s, a, b);
  }

  lemma RunAccepting(cfg: Config, s: State)
    ensures Run(cfg, Run(cfg, s, [RowClaimed(3, true), SendTried(3, Some("h"))]), [CallCommitted(3, 0)]) ==
            CommitStep(SendStep(cfg, ClaimStep(cfg, s, 3, true), 3, Some("h")), 3, 0)
  {
    hide Run, ClaimStep, SendStep, CommitStep;
    RunPair(cfg, s, RowClaimed(3, true), SendTried(3, Some("h")));
    RunOne(cfg, SendStep(cfg, ClaimStep(cfg, s, 3, true), 3, Some("h")), CallCommitted(3, 0));
  }

  lemma RunChecking(cfg: Config, s: State)
    ensures Run(cfg, s, [TokenConsumed(4, "t", 1, Rbf, Some(Signed(0))), RowChecked(4)]) ==
            CheckStep(cfg, ConsumeStep(s, 4, "t", 1, Rbf, Some(Signed(0))), 4)
  {
    hide Run, CheckStep, ConsumeStep, Signed;
    RunPair(cfg, s, TokenConsumed(4, "t", 1, Rbf, Some(Signed(0))), RowChecked(4));
  }

  lemma RunReplacing(cfg: Config, s: State)
    ensures Run(cfg, Run(cfg, s, [Rescreened(4, true), RowClaimed(4, true)]), [SendTried(4, None)]) ==
            SendStep(cfg, ClaimStep(cfg, RescreenStep(s, 4, true), 4, true), 4, None)
  {
    hide Run, RescreenStep, ClaimStep, SendStep;
    RunPair(cfg, s, Rescreened(4, true), RowClaimed(4, true));
    RunOne(cfg, ClaimStep(cfg, RescreenStep(s, 4, true), 4, true), SendTried(4, None));
  }

  lemma PreparesTwice(cfg: Config)
    ensures TwiceReady(Reached(cfg, PREPARE_TWICE))
  {
    hide Run, PrepareInFlight, ScreenStep, PrepareStep, ReserveStep, StoreStep, MintStep;
    var s1 := ScreenStep(EMPTY, "t", Payment(None), 0);
    var s2 := PrepareStep(cfg, s1, 1, "t");
    var s3 := ReserveStep(s2, 1, 0);
    var s4 := StoreStep(s3, 1);
    var s5 := MintStep(s4, 1);
    RunThreePairs(cfg, EMPTY, RowScreened("t", Payment(None), 0), PrepareRead(1, "t"), NonceReserved(1, 0),
      NonceStored(1), TokenMinted(1), PrepareRead(2, "t"));
    ScreensPayment();
    BeginsPrepare(cfg, s1, 1);
    ReservesFirst(s2);
    StoresFirst(s3);
    MintsFirst(s4);
    BeginsPrepare(cfg, s5, 2);
  }

  lemma ScreensPayment()
    ensures var s := ScreenStep(EMPTY, "t", Payment(None), 0);
            && s.rows == map["t" := Payment(None)] && s.calls == map[] && s.tokens == map[] && s.locks == map[]
            && s.minted == 0 && "t" in s.issued && "t" in s.charged && s.counters == map[]
  {
    assert Lower(WALLET) == WALLET;
  }

  lemma BeginsPrepare(cfg: Config, s: State, c: CallId)
    requires "t" in s.rows && s.rows["t"] == Payment(s.rows["t"].nonce) && s.calls == map[]
    ensures PrepareStep(cfg, s, c, "t") ==
            WithCalls(s, map[c := if s.rows["t"].nonce.None? then Reserving("t") else Minting("t")])
  {
  }

  lemma ReservesFirst(s: State)
    requires s.rows == map["t" := Payment(None)] && s.calls == map[1 := Reserving("t")] && s.counters == map[]
    ensures var s' := ReserveStep(s, 1, 0);
            && s'.calls == map[1 := Storing("t", 0)] && s'.rows == s.rows && s'.tokens == s.tokens
            && s'.locks == s.locks && s'.minted == s.minted && s'.issued == s.issued && s'.charged == s.charged
  {
  }

  lemma StoresFirst(s: State)
    requires s.rows == map["t" := Payment(None)] && s.calls == map[1 := Storing("t", 0)] && s.locks == map[]
    ensures var s' := StoreStep(s, 1);
            && s'.calls == map[1 := Minting("t")] && s'.rows == map["t" := Payment(Some(0))] && s'.tokens == s.tokens
            && s'.locks == s.locks && s'.minted == s.minted && s'.issued == s.issued && s'.charged == s.charged
  {
  }

  lemma MintsFirst(s: State)
    requires s.calls == map[1 := Minting("t")] && s.minted == 0 && s.tokens == map[] && "t" in s.issued
    ensures var s' := MintStep(s, 1);
            && s'.calls == map[] && s'.tokens == map["t" := 0] && s'.rows == s.rows
            && s'.locks == s.locks && s'.minted == 1 && "t" in s'.issued && s'.charged == s.charged
  {
  }

  lemma SubmitsOnce(cfg: Config, s: State)
    requires TwiceReady(s) && cfg.maxBroadcastAttempts > 0
    ensures OutWithPrepare(Run(cfg, s, SUBMIT_ONCE))
  {
    hide Run, ClaimStep, SendStep, CommitStep, AfterCleared, Signed;
    RunThreeParts(cfg, s, SpendAndCheck(3, 0, 0), [RowClaimed(3, true), SendTried(3, Some("h"))],
      [CallCommitted(3, 0)]);
    RunSpendAndCheck(cfg, s, 3, 0, 0);
    SubmissionIsCleared(cfg, s, 3, 0, 0);
    RunAccepting(cfg, AfterCleared(cfg, s, 3, 0, 0));
    var s2 := AfterCleared(cfg, s, 3, 0, 0);
    PayloadIsClaimed(cfg, s2, 3, 0, 0);
    AcceptedIsCommitted(cfg, ClaimStep(cfg, s2, 3, true));
  }

  lemma AcceptedIsCommitted(cfg: Config, s: State)
    requires s.rows == map["t" := Payment(Some(0))] && s.locks == map["t" := 3] && "t" in s.charged && "t" in s.issued
    requires s.calls == map[2 := Minting("t"), 3 := Working("t", 0, Submit, Some(Signed(0)), Sending(0))]
    requires s.tokens == map[] && s.minted == 1
    ensures OutWithPrepare(CommitStep(SendStep(cfg, s, 3, Some("h")), 3, 0))
  {
    hide Signed;
    var s1 := SendStep(cfg, s, 3, Some("h"));
    assert s1.calls == map[2 := Minting("t"), 3 := Working("t", 0, Submit, Some(Signed(0)), Accepted("h"))];
    assert Holds(s1, 3);
  }

  lemma MintsLate(cfg: Config, s: State, at: int)
    requires OutWithPrepare(s) && at > cfg.stuckAfter
    ensures StuckWithToken(Run(cfg, s, MintLate(at)), at)
  {
    hide Run;
    RunPair(cfg, s, TokenMinted(2), RowStuck("t", at, at));
    assert MintStep(s, 2).calls == map[] && MintStep(s, 2).tokens == map["t" := 1];
  }

  lemma ReplacesIt(cfg: Config, s: State, at: int)
    requires StuckWithToken(s, at)
    ensures Sent("t", 1, Rbf, Signed(0)) in Run(cfg, s, REPLACE_IT).sent
  {
    hide Run, ConsumeStep, CheckStep, RescreenStep, ClaimStep, SendStep, Signed;
    RunThreeParts(cfg, s, [TokenConsumed(4, "t", 1, Rbf, Some(Signed(0))), RowChecked(4)],
      [Rescreened(4, true), RowClaimed(4, true)], [SendTried(4, None)]);
    RunChecking(cfg, s);
    RunReplacing(cfg, CheckStep(cfg, ConsumeStep(s, 4, "t", 1, Rbf, Some(Signed(0))), 4));
    ReplacementIsChecked(cfg, s, at);
    ReplacementIsSent(cfg, CheckStep(cfg, ConsumeStep(s, 4, "t", 1, Rbf, Some(Signed(0))), 4), at);
  }

  lemma ReplacementIsChecked(cfg: Config, s: State, at: int)
    requires StuckWithToken(s, at)
    ensures var s' := CheckStep(cfg, ConsumeStep(s, 4, "t", 1, Rbf, Some(Signed(0))), 4);
            && s'.rows == s.rows && s'.locks == s.locks
            && s'.calls == map[4 := Working("t", 1, Rbf, Some(Signed(0)), Rescreening)]
  {
    assert ValidateReplacement(s.rows["t"], Signed(0), Rbf, cfg.rbfBump).None?;
    assert ConsumeStep(s, 4, "t", 1, Rbf, Some(Signed(0))).calls[4].stage == Consumed;
  }

  lemma ReplacementIsSent(cfg: Config, s: State, at: int)
    requires s.rows == map["t" := SentOut().(status := Stuck, stuckAt := Some(at))] && s.locks == map[]
    requires s.calls == map[4 := Working("t", 1, Rbf, Some(Signed(0)), Rescreening)]
    ensures Sent("t", 1, Rbf, Signed(0)) in
            SendStep(cfg, ClaimStep(cfg, RescreenStep(s, 4, true), 4, true), 4, None).sent
  {
    hide ValidateSigned;
    var s1 := RescreenStep(s, 4, true);
    assert s1.calls[4] == Working("t", 1, Rbf, Some(Signed(0)), Cleared(0));
    var s2 := ClaimStep(cfg, s1, 4, true);
    assert s2.calls[4] == Working("t", 1, Rbf, Some(Signed(0)), Sending(0));
    var s3 := SendStep(cfg, s2, 4, None);
    assert s3.sent[|s3.sent| - 1] == Sent("t", 1, Rbf, Signed(0));
  }

  lemma LateMintIsReplaced(cfg: Config)
    requires cfg.maxBroadcastAttempts > 0
    ensures exists es, e :: e in Reached(cfg, es).sent && e.kind == Rbf
  {
    hide Run, TwiceReady, OutWithPrepare, StuckWithToken, PREPARE_TWICE, SUBMIT_ONCE, MintLate, REPLACE_IT, Signed;
    var at := cfg.stuckAfter + 1;
    PreparesTwice(cfg);
    var s1 := Reached(cfg, PREPARE_TWICE);
    SubmitsOnce(cfg, s1);
    var s2 := Run(cfg, s1, SUBMIT_ONCE);
    MintsLate(cfg, s2, at);
    ReplacesIt(cfg, Run(cfg, s2, MintLate(at)), at);
    RunConcat(cfg, EMPTY, PREPARE_TWICE, SUBMIT_ONCE);
    RunConcat(cfg, EMPTY, PREPARE_TWICE + SUBMIT_ONCE, MintLate(at));
    RunConcat(cfg, EMPTY, PREPARE_TWICE + SUBMIT_ONCE + MintLate(at), REPLACE_IT);
    assert Sent("t", 1, Rbf, Signed(0)) in
           Reached(cfg, PREPARE_TWICE + SUBMIT_ONCE + MintLate(at) + REPLACE_IT).sent;
  }

  /**
    A prepare that reads the approved row and mints only after it went out lets it be replaced:
    some run hands a replacement over if and only if any attempts are configured.
   */
  lemma OverlapAllowsReplacement(cfg: Config)
    ensures (exists es, e :: e in Reached(cfg, es).sent && e.kind == Rbf) <==> cfg.maxBroadcastAttempts > 0
  {
    hide Run;
    if cfg.maxBroadcastAttempts > 0 {
      LateMintIsReplaced(cfg);
    } else {
      forall es: seq<Event>
        ensures Reached(cfg, es).sent == []
      {
        WithoutAttemptsNothingIsSent(cfg, EMPTY, es);
      }
    }
  }
}
