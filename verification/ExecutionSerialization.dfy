/**
  What becomes of a row when its prepares overlap: tokens.py asks callers to serialize them, and
  exactly then is a row kept to one nonce and one mined payload.
 */
module ExecutionSerialization {
  import opened Wrappers
  import opened Text
  import opened SignedTx
  import opened Execution
  import opened ExecutionInvariant
  import opened ExecutionNonces
  import opened ExecutionRows
  import opened ExecutionResults

  /** Over every run, each payload carries the nonce its row holds. */
  ghost predicate CarriesRowNonce(cfg: Config) {
    forall es, e | e in Reached(cfg, es).sent ::
      e.id in Reached(cfg, es).rows && Reached(cfg, es).rows[e.id].nonce == Some(e.payload.nonce)
  }

  /** Over every run, a chain with one transaction per sender and nonce mines at most one payload per row. */
  ghost predicate MinesOncePerRow(cfg: Config) {
    forall es, e, f | e in Reached(cfg, es).sent && f in Reached(cfg, es).sent ::
      OnePerNonce({e, f}) && e.id == f.id ==> e.payload == f.payload
  }

  /** Over every run, a row that has a nonce keeps it. */
  ghost predicate NoncesNeverChange(cfg: Config) {
    forall es, i: nat, id | i <= |es| && id in Reached(cfg, es[..i]).rows && id in Reached(cfg, es).rows ::
      SameNonce(Reached(cfg, es[..i]).rows[id], Reached(cfg, es).rows[id])
  }

  // -------------------------------------------- no attempts: nothing is ever sent

  predicate Unsent(row: Row) { row.status in {Escalated, Approved, Rejected, Cancelled} }

  predicate Stalls(call: Call) {
    call.Working? ==>
      || call.stage == Consumed
      || (call.kind == Submit && (call.stage.Cleared? || call.stage == Failing))
  }

  ghost predicate NothingSent(s: State) {
    && s.sent == []
    && (forall id <- s.rows :: Unsent(s.rows[id]))
    && (forall c <- s.calls :: Stalls(s.calls[c]))
  }

  lemma DecidingStepsSendNothing(cfg: Config, s: State, e: Event)
    requires NothingSent(s)
    requires e.RowScreened? || e.ApprovalDecided? || e.OrgSwept? || e.Swept?
    ensures NothingSent(Next(cfg, s, e))
  {
    hide WithRow, WithApproval;
  }

  lemma WatchingStepsSendNothing(cfg: Config, s: State, e: Event)
    requires NothingSent(s)
    requires e.RowCancelled? || e.RowConfirmed? || e.RowReorged? || e.RowStuck? || e.TokenLapsed?
    ensures NothingSent(Next(cfg, s, e))
  {
    hide WithRow, WithoutToken;
  }

  lemma PreparingStepsSendNothing(cfg: Config, s: State, e: Event)
    requires NothingSent(s)
    requires e.PrepareRead? || e.NonceReserved? || e.NonceStored? || e.TokenMinted? || e.TokenConsumed?
    ensures NothingSent(Next(cfg, s, e))
  {
    hide WithRow, WithCalls;
  }

  lemma ClaimingStepsSendNothing(cfg: Config, s: State, e: Event)
    requires NothingSent(s) && cfg.maxBroadcastAttempts == 0
    requires e.RowChecked? || e.Rescreened? || e.RowClaimed? || e.SendTried?
    ensures NothingSent(Next(cfg, s, e))
  {
    hide WithCalls, WithLock, WithSent, ValidateSigned, ValidateReplacement;
  }

  lemma EndingStepsSendNothing(cfg: Config, s: State, e: Event)
    requires NothingSent(s)
    requires e.CallCommitted? || e.CallReverted? || e.CallCrashed?
    ensures NothingSent(Next(cfg, s, e))
  {
    hide WithCalls;
  }

  lemma {:induction false} WithoutAttemptsNothingIsSent(cfg: Config, s: State, es: seq<Event>)
    requires NothingSent(s) && cfg.maxBroadcastAttempts == 0
    ensures NothingSent(Run(cfg, s, es))
    decreases |es|
  {
    hide Next, NothingSent;
    if es != [] {
      var e := es[0];
      if e.RowScreened? || e.ApprovalDecided? || e.OrgSwept? || e.Swept? {
        DecidingStepsSendNothing(cfg, s, e);
      } else if e.PrepareRead? || e.NonceReserved? || e.NonceStored? || e.TokenMinted? || e.TokenConsumed? {
        PreparingStepsSendNothing(cfg, s, e);
      } else if e.RowChecked? || e.Rescreened? || e.RowClaimed? || e.SendTried? {
        ClaimingStepsSendNothing(cfg, s, e);
      } else if e.CallCommitted? || e.CallReverted? || e.CallCrashed? {
        EndingStepsSendNothing(cfg, s, e);
      } else {
        WatchingStepsSendNothing(cfg, s, e);
      }
      WithoutAttemptsNothingIsSent(cfg, Next(cfg, s, e), es[1..]);
    }
  }

  // --------------------------------------------------------- two prepares overlap

  const WALLET: string := "0xa"

  /** The row to be paid, and a signed payload for it. */
  function Payment(nonce: Option<nat>): Row {
    Row("org", WALLET, Ethereum, Some("0xb"), 1, None, None, None, Approve, Approved,
        nonce, None, None, 0, None, None, None, None)
  }

  function Signed(nonce: nat): Payload {
    Payload(WALLET, 1, nonce, 0, 0, None, Some("0xb"), 1, "0x")
  }

  lemma SignedIsValid(n: nat)
    ensures ValidateSigned(Payment(Some(n)), Signed(n), n).None?
  {
    assert Lower("0xb") == "0xb";
    assert Lower("0x") == "0x";
  }

  /** Each of two prepares reads the row before the other has stored a nonce. */
  const OVERLAP: seq<Event> :=
    [RowScreened("t", Payment(None), 0), PrepareRead(1, "t"), PrepareRead(2, "t"), NonceReserved(1, 0),
      NonceReserved(2, 0)]

  /**
    Prepare c stores its nonce and mints a token; submission d spends it and hands the payload
    over, the node answers with an error, and the process dies before the row is given back.
   */
  function Round(c: CallId, d: CallId, n: nat, token: Token): seq<Event> {
    StoreAndMint(c) + SpendAndCheck(d, n, token) + ClaimAndSend(d) + [CallCrashed(d)]
  }

  /** The row is unlocked and approved, and prepare c is about to store nonce n. */
  ghost predicate Poised(s: State, c: CallId, n: nat) {
    && s.rows.Keys == {"t"} && s.rows["t"] == Payment(s.rows["t"].nonce)
    && s.locks == map[] && "t" in s.issued
    && c in s.calls && s.calls[c] == Storing("t", n)
  }

  lemma OverlapPoises(cfg: Config)
    requires !cfg.serializedPrepare
    ensures var s := Reached(cfg, OVERLAP);
            && s.rows == map["t" := Payment(None)] && s.calls == map[1 := Storing("t", 0), 2 := Storing("t", 1)]
            && s.locks == map[] && s.minted == 0 && "t" in s.issued
  {
    hide Run;
    assert Lower(WALLET) == WALLET;
    var s1 := ScreenStep(EMPTY, "t", Payment(None), 0);
    var s3 := PrepareStep(cfg, PrepareStep(cfg, s1, 1, "t"), 2, "t");
    assert s3.rows == map["t" := Payment(None)] && s3.calls == map[1 := Reserving("t"), 2 := Reserving("t")];
    RunOverlap(cfg);
  }

  lemma RunOverlap(cfg: Config)
    ensures Reached(cfg, OVERLAP) ==
            ReserveStep(ReserveStep(
              PrepareStep(cfg, PrepareStep(cfg, ScreenStep(EMPTY, "t", Payment(None), 0), 1, "t"), 2, "t"), 1, 0), 2, 0)
  {
    hide ScreenStep, PrepareStep, ReserveStep;
    var es := OVERLAP;
    assert es[0..] == es;
    RunTwo(cfg, EMPTY, es, 0);
    var s := PrepareStep(cfg, ScreenStep(EMPTY, "t", Payment(None), 0), 1, "t");
    RunTwo(cfg, s, es, 2);
    s := ReserveStep(PrepareStep(cfg, s, 2, "t"), 1, 0);
    assert es[4..] == [NonceReserved(2, 0)] && es[4..][1..] == [];
  }

  lemma RunOne(cfg: Config, s: State, e: Event)
    ensures Run(cfg, s, [e]) == Next(cfg, s, e)
  {
    hide Next;
    assert [e][1..] == [];
  }

  lemma RunPair(cfg: Config, s: State, d: Event, e: Event)
    ensures Run(cfg, s, [d, e]) == Next(cfg, Next(cfg, s, d), e)
  {
    hide Next;
    assert [d, e][1..] == [e];
    RunOne(cfg, Next(cfg, s, d), e);
  }

  function AfterToken(s: State, c: CallId): State { MintStep(StoreStep(s, c), c) }

  function AfterCleared(cfg: Config, s: State, d: CallId, n: nat, token: Token): State {
    CheckStep(cfg, ConsumeStep(s, d, "t", token, Submit, Some(Signed(n))), d)
  }

  function AfterSent(cfg: Config, s: State, d: CallId): State { SendStep(cfg, ClaimStep(cfg, s, d, true), d, None) }

  function StoreAndMint(c: CallId): seq<Event> { [NonceStored(c), TokenMinted(c)] }

  function SpendAndCheck(d: CallId, n: nat, token: Token): seq<Event> {
    [TokenConsumed(d, "t", token, Submit, Some(Signed(n))), RowChecked(d)]
  }

  function ClaimAndSend(d: CallId): seq<Event> { [RowClaimed(d, true), SendTried(d, None)] }

  lemma RunStoreAndMint(cfg: Config, s: State, c: CallId)
    ensures Run(cfg, s, StoreAndMint(c)) == AfterToken(s, c)
  {
    hide Run, StoreStep, MintStep;
    RunPair(cfg, s, NonceStored(c), TokenMinted(c));
  }

  lemma RunSpendAndCheck(cfg: Config, s: State, d: CallId, n: nat, token: Token)
    ensures Run(cfg, s, SpendAndCheck(d, n, token)) == AfterCleared(cfg, s, d, n, token)
  {
    hide Run, ConsumeStep, CheckStep, Signed;
    RunPair(cfg, s, TokenConsumed(d, "t", token, Submit, Some(Signed(n))), RowChecked(d));
  }

  lemma RunClaimAndSend(cfg: Config, s: State, d: CallId)
    ensures Run(cfg, s, ClaimAndSend(d)) == AfterSent(cfg, s, d)
  {
    hide Run, ClaimStep, SendStep;
    RunPair(cfg, s, RowClaimed(d, true), SendTried(d, None));
  }

  lemma RunRound(cfg: Config, s: State, c: CallId, d: CallId, n: nat, token: Token)
    ensures Run(cfg, s, Round(c, d, n, token)) ==
            CrashStep(AfterSent(cfg, AfterCleared(cfg, AfterToken(s, c), d, n, token), d), d)
  {
    hide Run, AfterToken, AfterCleared, AfterSent, CrashStep, StoreAndMint, SpendAndCheck, ClaimAndSend;
    RunConcat(cfg, s, StoreAndMint(c) + SpendAndCheck(d, n, token) + ClaimAndSend(d), [CallCrashed(d)]);
    RunConcat(cfg, s, StoreAndMint(c) + SpendAndCheck(d, n, token), ClaimAndSend(d));
    RunConcat(cfg, s, StoreAndMint(c), SpendAndCheck(d, n, token));
    RunStoreAndMint(cfg, s, c);
    RunSpendAndCheck(cfg, AfterToken(s, c), d, n, token);
    RunClaimAndSend(cfg, AfterCleared(cfg, AfterToken(s, c), d, n, token), d);
    RunOne(cfg, AfterSent(cfg, AfterCleared(cfg, AfterToken(s, c), d, n, token), d), CallCrashed(d));
  }

  lemma TokenIsReady(s: State, c: CallId, n: nat)
    requires Poised(s, c, n)
    ensures var s' := AfterToken(s, c);
            && s'.rows == map["t" := Payment(Some(n))] && s'.locks == map[] && "t" in s'.issued
            && s'.calls == s.calls - {c} && s'.sent == s.sent
            && s'.minted == s.minted + 1 && "t" in s'.tokens && s'.tokens["t"] == s.minted
  {
    var s1 := StoreStep(s, c);
    assert s1.calls == s.calls[c := Minting("t")];
    assert s1.rows == map["t" := Payment(Some(n))];
  }

  lemma SubmissionIsCleared(cfg: Config, s: State, d: CallId, n: nat, token: Token)
    requires s.rows == map["t" := Payment(Some(n))] && d !in s.calls && "t" in s.tokens && s.tokens["t"] == token
    ensures var s' := AfterCleared(cfg, s, d, n, token);
            && s'.rows == s.rows && s'.locks == s.locks && s'.issued == s.issued && s'.sent == s.sent
            && s'.minted == s.minted && s'.charged == s.charged && s'.tokens == s.tokens - {"t"}
            && s'.calls == s.calls[d := Working("t", token, Submit, Some(Signed(n)), Cleared(n))]
  {
    hide ValidateReplacement, AfterSend;
    var s1 := ConsumeStep(s, d, "t", token, Submit, Some(Signed(n)));
    assert s1.calls[d].stage == Consumed;
  }

  lemma PayloadIsHandedOver(cfg: Config, s: State, d: CallId, n: nat, token: Token)
    requires cfg.maxBroadcastAttempts > 0
    requires s.rows == map["t" := Payment(Some(n))] && s.locks == map[]
    requires d in s.calls && s.calls[d] == Working("t", token, Submit, Some(Signed(n)), Cleared(n))
    ensures var s' := CrashStep(AfterSent(cfg, s, d), d);
            && s'.rows == s.rows && s'.locks == map[] && s'.issued == s.issued && s'.minted == s.minted
            && s'.calls == s.calls - {d} && s'.sent == s.sent + [Sent("t", token, Submit, Signed(n))]
  {
    hide ClaimStep, Signed;
    PayloadIsClaimed(cfg, s, d, n, token);
    var s2 := SendStep(cfg, ClaimStep(cfg, s, d, true), d, None);
    assert Holds(s2, d);
  }

  lemma PayloadIsClaimed(cfg: Config, s: State, d: CallId, n: nat, token: Token)
    requires cfg.maxBroadcastAttempts > 0
    requires s.rows == map["t" := Payment(Some(n))] && s.locks == map[]
    requires d in s.calls && s.calls[d] == Working("t", token, Submit, Some(Signed(n)), Cleared(n))
    ensures var s' := ClaimStep(cfg, s, d, true);
            && s'.rows == s.rows && s'.locks == map["t" := d] && s'.issued == s.issued && s'.minted == s.minted
            && s'.sent == s.sent && s'.charged == s.charged && s'.tokens == s.tokens
            && s'.calls == s.calls[d := Working("t", token, Submit, Some(Signed(n)), Sending(0))]
  {
    hide ValidateSigned, Signed;
    SignedIsValid(n);
  }

  lemma RoundSends(cfg: Config, s: State, c: CallId, d: CallId, n: nat)
    requires cfg.maxBroadcastAttempts > 0 && Poised(s, c, n) && d !in s.calls
    ensures var s' := Run(cfg, s, Round(c, d, n, s.minted));
            && s'.rows == map["t" := Payment(Some(n))] && s'.locks == map[] && "t" in s'.issued
            && s'.calls == s.calls - {c} && s'.minted == s.minted + 1
            && s'.sent == s.sent + [Sent("t", s.minted, Submit, Signed(n))]
  {
    hide Run, AfterToken, AfterCleared, AfterSent, CrashStep, Round, Payment;
    RunRound(cfg, s, c, d, n, s.minted);
    TokenIsReady(s, c, n);
    SubmissionIsCleared(cfg, AfterToken(s, c), d, n, s.minted);
    PayloadIsHandedOver(cfg, AfterCleared(cfg, AfterToken(s, c), d, n, s.minted), d, n, s.minted);
  }

  /** Both prepares of the row run their round: two payloads of one row, under two nonces. */
  lemma OverlapSendsTwoNonces(cfg: Config)
    requires !cfg.serializedPrepare && cfg.maxBroadcastAttempts > 0
    ensures var s := Reached(cfg, OVERLAP + Round(1, 3, 0, 0) + Round(2, 4, 1, 1));
            && s.rows == map["t" := Payment(Some(1))]
            && Sent("t", 0, Submit, Signed(0)) in s.sent && Sent("t", 1, Submit, Signed(1)) in s.sent
  {
    hide Run, Round, Signed;
    var (first, second) := (Round(1, 3, 0, 0), Round(2, 4, 1, 1));
    var s0 := Reached(cfg, OVERLAP);
    OverlapPoises(cfg);
    RunConcat(cfg, EMPTY, OVERLAP + first, second);
    RunConcat(cfg, EMPTY, OVERLAP, first);
    RoundSends(cfg, s0, 1, 3, 0);
    var s1 := Run(cfg, s0, first);
    RoundSends(cfg, s1, 2, 4, 1);
    var s2 := Run(cfg, s1, second);
    assert s2.sent[|s2.sent| - 1] == Sent("t", 1, Submit, Signed(1));
    assert s2.sent[|s2.sent| - 2] == Sent("t", 0, Submit, Signed(0));
  }

  lemma RunConcat(cfg: Config, s: State, es: seq<Event>, fs: seq<Event>)
    ensures Run(cfg, s, es + fs) == Run(cfg, Run(cfg, s, es), fs)
  {
    hide Run;
    RunSplits(cfg, s, es + fs, |es|);
    assert (es + fs)[..|es|] == es && (es + fs)[|es|..] == fs;
  }

  lemma SerializedIsSafe(cfg: Config)
    requires cfg.serializedPrepare
    ensures CarriesRowNonce(cfg) && MinesOncePerRow(cfg)
  {
    hide Reached, OnePerNonce;
    forall es, e | e in Reached(cfg, es).sent
      ensures e.id in Reached(cfg, es).rows && Reached(cfg, es).rows[e.id].nonce == Some(e.payload.nonce)
    {
      EveryPayloadIsItsRowsOwn(cfg, es, e);
    }
    forall es, e, f | e in Reached(cfg, es).sent && f in Reached(cfg, es).sent && OnePerNonce({e, f})
      ensures e.id == f.id ==> e.payload == f.payload
    {
      AtMostOneMinedPerRow(cfg, es, {e, f});
    }
  }

  lemma SilentIsSafe(cfg: Config)
    requires cfg.maxBroadcastAttempts == 0
    ensures CarriesRowNonce(cfg) && MinesOncePerRow(cfg)
  {
    hide Run;
    forall es: seq<Event>
      ensures Reached(cfg, es).sent == []
    {
      WithoutAttemptsNothingIsSent(cfg, EMPTY, es);
    }
  }

  lemma OverlapIsUnsafe(cfg: Config)
    requires !cfg.serializedPrepare && cfg.maxBroadcastAttempts > 0
    ensures !CarriesRowNonce(cfg) && !MinesOncePerRow(cfg)
  {
    hide Reached, Round;
    var es := OVERLAP + Round(1, 3, 0, 0) + Round(2, 4, 1, 1);
    var e, f := Sent("t", 0, Submit, Signed(0)), Sent("t", 1, Submit, Signed(1));
    OverlapSendsTwoNonces(cfg);
    assert e in Reached(cfg, es).sent && f in Reached(cfg, es).sent && OnePerNonce({e, f});
  }

  lemma {:induction false} RunKeepsRowNonces(cfg: Config, s: State, es: seq<Event>, id: TxId)
    requires Sound(s) && Payloads(s) && cfg.serializedPrepare && id in s.rows
    ensures id in Run(cfg, s, es).rows && SameNonce(s.rows[id], Run(cfg, s, es).rows[id])
    decreases |es|
  {
    hide Inv, Payloads, Next, AllRowsOk;
    if es != [] {
      var s' := Next(cfg, s, es[0]);
      StepKeepsSound(cfg, s, es[0]);
      StepKeepsPayloads(cfg, s, es[0]);
      StepKeepsRowNonces(cfg, s, es[0]);
      RunKeepsRowNonces(cfg, s', es[1..], id);
    }
  }

  lemma SerializedKeepsNonces(cfg: Config)
    requires cfg.serializedPrepare
    ensures NoncesNeverChange(cfg)
  {
    hide Sound, Payloads, Run;
    forall es, i: nat, id | i <= |es| && id in Reached(cfg, es[..i]).rows && id in Reached(cfg, es).rows
      ensures SameNonce(Reached(cfg, es[..i]).rows[id], Reached(cfg, es).rows[id])
    {
      ReachedIsSound(cfg, es[..i]);
      ReachedPayloads(cfg, es[..i]);
      RunKeepsRowNonces(cfg, Reached(cfg, es[..i]), es[i..], id);
      RunSplits(cfg, EMPTY, es, i);
    }
  }

  lemma OverlapChangesNonce(cfg: Config)
    requires !cfg.serializedPrepare
    ensures !NoncesNeverChange(cfg)
  {
    hide Run, StoreStep;
    var es := OVERLAP + [NonceStored(1), NonceStored(2)];
    var s := Reached(cfg, OVERLAP);
    OverlapPoises(cfg);
    FirstThenSecond(s);
    RunConcat(cfg, EMPTY, OVERLAP, [NonceStored(1), NonceStored(2)]);
    RunConcat(cfg, EMPTY, OVERLAP, [NonceStored(1)]);
    RunPair(cfg, s, NonceStored(1), NonceStored(2));
    RunOne(cfg, s, NonceStored(1));
    assert es[..|OVERLAP| + 1] == OVERLAP + [NonceStored(1)];
    assert !SameNonce(Reached(cfg, es[..|OVERLAP| + 1]).rows["t"], Reached(cfg, es).rows["t"]);
  }

  lemma FirstThenSecond(s: State)
    requires s.rows == map["t" := Payment(None)] && s.calls == map[1 := Storing("t", 0), 2 := Storing("t", 1)]
    requires s.locks == map[]
    ensures StoreStep(s, 1).rows == map["t" := Payment(Some(0))]
    ensures StoreStep(StoreStep(s, 1), 2).rows == map["t" := Payment(Some(1))]
  {
    assert StoreStep(s, 1).calls == map[1 := Minting("t"), 2 := Storing("t", 1)];
  }

  /**
    Serializing prepares is what fixes the nonce of a row, what keeps it on all its payloads, and
    what keeps two payloads of one row from both being mined: each holds over all runs if and only
    if prepares are serialized, or for the last two submissions are configured to send nothing.
   */
  lemma SerializationIsNeeded(cfg: Config)
    ensures NoncesNeverChange(cfg) <==> cfg.serializedPrepare
    ensures CarriesRowNonce(cfg) <==> cfg.serializedPrepare || cfg.maxBroadcastAttempts == 0
    ensures MinesOncePerRow(cfg) <==> cfg.serializedPrepare || cfg.maxBroadcastAttempts == 0
  {
    hide CarriesRowNonce, MinesOncePerRow, NoncesNeverChange;
    if cfg.serializedPrepare {
      SerializedIsSafe(cfg);
      SerializedKeepsNonces(cfg);
    } else {
      OverlapChangesNonce(cfg);
    }
    if cfg.serializedPrepare {
    } else if cfg.maxBroadcastAttempts == 0 {
      SilentIsSafe(cfg);
    } else {
      OverlapIsUnsafe(cfg);
    }
  }
}
