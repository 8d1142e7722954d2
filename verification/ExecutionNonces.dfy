/**
  Nonces and payloads of the broadcast protocol. That a nonce belongs to one row holds over every
  run; that a row keeps its nonce, and is sent nothing else than it allows, takes prepares that
  are serialized per row.
 */
module ExecutionNonces {
  import opened Wrappers
  import opened SignedTx
  import opened Execution
  import opened ExecutionInvariant

  predicate ReservedFor(reservedFor: map<(string, nat), TxId>, wallet: string, nonce: nat, id: TxId) {
    (wallet, nonce) in reservedFor && reservedFor[(wallet, nonce)] == id
  }

  /** Every nonce a row has, or is about to get, was reserved for that row alone. */
  ghost predicate NoncesOk(rows: Rows, counters: map<string, nat>, reservedFor: map<(string, nat), TxId>,
      calls: Calls) {
    && (forall key <- reservedFor :: key.0 in counters && key.1 < counters[key.0])
    && (forall id <- rows :: rows[id].nonce.Some? ==>
          ReservedFor(reservedFor, rows[id].wallet, rows[id].nonce.value, id))
    && (forall c <- calls :: calls[c].Storing? ==>
          calls[c].id in rows && ReservedFor(reservedFor, rows[calls[c].id].wallet, calls[c].nonce, calls[c].id))
  }

  /** Serialized prepares: one per row, and a nonce is written only where there is none. */
  ghost predicate PreparesOk(rows: Rows, calls: Calls) {
    && (forall c, d | c in calls && d in calls && c != d ::
          Preparing(calls[c]) && Preparing(calls[d]) ==> calls[c].id != calls[d].id)
    && (forall c <- calls :: calls[c].Reserving? || calls[c].Storing? ==>
          calls[c].id in rows && rows[calls[c].id].nonce.None?)
  }

  /** A call past its checks carries a payload its row allows. */
  predicate PayloadFits(row: Row, call: Call)
    requires call.Working?
  {
    match call.stage
    case Rescreening => call.kind != Submit && call.payload.Some? && Allowed(row, call.payload.value, call.kind)
    case Cleared(nonce) =>
      && row.nonce == Some(nonce)
      && (call.kind != Submit ==> call.payload.Some? && Allowed(row, call.payload.value, call.kind))
    case Sending(_) => call.payload.Some? && Allowed(row, call.payload.value, call.kind)
    case _ => true
  }

  ghost predicate PayloadsOk(rows: Rows, calls: Calls) {
    forall c <- calls :: calls[c].Working? ==> calls[c].id in rows && PayloadFits(rows[calls[c].id], calls[c])
  }

  /** Everything ever handed to the network is what its row allows. */
  ghost predicate SentAllowed(rows: Rows, sent: seq<Sent>) {
    forall e <- sent :: e.id in rows && Allowed(rows[e.id], e.payload, e.kind)
  }

  ghost predicate Nonces(s: State) { NoncesOk(s.rows, s.counters, s.reservedFor, s.calls) }

  ghost predicate Payloads(s: State) {
    PreparesOk(s.rows, s.calls) && PayloadsOk(s.rows, s.calls) && SentAllowed(s.rows, s.sent)
  }

  // ------------------------------------------- steps that write no nonce and send nothing

  ghost predicate KeepsNonces(rows: Rows, rows': Rows) {
    && rows'.Keys == rows.Keys
    && (forall id <- rows :: SameIntent(rows[id], rows'[id]) && rows'[id].nonce == rows[id].nonce)
  }

  /** Rows keep intent and nonce, calls at most end, and counters and the send log stay. */
  ghost predicate Quiet(s: State, s': State) {
    && KeepsNonces(s.rows, s'.rows)
    && s'.counters == s.counters && s'.reservedFor == s.reservedFor && s'.sent == s.sent
    && (forall c <- s'.calls :: c in s.calls && s'.calls[c] == s.calls[c])
  }

  lemma QuietStepKeepsNonces(s: State, s': State)
    requires Quiet(s, s') && Nonces(s)
    ensures Nonces(s')
  {
  }

  lemma QuietStepKeepsPayloads(s: State, s': State)
    requires Quiet(s, s') && Payloads(s)
    ensures Payloads(s')
  {
  }

  lemma QuietStepKeeps(s: State, s': State)
    requires Quiet(s, s')
    ensures Nonces(s) ==> Nonces(s')
    ensures Payloads(s) ==> Payloads(s')
  {
    hide Quiet, Nonces, Payloads;
    if Nonces(s) { QuietStepKeepsNonces(s, s'); }
    if Payloads(s) { QuietStepKeepsPayloads(s, s'); }
  }

  lemma QuietTwice(a: State, b: State, c: State)
    requires Quiet(a, b) && Quiet(b, c)
    ensures Quiet(a, c)
  {
  }

  lemma StaysQuiet(s: State)
    ensures Quiet(s, s)
  {
  }

  lemma SweepIsQuiet(s: State, due: set<TxId>)
    ensures Quiet(s, Expire(s, due))
  {
  }

  lemma RowUpdateIsQuiet(s: State, id: TxId, row: Row)
    requires id in s.rows && SameIntent(s.rows[id], row) && row.nonce == s.rows[id].nonce
    ensures Quiet(s, WithRow(s, id, row))
  {
  }

  lemma ApprovalIsQuiet(s: State, id: TxId, a: Approval)
    ensures Quiet(s, WithApproval(s, id, a))
  {
  }

  lemma DecisionIsQuiet(s: State, id: TxId, org: string, approve: bool, checked: int, decided: int)
    ensures Quiet(s, DecideStep(s, id, org, approve, checked, decided))
  {
    hide Quiet, Expire, OverdueIn, WithApproval, WithRow;
    var swept := Expire(s, OverdueIn(s, org, checked));
    SweepIsQuiet(s, OverdueIn(s, org, checked));
    if id in swept.approvals {
      var a := swept.approvals[id].(status := DecidedStatus(approve, checked, decided));
      var s' := WithApproval(swept, id, a);
      ApprovalIsQuiet(swept, id, a);
      QuietTwice(s, swept, s');
      if id in s'.rows {
        var row := s'.rows[id].(status := if approve then Approved else Rejected);
        RowUpdateIsQuiet(s', id, row);
        QuietTwice(s, s', WithRow(s', id, row));
      }
    }
  }

  lemma WatchingStepIsQuiet(cfg: Config, s: State, e: Event)
    requires e.RowCancelled? || e.RowConfirmed? || e.RowReorged? || e.RowStuck?
    ensures Quiet(s, Next(cfg, s, e))
  {
    hide Quiet, WithRow;
    StaysQuiet(s);
    if Next(cfg, s, e) != s {
      RowUpdateIsQuiet(s, e.id, Next(cfg, s, e).rows[e.id]);
    }
  }

  lemma DropIsQuiet(s: State, c: CallId)
    ensures Quiet(s, Drop(s, c))
  {
  }

  lemma TokenStepIsQuiet(cfg: Config, s: State, e: Event)
    requires e.TokenMinted? || e.TokenLapsed?
    ensures Quiet(s, Next(cfg, s, e))
  {
  }

  lemma EndIsQuiet(s: State, c: CallId, row: Row)
    requires c in s.calls && s.calls[c].Working? && s.calls[c].id in s.charged && s.calls[c].id in s.rows
    requires SameIntent(s.rows[s.calls[c].id], row) && row.nonce == s.rows[s.calls[c].id].nonce
    ensures Quiet(s, EndClaim(s, c, row))
  {
  }

  lemma EndingStepIsQuiet(cfg: Config, s: State, e: Event)
    requires e.CallCommitted? || e.CallReverted?
    ensures Quiet(s, Next(cfg, s, e))
  {
    hide Quiet, EndClaim;
    StaysQuiet(s);
    if Holds(s, e.c) && s.calls[e.c].id in s.rows && s.calls[e.c].id in s.charged {
      forall row: Row | SameIntent(s.rows[s.calls[e.c].id], row) && row.nonce == s.rows[s.calls[e.c].id].nonce
        ensures Quiet(s, EndClaim(s, e.c, row))
      {
        EndIsQuiet(s, e.c, row);
      }
    }
  }

  lemma ReleaseIsQuiet(s: State, c: CallId, id: TxId)
    ensures Quiet(s, s.(locks := s.locks - {id}, calls := s.calls - {c}))
  {
  }

  lemma CrashIsQuiet(s: State, c: CallId)
    ensures Quiet(s, CrashStep(s, c))
  {
    hide Quiet;
    StaysQuiet(s);
    DropIsQuiet(s, c);
    if Holds(s, c) {
      ReleaseIsQuiet(s, c, s.calls[c].id);
    }
  }

  /** Deciding, watching, minting and ending a call. */
  predicate IsQuiet(e: Event) {
    || e.ApprovalDecided? || e.OrgSwept? || e.Swept? || e.TokenMinted? || e.TokenLapsed? || e.RowCancelled?
    || e.CallCommitted? || e.CallReverted? || e.CallCrashed? || e.RowConfirmed? || e.RowReorged? || e.RowStuck?
  }

  lemma QuietSteps(cfg: Config, s: State, e: Event)
    requires IsQuiet(e)
    ensures Quiet(s, Next(cfg, s, e))
  {
    hide Quiet, Expire, OverdueIn, OverdueAmong, DecideStep, MintStep, CancelStep, CommitStep, RevertStep, CrashStep,
      ConfirmStep, ReorgStep, StuckStep, WithoutToken;
    match e
    case ApprovalDecided(id, org, approve, checked, decided) =>
      DecisionIsQuiet(s, id, org, approve, checked, decided);
    case OrgSwept(org, now) => SweepIsQuiet(s, OverdueIn(s, org, now));
    case Swept(ids, now) => SweepIsQuiet(s, OverdueAmong(s, ids, now));
    case TokenMinted(_) => TokenStepIsQuiet(cfg, s, e);
    case TokenLapsed(_) => TokenStepIsQuiet(cfg, s, e);
    case CallCommitted(_, _) => EndingStepIsQuiet(cfg, s, e);
    case CallReverted(_, _) => EndingStepIsQuiet(cfg, s, e);
    case CallCrashed(c) => CrashIsQuiet(s, c);
    case _ => WatchingStepIsQuiet(cfg, s, e);
  }

  // -------------------------------------------------------- steps that move a call

  /** Nothing but call c changes. */
  ghost predicate Puts(s: State, s': State, c: CallId, call: Call) {
    && s'.rows == s.rows && s'.counters == s.counters && s'.reservedFor == s.reservedFor && s'.sent == s.sent
    && s'.calls == s.calls[c := call]
  }

  lemma PutKeepsNonces(s: State, s': State, c: CallId, call: Call)
    requires Nonces(s) && Puts(s, s', c, call)
    requires call.Storing? ==>
      call.id in s.rows && ReservedFor(s.reservedFor, s.rows[call.id].wallet, call.nonce, call.id)
    ensures Nonces(s')
  {
  }

  lemma PutKeepsPrepares(rows: Rows, calls: Calls, c: CallId, call: Call)
    requires PreparesOk(rows, calls) && call.id in rows
    requires Preparing(call) ==> forall d <- calls :: d != c && Preparing(calls[d]) ==> calls[d].id != call.id
    requires call.Reserving? || call.Storing? ==> rows[call.id].nonce.None?
    ensures PreparesOk(rows, calls[c := call])
  {
  }

  lemma PutKeepsPayloads(rows: Rows, calls: Calls, c: CallId, call: Call)
    requires PayloadsOk(rows, calls) && call.id in rows
    requires call.Working? ==> PayloadFits(rows[call.id], call)
    ensures PayloadsOk(rows, calls[c := call])
  {
  }

  /** A call that has spent its token moves on to a stage that its payload fits. */
  lemma WorkKeepsPayloads(s: State, s': State, c: CallId, call: Call)
    requires Payloads(s) && Puts(s, s', c, call) && call.Working? && call.id in s.rows
    requires PayloadFits(s.rows[call.id], call)
    ensures Payloads(s')
  {
    hide PreparesOk, PayloadsOk, SentAllowed;
    PutKeepsPrepares(s.rows, s.calls, c, call);
    PutKeepsPayloads(s.rows, s.calls, c, call);
  }

  lemma WorkingFits(s: State, c: CallId)
    requires Payloads(s) && c in s.calls && s.calls[c].Working?
    ensures s.calls[c].id in s.rows && PayloadFits(s.rows[s.calls[c].id], s.calls[c])
  {
  }

  lemma ReplacementIsAllowed(row: Row, p: Payload, kind: Kind, bump: real)
    requires kind != Submit && ValidateReplacement(row, p, kind, bump).None?
    ensures Allowed(row, p, kind)
  {
  }

  lemma CheckedStageFits(cfg: Config, row: Row, call: Call)
    requires call.Working?
    ensures var stage := AfterCheck(cfg, row, call.kind, call.payload);
            stage != Failing ==> PayloadFits(row, call.(stage := stage))
  {
    hide ValidateReplacement;
    if call.kind != Submit && call.payload.Some?
       && ValidateReplacement(row, call.payload.value, call.kind, BumpFor(cfg, call.kind)).None? {
      ReplacementIsAllowed(row, call.payload.value, call.kind, BumpFor(cfg, call.kind));
    }
  }

  lemma ClaimedStageFits(cfg: Config, row: Row, call: Call, configured: bool)
    requires call.Working? && call.stage.Cleared? && PayloadFits(row, call)
    ensures var stage := AfterClaim(cfg, row, call.kind, call.payload, call.stage.nonce, configured);
            PayloadFits(row, call.(stage := stage))
  {
  }

  lemma ConsumeKeeps(s: State, c: CallId, id: TxId, token: Token, kind: Kind, payload: Option<Payload>)
    requires Inv(s)
    ensures Nonces(s) ==> Nonces(ConsumeStep(s, c, id, token, kind, payload))
    ensures Payloads(s) ==> Payloads(ConsumeStep(s, c, id, token, kind, payload))
  {
    hide Inv, Nonces, Payloads;
    var s' := ConsumeStep(s, c, id, token, kind, payload);
    if s' != s {
      var call := Working(id, token, kind, payload, Consumed);
      TokensAreForRows(s, id);
      if Nonces(s) { PutKeepsNonces(s, s', c, call); }
      if Payloads(s) { WorkKeepsPayloads(s, s', c, call); }
    }
  }

  lemma TokensAreForRows(s: State, id: TxId)
    requires Inv(s) && id in s.tokens
    ensures id in s.rows
  {
  }

  lemma CheckKeeps(cfg: Config, s: State, c: CallId)
    requires Inv(s)
    ensures Nonces(s) ==> Nonces(CheckStep(cfg, s, c))
    ensures Payloads(s) ==> Payloads(CheckStep(cfg, s, c))
  {
    hide Inv, Nonces, Payloads, AfterCheck, Quiet, PayloadFits;
    if c in s.calls && s.calls[c].Working? && s.calls[c].stage == Consumed {
      var call := s.calls[c];
      CallFacts(s, c);
      DropIsQuiet(s, c);
      QuietStepKeeps(s, Drop(s, c));
      CheckedStageFits(cfg, s.rows[call.id], call);
      var stage := AfterCheck(cfg, s.rows[call.id], call.kind, call.payload);
      if stage != Failing {
        var s' := AtStage(s, c, stage);
        if Nonces(s) { PutKeepsNonces(s, s', c, call.(stage := stage)); }
        if Payloads(s) { WorkKeepsPayloads(s, s', c, call.(stage := stage)); }
      }
    }
  }

  lemma RescreenKeeps(s: State, c: CallId, approved: bool)
    requires Inv(s)
    ensures Nonces(s) ==> Nonces(RescreenStep(s, c, approved))
    ensures Payloads(s) ==> Payloads(RescreenStep(s, c, approved))
  {
    hide Inv, Nonces, Payloads, Quiet;
    var s' := RescreenStep(s, c, approved);
    if s' != s {
      DropIsQuiet(s, c);
      QuietStepKeeps(s, Drop(s, c));
      if approved {
        var call := s'.calls[c];
        CallFacts(s, c);
        if Nonces(s) { PutKeepsNonces(s, s', c, call); }
        if Payloads(s) {
          WorkingFits(s, c);
          WorkKeepsPayloads(s, s', c, call);
        }
      }
    }
  }

  lemma ClaimKeeps(cfg: Config, s: State, c: CallId, configured: bool)
    requires Inv(s)
    ensures Nonces(s) ==> Nonces(ClaimStep(cfg, s, c, configured))
    ensures Payloads(s) ==> Payloads(ClaimStep(cfg, s, c, configured))
  {
    hide Inv, Nonces, Payloads, Quiet, AfterClaim, PayloadFits;
    if c in s.calls && s.calls[c].Working? && s.calls[c].stage.Cleared? && s.calls[c].id !in s.locks {
      var call := s.calls[c];
      CallFacts(s, c);
      DropIsQuiet(s, c);
      QuietStepKeeps(s, Drop(s, c));
      var stage := AfterClaim(cfg, s.rows[call.id], call.kind, call.payload, call.stage.nonce, configured);
      var s' := WithLock(AtStage(s, c, stage), call.id, c);
      if Nonces(s) { PutKeepsNonces(s, s', c, call.(stage := stage)); }
      if Payloads(s) {
        WorkingFits(s, c);
        ClaimedStageFits(cfg, s.rows[call.id], call, configured);
        WorkKeepsPayloads(s, s', c, call.(stage := stage));
      }
    }
  }

  // ---------------------------------------------------- the steps that do the rest

  lemma NewRowKeepsNonces(s: State, id: TxId, row: Row)
    requires Nonces(s) && id !in s.rows && row.nonce.None?
    ensures NoncesOk(s.rows[id := row], s.counters, s.reservedFor, s.calls)
  {
  }

  lemma NewRowKeepsPayloads(s: State, id: TxId, row: Row)
    requires Payloads(s) && id !in s.rows
    ensures PreparesOk(s.rows[id := row], s.calls) && PayloadsOk(s.rows[id := row], s.calls)
    ensures SentAllowed(s.rows[id := row], s.sent)
  {
  }

  lemma ScreenKeeps(s: State, id: TxId, row: Row, expiresAt: int)
    ensures Nonces(s) ==> Nonces(ScreenStep(s, id, row, expiresAt))
    ensures Payloads(s) ==> Payloads(ScreenStep(s, id, row, expiresAt))
  {
    hide NoncesOk, PreparesOk, PayloadsOk, SentAllowed;
    if id !in s.rows && Fresh(row) {
      if Nonces(s) { NewRowKeepsNonces(s, id, row); }
      if Payloads(s) { NewRowKeepsPayloads(s, id, row); }
    }
  }

  lemma PrepareKeepsNonces(cfg: Config, s: State, c: CallId, id: TxId)
    requires Nonces(s)
    ensures Nonces(PrepareStep(cfg, s, c, id))
  {
    hide Nonces, PrepareInFlight;
    var s' := PrepareStep(cfg, s, c, id);
    if s' != s {
      PutKeepsNonces(s, s', c, s'.calls[c]);
    }
  }

  lemma PrepareKeepsPayloads(cfg: Config, s: State, c: CallId, id: TxId)
    requires Payloads(s) && cfg.serializedPrepare
    ensures Payloads(PrepareStep(cfg, s, c, id))
  {
    hide PreparesOk, PayloadsOk, SentAllowed;
    var s' := PrepareStep(cfg, s, c, id);
    if s' != s {
      PutKeepsPrepares(s.rows, s.calls, c, s'.calls[c]);
      PutKeepsPayloads(s.rows, s.calls, c, s'.calls[c]);
    }
  }

  lemma CounterKeepsNonces(s: State, wallet: string, base: nat, id: TxId)
    requires Nonces(s)
    ensures var nonce := if wallet in s.counters then s.counters[wallet] else base;
            NoncesOk(s.rows, s.counters[wallet := nonce + 1], s.reservedFor[(wallet, nonce) := id], s.calls)
  {
  }

  lemma ReserveKeepsNonces(s: State, c: CallId, base: nat)
    requires Nonces(s)
    ensures Nonces(ReserveStep(s, c, base))
  {
    hide NoncesOk;
    var s' := ReserveStep(s, c, base);
    if s' != s {
      var id := s.calls[c].id;
      var wallet := s.rows[id].wallet;
      CounterKeepsNonces(s, wallet, base, id);
      PutKeepsNonces(s.(counters := s'.counters, reservedFor := s'.reservedFor), s', c, s'.calls[c]);
    }
  }

  lemma ReserveKeepsPayloads(s: State, c: CallId, base: nat)
    requires Payloads(s)
    ensures Payloads(ReserveStep(s, c, base))
  {
    hide PayloadsOk, SentAllowed;
    var s' := ReserveStep(s, c, base);
    if s' != s {
      PutKeepsPrepares(s.rows, s.calls, c, s'.calls[c]);
      PutKeepsPayloads(s.rows, s.calls, c, s'.calls[c]);
    }
  }

  /** Even a nonce that replaces another one was reserved for the row. */
  lemma StoreKeepsNonces(s: State, c: CallId)
    requires Nonces(s)
    ensures Nonces(StoreStep(s, c))
  {
  }

  lemma StoreKeepsPayloads(s: State, c: CallId)
    requires Payloads(s)
    ensures Payloads(StoreStep(s, c))
  {
    if StoreStep(s, c) != s {
      var id := s.calls[c].id;
      var rows' := s.rows[id := s.rows[id].(nonce := Some(s.calls[c].nonce))];
      assert s.rows[id].nonce.None?;
      NoncePutKeepsPrepares(s.rows, s.calls, c, rows'[id]);
      NoncePutKeepsPayloads(s, id, rows'[id]);
      PutKeepsPayloads(rows', s.calls, c, Minting(id));
    }
  }

  lemma NoncePutKeepsPrepares(rows: Rows, calls: Calls, c: CallId, row: Row)
    requires PreparesOk(rows, calls) && c in calls && calls[c].Storing?
    ensures PreparesOk(rows[calls[c].id := row], calls[c := Minting(calls[c].id)])
  {
  }

  lemma NoncePutKeepsPayloads(s: State, id: TxId, row: Row)
    requires PayloadsOk(s.rows, s.calls) && SentAllowed(s.rows, s.sent)
    requires id in s.rows && s.rows[id].nonce.None? && row == s.rows[id].(nonce := row.nonce)
    ensures PayloadsOk(s.rows[id := row], s.calls) && SentAllowed(s.rows[id := row], s.sent)
  {
  }

  lemma SendKeeps(cfg: Config, s: State, c: CallId, answer: Option<string>)
    ensures Nonces(s) ==> Nonces(SendStep(cfg, s, c, answer))
    ensures Payloads(s) ==> Payloads(SendStep(cfg, s, c, answer))
  {
    hide NoncesOk, PreparesOk, PayloadsOk, SentAllowed, AfterSend;
    var s' := SendStep(cfg, s, c, answer);
    if s' != s {
      var call := s'.calls[c];
      if Nonces(s) { PutKeepsNonces(s, AtStage(s, c, call.stage), c, call); }
      if Payloads(s) {
        WorkingFits(s, c);
        SentStageFits(cfg, s.rows[call.id], s.calls[c], answer);
        PutKeepsPrepares(s.rows, s.calls, c, call);
        PutKeepsPayloads(s.rows, s.calls, c, call);
        MoreIsAllowed(s.rows, s.sent, Sent(call.id, call.token, call.kind, call.payload.value));
      }
    }
  }

  lemma SentStageFits(cfg: Config, row: Row, call: Call, answer: Option<string>)
    requires call.Working? && call.stage.Sending? && PayloadFits(row, call)
    ensures PayloadFits(row, call.(stage := AfterSend(cfg, call.kind, call.stage.tries + 1, answer)))
  {
  }

  lemma MoreIsAllowed(rows: Rows, sent: seq<Sent>, e: Sent)
    requires SentAllowed(rows, sent) && e.id in rows && Allowed(rows[e.id], e.payload, e.kind)
    ensures SentAllowed(rows, sent + [e])
  {
  }

  // ---------------------------------------------------------------------- runs

  /** A nonce that is reserved, held or about to be stored belongs to one row, however prepares overlap. */
  lemma StepKeepsNonces(cfg: Config, s: State, e: Event)
    requires Inv(s) && Nonces(s)
    ensures Nonces(Next(cfg, s, e))
  {
    hide Inv, Nonces, Payloads, Quiet, Expire, DecideStep, PrepareStep, ReserveStep, StoreStep, MintStep, ConsumeStep,
      CheckStep, RescreenStep, ClaimStep, SendStep, CommitStep, RevertStep, CrashStep, ConfirmStep, ReorgStep,
      StuckStep, CancelStep, ScreenStep, WithoutToken;
    if IsQuiet(e) {
      QuietSteps(cfg, s, e);
      QuietStepKeeps(s, Next(cfg, s, e));
    } else {
      match e
      case RowScreened(id, row, expiresAt) => ScreenKeeps(s, id, row, expiresAt);
      case PrepareRead(c, id) => PrepareKeepsNonces(cfg, s, c, id);
      case NonceReserved(c, base) => ReserveKeepsNonces(s, c, base);
      case NonceStored(c) => StoreKeepsNonces(s, c);
      case TokenConsumed(c, id, token, kind, payload) => ConsumeKeeps(s, c, id, token, kind, payload);
      case RowChecked(c) => CheckKeeps(cfg, s, c);
      case Rescreened(c, approved) => RescreenKeeps(s, c, approved);
      case RowClaimed(c, configured) => ClaimKeeps(cfg, s, c, configured);
      case SendTried(c, answer) => SendKeeps(cfg, s, c, answer);
      case _ =>
    }
  }

  /** With serialized prepares a row keeps its nonce, and all that is sent or about to be is what it allows. */
  lemma StepKeepsPayloads(cfg: Config, s: State, e: Event)
    requires Inv(s) && Payloads(s) && cfg.serializedPrepare
    ensures Payloads(Next(cfg, s, e))
  {
    hide Inv, Nonces, Payloads, Quiet, Expire, DecideStep, PrepareStep, ReserveStep, StoreStep, MintStep, ConsumeStep,
      CheckStep, RescreenStep, ClaimStep, SendStep, CommitStep, RevertStep, CrashStep, ConfirmStep, ReorgStep,
      StuckStep, CancelStep, ScreenStep, WithoutToken;
    if IsQuiet(e) {
      QuietSteps(cfg, s, e);
      QuietStepKeeps(s, Next(cfg, s, e));
    } else {
      match e
      case RowScreened(id, row, expiresAt) => ScreenKeeps(s, id, row, expiresAt);
      case PrepareRead(c, id) => PrepareKeepsPayloads(cfg, s, c, id);
      case NonceReserved(c, base) => ReserveKeepsPayloads(s, c, base);
      case NonceStored(c) => StoreKeepsPayloads(s, c);
      case TokenConsumed(c, id, token, kind, payload) => ConsumeKeeps(s, c, id, token, kind, payload);
      case RowChecked(c) => CheckKeeps(cfg, s, c);
      case Rescreened(c, approved) => RescreenKeeps(s, c, approved);
      case RowClaimed(c, configured) => ClaimKeeps(cfg, s, c, configured);
      case SendTried(c, answer) => SendKeeps(cfg, s, c, answer);
      case _ =>
    }
  }

  lemma {:induction false} RunKeepsNonces(cfg: Config, s: State, es: seq<Event>)
    requires Inv(s) && Nonces(s)
    ensures Nonces(Run(cfg, s, es))
    decreases |es|
  {
    hide Inv, Nonces, Next;
    if es != [] {
      StepKeepsInv(cfg, s, es[0]);
      StepKeepsNonces(cfg, s, es[0]);
      RunKeepsNonces(cfg, Next(cfg, s, es[0]), es[1..]);
    }
  }

  lemma {:induction false} RunKeepsPayloads(cfg: Config, s: State, es: seq<Event>)
    requires Inv(s) && Payloads(s) && cfg.serializedPrepare
    ensures Payloads(Run(cfg, s, es))
    decreases |es|
  {
    hide Inv, Payloads, Next;
    if es != [] {
      StepKeepsInv(cfg, s, es[0]);
      StepKeepsPayloads(cfg, s, es[0]);
      RunKeepsPayloads(cfg, Next(cfg, s, es[0]), es[1..]);
    }
  }

  // -------------------------------------------------------------- nonces of rows

  /** No step takes a row's nonce away or changes it. */
  lemma StepKeepsRowNonces(cfg: Config, s: State, e: Event)
    requires Payloads(s)
    ensures forall id <- s.rows :: id in Next(cfg, s, e).rows ==> SameNonce(s.rows[id], Next(cfg, s, e).rows[id])
  {
    hide Payloads, Quiet, PayloadsOk, SentAllowed, Next;
    if IsQuiet(e) {
      QuietSteps(cfg, s, e);
      QuietKeepsRowNonces(s, Next(cfg, s, e));
    } else if e.NonceStored? {
      StoringKeepsRowNonces(cfg, s, e);
    } else {
      OthersWriteNoNonce(cfg, s, e);
    }
  }

  lemma QuietKeepsRowNonces(s: State, s': State)
    requires Quiet(s, s')
    ensures forall id <- s.rows :: id in s'.rows ==> SameNonce(s.rows[id], s'.rows[id])
  {
  }

  lemma StoringKeepsRowNonces(cfg: Config, s: State, e: Event)
    requires Payloads(s) && e.NonceStored?
    ensures forall id <- s.rows :: id in Next(cfg, s, e).rows ==> SameNonce(s.rows[id], Next(cfg, s, e).rows[id])
  {
    hide PayloadsOk, SentAllowed;
  }

  lemma OthersWriteNoNonce(cfg: Config, s: State, e: Event)
    requires !IsQuiet(e) && !e.NonceStored?
    ensures forall id <- s.rows :: id in Next(cfg, s, e).rows ==> Next(cfg, s, e).rows[id] == s.rows[id]
  {
    hide AfterCheck, AfterClaim, AfterSend, WithCalls, WithLock, WithSent, Fresh, PrepareInFlight;
  }
}
