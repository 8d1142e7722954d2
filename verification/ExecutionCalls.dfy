/** executor.py and the replacement half of rbf.py: prepare, submit, cancel and replace. */
module ExecutionCalls {
  import opened Wrappers
  import opened SignedTx
  import opened Execution
  import opened ExecutionInvariant
  import opened ExecutionNonces
  import opened ExecutionRows
  import opened ExecutionFrames
  import opened ExecutionPlatform

  datatype PrepareOutcome =
    | Prepared(token: Token, nonce: nat)
    | NotApproved     // DecisionNotApprovedError
    | PrepareFailed   // Redis or RPC trouble, or the process died

  datatype SubmitOutcome =
    | Done(hash: string)
    | TokenRefused    // TokenConsumedError: missing, expired or already used
    | NotExecutable   // TokenConsumedError: gone or not in the required status
    | NoNonce         // DecisionNotApprovedError: prepare first
    | Refused         // the signed payload does not fit the row
    | NotRescreened   // the pipeline did not approve the replacement
    | ClaimLost       // TokenConsumedError: somebody else moved the row
    | Unconfigured    // no RPC provider
    | Undelivered     // every attempt was answered with an error
    | Died            // the process stopped, or an unexpected error rolled it back

  lemma InPrefix(a: seq<Sent>, b: seq<Sent>, e: Sent)
    requires a <= b && e in a
    ensures e in b
  {
  }

  lemma NonceStays(rows: Rows, rows': Rows, id: TxId)
    requires RowsMove(rows, rows') && id in rows && rows[id].nonce.Some?
    ensures id in rows' && rows'[id].nonce == rows[id].nonce
  {
  }

  /** What a successful call leaves in the database. */
  ghost predicate IsOut(s: State, id: TxId, hash: string, now: int, p: Payload) {
    && id in s.rows
    && s.rows[id].status == Broadcast && s.rows[id].txHash == Some(hash) && s.rows[id].broadcastAt == Some(now)
    && s.rows[id].nonce == Some(p.nonce)
  }

  /** What a call whose attempts all failed leaves: the row given back, the attempt counted. */
  ghost predicate IsGivenBack(s: State, id: TxId, kind: Kind) {
    && id in s.rows && s.rows[id].attempts > 0
    && if kind == Submit then s.rows[id].status == Approved else s.rows[id].status in {Stuck, Broadcasting}
  }

  lemma CommittedPayloadIsOut(s: State, id: TxId, token: Token, kind: Kind, p: Payload, hash: string, now: int)
    requires Payloads(s) && id in s.rows && Sent(id, token, kind, p) in s.sent
    requires s.rows[id].status == Broadcast && s.rows[id].txHash == Some(hash) && s.rows[id].broadcastAt == Some(now)
    ensures IsOut(s, id, hash, now, p)
  {
  }

  /** A call that may claim its row carries a payload that the row allows, and the row's nonce. */
  lemma ClearedFits(s: State, c: CallId)
    requires Payloads(s) && c in s.calls && s.calls[c].Working? && s.calls[c].stage.Cleared?
    ensures var call := s.calls[c];
            && call.id in s.rows && s.rows[call.id].nonce == Some(call.stage.nonce)
            && (call.kind != Submit ==> call.payload.Some? && Allowed(s.rows[call.id], call.payload.value, call.kind))
  {
    hide Payloads, Allowed;
    WorkingFits(s, c);
  }

  /** s was the shared state at some moment between the trace `before` and the trace `now`. */
  ghost predicate WasPresent(cfg: Config, before: seq<Event>, now: seq<Event>, s: State) {
    exists at :: |before| <= at <= |now| && s == Run(cfg, EMPTY, now[..at])
  }

  lemma IsPresent(cfg: Config, before: seq<Event>, now: seq<Event>, later: seq<Event>)
    requires before <= now <= later
    ensures WasPresent(cfg, before, later, Run(cfg, EMPTY, now))
  {
    assert later[..|now|] == now;
  }

  lemma StillWasPresent(cfg: Config, before: seq<Event>, now: seq<Event>, later: seq<Event>, s: State)
    requires now <= later && WasPresent(cfg, before, now, s)
    ensures WasPresent(cfg, before, later, s)
  {
    hide Run;
    var at :| |before| <= at <= |now| && s == Run(cfg, EMPTY, now[..at]);
    assert later[..at] == now[..at];
  }

  lemma EarlierWasPresent(cfg: Config, before: seq<Event>, between: seq<Event>, now: seq<Event>, s: State)
    requires before <= between && WasPresent(cfg, between, now, s)
    ensures WasPresent(cfg, before, now, s)
  {
  }

  predicate InStatus(s: State, id: TxId, status: Status) { id in s.rows && s.rows[id].status == status }

  predicate Acceptable(row: Row, payload: Option<Payload>) {
    row.nonce.Some? && payload.Some? && ValidateSigned(row, payload.value, row.nonce.value).None?
  }

  lemma AcceptableNonce(row: Row, payload: Option<Payload>)
    requires Acceptable(row, payload)
    ensures row.nonce == Some(payload.value.nonce)
  {
  }

  /** The outcome of a submission is the one that the state its last check saw demands. */
  ghost predicate SubmitDecides(r: SubmitOutcome, seen: State, id: TxId, payload: Option<Payload>, configured: bool) {
    match r
    case TokenRefused => true
    case Died => true
    case NotRescreened => false
    case NotExecutable => !InStatus(seen, id, Approved)
    case ClaimLost => !InStatus(seen, id, Approved)
    case NoNonce => InStatus(seen, id, Approved) && seen.rows[id].nonce.None?
    case Refused => InStatus(seen, id, Approved) && seen.rows[id].nonce.Some? && !Acceptable(seen.rows[id], payload)
    case Unconfigured => InStatus(seen, id, Approved) && Acceptable(seen.rows[id], payload) && !configured
    case Undelivered => InStatus(seen, id, Approved) && Acceptable(seen.rows[id], payload) && configured
    case Done(_) => InStatus(seen, id, Approved) && Acceptable(seen.rows[id], payload) && configured
  }

  predicate Replaceable(cfg: Config, row: Row, payload: Option<Payload>, mode: Kind) {
    && payload.Some?
    && ValidateReplacement(row, payload.value, mode, if mode == Cancel then cfg.cancelBump else cfg.rbfBump).None?
  }

  predicate Claimable(s: State, id: TxId, payload: Option<Payload>, mode: Kind) {
    InStatus(s, id, Stuck) && payload.Some? && Allowed(s.rows[id], payload.value, mode)
  }

  ghost predicate ReplaceDecides(
      cfg: Config, r: SubmitOutcome, seen: State, id: TxId, payload: Option<Payload>, mode: Kind, configured: bool) {
    match r
    case TokenRefused => true
    case Died => true
    case NoNonce => false
    case NotExecutable => !InStatus(seen, id, Stuck)
    case ClaimLost => !InStatus(seen, id, Stuck)
    case Refused => payload.None? || (InStatus(seen, id, Stuck) && !Replaceable(cfg, seen.rows[id], payload, mode))
    case NotRescreened => InStatus(seen, id, Stuck) && Replaceable(cfg, seen.rows[id], payload, mode)
    case Unconfigured => Claimable(seen, id, payload, mode) && !configured
    case Undelivered => Claimable(seen, id, payload, mode) && configured
    case Done(_) => Claimable(seen, id, payload, mode) && configured
  }

  method GiveBack(db: Platform, c: CallId)
    requires db.Valid() && c in db.calls && db.calls[c].Working? && db.calls[c].stage == Failing
    modifies db
    ensures db.Valid() && old(db.trace) <= db.trace && c !in db.calls
    ensures TriesOf(db.trace, c) == TriesOf(old(db.trace), c)
    ensures IsGivenBack(db.Present(), old(db.calls)[c].id, old(db.calls)[c].kind)
  {
    hide Run, TriesOf, Platform.Valid;
    var status := db.Revert(c);
  }

  class ExecutionAdapter {
    const db: Platform

    constructor (db: Platform)
      ensures this.db == db
    {
      this.db := db;
    }

    /** Reserves the next nonce of the row's wallet and commits it to the row. */
    method LockNonce(c: CallId) returns (nonce: Option<nat>)
      requires db.Valid() && c in db.calls && db.calls[c].Reserving?
      modifies db
      ensures db.Valid() && old(db.trace) <= db.trace && TriesOf(db.trace, c) == TriesOf(old(db.trace), c)
      ensures nonce.None? ==> c !in db.calls
      ensures nonce.Some? ==>
                var id := old(db.calls)[c].id;
                c in db.calls && db.calls[c] == Minting(id) && id in db.rows && db.rows[id].nonce == nonce
    {
      hide Run, TriesOf, Inv, Payloads, RowsMove, Platform.Valid;
      db.Others(Caller(c));
      db.PresentIsSound();
      CallFacts(db.Present(), c);
      var base: nat := *;
      var n := db.Reserve(c, base);
      db.Others(Caller(c));
      // A row that stays locked keeps the UPDATE waiting until the request times out.
      var timedOut: bool := *;
      if timedOut || db.calls[c].id in db.locks {
        db.Die(c);
        return None;
      }
      db.PresentIsSound();
      CallFacts(db.Present(), c);
      db.StoreNonce(c);
      return Some(n);
    }

    /** Lock a nonce and mint the token. Its callers serialize it per row. */
    method Prepare(c: CallId, id: TxId) returns (r: PrepareOutcome)
      requires db.Valid() && c !in db.calls && !PrepareInFlight(db.Present(), id)
      modifies db
      ensures db.Valid() && old(db.trace) <= db.trace && c !in db.calls
      ensures TriesOf(db.trace, c) == TriesOf(old(db.trace), c)
      ensures r == NotApproved <==> !(id in old(db.rows) && old(db.rows)[id].status == Approved)
      ensures r.Prepared? ==>
                && id in db.rows && db.rows[id].nonce == Some(r.nonce)
                && id in db.tokens && db.tokens[id] == r.token
      ensures r.Prepared? && old(db.rows)[id].nonce.Some? ==> old(db.rows)[id].nonce == Some(r.nonce)
    {
      hide Run, TriesOf, Inv, Payloads, RowsMove, PrepareInFlight, Platform.Valid;
      var row := db.BeginPrepare(c, id);
      if row.None? {
        return NotApproved;
      }
      var nonce := row.value.nonce;
      if nonce.None? {
        nonce := LockNonce(c);
        if nonce.None? {
          return PrepareFailed;
        }
      }
      ghost var prepared := db.rows;
      db.Others(Caller(c));
      NonceStays(prepared, db.rows, id);
      var died: bool := *;
      if died {
        db.Die(c);
        return PrepareFailed;
      }
      db.PresentIsSound();
      CallFacts(db.Present(), c);
      var token := db.Issue(c);
      return Prepared(token, nonce.value);
    }
  
    /** The send loop of _broadcast and the commit or revert that ends the claim. */
    method SendUntilAccepted(c: CallId, now: int) returns (r: SubmitOutcome)
      requires db.Valid() && c in db.calls && db.calls[c].Working? && db.calls[c].kind == Kind.Submit
      requires db.calls[c].stage == Sending(0) && db.calls[c].payload.Some? && db.cfg.maxBroadcastAttempts > 0
      modifies db
      ensures db.Valid() && old(db.trace) <= db.trace && c !in db.calls
      ensures 0 < TriesOf(db.trace, c) - TriesOf(old(db.trace), c) <= db.cfg.maxBroadcastAttempts
      ensures r.Done? || r == Undelivered || r == Died
      ensures var call := old(db.calls)[c];
              && (r.Done? ==> IsOut(db.Present(), call.id, r.hash, now, call.payload.value))
              && (r.Done? ==> Sent(call.id, call.token, Kind.Submit, call.payload.value) in db.sent)
              && (r == Undelivered ==> IsGivenBack(db.Present(), call.id, Kind.Submit))
              && (r == Undelivered ==> TriesOf(db.trace, c) == TriesOf(old(db.trace), c) + db.cfg.maxBroadcastAttempts)
    {
      hide Run, TriesOf, Inv, Payloads, RowsMove, IsOut, Platform.Valid;
      var call := db.calls[c];
      var tries := 0;
      while tries < db.cfg.maxBroadcastAttempts
        invariant tries <= db.cfg.maxBroadcastAttempts
        invariant db.Valid() && old(db.trace) <= db.trace
        invariant TriesOf(db.trace, c) == TriesOf(old(db.trace), c) + tries
        invariant c in db.calls
        invariant db.calls[c] == call.(stage := if tries < db.cfg.maxBroadcastAttempts then Sending(tries) else Failing)
      {
        var answer := db.HandOver(c);
        ghost var sent := db.sent;
        db.Others(Caller(c));
        var died: bool := *;
        if died {
          db.Die(c);
          return Died;
        }
        if answer.Some? {
          db.Commit(c, now);
          InPrefix(sent, db.sent, Sent(call.id, call.token, Kind.Submit, call.payload.value));
          db.PresentIsSound();
          CommittedPayloadIsOut(db.Present(), call.id, call.token, Kind.Submit, call.payload.value, answer.value, now);
          return Done(answer.value);
        }
        tries := tries + 1;
      }
      var status := db.Revert(c);
      return Undelivered;
    }

    /** _broadcast: decode, validate, look up a provider, send. */
    method Broadcast(c: CallId, nonce: nat, configured: bool, now: int) returns (r: SubmitOutcome)
      requires db.Valid() && c in db.calls && db.calls[c].Working? && db.calls[c].kind == Kind.Submit
      requires db.calls[c].id in db.rows
      requires var call := db.calls[c];
               call.stage == AfterClaim(db.cfg, db.rows[call.id], Kind.Submit, call.payload, nonce, configured)
      modifies db
      ensures db.Valid() && old(db.trace) <= db.trace && c !in db.calls
      ensures TriesOf(db.trace, c) - TriesOf(old(db.trace), c) <= db.cfg.maxBroadcastAttempts
      ensures r in {Refused, Unconfigured} ==> TriesOf(db.trace, c) == TriesOf(old(db.trace), c)
      ensures r.Done? || r in {Refused, Unconfigured, Undelivered, Died}
      ensures var call := old(db.calls)[c];
              var valid := call.payload.Some? && ValidateSigned(old(db.rows)[call.id], call.payload.value, nonce).None?;
              && (r == Refused ==> !valid) && (r == Unconfigured ==> valid && !configured)
              && (r == Undelivered || r.Done? ==> valid && configured)
      ensures var call := old(db.calls)[c];
              && (r.Done? ==> call.payload.Some? && IsOut(db.Present(), call.id, r.hash, now, call.payload.value))
              && (r.Done? ==> Sent(call.id, call.token, Kind.Submit, call.payload.value) in db.sent)
              && (r in {Refused, Unconfigured, Undelivered} ==> IsGivenBack(db.Present(), call.id, Kind.Submit))
    {
      hide Run, TriesOf, Inv, Payloads, RowsMove, IsOut, IsGivenBack, Platform.Valid;
      var call := db.calls[c];
      if call.payload.None? || ValidateSigned(db.rows[call.id], call.payload.value, nonce).Some? {
        GiveBack(db, c);
        return Refused;
      }
      if !configured {
        GiveBack(db, c);
        return Unconfigured;
      }
      if db.cfg.maxBroadcastAttempts == 0 {
        GiveBack(db, c);
        return Undelivered;
      }
      r := SendUntilAccepted(c, now);
    }

    /** Consume the token and read the row. */
    method Admit(c: CallId, id: TxId, token: Token, payload: Option<Payload>)
      returns (r: Option<SubmitOutcome>, nonce: nat, ghost seen: State)
      requires db.Valid() && c !in db.calls
      modifies db
      ensures db.Valid() && old(db.trace) <= db.trace && TriesOf(db.trace, c) == TriesOf(old(db.trace), c)
      ensures r == Some(TokenRefused) <==> !(id in old(db.tokens) && old(db.tokens)[id] == token)
      ensures r == Some(TokenRefused) ==> db.trace == old(db.trace)
      ensures r.Some? ==> c !in db.calls && r.value in {TokenRefused, NotExecutable, NoNonce}
      ensures r.Some? && r.value != TokenRefused ==>
                WasPresent(db.cfg, old(db.trace), db.trace, seen) && SubmitDecides(r.value, seen, id, payload, true)
      ensures r.None? ==> c in db.calls && db.calls[c] == Working(id, token, Kind.Submit, payload, Cleared(nonce))
    {
      hide Run, TriesOf, Inv, Payloads, RowsMove, WasPresent, Platform.Valid;
      nonce, seen := 0, EMPTY;
      var ok := db.Consume(c, id, token, Kind.Submit, payload);
      if !ok {
        return Some(TokenRefused), nonce, seen;
      }
      db.Others(Caller(c));
      seen := db.Present();
      db.PresentIsRun();
      ghost var now := db.trace;
      var row := db.Read(c);
      IsPresent(db.cfg, old(db.trace), now, db.trace);
      if row.None? || row.value.status != Approved {
        return Some(NotExecutable), nonce, seen;
      }
      if row.value.nonce.None? {
        return Some(NoNonce), nonce, seen;
      }
      return None, row.value.nonce.value, seen;
    }

    /** Exactly one call wins the token and the conditional transition; it validates and broadcasts. */
    method Submit(c: CallId, id: TxId, token: Token, payload: Option<Payload>, configured: bool, now: int)
      returns (r: SubmitOutcome, ghost seen: State)
      requires db.Valid() && c !in db.calls
      modifies db
      ensures db.Valid() && old(db.trace) <= db.trace && c !in db.calls
      ensures TriesOf(db.trace, c) - TriesOf(old(db.trace), c) <= db.cfg.maxBroadcastAttempts
      ensures !r.Done? && r !in {Undelivered, Died} ==> TriesOf(db.trace, c) == TriesOf(old(db.trace), c)
      ensures r == TokenRefused <==> !(id in old(db.tokens) && old(db.tokens)[id] == token)
      ensures r == TokenRefused ==> db.trace == old(db.trace)
      ensures r !in {TokenRefused, Died} ==> WasPresent(db.cfg, old(db.trace), db.trace, seen)
      ensures SubmitDecides(r, seen, id, payload, configured)
      ensures r.Done? ==> payload.Some? && IsOut(db.Present(), id, r.hash, now, payload.value)
      ensures r.Done? ==> Sent(id, token, Kind.Submit, payload.value) in db.sent
      ensures r.Done? || r == Undelivered ==>
                && InStatus(seen, id, Approved) && payload.Some? && seen.rows[id].nonce == Some(payload.value.nonce)
                && match seen.rows[id].chain
                   case Ethereum => payload.value.chainId == 1
                   case Base => payload.value.chainId == 8453
                   case Arbitrum => payload.value.chainId == 42161
                   case Unsupported(_) => false
      ensures r in {Refused, Unconfigured, Undelivered} ==> IsGivenBack(db.Present(), id, Kind.Submit)
    {
      hide Run, TriesOf, Inv, Payloads, RowsMove, IsOut, IsGivenBack, AfterClaim, WasPresent, ValidateSigned,
        Platform.Valid;
      var refusal, nonce;
      refusal, nonce, seen := Admit(c, id, token, payload);
      if refusal.Some? {
        return refusal.value, seen;
      }
      ghost var admitted := db.trace;
      r, seen := ClaimAndBroadcast(c, nonce, configured, now);
      if r != Died {
        EarlierWasPresent(db.cfg, old(db.trace), admitted, db.trace, seen);
      }
      if r.Done? || r == Undelivered {
        AcceptableNonce(seen.rows[id], payload);
        SignedIsAccepted(seen.rows[id], payload.value, payload.value.nonce);
      }
    }

    /** The conditional transition, and what the call that wins it does under the row's lock. */
    method ClaimAndBroadcast(c: CallId, nonce: nat, configured: bool, now: int)
        returns (r: SubmitOutcome, ghost seen: State)
      requires db.Valid() && c in db.calls && db.calls[c].Working? && db.calls[c].kind == Kind.Submit
      requires db.calls[c].stage == Cleared(nonce)
      modifies db
      ensures db.Valid() && old(db.trace) <= db.trace && c !in db.calls
      ensures TriesOf(db.trace, c) - TriesOf(old(db.trace), c) <= db.cfg.maxBroadcastAttempts
      ensures !r.Done? && r !in {Undelivered, Died} ==> TriesOf(db.trace, c) == TriesOf(old(db.trace), c)
      ensures r != Died ==> WasPresent(db.cfg, old(db.trace), db.trace, seen)
      ensures r !in {TokenRefused, NotExecutable, NoNonce}
      ensures var call := old(db.calls)[c];
              && SubmitDecides(r, seen, call.id, call.payload, configured)
              && (r.Done? ==> call.payload.Some? && IsOut(db.Present(), call.id, r.hash, now, call.payload.value))
              && (r.Done? ==> Sent(call.id, call.token, Kind.Submit, call.payload.value) in db.sent)
              && (r in {Refused, Unconfigured, Undelivered} ==> IsGivenBack(db.Present(), call.id, Kind.Submit))
    {
      hide Run, TriesOf, Inv, Payloads, RowsMove, IsOut, IsGivenBack, AfterClaim, WasPresent, ValidateSigned,
        Platform.Valid, Sound;
      seen := EMPTY;
      var id := db.calls[c].id;
      db.Others(Caller(c));
      var died: bool := *;
      if died || id in db.locks {
        db.Die(c);
        return Died, seen;
      }
      db.PresentIsSound();
      ClearedFits(db.Present(), c);
      seen := db.Present();
      db.PresentIsRun();
      ghost var claiming := db.trace;
      var won := db.Claim(c, configured);
      if won {
        r := Broadcast(c, nonce, configured, now);
      } else {
        r := ClaimLost;
      }
      IsPresent(db.cfg, old(db.trace), claiming, db.trace);
    }

    /**
      Revoke the token, then cancel the row if it is still approved. The UPDATE waits for the
      row's lock; a request that gives up waiting has cancelled nothing.
     */
    method Cancel(id: TxId) returns (done: Option<bool>, ghost seen: State)
      requires db.Valid()
      modifies db
      ensures db.Valid() && old(db.trace) <= db.trace
      ensures WasPresent(db.cfg, old(db.trace), db.trace, seen)
      ensures done.None? ==> db.rows == seen.rows
      ensures done.Some? ==> id !in seen.locks && (done.value <==> InStatus(seen, id, Approved))
      ensures done.Some? ==>
        db.rows == if done.value then seen.rows[id := seen.rows[id].(status := Cancelled)] else seen.rows
    {
      hide Run, Inv, Payloads, RowsMove, WasPresent, Platform.Valid;
      db.Revoke(id);
      db.Others(Nobody);
      seen := db.Present();
      db.PresentIsRun();
      ghost var now := db.trace;
      var givesUp: bool := *;
      if givesUp || id in db.locks {
        done := None;
      } else {
        var cancelled := db.CancelRow(id);
        done := Some(cancelled);
      }
      IsPresent(db.cfg, old(db.trace), now, db.trace);
    }
  }

  lemma ReplacementStage(cfg: Config, row: Row, kind: Kind, payload: Option<Payload>)
    requires kind != Submit
    ensures AfterCheck(cfg, row, kind, payload) ==
            if row.status == Stuck && payload.Some?
               && ValidateReplacement(row, payload.value, kind, BumpFor(cfg, kind)).None? then Rescreening else Failing
  {
  }

  lemma ReplacementClaimStage(cfg: Config, row: Row, kind: Kind, payload: Option<Payload>, nonce: nat, configured: bool)
    requires kind != Submit && payload.Some?
    ensures AfterClaim(cfg, row, kind, payload, nonce, configured) == if configured then Sending(0) else Failing
  {
  }

  class StuckTxHandler {
    const db: Platform

    constructor (db: Platform)
      ensures this.db == db
    {
      this.db := db;
    }

    /** The one send of a claimed replacement. */
    method SendOnce(c: CallId, now: int) returns (r: SubmitOutcome)
      requires db.Valid() && c in db.calls && db.calls[c].Working? && db.calls[c].kind != Submit
      requires db.calls[c].stage == Sending(0) && db.calls[c].payload.Some?
      modifies db
      ensures db.Valid() && old(db.trace) <= db.trace && c !in db.calls
      ensures TriesOf(db.trace, c) == TriesOf(old(db.trace), c) + 1
      ensures r.Done? || r == Undelivered || r == Died
      ensures var call := old(db.calls)[c];
              && (r.Done? ==> IsOut(db.Present(), call.id, r.hash, now, call.payload.value))
              && (r.Done? ==> Sent(call.id, call.token, call.kind, call.payload.value) in db.sent)
              && (r == Undelivered ==> IsGivenBack(db.Present(), call.id, call.kind))
    {
      hide Run, TriesOf, Inv, Payloads, RowsMove, IsOut, IsGivenBack, Platform.Valid;
      var call := db.calls[c];
      var answer := db.HandOver(c);
      ghost var sent := db.sent;
      db.Others(Caller(c));
      var died: bool := *;
      if died {
        db.Die(c);
        return Died;
      }
      if answer.None? {
        GiveBack(db, c);
        return Undelivered;
      }
      db.Commit(c, now);
      InPrefix(sent, db.sent, Sent(call.id, call.token, call.kind, call.payload.value));
      db.PresentIsSound();
      CommittedPayloadIsOut(db.Present(), call.id, call.token, call.kind, call.payload.value, answer.value, now);
      return Done(answer.value);
    }

    /** Consume the token and check the replacement against the row. */
    method Check(c: CallId, id: TxId, token: Token, payload: Option<Payload>, mode: Kind)
      returns (r: Option<SubmitOutcome>, ghost seen: State)
      requires db.Valid() && c !in db.calls && mode != Submit
      modifies db
      ensures db.Valid() && old(db.trace) <= db.trace && TriesOf(db.trace, c) == TriesOf(old(db.trace), c)
      ensures r == Some(TokenRefused) <==> !(id in old(db.tokens) && old(db.tokens)[id] == token)
      ensures r == Some(TokenRefused) ==> db.trace == old(db.trace)
      ensures r.Some? ==> c !in db.calls && r.value in {TokenRefused, NotExecutable, Refused}
      ensures r != Some(TokenRefused) ==> WasPresent(db.cfg, old(db.trace), db.trace, seen)
      ensures ReplaceDecides(db.cfg, if r.Some? then r.value else NotRescreened, seen, id, payload, mode, true)
      ensures r.None? ==>
        payload.Some? && c in db.calls && db.calls[c] == Working(id, token, mode, payload, Rescreening)
    {
      hide Run, TriesOf, Inv, Payloads, RowsMove, ValidateReplacement, AfterCheck, WasPresent, Platform.Valid;
      seen := EMPTY;
      var ok := db.Consume(c, id, token, mode, payload);
      if !ok {
        return Some(TokenRefused), seen;
      }
      db.Others(Caller(c));
      seen := db.Present();
      db.PresentIsRun();
      ghost var now := db.trace;
      var row := db.Read(c);
      IsPresent(db.cfg, old(db.trace), now, db.trace);
      if row.Some? {
        ReplacementStage(db.cfg, row.value, mode, payload);
      }
      if payload.None? {
        return Some(Refused), seen;
      }
      if row.None? || row.value.status != Stuck {
        return Some(NotExecutable), seen;
      }
      if ValidateReplacement(row.value, payload.value, mode, BumpFor(db.cfg, mode)).Some? {
        return Some(Refused), seen;
      }
      return None, seen;
    }

    /** The conditional transition from `stuck`, and the one send of the call that wins it. */
    method ClaimAndSend(c: CallId, configured: bool, now: int) returns (r: SubmitOutcome, ghost seen: State)
      requires db.Valid() && c in db.calls && db.calls[c].Working? && db.calls[c].kind != Submit
      requires db.calls[c].stage.Cleared? && db.calls[c].payload.Some?
      modifies db
      ensures db.Valid() && old(db.trace) <= db.trace && c !in db.calls
      ensures TriesOf(db.trace, c) - TriesOf(old(db.trace), c) <= 1
      ensures !r.Done? && r !in {Undelivered, Died} ==> TriesOf(db.trace, c) == TriesOf(old(db.trace), c)
      ensures r != Died ==> WasPresent(db.cfg, old(db.trace), db.trace, seen)
      ensures r !in {TokenRefused, NotExecutable, Refused, NotRescreened}
      ensures var call := old(db.calls)[c];
              && ReplaceDecides(db.cfg, r, seen, call.id, call.payload, call.kind, configured)
              && (r.Done? ==> IsOut(db.Present(), call.id, r.hash, now, call.payload.value))
              && (r.Done? ==> Sent(call.id, call.token, call.kind, call.payload.value) in db.sent)
              && (r in {Unconfigured, Undelivered} ==> IsGivenBack(db.Present(), call.id, call.kind))
    {
      hide Run, TriesOf, Inv, Payloads, RowsMove, IsOut, IsGivenBack, WasPresent, Allowed, AfterClaim, Platform.Valid,
        Sound;
      seen := EMPTY;
      var id := db.calls[c].id;
      db.Others(Caller(c));
      var died: bool := *;
      if died || id in db.locks {
        db.Die(c);
        return Died, seen;
      }
      db.PresentIsSound();
      ClearedFits(db.Present(), c);
      seen := db.Present();
      db.PresentIsRun();
      ghost var claiming := db.trace;
      if id in db.rows {
        ghost var call := db.calls[c];
        ReplacementClaimStage(db.cfg, db.rows[id], call.kind, call.payload, call.stage.nonce, configured);
      }
      var won := db.Claim(c, configured);
      if !won {
        r := ClaimLost;
      } else if !configured {
        GiveBack(db, c);
        r := Unconfigured;
      } else {
        r := SendOnce(c, now);
      }
      IsPresent(db.cfg, old(db.trace), claiming, db.trace);
    }

    /** A replacement of a stuck payload: same nonce, same intent or nothing, a decision of its own. */
    method Replace(c: CallId, id: TxId, token: Token, payload: Option<Payload>, mode: Kind, configured: bool, now: int)
      returns (r: SubmitOutcome, ghost seen: State)
      requires db.Valid() && c !in db.calls && mode != Submit
      modifies db
      ensures db.Valid() && old(db.trace) <= db.trace && c !in db.calls
      ensures TriesOf(db.trace, c) - TriesOf(old(db.trace), c) <= 1
      ensures !r.Done? && r !in {Undelivered, Died} ==> TriesOf(db.trace, c) == TriesOf(old(db.trace), c)
      ensures r == TokenRefused <==> !(id in old(db.tokens) && old(db.tokens)[id] == token)
      ensures r == TokenRefused ==> db.trace == old(db.trace)
      ensures r !in {TokenRefused, Died} ==> WasPresent(db.cfg, old(db.trace), db.trace, seen)
      ensures ReplaceDecides(db.cfg, r, seen, id, payload, mode, configured)
      ensures r.Done? ==> payload.Some? && IsOut(db.Present(), id, r.hash, now, payload.value)
      ensures r.Done? ==> Sent(id, token, mode, payload.value) in db.sent
      ensures r in {Unconfigured, Undelivered} ==> IsGivenBack(db.Present(), id, mode)
    {
      hide Run, TriesOf, Inv, Payloads, RowsMove, IsOut, IsGivenBack, WasPresent, Allowed, Replaceable, Platform.Valid;
      var refusal;
      refusal, seen := Check(c, id, token, payload, mode);
      if refusal.Some? {
        return refusal.value, seen;
      }
      ghost var checked := db.trace;
      db.Others(Caller(c));
      var approved := db.Rescreen(c);
      StillWasPresent(db.cfg, old(db.trace), checked, db.trace, seen);
      if !approved {
        return NotRescreened, seen;
      }
      ghost var rescreened := db.trace;
      r, seen := ClaimAndSend(c, configured, now);
      if r != Died {
        EarlierWasPresent(db.cfg, old(db.trace), rescreened, db.trace, seen);
      }
    }
  }
}
