/**
  What the services of the broadcast protocol share: Postgres, Redis, the network, and the
  calls in flight. Each atomic section writes the tables the way the source does and is
  logged as one step of the protocol, so the tables are always the outcome of a run.
 */
module ExecutionPlatform {
  import opened Wrappers
  import opened SignedTx
  import opened Execution
  import opened ExecutionInvariant
  import opened ExecutionNonces
  import opened ExecutionRows
  import opened ExecutionResults
  import opened ExecutionFrames

  /** Number of times call c handed a payload to the network. */
  function TriesOf(es: seq<Event>, c: CallId): nat {
    if es == [] then 0
    else TriesOf(es[..|es| - 1], c) + match es[|es| - 1] case SendTried(d, _) => (if d == c then 1 else 0) case _ => 0
  }

  predicate SameTables(s: State, s': State) {
    && s'.rows == s.rows && s'.approvals == s.approvals && s'.tokens == s.tokens
    && s'.counters == s.counters && s'.locks == s.locks && s'.sent == s.sent
  }

  lemma RunOneMore(cfg: Config, es: seq<Event>, e: Event)
    ensures Run(cfg, EMPTY, es + [e]) == Next(cfg, Run(cfg, EMPTY, es), e)
  {
    hide Next;
    RunSplits(cfg, EMPTY, es + [e], |es|);
    assert (es + [e])[..|es|] == es && (es + [e])[|es|..] == [e];
    assert [e][1..] == [];
    var s := Run(cfg, EMPTY, es);
    assert Run(cfg, s, [e]) == Run(cfg, Next(cfg, s, e), []);
  }

  lemma StepKeepsSent(cfg: Config, s: State, e: Event)
    requires Inv(s)
    ensures s.sent <= Next(cfg, s, e).sent
  {
    hide Inv, Next;
    StepSendsForClaimedRow(cfg, s, e);
  }

  lemma LogTry(es: seq<Event>, e: Event)
    ensures forall c :: TriesOf(es + [e], c) == TriesOf(es, c) + if e.SendTried? && e.c == c then 1 else 0
  {
  }

  lemma ClaimFacts(s: State, c: CallId)
    requires Inv(s) && c in s.calls && InSendingPhase(s.calls[c])
    ensures Holds(s, c) && s.calls[c].id in s.rows && s.calls[c].id in s.charged
    ensures s.rows[s.calls[c].id].status == ClaimableStatus(s.calls[c].kind)
  {
    hide Inv;
    HoldersAreSending(s, c);
    SenderFacts(s, c);
    ChargeFacts(s, s.calls[c].id);
  }

  lemma CheckedTables(cfg: Config, s: State, c: CallId)
    requires c in s.calls && s.calls[c].Working? && s.calls[c].stage == Consumed
    ensures var call := s.calls[c];
            var s' := CheckStep(cfg, s, c);
            && SameTables(s, s')
            && s'.calls ==
               if call.id in s.rows && AfterCheck(cfg, s.rows[call.id], call.kind, call.payload) != Failing
               then s.calls[c := call.(stage := AfterCheck(cfg, s.rows[call.id], call.kind, call.payload))]
               else s.calls - {c}
  {
    hide AfterCheck;
  }

  lemma RescreenedTables(s: State, c: CallId, approved: bool)
    requires c in s.calls && s.calls[c].Working? && s.calls[c].stage == Rescreening && s.calls[c].payload.Some?
    ensures var s' := RescreenStep(s, c, approved);
            && SameTables(s, s')
            && s'.calls == if approved then s.calls[c := s.calls[c].(stage := Cleared(s.calls[c].payload.value.nonce))]
                           else s.calls - {c}
  {
  }

  lemma ClaimedTables(cfg: Config, s: State, c: CallId, configured: bool)
    requires c in s.calls && s.calls[c].Working? && s.calls[c].stage.Cleared? && s.calls[c].id !in s.locks
    ensures var call := s.calls[c];
            var won := call.id in s.rows && s.rows[call.id].status == ClaimableStatus(call.kind);
            var s' := ClaimStep(cfg, s, c, configured);
            && SameTables(if won then WithLock(s, call.id, c) else s, s')
            && s'.calls == if won then s.calls[c := call.(stage :=
                 AfterClaim(cfg, s.rows[call.id], call.kind, call.payload, call.stage.nonce, configured))]
               else s.calls - {c}
  {
  }

  lemma EndedTables(s: State, c: CallId, row: Row)
    requires c in s.calls && s.calls[c].Working? && s.calls[c].id in s.charged
    ensures var id := s.calls[c].id;
            var s' := EndClaim(s, c, row);
            && s'.rows == s.rows[id := row.(attempts := row.attempts + 1)]
            && s'.approvals == s.approvals && s'.tokens == s.tokens && s'.counters == s.counters
            && s'.locks == s.locks - {id} && s'.sent == s.sent && s'.calls == s.calls - {c}
  {
  }

  function RevertedStatus(kind: Kind, backToStuck: bool): (status: Status)
    ensures if kind == Submit then status == Approved else status in {Stuck, Broadcasting}
  {
    if kind == Submit then Approved else if backToStuck then Stuck else Broadcasting
  }

  lemma RevertedTables(s: State, c: CallId, backToStuck: bool)
    requires Holds(s, c) && s.calls[c].stage == Failing && s.calls[c].id in s.rows && s.calls[c].id in s.charged
    ensures RevertStep(s, c, backToStuck) ==
            EndClaim(s, c, s.rows[s.calls[c].id].(status := RevertedStatus(s.calls[c].kind, backToStuck)))
  {
  }

  function PrepareAt(id: TxId, row: Row): Call { if row.nonce.None? then Reserving(id) else Minting(id) }

  lemma BegunTables(cfg: Config, s: State, c: CallId, id: TxId)
    requires c !in s.calls && id in s.rows && s.rows[id].status == Approved && !PrepareInFlight(s, id)
    ensures PrepareStep(cfg, s, c, id) == WithCalls(s, s.calls[c := PrepareAt(id, s.rows[id])])
  {
  }

  /** Serialized, a prepare waits for another one of its own row and for no other call. */
  lemma PrepareWaitsForItsRow(cfg: Config, s: State, c: CallId, id: TxId)
    requires c !in s.calls && id in s.rows && s.rows[id].status == Approved && cfg.serializedPrepare
    ensures c in PrepareStep(cfg, s, c, id).calls <==> forall d <- s.calls :: s.calls[d].Working? || s.calls[d].id != id
  {
  }

  lemma ReservedTables(s: State, c: CallId, base: nat)
    requires c in s.calls && s.calls[c].Reserving? && s.calls[c].id in s.rows
    ensures var wallet := s.rows[s.calls[c].id].wallet;
            var nonce := if wallet in s.counters then s.counters[wallet] else base;
            var s' := ReserveStep(s, c, base);
            && s'.rows == s.rows && s'.approvals == s.approvals && s'.tokens == s.tokens
            && s'.counters == s.counters[wallet := nonce + 1] && s'.locks == s.locks && s'.sent == s.sent
            && s'.calls == s.calls[c := Storing(s.calls[c].id, nonce)]
  {
  }

  lemma NobodyKeepsWatched(rows: Rows)
    ensures KeepsWatched(rows, rows)
  {
  }

  class Platform {
    const cfg: Config

    // Postgres
    var rows: Rows
    var approvals: map<TxId, Approval>
    var locks: map<TxId, CallId>
    // Redis
    var tokens: map<TxId, Token>
    var counters: map<string, nat>
    // the network's log
    var sent: seq<Sent>
    // calls in flight, and the history of tokens and nonces
    var calls: Calls
    var minted: nat
    var issued: TokenSets
    var spent: set<Token>
    var charged: TokenSets
    var reservedFor: map<(string, nat), TxId>

    ghost var trace: seq<Event>

    function Present(): State
      reads this
    {
      State(rows, approvals, tokens, counters, locks, calls, sent, minted, issued, spent, charged, reservedFor)
    }

    ghost predicate Valid()
      reads this
    {
      cfg.serializedPrepare && Present() == Run(cfg, EMPTY, trace)
    }

    constructor (cfg: Config)
      requires cfg.serializedPrepare
      ensures Valid() && Present() == EMPTY && this.cfg == cfg
    {
      this.cfg := cfg;
      rows, approvals, locks, tokens, counters, sent := map[], map[], map[], map[], map[], [];
      calls, minted, issued, spent, charged, reservedFor := map[], 0, map[], {}, map[], map[];
      trace := [];
    }

    lemma PresentIsRun()
      requires Valid()
      ensures cfg.serializedPrepare && Present() == Run(cfg, EMPTY, trace)
    {
    }

    lemma PresentIsSound()
      requires Valid()
      ensures Sound(Present()) && Payloads(Present())
    {
      hide Inv, Payloads, Run;
      ReachedIsSound(cfg, trace);
      ReachedPayloads(cfg, trace);
    }

    /** The tables have just been written; e is the step that this was. */
    method Log(e: Event, before: State)
      requires cfg.serializedPrepare && before == Run(cfg, EMPTY, trace)
      requires SameTables(Present(), Next(cfg, before, e))
      modifies this`calls, this`minted, this`issued, this`spent, this`charged, this`reservedFor, this`trace
      ensures Valid() && Present() == Next(cfg, before, e) && trace == old(trace) + [e]
      ensures forall c :: TriesOf(trace, c) == TriesOf(old(trace), c) + if e.SendTried? && e.c == c then 1 else 0
    {
      hide Next, Run, TriesOf, SameTables;
      RunOneMore(cfg, trace, e);
      LogTry(trace, e);
      Adopt(Next(cfg, before, e));
      trace := trace + [e];
    }

    /** The calls and the history follow the tables. */
    method Adopt(after: State)
      requires SameTables(Present(), after)
      modifies this`calls, this`minted, this`issued, this`spent, this`charged, this`reservedFor
      ensures Present() == after
    {
      calls, minted, issued, spent, charged, reservedFor :=
        after.calls, after.minted, after.issued, after.spent, after.charged, after.reservedFor;
    }

    /** Everybody but `me` takes any number of steps. */
    method Others(me: Actor)
      requires Valid()
      modifies this
      ensures Valid() && old(trace) <= trace && old(sent) <= sent && RowsMove(old(rows), rows)
      ensures me.Caller? ==> SameCall(old(calls), calls, me.c) && TriesOf(trace, me.c) == TriesOf(old(trace), me.c)
      ensures me == Worker ==> KeepsWatched(old(rows), rows)
    {
      hide Next, Run, Sound, TriesOf, KeepsWatched, RowsMove;
      RowsStayPut(rows);
      NobodyKeepsWatched(rows);
      var n: nat := *;
      while n > 0
        invariant Valid() && old(trace) <= trace && old(sent) <= sent && RowsMove(old(rows), rows)
        invariant me.Caller? ==> SameCall(old(calls), calls, me.c) && TriesOf(trace, me.c) == TriesOf(old(trace), me.c)
        invariant me == Worker ==> KeepsWatched(old(rows), rows)
      {
        var e: Event := *;
        if ActorOf(e) != me {
          ghost var rows0 := rows;
          Happen(e, me);
          RowsMoveTwice(old(rows), rows0, rows);
          if me == Worker {
            KeepsWatchedTwice(old(rows), rows0, rows);
          }
        }
        n := n - 1;
      }
    }

    method Happen(e: Event, me: Actor)
      requires Valid() && ActorOf(e) != me
      modifies this
      ensures Valid() && trace == old(trace) + [e] && old(sent) <= sent && RowsMove(old(rows), rows)
      ensures me.Caller? ==> SameCall(old(calls), calls, me.c) && TriesOf(trace, me.c) == TriesOf(old(trace), me.c)
      ensures me == Worker ==> KeepsWatched(old(rows), rows)
    {
      hide Next, Run, Inv, Payloads, SameCall, TriesOf, RowsMove, Platform.Valid;
      var before := Present();
      PresentIsRun();
      PresentIsSound();
      var after := Next(cfg, before, e);
      StepKeepsSent(cfg, before, e);
      StepMovesRows(cfg, before, e);
      if me.Caller? {
        OthersKeepCall(cfg, before, e, me.c);
      } else if me == Worker {
        forall id <- rows | Watched(rows[id])
          ensures KeepsRow(rows, after.rows, id)
        {
          OthersKeepWatchedRow(cfg, before, e, id);
        }
      }
      rows, approvals, tokens, counters, locks, sent :=
        after.rows, after.approvals, after.tokens, after.counters, after.locks, after.sent;
      Log(e, before);
    }
  
    // ------------------------------------------------------------ Redis scripts

    /** Compare and delete: true only for the caller that presents the token on offer. */
    method Consume(c: CallId, id: TxId, token: Token, kind: Kind, payload: Option<Payload>) returns (ok: bool)
      requires Valid() && c !in calls
      modifies this
      ensures Valid() && trace == old(trace) + (if ok then [TokenConsumed(c, id, token, kind, payload)] else [])
        && sent == old(sent) && TriesOf(trace, c) == TriesOf(old(trace), c)
      ensures ok <==> id in old(tokens) && old(tokens)[id] == token
      ensures if ok then c in calls && calls[c] == Working(id, token, kind, payload, Consumed) else c !in calls
    {
      hide Run, TriesOf;
      ok := id in tokens && tokens[id] == token;
      if ok {
        var before := Present();
        tokens := tokens - {id};
        Log(TokenConsumed(c, id, token, kind, payload), before);
      }
    }

    /** Seed the counter from the chain or take its value, and move it on. */
    method Reserve(c: CallId, base: nat) returns (nonce: nat)
      requires Valid() && c in calls && calls[c].Reserving? && calls[c].id in rows
      modifies this
      ensures Valid() && trace == old(trace) + [NonceReserved(c, base)] && TriesOf(trace, c) == TriesOf(old(trace), c)
      ensures var wallet := old(rows[calls[c].id].wallet);
              && nonce == (if wallet in old(counters) then old(counters)[wallet] else base)
              && counters == old(counters)[wallet := nonce + 1]
      ensures calls == old(calls)[c := Storing(old(calls)[c].id, nonce)] && rows == old(rows)
    {
      hide Run, TriesOf, ReserveStep;
      var before := Present();
      ReservedTables(before, c, base);
      var wallet := rows[calls[c].id].wallet;
      if wallet !in counters {
        counters := counters[wallet := base];
      }
      nonce := counters[wallet];
      counters := counters[wallet := nonce + 1];
      assert counters == before.counters[wallet := nonce + 1];
      Log(NonceReserved(c, base), before);
    }

    /** SET: a later token replaces an earlier one. */
    method Issue(c: CallId) returns (token: Token)
      requires Valid() && c in calls && calls[c].Minting? && calls[c].id in issued
      modifies this
      ensures Valid() && trace == old(trace) + [TokenMinted(c)] && TriesOf(trace, c) == TriesOf(old(trace), c)
      ensures c !in calls && old(calls)[c].id in tokens && tokens[old(calls)[c].id] == token && rows == old(rows)
    {
      hide Run, TriesOf;
      var before := Present();
      token := minted;
      tokens := tokens[calls[c].id := token];
      Log(TokenMinted(c), before);
    }
  
    // -------------------------------------------------------- database sections

    /** session.get by a call that has spent its token; a refused call ends here. */
    method Read(c: CallId) returns (row: Option<Row>)
      requires Valid() && c in calls && calls[c].Working? && calls[c].stage == Consumed
      modifies this
      ensures Valid() && trace == old(trace) + [RowChecked(c)] && TriesOf(trace, c) == TriesOf(old(trace), c)
      ensures sent == old(sent) && rows == old(rows)
      ensures var call := old(calls)[c];
              && row == (if call.id in rows then Some(rows[call.id]) else None)
              && if row.Some? && AfterCheck(cfg, row.value, call.kind, call.payload) != Failing
                 then c in calls && calls[c] == call.(stage := AfterCheck(cfg, row.value, call.kind, call.payload))
                 else c !in calls
    {
      hide Run, TriesOf, AfterCheck, CheckStep;
      CheckedTables(cfg, Present(), c);
      row := if calls[c].id in rows then Some(rows[calls[c].id]) else None;
      Log(RowChecked(c), Present());
    }

    /** The pipeline's decision on a replacement. */
    method Rescreen(c: CallId) returns (approved: bool)
      requires Valid() && c in calls && calls[c].Working? && calls[c].stage == Rescreening && calls[c].payload.Some?
      modifies this
      ensures Valid() && trace == old(trace) + [Rescreened(c, approved)] && TriesOf(trace, c) == TriesOf(old(trace), c)
      ensures sent == old(sent) && rows == old(rows)
      ensures approved <==> c in calls
      ensures approved ==> calls[c] == old(calls)[c].(stage := Cleared(old(calls)[c].payload.value.nonce))
    {
      hide Run, TriesOf, RescreenStep;
      approved := *;
      RescreenedTables(Present(), c, approved);
      Log(Rescreened(c, approved), Present());
    }

    /** UPDATE ... WHERE status = ...: wins the row and its lock, or finds rowcount 0. */
    method Claim(c: CallId, configured: bool) returns (won: bool)
      requires Valid() && c in calls && calls[c].Working? && calls[c].stage.Cleared? && calls[c].id !in locks
      modifies this
      ensures Valid() && trace == old(trace) + [RowClaimed(c, configured)]
        && TriesOf(trace, c) == TriesOf(old(trace), c)
      ensures sent == old(sent) && rows == old(rows)
      ensures var call := old(calls)[c];
              && (won <==> call.id in rows && rows[call.id].status == ClaimableStatus(call.kind))
              && if won then c in calls && calls[c] == call.(stage :=
                   AfterClaim(cfg, rows[call.id], call.kind, call.payload, call.stage.nonce, configured))
                 else c !in calls
    {
      hide Run, TriesOf, AfterClaim, ClaimStep;
      var before := Present();
      ClaimedTables(cfg, before, c, configured);
      var id := calls[c].id;
      won := id in rows && rows[id].status == ClaimableStatus(calls[c].kind);
      if won {
        locks := locks[id := c];
      }
      Log(RowClaimed(c, configured), before);
    }

    /** eth_sendRawTransaction: the payload is out, whatever the node answers. */
    method HandOver(c: CallId) returns (answer: Option<string>)
      requires Valid() && c in calls && calls[c].Working? && calls[c].stage.Sending? && calls[c].payload.Some?
      modifies this
      ensures Valid() && trace == old(trace) + [SendTried(c, answer)] && TriesOf(trace, c) == TriesOf(old(trace), c) + 1
      ensures var call := old(calls)[c];
              && sent == old(sent) + [Sent(call.id, call.token, call.kind, call.payload.value)]
              && c in calls && calls[c] == call.(stage := AfterSend(cfg, call.kind, call.stage.tries + 1, answer))
    {
      hide Run, TriesOf, AfterSend;
      answer := *;
      var before := Present();
      sent := sent + [Sent(calls[c].id, calls[c].token, calls[c].kind, calls[c].payload.value)];
      Log(SendTried(c, answer), before);
    }

    /** Writes the claimed row with the attempt counted, and ends the transaction. */
    method Finish(c: CallId, row: Row, e: Event)
      requires Valid() && Holds(Present(), c) && calls[c].id in charged && !e.SendTried?
      requires Next(cfg, Present(), e) == EndClaim(Present(), c, row)
      modifies this
      ensures Valid() && trace == old(trace) + [e] && TriesOf(trace, c) == TriesOf(old(trace), c)
      ensures c !in calls && sent == old(sent)
      ensures rows == old(rows)[old(calls)[c].id := row.(attempts := row.attempts + 1)]
    {
      hide Run, Next, TriesOf, EndClaim;
      var before := Present();
      EndedTables(before, c, row);
      rows := rows[calls[c].id := row.(attempts := row.attempts + 1)];
      locks := locks - {calls[c].id};
      Log(e, before);
    }

    /** Status, hash and time: the payload is out for good. */
    method Commit(c: CallId, now: int)
      requires Valid() && c in calls && calls[c].Working? && calls[c].stage.Accepted?
      modifies this
      ensures Valid() && trace == old(trace) + [CallCommitted(c, now)] && TriesOf(trace, c) == TriesOf(old(trace), c)
      ensures c !in calls && sent == old(sent)
      ensures var id := old(calls)[c].id;
              && id in old(rows)
              && rows == old(rows)[id := old(rows)[id].(
                   status := Broadcast, txHash := Some(old(calls)[c].stage.hash), broadcastAt := Some(now),
                   attempts := old(rows)[id].attempts + 1)]
    {
      hide Run, TriesOf, Inv, Payloads, EndClaim;
      PresentIsSound();
      ClaimFacts(Present(), c);
      Finish(c, rows[calls[c].id].(status := Broadcast, txHash := Some(calls[c].stage.hash), broadcastAt := Some(now)),
             CallCommitted(c, now));
    }

    /** The failed attempt is counted and the row given back. */
    method Revert(c: CallId) returns (status: Status)
      requires Valid() && c in calls && calls[c].Working? && calls[c].stage == Failing
      modifies this
      ensures Valid() && TriesOf(trace, c) == TriesOf(old(trace), c)
      ensures exists backToStuck :: trace == old(trace) + [CallReverted(c, backToStuck)]
      ensures c !in calls && sent == old(sent)
      ensures if old(calls)[c].kind == Submit then status == Approved else status in {Stuck, Broadcasting}
      ensures var id := old(calls)[c].id;
              && id in old(rows)
              && rows == old(rows)[id := old(rows)[id].(status := status, attempts := old(rows)[id].attempts + 1)]
    {
      hide Run, TriesOf, Inv, Payloads, EndClaim, RevertStep, RevertedStatus;
      PresentIsSound();
      ClaimFacts(Present(), c);
      var backToStuck: bool := *;
      status := RevertedStatus(calls[c].kind, backToStuck);
      RevertedTables(Present(), c, backToStuck);
      Finish(c, rows[calls[c].id].(status := status), CallReverted(c, backToStuck));
    }

    /** The call dies: its transaction is rolled back, what it did in Redis stays. */
    method Die(c: CallId)
      requires Valid() && c in calls
      modifies this
      ensures Valid() && trace == old(trace) + [CallCrashed(c)] && TriesOf(trace, c) == TriesOf(old(trace), c)
      ensures c !in calls && sent == old(sent) && rows == old(rows)
    {
      hide Run, TriesOf;
      var before := Present();
      if Holds(before, c) {
        locks := locks - {calls[c].id};
      }
      Log(CallCrashed(c), before);
    }
  
    // ------------------------------------------------------- prepare and cancel

    /** session.get by `prepare`, whose callers see to it that no other one is under way for the row. */
    method BeginPrepare(c: CallId, id: TxId) returns (row: Option<Row>)
      requires Valid() && c !in calls && !PrepareInFlight(Present(), id)
      modifies this
      ensures Valid() && trace == old(trace) + (if row.Some? then [PrepareRead(c, id)] else [])
        && TriesOf(trace, c) == TriesOf(old(trace), c)
      ensures rows == old(rows) && sent == old(sent)
      ensures row == if id in rows && rows[id].status == Approved then Some(rows[id]) else None
      ensures if row.Some? then c in calls && calls[c] == PrepareAt(id, row.value) else c !in calls
    {
      hide Run, TriesOf, PrepareInFlight, PrepareAt;
      row := None;
      if id in rows && rows[id].status == Approved {
        row := Some(rows[id]);
        BegunTables(cfg, Present(), c, id);
        Log(PrepareRead(c, id), Present());
      }
    }

    /** tx.nonce = ..., committed. */
    method StoreNonce(c: CallId)
      requires Valid() && c in calls && calls[c].Storing? && calls[c].id in rows && calls[c].id !in locks
      modifies this
      ensures Valid() && trace == old(trace) + [NonceStored(c)] && TriesOf(trace, c) == TriesOf(old(trace), c)
        && sent == old(sent)
      ensures var call := old(calls)[c];
              && c in calls && calls[c] == Minting(call.id)
              && rows == old(rows)[call.id := old(rows)[call.id].(nonce := Some(call.nonce))]
    {
      hide Run, TriesOf;
      var before := Present();
      rows := rows[calls[c].id := rows[calls[c].id].(nonce := Some(calls[c].nonce))];
      Log(NonceStored(c), before);
    }

    method Revoke(id: TxId)
      requires Valid()
      modifies this
      ensures Valid() && trace == old(trace) + [TokenLapsed(id)] && id !in tokens && rows == old(rows)
    {
      hide Run, TriesOf;
      var before := Present();
      tokens := tokens - {id};
      Log(TokenLapsed(id), before);
    }

    /** UPDATE ... SET status = 'cancelled' WHERE status = 'approved', on a row nobody has locked. */
    method CancelRow(id: TxId) returns (done: bool)
      requires Valid() && id !in locks
      modifies this
      ensures Valid() && trace == old(trace) + (if done then [RowCancelled(id)] else [])
      ensures done <==> id in old(rows) && old(rows)[id].status == Approved
      ensures rows == if done then old(rows)[id := old(rows)[id].(status := Cancelled)] else old(rows)
    {
      hide Run, TriesOf;
      var before := Present();
      done := id in rows && rows[id].status == Approved;
      if done {
        rows := rows[id := rows[id].(status := Cancelled)];
        Log(RowCancelled(id), before);
      }
    }
  }
}
