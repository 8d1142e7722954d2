/**
  What a cancellation is worth. `cancel` looks at the status of the row alone, and an approved row
  may already be with the network: an attempt that the node answered with an error, or during
  which the process died, gives the row back.
 */
module ExecutionCancellation {
  import opened Wrappers
  import opened SignedTx
  import opened Execution
  import opened ExecutionResults
  import opened ExecutionSerialization
  import opened ExecutionReplacement

  ghost predicate HandedOver(sent: seq<Sent>, id: TxId) { exists e <- sent :: e.id == id }

  lemma {:induction false} HandedOverIsCounted(sent: seq<Sent>, id: TxId)
    ensures HandedOver(sent, id) <==> SentFor(sent, id) > 0
    decreases |sent|
  {
    if sent != [] {
      var before, last := sent[..|sent| - 1], sent[|sent| - 1];
      HandedOverIsCounted(before, id);
      assert sent == before + [last];
      assert forall e <- sent :: e in before || e == last;
      assert forall e <- before :: e in sent;
    }
  }

  /** The event cancels the row at that point of the run. */
  predicate Cancels(cfg: Config, es: seq<Event>, i: nat, id: TxId) {
    && i < |es| && es[i] == RowCancelled(id)
    && id in Reached(cfg, es[..i]).rows && Reached(cfg, es[..i]).rows[id].status == Approved
    && id !in Reached(cfg, es[..i]).locks
  }

  lemma CancelledRow(cfg: Config, es: seq<Event>, i: nat, id: TxId)
    requires Cancels(cfg, es, i, id)
    ensures var s := Reached(cfg, es[..i + 1]);
            id in s.rows && s.rows[id].status == Cancelled && s.sent == Reached(cfg, es[..i]).sent
  {
    hide Run;
    assert es[..i + 1] == es[..i] + [RowCancelled(id)];
    RunConcat(cfg, EMPTY, es[..i], [RowCancelled(id)]);
    RunOne(cfg, Reached(cfg, es[..i]), RowCancelled(id));
  }

  /**
    A row stays cancelled, and none of its payloads is ever with the network, exactly if none was
    when it was cancelled: over every run, however calls overlap.
   */
  lemma CancellationHoldsIfNothingWasSent(cfg: Config, es: seq<Event>, i: nat, id: TxId)
    requires Cancels(cfg, es, i, id)
    ensures id in Reached(cfg, es).rows && Reached(cfg, es).rows[id].status == Cancelled
    ensures !HandedOver(Reached(cfg, es).sent, id) <==> !HandedOver(Reached(cfg, es[..i]).sent, id)
  {
    hide Reached, HandedOver;
    CancelledRow(cfg, es, i, id);
    TerminalRowsStay(cfg, es, i + 1, id);
    FinishedRowsAreNeverSentAgain(cfg, es, i + 1, id);
    HandedOverIsCounted(Reached(cfg, es).sent, id);
    HandedOverIsCounted(Reached(cfg, es[..i + 1]).sent, id);
  }

  // --------------------------------------------- a cancelled row that is on its way

  /** No run leaves a cancelled row with a payload that a chain could mine. */
  ghost predicate CancelledRowsAreIdle(cfg: Config) {
    forall es, id |
      id in Reached(cfg, es).rows && Reached(cfg, es).rows[id].status == Cancelled ::
      !HandedOver(Reached(cfg, es).sent, id)
  }

  const PREPARED: seq<Event> := [RowScreened("t", Payment(None), 0), PrepareRead(1, "t")] + [NonceReserved(1, 0)]

  lemma PreparedIsPoised(cfg: Config)
    ensures Poised(Reached(cfg, PREPARED), 1, 0) && Reached(cfg, PREPARED).calls == map[1 := Storing("t", 0)]
    ensures Reached(cfg, PREPARED).minted == 0
  {
    hide Run, PrepareInFlight, ScreenStep, PrepareStep, ReserveStep;
    var s1 := ScreenStep(EMPTY, "t", Payment(None), 0);
    var s2 := PrepareStep(cfg, s1, 1, "t");
    RunConcat(cfg, EMPTY, [RowScreened("t", Payment(None), 0), PrepareRead(1, "t")], [NonceReserved(1, 0)]);
    RunPair(cfg, EMPTY, RowScreened("t", Payment(None), 0), PrepareRead(1, "t"));
    RunOne(cfg, s2, NonceReserved(1, 0));
    ScreensPayment();
    BeginsPrepare(cfg, s1, 1);
    ReservesFirst(s2);
  }

  function CancelledAfterSend(): seq<Event> { PREPARED + Round(1, 3, 0, 0) + [RowCancelled("t")] }

  /** The attempt that was lost with the process is not even counted on the row. */
  lemma SentRowCanBeCancelled(cfg: Config)
    requires cfg.maxBroadcastAttempts > 0
    ensures var s := Reached(cfg, CancelledAfterSend());
            && "t" in s.rows && s.rows["t"].status == Cancelled && s.rows["t"].attempts == 0
            && HandedOver(s.sent, "t")
  {
    hide Run, Round, Signed, Poised;
    var s1 := Reached(cfg, PREPARED);
    PreparedIsPoised(cfg);
    RoundSends(cfg, s1, 1, 3, 0);
    var s2 := Run(cfg, s1, Round(1, 3, 0, 0));
    RunConcat(cfg, EMPTY, PREPARED, Round(1, 3, 0, 0));
    RunConcat(cfg, EMPTY, PREPARED + Round(1, 3, 0, 0), [RowCancelled("t")]);
    RunOne(cfg, s2, RowCancelled("t"));
    assert s2.sent[|s2.sent| - 1] == Sent("t", 0, Submit, Signed(0));
  }

  /** Cancelled rows are idle over all runs if and only if no attempts are configured at all. */
  lemma CancellationIsNoRecall(cfg: Config)
    ensures CancelledRowsAreIdle(cfg) <==> cfg.maxBroadcastAttempts == 0
  {
    hide Run, CancelledAfterSend;
    if cfg.maxBroadcastAttempts == 0 {
      forall es: seq<Event>
        ensures Reached(cfg, es).sent == []
      {
        WithoutAttemptsNothingIsSent(cfg, EMPTY, es);
      }
    } else {
      SentRowCanBeCancelled(cfg);
    }
  }
}
