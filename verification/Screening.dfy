/**
  The rolling counters of services/orchestrator/src/orchestrator/context.py and what they
  promise together with the policy engine over a whole screening history.

  A history holds the rows of all agents. For one agent screenings are serialized: between
  reading its counters and committing its row no other row of that agent is committed.
 */
module Screening {
  import opened Wrappers
  import opened Text
  import opened SignedTx
  import opened AnomalyScorer
  import P = PolicyEngine

  const MINUTE: real := 60.0
  const DAY: real := 86400.0
  const BASELINE_DAYS: real := 90.0
  const WEI: real := 1000000000000000000.0

  /** A screened row with the circumstances of its screening. */
  datatype Screened = Screened(
    agent: string,
    transfer: P.Transfer,
    decision: Decision,
    createdAt: real,     // created_at as the database sets it
    readAt: real,        // the clock when the counters were read
    seen: nat,           // how many rows were committed then
    policy: P.Policy,
    baseline: Option<Baseline>)

  type History = seq<Screened>

  function Usd(t: P.Transfer): real { t.value as real / WEI }

  // --------------------------------------------------------------------- context.py

  function SpentSince(rows: History, agent: string, since: real): real {
    if rows == [] then 0.0
    else
      var row := rows[|rows| - 1];
      SpentSince(rows[..|rows| - 1], agent, since)
      + if row.agent == agent && row.createdAt >= since && row.decision == Approve then Usd(row.transfer) else 0.0
  }

  function CountSince(rows: History, agent: string, since: real): nat {
    if rows == [] then 0
    else
      var row := rows[|rows| - 1];
      CountSince(rows[..|rows| - 1], agent, since) + if row.agent == agent && row.createdAt >= since then 1 else 0
  }

  function KnownSince(rows: History, agent: string, since: real): set<string> {
    set i | 0 <= i < |rows| && rows[i].agent == agent && rows[i].createdAt >= since && rows[i].transfer.to.Some?
      :: Lower(rows[i].transfer.to.value)
  }

  function MinuteOfDay(now: real): int { (now / MINUTE).Floor % 1440 }

  predicate IsNew(t: P.Transfer, known: set<string>) {
    var to := LowerOpt(t.to);
    to.Some? && to.value !in known
  }

  /** build_screening_context. */
  function BuildContext(rows: History, agent: string, t: P.Transfer, baseline: Option<Baseline>, now: real): P.Context {
    var recent := CountSince(rows, agent, now - MINUTE);
    var known := KnownSince(rows, agent, now - BASELINE_DAYS * DAY);
    P.Context(
      Some(Usd(t)), SpentSince(rows, agent, now - DAY), recent, known,
      if baseline.None? then None
      else Some(Score(baseline.value, Observation(t.value, recent, 1440, IsNew(t, known)))),
      Some(MinuteOfDay(now)), true)
  }

  // ----------------------------------------------------------------- whole histories

  /** The context a row was screened in. */
  function ContextOf(rows: History, row: Screened): P.Context
    requires row.seen <= |rows|
  {
    BuildContext(rows[..row.seen], row.agent, row.transfer, row.baseline, row.readAt)
  }

  /** A row that a screening may add: serialized for its agent, and approved only if no rule objects. */
  predicate MayAppend(rows: History, row: Screened) {
    && row.seen <= |rows|
    && (forall j | row.seen <= j < |rows| :: rows[j].agent != row.agent)
    && (row.decision == Approve ==> P.Objection(row.policy, row.transfer, ContextOf(rows, row)) == [])
  }

  ghost predicate Serialized(rows: History) {
    forall i | 0 <= i < |rows| :: MayAppend(rows[..i], rows[i])
  }

  lemma AppendKeepsSerialized(rows: History, row: Screened)
    requires Serialized(rows) && MayAppend(rows, row)
    ensures Serialized(rows + [row])
  {
    hide MayAppend;
    forall i | 0 <= i < |rows + [row]|
      ensures MayAppend((rows + [row])[..i], (rows + [row])[i])
    {
      assert (rows + [row])[..i] == rows[..i];
    }
    assert rows[..|rows|] == rows;
  }

  predicate AutoApproved(row: Screened, agent: string, from: real, to: real) {
    row.agent == agent && row.decision == Approve && from <= row.createdAt <= to
  }

  /** Dollars auto-approved for an agent in a closed window of time. */
  function WindowSpend(rows: History, agent: string, from: real, to: real): real {
    if rows == [] then 0.0
    else
      WindowSpend(rows[..|rows| - 1], agent, from, to)
      + if AutoApproved(rows[|rows| - 1], agent, from, to) then Usd(rows[|rows| - 1].transfer) else 0.0
  }

  function WindowCount(rows: History, agent: string, from: real, to: real): nat {
    if rows == [] then 0
    else
      WindowCount(rows[..|rows| - 1], agent, from, to)
      + if AutoApproved(rows[|rows| - 1], agent, from, to) then 1 else 0
  }

  lemma {:induction false} OtherAgentsDoNotCount(rows: History, n: nat, agent: string, from: real, to: real)
    requires n <= |rows| && forall j | n <= j < |rows| :: rows[j].agent != agent
    ensures WindowSpend(rows, agent, from, to) == WindowSpend(rows[..n], agent, from, to)
    ensures WindowCount(rows, agent, from, to) == WindowCount(rows[..n], agent, from, to)
    decreases |rows|
  {
    if n < |rows| {
      var shorter := rows[..|rows| - 1];
      assert shorter[..n] == rows[..n];
      OtherAgentsDoNotCount(shorter, n, agent, from, to);
    } else {
      assert rows[..n] == rows;
    }
  }

  /** The counters take in every row of a window that starts no earlier than they do. */
  lemma {:induction false} CountersCoverWindow(rows: History, agent: string, since: real, from: real, to: real)
    requires since <= from
    ensures WindowSpend(rows, agent, from, to) <= SpentSince(rows, agent, since)
    ensures WindowCount(rows, agent, from, to) <= CountSince(rows, agent, since)
    decreases |rows|
  {
    if rows != [] {
      CountersCoverWindow(rows[..|rows| - 1], agent, since, from, to);
    }
  }

  /** And no others: over rows up to a time, the spend counter is what was auto-approved from its start on. */
  lemma {:induction false} SpendIsExact(rows: History, agent: string, since: real, to: real)
    requires forall row <- rows :: row.agent == agent ==> row.createdAt <= to
    ensures SpentSince(rows, agent, since) == WindowSpend(rows, agent, since, to)
    decreases |rows|
  {
    if rows != [] {
      assert rows[|rows| - 1] in rows;
      SpendIsExact(rows[..|rows| - 1], agent, since, to);
    }
  }

  /** The context of a screening at `now`, after a history that has no later row of the agent. */
  lemma ContextInFull(rows: History, agent: string, t: P.Transfer, baseline: Option<Baseline>, now: real, to: real)
    requires forall row <- rows :: row.agent == agent ==> row.createdAt <= to
    ensures var ctx := BuildContext(rows, agent, t, baseline, now);
            && ctx.dailyUsed == WindowSpend(rows, agent, now - 86400.0, to)
            && ctx.usdValue == Some(t.value as real / 1000000000000000000.0)
            && (forall address :: address in ctx.known <==>
                  exists row <- rows ::
                    && row.agent == agent && row.createdAt >= now - 7776000.0
                    && row.transfer.to.Some? && Lower(row.transfer.to.value) == address)
            && ctx.anomalyScore == (
                 if baseline.None? then None
                 else Some(Score(baseline.value, Observation(t.value, ctx.recentCount, 1440,
                   t.to.Some? && t.to.value != "" && Lower(t.to.value) !in ctx.known))))
            && ctx.minute == Some(MinuteOfDay(now)) && ctx.failClosed
  {
    hide Score, SpentSince, WindowSpend, CountSince, Lower;
    SpendIsExact(rows, agent, now - DAY, to);
    assert forall i | 0 <= i < |rows| :: rows[i] in rows;
  }

  /** The clock in the context: how many whole minutes have passed since the last full day. */
  lemma MinuteInFull(now: real)
    ensures 0 <= MinuteOfDay(now) < 1440
    ensures exists days: int ::
              0.0 <= now - 60.0 * (1440 * days + MinuteOfDay(now)) as real < 60.0
  {
    var minutes := (now / MINUTE).Floor;
    var days := minutes / 1440;
    assert minutes == 1440 * days + MinuteOfDay(now);
    assert 0.0 <= now - 60.0 * minutes as real < 60.0;
  }

  /**
    What one more row does to the counters: an approved one of the agent is spend if it is less
    than a day old, any of the agent is a recent request if it is less than a minute old, and no
    other row changes either.
   */
  lemma OneMoreRow(rows: History, row: Screened, agent: string, t: P.Transfer, baseline: Option<Baseline>, now: real)
    ensures var before := BuildContext(rows, agent, t, baseline, now);
            var after := BuildContext(rows + [row], agent, t, baseline, now);
            && after.dailyUsed == before.dailyUsed
                 + (if row.agent == agent && row.decision == Approve && row.createdAt >= now - 86400.0
                    then row.transfer.value as real / 1000000000000000000.0 else 0.0)
            && after.recentCount == before.recentCount
                 + (if row.agent == agent && row.createdAt >= now - 60.0 then 1 else 0)
    ensures var none := BuildContext([], agent, t, baseline, now);
            none.dailyUsed == 0.0 && none.recentCount == 0
  {
    hide Score, KnownSince;
    assert (rows + [row])[..|rows|] == rows;
  }

  lemma NoRuleObjects(p: P.Policy, t: P.Transfer, ctx: P.Context)
    requires P.Objection(p, t, ctx) == [] && ctx.usdValue.Some?
    ensures p.dailyLimit.Some? ==> ctx.dailyUsed + ctx.usdValue.value <= p.dailyLimit.value
    ensures p.rateLimit.Some? ==> ctx.recentCount < p.rateLimit.value
  {
    assert P.RULES[3] == P.DailySpend && P.RULES[4] == P.RateLimit;
    assert !P.Fires(P.DailySpend, p, t, ctx) && !P.Fires(P.RateLimit, p, t, ctx);
  }

  /** Every auto-approval of the agent in the window was decided under a daily limit of at most `limit`. */
  ghost predicate UnderLimit(rows: History, agent: string, from: real, to: real, limit: real) {
    forall row <- rows :: AutoApproved(row, agent, from, to) ==>
      row.policy.dailyLimit.Some? && row.policy.dailyLimit.value <= limit
  }

  ghost predicate UnderRate(rows: History, agent: string, from: real, to: real, rate: int) {
    forall row <- rows :: AutoApproved(row, agent, from, to) ==>
      row.policy.rateLimit.Some? && row.policy.rateLimit.value <= rate
  }

  /** Counters over `length` read for these rows reach back to the start of the window. */
  ghost predicate ReachesBack(rows: History, agent: string, from: real, to: real, length: real) {
    forall row <- rows :: AutoApproved(row, agent, from, to) ==> row.readAt - length <= from
  }

  /** The dollars auto-approved in a window the counters reach back over stay within the limit. */
  lemma {:induction false} SpendIsLimited(rows: History, agent: string, from: real, to: real, limit: real)
    requires Serialized(rows) && limit >= 0.0
    requires UnderLimit(rows, agent, from, to, limit) && ReachesBack(rows, agent, from, to, DAY)
    ensures WindowSpend(rows, agent, from, to) <= limit
    decreases |rows|
  {
    hide MayAppend;
    if rows != [] {
      var before, row := rows[..|rows| - 1], rows[|rows| - 1];
      assert MayAppend(before, row);
      if AutoApproved(row, agent, from, to) {
        LastApprovalFits(before, row, from, to);
      } else {
        assert Serialized(before) by {
          assert forall i | 0 <= i < |before| :: before[..i] == rows[..i];
        }
        SpendIsLimited(before, agent, from, to, limit);
      }
    }
  }

  lemma LastApprovalFits(before: History, row: Screened, from: real, to: real)
    requires MayAppend(before, row) && AutoApproved(row, row.agent, from, to)
    ensures row.policy.dailyLimit.Some? && row.readAt - DAY <= from ==>
              WindowSpend(before, row.agent, from, to) + Usd(row.transfer) <= row.policy.dailyLimit.value
    ensures row.policy.rateLimit.Some? && row.readAt - MINUTE <= from ==>
              WindowCount(before, row.agent, from, to) < row.policy.rateLimit.value
  {
    hide Usd, WindowSpend, WindowCount, SpentSince, CountSince, KnownSince, P.Objection;
    OtherAgentsDoNotCount(before, row.seen, row.agent, from, to);
    NoRuleObjects(row.policy, row.transfer, ContextOf(before, row));
    if row.readAt - DAY <= from {
      CountersCoverWindow(before[..row.seen], row.agent, row.readAt - DAY, from, to);
    }
    if row.readAt - MINUTE <= from {
      CountersCoverWindow(before[..row.seen], row.agent, row.readAt - MINUTE, from, to);
    }
  }

  lemma {:induction false} CountIsLimited(rows: History, agent: string, from: real, to: real, rate: int)
    requires Serialized(rows) && rate >= 0
    requires UnderRate(rows, agent, from, to, rate) && ReachesBack(rows, agent, from, to, MINUTE)
    ensures WindowCount(rows, agent, from, to) <= rate
    decreases |rows|
  {
    hide MayAppend;
    if rows != [] {
      var before, row := rows[..|rows| - 1], rows[|rows| - 1];
      assert MayAppend(before, row);
      if AutoApproved(row, agent, from, to) {
        LastApprovalFits(before, row, from, to);
      } else {
        assert Serialized(before) by {
          assert forall i | 0 <= i < |before| :: before[..i] == rows[..i];
        }
        CountIsLimited(before, agent, from, to, rate);
      }
    }
  }

  // ------------------------------------------------------------------ the guarantees

  /**
    How much later than created_at the counters are read. created_at is the start of the
    database transaction, so this is positive unless the context stage had to store a baseline.
   */
  ghost predicate LagAtMost(rows: History, agent: string, lag: real) {
    forall row <- rows :: row.agent == agent ==> row.readAt <= row.createdAt + lag
  }

  /** In any closed window of 24 hours less the lag an agent's auto-approved dollars stay within its limit. */
  lemma DailyLimitHolds(rows: History, agent: string, from: real, to: real, lag: real, limit: real)
    requires Serialized(rows) && limit >= 0.0 && LagAtMost(rows, agent, lag)
    requires to <= from + DAY - lag && UnderLimit(rows, agent, from, to, limit)
    ensures WindowSpend(rows, agent, from, to) <= limit
  {
    hide Serialized;
    SpendIsLimited(rows, agent, from, to, limit);
  }

  /** In any closed window of one minute less the lag the auto-approvals stay within the rate. */
  lemma RateLimitHolds(rows: History, agent: string, from: real, to: real, lag: real, rate: int)
    requires Serialized(rows) && rate >= 0 && LagAtMost(rows, agent, lag)
    requires to <= from + MINUTE - lag && UnderRate(rows, agent, from, to, rate)
    ensures WindowCount(rows, agent, from, to) <= rate
  {
    hide Serialized;
    CountIsLimited(rows, agent, from, to, rate);
  }

  ghost predicate EveryDayIsLimited(lag: real) {
    forall rows, agent, from, to, limit ::
      Serialized(rows) && limit >= 0.0 && LagAtMost(rows, agent, lag) && to <= from + DAY ==>
        UnderLimit(rows, agent, from, to, limit) ==> WindowSpend(rows, agent, from, to) <= limit
  }

  ghost predicate EveryMinuteIsLimited(lag: real) {
    forall rows, agent, from, to, rate: int ::
      Serialized(rows) && rate >= 0 && LagAtMost(rows, agent, lag) && to <= from + MINUTE ==>
        UnderRate(rows, agent, from, to, rate) ==> WindowCount(rows, agent, from, to) <= rate
  }

  const ONE_WEI: P.Transfer := P.Transfer(None, 1, None)

  function LimitedBy(dailyLimit: Option<real>, rateLimit: Option<int>): P.Policy {
    P.Policy(1, None, dailyLimit, [], [], rateLimit, None, None, None, 70.0)
  }

  /** Two approvals `length` apart, the counters for the second one read `lag` after its created_at. */
  function TwoApprovals(length: real, lag: real, policy: P.Policy): History {
    [Screened("agent", ONE_WEI, Approve, 0.0, 0.0, 0, policy, None),
     Screened("agent", ONE_WEI, Approve, length, length + lag, 1, policy, None)]
  }

  lemma CountersOfOne(row: Screened, since: real)
    requires row.createdAt < since
    ensures SpentSince([row], row.agent, since) == 0.0 && CountSince([row], row.agent, since) == 0
  {
  }

  lemma TwoApprovalsAreSerialized(length: real, lag: real, policy: P.Policy)
    requires lag > 0.0
    requires || (policy == LimitedBy(Some(Usd(ONE_WEI)), None) && length == DAY)
             || (policy == LimitedBy(None, Some(1)) && length == MINUTE)
    ensures Serialized(TwoApprovals(length, lag, policy))
  {
    hide Usd, KnownSince, MinuteOfDay, P.Objection, Score, IsNew;
    var rows := TwoApprovals(length, lag, policy);
    var first := [rows[0]];
    assert rows[..0] == [] && rows[..1] == first && first[..1] == first;
    CountersOfOne(rows[0], lag);
    assert length + lag - length == lag;
    QuietUnder(policy, ContextOf([], rows[0]));
    QuietUnder(policy, ContextOf(first, rows[1]));
  }

  lemma BothApprovalsCount(length: real, lag: real, policy: P.Policy)
    requires length >= 0.0
    ensures WindowSpend(TwoApprovals(length, lag, policy), "agent", 0.0, length) == Usd(ONE_WEI) + Usd(ONE_WEI)
    ensures WindowCount(TwoApprovals(length, lag, policy), "agent", 0.0, length) == 2
  {
    hide Usd;
    var rows := TwoApprovals(length, lag, policy);
    assert rows[..1] == [rows[0]] && [rows[0]][..0] == [];
    assert WindowSpend([rows[0]], "agent", 0.0, length) == Usd(ONE_WEI);
    assert WindowCount([rows[0]], "agent", 0.0, length) == 1;
  }

  /** The tiny transfer draws no objection while the counters are at zero. */
  lemma QuietUnder(policy: P.Policy, ctx: P.Context)
    requires || (policy == LimitedBy(Some(Usd(ONE_WEI)), None) && ctx.dailyUsed == 0.0)
             || (policy == LimitedBy(None, Some(1)) && ctx.recentCount == 0)
    requires ctx.usdValue == Some(Usd(ONE_WEI)) && ctx.anomalyScore == None && ctx.failClosed
    ensures P.Objection(policy, ONE_WEI, ctx) == []
  {
  }

  /**
    The limit holds over every closed 24-hour window exactly if counters are never read after
    created_at, however small the lag.
   */
  lemma FullDayNeedsNoLag(lag: real)
    ensures EveryDayIsLimited(lag) <==> lag <= 0.0
  {
    hide Serialized, WindowSpend;
    if lag <= 0.0 {
      forall rows, agent, from, to, limit |
        Serialized(rows) && limit >= 0.0 && LagAtMost(rows, agent, lag) && to <= from + DAY
        && UnderLimit(rows, agent, from, to, limit)
        ensures WindowSpend(rows, agent, from, to) <= limit
      {
        DailyLimitHolds(rows, agent, from, to, lag, limit);
      }
    } else {
      var limit := Usd(ONE_WEI);
      var rows := TwoApprovals(DAY, lag, LimitedBy(Some(limit), None));
      TwoApprovalsAreSerialized(DAY, lag, LimitedBy(Some(limit), None));
      BothApprovalsCount(DAY, lag, LimitedBy(Some(limit), None));
      assert limit > 0.0;
      assert UnderLimit(rows, "agent", 0.0, DAY, limit) && LagAtMost(rows, "agent", lag);
    }
  }

  lemma FullMinuteNeedsNoLag(lag: real)
    ensures EveryMinuteIsLimited(lag) <==> lag <= 0.0
  {
    hide Serialized, WindowCount;
    if lag <= 0.0 {
      forall rows, agent, from, to, rate: int |
        Serialized(rows) && rate >= 0 && LagAtMost(rows, agent, lag) && to <= from + MINUTE
        && UnderRate(rows, agent, from, to, rate)
        ensures WindowCount(rows, agent, from, to) <= rate
      {
        RateLimitHolds(rows, agent, from, to, lag, rate);
      }
    } else {
      var rows := TwoApprovals(MINUTE, lag, LimitedBy(None, Some(1)));
      TwoApprovalsAreSerialized(MINUTE, lag, LimitedBy(None, Some(1)));
      BothApprovalsCount(MINUTE, lag, LimitedBy(None, Some(1)));
      assert UnderRate(rows, "agent", 0.0, MINUTE, 1) && LagAtMost(rows, "agent", lag);
    }
  }
}
