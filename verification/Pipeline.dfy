/** The fail-closed screening pipeline of services/orchestrator/src/orchestrator/pipeline.py. */
module Pipeline {
  import opened Wrappers
  import opened SignedTx
  import opened Screening
  import opened AnomalyScorer
  import opened Confidence
  import P = PolicyEngine

  /** What a bounded stage comes back with; a timeout counts as a failure. */
  datatype Stage<+T> = Failed | Returned(value: T)

  datatype Agent = Agent(org: string, halted: bool)

  datatype SimulationStatus = Success | RevertedOnFork | BackendError

  datatype Simulation = Simulation(status: SimulationStatus, changesState: bool)

  datatype Risk = Risk(level: RiskLevel, drain: bool)

  /** Everything the outside world answers during one screening. */
  datatype World = World(
    agent: Stage<Option<Agent>>,
    policy: Stage<Option<P.Policy>>,
    classifier: Stage<real>,
    simulation: Stage<Simulation>,
    context: Stage<Option<Baseline>>,
    engineAnswers: bool,
    risk: Stage<Risk>,
    readAt: real,
    createdAt: real,
    commit: Commit)

  /** The last transaction is rolled back, or it is there but the caller gets an error, or all is well. */
  datatype Commit = RolledBack | Unanswered | Answered

  datatype Note = Rule(rule: P.Rule) | Intent | SimulationReverted | SimulationUnavailable | LowConfidence

  /** The decision returned, and what a persisted one was based on. */
  datatype Verdict =
    | FailedClosed   // a rejection of which nothing is persisted
    | Raised         // no decision: an error from the final commit
    | Decided(row: nat, decision: Decision, confidence: real, score: Option<real>, risk: Option<Risk>, notes: seq<Note>)

  function OptionOf<T>(s: Stage<T>): Option<T> { if s.Failed? then None else Some(s.value) }

  predicate Reverts(s: Option<Simulation>) { s.Some? && s.value.status == RevertedOnFork }

  /** The simulation was required and could not verify the transfer. */
  predicate Unverified(required: bool, s: Option<Simulation>) {
    required && (s.None? || s.value.status == BackendError)
  }

  /** Step 7: the fork overrules the policy, and low confidence turns an approval into an escalation. */
  function Final(policy: Decision, required: bool, s: Option<Simulation>, confidence: real, threshold: real): Decision {
    var base := if Reverts(s) then Reject else if Unverified(required, s) then Escalate else policy;
    if base == Approve && confidence < threshold then Escalate else base
  }

  /** Exactly when the outcome is an approval, and exactly when it is a rejection. */
  lemma FinalDecisions(policy: Decision, required: bool, s: Option<Simulation>, confidence: real, threshold: real)
    requires !required ==> s.None?
    ensures var d := Final(policy, required, s, confidence, threshold);
            && (d == Approve <==>
                 && policy == Approve && confidence >= threshold
                 && (required ==> s.Some? && s.value.status == Success))
            && (d == Reject <==>
                 || (s.Some? && s.value.status == RevertedOnFork)
                 || (policy == Reject && (required ==> s.Some? && s.value.status == Success)))
  {
  }

  function NonTrivial(s: Option<Simulation>): bool { s.Some? && s.value.status == Success && s.value.changesState }

  function LevelOf(risk: Option<Risk>): Option<RiskLevel> { if risk.None? then None else Some(risk.value.level) }

  /** The anomaly score the confidence uses: none counts as zero. */
  function ScoreOrZero(score: Option<real>): Option<real> { if score.None? then Some(0.0) else score }

  function ConfidenceIn(w: World, score: Option<real>, risk: Option<Risk>): real {
    Aggregate(OptionOf(w.classifier), ScoreOrZero(score), LevelOf(risk), risk.Some? && risk.value.drain)
  }

  predicate Admits(w: World, org: string) {
    && w.agent.Returned? && w.agent.value.Some? && w.agent.value.value.org == org && !w.agent.value.value.halted
    && w.policy.Returned? && w.policy.value.Some?
    && w.context.Returned? && w.engineAnswers
  }

  /** What a screening that got through its gating stages leaves in the history. */
  ghost predicate Persisted(
      before: History, rows: History, agent: string, t: P.Transfer, w: World, required: bool, threshold: real,
        v: Verdict)
    requires v.Decided?
  {
    && |before| < |rows| && v.row == |rows| - 1
    && (forall j | |before| <= j < v.row :: rows[j].agent != agent)
    && var row := rows[v.row];
    && row.agent == agent && row.transfer == t && row.decision == v.decision
    && row.createdAt == w.createdAt && row.readAt == w.readAt
    && w.policy.Returned? && w.policy.value == Some(row.policy)
    && w.context.Returned? && w.context.value == row.baseline
    && row.seen == |before|
    && var ctx := ContextOf(rows, row);
    && v.score == ctx.anomalyScore
    && v.confidence == ConfidenceIn(w, v.score, v.risk)
    && var simulation := if required then OptionOf(w.simulation) else None;
    && exists policy ::
         && P.Harshest(policy, row.policy, t, ctx)
         && v.risk == (if policy == Escalate || NonTrivial(simulation) then OptionOf(w.risk) else None)
         && v.decision == Final(policy, required, simulation, v.confidence, threshold)
  }

  class Pipeline {
    const simulationRequired: bool
    const threshold: real      // escalate_below_confidence
    var rows: History          // transactions
    var audit: seq<(nat, Decision)>
    var pending: set<nat>      // approvals created for rows

    /** Rows are serialized per agent; each has its audit record, and its approval iff it escalated. */
    ghost predicate Valid()
      reads this
    {
      && Serialized(rows)
      && |audit| == |rows| && (forall i | 0 <= i < |rows| :: audit[i] == (i, rows[i].decision))
      && (forall i: nat :: i in pending <==> i < |rows| && rows[i].decision == Escalate)
    }

    constructor (simulationRequired: bool, threshold: real)
      ensures Valid() && rows == []
      ensures this.simulationRequired == simulationRequired && this.threshold == threshold
    {
      this.simulationRequired, this.threshold := simulationRequired, threshold;
      rows, audit, pending := [], [], {};
    }

    /** One commit: the row, its audit record and, for an escalation, its approval. */
    method Persist(row: Screened)
      requires Valid() && MayAppend(rows, row)
      modifies this
      ensures Valid() && rows == old(rows) + [row]
      ensures audit == old(audit) + [(|old(rows)|, row.decision)]
      ensures pending == old(pending) + if row.decision == Escalate then {|old(rows)|} else {}
    {
      hide MayAppend;
      AppendKeepsSerialized(rows, row);
      audit := audit + [(|rows|, row.decision)];
      if row.decision == Escalate {
        pending := pending + {|rows|};
      }
      rows := rows + [row];
    }

    /** Screenings of other agents commit in between. */
    method OtherAgents(agent: string)
      requires Valid()
      modifies this
      ensures Valid() && old(rows) <= rows
      ensures forall j | |old(rows)| <= j < |rows| :: rows[j].agent != agent
    {
      hide MayAppend, Serialized;
      var n: nat := *;
      while n > 0
        invariant Valid() && old(rows) <= rows
        invariant forall j | |old(rows)| <= j < |rows| :: rows[j].agent != agent
      {
        var row: Screened := *;
        if row.agent != agent && MayAppend(rows, row) {
          Persist(row);
        }
        n := n - 1;
      }
    }

    /** The policy stage. */
    static method Judge(policy: P.Policy, t: P.Transfer, ctx: P.Context) returns (result: P.EngineResult)
      ensures fresh(result) && P.Harshest(result.decision, policy, t, ctx)
    {
      hide P.Harshest, P.Objection, LowerOpt;
      result := P.Evaluate(policy, t, ctx);
    }

    method Screen(agent: string, org: string, t: P.Transfer, w: World) returns (v: Verdict)
      requires Valid()
      modifies this
      ensures Valid() && old(rows) <= rows
      ensures v.FailedClosed? <==> !Admits(w, org)
      ensures w.agent.Failed? || w.agent.value.None? || w.agent.value.value.org != org || w.agent.value.value.halted ==>
                v.FailedClosed?
      ensures w.policy.Failed? || w.policy.value.None? || w.context.Failed? || !w.engineAnswers ==> v.FailedClosed?
      ensures v.FailedClosed? ==> rows == old(rows) && audit == old(audit) && pending == old(pending)
      ensures v.Decided? <==> Admits(w, org) && w.commit.Answered?
      ensures v.Decided? ==> Persisted(old(rows), rows, agent, t, w, simulationRequired, threshold, v)
      ensures v.Decided? ==>
                && v.row == |rows| - 1 >= |old(rows)|
                && w.policy.Returned? && w.policy.value.Some? && w.context.Returned?
                && rows[v.row] == Screening.Screened(agent, t, v.decision, w.createdAt, w.readAt, |old(rows)|,
                                                     w.policy.value.value, w.context.value)
      ensures v.Raised? && w.commit.RolledBack? ==> forall j | |old(rows)| <= j < |rows| :: rows[j].agent != agent
      ensures v.Raised? && w.commit.Unanswered? ==>
                exists u: Verdict ::
                  u.Decided? && Persisted(old(rows), rows, agent, t, w, simulationRequired, threshold, u)
    {
      hide Valid, Serialized, MayAppend, Final, P.Harshest, Aggregate, BuildContext, Persisted;
      // steps 0 and 1: kill switch and policy
      if w.agent.Failed? || w.agent.value.None? || w.agent.value.value.org != org {
        return FailedClosed;
      }
      if w.agent.value.value.halted {
        return FailedClosed;
      }
      if w.policy.Failed? || w.policy.value.None? {
        return FailedClosed;
      }
      var policy := w.policy.value.value;
      // steps 2 and 3: classifier and simulation
      var classifier := OptionOf(w.classifier);
      var simulation := None;
      if simulationRequired {
        simulation := OptionOf(w.simulation);
      }
      // steps 4 and 5: context and policy
      if w.context.Failed? || !w.engineAnswers {
        return FailedClosed;
      }
      var seen := |rows|;
      var ctx := BuildContext(rows, agent, t, w.context.value, w.readAt);
      var result := Judge(policy, t, ctx);
      // step 6: risk
      var risk := None;
      if result.decision == Escalate || NonTrivial(simulation) {
        risk := OptionOf(w.risk);
      }
      // step 7: confidence
      var drain := risk.Some? && risk.value.drain;
      var confidence := Aggregate(classifier, ScoreOrZero(ctx.anomalyScore), LevelOf(risk), drain);
      var final, notes := Settle(result, classifier, simulation, confidence);
      // step 8: persist
      OtherAgents(agent);
      if w.commit.RolledBack? {
        return Raised;
      }
      var row := Screening.Screened(agent, t, final, w.createdAt, w.readAt, seen, policy, w.context.value);
      assert rows[..seen] == old(rows) && ContextOf(rows, row) == ctx;
      CommitIsAllowed(rows, row, result.decision, simulationRequired, simulation, confidence, threshold);
      Persist(row);
      ScreeningIsPersisted(old(rows), rows, row, w, simulationRequired, threshold, result.decision, simulation, risk,
        notes);
      v := Decided(|rows| - 1, final, confidence, ctx.anomalyScore, risk, notes);
      if w.commit.Unanswered? {
        return Raised;
      }
    }

    /** The final decision and its reasons, updated step by step. */
    method Settle(result: P.EngineResult, classifier: Option<real>, s: Option<Simulation>, confidence: real)
      returns (final: Decision, notes: seq<Note>)
      requires !simulationRequired ==> s.None?
      ensures final == Final(result.decision, simulationRequired, s, confidence, threshold)
      ensures forall rule :: Rule(rule) in notes <==> rule in result.reasons
      ensures Intent in notes <==> classifier.Some?
      ensures SimulationReverted in notes <==> s.Some? && s.value.status == RevertedOnFork
      ensures SimulationUnavailable in notes <==> simulationRequired && (s.None? || s.value.status == BackendError)
      ensures LowConfidence in notes <==>
                && result.decision == Approve && confidence < threshold
                && (simulationRequired ==> s.Some? && s.value.status == Success)
    {
      notes := seq(|result.reasons|, i requires 0 <= i < |result.reasons| reads result => Rule(result.reasons[i]));
      assert forall rule :: Rule(rule) in notes <==> rule in result.reasons by {
        assert forall i | 0 <= i < |notes| :: notes[i] == Rule(result.reasons[i]);
      }
      if classifier.Some? {
        notes := notes + [Intent];
      }
      final := result.decision;
      if s.Some? && s.value.status == RevertedOnFork {
        final := Reject;
        notes := notes + [SimulationReverted];
      } else if simulationRequired && (s.None? || s.value.status == BackendError) {
        final := Escalate;
        notes := notes + [SimulationUnavailable];
      }
      if final == Approve && confidence < threshold {
        final := Escalate;
        notes := notes + [LowConfidence];
      }
    }
  }

  /**
    What a persisted verdict was based on, in full: the risk agent is asked about an escalation and
    about a simulated transfer that changes state, and the confidence takes in what the classifier,
    the anomaly score and the risk agent have said.
   */
  lemma PersistedInFull(
      before: History, rows: History, agent: string, t: P.Transfer, w: World, required: bool, threshold: real,
        v: Verdict, policy: Decision)
    requires v.Decided? && Persisted(before, rows, agent, t, w, required, threshold, v)
    requires P.Harshest(policy, rows[v.row].policy, t, ContextOf(rows, rows[v.row]))
    ensures v.risk ==
              if && w.risk.Returned?
                 && (policy == Escalate
                     || (required && w.simulation.Returned? && w.simulation.value.status == Success
                         && w.simulation.value.changesState))
              then Some(w.risk.value) else None
    ensures v.confidence == Aggregate(
              if w.classifier.Returned? then Some(w.classifier.value) else None,
              if v.score.Some? then v.score else Some(0.0),
              if v.risk.Some? then Some(v.risk.value.level) else None,
              v.risk.Some? && v.risk.value.drain)
    ensures v.decision == Reject <==>
              || (required && w.simulation.Returned? && w.simulation.value.status == RevertedOnFork)
              || (policy == Reject && (required ==> w.simulation.Returned? && w.simulation.value.status == Success))
    ensures v.decision == Approve <==>
              && policy == Approve && v.confidence >= threshold
              && (required ==> w.simulation.Returned? && w.simulation.value.status == Success)
  {
    hide P.Harshest, Final, Aggregate, ContextOf;
    var simulation := if required then OptionOf(w.simulation) else None;
    var ctx := ContextOf(rows, rows[v.row]);
    var d :| P.Harshest(d, rows[v.row].policy, t, ctx)
      && v.risk == (if d == Escalate || NonTrivial(simulation) then OptionOf(w.risk) else None)
      && v.decision == Final(d, required, simulation, v.confidence, threshold);
    P.HarshestIsUnique(d, policy, rows[v.row].policy, t, ctx);
    FinalDecisions(policy, required, simulation, v.confidence, threshold);
  }

  lemma CommitIsAllowed(
      rows: History, row: Screened, policy: Decision, required: bool, s: Option<Simulation>, confidence: real,
        threshold: real)
    requires row.seen <= |rows| && forall j | row.seen <= j < |rows| :: rows[j].agent != row.agent
    requires P.Harshest(policy, row.policy, row.transfer, ContextOf(rows, row))
    requires row.decision == Final(policy, required, s, confidence, threshold)
    ensures MayAppend(rows, row)
  {
  }

  lemma ScreeningIsPersisted(
      before: History, rows: History, row: Screened, w: World, required: bool, threshold: real,
      policy: Decision, simulation: Option<Simulation>, risk: Option<Risk>, notes: seq<Note>)
    requires |before| < |rows| && rows[..|before|] == before && rows[|rows| - 1] == row && row.seen == |before|
    requires forall j | |before| <= j < |rows| - 1 :: rows[j].agent != row.agent
    requires w.policy == Returned(Some(row.policy)) && w.context == Returned(row.baseline)
    requires row.createdAt == w.createdAt && row.readAt == w.readAt
    requires P.Harshest(policy, row.policy, row.transfer, ContextOf(rows, row))
    requires simulation == if required then OptionOf(w.simulation) else None
    requires risk == if policy == Escalate || NonTrivial(simulation) then OptionOf(w.risk) else None
    requires row.decision ==
             Final(policy, required, simulation, ConfidenceIn(w, ContextOf(rows, row).anomalyScore, risk), threshold)
    ensures var score := ContextOf(rows, row).anomalyScore;
            var v := Decided(|rows| - 1, row.decision, ConfidenceIn(w, score, risk), score, risk, notes);
            Persisted(before, rows, row.agent, row.transfer, w, required, threshold, v)
  {
    hide P.Harshest, Final, ConfidenceIn, ContextOf, NonTrivial;
  }

  /**
    Whatever the advisory stages return or fail with: an approval means that no policy rule
    objected, that the simulation succeeded or was switched off, and that the confidence
    reached the threshold.
   */
  lemma ApprovalPassedEveryGate(
      before: History, rows: History, agent: string, t: P.Transfer, w: World, required: bool, threshold: real,
        v: Verdict)
    requires v.Decided? && Persisted(before, rows, agent, t, w, required, threshold, v) && v.decision == Approve
    ensures P.Objection(rows[v.row].policy, t, ContextOf(rows, rows[v.row])) == []
    ensures required ==> w.simulation.Returned? && w.simulation.value.status == Success
    ensures v.confidence >= threshold
  {
  }

  /** An approval at threshold t bounds the anomaly score, the risk level and rules out a drain. */
  lemma ApprovalBoundsAdvisories(
      before: History, rows: History, agent: string, t: P.Transfer, w: World, required: bool, threshold: real,
        v: Verdict)
    requires v.Decided? && Persisted(before, rows, agent, t, w, required, threshold, v) && v.decision == Approve
    requires TwoDecimals(threshold) && threshold > 0.0
    ensures v.score.Some? ==> v.score.value <= 100.0 - threshold
    ensures v.risk.Some? ==> !v.risk.value.drain && 100.0 * RiskFactor(v.risk.value.level) >= threshold
  {
    hide Aggregate, TwoDecimals, Score, RiskFactor;
    ApprovalPassedEveryGate(before, rows, agent, t, w, required, threshold, v);
    var drain := v.risk.Some? && v.risk.value.drain;
    ConfidenceBoundsSignals(OptionOf(w.classifier), ScoreOrZero(v.score), LevelOf(v.risk), drain, threshold);
    ScoresHaveTwoDecimals(rows, rows[v.row]);
  }

  lemma ScoresHaveTwoDecimals(rows: History, row: Screened)
    requires row.seen <= |rows|
    ensures ContextOf(rows, row).anomalyScore.Some? ==> TwoDecimals(ContextOf(rows, row).anomalyScore.value)
  {
  }

  /** At the default threshold: score at most 40.00, no critical risk, no drain. */
  lemma ApprovalAtDefaultThreshold(
      before: History, rows: History, agent: string, t: P.Transfer, w: World, required: bool, v: Verdict)
    requires v.Decided? && Persisted(before, rows, agent, t, w, required, 60.0, v) && v.decision == Approve
    ensures v.score.Some? ==> v.score.value <= 40.0
    ensures v.risk.Some? ==> !v.risk.value.drain && v.risk.value.level != Critical
  {
    hide Persisted;
    ApprovalBoundsAdvisories(before, rows, agent, t, w, required, 60.0, v);
  }
}
