/**
  The deterministic policy engine of services/policy-engine/policy_engine/engine.py.

  A reason stands for the rule that gave it. Dollar amounts and scores are reals.
 */
module PolicyEngine {
  import opened Wrappers
  import opened Text
  import opened SignedTx

  datatype Policy = Policy(
    version: int,
    spendLimit: Option<real>,
    dailyLimit: Option<real>,
    allowList: seq<string>,
    denyList: seq<string>,
    rateLimit: Option<int>,
    activeFrom: Option<int>,
    activeTo: Option<int>,
    gasCeiling: Option<int>,
    anomalyThreshold: real)

  datatype Context = Context(
    usdValue: Option<real>,
    dailyUsed: real,
    recentCount: int,
    known: set<string>,
    anomalyScore: Option<real>,
    minute: Option<int>,
    failClosed: bool)

  datatype Transfer = Transfer(to: Option<string>, value: nat, gas: Option<nat>)

  /** The rules in the order of their precedence, and the operator's switch. */
  datatype Rule =
    | FailOpen
    | DenyList
    | AllowList
    | SpendLimit
    | DailySpend
    | RateLimit
    | TimeWindow
    | GasCeiling
    | Anomaly
    | NewCounterparty

  const RULES: seq<Rule> :=
    [DenyList, AllowList, SpendLimit, DailySpend, RateLimit, TimeWindow, GasCeiling, Anomaly, NewCounterparty]

  predicate Lists(list: seq<string>, address: string) { exists i | 0 <= i < |list| :: Lower(list[i]) == address }

  /** Whether a rule, looked at on its own, objects. */
  predicate Fires(rule: Rule, p: Policy, t: Transfer, ctx: Context) {
    var to := LowerOpt(t.to);
    match rule
    case FailOpen => !ctx.failClosed
    case DenyList => to.Some? && Lists(p.denyList, to.value)
    case AllowList => p.allowList != [] && to.Some? && !Lists(p.allowList, to.value)
    case SpendLimit => p.spendLimit.Some? && ctx.usdValue.Some? && ctx.usdValue.value > p.spendLimit.value
    case DailySpend =>
      p.dailyLimit.Some? && ctx.usdValue.Some? && ctx.dailyUsed + ctx.usdValue.value > p.dailyLimit.value
    case RateLimit => p.rateLimit.Some? && ctx.recentCount >= p.rateLimit.value
    case TimeWindow =>
      && p.activeFrom.Some? && p.activeTo.Some? && ctx.minute.Some?
      && !(p.activeFrom.value <= ctx.minute.value < p.activeTo.value)
    case GasCeiling => p.gasCeiling.Some? && t.gas.Some? && t.gas.value > p.gasCeiling.value
    case Anomaly => ctx.anomalyScore.Some? && ctx.anomalyScore.value >= p.anomalyThreshold
    case NewCounterparty => t.value > 0 && to.Some? && to.value !in ctx.known
  }

  function Severity(rule: Rule): Decision {
    if rule in {FailOpen, Anomaly, NewCounterparty} then Escalate else Reject
  }

  function Rank(d: Decision): nat {
    match d
    case Approve => 0
    case Escalate => 1
    case Reject => 2
  }

  function Harsher(d: Decision, e: Decision): Decision { if Rank(e) > Rank(d) then e else d }

  // ------------------------------------------------------------------- the engine

  class EngineResult {
    var decision: Decision
    var reasons: seq<Rule>
    var policyVersion: Option<int>

    constructor (decision: Decision, reasons: seq<Rule>, policyVersion: Option<int>)
      ensures this.decision == decision && this.reasons == reasons && this.policyVersion == policyVersion
    {
      this.decision, this.reasons, this.policyVersion := decision, reasons, policyVersion;
    }

    /** The harshest decision wins, reasons accumulate; the result is this object itself. */
    method Merge(other: EngineResult)
      modifies this
      ensures decision == Harsher(old(decision), old(other.decision))
      ensures reasons == old(reasons) + old(other.reasons)
      ensures policyVersion == old(policyVersion)
    {
      var harsher := Rank(other.decision) > Rank(decision);
      reasons := reasons + other.reasons;
      if harsher {
        decision := other.decision;
      }
    }

    method Object(rule: Rule)
      modifies this
      ensures decision == Harsher(old(decision), Severity(rule))
      ensures reasons == old(reasons) + [rule] && policyVersion == old(policyVersion)
    {
      var objection := new EngineResult(Severity(rule), [rule], None);
      Merge(objection);
    }
  }

  /** The first rule that fires, in order of precedence. */
  function FirstObjection(p: Policy, t: Transfer, ctx: Context, rules: seq<Rule>): (r: seq<Rule>)
    ensures r == [] <==> forall x <- rules :: !Fires(x, p, t, ctx)
    ensures r != [] ==> |r| == 1 && r[0] in rules && Fires(r[0], p, t, ctx)
  {
    if rules == [] then []
    else if Fires(rules[0], p, t, ctx) then [rules[0]]
    else FirstObjection(p, t, ctx, rules[1..])
  }

  /** d is what the harshest of all rules, taken independently, asks for. */
  ghost predicate Harshest(d: Decision, p: Policy, t: Transfer, ctx: Context) {
    && (d == Approve || exists rule :: Fires(rule, p, t, ctx) && Severity(rule) == d)
    && forall rule :: Fires(rule, p, t, ctx) ==> Rank(Severity(rule)) <= Rank(d)
  }

  lemma HarshestIsUnique(d: Decision, e: Decision, p: Policy, t: Transfer, ctx: Context)
    requires Harshest(d, p, t, ctx) && Harshest(e, p, t, ctx)
    ensures d == e
  {
  }

  /** Precedence of a rule, from 0. */
  function Place(rule: Rule): nat {
    match rule
    case FailOpen => 9
    case DenyList => 0
    case AllowList => 1
    case SpendLimit => 2
    case DailySpend => 3
    case RateLimit => 4
    case TimeWindow => 5
    case GasCeiling => 6
    case Anomaly => 7
    case NewCounterparty => 8
  }

  lemma PlaceIsPosition(rule: Rule)
    requires rule != FailOpen
    ensures Place(rule) < |RULES| && RULES[Place(rule)] == rule
  {
  }

  ghost predicate Silent(p: Policy, t: Transfer, ctx: Context, n: nat) {
    forall rule :: Place(rule) < n ==> !Fires(rule, p, t, ctx)
  }

  lemma Passes(p: Policy, t: Transfer, ctx: Context, rule: Rule)
    requires rule != FailOpen && Silent(p, t, ctx, Place(rule)) && !Fires(rule, p, t, ctx)
    ensures Silent(p, t, ctx, Place(rule) + 1)
  {
  }

  lemma FailOpenFires(p: Policy, t: Transfer, ctx: Context)
    ensures Fires(FailOpen, p, t, ctx) <==> !ctx.failClosed
  {
  }

  function Opening(ctx: Context): Decision { if ctx.failClosed then Approve else Escalate }

  lemma OpeningIsHarsher()
    ensures Harsher(Approve, Severity(FailOpen)) == Escalate
  {
  }

  function Objection(p: Policy, t: Transfer, ctx: Context): seq<Rule> { FirstObjection(p, t, ctx, RULES) }

  /** The first rule that fires is as harsh as any later one. */
  lemma FirstDecides(p: Policy, t: Transfer, ctx: Context, rule: Rule)
    requires rule != FailOpen && Silent(p, t, ctx, Place(rule)) && Fires(rule, p, t, ctx)
    ensures Objection(p, t, ctx) == [rule]
    ensures Harshest(Harsher(Opening(ctx), Severity(rule)), p, t, ctx)
  {
    hide Fires;
    FailOpenFires(p, t, ctx);
    SilentRules(p, t, ctx, Place(rule));
    PlaceIsPosition(rule);
    FirstOf(p, t, ctx, RULES, Place(rule));
    FirstIsHarshest(p, t, ctx, rule);
  }

  lemma FirstIsHarshest(p: Policy, t: Transfer, ctx: Context, rule: Rule)
    requires rule != FailOpen && Silent(p, t, ctx, Place(rule)) && Fires(rule, p, t, ctx)
    ensures Harshest(Harsher(Opening(ctx), Severity(rule)), p, t, ctx)
  {
  }

  lemma SilentRules(p: Policy, t: Transfer, ctx: Context, n: nat)
    requires n <= |RULES| && Silent(p, t, ctx, n)
    ensures forall i | 0 <= i < n :: !Fires(RULES[i], p, t, ctx)
  {
  }

  lemma NoneDecides(p: Policy, t: Transfer, ctx: Context)
    requires Silent(p, t, ctx, 9)
    ensures Objection(p, t, ctx) == []
    ensures Harshest(Opening(ctx), p, t, ctx)
  {
    hide Fires;
    FailOpenFires(p, t, ctx);
    SilentRules(p, t, ctx, 9);
    FirstOf(p, t, ctx, RULES, 9);
  }

  lemma {:induction false} FirstOf(p: Policy, t: Transfer, ctx: Context, rules: seq<Rule>, n: nat)
    requires n <= |rules| && forall i | 0 <= i < n :: !Fires(rules[i], p, t, ctx)
    requires n < |rules| ==> Fires(rules[n], p, t, ctx)
    ensures FirstObjection(p, t, ctx, rules) == if n < |rules| then [rules[n]] else []
  {
    hide Fires;
    if n > 0 {
      FirstOf(p, t, ctx, rules[1..], n - 1);
    }
  }

  /** return result.merge(...) by the first rule that fires. */
  method Conclude(r: EngineResult, p: Policy, t: Transfer, ctx: Context, rule: Rule)
    requires r.decision == Opening(ctx) && r.reasons == OpeningReasons(ctx)
    requires rule != FailOpen && Silent(p, t, ctx, Place(rule)) && Fires(rule, p, t, ctx)
    modifies r
    ensures Concluded(r, p, t, ctx) && r.policyVersion == old(r.policyVersion)
  {
    hide Fires, Silent, Harshest, Objection;
    FirstDecides(p, t, ctx, rule);
    r.Object(rule);
  }

  function OpeningReasons(ctx: Context): seq<Rule> { if ctx.failClosed then [] else [FailOpen] }

  /** The decision of all rules taken together, for the reason of the first that objects. */
  ghost predicate Concluded(r: EngineResult, p: Policy, t: Transfer, ctx: Context)
    reads r
  {
    Harshest(r.decision, p, t, ctx) && r.reasons == OpeningReasons(ctx) + Objection(p, t, ctx)
  }

  lemma NoneConcludes(r: EngineResult, p: Policy, t: Transfer, ctx: Context)
    requires r.decision == Opening(ctx) && r.reasons == OpeningReasons(ctx) && Silent(p, t, ctx, 9)
    ensures Concluded(r, p, t, ctx)
  {
    hide Fires, Silent, Harshest, Objection;
    NoneDecides(p, t, ctx);
  }

  /** Rules 5 to 9 of evaluate, from the rate limit to the unseen counterparty. */
  method EvaluateRest(r: EngineResult, p: Policy, t: Transfer, ctx: Context)
    requires r.decision == Opening(ctx) && r.reasons == OpeningReasons(ctx)
    requires Silent(p, t, ctx, Place(RateLimit))
    modifies r
    ensures Concluded(r, p, t, ctx) && r.policyVersion == old(r.policyVersion)
  {
    hide Concluded, Lists, Silent, LowerOpt;
    var to := LowerOpt(t.to);
    if p.rateLimit.Some? && ctx.recentCount >= p.rateLimit.value {
      Conclude(r, p, t, ctx, RateLimit);
      return;
    }
    Passes(p, t, ctx, RateLimit);
    if p.activeFrom.Some? && p.activeTo.Some? && ctx.minute.Some?
       && !(p.activeFrom.value <= ctx.minute.value < p.activeTo.value) {
      Conclude(r, p, t, ctx, TimeWindow);
      return;
    }
    Passes(p, t, ctx, TimeWindow);
    if p.gasCeiling.Some? && t.gas.Some? && t.gas.value > p.gasCeiling.value {
      Conclude(r, p, t, ctx, GasCeiling);
      return;
    }
    Passes(p, t, ctx, GasCeiling);
    if ctx.anomalyScore.Some? && ctx.anomalyScore.value >= p.anomalyThreshold {
      Conclude(r, p, t, ctx, Anomaly);
      return;
    }
    Passes(p, t, ctx, Anomaly);
    if t.value > 0 && to.Some? && to.value !in ctx.known {
      Conclude(r, p, t, ctx, NewCounterparty);
      return;
    }
    Passes(p, t, ctx, NewCounterparty);
    NoneConcludes(r, p, t, ctx);
  }

  /**
    The verdict in full. Addresses match without regard to case, and no rule on addresses looks at
    a transfer without one; an empty allow list allows all.
   */
  lemma VerdictInFull(p: Policy, t: Transfer, ctx: Context, d: Decision)
    requires Harshest(d, p, t, ctx)
    ensures d == Reject <==>
              || (t.to.Some? && t.to.value != ""
                   && exists i | 0 <= i < |p.denyList| :: Lower(p.denyList[i]) == Lower(t.to.value))
              || (p.allowList != [] && t.to.Some? && t.to.value != ""
                   && forall i | 0 <= i < |p.allowList| :: Lower(p.allowList[i]) != Lower(t.to.value))
              || (p.spendLimit.Some? && ctx.usdValue.Some? && ctx.usdValue.value > p.spendLimit.value)
              || (p.dailyLimit.Some? && ctx.usdValue.Some? && ctx.dailyUsed + ctx.usdValue.value > p.dailyLimit.value)
              || (p.rateLimit.Some? && ctx.recentCount >= p.rateLimit.value)
              || (p.activeFrom.Some? && p.activeTo.Some? && ctx.minute.Some?
                   && (ctx.minute.value < p.activeFrom.value || ctx.minute.value >= p.activeTo.value))
              || (p.gasCeiling.Some? && t.gas.Some? && t.gas.value > p.gasCeiling.value)
    ensures d == Approve <==>
              && d != Reject && ctx.failClosed
              && (ctx.anomalyScore.Some? ==> ctx.anomalyScore.value < p.anomalyThreshold)
              && (t.value > 0 && t.to.Some? && t.to.value != "" ==> Lower(t.to.value) in ctx.known)
  {
    hide Harshest, Severity;
    RulesDecide(p, t, ctx, d);
  }

  lemma RulesDecide(p: Policy, t: Transfer, ctx: Context, d: Decision)
    requires Harshest(d, p, t, ctx)
    ensures d == Reject <==>
      || Fires(DenyList, p, t, ctx) || Fires(AllowList, p, t, ctx) || Fires(SpendLimit, p, t, ctx)
      || Fires(DailySpend, p, t, ctx) || Fires(RateLimit, p, t, ctx) || Fires(TimeWindow, p, t, ctx)
      || Fires(GasCeiling, p, t, ctx)
    ensures d == Approve <==>
      d != Reject && !Fires(FailOpen, p, t, ctx) && !Fires(Anomaly, p, t, ctx) && !Fires(NewCounterparty, p, t, ctx)
  {
    hide Fires;
    if d == Reject {
      var rule :| Fires(rule, p, t, ctx) && Severity(rule) == Reject;
      match rule {
        case FailOpen =>
        case DenyList =>
        case AllowList =>
        case SpendLimit =>
        case DailySpend =>
        case RateLimit =>
        case TimeWindow =>
        case GasCeiling =>
        case Anomaly =>
        case NewCounterparty =>
      }
    }
  }

  /** Rules 1 to 4, then the rest. */
  method EvaluateRules(r: EngineResult, p: Policy, t: Transfer, ctx: Context)
    requires r.decision == Opening(ctx) && r.reasons == OpeningReasons(ctx)
    requires Silent(p, t, ctx, 0)
    modifies r
    ensures Concluded(r, p, t, ctx) && r.policyVersion == old(r.policyVersion)
  {
    hide Concluded, Lists, Silent, Severity, Harsher, FirstObjection, LowerOpt;
    var to := LowerOpt(t.to);
    if to.Some? && Lists(p.denyList, to.value) {
      Conclude(r, p, t, ctx, DenyList);
      return;
    }
    Passes(p, t, ctx, DenyList);
    if p.allowList != [] {
      if to.Some? && !Lists(p.allowList, to.value) {
        Conclude(r, p, t, ctx, AllowList);
        return;
      }
    }
    Passes(p, t, ctx, AllowList);
    var usd := ctx.usdValue;
    if p.spendLimit.Some? && usd.Some? && usd.value > p.spendLimit.value {
      Conclude(r, p, t, ctx, SpendLimit);
      return;
    }
    Passes(p, t, ctx, SpendLimit);
    if p.dailyLimit.Some? && usd.Some? && ctx.dailyUsed + usd.value > p.dailyLimit.value {
      Conclude(r, p, t, ctx, DailySpend);
      return;
    }
    Passes(p, t, ctx, DailySpend);
    EvaluateRest(r, p, t, ctx);
  }

  /** evaluate: rule by rule, the first objection ends it. */
  method Evaluate(p: Policy, t: Transfer, ctx: Context) returns (r: EngineResult)
    ensures fresh(r) && Concluded(r, p, t, ctx) && r.policyVersion == Some(p.version)
    ensures r.decision == Reject <==>
              || (t.to.Some? && t.to.value != ""
                   && exists i | 0 <= i < |p.denyList| :: Lower(p.denyList[i]) == Lower(t.to.value))
              || (p.allowList != [] && t.to.Some? && t.to.value != ""
                   && forall i | 0 <= i < |p.allowList| :: Lower(p.allowList[i]) != Lower(t.to.value))
              || (p.spendLimit.Some? && ctx.usdValue.Some? && ctx.usdValue.value > p.spendLimit.value)
              || (p.dailyLimit.Some? && ctx.usdValue.Some? && ctx.dailyUsed + ctx.usdValue.value > p.dailyLimit.value)
              || (p.rateLimit.Some? && ctx.recentCount >= p.rateLimit.value)
              || (p.activeFrom.Some? && p.activeTo.Some? && ctx.minute.Some?
                   && (ctx.minute.value < p.activeFrom.value || ctx.minute.value >= p.activeTo.value))
              || (p.gasCeiling.Some? && t.gas.Some? && t.gas.value > p.gasCeiling.value)
    ensures r.decision == Approve <==>
              && r.decision != Reject && ctx.failClosed
              && (ctx.anomalyScore.Some? ==> ctx.anomalyScore.value < p.anomalyThreshold)
              && (t.value > 0 && t.to.Some? && t.to.value != "" ==> Lower(t.to.value) in ctx.known)
  {
    assert Silent(p, t, ctx, 0);
    hide Fires, Silent, Severity, Harsher, FirstObjection, LowerOpt;
    r := new EngineResult(Approve, [], Some(p.version));
    if !ctx.failClosed {
      r.Object(FailOpen);
    }
    assert r.decision == Opening(ctx) by {
      OpeningIsHarsher();
    }
    EvaluateRules(r, p, t, ctx);
    VerdictInFull(p, t, ctx, r.decision);
  }

  // -------------------------------------------------------------- upper and lower case

  /** The same entries but for their case. */
  predicate SameButForCase(list: seq<string>, list': seq<string>) {
    |list'| == |list| && forall i | 0 <= i < |list| :: Lower(list'[i]) == Lower(list[i])
  }

  function Lowered(list: seq<string>): (list': seq<string>)
    ensures |list'| == |list| && forall i | 0 <= i < |list| :: list'[i] == Lower(list[i])
  {
    seq(|list|, i requires 0 <= i < |list| => Lower(list[i]))
  }

  lemma SameMatches(list: seq<string>, list': seq<string>, address: string)
    requires SameButForCase(list, list')
    ensures Lists(list, address) <==> Lists(list', address)
  {
    hide Lower;
    assert forall i | 0 <= i < |list| :: Lower(list'[i]) == address <==> Lower(list[i]) == address;
  }

  /** However the entries and the address are written, the verdict is the same. */
  lemma CaseDoesNotMatter(p: Policy, allow: seq<string>, deny: seq<string>, t: Transfer, to: Option<string>,
      ctx: Context, d: Decision, d': Decision)
    requires SameButForCase(p.allowList, allow) && SameButForCase(p.denyList, deny)
    requires LowerOpt(to) == LowerOpt(t.to)
    requires Harshest(d, p, t, ctx)
    requires Harshest(d', p.(allowList := allow, denyList := deny), t.(to := to), ctx)
    ensures d' == d
  {
    hide SameButForCase, Lists, LowerOpt, Harshest;
    var p', t' := p.(allowList := allow, denyList := deny), t.(to := to);
    var address := LowerOpt(t.to);
    if address.Some? {
      SameMatches(p.allowList, allow, address.value);
      SameMatches(p.denyList, deny, address.value);
    }
    SameLength(p.allowList, allow);
    SameRulesSameVerdict(p, t, p', t', ctx, d, d');
  }

  lemma SameLength(list: seq<string>, list': seq<string>)
    requires SameButForCase(list, list')
    ensures |list| == |list'|
  {
  }

  lemma SameRulesSameVerdict(p: Policy, t: Transfer, p': Policy, t': Transfer, ctx: Context, d: Decision, d': Decision)
    requires forall rule :: Fires(rule, p, t, ctx) <==> Fires(rule, p', t', ctx)
    requires Harshest(d, p, t, ctx) && Harshest(d', p', t', ctx)
    ensures d' == d
  {
    hide Fires;
  }

  /** In particular all of them may be lower-cased. */
  lemma LowerCasingKeepsVerdict(p: Policy, t: Transfer, ctx: Context, d: Decision, d': Decision)
    requires t.to.Some? && Harshest(d, p, t, ctx)
    requires Harshest(d', p.(allowList := Lowered(p.allowList), denyList := Lowered(p.denyList)),
                      t.(to := Some(Lower(t.to.value))), ctx)
    ensures d' == d
  {
    hide Harshest;
    forall list: seq<string>
      ensures SameButForCase(list, Lowered(list))
    {
      forall i | 0 <= i < |list|
        ensures Lower(Lowered(list)[i]) == Lower(list[i])
      {
        LowerTwice(list[i]);
      }
    }
    LowerTwice(t.to.value);
    LowerIsPerCharacter(t.to.value);
    CaseDoesNotMatter(p, Lowered(p.allowList), Lowered(p.denyList), t, Some(Lower(t.to.value)), ctx, d, d');
  }

  // ------------------------------------------------------------------ monotonicity

  predicate AtMostReal(limit: Option<real>, tighter: Option<real>) {
    limit.Some? ==> tighter.Some? && tighter.value <= limit.value
  }

  predicate AtMostInt(limit: Option<int>, tighter: Option<int>) {
    limit.Some? ==> tighter.Some? && tighter.value <= limit.value
  }

  ghost predicate Narrower(list: seq<string>, list': seq<string>) {
    list != [] ==> list' != [] && forall address :: Lists(list', address) ==> Lists(list, address)
  }

  ghost predicate Wider(list: seq<string>, list': seq<string>) {
    forall address :: Lists(list, address) ==> Lists(list', address)
  }

  /** p' forbids more: longer deny list, shorter but non-empty allow list, lower limits, narrower window. */
  ghost predicate Tighter(p: Policy, p': Policy) {
    && Wider(p.denyList, p'.denyList) && Narrower(p.allowList, p'.allowList)
    && AtMostReal(p.spendLimit, p'.spendLimit) && AtMostReal(p.dailyLimit, p'.dailyLimit)
    && AtMostInt(p.rateLimit, p'.rateLimit) && AtMostInt(p.gasCeiling, p'.gasCeiling)
    && (p.activeFrom.Some? && p.activeTo.Some? ==>
          p'.activeFrom.Some? && p'.activeTo.Some?
          && p.activeFrom.value <= p'.activeFrom.value && p'.activeTo.value <= p.activeTo.value)
    && p'.anomalyThreshold <= p.anomalyThreshold
  }

  /** ctx' looks worse: more spent, more recent requests, fewer known addresses, a higher score. */
  predicate Worse(ctx: Context, ctx': Context) {
    && (ctx.usdValue.Some? ==> ctx'.usdValue.Some? && ctx.usdValue.value <= ctx'.usdValue.value)
    && ctx.dailyUsed <= ctx'.dailyUsed && ctx.recentCount <= ctx'.recentCount
    && ctx'.known <= ctx.known
    && (ctx.anomalyScore.Some? ==> ctx'.anomalyScore.Some? && ctx.anomalyScore.value <= ctx'.anomalyScore.value)
    && ctx'.minute == ctx.minute
    && (ctx'.failClosed ==> ctx.failClosed)
  }

  /** A tighter policy or a worse context never softens the verdict. */
  lemma VerdictIsMonotone(p: Policy, p': Policy, t: Transfer, ctx: Context, ctx': Context, d: Decision, d': Decision)
    requires Tighter(p, p') && Worse(ctx, ctx')
    requires Harshest(d, p, t, ctx) && Harshest(d', p', t, ctx')
    ensures Rank(d) <= Rank(d')
  {
  }

  /**
    Removing the last entry of an allow list lifts it altogether. The verdict softens exactly
    when the allow list objected and no other rule rejects.
   */
  lemma EmptyAllowListSoftens(p: Policy, t: Transfer, ctx: Context, d: Decision, d': Decision)
    requires Harshest(d, p, t, ctx) && Harshest(d', p.(allowList := []), t, ctx)
    ensures Rank(d') < Rank(d) <==>
      Fires(AllowList, p, t, ctx) && forall rule :: rule != AllowList && Fires(rule, p, t, ctx) ==>
        Severity(rule) != Reject
  {
  }

  /** The anomaly score and the counterparty history can hold a transfer back, never let it pass. */
  lemma AdvisoryNeverApproves(p: Policy, t: Transfer, ctx: Context, score: Option<real>, known: set<string>,
      d: Decision, d': Decision)
    requires Harshest(d, p, t, ctx) && Harshest(d', p, t, ctx.(anomalyScore := score, known := known))
    ensures d == Reject <==> d' == Reject
    ensures d == Approve && d' != Approve ==> d' == Escalate
  {
  }
}
