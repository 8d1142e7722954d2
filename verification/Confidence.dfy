/** The aggregate confidence of services/orchestrator/src/orchestrator/confidence.py, over reals. */
module Confidence {
  import opened Wrappers

  datatype RiskLevel = Low | Medium | High | Critical

  function RiskFactor(r: RiskLevel): real {
    match r
    case Low => 1.0
    case Medium => 0.85
    case High => 0.6
    case Critical => 0.3
  }

  function Clamp(x: real, lo: real, hi: real): real { if x < lo then lo else if x > hi then hi else x }

  /** Python's round to an integer: ties go to the even neighbour. */
  function RoundHalfEven(x: real): int {
    var below := x.Floor;
    var rest := x - below as real;
    if rest < 0.5 || (rest == 0.5 && below % 2 == 0) then below else below + 1
  }

  function Round2(x: real): real { RoundHalfEven(x * 100.0) as real / 100.0 }

  /** A number with at most two decimals, as the anomaly scorer and round(…, 2) return. */
  predicate TwoDecimals(x: real) { (x * 100.0).Floor as real == x * 100.0 }

  /** The nearest whole number, and of two equally near ones the even one. */
  lemma RoundsToNearest(x: real)
    ensures -0.5 <= RoundHalfEven(x) as real - x <= 0.5
    ensures RoundHalfEven(x) as real - x in {-0.5, 0.5} ==> RoundHalfEven(x) % 2 == 0
  {
  }

  /** Likewise to the nearest hundredth. */
  lemma Round2IsNearest(x: real)
    ensures TwoDecimals(Round2(x)) && -0.005 <= Round2(x) - x <= 0.005
    ensures Round2(x) - x in {-0.005, 0.005} ==> (Round2(x) * 100.0).Floor % 2 == 0
  {
    RoundsToNearest(x * 100.0);
  }

  lemma RoundingIsMonotone(x: real, y: real)
    requires x <= y
    ensures RoundHalfEven(x) <= RoundHalfEven(y)
  {
  }

  lemma RoundingKeepsTwoDecimals(x: real)
    requires TwoDecimals(x)
    ensures Round2(x) == x
  {
  }

  lemma Round2IsMonotone(x: real, y: real)
    requires x <= y
    ensures Round2(x) <= Round2(y)
  {
    RoundingIsMonotone(x * 100.0, y * 100.0);
  }

  function ClassifierFactor(conf: Option<real>): real {
    if conf.None? then 1.0 else 0.5 + 0.5 * Clamp(conf.value, 0.0, 1.0)
  }

  function AnomalyFactor(score: Option<real>): real {
    if score.None? then 1.0 else 1.0 - Clamp(score.value, 0.0, 100.0) / 100.0
  }

  function LevelFactor(level: Option<RiskLevel>): real {
    if level.None? then 1.0 else RiskFactor(level.value)
  }

  function Product(a: real, b: real, c: real): real { 100.0 * a * b * c }

  function Aggregate(classifier: Option<real>, anomaly: Option<real>, level: Option<RiskLevel>, drain: bool): real {
    if drain then 0.0
    else Round2(Product(ClassifierFactor(classifier), AnomalyFactor(anomaly), LevelFactor(level)))
  }

  /** What each signal leaves of the confidence; one that is missing leaves all of it. */
  lemma FactorsInFull(classifier: Option<real>, anomaly: Option<real>, level: Option<RiskLevel>)
    ensures ClassifierFactor(classifier) ==
              match classifier
              case None => 1.0
              case Some(c) => if c <= 0.0 then 0.5 else if c >= 1.0 then 1.0 else (1.0 + c) / 2.0
    ensures AnomalyFactor(anomaly) ==
              match anomaly
              case None => 1.0
              case Some(s) => if s <= 0.0 then 1.0 else if s >= 100.0 then 0.0 else (100.0 - s) / 100.0
    ensures LevelFactor(level) ==
              match level
              case None => 1.0
              case Some(Low) => 1.0
              case Some(Medium) => 0.85
              case Some(High) => 0.6
              case Some(Critical) => 0.3
  {
  }

  /** The confidence is 0 on a drain, and otherwise 100 times the factors, to the nearest hundredth. */
  lemma AggregateIsNearest(classifier: Option<real>, anomaly: Option<real>, level: Option<RiskLevel>, drain: bool)
    ensures var exact := 100.0 * ClassifierFactor(classifier) * AnomalyFactor(anomaly) * LevelFactor(level);
            var r := Aggregate(classifier, anomaly, level, drain);
            if drain then r == 0.0
            else TwoDecimals(r) && -0.005 <= r - exact <= 0.005
                 && (r - exact in {-0.005, 0.005} ==> (r * 100.0).Floor % 2 == 0)
  {
    hide Round2, TwoDecimals, ClassifierFactor, AnomalyFactor, LevelFactor;
    Round2IsNearest(Product(ClassifierFactor(classifier), AnomalyFactor(anomaly), LevelFactor(level)));
  }

  lemma FactorsAreFractions(classifier: Option<real>, anomaly: Option<real>, level: Option<RiskLevel>)
    ensures 0.5 <= ClassifierFactor(classifier) <= 1.0
    ensures 0.0 <= AnomalyFactor(anomaly) <= 1.0
    ensures 0.3 <= LevelFactor(level) <= 1.0
  {
  }

  lemma ProductIsMonotone(a: real, b: real, c: real, a': real, b': real, c': real)
    requires 0.0 <= a <= a' && 0.0 <= b <= b' && 0.0 <= c <= c'
    ensures 0.0 <= Product(a, b, c) <= Product(a', b', c')
  {
  }

  lemma ProductOfOne(x: real)
    ensures Product(x, 1.0, 1.0) == 100.0 * x && Product(1.0, x, 1.0) == 100.0 * x && Product(1.0, 1.0, x) == 100.0 * x
  {
  }

  function Severity(r: RiskLevel): nat {
    match r
    case Low => 0
    case Medium => 1
    case High => 2
    case Critical => 3
  }

  /** Signals no better than the given ones; a signal that is missing counts as its best value. */
  predicate LessAgreement(classifier': Option<real>, classifier: Option<real>) {
    classifier.None? || (classifier'.Some? && classifier'.value <= classifier.value)
  }

  predicate MoreAnomaly(anomaly': Option<real>, anomaly: Option<real>) {
    anomaly.None? || (anomaly'.Some? && anomaly'.value >= anomaly.value)
  }

  predicate MoreRisk(level': Option<RiskLevel>, level: Option<RiskLevel>) {
    level.None? || (level'.Some? && Severity(level'.value) >= Severity(level.value))
  }

  lemma FactorsFollowSignals(
      classifier: Option<real>, anomaly: Option<real>, level: Option<RiskLevel>,
      classifier': Option<real>, anomaly': Option<real>, level': Option<RiskLevel>)
    requires LessAgreement(classifier', classifier) && MoreAnomaly(anomaly', anomaly) && MoreRisk(level', level)
    ensures ClassifierFactor(classifier') <= ClassifierFactor(classifier)
    ensures AnomalyFactor(anomaly') <= AnomalyFactor(anomaly)
    ensures LevelFactor(level') <= LevelFactor(level)
  {
  }

  /** Less classifier agreement, more anomaly, more risk or a drain never raise the confidence. */
  lemma ConfidenceIsMonotone(
      classifier: Option<real>, anomaly: Option<real>, level: Option<RiskLevel>, drain: bool,
      classifier': Option<real>, anomaly': Option<real>, level': Option<RiskLevel>, drain': bool)
    requires LessAgreement(classifier', classifier) && MoreAnomaly(anomaly', anomaly) && MoreRisk(level', level)
    requires drain ==> drain'
    ensures 0.0 <= Aggregate(classifier', anomaly', level', drain')
                <= Aggregate(classifier, anomaly, level, drain) <= 100.0
  {
    hide Aggregate;
    FactorsFollowSignals(classifier, anomaly, level, classifier', anomaly', level');
    AggregateIsMonotone(classifier, anomaly, level, drain, classifier', anomaly', level', drain');
  }

  lemma AggregateIsMonotone(
      classifier: Option<real>, anomaly: Option<real>, level: Option<RiskLevel>, drain: bool,
      classifier': Option<real>, anomaly': Option<real>, level': Option<RiskLevel>, drain': bool)
    requires ClassifierFactor(classifier') <= ClassifierFactor(classifier)
    requires AnomalyFactor(anomaly') <= AnomalyFactor(anomaly)
    requires LevelFactor(level') <= LevelFactor(level)
    requires drain ==> drain'
    ensures 0.0 <= Aggregate(classifier', anomaly', level', drain')
                <= Aggregate(classifier, anomaly, level, drain) <= 100.0
  {
    hide ClassifierFactor, AnomalyFactor, LevelFactor, Round2, Product;
    FactorsAreFractions(classifier, anomaly, level);
    FactorsAreFractions(classifier', anomaly', level');
    var a, b, c := ClassifierFactor(classifier), AnomalyFactor(anomaly), LevelFactor(level);
    var a', b', c' := ClassifierFactor(classifier'), AnomalyFactor(anomaly'), LevelFactor(level');
    ProductIsMonotone(a', b', c', a, b, c);
    ProductIsMonotone(a, b, c, 1.0, 1.0, 1.0);
    ProductOfOne(1.0);
    Round2IsMonotone(Product(a', b', c'), Product(a, b, c));
    Round2IsMonotone(0.0, Product(a', b', c'));
    Round2IsMonotone(0.0, Product(a, b, c));
    Round2IsMonotone(Product(a, b, c), 100.0);
    RoundingKeepsTwoDecimals(0.0);
    RoundingKeepsTwoDecimals(100.0);
  }

  /**
    A confidence of at least t bounds every advisory signal: no drain, a risk factor of at
    least t/100, and a two-decimal anomaly score of at most 100 - t.
   */
  lemma ConfidenceBoundsSignals(classifier: Option<real>, anomaly: Option<real>, level: Option<RiskLevel>, drain: bool,
      t: real)
    requires TwoDecimals(t) && 0.0 < t <= Aggregate(classifier, anomaly, level, drain)
    ensures !drain
    ensures anomaly.Some? && TwoDecimals(anomaly.value) ==> anomaly.value <= 100.0 - t
    ensures level.Some? ==> 100.0 * RiskFactor(level.value) >= t
    ensures Round2(100.0 * ClassifierFactor(classifier)) >= t
  {
    hide Round2, ClassifierFactor, AnomalyFactor, LevelFactor, Product, RiskFactor;
    FactorsAreFractions(classifier, anomaly, level);
    var a, b, c := ClassifierFactor(classifier), AnomalyFactor(anomaly), LevelFactor(level);
    ProductIsMonotone(a, b, c, a, 1.0, 1.0);
    ProductIsMonotone(a, b, c, 1.0, b, 1.0);
    ProductIsMonotone(a, b, c, 1.0, 1.0, c);
    ProductOfOne(a);
    ProductOfOne(b);
    ProductOfOne(c);
    Round2IsMonotone(Product(a, b, c), 100.0 * a);
    Round2IsMonotone(Product(a, b, c), 100.0 * b);
    Round2IsMonotone(Product(a, b, c), 100.0 * c);
    Round2IsMonotone(100.0 * b, 100.0);
    AnomalyFactorRounds(anomaly);
    LevelFactorRounds(level);
  }

  lemma AnomalyFactorRounds(anomaly: Option<real>)
    ensures anomaly.Some? && TwoDecimals(anomaly.value) ==>
              Round2(100.0 * AnomalyFactor(anomaly)) == 100.0 - Clamp(anomaly.value, 0.0, 100.0)
    ensures Round2(100.0) == 100.0
  {
    hide Round2, TwoDecimals;
    HundredHasTwoDecimals();
    RoundingKeepsTwoDecimals(100.0);
    if anomaly.Some? && TwoDecimals(anomaly.value) {
      var score := Clamp(anomaly.value, 0.0, 100.0);
      ComplementHasTwoDecimals(anomaly.value);
      assert 100.0 * AnomalyFactor(anomaly) == 100.0 - score;
      RoundingKeepsTwoDecimals(100.0 - score);
    }
  }

  lemma ComplementHasTwoDecimals(x: real)
    requires TwoDecimals(x)
    ensures TwoDecimals(100.0 - Clamp(x, 0.0, 100.0))
  {
    if x < 0.0 {
      HundredHasTwoDecimals();
    } else if x <= 100.0 {
      DifferenceIsWhole(10000, x * 100.0);
      assert (100.0 - x) * 100.0 == 10000.0 - x * 100.0;
    }
  }

  lemma DifferenceIsWhole(m: int, y: real)
    requires y.Floor as real == y
    ensures (m as real - y).Floor as real == m as real - y
  {
    assert m as real - y == (m - y.Floor) as real;
  }

  lemma HundredHasTwoDecimals()
    ensures TwoDecimals(100.0)
  {
  }

  lemma LevelFactorRounds(level: Option<RiskLevel>)
    ensures Round2(100.0 * LevelFactor(level)) == 100.0 * LevelFactor(level)
    ensures level.Some? ==> LevelFactor(level) == RiskFactor(level.value)
  {
  }
}
