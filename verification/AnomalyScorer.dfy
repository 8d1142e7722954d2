/**
  The rule-based anomaly score of services/anomaly-scorer (scorer.py, baseline.py), over reals.
  The population standard deviation comes from Python's statistics module and is a parameter.
 */
module AnomalyScorer {
  import opened Wrappers
  import opened Text
  import opened SignedTx
  import opened Confidence

  datatype Factor = ValueOutlier | NewCounterparty | FrequencySpike | CounterpartyConcentration

  const FACTORS: seq<Factor> := [ValueOutlier, NewCounterparty, FrequencySpike, CounterpartyConcentration]

  function Weight(f: Factor): real {
    match f
    case ValueOutlier => 0.60
    case NewCounterparty => 0.25
    case FrequencySpike => 0.10
    case CounterpartyConcentration => 0.05
  }

  const WINDOW_DAYS: nat := 90
  const MINUTES_PER_DAY: real := 1440.0

  datatype Baseline = Baseline(txCount: nat, mean: real, std: real, perDay: real, topShare: real)

  datatype Payment = Payment(value: nat, to: Option<string>)

  // ------------------------------------------------------------------- baseline.py

  function Total(txs: seq<Payment>): nat { if txs == [] then 0 else Total(txs[..|txs| - 1]) + txs[|txs| - 1].value }

  /** How many of the payments went to an address. */
  function Count(txs: seq<Payment>, to: string): nat {
    if txs == [] then 0
    else Count(txs[..|txs| - 1], to) + if LowerOpt(txs[|txs| - 1].to) == Some(to) then 1 else 0
  }

  /** One more payment adds its value, and one to the count of its address in whatever case it is written. */
  lemma OneMorePayment(txs: seq<Payment>, p: Payment, to: string)
    ensures Total(txs + [p]) == Total(txs) + p.value && Total([]) == 0
    ensures Count(txs + [p], to) ==
              Count(txs, to) + if p.to.Some? && p.to.value != "" && Lower(p.to.value) == to then 1 else 0
    ensures Count([], to) == 0
  {
    assert (txs + [p])[..|txs|] == txs;
  }

  lemma {:induction false} CountIsBounded(txs: seq<Payment>, to: string)
    ensures Count(txs, to) <= |txs|
  {
    if txs != [] {
      CountIsBounded(txs[..|txs| - 1], to);
    }
  }

  /** top is how often the most frequent address occurs. */
  ghost predicate IsTop(txs: seq<Payment>, top: nat) {
    && (forall to :: Count(txs, to) <= top)
    && (top == 0 || exists to :: Count(txs, to) == top)
  }

  /** What aggregate promises of a baseline. */
  ghost predicate Describes(b: Baseline, txs: seq<Payment>, std: real) {
    if txs == [] then b == Baseline(0, 0.0, 0.0, 0.0, 0.0)
    else
      var n := |txs| as real;
      && b.txCount == |txs| && b.mean == Total(txs) as real / n && b.perDay == n / WINDOW_DAYS as real
      && b.std == (if |txs| > 1 then std else 0.0)
      && exists top: nat :: IsTop(txs, top) && b.topShare == top as real / n
  }

  lemma TopIsAShare(txs: seq<Payment>, top: nat)
    requires txs != [] && IsTop(txs, top)
    ensures 0.0 <= top as real / |txs| as real <= 1.0
  {
    if top > 0 {
      var to :| Count(txs, to) == top;
      CountIsBounded(txs, to);
    }
  }

  method BuildBaseline(txs: seq<Payment>, std: real) returns (b: Baseline)
    requires std >= 0.0
    ensures Describes(b, txs, std)
    ensures b.perDay == |txs| as real / 90.0
  {
    var n := |txs|;
    if n == 0 {
      return Baseline(0, 0.0, 0.0, 0.0, 0.0);
    }
    var counts := CountAll(txs);
    var total := Sum(txs);
    var top := MaxValue(counts);
    assert IsTop(txs, top) by {
      if top > 0 {
        var key :| key in counts && counts[key] == top;
        assert Count(txs, key) == top;
      }
    }
    return Baseline(n, total as real / n as real, if n > 1 then std else 0.0, n as real / WINDOW_DAYS as real,
                    top as real / n as real);
  }

  method Sum(txs: seq<Payment>) returns (total: nat)
    ensures total == Total(txs)
  {
    total := 0;
    for i := 0 to |txs|
      invariant total == Total(txs[..i])
    {
      assert txs[..i + 1][..i] == txs[..i];
      total := total + txs[i].value;
    }
    assert txs[..|txs|] == txs;
  }

  method CountAll(txs: seq<Payment>) returns (counts: map<string, nat>)
    ensures forall to :: Count(txs, to) == if to in counts then counts[to] else 0
  {
    counts := map[];
    for i := 0 to |txs|
      invariant forall to :: Count(txs[..i], to) == if to in counts then counts[to] else 0
    {
      assert txs[..i + 1][..i] == txs[..i];
      var to := LowerOpt(txs[i].to);
      if to.Some? {
        counts := counts[to.value := (if to.value in counts then counts[to.value] else 0) + 1];
      }
    }
    assert txs[..|txs|] == txs;
  }

  method MaxValue(counts: map<string, nat>) returns (top: nat)
    ensures forall key <- counts :: counts[key] <= top
    ensures top == 0 || exists key <- counts :: counts[key] == top
  {
    top := 0;
    var rest := counts.Keys;
    while rest != {}
      invariant rest <= counts.Keys
      invariant forall key <- counts :: key in rest || counts[key] <= top
      invariant top == 0 || exists key <- counts :: counts[key] == top
      decreases rest
    {
      var key :| key in rest;
      if counts[key] > top {
        top := counts[key];
      }
      rest := rest - {key};
    }
  }

  // --------------------------------------------------------------------- scorer.py

  /** Squash an unbounded deviation into -1..1. */
  function Squash(x: real): real { x / (1.0 + Abs(x)) }

  function Abs(x: real): real { if x < 0.0 then -x else x }

  datatype Observation = Observation(value: nat, recent: nat, windowMinutes: nat, isNew: bool)

  /** Requests the baseline leads one to expect in the window. */
  function Expected(b: Baseline, windowMinutes: nat): real { b.perDay * (windowMinutes as real / MINUTES_PER_DAY) }

  /** Contribution of a factor before weighting, on a scale to 100. */
  function Component(f: Factor, b: Baseline, o: Observation): real {
    match f
    case ValueOutlier =>
      if b.txCount >= 5 && b.std > 0.0 then Squash(Abs((o.value as real - b.mean) / b.std)) * 100.0 else 0.0
    case NewCounterparty => if o.isNew then 100.0 else 0.0
    case FrequencySpike =>
      if b.txCount > 0 && Expected(b, o.windowMinutes) > 0.0
        then Squash(o.recent as real / Expected(b, o.windowMinutes) - 1.0) * 100.0 else 0.0
    case CounterpartyConcentration =>
      if b.txCount >= 5 then Clamp(b.topShare * 30.0, 0.0, 100.0) else 0.0
  }

  function Weighted(b: Baseline, o: Observation, fs: seq<Factor>): real {
    if fs == [] then 0.0
    else Weighted(b, o, fs[..|fs| - 1]) + Clamp(Component(fs[|fs| - 1], b, o), 0.0, 100.0) * Weight(fs[|fs| - 1])
  }

  function Score(b: Baseline, o: Observation): real { Round2(Clamp(Weighted(b, o, FACTORS), 0.0, 100.0)) }

  /** The components, filled in one by one. */
  method Components(b: Baseline, o: Observation) returns (components: map<Factor, real>)
    ensures forall f :: f in components && components[f] == Component(f, b, o)
  {
    hide Squash, Abs, Expected;
    components := map[];
    if b.txCount >= 5 && b.std > 0.0 {
      var z := Abs((o.value as real - b.mean) / b.std);
      components := components[ValueOutlier := Squash(z) * 100.0];
    } else {
      components := components[ValueOutlier := 0.0];
    }
    components := components[NewCounterparty := if o.isNew then 100.0 else 0.0];
    if b.txCount > 0 {
      var expected := Expected(b, o.windowMinutes);
      if expected > 0.0 {
        var spike := o.recent as real / expected;
        components := components[FrequencySpike := Squash(spike - 1.0) * 100.0];
      } else {
        components := components[FrequencySpike := 0.0];
      }
    } else {
      components := components[FrequencySpike := 0.0];
    }
    if b.txCount >= 5 {
      var expectedDiversity := 1.0 - b.topShare;
      components := components[CounterpartyConcentration := Clamp((1.0 - expectedDiversity) * 30.0, 0.0, 100.0)];
    } else {
      components := components[CounterpartyConcentration := 0.0];
    }
    forall f
      ensures f in components && components[f] == Component(f, b, o)
    {
      match f
      case ValueOutlier =>
      case NewCounterparty =>
      case FrequencySpike =>
      case CounterpartyConcentration =>
    }
  }

  /** score_transaction: the clamped components added up by weight. */
  method ScoreTransaction(b: Baseline, o: Observation) returns (score: real, anomalous: bool)
    ensures score == Score(b, o) && (anomalous <==> score >= 70.0)
  {
    hide Component, Weight, Clamp, Round2;
    var components := Components(b, o);
    var total := 0.0;
    for i := 0 to |FACTORS|
      invariant total == Weighted(b, o, FACTORS[..i])
    {
      assert FACTORS[..i + 1][..i] == FACTORS[..i];
      total := total + Clamp(components[FACTORS[i]], 0.0, 100.0) * Weight(FACTORS[i]);
    }
    assert FACTORS[..|FACTORS|] == FACTORS;
    score := Round2(Clamp(total, 0.0, 100.0));
    anomalous := score >= 70.0;
  }

  // ----------------------------------------------------------------- bounds, shape

  lemma QuotientIsMonotone(x: real, y: real, d: real)
    requires x <= y && d > 0.0
    ensures x / d <= y / d
    ensures x < y ==> x / d < y / d
  {
  }

  lemma CrossDivided(x: real, d: real, y: real, e: real)
    requires d > 0.0 && e > 0.0 && x * e <= y * d
    ensures x / d <= y / e
  {
  }

  lemma SquashIsMonotone(x: real, y: real)
    requires x <= y
    ensures Squash(x) <= Squash(y)
  {
    assert x * (1.0 + Abs(y)) <= y * (1.0 + Abs(x));
    CrossDivided(x, 1.0 + Abs(x), y, 1.0 + Abs(y));
  }

  lemma FourFactors(b: Baseline, o: Observation)
    ensures Weighted(b, o, FACTORS) ==
      Clamp(Component(ValueOutlier, b, o), 0.0, 100.0) * 0.60
        + Clamp(Component(NewCounterparty, b, o), 0.0, 100.0) * 0.25
      + Clamp(Component(FrequencySpike, b, o), 0.0, 100.0) * 0.10
      + Clamp(Component(CounterpartyConcentration, b, o), 0.0, 100.0) * 0.05
  {
    hide Component, Clamp;
    var one, two, three := [ValueOutlier], [ValueOutlier, NewCounterparty],
      [ValueOutlier, NewCounterparty, FrequencySpike];
    assert FACTORS[..3] == three && three[..2] == two && two[..1] == one && one[..0] == [];
    assert Weighted(b, o, one) == Clamp(Component(ValueOutlier, b, o), 0.0, 100.0) * 0.60;
    assert Weighted(b, o, two) == Weighted(b, o, one) + Clamp(Component(NewCounterparty, b, o), 0.0, 100.0) * 0.25;
    assert Weighted(b, o, three) == Weighted(b, o, two) + Clamp(Component(FrequencySpike, b, o), 0.0, 100.0) * 0.10;
  }

  /** Of a deviation of d from a spread s, the part d of d + s. */
  lemma SquashOfQuotient(d: real, s: real)
    requires d >= 0.0 && s > 0.0
    ensures Squash(d / s) == d / (s + d)
  {
    var z := d / s;
    assert z >= 0.0 && z * s == d;
    SameQuotient(z, 1.0 + z, d, s + d, s);
  }

  lemma SameQuotient(x: real, d: real, y: real, e: real, f: real)
    requires d > 0.0 && f > 0.0 && y == x * f && e == d * f
    ensures x / d == y / e
  {
    assert e > 0.0;
    var q := x / d;
    assert q * d == x;
    assert q * e == q * d * f == y;
  }

  lemma ShareIsBounded(x: real, y: real)
    requires 0.0 <= x && 0.0 < y && x <= y
    ensures 0.0 <= 100.0 * (x / y) <= 100.0
  {
    QuotientIsMonotone(x, y, y);
    QuotientIsMonotone(0.0, x, y);
  }

  lemma SquashOfZero()
    ensures Squash(0.0) == 0.0
  {
  }

  lemma ExcessIsQuotient(n: real, e: real)
    requires e > 0.0
    ensures n / e - 1.0 == (n - e) / e
    ensures e / e == 1.0
  {
    var q := n / e;
    assert q * e == n;
    SameQuotient(q - 1.0, 1.0, n - e, e, e);
  }

  lemma ValueInFull(b: Baseline, o: Observation)
    ensures Clamp(Component(ValueOutlier, b, o), 0.0, 100.0) ==
              var d := if o.value as real >= b.mean then o.value as real - b.mean else b.mean - o.value as real;
              if b.txCount < 5 || b.std <= 0.0 then 0.0 else 100.0 * (d / (b.std + d))
  {
    hide Squash;
    if b.txCount >= 5 && b.std > 0.0 {
      var x := o.value as real - b.mean;
      AbsOfQuotient(x, b.std);
      SquashOfQuotient(Abs(x), b.std);
      ShareIsBounded(Abs(x), b.std + Abs(x));
    }
  }

  lemma SpikeComponent(b: Baseline, o: Observation)
    requires b.txCount > 0 && Expected(b, o.windowMinutes) > 0.0
    ensures var e, n := Expected(b, o.windowMinutes), o.recent as real;
            Component(FrequencySpike, b, o) == Squash((n - e) / e) * 100.0
  {
    hide Squash, Expected;
    ExcessIsQuotient(o.recent as real, Expected(b, o.windowMinutes));
  }

  /** Below what is expected the squashed excess is negative. */
  lemma FrequencyInFull(b: Baseline, o: Observation)
    ensures Clamp(Component(FrequencySpike, b, o), 0.0, 100.0) ==
              var expected := b.perDay * (o.windowMinutes as real / 1440.0);
              if b.txCount == 0 || expected <= 0.0 || o.recent as real <= expected then 0.0
              else 100.0 * ((o.recent as real - expected) / o.recent as real)
  {
    assert Expected(b, o.windowMinutes) == b.perDay * (o.windowMinutes as real / 1440.0);
    hide Squash, Expected, Component;
    var e, n := Expected(b, o.windowMinutes), o.recent as real;
    if b.txCount > 0 && e > 0.0 {
      SpikeComponent(b, o);
      if n <= e {
        QuotientIsMonotone(n - e, 0.0, e);
        SquashIsMonotone((n - e) / e, 0.0);
        SquashOfZero();
      } else {
        SquashOfQuotient(n - e, e);
        ShareIsBounded(n - e, n);
      }
    } else {
      NoSpike(b, o);
    }
  }

  lemma NoSpike(b: Baseline, o: Observation)
    requires b.txCount == 0 || Expected(b, o.windowMinutes) <= 0.0
    ensures Component(FrequencySpike, b, o) == 0.0
  {
  }

  /**
    The four components in full, each from 0 to 100: how far the value is from the mean, whether the
    counterparty is new, how far the request count is above what is expected, and how concentrated
    the counterparties are.
   */
  lemma ComponentsInFull(b: Baseline, o: Observation)
    ensures Clamp(Component(ValueOutlier, b, o), 0.0, 100.0) ==
              var d := if o.value as real >= b.mean then o.value as real - b.mean else b.mean - o.value as real;
              if b.txCount < 5 || b.std <= 0.0 then 0.0 else 100.0 * (d / (b.std + d))
    ensures Clamp(Component(NewCounterparty, b, o), 0.0, 100.0) == if o.isNew then 100.0 else 0.0
    ensures Clamp(Component(FrequencySpike, b, o), 0.0, 100.0) ==
              var expected := b.perDay * (o.windowMinutes as real / 1440.0);
              if b.txCount == 0 || expected <= 0.0 || o.recent as real <= expected then 0.0
              else 100.0 * ((o.recent as real - expected) / o.recent as real)
    ensures Clamp(Component(CounterpartyConcentration, b, o), 0.0, 100.0) ==
              if b.txCount < 5 || b.topShare <= 0.0 then 0.0
              else if 30.0 * b.topShare >= 100.0 then 100.0 else 30.0 * b.topShare
  {
    ValueInFull(b, o);
    FrequencyInFull(b, o);
  }

  /** The score is the weighted sum of the components, to the nearest hundredth. */
  lemma ScoreIsNearest(b: Baseline, o: Observation)
    ensures var exact := Clamp(Component(ValueOutlier, b, o), 0.0, 100.0) * 0.60
                         + Clamp(Component(NewCounterparty, b, o), 0.0, 100.0) * 0.25
                         + Clamp(Component(FrequencySpike, b, o), 0.0, 100.0) * 0.10
                         + Clamp(Component(CounterpartyConcentration, b, o), 0.0, 100.0) * 0.05;
            && 0.0 <= exact <= 100.0
            && TwoDecimals(Score(b, o)) && -0.005 <= Score(b, o) - exact <= 0.005
            && (Score(b, o) - exact in {-0.005, 0.005} ==> (Score(b, o) * 100.0).Floor % 2 == 0)
  {
    hide Component, Round2, TwoDecimals, Weighted;
    FourFactors(b, o);
    Round2IsNearest(Clamp(Weighted(b, o, FACTORS), 0.0, 100.0));
  }

  /**
    Over any baseline that aggregate builds, a known counterparty scores at most 71.5 and an
    unseen one at most 96.5.
   */
  lemma ScoreIsBounded(txs: seq<Payment>, std: real, b: Baseline, o: Observation)
    requires Describes(b, txs, std)
    ensures 0.0 <= Score(b, o) <= if o.isNew then 96.5 else 71.5
  {
    assert 0.0 <= b.topShare <= 1.0 by {
      if txs != [] {
        var top: nat :| IsTop(txs, top) && b.topShare == top as real / |txs| as real;
        TopIsAShare(txs, top);
      }
    }
    FourFactors(b, o);
    hide Describes, Round2, Squash, Weighted;
    var total := Weighted(b, o, FACTORS);
    assert 0.0 <= total <= if o.isNew then 96.5 else 71.5;
    Round2IsMonotone(0.0, total);
    Round2IsMonotone(total, if o.isNew then 96.5 else 71.5);
    RoundingKeepsTwoDecimals(0.0);
    RoundingKeepsTwoDecimals(96.5);
    RoundingKeepsTwoDecimals(71.5);
  }

  /** Further from the mean, more recent requests or an unseen counterparty never lower the score. */
  lemma ScoreIsMonotone(b: Baseline, o: Observation, o': Observation)
    requires Abs(o.value as real - b.mean) <= Abs(o'.value as real - b.mean)
    requires o.recent <= o'.recent && (o.isNew ==> o'.isNew) && o.windowMinutes == o'.windowMinutes
    ensures Score(b, o) <= Score(b, o')
  {
    ValueIsMonotone(b, o, o');
    FrequencyIsMonotone(b, o, o');
    FourFactors(b, o);
    FourFactors(b, o');
    assert Component(NewCounterparty, b, o) <= Component(NewCounterparty, b, o');
    assert Component(CounterpartyConcentration, b, o) == Component(CounterpartyConcentration, b, o');
    hide Component, Round2, Weighted;
    Round2IsMonotone(Clamp(Weighted(b, o, FACTORS), 0.0, 100.0), Clamp(Weighted(b, o', FACTORS), 0.0, 100.0));
  }

  lemma AbsOfQuotient(x: real, d: real)
    requires d > 0.0
    ensures Abs(x / d) == Abs(x) / d
  {
  }

  lemma ValueIsMonotone(b: Baseline, o: Observation, o': Observation)
    requires Abs(o.value as real - b.mean) <= Abs(o'.value as real - b.mean)
    ensures Component(ValueOutlier, b, o) <= Component(ValueOutlier, b, o')
  {
    if b.std > 0.0 {
      var x, y := o.value as real - b.mean, o'.value as real - b.mean;
      AbsOfQuotient(x, b.std);
      AbsOfQuotient(y, b.std);
      QuotientIsMonotone(Abs(x), Abs(y), b.std);
      SquashIsMonotone(Abs(x / b.std), Abs(y / b.std));
    }
  }

  lemma FrequencyIsMonotone(b: Baseline, o: Observation, o': Observation)
    requires o.recent <= o'.recent && o.windowMinutes == o'.windowMinutes
    ensures Component(FrequencySpike, b, o) <= Component(FrequencySpike, b, o')
  {
    hide Squash, Expected;
    var expected := Expected(b, o.windowMinutes);
    if expected > 0.0 {
      var x, y := o.recent as real / expected, o'.recent as real / expected;
      QuotientIsMonotone(o.recent as real, o'.recent as real, expected);
      SquashIsMonotone(x - 1.0, y - 1.0);
    }
  }
}
