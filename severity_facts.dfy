/** What `calculateSmartSeverity` guarantees about the scores it returns: how the maximum
    is formed, when the score is zero, its range, its monotonicity in the answers, the
    role of the symptom count, and the wording of its `details`. */
module SeverityFacts {

  import opened Basics
  import opened Text
  import opened Lists
  import opened Diseases
  import opened SeverityRules
  import opened SeverityEngine

  /** The sum of the weights of all formulas of `ds`. */
  function TotalWeight(ds: seq<Disease>): real {
    if ds == [] then 0.0 else TotalWeight(ds[..|ds| - 1]) + WeightSum(ds[|ds| - 1].formula)
  }

  /** Every weight of the formula is non-negative. */
  predicate NonNegativeFormula(es: Formula) {
    forall j :: 0 <= j < |es| ==> es[j].1 >= 0.0
  }

  /** Every weight of every formula is non-negative, as in the shipped catalogue. */
  predicate NonNegativeWeights(ds: seq<Disease>) {
    forall i :: 0 <= i < |ds| ==> NonNegativeFormula(ds[i].formula)
  }

  /** No key of the formula is answered in `r`. */
  predicate Unanswered(r: Responses, es: Formula) {
    forall j :: 0 <= j < |es| ==> es[j].0 !in r
  }

  /** No formula key of `ds` is answered in `r`. */
  predicate NoneAnswered(r: Responses, ds: seq<Disease>) {
    forall i :: 0 <= i < |ds| ==> Unanswered(r, ds[i].formula)
  }

  // ---------------------------------------------------------------------------
  // The maximum

  lemma {:induction false} FoldMaxPossible(t: Tally, r: Responses, es: Formula)
    ensures Fold(t, r, es).maxPossible == t.maxPossible + WeightSum(es)
  {
    if es != [] {
      FoldMaxPossible(t, r, es[..|es| - 1]);
    }
  }

  /** `maxPossibleScore` is the sum of every weight of every matched formula, a key shared by
      two diseases counting twice, whatever was answered. */
  lemma {:induction false} MaxPossibleIsTotalWeight(r: Responses, ds: seq<Disease>)
    ensures TallyOf(r, ds).maxPossible == TotalWeight(ds)
  {
    if ds != [] {
      MaxPossibleIsTotalWeight(r, ds[..|ds| - 1]);
      FoldMaxPossible(TallyOf(r, ds[..|ds| - 1]), r, ds[|ds| - 1].formula);
    }
  }

  /** Two response objects lead to the same maximum. */
  lemma MaxPossibleIgnoresAnswers(r1: Responses, r2: Responses, ds: seq<Disease>)
    ensures TallyOf(r1, ds).maxPossible == TallyOf(r2, ds).maxPossible
  {
    MaxPossibleIsTotalWeight(r1, ds);
    MaxPossibleIsTotalWeight(r2, ds);
  }

  // ---------------------------------------------------------------------------
  // Unanswered formulas

  lemma {:induction false} FoldUnanswered(t: Tally, r: Responses, es: Formula)
    requires Unanswered(r, es)
    ensures Fold(t, r, es).total == t.total && Fold(t, r, es).criticals == t.criticals
  {
    if es != [] {
      FoldUnanswered(t, r, es[..|es| - 1]);
    }
  }

  lemma {:induction false} TallyUnanswered(r: Responses, ds: seq<Disease>)
    requires NoneAnswered(r, ds)
    ensures TallyOf(r, ds).total == 0.0 && TallyOf(r, ds).criticals == []
  {
    if ds != [] {
      assert NoneAnswered(r, ds[..|ds| - 1]);
      TallyUnanswered(r, ds[..|ds| - 1]);
      FoldUnanswered(TallyOf(r, ds[..|ds| - 1]), r, ds[|ds| - 1].formula);
    }
  }

  /** When no formula key is answered the score is 0, the label Low, whatever the other
      answers and the symptom count. */
  lemma NothingAnsweredIsLow(r: Responses, ds: seq<Disease>)
    requires NoneAnswered(r, ds)
    ensures SmartSeverity(r, ds).score == 0.0
    ensures SmartSeverity(r, ds).severity == Low
  {
    TallyUnanswered(r, ds);
  }

  /** With no matched disease at all there is nothing to score. */
  lemma NoDiseasesIsLow(r: Responses)
    ensures SmartSeverity(r, []) == SeverityResult(0.0, Low, "mild condition that can be managed with rest and basic care")
  {
  }

  // ---------------------------------------------------------------------------
  // Range of the score

  /** The accumulators of a non-negative run: the total lies between 0 and 120% of the
      maximum. */
  predicate InRange(t: Tally) {
    0.0 <= t.total <= t.maxPossible * 1.2
  }

  lemma StepInRange(t: Tally, r: Responses, key: string, weight: real)
    requires InRange(t) && weight >= 0.0
    ensures InRange(Step(t, r, key, weight))
  {
    if key in r {
      AssessRange(key, r[key], weight);
    }
  }

  lemma {:induction false} FoldInRange(t: Tally, r: Responses, es: Formula)
    requires InRange(t)
    requires NonNegativeFormula(es)
    ensures InRange(Fold(t, r, es))
  {
    if es != [] {
      FoldInRange(t, r, es[..|es| - 1]);
      StepInRange(Fold(t, r, es[..|es| - 1]), r, es[|es| - 1].0, es[|es| - 1].1);
    }
  }

  lemma {:induction false} TallyInRange(r: Responses, ds: seq<Disease>)
    requires NonNegativeWeights(ds)
    ensures InRange(TallyOf(r, ds))
  {
    if ds != [] {
      assert NonNegativeWeights(ds[..|ds| - 1]);
      TallyInRange(r, ds[..|ds| - 1]);
      FoldInRange(TallyOf(r, ds[..|ds| - 1]), r, ds[|ds| - 1].formula);
    }
  }

  /** With non-negative weights the score lies in [0, 1]. */
  lemma ScoreInUnitRange(r: Responses, ds: seq<Disease>)
    requires NonNegativeWeights(ds)
    ensures 0.0 <= SmartSeverity(r, ds).score <= 1.0
  {
    TallyInRange(r, ds);
  }

  // ---------------------------------------------------------------------------
  // Monotonicity

  /** On every key of the formula, `r2` earns at least as much as `r1` and reports a
      finding wherever `r1` does. */
  predicate AtLeastAsSevereOn(r1: Responses, r2: Responses, es: Formula) {
    forall j :: 0 <= j < |es| ==>
      Earned(r1, es[j].0, es[j].1) <= Earned(r2, es[j].0, es[j].1)
      && (Finding(r1, es[j].0, es[j].1) != [] ==> Finding(r2, es[j].0, es[j].1) != [])
  }

  predicate AtLeastAsSevere(r1: Responses, r2: Responses, ds: seq<Disease>) {
    forall i :: 0 <= i < |ds| ==> AtLeastAsSevereOn(r1, r2, ds[i].formula)
  }

  /** `t2` has at least the total of `t1`, the same maximum, and a finding if `t1` has one. */
  predicate Dominates(t2: Tally, t1: Tally) {
    t1.total <= t2.total && t1.maxPossible == t2.maxPossible && (t1.criticals != [] ==> t2.criticals != [])
  }

  lemma {:induction false} FoldDominates(t1: Tally, t2: Tally, r1: Responses, r2: Responses, es: Formula)
    requires Dominates(t2, t1) && AtLeastAsSevereOn(r1, r2, es)
    ensures Dominates(Fold(t2, r2, es), Fold(t1, r1, es))
  {
    if es != [] {
      assert AtLeastAsSevereOn(r1, r2, es[..|es| - 1]);
      FoldDominates(t1, t2, r1, r2, es[..|es| - 1]);
    }
  }

  lemma {:induction false} TallyDominates(r1: Responses, r2: Responses, ds: seq<Disease>)
    requires AtLeastAsSevere(r1, r2, ds)
    ensures Dominates(TallyOf(r2, ds), TallyOf(r1, ds))
  {
    if ds != [] {
      assert AtLeastAsSevere(r1, r2, ds[..|ds| - 1]);
      TallyDominates(r1, r2, ds[..|ds| - 1]);
      FoldDominates(TallyOf(r1, ds[..|ds| - 1]), TallyOf(r2, ds[..|ds| - 1]), r1, r2, ds[|ds| - 1].formula);
    }
  }

  /** More reported symptoms, or a critical finding, never lower the multiplier. */
  lemma MultiplierMonotone(c1: nat, c2: nat, k1: bool, k2: bool)
    requires c1 <= c2 && (k1 ==> k2)
    ensures Multiplier(c1, k1) <= Multiplier(c2, k2)
  {
  }

  lemma ProductMonotone(a: real, b: real, c: real, d: real)
    requires 0.0 <= a <= b && 0.0 <= c <= d
    ensures a * c <= b * d
  {
    assert a * c <= b * c;
    assert b * c <= b * d;
  }

  lemma NormalizedMonotone(t1: Tally, t2: Tally)
    requires Dominates(t2, t1) && InRange(t1)
    ensures 0.0 <= Normalized(t1) <= Normalized(t2)
  {
  }

  /** The end of the computation is monotone: a larger total, a finding and more reported
      symptoms can only raise the score. */
  lemma ScoreMonotone(t1: Tally, t2: Tally, c1: nat, c2: nat)
    requires Dominates(t2, t1) && InRange(t1) && c1 <= c2
    ensures Score(t1, c1) <= Score(t2, c2)
  {
    NormalizedMonotone(t1, t2);
    MultiplierMonotone(c1, c2, |t1.criticals| > 0, |t2.criticals| > 0);
    ProductMonotone(Normalized(t1), Normalized(t2),
                    Multiplier(c1, |t1.criticals| > 0), Multiplier(c2, |t2.criticals| > 0));
  }

  /** Answers at least as severe on every formula key, with at least as many reported
      symptoms, never give a lower score nor a lower label. */
  lemma MoreSevereNeverLowersScore(r1: Responses, r2: Responses, ds: seq<Disease>)
    requires NonNegativeWeights(ds)
    requires AtLeastAsSevere(r1, r2, ds)
    requires SymptomCount(r1) <= SymptomCount(r2)
    ensures SmartSeverity(r1, ds).score <= SmartSeverity(r2, ds).score
    ensures SmartSeverity(r1, ds).severity.Rank() <= SmartSeverity(r2, ds).severity.Rank()
  {
    TallyDominates(r1, r2, ds);
    TallyInRange(r1, ds);
    ScoreMonotone(TallyOf(r1, ds), TallyOf(r2, ds), SymptomCount(r1), SymptomCount(r2));
    LabelMonotone(SmartSeverity(r1, ds).score, SmartSeverity(r2, ds).score);
  }

  /** A higher score never has a lower label. */
  lemma LabelMonotone(s1: real, s2: real)
    requires s1 <= s2
    ensures LabelFor(s1).Rank() <= LabelFor(s2).Rank()
  {
  }

  lemma HigherReadingOn(r: Responses, key: string, x: real, y: real, es: Formula)
    requires key in {"temperature", "duration", "frequency"} && x <= y
    requires NonNegativeFormula(es)
    ensures AtLeastAsSevereOn(r[key := Num(x)], r[key := Num(y)], es)
  {
    forall j | 0 <= j < |es|
      ensures Earned(r[key := Num(x)], es[j].0, es[j].1) <= Earned(r[key := Num(y)], es[j].0, es[j].1)
      ensures Finding(r[key := Num(x)], es[j].0, es[j].1) != [] ==> Finding(r[key := Num(y)], es[j].0, es[j].1) != []
    {
      if es[j].0 == key {
        NumericRulesMonotone(key, x, y, es[j].1);
      }
    }
  }

  /** Replacing one answer by another that is neither "yes" nor `true` keeps the count. */
  lemma SymptomCountReplaced(r: Responses, key: string, a: Answer, b: Answer)
    requires !IsYes(a) && !IsYes(b)
    ensures SymptomCount(r[key := a]) == SymptomCount(r[key := b])
  {
    var ra, rb := r[key := a], r[key := b];
    assert (set k | k in ra && IsYes(ra[k])) == (set k | k in rb && IsYes(rb[k]));
  }

  /** A higher temperature, a longer duration or more frequent episodes, all else equal,
      never lower the score nor the label. */
  lemma HigherReadingNeverLowersScore(r: Responses, key: string, x: real, y: real, ds: seq<Disease>)
    requires key in {"temperature", "duration", "frequency"} && x <= y
    requires NonNegativeWeights(ds)
    ensures SmartSeverity(r[key := Num(x)], ds).score <= SmartSeverity(r[key := Num(y)], ds).score
    ensures SmartSeverity(r[key := Num(x)], ds).severity.Rank() <= SmartSeverity(r[key := Num(y)], ds).severity.Rank()
  {
    forall i | 0 <= i < |ds|
      ensures AtLeastAsSevereOn(r[key := Num(x)], r[key := Num(y)], ds[i].formula)
    {
      HigherReadingOn(r, key, x, y, ds[i].formula);
    }
    SymptomCountReplaced(r, key, Num(x), Num(y));
    MoreSevereNeverLowersScore(r[key := Num(x)], r[key := Num(y)], ds);
  }

  // ---------------------------------------------------------------------------
  // The symptom count

  /** The key is not in the formula. */
  predicate OutsideFormula(key: string, es: Formula) {
    forall j :: 0 <= j < |es| ==> es[j].0 != key
  }

  predicate OutsideFormulas(key: string, ds: seq<Disease>) {
    forall i :: 0 <= i < |ds| ==> OutsideFormula(key, ds[i].formula)
  }

  lemma OtherKeyOn(r: Responses, key: string, a: Answer, es: Formula)
    requires OutsideFormula(key, es)
    ensures AtLeastAsSevereOn(r, r[key := a], es)
  {
    forall j | 0 <= j < |es|
      ensures Earned(r, es[j].0, es[j].1) <= Earned(r[key := a], es[j].0, es[j].1)
      ensures Finding(r, es[j].0, es[j].1) != [] ==> Finding(r[key := a], es[j].0, es[j].1) != []
    {
      assert es[j].0 != key;
    }
  }

  /** A new "yes" adds one to the count. */
  lemma SymptomCountAddedYes(r: Responses, key: string)
    requires key !in r
    ensures SymptomCount(r[key := Str("yes")]) == SymptomCount(r) + 1
  {
    var r2 := r[key := Str("yes")];
    assert (set k | k in r2 && IsYes(r2[k])) == (set k | k in r && IsYes(r[k])) + {key};
  }

  /** The multiplier counts every "yes" of the response object: a "yes" to a question that
      no matched formula weighs still raises the count by one and never lowers the score. */
  lemma YesOutsideFormulasStillCounts(r: Responses, key: string, ds: seq<Disease>)
    requires key !in r && OutsideFormulas(key, ds)
    requires NonNegativeWeights(ds)
    ensures SymptomCount(r[key := Str("yes")]) == SymptomCount(r) + 1
    ensures SmartSeverity(r, ds).score <= SmartSeverity(r[key := Str("yes")], ds).score
  {
    forall i | 0 <= i < |ds|
      ensures AtLeastAsSevereOn(r, r[key := Str("yes")], ds[i].formula)
    {
      OtherKeyOn(r, key, Str("yes"), ds[i].formula);
    }
    SymptomCountAddedYes(r, key);
    MoreSevereNeverLowersScore(r, r[key := Str("yes")], ds);
  }

  // ---------------------------------------------------------------------------
  // The details sentence

  /** Only the first two findings can appear in the sentence. */
  lemma DetailsUseFirstTwoFindings(l: Label, criticals: seq<string>)
    ensures Details(l, criticals) == Details(l, Take(criticals, 2))
  {
    var c2 := Take(criticals, 2);
    assert |criticals| > 0 ==> c2[0] == criticals[0];
    assert Mention(l, criticals) == Mention(l, c2);
  }

  /** High names the first two findings, or says there are several severe symptoms when
      there is none. */
  lemma HighNamesTwoFindings(criticals: seq<string>)
    ensures |criticals| >= 2 ==>
      Mention(High, criticals) == "concerning symptoms including " + criticals[0] + ", " + criticals[1]
    ensures |criticals| == 1 ==> Mention(High, criticals) == "concerning symptoms including " + criticals[0]
    ensures criticals == [] ==> Mention(High, criticals) == "multiple severe symptoms"
  {
    if |criticals| >= 2 {
      var c2 := Take(criticals, 2);
      assert c2[..1] == [criticals[0]];
      assert JoinComma(c2) == criticals[0] + ", " + criticals[1];
      assert "concerning symptoms including " + (criticals[0] + ", " + criticals[1])
          == "concerning symptoms including " + criticals[0] + ", " + criticals[1];
    }
  }

  /** Moderate-High names the first finding only; the three lower labels never mention
      findings. */
  lemma LowerLabelsNameAtMostOne(l: Label, criticals: seq<string>)
    requires l != High
    ensures l == ModerateHigh && |criticals| >= 1 ==> Mention(l, criticals) == ", with " + criticals[0]
    ensures l.Rank() <= 2 ==> Details(l, criticals) == Opening(l)
  {
  }

  /** The sentence is never empty. */
  lemma DetailsNonEmpty(l: Label, criticals: seq<string>)
    ensures |Details(l, criticals)| > 0
  {
    assert |Opening(l)| > 0;
  }

  // ---------------------------------------------------------------------------
  // Scenarios

  lemma NoYes(r: Responses)
    requires forall k :: k in r ==> !IsYes(r[k])
    ensures SymptomCount(r) == 0
  {
    assert (set k | k in r && IsYes(r[k])) == {};
  }

  lemma SingleEntry(r: Responses, qs: seq<Question>, key: string, weight: real)
    ensures TallyOf(r, [Disease(qs, [(key, weight)])]) == Step(Tally(0.0, 0.0, []), r, key, weight)
  {
    var es: Formula := [(key, weight)];
    assert [Disease(qs, es)][..0] == [] && es[..0] == [];
    assert Fold(Tally(0.0, 0.0, []), r, es[..0]) == Tally(0.0, 0.0, []);
    assert TallyOf(r, [Disease(qs, es)]) == Fold(Tally(0.0, 0.0, []), r, es);
  }

  lemma ScaledRatio(weight: real, c: real)
    requires weight > 0.0
    ensures (weight * c) / weight == c
  {
  }

  /** One formula `{temperature: w}` answered 104 or more: 120% of the maximum and a critical
      finding, capped at 1 and High. */
  lemma VeryHighFever(qs: seq<Question>, x: real, weight: real)
    requires x >= 104.0 && weight > 0.0
    ensures var r := map["temperature" := Num(x)];
      TallyOf(r, [Disease(qs, [("temperature", weight)])])
      == Tally(weight * 1.2, weight, ["Very high fever (" + NumText(x) + "\U{B0}F)"])
    ensures SmartSeverity(map["temperature" := Num(x)], [Disease(qs, [("temperature", weight)])]).score == 1.0
    ensures SmartSeverity(map["temperature" := Num(x)], [Disease(qs, [("temperature", weight)])]).severity == High
  {
    var r := map["temperature" := Num(x)];
    SingleEntry(r, qs, "temperature", weight);
    NoYes(r);
    var t := TallyOf(r, [Disease(qs, [("temperature", weight)])]);
    ScaledRatio(weight, 1.2);
    assert Normalized(t) == 1.2;
  }

  lemma StageTwoTally(qs: seq<Question>, s: string, reading: Reading, weight: real)
    requires MatchBloodPressure(s) == Some(reading)
    requires reading.systolic < 180 && reading.diastolic < 120
    requires reading.systolic >= 140 || reading.diastolic >= 90
    ensures TallyOf(map["bp_level" := Str(s)], [Disease(qs, [("bp_level", weight)])]) == Tally(weight * 0.9, weight, [])
  {
    var r := map["bp_level" := Str(s)];
    SingleEntry(r, qs, "bp_level", weight);
    BloodPressureStages(s, reading, weight);
    assert Assess("bp_level", Str(s), weight).critical == None;
  }

  lemma ReadingIsNotYes(s: string)
    requires MatchBloodPressure(s).Some?
    ensures s != "yes"
  {
    BloodPressureMatchIff(s);
    BloodPressureMatchIff("yes");
  }

  lemma FinishNoFindings(weight: real, c: real)
    requires weight > 0.0 && 0.0 <= c <= 1.0
    ensures Finish(Tally(weight * c, weight, []), 0).score == c
  {
    ScaledRatio(weight, c);
  }

  /** One formula `{bp_level: w}` answered with a stage-2 reading such as "145/95": 90%, no
      finding, High. */
  lemma StageTwoBloodPressure(qs: seq<Question>, s: string, reading: Reading, weight: real)
    requires MatchBloodPressure(s) == Some(reading) && weight > 0.0
    requires reading.systolic < 180 && reading.diastolic < 120
    requires reading.systolic >= 140 || reading.diastolic >= 90
    ensures SmartSeverity(map["bp_level" := Str(s)], [Disease(qs, [("bp_level", weight)])]).score == 0.9
    ensures SmartSeverity(map["bp_level" := Str(s)], [Disease(qs, [("bp_level", weight)])]).severity == High
  {
    var r := map["bp_level" := Str(s)];
    var ds := [Disease(qs, [("bp_level", weight)])];
    StageTwoTally(qs, s, reading, weight);
    ReadingIsNotYes(s);
    NoYes(r);
    assert SmartSeverity(r, ds) == Finish(Tally(weight * 0.9, weight, []), 0);
    FinishNoFindings(weight, 0.9);
  }

  /** "145/95", the reading of the example above. */
  lemma StageTwoExample(qs: seq<Question>)
    ensures SmartSeverity(map["bp_level" := Str("145/95")], [Disease(qs, [("bp_level", 5.0)])]).score == 0.9
  {
    ReadingOf145Over95();
    StageTwoBloodPressure(qs, "145/95", Reading(145, 95), 5.0);
  }

  /** The formula `{a: w, b: w}` with only `a` answered "yes", from `t`. */
  lemma OneOfTwo(t: Tally, a: string, b: string, weight: real)
    requires a != b && a !in CriticalKeys && a != "bp_level"
    ensures Fold(t, map[a := Str("yes")], [(a, weight), (b, weight)])
            == Tally(t.total + weight, t.maxPossible + weight * 2.0, t.criticals)
  {
    var es: Formula := [(a, weight), (b, weight)];
    var r := map[a := Str("yes")];
    PlainYes(a, Str("yes"), weight);
    assert es[..1] == [(a, weight)] && es[..1][..0] == [];
    assert Fold(t, r, es[..1][..0]) == t;
    assert Fold(t, r, es[..1]) == Tally(t.total + weight, t.maxPossible + weight, t.criticals);
  }

  /** Two diseases sharing the keys `a` and `b`, only `a` answered with a plain "yes": the
      unanswered `b` still counts twice in the maximum, so the score is 2 out of 4,
      Moderate-High. */
  lemma SharedKeysHalfAnswered(qs: seq<Question>, a: string, b: string, weight: real)
    requires a != b && a !in CriticalKeys && a != "bp_level" && weight > 0.0
    ensures var d := Disease(qs, [(a, weight), (b, weight)]);
      TallyOf(map[a := Str("yes")], [d, d]) == Tally(weight * 2.0, weight * 4.0, [])
    ensures var d := Disease(qs, [(a, weight), (b, weight)]);
      SmartSeverity(map[a := Str("yes")], [d, d]).score == 0.5
    ensures var d := Disease(qs, [(a, weight), (b, weight)]);
      SmartSeverity(map[a := Str("yes")], [d, d]).severity == ModerateHigh
  {
    var r := map[a := Str("yes")];
    var d := Disease(qs, [(a, weight), (b, weight)]);
    assert [d, d][..1] == [d] && [d][..0] == [];
    OneOfTwo(Tally(0.0, 0.0, []), a, b, weight);
    OneOfTwo(Tally(weight, weight * 2.0, []), a, b, weight);
    assert TallyOf(r, [d]) == Tally(weight, weight * 2.0, []);
    var t := TallyOf(r, [d, d]);
    assert t == Tally(weight * 2.0, weight * 4.0, []);
    assert weight * 2.0 == (weight * 4.0) * 0.5;
    ScaledRatio(weight * 4.0, 0.5);
    assert Normalized(t) == 0.5;
    assert SymptomCount(r) == 1 by {
      assert (set k | k in r && IsYes(r[k])) == {a};
    }
  }

  // ---------------------------------------------------------------------------
  // Critical findings and the label

  lemma OneDisease(r: Responses, qs: seq<Question>, es: Formula)
    ensures TallyOf(r, [Disease(qs, es)]) == Fold(Tally(0.0, 0.0, []), r, es)
  {
    assert [Disease(qs, es)][..0] == [];
  }

  /** A two-key formula whose second key is unanswered. */
  lemma SecondUnanswered(t: Tally, r: Responses, a: string, wa: real, b: string, wb: real)
    requires b !in r
    ensures Fold(t, r, [(a, wa), (b, wb)])
            == Tally(t.total + Earned(r, a, wa), t.maxPossible + wa + wb, t.criticals + Finding(r, a, wa))
  {
    var es: Formula := [(a, wa), (b, wb)];
    assert es[..1] == [(a, wa)] && es[..1][..0] == [];
    assert Fold(t, r, es[..1][..0]) == t;
    assert t.criticals + Finding(r, a, wa) + [] == t.criticals + Finding(r, a, wa);
  }

  /** The final steps for the tallies of the three examples below. */
  lemma HeavyKeyFinish(c: string)
    ensures Finish(Tally(1.2, 100.0, [c]), 1).severity == Low
  {
    assert Normalized(Tally(1.2, 100.0, [c])) == 0.012;
  }

  lemma PlainYesFinish()
    ensures Finish(Tally(1.0, 2.05, []), 1).severity == Moderate
  {
    assert Normalized(Tally(1.0, 2.05, [])) == 1.0 / 2.05;
  }

  lemma FindingFinish(c: string)
    ensures Finish(Tally(0.9, 2.05, [c]), 0).severity == ModerateHigh
  {
    assert Normalized(Tally(0.9, 2.05, [c])) == 0.9 / 2.05;
  }

  /** A formula `{a: 1, b: wb}` with only `a` answered, by an answer the rules score `v` with
      the finding `c`. */
  lemma AnsweredBesideKey(qs: seq<Question>, a: string, x: Answer, v: real, c: string, b: string, wb: real)
    requires Assess(a, x, 1.0) == Assessment(v, Some(c)) && b != a
    ensures TallyOf(map[a := x], [Disease(qs, [(a, 1.0), (b, wb)])]) == Tally(v, 1.0 + wb, [c])
  {
    var r := map[a := x];
    OneDisease(r, qs, [(a, 1.0), (b, wb)]);
    SecondUnanswered(Tally(0.0, 0.0, []), r, a, 1.0, b, wb);
  }

  /** A "yes" to an emergency key `a` of weight 1 beside an unanswered key of weight 99. */
  lemma CriticalYesBesideHeavyKey(qs: seq<Question>, a: string, b: string)
    requires a in CriticalKeys && b != a
    ensures |TallyOf(map[a := Str("yes")], [Disease(qs, [(a, 1.0), (b, 99.0)])]).criticals| == 1
    ensures SmartSeverity(map[a := Str("yes")], [Disease(qs, [(a, 1.0), (b, 99.0)])]).severity == Low
  {
    var r := map[a := Str("yes")];
    var ds := [Disease(qs, [(a, 1.0), (b, 99.0)])];
    CriticalYes(a, Str("yes"), 1.0);
    AnsweredBesideKey(qs, a, Str("yes"), 1.2, Spaced(a), b, 99.0);
    assert SymptomCount(r) == 1 by {
      assert (set k | k in r && IsYes(r[k])) == {a};
    }
    assert SmartSeverity(r, ds) == Finish(Tally(1.2, 100.0, [Spaced(a)]), 1);
    HeavyKeyFinish(Spaced(a));
  }

  /** The comment beside the raise to 1.15 says critical symptoms push the result to at least
      Moderate, but only the multiplier is raised: a "yes" to chest pain, in a formula whose
      other weight dwarfs it, is a critical finding and still Low. */
  lemma CriticalFindingCanBeLow(qs: seq<Question>)
    ensures var r := map["chest_pain" := Str("yes")];
      |TallyOf(r, [Disease(qs, [("chest_pain", 1.0), ("x", 99.0)])]).criticals| == 1
    ensures SmartSeverity(map["chest_pain" := Str("yes")], [Disease(qs, [("chest_pain", 1.0), ("x", 99.0)])]).severity == Low
  {
    CriticalYesBesideHeavyKey(qs, "chest_pain", "x");
  }

  /** The result with the floor the comment describes: a critical finding keeps the label
      at Moderate or above; the score is left as computed. */
  function FlooredSeverity(r: Responses, ds: seq<Disease>): (res: SeverityResult)
    ensures res.score == SmartSeverity(r, ds).score
    ensures |TallyOf(r, ds).criticals| > 0 ==> res.severity.Rank() >= Moderate.Rank()
    ensures res.severity.Rank() >= SmartSeverity(r, ds).severity.Rank()
    ensures |TallyOf(r, ds).criticals| == 0 ==> res == SmartSeverity(r, ds)
    ensures res.details == Details(res.severity, TallyOf(r, ds).criticals)
  {
    var s := SmartSeverity(r, ds);
    var t := TallyOf(r, ds);
    if |t.criticals| > 0 && s.severity.Rank() < Moderate.Rank() then
      SeverityResult(s.score, Moderate, Details(Moderate, t.criticals))
    else s
  }

  /** With the floor, the chest-pain case above is Moderate. */
  lemma CriticalFindingFlooredIsModerate(qs: seq<Question>)
    ensures FlooredSeverity(map["chest_pain" := Str("yes")], [Disease(qs, [("chest_pain", 1.0), ("x", 99.0)])]).severity == Moderate
  {
    CriticalFindingCanBeLow(qs);
  }

  // ---------------------------------------------------------------------------
  // A finding can outweigh a larger share

  /** A plain "yes" to `a` beside an unanswered key of weight 1.05: 1 out of 2.05, Moderate. */
  lemma PlainYesBesideKey(qs: seq<Question>, a: string, b: string)
    requires a !in CriticalKeys && a != "bp_level" && b != a
    ensures SmartSeverity(map[a := Str("yes")], [Disease(qs, [(a, 1.0), (b, 1.05)])]).severity == Moderate
  {
    var r := map[a := Str("yes")];
    var es: Formula := [(a, 1.0), (b, 1.05)];
    OneDisease(r, qs, es);
    SecondUnanswered(Tally(0.0, 0.0, []), r, a, 1.0, b, 1.05);
    PlainYes(a, Str("yes"), 1.0);
    assert TallyOf(r, [Disease(qs, es)]) == Tally(1.0, 2.05, []);
    assert SymptomCount(r) == 1 by {
      assert (set k | k in r && IsYes(r[k])) == {a};
    }
    assert SmartSeverity(r, [Disease(qs, es)]) == Finish(Tally(1.0, 2.05, []), 1);
    PlainYesFinish();
  }

  /** An answer that is not "yes" and earns 90% with a finding, beside an unanswered key of
      weight 1.05: 0.9 out of 2.05 raised by 1.15, Moderate-High. */
  lemma FindingBesideKey(qs: seq<Question>, a: string, x: Answer, c: string, b: string)
    requires Assess(a, x, 1.0) == Assessment(0.9, Some(c))
    requires !IsYes(x) && b != a
    ensures SmartSeverity(map[a := x], [Disease(qs, [(a, 1.0), (b, 1.05)])]).severity == ModerateHigh
  {
    var r := map[a := x];
    var es: Formula := [(a, 1.0), (b, 1.05)];
    AnsweredBesideKey(qs, a, x, 0.9, c, b, 1.05);
    NoYes(r);
    assert SmartSeverity(r, [Disease(qs, es)]) == Finish(Tally(0.9, 2.05, [c]), 0);
    FindingFinish(c);
  }

  /** Comparing answers by what they earn alone is not enough: under `discharge_type`, "yes"
      earns the full weight and "green" only 90%, yet "green" is a critical finding, raises
      the multiplier to 1.15 and ends one label higher. */
  lemma FindingOutweighsLargerShare(qs: seq<Question>)
    ensures Earned(map["discharge_type" := Str("green")], "discharge_type", 1.0)
            < Earned(map["discharge_type" := Str("yes")], "discharge_type", 1.0)
    ensures SmartSeverity(map["discharge_type" := Str("yes")], [Disease(qs, [("discharge_type", 1.0), ("x", 1.05)])]).severity == Moderate
    ensures SmartSeverity(map["discharge_type" := Str("green")], [Disease(qs, [("discharge_type", 1.0), ("x", 1.05)])]).severity == ModerateHigh
  {
    PlainYes("discharge_type", Str("yes"), 1.0);
    assert Lower("green") == "green";
    assert Contains("green", "green") by {
      assert "green"[..5] == "green";
    }
    DischargeTiers("green", 1.0);
    PlainYesBesideKey(qs, "discharge_type", "x");
    FindingBesideKey(qs, "discharge_type", Str("green"), Lower("green") + " discharge", "x");
  }
}
