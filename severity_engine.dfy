/** `calculateSmartSeverity`: every weight of every matched disease's formula is added to
    the possible maximum, every answered key earns its rule's share, critical findings are
    collected in the order they are met, and the normalised score is scaled by a
    symptom-count multiplier, capped at 1 and labelled. */
module SeverityEngine {

  import opened Basics
  import opened Text
  import opened Lists
  import opened Diseases
  import opened SeverityRules

  /** The request's `responses` object, without its `null` entries. */
  type Responses = map<string, Answer>

  datatype Label = Low | LowModerate | Moderate | ModerateHigh | High {
    /** The `severity` string the route reports. */
    function Name(): string {
      match this
      case Low => "Low"
      case LowModerate => "Low-Moderate"
      case Moderate => "Moderate"
      case ModerateHigh => "Moderate-High"
      case High => "High"
    }

    /** Position in the order Low < Low-Moderate < Moderate < Moderate-High < High. */
    function Rank(): nat {
      match this
      case Low => 0
      case LowModerate => 1
      case Moderate => 2
      case ModerateHigh => 3
      case High => 4
    }
  }

  datatype SeverityResult = SeverityResult(score: real, severity: Label, details: string)

  /** The accumulators `totalScore`, `maxPossibleScore` and `criticalSymptoms`. */
  datatype Tally = Tally(total: real, maxPossible: real, criticals: seq<string>)

  /** What one formula key adds to `totalScore`: its rule's contribution when the key is
      answered, nothing otherwise. */
  function Earned(r: Responses, key: string, weight: real): real {
    if key in r then Assess(key, r[key], weight).contribution else 0.0
  }

  /** What one formula key appends to `criticalSymptoms`: at most its rule's finding. */
  function Finding(r: Responses, key: string, weight: real): seq<string> {
    if key in r && Assess(key, r[key], weight).critical.Some? then [Assess(key, r[key], weight).critical.value]
    else []
  }

  /** One formula entry: its weight always counts towards the maximum. */
  function Step(t: Tally, r: Responses, key: string, weight: real): Tally {
    Tally(t.total + Earned(r, key, weight), t.maxPossible + weight, t.criticals + Finding(r, key, weight))
  }

  /** The accumulators after the entries `es` of one formula, starting from `t`. */
  function Fold(t: Tally, r: Responses, es: Formula): Tally {
    if es == [] then t else Step(Fold(t, r, es[..|es| - 1]), r, es[|es| - 1].0, es[|es| - 1].1)
  }

  /** The accumulators after the formulas of `ds`, disease by disease, starting from zero
      and an empty list. */
  function TallyOf(r: Responses, ds: seq<Disease>): Tally {
    if ds == [] then Tally(0.0, 0.0, []) else Fold(TallyOf(r, ds[..|ds| - 1]), r, ds[|ds| - 1].formula)
  }

  /** The sum of the weights of `es`. */
  function WeightSum(es: Formula): real {
    if es == [] then 0.0 else WeightSum(es[..|es| - 1]) + es[|es| - 1].1
  }

  /** How many values of the whole response object are "yes" or `true`, whether or not
      any formula mentions their key. */
  function SymptomCount(r: Responses): nat {
    |set k | k in r && IsYes(r[k])|
  }

  /** The multiplier for several reported symptoms, raised to at least 1.15 when some
      finding is critical. */
  function Multiplier(count: nat, critical: bool): (m: real)
    ensures 1.0 <= m <= 1.2
    ensures critical ==> m == (if count >= 5 then 1.2 else 1.15)
    ensures !critical ==> m == (if count >= 5 then 1.2 else if count >= 3 then 1.1 else 1.0)
    ensures count >= 5 ==> m == 1.2
  {
    var base := if count >= 5 then 1.2 else if count >= 3 then 1.1 else 1.0;
    if critical then Max(base, 1.15) else base
  }

  /** The label of a final score: each score falls in exactly one band. */
  function LabelFor(score: real): (l: Label)
    ensures l == High <==> score >= 0.75
    ensures l == ModerateHigh <==> 0.5 <= score < 0.75
    ensures l == Moderate <==> 0.35 <= score < 0.5
    ensures l == LowModerate <==> 0.2 <= score < 0.35
    ensures l == Low <==> score < 0.2
  {
    if score >= 0.75 then High
    else if score >= 0.5 then ModerateHigh
    else if score >= 0.35 then Moderate
    else if score >= 0.2 then LowModerate
    else Low
  }

  /** `xs.join(", ")`. */
  function JoinComma(xs: seq<string>): string {
    if xs == [] then "" else if |xs| == 1 then xs[0] else JoinComma(xs[..|xs| - 1]) + ", " + xs[|xs| - 1]
  }

  /** The `details` sentence for a label: a fixed opening, followed by the findings for the
      two upper labels. */
  function Details(l: Label, criticals: seq<string>): string {
    Opening(l) + Mention(l, criticals)
  }

  function Opening(l: Label): string {
    match l
    case High => "critical condition with "
    case ModerateHigh => "significant condition requiring prompt medical attention"
    case Moderate => "concerning condition that needs proper care and monitoring"
    case LowModerate => "mild to moderate condition requiring attention and home care"
    case Low => "mild condition that can be managed with rest and basic care"
  }

  /** What follows the opening: the first two findings for High, the first one for
      Moderate-High, nothing for the lower labels. */
  function Mention(l: Label, criticals: seq<string>): string {
    match l
    case High =>
      if |criticals| > 0 then "concerning symptoms including " + JoinComma(Take(criticals, 2))
      else "multiple severe symptoms"
    case ModerateHigh => if |criticals| > 0 then ", with " + criticals[0] else ""
    case _ => ""
  }

  /** `normalizedScore`: the total as a share of the maximum, 0 when nothing was possible. */
  function Normalized(t: Tally): real {
    if t.maxPossible > 0.0 then t.total / t.maxPossible else 0.0
  }

  /** `finalScore`: the normalised score times the multiplier, capped at 1. */
  function Score(t: Tally, count: nat): real {
    Min(Normalized(t) * Multiplier(count, |t.criticals| > 0), 1.0)
  }

  /** Normalisation, multiplier, cap and label, from the accumulators and the count. */
  function Finish(t: Tally, count: nat): (res: SeverityResult)
    ensures res.score <= 1.0
    ensures res.severity == LabelFor(res.score)
    ensures t.maxPossible <= 0.0 ==> res.score == 0.0
    ensures t.total >= 0.0 && t.maxPossible >= 0.0 ==> res.score >= 0.0
  {
    var l := LabelFor(Score(t, count));
    SeverityResult(Score(t, count), l, Details(l, t.criticals))
  }

  /** The result of `calculateSmartSeverity(responses, _, matchedDiseases)`. */
  function SmartSeverity(r: Responses, ds: seq<Disease>): (res: SeverityResult)
    ensures res.score <= 1.0
    ensures res.severity == LabelFor(res.score)
  {
    Finish(TallyOf(r, ds), SymptomCount(r))
  }

  /** The route's scoring loop: `forEach` over the matched diseases, updating the three
      accumulators, then the multiplier and the label. */
  method CalculateSmartSeverity(responses: Responses, matchedDiseases: seq<Disease>)
    returns (result: SeverityResult)
    ensures result == SmartSeverity(responses, matchedDiseases)
  {
    var totalScore := 0.0;
    var maxPossibleScore := 0.0;
    var criticalSymptoms: seq<string> := [];
    var i := 0;
    while i < |matchedDiseases|
      invariant 0 <= i <= |matchedDiseases|
      invariant Tally(totalScore, maxPossibleScore, criticalSymptoms) == TallyOf(responses, matchedDiseases[..i])
    {
      totalScore, maxPossibleScore, criticalSymptoms :=
        ScoreDisease(responses, matchedDiseases[i].formula, totalScore, maxPossibleScore, criticalSymptoms);
      assert matchedDiseases[..i + 1][..i] == matchedDiseases[..i];
      i := i + 1;
    }
    assert matchedDiseases[..i] == matchedDiseases;
    result := Conclude(totalScore, maxPossibleScore, criticalSymptoms, SymptomCount(responses));
  }

  /** The body of the outer `forEach`: `Object.keys(severityFormula).forEach(...)`. */
  method ScoreDisease(responses: Responses, formula: Formula,
                      totalScore: real, maxPossibleScore: real, criticalSymptoms: seq<string>)
    returns (totalScore': real, maxPossibleScore': real, criticalSymptoms': seq<string>)
    ensures Tally(totalScore', maxPossibleScore', criticalSymptoms')
            == Fold(Tally(totalScore, maxPossibleScore, criticalSymptoms), responses, formula)
  {
    totalScore', maxPossibleScore', criticalSymptoms' := totalScore, maxPossibleScore, criticalSymptoms;
    var j := 0;
    while j < |formula|
      invariant 0 <= j <= |formula|
      invariant Tally(totalScore', maxPossibleScore', criticalSymptoms')
                == Fold(Tally(totalScore, maxPossibleScore, criticalSymptoms), responses, formula[..j])
    {
      totalScore', maxPossibleScore', criticalSymptoms' :=
        ScoreKey(responses, formula[j].0, formula[j].1, totalScore', maxPossibleScore', criticalSymptoms');
      assert formula[..j + 1][..j] == formula[..j];
      j := j + 1;
    }
    assert formula[..j] == formula;
  }

  /** The body of the inner `forEach`: one formula key with its weight. */
  method ScoreKey(responses: Responses, key: string, weight: real,
                  totalScore: real, maxPossibleScore: real, criticalSymptoms: seq<string>)
    returns (totalScore': real, maxPossibleScore': real, criticalSymptoms': seq<string>)
    ensures totalScore' == totalScore + Earned(responses, key, weight)
    ensures maxPossibleScore' == maxPossibleScore + weight
    ensures criticalSymptoms' == criticalSymptoms + Finding(responses, key, weight)
  {
    totalScore', criticalSymptoms' := totalScore, criticalSymptoms;
    maxPossibleScore' := maxPossibleScore + weight;
    if key in responses {
      var assessment := Assess(key, responses[key], weight);
      totalScore' := totalScore + assessment.contribution;
      if assessment.critical.Some? {
        criticalSymptoms' := criticalSymptoms + [assessment.critical.value];
      }
    }
  }

  /** The end of `calculateSmartSeverity`: normalise, pick and raise the multiplier, cap,
      and choose the label and its sentence. */
  method Conclude(totalScore: real, maxPossibleScore: real, criticalSymptoms: seq<string>, symptomCount: nat)
    returns (result: SeverityResult)
    ensures result == Finish(Tally(totalScore, maxPossibleScore, criticalSymptoms), symptomCount)
  {
    var normalizedScore := if maxPossibleScore > 0.0 then totalScore / maxPossibleScore else 0.0;
    var multiplier := 1.0;
    if symptomCount >= 5 {
      multiplier := 1.2;
    } else if symptomCount >= 3 {
      multiplier := 1.1;
    }
    if |criticalSymptoms| > 0 {
      multiplier := Max(multiplier, 1.15);
    }
    assert multiplier == Multiplier(symptomCount, |criticalSymptoms| > 0);
    var finalScore := Min(normalizedScore * multiplier, 1.0);
    assert finalScore == Finish(Tally(totalScore, maxPossibleScore, criticalSymptoms), symptomCount).score;

    var severity, details := Classify(finalScore, criticalSymptoms);
    result := SeverityResult(finalScore, severity, details);
  }

  /** The label chain at the end of `calculateSmartSeverity`, with its `details` sentence. */
  method Classify(finalScore: real, criticalSymptoms: seq<string>) returns (severity: Label, details: string)
    ensures severity == LabelFor(finalScore)
    ensures details == Details(severity, criticalSymptoms)
  {
    if finalScore >= 0.75 {
      severity := High;
    } else if finalScore >= 0.50 {
      severity := ModerateHigh;
    } else if finalScore >= 0.35 {
      severity := Moderate;
    } else if finalScore >= 0.20 {
      severity := LowModerate;
    } else {
      severity := Low;
    }
    details := Details(severity, criticalSymptoms);
  }
}
