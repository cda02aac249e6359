/** The per-answer rules of `calculateSmartSeverity`: which fraction of a formula weight one
    answer earns, and whether it is reported as a critical finding. */
module SeverityRules {

  import opened Basics
  import opened Text

  /** A non-null value of the request's `responses` object; `Other` is an array or an
      object. A `null` value is modelled as a missing key, which the engine treats alike. */
  datatype Answer = Num(n: real) | Str(s: string) | Bool(b: bool) | Other

  /** What one answer earns: its `scoreContribution`, a share of the key's weight, and
      possibly a critical finding. */
  datatype Assessment = Assessment(contribution: real, critical: Option<string>)

  /** `response === 'yes' || response === true`. */
  predicate IsYes(a: Answer) {
    a == Str("yes") || a == Bool(true)
  }

  /** The yes/no keys whose "yes" is an emergency sign. */
  const CriticalKeys: set<string> :=
    {"difficulty_breathing", "chest_pain", "blood_sputum", "blood_in_urine", "self_harm", "wave_pain"}

  /** The keys whose free-text answer is scored by keywords. */
  const KeywordKeys: set<string> := {"pain_type", "cough_type", "discharge_type", "severity"}

  /** Body temperature in degrees Fahrenheit. */
  function TemperatureRule(t: real, weight: real): Assessment {
    if t >= 104.0 then Assessment(weight * 1.2, Some("Very high fever (" + NumText(t) + "\U{B0}F)"))
    else if t >= 103.0 then Assessment(weight * 1.0, Some("High fever (" + NumText(t) + "\U{B0}F)"))
    else if t >= 101.0 then Assessment(weight * 0.75, None)
    else if t >= 99.5 then Assessment(weight * 0.5, None)
    else if t >= 98.6 then Assessment(weight * 0.25, None)
    else Assessment(0.0, None)
  }

  /** Duration of the complaint in days. */
  function DurationRule(d: real, weight: real): Assessment {
    if d >= 14.0 then Assessment(weight * 1.0, Some("Prolonged duration (" + NumText(d) + " days)"))
    else if d >= 7.0 then Assessment(weight * 0.8, None)
    else if d >= 3.0 then Assessment(weight * 0.6, None)
    else Assessment(weight * 0.4, None)
  }

  /** Episodes per day. */
  function FrequencyRule(f: real, weight: real): Assessment {
    if f >= 10.0 then Assessment(weight * 1.0, Some("Very frequent episodes (" + NumText(f) + "/day)"))
    else if f >= 6.0 then Assessment(weight * 0.8, None)
    else if f >= 3.0 then Assessment(weight * 0.6, None)
    else Assessment(weight * 0.4, None)
  }

  datatype Reading = Reading(systolic: nat, diastolic: nat)

  /** The length of the run of ASCII digits starting at index `i`. */
  function DigitRun(s: string, i: nat): (n: nat)
    requires i <= |s|
    ensures i + n <= |s|
    ensures forall k :: i <= k < i + n ==> IsDecimalDigit(s[k])
    ensures i + n < |s| ==> !IsDecimalDigit(s[i + n])
    decreases |s| - i
  {
    if i < |s| && IsDecimalDigit(s[i]) then 1 + DigitRun(s, i + 1) else 0
  }

  /** The regular expression `(\d+)\/(\d+)` anchored at index `i`; the greedy `\d+` takes
      the whole digit run, so no backtracking can help. */
  function MatchAt(s: string, i: nat): Option<Reading>
    requires i <= |s|
  {
    var n1 := DigitRun(s, i);
    if n1 > 0 && i + n1 < |s| && s[i + n1] == '/' then
      var n2 := DigitRun(s, i + n1 + 1);
      if n2 > 0 then
        Some(Reading(DigitsValue(s[i..i + n1], 10), DigitsValue(s[i + n1 + 1..i + n1 + 1 + n2], 10)))
      else None
    else None
  }

  function ScanFrom(s: string, i: nat): Option<Reading>
    requires i <= |s|
    decreases |s| - i
  {
    if MatchAt(s, i).Some? then MatchAt(s, i)
    else if i == |s| then None
    else ScanFrom(s, i + 1)
  }

  /** `response.match(/(\d+)\/(\d+)/)` with both groups run through `parseInt`: the leftmost
      match wins. */
  function MatchBloodPressure(s: string): Option<Reading> {
    ScanFrom(s, 0)
  }

  /** Some `/` has an ASCII digit on each side. */
  ghost predicate HasDigitSlashDigit(s: string) {
    exists k :: 0 < k < |s| - 1 && SlashBetweenDigits(s, k)
  }

  predicate SlashBetweenDigits(s: string, k: int)
    requires 0 < k < |s| - 1
  {
    s[k] == '/' && IsDecimalDigit(s[k - 1]) && IsDecimalDigit(s[k + 1])
  }

  /** A `bp_level` string, graded by the larger of its two stages; one without a reading
      earns nothing. */
  function BloodPressureRule(s: string, weight: real): Assessment {
    match MatchBloodPressure(s)
    case None => Assessment(0.0, None)
    case Some(r) =>
      if r.systolic >= 180 || r.diastolic >= 120 then Assessment(weight * 1.2, Some("Severe hypertension (" + s + ")"))
      else if r.systolic >= 140 || r.diastolic >= 90 then Assessment(weight * 0.9, None)
      else if r.systolic >= 130 || r.diastolic >= 80 then Assessment(weight * 0.6, None)
      else Assessment(weight * 0.3, None)
  }

  /** The keyword rules for free text, applied to the lower-cased answer. */
  function TextRule(key: string, lower: string, weight: real): Assessment {
    if key == "pain_type" || key == "cough_type" then
      if Contains(lower, "constant") || Contains(lower, "severe")
         || Contains(lower, "sharp") || Contains(lower, "radiating") then Assessment(weight * 0.9, None)
      else if Contains(lower, "intermittent") || Contains(lower, "moderate") then Assessment(weight * 0.6, None)
      else Assessment(weight * 0.4, None)
    else if key == "discharge_type" then
      if Contains(lower, "green") || Contains(lower, "blood") then Assessment(weight * 0.9, Some(lower + " discharge"))
      else if Contains(lower, "yellow") then Assessment(weight * 0.7, None)
      else Assessment(weight * 0.4, None)
    else if key == "severity" then
      if Contains(lower, "severe") then Assessment(weight * 1.0, None)
      else if Contains(lower, "moderate") then Assessment(weight * 0.6, None)
      else Assessment(weight * 0.3, None)
    else Assessment(0.0, None)
  }

  /** `key.replace(/_/g, ' ')`. */
  function Spaced(key: string): (r: string)
    ensures |r| == |key|
    ensures forall i :: 0 <= i < |key| ==> r[i] == (if key[i] == '_' then ' ' else key[i])
  {
    if key == [] then [] else [if key[0] == '_' then ' ' else key[0]] + Spaced(key[1..])
  }

  /** A "yes": the full weight, or 120% and a critical finding for an emergency key. */
  function YesRule(key: string, weight: real): Assessment {
    if key in CriticalKeys then Assessment(weight * 1.2, Some(Spaced(key))) else Assessment(weight * 1.0, None)
  }

  /** The rule chosen by key name and by the type of the answer, tried in the source's
      order: the first branch whose key and type both fit decides, even when it awards 0. */
  function Assess(key: string, a: Answer, weight: real): Assessment {
    if key == "temperature" && a.Num? then TemperatureRule(a.n, weight)
    else if key == "duration" && a.Num? then DurationRule(a.n, weight)
    else if key == "bp_level" && a.Str? then BloodPressureRule(a.s, weight)
    else if key == "frequency" && a.Num? then FrequencyRule(a.n, weight)
    else if IsYes(a) then YesRule(key, weight)
    else if a.Str? then TextRule(key, Lower(a.s), weight)
    else Assessment(0.0, None)
  }

  // ---------------------------------------------------------------------------
  // Properties of the rules

  /** What an answer earns is its key's weight times a share that depends only on the key
      and the answer; the finding does not depend on the weight. */
  lemma ContributionScales(key: string, a: Answer, weight: real)
    ensures Assess(key, a, weight).contribution == weight * Assess(key, a, 1.0).contribution
    ensures Assess(key, a, weight).critical == Assess(key, a, 1.0).critical
  {
  }

  /** Every answer earns between 0% and 120% of a non-negative weight, a critical finding
      comes with at least 90%, and an array or object earns nothing. */
  lemma AssessRange(key: string, a: Answer, weight: real)
    requires weight >= 0.0
    ensures 0.0 <= Assess(key, a, weight).contribution <= weight * 1.2
    ensures Assess(key, a, weight).critical.Some? ==> Assess(key, a, weight).contribution >= weight * 0.9
    ensures a.Other? ==> Assess(key, a, weight) == Assessment(0.0, None)
  {
  }

  /** The numeric rules grade a higher reading at least as high, and a reading that is
      critical stays critical when it rises. */
  lemma NumericRulesMonotone(key: string, x: real, y: real, weight: real)
    requires key in {"temperature", "duration", "frequency"}
    requires x <= y && weight >= 0.0
    ensures Assess(key, Num(x), weight).contribution <= Assess(key, Num(y), weight).contribution
    ensures Assess(key, Num(x), weight).critical.Some? ==> Assess(key, Num(y), weight).critical.Some?
  {
  }

  /** The exact thresholds at which a numeric reading becomes critical. */
  lemma NumericCriticalThresholds(x: real, weight: real)
    ensures Assess("temperature", Num(x), weight).critical.Some? <==> x >= 103.0
    ensures Assess("duration", Num(x), weight).critical.Some? <==> x >= 14.0
    ensures Assess("frequency", Num(x), weight).critical.Some? <==> x >= 10.0
  {
  }

  /** The temperature tiers at their boundaries. */
  lemma TemperatureTiers(x: real, weight: real)
    ensures x >= 104.0 ==> Assess("temperature", Num(x), weight).contribution == weight * 1.2
    ensures 103.0 <= x < 104.0 ==> Assess("temperature", Num(x), weight).contribution == weight
    ensures 101.0 <= x < 103.0 ==> Assess("temperature", Num(x), weight).contribution == weight * 0.75
    ensures 99.5 <= x < 101.0 ==> Assess("temperature", Num(x), weight).contribution == weight * 0.5
    ensures 98.6 <= x < 99.5 ==> Assess("temperature", Num(x), weight).contribution == weight * 0.25
    ensures x < 98.6 ==> Assess("temperature", Num(x), weight).contribution == 0.0
  {
  }

  /** The duration and frequency tiers; an answered reading never earns less than 40%. */
  lemma CountTiers(key: string, x: real, weight: real)
    requires key in {"duration", "frequency"}
    ensures x >= (if key == "duration" then 14.0 else 10.0) ==> Assess(key, Num(x), weight).contribution == weight
    ensures (if key == "duration" then 7.0 else 6.0) <= x < (if key == "duration" then 14.0 else 10.0)
            ==> Assess(key, Num(x), weight).contribution == weight * 0.8
    ensures 3.0 <= x < (if key == "duration" then 7.0 else 6.0) ==> Assess(key, Num(x), weight).contribution == weight * 0.6
    ensures x < 3.0 ==> Assess(key, Num(x), weight).contribution == weight * 0.4
  {
  }

  lemma {:induction false} ScanFindsSlash(s: string, i: nat, k: int)
    requires 0 < k < |s| - 1 && SlashBetweenDigits(s, k)
    requires i <= k - 1
    ensures ScanFrom(s, i).Some?
    decreases k - i
  {
    if i == k - 1 {
      assert DigitRun(s, k + 1) > 0;
      assert DigitRun(s, k) == 0;
      assert DigitRun(s, i) == 1;
      assert MatchAt(s, i).Some?;
    } else if MatchAt(s, i).None? {
      ScanFindsSlash(s, i + 1, k);
    }
  }

  lemma {:induction false} ScanMeansSlash(s: string, i: nat)
    requires i <= |s|
    requires ScanFrom(s, i).Some?
    ensures HasDigitSlashDigit(s)
    decreases |s| - i
  {
    if MatchAt(s, i).Some? {
      var n1 := DigitRun(s, i);
      var k := i + n1;
      assert DigitRun(s, k + 1) > 0;
      assert SlashBetweenDigits(s, k);
    } else {
      ScanMeansSlash(s, i + 1);
    }
  }

  /** The scanner finds a reading exactly when some `/` stands between two digits. */
  lemma BloodPressureMatchIff(s: string)
    ensures MatchBloodPressure(s).Some? <==> HasDigitSlashDigit(s)
  {
    if MatchBloodPressure(s).Some? {
      ScanMeansSlash(s, 0);
    }
    if HasDigitSlashDigit(s) {
      var k :| 0 < k < |s| - 1 && SlashBetweenDigits(s, k);
      ScanFindsSlash(s, 0, k);
    }
  }

  /** A `bp_level` string with no `digits/digits` in it earns nothing and is not passed on
      to the yes/no or text rules, so even "yes" earns 0 under `bp_level`. */
  lemma BloodPressureWithoutReading(s: string, weight: real)
    requires !HasDigitSlashDigit(s)
    ensures Assess("bp_level", Str(s), weight) == Assessment(0.0, None)
  {
    BloodPressureMatchIff(s);
  }

  /** The blood-pressure stages of a reading that was found. */
  lemma BloodPressureStages(s: string, r: Reading, weight: real)
    requires MatchBloodPressure(s) == Some(r)
    ensures Assess("bp_level", Str(s), weight).critical.Some? <==> r.systolic >= 180 || r.diastolic >= 120
    ensures (r.systolic >= 180 || r.diastolic >= 120) ==> Assess("bp_level", Str(s), weight).contribution == weight * 1.2
    ensures !(r.systolic >= 180 || r.diastolic >= 120) && (r.systolic >= 140 || r.diastolic >= 90)
            ==> Assess("bp_level", Str(s), weight).contribution == weight * 0.9
    ensures !(r.systolic >= 140 || r.diastolic >= 90) && (r.systolic >= 130 || r.diastolic >= 80)
            ==> Assess("bp_level", Str(s), weight).contribution == weight * 0.6
    ensures !(r.systolic >= 130 || r.diastolic >= 80) ==> Assess("bp_level", Str(s), weight).contribution == weight * 0.3
  {
  }

  lemma {:induction false} DigitRunOfDigits(s: string, i: nat, j: nat)
    requires i <= j <= |s|
    requires forall k :: i <= k < j ==> IsDecimalDigit(s[k])
    requires j == |s| || !IsDecimalDigit(s[j])
    ensures DigitRun(s, i) == j - i
    decreases j - i
  {
    if i < j {
      DigitRunOfDigits(s, i + 1, j);
    }
  }

  /** The reading "145/95" is found as systolic 145 over diastolic 95. */
  lemma ReadingOf145Over95()
    ensures MatchBloodPressure("145/95") == Some(Reading(145, 95))
  {
    var s := "145/95";
    DigitRunOfDigits(s, 0, 3);
    DigitRunOfDigits(s, 4, 6);
    assert s[0..3] == "145" && s[4..6] == "95";
    assert DigitsValue("145", 10) == 145 by {
      assert "145"[..2] == "14" && "14"[..1] == "1" && "1"[..0] == "";
    }
    assert DigitsValue("95", 10) == 95 by {
      assert "95"[..1] == "9" && "9"[..0] == "";
    }
  }

  /** Whatever the key, a "yes" (the string or `true`) is scored by the yes/no rule, except
      a "yes" string under `bp_level`, which the blood-pressure rule claims. */
  lemma YesDispatch(key: string, a: Answer, weight: real)
    requires IsYes(a)
    requires !(key == "bp_level" && a.Str?)
    ensures Assess(key, a, weight) == YesRule(key, weight)
  {
  }

  lemma CriticalKeyIsNotBloodPressure(key: string)
    requires key in CriticalKeys
    ensures key != "bp_level"
  {
    assert |key| != |"bp_level"|;
  }

  /** A "yes" under one of the six emergency keys earns 120% and a critical finding named
      after the key. */
  lemma CriticalYes(key: string, a: Answer, weight: real)
    requires IsYes(a) && key in CriticalKeys
    ensures Assess(key, a, weight) == Assessment(weight * 1.2, Some(Spaced(key)))
  {
    CriticalKeyIsNotBloodPressure(key);
    YesDispatch(key, a, weight);
  }

  /** A "yes" under any other key (but a "yes" string under `bp_level`) earns the full
      weight and no finding, the numeric keys included. */
  lemma PlainYes(key: string, a: Answer, weight: real)
    requires IsYes(a) && key !in CriticalKeys
    requires !(key == "bp_level" && a.Str?)
    ensures Assess(key, a, weight) == Assessment(weight, None)
  {
    YesDispatch(key, a, weight);
  }

  /** Free text other than "yes" earns a share only under the four keyword keys (and a
      blood-pressure reading under `bp_level`); under any other key, "no" included, it
      earns nothing. */
  lemma TextAnswers(key: string, s: string, weight: real)
    requires s != "yes" && weight >= 0.0
    ensures key in KeywordKeys ==> Assess(key, Str(s), weight).contribution >= weight * 0.3
    ensures key !in KeywordKeys && key != "bp_level" ==> Assess(key, Str(s), weight) == Assessment(0.0, None)
  {
  }

  /** Free text other than "yes", under any key but `bp_level`, is scored by the keyword
      rules on its lower-cased form. */
  lemma TextDispatch(key: string, s: string, weight: real)
    requires s != "yes" && key != "bp_level"
    ensures Assess(key, Str(s), weight) == TextRule(key, Lower(s), weight)
  {
  }

  /** The `pain_type` and `cough_type` tiers: 90% for a constant, severe, sharp or radiating
      pain, 60% for an intermittent or moderate one, 40% otherwise; never a finding. */
  lemma PainTiers(key: string, s: string, weight: real)
    requires key == "pain_type" || key == "cough_type"
    requires s != "yes"
    ensures var l := Lower(s);
      (Contains(l, "constant") || Contains(l, "severe") || Contains(l, "sharp") || Contains(l, "radiating"))
      ==> Assess(key, Str(s), weight) == Assessment(weight * 0.9, None)
    ensures var l := Lower(s);
      !(Contains(l, "constant") || Contains(l, "severe") || Contains(l, "sharp") || Contains(l, "radiating"))
      && (Contains(l, "intermittent") || Contains(l, "moderate"))
      ==> Assess(key, Str(s), weight) == Assessment(weight * 0.6, None)
    ensures var l := Lower(s);
      !(Contains(l, "constant") || Contains(l, "severe") || Contains(l, "sharp") || Contains(l, "radiating"))
      && !(Contains(l, "intermittent") || Contains(l, "moderate"))
      ==> Assess(key, Str(s), weight) == Assessment(weight * 0.4, None)
  {
    assert key != "bp_level" by {
      assert |key| != |"bp_level"|;
    }
    TextDispatch(key, s, weight);
  }

  /** The `discharge_type` tiers: a green or bloody discharge earns 90% and is reported as
      a finding worded from the lower-cased answer, a yellow one 70%, any other 40%. */
  lemma DischargeTiers(s: string, weight: real)
    requires s != "yes"
    ensures var l := Lower(s);
      (Contains(l, "green") || Contains(l, "blood"))
      ==> Assess("discharge_type", Str(s), weight) == Assessment(weight * 0.9, Some(l + " discharge"))
    ensures var l := Lower(s);
      !(Contains(l, "green") || Contains(l, "blood")) && Contains(l, "yellow")
      ==> Assess("discharge_type", Str(s), weight) == Assessment(weight * 0.7, None)
    ensures var l := Lower(s);
      !(Contains(l, "green") || Contains(l, "blood")) && !Contains(l, "yellow")
      ==> Assess("discharge_type", Str(s), weight) == Assessment(weight * 0.4, None)
  {
    TextDispatch("discharge_type", s, weight);
  }

  /** The `severity` tiers: the full weight for a severe answer, 60% for a moderate one,
      30% otherwise; never a finding. */
  lemma SeverityTiers(s: string, weight: real)
    requires s != "yes"
    ensures var l := Lower(s);
      Contains(l, "severe") ==> Assess("severity", Str(s), weight) == Assessment(weight, None)
    ensures var l := Lower(s);
      !Contains(l, "severe") && Contains(l, "moderate")
      ==> Assess("severity", Str(s), weight) == Assessment(weight * 0.6, None)
    ensures var l := Lower(s);
      !Contains(l, "severe") && !Contains(l, "moderate")
      ==> Assess("severity", Str(s), weight) == Assessment(weight * 0.3, None)
  {
    TextDispatch("severity", s, weight);
  }

  /** A number earns something only under the three numeric keys; `false` never earns. */
  lemma NonTextAnswers(key: string, x: real, weight: real)
    ensures key !in {"temperature", "duration", "frequency"} ==> Assess(key, Num(x), weight) == Assessment(0.0, None)
    ensures Assess(key, Bool(false), weight) == Assessment(0.0, None)
  {
  }

  /** Only these keys ever produce a critical finding. */
  lemma CriticalKeysOnly(key: string, a: Answer, weight: real)
    requires Assess(key, a, weight).critical.Some?
    ensures key in CriticalKeys || key in {"temperature", "duration", "frequency", "bp_level", "discharge_type"}
  {
  }
}
