/** The chatbot page's own severity number, `calculateSeverity`: for every selected disease
    the weights of the questions answered `"yes"`, summed, then averaged over the number of
    selected diseases. Reading the formula of an unknown disease throws a `TypeError`,
    modelled as `None`. */
module ClientSeverity {

  import opened Basics
  import opened Lists
  import opened Diseases
  import opened ChatbotAnswers

  /** `formula[key] || 0`: the weight of the key's entry, and 0 when the key has none. */
  function WeightOf(es: Formula, key: string): (w: real)
    ensures (forall j :: 0 <= j < |es| ==> es[j].0 != key) ==> w == 0.0
    ensures forall j :: 0 <= j < |es| && es[j].0 == key && (forall m :: 0 <= m < j ==> es[m].0 != key) ==> w == es[j].1
  {
    if es == [] then 0.0
    else if es[0].0 == key then es[0].1
    else
      var w := WeightOf(es[1..], key);
      assert forall j :: 1 <= j < |es| ==> es[j] == es[1..][j - 1];
      w
  }

  /** `catalogue[name]?.severityFormula`, `undefined` for an unknown name. */
  function FormulaOf(catalogue: Catalogue, name: string): Option<Formula> {
    if name in catalogue then Some(catalogue[name].formula) else None
  }

  /** The inner `forEach` over the questions for one disease; reading a weight from an
      undefined formula fails. */
  function DiseaseSeverity(formula: Option<Formula>, qs: seq<Question>, answers: Answers): Option<real> {
    if qs == [] then Some(0.0)
    else
      match DiseaseSeverity(formula, qs[..|qs| - 1], answers)
      case None => None
      case Some(s) =>
        var key := qs[|qs| - 1].key;
        if !Truthy(answers, key) then Some(s)
        else if formula.None? then None
        else Some(s + if AnsweredYes(answers, key) then WeightOf(formula.value, key) else 0.0)
  }

  /** The outer `forEach` over the selected diseases. */
  function TotalSeverity(catalogue: Catalogue, selected: seq<string>, qs: seq<Question>, answers: Answers): Option<real> {
    if selected == [] then Some(0.0)
    else
      match TotalSeverity(catalogue, selected[..|selected| - 1], qs, answers)
      case None => None
      case Some(t) =>
        match DiseaseSeverity(FormulaOf(catalogue, selected[|selected| - 1]), qs, answers)
        case None => None
        case Some(d) => Some(t + d)
  }

  /** `diseasesCount > 0 ? totalSeverity / diseasesCount : 0`. */
  function Severity(catalogue: Catalogue, selected: seq<string>, qs: seq<Question>, answers: Answers): (r: Option<real>)
    ensures selected == [] ==> r == Some(0.0)
  {
    match TotalSeverity(catalogue, selected, qs, answers)
    case None => None
    case Some(t) => Some(if |selected| > 0 then t / |selected| as real else 0.0)
  }

  /** `calculateSeverity` with its two nested loops; `None` where the page throws. */
  method CalculateSeverity(catalogue: Catalogue, selectedDiseases: seq<string>, questions: seq<Question>, responses: Answers)
    returns (r: Option<real>)
    ensures r == Severity(catalogue, selectedDiseases, questions, responses)
  {
    var totalSeverity := 0.0;
    var diseasesCount := |selectedDiseases|;
    var i := 0;
    while i < |selectedDiseases|
      invariant 0 <= i <= |selectedDiseases|
      invariant TotalSeverity(catalogue, selectedDiseases[..i], questions, responses) == Some(totalSeverity)
    {
      var formula := FormulaOf(catalogue, selectedDiseases[i]);
      var diseaseSeverity := 0.0;
      var j := 0;
      while j < |questions|
        invariant 0 <= j <= |questions|
        invariant DiseaseSeverity(formula, questions[..j], responses) == Some(diseaseSeverity)
      {
        var key := questions[j].key;
        assert questions[..j + 1][..j] == questions[..j];
        if Truthy(responses, key) {
          if formula.None? {
            TotalSeverityFails(catalogue, selectedDiseases, questions, responses);
            assert selectedDiseases[i] !in catalogue;
            assert Truthy(responses, questions[j].key);
            return None;
          }
          var weight := WeightOf(formula.value, key);
          diseaseSeverity := diseaseSeverity + (if AnsweredYes(responses, key) then weight else 0.0);
        }
        j := j + 1;
      }
      assert questions[..j] == questions;
      assert selectedDiseases[..i + 1][..i] == selectedDiseases[..i];
      totalSeverity := totalSeverity + diseaseSeverity;
      i := i + 1;
    }
    assert selectedDiseases[..i] == selectedDiseases;
    r := Some(if diseasesCount > 0 then totalSeverity / diseasesCount as real else 0.0);
  }

  // ---------------------------------------------------------------------------
  // The same number read off the "yes" answers

  /** The questions answered exactly `"yes"`, in question order. */
  function YesQuestions(qs: seq<Question>, answers: Answers): seq<Question> {
    Filter(qs, (q: Question) => AnsweredYes(answers, q.key))
  }

  /** The sum of the formula's weights of the given questions. */
  function WeightTotal(es: Formula, qs: seq<Question>): real {
    if qs == [] then 0.0 else WeightOf(es, qs[0].key) + WeightTotal(es, qs[1..])
  }

  lemma {:induction false} WeightTotalSnoc(es: Formula, qs: seq<Question>, q: Question)
    ensures WeightTotal(es, qs + [q]) == WeightTotal(es, qs) + WeightOf(es, q.key)
  {
    if qs == [] {
      assert qs + [q] == [q];
      assert [q][1..] == [];
    } else {
      assert (qs + [q])[0] == qs[0];
      assert (qs + [q])[1..] == qs[1..] + [q];
      WeightTotalSnoc(es, qs[1..], q);
    }
  }

  lemma YesQuestionsSnoc(qs: seq<Question>, q: Question, answers: Answers)
    ensures YesQuestions(qs + [q], answers) == YesQuestions(qs, answers) + if AnsweredYes(answers, q.key) then [q] else []
  {
    FilterSnoc(qs, q, (q: Question) => AnsweredYes(answers, q.key));
  }

  /** One more question for a known disease adds its weight when answered `"yes"`. */
  lemma DiseaseSeverityStep(es: Formula, p: seq<Question>, q: Question, answers: Answers, s: real)
    requires DiseaseSeverity(Some(es), p, answers) == Some(s)
    ensures DiseaseSeverity(Some(es), p + [q], answers) == Some(s + if AnsweredYes(answers, q.key) then WeightOf(es, q.key) else 0.0)
  {
    assert (p + [q])[..|p + [q]| - 1] == p;
    if AnsweredYes(answers, q.key) {
      assert Truthy(answers, q.key) by {
        assert |answers[q.key].s| == 3;
      }
    }
  }

  /** For a known disease, only the questions answered `"yes"` count, each with its key's
      weight; every other answer, truthy or not, adds nothing. */
  lemma {:induction false} DiseaseSeverityIsYesWeights(es: Formula, qs: seq<Question>, answers: Answers)
    ensures DiseaseSeverity(Some(es), qs, answers) == Some(WeightTotal(es, YesQuestions(qs, answers)))
  {
    if qs != [] {
      var p := qs[..|qs| - 1];
      var q := qs[|qs| - 1];
      var yes := YesQuestions(p, answers);
      DiseaseSeverityIsYesWeights(es, p, answers);
      assert p + [q] == qs;
      DiseaseSeverityStep(es, p, q, answers, WeightTotal(es, yes));
      YesQuestionsSnoc(p, q, answers);
      if AnsweredYes(answers, q.key) {
        WeightTotalSnoc(es, yes, q);
      } else {
        assert yes + [] == yes;
      }
    }
  }

  /** For one disease the page throws exactly when the disease is unknown and some
      question has a truthy answer. */
  lemma {:induction false} DiseaseSeverityFails(formula: Option<Formula>, qs: seq<Question>, answers: Answers)
    ensures DiseaseSeverity(formula, qs, answers).None? <==>
      formula.None? && exists i :: 0 <= i < |qs| && Truthy(answers, qs[i].key)
    ensures formula.None? && DiseaseSeverity(formula, qs, answers).Some? ==> DiseaseSeverity(formula, qs, answers) == Some(0.0)
  {
    if qs != [] {
      var p := qs[..|qs| - 1];
      DiseaseSeverityFails(formula, p, answers);
      assert forall i :: 0 <= i < |p| ==> p[i] == qs[i];
      if formula.None? && (exists i :: 0 <= i < |qs| && Truthy(answers, qs[i].key)) {
        var i :| 0 <= i < |qs| && Truthy(answers, qs[i].key);
        if i < |p| {
          assert Truthy(answers, p[i].key);
        }
      }
    }
  }

  /** The reference value: for every known selected disease, the weights of the
      questions answered `"yes"`. */
  function YesSum(catalogue: Catalogue, selected: seq<string>, qs: seq<Question>, answers: Answers): real {
    if selected == [] then 0.0
    else
      var name := selected[|selected| - 1];
      YesSum(catalogue, selected[..|selected| - 1], qs, answers)
      + if name in catalogue then WeightTotal(catalogue[name].formula, YesQuestions(qs, answers)) else 0.0
  }

  /** Some question has a truthy answer. */
  predicate AnyTruthy(qs: seq<Question>, answers: Answers) {
    exists i :: 0 <= i < |qs| && Truthy(answers, qs[i].key)
  }

  /** Some selected disease is unknown to the catalogue. */
  predicate AnyUnknown(catalogue: Catalogue, selected: seq<string>) {
    exists i :: 0 <= i < |selected| && selected[i] !in catalogue
  }

  /** Over all selected diseases the page throws exactly when one of them is unknown and
      some question has a truthy answer. */
  lemma {:induction false} TotalSeverityFails(catalogue: Catalogue, selected: seq<string>, qs: seq<Question>, answers: Answers)
    ensures TotalSeverity(catalogue, selected, qs, answers).None? <==> AnyUnknown(catalogue, selected) && AnyTruthy(qs, answers)
  {
    if selected != [] {
      var p := selected[..|selected| - 1];
      var name := selected[|selected| - 1];
      TotalSeverityFails(catalogue, p, qs, answers);
      DiseaseSeverityFails(FormulaOf(catalogue, name), qs, answers);
      assert forall i :: 0 <= i < |p| ==> p[i] == selected[i];
      if AnyUnknown(catalogue, selected) {
        var i :| 0 <= i < |selected| && selected[i] !in catalogue;
        if i < |p| {
          assert p[i] !in catalogue;
        }
      }
    }
  }

  /** When the page does not throw, its total is the reference sum. */
  lemma {:induction false} TotalSeverityIsYesSum(catalogue: Catalogue, selected: seq<string>, qs: seq<Question>, answers: Answers)
    requires TotalSeverity(catalogue, selected, qs, answers).Some?
    ensures TotalSeverity(catalogue, selected, qs, answers) == Some(YesSum(catalogue, selected, qs, answers))
  {
    if selected != [] {
      var p := selected[..|selected| - 1];
      var name := selected[|selected| - 1];
      TotalSeverityIsYesSum(catalogue, p, qs, answers);
      if name in catalogue {
        DiseaseSeverityIsYesWeights(catalogue[name].formula, qs, answers);
      } else {
        DiseaseSeverityFails(None, qs, answers);
      }
    }
  }

  /** `calculateSeverity` throws exactly when some selected disease is unknown and some
      question has a truthy answer; otherwise it is the yes-weight sum averaged over the
      selected diseases, and 0 when none is selected. */
  lemma SeverityIsAverageOfYesWeights(catalogue: Catalogue, selected: seq<string>, qs: seq<Question>, answers: Answers)
    ensures Severity(catalogue, selected, qs, answers).None? <==> AnyUnknown(catalogue, selected) && AnyTruthy(qs, answers)
    ensures Severity(catalogue, selected, qs, answers).Some? ==>
      Severity(catalogue, selected, qs, answers)
      == Some(if |selected| > 0 then YesSum(catalogue, selected, qs, answers) / |selected| as real else 0.0)
  {
    TotalSeverityFails(catalogue, selected, qs, answers);
    if TotalSeverity(catalogue, selected, qs, answers).Some? {
      TotalSeverityIsYesSum(catalogue, selected, qs, answers);
    }
  }
}
