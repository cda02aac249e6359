/** The `POST /api/get-response` handler up to the point where it calls the language model:
    the selected disease names are checked and resolved against the catalogue, the matched
    definitions are scored, and the score is reported on a 0-10 scale. */
module GetResponse {

  import opened Basics
  import opened Lists
  import opened Diseases
  import opened SeverityRules
  import opened SeverityEngine
  import opened SeverityFacts

  /** A `400` answer: the status code and the `message` of its JSON body. */
  datatype Rejection = Rejection(status: nat, message: string)

  /** What the handler reports about the severity next to the model's advice. */
  datatype Verdict = Verdict(severity: Label, severityScore: real, severityDetails: string)

  /** The selected names the catalogue knows, in selection order. */
  function KnownNames(catalogue: Catalogue, names: seq<string>): seq<string> {
    Filter(names, (n: string) => n in catalogue)
  }

  /** `names.map(n => catalogue[n]).filter(Boolean)`: every entry is an object, so exactly
      the `undefined` results of unknown names are dropped. */
  function Resolve(catalogue: Catalogue, names: seq<string>): (ds: seq<Disease>)
    ensures |ds| <= |names|
    ensures forall d :: d in ds <==> exists i :: 0 <= i < |names| && names[i] in catalogue && catalogue[names[i]] == d
  {
    if names == [] then []
    else
      var rest := Resolve(catalogue, names[1..]);
      assert forall i :: 1 <= i < |names| ==> names[i] == names[1..][i - 1];
      assert forall i :: 0 <= i < |names| - 1 ==> names[1..][i] == names[i + 1];
      if names[0] in catalogue then [catalogue[names[0]]] + rest else rest
  }

  /** The matched definitions are those of the known names, one for one and in the same order. */
  lemma {:induction false} ResolveFollowsKnownNames(catalogue: Catalogue, names: seq<string>)
    ensures |Resolve(catalogue, names)| == |KnownNames(catalogue, names)|
    ensures forall i :: 0 <= i < |Resolve(catalogue, names)| ==>
      KnownNames(catalogue, names)[i] in catalogue
      && Resolve(catalogue, names)[i] == catalogue[KnownNames(catalogue, names)[i]]
  {
    if names != [] {
      ResolveFollowsKnownNames(catalogue, names[1..]);
    }
  }

  /** Resolving a concatenation resolves the parts one after the other. */
  lemma {:induction false} ResolveAppend(catalogue: Catalogue, a: seq<string>, b: seq<string>)
    ensures Resolve(catalogue, a + b) == Resolve(catalogue, a) + Resolve(catalogue, b)
  {
    if a == [] {
      assert a + b == b;
    } else {
      assert (a + b)[0] == a[0];
      assert (a + b)[1..] == a[1..] + b;
      ResolveAppend(catalogue, a[1..], b);
    }
  }

  /** Unknown names are dropped silently: they change nothing about the match. */
  lemma UnknownNameIgnored(catalogue: Catalogue, a: seq<string>, name: string, b: seq<string>)
    requires name !in catalogue
    ensures Resolve(catalogue, a + [name] + b) == Resolve(catalogue, a + b)
  {
    ResolveAppend(catalogue, a + [name], b);
    ResolveAppend(catalogue, a, [name]);
    ResolveAppend(catalogue, a, b);
    assert Resolve(catalogue, [name]) == Resolve(catalogue, []);
  }

  /** The selection check: a missing (`undefined` or `null`) or empty `diseases` list is
      refused, so is one where no name resolves; otherwise the matched definitions. */
  function MatchDiseases(catalogue: Catalogue, selection: Option<seq<string>>): (r: Result<seq<Disease>, Rejection>)
    ensures (selection.None? || selection.value == []) ==> r == Err(Rejection(400, "No diseases selected."))
    ensures selection.Some? && selection.value != [] && (forall i :: 0 <= i < |selection.value| ==> selection.value[i] !in catalogue)
      ==> r == Err(Rejection(400, "Invalid disease(s) selected."))
    ensures r.Ok? ==> selection.Some? && r.value == Resolve(catalogue, selection.value) && r.value != []
    ensures r.Ok? <==> selection.Some? && exists i :: 0 <= i < |selection.value| && selection.value[i] in catalogue
  {
    if selection.None? || |selection.value| == 0 then
      Err(Rejection(400, "No diseases selected."))
    else
      var matched := Resolve(catalogue, selection.value);
      if |matched| == 0 then
        assert forall i :: 0 <= i < |selection.value| && selection.value[i] in catalogue ==>
          catalogue[selection.value[i]] in matched;
        Err(Rejection(400, "Invalid disease(s) selected."))
      else
        assert matched[0] in matched;
        Ok(matched)
  }

  /** `(score * 10)`: the severity on the 0-10 scale of the reply (formatting with one
      decimal is not modelled). */
  function DisplayScore(score: real): (d: real)
    ensures score <= 1.0 ==> d <= 10.0
    ensures 0.0 <= score ==> 0.0 <= d
    ensures d / 10.0 == score
  {
    score * 10.0
  }

  /** The handler from the parsed request body to its answer, leaving out the language
      model: either the selection rejection or the computed severity. */
  function Handle(catalogue: Catalogue, responses: Responses, selection: Option<seq<string>>): (r: Result<Verdict, Rejection>)
    ensures r.Err? <==> MatchDiseases(catalogue, selection).Err?
    ensures r.Err? ==> r.error == MatchDiseases(catalogue, selection).error
    ensures r.Ok? ==> r.value.severityScore <= 10.0
    ensures r.Ok? ==> r.value.severity == LabelFor(r.value.severityScore / 10.0)
    ensures r.Ok? ==>
      var res := SmartSeverity(responses, MatchDiseases(catalogue, selection).value);
      r.value == Verdict(res.severity, DisplayScore(res.score), res.details)
  {
    match MatchDiseases(catalogue, selection)
    case Err(e) => Err(e)
    case Ok(ds) =>
      var res := SmartSeverity(responses, ds);
      Ok(Verdict(res.severity, DisplayScore(res.score), res.details))
  }

  /** Every formula in the catalogue has non-negative weights. */
  predicate NonNegativeCatalogue(catalogue: Catalogue) {
    forall name :: name in catalogue ==> NonNegativeFormula(catalogue[name].formula)
  }

  /** With a catalogue of non-negative weights the reported score lies in [0, 10]. */
  lemma DisplayScoreInRange(catalogue: Catalogue, responses: Responses, selection: Option<seq<string>>)
    requires NonNegativeCatalogue(catalogue)
    requires Handle(catalogue, responses, selection).Ok?
    ensures 0.0 <= Handle(catalogue, responses, selection).value.severityScore <= 10.0
  {
    var ds := MatchDiseases(catalogue, selection).value;
    assert forall i :: 0 <= i < |ds| ==> ds[i] in ds;
    ScoreInUnitRange(responses, ds);
  }
}
