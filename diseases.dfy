/** The disease catalogue (`diseaseQuestions.json`): for each disease its questionnaire and
    its severity formula. The catalogue itself is not part of this model; every operation
    takes it as a parameter. */
module Diseases {

  import opened Basics

  /** The `type` of a question; only `"number"` changes how an answer is stored. */
  datatype QuestionKind = NumberQuestion | YesNoQuestion | TextQuestion

  datatype Question = Question(id: int, text: string, key: string, kind: QuestionKind)

  /** A formula is an object from answer key to weight; its entries are kept in the
      order `Object.keys` yields them, which decides the order of critical findings. */
  type Formula = seq<(string, real)>

  /** A catalogue entry. A missing `severityFormula` or `questions` is the empty one. */
  datatype Disease = Disease(questions: seq<Question>, formula: Formula)

  type Catalogue = map<string, Disease>

  /** `catalogue[name]`, which is `undefined` for an unknown name. */
  function Find(catalogue: Catalogue, name: string): (d: Option<Disease>)
    ensures d.Some? <==> name in catalogue
    ensures d.Some? ==> d.value == catalogue[name]
  {
    if name in catalogue then Some(catalogue[name]) else None
  }
}
