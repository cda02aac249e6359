/** How the chatbot page stores an answer typed for a question, and how it later reads
    the stored answers back. */
module ChatbotAnswers {

  import opened Text
  import opened Diseases

  /** A stored response: the `parseInt` of the input for a `"number"` question, which is
      `NaN` when the input has no digits, and the lowercased input for every other question. */
  datatype Stored = IntAnswer(n: int) | NaNAnswer | TextAnswer(s: string)

  /** The page's `responses` state, from question key to stored answer. */
  type Answers = map<string, Stored>

  /** `question.type === "number" ? parseInt(input) : input.toLowerCase()`. */
  function Coerce(q: Question, input: string): (v: Stored)
    ensures q.kind == NumberQuestion <==> !v.TextAnswer?
  {
    if q.kind == NumberQuestion then
      match ParseInt(input)
      case Int(n) => IntAnswer(n)
      case NaN => NaNAnswer
    else TextAnswer(Lower(input))
  }

  /** A number question given the numeral of an integer stores that integer. */
  lemma CoerceNumeral(q: Question, n: int)
    requires q.kind == NumberQuestion
    ensures Coerce(q, IntText(n)) == IntAnswer(n)
  {
    ParseIntText(n);
  }

  /** Any other question stores its input character by character in lower case, so the
      stored text does not depend on the letter case typed. */
  lemma CoerceText(q: Question, input: string)
    requires q.kind != NumberQuestion
    ensures Coerce(q, input).TextAnswer?
    ensures |Coerce(q, input).s| == |input|
    ensures forall i :: 0 <= i < |input| ==> Coerce(q, input).s[i] == LowerChar(input[i])
    ensures Coerce(q, Lower(input)) == Coerce(q, input)
  {
    LowerIdempotent(input);
  }

  /** `responses[key]` is truthy: the key is present and its value is not `0`, `NaN` or `""`. */
  predicate Truthy(answers: Answers, key: string) {
    key in answers &&
    match answers[key]
    case IntAnswer(n) => n != 0
    case NaNAnswer => false
    case TextAnswer(s) => s != ""
  }

  /** `responses[key] === "yes"`. */
  predicate AnsweredYes(answers: Answers, key: string) {
    key in answers && answers[key] == TextAnswer("yes")
  }
}
