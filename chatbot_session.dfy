/** The chatbot page's questionnaire state: the selection, the merged questions, the
    index of the question being asked, the stored answers, the text box and the
    conversation; `handleSend` steps through the questions one answer at a time. */
module ChatbotSession {

  import opened Text
  import opened Diseases
  import opened ChatbotQuestions
  import opened ChatbotAnswers

  datatype Sender = User | Bot

  datatype Message = Message(sender: Sender, text: string)

  const Welcome: string := "Welcome! Please select diseases or symptoms to begin diagnosis."

  class Session {
    var selectedDiseases: seq<string>
    var questions: seq<Question>
    var currentQuestionIndex: nat
    var responses: Answers
    var input: string
    var messages: seq<Message>

    /** Every question before the current one has a stored answer. */
    predicate AnsweredSoFar()
      reads this
    {
      forall i :: 0 <= i < currentQuestionIndex && i < |questions| ==> questions[i].key in responses
    }

    /** The page's initial state: nothing selected, only the welcome message. */
    constructor ()
      ensures selectedDiseases == [] && questions == [] && currentQuestionIndex == 0
      ensures responses == map[] && input == "" && messages == [Message(Bot, Welcome)]
      ensures AnsweredSoFar()
    {
      selectedDiseases := [];
      questions := [];
      currentQuestionIndex := 0;
      responses := map[];
      input := "";
      messages := [Message(Bot, Welcome)];
    }

    /** A new selection and the effect it triggers: a non-empty selection loads the merged
        questions and starts over; an empty one clears the questions only. */
    method Select(catalogue: Catalogue, selected: seq<string>)
      modifies this
      ensures selectedDiseases == selected
      ensures |selected| > 0 ==>
        questions == MergeQuestions(catalogue, selected) && responses == map[] && currentQuestionIndex == 0
      ensures |selected| == 0 ==>
        questions == [] && responses == old(responses) && currentQuestionIndex == old(currentQuestionIndex)
      ensures input == old(input) && messages == old(messages)
      ensures AnsweredSoFar()
    {
      selectedDiseases := selected;
      if |selected| > 0 {
        questions := MergeQuestions(catalogue, selected);
        responses := map[];
        currentQuestionIndex := 0;
      } else {
        questions := [];
      }
    }

    /** Typing into the text box. */
    method Type(text: string)
      modifies this
      ensures input == text
      ensures selectedDiseases == old(selectedDiseases) && questions == old(questions)
      ensures currentQuestionIndex == old(currentQuestionIndex) && responses == old(responses)
      ensures messages == old(messages)
    {
      input := text;
    }

    /** `handleSend`: a blank input, or no question left at the index, changes nothing.
        Otherwise the question and the answer join the conversation, the answer is stored
        under the question's key, the text box is cleared and the index moves on; on the
        last question it stays and `submit` says the request for a diagnosis goes out. */
    method Send() returns (submit: bool)
      requires AnsweredSoFar()
      modifies this
      ensures AnsweredSoFar()
      ensures IsBlank(old(input)) || old(currentQuestionIndex) >= |old(questions)| ==>
        !submit && unchanged(this)
      ensures !IsBlank(old(input)) && old(currentQuestionIndex) < |old(questions)| ==>
        var q := old(questions)[old(currentQuestionIndex)];
        && messages == old(messages) + [Message(Bot, q.text), Message(User, old(input))]
        && responses == old(responses)[q.key := Coerce(q, old(input))]
        && input == ""
        && selectedDiseases == old(selectedDiseases) && questions == old(questions)
        && currentQuestionIndex == (if old(currentQuestionIndex) < |questions| - 1 then old(currentQuestionIndex) + 1 else old(currentQuestionIndex))
        && submit == (old(currentQuestionIndex) == |questions| - 1)
      ensures submit ==> forall i :: 0 <= i < |questions| ==> questions[i].key in responses
    {
      submit := false;
      if IsBlank(input) || currentQuestionIndex >= |questions| {
        return;
      }
      var question := questions[currentQuestionIndex];
      messages := messages + [Message(Bot, question.text), Message(User, input)];
      responses := responses[question.key := Coerce(question, input)];
      input := "";
      if currentQuestionIndex < |questions| - 1 {
        currentQuestionIndex := currentQuestionIndex + 1;
      } else {
        submit := true;
      }
    }
  }
}
