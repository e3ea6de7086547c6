/**
 * The rows of the forms database that the questionnaire engine reads and writes: questions,
 * follow-up questions (SubQuestion) conditioned on an option of their parent, and the answer
 * records of one response. A column that may be NULL is an Option.
 */
module Schema {
  import opened Wrappers

  datatype Question = Question(
    id: nat,
    formId: nat,
    text: string,
    qtype: string,
    options: Option<string>,   // JSON text of the option list
    required: bool,
    order: int)

  /**
   * A follow-up question. `parentOption` is the option text it hangs on: the bare option text
   * at nesting level 1, "<level-0 option>|<level-1 option>" at nesting level 2.
   */
  datatype SubQuestion = SubQuestion(
    id: nat,
    questionId: nat,
    parentOption: string,
    text: string,
    qtype: string,
    options: Option<string>,
    required: bool,
    order: int,
    nestingLevel: int)

  datatype Answer = Answer(responseId: nat, questionId: nat, answerText: string)

  datatype SubQuestionAnswer = SubQuestionAnswer(
    responseId: nat,
    subquestionId: nat,
    selectedOption: Option<string>,
    answerText: string)

  /** The parent-option key of a level-2 follow-up: the level-0 and level-1 options, joined by "|". */
  function CompositeKey(option0: string, option1: string): string {
    option0 + "|" + option1
  }

  /** The question types whose options can reveal follow-up questions. */
  predicate IsChoice(qtype: string) {
    qtype == "radio" || qtype == "multiple_choice" || qtype == "checkbox"
  }
}
