/** The question slice of the store: the listed questions and the question
    whose details are open, each replaced independently. */
module QuestionReducer {
  import opened Base
  import opened Entities

  datatype State = State(questions: seq<Question>, openedQuestion: Option<QuestionDetails>)

  datatype Action =
    | SetQuestions(questions: seq<Question>)
    | SetOpenedQuestion(question: Option<QuestionDetails>)

  /** The slice before any action: no questions, none opened. */
  const InitialState: State := State([], None)

  /** The slice after one action: each action replaces its own field and
      leaves the other as it was. */
  function Reduce(state: State, action: Action): (r: State)
    ensures action.SetQuestions? ==>
      r.questions == action.questions && r.openedQuestion == state.openedQuestion
    ensures action.SetOpenedQuestion? ==>
      r.openedQuestion == action.question && r.questions == state.questions
  {
    match action
    case SetQuestions(qs) => state.(questions := qs)
    case SetOpenedQuestion(q) => state.(openedQuestion := q)
  }

  /** Applying an action twice is applying it once, and the two actions
      commute. */
  lemma ReduceLaws(s: State, a: Action, qs: seq<Question>, q: Option<QuestionDetails>)
    ensures Reduce(Reduce(s, a), a) == Reduce(s, a)
    ensures Reduce(Reduce(s, SetQuestions(qs)), SetOpenedQuestion(q))
         == Reduce(Reduce(s, SetOpenedQuestion(q)), SetQuestions(qs))
  {
  }
}
