/** The records of an exam definition and of a candidate's answers, as declared
    in src/types/exam.ts. */
module ExamTypes {
  import opened Wrappers
  import opened JsStrings
  import opened JsonValue

  datatype QuestionType =
    | SingleChoice
    | MultipleChoice
    | TrueFalse
    | FillInBlank
    | ShortAnswer
    | Calculation
    | Coding

  /** The wire name of each question type. */
  function TypeName(t: QuestionType): string {
    match t
    case SingleChoice => "single_choice"
    case MultipleChoice => "multiple_choice"
    case TrueFalse => "true_false"
    case FillInBlank => "fill_in_blank"
    case ShortAnswer => "short_answer"
    case Calculation => "calculation"
    case Coding => "coding"
  }

  /** Membership in the set of the seven type names, and the type it names. */
  function ParseType(name: string): (r: Option<QuestionType>)
    ensures r.Some? ==> TypeName(r.value) == name
    ensures forall t :: TypeName(t) == name ==> r == Some(t)
  {
    if name == "single_choice" then Some(SingleChoice)
    else if name == "multiple_choice" then Some(MultipleChoice)
    else if name == "true_false" then Some(TrueFalse)
    else if name == "fill_in_blank" then Some(FillInBlank)
    else if name == "short_answer" then Some(ShortAnswer)
    else if name == "calculation" then Some(Calculation)
    else if name == "coding" then Some(Coding)
    else None
  }

  /** An option of a choice question (`label` is a reserved word in Dafny). */
  datatype ChoiceOption = ChoiceOption(labelText: string, value: string)

  /** `string | string[]`, the shape of both reference answers and submitted
      answers. */
  datatype AnswerValue = Str(s: string) | Arr(items: seq<string>)

  /** `String(v)`: an array is joined with commas. */
  function Stringify(v: AnswerValue): string {
    match v
    case Str(s) => s
    case Arr(items) => Join(items, ",")
  }

  datatype Question = Question(
    id: string,
    idx: real,
    score: real,
    qtype: QuestionType,
    content: string,
    options: Option<seq<ChoiceOption>>,
    correctAnswer: AnswerValue,
    analysis: string,
    isLatex: Option<bool>,
    codeLanguage: Option<string>,
    defaultCode: Option<string>)

  datatype Section = Section(
    id: string,
    title: string,
    description: string,
    sectionType: string,
    questions: seq<Question>)

  datatype ExamMeta = ExamMeta(
    id: string,
    title: string,
    totalScore: real,
    duration: real,
    createTime: string,
    description: string)

  datatype ExamPaper = ExamPaper(examMeta: ExamMeta, sections: seq<Section>)

  datatype AiGrade = AiGrade(
    score: Num,
    feedback: Option<string>,
    model: Option<string>,
    gradedAt: Option<string>)

  datatype UserAnswer = UserAnswer(
    questionId: string,
    answer: AnswerValue,
    aiGrade: Option<AiGrade>)

  /** `paper.sections.flatMap(section => section.questions)`. */
  function AllQuestions(sections: seq<Section>): (r: seq<Question>)
    ensures |sections| == 0 ==> r == []
  {
    if |sections| == 0 then []
    else AllQuestions(sections[..|sections| - 1]) + sections[|sections| - 1].questions
  }

  /** A question is in the flattened list exactly when some section holds it. */
  lemma {:induction false} AllQuestionsMembership(sections: seq<Section>, q: Question)
    ensures q in AllQuestions(sections) <==> exists i :: 0 <= i < |sections| && q in sections[i].questions
  {
    if |sections| > 0 {
      var init := sections[..|sections| - 1];
      AllQuestionsMembership(init, q);
      if q in AllQuestions(sections) && q !in sections[|sections| - 1].questions {
        var i :| 0 <= i < |init| && q in init[i].questions;
        assert sections[i] == init[i];
      }
      if exists i :: 0 <= i < |sections| && q in sections[i].questions {
        var i :| 0 <= i < |sections| && q in sections[i].questions;
        if i < |init| {
          assert init[i] == sections[i];
        }
      }
    }
  }

  /** The ids of all questions of a paper. */
  function QuestionIds(sections: seq<Section>): set<string> {
    set q | q in AllQuestions(sections) :: q.id
  }
}
