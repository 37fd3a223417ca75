/** The exam store (src/store/examStore.ts): the loaded paper, the answers
    keyed by question id, the current position, the submitted flag and the
    state of AI grading. `checkAiHealth`, `requestAiGrades` and the clock are
    inputs to `GradeWithAI`. */
module ExamStore {
  import opened Wrappers
  import opened JsStrings
  import JsonValue
  import opened ExamTypes
  import opened Grading
  import opened GradeWire
  import AiGradingApi

  datatype AiStatus = Idle | Grading | Done | Error

  // ---------------------------------------------------------------------
  // Navigation

  /** A (section index, question index) pair. */
  datatype Position = Position(section: int, question: int)

  /** The number of questions of each section. */
  function Sizes(paper: ExamPaper): (r: seq<nat>)
    ensures |r| == |paper.sections|
  {
    seq(|paper.sections|, i requires 0 <= i < |paper.sections| => |paper.sections[i].questions|)
  }

  /** A position inside the paper. */
  predicate InPaper(sizes: seq<nat>, p: Position) {
    0 <= p.section < |sizes| && 0 <= p.question < sizes[p.section]
  }

  /** `nextQuestion`: the next index of the section, else index 0 of the next
      section, else no move. `None` when the section index does not name a
      section (reading its questions throws). */
  function NextPosition(sizes: seq<nat>, p: Position): (r: Option<Position>)
    ensures r.None? <==> !(0 <= p.section < |sizes|)
    ensures r.Some? ==> 0 <= r.value.section < |sizes| && p.section <= r.value.section <= p.section + 1
  {
    if !(0 <= p.section < |sizes|) then None
    else if p.question + 1 < sizes[p.section] then Some(Position(p.section, p.question + 1))
    else if p.section + 1 < |sizes| then Some(Position(p.section + 1, 0))
    else Some(p)
  }

  /** `prevQuestion`: the previous index of the section, else the last index
      of the previous section, else (0, 0). `None` when the previous section
      index does not name a section. */
  function PrevPosition(sizes: seq<nat>, p: Position): (r: Option<Position>)
    ensures 0 <= p.section < |sizes| ==> r.Some? && 0 <= r.value.section < |sizes|
    ensures r.Some? && r.value.section == p.section ==> r.value.question == p.question - 1 || r.value == Position(0, 0)
  {
    if p.question - 1 >= 0 then Some(Position(p.section, p.question - 1))
    else if p.section - 1 < 0 then Some(Position(0, 0))
    else if p.section - 1 < |sizes| then Some(Position(p.section - 1, sizes[p.section - 1] as int - 1))
    else None
  }

  /** Stepping forward and back returns to the same question, unless the
      forward step did not move (the last question of the last section). */
  lemma PrevUndoesNext(sizes: seq<nat>, p: Position)
    requires InPaper(sizes, p)
    ensures NextPosition(sizes, p).Some?
    ensures NextPosition(sizes, p).value != p ==> PrevPosition(sizes, NextPosition(sizes, p).value) == Some(p)
  {
  }

  /** Stepping back and forward returns to the same question, from anywhere
      but the first question of the first section. */
  lemma NextUndoesPrev(sizes: seq<nat>, p: Position)
    requires InPaper(sizes, p) && p != Position(0, 0)
    ensures PrevPosition(sizes, p).Some?
    ensures NextPosition(sizes, PrevPosition(sizes, p).value) == Some(p)
  {
  }

  /** When no section is empty, both moves keep a position inside the paper
      inside it. (An empty section is not skipped: moving into it gives a
      question index that it does not have.) */
  lemma NavigationStaysInPaper(sizes: seq<nat>, p: Position)
    requires forall k :: 0 <= k < |sizes| ==> sizes[k] > 0
    requires InPaper(sizes, p)
    ensures NextPosition(sizes, p).Some? && InPaper(sizes, NextPosition(sizes, p).value)
    ensures PrevPosition(sizes, p).Some? && InPaper(sizes, PrevPosition(sizes, p).value)
  {
  }

  /** At the ends the moves are no-ops: forward past the last question of
      the last section, back before the first question of the first. */
  lemma NavigationEnds(sizes: seq<nat>)
    requires |sizes| > 0 && sizes[|sizes| - 1] > 0
    ensures var last := Position(|sizes| - 1, sizes[|sizes| - 1] - 1);
      NextPosition(sizes, last) == Some(last)
    ensures PrevPosition(sizes, Position(0, 0)) == Some(Position(0, 0))
  {
  }

  // ---------------------------------------------------------------------
  // Selecting the questions for AI grading

  /** A question the AI may grade: answered, and of an AI-graded kind. */
  predicate IsCandidate(q: Question, answers: map<string, UserAnswer>) {
    q.id in answers && !IsEmptyAnswer(Some(answers[q.id].answer)) && IsAiDeferred(q)
  }

  /** `candidates`, in paper order. */
  function Candidates(qs: seq<Question>, answers: map<string, UserAnswer>): (r: seq<Question>)
    ensures forall q :: q in r <==> q in qs && IsCandidate(q, answers)
  {
    if qs == [] then []
    else
      var last := qs[|qs| - 1];
      Candidates(qs[..|qs| - 1], answers) + (if IsCandidate(last, answers) then [last] else [])
  }

  /** The candidates still `pending`. */
  function PendingOnly(qs: seq<Question>, answers: map<string, UserAnswer>): (r: seq<Question>)
    ensures forall q :: q in r <==> q in qs && GradeOf(q, answers).state == Pending
  {
    if qs == [] then []
    else
      var last := qs[|qs| - 1];
      PendingOnly(qs[..|qs| - 1], answers) + (if GradeOf(last, answers).state == Pending then [last] else [])
  }

  /** `toGrade`: every candidate when regrading, else the pending ones. */
  function ToGrade(qs: seq<Question>, answers: map<string, UserAnswer>, regrade: bool): seq<Question> {
    var candidates := Candidates(qs, answers);
    if regrade then candidates else PendingOnly(candidates, answers)
  }

  /** Without `regrade`, a question is targeted exactly when it is a
      candidate that has no AI grade yet. */
  lemma ToGradeWithoutRegrade(qs: seq<Question>, answers: map<string, UserAnswer>)
    ensures forall q :: q in ToGrade(qs, answers, false) <==>
      q in qs && IsCandidate(q, answers) && answers[q.id].aiGrade.None?
  {
    forall q | q in qs && IsCandidate(q, answers)
      ensures GradeOf(q, answers).state == Pending <==> answers[q.id].aiGrade.None?
    {
      AiDeferredGrade(q, Lookup(answers, q.id));
      if answers[q.id].aiGrade.Some? {
        var n := answers[q.id].aiGrade.value.score;
        assert ScoreToState(ClampScore(n, q.score), q.score) != Pending;
      }
    }
  }

  // ---------------------------------------------------------------------
  // Merging the results

  /** `new Map(resp.results.map(item => [item.questionId, item]))` */
  function ResultById(results: seq<GradeEntry>): map<string, GradeEntry> {
    if results == [] then map[]
    else
      var last := results[|results| - 1];
      ResultById(results[..|results| - 1])[last.questionId := last]
  }

  /** The keys are exactly the ids of the results. */
  lemma {:induction false} ResultByIdKeys(results: seq<GradeEntry>)
    ensures forall id :: id in ResultById(results) <==> exists k :: 0 <= k < |results| && results[k].questionId == id
  {
    if results != [] {
      var n := |results| - 1;
      var init := results[..n];
      ResultByIdKeys(init);
      forall id | id in ResultById(results)
        ensures exists k :: 0 <= k < |results| && results[k].questionId == id
      {
        if id != results[n].questionId {
          assert id in ResultById(init);
          var k :| 0 <= k < n && init[k].questionId == id;
          assert results[k] == init[k];
        }
      }
      forall k | 0 <= k < |results|
        ensures results[k].questionId in ResultById(results)
      {
        if k < n {
          assert results[k] == init[k];
        }
      }
    }
  }

  /** A key maps to the last result with that id. */
  lemma {:induction false} ResultByIdLastWins(results: seq<GradeEntry>, id: string)
    requires id in ResultById(results)
    ensures exists k ::
      && 0 <= k < |results| && ResultById(results)[id] == results[k] && results[k].questionId == id
      && (forall l :: k < l < |results| ==> results[l].questionId != id)
  {
    var n := |results| - 1;
    var init := results[..n];
    if id != results[n].questionId {
      ResultByIdLastWins(init, id);
      var k :| 0 <= k < n && ResultById(init)[id] == init[k] && init[k].questionId == id
        && (forall l :: k < l < n ==> init[l].questionId != id);
      assert results[k] == init[k];
      forall l | k < l < |results| ensures results[l].questionId != id {
        if l < n {
          assert results[l] == init[l];
        }
      }
    }
  }

  /** An answer with the AI grade attached; its other fields are kept. */
  function WithGrade(a: UserAnswer, result: GradeEntry, model: Option<string>, gradedAt: string): UserAnswer {
    a.(aiGrade := Some(AiGrade(JsonValue.Finite(result.score), result.feedback, model, Some(gradedAt))))
  }

  datatype Merged = Merged(answers: map<string, UserAnswer>, graded: nat)

  /** The merge loop over `toGrade`: an answered question with a result gets
      the grade attached and is counted. */
  function Merge(answers: map<string, UserAnswer>, toGrade: seq<Question>, byId: map<string, GradeEntry>,
                 model: Option<string>, gradedAt: string): Merged
  {
    if toGrade == [] then Merged(answers, 0)
    else
      var prev := Merge(answers, toGrade[..|toGrade| - 1], byId, model, gradedAt);
      var id := toGrade[|toGrade| - 1].id;
      if id in prev.answers && id in byId then
        Merged(prev.answers[id := WithGrade(prev.answers[id], byId[id], model, gradedAt)], prev.graded + 1)
      else prev
  }

  /** The ids of a list of questions. */
  function Ids(qs: seq<Question>): set<string> {
    set q | q in qs :: q.id
  }

  lemma IdsSnoc(qs: seq<Question>)
    requires qs != []
    ensures Ids(qs) == Ids(qs[..|qs| - 1]) + {qs[|qs| - 1].id}
  {
    assert qs == qs[..|qs| - 1] + [qs[|qs| - 1]];
  }

  /** The merge keeps the keys; a targeted answered question with a result
      gets its grade, every other answer is unchanged. */
  lemma {:induction false} MergeEntries(answers: map<string, UserAnswer>, toGrade: seq<Question>,
                                        byId: map<string, GradeEntry>, model: Option<string>, gradedAt: string)
    ensures var m := Merge(answers, toGrade, byId, model, gradedAt).answers;
      && m.Keys == answers.Keys
      && forall k :: k in answers ==>
           m[k] == if k in Ids(toGrade) && k in byId then WithGrade(answers[k], byId[k], model, gradedAt) else answers[k]
  {
    if toGrade != [] {
      var init := toGrade[..|toGrade| - 1];
      MergeEntries(answers, init, byId, model, gradedAt);
      IdsSnoc(toGrade);
    }
  }

  /** The merge keeps the set of answered ids. */
  lemma {:induction false} MergeKeys(answers: map<string, UserAnswer>, toGrade: seq<Question>,
                                     byId: map<string, GradeEntry>, model: Option<string>, gradedAt: string)
    ensures Merge(answers, toGrade, byId, model, gradedAt).answers.Keys == answers.Keys
  {
    if toGrade != [] {
      MergeKeys(answers, toGrade[..|toGrade| - 1], byId, model, gradedAt);
    }
  }

  /** One more targeted question adds one to `graded` exactly when it has
      both an answer and a result. */
  lemma MergeGradedStep(answers: map<string, UserAnswer>, toGrade: seq<Question>,
                        byId: map<string, GradeEntry>, model: Option<string>, gradedAt: string)
    requires toGrade != []
    ensures var id := toGrade[|toGrade| - 1].id;
      Merge(answers, toGrade, byId, model, gradedAt).graded
        == Merge(answers, toGrade[..|toGrade| - 1], byId, model, gradedAt).graded
           + (if id in answers && id in byId then 1 else 0)
  {
    MergeKeys(answers, toGrade[..|toGrade| - 1], byId, model, gradedAt);
  }

  /** In a list with distinct ids, the prefix has distinct ids and does not
      hold the last id. */
  lemma DistinctInit(qs: seq<Question>)
    requires qs != []
    requires forall i, j :: 0 <= i < j < |qs| ==> qs[i].id != qs[j].id
    ensures var init := qs[..|qs| - 1];
      && (forall i, j :: 0 <= i < j < |init| ==> init[i].id != init[j].id)
      && qs[|qs| - 1].id !in Ids(init)
  {
    var n := |qs| - 1;
    var init := qs[..n];
    forall q | q in init ensures q.id != qs[n].id {
      var i :| 0 <= i < n && init[i] == q;
      assert qs[i] == q;
    }
  }

  lemma IntersectionStep(a: set<string>, b: set<string>, c: set<string>, x: string)
    requires x !in a
    ensures |(a + {x}) * b * c| == |a * b * c| + (if x in b && x in c then 1 else 0)
  {
    if x in b && x in c {
      assert (a + {x}) * b * c == a * b * c + {x};
    } else {
      assert (a + {x}) * b * c == a * b * c;
    }
  }

  /** With distinct ids in `toGrade`, `graded` is the number of answers that
      received a grade: the targeted ids that have both an answer and a
      result. */
  lemma {:induction false} MergeCount(answers: map<string, UserAnswer>, toGrade: seq<Question>,
                                      byId: map<string, GradeEntry>, model: Option<string>, gradedAt: string)
    requires forall i, j :: 0 <= i < j < |toGrade| ==> toGrade[i].id != toGrade[j].id
    ensures Merge(answers, toGrade, byId, model, gradedAt).graded == |Ids(toGrade) * answers.Keys * byId.Keys|
  {
    if toGrade == [] {
      assert Ids(toGrade) == {};
    } else {
      var n := |toGrade| - 1;
      var init := toGrade[..n];
      var id := toGrade[n].id;
      DistinctInit(toGrade);
      MergeCount(answers, init, byId, model, gradedAt);
      MergeGradedStep(answers, toGrade, byId, model, gradedAt);
      IdsSnoc(toGrade);
      IntersectionStep(Ids(init), answers.Keys, byId.Keys, id);
    }
  }

  /** The merge loop. */
  method MergeResults(answers: map<string, UserAnswer>, toGrade: seq<Question>, byId: map<string, GradeEntry>,
                      model: Option<string>, gradedAt: string) returns (nextAnswers: map<string, UserAnswer>, graded: nat)
    ensures Merged(nextAnswers, graded) == Merge(answers, toGrade, byId, model, gradedAt)
  {
    nextAnswers := answers;
    graded := 0;
    for i := 0 to |toGrade|
      invariant Merged(nextAnswers, graded) == Merge(answers, toGrade[..i], byId, model, gradedAt)
    {
      assert toGrade[..i + 1][..i] == toGrade[..i];
      var question := toGrade[i];
      if question.id !in nextAnswers {
        continue;
      }
      var existing := nextAnswers[question.id];
      if question.id !in byId {
        continue;
      }
      var result := byId[question.id];
      nextAnswers := nextAnswers[question.id := WithGrade(existing, result, model, gradedAt)];
      graded := graded + 1;
    }
    assert toGrade[..|toGrade|] == toGrade;
  }

  const NotConfigured: string := "AI 服务未配置：请检查 .env（AI_BASE_URL / AI_API_KEY / AI_MODEL）"

  /** The grades the AI service returned, or the message of the error that
      ended the attempt: an unreachable or unconfigured service, or a failed
      grade request. */
  function AiOutcome(health: Result<bool, string>, response: Result<AiGradingApi.GradeResponse, string>)
    : (r: Result<AiGradingApi.GradeResponse, string>)
    ensures r.Success? <==> health == Success(true) && response.Success?
    ensures health.Failure? ==> r == Failure(health.error)
    ensures health == Success(false) ==> r == Failure(NotConfigured)
  {
    match health
    case Failure(e) => Failure(e)
    case Success(hasConfig) =>
      if !hasConfig then Failure(NotConfigured) else response
  }

  // ---------------------------------------------------------------------
  // The answer map

  /** Every stored answer is keyed by its own id and is not empty. */
  predicate WellKeyed(answers: map<string, UserAnswer>) {
    forall k :: k in answers ==> answers[k].questionId == k && !IsEmptyAnswer(Some(answers[k].answer))
  }

  /** Without a paper there are no answers; with one, only its questions
      have answers. */
  predicate Fits(paper: Option<ExamPaper>, answers: map<string, UserAnswer>) {
    if paper.None? then answers == map[] else answers.Keys <= QuestionIds(paper.value.sections)
  }

  /** The answers after `setAnswer`. */
  function AnswersAfterSet(paper: Option<ExamPaper>, submitted: bool, answers: map<string, UserAnswer>,
                           questionId: string, answer: AnswerValue): map<string, UserAnswer>
  {
    if paper.None? || submitted || questionId !in QuestionIds(paper.value.sections) then answers
    else if IsEmptyAnswer(Some(answer)) then answers - {questionId}
    else answers[questionId := UserAnswer(questionId, answer, None)]
  }

  /** `setAnswer` touches at most the entry of its question: an empty
      answer removes it, any other becomes the stored answer with no AI
      grade; without a paper, after submission or for an unknown id nothing
      changes. The answer map stays well keyed and fitted to the paper. */
  lemma SetAnswerEffect(paper: Option<ExamPaper>, submitted: bool, answers: map<string, UserAnswer>,
                        questionId: string, answer: AnswerValue)
    requires WellKeyed(answers) && Fits(paper, answers)
    ensures var r := AnswersAfterSet(paper, submitted, answers, questionId, answer);
      && WellKeyed(r) && Fits(paper, r)
      && (forall k :: k != questionId ==> (k in r <==> k in answers) && (k in r ==> r[k] == answers[k]))
      && (paper.None? || submitted || questionId !in QuestionIds(paper.value.sections) ==> r == answers)
      && (paper.Some? && !submitted && questionId in QuestionIds(paper.value.sections) ==>
            if IsEmptyAnswer(Some(answer)) then questionId !in r
            else r[questionId] == UserAnswer(questionId, answer, None))
  {
  }

  /** The `answeredCount` the store recomputes is the number of stored
      answers. */
  lemma AnsweredCountOfWellKeyed(answers: map<string, UserAnswer>)
    requires WellKeyed(answers)
    ensures AnsweredCount(answers) == |answers|
  {
    AnsweredCountBounds(answers);
  }

  /** The state `gradeWithAI` leaves: the answers, `graded`, the status,
      the stored error and the message thrown. */
  datatype AiRun = AiRun(answers: map<string, UserAnswer>, graded: nat, status: AiStatus,
                         error: Option<string>, thrown: Option<string>)

  /** `gradeWithAI` on values: a no-op without a paper, before submission
      or with nothing to grade; otherwise `done` with the grades merged, or
      `error` with the message of the failure. */
  function GradeRun(paper: Option<ExamPaper>, submitted: bool, answers: map<string, UserAnswer>,
                    status: AiStatus, error: Option<string>, regrade: bool, health: Result<bool, string>,
                    response: Result<AiGradingApi.GradeResponse, string>, gradedAt: string): (r: AiRun)
    ensures r.status == Grading ==> status == Grading
  {
    if paper.None? || !submitted then AiRun(answers, 0, status, error, None)
    else
      var toGrade := ToGrade(AllQuestions(paper.value.sections), answers, regrade);
      if toGrade == [] then AiRun(answers, 0, status, error, None)
      else
        match AiOutcome(health, response)
        case Failure(e) => AiRun(answers, 0, Error, Some(e), Some(e))
        case Success(resp) =>
          var merged := Merge(answers, toGrade, ResultById(resp.results), resp.model, gradedAt);
          AiRun(merged.answers, merged.graded, Done, None, None)
  }

  /** Without a paper, before submission or with nothing to grade,
      `gradeWithAI` reports 0 graded and changes nothing. */
  lemma GradeRunNoOp(paper: Option<ExamPaper>, submitted: bool, answers: map<string, UserAnswer>,
                     status: AiStatus, error: Option<string>, regrade: bool, health: Result<bool, string>,
                     response: Result<AiGradingApi.GradeResponse, string>, gradedAt: string)
    requires paper.None? || !submitted || ToGrade(AllQuestions(paper.value.sections), answers, regrade) == []
    ensures GradeRun(paper, submitted, answers, status, error, regrade, health, response, gradedAt)
      == AiRun(answers, 0, status, error, None)
  {
  }

  /** Once started, a failure leaves the answers alone and stores and throws
      its message; a success stores the merged answers with status `done`
      and no error, and reports how many answers the merge updated. */
  lemma GradeRunStarted(paper: ExamPaper, answers: map<string, UserAnswer>,
                        status: AiStatus, error: Option<string>, regrade: bool, health: Result<bool, string>,
                        response: Result<AiGradingApi.GradeResponse, string>, gradedAt: string)
    requires ToGrade(AllQuestions(paper.sections), answers, regrade) != []
    ensures var r := GradeRun(Some(paper), true, answers, status, error, regrade, health, response, gradedAt);
      var outcome := AiOutcome(health, response);
      && (outcome.Failure? ==> r == AiRun(answers, 0, Error, Some(outcome.error), Some(outcome.error)))
      && (outcome.Success? ==>
            var merged := Merge(answers, ToGrade(AllQuestions(paper.sections), answers, regrade),
                                ResultById(outcome.value.results), outcome.value.model, gradedAt);
            r == AiRun(merged.answers, merged.graded, Done, None, None))
  {
  }

  /** The merge only attaches grades, so the answer map stays well keyed
      and fitted to the paper. */
  lemma MergeKeepsAnswers(paper: Option<ExamPaper>, answers: map<string, UserAnswer>, toGrade: seq<Question>,
                          byId: map<string, GradeEntry>, model: Option<string>, gradedAt: string)
    requires WellKeyed(answers) && Fits(paper, answers)
    ensures var m := Merge(answers, toGrade, byId, model, gradedAt).answers;
      && WellKeyed(m) && Fits(paper, m) && m.Keys == answers.Keys
      && forall k :: k in answers ==> m[k].questionId == answers[k].questionId && m[k].answer == answers[k].answer
  {
    MergeEntries(answers, toGrade, byId, model, gradedAt);
  }

  /** Grading keeps the answer map well keyed, fitted to the paper and of
      the same size; it only attaches AI grades. Once it has started it
      ends `done` or `error`, never `grading`. */
  lemma GradeRunEffect(paper: Option<ExamPaper>, submitted: bool, answers: map<string, UserAnswer>,
                       status: AiStatus, error: Option<string>, regrade: bool, health: Result<bool, string>,
                       response: Result<AiGradingApi.GradeResponse, string>, gradedAt: string)
    requires WellKeyed(answers) && Fits(paper, answers)
    ensures var r := GradeRun(paper, submitted, answers, status, error, regrade, health, response, gradedAt);
      && WellKeyed(r.answers) && Fits(paper, r.answers) && r.answers.Keys == answers.Keys
      && (forall k :: k in answers ==>
            r.answers[k].questionId == answers[k].questionId && r.answers[k].answer == answers[k].answer)
      && (paper.Some? && submitted && ToGrade(AllQuestions(paper.value.sections), answers, regrade) != [] ==>
            r.status in {Done, Error} && (r.status == Error <==> r.thrown.Some?))
  {
    if paper.Some? && submitted {
      var toGrade := ToGrade(AllQuestions(paper.value.sections), answers, regrade);
      var outcome := AiOutcome(health, response);
      if toGrade != [] && outcome.Success? {
        var resp := outcome.value;
        MergeKeepsAnswers(paper, answers, toGrade, ResultById(resp.results), resp.model, gradedAt);
      }
    }
  }

  // ---------------------------------------------------------------------
  // The store

  class ExamState {
    var examPaper: Option<ExamPaper>
    var answers: map<string, UserAnswer>
    var sectionIndex: int
    var questionIndex: int
    var submitted: bool
    var answeredCount: nat
    var aiStatus: AiStatus
    var aiError: Option<string>

    /** The stored answers are well keyed and fitted to the paper, and
        `answeredCount` counts them. */
    ghost predicate Valid()
      reads this
    {
      WellKeyed(answers) && Fits(examPaper, answers) && answeredCount == |answers|
    }

    constructor ()
      ensures Valid()
      ensures examPaper == None && answers == map[] && sectionIndex == 0 && questionIndex == 0
      ensures !submitted && answeredCount == 0 && aiStatus == Idle && aiError == None
    {
      examPaper := None;
      answers := map[];
      sectionIndex := 0;
      questionIndex := 0;
      submitted := false;
      answeredCount := 0;
      aiStatus := Idle;
      aiError := None;
    }

    /** `setExamPaper`: a new paper starts from a clean state. */
    method SetExamPaper(paper: ExamPaper)
      modifies this
      ensures Valid()
      ensures examPaper == Some(paper) && answers == map[] && sectionIndex == 0 && questionIndex == 0
      ensures !submitted && answeredCount == 0 && aiStatus == Idle && aiError == None
    {
      examPaper := Some(paper);
      answers := map[];
      submitted := false;
      answeredCount := 0;
      sectionIndex := 0;
      questionIndex := 0;
      aiStatus := Idle;
      aiError := None;
    }

    /** `setAnswer`; see `SetAnswerEffect`. */
    method SetAnswer(questionId: string, answer: AnswerValue)
      requires Valid()
      modifies this
      ensures Valid()
      ensures answers == AnswersAfterSet(old(examPaper), old(submitted), old(answers), questionId, answer)
      ensures examPaper == old(examPaper) && submitted == old(submitted)
      ensures sectionIndex == old(sectionIndex) && questionIndex == old(questionIndex)
      ensures aiStatus == old(aiStatus) && aiError == old(aiError)
    {
      SetAnswerEffect(examPaper, submitted, answers, questionId, answer);
      if examPaper.None? || submitted {
        return;
      }
      if questionId !in QuestionIds(examPaper.value.sections) {
        return;
      }
      var newAnswers := answers;
      if IsEmptyAnswer(Some(answer)) {
        newAnswers := newAnswers - {questionId};
      } else {
        newAnswers := newAnswers[questionId := UserAnswer(questionId, answer, None)];
      }
      AnsweredCountOfWellKeyed(newAnswers);
      answers := newAnswers;
      answeredCount := AnsweredCount(newAnswers);
    }

    /** `setCurrentQuestion`: the indices are stored as given. */
    method SetCurrentQuestion(section: int, question: int)
      modifies this
      ensures sectionIndex == section && questionIndex == question
      ensures examPaper == old(examPaper) && answers == old(answers) && submitted == old(submitted)
      ensures answeredCount == old(answeredCount) && aiStatus == old(aiStatus) && aiError == old(aiError)
    {
      sectionIndex := section;
      questionIndex := question;
    }

    /** `nextQuestion`; `threw` when the current section index names no
        section. */
    method NextQuestion() returns (threw: bool)
      modifies this
      ensures examPaper == old(examPaper) && answers == old(answers) && submitted == old(submitted)
      ensures answeredCount == old(answeredCount) && aiStatus == old(aiStatus) && aiError == old(aiError)
      ensures examPaper.None? ==> !threw && sectionIndex == old(sectionIndex) && questionIndex == old(questionIndex)
      ensures examPaper.Some? ==>
        var next := NextPosition(Sizes(examPaper.value), Position(old(sectionIndex), old(questionIndex)));
        && (threw <==> next.None?)
        && Position(sectionIndex, questionIndex) == if threw then Position(old(sectionIndex), old(questionIndex)) else next.value
    {
      if examPaper.None? {
        return false;
      }
      var sections := examPaper.value.sections;
      var newSectionIndex := sectionIndex;
      var newQuestionIndex := questionIndex + 1;
      if !(0 <= sectionIndex < |sections|) {
        return true;
      }
      if newQuestionIndex >= |sections[sectionIndex].questions| {
        newSectionIndex := newSectionIndex + 1;
        newQuestionIndex := 0;
      }
      if newSectionIndex < |sections| {
        sectionIndex := newSectionIndex;
        questionIndex := newQuestionIndex;
      }
      return false;
    }

    /** `prevQuestion`; `threw` when the previous section index names no
        section. */
    method PrevQuestion() returns (threw: bool)
      modifies this
      ensures examPaper == old(examPaper) && answers == old(answers) && submitted == old(submitted)
      ensures answeredCount == old(answeredCount) && aiStatus == old(aiStatus) && aiError == old(aiError)
      ensures examPaper.None? ==> !threw && sectionIndex == old(sectionIndex) && questionIndex == old(questionIndex)
      ensures examPaper.Some? ==>
        var prev := PrevPosition(Sizes(examPaper.value), Position(old(sectionIndex), old(questionIndex)));
        && (threw <==> prev.None?)
        && Position(sectionIndex, questionIndex) == if threw then Position(old(sectionIndex), old(questionIndex)) else prev.value
    {
      if examPaper.None? {
        return false;
      }
      var sections := examPaper.value.sections;
      var newSectionIndex := sectionIndex;
      var newQuestionIndex := questionIndex - 1;
      if newQuestionIndex < 0 {
        newSectionIndex := newSectionIndex - 1;
        if newSectionIndex >= 0 {
          if newSectionIndex >= |sections| {
            return true;
          }
          newQuestionIndex := |sections[newSectionIndex].questions| - 1;
        } else {
          newSectionIndex := 0;
          newQuestionIndex := 0;
        }
      }
      sectionIndex := newSectionIndex;
      questionIndex := newQuestionIndex;
      return false;
    }

    /** `submit`: only with a paper. */
    method Submit()
      modifies this
      ensures submitted == (old(submitted) || examPaper.Some?)
      ensures examPaper == old(examPaper) && answers == old(answers) && answeredCount == old(answeredCount)
      ensures sectionIndex == old(sectionIndex) && questionIndex == old(questionIndex)
      ensures aiStatus == old(aiStatus) && aiError == old(aiError)
    {
      if examPaper.None? {
        return;
      }
      submitted := true;
    }

    /** `reset`: with a paper, back to the state `setExamPaper` leaves;
        without one, nothing. */
    method Reset()
      requires Valid()
      modifies this
      ensures Valid()
      ensures examPaper == old(examPaper)
      ensures examPaper.Some? ==>
        && answers == map[] && sectionIndex == 0 && questionIndex == 0
        && !submitted && answeredCount == 0 && aiStatus == Idle && aiError == None
      ensures examPaper.None? ==>
        && answers == old(answers) && sectionIndex == old(sectionIndex) && questionIndex == old(questionIndex)
        && submitted == old(submitted) && answeredCount == old(answeredCount)
        && aiStatus == old(aiStatus) && aiError == old(aiError)
    {
      if examPaper.Some? {
        answers := map[];
        submitted := false;
        answeredCount := 0;
        sectionIndex := 0;
        questionIndex := 0;
        aiStatus := Idle;
        aiError := None;
      }
    }

    /** `getCurrentQuestion`: the question at the current position, if the
        position is inside the paper. */
    function CurrentQuestion(): (r: Option<Question>)
      reads this
      ensures r.Some? <==> examPaper.Some? && InPaper(Sizes(examPaper.value), Position(sectionIndex, questionIndex))
      ensures r.Some? ==> r.value in AllQuestions(examPaper.value.sections) && r.value.id in QuestionIds(examPaper.value.sections)
    {
      if examPaper.None? then None
      else
        var sections := examPaper.value.sections;
        if 0 <= sectionIndex < |sections| && 0 <= questionIndex < |sections[sectionIndex].questions| then
          var q := sections[sectionIndex].questions[questionIndex];
          AllQuestionsMembership(sections, q);
          Some(q)
        else None
    }

    /** `gradeWithAI`; see `GradeRun` and `GradeRunEffect`. `health` and
        `response` are the outcomes of `checkAiHealth` and
        `requestAiGrades`; the request is only consulted when the health
        check reports a configuration. */
    method GradeWithAI(regrade: bool, health: Result<bool, string>,
                       response: Result<AiGradingApi.GradeResponse, string>, gradedAt: string)
      returns (graded: nat, thrown: Option<string>)
      requires Valid()
      modifies this
      ensures Valid()
      ensures AiRun(answers, graded, aiStatus, aiError, thrown)
        == GradeRun(old(examPaper), old(submitted), old(answers), old(aiStatus), old(aiError),
                    regrade, health, response, gradedAt)
      ensures examPaper == old(examPaper) && submitted == old(submitted) && answeredCount == old(answeredCount)
      ensures sectionIndex == old(sectionIndex) && questionIndex == old(questionIndex)
    {
      GradeRunEffect(examPaper, submitted, answers, aiStatus, aiError, regrade, health, response, gradedAt);
      if examPaper.None? || !submitted {
        return 0, None;
      }
      var questions := AllQuestions(examPaper.value.sections);
      var toGrade := ToGrade(questions, answers, regrade);
      if toGrade == [] {
        return 0, None;
      }
      aiStatus := Grading;
      aiError := None;
      var outcome := AiOutcome(health, response);
      if outcome.Failure? {
        aiStatus := Error;
        aiError := Some(outcome.error);
        return 0, Some(outcome.error);
      }
      var resp := outcome.value;
      var byId := ResultById(resp.results);
      var nextAnswers;
      nextAnswers, graded := MergeResults(answers, toGrade, byId, resp.model, gradedAt);
      answers := nextAnswers;
      aiStatus := Done;
      aiError := None;
      thrown := None;
    }
  }
}
