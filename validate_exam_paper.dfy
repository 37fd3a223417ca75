/** The structural validator of src/utils/validateExamPaper.ts. It walks an
    untyped JSON value and collects every problem it finds as an issue (a path
    into the document and a message) instead of stopping at the first one; it
    stops early only for a non-object top level, a non-array `sections`, and,
    for the item concerned, a non-object section, question or option, a
    non-array `questions` and an unknown question type. */
module ValidateExamPaper {
  import opened Wrappers
  import opened JsStrings
  import opened JsonValue
  import opened ExamTypes

  // ---------------------------------------------------------------------
  // Issues

  /** One step of an issue path: `.key` or `[index]`. */
  datatype PathSeg = Field(key: Key) | At(index: nat)

  type Path = seq<PathSeg>

  /** The kinds of problem the validator reports; `MessageOf` gives the text. */
  datatype Problem =
    | NotJsonObject
    | RequiredObject
    | RequiredNonEmptyString
    | RequiredNumber
    | RequiredMinutes
    | RequiredTimeString
    | RequiredStringMayBeEmpty
    | RequiredArray
    | NotObject
    | RequiredPositive
    | RequiredNonNegative
    | UnknownType
    | RequiredString
    | TooFewOptions
    | TrueFalseOptionCount
    | MultipleChoiceAnswer
    | BlankAnswer
    | MissingPlaceholders
    | SingleAnswer
    | ReferenceCodeShape
    | OptionalLanguage
    | OptionalString
    | OptionalBoolean
    | AnswerStringOrArray

  datatype Issue = Issue(path: Path, problem: Problem)

  /** The order in which `QUESTION_TYPES` lists the type names. */
  const QuestionTypes: seq<QuestionType> :=
    [SingleChoice, MultipleChoice, TrueFalse, FillInBlank, ShortAnswer, Calculation, Coding]

  function TypeNames(ts: seq<QuestionType>): (r: seq<string>)
    ensures |r| == |ts|
  {
    seq(|ts|, k requires 0 <= k < |ts| => TypeName(ts[k]))
  }

  /** The message text reported for each problem. */
  function MessageOf(p: Problem): string {
    match p
    case NotJsonObject => "顶层应为 JSON 对象"
    case RequiredObject => "必填，且应为对象"
    case RequiredNonEmptyString => "必填，且应为非空字符串"
    case RequiredNumber => "必填，且应为数字"
    case RequiredMinutes => "必填，且应为数字（分钟）"
    case RequiredTimeString => "必填，且应为字符串（建议 ISO 时间）"
    case RequiredStringMayBeEmpty => "必填，且应为字符串（可为空）"
    case RequiredArray => "必填，且应为数组"
    case NotObject => "应为对象"
    case RequiredPositive => "必填，且应为正数"
    case RequiredNonNegative => "必填，且应为非负数"
    case UnknownType => "必填，且必须为以下之一：" + Join(TypeNames(QuestionTypes), " | ")
    case RequiredString => "必填，且应为字符串"
    case TooFewOptions => "必填，且应为数组（至少 2 个选项）"
    case TrueFalseOptionCount => "如提供 options，则必须包含 2 个选项（True/False）"
    case MultipleChoiceAnswer => "必填，建议为字符串数组（例如 [\"A\",\"C\"]）"
    case BlankAnswer => "必填，应为字符串或字符串数组（按空位顺序）"
    case MissingPlaceholders => "当 correctAnswer 不是数组时，题干需包含 ___ 以推断空位数量"
    case SingleAnswer => "必填，且应为字符串（例如 \"A\" / \"True\"）"
    case ReferenceCodeShape => "建议为字符串（参考代码）；为空字符串表示待评分"
    case OptionalLanguage => "可选字段，应为字符串（例如 \"python\"）"
    case OptionalString => "可选字段，应为字符串"
    case OptionalBoolean => "可选字段，应为 boolean"
    case AnswerStringOrArray => "必填，应为字符串或字符串数组"
  }

  /** The textual path: `$` followed by `.name` and `[index]` steps. */
  function RenderPath(p: Path): (r: string)
    ensures |r| >= 1 && r[0] == '$'
  {
    if p == [] then "$"
    else
      var last := p[|p| - 1];
      RenderPath(p[..|p| - 1]) + (if last.Field? then "." + KeyName(last.key) else "[" + NatToString(last.index) + "]")
  }

  /** `ValidationIssue`: the rendered path and message. */
  datatype ValidationIssue = ValidationIssue(path: string, message: string)

  function Render(x: Issue): (r: ValidationIssue)
    ensures |r.path| >= 1 && r.path[0] == '$'
  {
    ValidationIssue(RenderPath(x.path), MessageOf(x.problem))
  }

  // ---------------------------------------------------------------------
  // Value tests

  predicate IsBool(v: Option<Json>) {
    v.Some? && v.value.JBool?
  }

  /** `every((v) => typeof v === 'string')` */
  predicate AllStrings(items: seq<Json>) {
    forall k :: 0 <= k < |items| ==> items[k].JStr?
  }

  /** A non-empty array whose elements are all strings. */
  predicate IsStringList(v: Option<Json>) {
    IsArray(v) && |v.value.items| > 0 && AllStrings(v.value.items)
  }

  /** `typeof content === 'string' ? content.includes('___') : false` */
  predicate HasPlaceholders(content: Option<Json>) {
    IsString(content) && Contains(content.value.s, "___")
  }

  /** The declared type of a question, when it is one of `QUESTION_TYPES`. */
  function TypeOf(q: Json): Option<QuestionType> {
    var t := Get(q, Type);
    if IsNonEmptyString(t) then ParseType(t.value.s) else None
  }

  // ---------------------------------------------------------------------
  // Field checks

  /** What one field check demands of a value. */
  datatype Rule =
    | NonEmptyText       // isNonEmptyString
    | FiniteNumber       // isFiniteNumber
    | PositiveNumber     // isFiniteNumber and > 0
    | NonNegativeNumber  // isFiniteNumber and >= 0
    | Text               // typeof === 'string'
    | OptionalText       // == null, or a string
    | OptionalBool       // == null, or a boolean

  predicate Passes(rule: Rule, v: Option<Json>) {
    match rule
    case NonEmptyText => IsNonEmptyString(v)
    case FiniteNumber => IsFiniteNumber(v)
    case PositiveNumber => IsFiniteNumber(v) && v.value.n.value > 0.0
    case NonNegativeNumber => IsFiniteNumber(v) && v.value.n.value >= 0.0
    case Text => IsString(v)
    case OptionalText => IsNullish(v) || IsString(v)
    case OptionalBool => IsNullish(v) || IsBool(v)
  }

  /** `if (!rule(obj.key)) add(`${base}.key`, problem)` */
  datatype FieldCheck = FieldCheck(key: Key, rule: Rule, problem: Problem)

  /** The `examMeta` checks, in order. */
  const MetaChecks: seq<FieldCheck> := [
    FieldCheck(Id, NonEmptyText, RequiredNonEmptyString),
    FieldCheck(Title, NonEmptyText, RequiredNonEmptyString),
    FieldCheck(TotalScore, FiniteNumber, RequiredNumber),
    FieldCheck(Duration, FiniteNumber, RequiredMinutes),
    FieldCheck(CreateTime, NonEmptyText, RequiredTimeString),
    FieldCheck(Description, Text, RequiredStringMayBeEmpty)]

  /** The section field checks, in order. */
  const SectionChecks: seq<FieldCheck> := [
    FieldCheck(Id, NonEmptyText, RequiredNonEmptyString),
    FieldCheck(Title, NonEmptyText, RequiredNonEmptyString),
    FieldCheck(Description, Text, RequiredStringMayBeEmpty),
    FieldCheck(Type, NonEmptyText, RequiredNonEmptyString)]

  /** The question checks made before the type is known. */
  const QuestionHeadChecks: seq<FieldCheck> := [
    FieldCheck(Id, NonEmptyText, RequiredNonEmptyString),
    FieldCheck(Idx, PositiveNumber, RequiredPositive),
    FieldCheck(Score, NonNegativeNumber, RequiredNonNegative)]

  /** The question text checks. */
  const QuestionTextChecks: seq<FieldCheck> := [
    FieldCheck(Content, Text, RequiredString),
    FieldCheck(Analysis, Text, RequiredStringMayBeEmpty)]

  /** The option field checks. */
  const OptionChecks: seq<FieldCheck> := [
    FieldCheck(Label, NonEmptyText, RequiredNonEmptyString),
    FieldCheck(Value, Text, RequiredStringMayBeEmpty)]

  /** The optional fields of a coding question. */
  const CodingChecks: seq<FieldCheck> := [
    FieldCheck(CodeLanguage, OptionalText, OptionalLanguage),
    FieldCheck(DefaultCode, OptionalText, OptionalString)]

  const LatexChecks: seq<FieldCheck> := [FieldCheck(IsLatex, OptionalBool, OptionalBoolean)]

  /** The issues of a run of field checks on one object, in check order. */
  function FieldIssues(base: Path, obj: Json, checks: seq<FieldCheck>): seq<Issue> {
    if checks == [] then []
    else
      var c := checks[|checks| - 1];
      FieldIssues(base, obj, checks[..|checks| - 1])
      + (if Passes(c.rule, Get(obj, c.key)) then [] else [Issue(base + [Field(c.key)], c.problem)])
  }

  predicate DistinctKeys(checks: seq<FieldCheck>) {
    forall a, b :: 0 <= a < b < |checks| ==> checks[a].key != checks[b].key
  }

  /** Each issue of a run of field checks comes from a failing check, on the
      field that check names. */
  lemma {:induction false} FieldIssuesFrom(base: Path, obj: Json, checks: seq<FieldCheck>)
    ensures forall x :: x in FieldIssues(base, obj, checks) ==>
      exists c :: c in checks && !Passes(c.rule, Get(obj, c.key)) && x == Issue(base + [Field(c.key)], c.problem)
  {
    if checks != [] {
      FieldIssuesFrom(base, obj, checks[..|checks| - 1]);
      forall x | x in FieldIssues(base, obj, checks)
        ensures exists c :: c in checks && !Passes(c.rule, Get(obj, c.key)) && x == Issue(base + [Field(c.key)], c.problem)
      {
        if x in FieldIssues(base, obj, checks[..|checks| - 1]) {
          var c :| c in checks[..|checks| - 1] && !Passes(c.rule, Get(obj, c.key)) && x == Issue(base + [Field(c.key)], c.problem);
          assert c in checks;
        } else {
          assert checks[|checks| - 1] in checks;
        }
      }
    }
  }

  /** Every failing check is reported. */
  lemma {:induction false} FieldIssuesHas(base: Path, obj: Json, checks: seq<FieldCheck>, c: FieldCheck)
    requires c in checks && !Passes(c.rule, Get(obj, c.key))
    ensures Issue(base + [Field(c.key)], c.problem) in FieldIssues(base, obj, checks)
  {
    if c != checks[|checks| - 1] {
      var k :| 0 <= k < |checks| && checks[k] == c;
      assert checks[..|checks| - 1][k] == c;
      FieldIssuesHas(base, obj, checks[..|checks| - 1], c);
    }
  }

  /** With distinct keys, the issue of a check is reported exactly when that
      check fails. */
  lemma FieldRule(base: Path, obj: Json, checks: seq<FieldCheck>, c: FieldCheck)
    requires c in checks && DistinctKeys(checks)
    ensures Issue(base + [Field(c.key)], c.problem) in FieldIssues(base, obj, checks)
      <==> !Passes(c.rule, Get(obj, c.key))
  {
    FieldIssuesFrom(base, obj, checks);
    if !Passes(c.rule, Get(obj, c.key)) {
      FieldIssuesHas(base, obj, checks, c);
    }
    if Issue(base + [Field(c.key)], c.problem) in FieldIssues(base, obj, checks) {
      var d :| d in checks && !Passes(d.rule, Get(obj, d.key))
        && Issue(base + [Field(c.key)], c.problem) == Issue(base + [Field(d.key)], d.problem);
      assert (base + [Field(c.key)])[|base|] == Field(c.key);
      assert (base + [Field(d.key)])[|base|] == Field(d.key);
      var a :| 0 <= a < |checks| && checks[a] == c;
      var b :| 0 <= b < |checks| && checks[b] == d;
      assert a == b;
    }
  }

  // ---------------------------------------------------------------------
  // The issues of each part of a document

  /** `add(path, message)` when a check fails. */
  function When(failed: bool, path: Path, problem: Problem): seq<Issue> {
    if failed then [Issue(path, problem)] else []
  }

  function SectionPath(i: nat): Path {
    [Field(Sections), At(i)]
  }

  function QuestionPath(i: nat, j: nat): Path {
    SectionPath(i) + [Field(Questions), At(j)]
  }

  function OptionPath(i: nat, j: nat, k: nat): Path {
    QuestionPath(i, j) + [Field(Options), At(k)]
  }

  /** The checks of `examMeta`. */
  function MetaIssues(value: Json): seq<Issue> {
    var m := Get(value, Meta);
    if m.Some? && IsRecord(m.value) then FieldIssues([Field(Meta)], m.value, MetaChecks)
    else [Issue([Field(Meta)], RequiredObject)]
  }

  /** The checks of an option. */
  function OptionIssues(i: nat, j: nat, k: nat, opt: Json): seq<Issue> {
    if !IsRecord(opt) then [Issue(OptionPath(i, j, k), NotObject)]
    else FieldIssues(OptionPath(i, j, k), opt, OptionChecks)
  }

  /** The issues of the options, in order. */
  function OptionListIssues(i: nat, j: nat, opts: seq<Json>): seq<Issue> {
    if opts == [] then []
    else OptionListIssues(i, j, opts[..|opts| - 1]) + OptionIssues(i, j, |opts| - 1, opts[|opts| - 1])
  }

  /** The options rule of the two choice types. */
  function ChoiceOptionIssues(i: nat, j: nat, options: Option<Json>): seq<Issue> {
    if !IsArray(options) || |options.value.items| < 2 then
      [Issue(QuestionPath(i, j) + [Field(Options)], TooFewOptions)]
    else OptionListIssues(i, j, options.value.items)
  }

  /** The `correctAnswer` rule of each type, with the coding fields. */
  function AnswerIssues(i: nat, j: nat, q: Json, t: QuestionType): seq<Issue> {
    var p := QuestionPath(i, j);
    var ca := Get(q, CorrectAnswer);
    match t
    case MultipleChoice =>
      When(!(IsStringList(ca) || IsNonEmptyString(ca)), p + [Field(CorrectAnswer)], MultipleChoiceAnswer)
    case FillInBlank =>
      When(!(IsStringList(ca) || IsString(ca)), p + [Field(CorrectAnswer)], BlankAnswer)
      + When(!IsArray(ca) && !HasPlaceholders(Get(q, Content)), p + [Field(Content)], MissingPlaceholders)
    case SingleChoice => When(!IsNonEmptyString(ca), p + [Field(CorrectAnswer)], SingleAnswer)
    case TrueFalse => When(!IsNonEmptyString(ca), p + [Field(CorrectAnswer)], SingleAnswer)
    case Coding =>
      When(!IsString(ca) && !IsArray(ca), p + [Field(CorrectAnswer)], ReferenceCodeShape)
      + FieldIssues(p, q, CodingChecks)
    case ShortAnswer => When(!IsString(ca) && !IsArray(ca), p + [Field(CorrectAnswer)], AnswerStringOrArray)
    case Calculation => When(!IsString(ca) && !IsArray(ca), p + [Field(CorrectAnswer)], AnswerStringOrArray)
  }

  /** The true_false rule: options, when an array, must number two. */
  function TrueFalseOptionIssues(i: nat, j: nat, options: Option<Json>, t: QuestionType): seq<Issue> {
    When(t == TrueFalse && IsArray(options) && |options.value.items| != 2,
         QuestionPath(i, j) + [Field(Options)], TrueFalseOptionCount)
  }

  /** The checks made once the type is known to be valid. */
  function QuestionBodyIssues(i: nat, j: nat, q: Json, t: QuestionType): seq<Issue> {
    var options := Get(q, Options);
    FieldIssues(QuestionPath(i, j), q, QuestionTextChecks)
    + (if t == SingleChoice || t == MultipleChoice then ChoiceOptionIssues(i, j, options) else [])
    + TrueFalseOptionIssues(i, j, options, t)
    + AnswerIssues(i, j, q, t)
    + FieldIssues(QuestionPath(i, j), q, LatexChecks)
  }

  /** The issues of question `j` of section `i`. */
  function QuestionIssues(i: nat, j: nat, q: Json): seq<Issue> {
    if !IsRecord(q) then [Issue(QuestionPath(i, j), NotObject)]
    else
      var head := FieldIssues(QuestionPath(i, j), q, QuestionHeadChecks);
      match TypeOf(q)
      case None => head + [Issue(QuestionPath(i, j) + [Field(Type)], UnknownType)]
      case Some(t) => head + QuestionBodyIssues(i, j, q, t)
  }

  /** The issues of the questions of section `i`, in order. */
  function QuestionListIssues(i: nat, qs: seq<Json>): seq<Issue> {
    if qs == [] then []
    else QuestionListIssues(i, qs[..|qs| - 1]) + QuestionIssues(i, |qs| - 1, qs[|qs| - 1])
  }

  /** The issues of section `i`. */
  function SectionIssues(i: nat, s: Json): seq<Issue> {
    if !IsRecord(s) then [Issue(SectionPath(i), NotObject)]
    else
      var head := FieldIssues(SectionPath(i), s, SectionChecks);
      var qs := Get(s, Questions);
      if IsArray(qs) then head + QuestionListIssues(i, qs.value.items)
      else head + [Issue(SectionPath(i) + [Field(Questions)], RequiredArray)]
  }

  /** The issues of the sections, in order. */
  function SectionListIssues(ss: seq<Json>): seq<Issue> {
    if ss == [] then []
    else SectionListIssues(ss[..|ss| - 1]) + SectionIssues(|ss| - 1, ss[|ss| - 1])
  }

  /** Every issue of a document, in the order `validateExamPaper` reports
      them. */
  function ExamPaperIssues(value: Json): seq<Issue> {
    if !IsRecord(value) then [Issue([], NotJsonObject)]
    else
      var sections := Get(value, Sections);
      if IsArray(sections) then MetaIssues(value) + SectionListIssues(sections.value.items)
      else MetaIssues(value) + [Issue([Field(Sections)], RequiredArray)]
  }

  // ---------------------------------------------------------------------
  // The walk

  /** One more option, question or section appends its issues. */
  lemma OptionListSnoc(i: nat, j: nat, opts: seq<Json>, k: nat)
    requires k < |opts|
    ensures OptionListIssues(i, j, opts[..k + 1]) == OptionListIssues(i, j, opts[..k]) + OptionIssues(i, j, k, opts[k])
  {
    assert opts[..k + 1][..k] == opts[..k];
  }

  lemma QuestionListSnoc(i: nat, qs: seq<Json>, j: nat)
    requires j < |qs|
    ensures QuestionListIssues(i, qs[..j + 1]) == QuestionListIssues(i, qs[..j]) + QuestionIssues(i, j, qs[j])
  {
    assert qs[..j + 1][..j] == qs[..j];
  }

  lemma SectionListSnoc(ss: seq<Json>, i: nat)
    requires i < |ss|
    ensures SectionListIssues(ss[..i + 1]) == SectionListIssues(ss[..i]) + SectionIssues(i, ss[i])
  {
    assert ss[..i + 1][..i] == ss[..i];
  }

  /** The `options.forEach` loop. */
  method CheckOptions(i: nat, j: nat, opts: seq<Json>) returns (issues: seq<Issue>)
    ensures issues == OptionListIssues(i, j, opts)
  {
    issues := [];
    for k := 0 to |opts|
      invariant issues == OptionListIssues(i, j, opts[..k])
    {
      OptionListSnoc(i, j, opts, k);
      issues := issues + OptionIssues(i, j, k, opts[k]);
    }
    assert opts[..|opts|] == opts;
  }

  /** The body of the `questions.forEach` callback. */
  method CheckQuestion(i: nat, j: nat, q: Json) returns (issues: seq<Issue>)
    ensures issues == QuestionIssues(i, j, q)
  {
    var p := QuestionPath(i, j);
    if !IsRecord(q) {
      return [Issue(p, NotObject)];
    }
    issues := FieldIssues(p, q, QuestionHeadChecks);
    var t := TypeOf(q);
    if t.None? {
      issues := issues + [Issue(p + [Field(Type)], UnknownType)];
      return;
    }
    var body := CheckQuestionBody(i, j, q, t.value);
    issues := issues + body;
  }

  /** The rest of the callback, once the type is known to be valid. */
  method CheckQuestionBody(i: nat, j: nat, q: Json, t: QuestionType) returns (body: seq<Issue>)
    ensures body == QuestionBodyIssues(i, j, q, t)
  {
    var p := QuestionPath(i, j);
    var options := Get(q, Options);
    body := FieldIssues(p, q, QuestionTextChecks);
    if t == SingleChoice || t == MultipleChoice {
      if !IsArray(options) || |options.value.items| < 2 {
        body := body + [Issue(p + [Field(Options)], TooFewOptions)];
      } else {
        var optionIssues := CheckOptions(i, j, options.value.items);
        body := body + optionIssues;
      }
    }
    body := body + TrueFalseOptionIssues(i, j, options, t) + AnswerIssues(i, j, q, t)
      + FieldIssues(p, q, LatexChecks);
  }

  /** The body of the `sections.forEach` callback, with its question loop. */
  method CheckSection(i: nat, s: Json) returns (issues: seq<Issue>)
    ensures issues == SectionIssues(i, s)
  {
    if !IsRecord(s) {
      return [Issue(SectionPath(i), NotObject)];
    }
    var head := FieldIssues(SectionPath(i), s, SectionChecks);
    issues := head;
    var questions := Get(s, Questions);
    if !IsArray(questions) {
      issues := issues + [Issue(SectionPath(i) + [Field(Questions)], RequiredArray)];
      return;
    }
    var questionIssues := CheckQuestions(i, questions.value.items);
    issues := issues + questionIssues;
  }

  /** The `questions.forEach` loop of section `i`. */
  method CheckQuestions(i: nat, qs: seq<Json>) returns (issues: seq<Issue>)
    ensures issues == QuestionListIssues(i, qs)
  {
    issues := [];
    for j := 0 to |qs|
      invariant issues == QuestionListIssues(i, qs[..j])
    {
      var questionIssues := CheckQuestion(i, j, qs[j]);
      QuestionListSnoc(i, qs, j);
      issues := issues + questionIssues;
    }
    assert qs[..|qs|] == qs;
  }

  /** `validateExamPaper`: every issue of the document, and `ok` exactly when
      there is none. */
  method ValidateExamPaper(value: Json) returns (ok: bool, issues: seq<Issue>)
    ensures issues == ExamPaperIssues(value)
    ensures ok <==> issues == []
  {
    issues := [];
    if !IsRecord(value) {
      issues := issues + [Issue([], NotJsonObject)];
      return false, issues;
    }
    var meta := MetaIssues(value);
    issues := issues + meta;
    var sections := Get(value, Sections);
    if !IsArray(sections) {
      issues := issues + [Issue([Field(Sections)], RequiredArray)];
      return false, issues;
    }
    var sectionIssues := CheckSections(sections.value.items);
    issues := issues + sectionIssues;
    ok := |issues| == 0;
  }

  /** The `sections.forEach` loop. */
  method CheckSections(ss: seq<Json>) returns (issues: seq<Issue>)
    ensures issues == SectionListIssues(ss)
  {
    issues := [];
    for i := 0 to |ss|
      invariant issues == SectionListIssues(ss[..i])
    {
      var sectionIssues := CheckSection(i, ss[i]);
      SectionListSnoc(ss, i);
      issues := issues + sectionIssues;
    }
    assert ss[..|ss|] == ss;
  }

  // ---------------------------------------------------------------------
  // assertExamPaper and formatExamPaperIssues

  /** `ExamPaperValidationError`: the issues and the formatted message. */
  datatype ValidationError = ValidationError(issues: seq<Issue>, message: string)

  /** `assertExamPaper`: the value itself when it has no issue, otherwise an
      error carrying all of them. */
  function AssertExamPaper(value: Json): (r: Result<Json, ValidationError>)
    ensures r.Success? <==> ExamPaperIssues(value) == []
    ensures r.Success? ==> r.value == value
    ensures r.Failure? ==>
      r.error.issues == ExamPaperIssues(value) && r.error.message == FormatExamPaperIssues(ExamPaperIssues(value), 8)
  {
    var issues := ExamPaperIssues(value);
    if issues == [] then Success(value)
    else Failure(ValidationError(issues, FormatExamPaperIssues(issues, 8)))
  }

  /** `issues.slice(0, max)`: a negative `max` counts from the end. */
  function SliceTo<T>(xs: seq<T>, max: int): (r: seq<T>)
    ensures |r| <= |xs| && r == xs[..|r|]
    ensures max >= 0 ==> |r| == if max < |xs| then max else |xs|
    ensures max < 0 ==> |r| == if |xs| + max > 0 then |xs| + max else 0
  {
    var end := if max >= 0 then (if max < |xs| then max else |xs|)
               else (if |xs| + max > 0 then |xs| + max else 0);
    xs[..end]
  }

  function IssueLines(xs: seq<Issue>): (r: seq<string>)
    ensures |r| == |xs|
  {
    seq(|xs|, k requires 0 <= k < |xs| => RenderPath(xs[k].path) + ": " + MessageOf(xs[k].problem))
  }

  const ReportHeader: string := "JSON 结构不符合规则：\n"

  /** The line announcing `n` issues not shown. */
  function MoreLine(n: nat): string {
    "\n… 还有 " + NatToString(n) + " 项"
  }

  /** `formatExamPaperIssues`. */
  function FormatExamPaperIssues(issues: seq<Issue>, max: int): string {
    if |issues| == 0 then "OK"
    else
      var tail := if |issues| > max then MoreLine(|issues| - max) else "";
      ReportHeader + Join(IssueLines(SliceTo(issues, max)), "\n") + tail
  }

  /** The report is `OK` exactly for an empty list. Otherwise it lists the
      first `max` issues (all of them when there are no more than `max`), and
      it ends with the count of the rest exactly when some are left out. */
  lemma FormatReport(issues: seq<Issue>, max: int)
    ensures FormatExamPaperIssues(issues, max) == "OK" <==> issues == []
    ensures issues != [] ==>
      var shown := SliceTo(issues, max);
      && shown == issues[..|shown|]
      && (max >= 0 ==> |shown| <= max)
      && (|issues| <= max ==> shown == issues)
      && FormatExamPaperIssues(issues, max)
         == ReportHeader + Join(IssueLines(shown), "\n")
            + (if |issues| > max then MoreLine(|issues| - max) else "")
  {
    if issues != [] {
      var r := FormatExamPaperIssues(issues, max);
      var rest := Join(IssueLines(SliceTo(issues, max)), "\n")
        + (if |issues| > max then MoreLine(|issues| - max) else "");
      assert r == ReportHeader + rest;
      assert r[0] == 'J';
      assert "OK"[0] == 'O';
    }
  }

  // ---------------------------------------------------------------------
  // Document order

  /** The section an issue is inside, or -1. */
  function SectionKey(x: Issue): int {
    if |x.path| >= 2 && x.path[0] == Field(Sections) && x.path[1].At? then x.path[1].index else -1
  }

  /** The question an issue is inside, or -1. */
  function QuestionKey(x: Issue): int {
    if SectionKey(x) >= 0 && |x.path| >= 4 && x.path[2] == Field(Questions) && x.path[3].At?
    then x.path[3].index else -1
  }

  /** `x` is reported no later than `y` in document order. */
  predicate KeyLe(x: Issue, y: Issue) {
    SectionKey(x) < SectionKey(y) || (SectionKey(x) == SectionKey(y) && QuestionKey(x) <= QuestionKey(y))
  }

  predicate InDocumentOrder(xs: seq<Issue>) {
    forall a, b :: 0 <= a < b < |xs| ==> KeyLe(xs[a], xs[b])
  }

  predicate Under(x: Issue, base: Path) {
    |base| <= |x.path| && x.path[..|base|] == base
  }

  lemma OrderedConcat(xs: seq<Issue>, ys: seq<Issue>)
    requires InDocumentOrder(xs) && InDocumentOrder(ys)
    requires forall x, y :: x in xs && y in ys ==> KeyLe(x, y)
    ensures InDocumentOrder(xs + ys)
  {
    var zs := xs + ys;
    forall a, b | 0 <= a < b < |zs| ensures KeyLe(zs[a], zs[b]) {
      if b < |xs| {
        assert zs[a] == xs[a] && zs[b] == xs[b];
      } else if a >= |xs| {
        assert zs[a] == ys[a - |xs|] && zs[b] == ys[b - |xs|];
      } else {
        assert zs[a] in xs && zs[b] in ys;
      }
    }
  }

  /** Field issues lie one step below their object. */
  lemma FieldIssuesUnder(base: Path, obj: Json, checks: seq<FieldCheck>)
    ensures forall x :: x in FieldIssues(base, obj, checks) ==> Under(x, base) && |x.path| == |base| + 1
  {
    FieldIssuesFrom(base, obj, checks);
    forall x | x in FieldIssues(base, obj, checks) ensures Under(x, base) && |x.path| == |base| + 1 {
      var c :| c in checks && x == Issue(base + [Field(c.key)], c.problem);
      assert (base + [Field(c.key)])[..|base|] == base;
    }
  }

  lemma UnderQuestion(x: Issue, i: nat, j: nat)
    requires Under(x, QuestionPath(i, j))
    ensures SectionKey(x) == i && QuestionKey(x) == j
  {
    var p := QuestionPath(i, j);
    assert x.path[0] == p[0] && x.path[1] == p[1] && x.path[2] == p[2] && x.path[3] == p[3];
  }

  lemma UnderSection(x: Issue, i: nat)
    requires Under(x, SectionPath(i)) && (|x.path| == 3 || (|x.path| >= 4 && x.path[2] != Field(Questions)))
    ensures SectionKey(x) == i && QuestionKey(x) == -1
  {
    assert x.path[0] == SectionPath(i)[0] && x.path[1] == SectionPath(i)[1];
  }

  lemma {:induction false} OptionListUnder(i: nat, j: nat, opts: seq<Json>)
    ensures forall x :: x in OptionListIssues(i, j, opts) ==> Under(x, QuestionPath(i, j)) && |x.path| >= 6
  {
    if opts != [] {
      var k := |opts| - 1;
      OptionListUnder(i, j, opts[..k]);
      var op := OptionPath(i, j, k);
      FieldIssuesUnder(op, opts[k], OptionChecks);
      forall x | x in OptionIssues(i, j, k, opts[k]) ensures Under(x, QuestionPath(i, j)) && |x.path| >= 6 {
        assert Under(x, op);
        assert x.path[..4] == x.path[..6][..4] == op[..4] == QuestionPath(i, j);
      }
    }
  }

  /** A field of a question lies under the question. */
  lemma FieldUnderQuestion(i: nat, j: nat, k: Key, problem: Problem)
    ensures Under(Issue(QuestionPath(i, j) + [Field(k)], problem), QuestionPath(i, j))
  {
    var p := QuestionPath(i, j);
    assert (p + [Field(k)])[..|p|] == p;
  }

  lemma AnswerUnder(i: nat, j: nat, q: Json, t: QuestionType)
    ensures forall x :: x in AnswerIssues(i, j, q, t) ==> Under(x, QuestionPath(i, j)) && |x.path| == 5
  {
    FieldIssuesUnder(QuestionPath(i, j), q, CodingChecks);
    FieldUnderQuestion(i, j, CorrectAnswer, MultipleChoiceAnswer);
    FieldUnderQuestion(i, j, CorrectAnswer, BlankAnswer);
    FieldUnderQuestion(i, j, Content, MissingPlaceholders);
    FieldUnderQuestion(i, j, CorrectAnswer, SingleAnswer);
    FieldUnderQuestion(i, j, CorrectAnswer, ReferenceCodeShape);
    FieldUnderQuestion(i, j, CorrectAnswer, AnswerStringOrArray);
  }

  lemma ChoiceUnder(i: nat, j: nat, options: Option<Json>)
    ensures forall x :: x in ChoiceOptionIssues(i, j, options) ==> Under(x, QuestionPath(i, j)) && |x.path| >= 5
  {
    if IsArray(options) && |options.value.items| >= 2 {
      OptionListUnder(i, j, options.value.items);
    } else {
      FieldUnderQuestion(i, j, Options, TooFewOptions);
    }
  }

  lemma BodyUnder(i: nat, j: nat, q: Json, t: QuestionType)
    ensures forall x :: x in QuestionBodyIssues(i, j, q, t) ==> Under(x, QuestionPath(i, j)) && |x.path| >= 5
  {
    var p := QuestionPath(i, j);
    FieldIssuesUnder(p, q, QuestionTextChecks);
    FieldIssuesUnder(p, q, LatexChecks);
    AnswerUnder(i, j, q, t);
    ChoiceUnder(i, j, Get(q, Options));
    FieldUnderQuestion(i, j, Options, TrueFalseOptionCount);
  }

  /** Every issue of a question lies under that question's path. */
  lemma QuestionIssuesUnder(i: nat, j: nat, q: Json)
    ensures forall x :: x in QuestionIssues(i, j, q) ==> Under(x, QuestionPath(i, j)) && |x.path| >= 4
  {
    var p := QuestionPath(i, j);
    if IsRecord(q) {
      FieldIssuesUnder(p, q, QuestionHeadChecks);
      match TypeOf(q)
      case None => FieldUnderQuestion(i, j, Type, UnknownType);
      case Some(t) => BodyUnder(i, j, q, t);
    }
  }

  predicate AllAt(xs: seq<Issue>, i: int, j: int) {
    forall x :: x in xs ==> SectionKey(x) == i && QuestionKey(x) == j
  }

  lemma QuestionKeys(i: nat, j: nat, q: Json)
    ensures AllAt(QuestionIssues(i, j, q), i, j)
  {
    QuestionIssuesUnder(i, j, q);
    forall x | x in QuestionIssues(i, j, q) ensures SectionKey(x) == i && QuestionKey(x) == j {
      UnderQuestion(x, i, j);
    }
  }

  lemma {:induction false} QuestionListOrder(i: nat, qs: seq<Json>)
    ensures InDocumentOrder(QuestionListIssues(i, qs))
    ensures forall x :: x in QuestionListIssues(i, qs) ==> SectionKey(x) == i && 0 <= QuestionKey(x) < |qs|
  {
    if qs != [] {
      var init := qs[..|qs| - 1];
      var j := |qs| - 1;
      QuestionListOrder(i, init);
      QuestionKeys(i, j, qs[j]);
      OrderedConcat(QuestionListIssues(i, init), QuestionIssues(i, j, qs[j]));
    }
  }

  lemma MetaKeys(value: Json)
    ensures AllAt(MetaIssues(value), -1, -1)
  {
    var m := Get(value, Meta);
    if m.Some? && IsRecord(m.value) {
      FieldIssuesUnder([Field(Meta)], m.value, MetaChecks);
      forall x | x in MetaIssues(value) ensures SectionKey(x) == -1 && QuestionKey(x) == -1 {
        assert x.path[0] == Field(Meta);
      }
    }
  }

  lemma SectionKeys(i: nat, s: Json)
    ensures InDocumentOrder(SectionIssues(i, s))
    ensures forall x :: x in SectionIssues(i, s) ==> SectionKey(x) == i
    ensures IsRecord(s) && !IsArray(Get(s, Questions)) ==> AllAt(SectionIssues(i, s), i, -1)
  {
    if IsRecord(s) {
      var head := FieldIssues(SectionPath(i), s, SectionChecks);
      FieldIssuesUnder(SectionPath(i), s, SectionChecks);
      FieldIssuesFrom(SectionPath(i), s, SectionChecks);
      forall x | x in head ensures SectionKey(x) == i && QuestionKey(x) == -1 {
        var c :| c in SectionChecks && x == Issue(SectionPath(i) + [Field(c.key)], c.problem);
        UnderSection(x, i);
      }
      var qs := Get(s, Questions);
      if IsArray(qs) {
        QuestionListOrder(i, qs.value.items);
        OrderedConcat(head, QuestionListIssues(i, qs.value.items));
      } else {
        var last := Issue(SectionPath(i) + [Field(Questions)], RequiredArray);
        assert SectionKey(last) == i && QuestionKey(last) == -1;
        OrderedConcat(head, [last]);
      }
    }
  }

  lemma {:induction false} SectionListOrder(ss: seq<Json>)
    ensures InDocumentOrder(SectionListIssues(ss))
    ensures forall x :: x in SectionListIssues(ss) ==> 0 <= SectionKey(x) < |ss|
  {
    if ss != [] {
      var init := ss[..|ss| - 1];
      SectionListOrder(init);
      SectionKeys(|ss| - 1, ss[|ss| - 1]);
      OrderedConcat(SectionListIssues(init), SectionIssues(|ss| - 1, ss[|ss| - 1]));
    }
  }

  /** Issues come in document order: `examMeta` first, then the sections by
      index, and within a section its own fields before its questions, by
      index. */
  lemma IssuesInDocumentOrder(value: Json)
    ensures InDocumentOrder(ExamPaperIssues(value))
  {
    if IsRecord(value) {
      MetaKeys(value);
      var sections := Get(value, Sections);
      if IsArray(sections) {
        SectionListOrder(sections.value.items);
        OrderedConcat(MetaIssues(value), SectionListIssues(sections.value.items));
      } else {
        OrderedConcat(MetaIssues(value), [Issue([Field(Sections)], RequiredArray)]);
      }
    }
  }

  // ---------------------------------------------------------------------
  // Early exits

  /** A non-object top level is one issue at `$`. A non-array `sections` ends
      the walk after the `examMeta` checks, with one issue at `$.sections`,
      and no issue is inside a section. */
  lemma DocumentEarlyExits(value: Json)
    ensures !IsRecord(value) ==> ExamPaperIssues(value) == [Issue([], NotJsonObject)]
    ensures IsRecord(value) && !IsArray(Get(value, Sections)) ==>
      && ExamPaperIssues(value)[|ExamPaperIssues(value)| - 1] == Issue([Field(Sections)], RequiredArray)
      && forall x :: x in ExamPaperIssues(value) ==> SectionKey(x) == -1
  {
    if IsRecord(value) && !IsArray(Get(value, Sections)) {
      MetaKeys(value);
    }
  }

  /** A non-object section is one issue at its own path; a section whose
      `questions` is not an array reports its field issues and then that one
      issue, and nothing inside any question. */
  lemma SectionEarlyExits(i: nat, s: Json)
    ensures !IsRecord(s) ==> SectionIssues(i, s) == [Issue(SectionPath(i), NotObject)]
    ensures IsRecord(s) && !IsArray(Get(s, Questions)) ==>
      && SectionIssues(i, s)[|SectionIssues(i, s)| - 1] == Issue(SectionPath(i) + [Field(Questions)], RequiredArray)
      && AllAt(SectionIssues(i, s), i, -1)
  {
    SectionKeys(i, s);
  }

  /** A non-object question is one issue at its own path; a question with an
      unknown `type` reports at most its `id`, `idx` and `score` issues, then
      the `type` issue as its last. */
  lemma QuestionEarlyExits(i: nat, j: nat, q: Json)
    ensures !IsRecord(q) ==> QuestionIssues(i, j, q) == [Issue(QuestionPath(i, j), NotObject)]
    ensures IsRecord(q) && TypeOf(q).None? ==>
      var xs := QuestionIssues(i, j, q);
      && 1 <= |xs| <= 4
      && xs[|xs| - 1] == Issue(QuestionPath(i, j) + [Field(Type)], UnknownType)
      && forall k :: 0 <= k < |xs| - 1 ==> |xs[k].path| == 5 && xs[k].path[4] in {Field(Id), Field(Idx), Field(Score)}
  {
    if IsRecord(q) && TypeOf(q).None? {
      var p := QuestionPath(i, j);
      var head := FieldIssues(p, q, QuestionHeadChecks);
      FieldIssuesFrom(p, q, QuestionHeadChecks);
      FieldCount(p, q, QuestionHeadChecks);
      var xs := QuestionIssues(i, j, q);
      forall k | 0 <= k < |xs| - 1 ensures |xs[k].path| == 5 && xs[k].path[4] in {Field(Id), Field(Idx), Field(Score)} {
        assert xs[k] == head[k] && head[k] in head;
        var c :| c in QuestionHeadChecks && head[k] == Issue(p + [Field(c.key)], c.problem);
        assert (p + [Field(c.key)])[4] == Field(c.key);
      }
    }
  }

  lemma {:induction false} FieldCount(base: Path, obj: Json, checks: seq<FieldCheck>)
    ensures |FieldIssues(base, obj, checks)| <= |checks|
  {
    if checks != [] {
      FieldCount(base, obj, checks[..|checks| - 1]);
    }
  }

  // ---------------------------------------------------------------------
  // Accumulation

  lemma {:induction false} QuestionListHas(i: nat, qs: seq<Json>, j: nat)
    requires j < |qs|
    ensures forall x :: x in QuestionIssues(i, j, qs[j]) ==> x in QuestionListIssues(i, qs)
  {
    if j < |qs| - 1 {
      QuestionListHas(i, qs[..|qs| - 1], j);
      assert qs[..|qs| - 1][j] == qs[j];
    }
  }

  lemma {:induction false} SectionListHas(ss: seq<Json>, i: nat)
    requires i < |ss|
    ensures forall x :: x in SectionIssues(i, ss[i]) ==> x in SectionListIssues(ss)
  {
    if i < |ss| - 1 {
      SectionListHas(ss[..|ss| - 1], i);
      assert ss[..|ss| - 1][i] == ss[i];
    }
  }

  lemma {:induction false} OptionListHas(i: nat, j: nat, opts: seq<Json>, k: nat)
    requires k < |opts|
    ensures forall x :: x in OptionIssues(i, j, k, opts[k]) ==> x in OptionListIssues(i, j, opts)
  {
    if k < |opts| - 1 {
      OptionListHas(i, j, opts[..|opts| - 1], k);
      assert opts[..|opts| - 1][k] == opts[k];
    }
  }

  /** Problems accumulate: whatever `examMeta` holds, every issue of every
      section of an array `sections` is reported, and within a section whose
      `questions` is an array, every issue of every question. */
  lemma IssuesAccumulate(value: Json, i: nat, j: nat)
    requires IsRecord(value) && IsArray(Get(value, Sections))
    requires i < |Get(value, Sections).value.items|
    ensures var s := Get(value, Sections).value.items[i];
      forall x :: x in SectionIssues(i, s) ==> x in ExamPaperIssues(value)
    ensures var s := Get(value, Sections).value.items[i];
      IsRecord(s) && IsArray(Get(s, Questions)) && j < |Get(s, Questions).value.items| ==>
      forall x :: x in QuestionIssues(i, j, Get(s, Questions).value.items[j]) ==> x in ExamPaperIssues(value)
  {
    var ss := Get(value, Sections).value.items;
    SectionListHas(ss, i);
    var s := ss[i];
    if IsRecord(s) && IsArray(Get(s, Questions)) && j < |Get(s, Questions).value.items| {
      QuestionListHas(i, Get(s, Questions).value.items, j);
    }
  }

  // ---------------------------------------------------------------------
  // Field rules

  /** Each `examMeta` field is reported on its own path exactly when its own
      check fails, whatever the other fields hold. */
  lemma MetaFieldRules(value: Json, c: FieldCheck)
    requires IsRecord(value) && Get(value, Meta).Some? && IsRecord(Get(value, Meta).value)
    requires c in MetaChecks
    ensures Issue([Field(Meta), Field(c.key)], c.problem) in ExamPaperIssues(value)
      <==> !Passes(c.rule, Get(Get(value, Meta).value, c.key))
  {
    FieldRule([Field(Meta)], Get(value, Meta).value, MetaChecks, c);
    var sections := Get(value, Sections);
    var x := Issue([Field(Meta), Field(c.key)], c.problem);
    assert [Field(Meta)] + [Field(c.key)] == x.path;
    assert SectionKey(x) == -1;
    var rest := if IsArray(sections) then SectionListIssues(sections.value.items)
      else [Issue([Field(Sections)], RequiredArray)];
    assert ExamPaperIssues(value) == MetaIssues(value) + rest;
    if IsArray(sections) {
      SectionListOrder(sections.value.items);
    }
    assert x !in rest;
  }

  /** The issue of a question field check is reported exactly when the check
      fails: `id` non-blank, `idx` finite and positive, `score` finite and
      non-negative. */
  lemma QuestionHeadRules(i: nat, j: nat, q: Json, c: FieldCheck)
    requires IsRecord(q) && c in QuestionHeadChecks
    ensures Issue(QuestionPath(i, j) + [Field(c.key)], c.problem) in QuestionIssues(i, j, q)
      <==> !Passes(c.rule, Get(q, c.key))
  {
    var p := QuestionPath(i, j);
    FieldRule(p, q, QuestionHeadChecks, c);
    var x := Issue(p + [Field(c.key)], c.problem);
    if TypeOf(q).Some? {
      var t := TypeOf(q).value;
      BodyProblems(i, j, q, t);
    }
  }

  /** The problems the `correctAnswer` rules and the coding fields report. */
  lemma AnswerProblems(i: nat, j: nat, q: Json, t: QuestionType)
    ensures forall x :: x in AnswerIssues(i, j, q, t) ==>
      x.problem in {MultipleChoiceAnswer, BlankAnswer, MissingPlaceholders, SingleAnswer,
                    ReferenceCodeShape, OptionalLanguage, OptionalString, AnswerStringOrArray}
  {
    CodingProblems(QuestionPath(i, j), q);
  }

  /** The options rule of the choice types reports too few options exactly
      when there are, and otherwise only problems inside the options. */
  lemma ChoiceProblems(i: nat, j: nat, options: Option<Json>)
    ensures var tooFew := Issue(QuestionPath(i, j) + [Field(Options)], TooFewOptions);
      tooFew in ChoiceOptionIssues(i, j, options) <==> !IsArray(options) || |options.value.items| < 2
    ensures forall x :: x in ChoiceOptionIssues(i, j, options) ==>
      x.problem in {TooFewOptions, NotObject, RequiredNonEmptyString, RequiredStringMayBeEmpty}
      && (x.problem != TooFewOptions ==> |x.path| >= 6)
  {
    if IsArray(options) && |options.value.items| >= 2 {
      OptionListProblems(i, j, options.value.items);
    }
  }

  /** The problems a question body can report. */
  lemma BodyProblems(i: nat, j: nat, q: Json, t: QuestionType)
    ensures forall x :: x in QuestionBodyIssues(i, j, q, t) ==>
      x.problem !in {RequiredPositive, RequiredNonNegative, UnknownType}
      && (x.problem == RequiredNonEmptyString ==> |x.path| > 5)
  {
    var p := QuestionPath(i, j);
    TextProblems(p, q);
    LatexProblems(p, q);
    AnswerProblems(i, j, q, t);
    ChoiceProblems(i, j, Get(q, Options));
  }

  lemma TextProblems(p: Path, q: Json)
    ensures forall x :: x in FieldIssues(p, q, QuestionTextChecks) ==> x.problem in {RequiredString, RequiredStringMayBeEmpty}
  {
    FieldIssuesFrom(p, q, QuestionTextChecks);
  }

  lemma LatexProblems(p: Path, q: Json)
    ensures forall x :: x in FieldIssues(p, q, LatexChecks) ==> x.problem == OptionalBoolean
  {
    FieldIssuesFrom(p, q, LatexChecks);
  }

  lemma CodingProblems(p: Path, q: Json)
    ensures forall x :: x in FieldIssues(p, q, CodingChecks) ==> x.problem in {OptionalLanguage, OptionalString}
  {
    FieldIssuesFrom(p, q, CodingChecks);
  }

  lemma {:induction false} OptionListProblems(i: nat, j: nat, opts: seq<Json>)
    ensures forall x :: x in OptionListIssues(i, j, opts) ==>
      x.problem in {NotObject, RequiredNonEmptyString, RequiredStringMayBeEmpty} && |x.path| >= 6
  {
    if opts != [] {
      var k := |opts| - 1;
      OptionListProblems(i, j, opts[..k]);
      FieldIssuesFrom(OptionPath(i, j, k), opts[k], OptionChecks);
      FieldIssuesUnder(OptionPath(i, j, k), opts[k], OptionChecks);
    }
  }

  /** The option rules: single and multiple choice need an options array of
      at least two; true/false options, when an array is given, must number
      exactly two; no other type is checked for options. */
  lemma OptionRules(i: nat, j: nat, q: Json)
    requires IsRecord(q) && TypeOf(q).Some?
    ensures var t := TypeOf(q).value;
      var options := Get(q, Options);
      var tooFew := Issue(QuestionPath(i, j) + [Field(Options)], TooFewOptions);
      var tfCount := Issue(QuestionPath(i, j) + [Field(Options)], TrueFalseOptionCount);
      && (tooFew in QuestionIssues(i, j, q)
          <==> (t == SingleChoice || t == MultipleChoice) && (!IsArray(options) || |options.value.items| < 2))
      && (tfCount in QuestionIssues(i, j, q) <==> t == TrueFalse && IsArray(options) && |options.value.items| != 2)
  {
    var t := TypeOf(q).value;
    var p := QuestionPath(i, j);
    HeadProblems(p, q);
    BodyOptionRules(i, j, q, t);
    assert QuestionIssues(i, j, q) == FieldIssues(p, q, QuestionHeadChecks) + QuestionBodyIssues(i, j, q, t);
  }

  lemma HeadProblems(p: Path, q: Json)
    ensures forall x :: x in FieldIssues(p, q, QuestionHeadChecks) ==>
      x.problem in {RequiredNonEmptyString, RequiredPositive, RequiredNonNegative}
  {
    FieldIssuesFrom(p, q, QuestionHeadChecks);
  }

  /** `OptionRules` for the body of a question of type `t`. */
  lemma BodyOptionRules(i: nat, j: nat, q: Json, t: QuestionType)
    ensures var options := Get(q, Options);
      var tooFew := Issue(QuestionPath(i, j) + [Field(Options)], TooFewOptions);
      var tfCount := Issue(QuestionPath(i, j) + [Field(Options)], TrueFalseOptionCount);
      && (tooFew in QuestionBodyIssues(i, j, q, t)
          <==> (t == SingleChoice || t == MultipleChoice) && (!IsArray(options) || |options.value.items| < 2))
      && (tfCount in QuestionBodyIssues(i, j, q, t) <==> t == TrueFalse && IsArray(options) && |options.value.items| != 2)
  {
    var p := QuestionPath(i, j);
    var options := Get(q, Options);
    TextProblems(p, q);
    LatexProblems(p, q);
    AnswerProblems(i, j, q, t);
    ChoiceProblems(i, j, options);
  }

  /** Each option issue comes from the option its path names. */
  lemma {:induction false} OptionListFrom(i: nat, j: nat, opts: seq<Json>)
    ensures forall x :: x in OptionListIssues(i, j, opts) ==>
      && |x.path| >= 6 && x.path[5].At? && x.path[5].index < |opts|
      && x in OptionIssues(i, j, x.path[5].index, opts[x.path[5].index])
  {
    if opts != [] {
      var k := |opts| - 1;
      var init := opts[..k];
      OptionListFrom(i, j, init);
      var op := OptionPath(i, j, k);
      FieldIssuesUnder(op, opts[k], OptionChecks);
      forall x | x in OptionListIssues(i, j, opts)
        ensures && |x.path| >= 6 && x.path[5].At? && x.path[5].index < |opts|
                && x in OptionIssues(i, j, x.path[5].index, opts[x.path[5].index])
      {
        if x in OptionListIssues(i, j, init) {
          assert init[x.path[5].index] == opts[x.path[5].index];
        } else {
          assert x in OptionIssues(i, j, k, opts[k]);
          assert x.path[..6] == op;
          assert x.path[5] == op[5] == At(k);
        }
      }
    }
  }

  /** The only issues deeper than a question's own fields are the issues of
      its options, which only a choice question with at least two options
      has. */
  lemma DeepIssuesAreOptionIssues(i: nat, j: nat, q: Json)
    ensures forall x :: x in QuestionIssues(i, j, q) && |x.path| >= 6 ==>
      && IsRecord(q) && TypeOf(q).Some? && TypeOf(q).value in {SingleChoice, MultipleChoice}
      && IsArray(Get(q, Options)) && 2 <= |Get(q, Options).value.items|
      && x in OptionListIssues(i, j, Get(q, Options).value.items)
  {
    var p := QuestionPath(i, j);
    if IsRecord(q) {
      FieldIssuesUnder(p, q, QuestionHeadChecks);
      match TypeOf(q)
      case None =>
      case Some(t) =>
        FieldIssuesUnder(p, q, QuestionTextChecks);
        FieldIssuesUnder(p, q, LatexChecks);
        AnswerUnder(i, j, q, t);
        assert QuestionIssues(i, j, q) == FieldIssues(p, q, QuestionHeadChecks) + QuestionBodyIssues(i, j, q, t);
    }
  }

  /** With at least two options to a choice question, every option is
      checked, and an issue on an option's path is reported exactly when that
      option breaks the rule it names: a non-object option, a blank `label`,
      a non-string `value`. */
  lemma EveryOptionChecked(i: nat, j: nat, q: Json, k: nat)
    requires IsRecord(q) && TypeOf(q).Some? && TypeOf(q).value in {SingleChoice, MultipleChoice}
    requires IsArray(Get(q, Options)) && 2 <= |Get(q, Options).value.items|
    requires k < |Get(q, Options).value.items|
    ensures var opt := Get(q, Options).value.items[k];
      && (Issue(OptionPath(i, j, k), NotObject) in QuestionIssues(i, j, q) <==> !IsRecord(opt))
      && (IsRecord(opt) ==> forall c :: c in OptionChecks ==>
            (Issue(OptionPath(i, j, k) + [Field(c.key)], c.problem) in QuestionIssues(i, j, q)
             <==> !Passes(c.rule, Get(opt, c.key))))
  {
    var opts := Get(q, Options).value.items;
    var op := OptionPath(i, j, k);
    OptionListHas(i, j, opts, k);
    DeepIssuesAreOptionIssues(i, j, q);
    OptionListFrom(i, j, opts);
    FieldIssuesUnder(op, opts[k], OptionChecks);
    assert op[5] == At(k);
    if Issue(op, NotObject) in QuestionIssues(i, j, q) {
      assert Issue(op, NotObject) in OptionIssues(i, j, k, opts[k]);
    }
    if IsRecord(opts[k]) {
      forall c | c in OptionChecks
        ensures Issue(op + [Field(c.key)], c.problem) in QuestionIssues(i, j, q) <==> !Passes(c.rule, Get(opts[k], c.key))
      {
        var x := Issue(op + [Field(c.key)], c.problem);
        FieldRule(op, opts[k], OptionChecks, c);
        if x in QuestionIssues(i, j, q) {
          assert x.path[5] == At(k);
          assert x in OptionIssues(i, j, k, opts[k]);
        }
      }
    }
  }

  /** fill_in_blank: when `correctAnswer` is not an array the content must
      contain `___`, so that the number of blanks can be inferred. */
  lemma PlaceholderRule(i: nat, j: nat, q: Json)
    requires IsRecord(q) && TypeOf(q) == Some(FillInBlank)
    ensures Issue(QuestionPath(i, j) + [Field(Content)], MissingPlaceholders) in QuestionIssues(i, j, q)
      <==> !IsArray(Get(q, CorrectAnswer)) && !HasPlaceholders(Get(q, Content))
  {
    var p := QuestionPath(i, j);
    HeadProblems(p, q);
    TextProblems(p, q);
    LatexProblems(p, q);
  }
}
