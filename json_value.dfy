/** Untyped JSON values as JavaScript sees them after `JSON.parse`, and the
    property lookups the validators perform on them. */
module JsonValue {
  import opened Wrappers
  import opened JsStrings

  /** A JavaScript number. Every check in the source asks `Number.isFinite`
      before it compares, so NaN and both infinities are one value here. */
  datatype Num = Finite(value: real) | NonFinite

  /** The property names the modelled code reads. An object is modelled by
      the values of these properties; no code reads any other property, so
      the others are left out. */
  datatype Key =
    | Meta | Sections | Id | Title | TotalScore | Duration | CreateTime | Description | Type
    | Questions | Idx | Score | Content | Analysis | Options | Label | Value | CorrectAnswer
    | CodeLanguage | DefaultCode | IsLatex
    | Model | Items | QuestionId | MaxScore | Choices | Message | Results | Feedback | Error
    | HasConfig

  /** The name of each property, as written in the JSON text. */
  function KeyName(k: Key): string {
    match k
    case Meta => "examMeta"
    case Sections => "sections"
    case Id => "id"
    case Title => "title"
    case TotalScore => "totalScore"
    case Duration => "duration"
    case CreateTime => "createTime"
    case Description => "description"
    case Type => "type"
    case Questions => "questions"
    case Idx => "idx"
    case Score => "score"
    case Content => "content"
    case Analysis => "analysis"
    case Options => "options"
    case Label => "label"
    case Value => "value"
    case CorrectAnswer => "correctAnswer"
    case CodeLanguage => "codeLanguage"
    case DefaultCode => "defaultCode"
    case IsLatex => "isLatex"
    case Model => "model"
    case Items => "items"
    case QuestionId => "questionId"
    case MaxScore => "maxScore"
    case Choices => "choices"
    case Message => "message"
    case Results => "results"
    case Feedback => "feedback"
    case Error => "error"
    case HasConfig => "hasConfig"
  }

  datatype Json =
    | JNull
    | JBool(b: bool)
    | JNum(n: Num)
    | JStr(s: string)
    | JArr(items: seq<Json>)
    | JObj(fields: map<Key, Json>)

  /** `typeof v === 'object' && v !== null && !Array.isArray(v)` */
  predicate IsRecord(v: Json) {
    v.JObj?
  }

  /** Property access `v.key`; `None` is `undefined`. The keys the code
      reads are never inherited members of arrays or strings, so any value
      that is not an object yields `undefined`. */
  function Get(v: Json, key: Key): (r: Option<Json>)
    ensures r.Some? <==> v.JObj? && key in v.fields
  {
    if v.JObj? && key in v.fields then Some(v.fields[key]) else None
  }

  /** `Get` on a value that may itself be `undefined`: optional chaining `?.`. */
  function GetOpt(v: Option<Json>, key: Key): Option<Json> {
    if v.Some? then Get(v.value, key) else None
  }

  /** `typeof v === 'string'` */
  predicate IsString(v: Option<Json>) {
    v.Some? && v.value.JStr?
  }

  /** `isNonEmptyString`: a string that does not trim to empty
      (`JsStrings.HasNonSpaceIff`). */
  predicate IsNonEmptyString(v: Option<Json>) {
    IsString(v) && HasNonSpace(v.value.s)
  }

  /** `isFiniteNumber`: `typeof v === 'number' && Number.isFinite(v)`. */
  predicate IsFiniteNumber(v: Option<Json>) {
    v.Some? && v.value.JNum? && v.value.n.Finite?
  }

  /** `Array.isArray(v)` */
  predicate IsArray(v: Option<Json>) {
    v.Some? && v.value.JArr?
  }

  /** `v == null`: `undefined` or `null`. */
  predicate IsNullish(v: Option<Json>) {
    v.None? || v.value.JNull?
  }
}
