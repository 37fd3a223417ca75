/** The AI grading endpoint of server/index.js: `POST /api/ai/grade` checks its
    configuration and its request, asks the upstream chat-completions service
    (retrying once without `response_format` when that is refused), extracts
    the model's JSON answer, and returns the usable results with each score
    clamped against the requesting item's `maxScore`. `GET /api/ai/health`
    reports whether the configuration is complete. */
module AiServer {
  import opened Wrappers
  import opened JsStrings
  import opened JsonValue
  import opened GradeWire
  import Grading

  // ---------------------------------------------------------------------
  // clampScore

  /** The server's `clampScore`: like the grading one, except that a
      non-finite maximum also gives 0. */
  function ClampScore(value: Num, maxScore: Num): (r: real)
    ensures value.NonFinite? || maxScore.NonFinite? ==> r == 0.0
    ensures maxScore.Finite? ==> r == Grading.ClampScore(value, maxScore.value)
  {
    if value.NonFinite? || maxScore.NonFinite? then 0.0
    else if value.value < 0.0 then 0.0
    else if value.value > maxScore.value then maxScore.value
    else Grading.Round2(value.value)
  }

  /** For a maximum that is a non-negative whole number of hundredths, the
      clamped score lies in [0, maxScore]; a score above the maximum becomes
      the maximum itself. */
  lemma ClampScoreRange(value: Num, maxScore: real)
    requires maxScore >= 0.0 && Grading.WholeCents(maxScore)
    ensures 0.0 <= ClampScore(value, Finite(maxScore)) <= maxScore
    ensures value.Finite? && value.value > maxScore ==> ClampScore(value, Finite(maxScore)) == maxScore
  {
    Grading.ClampScoreRange(value, maxScore);
  }

  // ---------------------------------------------------------------------
  // parseJsonFromModel

  /** `JSON.parse`: the value, or the message of the syntax error. JSON text
      itself is not modelled. */
  type Parser = string -> Result<Json, string>

  const EmptyContent: string := "AI 返回内容为空"
  const Unparseable: string := "AI 返回无法解析为 JSON"

  /** From the first `{` to the last `}`, both included, when the last `}`
      comes after the first `{`. */
  function BraceSlice(s: string): (r: Option<string>)
    ensures r.Some? <==> IndexOf(s, '{') >= 0 && LastIndexOf(s, '}') > IndexOf(s, '{')
  {
    var start := IndexOf(s, '{');
    var end := LastIndexOf(s, '}');
    if start >= 0 && end > start then Some(s[start..end + 1]) else None
  }

  /** The slice is the widest brace-delimited part: it starts at a `{` with
      none before it and ends at a `}` with none after it. */
  lemma BraceSliceBounds(s: string)
    requires BraceSlice(s).Some?
    ensures exists start, end ::
      && 0 <= start < end < |s|
      && BraceSlice(s).value == s[start..end + 1]
      && s[start] == '{' && s[end] == '}'
      && (forall k :: 0 <= k < start ==> s[k] != '{')
      && (forall k :: end < k < |s| ==> s[k] != '}')
  {
    var start := IndexOf(s, '{');
    var end := LastIndexOf(s, '}');
    assert BraceSlice(s).value == s[start..end + 1];
  }

  /** A string with no `{`, or no `}` after its first `{`, has no slice. */
  lemma NoBraceSlice(s: string)
    requires (forall k :: 0 <= k < |s| ==> s[k] != '{') || (forall k :: 0 <= k < |s| ==> s[k] != '}')
    ensures BraceSlice(s).None?
  {
  }

  /** `parseJsonFromModel`: the trimmed text as a whole, otherwise its brace
      slice; a non-string content fails first. */
  function ParseJsonFromModel(content: Option<Json>, parse: Parser): (r: Result<Json, string>)
    ensures !IsString(content) ==> r == Failure(EmptyContent)
  {
    if !IsString(content) then Failure(EmptyContent)
    else
      var trimmed := Trim(content.value.s);
      var whole := parse(trimmed);
      if whole.Success? then whole
      else
        match BraceSlice(trimmed)
        case Some(slice) => parse(slice)
        case None => Failure(Unparseable)
  }

  /** The whole trimmed text is tried first; the slice only when that fails,
      and it is then the only other attempt. */
  lemma ParseOrder(content: Option<Json>, parse: Parser)
    requires IsString(content)
    ensures var trimmed := Trim(content.value.s);
      var r := ParseJsonFromModel(content, parse);
      && (parse(trimmed).Success? ==> r == parse(trimmed))
      && (parse(trimmed).Failure? && BraceSlice(trimmed).Some? ==> r == parse(BraceSlice(trimmed).value))
      && (parse(trimmed).Failure? && BraceSlice(trimmed).None? ==> r == Failure(Unparseable))
  {
  }

  // ---------------------------------------------------------------------
  // Configuration

  /** The three environment variables, as set (`None` when unset). */
  datatype Env = Env(baseUrl: Option<string>, apiKey: Option<string>, model: Option<string>)

  /** `getEnv`: the variable trimmed, empty when unset. */
  function EnvValue(raw: Option<string>): string {
    if raw.Some? then Trim(raw.value) else ""
  }

  /** The `hasConfig` of `GET /api/ai/health`. */
  predicate ConfigComplete(env: Env) {
    EnvValue(env.baseUrl) != "" && EnvValue(env.apiKey) != "" && EnvValue(env.model) != ""
  }

  /** The model used: the request's `model` trimmed when it is a string that
      does not trim to empty, otherwise the configured one. */
  function SelectModel(body: Json, fallback: string): (r: string)
    ensures IsNonEmptyString(Get(body, Model)) ==> r == Trim(Get(body, Model).value.s) && r != ""
    ensures !IsNonEmptyString(Get(body, Model)) ==> r == fallback
  {
    var requested := Get(body, Model);
    HasNonSpaceIff(if IsString(requested) then requested.value.s else "");
    if IsNonEmptyString(requested) then Trim(requested.value.s) else fallback
  }

  /** The configuration check of the grade endpoint. */
  predicate Configured(env: Env, body: Json) {
    EnvValue(env.baseUrl) != "" && EnvValue(env.apiKey) != "" && SelectModel(body, EnvValue(env.model)) != ""
  }

  /** When the health endpoint reports a configuration, the grade endpoint
      finds one whatever the request holds. */
  lemma HealthImpliesConfigured(env: Env, body: Json)
    requires ConfigComplete(env)
    ensures Configured(env, body)
  {
  }

  // ---------------------------------------------------------------------
  // Item validation and maxScoreById

  const NotConfigured: string := "AI 服务未配置：请设置 AI_BASE_URL / AI_API_KEY / AI_MODEL"
  const ItemsRequired: string := "请求体中 items 必填，且必须是非空数组"
  const ItemNotObject: string := "items 中每一项必须是对象"
  const ItemIdRequired: string := "items[].questionId 必填，且必须是非空字符串"

  function MaxScoreMessage(id: string): string {
    "题目 " + id + " 的 maxScore 必须是非负数"
  }

  /** An object with a non-blank string `questionId` and a finite,
      non-negative number `maxScore`. */
  predicate ValidItem(item: Json) {
    && IsRecord(item)
    && IsNonEmptyString(Get(item, QuestionId))
    && IsFiniteNumber(Get(item, MaxScore)) && Get(item, MaxScore).value.n.value >= 0.0
  }

  function ItemId(item: Json): string
    requires ValidItem(item)
  {
    Get(item, QuestionId).value.s
  }

  function ItemMax(item: Json): real
    requires ValidItem(item)
  {
    Get(item, MaxScore).value.n.value
  }

  /** The message of the first failing check of an item. */
  function ItemProblem(item: Json): (r: Option<string>)
    ensures r.None? <==> ValidItem(item)
  {
    if !IsRecord(item) then Some(ItemNotObject)
    else if !IsNonEmptyString(Get(item, QuestionId)) then Some(ItemIdRequired)
    else if !(IsFiniteNumber(Get(item, MaxScore)) && Get(item, MaxScore).value.n.value >= 0.0) then
      Some(MaxScoreMessage(Get(item, QuestionId).value.s))
    else None
  }

  /** The `maxScoreById` map, or the message of the first invalid item. */
  function MaxScores(items: seq<Json>): Result<map<string, real>, string> {
    if items == [] then Success(map[])
    else
      var last := items[|items| - 1];
      match MaxScores(items[..|items| - 1])
      case Failure(e) => Failure(e)
      case Success(m) =>
        match ItemProblem(last)
        case Some(e) => Failure(e)
        case None => Success(m[ItemId(last) := ItemMax(last)])
  }

  /** Once a prefix fails, the whole list fails with the same message. */
  lemma {:induction false} MaxScoresFailurePersists(items: seq<Json>, n: nat)
    requires n <= |items| && MaxScores(items[..n]).Failure?
    ensures MaxScores(items) == MaxScores(items[..n])
    decreases |items| - n
  {
    if n == |items| {
      assert items[..n] == items;
    } else {
      var init := items[..|items| - 1];
      assert init[..n] == items[..n];
      MaxScoresFailurePersists(init, n);
    }
  }

  /** The `for (const item of items)` loop: it stops at the first invalid
      item; a later item with the same id overwrites an earlier one. */
  method BuildMaxScoreById(items: seq<Json>) returns (r: Result<map<string, real>, string>)
    ensures r == MaxScores(items)
  {
    var maxScoreById: map<string, real> := map[];
    for i := 0 to |items|
      invariant MaxScores(items[..i]) == Success(maxScoreById)
    {
      var item := items[i];
      assert items[..i + 1][..i] == items[..i];
      if !IsRecord(item) {
        MaxScoresFailurePersists(items, i + 1);
        return Failure(ItemNotObject);
      }
      var id := Get(item, QuestionId);
      if !IsNonEmptyString(id) {
        MaxScoresFailurePersists(items, i + 1);
        return Failure(ItemIdRequired);
      }
      var maxScore := Get(item, MaxScore);
      if !IsFiniteNumber(maxScore) || maxScore.value.n.value < 0.0 {
        MaxScoresFailurePersists(items, i + 1);
        return Failure(MaxScoreMessage(id.value.s));
      }
      maxScoreById := maxScoreById[id.value.s := maxScore.value.n.value];
    }
    assert items[..|items|] == items;
    return Success(maxScoreById);
  }

  /** The items are accepted exactly when every one is valid; otherwise the
      message is that of the first invalid item. */
  lemma {:induction false} MaxScoresOutcome(items: seq<Json>)
    ensures MaxScores(items).Success? <==> forall k :: 0 <= k < |items| ==> ValidItem(items[k])
    ensures MaxScores(items).Failure? ==> exists k ::
      && 0 <= k < |items| && !ValidItem(items[k])
      && (forall l :: 0 <= l < k ==> ValidItem(items[l]))
      && MaxScores(items).error == ItemProblem(items[k]).value
  {
    if items != [] {
      var n := |items| - 1;
      var init := items[..n];
      MaxScoresOutcome(init);
      assert forall k :: 0 <= k < n ==> init[k] == items[k];
      if MaxScores(init).Failure? {
        var k :| 0 <= k < n && !ValidItem(init[k]) && (forall l :: 0 <= l < k ==> ValidItem(init[l]))
          && MaxScores(init).error == ItemProblem(init[k]).value;
        assert items[k] == init[k];
      }
    }
  }

  /** With every item valid, the map holds exactly the ids of the items. */
  lemma {:induction false} MaxScoresKeys(items: seq<Json>)
    requires forall k :: 0 <= k < |items| ==> ValidItem(items[k])
    ensures MaxScores(items).Success?
    ensures forall id :: id in MaxScores(items).value <==> exists k :: 0 <= k < |items| && ItemId(items[k]) == id
  {
    if items != [] {
      var n := |items| - 1;
      var init := items[..n];
      assert forall k :: 0 <= k < n ==> init[k] == items[k];
      MaxScoresKeys(init);
      var m := MaxScores(items).value;
      assert m == MaxScores(init).value[ItemId(items[n]) := ItemMax(items[n])];
      forall id ensures id in m <==> exists k :: 0 <= k < |items| && ItemId(items[k]) == id {
        if id in m && id != ItemId(items[n]) {
          var k :| 0 <= k < n && ItemId(init[k]) == id;
          assert ItemId(items[k]) == id;
        }
        if exists k :: 0 <= k < |items| && ItemId(items[k]) == id {
          var k :| 0 <= k < |items| && ItemId(items[k]) == id;
          if k < n {
            assert ItemId(init[k]) == id;
          }
        }
      }
    }
  }

  /** With every item valid, an id is mapped to the `maxScore` of the last
      item that carries it. */
  lemma {:induction false} MaxScoresLastValue(items: seq<Json>)
    requires forall k :: 0 <= k < |items| ==> ValidItem(items[k])
    ensures MaxScores(items).Success?
    ensures forall k :: 0 <= k < |items| && (forall l :: k < l < |items| ==> ItemId(items[l]) != ItemId(items[k])) ==>
              ItemId(items[k]) in MaxScores(items).value && MaxScores(items).value[ItemId(items[k])] == ItemMax(items[k])
  {
    if items != [] {
      var n := |items| - 1;
      var init := items[..n];
      assert forall k :: 0 <= k < n ==> init[k] == items[k];
      MaxScoresLastValue(init);
      var m := MaxScores(items).value;
      assert m == MaxScores(init).value[ItemId(items[n]) := ItemMax(items[n])];
      forall k | 0 <= k < |items| && (forall l :: k < l < |items| ==> ItemId(items[l]) != ItemId(items[k]))
        ensures ItemId(items[k]) in m && m[ItemId(items[k])] == ItemMax(items[k])
      {
        if k < n {
          assert init[k] == items[k];
          assert forall l :: k < l < n ==> ItemId(init[l]) != ItemId(init[k]);
        }
      }
    }
  }

  /** On success every item was valid, the map holds exactly their ids, and
      each id is mapped to the `maxScore` of the last item that carries it. */
  lemma MaxScoresLastWins(items: seq<Json>)
    requires MaxScores(items).Success?
    ensures forall k :: 0 <= k < |items| ==> ValidItem(items[k])
    ensures var m := MaxScores(items).value;
      forall id :: id in m <==> exists k :: 0 <= k < |items| && ItemId(items[k]) == id
    ensures var m := MaxScores(items).value;
      forall k :: 0 <= k < |items| && (forall l :: k < l < |items| ==> ItemId(items[l]) != ItemId(items[k]))
        ==> m[ItemId(items[k])] == ItemMax(items[k])
  {
    MaxScoresOutcome(items);
    MaxScoresKeys(items);
    MaxScoresLastValue(items);
  }

  // ---------------------------------------------------------------------
  // The upstream exchange

  /** An upstream reply: its HTTP status and its body text. */
  datatype Upstream = Upstream(status: nat, text: string)

  /** `Response.ok` */
  predicate Ok(res: Upstream) {
    200 <= res.status <= 299
  }

  /** A request that did not produce a reply: aborted by the timeout, or
      failed with an error message. */
  datatype FetchFailure = Aborted | Failed(message: string)

  /** The retry condition: a refused request whose body names
      `response_format`. */
  predicate ShouldRetry(res: Upstream) {
    !Ok(res) && res.status == 400 && Contains(res.text, "response_format")
  }

  datatype Exchanged = Exchanged(outcome: Result<Upstream, FetchFailure>, requests: nat)

  /** The request with `response_format`, and the one without it, made only
      when the first was refused for that reason. */
  function Exchange(withFormat: Result<Upstream, FetchFailure>, plain: Result<Upstream, FetchFailure>): (r: Exchanged)
    ensures 1 <= r.requests <= 2
    ensures r.requests == 2 <==> withFormat.Success? && ShouldRetry(withFormat.value)
    ensures r.outcome == if r.requests == 2 then plain else withFormat
  {
    if withFormat.Success? && ShouldRetry(withFormat.value) then Exchanged(plain, 2)
    else Exchanged(withFormat, 1)
  }

  // ---------------------------------------------------------------------
  // Sanitising the results

  /** `maxScoreById.get(id) ?? 0` */
  function MaxFor(m: map<string, real>, id: string): real {
    if id in m then m[id] else 0.0
  }

  /** An entry with its score clamped against the maximum of its id. */
  function Clamped(e: GradeEntry, m: map<string, real>): GradeEntry {
    e.(score := ClampScore(Finite(e.score), Finite(MaxFor(m, e.questionId))))
  }

  /** The usable results, in order, with clamped scores. */
  function Sanitized(items: seq<Json>, m: map<string, real>): (r: seq<GradeEntry>)
    ensures |r| <= |items|
  {
    if items == [] then []
    else
      var last := items[|items| - 1];
      Sanitized(items[..|items| - 1], m) + (if Usable(last) then [Clamped(EntryOf(last), m)] else [])
  }

  /** The `for (const item of modelJson.results)` loop. */
  method SanitizeResults(items: seq<Json>, maxScoreById: map<string, real>) returns (results: seq<GradeEntry>)
    ensures results == Sanitized(items, maxScoreById)
  {
    results := [];
    for i := 0 to |items|
      invariant results == Sanitized(items[..i], maxScoreById)
    {
      var item := items[i];
      assert items[..i + 1][..i] == items[..i];
      if !IsRecord(item) {
        continue;
      }
      if !IsNonEmptyString(Get(item, QuestionId)) {
        continue;
      }
      if !IsFiniteNumber(Get(item, Score)) {
        continue;
      }
      var questionId := Get(item, QuestionId).value.s;
      var maxScore := MaxFor(maxScoreById, questionId);
      var feedback := if IsString(Get(item, Feedback)) then Some(Get(item, Feedback).value.s) else None;
      results := results + [GradeEntry(questionId, ClampScore(Get(item, Score).value.n, Finite(maxScore)), feedback)];
    }
    assert items[..|items|] == items;
  }

  /** The server keeps exactly the entries the client's filter keeps, in the
      same order, and only clamps their scores. */
  lemma {:induction false} SanitizedIsClampedKept(items: seq<Json>, m: map<string, real>)
    ensures |Sanitized(items, m)| == |Kept(items)|
    ensures forall k :: 0 <= k < |Kept(items)| ==> Sanitized(items, m)[k] == Clamped(Kept(items)[k], m)
  {
    if items != [] {
      SanitizedIsClampedKept(items[..|items| - 1], m);
    }
  }

  /** With every requested maximum a non-negative whole number of
      hundredths, each returned score lies between 0 and its item's maximum
      (0 for an id that was not requested). */
  lemma SanitizedScoresInRange(items: seq<Json>, m: map<string, real>)
    requires forall id :: id in m ==> m[id] >= 0.0 && Grading.WholeCents(m[id])
    ensures forall e :: e in Sanitized(items, m) ==> 0.0 <= e.score <= MaxFor(m, e.questionId)
  {
    SanitizedIsClampedKept(items, m);
    Grading.Round2Facts(0.0);
    assert 0.0 * 100.0 == 0.0;
    forall e | e in Sanitized(items, m) ensures 0.0 <= e.score <= MaxFor(m, e.questionId) {
      var k :| 0 <= k < |Sanitized(items, m)| && Sanitized(items, m)[k] == e;
      var c := Kept(items)[k];
      ClampScoreRange(Finite(c.score), MaxFor(m, c.questionId));
    }
  }

  /** Every returned entry has a non-blank id. */
  lemma SanitizedIdsNonBlank(items: seq<Json>, m: map<string, real>)
    ensures forall k :: 0 <= k < |Sanitized(items, m)| ==> HasNonSpace(Sanitized(items, m)[k].questionId)
  {
    SanitizedIsClampedKept(items, m);
    KeptIdsNonBlank(items);
  }

  /** What the client reads back from the server's `results` is exactly what
      the server sent. */
  lemma ClientReadsServerResults(items: seq<Json>, m: map<string, real>)
    ensures Kept(EncodeAll(Sanitized(items, m))) == Sanitized(items, m)
  {
    SanitizedIsClampedKept(items, m);
    KeptIdsNonBlank(items);
    KeptEncodeAll(Sanitized(items, m));
  }

  // ---------------------------------------------------------------------
  // The handler

  /** A reply: the HTTP status and the JSON body. */
  datatype Reply = Reply(status: nat, body: ReplyBody)

  datatype ReplyBody = ErrorBody(error: string) | Graded(model: string, results: seq<GradeEntry>)

  /** The JSON object the endpoint writes. */
  function ReplyJson(body: ReplyBody): (r: Json)
    ensures IsRecord(r)
  {
    match body
    case ErrorBody(e) => JObj(map[Error := JStr(e)])
    case Graded(model, results) => JObj(map[Model := JStr(model), Results := JArr(EncodeAll(results))])
  }

  /** The `{ ok: true, hasConfig }` object of `GET /api/ai/health`; only
      `hasConfig` is read back. */
  function HealthJson(env: Env): (r: Json)
    ensures Get(r, HasConfig) == Some(JBool(ConfigComplete(env)))
  {
    JObj(map[HasConfig := JBool(ConfigComplete(env))])
  }

  const MissingResults: string := "AI 返回格式不正确：缺少 results 数组"

  /** The message of a thrown error: an abort is reported as a timeout. */
  function FailureMessage(f: FetchFailure): string {
    match f
    case Aborted => "AI 请求超时"
    case Failed(message) => message
  }

  /** The 502 message for a refused upstream request, with the body cut to
      2000 characters. */
  function UpstreamError(res: Upstream): string {
    "上游 AI 返回错误（HTTP " + NatToString(res.status) + "）：" + Prefix(res.text, 2000)
  }

  /** `upstreamJson?.choices?.[0]?.message?.content` */
  function FirstChoiceContent(v: Json): Option<Json> {
    var choices := Get(v, Choices);
    if IsArray(choices) && |choices.value.items| > 0 then GetOpt(Get(choices.value.items[0], Message), Content)
    else None
  }

  /** Everything after a successful exchange. */
  function UpstreamReply(model: string, m: map<string, real>, outcome: Result<Upstream, FetchFailure>, parse: Parser): (r: Reply)
    ensures r.status in {200, 500, 502}
    ensures r.status == 200 <==> r.body.Graded?
    ensures outcome.Success? && !Ok(outcome.value) ==> r == Reply(502, ErrorBody(UpstreamError(outcome.value)))
    ensures outcome.Failure? ==> r == Reply(500, ErrorBody(FailureMessage(outcome.error)))
    ensures r.body.Graded? ==> forall k :: 0 <= k < |r.body.results| ==> HasNonSpace(r.body.results[k].questionId)
  {
    match outcome
    case Failure(f) => Reply(500, ErrorBody(FailureMessage(f)))
    case Success(res) =>
      if !Ok(res) then Reply(502, ErrorBody(UpstreamError(res)))
      else
        match parse(res.text)
        case Failure(e) => Reply(500, ErrorBody(e))
        case Success(upstreamJson) =>
          match ParseJsonFromModel(FirstChoiceContent(upstreamJson), parse)
          case Failure(e) => Reply(500, ErrorBody(e))
          case Success(modelJson) =>
            var results := Get(modelJson, Results);
            if !IsRecord(modelJson) || !IsArray(results) then Reply(502, ErrorBody(MissingResults))
            else
              SanitizedIdsNonBlank(results.value.items, m);
              Reply(200, Graded(model, Sanitized(results.value.items, m)))
  }

  /** After an accepted upstream reply: a body or model answer that does not
      parse gives 500 with the parse message; a model answer that is not an
      object with a `results` array gives 502; otherwise 200 with the
      sanitised results. */
  lemma UpstreamReplyAccepted(model: string, m: map<string, real>, res: Upstream, parse: Parser)
    requires Ok(res)
    ensures var r := UpstreamReply(model, m, Success(res), parse);
      parse(res.text).Failure? ==> r == Reply(500, ErrorBody(parse(res.text).error))
    ensures var r := UpstreamReply(model, m, Success(res), parse);
      parse(res.text).Success? ==>
        var answer := ParseJsonFromModel(FirstChoiceContent(parse(res.text).value), parse);
        && (answer.Failure? ==> r == Reply(500, ErrorBody(answer.error)))
        && (answer.Success? && IsRecord(answer.value) && IsArray(Get(answer.value, Results)) ==>
              r == Reply(200, Graded(model, Sanitized(Get(answer.value, Results).value.items, m))))
        && (answer.Success? && !(IsRecord(answer.value) && IsArray(Get(answer.value, Results))) ==>
              r == Reply(502, ErrorBody(MissingResults)))
  {
  }

  /** `POST /api/ai/grade`: the configuration is checked first (500), then
      the items (400); the upstream and model failures give 502, thrown
      errors 500. */
  function GradeReply(env: Env, body: Json, withFormat: Result<Upstream, FetchFailure>,
                      plain: Result<Upstream, FetchFailure>, parse: Parser): (r: Reply)
    ensures r.status in {200, 400, 500, 502}
    ensures r.status == 200 <==> r.body.Graded?
    ensures r.body.Graded? ==> forall k :: 0 <= k < |r.body.results| ==> HasNonSpace(r.body.results[k].questionId)
    ensures !Configured(env, body) ==> r == Reply(500, ErrorBody(NotConfigured))
    ensures Configured(env, body) && (!IsArray(Get(body, Items)) || |Get(body, Items).value.items| == 0)
      ==> r == Reply(400, ErrorBody(ItemsRequired))
    ensures r.status == 400 <==> (Configured(env, body) && (!IsArray(Get(body, Items))
      || |Get(body, Items).value.items| == 0 || MaxScores(Get(body, Items).value.items).Failure?))
  {
    var model := SelectModel(body, EnvValue(env.model));
    if !Configured(env, body) then Reply(500, ErrorBody(NotConfigured))
    else
      var items := Get(body, Items);
      if !IsArray(items) || |items.value.items| == 0 then Reply(400, ErrorBody(ItemsRequired))
      else
        match MaxScores(items.value.items)
        case Failure(e) => Reply(400, ErrorBody(e))
        case Success(m) => UpstreamReply(model, m, Exchange(withFormat, plain).outcome, parse)
  }

  /** The handler, with its two loops. */
  method HandleGrade(env: Env, body: Json, withFormat: Result<Upstream, FetchFailure>,
                     plain: Result<Upstream, FetchFailure>, parse: Parser) returns (reply: Reply)
    ensures reply == GradeReply(env, body, withFormat, plain, parse)
  {
    var baseUrl := EnvValue(env.baseUrl);
    var apiKey := EnvValue(env.apiKey);
    var model := SelectModel(body, EnvValue(env.model));
    if baseUrl == "" || apiKey == "" || model == "" {
      return Reply(500, ErrorBody(NotConfigured));
    }
    var items := Get(body, Items);
    if !IsArray(items) || |items.value.items| == 0 {
      return Reply(400, ErrorBody(ItemsRequired));
    }
    var maxScores := BuildMaxScoreById(items.value.items);
    if maxScores.Failure? {
      return Reply(400, ErrorBody(maxScores.error));
    }
    var upstream := withFormat;
    if upstream.Success? && ShouldRetry(upstream.value) {
      upstream := plain;
    }
    reply := HandleUpstream(model, maxScores.value, upstream, parse);
  }

  /** The handler after the exchange. */
  method HandleUpstream(model: string, maxScoreById: map<string, real>, upstream: Result<Upstream, FetchFailure>,
                        parse: Parser) returns (reply: Reply)
    ensures reply == UpstreamReply(model, maxScoreById, upstream, parse)
  {
    if upstream.Failure? {
      return Reply(500, ErrorBody(FailureMessage(upstream.error)));
    }
    var res := upstream.value;
    if !Ok(res) {
      return Reply(502, ErrorBody(UpstreamError(res)));
    }
    var upstreamJson := parse(res.text);
    if upstreamJson.Failure? {
      return Reply(500, ErrorBody(upstreamJson.error));
    }
    var modelJson := ParseJsonFromModel(FirstChoiceContent(upstreamJson.value), parse);
    if modelJson.Failure? {
      return Reply(500, ErrorBody(modelJson.error));
    }
    var results := Get(modelJson.value, Results);
    if !IsRecord(modelJson.value) || !IsArray(results) {
      return Reply(502, ErrorBody(MissingResults));
    }
    var sanitized := SanitizeResults(results.value.items, maxScoreById);
    return Reply(200, Graded(model, sanitized));
  }
}
