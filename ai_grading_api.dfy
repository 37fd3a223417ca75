/** The client side of AI grading (src/utils/aiGradingApi.ts): how the
    replies of `POST /api/ai/grade` and `GET /api/ai/health` are read. The
    request itself is an input: either the reply (status and raw body text)
    or the message of the error `fetch` threw. */
module AiGradingApi {
  import opened Wrappers
  import opened JsStrings
  import opened JsonValue
  import opened GradeWire
  import AiServer

  /** A reply as the client sees it: the HTTP status and the raw body. */
  datatype HttpReply = HttpReply(status: nat, raw: string)

  /** `Response.ok` */
  predicate Ok(res: HttpReply) {
    200 <= res.status <= 299
  }

  const CannotConnect: string := "无法连接 AI 服务：请先运行 pnpm ai:server，并确认端口为 8787"
  const HealthUnreachable: string := "无法连接 AI 服务：请先运行 pnpm ai:server"
  const BadFormat: string := "AI 服务返回格式不正确"

  /** The body read as JSON; a body that is not JSON reads as `null`. */
  function ParseOrNull(raw: string, parse: AiServer.Parser): Json {
    match parse(raw)
    case Success(v) => v
    case Failure(_) => JNull
  }

  /** The body's `error` when it is an object with a string `error`. */
  function ErrorField(parsed: Json): (r: Option<string>)
    ensures r.Some? <==> IsRecord(parsed) && IsString(Get(parsed, Error))
  {
    var e := Get(parsed, Error);
    if IsRecord(parsed) && IsString(e) then Some(e.value.s) else None
  }

  /** A message naming the HTTP status, as in `AI 服务请求失败（HTTP 502）`. */
  function StatusMessage(prefix: string, status: nat): string {
    prefix + "（HTTP " + NatToString(status) + "）"
  }

  /** The message thrown for a refused grade request: an empty 5xx body means
      the server is not running; otherwise the body's `error`, or one naming
      the status. */
  function GradeFailure(res: HttpReply, parsed: Json): (r: string)
    ensures res.status >= 500 && AllSpace(res.raw) ==> r == CannotConnect
    ensures !(res.status >= 500 && AllSpace(res.raw)) && ErrorField(parsed).Some? ==> r == ErrorField(parsed).value
  {
    TrimEmptyIff(res.raw);
    if res.status >= 500 && Trim(res.raw) == "" then CannotConnect
    else
      match ErrorField(parsed)
      case Some(e) => e
      case None => StatusMessage("AI 服务请求失败", res.status)
  }

  /** `{ model?, results }` */
  datatype GradeResponse = GradeResponse(model: Option<string>, results: seq<GradeEntry>)

  /** `typeof parsed.model === 'string' ? parsed.model : undefined` */
  function ModelOf(parsed: Json): (r: Option<string>)
    ensures r.Some? <==> IsString(Get(parsed, Model))
  {
    var m := Get(parsed, Model);
    if IsString(m) then Some(m.value.s) else None
  }

  /** `requestAiGrades`: a thrown `fetch` error propagates; a refused reply
      fails with `GradeFailure`; an accepted reply must be an object with a
      `results` array, whose usable entries are kept. */
  function GradesOf(fetched: Result<HttpReply, string>, parse: AiServer.Parser): (r: Result<GradeResponse, string>)
    ensures fetched.Failure? ==> r == Failure(fetched.error)
    ensures fetched.Success? && !Ok(fetched.value) ==>
      r == Failure(GradeFailure(fetched.value, ParseOrNull(fetched.value.raw, parse)))
    ensures fetched.Success? && Ok(fetched.value) ==> var parsed := ParseOrNull(fetched.value.raw, parse);
      !(IsRecord(parsed) && IsArray(Get(parsed, Results))) ==> r == Failure(BadFormat)
    ensures r.Success? ==> var parsed := ParseOrNull(fetched.value.raw, parse);
      && Ok(fetched.value) && IsRecord(parsed) && IsArray(Get(parsed, Results))
      && r.value.model == ModelOf(parsed)
      && r.value.results == Kept(Get(parsed, Results).value.items)
  {
    match fetched
    case Failure(e) => Failure(e)
    case Success(res) =>
      var parsed := ParseOrNull(res.raw, parse);
      if !Ok(res) then Failure(GradeFailure(res, parsed))
      else if !IsRecord(parsed) || !IsArray(Get(parsed, Results)) then Failure(BadFormat)
      else Success(GradeResponse(ModelOf(parsed), Kept(Get(parsed, Results).value.items)))
  }

  /** The `for (const item of parsed.results)` loop. */
  method FilterResults(items: seq<Json>) returns (results: seq<GradeEntry>)
    ensures results == Kept(items)
  {
    results := [];
    for i := 0 to |items|
      invariant results == Kept(items[..i])
    {
      var item := items[i];
      assert items[..i + 1][..i] == items[..i];
      if !IsRecord(item) {
        continue;
      }
      if !IsNonEmptyString(Get(item, QuestionId)) {
        continue;
      }
      if !IsFiniteNumber(Get(item, Score)) {
        continue;
      }
      var feedback := if IsString(Get(item, Feedback)) then Some(Get(item, Feedback).value.s) else None;
      results := results + [GradeEntry(Get(item, QuestionId).value.s, Get(item, Score).value.n.value, feedback)];
    }
    assert items[..|items|] == items;
  }

  /** `requestAiGrades` after the request. */
  method RequestAiGrades(fetched: Result<HttpReply, string>, parse: AiServer.Parser) returns (r: Result<GradeResponse, string>)
    ensures r == GradesOf(fetched, parse)
  {
    if fetched.Failure? {
      return Failure(fetched.error);
    }
    var res := fetched.value;
    var parsed := ParseOrNull(res.raw, parse);
    if !Ok(res) {
      return Failure(GradeFailure(res, parsed));
    }
    if !IsRecord(parsed) || !IsArray(Get(parsed, Results)) {
      return Failure(BadFormat);
    }
    var results := FilterResults(Get(parsed, Results).value.items);
    return Success(GradeResponse(ModelOf(parsed), results));
  }

  /** A reply with the server's guarantees (200 exactly for results, error
      statuses otherwise, non-blank result ids) is read back as sent: the
      model and the results on success, the `error` message otherwise. The
      body text is any serialisation of the reply object that `parse` reads
      back (it starts with `{`). */
  lemma ReplyRoundTrip(reply: AiServer.Reply, raw: string, parse: AiServer.Parser)
    requires reply.status in {200, 400, 500, 502}
    requires reply.status == 200 <==> reply.body.Graded?
    requires reply.body.Graded? ==> forall k :: 0 <= k < |reply.body.results| ==> HasNonSpace(reply.body.results[k].questionId)
    requires raw != [] && raw[0] == '{'
    requires parse(raw) == Success(AiServer.ReplyJson(reply.body))
    ensures GradesOf(Success(HttpReply(reply.status, raw)), parse)
      == match reply.body
         case Graded(model, results) => Success(GradeResponse(Some(model), results))
         case ErrorBody(e) => Failure(e)
  {
    assert !AllSpace(raw) by {
      assert !IsSpace(raw[0]);
    }
    var parsed := AiServer.ReplyJson(reply.body);
    match reply.body
    case Graded(model, results) =>
      assert Get(parsed, Results) == Some(JArr(EncodeAll(results)));
      assert Get(parsed, Model) == Some(JStr(model));
      KeptEncodeAll(results);
    case ErrorBody(e) =>
      assert Get(parsed, Error) == Some(JStr(e));
  }

  /** Whatever the grade endpoint replies, the client reports it faithfully. */
  lemma GradeRoundTrip(env: AiServer.Env, body: Json, withFormat: Result<AiServer.Upstream, AiServer.FetchFailure>,
                       plain: Result<AiServer.Upstream, AiServer.FetchFailure>, serverParse: AiServer.Parser,
                       raw: string, parse: AiServer.Parser)
    requires raw != [] && raw[0] == '{'
    requires parse(raw) == Success(AiServer.ReplyJson(AiServer.GradeReply(env, body, withFormat, plain, serverParse).body))
    ensures var reply := AiServer.GradeReply(env, body, withFormat, plain, serverParse);
      GradesOf(Success(HttpReply(reply.status, raw)), parse)
        == match reply.body
           case Graded(model, results) => Success(GradeResponse(Some(model), results))
           case ErrorBody(e) => Failure(e)
  {
    ReplyRoundTrip(AiServer.GradeReply(env, body, withFormat, plain, serverParse), raw, parse);
  }

  /** A refused health check is blamed on a missing server when the body
      mentions a refused connection or a dropped socket, in any letter case. */
  predicate ConnectionRefused(raw: string) {
    Contains(ToLower(raw), "econnrefused") || Contains(ToLower(raw), "socket hang up")
  }

  /** `checkAiHealth` after the request: `Success(hasConfig)`, or the
      message it throws. */
  function HealthOf(fetched: Result<HttpReply, string>, parse: AiServer.Parser): (r: Result<bool, string>)
    ensures fetched.Failure? ==> r == Failure(HealthUnreachable)
    ensures r.Success? <==> fetched.Success? && Ok(fetched.value)
    ensures fetched.Success? && !Ok(fetched.value) && fetched.value.status >= 500 && AllSpace(fetched.value.raw) ==>
      r == Failure(CannotConnect)
    ensures fetched.Success? && !Ok(fetched.value) && ConnectionRefused(fetched.value.raw) ==> r == Failure(CannotConnect)
    ensures fetched.Success? && !Ok(fetched.value) && !(fetched.value.status >= 500 && AllSpace(fetched.value.raw))
            && !ConnectionRefused(fetched.value.raw) ==>
      var e := ErrorField(ParseOrNull(fetched.value.raw, parse));
      && (e.Some? ==> r == Failure(e.value))
      && (e.None? ==> r == Failure(StatusMessage("AI 健康检查失败", fetched.value.status)))
    ensures r == Success(true) <==>
      fetched.Success? && Ok(fetched.value) && Get(ParseOrNull(fetched.value.raw, parse), HasConfig) == Some(JBool(true))
  {
    match fetched
    case Failure(_) => Failure(HealthUnreachable)
    case Success(res) =>
      TrimEmptyIff(res.raw);
      var parsed := ParseOrNull(res.raw, parse);
      if !Ok(res) then
        if res.status >= 500 && Trim(res.raw) == "" then Failure(CannotConnect)
        else if ConnectionRefused(res.raw) then Failure(CannotConnect)
        else
          match ErrorField(parsed)
          case Some(e) => Failure(e)
          case None => Failure(StatusMessage("AI 健康检查失败", res.status))
      else
        var flag := Get(parsed, HasConfig);
        Success(if IsRecord(parsed) && flag.Some? && flag.value.JBool? then flag.value.b else false)
  }

  /** The client's `hasConfig` is the server's. */
  lemma HealthRoundTrip(env: AiServer.Env, raw: string, parse: AiServer.Parser)
    requires parse(raw) == Success(AiServer.HealthJson(env))
    ensures HealthOf(Success(HttpReply(200, raw)), parse) == Success(AiServer.ConfigComplete(env))
  {
  }
}
