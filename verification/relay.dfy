/** The relay server's decision logic: the three request handlers with the HTTP
    and fetch calls taken out. What the upstream provider answered is an input
    (`Upstream`); what the handler sends back is the output (`Reply`), a status
    and a JSON body of one of a few fixed shapes.
 */
module Relay {
  import opened Json
  import opened Text

  /** The inference model every real request is sent to and reported as. */
  const ModelId := "stabilityai/stable-diffusion-2"
  /** The model name the offline mock endpoint reports. */
  const MockModelId := "mock-model"
  const SvgDataPrefix := "data:image/svg+xml;base64,"

  const PromptRequired := "Prompt is required"
  const TokenMissing := "HF_TOKEN not configured"
  const ModelLoading := "Model is loading"
  const InvalidToken := "Invalid token"
  const RateLimited := "Rate limit exceeded"
  const ApiError := "API error"
  const UnexpectedResponse := "Unexpected response"
  const UnexpectedFormat := "Unexpected response format"
  const InternalError := "Internal server error"
  /** The TypeError message of the JavaScript engine for reading `name` off `null`. */
  const NullNameError := "Cannot read properties of null (reading 'name')"

  /** The library calls the handlers make, taken as given functions:
      `base64` is `Buffer.toString("base64")` (section 4 of RFC 4648),
      `text` is `Response.text()` (UTF-8 decoding), `utf8` is `Buffer.from(string)`,
      `parse` is `JSON.parse`, and `convert` is the string conversion of a
      template literal. */
  datatype Library = Library(
    base64: seq<byte> -> string,
    text: seq<byte> -> string,
    utf8: string -> seq<byte>,
    parse: string -> Parse,
    convert: Conversion)

  /** What an outbound fetch produced: an exception (network failure, or a body
      that could not be read), or a response with status, content type and body. */
  datatype Upstream =
    | Thrown(message: string)
    | Answered(status: int, contentType: Option<string>, body: seq<byte>)

  /** The `details` of an error body: text as received, or the JSON it parsed to. */
  datatype Detail = Raw(text: string) | Structured(json: Json)

  /** The JSON body of a reply. `retry` stands for a `retry: true` member, which
      is either present with that value or absent. */
  datatype Body =
    | Image(output: string, model: string, prompt: Json)
    | MockImage(output: string, message: string, model: string)
    | Failure(error: string, retry: bool, details: Option<Detail>)
  {
    predicate HasOutput() { Image? || MockImage? }
    predicate HasError() { Failure? }

    /** The body as `res.json` serialises it (members in source order). */
    function ToJson(): (j: Json)
      ensures j.JObject? && |j.members| > 0
      ensures j.members[0].0 == (if HasError() then "error" else "output")
      ensures forall i :: 1 <= i < |j.members| ==> j.members[i].0 != "output" && j.members[i].0 != "error"
    {
      match this
      case Image(output, model, prompt) =>
        JObject([("output", JString(output)), ("model", JString(model)), ("prompt", prompt)])
      case MockImage(output, message, model) =>
        JObject([("output", JString(output)), ("message", JString(message)), ("model", JString(model))])
      case Failure(error, retry, details) =>
        JObject([("error", JString(error))]
                + (if retry then [("retry", JBool(true))] else [])
                + match details
                  case None => []
                  case Some(Raw(t)) => [("details", JString(t))]
                  case Some(Structured(d)) => [("details", d)])
    }
  }

  /** Reading the serialised body back gives what was written: the output of an
      output body, and the error (with no output at all) of an error body. */
  lemma ToJsonReadsBack(b: Body)
    ensures b.HasOutput() ==> Property(b.ToJson(), "output") == Some(JString(b.output))
    ensures b.HasError() ==> Property(b.ToJson(), "error") == Some(JString(b.error))
    ensures b.HasError() ==> Property(b.ToJson(), "output") == None
  {
    var m := b.ToJson().members;
    LookupSingle(m, m[0].0, 0);
  }

  datatype Reply = Reply(status: int, body: Body)

  /** The request the relay sends to the provider: body `{inputs}`, the bearer
      credential and the header that turns the provider's cache off. */
  datatype Outbound = Outbound(inputs: Json, bearer: string, useCache: bool)

  /** `response.ok`. */
  predicate IsOk(status: int) { 200 <= status <= 299 }

  /** `process.env.HF_TOKEN` is set to a non-empty string. */
  predicate Configured(token: Option<string>) { token.Some? && token.value != [] }

  /** `contentType && contentType.startsWith("image/")`. */
  predicate IsImageType(contentType: Option<string>) {
    contentType.Some? && StartsWith(contentType.value, "image/")
  }

  /** The data URI of an image body, `data:<type>;base64,<payload>`. */
  function DataUri(contentType: string, payload: string): (r: string)
    ensures |r| == |contentType| + |payload| + 13
    ensures StartsWith(contentType, "image/") ==> StartsWith(r, "data:image/")
    ensures r[|r| - |payload|..] == payload
  {
    "data:" + contentType + ";base64," + payload
  }

  function Fail(status: int, error: string): Reply {
    Reply(status, Failure(error, false, None))
  }

  /** The upstream call `/transform` makes, if it makes one: none for a falsy
      prompt or a missing credential, otherwise one uncached call carrying the
      prompt unchanged. */
  function Request(prompt: Option<Json>, token: Option<string>): (r: Option<Outbound>)
    ensures r.Some? <==> !Falsy(prompt) && Configured(token)
    ensures r.Some? ==> r.value.inputs == prompt.value && r.value.bearer == token.value && !r.value.useCache
  {
    if Falsy(prompt) || !Configured(token) then None
    else Some(Outbound(prompt.value, token.value, false))
  }

  /** The reply of `/transform` once the upstream call was made with `prompt`. */
  function Normalise(prompt: Json, upstream: Upstream, lib: Library): (r: Reply)
    ensures upstream.Thrown? ==>
              r == Reply(500, Failure(InternalError, false, Some(Raw(upstream.message))))
    ensures upstream.Answered? && upstream.status == 503 ==>
              r == Reply(503, Failure(ModelLoading, true, None))
    ensures upstream.Answered? && upstream.status == 401 ==> r == Fail(401, InvalidToken)
    ensures upstream.Answered? && upstream.status == 429 ==> r == Fail(429, RateLimited)
    ensures upstream.Answered? && !IsOk(upstream.status) && upstream.status !in {401, 429, 503} ==>
              r == Reply(upstream.status, Failure(ApiError, false, Some(Raw(lib.text(upstream.body)))))
    ensures upstream.Answered? && IsOk(upstream.status) && IsImageType(upstream.contentType) ==>
              r == Reply(200, Image(DataUri(upstream.contentType.value, lib.base64(upstream.body)), ModelId, prompt))
    ensures upstream.Answered? && IsOk(upstream.status) && !IsImageType(upstream.contentType) ==>
              var text := lib.text(upstream.body);
              r.status == 500 && r.body.Failure? && !r.body.retry
              && (lib.parse(text).Parsed? ==>
                    r.body == Failure(UnexpectedResponse, false, Some(Structured(lib.parse(text).value))))
              && (lib.parse(text).SyntaxError? ==>
                    r.body == Failure(UnexpectedFormat, false, Some(Raw(text))))
  {
    match upstream
    case Thrown(message) => Reply(500, Failure(InternalError, false, Some(Raw(message))))
    case Answered(status, contentType, body) =>
      if !IsOk(status) then
        var errorText := lib.text(body);
        if status == 503 then Reply(503, Failure(ModelLoading, true, None))
        else if status == 401 then Fail(401, InvalidToken)
        else if status == 429 then Fail(429, RateLimited)
        else Reply(status, Failure(ApiError, false, Some(Raw(errorText))))
      else if IsImageType(contentType) then
        Reply(200, Image(DataUri(contentType.value, lib.base64(body)), ModelId, prompt))
      else
        var text := lib.text(body);
        match lib.parse(text)
        case Parsed(json) => Reply(500, Failure(UnexpectedResponse, false, Some(Structured(json))))
        case SyntaxError(_) => Reply(500, Failure(UnexpectedFormat, false, Some(Raw(text))))
  }

  /** `POST /transform`: the prompt check comes first, then the credential check,
      and only then is the provider called. */
  function Transform(prompt: Option<Json>, token: Option<string>, upstream: Upstream, lib: Library): (r: Reply)
    ensures r.body.HasOutput() != r.body.HasError()
    ensures !r.body.MockImage?
    ensures r.body.Failure? ==> r.body.error != []
    ensures Falsy(prompt) ==> r == Fail(400, PromptRequired)
    ensures !Falsy(prompt) && !Configured(token) ==> r == Fail(500, TokenMissing)
    ensures Request(prompt, token).Some? ==> r == Normalise(Request(prompt, token).value.inputs, upstream, lib)
  {
    if Falsy(prompt) then Fail(400, PromptRequired)
    else if !Configured(token) then Fail(500, TokenMissing)
    else Normalise(prompt.value, upstream, lib)
  }

  /** A request turned away before the upstream call gets the same reply whatever
      the provider would have answered: nothing of the provider is consulted. */
  lemma RejectedWithoutUpstream(prompt: Option<Json>, token: Option<string>, u1: Upstream, u2: Upstream, lib: Library)
    requires Request(prompt, token).None?
    ensures Transform(prompt, token, u1, lib) == Transform(prompt, token, u2, lib)
    ensures Transform(prompt, token, u1, lib).body.Failure?
  {
  }

  /** The relay checks only that the prompt is truthy: any non-empty string is
      forwarded, white space alone included, unlike the component's trim check. */
  lemma BlankPromptReachesProvider(text: string, token: Option<string>)
    requires text != [] && Configured(token)
    ensures Request(Some(JString(text)), token) == Some(Outbound(JString(text), token.value, false))
  {
  }

  /** The relay answers with a 2xx status exactly when it carries an image. */
  lemma SuccessIffOkStatus(prompt: Option<Json>, token: Option<string>, upstream: Upstream, lib: Library)
    ensures var r := Transform(prompt, token, upstream, lib);
            IsOk(r.status) <==> r.body.Image?
  {
  }

  /** `retry: true` appears exactly on replies with status 503, and a 503 reply
      means the provider itself answered 503. */
  lemma RetryIffLoading(prompt: Option<Json>, token: Option<string>, upstream: Upstream, lib: Library)
    ensures var r := Transform(prompt, token, upstream, lib);
            (r.body.Failure? && r.body.retry) <==> r.status == 503
    ensures var r := Transform(prompt, token, upstream, lib);
            r.status == 503 ==> upstream.Answered? && upstream.status == 503
  {
  }

  /** Every image the relay returns is a `data:image/...;base64,` URI whose media
      type is the provider's content type. */
  lemma ImageIsDataUri(prompt: Option<Json>, token: Option<string>, upstream: Upstream, lib: Library)
    ensures var r := Transform(prompt, token, upstream, lib);
            r.body.Image? ==>
              && StartsWith(r.body.output, "data:image/")
              && upstream.Answered? && upstream.contentType.Some?
              && r.body.output == "data:" + upstream.contentType.value + ";base64," + lib.base64(upstream.body)
              && r.body.model == ModelId
              && Some(r.body.prompt) == prompt
  {
  }

  /** The reply of `/test-token`, apart from the status. */
  datatype TokenBody = Valid(user: Option<Json>) | Invalid(error: string)
  datatype TokenReply = TokenReply(status: int, body: TokenBody)

  /** `GET /test-token`, given what the provider's identity endpoint did. A 2xx
      answer is read as JSON and its `name` reported; reading it can throw (the
      body is not JSON, or it is `null`), which ends in the 500 branch. */
  function TestToken(whoami: Upstream, lib: Library): (r: TokenReply)
    ensures r.body.Valid? <==> r.status == 200
    ensures whoami.Thrown? ==> r == TokenReply(500, Invalid(whoami.message))
    ensures whoami.Answered? && !IsOk(whoami.status) ==> r == TokenReply(401, Invalid(InvalidToken))
    ensures whoami.Answered? && IsOk(whoami.status) ==>
              var parsed := lib.parse(lib.text(whoami.body));
              && (parsed.Parsed? && !parsed.value.JNull? ==>
                    r == TokenReply(200, Valid(Property(parsed.value, "name"))))
              && (parsed.SyntaxError? ==> r == TokenReply(500, Invalid(parsed.message)))
              && (parsed.Parsed? && parsed.value.JNull? ==> r == TokenReply(500, Invalid(NullNameError)))
  {
    match whoami
    case Thrown(message) => TokenReply(500, Invalid(message))
    case Answered(status, _, body) =>
      if !IsOk(status) then TokenReply(401, Invalid(InvalidToken))
      else
        match lib.parse(lib.text(body))
        case SyntaxError(message) => TokenReply(500, Invalid(message))
        case Parsed(data) =>
          if data.JNull? then TokenReply(500, Invalid(NullNameError))
          else TokenReply(200, Valid(Property(data, "name")))
  }

  /** `/test-token` answers one of three statuses, and reports a valid token only
      when the identity endpoint itself answered 2xx with a non-null JSON body. */
  lemma TokenValidOnlyOnProviderOk(whoami: Upstream, lib: Library)
    ensures TestToken(whoami, lib).status in {200, 401, 500}
    ensures TestToken(whoami, lib).body.Valid? ==>
              && whoami.Answered? && IsOk(whoami.status)
              && var parsed := lib.parse(lib.text(whoami.body));
                 parsed.Parsed? && !parsed.value.JNull?
  {
  }

  /** The mock endpoint's palette of fill colours (hex RGB). */
  const Palette: seq<string> := ["FF0000", "00FF00", "0000FF", "FFFF00", "FF00FF", "00FFFF"]

  /** `Math.floor(random * colors.length)` for `random` drawn from [0, 1). */
  function ColorIndex(random: real): (i: nat)
    requires 0.0 <= random < 1.0
    ensures i < |Palette|
    ensures i as real <= random * 6.0 < i as real + 1.0
  {
    (random * (|Palette| as real)).Floor
  }

  /** The SVG document of the mock endpoint, around its fill colour. */
  const CanvasHead: string :=
    "<svg width=\"100\" height=\"100\" xmlns=\"http://www.w3.org/2000/svg\">\n"
    + "    <rect width=\"100\" height=\"100\" fill=\"#"
  const CanvasTail: string :=
    "\"/>\n"
    + "    <text x=\"50\" y=\"50\" font-family=\"Arial\" font-size=\"8\" fill=\"white\" "
    + "text-anchor=\"middle\" dy=\".3em\">Generated</text>\n"
    + "  </svg>"

  /** The mock image: a 100 by 100 square of one colour labelled "Generated". */
  function Canvas(color: string): (r: string)
    ensures |r| == |CanvasHead| + |color| + |CanvasTail|
    ensures r[|CanvasHead|..|CanvasHead| + |color|] == color
  {
    CanvasHead + color + CanvasTail
  }

  /** What an asynchronous handler ends with: a reply sent, or a rejection
      thrown outside any `try` block, with no reply from the handler. */
  datatype Handled = Sent(reply: Reply) | Rejected

  /** `POST /mock-transform`, with the random draw `random` in [0, 1) as input and
      the simulated delay left out. */
  function MockTransform(prompt: Option<Json>, random: real, lib: Library): (r: Handled)
    requires 0.0 <= random < 1.0
    ensures r.Sent? ==> r.reply.body.HasOutput() != r.reply.body.HasError()
    ensures Falsy(prompt) ==> r == Sent(Fail(400, PromptRequired))
    ensures !Falsy(prompt) && ToText(prompt.value, lib.convert).None? ==> r == Rejected
    ensures !Falsy(prompt) && ToText(prompt.value, lib.convert).Some? ==>
              && r.Sent? && r.reply.status == 200 && r.reply.body.MockImage?
              && StartsWith(r.reply.body.output, SvgDataPrefix)
              && r.reply.body.output == SvgDataPrefix + lib.base64(lib.utf8(Canvas(Palette[ColorIndex(random)])))
              && r.reply.body.message == "Mock image generated for: \"" + ToText(prompt.value, lib.convert).value + "\""
              && r.reply.body.model == MockModelId
  {
    if Falsy(prompt) then Sent(Fail(400, PromptRequired))
    else
      var color := Palette[ColorIndex(random)];
      var output := SvgDataPrefix + lib.base64(lib.utf8(Canvas(color)));
      assert output[..|SvgDataPrefix|] == SvgDataPrefix;
      match ToText(prompt.value, lib.convert)
      case None => Rejected
      case Some(text) =>
        Sent(Reply(200, MockImage(output, "Mock image generated for: \"" + text + "\"", MockModelId)))
  }

  /** Which colour is drawn is the only thing the random input decides: whether
      a reply is sent, and its message, do not depend on it. */
  lemma MockRandomOnlyPicksColour(prompt: Option<Json>, r1: real, r2: real, lib: Library)
    requires 0.0 <= r1 < 1.0 && 0.0 <= r2 < 1.0
    ensures MockTransform(prompt, r1, lib).Sent? <==> MockTransform(prompt, r2, lib).Sent?
    ensures MockTransform(prompt, r1, lib).Sent? && !Falsy(prompt) ==>
              MockTransform(prompt, r1, lib).reply.body.message == MockTransform(prompt, r2, lib).reply.body.message
    ensures ColorIndex(r1) == ColorIndex(r2) ==> MockTransform(prompt, r1, lib) == MockTransform(prompt, r2, lib)
  {
  }
}
