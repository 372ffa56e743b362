/** What the `/api/generate-reply` handler promises, proved about the model
    in module Routes. */
module RouteProperties {
  import opened Wrappers
  import opened JsText
  import opened JsValues
  import opened Routes

  // ---------------------------------------------------------------------
  // Validation comes first and stops the request

  /** The body has a string `email` of fewer than ten raw characters. */
  predicate ShortEmail(body: Json) {
    && body.JObject? && "email" in body.fields
    && body.fields["email"].JString? && |body.fields["email"].s| < MinEmailLength
  }

  /** A too-short email is rejected with the schema's custom message whatever
      the tone, the environment and the provider would do; no request is made. */
  lemma ShortEmailRejected(body: Json, env: Env, answer: ProviderAnswer)
    requires ShortEmail(body)
    ensures Prepare(body, env).Err?
    ensures Handle(body, env, answer) == Failure(400, Text(MinLengthMessage))
  {
    assert EmailIssues(body.fields) == [TooSmall("email", MinEmailLength)];
  }

  /** With a valid email, a tone that is absent, not a string or none of the
      seven literals is rejected with status 400 and the schema's default
      message for that issue, even when no API key is configured. */
  lemma InvalidToneRejected(body: Json, env: Env, answer: ProviderAnswer)
    requires body.JObject? && EmailIssues(body.fields) == []
    requires !("tone" in body.fields && body.fields["tone"].JString? && ParseTone(body.fields["tone"].s).Some?)
    ensures Prepare(body, env).Err?
    ensures Handle(body, env, answer) == Failure(400, ZodDefault(ToneIssues(body.fields)[0]))
    ensures "tone" !in body.fields ==>
      Handle(body, env, answer) == Failure(400, ZodDefault(Required("tone")))
    ensures "tone" in body.fields && !body.fields["tone"].JString? ==>
      Handle(body, env, answer) == Failure(400, ZodDefault(InvalidType("tone")))
    ensures "tone" in body.fields && body.fields["tone"].JString? ==>
      Handle(body, env, answer) == Failure(400, ZodDefault(InvalidEnumValue(body.fields["tone"].s)))
  {
  }

  /** A body that is not an object is rejected with status 400. */
  lemma NonObjectRejected(body: Json, env: Env, answer: ProviderAnswer)
    requires !body.JObject?
    ensures Prepare(body, env).Err?
    ensures Handle(body, env, answer) == Failure(400, ZodDefault(NotAnObject))
  {
  }

  /** Status 400 is sent exactly when validation fails, and a failed
      validation always has an issue to report, so the fallback message
      "Invalid request data" is never sent. */
  lemma BadRequestIffInvalid(body: Json, env: Env, answer: ProviderAnswer)
    ensures Handle(body, env, answer).Status() == 400 <==> Validate(body).Err?
    ensures Handle(body, env, answer) != Failure(400, Text(InvalidRequestMessage))
  {
  }

  // ---------------------------------------------------------------------
  // The API key

  /** The key is the first of OPENROUTER_API_KEY, OPENROUTER_KEY and API_KEY
      that is present and non-empty. */
  lemma ApiKeyPrecedence(env: Env)
    ensures IsSet(env, "OPENROUTER_API_KEY") ==> ApiKey(env) == Some(env["OPENROUTER_API_KEY"])
    ensures !IsSet(env, "OPENROUTER_API_KEY") && IsSet(env, "OPENROUTER_KEY") ==>
      ApiKey(env) == Some(env["OPENROUTER_KEY"])
    ensures !IsSet(env, "OPENROUTER_API_KEY") && !IsSet(env, "OPENROUTER_KEY") ==>
      ApiKey(env) == (if IsSet(env, "API_KEY") then Some(env["API_KEY"]) else None)
    ensures ApiKey(env).Some? ==> ApiKey(env).value != ""
  {
    var names := KeyVariables;
    assert names[0] == "OPENROUTER_API_KEY" && names[1] == "OPENROUTER_KEY" && names[2] == "API_KEY";
    if ApiKey(env).Some? {
      var i :| 0 <= i < 3 && FirstSetAt(env, names, i) && ApiKey(env).value == env[names[i]];
    }
  }

  /** A valid request without a configured key is answered with status 500
      and the configuration message; no request is made. */
  lemma MissingKeyRejected(body: Json, env: Env, answer: ProviderAnswer)
    requires Validate(body).Ok?
    requires !IsSet(env, "OPENROUTER_API_KEY") && !IsSet(env, "OPENROUTER_KEY") && !IsSet(env, "API_KEY")
    ensures Prepare(body, env).Err?
    ensures Handle(body, env, answer) == Failure(500, Text(KeyMissingMessage))
  {
    ApiKeyPrecedence(env);
  }

  /** A request is made exactly when the body is valid and a key is set;
      when none is made, the reply does not depend on the provider, and when
      one is made, the reply is the one to the provider's answer. */
  lemma RequestIffValidAndKeyed(body: Json, env: Env, a1: ProviderAnswer, a2: ProviderAnswer)
    ensures Prepare(body, env).Ok? <==> Validate(body).Ok? && ApiKey(env).Some?
    ensures Prepare(body, env).Err? ==> Handle(body, env, a1) == Handle(body, env, a2)
    ensures Prepare(body, env).Ok? ==> Handle(body, env, a1) == Respond(a1)
  {
  }

  // ---------------------------------------------------------------------
  // Tones, instructions and the prompt

  /** Each tone's literal is accepted as that tone. */
  lemma ToneRoundTrip(t: Tone)
    ensures ParseTone(ToneName(t)) == Some(t)
  {
    match t
    case Professional =>
    case Friendly =>
    case Apologetic =>
    case Enthusiastic =>
    case Concise =>
    case Detailed =>
    case Diplomatic =>
  }

  /** The ninth character of an instruction, which already tells the tones apart. */
  function KeyChar(t: Tone): char {
    match t
    case Professional => 'p'
    case Friendly => 'w'
    case Apologetic => 'r'
    case Enthusiastic => ' '
    case Concise => 'b'
    case Detailed => 'c'
    case Diplomatic => 't'
  }

  lemma InstructionKey(t: Tone)
    ensures |Instruction(t)| > 8 && Instruction(t)[8] == KeyChar(t)
  {
    InstructionLong(t);
    InstructionKeyAt(t);
  }

  lemma InstructionLong(t: Tone)
    ensures |Instruction(t)| > 8
  {
    match t
    case Professional =>
    case Friendly =>
    case Apologetic =>
    case Enthusiastic =>
    case Concise =>
    case Detailed =>
    case Diplomatic =>
  }

  lemma InstructionKeyAt(t: Tone)
    requires |Instruction(t)| > 8
    ensures Instruction(t)[8] == KeyChar(t)
  {
    if t.Professional? || t.Friendly? || t.Apologetic? || t.Enthusiastic? {
      FirstToneKeys(t);
    } else {
      OtherToneKeys(t);
    }
  }

  lemma FirstToneKeys(t: Tone)
    requires t.Professional? || t.Friendly? || t.Apologetic? || t.Enthusiastic?
    requires |Instruction(t)| > 8
    ensures Instruction(t)[8] == KeyChar(t)
  {
    match t
    case Professional =>
    case Friendly =>
    case Apologetic =>
    case Enthusiastic =>
  }

  lemma OtherToneKeys(t: Tone)
    requires t.Concise? || t.Detailed? || t.Diplomatic?
    requires |Instruction(t)| > 8
    ensures Instruction(t)[8] == KeyChar(t)
  {
    match t
    case Concise =>
    case Detailed =>
    case Diplomatic =>
  }

  /** The instruction table is injective. */
  lemma InstructionsDistinct(t1: Tone, t2: Tone)
    requires t1 != t2
    ensures Instruction(t1) != Instruction(t2)
  {
    InstructionKey(t1);
    InstructionKey(t2);
    KeyCharInjective(t1, t2);
  }

  lemma KeyCharInjective(t1: Tone, t2: Tone)
    ensures KeyChar(t1) == KeyChar(t2) ==> t1 == t2
  {
  }

  /** Different (tone, email) pairs never give the same prompt: the prompt
      determines both the tone and the email. */
  lemma PromptInjective(t1: Tone, e1: string, t2: Tone, e2: string)
    requires Prompt(t1, e1) == Prompt(t2, e2)
    ensures t1 == t2 && e1 == e2
  {
    PromptKey(t1, e1);
    PromptKey(t2, e2);
    KeyCharInjective(t1, t2);
    assert |e1| == |e2|;
  }

  /** The prompt's ninth character is its instruction's. */
  lemma PromptKey(t: Tone, email: string)
    ensures |Prompt(t, email)| > 8 && Prompt(t, email)[8] == KeyChar(t)
  {
    var p := Prompt(t, email);
    InstructionKey(t);
    assert p[..|Instruction(t)|][8] == p[8];
  }

  /** `s` occurs as a contiguous part of `p`. */
  ghost predicate Contains(p: string, s: string) {
    exists k: nat :: OccursAt(p, k, s)
  }

  predicate OccursAt(p: string, k: nat, s: string) {
    k + |s| <= |p| && p[k..k + |s|] == s
  }

  /** The request sent carries the bearer key, and a user message that starts
      with the instruction of the requested tone and holds the email verbatim. */
  lemma RequestCarriesEmailAndTone(body: Json, env: Env)
    requires Prepare(body, env).Ok?
    ensures var req := Prepare(body, env).value;
      var email := body.fields["email"].s;
      var t := ParseTone(body.fields["tone"].s).value;
      && req.Authorization() == "Bearer " + ApiKey(env).value
      && req.referer == Referer(env)
      && req.UserMessage()[..|Instruction(t)|] == Instruction(t)
      && Contains(req.UserMessage(), email)
  {
    var req := Prepare(body, env).value;
    var r := Validate(body).value;
    ToneRoundTrip(r.tone);
    assert r.tone == ParseTone(body.fields["tone"].s).value;
    var k := EmailOffset(r.tone);
    assert OccursAt(req.UserMessage(), k, r.email);
  }

  // ---------------------------------------------------------------------
  // The Referer header

  /** With REPLIT_DOMAINS set, the Referer is "https://" followed by the
      longest comma-free prefix of its value (all of it if it has no comma);
      otherwise it is http://localhost:5000. */
  lemma RefererShape(env: Env)
    ensures !IsSet(env, "REPLIT_DOMAINS") ==> Referer(env) == "http://localhost:5000"
    ensures IsSet(env, "REPLIT_DOMAINS") ==>
      var d := env["REPLIT_DOMAINS"];
      var r := Referer(env);
      var host := r[8..];
      && |r| >= 8 && r[..8] == "https://"
      && host <= d && ',' !in host
      && (',' !in d ==> host == d)
      && (|host| < |d| ==> d[|host|] == ',')
  {
    if IsSet(env, "REPLIT_DOMAINS") {
      var d := env["REPLIT_DOMAINS"];
      var host := FirstField(d);
      assert Referer(env)[8..] == host;
      assert |host| < |d| ==> d[|host|] in d;
    }
  }

  // ---------------------------------------------------------------------
  // The provider's status

  /** 401 from the provider is the operator's problem: status 500. */
  lemma ProviderUnauthorized(errorBody: Option<Json>)
    ensures Respond(Answered(401, errorBody)) == Failure(500, Text(InvalidKeyMessage))
  {
  }

  /** 429 from the provider is passed on as 429. */
  lemma ProviderRateLimited(errorBody: Option<Json>)
    ensures Respond(Answered(429, errorBody)) == Failure(429, Text(RateLimitMessage))
  {
  }

  /** Any other failing status gives 500 "AI service error: " followed by
      the provider's `error.message` converted to a string, or by "Unknown
      error" when that message is absent or falsy (no `error`, an `error`
      that is not an object or has no `message`, a message that is "", 0,
      false or null) or the body does not parse.  A `null` body, or a
      message whose conversion throws, ends in the catch-all. */
  lemma ProviderOtherError(status: int, errorBody: Option<Json>)
    requires !IsOkStatus(status) && status != 401 && status != 429
    ensures errorBody.None? ==>
      Respond(Answered(status, errorBody)) == Failure(500, Text(ServiceErrorPrefix + UnknownErrorDetail))
    ensures forall m :: errorBody.Some? && HasErrorMessage(errorBody.value, m) ==>
      Respond(Answered(status, errorBody)) == Failure(500, Text(ServiceErrorPrefix + m))
    ensures errorBody == Some(JNull) ==>
      Respond(Answered(status, errorBody)) == Failure(500, Text(InternalErrorMessage))
    ensures errorBody.Some? && !errorBody.value.JNull? && !Truthy(ErrorMessageOf(errorBody.value)) ==>
      Respond(Answered(status, errorBody)) == Failure(500, Text(ServiceErrorPrefix + UnknownErrorDetail))
    ensures errorBody.Some? && Truthy(ErrorMessageOf(errorBody.value)) ==>
      var detail := ToJsString(ErrorMessageOf(errorBody.value).json);
      Respond(Answered(status, errorBody)) ==
        if detail.Some? then Failure(500, Text(ServiceErrorPrefix + detail.value)) else InternalError
    ensures Respond(Answered(status, errorBody)).Status() == 500
  {
  }

  /** Error bodies whose `error` carries no usable message give "Unknown
      error"; a numeric message is printed in decimal. */
  lemma ProviderErrorDetails(status: int)
    requires !IsOkStatus(status) && status != 401 && status != 429
    ensures Respond(Answered(status, Some(ErrorBody(JObject(map["code" := JNumber(502)])))))
      == Failure(500, Text(ServiceErrorPrefix + UnknownErrorDetail))
    ensures Respond(Answered(status, Some(ErrorBody(JNull))))
      == Failure(500, Text(ServiceErrorPrefix + UnknownErrorDetail))
    ensures Respond(Answered(status, Some(ErrorBody(JObject(map["message" := JString("")])))))
      == Failure(500, Text(ServiceErrorPrefix + UnknownErrorDetail))
    ensures Respond(Answered(status, Some(ErrorBody(JObject(map["message" := JNumber(42)])))))
      == Failure(500, Text(ServiceErrorPrefix + "42"))
  {
    ProviderOtherError(status, Some(ErrorBody(JObject(map["message" := JNumber(42)]))));
    assert NatToDecimal(42) == "42" by {
      assert NatToDecimal(4) == "4";
    }
  }

  /** The error body `{ "error": e }`. */
  function ErrorBody(e: Json): Json {
    JObject(map["error" := e])
  }

  /** Once a request is made, every reply of the handler is 200, 429 or 500. */
  lemma ReplyStatuses(body: Json, env: Env, answer: ProviderAnswer)
    requires Prepare(body, env).Ok?
    ensures Handle(body, env, answer).Status() in {200, 429, 500}
  {
  }

  /** A 2xx answer whose body does not parse, is `null`, or holds a truthy
      content that is not a string makes the handler throw, so it ends in
      the catch-all 500 "Internal server error. Please try again.". */
  lemma UnreadableAnswerIsInternal(status: int, body: Option<Json>)
    requires IsOkStatus(status)
    ensures body.None? ==> Respond(Answered(status, body)) == InternalError
    ensures body == Some(JNull) ==> Respond(Answered(status, body)) == InternalError
    ensures (body.Some? && !body.value.JNull? && Truthy(ContentPath(body.value))
             && !ContentPath(body.value).json.JString?) ==>
      Respond(Answered(status, body)) == Failure(500, Text(InternalErrorMessage))
    ensures Respond(Answered(status, body)).Failure? ==>
      Respond(Answered(status, body)) in
        {Failure(500, Text(InternalErrorMessage)), Failure(500, Text(NoReplyMessage))}
  {
  }

  /** A numeric content, an array or an object as content: each is truthy
      and not a string, so `trim` throws. */
  lemma NonStringContentIsInternal(status: int)
    requires IsOkStatus(status)
    ensures Respond(Answered(status, Some(Choices(JArray([ChoiceWith(JNumber(5))]))))) == InternalError
    ensures Respond(Answered(status, Some(Choices(JArray([ChoiceWith(JBool(true))]))))) == InternalError
    ensures Respond(Answered(status, Some(Choices(JArray([ChoiceWith(JArray([]))]))))) == InternalError
  {
    ChoiceContent(JNumber(5));
    ChoiceContent(JBool(true));
    ChoiceContent(JArray([]));
  }

  /** The content of a body whose only choice is `ChoiceWith(c)` is `c`. */
  lemma ChoiceContent(c: Json)
    ensures ContentPath(Choices(JArray([ChoiceWith(c)]))) == Defined(c)
  {
  }

  /** The choice `{ "message": { "content": c } }`. */
  function ChoiceWith(content: Json): Json {
    JObject(map["message" := JObject(map["content" := content])])
  }

  /** The handler answers 429 exactly when the provider did. */
  lemma RateLimitOnlyFromProvider(body: Json, env: Env, answer: ProviderAnswer)
    ensures Handle(body, env, answer).Status() == 429 <==>
      Prepare(body, env).Ok? && answer.Answered? && answer.status == 429
  {
  }

  // ---------------------------------------------------------------------
  // The provider's content

  /** A failed `fetch` ends in the catch-all. */
  lemma NetworkFailureIsInternal()
    ensures Respond(NetworkFailure) == Failure(500, Text(InternalErrorMessage))
  {
  }

  /** A 2xx body other than `null` whose `choices[0].message.content` is
      missing at any step or falsy gives status 500 "Failed to generate
      reply"; a `null` body ends in the catch-all. */
  lemma MissingContentRejected(status: int, data: Json)
    requires IsOkStatus(status)
    ensures !data.JNull? && !Truthy(ContentPath(data)) ==>
      Respond(Answered(status, Some(data))) == Failure(500, Text(NoReplyMessage))
    ensures data.JNull? ==> Respond(Answered(status, Some(data))) == InternalError
  {
  }

  /** Bodies without a usable content: no choices, choices that are `null`
      or a number, an empty list, a first choice that is `null` or has no
      `message`, a `null` message, and a content that is `null`, `false`,
      0 or "". */
  lemma MissingContentShapes()
    ensures !Truthy(ContentPath(JObject(map[])))
    ensures !Truthy(ContentPath(Choices(JNull)))
    ensures !Truthy(ContentPath(Choices(JNumber(1))))
    ensures !Truthy(ContentPath(Choices(JArray([]))))
    ensures !Truthy(ContentPath(Choices(JArray([JNull]))))
    ensures !Truthy(ContentPath(Choices(JArray([JObject(map[])]))))
    ensures !Truthy(ContentPath(Choices(JArray([JObject(map["message" := JNull])]))))
    ensures forall c :: c in {JNull, JBool(false), JNumber(0), JString("")} ==>
      !Truthy(ContentPath(Choices(JArray([JObject(map["message" := JObject(map["content" := c])])]))))
  {
  }

  /** The success body `{ "choices": choices }`. */
  function Choices(choices: Json): Json {
    JObject(map["choices" := choices])
  }

  /** The handler succeeds exactly when a request was made and the provider
      answered 2xx with a parseable body whose first choice's content is a
      non-empty string. */
  lemma SuccessIff(body: Json, env: Env, answer: ProviderAnswer)
    ensures Handle(body, env, answer).Success? <==>
      && Prepare(body, env).Ok?
      && ContentAnswer(answer)
  {
    RequestIffValidAndKeyed(body, env, answer, answer);
    if Prepare(body, env).Ok? {
      AnswerSuccessIff(answer);
    }
  }

  /** The provider answered 2xx with a parseable body whose first choice's
      content is a non-empty string. */
  predicate ContentAnswer(answer: ProviderAnswer) {
      && answer.Answered? && IsOkStatus(answer.status) && answer.body.Some?
      && !answer.body.value.JNull?
      && var c := ContentPath(answer.body.value);
      && c.Defined? && c.json.JString? && c.json.s != ""
  }

  lemma AnswerSuccessIff(answer: ProviderAnswer)
    ensures Respond(answer).Success? <==> ContentAnswer(answer)
  {
  }

  /** On success the reply is the content without its surrounding
      whitespace; `words` counts its words (1 when it is empty); `characters`
      is the length of the untrimmed content, which equals the reply's length
      exactly when the content has no whitespace at its ends. */
  lemma SuccessStats(status: int, data: Json, content: string)
    requires IsOkStatus(status)
    requires !data.JNull? && ContentPath(data) == Defined(JString(content)) && content != ""
    ensures var r := Respond(Answered(status, Some(data)));
      && r.Success?
      && r.reply == Trim(content) && NoEdgeWs(r.reply)
      && r.words >= 1 && r.words == (if r.reply == [] then 1 else Runs(r.reply))
      && r.characters == |content| >= |r.reply|
      && (r.characters == |r.reply| <==> NoEdgeWs(content))
  {
  }

  // ---------------------------------------------------------------------
  // A worked example

  const ExampleEmail := "Hi Sarah, can we meet Tuesday?"
  const ExampleReply := "Sure, Tuesday works. See you then."

  /** The concise tone and a provider that answers with a six-word reply
      without surrounding whitespace: the reply is that text, with six words
      and 34 characters. */
  lemma ExampleExchange(env: Env)
    requires IsSet(env, "OPENROUTER_API_KEY")
    ensures Handle(ExampleBody(), env, Answered(200, Some(ExampleAnswer()))) == Success(ExampleReply, 6, 34)
  {
    var s := ExampleReply;
    assert Prepare(ExampleBody(), env).Ok? by {
      assert ParseTone("concise") == Some(Concise);
      assert Validate(ExampleBody()).Ok?;
      ApiKeyPrecedence(env);
    }
    assert GeneratedContent(ExampleAnswer()) == Some(Defined(JString(s)));
    assert NoEdgeWs(s) && Runs(s) == 6 by {
      ExampleWords();
      SplitCountsRuns(s);
    }
    TrimKeeps(s);
    SuccessStats(200, ExampleAnswer(), s);
    RequestIffValidAndKeyed(ExampleBody(), env, Answered(200, Some(ExampleAnswer())), NetworkFailure);
  }

  function ExampleBody(): Json {
    JObject(map["email" := JString(ExampleEmail), "tone" := JString("concise")])
  }

  /** `{"choices": [{"message": {"role": "assistant", "content": ExampleReply}}]}` */
  function ExampleAnswer(): Json {
    var message := JObject(map["role" := JString("assistant"), "content" := JString(ExampleReply)]);
    JObject(map["choices" := JArray([JObject(map["message" := message])])])
  }

  const ExampleWordList := ["Sure,", "Tuesday", "works.", "See", "you", "then."]

  lemma ExampleWords()
    ensures NoEdgeWs(ExampleReply) && |SplitWs(ExampleReply)| == 6
  {
    ExampleJoin();
    ExampleAreWords();
    SplitJoin(ExampleWordList);
  }

  lemma ExampleAreWords()
    ensures AreWords(ExampleWordList)
  {
    var ws := ExampleWordList;
    forall k | 0 <= k < |ws| ensures ws[k] != [] && NoWs(ws[k]) {
      VisibleNoWs(ws[k]);
    }
  }

  /** Printable ASCII other than the space. */
  predicate Visible(w: string) {
    forall i :: 0 <= i < |w| ==> '!' <= w[i] <= '~'
  }

  lemma VisibleNoWs(w: string)
    requires Visible(w)
    ensures NoWs(w)
  {
  }

  /** The example reply is its six words joined by single spaces. */
  lemma ExampleJoin()
    ensures JoinWords(ExampleWordList) == ExampleReply
  {
    var ws := ExampleWordList;
    JoinUnfold(ws, 0);
    JoinUnfold(ws, 1);
    JoinUnfold(ws, 2);
    JoinUnfold(ws, 3);
    JoinUnfold(ws, 4);
    assert ws[0..] == ws && ws[5..] == [ws[5]];
    ExampleSpelling();
  }

  lemma ExampleSpelling()
    ensures "Sure," + " " + ("Tuesday" + " " + ("works." + " " + ("See" + " " + ("you" + " " + "then.")))) == ExampleReply
  {
  }

  lemma JoinUnfold(ws: seq<string>, k: nat)
    requires k + 1 < |ws|
    ensures JoinWords(ws[k..]) == ws[k] + " " + JoinWords(ws[k + 1..])
  {
    assert ws[k..][1..] == ws[k + 1..];
  }
}
