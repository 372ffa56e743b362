/** The `POST /api/generate-reply` handler of server/routes.ts as a pure
    function of the request body, the process environment and the provider's
    answer.  The outbound `fetch` is not performed: `Prepare` computes the
    request the handler would send (or the early reply that stops it before
    any request), and `Respond` turns the provider's answer into the reply. */
module Routes {
  import opened Wrappers
  import opened JsText
  import opened JsValues

  // ---------------------------------------------------------------------
  // Tones and their instructions

  datatype Tone =
    | Professional | Friendly | Apologetic | Enthusiastic | Concise | Detailed | Diplomatic

  /** The literal each tone has in the request schema's enum. */
  function ToneName(t: Tone): string {
    match t
    case Professional => "professional"
    case Friendly => "friendly"
    case Apologetic => "apologetic"
    case Enthusiastic => "enthusiastic"
    case Concise => "concise"
    case Detailed => "detailed"
    case Diplomatic => "diplomatic"
  }

  /** The enum check: exactly one of the seven literals, compared exactly. */
  function ParseTone(s: string): (r: Option<Tone>)
    ensures r.Some? ==> ToneName(r.value) == s
    ensures r.None? ==> forall t: Tone :: ToneName(t) != s
  {
    if s == "professional" then Some(Professional)
    else if s == "friendly" then Some(Friendly)
    else if s == "apologetic" then Some(Apologetic)
    else if s == "enthusiastic" then Some(Enthusiastic)
    else if s == "concise" then Some(Concise)
    else if s == "detailed" then Some(Detailed)
    else if s == "diplomatic" then Some(Diplomatic)
    else None
  }

  /** The tone instruction table. */
  function Instruction(t: Tone): string {
    match t
    case Professional =>
      "Write a professional, "
      + "formal reply that maintains business etiquette and clear communication."
    case Friendly =>
      "Write a warm, "
      + "friendly reply that sounds approachable and personable while remaining appropriate."
    case Apologetic =>
      "Write a reply "
      + "that expresses regret, understanding, or takes responsibility where appropriate."
    case Enthusiastic =>
      "Write an energetic, "
      + "positive reply that shows excitement and engagement."
    case Concise =>
      "Write a brief, "
      + "to-the-point reply that covers all necessary information efficiently."
    case Detailed =>
      "Write a comprehensive, "
      + "thorough reply that provides detailed information and context."
    case Diplomatic =>
      "Write a tactful, "
      + "careful reply that navigates sensitive topics with consideration."
  }

  const ReplyDirective := "\n\nPlease write a reply to this email:\n\n"

  const FormatInstructions :=
    "\n\nInstructions:\n"
    + "- Keep the reply natural and human-like\n"
    + "- Match the appropriate tone and formality level\n"
    + "- Include a proper greeting and closing\n"
    + "- Address the main points from the original email\n"
    + "- Make it ready to send (no placeholders or brackets)"

  /** Where the email starts in the prompt for tone `t`. */
  function EmailOffset(t: Tone): nat {
    |Instruction(t)| + |ReplyDirective|
  }

  /** The user message: the tone's instruction, the directive, the email
      verbatim, then the fixed formatting instructions. */
  function Prompt(t: Tone, email: string): (p: string)
    ensures |p| == EmailOffset(t) + |email| + |FormatInstructions|
    ensures p[..|Instruction(t)|] == Instruction(t)
    ensures p[|Instruction(t)|..EmailOffset(t)] == ReplyDirective
    ensures p[EmailOffset(t)..EmailOffset(t) + |email|] == email
    ensures p[EmailOffset(t) + |email|..] == FormatInstructions
  {
    var p := Instruction(t) + ReplyDirective + email + FormatInstructions;
    assert p[|Instruction(t)|..EmailOffset(t)] == ReplyDirective;
    assert p[EmailOffset(t)..EmailOffset(t) + |email|] == email;
    p
  }

  // ---------------------------------------------------------------------
  // Validation of the request body

  const MinEmailLength := 10

  /** The issues the request schema reports, in the order it reports them. */
  datatype ZodIssue =
    | NotAnObject                          // the body itself is not an object
    | Required(field: string)              // the field is absent
    | InvalidType(field: string)           // the field is not a string
    | TooSmall(field: string, minimum: nat) // the string is too short
    | InvalidEnumValue(received: string)   // the tone is none of the seven literals

  datatype ReplyRequest = ReplyRequest(email: string, tone: Tone)

  /** Issues of `email`: absent, not a string, or fewer than ten characters
      (the raw length; nothing is trimmed). */
  function EmailIssues(fields: map<string, Json>): (issues: seq<ZodIssue>)
    ensures |issues| <= 1
    ensures issues == [] <==>
      "email" in fields && fields["email"].JString? && |fields["email"].s| >= MinEmailLength
    ensures "email" !in fields ==> issues == [Required("email")]
    ensures "email" in fields && !fields["email"].JString? ==> issues == [InvalidType("email")]
    ensures "email" in fields && fields["email"].JString? && |fields["email"].s| < MinEmailLength ==>
      issues == [TooSmall("email", MinEmailLength)]
  {
    if "email" !in fields then [Required("email")]
    else match fields["email"]
      case JString(s) => if |s| < MinEmailLength then [TooSmall("email", MinEmailLength)] else []
      case _ => [InvalidType("email")]
  }

  /** Issues of `tone`: absent, not a string, or not one of the seven literals. */
  function ToneIssues(fields: map<string, Json>): (issues: seq<ZodIssue>)
    ensures |issues| <= 1
    ensures issues == [] <==>
      "tone" in fields && fields["tone"].JString? && ParseTone(fields["tone"].s).Some?
    ensures "tone" !in fields ==> issues == [Required("tone")]
    ensures "tone" in fields && !fields["tone"].JString? ==> issues == [InvalidType("tone")]
    ensures "tone" in fields && fields["tone"].JString? && ParseTone(fields["tone"].s).None? ==>
      issues == [InvalidEnumValue(fields["tone"].s)]
  {
    if "tone" !in fields then [Required("tone")]
    else match fields["tone"]
      case JString(s) => if ParseTone(s).None? then [InvalidEnumValue(s)] else []
      case _ => [InvalidType("tone")]
  }

  /** `generateReplySchema.parse(req.body)`: the validated request, or the
      issues found, those of `email` before those of `tone`. */
  function Validate(body: Json): (r: Result<ReplyRequest, seq<ZodIssue>>)
    ensures r.Ok? <==>
      && body.JObject?
      && EmailIssues(body.fields) == []
      && ToneIssues(body.fields) == []
    ensures r.Ok? ==>
      && r.value.email == body.fields["email"].s
      && ToneName(r.value.tone) == body.fields["tone"].s
    ensures r.Err? ==> r.error != []
  {
    if !body.JObject? then Err([NotAnObject])
    else
      var issues := EmailIssues(body.fields) + ToneIssues(body.fields);
      if issues != [] then Err(issues)
      else Ok(ReplyRequest(body.fields["email"].s, ParseTone(body.fields["tone"].s).value))
  }

  // ---------------------------------------------------------------------
  // Replies

  const MinLengthMessage := "Email content must be at least 10 characters"
  const InvalidRequestMessage := "Invalid request data"
  const KeyMissingMessage := "API key not configured. Please set OPENROUTER_API_KEY environment variable."
  const InvalidKeyMessage := "Invalid API key. Please check your OpenRouter configuration."
  const RateLimitMessage := "Rate limit exceeded. Please try again in a moment."
  const ServiceErrorPrefix := "AI service error: "
  const UnknownErrorDetail := "Unknown error"
  const NoReplyMessage := "Failed to generate reply. Please try again."
  const InternalErrorMessage := "Internal server error. Please try again."

  /** The `message` of an error reply: a fixed text, or the validation
      library's own default message for an issue, which is not modelled. */
  datatype Message = Text(text: string) | ZodDefault(issue: ZodIssue)

  /** What the handler sends: status 200 with the reply and its statistics,
      or an error status with `{ message }`. */
  datatype Response =
    | Success(reply: string, words: nat, characters: nat)
    | Failure(status: nat, message: Message)
  {
    function Status(): nat {
      if Success? then 200 else status
    }
  }

  /** The message of an issue: the schema gives a custom one only for the
      minimum length of `email`. */
  function IssueMessage(issue: ZodIssue): (r: Message)
    ensures r.Text? <==> issue.TooSmall?
    ensures r.Text? ==> r.text == MinLengthMessage
    ensures r.ZodDefault? ==> r.issue == issue
  {
    if issue.TooSmall? then Text(MinLengthMessage) else ZodDefault(issue)
  }

  /** `error.errors[0]?.message || "Invalid request data"`. */
  function ValidationMessage(issues: seq<ZodIssue>): (r: Message)
    ensures r == Text(InvalidRequestMessage) <==> issues == []
    ensures issues != [] ==> (r.Text? <==> issues[0].TooSmall?)
    ensures issues != [] && !issues[0].TooSmall? ==> r == ZodDefault(issues[0])
  {
    if issues == [] then Text(InvalidRequestMessage) else IssueMessage(issues[0])
  }

  const InternalError := Failure(500, Text(InternalErrorMessage))

  // ---------------------------------------------------------------------
  // Environment: the API key and the Referer header

  /** `process.env`: names bound to strings. */
  type Env = map<string, string>

  /** `process.env[name]` is truthy: present and not empty. */
  predicate IsSet(env: Env, name: string) {
    name in env && env[name] != ""
  }

  const KeyVariables := ["OPENROUTER_API_KEY", "OPENROUTER_KEY", "API_KEY"]

  /** `env[names[0]] || env[names[1]] || ...`: the first value that is set,
      None when all are absent or empty. */
  function FirstSet(env: Env, names: seq<string>): (r: Option<string>)
    ensures r.None? <==> forall i :: 0 <= i < |names| ==> !IsSet(env, names[i])
    ensures r.Some? ==> exists i :: 0 <= i < |names| && FirstSetAt(env, names, i) && r.value == env[names[i]]
  {
    if names == [] then None
    else if IsSet(env, names[0]) then
      assert FirstSetAt(env, names, 0);
      Some(env[names[0]])
    else
      var r := FirstSet(env, names[1..]);
      assert r.Some? ==> exists i :: 0 <= i < |names| && FirstSetAt(env, names, i) && r.value == env[names[i]] by {
        if r.Some? {
          var k :| 0 <= k < |names| - 1 && FirstSetAt(env, names[1..], k) && r.value == env[names[1..][k]];
          assert FirstSetAt(env, names, k + 1);
        }
      }
      r
  }

  /** `names[i]` is set and no name before it is. */
  predicate FirstSetAt(env: Env, names: seq<string>, i: nat) {
    && i < |names|
    && IsSet(env, names[i])
    && forall k :: 0 <= k < i ==> !IsSet(env, names[k])
  }

  /** The API key: the first of the three variables that is set. */
  function ApiKey(env: Env): (r: Option<string>)
    ensures r.None? <==> !IsSet(env, "OPENROUTER_API_KEY") && !IsSet(env, "OPENROUTER_KEY") && !IsSet(env, "API_KEY")
    ensures r.Some? ==> r.value != ""
  {
    var names := KeyVariables;
    assert names[0] == "OPENROUTER_API_KEY" && names[1] == "OPENROUTER_KEY" && names[2] == "API_KEY";
    assert FirstSet(env, names).Some? ==> FirstSet(env, names).value != "" by {
      if FirstSet(env, names).Some? {
        var i :| 0 <= i < 3 && FirstSetAt(env, names, i) && FirstSet(env, names).value == env[names[i]];
      }
    }
    FirstSet(env, KeyVariables)
  }

  /** `s.split(',')[0]`: the text before the first comma, all of `s` if it has none. */
  function FirstField(s: string): (r: string)
    ensures r <= s
    ensures ',' !in r
    ensures |r| < |s| ==> s[|r|] == ','
  {
    if s == [] || s[0] == ',' then [] else [s[0]] + FirstField(s[1..])
  }

  const DefaultReferer := "http://localhost:5000"

  /** The `HTTP-Referer` header: the first of the deployment domains, else localhost. */
  function Referer(env: Env): string {
    if IsSet(env, "REPLIT_DOMAINS") then "https://" + FirstField(env["REPLIT_DOMAINS"])
    else DefaultReferer
  }

  // ---------------------------------------------------------------------
  // The request to the provider

  const Endpoint := "https://openrouter.ai/api/v1/chat/completions"
  const Title := "ReplyGen - AI Email Reply Generator"
  const ModelId := "deepseek/deepseek-chat"
  const SystemMessage :=
    "You are an expert email assistant. Generate professional, contextual email replies "
    + "that sound natural and human-like. Always maintain the appropriate tone and formality level."
  const MaxTokens := 500

  /** The chat-completion request the handler sends.  Its URL, title, model,
      system message and token limit are the constants above; what varies is
      the key, the Referer and the two inputs of the prompt.  (Its
      temperature, a floating-point constant, is not modelled.) */
  datatype ProviderRequest = ProviderRequest(apiKey: string, referer: string, tone: Tone, email: string)
  {
    /** The `Authorization` header. */
    function Authorization(): string {
      "Bearer " + apiKey
    }

    /** The content of the user message. */
    function UserMessage(): string {
      Prompt(tone, email)
    }
  }

  /** Everything before the `fetch`: validation, then the key check, then
      the request.  `Err` carries the reply sent without contacting the provider. */
  function Prepare(body: Json, env: Env): (r: Result<ProviderRequest, Response>)
    ensures r.Ok? <==> Validate(body).Ok? && ApiKey(env).Some?
    ensures r.Ok? ==>
      && r.value.apiKey == ApiKey(env).value && r.value.referer == Referer(env)
      && r.value.tone == Validate(body).value.tone && r.value.email == Validate(body).value.email
    ensures Validate(body).Err? ==> r == Err(Failure(400, ValidationMessage(Validate(body).error)))
    ensures Validate(body).Ok? && ApiKey(env).None? ==> r == Err(Failure(500, Text(KeyMissingMessage)))
  {
    match Validate(body)
    case Err(issues) => Err(Failure(400, ValidationMessage(issues)))
    case Ok(req) =>
      match ApiKey(env)
      case None => Err(Failure(500, Text(KeyMissingMessage)))
      case Some(key) => Ok(ProviderRequest(key, Referer(env), req.tone, req.email))
  }

  // ---------------------------------------------------------------------
  // The provider's answer

  /** What `fetch` produced: a rejection, or a status with a body that is
      either valid JSON or not (None). */
  datatype ProviderAnswer =
    | NetworkFailure
    | Answered(status: int, body: Option<Json>)

  /** `response.ok`. */
  predicate IsOkStatus(status: int) {
    200 <= status <= 299
  }

  /** `errorData.error?.message || 'Unknown error'` inside a template
      literal, or None where that throws (`errorData` is null, or the message
      is an object whose conversion to a string throws). */
  function ServiceErrorDetail(errorData: Json): (r: Option<string>)
    ensures errorData.JNull? ==> r.None?
    ensures !errorData.JNull? && !(errorData.JObject? && "error" in errorData.fields) ==>
      r == Some(UnknownErrorDetail)
    ensures !errorData.JNull? && !Truthy(ErrorMessageOf(errorData)) ==> r == Some(UnknownErrorDetail)
    ensures !errorData.JNull? && Truthy(ErrorMessageOf(errorData)) ==>
      r == ToJsString(ErrorMessageOf(errorData).json)
    ensures forall m :: HasErrorMessage(errorData, m) ==> r == Some(m)
  {
    match Member(errorData, "error")
    case None => None
    case Some(e) =>
      var m := OptionalMember(e, "message");
      if Truthy(m) then ToJsString(m.json) else Some(UnknownErrorDetail)
  }

  /** The field `error.message` of the error body, read field by field:
      defined only when the body is an object whose `error` is an object
      owning `message`. */
  function ErrorMessageOf(errorData: Json): Value {
    if && errorData.JObject? && "error" in errorData.fields
       && errorData.fields["error"].JObject? && "message" in errorData.fields["error"].fields
    then Defined(errorData.fields["error"].fields["message"])
    else Undefined
  }

  /** The error body has the form `{ "error": { "message": m, ... }, ... }`
      with `m` a non-empty string. */
  predicate HasErrorMessage(errorData: Json, m: string) {
    && errorData.JObject? && "error" in errorData.fields
    && var e := errorData.fields["error"];
    && e.JObject? && "message" in e.fields
    && e.fields["message"] == JString(m) && m != ""
  }

  /** A provider status that is not ok: 401 and 429 have fixed replies,
      anything else reports the provider's detail.  An unparseable body
      counts as `{}`. */
  function ProviderError(status: int, body: Option<Json>): (r: Response)
    ensures r.Failure? && r.status in {429, 500}
    ensures r.status == 429 <==> status == 429
    ensures status == 401 ==> r == Failure(500, Text(InvalidKeyMessage))
    ensures status != 401 && status != 429 && body.None? ==>
      r == Failure(500, Text(ServiceErrorPrefix + UnknownErrorDetail))
  {
    var errorData := body.GetOr(JObject(map[]));
    if status == 401 then Failure(500, Text(InvalidKeyMessage))
    else if status == 429 then Failure(429, Text(RateLimitMessage))
    else
      match ServiceErrorDetail(errorData)
      case None => InternalError
      case Some(detail) => Failure(500, Text(ServiceErrorPrefix + detail))
  }

  /** The value at `choices[0].message.content`, read field by field: the
      first element of a `choices` array (or the field "0" of a `choices`
      object), its `message` object, and that object's `content`.  Undefined
      as soon as one step is missing. */
  function ContentPath(data: Json): Value {
    if !(data.JObject? && "choices" in data.fields) then Undefined
    else
      var choices := data.fields["choices"];
      var first :=
        if choices.JArray? && choices.items != [] then Some(choices.items[0])
        else if choices.JObject? && "0" in choices.fields then Some(choices.fields["0"])
        else None;
      if first.None? || !first.value.JObject? || "message" !in first.value.fields then Undefined
      else
        var message := first.value.fields["message"];
        if !message.JObject? || "content" !in message.fields then Undefined
        else Defined(message.fields["content"])
  }

  /** `data.choices?.[0]?.message?.content`, None where reading `choices` of
      `null` throws. */
  function GeneratedContent(data: Json): (r: Option<Value>)
    ensures r.None? <==> data.JNull?
    ensures r.Some? ==> r.value == ContentPath(data)
  {
    match Member(data, "choices")
    case None => None
    case Some(choices) =>
      Some(OptionalMember(OptionalMember(OptionalFirst(choices), "message"), "content"))
  }

  /** The reply and its statistics: the trimmed text, the number of pieces
      of `split(/\s+/)` on it, and the length of the untrimmed content. */
  function Stats(content: string): (r: Response)
    ensures r.Success?
    ensures NoEdgeWs(r.reply) && exists lead: nat :: Padded(content, lead, r.reply)
    ensures r.words >= 1
    ensures r.words == if r.reply == [] then 1 else Runs(r.reply)
    ensures r.characters == |content| >= |r.reply|
    ensures r.characters == |r.reply| <==> NoEdgeWs(content)
  {
    var reply := Trim(content);
    assert reply != [] ==> |SplitWs(reply)| == Runs(reply) by {
      if reply != [] { SplitCountsRuns(reply); }
    }
    assert NoEdgeWs(content) ==> reply == content by {
      if NoEdgeWs(content) { TrimKeeps(content); }
    }
    assert |reply| == |content| ==> reply == content by {
      assert Padded(content, FirstNonWs(content), reply);
      if |reply| == |content| { assert content[0..|content|] == content; }
    }
    Success(reply, |SplitWs(reply)|, |content|)
  }

  /** A 2xx answer: the body must parse and hold a non-empty string content. */
  function ExtractReply(body: Option<Json>): (r: Response)
    ensures r.Success? <==>
      && body.Some? && !body.value.JNull?
      && ContentPath(body.value).Defined? && ContentPath(body.value).json.JString?
      && ContentPath(body.value).json.s != ""
    ensures r.Success? ==> r == Stats(ContentPath(body.value).json.s)
    ensures r.Failure? ==> r.status == 500
    ensures r.Failure? ==> r == InternalError || r == Failure(500, Text(NoReplyMessage))
    ensures r == Failure(500, Text(NoReplyMessage)) <==>
      body.Some? && !body.value.JNull? && !Truthy(ContentPath(body.value))
    ensures body.None? || body == Some(JNull) ==> r == InternalError
    ensures (body.Some? && !body.value.JNull? && Truthy(ContentPath(body.value))
             && !ContentPath(body.value).json.JString?) ==> r == InternalError
  {
    match body
    case None => InternalError
    case Some(data) =>
      match GeneratedContent(data)
      case None => InternalError
      case Some(content) =>
        if !Truthy(content) then Failure(500, Text(NoReplyMessage))
        else if content.json.JString? then Stats(content.json.s)
        else InternalError
  }

  /** Everything after the `fetch`; a rejected `fetch` ends in the catch-all. */
  function Respond(answer: ProviderAnswer): (r: Response)
    ensures r.Status() in {200, 429, 500}
    ensures r.Status() == 429 <==> answer.Answered? && answer.status == 429
    ensures answer.NetworkFailure? ==> r == InternalError
  {
    match answer
    case NetworkFailure => InternalError
    case Answered(status, body) =>
      if !IsOkStatus(status) then ProviderError(status, body) else ExtractReply(body)
  }

  /** The handler: the early reply if `Prepare` stops, else the reply to the
      provider's answer. */
  function Handle(body: Json, env: Env, answer: ProviderAnswer): (r: Response)
    ensures r.Status() in {200, 400, 429, 500}
    ensures r.Status() == 400 <==> Validate(body).Err?
    ensures Prepare(body, env).Ok? ==> r == Respond(answer)
  {
    match Prepare(body, env)
    case Err(early) => early
    case Ok(_) => Respond(answer)
  }
}
