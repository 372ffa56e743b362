# ReplyGen reply endpoint in Dafny

ReplyGen turns an email and a tone into a suggested reply. The server has one endpoint, `POST /api/generate-reply`. It:

1. validates the JSON body `{ email, tone }`;
2. picks the OpenRouter API key from the environment;
3. builds a prompt from a fixed table of seven tone instructions;
4. asks a chat-completion model for a reply;
5. answers with the trimmed reply, its word count and its character count, or with an error status and a message.

This project models that handler as pure functions and proves what it promises.

- `Routes.Handle(body, env, answer)` is the whole handler. Its inputs are:
  - the parsed request body (`JsValues.Json`);
  - the process environment (`Routes.Env`);
  - the provider's answer (`Routes.ProviderAnswer`): a rejected `fetch`, or a status with a body that may fail to parse.
- `Routes.Prepare` is everything before the outbound request: validation, the key lookup, the Referer header and the prompt. `Err` is the reply sent without contacting the provider. `Ok` is the request that would be sent.
- `Routes.Respond` turns the provider's answer into the reply:
  - 401 → 500;
  - 429 → 429;
  - any other failure → 500 "AI service error: …";
  - a missing or falsy content → 500 "Failed to generate reply. …";
  - otherwise success with statistics.
- Exceptions the handler would throw reach its catch-all. That catch-all sends 500 "Internal server error. Please try again." Examples:
  - reading `error` of a `null` error body;
  - reading `choices` of a `null` success body;
  - calling `trim` on a non-string content;
  - a message that cannot be converted to a string.
- `JsText` models `String.prototype.trim`, `split(/\s+/)` and `length`. It uses the ECMAScript whitespace set shared by `trim` and `\s`.
- `JsValues` models the JavaScript side of JSON values:
  - truthiness;
  - `.`, `?.` and `?.[0]` access;
  - conversion to a string inside a template literal.
- `RouteProperties` holds the lemmas about the handler, and a worked exchange in which the concise tone gets the six-word, 34-character reply "Sure, Tuesday works. See you then.".

Two facts about the statistics are easy to get wrong:

- `characters` is the length of the content before trimming (server/routes.ts:110), not the length of the reply that is sent. The two differ exactly when the content has whitespace at an end.
- The worked exchange's reply, "Sure, Tuesday works. See you then.", has 34 characters.

## Model

| member | source | states |
|---|---|---|
| Routes.ToneName | server/routes.ts:7 | The seven enum literals, one per tone. It is a definition; ToneRoundTrip and ParseTone tie it to the accepted strings. |
| Routes.ParseTone | server/routes.ts:7 | A tone is accepted exactly when the string equals one of the seven enum literals, and the result names that literal. |
| RouteProperties.ToneRoundTrip | server/routes.ts:7 | Every tone's literal parses back to that tone. |
| Routes.EmailIssues | server/routes.ts:6 | The email has no issue exactly when it is a string of at least 10 characters; the length is not trimmed. An absent email is "required", a non-string one has the wrong type, and a short one is "too small" with minimum 10. |
| Routes.ToneIssues | server/routes.ts:7 | The tone has no issue exactly when it is a string equal to one of the seven literals. An absent tone is "required", a non-string one has the wrong type, and an unknown string is an invalid enum value carrying that string. |
| Routes.Validate | server/routes.ts:5-8 | Parsing succeeds exactly when the body is an object with no email issue and no tone issue. It then yields that email and tone; otherwise it reports at least one issue. |
| RouteProperties.ShortEmailRejected | server/routes.ts:121-128 | An email string shorter than 10 characters gets 400 with "Email content must be at least 10 characters", whatever the tone, key or provider; no request is made. |
| RouteProperties.InvalidToneRejected | server/routes.ts:121-128 | With a valid email, a tone that is missing, not a string, or an unknown string gets 400 with the validation library's message for exactly that issue (the unknown string is carried), even with no key configured. |
| RouteProperties.NonObjectRejected | server/routes.ts:121-128 | A body that is not an object gets 400. |
| Routes.IssueMessage | server/routes.ts:6 | An issue has a custom message exactly when it is the email's minimum length, and that message is "Email content must be at least 10 characters"; any other issue keeps the library's default message. |
| Routes.ValidationMessage | server/routes.ts:126 | The fallback "Invalid request data" is chosen exactly when there is no issue; otherwise the first issue's message is sent. |
| RouteProperties.BadRequestIffInvalid | server/routes.ts:121-133 | The status is 400 exactly when validation fails, and the "Invalid request data" fallback is never sent. |
| Routes.IsSet | server/routes.ts:20 | A `process.env` value is truthy exactly when the variable is present and not empty. It is a definition used by FirstSet, ApiKey and Referer (also lines 22 and 58). |
| Routes.FirstSet | server/routes.ts:20 | The chain of logical ors yields nothing exactly when no variable is set. Otherwise it yields the value of the first variable that is set. |
| Routes.ApiKey | server/routes.ts:20 | No key is found exactly when none of OPENROUTER_API_KEY, OPENROUTER_KEY and API_KEY is set to a non-empty value; a key found is never empty. |
| RouteProperties.ApiKeyPrecedence | server/routes.ts:20 | OPENROUTER_API_KEY wins over OPENROUTER_KEY, which wins over API_KEY; an empty value counts as unset; a chosen key is never empty. |
| RouteProperties.MissingKeyRejected | server/routes.ts:20-26 | A valid request with none of the three variables set gets 500 "API key not configured. …" and no request is made. |
| RouteProperties.RequestIffValidAndKeyed | server/routes.ts:17-26 | A request is made exactly when the body is valid and a key is set. Without one, the reply does not depend on the provider. With one, the reply is `Respond` of the provider's answer. |
| Routes.Prepare | server/routes.ts:17-76 | A request is built exactly when validation succeeds and a key is found; it carries that key, the Referer, and the validated tone and email. A validation failure gives 400 with the first issue's message, and a missing key gives 500 "API key not configured. …". |
| Routes.Instruction | server/routes.ts:29-37 | The tone table. This function has no contract of its own; InstructionKey and InstructionsDistinct state that the seven instructions are pairwise different. |
| RouteProperties.InstructionKey | server/routes.ts:29-37 | Every tone instruction has its own ninth character, which tells the tones apart. |
| RouteProperties.InstructionsDistinct | server/routes.ts:29-37 | Two different tones have different instructions. |
| Routes.Prompt | server/routes.ts:39-50 | The prompt is the tone's instruction, then the fixed directive "Please write a reply to this email:" between blank lines, then the email verbatim at a fixed offset, then the fixed formatting instructions. |
| RouteProperties.PromptInjective | server/routes.ts:39-50 | The prompt determines both the tone and the email. |
| Routes.ProviderRequest.Authorization | server/routes.ts:56 | The `Authorization` header, "Bearer " followed by the key. It is a definition; RequestCarriesEmailAndTone states it for every request sent. |
| RouteProperties.RequestCarriesEmailAndTone | server/routes.ts:53-76 | The request carries "Bearer " followed by the chosen key and the computed Referer. Its user message starts with the requested tone's instruction and contains the email. |
| Routes.FirstField | server/routes.ts:58 | `s.split(',')[0]` is the longest prefix of `s` without a comma. |
| Routes.Referer | server/routes.ts:58 | The Referer header. This function has no contract of its own; RefererShape states its shape. |
| RouteProperties.RefererShape | server/routes.ts:58 | With REPLIT_DOMAINS set, the Referer is "https://" followed by its text before the first comma; otherwise it is http://localhost:5000. |
| RouteProperties.ProviderUnauthorized | server/routes.ts:82-85 | A provider 401 gives 500 "Invalid API key. …". |
| RouteProperties.ProviderRateLimited | server/routes.ts:86-89 | A provider 429 gives 429 "Rate limit exceeded. …". |
| Routes.ServiceErrorDetail | server/routes.ts:92 | A `null` error body throws. When `error.message` is missing at any step or falsy ("", 0, false, null), the detail is "Unknown error". A truthy message is converted as in a template literal, which fails (throws) only for an object owning `toString` or an array holding one. A non-empty string message gives that string. |
| Routes.IsOkStatus | server/routes.ts:78 | `response.ok`: the status is in 200..299. It is a definition used by Respond's cases. |
| Routes.ProviderError | server/routes.ts:78-94 | A failing status always gives a failure, 429 exactly for a provider 429 and 500 otherwise. A 401 gives "Invalid API key. …", and an unparseable body counts as `{}`, giving "Unknown error". |
| JsValues.ToJsString | server/routes.ts:92 | In a template literal a string stays itself, and an object fails exactly when it owns a `toString` key. |
| JsValues.StringArrayToString | server/routes.ts:92 | An array of strings becomes its elements joined with ",". |
| JsValues.NumberToString | server/routes.ts:92 | An integer becomes its decimal digits, non-empty and without a leading zero, preceded by "-" when negative; reading the digits back gives its magnitude. This is JavaScript's output for integers of magnitude at most 2^53. |
| JsValues.NumberSpelling | server/routes.ts:92 | 0, 42 and -7 print as "0", "42" and "-7". |
| JsValues.JoinElements | server/routes.ts:92 | Joining array elements fails exactly when some element other than `null` cannot be converted to a string. |
| JsValues.NatToDecimal | server/routes.ts:92 | A number becomes decimal digits without a leading zero. |
| JsValues.DecimalRoundTrip | server/routes.ts:92 | Reading the digits of a number gives the number back. |
| RouteProperties.ProviderOtherError | server/routes.ts:78-94 | Any other failing status gives 500. The message is "AI service error: " followed by `error.message` converted to a string when that message is truthy, or by "Unknown error" when it is missing at any step, falsy, or the body does not parse. A `null` body, or a message whose conversion throws, ends in the catch-all. |
| RouteProperties.ProviderErrorDetails | server/routes.ts:92 | `{"error":{"code":502}}`, `{"error":null}` and `{"error":{"message":""}}` give "AI service error: Unknown error"; `{"error":{"message":42}}` gives "AI service error: 42". |
| Routes.Respond | server/routes.ts:78-119 | Once a request is made, the status is 200, 429 or 500; it is 429 exactly when the provider answered 429; a rejected `fetch` gives the catch-all 500. |
| Routes.Handle | server/routes.ts:12-134 | The status is 200, 400, 429 or 500; it is 400 exactly when validation fails; once a request is made the reply is that of the provider's answer. |
| RouteProperties.ReplyStatuses | server/routes.ts:78-133 | Once a request is made, the handler's reply status is 200, 429 or 500. |
| RouteProperties.RateLimitOnlyFromProvider | server/routes.ts:86-89 | The handler answers 429 exactly when a request was made and the provider answered 429. |
| RouteProperties.NetworkFailureIsInternal | server/routes.ts:130-132 | A rejected `fetch` ends in the catch-all 500. |
| JsValues.Truthy | server/routes.ts:100 | JavaScript truthiness (also used at lines 22 and 92): `undefined`, `null`, `false`, `0` and `""` are falsy, every other value is truthy. It is a definition, used by the contracts of ServiceErrorDetail and ExtractReply. |
| JsValues.Member | server/routes.ts:98 | Reading a property of `null` throws. Only an object that owns the name yields a value; anything else yields `undefined`. |
| JsValues.OptionalMember | server/routes.ts:98 | `v?.name` is defined exactly when `v` is an object owning `name`, and is then that field. |
| JsValues.OptionalFirst | server/routes.ts:98 | `v?.[0]` on an array is its first element, or `undefined` when the array is empty. Only arrays, objects and strings yield a value. |
| Routes.GeneratedContent | server/routes.ts:98 | Reading `choices` of a `null` body throws. Otherwise the result is the value at `choices[0].message.content`, read field by field, and `undefined` as soon as a step is missing or not an object. |
| Routes.ExtractReply | server/routes.ts:97-119 | A 2xx answer succeeds exactly when its body parses, is not `null`, and has a non-empty string content; it then carries that content's statistics. Every failure is 500 with one of two messages. "Failed to generate reply. …" is sent exactly when the content is missing or falsy. A body that does not parse, a `null` body, and a truthy content that is not a string (on which `trim` throws) get "Internal server error. Please try again.". |
| RouteProperties.UnreadableAnswerIsInternal | server/routes.ts:97-132 | On a 2xx answer, a body that does not parse, a `null` body, or a truthy non-string content ends in the catch-all 500 "Internal server error. Please try again."; no other failure message than that and "Failed to generate reply. …" is possible. |
| RouteProperties.NonStringContentIsInternal | server/routes.ts:109 | A content of 5, `true` or `[]` makes `trim` throw, giving the catch-all 500. |
| RouteProperties.MissingContentRejected | server/routes.ts:97-104 | A 2xx body other than `null` whose `choices[0].message.content` is missing at any step or falsy gets 500 "Failed to generate reply. …"; a `null` body ends in the catch-all. |
| RouteProperties.MissingContentShapes | server/routes.ts:98-100 | No choices, choices that are `null` or a number, an empty list, a first choice that is `null` or has no message, a `null` message, and a content that is `null`, `false`, 0 or "" all count as no content. |
| RouteProperties.AnswerSuccessIff | server/routes.ts:97-119 | The answer leads to success exactly when it is 2xx, parses, is not `null`, and the value at `choices[0].message.content` is a non-empty string. |
| RouteProperties.SuccessIff | server/routes.ts:97-119 | The handler succeeds exactly when a request was made and the answer is such a content. |
| JsText.IsWs | server/routes.ts:113 | The whitespace that `trim` removes and `\s` matches (also line 109): every space separator, tab, vertical tab, form feed, U+FEFF, line feed, carriage return, U+2028 and U+2029. It is a definition used by Trim and SplitWs. |
| JsText.Trim | server/routes.ts:113 | The reply has no whitespace at either end. It is the content with only whitespace removed before and after it. |
| JsText.TrimUnique | server/routes.ts:113 | Trim is the only way to cut a text into whitespace, a core without edge whitespace, and whitespace. |
| JsText.TrimKeeps | server/routes.ts:113 | Trimming a text without edge whitespace changes nothing, so trimming twice is trimming once. |
| JsText.SplitWs | server/routes.ts:109 | `split(/\s+/)` always yields at least one piece. |
| JsText.SplitPiecesHaveNoWs | server/routes.ts:109 | No piece of the split contains whitespace. |
| JsText.SplitCountsRuns | server/routes.ts:109 | On a trimmed non-empty text, the number of pieces is the number of maximal runs of non-whitespace. |
| JsText.SplitPiecesNonEmpty | server/routes.ts:109 | On a trimmed non-empty text, every piece is non-empty. |
| JsText.SplitJoin | server/routes.ts:109 | Splitting words joined by single spaces gives back the words. |
| Routes.Stats | server/routes.ts:109-113 | The reply is the trimmed content. `words` is its number of runs of non-whitespace, or 1 when it is empty. `characters` is the length of the untrimmed content, which equals the reply's length exactly when the content has no edge whitespace. |
| RouteProperties.SuccessStats | server/routes.ts:109-119 | A 2xx answer whose content is a non-empty string gives 200 with that reply and those statistics. |
| RouteProperties.ExampleExchange | server/routes.ts:12-134 | A valid concise request with OPENROUTER_API_KEY set, answered with "Sure, Tuesday works. See you then.", gives that reply with 6 words and 34 characters. |

## Left out

- The HTTP layer is not modelled: Express routing, `registerRoutes`, `createServer`, and the JSON parsing of the request. `req.body` is taken as an already parsed JSON value.
- `fetch` and `response.json()` are inputs. `ProviderAnswer` says whether the call was rejected, and otherwise gives the status and the body, which may fail to parse.
- `console.error` logging has no effect on the reply and is left out.
- `generationTime` needs the clock (`Date.now`) and `toFixed`. `Stats` and `Response.Success` carry no generation time.
- `Routes.ProviderAnswer`: `NetworkFailure` also stands for `fetch` rejecting the request itself, as it does for a header value with NUL, CR or LF inside or a character above U+00FF (from the key or REPLIT_DOMAINS); such a request is never sent and the reply is the catch-all 500. `ProviderRequest.Authorization()` and `Referer` are the headers as built, not as sent after `fetch` strips leading and trailing whitespace.
- `Routes.ProviderRequest` omits the `Content-Type` header, the JSON serialisation of the request, and its floating-point `temperature`.
- The fixed URL, title, model, system message and token limit are module constants; no lemma is stated about them.
- `Routes.Message`: the validation library's own default messages are left opaque as `ZodDefault(issue)`. Only the custom minimum-length message is spelled out.
- `JsValues.NumberToString`: only integer-valued numbers are modelled, as unbounded integers. Fractions and exponent notation are out of scope. JSON numbers are IEEE doubles, so an integer above 2^53 in magnitude is rounded when parsed and printed with at most 17 significant digits (2^64 prints as "18446744073709552000"); the model's exact `int` does not capture this rounding.
- `Routes.EmailIssues` and `Routes.Stats`: strings are sequences of Unicode code points, but the schema's minimum length and JavaScript's `length` count UTF-16 code units. Text outside the Basic Multilingual Plane is counted differently: five such emoji are 10 code units, which the schema accepts and the model reports as too small, and `characters` counts each as 2. Trimming and splitting are unaffected, since every whitespace character is in the Basic Multilingual Plane.
- `JsValues.Member`: only the four property names the handler reads are modelled. None of them is an index, `length`, or a name inherited from a prototype.
- The client page (client/src/pages/home.tsx) and build-frontend.js are not part of this model.
