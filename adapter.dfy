/**
 * The provider adapter of the chat app: for each of the three providers,
 * the HTTP request one prompt turns into, and the reply text a response
 * (or a failure to get one) turns into.
 */
module Adapter {
  import opened Wrappers
  import opened Text
  import opened Json

  datatype Provider = Gemini | OpenRouter | Groq

  /** The provider's name as the sidebar offers it and the turn handler compares it. */
  function Label(p: Provider): string {
    match p
    case Gemini => "Google Gemini"
    case OpenRouter => "OpenRouter"
    case Groq => "Groq"
  }

  /** The provider a sidebar label selects, if any. */
  function ProviderNamed(name: string): (r: Option<Provider>)
    ensures r.Some? ==> Label(r.value) == name
    ensures forall p :: name == Label(p) ==> r == Some(p)
  {
    if name == "Google Gemini" then Some(Gemini)
    else if name == "OpenRouter" then Some(OpenRouter)
    else if name == "Groq" then Some(Groq)
    else None
  }

  // ---------------------------------------------------------------------
  // Requests
  // ---------------------------------------------------------------------

  /** A POST request: URL, headers, query parameters and JSON body. */
  datatype Request = Request(
    url: string,
    headers: map<string, string>,
    params: map<string, string>,
    body: Json)

  const GeminiBase := "https://generativelanguage.googleapis.com/v1beta/models/"
  const GeminiAction := ":generateContent"
  const OpenRouterUrl := "https://openrouter.ai/api/v1/chat/completions"
  const GroqUrl := "https://api.groq.com/openai/v1/chat/completions"
  /** The credential prefix of the Bearer scheme (section 2.1 of RFC 6750). */
  const BearerPrefix := "Bearer "

  function Endpoint(p: Provider, model: string): string {
    match p
    case Gemini => GeminiBase + model + GeminiAction
    case OpenRouter => OpenRouterUrl
    case Groq => GroqUrl
  }

  function Headers(p: Provider, key: string): map<string, string> {
    if p == Gemini then map["Content-Type" := "application/json"]
    else map["Authorization" := BearerPrefix + key, "Content-Type" := "application/json"]
  }

  function Params(p: Provider, key: string): map<string, string> {
    if p == Gemini then map["key" := key] else map[]
  }

  function Payload(p: Provider, model: string, prompt: string): Json {
    if p == Gemini then
      JObject(map["contents" := JArray([JObject(map["parts" := JArray([JObject(map["text" := JString(prompt)])])])])])
    else
      JObject(map[
        "model" := JString(model),
        "messages" := JArray([JObject(map["role" := JString("user"), "content" := JString(prompt)])])])
  }

  /**
   * The key the request authenticates with: the `key` query parameter, or
   * else the credential of a Bearer `Authorization` header.
   */
  function CarriedKey(r: Request): Option<string> {
    if "key" in r.params then Some(r.params["key"])
    else if "Authorization" in r.headers
      && |r.headers["Authorization"]| >= |BearerPrefix|
      && r.headers["Authorization"][..|BearerPrefix|] == BearerPrefix
    then Some(r.headers["Authorization"][|BearerPrefix|..])
    else None
  }

  /** The request one prompt becomes. The model is never checked against the sidebar's lists. */
  function BuildRequest(p: Provider, model: string, key: string, prompt: string): (r: Request)
    ensures "Content-Type" in r.headers && r.headers["Content-Type"] == "application/json"
    ensures r.headers.Keys <= {"Authorization", "Content-Type"} && r.params.Keys <= {"key"}
    ensures ("key" in r.params) == (p == Gemini)
    ensures ("Authorization" in r.headers) == (p != Gemini)
    ensures CarriedKey(r) == Some(key)
  {
    var r := Request(Endpoint(p, model), Headers(p, key), Params(p, key), Payload(p, model, prompt));
    assert p != Gemini ==> r.headers["Authorization"][..|BearerPrefix|] == BearerPrefix;
    r
  }

  /** Where in the body the prompt travels. */
  function PromptPath(p: Provider): seq<Step> {
    if p == Gemini then [Key("contents"), Index(0), Key("parts"), Index(0), Key("text")]
    else [Key("messages"), Index(0), Key("content")]
  }

  /** The model spliced into a Gemini URL, if the URL has the Gemini shape. */
  function ModelInUrl(url: string): Option<string> {
    if |url| >= |GeminiBase| + |GeminiAction|
      && url[..|GeminiBase|] == GeminiBase
      && url[|url| - |GeminiAction|..] == GeminiAction
    then Some(url[|GeminiBase|..|url| - |GeminiAction|])
    else None
  }

  /** Where the request names the model: the Gemini URL path, or the body's `model` member. */
  function CarriedModel(p: Provider, r: Request): Option<string> {
    if p == Gemini then ModelInUrl(r.url)
    else match Walk(r.body, [Key("model")])
      case Ok(JString(m)) => Some(m)
      case _ => None
  }

  /** A request carries the model and the prompt unmodified, and the prompt in a user message. */
  lemma RequestCarriesInputs(p: Provider, model: string, key: string, prompt: string)
    ensures CarriedModel(p, BuildRequest(p, model, key, prompt)) == Some(model)
    ensures Walk(BuildRequest(p, model, key, prompt).body, PromptPath(p)) == Ok(JString(prompt))
    ensures p != Gemini ==>
      Walk(BuildRequest(p, model, key, prompt).body, [Key("messages"), Index(0), Key("role")]) == Ok(JString("user"))
    ensures p != Gemini ==>
      var body := BuildRequest(p, model, key, prompt).body;
      && body.JObject? && body.members.Keys == {"model", "messages"}
      && body.members["messages"].JArray? && |body.members["messages"].items| == 1
      && body.members["messages"].items[0].JObject?
      && body.members["messages"].items[0].members.Keys == {"role", "content"}
  {
    if p == Gemini {
      GeminiModelInUrl(model);
      GeminiRequestShape(model, key, prompt);
      WalkPlant(PromptPath(p), JString(prompt));
    } else {
      ChatPayloadCarries(p, model, prompt);
    }
  }

  lemma GeminiModelInUrl(model: string)
    ensures ModelInUrl(GeminiBase + model + GeminiAction) == Some(model)
  {
    var url := GeminiBase + model + GeminiAction;
    assert url[..|GeminiBase|] == GeminiBase;
    assert url[|url| - |GeminiAction|..] == GeminiAction;
    assert url[|GeminiBase|..|url| - |GeminiAction|] == model;
  }

  lemma ChatPayloadCarries(p: Provider, model: string, prompt: string)
    requires p != Gemini
    ensures Walk(Payload(p, model, prompt), [Key("model")]) == Ok(JString(model))
    ensures Walk(Payload(p, model, prompt), [Key("messages"), Index(0), Key("content")]) == Ok(JString(prompt))
    ensures Walk(Payload(p, model, prompt), [Key("messages"), Index(0), Key("role")]) == Ok(JString("user"))
  {
    var body := Payload(p, model, prompt);
    var msg := JObject(map["role" := JString("user"), "content" := JString(prompt)]);
    assert Subscript(body, Key("messages")) == Ok(JArray([msg]));
    assert Subscript(JArray([msg]), Index(0)) == Ok(msg);
    assert Walk(msg, [Key("content")]) == Ok(JString(prompt));
    assert Walk(msg, [Key("role")]) == Ok(JString("user"));
    WalkAppend(body, [Key("messages"), Index(0)], [Key("content")]);
    WalkAppend(body, [Key("messages"), Index(0)], [Key("role")]);
  }

  /**
   * The Gemini body is nothing but the prompt at its path; its URL is the
   * only place the model appears.
   */
  lemma GeminiRequestShape(model: string, key: string, prompt: string)
    ensures BuildRequest(Gemini, model, key, prompt).body == Plant(PromptPath(Gemini), JString(prompt))
    ensures BuildRequest(Gemini, model, key, prompt).params == map["key" := key]
    ensures BuildRequest(Gemini, model, key, prompt).url == GeminiBase + model + GeminiAction
    ensures BuildRequest(Gemini, model, key, prompt).body ==
      JObject(map["contents" := JArray([JObject(map["parts" := JArray([JObject(map["text" := JString(prompt)])])])])])
  {
    var path := PromptPath(Gemini);
    var text := JObject(map["text" := JString(prompt)]);
    var parts := JObject(map["parts" := JArray([text])]);
    assert Plant(path[4..], JString(prompt)) == text;
    PlantIndexZero(path[4..], JString(prompt));
    assert path[3..] == [Index(0)] + path[4..];
    assert Plant(path[2..], JString(prompt)) == parts;
    PlantIndexZero(path[2..], JString(prompt));
    assert path[1..] == [Index(0)] + path[2..];
    assert Plant(path, JString(prompt)) == JObject(map["contents" := JArray([parts])]);
  }

  /** OpenRouter and Groq requests are the same apart from the URL, which does not depend on the model. */
  lemma ChatRequestsDifferOnlyInUrl(model: string, key: string, prompt: string, model': string)
    ensures BuildRequest(OpenRouter, model, key, prompt).url == OpenRouterUrl
    ensures BuildRequest(Groq, model, key, prompt).url == GroqUrl
    ensures BuildRequest(OpenRouter, model, key, prompt).(url := GroqUrl) == BuildRequest(Groq, model, key, prompt)
    ensures BuildRequest(OpenRouter, model, key, prompt).url == BuildRequest(OpenRouter, model', key, prompt).url
    ensures BuildRequest(Groq, model, key, prompt).url == BuildRequest(Groq, model', key, prompt).url
    ensures BuildRequest(OpenRouter, model, key, prompt).headers["Authorization"] == BearerPrefix + key
  {
  }

  // ---------------------------------------------------------------------
  // Responses
  // ---------------------------------------------------------------------

  /**
   * What the single POST produced: a transport failure with the text of the
   * exception, or a status, the raw body text and what `response.json()`
   * would give (the document, or the text of the exception it raises).
   */
  datatype Outcome =
    | TransportFailure(message: string)
    | Response(status: nat, body: string, parsed: Result<Json, string>)

  /** Where in a successful response the reply is found. */
  function ReplyPath(p: Provider): seq<Step> {
    if p == Gemini then [Key("candidates"), Index(0), Key("content"), Key("parts"), Index(0), Key("text")]
    else [Key("choices"), Index(0), Key("message"), Key("content")]
  }

  /** U+26A0 WARNING SIGN followed by U+FE0F, the emoji presentation selector. */
  const Warning := "\U{26A0}\U{FE0F}"
  const NoResponseYet := Warning + " No response yet."

  /** The reply for a caught exception: the warning sign, then the exception's text verbatim. */
  function ExceptionText(message: string): (r: string)
    ensures |r| >= |Warning| + |message|
    ensures r[..|Warning|] == Warning && r[|r| - |message|..] == message
    ensures r != NoResponseYet
  {
    var r := Warning + " Exception: " + message;
    assert r[|Warning| + 1] == 'E' && NoResponseYet[|Warning| + 1] == 'N';
    r
  }

  /** The reply for a status other than 200; it never reads as an exception text or the placeholder. */
  function ErrorText(status: nat, body: string): (r: string)
    ensures |r| >= |body|
    ensures r[|r| - |body|..] == body
    ensures r != NoResponseYet && forall message :: r != ExceptionText(message)
  {
    var r := "Error " + Decimal(status) + ": " + body;
    assert r[0] == 'E' && Warning[0] != 'E';
    r
  }

  /** Reads an error text back into its status and body. */
  function SplitErrorText(s: string): Option<(nat, string)> {
    if |s| >= 6 && s[..6] == "Error " then
      var rest := s[6..];
      var k := DigitRun(rest);
      if 0 < k && k + 2 <= |rest| && rest[k..k + 2] == ": "
      then Some((ParseDecimal(rest[..k]), rest[k + 2..]))
      else None
    else None
  }

  /** An error text holds the status and the whole body, verbatim. */
  lemma {:induction false} ErrorTextRoundTrip(status: nat, body: string)
    ensures SplitErrorText(ErrorText(status, body)) == Some((status, body))
  {
    var d := Decimal(status);
    assert ErrorText(status, body) == "Error " + (d + (": " + body));
    ParseDecimalOfDecimal(status);
    SplitDigitsText(d, body);
  }

  /** The text "Error <digits>: <body>" splits back into the digits' value and the body. */
  lemma SplitDigitsText(d: string, body: string)
    requires d != [] && AllDigits(d)
    ensures SplitErrorText("Error " + (d + (": " + body))) == Some((ParseDecimal(d), body))
  {
    var tail := ": " + body;
    var rest := d + tail;
    var s := "Error " + rest;
    assert s[..6] == "Error " && s[6..] == rest;
    DigitRunOfDigits(d, tail);
    var k := |d|;
    assert rest[..k] == d;
    assert rest[k..k + 2] == tail[..2] == ": ";
    assert rest[k + 2..] == tail[2..] == body;
  }

  /**
   * The reply one outcome becomes. Every failure is caught and becomes text:
   * a transport failure, a body that is not JSON and a document without the
   * reply path all become exception texts (`describe` gives the text of the
   * exception a failed subscript raises); any status but 200 becomes an
   * error text without looking at the body's JSON.
   */
  function DecodeReply(p: Provider, outcome: Outcome, describe: Fault -> string): (reply: Json)
    ensures outcome.TransportFailure? ==> reply == JString(ExceptionText(outcome.message))
    ensures outcome.Response? && outcome.status != 200 ==>
      reply.JString? && SplitErrorText(reply.s) == Some((outcome.status, outcome.body))
    ensures outcome.Response? && outcome.status == 200 && outcome.parsed.Err? ==>
      reply == JString(ExceptionText(outcome.parsed.error))
    ensures outcome.Response? && outcome.status == 200 && outcome.parsed.Ok? ==>
      match Walk(outcome.parsed.value, ReplyPath(p))
      case Ok(v) => reply == v
      case Err(f) => reply == JString(ExceptionText(describe(f)))
  {
    match outcome
    case TransportFailure(message) => JString(ExceptionText(message))
    case Response(status, body, parsed) =>
      if status != 200 then
        ErrorTextRoundTrip(status, body);
        JString(ErrorText(status, body))
      else match parsed
        case Err(message) => JString(ExceptionText(message))
        case Ok(data) =>
          match Walk(data, ReplyPath(p))
          case Ok(v) => v
          case Err(f) => JString(ExceptionText(describe(f)))
  }

  /** A 200 response of the provider's documented shape decodes to exactly the value it holds. */
  lemma DecodeDocumentedShape(p: Provider, body: string, v: Json, describe: Fault -> string)
    ensures DecodeReply(p, Response(200, body, Ok(Plant(ReplyPath(p), v))), describe) == v
  {
    WalkPlant(ReplyPath(p), v);
  }

  /** The documented 200 documents: `candidates[0].content.parts[0].text` and `choices[0].message.content`. */
  lemma DocumentedReplyShape(v: Json)
    ensures Plant(ReplyPath(Gemini), v) ==
      JObject(map["candidates" := JArray([JObject(map["content" :=
        JObject(map["parts" := JArray([JObject(map["text" := v])])])])])])
    ensures Plant(ReplyPath(OpenRouter), v) == Plant(ReplyPath(Groq), v) ==
      JObject(map["choices" := JArray([JObject(map["message" := JObject(map["content" := v])])])])
  {
    var path := ReplyPath(Gemini);
    var text := JObject(map["text" := v]);
    assert Plant(path[5..], v) == text;
    PlantIndexZero(path[5..], v);
    assert path[4..] == [Index(0)] + path[5..];
    assert Plant(path[3..], v) == JObject(map["parts" := JArray([text])]);
    assert Plant(path[2..], v) == JObject(map["content" := JObject(map["parts" := JArray([text])])]);
    PlantIndexZero(path[2..], v);
    assert path[1..] == [Index(0)] + path[2..];
    var chat := ReplyPath(OpenRouter);
    assert Plant(chat[3..], v) == JObject(map["content" := v]);
    assert Plant(chat[2..], v) == JObject(map["message" := JObject(map["content" := v])]);
    PlantIndexZero(chat[2..], v);
    assert chat[1..] == [Index(0)] + chat[2..];
  }

  /** A non-200 reply is the same for every provider and whatever the body parses to. */
  lemma ErrorReplyIgnoresJson(p: Provider, q: Provider, status: nat, body: string,
                              x: Result<Json, string>, y: Result<Json, string>,
                              describe: Fault -> string, describe': Fault -> string)
    requires status != 200
    ensures DecodeReply(p, Response(status, body, x), describe) == DecodeReply(q, Response(status, body, y), describe')
    ensures DecodeReply(p, Response(status, body, x), describe) == JString(ErrorText(status, body))
  {
  }

  // ---------------------------------------------------------------------
  // One turn
  // ---------------------------------------------------------------------

  /**
   * The assistant's reply to one prompt: the placeholder when no key was
   * entered, otherwise the decoding of what `post` returns for the request.
   */
  function TurnReply(p: Provider, model: string, key: string, prompt: string,
                     post: Request -> Outcome, describe: Fault -> string): (reply: Json)
    ensures key == "" ==> reply == JString(NoResponseYet)
    ensures key != "" ==> reply == DecodeReply(p, post(BuildRequest(p, model, key, prompt)), describe)
  {
    if key == "" then JString(NoResponseYet)
    else DecodeReply(p, post(BuildRequest(p, model, key, prompt)), describe)
  }

  /** Without a key nothing is sent: the reply is the placeholder whatever the network would do. */
  lemma NoKeyNoRequest(p: Provider, model: string, prompt: string,
                       post: Request -> Outcome, describe: Fault -> string)
    ensures TurnReply(p, model, "", prompt, post, describe) == JString(NoResponseYet)
  {
  }

  /** With a key, the reply depends on the network only through its answer to the one built request. */
  lemma OnlyTheBuiltRequestIsSent(p: Provider, model: string, key: string, prompt: string,
                                  post: Request -> Outcome, post': Request -> Outcome,
                                  describe: Fault -> string)
    requires key != ""
    requires post(BuildRequest(p, model, key, prompt)) == post'(BuildRequest(p, model, key, prompt))
    ensures TurnReply(p, model, key, prompt, post, describe) == TurnReply(p, model, key, prompt, post', describe)
  {
  }

  /** The OpenRouter exchange: request for "Hello", reply "Hi there!". */
  lemma OpenRouterExample(describe: Fault -> string)
    ensures BuildRequest(OpenRouter, "mistralai/mistral-7b-instruct:free", "sk-test", "Hello") ==
      Request(
        "https://openrouter.ai/api/v1/chat/completions",
        map["Authorization" := "Bearer sk-test", "Content-Type" := "application/json"],
        map[],
        JObject(map[
          "model" := JString("mistralai/mistral-7b-instruct:free"),
          "messages" := JArray([JObject(map["role" := JString("user"), "content" := JString("Hello")])])]))
    ensures DecodeReply(OpenRouter,
      Response(200, "", Ok(JObject(map["choices" := JArray([JObject(map["message" :=
        JObject(map["content" := JString("Hi there!")])])])]))), describe) == JString("Hi there!")
  {
    assert BearerPrefix + "sk-test" == "Bearer sk-test";
    DocumentedReplyShape(JString("Hi there!"));
    DecodeDocumentedShape(OpenRouter, "", JString("Hi there!"), describe);
  }

  /** The Gemini exchange: request for "2+2?", reply "4". */
  lemma GeminiExample(describe: Fault -> string)
    ensures BuildRequest(Gemini, "gemini-1.5-flash", "key123", "2+2?") ==
      Request(
        "https://generativelanguage.googleapis.com/v1beta/models/gemini-1.5-flash:generateContent",
        map["Content-Type" := "application/json"],
        map["key" := "key123"],
        JObject(map["contents" := JArray([JObject(map["parts" := JArray([JObject(map["text" := JString("2+2?")])])])])]))
    ensures DecodeReply(Gemini,
      Response(200, "", Ok(JObject(map["candidates" := JArray([JObject(map["content" :=
        JObject(map["parts" := JArray([JObject(map["text" := JString("4")])])])])])]))), describe) == JString("4")
  {
    assert BuildRequest(Gemini, "gemini-1.5-flash", "key123", "2+2?").url ==
      "https://generativelanguage.googleapis.com/v1beta/models/gemini-1.5-flash:generateContent"
    by {
      GeminiRequestShape("gemini-1.5-flash", "key123", "2+2?");
      GeminiExampleUrl();
    }
    GeminiRequestShape("gemini-1.5-flash", "key123", "2+2?");
    DocumentedReplyShape(JString("4"));
    DecodeDocumentedShape(Gemini, "", JString("4"), describe);
  }

  lemma GeminiExampleUrl()
    ensures GeminiBase + "gemini-1.5-flash" + GeminiAction ==
      "https://generativelanguage.googleapis.com/v1beta/models/gemini-1.5-flash:generateContent"
  {
    var prefix := GeminiBase + "gemini-1.5-flash";
    assert prefix == "https://generativelanguage.googleapis.com/v1beta/models/gemini-1.5-flash";
  }

  lemma Status401()
    ensures Decimal(401) == "401"
  {
    assert Decimal(4) == ['4'];
    assert Decimal(40) == ['4', '0'];
  }

  /** A 401 answer, whatever its body (such as `{"error":"invalid key"}`), shows the status and the body as sent. */
  lemma UnauthorizedExample(p: Provider, body: string, parsed: Result<Json, string>, describe: Fault -> string)
    ensures DecodeReply(p, Response(401, body, parsed), describe) == JString("Error 401: " + body)
  {
    ErrorReplyIgnoresJson(p, p, 401, body, parsed, parsed, describe, describe);
    var d := Decimal(401);
    Status401();
    calc {
      ErrorText(401, body);
      "Error " + d + ": " + body;
      { assert "Error " + d + ": " == "Error 401: "; }
      "Error 401: " + body;
    }
  }
}
