/** The two model backends: an OpenAI-compatible chat-completions server
    (LM Studio) and Ollama's generate endpoint. The HTTP exchange itself is
    an oracle `post` (the POST, `raise_for_status` and `response.json()`),
    and `decode` is `json.loads` of the stripped reply text. */
module Client {
  import opened Wrappers
  import opened Json

  const ChatPath := "/chat/completions"
  const OllamaUrl := "http://localhost:11434/api/generate"
  const DefaultTimeout := 120

  datatype Request = Post(url: string, body: Json, timeout: nat)

  /** A failed call: the transport or HTTP status failed (`post` gave an
      error), or the reply did not hold JSON text where it was expected. */
  datatype CallError = HttpError(detail: string) | BadReply

  // ----- the chat-completions URL -----

  /** `s.rstrip("/")`: the longest prefix of `s` not ending in a slash such
      that only slashes were cut. */
  function StripSlashes(s: string): (r: string)
    ensures |r| <= |s| && r == s[..|r|]
    ensures r == [] || r[|r| - 1] != '/'
    ensures forall i :: |r| <= i < |s| ==> s[i] == '/'
  {
    if s != [] && s[|s| - 1] == '/' then StripSlashes(s[..|s| - 1]) else s
  }

  /** The three properties above pin the stripped text down. */
  lemma StripSlashesUnique(s: string, r: string)
    requires |r| <= |s| && r == s[..|r|]
    requires r == [] || r[|r| - 1] != '/'
    requires forall i :: |r| <= i < |s| ==> s[i] == '/'
    ensures r == StripSlashes(s)
  {
  }

  function Slashes(n: nat): string {
    if n == 0 then "" else Slashes(n - 1) + "/"
  }

  lemma {:induction false} SlashesAreSlashes(n: nat)
    ensures |Slashes(n)| == n
    ensures forall i :: 0 <= i < n ==> Slashes(n)[i] == '/'
  {
    if n > 0 {
      SlashesAreSlashes(n - 1);
    }
  }

  /** The chat URL: the base with its trailing slashes removed, then the
      fixed path. It ends in "/chat/completions", what comes before is a
      prefix of the base from which only slashes were cut, and no slash of the base stands right before the
      path: the URL never holds "//chat". */
  function ChatUrl(baseUrl: string): (u: string)
    ensures |u| >= |ChatPath| && u[|u| - |ChatPath|..] == ChatPath
    ensures |u| > |ChatPath| ==> u[|u| - |ChatPath| - 1] != '/'
    ensures |u| - |ChatPath| <= |baseUrl| && u[..|u| - |ChatPath|] == baseUrl[..|u| - |ChatPath|]
    ensures forall i :: |u| - |ChatPath| <= i < |baseUrl| ==> baseUrl[i] == '/'
  {
    var r := StripSlashes(baseUrl);
    var u := r + ChatPath;
    assert u[|r|..] == ChatPath;
    assert u[..|r|] == r;
    u
  }

  /** Adding trailing slashes to the base URL does not change the chat URL. */
  lemma ChatUrlIgnoresTrailingSlashes(baseUrl: string, n: nat)
    ensures ChatUrl(baseUrl + Slashes(n)) == ChatUrl(baseUrl)
  {
    var s := baseUrl + Slashes(n);
    var r := StripSlashes(baseUrl);
    SlashesAreSlashes(n);
    assert s[..|r|] == r;
    forall i | |r| <= i < |s| ensures s[i] == '/' {
      if i >= |baseUrl| {
        assert s[i] == Slashes(n)[i - |baseUrl|];
      }
    }
    StripSlashesUnique(s, r);
  }

  // ----- request payloads -----

  function Message(role: string, content: string): Json {
    Obj(map["role" := Str(role), "content" := Str(content)])
  }

  /** The structured-output directive that carries the JSON Schema. */
  function ResponseFormat(schema: Json): Json {
    Obj(map["type" := Str("json_schema"),
            "json_schema" := Obj(map["name" := Str("ticket_result"), "schema" := schema])])
  }

  /** The chat-completions request body: the model, the system message then
      the user message, the temperature and `stream: false`; it asks for
      structured output exactly when a schema is given. */
  function ChatPayload(model: string, system: string, user: string, schema: Option<Json>, temperature: real): (p: map<string, Json>)
    ensures p.Keys == {"model", "messages", "temperature", "stream"} + (if schema.Some? then {"response_format"} else {})
    ensures p["model"] == Str(model)
    ensures p["messages"] == Arr([Message("system", system), Message("user", user)])
    ensures p["temperature"] == Num(temperature)
    ensures p["stream"] == Bool(false)
    ensures "response_format" in p <==> schema.Some?
    ensures schema.Some? ==> p["response_format"] == ResponseFormat(schema.value)
  {
    var payload := map["model" := Str(model),
                       "messages" := Arr([Message("system", system), Message("user", user)]),
                       "temperature" := Num(temperature),
                       "stream" := Bool(false)];
    if schema.Some? then payload["response_format" := ResponseFormat(schema.value)] else payload
  }

  function ChatRequest(baseUrl: string, model: string, system: string, user: string, schema: Option<Json>, temperature: real, timeout: nat): Request {
    Post(ChatUrl(baseUrl), Obj(ChatPayload(model, system, user, schema, temperature)), timeout)
  }

  /** `call_ollama`'s prompt as `run` builds it: the system message, a blank
      line, the user message. */
  function OllamaPrompt(system: string, user: string): (prompt: string)
    ensures |prompt| == |system| + 2 + |user|
    ensures prompt[..|system|] == system
    ensures prompt[|system|..|system| + 2] == "\n\n"
    ensures prompt[|system| + 2..] == user
  {
    system + "\n\n" + user
  }

  /** The generate request body: model, prompt and `stream: false`, with no
      temperature and no schema. */
  function OllamaPayload(model: string, prompt: string): (p: map<string, Json>)
    ensures p.Keys == {"model", "prompt", "stream"}
    ensures p["model"] == Str(model) && p["prompt"] == Str(prompt) && p["stream"] == Bool(false)
  {
    map["model" := Str(model), "prompt" := Str(prompt), "stream" := Bool(false)]
  }

  function OllamaRequest(model: string, prompt: string): Request {
    Post(OllamaUrl, Obj(OllamaPayload(model, prompt)), DefaultTimeout)
  }

  // ----- reading the replies -----

  /** `data["choices"][0]["message"]["content"]`, when every step succeeds
      and the content is text. */
  function ChatContent(data: Json): Option<string> {
    match Member(data, "choices")
    case Some(Arr(choices)) =>
      if |choices| == 0 then None
      else
        (match Member(choices[0], "message")
         case Some(message) =>
           (match Member(message, "content")
            case Some(Str(s)) => Some(s)
            case _ => None)
         case None => None)
    case _ => None
  }

  /** `data.get("response", "")`, when `data` is an object and the value is
      text. */
  function OllamaText(data: Json): Option<string> {
    if !data.Obj? then None
    else if "response" !in data.fields then Some("")
    else if data.fields["response"].Str? then Some(data.fields["response"].s)
    else None
  }

  /** The chat reply's text is the content of the first choice's message:
      other members of the reply, the choice and the message, and further
      choices, are ignored. No choice, or a reply without "choices", gives
      no text. */
  lemma ChatContentReadsFirstChoice(s: string, data: map<string, Json>, choice: map<string, Json>,
                                    message: map<string, Json>, rest: seq<Json>)
    ensures ChatContent(Obj(data["choices" := Arr([Obj(choice["message" := Obj(message["content" := Str(s)])])] + rest)])) == Some(s)
    ensures ChatContent(Obj(data["choices" := Arr([])])) == None
    ensures "choices" !in data ==> ChatContent(Obj(data)) == None
  {
    var first := Obj(choice["message" := Obj(message["content" := Str(s)])]);
    assert ([first] + rest)[0] == first;
  }

  /** The generate reply's text is its "response" member, the empty text
      when that member is missing; a reply that is not an object gives no
      text. */
  lemma OllamaTextReadsResponse(s: string, data: map<string, Json>, items: seq<Json>)
    ensures OllamaText(Obj(data["response" := Str(s)])) == Some(s)
    ensures "response" !in data ==> OllamaText(Obj(data)) == Some("")
    ensures OllamaText(Arr(items)) == None
  {
  }

  /** The outcome of a call: the transport error, the decoded JSON of the
      extracted text, or a bad reply. */
  function Interpret(reply: Result<Json, string>, extract: Json -> Option<string>, decode: string -> Option<Json>): (r: Result<Json, CallError>)
    ensures reply.Err? ==> r == Err(HttpError(reply.error))
    ensures r.Ok? <==> reply.Ok? && extract(reply.value).Some? && decode(extract(reply.value).value).Some?
    ensures r.Ok? ==> r.value == decode(extract(reply.value).value).value
  {
    match reply
    case Err(detail) => Err(HttpError(detail))
    case Ok(data) =>
      match extract(data)
      case None => Err(BadReply)
      case Some(text) =>
        match decode(text)
        case None => Err(BadReply)
        case Some(v) => Ok(v)
  }

  /** `call_lmstudio`: builds the body, adds the structured-output directive
      in place when a schema is given, posts once and decodes the reply. */
  method CallLMStudio(post: Request -> Result<Json, string>, decode: string -> Option<Json>,
                      baseUrl: string, model: string, system: string, user: string,
                      schema: Option<Json>, temperature: real, timeout: nat)
    returns (request: Request, result: Result<Json, CallError>)
    ensures request == ChatRequest(baseUrl, model, system, user, schema, temperature, timeout)
    ensures result == Interpret(post(request), ChatContent, decode)
  {
    var messages := [Message("system", system), Message("user", user)];
    var payload := map["model" := Str(model),
                       "messages" := Arr(messages),
                       "temperature" := Num(temperature),
                       "stream" := Bool(false)];
    if schema.Some? {
      payload := payload["response_format" := ResponseFormat(schema.value)];
    }
    var url := StripSlashes(baseUrl) + ChatPath;
    request := Post(url, Obj(payload), timeout);
    result := Interpret(post(request), ChatContent, decode);
  }

  /** `call_ollama`: one post of the generate body, the reply's "response"
      text decoded. */
  method CallOllama(post: Request -> Result<Json, string>, decode: string -> Option<Json>, model: string, prompt: string)
    returns (request: Request, result: Result<Json, CallError>)
    ensures request == OllamaRequest(model, prompt)
    ensures result == Interpret(post(request), OllamaText, decode)
  {
    request := OllamaRequest(model, prompt);
    result := Interpret(post(request), OllamaText, decode);
  }
}
