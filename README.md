# Ticket-routing templates: a Dafny model

The repository classifies a support ticket with a local language model and
turns the model's label into three routing artifacts. `run` renders a system
and a user prompt, asks either an LM Studio server (OpenAI-compatible chat
completions with a JSON Schema for structured output) or an Ollama server
(`/api/generate`) for a JSON result, validates that result against the
schema, and then writes, under one 8-hex-digit run id:

- a UiPath XAML workflow that logs the label and branches on `"billing"`,
- a C# static class `Router` and a JavaScript function `routeTicket` that
  both return `"BillingQueue"` for `"billing"` and `label + "Queue"` otherwise,
- a JSON run record holding the validated result.

The model has five modules besides the shared `Wrappers`, `Json` and
`Strings` helpers:

- `Routing`: the routing rule both stubs implement (`Route`) and how a
  generator reads the label out of the result (`LabelText`).
- `Stubs`: `to_csharp` and `to_js` as text (`ToCSharp`, `ToJs`). The one line
  of logic in each stub is modelled as an expression tree with an evaluator
  and a C# and a JavaScript printer. The stub texts are proved to be exactly
  the printed trees with the label spliced in, and reading a stub back gives
  a router whose evaluation is `Route(label)` for any ticket.
- `MapperXaml`: `to_xaml` as a list of lines (`XamlLines`, joined by
  newlines). The class-name UUID is a parameter. The document is proved to
  be the printing of a small workflow tree: a `LogMessage`, then an `If`.
- `Client`: the two HTTP calls. The request (URL, body, timeout) is built as
  a value, and the transport is an oracle `post`. `CallLMStudio` mirrors
  `call_lmstudio`, including the in-place addition of `response_format`.
- `Orchestrator`: `run` after the prompts are rendered. `RunSpec` states its
  outcome and the ordered log of calls and writes. The method `Run` builds
  that log step by step and is proved equal to `RunSpec`. The lemmas beside
  it state the provider gate, the validation gate and the four files.

Outside inputs are parameters (`World`): the HTTP exchange (`post`),
`json.loads` (`decode`), `jsonschema.validate` (`valid`), Python's `str()` of
a non-string label (`show`), whether rich accepts the summary's markup for a
label (`markupOk`), and the hex strings of the two `uuid4()` calls.

Three behaviours of the source are worth knowing; the model states each:

- `Route("Billing")` is also `"BillingQueue"`. The C# interpolation and the
  JavaScript concatenation give `"Billing" + "Queue"`. Two labels route to
  the same queue only when they are equal or both spell billing this way
  (`Routing.RouteCollisions`).
- The label is spliced into the C#, JavaScript and XAML literals without
  escaping. `ReadCSharp` recovers a router only for labels C# takes
  literally: no quote, backslash or C# new-line character (`Strings.Plain`).
  `ReadJs` also accepts the line and paragraph separators, which JavaScript
  allows in a string literal (`Strings.JsPlain`). For a label such as
  U+2028 only the JavaScript stub holds the label
  (`Stubs.StubsPartOnLineSeparator`).
- The closing summary is printed after the four files are written. It
  fails when `out["confidence"]` is missing or not a number, and when rich
  rejects the markup of the line holding the label (a label such as `[/x]`).
  Either way the run ends with status 1 and the files are already on disk
  (`Orchestrator.RunWritesFourFiles`). Whether rich accepts a label is the
  oracle `markupOk`.
  Run ids are 8 hex digits, so two runs can draw the same id. Disjoint paths
  are proved only for different ids (`Orchestrator.RunsDoNotCollide`).

## Model

| member | source | states |
|---|---|---|
| Routing.RouteToBillingQueue | Generators/stubs.py:8 | a label routes to "BillingQueue" exactly when it is "billing" or "Billing" |
| Routing.RouteCollisions | Generators/stubs.py:8 | two labels share a queue iff they are equal or both are "billing"/"Billing" |
| Routing.Route | Generators/stubs.py:8 | the queue is a stem followed by "Queue": "Billing" for the label "billing", the label itself otherwise |
| Routing.LabelText | Generators/stubs.py:3 | a label text exists iff the result is an object with a "label" member; a string label is used verbatim, any other value as `str()` prints it |
| Routing.LabelOnly | Generators/stubs.py:3 | the generators read only the "label" member; a string label is used verbatim; a missing label yields nothing |
| Stubs.ToCSharp | Generators/stubs.py:2-10 | `to_csharp`: cutting the fixed head (through `var label = "`) and the fixed tail off the stub gives the label back |
| Stubs.CSharpStubShape | Generators/stubs.py:4-10 | the C# stub's fixed text takes the parameter `ticket` and binds the local `label`, and its return statement is the printing of the routing expression tree |
| Stubs.CSharpPrintsRoute | Generators/stubs.py:8 | the C# printer of the routing tree gives the ternary with `==` and `$"{label}Queue"` |
| Stubs.CSharpReadBack | Generators/stubs.py:2-10 | reading back `to_csharp(label)` gives the C# router for that label exactly when the label has no quote, backslash or line break |
| Stubs.CSharpReadSound | Generators/stubs.py:2-10 | any text the reader accepts is `to_csharp` of the label it read |
| Stubs.ToCSharpInjective | Generators/stubs.py:2-10 | different labels give different C# stubs |
| Stubs.CSharpRoutes | Generators/stubs.py:6-8 | the C# router ignores its ticket and returns Route(label) |
| Stubs.ToJs | Generators/stubs.py:13-18 | `to_js`: cutting the fixed head (through `const label = "`) and the fixed tail off the stub gives the label back |
| Stubs.JavaScriptStubShape | Generators/stubs.py:15-18 | the JavaScript stub's fixed text takes `ticket`, binds `label`, and returns the printing of the routing tree |
| Stubs.JavaScriptPrintsRoute | Generators/stubs.py:17 | the JavaScript printer gives the ternary with `===` and `label + "Queue"` |
| Stubs.JsReadBack | Generators/stubs.py:13-18 | reading back `to_js(label)` gives the JavaScript router for that label exactly when the label has no quote, backslash, line feed or carriage return |
| Stubs.JsReadSound | Generators/stubs.py:13-18 | any text the reader accepts is `to_js` of the label it read |
| Stubs.ToJsInjective | Generators/stubs.py:13-18 | different labels give different JavaScript stubs |
| Stubs.JsRoutes | Generators/stubs.py:15-17 | the JavaScript router ignores its ticket and returns Route(label) |
| Stubs.StubsAgree | Generators/stubs.py:2-18 | whenever the C# stub reads back so does the JavaScript stub, and both then return Route(label) for any two tickets; a JavaScript stub that reads back returns Route(label) |
| Stubs.StubsPartOnLineSeparator | Generators/stubs.py:7 | for the label U+2028 the C# stub has no reading and the JavaScript stub reads back its router |
| Stubs.EvalReadsFreeNames | Generators/stubs.py:8 | an emitted expression depends only on the names it mentions |
| MapperXaml.ToXamlIsRouteWorkflow | Generators/mapper_xaml.py:5-23 | `to_xaml` (`ToXaml`, the lines `XamlLines` joined by newlines): the lines are the printing of a workflow whose sequence is a log of the label followed by an If on the label being "billing" |
| MapperXaml.ClassNameIsAutogen | Generators/mapper_xaml.py:7 | the document's `x:Class` is "Autogen_" followed by the 32 hex digits of the UUID (40 characters) |
| MapperXaml.XamlLogsRoute | Generators/mapper_xaml.py:12-19 | the workflow logs "Auto-generated route: " + label first, then "Send to Billing Queue" for "billing" and "Send to <label> Queue" otherwise, which is Route(label) with a space before "Queue" |
| Client.StripSlashes | main.py:76 | `rstrip("/")`: a prefix of the input, with only slashes removed and no trailing slash left |
| Client.ChatUrlIgnoresTrailingSlashes | main.py:76 | any number of trailing slashes on the base URL gives the same chat URL |
| Client.ChatUrl | main.py:76 | the chat URL is a prefix of the base URL from which only trailing slashes were cut, followed by "/chat/completions", with no slash just before the path |
| Client.ChatPayload | main.py:60-74 | the chat body holds model, the system then user message, temperature and stream false, and has `response_format` (type json_schema, name ticket_result, the schema) iff a schema is given |
| Client.CallLMStudio | main.py:46-81 | posts exactly `ChatRequest` (chat URL, chat body, the given timeout) to the stripped base URL + "/chat/completions" with the given timeout and returns the decoded message content |
| Client.OllamaPayload | main.py:36 | the generate body has exactly the keys model, prompt and stream, with stream false |
| Client.CallOllama | main.py:32-43 | posts the generate body to the fixed local URL with timeout 120 and returns the decoded "response" text |
| Client.OllamaPrompt | main.py:114 | the prompt is the system message, a blank line, then the user message |
| Client.ChatContentReadsFirstChoice | main.py:80 | `ChatContent`: the text is the content of the first choice's message, whatever else the reply, choice and message hold and whatever choices follow; no choices, or no "choices" member, gives no text |
| Client.OllamaTextReadsResponse | main.py:42 | `OllamaText`: the text is the "response" member, the empty text when it is missing, and none for a reply that is not an object |
| Client.Interpret | main.py:39-43 | a transport error stays an error; otherwise the result is the decoded extracted text, and is an error exactly when extraction or decoding fails |
| Orchestrator.Lower | main.py:104 | lower-casing keeps the length and maps each character on its own |
| Orchestrator.ParseProvider | main.py:104-118 | LM Studio iff the lower-cased name is "lmstudio", Ollama iff it is "ollama", and no backend for any other name |
| Orchestrator.ProviderIgnoresCase | main.py:104-118 | the backend chosen for a name is the one chosen for its lower-cased form |
| Orchestrator.ProviderExamples | main.py:104-118 | "LMStudio" selects LM Studio, "OLLAMA" selects Ollama, "foo" selects none |
| Orchestrator.RunId | main.py:129 | the run id is the first 8 characters of the UUID hex |
| Orchestrator.Artifacts | main.py:132-137 | a run's artifacts are four writes, the first three to Workflows and the last to Logs |
| Orchestrator.SummaryNeedsNumber | main.py:140 | `Summarizable`: the confidence formats iff it is a number or a boolean; a missing confidence or a non-object result does not |
| Orchestrator.ArtifactFilesDistinct | main.py:132-137 | a run's four writes go to four different paths, all carrying the run id |
| Orchestrator.RunsDoNotCollide | main.py:129-137 | runs with different ids write disjoint sets of paths |
| Orchestrator.RunSpec | main.py:93-141 | a run makes no effect, one call, or one call and four writes; a completed run made all five |
| Orchestrator.Run | main.py:103-141 | the outcome and the calls and writes `run` makes are exactly those of `RunSpec` |
| Orchestrator.WriteArtifacts | main.py:132-137 | appends the workflow, the C# stub, the JavaScript stub and the run record, in that order |
| Orchestrator.ProviderGate | main.py:103-118 | an unknown provider ends the run with status 1 and no call or write; a known one makes exactly one call, first |
| Orchestrator.WritesFollowValidation | main.py:121-137 | a file is written iff the provider is known, the reply decoded, the result passed the schema and has a label; a failed validation ends with status 1 and no file |
| Orchestrator.RunWritesFourFiles | main.py:129-141 | a run that writes anything makes exactly four writes to the four run-id paths: the workflow, both stubs and the run record for the same label; it completes iff the confidence can be formatted and rich accepts the label's markup |
| Orchestrator.RequestPerProvider | main.py:104-115 | LM Studio gets the chat URL, timeout 120 and the schema as `response_format`; Ollama gets the fixed URL and the keys model, prompt and stream |

## Left out

- HTTP, `raise_for_status` and `response.json()` are the oracle `post`: it returns the decoded body or an error text.
- `json.loads` is the oracle `decode`, and the `.strip()` before it is folded into that oracle.
- `jsonschema.validate` is the oracle `valid`; JSON Schema semantics are not modelled.
- `load_template` (YAML, `schema.json`, jinja2), reading the ticket file and rendering the prompts happen before any effect; their results are the inputs `Prompts`.
- `uuid4()` is the two hex parameters `runHex` and `xamlHex`; in the source `to_xaml` draws its own UUID.
- Timing, latency, `round(latency, 3)`, `json.dumps(indent=2)` of the run record: the record is kept as the result value only.
- Temperature is a real number; `float()` of the template value and float formatting are not modelled. A failing conversion (a missing or non-numeric `constraints.temperature`) would end an LM Studio run with status 1 before any call; the model assumes it succeeds, and Orchestrator.ProviderGate's "a known name leads to exactly one call" rests on that.
- `rich` printing and its message texts, `typer` option parsing and the `mkdir` calls are not modelled; a failure of `mkdir` or `write_text` is not modelled.
- Orchestrator.Lower: lower-cases ASCII letters only. Python's `str.lower` maps other characters too; the only non-ASCII ones that lower to ASCII are U+0130 (to `i` and a combining dot) and KELVIN SIGN (to `k`), and neither can produce "lmstudio" or "ollama", so the provider choice is the same.
- Routing.LabelText: a non-string label is printed through the oracle `show` (Python's `format`/`str`).
- Orchestrator.RunWritesFourFiles: the summary fails when `confidence` is missing or neither a number nor a boolean, or when the oracle `markupOk` rejects the label; rich's markup grammar is not modelled, nor is an integer confidence too large for a float.
- JSON numbers are one kind, `Num(real)`: Python's distinction between `1` and `1.0` (which `str()` of a numeric label shows) is left to the oracle `show`, and the NaN and Infinity that `json.loads` accepts are not modelled.
- Stubs.CSharpReadBack, Stubs.JsReadBack: escaping is not modelled; labels holding a quote, backslash or a line break of the target language are left without a reading.
- MapperXaml.ToXamlIsRouteWorkflow: the `[="…"="billing"]` condition is kept as text; whether it is a valid VB expression is not modelled, nor is XML escaping of the label.
