/** The `run` command: pick the backend, make the one model call, gate on
    schema validation, then write the three artifacts and the run record
    under one run id. Every call made and every file written is appended
    to an effects log. Template loading, prompt rendering and reading the
    ticket happen before any effect and are inputs here; the schema check,
    the HTTP exchange, JSON decoding, Python's `str()` of a non-string
    label and both UUIDs are oracles or parameters. */
module Orchestrator {
  import opened Wrappers
  import opened Json
  import opened Client
  import opened Routing
  import Stubs
  import MapperXaml
  import Strings

  datatype Provider = LMStudio | Ollama

  /** Lower-casing of one character, ASCII letters only. */
  function LowerChar(c: char): char {
    if 'A' <= c <= 'Z' then (c as int + 32) as char else c
  }

  /** `str.lower()` restricted to ASCII letters. */
  function Lower(s: string): (r: string)
    ensures |r| == |s|
    ensures forall i :: 0 <= i < |s| ==> r[i] == LowerChar(s[i])
  {
    if s == [] then [] else [LowerChar(s[0])] + Lower(s[1..])
  }

  /** The provider option, compared case-insensitively. */
  function ParseProvider(name: string): (p: Option<Provider>)
    ensures p == Some(LMStudio) <==> Lower(name) == "lmstudio"
    ensures p == Some(Ollama) <==> Lower(name) == "ollama"
    ensures p.Some? <==> Lower(name) in {"lmstudio", "ollama"}
  {
    if Lower(name) == "lmstudio" then Some(LMStudio)
    else if Lower(name) == "ollama" then Some(Ollama)
    else None
  }

  /** Lower-casing twice is lower-casing once. */
  lemma LowerIdempotent(s: string)
    ensures Lower(Lower(s)) == Lower(s)
  {
    forall i | 0 <= i < |s| ensures Lower(Lower(s))[i] == Lower(s)[i] {
      var c := s[i];
      assert Lower(s)[i] == LowerChar(c);
    }
  }

  /** The provider is chosen by the lower-cased name: two spellings that
      differ only in ASCII case select the same backend, and only the two
      known names select one. */
  lemma ProviderIgnoresCase(name: string)
    ensures ParseProvider(Lower(name)) == ParseProvider(name)
  {
    LowerIdempotent(name);
  }

  /** "LMStudio" selects LM Studio, "OLLAMA" selects Ollama, "foo" is refused. */
  lemma ProviderExamples()
    ensures ParseProvider("LMStudio") == Some(LMStudio)
    ensures ParseProvider("OLLAMA") == Some(Ollama)
    ensures ParseProvider("foo") == None
  {
    assert Lower("LMStudio") == "lmstudio";
    assert Lower("OLLAMA") == "ollama";
    assert Lower("foo")[0] == 'f';
  }

  /** The request `run` sends for a provider. The loaded schema is passed to
      the chat backend; the Ollama prompt is the system message, a blank
      line and the user message. */
  function RequestFor(p: Provider, model: string, baseUrl: string, system: string, user: string, schema: Json, temperature: real): Request {
    match p
    case LMStudio => ChatRequest(baseUrl, model, system, user, SchemaArg(schema), temperature, DefaultTimeout)
    case Ollama => OllamaRequest(model, OllamaPrompt(system, user))
  }

  /** The loaded schema as `call_lmstudio`'s optional argument: a schema file
      holding JSON `null` loads as Python's None. */
  function SchemaArg(schema: Json): Option<Json> {
    if schema.Null? then None else Some(schema)
  }

  /** Where each backend's reply keeps the model's text. */
  function ReplyText(p: Provider): Json -> Option<string> {
    match p
    case LMStudio => ChatContent
    case Ollama => OllamaText
  }

  // ----- effects -----

  datatype Dir = Workflows | Logs

  /** A written file: a rendered document, or the run record holding the
      validated result (its latency is not modelled). */
  datatype Content = Document(text: string) | RunRecord(result: Json)

  datatype Effect = Call(request: Request) | Write(dir: Dir, name: string, content: Content)

  datatype Failure =
    | UnknownProvider(name: string)
    | BackendFailed(error: CallError)
    | SchemaViolation
    | NoLabel        // KeyError or TypeError of `out["label"]` in the first renderer
    | SummaryFailed  // the closing summary cannot format `out["confidence"]`, or rich rejects its markup

  datatype Outcome = Completed | Aborted(failure: Failure)

  /** Every failure leaves the process with status 1: SystemExit(1), or an
      uncaught exception. */
  function ExitCode(o: Outcome): int {
    if o.Completed? then 0 else 1
  }

  /** The run id: the first 8 hex digits of a fresh UUID. */
  function RunId(uuidHex: string): (id: string)
    requires |uuidHex| >= 8
    ensures |id| == 8 && id <= uuidHex
  {
    uuidHex[..8]
  }

  /** The four files of a run, in the order they are written. */
  function Artifacts(out: Json, lbl: string, id: string, xamlHex: string): (a: seq<Effect>)
    ensures |a| == 4
    ensures forall k | 0 <= k < |a| :: a[k].Write? && (a[k].dir == Logs <==> k == 3)
  {
    [ Write(Workflows, "RouteTicket_" + id + ".xaml", Document(MapperXaml.ToXaml(lbl, xamlHex))),
      Write(Workflows, "Router_" + id + ".cs", Document(Stubs.ToCSharp(lbl))),
      Write(Workflows, "router_" + id + ".js", Document(Stubs.ToJs(lbl))),
      Write(Logs, "result_" + id + ".json", RunRecord(out)) ]
  }

  /** The (directory, name) pairs an effects log writes. */
  function Files(effects: seq<Effect>): set<(Dir, string)> {
    if effects == [] then {}
    else (if effects[0].Write? then {(effects[0].dir, effects[0].name)} else {}) + Files(effects[1..])
  }

  /** `f"{out['confidence']:.2f}"` succeeds: the member exists and is a
      number (a boolean is an int in Python). */
  predicate Summarizable(out: Json) {
    match Member(out, "confidence")
    case Some(Num(_)) => true
    case Some(Bool(_)) => true
    case _ => false
  }

  /** The confidence formats exactly when it is a number or a boolean; a
      missing confidence, or a result that is not an object, does not. */
  lemma SummaryNeedsNumber(fields: map<string, Json>, c: Json, items: seq<Json>)
    ensures Summarizable(Obj(fields["confidence" := c])) <==> c.Num? || c.Bool?
    ensures "confidence" !in fields ==> !Summarizable(Obj(fields))
    ensures !Summarizable(Arr(items))
  {
  }

  /** The paths of a run's four files. */
  function ArtifactPaths(id: string): set<(Dir, string)> {
    {(Workflows, "RouteTicket_" + id + ".xaml"), (Workflows, "Router_" + id + ".cs"),
     (Workflows, "router_" + id + ".js"), (Logs, "result_" + id + ".json")}
  }

  /** The four artifacts of a run have four different paths, all named with
      the run id. */
  lemma ArtifactFilesDistinct(out: Json, lbl: string, id: string, xamlHex: string)
    ensures Files(Artifacts(out, lbl, id, xamlHex)) == ArtifactPaths(id)
    ensures |Files(Artifacts(out, lbl, id, xamlHex))| == 4
  {
    var a := Artifacts(out, lbl, id, xamlHex);
    var xaml, cs, js := "RouteTicket_" + id + ".xaml", "Router_" + id + ".cs", "router_" + id + ".js";
    var log := "result_" + id + ".json";
    assert a[3..][1..] == [];
    assert Files(a[3..]) == {(Logs, log)};
    assert a[2..][1..] == a[3..];
    assert Files(a[2..]) == {(Workflows, js), (Logs, log)};
    assert a[1..][1..] == a[2..];
    assert Files(a[1..]) == {(Workflows, cs), (Workflows, js), (Logs, log)};
    assert Files(a) == {(Workflows, xaml), (Workflows, cs), (Workflows, js), (Logs, log)};
    assert xaml[5] == 'T' && cs[5] == 'r';
    assert xaml[0] == 'R' && js[0] == 'r';
    assert cs[0] == 'R';
  }

  /** Two runs with different ids write to disjoint paths: neither
      overwrites the other's artifacts. */
  lemma RunsDoNotCollide(out1: Json, out2: Json, lbl1: string, lbl2: string, id1: string, id2: string, hex1: string, hex2: string)
    requires id1 != id2
    ensures Files(Artifacts(out1, lbl1, id1, hex1)) !! Files(Artifacts(out2, lbl2, id2, hex2))
  {
    ArtifactFilesDistinct(out1, lbl1, id1, hex1);
    ArtifactFilesDistinct(out2, lbl2, id2, hex2);
    SameKindDiffers("RouteTicket_", ".xaml", id1, id2);
    SameKindDiffers("Router_", ".cs", id1, id2);
    SameKindDiffers("router_", ".js", id1, id2);
    SameKindDiffers("result_", ".json", id1, id2);
    KindsDiffer(id1, id2);
  }

  lemma SameKindDiffers(prefix: string, suffix: string, id1: string, id2: string)
    requires id1 != id2
    ensures prefix + id1 + suffix != prefix + id2 + suffix
  {
    if prefix + id1 + suffix == prefix + id2 + suffix {
      Strings.AppendCancel(prefix + id1, prefix + id2, suffix);
      Strings.PrependCancel(prefix, id1, id2);
    }
  }

  /** The three document names never coincide, whatever the two ids. */
  lemma KindsDiffer(id1: string, id2: string)
    ensures "RouteTicket_" + id1 + ".xaml" != "Router_" + id2 + ".cs"
    ensures "RouteTicket_" + id1 + ".xaml" != "router_" + id2 + ".js"
    ensures "Router_" + id1 + ".cs" != "router_" + id2 + ".js"
    ensures "Router_" + id1 + ".cs" != "RouteTicket_" + id2 + ".xaml"
    ensures "router_" + id1 + ".js" != "RouteTicket_" + id2 + ".xaml"
    ensures "router_" + id1 + ".js" != "Router_" + id2 + ".cs"
  {
    assert ("RouteTicket_" + id1 + ".xaml")[5] == 'T' && ("Router_" + id2 + ".cs")[5] == 'r';
    assert ("Router_" + id1 + ".cs")[5] == 'r' && ("RouteTicket_" + id2 + ".xaml")[5] == 'T';
    assert ("router_" + id1 + ".js")[0] == 'r';
    assert ("router_" + id2 + ".js")[0] == 'r';
    assert ("RouteTicket_" + id1 + ".xaml")[0] == 'R' && ("Router_" + id1 + ".cs")[0] == 'R';
    assert ("RouteTicket_" + id2 + ".xaml")[0] == 'R' && ("Router_" + id2 + ".cs")[0] == 'R';
  }

  // ----- the run -----

  /** The command-line options `run` still uses once the prompts are
      rendered. */
  datatype Options = Options(provider: string, model: string, baseUrl: string)

  /** The rendered prompts and the loaded schema and temperature. */
  datatype Prompts = Prompts(system: string, user: string, schema: Json, temperature: real)

  /** Everything outside the program: the HTTP exchange, `json.loads`, the
      schema check, Python's `str()` of a non-string label, whether rich
      accepts the markup of the summary line holding a label, and the two
      UUIDs the run draws. */
  datatype World = World(
    post: Request -> Result<Json, string>,
    decode: string -> Option<Json>,
    valid: (Json, Json) -> bool,
    show: Json -> string,
    markupOk: string -> bool,
    runHex: string,
    xamlHex: string)

  predicate WellFormed(w: World) {
    MapperXaml.IsUuidHex(w.runHex) && MapperXaml.IsUuidHex(w.xamlHex)
  }

  /** The request `run` makes once the provider is known. */
  function RunRequest(p: Provider, o: Options, m: Prompts): Request {
    RequestFor(p, o.model, o.baseUrl, m.system, m.user, m.schema, m.temperature)
  }

  /** The reply to that request, decoded. */
  function RunReply(p: Provider, o: Options, m: Prompts, w: World): Result<Json, CallError> {
    Interpret(w.post(RunRequest(p, o, m)), ReplyText(p), w.decode)
  }

  /** What `run` does: its outcome and the calls and writes it makes, in
      order. */
  function RunSpec(o: Options, m: Prompts, w: World): (r: (Outcome, seq<Effect>))
    requires WellFormed(w)
    ensures |r.1| == 0 || |r.1| == 1 || |r.1| == 5
    ensures r.0 == Completed ==> |r.1| == 5
  {
    var p := ParseProvider(o.provider);
    if p.None? then (Aborted(UnknownProvider(o.provider)), [])
    else
      var call := [Call(RunRequest(p.value, o, m))];
      var reply := RunReply(p.value, o, m, w);
      if reply.Err? then (Aborted(BackendFailed(reply.error)), call)
      else if !w.valid(reply.value, m.schema) then (Aborted(SchemaViolation), call)
      else
        var lbl := LabelText(reply.value, w.show);
        if lbl.None? then (Aborted(NoLabel), call)
        else
          (if Summarizable(reply.value) && w.markupOk(lbl.value) then Completed else Aborted(SummaryFailed),
           call + Artifacts(reply.value, lbl.value, RunId(w.runHex), w.xamlHex))
  }

  /** `run`, from the rendered prompts on: dispatch on the provider, one
      call, the validation gate, then the four writes under one run id. */
  method Run(o: Options, m: Prompts, w: World) returns (outcome: Outcome, effects: seq<Effect>)
    requires WellFormed(w)
    ensures (outcome, effects) == RunSpec(o, m, w)
  {
    effects := [];
    var p := ParseProvider(o.provider);
    if p.None? {
      outcome := Aborted(UnknownProvider(o.provider));
      return;
    }
    var request, reply;
    if p.value == LMStudio {
      request, reply := CallLMStudio(w.post, w.decode, o.baseUrl, o.model, m.system, m.user, SchemaArg(m.schema), m.temperature, DefaultTimeout);
    } else {
      var prompt := OllamaPrompt(m.system, m.user);
      request, reply := CallOllama(w.post, w.decode, o.model, prompt);
    }
    assert request == RunRequest(p.value, o, m);
    assert reply == RunReply(p.value, o, m, w);
    effects := [Call(request)];
    if reply.Err? {
      outcome := Aborted(BackendFailed(reply.error));
      return;
    }
    var out := reply.value;
    if !w.valid(out, m.schema) {
      outcome := Aborted(SchemaViolation);
      return;
    }
    var id := RunId(w.runHex);
    var lbl := LabelText(out, w.show);
    if lbl.None? {
      outcome := Aborted(NoLabel);
      return;
    }
    effects := WriteArtifacts(effects, out, lbl.value, id, w.xamlHex);
    outcome := if Summarizable(out) && w.markupOk(lbl.value) then Completed else Aborted(SummaryFailed);
  }

  /** The four writes of `run`, appended to the log in the source's order:
      workflow, C# stub, JavaScript stub, run record. */
  method WriteArtifacts(log: seq<Effect>, out: Json, lbl: string, id: string, xamlHex: string)
    returns (effects: seq<Effect>)
    ensures effects == log + Artifacts(out, lbl, id, xamlHex)
  {
    effects := log;
    effects := effects + [Write(Workflows, "RouteTicket_" + id + ".xaml", Document(MapperXaml.ToXaml(lbl, xamlHex)))];
    effects := effects + [Write(Workflows, "Router_" + id + ".cs", Document(Stubs.ToCSharp(lbl)))];
    effects := effects + [Write(Workflows, "router_" + id + ".js", Document(Stubs.ToJs(lbl)))];
    effects := effects + [Write(Logs, "result_" + id + ".json", RunRecord(out))];
  }

  // ----- properties of a run -----

  /** The provider is checked before anything else: an unknown name ends the
      run with status 1 and neither a call nor a write; a known name always
      leads to exactly one call, made first (the template's temperature is
      taken to be a number). */
  lemma ProviderGate(o: Options, m: Prompts, w: World)
    requires WellFormed(w)
    ensures var (outcome, effects) := RunSpec(o, m, w);
      && (ParseProvider(o.provider).None? <==> effects == [])
      && (ParseProvider(o.provider).None? ==> outcome == Aborted(UnknownProvider(o.provider)) && ExitCode(outcome) == 1)
      && (ParseProvider(o.provider).Some? ==> effects[0] == Call(RunRequest(ParseProvider(o.provider).value, o, m)))
      && (forall i | 0 <= i < |effects| :: effects[i].Call? <==> i == 0)
  {
    var (outcome, effects) := RunSpec(o, m, w);
    var p := ParseProvider(o.provider);
    if p.Some? {
      var r := RunReply(p.value, o, m, w);
      if r.Ok? && w.valid(r.value, m.schema) && LabelText(r.value, w.show).Some? {
        var a := Artifacts(r.value, LabelText(r.value, w.show).value, RunId(w.runHex), w.xamlHex);
        CallThenWrites(Call(RunRequest(p.value, o, m)), a);
      }
    }
  }

  /** A call followed by writes only holds its one call first. */
  lemma CallThenWrites(call: Effect, writes: seq<Effect>)
    requires call.Call?
    requires forall k | 0 <= k < |writes| :: writes[k].Write?
    ensures forall i | 0 <= i < |[call] + writes| :: ([call] + writes)[i].Call? <==> i == 0
  {
    var e := [call] + writes;
    forall i | 0 <= i < |e| ensures e[i].Call? <==> i == 0 {
      if i > 0 {
        assert e[i] == writes[i - 1];
      }
    }
  }

  /** Nothing is written unless the provider is known, the reply decoded,
      the result passed schema validation and it has a label: a result that
      fails validation ends the run with status 1 and no file. */
  lemma WritesFollowValidation(o: Options, m: Prompts, w: World)
    requires WellFormed(w)
    ensures var (outcome, effects) := RunSpec(o, m, w);
      Files(effects) != {} <==>
        && ParseProvider(o.provider).Some?
        && var r := RunReply(ParseProvider(o.provider).value, o, m, w);
        && r.Ok?
        && w.valid(r.value, m.schema)
        && LabelText(r.value, w.show).Some?
    ensures var (outcome, effects) := RunSpec(o, m, w);
      ParseProvider(o.provider).Some? ==>
        var r := RunReply(ParseProvider(o.provider).value, o, m, w);
        r.Ok? && !w.valid(r.value, m.schema) ==>
          outcome == Aborted(SchemaViolation) && ExitCode(outcome) == 1 && Files(effects) == {}
  {
    var (outcome, effects) := RunSpec(o, m, w);
    var p := ParseProvider(o.provider);
    if p.Some? {
      var call := [Call(RunRequest(p.value, o, m))];
      assert Files(call) == {} by {
        assert call[1..] == [];
      }
      var r := RunReply(p.value, o, m, w);
      if r.Ok? && w.valid(r.value, m.schema) && LabelText(r.value, w.show).Some? {
        var a := Artifacts(r.value, LabelText(r.value, w.show).value, RunId(w.runHex), w.xamlHex);
        assert (call + a)[1..] == a;
        ArtifactFilesDistinct(r.value, LabelText(r.value, w.show).value, RunId(w.runHex), w.xamlHex);
      }
    }
  }

  /** A run that gets past the label writes exactly four files, all named
      with the one run id (the first 8 hex digits of its UUID): the workflow,
      the two stubs for the same label and the run record of the validated
      result. It completes unless the closing summary cannot format the
      confidence or rich rejects the label's markup, in which case the files
      stay written but the status is 1. */
  lemma RunWritesFourFiles(o: Options, m: Prompts, w: World)
    requires WellFormed(w)
    ensures var (outcome, effects) := RunSpec(o, m, w);
      Files(effects) != {} ==>
        && |effects| == 5
        && Files(effects) == ArtifactPaths(RunId(w.runHex))
        && |Files(effects)| == 4
        && var r := RunReply(ParseProvider(o.provider).value, o, m, w);
        && var lbl := LabelText(r.value, w.show).value;
        && effects[1].content == Document(MapperXaml.ToXaml(lbl, w.xamlHex))
        && effects[2].content == Document(Stubs.ToCSharp(lbl))
        && effects[3].content == Document(Stubs.ToJs(lbl))
        && effects[4].content == RunRecord(r.value)
        && (outcome == Completed <==> Summarizable(r.value) && w.markupOk(lbl))
    ensures var (outcome, effects) := RunSpec(o, m, w);
      outcome == Completed ==> Files(effects) == ArtifactPaths(RunId(w.runHex))
  {
    var (outcome, effects) := RunSpec(o, m, w);
    WritesFollowValidation(o, m, w);
    var p := ParseProvider(o.provider);
    if p.Some? {
      var call := [Call(RunRequest(p.value, o, m))];
      var r := RunReply(p.value, o, m, w);
      if r.Ok? && w.valid(r.value, m.schema) && LabelText(r.value, w.show).Some? {
        var a := Artifacts(r.value, LabelText(r.value, w.show).value, RunId(w.runHex), w.xamlHex);
        assert (call + a)[1..] == a;
        ArtifactFilesDistinct(r.value, LabelText(r.value, w.show).value, RunId(w.runHex), w.xamlHex);
      }
    }
  }

  /** With LM Studio the request goes to the chat URL of the base URL and
      asks for structured output against the loaded schema unless that
      schema is JSON `null`; with
      Ollama it goes to the fixed generate URL, without a schema. */
  lemma RequestPerProvider(o: Options, m: Prompts)
    ensures ParseProvider(o.provider) == Some(LMStudio) ==>
      var q := RunRequest(LMStudio, o, m);
      && q.url == ChatUrl(o.baseUrl)
      && q.timeout == DefaultTimeout
      && q.body.Obj?
      && ("response_format" in q.body.fields <==> m.schema != Null)
      && (m.schema != Null ==> q.body.fields["response_format"] == ResponseFormat(m.schema))
    ensures ParseProvider(o.provider) == Some(Ollama) ==>
      var q := RunRequest(Ollama, o, m);
      && q.url == OllamaUrl
      && q.body.Obj?
      && q.body.fields.Keys == {"model", "prompt", "stream"}
      && q.body.fields["prompt"] == Str(m.system + "\n\n" + m.user)
  {
    var prompt := OllamaPrompt(m.system, m.user);
    assert prompt == m.system + "\n\n" + m.user;
  }
}
