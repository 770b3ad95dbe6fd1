/** The two routing stubs rendered from a label: a C# static class and a
    JavaScript module function. Each stub is a fixed text with the label
    spliced, unescaped, into a string literal; its one statement of logic
    is a conditional expression, modelled here as a small expression tree
    with an evaluator and one printer per target language. */
module Stubs {
  import opened Wrappers
  import opened Routing
  import Strings

  /** Values the emitted expressions compute with. */
  datatype Value = Text(s: string) | Truth(b: bool)

  /** The expressions the stubs' return statements are made of. */
  datatype Expr =
    | Name(id: string)                         // a local variable or parameter
    | Literal(s: string)                       // a string literal
    | Equal(left: Expr, right: Expr)           // C# `==`, JavaScript `===` on strings
    | Choose(test: Expr, yes: Expr, no: Expr)  // `test ? yes : no`
    | Plus(left: Expr, right: Expr)            // string concatenation with `+`
    | Interpolated(id: string, suffix: string) // C# `$"{id}suffix"`

  type Env = map<string, Value>

  /** What an expression computes in an environment; None is a name that is
      not bound or a value of the wrong kind (not modelled). */
  function Eval(e: Expr, env: Env): Option<Value> {
    match e
    case Name(x) => if x in env then Some(env[x]) else None
    case Literal(s) => Some(Text(s))
    case Equal(a, b) =>
      (match (Eval(a, env), Eval(b, env))
       case (Some(Text(x)), Some(Text(y))) => Some(Truth(x == y))
       case _ => None)
    case Choose(t, y, n) =>
      (match Eval(t, env)
       case Some(Truth(c)) => if c then Eval(y, env) else Eval(n, env)
       case _ => None)
    case Plus(a, b) =>
      (match (Eval(a, env), Eval(b, env))
       case (Some(Text(x)), Some(Text(y))) => Some(Text(x + y))
       case _ => None)
    case Interpolated(x, suffix) =>
      if x in env && env[x].Text? then Some(Text(env[x].s + suffix)) else None
  }

  /** The names an expression reads. */
  function FreeNames(e: Expr): set<string> {
    match e
    case Name(x) => {x}
    case Literal(_) => {}
    case Equal(a, b) => FreeNames(a) + FreeNames(b)
    case Choose(t, y, n) => FreeNames(t) + FreeNames(y) + FreeNames(n)
    case Plus(a, b) => FreeNames(a) + FreeNames(b)
    case Interpolated(x, _) => {x}
  }

  /** An expression reads nothing but the names it mentions. */
  lemma {:induction false} EvalReadsFreeNames(e: Expr, env1: Env, env2: Env)
    requires forall x :: x in FreeNames(e) ==> (x in env1 <==> x in env2) && (x in env1 ==> env1[x] == env2[x])
    ensures Eval(e, env1) == Eval(e, env2)
  {
    match e
    case Name(_) =>
    case Literal(_) =>
    case Equal(a, b) => EvalReadsFreeNames(a, env1, env2); EvalReadsFreeNames(b, env1, env2);
    case Choose(t, y, n) =>
      EvalReadsFreeNames(t, env1, env2); EvalReadsFreeNames(y, env1, env2); EvalReadsFreeNames(n, env1, env2);
    case Plus(a, b) => EvalReadsFreeNames(a, env1, env2); EvalReadsFreeNames(b, env1, env2);
    case Interpolated(_, _) =>
  }

  /** C# source text of an expression (no parentheses: enough for the
      expressions the stubs contain). */
  function CSharp(e: Expr): string {
    match e
    case Name(x) => x
    case Literal(s) => "\"" + s + "\""
    case Equal(a, b) => CSharp(a) + " == " + CSharp(b)
    case Choose(t, y, n) => CSharp(t) + " ? " + CSharp(y) + " : " + CSharp(n)
    case Plus(a, b) => CSharp(a) + " + " + CSharp(b)
    case Interpolated(x, suffix) => "$\"{" + x + "}" + suffix + "\""
  }

  /** JavaScript source text of an expression. */
  function JavaScript(e: Expr): string {
    match e
    case Name(x) => x
    case Literal(s) => "\"" + s + "\""
    case Equal(a, b) => JavaScript(a) + " === " + JavaScript(b)
    case Choose(t, y, n) => JavaScript(t) + " ? " + JavaScript(y) + " : " + JavaScript(n)
    case Plus(a, b) => JavaScript(a) + " + " + JavaScript(b)
    case Interpolated(x, suffix) => "`${" + x + "}" + suffix + "`"
  }

  /** The return expression of the C# stub: `{{label}}` in the Python
      template leaves a C# interpolation, not a Python one. */
  const CSharpRouteExpr := Choose(Equal(Name("label"), Literal(Billing)), Literal(BillingQueue), Interpolated("label", QueueSuffix))

  /** The return expression of the JavaScript stub. */
  const JavaScriptRouteExpr := Choose(Equal(Name("label"), Literal(Billing)), Literal(BillingQueue), Plus(Name("label"), Literal(QueueSuffix)))

  /** A generated router function: its parameter, the local it binds to a
      string literal, and the expression it returns. */
  datatype Router = Router(param: string, local: string, init: string, result: Expr)

  /** Calling the router with any argument. */
  function Call(r: Router, arg: Value): Option<Value> {
    Eval(r.result, map[r.param := arg, r.local := Text(r.init)])
  }

  function CSharpRouter(lbl: string): Router { Router("ticket", "label", lbl, CSharpRouteExpr) }

  function JavaScriptRouter(lbl: string): Router { Router("ticket", "label", lbl, JavaScriptRouteExpr) }

  // ----- the C# stub -----

  const CSharpHead := "// Autogen helper\npublic static class Router {\n  public static string RouteTicket(dynamic " + "ticket" + ") {\n    var " + "label" + " = \""
  const CSharpReturn := "label" + " == " + "\"billing\"" + " ? " + "\"BillingQueue\"" + " : " + "$\"{label}Queue\""
  const CSharpTail := "\";\n    return " + CSharpReturn + ";\n  }\n}"

  /** `to_csharp`: the label goes verbatim between the two fixed fragments,
      so cutting them off gives the label back. */
  function ToCSharp(lbl: string): (text: string)
    ensures Strings.Between(text, CSharpHead, CSharpTail) == Some(lbl)
  {
    Strings.BetweenRoundTrip(CSharpHead, lbl, CSharpTail);
    CSharpHead + lbl + CSharpTail
  }

  lemma CSharpPrintsRoute()
    ensures CSharp(CSharpRouteExpr) == CSharpReturn
  {
    assert CSharp(Literal(Billing)) == "\"billing\"";
    assert CSharp(Literal(BillingQueue)) == "\"BillingQueue\"";
    assert CSharp(Interpolated("label", QueueSuffix)) == "$\"{label}Queue\"";
  }

  /** The stub declares `RouteTicket(dynamic ticket)`, binds `label` to the
      spliced literal and returns the printed C# route expression. */
  lemma CSharpStubShape()
    ensures CSharpHead == "// Autogen helper\npublic static class Router {\n  public static string RouteTicket(dynamic " + CSharpRouter("").param + ") {\n    var " + CSharpRouter("").local + " = \""
    ensures CSharpTail == "\";\n    return " + CSharp(CSharpRouteExpr) + ";\n  }\n}"
  {
    assert CSharpRouter("").param == "ticket" && CSharpRouter("").local == "label";
    CSharpPrintsRoute();
  }

  /** How C# reads a file of the stub's shape back: the label is what stands
      between the fixed fragments, provided it is a plain literal body (a
      quote, backslash or line break would end the literal early, start an
      escape or not compile). */
  function ReadCSharp(text: string): Option<Router> {
    match Strings.Between(text, CSharpHead, CSharpTail)
    case Some(body) => if Strings.Plain(body) then Some(CSharpRouter(body)) else None
    case None => None
  }

  /** Reading a rendered stub recovers exactly the router for its label,
      for every plain label, and for no other label. */
  lemma CSharpReadBack(lbl: string)
    ensures ReadCSharp(ToCSharp(lbl)) == if Strings.Plain(lbl) then Some(CSharpRouter(lbl)) else None
  {
    Strings.BetweenRoundTrip(CSharpHead, lbl, CSharpTail);
  }

  /** Only rendered stubs are read as routers. */
  lemma CSharpReadSound(text: string)
    requires ReadCSharp(text).Some?
    ensures text == ToCSharp(ReadCSharp(text).value.init)
  {
    Strings.BetweenSound(text, CSharpHead, CSharpTail);
  }

  /** Different labels give different C# stubs. */
  lemma ToCSharpInjective(a: string, b: string)
    requires ToCSharp(a) == ToCSharp(b)
    ensures a == b
  {
    Strings.BetweenRoundTrip(CSharpHead, a, CSharpTail);
    Strings.BetweenRoundTrip(CSharpHead, b, CSharpTail);
  }

  // ----- the JavaScript stub -----

  const JavaScriptHead := "export function routeTicket(" + "ticket" + ") {\n  const " + "label" + " = \""
  const JavaScriptReturn := "label" + " === " + "\"billing\"" + " ? " + "\"BillingQueue\"" + " : " + "label" + " + " + "\"Queue\""
  const JavaScriptTail := "\";\n  return " + JavaScriptReturn + ";\n}"

  /** `to_js`: the label goes verbatim between the two fixed fragments, so
      cutting them off gives the label back. */
  function ToJs(lbl: string): (text: string)
    ensures Strings.Between(text, JavaScriptHead, JavaScriptTail) == Some(lbl)
  {
    Strings.BetweenRoundTrip(JavaScriptHead, lbl, JavaScriptTail);
    JavaScriptHead + lbl + JavaScriptTail
  }

  lemma JavaScriptPrintsRoute()
    ensures JavaScript(JavaScriptRouteExpr) == JavaScriptReturn
  {
    assert JavaScript(Literal(Billing)) == "\"billing\"";
    assert JavaScript(Literal(BillingQueue)) == "\"BillingQueue\"";
    assert JavaScript(Literal(QueueSuffix)) == "\"Queue\"";
  }

  /** The stub declares `routeTicket(ticket)`, binds `label` to the spliced
      literal and returns the printed JavaScript route expression. */
  lemma JavaScriptStubShape()
    ensures JavaScriptHead == "export function routeTicket(" + JavaScriptRouter("").param + ") {\n  const " + JavaScriptRouter("").local + " = \""
    ensures JavaScriptTail == "\";\n  return " + JavaScript(JavaScriptRouteExpr) + ";\n}"
  {
    assert JavaScriptRouter("").param == "ticket" && JavaScriptRouter("").local == "label";
    JavaScriptPrintsRoute();
  }

  /** How JavaScript reads a file of the stub's shape back: the label is what
      stands between the fixed fragments, provided JavaScript takes it
      literally. */
  function ReadJs(text: string): Option<Router> {
    match Strings.Between(text, JavaScriptHead, JavaScriptTail)
    case Some(body) => if Strings.JsPlain(body) then Some(JavaScriptRouter(body)) else None
    case None => None
  }

  lemma JsReadBack(lbl: string)
    ensures ReadJs(ToJs(lbl)) == if Strings.JsPlain(lbl) then Some(JavaScriptRouter(lbl)) else None
  {
    Strings.BetweenRoundTrip(JavaScriptHead, lbl, JavaScriptTail);
  }

  lemma JsReadSound(text: string)
    requires ReadJs(text).Some?
    ensures text == ToJs(ReadJs(text).value.init)
  {
    Strings.BetweenSound(text, JavaScriptHead, JavaScriptTail);
  }

  lemma ToJsInjective(a: string, b: string)
    requires ToJs(a) == ToJs(b)
    ensures a == b
  {
    Strings.BetweenRoundTrip(JavaScriptHead, a, JavaScriptTail);
    Strings.BetweenRoundTrip(JavaScriptHead, b, JavaScriptTail);
  }

  // ----- what the stubs compute -----

  /** The C# router returns Route of its baked-in label, whatever ticket it
      is called with: the parameter is never read. */
  lemma CSharpRoutes(lbl: string, ticket: Value)
    ensures "ticket" !in FreeNames(CSharpRouteExpr)
    ensures Call(CSharpRouter(lbl), ticket) == Some(Text(Route(lbl)))
  {
    var env := map["ticket" := ticket, "label" := Text(lbl)];
    assert Eval(Name("label"), env) == Some(Text(lbl));
    assert Eval(Equal(Name("label"), Literal(Billing)), env) == Some(Truth(lbl == Billing));
    assert Eval(Interpolated("label", QueueSuffix), env) == Some(Text(lbl + QueueSuffix));
    assert Call(CSharpRouter(lbl), ticket) == Eval(CSharpRouteExpr, env);
    if lbl == Billing {
      assert Eval(CSharpRouteExpr, env) == Eval(Literal(BillingQueue), env);
    } else {
      assert Eval(CSharpRouteExpr, env) == Eval(Interpolated("label", QueueSuffix), env);
    }
  }

  /** The JavaScript router returns Route of its baked-in label, whatever
      ticket it is called with. */
  lemma JsRoutes(lbl: string, ticket: Value)
    ensures "ticket" !in FreeNames(JavaScriptRouteExpr)
    ensures Call(JavaScriptRouter(lbl), ticket) == Some(Text(Route(lbl)))
  {
    var env := map["ticket" := ticket, "label" := Text(lbl)];
    assert Eval(Name("label"), env) == Some(Text(lbl));
    assert Eval(Equal(Name("label"), Literal(Billing)), env) == Some(Truth(lbl == Billing));
    assert Eval(Plus(Name("label"), Literal(QueueSuffix)), env) == Some(Text(lbl + QueueSuffix));
    assert Call(JavaScriptRouter(lbl), ticket) == Eval(JavaScriptRouteExpr, env);
    if lbl == Billing {
      assert Eval(JavaScriptRouteExpr, env) == Eval(Literal(BillingQueue), env);
    } else {
      assert Eval(JavaScriptRouteExpr, env) == Eval(Plus(Name("label"), Literal(QueueSuffix)), env);
    }
  }

  /** Whenever the C# stub reads back, so does the JavaScript stub, and then
      the two route every pair of tickets to the same queue, which is
      Route(label): "BillingQueue" for "billing", label + "Queue" otherwise.
      A JavaScript stub that reads back routes to Route(label) on its own. */
  lemma StubsAgree(lbl: string, t1: Value, t2: Value)
    ensures ReadCSharp(ToCSharp(lbl)).Some? ==> ReadJs(ToJs(lbl)).Some?
    ensures ReadCSharp(ToCSharp(lbl)).Some? ==>
      Call(ReadCSharp(ToCSharp(lbl)).value, t1) == Call(ReadJs(ToJs(lbl)).value, t2) == Some(Text(Route(lbl)))
    ensures ReadJs(ToJs(lbl)).Some? ==> Call(ReadJs(ToJs(lbl)).value, t2) == Some(Text(Route(lbl)))
  {
    CSharpReadBack(lbl);
    JsReadBack(lbl);
    if Strings.Plain(lbl) {
      Strings.PlainIsJsPlain(lbl);
    }
    CSharpRoutes(lbl, t1);
    JsRoutes(lbl, t2);
  }

  /** The two readers part on a line separator: JavaScript takes it inside a
      string literal, C# does not, so only the JavaScript stub holds it as
      its label. */
  lemma StubsPartOnLineSeparator()
    ensures ReadCSharp(ToCSharp("\U{2028}")) == None
    ensures ReadJs(ToJs("\U{2028}")) == Some(JavaScriptRouter("\U{2028}"))
  {
    CSharpReadBack("\U{2028}");
    JsReadBack("\U{2028}");
    assert !Strings.Plain("\U{2028}") by {
      assert "\U{2028}"[0] == '\U{2028}';
    }
  }
}
