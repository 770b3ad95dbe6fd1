/** The workflow document rendered from a label: a UiPath activity whose
    sequence logs the label and then branches on it. The random class-name
    suffix is a parameter (the hex form of a fresh UUID). */
module MapperXaml {
  import opened Wrappers
  import opened Routing
  import Strings

  /** The hex form of a UUID as Python prints it: 32 lower-case hex digits. */
  predicate IsUuidHex(hex: string) {
    |hex| == 32 && forall i :: 0 <= i < |hex| ==> hex[i] in "0123456789abcdef"
  }

  /** Lines joined by line feeds, with none after the last: a triple-quoted
      Python string. */
  function Join(lines: seq<string>): string {
    if lines == [] then ""
    else if |lines| == 1 then lines[0]
    else lines[0] + "\n" + Join(lines[1..])
  }

  const ClassOpen := "<Activity x:Class=\""
  const ClassPrefix := "Autogen_"
  const Opening := "Auto-generated route: "
  const BillingMessage := "Send to Billing Queue"

  /** The lines of `to_xaml`'s document, the UUID hex passed in: the label
      goes verbatim into the opening log text, the left side of the
      condition and the else-branch log text. */
  function XamlLines(lbl: string, hex: string): seq<string> {
    [ ClassOpen + (ClassPrefix + hex) + "\"",
      " xmlns=\"http://schemas.microsoft.com/netfx/2009/xaml/activities\"",
      " xmlns:x=\"http://schemas.microsoft.com/winfx/2006/xaml\"",
      " xmlns:ui=\"http://schemas.uipath.com/workflow/activities\">",
      "  <Sequence>",
      "    <ui:LogMessage Level=\"Info\" Text=\"" + (Opening + lbl) + "\" />",
      "    <If>",
      "      <If.Condition>[=\"" + lbl + "\"=\"" + Billing + "\"]</If.Condition>",
      "      <If.Then>",
      "        <ui:LogMessage Level=\"Info\" Text=\"" + BillingMessage + "\" />",
      "      </If.Then>",
      "      <If.Else>",
      "        <ui:LogMessage Level=\"Info\" Text=\"" + ("Send to " + lbl + " Queue") + "\" />",
      "      </If.Else>",
      "    </If>",
      "  </Sequence>",
      "</Activity>" ]
  }

  /** `to_xaml`; ToXamlIsRouteWorkflow and ClassNameIsAutogen below state
      what the document is. */
  function ToXaml(lbl: string, hex: string): string {
    Join(XamlLines(lbl, hex))
  }

  // ----- the document as a workflow -----

  /** An activity: a log message, or a branch on the equality of two
      string literals with one activity on each side. */
  datatype Step =
    | Log(message: string)
    | If(left: string, right: string, onTrue: Step, onFalse: Step)

  datatype Workflow = Workflow(className: string, sequence: seq<Step>)

  /** The workflow to_xaml describes: a log step, then the branch, inside
      one Sequence. */
  function RouteWorkflow(lbl: string, hex: string): Workflow {
    Workflow(ClassPrefix + hex, [
      Log(Opening + lbl),
      If(lbl, Billing, Log(BillingMessage), Log("Send to " + lbl + " Queue"))
    ])
  }

  /** The XAML lines of one step, each prefixed by `indent`; nested
      elements are indented two more spaces, nested steps four. */
  function StepLines(s: Step, indent: string): seq<string> {
    match s
    case Log(m) => [indent + "<ui:LogMessage Level=\"Info\" Text=\"" + m + "\" />"]
    case If(l, r, a, b) =>
      [indent + "<If>",
       indent + "  <If.Condition>[=\"" + l + "\"=\"" + r + "\"]</If.Condition>",
       indent + "  <If.Then>"]
      + StepLines(a, indent + "    ")
      + [indent + "  </If.Then>",
         indent + "  <If.Else>"]
      + StepLines(b, indent + "    ")
      + [indent + "  </If.Else>",
         indent + "</If>"]
  }

  function SequenceLines(steps: seq<Step>, indent: string): seq<string> {
    if steps == [] then [] else StepLines(steps[0], indent) + SequenceLines(steps[1..], indent)
  }

  /** The XAML lines of a workflow. */
  function WorkflowLines(w: Workflow): seq<string> {
    [ ClassOpen + w.className + "\"",
      " xmlns=\"http://schemas.microsoft.com/netfx/2009/xaml/activities\"",
      " xmlns:x=\"http://schemas.microsoft.com/winfx/2006/xaml\"",
      " xmlns:ui=\"http://schemas.uipath.com/workflow/activities\">",
      "  <Sequence>" ]
    + SequenceLines(w.sequence, "    ")
    + [ "  </Sequence>",
        "</Activity>" ]
  }

  /** The log messages a sequence of steps emits when it runs. */
  function Messages(steps: seq<Step>): seq<string> {
    if steps == [] then [] else StepMessages(steps[0]) + Messages(steps[1..])
  }

  function StepMessages(s: Step): seq<string> {
    match s
    case Log(m) => [m]
    case If(l, r, a, b) => if l == r then StepMessages(a) else StepMessages(b)
  }

  /** A log step's line, for the two depths the document uses. */
  lemma LogLine(m: string)
    ensures StepLines(Log(m), "    ") == ["    <ui:LogMessage Level=\"Info\" Text=\"" + m + "\" />"]
  {
    assert "    " + "<ui:LogMessage Level=\"Info\" Text=\"" == "    <ui:LogMessage Level=\"Info\" Text=\"";
  }

  lemma NestedLogLine(m: string)
    ensures StepLines(Log(m), "    " + "    ") == ["        <ui:LogMessage Level=\"Info\" Text=\"" + m + "\" />"]
  {
    assert "    " + "    " == "        ";
    assert "    " + "    " + "<ui:LogMessage Level=\"Info\" Text=\"" == "        <ui:LogMessage Level=\"Info\" Text=\"";
  }

  lemma BranchLines(lbl: string)
    ensures StepLines(RouteWorkflow(lbl, "").sequence[1], "    ") == [
      "    <If>",
      "      <If.Condition>[=\"" + lbl + "\"=\"" + Billing + "\"]</If.Condition>",
      "      <If.Then>",
      "        <ui:LogMessage Level=\"Info\" Text=\"" + BillingMessage + "\" />",
      "      </If.Then>",
      "      <If.Else>",
      "        <ui:LogMessage Level=\"Info\" Text=\"" + ("Send to " + lbl + " Queue") + "\" />",
      "      </If.Else>",
      "    </If>" ]
  {
    var ind := "    ";
    NestedLogLine(BillingMessage);
    NestedLogLine("Send to " + lbl + " Queue");
    assert ind + "<If>" == "    <If>";
    assert ind + "  <If.Condition>[=\"" == "      <If.Condition>[=\"";
    assert ind + "  <If.Then>" == "      <If.Then>";
    assert ind + "  </If.Then>" == "      </If.Then>";
    assert ind + "  <If.Else>" == "      <If.Else>";
    assert ind + "  </If.Else>" == "      </If.Else>";
    assert ind + "</If>" == "    </If>";
  }

  /** The document to_xaml renders is the XAML of RouteWorkflow, line for
      line: one Sequence holding the log step and then the branch. */
  lemma ToXamlIsRouteWorkflow(lbl: string, hex: string)
    ensures XamlLines(lbl, hex) == WorkflowLines(RouteWorkflow(lbl, hex))
  {
    var steps := RouteWorkflow(lbl, hex).sequence;
    assert SequenceLines(steps[1..], "    ") == StepLines(steps[1], "    ") + SequenceLines(steps[1..][1..], "    ");
    assert steps[1..][1..] == [];
    assert SequenceLines(steps, "    ") == StepLines(steps[0], "    ") + StepLines(steps[1], "    ");
    LogLine(Opening + lbl);
    BranchLines(lbl);
    var lines := XamlLines(lbl, hex);
    assert SequenceLines(steps, "    ") == lines[5..15];
    assert lines == lines[..5] + lines[5..15] + lines[15..];
  }

  /** The value of the root element's `x:Class` attribute: what follows
      `<Activity x:Class="` up to the next double quote. */
  function ClassNameOf(text: string): Option<string> {
    if |ClassOpen| <= |text| && text[..|ClassOpen|] == ClassOpen then
      var rest := text[|ClassOpen|..];
      var k := Strings.IndexOf(rest, '"');
      if k < |rest| then Some(rest[..k]) else None
    else None
  }

  /** The document's class is "Autogen_" followed by the UUID hex, 40
      characters of which the last 32 are lower-case hex digits. */
  lemma ClassNameIsAutogen(lbl: string, hex: string)
    requires IsUuidHex(hex)
    ensures ClassNameOf(ToXaml(lbl, hex)) == Some(ClassPrefix + hex)
    ensures |ClassPrefix + hex| == 40
  {
    var name := ClassPrefix + hex;
    var lines := XamlLines(lbl, hex);
    var tail := "\n" + Join(lines[1..]);
    assert ToXaml(lbl, hex) == lines[0] + tail;
    assert ToXaml(lbl, hex) == ClassOpen + (name + "\"" + tail);
    assert '"' !in name by {
      forall i | 0 <= i < |name| ensures name[i] != '"' {
        if i >= |ClassPrefix| {
          assert name[i] == hex[i - |ClassPrefix|];
        }
      }
    }
    var text := ToXaml(lbl, hex);
    var rest := name + "\"" + tail;
    assert text[..|ClassOpen|] == ClassOpen;
    assert text[|ClassOpen|..] == rest;
    assert rest == name + ['"'] + tail;
    Strings.IndexOfFirst(name, '"', tail);
    assert rest[..|name|] == name;
  }

  /** Running the workflow tree logs the label, then the queue the ticket
      is sent to: the fixed "Billing Queue" for "billing" and "<label> Queue"
      otherwise, which is the stubs' Route(label) with a space before
      "Queue". */
  lemma XamlLogsRoute(lbl: string, hex: string)
    ensures var m := Messages(RouteWorkflow(lbl, hex).sequence);
      && |m| == 2
      && m[0] == Opening + lbl
      && m[1] == (if lbl == Billing then BillingMessage else "Send to " + lbl + " Queue")
      && m[1] == "Send to " + Route(lbl)[..|Route(lbl)| - |QueueSuffix|] + " Queue"
  {
    var steps := RouteWorkflow(lbl, hex).sequence;
    assert steps[1..][1..] == [];
    assert Messages(steps[1..]) == StepMessages(steps[1]) + Messages(steps[1..][1..]);
    assert Messages(steps) == StepMessages(steps[0]) + StepMessages(steps[1]);
    if lbl == Billing {
      assert Route(lbl)[..|Route(lbl)| - |QueueSuffix|] == "Billing";
    } else {
      assert Route(lbl)[..|Route(lbl)| - |QueueSuffix|] == lbl;
    }
  }
}
