/** The routing policy shared by the three generated artifacts, and the one
    field of the classification result that the generators read. */
module Routing {
  import opened Wrappers
  import opened Json
  import Strings

  const Billing := "billing"
  const BillingQueue := "BillingQueue"
  const QueueSuffix := "Queue"

  /** The queue a generated router sends a ticket to, by an exact,
      case-sensitive comparison with "billing": a stem followed by "Queue",
      the capitalised "Billing" for "billing" and the label itself
      otherwise. */
  function Route(lbl: string): (q: string)
    ensures |q| >= |QueueSuffix|
    ensures q[|q| - |QueueSuffix|..] == QueueSuffix
    ensures q[..|q| - |QueueSuffix|] == if lbl == Billing then "Billing" else lbl
  {
    if lbl == Billing then BillingQueue
    else
      var q := lbl + QueueSuffix;
      assert q[|lbl|..] == QueueSuffix && q[..|lbl|] == lbl;
      q
  }

  /** The fixed billing queue is reached by "billing" and, through the
      generic branch, by "Billing" too; by no other label. */
  lemma RouteToBillingQueue(lbl: string)
    ensures Route(lbl) == BillingQueue <==> lbl == Billing || lbl == "Billing"
  {
    if lbl != Billing && Route(lbl) == BillingQueue {
      assert lbl + QueueSuffix == "Billing" + QueueSuffix;
      Strings.AppendCancel(lbl, "Billing", QueueSuffix);
    }
  }

  /** Two labels share a queue only when they are equal or are the pair
      "billing"/"Billing". */
  lemma RouteCollisions(a: string, b: string)
    ensures Route(a) == Route(b) <==> a == b || (a in {Billing, "Billing"} && b in {Billing, "Billing"})
  {
    RouteToBillingQueue(a);
    RouteToBillingQueue(b);
    if Route(a) == Route(b) && a != Billing && b != Billing {
      Strings.AppendCancel(a, b, QueueSuffix);
    }
  }

  /** The text a generator splices in for `result["label"]`: a string label
      verbatim, any other value as Python's `str()` prints it (`show`).
      None is the KeyError or TypeError of the lookup. */
  function LabelText(result: Json, show: Json -> string): (r: Option<string>)
    ensures r.Some? <==> result.Obj? && "label" in result.fields
    ensures r.Some? && result.fields["label"].Str? ==> r.value == result.fields["label"].s
    ensures r.Some? && !result.fields["label"].Str? ==> r.value == show(result.fields["label"])
  {
    match Member(result, "label")
    case None => None
    case Some(Str(s)) => Some(s)
    case Some(v) => Some(show(v))
  }

  /** The label text is read from the "label" member only: changing or
      adding any other member of the result leaves it as it was, and a
      string label comes out unchanged. */
  lemma LabelOnly(fields: map<string, Json>, key: string, v: Json, show: Json -> string)
    requires key != "label"
    ensures LabelText(Obj(fields[key := v]), show) == LabelText(Obj(fields), show)
    ensures "label" in fields && fields["label"].Str? ==> LabelText(Obj(fields), show) == Some(fields["label"].s)
    ensures "label" !in fields ==> LabelText(Obj(fields), show) == None
  {
    assert Member(Obj(fields[key := v]), "label") == Member(Obj(fields), "label");
  }
}
