/** The strings behind workflow ids and idempotency keys, and why different executions, activities and
    documents never share one. */
module Naming {
  import opened Prelude
  import opened Applications
  import opened Store
  import Decimal

  function WorkflowName(wf: WorkflowId): string
  {
    "application:" + wf.tenant + ":" + wf.app + ":v" + Decimal.Show(wf.version)
  }

  /** A key as it is stored: a client's own text, or a name derived from the activity that runs. */
  function KeyText(k: IdempotencyKey): string
  {
    match k
    case ClientKey(text) => text
    case ActivityKey(wf, activity) => WorkflowName(wf) + ":" + Decimal.Show(activity)
    case DocumentKey(wf, activity, document) => WorkflowName(wf) + ":" + Decimal.Show(activity) + ":" + document
  }

  predicate NoColon(s: string)
  {
    ':' !in s
  }

  /** Application and document ids come from the generator, which never produces a colon. The tenant
      is whatever the caller's header parsed to, and may hold colons. */
  predicate Generated(wf: WorkflowId)
  {
    NoColon(wf.app)
  }

  lemma EarlierColon(a: string, b: string, c: string, d: string)
    requires a + ":" + b == c + ":" + d && |a| < |c|
    ensures ':' in b
  {
    assert (a + ":" + b)[|c|] == ':';
    assert b[|c| - |a| - 1] == (a + ":" + b)[|c|];
  }

  /** Splitting at the last colon is unambiguous. */
  lemma LastColon(a: string, b: string, c: string, d: string)
    requires a + ":" + b == c + ":" + d
    requires NoColon(b) && NoColon(d)
    ensures a == c && b == d
  {
    if |a| < |c| {
      EarlierColon(a, b, c, d);
      assert false;
    }
    if |c| < |a| {
      EarlierColon(c, d, a, b);
      assert false;
    }
    var s := a + ":" + b;
    assert s[..|a|] == a && s[..|c|] == c;
    assert s[|a| + 1..] == b && s[|c| + 1..] == d;
  }

  lemma ShowHasNoColon(n: nat)
    ensures NoColon(Decimal.Show(n))
  {
    var s := Decimal.Show(n);
    forall i | 0 <= i < |s| ensures s[i] != ':' {
      assert Decimal.IsDigit(s[i]);
    }
  }

  /** A workflow id names one version of one application of one tenant. */
  lemma WorkflowNameInjective(a: WorkflowId, b: WorkflowId)
    requires Generated(a) && Generated(b)
    requires WorkflowName(a) == WorkflowName(b)
    ensures a == b
  {
    var va, vb := "v" + Decimal.Show(a.version), "v" + Decimal.Show(b.version);
    ShowHasNoColon(a.version);
    ShowHasNoColon(b.version);
    var fa, fb := "application:" + a.tenant + ":" + a.app, "application:" + b.tenant + ":" + b.app;
    assert WorkflowName(a) == fa + ":" + va;
    assert WorkflowName(b) == fb + ":" + vb;
    LastColon(fa, va, fb, vb);
    assert va[1..] == Decimal.Show(a.version) && vb[1..] == Decimal.Show(b.version);
    Decimal.ShowInjective(a.version, b.version);
    var ta, tb := "application:" + a.tenant, "application:" + b.tenant;
    LastColon(ta, a.app, tb, b.app);
    assert |"application:"| == 12;
    assert ta[12..] == a.tenant && tb[12..] == b.tenant;
  }

  /** What kind of key each operation is used with. */
  predicate KeyFits(operation: Operation, k: IdempotencyKey)
  {
    match operation
    case CreateApplication => k.ClientKey?
    case SubmitApplication => k.ClientKey?
    case ResubmitApplication => k.ClientKey?
    case UploadDocument => k.ClientKey?
    case ProcessDocument => k.DocumentKey? && Generated(k.workflow) && NoColon(k.document)
    case _ => k.ActivityKey? && Generated(k.workflow)
  }

  /** Keys that the program keeps apart stay apart as text: within one operation two keys print alike
      only when they are the same key. A key of an activity is thus never taken by another attempt
      of another execution, activity or document. */
  lemma KeyTextInjective(operation: Operation, a: IdempotencyKey, b: IdempotencyKey)
    requires KeyFits(operation, a) && KeyFits(operation, b)
    requires KeyText(a) == KeyText(b)
    ensures a == b
  {
    if !a.ClientKey? {
      ShowHasNoColon(a.activity);
      ShowHasNoColon(b.activity);
      var fa, fb := WorkflowName(a.workflow) + ":" + Decimal.Show(a.activity), WorkflowName(b.workflow) + ":" + Decimal.Show(b.activity);
      if a.DocumentKey? {
        LastColon(fa, a.document, fb, b.document);
      }
      LastColon(WorkflowName(a.workflow), Decimal.Show(a.activity), WorkflowName(b.workflow), Decimal.Show(b.activity));
      Decimal.ShowInjective(a.activity, b.activity);
      WorkflowNameInjective(a.workflow, b.workflow);
    }
  }

  /** It does rest on the generated ids: with a colon in an application id two cases share a name. */
  lemma ColonsWouldCollide()
    ensures WorkflowId("t", "x:y", 2) != WorkflowId("t:x", "y", 2)
    ensures WorkflowName(WorkflowId("t", "x:y", 2)) == WorkflowName(WorkflowId("t:x", "y", 2))
  {
    var a, b := WorkflowId("t", "x:y", 2), WorkflowId("t:x", "y", 2);
    assert a.tenant + ":" + a.app == b.tenant + ":" + b.app == "t:x:y";
    assert WorkflowName(a) == "application:" + (a.tenant + ":" + a.app) + ":v" + Decimal.Show(2);
    assert WorkflowName(b) == "application:" + (b.tenant + ":" + b.app) + ":v" + Decimal.Show(2);
    assert a.app[1] == ':';
    assert b.app != a.app;
  }
}
