/** The application state machine: the transition table and what every path through it keeps. */
module CaseStatus {

  datatype Status =
    | Draft
    | Submitted
    | IntakeValidation
    | DocumentProcessing
    | Verification
    | PolicyEvaluation
    | AffordabilityEvaluation
    | FraudAnalysis
    | RiskSynthesis
    | AwaitingHumanReview
    | Approved
    | Declined
    | NeedsMoreInformation
    | Escalated
    | Cancelled

  /** The string each status is stored and published under. */
  function Name(s: Status): (name: string)
  {
    match s
    case Draft => "DRAFT"
    case Submitted => "SUBMITTED"
    case IntakeValidation => "INTAKE_VALIDATION"
    case DocumentProcessing => "DOCUMENT_PROCESSING"
    case Verification => "VERIFICATION"
    case PolicyEvaluation => "POLICY_EVALUATION"
    case AffordabilityEvaluation => "AFFORDABILITY_EVALUATION"
    case FraudAnalysis => "FRAUD_ANALYSIS"
    case RiskSynthesis => "RISK_SYNTHESIS"
    case AwaitingHumanReview => "AWAITING_HUMAN_REVIEW"
    case Approved => "APPROVED"
    case Declined => "DECLINED"
    case NeedsMoreInformation => "NEEDS_MORE_INFORMATION"
    case Escalated => "ESCALATED"
    case Cancelled => "CANCELLED"
  }

  const TERMINAL_STATUSES: set<Status> := {Approved, Declined, Cancelled}

  const CANCELLABLE_FROM: set<Status> := set s: Status | IsCancellable(s)

  predicate IsCancellable(s: Status)
  {
    match s
    case Draft => true
    case Submitted => true
    case IntakeValidation => true
    case DocumentProcessing => true
    case Verification => true
    case PolicyEvaluation => true
    case AffordabilityEvaluation => true
    case FraudAnalysis => true
    case RiskSynthesis => true
    case AwaitingHumanReview => true
    case NeedsMoreInformation => true
    case Escalated => true
    case _ => false
  }

  const FORWARD_PIPELINE: map<Status, Status> := map[
    Draft := Submitted,
    Submitted := IntakeValidation,
    IntakeValidation := DocumentProcessing,
    DocumentProcessing := Verification,
    Verification := PolicyEvaluation,
    PolicyEvaluation := AffordabilityEvaluation,
    AffordabilityEvaluation := FraudAnalysis,
    FraudAnalysis := RiskSynthesis,
    RiskSynthesis := AwaitingHumanReview
  ]

  const CAN_ESCALATE_TO_HUMAN_REVIEW: set<Status> := set s: Status | CanEscalate(s)

  predicate CanEscalate(s: Status)
  {
    match s
    case IntakeValidation => true
    case DocumentProcessing => true
    case Verification => true
    case PolicyEvaluation => true
    case AffordabilityEvaluation => true
    case FraudAnalysis => true
    case RiskSynthesis => true
    case _ => false
  }

  const ALL_STATUSES: set<Status> := {
    Draft, Submitted, IntakeValidation, DocumentProcessing, Verification, PolicyEvaluation,
    AffordabilityEvaluation, FraudAnalysis, RiskSynthesis, AwaitingHumanReview, Approved,
    Declined, NeedsMoreInformation, Escalated, Cancelled
  }

  lemma EveryStatusIsListed(s: Status)
    ensures s in ALL_STATUSES
  {
    match s
    case Draft => case Submitted => case IntakeValidation => case DocumentProcessing =>
    case Verification => case PolicyEvaluation => case AffordabilityEvaluation =>
    case FraudAnalysis => case RiskSynthesis => case AwaitingHumanReview => case Approved =>
    case Declined => case NeedsMoreInformation => case Escalated => case Cancelled =>
  }

  /** The legal moves, spelled out source by source. */
  predicate IsLegal(source: Status, target: Status)
  {
    match source
    case Draft => target == Submitted || target == Cancelled
    case Submitted => target == IntakeValidation || target == Cancelled
    case IntakeValidation => target == DocumentProcessing || target == AwaitingHumanReview || target == Cancelled
    case DocumentProcessing => target == Verification || target == AwaitingHumanReview || target == Cancelled
    case Verification => target == PolicyEvaluation || target == AwaitingHumanReview || target == Cancelled
    case PolicyEvaluation => target == AffordabilityEvaluation || target == AwaitingHumanReview || target == Cancelled
    case AffordabilityEvaluation => target == FraudAnalysis || target == AwaitingHumanReview || target == Cancelled
    case FraudAnalysis => target == RiskSynthesis || target == AwaitingHumanReview || target == Cancelled
    case RiskSynthesis => target == AwaitingHumanReview || target == Cancelled
    case AwaitingHumanReview => IsReviewOutcome(target) || target == Cancelled
    case NeedsMoreInformation => target == DocumentProcessing || target == Cancelled
    case Escalated => target == Approved || target == Declined || target == AwaitingHumanReview || target == Cancelled
    case Approved => false
    case Declined => false
    case Cancelled => false
  }

  /** The four outcomes a review may record. */
  predicate IsReviewOutcome(s: Status)
  {
    s == Approved || s == Declined || s == NeedsMoreInformation || s == Escalated
  }

  /** Adds `targets` to the successors of every status of `sources`. */
  method AddTargets(table: map<Status, set<Status>>, sources: set<Status>, targets: set<Status>)
    returns (t: map<Status, set<Status>>)
    requires sources <= table.Keys
    ensures t.Keys == table.Keys
    ensures forall s :: s in table ==> t[s] == if s in sources then table[s] + targets else table[s]
  {
    t := table;
    var todo := sources;
    while todo != {}
      invariant todo <= sources
      invariant t.Keys == table.Keys
      invariant forall s :: s in table ==>
        t[s] == if s in sources && s !in todo then table[s] + targets else table[s]
      decreases todo
    {
      var source :| source in todo;
      t := t[source := t[source] + targets];
      todo := todo - {source};
    }
  }

  /** The moves out of the three review statuses, which the table lists one by one. */
  function ReviewMoves(s: Status): set<Status>
  {
    match s
    case AwaitingHumanReview => {Approved, Declined, NeedsMoreInformation, Escalated}
    case Escalated => {Approved, Declined, AwaitingHumanReview}
    case NeedsMoreInformation => {DocumentProcessing}
    case _ => {}
  }

  /** The successors one source gets from a pipeline map, an escalation set and a
      cancellation set. */
  function Successors(pipeline: map<Status, Status>, escalating: set<Status>, cancellable: set<Status>,
                      s: Status): set<Status>
  {
    (if s in pipeline then {pipeline[s]} else {})
    + (if s in escalating then {AwaitingHumanReview} else {})
    + ReviewMoves(s)
    + (if s in cancellable then {Cancelled} else {})
  }

  /** The table every status starts with, and the first loop: the pipeline. */
  method PipelineTable(pipeline: map<Status, Status>) returns (t: map<Status, set<Status>>)
    ensures forall s :: s in t && t[s] == if s in pipeline then {pipeline[s]} else {}
  {
    forall s: Status ensures s in ALL_STATUSES {
      EveryStatusIsListed(s);
    }
    t := map s: Status | s in ALL_STATUSES :: {};
    var todo := pipeline.Keys;
    while todo != {}
      invariant todo <= pipeline.Keys
      invariant forall s :: s in t
      invariant forall s :: t[s] == if s in pipeline && s !in todo then {pipeline[s]} else {}
      decreases todo
    {
      var source :| source in todo;
      t := t[source := t[source] + {pipeline[source]}];
      todo := todo - {source};
    }
  }

  method AddReviewMoves(table: map<Status, set<Status>>) returns (t: map<Status, set<Status>>)
    requires forall s :: s in table
    ensures forall s :: s in t && t[s] == table[s] + ReviewMoves(s)
  {
    t := table;
    t := t[AwaitingHumanReview :=
      t[AwaitingHumanReview] + {Approved, Declined, NeedsMoreInformation, Escalated}];
    t := t[Escalated := t[Escalated] + {Approved, Declined, AwaitingHumanReview}];
    t := t[NeedsMoreInformation := t[NeedsMoreInformation] + {DocumentProcessing}];
  }

  /** Builds the table from the pipeline, the escalation set and the cancellation set. The
      result holds exactly the moves of `IsLegal`. */
  method BuildAllowedTransitions() returns (t: map<Status, set<Status>>)
    ensures forall s :: s in t
    ensures forall s, u :: u in t[s] <==> IsLegal(s, u)
  {
    t := AssembleTable(FORWARD_PIPELINE, CAN_ESCALATE_TO_HUMAN_REVIEW, CANCELLABLE_FROM);
    forall s, u ensures u in t[s] <==> IsLegal(s, u) {
      SuccessorsAreLegal(s, u);
    }
  }

  method AssembleTable(pipeline: map<Status, Status>, escalating: set<Status>, cancellable: set<Status>)
    returns (t: map<Status, set<Status>>)
    ensures forall s :: s in t && t[s] == Successors(pipeline, escalating, cancellable, s)
  {
    t := PipelineTable(pipeline);
    t := AddTargets(t, escalating, {AwaitingHumanReview});
    t := AddReviewMoves(t);
    t := AddTargets(t, cancellable, {Cancelled});
  }

  lemma SuccessorsAreLegal(s: Status, u: Status)
    ensures u in Successors(FORWARD_PIPELINE, CAN_ESCALATE_TO_HUMAN_REVIEW, CANCELLABLE_FROM, s)
            <==> IsLegal(s, u)
  {
    match s
    case AwaitingHumanReview => ReviewSuccessors(s, u);
    case Escalated => ReviewSuccessors(s, u);
    case NeedsMoreInformation => ReviewSuccessors(s, u);
    case Approved =>
    case Declined =>
    case Cancelled =>
    case Draft => PipelineSuccessors(s, u);
    case Submitted => PipelineSuccessors(s, u);
    case _ => EscalatingSuccessors(s, u);
  }

  lemma ReviewSuccessors(s: Status, u: Status)
    requires s == AwaitingHumanReview || s == Escalated || s == NeedsMoreInformation
    ensures u in Successors(FORWARD_PIPELINE, CAN_ESCALATE_TO_HUMAN_REVIEW, CANCELLABLE_FROM, s)
            <==> IsLegal(s, u)
  {
  }

  lemma PipelineSuccessors(s: Status, u: Status)
    requires s == Draft || s == Submitted
    ensures u in Successors(FORWARD_PIPELINE, CAN_ESCALATE_TO_HUMAN_REVIEW, CANCELLABLE_FROM, s)
            <==> IsLegal(s, u)
  {
  }

  lemma EscalatingSuccessors(s: Status, u: Status)
    requires CanEscalate(s)
    ensures u in Successors(FORWARD_PIPELINE, CAN_ESCALATE_TO_HUMAN_REVIEW, CANCELLABLE_FROM, s)
            <==> IsLegal(s, u)
  {
    match s
    case IntakeValidation => case DocumentProcessing => case Verification =>
    case PolicyEvaluation => case AffordabilityEvaluation => case FraudAnalysis =>
    case RiskSynthesis =>
  }

  /** A status is terminal exactly when no move leaves it. */
  lemma TerminalMeansNoWayOut(s: Status)
    ensures s in TERMINAL_STATUSES <==> forall t: Status :: !IsLegal(s, t)
  {
    if s !in TERMINAL_STATUSES {
      assert IsLegal(s, Cancelled);
    }
  }

  ghost predicate IsPath(p: seq<Status>)
  {
    |p| > 0 && forall i :: 0 <= i < |p| - 1 ==> IsLegal(p[i], p[i + 1])
  }

  /** No path from DRAFT records a review outcome without having waited for a human first. */
  lemma {:induction false} OutcomeNeedsHumanReview(p: seq<Status>)
    requires IsPath(p) && p[0] == Draft
    requires IsReviewOutcome(p[|p| - 1])
    ensures exists i :: 0 <= i < |p| - 1 && p[i] == AwaitingHumanReview
  {
    var last := |p| - 1;
    assert IsLegal(p[last - 1], p[last]);
    if p[last - 1] != AwaitingHumanReview {
      var shorter := p[..last];
      forall i | 0 <= i < |shorter| - 1 ensures IsLegal(shorter[i], shorter[i + 1]) {
        assert shorter[i] == p[i] && shorter[i + 1] == p[i + 1];
      }
      OutcomeNeedsHumanReview(shorter);
      var i :| 0 <= i < last - 1 && shorter[i] == AwaitingHumanReview;
      assert p[i] == AwaitingHumanReview;
    }
  }
}
