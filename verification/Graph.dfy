/** The pipeline graph: its state, its topology and routing, and what each stage computes. */
module Graph {
  import opened Common
  import opened Extraction
  import Validation
  import Matching
  import Policy
  import Gate
  import Triage
  import Taxonomy
  import NearDup

  datatype Node =
    | IngestNode | ExtractNode | ValidateNode | MatchNode | PolicyNode | GateNode
    | AutoApproveNode | TriageNode | HumanReviewNode | ArchiveNode | RejectNode

  datatype Route = RouteAuto | RouteException | RouteReject

  datatype Action = Approve | ReturnToVendor | EscalateUp

  datatype HumanDecision = HumanDecision(decisionId: nat, actor: string, action: Action, reasonCode: string)

  /** The matcher's result together with the two documents it was computed from. */
  datatype MatchRecord = MatchRecord(
    po: Option<Matching.PoForMatch>, gr: Option<Matching.GrForMatch>, result: Matching.MatchResult)

  /** The policy findings together with the facts they were computed from. */
  datatype PolicyRecord = PolicyRecord(context: Policy.PolicyContext, findings: seq<Policy.PolicyFinding>)

  datatype GraphState = GraphState(
    invoiceId: nat,
    runDbId: Option<nat>,
    duplicate: bool,
    extraction: Option<InvoiceExtraction>,
    validation: seq<Validation.CheckResult>,
    matched: Option<MatchRecord>,
    policy: Option<PolicyRecord>,
    confidence: Option<real>,
    gate: Option<Gate.GateDecision>,
    route: Option<Route>,
    exceptionId: Option<nat>,
    humanDecision: Option<HumanDecision>,
    trace: seq<Node>)

  function InitialState(invoiceId: nat): GraphState {
    GraphState(invoiceId, None, false, None, [], None, None, None, None, None, None, None, [])
  }

  function PolicyFindings(v: GraphState): seq<Policy.PolicyFinding> {
    if v.policy.Some? then v.policy.value.findings else []
  }

  function MatchFindings(v: GraphState): seq<Matching.MatchFinding> {
    if v.matched.Some? then v.matched.value.result.findings else []
  }

  // ------------------------------------------------------------------ routing

  function RouteAfterIngest(v: GraphState): Node {
    if v.duplicate then RejectNode else ExtractNode
  }

  function RouteAfterValidate(v: GraphState): Node {
    if Validation.HasErrors(v.validation) then TriageNode else MatchNode
  }

  function RouteAfterMatch(v: GraphState): Node {
    if v.matched.Some? && v.matched.value.result.outcome == Matching.Mismatch then TriageNode else PolicyNode
  }

  predicate HasHigh(findings: seq<Policy.PolicyFinding>) {
    exists k :: 0 <= k < |findings| && findings[k].severity == Taxonomy.High
  }

  function RouteAfterPolicy(v: GraphState): Node {
    if HasHigh(PolicyFindings(v)) then TriageNode else GateNode
  }

  function RouteAfterGate(v: GraphState): Node {
    if v.confidence.None? || v.confidence.value < Gate.TAU then TriageNode else AutoApproveNode
  }

  /** The node scheduled after `n` finished with state `v`; None is the end of the graph. */
  function Successor(n: Node, v: GraphState): Option<Node> {
    match n
    case IngestNode => Some(RouteAfterIngest(v))
    case ExtractNode => Some(ValidateNode)
    case ValidateNode => Some(RouteAfterValidate(v))
    case MatchNode => Some(RouteAfterMatch(v))
    case PolicyNode => Some(RouteAfterPolicy(v))
    case GateNode => Some(RouteAfterGate(v))
    case AutoApproveNode => Some(ArchiveNode)
    case TriageNode => Some(HumanReviewNode)
    case HumanReviewNode => Some(ArchiveNode)
    case ArchiveNode => None
    case RejectNode => None
  }

  // ------------------------------------------------------------------ topology

  /** The edges the graph is assembled with. */
  predicate Edge(a: Node, b: Node) {
    match a
    case IngestNode => b == RejectNode || b == ExtractNode
    case ExtractNode => b == ValidateNode
    case ValidateNode => b == TriageNode || b == MatchNode
    case MatchNode => b == TriageNode || b == PolicyNode
    case PolicyNode => b == TriageNode || b == GateNode
    case GateNode => b == AutoApproveNode || b == TriageNode
    case AutoApproveNode => b == ArchiveNode
    case TriageNode => b == HumanReviewNode
    case HumanReviewNode => b == ArchiveNode
    case ArchiveNode => false
    case RejectNode => false
  }

  predicate IsPath(trace: seq<Node>) {
    trace != [] && trace[0] == IngestNode &&
    forall k :: 0 <= k < |trace| - 1 ==> Edge(trace[k], trace[k + 1])
  }

  predicate NoRepeats(trace: seq<Node>) {
    forall j, k :: 0 <= j < k < |trace| ==> trace[j] != trace[k]
  }

  function Depth(n: Node): nat {
    match n
    case IngestNode => 0
    case ExtractNode => 1
    case ValidateNode => 2
    case MatchNode => 3
    case PolicyNode => 4
    case GateNode => 5
    case AutoApproveNode => 6
    case TriageNode => 6
    case HumanReviewNode => 7
    case ArchiveNode => 8
    case RejectNode => 9
  }

  lemma {:induction false} PathDeepens(trace: seq<Node>, j: nat, k: nat)
    requires IsPath(trace) && j < k < |trace|
    ensures Depth(trace[j]) < Depth(trace[k])
  {
    assert Edge(trace[k - 1], trace[k]);
    if j < k - 1 { PathDeepens(trace, j, k - 1); }
  }

  /** No node occurs twice on a path of the graph. */
  lemma PathHasNoRepeats(trace: seq<Node>)
    requires IsPath(trace)
    ensures NoRepeats(trace)
  {
    forall j, k | 0 <= j < k < |trace| ensures trace[j] != trace[k] {
      PathDeepens(trace, j, k);
    }
  }

  // ------------------------------------------------------------------ the stages

  /** What the outside world supplies to one node attempt. */
  datatype NodeInput = NodeInput(
    extraction: InvoiceExtraction,
    po: Option<Matching.PoForMatch>,
    gr: Option<Matching.GrForMatch>,
    poFacts: Option<Policy.PoFacts>,
    vendor: Option<Policy.VendorFacts>,
    vector: seq<real>,
    classified: bool)

  datatype NodeError = NotFound | NoRun | ExtractionMissing | BadEmbedding | TriageFailed(error: Triage.TriageError)

  /** An empty PO reference is never looked up. */
  predicate HasPoReference(x: InvoiceExtraction) {
    x.poNumber.Some? && x.poNumber.value != ""
  }

  function PoRead(x: InvoiceExtraction, input: NodeInput): Option<Matching.PoForMatch> {
    if HasPoReference(x) then input.po else None
  }

  function GrRead(x: InvoiceExtraction, input: NodeInput): Option<Matching.GrForMatch> {
    if PoRead(x, input).Some? then input.gr else None
  }

  function MatchStage(x: InvoiceExtraction, input: NodeInput): MatchRecord {
    var po, gr := PoRead(x, input), GrRead(x, input);
    MatchRecord(po, gr, Matching.Matched(Matching.InvoiceOf(x), po, gr))
  }

  function FactsOf(x: InvoiceExtraction): Policy.InvoiceFacts {
    Policy.InvoiceFacts(x.currency, x.totalAmount, x.iban, x.issueDate)
  }

  function PolicyStage(x: InvoiceExtraction, input: NodeInput, hits: seq<NearDup.NearDupHit>): PolicyRecord {
    var po := if HasPoReference(x) then input.poFacts else None;
    var vendor := if po.Some? then input.vendor else None;
    var context := Policy.PolicyContext(FactsOf(x), po, vendor, hits);
    PolicyRecord(context, Policy.Evaluate(context))
  }

  function SeverityNames(findings: seq<Policy.PolicyFinding>): seq<string> {
    seq(|findings|, i requires 0 <= i < |findings| => Taxonomy.SeverityName(findings[i].severity))
  }

  function GateInputsOf(x: InvoiceExtraction, v: GraphState): Gate.GateInputs {
    Gate.GateInputs(
      x.confidences,
      if v.matched.Some? then Some(v.matched.value.result.normalizedDelta) else None,
      SeverityNames(PolicyFindings(v)))
  }

  function DraftOf(v: GraphState): Result<Triage.ExceptionDraft, Triage.TriageError> {
    Triage.Draft(v.validation, MatchFindings(v), PolicyFindings(v), v.gate)
  }

  /** The state after node `n`, or the error it raises. `run` is the run row the ingest node picked,
      `hits` the near-duplicates found, `exceptionId` the key of the exception row triage inserts. */
  function Stage(
    n: Node, v: GraphState, input: NodeInput, run: Option<nat>, hits: seq<NearDup.NearDupHit>, exceptionId: nat)
    : Result<GraphState, NodeError>
  {
    var w := v.(trace := v.trace + [n]);
    match n
    case IngestNode => if run.None? then Err(NoRun) else Ok(w.(runDbId := run, duplicate := false))
    case ExtractNode => Ok(w.(extraction := Some(input.extraction)))
    case AutoApproveNode => Ok(w.(route := Some(RouteAuto)))
    case TriageNode =>
      var draft := DraftOf(v);
      if draft.Err? then Err(TriageFailed(draft.error))
      else Ok(w.(route := Some(RouteException), exceptionId := Some(exceptionId)))
    case HumanReviewNode => Ok(w)
    case ArchiveNode => Ok(w)
    case RejectNode => Ok(w.(route := Some(RouteReject)))
    case _ =>
      if v.extraction.None? then Err(ExtractionMissing)
      else
        var x := v.extraction.value;
        match n
        case ValidateNode => Ok(w.(validation := Validation.Report(x)))
        case MatchNode => Ok(w.(matched := Some(MatchStage(x, input))))
        case PolicyNode =>
          if |input.vector| != NearDup.EMBEDDING_DIM then Err(BadEmbedding)
          else Ok(w.(policy := Some(PolicyStage(x, input, hits))))
        case _ =>
          var decision := Gate.Decide(GateInputsOf(x, v));
          Ok(w.(confidence := Some(decision.confidence), gate := Some(decision)))
  }

  // ------------------------------------------------------------------ what a checkpoint guarantees

  /** Every stage result in the state is the one its inputs determine, and is there exactly when
      its node has run. */
  predicate StagesDone(v: GraphState) {
    && (ExtractNode in v.trace <==> v.extraction.Some?)
    && (ValidateNode in v.trace ==> v.extraction.Some? && v.validation == Validation.Report(v.extraction.value))
    && (ValidateNode !in v.trace ==> v.validation == [])
    && (MatchNode in v.trace <==> v.matched.Some?)
    && (MatchNode in v.trace ==> v.extraction.Some? && MatchRight(v.extraction.value, v.matched.value))
    && (PolicyNode in v.trace <==> v.policy.Some?)
    && (PolicyNode in v.trace ==> v.extraction.Some? && PolicyRight(v.extraction.value, v.policy.value))
    && (GateNode in v.trace <==> v.gate.Some?)
    && (GateNode in v.trace <==> v.confidence.Some?)
    && (GateNode in v.trace ==> v.extraction.Some? && v.gate == Some(Gate.Decide(GateInputsOf(v.extraction.value, v)))
                                && v.confidence == Some(v.gate.value.confidence))
    && (TriageNode in v.trace <==> v.exceptionId.Some?)
  }

  /** The verdict is the documents', read under the reference the extraction gives. */
  predicate MatchRight(x: InvoiceExtraction, m: MatchRecord) {
    && m.result == Matching.Matched(Matching.InvoiceOf(x), m.po, m.gr)
    && (m.po.Some? ==> x.poNumber.Some? && x.poNumber.value != "")
    && (m.gr.Some? ==> m.po.Some?)
  }

  predicate PolicyRight(x: InvoiceExtraction, p: PolicyRecord) {
    && p.findings == Policy.Evaluate(p.context)
    && p.context.invoice == Policy.InvoiceFacts(x.currency, x.totalAmount, x.iban, x.issueDate)
    && (p.context.po.Some? ==> x.poNumber.Some? && x.poNumber.value != "")
    && (p.context.vendor.Some? ==> p.context.po.Some?)
  }

  function LastNode(v: GraphState): Node
    requires v.trace != []
  {
    v.trace[|v.trace| - 1]
  }

  /** The route actually taken so far: each step went where the routing functions said. */
  predicate Routed(v: GraphState) {
    && (MatchNode in v.trace ==> ValidateNode in v.trace && !Validation.HasErrors(v.validation))
    && (PolicyNode in v.trace ==> v.matched.Some? && v.matched.value.result.outcome != Matching.Mismatch)
    && (GateNode in v.trace ==> v.policy.Some? && v.policy.value.findings == [] && MatchNode in v.trace)
    && (AutoApproveNode in v.trace ==> v.gate.Some? && v.gate.value.route == Gate.Auto)
    && (AutoApproveNode in v.trace ==> TriageNode !in v.trace)
    && (TriageNode in v.trace ==> DraftOf(v).Ok?)
  }

  /** The route the state carries is the terminal branch entered. */
  predicate RouteRecorded(v: GraphState) {
    v.route == if TriageNode in v.trace then Some(RouteException)
               else if AutoApproveNode in v.trace then Some(RouteAuto)
               else None
  }

  /** The checkpointed state of a thread whose ingest node has completed. */
  predicate Checkpointed(v: GraphState) {
    IsPath(v.trace) && StagesDone(v) && !v.duplicate && RejectNode !in v.trace
    && Routed(v) && RouteRecorded(v)
  }
}
