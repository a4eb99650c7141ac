/** Runs only move forward: completed nodes stay completed, their results stay what they were, and
    the ledger only grows. A near-duplicate found once therefore rules out auto-approval for good. */
module Progress {
  import opened Common
  import opened Graph
  import opened Records
  import opened Cases
  import opened Tables
  import opened Projection
  import opened TableLaws
  import opened Histories
  import GraphLaws
  import CaseLaws
  import Policy
  import NearDup
  import Ledger

  /** `w` comes at or after `v`: its trace extends, and results already computed are unchanged. */
  predicate Continues(v: GraphState, w: GraphState) {
    && v.trace <= w.trace
    && (ExtractNode in v.trace ==> w.extraction == v.extraction)
    && (ValidateNode in v.trace ==> w.validation == v.validation)
    && (MatchNode in v.trace ==> w.matched == v.matched)
    && (PolicyNode in v.trace ==> w.policy == v.policy)
    && (GateNode in v.trace ==> w.gate == v.gate && w.confidence == v.confidence)
    && (TriageNode in v.trace ==> w.exceptionId == v.exceptionId)
  }

  lemma NodeContinues(c: Case, input: NodeInput, hits: seq<NearDup.NearDupHit>, e: nat)
    requires Underway(c) && Executing(c) && StageOf(c, input, hits, e).Ok?
    ensures Continues(ValuesOf(c), StageOf(c, input, hits, e).value)
  {
    hide StagesDone, Routed, RouteRecorded, Stage, Successor, OutcomeSound, DlqConserved, TraceWitnessed, ColumnsShown;
    var n, v := c.thread.value.next.value, ValuesOf(c);
    NextIsAhead(c);
    TraceStarts(v);
    GraphLaws.AheadOf(v, n);
    GraphLaws.StageIgnoresRun(n, v, input, PickedRun(c), v.runDbId, hits, e);
    GraphLaws.StageExtends(n, v, input, v.runDbId, hits, e);
  }

  predicate NodeCompletesIn(c: Case, a: CaseAction) {
    a.Complete? && Executing(c) && StageOf(c, a.input, a.hits, a.newExceptionId).Ok?
  }

  /** Only a completing node changes results; a decision only adds itself. */
  lemma OtherStepsContinue(c: Case, a: CaseAction)
    requires c.thread.Some? && !NodeCompletesIn(c, a)
    ensures CaseStep(c, a).thread.Some? && Continues(ValuesOf(c), ValuesOf(CaseStep(c, a)))
  {
    hide Stage, Decided, Claimed, FourEyesRefuses, Landed;
  }

  lemma CompletionContinues(c: Case, a: CaseAction)
    requires Underway(c) && NodeCompletesIn(c, a)
    ensures CaseStep(c, a).thread.Some? && Continues(ValuesOf(c), ValuesOf(CaseStep(c, a)))
  {
    hide Underway, StageOf, Continues, NewException;
    NodeContinues(c, a.input, a.hits, a.newExceptionId);
  }

  lemma StepContinues(c: Case, a: CaseAction)
    requires Underway(c) && Fresh(c, a)
    ensures c.thread.Some? && CaseStep(c, a).thread.Some?
    ensures Continues(ValuesOf(c), ValuesOf(CaseStep(c, a))) && Underway(CaseStep(c, a))
  {
    hide CaseStep, ThreadSound, TraceWitnessed, OutcomeSound, DlqConserved, ColumnsShown, NodeCompletesIn, Fresh;
    UnderwayEntered(c);
    CaseLaws.CaseStepKeeps(c, a);
    if NodeCompletesIn(c, a) { CompletionContinues(c, a); } else { OtherStepsContinue(c, a); }
    assert CaseInv(CaseStep(c, a));
    assert ValuesOf(CaseStep(c, a)).trace != [];
  }

  lemma UnderwayEntered(c: Case)
    requires Underway(c)
    ensures c.thread.Some? && ValuesOf(c).trace != []
  {
    TraceStarts(ValuesOf(c));
  }

  lemma ContinuesTransitively(u: GraphState, v: GraphState, w: GraphState)
    requires Continues(u, v) && Continues(v, w)
    ensures Continues(u, w)
  {}

  // ------------------------------------------------------------------ over histories

  /** The expected next state of a case that is under way continues it. */
  lemma ExpectedContinues(db: Db, op: Op, i: nat)
    requires Visible(db, i) && !op.Upload? && Underway(CaseOf(db, i))
    ensures i in db.threads && Expected(db, op, i).thread.Some?
    ensures Continues(db.threads[i].values, ValuesOf(Expected(db, op, i)))
    ensures ValuesOf(Expected(db, op, i)).trace != []
  {
    hide Underway, LiveRun, EventsOf, ExceptionsOf, DlqOf, DecisionsOn, CaseStep, Continues;
    UnderwayEntered(CaseOf(db, i));
    ContinuesItself(db.threads[i].values);
    if TargetOf(db, op) == Some(i) {
      ExceptionShown(db, |db.exceptions|, i);
      DlqEntryShown(db, |db.dlq|, i);
      StepContinues(CaseOf(db, i), ActionOf(db, op));
      UnderwayEntered(CaseStep(CaseOf(db, i), ActionOf(db, op)));
    }
  }

  lemma EnteredIsUnderway(db: Db, i: nat)
    requires Invariant(db) && Exists(db, i) && Entered(db, i)
    ensures Visible(db, i) && Underway(CaseOf(db, i))
  {
    hide Underway, LiveRun, EventsOf, ExceptionsOf, DlqOf, DecisionsOn, Sound;
    assert CaseHolds(db, i);
  }

  lemma OpContinues(db: Db, op: Op, i: nat)
    requires Invariant(db) && Exists(db, i) && Entered(db, i)
    ensures Exists(Apply(db, op), i) && Entered(Apply(db, op), i)
    ensures Continues(db.threads[i].values, Apply(db, op).threads[i].values)
  {
    hide Underway, LiveRun, EventsOf, ExceptionsOf, DlqOf, DecisionsOn, Continues, Expected, Apply, Sound, CaseHolds,
         Hashes;
    EnteredIsUnderway(db, i);
    ContinuesItself(db.threads[i].values);
    if op.Upload? {
      UploadKeepsThreads(db, op.hash);
    } else {
      OpKeepsInvoiceCount(db, op);
      OpShows(db, op, i);
      ExpectedContinues(db, op, i);
    }
  }

  lemma ContinuesItself(v: GraphState)
    ensures Continues(v, v)
  {}

  /** Results computed once are never recomputed, however the history goes on. */
  lemma {:induction false} ResultsPersist(ops: seq<Op>, more: seq<Op>, i: nat)
    requires Exists(Run(ops), i) && Entered(Run(ops), i)
    ensures Exists(Run(ops + more), i) && Entered(Run(ops + more), i)
    ensures Continues(Run(ops).threads[i].values, Run(ops + more).threads[i].values)
  {
    hide Apply, Continues, Invariant;
    if more == [] {
      assert ops + more == ops;
      ContinuesItself(Run(ops).threads[i].values);
    } else {
      var n := |more| - 1;
      assert (ops + more)[..|ops + more| - 1] == ops + more[..n];
      ResultsPersist(ops, more[..n], i);
      InvariantAlways(ops + more[..n]);
      OpContinues(Run(ops + more[..n]), more[n], i);
      ContinuesTransitively(
        Run(ops).threads[i].values, Run(ops + more[..n]).threads[i].values, Run(ops + more).threads[i].values);
    }
  }

  /** Committed ledger entries never change. */
  lemma {:induction false} LedgerIsAppendOnly(ops: seq<Op>, more: seq<Op>)
    ensures Run(ops).ledger <= Run(ops + more).ledger
  {
    hide Apply;
    if more == [] {
      assert ops + more == ops;
    } else {
      var n := |more| - 1;
      assert (ops + more)[..|ops + more| - 1] == ops + more[..n];
      LedgerIsAppendOnly(ops, more[..n]);
      OpKeepsKeys(Run(ops + more[..n]), more[n]);
    }
  }

  // ------------------------------------------------------------------ near duplicates

  predicate FlaggedNear(db: Db, i: nat) {
    && i in db.threads && PolicyNode in db.threads[i].values.trace
    && db.threads[i].values.policy.Some? && db.threads[i].values.policy.value.context.nearDupHits != []
  }

  /** A run whose policy check saw a near-duplicate is never auto-approved afterwards. */
  lemma FlaggedNeverAuto(ops: seq<Op>, more: seq<Op>, i: nat)
    requires Exists(Run(ops), i) && FlaggedNear(Run(ops), i)
    ensures Exists(Run(ops + more), i) && Run(ops + more).invoices[i].status != AutoApproved
  {
    hide Run, Policy.WithinPolicy;
    ResultsPersist(ops, more, i);
    if Run(ops + more).invoices[i].status == AutoApproved { AutoApprovedIsWithinPolicy(ops + more, i); }
  }

  lemma PolicyStageFlags(c: Case, input: NodeInput, hits: seq<NearDup.NearDupHit>, e: nat)
    requires Underway(c) && Executing(c) && c.thread.value.next == Some(PolicyNode)
    requires |input.vector| == NearDup.EMBEDDING_DIM
    ensures var r := StageOf(c, input, hits, e);
            && r.Ok? && r.value.trace == ValuesOf(c).trace + [PolicyNode]
            && r.value.policy.Some? && r.value.policy.value.context.nearDupHits == hits
  {
    hide Policy.Evaluate, Successor, OutcomeSound, DlqConserved, TraceWitnessed, ColumnsShown, StagesDone, Routed,
         RouteRecorded;
    UnderwayEntered(c);
    GraphLaws.AheadOf(ValuesOf(c), PolicyNode);
  }

  lemma CheckpointIsWritten(db: Db, i: nat, input: NodeInput)
    requires IsExecuting(db, i) && Attempted(db, i, input).Ok?
    ensures i in Apply(db, NodeCompletes(i, input)).threads
    ensures Apply(db, NodeCompletes(i, input)).threads[i].values == Attempted(db, i, input).value
  {
    hide Attempted, AllLogged, NewException;
  }

  lemma PolicyStageLands(db: Db, i: nat, input: NodeInput)
    requires Invariant(db) && Exists(db, i) && IsExecuting(db, i) && db.threads[i].next == Some(PolicyNode)
    requires |input.vector| == NearDup.EMBEDDING_DIM
    requires NearDup.FindSimilar(Corpus(db), i, input.vector) != []
    ensures FlaggedNear(Apply(db, NodeCompletes(i, input)), i)
  {
    hide LiveRun, NearDup.FindSimilar, Corpus, Underway, Sound, StageOf, Attempted, CaseOf, CaseInv, Apply;
    PolicyIsUnderway(db, i);
    AttemptIsStage(db, i, input);
    var hits := HitsFor(db, i, PolicyNode, input);
    PolicyStageFlags(CaseOf(db, i), input, hits, |db.exceptions|);
    CheckpointIsWritten(db, i, input);
    var w := Attempted(db, i, input).value;
    assert w.trace[|w.trace| - 1] == PolicyNode;
  }

  lemma PolicyIsUnderway(db: Db, i: nat)
    requires Invariant(db) && Exists(db, i) && IsExecuting(db, i) && db.threads[i].next == Some(PolicyNode)
    ensures Visible(db, i) && Underway(CaseOf(db, i)) && CaseOf(db, i).thread == Some(db.threads[i])
  {
    hide Underway, LiveRun, EventsOf, ExceptionsOf, DlqOf, DecisionsOn, Sound;
    assert CaseHolds(db, i);
  }

  /** Resubmitting a stored invoice with few changed tokens: once its policy check has run, the
      resubmission is never auto-approved. */
  lemma AlteredResubmissionNeverAuto(
    hash: string -> nat, original: NearDup.SalientInvoice, altered: NearDup.SalientInvoice, c: real, d: real,
    ops: seq<Op>, i: nat, j: nat, input: NodeInput, more: seq<Op>)
    requires Exists(Run(ops), i) && Exists(Run(ops), j) && i != j
    requires IsExecuting(Run(ops), j) && Run(ops).threads[j].next == Some(PolicyNode)
    requires NearDup.FewChanges(NearDup.SalientTokens(original), NearDup.SalientTokens(altered))
    requires Run(ops).invoices[i].embedding.Some?
    requires NearDup.Embeds(hash, NearDup.SalientTokens(original), c, Run(ops).invoices[i].embedding.value)
    requires NearDup.Embeds(hash, NearDup.SalientTokens(altered), d, input.vector)
    ensures Exists(Run(ops + [NodeCompletes(j, input)] + more), j)
    ensures Run(ops + [NodeCompletes(j, input)] + more).invoices[j].status != AutoApproved
  {
    hide Apply, Invariant, NearDup.Counts, NearDup.SalientTokens, NearDup.FewChanges, NearDup.FindSimilar, FlaggedNear;
    var now := [NodeCompletes(j, input)];
    InvariantAlways(ops);
    NearDup.AlteredResubmissionIsFound(
      hash, NearDup.SalientTokens(original), NearDup.SalientTokens(altered), c, d, Corpus(Run(ops)), i, j,
      input.vector);
    PolicyStageLands(Run(ops), j, input);
    assert (ops + now)[..|ops|] == ops;
    OpKeepsKeys(Run(ops), now[0]);
    assert |Hashes(Run(ops).invoices)| == |Hashes(Run(ops + now).invoices)|;
    FlaggedNeverAuto(ops + now, more, j);
  }

  // ------------------------------------------------------------------ stored embeddings

  lemma PolicyIsBehind(db: Db, i: nat)
    requires Invariant(db) && Exists(db, i) && i in db.threads && PolicyNode in db.threads[i].values.trace
    ensures db.threads[i].next != Some(PolicyNode)
  {
    hide LiveRun, EventsOf, ExceptionsOf, DlqOf, DecisionsOn, Sound, OutcomeSound, DlqConserved, TraceWitnessed,
         ColumnsShown, ExceptionsQuoted, StagesDone, Routed, RouteRecorded, Successor;
    EnteredIsUnderway(db, i);
    if db.threads[i].next == Some(PolicyNode) { GraphLaws.AheadOf(db.threads[i].values, PolicyNode); }
  }

  lemma NodeWrittenEmbeds(db: Db, j: nat, n: Node, w: GraphState, input: NodeInput, i: nat)
    requires j in db.threads && Exists(db, i)
    ensures Exists(NodeWritten(db, j, n, w, input), i)
    ensures NodeWritten(db, j, n, w, input).invoices[i].embedding
         == if i == j then EmbeddingAfter(n, input, db.invoices[i].embedding) else db.invoices[i].embedding
  {
    hide StatusAfter, ShownAfter, EmbeddingAfter, EventsWritten, RunAfter, CheckpointAfter, NewException, AllLogged;
    var run := w.runDbId;
    var row := if n == TriageNode then NewException(j, run, db.threads[j].values) else None;
    var c := WithNewException(RunMoved(InvoiceMoved(db, j, n, w, input), run, n, w), row);
    LoggingTouchesLedgerOnly(c, run, EventsWritten(n, run, |db.exceptions|, input.classified));
  }

  lemma OtherOpsKeepEmbedding(db: Db, op: Op, i: nat)
    requires Exists(db, i) && !op.NodeCompletes? && !op.NodeBreaks?
    ensures Exists(Apply(db, op), i) && Apply(db, op).invoices[i].embedding == db.invoices[i].embedding
  {
    hide Launched, Halted, ResumedWith, Ledger.Appended, Decided, Claimed, FourEyesRefuses, FindByHash, StatusDecided;
  }

  lemma NodeOpsKeepEmbedding(db: Db, op: Op, i: nat)
    requires Exists(db, i) && (op.NodeCompletes? || op.NodeBreaks?)
    requires i in db.threads && db.threads[i].next != Some(PolicyNode)
    ensures Exists(Apply(db, op), i) && Apply(db, op).invoices[i].embedding == db.invoices[i].embedding
  {
    hide StatusAfter, ShownAfter, Attempted, NodeWritten;
    var j := op.invoiceId;
    if op.NodeCompletes? && IsExecuting(db, j) && Attempted(db, j, op.input).Ok? {
      NodeWrittenEmbeds(db, j, db.threads[j].next.value, Attempted(db, j, op.input).value, op.input, i);
    }
  }

  /** Once its policy check has run, nothing overwrites an invoice's embedding. */
  lemma OpKeepsEmbedding(db: Db, op: Op, i: nat)
    requires Invariant(db) && Exists(db, i) && i in db.threads && PolicyNode in db.threads[i].values.trace
    ensures Exists(Apply(db, op), i) && Apply(db, op).invoices[i].embedding == db.invoices[i].embedding
  {
    hide Apply, Invariant;
    PolicyIsBehind(db, i);
    if op.NodeCompletes? || op.NodeBreaks? {
      NodeOpsKeepEmbedding(db, op, i);
    } else {
      OtherOpsKeepEmbedding(db, op, i);
    }
  }

  lemma {:induction false} EmbeddingPersists(ops: seq<Op>, more: seq<Op>, i: nat)
    requires Exists(Run(ops), i) && i in Run(ops).threads && PolicyNode in Run(ops).threads[i].values.trace
    ensures Exists(Run(ops + more), i) && Run(ops + more).invoices[i].embedding == Run(ops).invoices[i].embedding
  {
    hide Apply, Invariant;
    if more == [] {
      assert ops + more == ops;
    } else {
      var n := |more| - 1;
      assert (ops + more)[..|ops + more| - 1] == ops + more[..n];
      EmbeddingPersists(ops, more[..n], i);
      InvariantAlways(ops + more[..n]);
      ResultsPersist(ops, more[..n], i);
      OpKeepsEmbedding(Run(ops + more[..n]), more[n], i);
    }
  }

  lemma PolicyCheckStores(db: Db, i: nat, input: NodeInput)
    requires Invariant(db) && Exists(db, i) && IsExecuting(db, i) && db.threads[i].next == Some(PolicyNode)
    requires |input.vector| == NearDup.EMBEDDING_DIM
    ensures var after := Apply(db, NodeCompletes(i, input));
            && Exists(after, i) && after.invoices[i].embedding == Some(input.vector)
            && i in after.threads && PolicyNode in after.threads[i].values.trace
  {
    hide LiveRun, NearDup.FindSimilar, Corpus, Underway, Sound, StageOf, Attempted, CaseOf, CaseInv, NodeWritten;
    PolicyIsUnderway(db, i);
    AttemptIsStage(db, i, input);
    var hits := HitsFor(db, i, PolicyNode, input);
    PolicyStageFlags(CaseOf(db, i), input, hits, |db.exceptions|);
    CheckpointIsWritten(db, i, input);
    var w := Attempted(db, i, input).value;
    NodeWrittenEmbeds(db, i, PolicyNode, w, input, i);
    assert w.trace[|w.trace| - 1] == PolicyNode;
  }

  /** The whole story: one invoice's policy check runs; whatever happens in between, another invoice
      whose salient text differs in few tokens is never auto-approved once its own check ran. */
  lemma ResubmissionNeverAuto(
    hash: string -> nat, original: NearDup.SalientInvoice, altered: NearDup.SalientInvoice, c: real, d: real,
    ops: seq<Op>, i: nat, first: NodeInput, between: seq<Op>, j: nat, second: NodeInput, more: seq<Op>)
    requires i != j && NearDup.FewChanges(NearDup.SalientTokens(original), NearDup.SalientTokens(altered))
    requires NearDup.Embeds(hash, NearDup.SalientTokens(original), c, first.vector)
    requires NearDup.Embeds(hash, NearDup.SalientTokens(altered), d, second.vector)
    requires Exists(Run(ops), i) && IsExecuting(Run(ops), i) && Run(ops).threads[i].next == Some(PolicyNode)
    requires var db := Run(ops + [NodeCompletes(i, first)] + between);
             Exists(db, j) && IsExecuting(db, j) && db.threads[j].next == Some(PolicyNode)
    ensures var done := Run(ops + [NodeCompletes(i, first)] + between + [NodeCompletes(j, second)] + more);
            Exists(done, j) && done.invoices[j].status != AutoApproved
  {
    hide Apply, Invariant, NearDup.Counts, NearDup.SalientTokens, NearDup.FewChanges;
    var checked := ops + [NodeCompletes(i, first)];
    assert checked[..|ops|] == ops;
    InvariantAlways(ops);
    PolicyCheckStores(Run(ops), i, first);
    EmbeddingPersists(checked, between, i);
    AlteredResubmissionNeverAuto(hash, original, altered, c, d, checked + between, i, j, second, more);
  }
}
