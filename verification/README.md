# Invoice pipeline: a verified model

This project models the invoice pipeline of `invoiceops_agent` and proves properties of the model.
`dafny verify dfyconfig.toml` checks it.

An upload becomes an invoice row, a run and a ledger entry. The run walks ingest, extract, validate,
match, policy and gate, and then either auto-approves or opens an exception and pauses until a human
decides; both ways end in archive. Around the walk sit per-node retries, resumption from a checkpoint,
a dead-letter queue with replay, and the human decision service. All of them write to one append-only
ledger. The model has three parts.

**The run machine.** `Tables` holds the database (invoices, runs, exceptions, decisions, dead letters,
ledger) and the checkpoint store, with one function for each transaction; `Run(ops)` is the database
after any interleaving of operations, faults included. `Cases` is the same system seen from one invoice,
with the invariant; `CaseLaws` proves every transition keeps it, `Projection` and `TableLaws` prove
that each operation on the tables is one such transition and invisible to every other invoice. The
theorems over histories are in `Histories`, `Progress`, `Oversight`, `DeadLetters` and
`StraightThrough`. `Attempts` says when a node attempt fails and what a run of attempts amounts to. `Store`, `IngestService`, `Pipeline`, `Runner` and `Decisions` are the services as
classes and methods over one mutable database object. The object remembers its history, and each method
is proved to perform exactly the operations it enters there, so every theorem about histories is a
theorem about the services. `Ledger` treats the ledger alone, with concurrent transactions.

**The control engines.** `Validation`, `Matching`, `Policy`, `Gate`, `Taxonomy` and `Triage` are the
deterministic stages; the loops are methods proved against specifications, whose laws follow.
`ValidationReasons` and `MatchingReasons` trace every finding back to the documents, said without the
engines' own functions, and `Text` says what case folding, blank dropping and word splitting mean.
`AutoApproval` combines them with the routing into a bound on the money that can be auto-approved.

**The arithmetic cores.** `Iban` (check digits generated and validated), `Vectors` and `NearDup` (the
feature-hashing embedder and the similarity search), and `Erp` (generated orders and clean invoices).

## Assumptions

- Each thread has one executor at a time (`executing`).
- A node attempt either raises before its ledger event commits, or completes and is checkpointed. An
  attempt may still have committed the node's first transaction (`NodeBreaks`): the columns the match
  node backfills, or the embedding the policy node stores. A crash between the last commit and the
  checkpoint is outside the model.
- A thread counts as paused for a human exactly when it stopped after triage.
- Service transactions are serial, except in `Ledger`, where appends interleave at statement level and
  each may see any prefix of the committed rows.
- Extraction results, ERP lookups, embedding vectors, the triage agent's answer, retry outcomes, jitter
  and the generator's draws are arbitrary inputs. Each node attempt may be given different ones; the
  order, receipt and policy facts a verdict was computed from are kept in the state, so the money bound
  speaks about the documents actually read.
- Amounts, confidences and similarities are exact reals, dates are day numbers, and text is ASCII for case
  folding and white space. The token hash is an arbitrary function, and the embedder is given an exact
  square root. Similarities are compared through squares.
- Database keys are row positions, counted from zero; gaps that rolled-back inserts leave in a sequence
  are not modelled.

## Where the code and its documentation differ

- `runner.py` and `dlq.py` say that no failure is dropped silently. A failure of the ingest node has no
  run key yet; the dead-letter insert then violates its foreign key and nothing is recorded.
  `DeadLetters.FailureIsRecordedIff` states exactly when a failure is recorded, and
  `DeadLetters.IngestFailureLeavesNothing` gives a history in which one is not.
- At most one waiting dead letter for each run is guaranteed when failed threads are resumed by replay
  alone (`DeadLetters.AtMostOneEntryWaits`). A direct start followed by a failure keeps it if and only if no
  entry was waiting (`DeadLetters.DirectStartIsSafeIff`).
- The matcher's documentation says discrete mismatches score 0.0. In the code only MISSING_PO sets the
  delta; the model follows the code.
- Confidences are clamped from below only. The money bound is therefore stated for any confidences, with
  the share 0.375 as the case of confidences up to one, and `Gate.OverconfidentFieldDefeatsDrift` shows
  what a larger one does.

## Model

| member | source | states |
|---|---|---|
| `TableLaws.InvariantAlways` | src/invoiceops_agent/graph/runner.py:47-66 | Over every interleaving of uploads, runs, node attempts, faults, dead-letter replays and decisions on any number of invoices, the tables stay referentially sound, the ledger stays densely numbered, and every invoice satisfies the case invariant |
| `TableLaws.OpShows` | src/invoiceops_agent/graph/nodes/pipeline.py:61-526 | Every operation on the tables changes the view of exactly the invoice it works on, by exactly the one case transition it stands for, and no other invoice can tell |
| `CaseLaws.CaseStepKeeps` | src/invoiceops_agent/graph/runner.py:121-139 | Starting, completing a node, a half-finished attempt, an ultimate failure, a crash, a replay and a decision each keep the case invariant |
| `GraphLaws.StageKeepsCheckpointed` | src/invoiceops_agent/graph/builder.py:79-108 | Whatever node completes where the graph scheduled it leaves a checkpoint whose trace is a path, whose results are the ones their inputs determine, and which went where the routing says |
| `Histories.ExactlyOnce` | src/invoiceops_agent/graph/runner.py:1-12 | The node events of a run are exactly the image of its trace; the trace is a path of the graph and repeats no node |
| `Progress.ResultsPersist` | src/invoiceops_agent/graph/runner.py:56-64 | However a history continues, the trace only extends and the result of a completed node never changes |
| `Graph.PathHasNoRepeats` | src/invoiceops_agent/graph/builder.py:79-108 | No node occurs twice on any path of the assembled graph |
| `Histories.HumanGateHolds` | src/invoiceops_agent/api/services/decisions.py:96-148 | In every run, human review, and archiving after an exception was opened, come only after a recorded decision that is not an escalation |
| `Histories.ExceptionNeverAutoApproved` | src/invoiceops_agent/graph/nodes/pipeline.py:299-324 | An invoice with an exception record is never AUTO_APPROVED |
| `Histories.ExceptionsQuoteTheirFindings` | src/invoiceops_agent/graph/nodes/pipeline.py:371-416 | In every reachable state an exception row carries exactly the hard findings of its run, or the gate abstention where there is none; its code is the queue of the most urgent of them (a price mismatch goes to PRICE_MM) and its severity is the one of that code |
| `Histories.RowsReportTheRun` | src/invoiceops_agent/graph/nodes/pipeline.py:185-196 | The run row reports the branch taken and, once archived, the confidence; after the match the invoice row shows the extracted number, currency, amount and date and the number of the order matched against |
| `Histories.AutoApprovedMoneyIsBounded` | src/invoiceops_agent/tools/confidence_gate.py:92-107 | In every reachable state the amount of an AUTO_APPROVED invoice with charged lines is at most the received quantities at order price plus min(1, minCritical - 0.625) of the price band, hence at most 0.375 of it for confidences up to one |
| `AutoApproval.MoneyBound` | src/invoiceops_agent/tools/matching.py:171-215 | The same bound on a checkpointed state: routing, line arithmetic, matcher loop and gate arithmetic combined |
| `AutoApproval.MoneyBoundThreeEighths` | src/invoiceops_agent/tools/matching.py:367-379 | The bound with share 0.375 when confidences are at most one |
| `AutoApproval.AutoApprovedMeans` | src/invoiceops_agent/graph/routing.py:19-44 | A run that took the auto-approval branch reconciles, names the vendor and currency of the order it was matched against, agrees with order and receipt line by line, is within policy, and drifts within the share the gate leaves |
| `Histories.AutoApprovedIsWithinPolicy` | src/invoiceops_agent/tools/policy.py:120-131 | An AUTO_APPROVED invoice shows at most 2500 EUR, satisfies every policy rule, and had no near-duplicate hit |
| `GraphLaws.TriageNeverEmptyHanded` | src/invoiceops_agent/graph/nodes/pipeline.py:371-376 | Wherever routing sends a run to triage a draft exists, so neither the routing-bug error nor the severity error can be raised |
| `GraphLaws.GateRouteAgrees` | src/invoiceops_agent/graph/routing.py:39-44 | The edge taken after the gate and the route the gate recorded always agree |
| `Progress.FlaggedNeverAuto` | src/invoiceops_agent/tools/policy.py:216-236 | A run whose policy check saw a near-duplicate is never AUTO_APPROVED afterwards |
| `Progress.ResubmissionNeverAuto` | src/invoiceops_agent/tools/near_dup.py:110-121 | One invoice passes its policy check; whatever happens in between, another invoice whose salient text differs in k of n tokens with 10*k*k < n is never AUTO_APPROVED once its own check has run; both vectors are the token counts divided by any positive factor, their norms in particular |
| `Progress.EmbeddingPersists` | src/invoiceops_agent/tools/near_dup.py:147-153 | Once the policy check has stored an embedding nothing overwrites it |
| `Histories.LedgerIsGapFree` | src/invoiceops_agent/ledger/api.py:65-95 | In every reachable state the sequence numbers of each run are 1, 2, ..., n in ledger order |
| `Progress.LedgerIsAppendOnly` | migrations/versions/a1b2c3d4e5f6_append_only_enforcement.py:27-38 | Ledger entries never change: later histories only extend the ledger |
| `Ledger.CommittedIsGapFree` | src/invoiceops_agent/db/models.py:145 | For any interleaving of transactions that allocate max + 1 from any visible prefix and fail on a clash of (run, seq), the committed numbers of every run are exactly 1..n |
| `Ledger.CommittedOnlyGrows` | src/invoiceops_agent/ledger/api.py:1-6 | Committed entries are never changed by later transactions |
| `Histories.Deduplicated` | src/invoiceops_agent/api/services/ingest.py:43-79 | Invoices correspond one to one with the distinct hashes uploaded, and runs number the uploads |
| `Histories.OneLiveRun` | src/invoiceops_agent/graph/nodes/pipeline.py:70-90 | Each invoice has exactly one run that is not a rejected duplicate; while queued or running it is the one the ingest node picks |
| `TableLaws.IngestPicksTheLiveRun` | src/invoiceops_agent/graph/nodes/pipeline.py:70-90 | The two status queries of the ingest node find the live run, however many duplicates arrived |
| `Oversight.DecisionLogShape` | src/invoiceops_agent/api/services/decisions.py:52-141 | An exception is OPEN iff all its decisions are escalations and RESOLVED iff exactly the last is not; its decision rows are the recorded ledger events; the invoice status follows the resolving row |
| `Oversight.ResolvedAnswers` | src/invoiceops_agent/api/services/decisions.py:160-204 | After resolution no decide call changes any table, now or later: a call with the recorded actor, action and reason is answered with the recorded key, any other conflicts |
| `Oversight.DecideMeans` | src/invoiceops_agent/api/services/decisions.py:68-132 | On an open exception a call is refused iff it approves and nobody or the caller holds the row, and then the caller holds it; otherwise it is accepted: approving or returning resolves the row and stamps the invoice, escalating hands the row to the given target or the manager queue; each accepted call adds its own decision row and one ledger entry |
| `Oversight.ResolutionStands` | src/invoiceops_agent/api/services/decisions.py:96-132 | However the history continues, a resolved row keeps its holder, the invoice keeps DECISION_APPROVED or RETURNED_TO_VENDOR, and the deciding row stays the latest |
| `Oversight.ApproverIsNotAssignee` | src/invoiceops_agent/api/services/decisions.py:68-84 | Every approval was given by somebody other than the assignee |
| `Oversight.ApproverIsNotFirstTouch` | src/invoiceops_agent/api/services/decisions.py:3-6 | Without an escalation the approver is not the first user who ever touched the exception, even if that touch was refused |
| `DeadLetters.FailuresAreConserved` | src/invoiceops_agent/graph/dlq.py:37-127 | The run.failed events of a run name each of its dead-letter rows exactly once, the dlq.replayed events each replayed row exactly once |
| `DeadLetters.AtMostOneEntryWaits` | src/invoiceops_agent/graph/dlq.py:94-127 | If failed threads are resumed only by replay, a run never has two entries waiting |
| `DeadLetters.RunStatusTells` | src/invoiceops_agent/graph/dlq.py:61-108 | If failed threads are resumed only by replay, the run is COMPLETED exactly when its thread has ended, FAILED exactly while an entry waits, AWAITING_DECISION while it is paused, and before triage RUNNING otherwise |
| `DeadLetters.DirectStartIsSafeIff` | src/invoiceops_agent/graph/runner.py:56-61 | The exact condition: after a disciplined history, starting a thread directly and failing again leaves at most one waiting entry if and only if none of its entries was waiting |
| `DeadLetters.IngestFailureLeavesNothing` | src/invoiceops_agent/graph/runner.py:121-139 | A concrete unrecorded failure: after one upload and one start, a failure of the first node changes neither dead letters nor ledger |
| `DeadLetters.FailureIsRecordedIff` | src/invoiceops_agent/graph/runner.py:121-139 | A failure reaches the queue and the ledger exactly when the ingest checkpoint exists, with the live run, the kind and the attempts in a waiting row, the run FAILED and the event naming the row; before it nothing is recorded |
| `Runner.GraphRunner.Execute` | src/invoiceops_agent/graph/runner.py:121-139 | Walks the thread until it ends, pauses or fails: every step got through within its attempts and the trace grew by exactly the steps; it returns finished or paused, and raises only at a node that does not get through, for the reason the world or the node gives; the history says which operations were performed with which inputs |
| `Runner.GraphRunner.RunInvoice` | src/invoiceops_agent/graph/runner.py:47-66 | Starts or resumes; returns iff the thread is then finished or paused; a paused or finished thread is returned with every table unchanged; a raised outcome names a node that does not get through its attempts; if every node gets through it returns |
| `Runner.GraphRunner.RunNode` | src/invoiceops_agent/graph/retries.py:48-91 | The retry loop around a node with real effects: each outcome is what the world and the node dictate for that attempt, together they form a valid retry trail; success leaves the next checkpoint, anything else leaves the threads alone; the history tells what each attempt committed |
| `Runner.GraphRunner.Attempt` | src/invoiceops_agent/graph/retries.py:94-102 | A fault is passed on with its kind; a healthy attempt succeeds unless the invoice does not exist or the policy vector has the wrong length; success leaves the next checkpoint, failure no thread changed, and only a late fault at match or policy leaves a first transaction |
| `Attempts.AttemptErrsIff` | src/invoiceops_agent/graph/nodes/pipeline.py:61-377 | In a lawful database a node scheduled by the graph computes an error only for an invoice that does not exist or a vector of the wrong length: its inputs are there and triage has something to report |
| `Attempts.CompletionIsLogged` | src/invoiceops_agent/ledger/api.py:65-95 | A completed node appends exactly its own ledger entries to its run, triage one more if the agent answered |
| `Attempts.LateAttemptCommits` | src/invoiceops_agent/graph/nodes/pipeline.py:160-273 | What an attempt leaves that raises after its first transaction: the extracted columns or the embedding, and nothing else |
| `Attempts.FaultlessGetsThrough` | src/invoiceops_agent/graph/retries.py:62-64 | In a world without faults every node of an existing invoice gets through at the first attempt |
| `Runner.GraphRunner.SubmitDecision` | src/invoiceops_agent/graph/runner.py:76-81 | Puts the decision into the paused thread and releases it |
| `Runner.DlqService.RecordFailure` | src/invoiceops_agent/graph/dlq.py:37-92 | Writes the row, the run status and the event together, or nothing when the run key is missing |
| `Runner.DlqService.Replay` | src/invoiceops_agent/graph/dlq.py:94-127 | Succeeds exactly for a waiting entry, which it claims for good before resuming; the resumed run comes back finished or paused, or is raised at a node that does not get through; anything else is refused and changes nothing |
| `Decisions.DecisionService.Decide` | src/invoiceops_agent/api/services/decisions.py:52-141 | Refuses, accepts and leaves rows and invoice as stated for the open row it found, a resolution also after the released run; that run ends, or is raised at a node that does not get through, which is then the last thing recorded; only the exception's own invoice is resumed |
| `IngestService.Service.Ingest` | src/invoiceops_agent/api/services/ingest.py:43-79 | Reports a duplicate iff the hash was known; a new hash gets its invoice, its queued run and one entry, a known one a rejected run on the original and one entry; the returned run is the live run iff the upload was new |
| `IngestService.Service.CreateRows` | src/invoiceops_agent/api/services/ingest.py:111-126 | Refused exactly when the unique hash constraint is violated, leaving no row behind |
| `IngestService.Service.RecordDuplicate` | src/invoiceops_agent/api/services/ingest.py:146-175 | A duplicate gets its own rejected run on the original invoice and one ledger entry |
| `Store.LedgerWriter.Append` | src/invoiceops_agent/ledger/api.py:65-86 | Appends one entry with the next number of its run and touches nothing else |
| `Pipeline.PipelineNodes.Ingest` | src/invoiceops_agent/graph/nodes/pipeline.py:61-113 | Finds the run, marks it running and logs, or raises and writes nothing |
| `Pipeline.PipelineNodes.Match3Way` | src/invoiceops_agent/graph/nodes/pipeline.py:160-204 | Backfills number, currency, amount, issue date and, when one is found, the order; then records the verdict of the matcher loop on the documents looked up |
| `Pipeline.PipelineNodes.PolicyCheck` | src/invoiceops_agent/graph/nodes/pipeline.py:208-273 | Searches the corpus before storing the embedding, then evaluates the rules |
| `Pipeline.PipelineNodes.ExceptionTriage` | src/invoiceops_agent/graph/nodes/pipeline.py:329-473 | Drafts from the typed findings, inserts the exception with code, severity and findings, marks invoice and run, and logs one or two events |
| `Pipeline.PipelineNodes.Archive` | src/invoiceops_agent/graph/nodes/pipeline.py:498-524 | Completes the run and copies the route of the branch taken and the confidence, each when there is one |
| `Matching.Match3Way` | src/invoiceops_agent/tools/matching.py:140-225 | The accumulator loop equals the line-by-line specification |
| `Matching.MatchLine` | src/invoiceops_agent/tools/matching.py:171-200 | One loop body appends exactly that line's findings and ratios |
| `Matching.CheckPrice` | src/invoiceops_agent/tools/matching.py:329-364 | Always appends the ratio; reports drift inside the band and a mismatch outside it |
| `Matching.CheckQty` | src/invoiceops_agent/tools/matching.py:312-326 | Only over-invoicing is reported, with its ratio |
| `MatchingLaws.VerdictMeaning` | src/invoiceops_agent/tools/matching.py:202-225 | MISMATCH iff vendor names differ in more than case and blanks, currencies differ in more than case, or a line disagrees with order or receipt (unit, quantity, price beyond max(0.50, 2 per cent)); MATCH iff in addition every price is equal, iff there are no findings; TOLERABLE has only drift findings |
| `MatchingReasons.FindingsHaveReasons` | src/invoiceops_agent/tools/matching.py:171-364 | The findings are exactly those the documents give reason for: vendor, currency, line not on the order, receipt missing, over-invoiced, price drift or mismatch, unit of measure, each with severity, line and figure |
| `MatchingReasons.VendorDecides` | src/invoiceops_agent/tools/matching.py:272-283 | A different vendor is reported and makes a mismatch; the same name in another case or spacing is never reported |
| `MatchingReasons.DeltaIsTheLargest` | src/invoiceops_agent/tools/matching.py:202-215 | The delta is the largest share of a price band drifted or quantity over-invoiced by any line, and zero where there is none |
| `MatchingReasons.NoOrderIsMismatch` | src/invoiceops_agent/tools/matching.py:146-160 | Without an order or a reference to one the only finding is MISSING_PO, a mismatch of delta 1 |
| `MatchingReasons.InvoiceSeen` | src/invoiceops_agent/graph/nodes/pipeline.py:615-631 | The matcher sees the extraction as it is, absent figures as zero |
| `MatchingReasons.OrderLookup` | src/invoiceops_agent/tools/matching.py:160-170 | The order is looked up under the last entry of a line number |
| `Text.SameNameIff` | src/invoiceops_agent/tools/matching.py:382-383 | Folding and splitting identify exactly the names whose words differ in letter case only, whatever white space is around and between them |
| `Text.WordsAreTheParts` | src/invoiceops_agent/tools/matching.py:382-383 | Splitting is exactly taking the solid parts of a string out of its white space |
| `MatchingLaws.DeltaOfOutcome` | src/invoiceops_agent/tools/matching.py:202-225 | MATCH has delta 0; TOLERABLE has only drift findings and a delta in (0, 1] |
| `MatchingLaws.DeltaBoundsDrift` | src/invoiceops_agent/tools/matching.py:374-379 | The reported delta times its band bounds the price drift of every agreeing line |
| `MatchingLaws.LineOrderIsIrrelevant` | src/invoiceops_agent/tools/matching.py:171-200 | Permuting the invoice lines changes neither outcome, nor delta, nor the multiset of findings |
| `MatchingLaws.SplitInvoice` | src/invoiceops_agent/tools/matching.py:171-215 | Splitting the lines over two invoices gives the worse outcome and the larger delta of the two |
| `Validation.ValidIffReconciled` | src/invoiceops_agent/tools/validation.py:79-89 | No hard finding iff the required fields are there, the currency is three capitals, an IBAN of a known country is one, lines and total add up exactly, and the tax is within a cent of 19 per cent of what is under S and 7 per cent of what is under R |
| `ValidationReasons.FindingsHaveReasons` | src/invoiceops_agent/tools/validation.py:96-252 | The report holds exactly the findings, errors and warnings, that the extraction gives reason for, each with its field, line or figure |
| `Validation.IbanVerdict` | src/invoiceops_agent/tools/validation.py:134-159 | On the string without blanks and in capitals: unknown country a warning; wrong length, check digits, characters or remainder an error; otherwise nothing |
| `Iban.NumberIsDecimal` | src/invoiceops_agent/tools/validation.py:162-173 | The number the remainder loops work on is the decimal number spelled by writing A as 10 up to Z as 35 |
| `Validation.ValidateExtraction` | src/invoiceops_agent/tools/validation.py:79-89 | The checks concatenated equal the report |
| `Validation.CheckRequiredFields` | src/invoiceops_agent/tools/validation.py:96-118 | The two loops list the missing fields |
| `Validation.CheckLineMath` | src/invoiceops_agent/tools/validation.py:176-207 | The accumulating loop finds the broken lines and compares the total with the stated sum |
| `Iban.IbanMod97` | src/invoiceops_agent/tools/validation.py:162-173 | The chunked remainder loop is the number the rearranged string denotes, modulo 97 (ISO 13616-1, MOD 97-10 of ISO/IEC 7064) |
| `Iban.Mod97` | src/invoiceops_agent/data/erp.py:304-311 | The generator's remainder loop is the number the string denotes, modulo 97 |
| `Iban.DeIban` | src/invoiceops_agent/data/erp.py:293-301 | The generated string is DE, two check digits and the BBAN, 22 characters, with the check digits the remainder asks for |
| `Iban.GeneratedRemainderIsOne` | src/invoiceops_agent/data/erp.py:293-301 | Generated check digits make the rearranged number congruent to one |
| `Validation.GeneratedIbanPasses` | src/invoiceops_agent/tools/validation.py:134-159 | For every 18-digit BBAN the generated IBAN passes validation |
| `Validation.OneCharacterChangeRefused` | src/invoiceops_agent/tools/validation.py:134-159 | Changing any one digit of an accepted IBAN makes validation refuse it |
| `Validation.AdjacentSwapRefused` | src/invoiceops_agent/tools/validation.py:134-159 | Swapping two adjacent unequal digits of an accepted IBAN makes validation refuse it |
| `Policy.FindingsAreHigh` | src/invoiceops_agent/tools/policy.py:87-93 | Every policy finding is HIGH and has the severity the taxonomy assigns to its code |
| `Policy.CleanIffWithinPolicy` | src/invoiceops_agent/tools/policy.py:120-213 | No finding iff the invoice is within the limit, order, bank and duplicate rules |
| `Policy.CodesNameTheirReasons` | src/invoiceops_agent/tools/policy.py:134-236 | Each code is reported iff its own reason holds: more than 2500 or not EUR, order closed or more than 90 days old, account numbers different beyond case and blanks, a near-duplicate |
| `Policy.OtherAccountIsReported` | src/invoiceops_agent/tools/policy.py:196-213 | Between account numbers in capitals and digits BANK_CHANGE is reported iff they differ |
| `Policy.BlanksAreIrrelevant` | src/invoiceops_agent/tools/policy.py:239-240 | A blank more anywhere on either side never changes the bank finding |
| `Policy.CaseIsIrrelevant` | src/invoiceops_agent/tools/policy.py:239-240 | Another letter case on either side never changes the bank finding |
| `Gate.AutoIffLinear` | src/invoiceops_agent/tools/confidence_gate.py:92-107 | With no policy finding, AUTO iff minimum confidence plus (1 - delta) is at least 1.625 |
| `Gate.AutoIff` | src/invoiceops_agent/tools/confidence_gate.py:86-107 | AUTO iff 0.4 of the least critical confidence, 0.4 of what the match leaves and 0.2 of what the counted penalties leave come to 0.85 |
| `Gate.LowCriticalFieldEscalates` | src/invoiceops_agent/tools/confidence_gate.py:64-107 | One critical field (eight of the header, three of every line) read with less than 0.625 always escalates |
| `Gate.MinCriticalIsTheMinimum` | src/invoiceops_agent/tools/confidence_gate.py:64-83 | The field term is the least clamped confidence among the eight named header fields and the three figures of every line, and zero without one |
| `Gate.ScoreInUnitInterval` | src/invoiceops_agent/tools/confidence_gate.py:92-100 | The score lies in [0, 1] |
| `Gate.ScoreFallsWithDelta` | src/invoiceops_agent/tools/confidence_gate.py:92-100 | The score falls weakly with the delta |
| `Gate.ScoreFallsWithSeverity` | src/invoiceops_agent/tools/confidence_gate.py:86-89 | The score falls weakly with each added policy severity, wherever it is inserted |
| `Gate.ScoreRisesWithConfidence` | src/invoiceops_agent/tools/confidence_gate.py:64-74 | The score rises weakly with each field confidence |
| `Gate.ScoreFallsWithExtraField` | src/invoiceops_agent/tools/confidence_gate.py:64-74 | A further field never raises the score once some critical field is present |
| `Gate.NoMatchEvidenceNeverAuto` | src/invoiceops_agent/tools/confidence_gate.py:92-107 | Without match evidence confidences up to one never reach AUTO |
| `Gate.OverconfidentFieldDefeatsDrift` | src/invoiceops_agent/tools/confidence_gate.py:64-74 | The clamp is one-sided: a confidence above one lets a full drift through |
| `Taxonomy.PrimaryCode` | src/invoiceops_agent/tools/exception_taxonomy.py:228-234 | The early-return scan finds the most precedent code present |
| `Taxonomy.PrimaryDependsOnSet` | src/invoiceops_agent/tools/exception_taxonomy.py:228-234 | The primary code does not depend on order or repetition |
| `Taxonomy.PrimaryOfUnion` | src/invoiceops_agent/tools/exception_taxonomy.py:228-234 | The primary of a union is the more precedent of the two primaries |
| `Taxonomy.PrimaryIsMostSevere` | src/invoiceops_agent/tools/exception_taxonomy.py:97-180 | The severity of the primary code is the highest of all codes present |
| `Triage.BuildDraft` | src/invoiceops_agent/graph/nodes/pipeline.py:329-402 | The three collecting loops and the abstention branch equal the specified draft |
| `Triage.CollectEntries` | src/invoiceops_agent/graph/nodes/pipeline.py:333-370 | The loops collect hard validation findings, hard matching findings and all policy findings, in that order |
| `Triage.DraftExistsIff` | src/invoiceops_agent/graph/nodes/pipeline.py:371-402 | A draft is refused exactly when there is nothing to report |
| `Triage.DraftHoldsMaximum` | src/invoiceops_agent/tools/exception_taxonomy.py:243-270 | No collected finding is more severe than the draft |
| `Triage.DraftMeans` | src/invoiceops_agent/tools/exception_taxonomy.py:97-234 | A draft carries exactly the hard findings, or the abstention; its code is the queue of the most urgent of them, and fixes the severity |
| `NearDup.Embed` | src/invoiceops_agent/tools/near_dup.py:88-100 | Refuses exactly the empty text; otherwise the in-place counts divided by their norm, a unit vector |
| `NearDup.CountTokens` | src/invoiceops_agent/tools/near_dup.py:90-96 | The in-place loop leaves the number of tokens in each bucket |
| `NearDup.CountsAreBucketSizes` | src/invoiceops_agent/tools/near_dup.py:90-96 | Each bucket counts the tokens whose hash falls into it |
| `NearDup.TokensAreTheWords` | src/invoiceops_agent/tools/near_dup.py:190-191 | The tokens of a text are its words in lower case |
| `NearDup.Locality` | src/invoiceops_agent/tools/near_dup.py:78-100 | If k of n tokens are substituted and k*k < n, the cosine of the count vectors is at least 1 - k*k/n |
| `NearDup.FewChangesAreNear` | src/invoiceops_agent/tools/near_dup.py:123-145 | Texts of n tokens that differ in k of them with 10*k*k < n are strictly above the threshold |
| `NearDup.OneTokenIsFew` | src/invoiceops_agent/tools/near_dup.py:156-191 | For an invoice with at least one line, one changed token is always few enough |
| `NearDup.SalientText` | src/invoiceops_agent/tools/near_dup.py:156-179 | The loop joins the header parts and four parts for each line |
| `NearDup.SalientPartsByName` | src/invoiceops_agent/tools/near_dup.py:156-179 | The parts by name: eight header fields, then description, quantity, unit price and total of each numbered line |
| `NearDup.NormValueForgetsSpelling` | src/invoiceops_agent/tools/near_dup.py:182-187 | Two values are rendered the same iff their words agree but for case; an absent one reads unknown |
| `NearDup.SalientTokenCount` | src/invoiceops_agent/tools/near_dup.py:156-191 | An invoice with at least one line has at least 12 tokens |
| `NearDup.SearchIsExact` | src/invoiceops_agent/tools/near_dup.py:123-145 | Every hit is somebody else's stored vector with positive dot product and squared cosine above 0.81, quoted with that square; best first, one for each invoice, at most five |
| `NearDup.CloseRowIsFound` | src/invoiceops_agent/tools/near_dup.py:123-145 | A stored row of another invoice with squared cosine above 0.81 is a hit or stands behind five at least as close |
| `NearDup.UnrelatedFindsNothing` | src/invoiceops_agent/tools/near_dup.py:123-145 | A query at right angles to every stored vector finds nothing |
| `Pipeline.PipelineNodes.CheckAndStore` | src/invoiceops_agent/tools/near_dup.py:110-121 | Searches the corpus as it was before the invoice stored its own embedding, then stores it |
| `NearDup.SomeHitIffSomeClose` | src/invoiceops_agent/tools/near_dup.py:123-145 | There is a hit iff some other invoice has a stored vector with positive dot product and squared cosine above 0.81 |
| `NearDup.AlteredResubmissionIsFound` | src/invoiceops_agent/tools/near_dup.py:123-179 | A stored invoice resubmitted with few changed tokens yields a hit, whatever positive factors scaled the two vectors |
| `Vectors.RescalingBothKeepsCloseness` | src/invoiceops_agent/tools/near_dup.py:97-100 | Dividing both vectors by positive norms does not change whether they are close |
| `Retries.WithRetries` | src/invoiceops_agent/graph/retries.py:48-91 | Stops at the first call that is not an INFRA failure, exhausts iff all attempts fail INFRA, and sleeps once between calls |
| `Retries.CallsMade` | src/invoiceops_agent/graph/retries.py:62-91 | m leading INFRA failures give min(m + 1, attempts) calls |
| `Retries.SleepBounds` | src/invoiceops_agent/graph/retries.py:41-45 | Total sleep lies between the doublings of the base delay, each capped at the maximum, and those plus one jitter for each pause |
| `Retries.SleepIs` | src/invoiceops_agent/graph/retries.py:41-45 | The time slept is the base delay doubled from pause to pause, capped, plus for each pause its roll of the jitter |
| `Erp.GeneratedIsTrue` | src/invoiceops_agent/data/erp.py:239-290 | Whatever the draws, a generated order and receipt satisfy the ground truth; it is closed or more than 90 days old exactly when drawn so |
| `Erp.GeneratedAsDrawn` | src/invoiceops_agent/data/erp.py:251-290 | The figures of each line are the ones drawn; the goods arrive in full after the drawn transit, but not after the reference date |
| `Erp.GenerateOrders` | src/invoiceops_agent/data/erp.py:186-192 | The order loop yields only ground-truth rows, and no order or receipt number repeats |
| `Erp.CleanInvoiceValidates` | src/invoiceops_agent/data/erp.py:107-162 | A clean invoice gives no validation finding, not even a warning |
| `Erp.CleanInvoiceMatches` | src/invoiceops_agent/data/erp.py:203-216 | A clean invoice matches with no finding and delta 0 |
| `StraightThrough.CleanInvoiceEndsAuto` | src/invoiceops_agent/data/erp.py:107-116 | If the order is OPEN, at most 90 days old and in EUR, the net at most 2500, no near-duplicate stored and the least critical confidence at least 0.625, the fault-free run ends AUTO, archived, with no exception |
| `StraightThrough.RunCleanInvoice` | src/invoiceops_agent/graph/runner.py:47-66 | The same as one service call on a fresh upload, whatever transient faults strike within the attempts before a commit: it returns, and the invoice is AUTO_APPROVED, archived, with the whole path walked and no exception |

## Left out

- Frontend, HTTP routes, authentication, the object store, logging, health checks, dashboards and queue
  projections: input and output only.
- Model calls, prompts, cassettes, guardrails and JSON extraction; extraction is an arbitrary value.
- `read_and_hash`: chunked reading, the size limit and the content-type check; an upload is its hash.
- Error classification by exception type: the kind of a failure is part of the fault.
- Detail texts, rationale, approver role, SLA due dates, risk flags and version pins carried by rows
  and ledger entries; the ledger's invoice column.
- Ledger and trace readers, queue reads, and the dead-letter listing: projections with only easy members.
- The generator's vendor loop, which redraws until a name is new and need not terminate.
- Float and Decimal rounding, approximate nearest-neighbour search, and the rounding of retry delays.
- Concurrent decide calls on one exception, two executors on one thread, and an approval by someone who
  escalated earlier: the code claims nothing about them.
- `runs.status` when failed threads are also started directly: replaying a stale entry of a thread that was
  already resumed sets it to RUNNING again, so `DeadLetters.RunStatusTells` assumes replay alone.
- Runner.GraphRunner.Execute: the process may die at any point of a history (`ProcessDies`), but the method
  itself models an executor that survives.
- Pipeline.PipelineNodes.Match3Way: the vendor key backfilled with the order, which the order determines.
- Pipeline.PipelineNodes.ExceptionTriage: the agent's recommendation and the SLA date of the inserted row.
- Pipeline.PipelineNodes.Archive: the finish time, and rounding the confidence to five places.
