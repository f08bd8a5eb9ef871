# The audited run: a writer, an independent reader, and their agreement

The repository holds two programs for one protocol. The **writer** investigates: a budget meter,
a tool registry, an audited model client, an agent controller and a hash-chained log. The
**reader** is the strict verifier: it takes the log cold and recomputes phases, request packets,
receipts, byte ranges, costs and bindings. This project models both, each in its own form, and
proves that they agree, for every number of adaptive turns, every interleaving of the opening
workers and every pattern of retries.

How the pieces fit:

- `Events` is the alphabet of the log; `Transactions` is one model request with its options, retry
  window and response; `Script` describes the steps of a complete run and what the controller
  guarantees of each, given the steps before it.
- The writer is imperative: `Caps.RunBudget`, `ModelClient.AuditedModel`, `ToolRegistry.Registry`,
  `Agent.UnchainedAgent`. The provider, the forensic tools and the clock are nondeterministic; what the
  provider sent and what the tools answered is kept beside them, and the log is held to it. The
  controller's contract is that a run which completes has written exactly the log of a script whose
  every step is in order, and that one which stops shows why: `Causes` says what a log and a meter
  show of a cap, of a request that was given up, of an answer not acted on and of a lost output.
- `Lifecycle` says, clause by clause, which logs the strict reader accepts. `StrictReader.Verifier`
  is the reader itself: it walks the log with running maps, sets, totals and a ledger, accumulates
  complaints, and is proved to have none exactly when `Lifecycle.Accepted` holds. It keeps its own
  tables and its own arithmetic, and `ReaderBindings` rebuilds for it, field by field, what it compares.
- `Layout` to `Acceptance` show that the log of a complete script meets every clause;
  `CitationAgreement` puts the citation parsers and the citation checks in place; `CommandLine`
  puts the log of the one program before the other.
- `SampleRuns` are runs that meet every premise of the agreement, on both sides of it.
- `Soundness` and `Determinism` say what follows of any accepted log, whoever wrote it.
- `Utf8`, `PrefixCuts`, `ModelView`, `Citations`, `CitationReader`, `Findings` and `Verdicts` are the
  byte-exact citation layer; `CanonicalJson`, `AuditChain`, `AuditBlindSpot`, `AuditReader` and
  `ContentStore` the hash chain and the content-addressed store; `ViewerPolicy` and `ViewerGrammar` the inert viewer.

## Main results

1. *Agreement.* With a provider that honours its schemas and ids, the strict reader accepts the log
   of a complete run if and only if no submitted finding quotes one text from two calls that
   retained identical output, and the final snapshot was read within the wall cap
   (`CitationAgreement.ReaderAcceptsUnlessRepeated`). Both exceptions are real:
   `SampleRuns.SomeAreAcceptedSomeRefused` gives three complete runs under the default caps, one
   accepted, one refused for the evidence it repeats and one refused for its last clock reading.
2. *The reader decides its specification.* `StrictReader.Verifier.Verify` has no complaint exactly
   about accepted logs.
3. *Soundness.* Accepted phases decode in one way; receipts, forensic calls and the final tool count
   match one to one, each inside its own turn; verdicts are grounded in retained bytes; retry events
   are accounted for; a log with any failure event is refused (`Soundness.FailureIsRefused`).
4. *The log so far determines the next packet* (`Determinism.PrefixDeterminesPacket`).
5. *Metering.* Once one metering call has raised, every later one raises the same cap
   (`Caps.FirstCapWins`). A request that preflight allowed can fire no cap, whatever usage is
   reported for it, exactly when the money left covers it at the dearer of the plain and the
   cache-write rates (`Caps.AllowedIsSafeExactly`). Every batch the registry reserves starts each
   call once and ends it once after that, whatever fires or is lost meanwhile
   (`ToolRegistry.Registry.RunWorkers`). A run makes at most max_tool_calls + 4 requests, each
   dispatched at most three times; it stops early only for a cap, a request that was given up, an
   answer not to be acted on or a lost output, never for a tool's error
   (`Agent.UnchainedAgent.RunCase`).
6. *Tamper evidence.* Two logs that verify with one last hash exhibit a repeated hash
   (`AuditChain.TamperLeavesRepeatedHash`). Short of a SHA-256 collision, a file can stand in for a
   verifying log unnoticed exactly when each record prints like the one it replaces, a lone
   surrogate as `?` (`AuditBlindSpot.UnnoticedExactly`); the strict reader has no such blind spot
   (`AuditReader.AcceptedTamperIsCollision`).
7. *Accepted viewers are exactly one tree grammar.*

SHA-256 is an arbitrary function throughout, dollars and seconds are exact reals. Where a statement
needs the absence of a collision, it names the few strings of that run among which there must be none.

Where the code and its documentation or defaults differ, the code is followed. These statements one
might expect are false of it, and are replaced by their exact conditions: a complete run passes
verification (result 1); an allowed request stays within the cost cap (result 5, with
`Caps.CacheWritesCanFire`); the log's own verification notices every change (result 6, with
`AuditChain.SurrogateGoesUnnoticed`); `model_output` keeps to its cap, which it exceeds when the cap
is smaller than the empty rendering, as the 256-byte floor is (`ModelView.WithinCapIffEmptyFits`,
`ModelView.FloorIsTooSmall`); and `_largest_utf8_prefix` gives text only for cuts of valid text, where
it also does for a valid text with one impossible byte after it (`PrefixCuts.PrefixTextExact`,
`PrefixCuts.ImpossibleByteHasPrefix`), data its caller has already ruled out
(`PrefixCuts.ValidDataEndsWell`). The reader's two ledgers, one accumulated and one joined, differ
exactly after a blank first update (`Lifecycle.LedgersAgreeExactly`), which another check refuses.

## Model

| member | source | states |
|---|---|---|
| CommandLine.RunAndVerify | src/unchained/cli.py:1908-1928 | the run followed by its strict verification: an incomplete run is never passed, a complete one exactly when nothing repeats and its final snapshot was on time, within max_tool_calls + 4 requests of at most three dispatches |
| CommandLine.IncompleteIsRefused | src/unchained/verify.py:1294-1316 | a log that ends PARTIAL is not accepted |
| CitationAgreement.ReaderAcceptsUnlessRepeated | src/unchained/verify.py:2000-2178 | writer and reader agree on every complete run, if and only if no finding repeats one text from identical outputs and the final snapshot is within the wall cap |
| CitationAgreement.CitesUnlessRepeated | src/unchained/agent.py:1063-1406 | the controller's parsers and the reader's checks of findings and verdicts agree on the run's own submissions, with the same exact condition |
| CitationAgreement.RunSources | src/unchained/agent.py:784-790 | the results the controller keeps are the receipts the log records, as one map by call id |
| SampleRuns.SomeAreAcceptedSomeRefused | src/unchained/agent.py:214-282 | three complete, honest runs under the default caps, with an opening call, a nonterminal turn and a finding: one accepted, one refused for repeated evidence, one refused for a late snapshot |
| SampleRuns.PreflightAllows | src/unchained/caps.py:239-311 | preflight grants every request of those runs its phase's whole allowance |
| Acceptance.CompleteRunIsAccepted | src/unchained/verify.py:2000-2178 | all other clauses of strict completion hold of every complete run; what remains is the citation checks and the last clock reading, both ways |
| Acceptance.StructurePasses | src/unchained/verify.py:2000-2178 | milestones, failures, tools, transactions, replies, orphans, inputs and artifacts of every complete run pass |
| Acceptance.TotalsPass | src/unchained/verify.py:2229-2364 | the summary counts and the final budget of a complete run agree with the recomputed accounting and are within the caps, exactly when the final snapshot, read after the deadline check of agent.py:233, is on time |
| Acceptance.ArtifactsPass | src/unchained/verify.py:2980-3040 | the five root artifacts stand in renderer order between final custody and the end |
| Agreement.ScriptIsPaired | src/unchained/verify.py:4327-4361 | requests, options and responses of a complete run pair up in the phases of a complete lifecycle |
| Agreement.TransactionPasses | src/unchained/verify.py:2513-2674 | each transaction's options, retry window, catalog and calls pass |
| Agreement.ResponsePasses | src/unchained/verify.py:2367-2511 | each response passes with the recomputed call cost and running cost |
| Agreement.RepliesDiffer | src/unchained/verify.py:2421-2434 | no response or request id is used twice, given that the provider repeats none |
| Agreement.ScriptHasNoOrphan | src/unchained/verify.py:2677-2688 | every retry event lies in a transaction window |
| Agreement.ScriptHasNoFailure | src/unchained/verify.py:2047-2067 | a complete run records no failure event |
| Agreement.PhaseWindowPasses | src/unchained/verify.py:2690-2719 | each transaction lies between the milestones of its phase |
| MilestoneFacts.ScriptMilestones | src/unchained/verify.py:2026-2046 | a complete run holds exactly the required milestones, in protocol order |
| MilestoneFacts.MilestonesSuffice | src/unchained/verify.py:2026-2046 | having exactly those milestones in order is what the reader asks |
| ToolAgreement.ScriptToolsOnce | src/unchained/verify.py:1342-1382 | across opening workers and turns, no call id is started or completed twice |
| ToolAgreement.ScriptToolsPaired | src/unchained/verify.py:1383-1406 | every start has its completion after it with the same name and arguments, and conversely |
| ToolAgreement.CallBound | src/unchained/verify.py:3113-3135 | each call of the run is bound to its receipt inside its own step |
| PacketAgreement.InvestigateInputPasses | src/unchained/agent.py:461-483 | ledger, receipt index, latest ids, budget and observations of every investigate request are those rebuilt from the log before it |
| PacketAgreement.FinalizeInputPasses | src/unchained/agent.py:602-657 | the serialization request carries the whole ledger, receipt index and quotable views, as rebuilt |
| PacketAgreement.JudgeInputPasses | src/unchained/agent.py:710-745 | the judge request carries the recorded findings and receipt index |
| PacketAgreement.ReportInputPasses | src/unchained/agent.py:792-830 | the report request carries the recorded investigation and verdicts |
| PacketAgreement.LedgerIs | src/unchained/agent.py:1019-1041 | the controller's running notes are the ledger the reader accumulates from the responses |
| PacketAgreement.JoinedIs | src/unchained/verify.py:3497-3498 | they are also the updates joined by blank lines, as the reader rebuilds them for packets |
| Lifecycle.LedgersAgreeExactly | src/unchained/verify.py:3296-3410 | the reader's accumulated and joined ledgers agree exactly unless a blank first update is followed by another |
| Lifecycle.OptionsAgree | src/unchained/verify.py:2862-2940 | the options the client sends are exactly those of the reader's own table |
| PacketAgreement.LogBefore | src/unchained/verify.py:3701-3794 | the receipts and the accounting before a request are those of the steps before it |
| ControllerAgreement.OpeningPasses | src/unchained/agent.py:284-391 | the opening's distinct calls, counts, ids and receipts pass |
| ControllerAgreement.TurnsPass | src/unchained/agent.py:393-600 | every nonterminal turn's update, notes event, receipt and action event pass |
| ControllerAgreement.DonePasses | src/unchained/agent.py:510-560 | the terminal turn's typed DONE passes |
| ControllerAgreement.IdsPass | src/unchained/verify.py:3395-3408 | forensic ids are distinct, are exactly the receipts', and the terminal id is another |
| ControllerAgreement.RememberedAreReceipts | src/unchained/agent.py:784-790 | what the controller remembers is what the log records, each under its own id |
| ControllerAgreement.FinalizerPasses | src/unchained/verify.py:3847-3938 | the recorded conclusion is bound to what the finalizer submitted |
| ControllerAgreement.JudgmentPasses | src/unchained/verify.py:3998-4058 | the recorded verdicts are bound to what the judge submitted |
| ControllerAgreement.ReportPasses | src/unchained/verify.py:4106-4194 | the recorded report is the rendering of the submitted draft |
| StrictReader.Verifier.Verify | src/unchained/verify.py:390-428 | no complaint exactly when the log is accepted |
| StrictReader.Verifier.VerifyTools | src/unchained/verify.py:1342-1406 | the started and completed dictionaries find a fault exactly when an id repeats or a tool event is unmatched |
| StrictReader.Verifier.VerifyRequired | src/unchained/verify.py:2026-2046 | counting and comparing positions decides the milestone clause |
| StrictReader.Verifier.VerifyResponses | src/unchained/verify.py:2367-2511 | the loop with running cost and id sets decides the response clauses |
| StrictReader.Verifier.VerifyWindow | src/unchained/verify.py:2513-2674 | the loop over failed attempts decides the window clause |
| StrictReader.Verifier.VerifyTransactions | src/unchained/verify.py:2110-2145 | the loop with its set of retry indices decides the transaction and orphan clauses |
| StrictReader.Verifier.VerifyOpening | src/unchained/verify.py:3151-3187 | decides the opening clause |
| StrictReader.Verifier.VerifyTurns | src/unchained/verify.py:3189-3356 | the three loops over calls, notes and actions decide the turns clause and collect the forensic ids |
| StrictReader.Verifier.VerifyIds | src/unchained/verify.py:3395-3408 | comparing list and set sizes decides the id clause |
| StrictReader.Verifier.VerifyInputs | src/unchained/verify.py:3438-3609 | rebuilding every packet with a running ledger and elapsed time decides the input clauses |
| StrictReader.Verifier.Prior | src/unchained/verify.py:3701-3770 | summing over the prefix gives its receipts and its accounting |
| ReaderBindings.SameFinding | src/unchained/verify.py:3940-3995 | comparing each field with the submitted one, normalised, decides the serialization clause |
| ReaderBindings.SameJudgment | src/unchained/verify.py:3998-4058 | the walk over submitted and recorded verdicts decides the judgment clause |
| ReaderBindings.FactsIn | src/unchained/verify.py:1408-1590 | the files read back by call id are those of the receipts |
| StrictReader.Verifier.VerifyTotals | src/unchained/verify.py:2229-2364 | decides the budget and count clauses |
| StrictReader.Verifier.VerifyArtifacts | src/unchained/verify.py:2980-3040 | decides the artifact clause |
| StrictReader.Verifier.VerifyCitations | src/unchained/verify.py:1588-1738 | runs the citation reader over the log's receipts, findings and verdicts, and complains exactly when it does |
| ReaderSteps.RetriesAreWindows | src/unchained/verify.py:2677-2688 | the retry events are those inside the windows exactly when none is an orphan |
| ReaderFacts.MatchedIsPaired | src/unchained/verify.py:1383-1406 | matching every call id is pairing every tool event |
| Soundness.PhasesDecode | src/unchained/verify.py:4343-4360 | accepted phases are an opening, n investigate turns, finalize, judge, report for exactly one n, at least 1 |
| Soundness.FailureIsRefused | src/unchained/verify.py:2047-2067 | a log with any of the ten failure events is refused |
| Soundness.MilestonesInOrder | src/unchained/verify.py:2026-2046 | in any accepted log each of the fifteen required events, by type, stands once and before the next |
| Soundness.ReceiptsAreCounted | src/unchained/verify.py:2284-2319 | k opening calls and n turns leave k + n - 1 receipts, which is the final tool count, within the cap |
| Soundness.ReceiptInItsTurn | src/unchained/verify.py:3113-3135 | each receipt belongs to exactly one forensic call of one turn and was started and completed inside that turn |
| Soundness.AcceptedRunIsGrounded | src/unchained/verify.py:1588-1919 | in any accepted log CONFIRMED was proposed CONFIRMED, NEEDS-REVIEW not UNSUPPORTED, and UNSUPPORTED stays so; CONFIRMED has a cited successful receipt of the log, and every quote lies inside a located range of a cited receipt's output |
| Soundness.RetriesAreAccounted | src/unchained/verify.py:2513-2688 | every retry event of an accepted log is in one window of failures and retries in pairs, then the success |
| Determinism.PrefixDeterminesPacket | src/unchained/verify.py:3438-3545 | two accepted logs equal before a turn's request sent the same packet, but for the elapsed time |
| Agent.UnchainedAgent.RunCase | src/unchained/agent.py:214-282 | a completed run wrote exactly the log of a script in order; one that stopped early had come through steps in order, its log and meter show the cause, and what follows is its cap, once, and the bundle of a partial run; any run asks at most max_tool_calls + 4 times and dispatches each request at most three times |
| Agent.UnchainedAgent.OpenBook | src/unchained/agent.py:284-391 | one opening request and its calls as one interleaved batch, the receipts saying what the tools answered; when there is none, why |
| Agent.UnchainedAgent.AdaptiveLoop | src/unchained/agent.py:393-600 | the loop ends by its tool budget; when it is done, every turn was in order and the last terminal; when it is not, the log shows the cause |
| Agent.UnchainedAgent.Turn | src/unchained/agent.py:438-600 | one turn acts, concludes or halts; what it logs is that step, with a budget notice exactly at 60,000 tokens left or fewer, and a halt is explained |
| Agent.UnchainedAgent.Act | src/unchained/agent.py:562-600 | a nonterminal turn halts exactly when its update is DONE or not an update, its call is not admissible, a cap has fired or the output was lost, and what it has written then; a tool that raised is no reason |
| Agent.UnchainedAgent.Conclude | src/unchained/agent.py:510-560 | the terminal action is taken exactly when it says DONE under a new nonempty id |
| Agent.UnchainedAgent.Abort | src/unchained/agent.py:241-282 | a run that stopped records its cap unless the log has it, then PARTIAL, and the bundle |
| Causes.LostIsWritten | src/unchained/tools.py:148-175 | a batch that ran to its end without all its receipts has logged a lost output |
| Causes.WrongForm | src/unchained/agent.py:674-678 | a closing answer of several calls or of another form is not one to act on |
| Agent.UnchainedAgent.Serialize | src/unchained/agent.py:602-708 | the serialization step: what the parser made of the submission, bound to the ledger, results and receipts so far |
| Agent.UnchainedAgent.Review | src/unchained/agent.py:710-782 | the judgment step: what the parser made of the submitted verdicts |
| Agent.UnchainedAgent.Publish | src/unchained/agent.py:792-860 | the report step, its draft checked before anything is released |
| ModelClient.AuditedModel.Create | src/unchained/model.py:357-479 | an accepted answer is the one the provider sent, charged and logged as one transaction, with as many output tokens asked for as preflight spares; no answer means a cap, a last attempt that failed or a response that is not usable, after at most one request dispatched at most max_attempts times |
| ModelClient.AuditedModel.CreateWithRetries | src/unchained/model.py:481-581 | at most max_attempts dispatches, each logged as the provider answered it; only transient failures are retried, with backoff, inside what the request has left; it gives up only for a cap or at an attempt that was not to be retried |
| ModelClient.AuditedModel.Try | src/unchained/model.py:490-581 | one attempt: the answer sent, one scheduled retry with a positive, nonincreasing timeout, or an end, which without a cap means that the failure was not transient, was the last, or left no time for the backoff |
| ModelClient.AuditedModel.Retry | src/unchained/model.py:507-562 | after a failure: retried exactly when transient, not the last attempt and with time left after the backoff, and the events of each case |
| ModelClient.AuditedModel.Prepare | src/unchained/model.py:357-380 | the options sent are the phase's policy with the output tokens preflight spares and the seconds left |
| ModelClient.AuditedModel.Charge | src/unchained/model.py:401-464 | the charge, the call cost and the running cost that are logged, and what is logged of unusable usage or of a cap it fires |
| ModelClient.AuditedModel.Admit | src/unchained/model.py:465-479 | a response is admitted exactly when no cap has fired and it is usable |
| Transactions.TransientExactly | src/unchained/model.py:691-712 | what is retried: 408, 409, 429 unless the quota is exhausted, 500 and above, and transport failures without a status; nothing else |
| Transactions.StatusesAgree | src/unchained/verify.py:2616-2620 | the client retries exactly the statuses of the reader's own table |
| Transactions.TransportTypesExactly | src/unchained/verify.py:154-165 | the eight types of failure without a status that the reader lets a client retry |
| Transactions.RetriesPass | src/unchained/model.py:481-581 | every recovered retry loop writes a window the reader accepts |
| Transactions.AcceptedWindowIsRetries | src/unchained/verify.py:2513-2674 | every window the reader accepts is what one retry loop writes |
| ToolRegistry.Registry.Claim | src/unchained/tools.py:217-230 | all of a batch's ids are claimed, or none |
| ToolRegistry.Registry.RecordUnstarted | src/unchained/tools.py:183-215 | one start and one capped completion, with the reason as its output, for each refused call, and nothing else |
| ToolRegistry.Registry.Reserve | src/unchained/caps.py:176-195 | past the cap a batch is refused: only its unrun receipts are written and the count stays; an admitted one is metered once a call |
| ToolRegistry.Registry.Execute | src/unchained/tools.py:136-146 | one call, claimed, metered, run once, started once and ended once with what the tool answered, also when a cap fires over it or its output is lost; one past the cap leaves its unrun receipt; an invalid or repeated one changes nothing |
| ToolRegistry.Registry.RunWorkers | src/unchained/tools.py:160-276 | any interleaving with at most six calls under way at every point: every call is run once, starts once and ends once after that with what the tool answered, whatever fires or is lost meanwhile, and when a cap fires some call's receipt says timeout |
| ToolRegistry.Registry.ExecuteBatch | src/unchained/tools.py:148-175 | an inadmissible batch changes nothing, one past the cap only writes unrun receipts, and any other runs every call to its end within its reservation; receipts come back, in request order, exactly when nothing fired and nothing was lost |
| ToolRegistry.BatchIsInterleaved | src/unchained/tools.py:148-175 | workers that all kept their receipts have left exactly one start and one completion for each call |
| ToolRegistry.FlightKeeps | src/unchained/tools.py:168-174 | a step of any worker that may step leaves at most six calls under way |
| ToolRegistry.SixAtOnce | src/unchained/tools.py:168-174 | a queued call may start exactly when fewer than six are under way |
| Caps.RunBudget.Check | src/unchained/caps.py:164-174 | the meter after a deadline check |
| Caps.RunBudget.Reserve | src/unchained/caps.py:176-195 | the meter after a reservation, and when it is refused |
| Caps.RunBudget.Record | src/unchained/caps.py:197-220 | the meter after a charge, the cost, and when a cap fires; malformed usage is refused |
| Caps.TokenPrices | src/unchained/caps.py:313-334 | the price of each kind of token: a plain one at the input rate, one read from or written to the cache at its own, an output one at the output rate, times 2 and 1.5 past 272,000 input tokens of GPT-5.6 |
| Caps.PlainPrice | src/unchained/caps.py:313-334 | no tokens cost nothing, plain tokens cost their price each, and reasoning counts and provider totals change no cost |
| Caps.RunBudget.Prepare | src/unchained/caps.py:239-311 | the output tokens a request may use |
| Caps.PreflightDominates | src/unchained/caps.py:239-334 | a charge within an allowed request stays within the token cap, and within the cost cap up to the cache-write premium |
| Caps.PreflightIsEnough | src/unchained/caps.py:197-311 | with no cache writes an allowed request fires nothing |
| Caps.CacheWritesCanFire | src/unchained/caps.py:313-334 | the premium is real: a request that was allowed fires the cost cap |
| Caps.AllowedIsSafeExactly | src/unchained/caps.py:197-334 | an allowed request can fire no cap, whatever usage is reported for it, if and only if the spent cost plus its size at the dearer input rate is within the cost cap |
| Caps.FirstCapWins | src/unchained/caps.py:154-237 | over every sequence of metering calls, once one raises, every later proper one raises the same kind and detail and the meter stays as it was |
| Caps.RunStaysWithinCaps | src/unchained/caps.py:154-237 | over every sequence of metering calls, counters only grow, stay within the caps until one fires, and freeze then |
| Utf8.EncodeInjective | src/unchained/audit.py:364-369 | strict encoding loses nothing: two texts with the same bytes are the same text |
| Search.ByteSearchIsCharacterSearch | src/unchained/agent.py:1090-1135 | the byte search succeeds exactly when the quote is a substring, its range slices back to the quote, and the two counts agree |
| Search.FindAligned | src/unchained/agent.py:1112-1118 | the first byte match is the first character match, at its byte offset |
| Search.CountReached | src/unchained/agent.py:1127-1135 | the recorded count is of occurrences that do not overlap |
| Search.CountIsMost | src/unchained/agent.py:1127-1135 | no choice of such occurrences is longer |
| PrefixCuts.DecodeSound | src/unchained/verify.py:1329-1341 | the strict decoder accepts only encoded text and is undone by encoding |
| PrefixCuts.LargestUtf8Prefix | src/unchained/verify.py:1329-1341 | the reader's cut, as the prefix text of its bytes |
| PrefixCuts.PrefixTextExact | src/unchained/verify.py:1329-1341 | exactly which byte prefixes it gives text for |
| PrefixCuts.ValidDataEndsWell | src/unchained/verify.py:1467-1467 | no cut of a valid text is in the second family, so the caller's check for valid UTF-8 keeps it out |
| PrefixCuts.ImpossibleByteHasPrefix | src/unchained/verify.py:1329-1341 | one impossible byte is given an empty prefix and cuts no valid text |
| PrefixCuts.ExcerptsAgree | src/unchained/audit.py:66-70 | the writer's and the reader's excerpt are both the longest character-aligned prefix within 2048 bytes |
| PrefixCuts.QuotableView | src/unchained/models.py:357-380 | a character-aligned prefix within the cap and at most four bytes short of it |
| PrefixCuts.ViewCapExactly | src/unchained/models.py:312-322 | a view has at least 256 and at most 65,536 bytes to fill, and between them what is asked |
| PrefixCuts.ViewQuoteResolves | src/unchained/agent.py:1112-1118 | whatever is copied from a view resolves in the full output |
| ModelView.ModelOutput | src/unchained/models.py:308-355 | a short output as it is; otherwise the rendering of the largest prefix that fits |
| ModelView.BinarySearch | src/unchained/models.py:343-355 | the search finds the largest prefix whose rendering fits |
| ModelView.LargestFitUnique | src/unchained/models.py:343-355 | there is only one such prefix, so the view is a function of output and cap |
| ModelView.SizeIncreases | src/unchained/models.py:325-341 | a longer prefix has a strictly larger rendering |
| ModelView.WithinCapIffEmptyFits | src/unchained/models.py:308-355 | the result is within the cap if and only if the empty rendering is |
| ModelView.FloorIsTooSmall | src/unchained/models.py:312-322 | at the 256-byte floor it never is |
| ModelView.UsedCapsHold | src/unchained/models.py:15-26 | at the caps in use it is, for outputs under a gigabyte |
| Citations.ResolveSupportingSpans | src/unchained/agent.py:1063-1144 | quotes become spans exactly when every one resolves, none repeats, and every cited call is quoted, at most four times |
| Citations.QuotesAcceptedExactly | src/unchained/agent.py:1063-1144 | which quotes a finding may have: at most twelve, all different, visible, at most 1024 bytes, each standing in a retained cited output character for character, one to four of every cited call |
| Citations.StatusExactly | src/unchained/agent.py:1270-1277 | a text is a status exactly when its upper case, with dashes for underscores, is one of the three names |
| Citations.DashesExactly | src/unchained/agent.py:1270-1277 | only underscores are rewritten, so NEEDS_REVIEW is read as NEEDS-REVIEW |
| CitationReader.Reader.VerifySupportingSpans | src/unchained/verify.py:1740-1849 | the reader's loop over recorded spans decides their clause and returns them by id |
| CitationReader.Reader.VerifyFindings | src/unchained/verify.py:1610-1662 | decides the findings clause |
| CitationReader.Reader.VerifyQuotes | src/unchained/verify.py:1857-1919 | decides the judge-quote clause |
| CitationReader.Reader.VerifyCitations | src/unchained/verify.py:1588-1738 | decides the whole citation clause |
| CitationReader.RanksAgree | src/unchained/verify.py:1703-1706 | the controller orders the statuses as the reader's own table does |
| CitationReader.SpansAgreeUnlessRepeated | src/unchained/verify.py:1775-1780 | spans the controller made are accepted if and only if no two quotes repeat one text from identical outputs |
| CitationReader.IdenticalOutputsAreRefused | src/unchained/agent.py:978-980 | an input the controller accepts and the reader refuses |
| Findings.ParseInvestigation | src/unchained/agent.py:1147-1230 | a submitted investigation is accepted exactly when its clause holds, and what is recorded then |
| Findings.InvestigationsAgree | src/unchained/verify.py:3940-3995 | accepted findings are recorded as submitted and accepted by the reader, with the exact condition |
| Verdicts.ParseVerdicts | src/unchained/agent.py:1232-1406 | submitted verdicts are accepted exactly when their clause holds, and what is recorded then |
| Verdicts.VerdictsLower | src/unchained/agent.py:1261-1281 | what is recorded was never proposed lower, status by status, and is what was asked unless that was an upgrade |
| Verdicts.VerdictsAgree | src/unchained/verify.py:4060-4104 | accepted verdicts pass the reader's citation and binding checks |
| Verdicts.CitationPipelinesAgree | src/unchained/agent.py:1063-1406 | both pipelines together, with the exact condition |
| Verdicts.AcceptedVerdictsAreGrounded | src/unchained/verify.py:1695-1919 | a final CONFIRMED was proposed so, a final NEEDS-REVIEW was not proposed UNSUPPORTED, UNSUPPORTED stays; quotes stand inside located ranges; CONFIRMED needs a success |
| CanonicalJson.CanonicalBytesInjective | src/unchained/audit.py:50-60 | two values with the same canonical bytes are the same value |
| CanonicalJson.ReadsBack | src/unchained/audit.py:50-60 | a reader of JSON text gives every value back from its canonical text, whatever follows it |
| CanonicalJson.EscapesExactly | src/unchained/audit.py:50-60 | only quotes, backslashes and control characters are escaped, in the short form where there is one |
| CanonicalJson.DecimalReads | src/unchained/audit.py:50-60 | decimal text reads back as its number and has no leading zero |
| AuditChain.Verify | src/unchained/audit.py:487-512 | the loop verifies exactly the chained logs and names the first fault of any other |
| AuditChain.AuditLog.Open | src/unchained/audit.py:125-148 | a log reopens exactly when it verifies, where it ended |
| AuditChain.AuditLog.Append | src/unchained/audit.py:164-202 | an append adds the one next record, or nothing |
| AuditChain.BaseCarries | src/unchained/audit.py:176-190 | the appended record carries each thing the caller and the log gave it, under its own name |
| AuditChain.KeysSorted | src/unchained/audit.py:50-60 | its names stand in the order canonical JSON sorts them |
| AuditChain.AppendedPasses | src/unchained/audit.py:164-202 | the next record passes verification |
| AuditChain.TamperLeavesRepeatedHash | src/unchained/audit.py:487-512 | two different logs that verify with one last hash hold two different records with one hash, which is a collision exactly when they print differently |
| AuditChain.SurrogateGoesUnnoticed | src/unchained/audit.py:62-64 | two different logs the writer's own check cannot tell apart |
| AuditBlindSpot.UnnoticedExactly | src/unchained/audit.py:487-512 | short of a collision, a file replaces a verifying log with the same last hash if and only if its records print alike and carry the same entry hashes |
| AuditReader.Reader.VerifyAudit | src/unchained/verify.py:1186-1291 | the strict walk decides acceptance and returns the entries |
| AuditReader.AcceptedIsChained | src/unchained/verify.py:1186-1291 | what it accepts the writer's verification accepts |
| AuditReader.AcceptedTamperIsCollision | src/unchained/verify.py:1186-1291 | two different accepted logs with one final hash hold two records of different bytes and one digest |
| AuditReader.AppendKeepsAccepted | src/unchained/audit.py:164-202 | appending keeps a log acceptable to the strict reader |
| AuditReader.AppendsAreAccepted | src/unchained/audit.py:164-202 | every sequence of appends to an empty log, each under its own event id, leaves a file the strict reader accepts |
| ContentStore.Directory.Install | src/unchained/audit.py:410-444 | one installer alone: its bytes under its name, nothing overwritten, no temporary left |
| ContentStore.Directory.Persist | src/unchained/audit.py:364-395 | what retaining one output does, and when it fails |
| ContentStore.RunKeeps | src/unchained/audit.py:410-475 | every interleaving of installers keeps the store's invariant |
| ContentStore.InstallIsRaceSafe | src/unchained/audit.py:410-475 | nothing is overwritten, new blobs hold an installer's bytes under their hash, and reported results are true |
| ContentStore.NoFailureNoError | src/unchained/audit.py:410-475 | when no step is failed by the system, in every interleaving each finished installer reports its own bytes or a conflict, never an error |
| ContentStore.AloneIsInstall | src/unchained/audit.py:410-444 | the steps of one installer, alone, come to what `Install` does |
| ContentStore.OnceLinkedNeverChanges | src/unchained/audit.py:410-444 | a linked destination never changes |
| ContentStore.NoTemporaryRemains | src/unchained/audit.py:425-444 | no temporary remains once all installers have finished |
| ContentStore.ConflictIsForeignOrCollision | src/unchained/audit.py:446-475 | a conflict is over a foreign file or two installers with different bytes of one name |
| ViewerPolicy.Parser.Validate | src/unchained/viewer_policy.py:367-381 | the parser has no complaint exactly about accepted token streams |
| ViewerPolicy.Parser.HandleStart | src/unchained/viewer_policy.py:185-216 | a start tag's checks and its effect on stack and counters |
| ViewerPolicy.Parser.HandleEnd | src/unchained/viewer_policy.py:218-235 | an end tag's checks and its effect |
| ViewerPolicy.Parser.CloseAndValidate | src/unchained/viewer_policy.py:245-263 | the final checks |
| ViewerPolicy.ValidPolicy | src/unchained/viewer_policy.py:349-365 | which directive lists are the inert policy |
| ViewerPolicy.AcceptedIsInert | src/unchained/viewer_policy.py:185-313 | an accepted viewer has no comment, instruction or foreign element, and no handler, style or loading attribute |
| ViewerPolicy.AcceptedPolicyIsInert | src/unchained/viewer_policy.py:349-365 | its one policy shuts every source and lets in its own inline style only |
| ViewerPolicy.PermittedTags | src/unchained/viewer_policy.py:8-86 | the permitted element names are six and those of three tables |
| ViewerPolicy.TextTagsExactly | src/unchained/viewer_policy.py:8-86 | which names the tables of empty and text-level elements hold |
| ViewerPolicy.BlockTagsExactly | src/unchained/viewer_policy.py:8-86 | which names the table of blocks holds: no script, frame, form or image |
| ViewerGrammar.ViewersAreTheGrammar | src/unchained/viewer_policy.py:166-342 | a token stream is accepted if and only if it is a document of the grammar |
| ViewerGrammar.AcceptedIsGrammar | src/unchained/viewer_policy.py:166-342 | an accepted stream is parsed back into its document |
| ViewerGrammar.GrammarIsAccepted | src/unchained/viewer_policy.py:166-342 | every document of the grammar is accepted |

## Left out

- Evidence mounting, process control, the tool worker subprocess, the command line's screens, prompts, key loading, the provider adapter and the tokenizer: a tool is an arbitrary function that returns text or fails, a token estimate is an arbitrary number.
- File descriptors, symbolic links, modes, fsync and a failing unlink: the store is a map with atomic link and unlink steps.
- JSON text parsing and HTML tokenising: values, log lines and tokens are data; `CanonicalJson` has a reader of JSON text only to show that canonical text reads back, and it joins no surrogate pairs. Both programs' unreadable log lines are one case, and JSON numbers are equal when their literals are.
- The text functions both programs take from libraries (trimming, upper case, visible characters, inline-citation and CSS patterns, policy splitting), schema checks, model views inside packets, and the report renderer are parameters of the run; views and cuts are modelled on their own in `ModelView` and `PrefixCuts`.
- The byte form of events: the log of a run is a sequence of typed events, and the hash chain over records is modelled separately. Receipts carry the output their artifact retains; recorded statuses are typed.
- Evidence references, the manifest and the artifact inventory, instructions text, recorded custody hashes, the live-model gate, and the legacy literal-DONE protocol.
- Floating-point rounding and its tolerances: costs and times are exact reals.
- StrictReader.Verifier.Verify: decides the log's own clauses; the manifest, the inventory, custody, the evidence profile and the viewer are not part of it. Once the phases do not pair up it stops, where the source goes on to list what else is wrong; the verdict is the same.
- StrictReader.Verifier.VerifyTools: equality of evidence references between a start and its completion is not modelled; call ids are matched in any order, where the source sorts them.
- StrictReader.Verifier.VerifyArtifacts: the descriptors in artifact events are not compared with manifest entries.
- AuditReader.Reader.VerifyAudit: the manifest's byte count and whole-file digest are not compared.
- Agent.UnchainedAgent.RunCase: the partial report of a run that stops early, and the elapsed time of the snapshot it records, are not modelled.
- The registry's `rejected` receipt, which nothing in the package asks for.
- ModelClient.AuditedModel.Create: a provider other than Sol, or one that returns ids or totals the strict reader refuses, is allowed here and excluded by the premise `Agreement.Honest`.
