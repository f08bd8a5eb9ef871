/** What the log of a complete run looks like: an opening, adaptive turns, a terminal turn,
    the serialization, the judgment and the report, each step around one model request, and
    what the controller guarantees of each step given the steps before it. */
module Script {
  import opened Wrappers
  import opened Utf8
  import opened CanonicalJson
  import opened Citations
  import opened Findings
  import opened Verdicts
  import opened Caps
  import opened Events
  import opened Occurrences
  import opened Transactions
  import opened ModelClient
  import opened ToolRegistry

  const MAX_UPDATE_BYTES := 8192

  datatype Step =
    | OpeningStep(
        started: Snapshot, txn: Txn, receipts: seq<Receipt>, tools: Log, starts: seq<nat>, ends: seq<nat>)
    | TurnStep(turn: nat, notice: Option<int>, txn: Txn, update: Text, notes: Text, receipt: Receipt)
    | TerminalStep(turn: nat, notice: Option<int>, txn: Txn)
    | FinalizeStep(ledger: Text, txn: Txn, investigation: Investigation, receiptCount: nat)
    | JudgeStep(txn: Txn, verdicts: seq<Verdict>)
    | ReportStep(txn: Txn, draft: Draft, report: Text, findingCount: nat, verdictCount: nat, budget: Snapshot)

  const SETUP: Log := [RunCreated, CapsConfigured, CustodyInitialStarted, CustodyInitialCompleted, ProfileCompleted]

  function Notice(turn: nat, notice: Option<int>): Log {
    if notice.Some? then [BudgetNotice(turn, notice.value)] else []
  }

  /** The tokens left, once they are so few that the investigator is told to finish. */
  function NoticeDue(cfg: Config, m: Meter): Option<int> {
    if m.total + 60_000 < cfg.caps.maxTotalTokens then None
    else if m.total > cfg.caps.maxTotalTokens then Some(0)
    else Some(cfg.caps.maxTotalTokens - m.total)
  }

  /** The events before the step's request. */
  function Before(s: Step): Log {
    match s
    case OpeningStep(started, _, _, _, _, _) => SETUP + [InvestigationStarted(started)]
    case TurnStep(turn, notice, _, _, _, _) => Notice(turn, notice)
    case TerminalStep(turn, notice, _) => Notice(turn, notice)
    case _ => []
  }

  function ReceiptIds(receipts: seq<Receipt>): seq<Text> {
    seq(|receipts|, i requires 0 <= i < |receipts| => receipts[i].id)
  }

  function FirstCall(t: Txn): Call {
    if t.reply.calls == [] then Call([], Finish(false), false) else t.reply.calls[0]
  }

  /** What the command line appends when the agent has finished. */
  const ARTIFACT_EVENTS: Log :=
    [ArtifactWritten(ReportMd), ArtifactWritten(ProfileJson), ArtifactWritten(EnvironmentJson),
     ArtifactWritten(SummaryJson), ArtifactWritten(ViewerHtml)]

  function Bundle(complete: bool): Log {
    [CustodyFinalStarted, CustodyFinalCompleted] + (ARTIFACT_EVENTS + [RunCompleted(complete)])
  }

  const CLOSE: Log := Bundle(true)

  /** What is written once a run has stopped early: its cap, unless the log has it already, how
      the investigation ended, and the bundle of a partial run. */
  function Partial(log: Log, m: Meter): Log {
    match m.fired
    case Some((kind, _)) =>
      (if CapFired(kind) in log then [] else [CapFired(kind)]) + ([InvestigationStopped(Some(m))] + Bundle(false))
    case None => [InvestigationStopped(None)] + Bundle(false)
  }

  function Closing(s: Step): Log
    requires s.ReportStep?
  {
    [ReportCompleted(s.draft.findingIds, s.draft.spanIds, s.report),
     InvestigationCompleted(s.findingCount, s.verdictCount, s.budget)] + CLOSE
  }

  /** The events after the step's response. */
  function After(s: Step): Log {
    match s
    case OpeningStep(_, txn, receipts, tools, _, _) =>
      tools + [OpeningCompleted(txn.reply.responseId, |txn.reply.calls|, |receipts|, 0, ReceiptIds(receipts))]
    case TurnStep(turn, _, txn, update, notes, receipt) =>
      [NotesUpdated(turn, update, |Encode(update)|, notes), StartEvent(FirstCall(txn)), ToolCompleted(receipt),
       ActionTaken(turn, receipt.id, receipt.name, receipt.status)]
    case TerminalStep(turn, _, txn) => [Done(turn, txn.reply.responseId, FirstCall(txn).id)]
    case FinalizeStep(ledger, _, investigation, receiptCount) =>
      [Finished(ledger, investigation), JudgeStarted(|investigation.findings|, receiptCount)]
    case JudgeStep(_, verdicts) => [JudgeCompleted(verdicts), ReportStarted]
    case ReportStep(_, _, _, _, _, _) => Closing(s)
  }

  function EventsOf(s: Step): Log {
    Before(s) + (TxnEvents(s.txn) + After(s))
  }

  function Parts(steps: seq<Step>): seq<Log> {
    seq(|steps|, i requires 0 <= i < |steps| => EventsOf(steps[i]))
  }

  function LogOf(steps: seq<Step>): Log {
    Flatten(Parts(steps))
  }

  lemma LogOfMore(steps: seq<Step>, s: Step)
    ensures LogOf(steps + [s]) == LogOf(steps) + EventsOf(s)
  {
    assert Parts(steps + [s])[..|steps|] == Parts(steps);
  }

  /* ---- What the controller remembers of the steps so far ---- */

  /** The retained results, in the order they were asked for. */
  function Remembered(steps: seq<Step>): seq<Receipt> {
    if steps == [] then []
    else
      Remembered(steps[..|steps| - 1]) + ResultsOf(steps[|steps| - 1])
  }

  function ResultsOf(s: Step): seq<Receipt> {
    match s
    case OpeningStep(_, _, receipts, _, _, _) => receipts
    case TurnStep(_, _, _, _, _, receipt) => [receipt]
    case _ => []
  }

  /** The running case notes. */
  function NotesAt(steps: seq<Step>): Text {
    if steps == [] then []
    else
      match steps[|steps| - 1]
      case TurnStep(_, _, _, _, notes, _) => notes
      case TerminalStep(_, _, _) => NotesAt(steps[..|steps| - 1])
      case _ => []
  }

  /** The elapsed time of the last snapshot written. */
  function ElapsedAt(steps: seq<Step>): real {
    if steps == [] then 0.0
    else
      var s := steps[|steps| - 1];
      if s.OpeningStep? then s.started.elapsed
      else if s.txn.packet.InvestigatePacket? then s.txn.packet.budget.elapsed
      else ElapsedAt(steps[..|steps| - 1])
  }

  /** The results the next investigate request carries. */
  function Latest(steps: seq<Step>): seq<Receipt> {
    if steps == [] then [] else ResultsOf(steps[|steps| - 1])
  }

  function IndexOf(cfg: Config, receipts: seq<Receipt>): seq<IndexEntry> {
    seq(|receipts|, i requires 0 <= i < |receipts| => EntryOf(cfg, receipts[i]))
  }

  function EntryOf(cfg: Config, r: Receipt): IndexEntry {
    IndexEntry(r.id, r.name, r.arguments, r.status, cfg.sha(Encode(r.output)), |Encode(r.output)|)
  }

  function Views(cfg: Config, receipts: seq<Receipt>, quotable: bool): seq<Observation> {
    seq(|receipts|, i requires 0 <= i < |receipts| => ViewOf(cfg, receipts[i], quotable))
  }

  function ViewOf(cfg: Config, r: Receipt, quotable: bool): Observation {
    Observation(r.id, r.name, r.arguments, cfg.view(r, quotable))
  }

  function SourceOf(cfg: Config, r: Receipt): Source {
    Source(r.output, cfg.sha(Encode(r.output)), r.status == Success)
  }

  /** The retained results by call id. */
  function SourcesOf(cfg: Config, receipts: seq<Receipt>): Sources {
    if receipts == [] then map[]
    else
      var last := |receipts| - 1;
      SourcesOf(cfg, receipts[..last])[receipts[last].id := SourceOf(cfg, receipts[last])]
  }

  const BLANK_LINE: Text := [0x0A, 0x0A]

  /** `_append_notes`. */
  function AppendNotes(current: Text, update: Text): Text {
    if current == [] then update else current + BLANK_LINE + update
  }

  /** `_validate_case_ledger_update`, and the refusal of a literal DONE. */
  predicate UpdateOk(cfg: Config, update: Text) {
    && update != [] && update != DONE && cfg.shown(update)
    && Encodable(update) && |Encode(update)| <= MAX_UPDATE_BYTES
  }

  /** `parse_report_draft`. */
  predicate DraftOk(cfg: Config, draft: Draft, findings: seq<Finding>, verdicts: seq<Verdict>) {
    && |draft.prose| == 4 && (forall i :: 0 <= i < 4 ==> cfg.scan.strip(draft.prose[i]) != [])
    && Distinct(draft.findingIds) && SetOf(draft.findingIds) == (set i | 0 <= i < |findings| :: findings[i].id)
    && Distinct(draft.spanIds) && SetOf(draft.spanIds) == QuotedSpans(verdicts)
  }

  function QuotedSpans(verdicts: seq<Verdict>): set<Text> {
    set i, j | 0 <= i < |verdicts| && 0 <= j < |verdicts[i].quotes| :: verdicts[i].quotes[j].span
  }

  /* ---- What the controller guarantees of each step ---- */

  predicate OpeningOk(cfg: Config, s: Step)
    requires s.OpeningStep?
  {
    var calls := s.txn.reply.calls;
    && s.started.meter == FRESH && 0.0 <= s.started.elapsed
    && s.txn.phase == Opening && s.txn.packet == OpeningPacket(cfg.profile)
    && s.txn.observations == [] && s.txn.catalog == Catalog(cfg)
    && 1 <= |calls| <= MAX_OPENING_TOOLS
    && (forall i, j :: 0 <= i < j < |calls| ==> Name(calls[i]) != Name(calls[j]))
    && (forall i :: 0 <= i < |calls| ==> ToolRegistry.Valid(cfg, calls[i]))
    && Interleaved(calls, s.receipts, s.tools, s.starts, s.ends)
  }

  /** The packet of an investigate request is what the steps before it say. */
  predicate InvestigateInput(cfg: Config, steps: seq<Step>, t: Txn) {
    && steps != [] && t.phase == Investigate && t.catalog == Catalog(cfg) + [FinishInvestigation]
    && t.packet.InvestigatePacket?
    && t.packet == InvestigatePacket(cfg.profile, NotesAt(steps), |steps| - 1, IndexOf(cfg, Receipts(LogOf(steps))),
                                     t.packet.budget, ReceiptIds(Latest(steps)))
    && t.packet.budget.meter == Accounting(LogOf(steps))
    && ElapsedAt(steps) <= t.packet.budget.elapsed < cfg.caps.maxWallSeconds
    && t.observations == Views(cfg, Latest(steps), false)
  }

  predicate TurnOk(cfg: Config, before: seq<Step>, s: Step)
    requires s.TurnStep?
  {
    && s.turn == |before| && InvestigateInput(cfg, before, s.txn) && s.notice == NoticeDue(cfg, Accounting(LogOf(before)))
    && |s.txn.reply.calls| == 1
    && ToolRegistry.Valid(cfg, FirstCall(s.txn))
    && FirstCall(s.txn).id !in ReceiptIds(Receipts(LogOf(before)))
    && s.update == cfg.scan.strip(s.txn.reply.message) && UpdateOk(cfg, s.update)
    && s.notes == AppendNotes(NotesAt(before), s.update)
    && ReceiptOf(FirstCall(s.txn), s.receipt)
  }

  predicate TerminalOk(cfg: Config, before: seq<Step>, s: Step)
    requires s.TerminalStep?
  {
    && s.turn == |before| && InvestigateInput(cfg, before, s.txn) && s.notice == NoticeDue(cfg, Accounting(LogOf(before)))
    && |s.txn.reply.calls| == 1 && FirstCall(s.txn).action == Finish(true)
    && FirstCall(s.txn).id != [] && FirstCall(s.txn).id !in ReceiptIds(Receipts(LogOf(before)))
  }

  predicate FinalizeOk(cfg: Config, before: seq<Step>, s: Step)
    requires s.FinalizeStep?
  {
    && before != [] && s.txn.phase == Finalize && s.txn.catalog == [InvestigationForm]
    && s.ledger == NotesAt(before)
    && s.txn.packet == FinalizePacket(cfg.profile, s.ledger, IndexOf(cfg, Receipts(LogOf(before))))
    && s.txn.observations == Views(cfg, Remembered(before), true)
    && |s.txn.reply.calls| == 1 && FirstCall(s.txn).action.SubmitInvestigation?
    && Concludes(cfg, SourcesOf(cfg, Remembered(before)), |before| - 1, FirstCall(s.txn).action.raw, s.investigation)
    && s.receiptCount == |Receipts(LogOf(before))|
  }

  predicate Concludes(cfg: Config, sources: Sources, turns: nat, raw: RawInvestigation, investigation: Investigation) {
    && Conclusion(cfg, sources, raw) == Some(investigation.findings)
    && investigation == Investigation(raw.caseNotes, investigation.findings, raw.limitations, raw.unresolved, turns)
  }

  predicate JudgeOk(cfg: Config, before: seq<Step>, s: Step)
    requires s.JudgeStep?
  {
    && before != [] && before[|before| - 1].FinalizeStep?
    && Judges(cfg, before, before[|before| - 1].investigation, s)
  }

  predicate Judges(cfg: Config, before: seq<Step>, investigation: Investigation, s: Step)
    requires s.JudgeStep?
  {
    && s.txn.phase == Judge && s.txn.catalog == [JudgmentForm] && s.txn.observations == []
    && s.txn.packet == JudgePacket(cfg.profile, investigation.caseNotes, investigation.findings,
                                   IndexOf(cfg, Receipts(LogOf(before))))
    && |s.txn.reply.calls| == 1 && FirstCall(s.txn).action.SubmitJudgment?
    && Decision(cfg, FactsOf(SourcesOf(cfg, Receipts(LogOf(before)))), investigation.findings,
                  FirstCall(s.txn).action.raws) == Some(s.verdicts)
  }

  predicate ReportOk(cfg: Config, before: seq<Step>, s: Step)
    requires s.ReportStep?
  {
    && |before| >= 2 && before[|before| - 1].JudgeStep? && before[|before| - 2].FinalizeStep?
    && Reports(cfg, before[|before| - 2].investigation, before[|before| - 1].verdicts, s)
    && s.budget.meter == Accounting(LogOf(before) + TxnEvents(s.txn)) && WithinCaps(cfg.caps, s.budget.meter)
    && ElapsedAt(before) <= s.budget.elapsed
  }

  /** The final snapshot, read after the last deadline check, is still within the wall cap. */
  predicate OnTime(cfg: Config, steps: seq<Step>) {
    steps != [] && steps[|steps| - 1].ReportStep? && steps[|steps| - 1].budget.elapsed < cfg.caps.maxWallSeconds
  }

  predicate Reports(cfg: Config, investigation: Investigation, verdicts: seq<Verdict>, s: Step)
    requires s.ReportStep?
  {
    && s.txn.phase == Report && s.txn.catalog == [ReportForm] && s.txn.observations == []
    && s.txn.packet == ReportPacket(cfg.profile, investigation, verdicts)
    && |s.txn.reply.calls| == 1 && FirstCall(s.txn).action == SubmitReport(s.draft)
    && DraftOk(cfg, s.draft, investigation.findings, verdicts)
    && s.report == cfg.render(investigation, verdicts, s.draft)
    && s.findingCount == |investigation.findings| && s.verdictCount == |verdicts|
  }

  predicate StepOk(cfg: Config, before: seq<Step>, s: Step) {
    && TxnOk(cfg, Accounting(LogOf(before)), s.txn)
    && match s
       case OpeningStep(_, _, _, _, _, _) => before == [] && OpeningOk(cfg, s)
       case TurnStep(_, _, _, _, _, _) => TurnOk(cfg, before, s)
       case TerminalStep(_, _, _) => TerminalOk(cfg, before, s)
       case FinalizeStep(_, _, _, _) => FinalizeOk(cfg, before, s)
       case JudgeStep(_, _) => JudgeOk(cfg, before, s)
       case ReportStep(_, _, _, _, _, _) => ReportOk(cfg, before, s)
  }

  predicate StepsOk(cfg: Config, steps: seq<Step>) {
    EachAfter((before, s) => StepOk(cfg, before, s), steps)
  }

  lemma StepOkAt(cfg: Config, steps: seq<Step>, i: nat)
    requires StepsOk(cfg, steps) && i < |steps|
    ensures StepOk(cfg, steps[..i], steps[i]) && StepsOk(cfg, steps[..i])
  {
    EachAfterAt((before, s) => StepOk(cfg, before, s), steps, i);
  }

  /** The order of the steps of a run that has come this far. */
  predicate InProgress(steps: seq<Step>) {
    && steps != [] && steps[0].OpeningStep?
    && forall i :: 0 < i < |steps| ==> steps[i].TurnStep?
  }

  /** A complete run: an opening, `n >= 1` adaptive turns of which only the last is
      terminal, and the three closing phases. */
  predicate Complete(steps: seq<Step>) {
    && |steps| >= 5
    && var n := |steps| - 4;
       && InProgress(steps[..n])
       && steps[n].TerminalStep? && steps[n + 1].FinalizeStep? && steps[n + 2].JudgeStep? && steps[n + 3].ReportStep?
  }

  lemma StepsOkMore(cfg: Config, steps: seq<Step>, s: Step)
    requires StepsOk(cfg, steps) && StepOk(cfg, steps, s)
    ensures StepsOk(cfg, steps + [s])
  {
    EachAfterMore((before, t) => StepOk(cfg, before, t), steps, s);
  }
}
