/** The alphabet of the audited run: what the controller appends and what the strict reader
    takes cold.  Strict provider schemas are types here, retained files are carried by the
    receipts that name them, and a receipt's view is a function of the receipt. */
module Events {
  import opened Wrappers
  import opened Utf8
  import opened CanonicalJson
  import opened Citations
  import opened Findings
  import opened Verdicts
  import opened Caps
  import opened Occurrences

  datatype Phase = Opening | Investigate | Finalize | Judge | Report

  datatype ToolStatus = Success | Error | Timeout | NotApplicable | Rejected | Capped

  /** The strict report draft: its prose and the ids it must reference. */
  datatype Draft = Draft(prose: seq<Text>, findingIds: seq<Text>, spanIds: seq<Text>)

  datatype Action =
    | Forensic(name: Text, arguments: Json)
    | Finish(done: bool)
    | SubmitInvestigation(raw: RawInvestigation)
    | SubmitJudgment(raws: seq<RawVerdict>)
    | SubmitReport(draft: Draft)

  datatype Call = Call(id: Text, action: Action, valid: bool)

  function CallIds(calls: seq<Call>): seq<Text> {
    seq(|calls|, i requires 0 <= i < |calls| => calls[i].id)
  }

  /** A normalised provider response. */
  datatype Reply = Reply(
    responseId: Text, requestId: Text, sol: bool, completed: bool, usageReported: bool,
    usage: Usage, message: Text, calls: seq<Call>)

  /** What a failed dispatch shows of itself. */
  datatype Failure = Failure(
    status: Option<int>, quotaExhausted: bool, transport: bool, errorType: Text, text: Text)

  /** A completed tool call and the output its artifact retains. */
  datatype Receipt = Receipt(id: Text, name: Text, arguments: Json, status: ToolStatus, output: Text)

  /** A receipt as packets carry it: everything but the output itself. */
  datatype IndexEntry = IndexEntry(
    id: Text, name: Text, arguments: Json, status: ToolStatus, digest: Text, size: nat)

  datatype Snapshot = Snapshot(meter: Meter, elapsed: real)

  datatype Packet =
    | OpeningPacket(profile: Json)
    | InvestigatePacket(
        profile: Json, notes: Text, turnsCompleted: nat, receipts: seq<IndexEntry>,
        budget: Snapshot, latest: seq<Text>)
    | FinalizePacket(profile: Json, notes: Text, receipts: seq<IndexEntry>)
    | JudgePacket(profile: Json, notes: Text, findings: seq<Finding>, receipts: seq<IndexEntry>)
    | ReportPacket(profile: Json, investigation: Investigation, verdicts: seq<Verdict>)

  /** One replayed call with the view of its output that the request carries. */
  datatype Observation = Observation(id: Text, name: Text, arguments: Json, view: Text)

  /** The functions a request may expose: the forensic ones by name, and the four forms the
      controller owns. */
  datatype Function = Typed(name: Text) | FinishInvestigation | InvestigationForm | JudgmentForm | ReportForm

  datatype Artifact = ReportMd | ProfileJson | EnvironmentJson | SummaryJson | ViewerHtml

  datatype Choice = Required | Named(form: Function)
  datatype Effort = Low | Medium | High

  datatype Options = Options(
    parallel: bool, choice: Choice, effort: Effort, verbosity: Effort, maxCalls: nat,
    maximum: int, minimum: int, estimate: int, timeout: real)

  /** What the controller appends.  A failed attempt is `exposed` when it may have been billed;
      an answer's model and status are whether it is Sol's and whether it completed. */
  datatype Event =
    | RunCreated | CapsConfigured | CustodyInitialStarted | CustodyInitialCompleted | ProfileCompleted
    | InvestigationStarted(budget: Snapshot)
    | Request(phase: Phase, packet: Packet, observations: seq<Observation>, catalog: seq<Function>)
    | RequestOptions(phase: Phase, options: Options)
    | AttemptError(phase: Phase, attempt: nat, maxAttempts: nat, retryable: bool, failure: Failure, exposed: bool)
    | RetryScheduled(phase: Phase, attempt: nat, next: nat, maxAttempts: nat, delay: real, nextTimeout: real)
    | RetrySucceeded(phase: Phase, attempt: nat, maxAttempts: nat, responseId: Text, requestId: Text, sol: bool, completed: bool)
    | RetrySkipped(phase: Phase, attempt: nat)
    | Response(phase: Phase, reply: Reply, callCost: real, runningCost: real)
    | ToolStarted(id: Text, name: Text, arguments: Json)
    | ToolCompleted(receipt: Receipt)
    | OutputLost(id: Text, name: Text, arguments: Json, status: ToolStatus)
    | OpeningCompleted(responseId: Text, selected: nat, executed: nat, rejected: nat, ids: seq<Text>)
    | BudgetNotice(turn: nat, remaining: int)
    | NotesUpdated(turn: nat, update: Text, bytes: nat, notes: Text)
    | ActionTaken(turn: nat, id: Text, name: Text, status: ToolStatus)
    | Done(turn: nat, responseId: Text, callId: Text)
    | Finished(ledger: Text, investigation: Investigation)
    | JudgeStarted(findingCount: nat, receiptCount: nat)
    | JudgeCompleted(verdicts: seq<Verdict>)
    | ReportStarted
    | ReportCompleted(findingIds: seq<Text>, spanIds: seq<Text>, report: Text)
    | InvestigationCompleted(findingCount: nat, verdictCount: nat, budget: Snapshot)
    | InvestigationStopped(capped: Option<Meter>)
    | CustodyFinalStarted | CustodyFinalCompleted
    | ArtifactWritten(path: Artifact)
    | RunCompleted(complete: bool)
    | ModelError | ProtocolError | CapFired(kind: CapKind)
    | PreflightFailed | RunFailed | RunInterrupted | CustodyMismatch | ReleaseFailed | FinalizationFailed

  type Log = seq<Event>

  /** The meter after the responses and completed receipts of a log. */
  function Account(m: Meter, log: Log): Meter {
    if log == [] then m
    else
      var n := Account(m, log[..|log| - 1]);
      match log[|log| - 1]
      case Response(_, reply, callCost, _) => if reply.usage.Valid() then Charged(n, reply.usage, callCost) else n
      case ToolCompleted(_) => n.(toolCalls := n.toolCalls + 1)
      case _ => n
  }

  /** The model accounting and the number of receipts that a log prefix records. */
  function Accounting(log: Log): Meter {
    Account(FRESH, log)
  }

  lemma {:induction false} AccountConcat(m: Meter, a: Log, b: Log)
    ensures Account(m, a + b) == Account(Account(m, a), b)
    decreases |b|
  {
    if b == [] {
      assert a + b == a;
    } else {
      assert (a + b)[..|a + b| - 1] == a + b[..|b| - 1];
      AccountConcat(m, a, b[..|b| - 1]);
    }
  }

  predicate Charges(e: Event) {
    e.Response? || e.ToolCompleted?
  }

  lemma {:induction false} AccountQuiet(m: Meter, log: Log)
    requires forall i :: 0 <= i < |log| ==> !Charges(log[i])
    ensures Account(m, log) == m && Receipts(log) == []
  {
    if log != [] { AccountQuiet(m, log[..|log| - 1]); }
  }

  /** Tool events add their receipts to the count and nothing else. */
  lemma {:induction false} AccountTools(m: Meter, log: Log)
    requires forall i :: 0 <= i < |log| ==> !log[i].Response?
    ensures Account(m, log) == m.(toolCalls := m.toolCalls + |Receipts(log)|)
  {
    if log != [] { AccountTools(m, log[..|log| - 1]); }
  }

  function Receipts(log: Log): seq<Receipt> {
    if log == [] then []
    else
      Receipts(log[..|log| - 1])
      + if log[|log| - 1].ToolCompleted? then [log[|log| - 1].receipt] else []
  }

  lemma {:induction false} ReceiptsConcat(a: Log, b: Log)
    ensures Receipts(a + b) == Receipts(a) + Receipts(b)
    decreases |b|
  {
    if b == [] {
      assert a + b == a;
    } else {
      assert (a + b)[..|a + b| - 1] == a + b[..|b| - 1];
      ReceiptsConcat(a, b[..|b| - 1]);
    }
  }

  predicate IsRequest(e: Event) { e.Request? }

  function RequestCount(log: Log): nat {
    |Where(log, IsRequest)|
  }

  /** `later` continues `log` without another model request. */
  predicate Extends(log: Log, later: Log) {
    log <= later && forall i :: |log| <= i < |later| ==> !later[i].Request?
  }

  lemma ExtendsKeepsCount(log: Log, later: Log)
    requires Extends(log, later)
    ensures RequestCount(later) == RequestCount(log)
  {
    var more := later[|log|..];
    assert later == log + more;
    WhereConcat(log, more, IsRequest);
    WhereNone(more, IsRequest);
  }
}
