/** One model request: its options, its retry window and its response, as the client writes
    them and as the strict reader checks them. */
module Transactions {
  import opened Wrappers
  import opened Utf8
  import opened CanonicalJson
  import opened Citations
  import opened Findings
  import opened Verdicts
  import CitationReader
  import opened Caps
  import opened Events
  import opened Occurrences

  const MAX_OPENING_TOOLS := 12

  /** What one run is about, and the deterministic functions both programs call: text
      scanning, schema checks, views, the report renderer and the words of a cap. */
  datatype Config = Config(
    caps: CapConfig, model: Model, sol: bool, profile: Json, forensic: seq<Text>, sha: Sha, scan: Scan,
    accepts: (Text, Json) -> bool,
    shown: Text -> bool,
    view: (Receipt, bool) -> Text,
    render: (Investigation, seq<Verdict>, Draft) -> Text,
    explain: ((CapKind, Detail)) -> Text)

  /* ---- The controller's parsers of findings and verdicts, and the reader's checks ---- */

  function Conclusion(cfg: Config, sources: Sources, raw: RawInvestigation): Option<seq<Finding>> {
    if InvestigationAccepted(cfg.scan, cfg.sha, sources, raw) then Some(FindingsFor(cfg.scan, cfg.sha, sources, raw.findings))
    else None
  }

  function Decision(cfg: Config, facts: Facts, findings: seq<Finding>, raws: seq<RawVerdict>): Option<seq<Verdict>> {
    if VerdictsAccepted(cfg.scan, facts, findings, raws) then Some(VerdictsFor(cfg.scan, facts, findings, raws)) else None
  }

  predicate AllSerialized(cfg: Config, raw: RawInvestigation, recorded: Investigation) {
    && |recorded.findings| == |raw.findings|
    && forall i :: 0 <= i < |raw.findings| ==> Serialized(cfg.scan, raw.findings[i], recorded.findings[i], i + 1)
  }

  predicate BindsJudgment(cfg: Config, findings: seq<Finding>, raws: seq<RawVerdict>, verdicts: seq<Verdict>) {
    JudgeBound(cfg.scan, findings, raws, verdicts)
  }

  predicate Cited(cfg: Config, facts: Facts, findings: seq<Finding>, verdicts: seq<Verdict>) {
    CitationReader.CitationsOk(cfg.scan, cfg.sha, facts, findings, verdicts)
  }

  function FunctionOf(a: Action): Function {
    match a
    case Forensic(name, _) => Typed(name)
    case Finish(_) => FinishInvestigation
    case SubmitInvestigation(_) => InvestigationForm
    case SubmitJudgment(_) => JudgmentForm
    case SubmitReport(_) => ReportForm
  }

  /** The typed forensic functions of the run. */
  function Catalog(cfg: Config): seq<Function> {
    seq(|cfg.forensic|, i requires 0 <= i < |cfg.forensic| => Typed(cfg.forensic[i]))
  }

  /** The request options each phase must use; `maximum` is its output ceiling. */
  function Policy(phase: Phase): Options {
    match phase
    case Opening => Options(true, Required, Low, Low, MAX_OPENING_TOOLS, 4_096, 1, 0, 0.0)
    case Investigate => Options(false, Required, Medium, Medium, 1, 4_096, 4_096, 0, 0.0)
    case Finalize => Options(false, Named(InvestigationForm), Medium, Low, 1, 12_288, 4_096, 0, 0.0)
    case Judge => Options(false, Named(JudgmentForm), High, Low, 1, 12_288, 4_096, 0, 0.0)
    case Report => Options(false, Named(ReportForm), Low, Medium, 1, 8_192, 1, 0, 0.0)
  }

  /** `_verify_model_options_contract`. */
  predicate OptionsOk(cfg: Config, phase: Phase, o: Options) {
    var p := Policy(phase);
    && o.parallel == p.parallel && o.choice == p.choice && o.effort == p.effort
    && o.verbosity == p.verbosity && o.maxCalls == p.maxCalls
    && 1 <= o.maximum <= p.maximum && o.minimum == p.minimum && o.minimum <= o.maximum
    && o.estimate >= 1 && 0.0 < o.timeout <= cfg.caps.maxWallSeconds
  }

  /* ---- Retries ---- */

  const RETRYABLE_TYPES: seq<Text> :=
    [FromString("APIConnectionError"), FromString("APITimeoutError"), FromString("BrokenPipeError"),
     FromString("ConnectionAbortedError"), FromString("ConnectionError"),
     FromString("ConnectionRefusedError"), FromString("ConnectionResetError"), FromString("TimeoutError")]

  /** The failures without a status that the reader lets a client retry, by the name of their
      type. */
  lemma TransportTypesExactly(name: Text)
    ensures name in RETRYABLE_TYPES
       <==> || name == FromString("APIConnectionError") || name == FromString("APITimeoutError")
            || name == FromString("BrokenPipeError") || name == FromString("ConnectionAbortedError")
            || name == FromString("ConnectionError") || name == FromString("ConnectionRefusedError")
            || name == FromString("ConnectionResetError") || name == FromString("TimeoutError")
  {
    hide FromString;
    var t := RETRYABLE_TYPES;
    assert t[0] in t && t[1] in t && t[2] in t && t[3] in t && t[4] in t && t[5] in t && t[6] in t && t[7] in t;
  }

  predicate RetryableStatus(s: int) {
    s == 408 || s == 409 || s == 429 || s >= 500
  }

  /** The statuses the reader lets a client retry. */
  predicate MayRetry(s: int) {
    s in {408, 409, 429} || s >= 500
  }

  /** The client's table of statuses is the reader's. */
  lemma StatusesAgree(s: int)
    ensures RetryableStatus(s) <==> MayRetry(s)
  {}

  /** `_is_transient_provider_error`. */
  predicate Transient(f: Failure) {
    match f.status
    case Some(s) => !(s == 429 && f.quotaExhausted) && RetryableStatus(s)
    case None => f.transport
  }

  /** Exactly which failures are retried: timeouts, conflicts and server errors, rate limiting
      unless the quota is exhausted, and transport failures, which have no status. */
  lemma TransientExactly(f: Failure)
    ensures f.status == None ==> (Transient(f) <==> f.transport)
    ensures f.status == Some(408) || f.status == Some(409) ==> Transient(f)
    ensures f.status == Some(429) ==> (Transient(f) <==> !f.quotaExhausted)
    ensures f.status.Some? && f.status.value >= 500 ==> Transient(f)
    ensures f.status.Some? && f.status.value < 500 && f.status.value !in {408, 409, 429} ==> !Transient(f)
  {}

  function Backoff(attempt: nat): real {
    if attempt <= 1 then 0.25 else 2.0 * Backoff(attempt - 1)
  }

  /** What the reader asks of one failed attempt and the retry it scheduled. */
  predicate PairOk(phase: Phase, attempt: nat, maxAttempts: nat, limit: real, error: Event, scheduled: Event) {
    && error.AttemptError? && scheduled.RetryScheduled?
    && (maxAttempts == 2 || maxAttempts == 3) && attempt < maxAttempts
    && error.phase == phase && error.attempt == attempt && error.maxAttempts == maxAttempts && error.retryable
    && error.exposed
    && error.failure.errorType != [] && error.failure.text != []
    && (match error.failure.status
        case Some(s) => MayRetry(s)
        case None => error.failure.errorType in RETRYABLE_TYPES)
    && scheduled.phase == phase && scheduled.attempt == attempt && scheduled.next == attempt + 1
    && scheduled.maxAttempts == maxAttempts
    && scheduled.delay == Backoff(attempt)
    && 0.0 < scheduled.nextTimeout <= limit
  }

  /** The event of a retry that was answered; it names the response it led to. */
  function AnsweredEvent(phase: Phase, attempt: nat, max: nat, reply: Reply): Event {
    RetrySucceeded(phase, attempt, max, reply.responseId, reply.requestId, reply.sol, reply.completed)
  }

  /** The events between a request's options and its response. */
  predicate WindowOk(phase: Phase, window: Log, timeout: real, reply: Reply) {
    window != [] ==>
      && |window| % 2 == 1 && |window| >= 3
      && var failed := (|window| - 1) / 2;
         && failed <= 2
         && window[0].AttemptError?
         && var max := window[0].maxAttempts;
            && PairOk(phase, 1, max, timeout, window[0], window[1])
            && (failed == 2 ==> PairOk(phase, 2, max, Lesser(timeout, window[1].nextTimeout), window[2], window[3]))
            && window[|window| - 1]
               == AnsweredEvent(phase, failed + 1, max, reply)
  }

  function Lesser(a: real, b: real): real {
    if a <= b then a else b
  }

  /* ---- The events of a request that was answered ---- */

  datatype Attempt = Attempt(failure: Failure, nextTimeout: real)

  datatype Txn = Txn(
    phase: Phase, packet: Packet, observations: seq<Observation>, catalog: seq<Function>, options: Options,
    maxAttempts: nat, attempts: seq<Attempt>, reply: Reply, callCost: real, runningCost: real)

  function ErrorEvent(phase: Phase, max: nat, attempt: nat, a: Attempt): Event {
    AttemptError(phase, attempt, max, true, a.failure, true)
  }

  function ScheduledEvent(phase: Phase, max: nat, attempt: nat, a: Attempt): Event {
    RetryScheduled(phase, attempt, attempt + 1, max, Backoff(attempt), a.nextTimeout)
  }

  function Failures(phase: Phase, max: nat, attempts: seq<Attempt>): Log {
    if attempts == [] then []
    else
      var n := |attempts|;
      Failures(phase, max, attempts[..n - 1])
      + [ErrorEvent(phase, max, n, attempts[n - 1]), ScheduledEvent(phase, max, n, attempts[n - 1])]
  }

  function SucceededEvent(t: Txn): Event {
    AnsweredEvent(t.phase, |t.attempts| + 1, t.maxAttempts, t.reply)
  }

  function Window(t: Txn): Log {
    if t.attempts == [] then [] else Failures(t.phase, t.maxAttempts, t.attempts) + [SucceededEvent(t)]
  }

  function RequestEvent(t: Txn): Event {
    Request(t.phase, t.packet, t.observations, t.catalog)
  }

  function ResponseEvent(t: Txn): Event {
    Response(t.phase, t.reply, t.callCost, t.runningCost)
  }

  function TxnEvents(t: Txn): Log {
    [RequestEvent(t), RequestOptions(t.phase, t.options)] + (Window(t) + [ResponseEvent(t)])
  }

  /** Every scheduled retry waits no longer than the one before it, none longer than the
      request was allowed to take. */
  predicate AttemptsOk(attempts: seq<Attempt>, max: nat, timeout: real) {
    && |attempts| < max <= 3
    && (forall k :: 0 <= k < |attempts| ==>
          Transient(attempts[k].failure) && 0.0 < attempts[k].nextTimeout <= timeout)
    && (forall k :: 0 < k < |attempts| ==> attempts[k].nextTimeout <= attempts[k - 1].nextTimeout)
  }

  /** The premise on error texts and unnumbered error types. */
  predicate NamedFailures(t: Txn) {
    forall k :: 0 <= k < |t.attempts| ==>
      var f := t.attempts[k].failure;
      f.errorType != [] && f.text != [] && (f.status == None ==> f.errorType in RETRYABLE_TYPES)
  }

  lemma FailuresAre(phase: Phase, max: nat, attempts: seq<Attempt>)
    requires |attempts| <= 2
    ensures |attempts| == 1 ==>
      Failures(phase, max, attempts) == [ErrorEvent(phase, max, 1, attempts[0]), ScheduledEvent(phase, max, 1, attempts[0])]
    ensures |attempts| == 2 ==>
      Failures(phase, max, attempts) == [ErrorEvent(phase, max, 1, attempts[0]), ScheduledEvent(phase, max, 1, attempts[0]),
                                         ErrorEvent(phase, max, 2, attempts[1]), ScheduledEvent(phase, max, 2, attempts[1])]
  {
    if |attempts| == 2 {
      assert attempts[..1][..0] == [];
      assert Failures(phase, max, attempts[..1])
          == [ErrorEvent(phase, max, 1, attempts[0]), ScheduledEvent(phase, max, 1, attempts[0])];
    }
  }

  /** A recovered retry loop writes a window the reader accepts. */
  lemma RetriesPass(t: Txn)
    requires AttemptsOk(t.attempts, t.maxAttempts, t.options.timeout) && NamedFailures(t)
    ensures WindowOk(t.phase, Window(t), t.options.timeout, t.reply)
  {
    FailuresAre(t.phase, t.maxAttempts, t.attempts);
  }

  /** And every window the reader accepts is what one such loop writes: errors and retries
      in pairs, once or twice, then the success. */
  lemma AcceptedWindowIsRetries(t: Txn, window: Log)
    requires WindowOk(t.phase, window, t.options.timeout, t.reply) && window != []
    ensures var failed := (|window| - 1) / 2;
            && 1 <= failed <= 2 && window[0].AttemptError?
            && (forall k :: 0 <= k < failed ==> window[2 * k].AttemptError? && window[2 * k + 1].RetryScheduled?)
            && Window(t.(maxAttempts := window[0].maxAttempts, attempts := AttemptsIn(window))) == window
  {
    hide RETRYABLE_TYPES, Backoff, RetryableStatus, Failures, Transient;
    var failed := (|window| - 1) / 2;
    var recovered := t.(maxAttempts := window[0].maxAttempts, attempts := AttemptsIn(window));
    FailuresAre(t.phase, window[0].maxAttempts, AttemptsIn(window));
    assert |AttemptsIn(window)| == failed;
  }

  function AttemptOf(error: Event, scheduled: Event): Attempt {
    if error.AttemptError? && scheduled.RetryScheduled? then Attempt(error.failure, scheduled.nextTimeout)
    else Attempt(Failure(None, false, false, [], []), 0.0)
  }

  function AttemptsIn(window: Log): seq<Attempt> {
    if |window| == 3 then [AttemptOf(window[0], window[1])]
    else if |window| == 5 then [AttemptOf(window[0], window[1]), AttemptOf(window[2], window[3])]
    else []
  }
}
