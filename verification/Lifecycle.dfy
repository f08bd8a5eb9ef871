/** What the strict reader requires of the log of a complete run, clause by clause, in terms
    of the positions of events. */
module Lifecycle {
  import opened Wrappers
  import opened Utf8
  import opened CanonicalJson
  import opened Citations
  import opened Findings
  import opened Verdicts
  import opened Caps
  import opened Events
  import opened Occurrences
  import opened Transactions
  import opened Script

  /* ---- Event types ---- */

  predicate IsOptions(e: Event) { e.RequestOptions? }
  predicate IsResponse(e: Event) { e.Response? }
  predicate IsRetry(e: Event) { e.AttemptError? || e.RetryScheduled? || e.RetrySucceeded? || e.RetrySkipped? }
  predicate IsNotes(e: Event) { e.NotesUpdated? }
  predicate IsAction(e: Event) { e.ActionTaken? }
  predicate IsArtifact(e: Event) { e.ArtifactWritten? }

  predicate IsFailure(e: Event) {
    || e.ModelError? || e.ProtocolError? || e.RetrySkipped? || e.CapFired?
    || e.PreflightFailed? || e.RunFailed? || e.RunInterrupted? || e.CustodyMismatch? || e.ReleaseFailed?
    || e.FinalizationFailed?
  }

  /** The events a complete log must hold exactly once, in this order. */
  datatype Milestone =
    | MCreated | MCaps | MCustody | MProfile | MStarted | MOpened | MDone | MFinished | MJudging | MJudged
    | MReporting | MReported | MCompleted | MFinalCustody | MEnded

  function MilestoneOf(e: Event): Option<Milestone> {
    match e
    case RunCreated => Some(MCreated)
    case CapsConfigured => Some(MCaps)
    case CustodyInitialCompleted => Some(MCustody)
    case ProfileCompleted => Some(MProfile)
    case InvestigationStarted(_) => Some(MStarted)
    case OpeningCompleted(_, _, _, _, _) => Some(MOpened)
    case Done(_, _, _) => Some(MDone)
    case Finished(_, _) => Some(MFinished)
    case JudgeStarted(_, _) => Some(MJudging)
    case JudgeCompleted(_) => Some(MJudged)
    case ReportStarted => Some(MReporting)
    case ReportCompleted(_, _, _) => Some(MReported)
    case InvestigationCompleted(_, _, _) => Some(MCompleted)
    case InvestigationStopped(_) => Some(MCompleted)
    case CustodyFinalCompleted => Some(MFinalCustody)
    case RunCompleted(_) => Some(MEnded)
    case _ => None
  }

  const REQUIRED: seq<Milestone> :=
    [MCreated, MCaps, MCustody, MProfile, MStarted, MOpened, MDone, MFinished, MJudging, MJudged,
     MReporting, MReported, MCompleted, MFinalCustody, MEnded]

  /** The milestones of a log, in order. */
  function Milestones(log: Log): seq<Milestone> {
    if log == [] then []
    else
      var last := MilestoneOf(log[|log| - 1]);
      Milestones(log[..|log| - 1]) + if last.Some? then [last.value] else []
  }

  function Is(m: Milestone): Event -> bool {
    e => MilestoneOf(e) == Some(m)
  }

  function Places(log: Log, m: Milestone): seq<nat> {
    Where(log, Is(m))
  }

  predicate RequiredOk(log: Log) {
    && (forall m :: m in REQUIRED ==> |Places(log, m)| == 1)
    && (forall i, j :: 0 <= i < j < |REQUIRED| ==> Places(log, REQUIRED[i])[0] < Places(log, REQUIRED[j])[0])
  }

  predicate NoFailures(log: Log) {
    forall i :: 0 <= i < |log| ==> !IsFailure(log[i])
  }

  /* ---- Model transactions ---- */

  /** The indices of the requests, their options and their responses. */
  datatype Txns = Txns(q: seq<nat>, o: seq<nat>, r: seq<nat>)

  function TxnsOf(log: Log): Txns {
    Txns(Where(log, IsRequest), Where(log, IsOptions), Where(log, IsResponse))
  }

  /** As many of each, in the phases of a complete run. */
  predicate Paired(log: Log, t: Txns) {
    && |t.q| == |t.o| == |t.r| >= 5
    && (forall i :: 0 <= i < |t.q| ==>
          && t.q[i] < |log| && t.o[i] < |log| && t.r[i] < |log|
          && log[t.q[i]].Request? && log[t.o[i]].RequestOptions? && log[t.r[i]].Response?
          && log[t.q[i]].phase == log[t.o[i]].phase == log[t.r[i]].phase == PhaseAt(|t.r|, i))
  }

  /** Opening, investigate turns, and the three closing phases. */
  function PhaseAt(n: nat, i: nat): Phase {
    if i == 0 then Opening
    else if i + 3 < n then Investigate
    else if i + 3 == n then Finalize
    else if i + 2 == n then Judge
    else Report
  }

  function ReplyAt(log: Log, t: Txns, i: nat): Reply
    requires Paired(log, t) && i < |t.r|
  {
    log[t.r[i]].reply
  }

  /** `_verify_model_transaction_window`, the request and options contracts, and the bound on
      the answer. */
  predicate TransactionOk(cfg: Config, log: Log, t: Txns, i: nat)
    requires Paired(log, t) && i < |t.r|
  {
    var options := log[t.o[i]].options;
    var reply := ReplyAt(log, t, i);
    && t.o[i] == t.q[i] + 1 && t.o[i] < t.r[i]
    && WindowOk(PhaseAt(|t.r|, i), log[t.o[i] + 1..t.r[i]], options.timeout, reply)
    && CatalogOk(log, t, i)
    && (forall c :: c in reply.calls ==> Exposed(cfg, log[t.q[i]].catalog, c))
    && OptionsAccepted(cfg, PhaseAt(|t.r|, i), options)
    && reply.usage.output <= options.maximum
  }

  /** A nonempty catalog without repetition; the investigate requests expose the opening's
      catalog and the terminal action after it. */
  predicate CatalogOk(log: Log, t: Txns, i: nat)
    requires Paired(log, t) && i < |t.r|
  {
    var catalog := log[t.q[i]].catalog;
    && catalog != []
    && (forall j, k :: 0 <= j < k < |catalog| ==> catalog[j] != catalog[k])
    && (PhaseAt(|t.r|, i) == Investigate ==> catalog == log[t.q[0]].catalog + [FinishInvestigation])
  }

  /** The reader's own table of what a phase asks for, but for its token bounds. */
  function Allowed(phase: Phase): (bool, Choice, Effort, Effort, nat) {
    match phase
    case Opening => (true, Required, Low, Low, 12)
    case Investigate => (false, Required, Medium, Medium, 1)
    case Finalize => (false, Named(InvestigationForm), Medium, Low, 1)
    case Judge => (false, Named(JudgmentForm), High, Low, 1)
    case Report => (false, Named(ReportForm), Low, Medium, 1)
  }

  function Ceiling(phase: Phase): int {
    if phase == Opening || phase == Investigate then 4_096 else if phase == Report then 8_192 else 12_288
  }

  function Floor(phase: Phase): int {
    if phase == Investigate || phase == Finalize || phase == Judge then 4_096 else 1
  }

  /** `_verify_model_options_contract`. */
  predicate OptionsAccepted(cfg: Config, phase: Phase, o: Options) {
    && (o.parallel, o.choice, o.effort, o.verbosity, o.maxCalls) == Allowed(phase)
    && 1 <= o.maximum <= Ceiling(phase) && o.minimum == Floor(phase) <= o.maximum
    && o.estimate >= 1 && 0.0 < o.timeout <= cfg.caps.maxWallSeconds
  }

  /** The options the client sends are those the reader allows, and no others. */
  lemma OptionsAgree(cfg: Config, phase: Phase, o: Options)
    ensures OptionsOk(cfg, phase, o) <==> OptionsAccepted(cfg, phase, o)
  {
    assert o.(maximum := 0, minimum := 0, estimate := 0, timeout := 0.0)
        == Options(o.parallel, o.choice, o.effort, o.verbosity, o.maxCalls, 0, 0, 0, 0.0);
  }

  predicate Exposed(cfg: Config, catalog: seq<Function>, c: Call) {
    FunctionOf(c.action) in catalog && (c.action.Forensic? ==> cfg.accepts(c.action.name, c.action.arguments))
  }

  predicate CallsOk(calls: seq<Call>) {
    && (forall i :: 0 <= i < |calls| ==> calls[i].id != [] && calls[i].valid)
    && (forall i, j :: 0 <= i < j < |calls| ==> calls[i].id != calls[j].id)
  }

  /** `_verify_recorded_response_contract` for one response. */
  predicate ReplyOk(cfg: Config, reply: Reply) {
    && cfg.sol && reply.sol && reply.completed && reply.usageReported
    && reply.responseId != [] && reply.requestId != []
    && reply.usage.Valid() && reply.usage.providerTotal == reply.usage.input + reply.usage.output
    && CallsOk(reply.calls)
  }

  function RunningCost(cfg: Config, log: Log, t: Txns, n: nat): real
    requires Paired(log, t) && n <= |t.r|
  {
    if n == 0 then 0.0
    else RunningCost(cfg, log, t, n - 1) + UsageCost(cfg.caps, ReplyAt(log, t, n - 1).usage, cfg.model)
  }

  predicate ResponseOk(cfg: Config, log: Log, t: Txns, i: nat)
    requires Paired(log, t) && i < |t.r|
  {
    && ReplyOk(cfg, ReplyAt(log, t, i))
    && log[t.r[i]].callCost == UsageCost(cfg.caps, ReplyAt(log, t, i).usage, cfg.model)
    && log[t.r[i]].runningCost == RunningCost(cfg, log, t, i + 1)
  }

  predicate DistinctReplies(log: Log, t: Txns)
    requires Paired(log, t)
  {
    forall i, j :: 0 <= i < j < |t.r| ==>
      ReplyAt(log, t, i).responseId != ReplyAt(log, t, j).responseId
      && ReplyAt(log, t, i).requestId != ReplyAt(log, t, j).requestId
  }

  /** Every retry event stands between some request's options and its response. */
  predicate NoOrphans(log: Log, t: Txns)
    requires |t.o| == |t.r|
  {
    forall p :: 0 <= p < |log| && IsRetry(log[p]) ==> exists i :: 0 <= i < |t.r| && t.o[i] < p < t.r[i]
  }

  function PlaceOf(log: Log, m: Milestone): nat {
    var places := Places(log, m);
    if |places| == 1 then places[0] else 0
  }

  /** `_verify_phase_windows`. */
  predicate PhaseWindowOk(log: Log, t: Txns, i: nat)
    requires Paired(log, t) && i < |t.r|
  {
    var (from, to) := match PhaseAt(|t.r|, i)
                      case Opening => (MStarted, MOpened)
                      case Investigate => (MOpened, MDone)
                      case Finalize => (MDone, MFinished)
                      case Judge => (MJudging, MJudged)
                      case Report => (MReporting, MReported);
    PlaceOf(log, from) < t.q[i] < t.r[i] < PlaceOf(log, to)
  }

  /* ---- Tool calls ---- */

  /** The first start, and the first completion, of a call id. */
  function StartOf(log: Log, id: Text): Option<nat> {
    if log == [] then None
    else
      var last := |log| - 1;
      match StartOf(log[..last], id)
      case Some(p) => Some(p)
      case None => if log[last].ToolStarted? && log[last].id == id then Some(last) else None
  }

  function EndOf(log: Log, id: Text): Option<nat> {
    if log == [] then None
    else
      var last := |log| - 1;
      match EndOf(log[..last], id)
      case Some(p) => Some(p)
      case None => if log[last].ToolCompleted? && log[last].receipt.id == id then Some(last) else None
  }

  /** No id is started twice or completed twice. */
  predicate ToolIdsOnce(log: Log) {
    forall p, q :: 0 <= p < q < |log| ==>
      && (log[p].ToolStarted? && log[q].ToolStarted? ==> log[p].id != log[q].id)
      && (log[p].ToolCompleted? && log[q].ToolCompleted? ==> log[p].receipt.id != log[q].receipt.id)
  }

  /** Every start has its completion after it, every completion its start before it, with the
      same name and arguments. */
  predicate ToolsPaired(log: Log) {
    && (forall p :: 0 <= p < |log| && log[p].ToolStarted? ==>
          log[p].id != [] && EndOf(log, log[p].id).Some? && p < EndOf(log, log[p].id).value)
    && (forall p :: 0 <= p < |log| && log[p].ToolCompleted? ==> CompletionOk(log, log[p].receipt, p))
  }

  /** A completion that can be part of a complete run, with its exact UTF-8 output. */
  predicate CompletionOk(log: Log, r: Receipt, p: nat)
    requires p < |log|
  {
    && r.id != [] && StartOf(log, r.id).Some?
    && var s := StartOf(log, r.id).value;
       && s < p && s < |log| && log[s].ToolStarted? && log[s].name == r.name && log[s].arguments == r.arguments
       && r.status != Rejected && r.status != Capped && Encodable(r.output)
  }

  /** `_bind_call_to_receipt`: the call ran, between the two indices. */
  predicate Bound(log: Log, c: Call, after: nat, before: nat) {
    && c.action.Forensic?
    && StartOf(log, c.id).Some? && EndOf(log, c.id).Some?
    && after < StartOf(log, c.id).value < EndOf(log, c.id).value < before
    && StartOf(log, c.id).value < |log|
    && log[StartOf(log, c.id).value] == ToolStarted(c.id, c.action.name, c.action.arguments)
  }

  function ReceiptFor(log: Log, id: Text): Option<Receipt> {
    match EndOf(log, id)
    case Some(p) => if p < |log| && log[p].ToolCompleted? then Some(log[p].receipt) else None
    case None => None
  }

  /* ---- What the controller did with each response ---- */

  function CallAt(log: Log, t: Txns, i: nat): Call
    requires Paired(log, t) && i < |t.r|
  {
    var calls := ReplyAt(log, t, i).calls;
    if calls == [] then Call([], Finish(false), false) else calls[0]
  }

  predicate OpeningBound(cfg: Config, log: Log, t: Txns)
    requires Paired(log, t)
  {
    var calls := ReplyAt(log, t, 0).calls;
    var place := PlaceOf(log, MOpened);
    && 1 <= |calls| <= MAX_OPENING_TOOLS
    && (forall i, j :: 0 <= i < j < |calls| ==> FunctionOf(calls[i].action) != FunctionOf(calls[j].action))
    && place < |log|
    && log[place] == OpeningCompleted(ReplyAt(log, t, 0).responseId, |calls|, |calls|, 0, CallIds(calls))
    && (forall i :: 0 <= i < |calls| ==> Bound(log, calls[i], t.r[0], place))
  }

  /** The ledger update a turn's message makes, and the ledger after `n` turns. */
  function UpdateAt(cfg: Config, log: Log, t: Txns, i: nat): Text
    requires Paired(log, t) && i < |t.r|
  {
    cfg.scan.strip(ReplyAt(log, t, i).message)
  }

  function LedgerAt(cfg: Config, log: Log, t: Txns, n: nat): Text
    requires Paired(log, t) && n < |t.r|
  {
    if n == 0 then [] else AppendNotes(LedgerAt(cfg, log, t, n - 1), UpdateAt(cfg, log, t, n))
  }

  /** `"\n\n".join(parts)`. */
  function Join(parts: seq<Text>): Text {
    if parts == [] then []
    else if |parts| == 1 then parts[0]
    else Join(parts[..|parts| - 1]) + [0x0A, 0x0A] + parts[|parts| - 1]
  }

  function UpdatesTo(cfg: Config, log: Log, t: Txns, n: nat): seq<Text>
    requires Paired(log, t) && n < |t.r|
  {
    seq(n, k requires 0 <= k < n => UpdateAt(cfg, log, t, k + 1))
  }

  /** The ledger that packets and the conclusion are held to: the updates joined. */
  function JoinedAt(cfg: Config, log: Log, t: Txns, n: nat): Text
    requires Paired(log, t) && n < |t.r|
  {
    Join(UpdatesTo(cfg, log, t, n))
  }

  lemma JoinedOneMore(cfg: Config, log: Log, t: Txns, n: nat)
    requires Paired(log, t) && 0 < n < |t.r|
    ensures UpdatesTo(cfg, log, t, n) == UpdatesTo(cfg, log, t, n - 1) + [UpdateAt(cfg, log, t, n)]
    ensures JoinedAt(cfg, log, t, n)
            == if n == 1 then UpdateAt(cfg, log, t, 1)
               else JoinedAt(cfg, log, t, n - 1) + BLANK_LINE + UpdateAt(cfg, log, t, n)
  {
    assert UpdatesTo(cfg, log, t, n)[..n - 1] == UpdatesTo(cfg, log, t, n - 1);
  }

  /** The reader has two ledgers, one accumulated for the notes events and one joined for the
      packets; they differ exactly after a blank first update that another one follows. */
  lemma {:induction false} LedgersAgreeExactly(cfg: Config, log: Log, t: Txns, n: nat)
    requires Paired(log, t) && n < |t.r|
    ensures JoinedAt(cfg, log, t, n) == LedgerAt(cfg, log, t, n) <==> n <= 1 || UpdateAt(cfg, log, t, 1) != []
    ensures n >= 2 && UpdateAt(cfg, log, t, 1) == [] ==>
      |JoinedAt(cfg, log, t, n)| >= |LedgerAt(cfg, log, t, n)| + 2
    ensures n >= 1 && UpdateAt(cfg, log, t, 1) != [] ==> LedgerAt(cfg, log, t, n) != []
    decreases n
  {
    hide Paired, UpdateAt, JoinedAt;
    if n == 0 {
      NothingJoined(cfg, log, t);
    } else {
      JoinedOneMore(cfg, log, t, n);
      LedgersAgreeExactly(cfg, log, t, n - 1);
    }
  }

  lemma NothingJoined(cfg: Config, log: Log, t: Txns)
    requires Paired(log, t)
    ensures JoinedAt(cfg, log, t, 0) == []
  {}

  /** The number of investigate turns. */
  function Turns(t: Txns): nat
    requires |t.r| >= 5
  {
    |t.r| - 4
  }

  /** Turn `i` before the last: one forensic call that ran inside the turn, a visible update,
      and the notes and action events that record them. */
  predicate TurnBound(cfg: Config, log: Log, t: Txns, i: nat)
    requires Paired(log, t) && 1 <= i < Turns(t)
  {
    var notes, actions := Where(log, IsNotes), Where(log, IsAction);
    var c := CallAt(log, t, i);
    var update := UpdateAt(cfg, log, t, i);
    && |ReplyAt(log, t, i).calls| == 1
    && UpdateOk(cfg, update)
    && Bound(log, c, t.r[i], t.r[i + 1])
    && i - 1 < |notes| && i - 1 < |actions|
    && log[notes[i - 1]] == NotesUpdated(i, update, |Encode(update)|, LedgerAt(cfg, log, t, i))
    && t.r[i] < notes[i - 1] < StartOf(log, c.id).value
    && ReceiptFor(log, c.id).Some?
    && log[actions[i - 1]] == ActionTaken(i, c.id, ReceiptFor(log, c.id).value.name, ReceiptFor(log, c.id).value.status)
    && EndOf(log, c.id).value < actions[i - 1] < t.q[i + 1]
  }

  predicate TurnsBound(cfg: Config, log: Log, t: Txns)
    requires Paired(log, t)
  {
    && |Where(log, IsNotes)| == |Where(log, IsAction)| == Turns(t) - 1
    && forall i :: 1 <= i < Turns(t) ==> TurnBound(cfg, log, t, i)
  }

  predicate DoneBound(log: Log, t: Txns)
    requires Paired(log, t)
  {
    var n, place := Turns(t), PlaceOf(log, MDone);
    var c := CallAt(log, t, n);
    && |ReplyAt(log, t, n).calls| == 1 && c.action == Finish(true)
    && t.r[n] < place < t.r[n + 1] && place < |log|
    && log[place] == Done(n, ReplyAt(log, t, n).responseId, c.id)
  }

  /** The ids of every forensic call, opening first, then one a nonterminal turn. */
  function ForensicIds(log: Log, t: Txns, n: nat): seq<Text>
    requires Paired(log, t) && 1 <= n <= Turns(t)
  {
    if n == 1 then CallIds(ReplyAt(log, t, 0).calls)
    else ForensicIds(log, t, n - 1) + [CallAt(log, t, n - 1).id]
  }

  /** Each forensic call has its own id, the terminal action another, and the receipts are
      exactly theirs. */
  predicate IdsBound(log: Log, t: Txns)
    requires Paired(log, t)
  {
    var ids := ForensicIds(log, t, Turns(t));
    && (forall i, j :: 0 <= i < j < |ids| ==> ids[i] != ids[j])
    && (forall id :: id in ids ==> id in ReceiptIds(Receipts(log)))
    && (forall id :: id in ReceiptIds(Receipts(log)) ==> id in ids)
    && CallAt(log, t, Turns(t)).id !in ids
  }

  /* ---- The packets each request carries, rebuilt from the log before it ---- */

  function IndexBefore(cfg: Config, log: Log, p: nat): seq<IndexEntry>
    requires p <= |log|
  {
    IndexOf(cfg, Receipts(log[..p]))
  }

  function LatestIds(log: Log, t: Txns, i: nat): seq<Text>
    requires Paired(log, t) && 1 <= i < |t.r|
  {
    if i == 1 then CallIds(ReplyAt(log, t, 0).calls) else [CallAt(log, t, i - 1).id]
  }

  /** `_verified_observation_items`. */
  function ViewsFor(cfg: Config, log: Log, ids: seq<Text>, quotable: bool): seq<Observation> {
    seq(|ids|, i requires 0 <= i < |ids| => ViewFor(cfg, log, ids[i], quotable))
  }

  function ViewFor(cfg: Config, log: Log, id: Text, quotable: bool): Observation {
    match ReceiptFor(log, id)
    case Some(r) => ViewOf(cfg, r, quotable)
    case None => Observation([], [], Null, [])
  }

  predicate OpeningInput(cfg: Config, log: Log, t: Txns)
    requires Paired(log, t)
  {
    log[t.q[0]].packet == OpeningPacket(cfg.profile) && log[t.q[0]].observations == []
  }

  function StartedBudget(log: Log): Snapshot {
    var p := PlaceOf(log, MStarted);
    if p < |log| && log[p].InvestigationStarted? then log[p].budget else Snapshot(FRESH, 0.0)
  }

  function PacketBudget(log: Log, t: Txns, i: nat): Snapshot
    requires Paired(log, t) && i < |t.q|
  {
    if i >= 1 && log[t.q[i]].packet.InvestigatePacket? then log[t.q[i]].packet.budget else StartedBudget(log)
  }

  /** An investigate packet is the ledger, the receipts, the budget and the latest call ids
      that the log before it records. */
  predicate InvestigateInputOk(cfg: Config, log: Log, t: Txns, i: nat)
    requires Paired(log, t) && 1 <= i <= Turns(t)
  {
    var e := log[t.q[i]];
    && e.packet.InvestigatePacket?
    && e.packet == InvestigatePacket(cfg.profile, JoinedAt(cfg, log, t, i - 1), i - 1, IndexBefore(cfg, log, t.q[i]),
                                     e.packet.budget, LatestIds(log, t, i))
    && e.packet.budget.meter == Accounting(log[..t.q[i]])
    && PacketBudget(log, t, i - 1).elapsed <= e.packet.budget.elapsed < cfg.caps.maxWallSeconds
    && e.observations == ViewsFor(cfg, log, LatestIds(log, t, i), false)
  }

  predicate FinalizeInput(cfg: Config, log: Log, t: Txns)
    requires Paired(log, t)
  {
    var n := Turns(t);
    && log[t.q[n + 1]].packet
       == FinalizePacket(cfg.profile, JoinedAt(cfg, log, t, n - 1), IndexBefore(cfg, log, t.q[n + 1]))
    && log[t.q[n + 1]].observations == ViewsFor(cfg, log, ForensicIds(log, t, n), true)
  }

  /* ---- The closing phases ---- */

  function Concluded(log: Log): Investigation {
    var p := PlaceOf(log, MFinished);
    if p < |log| && log[p].Finished? then log[p].investigation else Investigation([], [], [], [], 0)
  }

  function Judgments(log: Log): seq<Verdict> {
    var p := PlaceOf(log, MJudged);
    if p < |log| && log[p].JudgeCompleted? then log[p].verdicts else []
  }

  predicate JudgeInput(cfg: Config, log: Log, t: Txns)
    requires Paired(log, t)
  {
    var q := t.q[Turns(t) + 2];
    && log[q].packet == JudgePacket(cfg.profile, Concluded(log).caseNotes, Concluded(log).findings, IndexBefore(cfg, log, q))
    && log[q].observations == []
  }

  predicate ReportInput(cfg: Config, log: Log, t: Txns)
    requires Paired(log, t)
  {
    var q := t.q[Turns(t) + 3];
    log[q].packet == ReportPacket(cfg.profile, Concluded(log), Judgments(log)) && log[q].observations == []
  }

  /** `_verify_finalizer_binding`. */
  predicate FinalizerBound(cfg: Config, log: Log, t: Txns)
    requires Paired(log, t)
  {
    var n, place := Turns(t), PlaceOf(log, MFinished);
    var c := CallAt(log, t, n + 1);
    && |ReplyAt(log, t, n + 1).calls| == 1 && c.action.SubmitInvestigation?
    && t.r[n + 1] < place < |log| && log[place].Finished?
    && log[place].ledger == JoinedAt(cfg, log, t, n - 1)
    && SameConclusion(cfg, c.action.raw, log[place].investigation, n)
  }

  predicate SameConclusion(cfg: Config, raw: RawInvestigation, recorded: Investigation, turns: nat) {
    && recorded.turns == turns && recorded.caseNotes == raw.caseNotes
    && recorded.limitations == raw.limitations && recorded.unresolved == raw.unresolved
    && AllSerialized(cfg, raw, recorded)
  }

  /** `_verify_judge_binding`. */
  predicate JudgmentBound(cfg: Config, log: Log, t: Txns)
    requires Paired(log, t)
  {
    var n, place := Turns(t), PlaceOf(log, MJudged);
    var c := CallAt(log, t, n + 2);
    && |ReplyAt(log, t, n + 2).calls| == 1 && c.action.SubmitJudgment?
    && t.r[n + 2] < place < |log| && log[place].JudgeCompleted?
    && BindsJudgment(cfg, Concluded(log).findings, c.action.raws, log[place].verdicts)
  }

  /** `_verify_report_binding`. */
  predicate ReportBound(cfg: Config, log: Log, t: Txns)
    requires Paired(log, t)
  {
    var n, place := Turns(t), PlaceOf(log, MReported);
    var c := CallAt(log, t, n + 3);
    && |ReplyAt(log, t, n + 3).calls| == 1 && c.action.SubmitReport?
    && DraftOk(cfg, c.action.draft, Concluded(log).findings, Judgments(log))
    && t.r[n + 3] < place < |log|
    && log[place] == ReportCompleted(c.action.draft.findingIds, c.action.draft.spanIds,
                                     cfg.render(Concluded(log), Judgments(log), c.action.draft))
  }

  /** `_verify_lifecycle_counts` and `_verify_final_budget`. */
  predicate TotalsOk(cfg: Config, log: Log, t: Txns)
    requires Paired(log, t)
  {
    var judging, completed := PlaceOf(log, MJudging), PlaceOf(log, MCompleted);
    && judging < |log| && log[judging] == JudgeStarted(|Concluded(log).findings|, |Receipts(log)|)
    && completed < |log| && log[completed].InvestigationCompleted?
    && log[completed].findingCount == |Concluded(log).findings|
    && log[completed].verdictCount == |Judgments(log)|
    && StartedBudget(log).meter == FRESH && 0.0 <= StartedBudget(log).elapsed
    && BudgetOk(cfg, log, PacketBudget(log, t, Turns(t)), log[completed].budget)
  }

  predicate BudgetOk(cfg: Config, log: Log, before: Snapshot, final: Snapshot) {
    && final.meter == Accounting(log)
    && final.meter.toolCalls <= cfg.caps.maxToolCalls && final.meter.total <= cfg.caps.maxTotalTokens
    && final.meter.cost <= cfg.caps.maxCostUsd
    && before.elapsed <= final.elapsed < cfg.caps.maxWallSeconds
  }

  const RENDER_ORDER: seq<Artifact> := [ReportMd, ProfileJson, EnvironmentJson, SummaryJson, ViewerHtml]

  /** The root artifacts, in renderer order, fill the log from the final custody check to the
      last event, which says COMPLETE. */
  predicate ArtifactsOk(log: Log) {
    var custody, ended := PlaceOf(log, MFinalCustody), PlaceOf(log, MEnded);
    && |Where(log, IsArtifact)| == 5 && ended == custody + 6 == |log| - 1
    && log[ended] == RunCompleted(true)
    && forall k :: 0 <= k < 5 ==> log[custody + 1 + k] == ArtifactWritten(RENDER_ORDER[k])
  }

  /* ---- Acceptance ---- */

  predicate EachTransaction(cfg: Config, log: Log, t: Txns)
    requires Paired(log, t)
  {
    forall i :: 0 <= i < |t.r| ==> TransactionOk(cfg, log, t, i) && ResponseOk(cfg, log, t, i) && PhaseWindowOk(log, t, i)
  }

  predicate InputsOk(cfg: Config, log: Log, t: Txns)
    requires Paired(log, t)
  {
    && OpeningInput(cfg, log, t) && FinalizeInput(cfg, log, t) && JudgeInput(cfg, log, t) && ReportInput(cfg, log, t)
    && forall i :: 1 <= i <= Turns(t) ==> InvestigateInputOk(cfg, log, t, i)
  }

  predicate ControllerOk(cfg: Config, log: Log, t: Txns)
    requires Paired(log, t)
  {
    && OpeningBound(cfg, log, t) && TurnsBound(cfg, log, t) && DoneBound(log, t) && IdsBound(log, t)
    && FinalizerBound(cfg, log, t) && JudgmentBound(cfg, log, t) && ReportBound(cfg, log, t)
  }

  /** The logs the strict reader accepts. */
  predicate Accepted(cfg: Config, log: Log) {
    var t := TxnsOf(log);
    && RequiredOk(log) && NoFailures(log)
    && ToolIdsOnce(log) && ToolsPaired(log)
    && Paired(log, t)
    && EachTransaction(cfg, log, t) && DistinctReplies(log, t) && NoOrphans(log, t)
    && ControllerOk(cfg, log, t) && InputsOk(cfg, log, t)
    && TotalsOk(cfg, log, t) && ArtifactsOk(log)
    && Cited(cfg, FactsOf(SourcesOf(cfg, Receipts(log))), Concluded(log).findings, Judgments(log))
  }
}
