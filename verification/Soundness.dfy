/** What follows of any log the strict reader accepts, whoever wrote it. */
module Soundness {
  import opened Wrappers
  import opened Utf8
  import opened Citations
  import opened CitationReader
  import opened Findings
  import opened Verdicts
  import opened Caps
  import opened Events
  import opened Occurrences
  import opened Transactions
  import opened Script
  import opened StepFacts
  import opened Lifecycle
  import opened ReaderFacts
  import opened ReaderSteps
  import opened ToolAgreement
  import opened ControllerAgreement
  import opened CitationAgreement
  import Search

  /* ---- The phases ---- */

  function PhasesOf(log: Log): seq<Phase> {
    var r := Where(log, IsResponse);
    seq(|r|, i requires 0 <= i < |r| => log[r[i]].phase)
  }

  /** An opening, `n` investigate turns, and the three closing phases. */
  function Run(n: nat): seq<Phase> {
    [Opening] + seq(n, _ => Investigate) + [Finalize, Judge, Report]
  }

  predicate Shaped(log: Log, n: nat) {
    PhasesOf(log) == Run(n)
  }

  lemma AcceptedParts(cfg: Config, log: Log)
    requires Accepted(cfg, log)
    ensures var t := TxnsOf(log);
            && Paired(log, t) && |t.q| == |t.o| == |t.r| >= 5 && ToolIdsOnce(log) && ToolsPaired(log) && RequiredOk(log)
            && EachTransaction(cfg, log, t) && NoOrphans(log, t) && ControllerOk(cfg, log, t) && InputsOk(cfg, log, t)
            && TotalsOk(cfg, log, t)
            && Cited(cfg, FactsOf(SourcesOf(cfg, Receipts(log))), Concluded(log).findings, Judgments(log))
  {
    hide ToolIdsOnce, ToolsPaired, EachTransaction, ControllerOk, InputsOk, TotalsOk, SourcesOf, Receipts, Concluded,
         Judgments, TxnsOf, RequiredOk, NoOrphans;
  }

  lemma PairedIsShaped(log: Log)
    requires Paired(log, TxnsOf(log))
    ensures Shaped(log, Turns(TxnsOf(log)))
  {
    hide Where;
    var phases, run := PhasesOf(log), Run(Turns(TxnsOf(log)));
    forall k | 0 <= k < |phases| ensures phases[k] == run[k] {
      assert phases[k] == PhaseAt(|phases|, k);
    }
  }

  lemma RunLength(n: nat)
    ensures |Run(n)| == n + 4
  {}

  /** The accepted phases decode in exactly one way, with at least one turn. */
  lemma PhasesDecode(cfg: Config, log: Log)
    requires Accepted(cfg, log)
    ensures |TxnsOf(log).r| >= 5
    ensures forall n: nat :: Shaped(log, n) <==> n == Turns(TxnsOf(log)) >= 1
  {
    hide Accepted, TxnsOf, Paired, Run, PhasesOf;
    AcceptedParts(cfg, log);
    PairedIsShaped(log);
    var n := Turns(TxnsOf(log));
    RunLength(n);
    forall m: nat ensures Shaped(log, m) <==> m == n { RunLength(m); }
  }

  /* ---- Failures ---- */

  /** No accepted log records a failure of the model, of the protocol, of a retry, of a cap, of
      custody or of the run itself: a log with one is refused. */
  lemma FailureIsRefused(cfg: Config, log: Log, p: nat)
    requires p < |log|
    requires || log[p].CapFired? || log[p].ModelError? || log[p].ProtocolError? || log[p].RetrySkipped?
             || log[p].PreflightFailed? || log[p].RunFailed? || log[p].RunInterrupted? || log[p].CustodyMismatch?
             || log[p].ReleaseFailed? || log[p].FinalizationFailed?
    ensures !Accepted(cfg, log)
  {
    hide RequiredOk, ToolIdsOnce, ToolsPaired, Paired, EachTransaction, DistinctReplies, NoOrphans, ControllerOk, InputsOk,
         TotalsOk, ArtifactsOk, Cited, SourcesOf, Receipts, Concluded, Judgments, TxnsOf;
    assert IsFailure(log[p]);
  }

  /* ---- The milestones ---- */

  /** The fifteen things a complete log says, each in its turn. */
  predicate Says(k: nat, e: Event) {
    match k
    case 0 => e.RunCreated?
    case 1 => e.CapsConfigured?
    case 2 => e.CustodyInitialCompleted?
    case 3 => e.ProfileCompleted?
    case 4 => e.InvestigationStarted?
    case 5 => e.OpeningCompleted?
    case 6 => e.Done?
    case 7 => e.Finished?
    case 8 => e.JudgeStarted?
    case 9 => e.JudgeCompleted?
    case 10 => e.ReportStarted?
    case 11 => e.ReportCompleted?
    case 12 => e.InvestigationCompleted? || e.InvestigationStopped?
    case 13 => e.CustodyFinalCompleted?
    case 14 => e.RunCompleted?
    case _ => false
  }

  lemma SaysMilestone(k: nat, e: Event)
    requires k < 15
    ensures |REQUIRED| == 15 && (Says(k, e) <==> MilestoneOf(e) == Some(REQUIRED[k]))
  {}

  lemma PlaceIs(log: Log, k: nat, p: nat)
    requires RequiredOk(log) && k < 15 && p < |log| && Says(k, log[p])
    ensures |REQUIRED| == 15 && |Places(log, REQUIRED[k])| == 1 && Places(log, REQUIRED[k])[0] == p
  {
    hide Says, MilestoneOf, REQUIRED, Where;
    SaysMilestone(k, log[p]);
    assert REQUIRED[k] in REQUIRED && Is(REQUIRED[k])(log[p]);
    WhereComplete(log, Is(REQUIRED[k]));
  }

  /** In any accepted log each of the fifteen is said, once, and before the next. */
  lemma MilestonesInOrder(cfg: Config, log: Log, k: nat) returns (p: nat)
    requires Accepted(cfg, log) && k < 15
    ensures p < |log| && Says(k, log[p]) && forall q :: 0 <= q < |log| && Says(k, log[q]) ==> q == p
    ensures forall j, q :: k < j < 15 && 0 <= q < |log| && Says(j, log[q]) ==> p < q
  {
    hide Says, MilestoneOf, REQUIRED, Accepted, Where, TxnsOf, Paired, ToolIdsOnce, ToolsPaired, EachTransaction,
         NoOrphans, ControllerOk, InputsOk, TotalsOk, SourcesOf, Receipts, Concluded, Judgments;
    AcceptedParts(cfg, log);
    SaysMilestone(k, RunCreated);
    assert REQUIRED[k] in REQUIRED;
    p := Places(log, REQUIRED[k])[0];
    SaysMilestone(k, log[p]);
    forall q | 0 <= q < |log| && Says(k, log[q]) ensures q == p { PlaceIs(log, k, q); }
    forall j, q | k < j < 15 && 0 <= q < |log| && Says(j, log[q]) ensures p < q { PlaceIs(log, j, q); }
  }

  /* ---- The receipts ---- */

  lemma {:induction false} ToolCallsCounted(log: Log)
    ensures Accounting(log).toolCalls == |Receipts(log)|
  {
    if log != [] { ToolCallsCounted(log[..|log| - 1]); }
  }

  /** Where call `b` of response `j` stands among the forensic ids. */
  function Ordinal(log: Log, t: Txns, j: nat, b: nat): nat
    requires Paired(log, t)
  {
    if j == 0 then b else |ReplyAt(log, t, 0).calls| + j - 1
  }

  predicate IsForensic(log: Log, t: Txns, j: nat, b: nat)
    requires Paired(log, t)
  {
    j < Turns(t) && b < |ReplyAt(log, t, j).calls| && (j > 0 ==> |ReplyAt(log, t, j).calls| == 1)
  }

  /** Call `b` of response `j` is a forensic call with this id. */
  predicate IsCall(log: Log, t: Txns, j: nat, b: nat, id: Text)
    requires Paired(log, t)
  {
    IsForensic(log, t, j, b) && ReplyAt(log, t, j).calls[b].id == id
  }

  lemma {:induction false} ForensicAt(log: Log, t: Txns, n: nat, j: nat, b: nat)
    requires Paired(log, t) && 1 <= n <= Turns(t) && j < n && IsForensic(log, t, j, b)
    ensures |ForensicIds(log, t, n)| == |ReplyAt(log, t, 0).calls| + n - 1
    ensures Ordinal(log, t, j, b) < |ForensicIds(log, t, n)|
    ensures ForensicIds(log, t, n)[Ordinal(log, t, j, b)] == ReplyAt(log, t, j).calls[b].id
    decreases n
  {
    hide Paired;
    PairedCount(log, t);
    if n > 1 {
      if j < n - 1 { ForensicAt(log, t, n - 1, j, b); } else { ForensicCount(log, t, n - 1); }
    }
  }

  lemma {:induction false} ForensicCount(log: Log, t: Txns, n: nat)
    requires Paired(log, t) && 1 <= n <= Turns(t)
    ensures |ForensicIds(log, t, n)| == |ReplyAt(log, t, 0).calls| + n - 1
    decreases n
  {
    hide Paired;
    PairedCount(log, t);
    if n > 1 { ForensicCount(log, t, n - 1); }
  }

  lemma SameLength(a: seq<Text>, b: seq<Text>)
    requires forall i, j :: 0 <= i < j < |a| ==> a[i] != a[j]
    requires forall i, j :: 0 <= i < j < |b| ==> b[i] != b[j]
    requires (forall x :: x in a ==> x in b) && forall x :: x in b ==> x in a
    ensures |a| == |b|
  {
    SetSize(a);
    SetSize(b);
    assert SetOf(a) == SetOf(b);
  }

  /** As many receipts as opening calls and nonterminal turns, and that is the final tool
      count, within the cap. */
  lemma ReceiptsAreCounted(cfg: Config, log: Log)
    requires Accepted(cfg, log)
    ensures var t := TxnsOf(log);
            && Paired(log, t) && |t.r| >= 5
            && |Receipts(log)| == |ReplyAt(log, t, 0).calls| + Turns(t) - 1 <= cfg.caps.maxToolCalls
            && Accounting(log).toolCalls == |Receipts(log)|
  {
    hide Accepted, Paired, TxnsOf, Receipts, ForensicIds, ToolIdsOnce, ToolsPaired, OpeningBound, TurnsBound,
         DoneBound, FinalizerBound, JudgmentBound, ReportBound, InputsOk, Account, ReceiptIds, EachTransaction,
         NoOrphans, RequiredOk, SourcesOf, Concluded, Judgments;
    AcceptedParts(cfg, log);
    var t := TxnsOf(log);
    PairedCount(log, t);
    ForensicCount(log, t, Turns(t));
    ReceiptsAreDistinct(log);
    ReceiptIdsApart(Receipts(log));
    SameLength(ForensicIds(log, t, Turns(t)), ReceiptIds(Receipts(log)));
    ToolCallsCounted(log);
  }

  lemma ReceiptIdsApart(receipts: seq<Receipt>)
    requires DistinctIds(receipts)
    ensures forall i, j :: 0 <= i < j < |ReceiptIds(receipts)| ==> ReceiptIds(receipts)[i] != ReceiptIds(receipts)[j]
    ensures |ReceiptIds(receipts)| == |receipts|
  {}

  /** Each receipt is of one call of one turn, and of no other, and was started and
      completed inside that turn. */
  lemma ReceiptInItsTurn(cfg: Config, log: Log, r: Receipt) returns (i: nat, a: nat)
    requires Accepted(cfg, log) && r in Receipts(log)
    ensures var t := TxnsOf(log);
            && Paired(log, t) && |t.q| == |t.r| >= 5 && IsForensic(log, t, i, a)
            && CallRan(log, ReplyAt(log, t, i).calls[a], r, t.r[i], if i == 0 then t.q[1] else t.r[i + 1])
            && forall j: nat, b: nat :: IsCall(log, t, j, b, r.id) ==> j == i && b == a
  {
    hide Accepted, Paired, TxnsOf, Receipts, ForensicIds, ToolIdsOnce, ToolsPaired, OpeningBound, TurnsBound,
         DoneBound, IdsBound, FinalizerBound, JudgmentBound, ReportBound, InputsOk, Account, ReceiptIds,
         EachTransaction, NoOrphans, RequiredOk, SourcesOf, Concluded, Judgments, TotalsOk, ReplyAt, CallRan;
    AcceptedParts(cfg, log);
    var t := TxnsOf(log);
    i, a := CallOfReceipt(cfg, log, t, r);
    CallRanAt(cfg, log, t, r, i, a);
    forall j: nat, b: nat | IsCall(log, t, j, b, r.id) ensures j == i && b == a {
      CallsApart(log, t, i, a, j, b);
    }
  }

  /** The call was started and completed between the two indices, as the receipt says. */
  predicate CallRan(log: Log, c: Call, r: Receipt, after: nat, before: nat) {
    && Bound(log, c, after, before)
    && c.id == r.id && c.action.name == r.name && c.action.arguments == r.arguments
    && ReceiptFor(log, c.id) == Some(r)
  }

  lemma CallOfReceipt(cfg: Config, log: Log, t: Txns, r: Receipt) returns (i: nat, a: nat)
    requires Paired(log, t) && |t.r| >= 5 && IdsBound(log, t) && TurnsBound(cfg, log, t) && r in Receipts(log)
    ensures IsForensic(log, t, i, a) && ReplyAt(log, t, i).calls[a].id == r.id
  {
    hide Paired, ForensicIds, Receipts, ReceiptIds;
    var ids := ForensicIds(log, t, Turns(t));
    IdListed(Receipts(log), r);
    var m :| 0 <= m < |ids| && ids[m] == r.id;
    ForensicCount(log, t, Turns(t));
    var k := |ReplyAt(log, t, 0).calls|;
    i, a := if m < k then 0 else m - k + 1, if m < k then m else 0;
    if i > 0 { TurnHasOneCall(cfg, log, t, i); }
    ForensicAt(log, t, Turns(t), i, a);
  }

  lemma TurnHasOneCall(cfg: Config, log: Log, t: Txns, i: nat)
    requires Paired(log, t) && TurnsBound(cfg, log, t) && 1 <= i < Turns(t)
    ensures |ReplyAt(log, t, i).calls| == 1 && CallAt(log, t, i) == ReplyAt(log, t, i).calls[0]
    ensures Bound(log, CallAt(log, t, i), t.r[i], t.r[i + 1])
  {
    hide Paired, Where, Bound, UpdateOk, LedgerAt, ReceiptFor, StartOf, EndOf;
    PairedCount(log, t);
    assert TurnBound(cfg, log, t, i);
  }

  lemma CallsApart(log: Log, t: Txns, i: nat, a: nat, j: nat, b: nat)
    requires Paired(log, t) && |t.r| >= 5 && IdsBound(log, t)
    requires IsForensic(log, t, i, a) && IsForensic(log, t, j, b)
    requires ReplyAt(log, t, i).calls[a].id == ReplyAt(log, t, j).calls[b].id
    ensures i == j && a == b
  {
    hide Paired, ForensicIds, Receipts, ReceiptIds;
    ForensicAt(log, t, Turns(t), i, a);
    ForensicAt(log, t, Turns(t), j, b);
  }

  lemma OpeningCallRan(cfg: Config, log: Log, t: Txns, a: nat)
    requires Paired(log, t) && |t.q| == |t.r| >= 5 && OpeningBound(cfg, log, t) && a < |ReplyAt(log, t, 0).calls|
    requires PhaseWindowOk(log, t, 1)
    ensures Bound(log, ReplyAt(log, t, 0).calls[a], t.r[0], t.q[1])
  {
    hide Paired, PlaceOf, StartOf, EndOf;
  }

  lemma CallRanAt(cfg: Config, log: Log, t: Txns, r: Receipt, i: nat, a: nat)
    requires Accepted(cfg, log) && t == TxnsOf(log) && Paired(log, t) && |t.q| == |t.r| >= 5 && r in Receipts(log)
    requires IsForensic(log, t, i, a) && ReplyAt(log, t, i).calls[a].id == r.id
    ensures CallRan(log, ReplyAt(log, t, i).calls[a], r, t.r[i], if i == 0 then t.q[1] else t.r[i + 1])
  {
    hide Accepted, Paired, TxnsOf, Receipts, ForensicIds, ToolIdsOnce, OpeningBound, TurnsBound, DoneBound, IdsBound,
         FinalizerBound, JudgmentBound, ReportBound, InputsOk, Account, ReceiptIds, NoOrphans, RequiredOk, SourcesOf,
         Concluded, Judgments, TotalsOk, StartOf, EndOf, PhaseWindowOk, TransactionOk, ResponseOk;
    AcceptedParts(cfg, log);
    if i == 0 { OpeningCallRan(cfg, log, t, a); } else { TurnHasOneCall(cfg, log, t, i); }
    var p := WhereListed(log, r);
    EndFound(log, p);
    assert CompletionOk(log, log[p].receipt, p);
  }

  /* ---- Provenance ---- */

  /** The quote stands inside the range of a span of its finding, in the retained output of
      a call the finding cites, whose receipt is in the log. */
  ghost predicate QuotesReceipt(cfg: Config, log: Log, f: Finding, q: JudgeQuote) {
    exists r: Receipt, s: Span, p: nat {:trigger Quotes(cfg, f, q, r, s, p)} :: r in Receipts(log) && Quotes(cfg, f, q, r, s, p)
  }

  predicate Quotes(cfg: Config, f: Finding, q: JudgeQuote, r: Receipt, s: Span, p: nat) {
    var content := Encode(r.output);
    && r.id == q.call == s.call && q.call in f.calls && s in f.spans && s.id == q.span
    && s.digest == cfg.sha(content)
    && s.start <= p && p + |Encode(q.text)| <= s.end <= |content|
    && Search.OccursAt(content, Encode(q.text), p)
  }

  lemma FactIsReceipt(cfg: Config, log: Log, id: Text) returns (r: Receipt)
    requires ToolIdsOnce(log) && id in FactsOf(SourcesOf(cfg, Receipts(log)))
    ensures r in Receipts(log) && r.id == id
    ensures var fact := FactsOf(SourcesOf(cfg, Receipts(log)))[id];
            fact.content == Encode(r.output) && fact.success == (r.status == Success)
    ensures FactsOf(SourcesOf(cfg, Receipts(log)))[id].digest == cfg.sha(Encode(r.output))
  {
    hide SourcesOf, Receipts, ReceiptIds, ToolIdsOnce;
    ReceiptsAreDistinct(log);
    SourceAt(cfg, Receipts(log), id);
    r := ReceiptNamed(Receipts(log), id);
  }

  /** In any accepted log, each final verdict is on one of the findings and ranks no higher
      than proposed; CONFIRMED has a cited call whose receipt in the log is a success; and
      every quote lies inside a located range of the content-addressed output of a cited
      call whose receipt is in the log. */
  lemma AcceptedRunIsGrounded(cfg: Config, log: Log, i: nat) returns (j: nat)
    requires Accepted(cfg, log) && i < |Judgments(log)|
    ensures var v, findings := Judgments(log)[i], Concluded(log).findings;
            && j < |findings| && findings[j].id == v.findingId && Lowers(v.status, findings[j].status)
            && (v.status == Confirmed ==>
                  exists r :: r in Receipts(log) && r.status == Success && r.id in v.cited && r.id in findings[j].calls)
            && v.quotes != [] && forall q :: q in v.quotes ==> QuotesReceipt(cfg, log, findings[j], q)
  {
    hide Accepted, Paired, TxnsOf, Receipts, ToolIdsOnce, ToolsPaired, ControllerOk, InputsOk, EachTransaction,
         NoOrphans, RequiredOk, SourcesOf, Concluded, Judgments, TotalsOk, CitationsOk;
    AcceptedParts(cfg, log);
    var facts := FactsOf(SourcesOf(cfg, Receipts(log)));
    forall c | c in facts ensures facts[c].digest == cfg.sha(facts[c].content) { var r := FactIsReceipt(cfg, log, c); }
    j := AcceptedVerdictsAreGrounded(cfg.scan, cfg.sha, facts, Concluded(log).findings, Judgments(log), i);
    var v, f := Judgments(log)[i], Concluded(log).findings[j];
    if v.status == Confirmed {
      var c :| c in v.cited && c in f.calls && c in facts && facts[c].success;
      var r := FactIsReceipt(cfg, log, c);
    }
    forall q | q in v.quotes ensures QuotesReceipt(cfg, log, f, q) { QuoteIsOfReceipt(cfg, log, f, q); }
  }

  lemma QuoteIsOfReceipt(cfg: Config, log: Log, f: Finding, q: JudgeQuote)
    requires ToolIdsOnce(log) && Grounded(cfg.sha, FactsOf(SourcesOf(cfg, Receipts(log))), f, q)
    ensures QuotesReceipt(cfg, log, f, q)
  {
    hide Receipts, SourcesOf, ToolIdsOnce;
    var facts := FactsOf(SourcesOf(cfg, Receipts(log)));
    var s, p :| GroundedAt(cfg.sha, facts, f, q, s, p);
    var r := FactIsReceipt(cfg, log, q.call);
    assert Quotes(cfg, f, q, r, s, p);
  }

  /* ---- Retries ---- */

  /** In any accepted log, every retry event is inside a window, between a request's options
      and its response, of one or two failed attempts with their retries and then the
      success. */
  lemma RetriesAreAccounted(cfg: Config, log: Log, p: nat) returns (i: nat)
    requires Accepted(cfg, log) && p < |log|
    requires log[p].AttemptError? || log[p].RetryScheduled? || log[p].RetrySucceeded?
    ensures var t := TxnsOf(log);
            && Paired(log, t) && |t.o| == |t.r| && i < |t.r| && t.o[i] < p < t.r[i]
            && RecoveredWindow(log[t.o[i] + 1..t.r[i]])
  {
    hide Accepted, TxnsOf, ToolIdsOnce, ToolsPaired, ControllerOk, InputsOk, RequiredOk, SourcesOf, Concluded,
         Judgments, TotalsOk, Receipts, WindowOk, CatalogOk, Exposed, OptionsAccepted, ResponseOk, PhaseWindowOk,
         RecoveredWindow;
    AcceptedParts(cfg, log);
    var t := TxnsOf(log);
    assert IsRetry(log[p]);
    i :| 0 <= i < |t.r| && t.o[i] < p < t.r[i];
    assert TransactionOk(cfg, log, t, i);
    WindowRecovers(PhaseAt(|t.r|, i), log[t.o[i] + 1..t.r[i]], log[t.o[i]].options.timeout, ReplyAt(log, t, i));
  }

  /** Failures and their retries in pairs, once or twice, then the success. */
  predicate RecoveredWindow(window: Log) {
    && (|window| == 3 || |window| == 5)
    && (forall k :: 0 <= k < |window| ==>
          if k == |window| - 1 then window[k].RetrySucceeded?
          else if k % 2 == 0 then window[k].AttemptError?
          else window[k].RetryScheduled?)
  }

  lemma WindowRecovers(phase: Phase, window: Log, timeout: real, reply: Reply)
    requires WindowOk(phase, window, timeout, reply) && window != []
    ensures RecoveredWindow(window)
  {
    hide RETRYABLE_TYPES, Backoff, MayRetry;
  }
}
