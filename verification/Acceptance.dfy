/** The two programs agree: the strict reader accepts the log of every complete run whose
    citations its checks accept, and the controller's own parsers leave one way to fail. */
module Acceptance {
  import opened Wrappers
  import opened Utf8
  import opened Citations
  import opened CitationReader
  import opened Findings
  import opened Verdicts
  import opened Caps
  import opened Events
  import opened Occurrences
  import opened Transactions
  import opened ModelClient
  import opened ToolRegistry
  import opened Script
  import opened StepFacts
  import opened Lifecycle
  import opened Layout
  import opened MilestoneFacts
  import opened Agreement
  import opened ToolAgreement
  import opened PacketAgreement
  import opened ControllerAgreement

  /* ---- Totals ---- */

  lemma {:induction false} NeverFired(m: Meter, log: Log)
    requires m.fired == None
    ensures Account(m, log).fired == None
  {
    if log != [] { NeverFired(m, log[..|log| - 1]); }
  }

  lemma QuietAfter(m: Meter, s: Step)
    requires !s.OpeningStep? && !s.TurnStep?
    ensures Account(m, After(s)) == m && Receipts(After(s)) == []
  {
    OtherAfter(m, s);
  }

  /** No receipt after the terminal turn. */
  lemma ReceiptsAtEnd(cfg: Config, steps: seq<Step>)
    requires Read(cfg, steps)
    ensures Receipts(LogOf(steps)) == Receipts(LogOf(steps[..|steps| - 3]))
    ensures Receipts(LogOf(steps)) == Receipts(LogOf(steps[..|steps| - 2]))
  {
    hide StepsOk, AllRegular, LogOf, TxnsOf, Paired, ToolIdsOnce, Receipts, After, InProgress;
    var n := |steps| - 4;
    QuietAfter(FRESH, steps[n + 1]);
    QuietAfter(FRESH, steps[n + 2]);
    QuietAfter(FRESH, steps[n + 3]);
    ReceiptsGrow(cfg, steps, n + 1);
    ReceiptsGrow(cfg, steps, n + 2);
    ReceiptsGrow(cfg, steps, n + 3);
    assert steps[..n + 4] == steps;
  }

  /** The final snapshot accounts for the whole log. */
  lemma FinalAccounting(cfg: Config, steps: seq<Step>)
    requires Read(cfg, steps)
    ensures var n := |steps| - 4;
            Accounting(LogOf(steps)) == Accounting(LogOf(steps[..n + 3]) + TxnEvents(steps[n + 3].txn))
  {
    hide StepsOk, AllRegular, LogOf, TxnsOf, Paired, ToolIdsOnce, Receipts, After, Account, InProgress, TxnEvents;
    var n := |steps| - 4;
    var s := steps[n + 3];
    assert steps == steps[..n + 3] + [s];
    LogOfMore(steps[..n + 3], s);
    ReportEvents(s);
    Joined(LogOf(steps[..n + 3]), TxnEvents(s.txn), After(s));
    AccountConcat(FRESH, LogOf(steps[..n + 3]) + TxnEvents(s.txn), After(s));
    QuietAfter(Accounting(LogOf(steps[..n + 3]) + TxnEvents(s.txn)), s);
  }

  lemma ReportEvents(s: Step)
    requires s.ReportStep?
    ensures EventsOf(s) == TxnEvents(s.txn) + After(s)
  {
    hide TxnEvents, After;
  }

  lemma SkipsElapsed(steps: seq<Step>, i: nat)
    requires i < |steps| && !steps[i].OpeningStep? && !steps[i].txn.packet.InvestigatePacket?
    ensures ElapsedAt(steps[..i + 1]) == ElapsedAt(steps[..i])
  {
    assert steps[..i + 1][..i] == steps[..i];
  }

  lemma LastElapsed(cfg: Config, steps: seq<Step>)
    requires Read(cfg, steps)
    ensures var n := |steps| - 4;
            ElapsedAt(steps[..n + 3]) == PacketBudget(LogOf(steps), TxnsOf(LogOf(steps)), n).elapsed
  {
    hide StepsOk, Complete, AllRegular, LogOf, TxnsOf, Paired, ToolIdsOnce, Receipts, PacketBudget, ElapsedAt,
         Concludes, IndexOf, Views, SourcesOf, Remembered, NotesAt;
    AtLeastFive(steps);
    var n := |steps| - 4;
    StepKind(steps, n + 1);
    StepKind(steps, n + 2);
    ClosingAt(cfg, steps, n + 1);
    ClosingAt(cfg, steps, n + 2);
    SkipsElapsed(steps, n + 1);
    SkipsElapsed(steps, n + 2);
    ElapsedIs(cfg, steps, n + 1);
  }

  lemma BudgetPasses(cfg: Config, steps: seq<Step>)
    requires Read(cfg, steps)
    ensures steps[|steps| - 1].ReportStep?
    ensures var n := |steps| - 4;
            BudgetOk(cfg, LogOf(steps), PacketBudget(LogOf(steps), TxnsOf(LogOf(steps)), n), steps[n + 3].budget)
            <==> OnTime(cfg, steps)
  {
    hide StepsOk, Complete, AllRegular, LogOf, TxnsOf, Paired, ToolIdsOnce, PacketBudget, ElapsedAt, Account, Reports;
    AtLeastFive(steps);
    var n := |steps| - 4;
    ReportFacts(cfg, steps);
    FinalAccounting(cfg, steps);
    LastElapsed(cfg, steps);
    NeverFired(FRESH, LogOf(steps));
  }

  lemma StartPasses(cfg: Config, steps: seq<Step>)
    requires Read(cfg, steps)
    ensures StartedBudget(LogOf(steps)).meter == FRESH && 0.0 <= StartedBudget(LogOf(steps)).elapsed
  {
    hide StepsOk, Complete, AllRegular, LogOf, TxnsOf, Paired, ToolIdsOnce, PlaceOf, Interleaved, ToolRegistry.Valid;
    AtLeastFive(steps);
    StartedPlace(steps);
    OpeningAt(cfg, steps);
  }

  lemma JudgingPasses(cfg: Config, steps: seq<Step>)
    requires Read(cfg, steps)
    ensures var log := LogOf(steps);
            && PlaceOf(log, MJudging) < |log|
            && log[PlaceOf(log, MJudging)] == JudgeStarted(|Concluded(log).findings|, |Receipts(log)|)
  {
    hide StepsOk, Complete, AllRegular, LogOf, TxnsOf, Paired, ToolIdsOnce, PlaceOf, QAt, RAt, Receipts, Concluded,
         Judgments, Concludes, IndexOf, Views, SourcesOf, Remembered, NotesAt;
    AtLeastFive(steps);
    var n := |steps| - 4;
    ConclusionIs(cfg, steps);
    ClosingAt(cfg, steps, n + 1);
    ClosingPlaces(steps);
    AfterAt(steps, n + 1, 1);
    ReceiptsAtEnd(cfg, steps);
  }

  lemma TotalsPass(cfg: Config, steps: seq<Step>)
    requires Read(cfg, steps)
    ensures TotalsOk(cfg, LogOf(steps), TxnsOf(LogOf(steps))) <==> OnTime(cfg, steps)
  {
    hide StepsOk, Complete, AllRegular, LogOf, TxnsOf, Paired, ToolIdsOnce, PlaceOf, QAt, RAt, Receipts, Concluded,
         Judgments, StartedBudget, PacketBudget, BudgetOk, ReportOk, DraftOk, CLOSE, OnTime;
    AtLeastFive(steps);
    var n := |steps| - 4;
    JudgingPasses(cfg, steps);
    ConclusionIs(cfg, steps);
    ReportFacts(cfg, steps);
    ClosingPlaces(steps);
    AfterAt(steps, n + 3, 1);
    StartPasses(cfg, steps);
    BudgetPasses(cfg, steps);
  }

  /* ---- Artifacts ---- */

  lemma CloseIs()
    ensures |CLOSE| == 8 && CLOSE[0] == CustodyFinalStarted && CLOSE[1] == CustodyFinalCompleted && CLOSE[7] == RunCompleted(true)
    ensures |RENDER_ORDER| == 5 && forall k :: 0 <= k < 5 ==> CLOSE[2 + k] == ArtifactWritten(RENDER_ORDER[k])
  {}

  lemma ReportAfter(s: Step)
    requires s.ReportStep?
    ensures |After(s)| == 10 && After(s)[3] == CustodyFinalCompleted && After(s)[9] == RunCompleted(true)
    ensures |RENDER_ORDER| == 5 && forall k :: 0 <= k < 5 ==> After(s)[4 + k] == ArtifactWritten(RENDER_ORDER[k])
    ensures |Where(After(s), IsArtifact)| == 5
  {
    hide CLOSE, RENDER_ORDER, Where;
    CloseIs();
    ClosedBy([ReportCompleted(s.draft.findingIds, s.draft.spanIds, s.report),
              InvestigationCompleted(s.findingCount, s.verdictCount, s.budget)], CLOSE);
  }

  /** Two events that write no artifact, and the close of the log. */
  lemma ClosedBy(head: Log, close: Log)
    requires |head| == 2 && !IsArtifact(head[0]) && !IsArtifact(head[1])
    requires |close| == 8 && !IsArtifact(close[0]) && !IsArtifact(close[1]) && !IsArtifact(close[7])
    requires |RENDER_ORDER| == 5 && forall k :: 0 <= k < 5 ==> close[2 + k] == ArtifactWritten(RENDER_ORDER[k])
    ensures |head + close| == 10 && (head + close)[3] == close[1] && (head + close)[9] == close[7]
    ensures forall k :: 0 <= k < 5 ==> (head + close)[4 + k] == ArtifactWritten(RENDER_ORDER[k])
    ensures |Where(head + close, IsArtifact)| == 5
  {
    hide RENDER_ORDER, Where;
    var a := head + close;
    forall k | 0 <= k < 5 ensures a[4 + k] == ArtifactWritten(RENDER_ORDER[k]) { assert a[4 + k] == close[2 + k]; }
    forall k | 4 <= k < 9 ensures IsArtifact(a[k]) { assert a[4 + (k - 4)] == ArtifactWritten(RENDER_ORDER[k - 4]); }
    FiveOfTen(a);
  }

  lemma FiveOfTen(a: Log)
    requires |a| == 10 && forall k :: 0 <= k < 10 ==> (IsArtifact(a[k]) <==> 4 <= k < 9)
    ensures |Where(a, IsArtifact)| == 5
  {
    hide IsArtifact;
    assert a[..4] + (a[4..9] + a[9..]) == a;
    WhereNone(a[..4], IsArtifact);
    WhereNone(a[9..], IsArtifact);
    WhereAll(a[4..9], IsArtifact);
    WhereConcat(a[4..9], a[9..], IsArtifact);
    WhereConcat(a[..4], a[4..9] + a[9..], IsArtifact);
  }

  lemma {:induction false} WhereAll<T>(s: seq<T>, p: T -> bool)
    requires forall k :: 0 <= k < |s| ==> p(s[k])
    ensures |Where(s, p)| == |s|
  {
    if s != [] { WhereAll(s[..|s| - 1], p); }
  }

  lemma EarlierHasNoArtifact(s: Step)
    requires Regular(s) && !s.ReportStep?
    ensures Where(EventsOf(s), IsArtifact) == []
  {
    hide Before, TxnEvents, Where, EventsOf;
    WhereNone(After(s), IsArtifact);
    MarksAreAfter(s, IsArtifact);
  }

  lemma ArtifactCount(steps: seq<Step>)
    requires AllRegular(steps) && Complete(steps)
    ensures |Where(LogOf(steps), IsArtifact)| == 5
  {
    hide AllRegular, Complete, Before, After, TxnEvents, Where, EventsOf, LogOf;
    AtLeastFive(steps);
    var last := |steps| - 1;
    var earlier := Parts(steps[..last]);
    forall i | 0 <= i < last ensures |Where(earlier[i], IsArtifact)| == 0 {
      StepKind(steps, i);
      RegularAt(steps, i);
      EarlierHasNoArtifact(steps[i]);
    }
    OnceEachCount(earlier, IsArtifact, 0, 0, last);
    assert earlier[..last] == earlier;
    LogIsParts(steps[..last]);
    StepKind(steps, last);
    assert steps == steps[..last] + [steps[last]];
    LogOfMore(steps[..last], steps[last]);
    WhereConcat(LogOf(steps[..last]), EventsOf(steps[last]), IsArtifact);
    MarksAreAfter(steps[last], IsArtifact);
    ReportAfter(steps[last]);
  }

  /** The artifacts in renderer order from `p` on, and then the end. */
  predicate ClosedFrom(log: Log, p: nat) {
    && p + 6 == |log| && log[p + 5] == RunCompleted(true) && |RENDER_ORDER| == 5
    && forall k :: 0 <= k < 5 ==> log[p + k] == ArtifactWritten(RENDER_ORDER[k])
  }

  /** The report step closes the log. */
  lemma LastIsClose(steps: seq<Step>)
    requires Complete(steps)
    ensures ClosedFrom(LogOf(steps), RAt(steps, |steps| - 1) + 5)
  {
    hide Complete, LogOf, PlaceOf, QAt, RAt, After, Where, RENDER_ORDER, IsArtifact;
    AtLeastFive(steps);
    var last := |steps| - 1;
    StepKind(steps, last);
    ReportAfter(steps[last]);
    StepAt(steps, last);
    WholeLog(steps);
    forall k | 0 <= k < 5 ensures LogOf(steps)[RAt(steps, last) + 5 + k] == ArtifactWritten(RENDER_ORDER[k]) {
      AfterAt(steps, last, 4 + k);
    }
    AfterAt(steps, last, 9);
  }

  lemma LastMilestones(steps: seq<Step>)
    requires AllRegular(steps) && Complete(steps)
    ensures PlaceOf(LogOf(steps), MFinalCustody) == RAt(steps, |steps| - 1) + 4
    ensures PlaceOf(LogOf(steps), MEnded) == RAt(steps, |steps| - 1) + 10
  {
    hide Complete, AllRegular, LogOf, PlaceOf, QAt, RAt, After, Where, RENDER_ORDER, IsArtifact;
    AtLeastFive(steps);
    var last := |steps| - 1;
    StepKind(steps, last);
    ReportAfter(steps[last]);
    MilestoneAfter(steps, last, 3, MFinalCustody);
    MilestoneAfter(steps, last, 9, MEnded);
  }

  lemma ArtifactsPass(cfg: Config, steps: seq<Step>)
    requires Read(cfg, steps)
    ensures ArtifactsOk(LogOf(steps))
  {
    hide StepsOk, Complete, AllRegular, LogOf, TxnsOf, Paired, ToolIdsOnce, PlaceOf, QAt, RAt, After, Where,
         RENDER_ORDER, IsArtifact;
    LastIsClose(steps);
    LastMilestones(steps);
    ArtifactCount(steps);
  }

  lemma WholeLog(steps: seq<Step>)
    ensures Start(Parts(steps), |steps|) == |LogOf(steps)|
  {
    assert Parts(steps)[..|steps|] == Parts(steps);
  }

  /* ---- The agreement ---- */

  lemma TransactionsPass(cfg: Config, steps: seq<Step>)
    requires Read(cfg, steps) && Honest(cfg, steps)
    ensures EachTransaction(cfg, LogOf(steps), TxnsOf(LogOf(steps)))
  {
    hide StepsOk, Complete, AllRegular, LogOf, TxnsOf, Paired, ToolIdsOnce, TransactionOk, ResponseOk, PhaseWindowOk,
         Honest;
    forall i | 0 <= i < |steps|
      ensures TransactionOk(cfg, LogOf(steps), TxnsOf(LogOf(steps)), i)
      ensures ResponseOk(cfg, LogOf(steps), TxnsOf(LogOf(steps)), i)
      ensures PhaseWindowOk(LogOf(steps), TxnsOf(LogOf(steps)), i)
    {
      TransactionPasses(cfg, steps, i);
      ResponsePasses(cfg, steps, i);
      PhaseWindowPasses(cfg, steps, i);
    }
  }

  /** All of acceptance but what rests on the citation checks and on the last clock reading. */
  lemma StructurePasses(cfg: Config, steps: seq<Step>)
    requires StepsOk(cfg, steps) && Complete(steps) && Honest(cfg, steps)
    ensures Read(cfg, steps)
    ensures var log, t := LogOf(steps), TxnsOf(LogOf(steps));
            && RequiredOk(log) && NoFailures(log) && ToolIdsOnce(log) && ToolsPaired(log) && Paired(log, t)
            && EachTransaction(cfg, log, t) && DistinctReplies(log, t) && NoOrphans(log, t)
            && InputsOk(cfg, log, t) && ArtifactsOk(log) && (TotalsOk(cfg, log, t) <==> OnTime(cfg, steps))
  {
    hide StepsOk, Complete, AllRegular, LogOf, TxnsOf, Paired, ToolIdsOnce, RequiredOk, NoFailures, ToolsPaired,
         EachTransaction, DistinctReplies, NoOrphans, InputsOk, TotalsOk, ArtifactsOk, Honest, Milestones, OnTime;
    ScriptIsRead(cfg, steps);
    ScriptMilestones(steps);
    MilestonesSuffice(LogOf(steps));
    ScriptHasNoFailure(steps);
    ScriptToolsPaired(cfg, steps);
    TransactionsPass(cfg, steps);
    RepliesDiffer(cfg, steps);
    ScriptHasNoOrphan(cfg, steps);
    InputsPass(cfg, steps);
    TotalsPass(cfg, steps);
    ArtifactsPass(cfg, steps);
  }

  /** Writer and reader agree: for any number of turns, any interleaving of the opening calls
      and any retries, the log of a complete run is accepted exactly when the citation checks
      accept what the run concluded and judged and its final snapshot was on time. */
  lemma CompleteRunIsAccepted(cfg: Config, steps: seq<Step>)
    requires StepsOk(cfg, steps) && Complete(steps) && Honest(cfg, steps)
    ensures Accepted(cfg, LogOf(steps)) <==> Cites(cfg, steps) && OnTime(cfg, steps)
  {
    hide StepsOk, Complete, AllRegular, LogOf, TxnsOf, Paired, ToolIdsOnce, RequiredOk, NoFailures, ToolsPaired,
         EachTransaction, DistinctReplies, NoOrphans, InputsOk, TotalsOk, ArtifactsOk, Honest, ControllerOk, Cites,
         OnTime, Cited, SourcesOf, Receipts, Concluded, Judgments;
    StructurePasses(cfg, steps);
    if Cites(cfg, steps) {
      ControllerPasses(cfg, steps);
      CitedIs(cfg, steps);
    }
    if Accepted(cfg, LogOf(steps)) { AcceptedCites(cfg, steps); }
  }

  lemma CitedIs(cfg: Config, steps: seq<Step>)
    requires Read(cfg, steps) && Cites(cfg, steps)
    ensures Cited(cfg, FactsOf(SourcesOf(cfg, Receipts(LogOf(steps)))), Concluded(LogOf(steps)).findings, Judgments(LogOf(steps)))
  {
    hide StepsOk, Complete, AllRegular, LogOf, TxnsOf, Paired, ToolIdsOnce, SourcesOf, Receipts, Concluded, Judgments,
         Cited, AllSerialized, BindsJudgment;
    ConclusionIs(cfg, steps);
  }

  lemma AcceptedCites(cfg: Config, steps: seq<Step>)
    requires Read(cfg, steps)
    requires var log, t := LogOf(steps), TxnsOf(LogOf(steps));
             && ControllerOk(cfg, log, t)
             && Cited(cfg, FactsOf(SourcesOf(cfg, Receipts(log))), Concluded(log).findings, Judgments(log))
    ensures Cites(cfg, steps)
  {
    hide StepsOk, Complete, AllRegular, LogOf, TxnsOf, Paired, ToolIdsOnce, SourcesOf, Receipts, Concluded, Judgments,
         PlaceOf, QAt, RAt, FirstCall, JoinedAt, OpeningBound, TurnsBound, DoneBound, IdsBound, ReportBound, Cited,
         AllSerialized, BindsJudgment;
    AtLeastFive(steps);
    var n := |steps| - 4;
    ConclusionIs(cfg, steps);
    ReplyIs(cfg, steps, n + 1);
    ReplyIs(cfg, steps, n + 2);
    ConcludedAt(LogOf(steps));
  }

  lemma ConcludedAt(log: Log)
    ensures var p := PlaceOf(log, MFinished); p < |log| && log[p].Finished? ==> Concluded(log) == log[p].investigation
    ensures var p := PlaceOf(log, MJudged); p < |log| && log[p].JudgeCompleted? ==> Judgments(log) == log[p].verdicts
  {
    hide PlaceOf;
  }
}
