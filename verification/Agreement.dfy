/** The reader accepts every complete run: each clause of acceptance, shown of the log of a
    complete script. */
module Agreement {
  import opened Wrappers
  import opened Utf8
  import opened CanonicalJson
  import opened Citations
  import opened Caps
  import opened Events
  import opened Occurrences
  import opened Transactions
  import opened ModelClient
  import opened ToolRegistry
  import opened Script
  import opened StepFacts
  import opened Lifecycle
  import opened Layout
  import opened MilestoneFacts

  /* ---- What the provider is taken to honour ---- */

  /** Sol answers, with ids, a consistent token total and named calls; and errors that were
      retried carry text and, without a status, a listed type. */
  predicate HonestTxn(t: Txn) {
    && t.reply.sol && t.reply.responseId != [] && t.reply.requestId != []
    && t.reply.usage.providerTotal == t.reply.usage.input + t.reply.usage.output
    && (forall i :: 0 <= i < |t.reply.calls| ==> t.reply.calls[i].id != [])
    && NamedFailures(t)
  }

  predicate Honest(cfg: Config, steps: seq<Step>) {
    && cfg.sol && (forall i :: 0 <= i < |steps| ==> HonestTxn(steps[i].txn))
    && (forall i, j :: 0 <= i < j < |steps| ==>
          && steps[i].txn.reply.responseId != steps[j].txn.reply.responseId
          && steps[i].txn.reply.requestId != steps[j].txn.reply.requestId)
    && cfg.forensic != [] && Distinct(cfg.forensic)
  }

  /* ---- Transactions ---- */

  lemma OpeningIsRegular(cfg: Config, s: Step)
    requires s.OpeningStep? && OpeningOk(cfg, s)
    ensures Regular(s)
  {
    InterleavedTools(FRESH, s.txn.reply.calls, s.receipts, s.tools, s.starts, s.ends);
  }

  /** The kind of step `i` of a complete script. */
  lemma StepKind(steps: seq<Step>, i: nat)
    requires Complete(steps) && i < |steps|
    ensures var n := |steps| - 4;
            if i == 0 then steps[i].OpeningStep?
            else if i < n then steps[i].TurnStep?
            else if i == n then steps[i].TerminalStep?
            else if i == n + 1 then steps[i].FinalizeStep?
            else if i == n + 2 then steps[i].JudgeStep?
            else steps[i].ReportStep?
  {
    var n := |steps| - 4;
    if i < n { assert steps[..n][i] == steps[i]; }
  }

  lemma ScriptIsRegular(cfg: Config, steps: seq<Step>)
    requires StepsOk(cfg, steps) && Complete(steps)
    ensures AllRegular(steps)
  {
    hide StepsOk, Complete, OpeningOk;
    forall i | 0 <= i < |steps| ensures Regular(steps[i]) {
      StepKind(steps, i);
      if i == 0 {
        OpeningAt(cfg, steps);
        OpeningIsRegular(cfg, steps[0]);
      }
    }
  }

  lemma OpeningAt(cfg: Config, steps: seq<Step>)
    requires StepsOk(cfg, steps) && Complete(steps)
    ensures steps[0].OpeningStep? && OpeningOk(cfg, steps[0])
  {
    hide OpeningOk, TurnOk, TerminalOk, FinalizeOk, JudgeOk, ReportOk, TxnOk, StepsOk;
    StepKind(steps, 0);
    StepOkAt(cfg, steps, 0);
  }

  lemma TxnOkAt(cfg: Config, steps: seq<Step>, i: nat)
    requires StepsOk(cfg, steps) && i < |steps|
    ensures TxnOk(cfg, Accounting(LogOf(steps[..i])), steps[i].txn)
  {
    hide OpeningOk, TurnOk, TerminalOk, FinalizeOk, JudgeOk, ReportOk, TxnOk, LogOf, Account, StepsOk;
    StepOkAt(cfg, steps, i);
  }

  lemma TurnAt(cfg: Config, steps: seq<Step>, i: nat)
    requires StepsOk(cfg, steps) && i < |steps| && steps[i].TurnStep?
    ensures TurnOk(cfg, steps[..i], steps[i])
  {
    hide OpeningOk, TurnOk, TerminalOk, FinalizeOk, JudgeOk, ReportOk, TxnOk, LogOf, Account, StepsOk;
    StepOkAt(cfg, steps, i);
  }

  lemma TerminalAt(cfg: Config, steps: seq<Step>, i: nat)
    requires StepsOk(cfg, steps) && i < |steps| && steps[i].TerminalStep?
    ensures TerminalOk(cfg, steps[..i], steps[i])
  {
    hide OpeningOk, TurnOk, TerminalOk, FinalizeOk, JudgeOk, ReportOk, TxnOk, LogOf, Account, StepsOk;
    StepOkAt(cfg, steps, i);
  }

  lemma ClosingAt(cfg: Config, steps: seq<Step>, i: nat)
    requires StepsOk(cfg, steps) && i < |steps|
    ensures steps[i].FinalizeStep? ==> FinalizeOk(cfg, steps[..i], steps[i])
    ensures steps[i].JudgeStep? ==> JudgeOk(cfg, steps[..i], steps[i])
    ensures steps[i].ReportStep? ==> ReportOk(cfg, steps[..i], steps[i])
  {
    hide OpeningOk, TurnOk, TerminalOk, FinalizeOk, JudgeOk, ReportOk, TxnOk, LogOf, Account, StepsOk;
    StepOkAt(cfg, steps, i);
  }

  lemma StepPhase(cfg: Config, steps: seq<Step>, i: nat)
    requires StepsOk(cfg, steps) && Complete(steps) && i < |steps|
    ensures steps[i].txn.phase == PhaseAt(|steps|, i)
  {
    hide StepsOk, Complete, Concludes, Judges, Reports, Interleaved, LogOf, Account;
    StepKind(steps, i);
    if i == 0 {
      OpeningAt(cfg, steps);
    } else if steps[i].TurnStep? {
      TurnAt(cfg, steps, i);
    } else if steps[i].TerminalStep? {
      TerminalAt(cfg, steps, i);
    } else {
      ClosingPhase(cfg, steps, i);
    }
  }

  lemma ClosingPhase(cfg: Config, steps: seq<Step>, i: nat)
    requires StepsOk(cfg, steps) && i < |steps|
    ensures steps[i].FinalizeStep? ==> steps[i].txn.phase == Finalize
    ensures steps[i].JudgeStep? ==> steps[i].txn.phase == Judge
    ensures steps[i].ReportStep? ==> steps[i].txn.phase == Report
  {
    hide StepsOk, LogOf, Account, Receipts;
    ClosingAt(cfg, steps, i);
  }

  /** The reader pairs the requests, options and responses of the steps. */
  lemma ScriptIsPaired(cfg: Config, steps: seq<Step>)
    requires StepsOk(cfg, steps) && Complete(steps)
    ensures var t := TxnsOf(LogOf(steps));
            Paired(LogOf(steps), t) && |t.r| == |steps| && AllRegular(steps)
  {
    hide StepsOk, LogOf, TxnsOf, AllRegular, PhaseAt, Complete, Window;
    ScriptIsRegular(cfg, steps);
    AtLeastFive(steps);
    var log := LogOf(steps);
    var t := TxnsOf(log);
    PairAt(cfg, steps, 0);
    forall i | 0 <= i < |steps|
      ensures t.q[i] < |log| && t.o[i] < |log| && t.r[i] < |log|
      ensures log[t.q[i]].Request? && log[t.o[i]].RequestOptions? && log[t.r[i]].Response?
      ensures log[t.q[i]].phase == log[t.o[i]].phase == log[t.r[i]].phase == PhaseAt(|t.r|, i)
    {
      PairAt(cfg, steps, i);
    }
  }

  lemma AtLeastFive(steps: seq<Step>)
    requires Complete(steps)
    ensures |steps| >= 5
  {}

  lemma PairAt(cfg: Config, steps: seq<Step>, i: nat)
    requires StepsOk(cfg, steps) && Complete(steps) && AllRegular(steps) && i < |steps|
    ensures var log, t, x := LogOf(steps), TxnsOf(LogOf(steps)), steps[i].txn;
            && |t.q| == |t.o| == |t.r| == |steps|
            && t.q[i] < t.o[i] == t.q[i] + 1 < t.r[i] < |log|
            && t.q[i] == QAt(steps, i) && t.r[i] == RAt(steps, i)
            && log[t.q[i]] == RequestEvent(x) && log[t.o[i]] == RequestOptions(x.phase, x.options)
            && log[t.r[i]] == ResponseEvent(x) && log[t.o[i] + 1..t.r[i]] == Window(x)
            && x.phase == PhaseAt(|t.r|, i)
  {
    hide StepsOk, LogOf, TxnsOf, AllRegular, Complete, Window;
    TxnPositions(steps, i);
    TxnContents(steps, i);
    StepPhase(cfg, steps, i);
  }

  /** The functions each step's request exposes. */
  function CatalogFor(cfg: Config, phase: Phase): seq<Function> {
    match phase
    case Opening => Catalog(cfg)
    case Investigate => Catalog(cfg) + [FinishInvestigation]
    case Finalize => [InvestigationForm]
    case Judge => [JudgmentForm]
    case Report => [ReportForm]
  }

  lemma ForensicIsExposed(cfg: Config, c: Call)
    requires ToolRegistry.Valid(cfg, c)
    ensures FunctionOf(c.action) in Catalog(cfg) && cfg.accepts(c.action.name, c.action.arguments)
  {
    var i :| 0 <= i < |cfg.forensic| && cfg.forensic[i] == c.action.name;
    assert Catalog(cfg)[i] == Typed(c.action.name);
  }

  /** What a step exposes, and that its calls are of what it exposes. */
  lemma Exposes(cfg: Config, steps: seq<Step>, i: nat)
    requires StepsOk(cfg, steps) && Complete(steps) && i < |steps|
    ensures steps[i].txn.catalog == CatalogFor(cfg, steps[i].txn.phase)
    ensures forall c :: c in steps[i].txn.reply.calls ==> Exposed(cfg, steps[i].txn.catalog, c)
  {
    hide StepsOk, Complete, Interleaved, LogOf, Account, Receipts, Catalog, ToolRegistry.Valid;
    StepKind(steps, i);
    if i == 0 {
      OpeningAt(cfg, steps);
      forall c | c in steps[i].txn.reply.calls ensures Exposed(cfg, steps[i].txn.catalog, c) {
        ForensicIsExposed(cfg, c);
      }
    } else if steps[i].TurnStep? {
      TurnAt(cfg, steps, i);
      ForensicIsExposed(cfg, FirstCall(steps[i].txn));
    } else if steps[i].TerminalStep? {
      TerminalAt(cfg, steps, i);
      assert (Catalog(cfg) + [FinishInvestigation])[|Catalog(cfg)|] == FinishInvestigation;
    } else {
      ClosingExposes(cfg, steps, i);
    }
  }

  lemma ClosingExposes(cfg: Config, steps: seq<Step>, i: nat)
    requires StepsOk(cfg, steps) && i < |steps|
    requires steps[i].FinalizeStep? || steps[i].JudgeStep? || steps[i].ReportStep?
    ensures steps[i].txn.catalog == CatalogFor(cfg, steps[i].txn.phase)
    ensures forall c :: c in steps[i].txn.reply.calls ==> Exposed(cfg, steps[i].txn.catalog, c)
  {
    hide StepsOk, LogOf, Account, Receipts, Concludes, DraftOk;
    ClosingAt(cfg, steps, i);
    assert steps[i].txn.reply.calls[0] == FirstCall(steps[i].txn);
  }

  lemma CatalogsAreDistinct(cfg: Config, phase: Phase)
    requires cfg.forensic != [] && Distinct(cfg.forensic)
    ensures CatalogFor(cfg, phase) != []
    ensures forall j, k :: 0 <= j < k < |CatalogFor(cfg, phase)| ==> CatalogFor(cfg, phase)[j] != CatalogFor(cfg, phase)[k]
  {}

  lemma CatalogPasses(cfg: Config, steps: seq<Step>, i: nat)
    requires StepsOk(cfg, steps) && Complete(steps) && Honest(cfg, steps) && i < |steps|
    requires Paired(LogOf(steps), TxnsOf(LogOf(steps))) && AllRegular(steps) && |TxnsOf(LogOf(steps)).r| == |steps|
    ensures CatalogOk(LogOf(steps), TxnsOf(LogOf(steps)), i)
  {
    hide StepsOk, Complete, LogOf, TxnsOf, AllRegular, Paired, Window, Catalog, CatalogFor, Exposed, Distinct,
         HonestTxn;
    PairAt(cfg, steps, i);
    PairAt(cfg, steps, 0);
    Exposes(cfg, steps, i);
    Exposes(cfg, steps, 0);
    CatalogsAreDistinct(cfg, steps[i].txn.phase);
    CatalogGrows(cfg);
  }

  lemma TransactionPasses(cfg: Config, steps: seq<Step>, i: nat)
    requires StepsOk(cfg, steps) && Complete(steps) && Honest(cfg, steps) && i < |steps|
    requires Paired(LogOf(steps), TxnsOf(LogOf(steps))) && AllRegular(steps) && |TxnsOf(LogOf(steps)).r| == |steps|
    ensures TransactionOk(cfg, LogOf(steps), TxnsOf(LogOf(steps)), i)
  {
    hide StepsOk, Complete, LogOf, TxnsOf, AllRegular, Paired, Window, WindowOk, OptionsOk, Account, CatalogFor,
         CatalogOk, Exposed, Distinct, AttemptsOk, NamedFailures, UsageCost, OptionsAccepted;
    PairAt(cfg, steps, i);
    TxnOkAt(cfg, steps, i);
    OptionsAgree(cfg, steps[i].txn.phase, steps[i].txn.options);
    RetriesPass(steps[i].txn);
    Exposes(cfg, steps, i);
    CatalogPasses(cfg, steps, i);
  }

  lemma CatalogGrows(cfg: Config)
    ensures CatalogFor(cfg, Investigate) == CatalogFor(cfg, Opening) + [FinishInvestigation]
  {}

  /* ---- Responses and their costs ---- */

  lemma CostAfter(steps: seq<Step>, i: nat)
    requires AllRegular(steps) && i < |steps| && steps[i].txn.reply.usage.Valid()
    ensures Accounting(LogOf(steps[..i + 1])).cost == Accounting(LogOf(steps[..i])).cost + steps[i].txn.callCost
  {
    hide LogOf, Receipts, Where, After;
    var s := steps[i];
    AfterIsPlain(s);
    WhereNone(After(s), IsRequest);
    assert steps[..i + 1] == steps[..i] + [s];
    StepLogged(steps[..i], s);
    AccountTools(Charged(Accounting(LogOf(steps[..i])), s.txn.reply.usage, s.txn.callCost), After(s));
  }

  lemma {:induction false} RunningIsAccounted(cfg: Config, steps: seq<Step>, i: nat)
    requires StepsOk(cfg, steps) && Complete(steps) && AllRegular(steps) && i <= |steps|
    requires Paired(LogOf(steps), TxnsOf(LogOf(steps))) && |TxnsOf(LogOf(steps)).r| == |steps|
    ensures RunningCost(cfg, LogOf(steps), TxnsOf(LogOf(steps)), i) == Accounting(LogOf(steps[..i])).cost
    decreases i
  {
    hide StepsOk, Complete, LogOf, TxnsOf, AllRegular, Paired, Window, Account, OptionsOk, AttemptsOk, ReplyAccepted,
         UsageCost;
    if i == 0 {
      NothingSpent(steps);
    } else {
      RunningIsAccounted(cfg, steps, i - 1);
      TxnOkAt(cfg, steps, i - 1);
      CostAfter(steps, i - 1);
      PairAt(cfg, steps, i - 1);
    }
  }

  lemma NothingSpent(steps: seq<Step>)
    ensures Accounting(LogOf(steps[..0])).cost == 0.0
  {}

  lemma ResponsePasses(cfg: Config, steps: seq<Step>, i: nat)
    requires StepsOk(cfg, steps) && Complete(steps) && Honest(cfg, steps) && i < |steps|
    requires Paired(LogOf(steps), TxnsOf(LogOf(steps))) && AllRegular(steps) && |TxnsOf(LogOf(steps)).r| == |steps|
    ensures ResponseOk(cfg, LogOf(steps), TxnsOf(LogOf(steps)), i)
  {
    hide StepsOk, Complete, LogOf, TxnsOf, AllRegular, Paired, Window, Account, OptionsOk, AttemptsOk, UsageCost,
         NamedFailures;
    PairAt(cfg, steps, i);
    TxnOkAt(cfg, steps, i);
    RunningIsAccounted(cfg, steps, i);
  }

  lemma RepliesDiffer(cfg: Config, steps: seq<Step>)
    requires StepsOk(cfg, steps) && Complete(steps) && Honest(cfg, steps)
    requires Paired(LogOf(steps), TxnsOf(LogOf(steps))) && AllRegular(steps) && |TxnsOf(LogOf(steps)).r| == |steps|
    ensures DistinctReplies(LogOf(steps), TxnsOf(LogOf(steps)))
  {
    hide StepsOk, Complete, LogOf, TxnsOf, AllRegular, Paired, Window, HonestTxn;
    var log, t := LogOf(steps), TxnsOf(LogOf(steps));
    forall i, j | 0 <= i < j < |t.r|
      ensures ReplyAt(log, t, i).responseId != ReplyAt(log, t, j).responseId
      ensures ReplyAt(log, t, i).requestId != ReplyAt(log, t, j).requestId
    {
      PairAt(cfg, steps, i);
      PairAt(cfg, steps, j);
    }
  }

  /* ---- Failures, orphans and phase windows ---- */

  lemma TxnIsPlain(t: Txn, k: nat)
    requires k < |TxnEvents(t)|
    ensures !IsFailure(TxnEvents(t)[k])
    ensures IsRetry(TxnEvents(t)[k]) ==> 2 <= k < 2 + |Window(t)|
  {
    TxnAt(t);
    WindowIsRetries(t);
    if 2 <= k < 2 + |Window(t)| { assert TxnEvents(t)[2..2 + |Window(t)|][k - 2] == TxnEvents(t)[k]; }
  }

  lemma PiecesArePlain(before: Log, t: Txn, after: Log, k: nat)
    requires k < |before + (TxnEvents(t) + after)|
    requires forall j :: 0 <= j < |before| ==> !IsFailure(before[j]) && !RetryEvent(before[j])
    requires forall j :: 0 <= j < |after| ==> !IsFailure(after[j]) && !RetryEvent(after[j])
    ensures var e := (before + (TxnEvents(t) + after))[k];
            !IsFailure(e) && (IsRetry(e) ==> |before| + 2 <= k < |before| + 2 + |Window(t)|)
  {
    hide TxnEvents;
    if |before| <= k < |before| + |TxnEvents(t)| { TxnIsPlain(t, k - |before|); }
  }

  lemma EventIsPlain(s: Step, k: nat)
    requires Regular(s) && k < |EventsOf(s)|
    ensures !IsFailure(EventsOf(s)[k])
    ensures IsRetry(EventsOf(s)[k]) ==> |Before(s)| + 2 <= k < |Before(s)| + 2 + |Window(s.txn)|
  {
    hide Before, After, TxnEvents, Window;
    BeforeIsPlain(s);
    AfterIsPlain(s);
    PiecesArePlain(Before(s), s.txn, After(s), k);
  }

  lemma ScriptHasNoFailure(steps: seq<Step>)
    requires AllRegular(steps)
    ensures NoFailures(LogOf(steps))
  {
    hide EventsOf, IsFailure;
    forall p | 0 <= p < |LogOf(steps)| ensures !IsFailure(LogOf(steps)[p]) {
      var i, k := Locate(Parts(steps), p);
      EventIsPlain(steps[i], k);
    }
  }

  lemma ScriptHasNoOrphan(cfg: Config, steps: seq<Step>)
    requires StepsOk(cfg, steps) && Complete(steps) && AllRegular(steps)
    ensures var t := TxnsOf(LogOf(steps)); |t.o| == |t.r| && NoOrphans(LogOf(steps), t)
  {
    hide StepsOk, Complete, EventsOf, IsRetry, TxnsOf, Window;
    var log, t := LogOf(steps), TxnsOf(LogOf(steps));
    AtLeastFive(steps);
    TxnPositions(steps, 0);
    forall p | 0 <= p < |log| && IsRetry(log[p]) ensures exists i :: 0 <= i < |t.r| && t.o[i] < p < t.r[i] {
      var i, k := Locate(Parts(steps), p);
      EventIsPlain(steps[i], k);
      TxnPositions(steps, i);
    }
  }

  /** The milestones after a step's response stand where the step wrote them. */
  lemma MilestoneAfter(steps: seq<Step>, i: nat, k: nat, m: Milestone)
    requires AllRegular(steps) && Complete(steps) && i < |steps| && k < |After(steps[i])|
    requires MilestoneOf(After(steps[i])[k]) == Some(m) && m in REQUIRED
    ensures PlaceOf(LogOf(steps), m) == RAt(steps, i) + 1 + k < |LogOf(steps)|
    ensures LogOf(steps)[RAt(steps, i) + 1 + k] == After(steps[i])[k]
  {
    hide Complete, After, LogOf, Milestones, REQUIRED, MilestoneOf, PlaceOf, AllRegular, RAt, QAt, Window, TxnEvents,
         Before;
    StepAt(steps, i);
    ScriptMilestones(steps);
    var r, n := RAt(steps, i), |After(steps[i])|;
    assert LogOf(steps)[r + 1..r + 1 + n][k] == LogOf(steps)[r + 1 + k];
    PlaceIs(LogOf(steps), m, r + 1 + k);
  }

  lemma StartedPlace(steps: seq<Step>)
    requires AllRegular(steps) && Complete(steps)
    ensures PlaceOf(LogOf(steps), MStarted) == 5 < QAt(steps, 0)
    ensures QAt(steps, 0) <= |LogOf(steps)| && LogOf(steps)[5] == InvestigationStarted(steps[0].started)
  {
    hide Milestones, After, TxnEvents, AllRegular, PlaceOf;
    StepKind(steps, 0);
    StepAt(steps, 0);
    ScriptMilestones(steps);
    assert Start(Parts(steps), 0) == 0 && steps[..0] == [];
    assert LogOf(steps)[..QAt(steps, 0)][5] == LogOf(steps)[5];
    PlaceIs(LogOf(steps), MStarted, 5);
  }

  lemma OpenedPlace(steps: seq<Step>)
    requires AllRegular(steps) && Complete(steps) && steps[0].OpeningStep?
    ensures PlaceOf(LogOf(steps), MOpened) == RAt(steps, 0) + |After(steps[0])| < |LogOf(steps)|
    ensures LogOf(steps)[RAt(steps, 0) + |After(steps[0])|] == After(steps[0])[|After(steps[0])| - 1]
    ensures |After(steps[0])| == |steps[0].tools| + 1
  {
    hide LogOf, AllRegular, PlaceOf, InProgress;
    MilestoneAfter(steps, 0, |steps[0].tools|, MOpened);
  }

  /** Where the closing milestones stand. */
  lemma ClosingPlaces(steps: seq<Step>)
    requires AllRegular(steps) && Complete(steps)
    ensures var n, log := |steps| - 4, LogOf(steps);
            && PlaceOf(log, MDone) == RAt(steps, n) + 1
            && PlaceOf(log, MFinished) == RAt(steps, n + 1) + 1 && PlaceOf(log, MJudging) == RAt(steps, n + 1) + 2
            && PlaceOf(log, MJudged) == RAt(steps, n + 2) + 1 && PlaceOf(log, MReporting) == RAt(steps, n + 2) + 2
            && PlaceOf(log, MReported) == RAt(steps, n + 3) + 1 && PlaceOf(log, MCompleted) == RAt(steps, n + 3) + 2
  {
    hide AllRegular, LogOf, PlaceOf, RAt, InProgress, After;
    var n := |steps| - 4;
    AfterMilestone(steps[n]);
    AfterMilestone(steps[n + 1]);
    AfterMilestone(steps[n + 2]);
    AfterMilestone(steps[n + 3]);
    MilestoneAfter(steps, n, 0, MDone);
    MilestoneAfter(steps, n + 1, 0, MFinished);
    MilestoneAfter(steps, n + 1, 1, MJudging);
    MilestoneAfter(steps, n + 2, 0, MJudged);
    MilestoneAfter(steps, n + 2, 1, MReporting);
    MilestoneAfter(steps, n + 3, 0, MReported);
    MilestoneAfter(steps, n + 3, 1, MCompleted);
  }

  lemma AfterMilestone(s: Step)
    ensures s.TerminalStep? ==> |After(s)| == 1 && MilestoneOf(After(s)[0]) == Some(MDone)
    ensures s.FinalizeStep? ==>
      |After(s)| == 2 && MilestoneOf(After(s)[0]) == Some(MFinished) && MilestoneOf(After(s)[1]) == Some(MJudging)
    ensures s.JudgeStep? ==>
      |After(s)| == 2 && MilestoneOf(After(s)[0]) == Some(MJudged) && MilestoneOf(After(s)[1]) == Some(MReporting)
    ensures s.ReportStep? ==>
      |After(s)| >= 2 && MilestoneOf(After(s)[0]) == Some(MReported) && MilestoneOf(After(s)[1]) == Some(MCompleted)
  {
    hide CLOSE;
  }

  lemma ClosingOrder(steps: seq<Step>)
    requires Complete(steps)
    ensures var n := |steps| - 4;
            && RAt(steps, n) + 1 < QAt(steps, n + 1) && RAt(steps, n + 1) + 2 < QAt(steps, n + 2)
            && RAt(steps, n + 2) + 2 < QAt(steps, n + 3)
  {
    hide LogOf, RAt, QAt, Start;
    var n := |steps| - 4;
    StepsInOrder(steps, n, n + 1);
    StepsInOrder(steps, n + 1, n + 2);
    StepsInOrder(steps, n + 2, n + 3);
  }

  lemma QBeforeR(steps: seq<Step>, i: nat)
    requires i < |steps|
    ensures QAt(steps, i) < RAt(steps, i)
  {}

  lemma PhaseWindowPasses(cfg: Config, steps: seq<Step>, i: nat)
    requires StepsOk(cfg, steps) && Complete(steps) && AllRegular(steps) && i < |steps|
    requires Paired(LogOf(steps), TxnsOf(LogOf(steps))) && |TxnsOf(LogOf(steps)).r| == |steps|
    ensures PhaseWindowOk(LogOf(steps), TxnsOf(LogOf(steps)), i)
  {
    hide StepsOk, Complete, LogOf, TxnsOf, AllRegular, Paired, PlaceOf, RAt, QAt, Start, After;
    AtLeastFive(steps);
    TxnPositions(steps, i);
    QBeforeR(steps, i);
    ClosingPlaces(steps);
    ClosingOrder(steps);
    StepKind(steps, 0);
    OpenedPlace(steps);
    if i == 0 {
      StartedPlace(steps);
    } else if i + 3 < |steps| {
      StepsInOrder(steps, 0, i);
      if i + 4 < |steps| { StepsInOrder(steps, i, |steps| - 4); }
    }
  }
}
