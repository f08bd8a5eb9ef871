/** What the controller recorded of each response is what the reader binds to it. */
module ControllerAgreement {
  import opened Wrappers
  import opened Utf8
  import opened Citations
  import opened Findings
  import opened Verdicts
  import opened Caps
  import opened Events
  import opened Occurrences
  import opened Transactions
  import opened ModelClient
  import opened ToolRegistry
  import opened Script
  import opened StepFacts
  import opened Lifecycle
  import opened Layout
  import opened MilestoneFacts
  import opened Agreement
  import opened ToolAgreement
  import opened PacketAgreement

  /* ---- The opening ---- */

  lemma OpeningFunctionsDiffer(cfg: Config, calls: seq<Call>)
    requires forall i :: 0 <= i < |calls| ==> ToolRegistry.Valid(cfg, calls[i])
    requires forall i, j :: 0 <= i < j < |calls| ==> Name(calls[i]) != Name(calls[j])
    ensures forall i, j :: 0 <= i < j < |calls| ==> FunctionOf(calls[i].action) != FunctionOf(calls[j].action)
  {}

  lemma OpeningEnd(steps: seq<Step>)
    requires AllRegular(steps) && Complete(steps) && steps[0].OpeningStep?
    ensures PlaceOf(LogOf(steps), MOpened) == RAt(steps, 0) + |After(steps[0])| < |LogOf(steps)|
    ensures var s := steps[0];
      LogOf(steps)[PlaceOf(LogOf(steps), MOpened)]
      == OpeningCompleted(s.txn.reply.responseId, |s.txn.reply.calls|, |s.receipts|, 0, ReceiptIds(s.receipts))
  {
    hide LogOf, PlaceOf, RAt, AllRegular, Complete;
    OpenedPlace(steps);
  }

  lemma OpeningCallBound(cfg: Config, steps: seq<Step>, a: nat)
    requires Read(cfg, steps) && steps[0].OpeningStep? && a < |steps[0].txn.reply.calls|
    ensures Bound(LogOf(steps), steps[0].txn.reply.calls[a], RAt(steps, 0), PlaceOf(LogOf(steps), MOpened))
  {
    hide StepsOk, Complete, AllRegular, LogOf, TxnsOf, Paired, ToolIdsOnce, QAt, RAt, PlaceOf, CallsRun, After,
         ResultsOf, Bound, StartsIn, EndsIn;
    AtLeastFive(steps);
    StepRuns(cfg, steps, 0);
    CallsCounted(cfg, steps[0]);
    CallPlaced(cfg, steps, 0, a);
    OpeningEnd(steps);
    CallBound(cfg, steps, 0, a, PlaceOf(LogOf(steps), MOpened));
  }

  lemma CallsCounted(cfg: Config, s: Step)
    requires CallsRun(cfg, s)
    ensures |CallsIn(s)| == |ResultsOf(s)| == |StartsIn(s)| == |EndsIn(s)|
  {}

  lemma OpeningPasses(cfg: Config, steps: seq<Step>)
    requires Read(cfg, steps)
    ensures OpeningBound(cfg, LogOf(steps), TxnsOf(LogOf(steps)))
  {
    hide StepsOk, Complete, AllRegular, LogOf, TxnsOf, Paired, ToolIdsOnce, QAt, RAt, PlaceOf, CallsRun, After, Bound,
         ToolRegistry.Valid, ReceiptOf, ReceiptIds, CallIds;
    AtLeastFive(steps);
    OpeningAt(cfg, steps);
    ReplyIs(cfg, steps, 0);
    OpeningEnd(steps);
    OpeningFunctionsDiffer(cfg, steps[0].txn.reply.calls);
    StepRuns(cfg, steps, 0);
    IdsOfResults(cfg, steps[0]);
    forall a | 0 <= a < |steps[0].txn.reply.calls|
      ensures Bound(LogOf(steps), steps[0].txn.reply.calls[a], RAt(steps, 0), PlaceOf(LogOf(steps), MOpened))
    {
      OpeningCallBound(cfg, steps, a);
    }
  }

  /* ---- The turns ---- */

  predicate Mark(e: Event) { e.NotesUpdated? || e.ActionTaken? || e.ArtifactWritten? }

  lemma TxnHasNoMark(t: Txn)
    ensures forall k :: 0 <= k < |TxnEvents(t)| ==> !Mark(TxnEvents(t)[k])
  {
    TxnAt(t);
    WindowIsRetries(t);
    hide Window;
    forall k | 2 <= k < 2 + |Window(t)| ensures RetryEvent(TxnEvents(t)[k]) {
      assert TxnEvents(t)[2..2 + |Window(t)|][k - 2] == TxnEvents(t)[k];
    }
  }

  lemma BeforeHasNoMark(s: Step)
    ensures forall k :: 0 <= k < |Before(s)| ==> !Mark(Before(s)[k])
  {}

  /** Marks stand only after a step's response. */
  lemma MarksAreAfter(s: Step, p: Event -> bool)
    requires forall e :: p(e) ==> Mark(e)
    ensures Where(EventsOf(s), p) == Shift(Where(After(s), p), |Before(s)| + |TxnEvents(s.txn)|)
  {
    hide Before, After, TxnEvents, Where, Mark;
    BeforeHasNoMark(s);
    TxnHasNoMark(s.txn);
    WhereNone(Before(s), p);
    WhereNone(TxnEvents(s.txn), p);
    WhereConcat(TxnEvents(s.txn), After(s), p);
    WhereConcat(Before(s), TxnEvents(s.txn) + After(s), p);
  }

  lemma TurnMarks(s: Step)
    requires Regular(s)
    ensures Where(After(s), IsNotes) == if s.TurnStep? then [0] else []
    ensures Where(After(s), IsAction) == if s.TurnStep? then [3] else []
  {
    hide Where, CLOSE;
    if s.TurnStep? {
      WhereOnce(After(s), IsNotes, 0);
      WhereOnce(After(s), IsAction, 3);
    } else {
      NoTurnMarks(s);
      WhereNone(After(s), IsNotes);
      WhereNone(After(s), IsAction);
    }
  }

  lemma NoTurnMarks(s: Step)
    requires Regular(s) && !s.TurnStep?
    ensures forall k :: 0 <= k < |After(s)| ==> !After(s)[k].NotesUpdated? && !After(s)[k].ActionTaken?
  {}

  /** One notes event and one action event a turn, where the turn wrote them. */
  lemma TurnMarksAt(steps: seq<Step>, i: nat)
    requires AllRegular(steps) && Complete(steps) && 1 <= i < |steps| - 4
    ensures |Where(LogOf(steps), IsNotes)| == |Where(LogOf(steps), IsAction)| == |steps| - 5
    ensures Where(LogOf(steps), IsNotes)[i - 1] == RAt(steps, i) + 1
    ensures Where(LogOf(steps), IsAction)[i - 1] == RAt(steps, i) + 4
  {
    hide AllRegular, Complete, Before, After, TxnEvents, Where, EventsOf, IsNotes, IsAction, LogOf, Window;
    LogIsParts(steps);
    StepMarks(steps, i);
    MarksOncePerTurn(steps);
    StepKind(steps, i);
    OnceEachAt(Parts(steps), IsNotes, 1, |steps| - 4, i);
    OnceEachAt(Parts(steps), IsAction, 1, |steps| - 4, i);
    TxnAt(steps[i].txn);
  }

  lemma StepMarks(steps: seq<Step>, i: nat)
    requires AllRegular(steps) && i < |steps|
    ensures var at := |Before(steps[i])| + |TxnEvents(steps[i].txn)|;
            && Where(EventsOf(steps[i]), IsNotes) == (if steps[i].TurnStep? then [at] else [])
            && Where(EventsOf(steps[i]), IsAction) == (if steps[i].TurnStep? then [at + 3] else [])
  {
    hide Before, After, TxnEvents, Where, EventsOf;
    TurnMarks(steps[i]);
    MarksAreAfter(steps[i], IsNotes);
    MarksAreAfter(steps[i], IsAction);
  }

  lemma MarksOncePerTurn(steps: seq<Step>)
    requires AllRegular(steps) && Complete(steps)
    ensures OnceEach(Parts(steps), IsNotes, 1, |steps| - 4) && OnceEach(Parts(steps), IsAction, 1, |steps| - 4)
  {
    hide AllRegular, Complete, Before, After, TxnEvents, Where, EventsOf, IsNotes, IsAction;
    AtLeastFive(steps);
    forall i | 0 <= i < |steps|
      ensures |Where(Parts(steps)[i], IsNotes)| == |Where(Parts(steps)[i], IsAction)| == if 1 <= i < |steps| - 4 then 1 else 0
    {
      StepMarks(steps, i);
      StepKind(steps, i);
    }
  }

  lemma TurnCounts(steps: seq<Step>)
    requires AllRegular(steps) && Complete(steps)
    ensures |Where(LogOf(steps), IsNotes)| == |Where(LogOf(steps), IsAction)| == |steps| - 5
  {
    hide AllRegular, Complete, Where, EventsOf, IsNotes, IsAction;
    AtLeastFive(steps);
    MarksOncePerTurn(steps);
    OnceEachCount(Parts(steps), IsNotes, 1, |steps| - 4, |steps|);
    OnceEachCount(Parts(steps), IsAction, 1, |steps| - 4, |steps|);
    assert Parts(steps)[..|steps|] == Parts(steps);
  }

  lemma TurnEvents(s: Step)
    requires s.TurnStep?
    ensures |After(s)| == 4
    ensures After(s)[0] == NotesUpdated(s.turn, s.update, |Encode(s.update)|, s.notes)
    ensures After(s)[3] == ActionTaken(s.turn, s.receipt.id, s.receipt.name, s.receipt.status)
    ensures CallsIn(s) == [FirstCall(s.txn)] && StartsIn(s) == [1] && EndsIn(s) == [2] && ResultsOf(s) == [s.receipt]
  {}

  lemma TurnCallFound(cfg: Config, steps: seq<Step>, i: nat)
    requires Read(cfg, steps) && i < |steps| && steps[i].TurnStep?
    ensures var log, c, r := LogOf(steps), FirstCall(steps[i].txn), RAt(steps, i);
            && c.id == steps[i].receipt.id && StartOf(log, c.id) == Some(r + 2) && EndOf(log, c.id) == Some(r + 3)
            && ReceiptFor(log, c.id) == Some(steps[i].receipt)
            && forall before: nat :: r + 3 < before ==> Bound(log, c, r, before)
  {
    hide StepsOk, Complete, AllRegular, LogOf, TxnsOf, Paired, ToolIdsOnce, QAt, RAt, CallsRun, After, Bound,
         StartsIn, EndsIn, CallsIn, ResultsOf, StartOf, EndOf, ReceiptFor;
    TurnEvents(steps[i]);
    StepRuns(cfg, steps, i);
    CallFound(cfg, steps, i, 0);
    ToolIdOf(cfg, steps[i], 0);
    forall before: nat | RAt(steps, i) + 3 < before ensures Bound(LogOf(steps), FirstCall(steps[i].txn), RAt(steps, i), before) {
      CallBound(cfg, steps, i, 0, before);
    }
  }

  /** The call of a turn, where it ran. */
  lemma TurnCall(cfg: Config, steps: seq<Step>, i: nat)
    requires Read(cfg, steps) && 1 <= i < |steps| - 4
    ensures steps[i].TurnStep? && RAt(steps, i) + 4 < QAt(steps, i + 1) < RAt(steps, i + 1) < |LogOf(steps)|
    ensures var log, c, r := LogOf(steps), FirstCall(steps[i].txn), RAt(steps, i);
            && Bound(log, c, r, RAt(steps, i + 1)) && c.id == steps[i].receipt.id
            && StartOf(log, c.id) == Some(r + 2) && EndOf(log, c.id) == Some(r + 3)
            && ReceiptFor(log, c.id) == Some(steps[i].receipt)
  {
    hide StepsOk, Complete, AllRegular, LogOf, TxnsOf, Paired, ToolIdsOnce, QAt, RAt, After, Bound, StartOf, EndOf,
         ReceiptFor, FirstCall, ResultsOf, TxnEvents, Window, InProgress, Before;
    StepKind(steps, i);
    TurnEvents(steps[i]);
    StepsInOrder(steps, i, i + 1);
    ReplyIs(cfg, steps, i + 1);
    TurnCallFound(cfg, steps, i);
  }

  lemma TurnPasses(cfg: Config, steps: seq<Step>, i: nat)
    requires Read(cfg, steps) && 1 <= i < |steps| - 4
    ensures TurnBound(cfg, LogOf(steps), TxnsOf(LogOf(steps)), i)
  {
    hide StepsOk, Complete, AllRegular, LogOf, TxnsOf, Paired, ToolIdsOnce, QAt, RAt, CallsRun, After, Bound, NotesAt,
         ToolRegistry.Valid, ReceiptOf, StartOf, EndOf, ReceiptFor, Where, InvestigateInput, UpdateOk, LedgerAt,
         FirstCall;
    TurnNotes(cfg, steps, i);
    LedgerIs(cfg, steps, i);
    NotesOfTurn(steps, i);
    ReplyIs(cfg, steps, i);
    ReplyIs(cfg, steps, i + 1);
    TurnMarksAt(steps, i);
    TurnEvents(steps[i]);
    AfterAt(steps, i, 0);
    AfterAt(steps, i, 3);
    TurnCall(cfg, steps, i);
  }

  lemma TurnsPass(cfg: Config, steps: seq<Step>)
    requires Read(cfg, steps)
    ensures TurnsBound(cfg, LogOf(steps), TxnsOf(LogOf(steps)))
  {
    hide StepsOk, Complete, AllRegular, LogOf, TxnsOf, Paired, ToolIdsOnce, TurnBound, Where, IsNotes, IsAction;
    AtLeastFive(steps);
    TurnCounts(steps);
    forall i | 1 <= i < |steps| - 4 ensures TurnBound(cfg, LogOf(steps), TxnsOf(LogOf(steps)), i) {
      TurnPasses(cfg, steps, i);
    }
  }

  lemma DonePasses(cfg: Config, steps: seq<Step>)
    requires Read(cfg, steps)
    ensures DoneBound(LogOf(steps), TxnsOf(LogOf(steps)))
  {
    hide StepsOk, Complete, AllRegular, LogOf, TxnsOf, Paired, ToolIdsOnce, QAt, RAt, PlaceOf, InvestigateInput;
    AtLeastFive(steps);
    var n := |steps| - 4;
    StepKind(steps, n);
    TerminalAt(cfg, steps, n);
    ReplyIs(cfg, steps, n);
    ReplyIs(cfg, steps, n + 1);
    ClosingPlaces(steps);
    ClosingOrder(steps);
    QBeforeR(steps, n + 1);
    AfterAt(steps, n, 0);
  }

  /* ---- Call ids ---- */

  predicate DistinctIds(receipts: seq<Receipt>) {
    forall a, b :: 0 <= a < b < |receipts| ==> receipts[a].id != receipts[b].id
  }

  predicate SameReceipts(a: seq<Receipt>, b: seq<Receipt>) {
    && (forall r :: r in a ==> r in b) && (forall r :: r in b ==> r in a)
  }

  lemma ResultsAreDistinct(cfg: Config, s: Step)
    requires CallsRun(cfg, s)
    ensures DistinctIds(ResultsOf(s))
  {
    hide After, CallsIn, StartsIn, EndsIn, ResultsOf, Receipts, ToolRegistry.Valid;
  }

  lemma ResultsAreNew(cfg: Config, steps: seq<Step>, i: nat)
    requires StepsOk(cfg, steps) && Complete(steps) && i < |steps|
    ensures forall r :: r in ResultsOf(steps[i]) ==> r.id !in ReceiptIds(Receipts(LogOf(steps[..i])))
  {
    hide StepsOk, Complete, LogOf, InvestigateInput, UpdateOk, ToolRegistry.Valid;
    StepKind(steps, i);
    if i == 0 {
      assert steps[..0] == [];
      NothingReceived(steps);
    } else if steps[i].TurnStep? {
      TurnAt(cfg, steps, i);
    }
  }

  lemma NothingReceived(steps: seq<Step>)
    ensures Receipts(LogOf(steps[..0])) == [] && ReceiptIds(Receipts(LogOf(steps[..0]))) == []
  {}

  lemma DistinctJoin(a: seq<Receipt>, b: seq<Receipt>)
    requires DistinctIds(a) && DistinctIds(b) && forall r :: r in b ==> r.id !in ReceiptIds(a)
    ensures DistinctIds(a + b)
  {
    var c := a + b;
    forall i, j | 0 <= i < j < |c| ensures c[i].id != c[j].id {
      if i < |a| <= j {
        assert c[j] in b && ReceiptIds(a)[i] == c[i].id;
      }
    }
  }

  lemma SameReceiptIds(a: seq<Receipt>, b: seq<Receipt>, id: Text)
    requires SameReceipts(a, b) && id in ReceiptIds(a)
    ensures id in ReceiptIds(b)
  {
    var k :| 0 <= k < |a| && ReceiptIds(a)[k] == id;
    assert a[k] in b;
    IdListed(b, a[k]);
  }

  /** The controller remembers the receipts the log records, each under its own id. */
  lemma {:induction false} RememberedAreReceipts(cfg: Config, steps: seq<Step>, n: nat)
    requires StepsOk(cfg, steps) && Complete(steps) && n <= |steps|
    ensures DistinctIds(Remembered(steps[..n])) && SameReceipts(Remembered(steps[..n]), Receipts(LogOf(steps[..n])))
    decreases n
  {
    hide StepsOk, Complete, LogOf, Remembered, Receipts, DistinctIds, ResultsOf, After, CallsRun, ReceiptIds;
    if n == 0 {
      NothingRemembered(steps);
      NothingReceived(steps);
      NoIds();
    } else {
      var m := n - 1;
      RememberedAreReceipts(cfg, steps, m);
      RememberedMore(steps, m);
      ReceiptsGrow(cfg, steps, m);
      StepRuns(cfg, steps, m);
      ResultsAreDistinct(cfg, steps[m]);
      ResultsAreNew(cfg, steps, m);
      forall r | r in ResultsOf(steps[m]) ensures r.id !in ReceiptIds(Remembered(steps[..m])) {
        if r.id in ReceiptIds(Remembered(steps[..m])) {
          SameReceiptIds(Remembered(steps[..m]), Receipts(LogOf(steps[..m])), r.id);
        }
      }
      DistinctJoin(Remembered(steps[..m]), ResultsOf(steps[m]));
      SameResults(cfg, steps[m]);
    }
  }

  lemma NoIds()
    ensures DistinctIds([])
  {}

  lemma SameResults(cfg: Config, s: Step)
    requires CallsRun(cfg, s)
    ensures SameReceipts(ResultsOf(s), Receipts(After(s)))
  {
    hide After, CallsIn, StartsIn, EndsIn, ResultsOf, Receipts, ToolRegistry.Valid, ReceiptOf;
  }

  lemma IdsDiffer(receipts: seq<Receipt>)
    requires DistinctIds(receipts)
    ensures forall i, j :: 0 <= i < j < |ReceiptIds(receipts)| ==> ReceiptIds(receipts)[i] != ReceiptIds(receipts)[j]
  {}

  lemma IdsPass(cfg: Config, steps: seq<Step>)
    requires Read(cfg, steps)
    ensures IdsBound(LogOf(steps), TxnsOf(LogOf(steps)))
  {
    hide StepsOk, Complete, AllRegular, LogOf, TxnsOf, Paired, ToolIdsOnce, Remembered, Receipts, DistinctIds,
         ReceiptIds, ForensicIds, SameReceipts;
    AtLeastFive(steps);
    var n := |steps| - 4;
    RememberedAtEnd(steps);
    ForensicIdsAre(cfg, steps, n);
    RememberedAreReceipts(cfg, steps, |steps|);
    assert steps[..|steps|] == steps;
    IdsDiffer(Remembered(steps));
    var mine, logged := Remembered(steps), Receipts(LogOf(steps));
    forall id | id in ReceiptIds(mine) ensures id in ReceiptIds(logged) { SameReceiptIds(mine, logged, id); }
    SameIsSymmetric(mine, logged);
    forall id | id in ReceiptIds(logged) ensures id in ReceiptIds(mine) { SameReceiptIds(logged, mine, id); }
    TerminalIdIsNew(cfg, steps);
  }

  lemma SameIsSymmetric(a: seq<Receipt>, b: seq<Receipt>)
    requires SameReceipts(a, b)
    ensures SameReceipts(b, a)
  {}

  lemma TerminalIdIsNew(cfg: Config, steps: seq<Step>)
    requires Read(cfg, steps)
    ensures var n := |steps| - 4; CallAt(LogOf(steps), TxnsOf(LogOf(steps)), n).id !in ReceiptIds(Remembered(steps))
  {
    hide StepsOk, Complete, AllRegular, LogOf, TxnsOf, Paired, ToolIdsOnce, Remembered, Receipts, DistinctIds,
         ReceiptIds, InvestigateInput, SameReceipts, FirstCall;
    AtLeastFive(steps);
    var n := |steps| - 4;
    StepKind(steps, n);
    TerminalAt(cfg, steps, n);
    ReplyIs(cfg, steps, n);
    RememberedAtEnd(steps);
    RememberedAreReceipts(cfg, steps, n);
    var id := FirstCall(steps[n].txn).id;
    if id in ReceiptIds(Remembered(steps[..n])) {
      SameReceiptIds(Remembered(steps[..n]), Receipts(LogOf(steps[..n])), id);
    }
  }

  /* ---- The closing phases ---- */

  /** The run's own parsers and the reader's checks agree on what this run concluded. */
  predicate Cites(cfg: Config, steps: seq<Step>)
    requires Complete(steps)
  {
    var concluding, judging := steps[|steps| - 3], steps[|steps| - 2];
    CitesWith(cfg, FactsOf(SourcesOf(cfg, Receipts(LogOf(steps)))), concluding, judging)
  }

  predicate CitesWith(cfg: Config, facts: Facts, concluding: Step, judging: Step)
    requires concluding.FinalizeStep? && judging.JudgeStep?
  {
    && (FirstCall(concluding.txn).action.SubmitInvestigation? ==>
          AllSerialized(cfg, FirstCall(concluding.txn).action.raw, concluding.investigation))
    && (FirstCall(judging.txn).action.SubmitJudgment? ==>
          BindsJudgment(cfg, concluding.investigation.findings, FirstCall(judging.txn).action.raws, judging.verdicts))
    && Cited(cfg, facts, concluding.investigation.findings, judging.verdicts)
  }

  lemma FinalizerPasses(cfg: Config, steps: seq<Step>)
    requires Read(cfg, steps) && Cites(cfg, steps)
    ensures FinalizerBound(cfg, LogOf(steps), TxnsOf(LogOf(steps)))
  {
    hide StepsOk, AllRegular, LogOf, TxnsOf, Paired, ToolIdsOnce, QAt, RAt, PlaceOf, InProgress, Receipts, SourcesOf,
         NotesAt, JoinedAt, IndexOf, Views, Remembered, FirstCall, TxnOk, EntryOf, IsRequest, Cited, AllSerialized,
         BindsJudgment, Conclusion;
    var n := |steps| - 4;
    ClosingAt(cfg, steps, n + 1);
    ReplyIs(cfg, steps, n + 1);
    ClosingPlaces(steps);
    AfterAt(steps, n + 1, 0);
    JoinedIs(cfg, steps, n - 1);
    RememberedAtEnd(steps);
  }

  lemma JudgmentPasses(cfg: Config, steps: seq<Step>)
    requires Read(cfg, steps) && Cites(cfg, steps)
    ensures JudgmentBound(cfg, LogOf(steps), TxnsOf(LogOf(steps)))
  {
    hide StepsOk, AllRegular, LogOf, TxnsOf, Paired, ToolIdsOnce, QAt, RAt, PlaceOf, InProgress, Receipts, SourcesOf,
         IndexOf, Concluded, FirstCall, Cited, AllSerialized, BindsJudgment, Decision, ResultsOf, TxnEvents, NotesAt,
         Remembered;
    var n := |steps| - 4;
    ClosingAt(cfg, steps, n + 2);
    ReplyIs(cfg, steps, n + 2);
    ClosingPlaces(steps);
    AfterAt(steps, n + 2, 0);
    ConclusionIs(cfg, steps);
  }

  /** The report of what these two steps concluded and judged. */
  predicate Follows(cfg: Config, before: seq<Step>, concluding: Step, judging: Step, s: Step) {
    && concluding.FinalizeStep? && judging.JudgeStep? && s.ReportStep?
    && Reports(cfg, concluding.investigation, judging.verdicts, s) && ReportOk(cfg, before, s)
  }

  lemma ReportFacts(cfg: Config, steps: seq<Step>)
    requires Read(cfg, steps)
    ensures |steps| >= 5
    ensures Follows(cfg, steps[..|steps| - 1], steps[|steps| - 3], steps[|steps| - 2], steps[|steps| - 1])
  {
    hide StepsOk, Complete, AllRegular, LogOf, TxnsOf, Paired, ToolIdsOnce, Accounting, ElapsedAt, Reports;
    AtLeastFive(steps);
    var n := |steps| - 4;
    StepKind(steps, n + 1);
    StepKind(steps, n + 2);
    StepKind(steps, n + 3);
    ClosingAt(cfg, steps, n + 3);
    assert steps[..n + 3][n + 2] == steps[n + 2] && steps[..n + 3][n + 1] == steps[n + 1];
  }

  lemma ReportPasses(cfg: Config, steps: seq<Step>)
    requires Read(cfg, steps)
    ensures ReportBound(cfg, LogOf(steps), TxnsOf(LogOf(steps)))
  {
    hide StepsOk, Complete, AllRegular, LogOf, TxnsOf, Paired, ToolIdsOnce, QAt, RAt, PlaceOf, Receipts, CLOSE,
         Concluded, Judgments, FirstCall, DraftOk, ReportOk;
    AtLeastFive(steps);
    var n := |steps| - 4;
    ReportFacts(cfg, steps);
    ReplyIs(cfg, steps, n + 3);
    ClosingPlaces(steps);
    AfterAt(steps, n + 3, 0);
    ConclusionIs(cfg, steps);
  }

  lemma ControllerPasses(cfg: Config, steps: seq<Step>)
    requires Read(cfg, steps) && Cites(cfg, steps)
    ensures ControllerOk(cfg, LogOf(steps), TxnsOf(LogOf(steps)))
  {
    hide StepsOk, Complete, AllRegular, LogOf, TxnsOf, Paired, ToolIdsOnce, OpeningBound, TurnsBound, DoneBound,
         IdsBound, FinalizerBound, JudgmentBound, ReportBound, Cites;
    OpeningPasses(cfg, steps);
    TurnsPass(cfg, steps);
    DonePasses(cfg, steps);
    IdsPass(cfg, steps);
    FinalizerPasses(cfg, steps);
    JudgmentPasses(cfg, steps);
    ReportPasses(cfg, steps);
  }
}
