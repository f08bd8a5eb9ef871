/** The log before a request determines the packet it carries: the reader rebuilds from the
    events exactly what the controller sent. */
module PacketAgreement {
  import opened Wrappers
  import opened Utf8
  import opened Caps
  import opened Events
  import opened Occurrences
  import opened Transactions
  import opened ModelClient
  import opened ToolRegistry
  import opened Script
  import opened StepFacts
  import opened Lifecycle
  import opened Layout
  import opened MilestoneFacts
  import opened Agreement
  import opened ToolAgreement

  /** A complete script whose log the reader has paired up. */
  predicate Read(cfg: Config, steps: seq<Step>) {
    && StepsOk(cfg, steps) && Complete(steps) && AllRegular(steps)
    && Paired(LogOf(steps), TxnsOf(LogOf(steps))) && |TxnsOf(LogOf(steps)).r| == |steps|
    && ToolIdsOnce(LogOf(steps))
  }

  lemma ScriptIsRead(cfg: Config, steps: seq<Step>)
    requires StepsOk(cfg, steps) && Complete(steps)
    ensures Read(cfg, steps)
  {
    hide StepsOk, Complete, AllRegular, LogOf, TxnsOf, Paired, ToolIdsOnce;
    ScriptIsPaired(cfg, steps);
    ScriptToolsOnce(cfg, steps);
  }

  lemma ReplyIs(cfg: Config, steps: seq<Step>, i: nat)
    requires Read(cfg, steps) && i < |steps|
    ensures var log, t := LogOf(steps), TxnsOf(LogOf(steps));
            && t.q[i] == QAt(steps, i) < |log| && t.r[i] == RAt(steps, i) < |log|
            && log[t.q[i]] == RequestEvent(steps[i].txn)
            && ReplyAt(log, t, i) == steps[i].txn.reply && CallAt(log, t, i) == FirstCall(steps[i].txn)
  {
    hide StepsOk, Complete, AllRegular, LogOf, TxnsOf, Paired, ToolIdsOnce, QAt, RAt, Window;
    PairAt(cfg, steps, i);
  }

  /** What the log before request `i` records is what the steps before it did. */
  lemma LogBefore(steps: seq<Step>, i: nat)
    requires i < |steps|
    ensures QAt(steps, i) <= |LogOf(steps)|
    ensures Receipts(LogOf(steps)[..QAt(steps, i)]) == Receipts(LogOf(steps[..i]))
    ensures Accounting(LogOf(steps)[..QAt(steps, i)]) == Accounting(LogOf(steps[..i]))
  {
    hide LogOf, Before, QAt, Receipts, Account;
    StepAt(steps, i);
    BeforeIsQuiet(steps[i]);
    var m := Accounting(LogOf(steps[..i]));
    AccountQuiet(m, Before(steps[i]));
    AccountConcat(FRESH, LogOf(steps[..i]), Before(steps[i]));
    ReceiptsConcat(LogOf(steps[..i]), Before(steps[i]));
  }

  /* ---- The ledger ---- */

  lemma TurnNotes(cfg: Config, steps: seq<Step>, i: nat)
    requires Read(cfg, steps) && 0 < i < |steps| - 4
    ensures steps[i].TurnStep? && TurnOk(cfg, steps[..i], steps[i])
    ensures steps[i].update == UpdateAt(cfg, LogOf(steps), TxnsOf(LogOf(steps)), i)
  {
    hide StepsOk, Complete, AllRegular, LogOf, TxnsOf, Paired, ToolIdsOnce, QAt, RAt, InvestigateInput, UpdateOk,
         ToolRegistry.Valid, ReceiptOf;
    StepKind(steps, i);
    TurnAt(cfg, steps, i);
    ReplyIs(cfg, steps, i);
  }

  lemma NotesOfTurn(steps: seq<Step>, i: nat)
    requires i < |steps|
    ensures steps[i].TurnStep? ==> NotesAt(steps[..i + 1]) == steps[i].notes
    ensures steps[i].TerminalStep? ==> NotesAt(steps[..i + 1]) == NotesAt(steps[..i])
    ensures steps[i].OpeningStep? ==> NotesAt(steps[..i + 1]) == []
  {
    assert steps[..i + 1][..i] == steps[..i];
  }

  /** The running notes are the ledger the reader accumulates. */
  lemma {:induction false} LedgerIs(cfg: Config, steps: seq<Step>, n: nat)
    requires Read(cfg, steps) && n + 4 < |steps|
    ensures LedgerAt(cfg, LogOf(steps), TxnsOf(LogOf(steps)), n) == NotesAt(steps[..n + 1])
    decreases n
  {
    hide StepsOk, Complete, AllRegular, LogOf, TxnsOf, Paired, ToolIdsOnce, NotesAt, AppendNotes, InvestigateInput,
         UpdateOk, ToolRegistry.Valid, ReceiptOf;
    StepKind(steps, n);
    NotesOfTurn(steps, n);
    if n > 0 {
      LedgerIs(cfg, steps, n - 1);
      TurnNotes(cfg, steps, n);
    }
  }

  /** The running notes are also the updates joined, since no update is blank. */
  lemma JoinedIs(cfg: Config, steps: seq<Step>, n: nat)
    requires Read(cfg, steps) && n + 4 < |steps|
    ensures JoinedAt(cfg, LogOf(steps), TxnsOf(LogOf(steps)), n) == NotesAt(steps[..n + 1])
  {
    hide StepsOk, Complete, AllRegular, LogOf, TxnsOf, Paired, ToolIdsOnce, NotesAt, AppendNotes, InvestigateInput,
         ToolRegistry.Valid, ReceiptOf, JoinedAt, LedgerAt;
    LedgerIs(cfg, steps, n);
    LedgersAgreeExactly(cfg, LogOf(steps), TxnsOf(LogOf(steps)), n);
    if n > 1 { TurnNotes(cfg, steps, 1); }
  }

  /* ---- Call ids and retained results ---- */

  lemma RememberedMore(steps: seq<Step>, n: nat)
    requires n < |steps|
    ensures Remembered(steps[..n + 1]) == Remembered(steps[..n]) + ResultsOf(steps[n])
  {
    assert steps[..n + 1][..n] == steps[..n];
  }

  lemma ReceiptIdsConcat(a: seq<Receipt>, b: seq<Receipt>)
    ensures ReceiptIds(a + b) == ReceiptIds(a) + ReceiptIds(b)
  {}

  lemma IdsOfResults(cfg: Config, s: Step)
    requires CallsRun(cfg, s)
    ensures ReceiptIds(ResultsOf(s)) == CallIds(CallsIn(s))
  {
    hide After, CallsIn, StartsIn, EndsIn, ResultsOf, Receipts, ToolRegistry.Valid;
  }

  /** The ids of the calls of step `i`, as the reader takes them from its response. */
  lemma IdsOfStep(cfg: Config, steps: seq<Step>, i: nat)
    requires Read(cfg, steps) && i < |steps| - 4
    ensures i == 0 ==> CallIds(ReplyAt(LogOf(steps), TxnsOf(LogOf(steps)), 0).calls) == ReceiptIds(ResultsOf(steps[0]))
    ensures i > 0 ==> [CallAt(LogOf(steps), TxnsOf(LogOf(steps)), i).id] == ReceiptIds(ResultsOf(steps[i]))
    ensures i > 0 ==> |ResultsOf(steps[i])| == 1
  {
    hide StepsOk, Complete, AllRegular, LogOf, TxnsOf, Paired, ToolIdsOnce, QAt, RAt, ResultsOf, CallsRun, FirstCall;
    StepKind(steps, i);
    ReplyIs(cfg, steps, i);
    StepRuns(cfg, steps, i);
    IdsOfResults(cfg, steps[i]);
  }

  lemma {:induction false} ForensicIdsAre(cfg: Config, steps: seq<Step>, n: nat)
    requires Read(cfg, steps) && 1 <= n <= |steps| - 4
    ensures ForensicIds(LogOf(steps), TxnsOf(LogOf(steps)), n) == ReceiptIds(Remembered(steps[..n]))
    decreases n
  {
    hide StepsOk, Complete, AllRegular, LogOf, TxnsOf, Paired, ToolIdsOnce, Remembered, ReceiptIds, CallIds,
         ResultsOf;
    IdsOfStep(cfg, steps, n - 1);
    RememberedMore(steps, n - 1);
    ReceiptIdsConcat(Remembered(steps[..n - 1]), ResultsOf(steps[n - 1]));
    if n == 1 {
      NothingRemembered(steps);
    } else {
      ForensicIdsAre(cfg, steps, n - 1);
    }
  }

  lemma NothingRemembered(steps: seq<Step>)
    ensures Remembered(steps[..0]) == [] && ReceiptIds(Remembered(steps[..0])) == []
  {}

  lemma ResultFound(cfg: Config, steps: seq<Step>, i: nat, r: Receipt)
    requires Read(cfg, steps) && i < |steps| && r in ResultsOf(steps[i])
    ensures ReceiptFor(LogOf(steps), r.id) == Some(r)
  {
    hide StepsOk, Complete, AllRegular, LogOf, TxnsOf, Paired, ToolIdsOnce, ResultsOf, CallsIn, StartsIn, EndsIn,
         After, Receipts, ToolRegistry.Valid, ReceiptOf, ReceiptFor, StartOf, EndOf;
    StepRuns(cfg, steps, i);
    var a :| 0 <= a < |ResultsOf(steps[i])| && ResultsOf(steps[i])[a] == r;
    CallFound(cfg, steps, i, a);
    ToolIdOf(cfg, steps[i], a);
  }

  lemma {:induction false} RememberedFound(cfg: Config, steps: seq<Step>, n: nat, r: Receipt)
    requires Read(cfg, steps) && n <= |steps| && r in Remembered(steps[..n])
    ensures ReceiptFor(LogOf(steps), r.id) == Some(r)
    decreases n
  {
    hide Read, ResultsOf, ReceiptFor, LogOf, Remembered;
    if n == 0 {
      NothingRemembered(steps);
    } else {
      RememberedMore(steps, n - 1);
      if r in ResultsOf(steps[n - 1]) {
        ResultFound(cfg, steps, n - 1, r);
      } else {
        RememberedFound(cfg, steps, n - 1, r);
      }
    }
  }

  lemma ViewsAre(cfg: Config, log: Log, receipts: seq<Receipt>, quotable: bool)
    requires forall r :: r in receipts ==> ReceiptFor(log, r.id) == Some(r)
    ensures ViewsFor(cfg, log, ReceiptIds(receipts), quotable) == Views(cfg, receipts, quotable)
  {
    hide ReceiptFor;
    forall k | 0 <= k < |receipts|
      ensures ViewFor(cfg, log, ReceiptIds(receipts)[k], quotable) == ViewOf(cfg, receipts[k], quotable)
    {
      assert receipts[k] in receipts;
    }
  }

  /* ---- The packets ---- */

  /** The elapsed time a later snapshot must not precede. */
  lemma ElapsedIs(cfg: Config, steps: seq<Step>, i: nat)
    requires Read(cfg, steps) && 0 < i <= |steps| - 3
    ensures ElapsedAt(steps[..i]) == PacketBudget(LogOf(steps), TxnsOf(LogOf(steps)), i - 1).elapsed
  {
    hide StepsOk, Complete, AllRegular, LogOf, TxnsOf, Paired, ToolIdsOnce, QAt, RAt, PlaceOf;
    StepKind(steps, i - 1);
    ReplyIs(cfg, steps, i - 1);
    if i == 1 {
      StartedPlace(steps);
    } else {
      AsksInvestigate(cfg, steps, i - 1);
    }
  }

  lemma AsksInvestigate(cfg: Config, steps: seq<Step>, i: nat)
    requires Read(cfg, steps) && 0 < i <= |steps| - 4
    ensures InvestigateInput(cfg, steps[..i], steps[i].txn) && steps[i].txn.packet.InvestigatePacket?
  {
    hide StepsOk, Complete, AllRegular, LogOf, TxnsOf, Paired, ToolIdsOnce, Accounting, Receipts, ToolRegistry.Valid,
         ReceiptOf, UpdateOk, NotesAt, ElapsedAt, Latest;
    StepKind(steps, i);
    if i < |steps| - 4 { TurnAt(cfg, steps, i); } else { TerminalAt(cfg, steps, i); }
  }

  lemma LatestAre(cfg: Config, steps: seq<Step>, i: nat)
    requires Read(cfg, steps) && 0 < i <= |steps| - 4
    ensures ReceiptIds(Latest(steps[..i])) == LatestIds(LogOf(steps), TxnsOf(LogOf(steps)), i)
    ensures ViewsFor(cfg, LogOf(steps), LatestIds(LogOf(steps), TxnsOf(LogOf(steps)), i), false)
         == Views(cfg, Latest(steps[..i]), false)
  {
    hide StepsOk, Complete, AllRegular, LogOf, TxnsOf, Paired, ToolIdsOnce, ResultsOf, ReceiptFor, ReceiptIds,
         CallIds, ViewsFor, Views, CallAt;
    IdsOfStep(cfg, steps, i - 1);
    forall r | r in ResultsOf(steps[i - 1]) ensures ReceiptFor(LogOf(steps), r.id) == Some(r) {
      ResultFound(cfg, steps, i - 1, r);
    }
    ViewsAre(cfg, LogOf(steps), ResultsOf(steps[i - 1]), false);
  }

  /** The prefix determines the packet: every investigate request of the run is the one the
      reader rebuilds. */
  lemma InvestigateInputPasses(cfg: Config, steps: seq<Step>, i: nat)
    requires Read(cfg, steps) && 1 <= i <= |steps| - 4
    ensures InvestigateInputOk(cfg, LogOf(steps), TxnsOf(LogOf(steps)), i)
  {
    hide StepsOk, Complete, AllRegular, LogOf, TxnsOf, Paired, ToolIdsOnce, QAt, RAt, Accounting, Receipts, NotesAt,
         ElapsedAt, Latest, JoinedAt, LatestIds, ViewsFor, Views, PacketBudget, IndexOf, ReceiptIds;
    AsksInvestigate(cfg, steps, i);
    ReplyIs(cfg, steps, i);
    JoinedIs(cfg, steps, i - 1);
    LogBefore(steps, i);
    LatestAre(cfg, steps, i);
    ElapsedIs(cfg, steps, i);
  }

  lemma RememberedViews(cfg: Config, steps: seq<Step>, n: nat)
    requires Read(cfg, steps) && n <= |steps|
    ensures ViewsFor(cfg, LogOf(steps), ReceiptIds(Remembered(steps[..n])), true) == Views(cfg, Remembered(steps[..n]), true)
  {
    hide Read, LogOf, Remembered, ReceiptFor, ReceiptIds, ViewsFor, Views;
    forall r | r in Remembered(steps[..n]) ensures ReceiptFor(LogOf(steps), r.id) == Some(r) {
      RememberedFound(cfg, steps, n, r);
    }
    ViewsAre(cfg, LogOf(steps), Remembered(steps[..n]), true);
  }

  /** Nothing is retained after the last turn. */
  lemma RememberedAtEnd(steps: seq<Step>)
    requires Complete(steps)
    ensures var n := |steps| - 4;
            && Remembered(steps[..n + 1]) == Remembered(steps[..n]) && Remembered(steps) == Remembered(steps[..n])
            && NotesAt(steps[..n + 1]) == NotesAt(steps[..n])
  {
    hide Remembered;
    var n := |steps| - 4;
    RememberedMore(steps, n);
    RememberedMore(steps, n + 1);
    RememberedMore(steps, n + 2);
    RememberedMore(steps, n + 3);
    assert steps[..n + 4] == steps;
    NotesOfTurn(steps, n);
  }

  lemma FinalizeInputPasses(cfg: Config, steps: seq<Step>)
    requires Read(cfg, steps)
    ensures FinalizeInput(cfg, LogOf(steps), TxnsOf(LogOf(steps)))
  {
    hide StepsOk, Complete, AllRegular, LogOf, TxnsOf, Paired, ToolIdsOnce, QAt, RAt, Accounting, Receipts, NotesAt,
         JoinedAt, ForensicIds, ViewsFor, Views, IndexOf, ReceiptIds, Remembered, Concludes;
    AtLeastFive(steps);
    var n := |steps| - 4;
    StepKind(steps, n + 1);
    ClosingAt(cfg, steps, n + 1);
    ReplyIs(cfg, steps, n + 1);
    JoinedIs(cfg, steps, n - 1);
    RememberedAtEnd(steps);
    LogBefore(steps, n + 1);
    ForensicIdsAre(cfg, steps, n);
    RememberedViews(cfg, steps, n);
  }

  lemma OpeningInputPasses(cfg: Config, steps: seq<Step>)
    requires Read(cfg, steps)
    ensures OpeningInput(cfg, LogOf(steps), TxnsOf(LogOf(steps)))
  {
    hide StepsOk, Complete, AllRegular, LogOf, TxnsOf, Paired, ToolIdsOnce, QAt, RAt, Interleaved, ToolRegistry.Valid;
    AtLeastFive(steps);
    OpeningAt(cfg, steps);
    ReplyIs(cfg, steps, 0);
  }

  /** The log records what these steps concluded and judged. */
  predicate Records(log: Log, concluding: Step, judging: Step, reporting: Step) {
    && concluding.FinalizeStep? && judging.JudgeStep? && reporting.ReportStep?
    && Concluded(log) == concluding.investigation && Judgments(log) == judging.verdicts
  }

  /** What the run concluded and judged is what the reader finds recorded. */
  lemma ConclusionIs(cfg: Config, steps: seq<Step>)
    requires Read(cfg, steps)
    ensures |steps| >= 5 && Records(LogOf(steps), steps[|steps| - 3], steps[|steps| - 2], steps[|steps| - 1])
  {
    hide StepsOk, AllRegular, LogOf, TxnsOf, Paired, ToolIdsOnce, QAt, RAt, PlaceOf, InProgress;
    var n := |steps| - 4;
    ClosingPlaces(steps);
    AfterAt(steps, n + 1, 0);
    AfterAt(steps, n + 2, 0);
  }

  lemma JudgeInputPasses(cfg: Config, steps: seq<Step>)
    requires Read(cfg, steps)
    ensures JudgeInput(cfg, LogOf(steps), TxnsOf(LogOf(steps)))
  {
    hide StepsOk, Complete, AllRegular, LogOf, TxnsOf, Paired, ToolIdsOnce, QAt, RAt, Receipts, IndexOf, Concluded,
         Judgments;
    AtLeastFive(steps);
    var n := |steps| - 4;
    ConclusionIs(cfg, steps);
    ClosingAt(cfg, steps, n + 2);
    ReplyIs(cfg, steps, n + 2);
    LogBefore(steps, n + 2);
    assert steps[..n + 2][n + 1] == steps[n + 1];
  }

  lemma ReportInputPasses(cfg: Config, steps: seq<Step>)
    requires Read(cfg, steps)
    ensures ReportInput(cfg, LogOf(steps), TxnsOf(LogOf(steps)))
  {
    hide StepsOk, Complete, AllRegular, LogOf, TxnsOf, Paired, ToolIdsOnce, QAt, RAt, Accounting, Concluded,
         Judgments, DraftOk, ElapsedAt;
    AtLeastFive(steps);
    var n := |steps| - 4;
    ConclusionIs(cfg, steps);
    ClosingAt(cfg, steps, n + 3);
    ReplyIs(cfg, steps, n + 3);
    assert steps[..n + 3][n + 2] == steps[n + 2] && steps[..n + 3][n + 1] == steps[n + 1];
  }

  lemma InputsPass(cfg: Config, steps: seq<Step>)
    requires Read(cfg, steps)
    ensures InputsOk(cfg, LogOf(steps), TxnsOf(LogOf(steps)))
  {
    hide StepsOk, Complete, AllRegular, LogOf, TxnsOf, Paired, ToolIdsOnce, OpeningInput, FinalizeInput, JudgeInput,
         ReportInput, InvestigateInputOk;
    OpeningInputPasses(cfg, steps);
    FinalizeInputPasses(cfg, steps);
    JudgeInputPasses(cfg, steps);
    ReportInputPasses(cfg, steps);
    AtLeastFive(steps);
    forall i | 1 <= i <= |steps| - 4 ensures InvestigateInputOk(cfg, LogOf(steps), TxnsOf(LogOf(steps)), i) {
      InvestigateInputPasses(cfg, steps, i);
    }
  }
}
