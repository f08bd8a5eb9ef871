/** Every tool call of a complete script is started once and completed once, inside its own
    step, and the reader finds it there. */
module ToolAgreement {
  import opened Wrappers
  import opened Utf8
  import opened CanonicalJson
  import opened Caps
  import opened Events
  import opened Occurrences
  import opened Transactions
  import opened ModelClient
  import opened ToolRegistry
  import opened Script
  import opened StepFacts
  import opened Lifecycle
  import opened ReaderFacts
  import opened Layout
  import opened Agreement

  predicate IsTool(e: Event) { e.ToolStarted? || e.ToolCompleted? }

  /* ---- The tool events of one step ---- */

  /** The calls a step carries out, and where in what follows its response each is started
      and completed. */
  function CallsIn(s: Step): seq<Call> {
    if s.OpeningStep? then s.txn.reply.calls else if s.TurnStep? then [FirstCall(s.txn)] else []
  }

  function StartsIn(s: Step): seq<nat> {
    if s.OpeningStep? then s.starts else if s.TurnStep? then [1] else []
  }

  function EndsIn(s: Step): seq<nat> {
    if s.OpeningStep? then s.ends else if s.TurnStep? then [2] else []
  }

  /** What the controller guarantees of a step's calls. */
  predicate CallsRun(cfg: Config, s: Step) {
    && |CallsIn(s)| == |ResultsOf(s)| == |StartsIn(s)| == |EndsIn(s)|
    && (forall a :: 0 <= a < |CallsIn(s)| ==>
          && ToolRegistry.Valid(cfg, CallsIn(s)[a]) && ReceiptOf(CallsIn(s)[a], ResultsOf(s)[a])
          && StartsIn(s)[a] < EndsIn(s)[a] < |After(s)|
          && After(s)[StartsIn(s)[a]] == StartEvent(CallsIn(s)[a])
          && After(s)[EndsIn(s)[a]] == ToolCompleted(ResultsOf(s)[a]))
    && (forall k :: 0 <= k < |After(s)| && IsTool(After(s)[k]) ==> k in StartsIn(s) || k in EndsIn(s))
    && (forall a, b :: 0 <= a < b < |CallsIn(s)| ==> CallsIn(s)[a].id != CallsIn(s)[b].id)
    && (forall r :: r in Receipts(After(s)) ==> r in ResultsOf(s))
    && (forall r :: r in ResultsOf(s) ==> r in Receipts(After(s)))
  }

  lemma OpeningCallsRun(cfg: Config, s: Step, m: Meter)
    requires s.OpeningStep? && OpeningOk(cfg, s) && TxnOk(cfg, m, s.txn)
    ensures CallsRun(cfg, s)
  {
    hide OptionsOk, AttemptsOk, ToolRegistry.Valid, ReceiptOf, Account;
    InterleavedTools(FRESH, s.txn.reply.calls, s.receipts, s.tools, s.starts, s.ends);
    var done := After(s)[|s.tools|..];
    assert After(s) == s.tools + done;
    ReceiptsConcat(s.tools, done);
    assert |done| == 1 && !IsTool(done[0]);
    AccountQuiet(FRESH, done);
    forall k | 0 <= k < |After(s)| && IsTool(After(s)[k]) ensures k in s.starts || k in s.ends {
      assert k < |s.tools|;
    }
  }

  lemma TurnCallsRun(cfg: Config, before: seq<Step>, s: Step)
    requires s.TurnStep? && TurnOk(cfg, before, s)
    ensures CallsRun(cfg, s)
  {
    hide InvestigateInput, LogOf, Account, UpdateOk, ToolRegistry.Valid;
    TurnAfter(FRESH, s);
  }

  lemma OtherCallsRun(cfg: Config, s: Step)
    requires !s.OpeningStep? && !s.TurnStep?
    ensures CallsRun(cfg, s)
  {
    hide After, Receipts;
    OtherAfter(FRESH, s);
    forall k | 0 <= k < |After(s)| ensures !IsTool(After(s)[k]) { OtherHasNoTool(s, k); }
  }

  lemma OtherHasNoTool(s: Step, k: nat)
    requires !s.OpeningStep? && !s.TurnStep? && k < |After(s)|
    ensures !IsTool(After(s)[k])
  {}

  lemma StepRuns(cfg: Config, steps: seq<Step>, i: nat)
    requires StepsOk(cfg, steps) && Complete(steps) && i < |steps|
    ensures CallsRun(cfg, steps[i])
  {
    hide StepsOk, Complete, CallsRun, OpeningOk, TurnOk, TxnOk;
    StepKind(steps, i);
    if steps[i].OpeningStep? {
      AtLeastFive(steps);
      OpeningAt(cfg, steps);
      TxnOkAt(cfg, steps, 0);
      OpeningCallsRun(cfg, steps[0], Accounting(LogOf(steps[..0])));
    } else if steps[i].TurnStep? {
      TurnAt(cfg, steps, i);
      TurnCallsRun(cfg, steps[..i], steps[i]);
    } else {
      OtherCallsRun(cfg, steps[i]);
    }
  }

  /* ---- Where each call is in the log ---- */

  /** Where call `a` of step `i` is started and completed. */
  function StartAt(steps: seq<Step>, i: nat, a: nat): nat
    requires i < |steps| && a < |StartsIn(steps[i])|
  {
    RAt(steps, i) + 1 + StartsIn(steps[i])[a]
  }

  function EndAt(steps: seq<Step>, i: nat, a: nat): nat
    requires i < |steps| && a < |EndsIn(steps[i])|
  {
    RAt(steps, i) + 1 + EndsIn(steps[i])[a]
  }

  lemma AfterAt(steps: seq<Step>, i: nat, k: nat)
    requires i < |steps| && k < |After(steps[i])|
    ensures RAt(steps, i) + 1 + k < |LogOf(steps)| && LogOf(steps)[RAt(steps, i) + 1 + k] == After(steps[i])[k]
  {
    hide After, LogOf, RAt, Start;
    StepAt(steps, i);
    var r, n := RAt(steps, i), |After(steps[i])|;
    assert LogOf(steps)[r + 1..r + 1 + n][k] == LogOf(steps)[r + 1 + k];
  }

  lemma CallInside(cfg: Config, s: Step, a: nat)
    requires CallsRun(cfg, s) && a < |CallsIn(s)|
    ensures |StartsIn(s)| == |EndsIn(s)| == |ResultsOf(s)| == |CallsIn(s)|
    ensures StartsIn(s)[a] < EndsIn(s)[a] < |After(s)|
    ensures After(s)[StartsIn(s)[a]] == StartEvent(CallsIn(s)[a]) && After(s)[EndsIn(s)[a]] == ToolCompleted(ResultsOf(s)[a])
  {
    hide After, CallsIn, StartsIn, EndsIn, ResultsOf, Receipts, ReceiptOf, ToolRegistry.Valid;
  }

  lemma CallPlaced(cfg: Config, steps: seq<Step>, i: nat, a: nat)
    requires StepsOk(cfg, steps) && Complete(steps) && i < |steps| && CallsRun(cfg, steps[i]) && a < |CallsIn(steps[i])|
    ensures RAt(steps, i) < StartAt(steps, i, a) < EndAt(steps, i, a) < RAt(steps, i) + 1 + |After(steps[i])| <= |LogOf(steps)|
    ensures LogOf(steps)[StartAt(steps, i, a)] == StartEvent(CallsIn(steps[i])[a])
    ensures LogOf(steps)[EndAt(steps, i, a)] == ToolCompleted(ResultsOf(steps[i])[a])
  {
    hide After, LogOf, RAt, CallsIn, StartsIn, EndsIn, StepsOk, Complete, ResultsOf, CallsRun, Start, QAt, EventsOf,
         TxnEvents, Before, Window, IsTool, StartEvent;
    CallInside(cfg, steps[i], a);
    AfterAt(steps, i, StartsIn(steps[i])[a]);
    AfterAt(steps, i, EndsIn(steps[i])[a]);
    StepAt(steps, i);
  }

  lemma TxnHasNoTool(t: Txn, k: nat)
    requires k < |TxnEvents(t)|
    ensures !IsTool(TxnEvents(t)[k])
  {
    TxnAt(t);
    WindowIsRetries(t);
    hide Window;
    if 2 <= k < 2 + |Window(t)| { assert TxnEvents(t)[2..2 + |Window(t)|][k - 2] == TxnEvents(t)[k]; }
  }

  lemma BeforeHasNoTool(s: Step, k: nat)
    requires k < |Before(s)|
    ensures !IsTool(Before(s)[k])
  {}

  /** A tool event is after its step's response. */
  lemma ToolIsAfter(s: Step, k: nat)
    requires k < |EventsOf(s)| && IsTool(EventsOf(s)[k])
    ensures k >= |Before(s)| + |TxnEvents(s.txn)|
    ensures EventsOf(s)[k] == After(s)[k - |Before(s)| - |TxnEvents(s.txn)|]
  {
    hide Before, After, TxnEvents, IsTool;
    var b, n := |Before(s)|, |TxnEvents(s.txn)|;
    if k < b {
      BeforeHasNoTool(s, k);
    } else if k < b + n {
      TxnHasNoTool(s.txn, k - b);
    }
  }

  /** Every tool event of the log is the start or the completion of one call of one step. */
  lemma ToolLocated(cfg: Config, steps: seq<Step>, p: nat) returns (i: nat, a: nat)
    requires StepsOk(cfg, steps) && Complete(steps) && p < |LogOf(steps)| && IsTool(LogOf(steps)[p])
    ensures i < |steps| && CallsRun(cfg, steps[i]) && a < |CallsIn(steps[i])|
    ensures LogOf(steps)[p].ToolStarted? ==>
      p == StartAt(steps, i, a) && LogOf(steps)[p] == StartEvent(CallsIn(steps[i])[a])
    ensures LogOf(steps)[p].ToolCompleted? ==>
      p == EndAt(steps, i, a) && LogOf(steps)[p] == ToolCompleted(ResultsOf(steps[i])[a])
  {
    hide After, Before, TxnEvents, CallsIn, StartsIn, EndsIn, StepsOk, Complete, ResultsOf, ReceiptOf,
         ToolRegistry.Valid, Window, StartEvent, CallsRun, IsTool;
    var k: nat;
    i, k := Locate(Parts(steps), p);
    ToolIsAfter(steps[i], k);
    StepRuns(cfg, steps, i);
    TxnAt(steps[i].txn);
    var at := k - |Before(steps[i])| - |TxnEvents(steps[i].txn)|;
    assert p == RAt(steps, i) + 1 + at;
    a := ToolOf(cfg, steps[i], at);
  }

  lemma ToolOf(cfg: Config, s: Step, k: nat) returns (a: nat)
    requires CallsRun(cfg, s) && k < |After(s)| && IsTool(After(s)[k])
    ensures a < |CallsIn(s)|
    ensures After(s)[k].ToolStarted? ==> k == StartsIn(s)[a] && After(s)[k] == StartEvent(CallsIn(s)[a])
    ensures After(s)[k].ToolCompleted? ==> k == EndsIn(s)[a] && After(s)[k] == ToolCompleted(ResultsOf(s)[a])
  {
    hide After, CallsIn, StartsIn, EndsIn, ResultsOf, ReceiptOf, ToolRegistry.Valid;
    if k in StartsIn(s) {
      a :| 0 <= a < |CallsIn(s)| && StartsIn(s)[a] == k;
    } else {
      a :| 0 <= a < |CallsIn(s)| && EndsIn(s)[a] == k;
    }
  }

  /* ---- No call id is used twice ---- */

  lemma AfterAsksNothing(s: Step)
    requires Regular(s)
    ensures RequestCount(After(s)) == 0
  {
    hide After;
    AfterIsPlain(s);
    WhereNone(After(s), IsRequest);
  }

  lemma ReceiptsGrow(cfg: Config, steps: seq<Step>, i: nat)
    requires StepsOk(cfg, steps) && Complete(steps) && i < |steps|
    ensures Receipts(LogOf(steps[..i + 1])) == Receipts(LogOf(steps[..i])) + Receipts(After(steps[i]))
    ensures Accounting(LogOf(steps[..i + 1])).toolCalls
         == Accounting(LogOf(steps[..i])).toolCalls + |Receipts(After(steps[i]))|
  {
    hide StepsOk, Complete, LogOf, After, AllRegular, Account, Receipts, OptionsOk, AttemptsOk;
    ScriptIsRegular(cfg, steps);
    RegularAt(steps, i);
    TxnOkAt(cfg, steps, i);
    AfterAsksNothing(steps[i]);
    assert steps[..i + 1] == steps[..i] + [steps[i]];
    StepLogged(steps[..i], steps[i]);
    AfterIsPlain(steps[i]);
    AccountTools(Charged(Accounting(LogOf(steps[..i])), steps[i].txn.reply.usage, steps[i].txn.callCost), After(steps[i]));
  }

  lemma RegularAt(steps: seq<Step>, i: nat)
    requires AllRegular(steps) && i < |steps|
    ensures Regular(steps[i])
  {}

  lemma {:induction false} ReceiptsStay(cfg: Config, steps: seq<Step>, i: nat, j: nat, r: Receipt)
    requires StepsOk(cfg, steps) && Complete(steps) && i <= j <= |steps| && r in Receipts(LogOf(steps[..i]))
    ensures r in Receipts(LogOf(steps[..j]))
    decreases j
  {
    hide StepsOk, Complete, LogOf, After, Receipts;
    if i < j {
      ReceiptsStay(cfg, steps, i, j - 1, r);
      ReceiptsGrow(cfg, steps, j - 1);
    }
  }

  /** A step's results are among the receipts of every longer log. */
  lemma ResultListed(cfg: Config, steps: seq<Step>, i: nat, j: nat, a: nat)
    requires StepsOk(cfg, steps) && Complete(steps) && i < j <= |steps| && CallsRun(cfg, steps[i])
    requires a < |ResultsOf(steps[i])|
    ensures ResultsOf(steps[i])[a] in Receipts(LogOf(steps[..j]))
  {
    hide StepsOk, Complete, LogOf, After, Receipts, ResultsOf, ReceiptOf, ToolRegistry.Valid, CallsIn, StartsIn,
         EndsIn;
    assert ResultsOf(steps[i])[a] in ResultsOf(steps[i]);
    ReceiptsGrow(cfg, steps, i);
    ReceiptsStay(cfg, steps, i + 1, j, ResultsOf(steps[i])[a]);
  }

  lemma IdListed(receipts: seq<Receipt>, r: Receipt)
    requires r in receipts
    ensures r.id in ReceiptIds(receipts)
  {
    var k :| 0 <= k < |receipts| && receipts[k] == r;
    assert ReceiptIds(receipts)[k] == r.id;
  }

  /** A call's id is among those of the receipts of every longer log. */
  lemma EarlierIdListed(cfg: Config, steps: seq<Step>, i: nat, a: nat, j: nat)
    requires StepsOk(cfg, steps) && Complete(steps) && i < j <= |steps|
    requires CallsRun(cfg, steps[i]) && a < |CallsIn(steps[i])|
    ensures CallsIn(steps[i])[a].id in ReceiptIds(Receipts(LogOf(steps[..j])))
  {
    hide StepsOk, Complete, LogOf, After, Receipts, ResultsOf, CallsIn, StartsIn, EndsIn, ToolRegistry.Valid, ReceiptIds;
    ResultListed(cfg, steps, i, j, a);
    IdListed(Receipts(LogOf(steps[..j])), ResultsOf(steps[i])[a]);
  }

  /** The call of a later step took an id that no receipt before it has. */
  lemma LaterIdUnlisted(cfg: Config, steps: seq<Step>, j: nat, b: nat)
    requires StepsOk(cfg, steps) && Complete(steps) && 0 < j < |steps| && b < |CallsIn(steps[j])|
    ensures CallsIn(steps[j])[b].id !in ReceiptIds(Receipts(LogOf(steps[..j])))
  {
    hide StepsOk, Complete, LogOf, Receipts, ToolRegistry.Valid, InvestigateInput, UpdateOk, ReceiptIds, FirstCall,
         ReceiptOf;
    StepKind(steps, j);
    if steps[j].TurnStep? { TurnAt(cfg, steps, j); }
  }

  lemma LaterIdIsNew(cfg: Config, steps: seq<Step>, i: nat, a: nat, j: nat, b: nat)
    requires StepsOk(cfg, steps) && Complete(steps) && i < j < |steps|
    requires CallsRun(cfg, steps[i]) && a < |CallsIn(steps[i])| && b < |CallsIn(steps[j])|
    ensures CallsIn(steps[i])[a].id != CallsIn(steps[j])[b].id
  {
    hide StepsOk, Complete, LogOf, Receipts, CallsRun, CallsIn, ReceiptIds;
    EarlierIdListed(cfg, steps, i, a, j);
    LaterIdUnlisted(cfg, steps, j, b);
  }

  /** Two calls of the script with one id are the same call. */
  lemma SameIdSameCall(cfg: Config, steps: seq<Step>, i: nat, a: nat, j: nat, b: nat)
    requires StepsOk(cfg, steps) && Complete(steps) && i < |steps| && j < |steps|
    requires CallsRun(cfg, steps[i]) && a < |CallsIn(steps[i])| && CallsRun(cfg, steps[j]) && b < |CallsIn(steps[j])|
    requires CallsIn(steps[i])[a].id == CallsIn(steps[j])[b].id
    ensures i == j && a == b
  {
    hide StepsOk, Complete, After, Receipts, ResultsOf, ReceiptOf, ToolRegistry.Valid, CallsIn, StartsIn, EndsIn;
    if i < j {
      LaterIdIsNew(cfg, steps, i, a, j, b);
    } else if j < i {
      LaterIdIsNew(cfg, steps, j, b, i, a);
    }
  }

  lemma ToolIdOf(cfg: Config, s: Step, a: nat)
    requires CallsRun(cfg, s) && a < |CallsIn(s)|
    ensures StartEvent(CallsIn(s)[a]).id == ResultsOf(s)[a].id == CallsIn(s)[a].id
    ensures CallsIn(s)[a].id != []
  {
    hide After, CallsIn, StartsIn, EndsIn, ResultsOf, Receipts;
  }

  lemma ScriptToolsOnce(cfg: Config, steps: seq<Step>)
    requires StepsOk(cfg, steps) && Complete(steps)
    ensures ToolIdsOnce(LogOf(steps))
  {
    hide StepsOk, Complete, LogOf, CallsRun, CallsIn, StartsIn, EndsIn, ResultsOf, RAt, StartEvent;
    var log := LogOf(steps);
    forall p, q | 0 <= p < q < |log|
      ensures log[p].ToolStarted? && log[q].ToolStarted? ==> log[p].id != log[q].id
      ensures log[p].ToolCompleted? && log[q].ToolCompleted? ==> log[p].receipt.id != log[q].receipt.id
    {
      if (log[p].ToolStarted? && log[q].ToolStarted?) || (log[p].ToolCompleted? && log[q].ToolCompleted?) {
        var i, a := ToolLocated(cfg, steps, p);
        var j, b := ToolLocated(cfg, steps, q);
        ToolIdOf(cfg, steps[i], a);
        ToolIdOf(cfg, steps[j], b);
        if CallsIn(steps[i])[a].id == CallsIn(steps[j])[b].id { SameIdSameCall(cfg, steps, i, a, j, b); }
      }
    }
  }

  /** The reader finds each call where its step ran it. */
  lemma CallFound(cfg: Config, steps: seq<Step>, i: nat, a: nat)
    requires StepsOk(cfg, steps) && Complete(steps) && ToolIdsOnce(LogOf(steps))
    requires i < |steps| && CallsRun(cfg, steps[i]) && a < |CallsIn(steps[i])|
    ensures var log, c := LogOf(steps), CallsIn(steps[i])[a];
            && StartOf(log, c.id) == Some(StartAt(steps, i, a)) && EndOf(log, c.id) == Some(EndAt(steps, i, a))
            && ReceiptFor(log, c.id) == Some(ResultsOf(steps[i])[a])
  {
    hide StepsOk, Complete, LogOf, CallsIn, StartsIn, EndsIn, ResultsOf, RAt, ToolIdsOnce, StartOf, EndOf, After,
         Receipts, ReceiptOf, ToolRegistry.Valid;
    CallPlaced(cfg, steps, i, a);
    ToolIdOf(cfg, steps[i], a);
    StartFound(LogOf(steps), StartAt(steps, i, a));
    EndFound(LogOf(steps), EndAt(steps, i, a));
  }

  lemma ScriptToolsPaired(cfg: Config, steps: seq<Step>)
    requires StepsOk(cfg, steps) && Complete(steps) && ToolIdsOnce(LogOf(steps))
    ensures ToolsPaired(LogOf(steps))
  {
    hide StepsOk, Complete, LogOf, CallsRun, CallsIn, StartsIn, EndsIn, ResultsOf, RAt, ToolIdsOnce, StartOf, EndOf,
         StartAt, EndAt;
    var log := LogOf(steps);
    forall p | 0 <= p < |log| && log[p].ToolStarted?
      ensures log[p].id != [] && EndOf(log, log[p].id).Some? && p < EndOf(log, log[p].id).value
    {
      var i, a := ToolLocated(cfg, steps, p);
      ToolIdOf(cfg, steps[i], a);
      CallPlaced(cfg, steps, i, a);
      CallFound(cfg, steps, i, a);
    }
    forall p | 0 <= p < |log| && log[p].ToolCompleted? ensures CompletionOk(log, log[p].receipt, p) {
      var i, a := ToolLocated(cfg, steps, p);
      CompletionPasses(cfg, steps, i, a);
    }
  }

  lemma ReceiptIs(cfg: Config, s: Step, a: nat)
    requires CallsRun(cfg, s) && a < |CallsIn(s)|
    ensures ReceiptOf(CallsIn(s)[a], ResultsOf(s)[a]) && CallsIn(s)[a].action.Forensic? && ToolRegistry.Valid(cfg, CallsIn(s)[a])
  {
    hide After, CallsIn, StartsIn, EndsIn, ResultsOf, Receipts, ReceiptOf;
  }

  lemma CompletionPasses(cfg: Config, steps: seq<Step>, i: nat, a: nat)
    requires StepsOk(cfg, steps) && Complete(steps) && ToolIdsOnce(LogOf(steps))
    requires i < |steps| && CallsRun(cfg, steps[i]) && a < |CallsIn(steps[i])| && EndAt(steps, i, a) < |LogOf(steps)|
    ensures CompletionOk(LogOf(steps), ResultsOf(steps[i])[a], EndAt(steps, i, a))
  {
    hide StepsOk, Complete, LogOf, CallsRun, CallsIn, StartsIn, EndsIn, ResultsOf, RAt, ToolIdsOnce, StartOf, EndOf,
         StartAt, EndAt;
    ToolIdOf(cfg, steps[i], a);
    ReceiptIs(cfg, steps[i], a);
    CallPlaced(cfg, steps, i, a);
    CallFound(cfg, steps, i, a);
  }

  /** Each call is bound to the receipt between its step's response and the step's end. */
  lemma CallBound(cfg: Config, steps: seq<Step>, i: nat, a: nat, before: nat)
    requires StepsOk(cfg, steps) && Complete(steps) && ToolIdsOnce(LogOf(steps))
    requires i < |steps| && CallsRun(cfg, steps[i]) && a < |CallsIn(steps[i])|
    requires EndAt(steps, i, a) < before
    ensures Bound(LogOf(steps), CallsIn(steps[i])[a], RAt(steps, i), before)
  {
    hide StepsOk, Complete, LogOf, CallsRun, CallsIn, StartsIn, EndsIn, ResultsOf, RAt, ToolIdsOnce, StartOf, EndOf,
         StartAt, EndAt;
    ReceiptIs(cfg, steps[i], a);
    CallPlaced(cfg, steps, i, a);
    CallFound(cfg, steps, i, a);
  }
}
