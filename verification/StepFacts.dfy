/** What the events of a step add to the accounting and to the receipts of a log. */
module StepFacts {
  import opened Wrappers
  import opened Utf8
  import opened Caps
  import opened Events
  import opened Occurrences
  import opened Transactions
  import opened ModelClient
  import opened ToolRegistry
  import opened Script

  predicate Quiet(log: Log) {
    forall i :: 0 <= i < |log| ==> !Charges(log[i])
  }

  lemma {:induction false} FailuresAreQuiet(phase: Phase, max: nat, attempts: seq<Attempt>)
    ensures Quiet(Failures(phase, max, attempts))
  {
    if attempts != [] { FailuresAreQuiet(phase, max, attempts[..|attempts| - 1]); }
  }

  lemma WindowIsQuiet(t: Txn)
    ensures Quiet(Window(t))
  {
    FailuresAreQuiet(t.phase, t.maxAttempts, t.attempts);
  }

  lemma TxnAccount(m: Meter, t: Txn)
    requires t.reply.usage.Valid()
    ensures Account(m, TxnEvents(t)) == Charged(m, t.reply.usage, t.callCost)
    ensures Receipts(TxnEvents(t)) == []
  {
    var head := [RequestEvent(t), RequestOptions(t.phase, t.options)];
    WindowIsQuiet(t);
    AccountQuiet(m, head);
    AccountConcat(m, head, Window(t) + [ResponseEvent(t)]);
    AccountQuiet(m, Window(t));
    AccountConcat(m, Window(t), [ResponseEvent(t)]);
    OneResponse(m, t);
    ReceiptsConcat(head, Window(t) + [ResponseEvent(t)]);
    ReceiptsConcat(Window(t), [ResponseEvent(t)]);
  }

  lemma OneResponse(m: Meter, t: Txn)
    requires t.reply.usage.Valid()
    ensures Account(m, [ResponseEvent(t)]) == Charged(m, t.reply.usage, t.callCost)
    ensures Receipts([ResponseEvent(t)]) == []
  {
    assert [ResponseEvent(t)][..0] == [];
  }

  lemma BeforeIsQuiet(s: Step)
    ensures Quiet(Before(s))
  {}

  lemma TurnAfter(m: Meter, s: Step)
    requires s.TurnStep?
    ensures Account(m, After(s)) == m.(toolCalls := m.toolCalls + 1) && Receipts(After(s)) == [s.receipt]
  {
    var a := After(s);
    assert a[..3] + [a[3]] == a && a[..2] + [a[2]] == a[..3];
    AccountQuiet(m, a[..2]);
    AccountTools(m, a);
    ReceiptsConcat(a[..3], [a[3]]);
    ReceiptsConcat(a[..2], [a[2]]);
    assert [a[2]][..0] == [] && [a[3]][..0] == [];
  }

  /** A step charges its response and counts its receipts. */
  lemma StepAccount(m: Meter, s: Step)
    requires s.txn.reply.usage.Valid()
    ensures Account(m, EventsOf(s)) == Account(Charged(m, s.txn.reply.usage, s.txn.callCost), After(s))
    ensures Receipts(EventsOf(s)) == Receipts(After(s))
  {
    BeforeIsQuiet(s);
    AccountQuiet(m, Before(s));
    AccountConcat(m, Before(s), TxnEvents(s.txn) + After(s));
    AccountConcat(m, TxnEvents(s.txn), After(s));
    TxnAccount(m, s.txn);
    ReceiptsConcat(Before(s), TxnEvents(s.txn) + After(s));
    ReceiptsConcat(TxnEvents(s.txn), After(s));
  }

  /** Interleaved tool events complete every call, and only those. */
  lemma InterleavedTools(m: Meter, calls: seq<Call>, receipts: seq<Receipt>, tools: Log, starts: seq<nat>, ends: seq<nat>)
    requires Interleaved(calls, receipts, tools, starts, ends)
    ensures Account(m, tools) == m.(toolCalls := m.toolCalls + |calls|)
    ensures forall p :: 0 <= p < |tools| ==> tools[p].ToolStarted? || tools[p].ToolCompleted?
    ensures forall r :: r in Receipts(tools) <==> r in receipts
  {
    forall p | 0 <= p < |tools| ensures tools[p].ToolStarted? || tools[p].ToolCompleted? {
      if p in starts {
        var i :| 0 <= i < |calls| && starts[i] == p;
      } else {
        var i :| 0 <= i < |calls| && ends[i] == p;
      }
    }
    AccountTools(m, tools);
    forall r | r in receipts ensures r in Receipts(tools) {
      var i :| 0 <= i < |receipts| && receipts[i] == r;
      ReceiptIsListed(tools, ends[i]);
    }
    forall r | r in Receipts(tools) ensures r in receipts {
      var p := WhereListed(tools, r);
      assert forall i :: 0 <= i < |calls| ==> tools[starts[i]].ToolStarted?;
      assert p in ends;
      var i :| 0 <= i < |calls| && ends[i] == p;
      assert receipts[i] in receipts;
    }
  }

  lemma {:induction false} ReceiptIsListed(log: Log, p: nat)
    requires p < |log| && log[p].ToolCompleted?
    ensures log[p].receipt in Receipts(log)
  {
    if p < |log| - 1 { ReceiptIsListed(log[..|log| - 1], p); }
  }

  lemma {:induction false} WhereListed(log: Log, r: Receipt) returns (p: nat)
    requires r in Receipts(log)
    ensures p < |log| && log[p] == ToolCompleted(r)
  {
    if r in Receipts(log[..|log| - 1]) {
      p := WhereListed(log[..|log| - 1], r);
    } else {
      p := |log| - 1;
    }
  }

  lemma {:induction false} FailuresAskNothing(phase: Phase, max: nat, attempts: seq<Attempt>)
    ensures RequestCount(Failures(phase, max, attempts)) == 0
  {
    if attempts != [] {
      var n := |attempts|;
      FailuresAskNothing(phase, max, attempts[..n - 1]);
      var pair := [ErrorEvent(phase, max, n, attempts[n - 1]), ScheduledEvent(phase, max, n, attempts[n - 1])];
      WhereNone(pair, IsRequest);
      WhereConcat(Failures(phase, max, attempts[..n - 1]), pair, IsRequest);
    }
  }

  lemma TxnAsksOnce(t: Txn)
    ensures RequestCount(TxnEvents(t)) == 1
  {
    var head := [RequestEvent(t), RequestOptions(t.phase, t.options)];
    WhereOnce(head, IsRequest, 0);
    FailuresAskNothing(t.phase, t.maxAttempts, t.attempts);
    WhereConcat(Failures(t.phase, t.maxAttempts, t.attempts), [SucceededEvent(t)], IsRequest);
    WhereSingle(SucceededEvent(t), IsRequest);
    WhereConcat(Window(t), [ResponseEvent(t)], IsRequest);
    WhereSingle(ResponseEvent(t), IsRequest);
    WhereConcat(head, Window(t) + [ResponseEvent(t)], IsRequest);
  }

  lemma StepAsksOnce(s: Step)
    requires RequestCount(After(s)) == 0
    ensures RequestCount(EventsOf(s)) == 1
  {
    hide Where, TxnEvents, After;
    WhereNone(Before(s), IsRequest);
    TxnAsksOnce(s.txn);
    WhereConcat(TxnEvents(s.txn), After(s), IsRequest);
    WhereConcat(Before(s), TxnEvents(s.txn) + After(s), IsRequest);
  }

  /** Appending a step's events appends the step. */
  lemma StepLogged(steps: seq<Step>, s: Step)
    requires s.txn.reply.usage.Valid() && RequestCount(After(s)) == 0
    ensures LogOf(steps + [s]) == LogOf(steps) + EventsOf(s)
    ensures Accounting(LogOf(steps + [s]))
         == Account(Charged(Accounting(LogOf(steps)), s.txn.reply.usage, s.txn.callCost), After(s))
    ensures Receipts(LogOf(steps + [s])) == Receipts(LogOf(steps)) + Receipts(After(s))
    ensures RequestCount(LogOf(steps + [s])) == RequestCount(LogOf(steps)) + 1
  {
    LogOfMore(steps, s);
    AccountConcat(FRESH, LogOf(steps), EventsOf(s));
    StepAccount(Accounting(LogOf(steps)), s);
    ReceiptsConcat(LogOf(steps), EventsOf(s));
    StepAsksOnce(s);
    WhereConcat(LogOf(steps), EventsOf(s), IsRequest);
  }

  /** Steps other than the opening and the turns complete no tool call. */
  lemma OtherAfter(m: Meter, s: Step)
    requires !s.OpeningStep? && !s.TurnStep?
    ensures Account(m, After(s)) == m && Receipts(After(s)) == [] && RequestCount(After(s)) == 0
  {
    AccountQuiet(m, After(s));
    WhereNone(After(s), IsRequest);
  }
}
