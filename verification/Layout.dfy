/** Where the events of a script's log are. */
module Layout {
  import opened Wrappers
  import opened Utf8
  import opened Caps
  import opened Events
  import opened Occurrences
  import opened Transactions
  import opened ModelClient
  import opened ToolRegistry
  import opened Script
  import opened StepFacts
  import opened Lifecycle

  /** The opening's tool events are tool events. */
  predicate Regular(s: Step) {
    s.OpeningStep? ==> forall p :: 0 <= p < |s.tools| ==> s.tools[p].ToolStarted? || s.tools[p].ToolCompleted?
  }

  predicate AllRegular(steps: seq<Step>) {
    forall i :: 0 <= i < |steps| ==> Regular(steps[i])
  }

  /** Where the request and the response of step `i` stand. */
  function QAt(steps: seq<Step>, i: nat): nat
    requires i < |steps|
  {
    Start(Parts(steps), i) + |Before(steps[i])|
  }

  function RAt(steps: seq<Step>, i: nat): nat
    requires i < |steps|
  {
    QAt(steps, i) + 2 + |Window(steps[i].txn)|
  }

  /** What a retry loop that recovers writes. */
  predicate RetryEvent(e: Event) {
    IsRetry(e) && !IsFailure(e)
  }

  lemma {:induction false} FailuresAreRetries(phase: Phase, max: nat, attempts: seq<Attempt>)
    ensures forall k :: 0 <= k < |Failures(phase, max, attempts)| ==> RetryEvent(Failures(phase, max, attempts)[k])
  {
    if attempts != [] { FailuresAreRetries(phase, max, attempts[..|attempts| - 1]); }
  }

  lemma WindowIsRetries(t: Txn)
    ensures forall k :: 0 <= k < |Window(t)| ==> RetryEvent(Window(t)[k])
  {
    FailuresAreRetries(t.phase, t.maxAttempts, t.attempts);
  }

  lemma TxnAt(t: Txn)
    ensures |TxnEvents(t)| == 3 + |Window(t)|
    ensures TxnEvents(t)[0] == RequestEvent(t) && TxnEvents(t)[1] == RequestOptions(t.phase, t.options)
    ensures TxnEvents(t)[2 + |Window(t)|] == ResponseEvent(t)
    ensures TxnEvents(t)[2..2 + |Window(t)|] == Window(t)
  {}

  lemma TxnWhere(t: Txn)
    ensures Where(TxnEvents(t), IsRequest) == [0]
    ensures Where(TxnEvents(t), IsOptions) == [1]
    ensures Where(TxnEvents(t), IsResponse) == [2 + |Window(t)|]
  {
    hide TxnEvents, Window, Where;
    TxnAt(t);
    WindowIsRetries(t);
    var events := TxnEvents(t);
    forall k | 2 <= k < 2 + |Window(t)| ensures RetryEvent(events[k]) {
      assert events[2..2 + |Window(t)|][k - 2] == events[k];
    }
    WhereOnce(events, IsRequest, 0);
    WhereOnce(events, IsOptions, 1);
    WhereOnce(events, IsResponse, 2 + |Window(t)|);
  }

  /** Nothing else in a step is a request, an options or a response event. */
  lemma AfterIsPlain(s: Step)
    requires Regular(s)
    ensures forall k :: 0 <= k < |After(s)| ==>
      !After(s)[k].Request? && !After(s)[k].RequestOptions? && !After(s)[k].Response?
      && !RetryEvent(After(s)[k]) && !IsFailure(After(s)[k])
  {}

  lemma BeforeIsPlain(s: Step)
    ensures forall k :: 0 <= k < |Before(s)| ==>
      !Before(s)[k].Request? && !Before(s)[k].RequestOptions? && !Before(s)[k].Response?
      && !RetryEvent(Before(s)[k]) && !IsFailure(Before(s)[k])
  {}

  lemma MiddleWhere(before: Log, middle: Log, after: Log, p: Event -> bool, at: nat)
    requires Where(middle, p) == [at]
    requires (forall k :: 0 <= k < |before| ==> !p(before[k])) && (forall k :: 0 <= k < |after| ==> !p(after[k]))
    ensures Where(before + (middle + after), p) == [|before| + at]
  {
    hide Where;
    WhereNone(before, p);
    WhereNone(after, p);
    WhereConcat(middle, after, p);
    WhereConcat(before, middle + after, p);
  }

  lemma StepPositions(s: Step)
    requires Regular(s)
    ensures Where(EventsOf(s), IsRequest) == [|Before(s)|]
    ensures Where(EventsOf(s), IsOptions) == [|Before(s)| + 1]
    ensures Where(EventsOf(s), IsResponse) == [|Before(s)| + 2 + |Window(s.txn)|]
  {
    hide After, Before, TxnEvents, Window, Where;
    TxnWhere(s.txn);
    AfterIsPlain(s);
    BeforeIsPlain(s);
    MiddleWhere(Before(s), TxnEvents(s.txn), After(s), IsRequest, 0);
    MiddleWhere(Before(s), TxnEvents(s.txn), After(s), IsOptions, 1);
    MiddleWhere(Before(s), TxnEvents(s.txn), After(s), IsResponse, 2 + |Window(s.txn)|);
  }

  /** The transactions of the log are those of the steps, in order. */
  lemma TxnPositions(steps: seq<Step>, i: nat)
    requires AllRegular(steps) && i < |steps|
    ensures var t := TxnsOf(LogOf(steps));
            && |t.q| == |t.o| == |t.r| == |steps|
            && t.q[i] == QAt(steps, i) && t.o[i] == QAt(steps, i) + 1 && t.r[i] == RAt(steps, i)
  {
    hide LogOf, Where, EventsOf, Window, Before, After, IsRequest, IsOptions, IsResponse;
    var parts := Parts(steps);
    LogIsParts(steps);
    forall j | 0 <= j < |parts|
      ensures |Where(parts[j], IsRequest)| == |Where(parts[j], IsOptions)| == |Where(parts[j], IsResponse)| == 1
    {
      StepPositions(steps[j]);
    }
    StepPositions(steps[i]);
    OnceEachAt(parts, IsRequest, 0, |steps|, i);
    OnceEachAt(parts, IsOptions, 0, |steps|, i);
    OnceEachAt(parts, IsResponse, 0, |steps|, i);
  }

  lemma LogIsParts(steps: seq<Step>)
    ensures LogOf(steps) == Flatten(Parts(steps))
  {}

  lemma PartsPrefix(steps: seq<Step>, i: nat)
    requires i <= |steps|
    ensures Parts(steps)[..i] == Parts(steps[..i])
    ensures Start(Parts(steps), i) == |LogOf(steps[..i])|
  {}

  /** Step `i` lies in the log piece by piece. */
  lemma StepAt(steps: seq<Step>, i: nat)
    requires i < |steps|
    ensures var log, q, r := LogOf(steps), QAt(steps, i), RAt(steps, i);
            && r + 1 + |After(steps[i])| == Start(Parts(steps), i + 1) <= |log|
            && log[q..r + 1] == TxnEvents(steps[i].txn)
            && log[r + 1..r + 1 + |After(steps[i])|] == After(steps[i])
            && log[..q] == LogOf(steps[..i]) + Before(steps[i])
  {
    hide After, Before, TxnEvents;
    TxnAt(steps[i].txn);
    PartsPrefix(steps, i);
    PiecesAt(Parts(steps), i, Before(steps[i]), TxnEvents(steps[i].txn), After(steps[i]));
  }

  lemma TxnContents(steps: seq<Step>, i: nat)
    requires i < |steps|
    ensures var log, t, q, r := LogOf(steps), steps[i].txn, QAt(steps, i), RAt(steps, i);
            && r < |log| && log[q] == RequestEvent(t) && log[q + 1] == RequestOptions(t.phase, t.options)
            && log[r] == ResponseEvent(t) && log[q + 2..r] == Window(t)
  {
    hide After, Before, TxnEvents, Window, LogOf;
    StepAt(steps, i);
    TxnAt(steps[i].txn);
    TxnSlices(LogOf(steps), QAt(steps, i), steps[i].txn);
  }

  lemma TxnSlices(log: Log, q: nat, t: Txn)
    requires q + |TxnEvents(t)| <= |log| && log[q..q + |TxnEvents(t)|] == TxnEvents(t)
    ensures var r := q + 2 + |Window(t)|;
            && r < |log| && log[q] == RequestEvent(t) && log[q + 1] == RequestOptions(t.phase, t.options)
            && log[r] == ResponseEvent(t) && log[q + 2..r] == Window(t)
  {
    TxnAt(t);
    hide TxnEvents, Window;
    var n := |TxnEvents(t)|;
    assert log[q..q + n][0] == log[q] && log[q..q + n][1] == log[q + 1] && log[q..q + n][n - 1] == log[q + n - 1];
    SliceOfSlice(log, q, q + n, 2, 2 + |Window(t)|);
  }

  /** Steps follow one another. */
  lemma StepsInOrder(steps: seq<Step>, i: nat, j: nat)
    requires i < j < |steps|
    ensures RAt(steps, i) + 1 + |After(steps[i])| <= Start(Parts(steps), j) <= QAt(steps, j) < RAt(steps, j)
  {
    StepAt(steps, i);
    StartMonotone(Parts(steps), i + 1, j);
  }
}
