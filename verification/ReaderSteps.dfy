/** What each loop of the strict reader has established after one iteration more. */
module ReaderSteps {
  import opened Wrappers
  import opened Utf8
  import CanonicalJson
  import opened Citations
  import opened Findings
  import opened Verdicts
  import opened Caps
  import opened Events
  import opened Occurrences
  import opened Transactions
  import opened Script
  import opened Lifecycle
  import opened ReaderFacts

  lemma NoTools()
    ensures Starts([], map[]) && Ends([], map[]) && ToolIdsOnce([]) && ToolsNamed([])
  {}

  lemma PairedAreNamed(log: Log)
    ensures ToolsPaired(log) ==> ToolsNamed(log)
  {
    hide StartOf, EndOf;
  }

  /* ---- Milestones ---- */

  lemma NoneFoundYet(log: Log)
    ensures FoundOnce(log, 0) && OrderedAre(log, [], 0)
  {}

  predicate OrderedAre(log: Log, ordered: seq<nat>, k: nat)
    requires k <= |REQUIRED|
  {
    |ordered| == k && forall j :: 0 <= j < k ==> ordered[j] == PlaceOf(log, REQUIRED[j])
  }

  lemma FoundOneMore(log: Log, k: nat, ordered: seq<nat>)
    requires k < |REQUIRED|
    ensures FoundOnce(log, k + 1) <==> FoundOnce(log, k) && |Where(log, Is(REQUIRED[k]))| == 1
    ensures OrderedAre(log, ordered, k) && |Where(log, Is(REQUIRED[k]))| == 1 ==>
      OrderedAre(log, ordered + [Where(log, Is(REQUIRED[k]))[0]], k + 1)
  {
    hide REQUIRED, Where, Is;
  }

  lemma NotFoundOnce(log: Log)
    ensures RequiredOk(log) ==> FoundOnce(log, |REQUIRED|)
  {
    hide Places;
  }

  lemma OrderedIsRequired(log: Log, ordered: seq<nat>)
    requires FoundOnce(log, |REQUIRED|) && OrderedAre(log, ordered, |REQUIRED|)
    ensures RequiredOk(log) <==> Ascending(ordered)
  {
    hide Places, REQUIRED, PlaceOf;
    RequiredIs(log, ordered);
  }

  /* ---- Responses ---- */

  lemma CallsOneMore(calls: seq<Call>, i: nat)
    requires i < |calls|
    ensures CallsOk(calls[..i + 1]) <==>
      CallsOk(calls[..i]) && calls[i].id != [] && calls[i].valid && calls[i].id !in (set k | 0 <= k < i :: calls[k].id)
  {
    var longer := calls[..i + 1];
    assert longer == calls[..i] + [calls[i]];
    if CallsOk(longer) {
      assert longer[i].id != [] && forall k :: 0 <= k < i ==> longer[k].id != longer[i].id;
    }
  }

  function ResponseIds(log: Log, t: Txns, n: nat): set<Text>
    requires Paired(log, t) && n <= |t.r|
  {
    set k | 0 <= k < n :: ReplyAt(log, t, k).responseId
  }

  function RequestIds(log: Log, t: Txns, n: nat): set<Text>
    requires Paired(log, t) && n <= |t.r|
  {
    set k | 0 <= k < n :: ReplyAt(log, t, k).requestId
  }

  /** The first `n` responses are in order and reuse no id. */
  predicate ResponsesOk(cfg: Config, log: Log, t: Txns, n: nat)
    requires Paired(log, t) && n <= |t.r|
  {
    && (forall i :: 0 <= i < n ==> ResponseOk(cfg, log, t, i))
    && forall i, j :: 0 <= i < j < n ==>
         ReplyAt(log, t, i).responseId != ReplyAt(log, t, j).responseId
         && ReplyAt(log, t, i).requestId != ReplyAt(log, t, j).requestId
  }

  lemma NoResponses(cfg: Config, log: Log, t: Txns)
    requires Paired(log, t)
    ensures ResponsesOk(cfg, log, t, 0) && ResponseIds(log, t, 0) == {} && RequestIds(log, t, 0) == {}
    ensures RunningCost(cfg, log, t, 0) == 0.0
  {}

  lemma RespondsOneMore(cfg: Config, log: Log, t: Txns, n: nat)
    requires Paired(log, t) && n < |t.r|
    ensures var reply := ReplyAt(log, t, n);
            && ResponseIds(log, t, n + 1) == ResponseIds(log, t, n) + {reply.responseId}
            && RequestIds(log, t, n + 1) == RequestIds(log, t, n) + {reply.requestId}
            && RunningCost(cfg, log, t, n + 1) == RunningCost(cfg, log, t, n) + UsageCost(cfg.caps, reply.usage, cfg.model)
            && (ResponsesOk(cfg, log, t, n + 1) <==>
                && ResponsesOk(cfg, log, t, n) && ReplyOk(cfg, reply)
                && log[t.r[n]].callCost == UsageCost(cfg.caps, reply.usage, cfg.model)
                && log[t.r[n]].runningCost == RunningCost(cfg, log, t, n + 1)
                && reply.responseId !in ResponseIds(log, t, n) && reply.requestId !in RequestIds(log, t, n))
  {
    hide Paired, ReplyOk, UsageCost;
    RepliesOneMore(cfg, log, t, n);
  }

  lemma RepliesOneMore(cfg: Config, log: Log, t: Txns, n: nat)
    requires Paired(log, t) && n < |t.r|
    ensures ResponsesOk(cfg, log, t, n + 1) <==>
      && ResponsesOk(cfg, log, t, n) && ResponseOk(cfg, log, t, n)
      && ReplyAt(log, t, n).responseId !in ResponseIds(log, t, n) && ReplyAt(log, t, n).requestId !in RequestIds(log, t, n)
  {
    hide Paired, ResponseOk, ReplyAt;
  }

  /* ---- Retry windows ---- */

  function MaxAfter(window: Log, k: nat): Option<nat> {
    if k == 0 then None else if |window| > 0 && window[0].AttemptError? then Some(window[0].maxAttempts) else None
  }

  function LimitAfter(window: Log, timeout: real, k: nat): real {
    if k == 0 then timeout
    else if k == 1 then if |window| > 1 && window[1].RetryScheduled? then Lesser(timeout, window[1].nextTimeout) else timeout
    else if |window| > 3 && window[1].RetryScheduled? && window[3].RetryScheduled?
         then Lesser(Lesser(timeout, window[1].nextTimeout), window[3].nextTimeout) else timeout
  }

  /** The first `k` pairs of a window of at most two. */
  predicate PairsOk(phase: Phase, window: Log, timeout: real, k: nat) {
    && k <= 2 && 2 * k <= |window|
    && (k >= 1 ==> window[0].AttemptError? && PairOk(phase, 1, window[0].maxAttempts, timeout, window[0], window[1]))
    && (k == 2 ==> PairOk(phase, 2, window[0].maxAttempts, LimitAfter(window, timeout, 1), window[2], window[3]))
  }

  lemma NoPairs(phase: Phase, window: Log, timeout: real)
    ensures PairsOk(phase, window, timeout, 0) && MaxAfter(window, 0) == None && LimitAfter(window, timeout, 0) == timeout
  {}

  lemma PairsOneMore(phase: Phase, window: Log, timeout: real, k: nat)
    requires k < 2 && 2 * k + 1 < |window|
    ensures var error, scheduled := window[2 * k], window[2 * k + 1];
            PairsOk(phase, window, timeout, k + 1) <==>
            && PairsOk(phase, window, timeout, k) && error.AttemptError?
            && (k > 0 && MaxAfter(window, k).Some? ==> error.maxAttempts == MaxAfter(window, k).value)
            && PairOk(phase, k + 1, error.maxAttempts, LimitAfter(window, timeout, k), error, scheduled)
    ensures PairsOk(phase, window, timeout, k + 1) ==>
              && window[2 * k].AttemptError? && window[2 * k + 1].RetryScheduled?
              && MaxAfter(window, k + 1) == Some(window[2 * k].maxAttempts)
              && LimitAfter(window, timeout, k + 1) == Lesser(LimitAfter(window, timeout, k), window[2 * k + 1].nextTimeout)
  {
    hide RETRYABLE_TYPES, Backoff, MayRetry;
  }

  lemma WindowIs(phase: Phase, window: Log, timeout: real, reply: Reply)
    requires |window| >= 3 && |window| % 2 == 1 && (|window| - 1) / 2 <= 2
    ensures var failed := (|window| - 1) / 2;
            WindowOk(phase, window, timeout, reply) <==>
            && PairsOk(phase, window, timeout, failed) && MaxAfter(window, failed).Some?
            && window[|window| - 1]
               == AnsweredEvent(phase, failed + 1, MaxAfter(window, failed).value, reply)
  {
    hide RETRYABLE_TYPES, Backoff, MayRetry;
  }

  lemma WindowHoldsRetries(phase: Phase, window: Log, timeout: real, reply: Reply)
    requires WindowOk(phase, window, timeout, reply)
    ensures forall k :: 0 <= k < |window| ==> IsRetry(window[k])
  {
    hide RETRYABLE_TYPES, Backoff, MayRetry;
  }

  /* ---- Transactions ---- */

  lemma NamesOneMore(catalog: seq<Function>, i: nat)
    requires i < |catalog|
    ensures NoneTwice(catalog[..i + 1]) <==> NoneTwice(catalog[..i]) && catalog[i] !in (set k | 0 <= k < i :: catalog[k])
    ensures (set k | 0 <= k < i + 1 :: catalog[k]) == (set k | 0 <= k < i :: catalog[k]) + {catalog[i]}
  {
    var longer := catalog[..i + 1];
    assert longer == catalog[..i] + [catalog[i]];
    if NoneTwice(longer) {
      assert forall k :: 0 <= k < i ==> longer[k] != longer[i];
    }
  }

  predicate NoneTwice(catalog: seq<Function>) {
    forall j, k :: 0 <= j < k < |catalog| ==> catalog[j] != catalog[k]
  }

  /** `set(range(lo, hi))`. */
  function Range(lo: nat, hi: nat): (r: set<nat>)
    ensures forall p :: p in r <==> lo <= p < hi
    decreases hi
  {
    if hi <= lo then {} else Range(lo, hi - 1) + {hi - 1}
  }

  /** The indices inside the first `n` windows. */
  function WindowIndices(t: Txns, n: nat): set<nat>
    requires |t.o| == |t.r| && n <= |t.r|
  {
    if n == 0 then {}
    else WindowIndices(t, n - 1) + Range(t.o[n - 1] + 1, t.r[n - 1])
  }

  lemma {:induction false} InWindow(t: Txns, n: nat, p: nat)
    requires |t.o| == |t.r| && n <= |t.r|
    ensures p in WindowIndices(t, n) <==> exists i :: 0 <= i < n && t.o[i] < p < t.r[i]
  {
    if n > 0 { InWindow(t, n - 1, p); }
  }

  predicate TransactionsOk(cfg: Config, log: Log, t: Txns, n: nat)
    requires Paired(log, t) && n <= |t.r|
  {
    forall i :: 0 <= i < n ==> TransactionOk(cfg, log, t, i)
  }

  lemma WindowIndexIsRetry(cfg: Config, log: Log, t: Txns, i: nat, p: nat)
    requires Paired(log, t) && i < |t.r| && TransactionOk(cfg, log, t, i) && t.o[i] < p < t.r[i]
    ensures p < |log| && IsRetry(log[p])
  {
    hide Paired, WindowOk, CatalogOk, OptionsAccepted, Exposed, IsRetry;
    PairedInside(log, t, i);
    var window := log[t.o[i] + 1..t.r[i]];
    WindowHoldsRetries(PhaseAt(|t.r|, i), window, log[t.o[i]].options.timeout, ReplyAt(log, t, i));
    assert window[p - t.o[i] - 1] == log[p];
  }

  lemma PairedInside(log: Log, t: Txns, i: nat)
    requires Paired(log, t) && i < |t.r|
    ensures |t.q| == |t.o| == |t.r| && t.q[i] < |log| && t.o[i] < |log| && t.r[i] < |log|
    ensures log[t.q[i]].Request? && log[t.o[i]].RequestOptions? && log[t.r[i]].Response?
  {}

  /** The retry events are those inside the windows exactly when none is an orphan. */
  lemma RetriesAreWindows(cfg: Config, log: Log, t: Txns, actual: set<nat>)
    requires Paired(log, t) && |t.o| == |t.r| && TransactionsOk(cfg, log, t, |t.r|)
    requires forall p: nat :: p in actual <==> p < |log| && IsRetry(log[p])
    ensures actual == WindowIndices(t, |t.r|) <==> NoOrphans(log, t)
  {
    hide Paired, TransactionOk, IsRetry, WindowIndices;
    var inside := WindowIndices(t, |t.r|);
    forall p | p in inside ensures p in actual {
      InWindow(t, |t.r|, p);
      var i :| 0 <= i < |t.r| && t.o[i] < p < t.r[i];
      WindowIndexIsRetry(cfg, log, t, i, p);
    }
    if NoOrphans(log, t) {
      forall p | p in actual ensures p in inside { InWindow(t, |t.r|, p); }
    }
    if actual == inside {
      forall p | 0 <= p < |log| && IsRetry(log[p]) ensures exists i :: 0 <= i < |t.r| && t.o[i] < p < t.r[i] {
        InWindow(t, |t.r|, p);
      }
    }
  }

  lemma AllPlaces(log: Log, p: Event -> bool, ps: seq<nat>)
    requires ps == Where(log, p)
    ensures forall k: nat :: k in ps <==> k < |log| && p(log[k])
  {
    WhereComplete(log, p);
  }

  /* ---- Bindings ---- */

  lemma BoundIs(log: Log, started: Index, completed: Index, c: Call, after: nat, before: nat)
    requires Starts(log, started) && Ends(log, completed)
    ensures Bound(log, c, after, before) <==>
      && c.action.Forensic? && c.id in started && c.id in completed
      && after < started[c.id] < completed[c.id] < before && started[c.id] < |log|
      && log[started[c.id]] == ToolStarted(c.id, c.action.name, c.action.arguments)
  {
    hide StartOf, EndOf;
  }

  /** The selected functions of a call list. */
  function Selected(calls: seq<Call>): seq<Function> {
    seq(|calls|, i requires 0 <= i < |calls| => FunctionOf(calls[i].action))
  }

  /** One nonterminal turn in three parts: its call, its notes event and its action event. */
  predicate TurnCallOk(cfg: Config, log: Log, t: Txns, i: nat)
    requires Paired(log, t) && 1 <= i < Turns(t)
  {
    && |ReplyAt(log, t, i).calls| == 1 && UpdateOk(cfg, UpdateAt(cfg, log, t, i))
    && Bound(log, CallAt(log, t, i), t.r[i], t.r[i + 1])
  }

  predicate TurnNoteOk(cfg: Config, log: Log, t: Txns, notes: seq<nat>, i: nat)
    requires Paired(log, t) && 1 <= i < Turns(t)
  {
    var update := UpdateAt(cfg, log, t, i);
    var id := CallAt(log, t, i).id;
    && i - 1 < |notes| && notes[i - 1] < |log| && StartOf(log, id).Some?
    && log[notes[i - 1]] == NotesUpdated(i, update, |Encode(update)|, LedgerAt(cfg, log, t, i))
    && t.r[i] < notes[i - 1] < StartOf(log, id).value
  }

  predicate TurnActionOk(log: Log, t: Txns, actions: seq<nat>, i: nat)
    requires Paired(log, t) && 1 <= i < Turns(t)
  {
    var id := CallAt(log, t, i).id;
    && i - 1 < |actions| && actions[i - 1] < |log| && EndOf(log, id).Some? && ReceiptFor(log, id).Some?
    && log[actions[i - 1]]
       == ActionTaken(i, id, ReceiptFor(log, id).value.name, ReceiptFor(log, id).value.status)
    && EndOf(log, id).value < actions[i - 1] < t.q[i + 1]
  }

  lemma TurnInParts(cfg: Config, log: Log, t: Txns, i: nat)
    requires Paired(log, t) && 1 <= i < Turns(t)
    ensures TurnBound(cfg, log, t, i) <==>
      && TurnCallOk(cfg, log, t, i) && TurnNoteOk(cfg, log, t, Where(log, IsNotes), i)
      && TurnActionOk(log, t, Where(log, IsAction), i)
  {
    hide Paired, StartOf, EndOf, ReceiptFor, LedgerAt, UpdateOk;
  }

  predicate CallsBound(cfg: Config, log: Log, t: Txns, n: nat)
    requires Paired(log, t) && n <= Turns(t)
  {
    forall i :: 1 <= i < n ==> TurnCallOk(cfg, log, t, i)
  }

  predicate NotesBound(cfg: Config, log: Log, t: Txns, n: nat)
    requires Paired(log, t) && n <= Turns(t)
  {
    forall i :: 1 <= i < n ==> TurnNoteOk(cfg, log, t, Where(log, IsNotes), i)
  }

  predicate ActionsBound(log: Log, t: Txns, n: nat)
    requires Paired(log, t) && n <= Turns(t)
  {
    forall i :: 1 <= i < n ==> TurnActionOk(log, t, Where(log, IsAction), i)
  }

  lemma TurnOneMore(cfg: Config, log: Log, t: Txns, i: nat)
    requires Paired(log, t) && 1 <= i < Turns(t)
    ensures CallsBound(cfg, log, t, i + 1) <==> CallsBound(cfg, log, t, i) && TurnCallOk(cfg, log, t, i)
    ensures NotesBound(cfg, log, t, i + 1) <==> NotesBound(cfg, log, t, i) && TurnNoteOk(cfg, log, t, Where(log, IsNotes), i)
    ensures ActionsBound(log, t, i + 1) <==> ActionsBound(log, t, i) && TurnActionOk(log, t, Where(log, IsAction), i)
  {
    hide Paired, TurnCallOk, TurnNoteOk, TurnActionOk, Where;
  }

  lemma NoTurnYet(cfg: Config, log: Log, t: Txns)
    requires Paired(log, t) && 1 <= Turns(t)
    ensures CallsBound(cfg, log, t, 1) && NotesBound(cfg, log, t, 1) && ActionsBound(log, t, 1)
  {}

  lemma TurnsInParts(cfg: Config, log: Log, t: Txns)
    requires Paired(log, t)
    ensures TurnsBound(cfg, log, t) <==>
      && |Where(log, IsNotes)| == |Where(log, IsAction)| == Turns(t) - 1
      && CallsBound(cfg, log, t, Turns(t)) && NotesBound(cfg, log, t, Turns(t)) && ActionsBound(log, t, Turns(t))
  {
    hide Paired, TurnBound, TurnCallOk, TurnNoteOk, TurnActionOk, Where;
    PairedCount(log, t);
    forall i | 1 <= i < Turns(t)
      ensures TurnBound(cfg, log, t, i) <==>
        && TurnCallOk(cfg, log, t, i) && TurnNoteOk(cfg, log, t, Where(log, IsNotes), i)
        && TurnActionOk(log, t, Where(log, IsAction), i)
    {
      TurnInParts(cfg, log, t, i);
    }
  }

  lemma PairedCount(log: Log, t: Txns)
    requires Paired(log, t)
    ensures |t.q| == |t.o| == |t.r| >= 5
    ensures forall i :: 0 <= i < |t.r| ==> t.q[i] < |log| && t.o[i] < |log| && t.r[i] < |log|
  {}

  lemma LedgerOneMore(cfg: Config, log: Log, t: Txns, i: nat)
    requires Paired(log, t) && 0 < i < |t.r|
    ensures LedgerAt(cfg, log, t, i) == AppendNotes(LedgerAt(cfg, log, t, i - 1), UpdateAt(cfg, log, t, i))
  {}

  /** The completions by id are the receipts by id. */
  lemma {:induction false} CompletedAreReceipts(log: Log, id: Text)
    ensures EndOf(log, id).Some? <==> id in ReceiptIds(Receipts(log))
  {
    if log != [] {
      var last := |log| - 1;
      CompletedAreReceipts(log[..last], id);
      var before := Receipts(log[..last]);
      if log[last].ToolCompleted? {
        assert Receipts(log) == before + [log[last].receipt];
        assert ReceiptIds(Receipts(log)) == ReceiptIds(before) + [log[last].receipt.id];
      } else {
        assert Receipts(log) == before;
      }
    }
  }

  lemma IdsAre(log: Log, t: Txns, completed: Index, ids: seq<Text>)
    requires Paired(log, t) && Ends(log, completed) && ids == ForensicIds(log, t, Turns(t))
    ensures IdsBound(log, t) <==>
      && |SetOf(ids)| == |ids| && SetOf(ids) == completed.Keys
      && CallAt(log, t, Turns(t)).id !in ids
  {
    hide Paired, ForensicIds, EndOf, ReceiptIds, Receipts;
    SetSize(ids);
    var logged := ReceiptIds(Receipts(log));
    forall id ensures id in completed.Keys <==> id in logged { CompletedAreReceipts(log, id); }
  }

  lemma ForensicOneMore(log: Log, t: Txns, i: nat)
    requires Paired(log, t) && 1 <= i < Turns(t)
    ensures ForensicIds(log, t, 1) == CallIds(ReplyAt(log, t, 0).calls)
    ensures ForensicIds(log, t, i + 1) == ForensicIds(log, t, i) + [CallAt(log, t, i).id]
  {}

  lemma FirstIds(log: Log, t: Txns)
    requires Paired(log, t)
    ensures ForensicIds(log, t, 1) == CallIds(ReplyAt(log, t, 0).calls)
  {}

  lemma NoneYet()
    ensures NoneTwice([])
  {}

  lemma SelectedApart(calls: seq<Call>)
    ensures NoneTwice(Selected(calls)) <==>
      forall i, j :: 0 <= i < j < |calls| ==> FunctionOf(calls[i].action) != FunctionOf(calls[j].action)
  {
    var names := Selected(calls);
    if NoneTwice(names) {
      forall i, j | 0 <= i < j < |calls| ensures FunctionOf(calls[i].action) != FunctionOf(calls[j].action) {
        assert names[i] != names[j];
      }
    }
  }

  lemma NoLedger(cfg: Config, log: Log, t: Txns)
    requires Paired(log, t)
    ensures LedgerAt(cfg, log, t, 0) == [] && UpdatesTo(cfg, log, t, 0) == []
  {}

  lemma StartedAt(log: Log, started: Index, id: Text)
    requires Starts(log, started)
    ensures StartOf(log, id) == if id in started then Some(started[id]) else None
  {}

  lemma CompletedAt(log: Log, completed: Index, id: Text)
    requires Ends(log, completed)
    ensures EndOf(log, id) == if id in completed then Some(completed[id]) else None
    ensures id in completed ==> completed[id] < |log| && log[completed[id]].ToolCompleted? && log[completed[id]].receipt.id == id
    ensures id in completed ==> ReceiptFor(log, id) == Some(log[completed[id]].receipt)
    ensures id !in completed ==> ReceiptFor(log, id) == None
  {
    EndIs(log, id);
  }

  /* ---- Request inputs ---- */

  lemma ViewIs(cfg: Config, log: Log, completed: Index, id: Text, quotable: bool)
    requires Ends(log, completed)
    ensures id in completed ==>
      && completed[id] < |log| && log[completed[id]].ToolCompleted?
      && ViewFor(cfg, log, id, quotable) == ViewOf(cfg, log[completed[id]].receipt, quotable)
    ensures id !in completed ==> ViewFor(cfg, log, id, quotable) == Observation([], [], CanonicalJson.Null, [])
  {
    hide Ends, EndOf, StartOf;
    CompletedAt(log, completed, id);
  }

  predicate InvestigateInputsOk(cfg: Config, log: Log, t: Txns, n: nat)
    requires Paired(log, t) && n <= Turns(t)
  {
    forall i :: 1 <= i <= n ==> InvestigateInputOk(cfg, log, t, i)
  }

  lemma InputOneMore(cfg: Config, log: Log, t: Txns, i: nat)
    requires Paired(log, t) && 1 <= i <= Turns(t)
    ensures InvestigateInputsOk(cfg, log, t, i) <==>
              InvestigateInputsOk(cfg, log, t, i - 1) && InvestigateInputOk(cfg, log, t, i)
    ensures InvestigateInputOk(cfg, log, t, i) ==>
              && log[t.q[i]].packet.InvestigatePacket?
              && PacketBudget(log, t, i) == log[t.q[i]].packet.budget
  {
    hide Paired, LedgerAt, LatestIds, ViewsFor, Account, IndexBefore, StartedBudget;
  }

  lemma NoInputYet(cfg: Config, log: Log, t: Txns)
    requires Paired(log, t)
    ensures InvestigateInputsOk(cfg, log, t, 0) && PacketBudget(log, t, 0) == StartedBudget(log)
  {}

  lemma LatestAt(log: Log, t: Txns, i: nat)
    requires Paired(log, t) && 1 <= i < |t.r|
    ensures LatestIds(log, t, i) == if i == 1 then CallIds(ReplyAt(log, t, 0).calls) else [CallAt(log, t, i - 1).id]
  {}

  /* ---- Artifacts ---- */

  predicate RenderedTo(log: Log, custody: nat, n: nat) {
    n <= 5 && custody + 5 < |log| && |RENDER_ORDER| == 5
    && forall k :: 0 <= k < n ==> log[custody + 1 + k] == ArtifactWritten(RENDER_ORDER[k])
  }

  lemma ArtifactsAre(log: Log)
    ensures var custody, ended := PlaceOf(log, MFinalCustody), PlaceOf(log, MEnded);
            ArtifactsOk(log) <==>
            && |Where(log, IsArtifact)| == 5 && ended == custody + 6 == |log| - 1 && log[ended] == RunCompleted(true)
            && RenderedTo(log, custody, 5)
  {
    hide Places, Where;
  }

  lemma FiveArtifacts()
    ensures |RENDER_ORDER| == 5
  {}

  lemma NothingPrior()
    ensures Receipts([]) == [] && Accounting([]) == FRESH
  {}

  lemma TransactionsAre(cfg: Config, log: Log, t: Txns)
    requires Paired(log, t)
    ensures EachTransaction(cfg, log, t) && DistinctReplies(log, t) <==>
      && TransactionsOk(cfg, log, t, |t.r|) && ResponsesOk(cfg, log, t, |t.r|)
      && forall i :: 0 <= i < |t.r| ==> PhaseWindowOk(log, t, i)
  {
    hide Paired, TransactionOk, ResponseOk, PhaseWindowOk, ReplyAt;
  }
}
