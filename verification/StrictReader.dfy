/** The strict reader: it takes a log cold, walks it with its own running totals and
    accumulates what it complains of.  It has no complaint exactly about accepted logs. */
module StrictReader {
  import opened Wrappers
  import opened Utf8
  import CanonicalJson
  import opened Citations
  import CitationReader
  import opened Findings
  import opened Verdicts
  import opened Caps
  import opened Events
  import opened Occurrences
  import opened Transactions
  import opened Script
  import opened Lifecycle
  import opened ReaderBindings
  import opened ReaderFacts
  import opened ReaderSteps

  datatype Complaint =
    | ToolUnnamed | ToolRepeated | ToolUnmatched | NotExactlyOne(milestone: Milestone) | OutOfOrder | FailurePresent
    | PhasesDiffer | ResponseInvalid | CallInvalid | IdReused | CostDisagrees
    | RetrySequence | RetryUnsafe | OptionsMisplaced | CatalogInvalid | CallNotExposed | OptionsInvalid | OutputTooLong
    | OutsideWindow | OrphanRetry
    | OpeningUnbound | TurnUnbound | NotesUnbound | ActionUnbound | DoneUnbound | IdsUnbound
    | InputUnbound | BudgetDisagrees | FinalizerUnbound | JudgmentUnbound | ReportUnbound
    | CountsDisagree | ArtifactsMisplaced | CitationsInvalid

  class Verifier {
    const cfg: Config
    var errors: seq<Complaint>
    var retryIndices: set<nat>

    constructor (cfg: Config)
      ensures this.cfg == cfg && errors == [] && retryIndices == {}
    {
      this.cfg, errors, retryIndices := cfg, [], {};
    }

    method Error(c: Complaint)
      modifies this`errors
      ensures errors != []
    {
      if c !in errors { errors := errors + [c]; }
    }

    /** `[index for index, entry in enumerate(entries) if p(entry)]`. */
    method Positions(log: Log, p: Event -> bool) returns (ps: seq<nat>)
      ensures ps == Where(log, p)
    {
      ps := [];
      var i := 0;
      while i < |log|
        invariant 0 <= i <= |log| && ps == Where(log[..i], p)
      {
        assert log[..i + 1][..i] == log[..i];
        if p(log[i]) { ps := ps + [i]; }
        i := i + 1;
      }
      assert log[..|log|] == log;
    }

    /* ---- Tools ---- */

    /** The first start and the first completion of each call id. */
    method CollectTools(log: Log) returns (started: Index, completed: Index)
      modifies this`errors
      ensures errors == [] <==> old(errors) == [] && ToolIdsOnce(log) && ToolsNamed(log)
      ensures Starts(log, started) && Ends(log, completed)
    {
      hide ToolIdsOnce, ToolsNamed, Starts, Ends;
      started, completed := map[], map[];
      NoTools();
      var i := 0;
      while i < |log|
        invariant 0 <= i <= |log|
        invariant Starts(log[..i], started) && Ends(log[..i], completed)
        invariant errors == [] <==> old(errors) == [] && ToolIdsOnce(log[..i]) && ToolsNamed(log[..i])
      {
        var e := log[i];
        ToolsOneMore(log, i, started, completed);
        StartsOneMore(log, i, started);
        EndsOneMore(log, i, completed);
        if e.ToolStarted? {
          if e.id == [] { Error(ToolUnnamed); }
          if e.id in started { Error(ToolRepeated); } else { started := started[e.id := i]; }
        } else if e.ToolCompleted? {
          if e.receipt.id == [] { Error(ToolUnnamed); }
          if e.receipt.id in completed { Error(ToolRepeated); } else { completed := completed[e.receipt.id := i]; }
        }
        i := i + 1;
      }
      assert log[..|log|] == log;
    }

    /** `_verify_tools`. */
    method VerifyTools(log: Log) returns (started: Index, completed: Index)
      modifies this`errors
      ensures Starts(log, started) && Ends(log, completed)
      ensures errors == [] <==> old(errors) == [] && ToolIdsOnce(log) && ToolsPaired(log)
    {
      hide ToolIdsOnce, ToolsNamed, ToolsPaired, Starts, Ends, CallMatched;
      started, completed := CollectTools(log);
      PairedAreNamed(log);
      var all := started.Keys + completed.Keys;
      ghost var sound := errors == [];
      var pending := all;
      while pending != {}
        invariant pending <= all
        invariant errors == [] <==> sound && forall id :: id in all - pending ==> CallMatched(log, started, completed, id)
        decreases |pending|
      {
        var id :| id in pending;
        if !CallMatched(log, started, completed, id) { Error(ToolUnmatched); }
        pending := pending - {id};
      }
      if sound { MatchedIsPaired(log, started, completed); }
    }

    /* ---- Milestones and failures ---- */

    /** Exactly one of each required event, in protocol order. */
    method VerifyRequired(log: Log)
      modifies this`errors
      ensures errors == [] <==> old(errors) == [] && RequiredOk(log)
    {
      hide RequiredOk, Places, PlaceOf, REQUIRED, FoundOnce, MilestoneOf, OrderedAre, Is, Where, IsFailure;
      var ordered: seq<nat> := [];
      var k := 0;
      NoneFoundYet(log);
      while k < |REQUIRED|
        invariant 0 <= k <= |REQUIRED|
        invariant errors == [] <==> old(errors) == [] && FoundOnce(log, k)
        invariant errors == [] ==> OrderedAre(log, ordered, k)
      {
        var matches := Positions(log, Is(REQUIRED[k]));
        FoundOneMore(log, k, ordered);
        if |matches| != 1 { Error(NotExactlyOne(REQUIRED[k])); } else { ordered := ordered + [matches[0]]; }
        k := k + 1;
      }
      NotFoundOnce(log);
      if errors == [] {
        OrderedIsRequired(log, ordered);
        k := 1;
        while k < |ordered|
          invariant 1 <= k
          invariant errors == [] <==> forall j :: 0 < j < k && j < |ordered| ==> ordered[j - 1] < ordered[j]
        {
          if ordered[k - 1] >= ordered[k] { Error(OutOfOrder); }
          k := k + 1;
        }
      }
    }

    method VerifyFailures(log: Log)
      modifies this`errors
      ensures errors == [] <==> old(errors) == [] && NoFailures(log)
    {
      var i := 0;
      while i < |log|
        invariant 0 <= i <= |log|
        invariant errors == [] <==> old(errors) == [] && forall k :: 0 <= k < i ==> !IsFailure(log[k])
      {
        var failed := false;
        match log[i] {
          case ModelError => failed := true;
          case ProtocolError => failed := true;
          case RetrySkipped(_, _) => failed := true;
          case CapFired(_) => failed := true;
          case PreflightFailed => failed := true;
          case RunFailed => failed := true;
          case RunInterrupted => failed := true;
          case CustodyMismatch => failed := true;
          case ReleaseFailed => failed := true;
          case FinalizationFailed => failed := true;
          case _ =>
        }
        if failed { Error(FailurePresent); }
        i := i + 1;
      }
    }

    /* ---- Model transactions ---- */

    /** The phase sequences of the requests, options and responses. */
    method VerifyPhases(log: Log) returns (t: Txns)
      modifies this`errors
      ensures t == TxnsOf(log)
      ensures errors == [] <==> old(errors) == [] && Paired(log, t)
    {
      hide Where;
      var q := Positions(log, IsRequest);
      var o := Positions(log, IsOptions);
      var r := Positions(log, IsResponse);
      t := Txns(q, o, r);
      if !(|q| == |o| == |r| >= 5) {
        Error(PhasesDiffer);
      } else {
        var i := 0;
        while i < |r|
          invariant 0 <= i <= |r|
          invariant errors == [] <==>
            && old(errors) == []
            && forall k :: 0 <= k < i ==> log[q[k]].phase == log[o[k]].phase == log[r[k]].phase == PhaseAt(|r|, k)
        {
          if !(log[q[i]].phase == log[o[i]].phase == log[r[i]].phase == PhaseAt(|r|, i)) { Error(PhasesDiffer); }
          i := i + 1;
        }
      }
    }

    /** `_response_calls`: named, valid, and no id twice. */
    method CheckCalls(calls: seq<Call>)
      modifies this`errors
      ensures errors == [] <==> old(errors) == [] && CallsOk(calls)
    {
      var seen: set<Text>, i := {}, 0;
      while i < |calls|
        invariant 0 <= i <= |calls|
        invariant errors == [] <==> old(errors) == [] && CallsOk(calls[..i])
        invariant seen == set k | 0 <= k < i :: calls[k].id
      {
        CallsOneMore(calls, i);
        if calls[i].id == [] || !calls[i].valid || calls[i].id in seen { Error(CallInvalid); }
        seen := seen + {calls[i].id};
        i := i + 1;
      }
      assert calls[..|calls|] == calls;
    }

    /** `_verify_recorded_response_contract`. */
    method VerifyResponses(log: Log, t: Txns)
      requires Paired(log, t)
      modifies this`errors
      ensures errors == [] <==> old(errors) == [] && ResponsesOk(cfg, log, t, |t.r|)
    {
      hide Paired, ResponsesOk, CallsOk, UsageCost, RunningCost;
      var responseIds: set<Text>, requestIds: set<Text>, running, i := {}, {}, 0.0, 0;
      NoResponses(cfg, log, t);
      while i < |t.r|
        invariant 0 <= i <= |t.r|
        invariant errors == [] <==> old(errors) == [] && ResponsesOk(cfg, log, t, i)
        invariant responseIds == ResponseIds(log, t, i) && requestIds == RequestIds(log, t, i)
        invariant running == RunningCost(cfg, log, t, i)
      {
        RespondsOneMore(cfg, log, t, i);
        var reply := ReplyAt(log, t, i);
        CheckReply(reply);
        if reply.responseId in responseIds { Error(IdReused); }
        if reply.requestId in requestIds { Error(IdReused); }
        var cost := UsageCost(cfg.caps, reply.usage, cfg.model);
        running := running + cost;
        CheckCosts(log, t, i, cost, running);
        responseIds, requestIds := responseIds + {reply.responseId}, requestIds + {reply.requestId};
        i := i + 1;
      }
    }

    method CheckReply(reply: Reply)
      modifies this`errors
      ensures errors == [] <==> old(errors) == [] && ReplyOk(cfg, reply)
    {
      hide CallsOk;
      if !cfg.sol || !reply.sol { Error(ResponseInvalid); }
      if !reply.completed || !reply.usageReported { Error(ResponseInvalid); }
      if reply.responseId == [] || reply.requestId == [] { Error(ResponseInvalid); }
      CheckUsage(reply.usage);
      CheckCalls(reply.calls);
    }

    /** Every count is there, the parts fit in the input, and the provider's total is the sum. */
    method CheckUsage(u: Usage)
      modifies this`errors
      ensures errors == [] <==> old(errors) == [] && u.Valid() && u.providerTotal == u.input + u.output
    {
      if u.input < 0 || u.output < 0 || u.cached < 0 || u.cacheWrite < 0 || u.reasoning < 0 { Error(ResponseInvalid); }
      if u.cached + u.cacheWrite > u.input || u.providerTotal != u.input + u.output { Error(ResponseInvalid); }
    }

    method CheckCosts(log: Log, t: Txns, i: nat, cost: real, running: real)
      requires Paired(log, t) && i < |t.r|
      modifies this`errors
      ensures errors == [] <==> old(errors) == [] && log[t.r[i]].callCost == cost && log[t.r[i]].runningCost == running
    {
      if log[t.r[i]].callCost != cost || log[t.r[i]].runningCost != running { Error(CostDisagrees); }
    }

    /** One failed attempt and the retry it scheduled. */
    method CheckPair(phase: Phase, attempt: nat, max: Option<nat>, limit: real, error: Event, scheduled: Event)
      returns (candidate: nat, next: real)
      requires attempt >= 1
      modifies this`errors
      ensures errors == [] <==>
        old(errors) == [] && error.AttemptError? && (max.Some? ==> error.maxAttempts == max.value)
        && PairOk(phase, attempt, error.maxAttempts, limit, error, scheduled)
      ensures errors == [] ==> candidate == error.maxAttempts && next == scheduled.nextTimeout
    {
      assert Backoff(1) == 0.25 && Backoff(2) == 0.5;
      candidate, next := 0, 0.0;
      if !error.AttemptError? || !scheduled.RetryScheduled? {
        Error(RetrySequence);
      } else {
        candidate, next := error.maxAttempts, scheduled.nextTimeout;
        if (candidate != 2 && candidate != 3) || candidate <= attempt { Error(RetryUnsafe); }
        if max.Some? && max.value != candidate { Error(RetryUnsafe); }
        if error.phase != phase || error.attempt != attempt || !error.retryable || !error.exposed { Error(RetryUnsafe); }
        if error.failure.errorType == [] || error.failure.text == [] { Error(RetryUnsafe); }
        if scheduled.phase != phase || scheduled.attempt != attempt || scheduled.next != attempt + 1 { Error(RetryUnsafe); }
        if scheduled.maxAttempts != candidate { Error(RetryUnsafe); }
        if scheduled.delay != if attempt == 1 then 0.25 else 0.5 { Error(RetryUnsafe); }
        match error.failure.status {
          case Some(s) => if s !in {408, 409, 429} && s < 500 { Error(RetryUnsafe); }
          case None => if error.failure.errorType !in RETRYABLE_TYPES { Error(RetryUnsafe); }
        }
        if next <= 0.0 || next > limit { Error(RetryUnsafe); }
      }
    }

    /** `_verify_model_transaction_window`, its events taken out of the log. */
    method VerifyWindow(phase: Phase, window: Log, timeout: real, reply: Reply)
      modifies this`errors
      ensures errors == [] <==> old(errors) == [] && WindowOk(phase, window, timeout, reply)
    {
      hide PairOk, PairsOk, MaxAfter, LimitAfter;
      if window != [] {
        var failed := (|window| - 1) / 2;
        if |window| < 3 || |window| % 2 != 1 || failed > 2 {
          Error(RetrySequence);
        } else {
          var max: Option<nat>, limit, k := None, timeout, 0;
          NoPairs(phase, window, timeout);
          WindowIs(phase, window, timeout, reply);
          hide WindowOk;
          while k < failed
            invariant 0 <= k <= failed
            invariant errors == [] <==> old(errors) == [] && PairsOk(phase, window, timeout, k)
            invariant errors == [] ==> max == MaxAfter(window, k) && limit == LimitAfter(window, timeout, k)
          {
            PairsOneMore(phase, window, timeout, k);
            var candidate, next := CheckPair(phase, k + 1, max, limit, window[2 * k], window[2 * k + 1]);
            max, limit := Some(candidate), Lesser(limit, next);
            k := k + 1;
          }
          var last := window[|window| - 1];
          if !max.Some? || last != RetrySucceeded(phase, failed + 1, max.value, reply.responseId, reply.requestId, reply.sol,
                                                  reply.completed)
          {
            Error(RetrySequence);
          }
        }
      }
    }

    /** A catalog without repetition, and the opening's catalog with the terminal action for
        the turns. */
    method VerifyCatalog(log: Log, t: Txns, i: nat)
      requires Paired(log, t) && i < |t.r|
      modifies this`errors
      ensures errors == [] <==> old(errors) == [] && CatalogOk(log, t, i)
    {
      var catalog := log[t.q[i]].catalog;
      if catalog == [] { Error(CatalogInvalid); }
      if PhaseAt(|t.r|, i) == Investigate && catalog != log[t.q[0]].catalog + [FinishInvestigation] {
        Error(CatalogInvalid);
      }
      ghost var sound := errors == [];
      var names: set<Function>, k := {}, 0;
      while k < |catalog|
        invariant 0 <= k <= |catalog|
        invariant errors == [] <==> sound && NoneTwice(catalog[..k])
        invariant names == set j | 0 <= j < k :: catalog[j]
      {
        NamesOneMore(catalog, k);
        if catalog[k] in names { Error(CatalogInvalid); }
        names := names + {catalog[k]};
        k := k + 1;
      }
      assert catalog[..|catalog|] == catalog;
    }

    /** The function was offered, and took the arguments. */
    method CheckExposed(catalog: seq<Function>, c: Call)
      modifies this`errors
      ensures errors == [] <==> old(errors) == [] && Exposed(cfg, catalog, c)
    {
      if FunctionOf(c.action) !in catalog { Error(CallNotExposed); }
      if c.action.Forensic? && !cfg.accepts(c.action.name, c.action.arguments) { Error(CallNotExposed); }
    }

    method VerifyExposure(catalog: seq<Function>, calls: seq<Call>)
      modifies this`errors
      ensures errors == [] <==> old(errors) == [] && forall c :: c in calls ==> Exposed(cfg, catalog, c)
    {
      hide Exposed;
      var k := 0;
      while k < |calls|
        invariant 0 <= k <= |calls|
        invariant errors == [] <==> old(errors) == [] && forall c :: c in calls[..k] ==> Exposed(cfg, catalog, c)
      {
        assert calls[..k + 1] == calls[..k] + [calls[k]];
        CheckExposed(catalog, calls[k]);
        k := k + 1;
      }
      assert calls[..|calls|] == calls;
    }

    method VerifyOptions(phase: Phase, o: Options, reply: Reply)
      modifies this`errors
      ensures errors == [] <==> old(errors) == [] && OptionsAccepted(cfg, phase, o) && reply.usage.output <= o.maximum
    {
      var (parallel, choice, effort, verbosity, calls) := Allowed(phase);
      if o.parallel != parallel || o.choice != choice || o.maxCalls != calls { Error(OptionsInvalid); }
      if o.effort != effort || o.verbosity != verbosity { Error(OptionsInvalid); }
      if o.maximum < 1 || o.maximum > Ceiling(phase) { Error(OptionsInvalid); }
      if o.minimum != Floor(phase) || o.minimum > o.maximum { Error(OptionsInvalid); }
      if o.estimate < 1 || o.timeout <= 0.0 || o.timeout > cfg.caps.maxWallSeconds { Error(OptionsInvalid); }
      if reply.usage.output > o.maximum { Error(OutputTooLong); }
    }

    method VerifyTransaction(log: Log, t: Txns, i: nat)
      requires Paired(log, t) && i < |t.r|
      modifies this
      ensures errors == [] <==> old(errors) == [] && TransactionOk(cfg, log, t, i)
      ensures retryIndices == old(retryIndices) + Range(t.o[i] + 1, t.r[i])
    {
      hide Paired, WindowOk, CatalogOk, OptionsAccepted, Exposed;
      PairedInside(log, t, i);
      var options, reply := log[t.o[i]].options, ReplyAt(log, t, i);
      if t.o[i] != t.q[i] + 1 { Error(OptionsMisplaced); }
      if t.r[i] <= t.o[i] {
        Error(OptionsMisplaced);
      } else {
        VerifyWindow(PhaseAt(|t.r|, i), log[t.o[i] + 1..t.r[i]], options.timeout, reply);
      }
      retryIndices := retryIndices + Range(t.o[i] + 1, t.r[i]);
      VerifyCatalog(log, t, i);
      VerifyExposure(log[t.q[i]].catalog, reply.calls);
      VerifyOptions(PhaseAt(|t.r|, i), options, reply);
    }

    method VerifyTransactions(log: Log, t: Txns)
      requires Paired(log, t) && |t.o| == |t.r| && retryIndices == {}
      modifies this
      ensures errors == [] <==> old(errors) == [] && TransactionsOk(cfg, log, t, |t.r|) && NoOrphans(log, t)
    {
      hide Paired, TransactionOk, IsRetry, NoOrphans;
      var i := 0;
      while i < |t.r|
        invariant 0 <= i <= |t.r|
        invariant errors == [] <==> old(errors) == [] && TransactionsOk(cfg, log, t, i)
        invariant retryIndices == WindowIndices(t, i)
      {
        VerifyTransaction(log, t, i);
        i := i + 1;
      }
      var places := Positions(log, IsRetry);
      AllPlaces(log, IsRetry, places);
      var actual := set p | p in places;
      if TransactionsOk(cfg, log, t, |t.r|) { RetriesAreWindows(cfg, log, t, actual); }
      if actual != retryIndices { Error(OrphanRetry); }
    }

    /** The events a request and its response must stand between, by the phase they name. */
    method CheckPhaseWindow(log: Log, t: Txns, i: nat)
      requires Paired(log, t) && i < |t.r|
      modifies this`errors
      ensures errors == [] <==> old(errors) == [] && PhaseWindowOk(log, t, i)
    {
      hide PlaceOf;
      var after, before := MOpened, MDone;
      match log[t.r[i]].phase {
        case Opening => after, before := MStarted, MOpened;
        case Investigate =>
        case Finalize => after, before := MDone, MFinished;
        case Judge => after, before := MJudging, MJudged;
        case Report => after, before := MReporting, MReported;
      }
      if t.q[i] <= PlaceOf(log, after) || t.r[i] <= t.q[i] || PlaceOf(log, before) <= t.r[i] { Error(OutsideWindow); }
    }

    method VerifyPhaseWindows(log: Log, t: Txns)
      requires Paired(log, t)
      modifies this`errors
      ensures errors == [] <==> old(errors) == [] && forall i :: 0 <= i < |t.r| ==> PhaseWindowOk(log, t, i)
    {
      hide Paired, PhaseWindowOk;
      var i := 0;
      while i < |t.r|
        invariant 0 <= i <= |t.r|
        invariant errors == [] <==> old(errors) == [] && forall k :: 0 <= k < i ==> PhaseWindowOk(log, t, k)
      {
        CheckPhaseWindow(log, t, i);
        i := i + 1;
      }
    }

    /* ---- What the controller did with each response ---- */

    /** `_bind_call_to_receipt`. */
    method BindCall(log: Log, started: Index, completed: Index, c: Call, after: nat, before: nat, unbound: Complaint)
      requires Starts(log, started) && Ends(log, completed)
      modifies this`errors
      ensures errors == [] <==> old(errors) == [] && Bound(log, c, after, before)
    {
      hide Starts, Ends, Bound;
      BoundIs(log, started, completed, c, after, before);
      if !c.action.Forensic? || c.id !in started || c.id !in completed {
        Error(unbound);
      } else {
        var start, end := started[c.id], completed[c.id];
        if start >= |log| || log[start] != ToolStarted(c.id, c.action.name, c.action.arguments) { Error(unbound); }
        if !(after < start < end < before) { Error(unbound); }
      }
    }

    method VerifyOpening(log: Log, t: Txns, started: Index, completed: Index)
      requires Paired(log, t) && Starts(log, started) && Ends(log, completed)
      modifies this`errors
      ensures errors == [] <==> old(errors) == [] && OpeningBound(cfg, log, t)
    {
      hide Paired, Starts, Ends, Bound, PlaceOf, NoneTwice;
      PairedCount(log, t);
      var reply, place := ReplyAt(log, t, 0), PlaceOf(log, MOpened);
      var calls := reply.calls;
      if !(1 <= |calls| <= MAX_OPENING_TOOLS) { Error(OpeningUnbound); }
      if place >= |log| || log[place] != OpeningCompleted(reply.responseId, |calls|, |calls|, 0, CallIds(calls)) {
        Error(OpeningUnbound);
      }
      ghost var sound := errors == [];
      var names: set<Function>, k := {}, 0;
      NoneYet();
      while k < |calls|
        invariant 0 <= k <= |calls|
        invariant errors == [] <==>
          && sound && NoneTwice(Selected(calls)[..k]) && forall j :: 0 <= j < k ==> Bound(log, calls[j], t.r[0], place)
        invariant names == set j | 0 <= j < k :: Selected(calls)[j]
      {
        NamesOneMore(Selected(calls), k);
        assert Selected(calls)[k] == FunctionOf(calls[k].action);
        if FunctionOf(calls[k].action) in names { Error(OpeningUnbound); }
        names := names + {FunctionOf(calls[k].action)};
        BindCall(log, started, completed, calls[k], t.r[0], place, OpeningUnbound);
        k := k + 1;
      }
      assert Selected(calls)[..|calls|] == Selected(calls);
      SelectedApart(calls);
    }

    /** The calls of the nonterminal turns, and the ids of all forensic calls. */
    method VerifyTurnCalls(log: Log, t: Txns, started: Index, completed: Index) returns (ids: seq<Text>)
      requires Paired(log, t) && Starts(log, started) && Ends(log, completed)
      modifies this`errors
      ensures errors == [] <==> old(errors) == [] && CallsBound(cfg, log, t, Turns(t))
      ensures ids == ForensicIds(log, t, Turns(t))
    {
      hide Paired, Starts, Ends, Bound, UpdateOk, ForensicIds, CallsBound;
      PairedCount(log, t);
      FirstIds(log, t);
      NoTurnYet(cfg, log, t);
      var turns := Turns(t);
      ids := CallIds(ReplyAt(log, t, 0).calls);
      var i := 1;
      while i < turns
        invariant 1 <= i <= turns
        invariant errors == [] <==> old(errors) == [] && CallsBound(cfg, log, t, i)
        invariant ids == ForensicIds(log, t, i)
      {
        ForensicOneMore(log, t, i);
        TurnOneMore(cfg, log, t, i);
        var call := CallAt(log, t, i);
        if |ReplyAt(log, t, i).calls| != 1 { Error(TurnUnbound); }
        VerifyUpdate(cfg.scan.strip(ReplyAt(log, t, i).message));
        BindCall(log, started, completed, call, t.r[i], t.r[i + 1], TurnUnbound);
        ids := ids + [call.id];
        i := i + 1;
      }
    }

    /** A turn's ledger update: text, not the literal DONE, visible, valid UTF-8 and bounded. */
    method VerifyUpdate(update: Text)
      modifies this`errors
      ensures errors == [] <==> old(errors) == [] && UpdateOk(cfg, update)
    {
      if update == [] || update == CanonicalJson.FromString("DONE") { Error(TurnUnbound); }
      if update != [] && !cfg.shown(update) { Error(TurnUnbound); }
      var size := 8_193;
      if Encodable(update) { size := |Encode(update)|; }
      if size > 8_192 { Error(TurnUnbound); }
    }

    /** The notes events against the turns' messages, with the ledger run along. */
    method VerifyNotes(log: Log, t: Txns, started: Index)
      requires Paired(log, t) && Starts(log, started) && |Where(log, IsNotes)| == Turns(t) - 1
      modifies this`errors
      ensures errors == [] <==> old(errors) == [] && NotesBound(cfg, log, t, Turns(t))
    {
      hide Paired, Where, LedgerAt, Starts, StartOf, NotesBound;
      PairedCount(log, t);
      NoLedger(cfg, log, t);
      NoTurnYet(cfg, log, t);
      var notes := Positions(log, IsNotes);
      var turns, ledger, i := Turns(t), [], 1;
      while i < turns
        invariant 1 <= i <= turns
        invariant errors == [] <==> old(errors) == [] && NotesBound(cfg, log, t, i)
        invariant ledger == LedgerAt(cfg, log, t, i - 1)
      {
        LedgerOneMore(cfg, log, t, i);
        TurnOneMore(cfg, log, t, i);
        var update, id, at := UpdateAt(cfg, log, t, i), CallAt(log, t, i).id, notes[i - 1];
        ledger := AppendNotes(ledger, update);
        StartedAt(log, started, id);
        if log[at] != NotesUpdated(i, update, |Encode(update)|, ledger) { Error(NotesUnbound); }
        if at <= t.r[i] || id !in started || at >= started[id] { Error(NotesUnbound); }
        i := i + 1;
      }
    }

    /** The action events against the turns' calls and receipts. */
    method VerifyActions(log: Log, t: Txns, completed: Index)
      requires Paired(log, t) && Ends(log, completed) && |Where(log, IsAction)| == Turns(t) - 1
      modifies this`errors
      ensures errors == [] <==> old(errors) == [] && ActionsBound(log, t, Turns(t))
    {
      hide Paired, Where, Ends, EndOf, ReceiptFor, ActionsBound;
      PairedCount(log, t);
      NoTurnYet(cfg, log, t);
      var actions := Positions(log, IsAction);
      var turns := Turns(t);
      var i := 1;
      while i < turns
        invariant 1 <= i <= turns
        invariant errors == [] <==> old(errors) == [] && ActionsBound(log, t, i)
      {
        var id, at := CallAt(log, t, i).id, actions[i - 1];
        CompletedAt(log, completed, id);
        TurnOneMore(cfg, log, t, i);
        if id !in completed {
          Error(ActionUnbound);
        } else {
          var r := log[completed[id]].receipt;
          if log[at] != ActionTaken(i, id, r.name, r.status) { Error(ActionUnbound); }
          if at <= completed[id] || at >= t.q[i + 1] { Error(ActionUnbound); }
        }
        i := i + 1;
      }
    }

    method VerifyTurns(log: Log, t: Txns, started: Index, completed: Index) returns (ids: seq<Text>)
      requires Paired(log, t) && Starts(log, started) && Ends(log, completed)
      modifies this`errors
      ensures errors == [] <==> old(errors) == [] && TurnsBound(cfg, log, t)
      ensures ids == ForensicIds(log, t, Turns(t))
    {
      hide Paired, Where, Starts, Ends, TurnsBound, CallsBound, NotesBound, ActionsBound, ForensicIds, IsNotes,
           IsAction;
      PairedCount(log, t);
      TurnsInParts(cfg, log, t);
      ids := VerifyTurnCalls(log, t, started, completed);
      var notes := Positions(log, IsNotes);
      var actions := Positions(log, IsAction);
      if |notes| != Turns(t) - 1 { Error(NotesUnbound); } else { VerifyNotes(log, t, started); }
      if |actions| != Turns(t) - 1 { Error(ActionUnbound); } else { VerifyActions(log, t, completed); }
    }

    method VerifyDone(log: Log, t: Txns)
      requires Paired(log, t)
      modifies this`errors
      ensures errors == [] <==> old(errors) == [] && DoneBound(log, t)
    {
      hide Paired, PlaceOf;
      PairedCount(log, t);
      var n, place := Turns(t), PlaceOf(log, MDone);
      var reply, c := ReplyAt(log, t, n), CallAt(log, t, n);
      if |reply.calls| != 1 || c.action != Finish(true) { Error(DoneUnbound); }
      if !(t.r[n] < place < t.r[n + 1]) || place >= |log| {
        Error(DoneUnbound);
      } else if log[place] != Done(n, reply.responseId, c.id) {
        Error(DoneUnbound);
      }
    }

    /** The forensic ids are distinct, are exactly the receipts', and the terminal id is not
        among them. */
    method VerifyIds(log: Log, t: Txns, completed: Index, ids: seq<Text>)
      requires Paired(log, t) && Ends(log, completed) && ids == ForensicIds(log, t, Turns(t))
      modifies this`errors
      ensures errors == [] <==> old(errors) == [] && IdsBound(log, t)
    {
      hide Paired, Ends, ForensicIds, IdsBound;
      PairedCount(log, t);
      IdsAre(log, t, completed, ids);
      var all := SetOf(ids);
      if CallAt(log, t, Turns(t)).id in ids { Error(IdsUnbound); }
      if |ids| != |all| { Error(IdsUnbound); }
      if all != completed.Keys { Error(IdsUnbound); }
    }

    /* ---- The packets ---- */

    /** `_receipt_index_before`, and the meter `_verify_request_budget` recomputes. */
    method Prior(log: Log, p: nat) returns (receipts: seq<Receipt>, meter: Meter)
      requires p <= |log|
      ensures receipts == Receipts(log[..p]) && meter == Accounting(log[..p])
    {
      hide Account, Receipts;
      receipts, meter := [], FRESH;
      NothingPrior();
      var i := 0;
      while i < p
        invariant 0 <= i <= p
        invariant receipts == Receipts(log[..i]) && meter == Accounting(log[..i])
      {
        AccountOneMore(log, i);
        OneEvent(meter, log[i]);
        if log[i].ToolCompleted? { receipts := receipts + [log[i].receipt]; }
        meter := Metered(meter, log[i]);
        i := i + 1;
      }
    }

    /** `_verified_observation_items`; an id without a receipt has been reported by then. */
    method Observe(log: Log, completed: Index, ids: seq<Text>, quotable: bool) returns (items: seq<Observation>)
      requires Ends(log, completed)
      ensures items == ViewsFor(cfg, log, ids, quotable)
    {
      hide Ends, ViewFor;
      items := [];
      var k := 0;
      while k < |ids|
        invariant 0 <= k <= |ids| == |ViewsFor(cfg, log, ids, quotable)|
        invariant items == ViewsFor(cfg, log, ids, quotable)[..k]
      {
        ViewIs(cfg, log, completed, ids[k], quotable);
        if ids[k] in completed {
          var item := Item(cfg, log[completed[ids[k]]].receipt, quotable);
          items := items + [item];
        } else {
          items := items + [Observation([], [], CanonicalJson.Null, [])];
        }
        k := k + 1;
      }
    }

    method VerifyInvestigateInput(log: Log, t: Txns, completed: Index, i: nat, ledger: Text, previous: real)
      returns (elapsed: real)
      requires Paired(log, t) && Ends(log, completed) && 1 <= i <= Turns(t)
      requires ledger == JoinedAt(cfg, log, t, i - 1)
      requires errors == [] ==> previous == PacketBudget(log, t, i - 1).elapsed
      modifies this`errors
      ensures errors == [] <==> old(errors) == [] && InvestigateInputOk(cfg, log, t, i)
      ensures errors == [] ==> elapsed == PacketBudget(log, t, i).elapsed
    {
      hide Paired, Ends, JoinedAt, LatestIds, ViewsFor, Account, Receipts, PacketBudget, ReplyAt, CallAt;
      PairedInside(log, t, i);
      InputOneMore(cfg, log, t, i);
      LatestAt(log, t, i);
      elapsed := previous;
      var e := log[t.q[i]];
      if !e.packet.InvestigatePacket? {
        Error(InputUnbound);
      } else {
        elapsed := e.packet.budget.elapsed;
        var receipts, meter := Prior(log, t.q[i]);
        var latest := if i == 1 then CallIds(ReplyAt(log, t, 0).calls) else [CallAt(log, t, i - 1).id];
        var items := Observe(log, completed, latest, false);
        var index := ReceiptIndex(cfg, receipts);
        if e.packet != InvestigatePacket(cfg.profile, ledger, i - 1, index, e.packet.budget, latest) {
          Error(InputUnbound);
        }
        if e.packet.budget.meter != meter { Error(BudgetDisagrees); }
        if elapsed < previous || elapsed >= cfg.caps.maxWallSeconds { Error(BudgetDisagrees); }
        if e.observations != items { Error(InputUnbound); }
      }
    }

    /** `"\n\n".join(updates)`. */
    method JoinUpdates(updates: seq<Text>) returns (ledger: Text)
      ensures ledger == Join(updates)
    {
      ledger := [];
      var k := 0;
      while k < |updates|
        invariant 0 <= k <= |updates| && ledger == Join(updates[..k])
      {
        assert updates[..k + 1][..k] == updates[..k];
        ledger := if k == 0 then updates[0] else ledger + [0x0A, 0x0A] + updates[k];
        k := k + 1;
      }
      assert updates[..|updates|] == updates;
    }

    /** The investigate requests, with the updates and the elapsed time run along. */
    method VerifyInvestigateInputs(log: Log, t: Txns, completed: Index) returns (ledger: Text, elapsed: real)
      requires Paired(log, t) && Ends(log, completed)
      modifies this`errors
      ensures errors == [] <==> old(errors) == [] && InvestigateInputsOk(cfg, log, t, Turns(t))
      ensures ledger == JoinedAt(cfg, log, t, Turns(t) - 1)
      ensures errors == [] ==> elapsed == PacketBudget(log, t, Turns(t)).elapsed
    {
      hide Paired, Ends, Join, UpdatesTo, InvestigateInputsOk, InvestigateInputOk, PacketBudget, StartedBudget;
      PairedCount(log, t);
      NoLedger(cfg, log, t);
      NoInputYet(cfg, log, t);
      elapsed := StartedBudget(log).elapsed;
      var updates, i := [], 1;
      while i <= Turns(t)
        invariant 1 <= i <= Turns(t) + 1
        invariant errors == [] <==> old(errors) == [] && InvestigateInputsOk(cfg, log, t, i - 1)
        invariant updates == UpdatesTo(cfg, log, t, if i <= Turns(t) then i - 1 else i - 2)
        invariant errors == [] ==> elapsed == PacketBudget(log, t, i - 1).elapsed
      {
        InputOneMore(cfg, log, t, i);
        ledger := JoinUpdates(updates);
        elapsed := VerifyInvestigateInput(log, t, completed, i, ledger, elapsed);
        if i < Turns(t) {
          JoinedOneMore(cfg, log, t, i);
          updates := updates + [UpdateAt(cfg, log, t, i)];
        }
        i := i + 1;
      }
      ledger := JoinUpdates(updates);
    }

    method VerifyExactInput(log: Log, q: nat, packet: Packet, observations: seq<Observation>)
      requires q < |log| && log[q].Request?
      modifies this`errors
      ensures errors == [] <==> old(errors) == [] && log[q].packet == packet && log[q].observations == observations
    {
      if log[q].packet != packet || log[q].observations != observations { Error(InputUnbound); }
    }

    /** `_verify_phase_request_inputs`. */
    method VerifyInputs(log: Log, t: Txns, completed: Index, ids: seq<Text>) returns (ledger: Text, elapsed: real)
      requires Paired(log, t) && Ends(log, completed) && ids == ForensicIds(log, t, Turns(t))
      modifies this`errors
      ensures errors == [] <==> old(errors) == [] && InputsOk(cfg, log, t)
      ensures ledger == JoinedAt(cfg, log, t, Turns(t) - 1)
      ensures errors == [] ==> elapsed == PacketBudget(log, t, Turns(t)).elapsed
    {
      hide Paired, Ends, JoinedAt, InvestigateInputOk, PacketBudget, ForensicIds, Concluded, Judgments, Receipts,
           Account, ViewsFor;
      PairedCount(log, t);
      var n := Turns(t);
      PairedInside(log, t, 0);
      VerifyExactInput(log, t.q[0], OpeningPacket(cfg.profile), []);
      ledger, elapsed := VerifyInvestigateInputs(log, t, completed);
      PairedInside(log, t, n + 1);
      var finalizing, spent := Prior(log, t.q[n + 1]);
      var items := Observe(log, completed, ids, true);
      var index := ReceiptIndex(cfg, finalizing);
      VerifyExactInput(log, t.q[n + 1], FinalizePacket(cfg.profile, ledger, index), items);
      VerifyClosingInputs(log, t);
    }

    method VerifyClosingInputs(log: Log, t: Txns)
      requires Paired(log, t)
      modifies this`errors
      ensures errors == [] <==> old(errors) == [] && JudgeInput(cfg, log, t) && ReportInput(cfg, log, t)
    {
      hide Paired, Concluded, Judgments, Receipts, Account;
      PairedCount(log, t);
      var n, concluded := Turns(t), Concluded(log);
      PairedInside(log, t, n + 2);
      PairedInside(log, t, n + 3);
      var judging, spent := Prior(log, t.q[n + 2]);
      var index := ReceiptIndex(cfg, judging);
      VerifyExactInput(log, t.q[n + 2], JudgePacket(cfg.profile, concluded.caseNotes, concluded.findings, index), []);
      VerifyExactInput(log, t.q[n + 3], ReportPacket(cfg.profile, concluded, Judgments(log)), []);
    }

    /* ---- The closing phases ---- */

    method VerifyFinalizer(log: Log, t: Txns, ledger: Text)
      requires Paired(log, t) && ledger == JoinedAt(cfg, log, t, Turns(t) - 1)
      modifies this`errors
      ensures errors == [] <==> old(errors) == [] && FinalizerBound(cfg, log, t)
    {
      hide Paired, JoinedAt, PlaceOf;
      PairedCount(log, t);
      var n, place := Turns(t), PlaceOf(log, MFinished);
      var reply, c := ReplyAt(log, t, n + 1), CallAt(log, t, n + 1);
      if |reply.calls| != 1 || !c.action.SubmitInvestigation? || !(t.r[n + 1] < place < |log|) {
        Error(FinalizerUnbound);
      } else if !log[place].Finished? {
        Error(FinalizerUnbound);
      } else {
        var raw, recorded := c.action.raw, log[place].investigation;
        if log[place].ledger != ledger || recorded.turns != n { Error(FinalizerUnbound); }
        if recorded.caseNotes != raw.caseNotes || recorded.limitations != raw.limitations { Error(FinalizerUnbound); }
        if recorded.unresolved != raw.unresolved { Error(FinalizerUnbound); }
        VerifySerialized(raw, recorded);
      }
    }

    /** Each submitted finding against the recorded one. */
    method VerifySerialized(raw: RawInvestigation, recorded: Investigation)
      modifies this`errors
      ensures errors == [] <==> old(errors) == [] && AllSerialized(cfg, raw, recorded)
    {
      hide Serialized;
      if |recorded.findings| != |raw.findings| { Error(FinalizerUnbound); return; }
      var k := 0;
      while k < |raw.findings|
        invariant 0 <= k <= |raw.findings|
        invariant errors == [] <==>
          old(errors) == [] && forall i :: 0 <= i < k ==> Serialized(cfg.scan, raw.findings[i], recorded.findings[i], i + 1)
      {
        var same := SameFinding(cfg.scan, raw.findings[k], recorded.findings[k], k + 1);
        if !same { Error(FinalizerUnbound); }
        k := k + 1;
      }
    }

    method VerifyJudgment(log: Log, t: Txns)
      requires Paired(log, t)
      modifies this`errors
      ensures errors == [] <==> old(errors) == [] && JudgmentBound(cfg, log, t)
    {
      hide Paired, PlaceOf, Concluded;
      PairedCount(log, t);
      var n, place := Turns(t), PlaceOf(log, MJudged);
      var reply, c := ReplyAt(log, t, n + 2), CallAt(log, t, n + 2);
      if |reply.calls| != 1 || !c.action.SubmitJudgment? || !(t.r[n + 2] < place < |log|) {
        Error(JudgmentUnbound);
      } else if !log[place].JudgeCompleted? {
        Error(JudgmentUnbound);
      } else {
        var same := SameJudgment(cfg.scan, Concluded(log).findings, c.action.raws, log[place].verdicts);
        if !same { Error(JudgmentUnbound); }
      }
    }

    method VerifyReport(log: Log, t: Txns)
      requires Paired(log, t)
      modifies this`errors
      ensures errors == [] <==> old(errors) == [] && ReportBound(cfg, log, t)
    {
      hide Paired, PlaceOf, Concluded, Judgments, DraftOk;
      PairedCount(log, t);
      var n, place := Turns(t), PlaceOf(log, MReported);
      var reply, c := ReplyAt(log, t, n + 3), CallAt(log, t, n + 3);
      if |reply.calls| != 1 || !c.action.SubmitReport? || !(t.r[n + 3] < place < |log|) {
        Error(ReportUnbound);
      } else {
        var draft, concluded, verdicts := c.action.draft, Concluded(log), Judgments(log);
        VerifyDraft(draft, concluded.findings, verdicts);
        if log[place] != ReportCompleted(draft.findingIds, draft.spanIds, cfg.render(concluded, verdicts, draft)) {
          Error(ReportUnbound);
        }
      }
    }

    /** The four texts of a draft and its two lists of references. */
    method VerifyDraft(draft: Draft, findings: seq<Finding>, verdicts: seq<Verdict>)
      modifies this`errors
      ensures errors == [] <==> old(errors) == [] && DraftOk(cfg, draft, findings, verdicts)
    {
      hide Distinct, SetOf;
      if |draft.prose| != 4 { Error(ReportUnbound); return; }
      var k := 0;
      while k < 4
        invariant 0 <= k <= 4
        invariant errors == [] <==> old(errors) == [] && forall i :: 0 <= i < k ==> cfg.scan.strip(draft.prose[i]) != []
      {
        if cfg.scan.strip(draft.prose[k]) == [] { Error(ReportUnbound); }
        k := k + 1;
      }
      SetSize(draft.findingIds);
      SetSize(draft.spanIds);
      var named, quoted := SetOf(draft.findingIds), SetOf(draft.spanIds);
      if |named| != |draft.findingIds| || |quoted| != |draft.spanIds| { Error(ReportUnbound); }
      if named != (set i | 0 <= i < |findings| :: findings[i].id) { Error(ReportUnbound); }
      if quoted != (set i, j | 0 <= i < |verdicts| && 0 <= j < |verdicts[i].quotes| :: verdicts[i].quotes[j].span) {
        Error(ReportUnbound);
      }
    }

    /** `_verify_final_budget` and `_verify_lifecycle_counts`. */
    method VerifyTotals(log: Log, t: Txns, elapsed: real)
      requires Paired(log, t)
      requires errors == [] ==> elapsed == PacketBudget(log, t, Turns(t)).elapsed
      modifies this`errors
      ensures errors == [] <==> old(errors) == [] && TotalsOk(cfg, log, t)
    {
      hide Paired, PlaceOf, Concluded, Judgments, Receipts, Account, PacketBudget, StartedBudget;
      assert log[..|log|] == log;
      var receipts, meter := Prior(log, |log|);
      var judging, completed, first := PlaceOf(log, MJudging), PlaceOf(log, MCompleted), StartedBudget(log);
      if judging >= |log| || log[judging] != JudgeStarted(|Concluded(log).findings|, |receipts|) { Error(CountsDisagree); }
      if first.meter != FRESH || first.elapsed < 0.0 { Error(BudgetDisagrees); }
      if completed >= |log| || !log[completed].InvestigationCompleted? {
        Error(CountsDisagree);
      } else {
        if log[completed].findingCount != |Concluded(log).findings| { Error(CountsDisagree); }
        if log[completed].verdictCount != |Judgments(log)| { Error(CountsDisagree); }
        VerifyBudget(log[completed].budget, meter, elapsed);
      }
    }

    method VerifyBudget(final: Snapshot, meter: Meter, elapsed: real)
      modifies this`errors
      ensures errors == [] <==>
        && old(errors) == [] && final.meter == meter
        && meter.toolCalls <= cfg.caps.maxToolCalls && meter.total <= cfg.caps.maxTotalTokens
        && meter.cost <= cfg.caps.maxCostUsd && elapsed <= final.elapsed < cfg.caps.maxWallSeconds
    {
      if final.meter != meter { Error(BudgetDisagrees); }
      if meter.toolCalls > cfg.caps.maxToolCalls || meter.total > cfg.caps.maxTotalTokens { Error(BudgetDisagrees); }
      if meter.cost > cfg.caps.maxCostUsd { Error(BudgetDisagrees); }
      if final.elapsed < elapsed || final.elapsed >= cfg.caps.maxWallSeconds { Error(BudgetDisagrees); }
    }

    /** `_verify_artifact_write_receipts`, and the terminal event. */
    method VerifyArtifacts(log: Log)
      modifies this`errors
      ensures errors == [] <==> old(errors) == [] && ArtifactsOk(log)
    {
      hide Where, PlaceOf, ArtifactsOk, IsArtifact, RENDER_ORDER;
      FiveArtifacts();
      ArtifactsAre(log);
      var writes := Positions(log, IsArtifact);
      var custody, ended := PlaceOf(log, MFinalCustody), PlaceOf(log, MEnded);
      if |writes| != 5 || !(ended == custody + 6 == |log| - 1) {
        Error(ArtifactsMisplaced);
      } else {
        if log[ended] != RunCompleted(true) { Error(ArtifactsMisplaced); }
        ghost var sound := errors == [];
        var k := 0;
        while k < 5
          invariant 0 <= k <= 5
          invariant errors == [] <==> sound && RenderedTo(log, custody, k)
        {
          if log[custody + 1 + k] != ArtifactWritten(RENDER_ORDER[k]) { Error(ArtifactsMisplaced); }
          k := k + 1;
        }
      }
    }

    method VerifyCitations(log: Log)
      modifies this`errors
      ensures errors == [] <==>
        && old(errors) == []
        && Cited(cfg, FactsOf(SourcesOf(cfg, Receipts(log))), Concluded(log).findings, Judgments(log))
    {
      var facts := FactsIn(cfg, log);
      var reader := new CitationReader.Reader(cfg.scan, cfg.sha, facts);
      reader.VerifyCitations(Concluded(log).findings, Judgments(log));
      if reader.errors != [] { Error(CitationsInvalid); }
    }

    /** `_verify_model_controller_bindings`. */
    method VerifyBindings(log: Log, t: Txns, started: Index, completed: Index) returns (elapsed: real)
      requires Paired(log, t) && Starts(log, started) && Ends(log, completed)
      modifies this`errors
      ensures errors == [] <==> old(errors) == [] && ControllerOk(cfg, log, t) && InputsOk(cfg, log, t)
      ensures errors == [] ==> elapsed == PacketBudget(log, t, Turns(t)).elapsed
    {
      hide Paired, Starts, Ends, OpeningBound, TurnsBound, DoneBound, IdsBound, InputsOk, FinalizerBound,
           JudgmentBound, ReportBound, PacketBudget, JoinedAt, ForensicIds;
      PairedCount(log, t);
      VerifyOpening(log, t, started, completed);
      var ids := VerifyTurns(log, t, started, completed);
      VerifyDone(log, t);
      VerifyIds(log, t, completed, ids);
      var ledger;
      ledger, elapsed := VerifyInputs(log, t, completed, ids);
      VerifyFinalizer(log, t, ledger);
      VerifyJudgment(log, t);
      VerifyReport(log, t);
    }

    /** The strict verification of a log.  Once the phases do not pair up the source goes on
        to list what else is wrong; the verdict is decided. */
    method Verify(log: Log)
      requires errors == [] && retryIndices == {}
      modifies this
      ensures errors == [] <==> Accepted(cfg, log)
    {
      hide RequiredOk, NoFailures, ToolIdsOnce, ToolsPaired, Paired, TransactionsOk, ResponsesOk, PhaseWindowOk,
           TransactionOk, ResponseOk, NoOrphans, ControllerOk, InputsOk, TotalsOk, ArtifactsOk, Starts, Ends,
           SourcesOf, Concluded, Judgments, Receipts, TxnsOf, PacketBudget, ReplyAt;
      var started, completed := VerifyTools(log);
      VerifyRequired(log);
      VerifyFailures(log);
      var t := VerifyPhases(log);
      if Paired(log, t) {
        PairedCount(log, t);
        VerifyResponses(log, t);
        VerifyTransactions(log, t);
        VerifyPhaseWindows(log, t);
        var elapsed := VerifyBindings(log, t, started, completed);
        VerifyTotals(log, t, elapsed);
        VerifyArtifacts(log);
        VerifyCitations(log);
        TransactionsAre(cfg, log, t);
      }
    }
  }
}
