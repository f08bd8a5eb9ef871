/** The agent controller: opening, adaptive turns, serialization, judgment and report, each
    written to the log as it happens.  A run that ends COMPLETE has written the log of a
    complete script. */
module Agent {
  import opened Wrappers
  import opened Utf8
  import opened CanonicalJson
  import opened Citations
  import opened Findings
  import opened Verdicts
  import opened Caps
  import opened Events
  import opened Occurrences
  import opened Transactions
  import opened ModelClient
  import opened ToolRegistry
  import opened Script
  import opened StepFacts
  import opened Causes

  /** Below this many remaining tokens the investigator is told to finish. */
  const CLOSING_RESERVE := 60_000

  /** How an adaptive turn ends. */
  datatype Turned = Acted(notes: Text, receipt: Receipt) | Concluded | Halted

  class UnchainedAgent {
    const cfg: Config
    const audit: Audit
    const budget: RunBudget
    const clock: Clock
    const provider: Provider
    const model: AuditedModel
    const tools: Registry

    ghost predicate Valid()
      reads this, model, tools, budget, clock
    {
      && model.cfg == cfg && tools.cfg == cfg
      && model.audit == audit && tools.audit == audit
      && model.budget == budget && tools.budget == budget
      && model.clock == clock && tools.clock == clock
      && model.provider == provider && model.Valid()
    }

    /** At most `n` requests were made, each dispatched at most three times. */
    ghost predicate AtMost(n: nat)
      reads this, audit, provider
    {
      RequestCount(audit.log) <= n && |provider.sent| <= 3 * n
    }

    /** The tools have run once for each receipt of the steps, and the receipts say what they
        answered. */
    ghost predicate Ran(steps: seq<Step>)
      reads this, tools, tools.toolbox
    {
      && tools.claimed == IdSet(Receipts(LogOf(steps)))
      && tools.toolbox.executions == |Receipts(LogOf(steps))|
      && Reported(tools.toolbox.answers, Receipts(LogOf(steps)))
    }

    /** The log and the objects are where the given steps leave them. */
    ghost predicate Holds(steps: seq<Step>)
      reads this, model, tools, tools.toolbox, budget, clock, audit, provider
    {
      && Valid()
      && audit.log == LogOf(steps)
      && budget.View() == Accounting(LogOf(steps))
      && Ran(steps)
      && ElapsedAt(steps) <= clock.now - budget.started
      && RequestCount(LogOf(steps)) == |steps| && |provider.sent| <= 3 * |steps|
    }

    /** An investigate request has been answered, and nothing done about it yet. */
    ghost predicate Asked(steps: seq<Step>, notice: Option<int>, txn: Txn)
      reads this, model, tools, tools.toolbox, budget, clock, audit, provider
    {
      && Valid()
      && InvestigateInput(cfg, steps, txn) && TxnOk(cfg, Accounting(LogOf(steps)), txn)
      && notice == NoticeDue(cfg, Accounting(LogOf(steps)))
      && audit.log == LogOf(steps) + (Notice(|steps|, notice) + TxnEvents(txn))
      && Ran(steps)
      && RequestCount(LogOf(steps)) == |steps| && |provider.sent| <= 3 * (|steps| + 1)
      && txn.packet.budget.elapsed <= clock.now - budget.started
      && budget.fired == None
      && budget.View() == Charged(Accounting(LogOf(steps)), txn.reply.usage, txn.callCost)
    }

    constructor (cfg: Config, audit: Audit, budget: RunBudget, clock: Clock, provider: Provider, model: AuditedModel,
                 tools: Registry)
      requires model.cfg == cfg && tools.cfg == cfg && model.audit == audit && tools.audit == audit
      requires model.budget == budget && tools.budget == budget && model.clock == clock && tools.clock == clock
      requires model.provider == provider && model.Valid()
      ensures Valid() && this.cfg == cfg && this.audit == audit && this.budget == budget && this.clock == clock
      ensures this.provider == provider && this.model == model && this.tools == tools
    {
      this.cfg, this.audit, this.budget, this.clock, this.provider := cfg, audit, budget, clock, provider;
      this.model, this.tools := model, tools;
    }

    /** The deadline check, the budget notice and the packet of an investigate request, whose
        snapshot reads the clock again. */
    method Observe(turn: nat, notes: Text, latest: seq<Receipt>) returns (packet: Option<Packet>, notice: Option<int>)
      requires Valid() && turn >= 1
      modifies audit, budget, clock
      ensures Valid() && clock.now >= old(clock.now) && Extends(old(audit.log), audit.log)
      ensures packet == None ==> budget.fired.Some?
      ensures packet.Some? ==>
        && audit.log == old(audit.log) + Notice(turn, notice) && notice == NoticeDue(cfg, old(budget.View()))
        && budget.View() == old(budget.View())
        && packet.value.InvestigatePacket?
        && packet.value == InvestigatePacket(cfg.profile, notes, turn - 1, IndexOf(cfg, Receipts(old(audit.log))),
                                             Snapshot(old(budget.View()), packet.value.budget.elapsed), ReceiptIds(latest))
        && old(clock.now) - budget.started <= packet.value.budget.elapsed <= clock.now - budget.started
      ensures packet.Some? ==> budget.fired == None && old(clock.now) - budget.started < cfg.caps.maxWallSeconds
    {
      packet, notice := None, None;
      var now := clock.Read();
      ApplyKeeps(cfg.caps, budget.View(), OpCheck(now - budget.started));
      var checked := budget.Check(now);
      if !checked.Ok? { return; }
      var remaining := Max(0, cfg.caps.maxTotalTokens - budget.total);
      if remaining <= CLOSING_RESERVE {
        notice := Some(remaining);
        audit.Append(BudgetNotice(turn, remaining));
      }
      NoticeIsQuiet(old(audit.log), turn, notice);
      now := clock.Read();
      packet := Some(InvestigatePacket(cfg.profile, notes, turn - 1, IndexOf(cfg, Receipts(audit.log)),
                                       Snapshot(budget.View(), now - budget.started), ReceiptIds(latest)));
    }

    /** One investigate request. */
    method AskInvestigator(turn: nat, notes: Text, latest: seq<Receipt>, ghost steps: seq<Step>)
      returns (reply: Option<Reply>, ghost notice: Option<int>, ghost txn: Txn, ghost cause: Cause)
      requires Holds(steps) && turn == |steps| >= 1 && notes == NotesAt(steps) && latest == Latest(steps)
      modifies audit, budget, clock, provider
      ensures Valid() && clock.now >= old(clock.now)
      ensures AtMost(|steps| + 1)
      ensures reply.Some? ==>
        txn.reply == reply.value && Asked(steps, notice, txn) && budget.toolCalls == old(budget.toolCalls)
      ensures reply == None ==> Explained(cfg, steps, cause, budget.View(), audit.log)
    {
      hide Explained, Unanswered, Where, TxnOk, WithinCaps, NoticeDue, Notice, TxnEvents, IdSet, Reported, OptionsOk,
           AttemptsOk, ReplyAccepted, IndexOf;
      var packet;
      txn, cause := *, CapReached;
      packet, notice := Observe(turn, notes, latest);
      ExtendsKeepsCount(LogOf(steps), audit.log);
      if packet == None {
        ExplainedByCap(cfg, steps, budget.View(), audit.log);
        return None, notice, txn, cause;
      }
      ghost var observed := audit.log;
      reply, txn, cause := model.Create(Investigate, packet.value, Views(cfg, latest, false), Catalog(cfg) + [FinishInvestigation]);
      if reply.Some? {
        Joined(LogOf(steps), Notice(turn, notice), TxnEvents(txn));
      } else {
        ExplainedByClient(cfg, steps, cause, budget.View(), audit.log, |observed|);
      }
    }

    /** The ledger update, the tool call and the action receipt of a nonterminal turn.  It halts
        exactly when the update or the call is not one to act on, a cap has fired, or the
        output was lost; an error in the tool is no reason. */
    method Act(turn: nat, notes: Text, reply: Reply, call: Call) returns (r: Turned, ghost update: Text, ghost lost: bool)
      requires Valid()
      modifies audit, budget, clock, tools`claimed, tools.toolbox
      ensures Valid() && clock.now >= old(clock.now) && Extends(old(audit.log), audit.log) && !r.Concluded?
      ensures update == cfg.scan.strip(reply.message)
      ensures r.Halted? <==>
        !UpdateOk(cfg, update) || !Admissible(cfg, old(tools.claimed), [call]) || budget.fired.Some? || lost
      ensures lost ==> |audit.log| > |old(audit.log)| && audit.log[|audit.log| - 1].OutputLost?
      ensures r.Halted? && budget.fired == None && !lost ==> audit.log == old(audit.log) + ToldOf(cfg, turn, notes, update)
      ensures r.Acted? ==>
        && update == cfg.scan.strip(reply.message) && UpdateOk(cfg, update) && r.notes == AppendNotes(notes, update)
        && ToolRegistry.Valid(cfg, call) && ReceiptOf(call, r.receipt) && call.id !in old(tools.claimed)
        && tools.claimed == old(tools.claimed) + {call.id}
        && tools.toolbox.executions == old(tools.toolbox.executions) + 1
        && AnsweredNow(old(tools.toolbox.answers), tools.toolbox.answers, call, r.receipt, false)
        && audit.log == old(audit.log) + TurnEvents(turn, update, r.notes, call, r.receipt)
        && budget.View() == old(budget.View()).(toolCalls := old(budget.View()).toolCalls + 1) && budget.fired == None
    {
      var visible := cfg.scan.strip(reply.message);
      update, lost := visible, false;
      if visible == DONE { return Halted, update, lost; }
      if !UpdateOk(cfg, visible) { audit.Append(ProtocolError); return Halted, update, lost; }
      var now := AppendNotes(notes, visible);
      audit.Append(NotesUpdated(turn, visible, |Encode(visible)|, now));
      var receipt;
      ghost var worker;
      receipt, worker := tools.Execute(call);
      lost := worker.Lost?;
      if receipt == None { return Halted, update, lost; }
      audit.Append(ActionTaken(turn, receipt.value.id, receipt.value.name, receipt.value.status));
      return Acted(now, receipt.value), update, lost;
    }

    /** The checks of a terminal action, and its event. */
    method Conclude(turn: nat, reply: Reply, call: Call) returns (ok: bool)
      requires Valid()
      modifies audit
      ensures Extends(old(audit.log), audit.log)
      ensures ok <==>
        call.action == Finish(true) && call.id != [] && call.id !in ReceiptIds(Receipts(old(audit.log)))
      ensures audit.log == old(audit.log) + [if ok then Done(turn, reply.responseId, call.id) else ProtocolError]
    {
      ok := call.action == Finish(true) && call.id != [] && call.id !in ReceiptIds(Receipts(audit.log));
      audit.Append(if ok then Done(turn, reply.responseId, call.id) else ProtocolError);
    }

    /** A nonterminal turn, once its request has been answered. */
    method TakeTurn(turn: nat, notes: Text, ghost steps: seq<Step>, ghost notice: Option<int>, ghost txn: Txn, reply: Reply, call: Call)
      returns (r: Turned, ghost step: Step, ghost cause: Cause)
      requires Asked(steps, notice, txn) && txn.reply == reply && reply.calls == [call] && !call.action.Finish?
      requires turn == |steps| >= 1 && notes == NotesAt(steps) && (steps[|steps| - 1].OpeningStep? || steps[|steps| - 1].TurnStep?)
      modifies audit, budget, clock, tools`claimed, tools.toolbox
      ensures Valid() && clock.now >= old(clock.now) && Extends(old(audit.log), audit.log) && !r.Concluded?
      ensures r.Acted? ==>
        && step.TurnStep? && TurnOk(cfg, steps, step) && step.txn == txn && step.notes == r.notes && step.receipt == r.receipt
        && Holds(steps + [step]) && budget.fired == None && budget.toolCalls == old(budget.toolCalls) + 1
      ensures r.Halted? ==> Explained(cfg, steps, cause, budget.View(), audit.log)
    {
      hide OptionsOk, AttemptsOk, ReplyAccepted, LogOf, TxnEvents, Account, Receipts, Where, ElapsedAt, Charged,
           Notice, Explained, UpdateOk;
      ghost var update, lost;
      step, cause := *, CapReached;
      r, update, lost := Act(turn, notes, reply, call);
      if r.Halted? {
        cause := WhyHalted(steps, notice, txn, call, lost, old(audit.log));
        return;
      }
      step := TurnStep(turn, notice, txn, update, r.notes, r.receipt);
      ActedStep(steps, step);
      IdsAreSet(Receipts(LogOf(steps)));
      ReportedMore(old(tools.toolbox.answers), tools.toolbox.answers, Receipts(LogOf(steps)), call, r.receipt);
    }

    /** What a halted turn shows. */
    lemma WhyHalted(steps: seq<Step>, notice: Option<int>, txn: Txn, call: Call, lost: bool, asked: Log)
      returns (cause: Cause)
      requires steps != [] && (steps[|steps| - 1].OpeningStep? || steps[|steps| - 1].TurnStep?)
      requires txn.reply.calls == [call] && !call.action.Finish?
      requires asked == LogOf(steps) + (Notice(|steps|, notice) + TxnEvents(txn)) && asked <= audit.log
      requires || !UpdateOk(cfg, cfg.scan.strip(txn.reply.message))
               || !Admissible(cfg, IdSet(Receipts(LogOf(steps))), [call])
               || budget.fired.Some? || lost
      requires lost ==> |audit.log| > |asked| && audit.log[|audit.log| - 1].OutputLost?
      requires budget.fired == None && !lost ==>
        audit.log == asked + ToldOf(cfg, |steps|, NotesAt(steps), cfg.scan.strip(txn.reply.message))
      ensures Explained(cfg, steps, cause, budget.View(), audit.log)
    {
      hide LogOf, Receipts, Explained, UpdateOk, Admissible, Notice, TxnEvents, Where, IdSet;
      if budget.fired.Some? {
        ExplainedByCap(cfg, steps, budget.View(), audit.log);
        cause := CapReached;
      } else if lost {
        ExplainedByLoss(cfg, steps, budget.View(), audit.log, |audit.log| - 1);
        cause := NotRetained(|audit.log| - 1);
      } else {
        cause := ExplainedByReply(cfg, steps, budget.View(), Notice(|steps|, notice), txn, audit.log);
      }
    }

    /** The terminal turn, once its request has been answered. */
    method EndTurn(turn: nat, ghost steps: seq<Step>, ghost notice: Option<int>, ghost txn: Txn, reply: Reply, call: Call)
      returns (ok: bool, ghost step: Step)
      requires Asked(steps, notice, txn) && txn.reply == reply && reply.calls == [call] && turn == |steps|
      modifies audit
      ensures Valid() && Extends(old(audit.log), audit.log)
      ensures ok <==> call.action == Finish(true) && call.id != [] && call.id !in ReceiptIds(Receipts(LogOf(steps)))
      ensures !ok ==> audit.log == old(audit.log) + [ProtocolError]
      ensures ok ==> step.TerminalStep? && TerminalOk(cfg, steps, step) && step.txn == txn && Holds(steps + [step])
    {
      step := TerminalStep(turn, notice, txn);
      AskedReceipts(LogOf(steps), turn, notice, txn);
      ok := Conclude(turn, reply, call);
      ConcludedStep(steps, step);
    }

    /** An answer of several calls, or of a terminal action that is not in order. */
    lemma WhyRefused(steps: seq<Step>, notice: Option<int>, txn: Txn, asked: Log) returns (cause: Cause)
      requires steps != [] && (steps[|steps| - 1].OpeningStep? || steps[|steps| - 1].TurnStep?)
      requires asked == LogOf(steps) + (Notice(|steps|, notice) + TxnEvents(txn)) && audit.log == asked + [ProtocolError]
      requires || |txn.reply.calls| != 1
               || (&& txn.reply.calls[0].action.Finish?
                   && !(txn.reply.calls[0].action == Finish(true) && txn.reply.calls[0].id != []
                        && txn.reply.calls[0].id !in ReceiptIds(Receipts(LogOf(steps)))))
      ensures Explained(cfg, steps, cause, budget.View(), audit.log)
    {
      hide LogOf, Receipts, Explained, UpdateOk, Admissible, Notice, TxnEvents, Where, IdSet, ReceiptIds;
      IdsAreSet(Receipts(LogOf(steps)));
      cause := ExplainedByReply(cfg, steps, budget.View(), Notice(|steps|, notice), txn, audit.log);
    }

    /** One adaptive turn: a nonterminal action, a terminal one, or the end of the run. */
    method Turn(turn: nat, notes: Text, latest: seq<Receipt>, ghost steps: seq<Step>)
      returns (r: Turned, ghost step: Step, ghost cause: Cause)
      requires Holds(steps) && turn == |steps| >= 1 && notes == NotesAt(steps) && latest == Latest(steps)
      requires steps[|steps| - 1].OpeningStep? || steps[|steps| - 1].TurnStep?
      modifies audit, budget, clock, provider, tools`claimed, tools.toolbox
      ensures Valid() && clock.now >= old(clock.now) && AtMost(|steps| + 1)
      ensures r.Acted? ==>
        step.TurnStep? && TurnOk(cfg, steps, step) && step.notes == r.notes && step.receipt == r.receipt
      ensures r.Acted? ==> budget.toolCalls == old(budget.toolCalls) + 1
      ensures r.Concluded? ==> step.TerminalStep? && TerminalOk(cfg, steps, step)
      ensures !r.Halted? ==>
        TxnOk(cfg, Accounting(LogOf(steps)), step.txn) && Holds(steps + [step]) && budget.fired == None
      ensures r.Halted? ==> Explained(cfg, steps, cause, budget.View(), audit.log)
    {
      hide TxnOk, StepsOk, LogOf, Account, Receipts, Where, ElapsedAt, NotesAt, Remembered, Latest, OpeningOk, TurnOk,
           TerminalOk, Explained, Notice, TxnEvents, IdSet, ReceiptIds;
      ghost var notice, txn;
      step := *;
      r := Halted;
      var reply;
      reply, notice, txn, cause := AskInvestigator(turn, notes, latest, steps);
      if reply == None { return; }
      ghost var asked := audit.log;
      if |reply.value.calls| != 1 {
        audit.Append(ProtocolError);
        cause := WhyRefused(steps, notice, txn, asked);
      } else if reply.value.calls[0].action.Finish? {
        var ok;
        ok, step := EndTurn(turn, steps, notice, txn, reply.value, reply.value.calls[0]);
        if ok { r := Concluded; } else { cause := WhyRefused(steps, notice, txn, asked); }
      } else {
        r, step, cause := TakeTurn(turn, notes, steps, notice, txn, reply.value, reply.value.calls[0]);
      }
      ExtendsKeepsCount(asked, audit.log);
    }

    /** Every opening call distinct by name, at most twelve, each one valid. */
    method CheckOpening(calls: seq<Call>) returns (ok: bool)
      requires tools.cfg == cfg
      ensures ok <==>
        && |calls| <= MAX_OPENING_TOOLS
        && (forall i, j :: 0 <= i < j < |calls| ==> Name(calls[i]) != Name(calls[j]))
        && (forall i :: 0 <= i < |calls| ==> ToolRegistry.Valid(cfg, calls[i]))
    {
      var seen: set<Text>, i := {}, 0;
      while i < |calls|
        invariant 0 <= i <= |calls| && i <= MAX_OPENING_TOOLS
        invariant forall n :: n in seen <==> exists k :: 0 <= k < i && Name(calls[k]) == n
        invariant forall k, l :: 0 <= k < l < i ==> Name(calls[k]) != Name(calls[l])
        invariant forall k :: 0 <= k < i ==> ToolRegistry.Valid(cfg, calls[k])
      {
        var name := Name(calls[i]);
        ok := tools.Validate(calls[i]);
        if name in seen || i >= MAX_OPENING_TOOLS || !ok { return false; }
        seen := seen + {name};
        i := i + 1;
      }
      return true;
    }

    /** What an opening that was answered and not finished shows. */
    lemma WhyNotOpened(setup: Log, txn: Txn, workers: seq<Worker>, events: Log, starts: seq<nat>, ends: seq<nat>)
      returns (cause: Cause)
      requires setup + TxnEvents(txn) <= audit.log
      requires !OpeningAllowed(cfg, txn.reply.calls) && budget.fired == None ==>
        audit.log == setup + TxnEvents(txn) + (if OpeningChecked(cfg, txn.reply.calls) then [] else [ProtocolError])
      requires OpeningAllowed(cfg, txn.reply.calls) && budget.fired == None ==>
        && AllRan(txn.reply.calls, workers, events, starts, ends)
        && audit.log == setup + TxnEvents(txn) + events
        && exists i :: 0 <= i < |workers| && !workers[i].Ended?
      ensures Explained(cfg, [], cause, budget.View(), audit.log)
    {
      hide LogOf, OpeningAllowed, AllRan, TxnEvents, Explained, Where;
      NothingLogged();
      if budget.fired.Some? {
        ExplainedByCap(cfg, [], budget.View(), audit.log);
        cause := CapReached;
      } else if !OpeningAllowed(cfg, txn.reply.calls) {
        assert [] + (setup + TxnEvents(txn)) == setup + TxnEvents(txn);
        cause := ExplainedByReply(cfg, [], budget.View(), setup, txn, audit.log);
      } else {
        var p := LostIsWritten(txn.reply.calls, workers, events, starts, ends);
        assert audit.log[|setup + TxnEvents(txn)| + p] == events[p];
        ExplainedByLoss(cfg, [], budget.View(), audit.log, |setup + TxnEvents(txn)| + p);
        cause := NotRetained(|setup + TxnEvents(txn)| + p);
      }
    }

    /** `_opening`: one request, and its calls as one concurrent batch. */
    method OpenBook(started: Snapshot) returns (r: Option<seq<Receipt>>, ghost step: Step, ghost cause: Cause)
      requires Valid() && audit.log == SETUP + [InvestigationStarted(started)] && tools.claimed == {}
      requires tools.toolbox.executions == 0 && provider.sent == []
      requires budget.View() == FRESH == started.meter && 0.0 <= started.elapsed <= clock.now - budget.started
      modifies audit, budget, clock, provider, tools`claimed, tools.toolbox
      ensures Valid() && clock.now >= old(clock.now) && AtMost(1)
      ensures r.Some? ==>
        && step.OpeningStep? && OpeningOk(cfg, step) && TxnOk(cfg, FRESH, step.txn) && r.value == step.receipts
        && Holds([step]) && budget.fired == None && budget.toolCalls >= 1
      ensures r == None ==> Explained(cfg, [], cause, budget.View(), audit.log)
    {
      hide TxnOk, LogOf, TxnEvents, Account, Receipts, Where, Interleaved, ElapsedAt, OptionsOk, ToolRegistry.Valid,
           ReceiptIds, Charged, Explained, Admissible, Unanswered, OpeningOk;
      ghost var txn: Txn;
      step := *;
      r := None;
      NothingLogged();
      ghost var setup := audit.log;
      WhereNone(setup, IsRequest);
      var reply;
      reply, txn, cause := model.Create(Opening, OpeningPacket(cfg.profile), [], Catalog(cfg));
      if reply == None {
        ExplainedByClient(cfg, [], cause, budget.View(), audit.log, |setup|);
        return;
      }
      ghost var asked := audit.log;
      var calls := reply.value.calls;
      var ok := CheckOpening(calls);
      if calls == [] || !ok {
        audit.Append(ProtocolError);
        ExtendsKeepsCount(asked, audit.log);
        AdmissibleCalls(cfg, calls);
        cause := WhyNotOpened(setup, txn, [], [], [], []);
        return;
      }
      r, step, cause := OpenBatch(started, setup, txn, reply.value);
      ExtendsKeepsCount(asked, audit.log);
    }

    /** The opening batch, once its calls have been checked. */
    method OpenBatch(started: Snapshot, ghost setup: Log, ghost txn: Txn, reply: Reply)
      returns (r: Option<seq<Receipt>>, ghost step: Step, ghost cause: Cause)
      requires Valid() && tools.claimed == {} && tools.toolbox.executions == 0 && |provider.sent| <= 3
      requires setup == SETUP + [InvestigationStarted(started)] && audit.log == setup + TxnEvents(txn)
      requires txn.phase == Opening && txn.packet == OpeningPacket(cfg.profile) && txn.observations == []
      requires txn.catalog == Catalog(cfg) && txn.reply == reply && TxnOk(cfg, FRESH, txn)
      requires OpeningChecked(cfg, reply.calls)
      requires FRESH == started.meter && 0.0 <= started.elapsed <= clock.now - budget.started
      requires budget.fired == None && budget.View() == Charged(FRESH, reply.usage, txn.callCost)
      modifies audit, budget, clock, tools`claimed, tools.toolbox
      ensures Valid() && clock.now >= old(clock.now) && Extends(old(audit.log), audit.log)
      ensures r.Some? ==>
        && step.OpeningStep? && OpeningOk(cfg, step) && step.txn == txn && r.value == step.receipts
        && Holds([step]) && budget.fired == None && budget.toolCalls >= 1
      ensures r == None ==> Explained(cfg, [], cause, budget.View(), audit.log)
    {
      hide LogOf, TxnEvents, Account, Receipts, Where, Interleaved, ElapsedAt, OptionsOk, ToolRegistry.Valid,
           ResultOf, ReceiptOf, AllRan, Progress, Unstarted, Charged, Explained, AllAnswered, AtMostSix, Reported,
           WithinCaps, IdSet, AttemptsOk, ReplyAccepted;
      ghost var workers, events, starts, ends;
      step, cause := *, CapReached;
      r, workers, events, starts, ends := tools.ExecuteBatch(reply.calls);
      if r == None {
        cause := WhyNotOpened(setup, txn, workers, events, starts, ends);
        return;
      }
      var ids := ReceiptIds(r.value);
      audit.Append(OpeningCompleted(reply.responseId, |reply.calls|, |r.value|, 0, ids));
      step := OpeningStep(started, txn, r.value, events, starts, ends);
      OpenedStep(step);
      ReportedAll(tools.toolbox.answers, workers, r.value, Receipts(LogOf([step])));
    }

    /** One request of a closing phase, and its single call. */
    method AskOnce(phase: Phase, packet: Packet, observations: seq<Observation>, form: Function, ghost steps: seq<Step>)
      returns (call: Option<Call>, ghost txn: Txn, ghost cause: Cause)
      requires Holds(steps) && Awaits(steps, form)
      modifies audit, budget, clock, provider
      ensures Valid() && clock.now >= old(clock.now) && AtMost(|steps| + 1)
      ensures call == None ==> Explained(cfg, steps, cause, budget.View(), audit.log)
      ensures call.Some? ==>
        && txn.phase == phase && txn.packet == packet && txn.observations == observations && txn.catalog == [form]
        && txn.reply.calls == [call.value] && FunctionOf(call.value.action) == form
        && Closes(steps, txn)
    {
      hide Explained, LogOf, TxnOk, TxnEvents, Where, Account, Receipts, IdSet, ElapsedAt, Unanswered;
      call := None;
      var reply;
      reply, txn, cause := model.Create(phase, packet, observations, [form]);
      if reply == None {
        ExplainedByClient(cfg, steps, cause, budget.View(), audit.log, |LogOf(steps)|);
        return;
      }
      if |reply.value.calls| != 1 || FunctionOf(reply.value.calls[0].action) != form {
        WrongForm(cfg, steps, reply.value, form);
        cause := WhyUnfit(steps, txn);
        return;
      }
      call := Some(reply.value.calls[0]);
    }

    /** A closing answer that is not one to act on. */
    lemma WhyUnfit(steps: seq<Step>, txn: Txn) returns (cause: Cause)
      requires audit.log == LogOf(steps) + TxnEvents(txn) && !ReplyAllowed(cfg, steps, txn.reply)
      requires steps != [] && !steps[|steps| - 1].OpeningStep? && !steps[|steps| - 1].TurnStep?
      ensures Explained(cfg, steps, cause, budget.View(), audit.log)
    {
      hide LogOf, ReplyAllowed, TxnEvents, Explained;
      assert [] + TxnEvents(txn) == TxnEvents(txn);
      cause := ExplainedByReply(cfg, steps, budget.View(), [], txn, audit.log);
    }

    /** A closing request has been answered, and nothing done about it yet. */
    ghost predicate Closes(steps: seq<Step>, txn: Txn)
      reads this, model, tools, tools.toolbox, budget, clock, audit, provider
    {
      && Valid()
      && TxnOk(cfg, Accounting(LogOf(steps)), txn)
      && audit.log == LogOf(steps) + TxnEvents(txn)
      && Ran(steps)
      && ElapsedAt(steps) <= clock.now - budget.started
      && RequestCount(LogOf(steps)) == |steps| && |provider.sent| <= 3 * (|steps| + 1)
      && budget.fired == None
      && budget.View() == Charged(Accounting(LogOf(steps)), txn.reply.usage, txn.callCost)
    }

    /** After a closing phase's own events the state is that of one more step. */
    lemma Rejoin(steps: seq<Step>, s: Step)
      requires s.FinalizeStep? || s.JudgeStep? || s.ReportStep?
      requires Valid() && s.txn.reply.usage.Valid() && !s.txn.packet.InvestigatePacket?
      requires audit.log == LogOf(steps) + TxnEvents(s.txn) + After(s)
      requires Ran(steps) && RequestCount(LogOf(steps)) == |steps|
      requires |provider.sent| <= 3 * (|steps| + 1)
      requires ElapsedAt(steps) <= clock.now - budget.started
      requires budget.View() == Charged(Accounting(LogOf(steps)), s.txn.reply.usage, s.txn.callCost)
      ensures Holds(steps + [s])
    {
      ClosingStep(steps, s);
      ElapsedStays(steps, s);
    }

    /** `_finalize_investigation`, with the judge's start right after it. */
    method Serialize(notes: Text, results: seq<Receipt>, turns: nat, ghost steps: seq<Step>)
      returns (r: Option<Investigation>, ghost step: Step, ghost cause: Cause)
      requires Holds(steps) && steps != [] && notes == NotesAt(steps) && results == Remembered(steps)
      requires turns == |steps| - 1 && steps[|steps| - 1].TerminalStep?
      modifies audit, budget, clock, provider
      ensures Valid() && clock.now >= old(clock.now) && AtMost(|steps| + 1)
      ensures r.Some? ==>
        && step.FinalizeStep? && FinalizeOk(cfg, steps, step) && TxnOk(cfg, Accounting(LogOf(steps)), step.txn)
        && step.investigation == r.value && Holds(steps + [step]) && budget.fired == None
      ensures r == None ==> Explained(cfg, steps, cause, budget.View(), audit.log)
    {
      hide LogOf, Account, Receipts, Where, ElapsedAt, NotesAt, Remembered, InvestigateInput, SourcesOf, IndexOf,
           Views, Explained, InvestigationAccepted, FindingsFor, TxnEvents, Charged, WithinCaps, OptionsOk;
      r := None;
      step := *;
      var receipts := Receipts(audit.log);
      var call;
      ghost var txn;
      call, txn, cause := AskOnce(Finalize, FinalizePacket(cfg.profile, notes, IndexOf(cfg, receipts)),
                           Views(cfg, results, true), InvestigationForm, steps);
      if call.Some? && call.value.action.SubmitInvestigation? {
        var raw := call.value.action.raw;
        r := ParseInvestigation(cfg.scan, cfg.sha, SourcesOf(cfg, results), raw, turns);
        if r.Some? {
          var investigation := r.value;
          audit.Append(Finished(notes, investigation));
          audit.Append(JudgeStarted(|investigation.findings|, |receipts|));
          step := FinalizeStep(notes, txn, investigation, |receipts|);
          Rejoin(steps, step);
        } else {
          cause := WhyUnfit(steps, txn);
        }
      }
    }

    /** `_judge`, with the report's start right after it. */
    method Review(investigation: Investigation, ghost steps: seq<Step>)
      returns (r: Option<seq<Verdict>>, ghost step: Step, ghost cause: Cause)
      requires Holds(steps) && steps != [] && steps[|steps| - 1].FinalizeStep?
      requires investigation == steps[|steps| - 1].investigation
      modifies audit, budget, clock, provider
      ensures Valid() && clock.now >= old(clock.now) && AtMost(|steps| + 1)
      ensures r.Some? ==>
        && step.JudgeStep? && JudgeOk(cfg, steps, step) && TxnOk(cfg, Accounting(LogOf(steps)), step.txn)
        && step.verdicts == r.value && Holds(steps + [step]) && budget.fired == None
      ensures r == None ==> Explained(cfg, steps, cause, budget.View(), audit.log)
    {
      hide Explained, StepsOk, LogOf, Account, Receipts, Where, ElapsedAt, NotesAt, Remembered, SourcesOf, IndexOf,
           VerdictsAccepted, VerdictsFor, TxnEvents, FactsOf, Charged, WithinCaps, OptionsOk;
      r := None;
      step := *;
      var receipts := Receipts(audit.log);
      var call;
      ghost var txn;
      call, txn, cause := AskOnce(Judge, JudgePacket(cfg.profile, investigation.caseNotes, investigation.findings,
                                              IndexOf(cfg, receipts)), [], JudgmentForm, steps);
      if call.Some? && call.value.action.SubmitJudgment? {
        r := ParseVerdicts(cfg.scan, FactsOf(SourcesOf(cfg, receipts)), investigation.findings, call.value.action.raws);
        if r.Some? {
          audit.Append(JudgeCompleted(r.value));
          audit.Append(ReportStarted);
          step := JudgeStep(txn, r.value);
          Rejoin(steps, step);
        } else {
          cause := WhyUnfit(steps, txn);
        }
      }
    }

    /** The report draft, parsed against the findings and verdicts. */
    method AskReport(investigation: Investigation, verdicts: seq<Verdict>, ghost steps: seq<Step>)
      returns (draft: Option<Draft>, ghost txn: Txn, ghost cause: Cause)
      requires Holds(steps) && Adjudged(steps, investigation, verdicts)
      modifies audit, budget, clock, provider
      ensures Valid() && clock.now >= old(clock.now) && AtMost(|steps| + 1)
      ensures draft.Some? ==>
        && txn.phase == Report && txn.packet == ReportPacket(cfg.profile, investigation, verdicts)
        && txn.observations == [] && txn.catalog == [ReportForm]
        && |txn.reply.calls| == 1 && FirstCall(txn).action == SubmitReport(draft.value)
        && DraftOk(cfg, draft.value, investigation.findings, verdicts)
        && Closes(steps, txn)
      ensures draft == None ==> Explained(cfg, steps, cause, budget.View(), audit.log)
    {
      hide Explained, LogOf, TxnOk, TxnEvents, Where, Account, Receipts, IdSet, ElapsedAt, DraftOk, Charged;
      draft := None;
      var call;
      call, txn, cause := AskOnce(Report, ReportPacket(cfg.profile, investigation, verdicts), [], ReportForm, steps);
      if call.Some? && call.value.action.SubmitReport? {
        if DraftOk(cfg, call.value.action.draft, investigation.findings, verdicts) {
          draft := Some(call.value.action.draft);
        } else {
          cause := WhyUnfit(steps, txn);
        }
      }
    }

    /** `_report`, the last deadline check, and the custody and artifact receipts of a run
        that completed. */
    method Publish(investigation: Investigation, verdicts: seq<Verdict>, ghost steps: seq<Step>)
      returns (ok: bool, ghost step: Step, ghost cause: Cause)
      requires Holds(steps) && Adjudged(steps, investigation, verdicts)
      modifies audit, budget, clock, provider
      ensures Valid() && clock.now >= old(clock.now) && AtMost(|steps| + 1)
      ensures ok ==>
        && step.ReportStep? && Reports(cfg, investigation, verdicts, step)
        && TxnOk(cfg, Accounting(LogOf(steps)), step.txn)
        && step.budget.meter == Charged(Accounting(LogOf(steps)), step.txn.reply.usage, step.txn.callCost)
        && WithinCaps(cfg.caps, step.budget.meter)
        && ElapsedAt(steps) <= step.budget.elapsed
        && audit.log == LogOf(steps) + TxnEvents(step.txn) + After(step)
      ensures !ok ==> Explained(cfg, steps, cause, budget.View(), audit.log)
    {
      hide Explained;
      ok := false;
      step := *;
      var draft;
      ghost var txn;
      draft, txn, cause := AskReport(investigation, verdicts, steps);
      if draft.Some? {
        var report := cfg.render(investigation, verdicts, draft.value);
        ghost var asked := audit.log;
        var snapshot := Release(draft.value, report, |investigation.findings|, |verdicts|);
        ExtendsKeepsCount(asked, audit.log);
        if snapshot.Some? {
          step := ReportStep(txn, draft.value, report, |investigation.findings|, |verdicts|, snapshot.value);
          ok := true;
        } else {
          cause := CapReached;
          ExplainedByCap(cfg, steps, budget.View(), audit.log);
        }
      }
    }

    /** The report's receipt, the last deadline check, a snapshot that reads the clock again,
        and the receipts of custody and of the root artifacts. */
    method Release(draft: Draft, report: Text, findings: nat, verdicts: nat) returns (snapshot: Option<Snapshot>)
      requires Valid()
      modifies audit, budget, clock
      ensures Valid() && clock.now >= old(clock.now) && Extends(old(audit.log), audit.log)
      ensures snapshot == None ==> budget.fired.Some?
      ensures snapshot.Some? ==> budget.fired == None && old(clock.now) - budget.started < cfg.caps.maxWallSeconds
      ensures snapshot.Some? ==>
        && snapshot.value.meter == old(budget.View())
        && old(clock.now) - budget.started <= snapshot.value.elapsed
        && audit.log == old(audit.log) + ([ReportCompleted(draft.findingIds, draft.spanIds, report),
                                           InvestigationCompleted(findings, verdicts, snapshot.value)] + CLOSE)
    {
      audit.Append(ReportCompleted(draft.findingIds, draft.spanIds, report));
      var now := clock.Read();
      ApplyKeeps(cfg.caps, budget.View(), OpCheck(now - budget.started));
      var checked := budget.Check(now);
      if !checked.Ok? { return None; }
      now := clock.Read();
      snapshot := Some(Snapshot(budget.View(), now - budget.started));
      audit.Append(InvestigationCompleted(findings, verdicts, snapshot.value));
      CloseBundle(true);
    }

    /** The adaptive loop: it ends because every nonterminal turn uses up a tool call. */
    method AdaptiveLoop(first: seq<Receipt>, ghost opening: Step)
      returns (done: bool, notes: Text, results: seq<Receipt>, turns: nat, ghost steps: seq<Step>, ghost cause: Cause)
      requires Holds([opening]) && StepsOk(cfg, [opening]) && opening.OpeningStep? && first == opening.receipts
      requires 1 <= budget.toolCalls && budget.fired == None
      modifies audit, budget, clock, provider, tools`claimed, tools.toolbox
      ensures Valid() && clock.now >= old(clock.now)
      ensures !done ==> AtMost(|steps| + 1) && |steps| <= cfg.caps.maxToolCalls
      ensures !done ==> StepsOk(cfg, steps) && Explained(cfg, steps, cause, budget.View(), audit.log)
      ensures done ==>
        && Holds(steps) && StepsOk(cfg, steps) && Terminated(steps)
        && notes == NotesAt(steps) && results == Remembered(steps) && turns == |steps| - 1 <= cfg.caps.maxToolCalls
    {
      hide TxnOk, StepsOk, LogOf, Account, Receipts, Where, ElapsedAt, OpeningOk, TurnOk, TerminalOk, Explained;
      done, notes, results, turns, steps, cause := false, [], first, 1, [opening], CapReached;
      var latest := first;
      var r := Halted;
      while !done
        invariant !done ==>
          && Holds(steps) && StepsOk(cfg, steps) && InProgress(steps) && budget.fired == None
          && notes == NotesAt(steps) && latest == Latest(steps) && results == Remembered(steps)
          && turns == |steps| <= budget.toolCalls
        invariant clock.now >= old(clock.now)
        invariant done ==>
          && Holds(steps) && StepsOk(cfg, steps) && Terminated(steps)
          && notes == NotesAt(steps) && results == Remembered(steps) && turns == |steps| - 1 <= cfg.caps.maxToolCalls
        decreases !done, cfg.caps.maxToolCalls - budget.toolCalls
      {
        ghost var step;
        LastOf(steps);
        r, step, cause := Turn(turns, notes, latest, steps);
        match r {
          case Halted => return;
          case Acted(now, receipt) =>
            OneMoreTurn(cfg, steps, step);
            notes, latest, results, turns := now, [receipt], results + [receipt], turns + 1;
          case Concluded =>
            LastTurn(cfg, steps, step);
            done := true;
        }
        steps := steps + [step];
      }
    }

    /** Serialization, judgment and report, once the turns are over. */
    method Close(notes: Text, results: seq<Receipt>, turns: nat, ghost before: seq<Step>)
      returns (complete: bool, ghost steps: seq<Step>, ghost cause: Cause)
      requires Holds(before) && StepsOk(cfg, before) && Terminated(before)
      requires notes == NotesAt(before) && results == Remembered(before) && turns == |before| - 1
      modifies audit, budget, clock, provider
      ensures Valid() && clock.now >= old(clock.now) && AtMost(|before| + 3)
      ensures complete ==> Complete(steps) && StepsOk(cfg, steps) && audit.log == LogOf(steps)
      ensures !complete ==> AtMost(|steps| + 1)
      ensures !complete ==> StepsOk(cfg, steps) && Explained(cfg, steps, cause, budget.View(), audit.log)
    {
      hide Explained, StepsOk;
      complete, steps := false, before;
      ghost var step;
      var investigation;
      investigation, step, cause := Serialize(notes, results, turns, before);
      if investigation.Some? {
        SerializedMore(cfg, before, step);
        complete, steps, cause := Adjudicate(investigation.value, before, before + [step]);
      }
    }

    /** Judgment and report, once the findings are recorded. */
    method Adjudicate(investigation: Investigation, ghost turns: seq<Step>, ghost before: seq<Step>)
      returns (complete: bool, ghost steps: seq<Step>, ghost cause: Cause)
      requires Terminated(turns) && |before| == |turns| + 1 && before[..|turns|] == turns && before[|turns|].FinalizeStep?
      requires Holds(before) && StepsOk(cfg, before) && investigation == before[|turns|].investigation
      modifies audit, budget, clock, provider
      ensures Valid() && clock.now >= old(clock.now) && AtMost(|turns| + 3)
      ensures complete ==> Complete(steps) && StepsOk(cfg, steps) && audit.log == LogOf(steps)
      ensures !complete ==> AtMost(|steps| + 1)
      ensures !complete ==> StepsOk(cfg, steps) && Explained(cfg, steps, cause, budget.View(), audit.log)
    {
      hide Explained, JudgeOk, TxnOk, Reports, StepsOk, LogOf, After, TxnEvents, Account, Receipts, ElapsedAt, Charged,
           WithinCaps, Where, Terminated;
      complete, steps := false, before;
      ghost var step;
      var verdicts;
      verdicts, step, cause := Review(investigation, before);
      if verdicts.Some? {
        ghost var judged := before + [step];
        JudgedMore(cfg, before, step);
        steps := judged;
        complete, step, cause := Publish(investigation, verdicts.value, judged);
        if complete {
          PublishedMore(cfg, turns, judged, step);
          steps := judged + [step];
        }
      }
    }

    /** The whole run, from the command line's first event to its last. */
    method RunCase() returns (complete: bool, ghost steps: seq<Step>, ghost cause: Cause, ghost stopped: Log)
      requires Valid() && audit.log == [] && tools.claimed == {} && budget.View() == FRESH && provider.sent == []
      requires tools.toolbox.executions == 0
      modifies audit, budget, clock, provider, tools`claimed, tools.toolbox
      ensures AtMost(cfg.caps.maxToolCalls + 4)
      ensures complete ==> Complete(steps) && StepsOk(cfg, steps) && audit.log == LogOf(steps)
      ensures !complete ==> StepsOk(cfg, steps) && Explained(cfg, steps, cause, budget.View(), stopped)
      ensures !complete ==> AtMost(|steps| + 1) && audit.log == stopped + Partial(stopped, budget.View())
    {
      hide Explained, TxnOk, StepsOk, LogOf, Account, Receipts, Where, ElapsedAt, OpeningOk, NotesAt, Remembered,
           Partial, Reported, Ran, IdSet, InProgress, Terminated, FRESH;
      complete, steps, stopped := false, [], [];
      var started := SetUp();
      ghost var opening;
      var first;
      NothingLogged();
      NoSteps(cfg);
      first, opening, cause := OpenBook(started);
      if first.Some? {
        OpeningFirst(cfg, opening);
        var done, notes, results, turns;
        ghost var before;
        done, notes, results, turns, before, cause := AdaptiveLoop(first.value, opening);
        steps := before;
        if done { complete, steps, cause := Close(notes, results, turns, before); }
      }
      if !complete {
        stopped := audit.log;
        Abort();
        ExtendsKeepsCount(stopped, audit.log);
      }
    }

    /** The events before the agent starts, and its first snapshot. */
    method SetUp() returns (started: Snapshot)
      requires Valid() && audit.log == [] && budget.View() == FRESH
      modifies audit, clock
      ensures Valid() && audit.log == SETUP + [InvestigationStarted(started)]
      ensures started.meter == FRESH && 0.0 <= started.elapsed <= clock.now - budget.started
    {
      audit.Append(RunCreated);
      audit.Append(CapsConfigured);
      audit.Append(CustodyInitialStarted);
      audit.Append(CustodyInitialCompleted);
      audit.Append(ProfileCompleted);
      var now := clock.Read();
      started := Snapshot(budget.View(), now - budget.started);
      audit.Append(InvestigationStarted(started));
    }

    /** The end of a run that did not complete: `_record_cap`, the last event of the
        investigation, and the bundle. */
    method Abort()
      requires Valid()
      modifies audit
      ensures audit.log == old(audit.log) + Partial(old(audit.log), budget.View())
      ensures Extends(old(audit.log), audit.log)
    {
      ghost var stopped := audit.log;
      match budget.fired {
        case Some((kind, _)) =>
          if CapFired(kind) !in audit.log { audit.Append(CapFired(kind)); }
          audit.Append(InvestigationStopped(Some(budget.View())));
        case None =>
          audit.Append(InvestigationStopped(None));
      }
      CloseBundle(false);
      PartialIsQuiet(stopped, budget.View());
    }

    /** What the command line appends after the agent has finished. */
    method CloseBundle(complete: bool)
      modifies audit
      ensures audit.log == old(audit.log) + Bundle(complete)
    {
      audit.Append(CustodyFinalStarted);
      audit.Append(CustodyFinalCompleted);
      var i := 0;
      while i < |ARTIFACT_EVENTS|
        invariant 0 <= i <= |ARTIFACT_EVENTS|
        invariant audit.log == old(audit.log) + [CustodyFinalStarted, CustodyFinalCompleted] + ARTIFACT_EVENTS[..i]
      {
        audit.Append(ARTIFACT_EVENTS[i]);
        i := i + 1;
      }
      audit.Append(RunCompleted(complete));
      Joined(old(audit.log), [CustodyFinalStarted, CustodyFinalCompleted], ARTIFACT_EVENTS + [RunCompleted(complete)]);
      Joined(old(audit.log) + [CustodyFinalStarted, CustodyFinalCompleted], ARTIFACT_EVENTS, [RunCompleted(complete)]);
    }
  }

  lemma PartialIsQuiet(log: Log, m: Meter)
    ensures Extends(log, log + Partial(log, m))
    ensures var whole := log + Partial(log, m); whole[|whole| - 1] == RunCompleted(false)
  {}

  /** Each receipt says what its function answered. */
  predicate Reported(answers: map<Text, Answer>, receipts: seq<Receipt>) {
    forall r :: r in receipts ==> AsAnswered(answers, r, false)
  }

  lemma ReportedMore(before: map<Text, Answer>, answers: map<Text, Answer>, receipts: seq<Receipt>, c: Call, r: Receipt)
    requires Reported(before, receipts) && c.id !in IdSet(receipts) && AnsweredNow(before, answers, c, r, false)
    ensures Reported(answers, receipts + [r])
  {
    forall x | x in receipts ensures AsAnswered(answers, x, false) { assert x.id in IdSet(receipts); }
  }

  lemma ReportedAll(answers: map<Text, Answer>, workers: seq<Worker>, receipts: seq<Receipt>, listed: seq<Receipt>)
    requires AllAnswered(answers, workers, false) && |workers| == |receipts|
    requires forall i :: 0 <= i < |workers| ==> workers[i] == Ended(receipts[i])
    requires forall r :: r in listed <==> r in receipts
    ensures Reported(answers, listed)
  {
    forall r | r in listed ensures AsAnswered(answers, r, false) {
      var i :| 0 <= i < |receipts| && receipts[i] == r;
      assert workers[i].Finished();
    }
  }

  lemma NothingLogged()
    ensures LogOf([]) == [] && Parts([]) == []
  {}

  lemma AdmissibleCalls(cfg: Config, calls: seq<Call>)
    ensures Admissible(cfg, {}, calls) ==>
      |calls| <= MAX_OPENING_TOOLS && forall i :: 0 <= i < |calls| ==> ToolRegistry.Valid(cfg, calls[i])
  {}

  lemma NoSteps(cfg: Config)
    ensures StepsOk(cfg, [])
  {}

  /** The form the next closing answer must take. */
  predicate Awaits(steps: seq<Step>, form: Function) {
    && steps != []
    && match steps[|steps| - 1]
       case TerminalStep(_, _, _) => form == InvestigationForm
       case FinalizeStep(_, _, _, _) => form == JudgmentForm
       case JudgeStep(_, _) => form == ReportForm
       case _ => false
  }

  /** The last two steps concluded this investigation and these verdicts. */
  predicate Adjudged(steps: seq<Step>, investigation: Investigation, verdicts: seq<Verdict>) {
    && |steps| >= 2 && steps[|steps| - 1].JudgeStep? && steps[|steps| - 1].verdicts == verdicts
    && steps[|steps| - 2].FinalizeStep? && steps[|steps| - 2].investigation == investigation
  }

  lemma LastOf(steps: seq<Step>)
    requires InProgress(steps)
    ensures steps[|steps| - 1].OpeningStep? || steps[|steps| - 1].TurnStep?
  {}

  /** Turns all the way to the terminal one. */
  predicate Terminated(steps: seq<Step>) {
    && |steps| >= 2 && InProgress(steps[..|steps| - 1]) && steps[|steps| - 1].TerminalStep?
  }

  lemma OpeningFirst(cfg: Config, s: Step)
    requires s.OpeningStep? && OpeningOk(cfg, s) && TxnOk(cfg, FRESH, s.txn)
    ensures StepsOk(cfg, [s]) && NotesAt([s]) == [] && Latest([s]) == s.receipts && Remembered([s]) == s.receipts
  {
    assert LogOf([]) == [] && [][..0] + [s] == [s];
    StepsOkMore(cfg, [], s);
    assert [s][..0] == [] && Remembered([]) == [];
  }

  lemma OneMoreTurn(cfg: Config, steps: seq<Step>, s: Step)
    requires StepsOk(cfg, steps) && InProgress(steps)
    requires s.TurnStep? && TurnOk(cfg, steps, s) && TxnOk(cfg, Accounting(LogOf(steps)), s.txn)
    ensures StepsOk(cfg, steps + [s]) && InProgress(steps + [s])
    ensures NotesAt(steps + [s]) == s.notes && Latest(steps + [s]) == [s.receipt]
    ensures Remembered(steps + [s]) == Remembered(steps) + [s.receipt]
  {
    StepsOkMore(cfg, steps, s);
    assert (steps + [s])[..|steps|] == steps;
  }

  lemma LastTurn(cfg: Config, steps: seq<Step>, s: Step)
    requires StepsOk(cfg, steps) && InProgress(steps)
    requires s.TerminalStep? && TerminalOk(cfg, steps, s) && TxnOk(cfg, Accounting(LogOf(steps)), s.txn)
    ensures StepsOk(cfg, steps + [s]) && Terminated(steps + [s])
    ensures NotesAt(steps + [s]) == NotesAt(steps) && Remembered(steps + [s]) == Remembered(steps)
  {
    StepsOkMore(cfg, steps, s);
    assert (steps + [s])[..|steps|] == steps;
  }

  lemma SerializedMore(cfg: Config, before: seq<Step>, s: Step)
    requires StepsOk(cfg, before) && s.FinalizeStep?
    requires FinalizeOk(cfg, before, s) && TxnOk(cfg, Accounting(LogOf(before)), s.txn)
    ensures StepsOk(cfg, before + [s])
  {
    StepsOkMore(cfg, before, s);
  }

  lemma JudgedMore(cfg: Config, before: seq<Step>, s: Step)
    requires StepsOk(cfg, before) && s.JudgeStep?
    requires JudgeOk(cfg, before, s) && TxnOk(cfg, Accounting(LogOf(before)), s.txn)
    ensures StepsOk(cfg, before + [s])
  {
    StepsOkMore(cfg, before, s);
  }

  lemma PublishedMore(cfg: Config, turns: seq<Step>, before: seq<Step>, s: Step)
    requires Terminated(turns) && |before| == |turns| + 2 && before[..|turns|] == turns
    requires before[|turns|].FinalizeStep? && before[|turns| + 1].JudgeStep?
    requires StepsOk(cfg, before) && s.ReportStep? && TxnOk(cfg, Accounting(LogOf(before)), s.txn)
    requires Reports(cfg, before[|turns|].investigation, before[|turns| + 1].verdicts, s)
    requires s.budget.meter == Charged(Accounting(LogOf(before)), s.txn.reply.usage, s.txn.callCost)
    requires WithinCaps(cfg.caps, s.budget.meter) && ElapsedAt(before) <= s.budget.elapsed
    ensures StepsOk(cfg, before + [s]) && Complete(before + [s])
    ensures LogOf(before + [s]) == LogOf(before) + TxnEvents(s.txn) + After(s)
  {
    ReportMeter(before, s.txn);
    StepsOkMore(cfg, before, s);
    ClosingStep(before, s);
    CompleteSteps(turns, before, s);
  }

  lemma CompleteSteps(turns: seq<Step>, before: seq<Step>, s: Step)
    requires Terminated(turns) && |before| == |turns| + 2 && before[..|turns|] == turns
    requires before[|turns|].FinalizeStep? && before[|turns| + 1].JudgeStep? && s.ReportStep?
    ensures Complete(before + [s])
  {
    var steps, n := before + [s], |turns| - 1;
    assert steps[..n] == before[..|turns|][..n] == turns[..n];
    assert steps[n] == before[..|turns|][n];
  }

  lemma ReportMeter(steps: seq<Step>, t: Txn)
    requires t.reply.usage.Valid()
    ensures Accounting(LogOf(steps) + TxnEvents(t)) == Charged(Accounting(LogOf(steps)), t.reply.usage, t.callCost)
  {
    TxnAccount(Accounting(LogOf(steps)), t);
    AccountConcat(FRESH, LogOf(steps), TxnEvents(t));
  }

  lemma ClosingEvents(log: Log, s: Step)
    requires s.FinalizeStep? || s.JudgeStep? || s.ReportStep?
    ensures log + EventsOf(s) == log + TxnEvents(s.txn) + After(s)
  {
    assert EventsOf(s) == TxnEvents(s.txn) + After(s);
    Joined(log, TxnEvents(s.txn), After(s));
  }

  /** A closing phase as the steps see it. */
  lemma ClosingStep(steps: seq<Step>, s: Step)
    requires s.FinalizeStep? || s.JudgeStep? || s.ReportStep?
    requires s.txn.reply.usage.Valid() && !s.txn.packet.InvestigatePacket?
    ensures LogOf(steps + [s]) == LogOf(steps) + TxnEvents(s.txn) + After(s)
    ensures Accounting(LogOf(steps + [s])) == Charged(Accounting(LogOf(steps)), s.txn.reply.usage, s.txn.callCost)
    ensures Receipts(LogOf(steps + [s])) == Receipts(LogOf(steps))
    ensures RequestCount(LogOf(steps + [s])) == RequestCount(LogOf(steps)) + 1
  {
    OtherAfter(Charged(Accounting(LogOf(steps)), s.txn.reply.usage, s.txn.callCost), s);
    StepLogged(steps, s);
    ClosingEvents(LogOf(steps), s);
  }

  lemma ElapsedStays(steps: seq<Step>, s: Step)
    requires !s.OpeningStep? && !s.txn.packet.InvestigatePacket?
    ensures ElapsedAt(steps + [s]) == ElapsedAt(steps)
  {
    assert (steps + [s])[..|steps|] == steps;
  }

  /** The opening as the first step. */
  lemma OpenedStep(s: Step)
    requires s.OpeningStep? && s.txn.reply.usage.Valid()
    requires Interleaved(s.txn.reply.calls, s.receipts, s.tools, s.starts, s.ends)
    ensures LogOf([s]) == SETUP + [InvestigationStarted(s.started)] + TxnEvents(s.txn) + s.tools
                          + [OpeningCompleted(s.txn.reply.responseId, |s.txn.reply.calls|, |s.receipts|, 0, ReceiptIds(s.receipts))]
    ensures Accounting(LogOf([s]))
         == var m := Charged(FRESH, s.txn.reply.usage, s.txn.callCost); m.(toolCalls := m.toolCalls + |s.txn.reply.calls|)
    ensures IdSet(Receipts(LogOf([s]))) == (set id | id in CallIds(s.txn.reply.calls))
    ensures |Receipts(LogOf([s]))| == |s.receipts| && forall r :: r in Receipts(LogOf([s])) <==> r in s.receipts
    ensures RequestCount(LogOf([s])) == 1
    ensures ElapsedAt([s]) == s.started.elapsed
  {
    var m := Charged(FRESH, s.txn.reply.usage, s.txn.callCost);
    OpeningAfter(m, s);
    StepLogged([], s);
    assert [] + [s] == [s] && LogOf([]) == [];
    OpeningLog(s);
  }

  lemma OpeningLog(s: Step)
    requires s.OpeningStep?
    ensures [] + EventsOf(s) == SETUP + [InvestigationStarted(s.started)] + TxnEvents(s.txn) + s.tools
                          + [OpeningCompleted(s.txn.reply.responseId, |s.txn.reply.calls|, |s.receipts|, 0, ReceiptIds(s.receipts))]
  {
    var done := [OpeningCompleted(s.txn.reply.responseId, |s.txn.reply.calls|, |s.receipts|, 0, ReceiptIds(s.receipts))];
    Joined(Before(s), TxnEvents(s.txn), After(s));
    Joined(Before(s) + TxnEvents(s.txn), s.tools, done);
  }

  lemma OpeningAfter(m: Meter, s: Step)
    requires s.OpeningStep? && Interleaved(s.txn.reply.calls, s.receipts, s.tools, s.starts, s.ends)
    ensures Account(m, After(s)) == m.(toolCalls := m.toolCalls + |s.txn.reply.calls|)
    ensures IdSet(Receipts(After(s))) == (set id | id in CallIds(s.txn.reply.calls))
    ensures |Receipts(After(s))| == |s.receipts| && forall r :: r in Receipts(After(s)) <==> r in s.receipts
    ensures RequestCount(After(s)) == 0
  {
    var done := [OpeningCompleted(s.txn.reply.responseId, |s.txn.reply.calls|, |s.receipts|, 0, ReceiptIds(s.receipts))];
    InterleavedTools(m, s.txn.reply.calls, s.receipts, s.tools, s.starts, s.ends);
    AccountConcat(m, s.tools, done);
    AccountQuiet(Account(m, s.tools), done);
    ReceiptsConcat(s.tools, done);
    WhereNone(After(s), IsRequest);
    SameIds(s.txn.reply.calls, s.receipts, Receipts(s.tools));
  }

  lemma SameIds(calls: seq<Call>, receipts: seq<Receipt>, listed: seq<Receipt>)
    requires |receipts| == |calls| && forall i :: 0 <= i < |calls| ==> receipts[i].id == calls[i].id
    requires forall r :: r in listed <==> r in receipts
    ensures IdSet(listed) == (set id | id in CallIds(calls))
  {
    forall id | id in CallIds(calls) ensures id in IdSet(listed) {
      var i :| 0 <= i < |calls| && CallIds(calls)[i] == id;
      assert receipts[i] in listed;
    }
    forall id | id in IdSet(listed) ensures id in CallIds(calls) {
      var r :| r in listed && r.id == id;
      var i :| 0 <= i < |receipts| && receipts[i] == r;
      assert CallIds(calls)[i] == id;
    }
  }

  lemma IdsOfMore(receipts: seq<Receipt>, r: Receipt)
    ensures IdSet(receipts + [r]) == IdSet(receipts) + {r.id}
  {
    assert (receipts + [r])[|receipts|] == r;
  }

  lemma IdsAreSet(receipts: seq<Receipt>)
    ensures forall id :: id in ReceiptIds(receipts) <==> id in IdSet(receipts)
  {
    forall id | id in IdSet(receipts) ensures id in ReceiptIds(receipts) {
      var r :| r in receipts && r.id == id;
      var i :| 0 <= i < |receipts| && receipts[i] == r;
      assert ReceiptIds(receipts)[i] == id;
    }
  }

  lemma AskedReceipts(log: Log, turn: nat, notice: Option<int>, t: Txn)
    requires t.reply.usage.Valid()
    ensures Receipts(log + (Notice(turn, notice) + TxnEvents(t))) == Receipts(log)
  {
    ReceiptsConcat(log, Notice(turn, notice) + TxnEvents(t));
    ReceiptsConcat(Notice(turn, notice), TxnEvents(t));
    AccountQuiet(FRESH, Notice(turn, notice));
    TxnAccount(FRESH, t);
  }

  /** A nonterminal turn as the steps see it. */
  lemma ActedStep(steps: seq<Step>, s: Step)
    requires s.TurnStep? && s.txn.reply.usage.Valid() && s.txn.packet.InvestigatePacket?
    ensures LogOf(steps + [s]) == LogOf(steps) + (Notice(s.turn, s.notice) + TxnEvents(s.txn))
                                  + TurnEvents(s.turn, s.update, s.notes, FirstCall(s.txn), s.receipt)
    ensures Accounting(LogOf(steps + [s]))
         == var m := Charged(Accounting(LogOf(steps)), s.txn.reply.usage, s.txn.callCost); m.(toolCalls := m.toolCalls + 1)
    ensures Receipts(LogOf(steps + [s])) == Receipts(LogOf(steps)) + [s.receipt]
    ensures IdSet(Receipts(LogOf(steps + [s]))) == IdSet(Receipts(LogOf(steps))) + {s.receipt.id}
    ensures RequestCount(LogOf(steps + [s])) == RequestCount(LogOf(steps)) + 1
    ensures ElapsedAt(steps + [s]) == s.txn.packet.budget.elapsed
  {
    var m := Charged(Accounting(LogOf(steps)), s.txn.reply.usage, s.txn.callCost);
    TurnAfter(m, s);
    WhereNone(After(s), IsRequest);
    StepLogged(steps, s);
    Joined(LogOf(steps), Notice(s.turn, s.notice) + TxnEvents(s.txn), After(s));
    Joined(Notice(s.turn, s.notice), TxnEvents(s.txn), After(s));
    IdsOfMore(Receipts(LogOf(steps)), s.receipt);
  }

  lemma ConcludedStep(steps: seq<Step>, s: Step)
    requires s.TerminalStep? && s.txn.reply.usage.Valid() && s.txn.packet.InvestigatePacket?
    ensures LogOf(steps + [s]) == LogOf(steps) + (Notice(s.turn, s.notice) + TxnEvents(s.txn))
                                  + [Done(s.turn, s.txn.reply.responseId, FirstCall(s.txn).id)]
    ensures Accounting(LogOf(steps + [s])) == Charged(Accounting(LogOf(steps)), s.txn.reply.usage, s.txn.callCost)
    ensures Receipts(LogOf(steps + [s])) == Receipts(LogOf(steps))
    ensures RequestCount(LogOf(steps + [s])) == RequestCount(LogOf(steps)) + 1
    ensures ElapsedAt(steps + [s]) == s.txn.packet.budget.elapsed
  {
    OtherAfter(Charged(Accounting(LogOf(steps)), s.txn.reply.usage, s.txn.callCost), s);
    StepLogged(steps, s);
    Joined(LogOf(steps), Notice(s.turn, s.notice) + TxnEvents(s.txn), After(s));
    Joined(Notice(s.turn, s.notice), TxnEvents(s.txn), After(s));
  }

  function TurnEvents(turn: nat, update: Text, notes: Text, call: Call, receipt: Receipt): Log {
    [NotesUpdated(turn, update, |Encode(update)|, notes), StartEvent(call), ToolCompleted(receipt),
     ActionTaken(turn, receipt.id, receipt.name, receipt.status)]
  }

  lemma NoticeIsQuiet(log: Log, turn: nat, notice: Option<int>)
    ensures Receipts(log + Notice(turn, notice)) == Receipts(log)
  {
    hide Receipts, Account;
    ReceiptsConcat(log, Notice(turn, notice));
    AccountQuiet(FRESH, Notice(turn, notice));
  }
}
