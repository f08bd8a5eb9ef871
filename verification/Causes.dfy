/** Why a run stops early: what its log and its meter show since the last step that was
    finished. */
module Causes {
  import opened Wrappers
  import opened Utf8
  import opened Citations
  import opened Findings
  import opened Verdicts
  import opened Caps
  import opened Events
  import opened Transactions
  import opened ModelClient
  import opened ToolRegistry
  import opened Script

  function IdSet(receipts: seq<Receipt>): set<Text> {
    set r | r in receipts :: r.id
  }

  /** An opening answer the controller acts on: up to twelve calls of different functions, each
      valid under an id of its own. */
  predicate OpeningAllowed(cfg: Config, calls: seq<Call>) {
    && calls != [] && Admissible(cfg, {}, calls)
    && forall i, j :: 0 <= i < j < |calls| ==> Name(calls[i]) != Name(calls[j])
  }

  /** An answer the adaptive loop acts on: the terminal action under a new id, or a ledger
      update with one call the registry admits. */
  predicate TurnAllowed(cfg: Config, claimed: set<Text>, reply: Reply) {
    && |reply.calls| == 1
    && var c := reply.calls[0];
       if c.action.Finish? then c.action == Finish(true) && c.id != [] && c.id !in claimed
       else UpdateOk(cfg, cfg.scan.strip(reply.message)) && Admissible(cfg, claimed, [c])
  }

  /** An answer the controller acts on after these steps. */
  predicate ReplyAllowed(cfg: Config, steps: seq<Step>, reply: Reply) {
    if steps == [] then OpeningAllowed(cfg, reply.calls)
    else
      match steps[|steps| - 1]
      case OpeningStep(_, _, _, _, _, _) => TurnAllowed(cfg, IdSet(Receipts(LogOf(steps))), reply)
      case TurnStep(_, _, _, _, _, _) => TurnAllowed(cfg, IdSet(Receipts(LogOf(steps))), reply)
      case TerminalStep(_, _, _) =>
        && |reply.calls| == 1 && reply.calls[0].action.SubmitInvestigation?
        && Conclusion(cfg, SourcesOf(cfg, Remembered(steps)), reply.calls[0].action.raw).Some?
      case FinalizeStep(_, _, investigation, _) =>
        && |reply.calls| == 1 && reply.calls[0].action.SubmitJudgment?
        && Decision(cfg, FactsOf(SourcesOf(cfg, Receipts(LogOf(steps)))), investigation.findings,
                    reply.calls[0].action.raws).Some?
      case JudgeStep(_, verdicts) =>
        && |reply.calls| == 1 && reply.calls[0].action.SubmitReport?
        && |steps| >= 2 && steps[|steps| - 2].FinalizeStep?
        && DraftOk(cfg, reply.calls[0].action.draft, steps[|steps| - 2].investigation.findings, verdicts)
      case ReportStep(_, _, _, _, _, _) => true
  }

  /** What the opening's answer is checked for before its calls are claimed. */
  predicate OpeningChecked(cfg: Config, calls: seq<Call>) {
    && 1 <= |calls| <= MAX_OPENING_TOOLS
    && (forall i, j :: 0 <= i < j < |calls| ==> Name(calls[i]) != Name(calls[j]))
    && forall i :: 0 <= i < |calls| ==> ToolRegistry.Valid(cfg, calls[i])
  }

  /** What a nonterminal turn writes before its call is refused: nothing for a literal DONE, an
      error for an update that is not one, else the notes. */
  function ToldOf(cfg: Config, turn: nat, notes: Text, update: Text): Log {
    if update == DONE then []
    else if !UpdateOk(cfg, update) then [ProtocolError]
    else [NotesUpdated(turn, update, |Encode(update)|, AppendNotes(notes, update))]
  }

  /** What is written about an answer that is not acted on; the closing phases write nothing. */
  function Told(cfg: Config, steps: seq<Step>, reply: Reply): Log {
    if steps == [] then if OpeningChecked(cfg, reply.calls) then [] else [ProtocolError]
    else if steps[|steps| - 1].OpeningStep? || steps[|steps| - 1].TurnStep? then
      if |reply.calls| != 1 || reply.calls[0].action.Finish? then [ProtocolError]
      else ToldOf(cfg, |steps|, NotesAt(steps), cfg.scan.strip(reply.message))
    else []
  }

  /** The log goes on from these steps, and shows after them why the run stopped: a cap fired,
      the client gave up, an answer was not one to act on, or an output was not retained. */
  predicate Explained(cfg: Config, steps: seq<Step>, cause: Cause, m: Meter, log: Log) {
    && LogOf(steps) <= log
    && match cause
       case ReplyRefused(p) =>
         && |LogOf(steps)| <= p < |log| && log[p].Response? && !ReplyAllowed(cfg, steps, log[p].reply)
         && log[p + 1..] == Told(cfg, steps, log[p].reply)
       case NotRetained(p) => |LogOf(steps)| <= p < |log| && log[p].OutputLost?
       case _ => Unanswered(cause, m, log, |LogOf(steps)|)
  }

  lemma ExplainedByCap(cfg: Config, steps: seq<Step>, m: Meter, log: Log)
    requires m.fired.Some? && LogOf(steps) <= log
    ensures Explained(cfg, steps, CapReached, m, log)
  {
    hide LogOf;
  }

  lemma ExplainedByClient(cfg: Config, steps: seq<Step>, cause: Cause, m: Meter, log: Log, n: nat)
    requires Unanswered(cause, m, log, n) && n >= |LogOf(steps)| && LogOf(steps) <= log
    ensures Explained(cfg, steps, cause, m, log)
  {
    hide LogOf, FailedAt, RefusedAt;
  }

  /** An answer that is not one to act on explains the run, with what was written about it. */
  lemma ExplainedByReply(cfg: Config, steps: seq<Step>, m: Meter, between: Log, t: Txn, log: Log) returns (cause: Cause)
    requires log == LogOf(steps) + (between + TxnEvents(t)) + Told(cfg, steps, t.reply) && !ReplyAllowed(cfg, steps, t.reply)
    ensures Explained(cfg, steps, cause, m, log)
  {
    hide LogOf, ReplyAllowed, Window, Told;
    var whole, p := LogOf(steps) + (between + TxnEvents(t)), |LogOf(steps)| + |between| + |TxnEvents(t)| - 1;
    assert whole[p] == TxnEvents(t)[|TxnEvents(t)| - 1] == ResponseEvent(t);
    assert log[p] == whole[p] && |whole| == p + 1;
    DropFront(whole, Told(cfg, steps, t.reply));
    cause := ReplyRefused(p);
  }

  lemma ExplainedByLoss(cfg: Config, steps: seq<Step>, m: Meter, log: Log, p: nat)
    requires LogOf(steps) <= log && |LogOf(steps)| <= p < |log| && log[p].OutputLost?
    ensures Explained(cfg, steps, NotRetained(p), m, log)
  {
    hide LogOf;
  }

  lemma LostIsWritten(calls: seq<Call>, workers: seq<Worker>, tools: Log, starts: seq<nat>, ends: seq<nat>) returns (p: nat)
    requires AllRan(calls, workers, tools, starts, ends) && exists i :: 0 <= i < |workers| && !workers[i].Ended?
    ensures p < |tools| && tools[p].OutputLost?
  {
    hide Receipts, Sum, WrittenOnce;
    var i :| 0 <= i < |workers| && !workers[i].Ended?;
    assert CallProgress(calls[i], workers[i], tools, starts[i], ends[i]);
    p := ends[i];
  }

  /** A closing answer of another form, or of several calls, is not one to act on. */
  lemma WrongForm(cfg: Config, steps: seq<Step>, reply: Reply, form: Function)
    requires steps != [] && (|reply.calls| != 1 || FunctionOf(reply.calls[0].action) != form)
    requires form == match steps[|steps| - 1]
                     case TerminalStep(_, _, _) => InvestigationForm
                     case FinalizeStep(_, _, _, _) => JudgmentForm
                     case JudgeStep(_, _) => ReportForm
                     case _ => FinishInvestigation
    requires !steps[|steps| - 1].OpeningStep? && !steps[|steps| - 1].TurnStep? && !steps[|steps| - 1].ReportStep?
    ensures !ReplyAllowed(cfg, steps, reply)
  {
    hide LogOf, Receipts, Remembered, SourcesOf, Conclusion, Decision, DraftOk;
  }
}
