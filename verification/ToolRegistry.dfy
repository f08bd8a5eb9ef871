/** The tool registry: every call claimed once, metered once and run once, an opening batch
    by up to six workers whose events interleave. */
module ToolRegistry {
  import opened Wrappers
  import opened Utf8
  import opened CanonicalJson
  import opened Caps
  import opened Events
  import opened Occurrences
  import opened Transactions
  import opened ModelClient

  const MAX_WORKERS := 6

  function Name(c: Call): Text {
    if c.action.Forensic? then c.action.name else []
  }

  function Arguments(c: Call): Json {
    if c.action.Forensic? then c.action.arguments else Null
  }

  function StartEvent(c: Call): Event {
    ToolStarted(c.id, Name(c), Arguments(c))
  }

  /** What a forensic function did with a call. */
  datatype Answer = Returned(output: Text, status: ToolStatus) | Raised(output: Text)

  /** The forensic functions, what they have answered by call id, and how often they were run. */
  class Toolbox {
    ghost var answers: map<Text, Answer>
    ghost var executions: nat

    constructor ()
      ensures answers == map[] && executions == 0
    {
      answers, executions := map[], 0;
    }

    method Call(c: Call) returns (a: Answer)
      modifies this
      ensures answers == old(answers)[c.id := a] && executions == old(executions) + 1
      ensures a.Returned? ==> a.status != Rejected && a.status != Capped
    {
      var output: Text := *;
      var status: ToolStatus := *;
      var raised: bool := *;
      if raised || status == Rejected || status == Capped {
        a := Raised(output);
      } else {
        a := Returned(output, status);
      }
      answers, executions := answers[c.id := a], executions + 1;
    }
  }

  /** The receipt says what the function answered: its output, and its status unless a cap that
      fired over the call made that a timeout; an exception is an error whatever fires. */
  predicate AsAnswered(answers: map<Text, Answer>, r: Receipt, fired: bool) {
    && r.id in answers && r.output == answers[r.id].output
    && match answers[r.id]
       case Raised(_) => r.status == Error
       case Returned(_, status) => r.status == status || (fired && r.status == Timeout)
  }

  /** The call's function was run, and answered what this receipt says. */
  predicate AnsweredNow(before: map<Text, Answer>, answers: map<Text, Answer>, c: Call, r: Receipt, fired: bool) {
    && c.id in answers && answers == before[c.id := answers[c.id]] && AsAnswered(answers, r, fired)
  }

  /** Every worker that has ended did so with what its function answered. */
  predicate AllAnswered(answers: map<Text, Answer>, workers: seq<Worker>, fired: bool) {
    forall i :: 0 <= i < |workers| && workers[i].Finished() ==> AsAnswered(answers, workers[i].receipt, fired)
  }

  /** The result of a call that ran. */
  predicate ResultOf(c: Call, r: Receipt) {
    && r.id == c.id && r.name == Name(c) && r.arguments == Arguments(c)
    && r.status != Rejected && r.status != Capped
  }

  /** Its receipt, once retained. */
  predicate ReceiptOf(c: Call, r: Receipt) {
    ResultOf(c, r) && Encodable(r.output)
  }

  /** `validate`. */
  predicate Valid(cfg: Config, c: Call) {
    && c.id != [] && c.valid && c.action.Forensic?
    && c.action.name in cfg.forensic && cfg.accepts(c.action.name, c.action.arguments)
  }

  /** The events of a batch: each call started at `starts[i]` and completed after that at
      `ends[i]`, and nothing else. */
  predicate Interleaved(calls: seq<Call>, receipts: seq<Receipt>, tools: Log, starts: seq<nat>, ends: seq<nat>) {
    && |receipts| == |starts| == |ends| == |calls|
    && (forall i :: 0 <= i < |calls| ==>
          && ReceiptOf(calls[i], receipts[i])
          && starts[i] < ends[i] < |tools|
          && tools[starts[i]] == StartEvent(calls[i]) && tools[ends[i]] == ToolCompleted(receipts[i]))
    && (forall p :: 0 <= p < |tools| ==> p in starts || p in ends)
    && |Receipts(tools)| == |calls|
  }

  /** A worker ends with the receipt it retained, or with one whose output it could not. */
  datatype Worker = Queued | Running | Ended(receipt: Receipt) | Lost(receipt: Receipt)
  {
    predicate Finished() { Ended? || Lost? }

    /** What it writes last. */
    function Last(): Event
      requires Finished()
    {
      if Ended? then ToolCompleted(receipt)
      else OutputLost(receipt.id, receipt.name, receipt.arguments, receipt.status)
    }
  }

  /** Steps left to a worker; whether it is running; whether it has left no receipt. */
  function Steps(w: Worker): nat {
    match w
    case Queued => 2
    case Running => 1
    case _ => 0
  }

  function Waiting(w: Worker): nat { if w.Finished() then 0 else 1 }
  function Busy(w: Worker): nat { if w.Running? then 1 else 0 }
  function Open(w: Worker): nat { if w.Ended? then 0 else 1 }

  function Sum(workers: seq<Worker>, weight: Worker -> nat): nat {
    if workers == [] then 0 else Sum(workers[..|workers| - 1], weight) + weight(workers[|workers| - 1])
  }

  lemma {:induction false} SumUpdate(workers: seq<Worker>, weight: Worker -> nat, i: nat, w: Worker)
    requires i < |workers|
    ensures Sum(workers[i := w], weight) + weight(workers[i]) == Sum(workers, weight) + weight(w)
  {
    var n := |workers| - 1;
    assert workers[i := w][..n] == if i == n then workers[..n] else workers[..n][i := w];
    if i < n { SumUpdate(workers[..n], weight, i, w); }
  }

  lemma {:induction false} SumZero(workers: seq<Worker>, weight: Worker -> nat)
    requires forall i :: 0 <= i < |workers| ==> weight(workers[i]) == 0
    ensures Sum(workers, weight) == 0
  {
    if workers != [] { SumZero(workers[..|workers| - 1], weight); }
  }

  lemma {:induction false} SumQueued(n: nat)
    ensures Sum(seq(n, _ => Queued), Steps) == 2 * n && Sum(seq(n, _ => Queued), Open) == n
    ensures Sum(seq(n, _ => Queued), Waiting) == n
  {
    if n > 0 {
      assert seq(n, _ => Queued)[..n - 1] == seq(n - 1, _ => Queued);
      SumQueued(n - 1);
    }
  }

  /** The calls started and not yet ended. */
  function InFlight(tools: Log): int {
    if tools == [] then 0
    else
      var last := tools[|tools| - 1];
      InFlight(tools[..|tools| - 1])
      + (if last.ToolStarted? then 1 else if last.ToolCompleted? || last.OutputLost? then -1 else 0)
  }

  /** At no point are more than six calls under way. */
  predicate AtMostSix(tools: Log) {
    forall p :: 0 <= p <= |tools| ==> InFlight(tools[..p]) <= 6
  }

  predicate CanStep(workers: seq<Worker>, i: nat)
    requires i < |workers|
  {
    workers[i].Running? || (workers[i].Queued? && Sum(workers, Busy) < MAX_WORKERS)
  }

  /** A worker may step when it runs, or when fewer than six do. */
  lemma SixAtOnce(workers: seq<Worker>, i: nat)
    requires i < |workers|
    ensures CanStep(workers, i) <==> workers[i].Running? || (workers[i].Queued? && Sum(workers, Busy) < 6)
  {}

  lemma MayStep(workers: seq<Worker>, i: nat)
    requires i < |workers| && CanStep(workers, i)
    ensures !workers[i].Finished()
  {}

  lemma SomeoneCanStep(workers: seq<Worker>, i: nat)
    requires i < |workers| && !workers[i].Finished()
    ensures exists j :: 0 <= j < |workers| && CanStep(workers, j)
  {
    if forall j :: 0 <= j < |workers| ==> !workers[j].Running? {
      SumZero(workers, Busy);
      assert CanStep(workers, i);
    } else {
      var j :| 0 <= j < |workers| && workers[j].Running?;
      assert CanStep(workers, j);
    }
  }

  /** The batch so far: queued calls have no events, running calls a start, finished calls a
      start and then their completion, or the record that their output was lost. */
  ghost predicate Progress(calls: seq<Call>, workers: seq<Worker>, tools: Log, starts: seq<nat>, ends: seq<nat>) {
    && |workers| == |starts| == |ends| == |calls|
    && (forall i :: 0 <= i < |calls| ==> CallProgress(calls[i], workers[i], tools, starts[i], ends[i]))
    && (forall p :: 0 <= p < |tools| ==> WrittenOnce(workers, starts, ends, p))
    && |Receipts(tools)| + Sum(workers, Open) == |calls|
  }

  /** The event at `p` is one worker's start or its end, and of no other. */
  ghost predicate WrittenOnce(workers: seq<Worker>, starts: seq<nat>, ends: seq<nat>, p: nat)
    requires |workers| == |starts| == |ends|
  {
    exists i :: 0 <= i < |workers| && Wrote(workers[i], starts[i], ends[i], p) && NoOther(workers, starts, ends, p, i)
  }

  /** The event at `p` is this worker's. */
  predicate Wrote(w: Worker, start: nat, end: nat, p: nat) {
    (!w.Queued? && start == p) || (w.Finished() && end == p)
  }

  predicate NoOther(workers: seq<Worker>, starts: seq<nat>, ends: seq<nat>, p: nat, i: nat)
    requires |workers| == |starts| == |ends|
  {
    forall j :: 0 <= j < |workers| && j != i ==> !Wrote(workers[j], starts[j], ends[j], p)
  }

  predicate CallProgress(c: Call, w: Worker, tools: Log, start: nat, end: nat) {
    && (!w.Queued? ==> start < |tools| && tools[start] == StartEvent(c))
    && (w.Finished() ==>
          && start < end < |tools| && tools[end] == w.Last() && ResultOf(c, w.receipt)
          && (w.Ended? <==> Encodable(w.receipt.output)))
  }

  /** Every call of the batch was started once and ended once after that. */
  ghost predicate AllRan(calls: seq<Call>, workers: seq<Worker>, tools: Log, starts: seq<nat>, ends: seq<nat>) {
    Progress(calls, workers, tools, starts, ends) && forall i :: 0 <= i < |workers| ==> workers[i].Finished()
  }

  lemma StartKeeps(calls: seq<Call>, workers: seq<Worker>, tools: Log, starts: seq<nat>, ends: seq<nat>, i: nat)
    requires Progress(calls, workers, tools, starts, ends) && i < |calls| && workers[i].Queued?
    ensures Progress(calls, workers[i := Running], tools + [StartEvent(calls[i])], starts[i := |tools|], ends)
  {
    hide Receipts, Sum;
    SumUpdate(workers, Open, i, Running);
    NoReceipt(tools, StartEvent(calls[i]));
    var longer, now, began := tools + [StartEvent(calls[i])], workers[i := Running], starts[i := |tools|];
    forall k | 0 <= k < |calls| ensures CallProgress(calls[k], now[k], longer, began[k], ends[k]) {
      assert CallProgress(calls[k], workers[k], tools, starts[k], ends[k]);
    }
    forall p | 0 <= p < |longer| ensures WrittenOnce(now, began, ends, p) {
      OneEventMore(calls, workers, tools, starts, ends, i, Running, |tools|, ends[i], p);
    }
  }

  lemma EndKeeps(calls: seq<Call>, workers: seq<Worker>, tools: Log, starts: seq<nat>, ends: seq<nat>, i: nat, w: Worker)
    requires Progress(calls, workers, tools, starts, ends) && i < |calls| && workers[i].Running?
    requires w.Finished() && ResultOf(calls[i], w.receipt) && (w.Ended? <==> Encodable(w.receipt.output))
    ensures Progress(calls, workers[i := w], tools + [w.Last()], starts, ends[i := |tools|])
  {
    hide Receipts, Sum;
    SumUpdate(workers, Open, i, w);
    NoReceipt(tools, w.Last());
    var longer, now, ended := tools + [w.Last()], workers[i := w], ends[i := |tools|];
    forall k | 0 <= k < |calls| ensures CallProgress(calls[k], now[k], longer, starts[k], ended[k]) {
      assert CallProgress(calls[k], workers[k], tools, starts[k], ends[k]);
    }
    forall p | 0 <= p < |longer| ensures WrittenOnce(now, starts, ended, p) {
      OneEventMore(calls, workers, tools, starts, ends, i, w, starts[i], |tools|, p);
    }
  }

  /** What a worker's next step writes. */
  function EventOf(c: Call, w: Worker, next: Worker): Event
    requires w.Running? ==> next.Finished()
  {
    if w.Running? then next.Last() else StartEvent(c)
  }

  /** One step of one worker, and one step less to go. */
  lemma StepKeeps(calls: seq<Call>, workers: seq<Worker>, tools: Log, starts: seq<nat>, ends: seq<nat>, i: nat, next: Worker)
    requires Progress(calls, workers, tools, starts, ends) && i < |calls| && !workers[i].Finished()
    requires workers[i].Queued? ==> next == Running
    requires workers[i].Running? ==>
      next.Finished() && ResultOf(calls[i], next.receipt) && (next.Ended? <==> Encodable(next.receipt.output))
    ensures Progress(calls, workers[i := next], tools + [EventOf(calls[i], workers[i], next)],
                     if workers[i].Queued? then starts[i := |tools|] else starts,
                     if workers[i].Queued? then ends else ends[i := |tools|])
    ensures Sum(workers[i := next], Steps) < Sum(workers, Steps)
  {
    hide Progress, Sum, ResultOf, Receipts;
    assert |workers| == |starts| == |ends| == |calls| by { Sizes(calls, workers, tools, starts, ends); }
    SumUpdate(workers, Steps, i, next);
    if workers[i].Queued? {
      StartKeeps(calls, workers, tools, starts, ends, i);
    } else {
      EndKeeps(calls, workers, tools, starts, ends, i, next);
    }
  }

  /** A step of a worker that may step leaves at most six under way. */
  lemma FlightKeeps(c: Call, workers: seq<Worker>, tools: Log, i: nat, next: Worker)
    requires i < |workers| && CanStep(workers, i) && InFlight(tools) == Sum(workers, Busy) <= 6 && AtMostSix(tools)
    requires (workers[i].Queued? ==> next == Running) && (workers[i].Running? ==> next.Finished())
    ensures var longer := tools + [EventOf(c, workers[i], next)];
            InFlight(longer) == Sum(workers[i := next], Busy) <= 6 && AtMostSix(longer)
  {
    hide Sum;
    var longer := tools + [EventOf(c, workers[i], next)];
    SumUpdate(workers, Busy, i, next);
    assert longer[..|tools|] == tools;
    forall p | 0 <= p <= |longer| ensures InFlight(longer[..p]) <= 6 {
      if p <= |tools| { assert longer[..p] == tools[..p]; } else { assert longer[..p] == longer; }
    }
  }

  lemma Sizes(calls: seq<Call>, workers: seq<Worker>, tools: Log, starts: seq<nat>, ends: seq<nat>)
    requires Progress(calls, workers, tools, starts, ends)
    ensures |workers| == |starts| == |ends| == |calls|
  {}

  lemma NoReceipt(tools: Log, e: Event)
    ensures |Receipts(tools + [e])| == |Receipts(tools)| + if e.ToolCompleted? then 1 else 0
  {
    assert (tools + [e])[..|tools|] == tools;
  }

  /** A worker that writes the next event keeps every event to its own worker. */
  lemma OneEventMore(calls: seq<Call>, workers: seq<Worker>, tools: Log, starts: seq<nat>, ends: seq<nat>, i: nat,
                     w: Worker, start: nat, end: nat, p: nat)
    requires Progress(calls, workers, tools, starts, ends) && i < |calls| && p <= |tools|
    requires (workers[i].Queued? && w.Running? && start == |tools|)
             || (workers[i].Running? && w.Finished() && start == starts[i] && end == |tools|)
    ensures WrittenOnce(workers[i := w], starts[i := start], ends[i := end], p)
  {
    hide Receipts, Sum, ResultOf;
    var now, began, ended := workers[i := w], starts[i := start], ends[i := end];
    forall k | 0 <= k < |calls| && k != i && Wrote(now[k], began[k], ended[k], p) ensures p < |tools| {
      assert CallProgress(calls[k], workers[k], tools, starts[k], ends[k]);
    }
    assert CallProgress(calls[i], workers[i], tools, starts[i], ends[i]);
    if p == |tools| {
      assert Wrote(now[i], began[i], ended[i], p) && NoOther(now, began, ended, p, i);
    } else {
      assert WrittenOnce(workers, starts, ends, p);
      var j :| 0 <= j < |workers| && Wrote(workers[j], starts[j], ends[j], p) && NoOther(workers, starts, ends, p, j);
      assert forall k :: 0 <= k < |calls| ==>
        (Wrote(now[k], began[k], ended[k], p) <==> Wrote(workers[k], starts[k], ends[k], p));
      assert Wrote(now[j], began[j], ended[j], p) && NoOther(now, began, ended, p, j);
    }
  }

  /** The output of a call that never ran: why, as canonical JSON. */
  function UnrunOutput(reason: Text): Text {
    Canonical(Object([Member(FromString("error"), Str(reason)), Member(FromString("status"), Str(FromString("capped")))]))
  }

  function UnstartedEvent(c: Call, reason: Text): Event {
    ToolCompleted(Receipt(c.id, Name(c), Arguments(c), Capped, UnrunOutput(reason)))
  }

  /** The events of calls that a cap refused before they ran. */
  function Unstarted(calls: seq<Call>, reason: Text): Log {
    if calls == [] then []
    else
      var last := |calls| - 1;
      Unstarted(calls[..last], reason) + [StartEvent(calls[last]), UnstartedEvent(calls[last], reason)]
  }

  /** A batch the registry may reserve slots for: at most twelve valid calls, each id new. */
  predicate Admissible(cfg: Config, claimed: set<Text>, calls: seq<Call>) {
    && |calls| <= MAX_OPENING_TOOLS
    && (forall i :: 0 <= i < |calls| ==> Valid(cfg, calls[i]) && calls[i].id !in claimed)
    && (forall i, j :: 0 <= i < j < |calls| ==> calls[i].id != calls[j].id)
  }

  class Registry {
    const cfg: Config
    const audit: Audit
    const budget: RunBudget
    const clock: Clock
    const toolbox: Toolbox
    var claimed: set<Text>

    ghost predicate Ready()
      reads this, budget, clock
    {
      && budget.config == cfg.caps && Priced(cfg.caps) && WithinCaps(cfg.caps, budget.View())
      && budget.started <= clock.now
    }

    constructor (cfg: Config, audit: Audit, budget: RunBudget, clock: Clock, toolbox: Toolbox)
      requires budget.config == cfg.caps && Priced(cfg.caps) && WithinCaps(cfg.caps, budget.View())
      requires budget.started <= clock.now
      ensures Ready() && claimed == {}
      ensures this.cfg == cfg && this.audit == audit && this.budget == budget && this.clock == clock
      ensures this.toolbox == toolbox
    {
      this.cfg, this.audit, this.budget, this.clock, this.toolbox, claimed := cfg, audit, budget, clock, toolbox, {};
    }

    /** `validate`, check by check. */
    method Validate(c: Call) returns (ok: bool)
      ensures ok <==> Valid(cfg, c)
    {
      if c.id == [] || !c.valid { return false; }
      match c.action {
        case Forensic(name, arguments) => return name in cfg.forensic && cfg.accepts(name, arguments);
        case _ => return false;
      }
    }

    method ValidateAll(calls: seq<Call>) returns (ok: bool)
      ensures ok <==> forall i :: 0 <= i < |calls| ==> Valid(cfg, calls[i])
    {
      var k := 0;
      while k < |calls|
        invariant 0 <= k <= |calls| && forall i :: 0 <= i < k ==> Valid(cfg, calls[i])
      {
        ok := Validate(calls[k]);
        if !ok { return; }
        k := k + 1;
      }
      return true;
    }

    /** `_claim_calls`: all of the ids, or none. */
    method Claim(calls: seq<Call>) returns (ok: bool)
      modifies this`claimed
      ensures ok <==>
        && (forall i :: 0 <= i < |calls| ==> calls[i].id != [] && calls[i].id !in old(claimed))
        && (forall i, j :: 0 <= i < j < |calls| ==> calls[i].id != calls[j].id)
      ensures claimed == if ok then old(claimed) + (set id | id in CallIds(calls)) else old(claimed)
    {
      var ids := CallIds(calls);
      ok := [] !in ids && (forall i, j :: 0 <= i < j < |ids| ==> ids[i] != ids[j])
            && (forall id :: id in ids ==> id !in claimed);
      assert forall i :: 0 <= i < |calls| ==> ids[i] == calls[i].id && ids[i] in ids;
      if ok { claimed := claimed + set id | id in ids; }
    }

    /** A cap has fired, the calls have left their unrun receipts, and no slot was taken. */
    ghost predicate Refused(log: Log, before: Meter, calls: seq<Call>)
      reads this, audit, budget
    {
      && budget.fired.Some? && audit.log == log + Unstarted(calls, cfg.explain(budget.fired.value))
      && budget.View().toolCalls == before.toolCalls
    }

    /** A receipt for calls that never ran. */
    method RecordUnstarted(calls: seq<Call>, reason: Text)
      modifies audit
      ensures audit.log == old(audit.log) + Unstarted(calls, reason)
      ensures Extends(old(audit.log), audit.log)
    {
      var i := 0;
      assert old(audit.log) + Unstarted(calls[..0], reason) == old(audit.log);
      while i < |calls|
        invariant 0 <= i <= |calls|
        invariant audit.log == old(audit.log) + Unstarted(calls[..i], reason)
        invariant Extends(old(audit.log), audit.log)
      {
        var c := calls[i];
        assert calls[..i + 1][..i] == calls[..i];
        Joined(old(audit.log), Unstarted(calls[..i], reason), [StartEvent(c), UnstartedEvent(c, reason)]);
        audit.Append(StartEvent(c));
        var output := Canonical(Object([Member(FromString("error"), Str(reason)),
                                        Member(FromString("status"), Str(FromString("capped")))]));
        audit.Append(ToolCompleted(Receipt(c.id, Name(c), Arguments(c), Capped, output)));
        i := i + 1;
      }
      assert calls[..|calls|] == calls;
    }

    /** Reserve slots for calls already claimed; a refused batch runs nothing. */
    method Reserve(calls: seq<Call>) returns (ok: bool)
      requires Ready() && calls != []
      modifies audit, budget, clock
      ensures Ready() && clock.now >= old(clock.now) && Extends(old(audit.log), audit.log)
      ensures old(budget.View()).toolCalls + |calls| > cfg.caps.maxToolCalls ==> !ok
      ensures !ok ==> Refused(old(audit.log), old(budget.View()), calls)
      ensures ok ==> audit.log == old(audit.log) && budget.fired == None
      ensures ok ==> old(clock.now) - budget.started < cfg.caps.maxWallSeconds
      ensures ok ==> budget.View() == old(budget.View()).(toolCalls := old(budget.View()).toolCalls + |calls|)
    {
      var now := clock.Read();
      ApplyKeeps(cfg.caps, budget.View(), OpReserve(now - budget.started, |calls|));
      var reserved := budget.Reserve(|calls|, now);
      ok := reserved.Ok?;
      if !ok { RecordUnstarted(calls, cfg.explain(budget.fired.value)); }
    }

    /** The forensic function, the deadline check after it unless it raised, and how the
        worker ends; a cap that fires over a call makes it a timeout. */
    method Run(c: Call) returns (w: Worker)
      requires Ready()
      modifies budget, clock, toolbox
      ensures Ready() && clock.now >= old(clock.now)
      ensures w.Finished() && ResultOf(c, w.receipt) && (w.Ended? <==> Encodable(w.receipt.output))
      ensures AnsweredOnce(old(toolbox.answers), old(toolbox.executions), c, w)
      ensures budget.fired == None && toolbox.answers[c.id].Returned? ==>
        old(clock.now) - budget.started < cfg.caps.maxWallSeconds
      ensures budget.View().toolCalls == old(budget.View()).toolCalls
      ensures budget.View() == old(budget.View()) || (old(budget.View()).fired.None? && TimedOut(w))
    {
      var answer := toolbox.Call(c);
      var status := Error;
      if answer.Returned? {
        status := answer.status;
        var now := clock.Read();
        ApplyKeeps(cfg.caps, budget.View(), OpCheck(now - budget.started));
        var checked := budget.Check(now);
        if !checked.Ok? { status := Timeout; }
      }
      var r := Receipt(c.id, Name(c), Arguments(c), status, answer.output);
      w := if Encodable(r.output) then Ended(r) else Lost(r);
    }

    /** The call's function was run once more, and the worker ended with what it answered. */
    ghost predicate AnsweredOnce(answers: map<Text, Answer>, executions: nat, c: Call, w: Worker)
      requires w.Finished()
      reads this, budget, toolbox
    {
      && toolbox.executions == executions + 1
      && AnsweredNow(answers, toolbox.answers, c, w.receipt, budget.fired.Some?)
    }

    /** The cap that has fired did so over this worker's call. */
    ghost predicate TimedOut(w: Worker)
      reads this, budget
    {
      budget.fired.Some? && w.Finished() && w.receipt.status == Timeout
    }

    ghost predicate SomeTimedOut(workers: seq<Worker>)
      reads this, budget
    {
      exists i :: 0 <= i < |workers| && TimedOut(workers[i])
    }

    /** `execute`: one call.  Refused, it leaves its unrun receipt; admitted, it is started
        and ended once, whether or not a cap fires meanwhile. */
    method Execute(c: Call) returns (r: Option<Receipt>, ghost w: Worker)
      requires Ready()
      modifies this`claimed, audit, budget, clock, toolbox
      ensures Ready() && clock.now >= old(clock.now) && Extends(old(audit.log), audit.log) && old(claimed) <= claimed
      ensures w.Queued? ==> toolbox.answers == old(toolbox.answers) && toolbox.executions == old(toolbox.executions)
      ensures w.Finished() ==> AnsweredOnce(old(toolbox.answers), old(toolbox.executions), c, w)
      ensures !Admissible(cfg, old(claimed), [c]) ==>
        r == None && w == Queued && audit.log == old(audit.log) && claimed == old(claimed) && budget.View() == old(budget.View())
      ensures Admissible(cfg, old(claimed), [c]) ==>
        && claimed == old(claimed) + {c.id}
        && if w.Queued? then r == None && Refused(old(audit.log), old(budget.View()), [c])
           else
             && w.Finished() && ResultOf(c, w.receipt) && audit.log == old(audit.log) + [StartEvent(c), w.Last()]
             && budget.View().toolCalls == old(budget.View()).toolCalls + 1 <= cfg.caps.maxToolCalls
             && r == (if w.Ended? && budget.fired == None then Some(w.receipt) else None)
      ensures r.Some? ==>
        && Valid(cfg, c) && c.id !in old(claimed) && ReceiptOf(c, r.value)
        && audit.log == old(audit.log) + [StartEvent(c), ToolCompleted(r.value)]
        && budget.View() == old(budget.View()).(toolCalls := old(budget.View()).toolCalls + 1)
        && budget.fired == None
    {
      r, w := None, Queued;
      var ok := Validate(c);
      if !ok { return; }
      ok := Claim([c]);
      if !ok { return; }
      assert CallIds([c]) == [c.id];
      ok := Reserve([c]);
      if !ok { return; }
      audit.Append(StartEvent(c));
      var ran := Run(c);
      w := ran;
      audit.Append(ran.Last());
      if ran.Ended? && budget.fired == None { r := Some(ran.receipt); }
    }

    /** One worker's next step. */
    method StepWorker(c: Call, w: Worker) returns (next: Worker)
      requires Ready() && !w.Finished()
      modifies audit, budget, clock, toolbox
      ensures w.Queued? ==> toolbox.answers == old(toolbox.answers) && toolbox.executions == old(toolbox.executions)
      ensures w.Running? ==> next.Finished() && AnsweredOnce(old(toolbox.answers), old(toolbox.executions), c, next)
      ensures Ready() && clock.now >= old(clock.now) && Extends(old(audit.log), audit.log)
      ensures budget.View().toolCalls == old(budget.View()).toolCalls
      ensures budget.View() == old(budget.View()) || (old(budget.View()).fired.None? && TimedOut(next))
      ensures w.Queued? ==>
        next == Running && audit.log == old(audit.log) + [StartEvent(c)] && budget.View() == old(budget.View())
      ensures w.Running? ==>
        && next.Finished() && ResultOf(c, next.receipt) && (next.Ended? <==> Encodable(next.receipt.output))
        && audit.log == old(audit.log) + [next.Last()]
    {
      if w.Queued? {
        audit.Append(StartEvent(c));
        next := Running;
      } else {
        next := Run(c);
        audit.Append(next.Last());
      }
    }

    /** The thread pool: some worker that may step does, until all have ended.  Whatever
        fires or is lost meanwhile, every call is started once and ended once after that. */
    method RunWorkers(calls: seq<Call>)
      returns (workers: seq<Worker>, ghost tools: Log, ghost starts: seq<nat>, ghost ends: seq<nat>)
      requires Ready() && budget.fired == None
      requires forall i, j :: 0 <= i < j < |calls| ==> calls[i].id != calls[j].id
      modifies audit, budget, clock, toolbox
      ensures Ready() && clock.now >= old(clock.now) && Extends(old(audit.log), audit.log)
      ensures AllRan(calls, workers, tools, starts, ends) && audit.log == old(audit.log) + tools && AtMostSix(tools)
      ensures AllAnswered(toolbox.answers, workers, budget.fired.Some?)
      ensures toolbox.executions == old(toolbox.executions) + |calls|
      ensures budget.View().toolCalls == old(budget.View()).toolCalls
      ensures budget.View() == old(budget.View()) || SomeTimedOut(workers)
    {
      hide Interleaved, OptionsOk, Account, WithinCaps, ResultOf, Where, WrittenOnce, Wrote, Sum, CallProgress,
           Receipts, StartEvent, Busy, Open, MAX_WORKERS, Name, Arguments, Priced, AtMostSix, InFlight, AllAnswered,
           AnsweredNow, AsAnswered, CanStep, Waiting, Progress;
      workers, tools := seq(|calls|, _ => Queued), [];
      starts, ends := seq(|calls|, _ => 0), seq(|calls|, _ => 0);
      NothingRan(calls);
      NoneAnswered(toolbox.answers, workers);
      while exists i :: 0 <= i < |workers| && !workers[i].Finished()
        invariant Ready() && clock.now >= old(clock.now) && Extends(old(audit.log), audit.log)
        invariant Progress(calls, workers, tools, starts, ends) && audit.log == old(audit.log) + tools
        invariant InFlight(tools) == Sum(workers, Busy) <= 6 && AtMostSix(tools)
        invariant AllAnswered(toolbox.answers, workers, budget.fired.Some?)
        invariant toolbox.executions + Sum(workers, Waiting) == old(toolbox.executions) + |calls|
        invariant budget.View().toolCalls == old(budget.View()).toolCalls
        invariant budget.View() == old(budget.View()) || SomeTimedOut(workers)
        decreases Sum(workers, Steps)
      {
        ghost var waiting :| 0 <= waiting < |workers| && !workers[waiting].Finished();
        SomeoneCanStep(workers, waiting);
        var i :| 0 <= i < |workers| && CanStep(workers, i);
        MayStep(workers, i);
        Sizes(calls, workers, tools, starts, ends);
        ghost var known, fired := toolbox.answers, budget.fired.Some?;
        var next := StepWorker(calls[i], workers[i]);
        ghost var e := EventOf(calls[i], workers[i], next);
        StepKeeps(calls, workers, tools, starts, ends, i, next);
        FlightKeeps(calls[i], workers, tools, i, next);
        StillAnswered(calls, workers, tools, starts, ends, i, next, known, fired, toolbox.answers, budget.fired.Some?);
        StillTimedOut(workers, i, next);
        Joined(old(audit.log), tools, [e]);
        starts := if workers[i].Queued? then starts[i := |tools|] else starts;
        ends := if workers[i].Queued? then ends else ends[i := |tools|];
        tools, workers := tools + [e], workers[i := next];
      }
      AllEnded(workers);
    }

    lemma StillTimedOut(workers: seq<Worker>, i: nat, next: Worker)
      requires i < |workers| && !workers[i].Finished()
      ensures SomeTimedOut(workers) || TimedOut(next) ==> SomeTimedOut(workers[i := next])
    {
      if TimedOut(next) {
        assert workers[i := next][i] == next;
      } else if SomeTimedOut(workers) {
        var k :| 0 <= k < |workers| && TimedOut(workers[k]);
        assert workers[i := next][k] == workers[k];
      }
    }

    /** `execute_batch`: the receipts in the order the calls were requested.  A refused batch
        leaves its unrun receipts; an admitted one runs to its end, and returns receipts
        unless a cap fired or an output was lost. */
    method ExecuteBatch(calls: seq<Call>)
      returns (r: Option<seq<Receipt>>, ghost workers: seq<Worker>, ghost tools: Log, ghost starts: seq<nat>,
               ghost ends: seq<nat>)
      requires Ready()
      modifies this`claimed, audit, budget, clock, toolbox
      ensures Ready() && clock.now >= old(clock.now) && Extends(old(audit.log), audit.log) && old(claimed) <= claimed
      ensures toolbox.executions == old(toolbox.executions) + |workers| && AllAnswered(toolbox.answers, workers, budget.fired.Some?)
      ensures !Admissible(cfg, old(claimed), calls) ==>
        r == None && audit.log == old(audit.log) && claimed == old(claimed) && budget.View() == old(budget.View())
      ensures Admissible(cfg, old(claimed), calls) && calls != [] ==>
        && claimed == old(claimed) + (set id | id in CallIds(calls))
        && if workers == [] then r == None && Refused(old(audit.log), old(budget.View()), calls)
           else
             && AllRan(calls, workers, tools, starts, ends) && AtMostSix(tools) && audit.log == old(audit.log) + tools
             && budget.View().toolCalls == old(budget.View()).toolCalls + |calls| <= cfg.caps.maxToolCalls
             && (r.Some? <==> budget.fired == None && forall i :: 0 <= i < |workers| ==> workers[i].Ended?)
             && (budget.fired.Some? ==> SomeTimedOut(workers))
      ensures r.Some? ==>
        && Admissible(cfg, old(claimed), calls) && Interleaved(calls, r.value, tools, starts, ends)
        && |workers| == |r.value| && (forall i :: 0 <= i < |workers| ==> workers[i] == Ended(r.value[i]))
        && audit.log == old(audit.log) + tools
        && claimed == old(claimed) + (set id | id in CallIds(calls))
        && budget.View() == old(budget.View()).(toolCalls := old(budget.View()).toolCalls + |calls|)
        && (calls != [] ==> budget.fired == None)
    {
      hide Progress, OptionsOk, Account, ReceiptOf, Where, WithinCaps, Unstarted, ResultOf, Priced;
      r, workers, tools, starts, ends := None, [], [], [], [];
      if calls == [] { return Some([]), [], [], [], []; }
      if |calls| > MAX_OPENING_TOOLS { return; }
      var ok := ValidateAll(calls);
      if !ok { return; }
      ok := Claim(calls);
      if !ok { return; }
      ok := Reserve(calls);
      if !ok { return; }
      var ran;
      ran, tools, starts, ends := RunWorkers(calls);
      workers := ran;
      Sizes(calls, workers, tools, starts, ends);
      if budget.fired == None && forall i :: 0 <= i < |ran| ==> ran[i].Ended? {
        var ordered := seq(|calls|, i requires 0 <= i < |ran| && ran[i].Ended? => ran[i].receipt);
        BatchIsInterleaved(calls, workers, ordered, tools, starts, ends);
        r := Some(ordered);
      }
    }
  }

  lemma NoneAnswered(answers: map<Text, Answer>, workers: seq<Worker>)
    requires workers == seq(|workers|, _ => Queued)
    ensures AllAnswered(answers, workers, false) && Sum(workers, Waiting) == |workers| && Sum(workers, Busy) == 0
    ensures InFlight([]) == 0 && AtMostSix([])
  {
    SumQueued(|workers|);
    SumZero(workers, Busy);
  }

  lemma AllEnded(workers: seq<Worker>)
    requires forall i :: 0 <= i < |workers| ==> workers[i].Finished()
    ensures Sum(workers, Waiting) == 0
  {
    SumZero(workers, Waiting);
  }

  /** What the other workers' functions answered stands, as the ids differ. */
  lemma StillAnswered(calls: seq<Call>, workers: seq<Worker>, tools: Log, starts: seq<nat>, ends: seq<nat>, i: nat,
                      next: Worker, before: map<Text, Answer>, fired: bool, answers: map<Text, Answer>, later: bool)
    requires Progress(calls, workers, tools, starts, ends)
    requires i < |workers| == |calls| && !workers[i].Finished() && AllAnswered(before, workers, fired)
    requires forall j, k :: 0 <= j < k < |calls| ==> calls[j].id != calls[k].id
    requires fired ==> later
    requires workers[i].Queued? ==> next == Running && answers == before
    requires workers[i].Running? ==> next.Finished() && AnsweredNow(before, answers, calls[i], next.receipt, later)
    ensures AllAnswered(answers, workers[i := next], later)
    ensures Sum(workers[i := next], Waiting) + (if next.Finished() then 1 else 0) == Sum(workers, Waiting)
  {
    hide Sum, Receipts, WrittenOnce, Progress, StartEvent;
    SumUpdate(workers, Waiting, i, next);
    forall k | 0 <= k < |workers| && workers[k].Finished() ensures workers[k].receipt.id == calls[k].id {
      ProgressAt(calls, workers, tools, starts, ends, k);
    }
  }

  lemma ProgressAt(calls: seq<Call>, workers: seq<Worker>, tools: Log, starts: seq<nat>, ends: seq<nat>, k: nat)
    requires Progress(calls, workers, tools, starts, ends) && k < |workers| && workers[k].Finished()
    ensures |workers| == |calls| && workers[k].receipt.id == calls[k].id
  {
    assert CallProgress(calls[k], workers[k], tools, starts[k], ends[k]);
  }

  lemma NothingRan(calls: seq<Call>)
    ensures Progress(calls, seq(|calls|, _ => Queued), [], seq(|calls|, _ => 0), seq(|calls|, _ => 0))
  {
    SumQueued(|calls|);
  }

  lemma BatchIsInterleaved(calls: seq<Call>, workers: seq<Worker>, receipts: seq<Receipt>, tools: Log,
                           starts: seq<nat>, ends: seq<nat>)
    requires Progress(calls, workers, tools, starts, ends) && |receipts| == |calls|
    requires forall i :: 0 <= i < |calls| ==> workers[i].Ended? && receipts[i] == workers[i].receipt
    ensures Interleaved(calls, receipts, tools, starts, ends)
  {
    hide StartEvent, ResultOf, Sum, Receipts, Encodable;
    SumZero(workers, Open);
    forall i | 0 <= i < |calls|
      ensures ReceiptOf(calls[i], receipts[i]) && starts[i] < ends[i] < |tools|
      ensures tools[starts[i]] == StartEvent(calls[i]) && tools[ends[i]] == ToolCompleted(receipts[i])
    {
      assert CallProgress(calls[i], workers[i], tools, starts[i], ends[i]);
    }
    forall p | 0 <= p < |tools| ensures p in starts || p in ends {
      assert WrittenOnce(workers, starts, ends, p);
    }
  }
}
