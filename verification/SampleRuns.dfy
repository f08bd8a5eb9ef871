/** Both sides of the agreement are met.  Under the default caps, an opening call, one more
    tool call, and one finding that leans on the first call make a complete run that is
    accepted; the same run that quotes both calls, whose outputs are identical, and the same
    run whose final snapshot came too late, are as complete and are refused. */
module SampleRuns {
  import opened Wrappers
  import opened Utf8
  import opened Search
  import opened CanonicalJson
  import opened Citations
  import opened CitationReader
  import opened Findings
  import opened Verdicts
  import opened Caps
  import opened Events
  import opened Occurrences
  import opened Transactions
  import opened ModelClient
  import opened ToolRegistry
  import opened Script
  import opened StepFacts
  import opened Lifecycle
  import opened Agreement
  import opened ToolAgreement
  import opened CitationAgreement
  import opened Acceptance

  const A: Text := [0x61]
  const B: Text := [0x62]
  const OUTPUT: Text := [0x78]

  /** Every letter of a text is a citation. */
  const LETTERS := Scan(t => t, t => t, t => set c | c in t :: [c])

  function Free(): Usage {
    Usage(0, 0, 0, 0, 0, 0)
  }

  function Zeros(n: nat): (t: Text)
    ensures |t| == n && forall i :: 0 <= i < n ==> t[i] == 0x30
  {
    if n == 0 then [] else Zeros(n - 1) + [0x30]
  }

  function Flat(x: Bytes): Text {
    Zeros(64)
  }

  function Plain(): Config {
    Config(
      DEFAULT_CAPS, Model(true), true, Null, [A], Flat, LETTERS, (name, arguments) => true, t => true,
      (receipt, quotable) => [], (investigation, verdicts, draft) => [], cap => [])
  }

  /** Preflight grants each request of these runs its phase's whole allowance. */
  lemma PreflightAllows(phase: Phase, toolCalls: nat)
    ensures Prepared(Plain().caps, FRESH.(toolCalls := toolCalls), 0.0, 1, Policy(phase).maximum, Plain().model,
                     Policy(phase).minimum) == Ok(Policy(phase).maximum)
  {
    var m, model := FRESH.(toolCalls := toolCalls), Model(true);
    assert UsageCost(DEFAULT_CAPS, Usage(1, 0, 0, 0, 0, 0), model) == 0.000_005;
    var rate := 30.0 * OutputMultiplier(model, 1);
    assert rate == 30.0;
    assert RemainingCost(DEFAULT_CAPS, m, 1, model) == 9.999_995;
    assert 9_999_995.0 / rate >= 20_000.0;
    assert CostLimitedTokens(DEFAULT_CAPS, m, 1, model) >= 20_000;
  }

  /** One answered request that cost nothing. */
  function Asked(phase: Phase, packet: Packet, observations: seq<Observation>, catalog: seq<Function>,
                 id: Text, message: Text, call: Call, spent: real): Txn {
    Txn(phase, packet, observations, catalog, Policy(phase).(estimate := 1, timeout := 1.0), 1, [],
        Reply(id, id, true, true, true, Free(), message, [call]), 0.0, spent)
  }

  lemma FreeCost()
    ensures UsageCost(DEFAULT_CAPS, Free(), Model(true)) == 0.0
  {}

  lemma AskedIsOk(before: Meter, phase: Phase, packet: Packet, observations: seq<Observation>,
                  catalog: seq<Function>, id: Text, message: Text, call: Call)
    requires call.valid && before == FRESH.(toolCalls := before.toolCalls)
    ensures TxnOk(Plain(), before, Asked(phase, packet, observations, catalog, id, message, call, before.cost))
  {
    hide UsageCost, Prepared;
    FreeCost();
    PreflightAllows(phase, before.toolCalls);
  }

  /* ---- The steps ---- */

  function Tool(id: Text): Call {
    Call(id, Forensic(A, Null), true)
  }

  function Kept(id: Text): Receipt {
    Receipt(id, A, Null, Success, OUTPUT)
  }

  lemma KeptIsOk(id: Text)
    requires id != []
    ensures ReceiptOf(Tool(id), Kept(id)) && ToolRegistry.Valid(Plain(), Tool(id))
  {}

  function First(): Step {
    OpeningStep(Snapshot(FRESH, 0.0), Asked(Opening, OpeningPacket(Null), [], [Typed(A)], [0x30], [], Tool(A), 0.0),
                [Kept(A)], [StartEvent(Tool(A)), ToolCompleted(Kept(A))], [0], [1])
  }

  const UPDATE: Text := [0x75]

  function InvestigateRequest(before: seq<Step>, turns: nat, id: Text, message: Text, call: Call): Txn {
    Asked(Investigate,
          InvestigatePacket(Null, NotesAt(before), turns, IndexOf(Plain(), Receipts(LogOf(before))),
                            Snapshot(Accounting(LogOf(before)), 0.0), ReceiptIds(Latest(before))),
          Views(Plain(), Latest(before), false), [Typed(A), FinishInvestigation], id, message, call,
          Accounting(LogOf(before)).cost)
  }

  function Second(before: seq<Step>): Step {
    TurnStep(1, None, InvestigateRequest(before, 0, [0x31], UPDATE, Tool(B)), UPDATE, UPDATE, Kept(B))
  }

  function Third(before: seq<Step>): Step {
    TerminalStep(2, None, InvestigateRequest(before, 1, [0x32], [], Call([0x63], Finish(true), true)))
  }

  /** The calls the finding leans on, and the one the judge quotes. */
  function Leans(twice: bool): seq<Text> {
    if twice then [A, B] else [A]
  }

  function QuotedCall(twice: bool): Text {
    if twice then B else A
  }

  function RawQuotes(twice: bool): seq<Quote> {
    if twice then [Quote(A, OUTPUT), Quote(B, OUTPUT)] else [Quote(A, OUTPUT)]
  }

  function Raw(twice: bool): RawFinding {
    RawFinding(A, A, if twice then [0x61, 0x62] else A, NEEDS_REVIEW, A, Leans(twice), RawQuotes(twice), [], [])
  }

  function Written(twice: bool): RawInvestigation {
    RawInvestigation(DONE, [Raw(twice)], [0x61, 0x62], [], [])
  }

  function SpanOn(call: Text): Span {
    Span(SpanId(Flat, Zeros(64), 0, 1), call, Zeros(64), 0, 1, OUTPUT, 1)
  }

  function Recorded(twice: bool): Finding {
    Finding(A, A, Raw(twice).summary, NeedsReview, A, Leans(twice),
            if twice then [SpanOn(A), SpanOn(B)] else [SpanOn(A)], [], [])
  }

  function Conclusions(twice: bool): Investigation {
    Investigation([0x61, 0x62], [Recorded(twice)], [], [], 2)
  }

  function Fourth(before: seq<Step>, twice: bool): Step {
    FinalizeStep(NotesAt(before),
      Asked(Finalize, FinalizePacket(Null, NotesAt(before), IndexOf(Plain(), Receipts(LogOf(before)))),
            Views(Plain(), Remembered(before), true), [InvestigationForm], [0x33], [],
            Call(A, SubmitInvestigation(Written(twice)), true), Accounting(LogOf(before)).cost),
      Conclusions(twice), |Receipts(LogOf(before))|)
  }

  function Quotes(twice: bool): seq<JudgeQuote> {
    [JudgeQuote(SpanOn(A).id, QuotedCall(twice), OUTPUT)]
  }

  function RawJudgment(twice: bool): RawVerdict {
    RawVerdict(A, NEEDS_REVIEW, A, [QuotedCall(twice)], Quotes(twice), [])
  }

  function Judgment(twice: bool): Verdict {
    Verdict(A, NeedsReview, A, [QuotedCall(twice)], Quotes(twice), [])
  }

  function Fifth(before: seq<Step>, twice: bool): Step {
    JudgeStep(Asked(Judge, JudgePacket(Null, [0x61, 0x62], [Recorded(twice)], IndexOf(Plain(), Receipts(LogOf(before)))),
                    [], [JudgmentForm], [0x34], [], Call(A, SubmitJudgment([RawJudgment(twice)]), true),
                    Accounting(LogOf(before)).cost),
              [Judgment(twice)])
  }

  function Written4(): Draft {
    Draft([A, A, A, A], [A], [SpanOn(A).id])
  }

  /** The report, with a final snapshot `last` seconds after the start. */
  function Sixth(before: seq<Step>, twice: bool, last: real): Step {
    ReportStep(Asked(Report, ReportPacket(Null, Conclusions(twice), [Judgment(twice)]), [], [ReportForm], [0x35], [],
                     Call(A, SubmitReport(Written4()), true), Accounting(LogOf(before)).cost),
               Written4(), [], 1, 1, Snapshot(FRESH.(toolCalls := 2), last))
  }

  function Steps(twice: bool, last: real): (steps: seq<Step>)
    ensures |steps| == 6
  {
    var one := [First()];
    var two := one + [Second(one)];
    var three := two + [Third(two)];
    var four := three + [Fourth(three, twice)];
    var five := four + [Fifth(four, twice)];
    five + [Sixth(five, twice, last)]
  }

  /* ---- What the log holds after each step ---- */

  /** The log so far accounts for these receipts and nothing else. */
  predicate Holds(steps: seq<Step>, receipts: seq<Receipt>) {
    && Accounting(LogOf(steps)) == FRESH.(toolCalls := |receipts|)
    && Receipts(LogOf(steps)) == receipts && Remembered(steps) == receipts
  }

  lemma NothingHeld()
    ensures Holds([], []) && StepsOk(Plain(), [])
  {
    assert Parts([]) == [];
  }

  lemma NothingCosts(m: Meter)
    ensures Free().Valid() && Charged(m, Free(), 0.0) == m
  {}

  lemma FirstTools()
    ensures Receipts(First().tools) == [Kept(A)]
  {
    var start, end := [StartEvent(Tool(A))], [ToolCompleted(Kept(A))];
    assert start[..0] == [] && end[..0] == [] && First().tools == start + end;
    ReceiptsConcat(start, end);
  }

  lemma FirstAfter()
    ensures Receipts(After(First())) == [Kept(A)] && RequestCount(After(First())) == 0
    ensures Account(FRESH, After(First())) == FRESH.(toolCalls := 1)
  {
    hide Where;
    var s := First();
    var done := [OpeningCompleted([0x30], 1, 1, 0, ReceiptIds([Kept(A)]))];
    assert After(s) == s.tools + done;
    FirstTools();
    ReceiptsConcat(s.tools, done);
    AccountQuiet(FRESH, done);
    WhereNone(After(s), IsRequest);
    AccountTools(FRESH, After(s));
  }

  lemma FirstHolds()
    ensures Holds([First()], [Kept(A)])
  {
    hide Receipts, After, Account, Where, TxnOk, LogOf, First, Free, Charged, Usage.Valid, Usage.Total, Remembered,
         EventsOf, Kept;
    NothingHeld();
    FirstAfter();
    FirstIsFree();
    NothingCosts(FRESH);
    StepLogged([], First());
    FirstRemembered();
    FromNothing(First());
  }

  lemma FromNothing<T>(x: T)
    ensures [] + [x] == [x]
  {}

  lemma FirstIsFree()
    ensures First().OpeningStep? && First().txn.reply.usage == Free() && First().txn.callCost == 0.0
  {}

  lemma FirstRemembered()
    ensures Remembered([First()]) == [Kept(A)] && NotesAt([First()]) == [] && Latest([First()]) == [Kept(A)]
    ensures ElapsedAt([First()]) == 0.0
  {
    assert [First()][..0] == [];
  }

  lemma TurnHolds(steps: seq<Step>, receipts: seq<Receipt>, s: Step)
    requires Holds(steps, receipts) && s.TurnStep? && s.txn.reply.usage == Free() && s.txn.callCost == 0.0
    ensures Holds(steps + [s], receipts + [s.receipt]) && NotesAt(steps + [s]) == s.notes && Latest(steps + [s]) == [s.receipt]
  {
    hide Receipts, After, Account, Where, LogOf;
    var m := FRESH.(toolCalls := |receipts|);
    NothingCosts(m);
    TurnAfter(m, s);
    TurnAsksNothing(s);
    StepLogged(steps, s);
    assert (steps + [s])[..|steps|] == steps;
  }

  lemma TurnAsksNothing(s: Step)
    requires s.TurnStep?
    ensures RequestCount(After(s)) == 0
  {
    WhereNone(After(s), IsRequest);
  }

  lemma OtherHolds(steps: seq<Step>, receipts: seq<Receipt>, s: Step)
    requires Holds(steps, receipts) && !s.OpeningStep? && !s.TurnStep?
    requires s.txn.reply.usage == Free() && s.txn.callCost == 0.0
    ensures Holds(steps + [s], receipts)
    ensures s.TerminalStep? ==> NotesAt(steps + [s]) == NotesAt(steps)
  {
    hide Receipts, After, Account, Where, LogOf;
    var m := FRESH.(toolCalls := |receipts|);
    NothingCosts(m);
    OtherAfter(m, s);
    StepLogged(steps, s);
    assert (steps + [s])[..|steps|] == steps;
  }

  /* ---- Every step is in order ---- */

  lemma FirstIsOk()
    ensures StepOk(Plain(), [], First())
  {
    hide LogOf, Account, Where, Receipts, TxnOk, OpeningOk;
    NothingHeld();
    AskedIsOk(FRESH, Opening, OpeningPacket(Null), [], [Typed(A)], [0x30], [], Tool(A));
    FirstOpens();
  }

  lemma FirstOpens()
    ensures OpeningOk(Plain(), First())
  {
    hide LogOf, Account, Where, TxnOk, Receipts;
    FirstTools();
    assert Catalog(Plain()) == [Typed(A)];
    KeptIsOk(A);
  }

  lemma InvestigateIsOk(before: seq<Step>, turns: nat, id: Text, message: Text, call: Call)
    requires |before| == turns + 1 && ElapsedAt(before) == 0.0 && call.valid
    requires Accounting(LogOf(before)) == FRESH.(toolCalls := Accounting(LogOf(before)).toolCalls)
    ensures InvestigateInput(Plain(), before, InvestigateRequest(before, turns, id, message, call))
    ensures TxnOk(Plain(), Accounting(LogOf(before)), InvestigateRequest(before, turns, id, message, call))
  {
    hide LogOf, Receipts, Account, Where, TxnOk, NotesAt, Latest, ElapsedAt;
    var t := InvestigateRequest(before, turns, id, message, call);
    AskedIsOk(Accounting(LogOf(before)), Investigate, t.packet, t.observations, t.catalog, id, message, call);
    assert Catalog(Plain()) + [FinishInvestigation] == [Typed(A), FinishInvestigation];
  }

  lemma RequestAsks(before: seq<Step>, turns: nat, id: Text, message: Text, call: Call)
    ensures var reply := InvestigateRequest(before, turns, id, message, call).reply;
            reply.calls == [call] && reply.message == message
  {}

  lemma UpdateIsOk()
    ensures UpdateOk(Plain(), Plain().scan.strip(UPDATE)) && Plain().scan.strip(UPDATE) == UPDATE
    ensures AppendNotes([], UPDATE) == UPDATE
  {
    AsciiSize(UPDATE);
    assert |DONE| == 4;
  }

  lemma SecondIsOk(before: seq<Step>)
    requires |before| == 1 && Holds(before, [Kept(A)]) && NotesAt(before) == [] && ElapsedAt(before) == 0.0
    ensures StepOk(Plain(), before, Second(before))
  {
    hide LogOf, Receipts, Account, Where, TxnOk, Latest, ElapsedAt, InvestigateInput, InvestigateRequest, UpdateOk,
         ToolRegistry.Valid, Views, IndexOf;
    InvestigateIsOk(before, 0, [0x31], UPDATE, Tool(B));
    KeptIsOk(B);
    UpdateIsOk();
    assert ReceiptIds([Kept(A)]) == [A];
    RequestAsks(before, 0, [0x31], UPDATE, Tool(B));
  }

  lemma ThirdIsOk(before: seq<Step>)
    requires |before| == 2 && Holds(before, [Kept(A), Kept(B)]) && ElapsedAt(before) == 0.0
    ensures StepOk(Plain(), before, Third(before))
  {
    hide LogOf, Receipts, Account, Where, TxnOk, Latest, ElapsedAt, InvestigateInput, NotesAt, IndexOf, Views, Zeros,
         SpanOn, Catalog;
    InvestigateIsOk(before, 1, [0x32], [], Call([0x63], Finish(true), true));
    assert ReceiptIds([Kept(A), Kept(B)]) == [A, B];
  }

  /* ---- The finding and its verdict ---- */

  function Both(): Sources {
    map[A := Source(OUTPUT, Zeros(64), true), B := Source(OUTPUT, Zeros(64), true)]
  }

  lemma SourcesAreBoth()
    ensures SourcesOf(Plain(), [Kept(A), Kept(B)]) == Both()
  {
    hide Encode;
    var all := [Kept(A), Kept(B)];
    assert all[..1] == [Kept(A)] && all[..1][..0] == [];
    assert SourcesOf(Plain(), all[..1]) == map[A := SourceOf(Plain(), Kept(A))];
  }

  lemma OutputBytes()
    ensures var b := Encode(OUTPUT); |b| == 1 && FindFrom(b, b, 0) == At(0) && CountFrom(b, b, 0) == 1
  {
    assert OUTPUT[1..] == [] && Encode(OUTPUT) == [0x78];
    assert OccursAt(Encode(OUTPUT), Encode(OUTPUT), 0);
  }

  lemma QuoteIsOk(cited: seq<Text>, call: Text)
    requires call in cited && (call == A || call == B)
    ensures QuoteResolves(LETTERS, Flat, Both(), cited, Quote(call, OUTPUT))
    ensures SpanFor(Flat, Both()[call], Quote(call, OUTPUT)) == SpanOn(call)
  {
    hide Encode, FindFrom, CountFrom;
    OutputBytes();
    assert Both()[call] == Source(OUTPUT, Zeros(64), true);
  }

  lemma QuotesAreOk(twice: bool)
    ensures QuotesAccepted(LETTERS, Flat, Both(), Leans(twice), RawQuotes(twice))
    ensures SpansFor(LETTERS, Flat, Both(), Leans(twice), RawQuotes(twice)) == Recorded(twice).spans
  {
    hide QuoteResolves, SpanFor, SpanOn, Times;
    var quotes := RawQuotes(twice);
    forall q | q in quotes ensures QuoteResolves(LETTERS, Flat, Both(), Leans(twice), q) {
      QuoteIsOk(Leans(twice), q.call);
    }
    assert QuoteCalls(quotes) == Leans(twice);
    FewCalls(twice);
    forall i | 0 <= i < |quotes| ensures SpanFor(Flat, Both()[quotes[i].call], quotes[i]) == SpanOn(quotes[i].call) {
      QuoteIsOk(Leans(twice), quotes[i].call);
    }
  }

  lemma FewCalls(twice: bool)
    ensures AtMostFour(Leans(twice))
  {
    if twice {
      assert multiset([A, B]) == multiset{A, B};
    } else {
      assert multiset([A]) == multiset{A};
    }
  }

  lemma StatusIsRead(scan: Scan)
    requires scan == LETTERS
    ensures ParseStatus(scan, NEEDS_REVIEW) == Some(NeedsReview)
  {
    assert Dashes(NEEDS_REVIEW) == NEEDS_REVIEW;
    assert |StatusName(Unsupported)| == 11 && |NEEDS_REVIEW| == 12;
  }

  lemma LettersCited(twice: bool)
    ensures LETTERS.cites(Raw(twice).summary) == SetOf(Leans(twice)) && LETTERS.cites([0x61, 0x62]) == {A, B}
  {}

  lemma FindingIsOk(twice: bool)
    ensures FindingAccepted(LETTERS, Flat, Both(), Raw(twice), 1)
    ensures FindingFor(LETTERS, Flat, Both(), Raw(twice), 1) == Recorded(twice)
  {
    hide QuotesAccepted, SpansFor, ParseStatus, SpanOn, LETTERS;
    QuotesAreOk(twice);
    StatusIsRead(LETTERS);
    LettersCited(twice);
    LettersKeep();
  }

  lemma LettersKeep()
    ensures LETTERS.upper(A) == A && LETTERS.strip(A) == A && LETTERS.strip([0x61, 0x62]) == [0x61, 0x62]
  {}

  lemma Concludes(twice: bool)
    ensures Conclusion(Plain(), Both(), Written(twice)) == Some([Recorded(twice)])
  {
    hide FindingAccepted, FindingFor, LETTERS;
    FindingIsOk(twice);
    LettersCited(twice);
    LettersKeep();
    assert AllAccepted(LETTERS, Flat, Both(), [Raw(twice)]);
    assert FindingsFor(LETTERS, Flat, Both(), [Raw(twice)]) == [Recorded(twice)];
  }

  lemma SpanIsQuoted(twice: bool)
    ensures var spans := ById(Recorded(twice).spans);
            SpanOn(A).id in spans && spans[SpanOn(A).id] == SpanOn(QuotedCall(twice))
  {
    hide SpanId;
    var spans := Recorded(twice).spans;
    assert spans[..0] == [] && (twice ==> spans[..1] == [SpanOn(A)] && spans[..1][..0] == []);
    assert SpanOn(A).id == SpanOn(B).id;
  }

  lemma QuoteIsTaken(twice: bool)
    ensures QuotesTaken(LETTERS, Recorded(twice), [QuotedCall(twice)], Quotes(twice))
  {
    hide ById, Encode;
    SpanIsQuoted(twice);
    OutputBytes();
    ContainsItself();
    assert JudgeCalls(Quotes(twice)) == [QuotedCall(twice)] && JudgeCalls(Quotes(twice))[0] == QuotedCall(twice);
    assert LETTERS.strip(OUTPUT) == OUTPUT;
  }

  lemma ContainsItself()
    ensures Contains(OUTPUT, OUTPUT)
  {
    assert OccursAt(OUTPUT, OUTPUT, 0);
  }

  lemma VerdictIsOk(twice: bool)
    ensures VerdictAccepted(LETTERS, FactsOf(Both()), Recorded(twice), RawJudgment(twice))
    ensures VerdictFor(LETTERS, Recorded(twice), RawJudgment(twice)) == Judgment(twice)
  {
    hide QuotesTaken, ParseStatus, LETTERS, SpanOn;
    QuoteIsTaken(twice);
    StatusIsRead(LETTERS);
    LettersKeep();
  }

  lemma Decides(twice: bool)
    ensures Decision(Plain(), FactsOf(Both()), [Recorded(twice)], [RawJudgment(twice)]) == Some([Judgment(twice)])
  {
    hide VerdictAccepted, VerdictFor, SpanOn;
    VerdictIsOk(twice);
    var findings, raws := [Recorded(twice)], [RawJudgment(twice)];
    assert RawIds(raws) == {A} && FindingIds(findings) == {A} by {
      assert raws[0].findingId == A && findings[0].id == A;
    }
    assert RawFor(raws, A) == Some(RawJudgment(twice));
    assert findings[..0] == [] && AllJudged(LETTERS, FactsOf(Both()), findings, raws);
    assert VerdictsFor(LETTERS, FactsOf(Both()), findings[..0], raws) == [];
    assert VerdictsFor(LETTERS, FactsOf(Both()), findings, raws) == [Judgment(twice)];
  }

  /* ---- The closing steps ---- */

  lemma FourthIsOk(before: seq<Step>, twice: bool)
    requires |before| == 3 && Holds(before, [Kept(A), Kept(B)])
    ensures StepOk(Plain(), before, Fourth(before, twice))
  {
    hide LogOf, Receipts, Account, Where, NotesAt, Remembered, SourcesOf, TxnOk, Conclusion, Recorded, Kept, Both;
    var s := Fourth(before, twice);
    AskedIsOk(Accounting(LogOf(before)), Finalize, s.txn.packet, s.txn.observations, s.txn.catalog, [0x33], [],
              Call(A, SubmitInvestigation(Written(twice)), true));
    SourcesAreBoth();
    Concludes(twice);
  }

  lemma FifthIsOk(before: seq<Step>, twice: bool)
    requires |before| == 4 && Holds(before, [Kept(A), Kept(B)])
    requires before[3].FinalizeStep? && before[3].investigation == Conclusions(twice)
    ensures StepOk(Plain(), before, Fifth(before, twice))
  {
    hide LogOf, Receipts, Account, Where, NotesAt, Remembered, SourcesOf, TxnOk, Decision, Recorded, Kept, Both,
         Judgment, RawJudgment;
    var s := Fifth(before, twice);
    AskedIsOk(Accounting(LogOf(before)), Judge, s.txn.packet, [], [JudgmentForm], [0x34], [],
              Call(A, SubmitJudgment([RawJudgment(twice)]), true));
    SourcesAreBoth();
    Decides(twice);
  }

  lemma DraftIsOk(twice: bool)
    ensures DraftOk(Plain(), Written4(), [Recorded(twice)], [Judgment(twice)])
  {
    hide SpanOn;
    var draft, verdicts := Written4(), [Judgment(twice)];
    assert draft.findingIds[0] == A && draft.spanIds[0] == SpanOn(A).id;
    assert SetOf(draft.findingIds) == {A} && SetOf(draft.spanIds) == {SpanOn(A).id};
    assert [Recorded(twice)][0].id == A && verdicts[0].quotes[0].span == SpanOn(A).id;
    assert QuotedSpans(verdicts) == {SpanOn(A).id};
  }

  lemma SixthReports(before: seq<Step>, twice: bool, last: real)
    ensures Reports(Plain(), Conclusions(twice), [Judgment(twice)], Sixth(before, twice, last))
  {
    hide LogOf, Account, DraftOk, Recorded, Judgment;
    DraftIsOk(twice);
  }

  lemma NothingCharged(before: seq<Step>, t: Txn)
    requires Accounting(LogOf(before)) == FRESH.(toolCalls := 2) && t.reply.usage == Free() && t.callCost == 0.0
    ensures Accounting(LogOf(before) + TxnEvents(t)) == FRESH.(toolCalls := 2)
  {
    hide LogOf, Account, TxnEvents;
    AccountConcat(FRESH, LogOf(before), TxnEvents(t));
    NothingCosts(FRESH.(toolCalls := 2));
    TxnAccount(Accounting(LogOf(before)), t);
  }

  lemma SixthIsOk(before: seq<Step>, twice: bool, last: real)
    requires |before| == 5 && Holds(before, [Kept(A), Kept(B)]) && ElapsedAt(before) == 0.0 <= last
    requires before[4].JudgeStep? && before[4].verdicts == [Judgment(twice)]
    requires before[3].FinalizeStep? && before[3].investigation == Conclusions(twice)
    ensures StepOk(Plain(), before, Sixth(before, twice, last))
  {
    hide LogOf, Receipts, Where, Account, ElapsedAt, TxnOk, TxnEvents, Reports, Judgment, Conclusions, Remembered, Kept;
    var s := Sixth(before, twice, last);
    AskedIsOk(Accounting(LogOf(before)), Report, s.txn.packet, [], [ReportForm], [0x35], [],
              Call(A, SubmitReport(Written4()), true));
    NothingCharged(before, s.txn);
    SixthReports(before, twice, last);
  }

  /* ---- The runs ---- */

  lemma Elapses(steps: seq<Step>, s: Step)
    requires !s.OpeningStep?
    requires if s.txn.packet.InvestigatePacket? then s.txn.packet.budget.elapsed == 0.0 else ElapsedAt(steps) == 0.0
    ensures ElapsedAt(steps + [s]) == 0.0
  {
    assert (steps + [s])[..|steps|] == steps;
  }

  lemma TurnsAreOk() returns (three: seq<Step>)
    ensures var one := [First()]; var two := one + [Second(one)]; three == two + [Third(two)]
    ensures StepsOk(Plain(), three) && Holds(three, [Kept(A), Kept(B)]) && ElapsedAt(three) == 0.0
  {
    hide StepsOk, StepOk, Holds, NotesAt, ElapsedAt, Latest, LogOf, Receipts, Account, Plain;
    var one := [First()];
    var two := one + [Second(one)];
    three := two + [Third(two)];
    NothingHeld();
    FromNothing(First());
    FirstIsOk();
    FirstHolds();
    FirstRemembered();
    StepsOkMore(Plain(), [], First());
    SecondIsOk(one);
    StepsOkMore(Plain(), one, Second(one));
    TurnHolds(one, [Kept(A)], Second(one));
    Elapses(one, Second(one));
    assert [Kept(A)] + [Kept(B)] == [Kept(A), Kept(B)];
    ThirdIsOk(two);
    StepsOkMore(Plain(), two, Third(two));
    OtherHolds(two, [Kept(A), Kept(B)], Third(two));
    Elapses(two, Third(two));
  }

  /** In order so far, with both receipts and no time gone by. */
  predicate Good(steps: seq<Step>) {
    StepsOk(Plain(), steps) && Holds(steps, [Kept(A), Kept(B)]) && ElapsedAt(steps) == 0.0
  }

  lemma OneMore(steps: seq<Step>, s: Step)
    requires Good(steps) && StepOk(Plain(), steps, s) && (s.FinalizeStep? || s.JudgeStep? || s.ReportStep?)
    requires s.txn.reply.usage == Free() && s.txn.callCost == 0.0 && !s.txn.packet.InvestigatePacket?
    ensures Good(steps + [s])
  {
    hide StepsOk, StepOk, Holds, ElapsedAt, Plain, Free;
    StepsOkMore(Plain(), steps, s);
    OtherHolds(steps, [Kept(A), Kept(B)], s);
    Elapses(steps, s);
  }

  lemma StepsAreOk(twice: bool, last: real)
    requires 0.0 <= last
    ensures StepsOk(Plain(), Steps(twice, last)) && Complete(Steps(twice, last))
    ensures Holds(Steps(twice, last), [Kept(A), Kept(B)])
  {
    hide StepsOk, StepOk, Holds, NotesAt, ElapsedAt, Latest, LogOf, Receipts, Account, Plain, Conclusions, Judgment,
         Free, Complete, Recorded, RawJudgment, Written, Kept, First, Third;
    var three := TurnsAreOk();
    var four := three + [Fourth(three, twice)];
    var five := four + [Fifth(four, twice)];
    FourthIsOk(three, twice);
    OneMore(three, Fourth(three, twice));
    FifthIsOk(four, twice);
    OneMore(four, Fifth(four, twice));
    SixthIsOk(five, twice, last);
    OneMore(five, Sixth(five, twice, last));
    StepsAreComplete(twice, last);
  }

  lemma KindsOf(before: seq<Step>, twice: bool, last: real)
    ensures First().OpeningStep? && Second(before).TurnStep? && Third(before).TerminalStep?
    ensures Fourth(before, twice).FinalizeStep? && Fifth(before, twice).JudgeStep? && Sixth(before, twice, last).ReportStep?
  {
    hide Asked, InvestigateRequest;
  }

  lemma StepsAreComplete(twice: bool, last: real)
    ensures Complete(Steps(twice, last))
  {
    hide Steps, First, Second, Third, Fourth, Fifth, Sixth;
    var b := StepList(twice, last);
    KindsOf(b[1], twice, last);
    KindsOf(b[2], twice, last);
    KindsOf(b[3], twice, last);
    KindsOf(b[4], twice, last);
    KindsOf(b[5], twice, last);
    var steps := Steps(twice, last);
    assert steps[..2] == [steps[0], steps[1]];
  }

  predicate HonestAs(s: Step, id: Text) {
    HonestTxn(s.txn) && s.txn.reply.responseId == id && s.txn.reply.requestId == id
  }

  lemma TurnsAreHonest(before: seq<Step>)
    ensures HonestAs(First(), [0x30]) && HonestAs(Second(before), [0x31]) && HonestAs(Third(before), [0x32])
  {
    hide LogOf, Account, Receipts, NotesAt, Remembered, Latest, IndexOf, Views, Conclusions, Judgment, RawJudgment,
         Written, Recorded, Plain, Free;
    FreeTotals();
  }

  lemma FindingIsHonest(before: seq<Step>, twice: bool)
    ensures HonestAs(Fourth(before, twice), [0x33]) && HonestAs(Fifth(before, twice), [0x34])
  {
    hide LogOf, Account, Receipts, NotesAt, Remembered, Latest, IndexOf, Views, Conclusions, Judgment, RawJudgment,
         Written, Recorded, Plain, Free;
    FreeTotals();
  }

  lemma ReportIsHonest(before: seq<Step>, twice: bool, last: real)
    ensures HonestAs(Sixth(before, twice, last), [0x35])
  {
    hide LogOf, Account, Receipts, NotesAt, Remembered, Latest, IndexOf, Views, Conclusions, Judgment, RawJudgment,
         Written, Recorded, Plain, Free;
    FreeTotals();
  }

  lemma FreeTotals()
    ensures Free().providerTotal == Free().input + Free().output
  {}

  /** The steps one by one, each with those before it. */
  lemma StepList(twice: bool, last: real) returns (b: seq<seq<Step>>)
    ensures |b| == 6
    ensures Steps(twice, last) == [First(), Second(b[1]), Third(b[2]), Fourth(b[3], twice), Fifth(b[4], twice),
                                   Sixth(b[5], twice, last)]
  {
    hide First, Second, Third, Fourth, Fifth, Sixth;
    var one := [First()];
    var two := one + [Second(one)];
    var three := two + [Third(two)];
    var four := three + [Fourth(three, twice)];
    b := [[], one, two, three, four, four + [Fifth(four, twice)]];
  }

  lemma StepIsHonest(twice: bool, last: real, i: nat)
    requires i < 6
    ensures HonestAs(Steps(twice, last)[i], [0x30 + i])
  {
    hide Steps, HonestAs, First, Second, Third, Fourth, Fifth, Sixth;
    var b := StepList(twice, last);
    TurnsAreHonest(b[i]);
    FindingIsHonest(b[i], twice);
    ReportIsHonest(b[i], twice, last);
    assert i == 0 || i == 1 || i == 2 || i == 3 || i == 4 || i == 5;
  }

  lemma StepsAreHonest(twice: bool, last: real)
    ensures Honest(Plain(), Steps(twice, last))
  {
    hide HonestTxn, Steps;
    forall i | 0 <= i < 6 ensures HonestAs(Steps(twice, last)[i], [0x30 + i]) {
      StepIsHonest(twice, last, i);
    }
    assert Plain().sol && Plain().forensic == [A];
  }

  lemma PlainScans()
    ensures Trims(Plain().scan) && HexSha(Plain().sha)
  {}

  lemma WasSubmitted(twice: bool, last: real)
    ensures Submitted(Steps(twice, last)) == Written(twice)
  {
    hide LogOf, Account, Receipts, NotesAt, Remembered, Latest, IndexOf, Views;
  }

  lemma NothingCollides(twice: bool)
    ensures NoIdCollision(Flat, Both(), Written(twice))
  {
    hide Encode, FindFrom;
  }

  lemma SameEvidence()
    ensures Repeats(Both(), RawQuotes(true)[0], RawQuotes(true)[1])
  {}

  lemma RepeatsExactly(twice: bool)
    ensures NoRepeats(Both(), Written(twice)) <==> !twice
  {
    hide Repeats, Both;
    assert Written(twice).findings[0] == Raw(twice);
    if twice { SameEvidence(); }
  }

  /** Which of these runs the reader accepts. */
  lemma AcceptedExactly(twice: bool, last: real)
    requires 0.0 <= last
    ensures StepsOk(Plain(), Steps(twice, last)) && Complete(Steps(twice, last)) && Honest(Plain(), Steps(twice, last))
    ensures FreeOfCollisions(Plain(), Steps(twice, last)) && Trims(Plain().scan) && HexSha(Plain().sha)
    ensures Accepted(Plain(), LogOf(Steps(twice, last))) <==> !twice && last < 1_800.0
  {
    hide Trims, HexSha, StepsOk, Complete, Honest, Accepted, LogOf, Both, Steps, Receipts, SourcesOf, NoIdCollision,
         NoRepeats, Kept, Remembered, Account;
    var steps := Steps(twice, last);
    StepsAreOk(twice, last);
    StepsAreHonest(twice, last);
    PlainScans();
    WasSubmitted(twice, last);
    SourcesAreBoth();
    NothingCollides(twice);
    RepeatsExactly(twice);
    LastSnapshot(twice, last);
    ReaderAcceptsUnlessRepeated(Plain(), steps);
  }

  lemma LastSnapshot(twice: bool, last: real)
    ensures OnTime(Plain(), Steps(twice, last)) <==> last < 1_800.0
  {
    hide LogOf, Account, Receipts, NotesAt, Remembered, Latest, IndexOf, Views;
  }

  /** Complete runs that meet every premise of the agreement: one accepted, one refused for
      the evidence it repeats, and one refused for its last clock reading. */
  lemma SomeAreAcceptedSomeRefused() returns (cfg: Config, good: seq<Step>, repeated: seq<Step>, late: seq<Step>)
    ensures cfg.caps == DEFAULT_CAPS && Trims(cfg.scan) && HexSha(cfg.sha)
    ensures forall steps :: steps in [good, repeated, late] ==>
      StepsOk(cfg, steps) && Complete(steps) && Honest(cfg, steps) && FreeOfCollisions(cfg, steps)
    ensures Accepted(cfg, LogOf(good))
    ensures !Accepted(cfg, LogOf(repeated)) && OnTime(cfg, repeated)
    ensures !Accepted(cfg, LogOf(late)) && RepeatsNothing(cfg, late)
  {
    hide Trims, HexSha, StepsOk, Complete, Honest, Accepted, LogOf, FreeOfCollisions, Steps, OnTime, RepeatsNothing;
    cfg, good, repeated, late := Plain(), Steps(false, 1.0), Steps(true, 1.0), Steps(false, 1_800.0);
    AcceptedExactly(false, 1.0);
    AcceptedExactly(true, 1.0);
    AcceptedExactly(false, 1_800.0);
    LastSnapshot(true, 1.0);
    LateRepeatsNothing();
  }

  lemma LateRepeatsNothing()
    ensures RepeatsNothing(Plain(), Steps(false, 1_800.0))
  {
    hide LogOf, Both, Steps, Receipts, SourcesOf, NoRepeats, Kept, Remembered, Account, Complete, StepsOk;
    StepsAreOk(false, 1_800.0);
    WasSubmitted(false, 1_800.0);
    SourcesAreBoth();
    RepeatsExactly(false);
  }
}
