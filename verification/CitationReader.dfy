/** The strict reader's checks of recorded findings and spans, and the exact condition
    under which it accepts what the controller accepted. */
module CitationReader {
  import opened Wrappers
  import opened Utf8
  import opened Search
  import opened CanonicalJson
  import opened Citations

  datatype Problem =
    | TooManySpans | NoSpanId | DuplicateSpanId(id: Text) | OutsideCitations | InvalidDigest
    | InvalidRange | EmptyText | NotUtf8 | TooLong | RangeLength | NoOccurrence | UnknownReceipt
    | WrongDigest | WrongSpanId | Unresolved | WrongCount | TooManyForCall | MissingSpans
    | NoFindingId | DuplicateFinding(id: Text) | NoCitation | DuplicateCitation | UnknownCall
    | InlineMismatch | NoSuccess
    | QuoteProblem | DuplicateQuote | AbsentFromEvidence | AbsentFromOutput | MissingQuotes
    | NoVerdictId | DuplicateVerdict(id: Text) | VerdictSet | Upgraded | NoRationale

  /** Python's slice: bounds past the end are cut off. */
  function Slice(bs: Bytes, start: int, length: int): Bytes
    requires start >= 0 && length >= 0
  {
    if start >= |bs| then []
    else if start + length >= |bs| then bs[start..]
    else bs[start..start + length]
  }

  predicate WellShaped(scan: Scan, cited: seq<Text>, s: Span) {
    && s.id != [] && s.call != [] && s.call in cited && IsDigest(s.digest)
    && 0 <= s.start < s.end
    && Visible(scan, s.text) && Encodable(s.text)
  }

  predicate SpanMatches(sha: Sha, fact: Fact, s: Span)
    requires 0 <= s.start < s.end
  {
    && |Encode(s.text)| <= MAX_QUOTE_BYTES
    && s.end - s.start == |Encode(s.text)|
    && s.occurrences >= 1
    && s.digest == fact.digest
    && s.id == SpanId(sha, s.digest, s.start, s.end)
    && Slice(fact.content, s.start, s.end - s.start) == Encode(s.text)
    && (s.text != [] && Encode(s.text) != [] ==> s.occurrences == CountFrom(fact.content, Encode(s.text), 0))
  }

  predicate SpanOk(scan: Scan, sha: Sha, facts: Facts, cited: seq<Text>, s: Span) {
    WellShaped(scan, cited, s) && s.call in facts && SpanMatches(sha, facts[s.call], s)
  }

  function SpanCalls(spans: seq<Span>): seq<Text> {
    seq(|spans|, i requires 0 <= i < |spans| => spans[i].call)
  }

  predicate AllSpansOk(scan: Scan, sha: Sha, facts: Facts, cited: seq<Text>, spans: seq<Span>) {
    && (forall s :: s in spans ==> SpanOk(scan, sha, facts, cited, s))
    && AtMostFour(SpanCalls(spans))
  }

  predicate DistinctSpanIds(spans: seq<Span>) {
    forall i, j :: 0 <= i < j < |spans| ==> spans[i].id != spans[j].id
  }

  predicate SpansAccepted(scan: Scan, sha: Sha, facts: Facts, cited: seq<Text>, spans: seq<Span>) {
    && |spans| <= MAX_QUOTES
    && AllSpansOk(scan, sha, facts, cited, spans) && DistinctSpanIds(spans)
    && forall c :: c in cited ==> c in SpanCalls(spans)
  }

  /** The dictionary of parsed spans the quote checks use. */
  function ById(spans: seq<Span>): map<Text, Span> {
    if spans == [] then map[]
    else ById(spans[..|spans| - 1])[spans[|spans| - 1].id := spans[|spans| - 1]]
  }

  predicate AnySuccess(facts: Facts, calls: seq<Text>) {
    exists c :: c in calls && c in facts && facts[c].success
  }

  predicate CitesWell(facts: Facts, calls: seq<Text>) {
    && calls != [] && [] !in calls && Distinct(calls)
    && forall c :: c in calls ==> c in facts
  }

  /** What the reader asks of one recorded finding, but for its id. */
  predicate FindingOk(scan: Scan, sha: Sha, facts: Facts, f: Finding) {
    && CitesWell(facts, f.calls)
    && scan.cites(f.summary) == SetOf(f.calls)
    && (f.status == Confirmed ==> AnySuccess(facts, f.calls))
    && SpansAccepted(scan, sha, facts, f.calls, f.spans)
  }

  predicate FindingsOk(scan: Scan, sha: Sha, facts: Facts, findings: seq<Finding>) {
    && (forall i :: 0 <= i < |findings| ==> findings[i].id != [] && FindingOk(scan, sha, facts, findings[i]))
    && (forall i, j :: 0 <= i < j < |findings| ==> findings[i].id != findings[j].id)
  }

  function EvidenceOf(findings: seq<Finding>): map<Text, map<Text, Span>> {
    if findings == [] then map[]
    else EvidenceOf(findings[..|findings| - 1])
           [findings[|findings| - 1].id := ById(findings[|findings| - 1].spans)]
  }

  /** Where the quoted text must be: in the span the quote names, or in the excerpt when the
      finding has no spans. */
  predicate InEvidence(spans: map<Text, Span>, fact: Fact, q: JudgeQuote) {
    if spans == map[] then Contains(fact.excerpt, q.text)
    else q.span in spans && spans[q.span].call == q.call && Contains(spans[q.span].text, q.text)
  }

  predicate QuoteShaped(scan: Scan, facts: Facts, cited: seq<Text>, spans: map<Text, Span>, q: JudgeQuote) {
    && (spans != map[] ==> q.span != [])
    && q.call != [] && Visible(scan, q.text) && Encodable(q.text)
    && q.call in cited && q.call in facts
  }

  predicate QuoteOk(scan: Scan, facts: Facts, cited: seq<Text>, spans: map<Text, Span>, q: JudgeQuote) {
    && QuoteShaped(scan, facts, cited, spans, q)
    && |Encode(q.text)| <= MAX_QUOTE_BYTES
    && InEvidence(spans, facts[q.call], q) && Contains(facts[q.call].content, Encode(q.text))
  }

  function JudgeCalls(quotes: seq<JudgeQuote>): seq<Text> {
    seq(|quotes|, i requires 0 <= i < |quotes| => quotes[i].call)
  }

  predicate JudgeQuotesOk(scan: Scan, facts: Facts, cited: seq<Text>, spans: map<Text, Span>, quotes: seq<JudgeQuote>) {
    && (forall q :: q in quotes ==> QuoteOk(scan, facts, cited, spans, q))
    && (forall i, j :: 0 <= i < j < |quotes| ==> quotes[i] != quotes[j])
    && forall c :: c in cited ==> c in JudgeCalls(quotes)
  }

  /** The reader's own ranks. */
  function FindingRank(s: Status): nat {
    assert s.Unsupported? || s.NeedsReview? || s.Confirmed?;
    map[Unsupported := 0, NeedsReview := 1, Confirmed := 2][s]
  }

  /** The controller ranks statuses as the reader does. */
  lemma RanksAgree(a: Status, b: Status)
    ensures Rank(a) <= Rank(b) <==> FindingRank(a) <= FindingRank(b)
  {}

  /** Review that only lowers, status by status: what ends CONFIRMED was proposed so, what ends
      NEEDS-REVIEW was not proposed UNSUPPORTED, and what was proposed UNSUPPORTED stays so. */
  predicate Lowers(final: Status, proposed: Status) {
    && (final == Confirmed ==> proposed == Confirmed)
    && (final == NeedsReview ==> proposed != Unsupported)
    && (proposed == Unsupported ==> final == Unsupported)
  }

  lemma RankLowers(final: Status, proposed: Status)
    ensures FindingRank(final) <= FindingRank(proposed) <==> Lowers(final, proposed)
  {}

  /** What the reader asks of one recorded verdict on a finding. */
  predicate VerdictOk(scan: Scan, facts: Facts, f: Finding, v: Verdict) {
    && FindingRank(v.status) <= FindingRank(f.status)
    && scan.strip(v.rationale) != []
    && CitesWell(facts, v.cited) && (forall c :: c in v.cited ==> c in f.calls)
    && (v.status == Confirmed ==> AnySuccess(facts, v.cited))
    && JudgeQuotesOk(scan, facts, v.cited, ById(f.spans), v.quotes)
  }

  predicate SameIds(findings: seq<Finding>, verdicts: seq<Verdict>) {
    && (forall i :: 0 <= i < |verdicts| ==> verdicts[i].findingId != [])
    && (forall i, j :: 0 <= i < j < |verdicts| ==> verdicts[i].findingId != verdicts[j].findingId)
    && VerdictIds(verdicts) == FindingIds(findings)
  }

  /** What the reader asks of a log's findings and of its verdicts on them. */
  predicate CitationsOk(scan: Scan, sha: Sha, facts: Facts, findings: seq<Finding>, verdicts: seq<Verdict>) {
    && FindingsOk(scan, sha, facts, findings) && SameIds(findings, verdicts)
    && forall i, j :: 0 <= i < |verdicts| && 0 <= j < |findings| && verdicts[i].findingId == findings[j].id ==>
         VerdictOk(scan, facts, findings[j], verdicts[i])
  }

  function VerdictIds(verdicts: seq<Verdict>): set<Text> {
    set i | 0 <= i < |verdicts| :: verdicts[i].findingId
  }

  class Reader {
    const scan: Scan
    const sha: Sha
    const facts: Facts
    var errors: seq<Problem>

    constructor (scan: Scan, sha: Sha, facts: Facts)
      ensures this.scan == scan && this.sha == sha && this.facts == facts && errors == []
    {
      this.scan, this.sha, this.facts, errors := scan, sha, facts, [];
    }

    method Error(p: Problem)
      modifies this`errors
      ensures errors != []
    {
      if p !in errors { errors := errors + [p]; }
    }

    /** The checks that end the work on a span when they fail. */
    method CheckShape(cited: seq<Text>, s: Span) returns (kept: bool)
      modifies this`errors
      ensures errors == [] <==> old(errors) == [] && WellShaped(scan, cited, s)
      ensures kept <==> WellShaped(scan, cited, s)
    {
      kept := false;
      if s.id == [] { Error(NoSpanId); return; }
      if s.call == [] || s.call !in cited { Error(OutsideCitations); return; }
      var hexadecimal := CheckDigest(s.digest);
      if !hexadecimal { Error(InvalidDigest); return; }
      if s.start < 0 || s.end <= s.start { Error(InvalidRange); return; }
      if s.text == [] || scan.strip(s.text) == [] { Error(EmptyText); return; }
      if !Encodable(s.text) { Error(NotUtf8); return; }
      kept := true;
    }

    method CheckMatch(fact: Fact, s: Span)
      requires 0 <= s.start < s.end && s.text != []
      modifies this`errors
      ensures errors == [] <==> old(errors) == [] && SpanMatches(sha, fact, s)
    {
      var encoded := Encode(s.text);
      EncodeAtLeast(s.text);
      if |encoded| > MAX_QUOTE_BYTES { Error(TooLong); }
      if s.end - s.start != |encoded| { Error(RangeLength); }
      if s.occurrences < 1 { Error(NoOccurrence); }
      if s.digest != fact.digest { Error(WrongDigest); }
      var named := sha(Encode(s.digest + ([0x3A] + (Decimal(s.start) + ([0x3A] + Decimal(s.end))))));
      if s.id != [0x53] + (if |named| < 24 then named else named[..24]) { Error(WrongSpanId); }
      var from, to := if s.start < |fact.content| then s.start else |fact.content|, |fact.content|;
      if s.end < to { to := s.end; }
      if from > to || fact.content[from..to] != encoded { Error(Unresolved); }
      if s.occurrences != CountFrom(fact.content, encoded, 0) { Error(WrongCount); }
    }

    /** One span: its own checks, then the count for its call. */
    method CheckSpan(cited: seq<Text>, s: Span, count: nat)
      modifies this`errors
      ensures errors == [] <==>
              old(errors) == [] && SpanOk(scan, sha, facts, cited, s) && count < MAX_QUOTES_PER_CALL
    {
      var kept := CheckShape(cited, s);
      if !kept { return; }
      if s.call !in facts { Error(UnknownReceipt); return; }
      CheckMatch(facts[s.call], s);
      if count >= MAX_QUOTES_PER_CALL { Error(TooManyForCall); }
    }

    /** `_verify_supporting_spans` where spans are required. */
    method VerifySupportingSpans(cited: seq<Text>, spans: seq<Span>) returns (parsed: map<Text, Span>)
      modifies this`errors
      ensures errors == [] <==> old(errors) == [] && SpansAccepted(scan, sha, facts, cited, spans)
      ensures errors == [] ==> parsed == ById(spans)
    {
      if |spans| > MAX_QUOTES { Error(TooManySpans); }
      parsed := map[];
      var perCall: map<Text, nat>, i := map[], 0;
      while i < |spans|
        invariant 0 <= i <= |spans|
        invariant errors == [] <==>
          && old(errors) == [] && |spans| <= MAX_QUOTES
          && AllSpansOk(scan, sha, facts, cited, spans[..i]) && DistinctSpanIds(spans[..i])
        invariant errors == [] ==> parsed == ById(spans[..i]) && Counts(SpanCalls(spans)[..i], perCall)
      {
        var s := spans[i];
        var count := if s.call in perCall then perCall[s.call] else 0;
        SpansOneMore(scan, sha, facts, cited, spans, i);
        IdsOneMore(spans, i);
        if errors == [] { CountsStep(SpanCalls(spans), i, perCall, count); }
        if s.id in parsed {
          Error(DuplicateSpanId(s.id));
        } else {
          CheckSpan(cited, s, count);
          parsed, perCall := parsed[s.id := s], perCall[s.call := count + 1];
        }
        i := i + 1;
      }
      assert spans[..|spans|] == spans;
      if exists c :: c in cited && c !in SpanCalls(spans) { Error(MissingSpans); }
    }

    method CheckCalls(calls: seq<Text>) returns (kept: bool)
      modifies this`errors
      ensures errors == [] <==> old(errors) == [] && CitesWell(facts, calls)
      ensures kept <==> calls != [] && [] !in calls
    {
      kept := calls != [] && [] !in calls;
      if !kept { Error(NoCitation); return; }
      if !Distinct(calls) { Error(DuplicateCitation); }
      if exists c :: c in calls && c !in facts { Error(UnknownCall); }
    }

    method VerifyFinding(f: Finding) returns (spans: map<Text, Span>)
      modifies this`errors
      ensures errors == [] <==> old(errors) == [] && FindingOk(scan, sha, facts, f)
      ensures errors == [] ==> spans == ById(f.spans)
    {
      spans := map[];
      var kept := CheckCalls(f.calls);
      if !kept { return; }
      if scan.cites(f.summary) != SetOf(f.calls) { Error(InlineMismatch); }
      if f.status == Confirmed && !exists c :: c in f.calls && c in facts && facts[c].success { Error(NoSuccess); }
      spans := VerifySupportingSpans(f.calls, f.spans);
    }

    /** The findings of `_verify_citations`, with the spans it keeps for the verdicts. */
    method VerifyFindings(findings: seq<Finding>) returns (evidence: map<Text, map<Text, Span>>)
      modifies this`errors
      ensures errors == [] <==> old(errors) == [] && FindingsOk(scan, sha, facts, findings)
      ensures errors == [] ==> evidence == EvidenceOf(findings)
    {
      evidence := map[];
      var seen: set<Text>, i := {}, 0;
      while i < |findings|
        invariant 0 <= i <= |findings|
        invariant errors == [] <==> old(errors) == [] && FindingsOk(scan, sha, facts, findings[..i])
        invariant errors == [] ==> evidence == EvidenceOf(findings[..i]) && seen == FindingIds(findings[..i])
      {
        var f := findings[i];
        FindingsOneMore(scan, sha, facts, findings, i);
        if f.id == [] {
          Error(NoFindingId);
        } else if f.id in seen {
          Error(DuplicateFinding(f.id));
        } else {
          seen := seen + {f.id};
          var spans := VerifyFinding(f);
          evidence := evidence[f.id := spans];
        }
        i := i + 1;
      }
      assert findings[..|findings|] == findings;
    }

    method CheckQuote(cited: seq<Text>, spans: map<Text, Span>, q: JudgeQuote)
      modifies this`errors
      ensures errors == [] <==> old(errors) == [] && QuoteOk(scan, facts, cited, spans, q)
    {
      if q.call == [] || q.call !in cited || q.call !in facts { Error(QuoteProblem); return; }
      if spans != map[] && q.span == [] { Error(QuoteProblem); return; }
      if q.text == [] || scan.strip(q.text) == [] || !Encodable(q.text) { Error(QuoteProblem); return; }
      if |Encode(q.text)| > MAX_QUOTE_BYTES { Error(TooLong); }
      if spans == map[] {
        if !Contains(facts[q.call].excerpt, q.text) { Error(AbsentFromEvidence); }
      } else if q.span !in spans || spans[q.span].call != q.call || !Contains(spans[q.span].text, q.text) {
        Error(AbsentFromEvidence);
      }
      if !Contains(facts[q.call].content, Encode(q.text)) { Error(AbsentFromOutput); }
    }

    /** `_verify_quotes`. */
    method VerifyQuotes(cited: seq<Text>, spans: map<Text, Span>, quotes: seq<JudgeQuote>)
      modifies this`errors
      ensures errors == [] <==> old(errors) == [] && JudgeQuotesOk(scan, facts, cited, spans, quotes)
    {
      var seen: set<JudgeQuote>, i := {}, 0;
      while i < |quotes|
        invariant 0 <= i <= |quotes|
        invariant forall q :: q in seen <==> q in quotes[..i]
        invariant errors == [] <==>
          && old(errors) == []
          && (forall q :: q in quotes[..i] ==> QuoteOk(scan, facts, cited, spans, q))
          && (forall j, k :: 0 <= j < k < i ==> quotes[j] != quotes[k])
      {
        var q := quotes[i];
        assert quotes[..i + 1] == quotes[..i] + [q];
        if q in seen { Error(DuplicateQuote); }
        seen := seen + {q};
        CheckQuote(cited, spans, q);
        i := i + 1;
      }
      assert quotes[..|quotes|] == quotes;
      if exists c :: c in cited && c !in JudgeCalls(quotes) { Error(MissingQuotes); }
    }

    method CheckVerdictIds(findings: seq<Finding>, verdicts: seq<Verdict>)
      modifies this`errors
      ensures errors == [] <==> old(errors) == [] && SameIds(findings, verdicts)
    {
      var seen: set<Text>, i := {}, 0;
      while i < |verdicts|
        invariant 0 <= i <= |verdicts|
        invariant errors == [] <==>
          && old(errors) == []
          && (forall k :: 0 <= k < i ==> verdicts[k].findingId != [])
          && (forall j, k :: 0 <= j < k < i ==> verdicts[j].findingId != verdicts[k].findingId)
        invariant errors == [] ==> seen == set k | 0 <= k < i :: verdicts[k].findingId
      {
        var id := verdicts[i].findingId;
        if id == [] {
          Error(NoVerdictId);
        } else if id in seen {
          Error(DuplicateVerdict(id));
        } else {
          seen := seen + {id};
        }
        i := i + 1;
      }
      if seen != FindingIds(findings) { Error(VerdictSet); }
    }

    /** `_verify_citations` on the recorded findings and verdicts of a complete run. */
    method VerifyCitations(findings: seq<Finding>, verdicts: seq<Verdict>)
      modifies this`errors
      ensures errors == [] <==> old(errors) == [] && CitationsOk(scan, sha, facts, findings, verdicts)
    {
      var evidence := VerifyFindings(findings);
      CheckVerdictIds(findings, verdicts);
      ghost var before := errors == [];
      var i := 0;
      while i < |verdicts|
        invariant 0 <= i <= |verdicts|
        invariant errors == [] <==>
          before && forall k, j :: 0 <= k < i && 0 <= j < |findings| && verdicts[k].findingId == findings[j].id ==>
            VerdictOk(scan, facts, findings[j], verdicts[k])
      {
        if j :| 0 <= j < |findings| && findings[j].id == verdicts[i].findingId {
          if before { EvidenceAt(findings, j); }
          VerifyVerdict(findings[j], if findings[j].id in evidence then evidence[findings[j].id] else map[], verdicts[i]);
        }
        i := i + 1;
      }
    }

    /** One verdict against its finding and the spans kept for it. */
    method VerifyVerdict(f: Finding, spans: map<Text, Span>, v: Verdict)
      requires errors == [] ==> spans == ById(f.spans)
      modifies this`errors
      ensures errors == [] <==> old(errors) == [] && VerdictOk(scan, facts, f, v)
    {
      if FindingRank(v.status) > FindingRank(f.status) { Error(Upgraded); }
      if scan.strip(v.rationale) == [] { Error(NoRationale); }
      var kept := CheckCalls(v.cited);
      if !kept { return; }
      if exists c :: c in v.cited && c !in f.calls { Error(OutsideCitations); }
      if v.status == Confirmed && !exists c :: c in v.cited && c in facts && facts[c].success { Error(NoSuccess); }
      VerifyQuotes(v.cited, spans, v.quotes);
    }
  }

  lemma {:induction false} EvidenceAt(findings: seq<Finding>, j: nat)
    requires j < |findings|
    requires forall i, k :: 0 <= i < k < |findings| ==> findings[i].id != findings[k].id
    ensures findings[j].id in EvidenceOf(findings) && EvidenceOf(findings)[findings[j].id] == ById(findings[j].spans)
  {
    if j < |findings| - 1 { EvidenceAt(findings[..|findings| - 1], j); }
  }

  function FindingIds(findings: seq<Finding>): set<Text> {
    set i | 0 <= i < |findings| :: findings[i].id
  }

  lemma FindingsOneMore(scan: Scan, sha: Sha, facts: Facts, findings: seq<Finding>, n: nat)
    requires n < |findings|
    ensures FindingsOk(scan, sha, facts, findings[..n + 1])
       <==> && FindingsOk(scan, sha, facts, findings[..n]) && findings[n].id != []
            && findings[n].id !in FindingIds(findings[..n]) && FindingOk(scan, sha, facts, findings[n])
    ensures FindingIds(findings[..n + 1]) == FindingIds(findings[..n]) + {findings[n].id}
    ensures EvidenceOf(findings[..n + 1]) == EvidenceOf(findings[..n])[findings[n].id := ById(findings[n].spans)]
  {
    var longer, shorter := findings[..n + 1], findings[..n];
    assert longer[..n] == shorter && longer[n] == findings[n];
    assert forall i :: 0 <= i < n ==> longer[i] == shorter[i];
  }

  lemma SpansOneMore(scan: Scan, sha: Sha, facts: Facts, cited: seq<Text>, spans: seq<Span>, n: nat)
    requires n < |spans|
    ensures AllSpansOk(scan, sha, facts, cited, spans[..n + 1])
       <==> && AllSpansOk(scan, sha, facts, cited, spans[..n])
            && SpanOk(scan, sha, facts, cited, spans[n])
            && Times(SpanCalls(spans)[..n], spans[n].call) < MAX_QUOTES_PER_CALL
  {
    var longer := spans[..n + 1];
    assert longer[..n] == spans[..n] && longer[n] == spans[n];
    assert SpanCalls(longer) == SpanCalls(spans)[..n + 1] && SpanCalls(spans[..n]) == SpanCalls(spans)[..n];
    FourStep(SpanCalls(spans), n);
    EachOneMore(scan, sha, facts, cited, spans, n);
  }

  lemma EachOneMore(scan: Scan, sha: Sha, facts: Facts, cited: seq<Text>, spans: seq<Span>, n: nat)
    requires n < |spans|
    ensures (forall s :: s in spans[..n + 1] ==> SpanOk(scan, sha, facts, cited, s))
       <==> (forall s :: s in spans[..n] ==> SpanOk(scan, sha, facts, cited, s)) && SpanOk(scan, sha, facts, cited, spans[n])
  {
    assert spans[..n + 1] == spans[..n] + [spans[n]];
  }

  lemma {:induction false} ByIdKeys(spans: seq<Span>)
    ensures forall id :: id in ById(spans) <==> exists i :: 0 <= i < |spans| && spans[i].id == id
    ensures DistinctSpanIds(spans) ==> forall i :: 0 <= i < |spans| ==> ById(spans)[spans[i].id] == spans[i]
  {
    if spans != [] { ByIdKeys(spans[..|spans| - 1]); }
  }

  lemma IdsOneMore(spans: seq<Span>, n: nat)
    requires n < |spans|
    ensures DistinctSpanIds(spans[..n + 1]) <==> DistinctSpanIds(spans[..n]) && spans[n].id !in ById(spans[..n])
    ensures ById(spans[..n + 1]) == ById(spans[..n])[spans[n].id := spans[n]]
  {
    ByIdKeys(spans[..n]);
    assert spans[..n + 1][..n] == spans[..n];
  }

  /* ---- When the reader accepts what the controller resolved ---- */

  lemma ResolvedSpanPasses(scan: Scan, sha: Sha, sources: Sources, cited: seq<Text>, q: Quote)
    requires HexSha(sha) && QuoteResolves(scan, sha, sources, cited, q)
    ensures SpanOk(scan, sha, FactsOf(sources), cited, SpanFor(sha, sources[q.call], q))
  {
    hide Encode, FindFrom, SpanId, IsDigest, OccursAt;
    var content, encoded := Encode(sources[q.call].output), Encode(q.text);
    EncodeAtLeast(q.text);
    FindIsFirst(content, encoded, 0);
    var p := FindFrom(content, encoded, 0).p;
    assert OccursAt(content, encoded, p);
    assert Slice(content, p, |encoded|) == content[p..p + |encoded|];
    assert IsDigest(sources[q.call].digest);
  }

  /** On quotes the controller accepted, the reader's only remaining doubt is whether two
      spans have the same id. */
  lemma SpansAgree(scan: Scan, sha: Sha, sources: Sources, cited: seq<Text>, quotes: seq<Quote>)
    requires HexSha(sha) && QuotesAccepted(scan, sha, sources, cited, quotes)
    ensures SpansAccepted(scan, sha, FactsOf(sources), cited, SpansFor(scan, sha, sources, cited, quotes))
       <==> DistinctSpanIds(SpansFor(scan, sha, sources, cited, quotes))
  {
    var spans := SpansFor(scan, sha, sources, cited, quotes);
    forall s | s in spans ensures SpanOk(scan, sha, FactsOf(sources), cited, s) {
      var i :| 0 <= i < |spans| && spans[i] == s;
      assert quotes[i] in quotes;
      ResolvedSpanPasses(scan, sha, sources, cited, quotes[i]);
    }
    assert SpanCalls(spans) == QuoteCalls(quotes);
  }

  /** Two quotes with one text, taken from calls that retained the same output. */
  predicate RepeatedEvidence(sources: Sources, quotes: seq<Quote>) {
    exists i, j :: 0 <= i < j < |quotes| && Repeats(sources, quotes[i], quotes[j])
  }

  predicate Repeats(sources: Sources, q: Quote, r: Quote) {
    && q.call in sources && r.call in sources && q.text == r.text
    && sources[q.call].output == sources[r.call].output
  }

  /** Two byte strings whose SHA-256 begins with the same 24 characters. */
  predicate Collide(sha: Sha, x: Bytes, y: Bytes) {
    x != y && First24(sha(x)) == First24(sha(y))
  }

  /** The bytes the id of a quote's span is taken from. */
  function Hashed(s: Source, q: Quote): Bytes {
    var at := FindFrom(Encode(s.output), Encode(q.text), 0);
    if at.At? then Encode(Material(s.digest, at.p, at.p + |Encode(q.text)|)) else []
  }

  /** Of what was hashed for these two quotes, two different strings begin alike. */
  predicate HashesCollide(sha: Sha, a: Source, q: Quote, b: Source, r: Quote) {
    Collide(sha, Encode(a.output), Encode(b.output)) || Collide(sha, Hashed(a, q), Hashed(b, r))
  }

  /** Two quotes of one finding exhibit a 24-character SHA-256 collision. */
  predicate IdCollision(sha: Sha, sources: Sources, quotes: seq<Quote>) {
    exists i, j :: 0 <= i < j < |quotes| && CollidingQuotes(sha, sources, quotes[i], quotes[j])
  }

  predicate CollidingQuotes(sha: Sha, sources: Sources, q: Quote, r: Quote) {
    q.call in sources && r.call in sources && HashesCollide(sha, sources[q.call], q, sources[r.call], r)
  }

  lemma MaterialInjective(d1: Text, s1: nat, e1: nat, d2: Text, s2: nat, e2: nat)
    requires |d1| == |d2| && Material(d1, s1, e1) == Material(d2, s2, e2)
    ensures d1 == d2 && s1 == s2 && e1 == e2
  {
    var r1, r2 := [0x3A] + Decimal(e1), [0x3A] + Decimal(e2);
    assert d1 == Material(d1, s1, e1)[..|d1|] && d2 == Material(d2, s2, e2)[..|d2|];
    DropFront(d1, [0x3A] + (Decimal(s1) + r1));
    DropFront(d2, [0x3A] + (Decimal(s2) + r2));
    DropFront([0x3A], Decimal(s1) + r1);
    DropFront([0x3A], Decimal(s2) + r2);
    DecimalNonempty(s1);
    DecimalNonempty(s2);
    NumberEnds(Decimal(s1), Decimal(s2), r1, r2);
    DropFront([0x3A], Decimal(e1));
    DropFront([0x3A], Decimal(e2));
    DecimalInjective(s1, s2);
    DecimalInjective(e1, e2);
  }

  lemma SameIdSamePlace(sha: Sha, d1: Text, s1: nat, e1: nat, d2: Text, s2: nat, e2: nat)
    requires |d1| == |d2| && SpanId(sha, d1, s1, e1) == SpanId(sha, d2, s2, e2)
    requires !Collide(sha, Encode(Material(d1, s1, e1)), Encode(Material(d2, s2, e2)))
    ensures d1 == d2 && s1 == s2 && e1 == e2
  {
    var x, y := Encode(Material(d1, s1, e1)), Encode(Material(d2, s2, e2));
    DropFront([0x53], First24(sha(x)));
    DropFront([0x53], First24(sha(y)));
    EncodeInjective(Material(d1, s1, e1), Material(d2, s2, e2));
    MaterialInjective(d1, s1, e1, d2, s2, e2);
  }

  lemma SameDigestSameOutput(sha: Sha, a: Source, b: Source)
    requires Retained(sha, a) && Retained(sha, b) && a.digest == b.digest
    requires !Collide(sha, Encode(a.output), Encode(b.output))
    ensures a.output == b.output
  {
    EncodeInjective(a.output, b.output);
  }

  lemma SameRangeSameText(content: Bytes, t: Text, u: Text)
    requires FindFrom(content, Encode(t), 0).At? && FindFrom(content, Encode(u), 0).At?
    requires FindFrom(content, Encode(t), 0) == FindFrom(content, Encode(u), 0) && |Encode(t)| == |Encode(u)|
    ensures t == u
  {
    FindIsFirst(content, Encode(t), 0);
    FindIsFirst(content, Encode(u), 0);
    EncodeInjective(t, u);
  }

  lemma SameIdSameEvidence(sha: Sha, a: Source, b: Source, q: Quote, r: Quote)
    requires HexSha(sha) && !HashesCollide(sha, a, q, b, r)
    requires Retained(sha, a) && Retained(sha, b) && q.text != [] && r.text != []
    requires FindFrom(Encode(a.output), Encode(q.text), 0).At? && FindFrom(Encode(b.output), Encode(r.text), 0).At?
    requires SpanFor(sha, a, q).id == SpanFor(sha, b, r).id
    ensures a.output == b.output && q.text == r.text
  {
    hide Encode, FindFrom, CountFrom, SpanId, Material, Collide;
    var s, t := SpanFor(sha, a, q), SpanFor(sha, b, r);
    SameIdSamePlace(sha, s.digest, s.start, s.end, t.digest, t.start, t.end);
    SameDigestSameOutput(sha, a, b);
    SameRangeSameText(Encode(a.output), q.text, r.text);
  }

  lemma SameEvidenceSameId(scan: Scan, sha: Sha, sources: Sources, cited: seq<Text>, quotes: seq<Quote>, i: nat, j: nat)
    requires AllResolve(scan, sha, sources, cited, quotes) && i < |quotes| && j < |quotes|
    requires quotes[i].call in sources && quotes[j].call in sources && quotes[i].text == quotes[j].text
    requires sources[quotes[i].call].output == sources[quotes[j].call].output
    ensures SpansFor(scan, sha, sources, cited, quotes)[i].id == SpansFor(scan, sha, sources, cited, quotes)[j].id
  {
    SpanAt(scan, sha, sources, cited, quotes, i);
    SpanAt(scan, sha, sources, cited, quotes, j);
  }

  lemma RepeatedIsDuplicate(scan: Scan, sha: Sha, sources: Sources, cited: seq<Text>, quotes: seq<Quote>)
    requires AllResolve(scan, sha, sources, cited, quotes) && RepeatedEvidence(sources, quotes)
    ensures !DistinctSpanIds(SpansFor(scan, sha, sources, cited, quotes))
  {
    var i, j :| 0 <= i < j < |quotes| && Repeats(sources, quotes[i], quotes[j]);
    SameEvidenceSameId(scan, sha, sources, cited, quotes, i, j);
  }

  lemma SpanAt(scan: Scan, sha: Sha, sources: Sources, cited: seq<Text>, quotes: seq<Quote>, i: nat)
    requires AllResolve(scan, sha, sources, cited, quotes) && i < |quotes|
    ensures QuoteResolves(scan, sha, sources, cited, quotes[i])
    ensures SpansFor(scan, sha, sources, cited, quotes)[i] == SpanFor(sha, sources[quotes[i].call], quotes[i])
  {
    assert quotes[i] in quotes;
  }

  lemma DistinctUnlessRepeated(scan: Scan, sha: Sha, sources: Sources, cited: seq<Text>, quotes: seq<Quote>)
    requires HexSha(sha) && !IdCollision(sha, sources, quotes) && QuotesAccepted(scan, sha, sources, cited, quotes)
    requires !RepeatedEvidence(sources, quotes)
    ensures DistinctSpanIds(SpansFor(scan, sha, sources, cited, quotes))
  {
    var spans := SpansFor(scan, sha, sources, cited, quotes);
    forall i, j | 0 <= i < j < |spans| ensures spans[i].id != spans[j].id {
      SpanAt(scan, sha, sources, cited, quotes, i);
      SpanAt(scan, sha, sources, cited, quotes, j);
      if spans[i].id == spans[j].id {
        SameIdSameEvidence(sha, sources[quotes[i].call], sources[quotes[j].call], quotes[i], quotes[j]);
      }
    }
  }

  /** The controller's and the reader's programs for supporting spans agree exactly when no
      two quotes of the finding repeat one text from identical outputs. */
  lemma SpansAgreeUnlessRepeated(scan: Scan, sha: Sha, sources: Sources, cited: seq<Text>, quotes: seq<Quote>)
    requires HexSha(sha) && !IdCollision(sha, sources, quotes) && QuotesAccepted(scan, sha, sources, cited, quotes)
    ensures SpansAccepted(scan, sha, FactsOf(sources), cited, SpansFor(scan, sha, sources, cited, quotes))
       <==> !RepeatedEvidence(sources, quotes)
  {
    SpansAgree(scan, sha, sources, cited, quotes);
    if RepeatedEvidence(sources, quotes) {
      RepeatedIsDuplicate(scan, sha, sources, cited, quotes);
    } else {
      DistinctUnlessRepeated(scan, sha, sources, cited, quotes);
    }
  }

  /** The condition is not idle: one quote from each of two calls that returned the same
      text is accepted by the controller and refused by the reader. */
  lemma IdenticalOutputsAreRefused(sha: Sha)
      returns (scan: Scan, sources: Sources, cited: seq<Text>, quotes: seq<Quote>)
    ensures QuotesAccepted(scan, sha, sources, cited, quotes)
    ensures !SpansAccepted(scan, sha, FactsOf(sources), cited, SpansFor(scan, sha, sources, cited, quotes))
  {
    var x: Text := [0x78];
    scan := Scan(t => t, t => t, t => {});
    var source := Source(x, sha(Encode(x)), true);
    sources := map[[0x61] := source, [0x62] := source];
    cited := [[0x61], [0x62]];
    quotes := [Quote([0x61], x), Quote([0x62], x)];
    var b := Encode(x);
    assert x[1..] == [] && b == [0x78] && OccursAt(b, b, 0);
    assert QuoteCalls(quotes) == cited;
    assert multiset(cited) == multiset{[0x61], [0x62]};
    assert QuoteCalls(quotes)[0] == [0x61] && QuoteCalls(quotes)[1] == [0x62];
    assert Repeats(sources, quotes[0], quotes[1]);
    RepeatedIsDuplicate(scan, sha, sources, cited, quotes);
  }
}
