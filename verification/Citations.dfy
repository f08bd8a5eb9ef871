/** Findings and the byte ranges that support them: the controller resolves each submitted
    quote into a range of a retained output, and the strict reader checks the recorded
    ranges against the files it reads back. */
module Citations {
  import opened Wrappers
  import opened Utf8
  import opened Search
  import opened CanonicalJson
  import opened PrefixCuts
  import AuditChain

  type Sha = AuditChain.Sha

  const MAX_QUOTE_BYTES := 1024
  const MAX_QUOTES := 12
  const MAX_QUOTES_PER_CALL := 4

  datatype Status = Unsupported | NeedsReview | Confirmed

  function Rank(s: Status): nat {
    match s
    case Unsupported => 0
    case NeedsReview => 1
    case Confirmed => 2
  }

  function StatusName(s: Status): Text {
    match s
    case Unsupported => FromString("UNSUPPORTED")
    case NeedsReview => FromString("NEEDS-REVIEW")
    case Confirmed => FromString("CONFIRMED")
  }

  /** Text scanning both programs take from the standard library: trimming, upper case and
      the square-bracketed citations of a text. */
  datatype Scan = Scan(strip: Text -> Text, upper: Text -> Text, cites: Text -> set<Text>)

  predicate Visible(scan: Scan, t: Text) {
    t != [] && scan.strip(t) != []
  }

  function Dashes(t: Text): Text {
    seq(|t|, i requires 0 <= i < |t| => if t[i] == 0x5F then 0x2D else t[i])
  }

  function ParseStatus(scan: Scan, t: Text): Option<Status> {
    var name := Dashes(scan.upper(t));
    if name == StatusName(Unsupported) then Some(Unsupported)
    else if name == StatusName(NeedsReview) then Some(NeedsReview)
    else if name == StatusName(Confirmed) then Some(Confirmed)
    else None
  }

  /** A text is read as a status exactly when its upper case, with dashes for underscores, is
      the name of that status. */
  lemma StatusExactly(scan: Scan, t: Text)
    ensures ParseStatus(scan, t) == Some(Unsupported) <==> Dashes(scan.upper(t)) == FromString("UNSUPPORTED")
    ensures ParseStatus(scan, t) == Some(NeedsReview) <==> Dashes(scan.upper(t)) == FromString("NEEDS-REVIEW")
    ensures ParseStatus(scan, t) == Some(Confirmed) <==> Dashes(scan.upper(t)) == FromString("CONFIRMED")
  {
    assert |StatusName(Unsupported)| == 11 && |StatusName(NeedsReview)| == 12 && |StatusName(Confirmed)| == 9;
  }

  lemma DashesExactly(t: Text, i: nat)
    requires i < |t|
    ensures |Dashes(t)| == |t|
    ensures t[i] == 0x5F <==> Dashes(t)[i] != t[i]
    ensures Dashes(FromString("NEEDS_REVIEW")) == FromString("NEEDS-REVIEW")
  {}

  /* ---- What is submitted, what is recorded, and what is retained ---- */

  datatype Quote = Quote(call: Text, text: Text)

  datatype RawFinding = RawFinding(
    id: Text, title: Text, summary: Text, status: Text, severity: Text, calls: seq<Text>,
    quotes: seq<Quote>, iocs: seq<Text>, limitations: seq<Text>)

  datatype Span = Span(
    id: Text, call: Text, digest: Text, start: int, end: int, text: Text, occurrences: int)

  datatype Finding = Finding(
    id: Text, title: Text, summary: Text, status: Status, severity: Text, calls: seq<Text>,
    spans: seq<Span>, iocs: seq<Text>, limitations: seq<Text>)

  /** A tool result in the controller's memory. */
  datatype Source = Source(output: Text, digest: Text, success: bool)

  /** A completed receipt as the reader verified it: the file's bytes, its digest and the
      recorded excerpt. */
  datatype Fact = Fact(content: Bytes, digest: Text, success: bool, excerpt: Text)

  /** Text the judge copied from a span, and the verdict it supports. */
  datatype JudgeQuote = JudgeQuote(span: Text, call: Text, text: Text)

  datatype Verdict = Verdict(
    findingId: Text, status: Status, rationale: Text, cited: seq<Text>, quotes: seq<JudgeQuote>,
    annotations: seq<Text>)

  function SetOf(calls: seq<Text>): set<Text> {
    set c | c in calls
  }

  predicate Distinct(calls: seq<Text>) {
    forall i, j :: 0 <= i < j < |calls| ==> calls[i] != calls[j]
  }

  type Sources = map<Text, Source>
  type Facts = map<Text, Fact>

  function FactsOf(sources: Sources): (facts: Facts)
    ensures facts.Keys == sources.Keys
  {
    map c | c in sources :: 
      Fact(Encode(sources[c].output), sources[c].digest, sources[c].success, First2kb(sources[c].output))
  }

  predicate Retained(sha: Sha, s: Source) {
    Encodable(s.output) && s.digest == sha(Encode(s.output))
  }

  ghost predicate HexSha(sha: Sha) {
    forall x :: IsDigest(sha(x))
  }

  function Material(digest: Text, start: nat, end: nat): Text {
    digest + ([0x3A] + (Decimal(start) + ([0x3A] + Decimal(end))))
  }

  function First24(t: Text): Text {
    if |t| <= 24 then t else t[..24]
  }

  function SpanId(sha: Sha, digest: Text, start: nat, end: nat): (id: Text)
    ensures id != []
  {
    [0x53] + First24(sha(Encode(Material(digest, start, end))))
  }

  /* ---- The controller: quotes into spans ---- */

  predicate QuoteResolves(scan: Scan, sha: Sha, sources: Sources, cited: seq<Text>, q: Quote) {
    && q.call != [] && q.call in cited
    && Visible(scan, q.text) && Encodable(q.text) && |Encode(q.text)| <= MAX_QUOTE_BYTES
    && q.call in sources && Retained(sha, sources[q.call])
    && FindFrom(Encode(sources[q.call].output), Encode(q.text), 0).At?
  }

  function SpanFor(sha: Sha, s: Source, q: Quote): Span
    requires q.text != [] && FindFrom(Encode(s.output), Encode(q.text), 0).At?
  {
    EncodeAtLeast(q.text);
    var start := FindFrom(Encode(s.output), Encode(q.text), 0).p;
    var end := start + |Encode(q.text)|;
    Span(SpanId(sha, s.digest, start, end), q.call, s.digest, start, end, q.text,
         CountFrom(Encode(s.output), Encode(q.text), 0))
  }

  function QuoteCalls(quotes: seq<Quote>): seq<Text> {
    seq(|quotes|, i requires 0 <= i < |quotes| => quotes[i].call)
  }

  function Times(calls: seq<Text>, c: Text): nat {
    multiset(calls)[c]
  }

  lemma TimesStep(calls: seq<Text>, n: nat, c: Text)
    requires n < |calls|
    ensures Times(calls[..n + 1], c) == Times(calls[..n], c) + if calls[n] == c then 1 else 0
  {
    assert calls[..n + 1] == calls[..n] + [calls[n]];
  }

  predicate AtMostFour(calls: seq<Text>) {
    forall c :: c in calls ==> Times(calls, c) <= MAX_QUOTES_PER_CALL
  }

  lemma FourStep(calls: seq<Text>, n: nat)
    requires n < |calls|
    ensures AtMostFour(calls[..n + 1])
       <==> AtMostFour(calls[..n]) && Times(calls[..n], calls[n]) < MAX_QUOTES_PER_CALL
  {
    forall c ensures Times(calls[..n + 1], c) == Times(calls[..n], c) + if calls[n] == c then 1 else 0 {
      TimesStep(calls, n, c);
    }
    assert calls[..n + 1] == calls[..n] + [calls[n]];
    if AtMostFour(calls[..n + 1]) {
      forall c | c in calls[..n] ensures Times(calls[..n], c) <= MAX_QUOTES_PER_CALL {
        assert c in calls[..n + 1];
      }
      assert calls[n] in calls[..n + 1];
    }
  }

  predicate AllResolve(scan: Scan, sha: Sha, sources: Sources, cited: seq<Text>, quotes: seq<Quote>) {
    && (forall q :: q in quotes ==> QuoteResolves(scan, sha, sources, cited, q))
    && (forall i, j :: 0 <= i < j < |quotes| ==> quotes[i] != quotes[j])
    && AtMostFour(QuoteCalls(quotes))
  }

  predicate QuotesAccepted(scan: Scan, sha: Sha, sources: Sources, cited: seq<Text>, quotes: seq<Quote>) {
    && |quotes| <= MAX_QUOTES
    && AllResolve(scan, sha, sources, cited, quotes)
    && forall c :: c in cited ==> c in QuoteCalls(quotes)
  }

  function SpansFor(scan: Scan, sha: Sha, sources: Sources, cited: seq<Text>, quotes: seq<Quote>): seq<Span>
    requires forall q :: q in quotes ==> QuoteResolves(scan, sha, sources, cited, q)
  {
    seq(|quotes|, i requires 0 <= i < |quotes| && QuoteResolves(scan, sha, sources, cited, quotes[i])
                  => SpanFor(sha, sources[quotes[i].call], quotes[i]))
  }

  /** One more quote keeps the checks of those before it exactly when it passes its own. */
  lemma ResolvesOneMore(scan: Scan, sha: Sha, sources: Sources, cited: seq<Text>, quotes: seq<Quote>, n: nat)
    requires n < |quotes|
    ensures AllResolve(scan, sha, sources, cited, quotes[..n + 1])
       <==> && AllResolve(scan, sha, sources, cited, quotes[..n])
            && QuoteResolves(scan, sha, sources, cited, quotes[n])
            && quotes[n] !in quotes[..n]
            && Times(QuoteCalls(quotes)[..n], quotes[n].call) < MAX_QUOTES_PER_CALL
  {
    var longer := quotes[..n + 1];
    assert longer[..n] == quotes[..n] && longer[n] == quotes[n];
    assert QuoteCalls(longer) == QuoteCalls(quotes)[..n + 1] && QuoteCalls(quotes[..n]) == QuoteCalls(quotes)[..n];
    FourStep(QuoteCalls(quotes), n);
  }

  /** A dictionary of counts. */
  ghost predicate Counts(calls: seq<Text>, perCall: map<Text, nat>) {
    forall c :: Times(calls, c) == if c in perCall then perCall[c] else 0
  }

  lemma CountsStep(calls: seq<Text>, n: nat, perCall: map<Text, nat>, count: nat)
    requires n < |calls| && Counts(calls[..n], perCall)
    requires count == if calls[n] in perCall then perCall[calls[n]] else 0
    ensures count == Times(calls[..n], calls[n])
    ensures Counts(calls[..n + 1], perCall[calls[n] := count + 1])
  {
    forall c ensures Times(calls[..n + 1], c) == Times(calls[..n], c) + if calls[n] == c then 1 else 0 {
      TimesStep(calls, n, c);
    }
  }

  /** One quote: the range of the cited output where its text first stands. */
  method ResolveQuote(scan: Scan, sha: Sha, sources: Sources, cited: seq<Text>, q: Quote) returns (r: Option<Span>)
    ensures r.Some? <==> QuoteResolves(scan, sha, sources, cited, q)
    ensures r.Some? ==> r.value == SpanFor(sha, sources[q.call], q)
  {
    if q.call == [] || q.call !in cited { return None; }
    if q.text == [] || scan.strip(q.text) == [] || !Encodable(q.text) { return None; }
    var needle := Encode(q.text);
    if |needle| > MAX_QUOTE_BYTES || q.call !in sources { return None; }
    var source := sources[q.call];
    if !Encodable(source.output) { return None; }
    var content := Encode(source.output);
    if source.digest != sha(content) { return None; }
    EncodeAtLeast(q.text);
    var hit := FindFrom(content, needle, 0);
    if hit.Miss? { return None; }
    var end := hit.p + |needle|;
    return Some(Span(SpanId(sha, source.digest, hit.p, end), q.call, source.digest, hit.p, end, q.text,
                     CountFrom(content, needle, 0)));
  }

  /** What a quote must be: visible text of at most 1024 bytes that stands, character for
      character, in the retained output of a call its finding cites. */
  predicate Quotable(scan: Scan, sha: Sha, sources: Sources, cited: seq<Text>, q: Quote) {
    && q.call != [] && q.call in cited && q.call in sources
    && q.text != [] && scan.strip(q.text) != [] && Encodable(q.text) && |Encode(q.text)| <= 1024
    && Encodable(sources[q.call].output) && sources[q.call].digest == sha(Encode(sources[q.call].output))
    && Contains(sources[q.call].output, q.text)
  }

  /** Exactly which quotes a finding may have: at most twelve, all different, each one quotable,
      between one and four of every call it cites. */
  lemma QuotesAcceptedExactly(scan: Scan, sha: Sha, sources: Sources, cited: seq<Text>, quotes: seq<Quote>)
    ensures QuotesAccepted(scan, sha, sources, cited, quotes)
       <==> && |quotes| <= 12 && (forall q :: q in quotes ==> Quotable(scan, sha, sources, cited, q))
            && (forall i, j :: 0 <= i < j < |quotes| ==> quotes[i] != quotes[j])
            && (forall c :: c in QuoteCalls(quotes) ==> multiset(QuoteCalls(quotes))[c] <= 4)
            && forall c :: c in cited ==> c in QuoteCalls(quotes)
  {
    hide Encode, FindFrom;
    forall q | q in quotes
      ensures QuoteResolves(scan, sha, sources, cited, q) <==> Quotable(scan, sha, sources, cited, q)
    {
      if q.text != [] && q.call in sources { ByteSearchIsCharacterSearch(sources[q.call].output, q.text); }
    }
  }

  /** `_resolve_supporting_spans`. */
  method ResolveSupportingSpans(scan: Scan, sha: Sha, sources: Sources, cited: seq<Text>, quotes: seq<Quote>)
    returns (r: Option<seq<Span>>)
    ensures r.Some? <==> QuotesAccepted(scan, sha, sources, cited, quotes)
    ensures r.Some? ==> r.value == SpansFor(scan, sha, sources, cited, quotes)
  {
    hide SpanFor;
    if |quotes| > MAX_QUOTES { return None; }
    var spans: seq<Span>, seen: set<Quote>, perCall: map<Text, nat> := [], {}, map[];
    var i := 0;
    while i < |quotes|
      invariant 0 <= i <= |quotes| && AllResolve(scan, sha, sources, cited, quotes[..i])
      invariant spans == SpansFor(scan, sha, sources, cited, quotes[..i])
      invariant forall q :: q in seen <==> q in quotes[..i]
      invariant Counts(QuoteCalls(quotes)[..i], perCall)
    {
      var q := quotes[i];
      var count := if q.call in perCall then perCall[q.call] else 0;
      CountsStep(QuoteCalls(quotes), i, perCall, count);
      ResolvesOneMore(scan, sha, sources, cited, quotes, i);
      var span := ResolveQuote(scan, sha, sources, cited, q);
      if span == None || q in seen || count + 1 > MAX_QUOTES_PER_CALL {
        RejectsLonger(scan, sha, sources, cited, quotes, i + 1);
        return None;
      }
      SpansStep(scan, sha, sources, cited, quotes, i);
      SeenStep(quotes, i);
      spans, seen, perCall := spans + [span.value], seen + {q}, perCall[q.call := count + 1];
      i := i + 1;
    }
    assert quotes[..|quotes|] == quotes;
    if exists c :: c in cited && c !in QuoteCalls(quotes) { return None; }
    return Some(spans);
  }

  lemma SeenStep(quotes: seq<Quote>, n: nat)
    requires n < |quotes|
    ensures forall q :: q in quotes[..n + 1] <==> q in quotes[..n] || q == quotes[n]
  {
    assert quotes[..n + 1] == quotes[..n] + [quotes[n]];
  }

  lemma SpansStep(scan: Scan, sha: Sha, sources: Sources, cited: seq<Text>, quotes: seq<Quote>, n: nat)
    requires n < |quotes|
    requires AllResolve(scan, sha, sources, cited, quotes[..n]) && AllResolve(scan, sha, sources, cited, quotes[..n + 1])
    requires QuoteResolves(scan, sha, sources, cited, quotes[n])
    ensures SpansFor(scan, sha, sources, cited, quotes[..n + 1])
            == SpansFor(scan, sha, sources, cited, quotes[..n]) + [SpanFor(sha, sources[quotes[n].call], quotes[n])]
  {}

  lemma {:induction false} RejectsLonger(scan: Scan, sha: Sha, sources: Sources, cited: seq<Text>, quotes: seq<Quote>, n: nat)
    requires n <= |quotes| && !AllResolve(scan, sha, sources, cited, quotes[..n])
    ensures !AllResolve(scan, sha, sources, cited, quotes)
    decreases |quotes| - n
  {
    if n == |quotes| {
      assert quotes[..n] == quotes;
    } else {
      ResolvesOneMore(scan, sha, sources, cited, quotes, n);
      RejectsLonger(scan, sha, sources, cited, quotes, n + 1);
    }
  }
}
