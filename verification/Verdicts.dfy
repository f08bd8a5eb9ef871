/** The judge's verdicts: what the controller accepts and records, what the reader checks,
    and what an accepted log says about its evidence. */
module Verdicts {
  import opened Wrappers
  import opened Utf8
  import opened Search
  import opened CanonicalJson
  import opened Citations
  import opened CitationReader
  import opened Findings

  datatype RawVerdict = RawVerdict(
    findingId: Text, status: Text, rationale: Text, cited: seq<Text>, quotes: seq<JudgeQuote>,
    annotations: seq<Text>)

  /* ---- The controller ---- */

  /** The annotation that records a refused upgrade. */
  function UpgradeNote(asked: Status, kept: Status): Text {
    FromString("Judge upgrade to ") + StatusName(asked)
    + FromString(" was not applied; retained ") + FromString("investigator status ")
    + StatusName(kept) + FromString(".")
  }

  predicate QuoteTaken(scan: Scan, f: Finding, cited: seq<Text>, q: JudgeQuote) {
    && q.span != [] && q.span in ById(f.spans) && q.call != []
    && Visible(scan, q.text) && Encodable(q.text) && |Encode(q.text)| <= MAX_QUOTE_BYTES
    && q.call in cited && q.call in f.calls
    && ById(f.spans)[q.span].call == q.call && Contains(ById(f.spans)[q.span].text, q.text)
  }

  predicate QuotesTaken(scan: Scan, f: Finding, cited: seq<Text>, quotes: seq<JudgeQuote>) {
    && (forall q :: q in quotes ==> QuoteTaken(scan, f, cited, q))
    && (forall i, j :: 0 <= i < j < |quotes| ==> quotes[i] != quotes[j])
    && forall c :: c in cited ==> c in JudgeCalls(quotes)
  }

  /** A status above the proposed one is not applied. */
  function Applied(asked: Status, proposed: Status): Status {
    if Rank(asked) > Rank(proposed) then proposed else asked
  }

  /** What is applied was never asked higher than it was proposed, and is what was asked
      unless that is an upgrade. */
  lemma AppliedLowers(asked: Status, proposed: Status)
    ensures Lowers(Applied(asked, proposed), proposed)
    ensures Applied(asked, proposed) == if Lowers(asked, proposed) then asked else proposed
  {}

  predicate VerdictAccepted(scan: Scan, facts: Facts, f: Finding, raw: RawVerdict) {
    var asked := ParseStatus(scan, raw.status);
    && asked.Some?
    && Distinct(raw.cited) && raw.cited != []
    && (forall c :: c in raw.cited ==> c in facts && c in f.calls)
    && scan.strip(raw.rationale) != []
    && QuotesTaken(scan, f, raw.cited, raw.quotes)
    && (Applied(asked.value, f.status) == Confirmed ==> AnySuccess(facts, raw.cited))
  }

  function VerdictFor(scan: Scan, f: Finding, raw: RawVerdict): Verdict
    requires ParseStatus(scan, raw.status).Some?
  {
    var asked := ParseStatus(scan, raw.status).value;
    Verdict(f.id, Applied(asked, f.status), scan.strip(raw.rationale), raw.cited, raw.quotes,
            raw.annotations + if Rank(asked) > Rank(f.status) then [UpgradeNote(asked, f.status)] else [])
  }

  /** The checks of one submitted verdict. */
  method ParseVerdict(scan: Scan, facts: Facts, f: Finding, raw: RawVerdict) returns (r: Option<Verdict>)
    ensures r.Some? <==> VerdictAccepted(scan, facts, f, raw)
    ensures r.Some? ==> r.value == VerdictFor(scan, f, raw)
  {
    var status := ParseStatus(scan, raw.status);
    if status == None { return None; }
    var applied, annotations := status.value, raw.annotations;
    if Rank(applied) > Rank(f.status) {
      annotations := annotations + [UpgradeNote(applied, f.status)];
      applied := f.status;
    }
    if !Distinct(raw.cited) || raw.cited == [] { return None; }
    if exists c :: c in raw.cited && !(c in facts && c in f.calls) { return None; }
    if scan.strip(raw.rationale) == [] { return None; }
    var taken := ParseQuotes(scan, f, raw.cited, raw.quotes);
    if !taken { return None; }
    if applied == Confirmed && !exists c :: c in raw.cited && c in facts && facts[c].success { return None; }
    return Some(Verdict(f.id, applied, scan.strip(raw.rationale), raw.cited, raw.quotes, annotations));
  }

  /** One quote of a verdict: a cited call's, out of the text of the span it names. */
  method TakeQuote(scan: Scan, f: Finding, cited: seq<Text>, q: JudgeQuote) returns (taken: bool)
    ensures taken <==> QuoteTaken(scan, f, cited, q)
  {
    var spans := ById(f.spans);
    if q.span == [] || q.span !in spans || q.call == [] { return false; }
    if q.text == [] || scan.strip(q.text) == [] || !Encodable(q.text) { return false; }
    if |Encode(q.text)| > MAX_QUOTE_BYTES || q.call !in cited || q.call !in f.calls { return false; }
    return spans[q.span].call == q.call && Contains(spans[q.span].text, q.text);
  }

  method ParseQuotes(scan: Scan, f: Finding, cited: seq<Text>, quotes: seq<JudgeQuote>) returns (taken: bool)
    ensures taken <==> QuotesTaken(scan, f, cited, quotes)
  {
    var seen: set<JudgeQuote>, quoted: set<Text>, i := {}, {}, 0;
    while i < |quotes|
      invariant 0 <= i <= |quotes|
      invariant forall q :: q in seen <==> q in quotes[..i]
      invariant forall c :: c in quoted <==> c in JudgeCalls(quotes)[..i]
      invariant forall q :: q in quotes[..i] ==> QuoteTaken(scan, f, cited, q)
      invariant forall j, k :: 0 <= j < k < i ==> quotes[j] != quotes[k]
    {
      var q := quotes[i];
      assert quotes[..i + 1] == quotes[..i] + [q];
      assert JudgeCalls(quotes)[..i + 1] == JudgeCalls(quotes)[..i] + [q.call];
      var known := TakeQuote(scan, f, cited, q);
      if !known || q in seen { return false; }
      seen, quoted := seen + {q}, quoted + {q.call};
      i := i + 1;
    }
    assert quotes[..|quotes|] == quotes && JudgeCalls(quotes)[..|quotes|] == JudgeCalls(quotes);
    return !exists c :: c in cited && c !in quoted;
  }

  function RawIds(raws: seq<RawVerdict>): set<Text> {
    set i | 0 <= i < |raws| :: raws[i].findingId
  }

  predicate DistinctRaws(raws: seq<RawVerdict>) {
    forall i, j :: 0 <= i < j < |raws| ==> raws[i].findingId != raws[j].findingId
  }

  /** The verdict submitted for a finding; the last one, were there several. */
  function RawFor(raws: seq<RawVerdict>, id: Text): Option<RawVerdict> {
    if raws == [] then None
    else if raws[|raws| - 1].findingId == id then Some(raws[|raws| - 1])
    else RawFor(raws[..|raws| - 1], id)
  }

  predicate Judged(scan: Scan, facts: Facts, f: Finding, raws: seq<RawVerdict>) {
    RawFor(raws, f.id).Some? && VerdictAccepted(scan, facts, f, RawFor(raws, f.id).value)
  }

  predicate AllJudged(scan: Scan, facts: Facts, findings: seq<Finding>, raws: seq<RawVerdict>) {
    forall f :: f in findings ==> Judged(scan, facts, f, raws)
  }

  predicate VerdictsAccepted(scan: Scan, facts: Facts, findings: seq<Finding>, raws: seq<RawVerdict>) {
    && DistinctRaws(raws) && RawIds(raws) == FindingIds(findings)
    && AllJudged(scan, facts, findings, raws)
  }

  function VerdictsFor(scan: Scan, facts: Facts, findings: seq<Finding>, raws: seq<RawVerdict>): (vs: seq<Verdict>)
    requires AllJudged(scan, facts, findings, raws)
    ensures |vs| == |findings|
  {
    if findings == [] then []
    else
      var f := findings[|findings| - 1];
      assert Judged(scan, facts, f, raws);
      VerdictsFor(scan, facts, findings[..|findings| - 1], raws) + [VerdictFor(scan, f, RawFor(raws, f.id).value)]
  }

  lemma {:induction false} VerdictAt(scan: Scan, facts: Facts, findings: seq<Finding>, raws: seq<RawVerdict>, i: nat)
    requires AllJudged(scan, facts, findings, raws) && i < |findings|
    ensures Judged(scan, facts, findings[i], raws)
    ensures VerdictsFor(scan, facts, findings, raws)[i] == VerdictFor(scan, findings[i], RawFor(raws, findings[i].id).value)
    decreases |findings|
  {
    assert findings[i] in findings;
    if i < |findings| - 1 { VerdictAt(scan, facts, findings[..|findings| - 1], raws, i); }
  }

  /** What the controller records of review: never above what was proposed, and what was asked
      unless that is an upgrade, which is noted and not applied. */
  lemma VerdictsLower(scan: Scan, facts: Facts, findings: seq<Finding>, raws: seq<RawVerdict>, i: nat)
    requires AllJudged(scan, facts, findings, raws) && i < |findings|
    ensures var v, proposed := VerdictsFor(scan, facts, findings, raws)[i], findings[i].status;
            && Lowers(v.status, proposed) && RawFor(raws, findings[i].id).Some?
            && var raw := RawFor(raws, findings[i].id).value;
               && ParseStatus(scan, raw.status).Some?
               && var asked := ParseStatus(scan, raw.status).value;
                  if Lowers(asked, proposed) then v.status == asked && v.annotations == raw.annotations
                  else v.status == proposed && v.annotations == raw.annotations + [UpgradeNote(asked, proposed)]
  {
    hide Lowers;
    VerdictAt(scan, facts, findings, raws, i);
    var asked := ParseStatus(scan, RawFor(raws, findings[i].id).value.status).value;
    AppliedLowers(asked, findings[i].status);
    RankLowers(asked, findings[i].status);
    RanksAgree(asked, findings[i].status);
  }

  lemma {:induction false} RawForFinds(raws: seq<RawVerdict>, id: Text)
    ensures RawFor(raws, id).Some? <==> id in RawIds(raws)
    ensures RawFor(raws, id).Some? ==> RawFor(raws, id).value in raws && RawFor(raws, id).value.findingId == id
  {
    if raws != [] {
      var shorter := raws[..|raws| - 1];
      RawForFinds(shorter, id);
      assert forall i :: 0 <= i < |shorter| ==> raws[i] == shorter[i];
      if id in RawIds(raws) && raws[|raws| - 1].findingId != id {
        var i :| 0 <= i < |raws| && raws[i].findingId == id;
        assert shorter[i].findingId == id;
      }
    }
  }

  lemma IsSubmitted(findings: seq<Finding>, raws: seq<RawVerdict>, i: nat)
    requires i < |findings| && RawIds(raws) == FindingIds(findings)
    ensures findings[i].id in RawIds(raws) && RawFor(raws, findings[i].id).Some?
  {
    assert findings[i].id in FindingIds(findings);
    RawForFinds(raws, findings[i].id);
  }

  lemma JudgedStep(scan: Scan, facts: Facts, findings: seq<Finding>, raws: seq<RawVerdict>, n: nat)
    requires n < |findings| && AllJudged(scan, facts, findings[..n], raws)
    ensures Judged(scan, facts, findings[n], raws) <==> AllJudged(scan, facts, findings[..n + 1], raws)
    ensures !Judged(scan, facts, findings[n], raws) ==> !AllJudged(scan, facts, findings, raws)
    ensures Judged(scan, facts, findings[n], raws) ==>
              VerdictsFor(scan, facts, findings[..n + 1], raws)
              == VerdictsFor(scan, facts, findings[..n], raws)
                 + [VerdictFor(scan, findings[n], RawFor(raws, findings[n].id).value)]
  {
    assert findings[..n + 1] == findings[..n] + [findings[n]] && findings[..n + 1][..n] == findings[..n];
    assert findings[n] in findings;
  }

  /** `_parse_verdicts`: every finding judged once, nothing else judged. */
  method ParseVerdicts(scan: Scan, facts: Facts, findings: seq<Finding>, raws: seq<RawVerdict>)
    returns (r: Option<seq<Verdict>>)
    ensures r.Some? <==> VerdictsAccepted(scan, facts, findings, raws)
    ensures r.Some? ==> r.value == VerdictsFor(scan, facts, findings, raws)
  {
    var submitted := Submit(findings, raws);
    if submitted == None { return None; }
    var verdicts: seq<Verdict>, i := [], 0;
    while i < |findings|
      invariant 0 <= i <= |findings|
      invariant AllJudged(scan, facts, findings[..i], raws)
      invariant verdicts == VerdictsFor(scan, facts, findings[..i], raws)
    {
      var f := findings[i];
      IsSubmitted(findings, raws, i);
      var verdict := ParseVerdict(scan, facts, f, submitted.value[f.id]);
      JudgedStep(scan, facts, findings, raws, i);
      if verdict == None { return None; }
      verdicts := verdicts + [verdict.value];
      i := i + 1;
    }
    assert findings[..|findings|] == findings;
    return Some(verdicts);
  }

  /** The dictionary of submitted verdicts. */
  method Submit(findings: seq<Finding>, raws: seq<RawVerdict>) returns (r: Option<map<Text, RawVerdict>>)
    ensures r.Some? <==> DistinctRaws(raws) && RawIds(raws) == FindingIds(findings)
    ensures r.Some? ==> r.value.Keys == RawIds(raws)
                        && forall id :: id in r.value ==> RawFor(raws, id) == Some(r.value[id])
  {
    hide RawFor, RawIds, FindingIds;
    var submitted: map<Text, RawVerdict>, i := map[], 0;
    NoRaws();
    while i < |raws|
      invariant 0 <= i <= |raws|
      invariant forall j, k :: 0 <= j < k < i ==> raws[j].findingId != raws[k].findingId
      invariant submitted.Keys == RawIds(raws[..i]) <= FindingIds(findings)
      invariant forall id :: id in submitted ==> RawFor(raws[..i], id) == Some(submitted[id])
    {
      var id := raws[i].findingId;
      IdIsRaw(raws, i);
      if id !in FindingIds(findings) || id in submitted { return None; }
      IdsGrow(raws, i);
      var longer := submitted[id := raws[i]];
      forall other | other in longer ensures RawFor(raws[..i + 1], other) == Some(longer[other]) {
        RawForStep(raws, i, other);
      }
      submitted := longer;
      i := i + 1;
    }
    assert raws[..|raws|] == raws;
    if exists id :: id in FindingIds(findings) && id !in submitted { return None; }
    return Some(submitted);
  }

  lemma NoRaws()
    ensures RawIds([]) == {} && forall id :: RawFor([], id) == None
  {}

  lemma RawForStep(raws: seq<RawVerdict>, n: nat, id: Text)
    requires n < |raws|
    ensures RawFor(raws[..n + 1], id) == if raws[n].findingId == id then Some(raws[n]) else RawFor(raws[..n], id)
  {
    assert raws[..n + 1][..n] == raws[..n] && raws[..n + 1][n] == raws[n];
  }

  lemma IdIsRaw(raws: seq<RawVerdict>, n: nat)
    requires n < |raws|
    ensures raws[n].findingId in RawIds(raws) && (raws[n].findingId in RawIds(raws[..n]) ==> !DistinctRaws(raws))
    ensures forall k :: 0 <= k < n ==> raws[k].findingId in RawIds(raws[..n])
  {
    forall k | 0 <= k < n ensures raws[k].findingId in RawIds(raws[..n]) {
      assert raws[..n][k] == raws[k];
    }
    if raws[n].findingId in RawIds(raws[..n]) {
      var k :| 0 <= k < n && raws[..n][k].findingId == raws[n].findingId;
      assert raws[k].findingId == raws[n].findingId;
    }
  }

  lemma IdsGrow(raws: seq<RawVerdict>, n: nat)
    requires n < |raws|
    ensures RawIds(raws[..n + 1]) == RawIds(raws[..n]) + {raws[n].findingId}
  {
    var longer, shorter := raws[..n + 1], raws[..n];
    assert forall i :: 0 <= i < n ==> longer[i] == shorter[i];
    assert longer[n] == raws[n];
  }

  /* ---- What the reader says of accepted verdicts ---- */

  /** `_verify_recorded_verdict` and the order and set checks of `_verify_judge_binding`. */
  predicate JudgeBound(scan: Scan, findings: seq<Finding>, raws: seq<RawVerdict>, recorded: seq<Verdict>) {
    && (forall i :: 0 <= i < |raws| ==> raws[i].findingId != []) && DistinctRaws(raws)
    && RawIds(raws) == FindingIds(findings)
    && |recorded| == |findings|
    && forall i :: 0 <= i < |findings| ==>
         && recorded[i].findingId == findings[i].id
         && RawFor(raws, findings[i].id).Some?
         && Recorded(scan, RawFor(raws, findings[i].id).value, recorded[i], findings[i])
  }

  predicate Recorded(scan: Scan, raw: RawVerdict, v: Verdict, f: Finding) {
    var asked := ParseStatus(scan, raw.status);
    var upgraded := asked.Some? && FindingRank(asked.value) > FindingRank(f.status);
    && v.findingId == raw.findingId
    && Some(v.status) == (if upgraded then Some(f.status) else asked)
    && v.rationale == scan.strip(raw.rationale)
    && v.cited == raw.cited && v.quotes == raw.quotes
    && v.annotations == raw.annotations + (if upgraded then [UpgradeNote(asked.value, f.status)] else [])
  }

  /** Trimming twice trims once. */
  ghost predicate Trims(scan: Scan) {
    forall t :: scan.strip(scan.strip(t)) == scan.strip(t)
  }

  /** The range of a recorded span is where its text stands in the file. */
  lemma SpanInFile(scan: Scan, sha: Sha, facts: Facts, cited: seq<Text>, s: Span)
    requires SpanOk(scan, sha, facts, cited, s)
    ensures s.end <= |facts[s.call].content| && facts[s.call].content[s.start..s.end] == Encode(s.text)
  {
    EncodeAtLeast(s.text);
  }

  /** A quote contained in a span's text stands, byte for byte, inside the span's range. */
  lemma QuoteInRange(scan: Scan, sha: Sha, facts: Facts, cited: seq<Text>, s: Span, q: Text) returns (p: nat)
    requires SpanOk(scan, sha, facts, cited, s) && Contains(s.text, q)
    ensures s.start <= p && p + |Encode(q)| <= s.end <= |facts[s.call].content|
    ensures OccursAt(facts[s.call].content, Encode(q), p)
  {
    SpanInFile(scan, sha, facts, cited, s);
    var k := ContainedBytes(s.text, q);
    p := s.start + k;
    InsideSlice(facts[s.call].content, s.start, s.end, Encode(q), k);
  }

  lemma ContainedBytes(t: Text, q: Text) returns (k: nat)
    requires Contains(t, q)
    ensures OccursAt(Encode(t), Encode(q), k)
  {
    var c: nat :| c <= |t| && OccursAt(t, q, c);
    CharToByte(t, q, c);
    k := Offset(t, c);
  }

  lemma InsideSlice(bs: Bytes, start: nat, end: nat, needle: Bytes, k: nat)
    requires start <= end <= |bs| && OccursAt(bs[start..end], needle, k)
    ensures OccursAt(bs, needle, start + k) && start + k + |needle| <= end
  {
    var inner := bs[start..end];
    forall i | 0 <= i < |needle| ensures bs[start + k + i] == needle[i] {
      assert inner[k..k + |needle|][i] == inner[k + i];
    }
  }

  lemma {:induction false} ByIdMember(spans: seq<Span>, id: Text)
    requires id in ById(spans)
    ensures ById(spans)[id] in spans && ById(spans)[id].id == id
  {
    if spans[|spans| - 1].id != id { ByIdMember(spans[..|spans| - 1], id); }
  }

  lemma TakenQuotePasses(scan: Scan, sha: Sha, facts: Facts, f: Finding, cited: seq<Text>, q: JudgeQuote)
    requires FindingOk(scan, sha, facts, f) && QuoteTaken(scan, f, cited, q)
    ensures QuoteOk(scan, facts, cited, ById(f.spans), q)
  {
    ByIdMember(f.spans, q.span);
    var s := ById(f.spans)[q.span];
    assert SpanOk(scan, sha, facts, f.calls, s);
    var p := QuoteInRange(scan, sha, facts, f.calls, s, q.text);
    assert OccursAt(facts[q.call].content, Encode(q.text), p);
  }

  lemma AcceptedVerdictPasses(scan: Scan, sha: Sha, facts: Facts, f: Finding, raw: RawVerdict)
    requires Trims(scan) && FindingOk(scan, sha, facts, f) && VerdictAccepted(scan, facts, f, raw)
    ensures VerdictOk(scan, facts, f, VerdictFor(scan, f, raw))
    ensures raw.findingId == f.id ==> Recorded(scan, raw, VerdictFor(scan, f, raw), f)
  {
    forall q | q in raw.quotes ensures QuoteOk(scan, facts, raw.cited, ById(f.spans), q) {
      TakenQuotePasses(scan, sha, facts, f, raw.cited, q);
    }
  }

  lemma JudgedFindingPasses(scan: Scan, sha: Sha, facts: Facts, findings: seq<Finding>, raws: seq<RawVerdict>, i: nat)
    requires Trims(scan) && FindingsOk(scan, sha, facts, findings) && VerdictsAccepted(scan, facts, findings, raws)
    requires i < |findings|
    ensures var v := VerdictsFor(scan, facts, findings, raws)[i];
            && v.findingId == findings[i].id && VerdictOk(scan, facts, findings[i], v)
            && RawFor(raws, findings[i].id).Some?
            && Recorded(scan, RawFor(raws, findings[i].id).value, v, findings[i])
  {
    VerdictAt(scan, facts, findings, raws, i);
    RawForFinds(raws, findings[i].id);
    AcceptedVerdictPasses(scan, sha, facts, findings[i], RawFor(raws, findings[i].id).value);
  }

  /** Whatever verdicts the controller accepts on findings the reader accepts, the reader
      accepts as recorded, and finds bound to what the judge submitted. */
  lemma VerdictsAgree(scan: Scan, sha: Sha, facts: Facts, findings: seq<Finding>, raws: seq<RawVerdict>)
    requires Trims(scan) && FindingsOk(scan, sha, facts, findings) && VerdictsAccepted(scan, facts, findings, raws)
    ensures CitationsOk(scan, sha, facts, findings, VerdictsFor(scan, facts, findings, raws))
    ensures JudgeBound(scan, findings, raws, VerdictsFor(scan, facts, findings, raws))
  {
    hide VerdictAccepted, VerdictFor, AllJudged, RawFor, VerdictsFor, FindingRank, Rank, Lowers;
    var verdicts := VerdictsFor(scan, facts, findings, raws);
    forall i | 0 <= i < |findings|
      ensures verdicts[i].findingId == findings[i].id && VerdictOk(scan, facts, findings[i], verdicts[i])
      ensures RawFor(raws, findings[i].id).Some? && Recorded(scan, RawFor(raws, findings[i].id).value, verdicts[i], findings[i])
    {
      JudgedFindingPasses(scan, sha, facts, findings, raws, i);
    }
    forall i | 0 <= i < |raws| ensures raws[i].findingId != [] {
      assert raws[i].findingId in FindingIds(findings);
    }
    assert VerdictIds(verdicts) == FindingIds(findings);
  }

  /* ---- What an accepted log says ---- */

  /** The files the receipts name hold the bytes their digests are of. */
  predicate ContentAddressed(sha: Sha, facts: Facts) {
    forall c :: c in facts ==> facts[c].digest == sha(facts[c].content)
  }

  /** The quote stands, byte for byte, inside the range of the span it names, in the
      content-addressed output of a call its finding cites. */
  ghost predicate Grounded(sha: Sha, facts: Facts, f: Finding, q: JudgeQuote) {
    exists s: Span, p: nat {:trigger GroundedAt(sha, facts, f, q, s, p)} :: GroundedAt(sha, facts, f, q, s, p)
  }

  predicate GroundedAt(sha: Sha, facts: Facts, f: Finding, q: JudgeQuote, s: Span, p: nat) {
    && s in f.spans && s.id == q.span && s.call == q.call && q.call in f.calls && q.call in facts
    && s.digest == sha(facts[q.call].content)
    && s.start <= p && p + |Encode(q.text)| <= s.end <= |facts[q.call].content|
    && OccursAt(facts[q.call].content, Encode(q.text), p)
  }

  lemma AcceptedQuoteIsGrounded(scan: Scan, sha: Sha, facts: Facts, f: Finding, cited: seq<Text>, q: JudgeQuote)
    requires ContentAddressed(sha, facts) && FindingOk(scan, sha, facts, f)
    requires QuoteOk(scan, facts, cited, ById(f.spans), q)
    ensures Grounded(sha, facts, f, q)
  {
    SpansAreKept(scan, sha, facts, f);
    ByIdMember(f.spans, q.span);
    var s := ById(f.spans)[q.span];
    assert SpanOk(scan, sha, facts, f.calls, s);
    var p := QuoteInRange(scan, sha, facts, f.calls, s, q.text);
    assert GroundedAt(sha, facts, f, q, s, p);
  }

  lemma SpansAreKept(scan: Scan, sha: Sha, facts: Facts, f: Finding)
    requires FindingOk(scan, sha, facts, f)
    ensures ById(f.spans) != map[]
  {
    assert f.calls[0] in SpanCalls(f.spans);
    ByIdKeys(f.spans);
    assert f.spans[0].id in ById(f.spans);
  }

  /** In every log the reader accepts: each verdict is on one of the findings, ranks no
      higher than the investigator proposed, is CONFIRMED only over a cited successful
      receipt, and quotes only bytes inside the ranges the finding located. */
  lemma AcceptedVerdictsAreGrounded(scan: Scan, sha: Sha, facts: Facts, findings: seq<Finding>,
                                    verdicts: seq<Verdict>, i: nat) returns (j: nat)
    requires ContentAddressed(sha, facts) && CitationsOk(scan, sha, facts, findings, verdicts) && i < |verdicts|
    ensures j < |findings| && findings[j].id == verdicts[i].findingId
    ensures Lowers(verdicts[i].status, findings[j].status)
    ensures verdicts[i].status == Confirmed ==>
              exists c :: c in verdicts[i].cited && c in findings[j].calls && c in facts && facts[c].success
    ensures verdicts[i].quotes != [] && forall q :: q in verdicts[i].quotes ==> Grounded(sha, facts, findings[j], q)
  {
    assert verdicts[i].findingId in VerdictIds(verdicts);
    j :| 0 <= j < |findings| && findings[j].id == verdicts[i].findingId;
    var f, v := findings[j], verdicts[i];
    assert VerdictOk(scan, facts, f, v) && FindingOk(scan, sha, facts, f);
    RankLowers(v.status, f.status);
    assert v.cited[0] in JudgeCalls(v.quotes);
    forall q | q in v.quotes ensures Grounded(sha, facts, f, q) {
      AcceptedQuoteIsGrounded(scan, sha, facts, f, v.cited, q);
    }
  }

  /** The two pipelines agree: on an investigation and verdicts the controller accepted, and
      recorded as it records them, the reader has no complaint exactly when no finding
      supports itself twice with one text from identical outputs. */
  lemma CitationPipelinesAgree(scan: Scan, sha: Sha, sources: Sources, raw: RawInvestigation, raws: seq<RawVerdict>)
    requires Trims(scan) && HexSha(sha) && NoIdCollision(sha, sources, raw)
    requires InvestigationAccepted(scan, sha, sources, raw)
    requires VerdictsAccepted(scan, FactsOf(sources), FindingsFor(scan, sha, sources, raw.findings), raws)
    ensures CitationsOk(scan, sha, FactsOf(sources), FindingsFor(scan, sha, sources, raw.findings),
                        VerdictsFor(scan, FactsOf(sources), FindingsFor(scan, sha, sources, raw.findings), raws))
       <==> forall i :: 0 <= i < |raw.findings| ==> !RepeatedEvidence(sources, raw.findings[i].quotes)
  {
    var findings := FindingsFor(scan, sha, sources, raw.findings);
    InvestigationsAgree(scan, sha, sources, raw);
    if FindingsOk(scan, sha, FactsOf(sources), findings) {
      VerdictsAgree(scan, sha, FactsOf(sources), findings, raws);
    }
  }
}
