/** Whole investigations: the findings the controller accepts from the serializer call and
    records, and the reader's checks of what was recorded. */
module Findings {
  import opened Wrappers
  import opened Utf8
  import opened CanonicalJson
  import opened Citations
  import opened CitationReader

  datatype RawInvestigation = RawInvestigation(
    status: Text, findings: seq<RawFinding>, caseNotes: Text, limitations: seq<Text>, unresolved: seq<Text>)

  datatype Investigation = Investigation(
    caseNotes: Text, findings: seq<Finding>, limitations: seq<Text>, unresolved: seq<Text>, turns: nat)

  const DONE := FromString("DONE")
  const UNTITLED := FromString("Untitled finding")
  const UNKNOWN := FromString("UNKNOWN")
  const NEEDS_REVIEW := FromString("NEEDS-REVIEW")

  function OrElse(t: Text, other: Text): Text {
    if t == [] then other else t
  }

  /** `F{ordinal:03d}`. */
  function Ordinal(n: nat): Text {
    [0x46] + (if n < 10 then [0x30, 0x30] else if n < 100 then [0x30] else []) + Decimal(n)
  }

  /** `Finding.from_mapping`. */
  function FromMapping(scan: Scan, raw: RawFinding, ordinal: nat, spans: seq<Span>): Finding {
    var status := ParseStatus(scan, OrElse(raw.status, NEEDS_REVIEW));
    Finding(OrElse(raw.id, Ordinal(ordinal)), OrElse(raw.title, UNTITLED), raw.summary,
            if status.Some? then status.value else NeedsReview,
            scan.upper(OrElse(raw.severity, UNKNOWN)), raw.calls, spans, raw.iocs, raw.limitations)
  }

  /* ---- The controller ---- */

  predicate FindingAccepted(scan: Scan, sha: Sha, sources: Sources, raw: RawFinding, ordinal: nat) {
    && QuotesAccepted(scan, sha, sources, raw.calls, raw.quotes)
    && raw.calls != [] && Distinct(raw.calls)
    && (forall c :: c in raw.calls ==> c in sources)
    && (FromMapping(scan, raw, ordinal, []).status == Confirmed ==>
          exists c :: c in raw.calls && c in sources && sources[c].success)
    && scan.cites(raw.summary) == SetOf(raw.calls)
  }

  function FindingFor(scan: Scan, sha: Sha, sources: Sources, raw: RawFinding, ordinal: nat): Finding
    requires FindingAccepted(scan, sha, sources, raw, ordinal)
  {
    FromMapping(scan, raw, ordinal, SpansFor(scan, sha, sources, raw.calls, raw.quotes))
  }

  predicate AllAccepted(scan: Scan, sha: Sha, sources: Sources, raws: seq<RawFinding>) {
    && (forall i :: 0 <= i < |raws| ==> FindingAccepted(scan, sha, sources, raws[i], i + 1))
    && forall i, j :: 0 <= i < j < |raws| ==> IdOf(raws[i], i + 1) != IdOf(raws[j], j + 1)
  }

  function IdOf(raw: RawFinding, ordinal: nat): Text {
    OrElse(raw.id, Ordinal(ordinal))
  }

  function FindingsFor(scan: Scan, sha: Sha, sources: Sources, raws: seq<RawFinding>): seq<Finding>
    requires forall i :: 0 <= i < |raws| ==> FindingAccepted(scan, sha, sources, raws[i], i + 1)
  {
    seq(|raws|, i requires 0 <= i < |raws| && FindingAccepted(scan, sha, sources, raws[i], i + 1)
                => FindingFor(scan, sha, sources, raws[i], i + 1))
  }

  predicate NotesAccepted(scan: Scan, sources: Sources, raw: RawInvestigation) {
    && scan.strip(raw.caseNotes) != []
    && (forall c :: c in scan.cites(raw.caseNotes) ==> c in sources)
    && (forall i :: 0 <= i < |raw.findings| ==>
          forall c :: c in raw.findings[i].calls ==> c in scan.cites(raw.caseNotes))
  }

  predicate InvestigationAccepted(scan: Scan, sha: Sha, sources: Sources, raw: RawInvestigation) {
    raw.status == DONE && AllAccepted(scan, sha, sources, raw.findings) && NotesAccepted(scan, sources, raw)
  }

  /** The checks of one finding, and the finding itself. */
  method ParseFinding(scan: Scan, sha: Sha, sources: Sources, raw: RawFinding, ordinal: nat)
    returns (r: Option<Finding>)
    ensures r.Some? <==> FindingAccepted(scan, sha, sources, raw, ordinal)
    ensures r.Some? ==> r.value == FindingFor(scan, sha, sources, raw, ordinal)
  {
    var spans := ResolveSupportingSpans(scan, sha, sources, raw.calls, raw.quotes);
    if spans == None { return None; }
    var finding := FromMapping(scan, raw, ordinal, spans.value);
    if raw.calls == [] || !Distinct(raw.calls) || exists c :: c in raw.calls && c !in sources { return None; }
    if finding.status == Confirmed && !exists c :: c in raw.calls && c in sources && sources[c].success {
      return None;
    }
    if scan.cites(finding.summary) != SetOf(raw.calls) { return None; }
    return Some(finding);
  }

  /** The notes say something, cite only retained results, and cite what the findings cite. */
  method CheckNotes(scan: Scan, sources: Sources, raw: RawInvestigation) returns (ok: bool)
    ensures ok <==> NotesAccepted(scan, sources, raw)
  {
    if scan.strip(raw.caseNotes) == [] { return false; }
    var cited := scan.cites(raw.caseNotes);
    if exists c :: c in cited && c !in sources { return false; }
    var k := 0;
    while k < |raw.findings|
      invariant 0 <= k <= |raw.findings|
      invariant forall i :: 0 <= i < k ==> forall c :: c in raw.findings[i].calls ==> c in scan.cites(raw.caseNotes)
    {
      if exists c :: c in raw.findings[k].calls && c !in cited { return false; }
      k := k + 1;
    }
    return true;
  }

  /** `_parse_investigation`. */
  method ParseInvestigation(scan: Scan, sha: Sha, sources: Sources, raw: RawInvestigation, turns: nat)
    returns (r: Option<Investigation>)
    ensures r.Some? <==> InvestigationAccepted(scan, sha, sources, raw)
    ensures r.Some? ==> r.value == Investigation(
      raw.caseNotes, FindingsFor(scan, sha, sources, raw.findings), raw.limitations, raw.unresolved, turns)
  {
    hide FindingAccepted, NotesAccepted;
    if raw.status != DONE { return None; }
    var findings: seq<Finding>, ids: set<Text>, i := [], {}, 0;
    while i < |raw.findings|
      invariant 0 <= i <= |raw.findings|
      invariant AllAccepted(scan, sha, sources, raw.findings[..i])
      invariant findings == FindingsFor(scan, sha, sources, raw.findings[..i])
      invariant ids == Ids(raw.findings, i)
    {
      AcceptedOneMore(scan, sha, sources, raw.findings, i);
      var finding := ParseFinding(scan, sha, sources, raw.findings[i], i + 1);
      if finding == None || finding.value.id in ids {
        RejectedLonger(scan, sha, sources, raw.findings, i + 1);
        return None;
      }
      FindingsStep(scan, sha, sources, raw.findings, i);
      findings, ids := findings + [finding.value], ids + {finding.value.id};
      i := i + 1;
    }
    assert raw.findings[..|raw.findings|] == raw.findings;
    var noted := CheckNotes(scan, sources, raw);
    if !noted { return None; }
    return Some(Investigation(raw.caseNotes, findings, raw.limitations, raw.unresolved, turns));
  }

  function Ids(raws: seq<RawFinding>, n: nat): set<Text>
    requires n <= |raws|
  {
    set i | 0 <= i < n :: IdOf(raws[i], i + 1)
  }

  lemma AcceptedOneMore(scan: Scan, sha: Sha, sources: Sources, raws: seq<RawFinding>, n: nat)
    requires n < |raws|
    ensures AllAccepted(scan, sha, sources, raws[..n + 1])
       <==> && AllAccepted(scan, sha, sources, raws[..n])
            && FindingAccepted(scan, sha, sources, raws[n], n + 1)
            && IdOf(raws[n], n + 1) !in Ids(raws, n)
    ensures Ids(raws, n + 1) == Ids(raws, n) + {IdOf(raws[n], n + 1)}
  {
    hide FindingAccepted, IdOf;
    var longer, shorter := raws[..n + 1], raws[..n];
    assert forall i :: 0 <= i < n ==> longer[i] == shorter[i];
    assert longer[n] == raws[n];
  }

  lemma FindingsStep(scan: Scan, sha: Sha, sources: Sources, raws: seq<RawFinding>, n: nat)
    requires n < |raws| && AllAccepted(scan, sha, sources, raws[..n]) && AllAccepted(scan, sha, sources, raws[..n + 1])
    requires FindingAccepted(scan, sha, sources, raws[n], n + 1)
    ensures FindingsFor(scan, sha, sources, raws[..n + 1])
         == FindingsFor(scan, sha, sources, raws[..n]) + [FindingFor(scan, sha, sources, raws[n], n + 1)]
  {}

  lemma {:induction false} RejectedLonger(scan: Scan, sha: Sha, sources: Sources, raws: seq<RawFinding>, n: nat)
    requires n <= |raws| && !AllAccepted(scan, sha, sources, raws[..n])
    ensures !AllAccepted(scan, sha, sources, raws)
    decreases |raws| - n
  {
    if n == |raws| {
      assert raws[..n] == raws;
    } else {
      AcceptedOneMore(scan, sha, sources, raws, n);
      RejectedLonger(scan, sha, sources, raws, n + 1);
    }
  }

  /* ---- The reader's view of the same investigation ---- */

  /** `_verify_serialized_finding`: each recorded field is the submitted one, normalised,
      and the spans are the submitted quotes in order. */
  predicate Serialized(scan: Scan, raw: RawFinding, recorded: Finding, ordinal: nat) {
    && recorded.id == (if raw.id != [] then raw.id else Ordinal(ordinal))
    && recorded.title == (if raw.title != [] then raw.title else UNTITLED)
    && recorded.summary == raw.summary
    && recorded.status == ReadStatus(scan, raw.status)
    && recorded.severity == scan.upper(if raw.severity != [] then raw.severity else UNKNOWN)
    && recorded.calls == raw.calls && recorded.iocs == raw.iocs && recorded.limitations == raw.limitations
    && |raw.quotes| == |recorded.spans|
    && forall i :: 0 <= i < |raw.quotes| ==>
         raw.quotes[i].call == recorded.spans[i].call && raw.quotes[i].text == recorded.spans[i].text
  }

  function ReadStatus(scan: Scan, status: Text): Status {
    match ParseStatus(scan, if status != [] then status else NEEDS_REVIEW)
    case Some(s) => s
    case None => NeedsReview
  }

  lemma FindingIsSerialized(scan: Scan, sha: Sha, sources: Sources, raw: RawFinding, ordinal: nat)
    requires FindingAccepted(scan, sha, sources, raw, ordinal)
    ensures Serialized(scan, raw, FindingFor(scan, sha, sources, raw, ordinal), ordinal)
  {
    forall i | 0 <= i < |raw.quotes|
      ensures var s := SpansFor(scan, sha, sources, raw.calls, raw.quotes)[i];
              raw.quotes[i].call == s.call && raw.quotes[i].text == s.text
    {
      SpanAt(scan, sha, sources, raw.calls, raw.quotes, i);
    }
  }

  lemma SuccessIsFact(sources: Sources, calls: seq<Text>)
    requires exists c :: c in calls && c in sources && sources[c].success
    ensures AnySuccess(FactsOf(sources), calls)
  {
    var c :| c in calls && c in sources && sources[c].success;
    assert c in FactsOf(sources) && FactsOf(sources)[c].success;
  }

  /** Every cited id has a quote, so none is empty. */
  lemma CitedAreNonempty(scan: Scan, sha: Sha, sources: Sources, raw: RawFinding)
    requires QuotesAccepted(scan, sha, sources, raw.calls, raw.quotes)
    ensures [] !in raw.calls
  {
    forall c | c in raw.calls ensures c != [] {
      var i :| 0 <= i < |raw.quotes| && QuoteCalls(raw.quotes)[i] == c;
      assert raw.quotes[i] in raw.quotes;
    }
  }

  lemma AcceptedFindingPasses(scan: Scan, sha: Sha, sources: Sources, raw: RawFinding, ordinal: nat)
    requires HexSha(sha) && !IdCollision(sha, sources, raw.quotes) && FindingAccepted(scan, sha, sources, raw, ordinal)
    ensures FindingOk(scan, sha, FactsOf(sources), FindingFor(scan, sha, sources, raw, ordinal))
       <==> !RepeatedEvidence(sources, raw.quotes)
  {
    CitedAreNonempty(scan, sha, sources, raw);
    SpansAgreeUnlessRepeated(scan, sha, sources, raw.calls, raw.quotes);
    if FromMapping(scan, raw, ordinal, []).status == Confirmed { SuccessIsFact(sources, raw.calls); }
  }

  /** No finding's quotes exhibit a collision of span ids. */
  predicate NoIdCollision(sha: Sha, sources: Sources, raw: RawInvestigation) {
    forall i :: 0 <= i < |raw.findings| ==> !IdCollision(sha, sources, raw.findings[i].quotes)
  }

  /** On an investigation the controller accepted, the reader has no complaint exactly when
      no finding supports itself twice with one text from identical outputs. */
  lemma InvestigationsAgree(scan: Scan, sha: Sha, sources: Sources, raw: RawInvestigation)
    requires HexSha(sha) && NoIdCollision(sha, sources, raw) && InvestigationAccepted(scan, sha, sources, raw)
    ensures FindingsOk(scan, sha, FactsOf(sources), FindingsFor(scan, sha, sources, raw.findings))
       <==> forall i :: 0 <= i < |raw.findings| ==> !RepeatedEvidence(sources, raw.findings[i].quotes)
    ensures forall i :: 0 <= i < |raw.findings| ==>
              Serialized(scan, raw.findings[i], FindingsFor(scan, sha, sources, raw.findings)[i], i + 1)
  {
    var findings := FindingsFor(scan, sha, sources, raw.findings);
    forall i | 0 <= i < |raw.findings|
      ensures Serialized(scan, raw.findings[i], findings[i], i + 1)
      ensures FindingOk(scan, sha, FactsOf(sources), findings[i]) <==> !RepeatedEvidence(sources, raw.findings[i].quotes)
      ensures findings[i].id != []
    {
      FindingIsSerialized(scan, sha, sources, raw.findings[i], i + 1);
      AcceptedFindingPasses(scan, sha, sources, raw.findings[i], i + 1);
    }
    assert forall i :: 0 <= i < |findings| ==> findings[i].id == IdOf(raw.findings[i], i + 1);
  }
}
