/** What the strict reader rebuilds for itself before it compares: the receipt index, the
    observations, the facts of the receipts, the recorded findings and the recorded verdicts,
    field by field. */
module ReaderBindings {
  import opened Wrappers
  import opened Utf8
  import opened CanonicalJson
  import opened PrefixCuts
  import opened Citations
  import opened CitationReader
  import opened Findings
  import opened Verdicts
  import opened Events
  import opened Transactions
  import opened Script

  /* ---- Receipts ---- */

  /** One entry of the receipt index. */
  method Entry(cfg: Config, r: Receipt) returns (e: IndexEntry)
    ensures e == EntryOf(cfg, r)
  {
    var content := Encode(r.output);
    e := IndexEntry(r.id, r.name, r.arguments, r.status, cfg.sha(content), |content|);
  }

  /** `_receipt_index_before`. */
  method ReceiptIndex(cfg: Config, receipts: seq<Receipt>) returns (index: seq<IndexEntry>)
    ensures index == IndexOf(cfg, receipts)
  {
    index := [];
    var k := 0;
    while k < |receipts|
      invariant 0 <= k <= |receipts| && index == IndexOf(cfg, receipts)[..k]
    {
      var e := Entry(cfg, receipts[k]);
      index := index + [e];
      k := k + 1;
    }
  }

  /** One item of `_verified_observation_items`. */
  method Item(cfg: Config, r: Receipt, quotable: bool) returns (o: Observation)
    ensures o == ViewOf(cfg, r, quotable)
  {
    var shown := cfg.view(r, quotable);
    o := Observation(r.id, r.name, r.arguments, shown);
  }

  /** The files of the receipts as they are read back. */
  method FactsIn(cfg: Config, log: Log) returns (facts: Facts)
    ensures facts == FactsOf(SourcesOf(cfg, Receipts(log)))
  {
    hide Receipts, SourcesOf, First2kb;
    facts := map[];
    NoFacts(cfg);
    var k := 0;
    while k < |log|
      invariant 0 <= k <= |log| && facts == FactsOf(SourcesOf(cfg, Receipts(log[..k])))
    {
      FactsOneMore(cfg, log, k);
      if log[k].ToolCompleted? {
        var r := log[k].receipt;
        var content := Encode(r.output);
        facts := facts[r.id := Fact(content, cfg.sha(content), r.status == Success, First2kb(r.output))];
      }
      k := k + 1;
    }
    assert log[..|log|] == log;
  }

  lemma NoFacts(cfg: Config)
    ensures FactsOf(SourcesOf(cfg, Receipts([]))) == map[]
  {}

  lemma FactsOneMore(cfg: Config, log: Log, k: nat)
    requires k < |log|
    ensures var facts := FactsOf(SourcesOf(cfg, Receipts(log[..k])));
            FactsOf(SourcesOf(cfg, Receipts(log[..k + 1])))
            == if log[k].ToolCompleted? then
                 var r := log[k].receipt;
                 facts[r.id := Fact(Encode(r.output), cfg.sha(Encode(r.output)), r.status == Success, First2kb(r.output))]
               else facts
  {
    hide First2kb, FactsOf;
    var before := log[..k];
    assert log[..k + 1] == before + [log[k]] && (before + [log[k]])[..k] == before;
    if log[k].ToolCompleted? {
      var receipts, r := Receipts(before), log[k].receipt;
      assert Receipts(log[..k + 1]) == receipts + [r];
      assert (receipts + [r])[..|receipts|] == receipts;
      OneFactMore(SourcesOf(cfg, receipts), r.id, SourceOf(cfg, r));
    } else {
      assert Receipts(log[..k + 1]) == Receipts(before) + [] == Receipts(before);
    }
  }

  lemma OneFactMore(sources: Sources, id: Text, s: Source)
    ensures FactsOf(sources[id := s]) == FactsOf(sources)[id := Fact(Encode(s.output), s.digest, s.success, First2kb(s.output))]
  {
    hide First2kb;
  }

  /* ---- Findings ---- */

  lemma DecimalLength(n: nat)
    ensures |Decimal(n)| >= 1
    ensures |Decimal(n)| == 1 <==> n < 10
    ensures |Decimal(n)| == 2 <==> 10 <= n < 100
  {}

  /** `F{ordinal:03d}`. */
  method OrdinalText(n: nat) returns (t: Text)
    ensures t == Ordinal(n)
  {
    hide Decimal;
    DecimalLength(n);
    var digits, zeros := Decimal(n), 0;
    while |digits| < 3
      invariant |digits| == |Decimal(n)| + zeros && zeros <= 2 && (zeros > 0 ==> |digits| <= 3)
      invariant digits == [0x30, 0x30][..zeros] + Decimal(n)
    {
      digits, zeros := [0x30] + digits, zeros + 1;
    }
    t := [0x46] + digits;
  }

  /** `_verify_serialized_finding`. */
  method SameFinding(scan: Scan, raw: RawFinding, recorded: Finding, ordinal: nat) returns (same: bool)
    ensures same <==> Serialized(scan, raw, recorded, ordinal)
  {
    hide Ordinal;
    var id := raw.id;
    if id == [] { id := OrdinalText(ordinal); }
    var title, severity := raw.title, raw.severity;
    if title == [] { title := FromString("Untitled finding"); }
    if severity == [] { severity := FromString("UNKNOWN"); }
    var submitted := if raw.status == [] then FromString("NEEDS-REVIEW") else raw.status;
    var status := ParseStatus(scan, submitted);
    if status == None { status := Some(NeedsReview); }
    if recorded.id != id || recorded.title != title || recorded.summary != raw.summary { return false; }
    if Some(recorded.status) != status || recorded.severity != scan.upper(severity) { return false; }
    if recorded.calls != raw.calls || recorded.iocs != raw.iocs || recorded.limitations != raw.limitations { return false; }
    if |recorded.spans| != |raw.quotes| { return false; }
    var k := 0;
    while k < |raw.quotes|
      invariant 0 <= k <= |raw.quotes|
      invariant forall i :: 0 <= i < k ==>
        raw.quotes[i].call == recorded.spans[i].call && raw.quotes[i].text == recorded.spans[i].text
    {
      if recorded.spans[k].call != raw.quotes[k].call || recorded.spans[k].text != raw.quotes[k].text { return false; }
      k := k + 1;
    }
    return true;
  }

  /* ---- Verdicts ---- */

  /** `_verify_recorded_verdict`. */
  method SameVerdict(scan: Scan, raw: RawVerdict, recorded: Verdict, f: Finding) returns (same: bool)
    ensures same <==> Recorded(scan, raw, recorded, f)
  {
    var submitted, annotations := ParseStatus(scan, raw.status), raw.annotations;
    var expected := submitted;
    if submitted.Some? && FindingRank(submitted.value) > FindingRank(f.status) {
      annotations := annotations
        + [FromString("Judge upgrade to ") + StatusName(submitted.value) + FromString(" was not applied; retained ")
           + FromString("investigator status ") + StatusName(f.status) + FromString(".")];
      expected := Some(f.status);
    }
    if recorded.findingId != raw.findingId || Some(recorded.status) != expected { return false; }
    if recorded.rationale != scan.strip(raw.rationale) || recorded.cited != raw.cited { return false; }
    return recorded.quotes == raw.quotes && recorded.annotations == annotations;
  }

  /** The submitted verdicts by finding, or nothing when an id is missing or stands twice. */
  method ByFinding(raws: seq<RawVerdict>) returns (r: Option<map<Text, RawVerdict>>)
    ensures r.Some? <==> (forall i :: 0 <= i < |raws| ==> raws[i].findingId != []) && DistinctRaws(raws)
    ensures r.Some? ==> r.value.Keys == RawIds(raws)
    ensures r.Some? ==> forall id :: id in r.value ==> RawFor(raws, id) == Some(r.value[id])
  {
    hide RawFor;
    var named: map<Text, RawVerdict>, k := map[], 0;
    while k < |raws|
      invariant 0 <= k <= |raws|
      invariant forall i :: 0 <= i < k ==> raws[i].findingId != []
      invariant forall i, j :: 0 <= i < j < k ==> raws[i].findingId != raws[j].findingId
      invariant named.Keys == set i | 0 <= i < k :: raws[i].findingId
      invariant forall id :: id in named ==> RawFor(raws[..k], id) == Some(named[id])
    {
      var raw := raws[k];
      if raw.findingId == [] || raw.findingId in named { return None; }
      named := named[raw.findingId := raw];
      forall id | id in named ensures RawFor(raws[..k + 1], id) == Some(named[id]) { RawForOneMore(raws, k, id); }
      k := k + 1;
    }
    assert raws[..|raws|] == raws;
    return Some(named);
  }

  lemma RawForOneMore(raws: seq<RawVerdict>, k: nat, id: Text)
    requires k < |raws|
    ensures RawFor(raws[..k + 1], id) == if raws[k].findingId == id then Some(raws[k]) else RawFor(raws[..k], id)
  {
    assert raws[..k + 1][..k] == raws[..k];
  }

  /** `_verify_judge_binding`. */
  method SameJudgment(scan: Scan, findings: seq<Finding>, raws: seq<RawVerdict>, recorded: seq<Verdict>)
    returns (same: bool)
    ensures same <==> JudgeBound(scan, findings, raws, recorded)
  {
    hide RawFor, Recorded;
    var named := ByFinding(raws);
    if named == None || |recorded| != |findings| { return false; }
    if named.value.Keys != (set i | 0 <= i < |findings| :: findings[i].id) { return false; }
    var k := 0;
    while k < |findings|
      invariant 0 <= k <= |findings|
      invariant forall i :: 0 <= i < k ==>
        && recorded[i].findingId == findings[i].id && RawFor(raws, findings[i].id).Some?
        && Recorded(scan, RawFor(raws, findings[i].id).value, recorded[i], findings[i])
    {
      var f := findings[k];
      assert f.id in named.value.Keys;
      if recorded[k].findingId != f.id { return false; }
      var same := SameVerdict(scan, named.value[f.id], recorded[k], f);
      if !same { return false; }
      k := k + 1;
    }
    return true;
  }
}
