/** The agreement with the controller's own parsers and the reader's own checks in place. */
module CitationAgreement {
  import opened Wrappers
  import opened Utf8
  import opened Citations
  import opened CitationReader
  import opened Findings
  import opened Verdicts
  import opened Caps
  import opened Events
  import opened Transactions
  import opened ModelClient
  import opened ToolRegistry
  import opened Script
  import opened StepFacts
  import opened Lifecycle
  import opened Layout
  import opened Agreement
  import opened ToolAgreement
  import opened PacketAgreement
  import opened ControllerAgreement
  import opened Acceptance

  /* ---- One map of sources on both sides ---- */

  lemma {:induction false} SourceAt(cfg: Config, receipts: seq<Receipt>, id: Text)
    requires DistinctIds(receipts)
    ensures id in SourcesOf(cfg, receipts) <==> id in ReceiptIds(receipts)
    ensures forall r :: r in receipts && r.id == id ==>
              id in SourcesOf(cfg, receipts) && SourcesOf(cfg, receipts)[id] == SourceOf(cfg, r)
  {
    if receipts != [] {
      var last := |receipts| - 1;
      SourceAt(cfg, receipts[..last], id);
      assert receipts == receipts[..last] + [receipts[last]];
      ReceiptIdsConcat(receipts[..last], [receipts[last]]);
      assert ReceiptIds([receipts[last]]) == [receipts[last].id];
    }
  }

  lemma SameSources(cfg: Config, a: seq<Receipt>, b: seq<Receipt>)
    requires DistinctIds(a) && DistinctIds(b) && SameReceipts(a, b)
    ensures SourcesOf(cfg, a) == SourcesOf(cfg, b)
  {
    hide SourcesOf, DistinctIds, SourceOf, ReceiptIds;
    var m, n := SourcesOf(cfg, a), SourcesOf(cfg, b);
    SameIsSymmetric(a, b);
    forall id ensures (id in m <==> id in n) && (id in m ==> m[id] == n[id]) {
      SourceAt(cfg, a, id);
      SourceAt(cfg, b, id);
      if id in m { SameReceiptIds(a, b, id); var r := ReceiptNamed(a, id); }
      if id in n { SameReceiptIds(b, a, id); }
    }
  }

  lemma ReceiptNamed(receipts: seq<Receipt>, id: Text) returns (r: Receipt)
    requires id in ReceiptIds(receipts)
    ensures r in receipts && r.id == id
  {
    var k :| 0 <= k < |receipts| && ReceiptIds(receipts)[k] == id;
    r := receipts[k];
  }

  lemma {:induction false} ReceiptsAreDistinct(log: Log)
    requires ToolIdsOnce(log)
    ensures DistinctIds(Receipts(log))
  {
    if log != [] {
      var last := |log| - 1;
      var before := Receipts(log[..last]);
      ReceiptsAreDistinct(log[..last]);
      if log[last].ToolCompleted? {
        forall k | 0 <= k < |before| ensures before[k].id != log[last].receipt.id {
          var p := WhereListed(log[..last], before[k]);
          assert log[..last][p] == log[p];
        }
      }
    }
  }

  /** The controller resolves citations against the very sources the reader retains. */
  lemma RunSources(cfg: Config, steps: seq<Step>)
    requires Read(cfg, steps)
    ensures SourcesOf(cfg, Remembered(steps[..|steps| - 3])) == SourcesOf(cfg, Receipts(LogOf(steps)))
    ensures Receipts(LogOf(steps[..|steps| - 2])) == Receipts(LogOf(steps))
  {
    hide StepsOk, Complete, AllRegular, LogOf, TxnsOf, Paired, ToolIdsOnce, SourcesOf, Receipts, Remembered,
         DistinctIds, SameReceipts;
    AtLeastFive(steps);
    ReceiptsAtEnd(cfg, steps);
    ReceiptsAreDistinct(LogOf(steps));
    RememberedAreReceipts(cfg, steps, |steps| - 3);
    SameSources(cfg, Remembered(steps[..|steps| - 3]), Receipts(LogOf(steps)));
  }

  /** What the finalizer submitted, and whether it leans twice on one text. */
  function Submitted(steps: seq<Step>): RawInvestigation
    requires |steps| >= 5
  {
    var a := FirstCall(steps[|steps| - 3].txn).action;
    if a.SubmitInvestigation? then a.raw else RawInvestigation([], [], [], [], [])
  }

  predicate NoRepeats(sources: Sources, raw: RawInvestigation) {
    forall i :: 0 <= i < |raw.findings| ==> !RepeatedEvidence(sources, raw.findings[i].quotes)
  }

  /** No submitted finding quotes one text from two calls that retained identical output. */
  predicate RepeatsNothing(cfg: Config, steps: seq<Step>) {
    |steps| >= 5 && NoRepeats(SourcesOf(cfg, Receipts(LogOf(steps))), Submitted(steps))
  }

  /** Nothing hashed for the span ids of one finding exhibits a collision. */
  predicate FreeOfCollisions(cfg: Config, steps: seq<Step>) {
    |steps| >= 5 ==> NoIdCollision(cfg.sha, SourcesOf(cfg, Receipts(LogOf(steps))), Submitted(steps))
  }

  /** The run's own parsers took the two submissions, and returned what was recorded. */
  predicate TookSubmissions(cfg: Config, sources: Sources, steps: seq<Step>)
    requires |steps| >= 5
  {
    var finalize, judge := steps[|steps| - 3], steps[|steps| - 2];
    && finalize.FinalizeStep? && judge.JudgeStep?
    && FirstCall(finalize.txn).action.SubmitInvestigation? && FirstCall(judge.txn).action.SubmitJudgment?
    && Conclusion(cfg, sources, Submitted(steps)) == Some(finalize.investigation.findings)
    && Decision(cfg, FactsOf(sources), finalize.investigation.findings, FirstCall(judge.txn).action.raws)
       == Some(judge.verdicts)
  }

  lemma RunParses(cfg: Config, steps: seq<Step>)
    requires Read(cfg, steps)
    ensures |steps| >= 5 && TookSubmissions(cfg, SourcesOf(cfg, Receipts(LogOf(steps))), steps)
  {
    hide StepsOk, Complete, AllRegular, LogOf, TxnsOf, Paired, ToolIdsOnce, SourcesOf, Receipts, Remembered,
         FirstCall, IndexOf, Views, NotesAt;
    AtLeastFive(steps);
    var n := |steps| - 4;
    StepKind(steps, n + 1);
    StepKind(steps, n + 2);
    ClosingAt(cfg, steps, n + 1);
    ClosingAt(cfg, steps, n + 2);
    RunSources(cfg, steps);
    assert steps[..n + 2][n + 1] == steps[n + 1];
  }

  lemma SubmissionAgrees(cfg: Config, sources: Sources, raw: RawInvestigation, raws: seq<RawVerdict>,
                         investigation: Investigation, verdicts: seq<Verdict>)
    requires Trims(cfg.scan) && HexSha(cfg.sha) && NoIdCollision(cfg.sha, sources, raw)
    requires Conclusion(cfg, sources, raw) == Some(investigation.findings)
    requires Decision(cfg, FactsOf(sources), investigation.findings, raws) == Some(verdicts)
    ensures AllSerialized(cfg, raw, investigation)
    ensures Cited(cfg, FactsOf(sources), investigation.findings, verdicts) <==> NoRepeats(sources, raw)
    ensures NoRepeats(sources, raw) ==> BindsJudgment(cfg, investigation.findings, raws, verdicts)
  {
    hide Serialized, CitationsOk, JudgeBound, RepeatedEvidence, VerdictsAccepted, InvestigationAccepted, FindingsFor,
         VerdictsFor, FindingsOk, Trims, HexSha, NoIdCollision;
    InvestigationsAgree(cfg.scan, cfg.sha, sources, raw);
    CitationPipelinesAgree(cfg.scan, cfg.sha, sources, raw, raws);
    FindingsCounted(cfg.scan, cfg.sha, sources, raw);
    if NoRepeats(sources, raw) {
      VerdictsAgree(cfg.scan, cfg.sha, FactsOf(sources), investigation.findings, raws);
    }
  }

  lemma FindingsCounted(scan: Scan, sha: Sha, sources: Sources, raw: RawInvestigation)
    requires InvestigationAccepted(scan, sha, sources, raw)
    ensures |FindingsFor(scan, sha, sources, raw.findings)| == |raw.findings|
  {}

  /** For any number of turns, any interleaving and any retries, the reader accepts the log
      of a complete run exactly when no submitted finding quotes one text from two calls
      that retained identical output, and the final snapshot was on time. */
  lemma ReaderAcceptsUnlessRepeated(cfg: Config, steps: seq<Step>)
    requires Trims(cfg.scan) && HexSha(cfg.sha) && FreeOfCollisions(cfg, steps)
    requires StepsOk(cfg, steps) && Complete(steps) && Honest(cfg, steps)
    ensures Accepted(cfg, LogOf(steps)) <==> RepeatsNothing(cfg, steps) && OnTime(cfg, steps)
  {
    hide StepsOk, Complete, AllRegular, LogOf, TxnsOf, Paired, ToolIdsOnce, SourcesOf, Receipts, Honest, Accepted,
         Trims, HexSha, FreeOfCollisions, Cites, RepeatsNothing, OnTime;
    ScriptIsRead(cfg, steps);
    CompleteRunIsAccepted(cfg, steps);
    CitesUnlessRepeated(cfg, steps);
  }

  lemma CitesUnlessRepeated(cfg: Config, steps: seq<Step>)
    requires Trims(cfg.scan) && HexSha(cfg.sha) && FreeOfCollisions(cfg, steps) && Read(cfg, steps)
    ensures Cites(cfg, steps) <==> RepeatsNothing(cfg, steps)
  {
    hide StepsOk, Complete, AllRegular, LogOf, TxnsOf, Paired, ToolIdsOnce, SourcesOf, Receipts, Trims, HexSha,
         NoIdCollision, NoRepeats, Cited, BindsJudgment, AllSerialized, Conclusion, Decision, FirstCall;
    AtLeastFive(steps);
    RunParses(cfg, steps);
    var n := |steps| - 4;
    SubmissionAgrees(cfg, SourcesOf(cfg, Receipts(LogOf(steps))), Submitted(steps), FirstCall(steps[n + 2].txn).action.raws,
                     steps[n + 1].investigation, steps[n + 2].verdicts);
  }
}
