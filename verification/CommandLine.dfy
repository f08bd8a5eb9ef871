/** The end of the command: a run that completed is put through the strict reader. */
module CommandLine {
  import opened Wrappers
  import opened Citations
  import opened CitationReader
  import opened Verdicts
  import opened Caps
  import opened Events
  import opened Occurrences
  import opened Transactions
  import opened Script
  import opened Lifecycle
  import opened Agreement
  import opened CitationAgreement
  import opened Agent
  import opened StrictReader

  /** A log that says the run did not complete is never accepted. */
  lemma IncompleteIsRefused(cfg: Config, log: Log)
    requires log != [] && log[|log| - 1] == RunCompleted(false)
    ensures !Accepted(cfg, log)
  {
    hide RequiredOk, NoFailures, ToolIdsOnce, ToolsPaired, Paired, EachTransaction, DistinctReplies, NoOrphans,
         ControllerOk, InputsOk, TotalsOk, Where, PlaceOf, SourcesOf, Receipts, TxnsOf;
  }

  /** The run, and the strict verification of its log.  With an honest provider, and unless
      the run's own span ids exhibit a hash collision, a completed run is accepted exactly
      when no submitted finding quotes one text from two calls that retained identical
      output and the final snapshot was on time; a run that did not complete never is. */
  method RunAndVerify(agent: UnchainedAgent) returns (complete: bool, passed: bool, ghost steps: seq<Step>)
    requires agent.Valid() && agent.audit.log == [] && agent.tools.claimed == {} && agent.budget.View() == FRESH
    requires agent.provider.sent == [] && agent.tools.toolbox.executions == 0
    requires Trims(agent.cfg.scan) && HexSha(agent.cfg.sha)
    modifies agent.audit, agent.budget, agent.clock, agent.provider, agent.tools`claimed, agent.tools.toolbox
    ensures passed <==> Accepted(agent.cfg, agent.audit.log)
    ensures passed ==> complete
    ensures complete ==> Complete(steps) && StepsOk(agent.cfg, steps) && agent.audit.log == LogOf(steps)
    ensures complete && Honest(agent.cfg, steps) && FreeOfCollisions(agent.cfg, steps) ==>
      (passed <==> RepeatsNothing(agent.cfg, steps) && OnTime(agent.cfg, steps))
    ensures agent.AtMost(agent.cfg.caps.maxToolCalls + 4)
  {
    hide Trims, HexSha, FreeOfCollisions, StepsOk, Honest, Accepted, RepeatsNothing, OnTime, LogOf, InProgress;
    ghost var cause, stopped;
    complete, steps, cause, stopped := agent.RunCase();
    var reader := new Verifier(agent.cfg);
    reader.Verify(agent.audit.log);
    passed := reader.errors == [];
    if !complete {
      PartialIsQuiet(stopped, agent.budget.View());
      IncompleteIsRefused(agent.cfg, agent.audit.log);
    } else if Honest(agent.cfg, steps) && FreeOfCollisions(agent.cfg, steps) {
      ReaderAcceptsUnlessRepeated(agent.cfg, steps);
    }
  }
}
