/** The audited model client: preflight, the bounded retry loop, the charge and the response
    checks, each written to the log as it happens.  The provider answers, fails and takes
    time as it pleases. */
module ModelClient {
  import opened Wrappers
  import opened Utf8
  import opened Citations
  import opened Caps
  import opened Events
  import opened Transactions
  import opened Occurrences

  class Audit {
    var log: Log

    constructor ()
      ensures log == []
    {
      log := [];
    }

    method Append(e: Event)
      modifies this
      ensures log == old(log) + [e]
    {
      log := log + [e];
    }
  }

  /** A monotonic clock. */
  class Clock {
    var now: real

    method Read() returns (t: real)
      modifies this
      ensures t == now >= old(now)
    {
      var step: real := *;
      if step > 0.0 { now := now + step; }
      return now;
    }
  }

  datatype Dispatch = Answered(reply: Reply) | Failed(failure: Failure)

  /** The provider, and all it has answered so far. */
  class Provider {
    ghost var sent: seq<Dispatch>

    constructor ()
      ensures sent == []
    {
      sent := [];
    }

    method Send(clock: Clock) returns (d: Dispatch)
      modifies this, clock
      ensures sent == old(sent) + [d] && clock.now >= old(clock.now)
    {
      var answered: bool := *;
      if answered {
        var reply: Reply := *;
        d := Answered(reply);
      } else {
        var failure: Failure := *;
        d := Failed(failure);
      }
      sent := sent + [d];
      var t := clock.Read();
    }
  }

  /** What the provider sent for these failed attempts, and for an answered request. */
  function FailedOnes(attempts: seq<Attempt>): seq<Dispatch> {
    seq(|attempts|, i requires 0 <= i < |attempts| => Failed(attempts[i].failure))
  }

  function Sent(t: Txn): seq<Dispatch> {
    FailedOnes(t.attempts) + [Answered(t.reply)]
  }

  datatype Tried = Got(reply: Reply) | Again(attempt: Attempt) | Stopped

  function Recovery(phase: Phase, attempt: nat, max: nat, reply: Reply): Log {
    if attempt <= 1 then [] else [AnsweredEvent(phase, attempt, max, reply)]
  }

  predicate CallsValid(calls: seq<Call>) {
    && (forall i :: 0 <= i < |calls| ==> calls[i].valid)
    && (forall i, j :: 0 <= i < j < |calls| ==> calls[i].id != calls[j].id)
  }

  /* ---- Why a request has no answer ---- */

  /** What the log and the meter show of it: a cap that fired, an attempt that was not retried,
      or a response that could not be used, with the options it was asked under. */
  datatype Cause =
    | CapReached
    | CallFailed(at: nat)
    | AnswerRefused(options: nat, at: nat)
    | ReplyRefused(at: nat)
    | NotRetained(at: nat)

  /** The attempt recorded at `p` was the last: its failure was not one to retry, or attempts or
      time had run out. */
  predicate FailedAt(log: Log, p: nat) {
    && p < |log| && log[p].AttemptError? && log[p].retryable == Transient(log[p].failure)
    && (|| !Transient(log[p].failure)
        || log[p].attempt >= log[p].maxAttempts
        || (p + 1 < |log| && log[p + 1] == RetrySkipped(log[p].phase, log[p].attempt)))
  }

  predicate Usable(reply: Reply, maximum: int) {
    reply.usageReported && reply.usage.Valid() && ReplyAccepted(reply, maximum)
  }

  predicate RefusedAt(log: Log, o: nat, p: nat) {
    && o < p < |log| && log[o].RequestOptions? && log[p].Response? && log[p].phase == log[o].phase
    && !Usable(log[p].reply, log[o].options.maximum)
  }

  /** Since entry `n`, the client had this cause to give up. */
  predicate Unanswered(cause: Cause, m: Meter, log: Log, n: nat) {
    match cause
    case CapReached => m.fired.Some?
    case CallFailed(p) => n <= p && FailedAt(log, p)
    case AnswerRefused(o, p) => n <= o && RefusedAt(log, o, p)
    case _ => false
  }

  /** What is written when attempt `attempt` is given up. */
  function GivenUp(phase: Phase, attempt: nat, max: nat, failure: Failure): Log {
    [AttemptError(phase, attempt, max, Transient(failure), failure, true)]
    + (if Transient(failure) && attempt < max then [RetrySkipped(phase, attempt), ModelError] else [ModelError])
  }

  /** The cap that has just fired was logged, and nothing else. */
  predicate CapLogged(before: Log, log: Log, m: Meter) {
    m.fired.Some? && log == before + [CapFired(m.fired.value.0)]
  }

  /** A cap fired over attempt `attempt`: before it was dispatched, or after it failed. */
  predicate CappedOver(before: Log, log: Log, m: Meter, phase: Phase, attempt: nat, max: nat) {
    || CapLogged(before, log, m)
    || (&& |log| > |before| && log[|before|].AttemptError?
        && var f := log[|before|].failure;
           var error := AttemptError(phase, attempt, max, Transient(f), f, true);
           CapLogged(before + (if Transient(f) && attempt < max then [error] else [error, ModelError]), log, m))
  }

  lemma GivenUpFailed(log: Log, phase: Phase, attempt: nat, max: nat, failure: Failure, more: Log)
    requires log + GivenUp(phase, attempt, max, failure) <= more
    ensures FailedAt(more, |log|) && (more == log + GivenUp(phase, attempt, max, failure) ==> more[|more| - 1] == ModelError)
  {
    var whole := log + GivenUp(phase, attempt, max, failure);
    assert whole[|log|] == more[|log|] && whole[|log| + 1] == more[|log| + 1];
  }

  /** `_validate_response`, after the usage checks. */
  predicate ReplyAccepted(reply: Reply, maximum: int) {
    reply.completed && reply.usage.output <= maximum && CallsValid(reply.calls)
  }

  /** The output tokens asked for are as many as preflight spares, up to the phase's ceiling. */
  predicate Spared(cfg: Config, before: Meter, phase: Phase, o: Options) {
    var p := Policy(phase);
    && 0.0 < cfg.caps.maxWallSeconds
    && Prepared(cfg.caps, before, 0.0, o.estimate, p.maximum, cfg.model, p.minimum) == Ok(o.maximum)
  }

  /** An answered request that the client accepted, charged against the meter `before`. */
  predicate TxnOk(cfg: Config, before: Meter, t: Txn) {
    && OptionsOk(cfg, t.phase, t.options) && Spared(cfg, before, t.phase, t.options)
    && AttemptsOk(t.attempts, t.maxAttempts, t.options.timeout)
    && t.reply.usageReported && t.reply.usage.Valid() && ReplyAccepted(t.reply, t.options.maximum)
    && t.callCost == UsageCost(cfg.caps, t.reply.usage, cfg.model)
    && t.runningCost == before.cost + t.callCost
  }

  class AuditedModel {
    const cfg: Config
    const audit: Audit
    const budget: RunBudget
    const clock: Clock
    const provider: Provider
    const maxAttempts: nat

    ghost predicate Valid()
      reads this, budget, clock
    {
      && budget.config == cfg.caps && Priced(cfg.caps) && WithinCaps(cfg.caps, budget.View())
      && budget.started <= clock.now
      && 1 <= maxAttempts <= 3
    }

    constructor (cfg: Config, audit: Audit, budget: RunBudget, clock: Clock, provider: Provider, maxAttempts: nat)
      requires budget.config == cfg.caps && Priced(cfg.caps) && WithinCaps(cfg.caps, budget.View())
      requires budget.started <= clock.now && 1 <= maxAttempts <= 3
      ensures Valid() && this.cfg == cfg && this.audit == audit && this.budget == budget && this.clock == clock
      ensures this.provider == provider
    {
      this.cfg, this.audit, this.budget, this.clock, this.provider := cfg, audit, budget, clock, provider;
      this.maxAttempts := maxAttempts;
    }

    /** Seconds left before the wall cap. */
    function Wall(): real
      reads this, clock
    {
      cfg.caps.maxWallSeconds - (clock.now - budget.started)
    }

    /** One attempt of the retry loop. */
    method Try(phase: Phase, timeout: real, attempt: nat) returns (r: Tried)
      requires Valid() && budget.fired == None && timeout > 0.0 && 1 <= attempt <= maxAttempts
      modifies audit, budget, clock, provider
      ensures old(provider.sent) <= provider.sent && |provider.sent| <= |old(provider.sent)| + 1
      ensures provider.sent != old(provider.sent) ==> old(Wall()) > 0.0
      ensures r.Got? ==> provider.sent == old(provider.sent) + [Answered(r.reply)]
      ensures r.Again? ==> provider.sent == old(provider.sent) + [Failed(r.attempt.failure)]
      ensures Valid() && clock.now >= old(clock.now) && Extends(old(audit.log), audit.log)
      ensures !r.Stopped? ==> budget.View() == old(budget.View())
      ensures r.Got? ==> audit.log == old(audit.log) + Recovery(phase, attempt, maxAttempts, r.reply)
      ensures r.Again? ==>
        && attempt < maxAttempts && Transient(r.attempt.failure)
        && audit.log == old(audit.log) + [ErrorEvent(phase, maxAttempts, attempt, r.attempt),
                                          ScheduledEvent(phase, maxAttempts, attempt, r.attempt)]
        && 0.0 < r.attempt.nextTimeout <= timeout
        && r.attempt.nextTimeout <= old(Wall()) - Backoff(attempt)
        && r.attempt.nextTimeout >= Lesser(timeout, Wall() - Backoff(attempt))
      ensures r.Stopped? && budget.fired == None ==>
        && |audit.log| > |old(audit.log)| && audit.log[|old(audit.log)|].AttemptError?
        && var failure := audit.log[|old(audit.log)|].failure;
           && audit.log == old(audit.log) + GivenUp(phase, attempt, maxAttempts, failure)
           && provider.sent == old(provider.sent) + [Failed(failure)]
           && (Transient(failure) && attempt < maxAttempts ==> Wall() <= Backoff(attempt))
      ensures r.Stopped? && budget.fired.Some? ==>
        CappedOver(old(audit.log), audit.log, budget.View(), phase, attempt, maxAttempts)
      ensures r.Stopped? && CapLogged(old(audit.log), audit.log, budget.View()) ==> provider.sent == old(provider.sent)
    {
      hide Transient, Where, Backoff, WithinCaps;
      r := Stopped;
      var limit := RemainingOrCap();
      if limit <= 0.0 { return; }
      var d := provider.Send(clock);
      match d {
        case Answered(reply) =>
          if attempt > 1 {
            audit.Append(RetrySucceeded(phase, attempt, maxAttempts, reply.responseId, reply.requestId, reply.sol,
                                        reply.completed));
          }
          r := Got(reply);
        case Failed(failure) => r := Retry(phase, limit, timeout, attempt, failure);
      }
    }

    /** After a failed dispatch: another attempt, if the failure is transient, an attempt is left
        and the backoff leaves time for it. */
    method Retry(phase: Phase, limit: real, timeout: real, attempt: nat, failure: Failure) returns (r: Tried)
      requires Valid() && budget.fired == None && timeout > 0.0 && limit > 0.0 && 1 <= attempt <= maxAttempts
      requires Wall() <= limit
      modifies audit, budget, clock
      ensures Valid() && clock.now >= old(clock.now) && Extends(old(audit.log), audit.log) && !r.Got?
      ensures |audit.log| > |old(audit.log)| && audit.log[|old(audit.log)|].AttemptError?
      ensures !r.Stopped? ==> budget.View() == old(budget.View())
      ensures r.Again? ==>
        && attempt < maxAttempts && Transient(failure) && r.attempt.failure == failure
        && audit.log == old(audit.log) + [ErrorEvent(phase, maxAttempts, attempt, r.attempt),
                                          ScheduledEvent(phase, maxAttempts, attempt, r.attempt)]
        && 0.0 < r.attempt.nextTimeout <= timeout
        && r.attempt.nextTimeout == Lesser(timeout, Wall() - Backoff(attempt))
      ensures r.Stopped? && budget.fired == None ==>
        && audit.log == old(audit.log) + GivenUp(phase, attempt, maxAttempts, failure)
        && (Transient(failure) && attempt < maxAttempts ==> Wall() <= Backoff(attempt))
      ensures r.Stopped? && budget.fired.Some? ==>
        CappedOver(old(audit.log), audit.log, budget.View(), phase, attempt, maxAttempts)
    {
      hide Transient, Where, Backoff, WithinCaps;
      r := Stopped;
      audit.Append(AttemptError(phase, attempt, maxAttempts, Transient(failure), failure, true));
      if !Transient(failure) || attempt >= maxAttempts {
        audit.Append(ModelError);
        CheckAgain();
        return;
      }
      var wall := RemainingOrCap();
      if wall <= 0.0 { return; }
      if wall <= Backoff(attempt) {
        audit.Append(RetrySkipped(phase, attempt));
        audit.Append(ModelError);
        return;
      }
      BackoffPositive(attempt);
      var next := Lesser(Lesser(timeout, limit), wall - Backoff(attempt));
      audit.Append(RetryScheduled(phase, attempt, attempt + 1, maxAttempts, Backoff(attempt), next));
      r := Again(Attempt(failure, next));
    }

    /** A deadline check, and the event of a cap it fires. */
    method CheckAgain()
      requires Valid() && budget.fired == None
      modifies audit, budget, clock
      ensures Valid() && clock.now >= old(clock.now) && Extends(old(audit.log), audit.log)
      ensures budget.fired == None ==> audit.log == old(audit.log) && old(Wall()) > 0.0
      ensures budget.fired.Some? ==> CapLogged(old(audit.log), audit.log, budget.View())
    {
      var now := clock.Read();
      var checked := budget.Check(now);
      if !checked.Ok? { audit.Append(CapFired(budget.fired.value.0)); }
    }

    /** The seconds left, or, when the wall cap fires, its event and nothing left. */
    method RemainingOrCap() returns (wall: real)
      requires Valid() && budget.fired == None
      modifies audit, budget, clock
      ensures Valid() && clock.now >= old(clock.now)
      ensures wall > 0.0 ==> audit.log == old(audit.log) && budget.View() == old(budget.View()) && wall == Wall()
      ensures wall <= 0.0 ==> CapLogged(old(audit.log), audit.log, budget.View())
    {
      var now := clock.Read();
      var checked := budget.Check(now);
      if checked.Ok? {
        now := clock.Read();
        var left := budget.RemainingWall(now);
        if left.Ok? { return left.value; }
      }
      audit.Append(CapFired(WallSeconds));
      return 0.0;
    }

    /** `_create_with_transient_retries`: the provider is called at most `maxAttempts` times;
        only transient failures are retried, and each retry is scheduled within what the
        request has left. */
    method CreateWithRetries(phase: Phase, timeout: real)
      returns (reply: Option<Reply>, ghost attempts: seq<Attempt>, ghost failed: nat)
      requires Valid() && budget.fired == None && timeout > 0.0
      modifies audit, budget, clock, provider
      ensures old(provider.sent) <= provider.sent && |provider.sent| <= |old(provider.sent)| + maxAttempts
      ensures reply.Some? ==> provider.sent == old(provider.sent) + (FailedOnes(attempts) + [Answered(reply.value)])
      ensures reply == None ==> budget.fired.Some? || (|old(audit.log)| <= failed && FailedAt(audit.log, failed))
      ensures reply == None && budget.fired == None ==> audit.log != [] && audit.log[|audit.log| - 1] == ModelError
      ensures Valid() && clock.now >= old(clock.now) && Extends(old(audit.log), audit.log)
      ensures reply.Some? ==>
        && budget.View() == old(budget.View())
        && AttemptsOk(attempts, maxAttempts, timeout)
        && audit.log == old(audit.log)
             + (Failures(phase, maxAttempts, attempts) + Recovery(phase, |attempts| + 1, maxAttempts, reply.value))
    {
      hide Transient, Backoff, Where, OptionsOk, FailedOnes, FailedAt, AttemptsOk, WithinCaps, Failures, Recovery,
           ErrorEvent, ScheduledEvent, AnsweredEvent, GivenUp, Lesser;
      attempts, reply, failed := [], None, 0;
      NothingYet(phase, maxAttempts, timeout, Wall());
      var attempt := 1;
      while attempt <= maxAttempts
        invariant attempt == |attempts| + 1 <= maxAttempts
        invariant provider.sent == old(provider.sent) + FailedOnes(attempts)
        invariant |provider.sent| == |old(provider.sent)| + |attempts|
        invariant Valid() && clock.now >= old(clock.now) && Extends(old(audit.log), audit.log)
        invariant budget.View() == old(budget.View())
        invariant Paced(attempts, maxAttempts, timeout, Wall())
        invariant audit.log == old(audit.log) + Failures(phase, maxAttempts, attempts)
      {
        ghost var wall, before := Wall(), audit.log;
        var tried := Try(phase, timeout, attempt);
        match tried {
          case Got(r) =>
            Joined(old(audit.log), Failures(phase, maxAttempts, attempts), Recovery(phase, attempt, maxAttempts, r));
            return Some(r), attempts, failed;
          case Stopped =>
            failed := |before|;
            if budget.fired == None {
              GivenUpFailed(before, phase, attempt, maxAttempts, audit.log[failed].failure, audit.log);
            }
            return;
          case Again(a) =>
            Joined(old(audit.log), Failures(phase, maxAttempts, attempts),
                   [ErrorEvent(phase, maxAttempts, attempt, a), ScheduledEvent(phase, maxAttempts, attempt, a)]);
            OneMoreAttempt(attempts, a, maxAttempts, timeout, wall, Wall());
            OneMoreFailed(phase, maxAttempts, attempts, a);
            attempts, attempt := attempts + [a], attempt + 1;
        }
      }
      assert false;
    }

    /** A cap fired before, the deadline has passed, or what is left cannot pay for a request of
        this size and phase. */
    ghost predicate FiredByPreflight(before: Meter, phase: Phase, estimate: nat)
      reads this, budget, clock
    {
      && budget.fired.Some?
      && (|| budget.View() == before
          || (budget.fired.value.0 == WallSeconds && Wall() <= 0.0)
          || (var p := Policy(phase);
              var r := Prepared(cfg.caps, before, 0.0, estimate, p.maximum, cfg.model, p.minimum);
              r.Exceeded? && budget.fired == Some((r.kind, r.detail))))
    }

    /** Preflight: the options of a request that may be sent now. */
    method Prepare(phase: Phase, estimate: nat) returns (options: Option<Options>)
      requires Valid() && estimate >= 1
      modifies audit, budget, clock
      ensures Valid() && clock.now >= old(clock.now) && audit.log == old(audit.log)
      ensures options.Some? ==> OptionsOk(cfg, phase, options.value) && budget.View() == old(budget.View())
      ensures options.Some? ==> Spared(cfg, old(budget.View()), phase, options.value)
      ensures options.Some? ==> options.value.estimate == estimate && options.value.timeout == Wall()
      ensures options.Some? ==> budget.fired == None && old(clock.now) - budget.started < cfg.caps.maxWallSeconds
      ensures options == None ==> FiredByPreflight(old(budget.View()), phase, estimate)
    {
      hide UsageCost, RemainingCost, RemainingTokens, CostLimitedTokens, Apply, Returned;
      var policy := Policy(phase);
      var now := clock.Read();
      var checked := budget.Check(now);
      if !checked.Ok? { return None; }
      now := clock.Read();
      var allowed := budget.Prepare(estimate, policy.maximum, cfg.model, policy.minimum, now);
      if !allowed.Ok? { return None; }
      now := clock.Read();
      var wall := budget.RemainingWall(now);
      if !wall.Ok? { return None; }
      return Some(policy.(maximum := allowed.value, estimate := estimate, timeout := wall.value));
    }

    /** The charge for a response, and the response event; `None` when the usage is not
        acceptable or a cap has fired. */
    method Charge(phase: Phase, reply: Reply) returns (charged: bool)
      requires Valid() && budget.fired == None
      modifies audit, budget, clock
      ensures Valid() && clock.now >= old(clock.now) && Extends(old(audit.log), audit.log)
      ensures charged <==> budget.fired == None && reply.usageReported && reply.usage.Valid()
      ensures charged ==> old(Wall()) > 0.0
      ensures |audit.log| > |old(audit.log)| && audit.log[|old(audit.log)|].Response?
      ensures audit.log[|old(audit.log)|].phase == phase && audit.log[|old(audit.log)|].reply == reply
      ensures !reply.usageReported || !reply.usage.Valid() ==>
        && audit.log == old(audit.log) + [Response(phase, reply, 0.0, old(budget.View()).cost)] + [ModelError]
        && budget.View() == old(budget.View())
      ensures budget.fired.Some? ==>
        && reply.usage.Valid()
        && var cost := UsageCost(cfg.caps, reply.usage, cfg.model);
           CapLogged(old(audit.log) + [Response(phase, reply, cost, old(budget.View()).cost + cost)], audit.log, budget.View())
      ensures charged ==>
        && reply.usageReported && reply.usage.Valid() && budget.fired == None
        && var cost := UsageCost(cfg.caps, reply.usage, cfg.model);
           && budget.View() == Charged(old(budget.View()), reply.usage, cost)
           && audit.log == old(audit.log) + [Response(phase, reply, cost, old(budget.View()).cost + cost)]
    {
      hide OptionsOk, AttemptsOk, Where, UsageCost, Window;
      charged := false;
      if !reply.usageReported || !reply.usage.Valid() {
        audit.Append(Response(phase, reply, 0.0, budget.cost));
        audit.Append(ModelError);
        return;
      }
      var cost := UsageCost(cfg.caps, reply.usage, cfg.model);
      ApplyKeeps(cfg.caps, budget.View(), OpUsage(reply.usage, cfg.model));
      var recorded := budget.Record(reply.usage, cfg.model);
      audit.Append(Response(phase, reply, cost, budget.cost));
      if !recorded.Ok? { audit.Append(CapFired(budget.fired.value.0)); return; }
      var now := clock.Read();
      var checked := budget.Check(now);
      if !checked.Ok? { audit.Append(CapFired(budget.fired.value.0)); return; }
      charged := true;
    }

    /** A request that passes preflight, with its options right after it. */
    method Ask(phase: Phase, packet: Packet, observations: seq<Observation>, catalog: seq<Function>)
      returns (options: Option<Options>)
      requires Valid()
      modifies audit, budget, clock
      ensures Valid() && clock.now >= old(clock.now)
      ensures options.None? ==> audit.log == old(audit.log) && budget.fired.Some?
      ensures options.Some? ==>
        && OptionsOk(cfg, phase, options.value) && Spared(cfg, old(budget.View()), phase, options.value)
        && options.value.timeout == Wall() && budget.fired == None && budget.View() == old(budget.View())
        && audit.log == old(audit.log) + [Request(phase, packet, observations, catalog)]
                        + [RequestOptions(phase, options.value)]
        && RequestCount(audit.log) == RequestCount(old(audit.log)) + 1
        && old(clock.now) - budget.started < cfg.caps.maxWallSeconds
    {
      var size: int := *;
      options := Prepare(phase, if size >= 1 then size else 1);
      if options == None { return; }
      audit.Append(Request(phase, packet, observations, catalog));
      audit.Append(RequestOptions(phase, options.value));
      OneRequestMore(old(audit.log), Request(phase, packet, observations, catalog), RequestOptions(phase, options.value));
    }

    /** `_validate_response`: complete, within the tokens asked for, and every call parsed under
        an id of its own. */
    method ValidateReply(reply: Reply, maximum: int) returns (ok: bool)
      ensures ok <==> ReplyAccepted(reply, maximum)
    {
      if !reply.completed || reply.usage.output > maximum { return false; }
      var seen: set<Text>, i := {}, 0;
      while i < |reply.calls|
        invariant 0 <= i <= |reply.calls| && forall k :: 0 <= k < i ==> reply.calls[k].valid
        invariant forall j, k :: 0 <= j < k < i ==> reply.calls[j].id != reply.calls[k].id
        invariant seen == set k | 0 <= k < i :: reply.calls[k].id
      {
        if !reply.calls[i].valid || reply.calls[i].id in seen { return false; }
        seen := seen + {reply.calls[i].id};
        i := i + 1;
      }
      return true;
    }

    /** The charge for a response and the check of it. */
    method Admit(phase: Phase, reply: Reply, maximum: int) returns (admitted: bool)
      requires Valid() && budget.fired == None
      modifies audit, budget, clock
      ensures Valid() && clock.now >= old(clock.now) && Extends(old(audit.log), audit.log)
      ensures |audit.log| > |old(audit.log)| && audit.log[|old(audit.log)|].Response?
      ensures audit.log[|old(audit.log)|].phase == phase && audit.log[|old(audit.log)|].reply == reply
      ensures admitted ==>
        && Usable(reply, maximum) && budget.fired == None
        && var cost := UsageCost(cfg.caps, reply.usage, cfg.model);
           && budget.View() == Charged(old(budget.View()), reply.usage, cost)
           && audit.log == old(audit.log) + [Response(phase, reply, cost, old(budget.View()).cost + cost)]
      ensures !admitted && budget.fired == None ==>
        !Usable(reply, maximum) && audit.log[|audit.log| - 1] == ModelError
    {
      hide ReplyAccepted, Where, UsageCost, WithinCaps;
      admitted := Charge(phase, reply);
      var accepted := ValidateReply(reply, maximum);
      if admitted && !accepted {
        audit.Append(ModelError);
        admitted := false;
      }
    }

    /** From the request options to a response that is charged and accepted. */
    method Settle(phase: Phase, options: Options)
      returns (reply: Option<Reply>, ghost attempts: seq<Attempt>, ghost cause: Cause)
      requires Valid() && budget.fired == None && options.timeout > 0.0
      requires audit.log != [] && audit.log[|audit.log| - 1] == RequestOptions(phase, options)
      modifies audit, budget, clock, provider
      ensures old(provider.sent) <= provider.sent && |provider.sent| <= |old(provider.sent)| + maxAttempts
      ensures reply.Some? ==> provider.sent == old(provider.sent) + (FailedOnes(attempts) + [Answered(reply.value)])
      ensures Valid() && clock.now >= old(clock.now) && Extends(old(audit.log), audit.log)
      ensures reply.Some? ==>
        && Usable(reply.value, options.maximum) && budget.fired == None
        && AttemptsOk(attempts, maxAttempts, options.timeout)
        && var cost := UsageCost(cfg.caps, reply.value.usage, cfg.model);
           && budget.View() == Charged(old(budget.View()), reply.value.usage, cost)
           && audit.log == old(audit.log)
                + (Failures(phase, maxAttempts, attempts) + Recovery(phase, |attempts| + 1, maxAttempts, reply.value))
                + [Response(phase, reply.value, cost, old(budget.View()).cost + cost)]
      ensures reply == None ==> Unanswered(cause, budget.View(), audit.log, |old(audit.log)| - 1)
      ensures reply == None && budget.fired == None ==> audit.log[|audit.log| - 1] == ModelError
    {
      hide Transient, Where, UsageCost, AttemptsOk, FailedOnes, Failures, Recovery, FailedAt, WithinCaps, OptionsOk,
           Priced, Prepared, ReplyAccepted, Usable, Charged, CapLogged, GivenUp, RequestEvent;
      cause := CapReached;
      ghost var failed, o := 0, |audit.log| - 1;
      reply, attempts, failed := CreateWithRetries(phase, options.timeout);
      if reply == None {
        if budget.fired == None { cause := CallFailed(failed); }
        return;
      }
      ghost var p := |audit.log|;
      var admitted := Admit(phase, reply.value, options.maximum);
      assert audit.log[o] == old(audit.log)[o];
      if !admitted {
        if budget.fired == None { cause := AnswerRefused(o, p); }
        reply := None;
      }
    }

    /** `create`: one request, from preflight to an accepted response. */
    method Create(phase: Phase, packet: Packet, observations: seq<Observation>, catalog: seq<Function>)
      returns (reply: Option<Reply>, ghost txn: Txn, ghost cause: Cause)
      requires Valid()
      modifies audit, budget, clock, provider
      ensures Valid() && clock.now >= old(clock.now) && old(audit.log) <= audit.log
      ensures RequestCount(audit.log) <= RequestCount(old(audit.log)) + 1
      ensures old(provider.sent) <= provider.sent && |provider.sent| <= |old(provider.sent)| + maxAttempts
      ensures reply.Some? ==> provider.sent == old(provider.sent) + Sent(txn)
      ensures reply.Some? ==>
        && txn.phase == phase && txn.packet == packet && txn.observations == observations
        && txn.catalog == catalog && txn.reply == reply.value
        && TxnOk(cfg, old(budget.View()), txn)
        && audit.log == old(audit.log) + TxnEvents(txn)
      ensures reply.Some? ==>
        && reply.value.usage.Valid() && budget.fired == None
        && budget.View() == Charged(old(budget.View()), reply.value.usage, txn.callCost)
        && old(clock.now) - budget.started < cfg.caps.maxWallSeconds
      ensures reply == None ==> Unanswered(cause, budget.View(), audit.log, |old(audit.log)|)
      ensures reply == None && budget.fired == None ==> audit.log != [] && audit.log[|audit.log| - 1] == ModelError
    {
      hide Spared, Unanswered, Where, Window, OptionsOk, AttemptsOk, ReplyAccepted, Transient, UsageCost, FailedOnes,
           Failures, Recovery, CapLogged, WithinCaps, Priced, TxnEvents, FailedAt, RefusedAt, Prepared;
      reply, cause := None, CapReached;
      txn := *;
      var options := Ask(phase, packet, observations, catalog);
      if options == None { GaveUpByCap(budget.View(), audit.log); return; }
      ghost var asked := audit.log;
      ghost var attempts;
      reply, attempts, cause := Settle(phase, options.value);
      ExtendsKeepsCount(asked, audit.log);
      if reply == None { EarlierToo(cause, budget.View(), audit.log, |asked| - 1, |old(audit.log)|); return; }
      txn := AssembledTxn(cfg, phase, packet, observations, catalog, options.value, maxAttempts, attempts,
                          reply.value, old(budget.View()).cost);
      AssembledIsOk(cfg, old(budget.View()), old(audit.log), txn);
    }
  }

  lemma BackoffPositive(attempt: nat)
    ensures Backoff(attempt) > 0.0
  {}

  lemma GaveUpByCap(m: Meter, log: Log)
    ensures m.fired.Some? ==> Unanswered(CapReached, m, log, |log|)
  {}

  lemma EarlierToo(cause: Cause, m: Meter, log: Log, n: nat, earlier: nat)
    requires Unanswered(cause, m, log, n) && earlier <= n
    ensures Unanswered(cause, m, log, earlier)
  {}

  lemma OneRequestMore(log: Log, request: Event, options: Event)
    requires request.Request? && options.RequestOptions?
    ensures RequestCount(log + [request] + [options]) == RequestCount(log) + 1
  {
    WhereConcat(log, [request], IsRequest);
    WhereSingle(request, IsRequest);
    WhereConcat(log + [request], [options], IsRequest);
    WhereSingle(options, IsRequest);
  }

  function AssembledTxn(cfg: Config, phase: Phase, packet: Packet, observations: seq<Observation>, catalog: seq<Function>,
                        options: Options, maxAttempts: nat, attempts: seq<Attempt>, reply: Reply, spent: real): Txn
  {
    var cost := UsageCost(cfg.caps, reply.usage, cfg.model);
    Txn(phase, packet, observations, catalog, options, maxAttempts, attempts, reply, cost, spent + cost)
  }

  /** A settled request is a transaction, and its events were appended in order. */
  lemma AssembledIsOk(cfg: Config, before: Meter, log: Log, t: Txn)
    requires OptionsOk(cfg, t.phase, t.options) && Spared(cfg, before, t.phase, t.options)
    requires AttemptsOk(t.attempts, t.maxAttempts, t.options.timeout)
    requires t.reply.usageReported && t.reply.usage.Valid() && ReplyAccepted(t.reply, t.options.maximum)
    requires t.callCost == UsageCost(cfg.caps, t.reply.usage, cfg.model) && t.runningCost == before.cost + t.callCost
    ensures TxnOk(cfg, before, t)
    ensures log + [RequestEvent(t)] + [RequestOptions(t.phase, t.options)]
            + (Failures(t.phase, t.maxAttempts, t.attempts) + Recovery(t.phase, |t.attempts| + 1, t.maxAttempts, t.reply))
            + [ResponseEvent(t)]
         == log + TxnEvents(t)
  {
    var w := Window(t);
    var head := [RequestEvent(t), RequestOptions(t.phase, t.options)];
    assert w == Failures(t.phase, t.maxAttempts, t.attempts)
                + Recovery(t.phase, |t.attempts| + 1, t.maxAttempts, t.reply);
    assert log + [RequestEvent(t)] + [RequestOptions(t.phase, t.options)] == log + head;
    Joined(log, head, w + [ResponseEvent(t)]);
    Joined(log + head, w, [ResponseEvent(t)]);
  }

  /** The attempts so far, the last of them scheduled no earlier than `wall` seconds before
      the cap allow. */
  predicate Paced(attempts: seq<Attempt>, max: nat, timeout: real, wall: real) {
    && AttemptsOk(attempts, max, timeout)
    && (attempts != [] ==> attempts[|attempts| - 1].nextTimeout >= Lesser(timeout, wall - Backoff(|attempts|)))
  }

  lemma NothingYet(phase: Phase, max: nat, timeout: real, wall: real)
    requires 1 <= max <= 3
    ensures FailedOnes([]) == [] && Paced([], max, timeout, wall) && Failures(phase, max, []) == []
  {}

  lemma OneMoreFailed(phase: Phase, max: nat, attempts: seq<Attempt>, a: Attempt)
    ensures FailedOnes(attempts + [a]) == FailedOnes(attempts) + [Failed(a.failure)]
    ensures Failures(phase, max, attempts + [a])
         == Failures(phase, max, attempts) + [ErrorEvent(phase, max, |attempts| + 1, a),
                                              ScheduledEvent(phase, max, |attempts| + 1, a)]
  {
    assert (attempts + [a])[..|attempts|] == attempts;
  }

  lemma OneMoreAttempt(attempts: seq<Attempt>, a: Attempt, max: nat, timeout: real, wall: real, later: real)
    requires Paced(attempts, max, timeout, wall) && |attempts| + 1 < max
    requires Transient(a.failure) && 0.0 < a.nextTimeout <= timeout
    requires a.nextTimeout <= wall - Backoff(|attempts| + 1)
    requires a.nextTimeout >= Lesser(timeout, later - Backoff(|attempts| + 1))
    ensures Paced(attempts + [a], max, timeout, later)
  {
    assert (attempts + [a])[..|attempts|] == attempts;
    assert Backoff(1) == 0.25 && Backoff(2) == 0.5;
  }
}
