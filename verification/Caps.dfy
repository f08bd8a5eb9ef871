/** The hard caps of one run: a locked meter for tool calls, tokens, wall time and
    dollars.  Every method of the meter runs under one lock, so an interleaving of threads
    is a sequence of the operations below.  Dollars and seconds are exact reals, and the
    clock is read by the caller and passed in. */
module Caps {
  import opened Wrappers

  datatype CapKind = ToolCalls | TotalTokens | WallSeconds | CostUsd

  datatype CapConfig = CapConfig(
    maxToolCalls: nat, maxTotalTokens: nat, maxWallSeconds: real, maxCostUsd: real,
    inputRate: real, cachedRate: real, cacheWriteRate: real, outputRate: real)

  const DEFAULT_CAPS := CapConfig(60, 400_000, 1_800.0, 10.0, 5.0, 0.5, 6.25, 30.0)
  const LONG_CONTEXT := 272_000

  /** Token counts of one model response, as the provider reported them. */
  datatype Usage = Usage(
    input: int, output: int, cached: int, cacheWrite: int, reasoning: int, providerTotal: int)
  {
    /** The more conservative of the provider's total and the component total. */
    function Total(): (t: int)
      ensures Valid() ==> t == input + output
    {
      if providerTotal > input + output then providerTotal else input + output
    }

    /** `_validate_usage`. */
    predicate Valid() {
      && input >= 0 && output >= 0 && cached >= 0 && cacheWrite >= 0 && reasoning >= 0
      && (providerTotal == 0 || providerTotal == input + output)
      && cached + cacheWrite <= input
    }
  }

  datatype Model = Model(isGpt56: bool)

  predicate LongContext(model: Model, input: int) {
    model.isGpt56 && input > LONG_CONTEXT
  }

  function InputMultiplier(model: Model, input: int): real {
    if LongContext(model, input) then 2.0 else 1.0
  }

  function OutputMultiplier(model: Model, input: int): real {
    if LongContext(model, input) then 1.5 else 1.0
  }

  /** `estimate_usage_cost` on valid usage. */
  function UsageCost(cfg: CapConfig, u: Usage, model: Model): real {
    ((u.input - u.cached - u.cacheWrite) as real * cfg.inputRate * InputMultiplier(model, u.input)
     + u.cached as real * cfg.cachedRate * InputMultiplier(model, u.input)
     + u.cacheWrite as real * cfg.cacheWriteRate * InputMultiplier(model, u.input)
     + u.output as real * cfg.outputRate * OutputMultiplier(model, u.input)) / 1_000_000.0
  }

  /** The step prices are multiplied by, for input and for output. */
  function PriceStep(model: Model, input: int): (real, real) {
    if model.isGpt56 && input > 272_000 then (2.0, 1.5) else (1.0, 1.0)
  }

  lemma OneMoreToken(n: int, rate: real, mult: real)
    ensures (n + 1) as real * rate * mult == n as real * rate * mult + rate * mult
    ensures (n - 1) as real * rate * mult == n as real * rate * mult - rate * mult
  {
    assert (n + 1) as real * rate == n as real * rate + rate;
    assert (n - 1) as real * rate == n as real * rate - rate;
  }

  /** The price of each kind of token at a price step: what a plain input token costs, what it
      saves or adds when it is cached or cache-written instead, and what an output token
      costs. */
  lemma TokenPrices(cfg: CapConfig, u: Usage, model: Model)
    ensures var (m, k) := PriceStep(model, u.input);
            && UsageCost(cfg, u.(cached := u.cached + 1), model) - UsageCost(cfg, u, model)
               == (cfg.cachedRate * m - cfg.inputRate * m) / 1_000_000.0
            && UsageCost(cfg, u.(cacheWrite := u.cacheWrite + 1), model) - UsageCost(cfg, u, model)
               == (cfg.cacheWriteRate * m - cfg.inputRate * m) / 1_000_000.0
            && UsageCost(cfg, u.(output := u.output + 1), model) - UsageCost(cfg, u, model)
               == cfg.outputRate * k / 1_000_000.0
    ensures PriceStep(model, u.input + 1) == PriceStep(model, u.input) ==>
              UsageCost(cfg, u.(input := u.input + 1), model) - UsageCost(cfg, u, model)
              == cfg.inputRate * PriceStep(model, u.input).0 / 1_000_000.0
  {
    var (m, k) := PriceStep(model, u.input);
    var plain := u.input - u.cached - u.cacheWrite;
    OneMoreToken(plain, cfg.inputRate, m);
    OneMoreToken(u.cached, cfg.cachedRate, m);
    OneMoreToken(u.cacheWrite, cfg.cacheWriteRate, m);
    OneMoreToken(u.output, cfg.outputRate, k);
  }

  /** No tokens cost nothing, plain input costs its step's price throughout, and neither the
      reasoning count nor the provider's total changes the cost. */
  lemma PlainPrice(cfg: CapConfig, n: nat, model: Model, u: Usage, reasoning: int, total: int)
    ensures UsageCost(cfg, Usage(0, 0, 0, 0, 0, 0), model) == 0.0
    ensures UsageCost(cfg, Usage(n, 0, 0, 0, 0, 0), model) == n as real * cfg.inputRate * PriceStep(model, n).0 / 1_000_000.0
    ensures UsageCost(cfg, u.(reasoning := reasoning, providerTotal := total), model) == UsageCost(cfg, u, model)
  {}

  predicate Priced(cfg: CapConfig) {
    && 0.0 <= cfg.cachedRate <= cfg.inputRate
    && 0.0 <= cfg.cacheWriteRate
    && 0.0 <= cfg.outputRate
  }

  /** The counters, and the first cap that fired with the detail of its message. */
  datatype Meter = Meter(
    toolCalls: nat, input: nat, cached: nat, cacheWrite: nat, output: nat, total: nat,
    cost: real, fired: Option<(CapKind, Detail)>)

  datatype Detail =
    | Elapsed(seconds: real)
    | DeadlineBeforeLaunch
    | DeadlineReached
    | WouldReach(calls: nat)
    | Observed(tokens: nat)
    | Estimated(dollars: real)
    | NoResponseTokens
    | NoResponseCost
    | NoResponseToken
    | PhaseMinimum(minimum: int)

  const FRESH := Meter(0, 0, 0, 0, 0, 0, 0.0, None)

  datatype Outcome<T> = Ok(value: T) | Exceeded(kind: CapKind, detail: Detail) | Refused

  /** `_fire_unlocked` followed by its raise; a cap that fired earlier wins. */
  function Fire(m: Meter, kind: CapKind, detail: Detail): Meter {
    if m.fired.None? then m.(fired := Some((kind, detail))) else m
  }

  function Raised<T>(m: Meter): Outcome<T>
    requires m.fired.Some?
  {
    Exceeded(m.fired.value.0, m.fired.value.1)
  }

  /* ---- The metering operations, as functions of the meter and the elapsed time ---- */

  function AfterCheck(cfg: CapConfig, m: Meter, elapsed: real, late: Detail): Meter {
    if m.fired.None? && elapsed >= cfg.maxWallSeconds then Fire(m, WallSeconds, late) else m
  }

  function AfterReserve(cfg: CapConfig, m: Meter, elapsed: real, count: nat): Meter {
    var checked := AfterCheck(cfg, m, elapsed, DeadlineBeforeLaunch);
    if checked.fired.Some? then checked
    else if m.toolCalls + count > cfg.maxToolCalls then
      Fire(m, ToolCalls, WouldReach(m.toolCalls + count))
    else m.(toolCalls := m.toolCalls + count)
  }

  function Charged(m: Meter, u: Usage, cost: real): Meter
    requires u.Valid()
  {
    m.(input := m.input + u.input, cached := m.cached + u.cached,
       cacheWrite := m.cacheWrite + u.cacheWrite, output := m.output + u.output,
       total := m.total + u.Total(), cost := m.cost + cost)
  }

  function AfterUsage(cfg: CapConfig, m: Meter, u: Usage, model: Model): Meter
    requires u.Valid()
  {
    if m.fired.Some? then m
    else
      var c := Charged(m, u, UsageCost(cfg, u, model));
      if c.total > cfg.maxTotalTokens then Fire(c, TotalTokens, Observed(c.total))
      else if c.cost > cfg.maxCostUsd then Fire(c, CostUsd, Estimated(c.cost))
      else c
  }

  /** Tokens and dollars a request may still spend after its conservative input estimate. */
  function RemainingTokens(cfg: CapConfig, m: Meter, estimate: int): int {
    cfg.maxTotalTokens - m.total - estimate
  }

  function RemainingCost(cfg: CapConfig, m: Meter, estimate: int, model: Model): real {
    cfg.maxCostUsd - m.cost - UsageCost(cfg, Usage(estimate, 0, 0, 0, 0, 0), model)
  }

  /** `int(remaining_cost * 1_000_000 / output_rate)` for a positive remainder. */
  function CostLimitedTokens(cfg: CapConfig, m: Meter, estimate: int, model: Model): int {
    var rate := cfg.outputRate * OutputMultiplier(model, estimate);
    if rate == 0.0 then RemainingTokens(cfg, m, estimate)
    else (RemainingCost(cfg, m, estimate, model) * 1_000_000.0 / rate).Floor
  }

  function Min(a: int, b: int): int { if a <= b then a else b }
  function Max(a: int, b: int): int { if a >= b then a else b }

  /** `prepare_model_request` after its argument checks: the output tokens it allows. */
  function Prepared(cfg: CapConfig, m: Meter, elapsed: real, estimate: int, preferred: int,
                    model: Model, minimum: int): Outcome<int>
  {
    if m.fired.Some? then Raised(m)
    else if elapsed >= cfg.maxWallSeconds then Exceeded(WallSeconds, DeadlineReached)
    else
      var tokens := RemainingTokens(cfg, m, estimate);
      var byCost := CostLimitedTokens(cfg, m, estimate, model);
      var allowed := Min(preferred, Min(tokens, byCost));
      if tokens < 1 then Exceeded(TotalTokens, NoResponseTokens)
      else if RemainingCost(cfg, m, estimate, model) <= 0.0 then Exceeded(CostUsd, NoResponseCost)
      else if byCost < 1 then Exceeded(CostUsd, NoResponseToken)
      else if allowed >= minimum then Ok(allowed)
      else if tokens < minimum then Exceeded(TotalTokens, PhaseMinimum(minimum))
      else Exceeded(CostUsd, PhaseMinimum(minimum))
  }

  function AfterPrepare(cfg: CapConfig, m: Meter, r: Outcome<int>): Meter {
    if r.Exceeded? then Fire(m, r.kind, r.detail) else m
  }

  /* ---- The metering calls as one alphabet ---- */

  datatype Op =
    | OpCheck(elapsed: real)
    | OpReserve(elapsed: real, count: int)
    | OpUsage(usage: Usage, model: Model)
    | OpRemainingWall(elapsed: real)
    | OpPrepare(elapsed: real, estimate: int, preferred: int, model: Model, minimum: int)

  /** The arguments the meter takes; it refuses any others outright. */
  predicate Proper(op: Op) {
    match op
    case OpReserve(_, count) => count >= 1
    case OpUsage(u, _) => u.Valid()
    case OpPrepare(_, _, preferred, _, minimum) => 1 <= minimum <= Max(1, preferred)
    case _ => true
  }

  /** The meter after one atomic metering call. */
  function Apply(cfg: CapConfig, m: Meter, op: Op): Meter {
    if !Proper(op) then m
    else
      match op
      case OpCheck(t) => AfterCheck(cfg, m, t, Elapsed(t))
      case OpReserve(t, n) => AfterReserve(cfg, m, t, n)
      case OpUsage(u, model) => AfterUsage(cfg, m, u, model)
      case OpRemainingWall(t) => AfterCheck(cfg, m, t, DeadlineReached)
      case OpPrepare(t, e, p, model, min) => AfterPrepare(cfg, m, Prepared(cfg, m, t, Max(1, e), Max(1, p), model, min))
  }

  /** What the caller of a metering call gets, but for the value: an error exactly when the
      arguments are improper or a cap has fired. */
  function Returned(cfg: CapConfig, m: Meter, op: Op): Outcome<()> {
    if !Proper(op) then Refused
    else if Apply(cfg, m, op).fired.Some? then Raised(Apply(cfg, m, op))
    else Ok(())
  }

  function Bare<T>(r: Outcome<T>): Outcome<()> {
    match r
    case Ok(_) => Ok(())
    case Exceeded(kind, detail) => Exceeded(kind, detail)
    case Refused => Refused
  }

  lemma PrepareReturns(cfg: CapConfig, m: Meter, elapsed: real, estimate: int, preferred: int, model: Model, minimum: int)
    ensures var op := OpPrepare(elapsed, estimate, preferred, model, minimum);
            var r := Prepared(cfg, m, elapsed, Max(1, estimate), Max(1, preferred), model, minimum);
            if 1 <= minimum <= Max(1, preferred) then
              Apply(cfg, m, op) == AfterPrepare(cfg, m, r) && Returned(cfg, m, op) == Bare(r)
            else Apply(cfg, m, op) == m && Returned(cfg, m, op) == Refused
  {}

  /* ---- The meter itself ---- */

  class RunBudget {
    const config: CapConfig
    const started: real
    var toolCalls: nat
    var input: nat
    var cached: nat
    var cacheWrite: nat
    var output: nat
    var total: nat
    var cost: real
    var fired: Option<(CapKind, Detail)>

    function View(): Meter
      reads this
    {
      Meter(toolCalls, input, cached, cacheWrite, output, total, cost, fired)
    }

    constructor (config: CapConfig, clock: real)
      ensures this.config == config && this.started == clock && View() == FRESH
    {
      this.config, this.started := config, clock;
      toolCalls, input, cached, cacheWrite, output, total := 0, 0, 0, 0, 0, 0;
      cost, fired := 0.0, None;
    }

    /** The call had this effect on the meter, and returned this. */
    ghost predicate Performed<T>(before: Meter, op: Op, r: Outcome<T>)
      reads this
    {
      View() == Apply(config, before, op) && Bare(r) == Returned(config, before, op)
    }

    method FireCap(kind: CapKind, detail: Detail)
      modifies this
      ensures View() == Fire(old(View()), kind, detail)
    {
      if fired.None? { fired := Some((kind, detail)); }
    }

    /** `check`. */
    method Check(clock: real) returns (r: Outcome<()>)
      modifies this
      ensures View() == AfterCheck(config, old(View()), clock - started, Elapsed(clock - started))
      ensures r == if View().fired.Some? then Raised(View()) else Ok(())
      ensures Performed(old(View()), OpCheck(clock - started), r)
    {
      if fired.None? && clock - started >= config.maxWallSeconds {
        FireCap(WallSeconds, Elapsed(clock - started));
      }
      if fired.Some? { return Exceeded(fired.value.0, fired.value.1); }
      return Ok(());
    }

    /** `reserve_tool_calls`. */
    method Reserve(count: int, clock: real) returns (r: Outcome<()>)
      modifies this
      ensures count < 1 ==> r == Refused && View() == old(View())
      ensures count >= 1 ==>
                && View() == AfterReserve(config, old(View()), clock - started, count)
                && r == if View().fired.Some? then Raised(View()) else Ok(())
      ensures Performed(old(View()), OpReserve(clock - started, count), r)
    {
      if count < 1 { return Refused; }
      if fired.None? && clock - started >= config.maxWallSeconds {
        FireCap(WallSeconds, DeadlineBeforeLaunch);
      }
      if fired.Some? { return Exceeded(fired.value.0, fired.value.1); }
      var attempted := toolCalls + count;
      if attempted > config.maxToolCalls {
        FireCap(ToolCalls, WouldReach(attempted));
        return Exceeded(fired.value.0, fired.value.1);
      }
      toolCalls := attempted;
      return Ok(());
    }

    /** `_validate_usage`, count by count. */
    static method Validate(u: Usage) returns (ok: bool)
      ensures ok <==> u.Valid()
    {
      if u.input < 0 || u.output < 0 || u.cached < 0 { return false; }
      if u.cacheWrite < 0 || u.reasoning < 0 || u.providerTotal < 0 { return false; }
      if u.providerTotal != 0 && u.providerTotal != u.input + u.output { return false; }
      return !(u.cached + u.cacheWrite > u.input);
    }

    /** `record_model_usage`: observed usage is charged first, and may fire a cap. */
    method Record(u: Usage, model: Model) returns (r: Outcome<real>)
      modifies this
      ensures !u.Valid() ==> r == Refused && View() == old(View())
      ensures u.Valid() ==>
                && View() == AfterUsage(config, old(View()), u, model)
                && r == if View().fired.Some? then Raised(View()) else Ok(UsageCost(config, u, model))
      ensures Performed(old(View()), OpUsage(u, model), r)
    {
      var ok := Validate(u);
      if !ok { return Refused; }
      var callCost := UsageCost(config, u, model);
      if fired.Some? { return Exceeded(fired.value.0, fired.value.1); }
      input, cached, cacheWrite := input + u.input, cached + u.cached, cacheWrite + u.cacheWrite;
      output, total, cost := output + u.output, total + u.Total(), cost + callCost;
      if total > config.maxTotalTokens {
        FireCap(TotalTokens, Observed(total));
        return Exceeded(fired.value.0, fired.value.1);
      }
      if cost > config.maxCostUsd {
        FireCap(CostUsd, Estimated(cost));
        return Exceeded(fired.value.0, fired.value.1);
      }
      return Ok(callCost);
    }

    /** `remaining_wall_seconds`. */
    method RemainingWall(clock: real) returns (r: Outcome<real>)
      modifies this
      ensures View() == AfterCheck(config, old(View()), clock - started, DeadlineReached)
      ensures if View().fired.Some? then r == Raised(View())
              else r == Ok(config.maxWallSeconds - (clock - started)) && r.value > 0.0
      ensures Performed(old(View()), OpRemainingWall(clock - started), r)
    {
      if fired.None? && clock - started >= config.maxWallSeconds {
        FireCap(WallSeconds, DeadlineReached);
      }
      if fired.Some? { return Exceeded(fired.value.0, fired.value.1); }
      return Ok(config.maxWallSeconds - (clock - started));
    }

    /** `prepare_model_request`. */
    method Prepare(estimated: int, preferred: int, model: Model, minimum: int, clock: real)
      returns (r: Outcome<int>)
      modifies this
      ensures minimum < 1 || minimum > Max(1, preferred) ==> r == Refused && View() == old(View())
      ensures 1 <= minimum <= Max(1, preferred) ==>
                && r == Prepared(config, old(View()), clock - started, Max(1, estimated),
                                 Max(1, preferred), model, minimum)
                && View() == AfterPrepare(config, old(View()), r)
      ensures Performed(old(View()), OpPrepare(clock - started, estimated, preferred, model, minimum), r)
    {
      hide Apply, Returned;
      PrepareReturns(config, View(), clock - started, estimated, preferred, model, minimum);
      var estimate, wanted := if estimated < 1 then 1 else estimated, if preferred < 1 then 1 else preferred;
      if minimum < 1 || minimum > wanted { return Refused; }
      if fired.Some? { return Exceeded(fired.value.0, fired.value.1); }
      if clock - started >= config.maxWallSeconds {
        FireCap(WallSeconds, DeadlineReached);
        return Exceeded(WallSeconds, DeadlineReached);
      }
      var tokens := config.maxTotalTokens - total - estimate;
      if tokens < 1 {
        FireCap(TotalTokens, NoResponseTokens);
        return Exceeded(TotalTokens, NoResponseTokens);
      }
      var spare := config.maxCostUsd - cost - UsageCost(config, Usage(estimate, 0, 0, 0, 0, 0), model);
      if spare <= 0.0 {
        FireCap(CostUsd, NoResponseCost);
        return Exceeded(CostUsd, NoResponseCost);
      }
      var rate := config.outputRate * OutputMultiplier(model, estimate);
      var byCost := if rate == 0.0 then tokens else (spare * 1_000_000.0 / rate).Floor;
      if byCost < 1 {
        FireCap(CostUsd, NoResponseToken);
        return Exceeded(CostUsd, NoResponseToken);
      }
      var allowed := if byCost < tokens then byCost else tokens;
      if wanted < allowed { allowed := wanted; }
      if allowed < minimum {
        var kind := if tokens < minimum then TotalTokens else CostUsd;
        FireCap(kind, PhaseMinimum(minimum));
        return Exceeded(kind, PhaseMinimum(minimum));
      }
      return Ok(allowed);
    }
  }

  /* ---- Preflight dominates the later charge ---- */

  /** What cache writes cost above the plain input price that preflight assumed. */
  function CacheWritePremium(cfg: CapConfig, u: Usage, model: Model): real {
    u.cacheWrite as real * (cfg.cacheWriteRate - cfg.inputRate) * InputMultiplier(model, u.input)
    / 1_000_000.0
  }

  lemma Scale(a: real, b: real, c: real)
    requires a <= b && 0.0 <= c
    ensures a * c <= b * c
  {}

  lemma ScaleLeft(c: real, a: real, b: real)
    requires a <= b && 0.0 <= c
    ensures c * a <= c * b && c * 0.0 == 0.0
  {}

  /** Charging everything at the uncached price is an upper bound but for the premium. */
  lemma InputCostBound(cfg: CapConfig, u: Usage, model: Model)
    requires Priced(cfg) && u.Valid()
    ensures UsageCost(cfg, u, model)
            <= (u.input as real * cfg.inputRate * InputMultiplier(model, u.input)
                + u.output as real * cfg.outputRate * OutputMultiplier(model, u.input)) / 1_000_000.0
               + CacheWritePremium(cfg, u, model)
  {
    var mult := InputMultiplier(model, u.input);
    Scale(cfg.cachedRate, cfg.inputRate, u.cached as real * mult);
    var i, c, w := u.input as real, u.cached as real, u.cacheWrite as real;
    assert (u.input - u.cached - u.cacheWrite) as real == i - c - w;
    assert (i - c - w) * cfg.inputRate * mult
        == i * cfg.inputRate * mult - c * cfg.inputRate * mult - w * cfg.inputRate * mult;
    assert w * (cfg.cacheWriteRate - cfg.inputRate) * mult
        == w * cfg.cacheWriteRate * mult - w * cfg.inputRate * mult;
  }

  /** A smaller request at the same or a cheaper price step costs no more. */
  lemma PriceStepMonotone(cfg: CapConfig, model: Model, input: int, estimate: int, output: int, allowed: int)
    requires Priced(cfg) && 0 <= input <= estimate && 0 <= output <= allowed
    ensures input as real * cfg.inputRate * InputMultiplier(model, input)
            <= estimate as real * cfg.inputRate * InputMultiplier(model, estimate)
    ensures output as real * cfg.outputRate * OutputMultiplier(model, input)
            <= allowed as real * cfg.outputRate * OutputMultiplier(model, estimate)
  {
    var a, b := input as real * cfg.inputRate, estimate as real * cfg.inputRate;
    Scale(input as real, estimate as real, cfg.inputRate);
    Scale(a, b, InputMultiplier(model, input));
    Scale(InputMultiplier(model, input), InputMultiplier(model, estimate), b);
    var c, d := output as real * cfg.outputRate, allowed as real * cfg.outputRate;
    Scale(output as real, allowed as real, cfg.outputRate);
    Scale(c, d, OutputMultiplier(model, input));
    Scale(OutputMultiplier(model, input), OutputMultiplier(model, estimate), d);
  }

  /** The floor division grants no more output than the remaining dollars pay for. */
  lemma AllowedIsAffordable(cfg: CapConfig, m: Meter, estimate: int, model: Model, allowed: int)
    requires Priced(cfg) && allowed <= CostLimitedTokens(cfg, m, estimate, model)
    requires 0 <= allowed && 0.0 < RemainingCost(cfg, m, estimate, model)
    ensures allowed as real * cfg.outputRate * OutputMultiplier(model, estimate) / 1_000_000.0
            <= RemainingCost(cfg, m, estimate, model)
  {
    var rate := cfg.outputRate * OutputMultiplier(model, estimate);
    assert allowed as real * cfg.outputRate * OutputMultiplier(model, estimate) == allowed as real * rate;
    if rate > 0.0 {
      var q := RemainingCost(cfg, m, estimate, model) * 1_000_000.0 / rate;
      assert allowed as real <= q;
      Scale(allowed as real, q, rate);
      assert q * rate == RemainingCost(cfg, m, estimate, model) * 1_000_000.0;
    }
  }

  /** Whatever preflight allowed, any valid usage within the estimate and the allowance
      stays within the token cap, and passes the cost cap by no more than the premium on
      the tokens the provider wrote to its cache. */
  lemma PreflightDominates(cfg: CapConfig, m: Meter, elapsed: real, estimate: int, preferred: int,
                           model: Model, minimum: int, u: Usage)
    requires Priced(cfg) && estimate >= 1 && minimum >= 1 && u.Valid()
    requires var r := Prepared(cfg, m, elapsed, estimate, preferred, model, minimum);
             r.Ok? && u.input <= estimate && u.output <= r.value
    ensures var c := Charged(m, u, UsageCost(cfg, u, model));
            && c.total <= cfg.maxTotalTokens
            && c.cost <= cfg.maxCostUsd + CacheWritePremium(cfg, u, model)
  {
    var allowed := Prepared(cfg, m, elapsed, estimate, preferred, model, minimum).value;
    ChargeIsCovered(cfg, m, estimate, allowed, model, u);
  }

  lemma EstimateCost(cfg: CapConfig, estimate: int, model: Model)
    ensures UsageCost(cfg, Usage(estimate, 0, 0, 0, 0, 0), model)
            == estimate as real * cfg.inputRate * InputMultiplier(model, estimate) / 1_000_000.0
  {}

  lemma ChargeIsCovered(cfg: CapConfig, m: Meter, estimate: int, allowed: int, model: Model, u: Usage)
    requires Priced(cfg) && u.Valid() && 0.0 < RemainingCost(cfg, m, estimate, model)
    requires 0 <= allowed <= CostLimitedTokens(cfg, m, estimate, model)
    requires u.input <= estimate && u.output <= allowed
    ensures m.cost + UsageCost(cfg, u, model) <= cfg.maxCostUsd + CacheWritePremium(cfg, u, model)
  {
    AllowedIsAffordable(cfg, m, estimate, model, allowed);
    UsageWithinRequest(cfg, estimate, allowed, model, u);
  }

  /** The most a request of this size can cost at plain prices. */
  function RequestCost(cfg: CapConfig, estimate: int, allowed: int, model: Model): real {
    UsageCost(cfg, Usage(estimate, 0, 0, 0, 0, 0), model)
    + allowed as real * cfg.outputRate * OutputMultiplier(model, estimate) / 1_000_000.0
  }

  lemma UsageWithinRequest(cfg: CapConfig, estimate: int, allowed: int, model: Model, u: Usage)
    requires Priced(cfg) && u.Valid() && u.input <= estimate && u.output <= allowed
    ensures UsageCost(cfg, u, model)
            <= RequestCost(cfg, estimate, allowed, model) + CacheWritePremium(cfg, u, model)
  {
    hide UsageCost, CacheWritePremium, InputMultiplier, OutputMultiplier, Priced;
    var a := u.input as real * cfg.inputRate * InputMultiplier(model, u.input);
    var b := u.output as real * cfg.outputRate * OutputMultiplier(model, u.input);
    var c := estimate as real * cfg.inputRate * InputMultiplier(model, estimate);
    var d := allowed as real * cfg.outputRate * OutputMultiplier(model, estimate);
    assert a <= c && b <= d by {
      PriceStepMonotone(cfg, model, u.input, estimate, u.output, allowed);
    }
    Millionths(a, b, c, d);
    assert RequestCost(cfg, estimate, allowed, model) == c / 1_000_000.0 + d / 1_000_000.0 by {
      EstimateCost(cfg, estimate, model);
    }
    assert UsageCost(cfg, u, model) <= (a + b) / 1_000_000.0 + CacheWritePremium(cfg, u, model) by {
      InputCostBound(cfg, u, model);
    }
  }

  lemma Millionths(a: real, b: real, c: real, d: real)
    requires a <= c && b <= d
    ensures (a + b) / 1_000_000.0 <= c / 1_000_000.0 + d / 1_000_000.0
  {}

  /** With no cache writes, the charge after an allowed request fires nothing. */
  lemma PreflightIsEnough(cfg: CapConfig, m: Meter, elapsed: real, estimate: int, preferred: int,
                          model: Model, minimum: int, u: Usage)
    requires Priced(cfg) && estimate >= 1 && minimum >= 1 && u.Valid() && u.cacheWrite == 0
    requires var r := Prepared(cfg, m, elapsed, estimate, preferred, model, minimum);
             r.Ok? && u.input <= estimate && u.output <= r.value
    ensures AfterUsage(cfg, m, u, model).fired.None?
  {
    PreflightDominates(cfg, m, elapsed, estimate, preferred, model, minimum, u);
  }

  /** The most a request of this size can cost, its input priced as it is written to the
      cache when that is dearer. */
  function DearestCost(cfg: CapConfig, estimate: int, allowed: int, model: Model): real {
    (estimate as real * Dearer(cfg) * InputMultiplier(model, estimate)
     + allowed as real * cfg.outputRate * OutputMultiplier(model, estimate)) / 1_000_000.0
  }

  function Dearer(cfg: CapConfig): real {
    if cfg.inputRate <= cfg.cacheWriteRate then cfg.cacheWriteRate else cfg.inputRate
  }

  /** Usage a provider may report for a request of this size. */
  predicate Fits(u: Usage, estimate: int, allowed: int) {
    u.Valid() && u.input <= estimate && u.output <= allowed
  }

  /** The dearest such usage: all of the output, and the whole input written to the cache
      when that costs more. */
  function Dearest(cfg: CapConfig, estimate: int, allowed: int): Usage {
    Usage(estimate, allowed, 0, if cfg.inputRate <= cfg.cacheWriteRate then estimate else 0, 0, 0)
  }

  lemma DearestIsDearest(cfg: CapConfig, estimate: int, allowed: int, model: Model)
    requires estimate >= 0 && allowed >= 0
    ensures Fits(Dearest(cfg, estimate, allowed), estimate, allowed)
    ensures UsageCost(cfg, Dearest(cfg, estimate, allowed), model) == DearestCost(cfg, estimate, allowed, model)
  {}

  /** With the input rate raised to the dearer of the two, a cache write saves or costs
      nothing more. */
  lemma AtTheDearerRate(cfg: CapConfig, model: Model, u: Usage)
    requires Priced(cfg) && u.Valid()
    ensures var dear := cfg.(inputRate := Dearer(cfg));
            Priced(dear) && UsageCost(cfg, u, model) <= UsageCost(dear, u, model) && CacheWritePremium(dear, u, model) <= 0.0
  {
    var plain, mult := (u.input - u.cached - u.cacheWrite) as real, InputMultiplier(model, u.input);
    ScaleLeft(plain, cfg.inputRate, Dearer(cfg));
    Scale(plain * cfg.inputRate, plain * Dearer(cfg), mult);
    ScaleLeft(u.cacheWrite as real, cfg.cacheWriteRate - Dearer(cfg), 0.0);
    Scale(u.cacheWrite as real * (cfg.cacheWriteRate - Dearer(cfg)), 0.0, mult);
  }

  lemma NothingIsDearer(cfg: CapConfig, estimate: int, allowed: int, model: Model, u: Usage)
    requires Priced(cfg) && Fits(u, estimate, allowed)
    ensures UsageCost(cfg, u, model) <= DearestCost(cfg, estimate, allowed, model)
  {
    hide UsageCost, CacheWritePremium, InputMultiplier, OutputMultiplier, Priced, Dearer;
    var dear := cfg.(inputRate := Dearer(cfg));
    AtTheDearerRate(cfg, model, u);
    UsageWithinRequest(dear, estimate, allowed, model, u);
    EstimateCost(dear, estimate, model);
    Halves(estimate as real * Dearer(cfg) * InputMultiplier(model, estimate),
           allowed as real * cfg.outputRate * OutputMultiplier(model, estimate));
  }

  lemma Halves(a: real, b: real)
    ensures (a + b) / 1_000_000.0 == a / 1_000_000.0 + b / 1_000_000.0
  {}

  /** Exactly when a request that preflight allowed can fire no cap, whatever usage the
      provider reports for it: when the money left covers its size at the dearer of the
      plain and the cache-write rates. */
  lemma AllowedIsSafeExactly(cfg: CapConfig, m: Meter, elapsed: real, estimate: int, preferred: int,
                             model: Model, minimum: int)
    requires Priced(cfg) && estimate >= 1 && minimum >= 1
    requires Prepared(cfg, m, elapsed, estimate, preferred, model, minimum).Ok?
    ensures var allowed := Prepared(cfg, m, elapsed, estimate, preferred, model, minimum).value;
            (forall u: Usage :: Fits(u, estimate, allowed) ==> AfterUsage(cfg, m, u, model).fired.None?)
            <==> m.cost + DearestCost(cfg, estimate, allowed, model) <= cfg.maxCostUsd
  {
    hide UsageCost, DearestCost, Dearest, CacheWritePremium, Priced;
    var allowed := Prepared(cfg, m, elapsed, estimate, preferred, model, minimum).value;
    forall u: Usage | Fits(u, estimate, allowed)
      ensures UsageCost(cfg, u, model) <= DearestCost(cfg, estimate, allowed, model)
      ensures Charged(m, u, UsageCost(cfg, u, model)).total <= cfg.maxTotalTokens
    {
      NothingIsDearer(cfg, estimate, allowed, model, u);
      PreflightDominates(cfg, m, elapsed, estimate, preferred, model, minimum, u);
    }
    DearestIsDearest(cfg, estimate, allowed, model);
  }

  /** A cap of sixty cents, and a hundred thousand tokens all written to the cache. */
  function SixtyCents(): CapConfig {
    DEFAULT_CAPS.(maxCostUsd := 0.6)
  }

  function AllWritten(): Usage {
    Usage(100_000, 0, 0, 100_000, 0, 100_000)
  }

  lemma WrittenCost()
    ensures UsageCost(SixtyCents(), Usage(100_000, 0, 0, 0, 0, 0), Model(true)) == 0.5
    ensures UsageCost(SixtyCents(), AllWritten(), Model(true)) == 0.625
  {}

  lemma WrittenIsAllowed()
    ensures Prepared(SixtyCents(), FRESH, 0.0, 100_000, 1, Model(true), 1) == Ok(1)
  {
    hide UsageCost;
    WrittenCost();
    var rate := 30.0 * OutputMultiplier(Model(true), 100_000);
    assert rate == 30.0;
    assert 100_000.0 / rate >= 1.0;
  }

  lemma WrittenFires()
    ensures Priced(SixtyCents())
    ensures AfterUsage(SixtyCents(), FRESH, AllWritten(), Model(true)).fired == Some((CostUsd, Estimated(0.625)))
  {
    hide UsageCost;
    WrittenCost();
    assert Charged(FRESH, AllWritten(), 0.625).cost == 0.625;
    assert Charged(FRESH, AllWritten(), 0.625).total == 100_000;
  }

  /** The premium is real: a request that preflight allowed in full can still fire the cost
      cap, because the estimate is priced at the plain input rate and the write is not. */
  lemma CacheWritesCanFire() returns (cfg: CapConfig, u: Usage)
    ensures Priced(cfg) && u.Valid()
    ensures var r := Prepared(cfg, FRESH, 0.0, 100_000, 1, Model(true), 1);
            r.Ok? && u.input <= 100_000 && u.output <= r.value
    ensures AfterUsage(cfg, FRESH, u, Model(true)).fired.Some?
    ensures AfterUsage(cfg, FRESH, u, Model(true)).fired.value.0 == CostUsd
  {
    hide UsageCost, Prepared, AfterUsage, SixtyCents;
    cfg, u := SixtyCents(), AllWritten();
    WrittenIsAllowed();
    WrittenFires();
  }

  /* ---- Every interleaving ---- */

  function ApplyAll(cfg: CapConfig, m: Meter, ops: seq<Op>): Meter
    decreases |ops|
  {
    if ops == [] then m else ApplyAll(cfg, Apply(cfg, m, ops[0]), ops[1..])
  }

  /** While nothing has fired every counter is within its cap, and the token total is the
      sum of its components. */
  predicate WithinCaps(cfg: CapConfig, m: Meter) {
    && m.toolCalls <= cfg.maxToolCalls
    && m.total == m.input + m.output
    && m.cached + m.cacheWrite <= m.input
    && (m.fired.None? ==> m.total <= cfg.maxTotalTokens && m.cost <= cfg.maxCostUsd)
  }

  predicate Grows(m: Meter, n: Meter) {
    && m.toolCalls <= n.toolCalls && m.input <= n.input && m.output <= n.output
    && m.cached <= n.cached && m.cacheWrite <= n.cacheWrite && m.total <= n.total && m.cost <= n.cost
    && (m.fired.Some? ==> n == m)
  }

  lemma CostNonnegative(cfg: CapConfig, u: Usage, model: Model)
    requires Priced(cfg) && u.Valid()
    ensures 0.0 <= UsageCost(cfg, u, model)
  {
    var mult, omult := InputMultiplier(model, u.input), OutputMultiplier(model, u.input);
    assert 0.0 <= (u.input - u.cached - u.cacheWrite) as real * cfg.inputRate * mult;
    assert 0.0 <= u.cached as real * cfg.cachedRate * mult;
    assert 0.0 <= u.cacheWrite as real * cfg.cacheWriteRate * mult;
    assert 0.0 <= u.output as real * cfg.outputRate * omult;
  }

  lemma ApplyKeeps(cfg: CapConfig, m: Meter, op: Op)
    requires Priced(cfg) && WithinCaps(cfg, m)
    ensures WithinCaps(cfg, Apply(cfg, m, op)) && Grows(m, Apply(cfg, m, op))
  {
    if op.OpUsage? && op.usage.Valid() { CostNonnegative(cfg, op.usage, op.model); }
  }

  /** Sticky caps over every run: from a fresh meter, however the calls interleave, tool
      calls never pass their cap, tokens and dollars are within theirs until something
      fires, no counter ever goes down, and once a cap has fired nothing changes again:
      the same kind and detail are raised for ever. */
  lemma {:induction false} RunStaysWithinCaps(cfg: CapConfig, m: Meter, ops: seq<Op>)
    requires Priced(cfg) && WithinCaps(cfg, m)
    ensures WithinCaps(cfg, ApplyAll(cfg, m, ops)) && Grows(m, ApplyAll(cfg, m, ops))
    decreases |ops|
  {
    if ops != [] {
      ApplyKeeps(cfg, m, ops[0]);
      RunStaysWithinCaps(cfg, Apply(cfg, m, ops[0]), ops[1..]);
    }
  }

  lemma {:induction false} ApplyAllConcat(cfg: CapConfig, m: Meter, a: seq<Op>, b: seq<Op>)
    ensures ApplyAll(cfg, m, a + b) == ApplyAll(cfg, ApplyAll(cfg, m, a), b)
    decreases |a|
  {
    if a == [] {
      assert a + b == b;
    } else {
      assert (a + b)[1..] == a[1..] + b;
      ApplyAllConcat(cfg, Apply(cfg, m, a[0]), a[1..], b);
    }
  }

  /** The first cap wins: once one metering call has raised, every later call with proper
      arguments raises the same kind and detail, and none changes the meter. */
  lemma FirstCapWins(cfg: CapConfig, m: Meter, ops: seq<Op>, i: nat, j: nat)
    requires Priced(cfg) && WithinCaps(cfg, m) && i < j < |ops|
    requires Returned(cfg, ApplyAll(cfg, m, ops[..i]), ops[i]).Exceeded?
    ensures ApplyAll(cfg, m, ops[..j + 1]) == ApplyAll(cfg, m, ops[..i + 1])
    ensures Returned(cfg, ApplyAll(cfg, m, ops[..j]), ops[j])
            == if Proper(ops[j]) then Returned(cfg, ApplyAll(cfg, m, ops[..i]), ops[i]) else Refused
  {
    hide Apply, WithinCaps;
    var first := ApplyAll(cfg, m, ops[..i + 1]);
    RunStaysWithinCaps(cfg, m, ops[..i + 1]);
    assert ops[..i + 1] == ops[..i] + [ops[i]] && ops[..j] == ops[..i + 1] + ops[i + 1..j] && ops[..j + 1] == ops[..j] + [ops[j]];
    ApplyAllConcat(cfg, m, ops[..i], [ops[i]]);
    ApplyAllConcat(cfg, m, ops[..i + 1], ops[i + 1..j]);
    ApplyAllConcat(cfg, m, ops[..j], [ops[j]]);
    RunStaysWithinCaps(cfg, first, ops[i + 1..j]);
    RunStaysWithinCaps(cfg, first, [ops[j]]);
    OneOp(cfg, ApplyAll(cfg, m, ops[..i]), ops[i]);
    OneOp(cfg, first, ops[j]);
  }

  lemma OneOp(cfg: CapConfig, m: Meter, op: Op)
    ensures ApplyAll(cfg, m, [op]) == Apply(cfg, m, op)
  {
    assert [op][1..] == [];
  }
}
