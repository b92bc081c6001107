/** The configuration of a NATS pull consumer and its adaptive fetch plan. Durations are integers in
    one unit of time. */
module PullPlan {
  import opened Wrappers

  datatype AdaptiveConfig = AdaptiveConfig(
    enabled: bool, checkInterval: int, mediumPending: int, highPending: int,
    lowBatchSize: int, lowMaxWait: int,
    mediumBatchSize: int, mediumMaxWait: int,
    highBatchSize: int, highMaxWait: int)

  datatype PullConsumerConfig = PullConsumerConfig(
    stream: string, subject: string, durable: string,
    batchSize: int, maxWait: int, workers: int, queueSize: int, ackWait: int, maxDeliver: int,
    adaptive: AdaptiveConfig)

  datatype ConfigError =
    | EmptyStreamName | EmptySubject | EmptyDurableName
    | InvalidBatchSize | InvalidMaxWait | InvalidWorkerCount | InvalidQueueSize
    | InvalidAckWait | InvalidMaxDeliver
    | InvalidAdaptiveCheckInterval | InvalidAdaptiveThresholds | InvalidAdaptivePlan

  function Validate(cfg: PullConsumerConfig): Option<ConfigError> {
    if cfg.stream == "" then Some(EmptyStreamName)
    else if cfg.subject == "" then Some(EmptySubject)
    else if cfg.durable == "" then Some(EmptyDurableName)
    else if cfg.batchSize <= 0 then Some(InvalidBatchSize)
    else if cfg.maxWait <= 0 then Some(InvalidMaxWait)
    else if cfg.workers <= 0 then Some(InvalidWorkerCount)
    else if cfg.queueSize <= 0 then Some(InvalidQueueSize)
    else if cfg.ackWait <= 0 then Some(InvalidAckWait)
    else if cfg.maxDeliver <= 0 then Some(InvalidMaxDeliver)
    else if !cfg.adaptive.enabled then None
    else if cfg.adaptive.checkInterval <= 0 then Some(InvalidAdaptiveCheckInterval)
    else if cfg.adaptive.mediumPending < 0 || cfg.adaptive.highPending <= cfg.adaptive.mediumPending then
      Some(InvalidAdaptiveThresholds)
    else if cfg.adaptive.lowBatchSize <= 0 || cfg.adaptive.lowMaxWait <= 0
         || cfg.adaptive.mediumBatchSize <= 0 || cfg.adaptive.mediumMaxWait <= 0
         || cfg.adaptive.highBatchSize <= 0 || cfg.adaptive.highMaxWait <= 0 then
      Some(InvalidAdaptivePlan)
    else None
  }

  /** What a configuration must satisfy for each complaint to be unfounded. */
  ghost predicate Violates(cfg: PullConsumerConfig, err: ConfigError) {
    var a := cfg.adaptive;
    match err
    case EmptyStreamName => |cfg.stream| == 0
    case EmptySubject => |cfg.subject| == 0
    case EmptyDurableName => |cfg.durable| == 0
    case InvalidBatchSize => !(cfg.batchSize >= 1)
    case InvalidMaxWait => !(cfg.maxWait >= 1)
    case InvalidWorkerCount => !(cfg.workers >= 1)
    case InvalidQueueSize => !(cfg.queueSize >= 1)
    case InvalidAckWait => !(cfg.ackWait >= 1)
    case InvalidMaxDeliver => !(cfg.maxDeliver >= 1)
    case InvalidAdaptiveCheckInterval => a.enabled && !(a.checkInterval >= 1)
    case InvalidAdaptiveThresholds => a.enabled && !(0 <= a.mediumPending < a.highPending)
    case InvalidAdaptivePlan =>
      a.enabled && !(forall plan :: plan in AdaptivePlans(a) ==> plan.batch >= 1 && plan.wait >= 1)
  }

  const COMPLAINTS: seq<ConfigError> := [
    EmptyStreamName, EmptySubject, EmptyDurableName,
    InvalidBatchSize, InvalidMaxWait, InvalidWorkerCount, InvalidQueueSize, InvalidAckWait, InvalidMaxDeliver,
    InvalidAdaptiveCheckInterval, InvalidAdaptiveThresholds, InvalidAdaptivePlan
  ]

  /** Validation reports the first complaint of the list that is founded, and only such a one. */
  lemma ValidateReportsFirst(cfg: PullConsumerConfig, k: nat)
    requires k < |COMPLAINTS|
    ensures Validate(cfg) == Some(COMPLAINTS[k]) <==>
      Violates(cfg, COMPLAINTS[k]) && forall j :: 0 <= j < k ==> !Violates(cfg, COMPLAINTS[j])
  {
    PlansOfConfig(cfg);
    var first := Validate(cfg);
    assert COMPLAINTS[0] == EmptyStreamName && COMPLAINTS[1] == EmptySubject && COMPLAINTS[2] == EmptyDurableName;
    assert COMPLAINTS[3] == InvalidBatchSize && COMPLAINTS[4] == InvalidMaxWait && COMPLAINTS[5] == InvalidWorkerCount;
    assert COMPLAINTS[6] == InvalidQueueSize && COMPLAINTS[7] == InvalidAckWait && COMPLAINTS[8] == InvalidMaxDeliver;
    assert COMPLAINTS[9] == InvalidAdaptiveCheckInterval && COMPLAINTS[10] == InvalidAdaptiveThresholds;
    assert COMPLAINTS[11] == InvalidAdaptivePlan;
  }

  lemma PlansOfConfig(cfg: PullConsumerConfig)
    ensures Violates(cfg, InvalidAdaptivePlan) <==>
      (cfg.adaptive.enabled
       && (|| cfg.adaptive.lowBatchSize <= 0 || cfg.adaptive.lowMaxWait <= 0
           || cfg.adaptive.mediumBatchSize <= 0 || cfg.adaptive.mediumMaxWait <= 0
           || cfg.adaptive.highBatchSize <= 0 || cfg.adaptive.highMaxWait <= 0))
  {
    var a := cfg.adaptive;
    var plans := AdaptivePlans(a);
    assert Plan(Low, a.lowBatchSize, a.lowMaxWait) in plans;
    assert Plan(Medium, a.mediumBatchSize, a.mediumMaxWait) in plans;
    assert Plan(High, a.highBatchSize, a.highMaxWait) in plans;
  }

  // ---- the plan ----

  datatype Tier = Base | Low | Medium | High

  datatype Plan = Plan(tier: Tier, batch: int, wait: int)

  function BasePlan(cfg: PullConsumerConfig): Plan {
    Plan(Base, cfg.batchSize, cfg.maxWait)
  }

  function AdaptivePlans(a: AdaptiveConfig): set<Plan> {
    { Plan(Low, a.lowBatchSize, a.lowMaxWait),
      Plan(Medium, a.mediumBatchSize, a.mediumMaxWait),
      Plan(High, a.highBatchSize, a.highMaxWait) }
  }

  /** The plans that the configuration provides for. */
  predicate Configured(cfg: PullConsumerConfig, plan: Plan) {
    plan == BasePlan(cfg) || (cfg.adaptive.enabled && plan in AdaptivePlans(cfg.adaptive))
  }

  function ResolvePullPlan(cfg: PullConsumerConfig, pending: int): Plan {
    if !cfg.adaptive.enabled then BasePlan(cfg)
    else if pending >= cfg.adaptive.highPending then Plan(High, cfg.adaptive.highBatchSize, cfg.adaptive.highMaxWait)
    else if pending >= cfg.adaptive.mediumPending then Plan(Medium, cfg.adaptive.mediumBatchSize, cfg.adaptive.mediumMaxWait)
    else Plan(Low, cfg.adaptive.lowBatchSize, cfg.adaptive.lowMaxWait)
  }

  function Rank(tier: Tier): nat {
    match tier
    case Base => 0
    case Low => 1
    case Medium => 2
    case High => 3
  }

  /** For a validated adaptive configuration the tiers partition the backlogs into three intervals in
      rising order; only the lowest can be empty, namely when the medium tier begins at zero. */
  lemma TiersPartitionBacklog(cfg: PullConsumerConfig)
    requires Validate(cfg).None? && cfg.adaptive.enabled
    ensures forall p :: ResolvePullPlan(cfg, p).tier == Low <==> p < cfg.adaptive.mediumPending
    ensures forall p :: ResolvePullPlan(cfg, p).tier == Medium <==> cfg.adaptive.mediumPending <= p < cfg.adaptive.highPending
    ensures forall p :: ResolvePullPlan(cfg, p).tier == High <==> cfg.adaptive.highPending <= p
    ensures forall p, q :: p <= q ==> Rank(ResolvePullPlan(cfg, p).tier) <= Rank(ResolvePullPlan(cfg, q).tier)
    ensures exists p: nat :: ResolvePullPlan(cfg, p).tier == Medium
    ensures exists p: nat :: ResolvePullPlan(cfg, p).tier == High
    ensures (exists p: nat :: ResolvePullPlan(cfg, p).tier == Low) <==> cfg.adaptive.mediumPending > 0
  {
    assert ResolvePullPlan(cfg, cfg.adaptive.mediumPending).tier == Medium;
    assert ResolvePullPlan(cfg, cfg.adaptive.highPending).tier == High;
    if cfg.adaptive.mediumPending > 0 {
      assert ResolvePullPlan(cfg, 0).tier == Low;
    }
  }

  // ---- the state of the fetcher ----

  datatype FetchState = FetchState(plan: Plan, lastCheck: int)

  /** `int` of an unsigned 64-bit count. */
  function ToInt(n: nat): int {
    var m := n % 0x1_0000_0000_0000_0000;
    if m < 0x8000_0000_0000_0000 then m else m - 0x1_0000_0000_0000_0000
  }

  /** One look at the clock and, when due, at the consumer; `info` is its pending count, if it
      answers. */
  datatype Look = Look(now: int, info: Option<nat>)

  predicate Due(cfg: PullConsumerConfig, st: FetchState, look: Look) {
    cfg.adaptive.enabled && look.now - st.lastCheck >= cfg.adaptive.checkInterval
  }

  function AfterLook(cfg: PullConsumerConfig, st: FetchState, look: Look): FetchState {
    if !Due(cfg, st, look) then st
    else
      match look.info
      case None => FetchState(st.plan, look.now)
      case Some(n) => FetchState(ResolvePullPlan(cfg, ToInt(n)), look.now)
  }

  /** The fetch state of the runtime, updated in place. */
  class PullConsumerFetchState {
    var batch: int
    var wait: int
    var tier: Tier
    var lastAdaptiveCheck: int

    function View(): FetchState
      reads this
    {
      FetchState(Plan(tier, batch, wait), lastAdaptiveCheck)
    }

    constructor (cfg: PullConsumerConfig, now: int)
      ensures View() == FetchState(BasePlan(cfg), now)
    {
      batch := cfg.batchSize;
      wait := cfg.maxWait;
      tier := Base;
      lastAdaptiveCheck := now;
    }

    method MaybeUpdateAdaptivePlan(cfg: PullConsumerConfig, look: Look)
      modifies this
      ensures View() == AfterLook(cfg, old(View()), look)
    {
      if !cfg.adaptive.enabled || look.now - lastAdaptiveCheck < cfg.adaptive.checkInterval {
        return;
      }
      lastAdaptiveCheck := look.now;
      if look.info.None? {
        return;
      }
      var next := ResolvePullPlan(cfg, ToInt(look.info.value));
      if next.tier == tier && next.batch == batch && next.wait == wait {
        return;
      }
      tier := next.tier;
      batch := next.batch;
      wait := next.wait;
    }
  }

  /** The fetch state after a sequence of looks, from the start of the fetcher. */
  function AfterLooks(cfg: PullConsumerConfig, start: int, looks: seq<Look>): FetchState {
    if looks == [] then FetchState(BasePlan(cfg), start)
    else AfterLook(cfg, AfterLooks(cfg, start, looks[..|looks| - 1]), looks[|looks| - 1])
  }

  // ---- when a look is due ----

  /** The times of the looks. */
  function Times(looks: seq<Look>): seq<int> {
    seq(|looks|, k requires 0 <= k < |looks| => looks[k].now)
  }

  /** The `n`-th look is due: it comes at least `interval` after the last due one before it, or after
      the start if there is none. Only the times count, and what a look finds does not. */
  ghost predicate DueAt(interval: int, start: int, times: seq<int>, n: nat)
    requires n < |times|
    decreases n, 2
  {
    exists t :: LastDue(interval, start, times, n, t) && times[n] - t >= interval
  }

  /** `t` is the time of the last due look among the first `n`, or of the start if none was due. */
  ghost predicate LastDue(interval: int, start: int, times: seq<int>, n: nat, t: int)
    requires n <= |times|
    decreases n, 1
  {
    || (t == start && forall m: nat :: m < n ==> !DueAt(interval, start, times, m))
    || (exists m: nat :: IsLastDue(interval, start, times, n, m) && t == times[m])
  }

  ghost predicate IsLastDue(interval: int, start: int, times: seq<int>, n: nat, m: nat)
    requires n <= |times|
    decreases n, 0
  {
    && m < n && DueAt(interval, start, times, m)
    && forall k: nat :: m < k < n ==> !DueAt(interval, start, times, k)
  }

  lemma LastDueIsUnique(interval: int, start: int, times: seq<int>, n: nat, t: int, u: int)
    requires n <= |times| && LastDue(interval, start, times, n, t) && LastDue(interval, start, times, n, u)
    ensures t == u
  {
    if k: nat :| IsLastDue(interval, start, times, n, k) && t == times[k] {
      var m: nat :| IsLastDue(interval, start, times, n, m) && u == times[m];
      assert k == m;
    }
  }

  /** A look is due exactly if it comes at least the interval after the last due one. */
  lemma DueIffLate(interval: int, start: int, times: seq<int>, n: nat, last: int)
    requires n < |times| && LastDue(interval, start, times, n, last)
    ensures DueAt(interval, start, times, n) <==> times[n] - last >= interval
    ensures LastDue(interval, start, times, n + 1, if times[n] - last >= interval then times[n] else last)
  {
    if t :| LastDue(interval, start, times, n, t) && times[n] - t >= interval {
      LastDueIsUnique(interval, start, times, n, t, last);
    }
    if times[n] - last >= interval {
      assert IsLastDue(interval, start, times, n + 1, n);
    } else if m: nat :| IsLastDue(interval, start, times, n, m) && last == times[m] {
      assert IsLastDue(interval, start, times, n + 1, m);
    }
  }

  /** Any two due looks are at least the interval apart, and all come that long after the start. */
  lemma {:induction false} DueLooksAreApart(interval: int, start: int, times: seq<int>, m: nat, n: nat)
    requires interval >= 0 && m <= n < |times|
    requires DueAt(interval, start, times, m) && DueAt(interval, start, times, n)
    ensures start + interval <= times[m] && (m < n ==> times[m] + interval <= times[n])
    decreases n
  {
    var t :| LastDue(interval, start, times, n, t) && times[n] - t >= interval;
    if last: nat :| IsLastDue(interval, start, times, n, last) && t == times[last] {
      DueLooksAreApart(interval, start, times, if m < n then m else last, last);
    }
  }

  /** The last check recorded in the fetch state is the time of the last due look, whether or not the
      consumer answered it; without adaptive plans it stays at the start. */
  lemma {:induction false} LastCheckIsLastDue(cfg: PullConsumerConfig, start: int, looks: seq<Look>, n: nat)
    requires n <= |looks|
    ensures
      var last := AfterLooks(cfg, start, looks[..n]).lastCheck;
      if cfg.adaptive.enabled then LastDue(cfg.adaptive.checkInterval, start, Times(looks), n, last) else last == start
  {
    if n > 0 {
      LastCheckIsLastDue(cfg, start, looks, n - 1);
      AfterOneMore(cfg, start, looks, n - 1);
      if cfg.adaptive.enabled {
        DueIffLate(cfg.adaptive.checkInterval, start, Times(looks), n - 1, AfterLooks(cfg, start, looks[..n - 1]).lastCheck);
      }
    }
  }

  lemma AfterOneMore(cfg: PullConsumerConfig, start: int, looks: seq<Look>, n: nat)
    requires n < |looks|
    ensures AfterLooks(cfg, start, looks[..n + 1]) == AfterLook(cfg, AfterLooks(cfg, start, looks[..n]), looks[n])
  {
    assert looks[..n + 1][..n] == looks[..n];
  }

  /** Look `n` was due and the consumer answered. */
  ghost predicate Answered(cfg: PullConsumerConfig, start: int, looks: seq<Look>, n: nat) {
    && n < |looks| && cfg.adaptive.enabled && looks[n].info.Some?
    && DueAt(cfg.adaptive.checkInterval, start, Times(looks), n)
  }

  /** The plan in force after `n` looks is the one resolved at the last of them that was due and
      answered, and the base plan before the first such look. */
  lemma {:induction false} LastAnswerDecides(cfg: PullConsumerConfig, start: int, looks: seq<Look>, n: nat)
    requires n <= |looks|
    ensures
      var plan := AfterLooks(cfg, start, looks[..n]).plan;
      || (plan == BasePlan(cfg) && forall m: nat :: m < n ==> !Answered(cfg, start, looks, m))
      || (exists m: nat :: m < n && Answered(cfg, start, looks, m) && plan == ResolvePullPlan(cfg, ToInt(looks[m].info.value))
            && forall k: nat :: m < k < n ==> !Answered(cfg, start, looks, k))
  {
    if n > 0 {
      LastAnswerDecides(cfg, start, looks, n - 1);
      LastCheckIsLastDue(cfg, start, looks, n - 1);
      AfterOneMore(cfg, start, looks, n - 1);
      if cfg.adaptive.enabled {
        DueIffLate(cfg.adaptive.checkInterval, start, Times(looks), n - 1, AfterLooks(cfg, start, looks[..n - 1]).lastCheck);
      }
      if Answered(cfg, start, looks, n - 1) {
      } else {
        assert AfterLooks(cfg, start, looks[..n]).plan == AfterLooks(cfg, start, looks[..n - 1]).plan;
      }
    }
  }

  /** A pending count below 2^63 is taken as it is; a larger one turns negative, so that a validated
      adaptive configuration falls back to the low tier. */
  lemma PendingCounts(cfg: PullConsumerConfig, n: nat)
    requires n < 0x1_0000_0000_0000_0000
    ensures n < 0x8000_0000_0000_0000 ==> ToInt(n) == n
    ensures n >= 0x8000_0000_0000_0000 ==> ToInt(n) == n - 0x1_0000_0000_0000_0000 < 0
    ensures n >= 0x8000_0000_0000_0000 && Validate(cfg).None? && cfg.adaptive.enabled ==>
      ResolvePullPlan(cfg, ToInt(n)).tier == Low
  {
  }

  /** With a validated configuration the plan in force is a configured one, asks for at least one
      message and waits for a positive time. */
  lemma {:induction false} PlanAlwaysConfigured(cfg: PullConsumerConfig, start: int, looks: seq<Look>)
    requires Validate(cfg).None?
    ensures
      var plan := AfterLooks(cfg, start, looks).plan;
      Configured(cfg, plan) && plan.batch >= 1 && plan.wait >= 1
  {
    if looks != [] {
      PlanAlwaysConfigured(cfg, start, looks[..|looks| - 1]);
    }
  }
}
