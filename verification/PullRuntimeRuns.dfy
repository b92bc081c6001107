/** What becomes of the messages of the pull-consumer runtime, and that it shuts down. */
module PullRuntimeRuns {
  import opened Wrappers
  import opened PullPlan
  import opened PullRuntime

  // ---- order ----

  function Rest(fetcher: Fetcher): seq<Msg> {
    if fetcher.Dispatching? then fetcher.rest else []
  }

  /** Received, queued, undispatched and dropped messages, in this order, are the fetched ones in the
      order in which they were fetched. */
  ghost predicate Conserved(s: State) {
    && s.received + s.jobs + Rest(s.fetcher) + s.dropped == Range(0, s.fetched)
    && (s.dropped != [] ==> s.fetcher.Waiting? || s.fetcher.Gone?)
  }

  lemma RangeGrows(n: nat, m: nat)
    ensures Range(0, n) + Range(n, m) == Range(0, n + m)
  {
  }

  lemma MoveOver<T>(a: seq<T>, b: seq<T>, c: seq<T>, d: seq<T>)
    requires b != []
    ensures a + b + c + d == (a + [b[0]]) + b[1..] + c + d
  {
  }

  lemma StepConserved(cfg: PullConsumerConfig, s: State, step: Step)
    requires Conserved(s) && Enabled(cfg, s, step)
    ensures Conserved(Apply(cfg, s, step))
  {
    match step
    case Cancel =>
    case W(w, act) =>
      if act.Receive? {
        MoveOver(s.received, s.jobs, Rest(s.fetcher), s.dropped);
      }
    case F(act) => FetcherConserved(cfg, s, act);
  }

  lemma FetcherConserved(cfg: PullConsumerConfig, s: State, act: FetcherAct)
    requires Conserved(s) && FetcherEnabled(cfg, s, act)
    ensures Conserved(AfterFetcher(cfg, s, act))
  {
    match act
    case Fetch(n) =>
      RangeGrows(s.fetched, n);
      assert s.received + s.jobs + [] + [] == s.received + s.jobs;
      assert s.received + s.jobs + Range(s.fetched, n) + [] == s.received + s.jobs + Range(s.fetched, n);
    case Send =>
      var rest := s.fetcher.rest;
      assert s.received + s.jobs + rest + s.dropped == s.received + (s.jobs + [rest[0]]) + rest[1..] + s.dropped;
    case Drop =>
      var rest := s.fetcher.rest;
      assert s.received + s.jobs + rest + [] == s.received + s.jobs + [] + rest;
    case _ =>
  }

  lemma {:induction false} SequenceConservation(cfg: PullConsumerConfig, start: int, trace: seq<Step>)
    requires Replay(cfg, start, trace).Some?
    ensures Conserved(Replay(cfg, start, trace).value)
  {
    if trace != [] {
      var s := LastStep(cfg, start, trace);
      SequenceConservation(cfg, start, trace[..|trace| - 1]);
      StepConserved(cfg, s, trace[|trace| - 1]);
    }
  }

  // ---- settlement ----

  /** The message in the hands of a worker, if it has one. */
  function InHand(w: Worker): seq<Msg> {
    match w
    case Handling(msg) => [msg]
    case Acking(msg) => [msg]
    case Naking(msg) => [msg]
    case _ => []
  }

  /** How many workers have a message in hand, and how many have this one. */
  function Busy(workers: seq<Worker>): nat {
    if workers == [] then 0 else |InHand(workers[0])| + Busy(workers[1..])
  }

  function Holders(workers: seq<Worker>, m: Msg): nat {
    if workers == [] then 0 else (if InHand(workers[0]) == [m] then 1 else 0) + Holders(workers[1..], m)
  }

  lemma {:induction false} HandsUpdated(workers: seq<Worker>, w: nat, x: Worker, m: Msg)
    requires w < |workers|
    ensures Busy(workers[w := x]) == Busy(workers) - |InHand(workers[w])| + |InHand(x)|
    ensures Holders(workers[w := x], m) ==
      Holders(workers, m) - (if InHand(workers[w]) == [m] then 1 else 0) + (if InHand(x) == [m] then 1 else 0)
  {
    if w > 0 {
      HandsUpdated(workers[1..], w - 1, x, m);
      assert workers[w := x][1..] == workers[1..][w - 1 := x];
    } else {
      assert workers[w := x][1..] == workers[1..];
    }
  }

  function Messages(settled: seq<Settlement>): seq<Msg> {
    seq(|settled|, k requires 0 <= k < |settled| => settled[k].msg)
  }

  function CountOf(settled: seq<Settlement>, outcome: Outcome): nat {
    if settled == [] then 0
    else CountOf(settled[..|settled| - 1], outcome) + if settled[|settled| - 1].outcome == outcome then 1 else 0
  }

  function Times(xs: seq<Msg>, m: Msg): nat {
    multiset(xs)[m]
  }

  lemma TimesMore(xs: seq<Msg>, x: Msg, m: Msg)
    ensures Times(xs + [x], m) == Times(xs, m) + if x == m then 1 else 0
  {
  }

  /** A received message is in the hands of a worker or was settled. */
  ghost predicate Balanced(s: State, m: Msg) {
    && Times(s.received, m) == Times(Messages(s.settled), m) + Holders(s.workers, m)
    && |s.received| == |s.settled| + Busy(s.workers)
  }

  /** The counters count settlements, a failed Ack among the naks; Acks belong to messages whose
      handler returned nil. */
  ghost predicate Counted(s: State) {
    && s.ackMetric == CountOf(s.settled, Acked)
    && s.nakMetric == CountOf(s.settled, AckFailed) + CountOf(s.settled, Naked)
    && s.ackMetric + s.nakMetric == |s.settled|
    && (forall k :: 0 <= k < |s.settled| && !s.settled[k].outcome.Naked? ==> s.settled[k].msg in s.handled)
    && (forall w :: 0 <= w < |s.workers| && s.workers[w].Acking? ==> s.workers[w].msg in s.handled)
  }

  lemma OneMore(settled: seq<Settlement>, x: Settlement)
    ensures Messages(settled + [x]) == Messages(settled) + [x.msg]
    ensures forall o :: CountOf(settled + [x], o) == CountOf(settled, o) + if x.outcome == o then 1 else 0
  {
    assert (settled + [x])[..|settled|] == settled;
  }

  lemma SettledCounted(s: State, msg: Msg, outcome: Outcome)
    requires Counted(s) && (!outcome.Naked? ==> msg in s.handled)
    ensures Counted(Settled(s, msg, outcome))
  {
    OneMore(s.settled, Settlement(msg, outcome));
  }

  lemma WorkerCounted(s: State, w: nat, act: WorkerAct)
    requires Counted(s) && WorkerEnabled(s, w, act)
    ensures Counted(AfterWorker(s, w, act))
  {
    if act.Ack? || act.Nak? {
      var t := s.(workers := s.workers[w := Selecting]);
      var outcome := if act.Nak? then Naked else if act.ok then Acked else AckFailed;
      SettledCounted(t, s.workers[w].msg, outcome);
    }
  }

  lemma SettledBalanced(s: State, w: nat, outcome: Outcome, m: Msg)
    requires Balanced(s, m) && w < |s.workers| && (s.workers[w].Acking? || s.workers[w].Naking?)
    ensures Balanced(Settled(s.(workers := s.workers[w := Selecting]), s.workers[w].msg, outcome), m)
  {
    HandsUpdated(s.workers, w, Selecting, m);
    OneMore(s.settled, Settlement(s.workers[w].msg, outcome));
    TimesMore(Messages(s.settled), s.workers[w].msg, m);
  }

  lemma WorkerBalanced(s: State, w: nat, act: WorkerAct, m: Msg)
    requires Balanced(s, m) && WorkerEnabled(s, w, act)
    ensures Balanced(AfterWorker(s, w, act), m)
  {
    match act
    case Ack(ok) => SettledBalanced(s, w, if ok then Acked else AckFailed, m);
    case Nak => SettledBalanced(s, w, Naked, m);
    case Receive =>
      HandsUpdated(s.workers, w, WorkerAfter(s, w, act), m);
      TimesMore(s.received, s.jobs[0], m);
    case _ =>
      HandsUpdated(s.workers, w, WorkerAfter(s, w, act), m);
  }

  lemma {:induction false} EmptyHands(workers: seq<Worker>, m: Msg)
    requires forall w :: 0 <= w < |workers| ==> workers[w].NotStarted? || workers[w].Returned?
    ensures Busy(workers) == 0 && Holders(workers, m) == 0
  {
    if workers != [] {
      EmptyHands(workers[1..], m);
    }
  }

  lemma {:induction false} RunBalanced(cfg: PullConsumerConfig, start: int, trace: seq<Step>, m: Msg)
    requires Replay(cfg, start, trace).Some?
    ensures Balanced(Replay(cfg, start, trace).value, m) && Counted(Replay(cfg, start, trace).value)
  {
    if trace == [] {
      EmptyHands(Initial(cfg, start).workers, m);
    } else {
      var s := LastStep(cfg, start, trace);
      RunBalanced(cfg, start, trace[..|trace| - 1], m);
      StepBalanced(cfg, s, trace[|trace| - 1], m);
    }
  }

  lemma StepBalanced(cfg: PullConsumerConfig, s: State, step: Step, m: Msg)
    requires Balanced(s, m) && Counted(s) && Enabled(cfg, s, step)
    ensures Balanced(Apply(cfg, s, step), m) && Counted(Apply(cfg, s, step))
  {
    match step
    case Cancel =>
    case W(w, act) =>
      WorkerBalanced(s, w, act, m);
      WorkerCounted(s, w, act);
    case F(act) =>
      var t := AfterFetcher(cfg, s, act);
      assert t.settled == s.settled && t.received == s.received && t.workers == s.workers;
  }

  lemma {:induction false} RangeHasNoRepeats(k: nat, m: Msg)
    ensures Times(Range(0, k), m) == if m < k then 1 else 0
  {
    if k > 0 {
      RangeHasNoRepeats(k - 1, m);
      assert Range(0, k) == Range(0, k - 1) + [k - 1];
    }
  }

  /** In every reachable state, with any number of workers: a message is settled at most once; it has
      been received exactly if it is settled or in the hands of one worker; an Ack is attempted only
      for a message whose handler returned nil; and the number received is the two counters together
      plus the messages in hand. */
  lemma Settlements(cfg: PullConsumerConfig, start: int, trace: seq<Step>, s: State, m: Msg)
    requires Replay(cfg, start, trace) == Some(s)
    ensures Times(Messages(s.settled), m) + Holders(s.workers, m) == Times(s.received, m) <= 1
    ensures |s.received| == s.ackMetric + s.nakMetric + Busy(s.workers)
    ensures s.ackMetric == CountOf(s.settled, Acked)
    ensures s.nakMetric == CountOf(s.settled, AckFailed) + CountOf(s.settled, Naked)
    ensures forall k :: 0 <= k < |s.settled| && !s.settled[k].outcome.Naked? ==> s.settled[k].msg in s.handled
  {
    RunBalanced(cfg, start, trace, m);
    SequenceConservation(cfg, start, trace);
    var k := |s.received|;
    assert Range(0, s.fetched)[..k] == s.received;
    assert Range(0, s.fetched)[..k] == Range(0, k);
    RangeHasNoRepeats(k, m);
  }

  /** A single worker settles the messages in the order in which they were fetched. */
  ghost predicate InOrder(s: State) {
    |s.workers| == 1 ==>
      s.received == Messages(s.settled) + InHand(s.workers[0])
  }

  lemma {:induction false} RunInOrder(cfg: PullConsumerConfig, start: int, trace: seq<Step>)
    requires Replay(cfg, start, trace).Some?
    ensures InOrder(Replay(cfg, start, trace).value)
  {
    if trace != [] {
      var s := LastStep(cfg, start, trace);
      RunInOrder(cfg, start, trace[..|trace| - 1]);
      match trace[|trace| - 1]
      case Cancel =>
      case W(w, act) => WorkerInOrder(s, w, act);
      case F(act) => assert AfterFetcher(cfg, s, act).settled == s.settled;
    }
  }

  lemma WorkerInOrder(s: State, w: nat, act: WorkerAct)
    requires InOrder(s) && WorkerEnabled(s, w, act)
    ensures InOrder(AfterWorker(s, w, act))
  {
    match act
    case Ack(ok) => OneMore(s.settled, Settlement(s.workers[w].msg, if ok then Acked else AckFailed));
    case Nak => OneMore(s.settled, Settlement(s.workers[w].msg, Naked));
    case _ =>
  }

  lemma OneWorkerKeepsOrder(cfg: PullConsumerConfig, start: int, trace: seq<Step>, s: State, k: nat)
    requires Replay(cfg, start, trace) == Some(s) && |s.workers| == 1 && k < |s.settled|
    ensures s.settled[k].msg == k
  {
    RunInOrder(cfg, start, trace);
    SequenceConservation(cfg, start, trace);
    assert Messages(s.settled)[k] == s.received[k] == Range(0, s.fetched)[k];
  }

  // ---- shutdown ----

  function WorkerRank(w: Worker): nat {
    match w
    case NotStarted => 2
    case Selecting => 1
    case Handling(_) => 3
    case Acking(_) => 2
    case Naking(_) => 2
    case Returned => 0
  }

  function WorkersRank(workers: seq<Worker>): nat {
    if workers == [] then 0 else WorkerRank(workers[0]) + WorkersRank(workers[1..])
  }

  function FetcherRank(cfg: PullConsumerConfig, fetcher: Fetcher): nat {
    match fetcher
    case Unborn => 3
    case Checking => 2
    case Planning => 4 * MaxBatch(cfg) + 5
    case Fetching => 4 * MaxBatch(cfg) + 4
    case Dispatching(rest) => 4 * |rest| + 3
    case Waiting => 1
    case Gone => 0
  }

  /** What is left to do after cancellation. */
  function Measure(cfg: PullConsumerConfig, s: State): nat {
    FetcherRank(cfg, s.fetcher) + 3 * |s.jobs| + WorkersRank(s.workers)
  }

  lemma {:induction false} WorkersRankUpdated(workers: seq<Worker>, w: nat, x: Worker)
    requires w < |workers|
    ensures WorkersRank(workers[w := x]) == WorkersRank(workers) - WorkerRank(workers[w]) + WorkerRank(x)
  {
    if w > 0 {
      WorkersRankUpdated(workers[1..], w - 1, x);
      assert workers[w := x][1..] == workers[1..][w - 1 := x];
    } else {
      assert workers[w := x][1..] == workers[1..];
    }
  }

  lemma FetcherShrinks(cfg: PullConsumerConfig, s: State, act: FetcherAct)
    requires FetcherEnabled(cfg, s, act) && s.cancelled && s.plan.plan.batch <= MaxBatch(cfg)
    ensures Measure(cfg, AfterFetcher(cfg, s, act)) < Measure(cfg, s)
  {
  }

  /** After cancellation every step brings the end nearer, whichever branch a select takes. */
  lemma StepShrinks(cfg: PullConsumerConfig, s: State, step: Step)
    requires Enabled(cfg, s, step) && s.cancelled && Configured(cfg, s.plan.plan)
    ensures Measure(cfg, Apply(cfg, s, step)) < Measure(cfg, s)
  {
    if step.W? {
      WorkersRankUpdated(s.workers, step.w, WorkerAfter(s, step.w, step.wact));
    } else {
      ConfiguredBatch(cfg, s.plan.plan);
      FetcherShrinks(cfg, s, step.fact);
    }
  }

  lemma ConfiguredBatch(cfg: PullConsumerConfig, plan: Plan)
    requires Configured(cfg, plan)
    ensures plan.batch <= MaxBatch(cfg)
  {
  }

  /** After cancellation a run has at most `Measure` more steps. */
  lemma {:induction false} ShutdownIsBounded(cfg: PullConsumerConfig, start: int, before: seq<Step>, s: State, after: seq<Step>, t: State)
    requires cfg.queueSize >= 0 && s.cancelled
    requires Replay(cfg, start, before) == Some(s) && Replay(cfg, start, before + after) == Some(t)
    ensures t.cancelled && |after| + Measure(cfg, t) <= Measure(cfg, s)
    decreases |after|
  {
    if after == [] {
      assert before + after == before;
    } else {
      var u := LastOfRest(cfg, start, before, after);
      ShutdownIsBounded(cfg, start, before, s, after[..|after| - 1], u);
      RunOrderly(cfg, start, before + after[..|after| - 1]);
      StepShrinks(cfg, u, after[|after| - 1]);
    }
  }

  lemma {:induction false} WorkersRankBound(workers: seq<Worker>)
    ensures WorkersRank(workers) <= 3 * |workers|
  {
    if workers != [] {
      WorkersRankBound(workers[1..]);
    }
  }

  /** The configuration alone bounds what is left to do after cancellation. */
  lemma MeasureBound(cfg: PullConsumerConfig, start: int, trace: seq<Step>, s: State)
    requires Validate(cfg).None? && Replay(cfg, start, trace) == Some(s)
    ensures Measure(cfg, s) <= 4 * MaxBatch(cfg) + 5 + 3 * cfg.queueSize + 3 * cfg.workers
  {
    RunOrderly(cfg, start, trace);
    WorkersRankBound(s.workers);
  }

  /** A run that has been cancelled and cannot go on is over: the channel is closed, every worker has
      returned, and each fetched message was settled, is left in the channel or was dropped. */
  lemma ShutdownCompletes(cfg: PullConsumerConfig, start: int, trace: seq<Step>, s: State)
    requires Validate(cfg).None? && Replay(cfg, start, trace) == Some(s) && s.cancelled
    requires forall step :: !Enabled(cfg, s, step)
    ensures Terminal(s) && s.wg == 0
    ensures |s.settled| + |s.jobs| + |s.dropped| == s.fetched
  {
    if !Terminal(s) {
      var step := DeadlockFreedom(cfg, start, trace, s);
    }
    RunOrderly(cfg, start, trace);
    AllReturned(s.workers);
    EmptyHands(s.workers, 0);
    Settlements(cfg, start, trace, s, 0);
    SequenceConservation(cfg, start, trace);
    RunBalanced(cfg, start, trace, 0);
    assert |s.received + s.jobs + Rest(s.fetcher) + s.dropped| == s.fetched;
  }

  lemma {:induction false} AllReturned(workers: seq<Worker>)
    requires forall w :: 0 <= w < |workers| ==> workers[w].Returned?
    ensures Live(workers) == 0
  {
    if workers != [] {
      AllReturned(workers[1..]);
    }
  }
}
