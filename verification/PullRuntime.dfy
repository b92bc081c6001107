/** The NATS pull-consumer runtime as an interleaved transition system: any number of workers, one
    fetcher, a bounded channel and a wait group. */
module PullRuntime {
  import opened Wrappers
  import opened PullPlan

  /** Fetched messages are numbered in the order in which they were fetched. */
  type Msg = nat

  datatype Worker =
    | NotStarted
    | Selecting                  // at the select on cancellation and the channel
    | Handling(msg: Msg)
    | Acking(msg: Msg)           // the handler returned nil
    | Naking(msg: Msg)           // the handler returned an error
    | Returned

  datatype Fetcher =
    | Unborn
    | Checking                   // at the top of the loop
    | Planning
    | Fetching
    | Dispatching(rest: seq<Msg>)
    | Waiting                    // returned from the loop, waiting for the workers
    | Gone                       // the channel is closed

  datatype Outcome = Acked | AckFailed | Naked

  datatype Settlement = Settlement(msg: Msg, outcome: Outcome)

  /** `fetched` to `settled` record what has happened; `ackMetric` and `nakMetric` are the counters of
      the service. */
  datatype State = State(
    cancelled: bool, fetcher: Fetcher, plan: FetchState,
    jobs: seq<Msg>, closed: bool, workers: seq<Worker>, wg: nat,
    fetched: nat, received: seq<Msg>, dropped: seq<Msg>,
    handled: set<Msg>, settled: seq<Settlement>, ackMetric: nat, nakMetric: nat)

  datatype WorkerAct = Begin | Stop | StopOnClosed | Receive | HandlerOk | HandlerError | Ack(ok: bool) | Nak

  datatype FetcherAct =
    | Born | Check | Update(look: Look) | Fetch(n: nat) | FetchError | Send | Drop | NextRound | CloseJobs

  datatype Step = Cancel | W(w: nat, wact: WorkerAct) | F(fact: FetcherAct)

  function Initial(cfg: PullConsumerConfig, start: int): State
    requires cfg.workers >= 0
  {
    State(false, Unborn, FetchState(BasePlan(cfg), start), [], false,
          seq(cfg.workers, _ => NotStarted), 0, 0, [], [], {}, [], 0, 0)
  }

  /** All goroutines `Start` creates for the workers exist. */
  predicate AllBegun(s: State) {
    forall w :: 0 <= w < |s.workers| ==> !s.workers[w].NotStarted?
  }

  predicate WorkerEnabled(s: State, w: nat, act: WorkerAct) {
    && w < |s.workers|
    && match act
       case Begin => s.workers[w].NotStarted? && forall v :: 0 <= v < w ==> !s.workers[v].NotStarted?
       case Stop => s.workers[w].Selecting? && s.cancelled
       case StopOnClosed => s.workers[w].Selecting? && s.jobs == [] && s.closed
       case Receive => s.workers[w].Selecting? && s.jobs != []
       case HandlerOk => s.workers[w].Handling?
       case HandlerError => s.workers[w].Handling?
       case Ack(_) => s.workers[w].Acking?
       case Nak => s.workers[w].Naking?
  }

  /** A fetch returns at most as many messages as the plan asks for, and none when it fails. */
  predicate FetcherEnabled(cfg: PullConsumerConfig, s: State, act: FetcherAct) {
    match act
    case Born => s.fetcher.Unborn? && AllBegun(s)
    case Check => s.fetcher.Checking?
    case Update(_) => s.fetcher.Planning?
    case Fetch(n) => s.fetcher.Fetching? && n <= s.plan.plan.batch
    case FetchError => s.fetcher.Fetching?
    case Send => s.fetcher.Dispatching? && s.fetcher.rest != [] && !s.closed && |s.jobs| < cfg.queueSize
    case Drop => s.fetcher.Dispatching? && s.fetcher.rest != [] && s.cancelled
    case NextRound => s.fetcher.Dispatching? && s.fetcher.rest == []
    case CloseJobs => s.fetcher.Waiting? && s.wg == 0
  }

  predicate Enabled(cfg: PullConsumerConfig, s: State, step: Step) {
    match step
    case Cancel => !s.cancelled
    case W(w, act) => WorkerEnabled(s, w, act)
    case F(act) => FetcherEnabled(cfg, s, act)
  }

  function Range(from: nat, n: nat): seq<Msg> {
    seq(n, k requires 0 <= k < n => from + k)
  }

  function WorkerAfter(s: State, w: nat, act: WorkerAct): Worker
    requires WorkerEnabled(s, w, act)
  {
    match act
    case Begin => Selecting
    case Stop => Returned
    case StopOnClosed => Returned
    case Receive => Handling(s.jobs[0])
    case HandlerOk => Acking(s.workers[w].msg)
    case HandlerError => Naking(s.workers[w].msg)
    case Ack(_) => Selecting
    case Nak => Selecting
  }

  /** A failed Ack is counted like a Nak. */
  function Settled(s: State, msg: Msg, outcome: Outcome): State {
    s.(settled := s.settled + [Settlement(msg, outcome)],
       ackMetric := if outcome.Acked? then s.ackMetric + 1 else s.ackMetric,
       nakMetric := if outcome.Acked? then s.nakMetric else s.nakMetric + 1)
  }

  function AfterWorker(s: State, w: nat, act: WorkerAct): State
    requires WorkerEnabled(s, w, act)
  {
    var t := s.(workers := s.workers[w := WorkerAfter(s, w, act)]);
    match act
    case Begin => t.(wg := t.wg + 1)
    case Stop => t.(wg := if t.wg == 0 then 0 else t.wg - 1)
    case StopOnClosed => t.(wg := if t.wg == 0 then 0 else t.wg - 1)
    case Receive => t.(jobs := t.jobs[1..], received := t.received + [t.jobs[0]])
    case HandlerOk => t.(handled := t.handled + {s.workers[w].msg})
    case HandlerError => t
    case Ack(ok) => Settled(t, s.workers[w].msg, if ok then Acked else AckFailed)
    case Nak => Settled(t, s.workers[w].msg, Naked)
  }

  function AfterFetcher(cfg: PullConsumerConfig, s: State, act: FetcherAct): State
    requires FetcherEnabled(cfg, s, act)
  {
    match act
    case Born => s.(fetcher := Checking)
    case Check => s.(fetcher := if s.cancelled then Waiting else Planning)
    case Update(look) => s.(fetcher := Fetching, plan := AfterLook(cfg, s.plan, look))
    case Fetch(n) => s.(fetcher := Dispatching(Range(s.fetched, n)), fetched := s.fetched + n)
    case FetchError => s.(fetcher := Checking)
    case Send => s.(fetcher := Dispatching(s.fetcher.rest[1..]), jobs := s.jobs + [s.fetcher.rest[0]])
    case Drop => s.(fetcher := Waiting, dropped := s.fetcher.rest)
    case NextRound => s.(fetcher := Checking)
    case CloseJobs => s.(fetcher := Gone, closed := true)
  }

  function Apply(cfg: PullConsumerConfig, s: State, step: Step): State
    requires Enabled(cfg, s, step)
  {
    match step
    case Cancel => s.(cancelled := true)
    case W(w, act) => AfterWorker(s, w, act)
    case F(act) => AfterFetcher(cfg, s, act)
  }

  /** The state after a sequence of steps, if each of them was possible. */
  function Replay(cfg: PullConsumerConfig, start: int, trace: seq<Step>): Option<State> {
    if trace == [] then
      if cfg.workers >= 0 then Some(Initial(cfg, start)) else None
    else
      var n := |trace| - 1;
      match Replay(cfg, start, trace[..n])
      case None => None
      case Some(s) => if Enabled(cfg, s, trace[n]) then Some(Apply(cfg, s, trace[n])) else None
  }

  lemma LastStep(cfg: PullConsumerConfig, start: int, trace: seq<Step>) returns (s: State)
    requires trace != [] && Replay(cfg, start, trace).Some?
    ensures Replay(cfg, start, trace[..|trace| - 1]) == Some(s)
    ensures Enabled(cfg, s, trace[|trace| - 1])
    ensures Replay(cfg, start, trace) == Some(Apply(cfg, s, trace[|trace| - 1]))
  {
    s := Replay(cfg, start, trace[..|trace| - 1]).value;
  }

  lemma LastOfRest(cfg: PullConsumerConfig, start: int, before: seq<Step>, after: seq<Step>) returns (u: State)
    requires after != [] && Replay(cfg, start, before + after).Some?
    ensures Replay(cfg, start, before + after[..|after| - 1]) == Some(u)
    ensures Enabled(cfg, u, after[|after| - 1])
    ensures Replay(cfg, start, before + after) == Some(Apply(cfg, u, after[|after| - 1]))
  {
    u := LastStep(cfg, start, before + after);
    assert (before + after)[..|before + after| - 1] == before + after[..|after| - 1];
  }

  lemma ReplayExtends(cfg: PullConsumerConfig, start: int, trace: seq<Step>, s: State, step: Step)
    requires Replay(cfg, start, trace) == Some(s) && Enabled(cfg, s, step)
    ensures Replay(cfg, start, trace + [step]) == Some(Apply(cfg, s, step))
  {
    assert (trace + [step])[..|trace|] == trace;
  }

  // ---- the channel, the wait group and the plan ----

  /** Goroutines that have begun and not returned. */
  function Live(workers: seq<Worker>): nat {
    if workers == [] then 0
    else (if workers[0].NotStarted? || workers[0].Returned? then 0 else 1) + Live(workers[1..])
  }

  function IsLive(w: Worker): nat {
    if w.NotStarted? || w.Returned? then 0 else 1
  }

  lemma {:induction false} LiveUpdated(workers: seq<Worker>, w: nat, x: Worker)
    requires w < |workers|
    ensures Live(workers[w := x]) == Live(workers) - IsLive(workers[w]) + IsLive(x)
  {
    if w > 0 {
      LiveUpdated(workers[1..], w - 1, x);
      assert workers[w := x][1..] == workers[1..][w - 1 := x];
    } else {
      assert workers[w := x][1..] == workers[1..];
    }
  }

  lemma {:induction false} NobodyLive(workers: seq<Worker>, w: nat)
    requires w < |workers|
    ensures IsLive(workers[w]) <= Live(workers)
  {
    if w > 0 {
      NobodyLive(workers[1..], w - 1);
    }
  }

  /** The largest batch the configuration can ask for. */
  function MaxBatch(cfg: PullConsumerConfig): nat {
    var a := cfg.adaptive;
    Max(Max(cfg.batchSize, a.lowBatchSize), Max(a.mediumBatchSize, a.highBatchSize))
  }

  function Max(a: int, b: int): nat {
    if a >= b && a >= 0 then a else if b >= 0 then b else 0
  }

  /** The wait group counts the workers that have begun and not returned; the channel is closed only
      after all of them returned, and holds at most `queueSize` messages; workers return and the
      fetcher leaves its loop only after cancellation; the fetcher is created last. */
  ghost predicate Orderly(cfg: PullConsumerConfig, s: State) {
    && |s.workers| == cfg.workers
    && s.wg == Live(s.workers)
    && (s.closed <==> s.fetcher.Gone?)
    && (s.closed ==> forall w :: 0 <= w < |s.workers| ==> s.workers[w].Returned?)
    && |s.jobs| <= cfg.queueSize
    && (!s.cancelled ==> forall w :: 0 <= w < |s.workers| ==> !s.workers[w].Returned?)
    && (s.fetcher.Waiting? || s.fetcher.Gone? ==> s.cancelled)
    && (!s.fetcher.Unborn? ==> AllBegun(s))
    && Configured(cfg, s.plan.plan)
    && (s.fetcher.Dispatching? ==> |s.fetcher.rest| <= MaxBatch(cfg))
  }

  lemma WorkerOrderly(cfg: PullConsumerConfig, s: State, w: nat, act: WorkerAct)
    requires cfg.queueSize >= 0 && Orderly(cfg, s) && WorkerEnabled(s, w, act)
    ensures Orderly(cfg, AfterWorker(s, w, act))
  {
    LiveUpdated(s.workers, w, WorkerAfter(s, w, act));
    NobodyLive(s.workers, w);
  }

  lemma FetcherOrderly(cfg: PullConsumerConfig, s: State, act: FetcherAct)
    requires cfg.queueSize >= 0 && Orderly(cfg, s) && FetcherEnabled(cfg, s, act)
    ensures Orderly(cfg, AfterFetcher(cfg, s, act))
  {
    if act.CloseJobs? {
      forall w | 0 <= w < |s.workers|
        ensures s.workers[w].Returned?
      {
        NobodyLive(s.workers, w);
      }
    }
  }

  lemma {:induction false} NoneBegun(workers: seq<Worker>)
    requires forall w :: 0 <= w < |workers| ==> workers[w].NotStarted?
    ensures Live(workers) == 0
  {
    if workers != [] {
      NoneBegun(workers[1..]);
    }
  }

  lemma {:induction false} RunOrderly(cfg: PullConsumerConfig, start: int, trace: seq<Step>)
    requires cfg.queueSize >= 0 && Replay(cfg, start, trace).Some?
    ensures Orderly(cfg, Replay(cfg, start, trace).value)
  {
    if trace == [] {
      NoneBegun(Initial(cfg, start).workers);
    } else {
      var s := LastStep(cfg, start, trace);
      RunOrderly(cfg, start, trace[..|trace| - 1]);
      match trace[|trace| - 1]
      case Cancel =>
      case W(w, act) => WorkerOrderly(cfg, s, w, act);
      case F(act) => FetcherOrderly(cfg, s, act);
    }
  }

  /** In every reachable state of a runtime, validated or not apart from the channel's capacity: the
      wait group counts the unreturned workers; the channel is closed exactly when the fetcher is
      gone, and then every worker has returned; no worker can receive from the closed channel; and a
      send never meets a closed channel. */
  lemma ChannelSafety(cfg: PullConsumerConfig, start: int, trace: seq<Step>, s: State)
    requires cfg.queueSize >= 0 && Replay(cfg, start, trace) == Some(s)
    ensures s.wg == Live(s.workers) && |s.jobs| <= cfg.queueSize
    ensures s.closed ==> s.fetcher.Gone? && s.cancelled && forall w :: 0 <= w < |s.workers| ==> s.workers[w].Returned?
    ensures forall w :: 0 <= w < |s.workers| ==> !WorkerEnabled(s, w, StopOnClosed)
    ensures s.fetcher.Dispatching? ==> !s.closed
    ensures s.closed ==> !FetcherEnabled(cfg, s, CloseJobs)
  {
    RunOrderly(cfg, start, trace);
  }

  // ---- deadlock freedom ----

  /** Every goroutine has returned and the channel is closed. */
  ghost predicate Terminal(s: State) {
    s.fetcher.Gone? && s.closed && forall w :: 0 <= w < |s.workers| ==> s.workers[w].Returned?
  }

  /** A step that worker `w` can take, unless it waits for a message. */
  lemma WorkerCanMove(s: State, w: nat) returns (act: WorkerAct)
    requires w < |s.workers| && !s.workers[w].NotStarted? && !s.workers[w].Returned?
    requires s.workers[w].Selecting? ==> s.cancelled || s.jobs != []
    ensures WorkerEnabled(s, w, act)
  {
    match s.workers[w]
    case Selecting => act := if s.cancelled then Stop else Receive;
    case Handling(_) => act := HandlerOk;
    case Acking(_) => act := Ack(true);
    case Naking(_) => act := Nak;
  }

  lemma {:induction false} FirstUnbegun(s: State, w: nat) returns (v: nat)
    requires w < |s.workers| && s.workers[w].NotStarted?
    ensures WorkerEnabled(s, v, Begin)
  {
    if u: nat :| u < w && s.workers[u].NotStarted? {
      v := FirstUnbegun(s, u);
    } else {
      v := w;
    }
  }

  /** A reachable state of a validated runtime that is not terminal has a step other than the
      cancellation. */
  lemma DeadlockFreedom(cfg: PullConsumerConfig, start: int, trace: seq<Step>, s: State) returns (step: Step)
    requires Validate(cfg).None? && Replay(cfg, start, trace) == Some(s) && !Terminal(s)
    ensures Enabled(cfg, s, step) && !step.Cancel?
  {
    RunOrderly(cfg, start, trace);
    match s.fetcher
    case Unborn =>
      if w: nat :| w < |s.workers| && s.workers[w].NotStarted? {
        var v := FirstUnbegun(s, w);
        step := W(v, Begin);
      } else {
        step := F(Born);
      }
    case Checking => step := F(Check);
    case Planning => step := F(Update(Look(0, None)));
    case Fetching => step := F(FetchError);
    case Dispatching(rest) =>
      if rest == [] {
        step := F(NextRound);
      } else if s.cancelled {
        step := F(Drop);
      } else if |s.jobs| < cfg.queueSize {
        step := F(Send);
      } else {
        var act := WorkerCanMove(s, 0);
        step := W(0, act);
      }
    case Waiting =>
      if s.wg == 0 {
        step := F(CloseJobs);
      } else {
        var w := SomeoneLive(s.workers);
        var act := WorkerCanMove(s, w);
        step := W(w, act);
      }
    case Gone =>
  }

  lemma {:induction false} SomeoneLive(workers: seq<Worker>) returns (w: nat)
    requires Live(workers) > 0
    ensures w < |workers| && IsLive(workers[w]) == 1
  {
    if IsLive(workers[0]) == 1 {
      w := 0;
    } else {
      w := SomeoneLive(workers[1..]);
      w := w + 1;
    }
  }

  /** A full channel with nobody left to empty it exists only after cancellation, and then the fetcher
      can still drop what it has or has already left its loop. */
  lemma FullWithoutWorkers(cfg: PullConsumerConfig, start: int, trace: seq<Step>, s: State)
    requires Validate(cfg).None? && Replay(cfg, start, trace) == Some(s)
    requires |s.jobs| == cfg.queueSize && forall w :: 0 <= w < |s.workers| ==> s.workers[w].Returned?
    ensures s.cancelled
    ensures s.fetcher.Dispatching? && s.fetcher.rest != [] ==> Enabled(cfg, s, F(Drop))
  {
    RunOrderly(cfg, start, trace);
    assert s.workers[0].Returned?;
  }
}
