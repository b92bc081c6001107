/** The goroutines of the pull-consumer runtime as the service runs them. Every operation on the
    channel, the wait group and the subscription goes through a record of the steps taken, and each
    loop is proved to take exactly the turns that are due to its goroutine. */
module PullGoroutines {
  import opened Wrappers
  import opened PullPlan
  import opened PullRuntime
  import opened PullSchedule

  /** The steps lead from the start to `s`. (The quantifier keeps the verifier from replaying the
      steps wherever this is mentioned.) */
  ghost predicate IsRun(cfg: PullConsumerConfig, start: int, trace: seq<Step>, s: State) {
    forall c :: c == cfg ==> Replay(c, start, trace) == Some(s)
  }

  /** The runtime and its surroundings. The script of its world prescribes, for any run, what the other
      goroutines do in between and how each operation turns out. A goroutine that stays blocked when the
      script is over has not returned. */
  class PullConsumerRuntime {
    const cfg: PullConsumerConfig
    const start: int
    var world: World

    ghost predicate Valid()
      reads this
    {
      IsRun(cfg, start, world.trace, world.state)
    }

    constructor (cfg: PullConsumerConfig, start: int, script: seq<Step>)
      requires Validate(cfg).None?
      ensures Valid() && this.cfg == cfg && this.start == start
      ensures world == World(Initial(cfg, start), [], script)
    {
      this.cfg := cfg;
      this.start := start;
      this.world := World(Initial(cfg, start), [], script);
    }

    lemma IsReplayed()
      requires Valid()
      ensures Replay(cfg, start, world.trace) == Some(world.state)
    {
    }

    method Do(step: Step)
      requires Valid() && Enabled(cfg, world.state, step)
      modifies this`world
      ensures Valid()
      ensures world == World(Apply(cfg, old(world.state), step), old(world.trace) + [step], old(world.script))
    {
      IsReplayed();
      ReplayExtends(cfg, start, world.trace, world.state, step);
      world := World(Apply(cfg, world.state, step), world.trace + [step], world.script);
    }

    method Skip()
      requires Valid()
      modifies this`world
      ensures Valid() && world == old(world).(script := Rest(old(world.script)))
    {
      world := world.(script := if world.script == [] then [] else world.script[1..]);
    }

    /** The others go on until the goroutine gets the processor back. */
    method Interfere(g: Goroutine)
      requires Valid()
      modifies this`world
      ensures Valid() && world == Others(cfg, old(world), g)
    {
      while world.script != [] && ByOthers(world.script[0], g)
        invariant Valid() && Others(cfg, world, g) == Others(cfg, old(world), g)
        decreases |world.script|
      {
        if Enabled(cfg, world.state, world.script[0]) {
          Do(world.script[0]);
        }
        Skip();
      }
    }

    /** The next step of the goroutine, as the script prescribes it or as it is possible. */
    method Choose(g: Goroutine) returns (taken: Option<Step>)
      requires At(world.state, g).Some?
      ensures taken == Choice(cfg, world, g)
    {
      taken := Fallback(cfg, world.state, g);
      if world.script != [] && Enabled(cfg, world.state, world.script[0])
         && Answers(world.script[0], g, At(world.state, g).value) {
        taken := Some(world.script[0]);
      }
    }

    /** The others go on until the goroutine can take its step, or the script is over. */
    method Await(g: Goroutine) returns (taken: Option<Step>)
      requires Valid() && At(world.state, g).Some?
      modifies this`world
      ensures Valid() && IsTurn(cfg, old(world), world, taken, g)
      ensures Moved(cfg, old(world), world, taken, g)
    {
      ghost var from := world;
      Interfere(g);
      TurnBegins(cfg, from, g);
      taken := Choose(g);
      while taken.None? && world.script != []
        invariant Valid() && SameTurn(cfg, from, world, g) && taken == Choice(cfg, world, g)
        decreases |world.script|
      {
        TurnGoesOn(cfg, from, world, g);
        Skip();
        Interfere(g);
        taken := Choose(g);
      }
      ghost var before := world;
      if taken.Some? {
        Do(taken.value);
        Skip();
      }
      TurnEnds(cfg, from, before, world, taken, g);
    }

    /** The same on the way from `from` to the end of the run of the goroutine. */
    method AwaitOn(g: Goroutine, ghost from: World) returns (taken: Option<Step>)
      requires Valid() && At(world.state, g).Some? && !Pauses(world, g) && SameEnd(cfg, from, world, g)
      modifies this`world
      ensures Valid() && Moved(cfg, old(world), world, taken, g)
      ensures if taken.Some? then SameEnd(cfg, from, world, g) else EndsAt(cfg, from, world, g)
    {
      taken := Await(g);
      TurnKeepsEnd(cfg, from, old(world), world, taken, g);
    }
  }

  // ---- the start ----

  function Begun(n: nat): seq<Step> {
    if n == 0 then [] else Begun(n - 1) + [W(n - 1, Begin)]
  }

  /** Creates the workers and then the fetcher, counting each worker in before it runs. (Workers that
      run before the last one is created are part of the transition system.) */
  method Start(r: PullConsumerRuntime)
    requires r.Valid() && Validate(r.cfg).None? && r.world.state == Initial(r.cfg, r.start)
    modifies r`world
    ensures r.Valid() && r.world.script == old(r.world.script)
    ensures AllBegun(r.world.state) && At(r.world.state, TheFetcher) == Some(CheckStop)
    ensures r.world.state.wg == r.cfg.workers && r.world.state.plan.plan == BasePlan(r.cfg)
    ensures forall w :: 0 <= w < r.cfg.workers ==> At(r.world.state, TheWorker(w)) == Some(SelectJob)
    ensures r.world.trace == old(r.world.trace) + Begun(r.cfg.workers) + [F(Born)]
  {
    for i := 0 to r.cfg.workers
      invariant r.Valid() && r.world.script == old(r.world.script)
      invariant |r.world.state.workers| == r.cfg.workers && r.world.state.fetcher.Unborn? && r.world.state.wg == i
      invariant r.world.state.plan.plan == BasePlan(r.cfg)
      invariant forall w :: 0 <= w < i ==> r.world.state.workers[w].Selecting?
      invariant forall w :: i <= w < r.cfg.workers ==> r.world.state.workers[w].NotStarted?
      invariant r.world.trace == old(r.world.trace) + Begun(i)
    {
      r.Do(W(i, Begin));
    }
    r.Do(F(Born));
  }

  // ---- the worker ----

  /** A worker: receive, handle, Ack or Nak, until cancellation. What it does is determined by the
      transition system and by what is prescribed; if it returns, the context is cancelled. */
  method RunWorker(r: PullConsumerRuntime, w: nat) returns (returned: bool)
    requires r.Valid() && At(r.world.state, TheWorker(w)) == Some(SelectJob) && Validate(r.cfg).None?
    modifies r`world
    ensures r.Valid() && EndsAt(r.cfg, old(r.world), r.world, TheWorker(w))
    ensures returned ==> w < |r.world.state.workers| && r.world.state.workers[w].Returned? && r.world.state.cancelled
    ensures !returned ==> r.world.script == []
  {
    ghost var from := r.world;
    var g := TheWorker(w);
    while r.world.script != []
      invariant r.Valid() && At(r.world.state, g) == Some(SelectJob) && SameEnd(r.cfg, from, r.world, g)
      decreases |r.world.script|
    {
      var next := r.AwaitOn(g, from);
      if next.None? {
        return false;
      }
      if next.value.wact.Stop? || next.value.wact.StopOnClosed? {
        r.IsReplayed();
        ReturnedIsCancelled(r.cfg, r.start, r.world.trace, r.world.state, w);
        PauseIsEnd(r.cfg, from, r.world, g);
        return true;
      }
      var handled := r.AwaitOn(g, from);
      if handled.value.wact.HandlerError? {
        var _ := r.AwaitOn(g, from);
        continue;
      }
      var _ := r.AwaitOn(g, from);
    }
    PauseIsEnd(r.cfg, from, r.world, g);
    return false;
  }

  lemma ReturnedIsCancelled(cfg: PullConsumerConfig, start: int, trace: seq<Step>, s: State, w: nat)
    requires Validate(cfg).None? && Replay(cfg, start, trace) == Some(s)
    requires w < |s.workers| && s.workers[w].Returned?
    ensures s.cancelled
  {
    RunOrderly(cfg, start, trace);
  }

  // ---- the fetcher ----

  /** Sends the fetched messages one by one; `stopped` says that the context was cancelled first, and
      `blocked` that the script was over before a message could be sent. */
  method DispatchFetchedMessages(r: PullConsumerRuntime, ghost from: World) returns (stopped: bool, blocked: bool)
    requires r.Valid() && r.world.state.fetcher.Dispatching? && SameEnd(r.cfg, from, r.world, TheFetcher)
    modifies r`world
    ensures r.Valid() && |r.world.script| <= |old(r.world.script)|
    ensures r.world.state.plan == old(r.world.state.plan)
    ensures if blocked then r.world.script == [] && EndsAt(r.cfg, from, r.world, TheFetcher)
            else SameEnd(r.cfg, from, r.world, TheFetcher)
    ensures !blocked ==>
      if stopped then r.world.state.fetcher.Waiting? && r.world.state.cancelled else r.world.state.fetcher.Checking?
  {
    while r.world.state.fetcher.rest != []
      invariant r.Valid() && |r.world.script| <= |old(r.world.script)|
      invariant r.world.state.fetcher.Dispatching? && r.world.state.plan == old(r.world.state.plan)
      invariant SameEnd(r.cfg, from, r.world, TheFetcher)
      decreases |r.world.state.fetcher.rest|
    {
      var next := r.AwaitOn(TheFetcher, from);
      if next.None? {
        return false, true;
      }
      if next.value.fact.Drop? {
        return true, false;
      }
    }
    var _ := r.AwaitOn(TheFetcher, from);
    return false, false;
  }

  /** The fetcher: until cancellation adapt the plan, fetch and dispatch; then wait for the workers and
      close the channel. `fetchState` is kept up to date in place. */
  method RunFetcher(r: PullConsumerRuntime, fetchState: PullConsumerFetchState) returns (returned: bool)
    requires r.Valid() && At(r.world.state, TheFetcher) == Some(CheckStop) && Validate(r.cfg).None?
    requires fetchState.View() == r.world.state.plan
    modifies r`world, fetchState
    ensures r.Valid() && EndsAt(r.cfg, old(r.world), r.world, TheFetcher)
    ensures returned ==> Terminal(r.world.state) && r.world.state.cancelled
    ensures !returned ==> r.world.script == []
    ensures fetchState.View() == r.world.state.plan && Configured(r.cfg, r.world.state.plan.plan)
  {
    ghost var from := r.world;
    var stopped := false;
    while !stopped && r.world.script != []
      invariant r.Valid() && SameEnd(r.cfg, from, r.world, TheFetcher)
      invariant At(r.world.state, TheFetcher) == Some(if stopped then AwaitWorkers else CheckStop)
      invariant fetchState.View() == r.world.state.plan
      decreases |r.world.script|
    {
      var _ := r.AwaitOn(TheFetcher, from);
      if r.world.state.fetcher.Waiting? {
        stopped := true;
        break;
      }
      var updated := r.AwaitOn(TheFetcher, from);
      fetchState.MaybeUpdateAdaptivePlan(r.cfg, updated.value.fact.look);
      var fetched := r.AwaitOn(TheFetcher, from);
      if fetched.value.fact.FetchError? {
        continue;
      }
      var blocked;
      stopped, blocked := DispatchFetchedMessages(r, from);
      if blocked {
        PlanIsConfigured(r);
        return false;
      }
    }
    PlanIsConfigured(r);
    if !stopped {
      PauseIsEnd(r.cfg, from, r.world, TheFetcher);
      return false;
    }
    returned := WaitAndClose(r, from);
    PlanIsConfigured(r);
  }

  /** The deferred calls of the fetcher: wait for the workers, then close the channel. */
  method WaitAndClose(r: PullConsumerRuntime, ghost from: World) returns (returned: bool)
    requires r.Valid() && At(r.world.state, TheFetcher) == Some(AwaitWorkers) && Validate(r.cfg).None?
    requires SameEnd(r.cfg, from, r.world, TheFetcher)
    modifies r`world
    ensures r.Valid() && EndsAt(r.cfg, from, r.world, TheFetcher)
    ensures r.world.state.plan == old(r.world.state.plan)
    ensures returned ==> Terminal(r.world.state) && r.world.state.cancelled
    ensures !returned ==> r.world.script == []
  {
    var closed := r.AwaitOn(TheFetcher, from);
    if closed.None? {
      return false;
    }
    PauseIsEnd(r.cfg, from, r.world, TheFetcher);
    r.IsReplayed();
    RunOrderly(r.cfg, r.start, r.world.trace);
    return true;
  }

  lemma PlanIsConfigured(r: PullConsumerRuntime)
    requires r.Valid() && Validate(r.cfg).None?
    ensures Configured(r.cfg, r.world.state.plan.plan)
  {
    r.IsReplayed();
    RunOrderly(r.cfg, r.start, r.world.trace);
  }
}
