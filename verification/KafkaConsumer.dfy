/** The consumer as the service runs it: the reconnect loop around the session loop around the
    claiming handler around the mail handler. Every effect goes through a cluster that records the
    steps taken, and each method is proved to take exactly the turns that are due: what it leaves
    behind is determined by the protocol and by what is prescribed, not by the method. */
module KafkaConsumer {
  import opened Wrappers
  import opened ClaimStore
  import opened Delivery
  import opened DeliveryClaims
  import opened DeliveryNoLoss
  import opened DeliveryCommits
  import opened ConsumerSchedule
  import opened ConsumerSessions
  import opened ConsumerSupervision
  import opened Backoff

  /** Kafka, Redis and everybody who uses them. `script` prescribes, for any run of the service, what
      the others do between two effects of the consumer and how its effects turn out. */
  class Cluster {
    const setup: Setup
    var world: World

    /** The steps recorded are a run of the protocol and lead to the present state. */
    ghost predicate Valid()
      reads this
    {
      IsRun(setup, world.trace, world.state) && Healthy(world.state)
    }

    constructor (setup: Setup, script: seq<Step>)
      ensures Valid() && this.setup == setup && world == World(Initial(setup), [], script)
    {
      this.setup := setup;
      this.world := World(Initial(setup), [], script);
      new;
      assert Replay(setup, []) == Some(world.state);
    }

    /** What the protocol proofs know about a run. */
    lemma IsReplayed()
      requires Valid()
      ensures Replay(setup, world.trace) == Some(world.state) && WellFormed(world.state)
    {
    }

    lemma ServiceBegins(c: nat)
      requires Valid() && Ready(world.state, c, OpenReader)
      ensures Served(world, world, c, [], 0)
    {
      IsReplayed();
      RunIsOnTime(setup, world.trace);
      OpensSkip(world, c, world.script);
    }

    method Do(step: Step)
      requires Valid() && WellFormed(world.state) && Enabled(world.state, step)
      modifies this`world
      ensures Valid() && world == Taking(old(world), step)
    {
      IsReplayed();
      ReplayExtends(setup, world.trace, world.state, step);
      AfterIsApply(world.state, step);
      world := World(Apply(world.state, step), world.trace + [step], world.script);
    }

    /** Time passes; nobody else moves. */
    method Sleep(ms: nat)
      requires Valid()
      modifies this`world
      ensures Valid() && IsSleep(old(world), world, ms)
    {
      assert WellFormed(world.state);
      AfterIsApply(world.state, Tick(ms));
      Do(Tick(ms));
      assert world == Slept(old(world), ms);
    }

    /** The others take their steps up to the next one that concerns consumer `c`. */
    method Interfere(c: nat)
      requires Valid() && WellFormed(world.state) && c < |world.state.consumers|
      modifies this`world
      ensures Valid() && WellFormed(world.state) && world == Others(old(world), c)
    {
      while world.script != [] && ByOthers(world.script[0], c)
        invariant Valid() && WellFormed(world.state) && c < |world.state.consumers|
        invariant Others(world, c) == Others(old(world), c)
        decreases |world.script|
      {
        if Enabled(world.state, world.script[0]) {
          AfterIsApply(world.state, world.script[0]);
          OthersKeepHands(world.state, world.script[0], c);
          Do(world.script[0]);
        }
        world := world.(script := world.script[1..]);
      }
    }

    /** The others take steps, and then the effect turns out in one of the possible ways. */
    method Await(c: nat, effect: Effect) returns (step: Step)
      requires Valid() && Ready(world.state, c, effect)
      modifies this`world
      ensures Valid() && IsTurn(old(world), world, c)
      ensures Moved(old(world), world, c) && step == world.trace[|world.trace| - 1]
    {
      assert WellFormed(world.state);
      Interfere(c);
      step := Fallback(c, effect);
      OwnStepsAreDue(world.state, c, step);
      if world.script != [] {
        if Answers(world.script[0], c, effect) && Enabled(world.state, world.script[0]) {
          step := world.script[0];
        }
      }
      Do(step);
      if world.script != [] {
        world := world.(script := world.script[1..]);
      }
      assert world == Turn(old(world), c);
    }

    /** The same on the way from `start` to a goal. */
    method AwaitOn(c: nat, effect: Effect, ghost start: World, ghost goal: Goal) returns (step: Step)
      requires Valid() && Ready(world.state, c, effect)
      requires SameEnd(start, world, c, goal) && !Reached(world.state.consumers[c], goal)
      modifies this`world
      ensures Valid() && SameEnd(start, world, c, goal)
      ensures Moved(old(world), world, c) && step == world.trace[|world.trace| - 1]
    {
      step := Await(c, effect);
      TurnKeepsEnd(old(world), world, c, goal);
      SameEndThen(start, old(world), world, c, goal);
    }
  }

  // ---- the mail handler ----

  /** What a handler returns: nil, or an error that may be permanent. */
  datatype Returned = Nil | Failure(permanent: bool)

  predicate EndsWith(trace: seq<Step>, step: Step) {
    trace != [] && trace[|trace| - 1] == step
  }

  /** Decode the command, send the mail, publish the result. */
  method Handle(cluster: Cluster, c: nat) returns (r: Returned)
    requires cluster.Valid() && Ready(cluster.world.state, c, SendMail)
    modifies cluster`world
    ensures cluster.Valid() && EndsAt(old(cluster.world), cluster.world, c, HandlerReturned)
    ensures SameRecord(old(cluster.world.state), cluster.world.state, c)
    ensures |cluster.world.script| <= |old(cluster.world.script)|
    ensures
      var stage := cluster.world.state.consumers[c].stage;
      match r
      case Nil => stage.Published? && EndsWith(cluster.world.trace, Handler(c, ReplyOk))
      case Failure(permanent) => stage.Failing? && stage.permanent == permanent
  {
    ghost var start := cluster.world;
    var sent := cluster.AwaitOn(c, SendMail, start, HandlerReturned);
    if sent.act.DecodeError? {
      return Failure(sent.act.permanent);
    }
    var published := cluster.AwaitOn(c, PublishResult, start, HandlerReturned);
    if published.act.ReplyError? {
      return Failure(published.act.permanent);
    }
    return Nil;
  }

  /** The consumer still has the same record in hand. */
  ghost predicate SameRecord(s: State, t: State, c: nat) {
    && BusyAt(s, c) && BusyAt(t, c) && t.max == s.max && |t.consumers| == |s.consumers|
    && t.consumers[c] == s.consumers[c].(stage := t.consumers[c].stage)
  }

  // ---- the claim around it ----

  /** Claim the event, run the handler, then complete or release the claim. A refused claim is
      reported like a handled record. */
  method HandleWithClaim(cluster: Cluster, c: nat) returns (r: Returned)
    requires cluster.Valid() && Ready(cluster.world.state, c, SetClaim)
    modifies cluster`world
    ensures cluster.Valid() && EndsAt(old(cluster.world), cluster.world, c, ClaimReturned)
    ensures SameRecord(old(cluster.world.state), cluster.world.state, c)
    ensures |cluster.world.script| <= |old(cluster.world.script)|
    ensures
      var stage := cluster.world.state.consumers[c].stage;
      match r
      case Nil => stage.Handled?
      case Failure(permanent) => stage == Failed(permanent)
  {
    ghost var start := cluster.world;
    var claim := cluster.AwaitOn(c, SetClaim, start, ClaimReturned);
    if claim.act.ClaimError? {
      return Failure(claim.act.permanent);
    }
    var claimed := cluster.world.state.consumers[c].stage.Running?;
    if !claimed {
      return Nil;
    }
    ghost var running := cluster.world;
    r := Handle(cluster, c);
    EndOnTheWay(start, running, cluster.world, c, HandlerReturned, ClaimReturned);
    if r.Failure? {
      var _ := cluster.AwaitOn(c, DeleteClaim, start, ClaimReturned);
      return r;
    }
    var completed := cluster.AwaitOn(c, SetDone, start, ClaimReturned);
    if completed.act.CompleteError? {
      return Failure(completed.act.permanent);
    }
    return Nil;
  }

  // ---- the session loop ----

  method DeadLetterMessage(cluster: Cluster, c: nat) returns (failed: bool)
    requires cluster.Valid() && Ready(cluster.world.state, c, WriteDeadLetter)
    modifies cluster`world
    ensures cluster.Valid() && EndsAt(old(cluster.world), cluster.world, c, SessionOver)
    ensures failed <==> !EndsWith(cluster.world.trace, Session(c, DeadLetter(true)))
  {
    var written := cluster.AwaitOn(c, WriteDeadLetter, cluster.world, SessionOver);
    failed := !written.move.ok;
  }

  /** One session: fetch, handle, then commit, queue for retry or dead-letter, until an effect fails or
      a record is dead-lettered. It takes the turns of a session and no others; the reader is closed at
      the end, and nil is returned exactly when the last step was a successful dead-lettering. */
  method RunPullConsumer(cluster: Cluster, c: nat) returns (failed: bool)
    requires cluster.Valid() && Ready(cluster.world.state, c, OpenReader)
    modifies cluster`world
    ensures cluster.Valid() && IsSession(old(cluster.world), cluster.world, c)
    ensures Ready(cluster.world.state, c, OpenReader)
    ensures failed <==> !EndsWith(cluster.world.trace, Session(c, DeadLetter(true)))
  {
    ghost var start := cluster.world;
    var _ := cluster.Await(c, OpenReader);
    ghost var begun := cluster.world;
    assert IsTurn(start, begun, c);
    while true
      invariant cluster.Valid() && Ready(cluster.world.state, c, FetchMessage)
      invariant SameEnd(begun, cluster.world, c, SessionOver)
      decreases |cluster.world.script|
    {
      var fetched := cluster.AwaitOn(c, FetchMessage, begun, SessionOver);
      if fetched.move.FetchError? {
        return true;
      }
      var msg := cluster.world.state.consumers[c].rec;
      var attempts := msg.attempt;
      if msg.event.None? {
        ghost var before := cluster.world;
        failed := DeadLetterMessage(cluster, c);
        SameEndThen(begun, before, cluster.world, c, SessionOver);
        return;
      }
      ghost var taken := cluster.world;
      var r := HandleWithClaim(cluster, c);
      EndOnTheWay(begun, taken, cluster.world, c, ClaimReturned, SessionOver);
      if r.Failure? {
        if !r.permanent && attempts < cluster.world.state.max {
          var queued := cluster.AwaitOn(c, EnqueueRetry, begun, SessionOver);
          if !queued.move.ok {
                return true;
          }
          continue;
        }
        ghost var before := cluster.world;
        failed := DeadLetterMessage(cluster, c);
        SameEndThen(begun, before, cluster.world, c, SessionOver);
        return;
      }
      var committed := cluster.AwaitOn(c, CommitMessage, begun, SessionOver);
      if !committed.move.ok {
        return true;
      }
    }
  }

  // ---- the reconnect loop ----

  /** The waits are those of the closed form. */
  ghost predicate AreWaits(waits: seq<nat>) {
    forall k :: 0 <= k < |waits| ==>
      waits[k] == if INITIAL_MS * Pow2(k) < CAP_MS then INITIAL_MS * Pow2(k) else CAP_MS
  }

  lemma OneMoreWait(waits: seq<nat>)
    requires AreWaits(waits)
    ensures AreWaits(waits + [WaitAt(|waits|)])
    ensures WaitAt(|waits| + 1) == Advance(WaitAt(|waits|))
    ensures TotalWait(|waits| + 1) == TotalWait(|waits|) + WaitAt(|waits|)
  {
    WaitClosedForm(|waits|);
  }

  /** Reopens the consumer until the service is stopped, waiting between two sessions. The reader has
      been opened once more than there were waits, and before each further opening at least the wait
      of the closed form has passed. */
  method SubscribeMailCommands(cluster: Cluster, c: nat) returns (waits: seq<nat>, ghost times: seq<nat>)
    requires cluster.Valid() && Ready(cluster.world.state, c, OpenReader)
    modifies cluster`world
    ensures cluster.Valid() && IsService(old(cluster.world), cluster.world, c)
    ensures Ready(cluster.world.state, c, OpenReader)
    ensures AreWaits(waits) && Opens(old(cluster.world), cluster.world, c, times)
    ensures |times| == if old(cluster.world.script) == [] then 0 else |waits| + 1
    ensures Rested(times, waits)
    ensures old(cluster.world.state.store.now) + TotalWait(|waits|) <= cluster.world.state.store.now
  {
    ghost var start := cluster.world;
    cluster.ServiceBegins(c);
    var backoff := INITIAL_MS;
    waits, times := [], [];
    while cluster.world.script != []
      invariant cluster.Valid() && Ready(cluster.world.state, c, OpenReader)
      invariant Served(start, cluster.world, c, times, |waits|)
      invariant backoff == WaitAt(|waits|) && AreWaits(waits)
      invariant |times| == |waits| && Rested(times + [cluster.world.state.store.now], waits)
      invariant cluster.world.script == [] <==> start.script == []
      invariant cluster.world.script == [] ==> waits == []
      invariant start.state.store.now + TotalWait(|waits|) <= cluster.world.state.store.now
      decreases |cluster.world.script|
    {
      ghost var before := cluster.world;
      var _ := RunPullConsumer(cluster, c);
      ghost var time := OneMoreSession(start, before, cluster.world, c, times, |waits|);
      RestedLonger(times, waits, before.state.store.now, time);
      times := times + [time];
      if cluster.world.script == [] {
        return;
      }
      ghost var after := cluster.world;
      cluster.Sleep(backoff);
      OneMoreSleep(start, before, after, cluster.world, c, times, |waits|);
      OneMoreWait(waits);
      RestedMore(times, waits, backoff, cluster.world.state.store.now);
      waits := waits + [backoff];
      if backoff < CAP_MS {
        backoff := backoff * 2;
        if backoff > CAP_MS {
          backoff := CAP_MS;
        }
      }
    }
    ServiceEnds(start, cluster.world, |waits|, c);
  }

  /** Each wait has passed between two openings. */
  ghost predicate Rested(times: seq<nat>, waits: seq<nat>) {
    forall k :: 0 < k < |times| && k <= |waits| ==> times[k - 1] + waits[k - 1] <= times[k]
  }

  lemma RestedLonger(times: seq<nat>, waits: seq<nat>, now: nat, later: nat)
    requires |times| == |waits| && Rested(times + [now], waits) && now <= later
    ensures Rested(times + [later], waits)
  {
    assert forall k :: 0 <= k < |times| ==> (times + [later])[k] == (times + [now])[k];
  }

  lemma RestedMore(times: seq<nat>, waits: seq<nat>, wait: nat, now: nat)
    requires |times| == |waits| + 1 && Rested(times, waits) && times[|waits|] + wait <= now
    ensures Rested(times + [now], waits + [wait])
  {
  }

  /** The protocol's guarantees hold for the service: whatever the others do and however the effects
      turn out, after any number of sessions, no mail is sent more often than faults account for, and
      no event is lost for which the hypotheses of the protocol hold. */
  method Service(setup: Setup, script: seq<Step>, c: nat, e: EventId) returns (cluster: Cluster)
    requires c < setup.consumers
    ensures fresh(cluster) && cluster.Valid()
    ensures
      var past := cluster.world.state.past;
      && past.sends[e] <= 1 + past.faults[e] + past.overruns[e]
      && (Produced(cluster.world.state, e) && e !in past.lapses && past.split == {} ==> NotLost(cluster.world.state, e))
  {
    cluster := new Cluster(setup, script);
    var _, _ := SubscribeMailCommands(cluster, c);
    cluster.IsReplayed();
    MailsAreBounded(cluster.setup, cluster.world.trace, cluster.world.state, e);
    if Produced(cluster.world.state, e) && e !in cluster.world.state.past.lapses && cluster.world.state.past.split == {} {
      NoEventIsLost(cluster.setup, cluster.world.trace, cluster.world.state, e);
    }
  }
}
