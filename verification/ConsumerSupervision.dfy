/** The reconnect loop: sessions one after the other with growing waits in between, until the service
    is stopped. */
module ConsumerSupervision {
  import opened Wrappers
  import opened ClaimStore
  import opened Delivery
  import opened ConsumerSchedule
  import opened ConsumerSessions
  import opened Backoff

  ghost function Slept(w: World, ms: nat): (v: World)
    requires WellFormed(w.state)
    ensures WellFormed(v.state) && v.state.consumers == w.state.consumers
    ensures v.trace == w.trace + [Tick(ms)] && v.script == w.script
  {
    AfterIsApply(w.state, Tick(ms));
    Taking(w, Tick(ms))
  }

  /** The sessions from the `k`-th on. The service is stopped when nothing is prescribed any more. */
  ghost function Supervised(w: World, c: nat, k: nat): (v: World)
    requires Sane(w, c) && w.state.consumers[c].Closed?
    ensures Sane(v, c) && v.state.consumers[c].Closed?
    decreases |w.script|
  {
    if w.script == [] then w
    else
      var v := SessionOf(w, c);
      if v.script == [] then v else Supervised(Slept(v, WaitAt(k)), c, k + 1)
  }

  /** The loop goes on from `v` as the `k`-th session where it went on from `w` as the `j`-th. */
  ghost predicate SameService(w: World, j: nat, v: World, k: nat, c: nat) {
    && Proper(w, c) && Proper(v, c) && w.state.consumers[c].Closed? && v.state.consumers[c].Closed?
    && forall i {:trigger Supervised(w, c, i)} :: i == j ==> Supervised(v, c, k) == Supervised(w, c, i)
  }

  /** `v` is where the loop ends that begins in `w`. */
  ghost predicate IsService(w: World, v: World, c: nat) {
    && Proper(w, c) && w.state.consumers[c].Closed? && v.script == []
    && forall i {:trigger Supervised(w, c, i)} :: i == 0 ==> v == Supervised(w, c, i)
  }

  lemma ServiceGoesOn(w: World, u: World, k: nat, v: World, x: World, c: nat)
    requires SameService(w, 0, u, k, c) && IsSession(u, v, c) && u.script != []
    requires if v.script == [] then x == v else IsSleep(v, x, WaitAt(k))
    ensures SameService(w, 0, x, k + 1, c)
  {
    assert Sane(w, c) && Sane(u, c);
    SessionIsSessionOf(u, v, c);
    assert Supervised(u, c, k) == Supervised(w, c, 0);
    assert v.script != [] ==> x == Slept(v, WaitAt(k));
  }

  lemma ServiceEnds(w: World, v: World, k: nat, c: nat)
    requires SameService(w, 0, v, k, c) && v.script == []
    ensures IsService(w, v, c)
  {
    assert Sane(w, c) && Sane(v, c);
    assert Supervised(v, c, k) == v == Supervised(w, c, 0);
  }

  /** `v` is `w` after a sleep. */
  ghost predicate IsSleep(w: World, v: World, ms: nat) {
    && Healthy(w.state) && Healthy(v.state) && v.script == w.script && v.state.consumers == w.state.consumers
    && forall x {:trigger Slept(w, x)} :: x == ms ==> v == Slept(w, x)
  }

  // ---- when the reader is opened ----

  /** The time that passes during the steps. */
  function Elapsed(trace: seq<Step>): nat {
    if trace == [] then 0
    else
      var last := trace[|trace| - 1];
      Elapsed(trace[..|trace| - 1]) + if last.Tick? then last.ms else 0
  }

  /** The times at which consumer `c` opens its reader. */
  function OpenTimes(trace: seq<Step>, c: nat): seq<nat> {
    if trace == [] then []
    else
      var front := trace[..|trace| - 1];
      OpenTimes(front, c) + if trace[|trace| - 1] == Session(c, Open) then [Elapsed(front)] else []
  }

  lemma OneMoreStep(trace: seq<Step>, step: Step, c: nat)
    ensures Elapsed(trace + [step]) == Elapsed(trace) + if step.Tick? then step.ms else 0
    ensures OpenTimes(trace + [step], c) == OpenTimes(trace, c) + if step == Session(c, Open) then [Elapsed(trace)] else []
  {
    assert (trace + [step])[..|trace|] == trace;
  }

  /** The clock of the store shows the time that has passed. (Here and below a quantifier keeps the
      verifier from going through the trace wherever this is mentioned.) */
  ghost predicate OnTime(w: World) {
    forall trace :: trace == w.trace ==> w.state.store.now == Elapsed(trace)
  }

  /** From `w` to `v` consumer `c` opens its reader at these times. */
  ghost predicate Opens(w: World, v: World, c: nat, times: seq<nat>) {
    OnTime(v) && forall d :: d == c ==> OpenTimes(v.trace, d) == OpenTimes(w.trace, d) + times
  }

  lemma OpensThen(w: World, u: World, v: World, c: nat, a: seq<nat>, b: seq<nat>)
    requires Opens(w, u, c, a) && Opens(u, v, c, b)
    ensures Opens(w, v, c, a + b)
  {
    assert OpenTimes(v.trace, c) == (OpenTimes(w.trace, c) + a) + b;
    assert (OpenTimes(w.trace, c) + a) + b == OpenTimes(w.trace, c) + (a + b);
  }

  lemma StepClock(s: State, step: Step)
    requires WellFormed(s) && Enabled(s, step)
    ensures Apply(s, step).store.now == s.store.now + if step.Tick? then step.ms else 0
  {
    if step.Session? {
      MoveHands(s, step.c, step.move);
    }
  }

  lemma {:induction false} RunIsOnTime(setup: Setup, trace: seq<Step>)
    requires Replay(setup, trace).Some?
    ensures Replay(setup, trace).value.store.now == Elapsed(trace)
  {
    if trace != [] {
      var n := |trace| - 1;
      var s := LastStep(setup, trace);
      RunIsOnTime(setup, trace[..n]);
      StepClock(s, trace[n]);
      assert trace == trace[..n] + [trace[n]];
    }
  }

  lemma TakingOpens(w: World, step: Step, c: nat)
    requires WellFormed(w.state) && Enabled(w.state, step) && OnTime(w)
    ensures Opens(w, Taking(w, step), c, if step == Session(c, Open) then [w.state.store.now] else [])
  {
    StepClock(w.state, step);
    AfterIsApply(w.state, step);
    OneMoreStep(w.trace, step, c);
    assert w.state.store.now == Elapsed(w.trace);
  }

  /** Nothing is opened by leaving out a part of the script. */
  lemma OpensSkip(w: World, c: nat, script: seq<Step>)
    requires OnTime(w)
    ensures Opens(w, w.(script := script), c, [])
  {
  }

  lemma {:induction false} OthersDoNotOpen(w: World, c: nat)
    requires Sane(w, c) && OnTime(w)
    ensures Opens(w, Others(w, c), c, [])
    decreases |w.script|
  {
    OpensSkip(w, c, w.script);
    if w.script != [] && ByOthers(w.script[0], c) {
      var step, rest := w.script[0], w.script[1..];
      if Enabled(w.state, step) {
        AfterIsApply(w.state, step);
        OthersKeepHands(w.state, step, c);
        TakingOpens(w, step, c);
        var v := Taking(w, step).(script := rest);
        OthersDoNotOpen(v, c);
        OpensThen(w, v, Others(w, c), c, [], []);
      } else {
        OthersDoNotOpen(w.(script := rest), c);
      }
    }
  }

  /** The reader is opened in a turn exactly if it is closed before. */
  lemma TurnOpens(w: World, c: nat)
    requires Sane(w, c) && OnTime(w)
    ensures Others(w, c).state.store.now <= Turn(w, c).state.store.now
    ensures Opens(w, Turn(w, c), c, if w.state.consumers[c].Closed? then [Others(w, c).state.store.now] else [])
  {
    OthersDoNotOpen(w, c);
    var u := Others(w, c);
    var step := Outcome(u, c, Due(u.state.consumers[c], u.state.max));
    OwnStepsAreDue(u.state, c, step);
    OwnMoves(u, c);
    TakingOpens(u, step, c);
    OpensThen(w, u, Turn(w, c), c, [], if step == Session(c, Open) then [u.state.store.now] else []);
  }

  lemma {:induction false} UntilOpensNothing(w: World, c: nat)
    requires Sane(w, c) && OnTime(w)
    ensures Opens(w, Until(w, c, SessionOver), c, [])
    decreases |w.script|, Distance(w.state.consumers[c])
  {
    OpensSkip(w, c, w.script);
    if !w.state.consumers[c].Closed? {
      var v := Turn(w, c);
      if w.script == [] {
        MovedEnds(w, v, c);
      }
      TurnOpens(w, c);
      UntilOpensNothing(v, c);
      OpensThen(w, v, Until(w, c, SessionOver), c, [], []);
    }
  }

  /** A session opens the reader once. */
  lemma SessionOpensOnce(w: World, c: nat) returns (time: nat)
    requires Sane(w, c) && w.state.consumers[c].Closed? && OnTime(w)
    ensures Opens(w, SessionOf(w, c), c, [time])
    ensures w.state.store.now <= time <= SessionOf(w, c).state.store.now
  {
    time := Others(w, c).state.store.now;
    TurnOpens(w, c);
    UntilOpensNothing(Turn(w, c), c);
    OpensThen(w, Turn(w, c), SessionOf(w, c), c, [time], []);
  }

  lemma SleepOpensNothing(w: World, c: nat, ms: nat)
    requires WellFormed(w.state) && OnTime(w)
    ensures Opens(w, Slept(w, ms), c, []) && Slept(w, ms).state.store.now == w.state.store.now + ms
  {
    AfterIsApply(w.state, Tick(ms));
    TakingOpens(w, Tick(ms), c);
  }

  /** Between two openings at least the wait that is due passes. */
  ghost predicate Spaced(times: seq<nat>, k: nat) {
    forall i :: 0 < i < |times| ==> times[i - 1] + WaitAt(k + i - 1) <= times[i]
  }

  /** The loop ends only when the service is stopped; it has opened the reader at least once unless it
      was stopped from the beginning, and has waited before each further opening. */
  lemma {:induction false} SupervisedOpens(w: World, c: nat, k: nat) returns (times: seq<nat>)
    requires Sane(w, c) && w.state.consumers[c].Closed? && OnTime(w)
    ensures Supervised(w, c, k).script == []
    ensures Opens(w, Supervised(w, c, k), c, times)
    ensures (times == [] <==> w.script == []) && (times != [] ==> w.state.store.now <= times[0]) && Spaced(times, k)
    decreases |w.script|
  {
    if w.script == [] {
      times := [];
      OpensSkip(w, c, w.script);
    } else {
      var v := SessionOf(w, c);
      var time := SessionOpensOnce(w, c);
      if v.script == [] {
        times := [time];
      } else {
        var u := Slept(v, WaitAt(k));
        SleepOpensNothing(v, c, WaitAt(k));
        var later := SupervisedOpens(u, c, k + 1);
        times := [time] + later;
        SpacedBefore(time, later, k);
        OpensThen(w, v, u, c, [time], []);
        OpensThen(w, u, Supervised(w, c, k), c, [time], later);
      }
    }
  }

  lemma SpacedBefore(time: nat, later: seq<nat>, k: nat)
    requires Spaced(later, k + 1) && (later != [] ==> time + WaitAt(k) <= later[0])
    ensures Spaced([time] + later, k)
  {
    var times := [time] + later;
    forall i | 0 < i < |times|
      ensures times[i - 1] + WaitAt(k + i - 1) <= times[i]
    {
      if i > 1 {
        assert later[i - 2] + WaitAt(k + 1 + (i - 1) - 1) <= later[i - 1];
      }
    }
  }

  /** After any session, whatever happened in it and however it ended, the loop waits and goes on with
      what is prescribed next. */
  lemma EverySessionIsFollowed(w: World, c: nat, k: nat, steps: seq<Step>, more: seq<Step>, t: State)
    requires PlaysSession(w.state, steps, c, t) && w.script == steps + more && more != []
    ensures WellFormed(t) && c < |t.consumers| && t.consumers[c].Closed?
    ensures Supervised(w, c, k) ==
      Supervised(Slept(World(t, w.trace + steps, more), WaitAt(k)), c, k + 1)
  {
    SessionIsPlayed(w, c, steps, more, t);
    assert SessionOf(w, c) == World(t, w.trace + steps, more);
  }

  /** `n` sessions that cannot fetch anything. */
  function Fruitless(c: nat, n: nat): seq<Step> {
    if n == 0 then [] else [Session(c, Open), Session(c, FetchError)] + Fruitless(c, n - 1)
  }

  /** However often the consumer cannot fetch, its reader is opened again. */
  lemma {:induction false} ReconnectsEachTime(w: World, c: nat, k: nat, n: nat) returns (times: seq<nat>)
    requires Sane(w, c) && w.state.consumers[c].Closed? && OnTime(w) && w.script == Fruitless(c, n)
    ensures Opens(w, Supervised(w, c, k), c, times) && |times| == n
    decreases n
  {
    if n == 0 {
      times := [];
      OpensSkip(w, c, w.script);
    } else {
      FruitlessSession(w, c, Fruitless(c, n - 1));
      var v := SessionOf(w, c);
      var time := SessionOpensOnce(w, c);
      if n == 1 {
        times := [time];
      } else {
        var u := Slept(v, WaitAt(k));
        SleepOpensNothing(v, c, WaitAt(k));
        var later := ReconnectsEachTime(u, c, k + 1, n - 1);
        times := [time] + later;
        OpensThen(w, v, u, c, [time], []);
        OpensThen(w, u, Supervised(w, c, k), c, [time], later);
      }
    }
  }

  lemma FruitlessSession(w: World, c: nat, more: seq<Step>)
    requires Sane(w, c) && w.state.consumers[c].Closed?
    requires w.script == [Session(c, Open), Session(c, FetchError)] + more
    ensures SessionOf(w, c).script == more
  {
    var idle := AfterMove(w.state, c, Open);
    WellFormedKept(w.state, Session(c, Open));
    MoveHands(w.state, c, Open);
    var t := AfterMove(idle, c, FetchError);
    WellFormedKept(idle, Session(c, FetchError));
    MoveHands(idle, c, FetchError);
    FruitlessPlays(w.state, idle, t, c);
    SessionIsPlayed(w, c, [Session(c, Open), Session(c, FetchError)], more, t);
  }

  lemma FruitlessPlays(s: State, idle: State, t: State, c: nat)
    requires WellFormed(s) && c < |s.consumers| && s.consumers[c].Closed? && idle == AfterMove(s, c, Open)
    requires WellFormed(idle) && c < |idle.consumers| && idle.consumers[c].Idle?
    requires t == AfterMove(idle, c, FetchError)
    requires WellFormed(t) && c < |t.consumers| && t.consumers[c].Closed?
    ensures PlaysSession(s, [Session(c, Open), Session(c, FetchError)], c, t)
  {
    var steps := [Session(c, Open), Session(c, FetchError)];
    assert steps[1..] == [Session(c, FetchError)];
    assert steps[1..][1..] == [];
    assert Plays(t, [], c, t);
    assert Plays(idle, [Session(c, FetchError)], c, t);
  }

  // ---- one round of the loop ----

  /** The loop has come from `start` to `v`, where its `k`-th session is due, opening the reader at
      these times. */
  ghost predicate Served(start: World, v: World, c: nat, times: seq<nat>, k: nat) {
    SameService(start, 0, v, k, c) && Opens(start, v, c, times)
  }

  lemma OneMoreSession(start: World, w: World, v: World, c: nat, times: seq<nat>, k: nat) returns (time: nat)
    requires Served(start, w, c, times, k) && w.script != [] && IsSession(w, v, c)
    ensures |v.script| < |w.script| && Opens(start, v, c, times + [time])
    ensures w.state.store.now <= time <= v.state.store.now
    ensures v.script == [] ==> IsService(start, v, c)
  {
    assert Sane(w, c);
    SessionIsSessionOf(w, v, c);
    time := SessionOpensOnce(w, c);
    OpensThen(start, w, v, c, times, [time]);
    if v.script == [] {
      ServiceGoesOn(start, w, k, v, v, c);
      ServiceEnds(start, v, k + 1, c);
    }
  }

  lemma OneMoreSleep(start: World, w: World, v: World, x: World, c: nat, times: seq<nat>, k: nat)
    requires SameService(start, 0, w, k, c) && IsSession(w, v, c) && w.script != [] && v.script != []
    requires Opens(start, v, c, times) && IsSleep(v, x, WaitAt(k))
    ensures Served(start, x, c, times, k + 1) && x.state.store.now == v.state.store.now + WaitAt(k)
  {
    ServiceGoesOn(start, w, k, v, x, c);
    assert WellFormed(v.state);
    assert x == Slept(v, WaitAt(k));
    SleepOpensNothing(v, c, WaitAt(k));
    OpensThen(start, v, x, c, times, []);
    assert times + [] == times;
  }
}
