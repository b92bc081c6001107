/** What the sessions of a consumer are: exactly the runs of the protocol in which it does not die, from
    the opening of its reader until it is closed. */
module ConsumerSessions {
  import opened Wrappers
  import opened ClaimStore
  import opened Delivery
  import opened ConsumerSchedule

  // ---- sessions are runs ----

  /** From `s` the steps lead to `t`, in which the reader of consumer `c` is closed for the first time,
      and the consumer does not die. */
  ghost predicate Plays(s: State, steps: seq<Step>, c: nat, t: State)
    decreases |steps|
  {
    && WellFormed(s) && c < |s.consumers|
    && if s.consumers[c].Closed? then steps == [] && s == t
       else
         && steps != [] && steps[0] != Session(c, Crash) && Enabled(s, steps[0])
         && Plays(Apply(s, steps[0]), steps[1..], c, t)
  }

  /** A session: steps of the others, the opening of the reader, and then steps up to its closing. */
  ghost predicate PlaysSession(s: State, steps: seq<Step>, c: nat, t: State)
    decreases |steps|
  {
    && WellFormed(s) && c < |s.consumers| && s.consumers[c].Closed?
    && steps != [] && Enabled(s, steps[0])
    && if ByOthers(steps[0], c) then PlaysSession(Apply(s, steps[0]), steps[1..], c, t)
       else Plays(Apply(s, steps[0]), steps[1..], c, t)
  }

  lemma {:induction false} UntilIsPlayed(w: World, c: nat, steps: seq<Step>, more: seq<Step>, t: State)
    requires Plays(w.state, steps, c, t) && w.script == steps + more
    ensures Until(w, c, SessionOver) == World(t, w.trace + steps, more)
    decreases |steps|
  {
    if steps == [] {
      assert w.trace + steps == w.trace && steps + more == more;
    } else {
      var step, rest := steps[0], steps[1..];
      assert w.script[0] == step && w.script[1..] == rest + more;
      assert w.trace + steps == (w.trace + [step]) + rest;
      var v := Taking(w, step).(script := rest + more);
      if ByOthers(step, c) {
        OthersKeepHands(w.state, step, c);
        UntilIsPlayed(v, c, rest, more, t);
        assert Others(w, c) == Others(v, c);
        assert Turn(w, c) == Turn(v, c);
      } else {
        OwnStepsAreDue(w.state, c, step);
        assert Others(w, c) == w;
        assert Outcome(w, c, Due(w.state.consumers[c], w.state.max)) == step;
        assert Turn(w, c) == v;
        UntilIsPlayed(v, c, rest, more, t);
      }
    }
  }

  /** Every session of the protocol comes about, when it is prescribed. */
  lemma {:induction false} SessionIsPlayed(w: World, c: nat, steps: seq<Step>, more: seq<Step>, t: State)
    requires PlaysSession(w.state, steps, c, t) && w.script == steps + more
    ensures SessionOf(w, c) == World(t, w.trace + steps, more)
    decreases |steps|
  {
    var step, rest := steps[0], steps[1..];
    assert w.script[0] == step && w.script[1..] == rest + more;
    assert w.trace + steps == (w.trace + [step]) + rest;
    var v := Taking(w, step).(script := rest + more);
    if ByOthers(step, c) {
      OthersKeepHands(w.state, step, c);
      SessionIsPlayed(v, c, rest, more, t);
      assert Others(w, c) == Others(v, c);
      assert Turn(w, c) == Turn(v, c);
    } else {
      OwnStepsAreDue(w.state, c, step);
      assert Others(w, c) == w;
      assert Outcome(w, c, OpenReader) == step;
      assert Turn(w, c) == v;
      UntilIsPlayed(v, c, rest, more, t);
    }
  }

  /** From `s` the steps, none of them of consumer `c`, lead to `u`. */
  ghost predicate OnlyOthers(s: State, steps: seq<Step>, c: nat, u: State)
    decreases |steps|
  {
    && WellFormed(s)
    && if steps == [] then s == u
       else ByOthers(steps[0], c) && Enabled(s, steps[0]) && OnlyOthers(Apply(s, steps[0]), steps[1..], c, u)
  }

  lemma OneMoreOther(s: State, step: Step, later: seq<Step>, c: nat, u: State)
    requires WellFormed(s) && ByOthers(step, c) && Enabled(s, step) && OnlyOthers(Apply(s, step), later, c, u)
    ensures OnlyOthers(s, [step] + later, c, u)
  {
    assert ([step] + later)[1..] == later;
  }

  lemma Longer(a: seq<Step>, x: Step, d: seq<Step>)
    ensures (a + [x]) + d == a + ([x] + d)
  {
  }

  lemma {:induction false} OthersAreOthers(w: World, c: nat) returns (steps: seq<Step>)
    requires Sane(w, c)
    ensures OnlyOthers(w.state, steps, c, Others(w, c).state) && Others(w, c).trace == w.trace + steps
    decreases |w.script|
  {
    if w.script == [] || !ByOthers(w.script[0], c) {
      steps := [];
    } else {
      var step, script := w.script[0], w.script[1..];
      if Enabled(w.state, step) {
        WellFormedKept(w.state, step);
        OthersKeepHands(w.state, step, c);
        var later := OthersAreOthers(Taking(w, step).(script := script), c);
        OneMoreOther(w.state, step, later, c, Others(w, c).state);
        steps := [step] + later;
        Longer(w.trace, step, later);
      } else {
        steps := OthersAreOthers(w.(script := script), c);
      }
    }
  }

  lemma PlaysFirst(s: State, step: Step, x: State, rest: seq<Step>, c: nat, t: State)
    requires WellFormed(s) && c < |s.consumers| && !s.consumers[c].Closed?
    requires step != Session(c, Crash) && Enabled(s, step) && x == Apply(s, step) && Plays(x, rest, c, t)
    ensures Plays(s, [step] + rest, c, t)
  {
    assert ([step] + rest)[1..] == rest;
  }

  lemma OpensFirst(s: State, step: Step, x: State, rest: seq<Step>, c: nat, t: State)
    requires WellFormed(s) && c < |s.consumers| && s.consumers[c].Closed?
    requires Enabled(s, step) && x == Apply(s, step)
    requires if ByOthers(step, c) then PlaysSession(x, rest, c, t) else Plays(x, rest, c, t)
    ensures PlaysSession(s, [step] + rest, c, t)
  {
    assert ([step] + rest)[1..] == rest;
  }

  lemma {:induction false} PlaysAfterOthers(s: State, steps: seq<Step>, u: State, rest: seq<Step>, c: nat, t: State)
    requires c < |s.consumers| && OnlyOthers(s, steps, c, u)
    requires if s.consumers[c].Closed? then PlaysSession(u, rest, c, t) else Plays(u, rest, c, t)
    ensures if s.consumers[c].Closed? then PlaysSession(s, steps + rest, c, t) else Plays(s, steps + rest, c, t)
    decreases |steps|
  {
    if steps == [] {
      assert steps + rest == rest;
    } else {
      var x := Apply(s, steps[0]);
      var later := steps[1..] + rest;
      OthersKeepHands(s, steps[0], c);
      PlaysAfterOthers(x, steps[1..], u, rest, c, t);
      assert steps + rest == [steps[0]] + later;
      if s.consumers[c].Closed? {
        OpensFirst(s, steps[0], x, later, c, t);
      } else {
        PlaysFirst(s, steps[0], x, later, c, t);
      }
    }
  }

  /** The steps of a turn: some of the others, and one of the consumer. */
  lemma TurnSteps(w: World, c: nat) returns (others: seq<Step>, u: State, step: Step)
    requires Sane(w, c)
    ensures OnlyOthers(w.state, others, c, u) && c < |u.consumers| && u.consumers[c] == w.state.consumers[c]
    ensures WellFormed(u) && Enabled(u, step) && !ByOthers(step, c) && step != Session(c, Crash)
    ensures Turn(w, c).state == Apply(u, step) && Turn(w, c).trace == w.trace + (others + [step])
  {
    others := OthersAreOthers(w, c);
    var v := Others(w, c);
    u := v.state;
    step := Outcome(v, c, Due(u.consumers[c], u.max));
    OwnStepsAreDue(u, c, step);
    assert (w.trace + others) + [step] == w.trace + (others + [step]);
  }

  lemma StepsPlay(s: State, others: seq<Step>, u: State, step: Step, x: State, rest: seq<Step>, c: nat, t: State)
    requires OnlyOthers(s, others, c, u) && WellFormed(u) && Enabled(u, step) && x == Apply(u, step)
    requires !ByOthers(step, c) && step != Session(c, Crash) && Plays(x, rest, c, t)
    requires c < |s.consumers| && c < |u.consumers| && u.consumers[c] == s.consumers[c]
    ensures if s.consumers[c].Closed? then PlaysSession(s, others + ([step] + rest), c, t)
            else Plays(s, others + ([step] + rest), c, t)
  {
    if s.consumers[c].Closed? {
      OpensFirst(u, step, x, rest, c, t);
    } else {
      PlaysFirst(u, step, x, rest, c, t);
    }
    PlaysAfterOthers(s, others, u, [step] + rest, c, t);
  }

  lemma TurnPlays(w: World, c: nat, x: State, rest: seq<Step>, t: State) returns (steps: seq<Step>)
    requires Sane(w, c) && x == Turn(w, c).state && Plays(x, rest, c, t)
    ensures if w.state.consumers[c].Closed? then PlaysSession(w.state, steps, c, t) else Plays(w.state, steps, c, t)
    ensures Turn(w, c).trace + rest == w.trace + steps
  {
    var others, u, step := TurnSteps(w, c);
    StepsPlay(w.state, others, u, step, x, rest, c, t);
    steps := others + ([step] + rest);
    Regroup(w.trace, others, step, rest);
  }

  lemma Regroup(a: seq<Step>, b: seq<Step>, x: Step, d: seq<Step>)
    ensures a + (b + [x]) + d == a + (b + ([x] + d))
  {
  }

  /** Whatever is prescribed, the turns up to the closing of the reader are steps of the protocol, and
      the consumer does not die. */
  lemma {:induction false} UntilPlays(w: World, c: nat) returns (steps: seq<Step>)
    requires Sane(w, c)
    ensures
      var v := Until(w, c, SessionOver);
      Plays(w.state, steps, c, v.state) && v.trace == w.trace + steps
    decreases |w.script|, Distance(w.state.consumers[c])
  {
    if w.state.consumers[c].Closed? {
      steps := [];
    } else {
      var v := Turn(w, c);
      if w.script == [] {
        MovedEnds(w, v, c);
      }
      var rest := UntilPlays(v, c);
      steps := TurnPlays(w, c, v.state, rest, Until(w, c, SessionOver).state);
    }
  }

  /** Whatever is prescribed, a session of the consumer is a session of the protocol. */
  lemma SessionPlays(w: World, c: nat) returns (steps: seq<Step>)
    requires Sane(w, c) && w.state.consumers[c].Closed?
    ensures
      var v := SessionOf(w, c);
      PlaysSession(w.state, steps, c, v.state) && v.trace == w.trace + steps
  {
    var rest := UntilPlays(Turn(w, c), c);
    steps := TurnPlays(w, c, Turn(w, c).state, rest, SessionOf(w, c).state);
  }

  /** The sessions that a consumer can have are the sessions of the protocol: no more, because its loop
      has no choice, and no fewer, because anything the others do and any outcome can be prescribed. */
  lemma SessionsAreRuns(s: State, trace: seq<Step>, c: nat, steps: seq<Step>, t: State)
    requires WellFormed(s) && c < |s.consumers| && s.consumers[c].Closed?
    ensures PlaysSession(s, steps, c, t) <==> exists script :: ScriptPlays(s, trace, c, script, steps, t)
  {
    if PlaysSession(s, steps, c, t) {
      assert steps == steps + [];
      SessionIsPlayed(World(s, trace, steps), c, steps, [], t);
      assert ScriptPlays(s, trace, c, steps, steps, t);
    }
    if script :| ScriptPlays(s, trace, c, script, steps, t) {
      var played := SessionPlays(World(s, trace, script), c);
      assert (trace + played)[|trace|..] == played && (trace + steps)[|trace|..] == steps;
    }
  }

  /** With this script, the session from `s` takes these steps and leads to `t`. */
  ghost predicate ScriptPlays(s: State, trace: seq<Step>, c: nat, script: seq<Step>, steps: seq<Step>, t: State)
    requires WellFormed(s) && c < |s.consumers|
  {
    SessionOf(World(s, trace, script), c) == World(t, trace + steps, SessionOf(World(s, trace, script), c).script)
  }

  // ---- what becomes of each record ----

  lemma {:induction false} PlaysAlive(s: State, steps: seq<Step>, c: nat, t: State, n: nat)
    requires Plays(s, steps, c, t) && n < |steps|
    ensures steps[n] != Session(c, Crash)
    decreases n
  {
    if n > 0 {
      PlaysAlive(Apply(s, steps[0]), steps[1..], c, t, n - 1);
    }
  }

  lemma {:induction false} SessionAlive(s: State, steps: seq<Step>, c: nat, t: State, n: nat)
    requires PlaysSession(s, steps, c, t) && n < |steps|
    ensures steps[n] != Session(c, Crash)
    decreases n
  {
    if n > 0 {
      var u := Apply(s, steps[0]);
      if ByOthers(steps[0], c) {
        SessionAlive(u, steps[1..], c, t, n - 1);
      } else {
        PlaysAlive(u, steps[1..], c, t, n - 1);
      }
    }
  }

  /** Step `m` is the next one of consumer `c` after step `n`. */
  ghost predicate NextOwn(trace: seq<Step>, c: nat, n: nat, m: nat) {
    && n < m < |trace| && !ByOthers(trace[m], c)
    && forall k :: n < k < m ==> ByOthers(trace[k], c)
  }

  /** The step that must follow for a consumer with these hands: a handled record is committed, a
      record that failed for good or does not unwrap is dead-lettered, one that may be tried again is
      queued with the retries, and a claim that was taken is completed or released. */
  predicate Fits(h: Consumer, max: nat, step: Step) {
    match h
    case Closed => step.Session? && step.move.Open?
    case Idle => step.Session? && (step.move.Fetch? || step.move.FetchError?)
    case Busy(_, _, rec, stage) =>
      && (stage.Handled? <==> step.Session? && step.move.Commit?)
      && ((stage.Failed? && !stage.permanent && rec.attempt < max) <==> (step.Session? && step.move.Enqueue?))
      && ((|| (stage.Failed? && (stage.permanent || rec.attempt >= max))
           || (stage.Fetched? && rec.event.None?)) <==> (step.Session? && step.move.DeadLetter?))
      && ((stage.Fetched? && rec.event.Some?) <==> (step.Handler? && (step.act.Claim? || step.act.ClaimError?)))
      && (stage.Published? <==> (step.Handler? && (step.act.CompleteOk? || step.act.CompleteError?)))
      && (stage.Failing? <==> (step.Handler? && step.act.Release?))
  }

  /** After step `n`, if it is one of consumer `c`, comes a fitting one, unless its reader is closed. */
  ghost predicate Followed(setup: Setup, trace: seq<Step>, c: nat, n: nat) {
    && n < |trace| && Replay(setup, trace[..n + 1]).Some?
    && var s := Replay(setup, trace[..n + 1]).value;
    && c < |s.consumers|
    && (!ByOthers(trace[n], c) && !s.consumers[c].Closed? ==>
          exists m: nat :: NextOwn(trace, c, n, m) && Fits(s.consumers[c], s.max, trace[m]))
  }

  lemma {:induction false} PrefixReplays(setup: Setup, trace: seq<Step>, n: nat)
    requires Replay(setup, trace).Some? && n <= |trace|
    ensures Replay(setup, trace[..n]).Some?
    decreases |trace|
  {
    if n < |trace| {
      var front := trace[..|trace| - 1];
      PrefixReplays(setup, front, n);
      assert front[..n] == trace[..n];
    } else {
      assert trace[..n] == trace;
    }
  }

  lemma StepOf(setup: Setup, trace: seq<Step>, n: nat) returns (s: State)
    requires Replay(setup, trace).Some? && n < |trace|
    ensures Replay(setup, trace[..n]) == Some(s) && Enabled(s, trace[n])
    ensures Replay(setup, trace[..n + 1]) == Some(Apply(s, trace[n]))
  {
    PrefixReplays(setup, trace, n + 1);
    var front := trace[..n + 1];
    assert |front| - 1 == n && front[..n] == trace[..n] && front[n] == trace[n];
    s := LastStep(setup, front);
  }

  /** While only the others move, consumer `c` keeps what it has in hand. */
  lemma {:induction false} OthersKeep(setup: Setup, trace: seq<Step>, c: nat, i: nat, j: nat, s: State) returns (t: State)
    requires Replay(setup, trace).Some? && i <= j <= |trace| && Replay(setup, trace[..i]) == Some(s)
    requires c < |s.consumers| && forall k :: i <= k < j ==> ByOthers(trace[k], c)
    ensures Replay(setup, trace[..j]) == Some(t)
    ensures c < |t.consumers| && t.consumers[c] == s.consumers[c] && t.max == s.max
    decreases j
  {
    if i == j {
      t := s;
    } else {
      var u := OthersKeep(setup, trace, c, i, j - 1, s);
      var v := StepOf(setup, trace, j - 1);
      OthersKeepHands(v, trace[j - 1], c);
      t := Apply(v, trace[j - 1]);
    }
  }

  lemma {:induction false} FirstOwn(trace: seq<Step>, c: nat, n: nat) returns (m: nat)
    requires n <= |trace|
    ensures n <= m <= |trace| && (m < |trace| ==> !ByOthers(trace[m], c))
    ensures forall k :: n <= k < m ==> ByOthers(trace[k], c)
    decreases |trace| - n
  {
    if n == |trace| || !ByOthers(trace[n], c) {
      m := n;
    } else {
      m := FirstOwn(trace, c, n + 1);
    }
  }

  lemma DueFits(h: Consumer, max: nat, step: Step, c: nat)
    requires Answers(step, c, Due(h, max))
    ensures Fits(h, max, step)
  {
  }

  lemma NextFits(setup: Setup, trace: seq<Step>, c: nat, n: nat, u: State, t: State) returns (m: nat)
    requires Replay(setup, trace) == Some(t) && c < |t.consumers| && t.consumers[c].Closed?
    requires n < |trace| && Replay(setup, trace[..n + 1]) == Some(u) && c < |u.consumers| && !u.consumers[c].Closed?
    requires forall k :: n < k < |trace| ==> trace[k] != Session(c, Crash)
    ensures NextOwn(trace, c, n, m) && Fits(u.consumers[c], u.max, trace[m])
  {
    m := FirstOwn(trace, c, n + 1);
    var v := OthersKeep(setup, trace, c, n + 1, m, u);
    assert trace[..|trace|] == trace;
    if m < |trace| {
      var _ := StepOf(setup, trace, m);
      OwnStepsAreDue(v, c, trace[m]);
      DueFits(u.consumers[c], u.max, trace[m], c);
    }
  }

  lemma AliveIsFollowed(setup: Setup, trace: seq<Step>, c: nat, n: nat, t: State)
    requires Replay(setup, trace) == Some(t) && c < |t.consumers| && t.consumers[c].Closed? && n < |trace|
    requires forall k :: n < k < |trace| ==> trace[k] != Session(c, Crash)
    ensures Followed(setup, trace, c, n)
  {
    PrefixReplays(setup, trace, n + 1);
    var u := Replay(setup, trace[..n + 1]).value;
    SameConsumers(setup, trace);
    SameConsumers(setup, trace[..n + 1]);
    if !u.consumers[c].Closed? {
      var m := NextFits(setup, trace, c, n, u, t);
    }
  }

  lemma {:induction false} SameConsumers(setup: Setup, trace: seq<Step>)
    requires Replay(setup, trace).Some?
    ensures |Replay(setup, trace).value.consumers| == setup.consumers
  {
    if trace != [] {
      var s := LastStep(setup, trace);
      SameConsumers(setup, trace[..|trace| - 1]);
      StepKeepsConsumers(s, trace[|trace| - 1]);
    }
  }

  lemma StepKeepsConsumers(s: State, step: Step)
    requires WellFormed(s) && Enabled(s, step)
    ensures |Apply(s, step).consumers| == |s.consumers|
  {
    if step.Session? {
      MoveHands(s, step.c, step.move);
    }
  }

  lemma NoDeathInSession(w: World, c: nat)
    requires Sane(w, c) && w.state.consumers[c].Closed?
    ensures forall k :: |w.trace| <= k < |SessionOf(w, c).trace| ==> SessionOf(w, c).trace[k] != Session(c, Crash)
  {
    var v := SessionOf(w, c);
    var steps := SessionPlays(w, c);
    forall k | |w.trace| <= k < |v.trace|
      ensures v.trace[k] != Session(c, Crash)
    {
      SessionAlive(w.state, steps, c, v.state, k - |w.trace|);
    }
  }

  /** In a session every record is dealt with as its handling demands, and the consumer does not die:
      whatever the others do in between, the next step of the consumer is the fitting one. */
  lemma RecordsAreDealtWith(setup: Setup, w: World, v: World, c: nat, n: nat)
    requires Sane(w, c) && w.state.consumers[c].Closed? && IsSession(w, v, c)
    requires Replay(setup, v.trace) == Some(v.state) && |w.trace| <= n < |v.trace|
    ensures v.trace[n] != Session(c, Crash) && Followed(setup, v.trace, c, n)
  {
    SessionIsSessionOf(w, v, c);
    NoDeathInSession(w, c);
    AliveIsFollowed(setup, v.trace, c, n, v.state);
  }

  // ---- a record that is handled without any trouble ----

  /** Consumer `c` has a record of `e` in hand at this stage, and nothing is prescribed any more: the
      others rest, and every effect succeeds. */
  ghost predicate Undisturbed(w: World, c: nat, p: nat, i: nat, e: EventId, stage: Stage) {
    && Sane(w, c) && w.script == [] && p < |w.state.parts|
    && w.state.consumers[c].Busy? && w.state.consumers[c].p == p && w.state.consumers[c].i == i
    && w.state.consumers[c].rec.event == Some(e) && w.state.consumers[c].stage == stage
  }

  /** A turn then is the fallback, and it leads to the same end. */
  lemma UndisturbedTurn(w: World, c: nat, t: World) returns (v: World)
    requires Sane(w, c) && w.script == [] && !w.state.consumers[c].Closed? && EndsAt(w, t, c, SessionOver)
    ensures Sane(v, c) && v.script == [] && EndsAt(v, t, c, SessionOver)
    ensures
      var step := Fallback(c, Due(w.state.consumers[c], w.state.max));
      Enabled(w.state, step) && v.state == Apply(w.state, step)
  {
    var step := Fallback(c, Due(w.state.consumers[c], w.state.max));
    OwnStepsAreDue(w.state, c, step);
    AfterIsApply(w.state, step);
    v := Turn(w, c);
    EndIsUntil(w, t, c, SessionOver);
    EndIsUntil(v, t, c, SessionOver);
  }

  /** The record is committed, its event done, and what happened before is kept. */
  ghost predicate Finished(s: State, t: State, p: nat, i: nat, e: EventId, mails: multiset<EventId>) {
    && |t.parts| == |s.parts| && p < |t.parts| && t.parts[p].committed == i + 1
    && e in t.store.keys && t.store.keys[e] == Done
    && t.past.sends == s.past.sends + mails && t.past.faults == s.past.faults && t.past.overruns == s.past.overruns
  }

  lemma IdleSessionEnds(w: World, c: nat, t: World)
    requires Sane(w, c) && w.script == [] && w.state.consumers[c].Idle? && EndsAt(w, t, c, SessionOver)
    ensures |t.state.parts| == |w.state.parts| && t.state.store == w.state.store && t.state.past == w.state.past
    ensures forall p :: 0 <= p < |t.state.parts| ==> t.state.parts[p].committed == w.state.parts[p].committed
  {
    var v := UndisturbedTurn(w, c, t);
    assert v.state == SessionEnded(w.state, c);
    EndIsUntil(v, t, c, SessionOver);
    assert t == v;
  }

  lemma HandledIsFinished(w: World, c: nat, p: nat, i: nat, e: EventId, t: World)
    requires Undisturbed(w, c, p, i, e, Handled) && e in w.state.store.keys && w.state.store.keys[e] == Done
    requires EndsAt(w, t, c, SessionOver)
    ensures Finished(w.state, t.state, p, i, e, multiset{})
  {
    var v := UndisturbedTurn(w, c, t);
    assert v.state == Advanced(w.state, c).(consumers := w.state.consumers[c := Idle]);
    IdleSessionEnds(v, c, t);
  }

  lemma PublishedIsFinished(w: World, c: nat, p: nat, i: nat, e: EventId, t: World)
    requires Undisturbed(w, c, p, i, e, Published(true)) && EndsAt(w, t, c, SessionOver)
    ensures Finished(w.state, t.state, p, i, e, multiset{})
  {
    var v := UndisturbedTurn(w, c, t);
    HandledIsFinished(v, c, p, i, e, t);
  }

  lemma MailedIsFinished(w: World, c: nat, p: nat, i: nat, e: EventId, t: World)
    requires Undisturbed(w, c, p, i, e, Mailed) && EndsAt(w, t, c, SessionOver)
    ensures Finished(w.state, t.state, p, i, e, multiset{})
  {
    var v := UndisturbedTurn(w, c, t);
    PublishedIsFinished(v, c, p, i, e, t);
  }

  lemma RunningIsFinished(w: World, c: nat, p: nat, i: nat, e: EventId, t: World)
    requires Undisturbed(w, c, p, i, e, Running) && EndsAt(w, t, c, SessionOver)
    ensures Finished(w.state, t.state, p, i, e, multiset{e})
  {
    var v := UndisturbedTurn(w, c, t);
    MailedIsFinished(v, c, p, i, e, t);
  }

  /** A fetched record whose event nobody has claimed: its mail is sent once, its event is done, and
      at the end of the session the offset after it is committed. */
  lemma UndisturbedRecordIsCommitted(w: World, c: nat, p: nat, i: nat, e: EventId, t: World)
    requires Undisturbed(w, c, p, i, e, Fetched) && !Present(w.state.store, e) && EndsAt(w, t, c, SessionOver)
    ensures Finished(w.state, t.state, p, i, e, multiset{e})
  {
    var v := UndisturbedTurn(w, c, t);
    RunningIsFinished(v, c, p, i, e, t);
  }
}
