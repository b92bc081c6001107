/** What the claims are worth: who runs a handler, and how often the mail of an event is taken. */
module DeliveryClaims {
  import opened Wrappers
  import opened ClaimStore
  import opened Delivery

  // ---- mutual exclusion ----

  /** The claim of `c` on `e` is in the store, under the name of `c`, and has not expired. */
  ghost predicate BackedBy(s: State, c: nat, e: EventId) {
    && e in s.store.keys && s.store.keys[e].Processing?
    && s.store.keys[e].owner == c && s.store.now < s.store.keys[e].expiry
  }

  /** As long as no claim of `e` has expired under a running handler, every running handler of `e`
      is backed by its own claim. */
  ghost predicate Exclusive(s: State, e: EventId) {
    s.past.overruns[e] == 0 ==>
      forall c :: 0 <= c < |s.consumers| && Holds(s.consumers, c, e) ==> BackedBy(s, c, e)
  }

  lemma ActExclusive(s: State, c: nat, act: Act, e: EventId)
    requires WellFormed(s) && Exclusive(s, e) && ActEnabled(s, c, act)
    ensures Exclusive(AfterAct(s, c, act), e)
  {
    var t := AfterAct(s, c, act);
    forall d | 0 <= d < |t.consumers| && Holds(t.consumers, d, e) && t.past.overruns[e] == 0
      ensures BackedBy(t, d, e)
    {
      if d != c {
        assert Holds(s.consumers, d, e);
        assert BackedBy(s, d, e);
        if EventInHand(s, c) == e {
          assert Holds(s.consumers, c, e) ==> BackedBy(s, c, e);
        }
      } else if !act.Claim? {
        assert Holds(s.consumers, c, e);
      }
    }
  }

  lemma OtherExclusive(s: State, step: Step, e: EventId)
    requires WellFormed(s) && Exclusive(s, e) && Enabled(s, step) && !step.Handler? && !step.Tick?
    ensures Exclusive(Apply(s, step), e)
  {
    var t := Apply(s, step);
    HandsOnlyEmptied(s, step);
    forall d | 0 <= d < |t.consumers| && Holds(t.consumers, d, e) && t.past.overruns[e] == 0
      ensures BackedBy(t, d, e)
    {
      assert Holds(s.consumers, d, e);
    }
  }

  /** Outside the handler no claim is made, and the store is not touched. */
  lemma HandsOnlyEmptied(s: State, step: Step)
    requires WellFormed(s) && Enabled(s, step) && !step.Handler? && !step.Tick?
    ensures
      var t := Apply(s, step);
      && t.store == s.store && |t.consumers| == |s.consumers|
      && t.past.overruns == s.past.overruns && t.past.sends == s.past.sends
      && (forall d :: 0 <= d < |t.consumers| ==>
            t.consumers[d] == s.consumers[d] || (step.Session? && d == step.c && !HoldsSome(t.consumers[d])))
  {
    if step.Session? {
      MoveEffect(s, step.c, step.move);
    }
  }

  predicate HoldsSome(h: Consumer) {
    h.Busy? && HoldsClaim(h.stage)
  }

  /** A move of the session loop leaves its consumer without a claim; a mail it had taken without
      completing its claim becomes a fault. */
  lemma MoveEffect(s: State, c: nat, move: Move)
    requires WellFormed(s) && MoveEnabled(s, c, move)
    ensures
      var t := AfterMove(s, c, move);
      && c < |t.consumers| && t.consumers == s.consumers[c := t.consumers[c]] && !HoldsSome(t.consumers[c])
      && t.store == s.store && t.past.sends == s.past.sends && t.past.overruns == s.past.overruns
      && t.past.faults == s.past.faults +
           if HoldsSome(s.consumers[c]) && MailedStage(s.consumers[c].stage) then multiset{EventInHand(s, c)} else multiset{}
  {
  }

  lemma TickExclusive(s: State, ms: nat, e: EventId)
    requires WellFormed(s) && Exclusive(s, e)
    ensures Exclusive(Ticked(s, ms), e)
  {
    var t := Ticked(s, ms);
    forall d | 0 <= d < |t.consumers| && Holds(t.consumers, d, e) && t.past.overruns[e] == 0
      ensures BackedBy(t, d, e)
    {
      assert Holds(s.consumers, d, e) && BackedBy(s, d, e);
      assert e !in Overrun(s, ms);
    }
  }

  lemma StepExclusive(s: State, step: Step, e: EventId)
    requires WellFormed(s) && Exclusive(s, e) && Enabled(s, step)
    ensures Exclusive(Apply(s, step), e)
  {
    match step
    case Handler(c, act) => ActExclusive(s, c, act, e);
    case Tick(ms) => TickExclusive(s, ms, e);
    case _ => OtherExclusive(s, step, e);
  }

  lemma {:induction false} RunExclusive(setup: Setup, trace: seq<Step>, e: EventId)
    requires Replay(setup, trace).Some?
    ensures Exclusive(Replay(setup, trace).value, e)
  {
    if trace != [] {
      var s := LastStep(setup, trace);
      RunExclusive(setup, trace[..|trace| - 1], e);
      StepExclusive(s, trace[|trace| - 1], e);
    }
  }

  /** While no claim of an event has expired under its handler, at most one consumer is between
      claiming and completing or releasing that event; its own unexpired claim is in the store, and
      nobody is there once the event is done. Consumers may die at any point. */
  lemma AtMostOneHandler(setup: Setup, trace: seq<Step>, s: State, e: EventId, c: nat, d: nat)
    requires Replay(setup, trace) == Some(s) && s.past.overruns[e] == 0
    requires Holds(s.consumers, c, e) && Holds(s.consumers, d, e)
    ensures c == d && BackedBy(s, c, e) && s.store.keys[e] != Done
  {
    RunExclusive(setup, trace, e);
  }

  // ---- done is final ----

  /** A done event stays done, its handler is not started again, and no mail is taken for it. */
  lemma DoneStep(s: State, step: Step, e: EventId)
    requires WellFormed(s) && Enabled(s, step) && Exclusive(s, e)
    requires Apply(s, step).past.overruns[e] == 0
    requires e in s.store.keys && s.store.keys[e] == Done
    ensures
      var t := Apply(s, step);
      && e in t.store.keys && t.store.keys[e] == Done
      && t.past.sends[e] == s.past.sends[e]
      && (forall c :: 0 <= c < |t.consumers| ==> !Holds(t.consumers, c, e))
  {
    OverrunsGrow(s, step, e);
    StepExclusive(s, step, e);
    var t := Apply(s, step);
    if step.Handler? {
      assert Holds(s.consumers, step.c, e) ==> BackedBy(s, step.c, e);
    } else if !step.Tick? {
      HandsOnlyEmptied(s, step);
    }
    forall c | 0 <= c < |t.consumers|
      ensures !Holds(t.consumers, c, e)
    {
      assert Holds(t.consumers, c, e) ==> BackedBy(t, c, e);
    }
  }

  lemma OverrunsGrow(s: State, step: Step, e: EventId)
    requires WellFormed(s) && Enabled(s, step)
    ensures s.past.overruns[e] <= Apply(s, step).past.overruns[e]
  {
    if !step.Handler? && !step.Tick? {
      HandsOnlyEmptied(s, step);
    }
  }

  lemma {:induction false} DoneIsFinal(setup: Setup, before: seq<Step>, s: State, after: seq<Step>, t: State, e: EventId)
    requires Replay(setup, before) == Some(s) && Replay(setup, before + after) == Some(t)
    requires e in s.store.keys && s.store.keys[e] == Done && t.past.overruns[e] == 0
    ensures e in t.store.keys && t.store.keys[e] == Done
    ensures t.past.sends[e] == s.past.sends[e]
    ensures forall c :: 0 <= c < |t.consumers| ==> !Holds(t.consumers, c, e)
    decreases |after|
  {
    RunExclusive(setup, before + after, e);
    if after == [] {
      assert before + after == before;
      forall c | 0 <= c < |t.consumers|
        ensures !Holds(t.consumers, c, e)
      {
        assert Holds(t.consumers, c, e) ==> BackedBy(t, c, e);
      }
    } else {
      var n := |after| - 1;
      var u := LastOfRest(setup, before, after);
      var step := after[n];
      OverrunsGrow(u, step, e);
      DoneIsFinal(setup, before, s, after[..n], u, e);
      RunExclusive(setup, before + after[..n], e);
      DoneStep(u, step, e);
    }
  }

  // ---- how often the mail of an event is taken ----

  /** A running handler of `e` that may still be followed by another mail for `e`: it has not sent
      one itself, or its result was lost and it is about to release the claim. */
  predicate Token(h: Consumer, e: EventId) {
    h.Busy? && h.rec.event == Some(e) && HoldsClaim(h.stage) && !MailedStage(h.stage)
  }

  function Tokens(consumers: seq<Consumer>, e: EventId): set<nat> {
    set c: nat | c < |consumers| && Token(consumers[c], e)
  }

  /** The store keeps others from claiming `e`, and will not stop doing so by itself except by an
      expiry under a running handler. */
  predicate Guarded(s: State, e: EventId) {
    && e in s.store.keys
    && (s.store.keys[e].Done? ||
         (s.store.now < s.store.keys[e].expiry && Holds(s.consumers, s.store.keys[e].owner, e)))
  }

  /** How many more mails the present state may lead to without a further fault. */
  function Spare(s: State, e: EventId): nat {
    |Tokens(s.consumers, e)| + if Guarded(s, e) then 0 else 1
  }

  ghost predicate Budget(s: State, e: EventId) {
    s.past.sends[e] + Spare(s, e) <= 1 + s.past.faults[e] + s.past.overruns[e]
  }

  lemma TokensAfter(consumers: seq<Consumer>, c: nat, h: Consumer, e: EventId)
    requires c < |consumers|
    ensures |Tokens(consumers[c := h], e)| ==
      |Tokens(consumers, e)| - (if Token(consumers[c], e) then 1 else 0) + (if Token(h, e) then 1 else 0)
  {
    var before, after := Tokens(consumers, e), Tokens(consumers[c := h], e);
    var rest := before - {c};
    assert rest == after - {c};
    assert before == if Token(consumers[c], e) then rest + {c} else rest;
    assert after == if Token(h, e) then rest + {c} else rest;
  }

  lemma ActBudget(s: State, c: nat, act: Act, e: EventId)
    requires WellFormed(s) && Budget(s, e) && ActEnabled(s, c, act)
    ensures Budget(AfterAct(s, c, act), e)
  {
    var t := AfterAct(s, c, act);
    TokensAfter(s.consumers, c, t.consumers[c], e);
    if EventInHand(s, c) == e {
      OwnActBudget(s, c, act, e);
    } else {
      assert Guarded(t, e) == Guarded(s, e);
    }
  }

  /** The effect of an act on its own event: what it spends it had, or it is a counted fault. */
  lemma OwnActBudget(s: State, c: nat, act: Act, e: EventId)
    requires WellFormed(s) && ActEnabled(s, c, act) && EventInHand(s, c) == e
    ensures
      var t := AfterAct(s, c, act);
      t.past.sends[e] + (if Guarded(t, e) then 0 else 1) + (if Token(t.consumers[c], e) then 1 else 0) + s.past.faults[e]
      <= s.past.sends[e] + (if Guarded(s, e) then 0 else 1) + (if Token(s.consumers[c], e) then 1 else 0) + t.past.faults[e]
  {
  }

  lemma TickBudget(s: State, ms: nat, e: EventId)
    requires WellFormed(s) && Budget(s, e)
    ensures Budget(Ticked(s, ms), e)
  {
    var t := Ticked(s, ms);
    if Guarded(s, e) && !Guarded(t, e) {
      assert e in Overrun(s, ms);
      assert multiset(Overrun(s, ms))[e] == 1;
    }
  }

  lemma MoveBudget(s: State, c: nat, move: Move, e: EventId)
    requires WellFormed(s) && Budget(s, e) && MoveEnabled(s, c, move)
    ensures Budget(AfterMove(s, c, move), e)
  {
    var t := AfterMove(s, c, move);
    MoveEffect(s, c, move);
    TokensAfter(s.consumers, c, t.consumers[c], e);
    if !Holds(s.consumers, c, e) {
      assert Guarded(t, e) == Guarded(s, e);
    }
  }

  lemma StepBudget(s: State, step: Step, e: EventId)
    requires WellFormed(s) && Budget(s, e) && Enabled(s, step)
    ensures Budget(Apply(s, step), e)
  {
    match step
    case Handler(c, act) => ActBudget(s, c, act, e);
    case Tick(ms) => TickBudget(s, ms, e);
    case Session(c, move) => MoveBudget(s, c, move, e);
    case _ =>
      assert Guarded(Apply(s, step), e) == Guarded(s, e);
  }

  lemma {:induction false} RunBudget(setup: Setup, trace: seq<Step>, e: EventId)
    requires Replay(setup, trace).Some?
    ensures Budget(Replay(setup, trace).value, e)
  {
    if trace == [] {
      assert Tokens(Initial(setup).consumers, e) == {};
    } else {
      var s := LastStep(setup, trace);
      RunBudget(setup, trace[..|trace| - 1], e);
      StepBudget(s, trace[|trace| - 1], e);
    }
  }

  /** In every run the mail of an event is taken at most once, plus once for every failure after a
      mail (result not published, claim not completed, consumer died) and once for every claim that
      expired under its handler. Duplicate records, failed or repeated commits, reconnects, retries,
      reassigned partitions and lost claims never add to that. */
  lemma MailsAreBounded(setup: Setup, trace: seq<Step>, s: State, e: EventId)
    requires Replay(setup, trace) == Some(s)
    ensures s.past.sends[e] <= 1 + s.past.faults[e] + s.past.overruns[e]
  {
    RunBudget(setup, trace, e);
  }
}
