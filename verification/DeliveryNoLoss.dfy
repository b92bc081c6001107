/** No event is lost: it is handled, still to be fetched again, or waiting in the retry queue. */
module DeliveryNoLoss {
  import opened Wrappers
  import opened ClaimStore
  import opened Delivery
  import opened DeliveryCommits

  ghost predicate Waiting(s: State, e: EventId) {
    exists k :: 0 <= k < |s.retry| && s.retry[k].event == e
  }

  ghost predicate Logged(s: State, p: nat, i: nat, e: EventId) {
    p < |s.parts| && i < |s.parts[p].log| && s.parts[p].log[i].event == Some(e)
  }

  ghost predicate Produced(s: State, e: EventId) {
    exists p: nat, i: nat :: Logged(s, p, i, e)
  }

  /** A handler run of `e` returned nil, or a copy of `e` waits in the retry queue, or a record of
      `e` is not committed. */
  ghost predicate NotLost(s: State, e: EventId) {
    || e in s.past.succeeded
    || Waiting(s, e)
    || exists p: nat, i: nat :: Logged(s, p, i, e) && s.parts[p].committed <= i
  }

  /** The first record of partition `p` that its present reader has not dealt with, or the first
      uncommitted one when there is no reader. */
  function Frontier(s: State, p: nat): nat
    requires p < |s.parts|
  {
    match s.parts[p].reader
    case None => s.parts[p].committed
    case Some(c) =>
      if BusyAt(s, c) && s.consumers[c].p == p && !s.consumers[c].stage.Handled? then s.consumers[c].i
      else s.parts[p].pos
  }

  ghost predicate Awaited(s: State, p: nat, i: nat, e: EventId) {
    Logged(s, p, i, e) && Frontier(s, p) <= i
  }

  /** Like `NotLost`, without relying on records that a reader has skipped over. */
  ghost predicate Safe(s: State, e: EventId) {
    || e in s.past.succeeded
    || Waiting(s, e)
    || exists p: nat, i: nat :: Awaited(s, p, i, e)
  }

  /** A key that refuses claims belongs to an event that succeeded or is in the hands of a consumer. */
  ghost predicate KeyHeld(s: State, e: EventId) {
    e !in s.past.lapses && Present(s.store, e) ==>
      e in s.past.succeeded || exists c :: 0 <= c < |s.consumers| && Holds(s.consumers, c, e)
  }

  ghost predicate PublishedSucceeded(s: State) {
    forall c :: 0 <= c < |s.consumers| && s.consumers[c].Busy? && s.consumers[c].stage.Published? ==>
      s.consumers[c].rec.event.Some? && s.consumers[c].rec.event.value in s.past.succeeded
  }

  ghost predicate Kept(s: State, e: EventId) {
    && PublishedSucceeded(s)
    && KeyHeld(s, e)
    && (s.past.split == {} && e !in s.past.lapses && Produced(s, e) ==> Safe(s, e))
  }

  // ---- keys ----

  lemma ActKeyHeld(s: State, c: nat, act: Act, e: EventId)
    requires WellFormed(s) && ActEnabled(s, c, act) && PublishedSucceeded(s) && KeyHeld(s, e)
    ensures PublishedSucceeded(AfterAct(s, c, act)) && KeyHeld(AfterAct(s, c, act), e)
  {
    var t := AfterAct(s, c, act);
    if e !in t.past.lapses && Present(t.store, e) && e !in t.past.succeeded {
      if Present(s.store, e) {
        var d :| 0 <= d < |s.consumers| && Holds(s.consumers, d, e);
        assert Holds(t.consumers, d, e);
      } else {
        assert Holds(t.consumers, c, e);
      }
    }
  }

  lemma MoveKeyHeld(s: State, c: nat, move: Move, e: EventId)
    requires WellFormed(s) && MoveEnabled(s, c, move) && PublishedSucceeded(s) && KeyHeld(s, e)
    ensures PublishedSucceeded(AfterMove(s, c, move)) && KeyHeld(AfterMove(s, c, move), e)
  {
    var t := AfterMove(s, c, move);
    MoveKeepsOthers(s, c, move);
    if e !in t.past.lapses && Present(t.store, e) && e !in t.past.succeeded {
      var d :| 0 <= d < |s.consumers| && Holds(s.consumers, d, e);
      if d == c {
        HolderDying(s, c, move, e);
      }
      assert Holds(t.consumers, d, e);
    }
  }

  lemma MoveKeepsOthers(s: State, c: nat, move: Move)
    requires WellFormed(s) && MoveEnabled(s, c, move)
    ensures
      var t := AfterMove(s, c, move);
      && t.store == s.store && t.past.succeeded == s.past.succeeded && s.past.lapses <= t.past.lapses
      && |t.consumers| == |s.consumers| && (t.consumers[c].Busy? ==> t.consumers[c].stage.Fetched?)
      && forall d :: 0 <= d < |s.consumers| && d != c ==> t.consumers[d] == s.consumers[d]
  {
  }

  /** Between claim and release the only move of a consumer is to die. */
  lemma HolderDying(s: State, c: nat, move: Move, e: EventId)
    requires WellFormed(s) && MoveEnabled(s, c, move) && Holds(s.consumers, c, e)
    ensures e in AfterMove(s, c, move).past.lapses
  {
  }

  // ---- coverage ----

  /** From `s` to `t` nothing that covers an event is taken away. */
  ghost predicate CoverGrows(s: State, t: State) {
    && s.past.succeeded <= t.past.succeeded
    && s.retry <= t.retry
    && |s.parts| == |t.parts|
    && (forall p :: 0 <= p < |s.parts| ==> s.parts[p].log <= t.parts[p].log && Frontier(t, p) <= Frontier(s, p))
  }

  lemma SafeKept(s: State, t: State, e: EventId)
    requires CoverGrows(s, t) && Safe(s, e)
    ensures Safe(t, e)
  {
    if Waiting(s, e) {
      var k :| 0 <= k < |s.retry| && s.retry[k].event == e;
      assert t.retry[k].event == e;
    } else if e !in s.past.succeeded {
      var p: nat, i: nat :| Awaited(s, p, i, e);
      assert Awaited(t, p, i, e);
    }
  }

  /** The record in hand is left behind; every other event keeps its cover. */
  lemma SafeBehind(s: State, t: State, c: nat, e: EventId)
    requires WellFormed(s) && OneReaderUnlessSplit(s) && s.past.split == {}
    requires BusyAt(s, c) && s.consumers[c].rec.event != Some(e) && Safe(s, e)
    requires s.past.succeeded <= t.past.succeeded && s.retry <= t.retry && t.parts == s.parts
    requires |t.consumers| == |s.consumers| && t.consumers == s.consumers[c := t.consumers[c]]
    requires t.consumers[c].Idle? || (t.consumers[c].Busy? && t.consumers[c].stage.Handled?)
    ensures Safe(t, e)
  {
    if Waiting(s, e) {
      var k :| 0 <= k < |s.retry| && s.retry[k].event == e;
      assert t.retry[k].event == e;
    } else if e !in s.past.succeeded {
      var p: nat, i: nat :| Awaited(s, p, i, e);
      var h := s.consumers[c];
      assert OneReader(s, h.p) && OneReader(s, p);
      assert p == h.p ==> i != h.i;
      assert Awaited(t, p, i, e);
    }
  }

  lemma EndingCoverGrows(s: State, t: State, c: nat)
    requires WellFormed(s) && OneReaderUnlessSplit(s) && s.past.split == {} && c < |s.consumers|
    requires s.past.succeeded <= t.past.succeeded && s.retry <= t.retry
    requires t.parts == Detached(s.parts, c) && t.consumers == s.consumers[c := Closed]
    ensures CoverGrows(s, t)
  {
    forall p | 0 <= p < |s.parts|
      ensures Frontier(t, p) <= Frontier(s, p)
    {
      assert OneReader(s, p);
    }
  }

  lemma ActSafe(s: State, c: nat, act: Act, e: EventId)
    requires WellFormed(s) && OneReaderUnlessSplit(s) && s.past.split == {} && ActEnabled(s, c, act)
    requires PublishedSucceeded(s) && KeyHeld(s, e) && e !in s.past.lapses && Safe(s, e)
    ensures Safe(AfterAct(s, c, act), e)
  {
    var t := AfterAct(s, c, act);
    if !StageAfter(s, c, act).Handled? {
      assert forall p :: 0 <= p < |s.parts| ==> Frontier(t, p) == Frontier(s, p);
      SafeKept(s, t, e);
    } else if s.consumers[c].rec.event != Some(e) {
      SafeBehind(s, t, c, e);
    } else if act.Claim? && e !in s.past.succeeded {
      RefusedIsSafe(s, c, e);
    }
  }

  /** A refused claim leaves the event to the consumer whose key refused it. */
  lemma RefusedIsSafe(s: State, c: nat, e: EventId)
    requires WellFormed(s) && OneReaderUnlessSplit(s) && s.past.split == {} && ActEnabled(s, c, Claim)
    requires KeyHeld(s, e) && e !in s.past.lapses && e !in s.past.succeeded
    requires s.consumers[c].rec.event == Some(e) && Present(s.store, e)
    ensures Safe(AfterAct(s, c, Claim), e)
  {
    var t := AfterAct(s, c, Claim);
    var d :| 0 <= d < |s.consumers| && Holds(s.consumers, d, e);
    assert InHandIsLogged(s, d);
    var h := s.consumers[d];
    assert OneReader(s, h.p);
    assert t.consumers[d] == h;
    assert Awaited(t, h.p, h.i, e);
  }

  lemma MoveSafe(s: State, c: nat, move: Move, e: EventId)
    requires WellFormed(s) && OneReaderUnlessSplit(s) && s.past.split == {} && MoveEnabled(s, c, move)
    requires Safe(s, e)
    ensures Safe(AfterMove(s, c, move), e)
  {
    var t := AfterMove(s, c, move);
    match move
    case Open =>
      assert forall p :: 0 <= p < |s.parts| ==> Frontier(t, p) == Frontier(s, p);
      SafeKept(s, t, e);
    case Fetch(p) =>
      FetchKeepsFrontier(s, c, p);
      SafeKept(s, t, e);
    case Enqueue(ok, added) => EnqueueSafe(s, c, ok, added, e);
    case Commit(ok, applied) => CommitSafe(s, c, ok, applied, e);
    case _ =>
      EndingCoverGrows(s, t, c);
      SafeKept(s, t, e);
  }

  lemma FetchKeepsFrontier(s: State, c: nat, p: nat)
    requires WellFormed(s) && MoveEnabled(s, c, Fetch(p))
    ensures CoverGrows(s, Taken(s, c, p))
  {
  }

  lemma EnqueueSafe(s: State, c: nat, ok: bool, added: bool, e: EventId)
    requires WellFormed(s) && OneReaderUnlessSplit(s) && s.past.split == {}
    requires MoveEnabled(s, c, Enqueue(ok, added)) && Safe(s, e)
    ensures Safe(AfterMove(s, c, Enqueue(ok, added)), e)
  {
    var t := AfterMove(s, c, Enqueue(ok, added));
    if !ok {
      EndingCoverGrows(s, t, c);
      SafeKept(s, t, e);
    } else if s.consumers[c].rec.event == Some(e) {
      assert t.retry[|s.retry|].event == e;
    } else {
      SafeBehind(s, t, c, e);
    }
  }

  lemma CommitSafe(s: State, c: nat, ok: bool, applied: bool, e: EventId)
    requires WellFormed(s) && OneReaderUnlessSplit(s) && s.past.split == {}
    requires MoveEnabled(s, c, Commit(ok, applied)) && Safe(s, e)
    ensures Safe(AfterMove(s, c, Commit(ok, applied)), e)
  {
    var t := AfterMove(s, c, Commit(ok, applied));
    assert OneReader(s, s.consumers[c].p);
    forall p | 0 <= p < |s.parts|
      ensures t.parts[p].log == s.parts[p].log && Frontier(t, p) <= Frontier(s, p)
    {
      assert OneReader(s, p);
    }
    SafeKept(s, t, e);
  }

  lemma RepublishSafe(s: State, k: nat, p: nat, keep: bool, e: EventId)
    requires WellFormed(s) && k < |s.retry| && p < |s.parts| && Safe(s, e)
    ensures Safe(Republished(s, k, p, keep), e)
  {
    var t := Republished(s, k, p, keep);
    assert forall q :: 0 <= q < |s.parts| ==> Frontier(t, q) == Frontier(s, q);
    AppendedIsAwaited(s, p);
    if e !in s.past.succeeded {
      if s.retry[k].event == e {
        assert Awaited(t, p, |s.parts[p].log|, e);
      } else if Waiting(s, e) {
        var j :| 0 <= j < |s.retry| && s.retry[j].event == e;
        assert t.retry[if keep || j < k then j else j - 1].event == e;
      } else {
        var q: nat, i: nat :| Awaited(s, q, i, e);
        assert Awaited(t, q, i, e);
      }
    }
  }

  lemma AppendedIsAwaited(s: State, p: nat)
    requires WellFormed(s) && p < |s.parts|
    ensures Frontier(s, p) <= |s.parts[p].log|
  {
  }

  lemma SurroundingsSafe(s: State, step: Step, e: EventId)
    requires WellFormed(s) && OneReaderUnlessSplit(s) && s.past.split == {}
    requires Enabled(s, step) && !step.Handler? && !step.Session? && !step.Republish? && Safe(s, e)
    ensures Safe(Apply(s, step), e)
  {
    var t := Apply(s, step);
    forall p | 0 <= p < |s.parts|
      ensures s.parts[p].log <= t.parts[p].log && Frontier(t, p) <= Frontier(s, p)
    {
      assert OneReader(s, p);
    }
    SafeKept(s, t, e);
  }

  /** Events become produced by `Produce` only, and then they are awaited. */
  lemma NewlyProduced(s: State, step: Step, e: EventId)
    requires WellFormed(s) && Enabled(s, step) && Produced(Apply(s, step), e) && !Produced(s, e)
    requires OneReaderUnlessSplit(s)
    ensures Safe(Apply(s, step), e)
  {
    var t := Apply(s, step);
    var p: nat, i: nat :| Logged(t, p, i, e);
    if step.Session? {
      MoveGrows(s, step.c, step.move, p);
    }
    assert !Logged(s, p, i, e);
    assert (step.Produce? || step.Republish?) && step.p == p && i == |s.parts[p].log|;
    AppendedIsAwaited(s, p);
    assert Frontier(t, p) == Frontier(s, p);
    assert Awaited(t, p, i, e);
  }

  lemma StepKept(s: State, step: Step, e: EventId)
    requires WellFormed(s) && OneReaderUnlessSplit(s) && Kept(s, e) && Enabled(s, step)
    ensures Kept(Apply(s, step), e)
  {
    var t := Apply(s, step);
    if step.Handler? {
      ActKeyHeld(s, step.c, step.act, e);
    } else if step.Session? {
      MoveKeyHeld(s, step.c, step.move, e);
    }
    PastGrows(s, step);
    if t.past.split == {} && e !in t.past.lapses && Produced(t, e) {
      if !Produced(s, e) {
        NewlyProduced(s, step, e);
      } else {
        StepSafe(s, step, e);
      }
    }
  }

  lemma PastGrows(s: State, step: Step)
    requires WellFormed(s) && Enabled(s, step)
    ensures s.past.split <= Apply(s, step).past.split && s.past.lapses <= Apply(s, step).past.lapses
  {
  }

  lemma StepSafe(s: State, step: Step, e: EventId)
    requires WellFormed(s) && OneReaderUnlessSplit(s) && s.past.split == {} && Enabled(s, step)
    requires PublishedSucceeded(s) && KeyHeld(s, e) && e !in s.past.lapses && Safe(s, e)
    ensures Safe(Apply(s, step), e)
  {
    match step
    case Handler(c, act) => ActSafe(s, c, act, e);
    case Session(c, move) => MoveSafe(s, c, move, e);
    case Republish(k, p, keep) => RepublishSafe(s, k, p, keep, e);
    case _ => SurroundingsSafe(s, step, e);
  }

  lemma {:induction false} RunKept(setup: Setup, trace: seq<Step>, e: EventId)
    requires Replay(setup, trace).Some?
    ensures Kept(Replay(setup, trace).value, e)
  {
    if trace != [] {
      var s := LastStep(setup, trace);
      RunKept(setup, trace[..|trace| - 1], e);
      RunOneReader(setup, trace[..|trace| - 1]);
      StepKept(s, trace[|trace| - 1], e);
    }
  }

  /** In every reachable state in which no partition was taken from a reader with a record in hand,
      and for every produced event whose claims were never left behind by a fault (a failed release,
      a failed claim that set its key, a dead holder): a handler run of the event returned nil, or a
      copy waits in the retry queue, or a record of it is not committed. Refused claims are committed
      and retried records are skipped, and claims may expire under their handlers. */
  lemma NoEventIsLost(setup: Setup, trace: seq<Step>, s: State, e: EventId)
    requires Replay(setup, trace) == Some(s)
    requires Produced(s, e) && e !in s.past.lapses && s.past.split == {}
    ensures NotLost(s, e)
  {
    RunKept(setup, trace, e);
    RunOneReader(setup, trace);
    SafeIsNotLost(s, e);
  }

  lemma SafeIsNotLost(s: State, e: EventId)
    requires WellFormed(s) && OneReaderUnlessSplit(s) && s.past.split == {} && Safe(s, e)
    ensures NotLost(s, e)
  {
    if e !in s.past.succeeded && !Waiting(s, e) {
      var p: nat, i: nat :| Awaited(s, p, i, e);
      assert OneReader(s, p);
      assert s.parts[p].committed <= Frontier(s, p);
    }
  }
}
