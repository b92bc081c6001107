/** Retries end: the attempts an event has left are used up by fetching it. */
module DeliveryRetries {
  import opened Wrappers
  import opened ClaimStore
  import opened Delivery

  // ---- the attempts in the retry queue ----

  ghost predicate AttemptsInRange(s: State) {
    forall k :: 0 <= k < |s.retry| ==> 2 <= s.retry[k].attempt <= s.max
  }

  ghost predicate RecordsHaveAttempts(s: State) {
    forall p, i :: 0 <= p < |s.parts| && 0 <= i < |s.parts[p].log| ==> s.parts[p].log[i].attempt >= 1
  }

  lemma StepAttempts(s: State, step: Step)
    requires WellFormed(s) && Enabled(s, step) && AttemptsInRange(s) && RecordsHaveAttempts(s)
    ensures AttemptsInRange(Apply(s, step)) && RecordsHaveAttempts(Apply(s, step))
  {
    match step
    case Session(c, move) => MoveAttempts(s, c, move);
    case Republish(k, p, keep) => assert s.retry[k].attempt >= 1;
    case _ =>
  }

  lemma MoveAttempts(s: State, c: nat, move: Move)
    requires WellFormed(s) && MoveEnabled(s, c, move) && AttemptsInRange(s) && RecordsHaveAttempts(s)
    ensures AttemptsInRange(AfterMove(s, c, move)) && RecordsHaveAttempts(AfterMove(s, c, move))
  {
    var t := AfterMove(s, c, move);
    if move.Enqueue? {
      assert InHandIsLogged(s, c);
    }
    assert forall p :: 0 <= p < |s.parts| ==> t.parts[p].log == s.parts[p].log;
  }

  /** Every attempt number that is ever put into the retry queue lies between 2 and the maximum. */
  lemma {:induction false} QueuedAttempts(setup: Setup, trace: seq<Step>)
    requires Replay(setup, trace).Some?
    ensures AttemptsInRange(Replay(setup, trace).value) && RecordsHaveAttempts(Replay(setup, trace).value)
  {
    if trace != [] {
      var s := LastStep(setup, trace);
      QueuedAttempts(setup, trace[..|trace| - 1]);
      StepAttempts(s, trace[|trace| - 1]);
    }
  }

  // ---- remaining attempts ----

  function Sum(xs: seq<nat>): nat {
    if xs == [] then 0 else xs[0] + Sum(xs[1..])
  }

  lemma {:induction false} SumOfParts(xs: seq<nat>, ys: seq<nat>)
    ensures Sum(xs + ys) == Sum(xs) + Sum(ys)
  {
    if xs == [] {
      assert xs + ys == ys;
    } else {
      assert (xs + ys)[1..] == xs[1..] + ys;
      SumOfParts(xs[1..], ys);
    }
  }

  lemma SumAround(xs: seq<nat>, k: nat)
    requires k < |xs|
    ensures Sum(xs) == Sum(xs[..k]) + xs[k] + Sum(xs[k + 1..])
  {
    assert xs == xs[..k] + xs[k..];
    SumOfParts(xs[..k], xs[k..]);
    assert xs[k..][1..] == xs[k + 1..];
  }

  lemma SumWithout(xs: seq<nat>, k: nat)
    requires k < |xs|
    ensures Sum(Without(xs, k)) == Sum(xs) - xs[k]
  {
    SumAround(xs, k);
    SumOfParts(xs[..k], xs[k + 1..]);
  }

  lemma SumUpdated(xs: seq<nat>, k: nat, x: nat)
    requires k < |xs|
    ensures Sum(xs[k := x]) == Sum(xs) - xs[k] + x
  {
    var ys := xs[k := x];
    SumAround(xs, k);
    SumAround(ys, k);
    assert ys[..k] == xs[..k] && ys[k + 1..] == xs[k + 1..];
  }

  lemma {:induction false} SumOrdered(xs: seq<nat>, ys: seq<nat>)
    requires |xs| == |ys| && forall k :: 0 <= k < |xs| ==> xs[k] <= ys[k]
    ensures Sum(xs) <= Sum(ys)
  {
    if xs != [] {
      SumOrdered(xs[1..], ys[1..]);
    }
  }

  /** How often a record of attempt `n` can still be fetched, counting the fetch that is due. */
  function Left(max: nat, n: nat): nat {
    if n < max then max - n + 1 else 1
  }

  function Weights(max: nat, records: seq<Record>, e: EventId): seq<nat> {
    seq(|records|, i requires 0 <= i < |records| =>
      if records[i].event == Some(e) then Left(max, records[i].attempt) else 0)
  }

  /** The records of `e` that the reader of a partition will still fetch. */
  function PartWeight(max: nat, part: Partition, e: EventId): nat {
    if part.reader.Some? && part.pos <= |part.log| then Sum(Weights(max, part.log[part.pos..], e)) else 0
  }

  /** The record in hand has been fetched, and may still be queued for retry. */
  function HandWeight(max: nat, h: Consumer, e: EventId): nat {
    if h.Busy? && h.rec.event == Some(e) && !h.stage.Handled? then Left(max, h.rec.attempt) - 1 else 0
  }

  function PartWeights(s: State, e: EventId): seq<nat> {
    seq(|s.parts|, p requires 0 <= p < |s.parts| => PartWeight(s.max, s.parts[p], e))
  }

  function HandWeights(s: State, e: EventId): seq<nat> {
    seq(|s.consumers|, c requires 0 <= c < |s.consumers| => HandWeight(s.max, s.consumers[c], e))
  }

  function QueueWeights(s: State, e: EventId): seq<nat> {
    seq(|s.retry|, k requires 0 <= k < |s.retry| =>
      if s.retry[k].event == e then Left(s.max, s.retry[k].attempt) else 0)
  }

  /** How often records of `e` can still be fetched as things stand. */
  function Remaining(s: State, e: EventId): nat {
    Sum(PartWeights(s, e)) + Sum(HandWeights(s, e)) + Sum(QueueWeights(s, e))
  }

  /** No new record of `e`, no new reader that would go back to a committed offset, and each copy in
      the retry queue is written to the topic once. */
  predicate Calm(step: Step, e: EventId) {
    && (step.Produce? ==> step.rec.event != Some(e))
    && !step.Assign?
    && (step.Republish? ==> !step.keep)
  }

  lemma PartChanged(s: State, t: State, p: nat, e: EventId)
    requires p < |s.parts| == |t.parts| && t.parts == s.parts[p := t.parts[p]] && t.max == s.max
    ensures Sum(PartWeights(t, e)) == Sum(PartWeights(s, e)) - PartWeight(s.max, s.parts[p], e) + PartWeight(s.max, t.parts[p], e)
  {
    assert PartWeights(t, e) == PartWeights(s, e)[p := PartWeight(s.max, t.parts[p], e)];
    SumUpdated(PartWeights(s, e), p, PartWeight(s.max, t.parts[p], e));
  }

  lemma HandChanged(s: State, t: State, c: nat, e: EventId)
    requires c < |s.consumers| == |t.consumers| && t.consumers == s.consumers[c := t.consumers[c]] && t.max == s.max
    ensures Sum(HandWeights(t, e)) == Sum(HandWeights(s, e)) - HandWeight(s.max, s.consumers[c], e) + HandWeight(s.max, t.consumers[c], e)
  {
    assert HandWeights(t, e) == HandWeights(s, e)[c := HandWeight(s.max, t.consumers[c], e)];
    SumUpdated(HandWeights(s, e), c, HandWeight(s.max, t.consumers[c], e));
  }

  lemma PartsShrink(s: State, t: State, e: EventId)
    requires |s.parts| == |t.parts| && t.max == s.max
    requires forall p :: 0 <= p < |s.parts| ==> PartWeight(s.max, t.parts[p], e) <= PartWeight(s.max, s.parts[p], e)
    ensures Sum(PartWeights(t, e)) <= Sum(PartWeights(s, e))
  {
    SumOrdered(PartWeights(t, e), PartWeights(s, e));
  }

  lemma QueueSame(s: State, t: State, e: EventId)
    requires s.retry == t.retry && s.max == t.max
    ensures QueueWeights(s, e) == QueueWeights(t, e)
  {
  }

  lemma PartsSame(s: State, t: State, e: EventId)
    requires s.parts == t.parts && s.max == t.max
    ensures PartWeights(s, e) == PartWeights(t, e)
  {
  }

  lemma HandsSame(s: State, t: State, e: EventId)
    requires s.consumers == t.consumers && s.max == t.max
    ensures HandWeights(s, e) == HandWeights(t, e)
  {
  }

  lemma ActRemaining(s: State, c: nat, act: Act, e: EventId)
    requires WellFormed(s) && ActEnabled(s, c, act)
    ensures Remaining(AfterAct(s, c, act), e) <= Remaining(s, e)
  {
    var t := AfterAct(s, c, act);
    HandChanged(s, t, c, e);
    QueueSame(s, t, e);
    PartsSame(s, t, e);
  }

  /** Fetching a record of `e` uses up one of its remaining attempts. */
  lemma FetchRemaining(s: State, c: nat, p: nat, e: EventId)
    requires WellFormed(s) && MoveEnabled(s, c, Fetch(p))
    ensures
      var t := Taken(s, c, p);
      Remaining(t, e) + t.past.fetches[e] == Remaining(s, e) + s.past.fetches[e]
  {
    var t := Taken(s, c, p);
    HandChanged(s, t, c, e);
    PartChanged(s, t, p, e);
    QueueSame(s, t, e);
    var part := s.parts[p];
    var before, after := Weights(s.max, part.log[part.pos..], e), Weights(s.max, part.log[part.pos + 1..], e);
    assert before[1..] == after;
  }

  lemma DetachedParts(s: State, t: State, c: nat, e: EventId)
    requires t.parts == Detached(s.parts, c) && t.max == s.max
    ensures Sum(PartWeights(t, e)) <= Sum(PartWeights(s, e))
  {
    PartsShrink(s, t, e);
  }

  lemma QueuedRemaining(s: State, t: State, c: nat, e: EventId)
    requires WellFormed(s) && BusyAt(s, c) && s.consumers[c].rec.event.Some? && s.consumers[c].rec.attempt < s.max
    requires t.retry == Queued(s, c).retry && t.max == s.max && !s.consumers[c].stage.Handled?
    ensures Sum(QueueWeights(t, e)) == Sum(QueueWeights(s, e)) + HandWeight(s.max, s.consumers[c], e)
  {
    var copy := Copy(EventInHand(s, c), s.consumers[c].rec.attempt + 1);
    var w := if copy.event == e then Left(s.max, copy.attempt) else 0;
    assert QueueWeights(t, e) == QueueWeights(s, e) + [w];
    SumOfParts(QueueWeights(s, e), [w]);
  }

  lemma EnqueueRemaining(s: State, c: nat, ok: bool, added: bool, e: EventId)
    requires WellFormed(s) && MoveEnabled(s, c, Enqueue(ok, added))
    ensures Remaining(AfterMove(s, c, Enqueue(ok, added)), e) <= Remaining(s, e)
  {
    var t := AfterMove(s, c, Enqueue(ok, added));
    HandChanged(s, t, c, e);
    if added {
      QueuedRemaining(s, t, c, e);
    } else {
      QueueSame(s, t, e);
    }
    if ok {
      PartsSame(s, t, e);
    } else {
      DetachedParts(s, t, c, e);
    }
  }

  lemma CommitRemaining(s: State, c: nat, ok: bool, applied: bool, e: EventId)
    requires WellFormed(s) && MoveEnabled(s, c, Commit(ok, applied))
    ensures Remaining(AfterMove(s, c, Commit(ok, applied)), e) <= Remaining(s, e)
  {
    var t := AfterMove(s, c, Commit(ok, applied));
    HandChanged(s, t, c, e);
    QueueSame(s, t, e);
    PartsShrink(s, t, e);
  }

  lemma MoveRemaining(s: State, c: nat, move: Move, e: EventId)
    requires WellFormed(s) && MoveEnabled(s, c, move)
    ensures
      var t := AfterMove(s, c, move);
      Remaining(t, e) + t.past.fetches[e] <= Remaining(s, e) + s.past.fetches[e]
  {
    var t := AfterMove(s, c, move);
    match move
    case Fetch(p) => FetchRemaining(s, c, p, e);
    case Enqueue(ok, added) => EnqueueRemaining(s, c, ok, added, e);
    case Commit(ok, applied) => CommitRemaining(s, c, ok, applied, e);
    case Open =>
      HandChanged(s, t, c, e);
      QueueSame(s, t, e);
      PartsSame(s, t, e);
    case _ =>
      HandChanged(s, t, c, e);
      QueueSame(s, t, e);
      DetachedParts(s, t, c, e);
  }

  lemma AppendedRemaining(s: State, t: State, p: nat, rec: Record, e: EventId)
    requires WellFormed(s) && p < |s.parts| && t.max == s.max && t.parts == Appended(s, p, rec).parts
    ensures Sum(PartWeights(t, e)) == Sum(PartWeights(s, e)) +
      if rec.event == Some(e) && s.parts[p].reader.Some? then Left(s.max, rec.attempt) else 0
  {
    PartChanged(s, t, p, e);
    var part := s.parts[p];
    if part.reader.Some? {
      var w := if rec.event == Some(e) then Left(s.max, rec.attempt) else 0;
      assert t.parts[p].log[part.pos..] == part.log[part.pos..] + [rec];
      assert Weights(s.max, t.parts[p].log[part.pos..], e) == Weights(s.max, part.log[part.pos..], e) + [w];
      SumOfParts(Weights(s.max, part.log[part.pos..], e), [w]);
    }
  }

  lemma RepublishRemaining(s: State, k: nat, p: nat, e: EventId)
    requires WellFormed(s) && k < |s.retry| && p < |s.parts|
    ensures Remaining(Republished(s, k, p, false), e) <= Remaining(s, e)
  {
    var t := Republished(s, k, p, false);
    AppendedRemaining(s, t, p, Record(Some(s.retry[k].event), s.retry[k].attempt), e);
    QueueShorter(s, t, k, e);
    HandsSame(s, t, e);
  }

  lemma QueueShorter(s: State, t: State, k: nat, e: EventId)
    requires k < |s.retry| && t.retry == Without(s.retry, k) && t.max == s.max
    ensures Sum(QueueWeights(t, e)) ==
      Sum(QueueWeights(s, e)) - if s.retry[k].event == e then Left(s.max, s.retry[k].attempt) else 0
  {
    assert QueueWeights(t, e) == Without(QueueWeights(s, e), k);
    SumWithout(QueueWeights(s, e), k);
  }

  lemma SurroundingsRemaining(s: State, step: Step, e: EventId)
    requires WellFormed(s) && Enabled(s, step) && Calm(step, e)
    requires step.Produce? || step.Tick? || step.Revoke?
    ensures Remaining(Apply(s, step), e) <= Remaining(s, e)
  {
    var t := Apply(s, step);
    HandsSame(s, t, e);
    QueueSame(s, t, e);
    if step.Produce? {
      AppendedRemaining(s, t, step.p, step.rec, e);
    } else {
      PartsShrink(s, t, e);
    }
  }

  lemma StepRemaining(s: State, step: Step, e: EventId)
    requires WellFormed(s) && Enabled(s, step) && Calm(step, e)
    ensures
      var t := Apply(s, step);
      Remaining(t, e) + t.past.fetches[e] <= Remaining(s, e) + s.past.fetches[e]
  {
    match step
    case Handler(c, act) => ActRemaining(s, c, act, e);
    case Session(c, move) => MoveRemaining(s, c, move, e);
    case Republish(k, p, _) => RepublishRemaining(s, k, p, e);
    case _ => SurroundingsRemaining(s, step, e);
  }

  /** During a calm stretch of a run, with any number of consumers, failures and deaths, fetching
      records of an event uses up its remaining attempts one by one. */
  lemma {:induction false} FetchesAreBounded(setup: Setup, before: seq<Step>, s: State, after: seq<Step>, t: State, e: EventId)
    requires Replay(setup, before) == Some(s) && Replay(setup, before + after) == Some(t)
    requires forall n :: 0 <= n < |after| ==> Calm(after[n], e)
    ensures Remaining(t, e) + t.past.fetches[e] <= Remaining(s, e) + s.past.fetches[e]
    decreases |after|
  {
    if after == [] {
      assert before + after == before;
    } else {
      var n := |after| - 1;
      var u := LastOfRest(setup, before, after);
      FetchesAreBounded(setup, before, s, after[..n], u, e);
      StepRemaining(u, after[n], e);
    }
  }

  /** A new event is fetched, and so handled, at most as often as the maximum allows: a record with
      attempt 1 is produced to a partition with a reader while no other record or copy of the event
      is outstanding, and a calm stretch follows. */
  lemma FreshEventIsHandledAtMostMaxTimes(
      setup: Setup, before: seq<Step>, s: State, p: nat, e: EventId, after: seq<Step>, t: State)
    requires Replay(setup, before) == Some(s) && Remaining(s, e) == 0
    requires p < |s.parts| && s.parts[p].reader.Some? && s.max >= 1
    requires Replay(setup, before + [Produce(p, Record(Some(e), 1))] + after) == Some(t)
    requires forall n :: 0 <= n < |after| ==> Calm(after[n], e)
    ensures t.past.fetches[e] - s.past.fetches[e] <= s.max
  {
    var step := Produce(p, Record(Some(e), 1));
    ReplayExtends(setup, before, s, step);
    var u := Apply(s, step);
    FetchesAreBounded(setup, before + [step], u, after, t, e);
    AppendedRemaining(s, u, p, step.rec, e);
    HandsSame(s, u, e);
    QueueSame(s, u, e);
  }
}
