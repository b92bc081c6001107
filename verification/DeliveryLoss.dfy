/** At which step an event gets lost, and which steps count as faults. */
module DeliveryLoss {
  import opened Wrappers
  import opened ClaimStore
  import opened Delivery
  import opened DeliveryCommits
  import opened DeliveryNoLoss

  /** An accepted commit at or past every uncommitted record of `e`, when no copy of `e` waits and no
      handler run of it has returned nil. */
  ghost predicate CommitsLastTrace(s: State, step: Step, e: EventId) {
    && step.Session? && step.move.Commit? && step.move.applied && BusyAt(s, step.c)
    && e !in s.past.succeeded && !Waiting(s, e)
    && forall p: nat, i: nat :: Logged(s, p, i, e) && s.parts[p].committed <= i ==>
         p == s.consumers[step.c].p && i <= s.consumers[step.c].i
  }

  /** From `s` to `t` no trace of an event is taken away. */
  ghost predicate TracesKept(s: State, t: State) {
    && s.past.succeeded <= t.past.succeeded
    && s.retry <= t.retry
    && |s.parts| == |t.parts|
    && (forall p :: 0 <= p < |s.parts| ==>
          s.parts[p].log <= t.parts[p].log && t.parts[p].committed <= s.parts[p].committed)
  }

  lemma StaysTraced(s: State, t: State, e: EventId)
    requires TracesKept(s, t) && NotLost(s, e)
    ensures NotLost(t, e)
  {
    if Waiting(s, e) {
      var k :| 0 <= k < |s.retry| && s.retry[k].event == e;
      assert t.retry[k].event == e;
    } else if e !in s.past.succeeded {
      var p: nat, i: nat :| Logged(s, p, i, e) && s.parts[p].committed <= i;
      assert Logged(t, p, i, e);
    }
  }

  lemma MoveTraces(s: State, c: nat, move: Move)
    requires WellFormed(s) && MoveEnabled(s, c, move) && !(move.Commit? && move.applied)
    ensures TracesKept(s, AfterMove(s, c, move))
  {
    var t := AfterMove(s, c, move);
    forall p | 0 <= p < |s.parts|
      ensures |s.parts| == |t.parts| && s.parts[p].log == t.parts[p].log && t.parts[p].committed == s.parts[p].committed
    {
      MoveGrows(s, c, move, p);
      MoveOffset(s, c, move, p);
    }
  }

  lemma RepublishTraces(s: State, k: nat, p: nat, keep: bool, e: EventId)
    requires WellFormed(s) && k < |s.retry| && p < |s.parts| && NotLost(s, e)
    ensures NotLost(Republished(s, k, p, keep), e)
  {
    var t := Republished(s, k, p, keep);
    if e !in s.past.succeeded {
      if s.retry[k].event == e {
        assert Logged(t, p, |s.parts[p].log|, e);
      } else if Waiting(s, e) {
        var j :| 0 <= j < |s.retry| && s.retry[j].event == e;
        assert t.retry[if keep || j < k then j else j - 1].event == e;
      } else {
        var q: nat, i: nat :| Logged(s, q, i, e) && s.parts[q].committed <= i;
        assert Logged(t, q, i, e);
      }
    }
  }

  lemma CommitTraces(s: State, c: nat, ok: bool, e: EventId)
    requires WellFormed(s) && MoveEnabled(s, c, Commit(ok, true)) && NotLost(s, e)
    ensures !NotLost(AfterMove(s, c, Commit(ok, true)), e) <==> CommitsLastTrace(s, Session(c, Commit(ok, true)), e)
  {
    var move := Commit(ok, true);
    var t := AfterMove(s, c, move);
    forall p | 0 <= p < |s.parts|
      ensures |s.parts| == |t.parts| && s.parts[p].log == t.parts[p].log
      ensures t.parts[p].committed == if s.consumers[c].p == p then s.consumers[c].i + 1 else s.parts[p].committed
    {
      MoveGrows(s, c, move, p);
      MoveOffset(s, c, move, p);
    }
    assert t.past.succeeded == s.past.succeeded && t.retry == s.retry;
    forall p: nat, i: nat
      ensures Logged(t, p, i, e) <==> Logged(s, p, i, e)
    {
    }
    if e !in s.past.succeeded && !Waiting(s, e) {
      var p: nat, i: nat :| Logged(s, p, i, e) && s.parts[p].committed <= i;
      assert Logged(t, p, i, e);
    }
  }

  /** An event that still has a trace loses the last one exactly at an accepted commit that passes all
      of its uncommitted records while no copy of it waits and no handler run of it has returned nil. */
  lemma LosesIff(s: State, step: Step, e: EventId)
    requires WellFormed(s) && Enabled(s, step) && NotLost(s, e)
    ensures !NotLost(Apply(s, step), e) <==> CommitsLastTrace(s, step, e)
  {
    match step
    case Session(c, Commit(ok, true)) => CommitTraces(s, c, ok, e);
    case Session(c, move) =>
      MoveTraces(s, c, move);
      StaysTraced(s, Apply(s, step), e);
    case Republish(k, p, keep) => RepublishTraces(s, k, p, keep, e);
    case _ => StaysTraced(s, Apply(s, step), e);
  }

  /** Such a commit is only possible after a claim of the event was left behind, or a partition was
      taken from a reader with a record in hand. */
  lemma LossNeedsFault(setup: Setup, trace: seq<Step>, s: State, step: Step, e: EventId)
    requires Replay(setup, trace) == Some(s) && Enabled(s, step) && NotLost(s, e)
    requires CommitsLastTrace(s, step, e)
    ensures e in s.past.lapses || s.past.split != {}
  {
    LosesIff(s, step, e);
    ReplayExtends(setup, trace, s, step);
    var t := Apply(s, step);
    var p: nat, i: nat :| Logged(s, p, i, e) && s.parts[p].committed <= i;
    MoveGrows(s, step.c, step.move, p);
    assert Logged(t, p, i, e);
    if e !in t.past.lapses && t.past.split == {} {
      NoEventIsLost(setup, trace + [step], t, e);
    }
  }

  // ---- what is counted ----

  /** The steps that leave a claim of `e` behind: its holder dies, its release fails, or a failed claim
      has set the key. */
  ghost predicate LeavesBehind(s: State, step: Step, e: EventId) {
    match step
    case Session(c, move) => move.Crash? && Holds(s.consumers, c, e)
    case Handler(c, act) =>
      && BusyAt(s, c) && s.consumers[c].rec.event == Some(e)
      && (act == Release(false) || (act.ClaimError? && act.left && !Present(s.store, e)))
    case _ => false
  }

  /** The steps after which a mail that was taken has no result or no completed claim. */
  ghost predicate FailsAfterMail(s: State, step: Step, e: EventId) {
    match step
    case Session(c, move) => move.Crash? && BusyAt(s, c) && s.consumers[c].rec.event == Some(e) && MailedStage(s.consumers[c].stage)
    case Handler(c, act) =>
      && BusyAt(s, c) && s.consumers[c].rec.event == Some(e) && MailedStage(s.consumers[c].stage)
      && (act.ReplyError? || act.CompleteError?)
    case _ => false
  }

  /** The steps in which a claim of `e` expires under its handler. */
  ghost predicate Expires(s: State, step: Step, e: EventId) {
    && step.Tick? && e in s.store.keys && s.store.keys[e].Processing?
    && s.store.now < s.store.keys[e].expiry <= s.store.now + step.ms
    && Holds(s.consumers, s.store.keys[e].owner, e)
  }

  /** The steps that take the partition from a reader with one of its records in hand. */
  ghost predicate Splits(s: State, step: Step, p: nat) {
    && step.Revoke? && step.p == p && p < |s.parts| && s.parts[p].reader.Some?
    && var c := s.parts[p].reader.value;
    BusyAt(s, c) && s.consumers[c].p == p
  }

  lemma MoveCounts(s: State, c: nat, move: Move, e: EventId)
    requires WellFormed(s) && MoveEnabled(s, c, move)
    ensures
      var past := AfterMove(s, c, move).past;
      && (e in past.lapses <==> e in s.past.lapses || LeavesBehind(s, Session(c, move), e))
      && past.faults[e] == s.past.faults[e] + (if FailsAfterMail(s, Session(c, move), e) then 1 else 0)
      && past.overruns == s.past.overruns && past.split == s.past.split
  {
  }

  lemma ActCounts(s: State, c: nat, act: Act, e: EventId)
    requires WellFormed(s) && ActEnabled(s, c, act)
    ensures
      var past := AfterAct(s, c, act).past;
      && (e in past.lapses <==> e in s.past.lapses || LeavesBehind(s, Handler(c, act), e))
      && past.faults[e] == s.past.faults[e] + (if FailsAfterMail(s, Handler(c, act), e) then 1 else 0)
      && past.overruns == s.past.overruns && past.split == s.past.split
  {
  }

  /** Nothing else counts as a lapse, a fault, an overrun or a split, and each of these counts once. */
  lemma CountsArePrecise(s: State, step: Step, e: EventId, p: nat)
    requires WellFormed(s) && Enabled(s, step)
    ensures
      var past := Apply(s, step).past;
      && (e in past.lapses <==> e in s.past.lapses || LeavesBehind(s, step, e))
      && past.faults[e] == s.past.faults[e] + (if FailsAfterMail(s, step, e) then 1 else 0)
      && past.overruns[e] == s.past.overruns[e] + (if Expires(s, step, e) then 1 else 0)
      && (p in past.split <==> p in s.past.split || Splits(s, step, p))
  {
    match step
    case Session(c, move) => MoveCounts(s, c, move, e);
    case Handler(c, act) => ActCounts(s, c, act, e);
    case Tick(ms) => assert multiset(Overrun(s, ms))[e] == if e in Overrun(s, ms) then 1 else 0;
    case _ =>
  }
}
