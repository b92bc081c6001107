/** Commit soundness: what lies below a committed offset, and when an offset can move. */
module DeliveryCommits {
  import opened Wrappers
  import opened ClaimStore
  import opened Delivery

  ghost predicate Holding(s: State, c: nat, p: nat, i: nat) {
    BusyAt(s, c) && s.consumers[c].p == p && s.consumers[c].i == i
  }

  /** Below a committed offset, below the record in hand, and below the position of a reader except
      for the record in hand, everything is settled; only records with an event ever are. */
  ghost predicate Sound(s: State) {
    && (forall p, i :: 0 <= p < |s.parts| && 0 <= i < s.parts[p].committed ==> (p, i) in s.past.settled)
    && (forall p, i :: 0 <= p < |s.parts| && s.parts[p].reader.Some? && 0 <= i < s.parts[p].pos ==>
          (p, i) in s.past.settled || Holding(s, s.parts[p].reader.value, p, i))
    && (forall c :: 0 <= c < |s.consumers| && s.consumers[c].Busy? ==> SettledBelow(s, s.consumers[c]))
    && (forall p, i :: (p, i) in s.past.settled ==> HasEvent(s, p, i))
  }

  ghost predicate SettledBelow(s: State, h: Consumer)
    requires h.Busy?
  {
    && (forall j :: 0 <= j < h.i ==> (h.p, j) in s.past.settled)
    && (h.stage.Handled? ==> (h.p, h.i) in s.past.settled)
  }

  ghost predicate HasEvent(s: State, p: nat, i: nat) {
    p < |s.parts| && i < |s.parts[p].log| && s.parts[p].log[i].event.Some?
  }

  lemma SessionEndedSound(s: State, c: nat)
    requires WellFormed(s) && Sound(s) && c < |s.consumers|
    ensures Sound(SessionEnded(s, c))
  {
    var t := SessionEnded(s, c);
    forall p, i | 0 <= p < |t.parts| && t.parts[p].reader.Some? && 0 <= i < t.parts[p].pos
      ensures (p, i) in t.past.settled || Holding(t, t.parts[p].reader.value, p, i)
    {
      assert (p, i) in s.past.settled || Holding(s, s.parts[p].reader.value, p, i);
    }
  }

  lemma TakenSound(s: State, c: nat, p: nat)
    requires WellFormed(s) && Sound(s) && MoveEnabled(s, c, Fetch(p))
    ensures Sound(Taken(s, c, p))
  {
    var t := Taken(s, c, p);
    forall q, i | 0 <= q < |t.parts| && t.parts[q].reader.Some? && 0 <= i < t.parts[q].pos
      ensures (q, i) in t.past.settled || Holding(t, t.parts[q].reader.value, q, i)
    {
      if i < s.parts[q].pos {
        assert (q, i) in s.past.settled || Holding(s, s.parts[q].reader.value, q, i);
      }
    }
  }

  /** Leaving the record in hand behind is sound once it is settled. */
  lemma IdleSound(s: State, c: nat)
    requires WellFormed(s) && Sound(s) && BusyAt(s, c) && InHand(s, c) in s.past.settled
    ensures Sound(s.(consumers := s.consumers[c := Idle]))
  {
    var t := s.(consumers := s.consumers[c := Idle]);
    forall p, i | 0 <= p < |t.parts| && t.parts[p].reader.Some? && 0 <= i < t.parts[p].pos
      ensures (p, i) in t.past.settled || Holding(t, t.parts[p].reader.value, p, i)
    {
      assert (p, i) in s.past.settled || Holding(s, s.parts[p].reader.value, p, i);
    }
  }

  lemma MoveSound(s: State, c: nat, move: Move)
    requires WellFormed(s) && Sound(s) && MoveEnabled(s, c, move)
    ensures Sound(AfterMove(s, c, move))
  {
    match move
    case Open =>
    case Fetch(p) => TakenSound(s, c, p);
    case Enqueue(ok, added) => EnqueueSound(s, c, ok, added);
    case Commit(ok, applied) => CommitSound(s, c, ok, applied);
    case _ => EndingSound(s, c, move);
  }

  lemma EndingSound(s: State, c: nat, move: Move)
    requires WellFormed(s) && Sound(s) && MoveEnabled(s, c, move)
    requires move.FetchError? || move.DeadLetter? || move.Crash?
    ensures Sound(AfterMove(s, c, move))
  {
    SessionEndedSound(s, c);
    assert AfterMove(s, c, move).past.settled == s.past.settled;
    assert AfterMove(s, c, move).parts == SessionEnded(s, c).parts;
    assert AfterMove(s, c, move).consumers == SessionEnded(s, c).consumers;
  }

  lemma EnqueueSound(s: State, c: nat, ok: bool, added: bool)
    requires WellFormed(s) && Sound(s) && MoveEnabled(s, c, Enqueue(ok, added))
    ensures Sound(AfterMove(s, c, Enqueue(ok, added)))
  {
    var t := if added then Queued(s, c) else s;
    if ok {
      IdleSound(t, c);
    } else {
      SessionEndedSound(t, c);
    }
  }

  lemma CommitSound(s: State, c: nat, ok: bool, applied: bool)
    requires WellFormed(s) && Sound(s) && MoveEnabled(s, c, Commit(ok, applied))
    ensures Sound(AfterMove(s, c, Commit(ok, applied)))
  {
    var t := if applied then Advanced(s, c) else s;
    AdvancedSound(s, c);
    if ok {
      IdleSound(t, c);
    } else {
      SessionEndedSound(t, c);
    }
  }

  lemma AdvancedSound(s: State, c: nat)
    requires WellFormed(s) && Sound(s) && BusyAt(s, c) && s.consumers[c].stage.Handled?
    ensures WellFormed(Advanced(s, c)) && Sound(Advanced(s, c))
  {
  }

  lemma ActSound(s: State, c: nat, act: Act)
    requires WellFormed(s) && Sound(s) && ActEnabled(s, c, act)
    ensures Sound(AfterAct(s, c, act))
  {
    var t := AfterAct(s, c, act);
    assert s.past.settled <= t.past.settled;
    forall p, i | 0 <= p < |t.parts| && t.parts[p].reader.Some? && 0 <= i < t.parts[p].pos
      ensures (p, i) in t.past.settled || Holding(t, t.parts[p].reader.value, p, i)
    {
      assert (p, i) in s.past.settled || Holding(s, s.parts[p].reader.value, p, i);
    }
  }

  lemma StepSound(s: State, step: Step)
    requires WellFormed(s) && Sound(s) && Enabled(s, step)
    ensures Sound(Apply(s, step))
  {
    match step
    case Session(c, move) => MoveSound(s, c, move);
    case Handler(c, act) => ActSound(s, c, act);
    case _ => SurroundingsSound(s, step);
  }

  lemma SurroundingsSound(s: State, step: Step)
    requires WellFormed(s) && Sound(s) && Enabled(s, step) && !step.Session? && !step.Handler?
    ensures Sound(Apply(s, step))
  {
    var t := Apply(s, step);
    forall p, i | 0 <= p < |t.parts| && t.parts[p].reader.Some? && 0 <= i < t.parts[p].pos
      ensures (p, i) in t.past.settled || Holding(t, t.parts[p].reader.value, p, i)
    {
      if step.Assign? && step.p == p {
      } else {
        assert (p, i) in s.past.settled || Holding(s, s.parts[p].reader.value, p, i);
      }
    }
  }

  lemma {:induction false} RunSound(setup: Setup, trace: seq<Step>)
    requires Replay(setup, trace).Some?
    ensures Sound(Replay(setup, trace).value)
  {
    if trace != [] {
      var n := |trace| - 1;
      RunSound(setup, trace[..n]);
      StepSound(Replay(setup, trace[..n]).value, trace[n]);
    }
  }

  // ---- what settled means in terms of the run ----

  /** The step returns nil for record (p, i), or puts it into the retry queue. */
  ghost predicate Settles(s: State, step: Step, p: nat, i: nat)
    requires WellFormed(s)
  {
    && Enabled(s, step)
    && match step
       case Handler(c, act) => Holding(s, c, p, i) && StageAfter(s, c, act).Handled?
       case Session(c, move) => Holding(s, c, p, i) && move.Enqueue? && move.added
       case _ => false
  }

  /** Step `n` of the run settles record (p, i). */
  ghost predicate SettledAt(setup: Setup, trace: seq<Step>, n: nat, p: nat, i: nat) {
    && n < |trace|
    && Replay(setup, trace[..n]).Some?
    && Settles(Replay(setup, trace[..n]).value, trace[n], p, i)
  }

  ghost predicate EverSettled(setup: Setup, trace: seq<Step>, p: nat, i: nat) {
    exists n: nat :: SettledAt(setup, trace, n, p, i)
  }

  lemma SettledInFront(setup: Setup, front: seq<Step>, step: Step, n: nat, p: nat, i: nat)
    requires n < |front|
    ensures SettledAt(setup, front + [step], n, p, i) <==> SettledAt(setup, front, n, p, i)
  {
    assert (front + [step])[..n] == front[..n];
  }

  lemma SettledAtEnd(setup: Setup, front: seq<Step>, step: Step, p: nat, i: nat)
    requires Replay(setup, front).Some?
    ensures SettledAt(setup, front + [step], |front|, p, i) <==> Settles(Replay(setup, front).value, step, p, i)
  {
    assert (front + [step])[..|front|] == front;
  }

  lemma EverSettledFront(setup: Setup, front: seq<Step>, step: Step, p: nat, i: nat)
    requires Replay(setup, front).Some?
    ensures EverSettled(setup, front + [step], p, i) <==>
      EverSettled(setup, front, p, i) || Settles(Replay(setup, front).value, step, p, i)
  {
    forall n: nat | n < |front|
      ensures SettledAt(setup, front + [step], n, p, i) <==> SettledAt(setup, front, n, p, i)
    {
      SettledInFront(setup, front, step, n, p, i);
    }
    SettledAtEnd(setup, front, step, p, i);
  }

  lemma {:induction false} SettledIffInRun(setup: Setup, trace: seq<Step>, p: nat, i: nat)
    requires Replay(setup, trace).Some?
    ensures (p, i) in Replay(setup, trace).value.past.settled <==> EverSettled(setup, trace, p, i)
  {
    if trace != [] {
      var m := |trace| - 1;
      var s := LastStep(setup, trace);
      SettledIffInRun(setup, trace[..m], p, i);
      assert trace == trace[..m] + [trace[m]];
      EverSettledFront(setup, trace[..m], trace[m], p, i);
      SettledByStep(s, trace[m], p, i);
    }
  }

  lemma SettledByStep(s: State, step: Step, p: nat, i: nat)
    requires WellFormed(s) && Enabled(s, step)
    ensures (p, i) in Apply(s, step).past.settled <==> (p, i) in s.past.settled || Settles(s, step, p, i)
  {
  }

  /** In every run, each offset below a committed one belongs to a record for which the handler
      returned nil or which was put into the retry queue, at some step of that run. */
  lemma CommittedWasSettled(setup: Setup, trace: seq<Step>, p: nat, i: nat)
    requires Replay(setup, trace).Some?
    requires p < |Replay(setup, trace).value.parts| && i < Replay(setup, trace).value.parts[p].committed
    ensures EverSettled(setup, trace, p, i)
  {
    RunSound(setup, trace);
    SettledIffInRun(setup, trace, p, i);
  }

  // ---- when a committed offset moves ----

  /** The commit of a record that lies more than one below the committed offset. */
  predicate CommitsBack(s: State, step: Step, p: nat)
    requires p < |s.parts|
  {
    && step.Session? && step.move.Commit? && step.move.applied
    && BusyAt(s, step.c) && s.consumers[step.c].p == p && s.consumers[step.c].i + 1 < s.parts[p].committed
  }

  lemma MoveOffset(s: State, c: nat, move: Move, p: nat)
    requires WellFormed(s) && MoveEnabled(s, c, move) && p < |s.parts|
    ensures |AfterMove(s, c, move).parts| == |s.parts|
    ensures AfterMove(s, c, move).parts[p].committed ==
      if move.Commit? && move.applied && s.consumers[c].p == p then s.consumers[c].i + 1 else s.parts[p].committed
  {
  }

  lemma SurroundingsOffset(s: State, step: Step, p: nat)
    requires WellFormed(s) && Enabled(s, step) && p < |s.parts| && !step.Session?
    ensures |Apply(s, step).parts| == |s.parts|
    ensures Apply(s, step).parts[p].committed == s.parts[p].committed
  {
  }

  /** The one way a committed offset can go back. */
  lemma OffsetGoesBackIff(s: State, step: Step, p: nat)
    requires WellFormed(s) && Enabled(s, step) && p < |s.parts|
    ensures Apply(s, step).parts[p].committed < s.parts[p].committed <==> CommitsBack(s, step, p)
    ensures Apply(s, step).parts[p].committed != s.parts[p].committed ==>
      && step.Session? && step.move.Commit? && s.consumers[step.c].p == p
      && Apply(s, step).parts[p].committed == s.consumers[step.c].i + 1
  {
    if step.Session? {
      MoveOffset(s, step.c, step.move, p);
    } else {
      SurroundingsOffset(s, step, p);
    }
  }

  /** Partitions that were never taken from a reader with a record in hand: their records are in the
      hands of their reader only, just below its position, and not yet committed. */
  ghost predicate OneReader(s: State, p: nat)
    requires p < |s.parts|
  {
    && (s.parts[p].reader.Some? ==> s.parts[p].committed <= s.parts[p].pos)
    && (forall c :: 0 <= c < |s.consumers| && s.consumers[c].Busy? && s.consumers[c].p == p ==>
          && s.parts[p].reader == Some(c)
          && s.parts[p].pos == s.consumers[c].i + 1
          && s.parts[p].committed <= s.consumers[c].i)
  }

  ghost predicate OneReaderUnlessSplit(s: State) {
    forall p :: 0 <= p < |s.parts| && p !in s.past.split ==> OneReader(s, p)
  }

  lemma SessionEndedOneReader(s: State, c: nat)
    requires c < |s.consumers|
    requires forall p :: 0 <= p < |s.parts| && p !in s.past.split ==> LeftByReader(s, p, c)
    ensures OneReaderUnlessSplit(SessionEnded(s, c))
  {
  }

  /** `OneReader` with the hands of consumer `c` left out of account. */
  ghost predicate LeftByReader(s: State, p: nat, c: nat)
    requires p < |s.parts|
  {
    && (s.parts[p].reader.Some? ==> s.parts[p].committed <= s.parts[p].pos)
    && (forall d :: 0 <= d < |s.consumers| && d != c && s.consumers[d].Busy? && s.consumers[d].p == p ==>
          && s.parts[p].reader == Some(d)
          && s.parts[p].pos == s.consumers[d].i + 1
          && s.parts[p].committed <= s.consumers[d].i)
  }

  lemma TakenOneReader(s: State, c: nat, p: nat)
    requires WellFormed(s) && OneReaderUnlessSplit(s) && MoveEnabled(s, c, Fetch(p))
    ensures OneReaderUnlessSplit(Taken(s, c, p))
  {
    var t := Taken(s, c, p);
    forall q | 0 <= q < |t.parts| && q !in t.past.split
      ensures OneReader(t, q)
    {
      assert OneReader(s, q);
    }
  }

  lemma OpenOneReader(s: State, c: nat)
    requires WellFormed(s) && OneReaderUnlessSplit(s) && MoveEnabled(s, c, Open)
    ensures OneReaderUnlessSplit(AfterMove(s, c, Open))
  {
    var t := AfterMove(s, c, Open);
    forall p | 0 <= p < |t.parts| && p !in t.past.split
      ensures OneReader(t, p)
    {
      assert OneReader(s, p);
    }
  }

  lemma MoveOneReader(s: State, c: nat, move: Move)
    requires WellFormed(s) && OneReaderUnlessSplit(s) && MoveEnabled(s, c, move)
    ensures OneReaderUnlessSplit(AfterMove(s, c, move))
  {
    match move
    case Open => OpenOneReader(s, c);
    case Fetch(p) => TakenOneReader(s, c, p);
    case FetchError => LeaveOneReader(s, s, c, false);
    case DeadLetter(ok) => LeaveOneReader(s, s.(past := AfterMove(s, c, move).past), c, false);
    case Enqueue(ok, added) => LeaveOneReader(s, if added then Queued(s, c) else s, c, ok);
    case Commit(ok, applied) => LeaveOneReader(s, if applied then Advanced(s, c) else s, c, ok);
    case Crash => LeaveOneReader(s, Bereft(s, c), c, false);
  }

  /** Consumer `c` lets go of its record, possibly after committing it. */
  lemma LeaveOneReader(s: State, t: State, c: nat, ok: bool)
    requires WellFormed(s) && OneReaderUnlessSplit(s) && c < |s.consumers|
    requires t.consumers == s.consumers && t.past.split == s.past.split
    requires t.parts == s.parts || (BusyAt(s, c) && s.consumers[c].p < |s.parts| && t.parts == Advanced(s, c).parts)
    ensures OneReaderUnlessSplit(Continued(t, c, ok))
  {
    forall p | 0 <= p < |t.parts| && p !in t.past.split
      ensures LeftByReader(t, p, c)
    {
      assert OneReader(s, p);
    }
    SessionEndedOneReader(t, c);
    if ok {
      var u := Continued(t, c, ok);
      forall p | 0 <= p < |u.parts| && p !in u.past.split
        ensures OneReader(u, p)
      {
        assert LeftByReader(t, p, c);
      }
    }
  }

  lemma SurroundingsOneReader(s: State, step: Step)
    requires WellFormed(s) && OneReaderUnlessSplit(s) && Enabled(s, step) && !step.Session?
    ensures OneReaderUnlessSplit(Apply(s, step))
  {
    var t := Apply(s, step);
    forall p | 0 <= p < |t.parts| && p !in t.past.split
      ensures OneReader(t, p)
    {
      assert OneReader(s, p);
    }
  }

  lemma {:induction false} RunOneReader(setup: Setup, trace: seq<Step>)
    requires Replay(setup, trace).Some?
    ensures OneReaderUnlessSplit(Replay(setup, trace).value)
  {
    if trace != [] {
      var n := |trace| - 1;
      RunOneReader(setup, trace[..n]);
      var s := Replay(setup, trace[..n]).value;
      if trace[n].Session? {
        MoveOneReader(s, trace[n].c, trace[n].move);
      } else {
        SurroundingsOneReader(s, trace[n]);
      }
    }
  }

  /** Logs and history have grown from `s` to `t`, and the committed offset of `p` has not gone back
      unless `p` was taken from a reader with a record in hand. */
  ghost predicate Later(s: State, t: State, p: nat) {
    && |s.parts| == |t.parts| && p < |s.parts|
    && s.parts[p].log <= t.parts[p].log
    && s.past.split <= t.past.split && s.past.settled <= t.past.settled
    && (p !in t.past.split ==> s.parts[p].committed <= t.parts[p].committed)
  }

  /** Failed effects, restarts and dead-lettering included, offsets never go back. */
  lemma {:induction false} OffsetsNeverGoBack(setup: Setup, before: seq<Step>, s: State, after: seq<Step>, t: State, p: nat)
    requires Replay(setup, before) == Some(s) && Replay(setup, before + after) == Some(t)
    requires p < |s.parts|
    ensures Later(s, t, p)
    decreases |after|
  {
    if after == [] {
      assert before + after == before;
    } else {
      var n := |after| - 1;
      var u := LastOfRest(setup, before, after);
      OffsetsNeverGoBack(setup, before, s, after[..n], u, p);
      RunOneReader(setup, before + after[..n]);
      StepKeepsOffset(u, after[n], p);
    }
  }

  lemma StepKeepsOffset(s: State, step: Step, p: nat)
    requires WellFormed(s) && OneReaderUnlessSplit(s) && Enabled(s, step) && p < |s.parts|
    ensures Later(s, Apply(s, step), p)
  {
    OffsetGoesBackIff(s, step, p);
    if p !in s.past.split {
      assert OneReader(s, p);
    }
    if step.Session? {
      MoveGrows(s, step.c, step.move, p);
    }
  }

  lemma MoveGrows(s: State, c: nat, move: Move, p: nat)
    requires WellFormed(s) && MoveEnabled(s, c, move) && p < |s.parts|
    ensures
      var t := AfterMove(s, c, move);
      && |s.parts| == |t.parts| && s.parts[p].log == t.parts[p].log
      && s.past.split == t.past.split && s.past.settled <= t.past.settled
  {
  }

  /** A record that was neither handled nor queued, such as one whose only outcome so far is being
      dead-lettered, is at or above the committed offset. A record that does not unwrap is in that
      position in every run that contains it, whatever is tried and however often the consumer
      reconnects. */
  lemma UnsettledIsNotCommitted(setup: Setup, trace: seq<Step>, p: nat, i: nat)
    requires Replay(setup, trace).Some?
    requires p < |Replay(setup, trace).value.parts| && i < |Replay(setup, trace).value.parts[p].log|
    ensures
      var part := Replay(setup, trace).value.parts[p];
      && (!EverSettled(setup, trace, p, i) ==> part.committed <= i)
      && (part.log[i].event.None? ==> part.committed <= i && !EverSettled(setup, trace, p, i))
  {
    RunSound(setup, trace);
    SettledIffInRun(setup, trace, p, i);
  }

  /** A record that does not unwrap blocks its partition from the moment it is produced: in every
      continuation of the run the committed offset stays at or below it. */
  lemma MalformedRecordBlocks(setup: Setup, before: seq<Step>, s: State, after: seq<Step>, t: State, p: nat, i: nat)
    requires Replay(setup, before) == Some(s) && Replay(setup, before + after) == Some(t)
    requires p < |s.parts| && i < |s.parts[p].log| && s.parts[p].log[i].event.None?
    ensures p < |t.parts| && t.parts[p].committed <= i
  {
    OffsetsNeverGoBack(setup, before, s, after, t, p);
    UnsettledIsNotCommitted(setup, before + after, p, i);
  }
}
