/** The delivery of mail commands through Kafka, Redis and the mail handler, as a transition system.

    Partitions are logs with a committed offset. Any number of consumers fetch, claim, handle, retry,
    dead-letter and commit; every effect can fail, a failed effect may still have taken place, and a
    consumer can die between any two effects. The last field of a state records what has happened. */
module Delivery {
  import opened Wrappers
  import opened ClaimStore

  /** A Kafka record: the event its payload unwraps to, if it does, and the attempt in its headers. */
  datatype Record = Record(event: Option<EventId>, attempt: nat)

  /** A copy of an event waiting in the retry queue. */
  datatype Copy = Copy(event: EventId, attempt: nat)

  /** `reader` is the consumer the partition is assigned to, `pos` the next offset it will fetch. */
  datatype Partition = Partition(log: seq<Record>, committed: nat, reader: Option<nat>, pos: nat)

  /** How far a consumer is with the record in its hands. `mailed` says whether the mail was taken. */
  datatype Stage =
    | Fetched                                      // before unwrapping and claiming
    | Running                                      // claimed, the handler has started
    | Mailed                                       // mail taken, result not yet published
    | Bounced                                      // mail refused, result not yet published
    | Published(mailed: bool)                      // handler returned nil, claim not yet completed
    | Failing(mailed: bool, permanent: bool)       // handler returned an error, claim not yet released
    | Failed(permanent: bool)                      // the claiming handler returned an error
    | Handled                                      // the claiming handler returned nil

  datatype Consumer =
    | Closed                                       // no open reader
    | Idle                                         // about to fetch
    | Busy(p: nat, i: nat, rec: Record, stage: Stage)

  /** What has happened so far. */
  datatype Past = Past(
    settled: set<(nat, nat)>,        // records handled with nil or put into the retry queue
    succeeded: set<EventId>,         // events for which a handler run returned nil
    sends: multiset<EventId>,        // mails taken
    faults: multiset<EventId>,       // failures after the mail of the event was taken
    overruns: multiset<EventId>,     // claims that expired while their handler was running
    lapses: set<EventId>,            // events with a claim left behind by a fault
    split: set<nat>,                 // partitions revoked while their reader had a record in hand
    fetches: multiset<EventId>,      // records fetched
    deadLettered: set<(nat, nat)>)   // records written to the dead-letter topic

  datatype State = State(
    max: nat, parts: seq<Partition>, consumers: seq<Consumer>, store: Store, retry: seq<Copy>, past: Past)

  /** Effects of the claim around the handler, and of the handler. */
  datatype Act =
    | Claim
    | ClaimError(left: bool, permanent: bool)
    | CompleteOk
    | CompleteError(applied: bool, permanent: bool)
    | Release(applied: bool)
    | DecodeError(permanent: bool)
    | SendOk
    | SendError
    | ReplyOk
    | ReplyError(permanent: bool)

  /** Effects of the session loop. An effect that is not `ok` may still have taken place. */
  datatype Move =
    | Open
    | Fetch(p: nat)
    | FetchError
    | Enqueue(ok: bool, added: bool)
    | DeadLetter(ok: bool)
    | Commit(ok: bool, applied: bool)
    | Crash

  datatype Step =
    | Produce(p: nat, rec: Record)
    | Tick(ms: nat)
    | Assign(p: nat, reader: nat)
    | Revoke(p: nat)
    | Republish(k: nat, p: nat, keep: bool)
    | Session(c: nat, move: Move)
    | Handler(c: nat, act: Act)

  predicate HoldsClaim(stage: Stage) {
    stage.Running? || stage.Mailed? || stage.Bounced? || stage.Published? || stage.Failing?
  }

  /** Consumer `c` is between the claim of `e` and its completion or release. */
  predicate Holds(consumers: seq<Consumer>, c: nat, e: EventId) {
    && c < |consumers| && consumers[c].Busy?
    && consumers[c].rec.event == Some(e) && HoldsClaim(consumers[c].stage)
  }

  /** The mail of `e` was taken in this run of the handler and no fault has happened since. */
  predicate MailedStage(stage: Stage) {
    stage.Mailed? || (stage.Published? && stage.mailed)
  }

  predicate BusyAt(s: State, c: nat) {
    c < |s.consumers| && s.consumers[c].Busy?
  }

  /** Every index in the state points somewhere, and what a consumer holds is what the log holds. */
  ghost predicate WellFormed(s: State) {
    && (forall p :: 0 <= p < |s.parts| ==> s.parts[p].committed <= |s.parts[p].log|)
    && (forall p :: 0 <= p < |s.parts| && s.parts[p].reader.Some? ==>
          && s.parts[p].reader.value < |s.consumers|
          && !s.consumers[s.parts[p].reader.value].Closed?
          && s.parts[p].pos <= |s.parts[p].log|)
    && (forall c :: 0 <= c < |s.consumers| && s.consumers[c].Busy? ==> InHandIsLogged(s, c))
  }

  ghost predicate InHandIsLogged(s: State, c: nat)
    requires BusyAt(s, c)
  {
    var h := s.consumers[c];
    && h.p < |s.parts| && h.i < |s.parts[h.p].log| && s.parts[h.p].log[h.i] == h.rec
    && (!h.stage.Fetched? ==> h.rec.event.Some?)
  }

  predicate At(s: State, c: nat, stage: Stage) {
    BusyAt(s, c) && s.consumers[c].stage == stage
  }

  predicate ActEnabled(s: State, c: nat, act: Act) {
    && BusyAt(s, c)
    && var stage := s.consumers[c].stage;
    match act
    case Claim => stage.Fetched? && s.consumers[c].rec.event.Some?
    case ClaimError(_, _) => stage.Fetched? && s.consumers[c].rec.event.Some?
    case CompleteOk => stage.Published?
    case CompleteError(_, _) => stage.Published?
    case Release(_) => stage.Failing?
    case DecodeError(_) => stage.Running?
    case SendOk => stage.Running?
    case SendError => stage.Running?
    case ReplyOk => stage.Mailed? || stage.Bounced?
    case ReplyError(_) => stage.Mailed? || stage.Bounced?
  }

  predicate MoveEnabled(s: State, c: nat, move: Move) {
    && c < |s.consumers|
    && var h := s.consumers[c];
    match move
    case Open => h.Closed?
    case Fetch(p) =>
      h.Idle? && p < |s.parts| && s.parts[p].reader == Some(c) && s.parts[p].pos < |s.parts[p].log|
    case FetchError => h.Idle?
    case Enqueue(ok, added) =>
      h.Busy? && h.stage == Failed(false) && h.rec.attempt < s.max && (ok ==> added)
    case DeadLetter(_) =>
      && h.Busy?
      && (|| (h.stage.Fetched? && h.rec.event.None?)
          || (h.stage.Failed? && (h.stage.permanent || h.rec.attempt >= s.max)))
    case Commit(ok, applied) => h.Busy? && h.stage.Handled? && (ok ==> applied)
    case Crash => !h.Closed?
  }

  predicate Enabled(s: State, step: Step) {
    match step
    case Produce(p, rec) => p < |s.parts| && rec.attempt >= 1
    case Tick(_) => true
    case Assign(p, c) =>
      p < |s.parts| && s.parts[p].reader.None? && c < |s.consumers| && !s.consumers[c].Closed?
    case Revoke(p) => p < |s.parts| && s.parts[p].reader.Some?
    case Republish(k, p, _) => k < |s.retry| && p < |s.parts|
    case Session(c, move) => MoveEnabled(s, c, move)
    case Handler(c, act) => ActEnabled(s, c, act)
  }

  function EventInHand(s: State, c: nat): EventId
    requires BusyAt(s, c) && s.consumers[c].rec.event.Some?
  {
    s.consumers[c].rec.event.value
  }

  function InHand(s: State, c: nat): (nat, nat)
    requires BusyAt(s, c)
  {
    (s.consumers[c].p, s.consumers[c].i)
  }

  // ---- the claiming handler ----

  /** The stage an act leads to. A claim that is refused counts as handled. */
  function StageAfter(s: State, c: nat, act: Act): Stage
    requires WellFormed(s) && ActEnabled(s, c, act)
  {
    var stage := s.consumers[c].stage;
    match act
    case Claim => if Present(s.store, EventInHand(s, c)) then Handled else Running
    case ClaimError(_, permanent) => Failed(permanent)
    case CompleteOk => Handled
    case CompleteError(_, permanent) => Failed(permanent)
    case Release(_) => Failed(stage.permanent)
    case DecodeError(permanent) => Failing(false, permanent)
    case SendOk => Mailed
    case SendError => Bounced
    case ReplyOk => Published(stage.Mailed?)
    case ReplyError(permanent) => Failing(stage.Mailed?, permanent)
  }

  function StoreAfter(store: Store, e: EventId, c: nat, act: Act): Store {
    match act
    case Claim => SetIfAbsent(store, e, c)
    case ClaimError(left, _) => if left then SetIfAbsent(store, e, c) else store
    case CompleteOk => SetDone(store, e)
    case CompleteError(applied, _) => if applied then SetDone(store, e) else store
    case Release(applied) => if applied then Delete(store, e) else store
    case _ => store
  }

  /** The mail was taken, and then publishing its result or completing its claim fails. */
  predicate FaultAfterMail(stage: Stage, act: Act) {
    (act.ReplyError? || act.CompleteError?) && MailedStage(stage)
  }

  /** The act leaves a claim behind that nobody will complete or release. */
  predicate LeavesClaim(store: Store, e: EventId, act: Act) {
    || (act.ClaimError? && act.left && !Present(store, e))
    || (act.Release? && !act.applied)
  }

  function AfterAct(s: State, c: nat, act: Act): State
    requires WellFormed(s) && ActEnabled(s, c, act)
  {
    var h := s.consumers[c];
    var e := EventInHand(s, c);
    var next := StageAfter(s, c, act);
    s.(consumers := s.consumers[c := h.(stage := next)],
       store := StoreAfter(s.store, e, c, act),
       past := s.past.(
         settled := if next.Handled? then s.past.settled + {(h.p, h.i)} else s.past.settled,
         succeeded := if act.ReplyOk? then s.past.succeeded + {e} else s.past.succeeded,
         sends := if act.SendOk? then s.past.sends + multiset{e} else s.past.sends,
         faults := if FaultAfterMail(h.stage, act) then s.past.faults + multiset{e} else s.past.faults,
         lapses := if LeavesClaim(s.store, e, act) then s.past.lapses + {e} else s.past.lapses))
  }

  // ---- the session loop ----

  /** Partitions without the reader of consumer `c`. */
  function Detached(parts: seq<Partition>, c: nat): (r: seq<Partition>)
    ensures |r| == |parts|
    ensures forall p :: 0 <= p < |parts| ==>
      r[p] == if parts[p].reader == Some(c) then parts[p].(reader := None) else parts[p]
  {
    seq(|parts|, p requires 0 <= p < |parts| =>
      if parts[p].reader == Some(c) then parts[p].(reader := None) else parts[p])
  }

  /** The reader of `c` is closed, and what it fetched without committing is forgotten. */
  function SessionEnded(s: State, c: nat): State
    requires c < |s.consumers|
  {
    s.(parts := Detached(s.parts, c), consumers := s.consumers[c := Closed])
  }

  function Taken(s: State, c: nat, p: nat): State
    requires c < |s.consumers| && p < |s.parts| && s.parts[p].pos < |s.parts[p].log|
  {
    var part := s.parts[p];
    var rec := part.log[part.pos];
    s.(parts := s.parts[p := part.(pos := part.pos + 1)],
       consumers := s.consumers[c := Busy(p, part.pos, rec, Fetched)],
       past := s.past.(fetches := if rec.event.Some? then s.past.fetches + multiset{rec.event.value} else s.past.fetches))
  }

  /** The record in hand is put into the retry queue with the next attempt number. */
  function Queued(s: State, c: nat): State
    requires BusyAt(s, c) && s.consumers[c].rec.event.Some?
  {
    s.(retry := s.retry + [Copy(EventInHand(s, c), s.consumers[c].rec.attempt + 1)],
       past := s.past.(settled := s.past.settled + {InHand(s, c)}))
  }

  function Advanced(s: State, c: nat): State
    requires BusyAt(s, c) && s.consumers[c].p < |s.parts|
  {
    var h := s.consumers[c];
    s.(parts := s.parts[h.p := s.parts[h.p].(committed := h.i + 1)])
  }

  /** A failed effect ends the session, a successful one brings the loop back to its start. */
  function Continued(s: State, c: nat, ok: bool): State
    requires c < |s.consumers|
  {
    if ok then s.(consumers := s.consumers[c := Idle]) else SessionEnded(s, c)
  }

  /** What the death of a consumer leaves behind: the claim it holds, and possibly a sent mail. */
  function Bereft(s: State, c: nat): State
    requires WellFormed(s) && c < |s.consumers|
  {
    if BusyAt(s, c) && HoldsClaim(s.consumers[c].stage) then
      var e := EventInHand(s, c);
      s.(past := s.past.(
        lapses := s.past.lapses + {e},
        faults := if MailedStage(s.consumers[c].stage) then s.past.faults + multiset{e} else s.past.faults))
    else s
  }

  function AfterMove(s: State, c: nat, move: Move): State
    requires WellFormed(s) && MoveEnabled(s, c, move)
  {
    match move
    case Open => s.(consumers := s.consumers[c := Idle])
    case Fetch(p) => Taken(s, c, p)
    case FetchError => SessionEnded(s, c)
    case Enqueue(ok, added) => Continued(if added then Queued(s, c) else s, c, ok)
    case DeadLetter(ok) =>
      SessionEnded(if ok then s.(past := s.past.(deadLettered := s.past.deadLettered + {InHand(s, c)})) else s, c)
    case Commit(ok, applied) => Continued(if applied then Advanced(s, c) else s, c, ok)
    case Crash => SessionEnded(Bereft(s, c), c)
  }

  // ---- the surroundings ----

  function Appended(s: State, p: nat, rec: Record): State
    requires p < |s.parts|
  {
    s.(parts := s.parts[p := s.parts[p].(log := s.parts[p].log + [rec])])
  }

  function Without<T>(xs: seq<T>, k: nat): seq<T>
    requires k < |xs|
  {
    xs[..k] + xs[k + 1..]
  }

  /** A waiting copy is written to the topic again; `keep` says whether it stays in the queue. */
  function Republished(s: State, k: nat, p: nat, keep: bool): State
    requires k < |s.retry| && p < |s.parts|
  {
    var copy := s.retry[k];
    Appended(s, p, Record(Some(copy.event), copy.attempt)).(retry := if keep then s.retry else Without(s.retry, k))
  }

  function Revoked(s: State, p: nat): State
    requires p < |s.parts| && s.parts[p].reader.Some?
  {
    var c := s.parts[p].reader.value;
    s.(parts := s.parts[p := s.parts[p].(reader := None)],
       past := s.past.(split := if BusyAt(s, c) && s.consumers[c].p == p then s.past.split + {p} else s.past.split))
  }

  /** The events whose claim expires within the next `ms` while its handler is running. */
  function Overrun(s: State, ms: nat): set<EventId> {
    set e | e in s.store.keys && s.store.keys[e].Processing?
              && s.store.now < s.store.keys[e].expiry <= s.store.now + ms
              && Holds(s.consumers, s.store.keys[e].owner, e)
  }

  function Ticked(s: State, ms: nat): State {
    s.(store := s.store.(now := s.store.now + ms),
       past := s.past.(overruns := s.past.overruns + multiset(Overrun(s, ms))))
  }

  function Assigned(s: State, p: nat, c: nat): State
    requires p < |s.parts|
  {
    s.(parts := s.parts[p := s.parts[p].(reader := Some(c), pos := s.parts[p].committed)])
  }

  function Apply(s: State, step: Step): State
    requires WellFormed(s) && Enabled(s, step)
  {
    match step
    case Produce(p, rec) => Appended(s, p, rec)
    case Tick(ms) => Ticked(s, ms)
    case Assign(p, c) => Assigned(s, p, c)
    case Revoke(p) => Revoked(s, p)
    case Republish(k, p, keep) => Republished(s, k, p, keep)
    case Session(c, move) => AfterMove(s, c, move)
    case Handler(c, act) => AfterAct(s, c, act)
  }

  lemma ContinuedWellFormed(s: State, c: nat, ok: bool)
    requires WellFormed(s) && c < |s.consumers| && !s.consumers[c].Closed?
    ensures WellFormed(Continued(s, c, ok))
  {
  }

  lemma TakenWellFormed(s: State, c: nat, p: nat)
    requires WellFormed(s) && MoveEnabled(s, c, Fetch(p))
    ensures WellFormed(Taken(s, c, p))
  {
  }

  lemma AdvancedWellFormed(s: State, c: nat)
    requires WellFormed(s) && BusyAt(s, c)
    ensures WellFormed(Advanced(s, c))
  {
  }

  lemma MoveWellFormed(s: State, c: nat, move: Move)
    requires WellFormed(s) && MoveEnabled(s, c, move)
    ensures WellFormed(AfterMove(s, c, move))
  {
    match move
    case Open =>
    case Fetch(p) => TakenWellFormed(s, c, p);
    case FetchError => ContinuedWellFormed(s, c, false);
    case DeadLetter(ok) => ContinuedWellFormed(s, c, false);
    case Enqueue(ok, added) =>
      ContinuedWellFormed(if added then Queued(s, c) else s, c, ok);
    case Commit(ok, applied) =>
      AdvancedWellFormed(s, c);
      ContinuedWellFormed(if applied then Advanced(s, c) else s, c, ok);
    case Crash =>
      ContinuedWellFormed(Bereft(s, c), c, false);
  }

  lemma ActWellFormed(s: State, c: nat, act: Act)
    requires WellFormed(s) && ActEnabled(s, c, act)
    ensures WellFormed(AfterAct(s, c, act))
  {
  }

  lemma WellFormedKept(s: State, step: Step)
    requires WellFormed(s) && Enabled(s, step)
    ensures WellFormed(Apply(s, step))
  {
    match step
    case Session(c, move) => MoveWellFormed(s, c, move);
    case Handler(c, act) => ActWellFormed(s, c, act);
    case _ =>
  }

  // ---- runs ----

  datatype Setup = Setup(max: nat, partitions: nat, consumers: nat)

  /** Empty logs, closed consumers, no claims. */
  function Initial(setup: Setup): State {
    State(setup.max,
          seq(setup.partitions, _ => Partition([], 0, None, 0)),
          seq(setup.consumers, _ => Closed),
          Store(map[], 0), [],
          Past({}, {}, multiset{}, multiset{}, multiset{}, {}, {}, multiset{}, {}))
  }

  /** The state after a sequence of steps, if each of them was possible. */
  function Replay(setup: Setup, trace: seq<Step>): (r: Option<State>)
    ensures r.Some? ==> WellFormed(r.value)
  {
    if trace == [] then Some(Initial(setup))
    else
      var n := |trace| - 1;
      match Replay(setup, trace[..n])
      case None => None
      case Some(s) =>
        if Enabled(s, trace[n]) then
          WellFormedKept(s, trace[n]);
          Some(Apply(s, trace[n]))
        else None
  }

  /** The steps lead from the initial state to `s`. (The quantifier keeps the verifier from replaying
      the steps wherever this is mentioned.) */
  ghost predicate IsRun(setup: Setup, trace: seq<Step>, s: State) {
    forall start :: start == setup ==> Replay(start, trace) == Some(s)
  }

  ghost predicate Reachable(setup: Setup, s: State) {
    exists trace :: Replay(setup, trace) == Some(s)
  }

  /** The state before the last step of a run. */
  lemma LastStep(setup: Setup, trace: seq<Step>) returns (s: State)
    requires trace != [] && Replay(setup, trace).Some?
    ensures Replay(setup, trace[..|trace| - 1]) == Some(s)
    ensures Enabled(s, trace[|trace| - 1]) && Replay(setup, trace) == Some(Apply(s, trace[|trace| - 1]))
  {
    s := Replay(setup, trace[..|trace| - 1]).value;
  }

  /** The state before the last step of a continued run. */
  lemma LastOfRest(setup: Setup, before: seq<Step>, after: seq<Step>) returns (u: State)
    requires after != [] && Replay(setup, before + after).Some?
    ensures Replay(setup, before + after[..|after| - 1]) == Some(u)
    ensures Enabled(u, after[|after| - 1]) && Replay(setup, before + after) == Some(Apply(u, after[|after| - 1]))
  {
    u := LastStep(setup, before + after);
    assert (before + after)[..|before + after| - 1] == before + after[..|after| - 1];
  }

  lemma ReplayExtends(setup: Setup, trace: seq<Step>, s: State, step: Step)
    requires Replay(setup, trace) == Some(s) && Enabled(s, step)
    ensures Replay(setup, trace + [step]) == Some(Apply(s, step))
  {
    assert (trace + [step])[..|trace|] == trace;
  }
}
