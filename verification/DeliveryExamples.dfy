/** Runs that show what the hypotheses of the delivery theorems are for. */
module DeliveryExamples {
  import opened Wrappers
  import opened ClaimStore
  import opened Delivery
  import opened DeliveryCommits
  import opened DeliveryNoLoss

  const MAIL: EventId := "mail"
  const FIRST := Record(Some(MAIL), 1)
  const SECOND := Record(Some(MAIL), 2)
  const SETUP := Setup(3, 1, 2)

  /** Steps after which a claim may stay behind. */
  predicate LeavesKey(step: Step) {
    || (step.Session? && step.move.Crash?)
    || (step.Handler? && step.act.ClaimError? && step.act.left)
    || (step.Handler? && step.act.Release? && !step.act.applied)
  }

  /** Apart from `only`, no step of the run leaves a claim behind. */
  predicate OnlyFault(trace: seq<Step>, only: Step) {
    forall n :: 0 <= n < |trace| && LeavesKey(trace[n]) ==> trace[n] == only
  }

  /** A run with the given fault leads to `s`. */
  ghost predicate Leads(trace: seq<Step>, only: Step, s: State) {
    IsRun(SETUP, trace, s) && WellFormed(s) && OnlyFault(trace, only)
  }

  lemma Take(trace: seq<Step>, only: Step, s: State, step: Step) returns (longer: seq<Step>, t: State)
    requires Leads(trace, only, s) && Enabled(s, step) && (LeavesKey(step) ==> step == only)
    ensures Leads(longer, only, t) && t == Apply(s, step)
  {
    assert Replay(SETUP, trace) == Some(s);
    ReplayExtends(SETUP, trace, s, step);
    longer, t := trace + [step], Apply(s, step);
    assert Replay(SETUP, longer) == Some(t);
  }

  /** The log and position of the single partition, the first consumer (the second is closed), the
      keys and the queue. */
  ghost predicate Looks(s: State, part: Partition, h: Consumer, keys: map<EventId, Key>, retry: seq<Copy>) {
    && s.parts == [part] && s.consumers == [h, Closed] && s.store == Store(keys, 0) && s.retry == retry
    && s.max == 3 && s.past.split == {} && s.past.succeeded == {}
  }

  ghost predicate Counts(s: State, sends: multiset<EventId>, faults: multiset<EventId>) {
    s.past.sends == sends && s.past.faults == faults && s.past.overruns == multiset{}
  }

  const KEY: map<EventId, Key> := map[MAIL := Processing(0, CLAIM_TTL_MS)]

  lemma Begin(only: Step) returns (trace: seq<Step>, s: State)
    ensures Leads(trace, only, s) && Looks(s, Partition([FIRST], 0, None, 0), Closed, map[], [])
    ensures Counts(s, multiset{}, multiset{})
  {
    assert Replay(SETUP, []) == Some(Initial(SETUP));
    assert Leads([], only, Initial(SETUP));
    assert Initial(SETUP).parts == [Partition([], 0, None, 0)] && Initial(SETUP).consumers == [Closed, Closed];
    trace, s := Take([], only, Initial(SETUP), Produce(0, FIRST));
    assert [] + [FIRST] == [FIRST];
    assert s.parts == [Partition([FIRST], 0, None, 0)];
  }

  lemma Reopen(trace: seq<Step>, only: Step, s: State, log: seq<Record>, pos: nat, keys: map<EventId, Key>)
    returns (longer: seq<Step>, t: State)
    requires Leads(trace, only, s) && Looks(s, Partition(log, 0, None, pos), Closed, keys, []) && log != []
    ensures Leads(longer, only, t) && Looks(t, Partition(log, 0, Some(0), 1), Busy(0, 0, log[0], Fetched), keys, [])
    ensures t.past.sends == s.past.sends && t.past.faults == s.past.faults && t.past.overruns == s.past.overruns
  {
    longer, t := Take(trace, only, s, Session(0, Open));
    longer, t := Take(longer, only, t, Assign(0, 0));
    assert Looks(t, Partition(log, 0, Some(0), 0), Idle, keys, []);
    longer, t := Take(longer, only, t, Session(0, Fetch(0)));
  }

  /** The record is fetched and its claim taken: the handler runs. */
  lemma HandlerRunning(only: Step) returns (trace: seq<Step>, s: State)
    ensures Leads(trace, only, s) && Counts(s, multiset{}, multiset{})
    ensures Looks(s, Partition([FIRST], 0, Some(0), 1), Busy(0, 0, FIRST, Running), KEY, [])
  {
    trace, s := Begin(only);
    trace, s := Reopen(trace, only, s, [FIRST], 0, map[]);
    trace, s := ClaimFirst(trace, only, s);
  }

  lemma ClaimFirst(trace: seq<Step>, only: Step, s: State) returns (longer: seq<Step>, t: State)
    requires Leads(trace, only, s)
    requires Looks(s, Partition([FIRST], 0, Some(0), 1), Busy(0, 0, FIRST, Fetched), map[], [])
    ensures Leads(longer, only, t)
    ensures Looks(t, Partition([FIRST], 0, Some(0), 1), Busy(0, 0, FIRST, Running), KEY, [])
    ensures t.past.sends == s.past.sends && t.past.faults == s.past.faults && t.past.overruns == s.past.overruns
  {
    longer, t := Take(trace, only, s, Handler(0, Claim));
    assert t.parts[0] == Partition([FIRST], 0, Some(0), 1) && t.consumers[0] == Busy(0, 0, FIRST, Running);
  }

  /** A record is fetched while a key without an owner refuses its claim, and it is the last trace of
      the event: committing it loses the event. */
  lemma OrphanedKeyLoses(trace: seq<Step>, only: Step, s: State, log: seq<Record>, keys: map<EventId, Key>)
    requires Leads(trace, only, s) && log != [] && log[|log| - 1].event == Some(MAIL)
    requires Looks(s, Partition(log, 0, Some(0), |log|), Busy(0, |log| - 1, log[|log| - 1], Fetched), keys, [])
    requires Present(s.store, MAIL)
    ensures LosesMail(only)
  {
    var longer, t := Take(trace, only, s, Handler(0, Claim));
    CommittedAndLost(longer, only, t, log, keys);
  }

  lemma CommittedAndLost(trace: seq<Step>, only: Step, s: State, log: seq<Record>, keys: map<EventId, Key>)
    requires Leads(trace, only, s) && log != [] && log[|log| - 1].event == Some(MAIL)
    requires Looks(s, Partition(log, 0, Some(0), |log|), Busy(0, |log| - 1, log[|log| - 1], Handled), keys, [])
    ensures LosesMail(only)
  {
    var longer, t := Take(trace, only, s, Session(0, Commit(true, true)));
    assert t.parts == [Partition(log, |log|, Some(0), |log|)];
    assert Logged(t, 0, |log| - 1, MAIL);
  }

  /** There is a run with this fault only, after which the produced event is lost. */
  ghost predicate LosesMail(only: Step) {
    exists trace, s :: (Leads(trace, only, s) && s.past.split == {} && Produced(s, MAIL) && !NotLost(s, MAIL))
  }

  lemma DeadHolderLosesEvent()
    ensures LosesMail(Session(0, Crash))
  {
    var only := Session(0, Crash);
    var trace, s := HandlerRunning(only);
    trace, s := HolderDies(trace, s);
    FetchedBehindKeyLoses(trace, only, s);
  }

  lemma FetchedBehindKeyLoses(trace: seq<Step>, only: Step, s: State)
    requires Leads(trace, only, s) && Looks(s, Partition([FIRST], 0, None, 1), Closed, KEY, [])
    ensures LosesMail(only)
  {
    var longer, t := Reopen(trace, only, s, [FIRST], 1, KEY);
    assert Present(t.store, MAIL);
    OrphanedKeyLoses(longer, only, t, [FIRST], KEY);
  }

  lemma HolderDies(trace: seq<Step>, s: State) returns (longer: seq<Step>, t: State)
    requires Leads(trace, Session(0, Crash), s)
    requires Looks(s, Partition([FIRST], 0, Some(0), 1), Busy(0, 0, FIRST, Running), KEY, [])
    ensures Leads(longer, Session(0, Crash), t) && Looks(t, Partition([FIRST], 0, None, 1), Closed, KEY, [])
  {
    longer, t := Take(trace, Session(0, Crash), s, Session(0, Crash));
    assert t.parts[0] == Partition([FIRST], 0, None, 1) && t.consumers[0] == Closed;
  }

  /** The handler failed and its record is queued for retry, but its key is still there. */
  lemma RetriedBehindKeyLoses(trace: seq<Step>, only: Step, s: State)
    requires Leads(trace, only, s)
    requires Looks(s, Partition([FIRST], 0, Some(0), 1), Busy(0, 0, FIRST, Failed(false)), KEY, [])
    ensures LosesMail(only)
  {
    var longer, t := Take(trace, only, s, Session(0, Enqueue(true, true)));
    assert Looks(t, Partition([FIRST], 0, Some(0), 1), Idle, KEY, [Copy(MAIL, 2)]);
    longer, t := RepublishSecond(longer, only, t);
    longer, t := Take(longer, only, t, Session(0, Fetch(0)));
    assert t.parts == [Partition([FIRST, SECOND], 0, Some(0), 2)];
    OrphanedKeyLoses(longer, only, t, [FIRST, SECOND], KEY);
  }

  lemma RepublishSecond(trace: seq<Step>, only: Step, s: State) returns (longer: seq<Step>, t: State)
    requires Leads(trace, only, s)
    requires Looks(s, Partition([FIRST], 0, Some(0), 1), Idle, KEY, [Copy(MAIL, 2)])
    ensures Leads(longer, only, t) && Looks(t, Partition([FIRST, SECOND], 0, Some(0), 1), Idle, KEY, [])
  {
    longer, t := Take(trace, only, s, Republish(0, 0, false));
    assert [FIRST] + [SECOND] == [FIRST, SECOND];
    assert Without(s.retry, 0) == [];
    assert t.parts == [Partition([FIRST, SECOND], 0, Some(0), 1)];
  }

  lemma FailedReleaseLosesEvent()
    ensures LosesMail(Handler(0, Release(false)))
  {
    var only := Handler(0, Release(false));
    var trace, s := HandlerRunning(only);
    trace, s := Take(trace, only, s, Handler(0, DecodeError(false)));
    trace, s := Take(trace, only, s, only);
    RetriedBehindKeyLoses(trace, only, s);
  }

  lemma FailedClaimThatSetsKeyLosesEvent()
    ensures LosesMail(Handler(0, ClaimError(true, false)))
  {
    var only := Handler(0, ClaimError(true, false));
    var trace, s := Begin(only);
    trace, s := Reopen(trace, only, s, [FIRST], 0, map[]);
    trace, s := Take(trace, only, s, only);
    RetriedBehindKeyLoses(trace, only, s);
  }

  // ---- two readers of one partition ----

  /** Both consumers, the partition and the keys. */
  ghost predicate Both(s: State, part: Partition, h0: Consumer, h1: Consumer, keys: map<EventId, Key>) {
    && s.parts == [part] && s.consumers == [h0, h1] && s.store == Store(keys, 0) && s.retry == []
    && s.max == 3 && s.past.succeeded == {} && s.past.lapses == {}
  }

  /** A run without any fault that leaves a claim behind. */
  ghost predicate Clean(trace: seq<Step>, s: State) {
    IsRun(SETUP, trace, s) && WellFormed(s) && s.past.lapses == {}
  }

  lemma Extend(trace: seq<Step>, s: State, step: Step) returns (longer: seq<Step>, t: State)
    requires Clean(trace, s) && Enabled(s, step) && !LeavesKey(step)
    ensures Clean(longer, t) && t == Apply(s, step)
  {
    assert Replay(SETUP, trace) == Some(s);
    ReplayExtends(SETUP, trace, s, step);
    longer, t := trace + [step], Apply(s, step);
    assert Replay(SETUP, longer) == Some(t);
  }

  /** The first consumer runs the handler, and its partition is given to the second one, which
      fetches the same record. */
  lemma SplitPartition() returns (trace: seq<Step>, s: State)
    ensures Clean(trace, s)
    ensures Both(s, Partition([FIRST], 0, Some(1), 1), Busy(0, 0, FIRST, Running), Busy(0, 0, FIRST, Fetched), KEY)
    ensures Counts(s, multiset{}, multiset{})
  {
    var only := Tick(0);
    trace, s := HandlerRunning(only);
    NoFaultNoLapse(trace, s, only);
    trace, s := Extend(trace, s, Revoke(0));
    assert Both(s, Partition([FIRST], 0, None, 1), Busy(0, 0, FIRST, Running), Closed, KEY);
    trace, s := Handover(trace, s);
  }

  lemma Handover(trace: seq<Step>, s: State) returns (longer: seq<Step>, t: State)
    requires Clean(trace, s) && Both(s, Partition([FIRST], 0, None, 1), Busy(0, 0, FIRST, Running), Closed, KEY)
    ensures Clean(longer, t)
    ensures Both(t, Partition([FIRST], 0, Some(1), 1), Busy(0, 0, FIRST, Running), Busy(0, 0, FIRST, Fetched), KEY)
    ensures t.past.sends == s.past.sends && t.past.faults == s.past.faults && t.past.overruns == s.past.overruns
  {
    longer, t := Extend(trace, s, Session(1, Open));
    longer, t := Extend(longer, t, Assign(0, 1));
    assert Both(t, Partition([FIRST], 0, Some(1), 0), Busy(0, 0, FIRST, Running), Idle, KEY);
    longer, t := Extend(longer, t, Session(1, Fetch(0)));
  }

  lemma {:induction false} NoFaultNoLapse(trace: seq<Step>, s: State, only: Step)
    requires Leads(trace, only, s) && !LeavesKey(only)
    ensures Clean(trace, s)
  {
    assert Replay(SETUP, trace) == Some(s);
    if trace != [] {
      var n := |trace| - 1;
      var u := LastStep(SETUP, trace);
      NoFaultNoLapse(trace[..n], u, only);
      StepWithoutLapse(u, trace[n]);
    }
  }

  lemma StepWithoutLapse(s: State, step: Step)
    requires WellFormed(s) && Enabled(s, step) && !LeavesKey(step)
    ensures Apply(s, step).past.lapses == s.past.lapses
  {
  }

  /** With two readers of one partition the event is lost although no claim stays behind: the second
      reader commits the record because its claim is refused, then the first one fails and cannot
      queue it. */
  lemma TwoReadersLoseEvent()
    ensures exists trace, s :: (Clean(trace, s) && Produced(s, MAIL) && !NotLost(s, MAIL))
  {
    var trace, s := SplitPartition();
    trace, s := Extend(trace, s, Handler(1, Claim));
    assert Both(s, Partition([FIRST], 0, Some(1), 1), Busy(0, 0, FIRST, Running), Busy(0, 0, FIRST, Handled), KEY);
    trace, s := Extend(trace, s, Session(1, Commit(true, true)));
    assert Both(s, Partition([FIRST], 1, Some(1), 1), Busy(0, 0, FIRST, Running), Idle, KEY);
    FirstReaderGivesUp(trace, s);
  }

  lemma FirstReaderGivesUp(trace: seq<Step>, s: State)
    requires Clean(trace, s) && Both(s, Partition([FIRST], 1, Some(1), 1), Busy(0, 0, FIRST, Running), Idle, KEY)
    ensures exists trace, s :: (Clean(trace, s) && Produced(s, MAIL) && !NotLost(s, MAIL))
  {
    var longer, t := FirstReaderFails(trace, s);
    longer, t := Extend(longer, t, Session(0, Enqueue(false, false)));
    assert t.parts[0] == Partition([FIRST], 1, Some(1), 1);
    assert Logged(t, 0, 0, MAIL);
  }

  lemma FirstReaderFails(trace: seq<Step>, s: State) returns (longer: seq<Step>, t: State)
    requires Clean(trace, s) && Both(s, Partition([FIRST], 1, Some(1), 1), Busy(0, 0, FIRST, Running), Idle, KEY)
    ensures Clean(longer, t)
    ensures Both(t, Partition([FIRST], 1, Some(1), 1), Busy(0, 0, FIRST, Failed(false)), Idle, map[])
  {
    longer, t := Extend(trace, s, Handler(0, DecodeError(false)));
    assert t.consumers[0] == Busy(0, 0, FIRST, Failing(false, false));
    longer, t := Extend(longer, t, Handler(0, Release(true)));
    assert t.store.keys == map[];
  }

  // ---- a second mail ----

  /** The first handler run takes the mail and cannot publish the result. */
  lemma FailAfterMail(only: Step) returns (trace: seq<Step>, s: State)
    ensures Leads(trace, only, s) && Counts(s, multiset{MAIL}, multiset{MAIL})
    ensures Looks(s, Partition([FIRST], 0, Some(0), 1), Busy(0, 0, FIRST, Failing(true, false)), KEY, [])
  {
    trace, s := HandlerRunning(only);
    trace, s := Take(trace, only, s, Handler(0, SendOk));
    assert Looks(s, Partition([FIRST], 0, Some(0), 1), Busy(0, 0, FIRST, Mailed), KEY, []);
    assert Counts(s, multiset{MAIL}, multiset{});
    trace, s := Take(trace, only, s, Handler(0, ReplyError(false)));
  }

  /** The bound on mails is met: one result that cannot be published leads to two mails, although no
      claim expired and none was left behind. */
  lemma LostResultSendsTwice()
    ensures exists trace, s :: (Leads(trace, Tick(0), s)
      && s.past.sends[MAIL] == 2 && s.past.faults[MAIL] == 1 && s.past.overruns[MAIL] == 0)
  {
    var only := Tick(0);
    var trace, s := FailAfterMail(only);
    trace, s := Take(trace, only, s, Handler(0, Release(true)));
    assert s.store.keys == map[];
    assert Looks(s, Partition([FIRST], 0, Some(0), 1), Busy(0, 0, FIRST, Failed(false)), map[], []);
    trace, s := Take(trace, only, s, Session(0, FetchAgain()));
    assert Looks(s, Partition([FIRST], 0, None, 1), Closed, map[], []);
    trace, s := Reopen(trace, only, s, [FIRST], 1, map[]);
    MailAgain(trace, only, s);
  }

  /** The retry queue cannot be reached, so the session ends and the record is fetched again. */
  function FetchAgain(): Move {
    Enqueue(false, false)
  }

  lemma MailAgain(trace: seq<Step>, only: Step, s: State)
    requires Leads(trace, only, s) && Counts(s, multiset{MAIL}, multiset{MAIL})
    requires Looks(s, Partition([FIRST], 0, Some(0), 1), Busy(0, 0, FIRST, Fetched), map[], [])
    ensures exists trace, s :: (Leads(trace, only, s)
      && s.past.sends[MAIL] == 2 && s.past.faults[MAIL] == 1 && s.past.overruns[MAIL] == 0)
  {
    var longer, t := ClaimFirst(trace, only, s);
    longer, t := Take(longer, only, t, Handler(0, SendOk));
    assert t.past.sends == multiset{MAIL} + multiset{MAIL};
  }

  /** The claim of the first consumer expires while its handler runs, and the second one claims the
      event as well. */
  lemma ClaimExpires(trace: seq<Step>, s: State) returns (longer: seq<Step>, t: State)
    requires Clean(trace, s) && Counts(s, multiset{}, multiset{})
    requires Both(s, Partition([FIRST], 0, Some(1), 1), Busy(0, 0, FIRST, Running), Busy(0, 0, FIRST, Fetched), KEY)
    ensures Clean(longer, t) && t.consumers == [Busy(0, 0, FIRST, Running), Busy(0, 0, FIRST, Running)]
    ensures t.past.sends == multiset{} && t.past.faults == multiset{} && t.past.overruns == multiset{MAIL}
  {
    var expired := Overrun(s, CLAIM_TTL_MS);
    assert Holds(s.consumers, 0, MAIL) && s.store.keys[MAIL].owner == 0;
    assert expired == {MAIL};
    longer, t := Extend(trace, s, Tick(CLAIM_TTL_MS));
    assert t.past.overruns == multiset{MAIL} && !Present(t.store, MAIL);
    longer, t := Extend(longer, t, Handler(1, Claim));
    assert t.consumers[1] == Busy(0, 0, FIRST, Running);
  }

  /** The other term of the bound is met, too: one claim that expires under its handler leads to two
      mails without any fault, because two handlers run at the same time. */
  lemma ExpiredClaimSendsTwice()
    ensures exists trace, s :: (Clean(trace, s)
      && s.past.sends[MAIL] == 2 && s.past.faults[MAIL] == 0 && s.past.overruns[MAIL] == 1)
  {
    var trace, s := SplitPartition();
    trace, s := ClaimExpires(trace, s);
    trace, s := Extend(trace, s, Handler(0, SendOk));
    assert s.consumers[1] == Busy(0, 0, FIRST, Running);
    trace, s := Extend(trace, s, Handler(1, SendOk));
    assert s.past.sends == multiset{MAIL} + multiset{MAIL};
  }

  // ---- a committed offset that goes back ----

  const LOG := [FIRST, SECOND]
  const DONE: map<EventId, Key> := map[MAIL := Done]

  ghost predicate Pair(s: State, part: Partition, h0: Consumer, h1: Consumer, keys: map<EventId, Key>) {
    && s.parts == [part] && s.consumers == [h0, h1] && s.store == Store(keys, 0)
    && s.max == 3 && s.past.lapses == {}
  }

  lemma TwoRecords() returns (trace: seq<Step>, s: State)
    ensures Clean(trace, s) && Pair(s, Partition(LOG, 0, Some(0), 0), Idle, Closed, map[])
  {
    var only := Tick(0);
    trace, s := Begin(only);
    NoFaultNoLapse(trace, s, only);
    trace, s := Extend(trace, s, Produce(0, SECOND));
    assert [FIRST] + [SECOND] == LOG;
    assert Pair(s, Partition(LOG, 0, None, 0), Closed, Closed, map[]);
    trace, s := Extend(trace, s, Session(0, Open));
    trace, s := Extend(trace, s, Assign(0, 0));
  }

  lemma HandledByFirst() returns (trace: seq<Step>, s: State)
    ensures Clean(trace, s) && Pair(s, Partition(LOG, 0, Some(0), 1), Busy(0, 0, FIRST, Handled), Closed, DONE)
  {
    trace, s := TwoRecords();
    trace, s := Extend(trace, s, Session(0, Fetch(0)));
    assert Pair(s, Partition(LOG, 0, Some(0), 1), Busy(0, 0, FIRST, Fetched), Closed, map[]);
    trace, s := Extend(trace, s, Handler(0, Claim));
    assert Pair(s, Partition(LOG, 0, Some(0), 1), Busy(0, 0, FIRST, Running), Closed, KEY);
    trace, s := ReplyAndComplete(trace, s);
  }

  lemma ReplyAndComplete(trace: seq<Step>, s: State) returns (longer: seq<Step>, t: State)
    requires Clean(trace, s) && Pair(s, Partition(LOG, 0, Some(0), 1), Busy(0, 0, FIRST, Running), Closed, KEY)
    ensures Clean(longer, t) && Pair(t, Partition(LOG, 0, Some(0), 1), Busy(0, 0, FIRST, Handled), Closed, DONE)
  {
    longer, t := Extend(trace, s, Handler(0, SendError));
    longer, t := Extend(longer, t, Handler(0, ReplyOk));
    assert Pair(t, Partition(LOG, 0, Some(0), 1), Busy(0, 0, FIRST, Published(false)), Closed, KEY);
    longer, t := Extend(longer, t, Handler(0, CompleteOk));
  }

  /** The second consumer takes the partition over. */
  lemma TakenOver() returns (trace: seq<Step>, s: State)
    ensures Clean(trace, s) && Pair(s, Partition(LOG, 0, Some(1), 0), Busy(0, 0, FIRST, Handled), Idle, DONE)
  {
    trace, s := HandledByFirst();
    trace, s := Extend(trace, s, Revoke(0));
    assert Pair(s, Partition(LOG, 0, None, 1), Busy(0, 0, FIRST, Handled), Closed, DONE);
    trace, s := Extend(trace, s, Session(1, Open));
    trace, s := Extend(trace, s, Assign(0, 1));
  }

  /** The second consumer fetches the next record, its claim is refused, and it commits. */
  lemma RefusedAndCommitted(trace: seq<Step>, s: State, i: nat) returns (longer: seq<Step>, t: State)
    requires i < |LOG|
    requires Clean(trace, s) && Pair(s, Partition(LOG, i, Some(1), i), Busy(0, 0, FIRST, Handled), Idle, DONE)
    ensures Clean(longer, t) && Pair(t, Partition(LOG, i + 1, Some(1), i + 1), Busy(0, 0, FIRST, Handled), Idle, DONE)
  {
    longer, t := FetchedNext(trace, s, i);
    longer, t := Refused(longer, t, i);
    longer, t := Extend(longer, t, Session(1, Commit(true, true)));
    assert t.parts[0] == Partition(LOG, i + 1, Some(1), i + 1);
  }

  lemma FetchedNext(trace: seq<Step>, s: State, i: nat) returns (longer: seq<Step>, t: State)
    requires i < |LOG| && Clean(trace, s)
    requires Pair(s, Partition(LOG, i, Some(1), i), Busy(0, 0, FIRST, Handled), Idle, DONE)
    ensures Clean(longer, t)
    ensures Pair(t, Partition(LOG, i, Some(1), i + 1), Busy(0, 0, FIRST, Handled), Busy(0, i, LOG[i], Fetched), DONE)
  {
    assert s.parts[0] == Partition(LOG, i, Some(1), i) && s.consumers[1] == Idle;
    longer, t := Extend(trace, s, Session(1, Fetch(0)));
    assert t.parts[0] == Partition(LOG, i, Some(1), i + 1) && t.consumers[1] == Busy(0, i, LOG[i], Fetched);
  }

  lemma Refused(trace: seq<Step>, s: State, i: nat) returns (longer: seq<Step>, t: State)
    requires i < |LOG| && Clean(trace, s)
    requires Pair(s, Partition(LOG, i, Some(1), i + 1), Busy(0, 0, FIRST, Handled), Busy(0, i, LOG[i], Fetched), DONE)
    ensures Clean(longer, t)
    ensures Pair(t, Partition(LOG, i, Some(1), i + 1), Busy(0, 0, FIRST, Handled), Busy(0, i, LOG[i], Handled), DONE)
  {
    assert LOG[i].event == Some(MAIL);
    longer, t := Extend(trace, s, Handler(1, Claim));
    assert t.consumers[1] == Busy(0, i, LOG[i], Handled);
  }

  /** A commit that arrives from a reader whose partition was taken away moves the offset back from
      2 to 1, without any other fault. */
  lemma RevokedReaderCommitsBack()
    ensures exists trace, s, step :: (Clean(trace, s) && Enabled(s, step) && |s.parts| == 1 && CommitsBack(s, step, 0)
      && s.parts[0].committed == 2 && Apply(s, step).parts[0].committed == 1)
  {
    var trace, s := TakenOver();
    trace, s := RefusedAndCommitted(trace, s, 0);
    trace, s := RefusedAndCommitted(trace, s, 1);
    var step := Session(0, Commit(true, true));
    assert Enabled(s, step) && CommitsBack(s, step, 0);
    assert Apply(s, step).parts[0].committed == 1;
  }
}
