/** What a consumer does next, and what becomes of the run when the others and the outcomes of its
    effects are prescribed. A consumer that does not die has no choice: where it is with the record in
    its hands determines the effect that is due. */
module ConsumerSchedule {
  import opened Wrappers
  import opened ClaimStore
  import opened Delivery

  /** What a consumer asks of Kafka, of Redis, of the mail service and of the result topic. */
  datatype Effect =
    | OpenReader | FetchMessage | EnqueueRetry | WriteDeadLetter | CommitMessage
    | SetClaim | SetDone | DeleteClaim
    | SendMail | PublishResult

  /** The effect that is due. */
  function Due(h: Consumer, max: nat): Effect {
    match h
    case Closed => OpenReader
    case Idle => FetchMessage
    case Busy(_, _, rec, stage) =>
      match stage
      case Fetched => if rec.event.Some? then SetClaim else WriteDeadLetter
      case Running => SendMail
      case Mailed => PublishResult
      case Bounced => PublishResult
      case Published(_) => SetDone
      case Failing(_, _) => DeleteClaim
      case Failed(permanent) => if !permanent && rec.attempt < max then EnqueueRetry else WriteDeadLetter
      case Handled => CommitMessage
  }

  predicate Ready(s: State, c: nat, effect: Effect) {
    c < |s.consumers| && effect == Due(s.consumers[c], s.max)
  }

  /** The step is a possible outcome of the effect. Decoding the command belongs to `SendMail`. */
  predicate Answers(step: Step, c: nat, effect: Effect) {
    match effect
    case OpenReader => step == Session(c, Open)
    case FetchMessage => step.Session? && step.c == c && (step.move.Fetch? || step.move.FetchError?)
    case EnqueueRetry => step.Session? && step.c == c && step.move.Enqueue?
    case WriteDeadLetter => step.Session? && step.c == c && step.move.DeadLetter?
    case CommitMessage => step.Session? && step.c == c && step.move.Commit?
    case SetClaim => step.Handler? && step.c == c && (step.act.Claim? || step.act.ClaimError?)
    case SetDone => step.Handler? && step.c == c && (step.act.CompleteOk? || step.act.CompleteError?)
    case DeleteClaim => step.Handler? && step.c == c && step.act.Release?
    case SendMail => step.Handler? && step.c == c && (step.act.DecodeError? || step.act.SendOk? || step.act.SendError?)
    case PublishResult => step.Handler? && step.c == c && (step.act.ReplyOk? || step.act.ReplyError?)
  }

  /** The outcome when nothing else is prescribed; without prescriptions fetching is cancelled. */
  function Fallback(c: nat, effect: Effect): Step {
    match effect
    case OpenReader => Session(c, Open)
    case FetchMessage => Session(c, FetchError)
    case EnqueueRetry => Session(c, Enqueue(true, true))
    case WriteDeadLetter => Session(c, DeadLetter(true))
    case CommitMessage => Session(c, Commit(true, true))
    case SetClaim => Handler(c, Claim)
    case SetDone => Handler(c, CompleteOk)
    case DeleteClaim => Handler(c, Release(true))
    case SendMail => Handler(c, SendOk)
    case PublishResult => Handler(c, ReplyOk)
  }

  predicate ByOthers(step: Step, c: nat) {
    (step.Session? ==> step.c != c) && (step.Handler? ==> step.c != c)
  }

  /** The protocol leaves a consumer no other step than an outcome of the effect that is due, except
      to die; and the fallback is always possible. */
  lemma OwnStepsAreDue(s: State, c: nat, step: Step)
    requires WellFormed(s) && c < |s.consumers|
    ensures
      var effect := Due(s.consumers[c], s.max);
      && (Enabled(s, step) && !ByOthers(step, c) ==> Answers(step, c, effect) || step == Session(c, Crash))
      && (Answers(step, c, effect) ==> !ByOthers(step, c) && step != Session(c, Crash))
      && Enabled(s, Fallback(c, effect)) && Answers(Fallback(c, effect), c, effect)
  {
    if BusyAt(s, c) {
      assert InHandIsLogged(s, c);
    }
  }

  lemma OthersKeepHands(s: State, step: Step, c: nat)
    requires WellFormed(s) && Enabled(s, step) && ByOthers(step, c) && c < |s.consumers|
    ensures
      var t := Apply(s, step);
      && |t.consumers| == |s.consumers| && t.consumers[c] == s.consumers[c] && t.max == s.max
      && s.store.now <= t.store.now
  {
    match step
    case Session(d, move) => MoveByOther(s, d, move, c);
    case _ =>
  }

  lemma MoveByOther(s: State, d: nat, move: Move, c: nat)
    requires WellFormed(s) && MoveEnabled(s, d, move) && c < |s.consumers| && c != d
    ensures
      var t := AfterMove(s, d, move);
      && |t.consumers| == |s.consumers| && t.consumers[c] == s.consumers[c] && t.max == s.max && t.store == s.store
  {
  }

  /** The hands of consumer `c` before and after an effect. */
  ghost predicate HandsMoved(c: nat, step: Step, s: State, t: State) {
    && c < |s.consumers| == |t.consumers| && t.max == s.max && s.store.now <= t.store.now
    && HandsAfter(step, s.consumers[c], t.consumers[c])
  }

  ghost predicate HandsAfter(step: Step, h: Consumer, g: Consumer)
  {
    match step
    case Session(_, move) =>
      (match move
       case Open => g.Idle?
       case Fetch(_) => g.Busy? && g.stage.Fetched?
       case FetchError => g.Closed?
       case Enqueue(ok, _) => if ok then g.Idle? else g.Closed?
       case DeadLetter(_) => g.Closed?
       case Commit(ok, _) => if ok then g.Idle? else g.Closed?
       case Crash => g.Closed?)
    case Handler(_, act) =>
      && h.Busy? && g.Busy? && g == h.(stage := g.stage)
      && (match act
          case Claim => g.stage.Handled? || g.stage.Running?
          case ClaimError(_, permanent) => g.stage == Failed(permanent)
          case CompleteOk => g.stage.Handled?
          case CompleteError(_, permanent) => g.stage == Failed(permanent)
          case Release(_) => h.stage.Failing? && g.stage == Failed(h.stage.permanent)
          case DecodeError(permanent) => g.stage == Failing(false, permanent)
          case SendOk => g.stage.Mailed?
          case SendError => g.stage.Bounced?
          case ReplyOk => g.stage == Published(h.stage.Mailed?)
          case ReplyError(permanent) => g.stage == Failing(h.stage.Mailed?, permanent))
    case _ => true
  }

  lemma OwnHands(s: State, step: Step, c: nat)
    requires WellFormed(s) && Enabled(s, step) && !ByOthers(step, c) && c < |s.consumers|
    ensures HandsMoved(c, step, s, Apply(s, step))
  {
    if step.Session? {
      MoveHands(s, c, step.move);
    }
  }

  lemma MoveHands(s: State, c: nat, move: Move)
    requires WellFormed(s) && MoveEnabled(s, c, move)
    ensures
      var t := AfterMove(s, c, move);
      && c < |t.consumers| == |s.consumers| && t.max == s.max && t.store.now == s.store.now
      && HandsAfter(Session(c, move), s.consumers[c], t.consumers[c])
  {
  }

  // ---- prescribed runs ----

  /** A run so far and what is prescribed for the rest of it: what the others do between two effects of
      the consumer, and how its effects turn out. */
  datatype World = World(state: State, trace: seq<Step>, script: seq<Step>)

  ghost predicate Sane(w: World, c: nat) {
    WellFormed(w.state) && c < |w.state.consumers|
  }

  /** The step leads from `s` to `t`. (The quantifier keeps the verifier from working out the new state
      wherever this is mentioned.) */
  ghost predicate StepLeads(s: State, step: Step, t: State)
    requires WellFormed(s) && Enabled(s, step)
  {
    forall x {:trigger Apply(x, step)} :: x == s ==> t == Apply(x, step)
  }

  ghost function After(s: State, step: Step): (t: State)
    requires WellFormed(s) && Enabled(s, step)
    ensures WellFormed(t) && StepLeads(s, step, t)
  {
    WellFormedKept(s, step);
    assert StepLeads(s, step, Apply(s, step));
    var t :| StepLeads(s, step, t);
    assert t == Apply(s, step);
    t
  }

  lemma AfterIsApply(s: State, step: Step)
    requires WellFormed(s) && Enabled(s, step)
    ensures After(s, step) == Apply(s, step)
  {
  }

  ghost function Taking(w: World, step: Step): World
    requires WellFormed(w.state) && Enabled(w.state, step)
  {
    World(After(w.state, step), w.trace + [step], w.script)
  }

  /** From `w` to `v` consumer `c` has not moved. */
  ghost predicate Waited(w: World, v: World, c: nat) {
    && Sane(v, c) && |v.state.consumers| == |w.state.consumers| && v.state.max == w.state.max
    && c < |w.state.consumers| && v.state.consumers[c] == w.state.consumers[c]
    && w.state.store.now <= v.state.store.now
  }

  /** The others take the steps prescribed for them up to the next one that concerns consumer `c`.
      Steps that are impossible are skipped. */
  ghost function Others(w: World, c: nat): (v: World)
    requires Sane(w, c)
    ensures Waited(w, v, c) && |v.script| <= |w.script|
    decreases |w.script|
  {
    if w.script == [] || !ByOthers(w.script[0], c) then w
    else
      var step, rest := w.script[0], w.script[1..];
      if Enabled(w.state, step) then
        AfterIsApply(w.state, step);
        OthersKeepHands(w.state, step, c);
        Others(Taking(w, step).(script := rest), c)
      else Others(w.(script := rest), c)
  }

  /** The outcome of the effect: the prescribed one if it is possible, otherwise the fallback. */
  ghost function Outcome(w: World, c: nat, effect: Effect): Step {
    if w.script != [] && Answers(w.script[0], c, effect) && Enabled(w.state, w.script[0]) then w.script[0]
    else Fallback(c, effect)
  }

  ghost function Rest(script: seq<Step>): seq<Step> {
    if script == [] then [] else script[1..]
  }

  /** The effect that is due turns out as prescribed. */
  ghost function Own(w: World, c: nat): (v: World)
    requires Sane(w, c)
    ensures Sane(v, c)
  {
    var step := Outcome(w, c, Due(w.state.consumers[c], w.state.max));
    OwnStepsAreDue(w.state, c, step);
    AfterIsApply(w.state, step);
    OwnHands(w.state, step, c);
    Taking(w, step).(script := Rest(w.script))
  }

  /** From `w` to `v` consumer `c` had its effect, with the last step of `v` as the outcome. */
  ghost predicate Moved(w: World, v: World, c: nat) {
    && c < |w.state.consumers| && v.trace != []
    && var step := v.trace[|v.trace| - 1];
    && Answers(step, c, Due(w.state.consumers[c], w.state.max))
    && HandsMoved(c, step, w.state, v.state)
    && (if w.script == [] then v.script == [] && step == Fallback(c, Due(w.state.consumers[c], w.state.max))
        else |v.script| < |w.script|)
  }

  /** One turn: the others, then the effect that is due. */
  ghost function Turn(w: World, c: nat): (v: World)
    requires Sane(w, c)
    ensures Sane(v, c) && Moved(w, v, c)
  {
    OwnMoves(Others(w, c), c);
    Own(Others(w, c), c)
  }

  lemma OwnMoves(w: World, c: nat)
    requires Sane(w, c)
    ensures Moved(w, Own(w, c), c)
  {
    var step := Outcome(w, c, Due(w.state.consumers[c], w.state.max));
    OwnStepsAreDue(w.state, c, step);
    AfterIsApply(w.state, step);
    OwnHands(w.state, step, c);
  }

  /** Up to which point the turns of a consumer are followed. */
  datatype Goal = HandlerReturned | ClaimReturned | SessionOver

  predicate Reached(h: Consumer, goal: Goal) {
    match goal
    case HandlerReturned => !(h.Busy? && InHandler(h.stage))
    case ClaimReturned => !(h.Busy? && (HoldsClaim(h.stage) || (h.stage.Fetched? && h.rec.event.Some?)))
    case SessionOver => h.Closed?
  }

  predicate InHandler(stage: Stage) {
    stage.Running? || stage.Mailed? || stage.Bounced?
  }

  /** How far it is to the end of a session when nothing is prescribed any more. */
  function Distance(h: Consumer): nat {
    match h
    case Closed => 0
    case Idle => 1
    case Busy(_, _, _, stage) =>
      match stage
      case Fetched => 6
      case Running => 5
      case Mailed => 4
      case Bounced => 4
      case Published(_) => 3
      case Failing(_, _) => 3
      case Failed(_) => 2
      case Handled => 2
  }

  lemma FallbackEnds(h: Consumer, g: Consumer, max: nat, c: nat)
    requires !h.Closed? && HandsAfter(Fallback(c, Due(h, max)), h, g)
    ensures Distance(g) < Distance(h)
  {
  }

  lemma MovedEnds(w: World, v: World, c: nat)
    requires Moved(w, v, c) && w.script == [] && !w.state.consumers[c].Closed?
    ensures Distance(v.state.consumers[c]) < Distance(w.state.consumers[c])
  {
    FallbackEnds(w.state.consumers[c], v.state.consumers[c], w.state.max, c);
  }

  /** The turns of consumer `c` up to the goal. */
  ghost function Until(w: World, c: nat, goal: Goal): (v: World)
    requires Sane(w, c)
    ensures Sane(v, c) && Reached(v.state.consumers[c], goal)
    ensures |v.script| <= |w.script| && w.state.store.now <= v.state.store.now
    decreases |w.script|, Distance(w.state.consumers[c])
  {
    if Reached(w.state.consumers[c], goal) then w
    else
      var v := Turn(w, c);
      assert w.script == [] ==> Distance(v.state.consumers[c]) < Distance(w.state.consumers[c]) by {
        if w.script == [] {
          MovedEnds(w, v, c);
        }
      }
      Until(v, c, goal)
  }

  /** A session from the opening of the reader until it is closed. */
  ghost function SessionOf(w: World, c: nat): (v: World)
    requires Sane(w, c)
    ensures Sane(v, c) && v.state.consumers[c].Closed?
    ensures w.script != [] ==> |v.script| < |w.script|
    ensures w.state.store.now <= v.state.store.now
  {
    Until(Turn(w, c), c, SessionOver)
  }

  // ---- turns, sessions and their ends as relations ----

  // The loops of the service are proved against these relations. They say that a world is where the
  // functions above lead, in quantified form, so that the verifier does not work the functions out at
  // every step of a loop.

  ghost predicate Healthy(s: State) {
    forall x {:trigger WellFormed(x)} :: x == s ==> WellFormed(x)
  }

  ghost predicate Proper(w: World, c: nat) {
    c < |w.state.consumers| && Healthy(w.state)
  }

  /** `v` is `w` after one turn. */
  ghost predicate IsTurn(w: World, v: World, c: nat) {
    Proper(w, c) && forall d {:trigger Turn(w, d)} :: d == c ==> v == Turn(w, d)
  }

  /** The turns from `w` and from `v` up to the goal end in the same world. */
  ghost predicate SameEnd(w: World, v: World, c: nat, goal: Goal) {
    Proper(w, c) && Proper(v, c) && forall g {:trigger Until(w, c, g)} :: g == goal ==> Until(v, c, g) == Until(w, c, g)
  }

  /** `v` is where the turns from `w` reach the goal. */
  ghost predicate EndsAt(w: World, v: World, c: nat, goal: Goal) {
    SameEnd(w, v, c, goal) && Reached(v.state.consumers[c], goal)
  }

  /** `v` is `w` after one session. */
  ghost predicate IsSession(w: World, v: World, c: nat) {
    exists u :: IsTurn(w, u, c) && EndsAt(u, v, c, SessionOver)
  }

  lemma EndIsUntil(w: World, v: World, c: nat, goal: Goal)
    requires Sane(w, c)
    ensures EndsAt(w, v, c, goal) <==> v == Until(w, c, goal)
  {
    if EndsAt(w, v, c, goal) {
      assert Sane(v, c);
      assert Until(v, c, goal) == Until(w, c, goal);
    }
    if v == Until(w, c, goal) {
      assert Until(v, c, goal) == v;
    }
  }

  lemma TurnKeepsEnd(w: World, v: World, c: nat, goal: Goal)
    requires IsTurn(w, v, c) && !Reached(w.state.consumers[c], goal)
    ensures SameEnd(w, v, c, goal)
  {
    assert Sane(w, c);
    assert v == Turn(w, c);
  }

  lemma SameEndThen(w: World, u: World, v: World, c: nat, goal: Goal)
    requires SameEnd(w, u, c, goal) && SameEnd(u, v, c, goal)
    ensures SameEnd(w, v, c, goal)
  {
    assert Sane(w, c) && Sane(u, c) && Sane(v, c);
    assert Until(v, c, goal) == Until(u, c, goal) == Until(w, c, goal);
  }

  predicate Before(g1: Goal, g2: Goal) {
    g1 == g2 || g2.SessionOver? || (g1.HandlerReturned? && g2.ClaimReturned?)
  }

  /** The turns up to a later goal pass through the earlier one. */
  lemma {:induction false} UntilLater(w: World, c: nat, g1: Goal, g2: Goal)
    requires Sane(w, c) && Before(g1, g2)
    ensures Until(Until(w, c, g1), c, g2) == Until(w, c, g2)
    decreases |w.script|, Distance(w.state.consumers[c])
  {
    if !Reached(w.state.consumers[c], g1) {
      var v := Turn(w, c);
      if w.script == [] {
        MovedEnds(w, v, c);
      }
      UntilLater(v, c, g1, g2);
    }
  }

  /** On the way to a later goal an earlier one is reached. */
  lemma EndOnTheWay(start: World, w: World, v: World, c: nat, g1: Goal, g2: Goal)
    requires SameEnd(start, w, c, g2) && EndsAt(w, v, c, g1) && Before(g1, g2)
    ensures SameEnd(start, v, c, g2)
  {
    assert Sane(start, c) && Sane(w, c) && Sane(v, c);
    EndIsUntil(w, v, c, g1);
    UntilLater(w, c, g1, g2);
    assert Until(w, c, g2) == Until(start, c, g2);
  }

  lemma SessionIsSessionOf(w: World, v: World, c: nat)
    requires Sane(w, c)
    ensures IsSession(w, v, c) <==> v == SessionOf(w, c)
  {
    if IsSession(w, v, c) {
      var u :| IsTurn(w, u, c) && EndsAt(u, v, c, SessionOver);
      assert u == Turn(w, c);
      EndIsUntil(u, v, c, SessionOver);
    }
    if v == SessionOf(w, c) {
      var u := Turn(w, c);
      EndIsUntil(u, v, c, SessionOver);
      assert IsTurn(w, u, c);
    }
  }
}
