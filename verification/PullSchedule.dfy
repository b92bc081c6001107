/** What the goroutines of the pull-consumer runtime do next, and what becomes of a run when the others
    and the outcomes of its operations are prescribed. */
module PullSchedule {
  import opened Wrappers
  import opened PullPlan
  import opened PullRuntime

  datatype Goroutine = TheWorker(w: nat) | TheFetcher

  /** Where a goroutine is when it hands over to the others. */
  datatype Point =
    | SelectJob | CallHandler | SendAck | SendNak
    | CheckStop | UpdatePlan | FetchBatch | SelectSend | EndOfBatch | AwaitWorkers

  /** The point at which the goroutine is, while it runs. */
  function At(s: State, g: Goroutine): Option<Point> {
    match g
    case TheWorker(w) =>
      if w >= |s.workers| then None
      else
        (match s.workers[w]
         case Selecting => Some(SelectJob)
         case Handling(_) => Some(CallHandler)
         case Acking(_) => Some(SendAck)
         case Naking(_) => Some(SendNak)
         case _ => None)
    case TheFetcher =>
      match s.fetcher
      case Checking => Some(CheckStop)
      case Planning => Some(UpdatePlan)
      case Fetching => Some(FetchBatch)
      case Dispatching(rest) => Some(if rest == [] then EndOfBatch else SelectSend)
      case Waiting => Some(AwaitWorkers)
      case _ => None
  }

  predicate ByOthers(step: Step, g: Goroutine) {
    match g
    case TheWorker(w) => step.W? ==> step.w != w
    case TheFetcher => !step.F?
  }

  /** The step is one the goroutine may take at this point. */
  predicate Answers(step: Step, g: Goroutine, point: Point) {
    && !ByOthers(step, g)
    && match point
       case SelectJob => step.W? && (step.wact.Stop? || step.wact.StopOnClosed? || step.wact.Receive?)
       case CallHandler => step.W? && (step.wact.HandlerOk? || step.wact.HandlerError?)
       case SendAck => step.W? && step.wact.Ack?
       case SendNak => step.W? && step.wact.Nak?
       case CheckStop => step.F? && step.fact.Check?
       case UpdatePlan => step.F? && step.fact.Update?
       case FetchBatch => step.F? && (step.fact.Fetch? || step.fact.FetchError?)
       case SelectSend => step.F? && (step.fact.Send? || step.fact.Drop?)
       case EndOfBatch => step.F? && step.fact.NextRound?
       case AwaitWorkers => step.F? && step.fact.CloseJobs?
  }

  /** A step that is possible at this point, if the goroutine is not blocked. */
  function Fallback(cfg: PullConsumerConfig, s: State, g: Goroutine): Option<Step> {
    match At(s, g)
    case None => None
    case Some(point) =>
      match point
      case SelectJob =>
        if s.cancelled then Some(W(g.w, Stop))
        else if s.jobs != [] then Some(W(g.w, Receive))
        else if s.closed then Some(W(g.w, StopOnClosed))
        else None
      case CallHandler => Some(W(g.w, HandlerOk))
      case SendAck => Some(W(g.w, Ack(true)))
      case SendNak => Some(W(g.w, Nak))
      case CheckStop => Some(F(Check))
      case UpdatePlan => Some(F(Update(Look(s.plan.lastCheck, None))))
      case FetchBatch => Some(F(FetchError))
      case SelectSend =>
        if s.cancelled then Some(F(Drop))
        else if !s.closed && |s.jobs| < cfg.queueSize then Some(F(Send))
        else None
      case EndOfBatch => Some(F(NextRound))
      case AwaitWorkers => if s.wg == 0 then Some(F(CloseJobs)) else None
  }

  /** A running goroutine can only take steps that belong to the point where it is; the fallback is one
      of them, and there is none only if every one of them is impossible. */
  lemma OwnStepsBelong(cfg: PullConsumerConfig, s: State, g: Goroutine, step: Step)
    requires At(s, g).Some?
    ensures Enabled(cfg, s, step) && !ByOthers(step, g) ==> Answers(step, g, At(s, g).value) && Fallback(cfg, s, g).Some?
    ensures
      var fallback := Fallback(cfg, s, g);
      fallback.Some? ==> Enabled(cfg, s, fallback.value) && Answers(fallback.value, g, At(s, g).value)
  {
  }

  /** From `s` to `t` only others moved. */
  ghost predicate SameHands(s: State, t: State, g: Goroutine) {
    && |t.workers| == |s.workers| && At(t, g) == At(s, g)
    && (g.TheWorker? && g.w < |s.workers| ==> t.workers[g.w] == s.workers[g.w])
    && (g.TheFetcher? ==> t.fetcher == s.fetcher && t.plan == s.plan)
    && (s.cancelled ==> t.cancelled)
  }

  lemma OthersKeepHands(cfg: PullConsumerConfig, s: State, step: Step, g: Goroutine)
    requires Enabled(cfg, s, step) && ByOthers(step, g)
    ensures SameHands(s, Apply(cfg, s, step), g)
  {
  }

  /** The goroutine itself before and after its step. */
  ghost predicate OwnHands(cfg: PullConsumerConfig, step: Step, s: State, t: State) {
    match step
    case Cancel => false
    case W(w, act) =>
      && w < |s.workers| == |t.workers|
      && (match act
          case Begin => false
          case Stop => t.cancelled && t.workers[w].Returned?
          case StopOnClosed => t.workers[w].Returned?
          case Receive => t.workers[w].Handling?
          case HandlerOk => s.workers[w].Handling? && t.workers[w] == Acking(s.workers[w].msg)
          case HandlerError => s.workers[w].Handling? && t.workers[w] == Naking(s.workers[w].msg)
          case Ack(_) => t.workers[w].Selecting?
          case Nak => t.workers[w].Selecting?)
    case F(act) =>
      && (!act.Update? ==> t.plan == s.plan)
      && (match act
          case Born => false
          case Check => t.fetcher == if t.cancelled then Waiting else Planning
          case Update(look) => t.fetcher.Fetching? && t.plan == AfterLook(cfg, s.plan, look)
          case Fetch(n) => t.fetcher.Dispatching? && |t.fetcher.rest| == n <= s.plan.plan.batch
          case FetchError => t.fetcher.Checking?
          case Send => s.fetcher.Dispatching? && s.fetcher.rest != [] && t.fetcher == Dispatching(s.fetcher.rest[1..])
          case Drop => t.fetcher.Waiting? && t.cancelled && s.fetcher.Dispatching? && t.dropped == s.fetcher.rest
          case NextRound => t.fetcher.Checking?
          case CloseJobs => t.fetcher.Gone? && t.closed && t.wg == 0)
  }

  lemma StepOwnHands(cfg: PullConsumerConfig, s: State, g: Goroutine, step: Step)
    requires At(s, g).Some? && Enabled(cfg, s, step) && Answers(step, g, At(s, g).value)
    ensures OwnHands(cfg, step, s, Apply(cfg, s, step))
  {
  }

  /** Others moved first, then the goroutine. */
  ghost predicate HandsMoved(cfg: PullConsumerConfig, step: Step, g: Goroutine, s: State, t: State) {
    exists u :: SameHands(s, u, g) && OwnHands(cfg, step, u, t)
  }

  lemma LaterHands(cfg: PullConsumerConfig, step: Step, g: Goroutine, s: State, u: State, t: State)
    requires SameHands(s, u, g) && HandsMoved(cfg, step, g, u, t)
    ensures HandsMoved(cfg, step, g, s, t)
  {
    var v :| SameHands(u, v, g) && OwnHands(cfg, step, v, t);
    assert SameHands(s, v, g);
  }

  // ---- prescribed runs ----

  datatype World = World(state: State, trace: seq<Step>, script: seq<Step>)

  ghost function Taking(cfg: PullConsumerConfig, w: World, step: Step): World
    requires Enabled(cfg, w.state, step)
  {
    World(Apply(cfg, w.state, step), w.trace + [step], Rest(w.script))
  }

  ghost function Rest(script: seq<Step>): seq<Step> {
    if script == [] then [] else script[1..]
  }

  /** The others take the steps prescribed for them up to the next one of goroutine `g`. Steps that are
      impossible are skipped. */
  ghost function Others(cfg: PullConsumerConfig, w: World, g: Goroutine): (v: World)
    ensures SameHands(w.state, v.state, g) && |v.script| <= |w.script|
    decreases |w.script|
  {
    if w.script == [] || !ByOthers(w.script[0], g) then w
    else if Enabled(cfg, w.state, w.script[0]) then
      OthersKeepHands(cfg, w.state, w.script[0], g);
      Others(cfg, Taking(cfg, w, w.script[0]), g)
    else Others(cfg, w.(script := Rest(w.script)), g)
  }

  /** The prescribed step if it is possible, otherwise the fallback, unless the goroutine is blocked. */
  ghost function Choice(cfg: PullConsumerConfig, w: World, g: Goroutine): (r: Option<Step>)
    requires At(w.state, g).Some?
    ensures r.Some? ==> Enabled(cfg, w.state, r.value) && Answers(r.value, g, At(w.state, g).value)
    ensures r.None? ==> Fallback(cfg, w.state, g).None?
  {
    if w.script != [] && Enabled(cfg, w.state, w.script[0]) && Answers(w.script[0], g, At(w.state, g).value) then
      Some(w.script[0])
    else
      var fallback := Fallback(cfg, w.state, g);
      (if fallback.Some? then
        OwnStepsBelong(cfg, w.state, g, fallback.value);
        fallback
      else None)
  }

  /** In a turn the goroutine took this step, or was blocked when the script was over. */
  ghost predicate Moved(cfg: PullConsumerConfig, w: World, v: World, taken: Option<Step>, g: Goroutine) {
    && At(w.state, g).Some?
    && (if w.script == [] then v.script == [] && (taken.Some? ==> taken == Fallback(cfg, w.state, g))
        else |v.script| < |w.script|)
    && match taken
       case None => v.script == [] && SameHands(w.state, v.state, g) && Fallback(cfg, v.state, g).None?
       case Some(step) =>
         && Answers(step, g, At(w.state, g).value) && v.trace != [] && step == v.trace[|v.trace| - 1]
         && HandsMoved(cfg, step, g, w.state, v.state)
  }

  lemma TakingMoves(cfg: PullConsumerConfig, w: World, g: Goroutine, step: Step)
    requires At(w.state, g).Some? && Choice(cfg, w, g) == Some(step)
    ensures Moved(cfg, w, Taking(cfg, w, step), Some(step), g)
  {
    StepOwnHands(cfg, w.state, g, step);
    assert SameHands(w.state, w.state, g);
  }

  lemma MovedLater(cfg: PullConsumerConfig, w: World, u: World, v: World, taken: Option<Step>, g: Goroutine)
    requires SameHands(w.state, u.state, g) && Moved(cfg, u, v, taken, g)
    requires |u.script| < |w.script| || u == w
    ensures Moved(cfg, w, v, taken, g)
  {
    if taken.Some? {
      LaterHands(cfg, taken.value, g, w.state, u.state, v.state);
    }
  }

  /** The others go on until the goroutine has taken a step, or the script is over and it is blocked. */
  ghost function Turn(cfg: PullConsumerConfig, w: World, g: Goroutine): (r: (World, Option<Step>))
    requires At(w.state, g).Some?
    ensures Moved(cfg, w, r.0, r.1, g)
    decreases |w.script|
  {
    var v := Others(cfg, w, g);
    OthersShorter(cfg, w, g);
    match Choice(cfg, v, g)
    case Some(step) =>
      TakingMoves(cfg, v, g, step);
      MovedLater(cfg, w, v, Taking(cfg, v, step), Some(step), g);
      (Taking(cfg, v, step), Some(step))
    case None =>
      if v.script == [] then (v, None)
      else
        var u := v.(script := Rest(v.script));
        MovedLater(cfg, w, u, Turn(cfg, u, g).0, Turn(cfg, u, g).1, g);
        Turn(cfg, u, g)
  }

  lemma {:induction false} OthersTwice(cfg: PullConsumerConfig, w: World, g: Goroutine)
    ensures Others(cfg, Others(cfg, w, g), g) == Others(cfg, w, g)
    decreases |w.script|
  {
    if w.script != [] && ByOthers(w.script[0], g) {
      if Enabled(cfg, w.state, w.script[0]) {
        OthersTwice(cfg, Taking(cfg, w, w.script[0]), g);
      } else {
        OthersTwice(cfg, w.(script := Rest(w.script)), g);
      }
    }
  }

  lemma OthersShorter(cfg: PullConsumerConfig, w: World, g: Goroutine)
    ensures Others(cfg, w, g) == w || |Others(cfg, w, g).script| < |w.script|
  {
  }

  /** How far it is to the next pause when nothing is prescribed any more. */
  function Distance(s: State, g: Goroutine): nat {
    match g
    case TheWorker(w) =>
      if w >= |s.workers| then 0
      else
        (match s.workers[w]
         case Handling(_) => 3
         case Acking(_) => 2
         case Naking(_) => 2
         case Selecting => 1
         case _ => 0)
    case TheFetcher =>
      match s.fetcher
      case Planning => 4
      case Fetching => 3
      case Dispatching(rest) => |rest| + 3
      case Checking => 2
      case Waiting => 1
      case _ => 0
  }

  /** The goroutine has returned, or the script is over and it is at the top of its loop. */
  predicate Pauses(w: World, g: Goroutine) {
    match At(w.state, g)
    case None => true
    case Some(point) => w.script == [] && (point.SelectJob? || point.CheckStop?)
  }

  lemma FallbackPauses(cfg: PullConsumerConfig, w: World, v: World, g: Goroutine)
    requires w.script == [] && !Pauses(w, g) && Moved(cfg, w, v, Fallback(cfg, w.state, g), g)
    requires Fallback(cfg, w.state, g).Some?
    ensures Distance(v.state, g) < Distance(w.state, g)
  {
    var u :| SameHands(w.state, u, g) && OwnHands(cfg, Fallback(cfg, w.state, g).value, u, v.state);
  }

  /** The turns of the goroutine until it pauses or is blocked. */
  ghost function Run(cfg: PullConsumerConfig, w: World, g: Goroutine): (v: World)
    decreases |w.script|, Distance(w.state, g)
  {
    if Pauses(w, g) then w
    else
      var (v, taken) := Turn(cfg, w, g);
      if taken.None? then v
      else
        assert w.script == [] ==> Distance(v.state, g) < Distance(w.state, g) by {
          if w.script == [] {
            FallbackPauses(cfg, w, v, g);
          }
        }
        Run(cfg, v, g)
  }

  // ---- turns and runs as relations ----

  // The loops of the goroutines are proved against these relations. Their quantifiers keep the verifier
  // from working out turns at every step of a loop.

  /** The runs of the goroutine from `w` and from `v` end in the same world. */
  ghost predicate SameEnd(cfg: PullConsumerConfig, w: World, v: World, g: Goroutine) {
    forall h {:trigger Run(cfg, w, h)} :: h == g ==> Run(cfg, v, h) == Run(cfg, w, h)
  }

  /** `v` is where the run of the goroutine from `w` ends. */
  ghost predicate EndsAt(cfg: PullConsumerConfig, w: World, v: World, g: Goroutine) {
    forall h {:trigger Run(cfg, w, h)} :: h == g ==> v == Run(cfg, w, h)
  }

  ghost predicate IsTurn(cfg: PullConsumerConfig, w: World, v: World, taken: Option<Step>, g: Goroutine) {
    At(w.state, g).Some? && forall h {:trigger Turn(cfg, w, h)} :: h == g ==> Turn(cfg, w, h) == (v, taken)
  }

  /** The turn of the goroutine from `w` is the one from `v`, where the others have nothing to do. */
  ghost predicate SameTurn(cfg: PullConsumerConfig, w: World, v: World, g: Goroutine) {
    && At(w.state, g).Some? && At(v.state, g).Some? && Others(cfg, v, g) == v
    && forall h {:trigger Turn(cfg, w, h)} :: h == g ==> Turn(cfg, v, h) == Turn(cfg, w, h)
  }

  lemma TurnBegins(cfg: PullConsumerConfig, w: World, g: Goroutine)
    requires At(w.state, g).Some?
    ensures SameTurn(cfg, w, Others(cfg, w, g), g)
  {
    OthersTwice(cfg, w, g);
  }

  lemma TurnGoesOn(cfg: PullConsumerConfig, from: World, w: World, g: Goroutine)
    requires SameTurn(cfg, from, w, g) && Choice(cfg, w, g).None? && w.script != []
    ensures SameTurn(cfg, from, Others(cfg, w.(script := Rest(w.script)), g), g)
  {
    var u := w.(script := Rest(w.script));
    assert Turn(cfg, w, g) == Turn(cfg, u, g);
    TurnBegins(cfg, u, g);
    assert Turn(cfg, Others(cfg, u, g), g) == Turn(cfg, u, g);
    assert Turn(cfg, w, g) == Turn(cfg, from, g);
  }

  lemma TurnEnds(cfg: PullConsumerConfig, from: World, w: World, v: World, taken: Option<Step>, g: Goroutine)
    requires SameTurn(cfg, from, w, g) && Choice(cfg, w, g) == taken
    requires if taken.Some? then v == Taking(cfg, w, taken.value) else v == w && w.script == []
    ensures IsTurn(cfg, from, v, taken, g) && Moved(cfg, from, v, taken, g)
  {
    assert Turn(cfg, w, g) == (v, taken);
    assert Turn(cfg, w, g) == Turn(cfg, from, g);
  }

  lemma TurnKeepsEnd(cfg: PullConsumerConfig, start: World, w: World, v: World, taken: Option<Step>, g: Goroutine)
    requires SameEnd(cfg, start, w, g) && IsTurn(cfg, w, v, taken, g) && !Pauses(w, g)
    ensures if taken.Some? then SameEnd(cfg, start, v, g) else EndsAt(cfg, start, v, g)
  {
    assert Turn(cfg, w, g) == (v, taken);
    assert Run(cfg, w, g) == Run(cfg, start, g);
  }

  lemma PauseIsEnd(cfg: PullConsumerConfig, start: World, v: World, g: Goroutine)
    requires SameEnd(cfg, start, v, g) && Pauses(v, g)
    ensures EndsAt(cfg, start, v, g)
  {
    assert Run(cfg, v, g) == Run(cfg, start, g);
  }

  // ---- runs that can be prescribed ----

  /** Steps of the transition system from `s` to `t`, up to a point where goroutine `g` has returned or
      is at the top of its loop, and with its own step as the last. */
  ghost predicate Plays(cfg: PullConsumerConfig, s: State, steps: seq<Step>, g: Goroutine, t: State)
    decreases |steps|
  {
    if steps == [] then
      s == t && (At(s, g).None? || At(s, g).value.SelectJob? || At(s, g).value.CheckStop?)
    else
      && At(s, g).Some? && Enabled(cfg, s, steps[0]) && (|steps| == 1 ==> !ByOthers(steps[0], g))
      && Plays(cfg, Apply(cfg, s, steps[0]), steps[1..], g, t)
  }

  lemma OtherIsPassed(cfg: PullConsumerConfig, w: World, g: Goroutine)
    requires At(w.state, g).Some? && w.script != [] && ByOthers(w.script[0], g) && Enabled(cfg, w.state, w.script[0])
    ensures
      var v := Taking(cfg, w, w.script[0]);
      At(v.state, g) == At(w.state, g) && Turn(cfg, w, g) == Turn(cfg, v, g)
  {
    var v := Taking(cfg, w, w.script[0]);
    OthersKeepHands(cfg, w.state, w.script[0], g);
    assert Others(cfg, w, g) == Others(cfg, v, g);
  }

  lemma OwnIsTaken(cfg: PullConsumerConfig, w: World, g: Goroutine)
    requires At(w.state, g).Some? && w.script != [] && !ByOthers(w.script[0], g) && Enabled(cfg, w.state, w.script[0])
    ensures Turn(cfg, w, g) == (Taking(cfg, w, w.script[0]), Some(w.script[0]))
  {
    OwnStepsBelong(cfg, w.state, g, w.script[0]);
    assert Others(cfg, w, g) == w;
  }

  /** Every run of the transition system comes about when it is prescribed: whatever happens between two
      steps of a goroutine, and however its operations turn out, its loop takes these steps. */
  lemma {:induction false} RunIsPlayed(cfg: PullConsumerConfig, w: World, steps: seq<Step>, g: Goroutine, t: State)
    requires Plays(cfg, w.state, steps, g, t) && w.script == steps
    ensures EndsAt(cfg, w, World(t, w.trace + steps, []), g)
    decreases |steps|
  {
    if steps == [] {
      assert w.trace + steps == w.trace;
      assert Run(cfg, w, g) == w;
    } else {
      var v := Taking(cfg, w, steps[0]);
      RunIsPlayed(cfg, v, steps[1..], g, t);
      assert (w.trace + [steps[0]]) + steps[1..] == w.trace + steps;
      if ByOthers(steps[0], g) {
        OtherIsPassed(cfg, w, g);
      } else {
        OwnIsTaken(cfg, w, g);
      }
      assert Run(cfg, w, g) == Run(cfg, v, g);
    }
  }
}
