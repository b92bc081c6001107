/** The mail handler on real commands takes the steps that the delivery protocol has for it. */
module HandlerProtocol {
  import opened Wrappers
  import opened ClaimStore
  import opened Delivery
  import H = MailHandler
  import E = MailErrors

  /** The acts of one call of the handler; `permanent` says how its error is classified. */
  function ActsOf(lib: H.Libraries, payload: string, reply: Option<E.Err>, broker: Option<E.Err>, now: string, permanent: bool): seq<Act> {
    match lib.decode(payload)
    case Error(_) => [DecodeError(permanent)]
    case Ok(cmd) =>
      var sent := if H.SendOutcome(lib, H.ToSendRequest(cmd), reply).0.Ok? then SendOk else SendError;
      var published := lib.encode(H.ResultOf(lib, cmd, reply, now)).Ok? && broker.None?;
      [sent, if published then ReplyOk else ReplyError(permanent)]
  }

  function AfterActs(s: State, c: nat, acts: seq<Act>): Option<State>
    requires WellFormed(s)
    decreases |acts|
  {
    if acts == [] then Some(s)
    else if ActEnabled(s, c, acts[0]) then
      ActWellFormed(s, c, acts[0]);
      AfterActs(AfterAct(s, c, acts[0]), c, acts[1..])
    else None
  }

  /** Where a call of the handler leads from `s`: `mailed` says whether the mail was taken, `replied`
      whether a result was published, `failed` carries the classification of a returned error. */
  ghost predicate LeadsTo(s: State, c: nat, acts: seq<Act>, mailed: bool, replied: bool, failed: Option<bool>)
    requires WellFormed(s) && BusyAt(s, c) && s.consumers[c].rec.event.Some?
  {
    var e := EventInHand(s, c);
    match AfterActs(s, c, acts)
    case None => false
    case Some(end) =>
      && BusyAt(end, c)
      && (match failed
          case None => end.consumers[c].stage == Published(mailed)
          case Some(permanent) => end.consumers[c].stage == Failing(mailed, permanent))
      && end.past.sends == s.past.sends + (if mailed then multiset{e} else multiset{})
      && end.past.faults == s.past.faults + (if mailed && !replied then multiset{e} else multiset{})
  }

  lemma OneAct(s: State, c: nat, a: Act)
    requires WellFormed(s) && ActEnabled(s, c, a)
    ensures AfterActs(s, c, [a]) == Some(AfterAct(s, c, a))
  {
    ActWellFormed(s, c, a);
    assert [a][1..] == [];
  }

  lemma TwoActs(s: State, c: nat, a: Act, b: Act)
    requires WellFormed(s) && ActEnabled(s, c, a)
    requires WellFormed(AfterAct(s, c, a)) && ActEnabled(AfterAct(s, c, a), c, b)
    ensures AfterActs(s, c, [a, b]) == Some(AfterAct(AfterAct(s, c, a), c, b))
  {
    OneAct(AfterAct(s, c, a), c, b);
    assert [a, b][1..] == [b];
  }

  lemma SendThenReply(s: State, c: nat, mailed: bool, replied: bool, permanent: bool)
    requires WellFormed(s) && BusyAt(s, c) && s.consumers[c].stage.Running?
    ensures LeadsTo(s, c, [if mailed then SendOk else SendError, if replied then ReplyOk else ReplyError(permanent)],
                    mailed, replied, if replied then None else Some(permanent))
  {
    var a := if mailed then SendOk else SendError;
    var b := if replied then ReplyOk else ReplyError(permanent);
    ActWellFormed(s, c, a);
    TwoActs(s, c, a, b);
  }

  /** From the start of the handler the acts are possible one after the other. If the call returned
      nil the claim is to be completed next, otherwise released; the protocol counts a mail exactly
      when the sender took one, and a fault exactly when a mail was taken and no result published. */
  lemma HandlerFollowsProtocol(
      s: State, c: nat, lib: H.Libraries, payload: string, reply: Option<E.Err>, broker: Option<E.Err>, now: string, permanent: bool)
    requires WellFormed(s) && BusyAt(s, c) && s.consumers[c].stage.Running?
    ensures
      var o := H.HandleOutcome(lib, payload, reply, broker, now);
      LeadsTo(s, c, ActsOf(lib, payload, reply, broker, now, permanent),
              o.accepted != [], o.results != [], if o.err.None? then None else Some(permanent))
  {
    match lib.decode(payload)
    case Error(_) =>
      OneAct(s, c, DecodeError(permanent));
    case Ok(cmd) =>
      var (sent, accepted) := H.SendOutcome(lib, H.ToSendRequest(cmd), reply);
      var published := lib.encode(H.ResultOf(lib, cmd, reply, now)).Ok? && broker.None?;
      SendThenReply(s, c, sent.Ok?, published, permanent);
  }
}
