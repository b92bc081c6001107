/** One mail command: decode it, send the mail, publish exactly one result or return an error. */
module MailHandler {
  import opened Wrappers
  import opened MailErrors
  import opened MailMessage
  import opened Strings

  datatype SendMailCommand = SendMailCommand(
    sessionId: string, clientId: string, userId: string, requestId: string, correlationId: string,
    messageType: string, to: string, data: string)

  datatype SendRequest = SendRequest(
    sessionId: string, clientId: string, userId: string, requestId: string, correlationId: string,
    messageType: string, to: string, data: string)

  datatype SendResult = SendResult(
    sessionId: string, clientId: string, userId: string, requestId: string, correlationId: string,
    messageType: string, to: string, status: string)

  datatype SendMailResult = SendMailResult(
    sessionId: string, clientId: string, userId: string, requestId: string, correlationId: string,
    messageType: string, to: string, status: string, error: string, timestamp: string)

  datatype Result<+T> = Ok(value: T) | Error(err: Err)

  /** The libraries the handler calls: JSON, address parsing and template rendering. A rendered
      email has no recipient yet. */
  datatype Libraries = Libraries(
    decode: string -> Result<SendMailCommand>,
    encode: SendMailResult -> Result<string>,
    isAddress: string -> bool,
    render: (string, string) -> Result<Email>)

  // ---- mapper ----

  function ToSendRequest(cmd: SendMailCommand): SendRequest {
    SendRequest(cmd.sessionId, cmd.clientId, cmd.userId, cmd.requestId, cmd.correlationId,
                cmd.messageType, cmd.to, cmd.data)
  }

  function FailureResult(cmd: SendMailCommand, reason: string, now: string): SendMailResult {
    SendMailResult(cmd.sessionId, cmd.clientId, cmd.userId, cmd.requestId, cmd.correlationId,
                   cmd.messageType, cmd.to, "failed", reason, now)
  }

  function SuccessResult(result: SendResult, now: string): SendMailResult {
    SendMailResult(result.sessionId, result.clientId, result.userId, result.requestId,
                   result.correlationId, result.messageType, result.to, result.status, "", now)
  }

  // ---- application service ----

  /** The email a request is turned into before it is handed to the sender. */
  function Prepare(lib: Libraries, req: SendRequest): Result<Email> {
    if TrimSpace(req.messageType) == "" then Error(Known(InvalidMessageType))
    else if !lib.isAddress(req.to) then Error(Known(InvalidRecipientEmail))
    else
      match lib.render(req.messageType, req.data)
      case Error(err) => Error(err)
      case Ok(email) => Ok(email.(to := req.to))
  }

  /** The mail sender. `replies` are its future answers, `accepted` the mail it has taken. */
  class MailSender {
    var replies: seq<Option<Err>>
    var accepted: seq<Email>

    function Reply(): Option<Err>
      reads this
    {
      if replies == [] then None else replies[0]
    }

    method Send(email: Email) returns (err: Option<Err>)
      modifies this
      ensures err == old(Reply())
      ensures accepted == old(accepted) + if err.None? then [email] else []
    {
      err := Reply();
      replies := if replies == [] then [] else replies[1..];
      if err.None? {
        accepted := accepted + [email];
      }
    }
  }

  class MailService {
    const lib: Libraries
    const sender: MailSender

    constructor (lib: Libraries, sender: MailSender)
      ensures this.lib == lib && this.sender == sender
    {
      this.lib := lib;
      this.sender := sender;
    }

    method Send(req: SendRequest) returns (result: Result<SendResult>)
      modifies sender
      ensures sender.accepted == old(sender.accepted) + SendOutcome(lib, req, old(sender.Reply())).1
      ensures result == SendOutcome(lib, req, old(sender.Reply())).0
    {
      if TrimSpace(req.messageType) == "" {
        return Error(Known(InvalidMessageType));
      }
      if !lib.isAddress(req.to) {
        return Error(Known(InvalidRecipientEmail));
      }
      var rendered := lib.render(req.messageType, req.data);
      if rendered.Error? {
        return Error(rendered.err);
      }
      var email := rendered.value;
      email := email.(to := req.to);
      var err := sender.Send(email);
      if err.Some? {
        return Error(err.value);
      }
      return Ok(SendResult(req.sessionId, req.clientId, req.userId, req.requestId, req.correlationId,
                           req.messageType, req.to, "success"));
    }
  }

  /** The outcome of a send together with the mail the sender took, given what the sender answers. */
  function SendOutcome(lib: Libraries, req: SendRequest, reply: Option<Err>): (Result<SendResult>, seq<Email>) {
    match Prepare(lib, req)
    case Error(err) => (Error(err), [])
    case Ok(email) =>
      match reply
      case Some(err) => (Error(err), [])
      case None =>
        (Ok(SendResult(req.sessionId, req.clientId, req.userId, req.requestId, req.correlationId,
                       req.messageType, req.to, "success")), [email])
  }

  /** The type is refused exactly when nothing is left of it without the white space around it; the
      same error can only come from rendering or from the sender. */
  lemma TypeRefusedIff(lib: Libraries, req: SendRequest, reply: Option<Err>)
    ensures SendOutcome(lib, req, reply).0 == Error(Known(InvalidMessageType)) <==>
      || TrimSpace(req.messageType) == ""
      || (&& lib.isAddress(req.to)
          && match lib.render(req.messageType, req.data)
             case Error(err) => err == Known(InvalidMessageType)
             case Ok(_) => reply == Some(Known(InvalidMessageType)))
    ensures TrimSpace(req.messageType) == "" ==> SendOutcome(lib, req, reply).1 == []
  {
  }

  /** A type with a letter, a digit or an underscore is never refused for its type. */
  lemma OrdinaryTypePasses(lib: Libraries, req: SendRequest, i: nat)
    requires i < |req.messageType| && IsWordChar(req.messageType[i])
    requires lib.isAddress(req.to) && lib.render(req.messageType, req.data).Ok?
    ensures SendOutcome(lib, req, None).0.Ok?
    ensures SendOutcome(lib, req, None).1 == [lib.render(req.messageType, req.data).value.(to := req.to)]
  {
    NamedChars();
    NothingLeftIff(req.messageType);
  }

  /** The empty type and one made of blanks, tabs and line ends always are. */
  lemma BlankTypeIsRefused(lib: Libraries, req: SendRequest, reply: Option<Err>)
    requires forall i :: 0 <= i < |req.messageType| ==> req.messageType[i] in " \t\r\n"
    ensures SendOutcome(lib, req, reply) == (Error(Known(InvalidMessageType)), [])
  {
    NamedChars();
    NothingLeftIff(req.messageType);
  }

  // ---- subscriber ----

  /** The result topic. `replies` are the future answers of the broker, `published` what it took. */
  class ResultTopic {
    var replies: seq<Option<Err>>
    var published: seq<string>

    function Reply(): Option<Err>
      reads this
    {
      if replies == [] then None else replies[0]
    }

    method Publish(payload: string) returns (err: Option<Err>)
      modifies this
      ensures err == old(Reply())
      ensures published == old(published) + if err.None? then [payload] else []
    {
      err := Reply();
      replies := if replies == [] then [] else replies[1..];
      if err.None? {
        published := published + [payload];
      }
    }
  }

  /** What one call of the handler does, given the answers of the sender and of the broker. */
  datatype Outcome = Outcome(err: Option<Err>, accepted: seq<Email>, results: seq<SendMailResult>)

  function ResultOf(lib: Libraries, cmd: SendMailCommand, reply: Option<Err>, now: string): SendMailResult {
    match SendOutcome(lib, ToSendRequest(cmd), reply).0
    case Error(err) => FailureResult(cmd, SendMailFailureReason(err), now)
    case Ok(result) => SuccessResult(result, now)
  }

  function HandleOutcome(lib: Libraries, payload: string, reply: Option<Err>, broker: Option<Err>, now: string): Outcome {
    match lib.decode(payload)
    case Error(err) => Outcome(Some(Wrapped("unmarshal send mail command", err)), [], [])
    case Ok(cmd) =>
      var accepted := SendOutcome(lib, ToSendRequest(cmd), reply).1;
      var result := ResultOf(lib, cmd, reply, now);
      match lib.encode(result)
      case Error(err) => Outcome(Some(err), accepted, [])
      case Ok(_) =>
        if broker.Some? then Outcome(broker, accepted, []) else Outcome(None, accepted, [result])
  }

  class MailCommandSubscriber {
    const lib: Libraries
    const service: MailService
    const topic: ResultTopic

    constructor (lib: Libraries, service: MailService, topic: ResultTopic)
      ensures this.lib == lib && this.service == service && this.topic == topic
    {
      this.lib := lib;
      this.service := service;
      this.topic := topic;
    }

    method Handle(payload: string, now: string) returns (err: Option<Err>)
      requires service.lib == lib
      modifies service.sender, topic
      ensures
        var outcome := HandleOutcome(lib, payload, old(service.sender.Reply()), old(topic.Reply()), now);
        && err == outcome.err
        && service.sender.accepted == old(service.sender.accepted) + outcome.accepted
        && |topic.published| == |old(topic.published)| + |outcome.results|
        && (outcome.results != [] ==>
              topic.published == old(topic.published) + [lib.encode(outcome.results[0]).value])
        && (outcome.results == [] ==> topic.published == old(topic.published))
    {
      var decoded := lib.decode(payload);
      if decoded.Error? {
        return Some(Wrapped("unmarshal send mail command", decoded.err));
      }
      var cmd := decoded.value;
      var request := ToSendRequest(cmd);
      var sent := service.Send(request);
      if sent.Error? {
        var encoded := lib.encode(FailureResult(cmd, SendMailFailureReason(sent.err), now));
        if encoded.Error? {
          return Some(encoded.err);
        }
        err := topic.Publish(encoded.value);
        return;
      }
      var encoded := lib.encode(SuccessResult(sent.value, now));
      if encoded.Error? {
        return Some(encoded.err);
      }
      err := topic.Publish(encoded.value);
    }
  }

  /** A published result names the command it answers. */
  predicate Answers(result: SendMailResult, cmd: SendMailCommand) {
    && result.sessionId == cmd.sessionId
    && result.clientId == cmd.clientId
    && result.userId == cmd.userId
    && result.requestId == cmd.requestId
    && result.correlationId == cmd.correlationId
    && result.messageType == cmd.messageType
    && result.to == cmd.to
  }

  /** A call that returns nil has published exactly one result; its status says whether the sender
      took the mail, its fields are the command's on both paths, and a failed result carries a
      reason of the list. A call that returns an error has published nothing. */
  lemma OneResultPerCompletedCommand(lib: Libraries, payload: string, reply: Option<Err>, broker: Option<Err>, now: string)
    ensures
      var o := HandleOutcome(lib, payload, reply, broker, now);
      && (o.err.Some? ==> o.results == [])
      && (o.err.None? ==>
            && |o.results| == 1 && lib.decode(payload).Ok?
            && Answers(o.results[0], lib.decode(payload).value)
            && o.results[0].timestamp == now
            && (o.results[0].status == "success" <==> |o.accepted| == 1)
            && (o.results[0].status == "failed" <==> o.accepted == [])
            && (o.results[0].status == "success" ==>
                  o.results[0].error == "" && o.accepted[0].to == o.results[0].to)
            && (o.results[0].status == "failed" ==>
                  exists k :: 0 <= k <= |PRIORITY| && o.results[0].error == ReasonAt(k)))
  {
    var o := HandleOutcome(lib, payload, reply, broker, now);
    assert |"success"| == 7 && |"failed"| == 6;
    if o.err.None? {
      var cmd := lib.decode(payload).value;
      match SendOutcome(lib, ToSendRequest(cmd), reply).0
      case Ok(_) =>
      case Error(err) =>
        var k := FirstReachedFrom(err, 0);
        ReasonOfFirst(err, k);
    }
  }

  /** A returned error is the first one in the way of a result: the wrapped decoding error, the encoding
      error of the result, or the error of the broker. */
  lemma ErrorNamesItsCause(lib: Libraries, payload: string, reply: Option<Err>, broker: Option<Err>, now: string)
    ensures
      var o := HandleOutcome(lib, payload, reply, broker, now);
      match lib.decode(payload)
      case Error(err) => o.err == Some(Wrapped("unmarshal send mail command", err)) && o.accepted == []
      case Ok(cmd) =>
        exists result :: Answers(result, cmd) && result.timestamp == now
          && (result.status == "success" <==> Obstacle(lib, cmd, reply).None?)
          && o.err == match lib.encode(result) case Error(err) => Some(err) case Ok(_) => broker
  {
    if lib.decode(payload).Ok? {
      var cmd := lib.decode(payload).value;
      var result := ResultOf(lib, cmd, reply, now);
      assert |"success"| == 7 && |"failed"| == 6;
      assert Answers(result, cmd);
    }
  }

  /** What keeps the mail of a command from being taken: the first obstacle on its way. */
  function Obstacle(lib: Libraries, cmd: SendMailCommand, reply: Option<Err>): Option<Err> {
    if TrimSpace(cmd.messageType) == "" then Some(Known(InvalidMessageType))
    else if !lib.isAddress(cmd.to) then Some(Known(InvalidRecipientEmail))
    else
      match lib.render(cmd.messageType, cmd.data)
      case Error(err) => Some(err)
      case Ok(_) => reply
  }

  /** A published result tells what became of the mail: it is a success exactly if nothing was in the
      way, and then the sender has taken the rendered email for the command's recipient; otherwise it
      gives the reason of the most specific sentinel in the first obstacle. */
  lemma ResultTellsObstacle(
      lib: Libraries, payload: string, reply: Option<Err>, broker: Option<Err>, now: string, k: nat)
    requires k <= |PRIORITY| && HandleOutcome(lib, payload, reply, broker, now).err.None?
    ensures
      var o := HandleOutcome(lib, payload, reply, broker, now);
      && |o.results| == 1 && lib.decode(payload).Ok?
      && var cmd := lib.decode(payload).value;
      match Obstacle(lib, cmd, reply)
      case None =>
        && o.results[0].status == "success"
        && lib.render(cmd.messageType, cmd.data).Ok?
        && o.accepted == [lib.render(cmd.messageType, cmd.data).value.(to := cmd.to)]
      case Some(err) =>
        && o.results[0].status == "failed" && o.accepted == []
        && (o.results[0].error == ReasonAt(k) <==> FirstReached(err, k))
  {
    var cmd := lib.decode(payload).value;
    var obstacle := Obstacle(lib, cmd, reply);
    if obstacle.Some? {
      ReasonIffFirstReached(obstacle.value, k);
    }
  }

  /** The mail is taken without a result exactly when the command decodes, the mail can be prepared,
      the sender takes it, and then encoding or publishing the success result fails. */
  lemma MailWithoutResult(lib: Libraries, payload: string, reply: Option<Err>, broker: Option<Err>, now: string)
    ensures
      var o := HandleOutcome(lib, payload, reply, broker, now);
      o.accepted != [] && o.results == [] <==>
        && lib.decode(payload).Ok?
        && var cmd := lib.decode(payload).value;
        && Prepare(lib, ToSendRequest(cmd)).Ok?
        && reply.None?
        && (broker.Some? || lib.encode(SendMailResult(cmd.sessionId, cmd.clientId, cmd.userId, cmd.requestId,
              cmd.correlationId, cmd.messageType, cmd.to, "success", "", now)).Error?)
  {
    if lib.decode(payload).Ok? {
      var cmd := lib.decode(payload).value;
      var (sent, accepted) := SendOutcome(lib, ToSendRequest(cmd), reply);
      assert accepted != [] <==> sent.Ok?;
    }
  }
}
