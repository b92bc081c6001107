/** The mail error sentinels, Go's error trees over them, and the reason put into a failed result. */
module MailErrors {
  import opened Wrappers

  datatype Sentinel =
    | InvalidRecipientEmail
    | InvalidMessageType
    | TemplateNotFound
    | TemplateSubjectEmpty
    | TemplateBodyEmpty
    | FailedToRenderMail
    | FailedToSendMail

  /** An error value: a sentinel, an error outside this module, a `%w` wrapping of one error,
      or a joining of several. A cause printed with `%v` is text, so it is not part of the tree. */
  datatype Err =
    | Known(sentinel: Sentinel)
    | Foreign(text: string)
    | Wrapped(text: string, inner: Err)
    | Joined(parts: seq<Err>)

  /** `errors.Is` with a sentinel as its target: depth first through `Unwrap`. */
  predicate Is(err: Err, target: Sentinel) {
    match err
    case Known(s) => s == target
    case Foreign(_) => false
    case Wrapped(_, inner) => Is(inner, target)
    case Joined(parts) => exists i :: 0 <= i < |parts| && Is(parts[i], target)
  }

  /** The node an unwrapping path leads to, where a joined error offers a choice at each index. */
  function Follow(err: Err, path: seq<nat>): Option<Err>
    decreases |path|
  {
    if path == [] then
      Some(err)
    else
      match err
      case Wrapped(_, inner) => if path[0] == 0 then Follow(inner, path[1..]) else None
      case Joined(parts) => if path[0] < |parts| then Follow(parts[path[0]], path[1..]) else None
      case _ => None
  }

  ghost predicate Reaches(err: Err, target: Sentinel) {
    exists path :: Follow(err, path) == Some(Known(target))
  }

  lemma {:induction false} ReachesIs(err: Err, path: seq<nat>, target: Sentinel)
    requires Follow(err, path) == Some(Known(target))
    ensures Is(err, target)
    decreases err
  {
    if path != [] {
      match err
      case Wrapped(_, inner) => ReachesIs(inner, path[1..], target);
      case Joined(parts) => ReachesIs(parts[path[0]], path[1..], target);
      case _ =>
    }
  }

  lemma {:induction false} IsReaches(err: Err, target: Sentinel) returns (path: seq<nat>)
    requires Is(err, target)
    ensures Follow(err, path) == Some(Known(target))
  {
    match err
    case Known(_) =>
      path := [];
    case Wrapped(_, inner) =>
      var rest := IsReaches(inner, target);
      path := [0] + rest;
      assert path[1..] == rest;
    case Joined(parts) =>
      var i :| 0 <= i < |parts| && Is(parts[i], target);
      var rest := IsReaches(parts[i], target);
      path := [i] + rest;
      assert path[1..] == rest;
  }

  lemma IsIffReaches(err: Err, target: Sentinel)
    ensures Is(err, target) <==> Reaches(err, target)
  {
    if Is(err, target) {
      var path := IsReaches(err, target);
    }
    if Reaches(err, target) {
      var path :| Follow(err, path) == Some(Known(target));
      ReachesIs(err, path, target);
    }
  }

  /** Whether an error is one of the expected validation, rendering or delivery failures. */
  predicate IsDomainSendError(err: Err) {
    || Is(err, InvalidRecipientEmail)
    || Is(err, InvalidMessageType)
    || Is(err, TemplateNotFound)
    || Is(err, TemplateSubjectEmpty)
    || Is(err, TemplateBodyEmpty)
    || Is(err, FailedToRenderMail)
    || Is(err, FailedToSendMail)
  }

  const INTERNAL_REASON := "internal mail delivery error"
  const PROCESS_REASON := "failed to process mail command"

  function SendMailFailureReason(err: Err): string {
    if Is(err, InvalidRecipientEmail) then "invalid recipient email"
    else if Is(err, InvalidMessageType) then "invalid message type"
    else if Is(err, TemplateNotFound) then "mail template not found"
    else if Is(err, TemplateSubjectEmpty) then "mail template subject is empty"
    else if Is(err, TemplateBodyEmpty) then "mail template body is empty"
    else if Is(err, FailedToRenderMail) then "failed to render mail template"
    else if Is(err, FailedToSendMail) then "failed to send mail"
    else if IsDomainSendError(err) then PROCESS_REASON
    else INTERNAL_REASON
  }

  /** The sentinels from the most to the least specific, each with its reason. */
  const PRIORITY: seq<(Sentinel, string)> := [
    (InvalidRecipientEmail, "invalid recipient email"),
    (InvalidMessageType, "invalid message type"),
    (TemplateNotFound, "mail template not found"),
    (TemplateSubjectEmpty, "mail template subject is empty"),
    (TemplateBodyEmpty, "mail template body is empty"),
    (FailedToRenderMail, "failed to render mail template"),
    (FailedToSendMail, "failed to send mail")
  ]

  /** `k` is the first entry of the priority list that some unwrapping path of `err` leads to. */
  ghost predicate FirstReached(err: Err, k: nat)
    requires k <= |PRIORITY|
  {
    && (k < |PRIORITY| ==> Reaches(err, PRIORITY[k].0))
    && forall j :: 0 <= j < k ==> !Reaches(err, PRIORITY[j].0)
  }

  function ReasonAt(k: nat): string
    requires k <= |PRIORITY|
  {
    if k < |PRIORITY| then PRIORITY[k].1 else INTERNAL_REASON
  }

  /** The reasons are pairwise different, so a reason names the entry that produced it. */
  lemma ReasonsDiffer(j: nat, k: nat)
    requires j <= |PRIORITY| && k <= |PRIORITY|
    ensures ReasonAt(j) == ReasonAt(k) ==> j == k
    ensures ReasonAt(j) != PROCESS_REASON
  {
    assert |"invalid recipient email"| == 23 && |"failed to process mail command"| == 30;
    assert "invalid message type"[3] == 'a' && "failed to send mail"[3] == 'l';
    assert |"invalid message type"| == 20;
    assert |"mail template not found"| == 23 && "mail template not found"[0] == 'm';
    assert "invalid recipient email"[0] == 'i' && "failed to process mail command"[0] == 'f';
    assert |"mail template subject is empty"| == 30 && "mail template subject is empty"[0] == 'm';
    assert |"mail template body is empty"| == 27;
    assert |"failed to render mail template"| == 30;
    assert "failed to render mail template"[10] == 'r' && "failed to process mail command"[10] == 'p';
    assert "failed to render mail template"[0] == 'f';
    assert |"failed to send mail"| == 19 && |INTERNAL_REASON| == 28;
  }

  lemma PriorityList()
    ensures |PRIORITY| == 7
    ensures PRIORITY[0].0 == InvalidRecipientEmail && PRIORITY[1].0 == InvalidMessageType
    ensures PRIORITY[2].0 == TemplateNotFound && PRIORITY[3].0 == TemplateSubjectEmpty
    ensures PRIORITY[4].0 == TemplateBodyEmpty && PRIORITY[5].0 == FailedToRenderMail
    ensures PRIORITY[6].0 == FailedToSendMail
  {
  }

  lemma ReasonOfFirst(err: Err, k: nat)
    requires k <= |PRIORITY| && FirstReached(err, k)
    ensures SendMailFailureReason(err) == ReasonAt(k)
  {
    PriorityList();
    forall j | 0 <= j < |PRIORITY|
      ensures Is(err, PRIORITY[j].0) <==> Reaches(err, PRIORITY[j].0)
    {
      IsIffReaches(err, PRIORITY[j].0);
    }
    assert k > 0 ==> !Is(err, PRIORITY[0].0);
    assert k > 1 ==> !Is(err, PRIORITY[1].0);
    assert k > 2 ==> !Is(err, PRIORITY[2].0);
    assert k > 3 ==> !Is(err, PRIORITY[3].0);
    assert k > 4 ==> !Is(err, PRIORITY[4].0);
    assert k > 5 ==> !Is(err, PRIORITY[5].0);
    assert k > 6 ==> !Is(err, PRIORITY[6].0);
  }

  lemma IsOrderIffReaches(err: Err)
    ensures forall j :: 0 <= j < |PRIORITY| ==> (Is(err, PRIORITY[j].0) <==> Reaches(err, PRIORITY[j].0))
  {
    forall j | 0 <= j < |PRIORITY|
      ensures Is(err, PRIORITY[j].0) <==> Reaches(err, PRIORITY[j].0)
    {
      IsIffReaches(err, PRIORITY[j].0);
    }
  }

  lemma {:induction false} FirstReachedFrom(err: Err, j: nat) returns (k: nat)
    requires j <= |PRIORITY|
    requires forall i :: 0 <= i < j ==> !Reaches(err, PRIORITY[i].0)
    ensures k <= |PRIORITY| && FirstReached(err, k)
    decreases |PRIORITY| - j
  {
    if j == |PRIORITY| || Reaches(err, PRIORITY[j].0) {
      k := j;
    } else {
      k := FirstReachedFrom(err, j + 1);
    }
  }

  /** The reason is entry `k` of the list exactly when `k` is the first sentinel that can be reached. */
  lemma ReasonIffFirstReached(err: Err, k: nat)
    requires k <= |PRIORITY|
    ensures SendMailFailureReason(err) == ReasonAt(k) <==> FirstReached(err, k)
  {
    var first := FirstReachedFrom(err, 0);
    ReasonOfFirst(err, first);
    ReasonsDiffer(k, first);
    if FirstReached(err, k) {
      ReasonOfFirst(err, k);
    }
  }

  /** The internal reason means exactly that no domain sentinel is in the tree, and the
      "failed to process" arm of the switch is never taken. */
  lemma InternalIffNotDomain(err: Err)
    ensures SendMailFailureReason(err) == INTERNAL_REASON <==> !IsDomainSendError(err)
    ensures SendMailFailureReason(err) != PROCESS_REASON
  {
    IsOrderIffReaches(err);
    var first := FirstReachedFrom(err, 0);
    ReasonOfFirst(err, first);
    ReasonsDiffer(first, |PRIORITY|);
    PriorityList();
  }

  /** Wrapping once more, any number of times, keeps the reason. */
  function WrapAll(texts: seq<string>, err: Err): Err {
    if texts == [] then err else Wrapped(texts[0], WrapAll(texts[1..], err))
  }

  lemma {:induction false} ReasonSurvivesWrapping(texts: seq<string>, err: Err)
    ensures SendMailFailureReason(WrapAll(texts, err)) == SendMailFailureReason(err)
    ensures IsDomainSendError(WrapAll(texts, err)) == IsDomainSendError(err)
  {
    if texts != [] {
      ReasonSurvivesWrapping(texts[1..], err);
    }
  }

  /** A joined error takes its reason from its most specific part: its place in the list is the
      smallest among the places of the parts. */
  lemma ReasonOfJoin(parts: seq<Err>, k: nat)
    requires k <= |PRIORITY|
    ensures FirstReached(Joined(parts), k) <==>
      (&& (k < |PRIORITY| ==> exists i :: 0 <= i < |parts| && FirstReached(parts[i], k))
       && forall i, j :: 0 <= i < |parts| && 0 <= j < k ==> !Reaches(parts[i], PRIORITY[j].0))
  {
    IsOrderIffReaches(Joined(parts));
    forall i | 0 <= i < |parts|
      ensures forall j :: 0 <= j < |PRIORITY| ==> (Is(parts[i], PRIORITY[j].0) <==> Reaches(parts[i], PRIORITY[j].0))
    {
      IsOrderIffReaches(parts[i]);
    }
    assert forall j :: 0 <= j < |PRIORITY| ==>
      (Reaches(Joined(parts), PRIORITY[j].0) <==> exists i :: 0 <= i < |parts| && Reaches(parts[i], PRIORITY[j].0)) by {
      assert forall j :: 0 <= j < |PRIORITY| ==>
        (Is(Joined(parts), PRIORITY[j].0) <==> exists i :: 0 <= i < |parts| && Is(parts[i], PRIORITY[j].0));
    }
  }
}
