/** The chat window: server messages turned into display messages, the
    status tick icons, and the grouping of consecutive messages by side. */
module ChatWindow {
  import opened Common

  /** The sender record a server message may carry. */
  datatype ApiUser = ApiUser(name: Option<string>)

  /** A message as the messages route returns it. */
  datatype ApiMessage = ApiMessage(id: int, senderId: int, message: string, user: Option<ApiUser>)

  /** A message as the window shows it (the timestamp is not modelled). */
  datatype ChatMessage = ChatMessage(id: int, sender: Option<string>, text: string, isOwn: bool, status: string)

  const YOU := "You"
  const READ := "read"

  /** One server message seen by the user whose stored id reads as `current`
      (None for an id that is not a number). */
  function ToChatMessage(m: ApiMessage, current: Option<int>): ChatMessage {
    var own := current == Some(m.senderId);
    ChatMessage(m.id, if own then Some(YOU) else (if m.user.Some? then m.user.value.name else None),
                m.message, own, READ)
  }

  /** The mapping of the loaded page, reversed: the server sends newest first,
      the window shows oldest first. */
  function MapMessages(msgs: seq<ApiMessage>, current: Option<int>): (r: seq<ChatMessage>)
    ensures |r| == |msgs|
    ensures forall i :: 0 <= i < |r| ==>
      var m := msgs[|msgs| - 1 - i];
      && r[i].id == m.id && r[i].text == m.message && r[i].status == READ
      && (r[i].isOwn <==> current == Some(m.senderId))
      && (r[i].isOwn ==> r[i].sender == Some(YOU))
      && (!r[i].isOwn ==> r[i].sender == (if m.user.Some? then m.user.value.name else None))
  {
    Reverse(seq(|msgs|, i requires 0 <= i < |msgs| => ToChatMessage(msgs[i], current)))
  }

  datatype IconKind = ClockIcon | CheckIcon | DoubleCheckIcon

  /** An icon and whether it uses the accent colour (else the tertiary text colour). */
  datatype Icon = Icon(kind: IconKind, accent: bool)

  /** `getStatusIcon`: a clock while sending, one tick when sent, two ticks
      when delivered, two accent ticks when read, nothing otherwise. */
  function StatusIcon(status: Option<string>): (r: Option<Icon>)
    ensures r.None? <==> status !in {Some("sending"), Some("sent"), Some("delivered"), Some("read")}
    ensures r.Some? && r.value.accent <==> status == Some("read")
    ensures r.Some? && r.value.kind == DoubleCheckIcon <==> status in {Some("delivered"), Some("read")}
    ensures r.Some? && r.value.kind == ClockIcon <==> status == Some("sending")
    ensures r.Some? && r.value.kind == CheckIcon <==> status == Some("sent")
  {
    match status
    case Some("sending") => Some(Icon(ClockIcon, false))
    case Some("sent") => Some(Icon(CheckIcon, false))
    case Some("delivered") => Some(Icon(DoubleCheckIcon, false))
    case Some("read") => Some(Icon(DoubleCheckIcon, true))
    case _ => None
  }

  /** The groups laid end to end. */
  function Flatten(groups: seq<seq<ChatMessage>>): seq<ChatMessage> {
    if groups == [] then [] else Flatten(groups[..|groups| - 1]) + groups[|groups| - 1]
  }

  /** Every group is non-empty and all of one side. */
  predicate Uniform(groups: seq<seq<ChatMessage>>) {
    forall k :: 0 <= k < |groups| ==>
      groups[k] != [] && forall j :: 0 <= j < |groups[k]| ==> groups[k][j].isOwn == groups[k][0].isOwn
  }

  /** Neighbouring groups are of different sides. */
  predicate Alternating(groups: seq<seq<ChatMessage>>)
    requires Uniform(groups)
  {
    forall k :: 0 <= k < |groups| - 1 ==> groups[k][0].isOwn != groups[k + 1][0].isOwn
  }

  /** `groupedMessages`: each message joins the last group when it is of the
      same side, else starts a new group. */
  method GroupMessages(msgs: seq<ChatMessage>) returns (groups: seq<seq<ChatMessage>>)
    ensures Flatten(groups) == msgs
    ensures Uniform(groups) && Alternating(groups)
    ensures msgs == [] <==> groups == []
  {
    groups := [];
    var i := 0;
    while i < |msgs|
      invariant 0 <= i <= |msgs|
      invariant Flatten(groups) == msgs[..i]
      invariant Uniform(groups) && Alternating(groups)
      invariant i == 0 <==> groups == []
    {
      var m := msgs[i];
      if |groups| > 0 && groups[|groups| - 1][0].isOwn == m.isOwn {
        var last := groups[|groups| - 1];
        var prefix := groups[..|groups| - 1];
        groups := prefix + [last + [m]];
        assert groups[..|groups| - 1] == prefix;
        assert Flatten(prefix) + last == msgs[..i];
      } else {
        var old_groups := groups;
        groups := groups + [[m]];
        assert groups[..|groups| - 1] == old_groups;
      }
      assert msgs[..i + 1] == msgs[..i] + [m];
      i := i + 1;
    }
    assert msgs[..i] == msgs;
  }
}
