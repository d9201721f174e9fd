/** The schemas of room creation and of sending a message over HTTP. */
module MessageValidation {
  import opened Common
  import opened Store
  import opened Joi

  /** The `when` condition: `conversationType` is present and is "group". */
  predicate IsGroup(body: Body) {
    "conversationType" in body && body["conversationType"] == JStr(CONVERSATION_GROUP)
  }

  /** Every item is an integer. */
  predicate AllIntegers(items: seq<Json>) {
    forall k :: 0 <= k < |items| ==> items[k].JInt?
  }

  /** The first item that is not an integer, as an issue of `key`. */
  function CheckItems(items: seq<Json>, key: string): (r: Option<Issue>)
    ensures r.None? <==> AllIntegers(items)
  {
    if items == [] then None
    else if !items[0].JInt? then Some(Issue(key, if items[0] == JFrac then Integer else NumberBase))
    else CheckItems(items[1..], key)
  }

  /** `Joi.array().items(Joi.number().integer()).min(1).required()`. */
  function CheckMemberIds(body: Body): (r: Option<Issue>)
    ensures r.None? <==>
      "memberIds" in body && body["memberIds"].JArr? && |body["memberIds"].items| >= 1
      && AllIntegers(body["memberIds"].items)
  {
    if "memberIds" !in body then Some(Issue("memberIds", Required))
    else match body["memberIds"]
      case JArr(items) =>
        var bad := CheckItems(items, "memberIds");
        if bad.Some? then bad else if items == [] then Some(Issue("memberIds", Min)) else None
      case _ => Some(Issue("memberIds", ArrayBase))
  }

  /** `createRoomSchema`: a group needs a non-empty integer `memberIds` and a
      non-empty `name`; any other body must carry neither key. */
  function CreateRoomIssue(body: Body): (r: Option<Issue>)
    ensures IsGroup(body) ==>
      (r.None? <==> CheckMemberIds(body).None? && "name" in body && body["name"].JStr? && body["name"].s != "")
    ensures !IsGroup(body) ==> (r.None? <==> "memberIds" !in body && "name" !in body)
  {
    if IsGroup(body) then
      Then(CheckMemberIds(body), CheckString(body, "name", true, false, 0, None, AnyText))
    else
      Then(CheckForbidden(body, "memberIds"), CheckForbidden(body, "name"))
  }

  /** `createRoomSchema` as the route applies it: the declared keys are
      checked first, then any key the schema does not declare is refused.
      Since `conversationType` is not declared, a body that says which kind of
      room to create is always refused, and the only body let through is the
      empty one. */
  ghost function CreateRoomRouteIssue(body: Body): (r: Option<Issue>)
    ensures r.None? <==> CreateRoomIssue(body).None? && body.Keys <= {"memberIds", "name"}
    ensures "conversationType" in body ==> r.Some? && (CreateRoomIssue(body).None? ==> r.value.rule == Undeclared)
    ensures r.None? <==> body == map[]
  {
    var r := Then(CreateRoomIssue(body), CheckUndeclared(body, {"memberIds", "name"}));
    assert r.None? ==> body.Keys == {};
    r
  }

  const ROOM_KEYS: set<string> := {"conversationType", "receiverId", "memberIds", "name"}

  /** `createRoomSchema` with the keys the handler reads declared:
      `conversationType` is required and is "single" or "group"; a single
      room needs an integer `receiverId` and takes neither `memberIds` nor
      `name`; a group takes no `receiverId` and is checked as before. */
  ghost function CreateRoomIssueDeclared(body: Body): (r: Option<Issue>)
    ensures r.None? <==>
      && "conversationType" in body
      && body["conversationType"] in {JStr(CONVERSATION_SINGLE), JStr(CONVERSATION_GROUP)}
      && (if IsGroup(body) then CreateRoomIssue(body).None? && "receiverId" !in body
          else "receiverId" in body && body["receiverId"].JInt? && "memberIds" !in body && "name" !in body)
      && body.Keys <= ROOM_KEYS
  {
    var kind :=
      if "conversationType" !in body then Some(Issue("conversationType", Required))
      else if body["conversationType"] !in {JStr(CONVERSATION_SINGLE), JStr(CONVERSATION_GROUP)} then
        Some(Issue("conversationType", Only))
      else None;
    var receiver := if IsGroup(body) then CheckForbidden(body, "receiverId") else CheckInteger(body, "receiverId");
    Then(kind, Then(receiver, Then(CreateRoomIssue(body), CheckUndeclared(body, ROOM_KEYS))))
  }

  /** The corrected schema lets through a single room with a receiver and a
      group with members and a name, which the route as written refuses. */
  lemma DeclaredSchemaAdmitsBothKinds(receiverId: int, memberId: int, name: string)
    requires name != ""
    ensures var single := map["conversationType" := JStr(CONVERSATION_SINGLE), "receiverId" := JInt(receiverId)];
      CreateRoomIssueDeclared(single).None? && CreateRoomRouteIssue(single).Some?
    ensures var group := map["conversationType" := JStr(CONVERSATION_GROUP), "memberIds" := JArr([JInt(memberId)]),
                             "name" := JStr(name)];
      CreateRoomIssueDeclared(group).None? && CreateRoomRouteIssue(group).Some?
  {
    var group := map["conversationType" := JStr(CONVERSATION_GROUP), "memberIds" := JArr([JInt(memberId)]),
                     "name" := JStr(name)];
    assert group.Keys == {"conversationType", "memberIds", "name"};
    assert CheckItems([JInt(memberId)], "memberIds").None?;
  }

  /** `sendMessageSchema`: an integer `conversationId` and a non-empty string
      `message`, both required. */
  function SendMessageIssue(body: Body): (r: Option<Issue>)
    ensures r.None? <==>
      "conversationId" in body && body["conversationId"].JInt?
      && "message" in body && body["message"].JStr? && body["message"].s != ""
  {
    Then(CheckInteger(body, "conversationId"), CheckString(body, "message", true, false, 0, None, AnyText))
  }
}
