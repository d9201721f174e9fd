/** The message routes: creating a single or group conversation, sending a
    message over HTTP, and reading one page of a conversation's messages. */
module MessageController {
  import opened Common
  import opened Store
  import opened Http

  const ROOM_CREATED := "Conversation Room is created successfully."
  const MESSAGE_SENT := "Message sent successfully."
  const MESSAGES_RETRIEVED := "All messages retrieved successfully."
  const DEFAULT_ROOM_NAME := "New Group"
  /** What reading `id` of the `undefined` conversation raises when the type
      is neither single nor group. */
  const UNDEFINED_ID := "Cannot read properties of undefined (reading 'id')"

  /** Some member row puts `userId` in conversation `conversationId`. */
  predicate HasMember(members: seq<MemberRow>, conversationId: int, userId: int) {
    exists m :: m in members && m.conversationId == conversationId && m.userId == userId
  }

  /** A single conversation that has both users among its members. */
  predicate IsSingleOf(c: ConversationRow, members: seq<MemberRow>, a: int, b: int) {
    c.kind == CONVERSATION_SINGLE && HasMember(members, c.id, a) && HasMember(members, c.id, b)
  }

  /** The lookup of an existing single conversation between two users: the
      first one in table order. */
  function ExistingSingle(conversations: seq<ConversationRow>, members: seq<MemberRow>, a: int, b: int)
    : (r: Option<nat>)
    ensures r.Some? ==> r.value < |conversations| && IsSingleOf(conversations[r.value], members, a, b)
    ensures r.None? ==> forall k :: 0 <= k < |conversations| ==> !IsSingleOf(conversations[k], members, a, b)
  {
    FindIndex(conversations, (c: ConversationRow) => IsSingleOf(c, members, a, b))
  }

  /** The lookup as the query is written. Its two includes name the same
      model under the same alias, so the query builder keeps one include
      whose filter is the receiver's: the first single conversation that has
      the receiver among its members, whoever else is in it. */
  function ReceiverSingle(conversations: seq<ConversationRow>, members: seq<MemberRow>, b: int)
    : (r: Option<nat>)
    ensures r.Some? ==> r.value < |conversations| && conversations[r.value].kind == CONVERSATION_SINGLE
    ensures r.Some? ==> HasMember(members, conversations[r.value].id, b)
    ensures r.None? ==> forall k :: 0 <= k < |conversations| ==>
      !(conversations[k].kind == CONVERSATION_SINGLE && HasMember(members, conversations[k].id, b))
  {
    FindIndex(conversations, (c: ConversationRow) => c.kind == CONVERSATION_SINGLE && HasMember(members, c.id, b))
  }

  /** The query as written finds the receiver's own conversation (the one
      signup opens with two member rows for the new user) when user 1 opens a
      chat with user 2: that conversation does not have user 1 in it, and the
      two-member lookup finds nothing, so a new conversation would be made. */
  lemma ReceiverSingleIgnoresSender()
    ensures var cs := [ConversationRow(1, CONVERSATION_SINGLE, None)];
      var ms := [MemberRow(1, 1, 2), MemberRow(2, 1, 2)];
      && ReceiverSingle(cs, ms, 2) == Some(0)
      && !IsSingleOf(cs[0], ms, 1, 2)
      && ExistingSingle(cs, ms, 1, 2).None?
  {
    var cs := [ConversationRow(1, CONVERSATION_SINGLE, None)];
    var ms := [MemberRow(1, 1, 2), MemberRow(2, 1, 2)];
    assert ms[0] in ms;
    assert !HasMember(ms, 1, 1);
  }

  /** Once a single conversation has been created for two users who had none,
      the lookup finds that new conversation: creating it again reuses it. */
  lemma {:induction false} SingleLookupFindsNew(conversations: seq<ConversationRow>, members: seq<MemberRow>,
                                                a: int, b: int)
    requires forall i :: 0 <= i < |conversations| ==> conversations[i].id == i + 1
    requires ExistingSingle(conversations, members, a, b).None?
    ensures
      var n := |conversations|;
      var c := ConversationRow(n + 1, CONVERSATION_SINGLE, None);
      var rows := [MemberRow(|members| + 1, n + 1, a), MemberRow(|members| + 2, n + 1, b)];
      ExistingSingle(conversations + [c], members + rows, a, b) == Some(n)
  {
    var n := |conversations|;
    var c := ConversationRow(n + 1, CONVERSATION_SINGLE, None);
    var rows := [MemberRow(|members| + 1, n + 1, a), MemberRow(|members| + 2, n + 1, b)];
    var cs := conversations + [c];
    var ms := members + rows;
    assert rows[0] in ms && rows[1] in ms;
    assert IsSingleOf(cs[n], ms, a, b);
    forall k | 0 <= k < n
      ensures !IsSingleOf(cs[k], ms, a, b)
    {
      assert cs[k] == conversations[k] && conversations[k].id == k + 1;
      NewRowsOnlyNameNew(members, rows, n, k + 1, a);
      NewRowsOnlyNameNew(members, rows, n, k + 1, b);
    }
  }

  /** Member rows added for conversation `n + 1` put nobody in an older one. */
  lemma NewRowsOnlyNameNew(members: seq<MemberRow>, rows: seq<MemberRow>, n: int, id: int, userId: int)
    requires forall i :: 0 <= i < |rows| ==> rows[i].conversationId == n + 1
    requires id <= n
    ensures HasMember(members + rows, id, userId) ==> HasMember(members, id, userId)
  {
    if HasMember(members + rows, id, userId) {
      var m :| m in members + rows && m.conversationId == id && m.userId == userId;
      assert m in members;
    }
  }

  /** The member ids of a group: the given ids, with the creator appended when
      absent; duplicates are kept. */
  function GroupMemberIds(memberIds: seq<int>, senderId: int): (ids: seq<int>)
    ensures senderId in ids
    ensures memberIds <= ids
    ensures |ids| == |memberIds| + (if senderId in memberIds then 0 else 1)
  {
    if senderId in memberIds then memberIds else memberIds + [senderId]
  }

  /** `createConversationRoom`. A single conversation reuses the first existing
      single conversation of the two users, or creates one with exactly the
      two of them as members. A group is always created, with one member row
      per id of `GroupMemberIds`; its name is passed as `roomName`, which the
      conversation model does not declare, so the group is stored with no
      name. When a member id names no user, the foreign key refuses the member
      rows: the new conversation stays, without members, and the handler
      throws. Any other type reaches `conversation.id` on `undefined` and
      throws. An absent `memberIds` is the empty sequence. */
  method CreateConversationRoom(db: Db, senderId: int, conversationType: string, receiverId: int,
                                memberIds: seq<int>, name: Option<string>)
    returns (r: Reply<nat>)
    requires db.Valid()
    modifies db
    ensures db.Valid()
    ensures db.users == old(db.users) && db.friendRequests == old(db.friendRequests)
    ensures db.messages == old(db.messages) && db.clock == old(db.clock)
    ensures conversationType == CONVERSATION_SINGLE ==>
      match ExistingSingle(old(db.conversations), old(db.members), senderId, receiverId)
      case Some(k) =>
        && db.conversations == old(db.conversations) && db.members == old(db.members)
        && r == Ok(ROOM_CREATED, k + 1)
      case None =>
        var n := |old(db.conversations)|;
        && db.conversations == old(db.conversations) + [ConversationRow(n + 1, CONVERSATION_SINGLE, None)]
        && if UserById(db.users, senderId).Some? && UserById(db.users, receiverId).Some? then
             && db.members == old(db.members) + [MemberRow(|old(db.members)| + 1, n + 1, senderId),
                                                 MemberRow(|old(db.members)| + 2, n + 1, receiverId)]
             && r == Ok(ROOM_CREATED, n + 1)
           else
             && db.members == old(db.members)
             && r == Crash(FOREIGN_KEY_VIOLATION)
    ensures conversationType == CONVERSATION_SINGLE && r.Ok? ==>
      ExistingSingle(db.conversations, db.members, senderId, receiverId) == Some(r.data - 1)
    ensures conversationType == CONVERSATION_GROUP ==>
      var n := |old(db.conversations)|;
      var ids := GroupMemberIds(memberIds, senderId);
      && db.conversations == old(db.conversations)
           + [ConversationRow(n + 1, CONVERSATION_GROUP, None)]
      && (r.Ok? <==> forall id :: id in ids ==> UserById(db.users, id).Some?)
      && (!r.Ok? ==> r == Crash(FOREIGN_KEY_VIOLATION) && db.members == old(db.members))
      && (r.Ok? ==>
            && |db.members| == |old(db.members)| + |ids|
            && db.members[..|old(db.members)|] == old(db.members)
            && (forall k :: 0 <= k < |ids| ==>
                  db.members[|old(db.members)| + k] == MemberRow(|old(db.members)| + k + 1, n + 1, ids[k]))
            && HasMember(db.members, n + 1, senderId)
            && r == Ok(ROOM_CREATED, n + 1))
    ensures conversationType != CONVERSATION_SINGLE && conversationType != CONVERSATION_GROUP ==>
      && db.conversations == old(db.conversations) && db.members == old(db.members)
      && r == Crash(UNDEFINED_ID)
  {
    if conversationType == CONVERSATION_SINGLE {
      var made := OpenSingle(db, senderId, receiverId);
      r := if made.Returned? then Ok(ROOM_CREATED, made.value) else Crash(made.message);
    } else if conversationType == CONVERSATION_GROUP {
      var made := OpenGroup(db, senderId, memberIds, name);
      r := if made.Returned? then Ok(ROOM_CREATED, made.value) else Crash(made.message);
    } else {
      r := Crash(UNDEFINED_ID);
    }
  }

  /** The single branch of `createConversationRoom`: the conversation row is
      created before the member rows, so a receiver who is not a user leaves
      it behind with no members when the member insert throws. */
  method OpenSingle(db: Db, senderId: int, receiverId: int) returns (r: Outcome<nat>)
    requires db.Valid()
    modifies db
    ensures db.Valid()
    ensures db.users == old(db.users) && db.friendRequests == old(db.friendRequests)
    ensures db.messages == old(db.messages) && db.clock == old(db.clock)
    ensures
      match ExistingSingle(old(db.conversations), old(db.members), senderId, receiverId)
      case Some(k) =>
        && db.conversations == old(db.conversations) && db.members == old(db.members)
        && r == Returned(k + 1)
      case None =>
        var n := |old(db.conversations)|;
        && db.conversations == old(db.conversations) + [ConversationRow(n + 1, CONVERSATION_SINGLE, None)]
        && if UserById(db.users, senderId).Some? && UserById(db.users, receiverId).Some? then
             && db.members == old(db.members) + [MemberRow(|old(db.members)| + 1, n + 1, senderId),
                                                 MemberRow(|old(db.members)| + 2, n + 1, receiverId)]
             && r == Returned(n + 1)
           else
             && db.members == old(db.members)
             && r == Threw(FOREIGN_KEY_VIOLATION)
    ensures r.Returned? ==>
      r.value >= 1 && ExistingSingle(db.conversations, db.members, senderId, receiverId) == Some(r.value - 1)
  {
    var found := ExistingSingle(db.conversations, db.members, senderId, receiverId);
    if found.Some? {
      return Returned(found.value + 1);
    }
    SingleLookupFindsNew(db.conversations, db.members, senderId, receiverId);
    var c := db.CreateConversation(CONVERSATION_SINGLE, None);
    r := AddSingleMembers(db, c.id, senderId, receiverId);
  }

  /** The two member rows of a single conversation just created as the last
      one, or the insert throws when either id names no user. */
  method AddSingleMembers(db: Db, id: int, senderId: int, receiverId: int) returns (r: Outcome<nat>)
    requires db.Valid() && id == |db.conversations| >= 1
    modifies db
    ensures db.Valid()
    ensures db.users == old(db.users) && db.friendRequests == old(db.friendRequests)
    ensures db.conversations == old(db.conversations)
    ensures db.messages == old(db.messages) && db.clock == old(db.clock)
    ensures if UserById(db.users, senderId).Some? && UserById(db.users, receiverId).Some? then
        && db.members == old(db.members) + [MemberRow(|old(db.members)| + 1, id, senderId),
                                            MemberRow(|old(db.members)| + 2, id, receiverId)]
        && r == Returned(id)
      else
        && db.members == old(db.members)
        && r == Threw(FOREIGN_KEY_VIOLATION)
  {
    ConversationByIdPositional(db.conversations, id);
    var pair := [senderId, receiverId];
    assert (forall u :: u in pair ==> UserById(db.users, u).Some?) <==>
      UserById(db.users, senderId).Some? && UserById(db.users, receiverId).Some?;
    var rows := db.BulkCreateMembers(id, pair);
    if rows.Threw? {
      return Threw(rows.message);
    }
    assert rows.value == [MemberRow(|old(db.members)| + 1, id, senderId), MemberRow(|old(db.members)| + 2, id, receiverId)];
    r := Returned(id);
  }

  /** The group branch of `createConversationRoom`, as written: the name
      `name || "New Group"` is handed over under the key `roomName`, which is
      not an attribute of the conversation model, so it is dropped and the
      group's `name` column stays empty. The group row is created first; when
      a member id names no user the member insert throws and it stays behind
      with no members. */
  method OpenGroup(db: Db, senderId: int, memberIds: seq<int>, name: Option<string>) returns (r: Outcome<nat>)
    requires db.Valid()
    modifies db
    ensures db.Valid()
    ensures db.users == old(db.users) && db.friendRequests == old(db.friendRequests)
    ensures db.messages == old(db.messages) && db.clock == old(db.clock)
    ensures
      var n := |old(db.conversations)|;
      var ids := GroupMemberIds(memberIds, senderId);
      && db.conversations == old(db.conversations)
           + [ConversationRow(n + 1, CONVERSATION_GROUP, None)]
      && (r.Returned? <==> forall id :: id in ids ==> UserById(db.users, id).Some?)
      && (r.Threw? ==> r == Threw(FOREIGN_KEY_VIOLATION) && db.members == old(db.members))
      && (r.Returned? ==> GroupMembersAdded(old(db.members), db.members, n + 1, ids) && r.value == n + 1)
      && (r.Returned? ==> HasMember(db.members, n + 1, senderId))
  {
    var c := db.CreateConversation(CONVERSATION_GROUP, None);
    r := AddGroupMembers(db, c.id, senderId, memberIds);
  }

  /** The member rows of a new group `id`: the old rows, then one row per id
      of `ids`, in order, numbered on from the old rows. */
  ghost predicate GroupMembersAdded(before: seq<MemberRow>, after: seq<MemberRow>, id: int, ids: seq<int>) {
    && |after| == |before| + |ids|
    && after[..|before|] == before
    && (forall k :: 0 <= k < |ids| ==> after[|before| + k] == MemberRow(|before| + k + 1, id, ids[k]))
  }

  /** The member rows of a group just created as the last conversation: the
      creator is added to `memberIds` when absent and one row per id is
      inserted, or the insert throws when an id names no user. */
  method AddGroupMembers(db: Db, id: int, senderId: int, memberIds: seq<int>) returns (r: Outcome<nat>)
    requires db.Valid() && id == |db.conversations| >= 1
    modifies db
    ensures db.Valid()
    ensures db.users == old(db.users) && db.friendRequests == old(db.friendRequests)
    ensures db.conversations == old(db.conversations)
    ensures db.messages == old(db.messages) && db.clock == old(db.clock)
    ensures var ids := GroupMemberIds(memberIds, senderId);
      && (r.Returned? <==> forall u :: u in ids ==> UserById(db.users, u).Some?)
      && (r.Threw? ==> r == Threw(FOREIGN_KEY_VIOLATION) && db.members == old(db.members))
      && (r.Returned? ==> GroupMembersAdded(old(db.members), db.members, id, ids) && r.value == id)
      && (r.Returned? ==> HasMember(db.members, id, senderId))
  {
    ConversationByIdPositional(db.conversations, id);
    var ids := memberIds;
    if senderId !in ids {
      ids := ids + [senderId];
    }
    var rows := db.BulkCreateMembers(id, ids);
    if rows.Threw? {
      return Threw(rows.message);
    }
    var k :| 0 <= k < |ids| && ids[k] == senderId;
    assert db.members[|old(db.members)| + k] == rows.value[k];
    r := Returned(id);
  }

  /** `name || "New Group"`: the given name unless it is absent or empty. */
  function GroupName(name: Option<string>): (r: string)
    ensures r != ""
    ensures Truthy(name) ==> r == name.value
    ensures !Truthy(name) ==> r == DEFAULT_ROOM_NAME
  {
    if Truthy(name) then name.value else DEFAULT_ROOM_NAME
  }

  /** The group branch as evidently intended: the group is stored under
      its name, or "New Group" when none is given. */
  method OpenGroupNamed(db: Db, senderId: int, memberIds: seq<int>, name: Option<string>) returns (r: Outcome<nat>)
    requires db.Valid()
    modifies db
    ensures db.Valid()
    ensures db.users == old(db.users) && db.friendRequests == old(db.friendRequests)
    ensures db.messages == old(db.messages) && db.clock == old(db.clock)
    ensures
      var n := |old(db.conversations)|;
      var ids := GroupMemberIds(memberIds, senderId);
      && db.conversations == old(db.conversations)
           + [ConversationRow(n + 1, CONVERSATION_GROUP, Some(GroupName(name)))]
      && (r.Returned? <==> forall id :: id in ids ==> UserById(db.users, id).Some?)
      && (r.Threw? ==> r == Threw(FOREIGN_KEY_VIOLATION) && db.members == old(db.members))
      && (r.Returned? ==> GroupMembersAdded(old(db.members), db.members, n + 1, ids) && r.value == n + 1)
      && (r.Returned? ==> HasMember(db.members, n + 1, senderId))
  {
    var c := db.CreateConversation(CONVERSATION_GROUP, Some(GroupName(name)));
    r := AddGroupMembers(db, c.id, senderId, memberIds);
  }

  /** A fresh store holding users 1 and 2 and nothing else. */
  method TwoUsers() returns (db: Db)
    ensures fresh(db) && db.Valid()
    ensures |db.users| == 2 && db.conversations == [] && db.members == []
    ensures UserById(db.users, 1).Some? && UserById(db.users, 2).Some?
  {
    db := new Db();
    var ann := db.CreateUser(None, None, Some("Ann"), Some("ann@example.com"), None, "secret1", ROLE_USER);
    var bob := db.CreateUser(None, None, Some("Bob"), Some("bob@example.com"), None, "secret2", ROLE_USER);
    UserByIdPositional(db.users, 1);
    UserByIdPositional(db.users, 2);
  }

  /** As written: a group of users 1 and 2 created with the name "Team" is
      stored with no name. */
  method ScenarioGroupNameDropped() returns (stored: Option<string>)
    ensures stored.None?
  {
    var db := TwoUsers();
    var r := CreateConversationRoom(db, 1, CONVERSATION_GROUP, 0, [2], Some("Team"));
    stored := db.conversations[0].name;
  }

  /** Corrected: the same group keeps its name, and an unnamed group is
      called "New Group". */
  method ScenarioGroupNameKept() returns (named: Option<string>, unnamed: Option<string>)
    ensures named == Some("Team") && unnamed == Some("New Group")
  {
    var db := TwoUsers();
    var first := OpenGroupNamed(db, 1, [2], Some("Team"));
    var second := OpenGroupNamed(db, 1, [2], None);
    named := db.conversations[0].name;
    unnamed := db.conversations[1].name;
  }

  /** A group that lists a member id no user has: the group row is stored,
      no member row is, and the handler throws. */
  method ScenarioUnknownMember() returns (r: Reply<nat>, conversations: nat, members: nat)
    ensures r == Crash(FOREIGN_KEY_VIOLATION) && conversations == 1 && members == 0
  {
    var db := TwoUsers();
    UserByIdPositional(db.users, 999);
    assert 999 in GroupMemberIds([2, 999], 1);
    r := CreateConversationRoom(db, 1, CONVERSATION_GROUP, 0, [2, 999], None);
    conversations := |db.conversations|;
    members := |db.members|;
  }

  /** `sendMessage` over HTTP: an unknown conversation is refused with 404 and
      nothing is stored. Otherwise one text message is stored and returned;
      the sender comes from the authenticated request, but should it name no
      user the foreign key refuses the insert and the handler throws. */
  method SendMessage(db: Db, senderId: int, conversationId: int, message: string)
    returns (r: Reply<MessageRow>)
    requires db.Valid()
    modifies db
    ensures db.Valid()
    ensures db.users == old(db.users) && db.friendRequests == old(db.friendRequests)
    ensures db.conversations == old(db.conversations) && db.members == old(db.members)
    ensures ConversationById(db.conversations, conversationId).None? ==>
      && r == Err(404, Some("Conversation id is invalid."), None)
      && db.messages == old(db.messages)
    ensures ConversationById(db.conversations, conversationId).Some? && UserById(db.users, senderId).None? ==>
      && r == Crash(FOREIGN_KEY_VIOLATION)
      && db.messages == old(db.messages)
    ensures ConversationById(db.conversations, conversationId).Some? && UserById(db.users, senderId).Some? ==>
      var row := MessageRow(|old(db.messages)| + 1, senderId, conversationId, message, MESSAGE_TEXT,
                            None, None, None, old(db.clock));
      && db.messages == old(db.messages) + [row]
      && r == Ok(MESSAGE_SENT, row)
  {
    var conversation := ConversationById(db.conversations, conversationId);
    if conversation.None? {
      return Err(404, Some("Conversation id is invalid."), None);
    }
    var row := db.CreateMessage(senderId, conversationId, message, MESSAGE_TEXT, None, None, None);
    if row.Threw? {
      return Crash(row.message);
    }
    r := Ok(MESSAGE_SENT, row.value);
  }

  /** One page of a conversation's messages as the route answers it. */
  datatype MessagePage = MessagePage(total: nat, page: int, perPage: int, messages: seq<MessageRow>)

  /** The messages the query selects before paging: those of the conversation
      whose sender currently has a member row in it, in table order. */
  function Visible(members: seq<MemberRow>, messages: seq<MessageRow>, conversationId: int): seq<MessageRow> {
    Filter(messages, (m: MessageRow) => m.conversationId == conversationId && HasMember(members, conversationId, m.senderId))
  }

  /** `getMessageByRoomId`. */
  function GetMessageByRoomId(members: seq<MemberRow>, messages: seq<MessageRow>, conversationId: int,
                              pageQuery: Option<int>, perPageQuery: Option<int>)
    : (r: Reply<MessagePage>)
    ensures var page := QueryNumber(pageQuery, 1);
      var limit := QueryNumber(perPageQuery, 10);
      var offset := (page - 1) * limit;
      var rev := Reverse(Visible(members, messages, conversationId));
      && (r.Ok? <==> offset >= 0 && limit >= 0)
      && (r.Ok? ==> r.data.page == page && r.data.perPage == limit && r.data.total == |rev|)
      && (r.Ok? ==> |r.data.messages| == PageLength(|rev|, offset, limit))
      && (r.Ok? ==> forall i :: 0 <= i < |r.data.messages| ==> r.data.messages[i] == rev[offset + i])
      && (!r.Ok? ==> r == Crash(NEGATIVE_WINDOW))
  {
    var page := QueryNumber(pageQuery, 1);
    var limit := QueryNumber(perPageQuery, 10);
    var offset := (page - 1) * limit;
    if offset < 0 || limit < 0 then Crash(NEGATIVE_WINDOW)
    else
      var visible := Visible(members, messages, conversationId);
      Ok(MESSAGES_RETRIEVED, MessagePage(|visible|, page, limit, Window(Reverse(visible), offset, limit)))
  }

  /** What a page holds: the visible messages from the `offset`-th newest on,
      `(page - 1) * perPage`, as many as fit (at most `perPage`), each of the
      conversation and sent by a current member, newest first; `total`
      counts every such message whatever the page. */
  lemma MessagePageSound(members: seq<MemberRow>, messages: seq<MessageRow>, conversationId: int,
                         pageQuery: Option<int>, perPageQuery: Option<int>)
    requires Increasing(messages, (m: MessageRow) => m.createdAt as int)
    ensures var r := GetMessageByRoomId(members, messages, conversationId, pageQuery, perPageQuery);
      var visible := Visible(members, messages, conversationId);
      var limit := QueryNumber(perPageQuery, 10);
      var offset := (QueryNumber(pageQuery, 1) - 1) * limit;
      r.Ok? ==>
        && offset >= 0 && limit >= 0
        && r.data.total == |visible|
        && |r.data.messages| <= r.data.perPage
        && |r.data.messages| == PageLength(|visible|, offset, limit)
        && (forall i :: 0 <= i < |r.data.messages| ==>
              offset + i < |visible| && r.data.messages[i] == visible[|visible| - 1 - (offset + i)])
        && (forall m :: m in r.data.messages ==>
              m in messages && m.conversationId == conversationId && HasMember(members, conversationId, m.senderId))
        && (forall i, j :: 0 <= i < j < |r.data.messages| ==>
              r.data.messages[i].createdAt > r.data.messages[j].createdAt)
  {
    var r := GetMessageByRoomId(members, messages, conversationId, pageQuery, perPageQuery);
    if r.Ok? {
      var visible := Visible(members, messages, conversationId);
      var w := r.data.messages;
      var limit := QueryNumber(perPageQuery, 10);
      var offset := (QueryNumber(pageQuery, 1) - 1) * limit;
      assert w == Window(Reverse(visible), offset, limit);
      var key := (m: MessageRow) => m.createdAt as int;
      VisibleIncreasing(members, messages, conversationId);
      WindowOfReverse(visible, offset, limit, key);
      forall m | m in w
        ensures m in messages && m.conversationId == conversationId && HasMember(members, conversationId, m.senderId)
      {
        assert m in visible;
      }
    }
  }

  /** The visible messages keep the table's increasing creation times. */
  lemma VisibleIncreasing(members: seq<MemberRow>, messages: seq<MessageRow>, conversationId: int)
    requires Increasing(messages, (m: MessageRow) => m.createdAt as int)
    ensures Increasing(Visible(members, messages, conversationId), (m: MessageRow) => m.createdAt as int)
  {
    var p := (m: MessageRow) => m.conversationId == conversationId && HasMember(members, conversationId, m.senderId);
    FilterIncreasing(messages, p, (m: MessageRow) => m.createdAt as int);
  }

  /** The first page, when it is large enough, holds every visible message,
      newest first. */
  lemma FirstPageHoldsAll(members: seq<MemberRow>, messages: seq<MessageRow>, conversationId: int, perPage: int)
    requires perPage >= |Visible(members, messages, conversationId)| && perPage != 0
    ensures GetMessageByRoomId(members, messages, conversationId, Some(1), Some(perPage))
      == Ok(MESSAGES_RETRIEVED, MessagePage(|Visible(members, messages, conversationId)|, 1, perPage,
                                            Reverse(Visible(members, messages, conversationId))))
  {
    var rev := Reverse(Visible(members, messages, conversationId));
    assert rev[0..] == rev;
  }
}
