/** The persistent store behind the server, reduced to what the services use:
    five tables with auto-increment ids, a creation clock for messages, an
    ideal password hash and opaque signed tokens. */
module Store {
  import opened Common
  import Http

  const ROLE_ADMIN := "admin"
  const ROLE_USER := "user"

  const REQUEST_PENDING := "pending"
  const REQUEST_APPROVED := "approved"
  const REQUEST_REJECTED := "rejected"

  const CONVERSATION_SINGLE := "single"
  const CONVERSATION_GROUP := "group"

  const MESSAGE_TEXT := "text"
  const MESSAGE_FILE := "file"

  /** What the user model's create hook stores in place of a password: a
      hash that matches exactly the password it was made from. */
  datatype Secret = Hashed(plain: string)

  /** `user.validatePassword(password)`. */
  predicate PasswordMatches(password: string, s: Secret) {
    s.plain == password
  }

  datatype UserRow = UserRow(
    id: nat,
    firstName: Option<string>,
    lastName: Option<string>,
    name: Option<string>,
    email: Option<string>,
    mobile: Option<string>,
    password: Secret,
    role: string)

  datatype FriendRequestRow = FriendRequestRow(id: nat, userId: int, friendId: int, status: string)

  datatype ConversationRow = ConversationRow(id: nat, kind: string, name: Option<string>)

  datatype MemberRow = MemberRow(id: nat, conversationId: int, userId: int)

  datatype MessageRow = MessageRow(
    id: nat,
    senderId: int,
    conversationId: int,
    body: string,
    kind: string,
    originalName: Option<string>,
    fileType: Option<string>,
    fileSize: Option<int>,
    createdAt: nat)

  /** The claims a signed access token carries. */
  datatype Claims = Claims(id: int, role: string, email: Option<string>, mobile: Option<string>)

  /** `generateAccessToken(claims)`: the token is opaque; only its claims matter. */
  datatype Token = Signed(claims: Claims)

  /** What the database raises for an insert whose foreign key names no row.
      Its wording depends on the database, which is not part of this model. */
  const FOREIGN_KEY_VIOLATION := "insert violates foreign key constraint"

  /** `Model.findByPk(id)` on the user table. */
  function UserById(users: seq<UserRow>, id: int): (r: Option<UserRow>)
    ensures r.Some? ==> r.value in users && r.value.id == id
    ensures r.None? ==> forall u :: u in users ==> u.id != id
  {
    FindFirst(users, (u: UserRow) => u.id == id)
  }

  /** `Conversation.findByPk(id)`. */
  function ConversationById(conversations: seq<ConversationRow>, id: int): (r: Option<ConversationRow>)
    ensures r.Some? ==> r.value in conversations && r.value.id == id
    ensures r.None? ==> forall c :: c in conversations ==> c.id != id
  {
    FindFirst(conversations, (c: ConversationRow) => c.id == id)
  }

  class Db {
    var users: seq<UserRow>
    var friendRequests: seq<FriendRequestRow>
    var conversations: seq<ConversationRow>
    var members: seq<MemberRow>
    var messages: seq<MessageRow>
    /** The creation clock: the `createdAt` the next message receives. */
    var clock: nat

    /** Ids are auto-increment and rows are never deleted, so row i has id
        i + 1; messages are stamped with strictly increasing creation times;
        and every foreign key names an existing row, which with positional
        ids means it lies between 1 and the size of the table it refers to. */
    ghost predicate Valid()
      reads this
    {
      && (forall i :: 0 <= i < |users| ==> users[i].id == i + 1)
      && (forall i :: 0 <= i < |friendRequests| ==> friendRequests[i].id == i + 1)
      && (forall i :: 0 <= i < |conversations| ==> conversations[i].id == i + 1)
      && (forall i :: 0 <= i < |members| ==> members[i].id == i + 1)
      && (forall i :: 0 <= i < |messages| ==> messages[i].id == i + 1)
      && (forall i, j :: 0 <= i < j < |messages| ==> messages[i].createdAt < messages[j].createdAt)
      && (forall i :: 0 <= i < |messages| ==> messages[i].createdAt < clock)
      && (forall r :: r in friendRequests ==> 1 <= r.userId <= |users| && 1 <= r.friendId <= |users|)
      && (forall m :: m in members ==> 1 <= m.conversationId <= |conversations| && 1 <= m.userId <= |users|)
      && (forall m :: m in messages ==> 1 <= m.senderId <= |users| && 1 <= m.conversationId <= |conversations|)
    }

    constructor ()
      ensures Valid()
      ensures users == [] && friendRequests == [] && conversations == []
      ensures members == [] && messages == []
    {
      users, friendRequests, conversations, members, messages := [], [], [], [], [];
      clock := 0;
    }

    /** `User.create(...)`; the create hook hashes the password. */
    method CreateUser(firstName: Option<string>, lastName: Option<string>, name: Option<string>,
                      email: Option<string>, mobile: Option<string>, password: string, role: string)
      returns (u: UserRow)
      requires Valid()
      modifies this
      ensures Valid()
      ensures u == UserRow(|old(users)| + 1, firstName, lastName, name, email, mobile, Hashed(password), role)
      ensures users == old(users) + [u]
      ensures friendRequests == old(friendRequests) && conversations == old(conversations)
      ensures members == old(members) && messages == old(messages) && clock == old(clock)
    {
      u := UserRow(|users| + 1, firstName, lastName, name, email, mobile, Hashed(password), role);
      users := users + [u];
    }

    /** `FriendRequest.create(...)`: both ids must name users, or the foreign
        keys refuse the insert, it throws and nothing is stored. */
    method CreateFriendRequest(userId: int, friendId: int, status: string) returns (r: Http.Outcome<FriendRequestRow>)
      requires Valid()
      modifies this
      ensures Valid()
      ensures r.Returned? <==> UserById(users, userId).Some? && UserById(users, friendId).Some?
      ensures r.Threw? ==> r.message == FOREIGN_KEY_VIOLATION && friendRequests == old(friendRequests)
      ensures r.Returned? ==>
        && r.value == FriendRequestRow(|old(friendRequests)| + 1, userId, friendId, status)
        && friendRequests == old(friendRequests) + [r.value]
      ensures users == old(users) && conversations == old(conversations)
      ensures members == old(members) && messages == old(messages) && clock == old(clock)
    {
      UserByIdPositional(users, userId);
      UserByIdPositional(users, friendId);
      if !(1 <= userId <= |users| && 1 <= friendId <= |users|) {
        return Http.Threw(FOREIGN_KEY_VIOLATION);
      }
      var row := FriendRequestRow(|friendRequests| + 1, userId, friendId, status);
      friendRequests := friendRequests + [row];
      r := Http.Returned(row);
    }

    /** `Conversation.create(...)` with the `type` and `name` attributes; a
        key the model does not declare is not stored. */
    method CreateConversation(kind: string, name: Option<string>) returns (c: ConversationRow)
      requires Valid()
      modifies this
      ensures Valid()
      ensures c == ConversationRow(|old(conversations)| + 1, kind, name)
      ensures conversations == old(conversations) + [c]
      ensures users == old(users) && friendRequests == old(friendRequests)
      ensures members == old(members) && messages == old(messages) && clock == old(clock)
    {
      c := ConversationRow(|conversations| + 1, kind, name);
      conversations := conversations + [c];
    }

    /** `ConversationMember.bulkCreate(...)`: one row per user id, in order,
        inserted by one statement. When the conversation or any of the users
        does not exist, the foreign keys refuse the whole statement, it throws
        and no row is stored. */
    method BulkCreateMembers(conversationId: int, userIds: seq<int>) returns (r: Http.Outcome<seq<MemberRow>>)
      requires Valid()
      modifies this
      ensures Valid()
      ensures r.Returned? <==>
        ConversationById(conversations, conversationId).Some? && forall id :: id in userIds ==> UserById(users, id).Some?
      ensures r.Threw? ==> r.message == FOREIGN_KEY_VIOLATION && members == old(members)
      ensures r.Returned? ==>
        && |r.value| == |userIds|
        && (forall k :: 0 <= k < |userIds| ==>
              r.value[k] == MemberRow(|old(members)| + k + 1, conversationId, userIds[k]))
        && members == old(members) + r.value
      ensures users == old(users) && friendRequests == old(friendRequests)
      ensures conversations == old(conversations) && messages == old(messages) && clock == old(clock)
    {
      ConversationByIdPositional(conversations, conversationId);
      forall id | id in userIds
        ensures UserById(users, id).Some? <==> 1 <= id <= |users|
      {
        UserByIdPositional(users, id);
      }
      if !(1 <= conversationId <= |conversations|) || exists id :: id in userIds && !(1 <= id <= |users|) {
        return Http.Threw(FOREIGN_KEY_VIOLATION);
      }
      var base := |members|;
      var rows := seq(|userIds|, k requires 0 <= k < |userIds| => MemberRow(base + k + 1, conversationId, userIds[k]));
      forall m | m in rows
        ensures 1 <= m.conversationId <= |conversations| && 1 <= m.userId <= |users|
      {
        var k :| 0 <= k < |rows| && rows[k] == m;
        assert userIds[k] in userIds;
      }
      members := members + rows;
      r := Http.Returned(rows);
    }

    /** `Message.create(...)`: the new row is stamped with the creation clock.
        When the sender or the conversation does not exist, the foreign keys
        refuse the insert, it throws and nothing is stored. */
    method CreateMessage(senderId: int, conversationId: int, body: string, kind: string,
                         originalName: Option<string>, fileType: Option<string>, fileSize: Option<int>)
      returns (m: Http.Outcome<MessageRow>)
      requires Valid()
      modifies this
      ensures Valid()
      ensures m.Returned? <==>
        UserById(users, senderId).Some? && ConversationById(conversations, conversationId).Some?
      ensures m.Threw? ==> m.message == FOREIGN_KEY_VIOLATION && messages == old(messages) && clock == old(clock)
      ensures m.Returned? ==>
        && m.value == MessageRow(|old(messages)| + 1, senderId, conversationId, body, kind,
                                 originalName, fileType, fileSize, old(clock))
        && messages == old(messages) + [m.value]
      ensures users == old(users) && friendRequests == old(friendRequests)
      ensures conversations == old(conversations) && members == old(members)
    {
      UserByIdPositional(users, senderId);
      ConversationByIdPositional(conversations, conversationId);
      if !(1 <= senderId <= |users| && 1 <= conversationId <= |conversations|) {
        return Http.Threw(FOREIGN_KEY_VIOLATION);
      }
      var row := MessageRow(|messages| + 1, senderId, conversationId, body, kind,
                            originalName, fileType, fileSize, clock);
      messages := messages + [row];
      clock := clock + 1;
      m := Http.Returned(row);
    }
  }

  /** With positional ids, `findByPk` finds a user exactly for the ids from 1
      to the number of users. */
  lemma UserByIdPositional(users: seq<UserRow>, id: int)
    requires forall i :: 0 <= i < |users| ==> users[i].id == i + 1
    ensures UserById(users, id).Some? <==> 1 <= id <= |users|
  {
    if 1 <= id <= |users| {
      assert users[id - 1] in users;
    }
    var r := UserById(users, id);
    if r.Some? {
      var j :| 0 <= j < |users| && users[j] == r.value;
    }
  }

  /** With positional ids, `findByPk` finds a conversation exactly for the ids
      from 1 to the number of conversations. */
  lemma ConversationByIdPositional(conversations: seq<ConversationRow>, id: int)
    requires forall i :: 0 <= i < |conversations| ==> conversations[i].id == i + 1
    ensures ConversationById(conversations, id).Some? <==> 1 <= id <= |conversations|
  {
    if 1 <= id <= |conversations| {
      assert conversations[id - 1] in conversations;
    }
    var r := ConversationById(conversations, id);
    if r.Some? {
      var j :| 0 <= j < |conversations| && conversations[j] == r.value;
    }
  }

  /** The rows of a `findOne`/`findAll` ordered by `createdAt` descending: the
      most recent message of `senderId` in `conversationId`, any kind. */
  function LatestMessage(messages: seq<MessageRow>, senderId: int, conversationId: int): Option<nat> {
    LastIndex(messages, (m: MessageRow) => Matches(m, senderId, conversationId))
  }

  /** The `where: { senderId, conversationId }` condition. */
  predicate Matches(m: MessageRow, senderId: int, conversationId: int) {
    m.senderId == senderId && m.conversationId == conversationId
  }

  /** With strictly increasing creation times, the latest match is the one with
      the greatest `createdAt` among all matches. */
  lemma LatestMessageIsNewest(messages: seq<MessageRow>, senderId: int, conversationId: int)
    requires forall i, j :: 0 <= i < j < |messages| ==> messages[i].createdAt < messages[j].createdAt
    ensures match LatestMessage(messages, senderId, conversationId)
      case None => forall m :: m in messages ==> !Matches(m, senderId, conversationId)
      case Some(i) =>
        && i < |messages|
        && Matches(messages[i], senderId, conversationId)
        && forall k :: 0 <= k < |messages| && k != i && Matches(messages[k], senderId, conversationId) ==>
             messages[k].createdAt < messages[i].createdAt
  {
  }
}
