/** The real-time hub: every connection can subscribe to conversation rooms,
    send messages that are stored and then broadcast to the room, and relay
    typing notices to the rest of the room. */
module SocketHandler {
  import opened Common
  import opened Store
  import opened Http
  import opened MessageService

  type ConnId = nat

  /** What a client sends with `send_message`. */
  datatype SendPayload = SendPayload(senderId: int, conversationId: int, message: string, kind: string)

  /** Events the server emits. `NewMessage(None)` is a broadcast whose payload
      is `undefined`. */
  datatype Event =
    | NewMessage(payload: Option<StoredMessage>)
    | SendMessageError(message: string)
    | Typing(conversationId: int, userId: int)
    | StopTyping(conversationId: int, userId: int)

  /** One `emit`, with the set of connections it reaches. */
  datatype Emission = Emission(to: set<ConnId>, event: Event)

  /** The error text of reading `toJSON` on the `null` a failed lookup returns. */
  const NULL_TO_JSON := "Cannot read properties of null (reading 'toJSON')"

  /** The room a conversation is broadcast in. */
  function RoomName(conversationId: int): string {
    "conversation_" + IntToString(conversationId)
  }

  /** Distinct conversations never share a room. */
  lemma RoomNameInjective(a: int, b: int)
    requires RoomName(a) == RoomName(b)
    ensures a == b
  {
    DropPrefix("conversation_", IntToString(a), IntToString(b));
    IntToStringSign(a);
    IntToStringSign(b);
    if a < 0 {
      DropPrefix("-", NatToString(-a), NatToString(-b));
      NatToStringInjective(-a, -b);
    } else {
      NatToStringInjective(a, b);
    }
  }

  lemma DropPrefix(p: string, x: string, y: string)
    requires p + x == p + y
    ensures x == y
  {
    assert x == (p + x)[|p|..];
    assert y == (p + y)[|p|..];
  }

  /** A rendered number starts with a minus sign exactly when it is negative. */
  lemma IntToStringSign(n: int)
    ensures |IntToString(n)| >= 1
    ensures IntToString(n)[0] == '-' <==> n < 0
  {
    if n >= 0 {
      assert IsDigit(NatToString(n)[0]);
    }
  }

  /** The subscribers of a room; a room nobody joined has none. */
  function Members(rooms: map<string, set<ConnId>>, room: string): set<ConnId> {
    if room in rooms then rooms[room] else {}
  }

  /** `socket.join(room)`. */
  function Joined(rooms: map<string, set<ConnId>>, room: string, conn: ConnId): (r: map<string, set<ConnId>>)
    ensures Members(r, room) == Members(rooms, room) + {conn}
    ensures forall other :: other != room ==> Members(r, other) == Members(rooms, other)
  {
    rooms[room := Members(rooms, room) + {conn}]
  }

  /** Joining a room twice is the same as joining it once. */
  lemma JoinIdempotent(rooms: map<string, set<ConnId>>, room: string, conn: ConnId)
    ensures Joined(Joined(rooms, room, conn), room, conn) == Joined(rooms, room, conn)
  {
    var once := Joined(rooms, room, conn);
    var twice := Joined(once, room, conn);
    assert twice.Keys == once.Keys;
    forall k | k in twice.Keys ensures twice[k] == once[k] {
      assert Members(twice, k) == Members(once, k);
    }
  }

  /** What the socket library does on disconnect: the connection leaves every
      room and rooms left empty disappear. */
  function Removed(rooms: map<string, set<ConnId>>, conn: ConnId): (r: map<string, set<ConnId>>)
    ensures forall room :: Members(r, room) == Members(rooms, room) - {conn}
  {
    map room | room in rooms && rooms[room] - {conn} != {} :: rooms[room] - {conn}
  }

  /** The events one connection receives, in emission order. */
  function Received(outbox: seq<Emission>, c: ConnId): seq<Event> {
    if outbox == [] then []
    else
      var last := outbox[|outbox| - 1];
      Received(outbox[..|outbox| - 1], c) + (if c in last.to then [last.event] else [])
  }

  lemma ReceivedAppend(outbox: seq<Emission>, e: Emission, c: ConnId)
    ensures Received(outbox + [e], c) == Received(outbox, c) + (if c in e.to then [e.event] else [])
  {
    assert (outbox + [e])[..|outbox|] == outbox;
  }

  class Hub {
    /** Room name to the connections subscribed to it. */
    var rooms: map<string, set<ConnId>>
    /** Connections currently open. */
    var connected: set<ConnId>
    /** Every emit so far. */
    var outbox: seq<Emission>
    const db: Db

    ghost predicate Valid()
      reads this, db
    {
      && db.Valid()
      && (forall room :: room in rooms ==> rooms[room] != {} && rooms[room] <= connected)
    }

    constructor (db: Db)
      requires db.Valid()
      ensures Valid() && this.db == db
      ensures rooms == map[] && connected == {} && outbox == []
    {
      this.db := db;
      rooms, connected, outbox := map[], {}, [];
    }

    /** A new connection; the socket library gives it an id not in use. */
    method Connect(conn: ConnId)
      requires Valid() && conn !in connected
      modifies this
      ensures Valid()
      ensures connected == old(connected) + {conn}
      ensures rooms == old(rooms) && outbox == old(outbox)
    {
      connected := connected + {conn};
    }

    /** `join_conversation`: subscribes the connection to the conversation's
        room and to nothing else; nothing is emitted. */
    method JoinConversation(conn: ConnId, conversationId: int)
      requires Valid() && conn in connected
      modifies this
      ensures Valid()
      ensures rooms == Joined(old(rooms), RoomName(conversationId), conn)
      ensures connected == old(connected) && outbox == old(outbox)
    {
      rooms := Joined(rooms, RoomName(conversationId), conn);
    }

    /** `send_message`, as written. A `fault` is an error the store raises for
        a reason the model does not track, such as a lost connection.
        Text: the service stores the message and the hub broadcasts its answer's
        `data` to the whole room, the sender included; for an unknown
        conversation the service answers without `data` and the hub still
        broadcasts, with an `undefined` payload; for a sender who is not a
        user the insert throws and only the sender gets `send_message_error`. Any other kind: nothing is
        stored; the sender's latest message in the conversation is broadcast,
        and when there is none only the sender gets `send_message_error`. */
    method SendMessage(conn: ConnId, data: SendPayload, fault: Option<string>)
      requires Valid() && conn in connected
      modifies this, db
      ensures Valid()
      ensures rooms == old(rooms) && connected == old(connected)
      ensures db.users == old(db.users) && db.conversations == old(db.conversations)
      ensures db.members == old(db.members) && db.friendRequests == old(db.friendRequests)
      ensures var room := Members(rooms, RoomName(data.conversationId));
        if fault.Some? then
          && db.messages == old(db.messages)
          && outbox == old(outbox) + [Emission({conn}, SendMessageError(fault.value))]
        else if data.kind == MESSAGE_TEXT then
          if ConversationById(db.conversations, data.conversationId).None? then
            && db.messages == old(db.messages)
            && outbox == old(outbox) + [Emission(room, NewMessage(None))]
          else if UserById(db.users, data.senderId).None? then
            && db.messages == old(db.messages)
            && outbox == old(outbox) + [Emission({conn}, SendMessageError(FOREIGN_KEY_VIOLATION))]
          else
            var row := MessageRow(|old(db.messages)| + 1, data.senderId, data.conversationId, data.message,
                                  MESSAGE_TEXT, None, None, None, old(db.clock));
            && db.messages == old(db.messages) + [row]
            && outbox == old(outbox) + [Emission(room, NewMessage(Some(StoredMessage(row, UserById(db.users, data.senderId)))))]
        else
          && db.messages == old(db.messages)
          && match LatestMessage(db.messages, data.senderId, data.conversationId)
             case None => outbox == old(outbox) + [Emission({conn}, SendMessageError(NULL_TO_JSON))]
             case Some(i) =>
               outbox == old(outbox) + [Emission(room, NewMessage(Some(StoredMessage(db.messages[i], UserById(db.users, data.senderId)))))]
    {
      if fault.Some? {
        outbox := outbox + [Emission({conn}, SendMessageError(fault.value))];
      } else if data.kind == MESSAGE_TEXT {
        SendText(conn, data);
      } else {
        SendFile(conn, data);
      }
    }

    /** The text branch of `send_message`, as written: the service's `data`
        is broadcast whether or not it is there; an insert the foreign keys
        refuse is caught and reported to the sender alone. */
    method SendText(conn: ConnId, data: SendPayload)
      requires Valid() && conn in connected
      modifies this, db
      ensures Valid()
      ensures rooms == old(rooms) && connected == old(connected)
      ensures db.users == old(db.users) && db.conversations == old(db.conversations)
      ensures db.members == old(db.members) && db.friendRequests == old(db.friendRequests)
      ensures var room := Members(rooms, RoomName(data.conversationId));
        if ConversationById(db.conversations, data.conversationId).None? then
          && db.messages == old(db.messages)
          && outbox == old(outbox) + [Emission(room, NewMessage(None))]
        else if UserById(db.users, data.senderId).None? then
          && db.messages == old(db.messages)
          && outbox == old(outbox) + [Emission({conn}, SendMessageError(FOREIGN_KEY_VIOLATION))]
        else
          var row := MessageRow(|old(db.messages)| + 1, data.senderId, data.conversationId, data.message,
                                MESSAGE_TEXT, None, None, None, old(db.clock));
          && db.messages == old(db.messages) + [row]
          && outbox == old(outbox) + [Emission(room, NewMessage(Some(StoredMessage(row, UserById(db.users, data.senderId)))))]
    {
      var text := SendMessageService(db, data.senderId, data.conversationId, data.message);
      if text.Threw? {
        outbox := outbox + [Emission({conn}, SendMessageError(text.message))];
      } else {
        outbox := outbox + [Emission(Members(rooms, RoomName(data.conversationId)), NewMessage(text.value.data))];
      }
    }

    /** The file branch of `send_message`: nothing is stored; the sender's
        latest message in the conversation is broadcast, or the sender alone
        hears of the failure to serialise the missing one. */
    method SendFile(conn: ConnId, data: SendPayload)
      requires Valid() && conn in connected
      modifies this
      ensures Valid()
      ensures rooms == old(rooms) && connected == old(connected)
      ensures match LatestMessage(db.messages, data.senderId, data.conversationId)
        case None => outbox == old(outbox) + [Emission({conn}, SendMessageError(NULL_TO_JSON))]
        case Some(i) =>
          outbox == old(outbox) + [Emission(Members(rooms, RoomName(data.conversationId)),
                                            NewMessage(Some(StoredMessage(db.messages[i], UserById(db.users, data.senderId)))))]
    {
      var latest := LatestMessage(db.messages, data.senderId, data.conversationId);
      if latest.None? {
        outbox := outbox + [Emission({conn}, SendMessageError(NULL_TO_JSON))];
      } else {
        var saved := StoredMessage(db.messages[latest.value], UserById(db.users, data.senderId));
        outbox := outbox + [Emission(Members(rooms, RoomName(data.conversationId)), NewMessage(Some(saved)))];
      }
    }

    /** `send_message` as evidently intended: identical, except that a
        conversation the service does not know is reported to the sender alone
        as `send_message_error` instead of broadcasting an `undefined` payload. */
    method SendMessageChecked(conn: ConnId, data: SendPayload, fault: Option<string>)
      requires Valid() && conn in connected
      modifies this, db
      ensures Valid()
      ensures rooms == old(rooms) && connected == old(connected)
      ensures db.users == old(db.users) && db.conversations == old(db.conversations)
      ensures db.members == old(db.members) && db.friendRequests == old(db.friendRequests)
      ensures |outbox| >= |old(outbox)| && outbox[..|old(outbox)|] == old(outbox)
      ensures forall e :: e in outbox[|old(outbox)|..] ==> e.event != NewMessage(None)
      ensures var room := Members(rooms, RoomName(data.conversationId));
        if fault.Some? then
          && db.messages == old(db.messages)
          && outbox == old(outbox) + [Emission({conn}, SendMessageError(fault.value))]
        else if data.kind == MESSAGE_TEXT then
          if ConversationById(db.conversations, data.conversationId).None? then
            && db.messages == old(db.messages)
            && outbox == old(outbox) + [Emission({conn}, SendMessageError(INVALID_CONVERSATION))]
          else if UserById(db.users, data.senderId).None? then
            && db.messages == old(db.messages)
            && outbox == old(outbox) + [Emission({conn}, SendMessageError(FOREIGN_KEY_VIOLATION))]
          else
            var row := MessageRow(|old(db.messages)| + 1, data.senderId, data.conversationId, data.message,
                                  MESSAGE_TEXT, None, None, None, old(db.clock));
            && db.messages == old(db.messages) + [row]
            && outbox == old(outbox) + [Emission(room, NewMessage(Some(StoredMessage(row, UserById(db.users, data.senderId)))))]
        else
          && db.messages == old(db.messages)
          && match LatestMessage(db.messages, data.senderId, data.conversationId)
             case None => outbox == old(outbox) + [Emission({conn}, SendMessageError(NULL_TO_JSON))]
             case Some(i) =>
               outbox == old(outbox) + [Emission(room, NewMessage(Some(StoredMessage(db.messages[i], UserById(db.users, data.senderId)))))]
    {
      if fault.Some? {
        outbox := outbox + [Emission({conn}, SendMessageError(fault.value))];
      } else if data.kind == MESSAGE_TEXT {
        SendTextChecked(conn, data);
      } else {
        SendFile(conn, data);
      }
    }

    /** The text branch as evidently intended: a refused message goes back to
        the sender alone with the service's error, as a thrown insert does. */
    method SendTextChecked(conn: ConnId, data: SendPayload)
      requires Valid() && conn in connected
      modifies this, db
      ensures Valid()
      ensures rooms == old(rooms) && connected == old(connected)
      ensures db.users == old(db.users) && db.conversations == old(db.conversations)
      ensures db.members == old(db.members) && db.friendRequests == old(db.friendRequests)
      ensures var room := Members(rooms, RoomName(data.conversationId));
        if ConversationById(db.conversations, data.conversationId).None? then
          && db.messages == old(db.messages)
          && outbox == old(outbox) + [Emission({conn}, SendMessageError(INVALID_CONVERSATION))]
        else if UserById(db.users, data.senderId).None? then
          && db.messages == old(db.messages)
          && outbox == old(outbox) + [Emission({conn}, SendMessageError(FOREIGN_KEY_VIOLATION))]
        else
          var row := MessageRow(|old(db.messages)| + 1, data.senderId, data.conversationId, data.message,
                                MESSAGE_TEXT, None, None, None, old(db.clock));
          && db.messages == old(db.messages) + [row]
          && outbox == old(outbox) + [Emission(room, NewMessage(Some(StoredMessage(row, UserById(db.users, data.senderId)))))]
    {
      var text := SendMessageService(db, data.senderId, data.conversationId, data.message);
      if text.Threw? {
        outbox := outbox + [Emission({conn}, SendMessageError(text.message))];
      } else if !text.value.success {
        outbox := outbox + [Emission({conn}, SendMessageError(text.value.error.value))];
      } else {
        outbox := outbox + [Emission(Members(rooms, RoomName(data.conversationId)), NewMessage(Some(text.value.data.value)))];
      }
    }

    /** `typing`: relayed unchanged to the room, not to the sender; no state changes. */
    method Typing(conn: ConnId, conversationId: int, userId: int)
      requires Valid() && conn in connected
      modifies this
      ensures Valid()
      ensures rooms == old(rooms) && connected == old(connected)
      ensures outbox == old(outbox) + [Emission(Members(rooms, RoomName(conversationId)) - {conn}, Event.Typing(conversationId, userId))]
    {
      outbox := outbox + [Emission(Members(rooms, RoomName(conversationId)) - {conn}, Event.Typing(conversationId, userId))];
    }

    /** `stop_typing`: as `typing`, with the stop event. */
    method StopTyping(conn: ConnId, conversationId: int, userId: int)
      requires Valid() && conn in connected
      modifies this
      ensures Valid()
      ensures rooms == old(rooms) && connected == old(connected)
      ensures outbox == old(outbox) + [Emission(Members(rooms, RoomName(conversationId)) - {conn}, Event.StopTyping(conversationId, userId))]
    {
      outbox := outbox + [Emission(Members(rooms, RoomName(conversationId)) - {conn}, Event.StopTyping(conversationId, userId))];
    }

    /** `disconnect`: the handler only logs; the socket library drops the
        connection from every room. */
    method Disconnect(conn: ConnId)
      requires Valid() && conn in connected
      modifies this
      ensures Valid()
      ensures connected == old(connected) - {conn}
      ensures rooms == Removed(old(rooms), conn)
      ensures forall room :: conn !in Members(rooms, room)
      ensures outbox == old(outbox)
    {
      rooms := Removed(rooms, conn);
      connected := connected - {conn};
    }
  }

  /** A fresh hub over `db` on which connections 10 and 20 have joined the
      room of one conversation and nothing has been emitted. */
  method TwoInRoom(db: Db, conversationId: int) returns (hub: Hub)
    requires db.Valid()
    ensures fresh(hub) && hub.Valid() && hub.db == db
    ensures hub.connected == {10, 20} && hub.outbox == []
    ensures Members(hub.rooms, RoomName(conversationId)) == {10, 20}
  {
    hub := new Hub(db);
    hub.Connect(10);
    hub.Connect(20);
    hub.JoinConversation(10, conversationId);
    hub.JoinConversation(20, conversationId);
  }

  /** Two connections of users 1 and 2 join conversation 1, which exists; user
      1 sends "hi". Both connections receive the stored message exactly once. */
  method ScenarioBroadcastReachesBoth() returns (a: seq<Event>, b: seq<Event>)
    ensures |a| == 1 && |b| == 1 && a == b
    ensures a[0].NewMessage? && a[0].payload.Some?
    ensures a[0].payload.value.row.senderId == 1 && a[0].payload.value.row.body == "hi"
  {
    var db := new Db();
    var u := db.CreateUser(None, None, Some("Ann"), Some("ann@example.com"), None, "secret1", ROLE_USER);
    var c := db.CreateConversation(CONVERSATION_GROUP, Some("room"));
    assert db.users[0].id == 1 && db.conversations[0].id == 1;
    var hub := TwoInRoom(db, 1);
    hub.SendMessage(10, SendPayload(1, 1, "hi", MESSAGE_TEXT), None);
    var e := hub.outbox[0];
    assert hub.outbox == [] + [e];
    assert e.to == {10, 20} && e.event.payload.value.row.body == "hi";
    ReceivedAppend([], e, 10);
    ReceivedAppend([], e, 20);
    a := Received(hub.outbox, 10);
    b := Received(hub.outbox, 20);
  }

  /** As written: a text message for a conversation that does not exist is
      broadcast to the whole room with an `undefined` payload, and nobody is
      told it failed. */
  method ScenarioUnknownConversationAsWritten() returns (a: seq<Event>, b: seq<Event>)
    ensures a == [NewMessage(None)] && b == [NewMessage(None)]
  {
    var db := new Db();
    var hub := TwoInRoom(db, 7);
    hub.SendMessage(10, SendPayload(1, 7, "hi", MESSAGE_TEXT), None);
    ReceivedAppend([], hub.outbox[0], 10);
    ReceivedAppend([], hub.outbox[0], 20);
    assert hub.outbox == [] + [hub.outbox[0]];
    a := Received(hub.outbox, 10);
    b := Received(hub.outbox, 20);
  }

  /** Corrected: the same exchange reports the 404 text to the sender alone
      and the other member receives nothing. */
  method ScenarioUnknownConversationChecked() returns (a: seq<Event>, b: seq<Event>)
    ensures a == [SendMessageError(INVALID_CONVERSATION)] && b == []
  {
    var db := new Db();
    var hub := TwoInRoom(db, 7);
    hub.SendMessageChecked(10, SendPayload(1, 7, "hi", MESSAGE_TEXT), None);
    ReceivedAppend([], hub.outbox[0], 10);
    ReceivedAppend([], hub.outbox[0], 20);
    assert hub.outbox == [] + [hub.outbox[0]];
    a := Received(hub.outbox, 10);
    b := Received(hub.outbox, 20);
  }

  /** A text message to an existing conversation from a sender id no user
      has: the insert is refused, nothing is stored, the sender alone gets
      the error and the other member receives nothing. */
  method ScenarioUnknownSender() returns (a: seq<Event>, b: seq<Event>, stored: nat)
    ensures a == [SendMessageError(FOREIGN_KEY_VIOLATION)] && b == [] && stored == 0
  {
    var db := new Db();
    var u := db.CreateUser(None, None, Some("Ann"), Some("ann@example.com"), None, "secret1", ROLE_USER);
    var c := db.CreateConversation(CONVERSATION_GROUP, Some("room"));
    assert db.conversations[0].id == 1 && db.users[0].id == 1;
    UserByIdPositional(db.users, 999);
    var hub := TwoInRoom(db, 1);
    hub.SendMessage(10, SendPayload(999, 1, "hi", MESSAGE_TEXT), None);
    ReceivedAppend([], hub.outbox[0], 10);
    ReceivedAppend([], hub.outbox[0], 20);
    assert hub.outbox == [] + [hub.outbox[0]];
    a := Received(hub.outbox, 10);
    b := Received(hub.outbox, 20);
    stored := |db.messages|;
  }
}
