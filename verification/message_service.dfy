/** The message services the socket hub and the upload route call: store a
    text message for a known conversation, or store an uploaded file's
    metadata as a file message. */
module MessageService {
  import opened Common
  import opened Store
  import opened Http

  /** A stored message as the services hand it on: the row plus the sender's
      user record attached to it (`dataValues.user`), which `findByPk` may not
      find. */
  datatype StoredMessage = StoredMessage(row: MessageRow, user: Option<UserRow>)

  /** The service's plain-object answer. */
  datatype ServiceReply = ServiceReply(
    success: bool,
    statusCode: Option<int>,
    error: Option<string>,
    data: Option<StoredMessage>)

  const INVALID_CONVERSATION := "Conversation id is invalid."

  /** The upload step's description of a stored file. */
  datatype FileData = FileData(fileUrl: string, originalName: string, mimeType: string, size: int)

  /** `sendMessageService`: a message for a conversation that does not exist is
      refused with 404 and nothing is stored. For an existing conversation the
      insert throws when the sender is not a user; otherwise exactly one text
      row is added and returned with its sender, who is then always found,
      attached. */
  method SendMessageService(db: Db, senderId: int, conversationId: int, message: string)
    returns (r: Outcome<ServiceReply>)
    requires db.Valid()
    modifies db
    ensures db.Valid()
    ensures db.users == old(db.users) && db.friendRequests == old(db.friendRequests)
    ensures db.conversations == old(db.conversations) && db.members == old(db.members)
    ensures ConversationById(db.conversations, conversationId).None? ==>
      && r == Returned(ServiceReply(false, Some(404), Some(INVALID_CONVERSATION), None))
      && db.messages == old(db.messages) && db.clock == old(db.clock)
    ensures ConversationById(db.conversations, conversationId).Some? && UserById(db.users, senderId).None? ==>
      && r == Threw(FOREIGN_KEY_VIOLATION)
      && db.messages == old(db.messages) && db.clock == old(db.clock)
    ensures ConversationById(db.conversations, conversationId).Some? && UserById(db.users, senderId).Some? ==>
      var row := MessageRow(|old(db.messages)| + 1, senderId, conversationId, message, MESSAGE_TEXT,
                            None, None, None, old(db.clock));
      && db.messages == old(db.messages) + [row]
      && r == Returned(ServiceReply(true, Some(200), None, Some(StoredMessage(row, UserById(db.users, senderId)))))
  {
    var conversation := ConversationById(db.conversations, conversationId);
    if conversation.None? {
      return Returned(ServiceReply(false, Some(404), Some(INVALID_CONVERSATION), None));
    }
    var user := UserById(db.users, senderId);
    var row := db.CreateMessage(senderId, conversationId, message, MESSAGE_TEXT, None, None, None);
    if row.Threw? {
      return Threw(row.message);
    }
    r := Returned(ServiceReply(true, Some(200), None, Some(StoredMessage(row.value, user))));
  }

  /** `sendFileMessageService`: stores one file row (URL as the body, MIME
      type as the file type, size as the file size) and reports success
      without a status code and without the sender attached. The conversation
      is not looked up first: when it or the sender does not exist, the
      insert throws and nothing is stored. */
  method SendFileMessageService(db: Db, senderId: int, conversationId: int, file: FileData)
    returns (r: Outcome<ServiceReply>)
    requires db.Valid()
    modifies db
    ensures db.Valid()
    ensures db.users == old(db.users) && db.friendRequests == old(db.friendRequests)
    ensures db.conversations == old(db.conversations) && db.members == old(db.members)
    ensures r.Threw? <==> UserById(db.users, senderId).None? || ConversationById(db.conversations, conversationId).None?
    ensures r.Threw? ==>
      && r == Threw(FOREIGN_KEY_VIOLATION)
      && db.messages == old(db.messages) && db.clock == old(db.clock)
    ensures r.Returned? ==>
      var row := MessageRow(|old(db.messages)| + 1, senderId, conversationId, file.fileUrl, MESSAGE_FILE,
                            Some(file.originalName), Some(file.mimeType), Some(file.size), old(db.clock));
      && db.messages == old(db.messages) + [row]
      && r.value == ServiceReply(true, None, None, Some(StoredMessage(row, None)))
  {
    var row := db.CreateMessage(senderId, conversationId, file.fileUrl, MESSAGE_FILE,
                                Some(file.originalName), Some(file.mimeType), Some(file.size));
    if row.Threw? {
      return Threw(row.message);
    }
    r := Returned(ServiceReply(true, None, None, Some(StoredMessage(row.value, None))));
  }
}
