# Communication platform: a verified model of its core

This project models the core of a chat and calling platform with an Express
server and a Next.js client, in Dafny. It proves properties of that model.

On the server it covers:
- the Socket.IO room hub: joining conversation rooms, broadcasting new messages, and relaying typing events;
- the message services and routes: creating single and group conversations, sending messages, and paging a conversation's messages;
- signup and login, the user-existence check, and the administrator's find-or-create;
- the authentication guards;
- the Joi request schemas, expressed as validators;
- the duplicate-key error handler.

On the client it covers:
- the WebRTC call hook's state machine;
- the chat window's message mapping and grouping;
- the call screen's timer and duration format;
- the page bar and the administrator's user filter;
- the friends page's relation labels and reloads;
- the live-stream chat;
- the toast helpers;
- the signup and login forms.

The store is an in-memory `Db` class (`store.dfy`):
- There are five tables (users, friend requests, conversations, members, messages).
- Ids are auto-increment, so row *i* has id *i + 1*.
- A creation clock stamps messages with strictly increasing `createdAt`.
- Foreign keys are enforced: an insert whose sender, user or conversation id names no row throws and stores nothing, so no stored reference ever dangles.
- Password hashing is an ideal hash: `Hashed(plain)` matches exactly `plain`.
- A token is an opaque value `Signed(claims)`.
- Token verification is a function parameter.

Socket emits go to an outbox. Each entry records the event and the set of connections it reaches. Client pages keep the requests they send and the events they emit as sequences. Network answers, the clock and stored values come in as parameters.

Every operation is stated against its own inputs and state:
- Methods that change state give the whole new state in their `ensures`, and keep a class invariant (`Valid`).
- Pure operations have functions with meaningful `ensures` and partner lemmas. These are round trips (duration format and parse, stored id read back), precedence and iff characterisations (validators, relation labels, the guards), order and soundness of pages, and agreement between routes (admin guard against auth guard).

## Model

| member | source | states |
|---|---|---|
| SocketHandler.RoomNameInjective | server/src/sockets/socketHandler.ts:13-14 | two conversation ids share a room name only when they are equal |
| SocketHandler.Joined | server/src/sockets/socketHandler.ts:14 | joining adds the connection to that room and changes no other room |
| SocketHandler.JoinIdempotent | server/src/sockets/socketHandler.ts:13-14 | joining the same room twice is the same as joining once |
| SocketHandler.Removed | server/src/sockets/socketHandler.ts:84-86 | on disconnect the connection is in no room afterwards; every other membership stays |
| SocketHandler.ReceivedAppend | server/src/sockets/socketHandler.ts:57 | one emit adds its event to the inbox of exactly the connections it reaches |
| SocketHandler.Hub.constructor | server/src/sockets/socketHandler.ts:8-9 | the hub starts with no rooms, no connections and no emits |
| SocketHandler.Hub.Connect | server/src/sockets/socketHandler.ts:9-10 | a connection is added; rooms and outbox are unchanged |
| SocketHandler.Hub.JoinConversation | server/src/sockets/socketHandler.ts:13-14 | only room `conversation_<id>` gains the connection; nothing is emitted |
| SocketHandler.Hub.SendMessage | server/src/sockets/socketHandler.ts:23-66 | as written: a text message from a user to a known conversation stores one row and broadcasts it with its sender to the whole room, sender included; a file message stores nothing and broadcasts the sender's latest message in the conversation; a missing row, a sender who is not a user, or a store error sends `send_message_error` to the sender alone and stores nothing; an unknown conversation broadcasts `new_message` with no payload |
| SocketHandler.Hub.SendMessageChecked | server/src/sockets/socketHandler.ts:28-37 | corrected: the same, but an unknown conversation gives the sender alone the 404 text, and no `new_message` without a payload is ever emitted |
| SocketHandler.Hub.SendText | server/src/sockets/socketHandler.ts:28-57 | as written: a known conversation and a sender who is a user give one stored text row broadcast to the room; a sender who is not a user stores nothing and only the sender gets the foreign-key error; an unknown conversation stores nothing and broadcasts no payload |
| SocketHandler.Hub.SendTextChecked | server/src/services/messageService.ts:10-25 | corrected: an unknown conversation stores nothing and only the sender gets the 404 text; a sender who is not a user stores nothing and only the sender gets the foreign-key error |
| SocketHandler.Hub.SendFile | server/src/sockets/socketHandler.ts:38-57 | nothing is stored; the sender's latest message in the conversation goes to the room, or the sender alone gets the `toJSON` error when there is none |
| SocketHandler.Hub.Typing | server/src/sockets/socketHandler.ts:70-74 | the unchanged payload goes to the room minus the sender; no state changes |
| SocketHandler.Hub.StopTyping | server/src/sockets/socketHandler.ts:78-82 | as typing, with the stop event |
| SocketHandler.Hub.Disconnect | server/src/sockets/socketHandler.ts:84-86 | the handler emits nothing; the connection leaves every room |
| SocketHandler.ScenarioBroadcastReachesBoth | server/src/sockets/socketHandler.ts:28-57 | two members of a room each receive the one stored message, the sender included |
| SocketHandler.ScenarioUnknownSender | server/src/sockets/socketHandler.ts:23-66 | a text message from sender id 999, which no user has, stores nothing; the sender alone gets the error and the other member nothing |
| SocketHandler.ScenarioUnknownConversationAsWritten | server/src/sockets/socketHandler.ts:29-57 | both room members receive `new_message` with no payload for an unknown conversation |
| SocketHandler.ScenarioUnknownConversationChecked | server/src/services/messageService.ts:10-17 | corrected: only the sender hears of the failure, with the 404 text |
| MessageService.SendMessageService | server/src/services/messageService.ts:5-34 | an unknown conversation gives 404 "Conversation id is invalid." and stores nothing; a sender who is not a user makes the insert throw and stores nothing; otherwise exactly one text row (next id, current clock) is stored and returned with the sender's user |
| MessageService.SendFileMessageService | server/src/services/messageService.ts:36-57 | throws, storing nothing, exactly when the sender or the conversation does not exist; otherwise stores one file row (URL as body, MIME type as file type, size as file size) and answers success with no status and no user |
| Store.UserById | server/src/services/messageService.ts:19 | `findByPk`: the found user is in the table with that id; none found means no row has it |
| Store.ConversationById | server/src/services/messageService.ts:10 | the same for conversations |
| Store.Db.constructor | server/src/database/migrations/20251115134729-create-user-table.js:4-111 | the store starts with every table empty, and valid |
| Store.Db.CreateUser | server/src/database/models/user.ts:135-137 | appends one user with the next id and the hashed password; other tables unchanged |
| Store.Db.CreateFriendRequest | server/src/database/models/friendRequest.ts:29-75 | succeeds exactly when both ids name users, appending one request with the next id; otherwise throws and stores nothing; no reference ever dangles |
| Store.Db.CreateConversation | server/src/database/models/conversation.ts:26-30 | appends one conversation with the next id |
| Store.Db.BulkCreateMembers | server/src/database/models/conversationMember.ts:23-62 | succeeds exactly when the conversation and every user id exist, appending one member row per id, in order, with consecutive ids; otherwise throws and stores no row |
| Store.Db.CreateMessage | server/src/database/models/message.ts:24-69 | succeeds exactly when the sender and the conversation exist, appending one message with the next id and the clock's time (later messages are strictly newer); otherwise throws and stores nothing |
| Store.UserByIdPositional | server/src/database/models/user.ts:43-49 | with auto-increment ids, a user is found by primary key exactly for the ids 1 to the number of users |
| Store.ConversationByIdPositional | server/src/database/models/conversation.ts:26-32 | with auto-increment ids, a conversation is found by primary key exactly for the ids 1 to the number of conversations |
| Store.LatestMessageIsNewest | server/src/sockets/socketHandler.ts:39-51 | the chosen match has the greatest `createdAt` of all matches; none is chosen only when nothing matches |
| MessageController.ExistingSingle | server/src/controllers/messageController.ts:15-28 | finds the first single conversation with both users as members, or proves there is none |
| MessageController.SingleLookupFindsNew | server/src/controllers/messageController.ts:15-41 | after a new single conversation with both members is created, the lookup finds it |
| MessageController.ReceiverSingle | server/src/controllers/messageController.ts:16-30 | as written: the first single conversation that has the receiver among its members, with no condition on the sender |
| MessageController.ReceiverSingleIgnoresSender | server/src/controllers/messageController.ts:16-30 | as written, the receiver's own signup conversation is found for a sender who is not in it, where the two-member lookup finds none |
| MessageController.GroupMemberIds | server/src/controllers/messageController.ts:48-52 | the creator is appended iff absent; the given ids, duplicates included, are kept as a prefix |
| MessageController.CreateConversationRoom | server/src/controllers/messageController.ts:9-62 | single: reuse the existing conversation, or create one with exactly two member rows (sender, receiver); group: a conversation stored with no name (the name goes under the undeclared key `roomName`), one member row per id of the member list with the creator added; a member id that is no user's leaves the new conversation without members and the request fails; another type: the request fails reading the id of an undefined conversation |
| MessageController.OpenSingle | server/src/controllers/messageController.ts:15-41 | an existing single conversation of the two users is reused unchanged; otherwise one is created, and gets the two member rows when both ids are users', or none while the insert throws; on success the lookup then finds the returned id |
| MessageController.OpenGroup | server/src/controllers/messageController.ts:42-58 | as written: one group conversation stored with no name; one member row per id of the member list with the creator added exactly when every id is a user's, otherwise none and the insert throws |
| MessageController.GroupName | server/src/controllers/messageController.ts:45 | `name || "New Group"`: never empty; the name when it is truthy, else "New Group" |
| MessageController.OpenGroupNamed | server/src/controllers/messageController.ts:42-58 | corrected: the same group and member rows and the same failure, the group stored under `GroupName(name)` |
| MessageController.ScenarioGroupNameDropped | server/src/controllers/messageController.ts:43-46 | as written, a group created with the name "Team" is stored with no name |
| MessageController.ScenarioGroupNameKept | server/src/controllers/messageController.ts:43-46 | corrected: the group keeps "Team", and an unnamed group is stored as "New Group" |
| MessageController.ScenarioUnknownMember | server/src/controllers/messageController.ts:42-58 | a group listing member id 999, which no user has, leaves one conversation and no member row, and the request fails |
| MessageController.SendMessage | server/src/controllers/messageController.ts:65-81 | an unknown conversation gives 404 and no message; a sender who is not a user makes the insert throw; otherwise one message is stored and returned |
| Http.QueryNumber | server/src/controllers/messageController.ts:86-87 | `Number(q) \|\| d`: a missing, zero or NaN value gives the default |
| Http.Window | server/src/controllers/messageController.ts:101-112 | `limit`/`offset`: the row at `offset + i` for each i; none past the end, `limit` rows when they fit, otherwise the rows left after `offset` |
| MessageController.GetMessageByRoomId | server/src/controllers/messageController.ts:83-120 | page and perPage default to 1 and 10; a negative window is refused; total counts the visible messages; the page holds the visible messages newest first from position (page−1)·perPage on, as many as fit in perPage |
| MessageController.MessagePageSound | server/src/controllers/messageController.ts:91-119 | the i-th message of a page is the (offset+i)-th newest visible message, offset = (page−1)·perPage, and the page has exactly as many as fit; each is of the conversation and from a current member, newest first |
| MessageController.FirstPageHoldsAll | server/src/controllers/messageController.ts:83-120 | a large enough first page lists every visible message, newest first |
| UserUtil.CheckIfUserDoNotExists | server/src/util/userUtil.ts:4-41 | no truthy email or mobile gives "Email or mobile is required."; a user matching either gives "User already exists." with that user; otherwise success with no data |
| UserService.SignupService | server/src/services/userService.ts:18-68 | the existence check's failure is returned first; differing passwords fail with nothing created; otherwise one user (name "first last", role user), an approved self-request, and a single conversation with two member rows for that user |
| UserService.LoginService | server/src/services/userService.ts:70-100 | as written: no identifier throws reading `validatePassword` of missing data; otherwise "User do not exists", "Password do not matches." or the user with a token for its claims |
| UserService.LoginServiceChecked | server/src/services/userService.ts:72-87 | corrected: the existence check's failure is returned as an answer; the other answers are the same |
| UserService.ScenarioSignupThenLogin | server/src/services/userService.ts:18-100 | a user who signed up logs in with the same email and password |
| UserService.ScenarioDuplicateSignup | server/src/services/userService.ts:22-24 | a second signup with a taken email is refused and creates no user |
| UserController.CreateOrLoginAdmin | server/src/controllers/userController.ts:6-41 | with an admin, that admin is answered with no password check and nothing stored; with none, an admin with the given email and hashed password is appended, unless some user already has that email, in which case the unique `email` column makes the insert throw and nothing is stored; the admin count becomes 1 only on success |
| UserController.AdminCountAppend | server/src/controllers/userController.ts:9-28 | appending an admin to a table with none makes exactly one |
| UserController.Signup | server/src/controllers/userController.ts:43-49 | each refusal of the service (no identifier, identifier taken, passwords differ) is answered 403 with its text and stores nothing; otherwise the new user row (next id, hashed password), its approved self friend request, its single self conversation and that conversation's two member rows are appended, and the answer carries the user and a token for its id and role |
| UserController.Login | server/src/controllers/userController.ts:51-57 | with no identifier the service throws; otherwise an unknown identifier or a wrong password for a matching user is answered 403 with its text, and success answers a matching user with a token for that user |
| UserController.GetAllUsers | server/src/controllers/userController.ts:59-77 | defaults 1 and 10; a negative window is refused; total, page and perPage echoed; the page holds the users newest first from position (page−1)·perPage on, as many as fit in perPage |
| UserController.UserPageNewestFirst | server/src/controllers/userController.ts:59-77 | the i-th user of a page is the (offset+i)-th most recently created, offset = (page−1)·perPage, and the page has exactly as many as fit; ids strictly decrease |
| AuthMiddleware.BearerToken | server/src/middlewares/authMiddleware.ts:14 | a `Bearer <t>` header yields exactly `t` |
| AuthMiddleware.AuthDecision | server/src/middlewares/authMiddleware.ts:13-36 | no token: 401 "No Token Provided"; unverifiable token: 401 "Invalid Token"; a verified id no user has: 404 "User not found"; proceeds iff the id is some user's, with that user |
| AuthMiddleware.AdminDecision | server/src/middlewares/authMiddleware.ts:38-69 | no token: 401; unverifiable token: 401 "Invalid or Expired Token"; unknown id: 404 "User not found"; a user who is not an admin: 403; proceeds only with the admin whose id the token carries |
| AuthMiddleware.AdminRefinesAuth | server/src/middlewares/authMiddleware.ts:13-69 | the admin guard lets through exactly the admins the plain guard lets through |
| ErrorHandler.GlobalErrorHandler | server/src/util/errorHandler.ts:9-21 | code 11000 gives 422 "duplicate_key_error" with the field message; anything else gives 500 with the error's own message |
| ErrorHandler.DuplicateKeyNamesEveryField | server/src/util/errorHandler.ts:22-31 | the message names every field of the key pattern |
| ErrorHandler.MissingPatternNamesUndefined | server/src/util/errorHandler.ts:23-29 | a missing pattern is an empty one, and the message then names "undefined" |
| ErrorHandler.DuplicateKeyWording | server/src/util/errorHandler.ts:25-29 | several fields get the combination wording, one or none the single-field wording |
| UserValidation.CheckPassword | server/src/validation/userValidation.ts:5 | a password passes iff it is a string of 6 to 20 characters |
| UserValidation.AdminIssue | server/src/validation/userValidation.ts:3-12 | the admin body passes iff it has a well-formed email and a valid password |
| UserValidation.SignupIssue | server/src/validation/userValidation.ts:14-36 | the signup body passes iff first and last name are non-empty, email and mobile are absent, null or well formed, both passwords are valid, and an email or mobile key is present |
| UserValidation.LoginIssue | server/src/validation/userValidation.ts:38-51 | the login body passes iff email and mobile are absent, null or well formed, the password is valid, and an email or mobile key is present |
| UserValidation.IssueMessage | server/src/validation/userValidation.ts:6-11 | the password rules carry their own texts, prefixed "Password" or "Confirm Password" |
| UserValidation.SignupAcceptsMismatchedPasswords | server/src/validation/userValidation.ts:14-36 | no schema compares password and confirmation |
| UserValidation.LoginAcceptsNullEmail | server/src/validation/userValidation.ts:51 | `or` counts a null email as present |
| UserValidation.LoginNeedsIdentifier | server/src/validation/userValidation.ts:51 | a login body with neither key is refused |
| FriendValidation.StatusIssue | server/src/validation/friendValidation.ts:4-11 | status is required and passes iff it is "approved" or "rejected" |
| FriendValidation.StatusRefusesOthers | server/src/validation/friendValidation.ts:6-9 | "pending" and any other text are refused |
| Joi.CheckUndeclared | server/src/routes/messageRoutes.ts:15-22 | the body passes iff every key is declared; otherwise a key not declared is reported as `object.unknown` |
| MessageValidation.CheckMemberIds | server/src/validation/messageValidation.ts:4-9 | memberIds passes iff it is a non-empty array of integers |
| MessageValidation.CreateRoomIssue | server/src/validation/messageValidation.ts:4-16 | for a group, memberIds and name are required; otherwise both are forbidden |
| MessageValidation.CreateRoomRouteIssue | server/src/validation/messageValidation.ts:4-16 | as the route applies the schema (undeclared keys refused): any body with `conversationType` is refused, and the empty body is the only one let through |
| MessageValidation.CreateRoomIssueDeclared | server/src/controllers/messageController.ts:11-58 | corrected: `conversationType` is required and single or group; a single room needs an integer `receiverId` and no members or name; a group needs members and a name and no `receiverId`; nothing else is accepted |
| MessageValidation.DeclaredSchemaAdmitsBothKinds | server/src/validation/messageValidation.ts:4-16 | the corrected schema admits a single-room body and a group body, both of which the route as written refuses |
| MessageValidation.SendMessageIssue | server/src/validation/messageValidation.ts:18-21 | an integer conversationId and a string message are required |
| CallManager.CallManager.constructor | client/hooks/useCallManager.ts:33-45 | no call, window closed, no media, no peer, no ids |
| CallManager.CallManager.LoadCurrentUser | client/hooks/useCallManager.ts:47-52 | only the current user id changes |
| CallManager.CallManager.StartCall | client/hooks/useCallManager.ts:114-135 | no current user: nothing happens; otherwise caller, call type, other user, window open, not in call, and `call:initiate` is emitted with both ids, the type and the offer |
| CallManager.CallManager.HandleIncomingCall | client/hooks/useCallManager.ts:137-145 | the offer is recorded, the caller becomes the other user, not caller, window open, not in call |
| CallManager.CallManager.AcceptCall | client/hooks/useCallManager.ts:147-169 | nothing without an incoming call and both ids; otherwise `call:answer` goes to the caller, the incoming call is cleared, and the call is connected |
| CallManager.CallManager.HandleCallAnswered | client/hooks/useCallManager.ts:171-179 | the call is connected iff there is a peer; nothing else changes |
| CallManager.CallManager.Cleanup | client/hooks/useCallManager.ts:222-239 | not in call, no call type, no incoming call, window closed and not maximized, no remote stream, no peer, and the local stream cleared; `isCaller`, both ids and the emitted events are kept |
| CallManager.CallManager.CleanupFromListener | client/hooks/useCallManager.ts:222-239 | the cleanup the listeners captured makes the same reset (the peer's sender tracks are stopped through the peer ref) except that the `localStream` state is left holding the ended stream |
| CallManager.CallManager.Reject | client/hooks/useCallManager.ts:181-190 | with an incoming call and a current id, `call:reject` goes to the caller and the call is reset (not in call, no call type, not maximized, no peer, no remote stream); otherwise every field, the call type, peer, streams and maximized flag included, is unchanged |
| CallManager.CallManager.HandleCallRejected | client/hooks/useCallManager.ts:192-195 | the window closes and is not maximized, no call type, incoming call, remote stream or peer; `isCaller`, both ids and the emitted events are kept; the `localStream` state is left as it was |
| CallManager.CallManager.End | client/hooks/useCallManager.ts:208-216 | `call:end` is emitted to the other user only when both ids are known; cleanup always runs: window closed and not maximized, no call type, incoming call, remote stream, peer or local stream; `isCaller` and the ids kept |
| CallManager.CallManager.HandleRemoteEnd | client/hooks/useCallManager.ts:218-220 | as written: the window closes, not maximized, the call resets and `isCaller` is kept, but the `localStream` state is left holding the ended stream |
| CallManager.CallManager.HandleRemoteEndChecked | client/hooks/useCallManager.ts:218-239 | corrected: a remote end makes the same reset as a local hang-up, the `localStream` state cleared, `isCaller` kept |
| CallManager.CallManager.ToggleMaximize | client/hooks/useCallManager.ts:241 | only the maximized flag flips |
| CallManager.CallManager.OnIceCandidate | client/hooks/useCallManager.ts:76-88 | a candidate is forwarded only when there is one and the other user is known |
| CallManager.CallManager.OnTrack | client/hooks/useCallManager.ts:90-93 | the stream becomes the remote stream; nothing else changes |
| CallManager.ScenarioCallerHangsUp | client/hooks/useCallManager.ts:114-216 | start, answered, hang up: exactly `call:initiate` then `call:end`, the local stream cleared |
| CallManager.ScenarioRemoteEndKeepsStream | client/hooks/useCallManager.ts:218-220 | as written, the callee's window closes with its `localStream` state still holding the stream |
| CallManager.ScenarioRemoteEndClearsStream | client/hooks/useCallManager.ts:218-239 | corrected: the same exchange clears the stream |
| ChatWindow.MapMessages | client/components/chat/chat-window.tsx:90-105 | the display list is the server list reversed; a message is own iff its sender is the current user, then shown as "You", else with the user's name; every status is "read" |
| ChatWindow.StatusIcon | client/components/chat/chat-window.tsx:117-130 | a clock exactly for sending, one tick exactly for sent, two ticks exactly for delivered and read, accent colour only for read, no icon for any other status |
| ChatWindow.GroupMessages | client/components/chat/chat-window.tsx:132-142 | the groups concatenate to the list, each is non-empty and of one side, neighbours differ, and no messages give no groups |
| CallInterface.Decompose | client/components/calls/call-interface.tsx:26-28 | hours·3600 + minutes·60 + seconds is the duration, with minutes and seconds under 60 |
| CallInterface.FormatDuration | client/components/calls/call-interface.tsx:25-33 | `H:MM:SS` with an hour or more, else `M:SS` with padded seconds, in terms of the hour, minute and second split that `Decompose` proves adds back up (the round trip is `FormatParse`) |
| CallInterface.FormatParse | client/components/calls/call-interface.tsx:25-33 | reading the text back gives the duration, so distinct durations show distinctly |
| CallInterface.QualityColor | client/components/calls/call-interface.tsx:35-46 | excellent, good and fair map to success, warning and error; anything else to the tertiary class |
| CallInterface.CallScreen.constructor | client/components/calls/call-interface.tsx:10-14 | idle, unmuted, video on, duration zero |
| CallInterface.CallScreen.Tick | client/components/calls/call-interface.tsx:16-23 | the duration grows by one only while active |
| CallInterface.CallScreen.SetStatus | client/components/calls/call-interface.tsx:51 | the status is set; the duration is kept |
| CallInterface.CallScreen.Accept | client/components/calls/call-interface.tsx:74 | the status becomes active |
| CallInterface.CallScreen.Decline | client/components/calls/call-interface.tsx:81 | the status becomes idle; the duration is kept |
| CallInterface.CallScreen.End | client/components/calls/call-interface.tsx:147-150 | idle with the duration reset to zero |
| CallInterface.CallScreen.ToggleMute | client/components/calls/call-interface.tsx:116 | only the mute flag flips |
| CallInterface.CallScreen.ToggleVideo | client/components/calls/call-interface.tsx:128 | only the video flag flips |
| CallInterface.ScenarioTimer | client/components/calls/call-interface.tsx:16-33 | 65 ticks of an active call show "1:05"; ending shows "0:00" |
| Pagination.TotalPages | client/components/chat/pagination.tsx:14 | the least page count whose pages of 20 hold the total |
| Pagination.Render | client/components/chat/pagination.tsx:12-44 | nothing for a total of zero or less; Prev is disabled iff on page 1 and loads page−1; Next is disabled iff on the last page and loads page+1; one button per page loads its own number; only the current one is highlighted |
| Pagination.PagesWellFormed | client/components/chat/pagination.tsx:15-35 | the buttons are 1..totalPages in increasing order, and exactly the current page (when in range) is highlighted |
| Pagination.SinglePageDisablesBoth | client/components/chat/pagination.tsx:21-43 | on the only page both Prev and Next are disabled |
| UserManagement.FilteredUsers | client/components/admin/user-management.tsx:65-72 | a user is kept iff the lower-cased term occurs in the name or email, the role is "all" or matches, and the status is "all" or matches |
| UserManagement.FilteredIsSubsequence | client/components/admin/user-management.tsx:65-72 | the kept users keep their order |
| UserManagement.NoFilterKeepsAll | client/components/admin/user-management.tsx:66-70 | an empty term with both filters on "all" keeps everyone |
| UserManagement.StatusColor | client/components/admin/user-management.tsx:74-85 | active, inactive and banned map to success, warning and error; anything else to the default class |
| UserManagement.Summarize | client/components/admin/user-management.tsx:216-224 | the total is the list length; the active card equals the length of the list filtered on status "active", the moderators card that of the list filtered on role "moderator" |
| FriendsPage.IsFriend | client/app/friends/page.tsx:116-117 | holds iff some friend has the id |
| FriendsPage.IsOutgoing | client/app/friends/page.tsx:119-120 | holds iff some outgoing request is addressed to the id |
| FriendsPage.IsIncoming | client/app/friends/page.tsx:122-123 | holds iff some incoming request comes from the id |
| FriendsPage.RelationOf | client/app/friends/page.tsx:156-169 | Friend, else Pending, else "Sent you a request", else an Add Friend button for that user, each iff its condition |
| FriendsPage.RelationPrecedence | client/app/friends/page.tsx:156-169 | requests both ways show as Pending; a friendship hides any request |
| FriendsPage.AllTabRows | client/app/friends/page.tsx:254 | the all tab lists every loaded user except the current one |
| FriendsPage.AllTabRowsOrder | client/app/friends/page.tsx:254 | the all tab keeps the loaded order, and lists everyone when the id is null or NaN |
| FriendsPage.StatusBody | client/app/friends/page.tsx:88-114 | accept sends `{status: "approved"}`, reject `{status: "rejected"}` |
| FriendsPage.StatusBodiesAccepted | client/app/friends/page.tsx:88-114 | both bodies pass the server's status schema |
| FriendsPage.UsersAfter | client/app/friends/page.tsx:32-35 | as written: only a successful load replaces the users, by the answer's `users`, or by none when it has no such key |
| FriendsPage.AllUsersTabEmptyAsWritten | client/app/friends/page.tsx:32-35 | as written: the server answers the page's query with up to ten users, and the page's list is empty all the same |
| FriendsPage.UsersAfterPaged | client/app/friends/page.tsx:32-35 | corrected: a successful load lists the rows of the answer's page object, each as a person, in order; a failed one keeps the list |
| FriendsPage.PagedLoadListsNewest | client/app/friends/page.tsx:32-35 | corrected: the load lists the ten most recent users, the most recent first, and every user when there are at most ten |
| FriendsPage.RequestsAfter | client/app/friends/page.tsx:37-46 | only a successful load replaces both request lists, each missing one by none |
| FriendsPage.FriendsAfter | client/app/friends/page.tsx:48-57 | only a successful load replaces the friends by the friend of each friendship, in order |
| FriendsPage.FriendsReloadDecidesFriendship | client/app/friends/page.tsx:48-57 | after a successful reload a user is a friend iff some friendship of the answer names them |
| FriendsPage.FriendsPage.constructor | client/app/friends/page.tsx:20-30 | the mount reads the id, loads the three lists in order, and emits nothing |
| FriendsPage.FriendsPage.SetTab | client/app/friends/page.tsx:220-248 | only the active tab changes |
| FriendsPage.FriendsPage.LoadFriendRequests | client/app/friends/page.tsx:37-46 | one GET is logged and the request lists are replaced as loaded |
| FriendsPage.FriendsPage.LoadFriends | client/app/friends/page.tsx:48-57 | one GET is logged and the friends are replaced as loaded |
| FriendsPage.FriendsPage.OnNewFriendRequest | client/app/friends/page.tsx:60-62 | the requests reload iff the event is addressed to the current user; otherwise nothing changes |
| FriendsPage.FriendsPage.OnFriendRequestAccepted | client/app/friends/page.tsx:64-69 | requests and friends reload iff the event is addressed to the current user |
| FriendsPage.FriendsPage.SendFriendRequest | client/app/friends/page.tsx:72-86 | the POST is always sent; only success with a truthy current id emits `send_friend_request` from the current user and reloads the requests |
| FriendsPage.FriendsPage.AcceptRequest | client/app/friends/page.tsx:88-104 | PUT approved; only success with a truthy current id emits `friend_request_accepted` with the requester as sender and the current user as receiver, then reloads both lists |
| FriendsPage.FriendsPage.RejectRequest | client/app/friends/page.tsx:106-114 | PUT rejected, then the requests reload whatever the answer; nothing is emitted |
| FriendsPage.ScenarioRequestRoundTrip | client/app/friends/page.tsx:59-86 | given a users answer that carries `users` (this server's never does, see Findings), the sender sees Pending after a request and the receiver, once notified, sees "Sent you a request" |
| StreamingInterface.InitialChat | client/components/streaming/streaming-interface.tsx:11-15 | three lines numbered 1 to 3, none of them the user's own |
| StreamingInterface.StreamingChat.constructor | client/components/streaming/streaming-interface.tsx:8-16 | not live, 1234 viewers, empty draft, the initial chat, audience hidden |
| StreamingInterface.StreamingChat.Type | client/components/streaming/streaming-interface.tsx:167 | only the draft changes |
| StreamingInterface.StreamingChat.SendChat | client/components/streaming/streaming-interface.tsx:18-31 | a blank draft changes nothing; otherwise exactly one line is appended (id = previous length + 1, user "You", the untrimmed draft), earlier lines are kept, and the draft is cleared |
| StreamingInterface.StreamingChat.ToggleLive | client/components/streaming/streaming-interface.tsx:108 | only the live flag flips |
| StreamingInterface.StreamingChat.ToggleViewers | client/components/streaming/streaming-interface.tsx:119 | only the audience flag flips |
| StreamingInterface.PositionalIdsDistinct | client/components/streaming/streaming-interface.tsx:23 | positional numbering gives distinct ids |
| StreamingInterface.ScenarioSendTwice | client/components/streaming/streaming-interface.tsx:18-31 | "hi" adds line 4; resending the cleared input and sending spaces add nothing |
| Toasts.KindOf | client/lib/services/toasts.ts:24-55 | success, error and warning show as themselves; an omitted or any other type shows as info |
| Toasts.TitleOf | client/lib/services/toasts.ts:26 | the first truthy of text1, text2 and description, else empty; empty iff none is truthy |
| Toasts.DescriptionOf | client/lib/services/toasts.ts:27 | text2 when text1 and text2 are both truthy, else the description |
| Toasts.ShowToast | client/lib/services/toasts.ts:23-56 | kind, title and description as above; the duration is the given one or 4000; `Toast.show` is this same call |
| Toasts.AlertType | client/lib/services/toasts.ts:67-74 | danger is error, success and warning are themselves, anything else is info |
| Toasts.ShowCustomAlertMessage | client/lib/services/toasts.ts:61-81 | a non-empty title heads the toast with the message as description; an empty title lets the message head it; danger shows as an error; 4000 ms; the position is ignored |
| Toasts.Direct | client/lib/services/toasts.ts:90-101 | the message and description pass through with the library's duration |
| Toasts.DirectAgreesWithShowToast | client/lib/services/toasts.ts:87-101 | a direct call shows what `showToast` shows for the same kind, message and description, apart from the duration |
| ApiClient.SignedIn | client/app/signup/page.tsx:61-63 | token, id and role are stored; every other key is kept |
| ApiClient.StoredIdReadsBack | client/app/login/page.tsx:46 | the stored id reads back as the user's id |
| SignupPage.SignupPayload | client/app/signup/page.tsx:41-48 | the six keys, with mobile null when empty |
| SignupPage.PayloadMeetsSchema | client/app/signup/page.tsx:31-48 | a payload the guards let through passes the server's signup schema iff the email is well formed, the password has 6 to 20 characters and the mobile is empty or well formed |
| SignupPage.SignupForm.constructor | client/app/signup/page.tsx:12-20 | empty fields, not loading, no error |
| SignupPage.SignupForm.Fill | client/app/signup/page.tsx:12-17 | only the six fields change |
| SignupPage.SignupForm.HandleSignup | client/app/signup/page.tsx:28-73 | error cleared; an empty required field, then differing passwords, stop before any request; otherwise one POST of the payload, then a stored session and the dashboard, the answer's message, or the exception's message or "Signup failed"; loading off at the end |
| SignupPage.SignupForm.Submit | client/app/signup/page.tsx:41-72 | exactly one POST of the payload; loading is off at the end; the answer decides the rest |
| SignupPage.SignupForm.Settle | client/app/signup/page.tsx:60-69 | success with data stores the session and goes to the dashboard; success without data shows the read error; failure shows the answer's message; an exception shows its message or "Signup failed" |
| SignupPage.ScenarioMismatchStaysLocal | client/app/signup/page.tsx:36-39 | differing passwords send nothing and show "Passwords do not match" |
| LoginPage.LoginPayload | client/app/login/page.tsx:31 | exactly the email and the password |
| LoginPage.PayloadMeetsSchema | client/app/login/page.tsx:26-31 | a payload the guard lets through passes the server's login schema iff the email is well formed and the password has 6 to 20 characters |
| LoginPage.LoginForm.constructor | client/app/login/page.tsx:11-15 | empty fields, not loading, no data, no error |
| LoginPage.LoginForm.Fill | client/app/login/page.tsx:11-12 | only the two fields change |
| LoginPage.LoginForm.HandleLogin | client/app/login/page.tsx:23-58 | error cleared; an empty email or password stops before any request; otherwise one POST; success with data stores the session and goes to the dashboard; failure shows the message; success without data changes nothing more; an exception shows its message; loading off at the end |
| LoginPage.ScenarioLoginStoresId | client/app/login/page.tsx:43-48 | a successful login stores an id that reads back as the user's id |

## Left out

- WebRTC and media: peer connections, `getUserMedia`, SDP and ICE are opaque ids. Track toggles (`muteAudio`, `toggleVideo` in the call hook) are left out. So are `handleRemoteIceCandidate` and failures of `setRemoteDescription`/`createOffer`.
- Media tracks: the call hook's model follows the `localStream` state only. Stopping tracks (through the peer's senders, useCallManager.ts line 231, or through the stream, line 236) is not modelled, so the model does not say that the devices are released.
- Asynchrony: every handler runs to completion as one step. The interleavings of awaits, unawaited reloads and concurrent socket callbacks are not modelled. Neither are the chat window's typing demo timer and the call screen's interval (one `Tick` per second).
- Networking: axios, its interceptors, socket transport and route wiring are left out. Answers are parameters; the one answer whose server side is also modelled, the users list, is tied to it by `AllUsersTabEmptyAsWritten`. A failed GET on the friends page, which throws, is modelled like an answer without success, since both leave the lists unchanged.
- Cryptography: bcrypt is an ideal hash (`Hashed`). JWT signing is the opaque `Signed(claims)`, and token expiry is not modelled. Verification is a function parameter.
- Sequelize: the store keeps only the columns the core reads. `include` of the sender is modelled for `findByPk` only. A `findOne` without `order` takes the first row in table order. `createdAt` of users is taken as table order.
- Joi:
  - `email()` is approximated by one `@` with a dotted domain.
  - Undeclared keys are checked for `createRoomSchema` only (`MessageValidation.CreateRoomRouteIssue`). The user and friend schemas are modelled without that check; the signup and login pages send only keys those schemas declare.
  - Numeric strings are not converted to numbers.
  - The validation middleware collects every failing rule and answers 400 with all their messages. The validators here decide the same pass or fail but name only the first failing rule, so the text of the 400 answer is not modelled.
- Numbers:
  - `Number(x)` of a non-numeric text is modelled as None (NaN).
  - Fractional page numbers are not modelled.
  - Unicode `toLowerCase` and `trim` are modelled on ASCII.
- MessageController.GetMessageByRoomId: a negative offset or limit ends in `Crash(NEGATIVE_WINDOW)` rather than the store's own error text.
- MessageController.CreateConversationRoom: a missing `receiverId` for a single conversation is not modelled (the id is an integer parameter).
- MessageController.CreateConversationRoom: an existing single conversation is looked up with both users as members (`ExistingSingle`), as evidently intended; the query as written is `ReceiverSingle` (see Findings). The handler takes `conversationType` and `receiverId` as parameters, as the corrected schema `CreateRoomIssueDeclared` lets them through.
- The room and message routes (server/src/routes/messageRoutes.ts lines 17-28) do not go through `apiCallWrapper`, so an exception there is not passed to the error handler and the request gets no answer; `Crash` stands for that outcome too.
- Store.Db.Valid: a refused insert is taken to use up no id. A database sequence may still hand out the next id for it, so after a refused insert the database's ids can run one ahead of the model's positional ids.
- FOREIGN_KEY_VIOLATION: the text of the foreign-key error is one fixed string; its real wording depends on the database, which is not part of this model.
- Store.Db.Valid: the `unique` email and mobile columns (server/src/database/models/user.ts lines 62-65 and 80-84) are not an invariant of the store. The one insert that can break them through the routes, the admin creation, is modelled as throwing. A signup whose empty-string email or mobile escapes the existence check cannot pass the signup schema, which refuses empty strings, so it is not modelled.
- Message rows: `MessageRow` carries the columns `type`, `originalName`, `fileType` and `fileSize`, which the migration server/src/database/migrations/20251206100638-add-file-fields-in-message-table.js adds to the table. The `Message` model (server/src/database/models/message.ts lines 24-69) declares none of them, nor the `MESSAGE_TYPE` values ("text", "file") or the `user` association the socket handler uses. The model assumes a model definition that declares them; with the model file as written, these columns and the association are not available to the queries.
- ErrorHandler.GlobalErrorHandler: the handler is not registered by the server setup, and Sequelize errors carry no code 11000. The function models the handler as written.
- UserController.Login: the wrapper's `next(error)` path is modelled as `Crash` with the thrown message.
- The server's socket handler relays no friend events. The friends page's two listeners are modelled as handlers of delivered events; how the events are delivered is not part of this model.
- The friends page's table cells (the name column and the row actions of the request tabs) are not modelled as functions. Their Accept and Reject buttons are `AcceptRequest` and `RejectRequest`.
- The live-stream viewer count is never updated by the screen; it stays at its initial value.
- The storage wrapper's check for a browser window is not modelled: the client always runs in a browser.
- Timestamps and `toLocaleTimeString` are not modelled; the live chat takes the time text as a parameter.
- The chat window's loading and error flags of `getAllMessages` are not modelled.
- FriendsPage.FriendsAfter: a friendship without a `friend` (which makes `isFriend` throw) is not modelled.
- LoginPage.LoginForm.HandleLogin: a success answer whose `data` lacks `user` (which throws) is not modelled; `AuthData` always carries the user.

## Findings

| source | as written | input that shows it | evidently intended | confidence | as-written member | corrected member |
|---|---|---|---|---|---|---|
| server/src/sockets/socketHandler.ts:29-57 | the text branch takes `text.data` without checking `text.success`, so a refused message is broadcast | `send_message` of type text with a conversation id that has no conversation | report the failure to the sender only and broadcast nothing | high (not executed) | SocketHandler.Hub.SendMessage, SocketHandler.ScenarioUnknownConversationAsWritten | SocketHandler.Hub.SendMessageChecked, SocketHandler.ScenarioUnknownConversationChecked |
| server/src/services/userService.ts:72-87 | the existence check's failure is treated as "user found" and its missing `data` is dereferenced | login body `{email: null, password: "secret1"}`, which the login schema accepts | return the check's failure ("Email or mobile is required.") | medium (not executed) | UserService.LoginService | UserService.LoginServiceChecked |
| client/hooks/useCallManager.ts:218-220 | listeners registered once call the first render's `cleanup`, whose `localStream` is still null, so lines 235-238 are skipped: the tracks are stopped through the peer's senders (line 231), but `setLocalStream(null)` never runs and the hook keeps returning the ended stream | the callee accepts a call (media 8); the caller hangs up | clear the local stream as a local hang-up does | medium (not executed) | CallManager.CallManager.HandleRemoteEnd, CallManager.ScenarioRemoteEndKeepsStream | CallManager.CallManager.HandleRemoteEndChecked, CallManager.ScenarioRemoteEndClearsStream |
| server/src/controllers/messageController.ts:16-30 | the two includes name the same model under the same alias `members`, and the query builder merges them into one whose filter is the receiver's, so the lookup finds any single conversation the receiver belongs to | user 2 has signed up (its own conversation 1 has two member rows for user 2); user 1 opens a single room with user 2 and is given conversation 1 | find a single conversation whose members include both users | medium (not executed; rests on the query builder merging same-alias includes) | MessageController.ReceiverSingle, MessageController.ReceiverSingleIgnoresSender | MessageController.ExistingSingle, MessageController.SingleLookupFindsNew |
| server/src/validation/messageValidation.ts:4-16 | the schema declares only `memberIds` and `name`, and the route's validator refuses undeclared keys in a body by default, so every body naming `conversationType` is refused; only `{}` passes, and the handler then fails on it | body `{conversationType: "group", memberIds: [2], name: "Team"}` | declare `conversationType` and `receiverId` | medium (not executed) | MessageValidation.CreateRoomRouteIssue | MessageValidation.CreateRoomIssueDeclared, MessageValidation.DeclaredSchemaAdmitsBothKinds |
| server/src/controllers/messageController.ts:43-46 | the group's name is passed as `roomName`, but the conversation model (server/src/database/models/conversation.ts lines 19-23 and 38-41) declares the column `name`; a key that is not an attribute is not stored, so every group has no name | create a group with `name: "Team"` | store `name || "New Group"` in `name` | high (not executed) | MessageController.OpenGroup, MessageController.ScenarioGroupNameDropped | MessageController.OpenGroupNamed, MessageController.ScenarioGroupNameKept |
| client/app/friends/page.tsx:32-35 | `loadUsers` reads `res.data.users`, but `/users/all_users` answers with the page object `{total, page, perPage, data}` (server/src/controllers/userController.ts lines 71-76), which has no `users` key, so the "All Users" list is always empty | any store holding users, and the page's load with no query | read the list from `res.data.data` | high (not executed) | FriendsPage.UsersAfter, FriendsPage.AllUsersTabEmptyAsWritten | FriendsPage.UsersAfterPaged, FriendsPage.PagedLoadListsNewest |
