/** The "Find Friends" page: the three lists it loads, the relation label it
    shows beside every other user, and the requests and socket events its
    buttons and listeners produce. */
module FriendsPage {
  import opened Common
  import opened Store
  import opened Joi
  import opened FriendValidation
  import opened ApiClient
  import Http
  import UserController

  /** A user as the page lists it (`/users/all_users`, or the `friend` of a
      friendship). */
  datatype Person = Person(id: int, name: Option<string>)

  /** A friend request as the page receives it. */
  datatype Request = Request(id: int, userId: int, friendId: int)

  /** One friendship of `/friends/my_friends`. */
  datatype Friendship = Friendship(friend: Person)

  /** The answers of the three loaders; a GET that fails or throws leaves the
      page as it was, like an answer without success. */
  datatype UsersAnswer = UsersAnswer(success: bool, users: Option<seq<Person>>)
  datatype RequestsAnswer = RequestsAnswer(success: bool, madeToUser: Option<seq<Request>>, madeByUser: Option<seq<Request>>)
  datatype FriendsAnswer = FriendsAnswer(success: bool, data: Option<seq<Friendship>>)

  /** The socket events the page emits. */
  datatype Emit =
    | SendFriendRequestEvent(senderId: int, receiverId: int)
    | FriendRequestAcceptedEvent(senderId: int, receiverId: int)

  const TAB_ALL := "all"
  const TAB_INCOMING := "incoming"
  const TAB_OUTGOING := "outgoing"

  const USERS_ENDPOINT := "/users/all_users"
  const REQUESTS_ENDPOINT := "/friends/my_friend_requests"
  const FRIENDS_ENDPOINT := "/friends/my_friends"
  const MAKE_REQUEST_ENDPOINT := "/friends/make_friend_request/"
  const FRIENDS_PREFIX := "/friends/"

  // ---------------------------------------------------------------- relations

  /** `isFriend`: some friend carries the id. */
  function IsFriend(friends: seq<Person>, userId: int): (b: bool)
    ensures b <==> exists k :: 0 <= k < |friends| && friends[k].id == userId
  {
    FindIndex(friends, (f: Person) => f.id == userId).Some?
  }

  /** `isOutgoingRequest`: a request the user made to `userId` (matched on the
      addressee). */
  function IsOutgoing(outgoing: seq<Request>, userId: int): (b: bool)
    ensures b <==> exists k :: 0 <= k < |outgoing| && outgoing[k].friendId == userId
  {
    FindIndex(outgoing, (r: Request) => r.friendId == userId).Some?
  }

  /** `isIncomingRequest`: a request `userId` made to the user (matched on the
      requester). */
  function IsIncoming(incoming: seq<Request>, userId: int): (b: bool)
    ensures b <==> exists k :: 0 <= k < |incoming| && incoming[k].userId == userId
  {
    FindIndex(incoming, (r: Request) => r.userId == userId).Some?
  }

  /** What the "all" tab shows in the action column of a user. */
  datatype Relation = FriendMark | Pending | SentYouRequest | AddFriend(target: int)

  /** The label chosen for a user: friendship first, then an outgoing request,
      then an incoming one, otherwise a button that requests that user. */
  function RelationOf(friends: seq<Person>, outgoing: seq<Request>, incoming: seq<Request>, userId: int): (l: Relation)
    ensures l == FriendMark <==> IsFriend(friends, userId)
    ensures l == Pending <==> !IsFriend(friends, userId) && IsOutgoing(outgoing, userId)
    ensures l == SentYouRequest <==>
      !IsFriend(friends, userId) && !IsOutgoing(outgoing, userId) && IsIncoming(incoming, userId)
    ensures l.AddFriend? <==>
      !IsFriend(friends, userId) && !IsOutgoing(outgoing, userId) && !IsIncoming(incoming, userId)
    ensures l.AddFriend? ==> l.target == userId
  {
    if IsFriend(friends, userId) then FriendMark
    else if IsOutgoing(outgoing, userId) then Pending
    else if IsIncoming(incoming, userId) then SentYouRequest
    else AddFriend(userId)
  }

  /** Requests in both directions between two users show as "Pending", and a
      friendship hides any request. */
  lemma RelationPrecedence(friends: seq<Person>, outgoing: seq<Request>, incoming: seq<Request>, other: Person)
    ensures |incoming| > 0 && incoming[0].userId == other.id && !IsFriend(friends, other.id) ==>
      RelationOf(friends, outgoing + [Request(0, 0, other.id)], incoming, other.id) == Pending
    ensures RelationOf([other] + friends, outgoing, incoming, other.id) == FriendMark
  {
    var o := outgoing + [Request(0, 0, other.id)];
    assert o[|outgoing|].friendId == other.id;
    assert ([other] + friends)[0].id == other.id;
  }

  /** The rows of the "all" tab: every loaded user except the current one, in
      the loaded order. `None` stands for a current id that is `null` or `NaN`,
      which no id equals. */
  function AllTabRows(users: seq<Person>, currentUserId: Option<int>): (rows: seq<Person>)
    ensures forall i :: 0 <= i < |rows| ==> rows[i] in users && Some(rows[i].id) != currentUserId
    ensures forall i :: 0 <= i < |users| && Some(users[i].id) != currentUserId ==> users[i] in rows
  {
    Filter(users, (u: Person) => Some(u.id) != currentUserId)
  }

  /** The "all" tab keeps the loaded order, and without a known current id it
      lists everyone. */
  lemma {:induction false} AllTabRowsOrder(users: seq<Person>, currentUserId: Option<int>)
    ensures IsSubsequence(AllTabRows(users, currentUserId), users)
    ensures currentUserId.None? ==> AllTabRows(users, currentUserId) == users
  {
    FilterIsSubsequence(users, (u: Person) => Some(u.id) != currentUserId);
    if currentUserId.None? {
      FilterAll(users, (u: Person) => Some(u.id) != currentUserId);
    }
  }

  // ---------------------------------------------------------------- request bodies

  /** The body of an accept (`{status: "approved"}`) or a reject
      (`{status: "rejected"}`). */
  function StatusBody(approve: bool): (b: Body)
    ensures b.Keys == {"status"}
    ensures b["status"] == JStr(if approve then REQUEST_APPROVED else REQUEST_REJECTED)
  {
    map["status" := JStr(if approve then REQUEST_APPROVED else REQUEST_REJECTED)]
  }

  /** Both bodies the page sends pass the server's status schema. */
  lemma StatusBodiesAccepted(approve: bool)
    ensures StatusIssue(StatusBody(approve)).None?
  {
  }

  // ---------------------------------------------------------------- the page

  class FriendsPage {
    var activeTab: string
    var users: seq<Person>
    var incoming: seq<Request>
    var outgoing: seq<Request>
    var friends: seq<Person>
    /** The id read from storage at mount; also the id the socket listeners
        captured. */
    var currentUserId: Option<int>
    /** The requests sent to the server, oldest first. */
    var requests: seq<ApiRequest>
    /** The socket events emitted, oldest first. */
    var emitted: seq<Emit>

    /** Every event the page emits names the current user as the side it
        stands for. */
    ghost predicate Valid()
      reads this
    {
      forall k :: 0 <= k < |emitted| ==>
        match emitted[k]
        case SendFriendRequestEvent(senderId, _) => Some(senderId) == currentUserId
        case FriendRequestAcceptedEvent(_, receiverId) => Some(receiverId) == currentUserId
    }

    /** The first render and its mount effect: the stored id is read, the three
        lists are loaded and the socket listeners are registered. */
    constructor (id: Option<int>, usersAnswer: UsersAnswer, requestsAnswer: RequestsAnswer, friendsAnswer: FriendsAnswer)
      ensures Valid()
      ensures activeTab == TAB_ALL && currentUserId == id && emitted == []
      ensures requests == [ApiRequest(USERS_ENDPOINT, "GET", None), ApiRequest(REQUESTS_ENDPOINT, "GET", None),
                           ApiRequest(FRIENDS_ENDPOINT, "GET", None)]
      ensures users == UsersAfter([], usersAnswer)
      ensures (incoming, outgoing) == RequestsAfter([], [], requestsAnswer)
      ensures friends == FriendsAfter([], friendsAnswer)
    {
      activeTab := TAB_ALL;
      currentUserId := id;
      emitted := [];
      users := UsersAfter([], usersAnswer);
      incoming, outgoing := RequestsAfter([], [], requestsAnswer).0, RequestsAfter([], [], requestsAnswer).1;
      friends := FriendsAfter([], friendsAnswer);
      requests := [ApiRequest(USERS_ENDPOINT, "GET", None), ApiRequest(REQUESTS_ENDPOINT, "GET", None),
                   ApiRequest(FRIENDS_ENDPOINT, "GET", None)];
    }

    /** A tab button. */
    method SetTab(tab: string)
      modifies this
      ensures activeTab == tab
      ensures users == old(users) && incoming == old(incoming) && outgoing == old(outgoing)
      ensures friends == old(friends) && currentUserId == old(currentUserId)
      ensures requests == old(requests) && emitted == old(emitted)
    {
      activeTab := tab;
    }

    /** `loadFriendRequests`. */
    method LoadFriendRequests(answer: RequestsAnswer)
      requires Valid()
      modifies this
      ensures Valid()
      ensures requests == old(requests) + [ApiRequest(REQUESTS_ENDPOINT, "GET", None)]
      ensures (incoming, outgoing) == RequestsAfter(old(incoming), old(outgoing), answer)
      ensures activeTab == old(activeTab) && users == old(users) && friends == old(friends)
      ensures currentUserId == old(currentUserId) && emitted == old(emitted)
    {
      requests := requests + [ApiRequest(REQUESTS_ENDPOINT, "GET", None)];
      incoming, outgoing := RequestsAfter(incoming, outgoing, answer).0, RequestsAfter(incoming, outgoing, answer).1;
    }

    /** `loadFriends`. */
    method LoadFriends(answer: FriendsAnswer)
      requires Valid()
      modifies this
      ensures Valid()
      ensures requests == old(requests) + [ApiRequest(FRIENDS_ENDPOINT, "GET", None)]
      ensures friends == FriendsAfter(old(friends), answer)
      ensures activeTab == old(activeTab) && users == old(users)
      ensures incoming == old(incoming) && outgoing == old(outgoing)
      ensures currentUserId == old(currentUserId) && emitted == old(emitted)
    {
      requests := requests + [ApiRequest(FRIENDS_ENDPOINT, "GET", None)];
      friends := FriendsAfter(friends, answer);
    }

    /** The `new_friend_request` listener: only a request addressed to the
        current user reloads the request lists. */
    method OnNewFriendRequest(receiverId: int, answer: RequestsAnswer)
      requires Valid()
      modifies this
      ensures Valid()
      ensures Some(receiverId) != currentUserId ==>
        requests == old(requests) && incoming == old(incoming) && outgoing == old(outgoing)
      ensures Some(receiverId) == currentUserId ==>
        && requests == old(requests) + [ApiRequest(REQUESTS_ENDPOINT, "GET", None)]
        && (incoming, outgoing) == RequestsAfter(old(incoming), old(outgoing), answer)
      ensures activeTab == old(activeTab) && users == old(users) && friends == old(friends)
      ensures currentUserId == old(currentUserId) && emitted == old(emitted)
    {
      if Some(receiverId) == currentUserId {
        LoadFriendRequests(answer);
      }
    }

    /** The `friend_request_accepted` listener: only an acceptance addressed to
        the current user reloads the requests and the friends. */
    method OnFriendRequestAccepted(receiverId: int, requestsAnswer: RequestsAnswer, friendsAnswer: FriendsAnswer)
      requires Valid()
      modifies this
      ensures Valid()
      ensures Some(receiverId) != currentUserId ==>
        && requests == old(requests) && incoming == old(incoming) && outgoing == old(outgoing)
        && friends == old(friends)
      ensures Some(receiverId) == currentUserId ==>
        && requests == old(requests) + [ApiRequest(REQUESTS_ENDPOINT, "GET", None), ApiRequest(FRIENDS_ENDPOINT, "GET", None)]
        && (incoming, outgoing) == RequestsAfter(old(incoming), old(outgoing), requestsAnswer)
        && friends == FriendsAfter(old(friends), friendsAnswer)
      ensures activeTab == old(activeTab) && users == old(users)
      ensures currentUserId == old(currentUserId) && emitted == old(emitted)
    {
      if Some(receiverId) == currentUserId {
        LoadFriendRequests(requestsAnswer);
        LoadFriends(friendsAnswer);
      }
    }

    /** `sendFriendRequest`: the POST is always made; only a successful one with
        a truthy current id is announced on the socket and followed by a reload
        of the requests. */
    method SendFriendRequest(userId: int, success: bool, reload: RequestsAnswer)
      requires Valid()
      modifies this
      ensures Valid()
      ensures var post := ApiRequest(MAKE_REQUEST_ENDPOINT + IntToString(userId), "POST", None);
        if success && TruthyNum(currentUserId) then
          && emitted == old(emitted) + [SendFriendRequestEvent(currentUserId.value, userId)]
          && requests == old(requests) + [post, ApiRequest(REQUESTS_ENDPOINT, "GET", None)]
          && (incoming, outgoing) == RequestsAfter(old(incoming), old(outgoing), reload)
        else
          && emitted == old(emitted) && requests == old(requests) + [post]
          && incoming == old(incoming) && outgoing == old(outgoing)
      ensures activeTab == old(activeTab) && users == old(users) && friends == old(friends)
      ensures currentUserId == old(currentUserId)
    {
      requests := requests + [ApiRequest(MAKE_REQUEST_ENDPOINT + IntToString(userId), "POST", None)];
      if success && TruthyNum(currentUserId) {
        emitted := emitted + [SendFriendRequestEvent(currentUserId.value, userId)];
        LoadFriendRequests(reload);
      }
    }

    /** `acceptRequest`: PUT `{status: "approved"}`; a successful one with a
        truthy current id is announced to the requester and reloads the
        requests and the friends. */
    method AcceptRequest(reqId: int, senderId: int, success: bool,
                         requestsAnswer: RequestsAnswer, friendsAnswer: FriendsAnswer)
      requires Valid()
      modifies this
      ensures Valid()
      ensures var put := ApiRequest(FRIENDS_PREFIX + IntToString(reqId), "PUT", Some(StatusBody(true)));
        if success && TruthyNum(currentUserId) then
          && emitted == old(emitted) + [FriendRequestAcceptedEvent(senderId, currentUserId.value)]
          && requests == old(requests) + [put, ApiRequest(REQUESTS_ENDPOINT, "GET", None), ApiRequest(FRIENDS_ENDPOINT, "GET", None)]
          && (incoming, outgoing) == RequestsAfter(old(incoming), old(outgoing), requestsAnswer)
          && friends == FriendsAfter(old(friends), friendsAnswer)
        else
          && emitted == old(emitted) && requests == old(requests) + [put]
          && incoming == old(incoming) && outgoing == old(outgoing) && friends == old(friends)
      ensures activeTab == old(activeTab) && users == old(users)
      ensures currentUserId == old(currentUserId)
    {
      requests := requests + [ApiRequest(FRIENDS_PREFIX + IntToString(reqId), "PUT", Some(StatusBody(true)))];
      if success && TruthyNum(currentUserId) {
        emitted := emitted + [FriendRequestAcceptedEvent(senderId, currentUserId.value)];
        LoadFriendRequests(requestsAnswer);
        LoadFriends(friendsAnswer);
      }
    }

    /** `rejectRequest`: PUT `{status: "rejected"}`, then reload the requests
        whatever the answer; nothing is emitted. */
    method RejectRequest(reqId: int, reload: RequestsAnswer)
      requires Valid()
      modifies this
      ensures Valid()
      ensures requests == old(requests) + [ApiRequest(FRIENDS_PREFIX + IntToString(reqId), "PUT", Some(StatusBody(false))),
                                           ApiRequest(REQUESTS_ENDPOINT, "GET", None)]
      ensures (incoming, outgoing) == RequestsAfter(old(incoming), old(outgoing), reload)
      ensures emitted == old(emitted) && activeTab == old(activeTab) && users == old(users)
      ensures friends == old(friends) && currentUserId == old(currentUserId)
    {
      requests := requests + [ApiRequest(FRIENDS_PREFIX + IntToString(reqId), "PUT", Some(StatusBody(false)))];
      LoadFriendRequests(reload);
    }
  }

  // ---------------------------------------------------------------- loaders

  /** `loadUsers`: a successful answer replaces the list (`users || []`). */
  function UsersAfter(users: seq<Person>, answer: UsersAnswer): (r: seq<Person>)
    ensures !answer.success ==> r == users
    ensures answer.success && answer.users.None? ==> r == []
    ensures answer.success && answer.users.Some? ==> r == answer.users.value
  {
    if !answer.success then users
    else match answer.users
      case None => []
      case Some(list) => list
  }

  /** A user row of `/users/all_users` as the page lists it. */
  function PersonOf(u: UserRow): Person {
    Person(u.id, u.name)
  }

  /** The users answer as the page reads the reply of `/users/all_users`:
      `res.success`, and `res.data.users`. The server's `data` is the page
      object `{total, page, perPage, data}`, which has no `users` key. */
  function UsersAnswerOf(r: Http.Reply<UserController.UserPage>): UsersAnswer {
    UsersAnswer(r.Ok?, None)
  }

  /** As written: the page asks for the list with no query, the server
      answers with the ten most recent users, and the page's list is empty
      all the same. */
  lemma AllUsersTabEmptyAsWritten(previous: seq<Person>, users: seq<UserRow>)
    ensures var r := UserController.GetAllUsers(users, None, None);
      && r.Ok?
      && |r.data.data| == (if |users| <= 10 then |users| else 10)
      && UsersAfter(previous, UsersAnswerOf(r)) == []
  {
    var r := UserController.GetAllUsers(users, None, None);
    assert Http.QueryNumber(None, 1) == 1 && Http.QueryNumber(None, 10) == 10;
  }

  /** `loadUsers` as evidently intended: the list is read from the page
      object's `data`, each row shown as a person; a failed load keeps the
      list. */
  function UsersAfterPaged(users: seq<Person>, r: Http.Reply<UserController.UserPage>): (l: seq<Person>)
    ensures !r.Ok? ==> l == users
    ensures r.Ok? ==> |l| == |r.data.data| && forall k :: 0 <= k < |l| ==> l[k] == PersonOf(r.data.data[k])
  {
    if !r.Ok? then users
    else seq(|r.data.data|, k requires 0 <= k < |r.data.data| => PersonOf(r.data.data[k]))
  }

  /** Corrected: the load lists the ten most recent users, the most recent
      first, and so every user when there are at most ten. */
  lemma PagedLoadListsNewest(previous: seq<Person>, users: seq<UserRow>)
    requires forall i :: 0 <= i < |users| ==> users[i].id == i + 1
    ensures var l := UsersAfterPaged(previous, UserController.GetAllUsers(users, None, None));
      && |l| == (if |users| <= 10 then |users| else 10)
      && (forall k :: 0 <= k < |l| ==> l[k] == PersonOf(users[|users| - 1 - k]))
      && (|users| <= 10 ==> forall u :: u in users ==> PersonOf(u) in l)
  {
    var r := UserController.GetAllUsers(users, None, None);
    var l := UsersAfterPaged(previous, r);
    assert Http.QueryNumber(None, 1) == 1 && Http.QueryNumber(None, 10) == 10;
    UserController.UserPageNewestFirst(users, None, None);
    if |users| <= 10 {
      forall u | u in users
        ensures PersonOf(u) in l
      {
        var j :| 0 <= j < |users| && users[j] == u;
        assert l[|users| - 1 - j] == PersonOf(u);
      }
    }
  }

  /** `loadFriendRequests`: a successful answer replaces both lists, each
      missing one by the empty list. */
  function RequestsAfter(incoming: seq<Request>, outgoing: seq<Request>, answer: RequestsAnswer): (r: (seq<Request>, seq<Request>))
    ensures !answer.success ==> r == (incoming, outgoing)
    ensures answer.success ==> r.0 == (if answer.madeToUser.Some? then answer.madeToUser.value else [])
    ensures answer.success ==> r.1 == (if answer.madeByUser.Some? then answer.madeByUser.value else [])
  {
    if !answer.success then (incoming, outgoing)
    else ((if answer.madeToUser.Some? then answer.madeToUser.value else []),
          (if answer.madeByUser.Some? then answer.madeByUser.value else []))
  }

  /** `loadFriends`: a successful answer replaces the list by the friend of
      every friendship, in order. */
  function FriendsAfter(friends: seq<Person>, answer: FriendsAnswer): (r: seq<Person>)
    ensures !answer.success ==> r == friends
    ensures answer.success && answer.data.None? ==> r == []
    ensures answer.success && answer.data.Some? ==>
      |r| == |answer.data.value| && forall k :: 0 <= k < |r| ==> r[k] == answer.data.value[k].friend
  {
    if !answer.success then friends
    else match answer.data
      case None => []
      case Some(list) => seq(|list|, k requires 0 <= k < |list| => list[k].friend)
  }

  /** After a successful friends reload, a user is a friend exactly when some
      friendship of the answer names them. */
  lemma FriendsReloadDecidesFriendship(friends: seq<Person>, list: seq<Friendship>, userId: int)
    ensures IsFriend(FriendsAfter(friends, FriendsAnswer(true, Some(list))), userId) <==>
      exists k :: 0 <= k < |list| && list[k].friend.id == userId
  {
    var r := FriendsAfter(friends, FriendsAnswer(true, Some(list)));
    if exists k :: 0 <= k < |list| && list[k].friend.id == userId {
      var k :| 0 <= k < |list| && list[k].friend.id == userId;
      assert r[k].id == userId;
    }
  }

  // ---------------------------------------------------------------- scenarios

  /** Two pages for users 1 and 2, each loaded with a users answer that
      carries `users` (the server's answer never does, as
      `AllUsersTabEmptyAsWritten` shows): user 1 requests user 2; the event
      reaches user 2's listener, which reloads, and user 2 then sees user 1 as
      "Sent you a request" while user 1 sees user 2 as "Pending". */
  method ScenarioRequestRoundTrip() returns (seenBySender: Relation, seenByReceiver: Relation)
    ensures seenBySender == Pending
    ensures seenByReceiver == SentYouRequest
  {
    var alice := Person(1, Some("Alice"));
    var bob := Person(2, Some("Bob"));
    var sender := new FriendsPage(Some(1), UsersAnswer(true, Some([alice, bob])), RequestsAnswer(true, None, None), FriendsAnswer(true, Some([])));
    var receiver := new FriendsPage(Some(2), UsersAnswer(true, Some([alice, bob])), RequestsAnswer(true, None, None), FriendsAnswer(true, Some([])));
    var req := Request(7, 1, 2);
    sender.SendFriendRequest(2, true, RequestsAnswer(true, Some([]), Some([req])));
    assert sender.emitted == [SendFriendRequestEvent(1, 2)];
    receiver.OnNewFriendRequest(2, RequestsAnswer(true, Some([req]), Some([])));
    assert sender.outgoing[0].friendId == 2;
    assert receiver.incoming[0].userId == 1;
    seenBySender := RelationOf(sender.friends, sender.outgoing, sender.incoming, 2);
    seenByReceiver := RelationOf(receiver.friends, receiver.outgoing, receiver.incoming, 1);
  }
}
