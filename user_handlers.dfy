/** What each handler of controllers/user-controller.js does, as a function
    from the store before the request to the store after it and the reply.
    The step-by-step handlers in UserController are proved equal to these. */
module UserHandlers {
  import opened Documents
  import opened UpdateOperators

  /** GET /users: every stored user. */
  function GetAllUsers(s: State): (r: Response)
    ensures r.status == 200 && r.body.UserList? && r.body.users == s.users
  {
    Response(200, UserList(s.users))
  }

  /** GET /users/:userId. */
  function GetUserById(s: State, userId: Id): (r: Response)
    ensures userId !in s.users ==> r == Response(404, Message(UserNotFound))
    ensures userId in s.users ==> r == Response(200, UserDoc(userId, s.users[userId]))
  {
    if userId !in s.users then Response(404, Message(UserNotFound))
    else Response(200, UserDoc(userId, s.users[userId]))
  }

  /** The user `User.create` stores for a request body: every field the body
      names, the lists included, none of them checked. */
  function NewUser(input: UserInput): User
  {
    User(input.username, input.email, input.thoughts, input.friends)
  }

  /** POST /users. `newId` is the id Mongoose generates and `accepted` the
      verdict of the user schema's validators; a refused payload or an id
      already taken makes `User.create` throw, and the catch branch replies 500. */
  function CreateUser(s: State, newId: Id, input: UserInput, accepted: bool): (o: Outcome)
    ensures o.state.thoughts == s.thoughts
    ensures o.response.status == 200 <==> accepted && newId !in s.users
    ensures o.response.status != 200 ==> o == Outcome(s, Response(500, ErrorObject))
    ensures o.response.status == 200 ==>
      && o.state.users.Keys == s.users.Keys + {newId}
      && o.state.users[newId] == User(input.username, input.email, input.thoughts, input.friends)
      && (forall v :: v in s.users ==> o.state.users[v] == s.users[v])
      && o.response.body == UserDoc(newId, o.state.users[newId])
  {
    if !accepted || newId in s.users then Outcome(s, Response(500, ErrorObject))
    else
      var user := NewUser(input);
      Outcome(s.(users := s.users[newId := user]), Response(200, UserDoc(newId, user)))
  }

  /** PUT /users/:userId: overwrite the fields the body names. */
  function UpdateUserById(s: State, userId: Id, patch: UserPatch): (o: Outcome)
    ensures o.state.thoughts == s.thoughts && o.state.users.Keys == s.users.Keys
    ensures forall v :: v in s.users && v != userId ==> o.state.users[v] == s.users[v]
    ensures userId !in s.users ==> o == Outcome(s, Response(404, Message(UserNotFound)))
    ensures userId in s.users ==>
      var (u, u') := (s.users[userId], o.state.users[userId]);
      && u'.username == Or(patch.username, u.username)
      && u'.email == Or(patch.email, u.email)
      && u'.thoughts == u.thoughts && u'.friends == u.friends
      && o.response == Response(200, UserDoc(userId, u'))
  {
    if userId !in s.users then Outcome(s, Response(404, Message(UserNotFound)))
    else
      var u := s.users[userId];
      var u' := u.(username := Or(patch.username, u.username), email := Or(patch.email, u.email));
      Outcome(s.(users := s.users[userId := u']), Response(200, UserDoc(userId, u')))
  }

  /** The ids a user lists as its thoughts. */
  function Listed(u: User): (ids: set<Id>)
    ensures forall t :: t in ids <==> t in u.thoughts
  {
    set t | t in u.thoughts
  }

  /** The thoughts collection once the reactions of the thoughts in `ids`
      have been emptied and saved, the first step of the cascade. */
  function ClearReactions(ts: map<Id, Thought>, ids: set<Id>): (r: map<Id, Thought>)
    ensures r.Keys == ts.Keys
    ensures forall t :: t in ts ==>
      && r[t].thoughtText == ts[t].thoughtText && r[t].userId == ts[t].userId
      && r[t].reactions == if t in ids then [] else ts[t].reactions
  {
    map t | t in ts :: if t in ids then ts[t].(reactions := []) else ts[t]
  }

  /** DELETE /users/:userId: the user, and every thought it lists that exists,
      are gone; nothing else changes. */
  function DeleteUserById(s: State, userId: Id): (o: Outcome)
    ensures userId !in s.users ==> o == Outcome(s, Response(404, Message(UserNotFound)))
    ensures userId in s.users ==>
      && o.response == Response(200, Message(UserDeletedMessage))
      && o.state.users.Keys == s.users.Keys - {userId}
      && (forall v :: v in o.state.users ==> o.state.users[v] == s.users[v])
      && o.state.thoughts.Keys <= s.thoughts.Keys
      && (forall t :: t in s.users[userId].thoughts ==> t !in o.state.thoughts)
      && (forall t :: t in s.thoughts && t !in s.users[userId].thoughts ==>
            t in o.state.thoughts && o.state.thoughts[t] == s.thoughts[t])
  {
    if userId !in s.users then Outcome(s, Response(404, Message(UserNotFound)))
    else
      Outcome(State(s.users - {userId}, s.thoughts - Listed(s.users[userId])),
              Response(200, Message(UserDeletedMessage)))
  }

  /** The friend `addFriend` adds: `req.body.friendId || req.params.friendId`,
      so an absent or empty body id falls back to the path id. */
  function FriendToAdd(bodyFriendId: Option<Id>, pathFriendId: Id): Id
  {
    if bodyFriendId.Some? && bodyFriendId.value != "" then bodyFriendId.value else pathFriendId
  }

  /** POST /users/:userId/friends/:friendId. The friend is not looked up:
      any id is added, whether or not a user has it. */
  function AddFriend(s: State, userId: Id, bodyFriendId: Option<Id>, pathFriendId: Id): (o: Outcome)
    ensures o.state.thoughts == s.thoughts && o.state.users.Keys == s.users.Keys
    ensures forall v :: v in s.users && v != userId ==> o.state.users[v] == s.users[v]
    ensures userId !in s.users ==> o == Outcome(s, Response(404, Message(UserNotFound)))
    ensures userId in s.users ==>
      var (u, u') := (s.users[userId], o.state.users[userId]);
      && FriendToAdd(bodyFriendId, pathFriendId) in u'.friends
      && u'.friends == AddToSet(u.friends, FriendToAdd(bodyFriendId, pathFriendId))
      && u'.username == u.username && u'.email == u.email && u'.thoughts == u.thoughts
      && o.response == Response(200, UserDoc(userId, u'))
  {
    if userId !in s.users then Outcome(s, Response(404, Message(UserNotFound)))
    else
      var u := s.users[userId];
      var u' := u.(friends := AddToSet(u.friends, FriendToAdd(bodyFriendId, pathFriendId)));
      Outcome(s.(users := s.users[userId := u']), Response(200, UserDoc(userId, u')))
  }

  /** Adding a friend twice leaves the store, and the reply, as adding it once. */
  lemma AddFriendIdempotent(s: State, userId: Id, bodyFriendId: Option<Id>, pathFriendId: Id)
    ensures var once := AddFriend(s, userId, bodyFriendId, pathFriendId);
      AddFriend(once.state, userId, bodyFriendId, pathFriendId) == once
  {
  }

  /** DELETE /users/:userId/friends/:friendId. The `removed` flag is computed
      after the pull, so it is always true and the "removed" reply is always sent. */
  function RemoveFriend(s: State, userId: Id, friendId: Id): (o: Outcome)
    ensures o.state.thoughts == s.thoughts && o.state.users.Keys == s.users.Keys
    ensures forall v :: v in s.users && v != userId ==> o.state.users[v] == s.users[v]
    ensures userId !in s.users ==> o == Outcome(s, Response(404, Message(NoUserWithId)))
    ensures userId in s.users ==>
      var (u, u') := (s.users[userId], o.state.users[userId]);
      && friendId !in u'.friends
      && u'.friends == Pull(u.friends, friendId)
      && u'.username == u.username && u'.email == u.email && u'.thoughts == u.thoughts
      && o.response == Response(200, FriendRemoved(FriendRemovedMessage, userId, u'))
  {
    if userId !in s.users then Outcome(s, Response(404, Message(NoUserWithId)))
    else
      var u := s.users[userId];
      var u' := u.(friends := Pull(u.friends, friendId));
      var removed := friendId !in u'.friends;
      var s' := s.(users := s.users[userId := u']);
      if removed then Outcome(s', Response(200, FriendRemoved(FriendRemovedMessage, userId, u')))
      else Outcome(s', Response(200, UserDoc(userId, u')))
  }

  /** Removing an id that is not a friend changes nothing, yet the reply still
      says "Friend removed successfully!": the caller cannot tell the two cases apart. */
  lemma RemoveFriendNotAFriend(s: State, userId: Id, friendId: Id)
    requires userId in s.users && friendId !in s.users[userId].friends
    ensures RemoveFriend(s, userId, friendId)
         == Outcome(s, Response(200, FriendRemoved(FriendRemovedMessage, userId, s.users[userId])))
  {
    var u := s.users[userId];
    PullAbsent(u.friends, friendId);
    assert u.(friends := Pull(u.friends, friendId)) == u;
    assert s.users[userId := u] == s.users;
  }

  /** Removing a friend twice is removing it once. */
  lemma RemoveFriendIdempotent(s: State, userId: Id, friendId: Id)
    ensures var once := RemoveFriend(s, userId, friendId);
      RemoveFriend(once.state, userId, friendId) == once
  {
    if userId in s.users {
      var once := RemoveFriend(s, userId, friendId);
      RemoveFriendNotAFriend(once.state, userId, friendId);
    }
  }

  /** Deleting a user a second time finds nothing: 404, and the store stays as
      the first deletion left it. */
  lemma DeleteUserTwice(s: State, userId: Id)
    requires userId in s.users
    ensures var once := DeleteUserById(s, userId);
      DeleteUserById(once.state, userId) == Outcome(once.state, Response(404, Message(UserNotFound)))
  {
  }
}
