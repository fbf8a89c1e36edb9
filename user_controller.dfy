/** The state-changing handlers of controllers/user-controller.js, one store
    step at a time, each proved to do what UserHandlers says. The read-only
    handlers are the functions UserHandlers.GetAllUsers and GetUserById. */
module UserController {
  import opened Documents
  import opened UpdateOperators
  import opened Store
  import UserHandlers

  method CreateUser(db: Database, newId: Id, input: UserInput, accepted: bool) returns (res: Response)
    modifies db
    ensures Outcome(db.Snapshot(), res) == UserHandlers.CreateUser(old(db.Snapshot()), newId, input, accepted)
  {
    // validate, then insert the user
    if !accepted || newId in db.users {
      return Response(500, ErrorObject);
    }
    var user := UserHandlers.NewUser(input);
    db.users := db.users[newId := user];
    res := Response(200, UserDoc(newId, user));
  }

  method UpdateUserById(db: Database, userId: Id, patch: UserPatch) returns (res: Response)
    modifies db
    ensures Outcome(db.Snapshot(), res) == UserHandlers.UpdateUserById(old(db.Snapshot()), userId, patch)
  {
    // overwrite the named fields of the user
    if userId !in db.users {
      return Response(404, Message(UserNotFound));
    }
    var u := db.users[userId];
    var updated := u.(username := Or(patch.username, u.username), email := Or(patch.email, u.email));
    db.users := db.users[userId := updated];
    res := Response(200, UserDoc(userId, updated));
  }

  /** The cascade: find the user, find the thoughts it lists, empty and save
      each one's reactions, delete those thoughts, then delete the user. */
  method DeleteUserById(db: Database, userId: Id) returns (res: Response)
    modifies db
    ensures Outcome(db.Snapshot(), res) == UserHandlers.DeleteUserById(old(db.Snapshot()), userId)
  {
    // find the user
    if userId !in db.users {
      return Response(404, Message(UserNotFound));
    }
    var user := db.users[userId];
    // keep the listed ids that name a stored thought
    var found := set t | t in user.thoughts && t in db.thoughts;
    // empty and save each found thought's reactions
    var pending := found;
    while pending != {}
      invariant pending <= found <= db.thoughts.Keys
      invariant db.users == old(db.users)
      invariant db.thoughts == UserHandlers.ClearReactions(old(db.thoughts), found - pending)
      decreases pending
    {
      var t :| t in pending;
      db.thoughts := db.thoughts[t := db.thoughts[t].(reactions := [])];
      pending := pending - {t};
    }
    // delete the found thoughts
    db.thoughts := db.thoughts - found;
    // delete the user
    db.users := db.users - {userId};
    res := Response(200, Message(UserDeletedMessage));
    assert db.thoughts == old(db.thoughts) - UserHandlers.Listed(user);
  }

  method AddFriend(db: Database, userId: Id, bodyFriendId: Option<Id>, pathFriendId: Id) returns (res: Response)
    modifies db
    ensures Outcome(db.Snapshot(), res) == UserHandlers.AddFriend(old(db.Snapshot()), userId, bodyFriendId, pathFriendId)
  {
    var friendId := UserHandlers.FriendToAdd(bodyFriendId, pathFriendId);
    // add the friend to the user's friend set
    if userId !in db.users {
      return Response(404, Message(UserNotFound));
    }
    var u := db.users[userId];
    var updated := u.(friends := AddToSet(u.friends, friendId));
    db.users := db.users[userId := updated];
    res := Response(200, UserDoc(userId, updated));
  }

  method RemoveFriend(db: Database, userId: Id, friendId: Id) returns (res: Response)
    modifies db
    ensures Outcome(db.Snapshot(), res) == UserHandlers.RemoveFriend(old(db.Snapshot()), userId, friendId)
  {
    // pull the friend from the user's friend list
    if userId !in db.users {
      return Response(404, Message(NoUserWithId));
    }
    var u := db.users[userId];
    var updated := u.(friends := Pull(u.friends, friendId));
    db.users := db.users[userId := updated];
    var removed := friendId !in updated.friends;
    if removed {
      res := Response(200, FriendRemoved(FriendRemovedMessage, userId, updated));
    } else {
      res := Response(200, UserDoc(userId, updated));
    }
  }
}
