/** The links between users and thoughts that no single document holds, and
    which handlers keep them, which break them and how. */
module Integrity {
  import opened Documents
  import UserHandlers
  import ThoughtHandlers

  /** Every thought's owner exists and lists the thought. */
  ghost predicate EveryThoughtLinked(s: State)
  {
    forall t :: t in s.thoughts ==>
      s.thoughts[t].userId in s.users && t in s.users[s.thoughts[t].userId].thoughts
  }

  /** Every id a user lists as its thought names a stored thought. */
  ghost predicate ListedThoughtsExist(s: State)
  {
    forall u, t :: u in s.users && t in s.users[u].thoughts ==> t in s.thoughts
  }

  /** Every stored thought a user lists names that user as its owner. */
  ghost predicate ListedThoughtsPointBack(s: State)
  {
    forall u, t :: u in s.users && t in s.users[u].thoughts && t in s.thoughts ==> s.thoughts[t].userId == u
  }

  /** No user lists `t`. */
  ghost predicate Unreferenced(s: State, t: Id)
  {
    forall u :: u in s.users ==> t !in s.users[u].thoughts
  }

  /** `createUser` stores the lists of thoughts and friends the body names
      without looking them up, so a new user can list a thought that does not
      exist. */
  lemma CreateUserListsUnchecked(s: State, newId: Id, input: UserInput, t: Id)
    requires newId !in s.users && t in input.thoughts && t !in s.thoughts
    ensures var o := UserHandlers.CreateUser(s, newId, input, true);
      && o.response.status == 200
      && t in o.state.users[newId].thoughts
      && !ListedThoughtsExist(o.state)
  {
  }

  /** With its owner missing, `createThought` replies 404 but has stored the
      thought all the same: an orphan, and no compensation removes it. */
  lemma CreateThoughtOrphan(s: State, newId: Id, input: ThoughtInput)
    requires newId !in s.thoughts && input.userId !in s.users
    ensures var o := ThoughtHandlers.CreateThought(s, newId, input, true);
      && o.response == Response(404, Message(UserNotFound))
      && newId in o.state.thoughts && o.state.thoughts[newId].userId !in o.state.users
      && !EveryThoughtLinked(o.state)
  {
  }

  /** A successful `createThought` keeps every thought linked to its owner. */
  lemma CreateThoughtKeepsLinked(s: State, newId: Id, input: ThoughtInput)
    requires EveryThoughtLinked(s)
    requires newId !in s.thoughts && input.userId in s.users
    ensures EveryThoughtLinked(ThoughtHandlers.CreateThought(s, newId, input, true).state)
  {
  }

  /** A successful `createThought` with a fresh id keeps the back links of
      every listed thought, and those of the new one. */
  lemma CreateThoughtKeepsPointBack(s: State, newId: Id, input: ThoughtInput)
    requires ListedThoughtsPointBack(s) && Unreferenced(s, newId)
    requires newId !in s.thoughts && input.userId in s.users
    ensures ListedThoughtsPointBack(ThoughtHandlers.CreateThought(s, newId, input, true).state)
  {
  }

  /** The cascade keeps every surviving thought linked: a thought owned by the
      deleted user is listed by it, so it is deleted with it. */
  lemma DeleteUserKeepsLinked(s: State, userId: Id)
    requires EveryThoughtLinked(s)
    ensures EveryThoughtLinked(UserHandlers.DeleteUserById(s, userId).state)
  {
  }

  /** Without that link, the cascade misses a thought that names the deleted
      user as its owner but is not in its list, and leaves it ownerless. */
  lemma DeleteUserMissesUnlistedThought(s: State, userId: Id, t: Id)
    requires userId in s.users && t in s.thoughts
    requires s.thoughts[t].userId == userId && t !in s.users[userId].thoughts
    ensures var o := UserHandlers.DeleteUserById(s, userId);
      t in o.state.thoughts && o.state.thoughts[t].userId !in o.state.users
  {
  }

  /** Other users' friend lists keep the deleted user's id: it dangles. */
  lemma DeleteUserLeavesFriendReference(s: State, userId: Id, v: Id)
    requires userId in s.users && v in s.users && v != userId && userId in s.users[v].friends
    ensures var o := UserHandlers.DeleteUserById(s, userId);
      v in o.state.users && userId in o.state.users[v].friends && userId !in o.state.users
  {
  }

  /** Deleting a thought leaves its id in its owner's list, naming nothing. */
  lemma DeleteThoughtLeavesLink(s: State, thoughtId: Id)
    requires thoughtId in s.thoughts
    requires s.thoughts[thoughtId].userId in s.users
    requires thoughtId in s.users[s.thoughts[thoughtId].userId].thoughts
    ensures var o := ThoughtHandlers.DeleteThought(s, thoughtId);
      var owner := s.thoughts[thoughtId].userId;
      && thoughtId in o.state.users[owner].thoughts
      && thoughtId !in o.state.thoughts
      && !ListedThoughtsExist(o.state)
  {
  }

  /** Alice writes "hi", Bob reacts, Alice is deleted: neither Alice nor her
      thought can be found any more. */
  lemma CascadeScenario()
    ensures
      var s0 := State(map[], map[]);
      var s1 := UserHandlers.CreateUser(s0, "alice", UserInput("alice", "alice@example.com", [], []), true).state;
      var s2 := ThoughtHandlers.CreateThought(s1, "t1", ThoughtInput("hi", "alice", []), true).state;
      var s3 := ThoughtHandlers.CreateReaction(s2, "t1", Reaction("r1", "nice", "bob"), true).state;
      var o := UserHandlers.DeleteUserById(s3, "alice");
      && o.response.status == 200
      && UserHandlers.GetUserById(o.state, "alice").status == 404
      && ThoughtHandlers.GetThoughtsById(o.state, "t1").status == 404
  {
  }
}
