/** The documents of the social-network store, the two collections that hold
    them, and the replies the HTTP handlers send back. */
module Documents {

  /** A document id: a MongoDB ObjectId in its string form. */
  type Id = string

  datatype Option<T> = None | Some(value: T)

  /** `p` when the request supplied it, the current value otherwise. */
  function Or<T>(p: Option<T>, current: T): T
  {
    if p.Some? then p.value else current
  }

  /** A reaction, embedded in the thought it reacts to. */
  datatype Reaction = Reaction(reactionId: Id, reactionBody: string, username: string)

  /** A thought: its text, the id of the user who owns it, and its reactions. */
  datatype Thought = Thought(thoughtText: string, userId: Id, reactions: seq<Reaction>)

  /** A user: the ids of the thoughts it owns and of its friends (neither list is validated). */
  datatype User = User(username: string, email: string, thoughts: seq<Id>, friends: seq<Id>)

  /** The request body of `createUser`. `User.create` stores every schema
      field the body names, so a body may carry its own lists of thoughts and
      friends; a list the body leaves out is `[]`, the schema's default. */
  datatype UserInput = UserInput(username: string, email: string, thoughts: seq<Id>, friends: seq<Id>)

  /** The request body of `createThought`; `reactions` is `[]` when the body
      names none. */
  datatype ThoughtInput = ThoughtInput(thoughtText: string, userId: Id, reactions: seq<Reaction>)

  /** The request bodies of the two update handlers: each field present is overwritten. */
  datatype UserPatch = UserPatch(username: Option<string>, email: Option<string>)
  datatype ThoughtPatch = ThoughtPatch(thoughtText: Option<string>, userId: Option<Id>)

  /** The `users` and `thoughts` collections, keyed by `_id`. */
  datatype State = State(users: map<Id, User>, thoughts: map<Id, Thought>)

  /** The JSON body of a reply. */
  datatype Body =
    | Message(text: string)                                          // { message }
    | UserDoc(userId: Id, user: User)
    | ThoughtDoc(thoughtId: Id, thought: Thought)
    | UserList(users: map<Id, User>)
    | ThoughtList(thoughts: map<Id, Thought>)
    | FriendRemoved(message: string, userId: Id, user: User)         // { message, dbUserData }
    | ThoughtAdded(message: string, thoughtId: Id, thought: Thought) // { message, thought }
    | Null                                                           // json(null)
    | ErrorObject                                                    // json(err) in a catch branch

  /** An HTTP status code and a body. */
  datatype Response = Response(status: int, body: Body)

  /** What a handler leaves behind: the new store and the reply it sent. */
  datatype Outcome = Outcome(state: State, response: Response)

  const UserNotFound := "User not found"
  const NoUserWithId := "No user with this id!"
  const FriendRemovedMessage := "Friend removed successfully!"
  const UserDeletedMessage := "User and associated thoughts & reactions deleted successfully"
  const ThoughtNotFound := "Thought not found"
  const ThoughtAddedMessage := "Thought added successfully"
}
