# Social network API: users, thoughts, reactions and friends

A model of the two Express controllers of a small social-network API,
`controllers/user-controller.js` and `controllers/thought-controller.js`, and of
the MongoDB store beneath them. The store is two collections, `users` and
`thoughts`, keyed by document id. A user lists the ids of its thoughts and of
its friends. A thought names its owner (`userId`) and embeds its reactions.
Every handler answers with an HTTP status and a JSON body.

Each handler is a short sequence of store steps. The MongoDB update operators
they use are functions on the array they rewrite (`UpdateOperators`):

- `$addToSet` appends an element unless an equal one is present.
- `$pull` removes every matching element and keeps the others in order.
- `$push` appends.
- `$in` keeps the ids that name a stored document.

What each handler does is given twice:

- `UserHandlers` and `ThoughtHandlers` give it as a function from the store
  before the request to the store after it and the reply (an `Outcome`).
- `UserController` and `ThoughtController` hold module-level methods that
  take the store, a `Store.Database` object, as a parameter and update it in
  place. They take the same store steps in the source's order and are proved
  to end in that `Outcome`.

The read-only handlers (`getAllUsers`, `getUserById`, `getAllThoughts`,
`getThoughtsById`) are pure lookups. They exist only as functions.
`Integrity` states which handlers keep the user–thought links and which break
them.

The id Mongoose generates for a new document is a parameter (`newId`). So is
the verdict of the schema validators (`accepted`), since the schemas are not
part of this model. When `create` is given a refused payload or an id already
in use, it throws. The handler's catch branch then replies 500 and the store
is unchanged.

Where the code departs from what its replies, messages and names suggest, the
model follows the code:

- `createThought` stores the thought before it looks up the owner. When the
  owner is missing it replies 404, as if nothing had been created, yet the
  thought stays, owned by nobody (`Integrity.CreateThoughtOrphan`).
- `removeFriend` computes `removed` after the pull, so the flag is always true.
  It replies "Friend removed successfully!" even when the id was never a friend
  (`UserHandlers.RemoveFriend`, `UserHandlers.RemoveFriendNotAFriend`).
- `deleteThought` replies 200 with `null` for an unknown id, never 404. It
  never removes the id from the owner's list of thoughts
  (`ThoughtHandlers.DeleteThought`, `Integrity.DeleteThoughtLeavesLink`).
- For a missing thought, `createReaction` and `deleteReaction` try to build a
  404 reply that reads the undeclared `notFound`. The ReferenceError lands in
  the catch branch, so they reply 500 (`ThoughtHandlers.CreateReaction`,
  `ThoughtHandlers.DeleteReaction`).
- `createReaction` de-duplicates whole reactions, not reaction ids. A second
  reaction that reuses an id with another body is appended, so a later
  `deleteReaction` of that id removes both
  (`ThoughtHandlers.CreateReactionReusedId`).
- A payload the validators refuse gets the same 500 as a store failure.
- `createUser` stores whatever lists of thoughts and friends the body carries,
  without looking them up, so a new user can list thoughts that do not exist
  (`Integrity.CreateUserListsUnchecked`).
- The user cascade deletes the thoughts the user lists, not the thoughts that
  name the user as owner (`Integrity.DeleteUserMissesUnlistedThought`). It
  leaves the deleted id in other users' friend lists
  (`Integrity.DeleteUserLeavesFriendReference`).

## Model

| member | source | states |
|---|---|---|
| `UpdateOperators.AddToSet` | controllers/user-controller.js:85 | `$addToSet`: the element is present afterwards, nothing else is added, the old array is a prefix of the new one; an element already present leaves the array unchanged, an absent one is appended at the end |
| `UpdateOperators.AddToSetIdempotent` | controllers/user-controller.js:83-87 | adding the same element twice gives the array that adding it once gives |
| `UpdateOperators.Pull` | controllers/user-controller.js:101 | `$pull`: every occurrence of the value is removed and every other element keeps its number of occurrences |
| `UpdateOperators.PullConcat` | controllers/user-controller.js:99-103 | pulling from `a + b` gives what is left of `a` followed by what is left of `b`, so the remaining elements keep their relative order |
| `UpdateOperators.PullAbsent` | controllers/user-controller.js:101 | pulling a value that is absent leaves the array unchanged |
| `UpdateOperators.PullIdempotent` | controllers/user-controller.js:101 | pulling twice gives what pulling once gives |
| `UpdateOperators.PullReactionsKeeps` | controllers/thought-controller.js:101-105 | `$pull` by `reactionId`: the reactions kept are exactly those with another id, each kept as often as before |
| `UpdateOperators.PullReactionsConcat` | controllers/thought-controller.js:101-105 | the reactions that remain keep their relative order |
| `UpdateOperators.PullReactionsAbsent` | controllers/thought-controller.js:101-105 | with no reaction of that id, the reactions are unchanged |
| `UpdateOperators.PullReactionsIdempotent` | controllers/thought-controller.js:101-105 | pulling by the same id twice gives what pulling once gives |
| `UserHandlers.GetAllUsers` | controllers/user-controller.js:5-10 | replies 200 listing exactly the stored users |
| `UserHandlers.GetUserById` | controllers/user-controller.js:13-23 | an absent user gives 404 with the message "User not found"; otherwise 200 with that user's document |
| `UserHandlers.CreateUser` | controllers/user-controller.js:26-30 | 200 exactly when the payload is accepted and the id is free: the new user has the posted name, email, thought list and friend list (each list empty when the body names none), and the other users and all thoughts are unchanged; otherwise 500 and the store is unchanged |
| `UserHandlers.UpdateUserById` | controllers/user-controller.js:33-42 | an absent user gives 404 and leaves the store unchanged; otherwise the named fields are overwritten; for a body naming only the name and email, the thought and friend lists are kept; no other document changes |
| `UserHandlers.Listed` | controllers/user-controller.js:54 | the set of ids a user lists as its thoughts |
| `UserHandlers.ClearReactions` | controllers/user-controller.js:58-64 | emptying and saving the reactions of the found thoughts keeps every thought, its text and its owner, and empties exactly those thoughts' reactions |
| `UserHandlers.DeleteUserById` | controllers/user-controller.js:45-77 | an absent user gives 404 with no side effect; otherwise the user is gone and so is every thought it lists; unlisted thoughts (even ones naming the user as owner) and all other users, friend lists included, are unchanged |
| `UserHandlers.AddFriend` | controllers/user-controller.js:82-95 | an absent user gives 404 and leaves the store unchanged; otherwise the friend (the body's `friendId` if present and non-empty, else the path's) is in the friend list afterwards, whether or not any user has that id, and nothing else changes |
| `UserHandlers.AddFriendIdempotent` | controllers/user-controller.js:83-87 | adding a friend twice leaves the same store and reply as adding it once |
| `UserHandlers.RemoveFriend` | controllers/user-controller.js:98-116 | an absent user gives 404 and leaves the store unchanged; otherwise the friend id is no longer in the list, the rest keep their order, nothing else changes, and the reply is always "Friend removed successfully!" |
| `UserHandlers.RemoveFriendNotAFriend` | controllers/user-controller.js:99-113 | removing an id that is not a friend leaves the store unchanged and still replies "Friend removed successfully!" |
| `UserHandlers.RemoveFriendIdempotent` | controllers/user-controller.js:99-103 | removing a friend twice leaves the same store and reply as removing it once |
| `UserHandlers.DeleteUserTwice` | controllers/user-controller.js:48-51 | deleting a user again replies 404 and leaves the store as the first deletion left it |
| `ThoughtHandlers.GetAllThoughts` | controllers/thought-controller.js:6-13 | replies 200 listing exactly the stored thoughts |
| `ThoughtHandlers.GetThoughtsById` | controllers/thought-controller.js:18-29 | an absent thought gives 404 with the message "Thought not found"; otherwise 200 with that thought |
| `ThoughtHandlers.CreateThought` | controllers/thought-controller.js:33-52 | a refused payload or a taken id gives 500 and changes nothing; otherwise the thought is stored with the posted text, owner and reactions; with the owner missing the reply is 404 and no user changes; with the owner present its id is appended to the end of the owner's thoughts, nothing else about any user changes, and the reply is 200 |
| `ThoughtHandlers.CreateThoughtThenGet` | controllers/thought-controller.js:35 | a created thought reads back with the posted text, owner and reactions (none when the body names none), whether or not the owner exists |
| `ThoughtHandlers.DeleteThought` | controllers/thought-controller.js:57-64 | always replies 200, with the deleted thought or null; only that thought is removed and no user changes |
| `ThoughtHandlers.UpdateThoughtById` | controllers/thought-controller.js:68-81 | an absent thought gives 404 and leaves the store unchanged; otherwise the named fields are overwritten; for a body naming only the text and owner, the reactions are kept; no other document changes |
| `ThoughtHandlers.CreateReaction` | controllers/thought-controller.js:84-95 | never replies 404; a refused reaction or a missing thought gives 500 and leaves the store unchanged; otherwise the reaction is in the thought's reactions afterwards, and only that thought's reactions change |
| `ThoughtHandlers.CreateReactionPresent` | controllers/thought-controller.js:86-90 | adding a reaction equal to one present leaves the store unchanged |
| `ThoughtHandlers.CreateReactionIdempotent` | controllers/thought-controller.js:86-90 | adding the same reaction twice leaves the store as adding it once |
| `ThoughtHandlers.CreateReactionReusedId` | controllers/thought-controller.js:86-105 | a concrete case: a reaction that reuses an existing reaction id with another body is appended, so two reactions then share that id, and deleting that id removes both |
| `ThoughtHandlers.CreateReactionSharedId` | controllers/thought-controller.js:86-105 | for any thought and any new reaction sharing its id with one already present: the new one is appended at the end, and deleting that id removes both |
| `ThoughtHandlers.DeleteReaction` | controllers/thought-controller.js:99-111 | never replies 404; a missing thought gives 500 and leaves the store unchanged; otherwise no reaction with that id remains, the others keep their order, and only that thought's reactions change |
| `ThoughtHandlers.DeleteReactionAbsent` | controllers/thought-controller.js:101-107 | removing a reaction id that is not there leaves the store unchanged and replies 200 with the thought |
| `ThoughtHandlers.DeleteReactionIdempotent` | controllers/thought-controller.js:101-105 | removing a reaction twice leaves the store as removing it once |
| `Integrity.CreateUserListsUnchecked` | controllers/user-controller.js:26-28 | a create body listing a thought id that names no thought is stored as is: the reply is 200 and the new user lists a thought that does not exist |
| `Integrity.CreateThoughtOrphan` | controllers/thought-controller.js:35-46 | with the owner missing, the reply is 404 but the thought is stored with an owner that does not exist, so not every thought is linked to its owner |
| `Integrity.CreateThoughtKeepsLinked` | controllers/thought-controller.js:35-42 | a successful create keeps every thought's owner present and listing it |
| `Integrity.CreateThoughtKeepsPointBack` | controllers/thought-controller.js:35-42 | a successful create with an id no user lists keeps every listed thought naming the lister as its owner |
| `Integrity.DeleteUserKeepsLinked` | controllers/user-controller.js:54-70 | if every thought was linked to its owner before the cascade, every surviving thought still is |
| `Integrity.DeleteUserMissesUnlistedThought` | controllers/user-controller.js:54-67 | a thought that names the deleted user as owner but is not in its list survives, with no owner |
| `Integrity.DeleteUserLeavesFriendReference` | controllers/user-controller.js:67-70 | another user's friend list still holds the deleted user's id |
| `Integrity.DeleteThoughtLeavesLink` | controllers/thought-controller.js:57-60 | after deleting a thought its owner still lists its id, which names no thought |
| `Integrity.CascadeScenario` | controllers/user-controller.js:45-72 | create alice, her thought "hi" and a reaction, then delete alice: alice and the thought both give 404 |
| `UserController.CreateUser` | controllers/user-controller.js:26-30 | the store and reply are those `UserHandlers.CreateUser` gives |
| `UserController.UpdateUserById` | controllers/user-controller.js:33-42 | the store and reply are those `UserHandlers.UpdateUserById` gives |
| `UserController.DeleteUserById` | controllers/user-controller.js:45-77 | the find, the reaction-clearing loop over the found thoughts, `deleteMany` and `deleteOne` end in the store and reply `UserHandlers.DeleteUserById` gives |
| `UserController.AddFriend` | controllers/user-controller.js:82-95 | the store and reply are those `UserHandlers.AddFriend` gives |
| `UserController.RemoveFriend` | controllers/user-controller.js:98-116 | the pull and the `removed` test end in the store and reply `UserHandlers.RemoveFriend` gives |
| `ThoughtController.CreateThought` | controllers/thought-controller.js:33-52 | the create and the `$push` onto the owner end in the store and reply `ThoughtHandlers.CreateThought` gives |
| `ThoughtController.DeleteThought` | controllers/thought-controller.js:57-64 | the store and reply are those `ThoughtHandlers.DeleteThought` gives |
| `ThoughtController.UpdateThoughtById` | controllers/thought-controller.js:68-81 | the store and reply are those `ThoughtHandlers.UpdateThoughtById` gives |
| `ThoughtController.CreateReaction` | controllers/thought-controller.js:84-95 | the store and reply are those `ThoughtHandlers.CreateReaction` gives |
| `ThoughtController.DeleteReaction` | controllers/thought-controller.js:99-111 | the store and reply are those `ThoughtHandlers.DeleteReaction` gives |

## Left out

- HTTP plumbing (the `req`/`res` objects, JSON serialisation, `console.error`). A reply is a status and a body value.
- `populate('thoughts')` in `getAllUsers` and `getUserById`. Replies carry the user's raw thought ids, not the resolved thoughts.
- The order in which a collection lists its documents. `GetAllUsers` and `GetAllThoughts` give the collection as a map.
- ObjectId generation, and the casting and comparison of ids. Ids are strings, and a new document's id is the parameter `newId`.
- The user, thought and reaction schemas are not part of this model. Their validators are the parameter `accepted`. The defaults they fill in are left out: a reaction's `reactionId` and timestamps, and a thought's creation time.
- `ThoughtHandlers.CreateReaction` compares the reaction as posted. If the schema fills a fresh `reactionId` or timestamp into each posted reaction, two identical posts would differ, and both would be appended.
- UserHandlers.UpdateUserById, ThoughtHandlers.UpdateThoughtById: update bodies that name fields other than a user's name and email, or a thought's text and owner, are not modelled. A body replacing an array wholesale (thoughts, friends, reactions) is one example; the kept lists these members promise hold only for bodies that do not name them.
- Store failures, and the catch branches they lead to. Examples: a store call that throws, the 400 of `removeFriend`'s catch, and a failing `save` inside the cascade. Every store step here succeeds.
- The `Promise.all` parallelism of the cascade. The reactions are cleared one thought after another, since each step touches a different thought.
