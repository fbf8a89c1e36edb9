/** The state-changing handlers of controllers/thought-controller.js, one
    store step at a time, each proved to do what ThoughtHandlers says. The
    read-only handlers are ThoughtHandlers.GetAllThoughts and GetThoughtsById. */
module ThoughtController {
  import opened Documents
  import opened UpdateOperators
  import opened Store
  import ThoughtHandlers

  /** Create, then link: the thought is stored before the owner is looked up. */
  method CreateThought(db: Database, newId: Id, input: ThoughtInput, accepted: bool) returns (res: Response)
    modifies db
    ensures Outcome(db.Snapshot(), res) == ThoughtHandlers.CreateThought(old(db.Snapshot()), newId, input, accepted)
  {
    // validate, then insert the thought
    if !accepted || newId in db.thoughts {
      return Response(500, ErrorObject);
    }
    var thought := ThoughtHandlers.NewThought(input);
    db.thoughts := db.thoughts[newId := thought];
    // push the new id onto the owner's thoughts
    if input.userId !in db.users {
      return Response(404, Message(UserNotFound));
    }
    var owner := db.users[input.userId];
    db.users := db.users[input.userId := owner.(thoughts := owner.thoughts + [newId])];
    res := Response(200, ThoughtAdded(ThoughtAddedMessage, newId, thought));
  }

  method DeleteThought(db: Database, thoughtId: Id) returns (res: Response)
    modifies db
    ensures Outcome(db.Snapshot(), res) == ThoughtHandlers.DeleteThought(old(db.Snapshot()), thoughtId)
  {
    // delete the thought, replying with it or with null
    if thoughtId !in db.thoughts {
      return Response(200, Null);
    }
    var thought := db.thoughts[thoughtId];
    db.thoughts := db.thoughts - {thoughtId};
    res := Response(200, ThoughtDoc(thoughtId, thought));
  }

  method UpdateThoughtById(db: Database, thoughtId: Id, patch: ThoughtPatch) returns (res: Response)
    modifies db
    ensures Outcome(db.Snapshot(), res) == ThoughtHandlers.UpdateThoughtById(old(db.Snapshot()), thoughtId, patch)
  {
    // overwrite the named fields of the thought
    if thoughtId !in db.thoughts {
      return Response(404, Message(ThoughtNotFound));
    }
    var t := db.thoughts[thoughtId];
    var updated := t.(thoughtText := Or(patch.thoughtText, t.thoughtText), userId := Or(patch.userId, t.userId));
    db.thoughts := db.thoughts[thoughtId := updated];
    res := Response(200, ThoughtDoc(thoughtId, updated));
  }

  method CreateReaction(db: Database, thoughtId: Id, reaction: Reaction, accepted: bool) returns (res: Response)
    modifies db
    ensures Outcome(db.Snapshot(), res) == ThoughtHandlers.CreateReaction(old(db.Snapshot()), thoughtId, reaction, accepted)
  {
    // validate, then add the reaction to the thought's reaction set
    if !accepted {
      return Response(500, ErrorObject);
    }
    if thoughtId !in db.thoughts {
      // the 404 reply reads the undeclared `notFound`; the catch branch answers
      return Response(500, ErrorObject);
    }
    var t := db.thoughts[thoughtId];
    var updated := t.(reactions := AddToSet(t.reactions, reaction));
    db.thoughts := db.thoughts[thoughtId := updated];
    res := Response(200, ThoughtDoc(thoughtId, updated));
  }

  method DeleteReaction(db: Database, thoughtId: Id, reactionId: Id) returns (res: Response)
    modifies db
    ensures Outcome(db.Snapshot(), res) == ThoughtHandlers.DeleteReaction(old(db.Snapshot()), thoughtId, reactionId)
  {
    // pull every reaction of that id from the thought
    if thoughtId !in db.thoughts {
      // the 404 reply reads the undeclared `notFound`; the catch branch answers
      return Response(500, ErrorObject);
    }
    var t := db.thoughts[thoughtId];
    var updated := t.(reactions := PullReactions(t.reactions, reactionId));
    db.thoughts := db.thoughts[thoughtId := updated];
    res := Response(200, ThoughtDoc(thoughtId, updated));
  }
}
