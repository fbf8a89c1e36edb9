/** What each handler of controllers/thought-controller.js does, as a function
    from the store before the request to the store after it and the reply.
    The step-by-step handlers in ThoughtController are proved equal to these. */
module ThoughtHandlers {
  import opened Documents
  import opened UpdateOperators

  /** GET /thoughts: every stored thought. */
  function GetAllThoughts(s: State): (r: Response)
    ensures r.status == 200 && r.body.ThoughtList? && r.body.thoughts == s.thoughts
  {
    Response(200, ThoughtList(s.thoughts))
  }

  /** GET /thoughts/:thoughtId. */
  function GetThoughtsById(s: State, thoughtId: Id): (r: Response)
    ensures thoughtId !in s.thoughts ==> r == Response(404, Message(ThoughtNotFound))
    ensures thoughtId in s.thoughts ==> r == Response(200, ThoughtDoc(thoughtId, s.thoughts[thoughtId]))
  {
    if thoughtId !in s.thoughts then Response(404, Message(ThoughtNotFound))
    else Response(200, ThoughtDoc(thoughtId, s.thoughts[thoughtId]))
  }

  /** The thought `Thought.create` stores for a request body: its text, its
      owner and whatever reactions the body carries. */
  function NewThought(input: ThoughtInput): Thought
  {
    Thought(input.thoughtText, input.userId, input.reactions)
  }

  /** POST /thoughts. The thought is stored first (under the generated id
      `newId`, if the schema's validators accept the body and the id is free;
      otherwise the catch branch replies 500); only then is the owner looked up.
      A missing owner gets 404 but the thought stays, linked to nobody. */
  function CreateThought(s: State, newId: Id, input: ThoughtInput, accepted: bool): (o: Outcome)
    ensures !accepted || newId in s.thoughts ==> o == Outcome(s, Response(500, ErrorObject))
    ensures accepted && newId !in s.thoughts ==>
      && o.state.thoughts == s.thoughts[newId := Thought(input.thoughtText, input.userId, input.reactions)]
      && o.state.users.Keys == s.users.Keys
      && (forall v :: v in s.users && v != input.userId ==> o.state.users[v] == s.users[v])
      && (input.userId !in s.users ==>
            o.state.users == s.users && o.response == Response(404, Message(UserNotFound)))
      && (input.userId in s.users ==>
            var (u, u') := (s.users[input.userId], o.state.users[input.userId]);
            && u'.thoughts == u.thoughts + [newId]
            && u'.username == u.username && u'.email == u.email && u'.friends == u.friends
            && o.response == Response(200, ThoughtAdded(ThoughtAddedMessage, newId, o.state.thoughts[newId])))
  {
    if !accepted || newId in s.thoughts then Outcome(s, Response(500, ErrorObject))
    else
      var thought := NewThought(input);
      var s1 := s.(thoughts := s.thoughts[newId := thought]);
      if input.userId !in s1.users then Outcome(s1, Response(404, Message(UserNotFound)))
      else
        var u := s1.users[input.userId];
        Outcome(s1.(users := s1.users[input.userId := u.(thoughts := u.thoughts + [newId])]),
                Response(200, ThoughtAdded(ThoughtAddedMessage, newId, thought)))
  }

  /** A created thought can be read back, with the text, owner and reactions
      of the body, whether or not its owner exists. */
  lemma CreateThoughtThenGet(s: State, newId: Id, input: ThoughtInput)
    requires newId !in s.thoughts
    ensures var o := CreateThought(s, newId, input, true);
      GetThoughtsById(o.state, newId) == Response(200, ThoughtDoc(newId, Thought(input.thoughtText, input.userId, input.reactions)))
  {
  }

  /** DELETE /thoughts/:thoughtId: replies 200 in every case, with the deleted
      thought or with null; no user's list of thoughts is touched. */
  function DeleteThought(s: State, thoughtId: Id): (o: Outcome)
    ensures o.state.users == s.users
    ensures o.response.status == 200
    ensures o.state.thoughts.Keys == s.thoughts.Keys - {thoughtId}
    ensures forall t :: t in o.state.thoughts ==> o.state.thoughts[t] == s.thoughts[t]
    ensures thoughtId in s.thoughts ==> o.response.body == ThoughtDoc(thoughtId, s.thoughts[thoughtId])
    ensures thoughtId !in s.thoughts ==> o == Outcome(s, Response(200, Null))
  {
    if thoughtId !in s.thoughts then Outcome(s, Response(200, Null))
    else
      Outcome(s.(thoughts := s.thoughts - {thoughtId}),
              Response(200, ThoughtDoc(thoughtId, s.thoughts[thoughtId])))
  }

  /** PUT /thoughts/:thoughtId: overwrite the fields the body names. */
  function UpdateThoughtById(s: State, thoughtId: Id, patch: ThoughtPatch): (o: Outcome)
    ensures o.state.users == s.users && o.state.thoughts.Keys == s.thoughts.Keys
    ensures forall t :: t in s.thoughts && t != thoughtId ==> o.state.thoughts[t] == s.thoughts[t]
    ensures thoughtId !in s.thoughts ==> o == Outcome(s, Response(404, Message(ThoughtNotFound)))
    ensures thoughtId in s.thoughts ==>
      var (t, t') := (s.thoughts[thoughtId], o.state.thoughts[thoughtId]);
      && t'.thoughtText == Or(patch.thoughtText, t.thoughtText)
      && t'.userId == Or(patch.userId, t.userId)
      && t'.reactions == t.reactions
      && o.response == Response(200, ThoughtDoc(thoughtId, t'))
  {
    if thoughtId !in s.thoughts then Outcome(s, Response(404, Message(ThoughtNotFound)))
    else
      var t := s.thoughts[thoughtId];
      var t' := t.(thoughtText := Or(patch.thoughtText, t.thoughtText), userId := Or(patch.userId, t.userId));
      Outcome(s.(thoughts := s.thoughts[thoughtId := t']), Response(200, ThoughtDoc(thoughtId, t')))
  }

  /** POST /thoughts/:thoughtId/reactions. `accepted` is the verdict of the
      reaction schema's validators (run on the update). A missing thought never
      gets its 404: building that reply reads the undeclared `notFound`, the
      ReferenceError lands in the catch branch, and the reply is 500. */
  function CreateReaction(s: State, thoughtId: Id, reaction: Reaction, accepted: bool): (o: Outcome)
    ensures o.response.status != 404
    ensures o.state.users == s.users && o.state.thoughts.Keys == s.thoughts.Keys
    ensures forall t :: t in s.thoughts && t != thoughtId ==> o.state.thoughts[t] == s.thoughts[t]
    ensures !accepted || thoughtId !in s.thoughts ==> o == Outcome(s, Response(500, ErrorObject))
    ensures accepted && thoughtId in s.thoughts ==>
      var (t, t') := (s.thoughts[thoughtId], o.state.thoughts[thoughtId]);
      && reaction in t'.reactions
      && t'.reactions == AddToSet(t.reactions, reaction)
      && t'.thoughtText == t.thoughtText && t'.userId == t.userId
      && o.response == Response(200, ThoughtDoc(thoughtId, t'))
  {
    if !accepted then Outcome(s, Response(500, ErrorObject))
    else if thoughtId !in s.thoughts then Outcome(s, Response(500, ErrorObject))
    else
      var t := s.thoughts[thoughtId];
      var t' := t.(reactions := AddToSet(t.reactions, reaction));
      Outcome(s.(thoughts := s.thoughts[thoughtId := t']), Response(200, ThoughtDoc(thoughtId, t')))
  }

  /** Adding a reaction equal to one already there changes nothing. */
  lemma CreateReactionPresent(s: State, thoughtId: Id, reaction: Reaction)
    requires thoughtId in s.thoughts && reaction in s.thoughts[thoughtId].reactions
    ensures CreateReaction(s, thoughtId, reaction, true)
         == Outcome(s, Response(200, ThoughtDoc(thoughtId, s.thoughts[thoughtId])))
  {
  }

  /** Adding the same reaction twice is adding it once. */
  lemma CreateReactionIdempotent(s: State, thoughtId: Id, reaction: Reaction, accepted: bool)
    ensures var once := CreateReaction(s, thoughtId, reaction, accepted);
      CreateReaction(once.state, thoughtId, reaction, accepted).state == once.state
  {
  }

  /** `$addToSet` compares whole reactions, so a second reaction that reuses a
      `reactionId` with another body is appended: reaction ids are not kept
      unique, and deleting that id then removes both reactions. */
  lemma CreateReactionReusedId()
    ensures var r1, r2 := Reaction("r1", "nice", "bob"), Reaction("r1", "great", "bob");
      var s := State(map[], map["t" := Thought("hi", "alice", [r1])]);
      var s' := CreateReaction(s, "t", r2, true).state;
      && s'.thoughts["t"].reactions == [r1, r2]
      && DeleteReaction(s', "t", "r1").state.thoughts["t"].reactions == []
  {
    var r1, r2 := Reaction("r1", "nice", "bob"), Reaction("r1", "great", "bob");
    assert r2.reactionId == "r1";
    assert PullReactions([r2], "r1") == [] + PullReactions([r2][1..], "r1");
    assert [r1, r2][1..] == [r2];
    assert PullReactions([r1, r2], "r1") == [] + PullReactions([r2], "r1");
  }

  /** In general: a reaction not yet present that shares its `reactionId`
      with one already there is appended, and deleting that id then removes
      both of them. */
  lemma CreateReactionSharedId(s: State, thoughtId: Id, r1: Reaction, r2: Reaction)
    requires thoughtId in s.thoughts
    requires r1 in s.thoughts[thoughtId].reactions && r2 !in s.thoughts[thoughtId].reactions
    requires r2.reactionId == r1.reactionId
    ensures var s' := CreateReaction(s, thoughtId, r2, true).state;
      var rs := DeleteReaction(s', thoughtId, r2.reactionId).state.thoughts[thoughtId].reactions;
      && s'.thoughts[thoughtId].reactions == s.thoughts[thoughtId].reactions + [r2]
      && r1 in s'.thoughts[thoughtId].reactions
      && r1 !in rs && r2 !in rs
  {
  }

  /** DELETE /thoughts/:thoughtId/reactions/:reactionId: every reaction of that
      id is pulled. A missing thought replies 500, as in `CreateReaction`. */
  function DeleteReaction(s: State, thoughtId: Id, reactionId: Id): (o: Outcome)
    ensures o.response.status != 404
    ensures o.state.users == s.users && o.state.thoughts.Keys == s.thoughts.Keys
    ensures forall t :: t in s.thoughts && t != thoughtId ==> o.state.thoughts[t] == s.thoughts[t]
    ensures thoughtId !in s.thoughts ==> o == Outcome(s, Response(500, ErrorObject))
    ensures thoughtId in s.thoughts ==>
      var (t, t') := (s.thoughts[thoughtId], o.state.thoughts[thoughtId]);
      && (forall x :: x in t'.reactions ==> x.reactionId != reactionId)
      && t'.reactions == PullReactions(t.reactions, reactionId)
      && t'.thoughtText == t.thoughtText && t'.userId == t.userId
      && o.response == Response(200, ThoughtDoc(thoughtId, t'))
  {
    if thoughtId !in s.thoughts then Outcome(s, Response(500, ErrorObject))
    else
      var t := s.thoughts[thoughtId];
      PullReactionsKeeps(t.reactions, reactionId);
      var t' := t.(reactions := PullReactions(t.reactions, reactionId));
      Outcome(s.(thoughts := s.thoughts[thoughtId := t']), Response(200, ThoughtDoc(thoughtId, t')))
  }

  /** Removing a reaction id that is not there leaves the store as it was and
      still replies 200 with the thought. */
  lemma DeleteReactionAbsent(s: State, thoughtId: Id, reactionId: Id)
    requires thoughtId in s.thoughts
    requires forall x :: x in s.thoughts[thoughtId].reactions ==> x.reactionId != reactionId
    ensures DeleteReaction(s, thoughtId, reactionId)
         == Outcome(s, Response(200, ThoughtDoc(thoughtId, s.thoughts[thoughtId])))
  {
    var t := s.thoughts[thoughtId];
    PullReactionsAbsent(t.reactions, reactionId);
    assert t.(reactions := PullReactions(t.reactions, reactionId)) == t;
    assert s.thoughts[thoughtId := t] == s.thoughts;
  }

  /** Removing a reaction twice is removing it once. */
  lemma DeleteReactionIdempotent(s: State, thoughtId: Id, reactionId: Id)
    ensures var once := DeleteReaction(s, thoughtId, reactionId);
      DeleteReaction(once.state, thoughtId, reactionId).state == once.state
  {
    var once := DeleteReaction(s, thoughtId, reactionId);
    if thoughtId in s.thoughts {
      DeleteReactionAbsent(once.state, thoughtId, reactionId);
    }
  }
}
