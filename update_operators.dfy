/** The MongoDB array update operators the handlers use, as functions on
    the array they rewrite. `$push` is plain append (`s + [x]`) and is not
    given a name of its own. */
module UpdateOperators {
  import opened Documents

  /** `$addToSet`: append `x` unless an equal element is already present. */
  function AddToSet<T(==, !new)>(s: seq<T>, x: T): (r: seq<T>)
    ensures x in r
    ensures forall y :: y in r <==> y in s || y == x
    ensures s <= r && |r| <= |s| + 1
    ensures x in s ==> r == s
    ensures x !in s ==> r == s + [x]
  {
    if x in s then s else s + [x]
  }

  /** Adding the same element a second time changes nothing. */
  lemma AddToSetIdempotent<T(!new)>(s: seq<T>, x: T)
    ensures AddToSet(AddToSet(s, x), x) == AddToSet(s, x)
  {
  }

  /** `$pull` with a value: remove every element equal to `x`. */
  function Pull<T(==)>(s: seq<T>, x: T): (r: seq<T>)
    ensures multiset(r) == multiset(s)[x := 0]
    ensures x !in r
  {
    if s == [] then []
    else
      assert s == [s[0]] + s[1..];
      (if s[0] == x then [] else [s[0]]) + Pull(s[1..], x)
  }

  /** `$pull` keeps the order of what it leaves: pulling from a concatenation
      is concatenating what is left of each part. */
  lemma {:induction false} PullConcat<T>(a: seq<T>, b: seq<T>, x: T)
    ensures Pull(a + b, x) == Pull(a, x) + Pull(b, x)
  {
    if a == [] {
      assert a + b == b;
    } else {
      assert (a + b)[1..] == a[1..] + b;
      PullConcat(a[1..], b, x);
    }
  }

  /** Pulling an element that is absent leaves the array as it was. */
  lemma {:induction false} PullAbsent<T>(s: seq<T>, x: T)
    requires x !in s
    ensures Pull(s, x) == s
  {
    if s != [] {
      PullAbsent(s[1..], x);
    }
  }

  /** Pulling twice is pulling once. */
  lemma PullIdempotent<T>(s: seq<T>, x: T)
    ensures Pull(Pull(s, x), x) == Pull(s, x)
  {
    PullAbsent(Pull(s, x), x);
  }

  /** `$pull` with the condition `{ reactionId: rid }`: remove every reaction
      whose `reactionId` is `rid`. */
  function PullReactions(rs: seq<Reaction>, rid: Id): seq<Reaction>
  {
    if rs == [] then []
    else (if rs[0].reactionId == rid then [] else [rs[0]]) + PullReactions(rs[1..], rid)
  }

  /** The reactions kept are exactly those of another id, each as often as before. */
  lemma {:induction false} PullReactionsKeeps(rs: seq<Reaction>, rid: Id)
    ensures forall x :: x in PullReactions(rs, rid) <==> x in rs && x.reactionId != rid
    ensures forall x: Reaction :: x.reactionId != rid ==> multiset(PullReactions(rs, rid))[x] == multiset(rs)[x]
  {
    if rs != [] {
      assert rs == [rs[0]] + rs[1..];
      PullReactionsKeeps(rs[1..], rid);
    }
  }

  /** The reactions that remain keep their relative order. */
  lemma {:induction false} PullReactionsConcat(a: seq<Reaction>, b: seq<Reaction>, rid: Id)
    ensures PullReactions(a + b, rid) == PullReactions(a, rid) + PullReactions(b, rid)
  {
    if a == [] {
      assert a + b == b;
    } else {
      assert (a + b)[1..] == a[1..] + b;
      PullReactionsConcat(a[1..], b, rid);
    }
  }

  /** With no reaction of id `rid`, the pull leaves the reactions as they were. */
  lemma {:induction false} PullReactionsAbsent(rs: seq<Reaction>, rid: Id)
    requires forall x :: x in rs ==> x.reactionId != rid
    ensures PullReactions(rs, rid) == rs
  {
    if rs != [] {
      PullReactionsAbsent(rs[1..], rid);
    }
  }

  /** Pulling by the same reaction id twice is pulling once. */
  lemma PullReactionsIdempotent(rs: seq<Reaction>, rid: Id)
    ensures PullReactions(PullReactions(rs, rid), rid) == PullReactions(rs, rid)
  {
    PullReactionsKeeps(rs, rid);
    PullReactionsAbsent(PullReactions(rs, rid), rid);
  }
}
