/** The state transition `likeOrDislike` performs on a vibe check's reaction
    fields, as a function of the fields it reads. The stored post and the
    method that drives the DAO calls live in `VibeCheckService`; this module
    says what that method computes and proves what follows from it. */
module ReactionToggle {

  datatype Kind = Like | Dislike

  /** The four fields of a vibe check that a reaction touches. */
  datatype Reactions = Reactions(likes: int, dislikes: int, likedBy: seq<string>, dislikedBy: seq<string>)

  /** `names.filter((id) => id !== name)`. */
  function Without(names: seq<string>, name: string): (r: seq<string>)
    ensures name !in r
    ensures forall x :: x in r <==> x in names && x != name
    ensures multiset(r) == multiset(names)[name := 0]
    ensures |r| == |names| - multiset(names)[name]
  {
    if names == [] then []
    else
      assert names == [names[0]] + names[1..];
      if names[0] == name then Without(names[1..], name)
      else [names[0]] + Without(names[1..], name)
  }

  /** The filter works name by name and keeps the order of what it keeps:
      filtering a concatenation filters each part. */
  lemma {:induction false} WithoutConcat(a: seq<string>, b: seq<string>, name: string)
    ensures Without(a + b, name) == Without(a, name) + Without(b, name)
  {
    if a == [] {
      assert a + b == b;
    } else {
      var ab := a + b;
      assert ab[0] == a[0] && ab[1..] == a[1..] + b;
      WithoutConcat(a[1..], b, name);
      if a[0] == name {
        assert Without(ab, name) == Without(a[1..] + b, name);
      } else {
        assert Without(ab, name) == [a[0]] + Without(a[1..] + b, name);
        assert Without(a, name) == [a[0]] + Without(a[1..], name);
      }
    }
  }

  lemma {:induction false} WithoutAbsent(names: seq<string>, name: string)
    requires name !in names
    ensures Without(names, name) == names
  {
    if names != [] {
      WithoutAbsent(names[1..], name);
    }
  }

  lemma {:induction false} WithoutAppended(names: seq<string>, name: string)
    ensures Without(names + [name], name) == Without(names, name)
  {
    if names == [] {
      assert [] + [name] == [name];
    } else {
      assert (names + [name])[1..] == names[1..] + [name];
      WithoutAppended(names[1..], name);
    }
  }

  /** The values `likeOrDislike` settles on before writing: a delta of -1
      for each list that already holds the username (+1 otherwise), and the
      array to write on removal. The second test overwrites the array the
      first one computed. */
  datatype Plan = Plan(likeValue: int, dislikeValue: int, updatedArray: seq<string>)

  function PlanFor(s: Reactions, username: string): (p: Plan)
    ensures p.likeValue == (if username in s.likedBy then -1 else 1)
    ensures p.dislikeValue == (if username in s.dislikedBy then -1 else 1)
    ensures username in s.dislikedBy ==> p.updatedArray == Without(s.dislikedBy, username)
    ensures username !in s.dislikedBy && username in s.likedBy ==> p.updatedArray == Without(s.likedBy, username)
  {
    var afterLikes :=
      if username in s.likedBy then Plan(-1, 1, Without(s.likedBy, username))
      else Plan(1, 1, []);
    if username in s.dislikedBy then afterLikes.(dislikeValue := -1, updatedArray := Without(s.dislikedBy, username))
    else afterLikes
  }

  /** The reaction fields after a request of the given kind: the counter of
      that kind moves by its delta, and its list either gains the username
      (delta +1) or is replaced by the planned array (delta -1). */
  function Toggle(s: Reactions, username: string, kind: Kind): (t: Reactions)
    ensures kind == Like ==> t.dislikes == s.dislikes && t.dislikedBy == s.dislikedBy
    ensures kind == Dislike ==> t.likes == s.likes && t.likedBy == s.likedBy
    ensures kind == Like ==> t.likes == s.likes + (if username in s.likedBy then -1 else 1)
    ensures kind == Dislike ==> t.dislikes == s.dislikes + (if username in s.dislikedBy then -1 else 1)
  {
    var p := PlanFor(s, username);
    match kind
    case Like =>
      s.(likes := s.likes + p.likeValue,
         likedBy := if p.likeValue == 1 then s.likedBy + [username] else p.updatedArray)
    case Dislike =>
      s.(dislikes := s.dislikes + p.dislikeValue,
         dislikedBy := if p.dislikeValue == 1 then s.dislikedBy + [username] else p.updatedArray)
  }

  /** A like from a username not yet in `liked_by` adds one like and appends
      the username; nothing else changes. */
  lemma LikeWhenAbsent(s: Reactions, username: string)
    requires username !in s.likedBy
    ensures Toggle(s, username, Like) == s.(likes := s.likes + 1, likedBy := s.likedBy + [username])
  {
  }

  /** A like from a username already in `liked_by` (and not in
      `disliked_by`) removes one like and every occurrence of the username,
      keeping every other name with its multiplicity. */
  lemma LikeWhenPresent(s: Reactions, username: string)
    requires username in s.likedBy && username !in s.dislikedBy
    ensures var t := Toggle(s, username, Like);
      && t.likes == s.likes - 1
      && username !in t.likedBy
      && t.likedBy == Without(s.likedBy, username)
      && multiset(t.likedBy) == multiset(s.likedBy)[username := 0]
      && t.dislikes == s.dislikes && t.dislikedBy == s.dislikedBy
  {
  }

  /** The mirror of `LikeWhenAbsent` for dislikes. */
  lemma DislikeWhenAbsent(s: Reactions, username: string)
    requires username !in s.dislikedBy
    ensures Toggle(s, username, Dislike) == s.(dislikes := s.dislikes + 1, dislikedBy := s.dislikedBy + [username])
  {
  }

  /** The mirror of `LikeWhenPresent` for dislikes; here it holds whether or
      not the username is also in `liked_by`, because the array written is
      always the one computed last, from `disliked_by`. */
  lemma DislikeWhenPresent(s: Reactions, username: string)
    requires username in s.dislikedBy
    ensures var t := Toggle(s, username, Dislike);
      && t.dislikes == s.dislikes - 1
      && username !in t.dislikedBy
      && t.dislikedBy == Without(s.dislikedBy, username)
      && multiset(t.dislikedBy) == multiset(s.dislikedBy)[username := 0]
      && t.likes == s.likes && t.likedBy == s.likedBy
  {
  }

  /** There is no mutual exclusion: liking and then disliking leaves the
      username in both lists with both counters raised by one. */
  lemma LikeThenDislikeKeepsBoth(s: Reactions, username: string)
    requires username !in s.likedBy && username !in s.dislikedBy
    ensures var t := Toggle(Toggle(s, username, Like), username, Dislike);
      && username in t.likedBy && username in t.dislikedBy
      && t.likes == s.likes + 1 && t.dislikes == s.dislikes + 1
  {
  }

  /** For a username in neither list, two likes in a row restore the
      original fields: the like is a true toggle. */
  lemma LikeTwiceRestores(s: Reactions, username: string)
    requires username !in s.likedBy && username !in s.dislikedBy
    ensures Toggle(Toggle(s, username, Like), username, Like) == s
  {
    WithoutAppended(s.likedBy, username);
    WithoutAbsent(s.likedBy, username);
  }

  /** The same for two dislikes in a row. */
  lemma DislikeTwiceRestores(s: Reactions, username: string)
    requires username !in s.likedBy && username !in s.dislikedBy
    ensures Toggle(Toggle(s, username, Dislike), username, Dislike) == s
  {
    WithoutAppended(s.dislikedBy, username);
    WithoutAbsent(s.dislikedBy, username);
  }

  /** When the username is in both lists, an un-like writes `disliked_by`
      without that username into `liked_by`, because the array computed from
      `disliked_by` overwrites the one computed from `liked_by`. */
  lemma UnlikeWritesDislikedBy(s: Reactions, username: string)
    requires username in s.likedBy && username in s.dislikedBy
    ensures PlanFor(s, username).updatedArray == Without(s.dislikedBy, username)
    ensures Toggle(s, username, Like).likedBy == Without(s.dislikedBy, username)
    ensures Toggle(s, username, Like).likes == s.likes - 1
  {
  }

  /** A concrete instance: "alice" in both lists and "bob" only in
      `disliked_by`; alice's un-like leaves `liked_by` holding bob, who never
      liked the post. */
  lemma UnlikeStaleArrayExample()
    ensures Toggle(Reactions(1, 2, ["alice"], ["alice", "bob"]), "alice", Like).likedBy == ["bob"]
  {
    assert Without(["alice", "bob"], "alice") == Without(["bob"], "alice");
    assert Without(["bob"], "alice") == ["bob"] + Without([], "alice");
  }

  /** A list without repeated names. */
  ghost predicate NoDuplicates(names: seq<string>) {
    forall x :: multiset(names)[x] <= 1
  }

  /** Every counter equals the length of its list, and no list repeats a
      name. */
  ghost predicate Consistent(s: Reactions) {
    s.likes == |s.likedBy| && s.dislikes == |s.dislikedBy| && NoDuplicates(s.likedBy) && NoDuplicates(s.dislikedBy)
  }

  lemma AppendKeepsNoDuplicates(names: seq<string>, name: string)
    requires NoDuplicates(names) && name !in names
    ensures NoDuplicates(names + [name])
  {
    assert multiset(names + [name]) == multiset(names) + multiset{name};
  }

  lemma WithoutKeepsNoDuplicates(names: seq<string>, name: string)
    requires NoDuplicates(names)
    ensures NoDuplicates(Without(names, name))
  {
    forall x ensures multiset(Without(names, name))[x] <= 1 {
      assert multiset(names)[name := 0][x] <= multiset(names)[x];
    }
  }

  /** Counters stay equal to list lengths under every request, except the
      un-like of a username that is in both lists. A dislike by such a
      username keeps them, because the array it writes is computed from
      `disliked_by` itself. */
  lemma ToggleKeepsConsistent(s: Reactions, username: string, kind: Kind)
    requires Consistent(s)
    requires !(kind == Like && username in s.likedBy && username in s.dislikedBy)
    ensures Consistent(Toggle(s, username, kind))
  {
    var t := Toggle(s, username, kind);
    match kind
    case Like =>
      if username in s.likedBy {
        assert multiset(s.likedBy)[username] == 1;
        WithoutKeepsNoDuplicates(s.likedBy, username);
      } else {
        AppendKeepsNoDuplicates(s.likedBy, username);
      }
    case Dislike =>
      if username in s.dislikedBy {
        assert multiset(s.dislikedBy)[username] == 1;
        WithoutKeepsNoDuplicates(s.dislikedBy, username);
      } else {
        AppendKeepsNoDuplicates(s.dislikedBy, username);
      }
  }

  /** A trace from a freshly created post (no reactions) that breaks counter
      consistency: alice likes, alice dislikes, bob dislikes, alice likes
      again. The last step leaves one name in `liked_by` and zero likes. */
  lemma ConsistencyBreaksFromFreshPost()
    ensures var s0 := Reactions(0, 0, [], []);
      var s1 := Toggle(s0, "alice", Like);
      var s2 := Toggle(s1, "alice", Dislike);
      var s3 := Toggle(s2, "bob", Dislike);
      var s4 := Toggle(s3, "alice", Like);
      Consistent(s3) && s4 == Reactions(0, 2, ["bob"], ["alice", "bob"]) && !Consistent(s4)
  {
    var s3 := Reactions(1, 2, ["alice"], ["alice", "bob"]);
    assert Toggle(Reactions(0, 0, [], []), "alice", Like) == Reactions(1, 0, ["alice"], []);
    assert Toggle(Reactions(1, 0, ["alice"], []), "alice", Dislike) == Reactions(1, 1, ["alice"], ["alice"]);
    assert Toggle(Reactions(1, 1, ["alice"], ["alice"]), "bob", Dislike) == s3;
    assert multiset(s3.dislikedBy) == multiset{"alice", "bob"};
    assert multiset(s3.likedBy) == multiset{"alice"};
    UnlikeStaleArrayExample();
  }
}
