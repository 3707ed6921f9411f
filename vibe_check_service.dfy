/** The vibe-check service: creating a vibe check, commenting on it, reading
    and deleting vibe checks, and the like/dislike toggle. The vibe-check
    table is an in-memory store of `Post` objects keyed by vibe_check_id; the
    DAO calls the service makes are methods on the store and on `Post` with
    the meanings stated on each. The user directory and the results of list
    queries are parameters. */
module VibeCheckService {
  import opened JsValues
  import opened Envelope
  import opened Users
  import opened ReactionToggle

  const NoUserIdMessage := "No user_id was passed, might have to refresh session"
  const EmptyIdMessage := "vibe_check_id can't be empty"

  datatype Comment = Comment(commentId: string, userId: Value, username: string, commentBody: Value, timestamp: int)

  /** A stored vibe check, as the DAO returns it. */
  datatype PostRecord = PostRecord(
    vibeCheckId: string, userId: Value, username: string, albumId: Value,
    review: string, rating: int, comments: seq<Comment>,
    likes: int, dislikes: int, dislikedBy: seq<string>, likedBy: seq<string>,
    timestamp: int)

  /** The attributes a reaction update reports: the counter and the list of
      the requested kind after the update. */
  datatype ReactionUpdate = ReactionUpdate(count: int, names: seq<string>)

  /** A vibe check in the table. Its identity, author and review never
      change; reactions and comments are updated in place by the DAO. */
  class Post {
    const vibeCheckId: string
    const userId: Value
    const username: string
    const albumId: Value
    const review: string
    const rating: int
    const timestamp: int
    var comments: seq<Comment>
    var likes: int
    var dislikes: int
    var likedBy: seq<string>
    var dislikedBy: seq<string>

    /** `dao.addItem(record)` stores a post with exactly these fields. */
    constructor (rec: PostRecord)
      ensures Record() == rec
    {
      vibeCheckId, userId, username, albumId := rec.vibeCheckId, rec.userId, rec.username, rec.albumId;
      review, rating, timestamp := rec.review, rec.rating, rec.timestamp;
      comments, likes, dislikes := rec.comments, rec.likes, rec.dislikes;
      likedBy, dislikedBy := rec.likedBy, rec.dislikedBy;
    }

    function Record(): PostRecord
      reads this
    {
      PostRecord(vibeCheckId, userId, username, albumId, review, rating, comments,
                 likes, dislikes, dislikedBy, likedBy, timestamp)
    }

    function ReactionState(): Reactions
      reads this
    {
      Reactions(likes, dislikes, likedBy, dislikedBy)
    }

    /** `dao.updateItemLikes(id, delta)`: adds `delta` to `likes`. */
    method UpdateItemLikes(delta: int)
      modifies this`likes
      ensures likes == old(likes) + delta
    {
      likes := likes + delta;
    }

    /** `dao.addItemLikedBy(names, id)`: appends `names` to `liked_by`. */
    method AddItemLikedBy(names: seq<string>)
      modifies this`likedBy
      ensures likedBy == old(likedBy) + names
    {
      likedBy := likedBy + names;
    }

    /** `dao.removeItemLikedBy(arr, id)`: replaces `liked_by` with `arr`. */
    method RemoveItemLikedBy(arr: seq<string>)
      modifies this`likedBy
      ensures likedBy == arr
    {
      likedBy := arr;
    }

    /** `dao.updateItemDislikes(id, delta)`: adds `delta` to `dislikes`. */
    method UpdateItemDislikes(delta: int)
      modifies this`dislikes
      ensures dislikes == old(dislikes) + delta
    {
      dislikes := dislikes + delta;
    }

    /** `dao.addItemDislikedBy(names, id)`: appends `names` to `disliked_by`. */
    method AddItemDislikedBy(names: seq<string>)
      modifies this`dislikedBy
      ensures dislikedBy == old(dislikedBy) + names
    {
      dislikedBy := dislikedBy + names;
    }

    /** `dao.removeItemDislikedBy(arr, id)`: replaces `disliked_by` with `arr`. */
    method RemoveItemDislikedBy(arr: seq<string>)
      modifies this`dislikedBy
      ensures dislikedBy == arr
    {
      dislikedBy := arr;
    }

    /** `dao.addCommentToVibeCheck(id, comment)`: appends `comment`. */
    method AddCommentToVibeCheck(comment: Comment)
      modifies this`comments
      ensures comments == old(comments) + [comment]
    {
      comments := comments + [comment];
    }

    /** The reaction part of `likeOrDislike` once the request is validated:
        it settles the two deltas and the removal array from the lists as
        read, then issues the counter write and the list write of the
        requested kind only. */
    method ApplyReaction(username: string, kind: Kind) returns (r: Response<ReactionUpdate>)
      modifies this`likes, this`dislikes, this`likedBy, this`dislikedBy
      ensures ReactionState() == Toggle(old(ReactionState()), username, kind)
      ensures r == Response(200, Success, None, Some(
        if kind == Like then ReactionUpdate(likes, likedBy) else ReactionUpdate(dislikes, dislikedBy)))
    {
      var likeValue := 1;
      var dislikeValue := 1;
      var updatedArray: seq<string> := [];
      if username in likedBy {
        likeValue := -1;
        updatedArray := Without(likedBy, username);
      }
      if username in dislikedBy {
        dislikeValue := -1;
        updatedArray := Without(dislikedBy, username);
      }
      assert Plan(likeValue, dislikeValue, updatedArray) == PlanFor(ReactionState(), username);
      if kind == Like {
        UpdateItemLikes(likeValue);
        if likeValue == 1 {
          AddItemLikedBy([username]);
        } else {
          RemoveItemLikedBy(updatedArray);
        }
        r := Response(200, Success, None, Some(ReactionUpdate(likes, likedBy)));
      } else {
        UpdateItemDislikes(dislikeValue);
        if dislikeValue == 1 {
          AddItemDislikedBy([username]);
        } else {
          RemoveItemDislikedBy(updatedArray);
        }
        r := Response(200, Success, None, Some(ReactionUpdate(dislikes, dislikedBy)));
      }
    }
  }

  /** The validations of `createVibeCheck`, in order; the message of the
      first one that fails. Every failure is answered with 401 "fail". */
  function CreateVibeCheckRejection(userId: Value, review: Value, rating: Value, albumId: Value): (r: Option<string>)
    ensures r == None <==>
      && Truthy(userId)
      && review.Str? && !AllWhitespace(review.s)
      && rating.Num? && 1 <= rating.n <= 5
      && albumId.Obj?
    ensures !Truthy(userId) ==> r == Some(NoUserIdMessage)
    ensures Truthy(userId) && !(review.Str? && review.s != "") ==> r == Some("Review can't be non string or missing")
    ensures Truthy(userId) && review.Str? && review.s != "" && AllWhitespace(review.s) ==> r == Some("Review can't be empty")
    ensures Truthy(userId) && review.Str? && !AllWhitespace(review.s) && !(rating.Num? && rating.n != 0) ==>
      r == Some("Rating can't be non number or missing")
    ensures Truthy(userId) && review.Str? && !AllWhitespace(review.s) && rating.Num? && rating.n != 0 && !(1 <= rating.n <= 5) ==>
      r == Some("Rating has to be 1-5")
    ensures Truthy(userId) && review.Str? && !AllWhitespace(review.s) && rating.Num? && 1 <= rating.n <= 5 && !albumId.Obj? ==>
      r == Some("Album_id cant be non object or missing")
  {
    if !Truthy(userId) then Some(NoUserIdMessage)
    else if !review.Str? || !Truthy(review) then Some("Review can't be non string or missing")
    else if (TrimEmptyIff(review.s); Trim(review.s) == "") then Some("Review can't be empty")
    else if !rating.Num? || !Truthy(rating) then Some("Rating can't be non number or missing")
    else if rating.n < 0 || rating.n >= 6 then Some("Rating has to be 1-5")
    else if !IsObjectType(albumId) || !Truthy(albumId) then Some("Album_id cant be non object or missing")
    else None
  }

  /** The rating check admits exactly the integers 1 to 5: zero is caught
      as "missing", the rest by the range test. */
  lemma RatingAcceptedIffOneToFive(userId: Value, review: string, rating: int, albumId: Value)
    requires Truthy(userId) && !AllWhitespace(review) && albumId.Obj?
    ensures CreateVibeCheckRejection(userId, Str(review), Num(rating), albumId) == None <==> 1 <= rating <= 5
    ensures rating == 0 ==> CreateVibeCheckRejection(userId, Str(review), Num(rating), albumId) == Some("Rating can't be non number or missing")
    ensures rating < 0 || rating >= 6 ==> CreateVibeCheckRejection(userId, Str(review), Num(rating), albumId) == Some("Rating has to be 1-5")
  {
    TrimEmptyIff(review);
  }

  /** The record `createVibeCheck` stores: no likes, no dislikes, empty
      lists and no comments. */
  function NewVibeCheck(vibeCheckId: string, userId: Value, username: string, albumId: Value,
                        review: string, rating: int, timestamp: int): (rec: PostRecord)
    ensures rec.likes == 0 && rec.dislikes == 0
    ensures rec.likedBy == [] && rec.dislikedBy == [] && rec.comments == []
    ensures rec.vibeCheckId == vibeCheckId && rec.userId == userId && rec.username == username
    ensures rec.albumId == albumId && rec.review == review && rec.rating == rating && rec.timestamp == timestamp
  {
    PostRecord(vibeCheckId, userId, username, albumId, review, rating, [], 0, 0, [], [], timestamp)
  }

  /** `getVibeCheckById`, given what `dao.getItemById` found. */
  function GetVibeCheckById(userId: Value, vibeCheckId: string, item: Option<PostRecord>): (r: Response<PostRecord>)
    ensures r.status == Success <==> Truthy(userId) && vibeCheckId != "" && item.Some?
    ensures r.status == Success ==> r == Response(200, Success, None, item)
    ensures r.status == Fail ==> r.httpStatus == 401 && r.payload == None
    ensures !Truthy(userId) ==> r == Reply(401, Fail, NoUserIdMessage)
    ensures Truthy(userId) && vibeCheckId == "" ==> r == Reply(401, Fail, EmptyIdMessage)
    ensures Truthy(userId) && vibeCheckId != "" && item.None? ==> r == Reply(401, Fail, "Couldn't get vibeCheck")
  {
    if !Truthy(userId) then Reply(401, Fail, NoUserIdMessage)
    else if vibeCheckId == "" then Reply(401, Fail, EmptyIdMessage)
    else if item.None? then Reply(401, Fail, "Couldn't get vibeCheck")
    else Response(200, Success, None, item)
  }

  /** `getAllVibeChecks`, given the items `dao.getAllItems` returned. */
  function GetAllVibeChecks(userId: Value, items: seq<PostRecord>): (r: Response<seq<PostRecord>>)
    ensures r.status == Success <==> Truthy(userId) && items != []
    ensures r.status == Success ==> r == Response(200, Success, None, Some(items))
    ensures r.status == Fail ==> r.httpStatus == 401 && r.payload == None
    ensures !Truthy(userId) ==> r == Reply(401, Fail, NoUserIdMessage)
    ensures Truthy(userId) && items == [] ==> r == Reply(401, Fail, "VibeChecks couldn't be retrieved")
  {
    if !Truthy(userId) then Reply(401, Fail, NoUserIdMessage)
    else if |items| == 0 then Reply(401, Fail, "VibeChecks couldn't be retrieved")
    else Response(200, Success, None, Some(items))
  }

  /** The validations of `deleteVibeCheck` made before the delete. */
  function DeleteVibeCheckRejection(userId: Value, vibeCheckId: string): (r: Option<string>)
    ensures r == None <==> Truthy(userId) && vibeCheckId != ""
    ensures !Truthy(userId) ==> r == Some(NoUserIdMessage)
    ensures Truthy(userId) && vibeCheckId == "" ==> r == Some(EmptyIdMessage)
  {
    if !Truthy(userId) then Some(NoUserIdMessage)
    else if vibeCheckId == "" then Some(EmptyIdMessage)
    else None
  }

  /** The validations of `likeOrDislike`, in order, given what the store
      holds under the vibe_check_id; the message of the first one that
      fails. Every failure is answered with 401 "fail". The request kind
      must be exactly "like" or "dislike": it is not trimmed for this test. */
  function LikeOrDislikeRejection(userId: Value, vibeCheckId: string, kind: string, item: Option<PostRecord>): (r: Option<string>)
    ensures r == None <==>
      && Truthy(userId)
      && !AllWhitespace(vibeCheckId)
      && item.Some?
      && (kind == "like" || kind == "dislike")
    ensures !Truthy(userId) ==> r == Some(NoUserIdMessage)
    ensures Truthy(userId) && AllWhitespace(kind) ==> r == Some("like or dislike can't be empty")
    ensures Truthy(userId) && !AllWhitespace(kind) && AllWhitespace(vibeCheckId) ==> r == Some(EmptyIdMessage)
    ensures Truthy(userId) && !AllWhitespace(kind) && !AllWhitespace(vibeCheckId) && item.None? ==>
      r == Some("VibeCheck doesn't exist")
    ensures Truthy(userId) && !AllWhitespace(kind) && !AllWhitespace(vibeCheckId) && item.Some? && kind != "like" && kind != "dislike" ==>
      r == Some("type must be like or dislike")
  {
    TrimEmptyIff(kind);
    TrimEmptyIff(vibeCheckId);
    if !Truthy(userId) then Some(NoUserIdMessage)
    else if kind == "" || Trim(kind) == "" then Some("like or dislike can't be empty")
    else if Trim(vibeCheckId) == "" then Some(EmptyIdMessage)
    else if GetVibeCheckById(userId, vibeCheckId, item).status != Success then Some("VibeCheck doesn't exist")
    else if kind != "like" && kind != "dislike" then Some("type must be like or dislike")
    else None
  }

  /** A kind with surrounding whitespace passes the emptiness test but
      fails the exact-match test. */
  lemma PaddedKindRejected(userId: Value, vibeCheckId: string, item: PostRecord)
    requires Truthy(userId) && !AllWhitespace(vibeCheckId)
    ensures LikeOrDislikeRejection(userId, vibeCheckId, " like", Some(item)) == Some("type must be like or dislike")
  {
    TrimEmptyIff(vibeCheckId);
    assert " like"[1..] == "like";
    assert TrimStart(" like") == TrimStart("like");
    TrimOfTrimmed("like");
    assert Trim(" like") == "like";
  }

  /** The two accepted kinds have no surrounding whitespace, so the branch
      tests `type.trim() == "like"` and `type.trim() == "dislike"` see them
      unchanged. */
  lemma KindsAreTrimmed()
    ensures Trim("like") == "like" && Trim("dislike") == "dislike"
  {
  }

  /** The request kind a validated `type` selects. */
  function KindOf(kind: string): Kind {
    if kind == "like" then Like else Dislike
  }

  /** `getVibeChecksByUserId`, given the user directory and the items
      `dao.getItemsByUserId` returned. */
  function GetVibeChecksByUserId(userId: Value, targetUserId: Value, users: seq<User>, items: seq<PostRecord>): (r: Response<seq<PostRecord>>)
    ensures r.status == Success <==> Truthy(userId) && Truthy(targetUserId) && ById(users, targetUserId) != [] && items != []
    ensures r.status == Success ==> r == Response(200, Success, None, Some(items))
    ensures r.status == Fail ==> r.httpStatus == 401 && r.payload == None
    ensures !Truthy(userId) ==> r == Reply(401, Fail, NoUserIdMessage)
    ensures Truthy(userId) && ById(users, targetUserId) == [] ==> r.status == Fail
    ensures Truthy(userId) && !Truthy(targetUserId) ==> r == Reply(401, Fail, "No target user_id was provided")
    ensures Truthy(userId) && Truthy(targetUserId) && ById(users, targetUserId) == [] ==>
      r == Reply(401, Fail, "No user was found with that id")
    ensures Truthy(userId) && Truthy(targetUserId) && ById(users, targetUserId) != [] && items == [] ==>
      r == Reply(401, Fail, "VibeChecks for target_user_id couldn't be retrieved")
  {
    if !Truthy(userId) then Reply(401, Fail, NoUserIdMessage)
    else if !Truthy(targetUserId) then Reply(401, Fail, "No target user_id was provided")
    else if |ById(users, targetUserId)| == 0 then Reply(401, Fail, "No user was found with that id")
    else if |items| == 0 then Reply(401, Fail, "VibeChecks for target_user_id couldn't be retrieved")
    else Response(200, Success, None, Some(items))
  }

  /** `getVibeChecksByUsername`, given the user directory and the items
      `dao.getItemsByUsername` returned. */
  function GetVibeChecksByUsername(userId: Value, targetUsername: Value, users: seq<User>, items: seq<PostRecord>): (r: Response<seq<PostRecord>>)
    ensures r.status == Success <==> Truthy(userId) && Truthy(targetUsername) && ByUsername(users, targetUsername) != [] && items != []
    ensures r.status == Success ==> r == Response(200, Success, None, Some(items))
    ensures r.status == Fail ==> r.httpStatus == 401 && r.payload == None
    ensures !Truthy(userId) ==> r == Reply(401, Fail, NoUserIdMessage)
    ensures Truthy(userId) && !Truthy(targetUsername) ==> r == Reply(401, Fail, "No target username was provided")
    ensures Truthy(userId) && Truthy(targetUsername) && ByUsername(users, targetUsername) == [] ==>
      r == Reply(401, Fail, "No user was found with that username")
    ensures Truthy(userId) && Truthy(targetUsername) && ByUsername(users, targetUsername) != [] && items == [] ==>
      r == Reply(401, Fail, "VibeChecks for target_username couldn't be retrieved")
  {
    if !Truthy(userId) then Reply(401, Fail, NoUserIdMessage)
    else if !Truthy(targetUsername) then Reply(401, Fail, "No target username was provided")
    else if |ByUsername(users, targetUsername)| == 0 then Reply(401, Fail, "No user was found with that username")
    else if |items| == 0 then Reply(401, Fail, "VibeChecks for target_username couldn't be retrieved")
    else Response(200, Success, None, Some(items))
  }

  /** The keys `deleteAllVibeChecksByUserId` hands to the batch delete: the
      vibe_check_id of every returned post, in order. */
  function VibeCheckKeys(items: seq<PostRecord>): (keys: seq<string>)
    ensures |keys| == |items|
    ensures forall i :: 0 <= i < |items| ==> keys[i] == items[i].vibeCheckId
  {
    seq(|items|, i requires 0 <= i < |items| => items[i].vibeCheckId)
  }

  /** The vibe-check table. */
  class VibeCheckStore {
    var posts: map<string, Post>

    /** Every key holds a post of its own: no two keys share one `Post`, so
        a write through one key is seen under that key only. */
    ghost predicate Valid()
      reads this
    {
      forall a, b :: a in posts && b in posts && a != b ==> posts[a] != posts[b]
    }

    constructor ()
      ensures posts == map[] && Valid()
    {
      posts := map[];
    }

    /** What `dao.getItemById(id)` finds. */
    function Lookup(id: string): (found: Option<PostRecord>)
      reads this, posts.Values
      ensures found.Some? <==> id in posts
      ensures found.Some? ==> found.value == posts[id].Record()
    {
      if id in posts then Some(posts[id].Record()) else None
    }

    /** `dao.addItem(record)`: stores a fresh post under its vibe_check_id,
        replacing any post stored under it before. */
    method AddItem(rec: PostRecord)
      modifies this
      requires Valid()
      ensures Valid()
      ensures rec.vibeCheckId in posts && fresh(posts[rec.vibeCheckId])
      ensures posts == old(posts)[rec.vibeCheckId := posts[rec.vibeCheckId]]
      ensures posts[rec.vibeCheckId].Record() == rec
    {
      var p := new Post(rec);
      posts := posts[rec.vibeCheckId := p];
    }

    /** `dao.deleteItem(id)`: removes the post and reports its old
        attributes, if there was one. */
    method DeleteItem(id: string) returns (attributes: Option<PostRecord>)
      modifies this
      requires Valid()
      ensures Valid()
      ensures posts == old(posts) - {id}
      ensures attributes == old(Lookup(id))
    {
      attributes := Lookup(id);
      posts := posts - {id};
    }

    /** `dao.batchDeleteVibeChecks(keys)`: removes every listed post. */
    method BatchDeleteVibeChecks(keys: seq<string>)
      modifies this
      requires Valid()
      ensures Valid()
      ensures posts.Keys == old(posts).Keys - (set k | k in keys)
      ensures forall k :: k in posts ==> posts[k] == old(posts)[k]
    {
      posts := map k | k in posts && k !in keys :: posts[k];
    }

    /** `createVibeCheck`: validates, stores the new record, then reads it
        back through `getVibeCheckById`. */
    method CreateVibeCheck(userId: Value, username: string, albumId: Value, review: Value, rating: Value,
                           vibeCheckId: string, timestamp: int) returns (r: Response<PostRecord>)
      modifies this
      requires Valid()
      ensures Valid()
      ensures var rejection := CreateVibeCheckRejection(userId, review, rating, albumId);
        rejection.Some? ==> r == Reply(401, Fail, rejection.value) && posts == old(posts)
      ensures CreateVibeCheckRejection(userId, review, rating, albumId).None? ==>
        var rec := NewVibeCheck(vibeCheckId, userId, username, albumId, review.s, rating.n, timestamp);
        && vibeCheckId in posts && fresh(posts[vibeCheckId])
        && posts == old(posts)[vibeCheckId := posts[vibeCheckId]]
        && posts[vibeCheckId].Record() == rec
        && r == Response(200, Success, None, if vibeCheckId == "" then None else Some(rec))
    {
      var rejection := CreateVibeCheckRejection(userId, review, rating, albumId);
      if rejection.Some? {
        return Reply(401, Fail, rejection.value);
      }
      var rec := NewVibeCheck(vibeCheckId, userId, username, albumId, review.s, rating.n, timestamp);
      AddItem(rec);
      var created := GetVibeCheckById(userId, vibeCheckId, Lookup(vibeCheckId));
      r := Response(200, Success, None, created.payload);
    }

    /** `createComment`: the vibe check must exist (404), then the user must
        exist (404); otherwise the comment is appended and 201 returned. The
        body itself is not checked. */
    method CreateComment(userId: Value, username: string, vibeCheckId: string, commentBody: Value,
                         users: seq<User>, commentId: string, timestamp: int) returns (r: Response<()>)
      modifies if vibeCheckId in posts then {posts[vibeCheckId]} else {}
      requires Valid()
      ensures forall k :: k in posts && k != vibeCheckId ==> posts[k].Record() == old(posts[k].Record())
      ensures vibeCheckId !in posts ==> r == Reply(404, Fail, "VibeCheck does not exist")
      ensures vibeCheckId in posts && ById(users, userId) == [] ==>
        r == Reply(404, Fail, "User does not exist") && unchanged(posts[vibeCheckId])
      ensures vibeCheckId in posts && ById(users, userId) != [] ==>
        && posts[vibeCheckId].comments == old(posts[vibeCheckId].comments) + [Comment(commentId, userId, username, commentBody, timestamp)]
        && posts[vibeCheckId].ReactionState() == old(posts[vibeCheckId].ReactionState())
        && r == Reply(201, Success, "Comment created successfully")
    {
      var returnedVibeCheck := Lookup(vibeCheckId);
      var returnedUser := ById(users, userId);
      if returnedVibeCheck.None? {
        r := Reply(404, Fail, "VibeCheck does not exist");
      } else if |returnedUser| == 0 {
        r := Reply(404, Fail, "User does not exist");
      } else {
        var comment := Comment(commentId, userId, username, commentBody, timestamp);
        posts[vibeCheckId].AddCommentToVibeCheck(comment);
        r := Reply(201, Success, "Comment created successfully");
      }
    }

    /** `deleteVibeCheck`: validates, deletes, and reports the deleted post
        or a failure when nothing was stored under the id. */
    method DeleteVibeCheck(userId: Value, vibeCheckId: string) returns (r: Response<PostRecord>)
      modifies this
      requires Valid()
      ensures Valid()
      ensures var rejection := DeleteVibeCheckRejection(userId, vibeCheckId);
        rejection.Some? ==> r == Reply(401, Fail, rejection.value) && posts == old(posts)
      ensures DeleteVibeCheckRejection(userId, vibeCheckId).None? ==>
        && posts == old(posts) - {vibeCheckId}
        && r == if vibeCheckId in old(posts) then Response(200, Success, None, Some(old(posts[vibeCheckId].Record())))
                else Reply(401, Fail, "Vibecheck wasn't deleted")
    {
      var rejection := DeleteVibeCheckRejection(userId, vibeCheckId);
      if rejection.Some? {
        return Reply(401, Fail, rejection.value);
      }
      var deleted := DeleteItem(vibeCheckId);
      if deleted.None? {
        r := Reply(401, Fail, "Vibecheck wasn't deleted");
      } else {
        r := Response(200, Success, None, deleted);
      }
    }

    /** `likeOrDislike`: validates, then applies the counter write and the
        list write of the requested kind only, as `Toggle` describes. */
    method LikeOrDislike(userId: Value, username: string, vibeCheckId: string, kind: string)
      returns (r: Response<ReactionUpdate>)
      modifies if vibeCheckId in posts then {posts[vibeCheckId]} else {}
      requires Valid()
      ensures forall k :: k in posts && k != vibeCheckId ==> posts[k].Record() == old(posts[k].Record())
      ensures var rejection := LikeOrDislikeRejection(userId, vibeCheckId, kind, old(Lookup(vibeCheckId)));
        rejection.Some? ==> r == Reply(401, Fail, rejection.value) && (vibeCheckId in posts ==> unchanged(posts[vibeCheckId]))
      ensures LikeOrDislikeRejection(userId, vibeCheckId, kind, old(Lookup(vibeCheckId))).None? ==>
        && vibeCheckId in posts
        && var p := posts[vibeCheckId];
        && p.ReactionState() == Toggle(old(p.ReactionState()), username, KindOf(kind))
        && p.comments == old(p.comments)
        && r == Response(200, Success, None, Some(
             if KindOf(kind) == Like then ReactionUpdate(p.likes, p.likedBy)
             else ReactionUpdate(p.dislikes, p.dislikedBy)))
    {
      var rejection := LikeOrDislikeRejection(userId, vibeCheckId, kind, Lookup(vibeCheckId));
      if rejection.Some? {
        return Reply(401, Fail, rejection.value);
      }
      var p := posts[vibeCheckId];
      KindsAreTrimmed();
      if Trim(kind) == "like" {
        r := p.ApplyReaction(username, Like);
      } else {
        // Here `kind` is "dislike", so the test `type.trim() == "dislike"` holds.
        r := p.ApplyReaction(username, Dislike);
      }
    }

    /** `deleteAllVibeChecksByUserId`: looks the caller's vibe checks up
        through `getVibeChecksByUserId` (caller and target are the same
        user), then batch-deletes their keys. */
    method DeleteAllVibeChecksByUserId(userId: Value, users: seq<User>, items: seq<PostRecord>)
      returns (r: Response<seq<string>>)
      modifies this
      requires Valid()
      ensures Valid()
      ensures !Truthy(userId) ==> r == Reply(401, Fail, NoUserIdMessage) && posts == old(posts)
      ensures Truthy(userId) && (ById(users, userId) == [] || items == []) ==>
        r == Reply(404, Fail, "No vibeChecks returned by getVibeChecksByUserId") && posts == old(posts)
      ensures Truthy(userId) && ById(users, userId) != [] && items != [] ==>
        && r == Response(200, Success, None, Some(VibeCheckKeys(items)))
        && posts.Keys == old(posts).Keys - (set k | k in VibeCheckKeys(items))
        && forall k :: k in posts ==> posts[k] == old(posts)[k]
    {
      if !Truthy(userId) {
        return Reply(401, Fail, NoUserIdMessage);
      }
      var vibeChecks := GetVibeChecksByUserId(userId, userId, users, items);
      if vibeChecks.payload.None? || |vibeChecks.payload.value| == 0 {
        return Reply(404, Fail, "No vibeChecks returned by getVibeChecksByUserId");
      }
      var keys := VibeCheckKeys(vibeChecks.payload.value);
      BatchDeleteVibeChecks(keys);
      r := Response(200, Success, None, Some(keys));
    }
  }
}
