# VibeBuddies backend core, modelled in Dafny

This project models three pieces of the VibeBuddies backend, a service where
users post reviews of albums ("vibe checks"), react to them with likes and
dislikes, comment on them and keep friend lists.

- **The like/dislike toggle** (`likeOrDislike`). A request of kind "like" or
  "dislike" reads the post's `liked_by` and `disliked_by` lists. It settles a
  ±1 delta per kind and one replacement array. Then it writes the counter and
  the list of the requested kind only. `ReactionToggle.Toggle` is the state
  transition as a function. `VibeCheckService.Post.ApplyReaction` performs it
  step by step on a `Post` object through the DAO calls. The lemmas of
  `ReactionToggle` state what follows from it:
  - it is a true toggle for a user in neither list;
  - there is no mutual exclusion: a user can end up in both lists;
  - when the user is in both lists, an un-like writes `disliked_by` minus the
    user into `liked_by`, because the array computed second overwrites the first;
  - counters stay equal to list lengths except in that case, and a concrete
    four-step trace from a fresh post breaks the equality.
- **The guard chains of the vibe-check service.** Every operation runs ordered
  checks, and the first one that fails decides the reply. The reply is the
  `dataResponse(httpStatus, status, data)` envelope (`Envelope.Response`).
  Each chain is a function of the inputs and of what the DAO lookups found.
  Its contract states when the request is accepted, as an if-and-only-if, and
  for every check the message it produces when all earlier checks pass. The operations that change the
  table are methods of `VibeCheckStore`: create, comment, like/dislike,
  delete, delete-all. The table is a map from vibe_check_id to `Post` objects.
- **The friend-list projections** (`retrieveAllFriendsByStatus`,
  `getFriendsByUsername`). Each validates its input and resolves the user. It
  queries the friendship table and copies the result into `friendList`, in a
  loop, with a count message.

Inputs from tokens and request bodies are JavaScript values
(`JsValues.Value`), so `!x`, `typeof x` and `x.trim()` are modelled exactly.
Route parameters (`vibe_check_id`, `type`) are strings. `String.prototype.trim`
removes exactly ECMAScript's whitespace and line-terminator characters.
`uuid.v4()` and `Date.now()` are parameters of the methods that use them.
The user directory is a `seq<User>` parameter, and so is the friendship
table. The results of the list queries (`getItemsByUserId`, and the like) are
parameters too.

Three things the code does not enforce, and the model follows the code:
- A user can both like and dislike the same post: nothing makes the two
  reactions exclusive (`ReactionToggle.LikeThenDislikeKeepsBoth`).
- A counter can drift from the length of its list
  (`ReactionToggle.ConsistencyBreaksFromFreshPost`).
- A comment body is stored without any check, so an empty comment is
  accepted.

## Model

| member | source | states |
|---|---|---|
| `JsValues.Truthy` | services/vibeCheckService.js:16 | `!v` holds exactly for the falsy values: undefined, null, false, 0 and the empty string |
| `JsValues.Trim` | services/vibeCheckService.js:25 | `trim` removes leading and trailing whitespace only: the result is no longer than the input and neither starts nor ends with whitespace |
| `JsValues.TrimStartRemovesPrefix` | services/vibeCheckService.js:25 | the leading part `trim` drops is whitespace only and what is left is the rest of the string, unchanged |
| `JsValues.TrimEndRemovesSuffix` | services/vibeCheckService.js:25 | the trailing part `trim` drops is whitespace only and what is left is the start of the string, unchanged |
| `JsValues.TrimEmptyIff` | services/vibeCheckService.js:25-27 | `s.trim() == ""` holds exactly when every character of `s` is whitespace |
| `JsValues.TrimOfTrimmed` | services/vibeCheckService.js:293 | a string without surrounding whitespace trims to itself, so `type.trim() == "like"` holds for the exact kind "like" |
| `JsValues.NatToStringRoundTrip` | services/retrieveAllFriendsByStatusService.js:49 | the decimal text the count message shows reads back to the count |
| `JsValues.Display` | server/services/retrieveFriendsByUsernameService.js:51 | `${v}` renders a string as itself, a non-negative integer as its decimal text, a negative one with a leading "-", and an object as "[object Object]" |
| `Users.ById` | services/vibeCheckService.js:369-370 | the lookup by id returns exactly the directory's users with that id |
| `Users.ByUsername` | server/services/retrieveFriendsByUsernameService.js:20-27 | the lookup by username returns exactly the users with that name, and its first item is the first such user in the directory |
| `Users.FirstNamed` | server/services/retrieveFriendsByUsernameService.js:27 | the index of the first user with the name: no earlier user has it |
| `ReactionToggle.Without` | services/vibeCheckService.js:281-283 | the filter drops every occurrence of the username and keeps every other name with its multiplicity |
| `ReactionToggle.WithoutConcat` | services/vibeCheckService.js:281-283 | the filter works element by element and keeps order: filtering a concatenation is the concatenation of the filtered parts |
| `ReactionToggle.PlanFor` | services/vibeCheckService.js:276-290 | each delta is -1 exactly when its list already holds the username, +1 otherwise; the removal array is `disliked_by` minus the username whenever the name is disliked, overriding the one computed from `liked_by` |
| `ReactionToggle.Toggle` | services/vibeCheckService.js:293-341 | a like request leaves `dislikes`/`disliked_by` unchanged and moves `likes` by the like delta; a dislike request is the mirror |
| `ReactionToggle.LikeWhenAbsent` | services/vibeCheckService.js:279-284 | a like by a username not in `liked_by` adds 1 to `likes`, appends the username and changes nothing else |
| `ReactionToggle.LikeWhenPresent` | services/vibeCheckService.js:293-307 | a like by a username in `liked_by` and not in `disliked_by` takes 1 from `likes`, sets `liked_by` to its order-preserving filter without the username (every other name kept with its multiplicity) and leaves the dislike fields |
| `ReactionToggle.DislikeWhenAbsent` | services/vibeCheckService.js:285-290 | the mirror for dislikes: a dislike by a username not in `disliked_by` adds 1 and appends |
| `ReactionToggle.DislikeWhenPresent` | services/vibeCheckService.js:317-333 | a dislike by a username in `disliked_by` takes 1 away and sets `disliked_by` to its order-preserving filter without the name, whether or not the name is also in `liked_by` |
| `ReactionToggle.LikeThenDislikeKeepsBoth` | services/vibeCheckService.js:293-341 | there is no mutual exclusion: like then dislike leaves the username in both lists with both counters raised by one |
| `ReactionToggle.LikeTwiceRestores` | services/vibeCheckService.js:279-307 | for a username in neither list, two likes restore `likes` and `liked_by` exactly |
| `ReactionToggle.DislikeTwiceRestores` | services/vibeCheckService.js:285-333 | for a username in neither list, two dislikes restore `dislikes` and `disliked_by` exactly |
| `ReactionToggle.UnlikeWritesDislikedBy` | services/vibeCheckService.js:278-290 | for a username in both lists, the removal array is `disliked_by` minus the username, and an un-like writes it into `liked_by` |
| `ReactionToggle.UnlikeStaleArrayExample` | services/vibeCheckService.js:303-306 | concretely, alice in both lists and bob only disliking: alice's un-like leaves `liked_by` equal to ["bob"] |
| `ReactionToggle.ToggleKeepsConsistent` | services/vibeCheckService.js:276-341 | if every counter equals its list's length and no list has a repeated name, every request keeps this, except an un-like by a username in both lists (a dislike by such a username keeps it) |
| `ReactionToggle.ConsistencyBreaksFromFreshPost` | services/vibeCheckService.js:44-57 | from a new post, the requests "alice likes, alice dislikes, bob dislikes, alice likes" reach a state with `liked_by` = ["bob"] and `likes` = 0 |
| `VibeCheckService.Post.constructor` | services/vibeCheckService.js:58 | `dao.addItem` stores a post whose fields are exactly the given record |
| `VibeCheckService.Post.UpdateItemLikes` | services/vibeCheckService.js:295-298 | `updateItemLikes(d)` adds `d` to `likes` and changes no other field |
| `VibeCheckService.Post.AddItemLikedBy` | services/vibeCheckService.js:300-301 | `addItemLikedBy([u])` appends to `liked_by` only |
| `VibeCheckService.Post.RemoveItemLikedBy` | services/vibeCheckService.js:302-306 | `removeItemLikedBy(arr)` replaces `liked_by` with `arr` only |
| `VibeCheckService.Post.UpdateItemDislikes` | services/vibeCheckService.js:319-322 | the dislike counter write, mirroring `updateItemLikes` |
| `VibeCheckService.Post.AddItemDislikedBy` | services/vibeCheckService.js:323-327 | the dislike append, mirroring `addItemLikedBy` |
| `VibeCheckService.Post.RemoveItemDislikedBy` | services/vibeCheckService.js:328-332 | the dislike replacement, mirroring `removeItemLikedBy` |
| `VibeCheckService.Post.AddCommentToVibeCheck` | services/vibeCheckService.js:101 | appends one comment to `comments` and changes no other field |
| `VibeCheckService.Post.ApplyReaction` | services/vibeCheckService.js:276-341 | after validation, the post's reaction fields become `Toggle` of their old values, and the reply is 200 "success" with the updated counter and list of the requested kind |
| `VibeCheckService.CreateVibeCheckRejection` | services/vibeCheckService.js:16-40 | a create request passes every check exactly when `user_id` is truthy, the review is a string with a non-whitespace character, the rating is a number from 1 to 5 and `album_id` is a non-null object; each of the six checks, in source order, gives its own message when every earlier one passes |
| `VibeCheckService.RatingAcceptedIffOneToFive` | services/vibeCheckService.js:29-36 | given the other fields valid, an integer rating passes exactly when it is 1 to 5; 0 fails as "missing", the rest as out of range |
| `VibeCheckService.NewVibeCheck` | services/vibeCheckService.js:44-57 | a new post carries the given id, author, album, review, rating and timestamp, with no likes, no dislikes, empty lists and no comments |
| `VibeCheckService.GetVibeCheckById` | services/vibeCheckService.js:160-174 | success exactly when `user_id` is truthy, the id is non-empty and the post exists, and then the payload is the post; every failure is 401 without payload, with the message of the first failing check: no user_id, empty id, "Couldn't get vibeCheck" |
| `VibeCheckService.GetAllVibeChecks` | services/vibeCheckService.js:190-203 | success exactly when `user_id` is truthy and some post is returned, and then the payload is all of them; failures are 401 with the no-user_id message, else "VibeChecks couldn't be retrieved" |
| `VibeCheckService.DeleteVibeCheckRejection` | services/vibeCheckService.js:220-227 | a delete request passes the checks exactly when `user_id` is truthy and the id is non-empty; the no-user_id message comes first, then "vibe_check_id can't be empty" |
| `VibeCheckService.LikeOrDislikeRejection` | services/vibeCheckService.js:252-273 | a reaction request passes exactly when `user_id` is truthy, the id has a non-whitespace character, the post exists and `type` is exactly "like" or "dislike"; each check (no user_id, empty `type`, empty id, missing post, wrong `type`) gives its message when every earlier one passes |
| `VibeCheckService.PaddedKindRejected` | services/vibeCheckService.js:270-273 | `type` " like" passes the emptiness test but is refused as "type must be like or dislike", because the exact-match test does not trim |
| `VibeCheckService.KindsAreTrimmed` | services/vibeCheckService.js:293-319 | the accepted kinds "like" and "dislike" are their own trim, so the branch tests on `type.trim()` select the kind the request named |
| `VibeCheckService.GetVibeChecksByUserId` | services/vibeCheckService.js:361-383 | success exactly when both ids are truthy, the target user exists and has posts, and then the payload is the returned posts; failures are 401 with the message of the first failing check: no user_id, no target, no such user, no posts |
| `VibeCheckService.GetVibeChecksByUsername` | services/vibeCheckService.js:400-422 | the same decision with the target looked up by username, each failing check giving its own message: no user_id, no target username, no such user, no posts |
| `VibeCheckService.VibeCheckKeys` | services/vibeCheckService.js:447-449 | the key list has one entry per returned post, in order, each that post's vibe_check_id |
| `VibeCheckService.VibeCheckStore.Lookup` | services/vibeCheckService.js:80 | `dao.getItemById` finds a post exactly when the id is stored, and then reports that post's current fields |
| `VibeCheckService.VibeCheckStore.AddItem` | services/vibeCheckService.js:58 | stores a fresh post with the record under its id, changes no other key, and keeps every key holding a post of its own |
| `VibeCheckService.VibeCheckStore.DeleteItem` | services/vibeCheckService.js:228-229 | removes the key and reports the old record, absent when nothing was stored |
| `VibeCheckService.VibeCheckStore.BatchDeleteVibeChecks` | services/vibeCheckService.js:450 | removes exactly the listed keys and leaves every other post in place |
| `VibeCheckService.VibeCheckStore.CreateVibeCheck` | services/vibeCheckService.js:7-66 | a refused request gets 401 with the first failing check's message and leaves the table unchanged; an accepted one stores the new record under the given id, changing no other key, and replies 200 with the record read back |
| `VibeCheckService.VibeCheckStore.CreateComment` | services/vibeCheckService.js:80-106 | a missing vibe check gives 404 before a missing user gives 404; otherwise the comment with the given id, user_id, username, body and timestamp is appended, reactions stay, and the reply is 201 "success"; the body is not checked; no other stored post changes |
| `VibeCheckService.VibeCheckStore.DeleteVibeCheck` | services/vibeCheckService.js:220-234 | a refused request changes nothing; an accepted one removes the key and replies 200 with the deleted post, or 401 when none was stored |
| `VibeCheckService.VibeCheckStore.LikeOrDislike` | services/vibeCheckService.js:252-341 | a refused request gets 401 with the first failing check's message and leaves the post unchanged; an accepted one applies `Toggle` of the requested kind to that post, keeping its comments; no other stored post changes |
| `VibeCheckService.VibeCheckStore.DeleteAllVibeChecksByUserId` | services/vibeCheckService.js:438-451 | a missing `user_id` gives 401; an unknown user or no posts gives 404; otherwise exactly the returned posts' keys are deleted, in order, and reported with 200 |
| `Friendships.ByStatus` | services/retrieveAllFriendsByStatusService.js:28 | the friendship query returns exactly the user's rows whose status equals the given one |
| `Friendships.CopyFriendList` | services/retrieveAllFriendsByStatusService.js:37-47 | the push loop yields every returned item, in the same order |
| `Friendships.CountMessage` | services/retrieveAllFriendsByStatusService.js:49 | the count message starts with the decimal text of the count, which reads back to the count, and ends with the status |
| `RetrieveAllFriendsByStatusService.RetrieveAllFriendsByStatus` | services/retrieveAllFriendsByStatusService.js:14-50 | a missing or non-string status is 400 "fail" and queries nothing; the trimmed status must be "accepted" or "pending" (else 400), and the query uses the trimmed status; an empty result is 200 "success" with "no friends with status: <status>" and no list; otherwise the list is every item in order and the message gives the count and status |
| `RetrieveAllFriendsByStatusService.PaddedStatusAccepted` | services/retrieveAllFriendsByStatusService.js:19-25 | " pending " trims to "pending", so it is accepted and queried as "pending" |
| `RetrieveFriendsByUsernameService.EffectiveStatus` | server/services/retrieveFriendsByUsernameService.js:5 | the status defaults to "accepted" only when the argument is undefined, and is otherwise passed on unchanged and unchecked |
| `RetrieveFriendsByUsernameService.GetFriendsByUsername` | server/services/retrieveFriendsByUsernameService.js:15-52 | a missing or non-string username is 400 "fail" before any lookup; an unknown username is 404 with status "success"; friends are queried by the user_id of the first user with the name; no friends gives 200 "no friends found" without a list; otherwise the list is every item in order and the message gives the count and status |

## Left out

- `removeComment` (services/vibeCheckService.js:116-150): deletion and any authorship check happen inside the DAO's `deleteComment`, which is not part of this model. Its only guard compares the DAO's reply object with 1, and its failure paths return `undefined`.
- The friendship request, accept and delete transitions: they are not in the modelled files. `controllers/deleteFriendsController.js` only forwards a request to `deleteFriend`, which is not part of this model.
- DAO internals (`vibeCheckDAO`, `userDAO`, `friendshipDAO`): each call is a store method or a query function with the meaning stated on it.
- Concurrency: the separate counter and list writes of lines 295-307 run one after the other on one snapshot. The two reads at lines 265 and 275 collapse to one. Interleavings are not modelled.
- Exceptions: the catch-and-rethrow blocks, logging, and the 500 reply of `createComment`'s catch block.
- Replies that the in-memory store cannot produce: "like didn't go through" and "dislike didn't go through" (lines 308-311, 334-337), `createComment` returning `undefined` when the append reports nothing (line 103), and the "couldn't be retrieve" reply of `createVibeCheck` (line 61). The store always reports the attributes of an existing post, and `getVibeCheckById` always returns an envelope.
- VibeCheckService.VibeCheckStore.CreateComment: reads the replies of `getItemById` and `findUserById` at lines 80-88 as found or absent. Whether the DAO reply for an absent entity is falsy, or an object with an empty `Item`/`Items` as lines 169 and 370 read it, depends on the DAO.
- VibeCheckService.VibeCheckStore.DeleteAllVibeChecksByUserId: takes the result of `dao.getItemsByUserId` as a parameter instead of deriving it from the table, so it promises that exactly the returned keys are deleted, not that every post of the user is gone. The query's order has no counterpart in a map.
- VibeCheckService.VibeCheckStore.DeleteAllVibeChecksByUserId: reports the key list handed to the batch delete in place of the DAO's `batchResult`, whose contents are not part of this model.
- VibeCheckService.Post.ApplyReaction: reports the updated counter and list of the requested kind in place of the DAO's returned `Attributes`.
- Floating point: ratings and counts are integers, so a rating such as 2.5, or NaN, is not modelled.
- JsValues.Display: renders every object as "[object Object]", which is wrong for arrays (JavaScript renders `${["a","b"]}` as "a,b"). The services never display one: an array status matches no friendship row, so the count message is never built with it.
- `Count` of a query result is taken to equal the length of its `Items`.
- Friendship rows carry only the user id, the friend's name and the status. Other columns are not modelled.
- The token's `username` is a string. A missing username in the token is not modelled.
