/** `getFriendsByUsername`: lists the friendships of the user with a given
    username, by a status that defaults to "accepted" and is not checked. */
module RetrieveFriendsByUsernameService {
  import opened JsValues
  import opened Envelope
  import opened Users
  import opened Friendships

  const UsernameRequiredMessage := "invalid -username of type string is required"

  /** The status the function works with: the parameter default
      "accepted" replaces an undefined argument only. */
  function EffectiveStatus(status: Value): (s: Value)
    ensures status != Undefined ==> s == status
    ensures status == Undefined ==> s == Str("accepted")
  {
    if status.Undefined? then Str("accepted") else status
  }

  /** A missing, empty or non-string username is refused before any lookup;
      an unknown username is a 404 whose status is "success"; otherwise the
      friendships are queried by the user_id of the first user with that
      username and the status as given; an empty result is a success without
      a list, any other result is copied whole, in order, with its count and
      the status in the message. */
  method GetFriendsByUsername(username: Value, status: Value, users: seq<User>, edges: seq<Friendship>)
    returns (r: Response<seq<Friendship>>)
    ensures !(username.Str? && username.s != "") ==> r == Reply(400, Fail, UsernameRequiredMessage)
    ensures username.Str? && username.s != "" && ByUsername(users, username) == [] ==>
      r == Reply(404, Success, "user " + username.s + " not found")
    ensures username.Str? && username.s != "" && ByUsername(users, username) != [] ==>
      && FirstNamed(users, username) < |users|
      && var userId := users[FirstNamed(users, username)].userId;
      var items := ByStatus(edges, userId, EffectiveStatus(status));
      && (items == [] ==> r == Reply(200, Success, "no friends found"))
      && (items != [] ==> r == Response(200, Success, Some(CountMessage(|items|, Display(EffectiveStatus(status)))), Some(items)))
  {
    var status := EffectiveStatus(status);
    if !Truthy(username) || !username.Str? {
      return Reply(400, Fail, UsernameRequiredMessage);
    }
    var returnedUser := ByUsername(users, username);
    if |returnedUser| == 0 {
      return Reply(404, Success, "user " + username.s + " not found");
    }
    var userId := returnedUser[0].userId;
    var retrieved := ByStatus(edges, userId, status);
    if |retrieved| == 0 {
      return Reply(200, Success, "no friends found");
    }
    var friendList := CopyFriendList(retrieved);
    r := Response(200, Success, Some(CountMessage(|retrieved|, Display(status))), Some(friendList));
  }
}
