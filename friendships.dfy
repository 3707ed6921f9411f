/** The friendship table as the two friend-list services see it: a query by
    user and status, and the copy of its result into `friendList`. */
module Friendships {
  import opened JsValues

  /** A friendship row. Only the fields the query selects on, and the
      friend's name, are modelled. */
  datatype Friendship = Friendship(userId: string, friendUsername: string, status: string)

  /** `friendshipDAO.retrieveAllFriendsByStatus(userId, status).Items`: the
      user's friendships whose status equals `status`, in table order. */
  function ByStatus(edges: seq<Friendship>, userId: string, status: Value): (r: seq<Friendship>)
    ensures |r| <= |edges|
    ensures forall e :: e in r <==> e in edges && e.userId == userId && Str(e.status) == status
  {
    if edges == [] then []
    else if edges[0].userId == userId && Str(edges[0].status) == status then [edges[0]] + ByStatus(edges[1..], userId, status)
    else ByStatus(edges[1..], userId, status)
  }

  /** The loop that pushes a copy of every returned item onto `friendList`. */
  method CopyFriendList(items: seq<Friendship>) returns (friendList: seq<Friendship>)
    ensures friendList == items
  {
    friendList := [];
    var i := 0;
    while i < |items|
      invariant 0 <= i <= |items|
      invariant friendList == items[..i]
    {
      friendList := friendList + [items[i]];
      i := i + 1;
    }
  }

  /** `${Count} items found with status ${status}`. */
  function CountMessage(count: nat, status: string): (m: string)
    ensures |m| > |status|
    ensures m[|m| - |status|..] == status
    ensures var digits := NatToString(count);
      |digits| < |m| && m[..|digits|] == digits && DecimalValue(digits) == count
  {
    NatToStringRoundTrip(count);
    var m := NatToString(count) + " items found with status " + status;
    assert m[..|NatToString(count)|] == NatToString(count);
    assert m[|m| - |status|..] == status;
    m
  }
}
