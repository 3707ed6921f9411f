/** `retrieveAllFriendsByStatus`: lists the caller's friendships with a
    given status, which must be "accepted" or "pending" once trimmed. */
module RetrieveAllFriendsByStatusService {
  import opened JsValues
  import opened Envelope
  import opened Friendships

  const StatusRequiredMessage := "invalid - status of type string is required"
  const StatusInvalidMessage := "invalid - query parameter status can only be accepted or pending"

  predicate IsListableStatus(status: string) {
    status == "accepted" || status == "pending"
  }

  /** A missing, empty or non-string status is refused before anything is
      queried; the status is trimmed and must then be "accepted" or
      "pending"; the query uses the trimmed status; an empty result is a
      success without a list, any other result is copied whole, in order,
      with its count in the message. */
  method RetrieveAllFriendsByStatus(userId: string, status: Value, edges: seq<Friendship>)
    returns (r: Response<seq<Friendship>>)
    ensures !(status.Str? && status.s != "") ==> r == Reply(400, Fail, StatusRequiredMessage)
    ensures status.Str? && status.s != "" && !IsListableStatus(Trim(status.s)) ==>
      r == Reply(400, Fail, StatusInvalidMessage)
    ensures status.Str? && IsListableStatus(Trim(status.s)) ==>
      var trimmed := Trim(status.s);
      var items := ByStatus(edges, userId, Str(trimmed));
      && (items == [] ==> r == Reply(200, Success, "no friends with status: " + trimmed))
      && (items != [] ==> r == Response(200, Success, Some(CountMessage(|items|, trimmed)), Some(items)))
    ensures r.status == Success ==> r.httpStatus == 200 && status.Str? && IsListableStatus(Trim(status.s))
  {
    if !Truthy(status) || !status.Str? {
      return Reply(400, Fail, StatusRequiredMessage);
    }
    var trimmed := Trim(status.s);
    if trimmed != "accepted" && trimmed != "pending" {
      return Reply(400, Fail, StatusInvalidMessage);
    }
    var retrieved := ByStatus(edges, userId, Str(trimmed));
    if |retrieved| == 0 {
      return Reply(200, Success, "no friends with status: " + trimmed);
    }
    var friendList := CopyFriendList(retrieved);
    r := Response(200, Success, Some(CountMessage(|retrieved|, trimmed)), Some(friendList));
  }

  /** Surrounding whitespace does not make a status invalid: " pending "
      is accepted and queried as "pending". */
  lemma PaddedStatusAccepted()
    ensures Trim(" pending ") == "pending" && IsListableStatus(Trim(" pending "))
  {
  }
}
