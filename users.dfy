/** The user directory the services query through the user DAO. Only the two
    lookups the services make are modelled: by identifier and by username,
    each returning the matching users in directory order. */
module Users {
  import opened JsValues

  datatype User = User(userId: string, username: string)

  /** `findUserById(id).Items`. */
  function ById(users: seq<User>, id: Value): (r: seq<User>)
    ensures |r| <= |users|
    ensures forall u :: u in r <==> u in users && Str(u.userId) == id
  {
    if users == [] then []
    else if Str(users[0].userId) == id then [users[0]] + ById(users[1..], id)
    else ById(users[1..], id)
  }

  /** `getUserByUsername(name).Items`. */
  function ByUsername(users: seq<User>, name: Value): (r: seq<User>)
    ensures |r| <= |users|
    ensures forall u :: u in r <==> u in users && Str(u.username) == name
    ensures r != [] <==> FirstNamed(users, name) < |users|
    ensures r != [] ==> r[0] == users[FirstNamed(users, name)]
  {
    if users == [] then []
    else if Str(users[0].username) == name then [users[0]] + ByUsername(users[1..], name)
    else ByUsername(users[1..], name)
  }

  /** The index of the first user in the directory called `name`, or
      `|users|` when there is none. */
  function FirstNamed(users: seq<User>, name: Value): (k: nat)
    ensures k <= |users|
    ensures forall j :: 0 <= j < k ==> Str(users[j].username) != name
    ensures k < |users| ==> Str(users[k].username) == name
  {
    if users == [] then 0
    else if Str(users[0].username) == name then 0
    else 1 + FirstNamed(users[1..], name)
  }
}
