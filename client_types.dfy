/** The user and message records the browser components exchange. */
module ClientTypes {
  import opened Wrappers

  /** A user as the client sees it; any extra fields the server sends play no part here. */
  datatype User = User(id: string, nickname: string)

  /** A chat message as the client receives or sends it. */
  datatype ChatMessage = ChatMessage(id: string, userId: string, nickname: string, text: string, timestamp: string)

  /**
   * A local media stream, reduced to the `enabled` flag of its first video
   * track and of its first audio track (`None` when it has no such track).
   */
  datatype LocalStream = LocalStream(videoTrack: Option<bool>, audioTrack: Option<bool>)

  /** How many entries of `users` carry the id `id`. */
  function CountId(users: seq<User>, id: string): (n: nat)
    ensures n <= |users|
    ensures n == 0 <==> forall u :: u in users ==> u.id != id
  {
    if users == [] then 0
    else (if users[0].id == id then 1 else 0) + CountId(users[1..], id)
  }

  /**
   * `users.filter(user => user.id !== userInfo?.id)`: the users other than
   * the current one, in their order.  Without a current user
   * (`self == None`) the comparison is against `undefined`, which no id
   * equals, so every user is kept.
   */
  function Others(users: seq<User>, self: Option<string>): (r: seq<User>)
    ensures forall u :: u in r <==> u in users && Some(u.id) != self
    ensures self.None? ==> r == users
    ensures |r| == |users| - (if self.Some? then CountId(users, self.value) else 0)
  {
    if users == [] then []
    else if Some(users[0].id) == self then Others(users[1..], self)
    else [users[0]] + Others(users[1..], self)
  }
}
