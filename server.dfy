/**
 * The socket server of the chat room: an in-memory presence map keyed by
 * socket id, an append-only message log capped at 1000 entries, and the
 * event handlers that update both and relay WebRTC signaling.
 *
 * The socket transport is abstracted: `connected` is the set of sockets the
 * transport currently holds, and every emit is appended to `outbox` as the
 * set of recipients together with the event.  `socket.broadcast.emit`
 * reaches every connected socket except the sender, `io.emit` reaches every
 * connected socket, and `socket.emit` reaches the sender alone.
 */
module ChatServer {

  type SocketId = string

  /** The record stored in `onlineUsers`. */
  datatype User = User(id: SocketId, nickname: string, isOnline: bool, joinTime: string)

  /** One entry of the message log; `id` and `timestamp` are fresh inputs. */
  datatype Message = Message(id: string, userId: string, nickname: string, text: string, timestamp: string)

  /** The `join` payload; its `id` is never used. */
  datatype JoinData = JoinData(id: string, nickname: string)

  /** The `message` payload. */
  datatype MessageData = MessageData(userId: string, nickname: string, message: string)

  datatype SignalKind = Offer | Answer | IceCandidate

  /** The events the server emits. */
  datatype Event =
    | UserJoined(user: User)
    | Users(list: seq<User>)
    | History(messages: seq<Message>)
    | NewMessage(message: Message)
    | Signal(kind: SignalKind, payload: string)
    | CallStarted
    | CallEnded
    | UserLeft(user: User)

  datatype Emission = Emission(recipients: set<SocketId>, event: Event)

  /** The log never holds more than this many messages. */
  const MaxMessages: nat := 1000

  /** A joining socket receives at most this many of the newest messages. */
  const HistoryOnJoin: nat := 50

  /**
   * `log.slice(-n)`: the newest `n` entries, or all of them when there are
   * fewer.  `slice(-0)` would return the whole log, so `n` is positive (the
   * server passes 50 and 1000).
   */
  function Newest<T>(log: seq<T>, n: nat): (r: seq<T>)
    requires n >= 1
    ensures |r| <= n && |r| <= |log|
    ensures |log| <= n ==> r == log
    ensures |log| > n ==> |r| == n
    ensures r == log[|log| - |r|..]
  {
    if |log| <= n then log else log[|log| - n..]
  }

  /**
   * Appending one message and trimming to the cap keeps the new message last,
   * never exceeds the cap, and drops only the oldest entry when full.
   */
  lemma PostTrimsOldest(log: seq<Message>, m: Message)
    requires |log| <= MaxMessages
    ensures var r := Newest(log + [m], MaxMessages);
      && |r| <= MaxMessages
      && r[|r| - 1] == m
      && (|log| < MaxMessages ==> r == log + [m])
      && (|log| == MaxMessages ==> r == log[1..] + [m])
  {
    var r := Newest(log + [m], MaxMessages);
    if |log| == MaxMessages {
      assert r == (log + [m])[1..];
      assert (log + [m])[1..] == log[1..] + [m];
    }
  }

  /** Ids pairwise distinct. */
  ghost predicate Distinct(order: seq<SocketId>)
  {
    forall i, j :: 0 <= i < j < |order| ==> order[i] != order[j]
  }

  /**
   * A JavaScript `Map` from socket id to user: `order` is the insertion
   * order of the keys, and each user is stored under its own id.
   */
  ghost predicate WellFormed(order: seq<SocketId>, users: map<SocketId, User>)
  {
    && Distinct(order)
    && (forall id :: id in users <==> id in order)
    && (forall id :: id in users ==> users[id].id == id && users[id].isOnline)
  }

  /** `Array.from(onlineUsers.values())`: the users in insertion order. */
  function UserList(order: seq<SocketId>, users: map<SocketId, User>): (r: seq<User>)
    requires forall i :: 0 <= i < |order| ==> order[i] in users
  {
    seq(|order|, i requires 0 <= i < |order| => users[order[i]])
  }

  /** The keys of `order` other than `id`, in the same order (`Map.delete`). */
  function RemoveId(order: seq<SocketId>, id: SocketId): (r: seq<SocketId>)
    ensures forall x :: x in r <==> x in order && x != id
    ensures Distinct(order) ==> Distinct(r)
  {
    if order == [] then []
    else if order[0] == id then RemoveId(order[1..], id)
    else
      var rest := RemoveId(order[1..], id);
      assert Distinct(order) ==> order[0] !in order[1..];
      [order[0]] + rest
  }

  /** The users of `list` whose id differs from `id`, in order. */
  function Without(list: seq<User>, id: SocketId): (r: seq<User>)
  {
    if list == [] then []
    else if list[0].id == id then Without(list[1..], id)
    else [list[0]] + Without(list[1..], id)
  }

  /** Removing a key from the map removes exactly that user from the list. */
  lemma {:induction false} UserListRemove(order: seq<SocketId>, users: map<SocketId, User>, id: SocketId)
    requires WellFormed(order, users)
    ensures forall i :: 0 <= i < |RemoveId(order, id)| ==> RemoveId(order, id)[i] in users - {id}
    ensures UserList(RemoveId(order, id), users - {id}) == Without(UserList(order, users), id)
  {
    RemoveKeepsOthers(order, users, id);
  }

  lemma {:induction false} RemoveKeepsOthers(order: seq<SocketId>, users: map<SocketId, User>, id: SocketId)
    requires forall i :: 0 <= i < |order| ==> order[i] in users && users[order[i]].id == order[i]
    ensures forall i :: 0 <= i < |RemoveId(order, id)| ==> RemoveId(order, id)[i] in users - {id}
    ensures UserList(RemoveId(order, id), users - {id}) == Without(UserList(order, users), id)
  {
    var all := UserList(order, users);
    if order != [] {
      RemoveKeepsOthers(order[1..], users, id);
      assert UserList(order[1..], users) == all[1..];
      if order[0] != id {
        var rest := RemoveId(order[1..], id);
        assert UserList([order[0]] + rest, users - {id})
            == [users[order[0]]] + UserList(rest, users - {id});
      }
    }
  }

  /** The key order after `Map.set(id, …)`: a new key goes last, an old one keeps its place. */
  function SetOrder(order: seq<SocketId>, users: map<SocketId, User>, id: SocketId): seq<SocketId>
  {
    if id in users then order else order + [id]
  }

  /** Storing `u` under its own id keeps the map well formed. */
  lemma SetWellFormed(order: seq<SocketId>, users: map<SocketId, User>, u: User)
    requires WellFormed(order, users) && u.isOnline
    ensures WellFormed(SetOrder(order, users, u.id), users[u.id := u])
  {
    var order' := SetOrder(order, users, u.id);
    if u.id !in users {
      forall i, j | 0 <= i < j < |order'| ensures order'[i] != order'[j] {
        if j == |order| {
          assert order'[i] == order[i];
        }
      }
    }
  }

  /**
   * A join under `id` that stores `u` leaves `u` as the one entry with that
   * id and keeps every other user in its place.
   */
  lemma {:induction false} UserListSet(order: seq<SocketId>, users: map<SocketId, User>, u: User)
    requires WellFormed(order, users) && u.isOnline
    ensures WellFormed(SetOrder(order, users, u.id), users[u.id := u])
    ensures u in UserList(SetOrder(order, users, u.id), users[u.id := u])
    ensures forall v :: v in UserList(SetOrder(order, users, u.id), users[u.id := u]) && v.id == u.id ==> v == u
    ensures Without(UserList(SetOrder(order, users, u.id), users[u.id := u]), u.id)
         == Without(UserList(order, users), u.id)
  {
    var users' := users[u.id := u];
    var order' := SetOrder(order, users, u.id);
    var after := UserList(order', users');
    SetWellFormed(order, users, u);
    var k :| 0 <= k < |order'| && order'[k] == u.id;
    assert after[k] == u;
    forall v | v in after && v.id == u.id ensures v == u {
      var i :| 0 <= i < |after| && after[i] == v;
      assert users'[order'[i]].id == order'[i];
    }
    SetKeepsOthers(order, users, u);
  }

  lemma SetKeepsOthers(order: seq<SocketId>, users: map<SocketId, User>, u: User)
    requires WellFormed(order, users) && u.isOnline
    ensures Without(UserList(SetOrder(order, users, u.id), users[u.id := u]), u.id)
         == Without(UserList(order, users), u.id)
  {
    var users' := users[u.id := u];
    var order' := SetOrder(order, users, u.id);
    SetWellFormed(order, users, u);
    RemoveKeepsOthers(order', users', u.id);
    RemoveKeepsOthers(order, users, u.id);
    assert RemoveId(order', u.id) == RemoveId(order, u.id) by {
      if u.id !in users { RemoveLast(order, u.id); }
    }
    assert users' - {u.id} == users - {u.id};
  }

  lemma {:induction false} RemoveLast(order: seq<SocketId>, id: SocketId)
    ensures RemoveId(order + [id], id) == RemoveId(order, id)
  {
    if order != [] {
      assert (order + [id])[1..] == order[1..] + [id];
      RemoveLast(order[1..], id);
    }
  }

  /** A duplicate-free sequence has as many elements as its set. */
  lemma {:induction false} DistinctCard(order: seq<SocketId>)
    requires Distinct(order)
    ensures |set x | x in order| == |order|
  {
    if order != [] {
      DistinctCard(order[1..]);
      assert (set x | x in order) == {order[0]} + (set x | x in order[1..]);
    }
  }

  class Server {
    /** The sockets the transport currently holds. */
    var connected: set<SocketId>
    /** `onlineUsers`, with the insertion order of its keys. */
    var onlineUsers: map<SocketId, User>
    var joinOrder: seq<SocketId>
    /** `messages`. */
    var messages: seq<Message>
    /** Every emit so far, oldest first. */
    var outbox: seq<Emission>

    ghost predicate Valid()
      reads this
    {
      && WellFormed(joinOrder, onlineUsers)
      && onlineUsers.Keys <= connected
      && |messages| <= MaxMessages
    }

    /** The current `Array.from(onlineUsers.values())`. */
    function Snapshot(): seq<User>
      reads this
      requires Valid()
    {
      UserList(joinOrder, onlineUsers)
    }

    constructor ()
      ensures Valid()
      ensures connected == {} && onlineUsers == map[] && joinOrder == []
      ensures messages == [] && outbox == []
    {
      connected, onlineUsers, joinOrder := {}, map[], [];
      messages, outbox := [], [];
    }

    /** A new socket connects (`io.on('connection')`). */
    method Connect(sid: SocketId)
      requires Valid() && sid !in connected
      modifies this
      ensures Valid()
      ensures connected == old(connected) + {sid}
      ensures onlineUsers == old(onlineUsers) && joinOrder == old(joinOrder)
      ensures messages == old(messages) && outbox == old(outbox)
    {
      connected := connected + {sid};
    }

    /** The `join` handler; `now` is the join time. */
    method Join(sid: SocketId, data: JoinData, now: string)
      requires Valid() && sid in connected
      modifies this
      ensures Valid()
      ensures onlineUsers == old(onlineUsers)[sid := User(sid, data.nickname, true, now)]
      ensures joinOrder == SetOrder(old(joinOrder), old(onlineUsers), sid)
      ensures User(sid, data.nickname, true, now) in Snapshot()
      ensures forall v :: v in Snapshot() && v.id == sid ==> v == User(sid, data.nickname, true, now)
      ensures Without(Snapshot(), sid) == Without(old(Snapshot()), sid)
      ensures connected == old(connected) && messages == old(messages)
      ensures outbox == old(outbox) + [
                Emission(connected - {sid}, UserJoined(User(sid, data.nickname, true, now))),
                Emission(connected, Users(Snapshot())),
                Emission({sid}, History(Newest(messages, HistoryOnJoin)))]
    {
      var user := User(sid, data.nickname, true, now);
      UserListSet(joinOrder, onlineUsers, user);
      joinOrder := SetOrder(joinOrder, onlineUsers, sid);
      onlineUsers := onlineUsers[sid := user];
      outbox := outbox + [Emission(connected - {sid}, UserJoined(user))];
      outbox := outbox + [Emission(connected, Users(UserList(joinOrder, onlineUsers)))];
      outbox := outbox + [Emission({sid}, History(Newest(messages, HistoryOnJoin)))];
    }

    /** The `message` handler; `id` and `now` are the fresh id and timestamp. */
    method Post(sid: SocketId, data: MessageData, id: string, now: string)
      requires Valid() && sid in connected
      modifies this
      ensures Valid()
      ensures messages == Newest(old(messages) + [Message(id, data.userId, data.nickname, data.message, now)], MaxMessages)
      ensures connected == old(connected) && onlineUsers == old(onlineUsers) && joinOrder == old(joinOrder)
      ensures outbox == old(outbox) + [Emission(connected, NewMessage(Message(id, data.userId, data.nickname, data.message, now)))]
    {
      var message := Message(id, data.userId, data.nickname, data.message, now);
      messages := messages + [message];
      if |messages| > MaxMessages {
        messages := messages[|messages| - MaxMessages..];
      }
      outbox := outbox + [Emission(connected, NewMessage(message))];
    }

    /** The `offer`, `answer` and `ice-candidate` handlers. */
    method Relay(sid: SocketId, kind: SignalKind, payload: string)
      requires Valid() && sid in connected
      modifies this`outbox
      ensures outbox == old(outbox) + [Emission(connected - {sid}, Signal(kind, payload))]
    {
      outbox := outbox + [Emission(connected - {sid}, Signal(kind, payload))];
    }

    /** The `start-call` handler. */
    method StartCall(sid: SocketId)
      requires Valid() && sid in connected
      modifies this`outbox
      ensures outbox == old(outbox) + [Emission(connected - {sid}, CallStarted)]
    {
      outbox := outbox + [Emission(connected - {sid}, CallStarted)];
    }

    /** The `end-call` handler. */
    method EndCall(sid: SocketId)
      requires Valid() && sid in connected
      modifies this`outbox
      ensures outbox == old(outbox) + [Emission(connected - {sid}, CallEnded)]
    {
      outbox := outbox + [Emission(connected - {sid}, CallEnded)];
    }

    /**
     * The `disconnect` handler.  The transport has already dropped the
     * socket, so `connected` no longer holds it; a socket that never joined
     * leaves the presence map, the log and the outbox untouched.
     */
    method Disconnect(sid: SocketId)
      requires Valid() && sid in connected
      modifies this
      ensures Valid()
      ensures connected == old(connected) - {sid} && messages == old(messages)
      ensures sid !in old(onlineUsers) ==>
        onlineUsers == old(onlineUsers) && joinOrder == old(joinOrder) && outbox == old(outbox)
      ensures sid in old(onlineUsers) ==>
        && onlineUsers == old(onlineUsers) - {sid}
        && joinOrder == RemoveId(old(joinOrder), sid)
        && Snapshot() == Without(old(Snapshot()), sid)
        && outbox == old(outbox) + [Emission(connected, UserLeft(old(onlineUsers)[sid])),
                                    Emission(connected, Users(Snapshot()))]
    {
      connected := connected - {sid};
      if sid in onlineUsers {
        var user := onlineUsers[sid];
        UserListRemove(joinOrder, onlineUsers, sid);
        outbox := outbox + [Emission(connected, UserLeft(user))];
        onlineUsers := onlineUsers - {sid};
        joinOrder := RemoveId(joinOrder, sid);
        outbox := outbox + [Emission(connected, Users(UserList(joinOrder, onlineUsers)))];
      }
    }

    /** `GET /api/users`: every online user once, in join order. */
    method ApiUsers() returns (r: seq<User>)
      requires Valid()
      ensures r == Snapshot()
      ensures |r| == |onlineUsers|
      ensures forall u :: u in r <==> u in onlineUsers.Values
    {
      r := UserList(joinOrder, onlineUsers);
      DistinctCard(joinOrder);
      assert onlineUsers.Keys == set x | x in joinOrder;
      forall u | u in onlineUsers.Values ensures u in r {
        var k :| k in onlineUsers && onlineUsers[k] == u;
        var i :| 0 <= i < |joinOrder| && joinOrder[i] == k;
        assert r[i] == u;
      }
    }

    /** `GET /api/messages`: the whole log. */
    method ApiMessages() returns (r: seq<Message>)
      requires Valid()
      ensures r == messages && |r| <= MaxMessages
    {
      r := messages;
    }

    /** `GET /`: the number of online users and of stored messages. */
    method ApiStatus() returns (online: nat, total: nat)
      requires Valid()
      ensures online == |onlineUsers| && total == |messages| <= MaxMessages
    {
      online, total := |onlineUsers|, |messages|;
    }
  }
}
