/**
 * `SimpleChatAPI`: the polling chat client.  It joins over HTTP, polls the
 * message and user lists, listens to a server-sent event stream for
 * "something changed" pings, posts messages and leaves.
 *
 * Every HTTP exchange is an input of the method that makes it (a `Response`),
 * every request made is appended to `requests`, and the interval and
 * event-stream handles are fresh numbers drawn from `nextHandle`.  What the
 * registered callbacks are handed is returned as a `Delivery`.
 */
module ChatApi {
  import opened Wrappers
  import opened ClientTypes

  /** The outcome of one `fetch`: an ok response with its body, a non-ok status, or a rejected promise. */
  datatype Response<T> = Ok(body: T) | Failed(status: int) | NetworkError

  /** A JSON body that is expected to be an array of messages. */
  datatype MessagesBody = MessageArray(items: seq<ChatMessage>) | NotAnArray

  /** The object `checkNickname` resolves to; `taken` is its `exists` field. */
  datatype NicknameCheck = NicknameCheck(taken: bool, message: Option<string>, error: Option<string>)

  datatype LeaveTransport = Beacon | SyncXhr | Fetch

  /** The requests the client sends. */
  datatype Request =
    | CheckNicknameRequest(nickname: string)
    | Join(joinId: Option<string>, joinNickname: Option<string>)
    | GetMessages
    | GetUsers(exclude: Option<string>)
    | OpenEvents
    | PostMessage(userId: string, nickname: string, text: string)
    | Leave(userId: string, reason: string, via: LeaveTransport)

  /** What the message callback and the users callback were handed by one refresh. */
  datatype Delivery = Delivery(messages: Option<MessagesBody>, users: Option<seq<User>>)

  const NoDelivery := Delivery(None, None)

  const CheckFailedText := "检查昵称时发生错误"
  const NetworkErrorText := "网络连接错误"

  /**
   * The result of `checkNickname`: the server's answer when the response is
   * ok, otherwise "not taken" together with an error text.
   */
  function CheckResult(resp: Response<NicknameCheck>): (r: NicknameCheck)
    ensures resp.Ok? ==> r == resp.body
    ensures !resp.Ok? ==> !r.taken && Truthy(r.error) && r.message.None?
    ensures resp.NetworkError? ==> r.error == Some(NetworkErrorText)
  {
    match resp
    case Ok(body) => body
    case Failed(_) => NicknameCheck(false, None, Some(CheckFailedText))
    case NetworkError => NicknameCheck(false, None, Some(NetworkErrorText))
  }

  /**
   * One refresh: both lists are fetched together, so a rejected fetch
   * delivers nothing; otherwise each callback that is set receives the body
   * of its response when that response is ok.
   */
  function Refresh(hasMessageCallback: bool, hasUsersCallback: bool,
                   messagesResp: Response<MessagesBody>, usersResp: Response<seq<User>>): (d: Delivery)
    ensures d.messages.Some? <==>
      hasMessageCallback && messagesResp.Ok? && !usersResp.NetworkError?
    ensures d.users.Some? <==>
      hasUsersCallback && usersResp.Ok? && !messagesResp.NetworkError?
    ensures d.messages.Some? ==> d.messages.value == messagesResp.body
    ensures d.users.Some? ==> d.users.value == usersResp.body
  {
    if messagesResp.NetworkError? || usersResp.NetworkError? then NoDelivery
    else Delivery(
      if messagesResp.Ok? && hasMessageCallback then Some(messagesResp.body) else None,
      if usersResp.Ok? && hasUsersCallback then Some(usersResp.body) else None)
  }

  /** The event-stream `type`s that make the client refresh at once. */
  function TriggersRefresh(eventType: string): (r: bool)
    ensures r <==> eventType in {"new_message", "user_joined", "user_left"}
  {
    match eventType
    case "new_message" => true
    case "user_joined" => true
    case "user_left" => true
    case "connected" => false
    case "heartbeat" => false
    case _ => false
  }

  /**
   * Whether a parsed event reaches its `fetchLatestData()` call: a
   * refreshing type, and for `user_joined` a `user` object to log the id of.
   */
  function RefreshesOn(eventType: Option<string>, hasUser: bool): (r: bool)
    ensures r ==> eventType.Some? && TriggersRefresh(eventType.value)
    ensures eventType == Some("user_joined") ==> (r <==> hasUser)
    ensures eventType == Some("new_message") || eventType == Some("user_left") ==> r
  {
    match eventType
    case None => false
    case Some(t) => TriggersRefresh(t) && (t != "user_joined" || hasUser)
  }

  class SimpleChatApi {
    const baseUrl: string
    /** `pollingInterval`: the interval handle while polling. */
    var pollingInterval: Option<nat>
    /** `sseConnection`: the event-stream handle while open. */
    var sseConnection: Option<nat>
    var hasMessageCallback: bool
    var hasUsersCallback: bool
    var isConnected: bool
    var userId: Option<string>
    var nickname: Option<string>
    /** Source of fresh, non-zero handles. */
    var nextHandle: nat
    /** Every request sent so far, oldest first. */
    var requests: seq<Request>

    /** Every handle held was issued earlier, so a new one is different. */
    ghost predicate Valid()
      reads this
    {
      && nextHandle > 0
      && (pollingInterval.Some? ==> 0 < pollingInterval.value < nextHandle)
      && (sseConnection.Some? ==> 0 < sseConnection.value < nextHandle)
    }

    constructor (baseUrl: string)
      ensures Valid() && this.baseUrl == baseUrl
      ensures !isConnected && pollingInterval.None? && sseConnection.None?
      ensures userId.None? && nickname.None?
      ensures !hasMessageCallback && !hasUsersCallback && requests == []
    {
      this.baseUrl := baseUrl;
      pollingInterval, sseConnection := None, None;
      hasMessageCallback, hasUsersCallback := false, false;
      isConnected := false;
      userId, nickname := None, None;
      nextHandle := 1;
      requests := [];
    }

    /** `onMessage(callback)`. */
    method OnMessage()
      modifies this`hasMessageCallback
      ensures hasMessageCallback
    {
      hasMessageCallback := true;
    }

    /** `onUsers(callback)`. */
    method OnUsers()
      modifies this`hasUsersCallback
      ensures hasUsersCallback
    {
      hasUsersCallback := true;
    }

    /** `checkNickname(nickname)`. */
    method CheckNickname(name: string, resp: Response<NicknameCheck>) returns (r: NicknameCheck)
      requires Valid()
      modifies this`requests
      ensures Valid()
      ensures r == CheckResult(resp)
      ensures requests == old(requests) + [CheckNicknameRequest(name)]
    {
      requests := requests + [CheckNicknameRequest(name)];
      r := CheckResult(resp);
    }

    /** `startPolling()`: a second call while an interval exists creates nothing. */
    method StartPolling()
      requires Valid()
      modifies this`pollingInterval, this`nextHandle
      ensures Valid()
      ensures old(pollingInterval).Some? ==> pollingInterval == old(pollingInterval) && nextHandle == old(nextHandle)
      ensures old(pollingInterval).None? ==> pollingInterval == Some(old(nextHandle)) && nextHandle == old(nextHandle) + 1
    {
      if pollingInterval.Some? {
        return;
      }
      pollingInterval := Some(nextHandle);
      nextHandle := nextHandle + 1;
    }

    /** `stopPolling()`. */
    method StopPolling()
      requires Valid()
      modifies this`pollingInterval
      ensures Valid() && pollingInterval.None?
    {
      pollingInterval := None;
    }

    /** `connectSSE()`: a second call while a connection exists creates nothing. */
    method ConnectSse()
      requires Valid()
      modifies this`sseConnection, this`nextHandle, this`requests
      ensures Valid()
      ensures old(sseConnection).Some? ==>
        sseConnection == old(sseConnection) && nextHandle == old(nextHandle) && requests == old(requests)
      ensures old(sseConnection).None? ==>
        && sseConnection == Some(old(nextHandle)) && nextHandle == old(nextHandle) + 1
        && requests == old(requests) + [OpenEvents]
    {
      if sseConnection.Some? {
        return;
      }
      sseConnection := Some(nextHandle);
      nextHandle := nextHandle + 1;
      requests := requests + [OpenEvents];
    }

    /** `disconnectSSE()`. */
    method DisconnectSse()
      requires Valid()
      modifies this`sseConnection
      ensures Valid() && sseConnection.None?
    {
      sseConnection := None;
    }

    /**
     * `connect(userData)`: the id and nickname are recorded before the join
     * request and stay even when it fails; only an ok response connects.
     */
    method Connect(id: Option<string>, name: Option<string>, resp: Response<()>) returns (ok: bool)
      requires Valid()
      modifies this
      ensures Valid()
      ensures ok <==> resp.Ok?
      ensures isConnected == ok
      ensures userId == id && nickname == name
      ensures ok ==> pollingInterval.Some? && sseConnection.Some?
      ensures ok && old(isConnected) ==> pollingInterval != old(pollingInterval)
      ensures !ok ==> sseConnection == old(sseConnection)
      ensures !ok ==> pollingInterval == if old(isConnected) then None else old(pollingInterval)
      ensures !ok ==> requests == old(requests) + [Join(id, name)]
      ensures ok ==> requests == old(requests) + [Join(id, name)] + (if old(sseConnection).None? then [OpenEvents] else [])
      ensures hasMessageCallback == old(hasMessageCallback) && hasUsersCallback == old(hasUsersCallback)
    {
      if isConnected {
        StopPolling();
        isConnected := false;
      }
      userId := id;
      nickname := name;
      requests := requests + [Join(id, name)];
      if resp.Ok? {
        isConnected := true;
        StartPolling();
        ConnectSse();
        ok := true;
      } else {
        ok := false;
      }
    }

    /** `fetchLatestData()`: nothing at all happens while disconnected. */
    method FetchLatestData(messagesResp: Response<MessagesBody>, usersResp: Response<seq<User>>)
      returns (d: Delivery)
      modifies this`requests
      ensures !isConnected ==> d == NoDelivery && requests == old(requests)
      ensures isConnected ==>
        && d == Refresh(hasMessageCallback, hasUsersCallback, messagesResp, usersResp)
        && requests == old(requests) + [GetMessages, GetUsers(userId)]
    {
      if !isConnected {
        return NoDelivery;
      }
      requests := requests + [GetMessages, GetUsers(userId)];
      d := Refresh(hasMessageCallback, hasUsersCallback, messagesResp, usersResp);
    }

    /** One tick of the polling interval; it fires only while the interval exists. */
    method PollTick(messagesResp: Response<MessagesBody>, usersResp: Response<seq<User>>)
      returns (d: Delivery)
      modifies this`requests
      ensures pollingInterval.None? || !isConnected ==> d == NoDelivery && requests == old(requests)
      ensures pollingInterval.Some? && isConnected ==>
        && d == Refresh(hasMessageCallback, hasUsersCallback, messagesResp, usersResp)
        && requests == old(requests) + [GetMessages, GetUsers(userId)]
    {
      if pollingInterval.None? {
        return NoDelivery;
      }
      d := FetchLatestData(messagesResp, usersResp);
    }

    /**
     * The event stream's `onmessage`: `new_message`, `user_left` and a
     * `user_joined` that carries a `user` object refresh at once;
     * `connected`, `heartbeat`, any other type and a payload that is not
     * JSON (`eventType == None`) do nothing, and so does a `user_joined`
     * without `user`, whose logging of `data.user.id` throws into the
     * handler's `catch` before the refresh.
     */
    method OnServerEvent(eventType: Option<string>, hasUser: bool,
                         messagesResp: Response<MessagesBody>, usersResp: Response<seq<User>>)
      returns (d: Delivery)
      modifies this`requests
      ensures !RefreshesOn(eventType, hasUser) ==> d == NoDelivery && requests == old(requests)
      ensures RefreshesOn(eventType, hasUser) && !isConnected ==> d == NoDelivery && requests == old(requests)
      ensures RefreshesOn(eventType, hasUser) && isConnected ==>
        && d == Refresh(hasMessageCallback, hasUsersCallback, messagesResp, usersResp)
        && requests == old(requests) + [GetMessages, GetUsers(userId)]
    {
      if eventType.None? {
        return NoDelivery;
      }
      if eventType.value == "user_joined" && !hasUser {
        return NoDelivery;
      }
      if TriggersRefresh(eventType.value) {
        d := FetchLatestData(messagesResp, usersResp);
      } else {
        d := NoDelivery;
      }
    }

    /** The delayed retry scheduled by the event stream's `onerror`. */
    method RetryEvents()
      requires Valid()
      modifies this`sseConnection, this`nextHandle, this`requests
      ensures Valid()
      ensures isConnected && old(sseConnection).None? ==>
        sseConnection == Some(old(nextHandle)) && requests == old(requests) + [OpenEvents]
      ensures !(isConnected && old(sseConnection).None?) ==>
        sseConnection == old(sseConnection) && requests == old(requests) && nextHandle == old(nextHandle)
    {
      if isConnected && sseConnection.None? {
        ConnectSse();
      }
    }

    /**
     * `sendMessage(text)`: refused without a request when disconnected or
     * when the id or nickname is missing or empty; otherwise posts, and on
     * an ok response refreshes before reporting success.
     */
    method SendMessage(text: string, resp: Response<()>,
                       messagesResp: Response<MessagesBody>, usersResp: Response<seq<User>>)
      returns (ok: bool, d: Delivery)
      modifies this`requests
      ensures !isConnected || !Truthy(userId) || !Truthy(nickname) ==>
        !ok && d == NoDelivery && requests == old(requests)
      ensures isConnected && Truthy(userId) && Truthy(nickname) ==>
        && ok == resp.Ok?
        && (ok ==>
              && d == Refresh(hasMessageCallback, hasUsersCallback, messagesResp, usersResp)
              && requests == old(requests) + [PostMessage(userId.value, nickname.value, text), GetMessages, GetUsers(userId)])
        && (!ok ==> d == NoDelivery && requests == old(requests) + [PostMessage(userId.value, nickname.value, text)])
    {
      if !isConnected {
        return false, NoDelivery;
      }
      if !Truthy(userId) || !Truthy(nickname) {
        return false, NoDelivery;
      }
      requests := requests + [PostMessage(userId.value, nickname.value, text)];
      if resp.Ok? {
        d := FetchLatestData(messagesResp, usersResp);
        ok := true;
      } else {
        ok, d := false, NoDelivery;
      }
    }

    /**
     * `disconnect(reason)`: always ends disconnected with neither an interval
     * nor an event stream; a present user id is sent a leave request (by
     * beacon, then by synchronous request if the beacon was refused, or by
     * `fetch` without beacon support) and the id and nickname are cleared.
     */
    method Disconnect(reason: string, beaconSupported: bool, beaconQueued: bool)
      requires Valid()
      modifies this
      ensures Valid()
      ensures !isConnected && pollingInterval.None? && sseConnection.None?
      ensures Truthy(old(userId)) ==> userId.None? && nickname.None?
      ensures !Truthy(old(userId)) ==>
        userId == old(userId) && nickname == old(nickname) && requests == old(requests)
      ensures Truthy(old(userId)) ==>
        requests == old(requests) + LeaveRequests(old(userId).value, reason, beaconSupported, beaconQueued)
      ensures hasMessageCallback == old(hasMessageCallback) && hasUsersCallback == old(hasUsersCallback)
      ensures nextHandle == old(nextHandle)
    {
      isConnected := false;
      StopPolling();
      DisconnectSse();
      if Truthy(userId) {
        requests := requests + LeaveRequests(userId.value, reason, beaconSupported, beaconQueued);
        userId := None;
        nickname := None;
      }
    }
  }

  /** The leave requests `disconnect` sends for one user. */
  function LeaveRequests(id: string, reason: string, beaconSupported: bool, beaconQueued: bool): (r: seq<Request>)
    ensures 1 <= |r| <= 2
    ensures forall i :: 0 <= i < |r| ==> r[i].Leave? && r[i].userId == id && r[i].reason == reason
    ensures |r| == 2 <==> beaconSupported && !beaconQueued
    ensures r[0].via == (if beaconSupported then Beacon else Fetch)
    ensures |r| == 2 ==> r[1].via == SyncXhr
  {
    if !beaconSupported then [Leave(id, reason, Fetch)]
    else if beaconQueued then [Leave(id, reason, Beacon)]
    else [Leave(id, reason, Beacon), Leave(id, reason, SyncXhr)]
  }
}
