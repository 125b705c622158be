/**
 * `HttpChatRoom`: the chat room page driven by the polling client.  It
 * announces users who joined or left between two user-list snapshots
 * (silently on the first list), replaces its message list only with an
 * array, and guards the join and send flows.
 *
 * Toasts are recorded in `notices`; the page's `SimpleChatApi` is the
 * object `api`, whose callbacks the page registers when it is built.
 */
module HttpChatRoom {
  import opened Wrappers
  import opened Text
  import opened ClientTypes
  import ChatApi

  /** The ids of a user list (`new Set(list.map(u => u.id))`). */
  function Ids(users: seq<User>): set<string>
  {
    set u | u in users :: u.id
  }

  /** The users of `list` whose id is not in `ids`, in their order. */
  function NotIn(list: seq<User>, ids: set<string>): (r: seq<User>)
    ensures forall u :: u in r <==> u in list && u.id !in ids
    ensures |r| <= |list|
  {
    if list == [] then []
    else if list[0].id in ids then NotIn(list[1..], ids)
    else [list[0]] + NotIn(list[1..], ids)
  }

  /** The users of the new list whose id the previous list lacks. */
  function Joined(previous: seq<User>, current: seq<User>): seq<User>
  {
    NotIn(current, Ids(previous))
  }

  /** The users of the previous list whose id the new list lacks. */
  function Left(previous: seq<User>, current: seq<User>): seq<User>
  {
    NotIn(previous, Ids(current))
  }

  /**
   * The diff by id: the joined users are exactly the new entries with an
   * unseen id, the left users exactly the old entries whose id is gone, no
   * id is reported both ways, and an id present in both lists is reported
   * neither way whatever its nickname.
   */
  lemma DiffById(previous: seq<User>, current: seq<User>)
    ensures forall u :: u in Joined(previous, current) <==> u in current && u.id !in Ids(previous)
    ensures forall u :: u in Left(previous, current) <==> u in previous && u.id !in Ids(current)
    ensures forall u, v :: u in Joined(previous, current) && v in Left(previous, current) ==> u.id != v.id
    ensures forall u: User :: u.id in Ids(previous) * Ids(current) ==>
      u !in Joined(previous, current) && u !in Left(previous, current)
  {
    forall u, v | u in Joined(previous, current) && v in Left(previous, current)
      ensures u.id != v.id
    {
      assert v.id in Ids(previous);
    }
  }

  /** Nothing is left of a list whose every id is in `ids`. */
  lemma {:induction false} NotInCovered(list: seq<User>, ids: set<string>)
    requires forall u :: u in list ==> u.id in ids
    ensures NotIn(list, ids) == []
  {
    if list != [] {
      assert list[0] in list;
      NotInCovered(list[1..], ids);
    }
  }

  /** The diff is empty exactly when both lists carry the same ids. */
  lemma QuietIffSameIds(previous: seq<User>, current: seq<User>)
    ensures Joined(previous, current) == [] && Left(previous, current) == []
        <==> Ids(previous) == Ids(current)
  {
    if Joined(previous, current) == [] && Left(previous, current) == [] {
      forall id | id in Ids(current) ensures id in Ids(previous) {
        var u :| u in current && u.id == id;
        assert u !in Joined(previous, current);
      }
      forall id | id in Ids(previous) ensures id in Ids(current) {
        var u :| u in previous && u.id == id;
        assert u !in Left(previous, current);
      }
    }
    if Ids(previous) == Ids(current) {
      NotInCovered(current, Ids(previous));
      NotInCovered(previous, Ids(current));
    }
  }

  /** The count in the users header: the other users plus the current one. */
  function OnlineCount(users: seq<User>, self: Option<User>): (n: nat)
    ensures n >= 1
    ensures self.None? ==> n == |users| + 1
    ensures self.Some? ==> n == |users| - CountId(users, self.value.id) + 1
    ensures self.Some? && CountId(users, self.value.id) == 1 ==> n == |users|
  {
    |Others(users, if self.Some? then Some(self.value.id) else None)| + 1
  }

  /** A toast shown by the page. */
  datatype Notice =
    | JoinedNotice(nickname: string)
    | LeftNotice(nickname: string)
    | Warning(warning: Option<string>)
    | Error(text: string)
    | Welcome(nickname: string)

  const JoinFailedText := "加入聊天室失败，请重试"
  const SendFailedText := "消息发送失败，请重试"

  /** One join toast per joined user and then one leave toast per user who left. */
  function DiffNotices(previous: seq<User>, current: seq<User>): (r: seq<Notice>)
    ensures |r| == |Joined(previous, current)| + |Left(previous, current)|
    ensures forall i :: 0 <= i < |Joined(previous, current)| ==>
      r[i] == JoinedNotice(Joined(previous, current)[i].nickname)
    ensures forall i :: 0 <= i < |Left(previous, current)| ==>
      r[|Joined(previous, current)| + i] == LeftNotice(Left(previous, current)[i].nickname)
  {
    seq(|Joined(previous, current)|, i requires 0 <= i < |Joined(previous, current)| =>
          JoinedNotice(Joined(previous, current)[i].nickname))
    + seq(|Left(previous, current)|, i requires 0 <= i < |Left(previous, current)| =>
          LeftNotice(Left(previous, current)[i].nickname))
  }

  /** Where the nickname form stops before connecting, if it does. */
  datatype Gate = Blank | Taken(message: Option<string>) | CheckFailed(error: string) | Proceed

  /**
   * The guards of `handleJoinChat` before `connect`: a blank nickname, then
   * a taken one, then a check that reports a (non-empty) error.
   */
  function JoinGate(nickname: string, check: ChatApi.NicknameCheck): (g: Gate)
    ensures g.Proceed? <==> !AllWhitespace(nickname) && !check.taken && !Truthy(check.error)
    ensures g.Blank? <==> AllWhitespace(nickname)
  {
    if IsBlank(nickname) then Blank
    else if check.taken then Taken(check.message)
    else if Truthy(check.error) then CheckFailed(check.error.value)
    else Proceed
  }

  /** The toast a stopped join shows: none for a blank nickname. */
  function GateNotices(g: Gate): seq<Notice>
  {
    match g
    case Blank => []
    case Taken(message) => [Warning(message)]
    case CheckFailed(error) => [Error(error)]
    case Proceed => []
  }

  /**
   * What the `beforeunload` handler sends for a listening user: nothing when
   * `baseUrl` is not in scope where the beacon's URL is built (the read
   * throws), otherwise the "tab_close" leave by beacon and its synchronous
   * retry.
   */
  function UnloadLeaves(baseUrlInScope: bool, userId: string, beaconQueued: bool): seq<ChatApi.Request>
  {
    if baseUrlInScope then ChatApi.LeaveRequests(userId, "tab_close", true, beaconQueued) else []
  }

  class Room {
    var messages: seq<ChatMessage>
    var users: seq<User>
    var currentMessage: string
    var userInfo: Option<User>
    var nickname: string
    var showNicknameInput: bool
    var isConnected: bool
    /** `previousUsersRef.current`. */
    var previousUsers: seq<User>
    /** `isFirstLoadRef.current`. */
    var isFirstLoad: bool
    var notices: seq<Notice>
    const api: ChatApi.SimpleChatApi

    ghost predicate Valid()
      reads this, api
    {
      api.Valid()
    }

    /** The page's first render: a fresh client with both callbacks registered. */
    constructor (baseUrl: string)
      ensures Valid() && fresh(api)
      ensures messages == [] && users == [] && currentMessage == "" && nickname == ""
      ensures userInfo.None? && showNicknameInput && !isConnected
      ensures previousUsers == [] && isFirstLoad && notices == []
      ensures api.hasMessageCallback && api.hasUsersCallback && !api.isConnected
    {
      messages, users, currentMessage := [], [], "";
      userInfo, nickname, showNicknameInput, isConnected := None, "", true, false;
      previousUsers, isFirstLoad, notices := [], true, [];
      var client := new ChatApi.SimpleChatApi(baseUrl);
      api := client;
      new;
      api.OnMessage();
      api.OnUsers();
    }

    /** Typing in the nickname field. */
    method SetNickname(text: string)
      modifies this`nickname
      ensures nickname == text
    {
      nickname := text;
    }

    /** Typing in the message field. */
    method SetCurrentMessage(text: string)
      modifies this`currentMessage
      ensures currentMessage == text
    {
      currentMessage := text;
    }

    /** The messages callback: only an array replaces the list. */
    method OnMessages(body: ChatApi.MessagesBody)
      modifies this`messages
      ensures body.MessageArray? ==> messages == body.items
      ensures body.NotAnArray? ==> messages == old(messages)
    {
      if body.MessageArray? {
        messages := body.items;
      }
    }

    /**
     * The users callback: toasts for the diff against the previous list
     * except on the first call, which only clears the first-load flag; the
     * new list then becomes both the previous snapshot and the shown users.
     */
    method OnUsers(userList: seq<User>)
      modifies this`notices, this`isFirstLoad, this`previousUsers, this`users
      ensures old(isFirstLoad) ==> notices == old(notices) && !isFirstLoad
      ensures !old(isFirstLoad) ==>
        notices == old(notices) + DiffNotices(old(previousUsers), userList) && !isFirstLoad
      ensures previousUsers == userList && users == userList
    {
      if !isFirstLoad {
        notices := notices + DiffNotices(previousUsers, userList);
      } else {
        isFirstLoad := false;
      }
      previousUsers := userList;
      users := userList;
    }

    /** Hands what one refresh delivered to the two callbacks. */
    method Dispatch(d: ChatApi.Delivery)
      modifies this`messages, this`notices, this`isFirstLoad, this`previousUsers, this`users
      ensures d.messages.None? ==> messages == old(messages)
      ensures d.messages.Some? && d.messages.value.MessageArray? ==> messages == d.messages.value.items
      ensures d.messages.Some? && d.messages.value.NotAnArray? ==> messages == old(messages)
      ensures d.users.None? ==>
        && users == old(users) && previousUsers == old(previousUsers)
        && notices == old(notices) && isFirstLoad == old(isFirstLoad)
      ensures d.users.Some? ==> users == d.users.value && previousUsers == d.users.value && !isFirstLoad
      ensures d.users.Some? ==>
        notices == old(notices) + (if old(isFirstLoad) then [] else DiffNotices(old(previousUsers), d.users.value))
    {
      if d.messages.Some? {
        OnMessages(d.messages.value);
      }
      if d.users.Some? {
        OnUsers(d.users.value);
      }
    }

    /** A polling tick of the page's client. */
    method Poll(messagesResp: ChatApi.Response<ChatApi.MessagesBody>, usersResp: ChatApi.Response<seq<User>>)
      requires Valid()
      modifies this`messages, this`notices, this`isFirstLoad, this`previousUsers, this`users, api`requests
      ensures Valid()
      ensures !api.isConnected ==> users == old(users) && messages == old(messages) && notices == old(notices)
    {
      var d := api.PollTick(messagesResp, usersResp);
      Dispatch(d);
    }

    /**
     * The part of `handleJoinChat` after the nickname check: connect as
     * `user`; only on success are the local user and connected state set,
     * the form hidden, a welcome shown and the user list fetched once.
     */
    method JoinAs(user: User, joinResp: ChatApi.Response<()>, usersResp: ChatApi.Response<seq<User>>)
      requires Valid()
      modifies this`userInfo, this`isConnected, this`showNicknameInput, this`notices, this`users, api
      ensures Valid()
      ensures api.userId == Some(user.id) && api.nickname == Some(user.nickname)
      ensures api.isConnected == joinResp.Ok?
      ensures |api.requests| > |old(api.requests)| && api.requests[..|old(api.requests)|] == old(api.requests)
      ensures api.requests[|old(api.requests)|] == ChatApi.Join(Some(user.id), Some(user.nickname))
      ensures joinResp.Ok? ==>
        && userInfo == Some(user) && isConnected && !showNicknameInput
        && notices == old(notices) + [Welcome(user.nickname)]
        && users == (if usersResp.Ok? then usersResp.body else old(users))
      ensures !joinResp.Ok? ==>
        && userInfo == old(userInfo) && isConnected == old(isConnected)
        && showNicknameInput == old(showNicknameInput) && users == old(users)
        && notices == old(notices) + [Error(JoinFailedText)]
    {
      var success := api.Connect(Some(user.id), Some(user.nickname), joinResp);
      if success {
        userInfo := Some(user);
        isConnected := true;
        showNicknameInput := false;
        notices := notices + [Welcome(user.nickname)];
        if usersResp.Ok? {
          users := usersResp.body;
        }
      } else {
        notices := notices + [Error(JoinFailedText)];
      }
    }

    /** Asks the server about the nickname and shows the toast of a stopped join. */
    method CheckGate(checkResp: ChatApi.Response<ChatApi.NicknameCheck>) returns (gate: Gate)
      requires Valid()
      modifies this`notices, api`requests
      ensures Valid()
      ensures gate == JoinGate(nickname, ChatApi.CheckResult(checkResp))
      ensures notices == old(notices) + GateNotices(gate)
      ensures api.requests == old(api.requests) + [ChatApi.CheckNicknameRequest(Trim(nickname))]
    {
      var check := api.CheckNickname(Trim(nickname), checkResp);
      gate := JoinGate(nickname, check);
      notices := notices + GateNotices(gate);
    }

    /**
     * `handleJoinChat`: a blank nickname does nothing; a taken nickname or
     * a failed check shows its toast and stops before connecting; otherwise
     * the trimmed nickname joins under the fresh id.
     */
    method HandleJoinChat(freshId: string, checkResp: ChatApi.Response<ChatApi.NicknameCheck>,
                          joinResp: ChatApi.Response<()>, usersResp: ChatApi.Response<seq<User>>)
      requires Valid()
      modifies this`userInfo, this`isConnected, this`showNicknameInput, this`notices, this`users, api
      ensures Valid()
      ensures JoinGate(old(nickname), ChatApi.CheckResult(checkResp)).Proceed? ==>
        && api.userId == Some(freshId) && api.nickname == Some(Trim(old(nickname)))
        && |api.requests| > |old(api.requests)| + 1
        && api.requests[|old(api.requests)| + 1] == ChatApi.Join(Some(freshId), Some(Trim(old(nickname))))
        && (joinResp.Ok? ==> userInfo == Some(User(freshId, Trim(old(nickname)))) && isConnected && api.isConnected)
        && (!joinResp.Ok? ==> userInfo == old(userInfo) && isConnected == old(isConnected)
                              && notices == old(notices) + [Error(JoinFailedText)])
      ensures !JoinGate(old(nickname), ChatApi.CheckResult(checkResp)).Proceed? ==>
        && userInfo == old(userInfo) && isConnected == old(isConnected)
        && api.isConnected == old(api.isConnected)
        && notices == old(notices) + GateNotices(JoinGate(old(nickname), ChatApi.CheckResult(checkResp)))
      ensures JoinGate(old(nickname), ChatApi.CheckResult(checkResp)).Blank? ==> api.requests == old(api.requests)
      ensures !JoinGate(old(nickname), ChatApi.CheckResult(checkResp)).Blank? ==>
        |api.requests| > |old(api.requests)|
        && api.requests[|old(api.requests)|] == ChatApi.CheckNicknameRequest(Trim(old(nickname)))
    {
      if IsBlank(nickname) {
        return;
      }
      ghost var before := api.requests;
      var gate := CheckGate(checkResp);
      if !gate.Proceed? {
        return;
      }
      ghost var checked := api.requests;
      JoinAs(User(freshId, Trim(nickname)), joinResp, usersResp);
      assert api.requests[|before|] == api.requests[..|checked|][|before|] == checked[|before|];
    }

    /**
     * `sendMessage`: with text, a user and a connection, the input is
     * cleared before sending and the exact trimmed text is put back when the
     * send fails; otherwise only an error toast is shown.
     */
    method SendMessage(sendResp: ChatApi.Response<()>,
                       messagesResp: ChatApi.Response<ChatApi.MessagesBody>, usersResp: ChatApi.Response<seq<User>>)
      returns (sent: bool)
      requires Valid()
      modifies this`currentMessage, this`notices, this`messages, this`isFirstLoad, this`previousUsers, this`users,
               api`requests
      ensures Valid()
      ensures IsBlank(old(currentMessage)) || userInfo.None? || !isConnected ==>
        && !sent && currentMessage == old(currentMessage)
        && notices == old(notices) + [Error(SendFailedText)] && api.requests == old(api.requests)
      ensures sent ==> currentMessage == ""
      ensures !sent && !IsBlank(old(currentMessage)) && userInfo.Some? && isConnected ==>
        currentMessage == Trim(old(currentMessage))
      ensures sent ==> |api.requests| > |old(api.requests)| && api.requests[|old(api.requests)|].PostMessage?
                       && api.requests[|old(api.requests)|].text == Trim(old(currentMessage))
      ensures !sent ==>
        && notices == old(notices) + [Error(SendFailedText)]
        && messages == old(messages) && users == old(users)
      ensures !IsBlank(old(currentMessage)) && userInfo.Some? && isConnected
              && api.isConnected && Truthy(api.userId) && Truthy(api.nickname) ==>
        && sent == sendResp.Ok?
        && |api.requests| > |old(api.requests)|
        && api.requests[|old(api.requests)|] == ChatApi.PostMessage(api.userId.value, api.nickname.value, Trim(old(currentMessage)))
      ensures !(api.isConnected && Truthy(api.userId) && Truthy(api.nickname)) ==>
        !sent && api.requests == old(api.requests)
    {
      if !IsBlank(currentMessage) && userInfo.Some? && isConnected {
        var text := Trim(currentMessage);
        currentMessage := "";
        var ok, d := api.SendMessage(text, sendResp, messagesResp, usersResp);
        Dispatch(d);
        if !ok {
          currentMessage := text;
          notices := notices + [Error(SendFailedText)];
        }
        sent := ok;
      } else {
        notices := notices + [Error(SendFailedText)];
        sent := false;
      }
    }

    /** The window and document listeners exist only while connected with a user. */
    predicate Listening()
      reads this
    {
      isConnected && userInfo.Some?
    }

    /**
     * `beforeunload` as written: the handler reads `baseUrl`, which is
     * declared only inside the initialising effect and inside
     * `handleJoinChat`, so the read throws before `sendBeacon` and nothing
     * is sent; the client is not disconnected either.
     */
    method OnBeforeUnload(beaconQueued: bool)
      requires Valid()
      modifies api`requests
      ensures Valid()
      ensures api.requests == old(api.requests)
    {
      if Listening() {
        api.requests := api.requests + UnloadLeaves(false, userInfo.value.id, beaconQueued);
      }
    }

    /**
     * `beforeunload` with the page's base URL in scope: a connected user's
     * leave for "tab_close" is sent by beacon, and again by synchronous
     * request when the beacon is refused; the client is not disconnected.
     */
    method OnBeforeUnloadWithBaseUrl(beaconQueued: bool)
      requires Valid()
      modifies api`requests
      ensures Valid()
      ensures !Listening() ==> api.requests == old(api.requests)
      ensures Listening() ==>
        api.requests == old(api.requests) + ChatApi.LeaveRequests(userInfo.value.id, "tab_close", true, beaconQueued)
    {
      if Listening() {
        api.requests := api.requests + UnloadLeaves(true, userInfo.value.id, beaconQueued);
      }
    }

    /** `visibilitychange`: hiding the page disconnects the client with reason "page_refresh". */
    method OnVisibilityChange(hidden: bool, beaconSupported: bool, beaconQueued: bool)
      requires Valid()
      modifies api
      ensures Valid()
      ensures !(hidden && Listening()) ==> api.requests == old(api.requests) && api.isConnected == old(api.isConnected)
      ensures hidden && Listening() ==>
        && !api.isConnected && api.pollingInterval.None? && api.sseConnection.None?
        && api.requests == old(api.requests) + (if Truthy(old(api.userId))
                                                then ChatApi.LeaveRequests(old(api.userId).value, "page_refresh", beaconSupported, beaconQueued)
                                                else [])
    {
      if hidden && Listening() {
        api.Disconnect("page_refresh", beaconSupported, beaconQueued);
      }
    }

    /**
     * `focus`: while listening the page's connected flag is set, so focus
     * fetches the latest data and hands it to the callbacks; the delayed
     * reconnect of a disconnected page is never reached.
     */
    method OnFocus(messagesResp: ChatApi.Response<ChatApi.MessagesBody>, usersResp: ChatApi.Response<seq<User>>)
      requires Valid()
      modifies this`messages, this`notices, this`isFirstLoad, this`previousUsers, this`users, api`requests
      ensures Valid()
      ensures !Listening() || !api.isConnected ==>
        && api.requests == old(api.requests)
        && messages == old(messages) && users == old(users) && notices == old(notices)
      ensures Listening() && api.isConnected ==>
        api.requests == old(api.requests) + [ChatApi.GetMessages, ChatApi.GetUsers(api.userId)]
      ensures Listening() && api.isConnected && api.hasUsersCallback && usersResp.Ok? && !messagesResp.NetworkError? ==>
        users == usersResp.body
    {
      if Listening() {
        var d := api.FetchLatestData(messagesResp, usersResp);
        Dispatch(d);
      }
    }

    /** Unmounting the page disconnects the client with reason "back_to_input". */
    method Unmount(beaconSupported: bool, beaconQueued: bool)
      requires Valid()
      modifies api
      ensures Valid()
      ensures !api.isConnected && api.pollingInterval.None? && api.sseConnection.None?
      ensures api.requests == old(api.requests) + (if Truthy(old(api.userId))
                                                   then ChatApi.LeaveRequests(old(api.userId).value, "back_to_input", beaconSupported, beaconQueued)
                                                   else [])
    {
      api.Disconnect("back_to_input", beaconSupported, beaconQueued);
    }
  }
}
