# Chat room with video calls — a Dafny model

This project models the logic of a small browser chat room with WebRTC
video calls:

- the socket server's presence map, its capped message log, its join,
  message and disconnect handlers, and its signaling relay;
- the polling HTTP client (`SimpleChatAPI`) and the chat room page that
  drives it (`HttpChatRoom`), which diffs user lists for join and leave
  notices;
- the cross-tab media coordinator, with its 32-bit tab-id hash, its device
  constraints and its lock and owner flags;
- the clamp-and-snap geometry of the three draggable user cards;
- the state machines of the video-call view and the two socket chat rooms.

Each stateful source object is a Dafny `class` whose methods change the
fields the source changes. Transport, browser APIs and timers are replaced
by method inputs: HTTP responses, granted or refused media, socket ids,
fresh ids and timestamps. Everything the code sends is appended to an
output log such as `outbox`, `requests`, `emitted` or `posted`. The pure
parts (hashing, constraints, diffs, clamping and snapping, `trim`) are
functions with lemmas about them.

Modules:

| file | module | source |
|---|---|---|
| wrappers.dfy | Wrappers | `null`/`undefined` and string truthiness |
| text.dfy | Text | `String.prototype.trim` |
| server.dfy | ChatServer | server/index.js |
| client_types.dfy | ClientTypes | the user and message records, the self-filter |
| chat_api.dfy | ChatApi | client/src/utils/SimpleChatAPI.js |
| http_chat_room.dfy | HttpChatRoom | client/src/components/HttpChatRoom.jsx |
| media_coordinator.dfy | MediaCoordinator | client/src/utils/MediaCoordinator.js |
| drag_geometry.dfy | DragGeometry | the shared clamp and snap arithmetic of the cards |
| draggable_current_user_card.dfy | DraggableCurrentUserCard | client/src/components/DraggableCurrentUserCard.jsx |
| current_user_card.dfy | CurrentUserCard | client/src/components/CurrentUserCard.jsx |
| user_card.dfy | UserCard | client/src/components/UserCard.jsx |
| video_call.dfy | VideoCall | client/src/components/VideoCall.jsx |
| chat_room.dfy | ChatRoom | client/src/components/ChatRoom.jsx |
| simple_chat_room.dfy | SimpleChatRoom | client/src/components/SimpleChatRoom.jsx |

## Model

| member | source | states |
|---|---|---|
| Text.IsBlank | client/src/components/HttpChatRoom.jsx:207 | `!s.trim()` holds exactly when every character of `s` is ECMAScript whitespace |
| Text.TrimStartCuts | client/src/components/HttpChatRoom.jsx:208 | trimming the start keeps a suffix that does not begin with whitespace, and what it drops is all whitespace |
| Text.TrimEndCuts | client/src/components/HttpChatRoom.jsx:208 | trimming the end keeps a prefix that does not end with whitespace, and what it drops is all whitespace |
| Text.TrimIsCore | client/src/components/HttpChatRoom.jsx:208 | `trim()` returns a contiguous slice of the input with whitespace-only margins around it, and the slice neither begins nor ends with whitespace |
| Text.TrimIdempotent | client/src/components/ChatRoom.jsx:198 | trimming an already trimmed nickname changes nothing |
| ChatServer.Newest | server/index.js:63 | `slice(-n)` returns the newest `min(n, length)` entries, i.e. a suffix of the log, and the whole log when it is short |
| ChatServer.PostTrimsOldest | server/index.js:78-83 | after push and splice the log holds at most 1000 messages with the new one last; below the cap nothing is dropped, and at the cap only the oldest message is dropped |
| ChatServer.RemoveId | server/index.js:121 | `Map.delete` keeps every other key and no other, in order, and keeps the keys distinct |
| ChatServer.UserListRemove | server/index.js:121-124 | after deleting a socket's key, the broadcast user list is the old list without that socket's user |
| ChatServer.RemoveKeepsOthers | server/index.js:121-124 | inductive core of `UserListRemove`: deleting a key removes exactly the users with that id from the value list |
| ChatServer.SetWellFormed | server/index.js:54 | `Map.set(socket.id, user)` keeps the keys distinct and each user stored under its own id |
| ChatServer.UserListSet | server/index.js:47-54 | a join stores exactly one entry under the socket id, and it is the new user; every other user keeps its place (a repeat join overwrites in place) |
| ChatServer.SetKeepsOthers | server/index.js:54 | storing a user under its id leaves the list of the other users unchanged |
| ChatServer.RemoveLast | server/index.js:121 | deleting a key that was set last gives the same key order as never setting it |
| ChatServer.DistinctCard | server/index.js:28 | the map's size equals the number of its keys in insertion order |
| ChatServer.Server.constructor | server/index.js:21-22 | no users, no messages, nothing sent |
| ChatServer.Server.Connect | server/index.js:42 | a connection only adds the socket to the transport |
| ChatServer.Server.Join | server/index.js:46-66 | the entry under the socket id is `{socket.id, nickname, isOnline: true, joinTime}` (the payload id is ignored); other users are unchanged; `userJoined` goes to everyone but the joiner, `users` with the new list to everyone, and the 50 newest messages to the joiner |
| ChatServer.Server.Post | server/index.js:69-89 | the message with the payload's userId, nickname and text is appended and the log trimmed to the newest 1000; it is sent to every socket |
| ChatServer.Server.Relay | server/index.js:92-102 | an offer, answer or ICE candidate goes unchanged to every connected socket except the sender |
| ChatServer.Server.StartCall | server/index.js:105-107 | `call-started` goes to every socket except the sender |
| ChatServer.Server.EndCall | server/index.js:109-111 | `call-ended` goes to every socket except the sender |
| ChatServer.Server.Disconnect | server/index.js:114-128 | a socket that never joined changes no state and sends nothing; otherwise only its entry is removed, `userLeft` goes to the others, and the broadcast list equals the remaining entries |
| ChatServer.Server.ApiUsers | server/index.js:33-35 | `GET /api/users` lists every online user exactly once, in join order |
| ChatServer.Server.ApiMessages | server/index.js:37-39 | `GET /api/messages` returns the whole log, at most 1000 entries |
| ChatServer.Server.ApiStatus | server/index.js:25-31 | the status endpoint reports the number of online users and of stored messages |
| ClientTypes.CountId | client/src/components/HttpChatRoom.jsx:387 | counts the list entries with an id; zero exactly when no entry has it |
| ClientTypes.Others | client/src/components/HttpChatRoom.jsx:393-394 | `filter(user => user.id !== userInfo?.id)` keeps exactly the users whose id is not the current user's, keeps all of them without a current user, and drops `CountId` entries |
| ChatApi.CheckResult | client/src/utils/SimpleChatAPI.js:35-51 | an ok response yields the server's answer; a failed status or a network error yields "not taken" with a non-empty error text (the network text for a rejected fetch) |
| ChatApi.Refresh | client/src/utils/SimpleChatAPI.js:177-200 | a rejected fetch delivers nothing; otherwise each set callback receives exactly the body of its ok response |
| ChatApi.TriggersRefresh | client/src/utils/SimpleChatAPI.js:219-242 | only `new_message`, `user_joined` and `user_left` trigger a refresh |
| ChatApi.LeaveRequests | client/src/utils/SimpleChatAPI.js:342-372 | one leave request for the user and reason, sent by beacon when beacons are supported and by `fetch` otherwise, plus a synchronous retry exactly when a supported beacon was refused |
| ChatApi.RefreshesOn | client/src/utils/SimpleChatAPI.js:219-238 | an event reaches its refresh only for a refreshing type; `new_message` and `user_left` always do, and `user_joined` exactly when it carries a `user` |
| ChatApi.SimpleChatApi.constructor | client/src/utils/SimpleChatAPI.js:3-14 | not connected, no polling handle, no event stream, no user id or nickname |
| ChatApi.SimpleChatApi.OnMessage | client/src/utils/SimpleChatAPI.js:381-383 | the message callback is registered |
| ChatApi.SimpleChatApi.OnUsers | client/src/utils/SimpleChatAPI.js:385-387 | the users callback is registered |
| ChatApi.SimpleChatApi.CheckNickname | client/src/utils/SimpleChatAPI.js:17-52 | sends one check request and returns `CheckResult` of the response |
| ChatApi.SimpleChatApi.StartPolling | client/src/utils/SimpleChatAPI.js:117-120 | idempotent: a second call while an interval exists creates nothing; otherwise a fresh handle |
| ChatApi.SimpleChatApi.StopPolling | client/src/utils/SimpleChatAPI.js:162-167 | no interval afterwards |
| ChatApi.SimpleChatApi.ConnectSse | client/src/utils/SimpleChatAPI.js:204-208 | idempotent: a second call while a stream exists opens nothing; otherwise one fresh stream is opened |
| ChatApi.SimpleChatApi.DisconnectSse | client/src/utils/SimpleChatAPI.js:261-267 | no event stream afterwards |
| ChatApi.SimpleChatApi.Connect | client/src/utils/SimpleChatAPI.js:55-114 | id and nickname are recorded before the join and stay if it fails; the result is true exactly on an ok response, and only then is the client connected, polling and listening; a failed reconnect leaves it disconnected with polling stopped |
| ChatApi.SimpleChatApi.FetchLatestData | client/src/utils/SimpleChatAPI.js:170-201 | while disconnected nothing is requested or delivered; otherwise both lists are requested and `Refresh` is delivered |
| ChatApi.SimpleChatApi.PollTick | client/src/utils/SimpleChatAPI.js:120-158 | a tick does nothing without an interval or while disconnected; otherwise it refreshes |
| ChatApi.SimpleChatApi.OnServerEvent | client/src/utils/SimpleChatAPI.js:214-246 | an unparsable event, a non-refreshing type, and a `user_joined` without `user` (whose logging throws into the `catch`) do nothing; a refreshing event requests and delivers `Refresh` exactly while connected, and does nothing while disconnected |
| ChatApi.SimpleChatApi.RetryEvents | client/src/utils/SimpleChatAPI.js:248-257 | the delayed retry reopens the stream only when connected and no stream exists |
| ChatApi.SimpleChatApi.SendMessage | client/src/utils/SimpleChatAPI.js:270-333 | false with no request when disconnected or without a truthy id and nickname; otherwise one post with the id, nickname and text, and the result is the response's ok, with a refresh only after success |
| ChatApi.SimpleChatApi.Disconnect | client/src/utils/SimpleChatAPI.js:336-378 | always ends disconnected with neither interval nor stream; with a user id it sends the leave requests and clears id and nickname, otherwise it changes neither |
| HttpChatRoom.NotIn | client/src/components/HttpChatRoom.jsx:81 | keeps exactly the entries whose id is outside the set |
| HttpChatRoom.DiffById | client/src/components/HttpChatRoom.jsx:75-93 | joined are exactly the new entries with an unseen id, left are exactly the old entries whose id is gone; no id is reported both ways, and an id in both lists is never reported even if its nickname changed |
| HttpChatRoom.NotInCovered | client/src/components/HttpChatRoom.jsx:81 | a list whose every id is in the set filters to nothing |
| HttpChatRoom.QuietIffSameIds | client/src/components/HttpChatRoom.jsx:75-93 | an update produces no notice exactly when the two lists carry the same ids |
| HttpChatRoom.OnlineCount | client/src/components/HttpChatRoom.jsx:387 | the header shows the users whose id differs from self, plus one; at least 1, and the list length when self appears once |
| HttpChatRoom.DiffNotices | client/src/components/HttpChatRoom.jsx:81-102 | a join notice with the nickname of each joined user, in list order, followed by a leave notice with the nickname of each user who left, and nothing else |
| HttpChatRoom.JoinGate | client/src/components/HttpChatRoom.jsx:207-228 | the join proceeds exactly when the nickname is not blank, not taken and the check has no error; it stops as blank exactly for an all-whitespace nickname |
| HttpChatRoom.Room.constructor | client/src/components/HttpChatRoom.jsx:55-115 | a fresh client with both callbacks registered, empty lists, first load pending |
| HttpChatRoom.Room.SetNickname | client/src/components/HttpChatRoom.jsx:21 | the nickname field holds the typed text |
| HttpChatRoom.Room.SetCurrentMessage | client/src/components/HttpChatRoom.jsx:20 | the message field holds the typed text |
| HttpChatRoom.Room.OnMessages | client/src/components/HttpChatRoom.jsx:66-69 | messages are replaced only by an array |
| HttpChatRoom.Room.OnUsers | client/src/components/HttpChatRoom.jsx:72-114 | the first call shows no notice and clears the first-load flag; later calls add the diff notices; every call replaces both the snapshot and the shown users |
| HttpChatRoom.Room.Dispatch | client/src/components/HttpChatRoom.jsx:66-114 | an undelivered or non-array message body leaves the messages alone and an array replaces them; a delivered user list replaces users and snapshot, and adds the diff notices against the old snapshot except on the first load; nothing undelivered changes |
| HttpChatRoom.Room.Poll | client/src/utils/SimpleChatAPI.js:120-124 | a tick while disconnected leaves the page unchanged |
| HttpChatRoom.Room.JoinAs | client/src/components/HttpChatRoom.jsx:231-268 | the client records the user and sends the join; local user and connected state are set only on success, otherwise a failure notice and nothing else |
| HttpChatRoom.Room.CheckGate | client/src/components/HttpChatRoom.jsx:214-228 | sends the trimmed nickname for checking and shows the warning or error toast of a stopped join |
| HttpChatRoom.Room.HandleJoinChat | client/src/components/HttpChatRoom.jsx:206-270 | blank nickname: no request at all; taken or check error: its toast, no connect; otherwise join as the trimmed nickname, and local state is set only when connect succeeds |
| HttpChatRoom.Room.SendMessage | client/src/components/HttpChatRoom.jsx:273-308 | without text, user or connection only an error toast; otherwise the input is cleared and, when the client's own guard passes, the trimmed text is posted under the client's id and nickname and the result is the response's ok; every failed send, whichever guard refused it, adds exactly the "消息发送失败" toast and leaves messages and users alone, and a failed post restores the exact trimmed text |
| HttpChatRoom.Room.OnBeforeUnload | client/src/components/HttpChatRoom.jsx:128-148 | as written the handler sends no request at all, listening or not: building the beacon's URL reads `baseUrl`, which is not in scope there and throws; the client stays connected and polling |
| HttpChatRoom.Room.OnBeforeUnloadWithBaseUrl | client/src/components/HttpChatRoom.jsx:128-148 | with the base URL in scope: while listening, the user's leave with reason "tab_close" goes by beacon and, when the beacon is refused, again by synchronous request; otherwise nothing is sent; the client stays connected |
| HttpChatRoom.Room.OnVisibilityChange | client/src/components/HttpChatRoom.jsx:151-159 | hiding a listening page disconnects the client with reason "page_refresh" (the leave requests of `disconnect`); showing it, or a page not listening, changes nothing |
| HttpChatRoom.Room.OnFocus | client/src/components/HttpChatRoom.jsx:162-176 | a listening page fetches the latest data, which requests both lists only while the client is connected; after a hide has disconnected the client a focus requests and changes nothing, since the page's connected flag is never cleared and the reconnect branch is unreachable |
| HttpChatRoom.Room.Unmount | client/src/components/HttpChatRoom.jsx:191-198 | the client is disconnected with reason "back_to_input" |
| MediaCoordinator.ToInt32 | client/src/utils/MediaCoordinator.js:183 | `hash & hash` wraps to the signed 32-bit value congruent modulo 2^32 |
| MediaCoordinator.ToInt32Congruent | client/src/utils/MediaCoordinator.js:182-183 | the wrap depends only on the value modulo 2^32 |
| MediaCoordinator.ModShift | client/src/utils/MediaCoordinator.js:182-183 | adding a multiple of 2^32 does not change the residue |
| MediaCoordinator.Hash | client/src/utils/MediaCoordinator.js:178-185 | the hash is a signed 32-bit value |
| MediaCoordinator.HashIsWrappedPolynomial | client/src/utils/MediaCoordinator.js:178-185 | wrapping at every step equals wrapping once the exact polynomial `sum code[i]*31^(n-1-i)` |
| MediaCoordinator.DeviceIndex | client/src/utils/MediaCoordinator.js:186 | `Math.abs(hash) % count` is a valid index |
| MediaCoordinator.GetDeviceIndex | client/src/utils/MediaCoordinator.js:178-187 | the shift-and-subtract loop returns an index in `[0, deviceCount)` that equals `DeviceIndex`, so the same tab and count always give the same device |
| MediaCoordinator.OfKind | client/src/utils/MediaCoordinator.js:134-135 | keeps exactly the devices of the kind |
| MediaCoordinator.AvailableDevices | client/src/utils/MediaCoordinator.js:130-141 | all video and audio inputs of the enumeration, or two empty lists when enumeration fails |
| MediaCoordinator.BuildDeviceConstraints | client/src/utils/MediaCoordinator.js:146-173 | each kind stays a flag mirroring the request unless requested with more than one device; then the exact device at `DeviceIndex` of that kind, 640x480 video or echo-cancelled, noise-suppressed audio |
| MediaCoordinator.LockAfter | client/src/utils/MediaCoordinator.js:45-61 | media-lock sets the lock, media-release and media-unlock clear it, anything else leaves it |
| MediaCoordinator.Coordinator.constructor | client/src/utils/MediaCoordinator.js:6-21 | not owner, not locked, heartbeat running exactly when a channel exists |
| MediaCoordinator.Coordinator.Post | client/src/utils/MediaCoordinator.js:66-72 | a message is posted exactly when an open channel exists |
| MediaCoordinator.Coordinator.OnChannelMessage | client/src/utils/MediaCoordinator.js:39-62 | a message carrying this tab's own id is ignored; any other updates the lock by `LockAfter` |
| MediaCoordinator.Coordinator.HeartbeatTick | client/src/utils/MediaCoordinator.js:65-73 | a running heartbeat posts one heartbeat on an open channel |
| MediaCoordinator.Coordinator.LockMedia | client/src/utils/MediaCoordinator.js:207-216 | the lock is set, then announced when a channel exists |
| MediaCoordinator.Coordinator.ReleaseMedia | client/src/utils/MediaCoordinator.js:221-249 | leaves owner and lock both false and the heartbeat stopped; announces only when the channel reports open; closes the channel |
| MediaCoordinator.Coordinator.PauseMedia | client/src/utils/MediaCoordinator.js:254-262 | posts only when this tab is the owner and a channel exists |
| MediaCoordinator.Coordinator.ResumeMedia | client/src/utils/MediaCoordinator.js:267-275 | posts only when this tab is the owner and a channel exists |
| MediaCoordinator.Coordinator.VisibilityChange | client/src/utils/MediaCoordinator.js:81-87 | hidden pauses, visible resumes |
| MediaCoordinator.Coordinator.RequestMediaAccess | client/src/utils/MediaCoordinator.js:93-125 | the tab's own devices first, the plain request second; the tab becomes owner exactly when one of them yields a stream, and a double failure yields none |
| DragGeometry.GetBoundaries | client/src/components/DraggableCurrentUserCard.jsx:27-40 | `minX = minY = 0`, `maxX = 0.7*innerWidth - 280`, `maxY = innerHeight - 280` |
| DragGeometry.Clamp | client/src/components/DraggableCurrentUserCard.jsx:102-103 | `max(lo, min(hi, v))` is never below `lo`, within `[lo, hi]` when that is non-empty, `v` when it fits, and the violated bound otherwise |
| DragGeometry.ClampPoint | client/src/components/DraggableCurrentUserCard.jsx:97-103 | both coordinates land inside their non-empty ranges |
| DragGeometry.SnapAxis | client/src/components/DraggableCurrentUserCard.jsx:47-77 | `<= lo+50` goes to `lo`, otherwise `>= hi-50` goes to `hi`, otherwise unchanged; the result is the input or a boundary |
| DragGeometry.SnapToEdge | client/src/components/DraggableCurrentUserCard.jsx:43-78 | a point not near any edge stays where it is, and a moved point was near an edge |
| DragGeometry.SnapAxisIdempotentIff | client/src/components/DraggableCurrentUserCard.jsx:47-77 | snapping one axis twice equals snapping once for every position exactly when the range is wider than 50 or is a single point |
| DragGeometry.SnapToEdgeIdempotent | client/src/components/DraggableCurrentUserCard.jsx:43-78 | `snapToEdge` is idempotent when `maxX > minX+50` and `maxY > minY+50` |
| DragGeometry.LateSnapAxis | client/src/components/CurrentUserCard.jsx:91-115 | below 50 goes to 0 (when max is at least 50); beyond max-50 after that step goes to max; within `[50, max-50]` unchanged; the result lies in `{0, max} ∪ [50, max-50]`, and a clamped coordinate stays in `[0, max]` |
| DragGeometry.SnapPrecedenceDiffers | client/src/components/UserCard.jsx:139-156 | the two snap orders disagree: on a narrow window the low edge wins in one and the high edge in the other, and at exactly 50 one snaps and the other does not |
| DragGeometry.DragMove | client/src/components/CurrentUserCard.jsx:76-118 | the stepwise `finalX`/`finalY` equal `LateSnapAxis` of the clamped target and stay within `[0, max]` |
| DraggableCurrentUserCard.Card.constructor | client/src/components/DraggableCurrentUserCard.jsx:7-10 | starts at `(20, innerHeight - 320)`, idle |
| DraggableCurrentUserCard.Card.PointerDown | client/src/components/DraggableCurrentUserCard.jsx:81-90 | dragging starts with the pointer's offset in the card, and the listeners are installed |
| DraggableCurrentUserCard.Card.PointerMove | client/src/components/DraggableCurrentUserCard.jsx:92-126 | with listeners installed the card goes to the clamped target, never snapped, and the edge hint is `NearEdge` there; the position stays in bounds |
| DraggableCurrentUserCard.Card.PointerUp | client/src/components/DraggableCurrentUserCard.jsx:128-140 | snapping happens only on release, to the latest position; dragging and the edge hint end |
| CurrentUserCard.Card.constructor | client/src/components/CurrentUserCard.jsx:19-20 | starts at `(20, innerHeight - 500)`, idle |
| CurrentUserCard.Card.PointerDown | client/src/components/CurrentUserCard.jsx:40-73 | a control-button press changes nothing; otherwise the offset is pointer minus position and dragging starts |
| CurrentUserCard.Card.PointerMove | client/src/components/CurrentUserCard.jsx:76-118 | ignored unless dragging; otherwise the target pointer minus offset is clamped and snapped with the high edge winning, and it stays in bounds |
| CurrentUserCard.Card.PointerUp | client/src/components/CurrentUserCard.jsx:121-140 | dragging ends |
| CurrentUserCard.FollowsThePointer | client/src/components/CurrentUserCard.jsx:50-53 | away from every edge, press then move displaces the card by exactly the pointer's displacement |
| UserCard.InitialPosition | client/src/components/UserCard.jsx:59 | a position exactly for the current user's card, at `(20, innerHeight - 500)`; `null` otherwise |
| UserCard.DependenciesAsWritten | client/src/components/UserCard.jsx:112 | the press handlers' dependency list throws exactly when the position is `null`, and otherwise carries its coordinates |
| UserCard.OtherUserCardRenderThrows | client/src/components/UserCard.jsx:47-59 | the first render of another user's card (the default `isCurrentUser = false`) throws on `position.x` |
| UserCard.GuardedDependencies | client/src/components/UserCard.jsx:216 | with `position?.x` the list is defined for every card and carries coordinates exactly when there is a position |
| UserCard.GuardedDependenciesAgree | client/src/components/UserCard.jsx:112 | the guarded list equals the written one wherever that does not throw, and carries coordinates on the first render exactly for the current user |
| UserCard.Card.constructor | client/src/components/UserCard.jsx:59-60 | the position is `InitialPosition`: only the current user's card has one, at `(20, innerHeight - 500)` |
| UserCard.Card.PointerDown | client/src/components/UserCard.jsx:75-112 | a drag starts only on the current user's card and never from a control button |
| UserCard.Card.PointerMove | client/src/components/UserCard.jsx:114-162 | ignored unless dragging; otherwise it schedules one animation frame holding the clamped, snapped target and leaves the position alone |
| UserCard.Card.AnimationFrame | client/src/components/UserCard.jsx:159-161 | pending frames run in order, so the position becomes the last one computed; with none pending it is unchanged |
| UserCard.Card.PointerUp | client/src/components/UserCard.jsx:164-184 | dragging ends |
| UserCard.Card.Style | client/src/components/UserCard.jsx:311-316 | the current user's card is fixed exactly at its position; another user's card (rendered with the guarded dependencies) is laid out in flow with no position |
| UserCard.DraggedCardOnTop | client/src/components/UserCard.jsx:314 | the current user's card stacks above every other user's card, and a dragged card above one that is not dragged |
| VideoCall.Call.constructor | client/src/components/VideoCall.jsx:20-27 | no connection, no stream, both flags on, status "准备中..." |
| VideoCall.Call.InitializeLocalStream | client/src/components/VideoCall.jsx:65-84 | a granted stream becomes local with status "已准备就绪" and no error; a refusal keeps stream and status and adds exactly the "无法访问摄像头或麦克风" error |
| VideoCall.Call.CreatePeerConnection | client/src/components/VideoCall.jsx:86-118 | a new connection, distinct from the previous one, becomes current without closing the old one |
| VideoCall.Call.StartCall | client/src/components/VideoCall.jsx:120-132 | installs a new current connection; with an offer it emits exactly that one offer and the status is "发起通话中..."; without one it emits nothing, keeps the status and adds exactly the "发起通话失败" error |
| VideoCall.Call.HandleOffer | client/src/components/VideoCall.jsx:134-148 | always replaces the current connection without closing the old one; with an answer, emits exactly one and the call is on |
| VideoCall.Call.HandleAnswer | client/src/components/VideoCall.jsx:150-160 | no effect without a current connection |
| VideoCall.Call.HandleIceCandidate | client/src/components/VideoCall.jsx:162-170 | a remote candidate goes to the current connection, and is dropped without one |
| VideoCall.Call.LocalIceCandidate | client/src/components/VideoCall.jsx:110-114 | a local candidate is emitted only when non-null |
| VideoCall.Call.HandleCallStarted | client/src/components/VideoCall.jsx:172-175 | the call is on with status "通话中" |
| VideoCall.Call.HandleCallEnded | client/src/components/VideoCall.jsx:177-187 | closes and drops the current connection; call off with status "通话已结束" |
| VideoCall.Call.EndCall | client/src/components/VideoCall.jsx:197-200 | emits `end-call`, then the same teardown |
| VideoCall.Call.ToggleVideo | client/src/components/VideoCall.jsx:202-210 | flips the first video track and mirrors it; no-op without a stream or track |
| VideoCall.Call.ToggleAudio | client/src/components/VideoCall.jsx:212-220 | flips the first audio track and mirrors it; no-op without a stream or track |
| ChatRoom.RequestedConstraints | client/src/components/ChatRoom.jsx:116-119 | video exactly for video or both, audio exactly for audio or both |
| ChatRoom.Room.constructor | client/src/components/ChatRoom.jsx:17-28 | empty lists, no user, both flags on, media not yet requested |
| ChatRoom.Room.OnMessage | client/src/components/ChatRoom.jsx:59-62 | messages append in arrival order |
| ChatRoom.Room.OnUsers | client/src/components/ChatRoom.jsx:64-66 | the user list is replaced |
| ChatRoom.Room.SetNickname | client/src/components/ChatRoom.jsx:21 | the nickname field holds the typed text |
| ChatRoom.Room.SetCurrentMessage | client/src/components/ChatRoom.jsx:19 | the message field holds the typed text |
| ChatRoom.Room.ReleaseStream | client/src/components/ChatRoom.jsx:40-45 | stops the given stream, if any, and calls `releaseMedia` once |
| ChatRoom.Room.BeforeUnload | client/src/components/ChatRoom.jsx:39-53 | page unload or unmount stops the current local stream and releases the media |
| ChatRoom.Room.RequestMediaStream | client/src/components/ChatRoom.jsx:95-135 | stops the old stream and asks for the kind's constraints; a granted stream becomes local and the effect cleanup stops the old stream again and releases the media once; a refusal keeps the (stopped) stream, releases nothing and adds the permission error |
| ChatRoom.Room.HandleJoinChat | client/src/components/ChatRoom.jsx:187-209 | a blank nickname only shows "请输入昵称": no join, no media, form and stream unchanged; otherwise it sets and emits the socket-id user with the trimmed nickname, and media is requested only on the first join, where a grant becomes the local stream and a refusal adds the permission error, and the old stream is stopped before the request and once more after a grant; a later join changes neither stream, stops nor errors |
| ChatRoom.Room.HandleSendMessage | client/src/components/ChatRoom.jsx:211-224 | nothing for blank text or no user; otherwise it emits the trimmed text as the user's and clears the input |
| ChatRoom.Room.HandleToggleAudio | client/src/components/ChatRoom.jsx:233-248 | switching on without a stream or audio track requests audio instead: the old stream is stopped before the request and once more after a grant, a grant becomes the local stream and a refusal adds the permission error; otherwise the track and the flag flip together, only if the track exists, with no request, error or release |
| ChatRoom.Room.HandleToggleVideo | client/src/components/ChatRoom.jsx:250-266 | switching on without a stream or video track requests video instead: the old stream is stopped before the request and once more after a grant, a grant becomes the local stream and a refusal adds the permission error; otherwise the track and the flag flip together, only if the track exists, with no request, error or release |
| ChatRoom.Room.HandleStartVideoCall | client/src/components/ChatRoom.jsx:278-281 | the call is on |
| ChatRoom.Room.HandleEndCall | client/src/components/ChatRoom.jsx:268-274 | the call is off and both audio and video flags are on |
| SimpleChatRoom.Room.constructor | client/src/components/SimpleChatRoom.jsx:16-22 | empty lists, no user, nickname form shown |
| SimpleChatRoom.Room.OnMessage | client/src/components/SimpleChatRoom.jsx:38-41 | a message is appended at the end |
| SimpleChatRoom.Room.OnMessages | client/src/components/SimpleChatRoom.jsx:44-47 | the history replaces the whole list |
| SimpleChatRoom.Room.OnUsers | client/src/components/SimpleChatRoom.jsx:50-53 | the user list is replaced |
| SimpleChatRoom.Room.SetNickname | client/src/components/SimpleChatRoom.jsx:20 | the nickname field holds the typed text |
| SimpleChatRoom.Room.SetCurrentMessage | client/src/components/SimpleChatRoom.jsx:18 | the message field holds the typed text |
| SimpleChatRoom.Room.SendMessage | client/src/components/SimpleChatRoom.jsx:77-89 | emits only non-blank trimmed text from a joined user, then clears the input; otherwise nothing |
| SimpleChatRoom.Room.HandleJoinChat | client/src/components/SimpleChatRoom.jsx:100-118 | a blank nickname is ignored; otherwise the user is the socket id with the trimmed nickname, set and emitted |
| SimpleChatRoom.Room.UsersPanel | client/src/components/SimpleChatRoom.jsx:197-204 | the header counts the whole list; the cards are exactly the users whose id is not the current user's, so the count is the cards plus the current user's entries |

## Left out

- Rendering, antd widgets, CSS, scrolling and console logging: presentation only.
- Success, loading and info toasts are left out. The HTTP chat room's notices and the error toasts of the socket room and the call view are kept. The user-joined and user-left toasts of the socket rooms and of the call view are left out.
- Transport is reduced to inputs and output logs: `fetch`, `EventSource`, `sendBeacon`, `XMLHttpRequest`, socket.io delivery, express routing, `listen` and the SIGTERM handler.
- The server's `connected` set stands for the socket.io transport's own bookkeeping.
- Timers are not modelled: `setInterval`, `setTimeout`, `requestAnimationFrame` cadence, the 500 ms poll, the 100 ms post-join refresh and the 5 s event-stream retry. A tick, retry or frame is a method the caller invokes.
- Random and time sources are inputs or fresh values: `uuidv4`, `generateUserId`, `generateTabId`, `Date.now` and ISO timestamps.
- The extra fields of the client user records are dropped: `isOnline` in the socket rooms and the timestamp in the HTTP room. The `Date.now()` message id and timestamp of the socket room's message payload are dropped too. The server ignores or replaces all of them.
- Peer connections and media are opaque. RTCPeerConnection internals, `getUserMedia`, `getDisplayMedia`, `enumerateDevices`, track cloning and stopping, and `onStreamUpdate` are reduced to handles, flags and granted/refused inputs.
- BroadcastChannel delivery is not modelled; only what a tab posts and receives is.
- `waitForMediaRelease` is a timed wait and is not modelled.
- MediaCoordinator.Coordinator.ReleaseMedia: the channel's `readyState` is an input flag. Browsers give `BroadcastChannel` no `readyState`, so the release may never be announced; the model leaves the choice to the caller.
- MediaCoordinator.GetDeviceIndex: characters are Dafny code points. `charCodeAt` reads UTF-16 code units, so a tab id with a character outside the Basic Multilingual Plane hashes differently. Generated tab ids are ASCII.
- VideoCall: screen sharing (`startScreenShare`/`stopScreenShare`) and the call join and leave toasts are not modelled.
- VideoCall: the socket handlers are registered once and read the first render's `localStream`. The local tracks are never added to the connections built there; track plumbing is not modelled.
- DraggableCurrentUserCard.Card.PointerDown: the source adds new document listeners on every press. The model keeps one listening flag, so listeners stacked by repeated presses without a release are not modelled.
- DragGeometry: coordinates are exact reals, so floating-point rounding of `0.7 * innerWidth` is not modelled.
- HttpChatRoom.Room.Poll: states only that a tick while disconnected leaves the page unchanged. What a connected tick delivers is `ChatApi.SimpleChatApi.PollTick` followed by `Dispatch`.
- ChatRoom.Room.RequestMediaStream: the room's releases are counted in `releases`, not passed to a coordinator object. Each one is `MediaCoordinator.Coordinator.ReleaseMedia`, which ends media ownership and closes the channel. So, as written, a granted stream leaves the tab without ownership right after acquiring it.
- ChatApi: an ok response whose body is not JSON makes `response.json()` reject. The model has no such response: an `Ok` always carries a decoded body.
- HttpChatRoom.Room.OnFocus: the delayed reconnect (`setTimeout` then `connect`) is not modelled, because the listeners exist only while the page's connected flag is set and nothing clears that flag.
- OtherUserCard, SimpleUserCard and App are composition and video playback. The debug scripts and the database check are not part of the program logic. None of them is part of this model.

## Findings

| source | as written | input that shows it | evidently intended | confidence | as-written member | corrected member |
|---|---|---|---|---|---|---|
| client/src/components/UserCard.jsx:112 | the press handlers' dependency lists `[isCurrentUser, position.x, position.y]` (also at line 216) read `x` of a position that is `null` for every card but the current user's | a card rendered with `isCurrentUser` false (its default) | `position?.x` and `position?.y`, so that another user's card renders | high, not executed | UserCard.OtherUserCardRenderThrows | UserCard.GuardedDependenciesAgree |
| client/src/components/HttpChatRoom.jsx:132 | the `beforeunload` handler builds the beacon's URL from `baseUrl`, which is declared only inside the initialising effect (line 59) and inside `handleJoinChat` (line 253), so the read throws a `ReferenceError` and neither the beacon nor the synchronous fallback (line 139) is sent | closing the tab while joined and connected | the page's base URL in scope of the handler, so that the "tab_close" leave is sent | high, not executed | HttpChatRoom.Room.OnBeforeUnload | HttpChatRoom.Room.OnBeforeUnloadWithBaseUrl |
