/**
 * `ChatRoom`: the socket chat room with the local user's camera and
 * microphone.  It appends pushed messages, replaces the user list, emits
 * joins and messages, asks for media once on the first join and switches
 * the local tracks on and off.
 *
 * The outcome of each media request is an input; what the room emits on
 * the socket is recorded in `emitted`, the media it asks for in
 * `mediaRequests`, its error toasts in `errors`, the streams whose tracks
 * it stops in `stopped`, and its calls of the coordinator's `releaseMedia`
 * in `releases`.
 */
module ChatRoom {
  import opened Wrappers
  import opened Text
  import opened ClientTypes
  import MediaCoordinator

  /** The kind of media `requestMediaStream` is asked for. */
  datatype MediaKind = Audio | Video | Both

  /** The constraints a request passes on: video for video or both, audio for audio or both. */
  function RequestedConstraints(kind: MediaKind): (r: MediaCoordinator.MediaRequest)
    ensures r.video <==> kind == Video || kind == Both
    ensures r.audio <==> kind == Audio || kind == Both
    ensures r.video || r.audio
  {
    MediaCoordinator.MediaRequest(kind == Video || kind == Both, kind == Audio || kind == Both)
  }

  /** What the room sends on the socket. */
  datatype Emit =
    | JoinEmit(user: User)
    | MessageEmit(userId: string, nickname: string, text: string)

  const NicknameRequiredText := "请输入昵称"
  const MediaFailedText := "获取音视频权限失败，请检查设备权限"

  /** The streams a stop of `stream` stops: none when there is no stream. */
  function Stops(stream: Option<LocalStream>): (r: seq<LocalStream>)
    ensures |r| <= 1
    ensures r == [] <==> stream.None?
    ensures forall x :: x in r ==> stream == Some(x)
  {
    if stream.Some? then [stream.value] else []
  }

  class Room {
    var messages: seq<ChatMessage>
    var users: seq<User>
    var currentMessage: string
    var userInfo: Option<User>
    var nickname: string
    var showNicknameInput: bool
    var isAudioEnabled: bool
    var isVideoEnabled: bool
    var isInCall: bool
    var localStream: Option<LocalStream>
    var hasRequestedMedia: bool
    var emitted: seq<Emit>
    var mediaRequests: seq<MediaCoordinator.MediaRequest>
    var errors: seq<string>
    var stopped: seq<LocalStream>
    var releases: nat

    constructor ()
      ensures messages == [] && users == [] && currentMessage == "" && userInfo.None? && nickname == ""
      ensures showNicknameInput && isAudioEnabled && isVideoEnabled && !isInCall
      ensures localStream.None? && !hasRequestedMedia
      ensures emitted == [] && mediaRequests == [] && errors == []
      ensures stopped == [] && releases == 0
    {
      messages, users, currentMessage, userInfo, nickname := [], [], "", None, "";
      showNicknameInput, isAudioEnabled, isVideoEnabled, isInCall := true, true, true, false;
      localStream, hasRequestedMedia := None, false;
      emitted, mediaRequests, errors := [], [], [];
      stopped, releases := [], 0;
    }

    /** The socket's `message` event: appended in arrival order. */
    method OnMessage(m: ChatMessage)
      modifies this`messages
      ensures messages == old(messages) + [m]
    {
      messages := messages + [m];
    }

    /** The socket's `users` event: the list is replaced. */
    method OnUsers(list: seq<User>)
      modifies this`users
      ensures users == list
    {
      users := list;
    }

    /** Typing in the nickname field. */
    method SetNickname(text: string)
      modifies this`nickname
      ensures nickname == text
    {
      nickname := text;
    }

    /** Typing in the message field. */
    method SetCurrentMessage(text: string)
      modifies this`currentMessage
      ensures currentMessage == text
    {
      currentMessage := text;
    }

    /**
     * The `[localStream]` effect's `beforeunload` handler, which is also its
     * cleanup: the stream it was installed for is stopped and the
     * coordinator's media released.  It runs on page unload, on unmount and
     * whenever the local stream changes.
     */
    method ReleaseStream(stream: Option<LocalStream>)
      modifies this`stopped, this`releases
      ensures stopped == old(stopped) + Stops(stream)
      ensures releases == old(releases) + 1
    {
      if stream.Some? {
        stopped := stopped + [stream.value];
      }
      releases := releases + 1;
    }

    /** Page unload or unmount: the cleanup for the current local stream. */
    method BeforeUnload()
      modifies this`stopped, this`releases
      ensures stopped == old(stopped) + Stops(localStream)
      ensures releases == old(releases) + 1
    {
      ReleaseStream(localStream);
    }

    /**
     * `requestMediaStream(kind)`: stops the old stream's tracks and asks for
     * the kind's constraints; a stream that comes back replaces the local
     * stream, and that change runs the effect cleanup for the old stream,
     * which stops it again and releases the media; a failure shows an error.
     */
    method RequestMediaStream(kind: MediaKind, granted: Option<LocalStream>)
      modifies this`mediaRequests, this`localStream, this`errors, this`stopped, this`releases
      ensures mediaRequests == old(mediaRequests) + [RequestedConstraints(kind)]
      ensures granted.Some? ==>
        && localStream == granted && errors == old(errors)
        && stopped == old(stopped) + Stops(old(localStream)) + Stops(old(localStream))
        && releases == old(releases) + 1
      ensures granted.None? ==>
        && localStream == old(localStream) && errors == old(errors) + [MediaFailedText]
        && stopped == old(stopped) + Stops(old(localStream)) && releases == old(releases)
    {
      var previous := localStream;
      if previous.Some? {
        stopped := stopped + [previous.value];
      }
      mediaRequests := mediaRequests + [RequestedConstraints(kind)];
      if granted.Some? {
        localStream := granted;
        ReleaseStream(previous);
      } else {
        errors := errors + [MediaFailedText];
      }
    }

    /**
     * `handleJoinChat`: a blank nickname only shows an error; otherwise the
     * user (the socket's id and the trimmed nickname) is set and emitted,
     * and media for both kinds is asked for only on the first join.
     */
    method HandleJoinChat(socketId: string, granted: Option<LocalStream>)
      modifies this`userInfo, this`showNicknameInput, this`emitted, this`hasRequestedMedia,
               this`mediaRequests, this`localStream, this`errors, this`stopped, this`releases
      ensures IsBlank(nickname) ==>
        && errors == old(errors) + [NicknameRequiredText]
        && emitted == old(emitted) && userInfo == old(userInfo) && mediaRequests == old(mediaRequests)
        && showNicknameInput == old(showNicknameInput) && hasRequestedMedia == old(hasRequestedMedia)
        && localStream == old(localStream) && stopped == old(stopped) && releases == old(releases)
      ensures !IsBlank(nickname) ==>
        && userInfo == Some(User(socketId, Trim(nickname))) && !showNicknameInput
        && emitted == old(emitted) + [JoinEmit(User(socketId, Trim(nickname)))]
        && hasRequestedMedia
        && mediaRequests == old(mediaRequests) + (if old(hasRequestedMedia) then [] else [RequestedConstraints(Both)])
      ensures !IsBlank(nickname) && old(hasRequestedMedia) ==>
        && localStream == old(localStream) && errors == old(errors)
        && stopped == old(stopped) && releases == old(releases)
      ensures !IsBlank(nickname) && !old(hasRequestedMedia) ==>
        stopped == old(stopped) + Stops(old(localStream)) + (if granted.Some? then Stops(old(localStream)) else [])
      ensures !IsBlank(nickname) && !old(hasRequestedMedia) && granted.Some? ==>
        localStream == granted && errors == old(errors) && releases == old(releases) + 1
      ensures !IsBlank(nickname) && !old(hasRequestedMedia) && granted.None? ==>
        localStream == old(localStream) && errors == old(errors) + [MediaFailedText] && releases == old(releases)
    {
      if IsBlank(nickname) {
        errors := errors + [NicknameRequiredText];
        return;
      }
      var user := User(socketId, Trim(nickname));
      userInfo := Some(user);
      showNicknameInput := false;
      emitted := emitted + [JoinEmit(user)];
      if !hasRequestedMedia {
        hasRequestedMedia := true;
        RequestMediaStream(Both, granted);
      }
    }

    /**
     * `handleSendMessage`: nothing for blank text or without a user;
     * otherwise the trimmed text is emitted as the user's and the input cleared.
     */
    method HandleSendMessage()
      modifies this`emitted, this`currentMessage
      ensures IsBlank(old(currentMessage)) || userInfo.None? ==>
        emitted == old(emitted) && currentMessage == old(currentMessage)
      ensures !IsBlank(old(currentMessage)) && userInfo.Some? ==>
        && emitted == old(emitted) + [MessageEmit(userInfo.value.id, userInfo.value.nickname, Trim(old(currentMessage)))]
        && currentMessage == ""
    {
      if IsBlank(currentMessage) || userInfo.None? {
        return;
      }
      emitted := emitted + [MessageEmit(userInfo.value.id, userInfo.value.nickname, Trim(currentMessage))];
      currentMessage := "";
    }

    /**
     * `handleToggleAudio`: switching on with no stream or no audio track
     * asks for audio instead; otherwise the first audio track and the flag
     * take the new value together, and only when the track exists.
     */
    method HandleToggleAudio(granted: Option<LocalStream>)
      modifies this`isAudioEnabled, this`localStream, this`mediaRequests, this`errors, this`stopped, this`releases
      ensures var turnOn := !old(isAudioEnabled);
        && (turnOn && (old(localStream).None? || old(localStream).value.audioTrack.None?) ==>
              && mediaRequests == old(mediaRequests) + [RequestedConstraints(Audio)]
              && isAudioEnabled == old(isAudioEnabled)
              && stopped == old(stopped) + Stops(old(localStream))
                            + (if granted.Some? then Stops(old(localStream)) else [])
              && (granted.Some? ==> localStream == granted && errors == old(errors) && releases == old(releases) + 1)
              && (granted.None? ==>
                    localStream == old(localStream) && errors == old(errors) + [MediaFailedText]
                    && releases == old(releases)))
        && (!(turnOn && (old(localStream).None? || old(localStream).value.audioTrack.None?)) ==>
              && mediaRequests == old(mediaRequests) && errors == old(errors)
              && stopped == old(stopped) && releases == old(releases))
        && (old(localStream).Some? && old(localStream).value.audioTrack.Some? ==>
              && localStream == Some(old(localStream).value.(audioTrack := Some(turnOn)))
              && isAudioEnabled == turnOn)
        && (!turnOn && (old(localStream).None? || old(localStream).value.audioTrack.None?) ==>
              localStream == old(localStream) && isAudioEnabled == old(isAudioEnabled))
    {
      var turnOn := !isAudioEnabled;
      if turnOn && (localStream.None? || localStream.value.audioTrack.None?) {
        RequestMediaStream(Audio, granted);
      } else if localStream.Some? {
        if localStream.value.audioTrack.Some? {
          localStream := Some(localStream.value.(audioTrack := Some(turnOn)));
          isAudioEnabled := turnOn;
        }
      }
    }

    /**
     * `handleToggleVideo`: switching on with no stream or no video track
     * asks for video instead; otherwise the first video track and the flag
     * take the new value together, and only when the track exists.
     */
    method HandleToggleVideo(granted: Option<LocalStream>)
      modifies this`isVideoEnabled, this`localStream, this`mediaRequests, this`errors, this`stopped, this`releases
      ensures var turnOn := !old(isVideoEnabled);
        && (turnOn && (old(localStream).None? || old(localStream).value.videoTrack.None?) ==>
              && mediaRequests == old(mediaRequests) + [RequestedConstraints(Video)]
              && isVideoEnabled == old(isVideoEnabled)
              && stopped == old(stopped) + Stops(old(localStream))
                            + (if granted.Some? then Stops(old(localStream)) else [])
              && (granted.Some? ==> localStream == granted && errors == old(errors) && releases == old(releases) + 1)
              && (granted.None? ==>
                    localStream == old(localStream) && errors == old(errors) + [MediaFailedText]
                    && releases == old(releases)))
        && (!(turnOn && (old(localStream).None? || old(localStream).value.videoTrack.None?)) ==>
              && mediaRequests == old(mediaRequests) && errors == old(errors)
              && stopped == old(stopped) && releases == old(releases))
        && (old(localStream).Some? && old(localStream).value.videoTrack.Some? ==>
              && localStream == Some(old(localStream).value.(videoTrack := Some(turnOn)))
              && isVideoEnabled == turnOn)
        && (!turnOn && (old(localStream).None? || old(localStream).value.videoTrack.None?) ==>
              localStream == old(localStream) && isVideoEnabled == old(isVideoEnabled))
    {
      var turnOn := !isVideoEnabled;
      if turnOn && (localStream.None? || localStream.value.videoTrack.None?) {
        RequestMediaStream(Video, granted);
      } else if localStream.Some? {
        if localStream.value.videoTrack.Some? {
          localStream := Some(localStream.value.(videoTrack := Some(turnOn)));
          isVideoEnabled := turnOn;
        }
      }
    }

    /** `handleStartVideoCall`: the call is on. */
    method HandleStartVideoCall()
      modifies this`isInCall
      ensures isInCall
    {
      isInCall := true;
    }

    /** `handleEndCall`: the call is off and both media flags are back on. */
    method HandleEndCall()
      modifies this`isInCall, this`isAudioEnabled, this`isVideoEnabled
      ensures !isInCall && isAudioEnabled && isVideoEnabled
    {
      isInCall := false;
      isAudioEnabled := true;
      isVideoEnabled := true;
    }
  }
}
