/**
 * `VideoCall`: the one-to-one call view.  It holds at most one current
 * peer connection, replaces it when a call starts or an offer arrives,
 * closes it when the call ends, and mirrors the local tracks' enabled
 * flags into its state.
 *
 * Peer connections are handles from a counter; whether each asynchronous
 * WebRTC step succeeds is an input; what goes out on the socket is
 * recorded in `emitted`.
 */
module VideoCall {
  import opened Wrappers
  import opened ClientTypes

  /** What the view sends on the socket; descriptions name the connection that made them. */
  datatype Outgoing = Offer(fromPeer: nat) | Answer(byPeer: nat) | IceCandidate(candidate: string) | EndCall

  const ReadyStatus := "准备中..."
  const PreparedStatus := "已准备就绪"
  const CallingStatus := "发起通话中..."
  const InCallStatus := "通话中"
  const EndedStatus := "通话已结束"

  const MediaDeniedText := "无法访问摄像头或麦克风"
  const CallFailedText := "发起通话失败"

  class Call {
    /** `peerConnectionRef.current`. */
    var peer: Option<nat>
    /** The handle the next `new RTCPeerConnection` gets. */
    var nextPeer: nat
    /** Connections on which `close()` was called. */
    var closed: set<nat>
    /** Remote ICE candidates added, with the connection they went to. */
    var candidates: seq<(nat, string)>
    var localStream: Option<LocalStream>
    var isVideoEnabled: bool
    var isAudioEnabled: bool
    var isInCall: bool
    var callStatus: string
    var emitted: seq<Outgoing>
    /** The error toasts shown, oldest first. */
    var errors: seq<string>

    /** The current connection is one that was made and has not been closed. */
    ghost predicate Valid()
      reads this
    {
      && (peer.Some? ==> peer.value < nextPeer && peer.value !in closed)
      && (forall h :: h in closed ==> h < nextPeer)
    }

    constructor ()
      ensures Valid() && peer.None? && closed == {} && emitted == [] && candidates == []
      ensures localStream.None? && isVideoEnabled && isAudioEnabled && !isInCall
      ensures callStatus == ReadyStatus && errors == []
    {
      peer, nextPeer, closed, candidates := None, 0, {}, [];
      localStream, isVideoEnabled, isAudioEnabled := None, true, true;
      isInCall, callStatus, emitted, errors := false, ReadyStatus, [], [];
    }

    /**
     * `initializeLocalStream`: a granted stream becomes the local stream; a
     * refusal only shows an error.
     */
    method InitializeLocalStream(granted: Option<LocalStream>)
      modifies this`localStream, this`callStatus, this`errors
      ensures granted.Some? ==> localStream == granted && callStatus == PreparedStatus && errors == old(errors)
      ensures granted.None? ==>
        localStream == old(localStream) && callStatus == old(callStatus) && errors == old(errors) + [MediaDeniedText]
    {
      if granted.Some? {
        localStream := granted;
        callStatus := PreparedStatus;
      } else {
        errors := errors + [MediaDeniedText];
      }
    }

    /** `createPeerConnection`: a new connection becomes current; the old one is not closed. */
    method CreatePeerConnection() returns (h: nat)
      requires Valid()
      modifies this`peer, this`nextPeer
      ensures Valid()
      ensures h == old(nextPeer) && peer == Some(h) && nextPeer == h + 1
      ensures old(peer).Some? ==> old(peer).value != h
    {
      h := nextPeer;
      nextPeer := nextPeer + 1;
      peer := Some(h);
    }

    /**
     * `startCall`: a new current connection, and when the offer is created
     * exactly one offer from it is emitted; otherwise an error is shown.
     */
    method StartCall(offerCreated: bool)
      requires Valid()
      modifies this`peer, this`nextPeer, this`emitted, this`callStatus, this`errors
      ensures Valid()
      ensures peer == Some(old(nextPeer)) && closed == old(closed)
      ensures offerCreated ==>
        emitted == old(emitted) + [Offer(old(nextPeer))] && callStatus == CallingStatus && errors == old(errors)
      ensures !offerCreated ==>
        emitted == old(emitted) && callStatus == old(callStatus) && errors == old(errors) + [CallFailedText]
    {
      var h := CreatePeerConnection();
      if offerCreated {
        emitted := emitted + [Offer(h)];
        callStatus := CallingStatus;
      } else {
        errors := errors + [CallFailedText];
      }
    }

    /**
     * `handleOffer`: always a new current connection without closing the
     * previous one; when the answer is made, exactly one answer is emitted
     * and the call is on.
     */
    method HandleOffer(answerCreated: bool)
      requires Valid()
      modifies this`peer, this`nextPeer, this`emitted, this`callStatus, this`isInCall
      ensures Valid()
      ensures peer == Some(old(nextPeer)) && closed == old(closed)
      ensures answerCreated ==>
        emitted == old(emitted) + [Answer(old(nextPeer))] && callStatus == InCallStatus && isInCall
      ensures !answerCreated ==>
        emitted == old(emitted) && callStatus == old(callStatus) && isInCall == old(isInCall)
    {
      var h := CreatePeerConnection();
      if answerCreated {
        emitted := emitted + [Answer(h)];
        callStatus := InCallStatus;
        isInCall := true;
      }
    }

    /** `handleAnswer`: without a current connection nothing happens. */
    method HandleAnswer(accepted: bool)
      modifies this`callStatus, this`isInCall
      ensures peer.Some? && accepted ==> callStatus == InCallStatus && isInCall
      ensures !(peer.Some? && accepted) ==> callStatus == old(callStatus) && isInCall == old(isInCall)
    {
      if peer.Some? && accepted {
        callStatus := InCallStatus;
        isInCall := true;
      }
    }

    /** `handleIceCandidate`: goes to the current connection, if there is one. */
    method HandleIceCandidate(candidate: string)
      modifies this`candidates
      ensures peer.None? ==> candidates == old(candidates)
      ensures peer.Some? ==> candidates == old(candidates) + [(peer.value, candidate)]
    {
      if peer.Some? {
        candidates := candidates + [(peer.value, candidate)];
      }
    }

    /** A local ICE event of a connection: only a real candidate is sent on. */
    method LocalIceCandidate(candidate: Option<string>)
      modifies this`emitted
      ensures candidate.Some? ==> emitted == old(emitted) + [IceCandidate(candidate.value)]
      ensures candidate.None? ==> emitted == old(emitted)
    {
      if candidate.Some? {
        emitted := emitted + [IceCandidate(candidate.value)];
      }
    }

    /** `handleCallStarted`: the call is on. */
    method HandleCallStarted()
      modifies this`callStatus, this`isInCall
      ensures callStatus == InCallStatus && isInCall
    {
      callStatus := InCallStatus;
      isInCall := true;
    }

    /**
     * `handleCallEnded`: the call is off with the ended status, and the
     * current connection, if any, is closed and dropped.
     */
    method HandleCallEnded()
      requires Valid()
      modifies this`callStatus, this`isInCall, this`peer, this`closed
      ensures Valid()
      ensures callStatus == EndedStatus && !isInCall && peer.None?
      ensures closed == old(closed) + (if old(peer).Some? then {old(peer).value} else {})
    {
      callStatus := EndedStatus;
      isInCall := false;
      if peer.Some? {
        closed := closed + {peer.value};
        peer := None;
      }
    }

    /** `endCall`: tells the room, then tears down as `handleCallEnded` does. */
    method EndCall()
      requires Valid()
      modifies this`callStatus, this`isInCall, this`peer, this`closed, this`emitted
      ensures Valid()
      ensures emitted == old(emitted) + [Outgoing.EndCall]
      ensures callStatus == EndedStatus && !isInCall && peer.None?
      ensures closed == old(closed) + (if old(peer).Some? then {old(peer).value} else {})
    {
      emitted := emitted + [Outgoing.EndCall];
      HandleCallEnded();
    }

    /**
     * `toggleVideo`: flips the first video track and mirrors the new flag;
     * without a stream or a video track nothing changes.
     */
    method ToggleVideo()
      modifies this`localStream, this`isVideoEnabled
      ensures old(localStream).None? || old(localStream).value.videoTrack.None? ==>
        localStream == old(localStream) && isVideoEnabled == old(isVideoEnabled)
      ensures old(localStream).Some? && old(localStream).value.videoTrack.Some? ==>
        && localStream == Some(old(localStream).value.(videoTrack := Some(!old(localStream).value.videoTrack.value)))
        && isVideoEnabled == localStream.value.videoTrack.value
    {
      if localStream.Some? && localStream.value.videoTrack.Some? {
        var enabled := !localStream.value.videoTrack.value;
        localStream := Some(localStream.value.(videoTrack := Some(enabled)));
        isVideoEnabled := enabled;
      }
    }

    /**
     * `toggleAudio`: flips the first audio track and mirrors the new flag;
     * without a stream or an audio track nothing changes.
     */
    method ToggleAudio()
      modifies this`localStream, this`isAudioEnabled
      ensures old(localStream).None? || old(localStream).value.audioTrack.None? ==>
        localStream == old(localStream) && isAudioEnabled == old(isAudioEnabled)
      ensures old(localStream).Some? && old(localStream).value.audioTrack.Some? ==>
        && localStream == Some(old(localStream).value.(audioTrack := Some(!old(localStream).value.audioTrack.value)))
        && isAudioEnabled == localStream.value.audioTrack.value
    {
      if localStream.Some? && localStream.value.audioTrack.Some? {
        var enabled := !localStream.value.audioTrack.value;
        localStream := Some(localStream.value.(audioTrack := Some(enabled)));
        isAudioEnabled := enabled;
      }
    }
  }
}
