/**
 * `MediaCoordinator`: coordination of camera and microphone use between
 * browser tabs.  Each tab hashes its id to pick one of several devices,
 * builds the `getUserMedia` constraints from that choice, and keeps a lock
 * flag and an owner flag driven by messages on a broadcast channel.
 *
 * The tab id, the device list and the outcome of each `getUserMedia` call
 * are inputs; the messages this tab posts are recorded in `posted`.
 */
module MediaCoordinator {
  import opened Wrappers

  const TwoTo31: int := 0x8000_0000
  const TwoTo32: int := 0x1_0000_0000

  /** ECMAScript ToInt32: the integer in [-2^31, 2^31) congruent to `x` modulo 2^32. */
  function ToInt32(x: int): (r: int)
    ensures -TwoTo31 <= r < TwoTo31
    ensures (r - x) % TwoTo32 == 0
  {
    (x + TwoTo31) % TwoTo32 - TwoTo31
  }

  /** ToInt32 sees only the residue modulo 2^32. */
  lemma ToInt32Congruent(x: int, y: int)
    requires (x - y) % TwoTo32 == 0
    ensures ToInt32(x) == ToInt32(y)
  {
    var q := (x - y) / TwoTo32;
    assert x + TwoTo31 == (y + TwoTo31) + q * TwoTo32;
    ModShift(y + TwoTo31, q);
  }

  lemma {:induction false} ModShift(a: int, q: int)
    ensures (a + q * TwoTo32) % TwoTo32 == a % TwoTo32
    decreases if q < 0 then -q else q
  {
    if q > 0 {
      ModShift(a, q - 1);
      assert a + q * TwoTo32 == (a + (q - 1) * TwoTo32) + TwoTo32;
    } else if q < 0 {
      ModShift(a, q + 1);
      assert a + q * TwoTo32 == (a + (q + 1) * TwoTo32) - TwoTo32;
    }
  }

  /** One step of the tab-id hash: `h * 31 + code`, wrapped to 32 bits. */
  function HashStep(h: int, c: char): int
  {
    ToInt32(31 * h + c as int)
  }

  /** The 32-bit hash of a tab id, folded from its first character. */
  function Hash(s: string): (h: int)
    ensures -TwoTo31 <= h < TwoTo31
  {
    if s == [] then 0 else HashStep(Hash(s[..|s| - 1]), s[|s| - 1])
  }

  /** The unwrapped polynomial `sum code[i] * 31^(n-1-i)` over the characters. */
  function Polynomial(s: string): int
  {
    if s == [] then 0 else 31 * Polynomial(s[..|s| - 1]) + s[|s| - 1] as int
  }

  /**
   * Wrapping after every step gives the same hash as computing the whole
   * polynomial exactly and wrapping once.
   */
  lemma {:induction false} HashIsWrappedPolynomial(s: string)
    ensures Hash(s) == ToInt32(Polynomial(s))
  {
    if s != [] {
      var p := s[..|s| - 1];
      var c := s[|s| - 1] as int;
      HashIsWrappedPolynomial(p);
      var k := (Hash(p) - Polynomial(p)) / TwoTo32;
      assert Hash(p) == Polynomial(p) + k * TwoTo32;
      assert 31 * Hash(p) + c == 31 * Polynomial(p) + c + (31 * k) * TwoTo32;
      ModShift(31 * Polynomial(p) + c, 31 * k);
      ToInt32Congruent(31 * Hash(p) + c, 31 * Polynomial(p) + c);
    }
  }

  function Abs(x: int): nat
  {
    if x < 0 then -x else x
  }

  /** The device a tab picks out of `count`: `Math.abs(hash) % count`. */
  function DeviceIndex(tabId: string, count: nat): (i: nat)
    requires count >= 1
    ensures i < count
  {
    Abs(Hash(tabId)) % count
  }

  /**
   * `getDeviceIndex` as the loop computes it: `(hash << 5) - hash + code`,
   * where the shift wraps its result, then `hash & hash` wraps the sum.
   */
  method GetDeviceIndex(tabId: string, deviceCount: nat) returns (index: nat)
    requires deviceCount >= 1
    ensures index < deviceCount
    ensures index == DeviceIndex(tabId, deviceCount)
  {
    var hash := 0;
    var i := 0;
    while i < |tabId|
      invariant 0 <= i <= |tabId|
      invariant hash == Hash(tabId[..i])
    {
      var code := tabId[i] as int;
      var shifted := ToInt32(hash * 32);
      hash := shifted - hash + code;
      ToInt32Congruent(hash, 31 * Hash(tabId[..i]) + code);
      hash := ToInt32(hash);
      assert tabId[..i + 1][..i] == tabId[..i];
      i := i + 1;
    }
    assert tabId[..|tabId|] == tabId;
    index := Abs(hash) % deviceCount;
  }

  /** A media input device as `enumerateDevices` lists it. */
  datatype DeviceInfo = DeviceInfo(deviceId: string, kind: string)

  /** The video and audio inputs, each in enumeration order. */
  datatype Devices = Devices(video: seq<DeviceInfo>, audio: seq<DeviceInfo>)

  /** Keeps the devices of one kind, in order. */
  function OfKind(all: seq<DeviceInfo>, kind: string): (r: seq<DeviceInfo>)
    ensures forall d :: d in r <==> d in all && d.kind == kind
    ensures |r| <= |all|
  {
    if all == [] then []
    else if all[0].kind == kind then [all[0]] + OfKind(all[1..], kind)
    else OfKind(all[1..], kind)
  }

  /**
   * `getAvailableDevices`: the video and audio inputs of the enumeration,
   * or two empty lists when enumeration failed (`None`).
   */
  function AvailableDevices(enumerated: Option<seq<DeviceInfo>>): (r: Devices)
    ensures enumerated.None? ==> r.video == [] && r.audio == []
    ensures forall d :: d in r.video ==> d.kind == "videoinput"
    ensures forall d :: d in r.audio ==> d.kind == "audioinput"
    ensures enumerated.Some? ==>
      (forall d :: d in enumerated.value && d.kind == "videoinput" ==> d in r.video)
      && (forall d :: d in enumerated.value && d.kind == "audioinput" ==> d in r.audio)
  {
    match enumerated
    case None => Devices([], [])
    case Some(all) => Devices(OfKind(all, "videoinput"), OfKind(all, "audioinput"))
  }

  /** What the caller asks for (`{ video, audio }`, each read for truthiness). */
  datatype MediaRequest = MediaRequest(video: bool, audio: bool)

  datatype VideoConstraint =
    | VideoFlag(on: bool)
    | ExactVideo(videoId: string, idealWidth: nat, idealHeight: nat)

  datatype AudioConstraint =
    | AudioFlag(enabled: bool)
    | ExactAudio(audioId: string, echoCancellation: bool, noiseSuppression: bool)

  datatype DeviceConstraints = DeviceConstraints(video: VideoConstraint, audio: AudioConstraint)

  /**
   * `buildDeviceConstraints`: each kind mirrors the request as a boolean
   * unless it is requested and there is more than one device of that kind;
   * then the tab's own device of that kind is demanded exactly.
   */
  function BuildDeviceConstraints(tabId: string, devices: Devices, request: MediaRequest): (r: DeviceConstraints)
    ensures r.video.VideoFlag? <==> !(request.video && |devices.video| > 1)
    ensures r.video.VideoFlag? ==> r.video.on == request.video
    ensures r.video.ExactVideo? ==>
      && r.video.videoId == devices.video[DeviceIndex(tabId, |devices.video|)].deviceId
      && r.video.idealWidth == 640 && r.video.idealHeight == 480
    ensures r.audio.AudioFlag? <==> !(request.audio && |devices.audio| > 1)
    ensures r.audio.AudioFlag? ==> r.audio.enabled == request.audio
    ensures r.audio.ExactAudio? ==>
      && r.audio.audioId == devices.audio[DeviceIndex(tabId, |devices.audio|)].deviceId
      && r.audio.echoCancellation && r.audio.noiseSuppression
  {
    var video :=
      if request.video && |devices.video| > 1
      then ExactVideo(devices.video[DeviceIndex(tabId, |devices.video|)].deviceId, 640, 480)
      else VideoFlag(request.video);
    var audio :=
      if request.audio && |devices.audio| > 1
      then ExactAudio(devices.audio[DeviceIndex(tabId, |devices.audio|)].deviceId, true, true)
      else AudioFlag(request.audio);
    DeviceConstraints(video, audio)
  }

  /** The lock flag after a coordination message of `kind` from another tab. */
  function LockAfter(lock: bool, kind: string): (r: bool)
    ensures kind == "media-lock" ==> r
    ensures kind == "media-release" || kind == "media-unlock" ==> !r
    ensures kind !in {"media-lock", "media-release", "media-unlock"} ==> r == lock
  {
    match kind
    case "media-lock" => true
    case "media-release" => false
    case "media-unlock" => false
    case _ => lock
  }

  /** A message this tab posts on the channel; each carries its tab id. */
  datatype Signal = Heartbeat | MediaLock | MediaRelease | MediaPause | MediaResume

  /** Where the media stream came from. */
  datatype StreamSource = ChosenDevices(constraints: DeviceConstraints) | DefaultDevices(request: MediaRequest)

  class Coordinator {
    const tabId: string
    /** Whether a channel was created (`BroadcastChannel` supported). */
    const hasChannel: bool
    /** Whether `close()` has been called on the channel. */
    var channelClosed: bool
    var isMediaOwner: bool
    var mediaLock: bool
    var heartbeatRunning: bool
    var posted: seq<Signal>

    /**
     * A new tab: not the owner, not locked, and with the heartbeat running
     * exactly when a channel exists.
     */
    constructor (tabId: string, channelSupported: bool)
      ensures this.tabId == tabId && hasChannel == channelSupported && !channelClosed
      ensures !isMediaOwner && !mediaLock && posted == []
      ensures heartbeatRunning == channelSupported
    {
      this.tabId := tabId;
      hasChannel := channelSupported;
      channelClosed := false;
      isMediaOwner := false;
      mediaLock := false;
      heartbeatRunning := channelSupported;
      posted := [];
    }

    /** Posts on the channel when it exists; a closed channel refuses (the post throws). */
    method Post(s: Signal) returns (ok: bool)
      modifies this`posted
      ensures ok <==> hasChannel && !channelClosed
      ensures posted == old(posted) + (if ok then [s] else [])
    {
      if hasChannel && !channelClosed {
        posted := posted + [s];
        ok := true;
      } else {
        ok := false;
      }
    }

    /**
     * The channel's `onmessage`, which only an open channel delivers: a
     * message from this very tab is ignored.
     */
    method OnChannelMessage(kind: string, senderTab: string)
      requires hasChannel && !channelClosed
      modifies this`mediaLock
      ensures senderTab == tabId ==> mediaLock == old(mediaLock)
      ensures senderTab != tabId ==> mediaLock == LockAfter(old(mediaLock), kind)
    {
      if senderTab == tabId {
        return;
      }
      mediaLock := LockAfter(mediaLock, kind);
    }

    /** One tick of the heartbeat interval. */
    method HeartbeatTick()
      modifies this`posted
      ensures heartbeatRunning && hasChannel && !channelClosed ==> posted == old(posted) + [Heartbeat]
      ensures !(heartbeatRunning && hasChannel && !channelClosed) ==> posted == old(posted)
    {
      if heartbeatRunning {
        var _ := Post(Heartbeat);
      }
    }

    /** `lockMedia`: sets the lock, then announces it (`ok` is false when the post throws). */
    method LockMedia() returns (ok: bool)
      modifies this`mediaLock, this`posted
      ensures mediaLock
      ensures ok <==> !hasChannel || !channelClosed
      ensures posted == old(posted) + (if hasChannel && !channelClosed then [MediaLock] else [])
    {
      mediaLock := true;
      ok := true;
      if hasChannel {
        ok := Post(MediaLock);
      }
    }

    /**
     * `releaseMedia`: gives up ownership and the lock, announces the release
     * only when the channel reports itself open, closes the channel and
     * stops the heartbeat.
     */
    method ReleaseMedia(readyStateOpen: bool)
      modifies this`isMediaOwner, this`mediaLock, this`posted, this`channelClosed, this`heartbeatRunning
      ensures !isMediaOwner && !mediaLock && !heartbeatRunning
      ensures channelClosed == (old(channelClosed) || hasChannel)
      ensures posted == old(posted) + (if hasChannel && readyStateOpen && !old(channelClosed) then [MediaRelease] else [])
    {
      isMediaOwner := false;
      mediaLock := false;
      if hasChannel {
        if readyStateOpen {
          var _ := Post(MediaRelease);
        }
        channelClosed := true;
      }
      heartbeatRunning := false;
    }

    /** `pauseMedia`: announced only by the owner, and only with a channel. */
    method PauseMedia()
      modifies this`posted
      ensures posted == old(posted) + (if isMediaOwner && hasChannel && !channelClosed then [MediaPause] else [])
    {
      if isMediaOwner && hasChannel {
        var _ := Post(MediaPause);
      }
    }

    /** `resumeMedia`: announced only by the owner, and only with a channel. */
    method ResumeMedia()
      modifies this`posted
      ensures posted == old(posted) + (if isMediaOwner && hasChannel && !channelClosed then [MediaResume] else [])
    {
      if isMediaOwner && hasChannel {
        var _ := Post(MediaResume);
      }
    }

    /** The document's `visibilitychange`: hidden pauses, visible resumes. */
    method VisibilityChange(hidden: bool)
      modifies this`posted
      ensures hidden ==> posted == old(posted) + (if isMediaOwner && hasChannel && !channelClosed then [MediaPause] else [])
      ensures !hidden ==> posted == old(posted) + (if isMediaOwner && hasChannel && !channelClosed then [MediaResume] else [])
    {
      if hidden {
        PauseMedia();
      } else {
        ResumeMedia();
      }
    }

    /**
     * `requestMediaAccess`: tries this tab's own devices first and the plain
     * request second; the tab becomes the media owner exactly when one of
     * them yields a stream, and a second failure is passed on (`None`).
     */
    method RequestMediaAccess(request: MediaRequest, enumerated: Option<seq<DeviceInfo>>,
                              chosenGranted: bool, defaultGranted: bool)
      returns (source: Option<StreamSource>)
      modifies this`isMediaOwner
      ensures chosenGranted ==>
        source == Some(ChosenDevices(BuildDeviceConstraints(tabId, AvailableDevices(enumerated), request)))
      ensures !chosenGranted && defaultGranted ==> source == Some(DefaultDevices(request))
      ensures !chosenGranted && !defaultGranted ==> source.None?
      ensures isMediaOwner == (source.Some? || old(isMediaOwner))
    {
      var devices := AvailableDevices(enumerated);
      var constraints := BuildDeviceConstraints(tabId, devices, request);
      if chosenGranted {
        source := Some(ChosenDevices(constraints));
      } else if defaultGranted {
        source := Some(DefaultDevices(request));
      } else {
        return None;
      }
      isMediaOwner := true;
    }
  }
}
