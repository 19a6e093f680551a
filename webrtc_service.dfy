/**
  The RTCClient of src/services/webrtc.service.ts: one object whose boolean
  flags decide what each trigger does. Inbound relay messages, socket and
  connection events, the login acknowledgement and the user's
  `publishStream` each become a method; the socket, the RTCPeerConnection
  and getUserMedia are opaque, so their outcomes arrive as parameters and
  what the client asks of them is logged in `outbox` (socket emits) and
  `peerLog` (peer-connection calls).
 */
module WebRtcService {
  import opened Signal

  /** The HTMLDivElement the client is built for. */
  datatype Container = Container(id: nat)

  /** The MediaStreamConstraints passed to getUserMedia. */
  datatype MediaConstraints = MediaConstraints(audio: bool, video: bool)

  datatype SocketOptions = SocketOptions(path: string, forceNew: bool, reconnection: bool, transports: seq<string>)

  datatype RtcConfig = RtcConfig(iceServers: seq<string>)

  /** What `init` opened its socket and peer connection with. */
  datatype Endpoint = Endpoint(url: string, options: SocketOptions, rtc: RtcConfig)

  datatype ConnectionState = New | Connecting | Connected | Disconnected | Failed | Closed

  /** Events the client emits to its own subscribers (it extends an event emitter). */
  datatype ClientEvent = IncomingCall

  /** The relay's acknowledgement of a `login` request. */
  datatype LoginReply = LoginReply(success: bool, isPublisher: bool)

  /** How the synchronous part of `createOffer` / `createAnswer` ends. */
  datatype CreateStart = AlreadyPublished | NoConnection | AwaitingDescription

  /** The socket options the class starts with. */
  function DefaultSocketOptions(path: string): SocketOptions
  {
    SocketOptions(path, true, false, ["websocket"])
  }

  /** The static configuration of RTCClient, shared by every instance. */
  class ClientConfig {
    var socketOptions: SocketOptions
    var socketUrl: string
    var rtcConfig: RtcConfig

    constructor (url: string, path: string, iceServers: seq<string>)
      ensures socketUrl == url && socketOptions == DefaultSocketOptions(path)
      ensures rtcConfig == RtcConfig(iceServers)
    {
      socketUrl := url;
      socketOptions := DefaultSocketOptions(path);
      rtcConfig := RtcConfig(iceServers);
    }

    method SetSocketOptions(options: SocketOptions)
      modifies this`socketOptions
      ensures socketOptions == options
    {
      socketOptions := options;
    }

    /** As written: the class's own url is assigned to itself and `url` is ignored. */
    method SetScocketUrl(url: string)
      modifies this`socketUrl
      ensures socketUrl == old(socketUrl)
    {
      socketUrl := socketUrl;
    }

    /** The setter as evidently intended: the new url is stored. */
    method SetSocketUrl(url: string)
      modifies this`socketUrl
      ensures socketUrl == url
    {
      socketUrl := url;
    }

    method SetRtcConfig(config: RtcConfig)
      modifies this`rtcConfig
      ensures rtcConfig == config
    {
      rtcConfig := config;
    }
  }

  class RTCClient {
    const container: Container
    const constraints: MediaConstraints

    var socketOpen: bool          // socket !== null
    var rtcOpen: bool             // rtc !== null
    var endpoint: Option<Endpoint>
    var localStream: Option<seq<Track>>
    var userName: string
    var roomName: string
    var isPublisher: bool
    var hasInit: bool
    var socketInitSuccess: bool
    var rtcInitSuccess: bool
    var hasPublish: bool
    var initPromise: Outcome      // the promise the latest `init` returned
    var outbox: seq<Msg>
    var peerLog: seq<PeerCall>    // calls on the current peer connection
    var pendingAcks: nat         // login requests whose acknowledgement has not arrived
    var emitted: seq<ClientEvent>

    /** The invariant every handler keeps. */
    ghost predicate Wf()
      reads this
    {
      && !hasInit
      && socketOpen == rtcOpen
      && (socketOpen <==> endpoint.Some?)
      && (!socketOpen ==> outbox == [])
      && (initPromise == Resolved ==> socketInitSuccess && rtcInitSuccess)
      && (SdpCount(outbox) > 0 ==> hasPublish)
    }

    /** At most one session description has been relayed. */
    ghost predicate AtMostOnce()
      reads this
    {
      SdpCount(outbox) <= 1
    }

    constructor (container: Container, constraints: MediaConstraints)
      ensures Wf() && AtMostOnce()
      ensures this.container == container && this.constraints == constraints
      ensures !socketOpen && !rtcOpen && endpoint == None && localStream == None
      ensures userName == "" && roomName == ""
      ensures !isPublisher && !socketInitSuccess && !rtcInitSuccess && !hasPublish
      ensures outbox == [] && peerLog == [] && pendingAcks == 0 && emitted == []
    {
      this.container := container;
      this.constraints := constraints;
      socketOpen, rtcOpen, endpoint := false, false, None;
      localStream := None;
      userName, roomName := "", "";
      isPublisher, hasInit := false, false;
      socketInitSuccess, rtcInitSuccess, hasPublish := false, false, false;
      initPromise := Pending;
      outbox, peerLog, emitted := [], [], [];
      pendingAcks := 0;
    }

    /**
      `init`: refused when `hasInit` holds, which never happens, so every call
      opens a fresh socket and peer connection and returns a pending promise.
      The success flags of an earlier connection are not reset.
     */
    method Init(cfg: ClientConfig) returns (r: Outcome)
      requires Wf()
      modifies this`socketOpen, this`rtcOpen, this`endpoint, this`initPromise, this`peerLog
      ensures Wf()
      ensures r == Pending && initPromise == Pending
      ensures socketOpen && rtcOpen && peerLog == []
      ensures endpoint == Some(Endpoint(cfg.socketUrl, cfg.socketOptions, cfg.rtcConfig))
    {
      if hasInit {
        r := Rejected;
        return;
      }
      endpoint := Some(Endpoint(cfg.socketUrl, cfg.socketOptions, cfg.rtcConfig));
      socketOpen, rtcOpen := true, true;
      peerLog := [];
      initPromise := Pending;
      r := Pending;
    }

    /** The socket's 'connect' event. */
    method OnSocketConnect()
      requires Wf() && socketOpen
      modifies this`socketInitSuccess, this`initPromise
      ensures Wf()
      ensures socketInitSuccess
      ensures old(initPromise) != Pending ==> initPromise == old(initPromise)
      ensures old(initPromise) == Pending ==> initPromise == (if rtcInitSuccess then Resolved else Pending)
    {
      socketInitSuccess := true;
      if socketInitSuccess && rtcInitSuccess {
        initPromise := Settle(initPromise, Resolved);
      }
    }

    /** The peer connection's 'connectionstatechange' event. */
    method OnConnectionStateChange(state: ConnectionState)
      requires Wf()
      modifies this`rtcInitSuccess, this`initPromise
      ensures Wf()
      ensures !rtcOpen || state !in {Connected, Disconnected, Failed} ==>
                rtcInitSuccess == old(rtcInitSuccess) && initPromise == old(initPromise)
      ensures rtcOpen && state == Connected ==>
                rtcInitSuccess &&
                initPromise == (if socketInitSuccess then Settle(old(initPromise), Resolved) else old(initPromise))
      ensures rtcOpen && state in {Disconnected, Failed} ==>
                rtcInitSuccess == old(rtcInitSuccess) && initPromise == Settle(old(initPromise), Rejected)
    {
      if !rtcOpen {
        return;
      }
      match state {
        case Connected =>
          rtcInitSuccess := true;
          if socketInitSuccess && rtcInitSuccess {
            initPromise := Settle(initPromise, Resolved);
          }
        case Disconnected =>
          initPromise := Settle(initPromise, Rejected);
        case Failed =>
          initPromise := Settle(initPromise, Rejected);
        case Closed =>
        case New =>
        case Connecting =>
      }
    }

    /** The socket's 'error' event. */
    method OnSocketError()
      requires Wf() && socketOpen
      modifies this`initPromise
      ensures Wf()
      ensures initPromise == Settle(old(initPromise), Rejected)
      ensures initPromise != Resolved ==> initPromise == Rejected
    {
      initPromise := Settle(initPromise, Rejected);
    }

    /**
      An inbound 'send_sdp'. Its own echo is ignored; otherwise the
      description is applied, and the handler's promise rejects when applying
      it fails.
     */
    method OnSendSdp(sender: string, data: Description, applyOk: bool) returns (r: Outcome)
      requires Wf() && socketOpen
      modifies this`peerLog
      ensures Wf()
      ensures sender == userName ==> peerLog == old(peerLog) && r == Resolved
      ensures sender != userName ==>
                peerLog == old(peerLog) + [SetRemote(data)] && r == (if applyOk then Resolved else Rejected)
    {
      if sender == userName {
        return Resolved;
      }
      r := Resolved;
      if rtcOpen {
        peerLog := peerLog + [SetRemote(data)];
        if !applyOk {
          r := Rejected;
        }
      }
    }

    /**
      An inbound 'candidate'. Echoes and null candidates are dropped; a failing
      `addIceCandidate` is caught, so the handler always completes: the error
      is logged and swallowed, and `addOk` changes nothing.
     */
    method OnCandidate(sender: string, data: Option<Candidate>, addOk: bool) returns (r: Outcome)
      requires Wf() && socketOpen
      modifies this`peerLog
      ensures Wf()
      ensures r == Resolved
      ensures peerLog == old(peerLog) + (if sender != userName && data.Some? then [AddIce(data.value)] else [])
    {
      r := Resolved;
      if sender == userName {
        return;
      }
      if data.None? {
        return;
      }
      if rtcOpen {
        peerLog := peerLog + [AddIce(data.value)];
      }
    }

    /**
      An inbound 'call' from another user: the client tells its subscribers,
      becomes the answering side and publishes at once (there is no approval
      step). The returned promise of `publishStream` is not awaited.
     */
    method OnCall(sender: string, media: Option<seq<Track>>, creation: Creation) returns (published: Outcome)
      requires Wf() && socketOpen
      modifies this`emitted, this`isPublisher, this`localStream, this`peerLog, this`hasPublish, this`outbox
      ensures Wf() && (old(AtMostOnce()) ==> AtMostOnce())
      ensures sender == userName ==>
                && emitted == old(emitted) && isPublisher == old(isPublisher) && localStream == old(localStream)
                && peerLog == old(peerLog) && hasPublish == old(hasPublish) && outbox == old(outbox)
      ensures sender != userName ==>
                && emitted == old(emitted) + [IncomingCall] && !isPublisher
                && PublishEffect(media, creation, Answer, published)
    {
      published := Pending;
      if sender == userName {
        return;
      }
      emitted := emitted + [IncomingCall];
      isPublisher := false;
      published := PublishStream(media, creation);
    }

    /** The peer connection's 'icecandidate' event: the candidate (or its end, None) is relayed. */
    method OnIceCandidate(candidate: Option<Candidate>)
      requires Wf() && rtcOpen
      modifies this`outbox
      ensures Wf() && (old(AtMostOnce()) ==> AtMostOnce())
      ensures outbox == old(outbox) + (if socketOpen then [CandidateMsg(candidate)] else [])
    {
      if socketOpen {
        SdpCountAppend(outbox, [CandidateMsg(candidate)]);
        outbox := outbox + [CandidateMsg(candidate)];
      }
    }

    /** `login`: rejected without a socket, otherwise the request is sent and the promise waits for the ack. */
    method Login(roomName: string, userName: string) returns (r: Outcome)
      requires Wf()
      modifies this`outbox, this`pendingAcks
      ensures Wf() && (old(AtMostOnce()) ==> AtMostOnce())
      ensures !socketOpen ==> r == Rejected && outbox == old(outbox) && pendingAcks == old(pendingAcks)
      ensures socketOpen ==>
                && r == Pending && outbox == old(outbox) + [LoginReq(userName, roomName)]
                && pendingAcks == old(pendingAcks) + 1
    {
      if !socketOpen {
        return Rejected;
      }
      SdpCountAppend(outbox, [LoginReq(userName, roomName)]);
      outbox := outbox + [LoginReq(userName, roomName)];
      pendingAcks := pendingAcks + 1;
      r := Pending;
    }

    /**
      The acknowledgement of a login request, which arrives once per request.
      On success the identity is stored,
      `isPublisher` is assigned to itself (the role in the reply is ignored) and
      the login promise is never resolved; on failure it is rejected.
     */
    method OnLoginAck(roomName: string, userName: string, reply: LoginReply) returns (r: Outcome)
      requires Wf() && pendingAcks > 0 && LoginReq(userName, roomName) in outbox
      modifies this`userName, this`roomName, this`isPublisher, this`pendingAcks
      ensures Wf()
      ensures pendingAcks == old(pendingAcks) - 1
      ensures r != Resolved
      ensures isPublisher == old(isPublisher)
      ensures reply.success ==> r == Pending && this.userName == userName && this.roomName == roomName
      ensures !reply.success ==> r == Rejected && this.userName == old(this.userName) && this.roomName == old(this.roomName)
    {
      if reply.success {
        this.userName := userName;
        this.roomName := roomName;
        isPublisher := isPublisher;
        r := Pending;
      } else {
        r := Rejected;
      }
      pendingAcks := pendingAcks - 1;
    }

    /** The new state after `createOffer` / `createAnswer` of `kind`, once its await has completed. */
    twostate predicate CompletionEffect(base: seq<PeerCall>, kind: SdpKind, creation: Creation, r: Outcome)
      reads this
    {
      match creation
      case CreateFailed =>
        r == Rejected && hasPublish == old(hasPublish) && peerLog == base && outbox == old(outbox)
      case Created(sdp) =>
        && hasPublish
        && (sdp == "" ==> r == Pending && peerLog == base && outbox == old(outbox))
        && (sdp != "" ==>
              && r == Resolved
              && peerLog == base + [SetLocal(Description(kind, sdp))]
              && outbox == old(outbox) + (if socketOpen then [SendSdp(Description(kind, sdp))] else []))
    }

    /** The new state after a whole `createOffer` / `createAnswer` of `kind`, not overlapped by another. */
    twostate predicate CreateEffect(base: seq<PeerCall>, kind: SdpKind, creation: Creation, r: Outcome)
      reads this
    {
      if old(hasPublish) then
        r == Resolved && hasPublish && peerLog == base && outbox == old(outbox)
      else if !rtcOpen then
        r == Rejected && !hasPublish && peerLog == base && outbox == old(outbox)
      else
        CompletionEffect(base, kind, creation, r)
    }

    /**
      The new state after `publishStream` when the created description is of
      `kind`. The `addTrack` promise settles on the first track, so a throw on
      a later track does not stop the creation.
     */
    twostate predicate PublishEffect(media: Option<seq<Track>>, creation: Creation, kind: SdpKind, r: Outcome)
      reads this
    {
      match media
      case None =>
        && r == Rejected && localStream == old(localStream)
        && peerLog == old(peerLog) && hasPublish == old(hasPublish) && outbox == old(outbox)
      case Some(tracks) =>
        && localStream == media
        && if tracks == [] || !rtcOpen || HasSender(old(peerLog), tracks[0]) then
             && r == (if tracks == [] then Pending else Rejected)
             && peerLog == old(peerLog) && hasPublish == old(hasPublish) && outbox == old(outbox)
           else
             CreateEffect(AddTracks(old(peerLog), tracks).log, kind, creation, r)
    }

    /** The synchronous part of `createOffer` / `createAnswer`, up to the awaited description. */
    method BeginCreate() returns (s: CreateStart)
      ensures s == AlreadyPublished <==> hasPublish
      ensures s == NoConnection <==> !hasPublish && !rtcOpen
      ensures s == AwaitingDescription <==> !hasPublish && rtcOpen
    {
      if hasPublish {
        return AlreadyPublished;
      }
      if !rtcOpen {
        return NoConnection;
      }
      s := AwaitingDescription;
    }

    /**
      The continuation of `createOffer` / `createAnswer` after the awaited
      description: `hasPublish` is set only once a description exists, without
      looking at it again. An empty description leaves the promise pending.
     */
    method CompleteCreate(kind: SdpKind, creation: Creation) returns (r: Outcome)
      requires Wf() && rtcOpen
      modifies this`hasPublish, this`peerLog, this`outbox
      ensures Wf()
      ensures SdpCount(outbox) <= SdpCount(old(outbox)) + 1
      ensures CompletionEffect(old(peerLog), kind, creation, r)
    {
      if creation.CreateFailed? {
        return Rejected;
      }
      hasPublish := true;
      r := Pending;
      if creation.sdp != "" {
        var desc := Description(kind, creation.sdp);
        peerLog := peerLog + [SetLocal(desc)];
        if socketOpen {
          SdpCountAppend(outbox, [SendSdp(desc)]);
          outbox := outbox + [SendSdp(desc)];
        }
        r := Resolved;
      }
    }

    /** `createOffer` and `createAnswer`, run without another one overlapping it. */
    method CreateDescription(kind: SdpKind, creation: Creation) returns (r: Outcome)
      requires Wf()
      modifies this`hasPublish, this`peerLog, this`outbox
      ensures Wf() && (old(AtMostOnce()) ==> AtMostOnce())
      ensures CreateEffect(old(peerLog), kind, creation, r)
    {
      var s := BeginCreate();
      match s {
        case AlreadyPublished => r := Resolved;
        case NoConnection => r := Rejected;
        case AwaitingDescription =>
          assert SdpCount(outbox) == 0;
          r := CompleteCreate(kind, creation);
      }
    }

    method CreateOffer(creation: Creation) returns (r: Outcome)
      requires Wf()
      modifies this`hasPublish, this`peerLog, this`outbox
      ensures Wf() && (old(AtMostOnce()) ==> AtMostOnce())
      ensures CreateEffect(old(peerLog), Offer, creation, r)
    {
      r := CreateDescription(Offer, creation);
    }

    method CreateAnswer(creation: Creation) returns (r: Outcome)
      requires Wf()
      modifies this`hasPublish, this`peerLog, this`outbox
      ensures Wf() && (old(AtMostOnce()) ==> AtMostOnce())
      ensures CreateEffect(old(peerLog), Answer, creation, r)
    {
      r := CreateDescription(Answer, creation);
    }

    /**
      `addTrack`: rejected without a local stream. The tracks are added in
      turn; the promise settles on the first track, so a stream without tracks
      leaves it pending. Without a peer connection every track rejects it; an
      `addTrack` that throws (the track already has a sender) ends the
      iteration and rejects the promise unless it already resolved.
     */
    method AddTrack() returns (r: Outcome)
      requires Wf()
      modifies this`peerLog
      ensures Wf()
      ensures localStream.None? ==> r == Rejected && peerLog == old(peerLog)
      ensures localStream.Some? ==>
                var tracks := localStream.value;
                && r == (if tracks == [] then Pending
                         else if rtcOpen && !HasSender(old(peerLog), tracks[0]) then Resolved
                         else Rejected)
                && peerLog == (if rtcOpen then AddTracks(old(peerLog), tracks).log else old(peerLog))
    {
      if localStream.None? {
        return Rejected;
      }
      var tracks := localStream.value;
      ghost var firstAdded := tracks != [] && rtcOpen && !HasSender(peerLog, tracks[0]);
      r := Pending;
      var i, threw := 0, false;
      while i < |tracks| && !threw
        invariant 0 <= i <= |tracks|
        invariant r == (if i == 0 then Pending else if firstAdded then Resolved else Rejected)
        invariant threw ==> i > 0
        invariant !rtcOpen ==> peerLog == old(peerLog) && !threw
        invariant rtcOpen && !threw ==> AddTracks(old(peerLog), tracks) == AddTracks(peerLog, tracks[i..])
        invariant rtcOpen && threw ==> AddTracks(old(peerLog), tracks) == Added(peerLog, true)
        invariant i == 0 ==> peerLog == old(peerLog)
      {
        if !rtcOpen {
          r := Settle(r, Rejected);
        } else if HasSender(peerLog, tracks[i]) {
          AddTracksStep(peerLog, tracks, i);
          threw := true;
          r := Settle(r, Rejected);
        } else {
          AddTracksStep(peerLog, tracks, i);
          peerLog := peerLog + [AddTrackCall(tracks[i])];
          r := Settle(r, Resolved);
        }
        i := i + 1;
      }
      assert rtcOpen && !threw ==> tracks[i..] == [];
    }

    /**
      `publishStream`: acquire the local stream (`media` is what getUserMedia
      delivered), add its tracks, then offer when `isPublisher` holds and
      answer otherwise. Any rejection along the way rejects the whole.
     */
    method PublishStream(media: Option<seq<Track>>, creation: Creation) returns (r: Outcome)
      requires Wf()
      modifies this`localStream, this`peerLog, this`hasPublish, this`outbox
      ensures Wf() && (old(AtMostOnce()) ==> AtMostOnce())
      ensures PublishEffect(media, creation, KindFor(isPublisher), r)
    {
      if media.None? {
        return Rejected;
      }
      localStream := media;
      var added := AddTrack();
      if added != Resolved {
        return added;
      }
      if isPublisher {
        r := CreateOffer(creation);
      } else {
        r := CreateAnswer(creation);
      }
    }

    /** `destroy` has an empty body. */
    method Destroy()
      ensures unchanged(this)
    {
    }
  }

  /** RTCClient's static `clientInstance` and its accessor. */
  class ClientRegistry {
    var clientInstance: RTCClient?

    constructor ()
      ensures clientInstance == null
    {
      clientInstance := null;
    }

    /** The first call creates the client; every later call returns it, whatever it is given. */
    method GetClientInstance(container: Container, constraints: MediaConstraints) returns (c: RTCClient)
      modifies this
      ensures clientInstance == c
      ensures old(clientInstance) != null ==> c == old(clientInstance)
      ensures old(clientInstance) == null ==>
                && fresh(c) && c.Wf() && c.AtMostOnce()
                && c.container == container && c.constraints == constraints
                && !c.socketOpen && c.outbox == [] && !c.hasPublish && c.userName == ""
    {
      if clientInstance == null {
        clientInstance := new RTCClient(container, constraints);
      }
      c := clientInstance;
    }
  }
}
