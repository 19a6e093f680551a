/**
  The inline negotiation engine of src/views/home/Index.tsx. The module owns
  one relay socket and two once-only listener guards. Every render of the
  component runs its body again: fresh `let` variables (`localStream`,
  `isPublisher`, `hasPublish`) and a fresh RTCPeerConnection, modelled as a
  RenderScope. The guards let only the first render install listeners, so
  inbound relay messages and candidate events always act on that render's
  variables, while the buttons act on the render that drew them.
 */
module HomeView {
  import opened Signal

  /** The module-level relay socket; `outbox` is everything emitted on it. */
  class Socket {
    var outbox: seq<Msg>

    constructor ()
      ensures outbox == []
    {
      outbox := [];
    }
  }

  /** The variables and the peer connection of one render of the component. */
  class RenderScope {
    const socket: Socket
    const userName: string
    const roomName: string
    var localStream: Option<seq<Track>>
    var isPublisher: bool
    var hasPublish: bool
    var peerLog: seq<PeerCall>
    var pendingAcks: nat        // 'login' requests whose acknowledgement has not arrived
    ghost var sdpSent: nat      // 'send_sdp' messages this render put on the socket

    ghost predicate Wf()
      reads this
    {
      sdpSent > 0 ==> hasPublish
    }

    ghost predicate AtMostOnce()
      reads this
    {
      sdpSent <= 1
    }

    constructor (socket: Socket, userName: string, roomName: string)
      ensures Wf() && AtMostOnce()
      ensures this.socket == socket && this.userName == userName && this.roomName == roomName
      ensures localStream == None && isPublisher && !hasPublish && peerLog == [] && pendingAcks == 0 && sdpSent == 0
    {
      this.socket := socket;
      this.userName := userName;
      this.roomName := roomName;
      localStream := None;
      isPublisher := true;
      hasPublish := false;
      peerLog := [];
      pendingAcks := 0;
      sdpSent := 0;
    }

    /** `getLocalStream`: `media` is what getUserMedia delivered; a failure is only logged. */
    method GetLocalStream(media: Option<seq<Track>>)
      modifies this`localStream
      ensures localStream == (if media.Some? then media else old(localStream))
    {
      if media.Some? {
        localStream := media;
      }
    }

    /** The new state after `createOffer` / `createAnswer` of `kind`, once its awaits have completed. */
    twostate predicate CompletionEffect(base: seq<PeerCall>, kind: SdpKind, creation: Creation, setLocalOk: bool)
      reads this, socket
    {
      match creation
      case CreateFailed =>
        hasPublish == old(hasPublish) && peerLog == base && socket.outbox == old(socket.outbox) && sdpSent == old(sdpSent)
      case Created(sdp) =>
        && hasPublish
        && (sdp == "" ==> peerLog == base && socket.outbox == old(socket.outbox) && sdpSent == old(sdpSent))
        && (sdp != "" ==>
              && peerLog == base + [SetLocal(Description(kind, sdp))]
              && (setLocalOk ==>
                    socket.outbox == old(socket.outbox) + [SendSdp(Description(kind, sdp))] && sdpSent == old(sdpSent) + 1)
              && (!setLocalOk ==> socket.outbox == old(socket.outbox) && sdpSent == old(sdpSent)))
    }

    /** The new state after a whole `createOffer` / `createAnswer` of `kind`, not overlapped by another. */
    twostate predicate CreateEffect(base: seq<PeerCall>, kind: SdpKind, creation: Creation, setLocalOk: bool)
      reads this, socket
    {
      if old(hasPublish) then
        hasPublish && peerLog == base && socket.outbox == old(socket.outbox) && sdpSent == old(sdpSent)
      else
        CompletionEffect(base, kind, creation, setLocalOk)
    }

    /**
      The new state after `publishStream` when the created description is of
      `kind`; `ok` is false when an `addTrack` threw, which rejects it before
      any description is created.
     */
    twostate predicate PublishEffect(kind: SdpKind, creation: Creation, setLocalOk: bool, ok: bool)
      reads this, socket
    {
      match localStream
      case None =>
        ok && hasPublish == old(hasPublish) && peerLog == old(peerLog)
        && socket.outbox == old(socket.outbox) && sdpSent == old(sdpSent)
      case Some(tracks) =>
        var added := AddTracks(old(peerLog), tracks);
        && ok == !added.threw
        && (added.threw ==>
              && hasPublish == old(hasPublish) && peerLog == added.log
              && socket.outbox == old(socket.outbox) && sdpSent == old(sdpSent))
        && (!added.threw ==> CreateEffect(added.log, kind, creation, setLocalOk))
    }

    /** The synchronous part of `createOffer` / `createAnswer`: whether it goes on to the await. */
    method BeginCreate() returns (proceed: bool)
      ensures proceed <==> !hasPublish
    {
      proceed := !hasPublish;
    }

    /**
      The continuation after the awaited description: `hasPublish` is set
      before `setLocalDescription` is awaited, so a failure there leaves it
      set with nothing relayed. Every error is caught and logged.
     */
    method CompleteCreate(kind: SdpKind, creation: Creation, setLocalOk: bool)
      requires Wf()
      modifies this`hasPublish, this`peerLog, this`sdpSent, socket`outbox
      ensures Wf()
      ensures sdpSent <= old(sdpSent) + 1
      ensures CompletionEffect(old(peerLog), kind, creation, setLocalOk)
    {
      if creation.CreateFailed? {
        return;
      }
      hasPublish := true;
      if creation.sdp != "" {
        var desc := Description(kind, creation.sdp);
        peerLog := peerLog + [SetLocal(desc)];
        if setLocalOk {
          socket.outbox := socket.outbox + [SendSdp(desc)];
          sdpSent := sdpSent + 1;
        }
      }
    }

    /** `createOffer` and `createAnswer`, run without another one overlapping it. */
    method CreateDescription(kind: SdpKind, creation: Creation, setLocalOk: bool)
      requires Wf()
      modifies this`hasPublish, this`peerLog, this`sdpSent, socket`outbox
      ensures Wf() && (old(AtMostOnce()) ==> AtMostOnce())
      ensures CreateEffect(old(peerLog), kind, creation, setLocalOk)
    {
      var proceed := BeginCreate();
      if proceed {
        CompleteCreate(kind, creation, setLocalOk);
      }
    }

    method CreateOffer(creation: Creation, setLocalOk: bool)
      requires Wf()
      modifies this`hasPublish, this`peerLog, this`sdpSent, socket`outbox
      ensures Wf() && (old(AtMostOnce()) ==> AtMostOnce())
      ensures CreateEffect(old(peerLog), Offer, creation, setLocalOk)
    {
      CreateDescription(Offer, creation, setLocalOk);
    }

    method CreateAnswer(creation: Creation, setLocalOk: bool)
      requires Wf()
      modifies this`hasPublish, this`peerLog, this`sdpSent, socket`outbox
      ensures Wf() && (old(AtMostOnce()) ==> AtMostOnce())
      ensures CreateEffect(old(peerLog), Answer, creation, setLocalOk)
    {
      CreateDescription(Answer, creation, setLocalOk);
    }

    /**
      `publishStream`: nothing without a local stream; otherwise every track
      is added, then an offer is created when `isPublisher` holds and an
      answer otherwise. An `addTrack` that throws escapes the iteration and
      rejects the whole (`ok` false).
     */
    method PublishStream(creation: Creation, setLocalOk: bool) returns (ok: bool)
      requires Wf()
      modifies this`hasPublish, this`peerLog, this`sdpSent, socket`outbox
      ensures Wf() && (old(AtMostOnce()) ==> AtMostOnce())
      ensures PublishEffect(KindFor(isPublisher), creation, setLocalOk, ok)
    {
      if localStream.None? {
        return true;
      }
      var tracks := localStream.value;
      var i, threw := 0, false;
      while i < |tracks| && !threw
        invariant 0 <= i <= |tracks|
        invariant !threw ==> AddTracks(old(peerLog), tracks) == AddTracks(peerLog, tracks[i..])
        invariant threw ==> AddTracks(old(peerLog), tracks) == Added(peerLog, true)
        invariant hasPublish == old(hasPublish) && sdpSent == old(sdpSent) && socket.outbox == old(socket.outbox)
      {
        AddTracksStep(peerLog, tracks, i);
        if HasSender(peerLog, tracks[i]) {
          threw := true;
        } else {
          peerLog := peerLog + [AddTrackCall(tracks[i])];
        }
        i := i + 1;
      }
      if threw {
        return false;
      }
      assert tracks[i..] == [];
      ok := true;
      if isPublisher {
        CreateOffer(creation, setLocalOk);
      } else {
        CreateAnswer(creation, setLocalOk);
      }
    }

    /**
      `call`: become the publisher, publish completely, and only then send the
      invitation; when publishing rejects, the invitation is never sent.
     */
    method Call(creation: Creation, setLocalOk: bool)
      requires Wf()
      modifies this`isPublisher, this`hasPublish, this`peerLog, this`sdpSent, socket`outbox
      ensures Wf() && (old(AtMostOnce()) ==> AtMostOnce())
      ensures isPublisher && PublishEffectThenCall(creation, setLocalOk)
    {
      isPublisher := true;
      var ok := PublishStream(creation, setLocalOk);
      if ok {
        socket.outbox := socket.outbox + [CallMsg];
      }
    }

    /** What `call` leaves behind: the effect of publishing an offer, followed by the invitation when that completed. */
    twostate predicate PublishEffectThenCall(creation: Creation, setLocalOk: bool)
      reads this, socket
    {
      match localStream
      case None =>
        hasPublish == old(hasPublish) && peerLog == old(peerLog)
        && socket.outbox == old(socket.outbox) + [CallMsg] && sdpSent == old(sdpSent)
      case Some(tracks) =>
        var added := AddTracks(old(peerLog), tracks);
        if added.threw then
          hasPublish == old(hasPublish) && peerLog == added.log
          && socket.outbox == old(socket.outbox) && sdpSent == old(sdpSent)
        else if old(hasPublish) || creation.CreateFailed? then
          hasPublish == old(hasPublish) && peerLog == added.log
          && socket.outbox == old(socket.outbox) + [CallMsg] && sdpSent == old(sdpSent)
        else
          var d := Description(Offer, creation.sdp);
          && hasPublish
          && peerLog == (if creation.sdp == "" then added.log else added.log + [SetLocal(d)])
          && socket.outbox == old(socket.outbox)
               + (if creation.sdp != "" && setLocalOk then [SendSdp(d)] else []) + [CallMsg]
    }

    /** `loginRoom`: send the login request; the role arrives in the acknowledgement. */
    method LoginRoom()
      modifies socket`outbox, this`pendingAcks
      ensures socket.outbox == old(socket.outbox) + [LoginReq(userName, roomName)]
      ensures pendingAcks == old(pendingAcks) + 1
    {
      socket.outbox := socket.outbox + [LoginReq(userName, roomName)];
      pendingAcks := pendingAcks + 1;
    }

    /**
      The acknowledgement of one `loginRoom` request (each request is
      acknowledged once): the boolean it carries becomes the role.
     */
    method OnLoginAck(isPublisherReply: bool)
      requires pendingAcks > 0
      modifies this`isPublisher, this`pendingAcks
      ensures isPublisher == isPublisherReply && pendingAcks == old(pendingAcks) - 1
    {
      isPublisher := isPublisherReply;
      pendingAcks := pendingAcks - 1;
    }
  }

  /** Module-level state of Index.tsx and the component's `onCalling` state. */
  class Home {
    const socket: Socket
    var isAddWsListener: bool
    var isAddRtcListener: bool
    var wsScope: RenderScope?     // the render whose closures the socket listeners hold
    var rtcScope: RenderScope?    // the render whose connection got the 'icecandidate' listener
    var onCalling: bool

    ghost predicate Valid()
      reads this, wsScope
    {
      && (isAddWsListener <==> wsScope != null)
      && (isAddRtcListener <==> rtcScope != null)
      && (wsScope != null ==> wsScope.socket == socket && wsScope.Wf())
      && (rtcScope != null ==> rtcScope.socket == socket)
    }

    /** Loading the module: the socket is created and no listener is installed. */
    constructor ()
      ensures Valid() && fresh(socket) && socket.outbox == []
      ensures !isAddWsListener && !isAddRtcListener && !onCalling
    {
      socket := new Socket();
      isAddWsListener, isAddRtcListener := false, false;
      wsScope, rtcScope := null, null;
      onCalling := false;
    }

    /** `addRtcListener`: only the first call installs the connection's listeners. */
    method AddRtcListener(scope: RenderScope)
      requires Valid() && scope.socket == socket
      modifies this`isAddRtcListener, this`rtcScope
      ensures Valid() && isAddRtcListener
      ensures rtcScope == if old(isAddRtcListener) then old(rtcScope) else scope
    {
      if isAddRtcListener {
        return;
      }
      isAddRtcListener := true;
      rtcScope := scope;
    }

    /** `addWsListener`: only the first call installs the socket's listeners. */
    method AddWsListener(scope: RenderScope)
      requires Valid() && scope.socket == socket && scope.Wf()
      modifies this`isAddWsListener, this`wsScope
      ensures Valid() && isAddWsListener
      ensures wsScope == if old(isAddWsListener) then old(wsScope) else scope
    {
      if isAddWsListener {
        return;
      }
      isAddWsListener := true;
      wsScope := scope;
    }

    /** One render of the component: a fresh scope, then both listener installers. */
    method Render(userName: string, roomName: string) returns (scope: RenderScope)
      requires Valid()
      modifies this`isAddRtcListener, this`rtcScope, this`isAddWsListener, this`wsScope
      ensures Valid() && isAddWsListener && isAddRtcListener
      ensures fresh(scope) && scope.socket == socket && scope.Wf() && scope.AtMostOnce()
      ensures scope.userName == userName && scope.roomName == roomName
      ensures scope.localStream == None && scope.isPublisher && !scope.hasPublish && scope.peerLog == []
      ensures wsScope == if old(isAddWsListener) then old(wsScope) else scope
      ensures rtcScope == if old(isAddRtcListener) then old(rtcScope) else scope
    {
      scope := new RenderScope(socket, userName, roomName);
      AddRtcListener(scope);
      AddWsListener(scope);
    }

    /** An inbound 'send_sdp': an echo is ignored, anything else is applied to the first render's connection. */
    method OnSendSdp(sender: string, data: Description)
      requires Valid() && isAddWsListener
      modifies wsScope`peerLog
      ensures Valid()
      ensures sender == wsScope.userName ==> wsScope.peerLog == old(wsScope.peerLog)
      ensures sender != wsScope.userName ==> wsScope.peerLog == old(wsScope.peerLog) + [SetRemote(data)]
    {
      var scope := wsScope;
      if sender == scope.userName {
        return;
      }
      scope.peerLog := scope.peerLog + [SetRemote(data)];
    }

    /**
      An inbound 'candidate': echoes and null candidates are dropped. A failing
      `addIceCandidate` is logged and swallowed, so `addOk` changes nothing.
     */
    method OnCandidate(sender: string, data: Option<Candidate>, addOk: bool)
      requires Valid() && isAddWsListener
      modifies wsScope`peerLog
      ensures Valid()
      ensures wsScope.peerLog == old(wsScope.peerLog)
                + (if sender != wsScope.userName && data.Some? then [AddIce(data.value)] else [])
    {
      var scope := wsScope;
      if sender == scope.userName {
        return;
      }
      if data.None? {
        return;
      }
      scope.peerLog := scope.peerLog + [AddIce(data.value)];
    }

    /**
      An inbound 'call' from another user: the call button is disabled, the
      first render becomes the answering side and publishes. The promise of
      `publishStream` is not awaited; `published` says whether it completed.
     */
    method OnCall(sender: string, creation: Creation, setLocalOk: bool) returns (published: bool)
      requires Valid() && isAddWsListener
      modifies this`onCalling, wsScope`isPublisher, wsScope`hasPublish, wsScope`peerLog, wsScope`sdpSent, socket`outbox
      ensures Valid() && (old(wsScope.AtMostOnce()) ==> wsScope.AtMostOnce())
      ensures sender == wsScope.userName ==>
                && onCalling == old(onCalling) && wsScope.isPublisher == old(wsScope.isPublisher)
                && wsScope.hasPublish == old(wsScope.hasPublish) && wsScope.peerLog == old(wsScope.peerLog)
                && socket.outbox == old(socket.outbox)
      ensures sender != wsScope.userName ==>
                onCalling && !wsScope.isPublisher && wsScope.PublishEffect(Answer, creation, setLocalOk, published)
    {
      var scope := wsScope;
      published := true;
      if sender == scope.userName {
        return;
      }
      onCalling := true;
      scope.isPublisher := false;
      published := scope.PublishStream(creation, setLocalOk);
    }

    /** The first render's 'icecandidate' listener relays every candidate, the null one included. */
    method OnIceCandidate(candidate: Option<Candidate>)
      requires Valid() && isAddRtcListener
      modifies socket`outbox
      ensures Valid()
      ensures socket.outbox == old(socket.outbox) + [CandidateMsg(candidate)]
    {
      socket.outbox := socket.outbox + [CandidateMsg(candidate)];
    }

    /** A click on the call button of the render `scope`; the button is disabled while `onCalling` holds. */
    method PressCall(scope: RenderScope, creation: Creation, setLocalOk: bool)
      requires Valid() && scope.socket == socket && scope.Wf()
      modifies scope`isPublisher, scope`hasPublish, scope`peerLog, scope`sdpSent, socket`outbox
      ensures Valid()
      ensures onCalling ==>
                && scope.isPublisher == old(scope.isPublisher) && scope.hasPublish == old(scope.hasPublish)
                && scope.peerLog == old(scope.peerLog) && socket.outbox == old(socket.outbox)
      ensures !onCalling ==> scope.isPublisher && scope.PublishEffectThenCall(creation, setLocalOk)
    {
      if onCalling {
        return;
      }
      scope.Call(creation, setLocalOk);
    }
  }
}
