/**
  Runs of RTCClient built from its method contracts alone: the init
  rendezvous in both orders, the failure and 'closed' cases, the callee
  path, echo filtering, the once-only description, the window that two
  overlapping creations leave open, the instance cache and the socket-url
  setter.
 */
module ServiceScenarios {
  import opened Signal
  import opened WebRtcService

  method NewInitializedClient() returns (c: RTCClient)
    ensures fresh(c) && c.Wf() && c.AtMostOnce()
    ensures c.socketOpen && c.rtcOpen && c.initPromise == Pending
    ensures !c.socketInitSuccess && !c.rtcInitSuccess && !c.hasPublish && !c.isPublisher
    ensures c.userName == "" && c.outbox == [] && c.peerLog == [] && c.emitted == [] && c.localStream == None
  {
    var cfg := new ClientConfig("ws://relay", "/socket", ["stun:relay"]);
    c := new RTCClient(Container(0), MediaConstraints(true, true));
    var _ := c.Init(cfg);
  }

  /** `init` resolves once the socket is connected and the peer connection is connected, in either order. */
  method InitRendezvous(socketFirst: bool) returns (afterFirst: Outcome, afterSecond: Outcome)
    ensures afterFirst == Pending && afterSecond == Resolved
  {
    var c := NewInitializedClient();
    if socketFirst {
      c.OnSocketConnect();
      afterFirst := c.initPromise;
      c.OnConnectionStateChange(Connected);
    } else {
      c.OnConnectionStateChange(Connected);
      afterFirst := c.initPromise;
      c.OnSocketConnect();
    }
    afterSecond := c.initPromise;
  }

  /** A 'disconnected' or 'failed' connection rejects `init`, and a later success cannot resolve it. */
  method InitFailure(state: ConnectionState) returns (afterFailure: Outcome, afterConnect: Outcome)
    requires state == Disconnected || state == Failed
    ensures afterFailure == Rejected && afterConnect == Rejected
  {
    var c := NewInitializedClient();
    c.OnConnectionStateChange(state);
    afterFailure := c.initPromise;
    c.OnSocketConnect();
    c.OnConnectionStateChange(Connected);
    afterConnect := c.initPromise;
  }

  /** A socket 'error' rejects `init`; 'closed' (or 'new', 'connecting') leaves it pending. */
  method InitErrorAndClosed(state: ConnectionState) returns (afterState: Outcome, afterError: Outcome)
    requires state == Closed || state == New || state == Connecting
    ensures afterState == Pending && afterError == Rejected
  {
    var c := NewInitializedClient();
    c.OnSocketConnect();
    c.OnConnectionStateChange(state);
    afterState := c.initPromise;
    c.OnSocketError();
    afterError := c.initPromise;
  }

  /** `hasInit` is never set, so a second `init` is not refused. */
  method RepeatedInit() returns (first: Outcome, second: Outcome)
    ensures first == Pending && second == Pending
  {
    var cfg := new ClientConfig("ws://relay", "/socket", []);
    var c := new RTCClient(Container(0), MediaConstraints(true, false));
    first := c.Init(cfg);
    second := c.Init(cfg);
  }

  /** `login` before `init` is rejected and sends nothing. */
  method LoginWithoutSocket() returns (noSocket: Outcome, out: seq<Msg>)
    ensures noSocket == Rejected && out == []
  {
    var c := new RTCClient(Container(0), MediaConstraints(true, true));
    noSocket := c.Login("room1", "bob");
    out := c.outbox;
  }

  /**
    Each request sent after `init` gets one acknowledgement: a failing one
    rejects, a successful one never resolves.
   */
  method LoginOutcomes() returns (refused: Outcome, accepted: Outcome, role: bool, name: string)
    ensures refused == Rejected && accepted == Pending
    ensures !role && name == "bob"
  {
    var c := NewInitializedClient();
    var _ := c.Login("room1", "bob");
    assert c.outbox == [LoginReq("bob", "room1")];
    refused := c.OnLoginAck("room1", "bob", LoginReply(false, true));
    var _ := c.Login("room1", "bob");
    assert c.outbox[|c.outbox| - 1] == LoginReq("bob", "room1");
    accepted := c.OnLoginAck("room1", "bob", LoginReply(true, true));
    role := c.isPublisher;
    name := c.userName;
  }

  /**
    A callee receives alice's offer and then her call: it applies the offer,
    adds its track and relays exactly one answer.
   */
  method CalleeAnswers(offer: string, answer: string) returns (out: seq<Msg>, log: seq<PeerCall>)
    requires answer != ""
    ensures out == [SendSdp(Description(Answer, answer))]
    ensures log == [SetRemote(Description(Offer, offer)), AddTrackCall(Track(7)), SetLocal(Description(Answer, answer))]
  {
    var c := NewInitializedClient();
    var _ := c.OnSendSdp("alice", Description(Offer, offer), true);
    assert c.peerLog == [SetRemote(Description(Offer, offer))];
    assert !HasSender(c.peerLog, Track(7));
    assert AddTracks(c.peerLog, [Track(7)]) == Added(c.peerLog + [AddTrackCall(Track(7))], false);
    var _ := c.OnCall("alice", Some([Track(7)]), Created(answer));
    out, log := c.outbox, c.peerLog;
  }

  /**
    A second inbound call publishes again with the new tracks getUserMedia
    delivers, but no second description is relayed.
   */
  method RepeatedCallsAnswerOnce(answer: string) returns (sent: nat, second: Outcome)
    requires answer != ""
    ensures sent == 1 && second == Resolved
  {
    var c := NewInitializedClient();
    assert AddTracks([], [Track(1)]) == Added([AddTrackCall(Track(1))], false);
    var _ := c.OnCall("alice", Some([Track(1)]), Created(answer));
    assert !HasSender(c.peerLog, Track(2));
    second := c.OnCall("alice", Some([Track(2)]), Created(answer));
    assert c.outbox == [SendSdp(Description(Answer, answer))];
    assert c.outbox[..0] == [];
    sent := SdpCount(c.outbox);
  }

  /**
    An inbound call is announced to the subscribers and turns the client into
    the answering side even when capturing the local stream fails, which
    rejects its publishing.
   */
  method CallAnnouncedEvenIfCaptureFails() returns (events: seq<ClientEvent>, publisher: bool, published: Outcome)
    ensures events == [IncomingCall] && !publisher && published == Rejected
  {
    var c := NewInitializedClient();
    published := c.OnCall("alice", None, Created("v=0"));
    events, publisher := c.emitted, c.isPublisher;
  }

  /** Description and candidate messages whose sender is the user itself change nothing and emit nothing. */
  method EchoesIgnored(d: Description, cand: Candidate) returns (out: seq<Msg>, log: seq<PeerCall>, events: seq<ClientEvent>)
    ensures out == [] && log == [] && events == []
  {
    var c := NewInitializedClient();
    var _ := c.OnSendSdp(c.userName, d, true);
    var _ := c.OnCandidate(c.userName, Some(cand), true);
    out, log, events := c.outbox, c.peerLog, c.emitted;
  }

  /** The user's own 'call' echo neither notifies subscribers nor publishes. */
  method CallEchoIgnored(answer: string) returns (sent: nat, events: seq<ClientEvent>, published: bool)
    ensures sent == 0 && events == [] && !published
  {
    var c := NewInitializedClient();
    var _ := c.OnCall(c.userName, Some([Track(1)]), Created(answer));
    sent, events, published := SdpCount(c.outbox), c.emitted, c.hasPublish;
  }

  /** A null candidate is dropped and a failing one is swallowed. */
  method CandidateHandling(cand: Candidate) returns (dropped: Outcome, failed: Outcome, log: seq<PeerCall>)
    ensures dropped == Resolved && failed == Resolved && log == [AddIce(cand)]
  {
    var c := NewInitializedClient();
    dropped := c.OnCandidate("alice", None, true);
    failed := c.OnCandidate("alice", Some(cand), false);
    log := c.peerLog;
  }

  /** A failed creation leaves `hasPublish` false, so a later attempt still relays its answer. */
  method FailedCreationAllowsRetry(answer: string) returns (first: Outcome, flagAfterFailure: bool, second: Outcome, sent: nat)
    requires answer != ""
    ensures first == Rejected && !flagAfterFailure && second == Resolved && sent == 1
  {
    var c := NewInitializedClient();
    first := c.CreateAnswer(CreateFailed);
    flagAfterFailure := c.hasPublish;
    second := c.CreateAnswer(Created(answer));
    sent := SdpCount(c.outbox);
  }

  /** An empty description sets `hasPublish` and leaves the promise pending with nothing relayed. */
  method EmptyDescriptionHangs() returns (r: Outcome, flag: bool, sent: nat)
    ensures r == Pending && flag && sent == 0
  {
    var c := NewInitializedClient();
    r := c.CreateOffer(Created(""));
    flag := c.hasPublish;
    sent := SdpCount(c.outbox);
  }

  /** A stream without tracks leaves `publishStream` pending; failed capture or no connection rejects it. */
  method PublishOutcomes() returns (noTracks: Outcome, noMedia: Outcome, noConnection: Outcome, sent: nat)
    ensures noTracks == Pending && noMedia == Rejected && noConnection == Rejected && sent == 0
  {
    var c := NewInitializedClient();
    noTracks := c.PublishStream(Some([]), Created("v=0"));
    noMedia := c.PublishStream(None, Created("v=0"));
    var idle := new RTCClient(Container(1), MediaConstraints(true, true));
    noConnection := idle.PublishStream(Some([Track(1)]), Created("v=0"));
    sent := SdpCount(c.outbox) + SdpCount(idle.outbox);
  }

  /**
    Two creations that both pass the `hasPublish` check before either await
    completes each relay a description.
   */
  method OverlappingCreations(offer: string, answer: string)
    returns (first: CreateStart, second: CreateStart, sent: nat)
    requires offer != "" && answer != ""
    ensures first == AwaitingDescription && second == AwaitingDescription && sent == 2
  {
    var c := NewInitializedClient();
    first := c.BeginCreate();
    second := c.BeginCreate();
    var _ := c.CompleteCreate(Offer, Created(offer));
    var _ := c.CompleteCreate(Answer, Created(answer));
    sent := SdpCount(c.outbox);
  }

  /** The second request for a client gets the first one's instance, with the first container and constraints. */
  method FirstCallerWins(c1: Container, k1: MediaConstraints, c2: Container, k2: MediaConstraints)
    returns (same: bool, container: Container, constraints: MediaConstraints)
    ensures same && container == c1 && constraints == k1
  {
    var registry := new ClientRegistry();
    var a := registry.GetClientInstance(c1, k1);
    var b := registry.GetClientInstance(c2, k2);
    same := a == b;
    container, constraints := b.container, b.constraints;
  }

  /** As written, `setScocketUrl` leaves the url unchanged, so `init` still connects to the default. */
  method SocketUrlSetterIgnoresUrl(defaultUrl: string, url: string) returns (after: string, connected: string)
    requires url != defaultUrl
    ensures after == defaultUrl && connected == defaultUrl && after != url
  {
    var cfg := new ClientConfig(defaultUrl, "/socket", []);
    cfg.SetScocketUrl(url);
    after := cfg.socketUrl;
    var c := new RTCClient(Container(0), MediaConstraints(true, true));
    var _ := c.Init(cfg);
    connected := c.endpoint.value.url;
  }

  /** With the corrected setter, `init` connects to the url that was set. */
  method SocketUrlSetterStoresUrl(defaultUrl: string, url: string) returns (after: string, connected: string)
    ensures after == url && connected == url
  {
    var cfg := new ClientConfig(defaultUrl, "/socket", []);
    cfg.SetSocketUrl(url);
    after := cfg.socketUrl;
    var c := new RTCClient(Container(0), MediaConstraints(true, true));
    var _ := c.Init(cfg);
    connected := c.endpoint.value.url;
  }
}
