/**
  Runs of the Index.tsx engine built from its method contracts alone: the
  caller's offer before its invitation, the callee's answer, the disabled
  call button, the flag that a failed `setLocalDescription` leaves behind,
  the overlap window, and listeners bound to the first render.
 */
module HomeScenarios {
  import opened Signal
  import opened HomeView

  /** The caller offers, and its 'call' invitation follows the offer on the socket. */
  method CallerOffersFirst(offer: string) returns (out: seq<Msg>, log: seq<PeerCall>)
    requires offer != ""
    ensures out == [SendSdp(Description(Offer, offer)), CallMsg]
    ensures log == [AddTrackCall(Track(1)), AddTrackCall(Track(2)), SetLocal(Description(Offer, offer))]
  {
    var home := new Home();
    var scope := home.Render("alice", "room1");
    scope.GetLocalStream(Some([Track(1), Track(2)]));
    var calls := [AddTrackCall(Track(1)), AddTrackCall(Track(2))];
    assert AddTracks([AddTrackCall(Track(1))], [Track(2)]) == Added(calls, false);
    assert [Track(1), Track(2)][1..] == [Track(2)];
    assert AddTracks([], [Track(1), Track(2)]) == Added(calls, false);
    home.PressCall(scope, Created(offer), true);
    out, log := home.socket.outbox, scope.peerLog;
  }

  /** Without a local stream, `call` adds nothing and creates nothing, yet still sends the invitation. */
  method CallWithoutStream(offer: string) returns (out: seq<Msg>, log: seq<PeerCall>, flag: bool)
    ensures out == [CallMsg] && log == [] && !flag
  {
    var home := new Home();
    var scope := home.Render("alice", "room1");
    home.PressCall(scope, Created(offer), true);
    out, log, flag := home.socket.outbox, scope.peerLog, scope.hasPublish;
  }

  /**
    Bob's first render receives alice's offer and call: the call button is
    disabled, bob becomes the answering side and relays one answer; a later
    click on the call button does nothing.
   */
  method CalleeAnswers(offer: string, answer: string)
    returns (out: seq<Msg>, log: seq<PeerCall>, calling: bool, role: bool)
    requires answer != ""
    ensures out == [SendSdp(Description(Answer, answer))]
    ensures log == [SetRemote(Description(Offer, offer)), AddTrackCall(Track(3)), SetLocal(Description(Answer, answer))]
    ensures calling && !role
  {
    var home := new Home();
    var scope := home.Render("bob", "room1");
    scope.GetLocalStream(Some([Track(3)]));
    home.OnSendSdp("alice", Description(Offer, offer));
    assert scope.peerLog == [SetRemote(Description(Offer, offer))];
    assert AddTracks(scope.peerLog, [Track(3)]) == Added(scope.peerLog + [AddTrackCall(Track(3))], false);
    var _ := home.OnCall("alice", Created(answer), true);
    home.PressCall(scope, Created(answer), true);
    out, log, calling, role := home.socket.outbox, scope.peerLog, home.onCalling, scope.isPublisher;
  }

  /** Echoes of the user's own messages change nothing; a null candidate is dropped, a failing one swallowed. */
  method EchoesAndCandidates(d: Description, cand: Candidate)
    returns (out: seq<Msg>, log: seq<PeerCall>, calling: bool)
    ensures out == [] && log == [AddIce(cand)] && !calling
  {
    var home := new Home();
    var scope := home.Render("bob", "room1");
    home.OnSendSdp("bob", d);
    home.OnCandidate("bob", Some(cand), true);
    var _ := home.OnCall("bob", Created("v=0"), true);
    home.OnCandidate("alice", None, true);
    home.OnCandidate("alice", Some(cand), false);
    out, log, calling := home.socket.outbox, scope.peerLog, home.onCalling;
  }

  /**
    A failing `setLocalDescription` leaves `hasPublish` set with nothing
    relayed, so a later successful attempt is skipped.
   */
  method SetLocalFailureBlocksRetry(offer: string) returns (flag: bool, out: seq<Msg>)
    requires offer != ""
    ensures flag && out == []
  {
    var home := new Home();
    var scope := home.Render("alice", "room1");
    scope.CreateOffer(Created(offer), false);
    scope.CreateOffer(Created(offer), true);
    flag, out := scope.hasPublish, home.socket.outbox;
  }

  /** A failed creation leaves `hasPublish` false, so the next attempt relays its offer. */
  method CreationFailureAllowsRetry(offer: string) returns (flagAfterFailure: bool, out: seq<Msg>)
    requires offer != ""
    ensures !flagAfterFailure && out == [SendSdp(Description(Offer, offer))]
  {
    var home := new Home();
    var scope := home.Render("alice", "room1");
    scope.CreateOffer(CreateFailed, true);
    flagAfterFailure := scope.hasPublish;
    scope.CreateOffer(Created(offer), true);
    out := home.socket.outbox;
  }

  /** Two creations that both pass the `hasPublish` check before either await completes each relay a description. */
  method OverlappingCreations(offer: string, answer: string) returns (first: bool, second: bool, sent: nat)
    requires offer != "" && answer != ""
    ensures first && second && sent == 2
  {
    var home := new Home();
    var scope := home.Render("alice", "room1");
    first := scope.BeginCreate();
    second := scope.BeginCreate();
    scope.CompleteCreate(Offer, Created(offer), true);
    scope.CompleteCreate(Answer, Created(answer), true);
    var out := home.socket.outbox;
    assert out == [SendSdp(Description(Offer, offer)), SendSdp(Description(Answer, answer))];
    assert out[..1][..0] == [];
    assert SdpCount(out[..1]) == 1;
    sent := SdpCount(out);
  }

  /** The acknowledgement of `loginRoom` decides the role, and with it the kind of description. */
  method LoginDecidesRole(answer: string) returns (out: seq<Msg>)
    requires answer != ""
    ensures out == [LoginReq("bob", "room1"), SendSdp(Description(Answer, answer))]
  {
    var home := new Home();
    var scope := home.Render("bob", "room1");
    scope.LoginRoom();
    scope.OnLoginAck(false);
    scope.GetLocalStream(Some([Track(1)]));
    assert AddTracks([], [Track(1)]) == Added([AddTrackCall(Track(1))], false);
    var _ := scope.PublishStream(Created(answer), true);
    out := home.socket.outbox;
  }

  /**
    After a second render the socket listeners still hold the first render:
    an inbound description reaches the first render's connection, and the
    stream acquired through the second render is not the one an inbound call
    publishes, so the callee sends no answer.
   */
  method ListenersBoundToFirstRender(offer: string, answer: string)
    returns (firstLog: seq<PeerCall>, secondLog: seq<PeerCall>, out: seq<Msg>)
    ensures firstLog == [SetRemote(Description(Offer, offer))]
    ensures secondLog == []
    ensures out == []
  {
    var home := new Home();
    var first := home.Render("bob", "room1");
    var second := home.Render("bob", "room1");
    second.GetLocalStream(Some([Track(1)]));
    home.OnSendSdp("alice", Description(Offer, offer));
    var _ := home.OnCall("alice", Created(answer), true);
    firstLog, secondLog, out := first.peerLog, second.peerLog, home.socket.outbox;
  }

  /** Every local candidate, the final null one included, is relayed by the first render's listener. */
  method LocalCandidatesRelayed(cand: Candidate) returns (out: seq<Msg>)
    ensures out == [CandidateMsg(Some(cand)), CandidateMsg(None)]
  {
    var home := new Home();
    var _ := home.Render("alice", "room1");
    var _ := home.Render("alice", "room1");
    home.OnIceCandidate(Some(cand));
    home.OnIceCandidate(None);
    out := home.socket.outbox;
  }

  /**
    A second press of the call button on the same render adds the same
    tracks again: `addTrack` throws, so the second `call` rejects before its
    offer and its invitation.
   */
  method RepeatedCallSendsOneInvitation(offer: string) returns (out: seq<Msg>, log: seq<PeerCall>)
    requires offer != ""
    ensures out == [SendSdp(Description(Offer, offer)), CallMsg]
    ensures log == [AddTrackCall(Track(1)), SetLocal(Description(Offer, offer))]
  {
    var home := new Home();
    var scope := home.Render("alice", "room1");
    scope.GetLocalStream(Some([Track(1)]));
    assert AddTracks([], [Track(1)]) == Added([AddTrackCall(Track(1))], false);
    home.PressCall(scope, Created(offer), true);
    assert scope.peerLog == [AddTrackCall(Track(1)), SetLocal(Description(Offer, offer))];
    assert AddTracks(scope.peerLog, [Track(1)]) == Added(scope.peerLog, true);
    home.PressCall(scope, Created(offer), true);
    out, log := home.socket.outbox, scope.peerLog;
  }

  /**
    When the first call's creation fails, the second press still finds the
    tracks added and rejects: no offer is ever relayed and only the first
    invitation is sent.
   */
  method FailedCallCannotBeRetried(offer: string) returns (out: seq<Msg>, flag: bool)
    requires offer != ""
    ensures out == [CallMsg] && !flag
  {
    var home := new Home();
    var scope := home.Render("alice", "room1");
    scope.GetLocalStream(Some([Track(1)]));
    assert AddTracks([], [Track(1)]) == Added([AddTrackCall(Track(1))], false);
    home.PressCall(scope, CreateFailed, true);
    assert scope.peerLog == [AddTrackCall(Track(1))];
    assert AddTracks(scope.peerLog, [Track(1)]) == Added(scope.peerLog, true);
    home.PressCall(scope, Created(offer), true);
    out, flag := home.socket.outbox, scope.hasPublish;
  }
}
