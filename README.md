# Two-peer call negotiation, modelled in Dafny

This project models the signalling and negotiation engine of a browser
demo in which two people in a named room set up a direct audio/video call.
A relay socket carries `login`, `send_sdp` (session descriptions),
`candidate` (reachability candidates) and `call` (invitation) messages. The
engine exists twice in the source: the `RTCClient` class of
`src/services/webrtc.service.ts`, and an earlier inline version in the
home view `src/views/home/Index.tsx`.

A few boolean flags decide what each trigger does. The triggers are inbound
relay messages, socket and connection events, the login acknowledgement and
user actions. The socket, the `RTCPeerConnection` and `getUserMedia` are
opaque. What they report comes in as method parameters: whether applying a
description succeeded, what `createOffer` produced, which tracks a stream
has, the connection state. What the engine asks of them is recorded in two
logs. `outbox` holds the messages emitted on the socket. `peerLog` holds the
calls made on the peer connection.

- `signal.dfy` (module `Signal`): the message vocabulary of
  `src/services/event.type.ts`, descriptions, candidates and tracks, and
  promise outcomes. Under `Settle`, a promise settles once and the first
  settlement wins. It also holds `SdpCount` (how many `send_sdp` messages an
  outbox holds) and `TrackCalls` (the `addTrack` calls made for a stream).
  `AddTracks` adds a stream's tracks one by one. `addTrack` throws an
  InvalidAccessError for a track that already has a sender on the
  connection (section 5.1 of the WebRTC 1.0 specification, `addTrack`), and
  the throw ends the iteration.
- `webrtc_service.dfy` (module `WebRtcService`):
  - `RTCClient` is a class with the source's fields and one method per
    handler.
  - `ClientConfig` holds the static socket and ICE configuration and its
    setters.
  - `ClientRegistry` holds the static `clientInstance`.
  - Every handler keeps the invariant `Wf()`:
    - `hasInit` is never set;
    - the `init` promise resolves only after both the socket and the peer
      connection have succeeded;
    - a relayed description implies `hasPublish`;
    - nothing is emitted before `init`.
  - Every handler that runs to completion also keeps `AtMostOnce()`: at
    most one `send_sdp` per instance.
- `home_view.dfy` (module `HomeView`):
  - `Socket` is the module-level socket.
  - `RenderScope` is one execution of the component body: its `let`
    variables and its own `RTCPeerConnection`.
  - `Home` holds the module-level listener guards and the component's
    `onCalling` state.
  - The guards let only the first render install listeners. From then on,
    inbound messages and local candidates always act on that first render.
    The call button acts on the render that drew it.
- `service_scenarios.dfy`, `home_scenarios.dfy`: concrete runs on fresh
  objects, proved from the method contracts alone.

`createOffer` and `createAnswer` check `hasPublish` before an `await` and
set it after. Both engines therefore split them into `BeginCreate` (the
synchronous check) and `CompleteCreate` (the continuation). `CreateOffer`
and `CreateAnswer` run the two steps back to back. For such sequential
calls the at-most-once property holds. `OverlappingCreations` shows that two
creations that both pass the check before either completes send two
descriptions.

The model follows the code as written, including:
- `init` never refuses a second call.
- `destroy` does nothing.
- An inbound `call` publishes at once. Nothing waits for the callee's
  approval.
- In `RTCClient`, `login` ignores the role in the acknowledgement and
  never resolves. The 'call' handler only clears `isPublisher`, so nothing
  ever sets it to true, and the service always answers.
- In `Index.tsx`, `hasPublish` is set before `setLocalDescription`
  completes. A failure there therefore blocks every retry.
- In `Index.tsx`, a render adds the same stream's tracks at every press of
  the call button. From the second press on, `addTrack` throws, the throw
  escapes `forEach` and rejects `publishStream`, and `call` never sends its
  invitation.

## Model

| member | source | states |
|---|---|---|
| `Signal.SdpCount` | src/services/webrtc.service.ts:272 | the number of `send_sdp` messages in an outbox is at most its length and is zero exactly when none of its messages is a `send_sdp` |
| `Signal.SdpCountAppend` | src/services/webrtc.service.ts:290 | the `send_sdp` count of two outboxes one after the other is the sum of their counts |
| `Signal.TrackCalls` | src/services/webrtc.service.ts:302-307 | adding a stream's tracks makes one `addTrack` call per track, in the stream's order |
| `Signal.TrackCallsCons` | src/views/home/Index.tsx:200-203 | the calls for a stream are the first track's call followed by the calls for the remaining tracks |
| `Signal.AddTracks` | src/views/home/Index.tsx:200-203 | adding tracks never removes a call and adds at most one call per track |
| `Signal.AddTracksExtends` | src/views/home/Index.tsx:200-203 | adding tracks only appends: the calls made before stay as they were, in front |
| `Signal.AddTracksCompleted` | src/views/home/Index.tsx:200-203 | when no `addTrack` threw, every track was added, one call each in the stream's order |
| `Signal.AddTracksThrowsIffNotFresh` | src/views/home/Index.tsx:200-203 | adding tracks throws exactly when one of them already has a sender on the connection or occurs twice in the stream |
| `Signal.FreshForCons` | src/views/home/Index.tsx:200-203 | a stream is fresh for a connection exactly when, with its first track added, the remaining tracks are fresh |
| `Signal.AddTracksFresh` | src/views/home/Index.tsx:200-203 | tracks that are fresh for a connection are all added without a throw, one call each in order |
| `WebRtcService.ClientConfig.constructor` | src/services/webrtc.service.ts:33-52 | the static configuration starts from the configured url, the default socket options and the given ICE servers |
| `WebRtcService.ClientConfig.SetSocketOptions` | src/services/webrtc.service.ts:40-42 | the socket options become the given ones |
| `WebRtcService.ClientConfig.SetScocketUrl` | src/services/webrtc.service.ts:46-48 | as written, the url is assigned to itself: the argument is ignored and the url does not change |
| `WebRtcService.ClientConfig.SetSocketUrl` | src/services/webrtc.service.ts:46-48 | corrected setter: the url becomes the argument |
| `WebRtcService.ClientConfig.SetRtcConfig` | src/services/webrtc.service.ts:54-56 | the peer-connection configuration becomes the given one |
| `WebRtcService.RTCClient.constructor` | src/services/webrtc.service.ts:58-89 | a new client keeps its container and constraints, has no socket or connection, an empty identity, every flag false and nothing emitted; it satisfies the invariant |
| `WebRtcService.RTCClient.Init` | src/services/webrtc.service.ts:106-120 | the `hasInit` guard never fires (the invariant keeps `hasInit` false), so every call opens a socket and a new connection, with no calls made on it yet, with the current static configuration and returns a pending promise; earlier success flags are kept |
| `WebRtcService.RTCClient.OnSocketConnect` | src/services/webrtc.service.ts:122-130 | a socket connect sets `socketInitSuccess`; a pending `init` resolves exactly when `rtcInitSuccess` already holds; a settled one stays as it was |
| `WebRtcService.RTCClient.OnConnectionStateChange` | src/services/webrtc.service.ts:132-148 | 'connected' sets `rtcInitSuccess` and resolves `init` when the socket has also succeeded; 'disconnected' and 'failed' reject it; 'closed' and every other state, or a missing connection, change nothing; a settled promise never changes |
| `WebRtcService.RTCClient.OnSocketError` | src/services/webrtc.service.ts:150 | a socket error rejects a pending `init` and leaves a settled one as it was |
| `WebRtcService.RTCClient.OnSendSdp` | src/services/webrtc.service.ts:159-166 | a description from the user itself changes nothing; any other is applied to the connection, and the handler rejects exactly when applying it fails |
| `WebRtcService.RTCClient.OnCandidate` | src/services/webrtc.service.ts:168-179 | echoes and null candidates change nothing; any other candidate is passed to the connection; the handler completes even when that fails |
| `WebRtcService.RTCClient.OnCall` | src/services/webrtc.service.ts:181-187 | an echo changes nothing; a call from anyone else emits 'call' to subscribers, makes the client the answering side, and publishes an answer at once, whose outcome is that of `PublishStream` |
| `WebRtcService.RTCClient.OnIceCandidate` | src/services/webrtc.service.ts:201-203 | every local candidate, the null end-of-candidates included, is relayed when a socket exists |
| `WebRtcService.RTCClient.Login` | src/services/webrtc.service.ts:206-212 | without a socket `login` is rejected and nothing is sent; otherwise one login request is sent, one more acknowledgement is awaited and the promise is pending |
| `WebRtcService.RTCClient.OnLoginAck` | src/services/webrtc.service.ts:213-224 | an acknowledgement answers one sent request and consumes it; a failed ack rejects and keeps the identity; a successful one stores user and room; `isPublisher` never changes; the promise never resolves |
| `WebRtcService.RTCClient.CompleteCreate` | src/services/webrtc.service.ts:268-277 | a failed creation rejects and leaves `hasPublish` unchanged; a created description sets `hasPublish`; an empty one leaves the promise pending with nothing sent; a non-empty one is set locally, relayed when a socket exists, and resolves; at most one `send_sdp` is added |
| `WebRtcService.RTCClient.CreateDescription` | src/services/webrtc.service.ts:263-297 | a creation not overlapped by another is a no-op resolving true once `hasPublish` holds, rejects without a connection, and otherwise completes as above, so the synchronous check sets nothing before the await; it keeps the invariant and at most one `send_sdp` per instance |
| `WebRtcService.RTCClient.CreateOffer` | src/services/webrtc.service.ts:263-279 | `createOffer` is `CreateDescription` with an offer |
| `WebRtcService.RTCClient.CreateAnswer` | src/services/webrtc.service.ts:281-297 | `createAnswer` is `CreateDescription` with an answer |
| `WebRtcService.RTCClient.AddTrack` | src/services/webrtc.service.ts:299-309 | without a local stream it rejects; otherwise the tracks are added to an existing connection in order until one already has a sender, whose `addTrack` throws; the promise resolves when the first track is added, rejects when there is no connection or the first track throws, and stays pending for a stream without tracks |
| `WebRtcService.RTCClient.PublishStream` | src/services/webrtc.service.ts:228-261 | a failed capture rejects with nothing changed; otherwise the stream is stored; with no tracks, no connection or a first track that already has a sender nothing further happens and the promise does not resolve; otherwise the tracks are added and an offer is created when `isPublisher` holds and an answer otherwise |
| `WebRtcService.RTCClient.Destroy` | src/services/webrtc.service.ts:311-312 | `destroy` changes nothing |
| `WebRtcService.ClientRegistry.constructor` | src/services/webrtc.service.ts:22 | no instance is cached at first |
| `WebRtcService.ClientRegistry.GetClientInstance` | src/services/webrtc.service.ts:24-31 | the first call creates and caches a client for its container and constraints; every later call returns that same client, whatever it is given |
| `ServiceScenarios.InitRendezvous` | src/services/webrtc.service.ts:122-138 | in either order, `init` is still pending after the first success and resolved after the second |
| `ServiceScenarios.InitFailure` | src/services/webrtc.service.ts:140-142 | 'disconnected' or 'failed' rejects `init`, and later successes cannot resolve it |
| `ServiceScenarios.InitErrorAndClosed` | src/services/webrtc.service.ts:144-150 | 'closed', 'new' and 'connecting' leave `init` pending; a socket error then rejects it |
| `ServiceScenarios.RepeatedInit` | src/services/webrtc.service.ts:111-114 | a second `init` on the same client is not refused |
| `ServiceScenarios.LoginOutcomes` | src/services/webrtc.service.ts:206-225 | each request gets one acknowledgement: a refused ack rejects; a second request's accepted ack stores the name, keeps the client non-publishing and leaves the promise pending |
| `ServiceScenarios.LoginWithoutSocket` | src/services/webrtc.service.ts:206-208 | login before `init` rejects and sends nothing |
| `ServiceScenarios.CalleeAnswers` | src/services/webrtc.service.ts:159-187 | a callee applies the caller's offer, adds its track, sets its answer locally and relays exactly one answer |
| `ServiceScenarios.RepeatedCallsAnswerOnce` | src/services/webrtc.service.ts:181-187 | a second inbound call adds the newly captured track and resolves without relaying a second description |
| `ServiceScenarios.CallAnnouncedEvenIfCaptureFails` | src/services/webrtc.service.ts:181-187 | an inbound call emits 'call' and makes the client the answering side even when capture fails, and its publishing rejects |
| `ServiceScenarios.EchoesIgnored` | src/services/webrtc.service.ts:162-170 | a description or candidate whose sender is the client's own user name changes nothing, sends nothing and notifies nobody |
| `ServiceScenarios.CallEchoIgnored` | src/services/webrtc.service.ts:183 | an echoed call neither notifies subscribers nor publishes |
| `ServiceScenarios.CandidateHandling` | src/services/webrtc.service.ts:171-178 | a null candidate is dropped and a failing one is swallowed; both handlers complete |
| `ServiceScenarios.FailedCreationAllowsRetry` | src/services/webrtc.service.ts:286-287 | a failed creation rejects and leaves `hasPublish` false, so a retry relays one answer |
| `ServiceScenarios.EmptyDescriptionHangs` | src/services/webrtc.service.ts:268-274 | an empty description sets `hasPublish`, sends nothing and leaves the promise pending |
| `ServiceScenarios.PublishOutcomes` | src/services/webrtc.service.ts:299-308 | a stream without tracks leaves `publishStream` pending, a failed capture rejects it, no connection rejects it, and none of them relays anything |
| `ServiceScenarios.OverlappingCreations` | src/services/webrtc.service.ts:264-269 | two creations that both pass the `hasPublish` check before either completes relay two descriptions |
| `ServiceScenarios.FirstCallerWins` | src/services/webrtc.service.ts:28-30 | a second request gets the same client, with the first caller's container and constraints |
| `ServiceScenarios.SocketUrlSetterIgnoresUrl` | src/services/webrtc.service.ts:47 | after the as-written setter is given a different url, the url is unchanged and `init` still connects to the old one |
| `ServiceScenarios.SocketUrlSetterStoresUrl` | src/services/webrtc.service.ts:46-48 | after the corrected setter, `init` connects to the url that was set |
| `HomeView.Socket.constructor` | src/views/home/Index.tsx:22-27 | the module's socket starts with nothing emitted |
| `HomeView.RenderScope.constructor` | src/views/home/Index.tsx:60-70 | each render starts with no local stream, `isPublisher` true, `hasPublish` false and a fresh connection |
| `HomeView.RenderScope.GetLocalStream` | src/views/home/Index.tsx:172-183 | a captured stream becomes the render's local stream; a failure leaves it as it was |
| `HomeView.RenderScope.CompleteCreate` | src/views/home/Index.tsx:133-142 | a failed creation changes nothing; a created description sets `hasPublish` before it is set locally; it is relayed only when that succeeds; at most one `send_sdp` is added |
| `HomeView.RenderScope.CreateDescription` | src/views/home/Index.tsx:131-157 | a creation not overlapped by another is a no-op once `hasPublish` holds and completes as above otherwise, so the synchronous check sets nothing before the await; it keeps at most one `send_sdp` per render |
| `HomeView.RenderScope.CreateOffer` | src/views/home/Index.tsx:131-143 | `createOffer` is `CreateDescription` with an offer |
| `HomeView.RenderScope.CreateAnswer` | src/views/home/Index.tsx:145-157 | `createAnswer` is `CreateDescription` with an answer |
| `HomeView.RenderScope.PublishStream` | src/views/home/Index.tsx:198-209 | without a local stream nothing happens; otherwise the tracks are added in order; when one already has a sender `addTrack` throws and publishing fails with nothing created; otherwise an offer is created when `isPublisher` holds and an answer otherwise |
| `HomeView.RenderScope.Call` | src/views/home/Index.tsx:211-215 | `call` makes the render the publisher and sends 'call' only after publishing completes, so any offer comes before the invitation; when an `addTrack` throws no invitation is sent |
| `HomeView.RenderScope.LoginRoom` | src/views/home/Index.tsx:185-186 | one login request with the render's user and room is sent and one more acknowledgement is awaited |
| `HomeView.RenderScope.OnLoginAck` | src/views/home/Index.tsx:186-189 | an acknowledgement answers one sent request; the boolean in it becomes `isPublisher` |
| `HomeView.Home.constructor` | src/views/home/Index.tsx:22-30 | loading the module creates the socket, with no listener installed and no call in progress |
| `HomeView.Home.AddRtcListener` | src/views/home/Index.tsx:72-86 | only the first call installs the connection's listeners, on that call's render; later calls change nothing |
| `HomeView.Home.AddWsListener` | src/views/home/Index.tsx:88-125 | only the first call installs the socket's listeners, on that call's render; later calls change nothing |
| `HomeView.Home.Render` | src/views/home/Index.tsx:127-128 | each render gets a fresh scope; the listeners stay bound to the first render |
| `HomeView.Home.OnSendSdp` | src/views/home/Index.tsx:91-96 | an echoed description changes nothing; any other is applied to the first render's connection |
| `HomeView.Home.OnCandidate` | src/views/home/Index.tsx:98-111 | echoes and null candidates change nothing; any other candidate is passed to the first render's connection, and a failure is swallowed |
| `HomeView.Home.OnCall` | src/views/home/Index.tsx:113-119 | an echoed call changes nothing; any other sets `onCalling`, makes the first render the answering side and publishes an answer, reporting whether publishing completed |
| `HomeView.Home.OnIceCandidate` | src/views/home/Index.tsx:83-85 | every local candidate of the first render's connection, the null one included, is relayed |
| `HomeView.Home.PressCall` | src/views/home/Index.tsx:246 | while `onCalling` holds the disabled button does nothing; otherwise the click runs `call` on the render that drew it |
| `HomeScenarios.CallerOffersFirst` | src/views/home/Index.tsx:211-215 | the caller adds both tracks, sets its offer locally, and sends the offer followed by the invitation |
| `HomeScenarios.CallWithoutStream` | src/views/home/Index.tsx:199 | without a local stream `call` adds and creates nothing but still sends the invitation |
| `HomeScenarios.CalleeAnswers` | src/views/home/Index.tsx:113-119 | the callee applies the offer, answers exactly once, is marked calling and non-publishing, and its disabled call button then does nothing |
| `HomeScenarios.EchoesAndCandidates` | src/views/home/Index.tsx:94-115 | echoes change nothing, a null candidate is dropped and a failing candidate is still attempted and swallowed |
| `HomeScenarios.SetLocalFailureBlocksRetry` | src/views/home/Index.tsx:135-138 | a failed `setLocalDescription` leaves `hasPublish` set and nothing relayed, and a later successful attempt is skipped |
| `HomeScenarios.CreationFailureAllowsRetry` | src/views/home/Index.tsx:134-135 | a failed creation leaves `hasPublish` false, so a retry relays its offer |
| `HomeScenarios.OverlappingCreations` | src/views/home/Index.tsx:132-135 | two creations that both pass the check before either completes relay two descriptions |
| `HomeScenarios.LoginDecidesRole` | src/views/home/Index.tsx:186-189 | after an acknowledgement of `false`, publishing relays an answer |
| `HomeScenarios.ListenersBoundToFirstRender` | src/views/home/Index.tsx:29-30 | after a second render, an inbound description reaches the first render's connection, and a stream captured through the second render is not published by an inbound call |
| `HomeScenarios.RepeatedCallSendsOneInvitation` | src/views/home/Index.tsx:198-214 | a second press of the call button on the same render throws in `addTrack`, so only one offer and one invitation are ever sent |
| `HomeScenarios.FailedCallCannotBeRetried` | src/views/home/Index.tsx:198-214 | after a failed creation the invitation is sent, and a second press throws before creating, so no offer is ever relayed |
| `HomeScenarios.LocalCandidatesRelayed` | src/views/home/Index.tsx:83-85 | after two renders, the first render's listener relays each candidate once, the null one included |

## Left out

- DOM and video handling is UI glue and is not modelled: `initContainer`, `srcObject` assignments, the body of the 'track' listener, the JSX, resize handling, the chat list and the 'chat' messages.
- The `negotiationneeded` listener of `Index.tsx` is not modelled; it does nothing.
- socket.io, `RTCPeerConnection` and ICE internals and SDP contents are foreign code. Their outcomes appear as parameters. `addTrack` is the exception: its throw for a track that already has a sender follows from the calls recorded in `peerLog`.
- `addTrack`'s other failures, such as a closed connection, are not modelled.
- `getUserMedia` is media I/O. Its result (a stream's tracks, or failure) is a parameter. `GetLocalStream` folds the "video element mounted" check into that parameter.
- In the service, `setLocalDescription` is not awaited. Its failure is an unhandled rejection that changes no field, so it is not modelled.
- The promises that the handlers drop are recorded only as returned outcomes: `publishStream` called from the 'call' handler, and the async socket listeners. A rejection there, such as an `addTrack` throw in `Index.tsx`, is unhandled and changes no further state.
- Only `createOffer`/`createAnswer` are split at their await. Every other await completes within its step: `getUserMedia`, `setRemoteDescription`, `addIceCandidate`, and the `publishStream` that an inbound call starts. Interleavings at those points are not modelled.
- After a repeated `init`, the listeners of the replaced socket and connection stay live. The model does not tell which connection an event came from.
- `WebRtcService.RTCClient.Init`: the containers the source creates for it (`initContainer`) are not modelled.
- The event-emitter surface is modelled only as the log of emitted events (`emitted`). Subscription is library code.
- `src/App.tsx` is not part of this model: it is an unrouted prototype whose logic is a subset of `Index.tsx`.
- `src/userInfo.ts` (identity persistence), `src/views/login/Login.tsx`, `src/views/room/room.tsx`, `src/router.tsx` and `src/config/config.ts` are wiring. They are not part of this model.
- `src/services/config` and `src/services/iceServe` are not part of this model. The url and path that both engines import from `config` (src/services/webrtc.service.ts:9, src/views/home/Index.tsx:10) and the ICE servers they import from `iceServe` (src/services/webrtc.service.ts:10, src/views/home/Index.tsx:9) are constructor parameters of `ClientConfig`.

## Findings

| source | as written | input that shows it | evidently intended | confidence | as-written member | corrected member |
|---|---|---|---|---|---|---|
| src/services/webrtc.service.ts:46-48 | `setScocketUrl(url)` assigns `RTCClient.socketUrl` to itself and never reads `url` | any `url` different from the current one: the url stays unchanged and `init` still connects to the old url | the static url becomes `url` | high; not executed | `ServiceScenarios.SocketUrlSetterIgnoresUrl` | `WebRtcService.ClientConfig.SetSocketUrl` |
