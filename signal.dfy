/**
  Vocabulary shared by both iterations of the negotiation engine: the relay
  message names of src/services/event.type.ts, the opaque session
  descriptions, candidates and tracks the peer connection handles, and the
  settlement rule of the promises the handlers return.
 */
module Signal {

  datatype Option<+T> = None | Some(value: T)

  /** State of a promise: it settles at most once, and the first settlement wins. */
  datatype Outcome = Pending | Resolved | Rejected

  /** `resolve(v)` / `reject(v)` on a promise that may already be settled. */
  function Settle(p: Outcome, v: Outcome): Outcome
  {
    if p == Pending then v else p
  }

  datatype SdpKind = Offer | Answer

  /** A session description; an empty `sdp` text is falsy in the source. */
  datatype Description = Description(kind: SdpKind, sdp: string)

  /** A reachability candidate, opaque to the engine. */
  datatype Candidate = Candidate(candidate: string)

  /** A local media track, opaque to the engine. */
  datatype Track = Track(id: nat)

  /** Messages the engine emits on the relay socket. */
  datatype Msg =
    | LoginReq(userName: string, roomName: string)  // 'login'
    | SendSdp(desc: Description)                    // 'send_sdp'
    | CandidateMsg(candidate: Option<Candidate>)    // 'candidate'; None is end-of-candidates
    | CallMsg                                       // 'call'

  /** Calls the engine makes on its RTCPeerConnection, in order. */
  datatype PeerCall =
    | SetRemote(desc: Description)
    | SetLocal(desc: Description)
    | AddIce(candidate: Candidate)
    | AddTrackCall(track: Track)

  /** What the awaited `createOffer()` / `createAnswer()` of the peer connection produced. */
  datatype Creation = CreateFailed | Created(sdp: string)

  /** The description a publisher creates is an offer, anyone else's an answer. */
  function KindFor(isPublisher: bool): SdpKind
  {
    if isPublisher then Offer else Answer
  }

  /** Number of `send_sdp` messages in an outbox. */
  function SdpCount(msgs: seq<Msg>): (n: nat)
    ensures n <= |msgs|
    ensures n == 0 <==> forall i :: 0 <= i < |msgs| ==> !msgs[i].SendSdp?
  {
    if msgs == [] then 0
    else SdpCount(msgs[..|msgs| - 1]) + (if msgs[|msgs| - 1].SendSdp? then 1 else 0)
  }

  /** Counting `send_sdp` messages distributes over concatenation of outboxes. */
  lemma {:induction false} SdpCountAppend(a: seq<Msg>, b: seq<Msg>)
    ensures SdpCount(a + b) == SdpCount(a) + SdpCount(b)
    decreases |b|
  {
    if b == [] {
      assert a + b == a;
    } else {
      var b' := b[..|b| - 1];
      SdpCountAppend(a, b');
      assert (a + b)[..|a + b| - 1] == a + b';
      assert b[..|b| - 1] == b';
    }
  }

  /** The `addTrack` calls made for the tracks of a stream, one per track in order. */
  function TrackCalls(tracks: seq<Track>): (calls: seq<PeerCall>)
    ensures |calls| == |tracks|
    ensures forall k :: 0 <= k < |tracks| ==> calls[k] == AddTrackCall(tracks[k])
  {
    if tracks == [] then []
    else TrackCalls(tracks[..|tracks| - 1]) + [AddTrackCall(tracks[|tracks| - 1])]
  }

  /** The calls for a stream are the first track's call followed by the calls for the rest. */
  lemma TrackCallsCons(tracks: seq<Track>)
    requires tracks != []
    ensures TrackCalls(tracks) == [AddTrackCall(tracks[0])] + TrackCalls(tracks[1..])
  {
    var calls, restCalls := TrackCalls(tracks), TrackCalls(tracks[1..]);
    assert forall k :: 1 <= k < |tracks| ==> calls[k] == restCalls[k - 1];
  }

  /** The connection whose calls so far are `log` already has a sender for `t`. */
  predicate HasSender(log: seq<PeerCall>, t: Track)
  {
    AddTrackCall(t) in log
  }

  /** No track of `tracks` has a sender on the connection yet, and no track occurs twice. */
  predicate FreshFor(log: seq<PeerCall>, tracks: seq<Track>)
  {
    && (forall j :: 0 <= j < |tracks| ==> !HasSender(log, tracks[j]))
    && (forall i, j :: 0 <= i < j < |tracks| ==> tracks[i] != tracks[j])
  }

  /** The calls on a connection after adding tracks, and whether an `addTrack` threw. */
  datatype Added = Added(log: seq<PeerCall>, threw: bool)

  /**
    `addTrack` for each of `tracks` in turn on the connection whose calls so
    far are `log`. A track that already has a sender makes `addTrack` throw
    an InvalidAccessError, which ends the iteration with the tracks before it
    added.
   */
  function AddTracks(log: seq<PeerCall>, tracks: seq<Track>): (res: Added)
    ensures |log| <= |res.log| <= |log| + |tracks|
    decreases |tracks|
  {
    if tracks == [] then Added(log, false)
    else if HasSender(log, tracks[0]) then Added(log, true)
    else AddTracks(log + [AddTrackCall(tracks[0])], tracks[1..])
  }

  /** Adding tracks only appends to the calls already made on the connection. */
  lemma {:induction false} AddTracksExtends(log: seq<PeerCall>, tracks: seq<Track>)
    ensures AddTracks(log, tracks).log[..|log|] == log
    decreases |tracks|
  {
    if tracks != [] && !HasSender(log, tracks[0]) {
      var log' := log + [AddTrackCall(tracks[0])];
      AddTracksExtends(log', tracks[1..]);
      var res := AddTracks(log', tracks[1..]).log;
      assert res[..|log|] == res[..|log'|][..|log|];
    }
  }

  /** When no `addTrack` threw, every track was added, one call each in order. */
  lemma {:induction false} AddTracksCompleted(log: seq<PeerCall>, tracks: seq<Track>)
    ensures !AddTracks(log, tracks).threw ==> AddTracks(log, tracks).log == log + TrackCalls(tracks)
    decreases |tracks|
  {
    if tracks != [] && !HasSender(log, tracks[0]) {
      AddTracksCompleted(log + [AddTrackCall(tracks[0])], tracks[1..]);
      TrackCallsCons(tracks);
    }
  }

  /** One step of `AddTracks` from position `i` of a stream. */
  lemma AddTracksStep(log: seq<PeerCall>, tracks: seq<Track>, i: nat)
    requires i < |tracks|
    ensures AddTracks(log, tracks[i..]) ==
              if HasSender(log, tracks[i]) then Added(log, true)
              else AddTracks(log + [AddTrackCall(tracks[i])], tracks[i + 1..])
  {
    assert tracks[i..][0] == tracks[i] && tracks[i..][1..] == tracks[i + 1..];
  }

  /** Freshness of a stream is freshness of its first track, then of the rest once that one has a sender. */
  lemma FreshForCons(log: seq<PeerCall>, tracks: seq<Track>)
    requires tracks != [] && !HasSender(log, tracks[0])
    ensures FreshFor(log, tracks) <==> FreshFor(log + [AddTrackCall(tracks[0])], tracks[1..])
  {
    var t, rest, log' := tracks[0], tracks[1..], log + [AddTrackCall(tracks[0])];
    if FreshFor(log, tracks) {
      forall j | 0 <= j < |rest|
        ensures !HasSender(log', rest[j])
      {
        assert rest[j] == tracks[j + 1];
        assert t != tracks[j + 1];
      }
      forall i, j | 0 <= i < j < |rest|
        ensures rest[i] != rest[j]
      {
        assert rest[i] == tracks[i + 1] && rest[j] == tracks[j + 1];
      }
    } else if j :| 0 <= j < |tracks| && HasSender(log, tracks[j]) {
      assert j > 0 && HasSender(log', rest[j - 1]);
    } else {
      var i, j :| 0 <= i < j < |tracks| && tracks[i] == tracks[j];
      if i == 0 {
        assert HasSender(log', rest[j - 1]);
      } else {
        assert rest[i - 1] == rest[j - 1];
      }
    }
  }

  /** Adding tracks throws exactly when one of them already has a sender or occurs twice. */
  lemma {:induction false} AddTracksThrowsIffNotFresh(log: seq<PeerCall>, tracks: seq<Track>)
    ensures AddTracks(log, tracks).threw <==> !FreshFor(log, tracks)
    decreases |tracks|
  {
    if tracks == [] || HasSender(log, tracks[0]) {
      return;
    }
    AddTracksThrowsIffNotFresh(log + [AddTrackCall(tracks[0])], tracks[1..]);
    FreshForCons(log, tracks);
  }

  /** Tracks that are fresh for a connection are all added, one call each in order. */
  lemma AddTracksFresh(log: seq<PeerCall>, tracks: seq<Track>)
    requires FreshFor(log, tracks)
    ensures AddTracks(log, tracks) == Added(log + TrackCalls(tracks), false)
  {
    AddTracksThrowsIffNotFresh(log, tracks);
    AddTracksCompleted(log, tracks);
  }
}
