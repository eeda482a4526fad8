/**
  What the two negotiation endpoints exchange and what they observe of the
  WebRTC engine: session descriptions, the engine's gathering and connection
  states, media tracks, and the calls an endpoint makes on its collaborators.
*/
module Session {
  /**
    An SDP session description: the engine's `RTCSessionDescription`, and also
    the JSON object `{"sdp": ..., "type": ...}` that carries it over the
    signaling channel.
  */
  datatype Description = Description(sdp: string, kind: string)

  const Offer: string := "offer"
  const Answer: string := "answer"

  /** The engine's `iceGatheringState`. */
  datatype GatheringState = GatheringNew | Gathering | GatheringComplete

  /** The engine's `connectionState`. */
  datatype ConnectionState = New | Connecting | Connected | Disconnected | Failed | Closed

  /** Identity of one media track. */
  type TrackId = nat

  /** A remote media track as the engine announces it; `kind` is "audio", "video" or anything else. */
  datatype Track = Track(id: TrackId, kind: string)

  const Audio: string := "audio"
  const Video: string := "video"

  /** Identity of a local media source (the camera). */
  type SourceId = nat

  /** A call an endpoint makes on one of its collaborators: the engine, the camera, the recorder or the channel. */
  datatype Call =
    | OpenCamera(source: SourceId)
    | AddTrack(source: SourceId)
    | SetLocalDescription(local: Description)
    | SetRemoteDescription(remote: Description)
    | SendData(data: Description)
    | ClosePeer
    | StopVideo
    | CloseSignaling
    | StartRecorder
    | StopRecorder
    | RecordTrack(track: TrackId, fixedPts: bool)

  /** How many descriptions were sent over the channel in `calls`. */
  function Sends(calls: seq<Call>): (n: nat)
    ensures n <= |calls|
  {
    if calls == [] then 0
    else Sends(calls[..|calls| - 1]) + (if calls[|calls| - 1].SendData? then 1 else 0)
  }

  /** Nothing was sent in `calls` exactly when no call of `calls` is a send. */
  lemma {:induction false} NoSends(calls: seq<Call>)
    ensures Sends(calls) == 0 <==> forall i :: 0 <= i < |calls| ==> !calls[i].SendData?
  {
    if calls != [] {
      var init := calls[..|calls| - 1];
      NoSends(init);
      assert forall i :: 0 <= i < |init| ==> init[i] == calls[i];
    }
  }

  lemma {:induction false} SendsAppend(calls: seq<Call>, more: seq<Call>)
    ensures Sends(calls + more) == Sends(calls) + Sends(more)
    decreases |more|
  {
    if more == [] {
      assert calls + more == calls;
    } else {
      var init := more[..|more| - 1];
      assert (calls + more)[..|calls + more| - 1] == calls + init;
      SendsAppend(calls, init);
    }
  }

  /** `n` copies of the same call. */
  function Repeat(c: Call, n: nat): (r: seq<Call>)
    ensures |r| == n
    ensures forall i :: 0 <= i < n ==> r[i] == c
  {
    if n == 0 then [] else Repeat(c, n - 1) + [c]
  }

  /** Sending the same description `n` times is `n` sends. */
  lemma {:induction false} SendsRepeat(d: Description, n: nat)
    ensures Sends(Repeat(SendData(d), n)) == n
  {
    if n > 0 {
      assert Repeat(SendData(d), n)[..n - 1] == Repeat(SendData(d), n - 1);
      SendsRepeat(d, n - 1);
    }
  }

  /** How many times the camera was opened in `calls`. */
  function Opens(calls: seq<Call>): (n: nat)
    ensures n <= |calls|
  {
    if calls == [] then 0
    else Opens(calls[..|calls| - 1]) + (if calls[|calls| - 1].OpenCamera? then 1 else 0)
  }

  lemma {:induction false} OpensConcat(calls: seq<Call>, more: seq<Call>)
    ensures Opens(calls + more) == Opens(calls) + Opens(more)
    decreases |more|
  {
    if more == [] {
      assert calls + more == calls;
    } else {
      var init := more[..|more| - 1];
      assert (calls + more)[..|calls + more| - 1] == calls + init;
      OpensConcat(calls, init);
    }
  }

  /** The camera was never opened in `calls` exactly when no call of `calls` opens it. */
  lemma {:induction false} NoOpens(calls: seq<Call>)
    ensures Opens(calls) == 0 <==> forall i :: 0 <= i < |calls| ==> !calls[i].OpenCamera?
  {
    if calls != [] {
      var init := calls[..|calls| - 1];
      NoOpens(init);
      assert forall i :: 0 <= i < |init| ==> init[i] == calls[i];
    }
  }

  /** One more call adds to the opening count or to the send count exactly when it is of that kind. */
  lemma CallsAppend(calls: seq<Call>, c: Call)
    ensures Opens(calls + [c]) == Opens(calls) + (if c.OpenCamera? then 1 else 0)
    ensures Sends(calls + [c]) == Sends(calls) + (if c.SendData? then 1 else 0)
  {
    assert (calls + [c])[..|calls|] == calls;
  }
}
