/**
  The offering endpoint (`WebRTCClient`): it opens the camera, offers its
  video to the peer over the signaling channel once ICE gathering is
  complete, applies the answer it gets back, and closes the peer connection
  when the engine reports failure. The engine, the camera and the channel are
  collaborators: what the endpoint asks of them is recorded in `calls`, and
  what the engine reports arrives as events.
*/
module Offerer {
  import opened Wrappers
  import opened Session

  /** Identity of a peer connection object created by the engine. */
  type PeerId = nat

  /**
    The call log's bookkeeping: the camera was opened exactly once if a source
    exists and never otherwise, and every `send_offer` chain started so far
    has either sent the offer or is still armed.
  */
  ghost predicate Counted(video: Option<SourceId>, calls: seq<Call>, listeners: nat, chains: nat) {
    && Opens(calls) == (if video.Some? then 1 else 0)
    && chains == Sends(calls) + listeners
  }

  /**
    Setting up a connection (the camera opened unless a source exists, then
    the track and the local description) opens the camera at most once and
    sends nothing.
  */
  lemma SetupKeepsCounted(video: Option<SourceId>, calls: seq<Call>, listeners: nat, chains: nat, camera: SourceId, offer: Description)
    requires Counted(video, calls, listeners, chains)
    ensures var source := if video.Some? then video.value else camera;
            Counted(Some(source), calls + (if video.Some? then [] else [OpenCamera(camera)])
                                        + [AddTrack(source), SetLocalDescription(offer)], listeners, chains)
  {
    var source := if video.Some? then video.value else camera;
    var opening := if video.Some? then [] else [OpenCamera(camera)];
    var setup := [AddTrack(source), SetLocalDescription(offer)];
    OpensConcat(calls, opening);
    OpensConcat(calls + opening, setup);
    SendsAppend(calls, opening);
    SendsAppend(calls + opening, setup);
    assert Opens(setup) == 0 && Sends(setup) == 0;
  }

  /** Opening the camera when no source exists keeps the bookkeeping. */
  lemma OpenKeepsCounted(calls: seq<Call>, listeners: nat, chains: nat, camera: SourceId)
    requires Counted(None, calls, listeners, chains)
    ensures Counted(Some(camera), calls + [OpenCamera(camera)], listeners, chains)
  {
    CallsAppend(calls, OpenCamera(camera));
  }

  class WebRTCClient {
    /** The peer connection (`pc`); None until `connect`. */
    var pc: Option<PeerId>
    /** Whether the signaling channel (`signaling`) has been created. */
    var signaling: bool
    /** The camera source (`__video`); opened at most once. */
    var video: Option<SourceId>
    /** The engine's `iceGatheringState`, as last reported. */
    var gathering: GatheringState
    /** The engine's `connectionState`, as last reported. */
    var connection: ConnectionState
    /** The engine's `localDescription`, as last reported. */
    var localDescription: Option<Description>
    /** How many `send_offer` callbacks are armed, each for exactly one gathering-state change. */
    var listeners: nat
    /** Every call made on a collaborator, in order. */
    var calls: seq<Call>

    /** How many `send_offer` chains the channel's connected event has started. */
    ghost var chains: nat

    ghost predicate Valid()
      reads this
    {
      && Counted(video, calls, listeners, chains)
      && (gathering == GatheringComplete ==> listeners == 0)
      && (signaling ==> pc.Some? && video.Some? && localDescription.Some?)
    }

    constructor ()
      ensures Valid()
      ensures pc.None? && !signaling && video.None? && localDescription.None? && listeners == 0 && calls == []
    {
      pc, signaling, video, localDescription, listeners, calls := None, false, None, None, 0, [];
      gathering, connection := GatheringNew, New;
      chains := 0;
    }

    /**
      `connect`: a new peer connection `peer`; the camera `camera` is opened
      unless a source is already there; its video is added as a track; the
      engine's `offer` becomes the local description; the signaling channel is
      created with its handlers.
    */
    method Connect(peer: PeerId, camera: SourceId, offer: Description)
      requires Valid()
      requires pc.None?
      modifies this
      ensures Valid()
      ensures pc == Some(peer) && signaling
      ensures video == (if old(video).Some? then old(video) else Some(camera))
      ensures calls == old(calls) + (if old(video).Some? then [] else [OpenCamera(camera)])
                                  + [AddTrack(video.value), SetLocalDescription(offer)]
      ensures localDescription == Some(offer) && gathering == GatheringNew && connection == New
      ensures listeners == old(listeners)
    {
      var source := if video.Some? then video.value else camera;
      SetupKeepsCounted(video, calls, listeners, chains, camera, offer);
      pc, video, calls := Some(peer), Some(source), calls + (if video.Some? then [] else [OpenCamera(camera)])
                                                       + [AddTrack(source), SetLocalDescription(offer)];
      gathering, connection, localDescription, signaling := GatheringNew, New, Some(offer), true;
    }

    /**
      `send_offer`: with gathering complete, the current local description
      goes out over the channel, once; otherwise the callback re-arms itself
      for the next gathering-state change and nothing is sent.
    */
    method SendOffer()
      requires localDescription.Some?
      modifies this
      ensures old(gathering) == GatheringComplete ==>
        calls == old(calls) + [SendData(old(localDescription).value)] && listeners == old(listeners)
      ensures old(gathering) != GatheringComplete ==>
        calls == old(calls) && listeners == old(listeners) + 1
      ensures Sends(calls) + listeners == Sends(old(calls)) + old(listeners) + 1
      ensures Opens(calls) == Opens(old(calls))
      ensures pc == old(pc) && signaling == old(signaling) && video == old(video) && gathering == old(gathering)
      ensures connection == old(connection) && localDescription == old(localDescription) && chains == old(chains)
    {
      if gathering == GatheringComplete {
        CallsAppend(calls, SendData(localDescription.value));
        calls := calls + [SendData(localDescription.value)];
      } else {
        listeners := listeners + 1;
      }
    }

    /** The channel's connected event: one new `send_offer` chain starts. */
    method OnSignalingConnected()
      requires Valid()
      requires signaling
      modifies this
      ensures Valid()
      ensures gathering == GatheringComplete ==>
        calls == old(calls) + [SendData(old(localDescription).value)] && listeners == old(listeners)
      ensures gathering != GatheringComplete ==> calls == old(calls) && listeners == old(listeners) + 1
      ensures pc == old(pc) && signaling == old(signaling) && video == old(video) && gathering == old(gathering)
      ensures connection == old(connection) && localDescription == old(localDescription)
    {
      chains := chains + 1;
      SendOffer();
    }

    /**
      The engine reports gathering state `state`, with `local` as its local
      description now. Every armed callback fires once and is disarmed: on
      `complete` each sends `local`, otherwise each re-arms itself.
    */
    method OnGatheringStateChange(state: GatheringState, local: Description)
      requires Valid()
      requires pc.Some?
      modifies this
      ensures Valid()
      ensures gathering == state && localDescription == Some(local)
      ensures state == GatheringComplete ==>
        calls == old(calls) + Repeat(SendData(local), old(listeners)) && listeners == 0
      ensures Sends(calls) == Sends(old(calls)) + (if state == GatheringComplete then old(listeners) else 0)
      ensures state != GatheringComplete ==> calls == old(calls) && listeners == old(listeners)
      ensures pc == old(pc) && signaling == old(signaling) && video == old(video) && connection == old(connection)
    {
      if state == GatheringComplete {
        FireComplete(local);
      } else {
        FireIncomplete(state, local);
      }
    }

    /** Gathering is complete: each armed callback sends `local` once, and none stays armed. */
    method FireComplete(local: Description)
      requires Valid()
      modifies this
      ensures Valid()
      ensures gathering == GatheringComplete && localDescription == Some(local)
      ensures calls == old(calls) + Repeat(SendData(local), old(listeners)) && listeners == 0
      ensures Sends(calls) == Sends(old(calls)) + old(listeners)
      ensures pc == old(pc) && signaling == old(signaling) && video == old(video) && connection == old(connection)
    {
      var armed := listeners;
      gathering, localDescription, listeners := GatheringComplete, Some(local), 0;
      ghost var before := calls;
      for i := 0 to armed
        invariant gathering == GatheringComplete && localDescription == Some(local) && listeners == 0
        invariant calls == before + Repeat(SendData(local), i)
        invariant Counted(video, calls, armed - i, chains) && chains == old(chains)
        invariant pc == old(pc) && signaling == old(signaling) && video == old(video) && connection == old(connection)
      {
        SendOffer();
        assert Repeat(SendData(local), i + 1) == Repeat(SendData(local), i) + [SendData(local)];
      }
      SendsAppend(before, Repeat(SendData(local), armed));
      SendsRepeat(local, armed);
    }

    /** Gathering is not complete: each armed callback re-arms itself and nothing is sent. */
    method FireIncomplete(state: GatheringState, local: Description)
      requires Valid()
      requires state != GatheringComplete
      modifies this
      ensures Valid()
      ensures gathering == state && localDescription == Some(local)
      ensures calls == old(calls) && listeners == old(listeners)
      ensures pc == old(pc) && signaling == old(signaling) && video == old(video) && connection == old(connection)
    {
      var armed := listeners;
      gathering, localDescription, listeners := state, Some(local), 0;
      for i := 0 to armed
        invariant gathering == state && localDescription == Some(local) && listeners == i
        invariant calls == old(calls) && chains == old(chains)
        invariant pc == old(pc) && signaling == old(signaling) && video == old(video) && connection == old(connection)
      {
        SendOffer();
      }
    }

    /** A message from the peer: only an answer is applied, as the remote description; anything else is ignored. */
    method OnMessage(message: Description)
      requires Valid()
      requires signaling
      modifies this
      ensures Valid()
      ensures calls == old(calls) + (if message.kind == Answer then [SetRemoteDescription(message)] else [])
      ensures pc == old(pc) && signaling == old(signaling) && video == old(video) && gathering == old(gathering)
      ensures listeners == old(listeners) && connection == old(connection) && localDescription == old(localDescription)
    {
      if message.kind == Answer {
        CallsAppend(calls, SetRemoteDescription(message));
        calls := calls + [SetRemoteDescription(message)];
      } else {
        assert calls + [] == calls;
      }
    }

    /** The engine reports connection state `state`: `failed` closes the peer connection; every other state is only noted. */
    method OnConnectionStateChange(state: ConnectionState)
      requires Valid()
      requires pc.Some?
      modifies this
      ensures Valid()
      ensures connection == state
      ensures calls == old(calls) + (if state == Failed then [ClosePeer] else [])
      ensures pc == old(pc) && video == old(video) && gathering == old(gathering) && listeners == old(listeners)
      ensures signaling == old(signaling) && localDescription == old(localDescription)
    {
      var next := calls;
      if state == Failed {
        CallsAppend(calls, ClosePeer);
        next := calls + [ClosePeer];
      }
      connection, calls := state, next;
    }

    /**
      `close_connection`: only when the peer connection, the video source and
      the channel all exist, it stops the video, closes the peer connection
      and closes the channel, in that order; otherwise it does nothing.
    */
    method CloseConnection()
      requires Valid()
      modifies this
      ensures Valid()
      ensures calls == old(calls) + (if pc.Some? && video.Some? && signaling then [StopVideo, ClosePeer, CloseSignaling] else [])
      ensures pc == old(pc) && signaling == old(signaling) && video == old(video) && gathering == old(gathering)
      ensures listeners == old(listeners) && connection == old(connection) && localDescription == old(localDescription)
    {
      if pc.Some? && video.Some? && signaling {
        CallsAppend(calls, StopVideo);
        CallsAppend(calls + [StopVideo], ClosePeer);
        CallsAppend(calls + [StopVideo, ClosePeer], CloseSignaling);
        assert calls + [StopVideo] + [ClosePeer] == calls + [StopVideo, ClosePeer];
        assert calls + [StopVideo, ClosePeer] + [CloseSignaling] == calls + [StopVideo, ClosePeer, CloseSignaling];
        calls := calls + [StopVideo, ClosePeer, CloseSignaling];
      } else {
        assert calls + [] == calls;
      }
    }

    /**
      `video_track`: the source that a new relay subscription follows. The
      camera `camera` is opened only if no source exists yet; afterwards the
      same source is reused.
    */
    method VideoTrack(camera: SourceId) returns (source: SourceId)
      requires Valid()
      modifies this
      ensures Valid()
      ensures video == Some(source)
      ensures old(video).Some? ==> source == old(video).value && calls == old(calls)
      ensures old(video).None? ==> source == camera && calls == old(calls) + [OpenCamera(camera)]
      ensures pc == old(pc) && signaling == old(signaling) && gathering == old(gathering) && listeners == old(listeners)
      ensures connection == old(connection) && localDescription == old(localDescription)
    {
      if video.None? {
        OpenKeepsCounted(calls, listeners, chains, camera);
        video, calls := Some(camera), calls + [OpenCamera(camera)];
      }
      source := video.value;
    }
  }
}
