/**
  The answering endpoint (`WebRTCServer`): it waits for an offer on its
  listening channel, answers it, records the tracks the peer sends, and
  starts and stops the recorder as the engine reports the connection going up
  and down. `FixedPtsTrack` restamps the recorded video with evenly spaced
  presentation timestamps.
*/
module Answerer {
  import opened Wrappers
  import opened Session

  /** Identity of a peer connection object created by the engine. */
  type PeerId = nat

  /** Timestamp distance between two consecutive restamped frames. */
  const PtsStep: int := 6122

  /** A decoded video frame: its presentation timestamp and the picture it carries. */
  datatype VideoFrame = VideoFrame(pts: int, picture: nat)

  /** Wraps a video track and gives frame k, counting from 0, the timestamp k * PtsStep. */
  class FixedPtsTrack {
    /** The timestamp the next frame gets (`pts`). */
    var pts: int
    /** How many frames have been handed on. */
    ghost var handed: nat

    ghost predicate Valid()
      reads this
    {
      pts == handed * PtsStep
    }

    constructor ()
      ensures Valid()
      ensures pts == 0 && handed == 0
    {
      pts, handed := 0, 0;
    }

    /** `recv`: the next frame of the wrapped track, restamped; every other part of it is unchanged. */
    method Recv(frame: VideoFrame) returns (stamped: VideoFrame)
      requires Valid()
      modifies this
      ensures Valid()
      ensures handed == old(handed) + 1
      ensures stamped.pts == old(handed) * PtsStep && stamped.picture == frame.picture
      ensures pts == old(pts) + PtsStep
    {
      stamped := frame.(pts := pts);
      pts, handed := pts + PtsStep, handed + 1;
    }
  }

  /**
    Hands every frame of `frames` through `track` in order: the frames come
    out unchanged except for timestamps that start where the track stood and
    grow by exactly PtsStep per frame.
  */
  method Restamp(track: FixedPtsTrack, frames: seq<VideoFrame>) returns (out: seq<VideoFrame>)
    requires track.Valid()
    modifies track
    ensures track.Valid()
    ensures track.handed == old(track.handed) + |frames|
    ensures |out| == |frames|
    ensures forall i :: 0 <= i < |out| ==> out[i].picture == frames[i].picture
    ensures forall i :: 0 <= i < |out| ==> out[i].pts == (old(track.handed) + i) * PtsStep
    ensures forall i :: 0 < i < |out| ==> out[i].pts - out[i - 1].pts == PtsStep
  {
    out := [];
    for k := 0 to |frames|
      invariant track.Valid()
      invariant track.handed == old(track.handed) + k
      invariant |out| == k
      invariant forall i :: 0 <= i < k ==> out[i].picture == frames[i].picture
      invariant forall i :: 0 <= i < k ==> out[i].pts == (old(track.handed) + i) * PtsStep
    {
      var stamped := track.Recv(frames[k]);
      out := out + [stamped];
    }
  }

  class WebRTCServer {
    /** The peer connection (`pc`); None until `accept`. */
    var pc: Option<PeerId>
    /** Whether the listening channel (`signaling`) exists. */
    var signaling: bool
    /** Whether the recorder (`recorder`) exists. */
    var recorder: bool
    /** The last video track the peer sent (`__video`). */
    var video: Option<TrackId>
    /** The engine's `connectionState`, as last reported. */
    var connection: ConnectionState
    /** Every call made on a collaborator, in order. */
    var calls: seq<Call>

    /** How many offers have arrived. */
    ghost var offers: nat
    /** Every video track the peer has sent. */
    ghost var videoTracks: set<TrackId>

    ghost predicate Valid()
      reads this
    {
      && Sends(calls) == offers
      && (video.Some? ==> video.value in videoTracks)
      && (videoTracks != {} ==> video.Some?)
      && (signaling <==> recorder)
      && (recorder ==> pc.Some?)
    }

    constructor ()
      ensures Valid()
      ensures pc.None? && !signaling && !recorder && video.None? && calls == [] && videoTracks == {}
    {
      pc, signaling, recorder, video, connection, calls := None, false, false, None, New, [];
      offers, videoTracks := 0, {};
    }

    /** `accept`: the peer connection `peer`, the listening channel and the recorder are created. */
    method Accept(peer: PeerId)
      requires Valid()
      requires pc.None?
      modifies this
      ensures Valid()
      ensures pc == Some(peer) && signaling && recorder
      ensures calls == old(calls) && video == old(video) && connection == New
    {
      pc, signaling, recorder, connection := Some(peer), true, true, New;
    }

    /**
      A message on the channel: an offer becomes the remote description, the
      engine's `answer` becomes the local description, and `local`, the local
      description the engine then reports, is sent back. Anything that is not
      an offer is ignored.
    */
    method OnMessage(message: Description, answer: Description, local: Description)
      requires Valid()
      requires signaling
      modifies this
      ensures Valid()
      ensures message.kind == Offer ==>
        calls == old(calls) + [SetRemoteDescription(message), SetLocalDescription(answer), SendData(local)]
      ensures message.kind != Offer ==> calls == old(calls)
      ensures pc == old(pc) && signaling == old(signaling) && recorder == old(recorder)
      ensures video == old(video) && connection == old(connection)
    {
      if message.kind == Offer {
        var remote, local' := calls + [SetRemoteDescription(message)], calls + [SetRemoteDescription(message), SetLocalDescription(answer)];
        CallsAppend(calls, SetRemoteDescription(message));
        CallsAppend(remote, SetLocalDescription(answer));
        CallsAppend(local', SendData(local));
        assert remote + [SetLocalDescription(answer)] == local';
        assert local' + [SendData(local)] == calls + [SetRemoteDescription(message), SetLocalDescription(answer), SendData(local)];
        calls, offers := local' + [SendData(local)], offers + 1;
      }
    }

    /**
      The engine reports connection state `state`: `failed` closes the peer
      connection, `connected` starts the recorder, `closed` stops it; every
      other state is only noted.
    */
    method OnConnectionStateChange(state: ConnectionState)
      requires Valid()
      requires pc.Some? && recorder
      modifies this
      ensures Valid()
      ensures connection == state
      ensures calls == old(calls) + match state
        case Failed => [ClosePeer]
        case Connected => [StartRecorder]
        case Closed => [StopRecorder]
        case _ => []
      ensures pc == old(pc) && signaling == old(signaling) && recorder == old(recorder) && video == old(video)
    {
      var next := calls;
      if state == Failed {
        CallsAppend(calls, ClosePeer);
        next := calls + [ClosePeer];
      } else if state == Connected {
        CallsAppend(calls, StartRecorder);
        next := calls + [StartRecorder];
      } else if state == Closed {
        CallsAppend(calls, StopRecorder);
        next := calls + [StopRecorder];
      } else {
        assert calls + [] == calls;
      }
      connection, calls := state, next;
    }

    /**
      The peer sent `track`: audio goes to the recorder as it is; video is
      kept as the current video track and goes to the recorder restamped by a
      FixedPtsTrack; any other kind is not recorded.
    */
    method OnTrack(track: Track)
      requires Valid()
      requires pc.Some? && recorder
      modifies this
      ensures Valid()
      ensures track.kind == Audio ==> calls == old(calls) + [RecordTrack(track.id, false)] && video == old(video)
      ensures track.kind == Video ==> calls == old(calls) + [RecordTrack(track.id, true)] && video == Some(track.id)
      ensures track.kind != Audio && track.kind != Video ==> calls == old(calls) && video == old(video)
      ensures pc == old(pc) && signaling == old(signaling) && recorder == old(recorder) && connection == old(connection)
    {
      if track.kind == Audio {
        CallsAppend(calls, RecordTrack(track.id, false));
        calls := calls + [RecordTrack(track.id, false)];
      } else if track.kind == Video {
        CallsAppend(calls, RecordTrack(track.id, true));
        video, videoTracks, calls := Some(track.id), videoTracks + {track.id}, calls + [RecordTrack(track.id, true)];
      }
    }

    /** A track the peer sent has ended: the recorder is stopped. */
    method OnTrackEnded()
      requires Valid()
      requires pc.Some? && recorder
      modifies this
      ensures Valid()
      ensures calls == old(calls) + [StopRecorder]
      ensures pc == old(pc) && signaling == old(signaling) && recorder == old(recorder)
      ensures video == old(video) && connection == old(connection)
    {
      CallsAppend(calls, StopRecorder);
      calls := calls + [StopRecorder];
    }

    /**
      `close_connection`: stops the recorder, closes the channel, closes the
      peer connection, in that order. It is not guarded: before `accept` the
      first step fails on the missing recorder, and nothing is called.
    */
    method CloseConnection() returns (r: Option<Call>)
      requires Valid()
      modifies this
      ensures Valid()
      ensures old(recorder) ==> r.None? && calls == old(calls) + [StopRecorder, CloseSignaling, ClosePeer]
      ensures !old(recorder) ==> r == Some(StopRecorder) && calls == old(calls)
      ensures pc == old(pc) && signaling == old(signaling) && recorder == old(recorder)
      ensures video == old(video) && connection == old(connection)
    {
      if recorder {
        CallsAppend(calls, StopRecorder);
        CallsAppend(calls + [StopRecorder], CloseSignaling);
        CallsAppend(calls + [StopRecorder, CloseSignaling], ClosePeer);
        assert calls + [StopRecorder] + [CloseSignaling] == calls + [StopRecorder, CloseSignaling];
        assert calls + [StopRecorder, CloseSignaling] + [ClosePeer] == calls + [StopRecorder, CloseSignaling, ClosePeer];
        calls, r := calls + [StopRecorder, CloseSignaling, ClosePeer], None;
      } else {
        r := Some(StopRecorder);
      }
    }

    /** `video_track`: the last video track received, or None before any. */
    function VideoTrack(): (r: Option<TrackId>)
      reads this
      requires Valid()
      ensures r.Some? ==> r.value in videoTracks
      ensures r.None? <==> video.None?
      ensures r.None? <==> videoTracks == {}
    {
      video
    }
  }
}
