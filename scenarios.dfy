/**
  Whole runs through the endpoints and the relays, each from a fresh object:
  what a late joiner of the open relay is sent, how an honest dialer gets
  past the authenticating relay and a dialer with the wrong key does not, and
  how the offerer's offer waits for ICE gathering.
*/
module Scenarios {
  import opened Wrappers
  import opened Challenge
  import opened Relay
  import AuthRelay
  import OpenRelay
  import Channel
  import opened Session
  import Offerer

  /**
    On the open relay, connection 0 sends `m` while alone, then connection 1
    joins: the sender is sent nothing, and the joiner is sent `m` from the
    buffer.
  */
  method LateJoinerGetsBuffer(m: Payload) returns (senderFrames: seq<Frame>, joinerFrames: seq<Frame>)
    ensures senderFrames == []
    ensures joinerFrames == [Relayed(m)]
  {
    var relay := new OpenRelay.SignalingServer();
    relay.Connect(0);
    assert relay.outbox[0] == [];
    relay.Message(0, m);
    BroadcastToNobody(map[0 := []], Relayed(m));
    assert relay.outbox == map[0 := []];
    relay.Connect(1);
    senderFrames, joinerFrames := relay.outbox[0], relay.outbox[1];
  }

  /**
    What the relay's `recv()` on the challenged connection yields after the
    dialer's event `e` on it: the secret it sent back, as bytes, or no reply
    once the dialer has closed the connection.
  */
  function ReplyTo(e: Channel.Event): Option<Payload> {
    if e.SentSecret? then Some(Binary(e.secret)) else None
  }

  /**
    A dialing channel that holds the private key matching the relay's public
    key decrypts the challenge, sends the secret back, and the relay admits
    the connection.
  */
  method HonestDialerAdmitted(pub: PublicKey, priv: PrivateKey, secret: Secret) returns (admitted: bool, answered: bool)
    requires Matches(pub, priv)
    requires pub.modulusLength >= MinModulusLength
    ensures admitted && answered
  {
    var relay := new AuthRelay.SignalingServer();
    var dialer := new Channel.SignalingChannel(Channel.Dialing(true));
    HonestPeerAdmitted(pub, priv, secret);
    relay.Connect(0, secret, pub);
    dialer.Dial(7);
    var challenge := relay.outbox[0][0];
    dialer.ReceiveChallenge(challenge.sealed, priv);
    var sent := dialer.events[0];
    answered := sent == Channel.SentSecret(7, secret);
    relay.Reply(0, ReplyTo(sent));
    admitted := 0 in relay.clients;
  }

  /**
    A dialing channel whose private key does not match cannot decrypt the
    challenge: it closes its connection without answering, so the relay sees
    the peer go and never admits it. A later `send_data` on the dialer fails
    with the connection closed.
  */
  method WrongKeyDialerRefused(pub: PublicKey, priv: PrivateKey, secret: Secret, d: Description)
    returns (admitted: bool, events: seq<Channel.Event>, outcome: Channel.SendOutcome)
    requires !Matches(pub, priv)
    requires pub.modulusLength >= MinModulusLength
    ensures !admitted
    ensures events == [Channel.ClosedSocket(7)]
    ensures outcome == Channel.ConnectionClosed
  {
    var relay := new AuthRelay.SignalingServer();
    var dialer := new Channel.SignalingChannel(Channel.Dialing(true));
    SecretAlwaysSealable(pub, secret);
    WrongKeyCannotDecrypt(pub, priv, secret);
    relay.Connect(0, secret, pub);
    dialer.Dial(7);
    var challenge := relay.outbox[0][0];
    dialer.ReceiveChallenge(challenge.sealed, priv);
    relay.Reply(0, ReplyTo(dialer.events[0]));
    admitted := 0 in relay.clients;
    outcome := dialer.SendData(d);
    events := dialer.events;
  }

  /**
    A dialing channel closes its own connection before the challenge is
    handled: whatever the challenge, no secret goes back and the connected
    handler never runs.
  */
  method ClosedDialerStaysSilent(h: Channel.HandlerId, sealed: Ciphertext, priv: PrivateKey)
    returns (events: seq<Channel.Event>, phase: Channel.Phase)
    ensures events == [Channel.ClosedSocket(7)]
    ensures phase == Channel.Finished
  {
    var dialer := new Channel.SignalingChannel(Channel.Dialing(true));
    dialer.SetOnConnected(h);
    dialer.Dial(7);
    dialer.Close();
    dialer.ReceiveChallenge(sealed, priv);
    events, phase := dialer.events, dialer.phase;
  }

  /**
    The offerer connects, its channel reports connected while gathering has
    not started, gathering then runs and completes: the offer goes out
    exactly once, carrying the local description reported at completion.
  */
  method OfferWaitsForGathering(peer: Offerer.PeerId, camera: SourceId, offer: Description, local: Description)
    returns (calls: seq<Call>)
    ensures calls == [OpenCamera(camera), AddTrack(camera), SetLocalDescription(offer), SendData(local)]
  {
    var client := new Offerer.WebRTCClient();
    client.Connect(peer, camera, offer);
    client.OnSignalingConnected();
    client.OnGatheringStateChange(Gathering, offer);
    client.OnGatheringStateChange(GatheringComplete, local);
    assert Repeat(SendData(local), 1) == [SendData(local)];
    calls := client.calls;
  }
}
