/**
  The signaling channel: the object an endpoint uses to exchange JSON messages
  with its peer, either by listening for connections or by dialing the relay.
  One class covers the variants of the source: the listening role of
  `WebSocketServer`, and the dialing role of `WebSocketClient` with or without
  the challenge-response step. Every effect on the outside world, and every
  call into a registered handler, is recorded in `events`, in order.
*/
module Channel {
  import opened Wrappers
  import opened Challenge
  import opened Session

  /** Identity of one websocket connection. */
  type SockId = nat

  /** Identity of a registered callback. */
  type HandlerId = nat

  /** Listening accepts connections; dialing opens one connection to the relay, answering its challenge or not. */
  datatype Role = Listening | Dialing(authenticates: bool)

  /** Progress of a dialing channel through its one connection. */
  datatype Phase = Idle | AwaitingChallenge | Open | Finished

  /**
    How a `send_data` ends: the message goes out, nothing happens because
    there is no connection yet, or the send raises `ConnectionClosed` because
    the current connection has already ended.
  */
  datatype SendOutcome = Sent | NoConnection | ConnectionClosed

  /** What the channel does, seen from outside. */
  datatype Event =
    | SentData(sock: SockId, data: Description)
    | SentSecret(sock: SockId, secret: Bytes)
    | ClosedSocket(sock: SockId)
    | ConnectedCalled(handler: HandlerId, sock: SockId, current: Option<SockId>)
    | MessageCalled(handler: HandlerId, data: Description)

  predicate IsCallback(e: Event) {
    e.ConnectedCalled? || e.MessageCalled?
  }

  /** How many times a registered handler was called during `es`. */
  function Callbacks(es: seq<Event>): (n: nat)
    ensures n <= |es|
  {
    if es == [] then 0
    else Callbacks(es[..|es| - 1]) + (if IsCallback(es[|es| - 1]) then 1 else 0)
  }

  /** How many times the connected handler was called during `es`. */
  function ConnectedCalls(es: seq<Event>): (n: nat)
  {
    if es == [] then 0
    else ConnectedCalls(es[..|es| - 1]) + (if es[|es| - 1].ConnectedCalled? then 1 else 0)
  }

  /** The connected handler is never called more often than handlers in general. */
  lemma {:induction false} ConnectedAmongCallbacks(es: seq<Event>)
    ensures ConnectedCalls(es) <= Callbacks(es)
  {
    if es != [] {
      ConnectedAmongCallbacks(es[..|es| - 1]);
    }
  }

  lemma CountsAppend(es: seq<Event>, e: Event)
    ensures Callbacks(es + [e]) == Callbacks(es) + (if IsCallback(e) then 1 else 0)
    ensures ConnectedCalls(es + [e]) == ConnectedCalls(es) + (if e.ConnectedCalled? then 1 else 0)
  {
    assert (es + [e])[..|es|] == es;
  }

  /** No handler was called during `es` exactly when no event of `es` is a handler call. */
  lemma {:induction false} NoCallbacks(es: seq<Event>)
    ensures Callbacks(es) == 0 <==> forall i :: 0 <= i < |es| ==> !IsCallback(es[i])
  {
    if es != [] {
      var init := es[..|es| - 1];
      NoCallbacks(init);
      assert forall i :: 0 <= i < |init| ==> init[i] == es[i];
    }
  }

  /** The connected handler was never called during `es` exactly when no event of `es` is a connected call. */
  lemma {:induction false} NoConnectedCalls(es: seq<Event>)
    ensures ConnectedCalls(es) == 0 <==> forall i :: 0 <= i < |es| ==> !es[i].ConnectedCalled?
  {
    if es != [] {
      var init := es[..|es| - 1];
      NoConnectedCalls(init);
      assert forall i :: 0 <= i < |init| ==> init[i] == es[i];
    }
  }

  /** The events of handing one message to the message slot: one call if a handler is there, none otherwise. */
  function Dispatch(slot: Option<HandlerId>, data: Description): (es: seq<Event>)
    ensures |es| <= 1
    ensures es == [] <==> slot.None?
    ensures forall e :: e in es ==> e.MessageCalled? && e.data == data
  {
    match slot
    case None => []
    case Some(h) => [MessageCalled(h, data)]
  }

  /**
    The events of announcing connection `sock` to the connected slot, while
    `current` is the channel's current connection (where a `send_data` made by
    the handler would go).
  */
  function Announce(slot: Option<HandlerId>, sock: SockId, current: Option<SockId>): (es: seq<Event>)
    ensures |es| <= 1
    ensures es == [] <==> slot.None?
    ensures forall e :: e in es ==> e.ConnectedCalled? && e.sock == sock && e.current == current
  {
    match slot
    case None => []
    case Some(h) => [ConnectedCalled(h, sock, current)]
  }

  /** Announcing adds one callback, a connected one, exactly when a handler is registered. */
  lemma AnnounceCounts(es: seq<Event>, slot: Option<HandlerId>, sock: SockId, current: Option<SockId>)
    ensures Callbacks(es + Announce(slot, sock, current)) == Callbacks(es) + |Announce(slot, sock, current)|
    ensures ConnectedCalls(es + Announce(slot, sock, current)) == ConnectedCalls(es) + |Announce(slot, sock, current)|
  {
    var announced := Announce(slot, sock, current);
    if slot.Some? {
      CountsAppend(es, announced[0]);
      assert announced == [announced[0]];
    } else {
      assert es + announced == es;
    }
  }

  /** Dispatching adds one callback, never a connected one, exactly when a handler is registered. */
  lemma DispatchCounts(es: seq<Event>, slot: Option<HandlerId>, data: Description)
    ensures Callbacks(es + Dispatch(slot, data)) == Callbacks(es) + |Dispatch(slot, data)|
    ensures ConnectedCalls(es + Dispatch(slot, data)) == ConnectedCalls(es)
  {
    var dispatched := Dispatch(slot, data);
    if slot.Some? {
      assert dispatched[0] in dispatched;
      CountsAppend(es, dispatched[0]);
      assert dispatched == [dispatched[0]];
    } else {
      assert es + dispatched == es;
    }
  }

  /** A listening channel has no handshake, and calls the connected handler at most once per accepted connection. */
  ghost predicate ListeningHolds(phase: Phase, handshakeDone: bool, events: seq<Event>, accepted: set<SockId>) {
    phase == Idle && !handshakeDone && ConnectedCalls(events) <= |accepted|
  }

  /**
    The ordering a dialing channel keeps: nothing but sends and closes before
    the handshake (the events in `handshake`) is over; with authentication,
    the secret goes back just before the first callback; the connected
    handler runs at most once.
  */
  ghost predicate DialingHolds(authenticates: bool, phase: Phase, socket: Option<SockId>, events: seq<Event>,
                               handshakeDone: bool, handshake: seq<Event>)
  {
    && (phase == Idle ==> socket.None? && events == [] && !handshakeDone)
    && (phase == AwaitingChallenge ==> authenticates && socket.Some? && !handshakeDone)
    && (phase == Open ==> socket.Some? && handshakeDone)
    && (!handshakeDone ==> Callbacks(events) == 0)
    && (handshakeDone ==> handshake <= events && Callbacks(handshake) == 0)
    && (handshakeDone && authenticates ==> handshake != [] && handshake[|handshake| - 1].SentSecret?)
    && ConnectedCalls(events) <= 1
  }

  /** An event that calls no handler, on an existing connection, keeps both orderings. */
  lemma QuietKeepsHolds(events: seq<Event>, e: Event, phase: Phase, handshakeDone: bool, accepted: set<SockId>,
                        authenticates: bool, socket: Option<SockId>, handshake: seq<Event>)
    requires !IsCallback(e) && socket.Some?
    ensures ListeningHolds(phase, handshakeDone, events, accepted) ==> ListeningHolds(phase, handshakeDone, events + [e], accepted)
    ensures DialingHolds(authenticates, phase, socket, events, handshakeDone, handshake) ==>
      DialingHolds(authenticates, phase, socket, events + [e], handshakeDone, handshake)
  {
    CountsAppend(events, e);
    assert handshake <= events ==> handshake <= events + [e];
  }

  /** Handing a message to the message slot of an open channel keeps both orderings. */
  lemma DispatchKeepsHolds(events: seq<Event>, slot: Option<HandlerId>, data: Description, accepted: set<SockId>,
                           authenticates: bool, socket: Option<SockId>, handshake: seq<Event>)
    ensures ListeningHolds(Idle, false, events, accepted) ==>
      ListeningHolds(Idle, false, events + Dispatch(slot, data), accepted)
    ensures DialingHolds(authenticates, Open, socket, events, true, handshake) ==>
      DialingHolds(authenticates, Open, socket, events + Dispatch(slot, data), true, handshake)
  {
    DispatchCounts(events, slot, data);
    assert handshake <= events ==> handshake <= events + Dispatch(slot, data);
  }

  /** Accepting a new connection keeps a listening channel's bound on connected calls. */
  lemma AcceptKeepsListening(events: seq<Event>, accepted: set<SockId>, slot: Option<HandlerId>, s: SockId, current: Option<SockId>)
    requires ListeningHolds(Idle, false, events, accepted)
    requires s !in accepted
    ensures ListeningHolds(Idle, false, events + Announce(slot, s, current), accepted + {s})
  {
    AnnounceCounts(events, slot, s, current);
    assert |accepted + {s}| == |accepted| + 1;
  }

  /** Dialing without authentication ends the (empty) handshake at once and keeps the dialing order. */
  lemma DialOpenKeepsDialing(events: seq<Event>, handshake: seq<Event>, slot: Option<HandlerId>, s: SockId)
    requires DialingHolds(false, Idle, None, events, false, handshake)
    ensures DialingHolds(false, Open, Some(s), events + Announce(slot, s, Some(s)), true, events)
  {
    AnnounceCounts(events, slot, s, Some(s));
  }

  /** Sending the decrypted secret back and then announcing the connection completes the handshake in order. */
  lemma AuthenticateKeepsDialing(events: seq<Event>, handshake: seq<Event>, slot: Option<HandlerId>, s: SockId, secret: Bytes)
    requires DialingHolds(true, AwaitingChallenge, Some(s), events, false, handshake)
    ensures DialingHolds(true, Open, Some(s), events + [SentSecret(s, secret)] + Announce(slot, s, Some(s)), true,
                         events + [SentSecret(s, secret)])
  {
    var replied := events + [SentSecret(s, secret)];
    CountsAppend(events, SentSecret(s, secret));
    ConnectedAmongCallbacks(events);
    AnnounceCounts(replied, slot, s, Some(s));
    assert replied <= replied + Announce(slot, s, Some(s));
  }

  class SignalingChannel {
    const role: Role
    /** The current connection (`_websock`); None until one exists. */
    var socket: Option<SockId>
    /** The registered message handler (`_on_message`). */
    var onMessage: Option<HandlerId>
    /** The registered connected handler (`_on_connected`). */
    var onConnected: Option<HandlerId>
    /** Where a dialing channel is in its connection; a listening channel stays Idle. */
    var phase: Phase
    /** Everything the channel has done, in order. */
    var events: seq<Event>
    /** The connections that have ended, closed by this side or by the peer. */
    var ended: set<SockId>

    /** Every connection a listening channel has accepted. */
    ghost var accepted: set<SockId>
    /** Whether a dialing channel has finished its handshake, and how many events preceded that moment. */
    ghost var handshakeDone: bool
    ghost var handshake: seq<Event>

    ghost predicate Valid()
      reads this
    {
      && (role.Listening? ==> ListeningHolds(phase, handshakeDone, events, accepted))
      && (role.Dialing? ==> DialingHolds(role.authenticates, phase, socket, events, handshakeDone, handshake))
      && (role.Dialing? && phase == Finished ==> socket.Some? && socket.value in ended)
    }

    constructor (role: Role)
      ensures Valid()
      ensures this.role == role
      ensures socket.None? && onMessage.None? && onConnected.None? && phase == Idle && events == [] && ended == {}
    {
      this.role := role;
      socket, onMessage, onConnected, phase, events, ended := None, None, None, Idle, [], {};
      accepted, handshakeDone, handshake := {}, false, [];
    }

    /** Registers the message handler, replacing any earlier one. */
    method SetOnMessage(h: HandlerId)
      requires Valid()
      modifies this
      ensures Valid()
      ensures onMessage == Some(h)
      ensures socket == old(socket) && onConnected == old(onConnected) && phase == old(phase) && events == old(events)
      ensures ended == old(ended)
    {
      onMessage := Some(h);
    }

    /** Registers the connected handler, replacing any earlier one. */
    method SetOnConnected(h: HandlerId)
      requires Valid()
      modifies this
      ensures Valid()
      ensures onConnected == Some(h)
      ensures socket == old(socket) && onMessage == old(onMessage) && phase == old(phase) && events == old(events)
      ensures ended == old(ended)
    {
      onConnected := Some(h);
    }

    /**
      `send_data`: one message on the current connection; nothing while there
      is none; and `ConnectionClosed`, with nothing sent, once the current
      connection has ended.
    */
    method SendData(data: Description) returns (outcome: SendOutcome)
      requires Valid()
      modifies this
      ensures Valid()
      ensures outcome == Sent <==> old(socket).Some? && old(socket).value !in ended
      ensures outcome == NoConnection <==> old(socket).None?
      ensures outcome == ConnectionClosed <==> old(socket).Some? && old(socket).value in ended
      ensures events == old(events) + (if outcome == Sent then [SentData(old(socket).value, data)] else [])
      ensures socket == old(socket) && onMessage == old(onMessage) && onConnected == old(onConnected) && phase == old(phase)
      ensures ended == old(ended)
    {
      if socket.None? {
        outcome := NoConnection;
      } else if socket.value in ended {
        outcome := ConnectionClosed;
      } else {
        Transmit(data);
        outcome := Sent;
      }
    }

    /** The current connection is live: the message goes out on it. */
    method Transmit(data: Description)
      requires Valid()
      requires socket.Some? && socket.value !in ended
      modifies this
      ensures Valid()
      ensures events == old(events) + [SentData(old(socket).value, data)]
      ensures socket == old(socket) && onMessage == old(onMessage) && onConnected == old(onConnected) && phase == old(phase)
      ensures ended == old(ended)
    {
      var authenticates := role.Dialing? && role.authenticates;
      QuietKeepsHolds(events, SentData(socket.value, data), phase, handshakeDone, accepted, authenticates, socket, handshake);
      events := events + [SentData(socket.value, data)];
    }

    /** `close`: closes the current connection, which has then ended, or does nothing while there is none. */
    method Close()
      requires Valid()
      modifies this
      ensures Valid()
      ensures events == old(events) + (if old(socket).Some? then [ClosedSocket(old(socket).value)] else [])
      ensures ended == old(ended) + (if old(socket).Some? then {old(socket).value} else {})
      ensures socket == old(socket) && onMessage == old(onMessage) && onConnected == old(onConnected) && phase == old(phase)
    {
      if socket.Some? {
        CountsAppend(events, ClosedSocket(socket.value));
        events, ended := events + [ClosedSocket(socket.value)], ended + {socket.value};
      }
    }

    /**
      A listening channel accepts connection `s`: the connected handler runs
      first, with `s`, while the earlier connection (if any) is still the
      current one; only then does `s` become the current connection.
    */
    method Accept(s: SockId)
      requires Valid()
      requires role.Listening? && s !in accepted
      modifies this
      ensures Valid()
      ensures socket == Some(s)
      ensures events == old(events) + Announce(old(onConnected), s, old(socket))
      ensures accepted == old(accepted) + {s}
      ensures onMessage == old(onMessage) && onConnected == old(onConnected) && phase == old(phase) && ended == old(ended)
    {
      AcceptKeepsListening(events, accepted, onConnected, s, socket);
      events, socket, accepted := events + Announce(onConnected, s, socket), Some(s), accepted + {s};
    }

    /**
      A message arrives on an accepted connection `s` of a listening channel:
      it goes to the message handler if one is registered and is dropped
      otherwise. Messages from an earlier connection are still handed on.
    */
    method ReceiveListening(s: SockId, data: Description)
      requires Valid()
      requires role.Listening? && s in accepted && s !in ended
      modifies this
      ensures Valid()
      ensures events == old(events) + Dispatch(old(onMessage), data)
      ensures socket == old(socket) && onMessage == old(onMessage) && onConnected == old(onConnected) && phase == old(phase)
      ensures ended == old(ended)
    {
      DispatchKeepsHolds(events, onMessage, data, accepted, false, socket, handshake);
      events := events + Dispatch(onMessage, data);
    }

    /**
      An accepted connection `s` of a listening channel ends: its message loop
      stops. If `s` is the current connection it stays current, so later sends
      on it fail.
    */
    method Disconnect(s: SockId)
      requires Valid()
      requires role.Listening? && s in accepted
      modifies this
      ensures Valid()
      ensures ended == old(ended) + {s}
      ensures events == old(events) && socket == old(socket) && phase == old(phase)
      ensures onMessage == old(onMessage) && onConnected == old(onConnected)
    {
      ended := ended + {s};
    }

    /**
      A dialing channel opens connection `s`, which becomes the current one at
      once. With authentication it now waits for the challenge; without, the
      connected handler runs and the message loop starts.
    */
    method Dial(s: SockId)
      requires Valid()
      requires role.Dialing? && phase == Idle
      modifies this
      ensures Valid()
      ensures socket == Some(s)
      ensures role.authenticates ==> phase == AwaitingChallenge && events == old(events)
      ensures !role.authenticates ==> phase == Open && events == old(events) + Announce(old(onConnected), s, Some(s))
      ensures onMessage == old(onMessage) && onConnected == old(onConnected) && ended == old(ended)
    {
      if role.authenticates {
        socket, phase := Some(s), AwaitingChallenge;
      } else {
        DialOpen(s);
      }
    }

    /** Dialing without authentication: the connected handler runs at once, with `s` already current. */
    method DialOpen(s: SockId)
      requires Valid()
      requires role.Dialing? && !role.authenticates && phase == Idle
      modifies this
      ensures Valid()
      ensures socket == Some(s) && phase == Open
      ensures events == old(events) + Announce(old(onConnected), s, Some(s))
      ensures onMessage == old(onMessage) && onConnected == old(onConnected) && ended == old(ended)
    {
      DialOpenKeepsDialing(events, handshake, onConnected, s);
      socket, handshakeDone, handshake, events, phase := Some(s), true, events, events + Announce(onConnected, s, Some(s)), Open;
    }

    /**
      The sealed challenge arrives and is decrypted with `key`, the private key
      as read now. If decryption fails the connection is closed and the channel
      is done: no reply, no connected call, no message handling. Otherwise the
      plaintext goes back first, then the connected handler runs, then the
      message loop starts.
    */
    method ReceiveChallenge(sealed: Ciphertext, key: PrivateKey)
      requires Valid()
      requires role.Dialing? && phase == AwaitingChallenge
      modifies this
      ensures Valid()
      ensures socket == old(socket)
      ensures old(socket).value in old(ended) ==> phase == Finished && events == old(events) && ended == old(ended)
      ensures old(socket).value !in old(ended) ==> match Decrypt(key, sealed)
        case None =>
          && phase == Finished
          && events == old(events) + [ClosedSocket(old(socket).value)]
          && ended == old(ended) + {old(socket).value}
        case Some(secret) =>
          && phase == Open
          && events == old(events) + [SentSecret(old(socket).value, secret)] + Announce(old(onConnected), old(socket).value, old(socket))
          && ended == old(ended)
      ensures onMessage == old(onMessage) && onConnected == old(onConnected)
    {
      if socket.value in ended {
        Cut();
      } else {
        match Decrypt(key, sealed)
        case None => Abandon();
        case Some(secret) => Authenticate(secret);
      }
    }

    /**
      The channel's connection ended before the handshake was over: `recv`
      raises `ConnectionClosed`, or it hands over a challenge that was already
      queued and the `send` of the reply raises. Either way nothing goes back,
      no callback runs, and the connection task ends.
    */
    method Cut()
      requires Valid()
      requires role.Dialing? && phase == AwaitingChallenge && socket.value in ended
      modifies this
      ensures Valid()
      ensures phase == Finished
      ensures events == old(events) && socket == old(socket) && ended == old(ended)
      ensures onMessage == old(onMessage) && onConnected == old(onConnected)
    {
      phase := Finished;
    }

    /** Decryption failed: the channel closes its connection and stops. */
    method Abandon()
      requires Valid()
      requires role.Dialing? && phase == AwaitingChallenge
      modifies this
      ensures Valid()
      ensures phase == Finished && socket == old(socket)
      ensures events == old(events) + [ClosedSocket(old(socket).value)]
      ensures ended == old(ended) + {old(socket).value}
      ensures onMessage == old(onMessage) && onConnected == old(onConnected)
    {
      CountsAppend(events, ClosedSocket(socket.value));
      events, phase, ended := events + [ClosedSocket(socket.value)], Finished, ended + {socket.value};
    }

    /** Decryption gave `secret`: it is sent back, then the connected handler runs, and the channel is open. */
    method Authenticate(secret: Bytes)
      requires Valid()
      requires role.Dialing? && phase == AwaitingChallenge && socket.value !in ended
      modifies this
      ensures Valid()
      ensures phase == Open && socket == old(socket)
      ensures events == old(events) + [SentSecret(old(socket).value, secret)] + Announce(old(onConnected), old(socket).value, old(socket))
      ensures onMessage == old(onMessage) && onConnected == old(onConnected) && ended == old(ended)
    {
      var s := socket.value;
      AuthenticateKeepsDialing(events, handshake, onConnected, s, secret);
      handshakeDone, handshake, events, phase := true, events + [SentSecret(s, secret)], events + [SentSecret(s, secret)] + Announce(onConnected, s, socket), Open;
    }

    /** A message arrives on the open connection of a dialing channel and goes to the message handler, if any. */
    method ReceiveDialing(data: Description)
      requires Valid()
      requires role.Dialing? && phase == Open
      modifies this
      ensures Valid()
      ensures events == old(events) + Dispatch(old(onMessage), data)
      ensures socket == old(socket) && onMessage == old(onMessage) && onConnected == old(onConnected) && phase == old(phase)
      ensures ended == old(ended)
    {
      DispatchKeepsHolds(events, onMessage, data, accepted, role.authenticates, socket, handshake);
      events := events + Dispatch(onMessage, data);
    }

    /**
      The dialed connection ends (the peer closed it, or it broke): the
      channel is done, and the ended connection stays the current one.
    */
    method Hangup()
      requires Valid()
      requires role.Dialing? && phase != Idle
      modifies this
      ensures Valid()
      ensures phase == Finished
      ensures events == old(events) && socket == old(socket)
      ensures ended == old(ended) + {old(socket).value}
      ensures onMessage == old(onMessage) && onConnected == old(onConnected)
    {
      phase, ended := Finished, ended + {socket.value};
    }
  }
}
