/**
  The open relay: every connection joins the broadcast set at once, with no
  handshake. Each step of the per-connection websocket handler runs as one
  atomic event.
*/
module OpenRelay {
  import opened Challenge
  import opened Relay

  /** The replay buffer and what every client has been sent agree. */
  ghost predicate ReplayHolds(prevMessages: seq<Payload>, log: seq<Entry>, clients: set<ConnId>, outbox: Outbox)
  {
    prevMessages == MessagesOf(log) && ReplayConsistent(clients, log, outbox)
  }

  /** Buffering a message and sending it to every other client keeps the replay invariant. */
  lemma MessageKeepsReplay(prevMessages: seq<Payload>, log: seq<Entry>, clients: set<ConnId>, outbox: Outbox, c: ConnId, m: Payload)
    requires ReplayHolds(prevMessages, log, clients, outbox)
    requires c in clients
    ensures ReplayHolds(prevMessages + [m], log + [Entry(c, m)], clients, Broadcast(outbox, clients - {c}, Relayed(m)))
  {
    MessagesOfAppend(log, Entry(c, m));
    BroadcastKeepsReplay(clients, log, outbox, c, m);
  }

  class SignalingServer {
    /** The connected clients (`clients`). */
    var clients: set<ConnId>
    /** The replay buffer (`prev_messages`). */
    var prevMessages: seq<Payload>
    /** Every frame the relay has sent, for every connection it has accepted. */
    var outbox: Outbox
    /** Connections the relay has closed itself (at shutdown). */
    var closed: set<ConnId>

    /** The replay buffer with the sender of each message. */
    ghost var log: seq<Entry>

    ghost predicate Valid()
      reads this
    {
      ReplayHolds(prevMessages, log, clients, outbox)
    }

    constructor ()
      ensures Valid()
      ensures clients == {} && prevMessages == [] && outbox == map[] && closed == {}
    {
      clients, prevMessages, outbox, closed := {}, [], map[], {};
      log := [];
    }

    /** A new connection `c` joins at once and is sent every buffered message, in order. */
    method Connect(c: ConnId)
      requires Valid()
      requires c !in outbox
      modifies this
      ensures Valid()
      ensures clients == old(clients) + {c}
      ensures outbox == old(outbox)[c := Relays(old(prevMessages))]
      ensures prevMessages == old(prevMessages) && closed == old(closed)
    {
      var next := Welcome(outbox[c := []], c, prevMessages);
      assert outbox[c := []][c] + Relays(prevMessages) == Relays(prevMessages);
      JoinFreshKeepsReplay(clients, log, outbox, c);
      clients, outbox := clients + {c}, next;
    }

    /**
      The client `c` sends `m`: it is buffered first, then sent to every other
      client; the sender never gets its own message.
    */
    method Message(c: ConnId, m: Payload)
      requires Valid()
      requires c in clients
      modifies this
      ensures Valid()
      ensures prevMessages == old(prevMessages) + [m]
      ensures outbox == Broadcast(old(outbox), old(clients) - {c}, Relayed(m))
      ensures clients == old(clients) && closed == old(closed)
    {
      var next := Forward(outbox, clients, c, Relayed(m));
      MessageKeepsReplay(prevMessages, log, clients, outbox, c, m);
      prevMessages, log, outbox := prevMessages + [m], log + [Entry(c, m)], next;
    }

    /** The client `c` disconnects: it leaves the set and the whole buffer is dropped. */
    method Leave(c: ConnId)
      requires Valid()
      requires c in clients
      modifies this
      ensures Valid()
      ensures clients == old(clients) - {c}
      ensures prevMessages == []
      ensures outbox == old(outbox) && closed == old(closed)
    {
      DropKeepsReplay(clients, log, outbox, c);
      clients, prevMessages, log := clients - {c}, [], [];
    }

    /** Shutdown: every client is closed; with no clients nothing happens. */
    method Close()
      requires Valid()
      modifies this
      ensures Valid()
      ensures closed == old(closed) + old(clients)
      ensures clients == old(clients) && prevMessages == old(prevMessages) && outbox == old(outbox)
    {
      if clients != {} {
        closed := closed + clients;
      }
    }
  }
}
