/**
  The authenticating relay: every new connection must echo a fresh secret,
  sealed with the configured public key, before it joins the broadcast set.
  Each step of the per-connection websocket handler runs as one atomic event.
*/
module AuthRelay {
  import opened Wrappers
  import opened Challenge
  import opened Relay

  /** The handshake bookkeeping: one secret per attempt, and only a correct echo is admitted. */
  ghost predicate GateHolds(issued: map<ConnId, Secret>, drawnFor: map<Secret, ConnId>, pending: map<ConnId, Secret>,
                            clients: set<ConnId>, answers: map<ConnId, Payload>)
  {
    && (forall c :: c in issued ==> issued[c] in drawnFor && drawnFor[issued[c]] == c)
    && (forall c :: c in pending ==> c in issued && pending[c] == issued[c])
    && clients <= issued.Keys
    && clients !! pending.Keys
    && (forall c :: c in clients ==> c in answers && answers[c] == Binary(issued[c]))
  }

  /** The replay buffer and what every admitted client has been sent agree. */
  ghost predicate ReplayHolds(issued: map<ConnId, Secret>, prevMessages: seq<Payload>, log: seq<Entry>,
                              clients: set<ConnId>, outbox: Outbox)
  {
    && outbox.Keys == issued.Keys
    && prevMessages == MessagesOf(log)
    && ReplayConsistent(clients, log, outbox)
  }

  /** Drawing a fresh secret for a new connection keeps the gate, whether or not the challenge goes out. */
  lemma IssueKeepsGate(issued: map<ConnId, Secret>, drawnFor: map<Secret, ConnId>, pending: map<ConnId, Secret>,
                       clients: set<ConnId>, answers: map<ConnId, Payload>, c: ConnId, secret: Secret, challenged: bool)
    requires GateHolds(issued, drawnFor, pending, clients, answers)
    requires c !in issued && secret !in drawnFor
    ensures GateHolds(issued[c := secret], drawnFor[secret := c], if challenged then pending[c := secret] else pending, clients, answers)
  {
  }

  /** Whatever is sent to a connection that is not admitted keeps the replay invariant. */
  lemma IssueKeepsReplay(issued: map<ConnId, Secret>, prevMessages: seq<Payload>, log: seq<Entry>,
                         clients: set<ConnId>, outbox: Outbox, c: ConnId, secret: Secret, frames: seq<Frame>)
    requires ReplayHolds(issued, prevMessages, log, clients, outbox)
    requires c !in clients
    ensures ReplayHolds(issued[c := secret], prevMessages, log, clients, outbox[c := frames])
  {
    OutsiderKeepsReplay(clients, log, outbox, c, frames);
  }

  /** Admitting a connection that echoed its own secret keeps the gate. */
  lemma AdmitKeepsGate(issued: map<ConnId, Secret>, drawnFor: map<Secret, ConnId>, pending: map<ConnId, Secret>,
                       clients: set<ConnId>, answers: map<ConnId, Payload>, c: ConnId, answer: Payload)
    requires GateHolds(issued, drawnFor, pending, clients, answers)
    requires c in pending && answer == Binary(pending[c])
    ensures GateHolds(issued, drawnFor, pending - {c}, clients + {c}, answers[c := answer])
  {
  }

  /** Ending a handshake without admission keeps the gate, whatever was answered. */
  lemma RetireKeepsGate(issued: map<ConnId, Secret>, drawnFor: map<Secret, ConnId>, pending: map<ConnId, Secret>,
                        clients: set<ConnId>, answers: map<ConnId, Payload>, c: ConnId, answer: Payload)
    requires GateHolds(issued, drawnFor, pending, clients, answers)
    requires c in pending
    ensures GateHolds(issued, drawnFor, pending - {c}, clients, answers[c := answer])
    ensures GateHolds(issued, drawnFor, pending - {c}, clients, answers)
  {
  }

  /** A joiner that is sent the whole buffer keeps the replay invariant. */
  lemma AdmitKeepsReplay(issued: map<ConnId, Secret>, prevMessages: seq<Payload>, log: seq<Entry>,
                         clients: set<ConnId>, outbox: Outbox, c: ConnId)
    requires ReplayHolds(issued, prevMessages, log, clients, outbox)
    requires c in issued && c !in clients
    ensures ReplayHolds(issued, prevMessages, log, clients + {c}, outbox[c := outbox[c] + Relays(prevMessages)])
  {
    JoinKeepsReplay(clients, log, outbox, c);
  }

  /** Buffering a message and sending it to every other client keeps the replay invariant. */
  lemma MessageKeepsReplay(issued: map<ConnId, Secret>, prevMessages: seq<Payload>, log: seq<Entry>,
                           clients: set<ConnId>, outbox: Outbox, c: ConnId, m: Payload)
    requires ReplayHolds(issued, prevMessages, log, clients, outbox)
    requires c in clients
    ensures ReplayHolds(issued, prevMessages + [m], log + [Entry(c, m)], clients,
                        Broadcast(outbox, clients - {c}, Relayed(m)))
  {
    MessagesOfAppend(log, Entry(c, m));
    BroadcastKeepsReplay(clients, log, outbox, c, m);
  }

  /** Dropping a client together with the whole buffer keeps the replay invariant. */
  lemma LeaveKeepsReplay(issued: map<ConnId, Secret>, prevMessages: seq<Payload>, log: seq<Entry>,
                         clients: set<ConnId>, outbox: Outbox, c: ConnId)
    requires ReplayHolds(issued, prevMessages, log, clients, outbox)
    ensures ReplayHolds(issued, [], [], clients - {c}, outbox)
  {
    DropKeepsReplay(clients, log, outbox, c);
  }

  class SignalingServer {
    /** The admitted connections (`clients`). */
    var clients: set<ConnId>
    /** The replay buffer (`prev_messages`). */
    var prevMessages: seq<Payload>
    /** Every frame the relay has sent, for every connection it has accepted. */
    var outbox: Outbox
    /** Connections the relay has closed itself: failed handshakes and shutdown. */
    var closed: set<ConnId>
    /** Handshakes in progress: the secret each connection must echo. */
    var pending: map<ConnId, Secret>

    /** The replay buffer with the sender of each message. */
    ghost var log: seq<Entry>
    /** The secret drawn for every connection attempt so far. */
    ghost var issued: map<ConnId, Secret>
    /** Which connection each issued secret was drawn for (the inverse of `issued`). */
    ghost var drawnFor: map<Secret, ConnId>
    /** The reply each finished handshake returned. */
    ghost var answers: map<ConnId, Payload>

    ghost predicate Valid()
      reads this
    {
      && GateHolds(issued, drawnFor, pending, clients, answers)
      && ReplayHolds(issued, prevMessages, log, clients, outbox)
    }

    constructor ()
      ensures Valid()
      ensures clients == {} && prevMessages == [] && outbox == map[] && closed == {} && pending == map[]
      ensures issued == map[] && drawnFor == map[]
    {
      clients, prevMessages, outbox, closed, pending := {}, [], map[], {}, map[];
      log, issued, drawnFor, answers := [], map[], map[], map[];
    }

    /**
      A new connection arrives: the relay draws `secret` (fresh: no earlier
      attempt drew it), seals it with `key` (the public key file as read now)
      and sends the ciphertext. If sealing fails the handler dies and the
      transport closes the connection. Nobody is admitted here.
    */
    method Connect(c: ConnId, secret: Secret, key: PublicKey)
      requires Valid()
      requires c !in issued
      requires secret !in drawnFor
      modifies this
      ensures Valid()
      ensures issued == old(issued)[c := secret]
      ensures clients == old(clients) && prevMessages == old(prevMessages)
      ensures match Encrypt(key, secret)
        case Some(sealed) =>
          && outbox == old(outbox)[c := [ChallengeFrame(sealed)]]
          && pending == old(pending)[c := secret]
          && closed == old(closed)
        case None =>
          && outbox == old(outbox)[c := []]
          && pending == old(pending)
          && closed == old(closed) + {c}
    {
      match Encrypt(key, secret)
      case Some(sealed) => SendChallenge(c, secret, sealed);
      case None => Abort(c, secret);
    }

    /** The sealed secret goes out as the first frame, and the handshake of `c` is pending. */
    method SendChallenge(c: ConnId, secret: Secret, sealed: Ciphertext)
      requires Valid()
      requires c !in issued && secret !in drawnFor
      modifies this
      ensures Valid()
      ensures issued == old(issued)[c := secret]
      ensures outbox == old(outbox)[c := [ChallengeFrame(sealed)]] && pending == old(pending)[c := secret]
      ensures clients == old(clients) && prevMessages == old(prevMessages) && closed == old(closed)
    {
      IssueKeepsGate(issued, drawnFor, pending, clients, answers, c, secret, true);
      IssueKeepsReplay(issued, prevMessages, log, clients, outbox, c, secret, [ChallengeFrame(sealed)]);
      issued, drawnFor, outbox, pending := issued[c := secret], drawnFor[secret := c], outbox[c := [ChallengeFrame(sealed)]], pending[c := secret];
    }

    /** Sealing failed: the handler dies before sending anything and the connection `c` is closed. */
    method Abort(c: ConnId, secret: Secret)
      requires Valid()
      requires c !in issued && secret !in drawnFor
      modifies this
      ensures Valid()
      ensures issued == old(issued)[c := secret]
      ensures outbox == old(outbox)[c := []] && closed == old(closed) + {c}
      ensures clients == old(clients) && prevMessages == old(prevMessages) && pending == old(pending)
    {
      IssueKeepsGate(issued, drawnFor, pending, clients, answers, c, secret, false);
      IssueKeepsReplay(issued, prevMessages, log, clients, outbox, c, secret, []);
      issued, drawnFor, outbox, closed := issued[c := secret], drawnFor[secret := c], outbox[c := []], closed + {c};
    }

    /** No two connection attempts were ever given the same secret. */
    lemma NoSharedSecret(a: ConnId, b: ConnId)
      requires Valid()
      requires a in issued && b in issued && a != b
      ensures issued[a] != issued[b]
    {
    }

    /**
      The handshake of `c` ends with `reply` (None: the peer disconnected first).
      Only the exact secret admits, and the joiner then gets the whole buffer,
      in order. A wrong reply closes the connection; a vanished peer just goes.
    */
    method Reply(c: ConnId, reply: Option<Payload>)
      requires Valid()
      requires c in pending
      modifies this
      ensures Valid()
      ensures pending == old(pending) - {c}
      ensures prevMessages == old(prevMessages) && issued == old(issued)
      ensures c in clients <==> reply == Some(Binary(old(pending)[c]))
      ensures match Check(old(pending)[c], reply)
        case Admitted =>
          && clients == old(clients) + {c}
          && outbox == old(outbox)[c := old(outbox)[c] + Relays(old(prevMessages))]
          && closed == old(closed)
        case Rejected =>
          clients == old(clients) && outbox == old(outbox) && closed == old(closed) + {c}
        case PeerGone =>
          clients == old(clients) && outbox == old(outbox) && closed == old(closed)
    {
      match Check(pending[c], reply)
      case Admitted => Admit(c, reply.value);
      case Rejected => Refuse(c, reply.value);
      case PeerGone => Forget(c);
    }

    /** The echo `answer` was the secret of `c`: `c` joins and is sent every buffered message, in order. */
    method Admit(c: ConnId, answer: Payload)
      requires Valid()
      requires c in pending && answer == Binary(pending[c])
      modifies this
      ensures Valid()
      ensures pending == old(pending) - {c} && clients == old(clients) + {c}
      ensures outbox == old(outbox)[c := old(outbox)[c] + Relays(old(prevMessages))]
      ensures prevMessages == old(prevMessages) && issued == old(issued) && closed == old(closed)
    {
      var next := Welcome(outbox, c, prevMessages);
      AdmitKeepsGate(issued, drawnFor, pending, clients, answers, c, answer);
      AdmitKeepsReplay(issued, prevMessages, log, clients, outbox, c);
      clients, outbox, answers, pending := clients + {c}, next, answers[c := answer], pending - {c};
    }

    /** The echo was wrong: the relay closes `c` without admitting it. */
    method Refuse(c: ConnId, answer: Payload)
      requires Valid()
      requires c in pending
      modifies this
      ensures Valid()
      ensures pending == old(pending) - {c} && closed == old(closed) + {c}
      ensures clients == old(clients) && outbox == old(outbox)
      ensures prevMessages == old(prevMessages) && issued == old(issued)
    {
      RetireKeepsGate(issued, drawnFor, pending, clients, answers, c, answer);
      closed, answers, pending := closed + {c}, answers[c := answer], pending - {c};
    }

    /** The peer went away before answering: its handshake is simply dropped. */
    method Forget(c: ConnId)
      requires Valid()
      requires c in pending
      modifies this
      ensures Valid()
      ensures pending == old(pending) - {c}
      ensures clients == old(clients) && outbox == old(outbox) && closed == old(closed)
      ensures prevMessages == old(prevMessages) && issued == old(issued)
    {
      RetireKeepsGate(issued, drawnFor, pending, clients, answers, c, Binary(pending[c]));
      pending := pending - {c};
    }

    /**
      The admitted connection `c` sends `m`: it is buffered first, then sent to
      every other admitted client; the sender never gets its own message.
    */
    method Message(c: ConnId, m: Payload)
      requires Valid()
      requires c in clients
      modifies this
      ensures Valid()
      ensures prevMessages == old(prevMessages) + [m]
      ensures outbox == Broadcast(old(outbox), old(clients) - {c}, Relayed(m))
      ensures clients == old(clients) && pending == old(pending) && closed == old(closed) && issued == old(issued)
    {
      var next := Forward(outbox, clients, c, Relayed(m));
      MessageKeepsReplay(issued, prevMessages, log, clients, outbox, c, m);
      prevMessages, log, outbox := prevMessages + [m], log + [Entry(c, m)], next;
    }

    /** The admitted connection `c` ends: it leaves the set and the whole buffer is dropped. */
    method Leave(c: ConnId)
      requires Valid()
      requires c in clients
      modifies this
      ensures Valid()
      ensures clients == old(clients) - {c}
      ensures prevMessages == []
      ensures outbox == old(outbox) && pending == old(pending) && closed == old(closed) && issued == old(issued)
    {
      LeaveKeepsReplay(issued, prevMessages, log, clients, outbox, c);
      clients := clients - {c};
      prevMessages := [];
      log := [];
    }

    /** Shutdown: every admitted connection is closed; with no clients nothing happens. */
    method Close()
      requires Valid()
      modifies this
      ensures Valid()
      ensures closed == old(closed) + old(clients)
      ensures clients == old(clients) && prevMessages == old(prevMessages) && outbox == old(outbox)
      ensures pending == old(pending) && issued == old(issued)
    {
      if clients != {} {
        closed := closed + clients;
      }
    }
  }
}
