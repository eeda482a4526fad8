/**
  What the two relay variants share: the frames a relay sends, the per-connection
  outboxes they are appended to, the fan-out of one frame to many receivers, the
  replay of the buffer to a joiner, and the invariant that ties every admitted
  client's outbox to the replay buffer.
*/
module Relay {
  import opened Challenge

  /** Identity of one websocket connection accepted by the relay. */
  type ConnId = nat

  /** What the relay sends on a connection: the sealed challenge, or a relayed message as received. */
  datatype Frame = ChallengeFrame(sealed: Ciphertext) | Relayed(message: Payload)

  /** Every frame sent so far on each connection the relay knows, in sending order. */
  type Outbox = map<ConnId, seq<Frame>>

  /** One buffered message together with the connection that sent it. */
  datatype Entry = Entry(sender: ConnId, message: Payload)

  /** The messages of a log, in order. */
  function MessagesOf(log: seq<Entry>): (ms: seq<Payload>)
    ensures |ms| == |log|
  {
    if log == [] then [] else MessagesOf(log[..|log| - 1]) + [log[|log| - 1].message]
  }

  /** The frames that relay a sequence of messages, one frame per message, in order. */
  function Relays(ms: seq<Payload>): (fs: seq<Frame>)
    ensures |fs| == |ms|
  {
    if ms == [] then [] else Relays(ms[..|ms| - 1]) + [Relayed(ms[|ms| - 1])]
  }

  /** The frames connection `c` is owed for a log: every message sent by someone else, in order. */
  function DeliveriesOf(log: seq<Entry>, c: ConnId): (fs: seq<Frame>)
    ensures |fs| <= |log|
  {
    if log == [] then []
    else
      var last := log[|log| - 1];
      var earlier := DeliveriesOf(log[..|log| - 1], c);
      if last.sender == c then earlier else earlier + [Relayed(last.message)]
  }

  /** The `i`-th buffered message is the message of the `i`-th log entry. */
  lemma {:induction false} MessagesOfAt(log: seq<Entry>, i: nat)
    requires i < |log|
    ensures MessagesOf(log)[i] == log[i].message
  {
    if i < |log| - 1 {
      MessagesOfAt(log[..|log| - 1], i);
    }
  }

  /** The `i`-th frame of a replay relays the `i`-th message. */
  lemma {:induction false} RelaysAt(ms: seq<Payload>, i: nat)
    requires i < |ms|
    ensures Relays(ms)[i] == Relayed(ms[i])
  {
    if i < |ms| - 1 {
      RelaysAt(ms[..|ms| - 1], i);
    }
  }

  /** The connections that sent some message of the log. */
  function Senders(log: seq<Entry>): (senders: set<ConnId>)
    ensures log != [] ==> log[|log| - 1].sender in senders
  {
    if log == [] then {} else Senders(log[..|log| - 1]) + {log[|log| - 1].sender}
  }

  predicate IsSuffix(s: seq<Frame>, t: seq<Frame>) {
    |s| <= |t| && t[|t| - |s|..] == s
  }

  /**
    The replay invariant: every buffered message was sent by a client still
    admitted, and every admitted client's latest frames are exactly the buffered
    messages of the other senders, in buffer order.
  */
  ghost predicate ReplayConsistent(clients: set<ConnId>, log: seq<Entry>, outbox: Outbox) {
    && clients <= outbox.Keys
    && Senders(log) <= clients
    && (forall c {:trigger DeliveriesOf(log, c)} :: c in clients ==> IsSuffix(DeliveriesOf(log, c), outbox[c]))
  }

  /** The outboxes after frame `f` is sent to every connection in `receivers` and to no other. */
  function Broadcast(outbox: Outbox, receivers: set<ConnId>, f: Frame): Outbox
    requires receivers <= outbox.Keys
  {
    map d | d in outbox :: if d in receivers then outbox[d] + [f] else outbox[d]
  }

  /** Broadcasting gives each receiver exactly one more frame and leaves every other outbox alone. */
  lemma BroadcastAt(outbox: Outbox, receivers: set<ConnId>, f: Frame, d: ConnId)
    requires receivers <= outbox.Keys
    requires d in outbox
    ensures d in Broadcast(outbox, receivers, f)
    ensures Broadcast(outbox, receivers, f)[d] == if d in receivers then outbox[d] + [f] else outbox[d]
  {
  }

  /** Broadcasting to nobody changes nothing. */
  lemma BroadcastToNobody(outbox: Outbox, f: Frame)
    ensures Broadcast(outbox, {}, f) == outbox
  {
  }

  /** Broadcasting to one more receiver is one more single-connection send. */
  lemma BroadcastStep(outbox: Outbox, done: set<ConnId>, r: ConnId, f: Frame)
    requires done <= outbox.Keys && r in outbox && r !in done
    ensures Broadcast(outbox, done + {r}, f) == Broadcast(outbox, done, f)[r := Broadcast(outbox, done, f)[r] + [f]]
  {
  }

  /**
    Sends `f` to every connection in `receivers` (the `asyncio.wait` fan-out),
    one receiver at a time.
  */
  method Fanout(outbox: Outbox, receivers: set<ConnId>, f: Frame) returns (result: Outbox)
    requires receivers <= outbox.Keys
    ensures result == Broadcast(outbox, receivers, f)
  {
    result := outbox;
    BroadcastToNobody(outbox, f);
    var pending := receivers;
    while pending != {}
      invariant pending <= receivers
      invariant result == Broadcast(outbox, receivers - pending, f)
      decreases pending
    {
      var r :| r in pending;
      BroadcastStep(outbox, receivers - pending, r, f);
      assert receivers - pending + {r} == receivers - (pending - {r});
      result := result[r := result[r] + [f]];
      pending := pending - {r};
    }
  }

  /**
    Forwards `f` from `sender` to every other client; with no other client
    there is no fan-out at all.
  */
  method Forward(outbox: Outbox, clients: set<ConnId>, sender: ConnId, f: Frame) returns (result: Outbox)
    requires clients <= outbox.Keys
    ensures result == Broadcast(outbox, clients - {sender}, f)
  {
    var receivers := clients - {sender};
    if receivers != {} {
      result := Fanout(outbox, receivers, f);
    } else {
      BroadcastToNobody(outbox, f);
      result := outbox;
    }
  }

  /**
    Sends every message of `messages` to `c`, in order (the replay to a joiner);
    no other outbox changes.
  */
  method ReplayTo(outbox: Outbox, c: ConnId, messages: seq<Payload>) returns (result: Outbox)
    requires c in outbox
    ensures result == outbox[c := outbox[c] + Relays(messages)]
  {
    result := outbox;
    assert messages[..0] == [] && outbox[c] + [] == outbox[c];
    assert outbox[c := outbox[c]] == outbox;
    for i := 0 to |messages|
      invariant result == outbox[c := outbox[c] + Relays(messages[..i])]
    {
      assert messages[..i + 1][..i] == messages[..i];
      assert Relays(messages[..i + 1]) == Relays(messages[..i]) + [Relayed(messages[i])];
      ghost var sent := outbox[c] + Relays(messages[..i]);
      assert sent + [Relayed(messages[i])] == outbox[c] + Relays(messages[..i + 1]);
      assert result[c := sent + [Relayed(messages[i])]] == outbox[c := sent + [Relayed(messages[i])]];
      result := result[c := result[c] + [Relayed(messages[i])]];
    }
    assert messages[..|messages|] == messages;
  }

  /** The joiner `c` is sent the buffer `messages` when it is non-empty; with an empty buffer nothing is sent. */
  method Welcome(outbox: Outbox, c: ConnId, messages: seq<Payload>) returns (result: Outbox)
    requires c in outbox
    ensures result == outbox[c := outbox[c] + Relays(messages)]
  {
    if messages != [] {
      result := ReplayTo(outbox, c, messages);
    } else {
      assert outbox[c] + Relays(messages) == outbox[c];
      result := outbox;
    }
  }

  lemma MessagesOfAppend(log: seq<Entry>, e: Entry)
    ensures MessagesOf(log + [e]) == MessagesOf(log) + [e.message]
  {
    assert (log + [e])[..|log|] == log;
  }

  lemma SendersAppend(log: seq<Entry>, e: Entry)
    ensures Senders(log + [e]) == Senders(log) + {e.sender}
  {
    assert (log + [e])[..|log|] == log;
  }

  lemma DeliveriesOfAppend(log: seq<Entry>, e: Entry, c: ConnId)
    ensures DeliveriesOf(log + [e], c) == if e.sender == c then DeliveriesOf(log, c) else DeliveriesOf(log, c) + [Relayed(e.message)]
  {
    assert (log + [e])[..|log|] == log;
  }

  /** A connection that sent nothing in the log is owed every message of the log. */
  lemma {:induction false} DeliveriesOfNonSender(log: seq<Entry>, c: ConnId)
    requires c !in Senders(log)
    ensures DeliveriesOf(log, c) == Relays(MessagesOf(log))
  {
    if log != [] {
      var init := log[..|log| - 1];
      DeliveriesOfNonSender(init, c);
      assert log == init + [log[|log| - 1]];
      MessagesOfAppend(init, log[|log| - 1]);
      var ms := MessagesOf(init);
      assert MessagesOf(log)[..|ms|] == ms;
    }
  }

  lemma SuffixExtend(s: seq<Frame>, t: seq<Frame>, x: Frame)
    requires IsSuffix(s, t)
    ensures IsSuffix(s + [x], t + [x])
  {
    assert (t + [x])[|t + [x]| - |s + [x]|..] == t[|t| - |s|..] + [x];
  }

  /** What one client is owed after a broadcast: one more frame, unless it is the sender. */
  lemma BroadcastKeepsOwed(log: seq<Entry>, before: seq<Frame>, after: seq<Frame>, sender: ConnId, m: Payload, c: ConnId)
    requires IsSuffix(DeliveriesOf(log, c), before)
    requires after == if c == sender then before else before + [Relayed(m)]
    ensures IsSuffix(DeliveriesOf(log + [Entry(sender, m)], c), after)
  {
    DeliveriesOfAppend(log, Entry(sender, m), c);
    if c != sender {
      SuffixExtend(DeliveriesOf(log, c), before, Relayed(m));
    }
  }

  /** Broadcasting a message from an admitted sender to all other clients keeps the replay invariant. */
  lemma BroadcastKeepsReplay(clients: set<ConnId>, log: seq<Entry>, outbox: Outbox, sender: ConnId, m: Payload)
    requires ReplayConsistent(clients, log, outbox)
    requires sender in clients
    ensures ReplayConsistent(clients, log + [Entry(sender, m)], Broadcast(outbox, clients - {sender}, Relayed(m)))
  {
    var result := Broadcast(outbox, clients - {sender}, Relayed(m));
    SendersAppend(log, Entry(sender, m));
    forall c | c in clients
      ensures c in result && IsSuffix(DeliveriesOf(log + [Entry(sender, m)], c), result[c])
    {
      BroadcastAt(outbox, clients - {sender}, Relayed(m), c);
      BroadcastKeepsOwed(log, outbox[c], result[c], sender, m, c);
    }
  }

  /** Admitting a new client and replaying the whole buffer to it keeps the replay invariant. */
  lemma JoinKeepsReplay(clients: set<ConnId>, log: seq<Entry>, outbox: Outbox, joiner: ConnId)
    requires ReplayConsistent(clients, log, outbox)
    requires joiner !in clients && joiner in outbox
    ensures ReplayConsistent(clients + {joiner}, log, outbox[joiner := outbox[joiner] + Relays(MessagesOf(log))])
  {
    DeliveriesOfNonSender(log, joiner);
    var owed := DeliveriesOf(log, joiner);
    var s := outbox[joiner] + Relays(MessagesOf(log));
    assert s[|s| - |owed|..] == owed;
  }

  /** Any change to the outbox of a connection outside the client set keeps the replay invariant. */
  lemma OutsiderKeepsReplay(clients: set<ConnId>, log: seq<Entry>, outbox: Outbox, outsider: ConnId, frames: seq<Frame>)
    requires ReplayConsistent(clients, log, outbox)
    requires outsider !in clients
    ensures ReplayConsistent(clients, log, outbox[outsider := frames])
  {
  }

  /** Dropping a client together with the whole buffer keeps the replay invariant: nothing is owed any more. */
  lemma DropKeepsReplay(clients: set<ConnId>, log: seq<Entry>, outbox: Outbox, c: ConnId)
    requires ReplayConsistent(clients, log, outbox)
    ensures ReplayConsistent(clients - {c}, [], outbox)
  {
    forall d | d in clients - {c}
      ensures IsSuffix(DeliveriesOf([], d), outbox[d])
    {
      assert outbox[d][|outbox[d]|..] == [];
    }
  }

  /** A connection the relay has never sent anything to may join with exactly the buffer as its frames. */
  lemma JoinFreshKeepsReplay(clients: set<ConnId>, log: seq<Entry>, outbox: Outbox, joiner: ConnId)
    requires ReplayConsistent(clients, log, outbox)
    requires joiner !in outbox
    ensures ReplayConsistent(clients + {joiner}, log, outbox[joiner := Relays(MessagesOf(log))])
  {
    DeliveriesOfNonSender(log, joiner);
    var s := Relays(MessagesOf(log));
    assert s[|s| - |s|..] == s;
  }
}
