/**
 The server side of one connection: a single preallocated reply buffer, a pool
 of preallocated notification buffers, and the queue the client reads from.

 The code links buffers into the queue; `Contents` is the queue of packets a
 reader of the interface would expect. The lemmas say when the former is a
 faithful stand-in for the latter.
 */
module ServerSections {
  import opened Basics

  /** A linked buffer. The ticket names the request a reply answers. */
  datatype Item = ReplyItem(ticket: nat) | NotifyItem(buffer: nat)

  datatype Packet = ReplyPacket(ticket: nat, payload: Bytes) | NotifyPacket(payload: Bytes)

  datatype Server = Server(
    notifyPool: seq<nat>,
    sendQueue: seq<Item>,
    replyBuffer: Bytes,
    notifyStorage: map<nat, Bytes>,
    replyLinkedTwice: bool)        // reply_message_ was linked while already linked

  datatype ServerError = EMSGSIZE | ENOBUFS

  function InitialServer(capacity: nat): Server {
    Server(Indices(capacity), [], [], map[], false)
  }

  function Replies(q: seq<Item>): seq<nat> {
    if q == [] then []
    else if q[0].ReplyItem? then [q[0].ticket] + Replies(q[1..])
    else Replies(q[1..])
  }

  function NotifyBuffers(q: seq<Item>): seq<nat> {
    if q == [] then []
    else if q[0].NotifyItem? then [q[0].buffer] + NotifyBuffers(q[1..])
    else NotifyBuffers(q[1..])
  }

  function Load(s: Server, item: Item): Packet {
    match item
    case ReplyItem(ticket) => ReplyPacket(ticket, s.replyBuffer)
    case NotifyItem(buffer) =>
      NotifyPacket(if buffer in s.notifyStorage then s.notifyStorage[buffer] else [])
  }

  /** The packets waiting to be read, oldest first. */
  function Contents(s: Server): seq<Packet> {
    seq(|s.sendQueue|, i requires 0 <= i < |s.sendQueue| => Load(s, s.sendQueue[i]))
  }

  function ReplySection(s: Server, ticket: nat, payload: Bytes): Server {
    s.(replyBuffer := payload,
    sendQueue := s.sendQueue + [ReplyItem(ticket)],
    replyLinkedTwice := s.replyLinkedTwice || Replies(s.sendQueue) != [])
  }

  function NotifySection(s: Server, payload: Bytes): Server
    requires s.notifyPool != []
  {
    s.(notifyPool := s.notifyPool[1..],
    notifyStorage := s.notifyStorage[s.notifyPool[0] := payload],
    sendQueue := s.sendQueue + [NotifyItem(s.notifyPool[0])])
  }

  function ReadSection(s: Server): (Server, Packet)
    requires s.sendQueue != []
  {
    var item := s.sendQueue[0];
    var popped := s.(sendQueue := s.sendQueue[1..]);
    (if item.NotifyItem? then popped.(notifyPool := [item.buffer] + s.notifyPool) else popped,
     Load(s, item))
  }

  /** Every notification buffer is in exactly one of the pool and the queue. */
  ghost predicate BuffersAccounted(capacity: nat, s: Server) {
    multiset(s.notifyPool) + multiset(NotifyBuffers(s.sendQueue)) == multiset(Indices(capacity))
  }

  lemma RepliesAppend(q: seq<Item>, item: Item)
    ensures Replies(q + [item]) == Replies(q) + (if item.ReplyItem? then [item.ticket] else [])
  {
    if q == [] {
      assert (q + [item])[1..] == [];
    } else {
      assert (q + [item])[1..] == q[1..] + [item];
      RepliesAppend(q[1..], item);
    }
  }

  lemma NotifyBuffersAppend(q: seq<Item>, item: Item)
    ensures NotifyBuffers(q + [item]) == NotifyBuffers(q) + (if item.NotifyItem? then [item.buffer] else [])
  {
    if q == [] {
      assert (q + [item])[1..] == [];
    } else {
      assert (q + [item])[1..] == q[1..] + [item];
      NotifyBuffersAppend(q[1..], item);
    }
  }

  lemma LinkedNotify(q: seq<Item>, i: nat)
    requires i < |q| && q[i].NotifyItem?
    ensures q[i].buffer in NotifyBuffers(q)
  {
    if i > 0 {
      LinkedNotify(q[1..], i - 1);
    }
  }

  lemma LinkedReply(q: seq<Item>, i: nat)
    requires i < |q| && q[i].ReplyItem?
    ensures q[i].ticket in Replies(q)
  {
    if i > 0 {
      LinkedReply(q[1..], i - 1);
    }
  }

  /** Replying leaves a plain FIFO with the reply appended whenever no reply is queued. */
  lemma ReplyAppends(s: Server, ticket: nat, payload: Bytes)
    requires Replies(s.sendQueue) == []
    ensures Contents(ReplySection(s, ticket, payload)) == Contents(s) + [ReplyPacket(ticket, payload)]
  {
    var s' := ReplySection(s, ticket, payload);
    forall i | 0 <= i < |s.sendQueue|
      ensures Load(s', s.sendQueue[i]) == Load(s, s.sendQueue[i])
    {
      if s.sendQueue[i].ReplyItem? {
        LinkedReply(s.sendQueue, i);
      }
    }
  }

  /**
   A reply that is already queued is overwritten by the next one, so the reply
   section appends to the FIFO exactly when every queued reply is equal to it.
   */
  lemma ReplyAppendsIff(s: Server, ticket: nat, payload: Bytes)
    ensures Contents(ReplySection(s, ticket, payload)) == Contents(s) + [ReplyPacket(ticket, payload)]
            <==> Replies(s.sendQueue) == [] || s.replyBuffer == payload
  {
    if Replies(s.sendQueue) == [] {
      ReplyAppends(s, ticket, payload);
    } else {
      var s' := ReplySection(s, ticket, payload);
      var i := FirstReply(s.sendQueue);
      assert Contents(s')[i] == ReplyPacket(s.sendQueue[i].ticket, payload);
      assert (Contents(s) + [ReplyPacket(ticket, payload)])[i] == ReplyPacket(s.sendQueue[i].ticket, s.replyBuffer);
    }
  }

  lemma FirstReply(q: seq<Item>) returns (i: nat)
    requires Replies(q) != []
    ensures i < |q| && q[i].ReplyItem?
  {
    if q[0].ReplyItem? {
      i := 0;
    } else {
      i := FirstReply(q[1..]);
      i := i + 1;
    }
  }

  lemma NotifyAppends(capacity: nat, s: Server, payload: Bytes)
    requires BuffersAccounted(capacity, s) && s.notifyPool != []
    ensures BuffersAccounted(capacity, NotifySection(s, payload))
    ensures Contents(NotifySection(s, payload)) == Contents(s) + [NotifyPacket(payload)]
  {
    var s' := NotifySection(s, payload);
    var buffer := s.notifyPool[0];
    assert s.notifyPool == [buffer] + s.notifyPool[1..];
    NotifyBuffersAppend(s.sendQueue, NotifyItem(buffer));
    IndicesOccurOnce(capacity, buffer);
    assert multiset(NotifyBuffers(s.sendQueue))[buffer] == 0;
    forall i | 0 <= i < |s.sendQueue|
      ensures Load(s', s.sendQueue[i]) == Load(s, s.sendQueue[i])
    {
      if s.sendQueue[i].NotifyItem? {
        LinkedNotify(s.sendQueue, i);
      }
    }
  }

  /** A read hands out the oldest packet and returns a notification buffer to the pool. */
  lemma ReadIsFifo(capacity: nat, s: Server)
    requires BuffersAccounted(capacity, s) && s.sendQueue != []
    ensures var (s', packet) := ReadSection(s);
            BuffersAccounted(capacity, s') && Contents(s) == [packet] + Contents(s')
  {
    ReadKeepsBuffers(capacity, s);
    var (s', packet) := ReadSection(s);
    forall i | 0 <= i < |s'.sendQueue|
      ensures Contents(s)[i + 1] == Contents(s')[i]
    {
    }
  }

  /** A notification's buffer goes back to the pool with its packet. */
  lemma ReadKeepsBuffers(capacity: nat, s: Server)
    requires BuffersAccounted(capacity, s) && s.sendQueue != []
    ensures BuffersAccounted(capacity, ReadSection(s).0)
  {
    var item, s' := s.sendQueue[0], ReadSection(s).0;
    if item.NotifyItem? {
      var rest := NotifyBuffers(s.sendQueue[1..]);
      assert multiset(s'.notifyPool) == multiset{item.buffer} + multiset(s.notifyPool);
      assert multiset(NotifyBuffers(s.sendQueue)) == multiset{item.buffer} + multiset(rest);
    }
  }

  /** The ticket read, if any, was the first of those queued. */
  lemma ReadTakesReply(s: Server)
    requires s.sendQueue != []
    ensures var (s', packet) := ReadSection(s);
            && s'.replyBuffer == s.replyBuffer && s'.replyLinkedTwice == s.replyLinkedTwice
            && Replies(s.sendQueue) ==
                 (if packet.ReplyPacket? then [packet.ticket] else []) + Replies(s'.sendQueue)
            && (packet.ReplyPacket? ==> packet.payload == s.replyBuffer)
  {
  }

  /** ENOBUFS happens exactly when all notification buffers are queued. */
  lemma PoolEmptyIffAllQueued(capacity: nat, s: Server)
    requires BuffersAccounted(capacity, s)
    ensures |s.notifyPool| + |NotifyBuffers(s.sendQueue)| == capacity
    ensures s.notifyPool == [] <==> |NotifyBuffers(s.sendQueue)| == capacity
  {
    assert |multiset(s.notifyPool) + multiset(NotifyBuffers(s.sendQueue))| == |multiset(Indices(capacity))|;
  }

  /** An operation on the connection by any thread. */
  datatype Op = Reply(ticket: nat, payload: Bytes) | Notify(payload: Bytes) | Read

  function Apply(s: Server, op: Op): Server {
    match op
    case Reply(ticket, payload) => ReplySection(s, ticket, payload)
    case Notify(payload) => if s.notifyPool == [] then s else NotifySection(s, payload)
    case Read => if s.sendQueue == [] then s else ReadSection(s).0
  }

  function Notifications(q: seq<Packet>): nat {
    if q == [] then 0 else (if q[0].NotifyPacket? then 1 else 0) + Notifications(q[1..])
  }

  /** The same operation on a plain FIFO of packets that may hold `capacity` notifications. */
  function ApplyFifo(capacity: nat, q: seq<Packet>, op: Op): seq<Packet> {
    match op
    case Reply(ticket, payload) => q + [ReplyPacket(ticket, payload)]
    case Notify(payload) => if Notifications(q) == capacity then q else q + [NotifyPacket(payload)]
    case Read => if q == [] then q else q[1..]
  }

  function RunServer(s: Server, ops: seq<Op>): Server
    decreases |ops|
  {
    if ops == [] then s else RunServer(Apply(s, ops[0]), ops[1..])
  }

  function RunFifo(capacity: nat, q: seq<Packet>, ops: seq<Op>): seq<Packet>
    decreases |ops|
  {
    if ops == [] then q else RunFifo(capacity, ApplyFifo(capacity, q, ops[0]), ops[1..])
  }

  /** No reply is issued while an earlier one is unread. */
  ghost predicate RepliesOneAtATime(s: Server, ops: seq<Op>)
    decreases |ops|
  {
    ops != [] ==>
      (ops[0].Reply? ==> Replies(s.sendQueue) == []) && RepliesOneAtATime(Apply(s, ops[0]), ops[1..])
  }

  lemma NotificationsCounted(s: Server)
    ensures Notifications(Contents(s)) == |NotifyBuffers(s.sendQueue)|
    decreases |s.sendQueue|
  {
    if s.sendQueue != [] {
      var rest := s.(sendQueue := s.sendQueue[1..]);
      assert Contents(s)[1..] == Contents(rest);
      NotificationsCounted(rest);
    }
  }

  /** Every history in which replies do not overtake each other is a history of a plain FIFO. */
  lemma {:induction false} ServerRefinesFifo(capacity: nat, s: Server, ops: seq<Op>)
    requires BuffersAccounted(capacity, s) && RepliesOneAtATime(s, ops)
    ensures BuffersAccounted(capacity, RunServer(s, ops))
    ensures Contents(RunServer(s, ops)) == RunFifo(capacity, Contents(s), ops)
    ensures !s.replyLinkedTwice ==> !RunServer(s, ops).replyLinkedTwice
    decreases |ops|
  {
    if ops != [] {
      var s' := Apply(s, ops[0]);
      match ops[0] {
        case Reply(ticket, payload) =>
          ReplyAppends(s, ticket, payload);
          NotifyBuffersAppend(s.sendQueue, ReplyItem(ticket));
          assert NotifyBuffers(s.sendQueue) + [] == NotifyBuffers(s.sendQueue);
        case Notify(payload) =>
          NotificationsCounted(s);
          PoolEmptyIffAllQueued(capacity, s);
          if s.notifyPool != [] {
            NotifyAppends(capacity, s, payload);
          }
        case Read =>
          if s.sendQueue != [] {
            ReadIsFifo(capacity, s);
            assert Contents(s)[1..] == Contents(s');
          }
      }
      assert Contents(s') == ApplyFifo(capacity, Contents(s), ops[0]);
      ServerRefinesFifo(capacity, s', ops[1..]);
    }
  }

  class ServerConnection {
    const maxReplySize: nat
    const maxNotifySize: nat
    var pingArmed: bool              // ping_event_ has been set up by the client
    var notifyPool: seq<nat>
    var sendQueue: seq<Item>
    var replyBuffer: Bytes
    var notifyStorage: map<nat, Bytes>
    ghost var replyLinkedTwice: bool

    constructor (maxReplySize: nat, maxNotifySize: nat, maxQueuedNotifies: nat)
      ensures View() == InitialServer(maxQueuedNotifies)
    {
      this.maxReplySize, this.maxNotifySize, pingArmed := maxReplySize, maxNotifySize, false;
      notifyPool, sendQueue := Indices(maxQueuedNotifies), [];
      replyBuffer, notifyStorage, replyLinkedTwice := [], map[], false;
    }

    ghost function View(): Server
      reads this
    {
      Server(notifyPool, sendQueue, replyBuffer, notifyStorage, replyLinkedTwice)
    }

    method Reply(ticket: nat, message: Bytes) returns (error: Option<ServerError>)
      modifies this
      ensures error == if |message| > maxReplySize then Some(EMSGSIZE) else None
      ensures View() == if error.None? then ReplySection(old(View()), ticket, message) else old(View())
      ensures error.None? && Replies(old(sendQueue)) == [] ==>
                Contents(View()) == Contents(old(View())) + [ReplyPacket(ticket, message)]
    {
      if |message| > maxReplySize {
        return Some(EMSGSIZE);
      }
      if Replies(sendQueue) == [] {
        ReplyAppends(View(), ticket, message);
      }
      replyBuffer := message;
      replyLinkedTwice := replyLinkedTwice || Replies(sendQueue) != [];
      sendQueue := sendQueue + [ReplyItem(ticket)];
      return None;
    }

    method Notify(message: Bytes, ghost capacity: nat) returns (error: Option<ServerError>)
      requires BuffersAccounted(capacity, View())
      modifies this
      ensures BuffersAccounted(capacity, View())
      ensures error == if |message| > maxNotifySize then Some(EMSGSIZE)
                       else if |message| == 0 && pingArmed then None
                       else if |NotifyBuffers(old(sendQueue))| == capacity then Some(ENOBUFS) else None
      ensures Contents(View()) ==
              if error.None? && !(|message| == 0 && pingArmed)
              then Contents(old(View())) + [NotifyPacket(message)] else Contents(old(View()))
      ensures Replies(sendQueue) == Replies(old(sendQueue)) && pingArmed == old(pingArmed)
    {
      if |message| > maxNotifySize {
        return Some(EMSGSIZE);
      }
      if |message| == 0 {
        if pingArmed {
          return None;
        }
      }
      PoolEmptyIffAllQueued(capacity, View());
      if notifyPool == [] {
        return Some(ENOBUFS);
      }
      NotifyAppends(capacity, View(), message);
      var buffer := notifyPool[0];
      RepliesAppend(sendQueue, NotifyItem(buffer));
      notifyPool := notifyPool[1..];
      notifyStorage := notifyStorage[buffer := message];
      sendQueue := sendQueue + [NotifyItem(buffer)];
      assert View() == NotifySection(old(View()), message);
      return None;
    }

    method HasSomethingToRead() returns (some: bool)
      ensures some <==> Contents(View()) != []
    {
      some := sendQueue != [];
    }

    /** None is EAGAIN. */
    method ProcessReadRequest(ghost capacity: nat) returns (packet: Option<Packet>)
      requires BuffersAccounted(capacity, View())
      modifies this
      ensures BuffersAccounted(capacity, View()) && pingArmed == old(pingArmed)
      ensures packet.None? <==> Contents(old(View())) == []
      ensures packet.None? ==> View() == old(View())
      ensures packet.Some? ==> Contents(old(View())) == [packet.value] + Contents(View())
    {
      if sendQueue == [] {
        return None;
      }
      ReadIsFifo(capacity, View());
      var item := sendQueue[0];
      match item {
        case ReplyItem(ticket) => packet := Some(ReplyPacket(ticket, replyBuffer));
        case NotifyItem(buffer) =>
          packet := Some(NotifyPacket(if buffer in notifyStorage then notifyStorage[buffer] else []));
      }
      sendQueue := sendQueue[1..];
      if item.NotifyItem? {
        notifyPool := [item.buffer] + notifyPool;
      }
      assert (View(), packet.value) == ReadSection(old(View()));
    }
  }
}
