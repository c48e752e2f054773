/**
 The code of the client connection that runs while its send mutex is held.

 A send call identifies its message by a ticket; the callback that a call
 hands over is identified by the ticket of its message. The outcome of a
 transport call made inside a section is the parameter `ok`.
 */
module ClientSections {
  import opened Basics

  datatype Config = Config(
    capacity: nat,         // max_queued_sends + max_async_replies
    maxSendSize: nat,
    fullyOrdered: bool,
    trulyAsync: bool)

  /** A reply callback, which may be empty. */
  datatype Callback = NoCallback | OnReply(ticket: nat)

  datatype Message = Message(ticket: nat, payload: Bytes)

  /** A borrowed send command: the payload lives in the storage, under `buffer`. */
  datatype Entry = Entry(buffer: nat, ticket: nat, callback: Callback)

  /** The fields guarded by the send mutex. */
  datatype Client = Client(
    pool: seq<nat>,
    queue: seq<Entry>,
    storage: map<nat, Bytes>,
    slot: Option<Callback>,      // waiting_for_reply_
    armed: bool,                 // async_send_command_ is linked into the engine queue
    armedTwice: bool)            // it has been linked while already linked

  /** What a section did with the message of a call. */
  datatype Verdict =
    | Queued              // accepted into the send queue
    | Attempted(ok: bool) // handed to the transport inside the section
    | MustSend            // the slot was taken; the caller transmits after unlocking
    | Refused             // ENOBUFS

  function InitialClient(cfg: Config): Client {
    Client(Indices(cfg.capacity), [], map[], None, false, false)
  }

  function Stored(c: Client, buffer: nat): Bytes {
    if buffer in c.storage then c.storage[buffer] else []
  }

  function Enqueue(c: Client, m: Message, callback: Callback): Client
    requires c.pool != []
  {
    c.(pool := c.pool[1..],
    storage := c.storage[c.pool[0] := m.payload],
    queue := c.queue + [Entry(c.pool[0], m.ticket, callback)])
  }

  function Arm(c: Client): Client {
    c.(slot := Some(NoCallback), armed := true, armedTwice := c.armedTwice || c.armed)
  }

  function QueueOrRefuse(c: Client, m: Message, callback: Callback, arm: bool): (Client, Verdict) {
    if c.pool == [] then (c, Refused)
    else if arm then (Arm(Enqueue(c, m, callback)), Queued)
    else (Enqueue(c, m, callback), Queued)
  }

  function SendSection(cfg: Config, c: Client, m: Message, ok: bool): (Client, Verdict) {
    if c.slot.Some? then QueueOrRefuse(c, m, NoCallback, false)
    else if cfg.trulyAsync then QueueOrRefuse(c, m, NoCallback, true)
    else (c, Attempted(ok))
  }

  function CallbackSection(cfg: Config, c: Client, m: Message, callback: Callback, ok: bool): (Client, Verdict) {
    if c.slot.Some? then QueueOrRefuse(c, m, callback, false)
    else if cfg.trulyAsync then QueueOrRefuse(c, m, callback, true)
    else if ok then (c.(slot := Some(callback)), Attempted(true))
    else (c, Attempted(false))
  }

  function WaitSection(c: Client, m: Message): (Client, Verdict) {
    if c.slot.Some? then QueueOrRefuse(c, m, OnReply(m.ticket), false)
    else (c.(slot := Some(OnReply(m.ticket))), MustSend)
  }

  /** The section SendWaitReply enters after its unlocked transmission failed. */
  function WaitFailed(c: Client): Client {
    if c.queue == [] then c.(slot := None) else Arm(c)
  }

  /** One turn of the drain loop up to its unlock: the buffer goes back to the pool first. */
  function PopToSend(c: Client): Client
    requires c.queue != []
  {
    c.(pool := [c.queue[0].buffer] + c.pool,
    queue := c.queue[1..],
    slot := Some(c.queue[0].callback))
  }

  /** One turn of the stop drain: the buffer does not go back to the pool. */
  function PopToDrop(c: Client): Client
    requires c.queue != []
  {
    c.(queue := c.queue[1..])
  }

  /** The connection object; every method is one section under the send mutex. */
  class ClientConnection {
    const cfg: Config
    var pool: seq<nat>
    var queue: seq<Entry>
    var storage: map<nat, Bytes>
    var slot: Option<Callback>
    var armed: bool
    var armedTwice: bool

    constructor (cfg: Config)
      ensures this.cfg == cfg && View() == InitialClient(cfg)
    {
      this.cfg := cfg;
      pool, queue, storage := Indices(cfg.capacity), [], map[];
      slot, armed, armedTwice := None, false, false;
    }

    function View(): Client
      reads this
    {
      Client(pool, queue, storage, slot, armed, armedTwice)
    }

    method TryQueueMessage(m: Message, callback: Callback) returns (queued: bool)
      modifies this`pool, this`queue, this`storage
      ensures queued <==> old(pool) != []
      ensures View() == if queued then Enqueue(old(View()), m, callback) else old(View())
    {
      if pool == [] {
        return false;
      }
      var buffer := pool[0];
      pool := pool[1..];
      storage := storage[buffer := m.payload];
      queue := queue + [Entry(buffer, m.ticket, callback)];
      return true;
    }

    method ArmSendQueueUnderLock()
      modifies this`slot, this`armed, this`armedTwice
      ensures View() == Arm(old(View()))
    {
      slot := Some(NoCallback);
      armedTwice := armedTwice || armed;
      armed := true;
    }

    method Send(m: Message, ok: bool) returns (verdict: Verdict)
      modifies this
      ensures (View(), verdict) == SendSection(cfg, old(View()), m, ok)
    {
      if slot.None? {
        if cfg.trulyAsync {
          var queued := TryQueueMessage(m, NoCallback);
          if !queued {
            return Refused;
          }
          ArmSendQueueUnderLock();
        } else {
          return Attempted(ok);
        }
      } else {
        var queued := TryQueueMessage(m, NoCallback);
        if !queued {
          return Refused;
        }
      }
      return Queued;
    }

    method SendWithCallback(m: Message, callback: Callback, ok: bool) returns (verdict: Verdict)
      modifies this
      ensures (View(), verdict) == CallbackSection(cfg, old(View()), m, callback, ok)
    {
      if slot.Some? {
        var queued := TryQueueMessage(m, callback);
        return if queued then Queued else Refused;
      }
      if cfg.trulyAsync {
        var queued := TryQueueMessage(m, callback);
        if !queued {
          return Refused;
        }
        ArmSendQueueUnderLock();
        return Queued;
      }
      if ok {
        slot := Some(callback);
      }
      return Attempted(ok);
    }

    method SendWaitReply(m: Message) returns (verdict: Verdict)
      modifies this
      ensures (View(), verdict) == WaitSection(old(View()), m)
    {
      if slot.Some? {
        var queued := TryQueueMessage(m, OnReply(m.ticket));
        return if queued then Queued else Refused;
      }
      slot := Some(OnReply(m.ticket));
      return MustSend;
    }

    method SendWaitReplyFailed()
      modifies this
      ensures View() == WaitFailed(old(View()))
    {
      if queue == [] {
        slot := None;
      } else {
        ArmSendQueueUnderLock();
      }
    }

    /** The part of one ProcessSendQueueUnderLock turn before the unlock; None when the loop ends. */
    method NextToSend() returns (next: Option<Entry>)
      modifies this
      ensures next == if old(queue) == [] then None else Some(old(queue)[0])
      ensures View() == if next.None? then old(View()) else PopToSend(old(View()))
    {
      if queue == [] {
        return None;
      }
      var entry := queue[0];
      queue := queue[1..];
      pool := [entry.buffer] + pool;
      slot := Some(entry.callback);
      return Some(entry);
    }

    /** One turn of the drain loop of SwitchToStopState; None when the loop ends. */
    method NextToDrop() returns (next: Option<Entry>)
      modifies this`queue
      ensures next == if old(queue) == [] then None else Some(old(queue)[0])
      ensures View() == if next.None? then old(View()) else PopToDrop(old(View()))
    {
      if queue == [] {
        return None;
      }
      next := Some(queue[0]);
      queue := queue[1..];
    }
  }
}
