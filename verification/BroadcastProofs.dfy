/** Broadcasting a message: who gets which frame, and how much data can wait on a connection. */
module BroadcastProofs {
  import opened Wrappers
  import opened Bytes
  import opened Orderings
  import opened Session
  import opened SessionFrames
  import opened SubscriptionProofs

  // ----- One frame

  datatype Data = Data(id: SubscriptionId, timestamp: u64, payload: seq<u8>)

  /** What a client reads from a frame. */
  function ReadFrame(frame: seq<u8>): Option<Data> {
    if |frame| < FRAME_HEADER || frame[0] != 1 then None
    else
      Ranges();
      Some(Data(FromLe(frame[1..5]), FromLe(frame[5..13]), frame[13..]))
  }

  /** A frame says exactly one subscription id, time and payload, whatever bytes they are. */
  lemma FrameRoundTrip(frame: seq<u8>, d: Data)
    ensures ReadFrame(frame) == Some(d) <==> frame == Frame(d.id, d.timestamp, d.payload)
  {
    hide Le, FromLe, Range;
    Ranges();
    if |frame| >= FRAME_HEADER {
      LeInverse(d.id, frame[1..5]);
      LeInverse(d.timestamp, frame[5..13]);
      assert frame == [frame[0]] + frame[1..5] + frame[5..13] + frame[13..];
    }
    var f := Frame(d.id, d.timestamp, d.payload);
    assert f[1..5] == Le32(d.id) && f[5..13] == Le64(d.timestamp) && f[13..] == d.payload;
  }

  /** Where what stands: the opcode, the client's own subscription id, the time and the payload. */
  lemma FrameLayout(id: SubscriptionId, timestamp: u64, payload: seq<u8>)
    ensures var f := Frame(id, timestamp, payload);
            && |f| == 13 + |payload| && f[0] == 1
            && FromLe(f[1..5]) == id && FromLe(f[5..13]) == timestamp && f[13..] == payload
  {
    hide Le, FromLe, Range;
    FrameRoundTrip(Frame(id, timestamp, payload), Data(id, timestamp, payload));
  }

  // ----- One broadcast

  /** Sending to one client leaves every other client's mail and queue alone. */
  lemma SendConcernsOne(s: Server, h: Handle, c: ChannelId, timestamp: u64, payload: seq<u8>, warns: bool,
                        other: Handle)
    requires other != h
    ensures var t := SendMessage(s, h, c, timestamp, payload, warns);
            MailOf(t.mail, other) == MailOf(s.mail, other) && QueueOf(t, other) == QueueOf(s, other)
  {
  }

  /** And what it does to that client depends on its own mail and queue only. */
  lemma SendDependsOnOne(s: Server, s': Server, h: Handle, c: ChannelId, timestamp: u64, payload: seq<u8>, warns: bool)
    requires s'.options == s.options && s'.clients == s.clients
    requires MailOf(s'.mail, h) == MailOf(s.mail, h) && QueueOf(s', h) == QueueOf(s, h)
    ensures var t := SendMessage(s, h, c, timestamp, payload, warns);
            var t' := SendMessage(s', h, c, timestamp, payload, warns);
            MailOf(t'.mail, h) == MailOf(t.mail, h) && QueueOf(t', h) == QueueOf(t, h)
  {
  }

  /** A broadcast does to each client it reaches what sending to that client alone would do. */
  lemma {:induction false} BroadcastReachesEach(s: Server, order: seq<Handle>, keys: set<Handle>, c: ChannelId,
                                                timestamp: u64, payload: seq<u8>, warned: set<Handle>, h: Handle)
    requires IsOrdering(order, keys)
    ensures var t := Broadcast(s, order, c, timestamp, payload, warned);
            var alone := if h in keys then SendMessage(s, h, c, timestamp, payload, h in warned) else s;
            MailOf(t.mail, h) == MailOf(alone.mail, h) && QueueOf(t, h) == QueueOf(alone, h)
    decreases |order|
  {
    hide SendMessage;
    if order != [] {
      var sent := SendMessage(s, order[0], c, timestamp, payload, order[0] in warned);
      OrderingTail(order, keys);
      FrameSendMessage(s, order[0], c, timestamp, payload, order[0] in warned);
      BroadcastReachesEach(sent, order[1..], keys - {order[0]}, c, timestamp, payload, warned, h);
      if h != order[0] {
        SendConcernsOne(s, order[0], c, timestamp, payload, order[0] in warned, h);
        SendDependsOnOne(s, sent, h, c, timestamp, payload, h in warned);
      }
    }
  }

  /**
   * A broadcast gives one frame, under the client's own subscription id, to exactly the connected
   * clients that are subscribed and for which the bytes waiting, of data and of all else, and the
   * payload stay below the limit; their queues grow by the header and the payload. Nobody else gets
   * data; of those at the limit, subscribed or not, the warned ones get a status.
   */
  lemma BroadcastExact(s: Server, order: seq<Handle>, c: ChannelId, timestamp: u64, payload: seq<u8>,
                       warned: set<Handle>, h: Handle)
    requires IsOrdering(order, s.clients.Keys)
    ensures var was, q := MailOf(s.mail, h), QueueOf(s, h);
            var t := Broadcast(s, order, c, timestamp, payload, warned);
            var room := q.data + q.other + |payload| < s.options.sendBufferLimit;
            && t.clients == s.clients
            && (h in s.clients && room && c in s.clients[h].subscriptions ==>
                  && MailOf(t.mail, h)
                     == was.(frames := was.frames + [Frame(s.clients[h].subscriptions[c], timestamp, payload)])
                  && QueueOf(t, h) == Queue(q.data + 13 + |payload|, q.other))
            && (!(h in s.clients && room && c in s.clients[h].subscriptions) ==>
                  && QueueOf(t, h) == q
                  && MailOf(t.mail, h) == if h in s.clients && !room && h in warned
                                          then was.(statuses := was.statuses + [Warning]) else was)
  {
    hide Frame;
    FrameBroadcast(s, order, c, timestamp, payload, warned);
    BroadcastReachesEach(s, order, s.clients.Keys, c, timestamp, payload, warned, h);
    if h in s.clients && c in s.clients[h].subscriptions {
      FrameLayout(s.clients[h].subscriptions[c], timestamp, payload);
    }
  }

  /** So does sending to one client, for that client; nobody else's mail or queue changes. */
  lemma SendExact(s: Server, h: Handle, c: ChannelId, timestamp: u64, payload: seq<u8>, warns: bool, k: Handle)
    ensures var was, q := MailOf(s.mail, k), QueueOf(s, k);
            var t := SendMessage(s, h, c, timestamp, payload, warns);
            var room := q.data + q.other + |payload| < s.options.sendBufferLimit;
            && t.clients == s.clients
            && (k == h && h in s.clients && room && c in s.clients[h].subscriptions ==>
                  && MailOf(t.mail, k)
                     == was.(frames := was.frames + [Frame(s.clients[h].subscriptions[c], timestamp, payload)])
                  && QueueOf(t, k) == Queue(q.data + 13 + |payload|, q.other))
            && (!(k == h && h in s.clients && room && c in s.clients[h].subscriptions) ==>
                  && QueueOf(t, k) == q
                  && MailOf(t.mail, k) == if k == h && h in s.clients && !room && warns
                                          then was.(statuses := was.statuses + [Warning]) else was)
  {
    hide Frame;
    if k != h {
      SendConcernsOne(s, h, c, timestamp, payload, warns, k);
    } else if h in s.clients && c in s.clients[h].subscriptions {
      FrameLayout(s.clients[h].subscriptions[c], timestamp, payload);
    }
  }

  /** With distinct subscription ids, a client can tell from a frame which channel it came on. */
  lemma ChannelRecoverable(options: Options, events: seq<Event>, s: Server, order: seq<Handle>,
                           c: ChannelId, timestamp: u64, payload: seq<u8>, warned: set<Handle>, h: Handle)
    requires Runs(SendsDistinctIds, Init(options), events, s) && IsOrdering(order, s.clients.Keys)
    requires h in s.clients && c in s.clients[h].subscriptions
    requires QueueOf(s, h).data + QueueOf(s, h).other + |payload| < s.options.sendBufferLimit
    ensures var frames := MailOf(Broadcast(s, order, c, timestamp, payload, warned).mail, h).frames;
            && |frames| == |MailOf(s.mail, h).frames| + 1
            && ReadFrame(frames[|frames| - 1]).Some?
            && var d := ReadFrame(frames[|frames| - 1]).value;
               && d.timestamp == timestamp && d.payload == payload
               && forall k :: k in s.clients[h].subscriptions ==> (s.clients[h].subscriptions[k] == d.id <==> k == c)
  {
    hide Broadcast, Frame, ReadFrame, Runs, IsOrdering;
    BroadcastExact(s, order, c, timestamp, payload, warned, h);
    var d := Data(s.clients[h].subscriptions[c], timestamp, payload);
    FrameRoundTrip(Frame(d.id, timestamp, payload), d);
    SubscriptionIdsAreDistinct(options, events, s);
    assert Injective(s.clients[h].subscriptions);
  }

  // ----- Any run of sends and drains

  ghost predicate QueuesBounded(s: Server) {
    forall h :: QueueOf(s, h).data < s.options.sendBufferLimit + FRAME_HEADER
  }

  /** No queue grows, or only within the bound. */
  lemma StillBounded(s: Server, t: Server)
    requires QueuesBounded(s) && t.options == s.options
    requires forall h ::
               || QueueOf(t, h).data <= QueueOf(s, h).data
               || QueueOf(t, h).data < t.options.sendBufferLimit + FRAME_HEADER
    ensures QueuesBounded(t)
  {
    forall h
      ensures QueueOf(t, h).data < t.options.sendBufferLimit + FRAME_HEADER
    {
      assert QueueOf(s, h).data < s.options.sendBufferLimit + FRAME_HEADER;
    }
  }

  lemma SendBounded(s: Server, h: Handle, c: ChannelId, timestamp: u64, payload: seq<u8>, warns: bool)
    requires QueuesBounded(s)
    ensures QueuesBounded(SendMessage(s, h, c, timestamp, payload, warns))
  {
    StillBounded(s, SendMessage(s, h, c, timestamp, payload, warns));
  }

  lemma {:induction false} BroadcastBounded(s: Server, order: seq<Handle>, c: ChannelId, timestamp: u64,
                                            payload: seq<u8>, warned: set<Handle>)
    requires QueuesBounded(s)
    ensures QueuesBounded(Broadcast(s, order, c, timestamp, payload, warned))
    decreases |order|
  {
    hide SendMessage, QueuesBounded;
    if order != [] {
      SendBounded(s, order[0], c, timestamp, payload, order[0] in warned);
      BroadcastBounded(SendMessage(s, order[0], c, timestamp, payload, order[0] in warned), order[1..], c, timestamp,
                       payload, warned);
    }
  }

  lemma StepBounded(s: Server, e: Event)
    requires QueuesBounded(s) && Enabled(s, e)
    ensures QueuesBounded(Step(s, e))
  {
    hide IsOrdering, SendMessage, Broadcast, QueuesBounded;
    if !TouchesQueues(e) {
      hide Step;
      StepFrame(s, e);
      SameQueues(s, e, Step(s, e));
    } else {
      match e
      case OpenEvent(_, _, _) => OpenBounded(s, e);
      case SendMessageEvent(h, c, timestamp, payload, warns) => SendBounded(s, h, c, timestamp, payload, warns);
      case BroadcastEvent(order, c, timestamp, payload, warned) =>
        BroadcastBounded(s, order, c, timestamp, payload, warned);
      case DrainEvent(h, q) => DrainBounded(s, h, q);
    }
  }

  predicate TouchesQueues(e: Event) {
    e.OpenEvent? || e.SendMessageEvent? || e.BroadcastEvent? || e.DrainEvent?
  }

  lemma OpenBounded(s: Server, e: Event)
    requires QueuesBounded(s) && e.OpenEvent? && Enabled(s, e)
    ensures QueuesBounded(Open(s, e.h, e.channelOrder, e.serviceOrder))
  {
    hide Listing;
    StillBounded(s, Open(s, e.h, e.channelOrder, e.serviceOrder));
  }

  lemma DrainBounded(s: Server, h: Handle, q: Queue)
    requires QueuesBounded(s) && q.data <= QueueOf(s, h).data
    ensures QueuesBounded(s.(queues := s.queues[h := q]))
  {
    StillBounded(s, s.(queues := s.queues[h := q]));
  }

  lemma SameQueues(s: Server, e: Event, t: Server)
    requires QueuesBounded(s) && Framed(s, e, t) && !TouchesQueues(e)
    ensures QueuesBounded(t)
  {
    assert t.queues == s.queues && t.options == s.options;
    StillBounded(s, t);
  }

  /** After every run of sends and drains, the data waiting for a client is below the limit plus one header. */
  lemma QueuedDataIsBounded(options: Options, events: seq<Event>, s: Server, h: Handle)
    requires Runs(Anything, Init(options), events, s)
    ensures QueueOf(s, h).data < s.options.sendBufferLimit + 13
  {
    forall s, e | QueuesBounded(s) && Enabled(s, e) && Anything(s, e)
      ensures QueuesBounded(Step(s, e))
    {
      StepBounded(s, e);
    }
    Invariant(QueuesBounded, Anything, Init(options), events, s);
  }
}
