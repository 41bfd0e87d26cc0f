/** Runs of a new server that end in states one would not expect. */
module Scenarios {
  import opened Wrappers
  import opened Bytes
  import opened Session
  import opened SubscriptionProofs
  import opened SubscriptionAccounting
  import opened BroadcastProofs

  const CLIENT: Handle := 0

  function Asks(id: SubscriptionId, c: ChannelId): SubscribeItem {
    SubscribeItem(Some(id), Some(c), false)
  }

  /** A server with two channels and one client that has subscribed to nothing. */
  ghost predicate Fresh(s: Server) {
    && s.batch.None? && CLIENT in s.clients && s.clients[CLIENT].subscriptions == map[]
    && 1 in s.channels.table && 2 in s.channels.table && s.log == SubscriptionLog([], [])
    && s.clients.Keys == {CLIENT} && QueueOf(s, CLIENT) == Queue(0, 0)
  }

  lemma TwoChannels(options: Options, a: ChannelInfo, b: ChannelInfo)
    ensures AddChannels(Init(options), [a, b]).channels.table == map[1 := a, 2 := b]
  {
    hide AllNoticed;
    var start: Adding<ChannelInfo> := Adding(Catalogue(map[], 0), []);
    var one := AddOne(a, start);
    var two := AddOne(b, one);
    assert [a, b][1..] == [b] && [b][1..] == [];
    assert AddAll([a, b], start) == AddAll([b], one) == AddAll([], two) == two;
  }

  lemma GetsFresh(options: Options, a: ChannelInfo, b: ChannelInfo) returns (events: seq<Event>, s: Server)
    ensures Runs(Anything, Init(options), events, s) && Fresh(s) && s.options == options
  {
    hide Listing, AllNoticed, AddAll, Runs;
    var s0 := Init(options);
    var add, open := AddChannelsEvent([a, b]), OpenEvent(CLIENT, [1, 2], []);
    TwoChannels(options, a, b);
    Nothing(s0);
    RunsThen(Anything, s0, [], s0, add);
    var s1 := AddChannels(s0, [a, b]);
    assert Enabled(s1, open);
    RunsThen(Anything, s0, [] + [add], s1, open);
    events, s := [] + [add] + [open], Open(s1, CLIENT, [1, 2], []);
  }

  lemma Nothing(s: Server)
    ensures Runs(Anything, s, [], s)
  {
  }

  /** A subscribe message that lists one id for two channels, and what two turns of its loop make of it. */
  lemma RepeatedIdReachable(options: Options, a: ChannelInfo, b: ChannelInfo, id: SubscriptionId)
    returns (events: seq<Event>, s: Server)
    ensures Runs(Anything, Init(options), events, s)
    ensures CLIENT in s.clients && s.clients[CLIENT].subscriptions == map[1 := id, 2 := id]
    ensures !Injective(s.clients[CLIENT].subscriptions)
  {
    hide Runs, SubscribeNext;
    var before, s0 := GetsFresh(options, a, b);
    var items := [Asks(id, 1), Asks(id, 2)];
    var s1 := SubscribeStart(s0, CLIENT, items);
    var started := before + [SubscribeStartEvent(CLIENT, items)];
    RunsThen(Anything, Init(options), before, s0, SubscribeStartEvent(CLIENT, items));
    OneTurn(s1, map[], items);
    var s2 := SubscribeNext(s1);
    RunsThen(Anything, Init(options), started, s1, SubscribeNextEvent);
    OneTurn(s2, map[], items[1..]);
    s := SubscribeNext(s2);
    RunsThen(Anything, Init(options), started + [SubscribeNextEvent], s2, SubscribeNextEvent);
    events := started + [SubscribeNextEvent] + [SubscribeNextEvent];
    var m := s.clients[CLIENT].subscriptions;
    assert m[1] == m[2];
  }

  /** A turn that subscribes the client to a channel. */
  lemma OneTurn(s: Server, snapshot: Subscriptions, rest: seq<SubscribeItem>)
    requires s.batch == Some(Batch(CLIENT, snapshot, rest)) && rest != [] && CLIENT in s.clients
    requires rest[0].id.Some? && rest[0].channelId.Some? && !rest[0].throws
    requires rest[0].id.value !in snapshot.Values
    requires rest[0].channelId.value in s.channels.table && rest[0].channelId.value !in s.clients[CLIENT].subscriptions
    ensures var t, c := SubscribeNext(s), rest[0].channelId.value;
            && t.batch == Some(Batch(CLIENT, snapshot, rest[1..])) && CLIENT in t.clients && t.channels == s.channels
            && t.clients[CLIENT].subscriptions == s.clients[CLIENT].subscriptions[c := rest[0].id.value]
            && t.log == s.log.(calls := s.log.calls + [SubscribeCall(CLIENT, c)])
            && t.clients.Keys == s.clients.Keys && t.options == s.options && t.queues == s.queues
  {
  }

  lemma LastTurn(s: Server)
    requires s.batch.Some? && s.batch.value.rest == []
    ensures SubscribeNext(s) == s.(batch := None)
  {
  }

  /** One client, subscribed to channel 1, and nothing else ever asked of the handlers. */
  lemma GetsSubscribed(options: Options, a: ChannelInfo, b: ChannelInfo, id: SubscriptionId)
    returns (events: seq<Event>, s: Server)
    ensures Runs(Anything, Init(options), events, s) && s.batch.None? && CLIENT in s.clients
    ensures s.clients[CLIENT].subscriptions == map[1 := id] && s.log == SubscriptionLog([SubscribeCall(CLIENT, 1)], [])
    ensures s.options == options && s.clients.Keys == {CLIENT} && QueueOf(s, CLIENT) == Queue(0, 0)
  {
    hide Runs, SubscribeNext;
    var before, s0 := GetsFresh(options, a, b);
    var items := [Asks(id, 1)];
    var s1 := SubscribeStart(s0, CLIENT, items);
    var started := before + [SubscribeStartEvent(CLIENT, items)];
    RunsThen(Anything, Init(options), before, s0, SubscribeStartEvent(CLIENT, items));
    OneTurn(s1, map[], items);
    var s2 := SubscribeNext(s1);
    RunsThen(Anything, Init(options), started, s1, SubscribeNextEvent);
    LastTurn(s2);
    s := SubscribeNext(s2);
    RunsThen(Anything, Init(options), started + [SubscribeNextEvent], s2, SubscribeNextEvent);
    events := started + [SubscribeNextEvent] + [SubscribeNextEvent];
  }

  /** A handler that throws was called, but the client stays subscribed. */
  lemma ThrowBreaksBound(options: Options, a: ChannelInfo, b: ChannelInfo, id: SubscriptionId)
    returns (events: seq<Event>, s: Server)
    ensures Runs(Anything, Init(options), events, s)
    ensures !Bounded(s, CLIENT, 1)
  {
    hide Runs;
    var before, s0 := GetsSubscribed(options, a, b, id);
    var items, m := [UnsubscribeItem(Some(id), true)], s0.clients[CLIENT].subscriptions;
    var e := UnsubscribeEvent(CLIENT, [1], items);
    assert FindSubscription([1], m, id) == Some(1);
    s := Unsubscribe(s0, CLIENT, [1], items);
    RunsThen(Anything, Init(options), before, s0, e);
    events := before + [e];
    assert s.log.calls == [SubscribeCall(CLIENT, 1), UnsubscribeCall(CLIENT, 1)];
    assert s.clients[CLIENT].subscriptions == m;
  }

  /** An id listed twice is looked up twice in the same snapshot, and the handler called for both. */
  lemma RepeatBreaksBound(options: Options, a: ChannelInfo, b: ChannelInfo, id: SubscriptionId)
    returns (events: seq<Event>, s: Server)
    ensures Runs(Anything, Init(options), events, s)
    ensures !Bounded(s, CLIENT, 1)
  {
    hide Runs;
    var before, s0 := GetsSubscribed(options, a, b, id);
    var item, m := UnsubscribeItem(Some(id), false), s0.clients[CLIENT].subscriptions;
    var e := UnsubscribeEvent(CLIENT, [1], [item, item]);
    assert FindSubscription([1], m, id) == Some(1);
    var u0 := Unsubscribing(m, [], [], []);
    var u1 := u0.(calls := u0.calls + [UnsubscribeCall(CLIENT, 1)], subscriptions := m - {1});
    var u2 := u1.(calls := u1.calls + [UnsubscribeCall(CLIENT, 1)],
                  mismatches := u1.mismatches + [Mismatch(CLIENT, 1, UnsubscribedTwice)]);
    assert [item, item][1..] == [item] && [item][1..] == [];
    assert UnsubscribeItems(CLIENT, m, [1], [item], u1) == UnsubscribeItems(CLIENT, m, [1], [], u2) == u2;
    assert UnsubscribeItems(CLIENT, m, [1], [item, item], u0) == UnsubscribeItems(CLIENT, m, [1], [item], u1);
    s := Unsubscribe(s0, CLIENT, [1], [item, item]);
    RunsThen(Anything, Init(options), before, s0, e);
    events := before + [e];
    assert s.log.calls == [SubscribeCall(CLIENT, 1), UnsubscribeCall(CLIENT, 1), UnsubscribeCall(CLIENT, 1)];
  }

  /** The bound on waiting data is reached: one message one byte short of the limit, and its header. */
  lemma WaitingDataReachesBound(options: Options, a: ChannelInfo, b: ChannelInfo, id: SubscriptionId)
    returns (events: seq<Event>, s: Server)
    requires options.sendBufferLimit > 0
    ensures Runs(Anything, Init(options), events, s)
    ensures QueueOf(s, CLIENT).data == options.sendBufferLimit + 12
  {
    hide Runs, Broadcast;
    var before, s0 := GetsSubscribed(options, a, b, id);
    var payload: seq<u8> := seq(options.sendBufferLimit - 1, _ => 0);
    var e := BroadcastEvent([CLIENT], 1, 0, payload, {});
    BroadcastExact(s0, [CLIENT], 1, 0, payload, {}, CLIENT);
    RunsThen(Anything, Init(options), before, s0, e);
    events, s := before + [e], Broadcast(s0, [CLIENT], 1, 0, payload, {});
  }
}
