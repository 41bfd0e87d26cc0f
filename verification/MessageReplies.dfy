/**
 * What the server says about each item of a client's message: to its handlers and to the client.
 *
 * Every item has one reply, which follows from the item, the ones before it and the state the
 * message found. A message is answered by the replies to its items, in order, up to and including
 * the first that ends it.
 */
module MessageReplies {
  import opened Wrappers
  import opened Orderings
  import opened Session
  import opened SessionFrames
  import opened SubscriptionProofs
  import opened SubscriptionAccounting
  import opened SubscriptionRoundTrip
  import opened MessageEffects
  import opened UnsubscribeBound

  datatype Reply<C> = Reply(calls: seq<C>, mismatches: seq<Mismatch>, statuses: seq<Level>, ends: bool)

  function Silent<C>(): Reply<C> {
    Reply([], [], [], false)
  }

  function Tell<C>(level: Level, ends: bool): Reply<C> {
    Reply([], [], [level], ends)
  }

  /** The replies put together, up to and including the first that ends the message. */
  function Said<C>(replies: seq<Reply<C>>): Reply<C> {
    if replies == [] then Silent()
    else if replies[0].ends then replies[0]
    else
      var first, rest := replies[0], Said(replies[1..]);
      Reply(first.calls + rest.calls, first.mismatches + rest.mismatches, first.statuses + rest.statuses, rest.ends)
  }

  lemma SaidOneMore<C>(replies: seq<Reply<C>>, k: nat)
    requires k < |replies|
    ensures var first, rest, said := replies[k], Said(replies[k + 1..]), Said(replies[k..]);
            if first.ends then said == first
            else said == Reply(first.calls + rest.calls, first.mismatches + rest.mismatches,
                               first.statuses + rest.statuses, rest.ends)
  {
    assert replies[k..][0] == replies[k] && replies[k..][1..] == replies[k + 1..];
  }

  /** Every call is one of some reply. */
  lemma {:induction false} SaidFrom<C>(replies: seq<Reply<C>>, call: C)
    requires call in Said(replies).calls
    ensures exists k :: 0 <= k < |replies| && call in replies[k].calls
    decreases |replies|
  {
    if call !in replies[0].calls {
      SaidFrom(replies[1..], call);
      var k :| 0 <= k < |replies[1..]| && call in replies[1..][k].calls;
      assert call in replies[k + 1].calls;
    }
  }

  // ----- Subscribe

  /**
   * An item is a mistake that ends the message if it lacks an id or a channel, an error if its id was
   * in use when the message came, and a warning if there is no such channel. Only otherwise is the
   * handler called. Nothing will answer the call if it throws, which ends the message as well, if the
   * client is gone, which also does, or if the channel is subscribed by then.
   */
  function ReplyToSubscribe(h: Handle, item: SubscribeItem, was: Subscriptions, channels: map<ChannelId, ChannelInfo>,
                            connected: bool, now: set<ChannelId>): Reply<SubscriptionCall>
  {
    if item.id.None? || item.channelId.None? then Tell(Error, true)
    else if item.id.value in was.Values then Tell(Error, false)
    else if item.channelId.value !in channels then Tell(Warning, false)
    else
      var c := item.channelId.value;
      var call := SubscribeCall(h, c);
      if item.throws then Reply([call], [Mismatch(h, c, SubscribeThrew)], [Error], true)
      else if !connected then Reply([call], [Mismatch(h, c, ClientGone)], [], true)
      else if c in now then Reply([call], [Mismatch(h, c, AlreadySubscribed)], [], false)
      else Reply([call], [], [], false)
  }

  function SubscribedBy(s: Server, h: Handle): set<ChannelId> {
    if h in s.clients then s.clients[h].subscriptions.Keys else {}
  }

  /** One turn, whatever came between it and the turn before, says what its item's reply is, and no more. */
  lemma TurnSays(s: Server)
    requires s.batch.Some? && s.batch.value.rest != []
    ensures var t, Batch(h, was, rest) := SubscribeNext(s), s.batch.value;
            var reply := ReplyToSubscribe(h, rest[0], was, s.channels.table, h in s.clients, SubscribedBy(s, h));
            && t.log == SubscriptionLog(s.log.calls + reply.calls, s.log.mismatches + reply.mismatches)
            && OnlyTold(s, t.mail, h, reply.statuses)
            && t.batch == (if reply.ends then None else Some(Batch(h, was, rest[1..])))
            && t.clients == if reply.calls != [] && reply.mismatches == []
                            then s.clients[h := s.clients[h].(subscriptions :=
                                   s.clients[h].subscriptions[rest[0].channelId.value := rest[0].id.value])]
                            else s.clients
  {
    hide Told, OnlyTold;
    TellingTells(s, s.batch.value.client);
    AddNothing(s.log.calls);
    AddNothing(s.log.mismatches);
  }

  /** The item is one the subscribe handler is called for. */
  predicate AsksToSubscribe(item: SubscribeItem, was: Subscriptions, channels: map<ChannelId, ChannelInfo>) {
    && item.id.Some? && item.channelId.Some?
    && item.id.value !in was.Values && item.channelId.value in channels
  }

  /** The channels a client has subscribed when a message gets to item `k`. */
  ghost function SubscribedAt(items: seq<SubscribeItem>, was: Subscriptions, channels: map<ChannelId, ChannelInfo>,
                              k: nat): set<ChannelId>
    requires k <= |items|
  {
    was.Keys + set j | 0 <= j < k && AsksToSubscribe(items[j], was, channels) :: items[j].channelId.value
  }

  ghost function RepliesToSubscribe(h: Handle, items: seq<SubscribeItem>, was: Subscriptions,
                                    channels: map<ChannelId, ChannelInfo>): seq<Reply<SubscriptionCall>>
  {
    seq(|items|, k requires 0 <= k < |items| =>
      ReplyToSubscribe(h, items[k], was, channels, true, SubscribedAt(items, was, channels, k)))
  }

  /** A whole subscribe message of a connected client is answered by the replies to its items. */
  lemma SubscribeSays(s: Server, h: Handle, items: seq<SubscribeItem>)
    requires h in s.clients && s.batch.None?
    ensures var t := Subscribe(s, h, items);
            var said := Said(RepliesToSubscribe(h, items, s.clients[h].subscriptions, s.channels.table));
            && t.log == SubscriptionLog(s.log.calls + said.calls, s.log.mismatches + said.mismatches)
            && OnlyTold(s, t.mail, h, said.statuses) && t.batch.None?
  {
    hide RunBatch, Said, SubscribedAt, OnlyTold;
    var was, table := s.clients[h].subscriptions, s.channels.table;
    var replies := RepliesToSubscribe(h, items, was, table);
    assert items[0..] == items && replies[0..] == replies;
    SubscribedFirst(items, was, table);
    SubscribeSaysFrom(SubscribeStart(s, h, items), h, items, was, 0, replies);
    SameTold(s, SubscribeStart(s, h, items), Subscribe(s, h, items).mail, h,
             Said(replies).statuses);
  }

  lemma SubscribedFirst(items: seq<SubscribeItem>, was: Subscriptions, channels: map<ChannelId, ChannelInfo>)
    ensures SubscribedAt(items, was, channels, 0) == was.Keys
  {
  }

  lemma SubscribedNext(items: seq<SubscribeItem>, was: Subscriptions, channels: map<ChannelId, ChannelInfo>, k: nat)
    requires k < |items|
    ensures SubscribedAt(items, was, channels, k + 1)
            == SubscribedAt(items, was, channels, k)
               + if AsksToSubscribe(items[k], was, channels) then {items[k].channelId.value} else {}
  {
    hide AsksToSubscribe;
  }

  lemma SameTold(s: Server, s': Server, now: Mail, h: Handle, levels: seq<Level>)
    requires OnlyTold(s', now, h, levels) && s'.mail == s.mail && s'.clients.Keys == s.clients.Keys
    ensures OnlyTold(s, now, h, levels)
  {
  }

  lemma ToldTwice(s: Server, t: Server, now: Mail, h: Handle, levels: seq<Level>, more: seq<Level>)
    requires OnlyTold(s, t.mail, h, levels) && OnlyTold(t, now, h, more) && t.clients.Keys == s.clients.Keys
    ensures OnlyTold(s, now, h, levels + more)
  {
    assert MailOf(s.mail, h).statuses + levels + more == MailOf(s.mail, h).statuses + (levels + more);
  }

  lemma {:induction false} SubscribeSaysFrom(s: Server, h: Handle, items: seq<SubscribeItem>, was: Subscriptions,
                                             k: nat, replies: seq<Reply<SubscriptionCall>>)
    requires k <= |items| && s.batch == Some(Batch(h, was, items[k..])) && h in s.clients
    requires s.clients[h].subscriptions.Keys == SubscribedAt(items, was, s.channels.table, k)
    requires replies == RepliesToSubscribe(h, items, was, s.channels.table)
    ensures var t, said := RunBatch(s), Said(replies[k..]);
            && t.log == SubscriptionLog(s.log.calls + said.calls, s.log.mismatches + said.mismatches)
            && OnlyTold(s, t.mail, h, said.statuses) && t.batch.None?
    decreases |items| - k
  {
    hide SubscribeNext, SubscribedAt, OnlyTold, ReplyToSubscribe;
    TellingTells(s, h);
    AddNothing(s.log.calls);
    AddNothing(s.log.mismatches);
    if k == |items| {
      EmptyBatchEnds(s);
      assert RunBatch(s) == RunBatch(s.(batch := None)) == s.(batch := None);
    } else {
      var t, reply := SubscribeNext(s), replies[k];
      assert items[k..][0] == items[k] && items[k..][1..] == items[k + 1..];
      assert replies[k..][0] == reply && replies[k..][1..] == replies[k + 1..];
      TurnSays(s);
      assert RunBatch(s) == RunBatch(t);
      if reply.ends {
        assert RunBatch(t) == t;
      } else {
        SubscribedNext(items, was, s.channels.table, k);
        TurnAdds(s, h, items[k], was);
        SubscribeSaysFrom(t, h, items, was, k + 1, replies);
        var rest := Said(replies[k + 1..]);
        assert s.log.calls + reply.calls + rest.calls == s.log.calls + (reply.calls + rest.calls);
        assert s.log.mismatches + reply.mismatches + rest.mismatches
            == s.log.mismatches + (reply.mismatches + rest.mismatches);
        ToldTwice(s, t, RunBatch(s).mail, h, reply.statuses, rest.statuses);
      }
    }
  }

  /** A turn that does not end the message has subscribed the channel its item asks for, if it asks for one. */
  lemma TurnAdds(s: Server, h: Handle, item: SubscribeItem, was: Subscriptions)
    requires s.batch.Some? && s.batch.value.client == h && s.batch.value.snapshot == was && h in s.clients
    requires s.batch.value.rest != [] && s.batch.value.rest[0] == item
    requires SubscribeNext(s).batch.Some?
    ensures var t := SubscribeNext(s);
            && t.clients.Keys == s.clients.Keys && t.channels == s.channels
            && t.clients[h].subscriptions.Keys
               == s.clients[h].subscriptions.Keys
                  + if AsksToSubscribe(item, was, s.channels.table) then {item.channelId.value} else {}
  {
    hide Told, Subscribed;
  }

  // ----- Unsubscribe

  /** The channel looked up is the first, in the order the snapshot is walked in, that has the id. */
  lemma {:induction false} FindFirst(order: seq<ChannelId>, m: Subscriptions, id: SubscriptionId)
    ensures var found := FindSubscription(order, m, id);
            && (found.None? ==> forall i :: 0 <= i < |order| && order[i] in m ==> m[order[i]] != id)
            && (found.Some? ==>
                  exists i :: && 0 <= i < |order| && order[i] == found.value && order[i] in m && m[order[i]] == id
                              && forall j :: 0 <= j < i && order[j] in m ==> m[order[j]] != id)
    decreases |order|
  {
    if order != [] && !(order[0] in m && m[order[0]] == id) {
      FindFirst(order[1..], m, id);
      assert forall i :: 0 < i < |order| ==> order[i] == order[1..][i - 1];
      var found := FindSubscription(order, m, id);
      if found.Some? {
        var i :| && 0 <= i < |order[1..]| && order[1..][i] == found.value && order[1..][i] in m
                 && m[order[1..][i]] == id
                 && forall j :: 0 <= j < i && order[1..][j] in m ==> m[order[1..][j]] != id;
        assert order[i + 1] == found.value;
      }
    }
  }

  /**
   * An item without an id ends the message with an error; one whose id was not in use when the message
   * came is warned of. Otherwise the handler is called for the channel, in vain if it throws, which
   * ends the message, or if the message asked for the same before.
   */
  function ReplyToUnsubscribe(h: Handle, item: UnsubscribeItem, was: Subscriptions, order: seq<ChannelId>,
                              repeated: bool): Reply<SubscriptionCall>
  {
    if item.id.None? then Tell(Error, true)
    else if FindSubscription(order, was, item.id.value).None? then Tell(Warning, false)
    else
      var c := FindSubscription(order, was, item.id.value).value;
      var call := UnsubscribeCall(h, c);
      if item.throws then Reply([call], [Mismatch(h, c, UnsubscribeThrew)], [Error], true)
      else Reply([call], if repeated then [Mismatch(h, c, UnsubscribedTwice)] else [], [], false)
  }

  ghost function RepliesToUnsubscribe(h: Handle, items: seq<UnsubscribeItem>, was: Subscriptions,
                                      order: seq<ChannelId>): seq<Reply<SubscriptionCall>>
  {
    seq(|items|, k requires 0 <= k < |items| =>
      ReplyToUnsubscribe(h, items[k], was, order, exists j :: 0 <= j < k && items[j].id == items[k].id))
  }

  /** The message gets to this item, and the item ends the subscription to the channel. */
  ghost predicate EndsAt(items: seq<UnsubscribeItem>, was: Subscriptions, order: seq<ChannelId>, i: int, c: ChannelId) {
    && 0 <= i < |items| && Reached(items, was, i) && items[i].id.Some? && !items[i].throws
    && FindSubscription(order, was, items[i].id.value) == Some(c)
  }

  /** An unsubscribe message is answered by the replies to its items, and ends what these find. */
  lemma UnsubscribeSays(s: Server, h: Handle, order: seq<ChannelId>, items: seq<UnsubscribeItem>)
    requires h in s.clients && IsOrdering(order, s.clients[h].subscriptions.Keys)
    ensures var t, was := Unsubscribe(s, h, order, items), s.clients[h].subscriptions;
            var said := Said(RepliesToUnsubscribe(h, items, was, order));
            && t.log == SubscriptionLog(s.log.calls + said.calls, s.log.mismatches + said.mismatches)
            && OnlyTold(s, t.mail, h, said.statuses)
            && h in t.clients
            && t.clients == s.clients[h := s.clients[h].(subscriptions := t.clients[h].subscriptions)]
            && forall c :: Lookup(t.clients[h].subscriptions, c)
                           == if exists i :: EndsAt(items, was, order, i, c) then None else Lookup(was, c)
  {
    hide UnsubscribeItems, Told, OnlyTold, Said, EndsAt, ReplyToUnsubscribe;
    var was := s.clients[h].subscriptions;
    var replies := RepliesToUnsubscribe(h, items, was, order);
    var u := Unsubscribing(was, [], [], []);
    assert items[0..] == items && replies[0..] == replies;
    NothingEndedYet(items, was, order);
    UnsubscribeSaysFrom(h, items, was, order, 0, replies, u);
    assert [] + Said(replies).statuses == Said(replies).statuses;
    TellingTells(s, h);
  }

  ghost predicate LeftAfter(left: Subscriptions, items: seq<UnsubscribeItem>, was: Subscriptions,
                            order: seq<ChannelId>, k: int)
  {
    forall c :: Lookup(left, c) == if exists i :: i < k && EndsAt(items, was, order, i, c) then None else Lookup(was, c)
  }

  lemma NothingEndedYet(items: seq<UnsubscribeItem>, was: Subscriptions, order: seq<ChannelId>)
    ensures LeftAfter(was, items, was, order, 0)
  {
  }

  /** Where a message ends, no later item ends anything. */
  lemma NothingEndedLater(left: Subscriptions, items: seq<UnsubscribeItem>, was: Subscriptions, order: seq<ChannelId>,
                          k: nat)
    requires LeftAfter(left, items, was, order, k) && k <= |items|
    requires k < |items| ==> items[k].id.None? || (Matched(items[k], was) && items[k].throws)
    ensures forall c :: Lookup(left, c)
                        == if exists i :: EndsAt(items, was, order, i, c) then None else Lookup(was, c)
  {
    hide FindSubscription, Lookup;
    forall c, i | EndsAt(items, was, order, i, c)
      ensures i < k
    {
    }
  }

  /** An item that names no subscription ends nothing. */
  lemma LeftAsBefore(left: Subscriptions, items: seq<UnsubscribeItem>, was: Subscriptions, order: seq<ChannelId>,
                     k: nat)
    requires LeftAfter(left, items, was, order, k) && k < |items| && items[k].id.Some?
    requires FindSubscription(order, was, items[k].id.value).None?
    ensures LeftAfter(left, items, was, order, k + 1)
  {
    hide FindSubscription, Reached;
    forall c: ChannelId
      ensures Lookup(left, c)
              == if exists i :: i < k + 1 && EndsAt(items, was, order, i, c) then None else Lookup(was, c)
    {
      if exists i :: i < k + 1 && EndsAt(items, was, order, i, c) {
        var i :| i < k + 1 && EndsAt(items, was, order, i, c);
        assert i < k;
      } else {
        assert forall i :: i < k && EndsAt(items, was, order, i, c) ==> i < k + 1;
      }
    }
  }

  lemma OneFewerLeft(left: Subscriptions, items: seq<UnsubscribeItem>, was: Subscriptions, order: seq<ChannelId>,
                     k: nat)
    requires LeftAfter(left, items, was, order, k) && k < |items| && items[k].id.Some? && !items[k].throws
    requires Reached(items, was, k) && FindSubscription(order, was, items[k].id.value).Some?
    ensures LeftAfter(left - {FindSubscription(order, was, items[k].id.value).value}, items, was, order, k + 1)
  {
    hide FindSubscription, Reached;
    var d := FindSubscription(order, was, items[k].id.value).value;
    assert EndsAt(items, was, order, k, d);
    forall c: ChannelId
      ensures Lookup(left - {d}, c)
              == if exists i :: i < k + 1 && EndsAt(items, was, order, i, c) then None else Lookup(was, c)
    {
      if c == d {
        assert k < k + 1 && EndsAt(items, was, order, k, c);
      } else {
        assert Lookup(left - {d}, c) == Lookup(left, c);
        if exists i :: i < k + 1 && EndsAt(items, was, order, i, c) {
          var i :| i < k + 1 && EndsAt(items, was, order, i, c);
          assert i < k;
        } else {
          assert forall i :: i < k && EndsAt(items, was, order, i, c) ==> i < k + 1;
        }
      }
    }
  }

  /** The channel an item names has gone exactly if an item before it has the same id. */
  lemma GoneExactly(left: Subscriptions, items: seq<UnsubscribeItem>, was: Subscriptions, order: seq<ChannelId>, k: nat)
    requires LeftAfter(left, items, was, order, k) && k < |items| && items[k].id.Some?
    requires IsOrdering(order, was.Keys) && Reached(items, was, k)
    requires FindSubscription(order, was, items[k].id.value).Some?
    ensures var c := FindSubscription(order, was, items[k].id.value).value;
            && c in was && Matched(items[k], was)
            && (c !in left <==> exists j :: 0 <= j < k && items[j].id == items[k].id)
  {
    FindFound(order, was, items[k].id.value);
    FindFails(order, was, items[k]);
    hide FindSubscription, IsOrdering;
    var c := FindSubscription(order, was, items[k].id.value).value;
    assert was[c] in was.Values;
    if c !in left {
      assert Lookup(left, c).None? && Lookup(was, c).Some?;
      var i :| i < k && EndsAt(items, was, order, i, c);
      FindFound(order, was, items[i].id.value);
    }
    if exists j :: 0 <= j < k && items[j].id == items[k].id {
      var j :| 0 <= j < k && items[j].id == items[k].id;
      assert Matched(items[j], was) && EndsAt(items, was, order, j, c);
      assert Lookup(left, c).None?;
    }
  }

  /** One item handled: its reply is added, and the subscription it ends goes. */
  function Answered(u: Unsubscribing, reply: Reply<SubscriptionCall>, left: Subscriptions): Unsubscribing {
    Unsubscribing(left, u.calls + reply.calls, u.mismatches + reply.mismatches, u.statuses + reply.statuses)
  }

  function LeftBy(item: UnsubscribeItem, was: Subscriptions, order: seq<ChannelId>, left: Subscriptions)
    : Subscriptions
  {
    if item.id.None? || item.throws || FindSubscription(order, was, item.id.value).None? then left
    else left - {FindSubscription(order, was, item.id.value).value}
  }

  lemma OneItem(h: Handle, items: seq<UnsubscribeItem>, was: Subscriptions, order: seq<ChannelId>, u: Unsubscribing,
                repeated: bool)
    requires items != []
    requires items[0].id.Some? && FindSubscription(order, was, items[0].id.value).Some? ==>
               (repeated <==> FindSubscription(order, was, items[0].id.value).value !in u.subscriptions)
    ensures var reply := ReplyToUnsubscribe(h, items[0], was, order, repeated);
            var v := Answered(u, reply, LeftBy(items[0], was, order, u.subscriptions));
            UnsubscribeItems(h, was, order, items, u)
            == if reply.ends then v else UnsubscribeItems(h, was, order, items[1..], v)
  {
    hide FindSubscription;
    AddNothing(u.calls);
    AddNothing(u.mismatches);
    AddNothing(u.statuses);
    if items[0].id.Some? && FindSubscription(order, was, items[0].id.value).Some? {
      var c := FindSubscription(order, was, items[0].id.value).value;
      if c !in u.subscriptions {
        assert u.subscriptions - {c} == u.subscriptions;
      }
    }
  }

  lemma {:induction false} UnsubscribeSaysFrom(h: Handle, items: seq<UnsubscribeItem>, was: Subscriptions,
                                               order: seq<ChannelId>, k: nat, replies: seq<Reply<SubscriptionCall>>,
                                               u: Unsubscribing)
    requires k <= |items| && IsOrdering(order, was.Keys) && Reached(items, was, k)
    requires replies == RepliesToUnsubscribe(h, items, was, order)
    requires LeftAfter(u.subscriptions, items, was, order, k)
    ensures var v, said := UnsubscribeItems(h, was, order, items[k..], u), Said(replies[k..]);
            && v.calls == u.calls + said.calls && v.mismatches == u.mismatches + said.mismatches
            && v.statuses == u.statuses + said.statuses
            && forall c :: Lookup(v.subscriptions, c)
                           == if exists i :: EndsAt(items, was, order, i, c) then None else Lookup(was, c)
    decreases |items| - k
  {
    hide LeftAfter, EndsAt, Reached, IsOrdering, FindSubscription, Lookup, UnsubscribeItems, ReplyToUnsubscribe, Said,
      LeftBy;
    if k == |items| {
      NothingEndedLater(u.subscriptions, items, was, order, k);
      assert items[k..] == [] && replies[k..] == [];
      NothingToSay(h, was, order, u);
    } else {
      var item, reply, left := items[k], replies[k], LeftBy(items[k], was, order, u.subscriptions);
      assert items[k..][0] == item && items[k..][1..] == items[k + 1..];
      var repeated := exists j :: 0 <= j < k && items[j].id == items[k].id;
      if item.id.Some? && FindSubscription(order, was, item.id.value).Some? {
        GoneExactly(u.subscriptions, items, was, order, k);
      }
      OneItem(h, items[k..], was, order, u, repeated);
      SaidOneMore(replies, k);
      LeftNext(h, items, was, order, k, u.subscriptions, repeated);
      if !reply.ends {
        var rest := Said(replies[k + 1..]);
        UnsubscribeSaysFrom(h, items, was, order, k + 1, replies, Answered(u, reply, left));
        assert u.calls + reply.calls + rest.calls == u.calls + (reply.calls + rest.calls);
        assert u.mismatches + reply.mismatches + rest.mismatches == u.mismatches + (reply.mismatches + rest.mismatches);
        assert u.statuses + reply.statuses + rest.statuses == u.statuses + (reply.statuses + rest.statuses);
      }
    }
  }

  lemma NothingToSay(h: Handle, was: Subscriptions, order: seq<ChannelId>, u: Unsubscribing)
    ensures UnsubscribeItems(h, was, order, [], u) == u && Said<SubscriptionCall>([]) == Silent()
  {
  }

  /** What is left of the subscriptions after one more item, or for good if the item ends the message. */
  lemma LeftNext(h: Handle, items: seq<UnsubscribeItem>, was: Subscriptions, order: seq<ChannelId>, k: nat,
                 left: Subscriptions, repeated: bool)
    requires k < |items| && IsOrdering(order, was.Keys) && Reached(items, was, k)
    requires LeftAfter(left, items, was, order, k)
    ensures var now := LeftBy(items[k], was, order, left);
            if ReplyToUnsubscribe(h, items[k], was, order, repeated).ends then
              forall c :: Lookup(now, c)
                          == if exists i :: EndsAt(items, was, order, i, c) then None else Lookup(was, c)
            else Reached(items, was, k + 1) && LeftAfter(now, items, was, order, k + 1)
  {
    hide LeftAfter, EndsAt, Reached, IsOrdering, FindSubscription, Lookup;
    if items[k].id.None? {
      NothingEndedLater(left, items, was, order, k);
    } else {
      FindFails(order, was, items[k]);
      if Matched(items[k], was) && items[k].throws {
        NothingEndedLater(left, items, was, order, k);
      } else {
        ReachedNext(items, was, k);
        if Matched(items[k], was) {
          OneFewerLeft(left, items, was, order, k);
        } else {
          LeftAsBefore(left, items, was, order, k);
        }
      }
    }
  }

  lemma ReachedNext(items: seq<UnsubscribeItem>, was: Subscriptions, k: nat)
    requires Reached(items, was, k) && k < |items| && items[k].id.Some? && !(Matched(items[k], was) && items[k].throws)
    ensures Reached(items, was, k + 1)
  {
  }

  /** Subscribe and unsubscribe messages of a client that is gone do nothing at all. */
  lemma GoneAreIgnored(s: Server, h: Handle, subscribing: seq<SubscribeItem>, order: seq<ChannelId>,
                       unsubscribing: seq<UnsubscribeItem>)
    requires h !in s.clients && s.batch.None?
    ensures Subscribe(s, h, subscribing) == s && Unsubscribe(s, h, order, unsubscribing) == s
  {
  }
}
