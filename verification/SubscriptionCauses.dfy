/** Why each subscribe and unsubscribe call is made, and that what is logged about it is true. */
module SubscriptionCauses {
  import opened Wrappers
  import opened Orderings
  import opened Session
  import opened SessionFrames
  import opened SubscriptionProofs
  import opened SubscriptionAccounting
  import opened MessageEffects
  import opened MessageReplies
  import opened UnsubscribeBound

  // ----- The calls of one step

  /** The step is a turn of the client's message that asks for the channel, which exists, under a new id. */
  ghost predicate TurnAsksFor(s: Server, e: Event, h: Handle, c: ChannelId) {
    e.SubscribeNextEvent? && s.batch.Some? &&
    var Batch(client, snapshot, rest) := s.batch.value;
    && client == h && rest != []
    && rest[0].id.Some? && rest[0].id.value !in snapshot.Values
    && rest[0].channelId == Some(c) && c in s.channels.table
  }

  /** The subscribe handler is called for a client and a channel exactly by the turns that ask for it. */
  lemma SubscribeCalledExactly(s: Server, e: Event, h: Handle, c: ChannelId)
    requires Enabled(s, e)
    ensures Calls(Step(s, e).log, SubscribeCall(h, c))
            == Calls(s.log, SubscribeCall(h, c)) + if TurnAsksFor(s, e, h, c) then 1 else 0
  {
    hide IsOrdering, SubscribeNext, Unsubscribe, Close;
    if e.SubscribeNextEvent? {
      TurnCalls(s, h, c);
    } else if e.UnsubscribeEvent? {
      UnsubscribeMessageCalls(s, e, SubscribeCall(h, c));
    } else if e.CloseEvent? {
      CloseCalls(s, e, SubscribeCall(h, c));
    } else {
      OthersCallNobody(s, e);
    }
  }

  lemma MoreCalls(calls: seq<SubscriptionCall>, more: seq<SubscriptionCall>, call: SubscriptionCall)
    ensures multiset(calls + more)[call] == multiset(calls)[call] + multiset(more)[call]
    ensures multiset(more)[call] > 0 <==> call in more
  {
    assert multiset(calls + more) == multiset(calls) + multiset(more);
    assert call in multiset(more) <==> call in more;
  }

  lemma TurnCalls(s: Server, h: Handle, c: ChannelId)
    requires s.batch.Some?
    ensures Calls(SubscribeNext(s).log, SubscribeCall(h, c))
            == Calls(s.log, SubscribeCall(h, c)) + if TurnAsksFor(s, SubscribeNextEvent, h, c) then 1 else 0
    ensures Calls(SubscribeNext(s).log, UnsubscribeCall(h, c)) == Calls(s.log, UnsubscribeCall(h, c))
  {
    hide OnlyTold;
    if s.batch.value.rest == [] {
      EmptyBatchEnds(s);
    } else {
      hide SubscribeNext;
      TurnSays(s);
      var Batch(k, was, rest) := s.batch.value;
      var more := ReplyToSubscribe(k, rest[0], was, s.channels.table, k in s.clients, SubscribedBy(s, k)).calls;
      TurnAsksOnce(s, h, c);
      MoreCalls(s.log.calls, more, SubscribeCall(h, c));
      MoreCalls(s.log.calls, more, UnsubscribeCall(h, c));
    }
  }

  lemma TurnAsksOnce(s: Server, h: Handle, c: ChannelId)
    requires s.batch.Some? && s.batch.value.rest != []
    ensures var Batch(k, was, rest) := s.batch.value;
            var more := ReplyToSubscribe(k, rest[0], was, s.channels.table, k in s.clients, SubscribedBy(s, k)).calls;
            && multiset(more)[SubscribeCall(h, c)]
               == (if TurnAsksFor(s, SubscribeNextEvent, h, c) then 1 else 0)
            && multiset(more)[UnsubscribeCall(h, c)] == 0
  {
  }

  lemma OthersCallNobody(s: Server, e: Event)
    requires Enabled(s, e) && !e.SubscribeNextEvent? && !e.UnsubscribeEvent? && !e.CloseEvent?
    ensures Step(s, e).log.calls == s.log.calls
  {
    hide IsOrdering, Step, OnlySubscriptions, OnlyAdvertised, OnlyFlags, QuietMail, SameNotices, SameGraphMail;
    StepFrame(s, e);
    if e.RemoveChannelsEndEvent? {
      RemovalCallsNobody(s, e);
    }
  }

  lemma RemovalCallsNobody(s: Server, e: Event)
    requires Enabled(s, e) && e.RemoveChannelsEndEvent?
    ensures Step(s, e).log.calls == s.log.calls
  {
    hide IsOrdering, Dropped, AllNoticed;
  }

  /** The client's subscription to the channel is named by an item of the message. */
  ghost predicate Names(items: seq<UnsubscribeItem>, i: int, was: Subscriptions, c: ChannelId) {
    0 <= i < |items| && c in was && items[i].id == Some(was[c])
  }

  /** An unsubscribe message calls about its own client, for channels it is subscribed to and names. */
  lemma UnsubscribeMessageCalls(s: Server, e: Event, call: SubscriptionCall)
    requires Enabled(s, e) && e.UnsubscribeEvent?
    ensures Calls(Step(s, e).log, call) >= Calls(s.log, call)
    ensures Calls(Step(s, e).log, call) > Calls(s.log, call) ==>
              && call.UnsubscribeCall? && call.client == e.h && e.h in s.clients
              && exists i :: Names(e.unsubscribeItems, i, s.clients[e.h].subscriptions, call.channel)
  {
    hide Unsubscribe, Said, OnlyTold, EndsAt, IsOrdering, ReplyToUnsubscribe, Lookup;
    if e.h in s.clients {
      var was := s.clients[e.h].subscriptions;
      var replies := RepliesToUnsubscribe(e.h, e.unsubscribeItems, was, e.order);
      UnsubscribeSays(s, e.h, e.order, e.unsubscribeItems);
      MoreCalls(s.log.calls, Said(replies).calls, call);
      if call in Said(replies).calls {
        SaidFrom(replies, call);
        var k :| 0 <= k < |replies| && call in replies[k].calls;
        ReplyCalls(e.h, e.unsubscribeItems, was, e.order, k, call);
      }
    } else {
      assert Step(s, e) == s by { GoneUnsubscribe(s, e); }
    }
  }

  lemma GoneUnsubscribe(s: Server, e: Event)
    requires Enabled(s, e) && e.UnsubscribeEvent? && e.h !in s.clients
    ensures Step(s, e) == s
  {
  }

  lemma ReplyCalls(h: Handle, items: seq<UnsubscribeItem>, was: Subscriptions, order: seq<ChannelId>, k: nat,
                   call: SubscriptionCall)
    requires k < |items| && call in RepliesToUnsubscribe(h, items, was, order)[k].calls
    ensures call.UnsubscribeCall? && call.client == h && Names(items, k, was, call.channel)
  {
    hide FindSubscription;
    FindFound(order, was, items[k].id.value);
  }

  lemma CloseCalls(s: Server, e: Event, call: SubscriptionCall)
    requires Enabled(s, e) && e.CloseEvent?
    ensures Calls(Step(s, e).log, call)
            == Calls(s.log, call)
               + if call.UnsubscribeCall? && call.client == e.h then Subscribed01(s.clients, e.h, call.channel) else 0
  {
    hide IsOrdering, UnadvertiseCalls, UnsubscribeCalls, ForgetParameters, LeaveGraph;
    if e.h in s.clients {
      MoreCalls(s.log.calls, UnsubscribeCalls(e.h, e.subOrder), call);
      UnsubscribeCallsCount(e.h, e.subOrder, s.clients[e.h].subscriptions.Keys, call);
    }
  }

  /**
   * The unsubscribe handler is called for a subscription only by its own client's closing, once, or by
   * a message of that client that names the subscription's id.
   */
  lemma UnsubscribeCalledOnly(s: Server, e: Event, h: Handle, c: ChannelId)
    requires Enabled(s, e) && Calls(Step(s, e).log, UnsubscribeCall(h, c)) != Calls(s.log, UnsubscribeCall(h, c))
    ensures h in s.clients && c in s.clients[h].subscriptions
    ensures || (e.CloseEvent? && e.h == h
                && Calls(Step(s, e).log, UnsubscribeCall(h, c)) == Calls(s.log, UnsubscribeCall(h, c)) + 1)
            || (e.UnsubscribeEvent? && e.h == h
                && exists i :: Names(e.unsubscribeItems, i, s.clients[h].subscriptions, c))
  {
    hide IsOrdering, SubscribeNext, Unsubscribe, Close;
    if e.SubscribeNextEvent? {
      TurnCalls(s, h, c);
    } else if e.UnsubscribeEvent? {
      UnsubscribeMessageCalls(s, e, UnsubscribeCall(h, c));
    } else if e.CloseEvent? {
      CloseCalls(s, e, UnsubscribeCall(h, c));
    } else {
      OthersCallNobody(s, e);
    }
  }

  // ----- The causes logged

  /** What is logged about a call is true when it is logged. */
  ghost predicate TrueCause(s: Server, e: Event, m: Mismatch) {
    var subscribed := m.client in s.clients && m.channel in s.clients[m.client].subscriptions;
    match m.cause
    case SubscribeThrew => TurnAsksFor(s, e, m.client, m.channel) && s.batch.value.rest[0].throws
    case ClientGone => TurnAsksFor(s, e, m.client, m.channel) && !s.batch.value.rest[0].throws && m.client !in s.clients
    case AlreadySubscribed => TurnAsksFor(s, e, m.client, m.channel) && !s.batch.value.rest[0].throws && subscribed
    case ChannelRemoved =>
      subscribed && e.RemoveChannelsEndEvent? && e.removal < |s.removals| && m.channel in s.removals[e.removal]
    case UnsubscribeThrew =>
      subscribed && e.UnsubscribeEvent? && e.h == m.client &&
      exists i :: Names(e.unsubscribeItems, i, s.clients[m.client].subscriptions, m.channel)
                  && e.unsubscribeItems[i].throws
    case UnsubscribedTwice =>
      subscribed && e.UnsubscribeEvent? && e.h == m.client &&
      exists i, j :: j < i && Names(e.unsubscribeItems, i, s.clients[m.client].subscriptions, m.channel)
                     && Names(e.unsubscribeItems, j, s.clients[m.client].subscriptions, m.channel)
  }

  /** Whatever a step logs about the calls is true. */
  lemma CausesAreTrue(s: Server, e: Event) returns (more: seq<Mismatch>)
    requires Enabled(s, e)
    ensures Step(s, e).log.mismatches == s.log.mismatches + more
    ensures forall m :: m in more ==> TrueCause(s, e, m)
  {
    hide IsOrdering, SubscribeNext, Unsubscribe, RemoveChannelsEnd, TrueCause;
    if e.SubscribeNextEvent? {
      more := TurnCauses(s);
    } else if e.UnsubscribeEvent? {
      more := UnsubscribeCauses(s, e);
    } else if e.RemoveChannelsEndEvent? {
      more := RemovalCauses(s, e);
    } else {
      OthersKeepMismatches(s, e);
      more := [];
      AddNothing(s.log.mismatches);
    }
  }

  lemma TurnCauses(s: Server) returns (more: seq<Mismatch>)
    requires s.batch.Some?
    ensures SubscribeNext(s).log.mismatches == s.log.mismatches + more
    ensures forall m :: m in more ==> TrueCause(s, SubscribeNextEvent, m)
  {
    hide OnlyTold;
    if s.batch.value.rest == [] {
      EmptyBatchEnds(s);
      more := [];
      AddNothing(s.log.mismatches);
    } else {
      hide SubscribeNext;
      TurnSays(s);
      var Batch(h, was, rest) := s.batch.value;
      more := ReplyToSubscribe(h, rest[0], was, s.channels.table, h in s.clients, SubscribedBy(s, h)).mismatches;
    }
  }

  lemma UnsubscribeCauses(s: Server, e: Event) returns (more: seq<Mismatch>)
    requires Enabled(s, e) && e.UnsubscribeEvent?
    ensures Unsubscribe(s, e.h, e.order, e.unsubscribeItems).log.mismatches == s.log.mismatches + more
    ensures forall m :: m in more ==> TrueCause(s, e, m)
  {
    hide Unsubscribe, Said, OnlyTold, EndsAt, IsOrdering, ReplyToUnsubscribe, Lookup, TrueCause;
    if e.h in s.clients {
      var was := s.clients[e.h].subscriptions;
      var replies := RepliesToUnsubscribe(e.h, e.unsubscribeItems, was, e.order);
      UnsubscribeSays(s, e.h, e.order, e.unsubscribeItems);
      more := Said(replies).mismatches;
      forall m | m in more
        ensures TrueCause(s, e, m)
      {
        MismatchFrom(replies, m);
        var k :| 0 <= k < |replies| && m in replies[k].mismatches;
        ReplyCauses(s, e, k, m);
      }
    } else {
      assert Step(s, e) == s by { GoneUnsubscribe(s, e); }
      more := [];
      AddNothing(s.log.mismatches);
    }
  }

  lemma {:induction false} MismatchFrom<C>(replies: seq<Reply<C>>, m: Mismatch)
    requires m in Said(replies).mismatches
    ensures exists k :: 0 <= k < |replies| && m in replies[k].mismatches
    decreases |replies|
  {
    if m !in replies[0].mismatches {
      MismatchFrom(replies[1..], m);
      var k :| 0 <= k < |replies[1..]| && m in replies[1..][k].mismatches;
      assert m in replies[k + 1].mismatches;
    }
  }

  lemma ReplyCauses(s: Server, e: Event, k: nat, m: Mismatch)
    requires e.UnsubscribeEvent? && e.h in s.clients && k < |e.unsubscribeItems|
    requires m in RepliesToUnsubscribe(e.h, e.unsubscribeItems, s.clients[e.h].subscriptions, e.order)[k].mismatches
    ensures TrueCause(s, e, m)
  {
    hide FindSubscription;
    var items, was := e.unsubscribeItems, s.clients[e.h].subscriptions;
    FindFound(e.order, was, items[k].id.value);
    assert Names(items, k, was, m.channel);
    if m.cause == UnsubscribedTwice {
      var j :| 0 <= j < k && items[j].id == items[k].id;
      assert Names(items, j, was, m.channel);
    }
  }

  lemma RemovalCauses(s: Server, e: Event) returns (more: seq<Mismatch>)
    requires Enabled(s, e) && e.RemoveChannelsEndEvent?
    ensures RemoveChannelsEnd(s, e.removal, e.clientOrder).log.mismatches == s.log.mismatches + more
    ensures forall m :: m in more ==> TrueCause(s, e, m)
  {
    hide IsOrdering, Dropped, AllNoticed;
    more := Dropped(e.clientOrder, s.clients, s.removals[e.removal]);
    DroppedExactly(e.clientOrder, s.clients, s.removals[e.removal]);
  }

  lemma {:induction false} DroppedFromExactly(h: Handle, was: Subscriptions, ids: seq<ChannelId>)
    ensures forall m :: m in DroppedFrom(h, was, ids) ==>
              m.client == h && m.cause == ChannelRemoved && m.channel in was && m.channel in ids
    decreases |ids|
  {
    if ids != [] {
      DroppedFromExactly(h, was - {ids[0]}, ids[1..]);
    }
  }

  lemma {:induction false} DroppedExactly(order: seq<Handle>, clients: map<Handle, ClientInfo>, ids: seq<ChannelId>)
    ensures forall m :: m in Dropped(order, clients, ids) ==>
              && m.cause == ChannelRemoved && m.client in clients
              && m.channel in clients[m.client].subscriptions && m.channel in ids
    decreases |order|
  {
    if order != [] {
      DroppedExactly(order[1..], clients, ids);
      if order[0] in clients {
        DroppedFromExactly(order[0], clients[order[0]].subscriptions, ids);
      }
    }
  }
}
