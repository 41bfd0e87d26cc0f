/** How the calls of the subscribe and unsubscribe handlers pair up, over whole runs. */
module SubscriptionAccounting {
  import opened Orderings
  import opened Session
  import opened SessionFrames
  import opened SubscriptionProofs

  function Calls(log: SubscriptionLog, call: SubscriptionCall): nat {
    multiset(log.calls)[call]
  }

  predicate IsFutile(cause: Cause) {
    cause == UnsubscribeThrew || cause == UnsubscribedTwice
  }

  function Tally(ms: seq<Mismatch>, h: Handle, c: ChannelId, futile: bool): nat {
    if ms == [] then 0
    else
      var m := ms[|ms| - 1];
      Tally(ms[..|ms| - 1], h, c, futile)
      + if m.client == h && m.channel == c && IsFutile(m.cause) == futile then 1 else 0
  }

  lemma TallyOne(ms: seq<Mismatch>, m: Mismatch, h: Handle, c: ChannelId, futile: bool)
    ensures Tally(ms + [m], h, c, futile) ==
            Tally(ms, h, c, futile) + if m.client == h && m.channel == c && IsFutile(m.cause) == futile then 1 else 0
  {
    assert (ms + [m])[..|ms|] == ms;
  }

  lemma {:induction false} TallyAdd(ms: seq<Mismatch>, more: seq<Mismatch>, h: Handle, c: ChannelId, futile: bool)
    ensures Tally(ms + more, h, c, futile) == Tally(ms, h, c, futile) + Tally(more, h, c, futile)
  {
    if more == [] {
      assert ms + more == ms;
    } else {
      TallyAdd(ms, more[..|more| - 1], h, c, futile);
      assert (ms + more)[..|ms + more| - 1] == ms + more[..|more| - 1];
    }
  }

  lemma {:induction false} TallyOfOthers(ms: seq<Mismatch>, h: Handle, c: ChannelId, futile: bool)
    requires forall i :: 0 <= i < |ms| ==> ms[i].client != h || IsFutile(ms[i].cause) != futile
    ensures Tally(ms, h, c, futile) == 0
  {
    if ms != [] {
      TallyOfOthers(ms[..|ms| - 1], h, c, futile);
    }
  }

  /** Subscribe calls that no unsubscribe call answers. */
  function Unanswered(log: SubscriptionLog, h: Handle, c: ChannelId): nat {
    Tally(log.mismatches, h, c, false)
  }

  /** Unsubscribe calls that ended no subscription. */
  function Futile(log: SubscriptionLog, h: Handle, c: ChannelId): nat {
    Tally(log.mismatches, h, c, true)
  }

  function Subscribed01(clients: map<Handle, ClientInfo>, h: Handle, c: ChannelId): nat {
    if h in clients && c in clients[h].subscriptions then 1 else 0
  }

  ghost predicate BalancedFor(clients: map<Handle, ClientInfo>, log: SubscriptionLog, h: Handle, c: ChannelId) {
    Calls(log, SubscribeCall(h, c)) + Futile(log, h, c) ==
    Calls(log, UnsubscribeCall(h, c)) + Subscribed01(clients, h, c) + Unanswered(log, h, c)
  }

  ghost predicate Balanced(s: Server) {
    forall h, c :: BalancedFor(s.clients, s.log, h, c)
  }

  lemma Count1<T>(xs: seq<T>, x: T, y: T)
    ensures multiset(xs + [x])[y] == multiset(xs)[y] + if x == y then 1 else 0
  {
  }

  /** What logging a subscribe call of client `k` for channel `d` adds to the counts. */
  lemma SubscribedCounts(log: SubscriptionLog, k: Handle, d: ChannelId, causes: seq<Cause>, h: Handle, c: ChannelId)
    requires causes == [] || causes == [SubscribeThrew] || causes == [ClientGone] || causes == [AlreadySubscribed]
    ensures var now, same := Subscribed(log, k, d, causes), h == k && c == d;
            && Calls(now, SubscribeCall(h, c)) == Calls(log, SubscribeCall(h, c)) + (if same then 1 else 0)
            && Calls(now, UnsubscribeCall(h, c)) == Calls(log, UnsubscribeCall(h, c))
            && Unanswered(now, h, c) == Unanswered(log, h, c) + (if same && causes != [] then 1 else 0)
            && Futile(now, h, c) == Futile(log, h, c)
  {
    Count1(log.calls, SubscribeCall(k, d), SubscribeCall(h, c));
    Count1(log.calls, SubscribeCall(k, d), UnsubscribeCall(h, c));
    if causes == [] {
      assert log.mismatches + [] == log.mismatches;
    } else {
      var m := Mismatch(k, d, causes[0]);
      TallyOne(log.mismatches, m, h, c, false);
      TallyOne(log.mismatches, m, h, c, true);
    }
  }

  lemma SubscribeNextBalanced(s: Server, h: Handle, c: ChannelId)
    requires Balanced(s) && s.batch.Some?
    ensures BalancedFor(SubscribeNext(s).clients, SubscribeNext(s).log, h, c)
  {
    hide Told, Calls, Unanswered, Futile, Subscribed;
    var t, b := SubscribeNext(s), s.batch.value;
    assert BalancedFor(s.clients, s.log, h, c);
    if b.rest != [] && b.rest[0].channelId.Some? {
      var d := b.rest[0].channelId.value;
      SubscribedCounts(s.log, b.client, d, [], h, c);
      SubscribedCounts(s.log, b.client, d, [SubscribeThrew], h, c);
      SubscribedCounts(s.log, b.client, d, [ClientGone], h, c);
      SubscribedCounts(s.log, b.client, d, [AlreadySubscribed], h, c);
    }
  }

  /** A fold of unsubscribe items keeps the balance between its calls, mismatches and removals. */
  ghost predicate FoldBalanced(h: Handle, c: ChannelId, was: Subscriptions, u: Unsubscribing) {
    var calls, log := multiset(u.calls), SubscriptionLog(u.calls, u.mismatches);
    && (if c in was then 1 else 0) + Futile(log, h, c)
       == calls[UnsubscribeCall(h, c)] + (if c in u.subscriptions then 1 else 0)
    && (c in u.subscriptions ==> c in was)
    && Unanswered(log, h, c) == 0 && calls[SubscribeCall(h, c)] == 0
  }

  /** The calls of one client's message concern that client only. */
  ghost predicate OnlyOf(h: Handle, u: Unsubscribing) {
    && (forall i :: 0 <= i < |u.calls| ==> u.calls[i].client == h)
    && (forall i :: 0 <= i < |u.mismatches| ==> u.mismatches[i].client == h)
  }

  /** One call for channel `d`, with the channel dropped or a cause logged. */
  lemma UnsubscribedOne(h: Handle, c: ChannelId, was: Subscriptions, u: Unsubscribing, d: ChannelId,
                        causes: seq<Cause>, now: Unsubscribing)
    requires FoldBalanced(h, c, was, u) && OnlyOf(h, u)
    requires now.calls == u.calls + [UnsubscribeCall(h, d)]
    requires causes == [] || causes == [UnsubscribeThrew] || causes == [UnsubscribedTwice]
    requires causes == [] ==>
               d in u.subscriptions && now.subscriptions == u.subscriptions - {d} && now.mismatches == u.mismatches
    requires causes != [] ==>
               now.subscriptions == u.subscriptions && now.mismatches == u.mismatches + [Mismatch(h, d, causes[0])]
    ensures FoldBalanced(h, c, was, now) && OnlyOf(h, now)
  {
    Count1(u.calls, UnsubscribeCall(h, d), UnsubscribeCall(h, c));
    Count1(u.calls, UnsubscribeCall(h, d), SubscribeCall(h, c));
    if causes != [] {
      var m := Mismatch(h, d, causes[0]);
      TallyOne(u.mismatches, m, h, c, false);
      TallyOne(u.mismatches, m, h, c, true);
    }
  }

  lemma {:induction false} UnsubscribeItemsBalanced(h: Handle, c: ChannelId, snapshot: Subscriptions,
                                                    order: seq<ChannelId>,
                                                    items: seq<UnsubscribeItem>, was: Subscriptions, u: Unsubscribing)
    requires FoldBalanced(h, c, was, u) && OnlyOf(h, u)
    ensures var v := UnsubscribeItems(h, snapshot, order, items, u); FoldBalanced(h, c, was, v) && OnlyOf(h, v)
    decreases |items|
  {
    hide FoldBalanced, OnlyOf, FindSubscription;
    if items != [] && items[0].id.Some? {
      match FindSubscription(order, snapshot, items[0].id.value) {
        case None =>
          StatusesDoNotCount(h, c, was, u, Warning);
          UnsubscribeItemsBalanced(h, c, snapshot, order, items[1..], was, u.(statuses := u.statuses + [Warning]));
        case Some(d) =>
          var called := u.(calls := u.calls + [UnsubscribeCall(h, d)]);
          if items[0].throws {
            UnsubscribedOne(h, c, was, u, d, [UnsubscribeThrew], UnsubscribeItems(h, snapshot, order, items, u));
          } else if d !in u.subscriptions {
            var v := called.(mismatches := u.mismatches + [Mismatch(h, d, UnsubscribedTwice)]);
            UnsubscribedOne(h, c, was, u, d, [UnsubscribedTwice], v);
            UnsubscribeItemsBalanced(h, c, snapshot, order, items[1..], was, v);
          } else {
            var v := called.(subscriptions := u.subscriptions - {d});
            UnsubscribedOne(h, c, was, u, d, [], v);
            UnsubscribeItemsBalanced(h, c, snapshot, order, items[1..], was, v);
          }
      }
    } else if items != [] {
      StatusesDoNotCount(h, c, was, u, Error);
    }
  }

  lemma StatusesDoNotCount(h: Handle, c: ChannelId, was: Subscriptions, u: Unsubscribing, level: Level)
    requires FoldBalanced(h, c, was, u) && OnlyOf(h, u)
    ensures var v := u.(statuses := u.statuses + [level]); FoldBalanced(h, c, was, v) && OnlyOf(h, v)
  {
  }

  /** The counts of two logs one after the other add up. */
  lemma CountsAdd(log: SubscriptionLog, more: SubscriptionLog, h: Handle, c: ChannelId)
    ensures var all := SubscriptionLog(log.calls + more.calls, log.mismatches + more.mismatches);
            && Calls(all, SubscribeCall(h, c)) == Calls(log, SubscribeCall(h, c)) + Calls(more, SubscribeCall(h, c))
            && Calls(all, UnsubscribeCall(h, c))
               == Calls(log, UnsubscribeCall(h, c)) + Calls(more, UnsubscribeCall(h, c))
            && Unanswered(all, h, c) == Unanswered(log, h, c) + Unanswered(more, h, c)
            && Futile(all, h, c) == Futile(log, h, c) + Futile(more, h, c)
  {
    assert multiset(log.calls + more.calls) == multiset(log.calls) + multiset(more.calls);
    TallyAdd(log.mismatches, more.mismatches, h, c, false);
    TallyAdd(log.mismatches, more.mismatches, h, c, true);
  }

  /** A log that concerns one client counts nothing for another. */
  lemma CountsOfOthers(k: Handle, u: Unsubscribing, h: Handle, c: ChannelId)
    requires OnlyOf(k, u) && h != k
    ensures var log := SubscriptionLog(u.calls, u.mismatches);
            && Calls(log, SubscribeCall(h, c)) == 0 && Calls(log, UnsubscribeCall(h, c)) == 0
            && Unanswered(log, h, c) == 0 && Futile(log, h, c) == 0
  {
    assert forall call :: call in multiset(u.calls) ==> call in u.calls;
    TallyOfOthers(u.mismatches, h, c, false);
    TallyOfOthers(u.mismatches, h, c, true);
  }

  lemma UnsubscribeBalanced(s: Server, e: Event, h: Handle, c: ChannelId)
    requires Balanced(s) && e.UnsubscribeEvent?
    ensures var t := Unsubscribe(s, e.h, e.order, e.unsubscribeItems); BalancedFor(t.clients, t.log, h, c)
  {
    hide UnsubscribeItems, Told, Unanswered, Futile, OnlyOf;
    assert BalancedFor(s.clients, s.log, h, c);
    if e.h in s.clients {
      var m := s.clients[e.h].subscriptions;
      var u := Unsubscribing(m, [], [], []);
      var v := UnsubscribeItems(e.h, m, e.order, e.unsubscribeItems, u);
      NothingYet(e.h, c, m);
      UnsubscribeItemsBalanced(e.h, c, m, e.order, e.unsubscribeItems, m, u);
      CountsAdd(s.log, SubscriptionLog(v.calls, v.mismatches), h, c);
      if h != e.h {
        CountsOfOthers(e.h, v, h, c);
      }
    }
  }

  lemma NothingYet(h: Handle, c: ChannelId, m: Subscriptions)
    ensures FoldBalanced(h, c, m, Unsubscribing(m, [], [], [])) && OnlyOf(h, Unsubscribing(m, [], [], []))
  {
  }

  lemma {:induction false} UnsubscribeCallsCount(h: Handle, order: seq<ChannelId>, keys: set<ChannelId>,
                                                 call: SubscriptionCall)
    requires IsOrdering(order, keys)
    ensures multiset(UnsubscribeCalls(h, order))[call] ==
            if call.UnsubscribeCall? && call.client == h && call.channel in keys then 1 else 0
    decreases |order|
  {
    if order != [] {
      OrderingTail(order, keys);
      UnsubscribeCallsCount(h, order[1..], keys - {order[0]}, call);
      assert multiset(UnsubscribeCalls(h, order))
        == multiset{UnsubscribeCall(h, order[0])} + multiset(UnsubscribeCalls(h, order[1..]));
    }
  }

  lemma CloseBalanced(s: Server, e: Event, h: Handle, c: ChannelId)
    requires Balanced(s) && e.CloseEvent? && Enabled(s, e)
    ensures var t := Close(s, e.h, e.adOrder, e.subOrder); BalancedFor(t.clients, t.log, h, c)
  {
    hide IsOrdering, UnadvertiseCalls, UnsubscribeCalls, ForgetParameters, LeaveGraph;
    assert BalancedFor(s.clients, s.log, h, c);
    if e.h in s.clients {
      var keys := s.clients[e.h].subscriptions.Keys;
      var calls := UnsubscribeCalls(e.h, e.subOrder);
      assert multiset(s.log.calls + calls) == multiset(s.log.calls) + multiset(calls);
      UnsubscribeCallsCount(e.h, e.subOrder, keys, UnsubscribeCall(h, c));
      UnsubscribeCallsCount(e.h, e.subOrder, keys, SubscribeCall(h, c));
    }
  }

  lemma {:induction false} DroppedFromTally(k: Handle, m: Subscriptions, ids: seq<ChannelId>, h: Handle, c: ChannelId)
    ensures Tally(DroppedFrom(k, m, ids), h, c, false) == if k == h && c in m && c in ids then 1 else 0
    decreases |ids|
  {
    if ids != [] {
      DroppedFromTally(k, m - {ids[0]}, ids[1..], h, c);
      assert c in ids <==> c == ids[0] || c in ids[1..];
      var front := if ids[0] in m then [Mismatch(k, ids[0], ChannelRemoved)] else [];
      TallyAdd(front, DroppedFrom(k, m - {ids[0]}, ids[1..]), h, c, false);
      TallyOne([], Mismatch(k, ids[0], ChannelRemoved), h, c, false);
      assert [] + [Mismatch(k, ids[0], ChannelRemoved)] == [Mismatch(k, ids[0], ChannelRemoved)];
    }
  }

  lemma {:induction false} DroppedTally(order: seq<Handle>, keys: set<Handle>, clients: map<Handle, ClientInfo>,
                                        ids: seq<ChannelId>,
                                        h: Handle, c: ChannelId)
    requires IsOrdering(order, keys) && keys <= clients.Keys
    ensures Tally(Dropped(order, clients, ids), h, c, false) ==
            if h in keys && c in clients[h].subscriptions && c in ids then 1 else 0
    decreases |order|
  {
    if order != [] {
      OrderingTail(order, keys);
      DroppedTally(order[1..], keys - {order[0]}, clients, ids, h, c);
      DroppedFromTally(order[0], clients[order[0]].subscriptions, ids, h, c);
      TallyAdd(DroppedFrom(order[0], clients[order[0]].subscriptions, ids), Dropped(order[1..], clients, ids), h, c,
               false);
    }
  }

  lemma {:induction false} DroppedCauses(order: seq<Handle>, clients: map<Handle, ClientInfo>, ids: seq<ChannelId>)
    ensures forall m :: m in Dropped(order, clients, ids) ==> m.cause == ChannelRemoved
    decreases |order|
  {
    if order != [] {
      DroppedCauses(order[1..], clients, ids);
      if order[0] in clients {
        DroppedFromCauses(order[0], clients[order[0]].subscriptions, ids);
      }
    }
  }

  lemma {:induction false} DroppedFromCauses(h: Handle, m: Subscriptions, ids: seq<ChannelId>)
    ensures forall x :: x in DroppedFrom(h, m, ids) ==> x.cause == ChannelRemoved
    decreases |ids|
  {
    if ids != [] {
      DroppedFromCauses(h, m - {ids[0]}, ids[1..]);
    }
  }

  lemma RemoveBalanced(s: Server, e: Event, h: Handle, c: ChannelId)
    requires Balanced(s) && e.RemoveChannelsEndEvent? && Enabled(s, e)
    ensures var t := RemoveChannelsEnd(s, e.removal, e.clientOrder); BalancedFor(t.clients, t.log, h, c)
  {
    hide IsOrdering, Dropped, AllNoticed, Tally;
    var ids := s.removals[e.removal];
    var dropped := Dropped(e.clientOrder, s.clients, ids);
    assert BalancedFor(s.clients, s.log, h, c);
    TallyAdd(s.log.mismatches, dropped, h, c, false);
    TallyAdd(s.log.mismatches, dropped, h, c, true);
    DroppedTally(e.clientOrder, s.clients.Keys, s.clients, ids, h, c);
    DroppedCauses(e.clientOrder, s.clients, ids);
    assert forall i :: 0 <= i < |dropped| ==> dropped[i] in dropped;
    TallyOfOthers(dropped, h, c, true);
  }

  lemma StepBalanced(s: Server, e: Event, h: Handle, c: ChannelId)
    requires Balanced(s) && Enabled(s, e)
    ensures BalancedFor(Step(s, e).clients, Step(s, e).log, h, c)
  {
    hide IsOrdering, BalancedFor, SubscribeNext, Unsubscribe, Close, RemoveChannelsEnd;
    if e.SubscribeStartEvent? || !TouchesSubscriptions(e) {
      hide Step;
      StepFrame(s, e);
      if !e.SubscribeStartEvent? {
        OthersKeepSubscriptions(s, e, Step(s, e));
      }
      SameBalanced(s, Step(s, e), h, c);
    } else {
      match e
      case OpenEvent(_, _, _) => OpenBalanced(s, e, h, c);
      case CloseEvent(_, _, _) => CloseBalanced(s, e, h, c);
      case SubscribeNextEvent => SubscribeNextBalanced(s, h, c);
      case UnsubscribeEvent(_, _, _) => UnsubscribeBalanced(s, e, h, c);
      case RemoveChannelsEndEvent(_, _) => RemoveBalanced(s, e, h, c);
    }
  }

  lemma SameBalanced(s: Server, t: Server, h: Handle, c: ChannelId)
    requires Balanced(s) && t.log == s.log && t.clients.Keys == s.clients.Keys
    requires forall k :: k in s.clients ==> t.clients[k].subscriptions == s.clients[k].subscriptions
    ensures BalancedFor(t.clients, t.log, h, c)
  {
    assert BalancedFor(s.clients, s.log, h, c);
  }

  lemma OpenBalanced(s: Server, e: Event, h: Handle, c: ChannelId)
    requires Balanced(s) && e.OpenEvent? && Enabled(s, e)
    ensures var t := Open(s, e.h, e.channelOrder, e.serviceOrder); BalancedFor(t.clients, t.log, h, c)
  {
    hide Listing;
    assert BalancedFor(s.clients, s.log, h, c);
  }

  /**
   * For every client and channel, over every run: the subscribe calls and the futile unsubscribe
   * calls together are the unsubscribe calls, plus one if subscribed now, plus the subscribe calls
   * left unanswered. Nothing else ever goes missing between the two handlers.
   */
  lemma CallsBalance(options: Options, events: seq<Event>, s: Server, h: Handle, c: ChannelId)
    requires Runs(Anything, Init(options), events, s)
    ensures Calls(s.log, SubscribeCall(h, c)) + Futile(s.log, h, c) ==
            Calls(s.log, UnsubscribeCall(h, c)) + Subscribed01(s.clients, h, c) + Unanswered(s.log, h, c)
  {
    forall s, e | Balanced(s) && Enabled(s, e) && Anything(s, e)
      ensures Balanced(Step(s, e))
    {
      forall h, c
        ensures BalancedFor(Step(s, e).clients, Step(s, e).log, h, c)
      {
        StepBalanced(s, e, h, c);
      }
    }
    Invariant(Balanced, Anything, Init(options), events, s);
    assert BalancedFor(s.clients, s.log, h, c);
  }

  /** So the bound one would expect holds exactly while futile calls do not outnumber unanswered ones. */
  lemma BoundExactly(options: Options, events: seq<Event>, s: Server, h: Handle, c: ChannelId)
    requires Runs(Anything, Init(options), events, s)
    ensures Bounded(s, h, c) <==> Futile(s.log, h, c) <= Unanswered(s.log, h, c)
  {
    CallsBalance(options, events, s, h, c);
  }

  /** The unsubscribe calls, plus one if subscribed, are no more than the subscribe calls. */
  predicate Bounded(s: Server, h: Handle, c: ChannelId) {
    Calls(s.log, UnsubscribeCall(h, c)) + Subscribed01(s.clients, h, c) <= Calls(s.log, SubscribeCall(h, c))
  }

  // ----- Looking a subscription up

  lemma {:induction false} FindFound(order: seq<ChannelId>, m: Subscriptions, id: SubscriptionId)
    ensures FindSubscription(order, m, id).Some? ==>
              var c := FindSubscription(order, m, id).value; c in order && c in m && m[c] == id
    ensures FindSubscription(order, m, id).None? ==> forall c :: c in order && c in m ==> m[c] != id
  {
    if order != [] {
      FindFound(order[1..], m, id);
      assert forall c :: c in order <==> c == order[0] || c in order[1..];
    }
  }
}
