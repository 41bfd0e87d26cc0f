/** What runs of the server keep true of the clients' channel subscriptions. */
module SubscriptionProofs {
  import opened Wrappers
  import opened Orderings
  import opened Session
  import opened SessionFrames

  type Subscriptions = map<ChannelId, SubscriptionId>

  predicate TouchesSubscriptions(e: Event) {
    || e.OpenEvent? || e.CloseEvent? || e.SubscribeStartEvent? || e.SubscribeNextEvent? || e.UnsubscribeEvent?
    || e.RemoveChannelsEndEvent?
  }

  /** What the proofs below speak of is the same in both states. */
  ghost predicate SameSubscriptions(s: Server, t: Server) {
    && t.clients.Keys == s.clients.Keys
    && (forall h :: h in s.clients ==> t.clients[h].subscriptions == s.clients[h].subscriptions)
    && t.batch == s.batch
    && t.log == s.log
  }

  lemma OthersKeepSubscriptions(s: Server, e: Event, t: Server)
    requires Framed(s, e, t) && !TouchesSubscriptions(e)
    ensures SameSubscriptions(s, t)
  {
    assert t.batch == s.batch && t.log == s.log;
    if e.AdvertiseEvent? || e.UnadvertiseEvent? {
      assert OnlyAdvertised(s, t);
    } else if e.SubscribeGraphEvent? || e.UnsubscribeGraphEvent? {
      assert OnlyFlags(s, t);
    } else {
      assert t.clients == s.clients;
    }
  }

  // ----- Distinct channels have distinct subscription ids

  ghost predicate Injective(m: Subscriptions) {
    forall c, d :: c in m && d in m && m[c] == m[d] ==> c == d
  }

  /** The ids listed in a subscribe message are pairwise distinct. */
  ghost predicate DistinctIds(items: seq<SubscribeItem>) {
    forall i, j :: 0 <= i < j < |items| && items[i].id.Some? && items[j].id.Some? ==> items[i].id != items[j].id
  }

  /** What a subscribe message still has to add clashes with nothing added since its snapshot. */
  ghost predicate BatchClear(s: Server) {
    s.batch.Some? ==>
      var b := s.batch.value;
      && DistinctIds(b.rest)
      && (b.client in s.clients ==>
            forall c, i :: c in s.clients[b.client].subscriptions && 0 <= i < |b.rest| ==>
              || s.clients[b.client].subscriptions[c] in b.snapshot.Values
              || b.rest[i].id != Some(s.clients[b.client].subscriptions[c]))
  }

  ghost predicate AllInjective(s: Server) {
    && (forall h :: h in s.clients ==> Injective(s.clients[h].subscriptions))
    && BatchClear(s)
  }

  ghost predicate SendsDistinctIds(s: Server, e: Event) {
    e.SubscribeStartEvent? ==> DistinctIds(e.subscribeItems)
  }

  ghost predicate SubMap(m: Subscriptions, n: Subscriptions) {
    forall c :: c in m ==> c in n && m[c] == n[c]
  }

  /** Dropping subscriptions keeps the invariant. */
  lemma FewerStayInjective(s: Server, t: Server)
    requires AllInjective(s) && (t.batch == s.batch || t.batch == None) && t.clients.Keys <= s.clients.Keys
    requires forall h :: h in t.clients ==> SubMap(t.clients[h].subscriptions, s.clients[h].subscriptions)
    ensures AllInjective(t)
  {
  }

  lemma {:induction false} UnsubscribeItemsRemove(h: Handle, snapshot: Subscriptions, order: seq<ChannelId>,
                                                  items: seq<UnsubscribeItem>, u: Unsubscribing)
    ensures SubMap(UnsubscribeItems(h, snapshot, order, items, u).subscriptions, u.subscriptions)
    decreases |items|
  {
    if items != [] && items[0].id.Some? {
      match FindSubscription(order, snapshot, items[0].id.value) {
        case None =>
          UnsubscribeItemsRemove(h, snapshot, order, items[1..], u.(statuses := u.statuses + [Warning]));
        case Some(c) =>
          var called := u.(calls := u.calls + [UnsubscribeCall(h, c)]);
          if !items[0].throws {
            if c !in u.subscriptions {
              UnsubscribeItemsRemove(h, snapshot, order, items[1..],
                                     called.(mismatches := u.mismatches + [Mismatch(h, c, UnsubscribedTwice)]));
            } else {
              UnsubscribeItemsRemove(h, snapshot, order, items[1..], called.(subscriptions := u.subscriptions - {c}));
            }
          }
      }
    }
  }

  lemma SubscribeNextInjective(s: Server)
    requires AllInjective(s) && s.batch.Some?
    ensures AllInjective(SubscribeNext(s))
  {
    hide Told, Subscribed;
    var t, b := SubscribeNext(s), s.batch.value;
    if t.clients == s.clients {
      FewerToCome(s, t);
    } else {
      AddedInjective(s, t, b.rest[0].id.value, b.rest[0].channelId.value);
    }
  }

  /** A turn that adds nothing. */
  lemma FewerToCome(s: Server, t: Server)
    requires AllInjective(s) && s.batch.Some? && t.clients == s.clients
    requires t.batch.Some? ==>
               s.batch.value.rest != [] && t.batch.value == s.batch.value.(rest := s.batch.value.rest[1..])
    ensures AllInjective(t)
  {
    if t.batch.Some? {
      var rest := s.batch.value.rest;
      assert forall i :: 0 <= i < |rest[1..]| ==> rest[1..][i] == rest[i + 1];
    }
  }

  /** A turn that subscribes a channel under an id that is in neither the snapshot nor the rest. */
  lemma AddedInjective(s: Server, t: Server, id: SubscriptionId, c: ChannelId)
    requires AllInjective(s) && s.batch.Some? && s.batch.value.rest != []
    requires var b := s.batch.value;
             && b.rest[0].id == Some(id) && id !in b.snapshot.Values && b.client in s.clients
             && t.batch == Some(b.(rest := b.rest[1..]))
             && var info := s.clients[b.client];
                t.clients == s.clients[b.client := info.(subscriptions := info.subscriptions[c := id])]
    ensures AllInjective(t)
  {
    var b := s.batch.value;
    var m := s.clients[b.client].subscriptions;
    forall d | d in m
      ensures m[d] != id
    {
      assert m[d] in b.snapshot.Values || b.rest[0].id != Some(m[d]);
    }
    assert Injective(m[c := id]);
    assert forall i :: 0 <= i < |b.rest[1..]| ==> b.rest[1..][i] == b.rest[i + 1];
  }

  lemma StepInjective(s: Server, e: Event)
    requires AllInjective(s) && Enabled(s, e) && SendsDistinctIds(s, e)
    ensures AllInjective(Step(s, e))
  {
    hide IsOrdering, AllInjective, SubscribeNext;
    if !TouchesSubscriptions(e) {
      hide Step;
      StepFrame(s, e);
      OthersKeepSubscriptions(s, e, Step(s, e));
      SameInjective(s, Step(s, e));
    } else {
      match e
      case OpenEvent(_, _, _) => OpenInjective(s, e);
      case CloseEvent(_, _, _) => CloseInjective(s, e);
      case SubscribeStartEvent(_, _) => StartInjective(s, e);
      case SubscribeNextEvent => SubscribeNextInjective(s);
      case UnsubscribeEvent(_, _, _) => UnsubscribeInjective(s, e);
      case RemoveChannelsEndEvent(_, _) => RemoveInjective(s, e);
    }
  }

  lemma SameInjective(s: Server, t: Server)
    requires AllInjective(s) && SameSubscriptions(s, t)
    ensures AllInjective(t)
  {
  }

  lemma OpenInjective(s: Server, e: Event)
    requires AllInjective(s) && e.OpenEvent? && Enabled(s, e)
    ensures AllInjective(Open(s, e.h, e.channelOrder, e.serviceOrder))
  {
    hide Listing, IsOrdering;
  }

  lemma CloseInjective(s: Server, e: Event)
    requires AllInjective(s) && e.CloseEvent?
    ensures AllInjective(Close(s, e.h, e.adOrder, e.subOrder))
  {
    hide UnadvertiseCalls, UnsubscribeCalls, ForgetParameters, LeaveGraph;
    FewerStayInjective(s, Close(s, e.h, e.adOrder, e.subOrder));
  }

  lemma StartInjective(s: Server, e: Event)
    requires AllInjective(s) && e.SubscribeStartEvent? && DistinctIds(e.subscribeItems)
    ensures AllInjective(SubscribeStart(s, e.h, e.subscribeItems))
  {
    if e.h in s.clients {
      var m := s.clients[e.h].subscriptions;
      assert forall c :: c in m ==> m[c] in m.Values;
    }
  }

  lemma UnsubscribeInjective(s: Server, e: Event)
    requires AllInjective(s) && e.UnsubscribeEvent?
    ensures AllInjective(Unsubscribe(s, e.h, e.order, e.unsubscribeItems))
  {
    hide UnsubscribeItems, Told;
    if e.h in s.clients {
      var m := s.clients[e.h].subscriptions;
      UnsubscribeItemsRemove(e.h, m, e.order, e.unsubscribeItems, Unsubscribing(m, [], [], []));
      FewerStayInjective(s, Unsubscribe(s, e.h, e.order, e.unsubscribeItems));
    }
  }

  lemma RemoveInjective(s: Server, e: Event)
    requires AllInjective(s) && e.RemoveChannelsEndEvent? && e.removal < |s.removals|
    ensures AllInjective(RemoveChannelsEnd(s, e.removal, e.clientOrder))
  {
    hide Dropped, AllNoticed;
    FewerStayInjective(s, RemoveChannelsEnd(s, e.removal, e.clientOrder));
  }

  /**
   * If no subscribe message repeats an id, then after every run, also between two turns of a
   * subscribe loop, each client's subscription ids tell its channels apart.
   */
  lemma SubscriptionIdsAreDistinct(options: Options, events: seq<Event>, s: Server)
    requires Runs(SendsDistinctIds, Init(options), events, s)
    ensures forall h :: h in s.clients ==> Injective(s.clients[h].subscriptions)
  {
    forall s, e | AllInjective(s) && Enabled(s, e) && SendsDistinctIds(s, e)
      ensures AllInjective(Step(s, e))
    {
      StepInjective(s, e);
    }
    Invariant(AllInjective, SendsDistinctIds, Init(options), events, s);
  }

  /**
   * The assumption is needed: the loop tests each id against a snapshot from before the message, so
   * a message that lists one new id for two channels subscribes both under it.
   */
  lemma RepeatedIdCollides(s: Server, h: Handle, id: SubscriptionId, c: ChannelId, d: ChannelId)
    requires h in s.clients && s.batch.None? && c != d && c in s.channels.table && d in s.channels.table
    requires s.clients[h].subscriptions == map[]
    ensures var items := [SubscribeItem(Some(id), Some(c), false), SubscribeItem(Some(id), Some(d), false)];
            var t := SubscribeNext(SubscribeNext(SubscribeStart(s, h, items)));
            t.clients[h].subscriptions == map[c := id, d := id]
  {
    hide Subscribed, Told;
    var items := [SubscribeItem(Some(id), Some(c), false), SubscribeItem(Some(id), Some(d), false)];
    var s1 := SubscribeStart(s, h, items);
    assert s1.batch == Some(Batch(h, map[], items));
    var s2 := SubscribeNext(s1);
    assert s2.batch == Some(Batch(h, map[], items[1..])) && s2.clients[h].subscriptions == map[c := id];
  }

  // ----- Subscriptions name live channels, up to the removals in flight

  /** A call of removeChannels that names `c` is between its two locks. */
  ghost predicate BeingRemoved(s: Server, c: ChannelId) {
    exists i :: 0 <= i < |s.removals| && c in s.removals[i]
  }

  ghost predicate Live(s: Server) {
    forall h, c :: h in s.clients && c in s.clients[h].subscriptions ==> c in s.channels.table || BeingRemoved(s, c)
  }

  lemma StepLive(s: Server, e: Event)
    requires Live(s) && Enabled(s, e)
    ensures Live(Step(s, e))
  {
    hide IsOrdering, Live, BeingRemoved, SubscribeNext, Unsubscribe, RemoveChannelsBegin, RemoveChannelsEnd,
      AddChannels;
    if (e.SubscribeStartEvent? || !TouchesSubscriptions(e)) && !e.AddChannelsEvent? && !e.RemoveChannelsBeginEvent? {
      hide Step;
      StepFrame(s, e);
      OthersLive(s, e, Step(s, e));
    } else {
      match e
      case OpenEvent(_, _, _) => OpenLive(s, e);
      case CloseEvent(_, _, _) => CloseLive(s, e);
      case SubscribeNextEvent => SubscribeNextLive(s);
      case UnsubscribeEvent(_, _, _) => UnsubscribeLive(s, e);
      case AddChannelsEvent(_) => AddLive(s, e);
      case RemoveChannelsBeginEvent(_) => RemoveBeginLive(s, e);
      case RemoveChannelsEndEvent(_, _) => RemoveEndLive(s, e);
    }
  }

  lemma OthersLive(s: Server, e: Event, t: Server)
    requires Live(s) && Framed(s, e, t)
    requires e.SubscribeStartEvent? || !TouchesSubscriptions(e)
    requires !e.AddChannelsEvent? && !e.RemoveChannelsBeginEvent?
    ensures Live(t)
  {
    assert t.channels == s.channels && t.removals == s.removals;
    assert t.clients.Keys == s.clients.Keys;
    assert forall h :: h in s.clients ==> t.clients[h].subscriptions == s.clients[h].subscriptions;
    assert forall c :: BeingRemoved(s, c) ==> BeingRemoved(t, c);
  }

  lemma FewerStayLive(s: Server, t: Server)
    requires Live(s) && t.channels == s.channels && t.removals == s.removals && t.clients.Keys <= s.clients.Keys
    requires forall h :: h in t.clients ==> SubMap(t.clients[h].subscriptions, s.clients[h].subscriptions)
    ensures Live(t)
  {
    assert forall c :: BeingRemoved(s, c) ==> BeingRemoved(t, c);
  }

  lemma OpenLive(s: Server, e: Event)
    requires Live(s) && e.OpenEvent? && Enabled(s, e)
    ensures Live(Open(s, e.h, e.channelOrder, e.serviceOrder))
  {
    hide Listing;
    var t := Open(s, e.h, e.channelOrder, e.serviceOrder);
    assert forall c :: BeingRemoved(s, c) ==> BeingRemoved(t, c);
  }

  lemma CloseLive(s: Server, e: Event)
    requires Live(s) && e.CloseEvent?
    ensures Live(Close(s, e.h, e.adOrder, e.subOrder))
  {
    hide UnadvertiseCalls, UnsubscribeCalls, ForgetParameters, LeaveGraph;
    FewerStayLive(s, Close(s, e.h, e.adOrder, e.subOrder));
  }

  lemma SubscribeNextLive(s: Server)
    requires Live(s) && s.batch.Some?
    ensures Live(SubscribeNext(s))
  {
    hide Told, Subscribed;
    var t := SubscribeNext(s);
    assert t.channels == s.channels && t.removals == s.removals;
    assert forall c :: BeingRemoved(s, c) ==> BeingRemoved(t, c);
  }

  lemma UnsubscribeLive(s: Server, e: Event)
    requires Live(s) && e.UnsubscribeEvent?
    ensures Live(Unsubscribe(s, e.h, e.order, e.unsubscribeItems))
  {
    hide UnsubscribeItems, Told;
    if e.h in s.clients {
      var m := s.clients[e.h].subscriptions;
      UnsubscribeItemsRemove(e.h, m, e.order, e.unsubscribeItems, Unsubscribing(m, [], [], []));
      FewerStayLive(s, Unsubscribe(s, e.h, e.order, e.unsubscribeItems));
    }
  }

  lemma {:induction false} AddAllKeeps<T>(infos: seq<T>, a: Adding<T>)
    ensures a.catalogue.table.Keys <= AddAll(infos, a).catalogue.table.Keys
    decreases |infos|
  {
    if infos != [] {
      AddAllKeeps(infos[1..], AddOne(infos[0], a));
    }
  }

  lemma AddLive(s: Server, e: Event)
    requires Live(s) && e.AddChannelsEvent?
    ensures Live(AddChannels(s, e.channels))
  {
    hide AddAll, AllNoticed;
    AddAllKeeps(e.channels, Adding(s.channels, []));
    var t := AddChannels(s, e.channels);
    assert forall c :: BeingRemoved(s, c) ==> BeingRemoved(t, c);
  }

  lemma RemoveBeginLive(s: Server, e: Event)
    requires Live(s) && e.RemoveChannelsBeginEvent?
    ensures Live(RemoveChannelsBegin(s, e.ids))
  {
    var t := RemoveChannelsBegin(s, e.ids);
    forall c | BeingRemoved(s, c)
      ensures BeingRemoved(t, c)
    {
      var i :| 0 <= i < |s.removals| && c in s.removals[i];
      assert t.removals[i] == s.removals[i];
    }
    if e.ids != [] {
      assert t.removals[|s.removals|] == e.ids;
      assert forall c :: c in e.ids ==> BeingRemoved(t, c);
    }
  }

  lemma RemoveEndLive(s: Server, e: Event)
    requires Live(s) && e.RemoveChannelsEndEvent? && e.removal < |s.removals|
    ensures Live(RemoveChannelsEnd(s, e.removal, e.clientOrder))
  {
    hide Dropped, AllNoticed;
    var t, ids := RemoveChannelsEnd(s, e.removal, e.clientOrder), s.removals[e.removal];
    forall c | BeingRemoved(s, c) && c !in ids
      ensures BeingRemoved(t, c)
    {
      var i :| 0 <= i < |s.removals| && c in s.removals[i];
      assert s.removals[i] == t.removals[if i < e.removal then i else i - 1];
    }
  }

  /**
   * After every run, with any number of removals between their locks, a subscribed channel exists
   * or is being removed; with none in flight, every subscription names a live channel.
   */
  lemma SubscriptionsAreLive(options: Options, events: seq<Event>, s: Server, h: Handle, c: ChannelId)
    requires Runs(Anything, Init(options), events, s)
    requires h in s.clients && c in s.clients[h].subscriptions
    ensures c in s.channels.table || BeingRemoved(s, c)
    ensures s.removals == [] ==> c in s.channels.table
  {
    forall s, e | Live(s) && Enabled(s, e) && Anything(s, e)
      ensures Live(Step(s, e))
    {
      StepLive(s, e);
    }
    Invariant(Live, Anything, Init(options), events, s);
  }
}
