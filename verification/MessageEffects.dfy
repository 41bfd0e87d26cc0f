/** What a message of a client that goes through without a throw achieves, exactly. */
module MessageEffects {
  import opened Wrappers
  import opened Orderings
  import opened Session
  import opened SubscriptionProofs
  import opened SubscriptionAccounting
  import opened SubscriptionRoundTrip

  function Lookup<K, V>(m: map<K, V>, k: K): Option<V> {
    if k in m then Some(m[k]) else None
  }

  // ----- Subscribe and unsubscribe

  /** What one item asks for: it ends the message, is turned down, or subscribes a channel under an id. */
  datatype Asked = Ends | Nothing | Subscribes(channel: ChannelId, id: SubscriptionId)

  function AskedBy(item: SubscribeItem, was: Subscriptions, channels: map<ChannelId, ChannelInfo>): Asked {
    if item.id.None? || item.channelId.None? then Ends
    else if item.id.value in was.Values || item.channelId.value !in channels then Nothing
    else if item.throws then Ends
    else Subscribes(item.channelId.value, item.id.value)
  }

  /** The id a message gives a channel: that of the first item it gets to that subscribes the channel. */
  function Granted(items: seq<SubscribeItem>, was: Subscriptions, channels: map<ChannelId, ChannelInfo>, c: ChannelId)
    : Option<SubscriptionId>
  {
    if items == [] then None
    else
      var asked := AskedBy(items[0], was, channels);
      if asked.Ends? then None
      else if asked.Subscribes? && asked.channel == c then Some(asked.id)
      else Granted(items[1..], was, channels, c)
  }

  lemma NextGrants(s: Server, h: Handle, was: Subscriptions, rest: seq<SubscribeItem>, c: ChannelId)
    requires s.batch == Some(Batch(h, was, rest)) && h in s.clients && rest != []
    ensures var t, m, asked := SubscribeNext(s), s.clients[h].subscriptions, AskedBy(rest[0], was, s.channels.table);
            && h in t.clients && t.channels == s.channels
            && t.batch == (if asked.Ends? then None else Some(Batch(h, was, rest[1..])))
            && Lookup(t.clients[h].subscriptions, c) ==
                 if c in m then Some(m[c])
                 else if asked.Subscribes? && asked.channel == c then Some(asked.id)
                 else None
  {
    hide Told, Subscribed;
  }

  lemma {:induction false} BatchGrants(s: Server, h: Handle, was: Subscriptions, rest: seq<SubscribeItem>, c: ChannelId)
    requires s.batch == Some(Batch(h, was, rest)) && h in s.clients
    ensures var t, m := RunBatch(s), s.clients[h].subscriptions;
            && h in t.clients
            && Lookup(t.clients[h].subscriptions, c)
               == if c in m then Some(m[c]) else Granted(rest, was, s.channels.table, c)
    decreases |rest|
  {
    hide SubscribeNext, AskedBy;
    if rest == [] {
      assert RunBatch(s) == RunBatch(s.(batch := None)) == s.(batch := None) by { EmptyBatchEnds(s); }
    } else {
      NextGrants(s, h, was, rest, c);
      var t := SubscribeNext(s);
      if t.batch.None? {
        assert RunBatch(s) == RunBatch(t) == t;
      } else {
        BatchGrants(t, h, was, rest[1..], c);
      }
    }
  }

  lemma EmptyBatchEnds(s: Server)
    requires s.batch.Some? && s.batch.value.rest == []
    ensures SubscribeNext(s) == s.(batch := None)
  {
  }

  /**
   * A subscribe message, well-formed or not, leaves the subscriptions a client had and gives every
   * other channel the id of the first item it gets to for it, if the channel exists and the id was
   * not in use.
   */
  lemma SubscribeExact(s: Server, h: Handle, items: seq<SubscribeItem>, c: ChannelId)
    requires h in s.clients && s.batch.None?
    ensures var t, was := Subscribe(s, h, items), s.clients[h].subscriptions;
            && h in t.clients
            && Lookup(t.clients[h].subscriptions, c)
               == if c in was then Some(was[c]) else Granted(items, was, s.channels.table, c)
  {
    BatchGrants(SubscribeStart(s, h, items), h, s.clients[h].subscriptions, items, c);
  }

  /** The message grants no id to two channels that were not subscribed. */
  ghost predicate GrantsDistinctIds(items: seq<SubscribeItem>, was: Subscriptions,
                                    channels: map<ChannelId, ChannelInfo>)
  {
    forall c, d :: c !in was && d !in was && c != d && Granted(items, was, channels, c).Some? ==>
      Granted(items, was, channels, c) != Granted(items, was, channels, d)
  }

  /**
   * A subscribe message keeps a client's subscription ids distinct exactly if it grants no id twice:
   * repeating an id does no harm for a channel that is missing, subscribed already or granted before.
   */
  lemma SubscribeKeepsIdsDistinctExactly(s: Server, h: Handle, items: seq<SubscribeItem>)
    requires h in s.clients && s.batch.None? && Injective(s.clients[h].subscriptions)
    ensures h in Subscribe(s, h, items).clients
    ensures Injective(Subscribe(s, h, items).clients[h].subscriptions)
            <==> GrantsDistinctIds(items, s.clients[h].subscriptions, s.channels.table)
  {
    hide Subscribe, Granted;
    var was, table := s.clients[h].subscriptions, s.channels.table;
    SubscribeExact(s, h, items, 0);
    var now := Subscribe(s, h, items).clients[h].subscriptions;
    forall c: ChannelId
      ensures Lookup(now, c) == if c in was then Some(was[c]) else Granted(items, was, table, c)
      ensures Granted(items, was, table, c).Some? ==> Granted(items, was, table, c).value !in was.Values
    {
      SubscribeExact(s, h, items, c);
      GrantedIsNew(items, was, table, c);
    }
    if Injective(now) {
      forall c, d | c !in was && d !in was && c != d && Granted(items, was, table, c).Some?
        ensures Granted(items, was, table, c) != Granted(items, was, table, d)
      {
        assert Lookup(now, c).Some? && now[c] == Granted(items, was, table, c).value;
        assert Lookup(now, d) == Granted(items, was, table, d);
      }
    }
    if GrantsDistinctIds(items, was, table) {
      forall c, d | c in now && d in now && now[c] == now[d]
        ensures c == d
      {
        assert Lookup(now, c) == Lookup(now, d) == Some(now[c]);
        assert (c in was ==> was[c] in was.Values) && (d in was ==> was[d] in was.Values);
      }
    }
  }

  /** The turn subscribes a channel under an id that another channel of the client has by now. */
  predicate TurnClashes(s: Server)
    requires s.batch.Some?
  {
    var b := s.batch.value;
    b.rest != [] && b.client in s.clients &&
    var asked, now := AskedBy(b.rest[0], b.snapshot, s.channels.table), s.clients[b.client].subscriptions;
    asked.Subscribes? && asked.channel !in now && asked.id in now.Values
  }

  /** And turn by turn, whatever came in between: distinct ids stay distinct exactly if the turn does not clash. */
  lemma TurnKeepsIdsDistinctExactly(s: Server, h: Handle)
    requires s.batch.Some? && h == s.batch.value.client && h in s.clients && Injective(s.clients[h].subscriptions)
    ensures h in SubscribeNext(s).clients
    ensures Injective(SubscribeNext(s).clients[h].subscriptions) <==> !TurnClashes(s)
  {
    hide Told, Subscribed;
    var was, now := s.clients[h].subscriptions, SubscribeNext(s).clients[h].subscriptions;
    if now != was {
      var c, id := s.batch.value.rest[0].channelId.value, s.batch.value.rest[0].id.value;
      assert now == was[c := id];
      if id in was.Values {
        var d :| d in was && was[d] == id;
        assert now[c] == now[d];
      } else {
        assert forall d :: d in was ==> was[d] in was.Values;
      }
    }
  }

  lemma {:induction false} GrantedIsNew(items: seq<SubscribeItem>, was: Subscriptions,
                                        channels: map<ChannelId, ChannelInfo>, c: ChannelId)
    ensures Granted(items, was, channels, c).Some? ==> Granted(items, was, channels, c).value !in was.Values
    decreases |items|
  {
    if items != [] {
      GrantedIsNew(items[1..], was, channels, c);
    }
  }

  /** The ids of the subscriptions a message ends: those it gets to, up to a malformed item or a throw. */
  function Ended(items: seq<UnsubscribeItem>, was: Subscriptions): set<SubscriptionId> {
    if items == [] || items[0].id.None? then {}
    else if items[0].id.value !in was.Values then Ended(items[1..], was)
    else if items[0].throws then {}
    else {items[0].id.value} + Ended(items[1..], was)
  }

  lemma {:induction false} ItemsEnd(h: Handle, was: Subscriptions, order: seq<ChannelId>, items: seq<UnsubscribeItem>,
                                    u: Unsubscribing)
    requires Injective(was) && IsOrdering(order, was.Keys) && SubMap(u.subscriptions, was)
    ensures UnsubscribeItems(h, was, order, items, u).subscriptions
            == map c | c in u.subscriptions && was[c] !in Ended(items, was) :: was[c]
    decreases |items|
  {
    if items != [] && items[0].id.Some? {
      var id, rest := items[0].id.value, items[1..];
      FindFound(order, was, id);
      match FindSubscription(order, was, id) {
        case None =>
          ItemsEnd(h, was, order, rest, u.(statuses := u.statuses + [Warning]));
        case Some(c) =>
          assert was[c] in was.Values;
          var called := u.(calls := u.calls + [UnsubscribeCall(h, c)]);
          if !items[0].throws && c !in u.subscriptions {
            ItemsEnd(h, was, order, rest, called.(mismatches := u.mismatches + [Mismatch(h, c, UnsubscribedTwice)]));
          } else if !items[0].throws {
            ItemsEnd(h, was, order, rest, called.(subscriptions := u.subscriptions - {c}));
          }
      }
    }
  }

  /** An unsubscribe message ends exactly the subscriptions whose ids it gets to. */
  lemma UnsubscribeExact(s: Server, h: Handle, order: seq<ChannelId>, items: seq<UnsubscribeItem>)
    requires h in s.clients
    requires Injective(s.clients[h].subscriptions) && IsOrdering(order, s.clients[h].subscriptions.Keys)
    ensures var t, was := Unsubscribe(s, h, order, items), s.clients[h].subscriptions;
            && h in t.clients
            && t.clients[h].subscriptions == map c | c in was && was[c] !in Ended(items, was) :: was[c]
  {
    hide UnsubscribeItems, Told, Ended;
    var was := s.clients[h].subscriptions;
    ItemsEnd(h, was, order, items, Unsubscribing(was, [], [], []));
  }

  // ----- Advertise and unadvertise

  ghost predicate WellFormedAdvertise(items: seq<AdvertiseItem>) {
    forall item :: item in items ==>
      item.id.Some? && item.topic.Some? && item.encoding.Some? && item.schemaName.Some? && !item.throws
  }

  /** The advertisement a message makes under an id: its first for that id with a whitelisted topic. */
  function FirstAd(items: seq<AdvertiseItem>, whitelist: iset<string>, id: ClientChannelId): Option<Advertisement> {
    if items == [] then None
    else
      var item := items[0];
      if item.id == Some(id) && item.topic.Some? && item.topic.value in whitelist && item.encoding.Some?
        && item.schemaName.Some?
      then Some(Advertisement(id, item.topic.value, item.encoding.value, item.schemaName.value))
      else FirstAd(items[1..], whitelist, id)
  }

  lemma {:induction false} AdvertiseFiles(whitelist: iset<string>, h: Handle, first: bool, items: seq<AdvertiseItem>,
                                          p: Publishing, id: ClientChannelId)
    requires WellFormedAdvertise(items)
    ensures Lookup(AdvertiseItems(whitelist, h, true, first, items, p).stored, id)
            == if id in p.stored then Some(p.stored[id]) else FirstAd(items, whitelist, id)
    decreases |items|
  {
    if items != [] {
      var item := items[0];
      assert item in items && forall i :: i in items[1..] ==> i in items;
      AdvertiseFiles(whitelist, h, first, items[1..], p.Status(Error), id);
      var ad := Advertisement(item.id.value, item.topic.value, item.encoding.value, item.schemaName.value);
      AdvertiseFiles(whitelist, h, first, items[1..], p.Call(AdvertiseCall(h, ad, true)).Store(ad), id);
    }
  }

  /** An advertise message keeps what was filed and files the rest of its whitelisted channels, each id once. */
  lemma AdvertiseExact(s: Server, h: Handle, items: seq<AdvertiseItem>, id: ClientChannelId)
    requires h in s.clients && WellFormedAdvertise(items)
    ensures var t, was := ClientAdvertise(s, h, items), PublicationsOf(s.publications, h);
            Lookup(PublicationsOf(t.publications, h), id)
            == if id in was then Some(was[id]) else FirstAd(items, s.options.whitelist, id)
  {
    hide AdvertiseItems, Told;
    AdvertiseFiles(s.options.whitelist, h, h !in s.publications.stored, items, PublishingOf(s, h), id);
  }

  ghost predicate WellFormedUnadvertise(items: seq<UnadvertiseItem>) {
    forall item :: item in items ==> item.id.Some? && !item.throws
  }

  lemma {:induction false} UnadvertiseDrops(h: Handle, items: seq<UnadvertiseItem>, p: Publishing, id: ClientChannelId)
    requires WellFormedUnadvertise(items)
    ensures Lookup(UnadvertiseItems(h, true, items, p).stored, id)
            == if exists item :: item in items && item.id == Some(id) then None else Lookup(p.stored, id)
    decreases |items|
  {
    if items != [] {
      var gone := items[0].id.value;
      assert items[0] in items && forall i :: i in items <==> i == items[0] || i in items[1..];
      UnadvertiseDrops(h, items[1..], p, id);
      UnadvertiseDrops(h, items[1..], p.Call(UnadvertiseCall(h, gone, true)).Drop(gone), id);
    }
  }

  /** An unadvertise message withdraws exactly the ids it lists. */
  lemma UnadvertiseExact(s: Server, h: Handle, items: seq<UnadvertiseItem>, id: ClientChannelId)
    requires h in s.clients && WellFormedUnadvertise(items)
    ensures var t, was := ClientUnadvertise(s, h, items), PublicationsOf(s.publications, h);
            Lookup(PublicationsOf(t.publications, h), id)
            == if exists item :: item in items && item.id == Some(id) then None else Lookup(was, id)
  {
    hide UnadvertiseItems, Told;
    UnadvertiseDrops(h, items, PublishingOf(s, h), id);
  }

  // ----- Disconnect

  lemma {:induction false} UnadvertiseCallsCount(h: Handle, order: seq<ClientChannelId>, keys: set<ClientChannelId>,
                                                 id: ClientChannelId)
    requires IsOrdering(order, keys)
    ensures multiset(UnadvertiseCalls(h, order))[UnadvertiseCall(h, id, true)] == if id in keys then 1 else 0
    decreases |order|
  {
    if order != [] {
      OrderingTail(order, keys);
      UnadvertiseCallsCount(h, order[1..], keys - {order[0]}, id);
      assert multiset(UnadvertiseCalls(h, order)) ==
             multiset{UnadvertiseCall(h, order[0], true)} + multiset(UnadvertiseCalls(h, order[1..]));
    }
  }

  /**
   * A disconnect leaves nothing of the client in any table, and ends each of its advertisements and
   * subscriptions with one call.
   */
  lemma CloseLeavesNothing(s: Server, h: Handle, adOrder: seq<ClientChannelId>, subOrder: seq<ChannelId>,
                           id: ClientChannelId, c: ChannelId)
    requires h in s.clients
    requires IsOrdering(adOrder, s.clients[h].advertised) && IsOrdering(subOrder, s.clients[h].subscriptions.Keys)
    ensures var t, unadvertised := Close(s, h, adOrder, subOrder), UnadvertiseCall(h, id, true);
            && t.clients == s.clients - {h} && t.publications.stored == s.publications.stored - {h}
            && t.parameters.subscriptions == s.parameters.subscriptions - {h}
            && multiset(t.publications.calls)[unadvertised]
               == multiset(s.publications.calls)[unadvertised] + (if id in s.clients[h].advertised then 1 else 0)
            && Calls(t.log, UnsubscribeCall(h, c))
               == Calls(s.log, UnsubscribeCall(h, c)) + (if c in s.clients[h].subscriptions then 1 else 0)
  {
    hide IsOrdering, UnadvertiseCalls, UnsubscribeCalls, LeaveGraph;
    UnadvertiseCallsCount(h, adOrder, s.clients[h].advertised, id);
    UnsubscribeCallsCount(h, subOrder, s.clients[h].subscriptions.Keys, UnsubscribeCall(h, c));
  }
}
