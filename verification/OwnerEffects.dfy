/** What the coming and going of clients and the owner's calls do to every table and every client, exactly. */
module OwnerEffects {
  import opened Wrappers
  import opened Orderings
  import opened Session
  import opened SessionFrames
  import opened MessageEffects
  import opened Numbering
  import opened CatalogueProofs

  /** Each connected client is sent these notices, and nobody is sent anything else. */
  ghost predicate AllTold(s: Server, now: Mail, notices: seq<Notice>) {
    forall h :: MailOf(now, h) ==
      if h in s.clients then MailOf(s.mail, h).(notices := MailOf(s.mail, h).notices + notices) else MailOf(s.mail, h)
  }

  lemma NoticingTells(s: Server)
    ensures forall n {:trigger AllNoticed(s, n)} :: AllTold(s, AllNoticed(s, n), [n])
    ensures AllTold(s, s.mail, [])
  {
  }

  // ----- Clients

  lemma {:induction false} ListingOf<I, T>(order: seq<I>, table: map<I, T>)
    requires forall i :: i in order ==> i in table
    ensures Listing(order, table) == seq(|order|, k requires 0 <= k < |order| => (order[k], table[order[k]]))
    decreases |order|
  {
    if order != [] {
      ListingOf(order[1..], table);
      assert forall k :: 0 < k < |order| ==> order[k] == order[1..][k - 1];
    }
  }

  /**
   * A client starts with no subscription, advertisement or flag, an empty queue, and two messages: every
   * channel and every service there is, once each, with its contents.
   */
  lemma OpenExact(s: Server, h: Handle, channelOrder: seq<ChannelId>, serviceOrder: seq<ServiceId>, k: Handle)
    requires IsOrdering(channelOrder, s.channels.table.Keys) && IsOrdering(serviceOrder, s.services.table.Keys)
    ensures var t := Open(s, h, channelOrder, serviceOrder);
            var channels := seq(|channelOrder|, i requires 0 <= i < |channelOrder| =>
                                (channelOrder[i], s.channels.table[channelOrder[i]]));
            var services := seq(|serviceOrder|, i requires 0 <= i < |serviceOrder| =>
                                (serviceOrder[i], s.services.table[serviceOrder[i]]));
            && t == s.(clients := s.clients[h := ClientInfo(map[], {}, false)], queues := t.queues, mail := t.mail)
            && QueueOf(t, k) == (if k == h then Queue(0, 0) else QueueOf(s, k))
            && MailOf(t.mail, k)
               == if k == h then Outbox([Advertise(channels), AdvertiseServices(services)], [], [], [], [])
                  else MailOf(s.mail, k)
  {
    hide Listing, IsOrdering;
    assert forall i :: i in channelOrder ==> i in s.channels.table by { OrdersTable(channelOrder, s.channels.table); }
    assert forall i :: i in serviceOrder ==> i in s.services.table by { OrdersTable(serviceOrder, s.services.table); }
    ListingOf(channelOrder, s.channels.table);
    ListingOf(serviceOrder, s.services.table);
  }

  lemma OrdersTable<I(!new), T>(order: seq<I>, table: map<I, T>)
    requires IsOrdering(order, table.Keys)
    ensures forall i :: i in order ==> i in table
  {
  }

  lemma {:induction false} UnsubscribeCallsOf(h: Handle, order: seq<ChannelId>)
    ensures UnsubscribeCalls(h, order) == seq(|order|, i requires 0 <= i < |order| => UnsubscribeCall(h, order[i]))
    decreases |order|
  {
    if order != [] {
      UnsubscribeCallsOf(h, order[1..]);
      assert forall k :: 0 < k < |order| ==> order[k] == order[1..][k - 1];
    }
  }

  lemma {:induction false} UnadvertiseCallsAre(h: Handle, order: seq<ClientChannelId>)
    ensures UnadvertiseCalls(h, order)
            == seq(|order|, i requires 0 <= i < |order| => UnadvertiseCall(h, order[i], true))
    decreases |order|
  {
    if order != [] {
      UnadvertiseCallsAre(h, order[1..]);
      assert forall k :: 0 < k < |order| ==> order[k] == order[1..][k - 1];
    }
  }

  /**
   * A disconnect makes one unadvertise call for each advertised channel and one unsubscribe call for
   * each subscription, in the orders they are walked in, and no others; it logs nothing as amiss and
   * sends nothing. Of a client that is not connected it does nothing.
   */
  lemma CloseExact(s: Server, h: Handle, adOrder: seq<ClientChannelId>, subOrder: seq<ChannelId>)
    ensures var t := Close(s, h, adOrder, subOrder);
            if h !in s.clients then t == s
            else
              && t == s.(clients := s.clients - {h}, publications := t.publications, log := t.log,
                         parameters := t.parameters, graph := t.graph)
              && t.publications.stored == s.publications.stored - {h}
              && t.publications.calls
                 == s.publications.calls
                    + seq(|adOrder|, i requires 0 <= i < |adOrder| => UnadvertiseCall(h, adOrder[i], true))
              && t.log.mismatches == s.log.mismatches
              && t.log.calls
                 == s.log.calls + seq(|subOrder|, i requires 0 <= i < |subOrder| => UnsubscribeCall(h, subOrder[i]))
  {
    hide UnadvertiseCalls, UnsubscribeCalls, ForgetParameters, LeaveGraph;
    UnadvertiseCallsAre(h, adOrder);
    UnsubscribeCallsOf(h, subOrder);
  }

  // ----- Channels

  /**
   * Adding channels stores each under the next id, unless that is taken, and tells every connected
   * client of all of them in one message; adding none tells nobody.
   */
  lemma AddChannelsExact(s: Server, infos: seq<ChannelInfo>)
    ensures var t, next := AddChannels(s, infos), s.channels.next;
            var news := Numbered(infos, next);
            && t == s.(channels := t.channels, mail := t.mail)
            && t.channels == Catalogue(Emplaced(s.channels.table, news),
                                       if infos == [] then next else IdAt(next, |infos| - 1))
            && AllTold(s, t.mail, if infos == [] then [] else [Advertise(news)])
  {
    hide AddAll, Numbered, Emplaced, AllNoticed, AllTold, IdAt;
    AddAllNumbers(infos, Adding(s.channels, []));
    NoticingTells(s);
    assert [] + Numbered(infos, s.channels.next) == Numbered(infos, s.channels.next);
    if infos == [] {
      NumberedNone(infos, s.channels.next);
      NothingNew(s.channels.table, map[], Numbered(infos, s.channels.next));
    }
  }

  /** The first half of a removal takes the channels out of the table, and nothing else anywhere. */
  lemma RemovalBeginsExactly(s: Server, ids: seq<ChannelId>)
    ensures var t := RemoveChannelsBegin(s, ids);
            && t == s.(channels := t.channels, removals := t.removals)
            && t.removals == s.removals + (if ids == [] then [] else [ids])
            && t.channels.next == s.channels.next
            && forall c :: Lookup(t.channels.table, c) == if c in ids then None else Lookup(s.channels.table, c)
  {
    AddNothing(s.removals);
  }

  lemma {:induction false} DroppedFromOnce(h: Handle, was: map<ChannelId, SubscriptionId>, ids: seq<ChannelId>,
                                           m: Mismatch)
    ensures multiset(DroppedFrom(h, was, ids))[m]
            == if m == Mismatch(h, m.channel, ChannelRemoved) && m.channel in was && m.channel in ids then 1 else 0
    decreases |ids|
  {
    if ids != [] {
      DroppedFromOnce(h, was - {ids[0]}, ids[1..], m);
      var first := if ids[0] in was then [Mismatch(h, ids[0], ChannelRemoved)] else [];
      assert m.channel in ids <==> m.channel == ids[0] || m.channel in ids[1..];
      assert DroppedFrom(h, was, ids) == first + DroppedFrom(h, was - {ids[0]}, ids[1..]);
      assert multiset(first + DroppedFrom(h, was - {ids[0]}, ids[1..]))
          == multiset(first) + multiset(DroppedFrom(h, was - {ids[0]}, ids[1..]));
    }
  }

  lemma {:induction false} DroppedOnce(order: seq<Handle>, keys: set<Handle>, clients: map<Handle, ClientInfo>,
                                       ids: seq<ChannelId>, m: Mismatch)
    requires IsOrdering(order, keys) && keys <= clients.Keys
    ensures multiset(Dropped(order, clients, ids))[m]
            == if && m.cause == ChannelRemoved && m.client in keys && m.channel in clients[m.client].subscriptions
                  && m.channel in ids
               then 1 else 0
    decreases |order|
  {
    hide DroppedFrom;
    if order != [] {
      OrderingTail(order, keys);
      DroppedOnce(order[1..], keys - {order[0]}, clients, ids, m);
      var first := DroppedFrom(order[0], clients[order[0]].subscriptions, ids);
      DroppedFromOnce(order[0], clients[order[0]].subscriptions, ids, m);
      assert multiset(first + Dropped(order[1..], clients, ids))
          == multiset(first) + multiset(Dropped(order[1..], clients, ids));
    }
  }

  /**
   * The second half drops each client's subscriptions to the channels, and nothing else of it, without
   * a call: it logs each of them once. Every connected client is told the ids as they were given.
   */
  lemma RemovalEndsExactly(s: Server, i: nat, order: seq<Handle>, m: Mismatch)
    requires i < |s.removals| && IsOrdering(order, s.clients.Keys)
    ensures var t, ids := RemoveChannelsEnd(s, i, order), s.removals[i];
            && t == s.(clients := t.clients, log := t.log, removals := s.removals[..i] + s.removals[i + 1..],
                       mail := t.mail)
            && OnlySubscriptions(s, t)
            && (forall h, c :: h in s.clients ==>
                  Lookup(t.clients[h].subscriptions, c)
                  == if c in ids then None else Lookup(s.clients[h].subscriptions, c))
            && AllTold(s, t.mail, [Unadvertise(ids)])
            && t.log.calls == s.log.calls && s.log.mismatches <= t.log.mismatches
            && multiset(t.log.mismatches[|s.log.mismatches|..])[m]
               == if && m.cause == ChannelRemoved && m.client in s.clients
                     && m.channel in s.clients[m.client].subscriptions && m.channel in ids
                  then 1 else 0
  {
    hide AllNoticed, AllTold, Dropped, IsOrdering;
    NoticingTells(s);
    DroppedOnce(order, s.clients.Keys, s.clients, s.removals[i], m);
    var t, more := RemoveChannelsEnd(s, i, order), Dropped(order, s.clients, s.removals[i]);
    assert t.log.mismatches == s.log.mismatches + more;
    assert t.log.mismatches[|s.log.mismatches|..] == more;
  }

  // ----- Services

  /**
   * Adding services stores those up to the first incomplete definition, each under the next id unless
   * that is taken, and tells every connected client of all of them in one message, but only if the
   * whole batch is complete.
   */
  lemma AddServicesExact(s: Server, infos: seq<ServiceInfo>, n: nat)
    requires n <= |infos| && (forall i :: 0 <= i < n ==> Complete(infos[i])) && (n < |infos| ==> !Complete(infos[n]))
    ensures var t, next := AddServices(s, infos), s.services.next;
            var news := Numbered(infos[..n], next);
            && t == s.(services := t.services, mail := t.mail)
            && t.services == Catalogue(Emplaced(s.services.table, news), if n == 0 then next else IdAt(next, n - 1))
            && AllTold(s, t.mail, if infos == [] || n < |infos| then [] else [AdvertiseServices(news)])
  {
    hide AddAll, Numbered, Emplaced, AllNoticed, AllTold, IdAt, ValidPrefix, Complete;
    var prefix := ValidPrefix(infos);
    ValidPrefixOf(infos);
    ValidPrefixReaches(infos, n);
    if n > 0 {
      ValidPrefixReaches(infos, n - 1);
    }
    assert |prefix| == n && prefix == infos[..n];
    AddAllNumbers(prefix, Adding(s.services, []));
    NoticingTells(s);
    assert [] + Numbered(prefix, s.services.next) == Numbered(prefix, s.services.next);
    if n == 0 {
      NumberedNone(prefix, s.services.next);
      NothingNew(s.services.table, map[], Numbered(prefix, s.services.next));
    }
    if n == |infos| {
      assert infos[..n] == infos;
    }
  }

  /** The ids of a call that name a service, each where it comes first. */
  function Named(ids: seq<ServiceId>, services: set<ServiceId>): seq<ServiceId> {
    if ids == [] then []
    else
      var before, last := ids[..|ids| - 1], ids[|ids| - 1];
      Named(before, services) + if last in services && last !in before then [last] else []
  }

  lemma {:induction false} PresentOneMore(services: map<ServiceId, ServiceInfo>, ids: seq<ServiceId>, last: ServiceId)
    ensures Present(services, ids + [last])
            == Present(services, ids) + if last in services && last !in ids then [last] else []
    decreases |ids|
  {
    if ids == [] {
      assert [] + [last] == [last] && [last][1..] == [];
    } else {
      var first, rest := if ids[0] in services then [ids[0]] else [], services - {ids[0]};
      assert (ids + [last])[1..] == ids[1..] + [last];
      PresentOneMore(rest, ids[1..], last);
      assert last in ids <==> last == ids[0] || last in ids[1..];
      var more := if last in services && last !in ids then [last] else [];
      assert Present(services, ids + [last]) == first + Present(rest, ids[1..] + [last]);
      assert first + (Present(rest, ids[1..]) + more) == first + Present(rest, ids[1..]) + more;
    }
  }

  lemma {:induction false} PresentIsNamed(services: map<ServiceId, ServiceInfo>, ids: seq<ServiceId>)
    ensures Present(services, ids) == Named(ids, services.Keys)
    decreases |ids|
  {
    if ids != [] {
      var before, last := ids[..|ids| - 1], ids[|ids| - 1];
      PresentIsNamed(services, before);
      PresentOneMore(services, before, last);
      assert before + [last] == ids;
    }
  }

  /**
   * Removing services takes the ids out of the table, and tells every connected client those that named
   * a service, once each and in the order given; if none did, nobody is told anything.
   */
  lemma RemoveServicesExact(s: Server, ids: seq<ServiceId>)
    ensures var t, gone := RemoveServices(s, ids), Named(ids, s.services.table.Keys);
            && t == s.(services := t.services, mail := t.mail)
            && t.services.next == s.services.next
            && (forall i :: Lookup(t.services.table, i) == if i in ids then None else Lookup(s.services.table, i))
            && AllTold(s, t.mail, if gone == [] then [] else [UnadvertiseServices(gone)])
  {
    hide AllNoticed, AllTold, Present, Named;
    NoticingTells(s);
    PresentIsNamed(s.services.table, ids);
  }
}
