/**
 * The server as the object it is: its handlers update its tables in place.
 *
 * Every handler is proved to do the step of the session that has its name. A container that is
 * walked without order is walked in an order that is given; so are the outcomes of the application's
 * handlers. The record of the calls made to the application is kept beside the table they concern.
 */
module WebsocketServer {
  import opened Wrappers
  import opened Bytes
  import opened ConnectionGraph
  import opened Orderings
  import opened ParameterJson
  import opened ServiceMessage
  import opened Session

  /** The entries of a table, walked in the given order. */
  method Collect<T>(order: seq<u32>, table: map<u32, T>) returns (entries: seq<(u32, T)>)
    requires forall i :: i in order ==> i in table
    ensures entries == Listing(order, table)
  {
    entries := [];
    for i := 0 to |order|
      invariant entries + Listing(order[i..], table) == Listing(order, table)
    {
      assert order[i..][1..] == order[i + 1..];
      entries := entries + [(order[i], table[order[i]])];
    }
  }

  /** Sends to every client in turn. */
  method SendEach(clients: map<Handle, ClientInfo>, was: Mail, n: Notice) returns (mail: Mail)
    requires clients.Keys <= was.Keys
    ensures mail.Keys == was.Keys
    ensures forall h :: h in was ==>
            mail[h] == if h in clients then was[h].(notices := was[h].notices + [n]) else was[h]
  {
    mail := was;
    var rest := clients.Keys;
    while rest != {}
      invariant rest <= clients.Keys && mail.Keys == was.Keys
      invariant forall h :: h in was ==>
        mail[h] == if h in clients && h !in rest then was[h].(notices := was[h].notices + [n]) else was[h]
      decreases |rest|
    {
      var h :| h in rest;
      mail := mail[h := mail[h].(notices := mail[h].notices + [n])];
      rest := rest - {h};
    }
  }

  method CopySelected(ps: seq<Parameter>, names: set<string>) returns (chosen: seq<Parameter>)
    ensures chosen == Selected(ps, names)
  {
    hide Selected;
    chosen := [];
    SelectedNext([], names);
    for i := 0 to |ps|
      invariant chosen == Selected(ps[..i], names)
    {
      SelectedNext(ps[..i + 1], names);
      assert ps[..i + 1][..i] == ps[..i];
      if ps[i].name in names {
        chosen := chosen + [ps[i]];
      }
    }
    assert ps[..|ps|] == ps;
  }

  method CopySet(ps: seq<Parameter>) returns (values: seq<Parameter>)
    ensures values == Set(ps)
  {
    hide Set;
    values := [];
    SetNext([]);
    for i := 0 to |ps|
      invariant values == Set(ps[..i])
    {
      SetNext(ps[..i + 1]);
      assert ps[..i + 1][..i] == ps[..i];
      if !ps[i].value.NotSet? {
        values := values + [ps[i]];
      }
    }
    assert ps[..|ps|] == ps;
  }

  lemma {:induction false} SelectedNone(ps: seq<Parameter>)
    ensures Selected(ps, {}) == []
  {
    if ps != [] {
      SelectedNone(ps[1..]);
    }
  }

  lemma {:induction false} SelectedNext(ps: seq<Parameter>, names: set<string>)
    ensures Selected([], names) == []
    ensures ps != [] ==>
              var last := ps[|ps| - 1];
              Selected(ps, names) == Selected(ps[..|ps| - 1], names) + if last.name in names then [last] else []
  {
    if |ps| > 1 {
      SelectedNext(ps[1..], names);
      assert ps[1..][..|ps| - 2] == ps[..|ps| - 1][1..];
    }
  }

  lemma {:induction false} SetNext(ps: seq<Parameter>)
    ensures Set([]) == []
    ensures ps != [] ==>
              var last := ps[|ps| - 1];
              Set(ps) == Set(ps[..|ps| - 1]) + if last.value.NotSet? then [] else [last]
  {
    if |ps| > 1 {
      SetNext(ps[1..]);
      assert ps[1..][..|ps| - 2] == ps[..|ps| - 1][1..];
    }
  }

  /** A client's mail after an update of parameters of which it asked for some. */
  function Informed(o: Outbox, ps: seq<Parameter>, names: set<string>): Outbox {
    if Selected(ps, names) == [] then o else o.(parameters := o.parameters + [Set(Selected(ps, names))])
  }

  method PublishParameterValues(was: Outbox, ps: seq<Parameter>, names: set<string>) returns (o: Outbox)
    ensures o == Informed(was, ps, names)
  {
    o := was;
    var chosen := CopySelected(ps, names);
    if chosen != [] {
      var values := CopySet(chosen);
      o := o.(parameters := o.parameters + [values]);
    }
  }

  method InformEach(clients: map<Handle, ClientInfo>, parameters: Parameters, was: Mail, ps: seq<Parameter>)
    returns (mail: Mail)
    requires clients.Keys <= was.Keys
    ensures mail.Keys == was.Keys
    ensures forall h :: h in was ==>
              mail[h] == if h in clients && h in parameters.subscriptions
                         then Informed(was[h], ps, parameters.subscriptions[h]) else was[h]
  {
    hide Informed;
    mail := was;
    var rest := parameters.subscriptions.Keys;
    while rest != {}
      invariant rest <= parameters.subscriptions.Keys && mail.Keys == was.Keys
      invariant forall h :: h in was ==>
        mail[h] == if h in clients && h in parameters.subscriptions && h !in rest
                   then Informed(was[h], ps, parameters.subscriptions[h]) else was[h]
      decreases |rest|
    {
      var h :| h in rest;
      if h in clients {
        var o := PublishParameterValues(mail[h], ps, parameters.subscriptions[h]);
        mail := mail[h := o];
      }
      rest := rest - {h};
    }
  }

  lemma InformedMail(s: Session.Server, ps: seq<Parameter>, mail: Mail)
    requires s.clients.Keys <= s.mail.Keys == mail.Keys
    requires forall h :: h in s.mail ==>
               mail[h] == if h in s.clients && h in s.parameters.subscriptions
                          then Informed(s.mail[h], ps, s.parameters.subscriptions[h]) else s.mail[h]
    ensures mail == UpdateParameters(s, ps).mail
  {
    hide Selected, Set;
    SelectedNone(ps);
  }

  method ChangedEntries(was: MapOfSets, now: MapOfSets) returns (changed: MapOfSets)
    ensures changed == Changed(was, now)
  {
    changed := map[];
    var rest := now.Keys;
    while rest != {}
      invariant rest <= now.Keys
      invariant changed == map name | name in Changed(was, now) && name !in rest :: now[name]
      decreases |rest|
    {
      var name :| name in rest;
      if name !in was || was[name] != now[name] {
        changed := changed[name := now[name]];
      }
      rest := rest - {name};
    }
  }

  method ComputeDiff(was: Graph, now: Graph) returns (u: Update)
    ensures u == Diff(was, now)
  {
    hide Changed;
    var published := ChangedEntries(was.published, now.published);
    var subscribed := ChangedEntries(was.subscribed, now.subscribed);
    var services := ChangedEntries(was.services, now.services);
    var topicNames := now.published.Keys + now.subscribed.Keys;
    var knownTopicNames := was.published.Keys + was.subscribed.Keys;
    u := Update(published, subscribed, services, knownTopicNames - topicNames, was.services.Keys - now.services.Keys);
  }

  method SendUpdate(clients: map<Handle, ClientInfo>, was: Mail, u: Update) returns (mail: Mail)
    requires clients.Keys <= was.Keys
    ensures mail.Keys == was.Keys
    ensures forall h :: h in was ==>
              mail[h] == if h in clients && clients[h].subscribedToGraph
                         then was[h].(graph := was[h].graph + [u]) else was[h]
  {
    mail := was;
    var rest := clients.Keys;
    while rest != {}
      invariant rest <= clients.Keys && mail.Keys == was.Keys
      invariant forall h :: h in was ==>
        mail[h] == if h in clients && h !in rest && clients[h].subscribedToGraph
                   then was[h].(graph := was[h].graph + [u]) else was[h]
      decreases |rest|
    {
      var h :| h in rest;
      if clients[h].subscribedToGraph {
        mail := mail[h := mail[h].(graph := mail[h].graph + [u])];
      }
      rest := rest - {h};
    }
  }

  class Server {
    const options: Options
    var clients: map<Handle, ClientInfo>
    var channels: Catalogue<ChannelInfo>
    var services: Catalogue<ServiceInfo>
    var publications: Publications
    var parameters: Parameters
    var graph: GraphState
    var queues: map<Handle, Queue>                 // the send buffers of the connections
    var mail: Mail                                 // what was sent on the connections
    ghost var removals: seq<seq<ChannelId>>
    ghost var batch: Option<Batch>
    ghost var log: SubscriptionLog

    ghost function State(): Session.Server
      reads this
    {
      Session.Server(options, clients, channels, services, removals, publications, parameters, graph, batch, log,
                     queues, mail)
    }

    /** Every connected client was sent its welcome. */
    ghost predicate Valid()
      reads this
    {
      clients.Keys <= mail.Keys
    }

    constructor (options: Options)
      ensures Valid() && State() == Init(options)
    {
      this.options := options;
      clients, queues := map[], map[];
      channels, services := Catalogue(map[], 0), Catalogue(map[], 0);
      publications, parameters := Publications(map[], []), Parameters(map[], []);
      graph := GraphState(EMPTY, 0, [], map[], 0);
      removals, batch, log, mail := [], None, SubscriptionLog([], []), map[];
    }

    // ----- Sending

    method SendStatus(h: Handle, level: Level)
      requires Valid()
      modifies `mail
      ensures Valid() && mail == Told(old(State()), h, [level])
    {
      if h in clients {
        mail := mail[h := mail[h].(statuses := mail[h].statuses + [level])];
      }
    }

    /** Sends to every client in turn. */
    method SendToAll(n: Notice)
      requires Valid()
      modifies `mail
      ensures Valid() && mail == AllNoticed(old(State()), n)
    {
      mail := SendEach(clients, mail, n);
    }

    // ----- Connections

    method HandleConnectionOpened(h: Handle, channelOrder: seq<ChannelId>, serviceOrder: seq<ServiceId>)
      requires Valid() && Enabled(State(), OpenEvent(h, channelOrder, serviceOrder))
      modifies `clients, `queues, `mail
      ensures Valid() && State() == Open(old(State()), h, channelOrder, serviceOrder)
    {
      hide Listing;
      clients, queues := clients[h := NEW_CLIENT], queues[h := Queue(0, 0)];
      var known := Collect(channelOrder, channels.table);
      var offered := Collect(serviceOrder, services.table);
      mail := mail[h := NO_MAIL.(notices := [Advertise(known), AdvertiseServices(offered)])];
    }

    method HandleConnectionClosed(h: Handle, adOrder: seq<ClientChannelId>, subOrder: seq<ChannelId>)
      requires Valid() && Enabled(State(), CloseEvent(h, adOrder, subOrder))
      modifies `clients, `publications, `log, `parameters, `graph
      ensures Valid() && State() == Close(old(State()), h, adOrder, subOrder)
    {
      hide Enabled, Withdraw, UnadvertiseCalls, UnsubscribeCalls, LeaveGraph;
      if h in clients {
        var client := clients[h];
        clients := clients - {h};
        UnadvertiseEach(h, adOrder);
        publications := publications.(stored := publications.stored - {h});
        UnsubscribeEach(h, subOrder);
        var names := if h in parameters.subscriptions then parameters.subscriptions[h] else {};
        parameters := parameters.(subscriptions := parameters.subscriptions - {h});
        var _ := UnsubscribeParamsWithoutSubscriptions(names);
        if client.subscribedToGraph {
          var _ := LeaveConnectionGraph();
        }
      }
    }

    method UnadvertiseEach(h: Handle, order: seq<ClientChannelId>)
      modifies `publications
      ensures publications == old(publications).(calls := old(publications.calls) + UnadvertiseCalls(h, order))
    {
      assert order[0..] == order;
      for i := 0 to |order|
        invariant publications == old(publications).(calls := publications.calls)
        invariant publications.calls + UnadvertiseCalls(h, order[i..])
                  == old(publications.calls) + UnadvertiseCalls(h, order)
      {
        assert order[i..][1..] == order[i + 1..];
        publications := publications.(calls := publications.calls + [UnadvertiseCall(h, order[i], true)]);
      }
    }

    method UnsubscribeEach(h: Handle, order: seq<ChannelId>)
      modifies `log
      ensures log == old(log).(calls := old(log.calls) + UnsubscribeCalls(h, order))
    {
      assert order[0..] == order;
      for i := 0 to |order|
        invariant log == old(log).(calls := log.calls)
        invariant log.calls + UnsubscribeCalls(h, order[i..]) == old(log.calls) + UnsubscribeCalls(h, order)
      {
        assert order[i..][1..] == order[i + 1..];
        log := log.(calls := log.calls + [UnsubscribeCall(h, order[i])]);
      }
    }

    /** Says whether the last subscriber left, and the application was told. */
    method LeaveConnectionGraph() returns (last: bool)
      modifies `graph
      ensures graph == LeaveGraph(old(graph)) && (last <==> old(graph.count) == 1)
    {
      graph := graph.(count := graph.count - 1);
      last := graph.count == 0;
      if last {
        graph := graph.(calls := graph.calls + [false]);
      }
    }

    // ----- Parameter subscriptions

    method IsParameterSubscribed(name: string) returns (found: bool)
      ensures found == Session.IsParameterSubscribed(parameters, name)
    {
      var rest := parameters.subscriptions.Keys;
      while rest != {}
        invariant rest <= parameters.subscriptions.Keys
        invariant forall h :: h in parameters.subscriptions && h !in rest ==> name !in parameters.subscriptions[h]
        decreases |rest|
      {
        var h :| h in rest;
        if name in parameters.subscriptions[h] {
          return true;
        }
        rest := rest - {h};
      }
      return false;
    }

    method WithoutSubscriptions(names: set<string>) returns (unused: set<string>)
      ensures unused == Unused(parameters, names)
    {
      hide Session.IsParameterSubscribed;
      unused := {};
      var rest := names;
      while rest != {}
        invariant rest <= names && unused == Unused(parameters, names - rest)
        decreases |rest|
      {
        var name :| name in rest;
        var found := IsParameterSubscribed(name);
        if !found {
          unused := unused + {name};
        }
        rest := rest - {name};
      }
      assert names - rest == names;
    }

    /** Says whether the application was called. */
    method UnsubscribeParamsWithoutSubscriptions(names: set<string>) returns (called: bool)
      modifies `parameters
      ensures parameters == Withdraw(old(parameters), names)
      ensures called <==> parameters.calls != old(parameters.calls)
    {
      hide Unused;
      var unused := WithoutSubscriptions(names);
      called := unused != {};
      if called {
        parameters := parameters.(calls := parameters.calls + [ParameterUnsubscribe(unused)]);
      }
    }

    method HandleSubscribeParameterUpdates(h: Handle, names: set<string>, throws: bool)
      requires Valid()
      modifies `parameters, `mail
      ensures Valid() && State() == SubscribeParameters(old(State()), h, names, throws)
    {
      hide Unused;
      var wanted := WithoutSubscriptions(names);
      var had := if h in parameters.subscriptions then parameters.subscriptions[h] else {};
      parameters := parameters.(subscriptions := parameters.subscriptions[h := had + names]);
      if wanted != {} {
        parameters := parameters.(calls := parameters.calls + [ParameterSubscribe(wanted)]);
        if throws {
          SendStatus(h, Error);
        }
      }
    }

    method HandleUnsubscribeParameterUpdates(h: Handle, names: set<string>, throws: bool)
      requires Valid()
      modifies `parameters, `mail
      ensures Valid() && State() == UnsubscribeParameters(old(State()), h, names, throws)
    {
      hide Withdraw;
      var had := if h in parameters.subscriptions then parameters.subscriptions[h] else {};
      parameters := parameters.(subscriptions := parameters.subscriptions[h := had - names]);
      var called := UnsubscribeParamsWithoutSubscriptions(names);
      if called && throws {
        SendStatus(h, Error);
      }
    }

    /** Sends each subscriber the values it asked for that are set, if it asked for any in the update. */
    method UpdateParameterValues(ps: seq<Parameter>)
      requires Valid()
      modifies `mail
      ensures Valid() && State() == UpdateParameters(old(State()), ps)
    {
      hide Informed;
      mail := InformEach(clients, parameters, mail, ps);
      InformedMail(old(State()), ps, mail);
    }

    // ----- Connection graph

    method HandleSubscribeConnectionGraph(h: Handle, throws: bool)
      requires Valid()
      modifies `clients, `graph, `mail
      ensures Valid() && State() == SubscribeGraph(old(State()), h, throws)
    {
      graph := graph.(count := graph.count + 1);
      if graph.count == 1 {
        graph := graph.(calls := graph.calls + [true]);
        if throws || h !in clients {
          graph := graph.(unflagged := graph.unflagged + 1);
          SendStatus(h, Error);
          return;
        }
        clients := clients[h := clients[h].(subscribedToGraph := true)];
        graph := graph.(since := graph.since[h := |mail[h].graph|]);
      } else {
        graph := graph.(unflagged := graph.unflagged + 1);
      }
      if h in clients {
        mail := mail[h := mail[h].(graph := mail[h].graph + [Snapshot(graph.graph)])];
      }
    }

    method HandleUnsubscribeConnectionGraph(h: Handle, throws: bool)
      requires Valid()
      modifies `clients, `graph, `mail
      ensures Valid() && State() == UnsubscribeGraph(old(State()), h, throws)
    {
      hide LeaveGraph;
      if h in clients {
        if clients[h].subscribedToGraph {
          clients := clients[h := clients[h].(subscribedToGraph := false)];
          var last := LeaveConnectionGraph();
          if last && throws {
            SendStatus(h, Error);
          }
        } else {
          SendStatus(h, Error);
        }
      }
    }

    method UpdateConnectionGraph(now: Graph)
      requires Valid()
      modifies `graph, `mail
      ensures Valid() && State() == UpdateGraph(old(State()), now)
    {
      hide Diff, Update.Empty;
      var u := ComputeDiff(graph.graph, now);
      graph := graph.(graph := now);
      if !u.Empty() {
        mail := SendUpdate(clients, mail, u);
        assert mail == GraphUpdated(old(State()), u);
      }
    }

    // ----- Client messages

    method HandleClientMessage(h: Handle, id: ClientChannelId, throws: bool)
      requires Valid()
      modifies `publications, `mail
      ensures Valid() && State() == ClientMessage(old(State()), h, id, throws)
    {
      if h !in publications.stored || id !in publications.stored[h] {
        SendStatus(h, Error);
      } else {
        publications := publications.(calls := publications.calls + [MessageCall(h, publications.stored[h][id])]);
        if throws {
          SendStatus(h, Error);
        }
      }
    }

    // ----- Subscriptions

    /** The whole of a subscribe message, with nothing coming in between its turns. */
    method HandleSubscribe(h: Handle, items: seq<SubscribeItem>)
      requires Valid() && batch.None?
      modifies `clients, `log, `batch, `mail
      ensures Valid() && State() == RunBatch(SubscribeStart(old(State()), h, items))
    {
      hide SubscribeNext;
      if h in clients {
        var snapshot := clients[h].subscriptions;
        batch := Some(Batch(h, snapshot, items));
        assert items[0..] == items;
        var i, more := 0, true;
        while more && i < |items|
          invariant 0 <= i <= |items| && Valid()
          invariant batch == if more then Some(Batch(h, snapshot, items[i..])) else None
          invariant RunBatch(State()) == RunBatch(SubscribeStart(old(State()), h, items))
        {
          assert items[i..][1..] == items[i + 1..];
          SubscribeNextShrinks(State());
          more := SubscribeTurn(h, snapshot, items[i]);
          i := i + 1;
        }
        if more {
          SubscribeNextEnds(State());
          batch := None;
        }
      }
    }

    /** One turn of the loop; false if it gives the message up. */
    method SubscribeTurn(h: Handle, snapshot: map<ChannelId, SubscriptionId>, item: SubscribeItem) returns (more: bool)
      requires Valid() && batch.Some? && batch.value.client == h && batch.value.snapshot == snapshot
      requires batch.value.rest != [] && batch.value.rest[0] == item
      modifies `clients, `log, `batch, `mail
      ensures Valid() && State() == SubscribeNext(old(State()))
      ensures batch == if more then Some(Batch(h, snapshot, old(batch.value.rest)[1..])) else None
    {
      ghost var next := Some(Batch(h, snapshot, batch.value.rest[1..]));
      batch := None;
      if item.id.None? || item.channelId.None? {
        SendStatus(h, Error);
        return false;
      }
      var id, c := item.id.value, item.channelId.value;
      if id in snapshot.Values {
        batch := next;
        SendStatus(h, Error);
        return true;
      }
      if c !in channels.table {
        batch := next;
        SendStatus(h, Warning);
        return true;
      }
      log := log.(calls := log.calls + [SubscribeCall(h, c)]);
      if item.throws {
        log := log.(mismatches := log.mismatches + [Mismatch(h, c, SubscribeThrew)]);
        SendStatus(h, Error);
        return false;
      }
      if h !in clients {
        log := log.(mismatches := log.mismatches + [Mismatch(h, c, ClientGone)]);
        return false;
      }
      batch := next;
      if c in clients[h].subscriptions {
        log := log.(mismatches := log.mismatches + [Mismatch(h, c, AlreadySubscribed)]);
      } else {
        clients := clients[h := clients[h].(subscriptions := clients[h].subscriptions[c := id])];
      }
      return true;
    }

    method HandleUnsubscribe(h: Handle, order: seq<ChannelId>, items: seq<UnsubscribeItem>)
      requires Valid()
      modifies `clients, `log, `mail
      ensures Valid() && State() == Unsubscribe(old(State()), h, order, items)
    {
      hide Unsubscribed, UnsubscribeItems;
      if h in clients {
        ghost var s := State();
        var snapshot := clients[h].subscriptions;
        ghost var u := Unsubscribing(snapshot, [], [], []);
        UnsubscribedNothing(s, h);
        assert items[0..] == items;
        var i, more := 0, true;
        while more && i < |items|
          invariant 0 <= i <= |items| && Valid() && h in clients
          invariant State() == Unsubscribed(s, h, u)
          invariant UnsubscribeItems(h, snapshot, order, items, Unsubscribing(snapshot, [], [], []))
                    == if more then UnsubscribeItems(h, snapshot, order, items[i..], u) else u
        {
          assert items[i..][1..] == items[i + 1..];
          UnsubscribeItemsNext(h, snapshot, order, items[i..], u);
          var sub := None;
          if items[i].id.Some? {
            sub := FindSubscriptionBySubId(order, snapshot, items[i].id.value);
          }
          more, u := UnsubscribeOne(s, h, sub, items[i], u);
          i := i + 1;
        }
        if more {
          assert items[i..] == [];
          UnsubscribeItemsNone(h, snapshot, order, u);
        }
        UnsubscribeIs(s, h, order, items);
      }
    }

    /** One turn of the loop; false if it gives the message up. */
    method UnsubscribeOne(ghost s: Session.Server, h: Handle, sub: Option<ChannelId>, item: UnsubscribeItem,
                          ghost u: Unsubscribing)
      returns (more: bool, ghost v: Unsubscribing)
      requires Valid() && h in s.clients && State() == Unsubscribed(s, h, u)
      modifies `clients, `log, `mail
      ensures Valid() && h in clients && State() == Unsubscribed(s, h, v)
      ensures v == UnsubscribedOne(h, sub, item, u) && more == GoesOn(sub, item)
    {
      v := UnsubscribedOne(h, sub, item, u);
      OneMoreCall(s.log.calls, u.calls);
      OneMoreCall(s.log.mismatches, u.mismatches);
      ToldOneMore(s, h, u.statuses);
      more := item.id.Some? && (sub.None? || !item.throws);
      if item.id.None? {
        SendStatus(h, Error);
      } else if sub.None? {
        SendStatus(h, Warning);
      } else {
        log := log.(calls := log.calls + [UnsubscribeCall(h, sub.value)]);
        if item.throws {
          log := log.(mismatches := log.mismatches + [Mismatch(h, sub.value, UnsubscribeThrew)]);
          SendStatus(h, Error);
        } else if sub.value !in clients[h].subscriptions {
          log := log.(mismatches := log.mismatches + [Mismatch(h, sub.value, UnsubscribedTwice)]);
        } else {
          clients := clients[h := clients[h].(subscriptions := clients[h].subscriptions - {sub.value})];
        }
      }
    }

    // ----- Client publications

    method HandleAdvertise(h: Handle, items: seq<AdvertiseItem>)
      requires Valid()
      modifies `clients, `publications, `mail
      ensures Valid() && State() == ClientAdvertise(old(State()), h, items)
    {
      hide Published, AdvertiseItems, Advertised;
      ghost var s, start := State(), PublishingOf(State(), h);
      var first := h !in publications.stored;
      if first {
        publications := publications.(stored := publications.stored[h := map[]]);
      }
      ghost var p := start;
      PublishedNothing(s, h);
      assert items[0..] == items;
      var i, more := 0, true;
      while more && i < |items|
        invariant 0 <= i <= |items| && Valid()
        invariant State() == Published(s, h, p)
        invariant AdvertiseItems(options.whitelist, h, h in s.clients, first, items, start)
                  == if more then AdvertiseItems(options.whitelist, h, h in s.clients, first, items[i..], p) else p
      {
        assert items[i..][1..] == items[i + 1..];
        AdvertiseItemsNext(options.whitelist, h, h in s.clients, first, items[i..], p);
        more, p := AdvertiseOne(s, h, first, items[i], p);
        i := i + 1;
      }
      if more {
        assert items[i..] == [];
        AdvertiseItemsNone(options.whitelist, h, h in s.clients, first, p);
      }
    }

    /** One turn of the loop; false if it gives the message up. */
    method AdvertiseOne(ghost s: Session.Server, h: Handle, first: bool, item: AdvertiseItem, ghost p: Publishing)
      returns (more: bool, ghost q: Publishing)
      requires Valid() && State() == Published(s, h, p)
      modifies `clients, `publications, `mail
      ensures Valid() && State() == Published(s, h, q)
      ensures (q, more) == Advertised(options.whitelist, h, h in s.clients, first, item, p)
    {
      hide Screened;
      q := Advertised(options.whitelist, h, h in s.clients, first, item, p).0;
      var screened := Screened(options.whitelist, first, publications.stored[h], item);
      if !screened.Accepted? {
        ToldOneMore(s, h, p.statuses);
        SendStatus(h, Error);
        return screened.Rejected?, q;
      }
      more := Publish(s, h, screened.ad, item.throws, p);
    }

    /** Calls the application and, unless that throws, files the advertisement. */
    method Publish(ghost s: Session.Server, h: Handle, ad: Advertisement, throws: bool, ghost p: Publishing)
      returns (done: bool)
      requires Valid() && State() == Published(s, h, p)
      modifies `clients, `publications, `mail
      ensures var called := p.Call(AdvertiseCall(h, ad, !throws));
              Valid() && State() == Published(s, h, if done then called.Store(ad) else called.Status(Error))
      ensures done == (!throws && h in s.clients)
    {
      hide Published;
      ghost var called := p.Call(AdvertiseCall(h, ad, !throws));
      PublishedCall(s, h, p, AdvertiseCall(h, ad, !throws));
      PublishedIs(s, h, called);
      publications := publications.(calls := publications.calls + [AdvertiseCall(h, ad, !throws)]);
      done := !throws && h in clients;
      if done {
        PublishedStore(s, h, called, ad);
        var id: ClientChannelId := ad.channelId;
        clients := clients[h := clients[h].(advertised := clients[h].advertised + {id})];
        if id !in publications.stored[h] {
          var stored: map<ClientChannelId, Advertisement> := publications.stored[h][id := ad];
          publications := publications.(stored := publications.stored[h := stored]);
        }
      } else {
        PublishedStatus(s, h, called);
        SendStatus(h, Error);
      }
    }

    method HandleUnadvertise(h: Handle, items: seq<UnadvertiseItem>)
      requires Valid()
      modifies `clients, `publications, `mail
      ensures Valid() && State() == ClientUnadvertise(old(State()), h, items)
    {
      hide Published, UnadvertiseItems, Unadvertised;
      if h !in publications.stored {
        SendStatus(h, Error);
        return;
      }
      ghost var s, start := State(), PublishingOf(State(), h);
      ghost var p := start;
      PublishedNothing(s, h);
      assert items[0..] == items;
      var i, more := 0, true;
      while more && i < |items|
        invariant 0 <= i <= |items| && Valid()
        invariant State() == Published(s, h, p)
        invariant UnadvertiseItems(h, h in s.clients, items, start)
                  == if more then UnadvertiseItems(h, h in s.clients, items[i..], p) else p
      {
        assert items[i..][1..] == items[i + 1..];
        UnadvertiseItemsNext(h, h in s.clients, items[i..], p);
        more, p := UnadvertiseOne(s, h, items[i], p);
        i := i + 1;
      }
      if more {
        assert items[i..] == [];
        UnadvertiseItemsNone(h, h in s.clients, p);
      }
    }

    /** One turn of the loop; false if it gives the message up. */
    method UnadvertiseOne(ghost s: Session.Server, h: Handle, item: UnadvertiseItem, ghost p: Publishing)
      returns (more: bool, ghost q: Publishing)
      requires Valid() && State() == Published(s, h, p)
      modifies `clients, `publications, `mail
      ensures Valid() && State() == Published(s, h, q)
      ensures (q, more) == Unadvertised(h, h in s.clients, item, p)
    {
      q := Unadvertised(h, h in s.clients, item, p).0;
      if item.id.None? {
        ToldOneMore(s, h, p.statuses);
        SendStatus(h, Error);
        return false, q;
      }
      if item.id.value !in publications.stored[h] {
        return true, q;
      }
      more := Unpublish(s, h, item.id.value, item.throws, p);
    }

    /** Calls the application and, unless that throws, drops the advertisement. */
    method Unpublish(ghost s: Session.Server, h: Handle, id: ClientChannelId, throws: bool, ghost p: Publishing)
      returns (done: bool)
      requires Valid() && State() == Published(s, h, p)
      modifies `clients, `publications, `mail
      ensures var called := p.Call(UnadvertiseCall(h, id, !throws));
              Valid() && State() == Published(s, h, if done then called.Drop(id) else called.Status(Error))
      ensures done == (!throws && h in s.clients)
    {
      hide Published;
      ghost var called := p.Call(UnadvertiseCall(h, id, !throws));
      PublishedCall(s, h, p, UnadvertiseCall(h, id, !throws));
      PublishedIs(s, h, called);
      publications := publications.(calls := publications.calls + [UnadvertiseCall(h, id, !throws)]);
      done := !throws && h in clients;
      if done {
        PublishedDrop(s, h, called, id);
        publications := publications.(stored := publications.stored[h := publications.stored[h] - {id}]);
        clients := clients[h := clients[h].(advertised := clients[h].advertised - {id})];
      } else {
        PublishedStatus(s, h, called);
        SendStatus(h, Error);
      }
    }

    // ----- Channels and services

    /** Returns the ids of the new channels, in order. */
    method AddChannels(infos: seq<ChannelInfo>) returns (ids: seq<ChannelId>)
      requires Valid()
      modifies `channels, `mail
      ensures Valid() && State() == Session.AddChannels(old(State()), infos)
      ensures ids == IdsOf(AddAll(infos, Adding(old(channels), [])).added)
    {
      hide AddAll, IdsOf;
      if infos == [] {
        NoIds(channels);
        return [];
      }
      var a := Add(channels, infos);
      channels := a.catalogue;
      SendToAll(Advertise(a.added));
      ids := IdsOf(a.added);
    }

    /** The first lock. */
    method RemoveChannelsBegin(ids: seq<ChannelId>)
      modifies `channels, `removals
      ensures State() == Session.RemoveChannelsBegin(old(State()), ids)
    {
      if ids != [] {
        channels := RemoveEach(channels, ids);
        removals := removals + [ids];
      }
    }

    /** The second lock, of the removal of these ids. */
    method RemoveChannelsEnd(ids: seq<ChannelId>, order: seq<Handle>, ghost i: nat)
      requires Valid() && Enabled(State(), RemoveChannelsEndEvent(i, order)) && removals[i] == ids
      modifies `clients, `log, `removals, `mail
      ensures Valid() && State() == Session.RemoveChannelsEnd(old(State()), i, order)
    {
      hide Dropped, WithoutChannels, AllNoticed;
      ghost var dropped;
      clients, dropped := DropEach(clients, order, ids);
      log := log.(mismatches := log.mismatches + dropped);
      removals := removals[..i] + removals[i + 1..];
      NoticedByHandle(old(State()), State(), Unadvertise(ids));
      SendToAll(Unadvertise(ids));
    }

    /** None if a definition is invalid and the call throws. */
    method AddServices(infos: seq<ServiceInfo>) returns (ids: Option<seq<ServiceId>>)
      requires Valid()
      modifies `services, `mail
      ensures Valid() && State() == Session.AddServices(old(State()), infos)
      ensures ids == if ValidPrefix(infos) == infos
              then Some(IdsOf(AddAll(infos, Adding(old(services), [])).added)) else None
    {
      hide AddAll, IdsOf, ValidPrefix;
      if infos == [] {
        NoIds(services);
        NoneInvalid();
        return Some([]);
      }
      var valid := LeadingValid(infos);
      var a := Add(services, valid);
      services := a.catalogue;
      if |valid| < |infos| {
        return None;
      }
      PrefixIsAll(infos);
      SendToAll(AdvertiseServices(a.added));
      ids := Some(IdsOf(a.added));
    }

    method RemoveServices(ids: seq<ServiceId>)
      requires Valid()
      modifies `services, `mail
      ensures Valid() && State() == Session.RemoveServices(old(State()), ids)
    {
      hide Present;
      var removed := CollectPresent(services.table, ids);
      services := RemoveEach(services, ids);
      if removed != [] {
        SendToAll(UnadvertiseServices(removed));
      }
    }

    // ----- Messages on channels

    method SendMessage(h: Handle, c: ChannelId, timestamp: u64, payload: seq<u8>, warns: bool)
      requires Valid()
      modifies `queues, `mail
      ensures Valid() && State() == Session.SendMessage(old(State()), h, c, timestamp, payload, warns)
    {
      hide Frame;
      if h !in clients {
        return;
      }
      var q := if h in queues then queues[h] else Queue(0, 0);
      if q.data + q.other + |payload| >= options.sendBufferLimit {
        if warns {
          SendStatus(h, Warning);
        }
        return;
      }
      if c !in clients[h].subscriptions {
        return;
      }
      var header := MessageHeader(clients[h].subscriptions[c], timestamp);
      FrameIs(clients[h].subscriptions[c], timestamp, payload);
      queues := queues[h := q.(data := q.data + |header + payload|)];
      mail := mail[h := mail[h].(frames := mail[h].frames + [header + payload])];
    }

    method BroadcastMessage(order: seq<Handle>, c: ChannelId, timestamp: u64, payload: seq<u8>, warned: set<Handle>)
      requires Valid()
      modifies `queues, `mail
      ensures Valid() && State() == Broadcast(old(State()), order, c, timestamp, payload, warned)
    {
      hide Session.SendMessage;
      assert order[0..] == order;
      for i := 0 to |order|
        invariant Valid()
        invariant Broadcast(State(), order[i..], c, timestamp, payload, warned)
                  == Broadcast(old(State()), order, c, timestamp, payload, warned)
      {
        assert order[i..][1..] == order[i + 1..];
        SendMessage(order[i], c, timestamp, payload, order[i] in warned);
      }
    }
  }

  /** Whom a notice goes to depends only on who is connected. */
  lemma NoticedByHandle(s: Session.Server, t: Session.Server, n: Notice)
    requires t.clients.Keys == s.clients.Keys && t.mail == s.mail
    ensures AllNoticed(t, n) == AllNoticed(s, n)
  {
  }

  lemma NoIds<T>(c: Catalogue<T>)
    ensures IdsOf(AddAll([], Adding(c, [])).added) == []
  {
  }

  lemma NoneInvalid()
    ensures ValidPrefix([]) == []
  {
  }

  method Add<T>(c: Catalogue<T>, infos: seq<T>) returns (a: Adding<T>)
    ensures a == AddAll(infos, Adding(c, []))
  {
    a := Adding(c, []);
    assert infos[0..] == infos;
    for i := 0 to |infos|
      invariant AddAll(infos[i..], a) == AddAll(infos, Adding(c, []))
    {
      assert infos[i..][1..] == infos[i + 1..];
      var id: u32 := (a.catalogue.next + 1) % TWO32;
      var table := a.catalogue.table;
      if id !in table {
        table := table[id := infos[i]];
      }
      a := Adding(Catalogue(table, id), a.added + [(id, infos[i])]);
    }
  }

  method RemoveEach<T>(c: Catalogue<T>, ids: seq<u32>) returns (d: Catalogue<T>)
    ensures d == Erase(c, ids)
  {
    d := c;
    for i := 0 to |ids|
      invariant d == Erase(c, ids[..i])
    {
      d := d.(table := d.table - {ids[i]});
      assert ids[..i + 1] == ids[..i] + [ids[i]];
    }
    assert ids[..|ids|] == ids;
  }

  method LeadingValid(infos: seq<ServiceInfo>) returns (valid: seq<ServiceInfo>)
    ensures valid == ValidPrefix(infos)
  {
    valid := [];
    assert infos[0..] == infos;
    for i := 0 to |infos|
      invariant valid + ValidPrefix(infos[i..]) == ValidPrefix(infos)
    {
      assert infos[i..][1..] == infos[i + 1..];
      if !infos[i].Valid() {
        return;
      }
      valid := valid + [infos[i]];
    }
  }

  lemma {:induction false} PrefixIsAll(infos: seq<ServiceInfo>)
    ensures |ValidPrefix(infos)| <= |infos|
    ensures |ValidPrefix(infos)| == |infos| <==> ValidPrefix(infos) == infos
  {
    if infos != [] && infos[0].Valid() {
      PrefixIsAll(infos[1..]);
      assert infos == [infos[0]] + infos[1..];
    }
  }

  method CollectPresent(services: map<ServiceId, ServiceInfo>, ids: seq<ServiceId>) returns (removed: seq<ServiceId>)
    ensures removed == Present(services, ids)
  {
    removed := [];
    var left := services;
    assert ids[0..] == ids;
    for i := 0 to |ids|
      invariant removed + Present(left, ids[i..]) == Present(services, ids)
    {
      assert ids[i..][1..] == ids[i + 1..];
      if ids[i] in left {
        removed := removed + [ids[i]];
      }
      left := left - {ids[i]};
    }
  }

  /** Drops the subscriptions to these channels, client by client; `dropped` is a record of them. */
  method DropEach(was: map<Handle, ClientInfo>, order: seq<Handle>, ids: seq<ChannelId>)
    returns (clients: map<Handle, ClientInfo>, ghost dropped: seq<Mismatch>)
    requires IsOrdering(order, was.Keys)
    ensures clients == map h | h in was :: WithoutChannels(was[h], ids)
    ensures dropped == Dropped(order, was, ids)
  {
    hide IsOrdering, Dropped, DroppedFrom, WithoutChannels;
    clients, dropped := was, [];
    assert order[0..] == order;
    for i := 0 to |order|
      invariant clients.Keys == was.Keys
      invariant forall h :: h in was ==> clients[h] == if h in order[..i] then WithoutChannels(was[h], ids) else was[h]
      invariant dropped + Dropped(order[i..], was, ids) == Dropped(order, was, ids)
    {
      DroppedNext(order, i, was, ids);
      ghost var more;
      var info;
      info, more := DropFrom(order[i], clients[order[i]], ids);
      clients := clients[order[i] := info];
      dropped := dropped + more;
    }
    AllWalked(order, was, ids);
  }

  lemma DroppedNext(order: seq<Handle>, i: nat, clients: map<Handle, ClientInfo>, ids: seq<ChannelId>)
    requires IsOrdering(order, clients.Keys) && i < |order|
    ensures order[i] in clients && order[i] !in order[..i] && order[..i + 1] == order[..i] + [order[i]]
    ensures Dropped(order[i..], clients, ids)
            == DroppedFrom(order[i], clients[order[i]].subscriptions, ids) + Dropped(order[i + 1..], clients, ids)
  {
    hide DroppedFrom;
    assert order[i] in order && order[i..][1..] == order[i + 1..];
  }

  lemma AllWalked(order: seq<Handle>, clients: map<Handle, ClientInfo>, ids: seq<ChannelId>)
    requires IsOrdering(order, clients.Keys)
    ensures Dropped(order[|order|..], clients, ids) == []
    ensures forall h :: h in clients ==> h in order[..|order|]
  {
    assert order[..|order|] == order;
  }

  method DropFrom(h: Handle, was: ClientInfo, ids: seq<ChannelId>)
    returns (info: ClientInfo, ghost dropped: seq<Mismatch>)
    ensures info == WithoutChannels(was, ids)
    ensures dropped == DroppedFrom(h, was.subscriptions, ids)
  {
    hide WithoutChannels, DroppedFrom;
    info, dropped := was, [];
    assert ids[..0] == [] && ids[0..] == ids;
    WithoutNone(was);
    for i := 0 to |ids|
      invariant info == WithoutChannels(was, ids[..i])
      invariant dropped + DroppedFrom(h, info.subscriptions, ids[i..]) == DroppedFrom(h, was.subscriptions, ids)
    {
      DropNext(h, info, ids, i);
      WithoutOneMore(was, ids, i);
      if ids[i] in info.subscriptions {
        dropped := dropped + [Mismatch(h, ids[i], ChannelRemoved)];
      }
      info := info.(subscriptions := info.subscriptions - {ids[i]});
    }
    assert ids[..|ids|] == ids && ids[|ids|..] == [];
    DropNone(h, info);
  }

  lemma WithoutNone(info: ClientInfo)
    ensures WithoutChannels(info, []) == info
  {
    assert info.subscriptions - (set id | id in []) == info.subscriptions;
  }

  lemma WithoutOneMore(info: ClientInfo, ids: seq<ChannelId>, i: nat)
    requires i < |ids|
    ensures var before := WithoutChannels(info, ids[..i]);
            WithoutChannels(info, ids[..i + 1]) == before.(subscriptions := before.subscriptions - {ids[i]})
  {
    assert ids[..i + 1] == ids[..i] + [ids[i]];
  }

  lemma DropNone(h: Handle, info: ClientInfo)
    ensures DroppedFrom(h, info.subscriptions, []) == []
  {
  }

  lemma DropNext(h: Handle, info: ClientInfo, ids: seq<ChannelId>, i: nat)
    requires i < |ids|
    ensures DroppedFrom(h, info.subscriptions, ids[i..])
            == (if ids[i] in info.subscriptions then [Mismatch(h, ids[i], ChannelRemoved)] else [])
               + DroppedFrom(h, info.subscriptions - {ids[i]}, ids[i + 1..])
  {
    assert ids[i..][1..] == ids[i + 1..];
  }

  /** The header of a data frame, written into its 13 bytes. */
  method MessageHeader(id: SubscriptionId, timestamp: u64) returns (header: seq<u8>)
    ensures header == [1] + Le32(id) + Le64(timestamp)
  {
    hide Le32, Le64;
    var buffer := new u8[FRAME_HEADER];
    buffer[0] := 1;
    WriteUint32LE(buffer, 1, id);
    assert buffer[..5] == [1] + Le32(id);
    WriteUint64LE(buffer, 5, timestamp);
    header := buffer[..];
    assert header[..13] == header;
  }

  lemma FrameIs(id: SubscriptionId, timestamp: u64, payload: seq<u8>)
    ensures Frame(id, timestamp, payload) == ([1] + Le32(id) + Le64(timestamp)) + payload
  {
  }

  // What each update of a `Publishing` is to the server it belongs to.

  lemma PublishedIs(s: Session.Server, h: Handle, p: Publishing)
    ensures var t := Published(s, h, p);
            && t.clients.Keys == s.clients.Keys && h in t.publications.stored && t.publications.stored[h] == p.stored
            && (h in s.clients ==> t.clients[h].advertised == p.advertised)
  {
    hide Told;
  }

  lemma PublishedCall(s: Session.Server, h: Handle, p: Publishing, call: PublicationCall)
    ensures var t := Published(s, h, p);
            Published(s, h, p.Call(call)) == t.(publications := t.publications.(calls := t.publications.calls + [call]))
  {
    hide Told;
    OneMoreCall(s.publications.calls, p.calls);
  }

  lemma PublishedStatus(s: Session.Server, h: Handle, p: Publishing)
    ensures var t := Published(s, h, p);
            Published(s, h, p.Status(Error)) == t.(mail := Told(t, h, [Error]))
  {
    ToldOneMore(s, h, p.statuses);
  }

  lemma PublishedStore(s: Session.Server, h: Handle, p: Publishing, ad: Advertisement)
    requires h in s.clients
    ensures var t, id := Published(s, h, p), ad.channelId;
            && h in t.clients && h in t.publications.stored
            && var stored := t.publications.stored[h];
               Published(s, h, p.Store(ad))
               == t.(clients := t.clients[h := t.clients[h].(advertised := t.clients[h].advertised + {id})],
                     publications := t.publications.(stored :=
                       t.publications.stored[h := if id in stored then stored else stored[id := ad]]))
  {
    hide Told;
  }

  lemma PublishedDrop(s: Session.Server, h: Handle, p: Publishing, id: ClientChannelId)
    requires h in s.clients
    ensures var t := Published(s, h, p);
            && h in t.clients && h in t.publications.stored
            && Published(s, h, p.Drop(id))
               == t.(clients := t.clients[h := t.clients[h].(advertised := t.clients[h].advertised - {id})],
                     publications := t.publications.(
                       stored := t.publications.stored[h := t.publications.stored[h] - {id}]))
  {
    hide Told;
  }

  /** What becomes of one advertised channel: it is malformed, turned down, or put to the application. */
  datatype Screening = Malformed | Rejected | Accepted(ad: Advertisement)

  function Screened(whitelist: iset<string>, first: bool, stored: map<ClientChannelId, Advertisement>,
                    item: AdvertiseItem): Screening
  {
    if item.id.None? then Malformed
    else if !first && item.id.value in stored then Rejected
    else if item.topic.None? then Malformed
    else if item.topic.value !in whitelist then Rejected
    else if item.encoding.None? || item.schemaName.None? then Malformed
    else Accepted(Advertisement(item.id.value, item.topic.value, item.encoding.value, item.schemaName.value))
  }

  /** One turn of `AdvertiseItems`, and whether there is another. */
  function Advertised(whitelist: iset<string>, h: Handle, connected: bool, first: bool, item: AdvertiseItem,
                      p: Publishing): (Publishing, bool)
  {
    var screened := Screened(whitelist, first, p.stored, item);
    if !screened.Accepted? then (p.Status(Error), screened.Rejected?)
    else
      var called := p.Call(AdvertiseCall(h, screened.ad, !item.throws));
      if item.throws || !connected then (called.Status(Error), false) else (called.Store(screened.ad), true)
  }

  lemma AdvertiseItemsNext(whitelist: iset<string>, h: Handle, connected: bool, first: bool,
                           items: seq<AdvertiseItem>, p: Publishing)
    requires items != []
    ensures var (q, more) := Advertised(whitelist, h, connected, first, items[0], p);
            AdvertiseItems(whitelist, h, connected, first, items, p)
            == if more then AdvertiseItems(whitelist, h, connected, first, items[1..], q) else q
  {
  }

  lemma AdvertiseItemsNone(whitelist: iset<string>, h: Handle, connected: bool, first: bool, p: Publishing)
    ensures AdvertiseItems(whitelist, h, connected, first, [], p) == p
  {
  }

  function Unadvertised(h: Handle, connected: bool, item: UnadvertiseItem, p: Publishing): (Publishing, bool) {
    if item.id.None? then (p.Status(Error), false)
    else if item.id.value !in p.stored then (p, true)
    else
      var called := p.Call(UnadvertiseCall(h, item.id.value, !item.throws));
      if item.throws || !connected then (called.Status(Error), false) else (called.Drop(item.id.value), true)
  }

  lemma UnadvertiseItemsNext(h: Handle, connected: bool, items: seq<UnadvertiseItem>, p: Publishing)
    requires items != []
    ensures var (q, more) := Unadvertised(h, connected, items[0], p);
            UnadvertiseItems(h, connected, items, p)
            == if more then UnadvertiseItems(h, connected, items[1..], q) else q
  {
  }

  lemma UnadvertiseItemsNone(h: Handle, connected: bool, p: Publishing)
    ensures UnadvertiseItems(h, connected, [], p) == p
  {
  }

  /** Before the first turn a client has an empty table of publications, if it had none. */
  lemma PublishedNothing(s: Session.Server, h: Handle)
    requires h in s.clients ==> h in s.mail
    ensures Published(s, h, PublishingOf(s, h))
            == if h in s.publications.stored then s
               else s.(publications := s.publications.(stored := s.publications.stored[h := map[]]))
  {
    assert s.publications.calls + [] == s.publications.calls;
    if h in s.clients {
      assert s.mail[h].statuses + [] == s.mail[h].statuses;
      assert s.mail[h := s.mail[h]] == s.mail && s.clients[h := s.clients[h]] == s.clients;
    }
    if h in s.publications.stored {
      assert s.publications.stored[h := s.publications.stored[h]] == s.publications.stored;
    }
  }

  method FindSubscriptionBySubId(order: seq<ChannelId>, m: map<ChannelId, SubscriptionId>, id: SubscriptionId)
    returns (found: Option<ChannelId>)
    ensures found == FindSubscription(order, m, id)
  {
    assert order[0..] == order;
    for i := 0 to |order|
      invariant FindSubscription(order[i..], m, id) == FindSubscription(order, m, id)
    {
      assert order[i..][1..] == order[i + 1..];
      if order[i] in m && m[order[i]] == id {
        return Some(order[i]);
      }
    }
    return None;
  }

  lemma OneMoreCall<T>(before: seq<T>, calls: seq<T>)
    ensures forall call :: before + calls + [call] == before + (calls + [call])
  {
  }

  lemma ToldOneMore(s: Session.Server, h: Handle, levels: seq<Level>)
    ensures forall t: Session.Server, level {:trigger Told(t, h, [level])} ::
              t.clients.Keys == s.clients.Keys && t.mail == Told(s, h, levels) ==>
                Told(t, h, [level]) == Told(s, h, levels + [level])
  {
    forall t: Session.Server, level | t.clients.Keys == s.clients.Keys && t.mail == Told(s, h, levels)
      ensures Told(t, h, [level]) == Told(s, h, levels + [level])
    {
      assert MailOf(s.mail, h).statuses + levels + [level] == MailOf(s.mail, h).statuses + (levels + [level]);
    }
  }

  /** The server in the middle of an unsubscribe message. */
  function Unsubscribed(s: Session.Server, h: Handle, u: Unsubscribing): Session.Server
    requires h in s.clients
  {
    s.(clients := s.clients[h := s.clients[h].(subscriptions := u.subscriptions)],
       log := SubscriptionLog(s.log.calls + u.calls, s.log.mismatches + u.mismatches),
       mail := Told(s, h, u.statuses))
  }

  /** One turn of `UnsubscribeItems`, and whether there is another. */
  function UnsubscribedOne(h: Handle, sub: Option<ChannelId>, item: UnsubscribeItem, u: Unsubscribing): Unsubscribing {
    if item.id.None? then u.(statuses := u.statuses + [Error])
    else if sub.None? then u.(statuses := u.statuses + [Warning])
    else
      var called := u.(calls := u.calls + [UnsubscribeCall(h, sub.value)]);
      if item.throws then
        called.(mismatches := u.mismatches + [Mismatch(h, sub.value, UnsubscribeThrew)],
                statuses := u.statuses + [Error])
      else if sub.value !in u.subscriptions then
        called.(mismatches := u.mismatches + [Mismatch(h, sub.value, UnsubscribedTwice)])
      else called.(subscriptions := u.subscriptions - {sub.value})
  }

  predicate GoesOn(sub: Option<ChannelId>, item: UnsubscribeItem) {
    item.id.Some? && (sub.None? || !item.throws)
  }

  lemma UnsubscribeItemsNext(h: Handle, snapshot: map<ChannelId, SubscriptionId>, order: seq<ChannelId>,
                             items: seq<UnsubscribeItem>, u: Unsubscribing)
    requires items != []
    ensures var sub := if items[0].id.Some? then FindSubscription(order, snapshot, items[0].id.value) else None;
            var v := UnsubscribedOne(h, sub, items[0], u);
            UnsubscribeItems(h, snapshot, order, items, u)
            == if GoesOn(sub, items[0]) then UnsubscribeItems(h, snapshot, order, items[1..], v) else v
  {
    hide FindSubscription;
  }

  lemma UnsubscribeItemsNone(h: Handle, snapshot: map<ChannelId, SubscriptionId>, order: seq<ChannelId>,
                             u: Unsubscribing)
    ensures UnsubscribeItems(h, snapshot, order, [], u) == u
  {
  }

  lemma UnsubscribedNothing(s: Session.Server, h: Handle)
    requires h in s.clients && h in s.mail
    ensures Unsubscribed(s, h, Unsubscribing(s.clients[h].subscriptions, [], [], [])) == s
  {
    assert s.log.calls + [] == s.log.calls && s.log.mismatches + [] == s.log.mismatches;
    assert s.mail[h].statuses + [] == s.mail[h].statuses;
    assert s.mail[h := s.mail[h]] == s.mail && s.clients[h := s.clients[h]] == s.clients;
  }

  lemma UnsubscribeIs(s: Session.Server, h: Handle, order: seq<ChannelId>, items: seq<UnsubscribeItem>)
    requires h in s.clients
    ensures var m := s.clients[h].subscriptions;
            Unsubscribe(s, h, order, items)
            == Unsubscribed(s, h, UnsubscribeItems(h, m, order, items, Unsubscribing(m, [], [], [])))
  {
    hide UnsubscribeItems, Told;
  }

  lemma SubscribeNextShrinks(s: Session.Server)
    requires s.batch.Some?
    ensures var t := SubscribeNext(s);
            t.batch.Some? ==> |t.batch.value.rest| < |s.batch.value.rest|
  {
    hide Told, Subscribed;
  }

  lemma SubscribeNextEnds(s: Session.Server)
    requires s.batch.Some? && s.batch.value.rest == []
    ensures RunBatch(s) == s.(batch := None)
  {
    assert SubscribeNext(s) == s.(batch := None);
  }

  /** It is a run of the session. */
  lemma {:induction false} RunBatchRuns(s: Session.Server) returns (events: seq<Event>)
    ensures Runs(Anything, s, events, RunBatch(s))
    ensures forall e :: e in events ==> e == SubscribeNextEvent
    decreases if s.batch.Some? then |s.batch.value.rest| + 1 else 0
  {
    hide SubscribeNext;
    if s.batch.None? {
      events := [];
    } else {
      SubscribeNextShrinks(s);
      var more := RunBatchRuns(SubscribeNext(s));
      events := [SubscribeNextEvent] + more;
      assert events[1..] == more;
    }
  }
}
