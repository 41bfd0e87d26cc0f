/**
 * The server's session state and its steps.
 *
 * One step is one call of the server's interface or one handled client message, with two calls cut
 * finer: a subscribe message is one step per subscription it lists, and removing channels is one
 * step per lock. Steps of other connections and of the server's owner may come in between. What the
 * environment decides is part of the event: whether a handler throws, in which order an unordered
 * container is walked, whether a debounced warning is sent, how far a send queue has drained.
 *
 * The last fields of the state are observers: what each client was sent, and the calls made to the
 * handlers, one list per family.
 */
module Session {
  import opened Wrappers
  import opened Bytes
  import opened Orderings
  import opened ParameterJson
  import opened ConnectionGraph

  type Handle = nat
  type ChannelId = u32
  type ClientChannelId = u32
  type SubscriptionId = u32
  type ServiceId = u32

  // ----- Entities

  datatype ChannelInfo = ChannelInfo(topic: string, encoding: string, schemaName: string, schema: string,
                                     schemaEncoding: Option<string>)

  datatype Definition = Definition(encoding: string, schemaName: string, schemaEncoding: string, schema: string)

  datatype ServiceInfo = ServiceInfo(name: string, type_: string,
                                     request: Option<Definition>, response: Option<Definition>,
                                     requestSchema: Option<string>, responseSchema: Option<string>) {
    predicate Valid() {
      (request.Some? || requestSchema.Some?) && (response.Some? || responseSchema.Some?)
    }
  }

  datatype Advertisement = Advertisement(channelId: ClientChannelId, topic: string, encoding: string,
                                         schemaName: string)

  datatype ClientInfo = ClientInfo(subscriptions: map<ChannelId, SubscriptionId>,
                                   advertised: set<ClientChannelId>,
                                   subscribedToGraph: bool)

  const NEW_CLIENT := ClientInfo(map[], {}, false)

  // ----- Observers

  datatype Level = Warning | Error

  datatype Notice =
    | Advertise(channels: seq<(ChannelId, ChannelInfo)>)
    | Unadvertise(channelIds: seq<ChannelId>)
    | AdvertiseServices(services: seq<(ServiceId, ServiceInfo)>)
    | UnadvertiseServices(serviceIds: seq<ServiceId>)

  /** What a connected client was sent, by family of message. */
  datatype Outbox = Outbox(notices: seq<Notice>, graph: seq<Update>, frames: seq<seq<u8>>,
                           parameters: seq<seq<Parameter>>, statuses: seq<Level>)

  const NO_MAIL := Outbox([], [], [], [], [])

  datatype SubscriptionCall =
    | SubscribeCall(client: Handle, channel: ChannelId)
    | UnsubscribeCall(client: Handle, channel: ChannelId)

  /** Why subscribe and unsubscribe calls for a channel can fail to pair up. */
  datatype Cause =
    // a subscribe call with no unsubscribe call to come
    | SubscribeThrew | AlreadySubscribed | ClientGone | ChannelRemoved
    // an unsubscribe call that ended no subscription
    | UnsubscribeThrew | UnsubscribedTwice

  datatype Mismatch = Mismatch(client: Handle, channel: ChannelId, cause: Cause)

  /** `ok` is false when the handler threw and the server gave the rest of the message up. */
  datatype PublicationCall =
    | AdvertiseCall(client: Handle, ad: Advertisement, ok: bool)
    | UnadvertiseCall(client: Handle, id: ClientChannelId, ok: bool)
    | MessageCall(client: Handle, ad: Advertisement)

  datatype ParameterCall =
    | ParameterSubscribe(names: set<string>)
    | ParameterUnsubscribe(names: set<string>)

  // ----- State

  datatype Options = Options(sendBufferLimit: nat, whitelist: iset<string>)

  /** Bytes waiting on a connection: data frames, and everything else. */
  datatype Queue = Queue(data: nat, other: nat)

  /** A subscribe message in the middle of its loop. */
  datatype Batch = Batch(client: Handle, snapshot: map<ChannelId, SubscriptionId>, rest: seq<SubscribeItem>)

  /** A table numbered by a 32-bit counter. */
  datatype Catalogue<T> = Catalogue(table: map<u32, T>, next: u32)

  datatype Publications = Publications(stored: map<Handle, map<ClientChannelId, Advertisement>>,
                                       calls: seq<PublicationCall>)

  datatype Parameters = Parameters(subscriptions: map<Handle, set<string>>, calls: seq<ParameterCall>)

  datatype GraphState = GraphState(
    graph: Graph,
    count: int,
    calls: seq<bool>,
    since: map<Handle, nat>,      // how much graph mail a client had when it was last flagged
    unflagged: nat)               // subscribe calls that raised the counter and flagged nobody

  datatype SubscriptionLog = SubscriptionLog(calls: seq<SubscriptionCall>, mismatches: seq<Mismatch>)

  datatype Server = Server(
    options: Options,
    clients: map<Handle, ClientInfo>,
    channels: Catalogue<ChannelInfo>,
    services: Catalogue<ServiceInfo>,
    removals: seq<seq<ChannelId>>,        // calls of removeChannels between their two locks
    publications: Publications,
    parameters: Parameters,
    graph: GraphState,
    batch: Option<Batch>,
    log: SubscriptionLog,
    queues: map<Handle, Queue>,
    mail: Mail)

  function Init(options: Options): Server {
    Server(options, map[], Catalogue(map[], 0), Catalogue(map[], 0), [], Publications(map[], []), Parameters(map[], []),
           GraphState(EMPTY, 0, [], map[], 0), None, SubscriptionLog([], []), map[], map[])
  }

  // ----- Mail

  type Mail = map<Handle, Outbox>

  function MailOf(mail: Mail, h: Handle): Outbox {
    if h in mail then mail[h] else NO_MAIL
  }

  /** Sends to a handle that is no longer connected go nowhere. */
  function Told(s: Server, h: Handle, levels: seq<Level>): Mail {
    if h in s.clients then s.mail[h := MailOf(s.mail, h).(statuses := MailOf(s.mail, h).statuses + levels)] else s.mail
  }

  function GraphTold(s: Server, h: Handle, u: Update): Mail {
    if h in s.clients then s.mail[h := MailOf(s.mail, h).(graph := MailOf(s.mail, h).graph + [u])] else s.mail
  }

  function AllNoticed(s: Server, n: Notice): Mail {
    map h | h in s.mail.Keys + s.clients.Keys ::
      if h in s.clients then MailOf(s.mail, h).(notices := MailOf(s.mail, h).notices + [n]) else s.mail[h]
  }

  function QueueOf(s: Server, h: Handle): Queue {
    if h in s.queues then s.queues[h] else Queue(0, 0)
  }

  // ----- Connections

  function Listing<I, T>(order: seq<I>, table: map<I, T>): seq<(I, T)>
    requires forall i :: i in order ==> i in table
  {
    if order == [] then [] else [(order[0], table[order[0]])] + Listing(order[1..], table)
  }

  function Open(s: Server, h: Handle, channelOrder: seq<ChannelId>, serviceOrder: seq<ServiceId>): Server
    requires forall i :: i in channelOrder ==> i in s.channels.table
    requires forall i :: i in serviceOrder ==> i in s.services.table
  {
    var welcome := [Advertise(Listing(channelOrder, s.channels.table)),
                    AdvertiseServices(Listing(serviceOrder, s.services.table))];
    s.(clients := s.clients[h := NEW_CLIENT],
       queues := s.queues[h := Queue(0, 0)],
       mail := s.mail[h := NO_MAIL.(notices := welcome)])
  }

  function UnsubscribeCalls(h: Handle, order: seq<ChannelId>): seq<SubscriptionCall> {
    if order == [] then [] else [UnsubscribeCall(h, order[0])] + UnsubscribeCalls(h, order[1..])
  }

  function UnadvertiseCalls(h: Handle, order: seq<ClientChannelId>): seq<PublicationCall> {
    if order == [] then [] else [UnadvertiseCall(h, order[0], true)] + UnadvertiseCalls(h, order[1..])
  }

  function Close(s: Server, h: Handle, adOrder: seq<ClientChannelId>, subOrder: seq<ChannelId>): Server {
    if h !in s.clients then s
    else
      s.(clients := s.clients - {h},
         publications := Publications(s.publications.stored - {h}, s.publications.calls + UnadvertiseCalls(h, adOrder)),
         log := s.log.(calls := s.log.calls + UnsubscribeCalls(h, subOrder)),
         parameters := ForgetParameters(s.parameters, h),
         graph := if s.clients[h].subscribedToGraph then LeaveGraph(s.graph) else s.graph)
  }

  // ----- Subscriptions

  datatype SubscribeItem = SubscribeItem(id: Option<SubscriptionId>, channelId: Option<ChannelId>, throws: bool)

  datatype UnsubscribeItem = UnsubscribeItem(id: Option<SubscriptionId>, throws: bool)

  function SubscribeStart(s: Server, h: Handle, items: seq<SubscribeItem>): Server {
    if h !in s.clients then s else s.(batch := Some(Batch(h, s.clients[h].subscriptions, items)))
  }

  /** One turn of the loop over the subscriptions of a message. */
  function SubscribeNext(s: Server): Server
    requires s.batch.Some?
  {
    var Batch(h, snapshot, rest) := s.batch.value;
    if rest == [] then s.(batch := None)
    else
      var item, more := rest[0], Some(Batch(h, snapshot, rest[1..]));
      if item.id.None? || item.channelId.None? then s.(batch := None, mail := Told(s, h, [Error]))
      else
        var id, c := item.id.value, item.channelId.value;
        if id in snapshot.Values then s.(batch := more, mail := Told(s, h, [Error]))
        else if c !in s.channels.table then s.(batch := more, mail := Told(s, h, [Warning]))
        else if item.throws then
          s.(batch := None, log := Subscribed(s.log, h, c, [SubscribeThrew]), mail := Told(s, h, [Error]))
        else if h !in s.clients then
          s.(batch := None, log := Subscribed(s.log, h, c, [ClientGone]))
        else if c in s.clients[h].subscriptions then
          s.(batch := more, log := Subscribed(s.log, h, c, [AlreadySubscribed]))
        else
          var info := s.clients[h];
          s.(batch := more, log := Subscribed(s.log, h, c, []),
             clients := s.clients[h := info.(subscriptions := info.subscriptions[c := id])])
  }

  /** The rest of a subscribe message, turn by turn, with nothing in between. */
  function RunBatch(s: Server): Server
    decreases if s.batch.None? then 0 else 1 + |s.batch.value.rest|
  {
    if s.batch.None? then s else RunBatch(SubscribeNext(s))
  }

  /** A call of the subscribe handler, and why no unsubscribe call will follow it, if none will. */
  function Subscribed(log: SubscriptionLog, h: Handle, c: ChannelId, causes: seq<Cause>): SubscriptionLog {
    SubscriptionLog(log.calls + [SubscribeCall(h, c)],
                    log.mismatches + if causes == [] then [] else [Mismatch(h, c, causes[0])])
  }

  /** The first channel, in walking order, that has the subscription id. */
  function FindSubscription(order: seq<ChannelId>, m: map<ChannelId, SubscriptionId>,
                            id: SubscriptionId): Option<ChannelId>
  {
    if order == [] then None
    else if order[0] in m && m[order[0]] == id then Some(order[0])
    else FindSubscription(order[1..], m, id)
  }

  datatype Unsubscribing = Unsubscribing(subscriptions: map<ChannelId, SubscriptionId>, calls: seq<SubscriptionCall>,
                                         mismatches: seq<Mismatch>, statuses: seq<Level>)

  function UnsubscribeItems(h: Handle, snapshot: map<ChannelId, SubscriptionId>, order: seq<ChannelId>,
                            items: seq<UnsubscribeItem>, u: Unsubscribing): Unsubscribing
    decreases |items|
  {
    if items == [] then u
    else if items[0].id.None? then u.(statuses := u.statuses + [Error])
    else
      match FindSubscription(order, snapshot, items[0].id.value)
      case None => UnsubscribeItems(h, snapshot, order, items[1..], u.(statuses := u.statuses + [Warning]))
      case Some(c) =>
        var called := u.(calls := u.calls + [UnsubscribeCall(h, c)]);
        if items[0].throws then
          called.(mismatches := u.mismatches + [Mismatch(h, c, UnsubscribeThrew)], statuses := u.statuses + [Error])
        else if c !in u.subscriptions then
          UnsubscribeItems(h, snapshot, order, items[1..],
                           called.(mismatches := u.mismatches + [Mismatch(h, c, UnsubscribedTwice)]))
        else
          UnsubscribeItems(h, snapshot, order, items[1..], called.(subscriptions := u.subscriptions - {c}))
  }

  function Unsubscribe(s: Server, h: Handle, order: seq<ChannelId>, items: seq<UnsubscribeItem>): Server {
    if h !in s.clients then s
    else
      var info := s.clients[h];
      var u := UnsubscribeItems(h, info.subscriptions, order, items, Unsubscribing(info.subscriptions, [], [], []));
      s.(clients := s.clients[h := info.(subscriptions := u.subscriptions)],
         log := SubscriptionLog(s.log.calls + u.calls, s.log.mismatches + u.mismatches),
         mail := Told(s, h, u.statuses))
  }

  // ----- Client publications

  datatype AdvertiseItem = AdvertiseItem(id: Option<ClientChannelId>, topic: Option<string>,
                                         encoding: Option<string>, schemaName: Option<string>, throws: bool)

  datatype UnadvertiseItem = UnadvertiseItem(id: Option<ClientChannelId>, throws: bool)

  datatype Publishing = Publishing(advertised: set<ClientChannelId>, stored: map<ClientChannelId, Advertisement>,
                                   calls: seq<PublicationCall>, statuses: seq<Level>) {
    function Status(level: Level): Publishing {
      this.(statuses := statuses + [level])
    }

    function Call(call: PublicationCall): Publishing {
      this.(calls := calls + [call])
    }

    function Store(ad: Advertisement): Publishing {
      this.(advertised := advertised + {ad.channelId},
            stored := if ad.channelId in stored then stored else stored[ad.channelId := ad])
    }

    function Drop(id: ClientChannelId): Publishing {
      this.(advertised := advertised - {id}, stored := stored - {id})
    }
  }

  function AdvertiseItems(whitelist: iset<string>, h: Handle, connected: bool, first: bool,
                          items: seq<AdvertiseItem>, p: Publishing): Publishing
    decreases |items|
  {
    if items == [] then p
    else
      var item := items[0];
      if item.id.None? then p.Status(Error)
      else if !first && item.id.value in p.stored then
        AdvertiseItems(whitelist, h, connected, first, items[1..], p.Status(Error))
      else if item.topic.None? then p.Status(Error)
      else if item.topic.value !in whitelist then
        AdvertiseItems(whitelist, h, connected, first, items[1..], p.Status(Error))
      else if item.encoding.None? || item.schemaName.None? then p.Status(Error)
      else
        var ad := Advertisement(item.id.value, item.topic.value, item.encoding.value, item.schemaName.value);
        var called := p.Call(AdvertiseCall(h, ad, !item.throws));
        if item.throws || !connected then called.Status(Error)
        else AdvertiseItems(whitelist, h, connected, first, items[1..], called.Store(ad))
  }

  function UnadvertiseItems(h: Handle, connected: bool, items: seq<UnadvertiseItem>, p: Publishing): Publishing
    decreases |items|
  {
    if items == [] then p
    else if items[0].id.None? then p.Status(Error)
    else
      var id := items[0].id.value;
      if id !in p.stored then UnadvertiseItems(h, connected, items[1..], p)
      else
        var called := p.Call(UnadvertiseCall(h, id, !items[0].throws));
        if items[0].throws || !connected then called.Status(Error)
        else UnadvertiseItems(h, connected, items[1..], called.Drop(id))
  }

  function PublicationsOf(p: Publications, h: Handle): map<ClientChannelId, Advertisement> {
    if h in p.stored then p.stored[h] else map[]
  }

  /** Where the publications of one client stand before a message of it is handled. */
  function PublishingOf(s: Server, h: Handle): Publishing {
    Publishing(if h in s.clients then s.clients[h].advertised else {}, PublicationsOf(s.publications, h), [], [])
  }

  function Published(s: Server, h: Handle, p: Publishing): Server {
    s.(clients := if h in s.clients then s.clients[h := s.clients[h].(advertised := p.advertised)] else s.clients,
       publications := Publications(s.publications.stored[h := p.stored], s.publications.calls + p.calls),
       mail := Told(s, h, p.statuses))
  }

  function ClientAdvertise(s: Server, h: Handle, items: seq<AdvertiseItem>): Server {
    Published(s, h, AdvertiseItems(s.options.whitelist, h, h in s.clients, h !in s.publications.stored, items,
                                   PublishingOf(s, h)))
  }

  function ClientUnadvertise(s: Server, h: Handle, items: seq<UnadvertiseItem>): Server {
    if h !in s.publications.stored then s.(mail := Told(s, h, [Error]))
    else Published(s, h, UnadvertiseItems(h, h in s.clients, items, PublishingOf(s, h)))
  }

  function ClientMessage(s: Server, h: Handle, id: ClientChannelId, throws: bool): Server {
    var stored := PublicationsOf(s.publications, h);
    if id !in stored then s.(mail := Told(s, h, [Error]))
    else
      s.(publications := s.publications.(calls := s.publications.calls + [MessageCall(h, stored[id])]),
         mail := if throws then Told(s, h, [Error]) else s.mail)
  }

  // ----- Parameter subscriptions

  function NamesOf(p: Parameters, h: Handle): set<string> {
    if h in p.subscriptions then p.subscriptions[h] else {}
  }

  predicate IsParameterSubscribed(p: Parameters, name: string) {
    exists h :: h in p.subscriptions && name in p.subscriptions[h]
  }

  /** Which of the names nobody is subscribed to. */
  function Unused(p: Parameters, names: set<string>): set<string> {
    set n | n in names && !IsParameterSubscribed(p, n)
  }

  function AddNames(p: Parameters, h: Handle, names: set<string>): Parameters {
    var wanted := Unused(p, names);
    Parameters(p.subscriptions[h := NamesOf(p, h) + names],
               if wanted == {} then p.calls else p.calls + [ParameterSubscribe(wanted)])
  }

  /** Withdraws, upstream, the names that nobody is subscribed to any more. */
  function Withdraw(p: Parameters, names: set<string>): Parameters {
    var unused := Unused(p, names);
    if unused == {} then p else p.(calls := p.calls + [ParameterUnsubscribe(unused)])
  }

  function RemoveNames(p: Parameters, h: Handle, names: set<string>): Parameters {
    Withdraw(p.(subscriptions := p.subscriptions[h := NamesOf(p, h) - names]), names)
  }

  function ForgetParameters(p: Parameters, h: Handle): Parameters {
    Withdraw(p.(subscriptions := p.subscriptions - {h}), NamesOf(p, h))
  }

  /** A throwing handler is reported to the client; the table and the call stand. */
  function SubscribeParameters(s: Server, h: Handle, names: set<string>, throws: bool): Server {
    var p := AddNames(s.parameters, h, names);
    s.(parameters := p, mail := if throws && p.calls != s.parameters.calls then Told(s, h, [Error]) else s.mail)
  }

  function UnsubscribeParameters(s: Server, h: Handle, names: set<string>, throws: bool): Server {
    var p := RemoveNames(s.parameters, h, names);
    s.(parameters := p, mail := if throws && p.calls != s.parameters.calls then Told(s, h, [Error]) else s.mail)
  }

  function Selected(ps: seq<Parameter>, names: set<string>): seq<Parameter> {
    if ps == [] then []
    else (if ps[0].name in names then [ps[0]] else []) + Selected(ps[1..], names)
  }

  function Set(ps: seq<Parameter>): seq<Parameter> {
    if ps == [] then []
    else (if ps[0].value.NotSet? then [] else [ps[0]]) + Set(ps[1..])
  }

  function UpdateParameters(s: Server, ps: seq<Parameter>): Server {
    s.(mail := map h | h in s.mail.Keys + s.clients.Keys ::
                 var chosen := Selected(ps, NamesOf(s.parameters, h));
                 if h in s.clients && chosen != []
                 then MailOf(s.mail, h).(parameters := MailOf(s.mail, h).parameters + [Set(chosen)])
                 else MailOf(s.mail, h))
  }

  // ----- Connection graph

  function SubscribeGraph(s: Server, h: Handle, throws: bool): Server {
    var g := s.graph;
    if g.count + 1 != 1 then
      s.(graph := g.(count := g.count + 1, unflagged := g.unflagged + 1), mail := GraphTold(s, h, Snapshot(g.graph)))
    else if throws || h !in s.clients then
      s.(graph := g.(count := g.count + 1, calls := g.calls + [true], unflagged := g.unflagged + 1),
         mail := Told(s, h, [Error]))
    else
      s.(graph := g.(count := g.count + 1, calls := g.calls + [true], since := g.since[h := |MailOf(s.mail, h).graph|]),
         clients := s.clients[h := s.clients[h].(subscribedToGraph := true)],
         mail := GraphTold(s, h, Snapshot(g.graph)))
  }

  function LeaveGraph(g: GraphState): GraphState {
    g.(count := g.count - 1, calls := if g.count - 1 == 0 then g.calls + [false] else g.calls)
  }

  function UnsubscribeGraph(s: Server, h: Handle, throws: bool): Server {
    if h !in s.clients then s
    else if s.clients[h].subscribedToGraph then
      s.(clients := s.clients[h := s.clients[h].(subscribedToGraph := false)],
         graph := LeaveGraph(s.graph),
         mail := if throws && s.graph.count == 1 then Told(s, h, [Error]) else s.mail)
    else s.(mail := Told(s, h, [Error]))
  }

  function UpdateGraph(s: Server, graph: Graph): Server {
    var u := Diff(s.graph.graph, graph);
    s.(graph := s.graph.(graph := graph), mail := if u.Empty() then s.mail else GraphUpdated(s, u))
  }

  function GraphUpdated(s: Server, u: Update): Mail {
    map h | h in s.mail.Keys + s.clients.Keys ::
      if h in s.clients && s.clients[h].subscribedToGraph
      then MailOf(s.mail, h).(graph := MailOf(s.mail, h).graph + [u])
      else MailOf(s.mail, h)
  }

  // ----- Channels and services

  datatype Adding<T> = Adding(catalogue: Catalogue<T>, added: seq<(u32, T)>)

  /** Numbers the entries with `++next`, wrapping at 32 bits; an id already in the table keeps its entry. */
  function AddAll<T>(infos: seq<T>, a: Adding<T>): Adding<T>
    decreases |infos|
  {
    if infos == [] then a else AddAll(infos[1..], AddOne(infos[0], a))
  }

  function AddOne<T>(info: T, a: Adding<T>): Adding<T> {
    var c, id := a.catalogue, (a.catalogue.next + 1) % TWO32;
    Adding(Catalogue(if id in c.table then c.table else c.table[id := info], id), a.added + [(id, info)])
  }

  function IdsOf<T>(entries: seq<(u32, T)>): seq<u32> {
    seq(|entries|, i requires 0 <= i < |entries| => entries[i].0)
  }

  function AddChannels(s: Server, infos: seq<ChannelInfo>): Server {
    if infos == [] then s
    else
      var a := AddAll(infos, Adding(s.channels, []));
      s.(channels := a.catalogue, mail := AllNoticed(s, Advertise(a.added)))
  }

  function Erase<T>(c: Catalogue<T>, ids: seq<u32>): Catalogue<T> {
    c.(table := c.table - (set i | i in ids))
  }

  /** The first lock of removeChannels: the channels go. */
  function RemoveChannelsBegin(s: Server, ids: seq<ChannelId>): Server {
    if ids == [] then s else s.(channels := Erase(s.channels, ids), removals := s.removals + [ids])
  }

  function WithoutChannels(info: ClientInfo, ids: seq<ChannelId>): ClientInfo {
    info.(subscriptions := info.subscriptions - (set i | i in ids))
  }

  /** The subscriptions a removal drops without a call, client by client in walking order. */
  function DroppedFrom(h: Handle, subscriptions: map<ChannelId, SubscriptionId>, ids: seq<ChannelId>): seq<Mismatch> {
    if ids == [] then []
    else
      (if ids[0] in subscriptions then [Mismatch(h, ids[0], ChannelRemoved)] else [])
      + DroppedFrom(h, subscriptions - {ids[0]}, ids[1..])
  }

  function Dropped(order: seq<Handle>, clients: map<Handle, ClientInfo>, ids: seq<ChannelId>): seq<Mismatch> {
    if order == [] then []
    else
      (if order[0] in clients then DroppedFrom(order[0], clients[order[0]].subscriptions, ids) else [])
      + Dropped(order[1..], clients, ids)
  }

  /** The second lock of removeChannels: its subscriptions go and the clients are told. */
  function RemoveChannelsEnd(s: Server, i: nat, order: seq<Handle>): Server
    requires i < |s.removals|
  {
    var ids := s.removals[i];
    s.(clients := map h | h in s.clients :: WithoutChannels(s.clients[h], ids),
       log := s.log.(mismatches := s.log.mismatches + Dropped(order, s.clients, ids)),
       removals := s.removals[..i] + s.removals[i + 1..],
       mail := AllNoticed(s, Unadvertise(ids)))
  }

  function ValidPrefix(infos: seq<ServiceInfo>): seq<ServiceInfo> {
    if infos == [] || !infos[0].Valid() then [] else [infos[0]] + ValidPrefix(infos[1..])
  }

  /** An invalid definition throws out of the call, after the ones before it were stored. */
  function AddServices(s: Server, infos: seq<ServiceInfo>): Server {
    if infos == [] then s
    else
      var a := AddAll(ValidPrefix(infos), Adding(s.services, []));
      s.(services := a.catalogue,
         mail := if ValidPrefix(infos) == infos then AllNoticed(s, AdvertiseServices(a.added)) else s.mail)
  }

  function Present(services: map<ServiceId, ServiceInfo>, ids: seq<ServiceId>): seq<ServiceId> {
    if ids == [] then []
    else (if ids[0] in services then [ids[0]] else []) + Present(services - {ids[0]}, ids[1..])
  }

  function RemoveServices(s: Server, ids: seq<ServiceId>): Server {
    var removed := Present(s.services.table, ids);
    s.(services := Erase(s.services, ids),
       mail := if removed == [] then s.mail else AllNoticed(s, UnadvertiseServices(removed)))
  }

  // ----- Messages on channels

  /** A data frame: opcode 1, the client's own subscription id, the time, the payload. */
  function Frame(id: SubscriptionId, timestamp: u64, payload: seq<u8>): seq<u8> {
    [1] + Le32(id) + Le64(timestamp) + payload
  }

  const FRAME_HEADER := 13

  predicate BufferFull(limit: nat, q: Queue, payload: seq<u8>) {
    q.data + q.other + |payload| >= limit
  }

  function SendMessage(s: Server, h: Handle, c: ChannelId, timestamp: u64, payload: seq<u8>, warns: bool): Server {
    if h !in s.clients then s
    else if BufferFull(s.options.sendBufferLimit, QueueOf(s, h), payload) then
      s.(mail := if warns then Told(s, h, [Warning]) else s.mail)
    else if c !in s.clients[h].subscriptions then s
    else
      var frame, q, m := Frame(s.clients[h].subscriptions[c], timestamp, payload), QueueOf(s, h), MailOf(s.mail, h);
      s.(queues := s.queues[h := q.(data := q.data + |frame|)],
         mail := s.mail[h := m.(frames := m.frames + [frame])])
  }

  function Broadcast(s: Server, order: seq<Handle>, c: ChannelId, timestamp: u64, payload: seq<u8>,
                     warned: set<Handle>): Server
    decreases |order|
  {
    if order == [] then s
    else
      var sent := SendMessage(s, order[0], c, timestamp, payload, order[0] in warned);
      Broadcast(sent, order[1..], c, timestamp, payload, warned)
  }

  // ----- Events

  datatype Event =
    | OpenEvent(h: Handle, channelOrder: seq<ChannelId>, serviceOrder: seq<ServiceId>)
    | CloseEvent(h: Handle, adOrder: seq<ClientChannelId>, subOrder: seq<ChannelId>)
    | SubscribeStartEvent(h: Handle, subscribeItems: seq<SubscribeItem>)
    | SubscribeNextEvent
    | UnsubscribeEvent(h: Handle, order: seq<ChannelId>, unsubscribeItems: seq<UnsubscribeItem>)
    | AdvertiseEvent(h: Handle, advertiseItems: seq<AdvertiseItem>)
    | UnadvertiseEvent(h: Handle, unadvertiseItems: seq<UnadvertiseItem>)
    | MessageEvent(h: Handle, id: ClientChannelId, throws: bool)
    | SubscribeParametersEvent(h: Handle, names: set<string>, throws: bool)
    | UnsubscribeParametersEvent(h: Handle, names: set<string>, throws: bool)
    | UpdateParametersEvent(parameters: seq<Parameter>)
    | SubscribeGraphEvent(h: Handle, throws: bool)
    | UnsubscribeGraphEvent(h: Handle, throws: bool)
    | UpdateGraphEvent(graph: Graph)
    | AddChannelsEvent(channels: seq<ChannelInfo>)
    | RemoveChannelsBeginEvent(ids: seq<ChannelId>)
    | RemoveChannelsEndEvent(removal: nat, clientOrder: seq<Handle>)
    | AddServicesEvent(services: seq<ServiceInfo>)
    | RemoveServicesEvent(serviceIds: seq<ServiceId>)
    | SendMessageEvent(h: Handle, channel: ChannelId, timestamp: u64, payload: seq<u8>, warns: bool)
    | BroadcastEvent(clientOrder: seq<Handle>, channel: ChannelId, timestamp: u64, payload: seq<u8>,
                     warned: set<Handle>)
    | DrainEvent(h: Handle, queue: Queue)

  /** Messages of clients are handled one at a time, by the single worker of the callback queue. */
  predicate IsClientMessage(e: Event) {
    || e.SubscribeStartEvent? || e.UnsubscribeEvent? || e.AdvertiseEvent? || e.UnadvertiseEvent? || e.MessageEvent?
    || e.SubscribeParametersEvent? || e.UnsubscribeParametersEvent?
    || e.SubscribeGraphEvent? || e.UnsubscribeGraphEvent?
  }

  ghost predicate Enabled(s: Server, e: Event) {
    && (IsClientMessage(e) ==> s.batch.None?)
    && match e
       case OpenEvent(h, channelOrder, serviceOrder) =>
         && h !in s.clients
         && IsOrdering(channelOrder, s.channels.table.Keys) && IsOrdering(serviceOrder, s.services.table.Keys)
       case CloseEvent(h, adOrder, subOrder) =>
         h in s.clients ==>
           IsOrdering(adOrder, s.clients[h].advertised) && IsOrdering(subOrder, s.clients[h].subscriptions.Keys)
       case SubscribeNextEvent => s.batch.Some?
       case UnsubscribeEvent(h, order, _) => h in s.clients ==> IsOrdering(order, s.clients[h].subscriptions.Keys)
       case RemoveChannelsEndEvent(i, order) => i < |s.removals| && IsOrdering(order, s.clients.Keys)
       case BroadcastEvent(order, _, _, _, _) => IsOrdering(order, s.clients.Keys)
       case DrainEvent(h, q) => q.data <= QueueOf(s, h).data
       case _ => true
  }

  ghost function Step(s: Server, e: Event): Server
    requires Enabled(s, e)
  {
    match e
    case OpenEvent(h, channelOrder, serviceOrder) => Open(s, h, channelOrder, serviceOrder)
    case CloseEvent(h, adOrder, subOrder) => Close(s, h, adOrder, subOrder)
    case SubscribeStartEvent(h, items) => SubscribeStart(s, h, items)
    case SubscribeNextEvent => SubscribeNext(s)
    case UnsubscribeEvent(h, order, items) => Unsubscribe(s, h, order, items)
    case AdvertiseEvent(h, items) => ClientAdvertise(s, h, items)
    case UnadvertiseEvent(h, items) => ClientUnadvertise(s, h, items)
    case MessageEvent(h, id, throws) => ClientMessage(s, h, id, throws)
    case SubscribeParametersEvent(h, names, throws) => SubscribeParameters(s, h, names, throws)
    case UnsubscribeParametersEvent(h, names, throws) => UnsubscribeParameters(s, h, names, throws)
    case UpdateParametersEvent(ps) => UpdateParameters(s, ps)
    case SubscribeGraphEvent(h, throws) => SubscribeGraph(s, h, throws)
    case UnsubscribeGraphEvent(h, throws) => UnsubscribeGraph(s, h, throws)
    case UpdateGraphEvent(g) => UpdateGraph(s, g)
    case AddChannelsEvent(infos) => AddChannels(s, infos)
    case RemoveChannelsBeginEvent(ids) => RemoveChannelsBegin(s, ids)
    case RemoveChannelsEndEvent(i, order) => RemoveChannelsEnd(s, i, order)
    case AddServicesEvent(infos) => AddServices(s, infos)
    case RemoveServicesEvent(ids) => RemoveServices(s, ids)
    case SendMessageEvent(h, c, timestamp, payload, warns) => SendMessage(s, h, c, timestamp, payload, warns)
    case BroadcastEvent(order, c, timestamp, payload, warned) => Broadcast(s, order, c, timestamp, payload, warned)
    case DrainEvent(h, q) => s.(queues := s.queues[h := q])
  }

  // ----- Runs

  /** An assumption on the steps of a run, for the theorems that need one. */
  type Assumption = (Server, Event) -> bool

  /** `events` lead from `s` to `t`, each enabled in its turn and meeting the assumption. */
  ghost predicate Runs(assumed: Assumption, s: Server, events: seq<Event>, t: Server)
    decreases |events|
  {
    if events == [] then s == t
    else
      && Enabled(s, events[0]) && assumed(s, events[0])
      && Runs(assumed, Step(s, events[0]), events[1..], t)
  }

  ghost predicate Anything(s: Server, e: Event) {
    true
  }

  ghost predicate Preserved(inv: Server -> bool, assumed: Assumption) {
    forall s, e | inv(s) && Enabled(s, e) && assumed(s, e) :: inv(Step(s, e))
  }

  /** What holds at the start and is kept by every step holds after every run. */
  lemma {:induction false} Invariant(inv: Server -> bool, assumed: Assumption, s: Server, events: seq<Event>, t: Server)
    requires inv(s) && Preserved(inv, assumed) && Runs(assumed, s, events, t)
    ensures inv(t)
    decreases |events|
  {
    if events != [] {
      Invariant(inv, assumed, Step(s, events[0]), events[1..], t);
    }
  }

  lemma {:induction false} RunsThen(assumed: Assumption, s: Server, events: seq<Event>, t: Server, e: Event)
    requires Runs(assumed, s, events, t) && Enabled(t, e) && assumed(t, e)
    ensures Runs(assumed, s, events + [e], Step(t, e))
    decreases |events|
  {
    hide Enabled, Step;
    if events == [] {
      assert Runs(assumed, Step(t, e), [], Step(t, e));
      assert [] + [e] == [e] && [e][1..] == [];
    } else {
      RunsThen(assumed, Step(s, events[0]), events[1..], t, e);
      assert (events + [e])[1..] == events[1..] + [e];
    }
  }
}
