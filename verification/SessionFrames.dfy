/** What each step of the session can change, so that proofs need not open the others. */
module SessionFrames {
  import opened Bytes
  import opened ConnectionGraph
  import opened Orderings
  import opened Session

  /** Nobody is sent anything but statuses, data frames or parameter values. */
  ghost predicate QuietMail(was: Mail, now: Mail) {
    forall h :: MailOf(now, h).notices == MailOf(was, h).notices && MailOf(now, h).graph == MailOf(was, h).graph
  }

  ghost predicate SameNotices(was: Mail, now: Mail) {
    forall h :: MailOf(now, h).notices == MailOf(was, h).notices
  }

  ghost predicate SameGraphMail(was: Mail, now: Mail) {
    forall h :: MailOf(now, h).graph == MailOf(was, h).graph
  }

  /** Client `h`, if it is connected, is sent these statuses, and nobody is sent anything else. */
  ghost predicate OnlyTold(s: Server, now: Mail, h: Handle, levels: seq<Level>) {
    forall k :: MailOf(now, k) ==
      if k == h && h in s.clients then MailOf(s.mail, k).(statuses := MailOf(s.mail, k).statuses + levels)
      else MailOf(s.mail, k)
  }

  lemma TellingTells(s: Server, h: Handle)
    ensures forall levels {:trigger Told(s, h, levels)} :: OnlyTold(s, Told(s, h, levels), h, levels)
    ensures OnlyTold(s, s.mail, h, [])
  {
  }

  lemma AddNothing<T>(xs: seq<T>)
    ensures xs + [] == xs
  {
  }

  /** The clients are the same but for their subscriptions. */
  ghost predicate OnlySubscriptions(s: Server, t: Server) {
    && t.clients.Keys == s.clients.Keys
    && forall h :: h in s.clients ==> t.clients[h] == s.clients[h].(subscriptions := t.clients[h].subscriptions)
  }

  ghost predicate OnlyAdvertised(s: Server, t: Server) {
    && t.clients.Keys == s.clients.Keys
    && forall h :: h in s.clients ==> t.clients[h] == s.clients[h].(advertised := t.clients[h].advertised)
  }

  ghost predicate OnlyFlags(s: Server, t: Server) {
    && t.clients.Keys == s.clients.Keys
    && forall h :: h in s.clients ==> t.clients[h] == s.clients[h].(subscribedToGraph := t.clients[h].subscribedToGraph)
  }

  ghost predicate Framed(s: Server, e: Event, t: Server) {
    match e
    case OpenEvent(_, _, _) =>
      t == s.(clients := t.clients, mail := t.mail, queues := t.queues)
    case CloseEvent(_, _, _) =>
      t == s.(clients := t.clients, publications := t.publications, log := t.log, parameters := t.parameters,
              graph := t.graph)
    case SubscribeStartEvent(_, _) =>
      t == s.(batch := t.batch)
    case SubscribeNextEvent =>
      && t == s.(batch := t.batch, clients := t.clients, log := t.log, mail := t.mail)
      && OnlySubscriptions(s, t) && QuietMail(s.mail, t.mail)
    case UnsubscribeEvent(_, _, _) =>
      && t == s.(clients := t.clients, log := t.log, mail := t.mail)
      && OnlySubscriptions(s, t) && QuietMail(s.mail, t.mail)
    case AdvertiseEvent(_, _) =>
      && t == s.(clients := t.clients, publications := t.publications, mail := t.mail)
      && OnlyAdvertised(s, t) && QuietMail(s.mail, t.mail)
    case UnadvertiseEvent(_, _) =>
      && t == s.(clients := t.clients, publications := t.publications, mail := t.mail)
      && OnlyAdvertised(s, t) && QuietMail(s.mail, t.mail)
    case MessageEvent(_, _, _) =>
      t == s.(publications := t.publications, mail := t.mail) && QuietMail(s.mail, t.mail)
    case SubscribeParametersEvent(_, _, _) =>
      t == s.(parameters := t.parameters, mail := t.mail) && QuietMail(s.mail, t.mail)
    case UnsubscribeParametersEvent(_, _, _) =>
      t == s.(parameters := t.parameters, mail := t.mail) && QuietMail(s.mail, t.mail)
    case UpdateParametersEvent(_) =>
      t == s.(mail := t.mail) && QuietMail(s.mail, t.mail)
    case SubscribeGraphEvent(_, _) =>
      && t == s.(clients := t.clients, graph := t.graph, mail := t.mail)
      && OnlyFlags(s, t) && SameNotices(s.mail, t.mail)
    case UnsubscribeGraphEvent(_, _) =>
      && t == s.(clients := t.clients, graph := t.graph, mail := t.mail)
      && OnlyFlags(s, t) && QuietMail(s.mail, t.mail)
    case UpdateGraphEvent(_) =>
      t == s.(graph := s.graph.(graph := t.graph.graph), mail := t.mail) && SameNotices(s.mail, t.mail)
    case AddChannelsEvent(_) =>
      t == s.(channels := t.channels, mail := t.mail) && SameGraphMail(s.mail, t.mail)
    case RemoveChannelsBeginEvent(_) =>
      t == s.(channels := t.channels, removals := t.removals)
    case RemoveChannelsEndEvent(_, _) =>
      && t == s.(clients := t.clients, log := t.log, removals := t.removals, mail := t.mail)
      && OnlySubscriptions(s, t) && SameGraphMail(s.mail, t.mail)
    case AddServicesEvent(_) =>
      t == s.(services := t.services, mail := t.mail) && SameGraphMail(s.mail, t.mail)
    case RemoveServicesEvent(_) =>
      t == s.(services := t.services, mail := t.mail) && SameGraphMail(s.mail, t.mail)
    case SendMessageEvent(_, _, _, _, _) =>
      t == s.(mail := t.mail, queues := t.queues) && QuietMail(s.mail, t.mail)
    case BroadcastEvent(_, _, _, _, _) =>
      t == s.(mail := t.mail, queues := t.queues) && QuietMail(s.mail, t.mail)
    case DrainEvent(_, _) =>
      t == s.(queues := t.queues)
  }

  lemma StepFrame(s: Server, e: Event)
    requires Enabled(s, e)
    ensures Framed(s, e, Step(s, e))
  {
    hide IsOrdering, Open, Close, SubscribeStart, SubscribeNext, Unsubscribe, ClientAdvertise, ClientUnadvertise,
      ClientMessage, SubscribeParameters, UnsubscribeParameters, UpdateParameters,
      SubscribeGraph, UnsubscribeGraph, UpdateGraph,
      AddChannels, RemoveChannelsBegin, RemoveChannelsEnd, AddServices, RemoveServices, SendMessage, Broadcast;
    match e
    case OpenEvent(h, channelOrder, serviceOrder) => FrameOpen(s, e);
    case CloseEvent(h, adOrder, subOrder) => FrameClose(s, e);
    case SubscribeStartEvent(h, items) => FrameSubscribeStart(s, e);
    case SubscribeNextEvent => FrameSubscribeNext(s);
    case UnsubscribeEvent(h, order, items) => FrameUnsubscribe(s, e);
    case AdvertiseEvent(h, items) => FrameAdvertise(s, e);
    case UnadvertiseEvent(h, items) => FrameUnadvertise(s, e);
    case MessageEvent(h, id, throws) => FrameMessage(s, e);
    case SubscribeParametersEvent(h, names, throws) => FrameSubscribeParameters(s, e);
    case UnsubscribeParametersEvent(h, names, throws) => FrameUnsubscribeParameters(s, e);
    case UpdateParametersEvent(ps) => FrameUpdateParameters(s, e);
    case SubscribeGraphEvent(h, throws) => FrameSubscribeGraph(s, e);
    case UnsubscribeGraphEvent(h, throws) => FrameUnsubscribeGraph(s, e);
    case UpdateGraphEvent(g) => FrameUpdateGraph(s, e);
    case AddChannelsEvent(infos) => FrameAddChannels(s, e);
    case RemoveChannelsBeginEvent(ids) => FrameRemoveChannelsBegin(s, e);
    case RemoveChannelsEndEvent(i, order) => FrameRemoveChannelsEnd(s, e);
    case AddServicesEvent(infos) => FrameAddServices(s, e);
    case RemoveServicesEvent(ids) => FrameRemoveServices(s, e);
    case SendMessageEvent(h, c, timestamp, payload, warns) => FrameSendMessage(s, h, c, timestamp, payload, warns);
    case BroadcastEvent(order, c, timestamp, payload, warned) =>
      FrameBroadcast(s, order, c, timestamp, payload, warned);
    case DrainEvent(h, q) =>
  }

  /** Telling a client statuses changes neither its notices nor its graph mail. */
  lemma StatusesAreQuiet(s: Server)
    ensures forall h, levels {:trigger Told(s, h, levels)} :: QuietMail(s.mail, Told(s, h, levels))
  {
  }

  lemma FrameOpen(s: Server, e: Event)
    requires e.OpenEvent? && Enabled(s, e)
    ensures Framed(s, e, Open(s, e.h, e.channelOrder, e.serviceOrder))
  {
  }

  lemma FrameClose(s: Server, e: Event)
    requires e.CloseEvent?
    ensures Framed(s, e, Close(s, e.h, e.adOrder, e.subOrder))
  {
    hide UnsubscribeCalls, UnadvertiseCalls, ForgetParameters, LeaveGraph;
  }

  lemma FrameSubscribeStart(s: Server, e: Event)
    requires e.SubscribeStartEvent?
    ensures Framed(s, e, SubscribeStart(s, e.h, e.subscribeItems))
  {
  }

  lemma FrameSubscribeNext(s: Server)
    requires s.batch.Some?
    ensures Framed(s, SubscribeNextEvent, SubscribeNext(s))
  {
    hide Told, Subscribed, QuietMail;
    SubscribeNextIsQuiet(s);
  }

  lemma SubscribeNextIsQuiet(s: Server)
    requires s.batch.Some?
    ensures QuietMail(s.mail, SubscribeNext(s).mail)
  {
    hide Told, Subscribed;
    StatusesAreQuiet(s);
    var t, h := SubscribeNext(s), s.batch.value.client;
    assert t.mail == s.mail || t.mail == Told(s, h, [Error]) || t.mail == Told(s, h, [Warning]);
  }

  lemma FrameUnsubscribe(s: Server, e: Event)
    requires e.UnsubscribeEvent?
    ensures Framed(s, e, Unsubscribe(s, e.h, e.order, e.unsubscribeItems))
  {
    hide UnsubscribeItems, Told;
    StatusesAreQuiet(s);
  }

  lemma FramePublished(s: Server, h: Handle, p: Publishing)
    ensures var t := Published(s, h, p);
            && t == s.(clients := t.clients, publications := t.publications, mail := t.mail)
            && OnlyAdvertised(s, t) && QuietMail(s.mail, t.mail)
  {
    hide Told;
    StatusesAreQuiet(s);
  }

  lemma FrameAdvertise(s: Server, e: Event)
    requires e.AdvertiseEvent?
    ensures Framed(s, e, ClientAdvertise(s, e.h, e.advertiseItems))
  {
    hide AdvertiseItems, Published;
    FramePublished(s, e.h, AdvertiseItems(s.options.whitelist, e.h, e.h in s.clients, e.h !in s.publications.stored,
                                          e.advertiseItems, PublishingOf(s, e.h)));
  }

  lemma FrameUnadvertise(s: Server, e: Event)
    requires e.UnadvertiseEvent?
    ensures Framed(s, e, ClientUnadvertise(s, e.h, e.unadvertiseItems))
  {
    hide UnadvertiseItems, Published;
    FramePublished(s, e.h, UnadvertiseItems(e.h, e.h in s.clients, e.unadvertiseItems, PublishingOf(s, e.h)));
  }

  lemma FrameMessage(s: Server, e: Event)
    requires e.MessageEvent?
    ensures Framed(s, e, ClientMessage(s, e.h, e.id, e.throws))
  {
    hide Told;
    StatusesAreQuiet(s);
  }

  lemma FrameSubscribeParameters(s: Server, e: Event)
    requires e.SubscribeParametersEvent?
    ensures Framed(s, e, SubscribeParameters(s, e.h, e.names, e.throws))
  {
    hide AddNames, RemoveNames, Told;
    StatusesAreQuiet(s);
  }

  lemma FrameUnsubscribeParameters(s: Server, e: Event)
    requires e.UnsubscribeParametersEvent?
    ensures Framed(s, e, UnsubscribeParameters(s, e.h, e.names, e.throws))
  {
    hide AddNames, RemoveNames, Told;
    StatusesAreQuiet(s);
  }

  lemma FrameUpdateParameters(s: Server, e: Event)
    requires e.UpdateParametersEvent?
    ensures Framed(s, e, UpdateParameters(s, e.parameters))
  {
    hide Selected, Set;
  }

  lemma FrameSubscribeGraph(s: Server, e: Event)
    requires e.SubscribeGraphEvent?
    ensures Framed(s, e, SubscribeGraph(s, e.h, e.throws))
  {
    hide Told;
    StatusesAreQuiet(s);
  }

  lemma FrameUnsubscribeGraph(s: Server, e: Event)
    requires e.UnsubscribeGraphEvent?
    ensures Framed(s, e, UnsubscribeGraph(s, e.h, e.throws))
  {
    hide Told, LeaveGraph;
    StatusesAreQuiet(s);
  }

  lemma FrameUpdateGraph(s: Server, e: Event)
    requires e.UpdateGraphEvent?
    ensures Framed(s, e, UpdateGraph(s, e.graph))
  {
    hide Diff;
  }

  lemma FrameAddChannels(s: Server, e: Event)
    requires e.AddChannelsEvent?
    ensures Framed(s, e, AddChannels(s, e.channels))
  {
    hide AddAll;
  }

  lemma FrameRemoveChannelsBegin(s: Server, e: Event)
    requires e.RemoveChannelsBeginEvent?
    ensures Framed(s, e, RemoveChannelsBegin(s, e.ids))
  {
  }

  lemma FrameRemoveChannelsEnd(s: Server, e: Event)
    requires e.RemoveChannelsEndEvent? && e.removal < |s.removals|
    ensures Framed(s, e, RemoveChannelsEnd(s, e.removal, e.clientOrder))
  {
    hide Dropped;
  }

  lemma FrameAddServices(s: Server, e: Event)
    requires e.AddServicesEvent?
    ensures Framed(s, e, AddServices(s, e.services))
  {
    hide AddAll, ValidPrefix;
  }

  lemma FrameRemoveServices(s: Server, e: Event)
    requires e.RemoveServicesEvent?
    ensures Framed(s, e, RemoveServices(s, e.serviceIds))
  {
    hide Present;
  }

  lemma FrameSendMessage(s: Server, h: Handle, c: ChannelId, timestamp: u64, payload: seq<u8>, warns: bool)
    ensures var t := SendMessage(s, h, c, timestamp, payload, warns);
            t == s.(mail := t.mail, queues := t.queues) && QuietMail(s.mail, t.mail)
  {
  }

  lemma {:induction false} FrameBroadcast(s: Server, order: seq<Handle>, c: ChannelId, timestamp: u64,
                                          payload: seq<u8>, warned: set<Handle>)
    ensures var t := Broadcast(s, order, c, timestamp, payload, warned);
            t == s.(mail := t.mail, queues := t.queues) && QuietMail(s.mail, t.mail)
    decreases |order|
  {
    hide SendMessage;
    if order != [] {
      FrameSendMessage(s, order[0], c, timestamp, payload, order[0] in warned);
      FrameBroadcast(SendMessage(s, order[0], c, timestamp, payload, order[0] in warned), order[1..], c, timestamp,
                     payload, warned);
    }
  }
}
