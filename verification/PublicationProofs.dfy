/** Client publications stay mirrored, and every message handed on is covered by an advertisement. */
module PublicationProofs {
  import opened Orderings
  import opened Session
  import opened SessionFrames

  /**
   * The client advertised exactly this at `i`, the handler took it, and it has not been
   * unadvertised since.
   */
  ghost predicate AdvertisedAt(calls: seq<PublicationCall>, i: int, h: Handle, ad: Advertisement) {
    && 0 <= i < |calls| && calls[i] == AdvertiseCall(h, ad, true)
    && forall j :: i < j < |calls| ==> calls[j] != UnadvertiseCall(h, ad.channelId, true)
  }

  ghost predicate Covered(calls: seq<PublicationCall>, h: Handle, ad: Advertisement) {
    exists i :: AdvertisedAt(calls, i, h, ad)
  }

  /** Every message call uses an advertisement that covers it at that moment. */
  ghost predicate MessagesCovered(calls: seq<PublicationCall>) {
    forall k :: 0 <= k < |calls| && calls[k].MessageCall? ==> Covered(calls[..k], calls[k].client, calls[k].ad)
  }

  lemma CoveredLonger(calls: seq<PublicationCall>, more: seq<PublicationCall>, h: Handle, ad: Advertisement)
    requires Covered(calls, h, ad)
    requires forall j :: 0 <= j < |more| ==> more[j] != UnadvertiseCall(h, ad.channelId, true)
    ensures Covered(calls + more, h, ad)
  {
    var i :| AdvertisedAt(calls, i, h, ad);
    assert AdvertisedAt(calls + more, i, h, ad);
  }

  lemma MessagesStayCovered(calls: seq<PublicationCall>, more: seq<PublicationCall>)
    requires MessagesCovered(calls) && forall j :: 0 <= j < |more| ==> !more[j].MessageCall?
    ensures MessagesCovered(calls + more)
  {
    forall k | 0 <= k < |calls + more| && (calls + more)[k].MessageCall?
      ensures Covered((calls + more)[..k], (calls + more)[k].client, (calls + more)[k].ad)
    {
      assert k < |calls| && (calls + more)[..k] == calls[..k];
    }
  }

  /** The publications of one client: mirrored, filed under their own ids, whitelisted and covered. */
  ghost predicate Filed(whitelist: iset<string>, h: Handle, calls: seq<PublicationCall>,
                        stored: map<ClientChannelId, Advertisement>)
  {
    forall id :: id in stored ==>
      stored[id].channelId == id && stored[id].topic in whitelist && Covered(calls, h, stored[id])
  }

  ghost predicate Orderly(s: Server) {
    && (forall h :: h in s.clients ==> s.clients[h].advertised == PublicationsOf(s.publications, h).Keys)
    && (forall h :: h !in s.clients ==> PublicationsOf(s.publications, h) == map[])
    && (forall h :: Filed(s.options.whitelist, h, s.publications.calls, PublicationsOf(s.publications, h)))
    && MessagesCovered(s.publications.calls)
  }

  /** Calls of one client's message: of that client, and none of them a message call. */
  ghost predicate CallsOf(h: Handle, calls: seq<PublicationCall>) {
    forall i :: 0 <= i < |calls| ==> calls[i].client == h && !calls[i].MessageCall?
  }

  /** Where the handling of one client's message stands, on top of the calls made before it. */
  ghost predicate InOrder(whitelist: iset<string>, h: Handle, connected: bool, before: seq<PublicationCall>,
                          p: Publishing)
  {
    && (connected ==> p.advertised == p.stored.Keys)
    && (!connected ==> p.stored == map[])
    && Filed(whitelist, h, before + p.calls, p.stored)
    && CallsOf(h, p.calls)
  }

  lemma FiledLonger(whitelist: iset<string>, h: Handle, calls: seq<PublicationCall>, call: PublicationCall,
                    stored: map<ClientChannelId, Advertisement>)
    requires Filed(whitelist, h, calls, stored)
    requires forall id :: id in stored ==> call != UnadvertiseCall(h, id, true)
    ensures Filed(whitelist, h, calls + [call], stored)
  {
    forall id | id in stored
      ensures Covered(calls + [call], h, stored[id])
    {
      CoveredLonger(calls, [call], h, stored[id]);
    }
  }

  lemma StoreInOrder(whitelist: iset<string>, h: Handle, before: seq<PublicationCall>, p: Publishing, ad: Advertisement)
    requires InOrder(whitelist, h, true, before, p) && ad.topic in whitelist
    ensures InOrder(whitelist, h, true, before, p.Call(AdvertiseCall(h, ad, true)).Store(ad))
  {
    var call := AdvertiseCall(h, ad, true);
    assert before + p.calls + [call] == before + (p.calls + [call]);
    FiledLonger(whitelist, h, before + p.calls, call, p.stored);
    assert AdvertisedAt(before + (p.calls + [call]), |before + p.calls|, h, ad);
  }

  /** A call that changes nothing: it threw, or its client is gone. */
  lemma CallInOrder(whitelist: iset<string>, h: Handle, connected: bool, before: seq<PublicationCall>, p: Publishing,
                    call: PublicationCall)
    requires InOrder(whitelist, h, connected, before, p) && call.client == h && !call.MessageCall?
    requires forall id :: id in p.stored ==> call != UnadvertiseCall(h, id, true)
    ensures InOrder(whitelist, h, connected, before, p.Call(call).Status(Error))
  {
    assert before + p.calls + [call] == before + (p.calls + [call]);
    FiledLonger(whitelist, h, before + p.calls, call, p.stored);
  }

  lemma DropInOrder(whitelist: iset<string>, h: Handle, before: seq<PublicationCall>, p: Publishing,
                    id: ClientChannelId)
    requires InOrder(whitelist, h, true, before, p)
    ensures InOrder(whitelist, h, true, before, p.Call(UnadvertiseCall(h, id, true)).Drop(id))
  {
    var call := UnadvertiseCall(h, id, true);
    assert before + p.calls + [call] == before + (p.calls + [call]);
    FiledLonger(whitelist, h, before + p.calls, call, p.stored - {id}) by {
      assert Filed(whitelist, h, before + p.calls, p.stored - {id});
    }
  }

  lemma {:induction false} AdvertiseInOrder(whitelist: iset<string>, h: Handle, connected: bool, first: bool,
                                            items: seq<AdvertiseItem>, before: seq<PublicationCall>, p: Publishing)
    requires InOrder(whitelist, h, connected, before, p)
    ensures InOrder(whitelist, h, connected, before, AdvertiseItems(whitelist, h, connected, first, items, p))
    decreases |items|
  {
    hide InOrder;
    StatusInOrder(whitelist, h, connected, before, p);
    if items != [] && items[0].id.Some? {
      var item := items[0];
      if !first && item.id.value in p.stored {
        AdvertiseInOrder(whitelist, h, connected, first, items[1..], before, p.Status(Error));
      } else if item.topic.Some? {
        if item.topic.value !in whitelist {
          AdvertiseInOrder(whitelist, h, connected, first, items[1..], before, p.Status(Error));
        } else if item.encoding.Some? && item.schemaName.Some? {
          var ad := Advertisement(item.id.value, item.topic.value, item.encoding.value, item.schemaName.value);
          var call := AdvertiseCall(h, ad, !item.throws);
          CallInOrder(whitelist, h, connected, before, p, call);
          if !item.throws && connected {
            StoreInOrder(whitelist, h, before, p, ad);
            AdvertiseInOrder(whitelist, h, connected, first, items[1..], before, p.Call(call).Store(ad));
          }
        }
      }
    }
  }

  lemma StatusInOrder(whitelist: iset<string>, h: Handle, connected: bool, before: seq<PublicationCall>, p: Publishing)
    requires InOrder(whitelist, h, connected, before, p)
    ensures InOrder(whitelist, h, connected, before, p.Status(Error))
  {
  }

  lemma {:induction false} UnadvertiseInOrder(whitelist: iset<string>, h: Handle, connected: bool,
                                              items: seq<UnadvertiseItem>, before: seq<PublicationCall>, p: Publishing)
    requires InOrder(whitelist, h, connected, before, p)
    ensures InOrder(whitelist, h, connected, before, UnadvertiseItems(h, connected, items, p))
    decreases |items|
  {
    StatusInOrder(whitelist, h, connected, before, p);
    if items != [] && items[0].id.Some? {
      var id := items[0].id.value;
      if id !in p.stored {
        UnadvertiseInOrder(whitelist, h, connected, items[1..], before, p);
      } else if items[0].throws {
        CallInOrder(whitelist, h, connected, before, p, UnadvertiseCall(h, id, false));
      } else {
        DropInOrder(whitelist, h, before, p, id);
        UnadvertiseInOrder(whitelist, h, connected, items[1..], before, p.Call(UnadvertiseCall(h, id, true)).Drop(id));
      }
    }
  }

  lemma PublishedOrderly(s: Server, h: Handle, p: Publishing)
    requires Orderly(s) && InOrder(s.options.whitelist, h, h in s.clients, s.publications.calls, p)
    ensures Orderly(Published(s, h, p))
  {
    hide Told, Covered, MessagesCovered;
    var t := Published(s, h, p);
    MessagesStayCovered(s.publications.calls, p.calls);
    forall k
      ensures Filed(t.options.whitelist, k, t.publications.calls, PublicationsOf(t.publications, k))
    {
      if k != h {
        var stored := PublicationsOf(s.publications, k);
        assert Filed(s.options.whitelist, k, s.publications.calls, stored);
        forall id | id in stored
          ensures Covered(t.publications.calls, k, stored[id])
        {
          CoveredLonger(s.publications.calls, p.calls, k, stored[id]);
        }
      }
    }
  }

  lemma StartsInOrder(s: Server, h: Handle)
    requires Orderly(s)
    ensures InOrder(s.options.whitelist, h, h in s.clients, s.publications.calls, PublishingOf(s, h))
  {
    assert s.publications.calls + [] == s.publications.calls;
    assert Filed(s.options.whitelist, h, s.publications.calls, PublicationsOf(s.publications, h));
  }

  lemma AdvertiseOrderly(s: Server, h: Handle, items: seq<AdvertiseItem>)
    requires Orderly(s)
    ensures Orderly(ClientAdvertise(s, h, items))
  {
    hide Orderly, InOrder, AdvertiseItems, Published, PublishingOf;
    StartsInOrder(s, h);
    AdvertiseInOrder(s.options.whitelist, h, h in s.clients, h !in s.publications.stored, items, s.publications.calls,
                     PublishingOf(s, h));
    PublishedOrderly(s, h, AdvertiseItems(s.options.whitelist, h, h in s.clients, h !in s.publications.stored, items,
                                          PublishingOf(s, h)));
  }

  lemma MailIsNoMatter(s: Server, t: Server)
    requires Orderly(s) && t.options == s.options && t.publications == s.publications
    requires t.clients.Keys == s.clients.Keys
    requires forall h :: h in s.clients ==> t.clients[h].advertised == s.clients[h].advertised
    ensures Orderly(t)
  {
    forall h
      ensures Filed(t.options.whitelist, h, t.publications.calls, PublicationsOf(t.publications, h))
    {
      assert Filed(s.options.whitelist, h, s.publications.calls, PublicationsOf(s.publications, h));
    }
  }

  lemma UnadvertiseOrderly(s: Server, h: Handle, items: seq<UnadvertiseItem>)
    requires Orderly(s)
    ensures Orderly(ClientUnadvertise(s, h, items))
  {
    hide Orderly, InOrder, UnadvertiseItems, Published, PublishingOf, Told;
    if h !in s.publications.stored {
      MailIsNoMatter(s, ClientUnadvertise(s, h, items));
    } else {
      StartsInOrder(s, h);
      UnadvertiseInOrder(s.options.whitelist, h, h in s.clients, items, s.publications.calls, PublishingOf(s, h));
      PublishedOrderly(s, h, UnadvertiseItems(h, h in s.clients, items, PublishingOf(s, h)));
    }
  }

  lemma MessageOrderly(s: Server, h: Handle, id: ClientChannelId, throws: bool)
    requires Orderly(s)
    ensures Orderly(ClientMessage(s, h, id, throws))
  {
    hide Told, Covered;
    var t, stored := ClientMessage(s, h, id, throws), PublicationsOf(s.publications, h);
    if id !in stored {
      MailIsNoMatter(s, t);
    } else {
      var calls, call := s.publications.calls, MessageCall(h, stored[id]);
      forall k
        ensures Filed(t.options.whitelist, k, t.publications.calls, PublicationsOf(t.publications, k))
      {
        assert Filed(s.options.whitelist, k, calls, PublicationsOf(s.publications, k));
        FiledLonger(s.options.whitelist, k, calls, call, PublicationsOf(s.publications, k));
      }
      assert Filed(s.options.whitelist, h, calls, stored);
      forall k | 0 <= k < |calls + [call]| && (calls + [call])[k].MessageCall?
        ensures Covered((calls + [call])[..k], (calls + [call])[k].client, (calls + [call])[k].ad)
      {
        assert (calls + [call])[..k] == calls[..k];
        assert calls[..|calls|] == calls;
      }
    }
  }

  lemma {:induction false} UnadvertiseCallsOf(h: Handle, order: seq<ClientChannelId>)
    ensures CallsOf(h, UnadvertiseCalls(h, order))
    decreases |order|
  {
    if order != [] {
      UnadvertiseCallsOf(h, order[1..]);
    }
  }

  lemma CloseOrderly(s: Server, e: Event)
    requires Orderly(s) && e.CloseEvent?
    ensures Orderly(Close(s, e.h, e.adOrder, e.subOrder))
  {
    hide UnadvertiseCalls, UnsubscribeCalls, ForgetParameters, LeaveGraph, Covered, MessagesCovered;
    if e.h in s.clients {
      var t, more := Close(s, e.h, e.adOrder, e.subOrder), UnadvertiseCalls(e.h, e.adOrder);
      UnadvertiseCallsOf(e.h, e.adOrder);
      MessagesStayCovered(s.publications.calls, more);
      forall k
        ensures Filed(t.options.whitelist, k, t.publications.calls, PublicationsOf(t.publications, k))
      {
        if k != e.h {
          var stored := PublicationsOf(s.publications, k);
          assert Filed(s.options.whitelist, k, s.publications.calls, stored);
          forall id | id in stored
            ensures Covered(t.publications.calls, k, stored[id])
          {
            CoveredLonger(s.publications.calls, more, k, stored[id]);
          }
        }
      }
    }
  }

  lemma OpenOrderly(s: Server, e: Event)
    requires Orderly(s) && e.OpenEvent? && Enabled(s, e)
    ensures Orderly(Open(s, e.h, e.channelOrder, e.serviceOrder))
  {
    hide Listing, Covered, MessagesCovered;
    var t := Open(s, e.h, e.channelOrder, e.serviceOrder);
    forall h
      ensures Filed(t.options.whitelist, h, t.publications.calls, PublicationsOf(t.publications, h))
    {
      assert Filed(s.options.whitelist, h, s.publications.calls, PublicationsOf(s.publications, h));
    }
  }

  lemma StepOrderly(s: Server, e: Event)
    requires Orderly(s) && Enabled(s, e)
    ensures Orderly(Step(s, e))
  {
    hide IsOrdering, Orderly, Open, Close, ClientAdvertise, ClientUnadvertise, ClientMessage;
    if !TouchesPublications(e) {
      hide Step;
      StepFrame(s, e);
      OthersKeepPublications(s, e, Step(s, e));
      MailIsNoMatter(s, Step(s, e));
    } else {
      match e
      case OpenEvent(_, _, _) => OpenOrderly(s, e);
      case CloseEvent(_, _, _) => CloseOrderly(s, e);
      case AdvertiseEvent(h, items) => AdvertiseOrderly(s, h, items);
      case UnadvertiseEvent(h, items) => UnadvertiseOrderly(s, h, items);
      case MessageEvent(h, id, throws) => MessageOrderly(s, h, id, throws);
    }
  }

  predicate TouchesPublications(e: Event) {
    e.OpenEvent? || e.CloseEvent? || e.AdvertiseEvent? || e.UnadvertiseEvent? || e.MessageEvent?
  }

  lemma OthersKeepPublications(s: Server, e: Event, t: Server)
    requires Framed(s, e, t) && !TouchesPublications(e)
    ensures t.options == s.options && t.publications == s.publications && t.clients.Keys == s.clients.Keys
    ensures forall h :: h in s.clients ==> t.clients[h].advertised == s.clients[h].advertised
  {
    assert t.options == s.options && t.publications == s.publications;
    if e.SubscribeGraphEvent? || e.UnsubscribeGraphEvent? {
      assert OnlyFlags(s, t);
    } else if e.SubscribeNextEvent? || e.UnsubscribeEvent? || e.RemoveChannelsEndEvent? {
      assert OnlySubscriptions(s, t);
    } else {
      assert t.clients == s.clients;
    }
  }

  /**
   * After every run: a connected client's advertised ids are exactly the keys of its publications;
   * a client that is not connected has none; every publication is filed under its own id, has a
   * whitelisted topic and is one its client advertised and has not unadvertised since; and every
   * message handed to the application was covered in that way when it was.
   */
  lemma PublicationsOrderly(options: Options, events: seq<Event>, s: Server)
    requires Runs(Anything, Init(options), events, s)
    ensures forall h :: PublicationsOf(s.publications, h).Keys == if h in s.clients then s.clients[h].advertised else {}
    ensures forall h :: Filed(s.options.whitelist, h, s.publications.calls, PublicationsOf(s.publications, h))
    ensures MessagesCovered(s.publications.calls)
  {
    forall s, e | Orderly(s) && Enabled(s, e) && Anything(s, e)
      ensures Orderly(Step(s, e))
    {
      StepOrderly(s, e);
    }
    Invariant(Orderly, Anything, Init(options), events, s);
  }
}
