/** What the server says about the client publications: item by item, and message by message. */
module PublicationReplies {
  import opened Wrappers
  import opened Orderings
  import opened Session
  import opened SessionFrames
  import opened MessageEffects
  import opened MessageReplies
  import opened PublicationProofs

  // ----- Advertise

  /** The item names a channel that can be taken: it has all its parts, and a whitelisted topic. */
  predicate Takeable(item: AdvertiseItem, whitelist: iset<string>) {
    && item.id.Some? && item.topic.Some? && item.encoding.Some? && item.schemaName.Some?
    && item.topic.value in whitelist
  }

  function AdOf(item: AdvertiseItem): Advertisement
    requires item.id.Some? && item.topic.Some? && item.encoding.Some? && item.schemaName.Some?
  {
    Advertisement(item.id.value, item.topic.value, item.encoding.value, item.schemaName.value)
  }

  /**
   * An item without an id ends the message with an error, and so does one without its other parts,
   * unless it is turned down before they are asked for: because its id is taken, or its topic is not
   * whitelisted. Otherwise the handler is called, and an error ends the message if it throws or the
   * client is gone.
   */
  function ReplyToAdvertise(h: Handle, item: AdvertiseItem, whitelist: iset<string>, connected: bool, taken: bool)
    : Reply<PublicationCall>
  {
    if item.id.None? then Tell(Error, true)
    else if taken then Tell(Error, false)
    else if item.topic.None? then Tell(Error, true)
    else if item.topic.value !in whitelist then Tell(Error, false)
    else if item.encoding.None? || item.schemaName.None? then Tell(Error, true)
    else if item.throws then Reply([AdvertiseCall(h, AdOf(item), false)], [], [Error], true)
    else if !connected then Reply([AdvertiseCall(h, AdOf(item), true)], [], [Error], true)
    else Reply([AdvertiseCall(h, AdOf(item), true)], [], [], false)
  }

  /** The id is filed when the message gets to item `k`: it was before, or an item before it took it. */
  ghost predicate FiledAt(items: seq<AdvertiseItem>, was: set<ClientChannelId>, whitelist: iset<string>, k: int,
                          id: ClientChannelId)
  {
    id in was || exists j :: 0 <= j < k && j < |items| && Takeable(items[j], whitelist) && items[j].id.value == id
  }

  /** Whether an id is taken is asked only of a client that had advertised something before. */
  ghost function RepliesToAdvertise(h: Handle, items: seq<AdvertiseItem>, was: set<ClientChannelId>,
                                    whitelist: iset<string>, connected: bool, first: bool): seq<Reply<PublicationCall>>
  {
    seq(|items|, k requires 0 <= k < |items| =>
      ReplyToAdvertise(h, items[k], whitelist, connected,
                       !first && items[k].id.Some? && FiledAt(items, was, whitelist, k, items[k].id.value)))
  }

  /** The first of the calls that advertises the id. */
  function FirstTaken(calls: seq<PublicationCall>, id: ClientChannelId): Option<Advertisement> {
    if calls == [] then None
    else if calls[0].AdvertiseCall? && calls[0].ok && calls[0].ad.channelId == id then Some(calls[0].ad)
    else FirstTaken(calls[1..], id)
  }

  /**
   * An advertise message is answered by the replies to its items. What a connected client had filed
   * stays, and every other id is filed with the first channel that the handler took for it.
   */
  lemma AdvertiseSays(s: Server, h: Handle, items: seq<AdvertiseItem>)
    ensures var t, was := ClientAdvertise(s, h, items), PublicationsOf(s.publications, h);
            var said := Said(RepliesToAdvertise(h, items, was.Keys, s.options.whitelist, h in s.clients,
                                                h !in s.publications.stored));
            && t.publications.calls == s.publications.calls + said.calls
            && OnlyTold(s, t.mail, h, said.statuses)
            && t.publications.stored.Keys == s.publications.stored.Keys + {h}
            && (forall k :: k in s.publications.stored && k != h ==>
                  t.publications.stored[k] == s.publications.stored[k])
            && (forall id ::
                  Lookup(PublicationsOf(t.publications, h), id)
                  == if id in was then Some(was[id]) else if h in s.clients then FirstTaken(said.calls, id) else None)
            && t.clients.Keys == s.clients.Keys
            && (forall k :: k in s.clients && k != h ==> t.clients[k] == s.clients[k])
            && (forall id ::
                  h in s.clients ==>
                    (id in t.clients[h].advertised
                     <==> id in s.clients[h].advertised || FirstTaken(said.calls, id).Some?))
  {
    hide AdvertiseItems, Told, OnlyTold, Said, ReplyToAdvertise, FirstTaken, Lookup;
    var was, whitelist, connected := PublicationsOf(s.publications, h), s.options.whitelist, h in s.clients;
    var first := h !in s.publications.stored;
    var replies := RepliesToAdvertise(h, items, was.Keys, whitelist, connected, first);
    assert items[0..] == items && replies[0..] == replies;
    var p := PublishingOf(s, h);
    AdvertiseSaysFrom(h, items, was.Keys, whitelist, connected, first, 0, replies, p);
    FiledAlready(p, AdvertiseItems(whitelist, h, connected, first, items, p), connected, Said(replies).calls);
    assert [] + Said(replies).statuses == Said(replies).statuses && [] + Said(replies).calls == Said(replies).calls;
    TellingTells(s, h);
  }

  lemma FiledAlready(p: Publishing, q: Publishing, connected: bool, calls: seq<PublicationCall>)
    requires forall id :: FiledBy(p, q, connected, calls, id)
    ensures forall id ::
              && Lookup(q.stored, id) == (if id in p.stored then Some(p.stored[id])
                                          else if connected then FirstTaken(calls, id) else None)
              && (id in q.advertised <==> id in p.advertised || (connected && FirstTaken(calls, id).Some?))
  {
    hide FirstTaken, Lookup;
    forall id: ClientChannelId
      ensures Lookup(q.stored, id) == (if id in p.stored then Some(p.stored[id])
                                       else if connected then FirstTaken(calls, id) else None)
      ensures id in q.advertised <==> id in p.advertised || (connected && FirstTaken(calls, id).Some?)
    {
      assert FiledBy(p, q, connected, calls, id);
    }
  }

  function Advertised(p: Publishing, item: AdvertiseItem, reply: Reply<PublicationCall>): Publishing {
    var q := p.(calls := p.calls + reply.calls, statuses := p.statuses + reply.statuses);
    if && reply.calls != [] && !reply.ends
       && item.id.Some? && item.topic.Some? && item.encoding.Some? && item.schemaName.Some?
    then q.Store(AdOf(item)) else q
  }

  lemma OneAdvertised(h: Handle, items: seq<AdvertiseItem>, whitelist: iset<string>, connected: bool, first: bool,
                      p: Publishing)
    requires items != []
    ensures var taken := !first && items[0].id.Some? && items[0].id.value in p.stored;
            var reply := ReplyToAdvertise(h, items[0], whitelist, connected, taken);
            var q := Advertised(p, items[0], reply);
            AdvertiseItems(whitelist, h, connected, first, items, p)
            == if reply.ends then q else AdvertiseItems(whitelist, h, connected, first, items[1..], q)
  {
    AddNothing(p.calls);
    AddNothing(p.statuses);
  }

  /** What the next replies leave filed, given what is filed now. */
  ghost predicate FiledBy(p: Publishing, q: Publishing, connected: bool, calls: seq<PublicationCall>,
                          id: ClientChannelId)
  {
    && Lookup(q.stored, id) == (if id in p.stored then Some(p.stored[id])
                                else if connected then FirstTaken(calls, id) else None)
    && (id in q.advertised <==> id in p.advertised || (connected && FirstTaken(calls, id).Some?))
  }

  ghost predicate FilesAt(p: Publishing, items: seq<AdvertiseItem>, was: set<ClientChannelId>, whitelist: iset<string>,
                          k: int)
  {
    forall id :: id in p.stored <==> FiledAt(items, was, whitelist, k, id)
  }

  lemma FilesNext(h: Handle, items: seq<AdvertiseItem>, was: set<ClientChannelId>, whitelist: iset<string>,
                  connected: bool, k: nat, p: Publishing)
    requires k < |items| && FilesAt(p, items, was, whitelist, k)
    requires !ReplyToAdvertise(h, items[k], whitelist, connected,
                               items[k].id.Some? && items[k].id.value in p.stored).ends
    ensures var reply := ReplyToAdvertise(h, items[k], whitelist, connected,
                                          items[k].id.Some? && items[k].id.value in p.stored);
            FilesAt(Advertised(p, items[k], reply), items, was, whitelist, k + 1)
  {
    forall id: ClientChannelId
      ensures FiledAt(items, was, whitelist, k + 1, id)
              <==> FiledAt(items, was, whitelist, k, id)
                   || (Takeable(items[k], whitelist) && items[k].id.value == id)
    {
    }
    hide FiledAt;
    var taken := items[k].id.Some? && items[k].id.value in p.stored;
    if taken {
      assert FiledAt(items, was, whitelist, k, items[k].id.value);
    }
  }

  lemma TakenOneMore(p: Publishing, item: AdvertiseItem, h: Handle, whitelist: iset<string>, connected: bool,
                     taken: bool, rest: seq<PublicationCall>, q: Publishing, id: ClientChannelId)
    requires taken ==> item.id.Some? && item.id.value in p.stored
    requires !ReplyToAdvertise(h, item, whitelist, connected, taken).ends
    requires var reply := ReplyToAdvertise(h, item, whitelist, connected, taken);
             FiledBy(Advertised(p, item, reply), q, connected, rest, id)
    ensures FiledBy(p, q, connected, ReplyToAdvertise(h, item, whitelist, connected, taken).calls + rest, id)
  {
    var reply := ReplyToAdvertise(h, item, whitelist, connected, taken);
    if reply.calls != [] {
      assert (reply.calls + rest)[0] == reply.calls[0] && (reply.calls + rest)[1..] == rest;
    } else {
      assert reply.calls + rest == rest;
    }
  }

  lemma TakenLast(p: Publishing, item: AdvertiseItem, h: Handle, whitelist: iset<string>, connected: bool, taken: bool,
                  id: ClientChannelId)
    requires ReplyToAdvertise(h, item, whitelist, connected, taken).ends
    ensures var reply := ReplyToAdvertise(h, item, whitelist, connected, taken);
            FiledBy(p, Advertised(p, item, reply), connected, reply.calls, id)
  {
    var reply := ReplyToAdvertise(h, item, whitelist, connected, taken);
    if reply.calls != [] {
      assert reply.calls[1..] == [];
    }
  }

  lemma {:induction false} AdvertiseSaysFrom(h: Handle, items: seq<AdvertiseItem>, was: set<ClientChannelId>,
                                             whitelist: iset<string>, connected: bool, first: bool, k: nat,
                                             replies: seq<Reply<PublicationCall>>, p: Publishing)
    requires k <= |items| && replies == RepliesToAdvertise(h, items, was, whitelist, connected, first)
    requires !first ==> FilesAt(p, items, was, whitelist, k)
    ensures var q, said := AdvertiseItems(whitelist, h, connected, first, items[k..], p), Said(replies[k..]);
            && q.calls == p.calls + said.calls && q.statuses == p.statuses + said.statuses
            && forall id :: FiledBy(p, q, connected, said.calls, id)
    decreases |items| - k
  {
    hide FilesAt, FiledBy, AdvertiseItems, ReplyToAdvertise, Said, Advertised;
    if k == |items| {
      assert items[k..] == [] && replies[k..] == [];
      NothingAdvertised(h, whitelist, connected, first, p);
    } else {
      var item, reply := items[k], replies[k];
      assert items[k..][0] == item && items[k..][1..] == items[k + 1..];
      OneAdvertised(h, items[k..], whitelist, connected, first, p);
      SaidOneMore(replies, k);
      var taken := !first && item.id.Some? && item.id.value in p.stored;
      TakenAgrees(items, was, whitelist, k, p, first);
      assert reply == ReplyToAdvertise(h, item, whitelist, connected, taken);
      var next, rest := Advertised(p, item, reply), Said(replies[k + 1..]);
      AdvertisedAdds(p, item, reply);
      if reply.ends {
        forall id: ClientChannelId
          ensures FiledBy(p, next, connected, reply.calls, id)
        {
          TakenLast(p, item, h, whitelist, connected, taken, id);
        }
      } else {
        if !first {
          FilesNext(h, items, was, whitelist, connected, k, p);
        }
        AdvertiseSaysFrom(h, items, was, whitelist, connected, first, k + 1, replies, next);
        assert p.calls + reply.calls + rest.calls == p.calls + (reply.calls + rest.calls);
        assert p.statuses + reply.statuses + rest.statuses == p.statuses + (reply.statuses + rest.statuses);
        var q := AdvertiseItems(whitelist, h, connected, first, items[k..], p);
        forall id: ClientChannelId
          ensures FiledBy(p, q, connected, reply.calls + rest.calls, id)
        {
          TakenOneMore(p, item, h, whitelist, connected, taken, rest.calls, q, id);
        }
      }
    }
  }

  lemma AdvertisedAdds(p: Publishing, item: AdvertiseItem, reply: Reply<PublicationCall>)
    ensures var q := Advertised(p, item, reply);
            q.calls == p.calls + reply.calls && q.statuses == p.statuses + reply.statuses
  {
  }

  lemma TakenAgrees(items: seq<AdvertiseItem>, was: set<ClientChannelId>, whitelist: iset<string>, k: nat,
                    p: Publishing, first: bool)
    requires k < |items| && (!first ==> FilesAt(p, items, was, whitelist, k))
    ensures (!first && items[k].id.Some? && items[k].id.value in p.stored)
            == (!first && items[k].id.Some? && FiledAt(items, was, whitelist, k, items[k].id.value))
  {
  }

  lemma NothingAdvertised(h: Handle, whitelist: iset<string>, connected: bool, first: bool, p: Publishing)
    ensures AdvertiseItems(whitelist, h, connected, first, [], p) == p && Said<PublicationCall>([]) == Silent()
    ensures p.calls + [] == p.calls && p.statuses + [] == p.statuses
    ensures forall id :: FiledBy(p, p, connected, [], id)
  {
  }

  // ----- Unadvertise

  /**
   * An item without an id ends the message with an error, and one whose id is not filed is passed over.
   * Otherwise the handler is called, and an error ends the message if it throws or the client is gone.
   */
  function ReplyToUnadvertise(h: Handle, item: UnadvertiseItem, connected: bool, known: bool): Reply<PublicationCall> {
    if item.id.None? then Tell(Error, true)
    else if !known then Silent()
    else if item.throws || !connected then Reply([UnadvertiseCall(h, item.id.value, !item.throws)], [], [Error], true)
    else Reply([UnadvertiseCall(h, item.id.value, true)], [], [], false)
  }

  ghost function RepliesToUnadvertise(h: Handle, items: seq<UnadvertiseItem>, was: set<ClientChannelId>,
                                      connected: bool): seq<Reply<PublicationCall>>
  {
    seq(|items|, k requires 0 <= k < |items| =>
      ReplyToUnadvertise(h, items[k], connected,
                         items[k].id.Some? && items[k].id.value in was && !ListedBefore(items, k, items[k].id.value)))
  }

  ghost predicate ListedBefore(items: seq<UnadvertiseItem>, k: int, id: ClientChannelId) {
    exists j :: 0 <= j < k && j < |items| && items[j].id == Some(id)
  }

  /**
   * An unadvertise message is answered by the replies to its items, and a connected client keeps what
   * no call withdrew. From a client that never advertised anything it is an error.
   */
  lemma UnadvertiseSays(s: Server, h: Handle, items: seq<UnadvertiseItem>)
    ensures var t, was := ClientUnadvertise(s, h, items), PublicationsOf(s.publications, h);
            var said := if h in s.publications.stored
                        then Said(RepliesToUnadvertise(h, items, was.Keys, h in s.clients)) else Tell(Error, true);
            var gone := (id: ClientChannelId) => h in s.clients && UnadvertiseCall(h, id, true) in said.calls;
            && t.publications.calls == s.publications.calls + said.calls
            && OnlyTold(s, t.mail, h, said.statuses)
            && t.publications.stored.Keys == s.publications.stored.Keys
            && (forall k :: k in s.publications.stored && k != h ==>
                  t.publications.stored[k] == s.publications.stored[k])
            && (forall id ::
                  Lookup(PublicationsOf(t.publications, h), id) == if gone(id) then None else Lookup(was, id))
            && t.clients.Keys == s.clients.Keys
            && (forall k :: k in s.clients && k != h ==> t.clients[k] == s.clients[k])
            && (forall id ::
                  h in s.clients ==>
                    (id in t.clients[h].advertised <==> id in s.clients[h].advertised && !gone(id)))
  {
    hide UnadvertiseItems, Told, OnlyTold, Said, ReplyToUnadvertise, Lookup;
    TellingTells(s, h);
    AddNothing(s.publications.calls);
    if h in s.publications.stored {
      var was, connected := PublicationsOf(s.publications, h), h in s.clients;
      var replies := RepliesToUnadvertise(h, items, was.Keys, connected);
      assert items[0..] == items && replies[0..] == replies;
      var p := PublishingOf(s, h);
      NothingListedYet(p, items, was.Keys);
      UnadvertiseSaysFrom(h, items, was.Keys, connected, 0, replies, p);
      assert [] + Said(replies).statuses == Said(replies).statuses && [] + Said(replies).calls == Said(replies).calls;
      DroppedAlready(p, UnadvertiseItems(h, connected, items, p), h, connected, Said(replies).calls);
    }
  }

  ghost predicate DroppedBy(p: Publishing, q: Publishing, h: Handle, connected: bool, calls: seq<PublicationCall>,
                            id: ClientChannelId)
  {
    var gone := connected && UnadvertiseCall(h, id, true) in calls;
    && Lookup(q.stored, id) == (if gone then None else Lookup(p.stored, id))
    && (id in q.advertised <==> id in p.advertised && !gone)
  }

  lemma DroppedAlready(p: Publishing, q: Publishing, h: Handle, connected: bool, calls: seq<PublicationCall>)
    requires forall id :: DroppedBy(p, q, h, connected, calls, id)
    ensures forall id ::
              var gone := connected && UnadvertiseCall(h, id, true) in calls;
              && Lookup(q.stored, id) == (if gone then None else Lookup(p.stored, id))
              && (id in q.advertised <==> id in p.advertised && !gone)
  {
    hide Lookup;
    forall id: ClientChannelId
      ensures var gone := connected && UnadvertiseCall(h, id, true) in calls;
              && Lookup(q.stored, id) == (if gone then None else Lookup(p.stored, id))
              && (id in q.advertised <==> id in p.advertised && !gone)
    {
      assert DroppedBy(p, q, h, connected, calls, id);
    }
  }

  /** What is filed when the message gets to item `k`: what was, less the ids listed before. */
  ghost predicate KnownAt(p: Publishing, items: seq<UnadvertiseItem>, was: set<ClientChannelId>, k: int) {
    forall id :: id in p.stored <==> id in was && !ListedBefore(items, k, id)
  }

  lemma NothingListedYet(p: Publishing, items: seq<UnadvertiseItem>, was: set<ClientChannelId>)
    requires p.stored.Keys == was
    ensures KnownAt(p, items, was, 0)
  {
  }

  function Unadvertised(p: Publishing, item: UnadvertiseItem, reply: Reply<PublicationCall>): Publishing {
    var q := p.(calls := p.calls + reply.calls, statuses := p.statuses + reply.statuses);
    if reply.calls != [] && !reply.ends && item.id.Some? then q.Drop(item.id.value) else q
  }

  lemma OneUnadvertised(h: Handle, items: seq<UnadvertiseItem>, connected: bool, p: Publishing)
    requires items != []
    ensures var reply := ReplyToUnadvertise(h, items[0], connected,
                                            items[0].id.Some? && items[0].id.value in p.stored);
            var q := Unadvertised(p, items[0], reply);
            UnadvertiseItems(h, connected, items, p)
            == if reply.ends then q else UnadvertiseItems(h, connected, items[1..], q)
  {
    AddNothing(p.calls);
    AddNothing(p.statuses);
  }

  lemma KnownNext(h: Handle, items: seq<UnadvertiseItem>, was: set<ClientChannelId>, connected: bool, k: nat,
                  p: Publishing)
    requires k < |items| && KnownAt(p, items, was, k)
    requires !ReplyToUnadvertise(h, items[k], connected, items[k].id.Some? && items[k].id.value in p.stored).ends
    ensures var reply := ReplyToUnadvertise(h, items[k], connected,
                                            items[k].id.Some? && items[k].id.value in p.stored);
            KnownAt(Unadvertised(p, items[k], reply), items, was, k + 1)
  {
    forall id: ClientChannelId
      ensures ListedBefore(items, k + 1, id) <==> ListedBefore(items, k, id) || items[k].id == Some(id)
    {
    }
    hide ListedBefore;
  }

  lemma DroppedOneMore(p: Publishing, item: UnadvertiseItem, h: Handle, connected: bool, known: bool,
                       rest: seq<PublicationCall>, q: Publishing, id: ClientChannelId)
    requires !ReplyToUnadvertise(h, item, connected, known).ends
    requires DroppedBy(Unadvertised(p, item, ReplyToUnadvertise(h, item, connected, known)), q, h, connected, rest, id)
    ensures DroppedBy(p, q, h, connected, ReplyToUnadvertise(h, item, connected, known).calls + rest, id)
  {
    var calls, call := ReplyToUnadvertise(h, item, connected, known).calls, UnadvertiseCall(h, id, true);
    assert call in calls + rest <==> call in calls || call in rest;
  }

  lemma DroppedLast(p: Publishing, item: UnadvertiseItem, h: Handle, connected: bool, known: bool, id: ClientChannelId)
    requires ReplyToUnadvertise(h, item, connected, known).ends
    ensures var reply := ReplyToUnadvertise(h, item, connected, known);
            DroppedBy(p, Unadvertised(p, item, reply), h, connected, reply.calls, id)
  {
  }

  lemma {:induction false} UnadvertiseSaysFrom(h: Handle, items: seq<UnadvertiseItem>, was: set<ClientChannelId>,
                                               connected: bool, k: nat, replies: seq<Reply<PublicationCall>>,
                                               p: Publishing)
    requires k <= |items| && replies == RepliesToUnadvertise(h, items, was, connected)
    requires KnownAt(p, items, was, k)
    ensures var q, said := UnadvertiseItems(h, connected, items[k..], p), Said(replies[k..]);
            && q.calls == p.calls + said.calls && q.statuses == p.statuses + said.statuses
            && forall id :: DroppedBy(p, q, h, connected, said.calls, id)
    decreases |items| - k
  {
    hide DroppedBy, UnadvertiseItems, ReplyToUnadvertise, Said, Unadvertised, ListedBefore;
    if k == |items| {
      assert items[k..] == [] && replies[k..] == [];
      NothingUnadvertised(h, connected, p);
    } else {
      var item, reply := items[k], replies[k];
      assert items[k..][0] == item && items[k..][1..] == items[k + 1..];
      OneUnadvertised(h, items[k..], connected, p);
      SaidOneMore(replies, k);
      var known := item.id.Some? && item.id.value in p.stored;
      assert reply == ReplyToUnadvertise(h, item, connected, known);
      var next, rest := Unadvertised(p, item, reply), Said(replies[k + 1..]);
      UnadvertisedAdds(p, item, reply);
      if reply.ends {
        forall id: ClientChannelId
          ensures DroppedBy(p, next, h, connected, reply.calls, id)
        {
          DroppedLast(p, item, h, connected, known, id);
        }
      } else {
        KnownNext(h, items, was, connected, k, p);
        UnadvertiseSaysFrom(h, items, was, connected, k + 1, replies, next);
        assert p.calls + reply.calls + rest.calls == p.calls + (reply.calls + rest.calls);
        assert p.statuses + reply.statuses + rest.statuses == p.statuses + (reply.statuses + rest.statuses);
        var q := UnadvertiseItems(h, connected, items[k..], p);
        forall id: ClientChannelId
          ensures DroppedBy(p, q, h, connected, reply.calls + rest.calls, id)
        {
          DroppedOneMore(p, item, h, connected, known, rest.calls, q, id);
        }
      }
    }
  }

  lemma UnadvertisedAdds(p: Publishing, item: UnadvertiseItem, reply: Reply<PublicationCall>)
    ensures var q := Unadvertised(p, item, reply);
            q.calls == p.calls + reply.calls && q.statuses == p.statuses + reply.statuses
  {
  }

  lemma NothingUnadvertised(h: Handle, connected: bool, p: Publishing)
    ensures UnadvertiseItems(h, connected, [], p) == p && Said<PublicationCall>([]) == Silent()
    ensures p.calls + [] == p.calls && p.statuses + [] == p.statuses
    ensures forall id :: DroppedBy(p, p, h, connected, [], id)
  {
  }

  // ----- Messages

  /**
   * A message on a channel the client has filed is handed over with what is filed, and an error is
   * reported if the handler throws; on any other channel it is an error. No table changes.
   */
  lemma MessageSays(s: Server, h: Handle, id: ClientChannelId, throws: bool)
    ensures var t, filed := ClientMessage(s, h, id, throws), Lookup(PublicationsOf(s.publications, h), id);
            && t == s.(publications := t.publications, mail := t.mail)
            && t.publications.stored == s.publications.stored
            && t.publications.calls
               == s.publications.calls + (if filed.Some? then [MessageCall(h, filed.value)] else [])
            && OnlyTold(s, t.mail, h, if filed.None? || throws then [Error] else [])
  {
    hide Told, OnlyTold;
    TellingTells(s, h);
    AddNothing(s.publications.calls);
  }

  ghost predicate Mentions(items: seq<UnadvertiseItem>, id: ClientChannelId) {
    exists item :: item in items && item.id == Some(id)
  }

  /** The client neither closes nor sends an unadvertise message that lists the id. */
  ghost predicate KeepsPublished(s: Server, e: Event, h: Handle, id: ClientChannelId) {
    && (e.CloseEvent? ==> e.h != h)
    && (e.UnadvertiseEvent? ==> e.h != h || !Mentions(e.unadvertiseItems, id))
  }

  ghost predicate Holds(s: Server, h: Handle, id: ClientChannelId, ad: Advertisement) {
    h in s.clients && Lookup(PublicationsOf(s.publications, h), id) == Some(ad)
  }

  lemma StepHolds(s: Server, e: Event, h: Handle, id: ClientChannelId, ad: Advertisement)
    requires Holds(s, h, id, ad) && Enabled(s, e) && KeepsPublished(s, e, h, id)
    ensures Holds(Step(s, e), h, id, ad)
  {
    hide IsOrdering, ClientAdvertise, ClientUnadvertise, ClientMessage, Open, Close, Lookup;
    if !TouchesPublications(e) {
      hide Step;
      StepFrame(s, e);
      OthersKeepPublications(s, e, Step(s, e));
    } else {
      match e
      case OpenEvent(k, channelOrder, serviceOrder) => OthersComeAndGo(s, e, h);
      case CloseEvent(k, adOrder, subOrder) => OthersComeAndGo(s, e, h);
      case AdvertiseEvent(k, items) => AdvertiseHolds(s, k, items, h, id, ad);
      case UnadvertiseEvent(k, items) => UnadvertiseHolds(s, k, items, h, id, ad);
      case MessageEvent(k, i, throws) => MessageSays(s, k, i, throws);
    }
  }

  lemma OthersComeAndGo(s: Server, e: Event, h: Handle)
    requires (e.OpenEvent? || e.CloseEvent?) && Enabled(s, e) && e.h != h
    ensures PublicationsOf(Step(s, e).publications, h) == PublicationsOf(s.publications, h)
    ensures h in Step(s, e).clients <==> h in s.clients
  {
    hide IsOrdering, Listing, UnadvertiseCalls, UnsubscribeCalls, ForgetParameters, LeaveGraph;
  }

  lemma AdvertiseHolds(s: Server, k: Handle, items: seq<AdvertiseItem>, h: Handle, id: ClientChannelId,
                       ad: Advertisement)
    requires Holds(s, h, id, ad)
    ensures Holds(ClientAdvertise(s, k, items), h, id, ad)
  {
    hide ClientAdvertise, Said, RepliesToAdvertise, OnlyTold, FirstTaken;
    AdvertiseSays(s, k, items);
  }

  lemma UnadvertiseHolds(s: Server, k: Handle, items: seq<UnadvertiseItem>, h: Handle, id: ClientChannelId,
                         ad: Advertisement)
    requires Holds(s, h, id, ad) && (k != h || !Mentions(items, id))
    ensures Holds(ClientUnadvertise(s, k, items), h, id, ad)
  {
    hide ClientUnadvertise, Said, RepliesToUnadvertise, OnlyTold;
    UnadvertiseSays(s, k, items);
    if k == h && h in s.publications.stored {
      NotWithdrawn(h, items, PublicationsOf(s.publications, h).Keys, id);
    }
  }

  lemma NotWithdrawn(h: Handle, items: seq<UnadvertiseItem>, was: set<ClientChannelId>, id: ClientChannelId)
    requires !Mentions(items, id)
    ensures UnadvertiseCall(h, id, true) !in Said(RepliesToUnadvertise(h, items, was, true)).calls
  {
    hide Said;
    var replies, call := RepliesToUnadvertise(h, items, was, true), UnadvertiseCall(h, id, true);
    forall k | 0 <= k < |replies|
      ensures call !in replies[k].calls
    {
      assert items[k] in items;
    }
    if call in Said(replies).calls {
      SaidFrom(replies, call);
    }
  }

  lemma {:induction false} RunHolds(s: Server, events: seq<Event>, t: Server, h: Handle, id: ClientChannelId,
                                    ad: Advertisement)
    requires Holds(s, h, id, ad) && Runs((x, e) => KeepsPublished(x, e, h, id), s, events, t)
    ensures Holds(t, h, id, ad)
    decreases |events|
  {
    hide Holds, Enabled, Step, KeepsPublished;
    if events != [] {
      StepHolds(s, events[0], h, id, ad);
      RunHolds(Step(s, events[0]), events[1..], t, h, id, ad);
    }
  }

  /**
   * From any state: after a connected client has advertised a channel under an id it had not filed,
   * and whatever happens then, short of its closing or listing the id in an unadvertise message, a
   * message on the id is handed over, once, with what the client advertised.
   */
  lemma MessageIsDelivered(s: Server, h: Handle, items: seq<AdvertiseItem>, id: ClientChannelId, ad: Advertisement,
                           events: seq<Event>, t: Server, throws: bool)
    requires h in s.clients && WellFormedAdvertise(items)
    requires id !in PublicationsOf(s.publications, h) && FirstAd(items, s.options.whitelist, id) == Some(ad)
    requires Runs((x, e) => KeepsPublished(x, e, h, id), ClientAdvertise(s, h, items), events, t)
    ensures var after := ClientMessage(t, h, id, throws);
            && after.publications.calls == t.publications.calls + [MessageCall(h, ad)]
            && OnlyTold(t, after.mail, h, if throws then [Error] else [])
  {
    hide Runs, ClientAdvertise, FirstAd, OnlyTold, RepliesToAdvertise, Said, FirstTaken, ClientMessage;
    AdvertiseExact(s, h, items, id);
    AdvertiseSays(s, h, items);
    RunHolds(ClientAdvertise(s, h, items), events, t, h, id, ad);
    MessageSays(t, h, id, throws);
  }

  ghost predicate NeverAdvertises(s: Server, e: Event, h: Handle, id: ClientChannelId) {
    e.AdvertiseEvent? && e.h == h ==> forall item :: item in e.advertiseItems ==> item.id != Some(id)
  }

  ghost predicate Lacks(s: Server, h: Handle, id: ClientChannelId) {
    Lookup(PublicationsOf(s.publications, h), id) == None
  }

  lemma {:induction false} FirstTakenIsCalled(calls: seq<PublicationCall>, id: ClientChannelId) returns (h: Handle)
    requires FirstTaken(calls, id).Some?
    ensures AdvertiseCall(h, FirstTaken(calls, id).value, true) in calls
    ensures FirstTaken(calls, id).value.channelId == id
    decreases |calls|
  {
    if calls[0].AdvertiseCall? && calls[0].ok && calls[0].ad.channelId == id {
      h := calls[0].client;
    } else {
      h := FirstTakenIsCalled(calls[1..], id);
    }
  }

  lemma NotTaken(h: Handle, items: seq<AdvertiseItem>, was: set<ClientChannelId>, whitelist: iset<string>,
                 connected: bool, first: bool, id: ClientChannelId)
    requires forall item :: item in items ==> item.id != Some(id)
    ensures FirstTaken(Said(RepliesToAdvertise(h, items, was, whitelist, connected, first)).calls, id).None?
  {
    hide Said, FirstTaken, FiledAt;
    var replies := RepliesToAdvertise(h, items, was, whitelist, connected, first);
    var calls := Said(replies).calls;
    forall i, call | 0 <= i < |replies| && call in replies[i].calls
      ensures call.AdvertiseCall? && call.ad.channelId != id
    {
      assert items[i] in items;
    }
    if FirstTaken(calls, id).Some? {
      var k := FirstTakenIsCalled(calls, id);
      SaidFrom(replies, AdvertiseCall(k, FirstTaken(calls, id).value, true));
    }
  }

  lemma StepLacks(s: Server, e: Event, h: Handle, id: ClientChannelId)
    requires Lacks(s, h, id) && Enabled(s, e) && NeverAdvertises(s, e, h, id)
    ensures Lacks(Step(s, e), h, id)
  {
    hide IsOrdering, ClientAdvertise, ClientUnadvertise, ClientMessage, Lookup;
    if !TouchesPublications(e) {
      hide Step;
      StepFrame(s, e);
      OthersKeepPublications(s, e, Step(s, e));
    } else {
      match e
      case OpenEvent(_, _, _) =>
      case CloseEvent(k, _, _) => CloseLacks(s, e, h, id);
      case AdvertiseEvent(k, items) => AdvertiseLacks(s, k, items, h, id);
      case UnadvertiseEvent(k, items) => UnadvertiseLacks(s, k, items, h, id);
      case MessageEvent(k, i, throws) => MessageSays(s, k, i, throws);
    }
  }

  lemma CloseLacks(s: Server, e: Event, h: Handle, id: ClientChannelId)
    requires Lacks(s, h, id) && e.CloseEvent? && Enabled(s, e)
    ensures Lacks(Step(s, e), h, id)
  {
    hide IsOrdering, UnadvertiseCalls, UnsubscribeCalls, ForgetParameters, LeaveGraph;
  }

  lemma AdvertiseLacks(s: Server, k: Handle, items: seq<AdvertiseItem>, h: Handle, id: ClientChannelId)
    requires Lacks(s, h, id) && (k == h ==> forall item :: item in items ==> item.id != Some(id))
    ensures Lacks(ClientAdvertise(s, k, items), h, id)
  {
    hide ClientAdvertise, Said, RepliesToAdvertise, OnlyTold, FirstTaken;
    AdvertiseSays(s, k, items);
    if k == h {
      NotTaken(h, items, PublicationsOf(s.publications, h).Keys, s.options.whitelist, h in s.clients,
               h !in s.publications.stored, id);
    }
  }

  lemma UnadvertiseLacks(s: Server, k: Handle, items: seq<UnadvertiseItem>, h: Handle, id: ClientChannelId)
    requires Lacks(s, h, id)
    ensures Lacks(ClientUnadvertise(s, k, items), h, id)
  {
    hide ClientUnadvertise, Said, RepliesToUnadvertise, OnlyTold;
    UnadvertiseSays(s, k, items);
  }

  lemma {:induction false} RunLacks(s: Server, events: seq<Event>, t: Server, h: Handle, id: ClientChannelId)
    requires Lacks(s, h, id) && Runs((x, e) => NeverAdvertises(x, e, h, id), s, events, t)
    ensures Lacks(t, h, id)
    decreases |events|
  {
    hide Lacks, Enabled, Step, NeverAdvertises;
    if events != [] {
      StepLacks(s, events[0], h, id);
      RunLacks(Step(s, events[0]), events[1..], t, h, id);
    }
  }

  /** A message on a channel that was withdrawn, and not advertised again since, is an error and no more. */
  lemma MessageAfterWithdrawal(s: Server, h: Handle, items: seq<UnadvertiseItem>, id: ClientChannelId,
                               events: seq<Event>, t: Server, throws: bool)
    requires h in s.clients && WellFormedUnadvertise(items) && Mentions(items, id)
    requires Runs((x, e) => NeverAdvertises(x, e, h, id), ClientUnadvertise(s, h, items), events, t)
    ensures var after := ClientMessage(t, h, id, throws);
            after.publications == t.publications && OnlyTold(t, after.mail, h, [Error])
  {
    hide Runs, ClientUnadvertise, OnlyTold, ClientMessage, Lookup;
    UnadvertiseExact(s, h, items, id);
    RunLacks(ClientUnadvertise(s, h, items), events, t, h, id);
    MessageSays(t, h, id, throws);
  }

  /** And so is one after the client has closed. */
  lemma MessageAfterClose(s: Server, h: Handle, adOrder: seq<ClientChannelId>, subOrder: seq<ChannelId>,
                          id: ClientChannelId, events: seq<Event>, t: Server, throws: bool)
    requires h in s.clients
    requires Runs((x, e) => NeverAdvertises(x, e, h, id), Close(s, h, adOrder, subOrder), events, t)
    ensures var after := ClientMessage(t, h, id, throws);
            after.publications == t.publications && OnlyTold(t, after.mail, h, [Error])
  {
    hide Runs, OnlyTold, ClientMessage, UnadvertiseCalls, UnsubscribeCalls, ForgetParameters, LeaveGraph;
    RunLacks(Close(s, h, adOrder, subOrder), events, t, h, id);
    MessageSays(t, h, id, throws);
  }
}
