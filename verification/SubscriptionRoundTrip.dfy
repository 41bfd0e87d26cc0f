/** Subscribing under fresh ids and unsubscribing the same ids leaves a client as it was. */
module SubscriptionRoundTrip {
  import opened Wrappers
  import opened Orderings
  import opened Session
  import opened SubscriptionProofs
  import opened SubscriptionAccounting

  /** A whole subscribe message, with no other step between the turns of its loop. */
  function Subscribe(s: Server, h: Handle, items: seq<SubscribeItem>): Server
    requires s.batch.None?
  {
    RunBatch(SubscribeStart(s, h, items))
  }

  predicate WellFormed(items: seq<SubscribeItem>) {
    forall i :: 0 <= i < |items| ==> items[i].id.Some? && items[i].channelId.Some? && !items[i].throws
  }

  predicate WellFormedUnsubscribe(items: seq<UnsubscribeItem>) {
    forall i :: 0 <= i < |items| ==> items[i].id.Some? && !items[i].throws
  }

  function Ids(items: seq<SubscribeItem>): set<SubscriptionId>
    requires WellFormed(items)
  {
    set i | 0 <= i < |items| :: items[i].id.value
  }

  function UnsubscribeIds(items: seq<UnsubscribeItem>): set<SubscriptionId>
    requires WellFormedUnsubscribe(items)
  {
    set i | 0 <= i < |items| :: items[i].id.value
  }

  /** `m` is `was` with channels added under different ids out of `ids`. */
  ghost predicate Grown(was: Subscriptions, m: Subscriptions, ids: set<SubscriptionId>) {
    && SubMap(was, m)
    && (forall c :: c in m && c !in was ==> m[c] in ids)
    && (forall c, d :: c in m && d in m && c !in was && d !in was && m[c] == m[d] ==> c == d)
  }

  /** The ids still to come are new to the subscriptions added so far. */
  ghost predicate StillFresh(was: Subscriptions, m: Subscriptions, rest: seq<SubscribeItem>) {
    forall c, i :: c in m && c !in was && 0 <= i < |rest| ==> rest[i].id != Some(m[c])
  }

  lemma {:induction false} RunBatchGrows(s: Server, h: Handle, was: Subscriptions, rest: seq<SubscribeItem>,
                                         ids: set<SubscriptionId>)
    requires s.batch == Some(Batch(h, was, rest)) && h in s.clients
    requires WellFormed(rest) && DistinctIds(rest) && Ids(rest) <= ids && ids !! was.Values
    requires Grown(was, s.clients[h].subscriptions, ids) && StillFresh(was, s.clients[h].subscriptions, rest)
    ensures var t := RunBatch(s);
            && h in t.clients && Grown(was, t.clients[h].subscriptions, ids)
            && t == s.(batch := None,
                       clients := s.clients[h := s.clients[h].(subscriptions := t.clients[h].subscriptions)],
                       log := t.log, mail := t.mail)
    decreases |rest|
  {
    hide Told, Subscribed;
    if rest != [] {
      var t, tail := SubscribeNext(s), rest[1..];
      NextGrows(s, h, was, rest, ids);
      RunBatchGrows(t, h, was, tail, ids);
      assert RunBatch(s) == RunBatch(t);
    } else {
      assert s.clients == s.clients[h := s.clients[h]];
    }
  }

  /** One turn adds the channel, unless it does not exist or is subscribed already. */
  lemma NextGrows(s: Server, h: Handle, was: Subscriptions, rest: seq<SubscribeItem>, ids: set<SubscriptionId>)
    requires s.batch == Some(Batch(h, was, rest)) && h in s.clients && rest != []
    requires WellFormed(rest) && DistinctIds(rest) && Ids(rest) <= ids && ids !! was.Values
    requires Grown(was, s.clients[h].subscriptions, ids) && StillFresh(was, s.clients[h].subscriptions, rest)
    ensures var t, tail := SubscribeNext(s), rest[1..];
            && t.batch == Some(Batch(h, was, tail)) && h in t.clients
            && WellFormed(tail) && DistinctIds(tail) && Ids(tail) <= ids
            && Grown(was, t.clients[h].subscriptions, ids) && StillFresh(was, t.clients[h].subscriptions, tail)
            && t == s.(batch := t.batch,
                       clients := s.clients[h := s.clients[h].(subscriptions := t.clients[h].subscriptions)],
                       log := t.log, mail := t.mail)
  {
    hide Told, Subscribed;
    var t, tail := SubscribeNext(s), rest[1..];
    assert forall i :: 0 <= i < |tail| ==> tail[i] == rest[i + 1];
    assert Ids(tail) <= Ids(rest);
    assert rest[0].id.value in Ids(rest);
    if t.clients == s.clients {
      assert s.clients == s.clients[h := s.clients[h]];
    }
  }

  lemma {:induction false} UnsubscribeShrinks(h: Handle, was: Subscriptions, m: Subscriptions, order: seq<ChannelId>,
                                              items: seq<UnsubscribeItem>, u: Unsubscribing)
    requires WellFormedUnsubscribe(items) && IsOrdering(order, m.Keys)
    requires SubMap(was, u.subscriptions) && SubMap(u.subscriptions, m)
    requires forall c, d :: c in m && d in m && c !in was && d !in was && m[c] == m[d] ==> c == d
    requires UnsubscribeIds(items) !! was.Values
    requires forall c :: c in u.subscriptions && c !in was ==> m[c] in UnsubscribeIds(items)
    ensures UnsubscribeItems(h, m, order, items, u).subscriptions == was
    decreases |items|
  {
    if items == [] {
      assert u.subscriptions == was;
    } else {
      var id, rest := items[0].id.value, items[1..];
      FindFound(order, m, id);
      assert forall c :: c in was ==> was[c] in was.Values;
      assert forall i :: 0 <= i < |rest| ==> rest[i] == items[i + 1];
      assert UnsubscribeIds(items) == UnsubscribeIds(rest) + {id} by {
        assert id in UnsubscribeIds(items);
        assert forall i :: 0 < i < |items| ==> items[i] == rest[i - 1];
      }
      match FindSubscription(order, m, id) {
        case None =>
          UnsubscribeShrinks(h, was, m, order, rest, u.(statuses := u.statuses + [Warning]));
        case Some(d) =>
          assert d !in was;
          var called := u.(calls := u.calls + [UnsubscribeCall(h, d)]);
          if d !in u.subscriptions {
            UnsubscribeShrinks(h, was, m, order, rest,
                               called.(mismatches := u.mismatches + [Mismatch(h, d, UnsubscribedTwice)]));
          } else {
            UnsubscribeShrinks(h, was, m, order, rest, called.(subscriptions := u.subscriptions - {d}));
          }
      }
    }
  }

  /**
   * A subscribe message with fresh, distinct ids followed by an unsubscribe message with the same
   * ids, in any order, restores the client's subscriptions: also when some of the channels do not
   * exist, were subscribed before, or are listed twice.
   */
  lemma SubscribeThenUnsubscribe(s: Server, h: Handle, items: seq<SubscribeItem>, order: seq<ChannelId>,
                                 back: seq<UnsubscribeItem>)
    requires h in s.clients && s.batch.None?
    requires WellFormed(items) && DistinctIds(items) && Ids(items) !! s.clients[h].subscriptions.Values
    requires WellFormedUnsubscribe(back) && UnsubscribeIds(back) == Ids(items)
    requires h in Subscribe(s, h, items).clients
             && IsOrdering(order, Subscribe(s, h, items).clients[h].subscriptions.Keys)
    ensures Unsubscribe(Subscribe(s, h, items), h, order, back).clients == s.clients
  {
    hide Told, UnsubscribeItems;
    var was := s.clients[h].subscriptions;
    var s1 := SubscribeStart(s, h, items);
    RunBatchGrows(s1, h, was, items, Ids(items));
    var t := RunBatch(s1);
    var m := t.clients[h].subscriptions;
    UnsubscribeShrinks(h, was, m, order, back, Unsubscribing(m, [], [], []));
    assert Unsubscribe(t, h, order, back).clients[h] == s.clients[h];
  }
}
