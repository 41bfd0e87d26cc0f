/** When the unsubscribe calls can outnumber the subscribe calls. */
module UnsubscribeBound {
  import opened Wrappers
  import opened Orderings
  import opened Session
  import opened SessionFrames
  import opened SubscriptionProofs
  import opened SubscriptionAccounting

  // ----- Which unsubscribe messages log a futile call

  predicate Matched(item: UnsubscribeItem, m: Subscriptions) {
    item.id.Some? && item.id.value in m.Values
  }

  /** No item before this one is malformed, or calls a handler that throws. */
  ghost predicate Reached(items: seq<UnsubscribeItem>, m: Subscriptions, i: int) {
    forall j :: 0 <= j < i <= |items| ==> items[j].id.Some? && !(Matched(items[j], m) && items[j].throws)
  }

  /** The message gets to this item, which names a subscription, and throws or names it again. */
  ghost predicate FutileAt(items: seq<UnsubscribeItem>, m: Subscriptions, i: int) {
    && 0 <= i < |items| && Reached(items, m, i) && Matched(items[i], m)
    && (items[i].throws || exists j :: 0 <= j < i && items[j].id == items[i].id)
  }

  ghost predicate AsksFutilely(items: seq<UnsubscribeItem>, m: Subscriptions) {
    exists i :: FutileAt(items, m, i)
  }

  lemma FindFails(order: seq<ChannelId>, m: Subscriptions, item: UnsubscribeItem)
    requires IsOrdering(order, m.Keys) && item.id.Some?
    ensures FindSubscription(order, m, item.id.value).Some? <==> Matched(item, m)
  {
    FindFound(order, m, item.id.value);
  }

  lemma {:induction false} MismatchesGrow(h: Handle, snapshot: Subscriptions, order: seq<ChannelId>,
                                          items: seq<UnsubscribeItem>, u: Unsubscribing)
    ensures u.mismatches <= UnsubscribeItems(h, snapshot, order, items, u).mismatches
    decreases |items|
  {
    if items != [] && items[0].id.Some? {
      var rest := items[1..];
      match FindSubscription(order, snapshot, items[0].id.value) {
        case None =>
          MismatchesGrow(h, snapshot, order, rest, u.(statuses := u.statuses + [Warning]));
        case Some(c) =>
          var called := u.(calls := u.calls + [UnsubscribeCall(h, c)]);
          if !items[0].throws && c !in u.subscriptions {
            MismatchesGrow(h, snapshot, order, rest,
                           called.(mismatches := u.mismatches + [Mismatch(h, c, UnsubscribedTwice)]));
          } else if !items[0].throws {
            MismatchesGrow(h, snapshot, order, rest, called.(subscriptions := u.subscriptions - {c}));
          }
      }
    }
  }

  /** Where a message stands before item `k` if it has asked nothing futile yet. */
  ghost predicate FruitfulTo(m: Subscriptions, order: seq<ChannelId>, items: seq<UnsubscribeItem>, k: nat,
                             u: Unsubscribing)
  {
    && k <= |items| && u.mismatches == [] && Reached(items, m, k)
    && (forall i :: 0 <= i < k ==> !FutileAt(items, m, i))
    && (forall c :: c in m && c !in u.subscriptions ==> exists j :: 0 <= j < k && items[j].id == Some(m[c]))
    && (forall j :: 0 <= j < k && Matched(items[j], m) ==>
          FindSubscription(order, m, items[j].id.value).Some?
          && FindSubscription(order, m, items[j].id.value).value !in u.subscriptions)
  }

  lemma {:induction false} FutileFrom(h: Handle, m: Subscriptions, order: seq<ChannelId>,
                                      items: seq<UnsubscribeItem>, k: nat, u: Unsubscribing)
    requires k <= |items| && IsOrdering(order, m.Keys) && FruitfulTo(m, order, items, k, u)
    ensures UnsubscribeItems(h, m, order, items[k..], u).mismatches != [] <==> AsksFutilely(items, m)
    decreases |items| - k
  {
    hide IsOrdering, FutileAt, Reached, FruitfulTo;
    if k == |items| {
      NoneLater(m, order, items, k, u);
    } else {
      var item, rest := items[k], items[k + 1..];
      assert k < |items| && items[k..][0] == item && items[k..][1..] == rest;
      if item.id.None? {
        NoneLater(m, order, items, k, u);
      } else {
        FindFails(order, m, item);
        FindFound(order, m, item.id.value);
        match FindSubscription(order, m, item.id.value) {
          case None =>
            var next := u.(statuses := u.statuses + [Warning]);
            UnmatchedIsFruitful(m, order, items, k, u, next);
            FutileFrom(h, m, order, items, k + 1, next);
          case Some(c) =>
            var called := u.(calls := u.calls + [UnsubscribeCall(h, c)]);
            if item.throws || c !in u.subscriptions {
              FutileHere(m, order, items, k, u);
              var twice := called.(mismatches := u.mismatches + [Mismatch(h, c, UnsubscribedTwice)]);
              MismatchesGrow(h, m, order, rest, twice);
            } else {
              var next := called.(subscriptions := u.subscriptions - {c});
              MatchedIsFruitful(m, order, items, k, u, next);
              FutileFrom(h, m, order, items, k + 1, next);
            }
        }
      }
    }
  }

  /** An item that names no subscription changes nothing. */
  lemma UnmatchedIsFruitful(m: Subscriptions, order: seq<ChannelId>, items: seq<UnsubscribeItem>, k: nat,
                            u: Unsubscribing, v: Unsubscribing)
    requires FruitfulTo(m, order, items, k, u) && k < |items| && items[k].id.Some? && !Matched(items[k], m)
    requires v.mismatches == u.mismatches && v.subscriptions == u.subscriptions
    ensures FruitfulTo(m, order, items, k + 1, v)
  {
  }

  /** An item that ends a subscription was not listed before. */
  lemma MatchedIsFruitful(m: Subscriptions, order: seq<ChannelId>, items: seq<UnsubscribeItem>, k: nat,
                          u: Unsubscribing, v: Unsubscribing)
    requires FruitfulTo(m, order, items, k, u) && k < |items| && items[k].id.Some? && !items[k].throws
    requires FindSubscription(order, m, items[k].id.value).Some?
    requires var c := FindSubscription(order, m, items[k].id.value).value;
             && c in u.subscriptions && c in m && m[c] == items[k].id.value
             && v.mismatches == u.mismatches && v.subscriptions == u.subscriptions - {c}
    ensures FruitfulTo(m, order, items, k + 1, v)
  {
    hide FindSubscription;
    assert forall j :: 0 <= j < k && Matched(items[j], m) ==> items[j].id != items[k].id;
    assert forall j :: 0 <= j < k && items[j].id == items[k].id ==> Matched(items[j], m);
  }

  lemma FutileHere(m: Subscriptions, order: seq<ChannelId>, items: seq<UnsubscribeItem>, k: nat, u: Unsubscribing)
    requires FruitfulTo(m, order, items, k, u) && k < |items| && Matched(items[k], m)
    requires FindSubscription(order, m, items[k].id.value).Some?
    requires var c := FindSubscription(order, m, items[k].id.value).value;
             c in m && m[c] == items[k].id.value && (items[k].throws || c !in u.subscriptions)
    ensures AsksFutilely(items, m)
  {
    hide FindSubscription;
    assert FutileAt(items, m, k);
  }

  lemma NoneLater(m: Subscriptions, order: seq<ChannelId>, items: seq<UnsubscribeItem>, k: nat, u: Unsubscribing)
    requires FruitfulTo(m, order, items, k, u) && (k == |items| || items[k].id.None?)
    ensures !AsksFutilely(items, m) && u.mismatches == []
  {
    hide FindSubscription;
  }

  /** A message logs a futile call exactly if it asks for one, whatever the order the snapshot is searched in. */
  lemma FutileExactly(h: Handle, m: Subscriptions, order: seq<ChannelId>, items: seq<UnsubscribeItem>)
    requires IsOrdering(order, m.Keys)
    ensures UnsubscribeItems(h, m, order, items, Unsubscribing(m, [], [], [])).mismatches != []
            <==> AsksFutilely(items, m)
  {
    assert items[0..] == items;
    FutileFrom(h, m, order, items, 0, Unsubscribing(m, [], [], []));
  }

  // ----- Runs without such a message

  ghost predicate NoneFutile(s: Server) {
    forall m :: m in s.log.mismatches ==> !IsFutile(m.cause)
  }

  /** The message asks for no futile call, given the subscriptions its client has when it is handled. */
  ghost predicate UnsubscribesCleanly(s: Server, e: Event) {
    e.UnsubscribeEvent? && e.h in s.clients ==> !AsksFutilely(e.unsubscribeItems, s.clients[e.h].subscriptions)
  }

  lemma {:induction false} UnsubscribeLogsFutile(h: Handle, snapshot: Subscriptions, order: seq<ChannelId>,
                                                 items: seq<UnsubscribeItem>, u: Unsubscribing)
    requires forall m :: m in u.mismatches ==> IsFutile(m.cause)
    ensures forall m :: m in UnsubscribeItems(h, snapshot, order, items, u).mismatches ==> IsFutile(m.cause)
    decreases |items|
  {
    if items != [] && items[0].id.Some? {
      var rest := items[1..];
      match FindSubscription(order, snapshot, items[0].id.value) {
        case None =>
          UnsubscribeLogsFutile(h, snapshot, order, rest, u.(statuses := u.statuses + [Warning]));
        case Some(c) =>
          var called := u.(calls := u.calls + [UnsubscribeCall(h, c)]);
          if !items[0].throws && c !in u.subscriptions {
            UnsubscribeLogsFutile(h, snapshot, order, rest,
                                  called.(mismatches := u.mismatches + [Mismatch(h, c, UnsubscribedTwice)]));
          } else if !items[0].throws {
            UnsubscribeLogsFutile(h, snapshot, order, rest, called.(subscriptions := u.subscriptions - {c}));
          }
      }
    }
  }

  lemma UnsubscribeFutile(s: Server, e: Event)
    requires e.UnsubscribeEvent? && Enabled(s, e)
    ensures NoneFutile(Unsubscribe(s, e.h, e.order, e.unsubscribeItems)) <==> NoneFutile(s) && UnsubscribesCleanly(s, e)
  {
    hide UnsubscribeItems, AsksFutilely, IsOrdering;
    if e.h in s.clients {
      var m := s.clients[e.h].subscriptions;
      var u := UnsubscribeItems(e.h, m, e.order, e.unsubscribeItems, Unsubscribing(m, [], [], []));
      FutileExactly(e.h, m, e.order, e.unsubscribeItems);
      UnsubscribeLogsFutile(e.h, m, e.order, e.unsubscribeItems, Unsubscribing(m, [], [], []));
      MoreMismatches(s.log.mismatches, u.mismatches);
    }
  }

  lemma MoreMismatches(before: seq<Mismatch>, more: seq<Mismatch>)
    ensures forall m :: m in before + more <==> m in before || m in more
    ensures more != [] ==> more[0] in more
  {
  }

  lemma SubscribeNextFutile(s: Server)
    requires s.batch.Some?
    ensures NoneFutile(SubscribeNext(s)) <==> NoneFutile(s)
  {
    hide SubscribeNext;
    var more := SubscribeNextCauses(s);
    MoreMismatches(s.log.mismatches, more);
  }

  lemma SubscribeNextCauses(s: Server) returns (more: seq<Mismatch>)
    requires s.batch.Some?
    ensures SubscribeNext(s).log.mismatches == s.log.mismatches + more
    ensures forall m :: m in more ==> !IsFutile(m.cause)
  {
    hide Told;
    var t, was := SubscribeNext(s), s.log.mismatches;
    if t.log == s.log {
      more := [];
      assert was + [] == was;
    } else {
      var h, c := s.batch.value.client, s.batch.value.rest[0].channelId.value;
      more := if s.batch.value.rest[0].throws then [Mismatch(h, c, SubscribeThrew)]
              else if h !in s.clients then [Mismatch(h, c, ClientGone)]
              else if c in s.clients[h].subscriptions then [Mismatch(h, c, AlreadySubscribed)]
              else [];
      assert t.log == SubscriptionLog(s.log.calls + [SubscribeCall(h, c)], was + more);
    }
  }

  lemma RemoveFutile(s: Server, e: Event)
    requires e.RemoveChannelsEndEvent? && e.removal < |s.removals|
    ensures NoneFutile(RemoveChannelsEnd(s, e.removal, e.clientOrder)) <==> NoneFutile(s)
  {
    hide Dropped, AllNoticed;
    DroppedCauses(e.clientOrder, s.clients, s.removals[e.removal]);
    MoreMismatches(s.log.mismatches, Dropped(e.clientOrder, s.clients, s.removals[e.removal]));
  }

  /** A step logs a futile call exactly if it handles a message that asks for one. */
  lemma StepFutile(s: Server, e: Event)
    requires Enabled(s, e)
    ensures NoneFutile(Step(s, e)) <==> NoneFutile(s) && UnsubscribesCleanly(s, e)
  {
    hide IsOrdering, NoneFutile, SubscribeNext, Unsubscribe, RemoveChannelsEnd, AsksFutilely;
    if e.UnsubscribeEvent? {
      UnsubscribeFutile(s, e);
    } else if e.SubscribeNextEvent? {
      SubscribeNextFutile(s);
    } else if e.RemoveChannelsEndEvent? {
      RemoveFutile(s, e);
    } else {
      OthersKeepMismatches(s, e);
      SameFutile(s, Step(s, e));
    }
  }

  lemma OthersKeepMismatches(s: Server, e: Event)
    requires Enabled(s, e) && !e.UnsubscribeEvent? && !e.SubscribeNextEvent? && !e.RemoveChannelsEndEvent?
    ensures Step(s, e).log.mismatches == s.log.mismatches
  {
    hide IsOrdering;
    if e.CloseEvent? {
      hide UnadvertiseCalls, UnsubscribeCalls, ForgetParameters, LeaveGraph;
    } else {
      hide Step;
      StepFrame(s, e);
      if !e.OpenEvent? && !e.SubscribeStartEvent? {
        OthersKeepSubscriptions(s, e, Step(s, e));
      }
    }
  }

  lemma SameFutile(s: Server, t: Server)
    requires t.log.mismatches == s.log.mismatches
    ensures NoneFutile(t) <==> NoneFutile(s)
  {
  }

  /** A run logs no futile call exactly if none of its unsubscribe messages asks for one. */
  lemma {:induction false} CleanRunsExactly(s: Server, events: seq<Event>, t: Server)
    requires Runs(Anything, s, events, t)
    ensures NoneFutile(t) <==> NoneFutile(s) && Runs(UnsubscribesCleanly, s, events, t)
    decreases |events|
  {
    hide Enabled, Step, NoneFutile, UnsubscribesCleanly;
    if events != [] {
      StepFutile(s, events[0]);
      CleanRunsExactly(Step(s, events[0]), events[1..], t);
    }
  }

  /**
   * If no unsubscribe message asks for a futile call, the unsubscribe calls, plus one if subscribed,
   * never exceed the subscribe calls, and equal them exactly when no subscribe call was left unanswered.
   */
  lemma UnsubscribesNeverExceed(options: Options, events: seq<Event>, s: Server, h: Handle, c: ChannelId)
    requires Runs(UnsubscribesCleanly, Init(options), events, s)
    ensures Calls(s.log, UnsubscribeCall(h, c)) + Subscribed01(s.clients, h, c) <= Calls(s.log, SubscribeCall(h, c))
    ensures Calls(s.log, UnsubscribeCall(h, c)) + Subscribed01(s.clients, h, c) == Calls(s.log, SubscribeCall(h, c))
            <==> Unanswered(s.log, h, c) == 0
  {
    RunsAnyhow(UnsubscribesCleanly, Init(options), events, s);
    CleanRunsExactly(Init(options), events, s);
    CallsBalance(options, events, s, h, c);
    assert forall i :: 0 <= i < |s.log.mismatches| ==> s.log.mismatches[i] in s.log.mismatches;
    TallyOfOthers(s.log.mismatches, h, c, true);
  }

  /** A run under an assumption is a run. */
  lemma {:induction false} RunsAnyhow(assumed: Assumption, s: Server, events: seq<Event>, t: Server)
    requires Runs(assumed, s, events, t)
    ensures Runs(Anything, s, events, t)
    decreases |events|
  {
    if events != [] {
      RunsAnyhow(assumed, Step(s, events[0]), events[1..], t);
    }
  }

  /**
   * From any state: an unsubscribe handler that throws was called, but the client stays subscribed,
   * so the unsubscribe calls and the subscription together gain one on the subscribe calls.
   */
  lemma ThrowingUnsubscribeGains(s: Server, h: Handle, c: ChannelId, order: seq<ChannelId>)
    requires h in s.clients && c in s.clients[h].subscriptions
    requires Injective(s.clients[h].subscriptions) && IsOrdering(order, s.clients[h].subscriptions.Keys)
    ensures var t := Unsubscribe(s, h, order, [UnsubscribeItem(Some(s.clients[h].subscriptions[c]), true)]);
            && Subscribed01(t.clients, h, c) == Subscribed01(s.clients, h, c) == 1
            && Calls(t.log, SubscribeCall(h, c)) == Calls(s.log, SubscribeCall(h, c))
            && Calls(t.log, UnsubscribeCall(h, c)) == Calls(s.log, UnsubscribeCall(h, c)) + 1
  {
    hide Told, Calls;
    var m := s.clients[h].subscriptions;
    FindFound(order, m, m[c]);
    assert FindSubscription(order, m, m[c]) == Some(c);
    var t := Unsubscribe(s, h, order, [UnsubscribeItem(Some(m[c]), true)]);
    assert t.log.calls == s.log.calls + [UnsubscribeCall(h, c)];
    Counts(s.log, t.log, UnsubscribeCall(h, c));
  }

  lemma Counts(before: SubscriptionLog, after: SubscriptionLog, call: SubscriptionCall)
    requires after.calls == before.calls + [call]
    ensures forall other :: Calls(after, other) == Calls(before, other) + if other == call then 1 else 0
  {
  }
}
