/** The parameters subscribed upstream are those the clients are subscribed to. */
module ParameterProofs {
  import opened ParameterJson
  import opened Orderings
  import opened Session
  import opened SessionFrames

  /** What the owner of the server is subscribed to, after these calls of its handler. */
  function Upstream(calls: seq<ParameterCall>): set<string> {
    if calls == [] then {}
    else
      After(Upstream(calls[..|calls| - 1]), calls[|calls| - 1])
  }

  function After(upstream: set<string>, call: ParameterCall): set<string> {
    if call.ParameterSubscribe? then upstream + call.names else upstream - call.names
  }

  lemma UpstreamAppend(calls: seq<ParameterCall>, call: ParameterCall)
    ensures Upstream(calls + [call]) == After(Upstream(calls), call)
  {
    assert (calls + [call])[..|calls|] == calls;
  }

  /** A subscribe call asks for something, and for nothing that is subscribed already. */
  ghost predicate NeverRedundant(calls: seq<ParameterCall>) {
    forall i :: 0 <= i < |calls| && calls[i].ParameterSubscribe? ==>
      calls[i].names != {} && calls[i].names !! Upstream(calls[..i])
  }

  ghost predicate Agrees(p: Parameters) {
    && (forall name :: name in Upstream(p.calls) <==> IsParameterSubscribed(p, name))
    && NeverRedundant(p.calls)
  }

  lemma OneMoreCall(calls: seq<ParameterCall>, call: ParameterCall)
    requires NeverRedundant(calls)
    requires call.ParameterSubscribe? ==> call.names != {} && call.names !! Upstream(calls)
    ensures NeverRedundant(calls + [call])
  {
    forall i | 0 <= i < |calls + [call]| && (calls + [call])[i].ParameterSubscribe?
      ensures (calls + [call])[i].names != {} && (calls + [call])[i].names !! Upstream((calls + [call])[..i])
    {
      assert (calls + [call])[..i] == calls[..i];
      assert calls[..|calls|] == calls;
    }
  }

  lemma SubscribedAfterAdding(p: Parameters, h: Handle, names: set<string>, name: string)
    ensures IsParameterSubscribed(AddNames(p, h, names), name) <==> IsParameterSubscribed(p, name) || name in names
  {
    hide Unused;
    var q := AddNames(p, h, names);
    if name in names {
      assert name in q.subscriptions[h];
    }
    if IsParameterSubscribed(p, name) {
      var k :| k in p.subscriptions && name in p.subscriptions[k];
      assert name in q.subscriptions[k];
    }
  }

  lemma AddNamesAgrees(p: Parameters, h: Handle, names: set<string>)
    requires Agrees(p)
    ensures Agrees(AddNames(p, h, names))
  {
    hide IsParameterSubscribed, NeverRedundant, Upstream;
    var wanted := Unused(p, names);
    UpstreamAppend(p.calls, ParameterSubscribe(wanted));
    forall name {
      SubscribedAfterAdding(p, h, names, name);
    }
    if wanted != {} {
      OneMoreCall(p.calls, ParameterSubscribe(wanted));
    }
  }

  lemma WithdrawAgrees(p: Parameters, q: Parameters, names: set<string>)
    requires Agrees(p) && q.calls == p.calls
    requires forall name :: IsParameterSubscribed(q, name) ==> IsParameterSubscribed(p, name)
    requires forall name :: IsParameterSubscribed(p, name) && !IsParameterSubscribed(q, name) ==> name in names
    ensures Agrees(Withdraw(q, names))
  {
    hide IsParameterSubscribed, NeverRedundant, Upstream;
    var unused := Unused(q, names);
    UpstreamAppend(p.calls, ParameterUnsubscribe(unused));
    SameTable(q, Withdraw(q, names));
    assert forall name :: name in unused <==> name in names && !IsParameterSubscribed(q, name);
    if unused != {} {
      OneMoreCall(p.calls, ParameterUnsubscribe(unused));
    }
  }

  lemma SameTable(p: Parameters, q: Parameters)
    requires q.subscriptions == p.subscriptions
    ensures forall name :: IsParameterSubscribed(q, name) <==> IsParameterSubscribed(p, name)
  {
  }

  lemma RemoveNamesAgrees(p: Parameters, h: Handle, names: set<string>)
    requires Agrees(p)
    ensures Agrees(RemoveNames(p, h, names))
  {
    var q := p.(subscriptions := p.subscriptions[h := NamesOf(p, h) - names]);
    forall name | IsParameterSubscribed(p, name) && name !in names
      ensures IsParameterSubscribed(q, name)
    {
      var k :| k in p.subscriptions && name in p.subscriptions[k];
      assert name in q.subscriptions[k];
    }
    WithdrawAgrees(p, q, names);
  }

  lemma ForgetAgrees(p: Parameters, h: Handle)
    requires Agrees(p)
    ensures Agrees(ForgetParameters(p, h))
  {
    var q := p.(subscriptions := p.subscriptions - {h});
    forall name | IsParameterSubscribed(p, name) && name !in NamesOf(p, h)
      ensures IsParameterSubscribed(q, name)
    {
      var k :| k in p.subscriptions && name in p.subscriptions[k];
      assert k in q.subscriptions;
    }
    WithdrawAgrees(p, q, NamesOf(p, h));
  }

  ghost predicate ParametersAgree(s: Server) {
    Agrees(s.parameters)
  }

  lemma StepAgrees(s: Server, e: Event)
    requires ParametersAgree(s) && Enabled(s, e)
    ensures ParametersAgree(Step(s, e))
  {
    hide IsOrdering, AddNames, RemoveNames, ForgetParameters, Agrees;
    if e.CloseEvent? {
      ForgetAgrees(s.parameters, e.h);
    } else if e.SubscribeParametersEvent? {
      AddNamesAgrees(s.parameters, e.h, e.names);
    } else if e.UnsubscribeParametersEvent? {
      RemoveNamesAgrees(s.parameters, e.h, e.names);
    } else {
      StepFrame(s, e);
      OtherSteps(s, e, Step(s, e));
    }
  }

  lemma OtherSteps(s: Server, e: Event, t: Server)
    requires Framed(s, e, t) && !e.CloseEvent? && !e.SubscribeParametersEvent? && !e.UnsubscribeParametersEvent?
    ensures t.parameters == s.parameters
  {
  }

  /**
   * After every run, the parameters subscribed upstream are exactly those in some client's entry,
   * and no subscribe call ever asked for one that was already subscribed.
   */
  lemma UpstreamIsUnion(options: Options, events: seq<Event>, s: Server)
    requires Runs(Anything, Init(options), events, s)
    ensures forall name :: name in Upstream(s.parameters.calls) <==> IsParameterSubscribed(s.parameters, name)
    ensures NeverRedundant(s.parameters.calls)
  {
    forall s, e | ParametersAgree(s) && Enabled(s, e) && Anything(s, e)
      ensures ParametersAgree(Step(s, e))
    {
      StepAgrees(s, e);
    }
    Invariant(ParametersAgree, Anything, Init(options), events, s);
  }

  // ----- Parameter values

  predicate Wanted(p: Parameter, names: set<string>) {
    p.name in names && !p.value.NotSet?
  }

  /** `sent` are the entries of `ps` at these indices, in order, and they are the indices of the wanted ones. */
  ghost predicate Picks(idx: seq<nat>, sent: seq<Parameter>, ps: seq<Parameter>, names: set<string>) {
    && |idx| == |sent|
    && (forall j, k :: 0 <= j < k < |idx| ==> idx[j] < idx[k])
    && (forall k :: 0 <= k < |idx| ==> idx[k] < |ps| && sent[k] == ps[idx[k]])
    && (forall i :: 0 <= i < |ps| ==> (i in idx <==> Wanted(ps[i], names)))
  }

  lemma {:induction false} SelectedAndSet(ps: seq<Parameter>, names: set<string>) returns (idx: seq<nat>)
    ensures Picks(idx, Set(Selected(ps, names)), ps, names)
  {
    if ps == [] {
      idx := [];
    } else {
      hide Selected, Set, Picks;
      var tail := SelectedAndSet(ps[1..], names);
      SelectedFirst(ps, names);
      idx := PicksOneMore(tail, Set(Selected(ps[1..], names)), ps, names);
    }
  }

  lemma PicksOneMore(tail: seq<nat>, sent: seq<Parameter>, ps: seq<Parameter>, names: set<string>)
    returns (idx: seq<nat>)
    requires ps != [] && Picks(tail, sent, ps[1..], names)
    ensures Picks(idx, (if Wanted(ps[0], names) then [ps[0]] else []) + sent, ps, names)
  {
    hide Wanted, Picks;
    var shifted := PicksShifted(tail, sent, ps, names);
    if Wanted(ps[0], names) {
      idx := [0] + shifted;
      PicksHead(shifted, sent, ps, names);
    } else {
      idx := shifted;
      PicksNoHead(shifted, sent, ps, names);
      assert [] + sent == sent;
    }
  }

  /** `Picks`, for the entries after the first. */
  ghost predicate PicksLater(idx: seq<nat>, sent: seq<Parameter>, ps: seq<Parameter>, names: set<string>) {
    && |idx| == |sent|
    && (forall j, k :: 0 <= j < k < |idx| ==> idx[j] < idx[k])
    && (forall k :: 0 <= k < |idx| ==> 0 < idx[k] < |ps| && sent[k] == ps[idx[k]])
    && (forall i :: 0 < i < |ps| ==> (i in idx <==> Wanted(ps[i], names)))
  }

  lemma PicksShifted(tail: seq<nat>, sent: seq<Parameter>, ps: seq<Parameter>, names: set<string>)
    returns (shifted: seq<nat>)
    requires ps != [] && Picks(tail, sent, ps[1..], names)
    ensures PicksLater(shifted, sent, ps, names)
  {
    hide Wanted;
    shifted := seq(|tail|, k requires 0 <= k < |tail| => tail[k] + 1);
    forall i: nat | 0 < i < |ps|
      ensures i in shifted <==> Wanted(ps[i], names)
    {
      Shifted(tail, shifted, i);
      assert ps[i] == ps[1..][i - 1];
    }
  }

  lemma PicksHead(later: seq<nat>, sent: seq<Parameter>, ps: seq<Parameter>, names: set<string>)
    requires ps != [] && PicksLater(later, sent, ps, names) && Wanted(ps[0], names)
    ensures Picks([0] + later, [ps[0]] + sent, ps, names)
  {
    hide Wanted;
    var idx, all := [0] + later, [ps[0]] + sent;
    forall k | 0 <= k < |idx|
      ensures idx[k] == (if k == 0 then 0 else later[k - 1]) && all[k] == ps[idx[k]]
    {
    }
    forall i: nat | i < |ps|
      ensures i in idx <==> Wanted(ps[i], names)
    {
      assert i in idx <==> i == 0 || i in later;
    }
  }

  lemma PicksNoHead(later: seq<nat>, sent: seq<Parameter>, ps: seq<Parameter>, names: set<string>)
    requires ps != [] && PicksLater(later, sent, ps, names) && !Wanted(ps[0], names)
    ensures Picks(later, sent, ps, names)
  {
    hide Wanted;
  }

  lemma SelectedFirst(ps: seq<Parameter>, names: set<string>)
    requires ps != []
    ensures Set(Selected(ps, names)) == (if Wanted(ps[0], names) then [ps[0]] else []) + Set(Selected(ps[1..], names))
  {
    if ps[0].name in names {
      assert Selected(ps, names)[1..] == Selected(ps[1..], names);
    } else {
      assert Selected(ps, names) == Selected(ps[1..], names);
    }
  }

  lemma Shifted(idx: seq<nat>, shifted: seq<nat>, i: nat)
    requires |shifted| == |idx| && forall k :: 0 <= k < |idx| ==> shifted[k] == idx[k] + 1
    ensures i > 0 ==> (i in shifted <==> i - 1 in idx)
  {
    if i > 0 && i - 1 in idx {
      var k :| 0 <= k < |idx| && idx[k] == i - 1;
      assert shifted[k] == i;
    }
  }

  lemma {:induction false} SelectedNone(ps: seq<Parameter>, names: set<string>)
    ensures Selected(ps, names) == [] <==> forall p :: p in ps ==> p.name !in names
  {
    if ps != [] {
      SelectedNone(ps[1..], names);
      assert forall p :: p in ps <==> p == ps[0] || p in ps[1..];
    }
  }

  /**
   * An update of parameter values reaches exactly the connected clients subscribed to one of them,
   * once each, with exactly its entries that are set and subscribed by that client, in their order
   * and as often as they are in it.
   */
  lemma UpdateReaches(s: Server, ps: seq<Parameter>, h: Handle)
    ensures var t, was := UpdateParameters(s, ps), MailOf(s.mail, h);
            t == s.(mail := t.mail) && MailOf(t.mail, h) == was.(parameters := MailOf(t.mail, h).parameters)
    ensures var was, now := MailOf(s.mail, h).parameters, MailOf(UpdateParameters(s, ps).mail, h).parameters;
            var names := NamesOf(s.parameters, h);
            if h in s.clients && exists p :: p in ps && p.name in names then
              && |now| == |was| + 1 && now[..|was|] == was
              && exists idx :: Picks(idx, now[|was|], ps, names)
            else now == was
  {
    hide Picks, Selected, Set;
    var names := NamesOf(s.parameters, h);
    SelectedNone(ps, names);
    var idx := SelectedAndSet(ps, names);
    var was, now := MailOf(s.mail, h).parameters, MailOf(UpdateParameters(s, ps).mail, h).parameters;
    if h in s.clients && Selected(ps, names) != [] {
      assert now == was + [Set(Selected(ps, names))];
      assert Picks(idx, now[|was|], ps, names);
    }
  }

  // ----- What one message changes upstream

  ghost predicate WantedByAnother(p: Parameters, h: Handle, name: string) {
    exists k :: k in p.subscriptions && k != h && name in p.subscriptions[k]
  }

  lemma SubscribedAfterRemoving(p: Parameters, q: Parameters, h: Handle, names: set<string>, name: string)
    requires q.subscriptions.Keys - {h} == p.subscriptions.Keys - {h}
    requires forall k :: k in p.subscriptions && k != h ==>
             k in q.subscriptions && q.subscriptions[k] == p.subscriptions[k]
    requires NamesOf(q, h) == NamesOf(p, h) - names
    ensures IsParameterSubscribed(q, name)
            <==> IsParameterSubscribed(p, name) && (name !in names || WantedByAnother(p, h, name))
  {
    if IsParameterSubscribed(p, name) {
      var k :| k in p.subscriptions && name in p.subscriptions[k];
      if k == h && name !in names {
        assert name in NamesOf(q, h) && name in q.subscriptions[h];
      }
      if k != h {
        assert k in q.subscriptions.Keys - {h} && name in q.subscriptions[k];
      }
      if WantedByAnother(p, h, name) {
        var k :| k in p.subscriptions && k != h && name in p.subscriptions[k];
        assert k in q.subscriptions.Keys - {h} && name in q.subscriptions[k];
      }
    }
    if IsParameterSubscribed(q, name) {
      var k :| k in q.subscriptions && name in q.subscriptions[k];
      if k == h {
        assert name in NamesOf(q, h) && name in p.subscriptions[h];
      } else {
        assert k in p.subscriptions.Keys - {h} && name in p.subscriptions[k];
      }
    }
  }

  /**
   * After any run, subscribing makes the names subscribed upstream; unsubscribing and disconnecting
   * withdraw exactly the names, of those given up, that no other client wants.
   */
  lemma UpstreamAfter(options: Options, events: seq<Event>, s: Server, h: Handle, names: set<string>, throws: bool,
                      name: string)
    requires Runs(Anything, Init(options), events, s)
    ensures var p, before := s.parameters, name in Upstream(s.parameters.calls);
            && (name in Upstream(SubscribeParameters(s, h, names, throws).parameters.calls)
                <==> before || name in names)
            && (name in Upstream(UnsubscribeParameters(s, h, names, throws).parameters.calls)
                <==> before && (name !in names || WantedByAnother(p, h, name)))
            && (name in Upstream(ForgetParameters(p, h).calls)
                <==> before && (name !in NamesOf(p, h) || WantedByAnother(p, h, name)))
  {
    hide AddNames, Withdraw, IsParameterSubscribed, Upstream, NeverRedundant, Told, WantedByAnother;
    UpstreamIsUnion(options, events, s);
    var p := s.parameters;
    AddNamesAgrees(p, h, names);
    SubscribedAfterAdding(p, h, names, name);
    RemoveNamesAgrees(p, h, names);
    var q := p.(subscriptions := p.subscriptions[h := NamesOf(p, h) - names]);
    SubscribedAfterRemoving(p, q, h, names, name);
    WithdrawKeeps(q, names, name);
    ForgetAgrees(p, h);
    var r := p.(subscriptions := p.subscriptions - {h});
    SubscribedAfterRemoving(p, r, h, NamesOf(p, h), name);
    WithdrawKeeps(r, NamesOf(p, h), name);
  }

  lemma WithdrawKeeps(p: Parameters, names: set<string>, name: string)
    ensures IsParameterSubscribed(Withdraw(p, names), name) <==> IsParameterSubscribed(p, name)
  {
    hide Unused;
  }

  ghost predicate IsCallFor(calls: seq<ParameterCall>, names: set<string>, subscribes: bool) {
    if names == {} then calls == []
    else calls == [if subscribes then ParameterSubscribe(names) else ParameterUnsubscribe(names)]
  }

  /**
   * After any run: a subscribe message makes one call upstream, for exactly the names it lists that are
   * not subscribed there, and none if there are none of these. They are added to the client's own
   * entry, and an error is reported exactly if a call was made and threw.
   */
  lemma SubscribeCallsExactly(options: Options, events: seq<Event>, s: Server, h: Handle, names: set<string>,
                              throws: bool)
    requires Runs(Anything, Init(options), events, s)
    ensures var p, t := s.parameters, SubscribeParameters(s, h, names, throws);
            var asked := names - Upstream(p.calls);
            && p.calls <= t.parameters.calls && IsCallFor(t.parameters.calls[|p.calls|..], asked, true)
            && (forall k :: NamesOf(t.parameters, k) == NamesOf(p, k) + if k == h then names else {})
            && OnlyTold(s, t.mail, h, if throws && asked != {} then [Error] else [])
  {
    hide Told, OnlyTold, Upstream, NeverRedundant, IsParameterSubscribed;
    UpstreamIsUnion(options, events, s);
    hide Runs;
    TellingTells(s, h);
    assert Unused(s.parameters, names) == names - Upstream(s.parameters.calls);
  }

  /**
   * An unsubscribe message makes one call upstream, for exactly the names it lists that no other client
   * wants, subscribed before or not, and none if there are none of these. They leave the client's own
   * entry, and an error is reported exactly if a call was made and threw.
   */
  lemma UnsubscribeCallsExactly(s: Server, h: Handle, names: set<string>, throws: bool)
    ensures var p, t := s.parameters, UnsubscribeParameters(s, h, names, throws);
            var given := set n | n in names && !WantedByAnother(p, h, n);
            && p.calls <= t.parameters.calls && IsCallFor(t.parameters.calls[|p.calls|..], given, false)
            && (forall k :: NamesOf(t.parameters, k) == NamesOf(p, k) - if k == h then names else {})
            && OnlyTold(s, t.mail, h, if throws && given != {} then [Error] else [])
  {
    hide Told, OnlyTold, IsParameterSubscribed, WantedByAnother;
    TellingTells(s, h);
    var p := s.parameters;
    var q := p.(subscriptions := p.subscriptions[h := NamesOf(p, h) - names]);
    WantedByOthersOnly(p, q, h, names);
  }

  /** A disconnect makes one for exactly the names of its client that no other client wants. */
  lemma CloseCallsExactly(s: Server, h: Handle, adOrder: seq<ClientChannelId>, subOrder: seq<ChannelId>)
    requires h in s.clients
    ensures var p, q := s.parameters, Close(s, h, adOrder, subOrder).parameters;
            && p.calls <= q.calls
            && IsCallFor(q.calls[|p.calls|..], set n | n in NamesOf(p, h) && !WantedByAnother(p, h, n), false)
            && forall k :: NamesOf(q, k) == if k == h then {} else NamesOf(p, k)
  {
    hide UnadvertiseCalls, UnsubscribeCalls, LeaveGraph, IsParameterSubscribed, WantedByAnother;
    var p := s.parameters;
    WantedByOthersOnly(p, p.(subscriptions := p.subscriptions - {h}), h, NamesOf(p, h));
  }

  /** Of the names a client gives up, those nobody is subscribed to are those no other client wants. */
  lemma WantedByOthersOnly(p: Parameters, q: Parameters, h: Handle, names: set<string>)
    requires forall k :: k != h ==> NamesOf(q, k) == NamesOf(p, k)
    requires NamesOf(q, h) !! names
    ensures Unused(q, names) == set n | n in names && !WantedByAnother(p, h, n)
  {
    forall n | n in names
      ensures IsParameterSubscribed(q, n) <==> WantedByAnother(p, h, n)
    {
      if WantedByAnother(p, h, n) {
        var k :| k in p.subscriptions && k != h && n in p.subscriptions[k];
        assert n in NamesOf(q, k) && k in q.subscriptions;
      }
      if IsParameterSubscribed(q, n) {
        var k :| k in q.subscriptions && n in q.subscriptions[k];
        assert n in NamesOf(q, k) && k != h && n in NamesOf(p, k) && k in p.subscriptions;
      }
    }
  }
}
