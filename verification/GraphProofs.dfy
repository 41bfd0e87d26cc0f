/** Interest in the connection graph, and what its subscriber sees, over whole runs. */
module GraphProofs {
  import opened ConnectionGraph
  import opened Orderings
  import opened Session
  import opened SessionFrames

  // ----- Interest

  function Flagged(clients: map<Handle, ClientInfo>): set<Handle> {
    set h | h in clients && clients[h].subscribedToGraph
  }

  /** True, false, true, ...: interest is announced, withdrawn, announced again. */
  ghost predicate Alternating(calls: seq<bool>) {
    forall i :: 0 <= i < |calls| ==> (calls[i] <==> i % 2 == 0)
  }

  ghost predicate Interest(s: Server) {
    var flagged := Flagged(s.clients);
    && |flagged| <= 1
    && s.graph.count == |flagged| + s.graph.unflagged
    && Alternating(s.graph.calls)
    && (|s.graph.calls| % 2 == 1 <==> s.graph.count > 0)
  }

  lemma OnlyMember(flagged: set<Handle>, h: Handle)
    requires h in flagged && |flagged| <= 1
    ensures flagged == {h}
  {
    var rest := flagged - {h};
    assert |rest| == |flagged| - 1;
  }

  lemma SubscribeKeepsInterest(s: Server, h: Handle, throws: bool)
    requires Interest(s)
    ensures Interest(SubscribeGraph(s, h, throws))
  {
    hide Told, GraphTold;
    var t := SubscribeGraph(s, h, throws);
    if s.graph.count == 0 && !throws && h in s.clients {
      assert Flagged(s.clients) == {};
      assert Flagged(t.clients) == {h};
    } else {
      assert t.clients == s.clients;
    }
  }

  lemma LeaveKeepsInterest(s: Server, h: Handle, t: Server)
    requires Interest(s) && h in Flagged(s.clients)
    requires t.graph == LeaveGraph(s.graph) && Flagged(t.clients) == Flagged(s.clients) - {h}
    ensures Interest(t)
  {
    OnlyMember(Flagged(s.clients), h);
    assert Flagged(t.clients) == {};
  }

  /** Steps that leave the flags alone, and with them everything about interest. */
  lemma OthersKeepFlags(s: Server, e: Event, t: Server)
    requires Framed(s, e, t) && !e.OpenEvent? && !e.CloseEvent? && !e.SubscribeGraphEvent? && !e.UnsubscribeGraphEvent?
    ensures Flagged(t.clients) == Flagged(s.clients) && t.clients.Keys == s.clients.Keys
    ensures t.graph == s.graph.(graph := t.graph.graph)
    ensures !e.UpdateGraphEvent? ==> t.graph == s.graph && SameGraphMail(s.mail, t.mail)
  {
    OthersKeepGraph(s, e, t);
    if e.AdvertiseEvent? || e.UnadvertiseEvent? {
      assert OnlyAdvertised(s, t);
    } else if e.SubscribeNextEvent? || e.UnsubscribeEvent? || e.RemoveChannelsEndEvent? {
      assert OnlySubscriptions(s, t);
    } else {
      assert t.clients == s.clients;
    }
  }

  lemma OthersKeepGraph(s: Server, e: Event, t: Server)
    requires Framed(s, e, t) && !e.OpenEvent? && !e.CloseEvent? && !e.SubscribeGraphEvent? && !e.UnsubscribeGraphEvent?
    ensures t.graph == s.graph.(graph := t.graph.graph)
    ensures !e.UpdateGraphEvent? ==> t.graph == s.graph && SameGraphMail(s.mail, t.mail)
  {
    hide OnlySubscriptions, OnlyAdvertised, OnlyFlags, SameNotices;
  }

  lemma UnsubscribeKeepsInterest(s: Server, h: Handle, throws: bool)
    requires Interest(s)
    ensures Interest(UnsubscribeGraph(s, h, throws))
  {
    hide Told, LeaveGraph;
    var t := UnsubscribeGraph(s, h, throws);
    if h in Flagged(s.clients) {
      assert Flagged(t.clients) == Flagged(s.clients) - {h};
      LeaveKeepsInterest(s, h, t);
    }
  }

  lemma CloseKeepsInterest(s: Server, h: Handle, adOrder: seq<ClientChannelId>, subOrder: seq<ChannelId>)
    requires Interest(s)
    ensures Interest(Close(s, h, adOrder, subOrder))
  {
    hide UnadvertiseCalls, UnsubscribeCalls, ForgetParameters, LeaveGraph;
    var t := Close(s, h, adOrder, subOrder);
    assert Flagged(t.clients) == Flagged(s.clients) - {h};
    if h in Flagged(s.clients) {
      LeaveKeepsInterest(s, h, t);
    }
  }

  lemma StepKeepsInterest(s: Server, e: Event)
    requires Interest(s) && Enabled(s, e)
    ensures Interest(Step(s, e))
  {
    hide IsOrdering, Interest, SubscribeGraph, UnsubscribeGraph, Close, Open;
    match e
    case OpenEvent(h, channelOrder, serviceOrder) => OpenKeepsInterest(s, e);
    case CloseEvent(h, adOrder, subOrder) => CloseKeepsInterest(s, h, adOrder, subOrder);
    case SubscribeGraphEvent(h, throws) => SubscribeKeepsInterest(s, h, throws);
    case UnsubscribeGraphEvent(h, throws) => UnsubscribeKeepsInterest(s, h, throws);
    case _ =>
      StepFrame(s, e);
      OtherKeepsInterest(s, e, Step(s, e));
  }

  lemma OpenKeepsInterest(s: Server, e: Event)
    requires Interest(s) && e.OpenEvent? && Enabled(s, e)
    ensures Interest(Open(s, e.h, e.channelOrder, e.serviceOrder))
  {
    hide IsOrdering, Listing;
    assert Flagged(s.clients[e.h := NEW_CLIENT]) == Flagged(s.clients);
  }

  lemma OtherKeepsInterest(s: Server, e: Event, t: Server)
    requires Interest(s) && Framed(s, e, t)
    requires !e.OpenEvent? && !e.CloseEvent? && !e.SubscribeGraphEvent? && !e.UnsubscribeGraphEvent?
    ensures Interest(t)
  {
    hide Framed;
    OthersKeepFlags(s, e, t);
  }

  lemma ReachableInterest(options: Options, events: seq<Event>, s: Server)
    requires Runs(Anything, Init(options), events, s)
    ensures Interest(s)
  {
    forall x, e | Interest(x) && Enabled(x, e) && Anything(x, e)
      ensures Interest(Step(x, e))
    {
      StepKeepsInterest(x, e);
    }
    Invariant(Interest, Anything, Init(options), events, s);
  }

  /**
   * Over every run: the counter is the number of flagged clients plus the subscribe calls that
   * flagged nobody, so never negative; at most one client is flagged; the handler is told true and
   * false in turn, starting with true, and was last told true exactly while the counter is positive.
   */
  lemma InterestOverRuns(options: Options, events: seq<Event>, s: Server)
    requires Runs(Anything, Init(options), events, s)
    ensures s.graph.count == |Flagged(s.clients)| + s.graph.unflagged
    ensures |Flagged(s.clients)| <= 1
    ensures Alternating(s.graph.calls)
    ensures s.graph.count > 0 <==> s.graph.calls != [] && s.graph.calls[|s.graph.calls| - 1]
  {
    hide Runs, Flagged, Alternating;
    ReachableInterest(options, events, s);
    LastOne(s.graph.calls);
  }

  lemma LastOne(calls: seq<bool>)
    requires Alternating(calls)
    ensures |calls| % 2 == 1 <==> calls != [] && calls[|calls| - 1]
  {
    if calls != [] {
      assert calls[|calls| - 1] <==> (|calls| - 1) % 2 == 0;
    }
  }

  /** Once a subscribe call has raised the counter without a flag, the handler is never told again. */
  ghost predicate Stuck(calls: seq<bool>, s: Server) {
    Interest(s) && s.graph.unflagged > 0 && s.graph.calls == calls
  }

  lemma StepStaysStuck(calls: seq<bool>, s: Server, e: Event)
    requires Stuck(calls, s) && Enabled(s, e)
    ensures Stuck(calls, Step(s, e))
  {
    StepKeepsInterest(s, e);
    hide IsOrdering, Interest, Told, GraphTold, Listing, UnadvertiseCalls, UnsubscribeCalls, ForgetParameters;
    if e.UnsubscribeGraphEvent? || e.CloseEvent? {
      if e.h in Flagged(s.clients) {
        CountOfFlagged(s, e.h);
      }
    } else if e.SubscribeGraphEvent? {
      CountPositive(s);
    } else if !e.OpenEvent? {
      StepFrame(s, e);
      OthersKeepFlags(s, e, Step(s, e));
    }
  }

  lemma CountOfFlagged(s: Server, h: Handle)
    requires Interest(s) && h in Flagged(s.clients)
    ensures s.graph.count == 1 + s.graph.unflagged
  {
    OnlyMember(Flagged(s.clients), h);
  }

  lemma CountPositive(s: Server)
    requires Interest(s) && s.graph.unflagged > 0
    ensures s.graph.count > 0
  {
  }

  lemma InterestNeverWithdrawn(options: Options, before: seq<Event>, s: Server, after: seq<Event>, t: Server)
    requires Runs(Anything, Init(options), before, s) && Runs(Anything, s, after, t)
    requires s.graph.unflagged > 0
    ensures t.graph.calls == s.graph.calls && t.graph.count > 0
  {
    ReachableInterest(options, before, s);
    var calls := s.graph.calls;
    forall x, e | Stuck(calls, x) && Enabled(x, e) && Anything(x, e)
      ensures Stuck(calls, Step(x, e))
    {
      StepStaysStuck(calls, x, e);
    }
    Invariant(x => Stuck(calls, x), Anything, s, after, t);
  }

  // ----- What the subscriber sees

  /** A flagged client's graph, by replaying the graph mail it got since it was flagged. */
  function View(s: Server, h: Handle): Graph
    requires h in s.graph.since && s.graph.since[h] <= |MailOf(s.mail, h).graph|
  {
    Replay(EMPTY, MailOf(s.mail, h).graph[s.graph.since[h]..])
  }

  ghost predicate Following(s: Server, h: Handle) {
    && h in s.graph.since && s.graph.since[h] < |MailOf(s.mail, h).graph|
    && var view, server := View(s, h), s.graph.graph;
       InStep(view, server, view.published.Keys - server.published.Keys, view.subscribed.Keys - server.subscribed.Keys)
  }

  ghost predicate AllFollow(s: Server) {
    forall h :: h in Flagged(s.clients) ==> Following(s, h)
  }

  lemma ReplayAppend(view: Graph, us: seq<Update>, u: Update)
    ensures Replay(view, us + [u]) == Apply(Replay(view, us), u)
  {
    assert (us + [u])[..|us|] == us;
  }

  /** A client whose graph mail did not change follows a graph that did not change either. */
  lemma SameMailFollows(s: Server, t: Server, h: Handle)
    requires Following(s, h)
    requires MailOf(t.mail, h).graph == MailOf(s.mail, h).graph
    requires t.graph.graph == s.graph.graph && h in t.graph.since && t.graph.since[h] == s.graph.since[h]
    ensures Following(t, h) && View(t, h) == View(s, h)
  {
  }

  lemma InStepNormal(view: Graph, server: Graph, p: set<string>, q: set<string>)
    requires InStep(view, server, p, q)
    ensures p == view.published.Keys - server.published.Keys && q == view.subscribed.Keys - server.subscribed.Keys
  {
  }

  /** One more update in the mail is one more update applied to the view. */
  lemma MoreMail(s: Server, t: Server, h: Handle, u: Update)
    requires h in s.graph.since && s.graph.since[h] <= |MailOf(s.mail, h).graph|
    requires MailOf(t.mail, h).graph == MailOf(s.mail, h).graph + [u]
    requires h in t.graph.since && t.graph.since[h] == s.graph.since[h]
    ensures View(t, h) == Apply(View(s, h), u)
  {
    var was, since := MailOf(s.mail, h).graph, s.graph.since[h];
    assert (was + [u])[since..] == was[since..] + [u];
    ReplayAppend(EMPTY, was[since..], u);
  }

  lemma UpdateFollows(s: Server, g: Graph, h: Handle)
    requires AllFollow(s) && h in Flagged(s.clients)
    ensures Following(UpdateGraph(s, g), h)
    ensures View(UpdateGraph(s, g), h) == Apply(View(s, h), Diff(s.graph.graph, g))
  {
    hide Diff, Apply, Replay, InStep;
    var t, view, was := UpdateGraph(s, g), View(s, h), s.graph.graph;
    var u := Diff(was, g);
    var p, q := view.published.Keys - was.published.Keys, view.subscribed.Keys - was.subscribed.Keys;
    ApplyDiff(view, was, g, p, q);
    InStepNormal(Apply(view, u), g, Leftover(p, was.published, g.published, g.subscribed),
                 Leftover(q, was.subscribed, g.subscribed, g.published));
    if u.Empty() {
      EmptyDiff(view, u);
      assert MailOf(t.mail, h).graph == MailOf(s.mail, h).graph;
    } else {
      MoreMail(s, t, h, u);
    }
  }

  lemma SnapshotFollows(s: Server, h: Handle, throws: bool, k: Handle)
    requires AllFollow(s) && Interest(s) && k in Flagged(SubscribeGraph(s, h, throws).clients)
    ensures Following(SubscribeGraph(s, h, throws), k)
    ensures var t := SubscribeGraph(s, h, throws);
            k in Flagged(s.clients) ==> View(t, k) == View(s, k)
    ensures var t := SubscribeGraph(s, h, throws);
            k !in Flagged(s.clients) ==> View(t, k) == s.graph.graph
  {
    hide Replay, Apply, InStep, Interest, Snapshot, Alternating, Flagged;
    SubscribeFlags(s, h, throws, k);
    var t := SubscribeGraph(s, h, throws);
    var u := Snapshot(s.graph.graph);
    if k in Flagged(s.clients) {
      var view := View(s, k);
      if k == h {
        MoreMail(s, t, h, u);
        ApplySnapshot(view, s.graph.graph, view.published.Keys - s.graph.graph.published.Keys,
                      view.subscribed.Keys - s.graph.graph.subscribed.Keys);
      } else {
        SameMailFollows(s, t, k);
      }
    } else {
      var was := MailOf(s.mail, h).graph;
      assert (was + [u])[|was|..] == [] + [u];
      ReplayAppend(EMPTY, [], u);
      ReplayNone(EMPTY);
      FirstSnapshot(s.graph.graph);
      InStepNormal(s.graph.graph, s.graph.graph, {}, {});
    }
  }

  lemma ReplayNone(view: Graph)
    ensures Replay(view, []) == view
  {
  }

  /** A subscribe call flags its client exactly if it is the first, does not throw and the client is connected. */
  lemma SubscribeFlagsExactly(s: Server, h: Handle, throws: bool)
    ensures Flagged(SubscribeGraph(s, h, throws).clients)
            == Flagged(s.clients) + if s.graph.count == 0 && !throws && h in s.clients then {h} else {}
  {
    hide Told, GraphTold;
  }

  /** Subscribing flags nobody but the subscriber, and that one only when nobody was flagged. */
  lemma SubscribeFlags(s: Server, h: Handle, throws: bool, k: Handle)
    requires Interest(s) && k in Flagged(SubscribeGraph(s, h, throws).clients)
    ensures if k in Flagged(s.clients) then s.graph.count != 0 && k in s.clients
            else k == h && s.graph.count == 0 && !throws && h in s.clients
  {
    hide SubscribeGraph, Interest;
    SubscribeFlagsExactly(s, h, throws);
    if k in Flagged(s.clients) {
      CountOfFlagged(s, k);
    }
  }

  lemma StepFollows(s: Server, e: Event)
    requires AllFollow(s) && Interest(s) && Enabled(s, e)
    ensures AllFollow(Step(s, e))
  {
    hide IsOrdering, Interest, Following, SubscribeGraph, UnsubscribeGraph, UpdateGraph;
    var t := Step(s, e);
    forall h | h in Flagged(t.clients)
      ensures Following(t, h)
    {
      if e.SubscribeGraphEvent? {
        SnapshotFollows(s, e.h, e.throws, h);
      } else if e.UpdateGraphEvent? {
        StepFrame(s, e);
        OthersKeepFlags(s, e, t);
        UpdateFollows(s, e.graph, h);
      } else {
        KeepsFollowing(s, e, h);
      }
    }
  }

  /** Any other step leaves the graph, and the graph mail of a client that stays flagged, alone. */
  lemma KeepsFollowing(s: Server, e: Event, h: Handle)
    requires AllFollow(s) && Enabled(s, e) && !e.SubscribeGraphEvent? && !e.UpdateGraphEvent?
    requires h in Flagged(Step(s, e).clients)
    ensures h in Flagged(s.clients) && Following(Step(s, e), h) && View(Step(s, e), h) == View(s, h)
    ensures Step(s, e).graph.graph == s.graph.graph
  {
    hide IsOrdering, Replay, InStep, Listing, UnadvertiseCalls, UnsubscribeCalls, ForgetParameters, Told;
    var t := Step(s, e);
    if e.OpenEvent? || e.CloseEvent? || e.UnsubscribeGraphEvent? {
      if e.UnsubscribeGraphEvent? {
        StepFrame(s, e);
      }
      assert t.mail == s.mail || h != e.h || e.UnsubscribeGraphEvent?;
    } else {
      StepFrame(s, e);
      OthersKeepFlags(s, e, t);
    }
    SameMailFollows(s, t, h);
  }

  ghost predicate Watched(s: Server) {
    Interest(s) && AllFollow(s)
  }

  /**
   * After every run the flagged client, if there is one, has from its mail alone the server's
   * services and topic names exactly, and topic maps that contain the server's.
   */
  lemma FlaggedClientInStep(options: Options, events: seq<Event>, s: Server, h: Handle)
    requires Runs(Anything, Init(options), events, s)
    requires h in s.clients && s.clients[h].subscribedToGraph
    ensures Following(s, h)
  {
    forall s, e | Watched(s) && Enabled(s, e) && Anything(s, e)
      ensures Watched(Step(s, e))
    {
      StepKeepsInterest(s, e);
      StepFollows(s, e);
    }
    Invariant(Watched, Anything, Init(options), events, s);
  }

  /** The owner never drops a topic from one topic map while it is in the other afterwards. */
  ghost predicate DropsTopicsWhole(s: Server, e: Event) {
    e.UpdateGraphEvent? ==> !HalfDrops(s.graph.graph, e.graph)
  }

  ghost predicate Mirrored(s: Server) {
    Watched(s) && forall h :: h in Flagged(s.clients) ==> Following(s, h) && View(s, h) == s.graph.graph
  }

  lemma StepMirrors(s: Server, e: Event)
    requires Mirrored(s) && Enabled(s, e) && DropsTopicsWhole(s, e)
    ensures Mirrored(Step(s, e))
  {
    StepKeepsInterest(s, e);
    StepFollows(s, e);
    var t := Step(s, e);
    hide IsOrdering, Interest, Following, SubscribeGraph, UnsubscribeGraph, UpdateGraph, HalfDrops;
    forall h | h in Flagged(t.clients)
      ensures Following(t, h) && View(t, h) == t.graph.graph
    {
      if e.SubscribeGraphEvent? {
        SnapshotFollows(s, e.h, e.throws, h);
        StepFrame(s, e);
        SubscribeKeepsGraph(s, e.h, e.throws);
      } else if e.UpdateGraphEvent? {
        StepFrame(s, e);
        OthersKeepFlags(s, e, t);
        UpdateFollows(s, e.graph, h);
        ViewExactStep(s.graph.graph, e.graph);
        UpdateStores(s, e.graph);
      } else {
        KeepsFollowing(s, e, h);
      }
    }
  }

  /**
   * An update of the graph is stored, and goes as one diff to exactly the flagged clients, if it
   * changes anything a diff can say; nobody's other mail changes.
   */
  lemma UpdateExact(s: Server, now: Graph, h: Handle)
    ensures var t, was := UpdateGraph(s, now), s.graph.graph;
            var silent := && SubMap(now.published, was.published) && SubMap(now.subscribed, was.subscribed)
                          && now.services == was.services
                          && was.published.Keys + was.subscribed.Keys == now.published.Keys + now.subscribed.Keys;
            && t.graph.graph == now && t.clients == s.clients
            && MailOf(t.mail, h) ==
                 if h in s.clients && s.clients[h].subscribedToGraph && !silent
                 then MailOf(s.mail, h).(graph := MailOf(s.mail, h).graph + [Diff(was, now)]) else MailOf(s.mail, h)
  {
    hide Diff, SubMap, Update.Empty;
    SilentExactly(s.graph.graph, now);
  }

  /** Storing the graph there is again sends nothing to anybody. */
  lemma SameGraphSendsNothing(s: Server)
    ensures UpdateGraph(s, s.graph.graph).mail == s.mail
  {
    SilentExactly(s.graph.graph, s.graph.graph);
  }

  lemma SubscribeKeepsGraph(s: Server, h: Handle, throws: bool)
    ensures SubscribeGraph(s, h, throws).graph.graph == s.graph.graph
  {
  }

  lemma UpdateStores(s: Server, g: Graph)
    ensures UpdateGraph(s, g).graph.graph == g
  {
  }

  /** If in addition no update half-drops a topic, the flagged client's view is the server's graph. */
  lemma FlaggedClientMirrors(options: Options, events: seq<Event>, s: Server, h: Handle)
    requires Runs(DropsTopicsWhole, Init(options), events, s)
    requires h in s.clients && s.clients[h].subscribedToGraph
    ensures Following(s, h) && View(s, h) == s.graph.graph
  {
    forall s, e | Mirrored(s) && Enabled(s, e) && DropsTopicsWhole(s, e)
      ensures Mirrored(Step(s, e))
    {
      StepMirrors(s, e);
    }
    Invariant(Mirrored, DropsTopicsWhole, Init(options), events, s);
  }

  /**
   * Only the first subscriber is flagged. One that subscribes while the counter is positive gets
   * the snapshot, stays unflagged, and is sent none of the updates that follow.
   */
  lemma LaterSubscriberMissesUpdates(s: Server, h: Handle, throws: bool, g: Graph)
    requires s.graph.count > 0 && h in s.clients && !s.clients[h].subscribedToGraph
    ensures var t := SubscribeGraph(s, h, throws);
            && !t.clients[h].subscribedToGraph && t.graph.unflagged == s.graph.unflagged + 1
            && MailOf(t.mail, h).graph == MailOf(s.mail, h).graph + [Snapshot(s.graph.graph)]
            && MailOf(UpdateGraph(t, g).mail, h).graph == MailOf(t.mail, h).graph
  {
    hide Diff, Snapshot;
  }

  // ----- A subscriber that came late, over the rest of a run

  /** A connected client that is not flagged, after a subscribe call that flagged nobody. */
  ghost predicate Late(s: Server, h: Handle) {
    Interest(s) && s.graph.unflagged > 0 && h in s.clients && !s.clients[h].subscribedToGraph
  }

  ghost predicate StaysConnected(s: Server, e: Event, h: Handle) {
    Enabled(s, e) && h in Step(s, e).clients
  }

  /** What a step sends a client for its own subscribe call while the counter is positive. */
  function OwnSnapshot(s: Server, e: Event, h: Handle): seq<Update> {
    if e.SubscribeGraphEvent? && e.h == h then [Snapshot(s.graph.graph)] else []
  }

  ghost function OwnSnapshots(s: Server, events: seq<Event>, h: Handle, t: Server): seq<Update>
    requires Runs((x, e) => StaysConnected(x, e, h), s, events, t)
    decreases |events|
  {
    if events == [] then []
    else OwnSnapshot(s, events[0], h) + OwnSnapshots(Step(s, events[0]), events[1..], h, t)
  }

  lemma StepStaysLate(s: Server, e: Event, h: Handle)
    requires Late(s, h) && StaysConnected(s, e, h)
    ensures Late(Step(s, e), h)
    ensures MailOf(Step(s, e).mail, h).graph == MailOf(s.mail, h).graph + OwnSnapshot(s, e, h)
  {
    hide IsOrdering, Interest, Snapshot, SubscribeGraph, UnsubscribeGraph, UpdateGraph, Open, Close, Alternating,
      Flagged;
    StepStaysStuck(s.graph.calls, s, e);
    CountPositive(s);
    if e.SubscribeGraphEvent? {
      LateSubscribe(s, e.h, e.throws, h);
    } else if e.UnsubscribeGraphEvent? {
      LateUnsubscribe(s, e.h, e.throws, h);
    } else if e.UpdateGraphEvent? {
      LateUpdate(s, e.graph, h);
    } else if e.OpenEvent? || e.CloseEvent? {
      LateComings(s, e, h);
    } else {
      hide Step;
      StepFrame(s, e);
      OthersKeepFlags(s, e, Step(s, e));
      SameFlag(s, Step(s, e), h);
    }
  }

  lemma LateSubscribe(s: Server, h: Handle, throws: bool, k: Handle)
    requires s.graph.count > 0 && k in s.clients && !s.clients[k].subscribedToGraph
    ensures var t := SubscribeGraph(s, h, throws);
            && k in t.clients && !t.clients[k].subscribedToGraph
            && MailOf(t.mail, k).graph == MailOf(s.mail, k).graph + if h == k then [Snapshot(s.graph.graph)] else []
  {
    hide Snapshot;
  }

  lemma LateUnsubscribe(s: Server, h: Handle, throws: bool, k: Handle)
    requires k in s.clients && !s.clients[k].subscribedToGraph
    ensures var t := UnsubscribeGraph(s, h, throws);
            && k in t.clients && !t.clients[k].subscribedToGraph && MailOf(t.mail, k).graph == MailOf(s.mail, k).graph
  {
    hide LeaveGraph;
  }

  lemma LateUpdate(s: Server, g: Graph, k: Handle)
    requires k in s.clients && !s.clients[k].subscribedToGraph
    ensures var t := UpdateGraph(s, g);
            && k in t.clients && !t.clients[k].subscribedToGraph && MailOf(t.mail, k).graph == MailOf(s.mail, k).graph
  {
    hide Diff;
  }

  lemma LateComings(s: Server, e: Event, k: Handle)
    requires (e.OpenEvent? || e.CloseEvent?) && Enabled(s, e) && k in s.clients && k in Step(s, e).clients
    ensures var t := Step(s, e); t.clients[k] == s.clients[k] && MailOf(t.mail, k) == MailOf(s.mail, k)
  {
    hide IsOrdering, Listing, UnadvertiseCalls, UnsubscribeCalls, ForgetParameters, LeaveGraph;
  }

  lemma SameFlag(s: Server, t: Server, k: Handle)
    requires Flagged(t.clients) == Flagged(s.clients) && k in s.clients && k in t.clients
    ensures t.clients[k].subscribedToGraph == s.clients[k].subscribedToGraph
  {
    assert k in Flagged(t.clients) <==> k in Flagged(s.clients);
  }

  lemma {:induction false} LateOverRun(s: Server, events: seq<Event>, h: Handle, t: Server)
    requires Late(s, h) && Runs((x, e) => StaysConnected(x, e, h), s, events, t)
    ensures Late(t, h) && MailOf(t.mail, h).graph == MailOf(s.mail, h).graph + OwnSnapshots(s, events, h, t)
    decreases |events|
  {
    hide Late, Enabled, Step, OwnSnapshot;
    if events != [] {
      StepStaysLate(s, events[0], h);
      LateOverRun(Step(s, events[0]), events[1..], h, t);
    }
  }

  /**
   * In any run: a client that subscribes while the counter is positive is never flagged as long as it
   * stays connected, and is sent the snapshots it asks for and nothing else: none of the updates.
   */
  lemma LateSubscriberGetsSnapshotsOnly(options: Options, before: seq<Event>, s: Server, h: Handle, throws: bool,
                                        events: seq<Event>, t: Server)
    requires Runs(Anything, Init(options), before, s)
    requires s.graph.count > 0 && h in s.clients && !s.clients[h].subscribedToGraph
    requires Runs((x, e) => StaysConnected(x, e, h), SubscribeGraph(s, h, throws), events, t)
    ensures h in t.clients && !t.clients[h].subscribedToGraph
    ensures MailOf(t.mail, h).graph
            == MailOf(s.mail, h).graph + [Snapshot(s.graph.graph)]
               + OwnSnapshots(SubscribeGraph(s, h, throws), events, h, t)
  {
    hide Runs, OwnSnapshots, Snapshot, Interest;
    ReachableInterest(options, before, s);
    LaterSubscriberMissesUpdates(s, h, throws, s.graph.graph);
    SubscribeKeepsInterest(s, h, throws);
    LateOverRun(SubscribeGraph(s, h, throws), events, h, t);
  }

  /**
   * The first subscriber is flagged and sent the snapshot, and the application is told; when it
   * leaves, the application is told and nothing else is left of its visit.
   */
  lemma FirstSubscriberComesAndGoes(options: Options, events: seq<Event>, s: Server, h: Handle)
    requires Runs(Anything, Init(options), events, s)
    requires h in s.clients && s.graph.count == 0
    ensures var t := SubscribeGraph(s, h, false);
            var u := UnsubscribeGraph(t, h, false);
            && Flagged(t.clients) == {h} && t.graph.count == 1 && t.graph.calls == s.graph.calls + [true]
            && MailOf(t.mail, h).graph == MailOf(s.mail, h).graph + [Snapshot(s.graph.graph)]
            && u.clients == s.clients && u.mail == t.mail
            && u.graph == s.graph.(calls := s.graph.calls + [true, false], since := u.graph.since)
  {
    InterestOverRuns(options, events, s);
    assert h !in Flagged(s.clients);
    assert !s.clients[h].subscribedToGraph;
    var t := SubscribeGraph(s, h, false);
    assert Flagged(t.clients) == Flagged(s.clients) + {h};
    var u := UnsubscribeGraph(t, h, false);
    assert u.clients[h] == s.clients[h] && u.clients == s.clients;
    assert s.graph.calls + [true] + [false] == s.graph.calls + [true, false];
  }

  // ----- What one call does, to everybody

  /**
   * A subscribe call always raises the counter. The first one tells the application, and flags the
   * client if it is connected and the call does not throw; if it throws, the client gets an error in
   * place of the graph. In every other case a connected client is sent the whole graph, and no removals.
   */
  lemma SubscribeGraphExact(s: Server, h: Handle, throws: bool, k: Handle)
    ensures var t, g, was := SubscribeGraph(s, h, throws), s.graph.graph, MailOf(s.mail, k);
            var first := s.graph.count == 0;
            var flags := first && !throws && h in s.clients;
            && t == s.(clients := t.clients, graph := t.graph, mail := t.mail)
            && t.graph.count == s.graph.count + 1 && t.graph.graph == g
            && t.graph.calls == s.graph.calls + (if first then [true] else [])
            && t.graph.unflagged == s.graph.unflagged + (if flags then 0 else 1)
            && t.graph.since == (if flags then s.graph.since[h := |MailOf(s.mail, h).graph|] else s.graph.since)
            && t.clients == (if flags then s.clients[h := s.clients[h].(subscribedToGraph := true)] else s.clients)
            && MailOf(t.mail, k)
               == if k != h || h !in s.clients then was
                  else if first && throws then was.(statuses := was.statuses + [Error])
                  else was.(graph := was.graph + [Update(g.published, g.subscribed, g.services, {}, {})])
  {
    AddNothing(s.graph.calls);
  }

  /**
   * An unsubscribe call of a flagged client lowers the counter and takes the flag, and tells the
   * application if the counter gets to zero, which an error is reported of if it throws. From a
   * connected client without a flag it is an error, and from any other nothing at all.
   */
  lemma UnsubscribeGraphExact(s: Server, h: Handle, throws: bool)
    ensures var t, flagged, last := UnsubscribeGraph(s, h, throws), h in Flagged(s.clients), s.graph.count == 1;
            && t == s.(clients := t.clients, graph := t.graph, mail := t.mail)
            && t.graph == (if flagged
                           then s.graph.(count := s.graph.count - 1,
                                         calls := s.graph.calls + if last then [false] else [])
                           else s.graph)
            && t.clients == (if flagged then s.clients[h := s.clients[h].(subscribedToGraph := false)] else s.clients)
            && OnlyTold(s, t.mail, h, if flagged && !(throws && last) then [] else [Error])
  {
    hide Told, OnlyTold;
    TellingTells(s, h);
    AddNothing(s.graph.calls);
    if h !in s.clients {
      NobodyTold(s, h);
    }
  }

  /** A client that is not connected is told nothing, whatever one tries. */
  lemma NobodyTold(s: Server, h: Handle)
    requires h !in s.clients
    ensures forall levels :: OnlyTold(s, s.mail, h, levels)
  {
  }

  /** A disconnect of a flagged client lowers the counter, and tells the application if it gets to zero. */
  lemma CloseGraphExact(s: Server, h: Handle, adOrder: seq<ClientChannelId>, subOrder: seq<ChannelId>)
    ensures Close(s, h, adOrder, subOrder).graph
            == if h in Flagged(s.clients)
               then s.graph.(count := s.graph.count - 1,
                             calls := s.graph.calls + if s.graph.count == 1 then [false] else [])
               else s.graph
  {
    hide UnadvertiseCalls, UnsubscribeCalls, ForgetParameters;
    AddNothing(s.graph.calls);
  }
}
