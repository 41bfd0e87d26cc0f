/**
 * The connection graph and the diffs sent to its subscribers.
 *
 * A subscriber starts from a full snapshot and applies every later update: it stores the entries
 * it is sent and drops the names it is told were removed, a topic name from both topic maps.
 */
module ConnectionGraph {

  type MapOfSets = map<string, set<string>>

  datatype Graph = Graph(published: MapOfSets, subscribed: MapOfSets, services: MapOfSets) {
    function Topics(): set<string> {
      published.Keys + subscribed.Keys
    }
  }

  datatype Update = Update(published: MapOfSets, subscribed: MapOfSets, services: MapOfSets,
                           removedTopics: set<string>, removedServices: set<string>) {
    predicate Empty() {
      published == map[] && subscribed == map[] && services == map[] && removedTopics == {} && removedServices == {}
    }
  }

  const EMPTY := Graph(map[], map[], map[])

  /** The entries of `now` that are new or differ from `was`. */
  function Changed(was: MapOfSets, now: MapOfSets): MapOfSets {
    map name | name in now && (name !in was || was[name] != now[name]) :: now[name]
  }

  function Diff(was: Graph, now: Graph): Update {
    Update(Changed(was.published, now.published),
           Changed(was.subscribed, now.subscribed),
           Changed(was.services, now.services),
           was.Topics() - now.Topics(),
           was.services.Keys - now.services.Keys)
  }

  /** `diff` says of exactly the names whose entry is new or different what their entry is now. */
  ghost predicate SaysWhatChanged(diff: MapOfSets, was: MapOfSets, now: MapOfSets) {
    forall name ::
      && (name in diff ==> name in now && diff[name] == now[name] && !(name in was && was[name] == now[name]))
      && (name in now && name !in diff ==> name in was && was[name] == now[name])
  }

  /** A diff repeats nothing, leaves out nothing, and removes exactly the names that were there and are gone. */
  lemma DiffExactly(was: Graph, now: Graph)
    ensures var u := Diff(was, now);
            && SaysWhatChanged(u.published, was.published, now.published)
            && SaysWhatChanged(u.subscribed, was.subscribed, now.subscribed)
            && SaysWhatChanged(u.services, was.services, now.services)
            && (forall name :: name in u.removedTopics <==>
                  && (name in was.published || name in was.subscribed)
                  && !(name in now.published || name in now.subscribed))
            && (forall name :: name in u.removedServices <==> name in was.services && name !in now.services)
  {
  }

  /** No update that takes a view of the old graph to the same result says less. */
  lemma DiffIsLeast(was: Graph, now: Graph, v: Update)
    requires Apply(was, v) == Apply(was, Diff(was, now))
    ensures var u := Diff(was, now);
            && SubMap(u.published, v.published) && SubMap(u.subscribed, v.subscribed) && SubMap(u.services, v.services)
            && u.removedTopics <= v.removedTopics && u.removedServices <= v.removedServices
  {
    var u := Diff(was, now);
    var next := Apply(was, u);
    LeastMap(was.published, now.published, v.published, u.removedTopics, v.removedTopics);
    LeastMap(was.subscribed, now.subscribed, v.subscribed, u.removedTopics, v.removedTopics);
    LeastMap(was.services, now.services, v.services, u.removedServices, v.removedServices);
    forall name | name in u.removedTopics
      ensures name in v.removedTopics
    {
      assert name !in next.published && name !in next.subscribed;
      assert name in was.published ==> name in was.published + v.published;
      assert name in was.subscribed ==> name in was.subscribed + v.subscribed;
    }
    forall name | name in u.removedServices
      ensures name in v.removedServices
    {
      assert name !in next.services && name in was.services + v.services;
    }
  }

  lemma LeastMap(was: MapOfSets, now: MapOfSets, v: MapOfSets, removed: set<string>, vRemoved: set<string>)
    requires removed !! now.Keys
    requires (was + v) - vRemoved == (was + Changed(was, now)) - removed
    ensures SubMap(Changed(was, now), v)
  {
    forall name | name in Changed(was, now)
      ensures name in v && v[name] == now[name]
    {
      assert name in (was + Changed(was, now)) - removed;
      assert ((was + v) - vRemoved)[name] == now[name];
    }
  }

  /**
   * Nothing is sent exactly if no entry is new or different, no name is gone and no service is: then
   * the graph is the same, but for topics that left one map and stay in the other.
   */
  lemma SilentExactly(was: Graph, now: Graph)
    ensures Diff(was, now).Empty() <==>
              && SubMap(now.published, was.published) && SubMap(now.subscribed, was.subscribed)
              && now.services == was.services
              && was.published.Keys + was.subscribed.Keys == now.published.Keys + now.subscribed.Keys
  {
    NothingChanged(was.published, now.published);
    NothingChanged(was.subscribed, now.subscribed);
    NothingChanged(was.services, now.services);
    if SubMap(now.services, was.services) && was.services.Keys <= now.services.Keys {
      assert now.services == was.services;
    }
    NoneGone(was.services.Keys, now.services.Keys);
    if SubMap(now.published, was.published) && SubMap(now.subscribed, was.subscribed) {
      assert now.Topics() <= was.Topics();
    }
    NoneGone(was.Topics(), now.Topics());
  }

  lemma NoneGone(was: set<string>, now: set<string>)
    ensures was - now == {} <==> was <= now
  {
    if was - now == {} {
      forall name | name in was
        ensures name in now
      {
        assert name !in was - now;
      }
    }
  }

  lemma NothingChanged(was: MapOfSets, now: MapOfSets)
    ensures Changed(was, now) == map[] <==> SubMap(now, was)
  {
    if Changed(was, now) == map[] {
      forall name | name in now
        ensures name in was && was[name] == now[name]
      {
        assert name !in Changed(was, now);
      }
    }
  }

  /** The full graph, sent on subscribing; on the wire it is an update that removes nothing. */
  function Snapshot(g: Graph): Update {
    Update(g.published, g.subscribed, g.services, {}, {})
  }

  function Apply(view: Graph, u: Update): Graph {
    Graph((view.published + u.published) - u.removedTopics,
          (view.subscribed + u.subscribed) - u.removedTopics,
          (view.services + u.services) - u.removedServices)
  }

  function Replay(view: Graph, us: seq<Update>): Graph {
    if us == [] then view else Apply(Replay(view, us[..|us| - 1]), us[|us| - 1])
  }

  predicate SubMap(m: MapOfSets, n: MapOfSets) {
    forall name :: name in m ==> name in n && n[name] == m[name]
  }

  // ----- What a subscriber's view keeps

  /**
   * The view has the server's services exactly, at least its topic entries and exactly its topic
   * names. `stalePublished` and `staleSubscribed` are the entries it has on top.
   */
  ghost predicate InStep(view: Graph, server: Graph, stalePublished: set<string>, staleSubscribed: set<string>) {
    && view.services == server.services
    && SubMap(server.published, view.published)
    && SubMap(server.subscribed, view.subscribed)
    && view.Topics() == server.Topics()
    && view.published.Keys == server.published.Keys + stalePublished
    && view.subscribed.Keys == server.subscribed.Keys + staleSubscribed
    && stalePublished !! server.published.Keys
    && staleSubscribed !! server.subscribed.Keys
  }

  /** Entries left over after an update: gone from one topic map, but kept in the other. */
  function Leftover(stale: set<string>, was: MapOfSets, now: MapOfSets, other: MapOfSets): set<string> {
    (was.Keys + stale) * other.Keys - now.Keys
  }

  lemma InStepExact(view: Graph, server: Graph, stalePublished: set<string>, staleSubscribed: set<string>)
    requires InStep(view, server, stalePublished, staleSubscribed)
    ensures view == server <==> stalePublished == {} && staleSubscribed == {}
  {
    if stalePublished == {} {
      assert view.published == server.published;
    }
    if staleSubscribed == {} {
      assert view.subscribed == server.subscribed;
    }
  }

  /** Both topic maps follow the same rule; this is it for one of them. */
  lemma ApplyChanged(view: MapOfSets, was: MapOfSets, now: MapOfSets, other: MapOfSets, wasOther: MapOfSets,
                     stale: set<string>, removed: set<string>)
    requires SubMap(was, view) && view.Keys == was.Keys + stale && stale <= wasOther.Keys
    requires removed == was.Keys + wasOther.Keys - (now.Keys + other.Keys)
    ensures var next := (view + Changed(was, now)) - removed;
            && SubMap(now, next)
            && next.Keys == now.Keys + Leftover(stale, was, now, other)
  {
    var next := (view + Changed(was, now)) - removed;
    forall name
      ensures name in next.Keys <==> name in now.Keys + Leftover(stale, was, now, other)
    {
      assert name in view.Keys <==> name in was.Keys || name in stale;
    }
  }

  lemma ApplyDiff(view: Graph, was: Graph, now: Graph, stalePublished: set<string>, staleSubscribed: set<string>)
    requires InStep(view, was, stalePublished, staleSubscribed)
    ensures InStep(Apply(view, Diff(was, now)), now,
                   Leftover(stalePublished, was.published, now.published, now.subscribed),
                   Leftover(staleSubscribed, was.subscribed, now.subscribed, now.published))
  {
    hide Changed, SubMap, Leftover;
    var removed := was.Topics() - now.Topics();
    assert removed == was.published.Keys + was.subscribed.Keys - (now.published.Keys + now.subscribed.Keys);
    assert removed == was.subscribed.Keys + was.published.Keys - (now.subscribed.Keys + now.published.Keys);
    StaleIsKnown(view, was, stalePublished, staleSubscribed);
    ApplyChanged(view.published, was.published, now.published, now.subscribed, was.subscribed, stalePublished, removed);
    ApplyChanged(view.subscribed, was.subscribed, now.subscribed, now.published, was.published, staleSubscribed,
                 removed);
    ApplyServices(was.services, now.services);
    TopicsAfter(Apply(view, Diff(was, now)), now, stalePublished, staleSubscribed, was);
  }

  lemma StaleIsKnown(view: Graph, was: Graph, stalePublished: set<string>, staleSubscribed: set<string>)
    requires InStep(view, was, stalePublished, staleSubscribed)
    ensures stalePublished <= was.subscribed.Keys && staleSubscribed <= was.published.Keys
  {
    assert stalePublished <= view.Topics();
    assert staleSubscribed <= view.Topics();
  }

  lemma TopicsAfter(next: Graph, now: Graph, stalePublished: set<string>, staleSubscribed: set<string>, was: Graph)
    requires next.published.Keys
             == now.published.Keys + Leftover(stalePublished, was.published, now.published, now.subscribed)
    requires next.subscribed.Keys
             == now.subscribed.Keys + Leftover(staleSubscribed, was.subscribed, now.subscribed, now.published)
    ensures next.Topics() == now.Topics()
    ensures Leftover(stalePublished, was.published, now.published, now.subscribed) !! now.published.Keys
    ensures Leftover(staleSubscribed, was.subscribed, now.subscribed, now.published) !! now.subscribed.Keys
  {
  }

  lemma ApplyServices(was: MapOfSets, now: MapOfSets)
    ensures (was + Changed(was, now)) - (was.Keys - now.Keys) == now
  {
  }

  /** Applying an empty diff would change nothing, so not sending it loses nothing. */
  lemma EmptyDiff(view: Graph, u: Update)
    requires u.Empty()
    ensures Apply(view, u) == view
  {
    assert view.published + map[] - {} == view.published;
    assert view.subscribed + map[] - {} == view.subscribed;
    assert view.services + map[] - {} == view.services;
  }

  lemma ApplySnapshot(view: Graph, server: Graph, stalePublished: set<string>, staleSubscribed: set<string>)
    requires InStep(view, server, stalePublished, staleSubscribed)
    ensures Apply(view, Snapshot(server)) == view
  {
    assert view.published + server.published - {} == view.published;
    assert view.subscribed + server.subscribed - {} == view.subscribed;
    assert view.services + server.services - {} == view.services;
  }

  lemma FirstSnapshot(server: Graph)
    ensures Apply(EMPTY, Snapshot(server)) == server && InStep(server, server, {}, {})
  {
    assert map[] + server.published - {} == server.published;
    assert map[] + server.subscribed - {} == server.subscribed;
    assert map[] + server.services - {} == server.services;
  }

  // ----- Any sequence of updates

  /** The graph after the last of the updates. */
  function Latest(start: Graph, graphs: seq<Graph>): Graph {
    if graphs == [] then start else graphs[|graphs| - 1]
  }

  /** What a subscriber from before the updates is sent: every diff that is not empty. */
  function Sent(start: Graph, graphs: seq<Graph>): seq<Update> {
    if graphs == [] then [Snapshot(start)]
    else
      var before := graphs[..|graphs| - 1];
      var u := Diff(Latest(start, before), graphs[|graphs| - 1]);
      Sent(start, before) + if u.Empty() then [] else [u]
  }

  function StalePublished(start: Graph, graphs: seq<Graph>): set<string> {
    if graphs == [] then {}
    else
      var before, now := graphs[..|graphs| - 1], graphs[|graphs| - 1];
      Leftover(StalePublished(start, before), Latest(start, before).published, now.published, now.subscribed)
  }

  function StaleSubscribed(start: Graph, graphs: seq<Graph>): set<string> {
    if graphs == [] then {}
    else
      var before, now := graphs[..|graphs| - 1], graphs[|graphs| - 1];
      Leftover(StaleSubscribed(start, before), Latest(start, before).subscribed, now.subscribed, now.published)
  }

  /**
   * Over any sequence of updates a subscriber keeps the services and the topic names exactly, and
   * both topic maps up to the entries left over from half-dropped topics, which are these exactly.
   */
  lemma {:induction false} ViewInStep(start: Graph, graphs: seq<Graph>)
    ensures InStep(Replay(EMPTY, Sent(start, graphs)), Latest(start, graphs),
                   StalePublished(start, graphs), StaleSubscribed(start, graphs))
  {
    if graphs == [] {
      FirstSnapshot(start);
      assert [Snapshot(start)][..0] == [];
    } else {
      var before, now := graphs[..|graphs| - 1], graphs[|graphs| - 1];
      ViewInStep(start, before);
      var view, was := Replay(EMPTY, Sent(start, before)), Latest(start, before);
      var u := Diff(was, now);
      ApplyDiff(view, was, now, StalePublished(start, before), StaleSubscribed(start, before));
      if u.Empty() {
        EmptyDiff(view, u);
        assert Sent(start, graphs) == Sent(start, before);
      } else {
        assert Sent(start, graphs)[..|Sent(start, graphs)| - 1] == Sent(start, before);
      }
    }
  }

  /** So the view is the server's graph exactly while no left-over entry is in it. */
  lemma ViewExactly(start: Graph, graphs: seq<Graph>)
    ensures Replay(EMPTY, Sent(start, graphs)) == Latest(start, graphs)
            <==> StalePublished(start, graphs) == {} && StaleSubscribed(start, graphs) == {}
  {
    ViewInStep(start, graphs);
    InStepExact(Replay(EMPTY, Sent(start, graphs)), Latest(start, graphs),
                StalePublished(start, graphs), StaleSubscribed(start, graphs));
  }

  /** An update half-drops a topic when it leaves one topic map and stays, or appears, in the other. */
  predicate HalfDrops(was: Graph, now: Graph) {
    || was.published.Keys * now.subscribed.Keys - now.published.Keys != {}
    || was.subscribed.Keys * now.published.Keys - now.subscribed.Keys != {}
  }

  /** The view is the server's graph as long as no update half-drops a topic. */
  lemma ViewExact(start: Graph, graphs: seq<Graph>)
    requires forall i :: 0 <= i < |graphs| ==> !HalfDrops(Latest(start, graphs[..i]), graphs[i])
    ensures Replay(EMPTY, Sent(start, graphs)) == Latest(start, graphs)
  {
    ViewInStep(start, graphs);
    NothingStale(start, graphs);
    InStepExact(Replay(EMPTY, Sent(start, graphs)), Latest(start, graphs), {}, {});
  }

  lemma {:induction false} NothingStale(start: Graph, graphs: seq<Graph>)
    requires forall i :: 0 <= i < |graphs| ==> !HalfDrops(Latest(start, graphs[..i]), graphs[i])
    ensures StalePublished(start, graphs) == {} && StaleSubscribed(start, graphs) == {}
  {
    if graphs != [] {
      var last := |graphs| - 1;
      var before := graphs[..last];
      assert forall i :: 0 <= i < last ==> before[..i] == graphs[..i];
      NothingStale(start, before);
      assert !HalfDrops(Latest(start, before), graphs[last]);
    }
  }

  /** And an update that half-drops a topic takes a view that was exact out of it. */
  lemma ViewExactStep(was: Graph, now: Graph)
    ensures Apply(was, Diff(was, now)) == now <==> !HalfDrops(was, now)
  {
    FirstSnapshot(was);
    ApplyDiff(was, was, now, {}, {});
    var p := Leftover({}, was.published, now.published, now.subscribed);
    var q := Leftover({}, was.subscribed, now.subscribed, now.published);
    InStepExact(Apply(was, Diff(was, now)), now, p, q);
    assert was.published.Keys + {} == was.published.Keys;
    assert was.subscribed.Keys + {} == was.subscribed.Keys;
  }
}
