/** What the advertise and unadvertise messages tell a client, over runs of the server. */
module CatalogueProofs {
  import opened Wrappers
  import opened Bytes
  import opened Orderings
  import opened Numbering
  import opened Session
  import opened SessionFrames

  // ----- A client's view

  function LearnChannels(view: map<ChannelId, ChannelInfo>, n: Notice): map<ChannelId, ChannelInfo> {
    if n.Advertise? then view + Entries(n.channels)
    else if n.Unadvertise? then view - (set i | i in n.channelIds)
    else view
  }

  function LearnServices(view: map<ServiceId, ServiceInfo>, n: Notice): map<ServiceId, ServiceInfo> {
    if n.AdvertiseServices? then view + Entries(n.services)
    else if n.UnadvertiseServices? then view - (set i | i in n.serviceIds)
    else view
  }

  /** The channels a client knows of: it stores what is advertised and drops what is unadvertised. */
  function ChannelView(notices: seq<Notice>): map<ChannelId, ChannelInfo> {
    if notices == [] then map[] else LearnChannels(ChannelView(notices[..|notices| - 1]), notices[|notices| - 1])
  }

  function ServiceView(notices: seq<Notice>): map<ServiceId, ServiceInfo> {
    if notices == [] then map[] else LearnServices(ServiceView(notices[..|notices| - 1]), notices[|notices| - 1])
  }

  lemma OneMore(notices: seq<Notice>, n: Notice)
    ensures ChannelView(notices + [n]) == LearnChannels(ChannelView(notices), n)
    ensures ServiceView(notices + [n]) == LearnServices(ServiceView(notices), n)
  {
    assert (notices + [n])[..|notices|] == notices;
  }

  // ----- Channels

  /** The ids in removals that are between their two locks. */
  function Pending(removals: seq<seq<ChannelId>>): set<ChannelId> {
    set r, i | r in removals && i in r :: i
  }

  /** Every client knows the channels there are and, of the ones it still has to forget, no others. */
  ghost predicate ChannelsMirrored(s: Server) {
    && Pending(s.removals) !! s.channels.table.Keys
    && forall h :: h in s.clients ==> ChannelView(MailOf(s.mail, h).notices) - Pending(s.removals) == s.channels.table
  }

  /** None of the new ids is taken by another channel, or named by a removal in flight. */
  ghost predicate FreeChannelIds(s: Server, infos: seq<ChannelInfo>) {
    && NoClash(s.channels.table, infos, s.channels.next)
    && forall k :: 0 <= k < |infos| ==> IdAt(s.channels.next, k) !in Pending(s.removals)
  }

  ghost predicate NewChannelIds(s: Server, e: Event) {
    e.AddChannelsEvent? ==> |e.channels| <= TWO32 && FreeChannelIds(s, e.channels)
  }

  /** What adding does to the table, and to what a client has been told. */
  lemma AddedChannels(s: Server, infos: seq<ChannelInfo>, h: Handle)
    requires h in s.clients
    ensures var t, news := AddChannels(s, infos), Numbered(infos, s.channels.next);
            && t.channels.table == Emplaced(s.channels.table, news)
            && ChannelView(MailOf(t.mail, h).notices) == ChannelView(MailOf(s.mail, h).notices) + Entries(news)
  {
    hide AddAll, Numbered, Emplaced, ChannelView, IdAt;
    var news, view := Numbered(infos, s.channels.next), ChannelView(MailOf(s.mail, h).notices);
    AddAllNumbers(infos, Adding(s.channels, []));
    assert [] + news == news;
    if infos == [] {
      NumberedNone(infos, s.channels.next);
      NothingNew(s.channels.table, view, news);
    } else {
      OneMore(MailOf(s.mail, h).notices, Advertise(news));
    }
  }

  lemma NothingNew<T>(table: map<u32, T>, view: map<u32, T>, news: seq<(u32, T)>)
    requires news == []
    ensures Emplaced(table, news) == table && view + Entries(news) == view
  {
  }

  lemma AddedTable(s: Server, infos: seq<ChannelInfo>)
    ensures var t := AddChannels(s, infos);
            && t.channels.table == Emplaced(s.channels.table, Numbered(infos, s.channels.next))
            && t.removals == s.removals && t.clients == s.clients
  {
    hide AddAll, Numbered, Emplaced, AllNoticed, IdAt;
    AddAllNumbers(infos, Adding(s.channels, []));
    if infos == [] {
      NumberedNone(infos, s.channels.next);
      NothingNew(s.channels.table, map[], Numbered(infos, s.channels.next));
    }
  }

  lemma AddChannelsMirrored(s: Server, infos: seq<ChannelInfo>)
    requires ChannelsMirrored(s) && |infos| <= TWO32 && FreeChannelIds(s, infos)
    ensures ChannelsMirrored(AddChannels(s, infos))
  {
    hide AddChannels, Pending, Emplaced, Entries, Numbered, ChannelView, IdAt;
    var t, news := AddChannels(s, infos), Entries(Numbered(infos, s.channels.next));
    AddedTable(s, infos);
    StoredAsAnnounced(s.channels.table, infos, s.channels.next);
    NewEntries(infos, s.channels.next);
    forall h | h in t.clients
      ensures ChannelView(MailOf(t.mail, h).notices) - Pending(t.removals) == t.channels.table
    {
      AddedChannels(s, infos, h);
      AddBesidePending(ChannelView(MailOf(s.mail, h).notices), Pending(s.removals), news);
    }
  }

  /**
   * Adding channels keeps the clients in step exactly if no new id is taken by another channel or
   * named by a removal in flight. An id can be taken once the counter has gone round.
   */
  lemma AddMirrorsExactly(s: Server, infos: seq<ChannelInfo>)
    requires ChannelsMirrored(s) && s.clients != map[] && |infos| <= TWO32
    ensures ChannelsMirrored(AddChannels(s, infos)) <==> FreeChannelIds(s, infos)
  {
    hide AddChannels, Pending, Emplaced, Entries, Numbered, ChannelView, IdAt, NoClash;
    var t, next := AddChannels(s, infos), s.channels.next;
    var news := Entries(Numbered(infos, next));
    if FreeChannelIds(s, infos) {
      AddChannelsMirrored(s, infos);
    } else {
      var h :| h in s.clients;
      AddedTable(s, infos);
      AddedChannels(s, infos, h);
      StoredAsAnnounced(s.channels.table, infos, next);
      NewEntries(infos, next);
      IdsAreDistinct(infos, next);
      EmplacedAt(s.channels.table, Numbered(infos, next));
      if k :| 0 <= k < |infos| && IdAt(next, k) in Pending(s.removals) {
        assert IdAt(next, k) in t.channels.table;
      } else {
        AddBesidePending(ChannelView(MailOf(s.mail, h).notices), Pending(s.removals), news);
      }
    }
  }

  lemma AddBesidePending(view: map<ChannelId, ChannelInfo>, pending: set<ChannelId>, more: map<ChannelId, ChannelInfo>)
    requires more.Keys !! pending
    ensures (view + more) - pending == (view - pending) + more
  {
  }

  lemma RemoveBeginMirrored(s: Server, ids: seq<ChannelId>)
    requires ChannelsMirrored(s)
    ensures ChannelsMirrored(RemoveChannelsBegin(s, ids))
  {
    hide ChannelView, Pending;
    if ids != [] {
      var t, gone := RemoveChannelsBegin(s, ids), set i | i in ids;
      PendingOneMore(s.removals, ids);
      forall h | h in t.clients
        ensures ChannelView(MailOf(t.mail, h).notices) - Pending(t.removals) == t.channels.table
      {
        var view := ChannelView(MailOf(s.mail, h).notices);
        assert view - (Pending(s.removals) + gone) == view - Pending(s.removals) - gone;
      }
    }
  }

  lemma PendingOneMore(removals: seq<seq<ChannelId>>, ids: seq<ChannelId>)
    ensures Pending(removals + [ids]) == Pending(removals) + (set i | i in ids)
  {
  }

  lemma PendingOneLess(removals: seq<seq<ChannelId>>, i: nat)
    requires i < |removals|
    ensures Pending(removals) == Pending(removals[..i] + removals[i + 1..]) + (set id | id in removals[i])
  {
    var rest := removals[..i] + removals[i + 1..];
    assert removals == removals[..i] + [removals[i]] + removals[i + 1..];
    forall r
      ensures r in removals <==> r in rest || r == removals[i]
    {
    }
  }

  lemma RemoveEndMirrored(s: Server, i: nat, order: seq<Handle>)
    requires ChannelsMirrored(s) && i < |s.removals|
    ensures ChannelsMirrored(RemoveChannelsEnd(s, i, order))
  {
    hide ChannelView, Pending, Dropped;
    var t, ids := RemoveChannelsEnd(s, i, order), s.removals[i];
    var gone := set id | id in ids;
    PendingOneLess(s.removals, i);
    forall h | h in t.clients
      ensures ChannelView(MailOf(t.mail, h).notices) - Pending(t.removals) == t.channels.table
    {
      var notices := MailOf(s.mail, h).notices;
      OneMore(notices, Unadvertise(ids));
      assert ChannelView(notices) - gone - Pending(t.removals) == ChannelView(notices) - (Pending(t.removals) + gone);
    }
  }

  lemma OpenMirrored(s: Server, e: Event)
    requires ChannelsMirrored(s) && e.OpenEvent? && Enabled(s, e)
    ensures ChannelsMirrored(Open(s, e.h, e.channelOrder, e.serviceOrder))
  {
    hide Listing, Pending;
    var t := Open(s, e.h, e.channelOrder, e.serviceOrder);
    var a := Advertise(Listing(e.channelOrder, s.channels.table));
    var b := AdvertiseServices(Listing(e.serviceOrder, s.services.table));
    WelcomeIsComplete(e.channelOrder, s.channels.table);
    OneMore([a], b);
    OneMore([], a);
    assert [] + [a] == [a] && [a] + [b] == [a, b];
    assert ChannelView([a, b]) == map[] + s.channels.table == s.channels.table;
    assert s.channels.table - Pending(s.removals) == s.channels.table;
  }

  /** What the proofs below speak of is the same in both states, for clients still connected. */
  ghost predicate SameCatalogues(s: Server, t: Server) {
    && t.channels == s.channels && t.services == s.services && t.removals == s.removals
    && t.clients.Keys <= s.clients.Keys
    && SameNotices(s.mail, t.mail)
  }

  predicate TouchesCatalogues(e: Event) {
    || e.OpenEvent? || e.AddChannelsEvent? || e.RemoveChannelsBeginEvent? || e.RemoveChannelsEndEvent?
    || e.AddServicesEvent? || e.RemoveServicesEvent?
  }

  lemma OthersKeepCatalogues(s: Server, e: Event)
    requires Enabled(s, e) && !TouchesCatalogues(e)
    ensures SameCatalogues(s, Step(s, e))
  {
    hide IsOrdering, Step, Close;
    StepFrame(s, e);
    var t := Step(s, e);
    assert t.channels == s.channels && t.services == s.services && t.removals == s.removals;
    if e.CloseEvent? {
      CloseForgets(s, e);
    } else {
      assert t.clients.Keys == s.clients.Keys;
    }
  }

  lemma CloseForgets(s: Server, e: Event)
    requires e.CloseEvent? && Enabled(s, e)
    ensures Step(s, e).clients.Keys <= s.clients.Keys
  {
    hide IsOrdering, UnadvertiseCalls, UnsubscribeCalls, ForgetParameters, LeaveGraph;
  }

  /** Services have a catalogue and messages of their own. */
  lemma ServiceNoticesAreNoMatter(s: Server, n: Notice, h: Handle)
    requires n.AdvertiseServices? || n.UnadvertiseServices?
    ensures ChannelView(MailOf(AllNoticed(s, n), h).notices) == ChannelView(MailOf(s.mail, h).notices)
  {
    OneMore(MailOf(s.mail, h).notices, n);
  }

  lemma ServicesAreNoMatter(s: Server, e: Event, n: Notice)
    requires Enabled(s, e) && ChannelsMirrored(s)
    requires s.(services := Step(s, e).services, mail := Step(s, e).mail) == Step(s, e)
    requires Step(s, e).mail == s.mail || Step(s, e).mail == AllNoticed(s, n)
    requires n.AdvertiseServices? || n.UnadvertiseServices?
    ensures ChannelsMirrored(Step(s, e))
  {
    hide IsOrdering, Step, Pending, ChannelView, AllNoticed;
    forall h {
      ServiceNoticesAreNoMatter(s, n, h);
    }
  }

  lemma SameMirrored(s: Server, t: Server)
    requires ChannelsMirrored(s) && SameCatalogues(s, t)
    ensures ChannelsMirrored(t)
  {
  }

  lemma StepChannelsMirrored(s: Server, e: Event)
    requires ChannelsMirrored(s) && Enabled(s, e) && NewChannelIds(s, e)
    ensures ChannelsMirrored(Step(s, e))
  {
    hide IsOrdering, Pending, ChannelView, Open, AddChannels, RemoveChannelsBegin, RemoveChannelsEnd,
      AddAll, ValidPrefix, Present, AllNoticed, ChannelsMirrored, FreeChannelIds;
    if !TouchesCatalogues(e) {
      OthersKeepCatalogues(s, e);
      SameMirrored(s, Step(s, e));
    } else {
      match e
      case AddServicesEvent(infos) =>
        ServicesAreNoMatter(s, e, AdvertiseServices(AddAll(ValidPrefix(infos), Adding(s.services, [])).added));
      case RemoveServicesEvent(ids) => ServicesAreNoMatter(s, e, UnadvertiseServices(Present(s.services.table, ids)));
      case OpenEvent(_, _, _) => OpenMirrored(s, e);
      case AddChannelsEvent(infos) => AddChannelsMirrored(s, infos);
      case RemoveChannelsBeginEvent(ids) => RemoveBeginMirrored(s, ids);
      case RemoveChannelsEndEvent(i, order) => RemoveEndMirrored(s, i, order);
    }
  }

  /**
   * After every run, whenever it connected, a client that replays what it was sent has the channels
   * there are, ids and contents, but for the ids that removals in flight have still to withdraw.
   */
  lemma ClientsKnowTheChannels(options: Options, events: seq<Event>, s: Server)
    requires Runs(NewChannelIds, Init(options), events, s)
    ensures forall h :: h in s.clients ==>
              ChannelView(MailOf(s.mail, h).notices) - Pending(s.removals) == s.channels.table
    ensures s.removals == [] ==>
              forall h :: h in s.clients ==> ChannelView(MailOf(s.mail, h).notices) == s.channels.table
  {
    hide Pending;
    forall s, e | ChannelsMirrored(s) && Enabled(s, e) && NewChannelIds(s, e)
      ensures ChannelsMirrored(Step(s, e))
    {
      StepChannelsMirrored(s, e);
    }
    Invariant(ChannelsMirrored, NewChannelIds, Init(options), events, s);
    NothingPending();
    forall h | h in s.clients && s.removals == []
      ensures ChannelView(MailOf(s.mail, h).notices) == s.channels.table
    {
      var view := ChannelView(MailOf(s.mail, h).notices);
      assert view - {} == view;
    }
  }

  lemma NothingPending()
    ensures Pending([]) == {}
  {
  }

  /**
   * The assumption on ids is needed: a removal that names the id issued next, between its locks,
   * withdraws that channel from every client while the server keeps it.
   */
  lemma RemovedBeforeIssued(s: Server, h: Handle, info: ChannelInfo, order: seq<Handle>)
    requires h in s.clients && s.removals == []
    ensures var id := IdAt(s.channels.next, 0);
            var t := RemoveChannelsEnd(AddChannels(RemoveChannelsBegin(s, [id]), [info]), 0, order);
            && t.removals == [] && id in t.channels.table
            && id !in ChannelView(MailOf(t.mail, h).notices)
  {
    hide ChannelView, Dropped, AddChannels, IdAt, Emplaced, Numbered;
    var id := IdAt(s.channels.next, 0);
    var s1 := RemoveChannelsBegin(s, [id]);
    AddedTable(s1, [info]);
    NewIsStored(s1.channels.table, info, s1.channels.next);
    var s2 := AddChannels(s1, [info]);
    OneMore(MailOf(s2.mail, h).notices, Unadvertise([id]));
    assert id in [id];
  }

  lemma NewIsStored<T>(table: map<u32, T>, info: T, next: u32)
    ensures IdAt(next, 0) in Emplaced(table, Numbered([info], next))
  {
    hide IdAt, Emplaced, Numbered, Entries;
    IdsAreDistinct([info], next);
    EmplacedAt(table, Numbered([info], next));
    NewEntries([info], next);
  }

  /** Once the counter has gone round, an id that is taken keeps its entry, and the clients are told the new one. */
  lemma WrappedIdCollides(s: Server, h: Handle, info: ChannelInfo)
    requires h in s.clients && IdAt(s.channels.next, 0) in s.channels.table
    ensures var t, id := AddChannels(s, [info]), IdAt(s.channels.next, 0);
            && t.channels.table == s.channels.table
            && id in ChannelView(MailOf(t.mail, h).notices) && ChannelView(MailOf(t.mail, h).notices)[id] == info
  {
    hide AddChannels, ChannelView, IdAt, Entries, Numbered;
    var next := s.channels.next;
    AddedChannels(s, [info], h);
    NewEntries([info], next);
    NumberedFirst([info], next);
    NumberedNone([info][1..], IdAt(next, 0));
    EmplacedFirst(s.channels.table, (IdAt(next, 0), info), []);
  }

  // ----- Services

  ghost predicate Within<T(!new)>(view: map<u32, T>, table: map<u32, T>) {
    forall i :: i in view ==> i in table && view[i] == table[i]
  }

  /** Every client knows only services there are, as they are; all of them, when `exact`. */
  ghost predicate ServicesKnown(s: Server, exact: bool) {
    forall h :: h in s.clients ==>
      && Within(ServiceView(MailOf(s.mail, h).notices), s.services.table)
      && (exact ==> ServiceView(MailOf(s.mail, h).notices) == s.services.table)
  }

  /** The definition has a request and a response, each in full or as a schema. */
  predicate Complete(info: ServiceInfo) {
    && !(info.request == None && info.requestSchema == None)
    && !(info.response == None && info.responseSchema == None)
  }

  predicate AllComplete(infos: seq<ServiceInfo>) {
    forall i :: 0 <= i < |infos| ==> Complete(infos[i])
  }

  /** So are this definition of the batch and the ones before it. */
  predicate CompleteTo(infos: seq<ServiceInfo>, k: int) {
    k < |infos| && forall i :: 0 <= i <= k ==> Complete(infos[i])
  }

  /**
   * None of the new ids is taken by another service, in a batch that is complete; a batch that is not
   * adds nothing new to the table, when `exact`: the services before its first incomplete one get ids
   * that are all taken.
   */
  ghost predicate GoodBatch(s: Server, infos: seq<ServiceInfo>, exact: bool) {
    if AllComplete(infos) then NoClash(s.services.table, infos, s.services.next)
    else
      exact ==> forall k :: 0 <= k && CompleteTo(infos, k) ==> IdAt(s.services.next, k) in s.services.table
  }

  ghost predicate NewServiceIds(s: Server, e: Event, exact: bool) {
    e.AddServicesEvent? ==> |e.services| <= TWO32 && GoodBatch(s, e.services, exact)
  }

  lemma {:induction false} ValidPrefixOf(infos: seq<ServiceInfo>)
    ensures |ValidPrefix(infos)| <= |infos| && ValidPrefix(infos) == infos[..|ValidPrefix(infos)|]
    ensures ValidPrefix(infos) == infos <==> AllComplete(infos)
    decreases |infos|
  {
    if infos != [] {
      ValidPrefixOf(infos[1..]);
      assert infos == [infos[0]] + infos[1..];
      assert forall i :: 0 < i < |infos| ==> infos[i] == infos[1..][i - 1];
    }
  }

  /** The services stored of a batch are those up to which it is complete. */
  lemma {:induction false} ValidPrefixReaches(infos: seq<ServiceInfo>, k: nat)
    ensures k < |ValidPrefix(infos)| <==> CompleteTo(infos, k)
    decreases |infos|
  {
    if infos != [] && k > 0 {
      ValidPrefixReaches(infos[1..], k - 1);
      assert forall i :: 0 < i < |infos| ==> infos[i] == infos[1..][i - 1];
      assert forall i :: 0 <= i < |infos[1..]| ==> infos[1..][i] == infos[i + 1];
    }
  }

  lemma {:induction false} PresentOnes(services: map<ServiceId, ServiceInfo>, ids: seq<ServiceId>)
    ensures forall i :: i in Present(services, ids) <==> i in ids && i in services
    decreases |ids|
  {
    if ids != [] {
      PresentOnes(services - {ids[0]}, ids[1..]);
      assert forall i :: i in ids <==> i == ids[0] || i in ids[1..];
    }
  }

  lemma AddServicesTable(s: Server, infos: seq<ServiceInfo>)
    ensures AddServices(s, infos).clients == s.clients
    ensures AddServices(s, infos).services.table
            == Emplaced(s.services.table, Numbered(ValidPrefix(infos), s.services.next))
  {
    hide AddAll, ValidPrefix, Numbered, Emplaced, AllNoticed, IdAt;
    var prefix := ValidPrefix(infos);
    ValidPrefixOf(infos);
    AddAllNumbers(prefix, Adding(s.services, []));
    if infos == [] {
      NumberedNone(prefix, s.services.next);
      NothingNew(s.services.table, map[], Numbered(prefix, s.services.next));
    }
  }

  /** What adding services does to a client's view: it learns them, if the whole batch is complete. */
  lemma AddServicesView(s: Server, infos: seq<ServiceInfo>, h: Handle)
    requires h in s.clients
    ensures var view := ServiceView(MailOf(s.mail, h).notices);
            ServiceView(MailOf(AddServices(s, infos).mail, h).notices)
            == if AllComplete(infos) then view + Entries(Numbered(infos, s.services.next)) else view
  {
    hide AddAll, ServiceView, ValidPrefix, Entries, Numbered, Emplaced, AllComplete, IdAt;
    var prefix, view := ValidPrefix(infos), ServiceView(MailOf(s.mail, h).notices);
    ValidPrefixOf(infos);
    AddAllNumbers(prefix, Adding(s.services, []));
    assert [] + Numbered(prefix, s.services.next) == Numbered(prefix, s.services.next);
    if infos == [] {
      NumberedNone(infos, s.services.next);
      NothingNew(map[], view, Numbered(infos, s.services.next));
    } else {
      OneMore(MailOf(s.mail, h).notices, AdvertiseServices(Numbered(prefix, s.services.next)));
    }
  }

  lemma RemoveServicesStep(s: Server, ids: seq<ServiceId>, h: Handle)
    requires h in s.clients
    requires forall i :: i in ServiceView(MailOf(s.mail, h).notices) ==> i in s.services.table
    ensures var t := RemoveServices(s, ids);
            && t.services.table == s.services.table - (set i | i in ids)
            && ServiceView(MailOf(t.mail, h).notices) == ServiceView(MailOf(s.mail, h).notices) - (set i | i in ids)
  {
    hide ServiceView, Present;
    var removed, view := Present(s.services.table, ids), ServiceView(MailOf(s.mail, h).notices);
    PresentOnes(s.services.table, ids);
    OneMore(MailOf(s.mail, h).notices, UnadvertiseServices(removed));
    assert view - (set i | i in removed) == view - (set i | i in ids);
    if removed == [] {
      assert view - (set i | i in ids) == view;
    }
  }

  lemma OpenKnowsServices(s: Server, e: Event)
    requires e.OpenEvent? && Enabled(s, e)
    ensures ServiceView(MailOf(Open(s, e.h, e.channelOrder, e.serviceOrder).mail, e.h).notices) == s.services.table
  {
    hide Listing;
    var a := Advertise(Listing(e.channelOrder, s.channels.table));
    var b := AdvertiseServices(Listing(e.serviceOrder, s.services.table));
    WelcomeIsComplete(e.serviceOrder, s.services.table);
    OneMore([a], b);
    OneMore([], a);
    assert [] + [a] == [a] && [a] + [b] == [a, b];
    assert map[] + s.services.table == s.services.table;
  }

  lemma ChannelNoticesAreNoMatter(s: Server, n: Notice, h: Handle)
    requires n.Advertise? || n.Unadvertise?
    ensures ServiceView(MailOf(AllNoticed(s, n), h).notices) == ServiceView(MailOf(s.mail, h).notices)
  {
    OneMore(MailOf(s.mail, h).notices, n);
  }

  /** The steps that leave the services alone leave what clients know of them alone. */
  lemma OthersKeepServices(s: Server, e: Event)
    requires Enabled(s, e) && !e.OpenEvent? && !e.AddServicesEvent? && !e.RemoveServicesEvent?
    ensures Step(s, e).services == s.services && Step(s, e).clients.Keys <= s.clients.Keys
    ensures forall h :: ServiceView(MailOf(Step(s, e).mail, h).notices) == ServiceView(MailOf(s.mail, h).notices)
  {
    hide IsOrdering, ServiceView, AllNoticed, AddAll, Dropped;
    if !TouchesCatalogues(e) {
      hide Step;
      OthersKeepCatalogues(s, e);
    } else if e.AddChannelsEvent? {
      forall h {
        ChannelNoticesAreNoMatter(s, Advertise(AddAll(e.channels, Adding(s.channels, [])).added), h);
      }
    } else if e.RemoveChannelsEndEvent? {
      forall h {
        ChannelNoticesAreNoMatter(s, Unadvertise(s.removals[e.removal]), h);
      }
    } else {
      assert e.RemoveChannelsBeginEvent?;
    }
  }

  lemma OpenKeepsOthers(s: Server, e: Event)
    requires e.OpenEvent? && Enabled(s, e)
    ensures var t := Step(s, e);
            && t.services == s.services && t.clients.Keys == s.clients.Keys + {e.h}
            && forall h :: h in s.clients ==> MailOf(t.mail, h) == MailOf(s.mail, h)
  {
    hide Listing, IsOrdering;
    var t := Step(s, e);
  }

  /** What a batch does to a client that knew only services there are, and to one that knew them all. */
  lemma BatchExactly(s: Server, infos: seq<ServiceInfo>, h: Handle)
    requires h in s.clients && |infos| <= TWO32 && Within(ServiceView(MailOf(s.mail, h).notices), s.services.table)
    ensures var t := AddServices(s, infos);
            var view := ServiceView(MailOf(t.mail, h).notices);
            && (Within(view, t.services.table) <==> GoodBatch(s, infos, false))
            && (ServiceView(MailOf(s.mail, h).notices) == s.services.table ==>
                  (view == t.services.table <==> GoodBatch(s, infos, true)))
  {
    hide AddServices, ServiceView, ValidPrefix, Entries, Numbered, Emplaced, AllComplete, IdAt, IdsOf, NoClash,
      Distinct;
    var prefix, table, next := ValidPrefix(infos), s.services.table, s.services.next;
    ValidPrefixOf(infos);
    AddServicesTable(s, infos);
    AddServicesView(s, infos, h);
    IdsAreDistinct(prefix, next);
    EmplacedAt(table, Numbered(prefix, next));
    NewEntries(prefix, next);
    if AllComplete(infos) {
      StoredAsAnnounced(table, infos, next);
      LearnsWhatIsStored(ServiceView(MailOf(s.mail, h).notices), table, Entries(Numbered(infos, next)));
    } else {
      hide CompleteTo;
      forall k: nat
        ensures k < |prefix| <==> CompleteTo(infos, k)
      {
        ValidPrefixReaches(infos, k);
      }
      StaysBehind(ServiceView(MailOf(s.mail, h).notices), table, Entries(Numbered(prefix, next)));
    }
  }

  lemma LearnsWhatIsStored<T(!new)>(view: map<u32, T>, table: map<u32, T>, news: map<u32, T>)
    requires Within(view, table)
    ensures Within(view + news, news + table) <==> news + table == table + news
    ensures view == table ==> (view + news == news + table <==> news + table == table + news)
  {
    if Within(view + news, news + table) {
      forall i | i in news && i in table
        ensures news[i] == table[i]
      {
        assert i in view + news;
      }
      assert news + table == table + news;
    }
  }

  lemma StaysBehind<T(!new)>(view: map<u32, T>, table: map<u32, T>, news: map<u32, T>)
    requires Within(view, table)
    ensures Within(view, news + table)
    ensures view == table ==> (view == news + table <==> forall i :: i in news ==> i in table)
  {
    if view == news + table {
      assert forall i :: i in news ==> i in news + table;
    }
  }

  lemma AddServicesKnown(s: Server, infos: seq<ServiceInfo>, exact: bool)
    requires ServicesKnown(s, exact) && |infos| <= TWO32 && GoodBatch(s, infos, exact)
    ensures ServicesKnown(AddServices(s, infos), exact)
  {
    hide ServiceView, AddServices, Within, NoClash;
    var t := AddServices(s, infos);
    AddServicesTable(s, infos);
    forall h | h in t.clients
      ensures Within(ServiceView(MailOf(t.mail, h).notices), t.services.table)
      ensures exact ==> ServiceView(MailOf(t.mail, h).notices) == t.services.table
    {
      BatchExactly(s, infos, h);
    }
  }

  lemma RemoveServicesKnown(s: Server, ids: seq<ServiceId>, exact: bool)
    requires ServicesKnown(s, exact)
    ensures ServicesKnown(RemoveServices(s, ids), exact)
  {
    hide ServiceView, Present;
    var t := RemoveServices(s, ids);
    forall h | h in t.clients
      ensures Within(ServiceView(MailOf(t.mail, h).notices), t.services.table)
      ensures exact ==> ServiceView(MailOf(t.mail, h).notices) == t.services.table
    {
      RemoveServicesStep(s, ids, h);
    }
  }

  lemma StepServicesKnown(s: Server, e: Event, exact: bool)
    requires ServicesKnown(s, exact) && Enabled(s, e) && NewServiceIds(s, e, exact)
    ensures ServicesKnown(Step(s, e), exact)
  {
    hide IsOrdering, ServiceView, Open, AddServices, RemoveServices, GoodBatch;
    var t := Step(s, e);
    if e.OpenEvent? {
      OpenKeepsOthers(s, e);
      OpenKnowsServices(s, e);
    } else if e.AddServicesEvent? {
      AddServicesKnown(s, e.services, exact);
    } else if e.RemoveServicesEvent? {
      RemoveServicesKnown(s, e.serviceIds, exact);
    } else {
      hide Step;
      OthersKeepServices(s, e);
    }
  }

  /**
   * After every run, a client that replays what it was sent knows only services there are, as they
   * are; and it knows all of them if no batch of services failed after some of it was stored.
   */
  lemma ClientsKnowTheServices(options: Options, events: seq<Event>, s: Server, exact: bool)
    requires Runs((s, e) => NewServiceIds(s, e, exact), Init(options), events, s)
    ensures forall h :: h in s.clients ==> Within(ServiceView(MailOf(s.mail, h).notices), s.services.table)
    ensures exact ==> forall h :: h in s.clients ==> ServiceView(MailOf(s.mail, h).notices) == s.services.table
  {
    var inv, assumed := (s: Server) => ServicesKnown(s, exact), (s: Server, e: Event) => NewServiceIds(s, e, exact);
    forall s, e | inv(s) && Enabled(s, e) && assumed(s, e)
      ensures inv(Step(s, e))
    {
      StepServicesKnown(s, e, exact);
    }
    Invariant(inv, assumed, Init(options), events, s);
  }

  /**
   * A client that knew every service still does after a batch exactly if the batch is complete and none
   * of its ids is taken by another service, or if the services before its first incomplete one are none,
   * or none with a free id.
   */
  lemma PartialBatch(s: Server, infos: seq<ServiceInfo>, h: Handle)
    requires |infos| <= TWO32 && h in s.clients
    requires ServiceView(MailOf(s.mail, h).notices) == s.services.table
    ensures var t := AddServices(s, infos);
            ServiceView(MailOf(t.mail, h).notices) == t.services.table <==> GoodBatch(s, infos, true)
  {
    hide AddServices, ServiceView, GoodBatch;
    BatchExactly(s, infos, h);
  }

  // ----- Runs that add fewer than 2^32 of each

  /** A batch of services that is stored and announced as a whole, or not at all. */
  predicate Whole(infos: seq<ServiceInfo>) {
    infos == [] || !Complete(infos[0]) || AllComplete(infos)
  }

  /** The counters do not go round, and no removal in flight names an id that is only now issued. */
  ghost predicate Unwrapped(s: Server, e: Event) {
    && (e.AddChannelsEvent? ==>
          && s.channels.next + |e.channels| < TWO32
          && forall i :: i in Pending(s.removals) ==> i <= s.channels.next || i > s.channels.next + |e.channels|)
    && (e.AddServicesEvent? ==> s.services.next + |e.services| < TWO32)
  }

  ghost predicate BothIssued(s: Server) {
    Issued(s.channels) && Issued(s.services)
  }

  lemma UnwrappedChannels(s: Server, e: Event)
    requires BothIssued(s) && Unwrapped(s, e) && e.AddChannelsEvent?
    ensures NewChannelIds(s, e) && BothIssued(AddChannels(s, e.channels))
  {
    hide IdAt, AddAll, AllNoticed, Pending;
    IssuedBelow(s.channels, e.channels);
  }

  lemma UnwrappedServices(s: Server, e: Event)
    requires BothIssued(s) && Unwrapped(s, e) && e.AddServicesEvent?
    ensures NewServiceIds(s, e, Whole(e.services)) && BothIssued(AddServices(s, e.services))
  {
    hide IdAt, AddAll, AllNoticed;
    var infos := e.services;
    ValidPrefixOf(infos);
    IssuedBelow(s.services, infos);
    IssuedBelow(s.services, ValidPrefix(infos));
  }

  lemma StepUnwrapped(s: Server, e: Event)
    requires BothIssued(s) && Enabled(s, e) && Unwrapped(s, e)
    ensures BothIssued(Step(s, e)) && NewChannelIds(s, e)
    ensures NewServiceIds(s, e, e.AddServicesEvent? && Whole(e.services))
  {
    hide IsOrdering, AddChannels, AddServices, Present, FreeChannelIds, GoodBatch, Whole, Open;
    if e.AddChannelsEvent? {
      UnwrappedChannels(s, e);
    } else if e.AddServicesEvent? {
      UnwrappedServices(s, e);
    } else if e.RemoveChannelsBeginEvent? || e.RemoveServicesEvent? {
    } else {
      hide Step;
      StepFrame(s, e);
      assert Step(s, e).channels == s.channels && Step(s, e).services == s.services;
    }
  }

  /** Then no id is ever taken, and the two theorems above apply. */
  lemma {:induction false} UnwrappedRuns(s: Server, events: seq<Event>, t: Server, exact: bool)
    requires BothIssued(s) && Runs(Unwrapped, s, events, t)
    requires exact ==> forall e :: e in events && e.AddServicesEvent? ==> Whole(e.services)
    ensures Runs(NewChannelIds, s, events, t)
    ensures Runs((s, e) => NewServiceIds(s, e, exact), s, events, t)
    decreases |events|
  {
    hide Enabled, Step, BothIssued, Unwrapped, NewChannelIds, Whole, GoodBatch;
    if events != [] {
      StepUnwrapped(s, events[0]);
      InexactIsWeaker(s, events[0], exact);
      UnwrappedRuns(Step(s, events[0]), events[1..], t, exact);
    }
  }

  lemma InexactIsWeaker(s: Server, e: Event, exact: bool)
    requires NewServiceIds(s, e, e.AddServicesEvent? && Whole(e.services))
    requires exact && e.AddServicesEvent? ==> Whole(e.services)
    ensures NewServiceIds(s, e, exact)
  {
    hide Whole, AllComplete, NoClash;
  }

  /** While the counters have not gone round: clients know the channels, and, short of a partial batch, the services. */
  lemma ClientsKnowBeforeWrapAround(options: Options, events: seq<Event>, s: Server, exact: bool, h: Handle)
    requires Runs(Unwrapped, Init(options), events, s) && h in s.clients
    requires exact ==> forall e :: e in events && e.AddServicesEvent? ==> Whole(e.services)
    ensures ChannelView(MailOf(s.mail, h).notices) - Pending(s.removals) == s.channels.table
    ensures Within(ServiceView(MailOf(s.mail, h).notices), s.services.table)
    ensures exact ==> ServiceView(MailOf(s.mail, h).notices) == s.services.table
  {
    hide Runs;
    UnwrappedRuns(Init(options), events, s, exact);
    ClientsKnowTheChannels(options, events, s);
    ClientsKnowTheServices(options, events, s, exact);
  }
}
