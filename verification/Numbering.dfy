/** How a catalogue numbers, stores and announces new entries, also when its 32-bit counter wraps around. */
module Numbering {
  import opened Bytes
  import opened Orderings
  import opened Session

  /** What a list of numbered entries leaves behind; a later entry replaces an earlier one. */
  function Entries<T>(xs: seq<(u32, T)>): map<u32, T> {
    if xs == [] then map[] else map[xs[0].0 := xs[0].1] + Entries(xs[1..])
  }

  lemma {:induction false} EntriesOfListing<T>(order: seq<u32>, table: map<u32, T>)
    requires forall i :: i in order ==> i in table
    ensures forall i :: i in Entries(Listing(order, table)) <==> i in order
    ensures forall i :: i in order ==> Entries(Listing(order, table))[i] == table[i]
    decreases |order|
  {
    if order != [] {
      EntriesOfListing(order[1..], table);
      assert Listing(order, table)[1..] == Listing(order[1..], table);
      assert forall i :: i in order <==> i == order[0] || i in order[1..];
    }
  }

  lemma WelcomeIsComplete<T>(order: seq<u32>, table: map<u32, T>)
    requires IsOrdering(order, table.Keys)
    ensures Entries(Listing(order, table)) == table
  {
    EntriesOfListing(order, table);
    assert Entries(Listing(order, table)).Keys == table.Keys;
  }

  // ----- Ids

  /** The id of the entry that is added after `k` others. */
  function IdAt(next: u32, k: nat): u32 {
    (next + 1 + k) % TWO32
  }

  function Numbered<T>(infos: seq<T>, next: u32): seq<(u32, T)> {
    seq(|infos|, k requires 0 <= k < |infos| => (IdAt(next, k), infos[k]))
  }

  lemma IdAfter(next: u32, k: nat)
    ensures IdAt(IdAt(next, 0), k) == IdAt(next, k + 1)
  {
    var q := if next + 1 < TWO32 then 0 else 1;
    DivMod(next + 1, TWO32, q, next + 1 - TWO32 * q);
    var x: int, y: int := IdAt(next, 0) + 1 + k, next + 2 + k;
    assert y == x + TWO32 * q;
    DivMod(y, TWO32, x / TWO32 + q, x % TWO32);
  }

  /** No id comes again before the counter has gone round. */
  lemma IdsDiffer(next: u32, j: nat, k: nat)
    requires j < k < j + TWO32
    ensures IdAt(next, j) != IdAt(next, k)
  {
    var x: int, d: int := next + 1 + j, k - j;
    var q, r := x / TWO32, x % TWO32;
    if r + d < TWO32 {
      DivMod(x + d, TWO32, q, r + d);
    } else {
      DivMod(x + d, TWO32, q + 1, r + d - TWO32);
    }
  }

  lemma IdsAreDistinct<T>(infos: seq<T>, next: u32)
    requires |infos| <= TWO32
    ensures Distinct(IdsOf(Numbered(infos, next)))
  {
    hide IdAt;
    forall j, k | 0 <= j < k < |infos|
      ensures IdAt(next, j) != IdAt(next, k)
    {
      IdsDiffer(next, j, k);
    }
  }

  // ----- What is stored and what is announced

  /** Storing entries one after the other, each only if its id is not taken. */
  function Emplaced<T>(table: map<u32, T>, news: seq<(u32, T)>): map<u32, T>
    decreases |news|
  {
    if news == [] then table
    else Emplaced(if news[0].0 in table then table else table[news[0].0 := news[0].1], news[1..])
  }

  lemma NumberedFirst<T>(infos: seq<T>, next: u32)
    ensures infos != [] ==>
              Numbered(infos, next) == [(IdAt(next, 0), infos[0])] + Numbered(infos[1..], IdAt(next, 0))
  {
    hide IdAt;
    forall k | 0 < k < |infos|
      ensures Numbered(infos, next)[k] == Numbered(infos[1..], IdAt(next, 0))[k - 1]
    {
      IdAfter(next, k - 1);
    }
  }

  /** Adding announces every entry under the id that follows the counter, and stores it unless the id is taken. */
  lemma {:induction false} AddAllNumbers<T>(infos: seq<T>, a: Adding<T>)
    ensures var r, news := AddAll(infos, a), Numbered(infos, a.catalogue.next);
            r.added == a.added + news && r.catalogue.table == Emplaced(a.catalogue.table, news)
    ensures AddAll(infos, a).catalogue.next
            == if infos == [] then a.catalogue.next else IdAt(a.catalogue.next, |infos| - 1)
    decreases |infos|
  {
    hide IdAt, Numbered;
    var c := a.catalogue;
    if infos == [] {
      assert a.added + Numbered(infos, c.next) == a.added by { NumberedNone(infos, c.next); }
    } else {
      var b, rest := AddOne(infos[0], a), Numbered(infos[1..], IdAt(c.next, 0));
      NumberedFirst(infos, c.next);
      AddOneNumbers(infos[0], a);
      AddAllNumbers(infos[1..], b);
      if |infos| > 1 {
        IdAfter(c.next, |infos| - 2);
      }
      assert a.added + [(IdAt(c.next, 0), infos[0])] + rest == a.added + ([(IdAt(c.next, 0), infos[0])] + rest);
      EmplacedFirst(c.table, (IdAt(c.next, 0), infos[0]), rest);
    }
  }

  lemma NumberedNone<T>(infos: seq<T>, next: u32)
    requires infos == []
    ensures Numbered(infos, next) == []
  {
  }

  lemma AddOneNumbers<T>(info: T, a: Adding<T>)
    ensures var c, id := a.catalogue, IdAt(a.catalogue.next, 0);
            AddOne(info, a)
            == Adding(Catalogue(if id in c.table then c.table else c.table[id := info], id), a.added + [(id, info)])
  {
  }

  lemma EmplacedFirst<T>(table: map<u32, T>, first: (u32, T), rest: seq<(u32, T)>)
    ensures Emplaced(table, [first] + rest)
            == Emplaced(if first.0 in table then table else table[first.0 := first.1], rest)
  {
    assert ([first] + rest)[1..] == rest;
  }

  lemma TailDistinct<T>(news: seq<(u32, T)>)
    requires news != [] && Distinct(IdsOf(news))
    ensures Distinct(IdsOf(news[1..])) && news[0].0 !in IdsOf(news[1..])
    ensures forall i :: i in IdsOf(news) <==> i == news[0].0 || i in IdsOf(news[1..])
  {
    hide IdsOf;
    IdsFirst(news);
    DistinctTail(IdsOf(news));
  }

  lemma DistinctTail<T>(xs: seq<T>)
    requires xs != [] && Distinct(xs)
    ensures Distinct(xs[1..]) && xs[0] !in xs[1..]
    ensures forall x :: x in xs <==> x == xs[0] || x in xs[1..]
  {
  }

  /** With distinct ids, what is stored under an id is what was there, or else the new entry. */
  lemma {:induction false} EmplacedAt<T>(table: map<u32, T>, news: seq<(u32, T)>)
    requires Distinct(IdsOf(news))
    ensures Emplaced(table, news) == Entries(news) + table
    decreases |news|
  {
    hide IdsOf;
    if news == [] {
      assert map[] + table == table;
    } else {
      TailDistinct(news);
      var next := if news[0].0 in table then table else table[news[0].0 := news[0].1];
      EmplacedAt(next, news[1..]);
      EntriesIds(news[1..]);
      InsertLast(table, news[0].0, news[0].1, Entries(news[1..]));
    }
  }

  lemma InsertLast<T>(m: map<u32, T>, i: u32, x: T, more: map<u32, T>)
    requires i !in more
    ensures more + (if i in m then m else m[i := x]) == (map[i := x] + more) + m
  {
  }

  lemma {:induction false} EntriesIds<T>(news: seq<(u32, T)>)
    ensures forall i :: i in Entries(news) <==> i in IdsOf(news)
    decreases |news|
  {
    hide IdsOf;
    if news != [] {
      EntriesIds(news[1..]);
      IdsFirst(news);
    } else {
      assert IdsOf(news) == [] by { NoIds(news); }
    }
  }

  lemma IdsFirst<T>(news: seq<(u32, T)>)
    requires news != []
    ensures IdsOf(news) == [news[0].0] + IdsOf(news[1..])
  {
  }

  lemma NoIds<T>(news: seq<(u32, T)>)
    requires news == []
    ensures IdsOf(news) == []
  {
  }

  lemma {:induction false} EntryAt<T>(news: seq<(u32, T)>, k: nat)
    requires Distinct(IdsOf(news)) && k < |news|
    ensures news[k].0 in Entries(news) && Entries(news)[news[k].0] == news[k].1
    decreases |news|
  {
    hide IdsOf;
    TailDistinct(news);
    EntriesIds(news[1..]);
    if k > 0 {
      EntryAt(news[1..], k - 1);
    }
  }

  /** Whatever is under one of the new ids already is the same entry. */
  ghost predicate NoClash<T>(table: map<u32, T>, infos: seq<T>, next: u32) {
    forall k :: 0 <= k < |infos| && IdAt(next, k) in table ==> table[IdAt(next, k)] == infos[k]
  }

  /** What the new entries are known by, id by id. */
  lemma NewEntries<T>(infos: seq<T>, next: u32)
    requires |infos| <= TWO32
    ensures var news := Entries(Numbered(infos, next));
            && (forall k :: 0 <= k < |infos| ==> IdAt(next, k) in news && news[IdAt(next, k)] == infos[k])
            && (forall i :: i in news ==> exists k :: 0 <= k < |infos| && i == IdAt(next, k))
  {
    hide IdAt, Entries;
    var all := Numbered(infos, next);
    IdsAreDistinct(infos, next);
    EntriesIds(all);
    forall k | 0 <= k < |infos|
      ensures IdAt(next, k) in Entries(all) && Entries(all)[IdAt(next, k)] == infos[k]
    {
      EntryAt(all, k);
    }
  }

  /**
   * A batch of at most 2^32 entries is stored as it is announced exactly if none of its ids is taken
   * by another entry.
   */
  lemma StoredAsAnnounced<T>(table: map<u32, T>, infos: seq<T>, next: u32)
    requires |infos| <= TWO32
    ensures Emplaced(table, Numbered(infos, next)) == table + Entries(Numbered(infos, next))
            <==> NoClash(table, infos, next)
  {
    hide IdAt, Entries, Numbered, Emplaced, IdsOf;
    var news := Entries(Numbered(infos, next));
    IdsAreDistinct(infos, next);
    EmplacedAt(table, Numbered(infos, next));
    NewEntries(infos, next);
    if NoClash(table, infos, next) {
      forall i | i in news && i in table
        ensures news[i] == table[i]
      {
        var k :| 0 <= k < |infos| && i == IdAt(next, k);
      }
      assert news + table == table + news;
    } else {
      var k :| 0 <= k < |infos| && IdAt(next, k) in table && table[IdAt(next, k)] != infos[k];
      assert (news + table)[IdAt(next, k)] != (table + news)[IdAt(next, k)];
    }
  }

  /**
   * Under ids that are free, each new entry is stored under its own id, in order, beside the entries
   * there were; and removing these ids again restores the table.
   */
  lemma AddThenErase<T>(c: Catalogue<T>, infos: seq<T>)
    requires |infos| <= TWO32 && forall k :: 0 <= k < |infos| ==> IdAt(c.next, k) !in c.table
    ensures var a := AddAll(infos, Adding(c, []));
            var ids, t := IdsOf(a.added), a.catalogue;
            && |ids| == |infos| && Distinct(ids)
            && (forall k :: 0 <= k < |ids| ==> ids[k] !in c.table && ids[k] in t.table && t.table[ids[k]] == infos[k])
            && (forall i :: i in c.table ==> i in t.table && t.table[i] == c.table[i])
            && Erase(t, ids).table == c.table
  {
    hide AddAll, Entries, Emplaced, IdAt;
    var all, news := Numbered(infos, c.next), Entries(Numbered(infos, c.next));
    AddAllNumbers(infos, Adding(c, []));
    assert [] + all == all;
    IdsAreDistinct(infos, c.next);
    NewEntries(infos, c.next);
    EntriesIds(all);
    EmplacedAt(c.table, all);
    MinusIds(c.table, news, IdsOf(all));
  }

  lemma MinusIds<T>(m: map<u32, T>, news: map<u32, T>, ids: seq<u32>)
    requires news.Keys !! m.Keys && forall i :: i in ids <==> i in news
    ensures (news + m) - (set i | i in ids) == m
  {
  }

  // ----- Counters that have not gone round

  /** Every key of the table has been issued. */
  ghost predicate Issued<T>(c: Catalogue<T>) {
    forall i :: i in c.table ==> i <= c.next
  }

  lemma BeforeWrap(next: u32, k: nat)
    requires next + 1 + k < TWO32
    ensures IdAt(next, k) == next + 1 + k
  {
    DivMod(next + 1 + k, TWO32, 0, next + 1 + k);
  }

  /** While the counter has not gone round, no new id is taken. */
  lemma IssuedBelow<T>(c: Catalogue<T>, infos: seq<T>)
    requires Issued(c) && c.next + |infos| < TWO32
    ensures forall k :: 0 <= k < |infos| ==> IdAt(c.next, k) == c.next + 1 + k && IdAt(c.next, k) !in c.table
    ensures Issued(AddAll(infos, Adding(c, [])).catalogue)
    ensures AddAll(infos, Adding(c, [])).catalogue.next == c.next + |infos|
  {
    hide IdAt, AddAll, Entries, Emplaced;
    forall k | 0 <= k < |infos|
      ensures IdAt(c.next, k) == c.next + 1 + k
    {
      BeforeWrap(c.next, k);
    }
    AddAllNumbers(infos, Adding(c, []));
    IdsAreDistinct(infos, c.next);
    NewEntries(infos, c.next);
    EmplacedAt(c.table, Numbered(infos, c.next));
  }
}
