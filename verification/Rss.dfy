// Feeds: folding fetched items into history, delivering them, pruning.
module Rss {
  import opened Basics
  import opened ShortIds

  // A guid, known by its rank among all guids; only their order matters.
  datatype Guid = Guid(rank: int)
  type Target = nat

  const DAY: int := 86400
  const HISTORY_KEEP: nat := 10
  const MAX_BROADCAST: nat := 25
  const NEW_SUB_ITEMS: nat := 5
  const MAX_ERRORS: nat := 100

  // A fetched entry; passes says whether its title matches the feed's pattern.
  datatype Entry = Entry(guid: Guid, time: int, passes: bool)

  datatype Item = Item(id: string, time: int, updated: int)

  type History = map<Guid, Item>

  // What a subscription has been marked with, and what it was sent, in order.
  datatype Sub = Sub(received: set<Guid>, sent: seq<Guid>)

  // Wait is the time until the next fetch, if one is scheduled.
  datatype Feed = Feed(history: History, subs: map<Target, Sub>, tries: nat, errors: nat, stopped: bool,
                       refresh: nat, wait: Option<nat>)

  // How a fetch ended: no page, a page that does not parse, or its entries.
  datatype Fetch = Failed | Unparsed | Parsed(items: seq<Entry>)

  type Feeds = map<string, Feed>

  // --- ids ------------------------------------------------------------------------------

  function Ids(h: History): set<string> {
    set g | g in h :: h[g].id
  }

  function LiveIds(feeds: Feeds): set<string> {
    set u, g | u in feeds && g in feeds[u].history :: feeds[u].history[g].id
  }

  predicate Has(feeds: Feeds, u: string, g: Guid) {
    u in feeds && g in feeds[u].history
  }

  // No two live items share an id.
  ghost predicate UniqueIds(feeds: Feeds) {
    forall u, g, v, k :: Has(feeds, u, g) && Has(feeds, v, k) && feeds[u].history[g].id == feeds[v].history[k].id ==>
                           u == v && g == k
  }

  // --- merging --------------------------------------------------------------------------

  function Passing(items: seq<Entry>): set<Guid> {
    set i | 0 <= i < |items| && items[i].passes :: items[i].guid
  }

  // History after a fetch: what passes is in, what was there is marked as seen again if
  // it passed, and is otherwise untouched.
  ghost predicate Merged(h: History, items: seq<Entry>, now: int, h': History) {
    && h'.Keys == h.Keys + Passing(items)
    && (forall g :: g in h ==> h'[g] == if g in Passing(items) then h[g].(updated := now) else h[g])
    && (forall g :: g in h' && g !in h ==> h'[g].updated == now && h'[g].time == FirstTime(items, g))
  }

  // The time of the first entry of a guid that passes.
  function FirstTime(items: seq<Entry>, g: Guid): int {
    if items == [] then 0
    else
      var init, e := items[..|items| - 1], items[|items| - 1];
      if g in Passing(init) then FirstTime(init, g) else e.time
  }

  lemma MergedNone(h: History, now: int)
    ensures Merged(h, [], now, h)
  {
    assert Passing([]) == {};
  }

  lemma MergedSkip(h: History, items: seq<Entry>, e: Entry, now: int, h': History)
    requires Merged(h, items, now, h') && !e.passes
    ensures Merged(h, items + [e], now, h')
  {
    PassingMore(items, e);
    FirstMore(items, e);
  }

  lemma FirstMore(items: seq<Entry>, e: Entry)
    ensures forall g :: g in Passing(items) ==> FirstTime(items + [e], g) == FirstTime(items, g)
    ensures e.guid !in Passing(items) ==> FirstTime(items + [e], e.guid) == e.time
  {
    assert (items + [e])[..|items|] == items;
  }

  lemma PassingMore(items: seq<Entry>, e: Entry)
    ensures Passing(items + [e]) == Passing(items) + (if e.passes then {e.guid} else {})
  {
    var more := items + [e];
    assert more[|items|] == e;
    forall i | 0 <= i < |items| ensures more[i] == items[i] {}
  }

  lemma MergedSeen(h: History, items: seq<Entry>, e: Entry, now: int, h': History)
    requires Merged(h, items, now, h') && e.passes && e.guid in h'
    ensures Merged(h, items + [e], now, h'[e.guid := h'[e.guid].(updated := now)])
  {
    PassingMore(items, e);
    FirstMore(items, e);
  }

  lemma MergedNew(h: History, items: seq<Entry>, e: Entry, now: int, h': History, id: string)
    requires Merged(h, items, now, h') && e.passes && e.guid !in h'
    ensures Merged(h, items + [e], now, h'[e.guid := Item(id, e.time, now)])
  {
    PassingMore(items, e);
    FirstMore(items, e);
  }

  // --- delivering -----------------------------------------------------------------------

  predicate Newer(h: History, a: Guid, b: Guid)
    requires a in h && b in h
  {
    h[a].time > h[b].time || (h[a].time == h[b].time && a.rank < b.rank)
  }

  // All of history, newest first.
  ghost predicate NewestFirst(h: History, guids: seq<Guid>) {
    Ranked(h, guids) && forall g :: g in guids <==> g in h
  }

  ghost predicate Ranked(h: History, guids: seq<Guid>) {
    && (forall g :: g in guids ==> g in h)
    && (forall i, j :: 0 <= i < j < |guids| ==> Newer(h, guids[i], guids[j]))
  }

  lemma RankedNone(h: History)
    ensures Ranked(h, [])
  {}

  function Unseen(guids: seq<Guid>, received: set<Guid>): seq<Guid> {
    if guids == [] then []
    else Unseen(guids[..|guids| - 1], received)
         + (if guids[|guids| - 1] in received then [] else [guids[|guids| - 1]])
  }

  function Cap(sub: Sub): nat {
    if sub.received == {} then NEW_SUB_ITEMS else MAX_BROADCAST
  }

  function First(s: seq<Guid>, n: nat): seq<Guid> {
    if |s| <= n then s else s[..n]
  }

  function Due(sub: Sub, guids: seq<Guid>): seq<Guid> {
    Reverse(First(Unseen(guids, sub.received), Cap(sub)))
  }

  // Everything unseen is marked, the newest of it is sent, and marks without an item go.
  function Served(sub: Sub, guids: seq<Guid>, live: set<Guid>): Sub {
    Sub((sub.received + All(Unseen(guids, sub.received))) * live, sub.sent + Due(sub, guids))
  }

  function All(s: seq<Guid>): set<Guid> {
    set g | g in s
  }

  lemma {:induction false} UnseenAre(guids: seq<Guid>, received: set<Guid>)
    ensures forall g :: g in Unseen(guids, received) <==> g in guids && g !in received
  {
    if guids != [] {
      var init, last := guids[..|guids| - 1], guids[|guids| - 1];
      UnseenAre(init, received);
      assert guids == init + [last];
    }
  }

  // After a delivery a subscription is marked with all of history.
  lemma ServedMarks(sub: Sub, guids: seq<Guid>, h: History)
    requires NewestFirst(h, guids)
    ensures Served(sub, guids, h.Keys).received == h.Keys
  {
    UnseenAre(guids, sub.received);
    forall g | g in h ensures g in Served(sub, guids, h.Keys).received { assert g in guids; }
  }

  // --- pruning --------------------------------------------------------------------------

  predicate Stale(it: Item, now: int) {
    now - it.updated > DAY
  }

  function Pruned(f: Feed, now: int): Feed {
    if |f.history| <= HISTORY_KEEP then f
    else
      var gone := set g | g in f.history && Stale(f.history[g], now);
      f.(history := f.history - gone, subs := map t | t in f.subs :: Sub(f.subs[t].received - gone, f.subs[t].sent))
  }

  // --- a whole fetch ----------------------------------------------------------------------

  // Three retries a minute apart, then one after an hour.
  function AfterFailure(f: Feed): Feed {
    if f.tries + 1 > 3 then f.(tries := 0, wait := Some(3600)) else f.(tries := f.tries + 1, wait := Some(60))
  }

  function AfterGarbage(f: Feed): Feed {
    if f.errors + 1 > MAX_ERRORS then f.(tries := 0, errors := f.errors + 1, stopped := true, wait := None)
    else f.(tries := 0, errors := f.errors + 1, wait := Some(60 * f.refresh))
  }

  // A parsed page, merged at time now and pruned at time later.
  ghost predicate AfterPage(f: Feed, items: seq<Entry>, now: int, later: int, f': Feed) {
    exists h, guids :: Merged(f.history, items, now, h) && NewestFirst(h, guids)
                       && f' == Paged(f, h, guids, later)
  }

  function Paged(f: Feed, h: History, guids: seq<Guid>, later: int): Feed {
    var m := f.(history := h);
    (if |h| > |f.history| then Pruned(Delivered(m, guids), later) else m).(tries := 0, errors := 0, wait := Some(60 * f.refresh))
  }

  ghost predicate Fetched(f: Feed, r: Fetch, now: int, later: int, f': Feed) {
    match r
    case Failed => f' == AfterFailure(f)
    case Unparsed => f' == AfterGarbage(f)
    case Parsed(items) => AfterPage(f, items, now, later, f')
  }

  // --- the module -----------------------------------------------------------------------

  class Rss {
    var feeds: Feeds
    const ids: IdAlloc

    ghost predicate Valid()
      reads this
    {
      UniqueIds(feeds)
    }

    constructor (stored: Feeds, counter: nat)
      requires UniqueIds(stored)
      ensures Valid() && feeds == stored && fresh(ids)
    {
      feeds := stored;
      ids := new IdAlloc(counter);
    }

    // There are ids for all the new entries; with fewer the search for one would not end.
    ghost predicate Room(url: string, items: seq<Entry>)
      reads this, ids
    {
      url in feeds ==> Enough(items, feeds[url].history, LiveIds(feeds), ids.max)
    }

    // Fold one entry in; a new item gets an id no live item has.
    method MergeEntry(url: string, e: Entry, now: int) returns (added: bool)
      requires Valid() && url in feeds
      requires e.passes && e.guid !in feeds[url].history ==> Ends(LiveIds(feeds), ids.max)
      modifies this, ids
      ensures Valid() && feeds.Keys == old(feeds).Keys
      ensures feeds == old(feeds)[url := old(feeds)[url].(history := feeds[url].history)]
      ensures Folded(old(feeds)[url].history, e, now, feeds[url].history)
      ensures added == (e.passes && e.guid !in old(feeds)[url].history)
      ensures Handed(LiveIds(old(feeds)), old(ids.max), added, LiveIds(feeds), ids.max)
    {
      hide UniqueIds, LiveIds, FirstFree, Ends;
      var h := feeds[url].history;
      added := false;
      if !e.passes {
        return;
      }
      if e.guid in h {
        SeenUnique(feeds, url, e.guid, now);
        feeds := feeds[url := feeds[url].(history := h[e.guid := h[e.guid].(updated := now)])];
        return;
      }
      var id;
      ghost var k;
      id, k := ids.Next(LiveIds(feeds));
      NewUnique(feeds, url, e.guid, Item(id, e.time, now));
      feeds := Added(feeds, url, e.guid, Item(id, e.time, now));
      added := true;
    }

    // Fold fetched entries in.
    method MergeItems(url: string, items: seq<Entry>, now: int) returns (added: nat)
      requires Valid() && url in feeds && Room(url, items)
      modifies this, ids
      ensures Valid() && feeds.Keys == old(feeds).Keys
      ensures Merged(old(feeds)[url].history, items, now, feeds[url].history)
      ensures feeds == old(feeds)[url := old(feeds)[url].(history := feeds[url].history)]
      ensures added == |feeds[url].history| - |old(feeds)[url].history|
    {
      hide Merged, UniqueIds, LiveIds, Folded, Handed, Enough;
      added := 0;
      MergedNone(feeds[url].history, now);
      for i := 0 to |items|
        invariant Valid() && url in feeds
        invariant Merged(old(feeds)[url].history, items[..i], now, feeds[url].history)
        invariant feeds == old(feeds)[url := old(feeds)[url].(history := feeds[url].history)]
        invariant added == |feeds[url].history| - |old(feeds)[url].history|
        invariant Enough(items, feeds[url].history, LiveIds(feeds), ids.max)
      {
        assert items[..i + 1] == items[..i] + [items[i]];
        ghost var h, used, max := feeds[url].history, LiveIds(feeds), ids.max;
        EnoughFor(items, i, h, used, max);
        var isNew := MergeEntry(url, items[i], now);
        FoldedMore(old(feeds)[url].history, items[..i], items[i], now, h, feeds[url].history);
        EnoughLeft(items, i, now, h, feeds[url].history, used, max, LiveIds(feeds), ids.max);
        if isNew { added := added + 1; }
      }
      assert items[..|items|] == items;
    }

    method InsertGuid(h: History, guids: seq<Guid>, g: Guid) returns (more: seq<Guid>)
      requires g in h && g !in guids && Ranked(h, guids)
      ensures Ranked(h, more) && forall x :: x in more <==> x in guids || x == g
    {
      var k := |guids|;
      while k > 0 && Newer(h, g, guids[k - 1])
        invariant 0 <= k <= |guids|
        invariant forall i :: k <= i < |guids| ==> Newer(h, g, guids[i])
      {
        k := k - 1;
      }
      Inserted(h, guids, g, k);
      more := Put(guids, g, k);
    }

    // History guids, newest first.
    method FeedGuids(h: History) returns (guids: seq<Guid>)
      ensures NewestFirst(h, guids)
    {
      hide Ranked;
      guids := [];
      var todo := h.Keys;
      RankedNone(h);
      while todo != {}
        invariant todo <= h.Keys && Ranked(h, guids)
        invariant forall g :: g in guids ==> g in h && g !in todo
        invariant forall g :: g in h && g !in todo ==> g in guids
      {
        var g :| g in todo;
        guids := InsertGuid(h, guids, g);
        todo := todo - {g};
      }
    }

    // Deliver to every subscription.
    method Broadcast(url: string) returns (ghost order: seq<Guid>)
      requires Valid() && url in feeds
      modifies this
      ensures Valid() && NewestFirst(old(feeds)[url].history, order)
      ensures feeds == old(feeds)[url := Delivered(old(feeds)[url], order)]
    {
      hide UniqueIds, NewestFirst, Served;
      var f := feeds[url];
      var guids := FeedGuids(f.history);
      order := guids;
      var todo, subs := f.subs.Keys, f.subs;
      while todo != {}
        invariant todo <= f.subs.Keys == subs.Keys
        invariant forall t :: t in subs ==> subs[t] == if t in todo then f.subs[t] else Served(f.subs[t], guids, f.history.Keys)
      {
        var t :| t in todo;
        subs := subs[t := Served(subs[t], guids, f.history.Keys)];
        todo := todo - {t};
      }
      assert subs == Delivered(f, guids).subs;
      SameHistory(feeds, url, f.(subs := subs));
      feeds := feeds[url := f.(subs := subs)];
    }

    method RemoveOldItems(url: string, now: int)
      requires Valid() && url in feeds
      modifies this
      ensures Valid() && feeds == old(feeds)[url := Pruned(old(feeds)[url], now)]
    {
      var f := feeds[url];
      if |f.history| <= HISTORY_KEEP {
        return;
      }
      var gone := set g | g in f.history && Stale(f.history[g], now);
      var f' := f.(history := f.history - gone,
                   subs := map t | t in f.subs :: Sub(f.subs[t].received - gone, f.subs[t].sent));
      LessUnique(feeds, url, f');
      feeds := feeds[url := f'];
    }

    // What a finished fetch does to its feed, if it still exists; other feeds are left alone.
    method FetchDone(url: string, r: Fetch, now: int, later: int)
      requires Valid() && (r.Parsed? ==> Room(url, r.items))
      modifies this, ids
      ensures Valid()
      ensures if url !in old(feeds) then feeds == old(feeds)
              else url in feeds && feeds == old(feeds)[url := feeds[url]] && Fetched(old(feeds)[url], r, now, later, feeds[url])
    {
      hide UniqueIds, LiveIds, Enough, AfterPage;
      if url !in feeds {
        return;
      }
      var f := feeds[url];
      match r
      case Failed =>
        SetFeed(url, if f.tries + 1 > 3 then f.(tries := 0, wait := Some(3600)) else f.(tries := f.tries + 1, wait := Some(60)));
      case Unparsed =>
        var g := f.(tries := 0, errors := f.errors + 1);
        SetFeed(url, if g.errors > MAX_ERRORS then g.(stopped := true, wait := None) else g.(wait := Some(60 * f.refresh)));
      case Parsed(items) =>
        PageDone(url, items, now, later);
    }

    // A page that parsed: merge it, and if it brought anything deliver and prune.
    method PageDone(url: string, items: seq<Entry>, now: int, later: int)
      requires Valid() && url in feeds && Room(url, items)
      modifies this, ids
      ensures Valid() && url in feeds && feeds == old(feeds)[url := feeds[url]]
      ensures AfterPage(old(feeds)[url], items, now, later, feeds[url])
    {
      hide UniqueIds, Merged, NewestFirst, Delivered, Pruned, LiveIds, Enough;
      ghost var f := feeds[url];
      var refresh := feeds[url].refresh;
      var added := MergeItems(url, items, now);
      ghost var h := feeds[url].history;
      ghost var guids := SomeOrder(h);
      if added > 0 {
        guids := Broadcast(url);
        RemoveOldItems(url, later);
      }
      PrunedKeeps(feeds[url], later);
      SetFeed(url, feeds[url].(tries := 0, errors := 0, wait := Some(60 * refresh)));
      assert feeds[url] == Paged(f, h, guids, later);
    }

    method SetFeed(url: string, f: Feed)
      requires Valid() && url in feeds && f.history == feeds[url].history
      modifies this
      ensures Valid() && feeds == old(feeds)[url := f]
    {
      SameHistory(feeds, url, f);
      feeds := feeds[url := f];
    }

    // A new subscription starts unmarked; the first one makes the feed.
    method AddFeed(url: string, t: Target, refresh: nat) returns (ok: bool)
      requires Valid()
      modifies this
      ensures Valid() && ok == !(url in old(feeds) && t in old(feeds)[url].subs)
      ensures feeds == Subscribed(old(feeds), url, t, refresh)
    {
      if url in feeds {
        if t in feeds[url].subs {
          return false;
        }
      } else {
        EmptyUnique(feeds, url, refresh);
        feeds := feeds[url := NewFeed(refresh)];
      }
      var f := feeds[url];
      SetFeed(url, f.(subs := f.subs[t := NEW_SUB]));
      ok := true;
    }

    // The last subscription to go takes the feed with it.
    method DelFeed(url: string, t: Target) returns (ok: bool)
      requires Valid()
      modifies this
      ensures Valid() && feeds == Unsubscribed(old(feeds), url, t)
      ensures ok == (url in old(feeds) && (t in old(feeds)[url].subs || old(feeds)[url].subs == map[]))
    {
      if url !in feeds {
        return false;
      }
      var f := feeds[url];
      if |f.subs| == 0 {
        DropFeed(url);
        return true;
      }
      if t !in f.subs {
        return false;
      }
      var subs := f.subs - {t};
      if |subs| == 0 {
        DropFeed(url);
      } else {
        SetFeed(url, f.(subs := subs));
      }
      return true;
    }

    method DropFeed(url: string)
      requires Valid()
      modifies this
      ensures Valid() && feeds == old(feeds) - {url}
    {
      feeds := feeds - {url};
    }

    // The item with a short id, wherever it is.
    method FindItem(id: string) returns (r: Option<(string, Guid)>)
      requires Valid()
      ensures r.None? <==> id !in LiveIds(feeds)
      ensures r.Some? ==> forall u, g :: u in feeds && g in feeds[u].history && feeds[u].history[g].id == id <==> (u, g) == r.value
    {
      var todo := feeds.Keys;
      while todo != {}
        invariant todo <= feeds.Keys
        invariant forall u :: u in feeds && u !in todo ==> id !in Ids(feeds[u].history)
      {
        var u :| u in todo;
        var h := feeds[u].history;
        if id in Ids(h) {
          var g :| g in h && h[g].id == id;
          return Some((u, g));
        }
        todo := todo - {u};
      }
      return None;
    }
  }

  const NEW_SUB := Sub({}, [])

  function NewFeed(refresh: nat): Feed {
    Feed(map[], map[], 0, 0, false, refresh, None)
  }

  function Subscribed(feeds: Feeds, url: string, t: Target, refresh: nat): Feeds {
    var f := if url in feeds then feeds[url] else NewFeed(refresh);
    if t in f.subs then feeds else feeds[url := f.(subs := f.subs[t := NEW_SUB])]
  }

  function Unsubscribed(feeds: Feeds, url: string, t: Target): Feeds {
    if url !in feeds then feeds
    else
      var f := feeds[url];
      if f.subs.Keys <= {t} then feeds - {url}
      else if t in f.subs then feeds[url := f.(subs := f.subs - {t})]
      else feeds
  }

  lemma EmptyUnique(feeds: Feeds, url: string, refresh: nat)
    requires UniqueIds(feeds) && url !in feeds
    ensures UniqueIds(feeds[url := NewFeed(refresh)])
  {}

  function Delivered(f: Feed, guids: seq<Guid>): Feed {
    f.(subs := map t | t in f.subs :: Served(f.subs[t], guids, f.history.Keys))
  }

  lemma SeenUnique(feeds: Feeds, url: string, g: Guid, now: int)
    requires UniqueIds(feeds) && url in feeds && g in feeds[url].history
    ensures var h := feeds[url].history;
            var after := feeds[url := feeds[url].(history := h[g := h[g].(updated := now)])];
            UniqueIds(after) && LiveIds(after) == LiveIds(feeds)
  {
    var h := feeds[url].history;
    var after := feeds[url := feeds[url].(history := h[g := h[g].(updated := now)])];
    forall u, k ensures Has(after, u, k) <==> Has(feeds, u, k) {}
    forall u, k | Has(after, u, k) ensures after[u].history[k].id == feeds[u].history[k].id {}
    forall id ensures id in LiveIds(after) <==> id in LiveIds(feeds) { SameIds(feeds, after, id); }
  }

  lemma SameIds(a: Feeds, b: Feeds, id: string)
    requires forall u, k :: Has(a, u, k) <==> Has(b, u, k)
    requires forall u, k :: Has(a, u, k) && Has(b, u, k) ==> a[u].history[k].id == b[u].history[k].id
    ensures id in LiveIds(a) <==> id in LiveIds(b)
  {
    if id in LiveIds(a) {
      var u, k :| u in a && k in a[u].history && a[u].history[k].id == id;
      assert Has(a, u, k) && Has(b, u, k);
    }
    if id in LiveIds(b) {
      var u, k :| u in b && k in b[u].history && b[u].history[k].id == id;
      assert Has(b, u, k) && Has(a, u, k);
    }
  }

  ghost predicate Enough(items: seq<Entry>, h: History, used: set<string>, max: nat) {
    |Passing(items) - h.Keys| <= |Pool(used, max)|
  }

  // History after one entry.
  ghost predicate Folded(h: History, e: Entry, now: int, h': History) {
    if !e.passes then h' == h
    else if e.guid in h then h' == h[e.guid := h[e.guid].(updated := now)]
    else e.guid in h' && h' == h[e.guid := Item(h'[e.guid].id, e.time, now)]
  }

  // The ids in use and the counter, after an id was handed out or none was.
  ghost predicate Handed(used: set<string>, max: nat, added: bool, used': set<string>, max': nat) {
    if added then
      exists k: nat :: FirstFree(used, max, k) && used' == used + {Encode(Tried(max, k))} && max' == Tried(max, k + 1)
    else used' == used && max' == max
  }

  lemma FoldedMore(h0: History, items: seq<Entry>, e: Entry, now: int, h: History, h': History)
    requires Merged(h0, items, now, h) && Folded(h, e, now, h')
    ensures Merged(h0, items + [e], now, h')
    ensures |h'| == |h| + (if e.passes && e.guid !in h then 1 else 0)
  {
    hide Merged;
    if !e.passes {
      MergedSkip(h0, items, e, now, h);
    } else if e.guid in h {
      MergedSeen(h0, items, e, now, h);
      assert h'.Keys == h.Keys;
    } else {
      MergedNew(h0, items, e, now, h, h'[e.guid].id);
      assert h'.Keys == h.Keys + {e.guid};
    }
  }

  // An entry still to come finds an id.
  lemma EnoughFor(items: seq<Entry>, i: nat, h: History, used: set<string>, max: nat)
    requires i < |items| && Enough(items, h, used, max)
    ensures items[i].passes && items[i].guid !in h ==> Ends(used, max)
  {
    hide Pool, Ends;
    if items[i].passes && items[i].guid !in h { assert items[i].guid in Passing(items) - h.Keys; }
    PoolEnds(used, max);
  }

  lemma PassingHas(items: seq<Entry>, i: nat)
    requires i < |items|
    ensures items[i].passes ==> items[i].guid in Passing(items)
  {}

  // It takes one away, and is no longer to come.
  lemma EnoughLeft(items: seq<Entry>, i: nat, now: int, h: History, h': History,
                   used: set<string>, max: nat, used': set<string>, max': nat)
    requires i < |items| && Enough(items, h, used, max) && Folded(h, items[i], now, h')
    requires Handed(used, max, items[i].passes && items[i].guid !in h, used', max')
    ensures Enough(items, h', used', max')
  {
    hide Pool, Encode, FirstFree, Tried, Passing;
    var e := items[i];
    PassingHas(items, i);
    FoldedKeys(h, e, now, h');
    if e.passes && e.guid !in h {
      var k: nat :| FirstFree(used, max, k) && used' == used + {Encode(Tried(max, k))} && max' == Tried(max, k + 1);
      PoolSmaller(used, max, k);
      OneLess(Passing(items), h.Keys, e.guid);
    } else {
      assert h'.Keys == h.Keys;
    }
  }

  lemma FoldedKeys(h: History, e: Entry, now: int, h': History)
    requires Folded(h, e, now, h')
    ensures h'.Keys == if e.passes then h.Keys + {e.guid} else h.Keys
  {}

  lemma OneLess(all: set<Guid>, keys: set<Guid>, g: Guid)
    requires g in all && g !in keys
    ensures |all - (keys + {g})| == |all - keys| - 1
  {
    assert all - (keys + {g}) == (all - keys) - {g};
  }

  function Added(feeds: Feeds, url: string, g: Guid, it: Item): Feeds
    requires url in feeds
  {
    feeds[url := feeds[url].(history := feeds[url].history[g := it])]
  }

  lemma AddedHas(feeds: Feeds, url: string, g: Guid, it: Item, u: string, k: Guid)
    requires url in feeds && Has(Added(feeds, url, g, it), u, k)
    ensures if u == url && k == g then Added(feeds, url, g, it)[u].history[k] == it
            else Has(feeds, u, k) && Added(feeds, url, g, it)[u].history[k] == feeds[u].history[k]
  {}

  lemma LiveId(feeds: Feeds, u: string, g: Guid)
    requires Has(feeds, u, g)
    ensures feeds[u].history[g].id in LiveIds(feeds)
  {}

  lemma NewUnique(feeds: Feeds, url: string, g: Guid, it: Item)
    requires UniqueIds(feeds) && url in feeds && g !in feeds[url].history && it.id !in LiveIds(feeds)
    ensures UniqueIds(Added(feeds, url, g, it)) && LiveIds(Added(feeds, url, g, it)) == LiveIds(feeds) + {it.id}
  {
    NewIds(feeds, url, g, it);
    var after := Added(feeds, url, g, it);
    hide LiveIds, Added;
    forall u, x, v, k | Has(after, u, x) && Has(after, v, k) && after[u].history[x].id == after[v].history[k].id
      ensures u == v && x == k
    {
      AddedHas(feeds, url, g, it, u, x);
      AddedHas(feeds, url, g, it, v, k);
      if !(u == url && x == g) { LiveId(feeds, u, x); }
      if !(v == url && k == g) { LiveId(feeds, v, k); }
    }
  }

  lemma NewIds(feeds: Feeds, url: string, g: Guid, it: Item)
    requires url in feeds && g !in feeds[url].history
    ensures LiveIds(Added(feeds, url, g, it)) == LiveIds(feeds) + {it.id}
  {
    var after := Added(feeds, url, g, it);
    forall id | id in LiveIds(after) ensures id in LiveIds(feeds) + {it.id} {
      var u, k :| u in after && k in after[u].history && after[u].history[k].id == id;
      AddedHas(feeds, url, g, it, u, k);
    }
    forall id | id in LiveIds(feeds) + {it.id} ensures id in LiveIds(after) {
      if id in LiveIds(feeds) {
        var u, k :| u in feeds && k in feeds[u].history && feeds[u].history[k].id == id;
        assert Has(after, u, k) && after[u].history[k] == feeds[u].history[k];
        LiveId(after, u, k);
      } else {
        LiveId(after, url, g);
      }
    }
  }

  lemma SameHistory(feeds: Feeds, url: string, f: Feed)
    requires UniqueIds(feeds) && url in feeds && f.history == feeds[url].history
    ensures UniqueIds(feeds[url := f])
  {}

  lemma LessUnique(feeds: Feeds, url: string, f: Feed)
    requires UniqueIds(feeds) && url in feeds
    requires forall g :: g in f.history ==> g in feeds[url].history && f.history[g] == feeds[url].history[g]
    ensures UniqueIds(feeds[url := f])
  {}

  function Put(guids: seq<Guid>, g: Guid, k: nat): seq<Guid>
    requires k <= |guids|
  {
    guids[..k] + [g] + guids[k..]
  }

  lemma PutHas(guids: seq<Guid>, g: Guid, k: nat, x: Guid)
    requires k <= |guids|
    ensures x in Put(guids, g, k) <==> x in guids || x == g
  {
    assert guids == guids[..k] + guids[k..];
  }

  lemma Before(h: History, guids: seq<Guid>, g: Guid, k: nat, i: nat)
    requires g in h && g !in guids && k <= |guids| && Ranked(h, guids) && i < k && !Newer(h, g, guids[k - 1])
    ensures Newer(h, guids[i], g)
  {
    assert guids[k - 1] in guids;
    if i < k - 1 { assert Newer(h, guids[i], guids[k - 1]); }
  }

  lemma Inserted(h: History, guids: seq<Guid>, g: Guid, k: nat)
    requires g in h && g !in guids && k <= |guids| && Ranked(h, guids)
    requires forall i :: k <= i < |guids| ==> Newer(h, g, guids[i])
    requires k == 0 || !Newer(h, g, guids[k - 1])
    ensures Ranked(h, Put(guids, g, k)) && forall x :: x in Put(guids, g, k) <==> x in guids || x == g
  {
    var more := Put(guids, g, k);
    forall x ensures x in more <==> x in guids || x == g { PutHas(guids, g, k, x); }
    forall i, j | 0 <= i < j < |more| ensures Newer(h, more[i], more[j]) {
      var x := if i < k then guids[i] else if i == k then g else guids[i - 1];
      var y := if j < k then guids[j] else if j == k then g else guids[j - 1];
      assert more[i] == x && more[j] == y;
      hide Newer, Put;
      if j == k { Before(h, guids, g, k, i); }
    }
  }

  lemma PrunedKeeps(f: Feed, now: int)
    ensures Pruned(f, now).(tries := 0, errors := 0, wait := f.wait)
            == Pruned(f.(tries := 0, errors := 0), now)
  {}

  // Any history can be put in order.
  lemma SomeOrder(h: History) returns (guids: seq<Guid>)
    ensures NewestFirst(h, guids)
  {
    guids := [];
    var todo := h.Keys;
    while todo != {}
      invariant todo <= h.Keys && Ranked(h, guids)
      invariant forall g :: g in guids ==> g in h && g !in todo
      invariant forall g :: g in h && g !in todo ==> g in guids
    {
      var g :| g in todo;
      var k := |guids|;
      while k > 0 && Newer(h, g, guids[k - 1])
        invariant 0 <= k <= |guids|
        invariant forall i :: k <= i < |guids| ==> Newer(h, g, guids[i])
      {
        k := k - 1;
      }
      Inserted(h, guids, g, k);
      guids := Put(guids, g, k);
      todo := todo - {g};
    }
  }
}
