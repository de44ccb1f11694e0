// Whole runs of the feed module: who is sent what, and how often.
module RssRuns {
  import opened Basics
  import opened Rss

  datatype Event =
    | Done(url: string, r: Fetch, now: int, later: int)
    | Add(url: string, t: Target, refresh: nat)
    | Del(url: string, t: Target)

  ghost predicate Step(a: Feeds, e: Event, b: Feeds) {
    match e
    case Done(url, r, now, later) =>
      if url !in a then b == a
      else url in b && b == a[url := b[url]] && Fetched(a[url], r, now, later, b[url])
    case Add(url, t, refresh) => b == Subscribed(a, url, t, refresh)
    case Del(url, t) => b == Unsubscribed(a, url, t)
  }

  // A run: the feeds before and after each event.
  ghost predicate Legal(fs: seq<Feeds>, es: seq<Event>) {
    && |fs| == |es| + 1 && fs[0] == map[]
    && forall i :: 0 <= i < |es| ==> Step(fs[i], es[i], fs[i + 1])
  }

  function Times(s: seq<Guid>, g: Guid): nat {
    multiset(s)[g]
  }

  // Among different guids none comes twice.
  lemma {:induction false} TimesDistinct(s: seq<Guid>, g: Guid)
    requires forall i, j :: 0 <= i < j < |s| ==> s[i] != s[j]
    ensures Times(s, g) == if g in s then 1 else 0
  {
    if s != [] {
      var init, x := s[..|s| - 1], s[|s| - 1];
      assert s == init + [x];
      TimesDistinct(init, g);
    }
  }

  lemma {:induction false} UnseenDistinct(guids: seq<Guid>, received: set<Guid>)
    requires forall i, j :: 0 <= i < j < |guids| ==> guids[i] != guids[j]
    ensures forall i, j :: 0 <= i < j < |Unseen(guids, received)| ==> Unseen(guids, received)[i] != Unseen(guids, received)[j]
  {
    if guids != [] {
      var init := guids[..|guids| - 1];
      UnseenDistinct(init, received);
      UnseenAre(init, received);
      forall i | 0 <= i < |Unseen(init, received)| ensures Unseen(init, received)[i] != guids[|guids| - 1] {
        assert Unseen(init, received)[i] in init;
      }
    }
  }

  // A delivery brings g at most once, and not to a subscription marked with it.
  lemma DueOnce(sub: Sub, guids: seq<Guid>, h: History, g: Guid)
    requires NewestFirst(h, guids)
    ensures Times(Due(sub, guids), g) <= 1
    ensures g in sub.received || g !in h ==> Times(Due(sub, guids), g) == 0
  {
    forall i, j | 0 <= i < j < |guids| ensures guids[i] != guids[j] { assert Newer(h, guids[i], guids[j]); }
    var u := Unseen(guids, sub.received);
    UnseenDistinct(guids, sub.received);
    UnseenAre(guids, sub.received);
    var s := First(u, Cap(sub));
    TimesDistinct(s, g);
    ReverseMultiset(s);
    assert g in s ==> g in u;
  }

  lemma {:induction false} UnseenRanked(h: History, guids: seq<Guid>, received: set<Guid>)
    requires Ranked(h, guids)
    ensures Ranked(h, Unseen(guids, received))
  {
    if guids != [] {
      var init := guids[..|guids| - 1];
      assert Ranked(h, init) by { assert guids == init + [guids[|guids| - 1]]; }
      UnseenRanked(h, init, received);
      UnseenAre(init, received);
      forall i | 0 <= i < |Unseen(init, received)| ensures Newer(h, Unseen(init, received)[i], guids[|guids| - 1]) {
        assert Unseen(init, received)[i] in init;
      }
      assert guids[|guids| - 1] in guids;
    }
  }

  lemma ReverseHas(s: seq<Guid>, x: Guid)
    ensures x in Reverse(s) <==> x in s
  {
    if x in s {
      var i :| 0 <= i < |s| && s[i] == x;
      assert Reverse(s)[|s| - 1 - i] == x;
    }
  }

  // A delivery is of unseen items only, the oldest of them first, and of the newest ones
  // there are: all of them up to 25, or 5 if the subscription is not marked with anything.
  lemma DueIs(sub: Sub, guids: seq<Guid>, h: History)
    requires NewestFirst(h, guids)
    ensures var n, cap := |set g | g in h && g !in sub.received|, if sub.received == {} then 5 else 25;
            |Due(sub, guids)| == if n < cap then n else cap
    ensures forall g :: g in Due(sub, guids) ==> g in h && g !in sub.received
    ensures forall i, j :: 0 <= i < j < |Due(sub, guids)| ==>
              Due(sub, guids)[i] in h && Due(sub, guids)[j] in h && Newer(h, Due(sub, guids)[j], Due(sub, guids)[i])
    ensures forall g, x :: g in h && g !in sub.received && x in Due(sub, guids) && x in h && Newer(h, g, x) ==> g in Due(sub, guids)
  {
    DueCount(sub, guids, h);
    hide Unseen, Newer, Cap, First;
    var u := Unseen(guids, sub.received);
    var s := First(u, Cap(sub));
    UnseenRanked(h, guids, sub.received);
    UnseenAre(guids, sub.received);
    FirstPart(u, Cap(sub));
    assert Due(sub, guids) == Reverse(s);
    forall x ensures x in Reverse(s) <==> x in s { ReverseHas(s, x); }
    forall g, x | g in h && g !in sub.received && x in Due(sub, guids) && x in h && Newer(h, g, x) ensures g in Due(sub, guids) {
      RankedFirst(h, u, |s|, g, x);
    }
  }

  lemma DueCount(sub: Sub, guids: seq<Guid>, h: History)
    requires NewestFirst(h, guids)
    ensures var n, cap := |set g | g in h && g !in sub.received|, if sub.received == {} then 5 else 25;
            |Due(sub, guids)| == if n < cap then n else cap
  {
    UnseenCount(sub, guids, h);
    hide Unseen, NewestFirst;
  }

  lemma FirstPart(u: seq<Guid>, n: nat)
    ensures |First(u, n)| <= |u| && First(u, n) == u[..|First(u, n)|]
    ensures forall x :: x in First(u, n) ==> x in u
  {}

  // What goes before one of the first goes with them.
  lemma RankedFirst(h: History, u: seq<Guid>, n: nat, g: Guid, x: Guid)
    requires Ranked(h, u) && n <= |u| && g in u && x in u[..n] && Newer(h, g, x)
    ensures g in u[..n]
  {
    var i :| 0 <= i < n && u[i] == x;
    var j :| 0 <= j < |u| && u[j] == g;
    assert i < j ==> Newer(h, u[i], u[j]);
    if j < n { assert u[..n][j] == g; }
  }

  lemma UnseenCount(sub: Sub, guids: seq<Guid>, h: History)
    requires NewestFirst(h, guids)
    ensures |Unseen(guids, sub.received)| == |set g | g in h && g !in sub.received|
  {
    var u := Unseen(guids, sub.received);
    UnseenRanked(h, guids, sub.received);
    UnseenAre(guids, sub.received);
    forall i, j | 0 <= i < j < |u| ensures u[i] != u[j] { assert Newer(h, u[i], u[j]); }
    DistinctCount(u);
    assert All(u) == set g | g in h && g !in sub.received;
  }

  // --- one item --------------------------------------------------------------------------

  // While g is in history each subscription has had it at most once, and is marked if it
  // has; while it is not, no subscription has had it yet.
  ghost predicate OnceSo(f: Feed, g: Guid) {
    forall t :: t in f.subs ==> SubSo(f.subs[t], g, g in f.history)
  }

  ghost predicate SubSo(sub: Sub, g: Guid, seen: bool) {
    && Times(sub.sent, g) <= 1
    && (Times(sub.sent, g) == 1 ==> seen && g in sub.received)
    && (g in sub.received ==> seen)
  }

  lemma ServedSo(sub: Sub, guids: seq<Guid>, h: History, g: Guid)
    requires NewestFirst(h, guids) && SubSo(sub, g, g in h)
    ensures SubSo(Served(sub, guids, h.Keys), g, g in h)
  {
    DueOnce(sub, guids, h, g);
    ServedMarks(sub, guids, h);
  }

  // A page that brings g when it is already known, merged and pruned within a day.
  ghost predicate Brings(r: Fetch, g: Guid) {
    r.Parsed? && g in Passing(r.items)
  }

  lemma DeliveredSo(f: Feed, guids: seq<Guid>, g: Guid)
    requires NewestFirst(f.history, guids) && OnceSo(f, g)
    ensures OnceSo(Delivered(f, guids), g)
  {
    hide SubSo, Served, NewestFirst;
    forall t | t in f.subs ensures SubSo(Served(f.subs[t], guids, f.history.Keys), g, g in f.history) {
      ServedSo(f.subs[t], guids, f.history, g);
    }
  }

  lemma PrunedSo(f: Feed, now: int, g: Guid)
    requires OnceSo(f, g) && (g in f.history ==> now - f.history[g].updated <= DAY)
    ensures OnceSo(Pruned(f, now), g) && (g in Pruned(f, now).history <==> g in f.history)
  {}

  lemma PagedSo(f: Feed, items: seq<Entry>, now: int, later: int, h: History, guids: seq<Guid>, g: Guid)
    requires OnceSo(f, g) && Merged(f.history, items, now, h) && NewestFirst(h, guids)
    requires (g in f.history ==> g in Passing(items)) && later - now <= DAY
    ensures OnceSo(Paged(f, h, guids, later), g)
    ensures g in Paged(f, h, guids, later).history <==> g in Passing(items)
  {
    hide NewestFirst, Delivered, Pruned;
    var m := f.(history := h);
    assert OnceSo(m, g);
    assert Delivered(m, guids).history == h by { DeliveredHistory(m, guids); }
    DeliveredSo(m, guids, g);
    PrunedSo(Delivered(m, guids), later, g);
  }

  lemma DeliveredHistory(f: Feed, guids: seq<Guid>)
    ensures Delivered(f, guids).history == f.history
  {}

  lemma FetchedSo(f: Feed, r: Fetch, now: int, later: int, f': Feed, g: Guid)
    requires Fetched(f, r, now, later, f') && OnceSo(f, g)
    requires r.Parsed? ==> (g in f.history ==> Brings(r, g)) && later - now <= DAY
    ensures OnceSo(f', g) && (g in f'.history <==> g in f.history || Brings(r, g))
  {
    hide Merged, NewestFirst, Paged, OnceSo;
    match r
    case Failed => OnceAlike(f, f', g);
    case Unparsed => OnceAlike(f, f', g);
    case Parsed(items) =>
      var h, guids :| Merged(f.history, items, now, h) && NewestFirst(h, guids) && f' == Paged(f, h, guids, later);
      PagedSo(f, items, now, later, h, guids, g);
  }

  lemma OnceAlike(f: Feed, f': Feed, g: Guid)
    requires OnceSo(f, g) && f'.history == f.history && f'.subs == f.subs
    ensures OnceSo(f', g)
  {}

  // --- one page, exactly -------------------------------------------------------------------

  function AllOf(f: Feed, items: seq<Entry>): set<Guid> {
    f.history.Keys + Passing(items)
  }

  // Whether the page has anything new: only then is it delivered and the feed pruned.
  predicate News(f: Feed, items: seq<Entry>) {
    !(Passing(items) <= f.history.Keys)
  }

  function LastSeen(f: Feed, items: seq<Entry>, now: int, g: Guid): int {
    if g in Passing(items) || g !in f.history then now else f.history[g].updated
  }

  function TimeOf(f: Feed, items: seq<Entry>, g: Guid): int {
    if g in f.history then f.history[g].time else FirstTime(items, g)
  }

  // The page has news, the feed is above ten items, and this one was last seen over a day
  // before.
  predicate Drops(f: Feed, items: seq<Entry>, now: int, later: int, g: Guid) {
    News(f, items) && |AllOf(f, items)| > 10 && later - LastSeen(f, items, now, g) > 86400
  }

  predicate Earlier(f: Feed, items: seq<Entry>, a: Guid, b: Guid) {
    TimeOf(f, items, a) > TimeOf(f, items, b) || (TimeOf(f, items, a) == TimeOf(f, items, b) && a.rank < b.rank)
  }

  // The unmarked items that go before this one.
  function Ahead(f: Feed, items: seq<Entry>, sub: Sub, g: Guid): set<Guid> {
    set x | x in AllOf(f, items) && x !in sub.received && Earlier(f, items, x, g)
  }

  // The page has news, this item is unmarked, and the cap leaves room for it.
  predicate Sends(f: Feed, items: seq<Entry>, sub: Sub, g: Guid) {
    && News(f, items) && g in AllOf(f, items) && g !in sub.received
    && |Ahead(f, items, sub, g)| < if sub.received == {} then 5 else 25
  }

  lemma {:induction false} DistinctCount(s: seq<Guid>)
    requires forall i, j :: 0 <= i < j < |s| ==> s[i] != s[j]
    ensures |All(s)| == |s|
  {
    if s == [] {
      assert All(s) == {};
    } else {
      var init, x := s[..|s| - 1], s[|s| - 1];
      assert s == init + [x];
      DistinctCount(init);
      assert All(s) == All(init) + {x};
    }
  }

  // A ranked item is among the first n exactly if fewer than n go before it.
  lemma FirstCount(h: History, u: seq<Guid>, n: nat, g: Guid)
    requires Ranked(h, u) && g in u
    ensures g in First(u, n) <==> |set x | x in u && Newer(h, x, g)| < n
  {
    var p :| 0 <= p < |u| && u[p] == g;
    forall i, j | 0 <= i < j < |u| ensures u[i] != u[j] { assert Newer(h, u[i], u[j]); }
    DistinctCount(u[..p]);
    var before := set x | x in u && Newer(h, x, g);
    assert forall i :: p < i < |u| ==> Newer(h, u[p], u[i]);
    forall x ensures x in before <==> x in All(u[..p]) {
      if x in before {
        var i :| 0 <= i < |u| && u[i] == x;
      }
      if x in All(u[..p]) {
        var i :| 0 <= i < p && u[i] == x;
        assert Newer(h, u[i], u[p]);
      }
    }
    assert before == All(u[..p]);
    if g in First(u, n) && |u| > n {
      var i :| 0 <= i < n && u[i] == g;
      assert i == p;
    }
  }

  // What a merged history says, from the feed and the page alone.
  ghost predicate Matches(f: Feed, items: seq<Entry>, now: int, h: History) {
    && h.Keys == AllOf(f, items)
    && forall x :: x in h ==> h[x].time == TimeOf(f, items, x) && h[x].updated == LastSeen(f, items, now, x)
  }

  lemma MergedGrows(f: Feed, items: seq<Entry>, now: int, h: History)
    requires Merged(f.history, items, now, h)
    ensures |h| > |f.history| <==> News(f, items)
  {
    hide FirstTime;
    assert |h| == |h.Keys| && |f.history| == |f.history.Keys|;
    if News(f, items) {
      assert f.history.Keys < h.Keys;
      Smaller(f.history.Keys, h.Keys);
    } else {
      assert h.Keys == f.history.Keys;
    }
  }

  lemma MergedEach(f: Feed, items: seq<Entry>, now: int, h: History, x: Guid)
    requires Merged(f.history, items, now, h) && x in h
    ensures h[x].time == TimeOf(f, items, x) && h[x].updated == LastSeen(f, items, now, x)
  {
    hide FirstTime, Passing;
  }

  lemma MergedMatches(f: Feed, items: seq<Entry>, now: int, h: History)
    requires Merged(f.history, items, now, h)
    ensures Matches(f, items, now, h)
    ensures |h| > |f.history| <==> News(f, items)
  {
    hide FirstTime, News, TimeOf, LastSeen, Passing;
    MergedGrows(f, items, now, h);
    forall x | x in h ensures h[x].time == TimeOf(f, items, x) && h[x].updated == LastSeen(f, items, now, x) {
      MergedEach(f, items, now, h, x);
    }
  }

  lemma Smaller(a: set<Guid>, b: set<Guid>)
    requires a < b
    ensures |a| < |b|
  {
    assert b == a + (b - a) && b - a != {};
  }

  // An item is delivered exactly if it is unmarked and few enough unmarked ones go before it.
  lemma AheadIs(f: Feed, items: seq<Entry>, now: int, h: History, sub: Sub, u: seq<Guid>, g: Guid)
    requires Matches(f, items, now, h) && g in h
    requires forall x :: x in u <==> x in h && x !in sub.received
    ensures (set x | x in u && Newer(h, x, g)) == Ahead(f, items, sub, g)
  {
    hide AllOf, TimeOf, LastSeen;
  }

  lemma DueExactly(f: Feed, items: seq<Entry>, now: int, h: History, guids: seq<Guid>, sub: Sub, g: Guid)
    requires Matches(f, items, now, h) && NewestFirst(h, guids)
    ensures Times(Due(sub, guids), g)
            == if g in AllOf(f, items) && g !in sub.received && |Ahead(f, items, sub, g)| < Cap(sub) then 1 else 0
  {
    hide Cap;
    var u := Unseen(guids, sub.received);
    UnseenAre(guids, sub.received);
    UnseenRanked(h, guids, sub.received);
    forall i, j | 0 <= i < j < |u| ensures u[i] != u[j] { assert Newer(h, u[i], u[j]); }
    var s := First(u, Cap(sub));
    TimesDistinct(s, g);
    ReverseMultiset(s);
    if g in u {
      FirstCount(h, u, Cap(sub), g);
      AheadIs(f, items, now, h, sub, u, g);
    } else {
      assert g in s ==> g in u;
    }
  }

  // Everything a page does to a feed and to one of its subscriptions.
  ghost predicate PageDoes(f: Feed, items: seq<Entry>, now: int, later: int, t: Target, f': Feed)
    requires t in f.subs
  {
    && (forall x :: x in f'.history <==> x in AllOf(f, items) && !Drops(f, items, now, later, x))
    && (forall x :: x in f'.history ==> f'.history[x].updated == LastSeen(f, items, now, x))
    && t in f'.subs
    && f'.subs[t].received == (if News(f, items) then f'.history.Keys else f.subs[t].received)
    && forall g :: Times(f'.subs[t].sent, g) == Times(f.subs[t].sent, g) + (if Sends(f, items, f.subs[t], g) then 1 else 0)
  }

  lemma PageExactly(f: Feed, items: seq<Entry>, now: int, later: int, t: Target, f': Feed)
    requires AfterPage(f, items, now, later, f') && t in f.subs
    ensures PageDoes(f, items, now, later, t, f')
  {
    hide Merged, NewestFirst, Paged;
    var h, guids :| Merged(f.history, items, now, h) && NewestFirst(h, guids) && f' == Paged(f, h, guids, later);
    MergedMatches(f, items, now, h);
    PagedExactly(f, items, now, later, t, h, guids);
  }

  lemma PagedExactly(f: Feed, items: seq<Entry>, now: int, later: int, t: Target, h: History, guids: seq<Guid>)
    requires Matches(f, items, now, h) && (|h| > |f.history| <==> News(f, items)) && NewestFirst(h, guids) && t in f.subs
    ensures PageDoes(f, items, now, later, t, Paged(f, h, guids, later))
  {
    hide NewestFirst, Due, Times, Sends, News, Pruned, Delivered, Served, AllOf, LastSeen, TimeOf;
    var m, sub := f.(history := h), f.subs[t];
    ServedMarks(sub, guids, h);
    ServedSent(sub, guids, h.Keys);
    DeliveredIs(m, guids, t);
    PrunedIs(Delivered(m, guids), later, t);
    assert |h| == |h.Keys|;
    forall g ensures Times(Paged(f, h, guids, later).subs[t].sent, g)
                     == Times(sub.sent, g) + (if Sends(f, items, sub, g) then 1 else 0) {
      DueExactly(f, items, now, h, guids, sub, g);
      SentMore(sub, guids, f, items, g);
    }
  }

  lemma DeliveredIs(f: Feed, guids: seq<Guid>, t: Target)
    requires t in f.subs
    ensures var d := Delivered(f, guids);
            d.history == f.history && t in d.subs && d.subs[t] == Served(f.subs[t], guids, f.history.Keys)
  {
    hide Served;
  }

  lemma PrunedIs(f: Feed, now: int, t: Target)
    requires t in f.subs
    ensures var f' := Pruned(f, now);
            && (forall x :: x in f'.history <==> x in f.history && !(|f.history| > HISTORY_KEEP && Stale(f.history[x], now)))
            && (forall x :: x in f'.history ==> f'.history[x] == f.history[x])
            && t in f'.subs && f'.subs[t].sent == f.subs[t].sent
            && f'.subs[t].received
               == f.subs[t].received - (set x | x in f.history && |f.history| > HISTORY_KEEP && Stale(f.history[x], now))
  {}

  lemma SentMore(sub: Sub, guids: seq<Guid>, f: Feed, items: seq<Entry>, g: Guid)
    requires Times(Due(sub, guids), g)
             == if g in AllOf(f, items) && g !in sub.received && |Ahead(f, items, sub, g)| < Cap(sub) then 1 else 0
    ensures News(f, items) ==>
              Times(sub.sent + Due(sub, guids), g) == Times(sub.sent, g) + (if Sends(f, items, sub, g) then 1 else 0)
    ensures !News(f, items) ==> !Sends(f, items, sub, g)
  {}

  lemma ServedSent(sub: Sub, guids: seq<Guid>, live: set<Guid>)
    ensures Served(sub, guids, live).sent == sub.sent + Due(sub, guids)
  {}

  lemma AlikeFails(f: Feed)
    ensures AfterFailure(f).subs == f.subs && AfterFailure(f).history == f.history
    ensures AfterGarbage(f).subs == f.subs && AfterGarbage(f).history == f.history
  {}

  // --- whole runs ------------------------------------------------------------------------

  predicate Page(e: Event, url: string) {
    e.Done? && e.url == url && e.r.Parsed?
  }

  // Once a page of the feed has brought g, every later one does; and merging a page and
  // pruning after it are at most a day apart.
  ghost predicate Steady(es: seq<Event>, url: string, g: Guid) {
    && (forall i, j :: 0 <= i < j < |es| && Page(es[i], url) && Page(es[j], url) && Brings(es[i].r, g) ==> Brings(es[j].r, g))
    && (forall i :: 0 <= i < |es| && Page(es[i], url) ==> es[i].later - es[i].now <= DAY)
  }

  ghost predicate Known(es: seq<Event>, n: nat, url: string, g: Guid)
    requires n <= |es|
  {
    exists i :: 0 <= i < n && Page(es[i], url) && Brings(es[i].r, g)
  }

  // An item in every parsed page of a feed since it first showed up is sent at most once
  // to each subscription, however long the run.
  lemma {:induction false} AtMostOnce(fs: seq<Feeds>, es: seq<Event>, n: nat, url: string, g: Guid)
    requires Legal(fs, es) && Steady(es, url, g) && n <= |es|
    ensures url in fs[n] ==> OnceSo(fs[n][url], g) && (g in fs[n][url].history ==> Known(es, n, url, g))
    ensures url in fs[n] ==> forall t :: t in fs[n][url].subs ==> Times(fs[n][url].subs[t].sent, g) <= 1
  {
    if n > 0 {
      AtMostOnce(fs, es, n - 1, url, g);
      assert Step(fs[n - 1], es[n - 1], fs[n]);
      StepSo(fs[n - 1], es[n - 1], fs[n], es, n - 1, url, g);
    }
  }

  lemma StepSo(a: Feeds, e: Event, b: Feeds, es: seq<Event>, n: nat, url: string, g: Guid)
    requires Step(a, e, b) && n < |es| && e == es[n] && Steady(es, url, g)
    requires url in a ==> OnceSo(a[url], g) && (g in a[url].history ==> Known(es, n, url, g))
    ensures url in b ==> OnceSo(b[url], g) && (g in b[url].history ==> Known(es, n + 1, url, g))
  {
    if url in a && g in a[url].history {
      var i :| 0 <= i < n && Page(es[i], url) && Brings(es[i].r, g);
      assert Known(es, n + 1, url, g);
    }
    if e.Done? && e.url == url && url in a {
      FetchedSo(a[url], e.r, e.now, e.later, b[url], g);
      if Brings(e.r, g) { assert Page(es[n], url); }
    }
  }

  // --- more than once -----------------------------------------------------------------------

  predicate DropsAt(a: Feeds, e: Event, url: string, g: Guid) {
    Page(e, url) && url in a && Drops(a[url], e.r.items, e.now, e.later, g)
  }

  predicate SendsAt(a: Feeds, e: Event, url: string, t: Target, g: Guid) {
    Page(e, url) && url in a && t in a[url].subs && Sends(a[url], e.r.items, a[url].subs[t], g)
  }

  predicate Subscribes(a: Feeds, url: string, t: Target) {
    url in a && t in a[url].subs
  }

  function SentTo(a: Feeds, url: string, t: Target, g: Guid): nat
    requires Subscribes(a, url, t)
  {
    Times(a[url].subs[t].sent, g)
  }

  // An item still in history that the subscription was given, or was spared by the cap.
  predicate Marked(a: Feeds, url: string, t: Target, g: Guid) {
    Subscribes(a, url, t) && g in a[url].subs[t].received && g in a[url].history
  }

  // Only a page can change what a subscription that goes on has.
  lemma OtherStep(a: Feeds, e: Event, b: Feeds, url: string, t: Target)
    requires Step(a, e, b) && !Page(e, url) && Subscribes(a, url, t) && Subscribes(b, url, t)
    ensures b[url].subs[t] == a[url].subs[t] && b[url].history == a[url].history
  {
    if e.Done? && e.url == url { AlikeFails(a[url]); }
  }

  // One step sends an item, once, exactly if it is a page with news, the item is unmarked,
  // and the cap leaves room for it.
  lemma SentExactly(a: Feeds, e: Event, b: Feeds, url: string, t: Target, g: Guid)
    requires Step(a, e, b) && Subscribes(a, url, t) && Subscribes(b, url, t)
    ensures SentTo(b, url, t, g) == SentTo(a, url, t, g) + (if SendsAt(a, e, url, t, g) then 1 else 0)
  {
    hide Sends, Times, AfterPage;
    if Page(e, url) {
      PageExactly(a[url], e.r.items, e.now, e.later, t, b[url]);
    } else {
      OtherStep(a, e, b, url, t);
    }
  }

  // A marked item is not sent, and stays marked unless the page drops it.
  lemma MarkedStays(a: Feeds, e: Event, b: Feeds, url: string, t: Target, g: Guid)
    requires Step(a, e, b) && Marked(a, url, t, g) && Subscribes(b, url, t)
    ensures !SendsAt(a, e, url, t, g) && SentTo(b, url, t, g) == SentTo(a, url, t, g)
    ensures Marked(b, url, t, g) <==> !DropsAt(a, e, url, g)
  {
    hide Times, AfterPage, Drops;
    SentExactly(a, e, b, url, t, g);
    if Page(e, url) {
      PageExactly(a[url], e.r.items, e.now, e.later, t, b[url]);
      DropsNews(a[url], e.r.items, e.now, e.later, g);
    } else {
      OtherStep(a, e, b, url, t);
    }
  }

  lemma DropsNews(f: Feed, items: seq<Entry>, now: int, later: int, g: Guid)
    ensures Drops(f, items, now, later, g) ==> News(f, items)
  {}

  ghost predicate Again(fs: seq<Feeds>, es: seq<Event>, m: nat, n: nat, url: string, t: Target, g: Guid)
    requires |fs| == |es| + 1 && n <= |es|
  {
    exists k, j :: m <= k < j < n && DropsAt(fs[k], es[k], url, g) && SendsAt(fs[j], es[j], url, t, g)
  }

  ghost predicate Dropped(fs: seq<Feeds>, es: seq<Event>, m: nat, n: nat, url: string, g: Guid)
    requires |fs| == |es| + 1 && n <= |es|
  {
    exists k :: m <= k < n && DropsAt(fs[k], es[k], url, g)
  }

  // While a subscription goes on, an item it is marked with is sent again exactly if some
  // page drops it and a later page sends it.
  lemma {:induction false} SentAgainExactly(fs: seq<Feeds>, es: seq<Event>, m: nat, n: nat, url: string, t: Target, g: Guid)
    requires Legal(fs, es) && m <= n <= |es| && forall i :: m <= i <= n ==> Subscribes(fs[i], url, t)
    requires Marked(fs[m], url, t, g)
    ensures SentTo(fs[n], url, t, g) >= SentTo(fs[m], url, t, g)
    ensures SentTo(fs[n], url, t, g) > SentTo(fs[m], url, t, g) <==> Again(fs, es, m, n, url, t, g)
    ensures Marked(fs[n], url, t, g) || Dropped(fs, es, m, n, url, g)
  {
    hide Marked, SendsAt, DropsAt, SentTo, Step;
    if n > m {
      SentAgainExactly(fs, es, m, n - 1, url, t, g);
      var a, e, b := fs[n - 1], es[n - 1], fs[n];
      assert Step(a, e, b);
      SentExactly(a, e, b, url, t, g);
      if Marked(a, url, t, g) { MarkedStays(a, e, b, url, t, g); }
      AgainMore(fs, es, m, n, url, t, g);
    }
  }

  lemma AgainMore(fs: seq<Feeds>, es: seq<Event>, m: nat, n: nat, url: string, t: Target, g: Guid)
    requires |fs| == |es| + 1 && m < n <= |es|
    ensures Again(fs, es, m, n, url, t, g) <==>
              Again(fs, es, m, n - 1, url, t, g)
              || (SendsAt(fs[n - 1], es[n - 1], url, t, g) && Dropped(fs, es, m, n - 1, url, g))
    ensures Dropped(fs, es, m, n, url, g) <==>
              Dropped(fs, es, m, n - 1, url, g) || DropsAt(fs[n - 1], es[n - 1], url, g)
  {
    hide SendsAt, DropsAt;
  }

  // --- a run that sends an item twice -------------------------------------------------------

  lemma {:induction false} SomeMerge(h: History, items: seq<Entry>, now: int) returns (h': History)
    ensures Merged(h, items, now, h')
  {
    if items == [] {
      h' := h;
      MergedNone(h, now);
    } else {
      var init, e := items[..|items| - 1], items[|items| - 1];
      assert items == init + [e];
      h' := SomeMerge(h, init, now);
      if !e.passes {
        MergedSkip(h, init, e, now, h');
      } else if e.guid in h' {
        MergedSeen(h, init, e, now, h');
        h' := h'[e.guid := h'[e.guid].(updated := now)];
      } else {
        MergedNew(h, init, e, now, h', "");
        h' := h'[e.guid := Item("", e.time, now)];
      }
    }
  }

  // Any page can come next.
  lemma SomePage(f: Feed, items: seq<Entry>, now: int, later: int) returns (f': Feed)
    ensures AfterPage(f, items, now, later, f')
  {
    var h := SomeMerge(f.history, items, now);
    var guids := SomeOrder(h);
    f' := Paged(f, h, guids, later);
  }

  // Entries of the guids ranked below n, the first one newest.
  function Entries(n: nat): seq<Entry> {
    seq(n, i requires 0 <= i < n => Entry(Guid(i), n - i, true))
  }

  lemma {:induction false} EntriesPass(n: nat)
    ensures |Guids(n)| == n && Passing(Entries(n)) == Guids(n)
  {
    assert forall i :: 0 <= i < n ==> Entries(n)[i].guid == Guid(i);
    GuidCount(n);
  }

  function Guids(n: nat): set<Guid> {
    set i: int | 0 <= i < n :: Guid(i)
  }

  lemma {:induction false} GuidCount(n: nat)
    ensures |Guids(n)| == n
  {
    if n == 0 {
      assert Guids(n) == {};
    } else {
      GuidCount(n - 1);
      assert Guids(n) == Guids(n - 1) + {Guid(n - 1)};
    }
  }

  lemma {:induction false} FirstOf(n: nat, k: nat)
    requires k < n
    ensures FirstTime(Entries(n), Guid(k)) == n - k
  {
    FirstOfPrefix(Entries(n), k, n);
    assert Entries(n)[..n] == Entries(n);
  }

  lemma {:induction false} FirstOfPrefix(items: seq<Entry>, k: nat, n: nat)
    requires k < n <= |items| && items[k].passes
    requires forall i, j :: 0 <= i < j < |items| ==> items[i].guid != items[j].guid
    ensures FirstTime(items[..n], items[k].guid) == items[k].time
  {
    assert items[..n][..n - 1] == items[..n - 1];
    if k < n - 1 {
      assert items[..n - 1][k] == items[k];
      FirstOfPrefix(items, k, n - 1);
    }
  }

  // A feed whose one subscription has been marked with all that is left of it.
  ghost predicate Caught(f: Feed, sent: nat) {
    0 in f.subs && f.subs[0].received == f.history.Keys && Times(f.subs[0].sent, Guid(0)) == sent
  }

  // Eleven items, the first one newest: it is among the five that a new subscription gets.
  lemma FirstPage(f: Feed, f': Feed)
    requires f == NewFeed(30).(subs := map[0 := NEW_SUB]) && AfterPage(f, Entries(11), 0, 0, f')
    ensures Caught(f', 1) && f'.history.Keys == Guids(11)
    ensures forall x :: x in f'.history ==> f'.history[x].updated == 0
  {
    hide Ahead, Earlier, Times, Entries, Guids, Passing, AfterPage;
    var items, g := Entries(11), Guid(0);
    EntriesPass(11);
    PageExactly(f, items, 0, 0, 0, f');
    NoneAhead(f, 11);
    GuidIn(11);
    assert AllOf(f, items) == Guids(11);
    assert Sends(f, items, f.subs[0], g);
    assert f'.history.Keys == Guids(11);
    NeverSent(g);
  }

  lemma NeverSent(g: Guid)
    ensures Times([], g) == 0
  {}

  lemma GuidIn(n: nat)
    requires n > 0
    ensures Guid(0) in Guids(n)
  {}

  lemma NoneAhead(f: Feed, n: nat)
    requires f.history == map[] && n > 0 && Passing(Entries(n)) == Guids(n) && 0 in f.subs
    ensures Ahead(f, Entries(n), f.subs[0], Guid(0)) == {}
  {
    hide Entries, Passing, FirstTime;
    forall x | x in AllOf(f, Entries(n)) ensures !Earlier(f, Entries(n), x, Guid(0)) {
      var k: int :| 0 <= k < n && x == Guid(k);
      FirstOf(n, k);
      FirstOf(n, 0);
    }
  }

  // Over a day later a page brings only one other item: the eleven go, and their marks.
  lemma SecondPage(f: Feed, f': Feed)
    requires Caught(f, 1) && f.history.Keys == Guids(11) && forall x :: x in f.history ==> f.history[x].updated == 0
    requires AfterPage(f, [Entry(Guid(11), 0, true)], DAY + 1, DAY + 1, f')
    ensures Caught(f', 1) && Guid(0) !in f'.history && Guid(11) in f'.history
  {
    var items, g := [Entry(Guid(11), 0, true)], Guid(0);
    PageExactly(f, items, DAY + 1, DAY + 1, 0, f');
    OnePasses(Entry(Guid(11), 0, true));
    assert Guid(11) !in Guids(11) && g in Guids(11);
    GuidCount(11);
    assert AllOf(f, items) == Guids(11) + {Guid(11)};
    assert Drops(f, items, DAY + 1, DAY + 1, g);
    assert !Sends(f, items, f.subs[0], g);
  }

  // The page after that has it again: it is new, and it is sent.
  lemma ThirdPage(f: Feed, f': Feed)
    requires Caught(f, 1) && Guid(0) !in f.history
    requires AfterPage(f, [Entry(Guid(0), 1, true)], DAY + 2, DAY + 2, f')
    ensures 0 in f'.subs && Times(f'.subs[0].sent, Guid(0)) == 2
  {
    var items, g := [Entry(Guid(0), 1, true)], Guid(0);
    PageExactly(f, items, DAY + 2, DAY + 2, 0, f');
    OnePasses(Entry(Guid(0), 1, true));
    assert Ahead(f, items, f.subs[0], g) == {} by {
      forall x | x in AllOf(f, items) && x !in f.subs[0].received ensures x == g {}
    }
    assert Sends(f, items, f.subs[0], g);
  }

  lemma OnePasses(e: Entry)
    ensures Passing([e]) == if e.passes then {e.guid} else {}
  {
    assert [e][0] == e;
  }

  // An item that leaves the feed for over a day, while the feed holds more than ten, and
  // then comes back is sent twice to the same subscription.
  lemma SentTwice() returns (fs: seq<Feeds>, es: seq<Event>)
    ensures Legal(fs, es) && |es| == 4 && Subscribes(fs[4], "u", 0) && SentTo(fs[4], "u", 0, Guid(0)) == 2
  {
    hide AfterPage, Caught, Times;
    var f1 := NewFeed(30).(subs := map[0 := NEW_SUB]);
    var f2 := SomePage(f1, Entries(11), 0, 0);
    FirstPage(f1, f2);
    var f3 := SomePage(f2, [Entry(Guid(11), 0, true)], DAY + 1, DAY + 1);
    SecondPage(f2, f3);
    var f4 := SomePage(f3, [Entry(Guid(0), 1, true)], DAY + 2, DAY + 2);
    ThirdPage(f3, f4);
    es := [Add("u", 0, 30), Done("u", Parsed(Entries(11)), 0, 0),
           Done("u", Parsed([Entry(Guid(11), 0, true)]), DAY + 1, DAY + 1),
           Done("u", Parsed([Entry(Guid(0), 1, true)]), DAY + 2, DAY + 2)];
    fs := [map[], map["u" := f1], map["u" := f2], map["u" := f3], map["u" := f4]];
    FeedStart(f1);
    FeedStep(f1, f2, es[1]);
    FeedStep(f2, f3, es[2]);
    FeedStep(f3, f4, es[3]);
    forall i | 0 <= i < |es| ensures Step(fs[i], es[i], fs[i + 1]) {
      assert i == 0 || i == 1 || i == 2 || i == 3;
    }
  }

  lemma FeedStart(f: Feed)
    requires f == NewFeed(30).(subs := map[0 := NEW_SUB])
    ensures Step(map[], Add("u", 0, 30), map["u" := f])
  {}

  lemma FeedStep(f: Feed, f': Feed, e: Event)
    requires e.Done? && e.url == "u" && e.r.Parsed? && AfterPage(f, e.r.items, e.now, e.later, f')
    ensures Step(map["u" := f], e, map["u" := f'])
  {
    hide AfterPage;
    assert map["u" := f]["u" := f'] == map["u" := f'];
  }

  // --- retries -----------------------------------------------------------------------------

  function FailedTimes(f: Feed, k: nat): Feed {
    if k == 0 then f else AfterFailure(FailedTimes(f, k - 1))
  }

  // Of repeated failures every fourth waits an hour, the others a minute.
  lemma {:induction false} Retries(f: Feed, k: nat)
    requires f.tries == 0 && k > 0
    ensures FailedTimes(f, k).wait == Some(if k % 4 == 0 then 3600 else 60) && FailedTimes(f, k).tries == k % 4
  {
    if k > 1 { Retries(f, k - 1); }
  }
  function GarbageTimes(f: Feed, k: nat): Feed {
    if k == 0 then f else AfterGarbage(GarbageTimes(f, k - 1))
  }

  // Each page that does not parse counts, and the next fetch is a refresh away; with the
  // hundred and first in a row there is no next one. A failed fetch in between does not
  // start the count over.
  lemma {:induction false} GarbageStops(f: Feed, k: nat)
    requires !f.stopped && k > 0
    ensures var g := GarbageTimes(f, k);
            && g.errors == f.errors + k && g.tries == 0 && g.history == f.history && g.subs == f.subs
            && (g.stopped <==> f.errors + k > 100)
            && g.wait == (if f.errors + k > 100 then None else Some(60 * f.refresh))
    ensures AfterFailure(f).errors == f.errors && AfterFailure(f).stopped == f.stopped
  {
    if k > 1 { GarbageStops(f, k - 1); }
    GarbageKeeps(f, k);
  }

  lemma {:induction false} GarbageKeeps(f: Feed, k: nat)
    ensures GarbageTimes(f, k).refresh == f.refresh && GarbageTimes(f, k).history == f.history && GarbageTimes(f, k).subs == f.subs
    ensures GarbageTimes(f, k).errors == f.errors + k
    ensures !f.stopped && f.errors + k <= 100 ==> !GarbageTimes(f, k).stopped
  {
    if k > 0 { GarbageKeeps(f, k - 1); }
  }

  // A page that parses starts both counts over, and the next fetch is a refresh away.
  lemma PageResets(f: Feed, items: seq<Entry>, now: int, later: int, f': Feed)
    requires AfterPage(f, items, now, later, f')
    ensures f'.tries == 0 && f'.errors == 0 && f'.wait == Some(60 * f.refresh) && f'.refresh == f.refresh && f'.stopped == f.stopped
    ensures f'.subs.Keys == f.subs.Keys
  {
    hide Merged, NewestFirst, Pruned, Delivered;
    var h, guids :| Merged(f.history, items, now, h) && NewestFirst(h, guids) && f' == Paged(f, h, guids, later);
    DeliveredKeeps(f.(history := h), guids);
    PrunedKeeps(Delivered(f.(history := h), guids), later);
  }

  lemma DeliveredKeeps(f: Feed, guids: seq<Guid>)
    ensures var d := Delivered(f, guids); d.refresh == f.refresh && d.stopped == f.stopped && d.subs.Keys == f.subs.Keys
  {
    hide Served;
  }

  lemma PrunedKeeps(f: Feed, now: int)
    ensures var d := Pruned(f, now); d.refresh == f.refresh && d.stopped == f.stopped && d.subs.Keys == f.subs.Keys
  {
    hide Stale;
  }

  // A subscription starts with nothing received or sent; the first one starts the feed, and
  // another for the same target changes nothing. The last one to go takes the feed along.
  lemma ComeAndGo(a: Feeds, url: string, t: Target, refresh: nat)
    ensures var b := Subscribed(a, url, t, refresh);
            if url !in a then b == a[url := Feed(map[], map[t := Sub({}, [])], 0, 0, false, refresh, None)]
            else if t in a[url].subs then b == a
            else b == a[url := a[url].(subs := a[url].subs[t := Sub({}, [])])]
    ensures var b := Unsubscribed(a, url, t);
            if url !in a then b == a
            else if forall x :: x in a[url].subs ==> x == t then b == a - {url}
            else if t in a[url].subs then b == a[url := a[url].(subs := a[url].subs - {t})]
            else b == a
  {}
}
