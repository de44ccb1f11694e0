// The compact in-memory chains: interned words, heap nodes with sorted child arrays.
module MarkovCompact {
  import opened Basics
  import opened Totals
  import opened MarkovTrie
  import opened MarkovWords

  // --- nodes ------------------------------------------------------------------

  // A node reference is an index into its dictionary's pool.
  datatype Kid = Kid(word: nat, node: nat)
  datatype CNode = CNode(count: nat, kids: seq<Kid>)

  ghost predicate Ascending(kids: seq<Kid>) {
    forall i, j :: 0 <= i < j < |kids| ==> kids[i].word < kids[j].word
  }

  ghost predicate HasKid(kids: seq<Kid>, id: nat) {
    exists i :: 0 <= i < |kids| && kids[i].word == id
  }

  // Binary search over sorted children: the position of id, or where it belongs.
  method Search(kids: seq<Kid>, id: nat) returns (i: nat, found: bool)
    requires Ascending(kids)
    ensures i <= |kids|
    ensures forall k :: 0 <= k < i ==> kids[k].word < id
    ensures forall k :: i <= k < |kids| ==> id <= kids[k].word
    ensures found <==> HasKid(kids, id)
    ensures found ==> i < |kids| && kids[i].word == id
  {
    var lo, hi := 0, |kids|;
    while lo < hi
      invariant 0 <= lo <= hi <= |kids|
      invariant forall k :: 0 <= k < lo ==> kids[k].word < id
      invariant forall k :: hi <= k < |kids| ==> id <= kids[k].word
    {
      var mid := (lo + hi) / 2;
      if kids[mid].word < id {
        lo := mid + 1;
      } else {
        hi := mid;
      }
    }
    i := lo;
    found := i < |kids| && kids[i].word == id;
  }

  type Picture = map<seq<nat>, nat>

  ghost predicate Fits(at: Picture, kids: seq<Kid>, p: seq<nat>) {
    && Ascending(kids)
    && (forall i {:trigger kids[i]} :: 0 <= i < |kids| ==> p + [kids[i].word] in at && at[p + [kids[i].word]] == kids[i].node)
    && (forall id {:trigger HasKid(kids, id)} :: p + [id] in at ==> HasKid(kids, id))
  }

  // The flat picture of a pool: the node and the count at every path (at, counts),
  // and the path of every node (home).
  ghost predicate Grown(pool: seq<CNode>, at: Picture, counts: Counts<nat>, home: map<nat, seq<nat>>) {
    && (forall p {:trigger at[p]} :: p in at ==>
          at[p] < |pool| && at[p] in home && home[at[p]] == p && p in counts && counts[p] == pool[at[p]].count)
    && (forall p {:trigger Fits(at, pool[at[p]].kids, p)} :: p in at ==> Fits(at, pool[at[p]].kids, p))
    && (forall p, k {:trigger p[..k]} :: p in at && 1 <= k <= |p| ==> p[..k] in at)
  }

  lemma LastStep(p: seq<nat>, x: nat, q: seq<nat>, y: nat)
    ensures p + [x] == q + [y] <==> p == q && x == y
  {
    if p + [x] == q + [y] {
      assert (p + [x])[..|p|] == p && (q + [y])[..|q|] == q;
      assert (p + [x])[|p|] == x && (q + [y])[|q|] == y;
    }
  }

  lemma FitsElsewhere(at: Picture, kids: seq<Kid>, q: seq<nat>, p: seq<nat>, id: nat, ch: nat)
    requires Fits(at, kids, q) && q != p
    ensures Fits(at[p + [id] := ch], kids, q)
  {
    forall x ensures q + [x] != p + [id] { LastStep(q, x, p, id); }
    forall x | q + [x] in at[p + [id] := ch] ensures HasKid(kids, x) {}
  }

  lemma FitsInserted(at: Picture, kids: seq<Kid>, p: seq<nat>, id: nat, ch: nat, i: nat, more: seq<Kid>)
    requires Fits(at, kids, p) && i <= |kids|
    requires more == kids[..i] + [Kid(id, ch)] + kids[i..] && Ascending(more)
    ensures Fits(at[p + [id] := ch], more, p)
  {
    var at' := at[p + [id] := ch];
    forall k | 0 <= k < |more| ensures p + [more[k].word] in at' && at'[p + [more[k].word]] == more[k].node {
      LastStep(p, more[k].word, p, id);
      if k < i { assert more[k] == kids[k]; } else if k > i { assert more[k] == kids[k - 1]; }
    }
    forall x | p + [x] in at' ensures HasKid(more, x) {
      LastStep(p, x, p, id);
      if x == id {
        assert more[i].word == x;
      } else {
        assert HasKid(kids, x);
        var k :| 0 <= k < |kids| && kids[k].word == x;
        assert more[if k < i then k else k + 1].word == x;
      }
    }
  }

  // A new empty node hung at p + [id]; every older node keeps its children, except
  // the one at p, whose new child list already fits.
  lemma GrownExtend(pool: seq<CNode>, at: Picture, counts: Counts<nat>, home: map<nat, seq<nat>>,
                    p: seq<nat>, id: nat, pool': seq<CNode>)
    requires Grown(pool, at, counts, home) && p + [id] !in at
    requires p in at || p == []
    requires |pool'| == |pool| + 1 && pool'[|pool|] == CNode(0, [])
    requires forall i :: 0 <= i < |pool| ==> pool'[i].count == pool[i].count
    requires forall i :: 0 <= i < |pool| && (p in at ==> i != at[p]) ==> pool'[i].kids == pool[i].kids
    requires p in at ==> Fits(at[p + [id] := |pool|], pool'[at[p]].kids, p)
    ensures Grown(pool', at[p + [id] := |pool|], counts[p + [id] := 0], home[|pool| := p + [id]])
  {
    var at' := at[p + [id] := |pool|];
    forall q | q in at' ensures Fits(at', pool'[at'[q]].kids, q) {
      if q == p + [id] {
        forall x ensures q + [x] !in at' {
          assert (q + [x])[..|q|] == q;
        }
      } else if q != p {
        assert Fits(at, pool[at[q]].kids, q);
        assert home[at[q]] == q;
        FitsElsewhere(at, pool[at[q]].kids, q, p, id, |pool|);
      }
    }
    forall q, k | q in at' && 1 <= k <= |q| ensures q[..k] in at' {
      if q == p + [id] {
        if k <= |p| { assert q[..k] == p[..k]; } else { assert q[..k] == q; }
      }
    }
  }

  lemma GrownTop(pool: seq<CNode>, at: Picture, counts: Counts<nat>, home: map<nat, seq<nat>>, id: nat)
    requires Grown(pool, at, counts, home) && [] !in at && [id] !in at
    ensures Grown(pool + [CNode(0, [])], at[[id] := |pool|], counts[[id] := 0], home[|pool| := [id]])
  {
    assert [] + [id] == [id];
    GrownExtend(pool, at, counts, home, [], id, pool + [CNode(0, [])]);
  }

  // The pool after inserting a new empty child number i, for id, under node nd.
  function Inserted(pool: seq<CNode>, nd: nat, id: nat, i: nat): seq<CNode>
    requires nd < |pool| && i <= |pool[nd].kids|
  {
    var kids := pool[nd].kids;
    pool[nd := pool[nd].(kids := kids[..i] + [Kid(id, |pool|)] + kids[i..])] + [CNode(0, [])]
  }

  lemma GrownUnder(pool: seq<CNode>, at: Picture, counts: Counts<nat>, home: map<nat, seq<nat>>,
                   p: seq<nat>, id: nat, i: nat)
    requires Grown(pool, at, counts, home) && p in at && i <= |pool[at[p]].kids| && p + [id] !in at
    requires forall k :: 0 <= k < i ==> pool[at[p]].kids[k].word < id
    requires forall k :: i <= k < |pool[at[p]].kids| ==> id < pool[at[p]].kids[k].word
    ensures Grown(Inserted(pool, at[p], id, i), at[p + [id] := |pool|], counts[p + [id] := 0], home[|pool| := p + [id]])
  {
    var kids := pool[at[p]].kids;
    assert Fits(at, kids, p);
    FitsInserted(at, kids, p, id, |pool|, i, kids[..i] + [Kid(id, |pool|)] + kids[i..]);
    GrownExtend(pool, at, counts, home, p, id, Inserted(pool, at[p], id, i));
  }

  function Counted(pool: seq<CNode>, nd: nat, n: nat): seq<CNode>
    requires nd < |pool|
  {
    pool[nd := pool[nd].(count := pool[nd].count + n)]
  }

  lemma GrownCount(pool: seq<CNode>, at: Picture, counts: Counts<nat>, home: map<nat, seq<nat>>, p: seq<nat>, n: nat)
    requires Grown(pool, at, counts, home) && p in at
    ensures Grown(Counted(pool, at[p], n), at, counts[p := counts[p] + n], home)
  {
    var pool' := Counted(pool, at[p], n);
    forall q | q in at ensures pool'[at[q]].kids == pool[at[q]].kids && Fits(at, pool'[at[q]].kids, q) {
      assert Fits(at, pool[at[q]].kids, q);
    }
  }

  // --- dictionaries -----------------------------------------------------------

  // One dictionary: the top-level words and the nodes of the subtrees under them.
  class Dict {
    var chains: map<nat, nat>
    var pool: seq<CNode>
    ghost var at: Picture
    ghost var counts: Counts<nat>
    ghost var home: map<nat, seq<nat>>

    ghost predicate Valid()
      reads this
    {
      && counts.Keys == at.Keys && [] !in at && Grown(pool, at, counts, home)
      && (forall id {:trigger id in chains} {:trigger [id]} :: id in chains <==> [id] in at)
      && (forall id {:trigger chains[id]} :: id in chains ==> chains[id] == at[[id]])
    }

    // Node nd sits at path p.
    ghost predicate Sits(p: seq<nat>, nd: nat)
      reads this
    {
      p in at && nd == at[p]
    }

    constructor ()
      ensures Valid() && counts == map[] && chains == map[]
    {
      chains, pool, at, counts, home := map[], [], map[], map[], map[];
    }

    // Add n to the count of a node.
    method Count(ghost p: seq<nat>, nd: nat, n: nat)
      requires Valid() && Sits(p, nd)
      modifies this`pool, this`counts
      ensures Valid() && Sits(p, nd) && counts == old(counts)[p := old(counts)[p] + n]
    {
      GrownCount(pool, at, counts, home, p, n);
      counts := counts[p := counts[p] + n];
      pool := Counted(pool, nd, n);
    }

    // The top-level node for id, creating an empty one if absent.
    method EnsureTop(id: nat) returns (nd: nat)
      requires Valid()
      modifies this
      ensures Valid() && Sits([id], nd)
      ensures counts == if [id] in old(counts) then old(counts) else old(counts)[[id] := 0]
    {
      if id !in chains {
        GrownTop(pool, at, counts, home, id);
        forall x: nat ensures [x] == [id] <==> x == id { assert [x][0] == x && [id][0] == id; }
        at, counts, home := at[[id] := |pool|], counts[[id] := 0], home[|pool| := [id]];
        chains := chains[id := |pool|];
        pool := pool + [CNode(0, [])];
      }
      nd := chains[id];
    }

    // Node nd has a link for id exactly when p + [id] is in the picture, and it leads there.
    lemma ChildAt(p: seq<nat>, nd: nat, id: nat)
      requires Valid() && Sits(p, nd)
      ensures nd < |pool| && Ascending(pool[nd].kids)
      ensures HasKid(pool[nd].kids, id) <==> p + [id] in at
      ensures forall k :: 0 <= k < |pool[nd].kids| && pool[nd].kids[k].word == id ==> Sits(p + [id], pool[nd].kids[k].node)
    {
      assert Fits(at, pool[nd].kids, p);
    }

    // The child for id under a node, inserting an empty one in id order if absent.
    method EnsureChild(ghost p: seq<nat>, nd: nat, id: nat) returns (ch: nat)
      requires Valid() && Sits(p, nd)
      modifies this`pool, this`at, this`counts, this`home
      ensures Valid() && Sits(p + [id], ch)
      ensures counts == if p + [id] in old(counts) then old(counts) else old(counts)[p + [id] := 0]
    {
      hide Grown, Inserted;
      ChildAt(p, nd, id);
      var i, found := Search(pool[nd].kids, id);
      if found {
        return pool[nd].kids[i].node;
      }
      GrownUnder(pool, at, counts, home, p, id, i);
      forall x: nat ensures p + [id] != [x] { assert |p + [id]| > 1; }
      ch := |pool|;
      at, counts, home := at[p + [id] := ch], counts[p + [id] := 0], home[ch := p + [id]];
      pool := Inserted(pool, nd, id, i);
    }

    method BumpTop(id: nat, n: nat) returns (nd: nat)
      requires Valid()
      modifies this
      ensures Valid() && Sits([id], nd)
      ensures counts == Bump(old(counts), [id], n)
    {
      hide Grown;
      nd := EnsureTop(id);
      Count([id], nd, n);
      assert [id][..0] == [];
    }

    method BumpUnder(ghost c: Counts<nat>, ghost p: seq<nat>, nd: nat, id: nat, n: nat) returns (ch: nat)
      requires Valid() && Sits(p, nd)
      requires [] !in c && counts == Bump(c, p, n)
      modifies this`pool, this`at, this`counts, this`home
      ensures Valid() && Sits(p + [id], ch)
      ensures counts == Bump(c, p + [id], n)
    {
      hide Grown;
      ch := EnsureChild(p, nd, id);
      Count(p + [id], ch, n);
      BumpAt(c, p, n, p + [id]);
      assert (p + [id])[..|p|] == p;
    }

    // One word further down a window, interning it if new.
    method LearnWord(ghost c: Counts<nat>, ghost p: seq<nat>, nd: nat, w: string, tab: Interner)
      returns (ch: nat, ghost p': seq<nat>)
      requires Valid() && tab.Valid() && Sits(p, nd) && Known(tab.strs, p)
      requires [] !in c && counts == Bump(c, p, 1)
      modifies this`pool, this`at, this`counts, this`home, tab
      ensures Valid() && tab.Valid() && Sits(p', ch) && old(tab.strs) <= tab.strs
      ensures Known(tab.strs, p') && Spell(tab.strs, p') == Spell(old(tab.strs), p) + [w]
      ensures counts == Bump(c, p', 1)
    {
      hide Grown, Bump, Interner.Valid, Spell;
      var id := tab.Id(w);
      ch := BumpUnder(c, p, nd, id, 1);
      SpellStep(old(tab.strs), tab.strs, p, id);
      p' := p + [id];
    }

    // Learn one window: bump every node on its path p, interning words on the way.
    method LearnWindow(win: seq<string>, tab: Interner) returns (ghost p: seq<nat>)
      requires Valid() && tab.Valid() && win != []
      modifies this, tab
      ensures Valid() && tab.Valid() && old(tab.strs) <= tab.strs
      ensures Known(tab.strs, p) && Spell(tab.strs, p) == win
      ensures counts == Bump(old(counts), p, 1)
    {
      hide Grown, Bump, Interner.Valid, Spell;
      var id := tab.Id(win[0]);
      var nd := BumpTop(id, 1);
      p := [id];
      SpellStep(tab.strs, tab.strs, [], id);
      assert [] + p == p && win[..1] == [win[0]];
      for k := 1 to |win|
        invariant Valid() && tab.Valid() && old(tab.strs) <= tab.strs
        invariant Sits(p, nd) && Known(tab.strs, p) && Spell(tab.strs, p) == win[..k]
        invariant counts == Bump(old(counts), p, 1)
      {
        nd, p := LearnWord(old(counts), p, nd, win[k], tab);
      }
    }

    // Learn a whole token line.
    method LearnTokens(order: nat, tokens: seq<string>, tab: Interner)
      requires Valid() && tab.Valid() && AllKnown(tab.strs, counts)
      modifies this, tab
      ensures Valid() && tab.Valid() && old(tab.strs) <= tab.strs && AllKnown(tab.strs, counts)
      ensures Spelled(tab.strs, counts) == Learn(old(Spelled(tab.strs, counts)), Windows(order, tokens))
    {
      hide Grown, Bump, Spell, Known, Spelled, Windows, Interner.Valid;
      var wins := SlideWindows(order, tokens);
      WindowsNonempty(order, tokens);
      for k := 0 to |wins|
        invariant Valid() && tab.Valid() && old(tab.strs) <= tab.strs && AllKnown(tab.strs, counts)
        invariant Spelled(tab.strs, counts) == Learn(old(Spelled(tab.strs, counts)), wins[..k])
      {
        LearnKnown(wins[k], tab);
        LearnStep(old(Spelled(tab.strs, counts)), wins, k);
      }
      assert wins[..|wins|] == wins;
    }

    // LearnWindow, read in words.
    method LearnKnown(win: seq<string>, tab: Interner)
      requires Valid() && tab.Valid() && win != [] && AllKnown(tab.strs, counts)
      modifies this, tab
      ensures Valid() && tab.Valid() && old(tab.strs) <= tab.strs && AllKnown(tab.strs, counts)
      ensures Spelled(tab.strs, counts) == Bump(old(Spelled(tab.strs, counts)), win, 1)
    {
      hide Grown, Bump, Spell, Known;
      ghost var p := LearnWindow(win, tab);
      SpelledGrow(old(tab.strs), tab.strs, old(counts));
      BumpKnown(tab.strs, old(counts), p, 1);
      SpelledBump(tab.strs, old(counts), p, 1);
    }

    // Add one window, reversed, with the given count.
    method InsertReversed(path: seq<nat>, n: nat)
      requires Valid() && path != []
      modifies this
      ensures Valid() && counts == Bump(old(counts), Reverse(path), n)
    {
      hide Grown, Bump;
      var i := |path| - 1;
      var nd := BumpTop(path[i], n);
      ghost var p := [path[i]];
      while i > 0
        invariant 0 <= i < |path| && Valid() && Sits(p, nd)
        invariant p == Reverse(path)[..|path| - i]
        invariant counts == Bump(old(counts), p, n)
      {
        i := i - 1;
        nd := BumpUnder(old(counts), p, nd, path[i], n);
        p := p + [path[i]];
      }
      assert p == Reverse(path);
    }

    // Insert the windows that ended right at path, reversed.
    method InsertExcess(count: nat, childSum: nat, path: seq<nat>, ghost c: Counts<nat>,
                        ghost seen: seq<seq<nat>>, ghost ws: seq<seq<nat>>)
      requires Valid() && path != [] && path in c && count == c[path] && childSum == ChildSum(c, path)
      requires counts == TrieOf(seen + ReverseAll(ws))
      modifies this
      ensures Valid() && counts == TrieOf(seen + ReverseAll(ws + Repeat(path, Excess(c, path))))
    {
      hide Grown, Bump, Tally, PathsOf, TrieOf;
      ghost var excess := Excess(c, path);
      if count > childSum {
        InsertReversed(path, count - childSum);
        BumpLearns(seen + ReverseAll(ws), Reverse(path), excess);
        SeenMore(seen, ws, Repeat(path, excess));
        assert ReverseAll(Repeat(path, excess)) == Repeat(Reverse(path), excess);
      } else {
        assert ws + Repeat(path, excess) == ws;
      }
    }

    // Insert, reversed, every window of main that ends at or below its node nd.
    // seen lists what this dictionary was built from so far.
    method Walk(main: Dict, path: seq<nat>, nd: nat, ghost seen: seq<seq<nat>>) returns (ghost ws: seq<seq<nat>>)
      requires Valid() && main.Valid() && main != this && main.Sits(path, nd)
      requires counts == TrieOf(seen)
      modifies this
      ensures Valid() && counts == TrieOf(seen + ReverseAll(ws))
      ensures EndingBelow(main.counts, path, ws)
      decreases Below(main.at.Keys, path), 1
    {
      hide Grown, Bump, Tally, PathsOf, TrieOf;
      ghost var c := main.counts;
      NodeFacts(main.pool, main.at, c, main.home, path);
      var kids := main.pool[nd].kids;
      var childSum := 0;
      ws := [];
      assert seen + ReverseAll(ws) == seen;
      for j := 0 to |kids|
        invariant Valid() && counts == TrieOf(seen + ReverseAll(ws))
        invariant ChildPaths(path, kids[..j]) <= c.Keys
        invariant childSum == Total(Picked(c, ChildPaths(path, kids[..j])))
        invariant EndingUnder(c, path, ChildPaths(path, kids[..j]), ws)
      {
        var count;
        count, ws := WalkKid(main, path, nd, j, seen, ws);
        childSum := childSum + count;
      }
      InsertExcess(main.pool[nd].count, childSum, path, c, seen, ws);
      EndingHere(c, path, ws);
      ws := ws + Repeat(path, Excess(c, path));
    }

    // The walk's step for child number j: its count, and everything below it inserted.
    method WalkKid(main: Dict, path: seq<nat>, nd: nat, j: nat, ghost seen: seq<seq<nat>>, ghost ws: seq<seq<nat>>)
      returns (count: nat, ghost ws': seq<seq<nat>>)
      requires Valid() && main.Valid() && main != this && main.Sits(path, nd)
      requires nd < |main.pool| && j < |main.pool[nd].kids|
      requires counts == TrieOf(seen + ReverseAll(ws))
      requires ChildPaths(path, main.pool[nd].kids[..j]) <= main.counts.Keys
      requires EndingUnder(main.counts, path, ChildPaths(path, main.pool[nd].kids[..j]), ws)
      modifies this
      ensures Valid() && counts == TrieOf(seen + ReverseAll(ws'))
      ensures var done, more := ChildPaths(path, main.pool[nd].kids[..j]), ChildPaths(path, main.pool[nd].kids[..j + 1]);
              && more <= main.counts.Keys
              && Total(Picked(main.counts, more)) == Total(Picked(main.counts, done)) + count
              && EndingUnder(main.counts, path, more, ws')
      decreases Below(main.at.Keys, path), 0
    {
      hide Grown, Bump, Tally, PathsOf, TrieOf;
      ghost var c := main.counts;
      var k := main.pool[nd].kids[j];
      KidFacts(main.pool, main.at, c, main.home, path, j);
      PickedMore(c, ChildPaths(path, main.pool[nd].kids[..j]), path + [k.word]);
      count := main.pool[k.node].count;
      ghost var more := Walk(main, path + [k.word], k.node, seen + ReverseAll(ws));
      EndingMore(c, path, ChildPaths(path, main.pool[nd].kids[..j]), ws, path + [k.word], more);
      SeenMore(seen, ws, more);
      ws' := ws + more;
    }

    lemma NoChains()
      requires Valid()
      ensures chains == map[] <==> counts == map[]
      ensures IsTrie(counts)
      ensures forall q :: q in counts ==> q != [] && q[0] in chains
      ensures forall id :: id in chains ==> [id] in counts && Sits([id], chains[id])
    {
      forall q | q in at ensures q != [] && q[0] in chains {
        assert q[..1] == [q[0]];
      }
      if chains != map[] {
        var id :| id in chains;
        assert [id] in counts;
      }
    }

    // The walk's step for one top-level word.
    method WalkTop(main: Dict, id: nat, ghost done: set<nat>, ghost ws: seq<seq<nat>>) returns (ghost ws': seq<seq<nat>>)
      requires Valid() && main.Valid() && main != this && id in main.chains && id !in done
      requires counts == TrieOf(ReverseAll(ws)) && EndingUnder(main.counts, [], TopPaths(done), ws)
      modifies this
      ensures Valid() && counts == TrieOf(ReverseAll(ws')) && EndingUnder(main.counts, [], TopPaths(done + {id}), ws')
    {
      hide Grown, Tally, PathsOf, TrieOf, Excess;
      main.NoChains();
      ghost var more := Walk(main, [id], main.chains[id], ReverseAll(ws));
      TopMore(done, id);
      EndingMore(main.counts, [], TopPaths(done), ws, [id], more);
      ReverseAllAppend(ws, more);
      ws' := ws + more;
    }

    // Build this dictionary from the forward one: once, and only if there is one.
    method DeriveReverse(main: Dict)
      requires Valid() && main.Valid() && main != this
      modifies this
      ensures Valid()
      ensures counts == if old(counts) != map[] || main.counts == map[] then old(counts) else DerivedReverse(main.counts)
    {
      NoChains();
      main.NoChains();
      if |chains| > 0 || |main.chains| == 0 {
        return;
      }
      InsertAllReversed(main);
    }

    method InsertAllReversed(main: Dict)
      requires Valid() && main.Valid() && main != this && counts == map[]
      modifies this
      ensures Valid() && counts == DerivedReverse(main.counts)
    {
      hide Grown, Bump, Tally, PathsOf, TrieOf, Excess, Unlearn;
      ghost var ws: seq<seq<nat>> := [];
      NothingLearned(main.counts);
      var todo := main.chains.Keys;
      ghost var done: set<nat> := {};
      while todo != {}
        invariant todo + done == main.chains.Keys && todo !! done
        invariant Valid() && counts == TrieOf(ReverseAll(ws))
        invariant EndingUnder(main.counts, [], TopPaths(done), ws)
      {
        var id :| id in todo;
        ws := WalkTop(main, id, done, ws);
        todo, done := todo - {id}, done + {id};
      }
      main.NoChains();
      WalkedAll(main.counts, done, ws);
    }
  }

  // --- the walk's bookkeeping -------------------------------------------------

  ghost function Below(nodes: set<seq<nat>>, p: seq<nat>): set<seq<nat>> {
    set q | q in nodes && p <= q
  }

  ghost function ChildPaths(p: seq<nat>, kids: seq<Kid>): set<seq<nat>> {
    set i | 0 <= i < |kids| :: p + [kids[i].word]
  }

  ghost function TopPaths(ids: set<nat>): set<seq<nat>> {
    set id | id in ids :: [id]
  }

  lemma TopMore(ids: set<nat>, id: nat)
    requires id !in ids
    ensures [id] !in TopPaths(ids) && TopPaths(ids + {id}) == TopPaths(ids) + {[id]}
  {
    forall x | [x] == [id] ensures x == id { assert [x][0] == [id][0]; }
  }

  lemma NothingLearned(c: Counts<nat>)
    ensures TrieOf<nat>(ReverseAll([])) == map[]
    ensures EndingUnder(c, [], TopPaths({}), [])
  {}

  // Once every top-level word is walked, all windows of the trie are inserted.
  lemma WalkedAll(c: Counts<nat>, tops: set<nat>, ws: seq<seq<nat>>)
    requires EndingUnder(c, [], TopPaths(tops), ws)
    requires forall q :: q in c ==> q != [] && q[0] in tops
    ensures TrieOf(ReverseAll(ws)) == DerivedReverse(c)
  {
    var all := Unlearn(c, c.Keys);
    forall q ensures multiset(ws)[q] == multiset(all)[q] {
      UnlearnMultiset(c, c.Keys, q);
      if q in c { assert q[..1] == [q[0]]; }
    }
    assert multiset(ws) == multiset(all);
    ReverseAllPermuted(ws, all);
    TriePermuted(ReverseAll(ws), ReverseAll(all));
  }

  ghost function Picked(c: Counts<nat>, paths: set<seq<nat>>): map<seq<nat>, nat>
    requires paths <= c.Keys
  {
    map q | q in paths :: c[q]
  }

  // ws lists every window of c ending at or below p as often as it was learned.
  ghost predicate EndingBelow(c: Counts<nat>, p: seq<nat>, ws: seq<seq<nat>>) {
    forall q :: multiset(ws)[q] == if q in c && p <= q then Excess(c, q) else 0
  }

  // The same for the windows going on from p into one of the given children.
  ghost predicate EndingUnder(c: Counts<nat>, p: seq<nat>, kids: set<seq<nat>>, ws: seq<seq<nat>>) {
    forall q :: multiset(ws)[q] == if q in c && |q| > |p| && q[..|p| + 1] in kids then Excess(c, q) else 0
  }

  lemma PickedMore(c: Counts<nat>, paths: set<seq<nat>>, q: seq<nat>)
    requires paths <= c.Keys && q in c && q !in paths
    ensures Total(Picked(c, paths + {q})) == Total(Picked(c, paths)) + c[q]
  {
    TotalInsert(Picked(c, paths), q, c[q]);
    assert Picked(c, paths + {q}) == Picked(c, paths)[q := c[q]];
  }

  lemma SeenMore(seen: seq<seq<nat>>, ws: seq<seq<nat>>, more: seq<seq<nat>>)
    ensures seen + ReverseAll(ws + more) == seen + ReverseAll(ws) + ReverseAll(more)
  {
    ReverseAllAppend(ws, more);
  }

  lemma NodeFacts(pool: seq<CNode>, at: Picture, counts: Counts<nat>, home: map<nat, seq<nat>>, p: seq<nat>)
    requires Grown(pool, at, counts, home) && p in at && counts.Keys == at.Keys && [] !in at
    ensures IsTrie(counts)
    ensures at[p] < |pool| && counts[p] == pool[at[p]].count
    ensures var kids := pool[at[p]].kids;
            && kids[..|kids|] == kids
            && ChildPaths(p, kids) == Children(counts, p).Keys
            && Picked(counts, ChildPaths(p, kids)) == Children(counts, p)
  {
    var kids := pool[at[p]].kids;
    assert kids[..|kids|] == kids;
    assert Fits(at, kids, p);
    forall q | q in Children(counts, p) ensures q in ChildPaths(p, kids) {
      assert q == p + [q[|p|]];
      assert HasKid(kids, q[|p|]);
    }
  }

  // Child number j of p: where it sits, what it counts, and that it is none of the earlier ones.
  lemma KidFacts(pool: seq<CNode>, at: Picture, counts: Counts<nat>, home: map<nat, seq<nat>>, p: seq<nat>, j: nat)
    requires Grown(pool, at, counts, home) && p in at && j < |pool[at[p]].kids|
    ensures var kids := pool[at[p]].kids;
            var q := p + [kids[j].word];
            && q in at && at[q] == kids[j].node && kids[j].node < |pool|
            && q in counts && counts[q] == pool[kids[j].node].count
            && q !in ChildPaths(p, kids[..j])
            && ChildPaths(p, kids[..j + 1]) == ChildPaths(p, kids[..j]) + {q}
            && Below(at.Keys, q) < Below(at.Keys, p)
  {
    var kids := pool[at[p]].kids;
    var q := p + [kids[j].word];
    assert Fits(at, kids, p) && q in at;
    forall i | 0 <= i < j ensures p + [kids[i].word] != q {
      LastStep(p, kids[i].word, p, kids[j].word);
    }
    forall r | r in Below(at.Keys, q) ensures r in Below(at.Keys, p) {
      assert p == q[..|p|] == r[..|p|];
    }
    assert p in Below(at.Keys, p) && p !in Below(at.Keys, q);
    assert kids[..j + 1] == kids[..j] + [kids[j]];
  }

  lemma EndingMore(c: Counts<nat>, p: seq<nat>, done: set<seq<nat>>, ws: seq<seq<nat>>, q: seq<nat>, more: seq<seq<nat>>)
    requires EndingUnder(c, p, done, ws) && EndingBelow(c, q, more)
    requires |q| == |p| + 1 && q !in done
    ensures EndingUnder(c, p, done + {q}, ws + more)
  {
    forall r ensures q <= r <==> |r| > |p| && r[..|p| + 1] == q {}
  }

  lemma EndingHere(c: Counts<nat>, p: seq<nat>, ws: seq<seq<nat>>)
    requires IsTrie(c) && p in c && EndingUnder(c, p, Children(c, p).Keys, ws)
    ensures EndingBelow(c, p, ws + Repeat(p, Excess(c, p)))
  {
    var here := Repeat(p, Excess(c, p));
    forall q ensures multiset(ws + here)[q] == if q in c && p <= q then Excess(c, q) else 0 {
      RepeatMultiset(p, Excess(c, p), q);
      assert multiset(ws + here)[q] == multiset(ws)[q] + multiset(here)[q];
      if q in c { UnderChild(c, p, q); }
    }
  }

  lemma UnderChild(c: Counts<nat>, p: seq<nat>, q: seq<nat>)
    requires IsTrie(c) && q in c
    ensures p <= q && q != p <==> |q| > |p| && q[..|p| + 1] in Children(c, p).Keys
  {
    if |q| > |p| {
      assert q[..|p| + 1] in c;
      assert q[..|p| + 1][..|p|] == q[..|p|];
    }
  }
}
