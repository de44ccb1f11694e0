// Learning into the compact chains is learning into the storage chains.
module MarkovRefinement {
  import opened Basics
  import opened MarkovTrie
  import opened MarkovWords
  import opened MarkovCompact
  import opened MarkovStorage

  lemma SpellOne(strs: seq<string>, p: seq<nat>, id: nat)
    requires Known(strs, p) && id < |strs|
    ensures Known(strs, p + [id]) && Spell(strs, p + [id]) == Spell(strs, p) + [strs[id]]
  {
    SpellStep(strs, strs, p, id);
  }

  // The words below p in the spelled table are the children ids below p in the id table.
  lemma SpelledChild(strs: seq<string>, c: Counts<nat>, p: seq<nat>, w: string)
    requires Distinct(strs) && AllKnown(strs, c) && Known(strs, p)
    ensures Spell(strs, p) + [w] in Spelled(strs, c) <==> exists id: nat :: id < |strs| && strs[id] == w && p + [id] in c
  {
    hide Spelled, Spell;
    if Spell(strs, p) + [w] in Spelled(strs, c) {
      var q := SpelledFrom(strs, c, Spell(strs, p) + [w]);
      assert |q| == |p| + 1;
      var init, id := q[..|p|], q[|p|];
      assert q == init + [id];
      SpellOne(strs, init, id);
      assert Spell(strs, q)[..|p|] == Spell(strs, init) && Spell(strs, q)[|p|] == strs[id];
      SpellInjective(strs, init, p);
    }
    if id: nat :| id < |strs| && strs[id] == w && p + [id] in c {
      SpellOne(strs, p, id);
      SpelledAt(strs, c, p + [id]);
    }
  }

  // Reading a subtree off the nodes or off the flat table is the same.
  lemma {:induction false} ImagesMirrors(pool: seq<CNode>, at: Picture, c: Counts<nat>, home: map<nat, seq<nat>>,
                                         strs: seq<string>, p: seq<nat>, n: Node)
    requires Grown(pool, at, c, home) && c.Keys == at.Keys && p in at
    requires Distinct(strs) && AllKnown(strs, c)
    ensures Images(pool, strs, at[p], n) <==> Mirrors(n, Spelled(strs, c), Spell(strs, p))
    decreases n
  {
    hide Grown, Images, Mirrors, Spelled, Spell;
    WordsAgree(pool, at, c, home, strs, p);
    var kids, t, sp := pool[at[p]].kids, Spelled(strs, c), Spell(strs, p);
    forall k | k in kids && k.word < |strs| && strs[k.word] in n.children
      ensures KidImages(pool, strs, k, n) <==> Mirrors(n.children[strs[k.word]], t, sp + [strs[k.word]])
    {
      assert KidSpelled(at, c, strs, p, k);
      ImagesMirrors(pool, at, c, home, strs, p + [k.word], n.children[strs[k.word]]);
    }
    if Mirrors(n, t, sp) { MirrorsImaged(pool, strs, at[p], n, t, sp); }
    if Images(pool, strs, at[p], n) { ImagedMirrors(pool, strs, at[p], n, t, sp); }
  }

  // The children of the node at p carry exactly the words that follow p in the table.
  lemma WordsAgree(pool: seq<CNode>, at: Picture, c: Counts<nat>, home: map<nat, seq<nat>>, strs: seq<string>, p: seq<nat>)
    requires Grown(pool, at, c, home) && c.Keys == at.Keys && p in at
    requires Distinct(strs) && AllKnown(strs, c)
    ensures at[p] < |pool| && Ascending(pool[at[p]].kids)
    ensures Spell(strs, p) in Spelled(strs, c) && Spelled(strs, c)[Spell(strs, p)] == pool[at[p]].count
    ensures forall k :: k in pool[at[p]].kids ==> KidSpelled(at, c, strs, p, k)
    ensures forall w :: Spell(strs, p) + [w] in Spelled(strs, c) <==> KidFor(strs, pool[at[p]].kids, w)
  {
    hide Spelled, Spell;
    var kids := pool[at[p]].kids;
    assert Fits(at, kids, p);
    SpelledAt(strs, c, p);
    forall k | k in kids ensures KidSpelled(at, c, strs, p, k) {
      var i :| 0 <= i < |kids| && kids[i] == k;
      KidSpells(at, c, strs, kids, p, i);
    }
    forall w ensures Spell(strs, p) + [w] in Spelled(strs, c) <==> KidFor(strs, kids, w) {
      SpelledChild(strs, c, p, w);
      if id: nat :| id < |strs| && strs[id] == w && p + [id] in c {
        assert HasKid(kids, id);
      }
      if KidFor(strs, kids, w) {
        var i :| 0 <= i < |kids| && kids[i].word < |strs| && strs[kids[i].word] == w;
        assert KidSpelled(at, c, strs, p, kids[i]);
      }
    }
  }

  ghost predicate KidSpelled(at: Picture, c: Counts<nat>, strs: seq<string>, p: seq<nat>, k: Kid) {
    && p + [k.word] in at && at[p + [k.word]] == k.node && k.word < |strs|
    && Known(strs, p) && Known(strs, p + [k.word])
    && Spell(strs, p + [k.word]) == Spell(strs, p) + [strs[k.word]]
  }

  lemma KidSpells(at: Picture, c: Counts<nat>, strs: seq<string>, kids: seq<Kid>, p: seq<nat>, k: nat)
    requires Fits(at, kids, p) && c.Keys == at.Keys && AllKnown(strs, c) && Known(strs, p) && k < |kids|
    ensures KidSpelled(at, c, strs, p, kids[k])
  {
    var q := p + [kids[k].word];
    assert q in c && q[|p|] == kids[k].word;
    SpellOne(strs, p, kids[k].word);
  }

  // Both readings of one node agree once they agree on its children.
  ghost predicate ChildrenAgree(pool: seq<CNode>, strs: seq<string>, nd: nat, n: Node, t: Counts<string>, sp: seq<string>) {
    && nd < |pool| && Ascending(pool[nd].kids) && sp in t && t[sp] == pool[nd].count
    && (forall w :: sp + [w] in t <==> KidFor(strs, pool[nd].kids, w))
    && (forall k :: k in pool[nd].kids ==> k.word < |strs|)
    && (forall k :: k in pool[nd].kids && k.word < |strs| && strs[k.word] in n.children ==>
          (KidImages(pool, strs, k, n) <==> Mirrors(n.children[strs[k.word]], t, sp + [strs[k.word]])))
  }

  lemma MirrorsImaged(pool: seq<CNode>, strs: seq<string>, nd: nat, n: Node, t: Counts<string>, sp: seq<string>)
    requires ChildrenAgree(pool, strs, nd, n, t, sp) && Mirrors(n, t, sp)
    ensures Images(pool, strs, nd, n)
  {
    var kids := pool[nd].kids;
    forall k | k in kids ensures KidImages(pool, strs, k, n) {
      assert KidFor(strs, kids, strs[k.word]);
      assert sp + [strs[k.word]] in t;
    }
    forall w | w in n.children ensures KidFor(strs, kids, w) { assert sp + [w] in t; }
  }

  lemma ImagedMirrors(pool: seq<CNode>, strs: seq<string>, nd: nat, n: Node, t: Counts<string>, sp: seq<string>)
    requires ChildrenAgree(pool, strs, nd, n, t, sp) && Images(pool, strs, nd, n)
    ensures Mirrors(n, t, sp)
  {
    var kids := pool[nd].kids;
    forall w ensures w in n.children <==> sp + [w] in t {
      if KidFor(strs, kids, w) {
        var k :| 0 <= k < |kids| && kids[k].word < |strs| && strs[kids[k].word] == w;
        assert KidImages(pool, strs, kids[k], n);
      }
    }
    forall w | w in n.children ensures Mirrors(n.children[w], t, sp + [w]) {
      assert KidFor(strs, kids, w);
      var k :| 0 <= k < |kids| && kids[k].word < |strs| && strs[kids[k].word] == w;
      assert KidImages(pool, strs, kids[k], n);
    }
  }

  // --- whole dictionaries -----------------------------------------------------

  ghost predicate TopFor(chains: map<nat, nat>, strs: seq<string>, w: string) {
    exists id :: id in chains && id < |strs| && strs[id] == w
  }

  // The dictionary, converted word by word, is the storage chains s.
  ghost predicate StoredAs(d: Dict, strs: seq<string>, s: map<string, Node>)
    reads d
  {
    && (forall id :: id in d.chains ==>
          id < |strs| && strs[id] in s && Images(d.pool, strs, d.chains[id], s[strs[id]]))
    && (forall w :: w in s ==> TopFor(d.chains, strs, w))
  }

  lemma TopSpelled(d: Dict, strs: seq<string>, id: nat)
    requires d.Valid() && Distinct(strs) && AllKnown(strs, d.counts) && id in d.chains
    ensures id < |strs| && Known(strs, [id]) && Spell(strs, [id]) == [strs[id]]
    ensures [strs[id]] in Spelled(strs, d.counts)
  {
    d.NoChains();
    assert Known(strs, [id]) && [id][0] == id;
    SpellOne(strs, [], id);
    assert [] + [id] == [id];
    SpelledAt(strs, d.counts, [id]);
  }

  lemma SpellNone(strs: seq<string>)
    ensures Known(strs, []) && Spell(strs, []) == []
  {}

  lemma TopListed(d: Dict, id: nat)
    requires d.Valid()
    ensures [] + [id] in d.counts <==> id in d.chains
  {
    hide Grown, IsTrie;
    d.NoChains();
    assert [] + [id] == [id] && [id][0] == id;
  }

  lemma SpelledTop(d: Dict, strs: seq<string>, w: string)
    requires d.Valid() && Distinct(strs) && AllKnown(strs, d.counts)
    ensures [w] in Spelled(strs, d.counts) <==> TopFor(d.chains, strs, w)
  {
    hide Grown, Spelled, Spell, IsTrie;
    SpellNone(strs);
    SpelledChild(strs, d.counts, [], w);
    assert [] + [w] == [w];
    if TopFor(d.chains, strs, w) {
      var id :| id in d.chains && id < |strs| && strs[id] == w;
      TopListed(d, id);
    }
    if id: nat :| id < |strs| && strs[id] == w && [] + [id] in d.counts {
      TopListed(d, id);
    }
  }

  // Both readings of one top-level word agree.
  ghost predicate TopAgrees(d: Dict, strs: seq<string>, s: map<string, Node>, t: Counts<string>, id: nat)
    requires id in d.chains
    reads d
  {
    && id < |strs| && [strs[id]] in t
    && (strs[id] in s ==>
          (Images(d.pool, strs, d.chains[id], s[strs[id]]) <==> Mirrors(s[strs[id]], t, [strs[id]])))
  }

  lemma StoredMirrored(d: Dict, strs: seq<string>, s: map<string, Node>, t: Counts<string>)
    requires forall id :: id in d.chains ==> TopAgrees(d, strs, s, t, id)
    requires forall w :: [w] in t <==> TopFor(d.chains, strs, w)
    requires StoredAs(d, strs, s)
    ensures MirrorsAll(s, t)
  {
    hide Images, Mirrors;
    forall w ensures w in s <==> [w] in t {
      if TopFor(d.chains, strs, w) {
        var id :| id in d.chains && id < |strs| && strs[id] == w;
        assert TopAgrees(d, strs, s, t, id);
      }
    }
    forall w | w in s ensures Mirrors(s[w], t, [w]) {
      assert TopFor(d.chains, strs, w);
      var id :| id in d.chains && id < |strs| && strs[id] == w;
      assert TopAgrees(d, strs, s, t, id);
    }
  }

  lemma MirroredStored(d: Dict, strs: seq<string>, s: map<string, Node>, t: Counts<string>)
    requires forall id :: id in d.chains ==> TopAgrees(d, strs, s, t, id)
    requires forall w :: [w] in t <==> TopFor(d.chains, strs, w)
    requires MirrorsAll(s, t)
    ensures StoredAs(d, strs, s)
  {
    hide Images, Mirrors;
    forall id | id in d.chains
      ensures id < |strs| && strs[id] in s && Images(d.pool, strs, d.chains[id], s[strs[id]])
    {
      assert TopAgrees(d, strs, s, t, id);
    }
  }

  // The storage chains of a dictionary, read off its nodes or off its flat table.
  lemma StoredMirrors(d: Dict, strs: seq<string>, s: map<string, Node>)
    requires d.Valid() && Distinct(strs) && AllKnown(strs, d.counts)
    ensures StoredAs(d, strs, s) <==> MirrorsAll(s, Spelled(strs, d.counts))
  {
    hide Grown, Images, Mirrors, Spelled, Spell, IsTrie;
    var t := Spelled(strs, d.counts);
    d.NoChains();
    forall w ensures [w] in t <==> TopFor(d.chains, strs, w) { SpelledTop(d, strs, w); }
    forall id | id in d.chains ensures TopAgrees(d, strs, s, t, id) {
      TopSpelled(d, strs, id);
      if strs[id] in s {
        ImagesMirrors(d.pool, d.at, d.counts, d.home, strs, [id], s[strs[id]]);
      }
    }
    if StoredAs(d, strs, s) { StoredMirrored(d, strs, s, t); }
    if MirrorsAll(s, t) { MirroredStored(d, strs, s, t); }
  }

  // Learning a line into the compact chains and converting back is learning the line
  // into the converted chains.
  method LearnRefines(d: Dict, order: nat, tokens: seq<string>, tab: Interner, ghost s: map<string, Node>)
    requires d.Valid() && tab.Valid() && AllKnown(tab.strs, d.counts) && StoredAs(d, tab.strs, s)
    modifies d, tab
    ensures d.Valid() && tab.Valid() && AllKnown(tab.strs, d.counts)
    ensures old(tab.strs) <= tab.strs
    ensures StoredAs(d, tab.strs, LearnLine(s, order, tokens))
  {
    hide Grown, StoredAs, MirrorsAll, Learn, Windows, LearnLine;
    StoredMirrors(d, tab.strs, s);
    SpelledIsTrie(d, tab.strs);
    ghost var t := Spelled(tab.strs, d.counts);
    d.LearnTokens(order, tokens, tab);
    LearnLineMirrors(s, t, order, tokens);
    StoredMirrors(d, tab.strs, LearnLine(s, order, tokens));
  }

  lemma SpelledIsTrie(d: Dict, strs: seq<string>)
    requires d.Valid() && Distinct(strs) && AllKnown(strs, d.counts)
    ensures IsTrie(Spelled(strs, d.counts))
  {
    hide Spelled, Spell;
    d.NoChains();
    var t := Spelled(strs, d.counts);
    if [] in t {
      var q := SpelledFrom(strs, d.counts, []);
    }
    forall x, k | x in t && 1 <= k <= |x| ensures x[..k] in t {
      var q := SpelledFrom(strs, d.counts, x);
      SpellPrefix(strs, q, k);
      SpelledAt(strs, d.counts, q[..k]);
    }
  }

  // The children found so far are the storage subtrees of the given links.
  ghost predicate Imaged(pool: seq<CNode>, strs: seq<string>, kids: seq<Kid>, children: map<string, Node>) {
    && (forall k :: k in kids ==> KidImages(pool, strs, k, Node(0, children)))
    && (forall w :: w in children ==> KidFor(strs, kids, w))
  }

  lemma KidsDiffer(strs: seq<string>, kids: seq<Kid>, j: nat)
    requires Distinct(strs) && Ascending(kids) && j < |kids|
    requires forall k :: k in kids ==> k.word < |strs|
    ensures forall k :: k in kids[..j] ==> k.word < |strs| && strs[k.word] != strs[kids[j].word]
  {
    forall k | k in kids[..j] ensures k.word < |strs| && strs[k.word] != strs[kids[j].word] {
      var i :| 0 <= i < j && kids[i] == k;
      assert kids[i].word < kids[j].word;
    }
  }

  lemma ImagedStep(pool: seq<CNode>, strs: seq<string>, kids: seq<Kid>, children: map<string, Node>, k: Kid, child: Node)
    requires Imaged(pool, strs, kids, children) && k.word < |strs| && k.node < |pool|
    requires forall x :: x in kids ==> x.word < |strs| && strs[x.word] != strs[k.word]
    requires Images(pool, strs, k.node, child)
    ensures Imaged(pool, strs, kids + [k], children[strs[k.word] := child])
  {
    hide Images;
    var more := children[strs[k.word] := child];
    forall x | x in kids + [k] ensures KidImages(pool, strs, x, Node(0, more)) {
      if x in kids { assert KidImages(pool, strs, x, Node(0, children)); }
    }
    forall w | w in more ensures KidFor(strs, kids + [k], w) {
      if w == strs[k.word] {
        assert (kids + [k])[|kids|].word == k.word;
      } else {
        var i :| 0 <= i < |kids| && kids[i].word < |strs| && strs[kids[i].word] == w;
        assert (kids + [k])[i] == kids[i];
      }
    }
  }

  lemma ImagedNode(pool: seq<CNode>, strs: seq<string>, nd: nat, n: Node)
    requires nd < |pool| && n.count == pool[nd].count && Ascending(pool[nd].kids) && Imaged(pool, strs, pool[nd].kids, n.children)
    ensures Images(pool, strs, nd, n)
  {
    forall k | k in pool[nd].kids ensures KidImages(pool, strs, k, n) {
      assert KidImages(pool, strs, k, Node(0, n.children));
    }
  }

  // Every node of a dictionary images some storage subtree.
  lemma {:induction false} ImageExists(d: Dict, strs: seq<string>, p: seq<nat>) returns (n: Node)
    requires d.Valid() && Distinct(strs) && AllKnown(strs, d.counts) && p in d.at
    ensures Images(d.pool, strs, d.at[p], n)
    decreases Below(d.at.Keys, p)
  {
    hide Spell, Spelled, Grown;
    WordsAgree(d.pool, d.at, d.counts, d.home, strs, p);
    var kids := d.pool[d.at[p]].kids;
    var children: map<string, Node> := map[];
    for j := 0 to |kids|
      invariant Imaged(d.pool, strs, kids[..j], children)
    {
      assert KidSpelled(d.at, d.counts, strs, p, kids[j]);
      KidFacts(d.pool, d.at, d.counts, d.home, p, j);
      var child := ImageExists(d, strs, p + [kids[j].word]);
      KidsDiffer(strs, kids, j);
      ImagedStep(d.pool, strs, kids[..j], children, kids[j], child);
      assert kids[..j] + [kids[j]] == kids[..j + 1];
      children := children[strs[kids[j].word] := child];
    }
    assert kids[..|kids|] == kids;
    n := Node(d.pool[d.at[p]].count, children);
    ImagedNode(d.pool, strs, d.at[p], n);
  }

  // All but the top-level words in todo are converted.
  ghost predicate StoredBut(d: Dict, strs: seq<string>, s: map<string, Node>, todo: set<nat>)
    reads d
  {
    && (forall id :: id in d.chains && id !in todo ==>
          id < |strs| && strs[id] in s && Images(d.pool, strs, d.chains[id], s[strs[id]]))
    && (forall w :: w in s ==> TopFor(d.chains, strs, w))
  }

  lemma StoredMore(d: Dict, strs: seq<string>, s: map<string, Node>, todo: set<nat>, id: nat, n: Node)
    requires Distinct(strs) && StoredBut(d, strs, s, todo) && id in todo && id in d.chains && id < |strs|
    requires Images(d.pool, strs, d.chains[id], n)
    ensures StoredBut(d, strs, s[strs[id] := n], todo - {id})
  {
    hide Images;
  }

  // Convert a whole dictionary to the storage shape.
  method ToStorage(d: Dict, tab: Interner) returns (s: map<string, Node>)
    requires d.Valid() && tab.Valid() && AllKnown(tab.strs, d.counts)
    ensures StoredAs(d, tab.strs, s)
  {
    hide Grown, Images, Spell, Spelled, IsTrie;
    s := map[];
    d.NoChains();
    var todo := d.chains.Keys;
    while todo != {}
      invariant todo <= d.chains.Keys && StoredBut(d, tab.strs, s, todo)
    {
      var id :| id in todo;
      TopSpelled(d, tab.strs, id);
      ghost var n := ImageExists(d, tab.strs, [id]);
      var m := FromCompact(d.pool, d.chains[id], tab.strs, n);
      StoredMore(d, tab.strs, s, todo, id, m);
      s := s[tab.strs[id] := m];
      todo := todo - {id};
    }
  }
}
