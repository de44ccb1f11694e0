// The storage shape of the chains, and the conversions to and from the compact shape.
module MarkovStorage {
  import opened Basics
  import opened MarkovTrie
  import opened MarkovWords
  import opened MarkovCompact

  datatype Node = Node(count: nat, children: map<string, Node>)

  // --- learning into the storage shape ----------------------------------------

  // Bump n and the nodes along words below it, creating the missing ones.
  function BumpNode(n: Node, words: seq<string>): Node
    decreases |words|
  {
    var m := n.(count := n.count + 1);
    if words == [] then m else
      var child := if words[0] in n.children then n.children[words[0]] else Node(0, map[]);
      m.(children := n.children[words[0] := BumpNode(child, words[1..])])
  }

  // Fold one window, cut to order+1 words, into the chains.
  function AddWords(chains: map<string, Node>, order: nat, words: seq<string>): map<string, Node>
    requires words != []
  {
    var used := if |words| > order + 1 then words[..order + 1] else words;
    var top := if used[0] in chains then chains[used[0]] else Node(0, map[]);
    chains[used[0] := BumpNode(top, used[1..])]
  }

  function AddAll(chains: map<string, Node>, order: nat, windows: seq<seq<string>>): map<string, Node>
    requires forall i :: 0 <= i < |windows| ==> windows[i] != []
  {
    if windows == [] then chains
    else AddWords(AddAll(chains, order, windows[..|windows| - 1]), order, windows[|windows| - 1])
  }

  // LearnLine on an already tokenized line.
  function LearnLine(chains: map<string, Node>, order: nat, tokens: seq<string>): map<string, Node> {
    AddAll(chains, order, Windows(order, tokens))
  }

  // The subtree n is what table c holds at path p and below.
  ghost predicate Mirrors(n: Node, c: Counts<string>, p: seq<string>) {
    && p in c && c[p] == n.count
    && (forall w :: w in n.children <==> p + [w] in c)
    && (forall w :: w in n.children ==> Mirrors(n.children[w], c, p + [w]))
  }

  ghost predicate MirrorsAll(chains: map<string, Node>, c: Counts<string>) {
    && (forall w :: w in chains <==> [w] in c)
    && (forall w :: w in chains ==> Mirrors(chains[w], c, [w]))
  }

  // A table mirrors at most one subtree.
  lemma {:induction false} MirrorsUnique(n: Node, m: Node, c: Counts<string>, p: seq<string>)
    requires Mirrors(n, c, p) && Mirrors(m, c, p)
    ensures n == m
  {
    forall w | w in n.children ensures w in m.children && n.children[w] == m.children[w] {
      assert p + [w] in c;
      MirrorsUnique(n.children[w], m.children[w], c, p + [w]);
    }
    forall w | w in m.children ensures w in n.children { assert p + [w] in c; }
    assert n.children == m.children;
  }

  lemma {:induction false} MirrorsFrame(n: Node, c: Counts<string>, d: Counts<string>, p: seq<string>)
    requires Mirrors(n, c, p)
    requires forall q :: p <= q ==> (q in c <==> q in d) && (q in c ==> c[q] == d[q])
    ensures Mirrors(n, d, p)
  {
    forall w ensures w in n.children <==> p + [w] in d { assert p <= p + [w]; }
    forall w | w in n.children ensures Mirrors(n.children[w], d, p + [w]) {
      MirrorsFrame(n.children[w], c, d, p + [w]);
    }
  }

  // Bumping the subtree at p along rest mirrors bumping the table along p + rest.
  lemma {:induction false} BumpNodeMirrors(n: Node, c: Counts<string>, p: seq<string>, rest: seq<string>)
    requires IsTrie(c) && p != []
    requires if p in c then Mirrors(n, c, p) else n == Node(0, map[])
    ensures Mirrors(BumpNode(n, rest), Bump(c, p + rest, 1), p)
    decreases |rest|
  {
    var d, m := Bump(c, p + rest, 1), BumpNode(n, rest);
    var full := p + rest;
    BumpAt(c, full, 1, p);
    forall w ensures w in m.children <==> p + [w] in d {
      BumpAt(c, full, 1, p + [w]);
      NextWord(p, rest, w);
      Unborn(c, p, w);
    }
    forall w | w in m.children ensures Mirrors(m.children[w], d, p + [w]) {
      Unborn(c, p, w);
      if rest != [] && w == rest[0] {
        assert p + rest == p + [w] + rest[1..];
        var child := if w in n.children then n.children[w] else Node(0, map[]);
        BumpNodeMirrors(child, c, p + [w], rest[1..]);
      } else {
        forall q | p + [w] <= q ensures (q in c <==> q in d) && (q in c ==> c[q] == d[q]) {
          BumpAt(c, full, 1, q);
          NextWord(p, rest, w);
        }
        MirrorsFrame(m.children[w], c, d, p + [w]);
      }
    }
  }

  lemma NextWord(p: seq<string>, rest: seq<string>, w: string)
    ensures p + [w] <= p + rest <==> rest != [] && rest[0] == w
    ensures p <= p + rest
  {
    if p + [w] <= p + rest { assert (p + rest)[|p|] == (p + [w])[|p|]; }
  }

  lemma Unborn(c: Counts<string>, p: seq<string>, w: string)
    requires IsTrie(c) && p != []
    ensures p !in c ==> p + [w] !in c
  {
    assert (p + [w])[..|p|] == p;
  }

  lemma AddWordsMirrors(chains: map<string, Node>, c: Counts<string>, order: nat, words: seq<string>)
    requires IsTrie(c) && MirrorsAll(chains, c) && 0 < |words| <= order + 1
    ensures MirrorsAll(AddWords(chains, order, words), Bump(c, words, 1))
  {
    var more, d := AddWords(chains, order, words), Bump(c, words, 1);
    var w0, rest := words[0], words[1..];
    assert words == [w0] + rest;
    forall w ensures w in more <==> [w] in d {
      BumpAt(c, words, 1, [w]);
      NextWord([], words, w);
      assert [] + [w] == [w] && [] + words == words;
    }
    forall w | w in more ensures Mirrors(more[w], d, [w]) {
      if w == w0 {
        BumpNodeMirrors(if w in chains then chains[w] else Node(0, map[]), c, [w0], rest);
      } else {
        forall q | [w] <= q ensures (q in c <==> q in d) && (q in c ==> c[q] == d[q]) {
          BumpAt(c, words, 1, q);
        }
        MirrorsFrame(chains[w], c, d, [w]);
      }
    }
  }

  lemma {:induction false} BumpIsTrie<W(!new)>(c: Counts<W>, w: seq<W>, n: nat)
    requires IsTrie(c)
    ensures IsTrie(Bump(c, w, n))
  {
    BumpAt(c, w, n, []);
    forall p, k | p in Bump(c, w, n) && 1 <= k <= |p| ensures p[..k] in Bump(c, w, n) {
      BumpAt(c, w, n, p);
      BumpAt(c, w, n, p[..k]);
    }
  }

  lemma {:induction false} AddAllMirrors(chains: map<string, Node>, c: Counts<string>, order: nat, windows: seq<seq<string>>)
    requires IsTrie(c) && MirrorsAll(chains, c)
    requires forall i :: 0 <= i < |windows| ==> 0 < |windows[i]| <= order + 1
    ensures IsTrie(Learn(c, windows))
    ensures MirrorsAll(AddAll(chains, order, windows), Learn(c, windows))
  {
    if windows != [] {
      var init, w := windows[..|windows| - 1], windows[|windows| - 1];
      AddAllMirrors(chains, c, order, init);
      AddWordsMirrors(AddAll(chains, order, init), Learn(c, init), order, w);
      BumpIsTrie(Learn(c, init), w, 1);
    }
  }

  // Learning a line into the storage shape is learning its windows.
  lemma LearnLineMirrors(chains: map<string, Node>, c: Counts<string>, order: nat, tokens: seq<string>)
    requires IsTrie(c) && MirrorsAll(chains, c)
    ensures MirrorsAll(LearnLine(chains, order, tokens), Learn(c, Windows(order, tokens)))
  {
    WindowsNonempty(order, tokens);
    AddAllMirrors(chains, c, order, Windows(order, tokens));
  }

  // --- conversions ------------------------------------------------------------

  ghost predicate KidFor(strs: seq<string>, kids: seq<Kid>, w: string) {
    exists k :: 0 <= k < |kids| && kids[k].word < |strs| && strs[kids[k].word] == w
  }

  // The compact subtree at node nd is the image of n: same counts, the same children
  // in ascending id order.
  ghost predicate Images(pool: seq<CNode>, strs: seq<string>, nd: nat, n: Node)
    decreases n, 1
  {
    && nd < |pool| && pool[nd].count == n.count && Ascending(pool[nd].kids)
    && (forall k :: k in pool[nd].kids ==> KidImages(pool, strs, k, n))
    && (forall w :: w in n.children ==> KidFor(strs, pool[nd].kids, w))
  }

  ghost predicate KidImages(pool: seq<CNode>, strs: seq<string>, k: Kid, n: Node)
    decreases n, 0
  {
    && k.word < |strs| && strs[k.word] in n.children
    && Images(pool, strs, k.node, n.children[strs[k.word]])
  }

  // More nodes and more words do not disturb an image.
  lemma {:induction false} ImagesGrow(pool: seq<CNode>, strs: seq<string>, pool': seq<CNode>, strs': seq<string>, nd: nat, n: Node)
    requires Images(pool, strs, nd, n) && pool <= pool' && strs <= strs'
    ensures Images(pool', strs', nd, n)
    decreases n, 1
  {
    var kids := pool[nd].kids;
    assert pool'[nd] == pool[nd];
    forall k | k in kids ensures KidImages(pool', strs', k, n) {
      KidImagesGrow(pool, strs, pool', strs', k, n);
    }
    forall w | w in n.children ensures KidFor(strs', kids, w) {
      assert KidFor(strs, kids, w);
    }
  }

  lemma {:induction false} KidImagesGrow(pool: seq<CNode>, strs: seq<string>, pool': seq<CNode>, strs': seq<string>, k: Kid, n: Node)
    requires KidImages(pool, strs, k, n) && pool <= pool' && strs <= strs'
    ensures KidImages(pool', strs', k, n)
    decreases n, 0
  {
    ImagesGrow(pool, strs, pool', strs', k.node, n.children[strs[k.word]]);
  }

  ghost predicate DistinctWords(kids: seq<Kid>) {
    forall i, j :: 0 <= i < j < |kids| ==> kids[i].word != kids[j].word
  }

  lemma InsertedAt(kids: seq<Kid>, at: nat, k: Kid)
    requires Ascending(kids) && at <= |kids|
    requires forall i :: 0 <= i < at ==> kids[i].word < k.word
    requires forall i :: at <= i < |kids| ==> k.word < kids[i].word
    ensures Ascending(kids[..at] + [k] + kids[at..])
    ensures multiset(kids[..at] + [k] + kids[at..]) == multiset(kids) + multiset{k}
  {
    assert kids == kids[..at] + kids[at..];
  }

  lemma NotYet(kids: seq<Kid>, i: nat, sorted: seq<Kid>)
    requires DistinctWords(kids) && i < |kids| && multiset(sorted) == multiset(kids[..i])
    ensures !HasKid(sorted, kids[i].word)
  {
    forall k | 0 <= k < |sorted| ensures sorted[k].word != kids[i].word {
      assert sorted[k] in multiset(kids[..i]);
    }
  }

  lemma InsertedNew(kids: seq<Kid>, at: nat, k: Kid)
    requires Ascending(kids) && at <= |kids| && !HasKid(kids, k.word)
    requires forall i :: 0 <= i < at ==> kids[i].word < k.word
    requires forall i :: at <= i < |kids| ==> k.word <= kids[i].word
    ensures Ascending(kids[..at] + [k] + kids[at..])
    ensures multiset(kids[..at] + [k] + kids[at..]) == multiset(kids) + multiset{k}
  {
    hide Ascending;
    InsertedAt(kids, at, k);
  }

  // The sort by word id.
  method SortKids(kids: seq<Kid>) returns (sorted: seq<Kid>)
    requires DistinctWords(kids)
    ensures Ascending(sorted) && multiset(sorted) == multiset(kids)
  {
    hide DistinctWords, HasKid, Ascending;
    sorted := [];
    NoneSorted();
    for i := 0 to |kids|
      invariant Ascending(sorted) && multiset(sorted) == multiset(kids[..i])
    {
      var at, found := Search(sorted, kids[i].word);
      NotYet(kids, i, sorted);
      InsertedNew(sorted, at, kids[i]);
      sorted := sorted[..at] + [kids[i]] + sorted[at..];
      assert kids[..i + 1] == kids[..i] + [kids[i]];
    }
    assert kids[..|kids|] == kids;
  }

  lemma NoneSorted()
    ensures Ascending([])
  {}

  // kids images exactly the children of n named in done.
  ghost predicate KidsFor(pool: seq<CNode>, strs: seq<string>, kids: seq<Kid>, n: Node, done: set<string>) {
    && DistinctWords(kids)
    && (forall k :: k in kids ==> KidImages(pool, strs, k, n) && strs[k.word] in done)
    && (forall w :: w in done ==> KidFor(strs, kids, w))
  }

  lemma KidsMore(pool: seq<CNode>, strs: seq<string>, kids: seq<Kid>, n: Node, done: set<string>,
                 pool': seq<CNode>, strs': seq<string>, w: string, id: nat, ch: nat)
    requires KidsFor(pool, strs, kids, n, done) && w !in done && w in n.children
    requires pool <= pool' && strs <= strs' && id < |strs'| && strs'[id] == w
    requires Images(pool', strs', ch, n.children[w])
    ensures KidsFor(pool', strs', kids + [Kid(id, ch)], n, done + {w})
  {
    hide Images;
    var more := kids + [Kid(id, ch)];
    forall k | k in more ensures KidImages(pool', strs', k, n) && strs'[k.word] in done + {w} {
      if k in kids { KidImagesGrow(pool, strs, pool', strs', k, n); }
    }
    forall x | x in done + {w} ensures KidFor(strs', more, x) {
      if x in done {
        assert KidFor(strs, kids, x);
        var i :| 0 <= i < |kids| && kids[i].word < |strs| && strs[kids[i].word] == x;
        assert more[i] == kids[i];
      } else {
        assert more[|kids|].word == id;
      }
    }
    forall i | 0 <= i < |kids| ensures kids[i].word != id {
      assert kids[i] in kids && strs'[kids[i].word] == strs[kids[i].word];
    }
  }

  lemma KidsSorted(pool: seq<CNode>, strs: seq<string>, kids: seq<Kid>, sorted: seq<Kid>, n: Node)
    requires KidsFor(pool, strs, kids, n, n.children.Keys)
    requires Ascending(sorted) && multiset(sorted) == multiset(kids)
    ensures Images(pool + [CNode(n.count, sorted)], strs, |pool|, n)
  {
    var pool' := pool + [CNode(n.count, sorted)];
    forall k | k in sorted ensures KidImages(pool', strs, k, n) {
      assert k in multiset(kids);
      KidImagesGrow(pool, strs, pool', strs, k, n);
    }
    forall w | w in n.children ensures KidFor(strs, sorted, w) {
      assert KidFor(strs, kids, w);
      var i :| 0 <= i < |kids| && kids[i].word < |strs| && strs[kids[i].word] == w;
      assert kids[i] in multiset(sorted);
      var j :| 0 <= j < |sorted| && sorted[j] == kids[i];
    }
  }

  // Convert a storage subtree to the compact shape, appending its nodes to a pool and
  // interning its words on the way.
  method ToCompact(n: Node, pool: seq<CNode>, tab: Interner) returns (pool': seq<CNode>, nd: nat)
    requires tab.Valid()
    modifies tab
    ensures tab.Valid() && pool <= pool' && old(tab.strs) <= tab.strs
    ensures Images(pool', tab.strs, nd, n)
    decreases n
  {
    hide Images;
    var kids: seq<Kid> := [];
    var todo := n.children.Keys;
    ghost var done: set<string> := {};
    pool' := pool;
    while todo != {}
      invariant todo + done == n.children.Keys && todo !! done
      invariant tab.Valid() && pool <= pool' && old(tab.strs) <= tab.strs
      invariant KidsFor(pool', tab.strs, kids, n, done)
    {
      ghost var pool0, strs0 := pool', tab.strs;
      var w :| w in todo;
      var id := tab.Id(w);
      var ch;
      pool', ch := ToCompact(n.children[w], pool', tab);
      KidsMore(pool0, strs0, kids, n, done, pool', tab.strs, w, id, ch);
      kids := kids + [Kid(id, ch)];
      todo, done := todo - {w}, done + {w};
    }
    var sorted := SortKids(kids);
    KidsSorted(pool', tab.strs, kids, sorted, n);
    pool', nd := pool' + [CNode(n.count, sorted)], |pool'|;
  }

  // Convert a compact subtree back; n is the storage subtree it images.
  method FromCompact(pool: seq<CNode>, nd: nat, strs: seq<string>, ghost n: Node) returns (m: Node)
    requires Images(pool, strs, nd, n)
    ensures m == n
    decreases n
  {
    hide Images;
    ImageFacts(pool, strs, nd, n);
    var kids := pool[nd].kids;
    var children: map<string, Node> := map[];
    for i := 0 to |kids|
      invariant forall w :: w in children ==> w in n.children && children[w] == n.children[w]
      invariant forall j :: 0 <= j < i ==> strs[kids[j].word] in children
    {
      var w := strs[kids[i].word];
      var child := FromCompact(pool, kids[i].node, strs, n.children[w]);
      children := children[w := child];
    }
    assert children.Keys == n.children.Keys;
    m := Node(pool[nd].count, children);
  }

  lemma ImageFacts(pool: seq<CNode>, strs: seq<string>, nd: nat, n: Node)
    requires Images(pool, strs, nd, n)
    ensures nd < |pool| && pool[nd].count == n.count
    ensures var kids := pool[nd].kids;
            && (forall j :: 0 <= j < |kids| ==>
                  kids[j].word < |strs| && strs[kids[j].word] in n.children
                  && Images(pool, strs, kids[j].node, n.children[strs[kids[j].word]]))
            && (forall w :: w in n.children ==> exists j :: 0 <= j < |kids| && strs[kids[j].word] == w)
  {
    var kids := pool[nd].kids;
    forall j | 0 <= j < |kids| ensures KidImages(pool, strs, kids[j], n) { assert kids[j] in kids; }
    forall w | w in n.children ensures exists j :: 0 <= j < |kids| && strs[kids[j].word] == w {
      assert KidFor(strs, kids, w);
    }
  }

  // Storage to compact and back is the identity.
  method RoundTrip(n: Node, pool: seq<CNode>, tab: Interner) returns (m: Node)
    requires tab.Valid()
    modifies tab
    ensures m == n
  {
    var pool', nd := ToCompact(n, pool, tab);
    m := FromCompact(pool', nd, tab.strs, n);
  }

  // Storage can hold a node that counts nothing; this is its flat table.
  lemma ZeroNodeMirrors(w: string)
    ensures MirrorsAll(map[w := Node(0, map[])], map[[w] := 0])
  {
    var t: Counts<string> := map[[w] := 0];
    forall x ensures [x] in t <==> x == w { assert [x][0] == x; }
    forall x ensures [w] + [x] !in t { assert |[w] + [x]| == 2; }
  }
}
