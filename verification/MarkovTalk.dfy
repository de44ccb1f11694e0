// Talking: every word is picked after words a learned line has just before it, or after
// them for the backward walk, unless it is a jump or a filler.
module MarkovTalk {
  import opened Basics
  import opened Totals
  import opened MarkovTrie
  import opened MarkovWords
  import opened MarkovCompact
  import opened MarkovRefinement
  import opened MarkovReverse

  // --- what a path of the trie says about the lines ---------------------------------------

  ghost predicate RunAt<W(!new)>(line: seq<W>, i: nat, run: seq<W>) {
    i + |run| <= |line| && line[i..i + |run|] == run
  }

  // Some line has the run as consecutive tokens.
  ghost predicate LearnedRun<W(!new)>(lines: seq<seq<W>>, run: seq<W>) {
    exists l, i: nat :: 0 <= l < |lines| && RunAt(lines[l], i, run)
  }

  lemma {:induction false} WindowIsRun<W(!new)>(order: nat, lines: seq<seq<W>>, k: nat)
    requires k < |AllWindows(order, lines)|
    ensures LearnedRun(lines, AllWindows(order, lines)[k])
  {
    var init, line := lines[..|lines| - 1], lines[|lines| - 1];
    var before := AllWindows(order, init);
    if k < |before| {
      WindowIsRun(order, init, k);
      var l, i: nat :| 0 <= l < |init| && RunAt(init[l], i, before[k]);
      assert lines[l] == init[l];
    } else {
      assert line != [];
      WindowShape(order, line);
      assert RunAt(line, k - |before|, Windows(order, line)[k - |before|]);
    }
  }

  lemma PathIsRun<W(!new)>(order: nat, lines: seq<seq<W>>, p: seq<W>)
    requires p in TrieOf(AllWindows(order, lines))
    ensures LearnedRun(lines, p)
  {
    var ws := AllWindows(order, lines);
    var k :| 0 <= k < |ws| && p <= ws[k];
    WindowIsRun(order, lines, k);
    var l, i: nat :| 0 <= l < |lines| && RunAt(lines[l], i, ws[k]);
    assert lines[l][i..i + |p|] == ws[k][..|p|] == p;
    assert RunAt(lines[l], i, p);
  }

  lemma ReversedPathIsRun<W(!new)>(order: nat, lines: seq<seq<W>>, p: seq<W>)
    requires p in TrieOf(AllWindows(order, ReverseAll(lines)))
    ensures LearnedRun(lines, Reverse(p))
  {
    hide AllWindows, TrieOf, Reverse;
    PathIsRun(order, ReverseAll(lines), p);
    var l, i: nat :| 0 <= l < |ReverseAll(lines)| && RunAt(ReverseAll(lines)[l], i, p);
    RunReversed(lines[l], i, p);
  }

  lemma RunReversed<W(!new)>(line: seq<W>, i: nat, p: seq<W>)
    requires RunAt(Reverse(line), i, p)
    ensures i + |p| <= |line| && RunAt(line, |line| - (i + |p|), Reverse(p))
  {
    ReverseSlice(line, i, i + |p|);
    ReverseTwice(line[|line| - (i + |p|)..|line| - i]);
  }

  // Word w goes on from the last words by a path of the trie.
  ghost predicate Follows<W(!new)>(c: Counts<W>, order: nat, words: seq<W>, w: W) {
    exists n: nat :: 1 <= n <= order && n <= |words| && Suffix(words, n) + [w] in c
  }

  function Suffix<W>(words: seq<W>, n: nat): seq<W>
    requires n <= |words|
  {
    words[|words| - n..]
  }

  // A word picked forward follows some of the last words in a line somebody wrote.
  lemma ForwardIsLearned<W(!new)>(order: nat, lines: seq<seq<W>>, words: seq<W>, w: W)
    requires Follows(TrieOf(AllWindows(order, lines)), order, words, w)
    ensures exists n: nat :: 1 <= n <= order && n <= |words| && LearnedRun(lines, Suffix(words, n) + [w])
  {
    var c := TrieOf(AllWindows(order, lines));
    var n: nat :| 1 <= n <= order && n <= |words| && Suffix(words, n) + [w] in c;
    PathIsRun(order, lines, Suffix(words, n) + [w]);
  }

  // A word picked backward from the derived reverse dictionary comes just before some of
  // the first words in a line somebody wrote.
  lemma BackwardIsLearned<W(!new)>(order: nat, lines: seq<seq<W>>, back: seq<W>, w: W)
    requires Follows(DerivedReverse(TrieOf(AllWindows(order, lines))), order, back, w)
    ensures exists n: nat :: 1 <= n <= order && n <= |back| && LearnedRun(lines, [w] + Reverse(back)[..n])
  {
    hide AllWindows, TrieOf, DerivedReverse, Reverse;
    ReverseIsExact(order, lines);
    var c := DerivedReverse(TrieOf(AllWindows(order, lines)));
    var n: nat :| 1 <= n <= order && n <= |back| && Suffix(back, n) + [w] in c;
    ReversedPathIsRun(order, lines, Suffix(back, n) + [w]);
    ReverseEnds(back, n, w);
  }

  lemma ReverseEnds<W>(back: seq<W>, n: nat, w: W)
    requires n <= |back|
    ensures Reverse(Suffix(back, n) + [w]) == [w] + Reverse(back)[..n]
  {}

  // --- picking ------------------------------------------------------------------------------

  // Follow a run of words down from the top, if all of it is there.
  method WalkChain(d: Dict, tab: Interner, run: seq<string>) returns (found: bool, nd: nat, ghost p: seq<nat>)
    requires d.Valid() && tab.Valid() && AllKnown(tab.strs, d.counts) && run != []
    ensures found <==> run in Spelled(tab.strs, d.counts)
    ensures found ==> d.Sits(p, nd) && Known(tab.strs, p) && Spell(tab.strs, p) == run
  {
    hide Spelled, Spell, Grown, IsTrie;
    found, nd, p := false, 0, [];
    SpellNone(tab.strs);
    assert run[..0] == [];
    for i := 0 to |run|
      invariant Known(tab.strs, p) && Spell(tab.strs, p) == run[..i]
      invariant i == 0 ==> p == []
      invariant i > 0 ==> d.Sits(p, nd)
    {
      assert run[..i + 1] == run[..i] + [run[i]];
      SpelledChild(tab.strs, d.counts, p, run[i]);
      var id, known := tab.Lookup(run[i]);
      if !known {
        CutShort(d, tab.strs, run, i);
        return;
      }
      OnlyId(tab.strs, id);
      if i == 0 {
        TopListed(d, id);
        if id !in d.chains {
          CutShort(d, tab.strs, run, i);
          return;
        }
        d.NoChains();
        nd := d.chains[id];
        assert p + [id] == [id];
      } else {
        d.ChildAt(p, nd, id);
        var k, here := Search(d.pool[nd].kids, id);
        if !here {
          assert p + [id] !in d.at;
          SameKeys(d);
          CutShort(d, tab.strs, run, i);
          return;
        }
        nd := d.pool[nd].kids[k].node;
      }
      SpellOne(tab.strs, p, id);
      p := p + [id];
    }
    assert run[..|run|] == run;
    found := true;
    SameKeys(d);
    SpelledAt(tab.strs, d.counts, p);
  }

  lemma SameKeys(d: Dict)
    requires d.Valid()
    ensures d.counts.Keys == d.at.Keys
  {}

  lemma OnlyId(strs: seq<string>, id: nat)
    requires Distinct(strs) && id < |strs|
    ensures forall x: nat :: x < |strs| && strs[x] == strs[id] ==> x == id
  {}

  // A path that breaks off is in no trie.
  lemma CutShort(d: Dict, strs: seq<string>, run: seq<string>, i: nat)
    requires d.Valid() && Distinct(strs) && AllKnown(strs, d.counts) && i < |run|
    requires run[..i + 1] !in Spelled(strs, d.counts)
    ensures run !in Spelled(strs, d.counts)
  {
    SpelledIsTrie(d, strs);
  }

  // The longest run of last words that is a chain, except that any may be skipped by
  // chance.
  method FindMaxOrderChain(d: Dict, tab: Interner, order: nat, last: seq<string>, skip: nat -> bool)
    returns (n: nat, nd: nat, ghost p: seq<nat>)
    requires d.Valid() && tab.Valid() && AllKnown(tab.strs, d.counts)
    ensures n <= order && n <= |last|
    ensures n > 0 ==> !skip(n) && d.Sits(p, nd) && Known(tab.strs, p) && Spell(tab.strs, p) == Suffix(last, n)
    ensures forall k :: n < k <= order && k <= |last| && Suffix(last, k) in Spelled(tab.strs, d.counts) ==> skip(k)
  {
    hide Spelled, Spell, Grown;
    n := if order < |last| then order else |last|;
    nd, p := 0, [];
    while n > 0
      invariant n <= order && n <= |last|
      invariant forall k :: n < k <= order && k <= |last| && Suffix(last, k) in Spelled(tab.strs, d.counts) ==> skip(k)
    {
      var found;
      found, nd, p := WalkChain(d, tab, Suffix(last, n));
      if found && !skip(n) {
        return;
      }
      n := n - 1;
    }
  }

  // --- the draw -----------------------------------------------------------------------------

  predicate Before(a: string, b: string) {
    b != "" && (a == "" || a[0] < b[0] || (a[0] == b[0] && Before(a[1..], b[1..])))
  }

  // The two words agree up to place k and differ there, the first one with the lesser letter.
  predicate LessAt(a: string, b: string, k: nat) {
    k < |a| && k < |b| && a[..k] == b[..k] && a[k] < b[k]
  }

  // A word comes before another if it is the start of it, or less at the first difference.
  lemma {:induction false} BeforeIs(a: string, b: string)
    ensures Before(a, b) <==> (a < b || exists k: nat :: LessAt(a, b, k))
  {
    if a != "" && b != "" && a[0] == b[0] {
      BeforeIs(a[1..], b[1..]);
      assert a == [a[0]] + a[1..] && b == [b[0]] + b[1..];
      if k: nat :| LessAt(a[1..], b[1..], k) {
        assert a[..k + 1] == [a[0]] + a[1..][..k] && b[..k + 1] == [b[0]] + b[1..][..k];
        assert LessAt(a, b, k + 1);
      }
      if k: nat :| LessAt(a, b, k) {
        assert k > 0;
        assert a[1..][..k - 1] == a[..k][1..] && b[1..][..k - 1] == b[..k][1..];
        assert LessAt(a[1..], b[1..], k - 1);
      }
    } else if a != "" && b != "" {
      forall k: nat | LessAt(a, b, k) ensures k == 0 {
        if k > 0 { FirstAgrees(a, b, k); }
      }
      if a[0] < b[0] { assert LessAt(a, b, 0); }
    }
  }

  lemma FirstAgrees(a: string, b: string, k: nat)
    requires LessAt(a, b, k) && k > 0
    ensures a[0] == b[0]
  {
    assert a[..k][0] == a[0] && b[..k][0] == b[0];
  }

  lemma {:induction false} BeforeTrans(a: string, b: string, c: string)
    requires !Before(b, a) && !Before(c, b)
    ensures !Before(c, a)
  {
    if a != "" && b != "" && c != "" && a[0] == b[0] == c[0] { BeforeTrans(a[1..], b[1..], c[1..]); }
  }

  lemma {:induction false} BeforeAsym(a: string, b: string)
    requires Before(a, b)
    ensures !Before(b, a)
  {
    if a != "" && a[0] == b[0] { BeforeAsym(a[1..], b[1..]); }
  }

  ghost predicate InOrder(strs: seq<string>, a: Kid, b: Kid) {
    a.word < |strs| && b.word < |strs| && !Before(strs[b.word], strs[a.word])
  }

  ghost predicate Alphabetical(kids: seq<Kid>, strs: seq<string>) {
    && (forall k :: k in kids ==> k.word < |strs|)
    && (forall i, j :: 0 <= i < j < |kids| ==> InOrder(strs, kids[i], kids[j]))
  }

  // The children in the order of their words.
  method SortedKids(kids: seq<Kid>, strs: seq<string>) returns (sorted: seq<Kid>)
    requires forall k :: k in kids ==> k.word < |strs|
    ensures Alphabetical(sorted, strs) && multiset(sorted) == multiset(kids)
  {
    hide Alphabetical;
    sorted := [];
    NoKids(strs);
    for i := 0 to |kids|
      invariant Alphabetical(sorted, strs) && multiset(sorted) == multiset(kids[..i])
    {
      assert kids[..i + 1] == kids[..i] + [kids[i]];
      sorted := InsertKid(sorted, kids[i], strs);
    }
    assert kids[..|kids|] == kids;
  }

  lemma NoKids(strs: seq<string>)
    ensures Alphabetical([], strs)
  {}

  method InsertKid(kids: seq<Kid>, x: Kid, strs: seq<string>) returns (more: seq<Kid>)
    requires Alphabetical(kids, strs) && x.word < |strs|
    ensures Alphabetical(more, strs) && multiset(more) == multiset(kids) + multiset{x}
  {
    var k := |kids|;
    while k > 0 && Before(strs[x.word], strs[kids[k - 1].word])
      invariant 0 <= k <= |kids|
      invariant forall i :: k <= i < |kids| ==> kids[i].word < |strs| && Before(strs[x.word], strs[kids[i].word])
    {
      k := k - 1;
    }
    InsertedKid(kids, x, strs, k);
    more := PutKid(kids, x, k);
  }

  function PutKid(kids: seq<Kid>, x: Kid, k: nat): seq<Kid>
    requires k <= |kids|
  {
    kids[..k] + [x] + kids[k..]
  }

  lemma EarlierKid(kids: seq<Kid>, x: Kid, strs: seq<string>, k: nat, i: nat)
    requires Alphabetical(kids, strs) && x.word < |strs| && i < k <= |kids|
    requires kids[k - 1].word < |strs| && !Before(strs[x.word], strs[kids[k - 1].word])
    ensures InOrder(strs, kids[i], x)
  {
    hide Before;
    if i < k - 1 {
      assert InOrder(strs, kids[i], kids[k - 1]);
      BeforeTrans(strs[kids[i].word], strs[kids[k - 1].word], strs[x.word]);
    }
  }

  lemma LaterKid(x: Kid, y: Kid, strs: seq<string>)
    requires x.word < |strs| && y.word < |strs| && Before(strs[x.word], strs[y.word])
    ensures InOrder(strs, x, y)
  {
    BeforeAsym(strs[x.word], strs[y.word]);
  }

  lemma InsertedKid(kids: seq<Kid>, x: Kid, strs: seq<string>, k: nat)
    requires Alphabetical(kids, strs) && x.word < |strs| && k <= |kids|
    requires forall i :: k <= i < |kids| ==> kids[i].word < |strs| && Before(strs[x.word], strs[kids[i].word])
    requires k > 0 ==> kids[k - 1].word < |strs| && !Before(strs[x.word], strs[kids[k - 1].word])
    ensures Alphabetical(PutKid(kids, x, k), strs) && multiset(PutKid(kids, x, k)) == multiset(kids) + multiset{x}
  {
    hide Before, InOrder;
    var more := PutKid(kids, x, k);
    PutKidHas(kids, x, k);
    forall i, j | 0 <= i < j < |more| ensures InOrder(strs, more[i], more[j]) {
      PutKidAt(kids, x, k, i);
      PutKidAt(kids, x, k, j);
      if j == k {
        EarlierKid(kids, x, strs, k, i);
      } else if i == k {
        LaterKid(x, kids[j - 1], strs);
      }
    }
  }

  lemma PutKidAt(kids: seq<Kid>, x: Kid, k: nat, i: nat)
    requires k <= |kids| && i <= |kids|
    ensures PutKid(kids, x, k)[i] == if i < k then kids[i] else if i == k then x else kids[i - 1]
  {}

  lemma PutKidHas(kids: seq<Kid>, x: Kid, k: nat)
    requires k <= |kids|
    ensures |PutKid(kids, x, k)| == |kids| + 1
    ensures multiset(PutKid(kids, x, k)) == multiset(kids) + multiset{x}
    ensures forall y :: y in PutKid(kids, x, k) <==> y in kids || y == x
  {
    assert kids == kids[..k] + kids[k..];
    forall y ensures y in PutKid(kids, x, k) <==> y in kids || y == x {
      assert y in kids <==> y in kids[..k] || y in kids[k..];
    }
  }

  // The counts of the first i children together.
  function Upto(pool: seq<CNode>, kids: seq<Kid>, i: nat): nat
    requires i <= |kids|
  {
    if i == 0 then 0
    else Upto(pool, kids, i - 1) + (if kids[i - 1].node < |pool| then pool[kids[i - 1].node].count else 0)
  }

  // The first child whose share, added to those before it, reaches r.
  ghost predicate Drawn(pool: seq<CNode>, kids: seq<Kid>, r: int, i: nat) {
    i < |kids| && r <= Upto(pool, kids, i + 1) && forall j: nat :: 0 < j <= i ==> r > Upto(pool, kids, j)
  }

  // A roll in [0, 1) scaled to the total weight, in whole numbers.
  function Target(roll: real, total: nat): int {
    (roll * total as real).Floor
  }

  ghost predicate DrawnWord(pool: seq<CNode>, all: seq<Kid>, strs: seq<string>, roll: real, kids: seq<Kid>, i: nat, w: string) {
    && Alphabetical(kids, strs) && multiset(kids) == multiset(all)
    && Drawn(pool, kids, Target(roll, Upto(pool, kids, |kids|)), i)
    && kids[i].word < |strs| && w == strs[kids[i].word]
  }

  // The roll is scaled to the weights of all the children and rounded down, and the child
  // drawn is the one whose own weight takes those before it to that, or past it.
  lemma {:induction false} DrawnIs(pool: seq<CNode>, kids: seq<Kid>, roll: real, i: nat)
    requires i < |kids| && forall k :: k in kids ==> k.node < |pool|
    ensures Upto(pool, kids, 0) == 0 && Upto(pool, kids, i + 1) == Upto(pool, kids, i) + pool[kids[i].node].count
    ensures var total := Upto(pool, kids, |kids|); var r := Target(roll, total);
            && r as real <= roll * total as real < (r + 1) as real
            && (Drawn(pool, kids, r, i) <==> (i == 0 || Upto(pool, kids, i) < r) && r <= Upto(pool, kids, i + 1))
  {
    assert kids[i] in kids;
    forall j: nat | 0 < j <= i ensures Upto(pool, kids, j) <= Upto(pool, kids, i) { UptoGrows(pool, kids, j, i); }
  }

  lemma {:induction false} UptoGrows(pool: seq<CNode>, kids: seq<Kid>, i: nat, j: nat)
    requires i <= j <= |kids|
    ensures Upto(pool, kids, i) <= Upto(pool, kids, j)
  {
    if i < j { UptoGrows(pool, kids, i, j - 1); }
  }

  lemma RollFits(roll: real, total: nat)
    requires 0.0 <= roll < 1.0
    ensures 0 <= Target(roll, total) <= total
  {
    assert roll * total as real <= 1.0 * total as real;
    assert roll * total as real >= 0.0;
  }

  method Draw(pool: seq<CNode>, kids: seq<Kid>, roll: real) returns (i: nat)
    requires kids != [] && 0.0 <= roll < 1.0
    ensures i < |kids| && Drawn(pool, kids, Target(roll, Upto(pool, kids, |kids|)), i)
  {
    var total, cums: seq<int> := 0, [];
    for i := 0 to |kids|
      invariant total == Upto(pool, kids, i) && |cums| == i
      invariant forall j :: 0 < j <= i ==> cums[j - 1] == Upto(pool, kids, j)
    {
      total := total + (if kids[i].node < |pool| then pool[kids[i].node].count else 0);
      cums := cums + [total];
    }
    RollFits(roll, total);
    var r := Target(roll, total);
    i := 0;
    while i < |kids| && r > cums[i]
      invariant 0 <= i <= |kids| && forall j :: 0 < j <= i ==> r > Upto(pool, kids, j)
    {
      assert cums[(i + 1) - 1] == Upto(pool, kids, i + 1);
      i := i + 1;
    }
    assert i < |kids|;
    assert cums[(i + 1) - 1] == Upto(pool, kids, i + 1);
  }

  // Draw a child by weight; there is one exactly if there are children.
  method WeightedPick(d: Dict, tab: Interner, nd: nat, ghost p: seq<nat>, roll: real) returns (w: Option<string>)
    requires d.Valid() && tab.Valid() && AllKnown(tab.strs, d.counts) && d.Sits(p, nd) && nd < |d.pool|
    requires Known(tab.strs, p) && 0.0 <= roll < 1.0
    ensures w.None? <==> d.pool[nd].kids == []
    ensures w.Some? ==> Spell(tab.strs, p) + [w.value] in Spelled(tab.strs, d.counts)
    ensures w.Some? ==> exists kids: seq<Kid>, i: nat :: DrawnWord(d.pool, d.pool[nd].kids, tab.strs, roll, kids, i, w.value)
  {
    hide Spelled, Spell, Grown, Alphabetical, Drawn, Upto, Target;
    if |d.pool[nd].kids| == 0 {
      return None;
    }
    KidWords(d, tab.strs, p, nd);
    var kids := SortedKids(d.pool[nd].kids, tab.strs);
    assert |multiset(kids)| == |kids| == |multiset(d.pool[nd].kids)|;
    var i := Draw(d.pool, kids, roll);
    assert kids[i] in multiset(d.pool[nd].kids);
    PickedChild(d, tab.strs, p, nd, kids[i]);
    w := Some(tab.strs[kids[i].word]);
    assert DrawnWord(d.pool, d.pool[nd].kids, tab.strs, roll, kids, i, w.value);
  }

  lemma KidWords(d: Dict, strs: seq<string>, p: seq<nat>, nd: nat)
    requires d.Valid() && AllKnown(strs, d.counts) && d.Sits(p, nd) && nd < |d.pool|
    ensures forall k :: k in d.pool[nd].kids ==> k.word < |strs| && p + [k.word] in d.counts
  {
    assert Fits(d.at, d.pool[nd].kids, p);
    forall k | k in d.pool[nd].kids ensures k.word < |strs| && p + [k.word] in d.counts {
      var q := p + [k.word];
      assert q in d.at && q in d.counts && q[|p|] == k.word;
    }
  }

  lemma PickedChild(d: Dict, strs: seq<string>, p: seq<nat>, nd: nat, k: Kid)
    requires d.Valid() && Distinct(strs) && AllKnown(strs, d.counts) && d.Sits(p, nd) && nd < |d.pool|
    requires Known(strs, p) && k in d.pool[nd].kids
    ensures k.word < |strs| && Spell(strs, p) + [strs[k.word]] in Spelled(strs, d.counts)
  {
    hide Spelled, Spell, Grown;
    KidWords(d, strs, p, nd);
    SpellOne(strs, p, k.word);
    SpelledAt(strs, d.counts, p + [k.word]);
  }

  // --- walks --------------------------------------------------------------------------------

  const START_TOKEN := "\U{02}"
  const END_TOKEN := "\U{03}"
  const FILLERS: set<string> := {".", "*BLLEUEURRURUHGHG*.", "...."}

  predicate Smiles(c: char) {
    c == ')' || c == '(' || c == 'p' || c == 'd' || c == 'D' || c == 'P' || c == 'X' || c == '^'
  }

  predicate Smiley(w: string) {
    exists i :: 0 <= i < |w| && (w[i] == ':' || w[i] == ';' || w[i] == '>' || w[i] == '^')
                && i + 1 < |w| && (Smiles(w[i + 1]) || (w[i + 1] == '-' && i + 2 < |w| && Smiles(w[i + 2])))
  }

  // A word that ends a sentence.
  predicate IsEol(w: string) {
    w == "" || w[|w| - 1] == '?' || w[|w| - 1] == '!' || w[|w| - 1] == '.' || Smiley(w)
  }

  // A word ends a sentence exactly if it is empty, ends in a sign, or has eyes, maybe a nose,
  // and a mouth in it.
  lemma EolIs(w: string)
    ensures IsEol(w) <==> w == "" || EndsInSign(w) || HasSmiley(w)
  {
    hide Smiley, HasSmiley;
    SmileyIs(w);
    if w != "" && w[|w| - 1] in "?!." { assert w == w[..|w| - 1] + [w[|w| - 1]]; }
  }

  lemma SmileyIs(w: string)
    ensures Smiley(w) <==> HasSmiley(w)
  {
    hide IsSmiley;
    if Smiley(w) { SmileyFound(w); }
    if a: string, eye: char, nose: string, mouth: char, b: string :| IsSmiley(w, a, eye, nose, mouth, b) {
      SmileySeen(w, a, eye, nose, mouth, b);
    }
  }

  lemma SmileySeen(w: string, a: string, eye: char, nose: string, mouth: char, b: string)
    requires IsSmiley(w, a, eye, nose, mouth, b)
    ensures Smiley(w)
  {
    var i := |a|;
    assert w[i] == eye;
    if nose == "" { assert w[i + 1] == mouth; } else { assert w[i + 1] == '-' && w[i + 2] == mouth; }
  }

  lemma SmileyFound(w: string)
    requires Smiley(w)
    ensures HasSmiley(w)
  {
    var i :| 0 <= i < |w| && (w[i] == ':' || w[i] == ';' || w[i] == '>' || w[i] == '^')
             && i + 1 < |w| && (Smiles(w[i + 1]) || (w[i + 1] == '-' && i + 2 < |w| && Smiles(w[i + 2])));
    if Smiles(w[i + 1]) { NoNose(w, i); } else { WithNose(w, i); }
  }

  lemma NoNose(w: string, i: nat)
    requires i + 1 < |w| && w[i] in ":;>^" && Smiles(w[i + 1])
    ensures HasSmiley(w)
  {
    assert w == w[..i] + [w[i]] + "" + [w[i + 1]] + w[i + 2..];
    assert IsSmiley(w, w[..i], w[i], "", w[i + 1], w[i + 2..]);
  }

  lemma WithNose(w: string, i: nat)
    requires i + 2 < |w| && w[i] in ":;>^" && w[i + 1] == '-' && Smiles(w[i + 2])
    ensures HasSmiley(w)
  {
    var rest := w[i + 3..];
    assert w == w[..i] + [w[i]] + ['-'] + [w[i + 2]] + rest;
    var nose: string := "-";
    assert nose == ['-'] && IsSmiley(w, w[..i], w[i], nose, w[i + 2], rest);
  }

  ghost predicate EndsInSign(w: string) {
    exists a: string, sign: char :: w == a + [sign] && sign in "?!."
  }

  ghost predicate HasSmiley(w: string) {
    exists a: string, eye: char, nose: string, mouth: char, b: string :: IsSmiley(w, a, eye, nose, mouth, b)
  }

  ghost predicate IsSmiley(w: string, a: string, eye: char, nose: string, mouth: char, b: string) {
    w == a + [eye] + nose + [mouth] + b && eye in ":;>^" && nose in {"", "-"} && mouth in ")(pdDPX^"
  }

  // --- one step -----------------------------------------------------------------------------

  // The longest run of last words that is a chain and that the roll did not skip.
  ghost predicate Chosen(c: Counts<string>, order: nat, words: seq<string>, skip: nat -> bool, n: nat) {
    && 1 <= n <= order && n <= |words| && Suffix(words, n) in c && !skip(n)
    && forall k {:trigger Suffix(words, k)} :: n < k <= order && k <= |words| && Suffix(words, k) in c ==> skip(k)
  }

  ghost predicate AllSkipped(c: Counts<string>, order: nat, words: seq<string>, skip: nat -> bool) {
    forall k {:trigger Suffix(words, k)} :: 0 < k <= order && k <= |words| && Suffix(words, k) in c ==> skip(k)
  }

  // No word goes on from p.
  ghost predicate Leaf(c: Counts<string>, p: seq<string>) {
    forall w :: p + [w] !in c
  }

  // Every chain there is was skipped, or the chosen one ends here.
  ghost predicate Stuck(c: Counts<string>, order: nat, words: seq<string>, skip: nat -> bool) {
    || AllSkipped(c, order, words, skip)
    || exists n: nat :: Chosen(c, order, words, skip, n) && Leaf(c, Suffix(words, n))
  }

  // Word w goes on from the chosen chain.
  ghost predicate Picked(c: Counts<string>, order: nat, words: seq<string>, skip: nat -> bool, w: string) {
    exists n: nat :: Chosen(c, order, words, skip, n) && Suffix(words, n) + [w] in c
  }

  lemma PickedFollows(c: Counts<string>, order: nat, words: seq<string>, skip: nat -> bool, w: string)
    requires Picked(c, order, words, skip, w)
    ensures Follows(c, order, words, w)
  {
    var n: nat :| Chosen(c, order, words, skip, n) && Suffix(words, n) + [w] in c;
  }

  // A walk is stuck exactly if nothing can be picked.
  lemma StuckExactly(c: Counts<string>, order: nat, words: seq<string>, skip: nat -> bool)
    ensures Stuck(c, order, words, skip) <==> forall w :: !Picked(c, order, words, skip, w)
  {
    if Stuck(c, order, words, skip) {
      forall w ensures !Picked(c, order, words, skip, w) {
        if Picked(c, order, words, skip, w) { StuckOrPicked(c, order, words, skip, w); }
      }
    } else {
      var n := SomeChosen(c, order, words, skip, if order < |words| then order else |words|);
      assert !Leaf(c, Suffix(words, n));
      var w :| Suffix(words, n) + [w] in c;
      assert Picked(c, order, words, skip, w);
    }
  }

  lemma StuckOrPicked(c: Counts<string>, order: nat, words: seq<string>, skip: nat -> bool, w: string)
    requires Picked(c, order, words, skip, w)
    ensures !Stuck(c, order, words, skip)
  {
    var n: nat :| Chosen(c, order, words, skip, n) && Suffix(words, n) + [w] in c;
    forall m: nat | Chosen(c, order, words, skip, m) ensures m == n {}
  }

  lemma {:induction false} SomeChosen(c: Counts<string>, order: nat, words: seq<string>, skip: nat -> bool, top: nat)
    returns (n: nat)
    requires top <= order && top <= |words| && !AllSkipped(c, order, words, skip)
    requires forall k :: top < k <= order && k <= |words| && Suffix(words, k) in c ==> skip(k)
    ensures Chosen(c, order, words, skip, n)
  {
    n := top;
    if top == 0 {
      assert false;
    } else if Suffix(words, top) !in c || skip(top) {
      n := SomeChosen(c, order, words, skip, top - 1);
    }
  }

  // Extend a walk by one word, or stop exactly where it is stuck; never a jump.
  method PickNext(d: Dict, tab: Interner, order: nat, words: seq<string>, skip: nat -> bool, roll: real)
    returns (w: Option<string>)
    requires d.Valid() && tab.Valid() && AllKnown(tab.strs, d.counts) && 0.0 <= roll < 1.0
    ensures w.None? <==> Stuck(Spelled(tab.strs, d.counts), order, words, skip)
    ensures w.Some? ==> Picked(Spelled(tab.strs, d.counts), order, words, skip, w.value)
  {
    hide Spelled, Spell, Grown, Stuck, Picked;
    var last := if |words| > order then Suffix(words, order) else words;
    var n, nd;
    ghost var p;
    n, nd, p := FindMaxOrderChain(d, tab, order, last, skip);
    ghost var c := Spelled(tab.strs, d.counts);
    LastAgree(order, words, last);
    if n == 0 {
      NoneChosen(c, order, words, last, skip);
      return None;
    }
    NodeThere(d, p, nd);
    SameKeys(d);
    SpelledAt(tab.strs, d.counts, p);
    ThisChosen(c, order, words, last, skip, n);
    w := WeightedPick(d, tab, nd, p, roll);
    LeafExactly(d, tab.strs, p, nd);
    PickEnds(c, order, words, skip, n, w);
  }

  lemma LastAgree(order: nat, words: seq<string>, last: seq<string>)
    requires last == if |words| > order then Suffix(words, order) else words
    ensures |last| <= |words| && (|last| == |words| || |last| == order)
    ensures forall k :: 0 <= k <= |last| ==> Suffix(last, k) == Suffix(words, k)
  {}

  lemma NoneChosen(c: Counts<string>, order: nat, words: seq<string>, last: seq<string>, skip: nat -> bool)
    requires |last| <= |words| && (|last| == |words| || |last| == order)
    requires forall k :: 0 <= k <= |last| ==> Suffix(last, k) == Suffix(words, k)
    requires forall k :: 0 < k <= order && k <= |last| && Suffix(last, k) in c ==> skip(k)
    ensures Stuck(c, order, words, skip)
  {
    forall k | 0 < k <= order && k <= |words| && Suffix(words, k) in c ensures skip(k) {
      assert Suffix(last, k) == Suffix(words, k);
    }
  }

  lemma ThisChosen(c: Counts<string>, order: nat, words: seq<string>, last: seq<string>, skip: nat -> bool, n: nat)
    requires |last| <= |words| && (|last| == |words| || |last| == order)
    requires forall k :: 0 <= k <= |last| ==> Suffix(last, k) == Suffix(words, k)
    requires 1 <= n <= order && n <= |last| && !skip(n) && Suffix(last, n) in c
    requires forall k :: n < k <= order && k <= |last| && Suffix(last, k) in c ==> skip(k)
    ensures Chosen(c, order, words, skip, n)
  {
    forall k | n < k <= order && k <= |words| && Suffix(words, k) in c ensures skip(k) {
      assert Suffix(last, k) == Suffix(words, k);
    }
  }

  // The outcome at the chosen chain tells whether the walk is stuck there.
  lemma PickEnds(c: Counts<string>, order: nat, words: seq<string>, skip: nat -> bool, n: nat, w: Option<string>)
    requires Chosen(c, order, words, skip, n)
    requires w.None? <==> Leaf(c, Suffix(words, n))
    requires w.Some? ==> Suffix(words, n) + [w.value] in c
    ensures w.None? <==> Stuck(c, order, words, skip)
    ensures w.Some? ==> Picked(c, order, words, skip, w.value)
  {
    if w.Some? { StuckOrPicked(c, order, words, skip, w.value); }
  }

  lemma NodeThere(d: Dict, p: seq<nat>, nd: nat)
    requires d.Valid() && d.Sits(p, nd)
    ensures nd < |d.pool|
  {}

  lemma LeafExactly(d: Dict, strs: seq<string>, p: seq<nat>, nd: nat)
    requires d.Valid() && Distinct(strs) && AllKnown(strs, d.counts) && d.Sits(p, nd) && nd < |d.pool| && Known(strs, p)
    ensures d.pool[nd].kids == [] <==> Leaf(Spelled(strs, d.counts), Spell(strs, p))
  {
    hide Spelled, Spell, Grown;
    if d.pool[nd].kids == [] {
      forall w ensures Spell(strs, p) + [w] !in Spelled(strs, d.counts) {
        SpelledChild(strs, d.counts, p, w);
        forall id: nat ensures p + [id] !in d.counts {
          d.ChildAt(p, nd, id);
          SameKeys(d);
        }
      }
    } else {
      PickedChild(d, strs, p, nd, d.pool[nd].kids[0]);
    }
  }

  // The words a jump may land on: the top-level words but for the sentence marks.
  ghost predicate TopWords(c: Counts<string>, keys: seq<string>) {
    forall w :: w in keys <==> [w] in c && w != START_TOKEN && w != END_TOKEN
  }

  // Nothing to go on from: no last word, one that starts no chain, or a stuck walk.
  ghost predicate DeadEnd(c: Counts<string>, order: nat, words: seq<string>, skip: nat -> bool) {
    words == [] || order == 0 || [words[|words| - 1]] !in c || Stuck(c, order, words, skip)
  }

  function Jump(keys: seq<string>, jump: nat): string {
    if keys == [] then "" else keys[jump % |keys|]
  }

  // The next word of a forward walk: along a chain, and a jump to some top-level word
  // exactly at a dead end. (An empty word in the dictionary, if drawn, is a dead end too.)
  method RandomWord(d: Dict, tab: Interner, order: nat, words: seq<string>, keys: seq<string>,
                    skip: nat -> bool, roll: real, jump: nat) returns (w: string)
    requires d.Valid() && tab.Valid() && AllKnown(tab.strs, d.counts) && 0.0 <= roll < 1.0
    ensures DeadEnd(Spelled(tab.strs, d.counts), order, words, skip) ==> w == Jump(keys, jump)
    ensures !DeadEnd(Spelled(tab.strs, d.counts), order, words, skip) ==>
              || (w != "" && Picked(Spelled(tab.strs, d.counts), order, words, skip, w))
              || (w == Jump(keys, jump) && Picked(Spelled(tab.strs, d.counts), order, words, skip, ""))
  {
    hide Spelled, Spell, Grown, Stuck, Picked;
    var known := words != [] && order > 0;
    if known {
      known := TopWord(d, tab, words[|words| - 1]);
    }
    if known {
      var next := PickNext(d, tab, order, words, skip, roll);
      if next.Some? && next.value != "" {
        return next.value;
      }
    }
    w := if keys == [] then "" else keys[jump % |keys|];
  }

  // Is there a chain for this word?
  method TopWord(d: Dict, tab: Interner, w: string) returns (yes: bool)
    requires d.Valid() && tab.Valid() && AllKnown(tab.strs, d.counts)
    ensures yes <==> [w] in Spelled(tab.strs, d.counts)
  {
    hide Spelled, Spell, Grown;
    var id, ok := tab.Lookup(w);
    yes := ok && id in d.chains;
    SpelledTop(d, tab.strs, w);
    if ok { OnlyId(tab.strs, id); }
  }

  // --- forward walks ------------------------------------------------------------------------

  // A jump may come for the next word.
  ghost predicate MayJump(c: Counts<string>, order: nat, words: seq<string>, skip: nat -> bool) {
    DeadEnd(c, order, words, skip) || Picked(c, order, words, skip, "")
  }

  // What may come next: a word picked along the chosen chain, or, at a dead end only, a
  // top-level word, or nothing if there is none.
  ghost predicate Next(c: Counts<string>, keys: seq<string>, order: nat, words: seq<string>, skip: nat -> bool, w: string) {
    || (w != "" && !DeadEnd(c, order, words, skip) && Picked(c, order, words, skip, w))
    || (MayJump(c, order, words, skip) && if keys == [] then w == "" else w in keys)
  }

  // What a message of so many words gets for it.
  function Put(w: string, so: nat): string {
    if w != "" && w != START_TOKEN then w else if so > 6 then "." else "*BLLEUEURRURUHGHG*."
  }

  // What may stand at place k of a message.
  ghost predicate Placed(c: Counts<string>, keys: seq<string>, order: nat, words: seq<string>, k: nat, skip: nat -> bool)
    requires k < |words|
  {
    exists w :: Next(c, keys, order, words[..k], skip, w) && w != END_TOKEN && words[k] == Put(w, k)
  }

  // The 42nd word put is there only to end the message.
  ghost predicate Fills(c: Counts<string>, keys: seq<string>, order: nat, words: seq<string>, from: nat,
                        skips: nat -> nat -> bool, k: nat)
    requires from <= k < |words|
  {
    if k == from + 41 then words[k] == "...." else Placed(c, keys, order, words, k, skips(k - from))
  }

  // Every word put after the first so many.
  ghost predicate AllPlaced(c: Counts<string>, keys: seq<string>, order: nat, words: seq<string>, from: nat,
                            skips: nat -> nat -> bool)
  {
    forall k :: from <= k < |words| ==> Fills(c, keys, order, words, from, skips, k)
  }

  // None of the words put so far ends a sentence.
  ghost predicate Quiet(words: seq<string>, from: nat) {
    forall k {:trigger words[k]} :: from <= k < |words| ==> !IsEol(words[k])
  }

  // The walk goes on past every word but one that ends a sentence; the word that runs it
  // out of patience is not looked at.
  ghost predicate WentOn(words: seq<string>, from: nat) {
    forall k {:trigger words[k]} :: from <= k < |words| - 1 && k != from + 40 ==> !IsEol(words[k])
  }

  lemma QuietMore(words: seq<string>, from: nat, w: string)
    requires Quiet(words, from)
    ensures WentOn(words, from) && WentOn(words + [w], from) && (!IsEol(w) ==> Quiet(words + [w], from))
    ensures |words| == from + 40 ==> WentOn(words + [w] + ["...."], from)
  {
    hide IsEol;
  }

  // Where a message stops: a learned end was picked, the last word ends a sentence, or it
  // is out of patience.
  ghost predicate Ended(c: Counts<string>, order: nat, words: seq<string>, from: nat, skips: nat -> nat -> bool) {
    && from <= |words| <= from + 42 && |words| != from + 41
    && (|words| == from + 42
        || Picked(c, order, words, skips(|words| - from), END_TOKEN)
        || (|words| > from && IsEol(words[|words| - 1])))
  }

  lemma PlacedKept(c: Counts<string>, keys: seq<string>, order: nat, words: seq<string>, from: nat,
                   skips: nat -> nat -> bool, x: string)
    requires AllPlaced(c, keys, order, words, from, skips)
    ensures forall k :: from <= k < |words| ==> Fills(c, keys, order, words + [x], from, skips, k)
  {
    hide Next, Put;
    forall k | from <= k < |words| ensures Fills(c, keys, order, words + [x], from, skips, k) {
      assert Fills(c, keys, order, words, from, skips, k);
      assert (words + [x])[..k] == words[..k] && (words + [x])[k] == words[k];
    }
  }

  lemma PlacedMore(c: Counts<string>, keys: seq<string>, order: nat, words: seq<string>, from: nat,
                   skips: nat -> nat -> bool, w: string)
    requires from <= |words| < from + 41
    requires AllPlaced(c, keys, order, words, from, skips)
    requires Next(c, keys, order, words, skips(|words| - from), w) && w != END_TOKEN
    ensures AllPlaced(c, keys, order, words + [Put(w, |words|)], from, skips)
  {
    hide Next, Put, Placed;
    PlacedKept(c, keys, order, words, from, skips, Put(w, |words|));
    PlacedLast(c, keys, order, words, skips(|words| - from), w);
  }

  lemma PlacedLast(c: Counts<string>, keys: seq<string>, order: nat, words: seq<string>, skip: nat -> bool, w: string)
    requires Next(c, keys, order, words, skip, w) && w != END_TOKEN
    ensures Placed(c, keys, order, words + [Put(w, |words|)], |words|, skip)
  {
    hide Next, Put;
    assert (words + [Put(w, |words|)])[..|words|] == words;
  }

  lemma PatienceOut(c: Counts<string>, keys: seq<string>, order: nat, words: seq<string>, from: nat,
                    skips: nat -> nat -> bool)
    requires |words| == from + 41
    requires AllPlaced(c, keys, order, words, from, skips)
    ensures AllPlaced(c, keys, order, words + ["...."], from, skips) && IsEol("....")
  {
    hide Next, Put, Placed;
    PlacedKept(c, keys, order, words, from, skips, "....");
  }

  // A jump never lands on a sentence mark.
  lemma OnlyPicked(c: Counts<string>, keys: seq<string>, order: nat, words: seq<string>, skip: nat -> bool, w: string)
    requires TopWords(c, keys) && Next(c, keys, order, words, skip, w) && (w == START_TOKEN || w == END_TOKEN)
    ensures Picked(c, order, words, skip, w)
  {}

  // A walk without a seed opens like a sentence, if sentences were learned.
  ghost function Opened(c: Counts<string>, seed: seq<string>): seq<string> {
    if seed == [] && [START_TOKEN] in c then [START_TOKEN] else seed
  }

  method Opening(d: Dict, tab: Interner, seed: seq<string>) returns (words: seq<string>)
    requires d.Valid() && tab.Valid() && AllKnown(tab.strs, d.counts)
    ensures words == Opened(Spelled(tab.strs, d.counts), seed)
  {
    hide Spelled;
    words := seed;
    if |words| == 0 {
      var opens := TopWord(d, tab, START_TOKEN);
      if opens { words := [START_TOKEN]; }
    }
  }

  // Walk forward until a learned end, a word that ends a sentence, or patience runs out.
  method RandomMessageFrom(d: Dict, tab: Interner, order: nat, seed: seq<string>, keys: seq<string>,
                           skips: nat -> nat -> bool, rolls: nat -> real, jumps: nat -> nat)
    returns (words: seq<string>, from: nat)
    requires d.Valid() && tab.Valid() && AllKnown(tab.strs, d.counts) && forall k :: 0.0 <= rolls(k) < 1.0
    requires TopWords(Spelled(tab.strs, d.counts), keys)
    ensures from <= |words|
    ensures words[..from] == Opened(Spelled(tab.strs, d.counts), seed)
    ensures AllPlaced(Spelled(tab.strs, d.counts), keys, order, words, from, skips)
    ensures Ended(Spelled(tab.strs, d.counts), order, words, from, skips) && WentOn(words, from)
  {
    hide Spelled, Spell, Grown, AllPlaced, WentOn, Quiet, Put, IsEol, Next, TopWords, Picked, DeadEnd, MayJump, Opened,
      Jump, AllKnown, Dict.Valid, Interner.Valid;
    ghost var c := Spelled(tab.strs, d.counts);
    words := Opening(d, tab, seed);
    from := |words|;
    ghost var start := words;
    assert words[..from] == start;
    NonePlaced(c, keys, order, words, skips);
    var looper := 0;
    while true
      invariant 0 <= looper <= 40 && |words| == from + looper && words[..from] == start
      invariant AllPlaced(c, keys, order, words, from, skips) && Quiet(words, from)
      decreases 40 - looper
    {
      var w := RandomWord(d, tab, order, words, keys, skips(looper), rolls(looper), jumps(looper));
      NextWord(c, keys, order, words, skips(looper), jumps(looper), w);
      PutIs(w, |words|);
      QuietMore(words, from, Put(w, |words|));
      if w == END_TOKEN {
        OnlyPicked(c, keys, order, words, skips(looper), w);
        return;
      }
      PlacedMore(c, keys, order, words, from, skips, w);
      if w == "" || w == START_TOKEN {
        w := if |words| > 6 then "." else "*BLLEUEURRURUHGHG*.";
      }
      words := words + [w];
      looper := looper + 1;
      if looper > 40 {
        PatienceOut(c, keys, order, words, from, skips);
        words := words + ["...."];
      }
      if IsEol(words[|words| - 1]) {
        return;
      }
    }
  }

  lemma PutIs(w: string, so: nat)
    ensures Put(w, so) == if w == "" || w == START_TOKEN then (if so > 6 then "." else "*BLLEUEURRURUHGHG*.") else w
  {}

  lemma NonePlaced(c: Counts<string>, keys: seq<string>, order: nat, words: seq<string>, skips: nat -> nat -> bool)
    ensures AllPlaced(c, keys, order, words, |words|, skips) && Quiet(words, |words|)
  {}

  // What RandomWord promises, as a next word.
  lemma NextWord(c: Counts<string>, keys: seq<string>, order: nat, words: seq<string>, skip: nat -> bool, jump: nat, w: string)
    requires DeadEnd(c, order, words, skip) ==> w == Jump(keys, jump)
    requires !DeadEnd(c, order, words, skip) ==>
               || (w != "" && Picked(c, order, words, skip, w))
               || (w == Jump(keys, jump) && Picked(c, order, words, skip, ""))
    ensures Next(c, keys, order, words, skip, w)
  {
    hide DeadEnd, Picked;
  }

  // --- middle-out ---------------------------------------------------------------------------

  // Each word after the first is picked to go on from those before it, is no learned end,
  // and opens the sentence only where the walk stops.
  ghost predicate Walk(c: Counts<string>, order: nat, back: seq<string>, skips: nat -> nat -> bool) {
    forall k {:trigger back[..k]} :: 0 < k < |back| ==>
      && Picked(c, order, back[..k], skips(k - 1), back[k])
      && back[k] != "" && back[k] != END_TOKEN && (back[k] == START_TOKEN ==> k == |back| - 1)
  }

  // Where a backward walk stops: it is long enough, opens the sentence, is stuck, or drew a
  // word it does not take.
  ghost predicate Halted(c: Counts<string>, order: nat, back: seq<string>, skips: nat -> nat -> bool) {
    || |back| == 16 || (|back| > 1 && back[|back| - 1] == START_TOKEN)
    || (|back| > 0 && (|| Stuck(c, order, back, skips(|back| - 1))
                       || Picked(c, order, back, skips(|back| - 1), "")
                       || Picked(c, order, back, skips(|back| - 1), END_TOKEN)))
  }

  lemma WalkMore(c: Counts<string>, order: nat, back: seq<string>, skips: nat -> nat -> bool, w: string)
    requires Walk(c, order, back, skips) && back != [] && Picked(c, order, back, skips(|back| - 1), w)
    requires w != "" && w != END_TOKEN && (|back| > 1 ==> back[|back| - 1] != START_TOKEN)
    ensures Walk(c, order, back + [w], skips)
  {
    hide Picked;
    var more := back + [w];
    forall k {:trigger more[..k]} | 0 < k < |more| ensures Picked(c, order, more[..k], skips(k - 1), more[k]) {
      if k < |back| {
        assert more[..k] == back[..k] && more[k] == back[k];
      } else {
        assert more[..k] == back;
      }
    }
    forall k | 0 < k < |back| ensures more[k] == back[k] && back[k] != "" && back[k] != END_TOKEN && back[k] != START_TOKEN {
      assert Picked(c, order, back[..k], skips(k - 1), back[k]);
    }
  }

  // Back from the seed to a sentence start through the reverse dictionary.
  method Backward(rev: Dict, tab: Interner, order: nat, seed: string, skips: nat -> nat -> bool, rolls: nat -> real)
    returns (back: seq<string>)
    requires rev.Valid() && tab.Valid() && AllKnown(tab.strs, rev.counts)
    requires forall k :: 0.0 <= rolls(k) < 1.0
    ensures 1 <= |back| <= 16 && back[0] == seed && Walk(Spelled(tab.strs, rev.counts), order, back, skips)
    ensures Halted(Spelled(tab.strs, rev.counts), order, back, skips)
  {
    hide Spelled, Spell, Grown, Picked, Stuck, Walk;
    back := [seed];
    ghost var c := Spelled(tab.strs, rev.counts);
    AloneWalk(c, order, seed, skips);
    for i := 0 to 15
      invariant |back| == 1 + i && back[0] == seed && Walk(c, order, back, skips)
      invariant i > 0 ==> back[|back| - 1] != START_TOKEN
    {
      var w := PickNext(rev, tab, order, back, skips(i), rolls(i));
      if w.None? || w.value == "" || w.value == END_TOKEN {
        return;
      }
      WalkMore(c, order, back, skips, w.value);
      back := back + [w.value];
      if w.value == START_TOKEN {
        return;
      }
    }
  }

  lemma AloneWalk(c: Counts<string>, order: nat, seed: string, skips: nat -> nat -> bool)
    ensures Walk(c, order, [seed], skips)
  {}

  // Back from the seed, then forward from all of that.
  method MiddleOut(d: Dict, rev: Dict, tab: Interner, order: nat, seed: string, keys: seq<string>,
                   skips: nat -> nat -> bool, rolls: nat -> real, jumps: nat -> nat)
    returns (words: seq<string>, back: seq<string>)
    requires d.Valid() && rev.Valid() && tab.Valid() && AllKnown(tab.strs, d.counts) && AllKnown(tab.strs, rev.counts)
    requires forall k :: 0.0 <= rolls(k) < 1.0
    requires TopWords(Spelled(tab.strs, d.counts), keys)
    ensures 1 <= |back| <= 16 && back[0] == seed && Walk(Spelled(tab.strs, rev.counts), order, back, skips)
    ensures Halted(Spelled(tab.strs, rev.counts), order, back, skips)
    ensures |back| <= |words| && words[..|back|] == Reverse(back)
    ensures AllPlaced(Spelled(tab.strs, d.counts), keys, order, words, |back|, (k: nat) => skips(k + 15))
    ensures Ended(Spelled(tab.strs, d.counts), order, words, |back|, (k: nat) => skips(k + 15)) && WentOn(words, |back|)
  {
    hide Spelled, Spell, Grown, AllPlaced, Ended, WentOn, Picked, Walk, Halted, TopWords;
    back := Backward(rev, tab, order, seed, skips, rolls);
    var turned := [];
    for k := 0 to |back|
      invariant |turned| == k && forall j :: 0 <= j < k ==> turned[j] == back[|back| - 1 - j]
    {
      turned := turned + [back[|back| - 1 - k]];
    }
    assert turned == Reverse(back);
    var from;
    words, from := RandomMessageFrom(d, tab, order, turned, keys, (k: nat) => skips(k + 15), (k: nat) => rolls(k + 15), jumps);
    assert turned != [] && |words[..from]| == |back|;
  }

  // --- what was learned ---------------------------------------------------------------------

  // Word k of a backward walk stands just before the words that follow it in some line.
  ghost predicate FoundBefore(order: nat, lines: seq<seq<string>>, back: seq<string>, k: nat)
    requires k < |back|
  {
    exists n: nat :: 1 <= n <= order && n <= k && LearnedRun(lines, [back[k]] + Reverse(back[..k])[..n])
  }

  // Word k of a message stands just after the words before it in some line.
  ghost predicate FoundAfter(order: nat, lines: seq<seq<string>>, words: seq<string>, k: nat)
    requires k < |words|
  {
    exists n: nat :: 1 <= n <= order && n <= k && LearnedRun(lines, Suffix(words[..k], n) + [words[k]])
  }

  // Each word put in front was found just before the words that follow it.
  lemma BackwardPart(order: nat, lines: seq<seq<string>>, back: seq<string>, skips: nat -> nat -> bool, k: nat)
    requires Walk(Learned(order, ReverseAll(lines)), order, back, skips) && 0 < k < |back|
    ensures FoundBefore(order, lines, back, k)
  {
    hide TrieOf, AllWindows, DerivedReverse;
    var c := Learned(order, ReverseAll(lines));
    assert Picked(c, order, back[..k], skips(k - 1), back[k]);
    PickedFollows(c, order, back[..k], skips(k - 1), back[k]);
    ReverseIsExact(order, lines);
    BackwardIsLearned(order, lines, back[..k], back[k]);
    var n: nat :| 1 <= n <= order && n <= k && LearnedRun(lines, [back[k]] + Reverse(back[..k])[..n]);
  }

  // And each word after the seed was found just after the words before it, or is a filler,
  // or was jumped to at a dead end.
  lemma ForwardPart(order: nat, lines: seq<seq<string>>, keys: seq<string>, words: seq<string>, from: nat,
                    skips: nat -> nat -> bool, k: nat)
    requires AllPlaced(Learned(order, lines), keys, order, words, from, skips) && from <= k < |words|
    requires words[k] !in FILLERS
    ensures || FoundAfter(order, lines, words, k)
            || (words[k] in keys && MayJump(Learned(order, lines), order, words[..k], skips(k - from)))
  {
    hide TrieOf, AllWindows, Follows, DeadEnd, Picked;
    var c := Learned(order, lines);
    assert Fills(c, keys, order, words, from, skips, k);
    var w :| Next(c, keys, order, words[..k], skips(k - from), w) && w != END_TOKEN && words[k] == Put(w, k);
    assert w == words[k] != "";
    if Picked(c, order, words[..k], skips(k - from), w) {
      PickedFollows(c, order, words[..k], skips(k - from), w);
      ForwardIsLearned(order, lines, words[..k], words[k]);
      var n: nat :| 1 <= n <= order && n <= k && LearnedRun(lines, Suffix(words[..k], n) + [words[k]]);
    }
  }

  // A message that stops without a sign or a filler stops where some line stopped.
  lemma EndPart(order: nat, lines: seq<seq<string>>, words: seq<string>, from: nat, skips: nat -> nat -> bool)
    requires Ended(Learned(order, lines), order, words, from, skips)
    requires |words| != from + 42 && (|words| > from ==> !IsEol(words[|words| - 1]))
    ensures exists n: nat :: 1 <= n <= order && n <= |words| && LearnedRun(lines, Suffix(words, n) + [END_TOKEN])
  {
    hide TrieOf, AllWindows, Follows, Picked, IsEol;
    var c := Learned(order, lines);
    PickedFollows(c, order, words, skips(|words| - from), END_TOKEN);
    ForwardIsLearned(order, lines, words, END_TOKEN);
  }

  lemma RunHas<W(!new)>(line: seq<W>, i: nat, run: seq<W>, k: nat)
    requires RunAt(line, i, run) && k < |run|
    ensures run[k] in line
  {
    assert run[k] == line[i + k];
  }

  // Lines have no empty words, so that a jump means a dead end.
  lemma NoEmptyWord(order: nat, lines: seq<seq<string>>, words: seq<string>, skip: nat -> bool)
    requires forall l :: l in lines ==> "" !in l
    ensures MayJump(Learned(order, lines), order, words, skip) <==> DeadEnd(Learned(order, lines), order, words, skip)
  {
    hide TrieOf, AllWindows, Follows, DeadEnd, Picked;
    var c := Learned(order, lines);
    if Picked(c, order, words, skip, "") {
      PickedFollows(c, order, words, skip, "");
      ForwardIsLearned(order, lines, words, "");
      var n: nat :| 1 <= n <= order && n <= |words| && LearnedRun(lines, Suffix(words, n) + [""]);
      var l, i: nat :| 0 <= l < |lines| && RunAt(lines[l], i, Suffix(words, n) + [""]);
      assert lines[l] in lines;
      RunHas(lines[l], i, Suffix(words, n) + [""], n);
    }
  }
  // What the lines say about a message: its words after the first so many, where it ends,
  // and that it went on until then. later is how many rolls were made before.
  ghost predicate WellForward(order: nat, lines: seq<seq<string>>, keys: seq<string>, words: seq<string>, from: nat,
                              skips: nat -> nat -> bool, later: nat)
  {
    && from <= |words|
    && (forall k {:trigger words[k]} :: from <= k < |words| && words[k] !in FILLERS ==>
          || FoundAfter(order, lines, words, k)
          || (words[k] in keys && MayJump(Learned(order, lines), order, words[..k], skips(k - from + later))))
    && Ended(Learned(order, lines), order, words, from, (k: nat) => skips(k + later))
    && WentOn(words, from)
  }

  // And about the words put in front of a seed.
  ghost predicate WellBack(order: nat, lines: seq<seq<string>>, seed: string, back: seq<string>, skips: nat -> nat -> bool) {
    && 0 < |back| <= 16 && back[0] == seed && Halted(Learned(order, ReverseAll(lines)), order, back, skips)
    && (forall k :: 0 < k < |back| ==> FoundBefore(order, lines, back, k))
  }

  // The answer to a request to talk, when both dictionaries hold the same lines: one word
  // that the reverse dictionary knows is extended both ways, anything else forward.
  method TalkMessage(d: Dict, rev: Dict, tab: Interner, order: nat, seed: seq<string>, keys: seq<string>,
                     skips: nat -> nat -> bool, rolls: nat -> real, jumps: nat -> nat, ghost lines: seq<seq<string>>)
    returns (words: seq<string>, back: seq<string>, from: nat)
    requires Spells(tab, d, order, lines) && Spells(tab, rev, order, ReverseAll(lines))
    requires TopWords(Learned(order, lines), keys) && forall k :: 0.0 <= rolls(k) < 1.0
    ensures from <= |words|
    ensures if |seed| == 1 && seed in Learned(order, ReverseAll(lines))
            then WellBack(order, lines, seed[0], back, skips) && words[..from] == Reverse(back)
            else back == [] && words[..from] == Opened(Learned(order, lines), seed)
    ensures WellForward(order, lines, keys, words, from, skips, if back == [] then 0 else 15)
  {
    hide Spelled, Dict.Valid, Interner.Valid, AllKnown, AllPlaced, Ended, WentOn, Walk, Halted, TopWords, Learned,
      WellForward, WellBack, Opened;
    if |seed| == 1 {
      var known := TopWord(rev, tab, seed[0]);
      assert seed == [seed[0]];
      if known {
        words, back := MiddleOut(d, rev, tab, order, seed[0], keys, skips, rolls, jumps);
        from := |back|;
        BackWords(order, lines, seed[0], back, skips);
        ForwardWords(order, lines, keys, words, from, skips, 15);
        return;
      }
    }
    back := [];
    words, from := RandomMessageFrom(d, tab, order, seed, keys, skips, rolls, jumps);
    FromStart(order, lines, keys, words, from, skips);
  }

  lemma BackWords(order: nat, lines: seq<seq<string>>, seed: string, back: seq<string>, skips: nat -> nat -> bool)
    requires 1 <= |back| <= 16 && back[0] == seed && Walk(Learned(order, ReverseAll(lines)), order, back, skips)
    requires Halted(Learned(order, ReverseAll(lines)), order, back, skips)
    ensures WellBack(order, lines, seed, back, skips)
  {
    hide FoundBefore, Walk, Halted;
    forall k | 0 < k < |back| ensures FoundBefore(order, lines, back, k) {
      BackwardPart(order, lines, back, skips, k);
    }
  }

  lemma ForwardWords(order: nat, lines: seq<seq<string>>, keys: seq<string>, words: seq<string>, from: nat,
                     skips: nat -> nat -> bool, later: nat)
    requires AllPlaced(Learned(order, lines), keys, order, words, from, (k: nat) => skips(k + later)) && from <= |words|
    requires Ended(Learned(order, lines), order, words, from, (k: nat) => skips(k + later)) && WentOn(words, from)
    ensures WellForward(order, lines, keys, words, from, skips, later)
  {
    hide AllPlaced, FoundAfter, MayJump, FILLERS, Ended, WentOn;
    var shifted := (k: nat) => skips(k + later);
    forall k {:trigger words[k]} | from <= k < |words| && words[k] !in FILLERS
      ensures || FoundAfter(order, lines, words, k)
              || (words[k] in keys && MayJump(Learned(order, lines), order, words[..k], skips(k - from + later)))
    {
      ForwardPart(order, lines, keys, words, from, shifted, k);
    }
  }

  lemma FromStart(order: nat, lines: seq<seq<string>>, keys: seq<string>, words: seq<string>, from: nat,
                  skips: nat -> nat -> bool)
    requires AllPlaced(Learned(order, lines), keys, order, words, from, skips) && from <= |words|
    requires Ended(Learned(order, lines), order, words, from, skips) && WentOn(words, from)
    ensures WellForward(order, lines, keys, words, from, skips, 0)
  {
    hide FoundAfter, MayJump, FILLERS, Placed, IsEol, Picked, WentOn;
    var shifted := (k: nat) => skips(k + 0);
    forall k | from <= k < |words| ensures Fills(Learned(order, lines), keys, order, words, from, shifted, k) {
      assert Fills(Learned(order, lines), keys, order, words, from, skips, k);
    }
    ForwardWords(order, lines, keys, words, from, skips, 0);
  }
}
