// The word chains of the markov module, seen as a flat table from paths to counts.
// A path is a run of words from a top-level word down; a window is one learned run.
module MarkovTrie {
  import opened Basics
  import opened Totals

  type Counts<W(==)> = map<seq<W>, nat>

  // --- learning ---------------------------------------------------------------

  // The windows of one tokenized line: every run of order+1 consecutive tokens, or
  // the whole line when it is not longer than the order.
  function Windows<W(!new)>(order: nat, tokens: seq<W>): seq<seq<W>> {
    if tokens == [] then []
    else if |tokens| <= order then [tokens]
    else seq(|tokens| - order, i requires 0 <= i < |tokens| - order => tokens[i..i + order + 1])
  }

  // The sliding window itself: grow to order tokens, then shift by one.
  method SlideWindows<W(!new)>(order: nat, tokens: seq<W>) returns (windows: seq<seq<W>>)
    ensures windows == Windows(order, tokens)
  {
    hide Slid;
    windows := [];
    if |tokens| == 0 {
      return;
    }
    var prev, rest := [], tokens;
    while |prev| < order && |rest| > 0
      invariant |prev| <= order && |prev| <= |tokens|
      invariant prev == tokens[..|prev|] && rest == tokens[|prev|..]
    {
      prev, rest := prev + [rest[0]], rest[1..];
    }
    if |rest| == 0 {
      assert prev == tokens;
      return [prev];
    }
    SlidNone(order, tokens);
    ghost var done := 0;
    while |rest| > 0
      invariant 0 <= done <= |tokens| - order && |prev| == order && prev + rest == tokens[done..]
      invariant Slid(order, tokens, windows, done)
    {
      assert (prev + [rest[0]]) + rest[1..] == prev + rest;
      prev, rest := prev + [rest[0]], rest[1..];
      assert prev == (prev + rest)[..order + 1];
      SlidMore(order, tokens, windows, done, prev);
      windows, done := windows + [prev], done + 1;
      assert prev[1..] + rest == (prev + rest)[1..];
      prev := prev[1..];
    }
    SlidAll(order, tokens, windows, done);
  }

  // The windows starting at the first so many tokens.
  ghost predicate Slid<W(!new)>(order: nat, tokens: seq<W>, windows: seq<seq<W>>, done: nat) {
    && |windows| == done <= |tokens| - order
    && forall i :: 0 <= i < done ==> windows[i] == tokens[i..i + order + 1]
  }

  lemma SlidNone<W(!new)>(order: nat, tokens: seq<W>)
    requires order <= |tokens|
    ensures Slid(order, tokens, [], 0)
  {}

  lemma SlidMore<W(!new)>(order: nat, tokens: seq<W>, windows: seq<seq<W>>, done: nat, w: seq<W>)
    requires Slid(order, tokens, windows, done) && done + order + 1 <= |tokens|
    requires w == tokens[done..][..order + 1]
    ensures Slid(order, tokens, windows + [w], done + 1)
  {
    assert w == tokens[done..done + order + 1];
  }

  lemma SlidAll<W(!new)>(order: nat, tokens: seq<W>, windows: seq<seq<W>>, done: nat)
    requires Slid(order, tokens, windows, done) && done == |tokens| - order > 0
    ensures windows == Windows(order, tokens)
  {}

  function AllWindows<W(!new)>(order: nat, lines: seq<seq<W>>): seq<seq<W>> {
    if lines == [] then [] else AllWindows(order, lines[..|lines| - 1]) + Windows(order, lines[|lines| - 1])
  }

  // How many windows start with path p.
  ghost function Tally<W(!new)>(ws: seq<seq<W>>, p: seq<W>): nat {
    if ws == [] then 0
    else Tally(ws[..|ws| - 1], p) + if p <= ws[|ws| - 1] then 1 else 0
  }

  ghost predicate IsPathOf<W(!new)>(ws: seq<seq<W>>, p: seq<W>) {
    p != [] && exists i :: 0 <= i < |ws| && p <= ws[i]
  }

  ghost function PathsOf<W(!new)>(ws: seq<seq<W>>): (ps: set<seq<W>>)
    ensures forall p :: p in ps <==> IsPathOf(ws, p)
  {
    var ps := set i, k | 0 <= i < |ws| && 1 <= k <= |ws[i]| :: ws[i][..k];
    assert forall p :: IsPathOf(ws, p) ==> p in ps by {
      forall p | IsPathOf(ws, p) ensures p in ps {
        var i :| 0 <= i < |ws| && p <= ws[i];
        assert p == ws[i][..|p|];
      }
    }
    ps
  }

  // The trie that learning exactly these windows leaves behind.
  ghost function TrieOf<W(!new)>(ws: seq<seq<W>>): Counts<W> {
    map p | p in PathsOf(ws) :: Tally(ws, p)
  }

  // Add n to the count of every nonempty prefix of w, creating the missing nodes.
  ghost function Bump<W(!new)>(c: Counts<W>, w: seq<W>, n: nat): Counts<W> {
    if w == [] then c
    else Bump(c, w[..|w| - 1], n)[w := (if w in c then c[w] else 0) + n]
  }

  ghost predicate IsTrie<W(!new)>(c: Counts<W>) {
    [] !in c && forall p, k :: p in c && 1 <= k <= |p| ==> p[..k] in c
  }

  function Repeat<T>(x: T, n: nat): seq<T> {
    seq(n, _ => x)
  }

  lemma {:induction false} TallyAppend<W(!new)>(a: seq<seq<W>>, b: seq<seq<W>>, p: seq<W>)
    ensures Tally(a + b, p) == Tally(a, p) + Tally(b, p)
  {
    if b == [] {
      assert a + b == a;
    } else {
      assert (a + b)[..|a + b| - 1] == a + b[..|b| - 1];
      TallyAppend(a, b[..|b| - 1], p);
    }
  }

  lemma {:induction false} TallyPositive<W(!new)>(ws: seq<seq<W>>, p: seq<W>)
    ensures Tally(ws, p) > 0 <==> exists i :: 0 <= i < |ws| && p <= ws[i]
  {
    if ws != [] {
      var init := ws[..|ws| - 1];
      TallyPositive(init, p);
      assert forall i :: 0 <= i < |init| ==> init[i] == ws[i];
    }
  }

  lemma {:induction false} TallyRepeat<W(!new)>(w: seq<W>, n: nat, p: seq<W>)
    ensures Tally(Repeat(w, n), p) == if p <= w then n else 0
  {
    if n > 0 {
      assert Repeat(w, n)[..n - 1] == Repeat(w, n - 1);
      TallyRepeat(w, n - 1, p);
    }
  }

  lemma BumpStep<W(!new)>(c: Counts<W>, w: seq<W>, n: nat)
    ensures Bump(c, w, n) ==
            if w == [] then c else Bump(c, w[..|w| - 1], n)[w := (if w in c then c[w] else 0) + n]
  {}

  lemma {:induction false} BumpAt<W(!new)>(c: Counts<W>, w: seq<W>, n: nat, q: seq<W>)
    requires [] !in c
    ensures q in Bump(c, w, n) <==> q in c || (q != [] && q <= w)
    ensures q in Bump(c, w, n) ==> Bump(c, w, n)[q] == (if q in c then c[q] else 0) + if q <= w then n else 0
  {
    if w != [] {
      var init := w[..|w| - 1];
      BumpAt(c, init, n, q);
      assert q <= w <==> q <= init || q == w by {
        if q <= w && |q| < |w| { assert q == w[..|q|] == init[..|q|]; }
        assert init <= w;
      }
    }
  }

  // Bumping is what learning one more window, n times over, does to the trie.
  lemma BumpLearns<W(!new)>(ws: seq<seq<W>>, w: seq<W>, n: nat)
    requires n > 0
    ensures Bump(TrieOf(ws), w, n) == TrieOf(ws + Repeat(w, n))
  {
    var c, more := TrieOf(ws), ws + Repeat(w, n);
    forall p
      ensures p in Bump(c, w, n) <==> IsPathOf(more, p)
      ensures IsPathOf(more, p) ==> Bump(c, w, n)[p] == Tally(more, p)
    {
      BumpAt(c, w, n, p);
      TallyAppend(ws, Repeat(w, n), p);
      TallyRepeat(w, n, p);
      TallyPositive(ws, p);
      TallyPositive(more, p);
    }
  }

  // Learning windows one by one.
  ghost function Learn<W(!new)>(c: Counts<W>, ws: seq<seq<W>>): Counts<W> {
    if ws == [] then c else Bump(Learn(c, ws[..|ws| - 1]), ws[|ws| - 1], 1)
  }

  lemma LearnStep<W(!new)>(c: Counts<W>, ws: seq<seq<W>>, k: nat)
    requires k < |ws|
    ensures Learn(c, ws[..0]) == c
    ensures Learn(c, ws[..k + 1]) == Bump(Learn(c, ws[..k]), ws[k], 1)
  {
    assert ws[..k + 1][..k] == ws[..k];
  }

  lemma {:induction false} LearnIsTrieOf<W(!new)>(known: seq<seq<W>>, ws: seq<seq<W>>)
    ensures Learn(TrieOf(known), ws) == TrieOf(known + ws)
  {
    if ws == [] {
      assert known + ws == known;
    } else {
      var init, w := ws[..|ws| - 1], ws[|ws| - 1];
      LearnIsTrieOf(known, init);
      BumpLearns(known + init, w, 1);
      assert known + ws == known + init + Repeat(w, 1);
    }
  }

  // The count at a path is the number of learned windows that start with it, and
  // the trie has a node exactly for the paths some learned window starts with.
  lemma CountMeaning<W(!new)>(order: nat, lines: seq<seq<W>>, p: seq<W>)
    ensures var c := TrieOf(AllWindows(order, lines));
            && (p in c <==> p != [] && Tally(AllWindows(order, lines), p) > 0)
            && (p in c ==> c[p] == Tally(AllWindows(order, lines), p))
  {
    TallyPositive(AllWindows(order, lines), p);
  }

  // --- the trie is the multiset of its windows --------------------------------

  ghost function Children<W(!new)>(c: Counts<W>, p: seq<W>): map<seq<W>, nat> {
    map q | q in c && |q| == |p| + 1 && p <= q :: c[q]
  }

  ghost function ChildSum<W(!new)>(c: Counts<W>, p: seq<W>): nat {
    Total(Children(c, p))
  }

  // What is left of a node's count once its children are paid for: the windows that
  // ended there. The walk skips a node whose children outweigh it.
  ghost function Excess<W(!new)>(c: Counts<W>, p: seq<W>): nat
    requires p in c
  {
    if c[p] > ChildSum(c, p) then c[p] - ChildSum(c, p) else 0
  }

  // Every node's path, repeated as often as its excess, over the given nodes.
  ghost function Unlearn<W(!new)>(c: Counts<W>, nodes: set<seq<W>>): seq<seq<W>>
    requires nodes <= c.Keys
  {
    if nodes == {} then [] else
      var p :| p in nodes;
      Unlearn(c, nodes - {p}) + Repeat(p, Excess(c, p))
  }

  lemma {:induction false} RepeatMultiset<T>(x: T, n: nat, y: T)
    ensures multiset(Repeat(x, n))[y] == if y == x then n else 0
  {
    if n > 0 {
      assert Repeat(x, n) == Repeat(x, n - 1) + [x];
      RepeatMultiset(x, n - 1, y);
    }
  }

  lemma {:induction false} UnlearnMultiset<W(!new)>(c: Counts<W>, nodes: set<seq<W>>, q: seq<W>)
    requires nodes <= c.Keys
    ensures multiset(Unlearn(c, nodes))[q] == if q in nodes then Excess(c, q) else 0
    decreases nodes
  {
    if nodes != {} {
      var p :| p in nodes && Unlearn(c, nodes) == Unlearn(c, nodes - {p}) + Repeat(p, Excess(c, p));
      UnlearnMultiset(c, nodes - {p}, q);
      RepeatMultiset(p, Excess(c, p), q);
    }
  }

  ghost function Tallies<W(!new)>(ws: seq<seq<W>>, paths: set<seq<W>>): map<seq<W>, nat> {
    map q | q in paths :: Tally(ws, q)
  }

  lemma TalliesStep<W(!new)>(init: seq<seq<W>>, w: seq<W>, p: seq<W>, kids: set<seq<W>>)
    requires forall q :: q in kids ==> |q| == |p| + 1 && p <= q
    requires p < w ==> w[..|p| + 1] in kids
    ensures Total(Tallies(init + [w], kids)) == Total(Tallies(init, kids)) + if p < w then 1 else 0
  {
    var before, after := Tallies(init, kids), Tallies(init + [w], kids);
    assert (init + [w])[..|init|] == init;
    if p < w {
      var q0 := w[..|p| + 1];
      forall q | q in kids ensures q <= w <==> q == q0 {}
      assert after == before[q0 := before[q0] + 1];
      TotalUpdate(before, q0, before[q0] + 1);
    } else {
      forall q | q in kids ensures !(q <= w) {}
      assert after == before;
    }
  }

  // Among the windows starting with p, those equal to p and those going on into
  // some child of p account for all of them.
  lemma {:induction false} TallySplit<W(!new)>(ws: seq<seq<W>>, p: seq<W>, kids: set<seq<W>>)
    requires forall q :: q in kids ==> |q| == |p| + 1 && p <= q
    requires forall i :: 0 <= i < |ws| && p < ws[i] ==> ws[i][..|p| + 1] in kids
    ensures Tally(ws, p) == multiset(ws)[p] + Total(Tallies(ws, kids))
  {
    if ws == [] {
      TotalZero(Tallies(ws, kids));
      assert multiset(ws)[p] == 0;
    } else {
      var init, w := ws[..|ws| - 1], ws[|ws| - 1];
      assert ws == init + [w];
      TallySplit(init, p, kids) by {
        assert forall i :: 0 <= i < |init| ==> init[i] == ws[i];
      }
      TalliesStep(init, w, p, kids);
      assert multiset(ws)[p] == multiset(init)[p] + if w == p then 1 else 0;
      assert p <= w <==> p == w || p < w;
    }
  }

  // A node's excess is how often its very path was learned as a window.
  lemma ExcessIsMultiplicity<W(!new)>(ws: seq<seq<W>>, p: seq<W>)
    requires p in TrieOf(ws)
    ensures ChildSum(TrieOf(ws), p) + multiset(ws)[p] == TrieOf(ws)[p]
    ensures Excess(TrieOf(ws), p) == multiset(ws)[p]
  {
    var c := TrieOf(ws);
    var kids := Children(c, p).Keys;
    forall i | 0 <= i < |ws| && p < ws[i] ensures ws[i][..|p| + 1] in kids {
      assert IsPathOf(ws, ws[i][..|p| + 1]);
    }
    TallySplit(ws, p, kids);
    assert Children(c, p) == Tallies(ws, kids);
  }

  lemma {:induction false} TallyRemoveAt<W(!new)>(ws: seq<seq<W>>, j: nat, p: seq<W>)
    requires j < |ws|
    ensures Tally(ws, p) == Tally(ws[..j] + ws[j + 1..], p) + if p <= ws[j] then 1 else 0
  {
    assert ws == ws[..j] + [ws[j]] + ws[j + 1..];
    TallyAppend(ws[..j] + [ws[j]], ws[j + 1..], p);
    TallyAppend(ws[..j], [ws[j]], p);
    TallyAppend(ws[..j], ws[j + 1..], p);
    assert Tally([ws[j]], p) == Tally([], p) + if p <= ws[j] then 1 else 0;
  }

  lemma MultisetRemoveAt<T>(s: seq<T>, j: nat)
    requires j < |s|
    ensures multiset(s[..j] + s[j + 1..]) == multiset(s) - multiset{s[j]}
  {
    assert s == s[..j] + [s[j]] + s[j + 1..];
  }

  lemma {:induction false} TallyPermuted<W(!new)>(a: seq<seq<W>>, b: seq<seq<W>>, p: seq<W>)
    requires multiset(a) == multiset(b)
    ensures Tally(a, p) == Tally(b, p)
    decreases |a|
  {
    if a == [] {
      assert |multiset(b)| == |multiset(a)|;
    } else {
      var w := a[|a| - 1];
      MultisetRemoveAt(a, |a| - 1);
      TallyRemoveAt(a, |a| - 1, p);
      assert w in multiset(b);
      var j :| 0 <= j < |b| && b[j] == w;
      MultisetRemoveAt(b, j);
      TallyRemoveAt(b, j, p);
      TallyPermuted(a[..|a| - 1] + a[|a|..], b[..j] + b[j + 1..], p);
    }
  }

  // Learning order does not matter.
  lemma TriePermuted<W(!new)>(a: seq<seq<W>>, b: seq<seq<W>>)
    requires multiset(a) == multiset(b)
    ensures TrieOf(a) == TrieOf(b)
  {
    forall p ensures Tally(a, p) == Tally(b, p) && (p in PathsOf(a) <==> p in PathsOf(b)) {
      TallyPermuted(a, b, p);
      TallyPositive(a, p);
      TallyPositive(b, p);
    }
  }

  // No node without windows, and no node lighter than its children.
  ghost predicate Healthy<W(!new)>(c: Counts<W>) {
    IsTrie(c) && forall p :: p in c ==> c[p] > 0 && c[p] >= ChildSum(c, p)
  }

  lemma UnlearnPaths<W(!new)>(c: Counts<W>)
    requires IsTrie(c)
    ensures forall i :: 0 <= i < |Unlearn(c, c.Keys)| ==> Unlearn(c, c.Keys)[i] in c
    ensures PathsOf(Unlearn(c, c.Keys)) <= c.Keys
  {
    var ws := Unlearn(c, c.Keys);
    forall i | 0 <= i < |ws| ensures ws[i] in c {
      UnlearnMultiset(c, c.Keys, ws[i]);
      assert ws[i] in multiset(ws);
    }
    forall p | p in PathsOf(ws) ensures p in c {
      var i :| 0 <= i < |ws| && p <= ws[i];
      assert ws[i][..|p|] == p;
    }
  }

  lemma {:induction false} UnlearnTally<W(!new)>(c: Counts<W>, p: seq<W>, height: nat)
    requires Healthy(c) && p in c
    requires forall q :: q in c ==> |q| <= |p| + height
    ensures Tally(Unlearn(c, c.Keys), p) == c[p]
    decreases height
  {
    var ws := Unlearn(c, c.Keys);
    var kids := Children(c, p).Keys;
    UnlearnPaths(c);
    forall i | 0 <= i < |ws| && p < ws[i] ensures ws[i][..|p| + 1] in kids {
      assert ws[i] in c;
    }
    forall q | q in kids ensures Tally(ws, q) == c[q] {
      UnlearnTally(c, q, height - 1);
    }
    TallySplit(ws, p, kids);
    assert Children(c, p) == Tallies(ws, kids);
    UnlearnMultiset(c, c.Keys, p);
  }

  lemma {:induction false} LengthBound<W(!new)>(s: set<seq<W>>) returns (bound: nat)
    ensures forall q :: q in s ==> |q| <= bound
  {
    if s == {} {
      bound := 0;
    } else {
      var p :| p in s;
      bound := LengthBound(s - {p});
      if bound < |p| { bound := |p|; }
    }
  }

  lemma LearnedIsHealthy<W(!new)>(ws: seq<seq<W>>)
    ensures Healthy(TrieOf(ws))
  {
    var c := TrieOf(ws);
    forall p, k | p in c && 1 <= k <= |p| ensures p[..k] in c {
      assert IsPathOf(ws, p[..k]);
    }
    forall p | p in c ensures c[p] > 0 && c[p] >= ChildSum(c, p) {
      ExcessIsMultiplicity(ws, p);
      TallyPositive(ws, p);
    }
  }

  lemma HealthyRelearned<W(!new)>(c: Counts<W>)
    requires Healthy(c)
    ensures TrieOf(Unlearn(c, c.Keys)) == c
  {
    var bound := LengthBound(c.Keys);
    UnlearnPaths(c);
    TrieAgrees(c, Unlearn(c, c.Keys)) by {
      forall p | p in c ensures Tally(Unlearn(c, c.Keys), p) == c[p] {
        UnlearnTally(c, p, bound);
      }
    }
  }

  lemma TrieAgrees<W(!new)>(c: Counts<W>, ws: seq<seq<W>>)
    requires [] !in c && PathsOf(ws) <= c.Keys
    requires forall p :: p in c ==> c[p] > 0 && Tally(ws, p) == c[p]
    ensures TrieOf(ws) == c
  {
    forall p | p in c ensures IsPathOf(ws, p) {
      TallyPositive(ws, p);
    }
  }

  // Learned tries are exactly the healthy ones: relearning the windows read back
  // from a trie restores it if and only if the trie is healthy.
  lemma HealthyIsLearned<W(!new)>(c: Counts<W>)
    requires IsTrie(c)
    ensures TrieOf(Unlearn(c, c.Keys)) == c <==> Healthy(c)
  {
    LearnedIsHealthy(Unlearn(c, c.Keys));
    if Healthy(c) {
      HealthyRelearned(c);
    }
  }

  // --- the derived reverse dictionary -----------------------------------------

  ghost function ReverseAll<W(!new)>(ws: seq<seq<W>>): seq<seq<W>> {
    seq(|ws|, i requires 0 <= i < |ws| => Reverse(ws[i]))
  }

  // The reverse dictionary derived from the forward one alone.
  ghost function DerivedReverse<W(!new)>(c: Counts<W>): Counts<W> {
    TrieOf(ReverseAll(Unlearn(c, c.Keys)))
  }

  lemma {:induction false} ReverseAllMultiset<W(!new)>(ws: seq<seq<W>>, p: seq<W>)
    ensures multiset(ReverseAll(ws))[Reverse(p)] == multiset(ws)[p]
  {
    if ws == [] {
    } else {
      var init, w := ws[..|ws| - 1], ws[|ws| - 1];
      assert ws == init + [w];
      assert ReverseAll(ws) == ReverseAll(init) + [Reverse(w)];
      ReverseAllMultiset(init, p);
      ReverseTwice(p);
      ReverseTwice(w);
    }
  }

  lemma ReverseAllPermuted<W(!new)>(a: seq<seq<W>>, b: seq<seq<W>>)
    requires multiset(a) == multiset(b)
    ensures multiset(ReverseAll(a)) == multiset(ReverseAll(b))
  {
    forall p ensures multiset(ReverseAll(a))[p] == multiset(ReverseAll(b))[p] {
      ReverseAllMultiset(a, Reverse(p));
      ReverseAllMultiset(b, Reverse(p));
      ReverseTwice(p);
    }
  }

  // Reading back the windows of a learned trie gives the learned windows.
  lemma UnlearnLearned<W(!new)>(ws: seq<seq<W>>)
    requires forall i :: 0 <= i < |ws| ==> ws[i] != []
    ensures multiset(Unlearn(TrieOf(ws), TrieOf(ws).Keys)) == multiset(ws)
  {
    var c := TrieOf(ws);
    forall p ensures multiset(Unlearn(c, c.Keys))[p] == multiset(ws)[p] {
      UnlearnMultiset(c, c.Keys, p);
      if p in c {
        ExcessIsMultiplicity(ws, p);
      } else {
        forall i | 0 <= i < |ws| ensures ws[i] != p { assert IsPathOf(ws, ws[i]); }
      }
    }
  }

  lemma ReverseSlice<W>(s: seq<W>, i: nat, j: nat)
    requires i <= j <= |s|
    ensures Reverse(s)[i..j] == Reverse(s[|s| - j..|s| - i])
  {
    var a, b := Reverse(s)[i..j], s[|s| - j..|s| - i];
    forall k | 0 <= k < j - i ensures a[k] == Reverse(b)[k] {
      assert a[k] == s[|s| - 1 - (i + k)] == b[j - i - 1 - k];
    }
  }

  lemma WindowsReversed<W(!new)>(order: nat, tokens: seq<W>)
    ensures multiset(Windows(order, Reverse(tokens))) == multiset(ReverseAll(Windows(order, tokens)))
  {
    var fwd := Windows(order, tokens);
    var bwd := Windows(order, Reverse(tokens));
    if order < |tokens| {
      forall i | 0 <= i < |bwd| ensures bwd[i] == Reverse(fwd[|fwd| - 1 - i]) {
        ReverseSlice(tokens, i, i + order + 1);
      }
    }
    assert bwd == Reverse(ReverseAll(fwd));
    ReverseMultiset(ReverseAll(fwd));
  }

  lemma ReverseAllAppend<W(!new)>(a: seq<seq<W>>, b: seq<seq<W>>)
    ensures ReverseAll(a + b) == ReverseAll(a) + ReverseAll(b)
  {}

  lemma {:induction false} AllWindowsReversed<W(!new)>(order: nat, lines: seq<seq<W>>)
    ensures multiset(AllWindows(order, ReverseAll(lines))) == multiset(ReverseAll(AllWindows(order, lines)))
  {
    if lines != [] {
      var init, line := lines[..|lines| - 1], lines[|lines| - 1];
      AllWindowsReversed(order, init);
      WindowsReversed(order, line);
      assert ReverseAll(lines)[..|lines| - 1] == ReverseAll(init);
      ReverseAllAppend(AllWindows(order, init), Windows(order, line));
    }
  }

  lemma WindowsNonempty<W(!new)>(order: nat, tokens: seq<W>)
    ensures forall i :: 0 <= i < |Windows(order, tokens)| ==> 0 < |Windows(order, tokens)[i]| <= order + 1
  {}

  lemma {:induction false} AllWindowsNonempty<W(!new)>(order: nat, lines: seq<seq<W>>)
    ensures forall i :: 0 <= i < |AllWindows(order, lines)| ==> 0 < |AllWindows(order, lines)[i]| <= order + 1
  {
    if lines != [] {
      AllWindowsNonempty(order, lines[..|lines| - 1]);
    }
  }

  // An n-token line yields max(1, n - order) windows; each is a run of consecutive
  // tokens, the i-th starting at token i, and together they cover the line.
  lemma WindowShape<W(!new)>(order: nat, tokens: seq<W>)
    requires tokens != []
    ensures |Windows(order, tokens)| == if |tokens| - order > 1 then |tokens| - order else 1
    ensures forall i :: 0 <= i < |Windows(order, tokens)| ==>
              i + |Windows(order, tokens)[i]| <= |tokens|
              && Windows(order, tokens)[i] == tokens[i..i + |Windows(order, tokens)[i]|]
              && |Windows(order, tokens)[i]| == if |tokens| <= order then |tokens| else order + 1
  {}

  // The reverse dictionary derived from the trie of any lines is the trie that
  // learning every one of those lines backwards builds.
  lemma ReverseIsExact<W(!new)>(order: nat, lines: seq<seq<W>>)
    ensures DerivedReverse(TrieOf(AllWindows(order, lines))) == TrieOf(AllWindows(order, ReverseAll(lines)))
  {
    var ws := AllWindows(order, lines);
    var c := TrieOf(ws);
    AllWindowsNonempty(order, lines);
    UnlearnLearned(ws);
    ReverseAllPermuted(Unlearn(c, c.Keys), ws);
    AllWindowsReversed(order, lines);
    TriePermuted(ReverseAll(Unlearn(c, c.Keys)), AllWindows(order, ReverseAll(lines)));
  }

  // Deriving twice returns the original trie if and only if it is healthy.
  lemma ReverseTwiceRestores<W(!new)>(c: Counts<W>)
    requires IsTrie(c)
    ensures DerivedReverse(DerivedReverse(c)) == c <==> Healthy(c)
  {
    var ws := Unlearn(c, c.Keys);
    var back := ReverseAll(ws);
    UnlearnPaths(c);
    UnlearnLearned(back);
    var r := DerivedReverse(c);
    ReverseAllPermuted(Unlearn(r, r.Keys), back);
    assert ReverseAll(back) == ws by {
      forall i | 0 <= i < |ws| ensures ReverseAll(back)[i] == ws[i] { ReverseTwice(ws[i]); }
    }
    TriePermuted(ReverseAll(Unlearn(r, r.Keys)), ws);
    HealthyIsLearned(c);
  }

  // A stored node that counts nothing is such an unhealthy trie: deriving loses it.
  lemma ZeroCountLost<W(!new)>(w: W)
    ensures var c: Counts<W> := map[[w] := 0];
            IsTrie(c) && !Healthy(c) && DerivedReverse(c) == map[] && DerivedReverse(DerivedReverse(c)) != c
  {
    var c: Counts<W> := map[[w] := 0];
    assert IsTrie(c) by {
      forall p, k | p in c && 1 <= k <= |p| ensures p[..k] in c { assert p[..k] == p; }
    }
    assert [w] in c;
    UnlearnNothing(c, [w]);
    ReverseTwiceRestores(c);
  }

  lemma UnlearnNothing<W(!new)>(c: Counts<W>, p: seq<W>)
    requires c == map[p := 0]
    ensures DerivedReverse(c) == map[]
  {
    forall q ensures multiset(Unlearn(c, c.Keys))[q] == 0 { UnlearnMultiset(c, c.Keys, q); }
    var ws := Unlearn(c, c.Keys);
    assert multiset(ws) == multiset{} && |ws| == |multiset(ws)|;
    assert ws == [] && ReverseAll(ws) == [];
    assert PathsOf<W>([]) == {};
  }
}
