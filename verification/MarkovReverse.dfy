// The forward and the reverse dictionary side by side: both spell the same lines.
module MarkovReverse {
  import opened Basics
  import opened Totals
  import opened MarkovTrie
  import opened MarkovWords
  import opened MarkovCompact

  // --- deriving commutes with spelling --------------------------------------------------------

  ghost function SpellAll(strs: seq<string>, ws: seq<seq<nat>>): seq<seq<string>>
    requires forall i :: 0 <= i < |ws| ==> Known(strs, ws[i])
  {
    seq(|ws|, i requires 0 <= i < |ws| => Spell(strs, ws[i]))
  }

  ghost predicate KnownAll(strs: seq<string>, ws: seq<seq<nat>>) {
    forall i :: 0 <= i < |ws| ==> Known(strs, ws[i])
  }

  lemma SpellBelow(strs: seq<string>, p: seq<nat>, q: seq<nat>)
    requires Distinct(strs) && Known(strs, p) && Known(strs, q)
    ensures p <= q <==> Spell(strs, p) <= Spell(strs, q)
  {
    hide Spell;
    if |p| <= |q| {
      SpellPrefix(strs, q, |p|);
      SpellInjective(strs, p, q[..|p|]);
    }
  }

  lemma SpellReverse(strs: seq<string>, p: seq<nat>)
    requires Known(strs, p)
    ensures Spell(strs, Reverse(p)) == Reverse(Spell(strs, p))
  {
    forall i | 0 <= i < |p| ensures Spell(strs, Reverse(p))[i] == Reverse(Spell(strs, p))[i] {
      SpellAt(strs, Reverse(p), i);
      SpellAt(strs, p, |p| - 1 - i);
    }
  }

  // Reading a trie in words changes no sum of counts.
  lemma {:induction false} SpelledTotal(strs: seq<string>, m: Counts<nat>)
    requires Distinct(strs) && AllKnown(strs, m)
    ensures Total(Spelled(strs, m)) == Total(m)
    decreases |m|
  {
    hide Spell, Spelled, Total;
    if m == map[] {
      SpelledNone(strs);
    } else {
      var p :| p in m;
      var rest := m - {p};
      assert m == rest[p := m[p]];
      SpelledTotal(strs, rest);
      SpelledUpdate(strs, rest, p, m[p]);
      SpelledAt(strs, rest, p);
      TotalInsert(rest, p, m[p]);
      TotalInsert(Spelled(strs, rest), Spell(strs, p), m[p]);
    }
  }

  lemma SpelledNone(strs: seq<string>)
    requires Distinct(strs)
    ensures Spelled(strs, map[]) == map[] && Total(Spelled(strs, map[])) == Total<seq<nat>>(map[])
  {}

  lemma SpelledChildren(strs: seq<string>, c: Counts<nat>, p: seq<nat>)
    requires Distinct(strs) && AllKnown(strs, c) && Known(strs, p)
    ensures AllKnown(strs, Children(c, p))
    ensures Children(Spelled(strs, c), Spell(strs, p)) == Spelled(strs, Children(c, p))
  {
    hide Spell, Spelled;
    var w := Children(Spelled(strs, c), Spell(strs, p));
    forall q | q in Children(c, p) ensures Spell(strs, q) in w && w[Spell(strs, q)] == Children(c, p)[q] {
      SpelledAt(strs, c, q);
      SpellBelow(strs, p, q);
    }
    forall x | x in w ensures exists q :: q in Children(c, p) && Spell(strs, q) == x {
      var q := SpelledFrom(strs, c, x);
      SpellBelow(strs, p, q);
      assert q in Children(c, p);
    }
    SpelledIs(strs, Children(c, p), w);
  }

  lemma SpelledExcess(strs: seq<string>, c: Counts<nat>, p: seq<nat>)
    requires Distinct(strs) && AllKnown(strs, c) && p in c
    ensures Spell(strs, p) in Spelled(strs, c)
    ensures Excess(Spelled(strs, c), Spell(strs, p)) == Excess(c, p)
  {
    hide Spell, Spelled, Children;
    SpelledAt(strs, c, p);
    SpelledChildren(strs, c, p);
    SpelledTotal(strs, Children(c, p));
  }

  lemma {:induction false} SpellAllMultiset(strs: seq<string>, ws: seq<seq<nat>>, p: seq<nat>)
    requires Distinct(strs) && KnownAll(strs, ws) && Known(strs, p)
    ensures multiset(SpellAll(strs, ws))[Spell(strs, p)] == multiset(ws)[p]
  {
    hide Spell;
    if ws != [] {
      var init, w := ws[..|ws| - 1], ws[|ws| - 1];
      assert ws == init + [w];
      assert SpellAll(strs, ws) == SpellAll(strs, init) + [Spell(strs, w)];
      SpellAllMultiset(strs, init, p);
      SpellInjective(strs, w, p);
    }
  }

  // The windows read back from the trie in words are the windows read back, in words.
  lemma SpelledUnlearn(strs: seq<string>, c: Counts<nat>)
    requires Distinct(strs) && AllKnown(strs, c) && IsTrie(c)
    ensures KnownAll(strs, Unlearn(c, c.Keys))
    ensures var s := Spelled(strs, c);
            multiset(Unlearn(s, s.Keys)) == multiset(SpellAll(strs, Unlearn(c, c.Keys)))
  {
    hide Spell, Spelled, Excess, Unlearn, PathsOf;
    var s, ws := Spelled(strs, c), Unlearn(c, c.Keys);
    UnlearnPaths(c);
    var all := SpellAll(strs, ws);
    forall x ensures multiset(Unlearn(s, s.Keys))[x] == multiset(all)[x] {
      UnlearnMultiset(s, s.Keys, x);
      if x in s {
        var p := SpelledFrom(strs, c, x);
        SpelledExcess(strs, c, p);
        UnlearnMultiset(c, c.Keys, p);
        SpellAllMultiset(strs, ws, p);
      } else {
        forall i | 0 <= i < |all| ensures all[i] != x { SpelledAt(strs, c, ws[i]); }
      }
    }
  }

  lemma {:induction false} SpelledTrieOf(strs: seq<string>, ws: seq<seq<nat>>)
    requires Distinct(strs) && KnownAll(strs, ws)
    ensures AllKnown(strs, TrieOf(ws)) && Spelled(strs, TrieOf(ws)) == TrieOf(SpellAll(strs, ws))
  {
    hide Spell, Spelled, TrieOf, Bump;
    if ws == [] {
      NothingSpelled(strs);
      assert SpellAll(strs, ws) == [];
    } else {
      var init, w := ws[..|ws| - 1], ws[|ws| - 1];
      SpelledTrieOf(strs, init);
      BumpLearns(init, w, 1);
      BumpLearns(SpellAll(strs, init), Spell(strs, w), 1);
      assert ws == init + Repeat(w, 1);
      assert SpellAll(strs, ws) == SpellAll(strs, init) + Repeat(Spell(strs, w), 1);
      BumpKnown(strs, TrieOf(init), w, 1);
      SpelledBump(strs, TrieOf(init), w, 1);
    }
  }

  lemma NothingSpelled(strs: seq<string>)
    requires Distinct(strs)
    ensures TrieOf<nat>([]) == map[] && TrieOf<string>([]) == map[]
    ensures AllKnown(strs, map[]) && Spelled(strs, map[]) == map[]
  {}

  lemma SpellAllReversed(strs: seq<string>, ws: seq<seq<nat>>)
    requires KnownAll(strs, ws)
    ensures KnownAll(strs, ReverseAll(ws))
    ensures SpellAll(strs, ReverseAll(ws)) == ReverseAll(SpellAll(strs, ws))
  {
    hide Spell;
    forall i | 0 <= i < |ws| ensures Known(strs, ReverseAll(ws)[i]) { assert Known(strs, ws[i]); }
    forall i | 0 <= i < |ws| ensures SpellAll(strs, ReverseAll(ws))[i] == ReverseAll(SpellAll(strs, ws))[i] {
      SpellReverse(strs, ws[i]);
    }
  }

  // Deriving over word ids is deriving over words, for any trie.
  lemma SpelledReverse(strs: seq<string>, c: Counts<nat>)
    requires Distinct(strs) && AllKnown(strs, c) && IsTrie(c)
    ensures AllKnown(strs, DerivedReverse(c))
    ensures Spelled(strs, DerivedReverse(c)) == DerivedReverse(Spelled(strs, c))
  {
    hide Spell, Spelled, TrieOf, Unlearn, SpellAll;
    var s, ws := Spelled(strs, c), Unlearn(c, c.Keys);
    SpelledUnlearn(strs, c);
    SpellAllReversed(strs, ws);
    SpelledTrieOf(strs, ReverseAll(ws));
    ReverseAllPermuted(Unlearn(s, s.Keys), SpellAll(strs, ws));
    TriePermuted(ReverseAll(Unlearn(s, s.Keys)), ReverseAll(SpellAll(strs, ws)));
  }

  // --- both dictionaries of one channel ---------------------------------------------------------

  // What the dictionary of these lines holds, in words.
  ghost function Learned(order: nat, lines: seq<seq<string>>): Counts<string> {
    TrieOf(AllWindows(order, lines))
  }

  ghost predicate Spells(tab: Interner, d: Dict, order: nat, lines: seq<seq<string>>)
    reads tab, d
  {
    && tab.Valid() && d.Valid() && AllKnown(tab.strs, d.counts)
    && Spelled(tab.strs, d.counts) == Learned(order, lines)
  }

  lemma LearnsLine(order: nat, lines: seq<seq<string>>, line: seq<string>)
    ensures Learn(Learned(order, lines), Windows(order, line)) == Learned(order, lines + [line])
  {
    LearnIsTrieOf(AllWindows(order, lines), Windows(order, line));
    assert (lines + [line])[..|lines|] == lines;
  }

  lemma DerivedNothing()
    ensures DerivedReverse<nat>(map[]) == map[]
  {
    var c: Counts<nat> := map[];
    assert Unlearn(c, c.Keys) == [] && ReverseAll<nat>([]) == [];
    assert PathsOf<nat>([]) == {};
  }

  // On loading: a reverse dictionary that is empty, or already what learning every line
  // backwards leaves, is the latter afterwards.
  method Bootstrap(main: Dict, rev: Dict, tab: Interner, order: nat, ghost lines: seq<seq<string>>)
    requires Spells(tab, main, order, lines) && rev.Valid() && main != rev
    requires rev.counts == map[] || Spells(tab, rev, order, ReverseAll(lines))
    modifies rev
    ensures Spells(tab, main, order, lines) && Spells(tab, rev, order, ReverseAll(lines))
  {
    hide Spelled, TrieOf, DerivedReverse, AllWindows, ReverseAll, Grown;
    rev.DeriveReverse(main);
    main.NoChains();
    DerivedNothing();
    SpelledReverse(tab.strs, main.counts);
    ReverseIsExact(order, lines);
  }

  // A line heard goes into the one as it is, and into the other backwards.
  method Hear(main: Dict, rev: Dict, tab: Interner, order: nat, tokens: seq<string>, ghost lines: seq<seq<string>>)
    requires Spells(tab, main, order, lines) && Spells(tab, rev, order, ReverseAll(lines)) && main != rev
    modifies main, rev, tab
    ensures Spells(tab, main, order, lines + [tokens]) && Spells(tab, rev, order, ReverseAll(lines + [tokens]))
  {
    hide Spelled, Learned, Windows, Grown, Interner.Valid;
    main.LearnTokens(order, tokens, tab);
    LearnsLine(order, lines, tokens);
    SpelledGrow(old(tab.strs), tab.strs, rev.counts);
    label Half:
    rev.LearnTokens(order, Reverse(tokens), tab);
    LearnsLine(order, ReverseAll(lines), Reverse(tokens));
    SpelledGrow(old@Half(tab.strs), tab.strs, main.counts);
    assert ReverseAll(lines + [tokens]) == ReverseAll(lines) + [Reverse(tokens)];
  }
}
