// The process-wide word table, and tries over word ids read as tries over words.
module MarkovWords {
  import opened MarkovTrie

  // One table for all dictionaries; ids are dense and never change.
  class Interner {
    var ids: map<string, nat>
    var strs: seq<string>

    ghost predicate Valid()
      reads this
      ensures Valid() ==> Distinct(strs)
    {
      && (forall i :: 0 <= i < |strs| ==> strs[i] in ids && ids[strs[i]] == i)
      && (forall w :: w in ids ==> ids[w] < |strs| && strs[ids[w]] == w)
    }

    constructor ()
      ensures Valid() && strs == []
    {
      ids, strs := map[], [];
    }

    // The word's id, interning it first if new.
    method Id(w: string) returns (id: nat)
      requires Valid()
      modifies this
      ensures Valid() && id < |strs| && strs[id] == w
      ensures strs == if w in old(strs) then old(strs) else old(strs) + [w]
    {
      if w in ids {
        id := ids[w];
      } else {
        id := |strs|;
        assert w !in strs;
        ids := ids[w := id];
        strs := strs + [w];
      }
    }

    method Lookup(w: string) returns (id: nat, ok: bool)
      requires Valid()
      ensures ok <==> w in strs
      ensures ok ==> id < |strs| && strs[id] == w
    {
      ok := w in ids;
      id := if ok then ids[w] else 0;
      assert ok ==> strs[id] == w;
    }
  }

  ghost predicate Distinct(strs: seq<string>) {
    forall i, j :: 0 <= i < j < |strs| ==> strs[i] != strs[j]
  }

  ghost predicate Known(strs: seq<string>, p: seq<nat>) {
    forall i :: 0 <= i < |p| ==> p[i] < |strs|
  }

  ghost function Spell(strs: seq<string>, p: seq<nat>): (ws: seq<string>)
    requires Known(strs, p)
    ensures |ws| == |p|
  {
    if p == [] then [] else Spell(strs, p[..|p| - 1]) + [strs[p[|p| - 1]]]
  }

  lemma {:induction false} SpellInjective(strs: seq<string>, p: seq<nat>, q: seq<nat>)
    requires Distinct(strs) && Known(strs, p) && Known(strs, q)
    ensures Spell(strs, p) == Spell(strs, q) ==> p == q
  {
    if |p| == |q| > 0 && Spell(strs, p) == Spell(strs, q) {
      var p', x, q', y := p[..|p| - 1], p[|p| - 1], q[..|q| - 1], q[|q| - 1];
      assert Spell(strs, p)[..|p'|] == Spell(strs, p') && Spell(strs, p)[|p'|] == strs[x];
      assert Spell(strs, q)[..|q'|] == Spell(strs, q') && Spell(strs, q)[|q'|] == strs[y];
      SpellInjective(strs, p', q');
      assert p == p' + [x] && q == q' + [y];
    }
  }

  lemma {:induction false} SpellGrow(strs: seq<string>, strs': seq<string>, p: seq<nat>)
    requires strs <= strs' && Known(strs, p)
    ensures Known(strs', p) && Spell(strs', p) == Spell(strs, p)
  {
    if p != [] {
      SpellGrow(strs, strs', p[..|p| - 1]);
    }
  }

  lemma {:induction false} SpellAt(strs: seq<string>, p: seq<nat>, k: nat)
    requires Known(strs, p) && k < |p|
    ensures Spell(strs, p)[k] == strs[p[k]]
  {
    if k < |p| - 1 { SpellAt(strs, p[..|p| - 1], k); }
  }

  lemma {:induction false} SpellPrefix(strs: seq<string>, p: seq<nat>, k: nat)
    requires Known(strs, p) && k <= |p|
    ensures Known(strs, p[..k]) && Spell(strs, p[..k]) == Spell(strs, p)[..k]
  {
    forall i | 0 <= i < k ensures Spell(strs, p)[i] == Spell(strs, p[..k])[i] {
      SpellAt(strs, p, i);
      SpellAt(strs, p[..k], i);
    }
  }

  ghost predicate AllKnown(strs: seq<string>, c: Counts<nat>) {
    forall p :: p in c ==> Known(strs, p)
  }

  // A trie over ids, read as a trie over words: what the storage shape holds.
  ghost function Spelled(strs: seq<string>, c: Counts<nat>): Counts<string>
    requires Distinct(strs) && AllKnown(strs, c)
  {
    assert forall p, q :: p in c && q in c && Spell(strs, p) == Spell(strs, q) ==> p == q by {
      forall p, q | p in c && q in c ensures Spell(strs, p) == Spell(strs, q) ==> p == q {
        SpellInjective(strs, p, q);
      }
    }
    map p | p in c :: Spell(strs, p) := c[p]
  }

  lemma SpellStep(strs: seq<string>, strs': seq<string>, p: seq<nat>, id: nat)
    requires strs <= strs' && Known(strs, p) && id < |strs'|
    ensures Known(strs', p + [id]) && Spell(strs', p + [id]) == Spell(strs, p) + [strs'[id]]
  {
    SpellGrow(strs, strs', p);
    assert (p + [id])[..|p|] == p;
  }

  lemma SpelledAt(strs: seq<string>, c: Counts<nat>, q: seq<nat>)
    requires Distinct(strs) && AllKnown(strs, c) && Known(strs, q)
    ensures Spell(strs, q) in Spelled(strs, c) <==> q in c
    ensures q in c ==> Spelled(strs, c)[Spell(strs, q)] == c[q]
  {
    forall r | r in c && Spell(strs, r) == Spell(strs, q) ensures r == q { SpellInjective(strs, r, q); }
  }

  lemma SpelledFrom(strs: seq<string>, c: Counts<nat>, x: seq<string>) returns (q: seq<nat>)
    requires Distinct(strs) && AllKnown(strs, c) && x in Spelled(strs, c)
    ensures q in c && Known(strs, q) && Spell(strs, q) == x
  {
    q :| q in c && Spell(strs, q) == x;
  }

  // A trie over words reads the same as c when it agrees with c path by path.
  lemma SpelledIs(strs: seq<string>, c: Counts<nat>, w: Counts<string>)
    requires Distinct(strs) && AllKnown(strs, c)
    requires forall q :: q in c ==> Spell(strs, q) in w && w[Spell(strs, q)] == c[q]
    requires forall x :: x in w ==> exists q :: q in c && Spell(strs, q) == x
    ensures Spelled(strs, c) == w
  {}

  lemma SpelledUpdate(strs: seq<string>, c: Counts<nat>, p: seq<nat>, v: nat)
    requires Distinct(strs) && AllKnown(strs, c) && Known(strs, p)
    ensures AllKnown(strs, c[p := v])
    ensures Spelled(strs, c[p := v]) == Spelled(strs, c)[Spell(strs, p) := v]
  {
    var s := Spelled(strs, c);
    var w := s[Spell(strs, p) := v];
    forall q | q in c[p := v] ensures Spell(strs, q) in w && w[Spell(strs, q)] == c[p := v][q] {
      if q != p {
        SpellInjective(strs, p, q);
        SpelledAt(strs, c, q);
      }
    }
    forall x | x in w ensures exists q :: q in c[p := v] && Spell(strs, q) == x {
      if x == Spell(strs, p) {
        assert p in c[p := v];
      } else {
        var q :| q in c && Spell(strs, q) == x;
        assert q in c[p := v];
      }
    }
    SpelledIs(strs, c[p := v], w);
  }

  lemma SpelledGrow(strs: seq<string>, strs': seq<string>, c: Counts<nat>)
    requires Distinct(strs') && Distinct(strs) && strs <= strs' && AllKnown(strs, c)
    ensures AllKnown(strs', c) && Spelled(strs', c) == Spelled(strs, c)
  {
    forall q | q in c ensures Known(strs', q) && Spell(strs, q) == Spell(strs', q) { SpellGrow(strs, strs', q); }
    var w := Spelled(strs, c);
    forall q | q in c ensures Spell(strs', q) in w && w[Spell(strs', q)] == c[q] { SpelledAt(strs, c, q); }
    forall x | x in w ensures exists q :: q in c && Spell(strs', q) == x {
      var q :| q in c && Spell(strs, q) == x;
    }
    SpelledIs(strs', c, w);
  }

  lemma {:induction false} BumpKnown(strs: seq<string>, c: Counts<nat>, p: seq<nat>, n: nat)
    requires AllKnown(strs, c) && Known(strs, p)
    ensures AllKnown(strs, Bump(c, p, n))
  {
    if p != [] {
      BumpKnown(strs, c, p[..|p| - 1], n);
    }
  }

  // Bumping ids and bumping the words they stand for is the same thing.
  lemma {:induction false} SpelledBump(strs: seq<string>, c: Counts<nat>, p: seq<nat>, n: nat)
    requires Distinct(strs) && AllKnown(strs, c) && Known(strs, p)
    requires AllKnown(strs, Bump(c, p, n))
    ensures Spelled(strs, Bump(c, p, n)) == Bump(Spelled(strs, c), Spell(strs, p), n)
  {
    hide Bump, Spelled;
    BumpStep(c, p, n);
    BumpStep(Spelled(strs, c), Spell(strs, p), n);
    if p != [] {
      var init, v := p[..|p| - 1], (if p in c then c[p] else 0) + n;
      BumpKnown(strs, c, init, n);
      SpelledBump(strs, c, init, n);
      SpelledUpdate(strs, Bump(c, init, n), p, v);
      SpelledAt(strs, c, p);
      var sp := Spell(strs, p);
      assert sp[..|sp| - 1] == Spell(strs, init);
    }
  }
}
