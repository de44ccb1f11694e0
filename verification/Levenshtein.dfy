// The edit distance of the did-you-mean suggestions, kept in two rows.
module Levenshtein {
  function Min(a: nat, b: nat): nat {
    if a <= b then a else b
  }

  function Cost(x: char, y: char): nat {
    if x == y then 0 else 1
  }

  function Init(s: string): string
    requires s != ""
  {
    s[..|s| - 1]
  }

  function Last(s: string): char
    requires s != ""
  {
    s[|s| - 1]
  }

  // The fewest edits by cases on the last characters.
  function Dist(a: string, b: string): nat
    decreases |a| + |b|
  {
    if a == "" then |b|
    else if b == "" then |a|
    else Min(Min(Dist(Init(a), Init(b)) + Cost(Last(a), Last(b)), Dist(Init(a), b) + 1), Dist(a, Init(b)) + 1)
  }

  // --- what the number means -----------------------------------------------------------------

  datatype Edit = Keep(c: char) | Change(c: char, d: char) | Drop(c: char) | Add(d: char)

  // What an edit takes from the first word, and puts in the second.
  function From(e: Edit): string {
    match e
    case Keep(c) => [c]
    case Change(c, _) => [c]
    case Drop(c) => [c]
    case Add(_) => ""
  }

  function To(e: Edit): string {
    match e
    case Keep(c) => [c]
    case Change(_, d) => [d]
    case Drop(_) => ""
    case Add(d) => [d]
  }

  function Source(es: seq<Edit>): string {
    if es == [] then ""
    else Source(es[..|es| - 1]) + From(es[|es| - 1])
  }

  function Target(es: seq<Edit>): string {
    if es == [] then ""
    else Target(es[..|es| - 1]) + To(es[|es| - 1])
  }

  function Edits(es: seq<Edit>): nat {
    if es == [] then 0 else Edits(es[..|es| - 1]) + (if es[|es| - 1].Keep? then 0 else 1)
  }

  lemma Appended(es: seq<Edit>, e: Edit)
    ensures Edits(es + [e]) == Edits(es) + (if e.Keep? then 0 else 1)
    ensures Source(es + [e]) == Source(es) + From(e)
    ensures Target(es + [e]) == Target(es) + To(e)
  {
    assert (es + [e])[..|es|] == es;
  }

  // Edits are counted but for what is kept.
  lemma {:induction false} EditsAre(es: seq<Edit>)
    ensures Edits(es) == |set i: nat | i < |es| && !es[i].Keep?|
  {
    var at := set i: nat | i < |es| && !es[i].Keep?;
    if es == [] {
      assert at == {};
    } else {
      var init, k := es[..|es| - 1], |es| - 1;
      EditsAre(init);
      var before := set i: nat | i < |init| && !init[i].Keep?;
      assert at == before + if es[k].Keep? then {} else {k};
    }
  }

  lemma DistCases(a: string, b: string)
    requires a != "" || b != ""
    ensures (b != "" && Dist(a, b) == Dist(a, Init(b)) + 1)
            || (a != "" && Dist(a, b) == Dist(Init(a), b) + 1)
            || (a != "" && b != "" && Dist(a, b) == Dist(Init(a), Init(b)) + Cost(Last(a), Last(b)))
  {
    if a == "" { Adds(Init(b)); } else if b == "" { Empties(Init(a)); }
  }

  ghost predicate Turns(es: seq<Edit>, a: string, b: string, n: nat) {
    Source(es) == a && Target(es) == b && Edits(es) == n
  }

  lemma TurnsMore(es: seq<Edit>, e: Edit, a: string, b: string, n: nat)
    requires match e
             case Add(d) => b != "" && d == Last(b) && Turns(es, a, Init(b), n)
             case Drop(c) => a != "" && c == Last(a) && Turns(es, Init(a), b, n)
             case Keep(c) => a != "" && b != "" && c == Last(a) == Last(b) && Turns(es, Init(a), Init(b), n)
             case Change(c, d) => a != "" && b != "" && c == Last(a) && d == Last(b) && Turns(es, Init(a), Init(b), n)
    ensures Turns(es + [e], a, b, n + (if e.Keep? then 0 else 1))
  {
    hide Source, Target, Edits;
    Appended(es, e);
    assert a != "" ==> a == Init(a) + [Last(a)];
    assert b != "" ==> b == Init(b) + [Last(b)];
    assert a + "" == a && b + "" == b;
  }

  // Some list of that many edits turns one word into the other.
  lemma {:induction false} Attained(a: string, b: string) returns (es: seq<Edit>)
    ensures Turns(es, a, b, Dist(a, b))
    decreases |a| + |b|
  {
    hide Dist, Turns;
    if a == "" && b == "" {
      es := [];
      NoEdits();
    } else {
      DistCases(a, b);
      var e;
      if b != "" && Dist(a, b) == Dist(a, Init(b)) + 1 {
        es := Attained(a, Init(b));
        e := Add(Last(b));
        TurnsMore(es, e, a, b, Dist(a, Init(b)));
      } else if a != "" && Dist(a, b) == Dist(Init(a), b) + 1 {
        es := Attained(Init(a), b);
        e := Drop(Last(a));
        TurnsMore(es, e, a, b, Dist(Init(a), b));
      } else {
        es := Attained(Init(a), Init(b));
        e := if Last(a) == Last(b) then Keep(Last(a)) else Change(Last(a), Last(b));
        TurnsMore(es, e, a, b, Dist(Init(a), Init(b)));
      }
      es := es + [e];
    }
  }

  lemma NoEdits()
    ensures Turns([], "", "", Dist("", "")) && Dist("", "") == 0
  {}

  // No list of edits does it with fewer.
  lemma {:induction false} Least(es: seq<Edit>)
    ensures Dist(Source(es), Target(es)) <= Edits(es)
  {
    hide Dist, Source, Target, Edits;
    if es == [] {
      NoEdits();
    } else {
      var init, e := es[..|es| - 1], es[|es| - 1];
      Least(init);
      var a, b := Source(init), Target(init);
      assert es == init + [e] && a + "" == a && b + "" == b;
      Appended(init, e);
      match e
      case Keep(c) => BothMore(a, c, b, c);
      case Change(c, d) => BothMore(a, c, b, d);
      case Drop(c) => DropMore(a, c, b);
      case Add(d) => AddMore(a, b, d);
    }
  }

  lemma BothMore(a: string, c: char, b: string, d: char)
    ensures Dist(a + [c], b + [d]) <= Dist(a, b) + Cost(c, d)
  {
    assert Init(a + [c]) == a && Init(b + [d]) == b;
  }

  lemma DropMore(a: string, c: char, b: string)
    ensures Dist(a + [c], b) <= Dist(a, b) + 1
  {
    assert Init(a + [c]) == a;
    if b == "" { Empties(a); }
  }

  lemma AddMore(a: string, b: string, d: char)
    ensures Dist(a, b + [d]) <= Dist(a, b) + 1
  {
    assert Init(b + [d]) == b;
  }

  lemma Empties(a: string)
    ensures Dist(a, "") == |a|
  {}

  lemma Adds(b: string)
    ensures Dist("", b) == |b|
  {}

  // --- two rows ---------------------------------------------------------------------------------

  // The first n cells of a row hold the distances of a to the prefixes of b.
  ghost predicate Row(row: seq<int>, a: string, b: string, n: nat) {
    n <= |row| && n <= |b| + 1 && forall k :: 0 <= k < n ==> row[k] == Dist(a, b[..k])
  }

  method Levenshtein(a: string, b: string) returns (d: int)
    ensures d == Dist(a, b)
  {
    hide Dist;
    var prev, cur := new int[|b| + 1], new int[|b| + 1];
    for j := 0 to |b| + 1
      invariant Row(prev[..], "", b, j)
    {
      Adds(b[..j]);
      prev[j] := j;
    }
    assert a[..0] == "";
    for i := 0 to |a|
      invariant prev != cur && prev.Length == cur.Length == |b| + 1 && fresh(prev) && fresh(cur)
      invariant Row(prev[..], a[..i], b, |b| + 1)
    {
      cur[0] := i + 1;
      Empties(a[..i + 1]);
      assert b[..0] == "";
      for j := 0 to |b|
        invariant Row(prev[..], a[..i], b, |b| + 1) && Row(cur[..], a[..i + 1], b, j + 1)
      {
        var cost := if a[i] == b[j] then 0 else 1;
        var least := prev[j] + cost;
        if prev[j + 1] + 1 < least { least := prev[j + 1] + 1; }
        if cur[j] + 1 < least { least := cur[j] + 1; }
        CellIs(a, b, i, j);
        RowCells(prev[..], cur[..], a, b, i, j);
        ghost var was := cur[..];
        cur[j + 1] := least;
        assert cur[..] == was[j + 1 := least];
      }
      prev, cur := cur, prev;
    }
    assert a[..|a|] == a && b[..|b|] == b;
    d := prev[|b|];
  }

  lemma RowCells(prev: seq<int>, cur: seq<int>, a: string, b: string, i: nat, j: nat)
    requires i < |a| && j < |b| && Row(prev, a[..i], b, |b| + 1) && Row(cur, a[..i + 1], b, j + 1)
    ensures prev[j] == Dist(a[..i], b[..j]) && prev[j + 1] == Dist(a[..i], b[..j + 1]) && cur[j] == Dist(a[..i + 1], b[..j])
  {}

  lemma CellIs(a: string, b: string, i: nat, j: nat)
    requires i < |a| && j < |b|
    ensures Dist(a[..i + 1], b[..j + 1])
            == Min(Min(Dist(a[..i], b[..j]) + Cost(a[i], b[j]), Dist(a[..i], b[..j + 1]) + 1), Dist(a[..i + 1], b[..j]) + 1)
  {
    hide Dist, Min, Cost;
    DistStep(a[..i + 1], b[..j + 1]);
    assert Init(a[..i + 1]) == a[..i] && Init(b[..j + 1]) == b[..j];
  }

  lemma DistStep(a: string, b: string)
    requires a != "" && b != ""
    ensures Dist(a, b) == Min(Min(Dist(Init(a), Init(b)) + Cost(Last(a), Last(b)), Dist(Init(a), b) + 1), Dist(a, Init(b)) + 1)
  {
    hide Min, Cost, Init, Last;
  }
}
