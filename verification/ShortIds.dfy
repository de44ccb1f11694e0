// Short item ids: base 32, at most three characters, never one still in use.
module ShortIds {
  import opened Basics

  const WRAP: nat := 32768
  const COMMANDS: set<string> := {"add", "del", "help", "refresh", "last", "list"}

  // A to Z, then 0 2 4 6 8 9.
  function Sym(d: nat): char
    requires d < 32
  {
    if d < 26 then 'A' + d as char else if d < 31 then '0' + (2 * (d - 26)) as char else '9'
  }

  lemma SymInjective(a: nat, b: nat)
    requires a < 32 && b < 32 && Sym(a) == Sym(b)
    ensures a == b
  {}

  function Encode(n: nat): (s: string)
    ensures s != ""
  {
    if n < 32 then [Sym(n)] else Encode(n / 32) + [Sym(n % 32)]
  }

  lemma {:induction false} EncodeInjective(a: nat, b: nat)
    requires Encode(a) == Encode(b)
    ensures a == b
  {
    var s, t := Encode(a), Encode(b);
    assert s[|s| - 1] == Sym(a % 32) && t[|t| - 1] == Sym(b % 32);
    SymInjective(a % 32, b % 32);
    if a >= 32 && b >= 32 {
      assert s[..|s| - 1] == Encode(a / 32) && t[..|t| - 1] == Encode(b / 32);
      EncodeInjective(a / 32, b / 32);
    }
  }

  lemma EncodeShort(n: nat)
    requires n < WRAP
    ensures |Encode(n)| <= 3
  {
    if n >= 32 {
      assert |Encode(n)| == |Encode(n / 32)| + 1;
      if n / 32 >= 32 {
        assert n / 32 < 1024 && n / 32 / 32 < 32;
        assert |Encode(n / 32)| == |Encode(n / 32 / 32)| + 1;
      }
    }
  }

  const ALPHABET := "ABCDEFGHIJKLMNOPQRSTUVWXYZ024689"

  lemma SymIs(d: nat)
    requires d < 32
    ensures Sym(d) == ALPHABET[d]
  {}

  // An id read back as a number in base 32, its symbols in the order of the alphabet.
  ghost predicate Stands(s: string, n: nat) {
    s != "" && exists d: nat :: d < 32 && s[|s| - 1] == "ABCDEFGHIJKLMNOPQRSTUVWXYZ024689"[d]
                                && if |s| == 1 then n == d else n >= 32 && Stands(s[..|s| - 1], n / 32) && n % 32 == d
  }

  // The id of a number is the one text that stands for it.
  lemma {:induction false} EncodeIs(n: nat, s: string)
    ensures Stands(s, n) <==> s == Encode(n)
    decreases n
  {
    var e := Encode(n);
    var last := e[|e| - 1];
    SymIs(n % 32);
    assert last == ALPHABET[n % 32];
    if n >= 32 {
      EncodeIs(n / 32, e[..|e| - 1]);
      assert e[..|e| - 1] == Encode(n / 32);
      if Stands(s, n) {
        EncodeIs(n / 32, s[..|s| - 1]);
        assert s == s[..|s| - 1] + [s[|s| - 1]];
      }
    } else if Stands(s, n) {
      assert |s| == 1 && s == [s[0]];
    }
  }

  // No id is a command word: those are in lower case.
  lemma {:induction false} EncodeUpper(n: nat)
    ensures forall c :: c in Encode(n) ==> c < 'a'
    ensures Encode(n) !in {"add", "del", "help", "refresh", "last", "list"}
    ensures Encode(n) !in COMMANDS
  {
    if n >= 32 { EncodeUpper(n / 32); }
    assert Encode(n)[0] in Encode(n);
    assert "add"[0] == 'a' && "del"[0] == 'd' && "help"[0] == 'h' && "refresh"[0] == 'r' && "last"[0] == 'l' && "list"[0] == 'l';
  }

  // Swap the ends inwards.
  method TurnRound(s: string) returns (buf: string)
    ensures buf == Reverse(s)
  {
    buf := s;
    var i, j := 0, |s| - 1;
    while i < j
      invariant 0 <= i && i + j == |s| - 1 && j >= i - 2 && |buf| == |s|
      invariant forall k :: 0 <= k < |s| && (k < i || k > j) ==> buf[k] == s[|s| - 1 - k]
      invariant forall k :: i <= k <= j ==> buf[k] == s[k]
    {
      buf := buf[i := buf[j]][j := buf[i]];
      i, j := i + 1, j - 1;
    }
    forall k | 0 <= k < |s| ensures buf[k] == s[|s| - 1 - k] {
      if i <= k <= j { assert |s| - 1 - k == k; }
    }
  }

  // Digits from the last one up, then turned round.
  method EncodeId(id: nat) returns (s: string)
    ensures s == Encode(id)
  {
    var buf, n := "", id;
    while true
      invariant Encode(id) == Encode(n) + Reverse(buf)
      decreases n
    {
      ReverseMore(buf, Sym(n % 32));
      buf := buf + [Sym(n % 32)];
      n := n / 32;
      if n == 0 {
        break;
      }
    }
    s := TurnRound(buf);
  }

  ghost predicate Free(used: set<string>, n: nat) {
    1 <= n < WRAP && Encode(n) !in used
  }

  // Fewer ids in use than there are numbers leave one free.
  lemma SomeFree(used: set<string>)
    requires |used| < WRAP - 1
    ensures exists n :: Free(used, n)
  {
    hide Encode;
    if forall n: nat :: 1 <= n < WRAP ==> Encode(n) in used {
      var s := Encoded(WRAP - 1);
      forall x | x in s ensures x in used {
        assert IsCode(x, WRAP - 1);
      }
      Within(s, used);
    } else {
      var n: nat :| 1 <= n < WRAP && Encode(n) !in used;
      assert Free(used, n);
    }
  }

  lemma Within(s: set<string>, used: set<string>)
    requires s <= used
    ensures |s| <= |used|
  {
    assert used == s + (used - s);
  }

  // Different numbers give different ids.
  lemma {:induction false} Encoded(k: nat) returns (s: set<string>)
    ensures |s| == k && forall x :: x in s ==> IsCode(x, k)
  {
    hide Encode;
    if k == 0 {
      s := {};
    } else {
      var t := Encoded(k - 1);
      if Encode(k) in t {
        assert IsCode(Encode(k), k - 1);
        var n: nat :| 1 <= n <= k - 1 && Encode(n) == Encode(k);
        EncodeInjective(n, k);
      }
      s := t + {Encode(k)};
      forall x | x in s ensures IsCode(x, k) {
        if x in t { CodeMore(x, k - 1); }
      }
    }
  }

  ghost predicate IsCode(x: string, k: nat) {
    exists n: nat :: 1 <= n <= k && Encode(n) == x
  }

  lemma CodeMore(x: string, k: nat)
    requires IsCode(x, k)
    ensures IsCode(x, k + 1)
  {
    hide Encode;
    var n: nat :| 1 <= n <= k && Encode(n) == x;
  }

  function After(n: nat): nat {
    if n + 1 >= WRAP then 1 else n + 1
  }

  // The counter goes up one by one and starts over at 1, short of 32768.
  lemma AfterIs(n: nat)
    ensures After(n) == if n < 32767 then n + 1 else 1
  {}

  // How many steps from counter n to m, going round; a stored counter may be too large.
  function Steps(n: nat, m: nat): nat
    requires 1 <= m < WRAP
  {
    if n >= WRAP then WRAP else if n <= m then m - n else WRAP - 1 - n + m
  }

  ghost predicate Ends(used: set<string>, max: nat) {
    Encode(max) !in used || exists n: nat :: Free(used, n)
  }

  // The counter after k more tries.
  function Tried(max: nat, k: nat): nat {
    if k == 0 then max else After(Tried(max, k - 1))
  }

  // Try k is the first whose id is not in use.
  ghost predicate FirstFree(used: set<string>, max: nat, k: nat) {
    Encode(Tried(max, k)) !in used && forall j: nat :: j < k ==> Encode(Tried(max, j)) in used
  }

  lemma {:induction false} TriedRange(max: nat, k: nat)
    ensures k > 0 ==> 1 <= Tried(max, k) < WRAP
  {
    if k > 0 { TriedRange(max, k - 1); }
  }

  // Without a free number every number ever tried has its id in use.
  lemma NeverEnds(used: set<string>, max: nat, k: nat)
    requires !Ends(used, max)
    ensures Encode(Tried(max, k)) in used
  {
    hide Encode;
    TriedRange(max, k);
    assert !Free(used, Tried(max, k));
  }

  // That can happen: there are only 32768 numbers of up to three characters.
  lemma RunsOut(max: nat) returns (used: set<string>)
    requires max < WRAP
    ensures |used| <= WRAP && !Ends(used, max) && forall k: nat :: Encode(Tried(max, k)) in used
  {
    hide Encode;
    used := Codes(WRAP);
    AtMost(WRAP);
    forall n: nat | n < WRAP ensures Encode(n) in used {}
    assert !Ends(used, max);
    forall k: nat ensures Encode(Tried(max, k)) in used { NeverEnds(used, max, k); }
  }

  ghost function Codes(k: nat): set<string> {
    set n: nat | n < k :: Encode(n)
  }

  lemma {:induction false} AtMost(k: nat)
    ensures |Codes(k)| <= k
  {
    hide Encode;
    if k > 0 {
      AtMost(k - 1);
      var s, t := Codes(k), Codes(k - 1) + {Encode(k - 1)};
      assert s == t;
    }
  }

  // --- how many ids can still be handed out -----------------------------------------------

  ghost function Numbers(used: set<string>): set<nat> {
    set n: nat | 1 <= n < WRAP && Encode(n) !in used
  }

  // The numbers the search can come to and use.
  ghost function Pool(used: set<string>, max: nat): set<nat> {
    Numbers(used) + (if Encode(max) !in used then {max} else {})
  }

  lemma PoolEnds(used: set<string>, max: nat)
    ensures Ends(used, max) <==> Pool(used, max) != {}
  {
    hide Encode;
    if n: nat :| Free(used, n) { assert n in Pool(used, max); }
    if Encode(max) !in used { assert max in Pool(used, max); }
    if Pool(used, max) != {} {
      var n :| n in Pool(used, max);
      assert n != max ==> Free(used, n);
    }
  }

  // Handing one out takes just that one from the pool.
  lemma PoolTaken(used: set<string>, max: nat, k: nat)
    requires FirstFree(used, max, k)
    ensures Pool(used + {Encode(Tried(max, k))}, Tried(max, k + 1)) == Pool(used, max) - {Tried(max, k)}
    ensures Tried(max, k) in Pool(used, max)
  {
    hide Encode;
    var n, used' := Tried(max, k), used + {Encode(Tried(max, k))};
    TriedRange(max, k);
    TriedRange(max, k + 1);
    if k > 0 { assert Encode(Tried(max, 0)) in used; }
    forall x | x in Pool(used, max) && x != n ensures x in Pool(used', Tried(max, k + 1)) {
      if Encode(x) == Encode(n) { EncodeInjective(x, n); }
    }
    forall x | x in Pool(used', Tried(max, k + 1)) ensures x in Pool(used, max) && x != n {}
  }

  lemma PoolSmaller(used: set<string>, max: nat, k: nat)
    requires FirstFree(used, max, k)
    ensures |Pool(used + {Encode(Tried(max, k))}, Tried(max, k + 1))| == |Pool(used, max)| - 1
  {
    hide Pool, Encode, Tried, FirstFree;
    PoolTaken(used, max, k);
  }

  class IdAlloc {
    var max: nat

    constructor (start: nat)
      ensures max == start
    {
      max := start;
    }

    // The next id that is not in use; without one to find, the search would not end.
    method Next(used: set<string>) returns (id: string, ghost k: nat)
      requires Ends(used, max)
      modifies this
      ensures id !in used && id !in COMMANDS && (old(max) < WRAP ==> |id| <= 3)
      ensures FirstFree(used, old(max), k) && id == Encode(Tried(old(max), k)) && max == Tried(old(max), k + 1)
    {
      hide Encode;
      ghost var goal: nat := if 0 < max < WRAP then max else 1;
      if Encode(max) in used {
        goal :| Free(used, goal);
      }
      k := 0;
      while true
        invariant max == Tried(old(max), k) && forall j: nat :: j < k ==> Encode(Tried(old(max), j)) in used
        invariant Encode(max) !in used || Free(used, goal)
        invariant 1 <= goal < WRAP
        decreases Steps(max, goal)
      {
        var n := max;
        max := max + 1;
        if max >= WRAP {
          max := 1;
        }
        EncodeUpper(n);
        TriedRange(old(max), k);
        if n < WRAP { EncodeShort(n); }
        id := EncodeId(n);
        if id in COMMANDS || id in used {
          k := k + 1;
          continue;
        }
        return;
      }
    }
  }
}
