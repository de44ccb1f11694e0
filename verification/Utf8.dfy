// The characters a line may hold, by how they are encoded, and lines read back as sent.
module Utf8 {
  import opened Basics
  import opened Framing

  // --- characters ---------------------------------------------------------------------------

  // A code point that is no surrogate.
  predicate Scalar(c: int) {
    0 <= c < 0x110000 && !(0xD800 <= c < 0xE000)
  }

  // Section 3 of RFC 3629.
  function Encoded(c: int): Bytes
    requires Scalar(c)
  {
    if c < 0x80 then [c as Byte]
    else if c < 0x800 then [(0xC0 + c / 64) as Byte, (0x80 + c % 64) as Byte]
    else if c < 0x10000 then [(0xE0 + c / 4096) as Byte, (0x80 + c / 64 % 64) as Byte, (0x80 + c % 64) as Byte]
    else [(0xF0 + c / 262144) as Byte, (0x80 + c / 4096 % 64) as Byte, (0x80 + c / 64 % 64) as Byte, (0x80 + c % 64) as Byte]
  }

  ghost predicate Starts(b: Bytes, c: int) {
    Scalar(c) && Encoded(c) <= b
  }

  // What Framing takes for a character is exactly an encoded one.
  lemma RuneIs(b: Bytes)
    ensures RuneLength(b) > 0 <==> exists c :: Starts(b, c)
    ensures forall c :: Starts(b, c) ==> RuneLength(b) == |Encoded(c)|
  {
    forall c | Starts(b, c) ensures RuneLength(b) == |Encoded(c)| > 0 { Recognised(b, c); }
    if RuneLength(b) > 0 {
      var c := Decoded(b);
      assert Starts(b, c);
    }
  }

  lemma Recognised(b: Bytes, c: int)
    requires Starts(b, c)
    ensures RuneLength(b) == |Encoded(c)| > 0
  {
    var e := Encoded(c);
    forall i | 0 <= i < |e| ensures b[i] == e[i] {}
  }

  lemma Decoded(b: Bytes) returns (c: int)
    requires RuneLength(b) > 0
    ensures Starts(b, c)
  {
    RuneFits(b);
    var n := RuneLength(b);
    if n == 1 {
      c := b[0] as int;
      assert Encoded(c) == b[..1];
    } else if n == 2 {
      c := Decoded2(b);
    } else if n == 3 {
      c := Decoded3(b);
    } else {
      c := Decoded4(b);
    }
  }

  lemma Decoded2(b: Bytes) returns (c: int)
    requires RuneLength(b) == 2
    ensures Starts(b, c)
  {
    var x, y := b[0] as int - 0xC0, b[1] as int - 0x80;
    c := x * 64 + y;
    assert c / 64 == x && c % 64 == y;
    assert Encoded(c) == b[..2];
  }

  lemma Decoded3(b: Bytes) returns (c: int)
    requires RuneLength(b) == 3
    ensures Starts(b, c)
  {
    var x, y, z := b[0] as int - 0xE0, b[1] as int - 0x80, b[2] as int - 0x80;
    c := x * 4096 + y * 64 + z;
    Digits(x, y, z);
    assert Encoded(c) == b[..3];
  }

  lemma Decoded4(b: Bytes) returns (c: int)
    requires RuneLength(b) == 4
    ensures Starts(b, c)
  {
    var w, x, y, z := b[0] as int - 0xF0, b[1] as int - 0x80, b[2] as int - 0x80, b[3] as int - 0x80;
    c := w * 262144 + x * 4096 + y * 64 + z;
    Digits(w * 64 + x, y, z);
    assert (w * 64 + x) / 64 == w && (w * 64 + x) % 64 == x;
    assert c / 262144 == w;
    assert Encoded(c) == b[..4];
  }

  lemma Digits(x: int, y: int, z: int)
    requires 0 <= x && 0 <= y < 64 && 0 <= z < 64
    ensures var c := x * 4096 + y * 64 + z; c / 4096 == x && c / 64 % 64 == y && c % 64 == z
  {
    var c := x * 4096 + y * 64 + z;
    assert c == (x * 64 + y) * 64 + z;
    assert c / 64 == x * 64 + y;
  }

  function EncodedAll(cs: seq<int>): Bytes
    requires forall c :: c in cs ==> Scalar(c)
  {
    if cs == [] then [] else Encoded(cs[0]) + EncodedAll(cs[1..])
  }

  ghost predicate Spells(b: Bytes, cs: seq<int>) {
    (forall c :: c in cs ==> Scalar(c)) && b == EncodedAll(cs)
  }

  // Well-formed text is exactly what encoding some characters gives.
  lemma {:induction false} WellFormedIs(b: Bytes)
    ensures WellFormed(b) <==> exists cs :: Spells(b, cs)
    decreases |b|
  {
    RuneFits(b);
    RuneIs(b);
    var n := RuneLength(b);
    if b == [] {
      assert Spells(b, []);
    } else if n > 0 {
      WellFormedIs(b[n..]);
      var c :| Starts(b, c);
      if WellFormed(b) {
        var cs :| Spells(b[n..], cs);
        SpellsMore(b, c, cs);
      }
      if cs :| Spells(b, cs) { SpellsLess(b, cs, n); }
    } else if cs :| Spells(b, cs) {
      SpellsStarts(b, cs);
    }
  }

  lemma SpellsStarts(b: Bytes, cs: seq<int>)
    requires Spells(b, cs) && b != []
    ensures cs != [] && Starts(b, cs[0])
  {
    assert cs[0] in cs;
  }

  lemma SpellsMore(b: Bytes, c: int, cs: seq<int>)
    requires Starts(b, c) && |Encoded(c)| <= |b| && Spells(b[|Encoded(c)|..], cs)
    ensures Spells(b, [c] + cs)
  {
    assert ([c] + cs)[1..] == cs;
    assert b == Encoded(c) + b[|Encoded(c)|..];
  }

  lemma SpellsLess(b: Bytes, cs: seq<int>, n: nat)
    requires Spells(b, cs) && b != [] && n == RuneLength(b) && 0 < n <= |b|
    ensures Spells(b[n..], cs[1..])
  {
    SpellsStarts(b, cs);
    RuneIs(b);
    assert forall c :: c in cs[1..] ==> c in cs;
  }

  // --- cleaning -----------------------------------------------------------------------------

  // A character at the front is kept, and a byte that starts none is dropped; this settles
  // what cleaning does to any bytes.
  lemma CleaningIs(b: Bytes, c: int, x: Byte)
    ensures Cleaned([]) == []
    ensures Scalar(c) ==> Cleaned(Encoded(c) + b) == Encoded(c) + Cleaned(b)
    ensures (forall d :: !Starts([x] + b, d)) ==> Cleaned([x] + b) == Cleaned(b)
  {
    hide RuneLength, Encoded;
    if Scalar(c) {
      assert Starts(Encoded(c) + b, c);
      RuneIs(Encoded(c) + b);
      RuneFits(Encoded(c) + b);
      assert (Encoded(c) + b)[|Encoded(c)|..] == b && (Encoded(c) + b)[..|Encoded(c)|] == Encoded(c);
      assert Cleaned(Encoded(c) + b) == Encoded(c) + Cleaned(b) by {
        Recognised(Encoded(c) + b, c);
        CleanedStep(Encoded(c) + b);
      }
    }
    if forall d :: !Starts([x] + b, d) {
      RuneIs([x] + b);
      CleanedStep([x] + b);
      assert ([x] + b)[1..] == b;
    }
  }

  lemma CleanedStep(b: Bytes)
    requires b != []
    ensures RuneLength(b) <= |b|
    ensures Cleaned(b) == if RuneLength(b) == 0 then Cleaned(b[1..]) else b[..RuneLength(b)] + Cleaned(b[RuneLength(b)..])
  {
    RuneFits(b);
  }

  // --- sent and read back ---------------------------------------------------------------------

  // Lines sent with a line break after each, with or without a carriage return, and the
  // start of another.
  function Stream(lines: seq<Bytes>, crs: seq<bool>, tail: Bytes): Bytes
    requires |lines| == |crs|
  {
    if lines == [] then tail
    else lines[0] + (if crs[0] then [13, 10] else [10]) + Stream(lines[1..], crs[1..], tail)
  }

  // Some text that fits on a line.
  ghost predicate OneLine(l: Bytes) {
    l != [] && 10 !in l && l[|l| - 1] != 13 && WellFormed(l)
  }

  // Such lines read back as they were sent, and the start of another is kept.
  lemma {:induction false} ReadBack(lines: seq<Bytes>, crs: seq<bool>, tail: Bytes)
    requires |lines| == |crs| && (forall l :: l in lines ==> OneLine(l)) && 10 !in tail
    ensures Lines(Stream(lines, crs, tail)) == lines
    ensures Rest(Stream(lines, crs, tail)) == tail
  {
    hide Lines, Rest, Break, Cleaned, Stripped, WellFormed;
    var s := Stream(lines, crs, tail);
    LinesStep(s);
    if lines == [] {
      BreakIs(tail, [], false);
    } else {
      var l, ret := lines[0], crs[0];
      assert l in lines;
      var rest := Stream(lines[1..], crs[1..], tail);
      BreakAt(l, ret, rest);
      CleanedWell(l);
      ReadBack(lines[1..], crs[1..], tail);
      assert lines == [l] + lines[1..];
    }
  }

  lemma BreakFirst(s: Bytes)
    ensures forall i :: 0 <= i < Break(s) ==> s[i] != 10
  {
    forall i | 0 <= i < Break(s) ensures s[i] != 10 { assert s[i] in s[..Break(s)]; }
  }

  lemma BreakIs(a: Bytes, rest: Bytes, more: bool)
    requires 10 !in a
    ensures Break(if more then a + [10] + rest else a) == |a|
  {
    var s := if more then a + [10] + rest else a;
    BreakFirst(s);
    forall i | 0 <= i < |a| ensures s[i] != 10 { assert s[i] == a[i] && a[i] in a; }
    assert more ==> s[|a|] == 10;
  }

  // The first line of a stream, less its carriage return.
  lemma BreakAt(l: Bytes, ret: bool, rest: Bytes)
    requires OneLine(l)
    ensures var s := l + (if ret then [13, 10] else [10]) + rest;
            && Break(s) < |s| && s[Break(s) + 1..] == rest && Stripped(s[..Break(s)]) == l
  {
    var a: Bytes := if ret then l + [13] else l;
    var s := l + (if ret then [13, 10] else [10]) + rest;
    assert s == a + [10] + rest;
    BreakIs(a, rest, true);
    assert s[..|a|] == a;
  }
}
