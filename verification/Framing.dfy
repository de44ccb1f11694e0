// Cutting a byte stream into lines, however it is split into reads.
module Framing {
  import opened Basics

  const RETURN: Byte := 13

  // --- UTF-8 ------------------------------------------------------------------------------

  predicate Cont(b: Bytes, i: nat, lo: Byte, hi: Byte) {
    i < |b| && lo <= b[i] <= hi
  }

  // The length of the character b starts with; 0 if there is none.
  function RuneLength(b: Bytes): nat {
    if b == [] then 0
    else if b[0] < 0x80 then 1
    else if 0xC2 <= b[0] <= 0xDF then (if Cont(b, 1, 0x80, 0xBF) then 2 else 0)
    else if 0xE0 <= b[0] <= 0xEF then
      var lo: Byte := if b[0] == 0xE0 then 0xA0 else 0x80;
      var hi: Byte := if b[0] == 0xED then 0x9F else 0xBF;
      if Cont(b, 1, lo, hi) && Cont(b, 2, 0x80, 0xBF) then 3 else 0
    else if 0xF0 <= b[0] <= 0xF4 then
      var lo: Byte := if b[0] == 0xF0 then 0x90 else 0x80;
      var hi: Byte := if b[0] == 0xF4 then 0x8F else 0xBF;
      if Cont(b, 1, lo, hi) && Cont(b, 2, 0x80, 0xBF) && Cont(b, 3, 0x80, 0xBF) then 4 else 0
    else 0
  }

  lemma RuneFits(b: Bytes)
    ensures RuneLength(b) <= |b|
  {}

  // Bytes that are not part of a character are dropped.
  function Cleaned(b: Bytes): Bytes {
    RuneFits(b);
    var n := RuneLength(b);
    if b == [] then []
    else if n == 0 then Cleaned(b[1..])
    else b[..n] + Cleaned(b[n..])
  }

  // Characters, one after another.
  predicate WellFormed(b: Bytes)
  {
    RuneFits(b);
    b == [] || (RuneLength(b) > 0 && WellFormed(b[RuneLength(b)..]))
  }

  lemma RunePrefix(b: Bytes, rest: Bytes)
    requires RuneLength(b) > 0
    ensures RuneLength(b[..RuneLength(b)] + rest) == RuneLength(b)
  {
    RuneFits(b);
  }

  // What is left is well formed, and well-formed text is left alone.
  lemma {:induction false} CleanedWell(b: Bytes)
    ensures WellFormed(Cleaned(b))
    ensures WellFormed(b) ==> Cleaned(b) == b
    decreases |b|
  {
    RuneFits(b);
    var n := RuneLength(b);
    if b != [] && n == 0 {
      CleanedWell(b[1..]);
    } else if b != [] {
      CleanedWell(b[n..]);
      RunePrefix(b, Cleaned(b[n..]));
      assert (b[..n] + Cleaned(b[n..]))[n..] == Cleaned(b[n..]);
      assert b == b[..n] + b[n..];
    }
  }

  // --- lines --------------------------------------------------------------------------------

  // Where the first line break is, or the length if there is none.
  function Break(s: Bytes): (i: nat)
    ensures i <= |s| && NEWLINE !in s[..i] && (i < |s| ==> s[i] == NEWLINE)
  {
    if s == [] || s[0] == NEWLINE then 0
    else
      assert s[..1 + Break(s[1..])] == [s[0]] + s[1..][..Break(s[1..])];
      1 + Break(s[1..])
  }

  // A line without its carriage return; an empty one does not count.
  function Stripped(line: Bytes): Bytes {
    if line != [] && line[|line| - 1] == RETURN then line[..|line| - 1] else line
  }

  function Counted(line: Bytes): seq<Bytes> {
    if Stripped(line) == [] then [] else [Cleaned(Stripped(line))]
  }

  function Lines(s: Bytes): seq<Bytes>
    decreases |s|
  {
    if Break(s) == |s| then [] else Counted(s[..Break(s)]) + Lines(s[Break(s) + 1..])
  }

  // What follows the last line break.
  function Rest(s: Bytes): Bytes
    decreases |s|
  {
    if Break(s) == |s| then s else Rest(s[Break(s) + 1..])
  }

  lemma {:induction false} BreakAppend(s: Bytes, t: Bytes)
    requires Break(s) < |s|
    ensures Break(s + t) == Break(s)
  {
    if s[0] != NEWLINE {
      BreakAppend(s[1..], t);
      assert (s + t)[1..] == s[1..] + t;
    }
  }

  lemma LinesStep(s: Bytes)
    ensures Break(s) == |s| ==> Lines(s) == [] && Rest(s) == s
    ensures Break(s) < |s| ==>
              Lines(s) == Counted(s[..Break(s)]) + Lines(s[Break(s) + 1..]) && Rest(s) == Rest(s[Break(s) + 1..])
  {
    hide Break, Counted;
  }

  // Lines already complete do not depend on what follows; the rest is continued by it.
  lemma {:induction false} LinesAppend(s: Bytes, t: Bytes)
    ensures Lines(s + t) == Lines(s) + Lines(Rest(s) + t)
    ensures Rest(s + t) == Rest(Rest(s) + t)
    decreases |s|
  {
    hide Lines, Rest, Counted, Break;
    LinesStep(s);
    LinesStep(s + t);
    var i := Break(s);
    if i == |s| {
      assert [] + Lines(s + t) == Lines(s + t);
    } else {
      BreakAppend(s, t);
      assert (s + t)[i + 1..] == s[i + 1..] + t && (s + t)[..i] == s[..i];
      LinesAppend(s[i + 1..], t);
      Regroup(Counted(s[..i]), Lines(s[i + 1..]), Lines(Rest(s) + t));
    }
  }

  lemma Regroup(a: seq<Bytes>, b: seq<Bytes>, c: seq<Bytes>)
    ensures a + (b + c) == (a + b) + c
  {}

  class LineBuffer {
    var buf: Bytes

    constructor ()
      ensures buf == []
    {
      buf := [];
    }

    method IndexNewline() returns (i: nat)
      ensures i == Break(buf)
    {
      i := 0;
      while i < |buf| && buf[i] != NEWLINE
        invariant i <= |buf| && Break(buf) == i + Break(buf[i..])
      {
        assert buf[i..][1..] == buf[i + 1..];
        i := i + 1;
      }
    }

    // Take data in; give back every line that is now complete.
    method Feed(data: Bytes) returns (lines: seq<Bytes>)
      modifies this
      ensures lines == Lines(old(buf) + data) && buf == Rest(old(buf) + data)
    {
      hide Lines, Rest, Break, Cleaned;
      buf := buf + data;
      lines := [];
      ghost var all := buf;
      assert [] + Lines(all) == Lines(all);
      while true
        invariant Lines(all) == lines + Lines(buf) && Rest(all) == Rest(buf)
        decreases |buf|
      {
        LinesStep(buf);
        var nl := IndexNewline();
        if nl == |buf| {
          assert lines + [] == lines;
          return;
        }
        var line := buf[..nl];
        Regroup(lines, Counted(line), Lines(buf[nl + 1..]));
        buf := buf[nl + 1..];
        if |line| > 0 && line[|line| - 1] == RETURN {
          line := line[..|line| - 1];
        }
        if |line| == 0 {
          assert lines + [] == lines;
          continue;
        }
        lines := lines + [Cleaned(line)];
      }
    }
  }

  // --- any split ------------------------------------------------------------------------------

  // What feeding chunk after chunk gives in all, and leaves.
  function Fed(chunks: seq<Bytes>): (seq<Bytes>, Bytes) {
    if chunks == [] then ([], [])
    else
      var (lines, buf) := Fed(chunks[..|chunks| - 1]);
      (lines + Lines(buf + chunks[|chunks| - 1]), Rest(buf + chunks[|chunks| - 1]))
  }

  // Any split of a stream gives the lines and the remainder of the whole.
  lemma {:induction false} AnySplit(chunks: seq<Bytes>)
    ensures Fed(chunks) == (Lines(Flat(chunks)), Rest(Flat(chunks)))
  {
    if chunks != [] {
      AnySplit(chunks[..|chunks| - 1]);
      LinesAppend(Flat(chunks[..|chunks| - 1]), chunks[|chunks| - 1]);
    }
  }

  // Lines have no line break left in them, nor has the remainder.
  lemma {:induction false} NoBreaks(s: Bytes)
    ensures NEWLINE !in Rest(s)
    ensures forall l :: l in Lines(s) ==> NEWLINE !in l && WellFormed(l)
    decreases |s|
  {
    var i := Break(s);
    if i < |s| {
      NoBreaks(s[i + 1..]);
      CleanedWell(Stripped(s[..i]));
      CleanedPart(Stripped(s[..i]));
    } else {
      assert s[..i] == s;
    }
  }

  lemma {:induction false} CleanedPart(b: Bytes)
    ensures forall x :: x in Cleaned(b) ==> x in b
    decreases |b|
  {
    RuneFits(b);
    var n := RuneLength(b);
    if b != [] { CleanedPart(if n == 0 then b[1..] else b[n..]); }
  }
}
