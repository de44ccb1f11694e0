// What the players say, as the game reads it: letters, counts and solutions.
module WheelAnswers {
  import opened Basics
  import opened WheelGame

  // --- letters --------------------------------------------------------------------------------

  lemma LetterOf(c: char)
    requires 'A' <= c <= 'Z'
    ensures Letter([c]) == [c] && (IsVowel(c) <==> c in "AEIOU")
  {}

  lemma UpperIs(text: string, i: nat)
    requires i < |text|
    ensures |Upper(text)| == |text|
    ensures Upper(text)[i] as int == text[i] as int - if 'a' <= text[i] <= 'z' then 32 else 0
  {}

  // A letter may come in either case, with blanks around it.
  lemma {:induction false} AnyLetter(before: string, c: char, after: string)
    requires 'A' <= c <= 'Z' && Blank(before) && Blank(after)
    ensures Letter(before + [c] + after) == [c] && Letter(before + [c - 'A' + 'a'] + after) == [c]
  {
    TrimsTo(before, [c], after);
    TrimsTo(before, [c - 'A' + 'a'], after);
  }

  predicate Blank(s: string) {
    forall i :: 0 <= i < |s| ==> s[i] in " \t\n\r\U{0B}\U{0C}"
  }

  lemma {:induction false} TrimsTo(before: string, c: string, after: string)
    requires Blank(before) && Blank(after) && |c| == 1 && !IsSpace(c[0])
    ensures Trim(before + c + after) == c
    decreases |before| + |after|
  {
    var s := before + c + after;
    if before != "" {
      TrimsTo(before[1..], c, after);
      assert s[1..] == before[1..] + c + after;
    } else if after != "" {
      TrimsTo(before, c, after[..|after| - 1]);
      assert s[..|s| - 1] == before + c + after[..|after| - 1];
    } else {
      assert s == c;
    }
  }

  // A letter is counted once for each place it stands at.
  lemma CountIs(puzzle: string, c: char)
    ensures Count(puzzle, c) == |Places(puzzle, c, 0)|
  {
    CountFrom(puzzle, c, 0);
    assert puzzle[0..] == puzzle;
  }

  function Places(puzzle: string, c: char, from: nat): set<nat> {
    set i: nat | from <= i < |puzzle| && puzzle[i] == c
  }

  lemma {:induction false} CountFrom(puzzle: string, c: char, from: nat)
    requires from <= |puzzle|
    ensures Count(puzzle[from..], c) == |Places(puzzle, c, from)|
    decreases |puzzle| - from
  {
    if from < |puzzle| {
      CountFrom(puzzle, c, from + 1);
      assert puzzle[from..][1..] == puzzle[from + 1..];
      assert Places(puzzle, c, from) == Places(puzzle, c, from + 1) + (if puzzle[from] == c then {from} else {});
    } else {
      assert Places(puzzle, c, from) == {};
    }
  }

  // The places a letter is covered at, and those that show a consonant.
  function CoveredAt(puzzle: string, guessed: set<char>, from: nat): set<nat> {
    set i: nat | from <= i < |puzzle| && 'A' <= puzzle[i] <= 'Z' && puzzle[i] !in guessed
  }

  function RevealedAt(puzzle: string, guessed: set<char>, from: nat): set<nat> {
    set i: nat | from <= i < |puzzle| && 'A' <= puzzle[i] <= 'Z' && puzzle[i] !in "AEIOU" && puzzle[i] in guessed
  }

  lemma {:induction false} CoveredIs(puzzle: string, guessed: set<char>, from: nat)
    requires from <= |puzzle|
    ensures Covered(puzzle[from..], guessed) == |CoveredAt(puzzle, guessed, from)|
    decreases |puzzle| - from
  {
    if from == |puzzle| {
      assert CoveredAt(puzzle, guessed, from) == {};
    } else {
      CoveredIs(puzzle, guessed, from + 1);
      assert puzzle[from..][1..] == puzzle[from + 1..];
      assert CoveredAt(puzzle, guessed, from)
          == CoveredAt(puzzle, guessed, from + 1) + if Shown(guessed, puzzle[from]) then {} else {from};
    }
  }

  lemma {:induction false} RevealedIs(puzzle: string, guessed: set<char>, from: nat)
    requires from <= |puzzle|
    ensures Revealed(puzzle[from..], guessed) == |RevealedAt(puzzle, guessed, from)|
    decreases |puzzle| - from
  {
    if from == |puzzle| {
      assert RevealedAt(puzzle, guessed, from) == {};
    } else {
      RevealedIs(puzzle, guessed, from + 1);
      assert puzzle[from..][1..] == puzzle[from + 1..];
      RevealedFirst(puzzle, guessed, from);
    }
  }

  lemma RevealedFirst(puzzle: string, guessed: set<char>, from: nat)
    requires from < |puzzle|
    ensures RevealedAt(puzzle, guessed, from)
            == RevealedAt(puzzle, guessed, from + 1) + if IsConsonant(puzzle[from]) && puzzle[from] in guessed then {from} else {}
  {
    assert IsConsonant(puzzle[from]) <==> 'A' <= puzzle[from] <= 'Z' && puzzle[from] !in "AEIOU";
  }

  // --- solutions ------------------------------------------------------------------------------

  // Words of letters in any case, with something else between two of them and anything but
  // letters before and after.
  function Spread(gaps: seq<string>, words: seq<string>): string
    requires |gaps| == |words| + 1
  {
    if words == [] then gaps[0] else gaps[0] + words[0] + Spread(gaps[1..], words[1..])
  }

  predicate AnyCase(w: string) {
    w != "" && forall i :: 0 <= i < |w| ==> 'A' <= w[i] <= 'Z' || 'a' <= w[i] <= 'z'
  }

  predicate NoLetters(gap: string) {
    forall i :: 0 <= i < |gap| ==> !('A' <= gap[i] <= 'Z' || 'a' <= gap[i] <= 'z')
  }

  ghost predicate Spreads(gaps: seq<string>, words: seq<string>) {
    && |gaps| == |words| + 1
    && (forall i :: 0 <= i < |words| ==> AnyCase(words[i]))
    && (forall i :: 0 <= i < |gaps| ==> NoLetters(gaps[i]) && (0 < i < |words| ==> gaps[i] != ""))
  }

  function UpperAll(words: seq<string>): seq<string> {
    seq(|words|, i requires 0 <= i < |words| => Upper(words[i]))
  }

  // Every text is spread like that.
  lemma {:induction false} EveryText(text: string) returns (gaps: seq<string>, words: seq<string>)
    ensures Spreads(gaps, words) && text == Spread(gaps, words)
  {
    if text == "" {
      gaps, words := [""], [];
    } else {
      var c := [text[0]];
      gaps, words := EveryText(text[1..]);
      assert text == c + text[1..];
      if NoLetters(c) {
        BlankFirst(gaps, words, c);
        gaps := gaps[0 := c + gaps[0]];
      } else if gaps[0] == "" && words != [] {
        assert AnyCase(words[0]);
        LetterFirst(gaps, words, c);
        words := words[0 := c + words[0]];
      } else {
        WordFirst(gaps, words, c);
        gaps, words := [""] + gaps, [c] + words;
      }
    }
  }

  lemma BlankFirst(gaps: seq<string>, words: seq<string>, c: string)
    requires Spreads(gaps, words) && NoLetters(c)
    ensures Spreads(gaps[0 := c + gaps[0]], words) && Spread(gaps[0 := c + gaps[0]], words) == c + Spread(gaps, words)
  {
    assert NoLetters(gaps[0]);
    assert gaps[0 := c + gaps[0]][1..] == gaps[1..];
    if words != [] { assert c + gaps[0] + words[0] == c + (gaps[0] + words[0]); }
  }

  lemma LetterFirst(gaps: seq<string>, words: seq<string>, c: string)
    requires Spreads(gaps, words) && AnyCase(c) && gaps[0] == "" && words != [] && AnyCase(words[0])
    ensures Spreads(gaps, words[0 := c + words[0]]) && Spread(gaps, words[0 := c + words[0]]) == c + Spread(gaps, words)
  {
    LetterMore(words[0], c);
    var more := words[0 := c + words[0]];
    forall i | 0 <= i < |more| ensures AnyCase(more[i]) { if i > 0 { assert AnyCase(words[i]); } }
    hide AnyCase, NoLetters, Spread;
    LetterSpread(gaps, words, c);
  }

  lemma LetterSpread(gaps: seq<string>, words: seq<string>, c: string)
    requires |gaps| == |words| + 1 && gaps[0] == "" && words != []
    ensures Spread(gaps, words[0 := c + words[0]]) == c + Spread(gaps, words)
  {
    var more, rest := words[0 := c + words[0]], Spread(gaps[1..], words[1..]);
    assert more[1..] == words[1..];
    assert Spread(gaps, more) == gaps[0] + more[0] + rest;
    assert Spread(gaps, words) == gaps[0] + words[0] + rest;
    hide Spread;
    assert "" + (c + words[0]) + rest == c + ("" + words[0] + rest);
  }

  lemma LetterMore(w: string, c: string)
    requires AnyCase(w) || w == ""
    requires AnyCase(c)
    ensures AnyCase(c + w)
  {}

  lemma WordFirst(gaps: seq<string>, words: seq<string>, c: string)
    requires Spreads(gaps, words) && AnyCase(c) && (gaps[0] != "" || words == [])
    ensures Spreads([""] + gaps, [c] + words) && Spread([""] + gaps, [c] + words) == c + Spread(gaps, words)
  {
    assert ([""] + gaps)[1..] == gaps && ([c] + words)[1..] == words && "" + c == c;
    forall i | 0 <= i < |gaps| + 1 ensures NoLetters(([""] + gaps)[i]) { if i > 0 { assert NoLetters(gaps[i - 1]); } }
    forall i | 0 <= i < |words| + 1 ensures AnyCase(([c] + words)[i]) { if i > 0 { assert AnyCase(words[i - 1]); } }
  }

  // An attempt is right exactly if its words are those of the puzzle, up to case and to
  // what stands between them.
  lemma SolutionIs(s: State, attempt: string, gaps: seq<string>, words: seq<string>, gaps': seq<string>, words': seq<string>)
    requires Spreads(gaps, words) && attempt == Spread(gaps, words)
    requires Spreads(gaps', words') && s.puzzle == Spread(gaps', words')
    ensures Normal(attempt) == Normal(s.puzzle) <==> UpperAll(words) == UpperAll(words')
  {
    hide LetterWords, Joined, UpperAll, Spread, Spreads, Upper, WordList;
    SpreadWords(gaps, words, "");
    SpreadWords(gaps', words', "");
    assert [] + UpperAll(words) == UpperAll(words) && [] + UpperAll(words') == UpperAll(words');
    SpreadUpper(gaps, words);
    SpreadUpper(gaps', words');
    if Joined(UpperAll(words)) == Joined(UpperAll(words')) { JoinedOnce(UpperAll(words), UpperAll(words')); }
  }

  lemma SpreadUpper(gaps: seq<string>, words: seq<string>)
    requires Spreads(gaps, words)
    ensures WordList(UpperAll(words))
  {
    UpperWords(words);
  }

  lemma UpperAppend(a: string, b: string)
    ensures Upper(a + b) == Upper(a) + Upper(b)
  {}

  lemma {:induction false} WordRead(w: string, rest: string, cur: string)
    requires forall i :: 0 <= i < |w| ==> IsLetter(w[i])
    ensures LetterWords(w + rest, cur) == LetterWords(rest, cur + w)
    decreases |w|
  {
    if w == "" {
      assert w + rest == rest && cur + w == cur;
    } else {
      WordRead(w[1..], rest, cur + [w[0]]);
      assert (w + rest)[1..] == w[1..] + rest && cur + [w[0]] + w[1..] == cur + w;
    }
  }

  lemma {:induction false} GapRead(gap: string, rest: string, cur: string)
    requires forall i :: 0 <= i < |gap| ==> !IsLetter(gap[i])
    ensures LetterWords(gap + rest, cur) == if gap == "" then LetterWords(rest, cur)
                                            else (if cur == "" then [] else [cur]) + LetterWords(rest, "")
    decreases |gap|
  {
    if gap == "" {
      assert gap + rest == rest;
    } else {
      GapRead(gap[1..], rest, "");
      assert (gap + rest)[1..] == gap[1..] + rest;
      assert [] + LetterWords(rest, "") == LetterWords(rest, "");
    }
  }

  // The words of a spread text, with cur being read before it.
  lemma {:induction false} SpreadWords(gaps: seq<string>, words: seq<string>, cur: string)
    requires Spreads(gaps, words) && (cur != "" && words != [] ==> gaps[0] != "")
    ensures LetterWords(Upper(Spread(gaps, words)), cur) == (if cur == "" then [] else [cur]) + UpperAll(words)
    decreases |words|
  {
    hide LetterWords, Upper, Spread, Spreads;
    SpreadStep(gaps, words);
    if words == [] {
      GapRead(Upper(gaps[0]), "", cur);
      NothingRead(cur);
      NothingRead("");
      assert Upper(gaps[0]) + "" == Upper(gaps[0]);
      assert cur == "" ==> LetterWords(Upper(gaps[0]), cur) == [];
      assert cur != "" ==> LetterWords(Upper(gaps[0]), cur) == [cur];
    } else {
      var w, rest := words[0], Spread(gaps[1..], words[1..]);
      GapRead(Upper(gaps[0]), Upper(w) + Upper(rest), cur);
      WordRead(Upper(w), Upper(rest), "");
      assert "" + Upper(w) == Upper(w);
      SpreadWords(gaps[1..], words[1..], Upper(w));
    }
  }

  // A spread text, taken apart at its first word.
  lemma SpreadStep(gaps: seq<string>, words: seq<string>)
    requires Spreads(gaps, words)
    ensures |gaps| == |words| + 1 && |Upper(gaps[0])| == |gaps[0]|
    ensures forall i :: 0 <= i < |Upper(gaps[0])| ==> !IsLetter(Upper(gaps[0])[i])
    ensures words == [] ==> Spread(gaps, words) == gaps[0] && UpperAll(words) == []
    ensures words != [] ==>
              && Upper(Spread(gaps, words)) == Upper(gaps[0]) + (Upper(words[0]) + Upper(Spread(gaps[1..], words[1..])))
              && UpperAll(words) == [Upper(words[0])] + UpperAll(words[1..])
              && Upper(words[0]) != "" && (forall i :: 0 <= i < |Upper(words[0])| ==> IsLetter(Upper(words[0])[i]))
              && Spreads(gaps[1..], words[1..]) && (|words| > 1 ==> gaps[1] != "")
  {
    hide Upper, UpperAll, Spread, NoLetters, AnyCase;
    assert |gaps| == |words| + 1 && NoLetters(gaps[0]);
    UpperKinds(gaps[0]);
    if words == [] {
      SpreadEnd(gaps);
    } else {
      assert AnyCase(words[0]);
      UpperKinds(words[0]);
      SomeLetters(words[0]);
      SpreadsTail(gaps, words);
      SpreadParts(gaps, words);
    }
  }

  lemma SomeLetters(w: string)
    requires AnyCase(w)
    ensures w != ""
  {}

  lemma SpreadEnd(gaps: seq<string>)
    requires |gaps| == 1
    ensures Spread(gaps, []) == gaps[0] && UpperAll([]) == []
  {}

  lemma SpreadParts(gaps: seq<string>, words: seq<string>)
    requires |gaps| == |words| + 1 && words != []
    ensures Upper(Spread(gaps, words)) == Upper(gaps[0]) + (Upper(words[0]) + Upper(Spread(gaps[1..], words[1..])))
    ensures UpperAll(words) == [Upper(words[0])] + UpperAll(words[1..])
  {
    FirstUpper(words);
    hide Upper, UpperAll;
    var g, w, rest := gaps[0], words[0], Spread(gaps[1..], words[1..]);
    UpperThree(g, w, rest);
  }

  lemma FirstUpper(words: seq<string>)
    requires words != []
    ensures UpperAll(words) == [Upper(words[0])] + UpperAll(words[1..])
  {
    hide Upper;
  }

  lemma UpperThree(a: string, b: string, c: string)
    ensures Upper(a + b + c) == Upper(a) + (Upper(b) + Upper(c))
  {
    hide Upper;
    UpperAppend(a, b + c);
    UpperAppend(b, c);
    assert a + b + c == a + (b + c);
  }

  lemma UpperKinds(s: string)
    ensures |Upper(s)| == |s|
    ensures NoLetters(s) ==> forall i :: 0 <= i < |s| ==> !IsLetter(Upper(s)[i])
    ensures AnyCase(s) ==> forall i :: 0 <= i < |s| ==> IsLetter(Upper(s)[i])
  {}

  lemma NothingRead(cur: string)
    ensures LetterWords("", cur) == if cur == "" then [] else [cur]
  {}

  lemma SpreadsTail(gaps: seq<string>, words: seq<string>)
    requires Spreads(gaps, words) && words != []
    ensures Spreads(gaps[1..], words[1..]) && (|words| > 1 ==> gaps[1] != "")
  {
    forall i | 0 <= i < |words| - 1 ensures AnyCase(words[1..][i]) { assert AnyCase(words[i + 1]); }
    forall i | 0 <= i < |gaps| - 1 ensures NoLetters(gaps[1..][i]) { assert NoLetters(gaps[i + 1]); }
  }

  lemma UpperWords(words: seq<string>)
    requires forall i :: 0 <= i < |words| ==> AnyCase(words[i])
    ensures WordList(UpperAll(words))
  {
    forall i | 0 <= i < |words| ensures Word(Upper(words[i])) { assert AnyCase(words[i]); }
  }

  lemma {:induction false} JoinedRead(words: seq<string>)
    requires WordList(words)
    ensures LetterWords(Joined(words), "") == words
  {
    if words != [] {
      var w := words[0];
      assert Word(w);
      if |words| == 1 {
        WordRead(w, "", "");
        assert w + "" == w && "" + w == w;
      } else {
        forall i | 0 <= i < |words| - 1 ensures Word(words[1..][i]) { assert Word(words[i + 1]); }
        JoinedRead(words[1..]);
        var rest := Joined(words[1..]);
        assert w + " " + rest == w + (" " + rest) && "" + w == w;
        WordRead(w, " " + rest, "");
        GapRead(" ", rest, w);
        assert words == [w] + words[1..];
      }
    }
  }

  lemma JoinedOnce(a: seq<string>, b: seq<string>)
    requires WordList(a) && WordList(b) && Joined(a) == Joined(b)
    ensures a == b
  {
    JoinedRead(a);
    JoinedRead(b);
  }
}
