// One puzzle of the wheel game: spins, letters, vowels, solutions and the money.
module WheelGame {
  import opened Basics

  datatype Segment = Money(amount: int) | Bankrupt | LoseTurn | Joker

  const WEDGES: nat := 24

  function Wheel(i: nat): Segment
    requires i < WEDGES
  {
    match i
    case 0 => Money(50)
    case 1 => Money(150)
    case 2 => Money(200)
    case 3 => Money(200)
    case 4 => Money(200)
    case 5 => Money(300)
    case 6 => Money(350)
    case 7 => Money(400)
    case 8 => Money(400)
    case 9 => Money(400)
    case 10 => Money(450)
    case 11 => Money(450)
    case 12 => Money(550)
    case 13 => Money(600)
    case 14 => Money(600)
    case 15 => Money(600)
    case 16 => Money(700)
    case 17 => Money(750)
    case 18 => Money(800)
    case 19 => Money(800)
    case 20 => Money(1000)
    case 21 => Bankrupt
    case 22 => LoseTurn
    case _ => Joker
  }

  datatype Player = Player(nick: string, money: int, joker: bool, missed: nat)

  // Owes is set while a consonant is owed after a spin, for the pending amount.
  datatype State = State(puzzle: string, guessed: set<char>, players: seq<Player>, turn: nat,
                         owes: bool, pending: int, done: bool)

  // What a letter or a vowel did.
  datatype Outcome = Hit(count: nat, amount: int) | Miss(dup: bool, saved: bool) | Invalid | Broke

  // --- letters ----------------------------------------------------------------------------

  predicate IsLetter(c: char) {
    'A' <= c <= 'Z'
  }

  predicate IsVowel(c: char) {
    c == 'A' || c == 'E' || c == 'I' || c == 'O' || c == 'U'
  }

  predicate IsConsonant(c: char) {
    IsLetter(c) && !IsVowel(c)
  }

  function UpperChar(c: char): char {
    if 'a' <= c <= 'z' then c - 'a' + 'A' else c
  }

  function Upper(s: string): string {
    seq(|s|, i requires 0 <= i < |s| => UpperChar(s[i]))
  }

  function Trim(s: string): string {
    if s != "" && IsSpace(s[0]) then Trim(s[1..])
    else if s != "" && IsSpace(s[|s| - 1]) then Trim(s[..|s| - 1])
    else s
  }

  function Count(puzzle: string, c: char): nat {
    if puzzle == "" then 0 else (if puzzle[0] == c then 1 else 0) + Count(puzzle[1..], c)
  }

  // How many positions of the board show a consonant.
  function Revealed(puzzle: string, guessed: set<char>): nat {
    if puzzle == "" then 0
    else (if IsConsonant(puzzle[0]) && puzzle[0] in guessed then 1 else 0) + Revealed(puzzle[1..], guessed)
  }

  lemma {:induction false} RevealMore(puzzle: string, guessed: set<char>, c: char)
    requires c !in guessed
    ensures Revealed(puzzle, guessed + {c}) == Revealed(puzzle, guessed) + (if IsConsonant(c) then Count(puzzle, c) else 0)
  {
    if puzzle != "" { RevealMore(puzzle[1..], guessed, c); }
  }

  function Total(players: seq<Player>): int {
    if players == [] then 0 else Total(players[..|players| - 1]) + players[|players| - 1].money
  }

  lemma {:induction false} TotalUpdate(players: seq<Player>, i: nat, p: Player)
    requires i < |players|
    ensures Total(players[i := p]) == Total(players) - players[i].money + p.money
  {
    var k := |players| - 1;
    if i < k {
      TotalUpdate(players[..k], i, p);
      assert players[i := p][..k] == players[..k][i := p];
    } else {
      assert players[i := p][..k] == players[..k];
    }
  }

  lemma {:induction false} TotalRemove(players: seq<Player>, i: nat)
    requires i < |players|
    ensures Total(players[..i] + players[i + 1..]) == Total(players) - players[i].money
  {
    var k := |players| - 1;
    if i < k {
      TotalRemove(players[..k], i);
      assert (players[..i] + players[i + 1..])[..k - 1] == players[..k][..i] + players[..k][i + 1..];
    } else {
      assert players[..i] + players[i + 1..] == players[..k];
    }
  }

  // --- moves ------------------------------------------------------------------------------

  predicate Playing(s: State) {
    s.turn < |s.players|
  }

  function Me(s: State): Player
    requires Playing(s)
  {
    s.players[s.turn]
  }

  function WithMe(s: State, p: Player): State
    requires Playing(s)
  {
    s.(players := s.players[s.turn := p])
  }

  function Settled(s: State): State {
    s.(owes := false, pending := 0)
  }

  function Advanced(s: State): State
    requires Playing(s)
  {
    Settled(s).(turn := (s.turn + 1) % |s.players|)
  }

  // A joker is spent instead of the turn.
  function TurnLost(s: State): State
    requires Playing(s)
  {
    if Me(s).joker then Settled(WithMe(s, Me(s).(joker := false))) else Advanced(s)
  }

  function Spun(s: State, i: nat): State
    requires Playing(s) && i < WEDGES
  {
    match Wheel(i)
    case Money(amount) => s.(owes := true, pending := amount)
    case Bankrupt => TurnLost(WithMe(s, Me(s).(money := 0)))
    case LoseTurn => TurnLost(s)
    case Joker => WithMe(s, Me(s).(joker := true)).(owes := false)
  }

  function Letter(text: string): string {
    Upper(Trim(text))
  }

  function Called(s: State, text: string): (State, Outcome)
    requires Playing(s)
  {
    var l := Letter(text);
    if |l| != 1 || !IsConsonant(l[0]) then (s, Invalid)
    else if l[0] in s.guessed then (TurnLost(s), Miss(true, Me(s).joker))
    else
      var n, t := Count(s.puzzle, l[0]), s.(guessed := s.guessed + {l[0]});
      if n == 0 then (TurnLost(t), Miss(false, Me(s).joker))
      else (Settled(WithMe(t, Me(s).(money := Me(s).money + s.pending * n))), Hit(n, s.pending * n))
  }

  function Bought(s: State, text: string, cost: int): (State, Outcome)
    requires Playing(s)
  {
    var l := Letter(text);
    if |l| != 1 || !IsVowel(l[0]) || l[0] in s.guessed then (s, Invalid)
    else if Me(s).money < cost then (s, Broke)
    else
      var t := WithMe(s, Me(s).(money := Me(s).money - cost)).(guessed := s.guessed + {l[0]});
      var n := Count(s.puzzle, l[0]);
      if n == 0 then (TurnLost(t), Miss(false, Me(s).joker)) else (t, Hit(n, 0))
  }

  function Solved(s: State, attempt: string): State
    requires Playing(s)
  {
    if Normal(attempt) == Normal(s.puzzle) then s.(done := true) else Advanced(s)
  }

  // The current player leaves; the next one is up.
  function Dropped(s: State): State
    requires Playing(s)
  {
    var rest := s.players[..s.turn] + s.players[s.turn + 1..];
    Settled(s).(players := rest, turn := if rest == [] then 0 else s.turn % |rest|)
  }

  // --- what every move keeps -----------------------------------------------------------------

  // The turn is someone's, an amount is pending exactly while a letter is owed, nobody is
  // in debt, and all money was earned at no more than 1000 a revealed consonant.
  ghost predicate Sound(s: State) {
    && Playing(s) && (s.owes <==> s.pending > 0) && 0 <= s.pending <= 1000
    && (forall i :: 0 <= i < |s.players| ==> s.players[i].money >= 0)
    && Total(s.players) <= 1000 * Revealed(s.puzzle, s.guessed)
  }

  lemma WheelPays(i: nat)
    requires i < WEDGES && Wheel(i).Money?
    ensures 50 <= Wheel(i).amount <= 1000
  {}

  lemma MeSound(s: State, p: Player)
    requires Sound(s) && 0 <= p.money <= Me(s).money
    ensures Sound(WithMe(s, p))
  {
    TotalUpdate(s.players, s.turn, p);
  }

  lemma LostSound(s: State)
    requires Sound(s)
    ensures Sound(TurnLost(s)) && Sound(Advanced(s))
  {
    if Me(s).joker { MeSound(s, Me(s).(joker := false)); }
  }

  // Spinning again while a letter is owed is kept sound by every wedge but the joker, which
  // leaves the amount pending; the game only spins when none is owed.
  lemma SpinSound(s: State, i: nat)
    requires Sound(s) && i < WEDGES
    ensures Sound(Spun(s, i)) <==> !(Wheel(i).Joker? && s.owes)
  {
    hide Total, Revealed, Wheel;
    match Wheel(i)
    case Money(_) => WheelPays(i);
    case Bankrupt =>
      MeSound(s, Me(s).(money := 0));
      LostSound(WithMe(s, Me(s).(money := 0)));
    case LoseTurn => LostSound(s);
    case Joker => MeSound(s, Me(s).(joker := true));
  }

  // Such a spin: one player owes a letter and lands on the joker.
  lemma JokerWhileOwing(nick: string)
    ensures var s := State("B", {}, [Player(nick, 0, false, 0)], 0, true, 50, false);
            Sound(s) && Wheel(23).Joker? && !Spun(s, 23).owes && Spun(s, 23).pending == 50 && !Sound(Spun(s, 23))
  {
    var p := Player(nick, 0, false, 0);
    assert [p][..0] == [];
  }

  lemma GuessSound(s: State, c: char)
    requires Sound(s) && c !in s.guessed
    ensures Sound(s.(guessed := s.guessed + {c}))
  {
    RevealMore(s.puzzle, s.guessed, c);
  }

  lemma Product(a: int, n: nat)
    requires 0 <= a <= 1000
    ensures 0 <= a * n <= 1000 * n
  {}

  lemma CallSound(s: State, text: string)
    requires Sound(s)
    ensures Sound(Called(s, text).0)
  {
    hide Total, Revealed, Letter;
    var l := Letter(text);
    if |l| == 1 && IsConsonant(l[0]) {
      LostSound(s);
      if l[0] !in s.guessed {
        var c, n := l[0], Count(s.puzzle, l[0]);
        GuessSound(s, c);
        LostSound(s.(guessed := s.guessed + {c}));
        RevealMore(s.puzzle, s.guessed, c);
        Product(s.pending, n);
        TotalUpdate(s.players, s.turn, Me(s).(money := Me(s).money + s.pending * n));
      }
    }
  }

  lemma BuySound(s: State, text: string, cost: int)
    requires Sound(s) && cost >= 0
    ensures Sound(Bought(s, text, cost).0)
  {
    hide Total, Revealed, Letter;
    var l := Letter(text);
    if |l| == 1 && IsVowel(l[0]) && l[0] !in s.guessed && Me(s).money >= cost {
      MeSound(s, Me(s).(money := Me(s).money - cost));
      var t := WithMe(s, Me(s).(money := Me(s).money - cost));
      GuessSound(t, l[0]);
      LostSound(t.(guessed := s.guessed + {l[0]}));
    }
  }

  lemma SolveSound(s: State, attempt: string)
    requires Sound(s)
    ensures Sound(Solved(s, attempt))
  {
    hide Total, Revealed, Normal;
    LostSound(s);
  }

  lemma DropSound(s: State)
    requires Sound(s)
    ensures Dropped(s).players == [] || Sound(Dropped(s))
  {
    TotalRemove(s.players, s.turn);
    var rest := s.players[..s.turn] + s.players[s.turn + 1..];
    forall i | 0 <= i < |rest| ensures rest[i].money >= 0 {
      assert rest[i] == if i < s.turn then s.players[i] else s.players[i + 1];
    }
  }

  // --- the board --------------------------------------------------------------------------------

  const HIDDEN: char := '\U{2591}'

  predicate Shown(guessed: set<char>, c: char) {
    !IsLetter(c) || c in guessed
  }

  // How many positions of the board are hidden.
  function Covered(puzzle: string, guessed: set<char>): nat {
    if puzzle == "" then 0 else (if Shown(guessed, puzzle[0]) then 0 else 1) + Covered(puzzle[1..], guessed)
  }

  // A new letter uncovers as many positions as it is counted.
  lemma {:induction false} Uncovers(puzzle: string, guessed: set<char>, c: char)
    requires IsLetter(c) && c !in guessed
    ensures Covered(puzzle, guessed + {c}) + Count(puzzle, c) == Covered(puzzle, guessed)
  {
    if puzzle != "" { Uncovers(puzzle[1..], guessed, c); }
  }

  lemma {:induction false} CountZero(puzzle: string, c: char)
    ensures Count(puzzle, c) == 0 <==> c !in puzzle
  {
    if puzzle != "" {
      CountZero(puzzle[1..], c);
      assert puzzle == [puzzle[0]] + puzzle[1..];
    }
  }

  // --- solutions --------------------------------------------------------------------------------

  // The words of letters of a text; cur is the word being read.
  function LetterWords(s: string, cur: string): seq<string> {
    if s == "" then (if cur == "" then [] else [cur])
    else if IsLetter(s[0]) then LetterWords(s[1..], cur + [s[0]])
    else (if cur == "" then [] else [cur]) + LetterWords(s[1..], "")
  }

  function Joined(words: seq<string>): string {
    if words == [] then ""
    else if |words| == 1 then words[0]
    else words[0] + " " + Joined(words[1..])
  }

  // A text reduced to its upper-case words, one blank between two.
  function Normal(s: string): string {
    Joined(LetterWords(Upper(s), ""))
  }

  ghost predicate Word(w: string) {
    w != "" && forall i :: 0 <= i < |w| ==> IsLetter(w[i])
  }

  ghost predicate WordList(words: seq<string>) {
    forall i :: 0 <= i < |words| ==> Word(words[i])
  }

  lemma {:induction false} JoinedMore(words: seq<string>, w: string)
    ensures Joined(words + [w]) == if words == [] then w else Joined(words) + " " + w
  {
    if words == [] {
      assert words + [w] == [w];
    } else {
      JoinedMore(words[1..], w);
      assert (words + [w])[1..] == words[1..] + [w];
      if |words| > 1 {
        assert words[0] + " " + (Joined(words[1..]) + " " + w) == words[0] + " " + Joined(words[1..]) + " " + w;
      }
    }
  }

  lemma {:induction false} JoinedEnds(words: seq<string>)
    requires WordList(words) && words != []
    ensures Joined(words) != "" && IsLetter(Joined(words)[0]) && IsLetter(Joined(words)[|Joined(words)| - 1])
  {
    assert Word(words[0]);
    if |words| > 1 {
      forall i | 0 <= i < |words[1..]| ensures Word(words[1..][i]) { assert Word(words[i + 1]); }
      JoinedEnds(words[1..]);
    }
  }

  // Trimming takes off no more than the blank at the end.
  lemma TrimmedEnd(words: seq<string>)
    requires WordList(words)
    ensures Trim(Joined(words)) == Joined(words)
    ensures words != [] ==> Trim(Joined(words) + " ") == Joined(words)
  {
    if words != [] {
      JoinedEnds(words);
      var j := Joined(words);
      assert (j + " ")[..|j|] == j && (j + " ")[0] == j[0] && (j + " ")[|j|] == ' ';
    }
  }

  // What the builder holds after some complete words and part of another.
  ghost predicate Built(b: string, space: bool, words: seq<string>, cur: string) {
    && WordList(words) && space == (cur == "")
    && (cur != "" ==> Word(cur) && b == Joined(words + [cur]))
    && (cur == "" ==> b == if words == [] then "" else Joined(words) + " ")
  }

  lemma BuiltLetter(b: string, space: bool, words: seq<string>, cur: string, c: char)
    requires Built(b, space, words, cur) && IsLetter(c)
    ensures Built(b + [c], false, words, cur + [c])
  {
    JoinedMore(words, cur + [c]);
    JoinedMore(words, cur);
    if words != [] && cur != "" { assert Joined(words) + " " + cur + [c] == Joined(words) + " " + (cur + [c]); }
  }

  lemma BuiltBlank(b: string, words: seq<string>, cur: string)
    requires Built(b, false, words, cur)
    ensures Built(b + " ", true, words + [cur], "")
  {}

  // The builder after the first i characters.
  ghost predicate Reading(u: string, i: nat, b: string, space: bool, words: seq<string>, cur: string) {
    i <= |u| && Built(b, space, words, cur) && LetterWords(u, "") == words + LetterWords(u[i..], cur)
  }

  lemma ReadLetter(u: string, i: nat, b: string, space: bool, words: seq<string>, cur: string)
    requires Reading(u, i, b, space, words, cur) && i < |u| && IsLetter(u[i])
    ensures Reading(u, i + 1, b + [u[i]], false, words, cur + [u[i]])
  {
    hide Built, LetterWords;
    assert u[i..][1..] == u[i + 1..];
    NextWord(u[i..], cur);
    BuiltLetter(b, space, words, cur, u[i]);
  }

  lemma ReadBlank(u: string, i: nat, b: string, space: bool, words: seq<string>, cur: string)
    requires Reading(u, i, b, space, words, cur) && i < |u| && !IsLetter(u[i])
    ensures if space then cur == "" && Reading(u, i + 1, b, true, words, "")
            else Reading(u, i + 1, b + " ", true, words + [cur], "")
  {
    hide Built, LetterWords;
    var rest := LetterWords(u[i + 1..], "");
    assert u[i..][1..] == u[i + 1..];
    NextWord(u[i..], cur);
    BuiltSpace(b, space, words, cur);
    if space {
      assert [] + rest == rest;
    } else {
      BuiltBlank(b, words, cur);
      assert words + ([cur] + rest) == (words + [cur]) + rest;
    }
  }

  method Normalize(text: string) returns (r: string)
    ensures r == Normal(text)
  {
    hide Reading;
    var b, space, u := "", true, Upper(text);
    ghost var words: seq<string>, cur := [], "";
    StartBuilt(u);
    for i := 0 to |u|
      invariant Reading(u, i, b, space, words, cur)
    {
      if IsLetter(u[i]) {
        ReadLetter(u, i, b, space, words, cur);
        b, space, cur := b + [u[i]], false, cur + [u[i]];
      } else {
        ReadBlank(u, i, b, space, words, cur);
        if !space {
          b, space, words, cur := b + " ", true, words + [cur], "";
        }
      }
    }
    EndBuilt(u, b, space, words, cur);
    r := Trim(b);
  }

  lemma StartBuilt(u: string)
    ensures Reading(u, 0, "", true, [], "")
  {
    assert u[0..] == u && [] + LetterWords(u, "") == LetterWords(u, "");
  }

  lemma BuiltSpace(b: string, space: bool, words: seq<string>, cur: string)
    requires Built(b, space, words, cur)
    ensures space <==> cur == ""
  {}

  lemma NextWord(s: string, cur: string)
    requires s != ""
    ensures LetterWords(s, cur) == if IsLetter(s[0]) then LetterWords(s[1..], cur + [s[0]])
                                   else (if cur == "" then [] else [cur]) + LetterWords(s[1..], "")
  {}

  lemma EndBuilt(u: string, b: string, space: bool, words: seq<string>, cur: string)
    requires Reading(u, |u|, b, space, words, cur)
    ensures Trim(b) == Joined(LetterWords(u, ""))
  {
    assert u[|u|..] == "";
    if cur == "" {
      assert words + [] == words;
      TrimmedEnd(words);
    } else {
      assert WordList(words + [cur]);
      TrimmedEnd(words + [cur]);
    }
  }

  // --- the game in place ------------------------------------------------------------------------

  class Game {
    const puzzle: string
    var guessed: set<char>
    var players: seq<Player>
    var turn: nat
    var owes: bool
    var pending: int
    var done: bool

    function Now(): State
      reads this
    {
      State(puzzle, guessed, players, turn, owes, pending, done)
    }

    constructor (text: string, nicks: seq<string>)
      ensures Now() == State(Upper(text), {}, seq(|nicks|, i requires 0 <= i < |nicks| => Player(nicks[i], 0, false, 0)),
                             0, false, 0, false)
    {
      puzzle := Upper(text);
      guessed, turn, owes, pending, done := {}, 0, false, 0, false;
      players := seq(|nicks|, i requires 0 <= i < |nicks| => Player(nicks[i], 0, false, 0));
    }

    method Advance()
      requires Playing(Now())
      modifies this
      ensures Now() == Advanced(old(Now()))
    {
      turn := (turn + 1) % |players|;
      owes, pending := false, 0;
    }

    method LoseTheTurn() returns (saved: bool)
      requires Playing(Now())
      modifies this
      ensures Now() == TurnLost(old(Now())) && saved == Me(old(Now())).joker
    {
      if players[turn].joker {
        players := players[turn := players[turn].(joker := false)];
        owes, pending := false, 0;
        return true;
      }
      Advance();
      saved := false;
    }

    method Spin(idx: nat) returns (seg: Segment, saved: bool, lost: int)
      requires Playing(Now())
      modifies this
      ensures seg == Wheel(idx % WEDGES) && Now() == Spun(old(Now()), idx % WEDGES)
      ensures lost == if seg.Bankrupt? then Me(old(Now())).money else 0
      ensures saved == ((seg.Bankrupt? || seg.LoseTurn?) && Me(old(Now())).joker)
    {
      hide Wheel;
      seg, saved, lost := Wheel(idx % WEDGES), false, 0;
      match seg
      case Money(amount) =>
        owes, pending := true, amount;
      case Bankrupt =>
        lost := players[turn].money;
        players := players[turn := players[turn].(money := 0)];
        saved := LoseTheTurn();
      case LoseTurn =>
        saved := LoseTheTurn();
      case Joker =>
        players := players[turn := players[turn].(joker := true)];
        owes := false;
    }

    method Occurrences(c: char) returns (n: nat)
      ensures n == Count(puzzle, c)
    {
      n := 0;
      for i := 0 to |puzzle|
        invariant n + Count(puzzle[i..], c) == Count(puzzle, c)
      {
        assert puzzle[i..][1..] == puzzle[i + 1..];
        if puzzle[i] == c { n := n + 1; }
      }
    }

    method CallLetter(text: string) returns (o: Outcome)
      requires Playing(Now())
      modifies this
      ensures (Now(), o) == Called(old(Now()), text)
    {
      hide Letter, Count;
      var l := Letter(text);
      if |l| != 1 || !IsConsonant(l[0]) {
        return Invalid;
      }
      if l[0] in guessed {
        var saved := LoseTheTurn();
        return Miss(true, saved);
      }
      guessed := guessed + {l[0]};
      var n := Occurrences(l[0]);
      if n == 0 {
        var saved := LoseTheTurn();
        return Miss(false, saved);
      }
      var won := pending * n;
      players := players[turn := players[turn].(money := players[turn].money + won)];
      owes, pending := false, 0;
      return Hit(n, won);
    }

    method BuyVowel(text: string, cost: int) returns (o: Outcome)
      requires Playing(Now())
      modifies this
      ensures (Now(), o) == Bought(old(Now()), text, cost)
    {
      hide Letter, Count;
      var l := Letter(text);
      if |l| != 1 || !IsVowel(l[0]) || l[0] in guessed {
        return Invalid;
      }
      if players[turn].money < cost {
        return Broke;
      }
      players := players[turn := players[turn].(money := players[turn].money - cost)];
      guessed := guessed + {l[0]};
      var n := Occurrences(l[0]);
      if n == 0 {
        var saved := LoseTheTurn();
        return Miss(false, saved);
      }
      return Hit(n, 0);
    }

    method Solve(attempt: string) returns (right: bool)
      requires Playing(Now())
      modifies this
      ensures Now() == Solved(old(Now()), attempt) && right == (Normal(attempt) == Normal(puzzle))
    {
      hide Normal;
      var a := Normalize(attempt);
      var b := Normalize(puzzle);
      right := a == b;
      if right {
        done := true;
      } else {
        Advance();
      }
    }

    method DropCurrent() returns (nick: string)
      requires Playing(Now())
      modifies this
      ensures Now() == Dropped(old(Now())) && nick == Me(old(Now())).nick
    {
      nick := players[turn].nick;
      players := players[..turn] + players[turn + 1..];
      turn := if |players| > 0 then turn % |players| else 0;
      owes, pending := false, 0;
    }

    // The puzzle with the letters nobody called covered.
    method Board() returns (b: string)
      ensures |b| == |puzzle|
      ensures forall i :: 0 <= i < |b| ==>
                b[i] == if 'A' <= puzzle[i] <= 'Z' && puzzle[i] !in guessed then '\U{2591}' else puzzle[i]
    {
      b := "";
      for i := 0 to |puzzle|
        invariant |b| == i
        invariant forall k :: 0 <= k < i ==> b[k] == if Shown(guessed, puzzle[k]) then puzzle[k] else HIDDEN
      {
        b := b + [if IsLetter(puzzle[i]) && puzzle[i] !in guessed then HIDDEN else puzzle[i]];
      }
    }

    // The called letters that are not there, in order.
    method WrongGuesses() returns (r: string)
      ensures forall c :: c in r <==> c in guessed && c !in puzzle
      ensures forall i, j :: 0 <= i < j < |r| ==> r[i] < r[j]
    {
      r := "";
      var todo := guessed;
      while todo != {}
        invariant todo <= guessed
        invariant forall c :: c in r ==> c in guessed && c !in todo && c !in puzzle
        invariant forall c :: c in guessed && c !in todo && c !in puzzle ==> c in r
        invariant forall i, j :: 0 <= i < j < |r| ==> r[i] < r[j]
      {
        var c :| c in todo;
        var n := Occurrences(c);
        CountZero(puzzle, c);
        if n == 0 { r := InsertChar(r, c); }
        todo := todo - {c};
      }
    }
  }

  method InsertChar(s: string, c: char) returns (r: string)
    requires c !in s && forall i, j :: 0 <= i < j < |s| ==> s[i] < s[j]
    ensures forall i, j :: 0 <= i < j < |r| ==> r[i] < r[j]
    ensures forall x :: x in r <==> x in s || x == c
  {
    var k := 0;
    while k < |s| && s[k] < c
      invariant 0 <= k <= |s| && forall i :: 0 <= i < k ==> s[i] < c
    {
      k := k + 1;
    }
    CharInserted(s, c, k);
    r := s[..k] + [c] + s[k..];
  }

  lemma CharInserted(s: string, c: char, k: nat)
    requires k <= |s|
    ensures forall x :: x in s[..k] + [c] + s[k..] <==> x in s || x == c
  {
    assert s == s[..k] + s[k..];
    forall x ensures x in s[..k] + [c] + s[k..] <==> x in s || x == c {
      assert x in s <==> x in s[..k] || x in s[k..];
    }
  }
}
