// Whose turn it is: what each way of losing a turn, or keeping it, does to the round.
module WheelTurns {
  import opened Basics
  import opened WheelGame
  import opened WheelRuns
  import opened WheelAnswers

  // The player up is the same but for p; the next one round the table is up, with no letter
  // owed and nothing pending.
  function NextUp(s: State, p: Player): State
    requires Playing(s)
  {
    State(s.puzzle, s.guessed, s.players[s.turn := p], (s.turn + 1) % |s.players|, false, 0, s.done)
  }

  // The player up is the same but for p, and stays up.
  function StillUp(s: State, p: Player): State
    requires Playing(s)
  {
    State(s.puzzle, s.guessed, s.players[s.turn := p], s.turn, false, 0, s.done)
  }

  // A lost turn passes on, unless there is a joker to spend.
  function Costs(s: State, p: Player): State
    requires Playing(s)
  {
    if p.joker then StillUp(s, p.(joker := false)) else NextUp(s, p)
  }

  lemma PassPasses(s: State, cost: int)
    requires Playing(s) && !s.owes
    ensures Moved(s, PassMove, cost) == Went(NextUp(s, s.players[s.turn].(missed := 0)))
  {}

  // A wrong solution passes the turn even with a joker; a right one ends the game.
  lemma SolutionTurns(s: State, attempt: string, cost: int)
    requires Playing(s) && !s.owes && !s.done
    ensures Moved(s, SolveMove(attempt), cost)
            == if Normal(attempt) == Normal(s.puzzle) then Won else Went(NextUp(s, s.players[s.turn].(missed := 0)))
  {
    hide Normal;
  }

  // The last two wedges but one take the turn, the first of them all the money too; the
  // last one is a joker; every other wedge leaves a letter owed.
  lemma SpinTurns(s: State, roll: nat, cost: int)
    requires Playing(s) && !s.owes
    ensures var me, i := s.players[s.turn].(missed := 0), roll % 24;
            Moved(s, SpinMove(roll), cost)
            == Went(if i == 21 then Costs(s, me.(money := 0))
                    else if i == 22 then Costs(s, me)
                    else if i == 23 then s.(players := s.players[s.turn := me.(joker := true)], owes := false)
                    else s.(players := s.players[s.turn := me], owes := true, pending := Prize(i)))
  {}

  // What the wedges that pay offer, in order round the wheel.
  function Prize(i: nat): int
    requires i < 21
  {
    [50, 150, 200, 200, 200, 300, 350, 400, 400, 400, 450, 450, 550, 600, 600, 600, 700, 750, 800, 800, 1000][i]
  }

  // A letter that was called before or is not there costs the turn; one that is there pays
  // the pending amount for each place it stands at; anything else costs nothing.
  lemma LetterTurns(s: State, c: char, cost: int)
    requires Playing(s) && s.owes && 'A' <= c <= 'Z'
    ensures var me, t := s.players[s.turn].(missed := 0), s.(guessed := s.guessed + {c});
            Moved(s, LetterMove([c]), cost)
            == Went(if c in "AEIOU" then s.(players := s.players[s.turn := me])
                    else if c in s.guessed then Costs(s, me)
                    else if c !in s.puzzle then Costs(t, me)
                    else StillUp(t, me.(money := me.money + s.pending * Count(s.puzzle, c))))
  {
    hide Count, Letter, IsVowel, Upper, Trim;
    LetterOf(c);
    CountZero(s.puzzle, c);
    assert s.guessed + {c} == if c in s.guessed then s.guessed else s.guessed + {c};
  }

  // What the players are told: how often the letter is there and what that pays, or whether
  // it was called before and a joker saved the turn.
  lemma LetterTold(s: State, c: char)
    requires Playing(s) && 'A' <= c <= 'Z'
    ensures Called(s, [c]).1 == if c in "AEIOU" then Invalid
                                else if c in s.guessed then Miss(true, s.players[s.turn].joker)
                                else if c !in s.puzzle then Miss(false, s.players[s.turn].joker)
                                else Hit(Count(s.puzzle, c), s.pending * Count(s.puzzle, c))
  {
    hide Count, Letter, IsVowel;
    LetterOf(c);
    CountZero(s.puzzle, c);
  }

  lemma VowelTold(s: State, c: char, cost: int)
    requires Playing(s) && 'A' <= c <= 'Z'
    ensures Bought(s, [c], cost).1 == if c !in "AEIOU" || c in s.guessed then Invalid
                                      else if s.players[s.turn].money < cost then Broke
                                      else if c !in s.puzzle then Miss(false, s.players[s.turn].joker)
                                      else Hit(Count(s.puzzle, c), 0)
  {
    hide Count, Letter, IsVowel;
    LetterOf(c);
    CountZero(s.puzzle, c);
  }

  // Anything but one letter is no call at all.
  lemma NoLetter(s: State, text: string, cost: int)
    requires Playing(s) && s.owes && (|Letter(text)| != 1 || !('A' <= Letter(text)[0] <= 'Z'))
    ensures Moved(s, LetterMove(text), cost) == Went(s.(players := s.players[s.turn := s.players[s.turn].(missed := 0)]))
  {}

  // A vowel that is not there costs its price and the turn.
  lemma VowelTurns(s: State, c: char, cost: int)
    requires Playing(s) && !s.owes && 'A' <= c <= 'Z'
    ensures var me, t := s.players[s.turn].(missed := 0), s.(guessed := s.guessed + {c});
            Moved(s, BuyMove([c]), cost)
            == Went(if c !in "AEIOU" || c in s.guessed || me.money < cost then s.(players := s.players[s.turn := me])
                    else if c !in s.puzzle then Costs(t, me.(money := me.money - cost))
                    else t.(players := s.players[s.turn := me.(money := me.money - cost)]))
  {
    hide Count, Letter, IsVowel, Upper, Trim;
    LetterOf(c);
    CountZero(s.puzzle, c);
  }

  // A turn slept through below the limit passes on; at the limit the player is out, and the
  // one after them is up.
  lemma SleepTurns(s: State, limit: nat)
    requires Playing(s)
    ensures var me, n := s.players[s.turn], |s.players|;
            TimedOut(s, limit)
            == if me.missed + 1 < limit then NextUp(s, me.(missed := me.missed + 1))
               else State(s.puzzle, s.guessed, s.players[..s.turn] + s.players[s.turn + 1..],
                          if s.turn + 1 == n then 0 else s.turn, false, 0, s.done)
  {
    hide Dropped, Advanced;
    var me := s.players[s.turn];
    var t := s.(players := s.players[s.turn := me.(missed := me.missed + 1)]);
    assert TimedOut(s, limit) == if me.missed + 1 >= limit then Dropped(t) else Advanced(t);
    DroppedIs(t);
    AdvancedIs(t);
    assert t.players[..s.turn] + t.players[s.turn + 1..] == s.players[..s.turn] + s.players[s.turn + 1..];
  }

  lemma DroppedIs(s: State)
    requires Playing(s)
    ensures Dropped(s) == State(s.puzzle, s.guessed, s.players[..s.turn] + s.players[s.turn + 1..],
                                if s.turn + 1 == |s.players| then 0 else s.turn, false, 0, s.done)
  {
    assert |s.players[..s.turn] + s.players[s.turn + 1..]| == |s.players| - 1;
  }

  lemma AdvancedIs(s: State)
    requires Playing(s)
    ensures Advanced(s) == State(s.puzzle, s.guessed, s.players, (s.turn + 1) % |s.players|, false, 0, s.done)
  {}

  // The state after so many passes, or turns slept through below the limit, in a row.
  function Passed(s: State, passes: seq<bool>, limit: nat, cost: int): State
    requires Playing(s)
  {
    if passes == [] then s
    else
      var t := Passed(s, passes[..|passes| - 1], limit, cost);
      if !Playing(t) || t.owes then t
      else if passes[|passes| - 1] then
        match Moved(t, PassMove, cost)
        case Went(u) => u
        case _ => t
      else TimedOut(t, limit)
  }

  // However passes and sleeps mix, the turn goes round the table, one player each.
  lemma {:induction false} GoesRound(s: State, passes: seq<bool>, limit: nat, cost: int)
    requires Playing(s) && !s.owes && forall i :: 0 <= i < |s.players| ==> s.players[i].missed + |passes| < limit
    ensures var t := Passed(s, passes, limit, cost);
            && t.turn == (s.turn + |passes|) % |s.players| && |t.players| == |s.players| && Playing(t) && !t.owes
            && forall i :: 0 <= i < |t.players| ==> t.players[i].missed <= s.players[i].missed + |passes|
  {
    if passes != [] {
      var init := passes[..|passes| - 1];
      GoesRound(s, init, limit, cost);
      hide Moved, TimedOut;
      var t := Passed(s, init, limit, cost);
      PassPasses(t, cost);
      SleepTurns(t, limit);
      Round(s.turn + |init|, |s.players|);
    }
  }

  function Rounds(q: nat, n: nat): nat {
    if q == 0 then 0 else Rounds(q - 1, n) + n
  }

  lemma {:induction false} RoundsMore(q: nat, q': nat, n: nat)
    requires q < q'
    ensures Rounds(q, n) + n <= Rounds(q', n)
  {
    if q + 1 < q' { RoundsMore(q, q' - 1, n); }
  }

  lemma {:induction false} RoundsAre(q: nat, n: nat)
    ensures Rounds(q, n) == q * n
  {
    if q > 0 {
      RoundsAre(q - 1, n);
      assert q * n == (q - 1) * n + n;
    }
  }

  // So many whole rounds and a place further on is that place.
  lemma PlaceIs(x: nat, n: nat, q: nat, r: nat)
    requires r < n && x == Rounds(q, n) + r
    ensures x % n == r
  {
    RoundsAre(x / n, n);
    assert x == x / n * n + x % n;
    if x / n < q { RoundsMore(x / n, q, n); } else if q < x / n { RoundsMore(q, x / n, n); }
  }

  lemma Round(a: nat, n: nat)
    requires n > 0
    ensures (a % n + 1) % n == (a + 1) % n
  {
    var q, r := a / n, a % n;
    RoundsAre(q, n);
    assert a == q * n + r;
    if r + 1 < n {
      PlaceIs(r + 1, n, 0, r + 1);
      PlaceIs(a + 1, n, q, r + 1);
    } else {
      PlaceIs(n, n, 1, 0);
      PlaceIs(a + 1, n, q + 1, 0);
    }
  }
}
