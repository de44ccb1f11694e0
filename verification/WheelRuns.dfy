// The wheel games of all channels: moves, turn timers and players who sleep.
module WheelRuns {
  import opened Basics
  import opened WheelGame

  // What the player whose turn it is says, by shape.
  datatype Move =
    | SpinMove(roll: nat)
    | LetterMove(text: string)
    | BuyMove(text: string)
    | SolveMove(attempt: string)
    | PassMove
    | Chatter

  // Chatter is ignored; a move out of place gets an answer and changes nothing.
  datatype Result = Ignored | Answered | Won | Went(s: State)

  datatype Timer = Timer(key: string, gen: nat)

  // The running games, a generation per channel, and the timers that will still fire.
  datatype World = World(games: map<string, State>, gens: map<string, nat>, armed: set<Timer>)

  // --- moves --------------------------------------------------------------------------------

  // The mover is awake: their count of missed turns starts over.
  function Awake(s: State, mover: nat): State
    requires mover < |s.players|
  {
    s.(players := s.players[mover := s.players[mover].(missed := 0)])
  }

  // Only a letter counts while one is owed, and no letter does otherwise.
  function Moved(s: State, m: Move, cost: int): Result
    requires Playing(s)
  {
    match m
    case Chatter => Ignored
    case LetterMove(text) => if s.owes then Went(Awake(Called(s, text).0, s.turn)) else Answered
    case SpinMove(roll) => if s.owes then Answered else Went(Awake(Spun(s, roll % WEDGES), s.turn))
    case BuyMove(text) => if s.owes then Answered else Went(Awake(Bought(s, text, cost).0, s.turn))
    case SolveMove(attempt) =>
      if s.owes then Answered
      else if Solved(s, attempt).done then Won
      else Went(Awake(Solved(s, attempt), s.turn))
    case PassMove => if s.owes then Answered else Went(Awake(Advanced(s), s.turn))
  }

  // A turn slept through: one too many and the player is out.
  function TimedOut(s: State, limit: nat): State
    requires Playing(s)
  {
    var t := WithMe(s, Me(s).(missed := Me(s).missed + 1));
    if Me(s).missed + 1 >= limit then Dropped(t) else Advanced(t)
  }

  // --- the module ---------------------------------------------------------------------------

  function Gen(w: World, key: string): nat {
    if key in w.gens then w.gens[key] else 0
  }

  function Armed(w: World, key: string): World {
    var n := Gen(w, key) + 1;
    w.(gens := w.gens[key := n], armed := w.armed + {Timer(key, n)})
  }

  function Ended(w: World, key: string): World {
    w.(games := w.games - {key}, gens := w.gens[key := Gen(w, key) + 1])
  }

  function Begun(w: World, key: string, s: State): World {
    if key in w.games then w else Armed(w.(games := w.games[key := s]), key)
  }

  predicate InPlay(w: World, key: string) {
    key in w.games && Playing(w.games[key])
  }

  function Handled(w: World, key: string, m: Move, cost: int): World {
    if !InPlay(w, key) then w
    else
      match Moved(w.games[key], m, cost)
      case Ignored => w
      case Answered => w
      case Won => Ended(w, key)
      case Went(s) => Armed(w.(games := w.games[key := s]), key)
  }

  function Slept(w: World, key: string, limit: nat): World {
    if !InPlay(w, key) then w
    else
      var s := TimedOut(w.games[key], limit);
      if s.players == [] then Ended(w.(games := w.games[key := s]), key)
      else Armed(w.(games := w.games[key := s]), key)
  }

  // A timer of an older generation does nothing.
  function Fired(w: World, t: Timer, limit: nat): World {
    var w' := w.(armed := w.armed - {t});
    if Gen(w, t.key) != t.gen then w' else Slept(w', t.key, limit)
  }

  function Stopped(w: World, key: string): World {
    if key in w.games then Ended(w, key) else w
  }

  class Rvf {
    var games: map<string, State>
    var gens: map<string, nat>
    ghost var armed: set<Timer>

    ghost function Now(): World
      reads this
    {
      World(games, gens, armed)
    }

    constructor ()
      ensures Now() == World(map[], map[], {})
    {
      games, gens, armed := map[], map[], {};
    }

    // Start the turn clock anew; older timers go stale.
    method ArmTimer(key: string)
      modifies this`gens, this`armed
      ensures Now() == Armed(old(Now()), key)
    {
      var n := (if key in gens then gens[key] else 0) + 1;
      gens := gens[key := n];
      armed := armed + {Timer(key, n)};
    }

    method EndGame(key: string)
      modifies this`games, this`gens
      ensures Now() == Ended(old(Now()), key)
    {
      games := games - {key};
      gens := gens[key := (if key in gens then gens[key] else 0) + 1];
    }

    method Start(key: string, text: string, nicks: seq<string>) returns (ok: bool)
      requires nicks != []
      modifies this
      ensures ok == (key !in old(games))
      ensures Now() == Begun(old(Now()), key, Fresh(text, nicks))
    {
      ok := key !in games;
      if ok {
        games := games[key := Fresh(text, nicks)];
        ArmTimer(key);
      }
    }

    method MoveDone(key: string, s: State, mover: nat)
      requires mover < |s.players|
      modifies this
      ensures Now() == Armed(old(Now()).(games := old(games)[key := Awake(s, mover)]), key)
    {
      games := games[key := s.(players := s.players[mover := s.players[mover].(missed := 0)])];
      ArmTimer(key);
    }

    // True for anything shaped like a move, in place or not, and false for chatter.
    method HandleMove(key: string, m: Move, cost: int) returns (handled: bool)
      modifies this
      ensures Now() == Handled(old(Now()), key, m, cost)
      ensures handled == (InPlay(old(Now()), key) && !m.Chatter?)
    {
      hide Called, Spun, Bought, Solved, Advanced, Armed, Ended;
      if key !in games || games[key].turn >= |games[key].players| {
        return false;
      }
      var s := games[key];
      SameCrowd(s, m, cost);
      if s.owes {
        match m
        case LetterMove(text) =>
          MoveDone(key, Called(s, text).0, s.turn);
          return true;
        case _ =>
          return !m.Chatter?;
      }
      handled := true;
      match m
      case SpinMove(roll) =>
        MoveDone(key, Spun(s, roll % WEDGES), s.turn);
      case BuyMove(text) =>
        MoveDone(key, Bought(s, text, cost).0, s.turn);
      case SolveMove(attempt) =>
        var t := Solved(s, attempt);
        if t.done {
          EndGame(key);
        } else {
          MoveDone(key, t, s.turn);
        }
      case PassMove =>
        MoveDone(key, Advanced(s), s.turn);
      case LetterMove(_) =>
      case Chatter =>
        handled := false;
    }

    method TurnTimeout(key: string, limit: nat)
      modifies this
      ensures Now() == Slept(old(Now()), key, limit)
    {
      hide TimedOut;
      if key !in games || games[key].turn >= |games[key].players| {
        return;
      }
      var s := TimedOut(games[key], limit);
      games := games[key := s];
      if |s.players| == 0 {
        EndGame(key);
        return;
      }
      ArmTimer(key);
    }

    method Fire(t: Timer, limit: nat)
      modifies this
      ensures Now() == Fired(old(Now()), t, limit)
    {
      armed := armed - {t};
      if (if t.key in gens then gens[t.key] else 0) != t.gen {
        return;
      }
      TurnTimeout(t.key, limit);
    }

    method Stop(key: string)
      modifies this
      ensures Now() == Stopped(old(Now()), key)
    {
      if key in games {
        EndGame(key);
      }
    }
  }

  function Fresh(text: string, nicks: seq<string>): State {
    State(Upper(text), {}, seq(|nicks|, i requires 0 <= i < |nicks| => Player(nicks[i], 0, false, 0)), 0, false, 0, false)
  }

  // No move changes who plays.
  lemma SameCrowd(s: State, m: Move, cost: int)
    requires Playing(s)
    ensures |Advanced(s).players| == |s.players|
    ensures match m
            case LetterMove(text) => |Called(s, text).0.players| == |s.players|
            case SpinMove(roll) => |Spun(s, roll % WEDGES).players| == |s.players|
            case BuyMove(text) => |Bought(s, text, cost).0.players| == |s.players|
            case SolveMove(attempt) => |Solved(s, attempt).players| == |s.players|
            case _ => true
  {}

  // --- every run ------------------------------------------------------------------------------

  // Say is a move by the player whose turn it is; other players are not listened to.
  datatype Event =
    | Start(key: string, text: string, nicks: seq<string>)
    | Say(key: string, m: Move, cost: int)
    | Stop(key: string)
    | Fire(t: Timer, limit: nat)

  predicate Enabled(w: World, e: Event) {
    match e
    case Start(_, _, nicks) => nicks != []
    case Say(_, _, cost) => cost >= 0
    case Stop(_) => true
    case Fire(t, _) => t in w.armed
  }

  function Step(w: World, e: Event): World {
    match e
    case Start(key, text, nicks) => Begun(w, key, Fresh(text, nicks))
    case Say(key, m, cost) => Handled(w, key, m, cost)
    case Stop(key) => Stopped(w, key)
    case Fire(t, limit) => Fired(w, t, limit)
  }

  ghost predicate Legal(w: World, es: seq<Event>)
    decreases |es|
  {
    es == [] || (Enabled(w, es[0]) && Legal(Step(w, es[0]), es[1..]))
  }

  ghost function Run(w: World, es: seq<Event>): World
    decreases |es|
  {
    if es == [] then w else Run(Step(w, es[0]), es[1..])
  }

  // Every running game is sound and has exactly one timer that counts; nothing else has.
  ghost predicate Orderly(w: World) {
    && (forall key :: key in w.games ==> Sound(w.games[key]))
    && (forall key :: Timer(key, Gen(w, key)) in w.armed <==> key in w.games)
    && (forall t :: t in w.armed ==> t.gen <= Gen(w, t.key))
  }

  lemma AwakeSound(s: State, mover: nat)
    requires Sound(s) && mover < |s.players|
    ensures Sound(Awake(s, mover))
  {
    TotalUpdate(s.players, mover, s.players[mover].(missed := 0));
  }

  lemma MovedSound(s: State, m: Move, cost: int)
    requires Sound(s) && cost >= 0
    ensures Moved(s, m, cost).Went? ==> Sound(Moved(s, m, cost).s)
  {
    hide Sound, Called, Spun, Bought, Solved, Advanced;
    InRange(s);
    SameCrowd(s, m, cost);
    match m
    case LetterMove(text) =>
      CallSound(s, text);
      AwakeSound(Called(s, text).0, s.turn);
    case SpinMove(roll) =>
      SpinSound(s, roll % WEDGES);
      if !s.owes { AwakeSound(Spun(s, roll % WEDGES), s.turn); }
    case BuyMove(text) =>
      BuySound(s, text, cost);
      AwakeSound(Bought(s, text, cost).0, s.turn);
    case SolveMove(attempt) =>
      SolveSound(s, attempt);
      AwakeSound(Solved(s, attempt), s.turn);
    case PassMove =>
      LostSound(s);
      AwakeSound(Advanced(s), s.turn);
    case Chatter =>
  }

  lemma InRange(s: State)
    requires Sound(s)
    ensures Playing(s)
  {}

  lemma TimedOutSound(s: State, limit: nat)
    requires Sound(s)
    ensures TimedOut(s, limit).players == [] || Sound(TimedOut(s, limit))
  {
    hide Total, Revealed;
    var t := WithMe(s, Me(s).(missed := Me(s).missed + 1));
    MeSound(s, Me(s).(missed := Me(s).missed + 1));
    DropSound(t);
    LostSound(t);
  }

  lemma {:induction false} FreshTotal(text: string, nicks: seq<string>)
    ensures Total(Fresh(text, nicks).players) == 0
  {
    if nicks != [] {
      FreshTotal(text, nicks[..|nicks| - 1]);
      assert Fresh(text, nicks).players[..|nicks| - 1] == Fresh(text, nicks[..|nicks| - 1]).players;
    }
  }

  lemma ArmedOrderly(w: World, key: string, s: State)
    requires Orderly(w) && Sound(s)
    ensures Orderly(Armed(w.(games := w.games[key := s]), key))
  {
    hide Sound;
  }

  lemma EndedOrderly(w: World, key: string)
    requires Orderly(w)
    ensures Orderly(Ended(w, key))
  {
    hide Sound;
  }

  lemma FiredOrderly(w: World, t: Timer, limit: nat)
    requires Orderly(w) && t in w.armed
    ensures Orderly(Fired(w, t, limit))
  {
    hide Sound, TimedOut;
    var w' := w.(armed := w.armed - {t});
    if Gen(w, t.key) == t.gen {
      InRange(w.games[t.key]);
      TimedOutSound(w.games[t.key], limit);
      SleptOrderly(w, w', t, TimedOut(w.games[t.key], limit));
    }
  }

  lemma SleptOrderly(w: World, w': World, t: Timer, s: State)
    requires Orderly(w) && t in w.armed && t.gen == Gen(w, t.key) && w' == w.(armed := w.armed - {t})
    requires s.players == [] || Sound(s)
    ensures Orderly(if s.players == [] then Ended(w'.(games := w.games[t.key := s]), t.key)
                    else Armed(w'.(games := w.games[t.key := s]), t.key))
  {
    hide Sound;
  }

  lemma StepOrderly(w: World, e: Event)
    requires Orderly(w) && Enabled(w, e)
    ensures Orderly(Step(w, e))
  {
    hide Sound, Moved, Fired, Armed, Ended;
    match e
    case Start(key, text, nicks) =>
      FreshTotal(text, nicks);
      FreshSound(text, nicks);
      ArmedOrderly(w, key, Fresh(text, nicks));
    case Say(key, m, cost) =>
      if key in w.games {
        InRange(w.games[key]);
        MovedSound(w.games[key], m, cost);
        EndedOrderly(w, key);
        if Moved(w.games[key], m, cost).Went? { ArmedOrderly(w, key, Moved(w.games[key], m, cost).s); }
      }
    case Stop(key) => EndedOrderly(w, key);
    case Fire(t, limit) => FiredOrderly(w, t, limit);
  }

  lemma FreshSound(text: string, nicks: seq<string>)
    requires nicks != [] && Total(Fresh(text, nicks).players) == 0
    ensures Sound(Fresh(text, nicks))
  {}

  // In every reachable world each running game is sound, and one timer watches it.
  lemma {:induction false} RunOrderly(w: World, es: seq<Event>)
    requires Orderly(w) && Legal(w, es)
    ensures Orderly(Run(w, es))
    decreases |es|
  {
    hide Orderly;
    if es != [] {
      StepOrderly(w, es[0]);
      RunOrderly(Step(w, es[0]), es[1..]);
    }
  }

  lemma EveryGameSound(es: seq<Event>, key: string)
    requires Legal(World(map[], map[], {}), es) && key in Run(World(map[], map[], {}), es).games
    ensures var w := Run(World(map[], map[], {}), es); var s := w.games[key];
            && Playing(s) && (s.owes <==> s.pending > 0)
            && (forall i :: 0 <= i < |s.players| ==> s.players[i].money >= 0)
            && Total(s.players) <= 1000 * Revealed(s.puzzle, s.guessed)
            && Timer(key, Gen(w, key)) in w.armed
  {
    RunOrderly(World(map[], map[], {}), es);
  }

  // --- sleep ------------------------------------------------------------------------------------

  // How many timeouts a player, and a table, can take.
  function Lives(p: Player, limit: nat): nat {
    if p.missed + 1 < limit then limit - p.missed else 1
  }

  function AllLives(players: seq<Player>, limit: nat): nat {
    if players == [] then 0 else AllLives(players[..|players| - 1], limit) + Lives(players[|players| - 1], limit)
  }

  lemma {:induction false} LivesUpdate(players: seq<Player>, i: nat, p: Player, limit: nat)
    requires i < |players|
    ensures AllLives(players[i := p], limit) == AllLives(players, limit) - Lives(players[i], limit) + Lives(p, limit)
  {
    var k := |players| - 1;
    if i < k {
      LivesUpdate(players[..k], i, p, limit);
      assert players[i := p][..k] == players[..k][i := p];
    } else {
      assert players[i := p][..k] == players[..k];
    }
  }

  lemma {:induction false} LivesRemove(players: seq<Player>, i: nat, limit: nat)
    requires i < |players|
    ensures AllLives(players[..i] + players[i + 1..], limit) == AllLives(players, limit) - Lives(players[i], limit)
  {
    var k := |players| - 1;
    if i < k {
      LivesRemove(players[..k], i, limit);
      assert (players[..i] + players[i + 1..])[..k - 1] == players[..k][..i] + players[..k][i + 1..];
    } else {
      assert players[..i] + players[i + 1..] == players[..k];
    }
  }

  lemma {:induction false} LivesBound(players: seq<Player>, limit: nat)
    requires limit >= 1
    ensures |players| <= AllLives(players, limit) <= |players| * limit
  {
    if players != [] {
      LivesBound(players[..|players| - 1], limit);
      assert |players| * limit == (|players| - 1) * limit + limit;
    }
  }

  lemma NoLives(limit: nat)
    ensures AllLives([], limit) == 0
  {}

  lemma TimeoutCosts(s: State, limit: nat)
    requires Playing(s)
    ensures AllLives(TimedOut(s, limit).players, limit) == AllLives(s.players, limit) - 1
    ensures TimedOut(s, limit).players == [] || Playing(TimedOut(s, limit))
  {
    hide AllLives;
    var p := Me(s).(missed := Me(s).missed + 1);
    NoLives(limit);
    LivesUpdate(s.players, s.turn, p, limit);
    LivesRemove(WithMe(s, p).players, s.turn, limit);
  }

  function Timeouts(s: State, limit: nat, k: nat): State {
    if k == 0 then s
    else
      var t := Timeouts(s, limit, k - 1);
      if Playing(t) then TimedOut(t, limit) else t
  }

  // With nobody awake the game ends after exactly as many timeouts as its players have
  // left between them, at most the limit for each.
  lemma {:induction false} SleepEnds(s: State, limit: nat, k: nat)
    requires Playing(s) && limit >= 1
    ensures Timeouts(s, limit, k).players == [] <==> k >= AllLives(s.players, limit)
    ensures AllLives(s.players, limit) <= |s.players| * limit
    ensures Timeouts(s, limit, k).players == [] || Playing(Timeouts(s, limit, k))
    ensures k <= AllLives(s.players, limit) ==>
              AllLives(Timeouts(s, limit, k).players, limit) == AllLives(s.players, limit) - k
  {
    hide AllLives, TimedOut;
    LivesBound(s.players, limit);
    if k > 0 {
      SleepEnds(s, limit, k - 1);
      var t := Timeouts(s, limit, k - 1);
      LivesBound(t.players, limit);
      if t.players != [] {
        TimeoutCosts(t, limit);
        LivesBound(TimedOut(t, limit).players, limit);
      }
    }
  }
}
