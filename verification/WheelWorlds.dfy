// The games of all channels: what each event does, and how long nobody may be awake.
module WheelWorlds {
  import opened Basics
  import opened WheelGame
  import opened WheelRuns

  // The game under the key is now s, watched by a new timer; all else is as it was.
  function Plays(w: World, key: string, s: State): World {
    var n := (if key in w.gens then w.gens[key] else 0) + 1;
    World(w.games[key := s], w.gens[key := n], w.armed + {Timer(key, n)})
  }

  // There is no game under the key any more, and its timers are stale.
  function Over(w: World, key: string): World {
    World(w.games - {key}, w.gens[key := (if key in w.gens then w.gens[key] else 0) + 1], w.armed)
  }

  // A game starts only where none runs, with everyone at the table, the first one up, no
  // money, no letters called and a timer set; it can be stopped any time.
  lemma StartAndStop(w: World, key: string, text: string, nicks: seq<string>)
    ensures Step(w, Event.Start(key, text, nicks))
            == if key in w.games then w
               else Plays(w, key, State(Upper(text), {}, seq(|nicks|, i requires 0 <= i < |nicks| => Player(nicks[i], 0, false, 0)),
                                        0, false, 0, false))
    ensures Step(w, Event.Stop(key)) == if key in w.games then Over(w, key) else w
    ensures Enabled(w, Event.Stop(key)) && (nicks != [] ==> Enabled(w, Event.Start(key, text, nicks)))
  {}

  // What the player says is a move in their game, if it is one, or else changes nothing.
  lemma SayIs(w: World, key: string, m: Move, cost: int)
    requires key in w.games ==> Playing(w.games[key])
    ensures Step(w, Say(key, m, cost))
            == if key !in w.games then w
               else match Moved(w.games[key], m, cost)
                    case Ignored => w
                    case Answered => w
                    case Won => Over(w, key)
                    case Went(s) => Plays(w, key, s)
    ensures cost >= 0 ==> Enabled(w, Say(key, m, cost))
  {
    hide Moved;
  }

  // A move out of place is answered and changes nothing; chatter is not even answered.
  lemma OutOfPlace(s: State, m: Move, cost: int)
    requires Playing(s)
    ensures Moved(s, m, cost).Answered? <==> !m.Chatter? && (s.owes <==> !m.LetterMove?)
    ensures Moved(s, m, cost).Ignored? <==> m.Chatter?
  {}

  // A timer that was set anew since fires for nothing; the one that counts is the turn
  // slept through.
  lemma FireIs(w: World, t: Timer, limit: nat)
    requires t in w.armed && (t.key in w.games ==> Playing(w.games[t.key]))
    ensures var v := World(w.games, w.gens, w.armed - {t});
            Step(w, Event.Fire(t, limit))
            == if t.key !in w.games || t.gen != (if t.key in w.gens then w.gens[t.key] else 0) then v
               else if TimedOut(w.games[t.key], limit).players == [] then Over(v, t.key)
               else Plays(v, t.key, TimedOut(w.games[t.key], limit))
  {
    hide TimedOut;
    if t.key in w.games {
      assert w.games[t.key := TimedOut(w.games[t.key], limit)] - {t.key} == w.games - {t.key};
    }
  }

  // The timers that count, firing one after another.
  function Sleeps(key: string, gen: nat, limit: nat, k: nat): seq<Event> {
    seq(k, i requires 0 <= i < k => Event.Fire(Timer(key, gen + i), limit))
  }

  lemma {:induction false} RunMore(w: World, es: seq<Event>, e: Event)
    requires Legal(w, es) && Enabled(Run(w, es), e)
    ensures Legal(w, es + [e]) && Run(w, es + [e]) == Step(Run(w, es), e)
    decreases |es|
  {
    if es == [] {
      assert ([] + [e])[1..] == [] && Legal(Step(w, e), []);
    } else {
      RunMore(Step(w, es[0]), es[1..], e);
      assert (es + [e])[1..] == es[1..] + [e];
    }
  }

  // With nobody awake, the timers of a game fire one after another until its players have
  // used up what they have left between them, and then it is over.
  lemma {:induction false} SleepsOver(w: World, key: string, limit: nat, k: nat)
    requires Orderly(w) && key in w.games && Playing(w.games[key]) && limit >= 1
    requires k <= AllLives(w.games[key].players, limit)
    ensures var es := Sleeps(key, Gen(w, key), limit, k);
            && Legal(w, es) && Orderly(Run(w, es))
            && (key in Run(w, es).games <==> k < AllLives(w.games[key].players, limit))
            && (key in Run(w, es).games ==>
                  Run(w, es).games[key] == Timeouts(w.games[key], limit, k) && Gen(Run(w, es), key) == Gen(w, key) + k)
            && forall x :: x != key ==> (x in w.games <==> x in Run(w, es).games)
                                        && (x in w.games ==> w.games[x] == Run(w, es).games[x])
  {
    hide Orderly, AllLives, TimedOut, Timeouts, Playing, Step, Enabled, Run, Legal;
    var s := w.games[key];
    SleepEnds(s, limit, k);
    if k == 0 {
      NothingYet(w, key, limit);
      LivesSome(s, limit);
    } else {
      var es := Sleeps(key, Gen(w, key), limit, k - 1);
      SleepsOver(w, key, limit, k - 1);
      SleepEnds(s, limit, k - 1);
      var v, e := Run(w, es), Event.Fire(Timer(key, Gen(w, key) + (k - 1)), limit);
      TimeoutsMore(s, limit, k);
      OneSleep(v, key, limit);
      RunMore(w, es, e);
      assert Sleeps(key, Gen(w, key), limit, k) == es + [e];
    }
  }

  // The timer that counts fires once.
  lemma OneSleep(w: World, key: string, limit: nat)
    requires Orderly(w) && key in w.games
    ensures var e := Event.Fire(Timer(key, Gen(w, key)), limit);
            && Enabled(w, e) && Orderly(Step(w, e)) && Playing(w.games[key])
            && var s, v := TimedOut(w.games[key], limit), Step(w, e);
               && (key in v.games <==> s.players != [])
               && (key in v.games ==> v.games[key] == s && Gen(v, key) == Gen(w, key) + 1)
               && forall x :: x != key ==> (x in w.games <==> x in v.games) && (x in w.games ==> w.games[x] == v.games[x])
  {
    Watched(w, key);
    hide Orderly, TimedOut, Playing;
    FireIs(w, Timer(key, Gen(w, key)), limit);
    StepOrderly(w, Event.Fire(Timer(key, Gen(w, key)), limit));
  }

  lemma NothingYet(w: World, key: string, limit: nat)
    requires key in w.games
    ensures Sleeps(key, Gen(w, key), limit, 0) == [] && Legal(w, []) && Run(w, []) == w
    ensures Timeouts(w.games[key], limit, 0) == w.games[key]
  {}

  lemma LivesSome(s: State, limit: nat)
    requires Playing(s) && limit >= 1
    ensures AllLives(s.players, limit) > 0
  {
    LivesBound(s.players, limit);
  }

  lemma Watched(w: World, key: string)
    requires Orderly(w) && key in w.games
    ensures Timer(key, Gen(w, key)) in w.armed && Playing(w.games[key])
  {}

  lemma TimeoutsMore(s: State, limit: nat, k: nat)
    requires k > 0 && Playing(Timeouts(s, limit, k - 1))
    ensures Timeouts(s, limit, k) == TimedOut(Timeouts(s, limit, k - 1), limit)
  {}
}
