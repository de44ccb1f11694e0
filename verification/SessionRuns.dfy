// The session follows the server: after a whole NAMES burst, the tracked members of a
// channel are the server's, through everything that happens there.
module SessionRuns {
  import opened Basics
  import opened Session

  // The bot's nick, and for each channel who is in it.
  datatype Server = Server(bot: string, rooms: map<string, map<string, string>>)

  datatype Happening =
    | Join(nick: string, ch: string)
    | Part(nick: string, ch: string)
    | Kick(op: string, ch: string, target: string)
    | Quit(nick: string)
    | Nick(nick: string, to: string)
    | Topic(op: string, ch: string, text: string)
    | Names(ch: string, heads: seq<seq<string>>, texts: seq<string>)

  function Room(v: Server, ch: string): map<string, string> {
    if ch in v.rooms then v.rooms[ch] else map[]
  }

  predicate Sits(v: Server, ch: string, nick: string) {
    Lower(nick) in Room(v, ch)
  }

  predicate Shares(v: Server, nick: string) {
    exists ch :: ch in v.rooms && Sits(v, ch, nick) && Sits(v, ch, v.bot)
  }

  // A nick that folds like the bot's is the bot's.
  predicate Named(v: Server, nick: string) {
    Lower(nick) == Lower(v.bot) ==> nick == v.bot
  }

  // The NAMES lines name exactly those in the channel.
  ghost predicate Lists(names: seq<string>, room: map<string, string>) {
    && (forall w :: w in names ==> Bare(w) != "" && Lower(Bare(w)) in room && room[Lower(Bare(w))] == Bare(w))
    && (forall k :: k in room ==> exists w :: w in names && Lower(Bare(w)) == k)
  }

  function AllFields(texts: seq<string>): seq<string> {
    if texts == [] then [] else AllFields(texts[..|texts| - 1]) + Fields(texts[|texts| - 1])
  }

  ghost predicate Possible(v: Server, h: Happening) {
    match h
    case Join(nick, ch) => Named(v, nick)
    case Part(nick, ch) => Sits(v, ch, nick) && Named(v, nick)
    case Kick(_, ch, target) => Sits(v, ch, target)
    case Quit(nick) => Lower(nick) != Lower(v.bot)
    case Nick(nick, to) => to != "" && Named(v, nick) && (nick != v.bot ==> Lower(to) != Lower(v.bot))
    case Topic(_, _, _) => true
    case Names(ch, heads, texts) =>
      |heads| == |texts| && (forall h :: h in heads ==> |h| >= 1) && Lists(AllFields(texts), Room(v, ch))
  }

  function After(v: Server, h: Happening): Server {
    match h
    case Join(nick, ch) => v.(rooms := v.rooms[ch := Added(Room(v, ch), nick)])
    case Part(nick, ch) => v.(rooms := v.rooms[ch := Room(v, ch) - {Lower(nick)}])
    case Kick(_, ch, target) => v.(rooms := v.rooms[ch := Room(v, ch) - {Lower(target)}])
    case Quit(nick) => v.(rooms := map ch | ch in v.rooms :: v.rooms[ch] - {Lower(nick)})
    case Nick(nick, to) =>
      Server(if nick == v.bot then to else v.bot, map ch | ch in v.rooms :: Renick(v.rooms[ch], nick, to))
    case Topic(_, _, _) => v
    case Names(_, _, _) => v
  }

  function Renick(room: map<string, string>, nick: string, to: string): map<string, string> {
    if Lower(nick) in room then Added(room - {Lower(nick)}, to) else room
  }

  function Burst(ch: string, heads: seq<seq<string>>, texts: seq<string>): seq<Line>
    requires |heads| == |texts|
  {
    seq(|texts|, i requires 0 <= i < |texts| => Line(Some("server"), "RPL_NAMREPLY", heads[i] + [ch, texts[i]]))
  }

  // What the bot gets to see of it.
  function Shown(v: Server, h: Happening): seq<Line>
    requires h.Names? ==> |h.heads| == |h.texts|
  {
    match h
    case Join(nick, ch) => if nick == v.bot || Sits(v, ch, v.bot) then [Line(Some(nick), "JOIN", [ch])] else []
    case Part(nick, ch) => if Sits(v, ch, v.bot) then [Line(Some(nick), "PART", [ch])] else []
    case Kick(op, ch, target) => if Sits(v, ch, v.bot) then [Line(Some(op), "KICK", [ch, target])] else []
    case Quit(nick) => if Shares(v, nick) then [Line(Some(nick), "QUIT", [])] else []
    case Nick(nick, to) => if nick == v.bot || Shares(v, nick) then [Line(Some(nick), "NICK", [to])] else []
    case Topic(op, ch, text) => if Sits(v, ch, v.bot) then [Line(Some(op), "TOPIC", [ch, text])] else []
    case Names(ch, heads, texts) => Burst(ch, heads, texts) + [Line(Some("server"), "RPL_ENDOFNAMES", ["me", ch])]
  }

  // The channels whose membership is settled: the bot has been in them since their last
  // whole burst.
  function Settled(v: Server, s: State, settled: set<string>, h: Happening): set<string> {
    match h
    case Join(nick, ch) => if nick == v.bot then settled - {ch} else settled
    case Part(nick, ch) => if nick == v.bot then settled - {ch} else settled
    case Kick(_, ch, target) => if Lower(target) == Lower(v.bot) then settled - {ch} else settled
    case Names(ch, _, _) => if Sits(v, ch, v.bot) && ch in s.channels then settled + {ch} else settled
    case _ => settled
  }

  ghost predicate Follows(v: Server, s: State, settled: set<string>) {
    && s.nick == v.bot
    && (forall ch :: ch in s.channels ==> s.channels[ch].pending == map[])
    && (forall ch :: ch in settled ==> ch in s.channels && Sits(v, ch, v.bot) && s.channels[ch].members == Room(v, ch))
  }

  lemma OneLine(s: State, line: Line)
    ensures HandleAll(s, [line]) == Handle(s, line)
  {
    assert [line][1..] == [];
    assert HandleAll(Handle(s, line), []) == Handle(s, line);
  }

  lemma NoLine(s: State)
    ensures HandleAll(s, []) == s
  {}

  lemma JoinLine(s: State, nick: string, ch: string)
    ensures Handle(s, Line(Some(nick), "JOIN", [ch])) == AfterJoin(s.(lastNick := nick), nick, [ch])
  {}

  lemma JoinFollows(v: Server, s: State, settled: set<string>, h: Happening)
    requires Follows(v, s, settled) && Possible(v, h) && h.Join?
    ensures Follows(After(v, h), HandleAll(s, Shown(v, h)), Settled(v, s, settled, h))
  {
    hide Lower, HandleAll, Handle;
    NoLine(s);
    JoinLine(s, h.nick, h.ch);
    if h.nick == v.bot || Sits(v, h.ch, v.bot) { OneLine(s, Line(Some(h.nick), "JOIN", [h.ch])); }
    if h.nick != v.bot { OthersJoin(v, s, h.nick, h.ch); }
  }

  // Whoever joins, the bot sits where it sat.
  lemma OthersJoin(v: Server, s: State, nick: string, ch: string)
    requires Named(v, nick) && nick != v.bot
    ensures forall c :: Sits(After(v, Join(nick, ch)), c, v.bot) <==> Sits(v, c, v.bot)
  {
    hide Lower;
  }

  lemma PartLine(s: State, nick: string, ch: string)
    ensures Handle(s, Line(Some(nick), "PART", [ch])) == AfterPart(s.(lastNick := nick), nick, [ch])
  {}

  lemma PartFollows(v: Server, s: State, settled: set<string>, h: Happening)
    requires Follows(v, s, settled) && Possible(v, h) && h.Part?
    ensures Follows(After(v, h), HandleAll(s, Shown(v, h)), Settled(v, s, settled, h))
  {
    hide Lower, HandleAll, Handle;
    NoLine(s);
    PartLine(s, h.nick, h.ch);
    if Shown(v, h) != [] { OneLine(s, Shown(v, h)[0]); }
  }

  lemma KickLine(s: State, nick: string, ch: string, target: string)
    ensures Handle(s, Line(Some(nick), "KICK", [ch, target])) == AfterKick(s.(lastNick := nick), [ch, target])
  {}

  lemma KickFollows(v: Server, s: State, settled: set<string>, h: Happening)
    requires Follows(v, s, settled) && Possible(v, h) && h.Kick?
    ensures Follows(After(v, h), HandleAll(s, Shown(v, h)), Settled(v, s, settled, h))
  {
    hide Lower, HandleAll, Handle;
    NoLine(s);
    KickLine(s, h.op, h.ch, h.target);
    if Shown(v, h) != [] { OneLine(s, Shown(v, h)[0]); }
  }

  lemma TopicFollows(v: Server, s: State, settled: set<string>, h: Happening)
    requires Follows(v, s, settled) && Possible(v, h) && h.Topic?
    ensures Follows(After(v, h), HandleAll(s, Shown(v, h)), Settled(v, s, settled, h))
  {
    hide Lower, HandleAll;
    NoLine(s);
    if Shown(v, h) != [] { OneLine(s, Shown(v, h)[0]); }
  }

  lemma QuitLine(s: State, nick: string)
    ensures Handle(s, Line(Some(nick), "QUIT", [])) == AfterQuit(s.(lastNick := nick), nick)
  {}

  lemma QuitFollows(v: Server, s: State, settled: set<string>, h: Happening)
    requires Follows(v, s, settled) && Possible(v, h) && h.Quit?
    ensures Follows(After(v, h), HandleAll(s, Shown(v, h)), Settled(v, s, settled, h))
  {
    hide Lower, HandleAll, Handle;
    NoLine(s);
    QuitLine(s, h.nick);
    if Shown(v, h) != [] { OneLine(s, Shown(v, h)[0]); }
  }

  lemma NickLine(s: State, nick: string, to: string)
    ensures Handle(s, Line(Some(nick), "NICK", [to])) == AfterNick(s.(lastNick := nick), nick, [to])
  {}

  lemma NickFollows(v: Server, s: State, settled: set<string>, h: Happening)
    requires Follows(v, s, settled) && Possible(v, h) && h.Nick?
    ensures Follows(After(v, h), HandleAll(s, Shown(v, h)), Settled(v, s, settled, h))
  {
    hide Lower, HandleAll, Handle;
    NoLine(s);
    NickLine(s, h.nick, h.to);
    if Shown(v, h) != [] { OneLine(s, Shown(v, h)[0]); }
  }

  // --- a burst of names ---------------------------------------------------------------

  lemma {:induction false} HandleMore(s: State, a: seq<Line>, b: seq<Line>)
    ensures HandleAll(s, a + b) == HandleAll(HandleAll(s, a), b)
    decreases |a|
  {
    if a == [] {
      assert a + b == b;
    } else {
      HandleMore(Handle(s, a[0]), a[1..], b);
      assert (a + b)[1..] == a[1..] + b;
    }
  }

  lemma {:induction false} AddedMore(m: map<string, string>, a: seq<string>, b: seq<string>)
    ensures AddedAll(m, a + b) == AddedAll(AddedAll(m, a), b)
  {
    if b == [] {
      assert a + b == a;
    } else {
      AddedMore(m, a, b[..|b| - 1]);
      assert (a + b)[..|a + b| - 1] == a + b[..|b| - 1];
    }
  }

  // The lines of a burst add their names to what is pending, and touch nothing else.
  lemma {:induction false} BurstAdds(s: State, ch: string, heads: seq<seq<string>>, texts: seq<string>)
    requires |heads| == |texts| && forall h :: h in heads ==> |h| >= 1
    ensures var s' := HandleAll(s, Burst(ch, heads, texts));
            s' == s.(lastNick := s'.lastNick,
                     channels := if ch !in s.channels then s.channels
                                 else s.channels[ch := Adding(s.channels[ch], AllFields(texts))])
  {
    hide Fields, AddedAll, Lower;
    if texts == [] {
      NoLine(s);
      if ch in s.channels { NothingAdded(s, ch); }
      assert Burst(ch, heads, texts) == [];
    } else {
      var k := |texts| - 1;
      var line := Line(Some("server"), "RPL_NAMREPLY", heads[k] + [ch, texts[k]]);
      BurstAdds(s, ch, heads[..k], texts[..k]);
      assert Burst(ch, heads, texts) == Burst(ch, heads[..k], texts[..k]) + [line];
      var m := HandleAll(s, Burst(ch, heads[..k], texts[..k]));
      HandleMore(s, Burst(ch, heads[..k], texts[..k]), [line]);
      OneLine(m, line);
      assert heads[k] in heads;
      OneReply(m, line, ch);
      if ch in s.channels { AddedMore(s.channels[ch].pending, AllFields(texts[..k]), Fields(texts[k])); }
    }
  }

  function Adding(c: Channel, names: seq<string>): Channel {
    c.(pending := AddedAll(c.pending, names))
  }

  lemma NothingAdded(s: State, ch: string)
    requires ch in s.channels
    ensures s.channels[ch := Adding(s.channels[ch], [])] == s.channels
  {}

  lemma OneReply(s: State, line: Line, ch: string)
    requires line.name == "RPL_NAMREPLY" && line.nick == Some("server")
    requires |line.p| >= 3 && line.p[|line.p| - 2] == ch
    ensures Handle(s, line)
            == s.(lastNick := "server",
                  channels := if ch !in s.channels then s.channels
                              else s.channels[ch := Adding(s.channels[ch], Fields(line.p[|line.p| - 1]))])
  {}

  // Name w is the one that entry k of the member table comes from.
  ghost predicate Gives(w: string, m: map<string, string>, k: string) {
    k in m && Lower(Bare(w)) == k && m[k] == Bare(w)
  }

  lemma AddedLast(init: seq<string>, last: string)
    requires Bare(last) != ""
    ensures AddedAll(map[], init + [last]) == AddedAll(map[], init)[Lower(Bare(last)) := Bare(last)]
  {
    hide Lower, Bare;
    assert (init + [last])[..|init|] == init;
  }

  // Each name goes in under its folded form.
  lemma {:induction false} AddedNames(names: seq<string>)
    requires forall w :: w in names ==> Bare(w) != ""
    ensures forall w :: w in names ==> Lower(Bare(w)) in AddedAll(map[], names)
    ensures forall k :: k in AddedAll(map[], names) ==> exists w :: w in names && Gives(w, AddedAll(map[], names), k)
  {
    hide Lower, Bare, AddedAll;
    if names == [] {
      NoNames();
    } else {
      var init, last := names[..|names| - 1], names[|names| - 1];
      assert names == init + [last] && last in names;
      forall w | w in init ensures Bare(w) != "" { assert w in names; }
      AddedNames(init);
      AddedLast(init, last);
      var m, m' := AddedAll(map[], init), AddedAll(map[], names);
      forall k | k in m' ensures exists w :: w in names && Gives(w, m', k) {
        if k == Lower(Bare(last)) {
          assert Gives(last, m', k);
        } else {
          var w :| w in init && Gives(w, m, k);
          assert w in names && Gives(w, m', k);
        }
      }
      forall w | w in names ensures Lower(Bare(w)) in m' {
        assert w in init || w == last;
      }
    }
  }

  lemma NoNames()
    ensures AddedAll(map[], []) == map[]
  {}

  lemma ListsAll(names: seq<string>, room: map<string, string>)
    requires Lists(names, room)
    ensures AddedAll(map[], names) == room
  {
    hide Lower, Bare;
    AddedNames(names);
    var m := AddedAll(map[], names);
    forall k | k in room ensures k in m {
      var w :| w in names && Lower(Bare(w)) == k;
    }
    forall k | k in m ensures k in room && room[k] == m[k] {
      var w :| w in names && Gives(w, m, k);
    }
  }

  lemma NamesFollows(v: Server, s: State, settled: set<string>, h: Happening)
    requires Follows(v, s, settled) && Possible(v, h) && h.Names?
    ensures Follows(After(v, h), HandleAll(s, Shown(v, h)), Settled(v, s, settled, h))
  {
    hide Lower, Lists, AddedAll;
    var last := Line(Some("server"), "RPL_ENDOFNAMES", ["me", h.ch]);
    BurstAdds(s, h.ch, h.heads, h.texts);
    HandleMore(s, Burst(h.ch, h.heads, h.texts), [last]);
    OneLine(HandleAll(s, Burst(h.ch, h.heads, h.texts)), last);
    ListsAll(AllFields(h.texts), Room(v, h.ch));
    EndSettles(HandleAll(s, Burst(h.ch, h.heads, h.texts)), h.ch);
  }

  lemma EndSettles(s: State, ch: string)
    ensures Handle(s, Line(Some("server"), "RPL_ENDOFNAMES", ["me", ch]))
            == s.(lastNick := "server",
                  channels := if ch !in s.channels then s.channels
                              else s.channels[ch := s.channels[ch].(members := s.channels[ch].pending, pending := map[])])
  {}

  // --- whole runs -----------------------------------------------------------------------

  // The session may also ask for channels; what the server then sends are happenings.
  datatype Event = Happens(h: Happening) | Ask(chs: seq<string>)

  datatype World = World(v: Server, s: State, settled: set<string>)

  ghost predicate Enabled(w: World, e: Event) {
    e.Happens? ==> Possible(w.v, e.h)
  }

  ghost function Step(w: World, e: Event): World
    requires Enabled(w, e)
  {
    match e
    case Happens(h) => World(After(w.v, h), HandleAll(w.s, Shown(w.v, h)), Settled(w.v, w.s, w.settled, h))
    case Ask(chs) => w.(s := Marked(w.s, chs))
  }

  ghost predicate Legal(w: World, es: seq<Event>)
    decreases |es|
  {
    es == [] || (Enabled(w, es[0]) && Legal(Step(w, es[0]), es[1..]))
  }

  ghost function Run(w: World, es: seq<Event>): World
    requires Legal(w, es)
    decreases |es|
  {
    if es == [] then w else Run(Step(w, es[0]), es[1..])
  }

  lemma {:induction false} AskFollows(v: Server, s: State, settled: set<string>, chs: seq<string>)
    requires Follows(v, s, settled)
    ensures Follows(v, Marked(s, chs), settled)
  {
    if chs != [] { AskFollows(v, s, settled, chs[..|chs| - 1]); }
  }

  lemma StepFollows(w: World, e: Event)
    requires Follows(w.v, w.s, w.settled) && Enabled(w, e)
    ensures Follows(Step(w, e).v, Step(w, e).s, Step(w, e).settled)
  {
    hide Follows, HandleAll, Shown, After, Settled, Possible;
    match e
    case Ask(chs) => AskFollows(w.v, w.s, w.settled, chs);
    case Happens(h) =>
      match h
      case Join(_, _) => JoinFollows(w.v, w.s, w.settled, h);
      case Part(_, _) => PartFollows(w.v, w.s, w.settled, h);
      case Kick(_, _, _) => KickFollows(w.v, w.s, w.settled, h);
      case Quit(_) => QuitFollows(w.v, w.s, w.settled, h);
      case Nick(_, _) => NickFollows(w.v, w.s, w.settled, h);
      case Topic(_, _, _) => TopicFollows(w.v, w.s, w.settled, h);
      case Names(_, _, _) => NamesFollows(w.v, w.s, w.settled, h);
  }

  // From any server, and a session just started on it, tracked members of every settled
  // channel are the server's.
  lemma {:induction false} RunFollows(w: World, es: seq<Event>)
    requires Follows(w.v, w.s, w.settled) && Legal(w, es)
    ensures Follows(Run(w, es).v, Run(w, es).s, Run(w, es).settled)
    decreases |es|
  {
    hide Follows;
    if es != [] {
      StepFollows(w, es[0]);
      RunFollows(Step(w, es[0]), es[1..]);
    }
  }

  lemma MembersAreTheServers(v: Server, es: seq<Event>, ch: string)
    requires Legal(World(v, State(v.bot, "", false, map[]), {}), es)
    requires ch in Run(World(v, State(v.bot, "", false, map[]), {}), es).settled
    ensures var w := Run(World(v, State(v.bot, "", false, map[]), {}), es);
            && ch in w.s.channels && ch in w.v.rooms && w.s.channels[ch].members == w.v.rooms[ch]
            && Lower(w.v.bot) in w.v.rooms[ch]
  {
    RunFollows(World(v, State(v.bot, "", false, map[]), {}), es);
  }

  // The bot joins the channel anew, leaves it or is kicked from it.
  ghost predicate Unsettles(w: World, e: Event, ch: string) {
    e.Happens? && match e.h
                  case Join(nick, c) => nick == w.v.bot && c == ch
                  case Part(nick, c) => nick == w.v.bot && c == ch
                  case Kick(_, c, target) => Lower(target) == Lower(w.v.bot) && c == ch
                  case _ => false
  }

  // A whole burst for a channel the bot is in and tracks.
  ghost predicate Settles(w: World, e: Event, ch: string) {
    e.Happens? && e.h.Names? && e.h.ch == ch && Sits(w.v, ch, w.v.bot) && ch in w.s.channels
  }

  lemma StaysSettled(w: World, e: Event, ch: string)
    requires Enabled(w, e)
    ensures ch in Step(w, e).settled <==> Settles(w, e, ch) || (ch in w.settled && !Unsettles(w, e, ch))
  {
    hide HandleAll, Shown, After, Possible, Marked;
  }

  ghost predicate Undisturbed(w: World, es: seq<Event>, ch: string)
    requires Legal(w, es)
    decreases |es|
  {
    es == [] || (!Unsettles(w, es[0], ch) && Undisturbed(Step(w, es[0]), es[1..], ch))
  }

  // Some whole burst that nothing disturbs afterwards.
  ghost predicate LastBurst(w: World, es: seq<Event>, ch: string)
    requires Legal(w, es)
    decreases |es|
  {
    es != [] && var w' := Step(w, es[0]);
                || (Settles(w, es[0], ch) && Undisturbed(w', es[1..], ch))
                || LastBurst(w', es[1..], ch)
  }

  lemma {:induction false} SettledExactly(w: World, es: seq<Event>, ch: string)
    requires Legal(w, es)
    ensures ch in Run(w, es).settled <==> LastBurst(w, es, ch) || (ch in w.settled && Undisturbed(w, es, ch))
    decreases |es|
  {
    hide Step, Settles, Unsettles, Enabled;
    if es != [] {
      StaysSettled(w, es[0], ch);
      SettledExactly(Step(w, es[0]), es[1..], ch);
    }
  }

  // Over any run of a fresh session: a whole burst for a channel the bot is in and tracks,
  // with no own join, part or kick of that channel after it, leaves the tracked members the
  // server's, whatever else happens.
  lemma MembersAfterBurst(v: Server, es: seq<Event>, ch: string)
    requires Legal(World(v, State(v.bot, "", false, map[]), {}), es)
    requires LastBurst(World(v, State(v.bot, "", false, map[]), {}), es, ch)
    ensures var w := Run(World(v, State(v.bot, "", false, map[]), {}), es);
            && ch in w.s.channels && ch in w.v.rooms && w.s.channels[ch].members == w.v.rooms[ch]
            && Lower(w.v.bot) in w.v.rooms[ch]
  {
    hide Run, LastBurst, Legal;
    SettledExactly(World(v, State(v.bot, "", false, map[]), {}), es, ch);
    MembersAreTheServers(v, es, ch);
  }
}
