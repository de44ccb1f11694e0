// What single lines do to the session, said in full, and one run from start to finish.
module SessionLaws {
  import opened Basics
  import opened Session
  import opened SessionRuns

  // --- names ----------------------------------------------------------------------------

  // Any status marks in front of a nick go, and nothing else does.
  lemma {:induction false} BareIs(marks: string, nick: string)
    requires forall i :: 0 <= i < |marks| ==> marks[i] in "~&@%+"
    requires nick == "" || nick[0] !in "~&@%+"
    ensures Bare(marks + nick) == nick
  {
    if marks == "" {
      assert marks + nick == nick;
    } else {
      BareIs(marks[1..], nick);
      assert (marks + nick)[1..] == marks[1..] + nick;
    }
  }

  // --- joining and registering ------------------------------------------------------------

  // Every channel asked for is tracked, with no members if it was not before.
  lemma {:induction false} MarkedIs(s: State, chs: seq<string>)
    ensures Marked(s, chs) == State(s.nick, s.lastNick, s.welcomed, Marked(s, chs).channels)
    ensures Marked(s, chs).channels.Keys == s.channels.Keys + set c | c in chs
    ensures forall c :: c in Marked(s, chs).channels ==>
              Marked(s, chs).channels[c] == if c in s.channels then s.channels[c] else Channel("", map[], map[])
  {
    if chs != [] {
      var init, last := chs[..|chs| - 1], chs[|chs| - 1];
      assert chs == init + [last];
      MarkedIs(s, init);
    }
  }

  lemma {:induction false} RequestsAre(chs: seq<string>)
    ensures |Requests(chs)| == 2 * |chs|
    ensures forall i :: 0 <= i < |chs| ==> Requests(chs)[2 * i] == "JOIN " + chs[i] && Requests(chs)[2 * i + 1] == "NAMES " + chs[i]
  {
    if chs != [] { RequestsAre(chs[..|chs| - 1]); }
  }

  // A nick in use gets an underscore and is asked for again; being welcomed, or told one is
  // registered already, counts as welcomed.
  lemma Registering(s: State, from: string, p: seq<string>)
    ensures Handle(s, Line(Some(from), "ERR_NICKNAMEINUSE", p)) == State(s.nick + "_", from, s.welcomed, s.channels)
    ensures Retry(s, Line(Some(from), "ERR_NICKNAMEINUSE", p)) == ["NICK " + s.nick + "_"]
    ensures Handle(s, Line(Some(from), "RPL_WELCOME", p)) == State(s.nick, from, true, s.channels)
    ensures Handle(s, Line(Some(from), "ERR_ALREADYREGISTRED", p)) == State(s.nick, from, true, s.channels)
  {
    assert "NICK " + (s.nick + "_") == "NICK " + s.nick + "_";
  }

  // --- who comes and goes -----------------------------------------------------------------

  // The bot's own join starts the channel afresh, its own part forgets it.
  lemma OwnLines(s: State, ch: string)
    ensures Handle(s, Line(Some(s.nick), "JOIN", [ch]))
            == State(s.nick, s.nick, s.welcomed, s.channels[ch := Channel("", map[], map[])])
    ensures Handle(s, Line(Some(s.nick), "PART", [ch])) == State(s.nick, s.nick, s.welcomed, s.channels - {ch})
    ensures Handle(s, Line(Some(s.nick), "KICK", [ch, s.nick])) == s.(lastNick := s.nick)
  {}

  // Another's join, part, kick and quit in a tracked channel add and take one member.
  lemma OthersLines(s: State, ch: string, nick: string)
    requires nick != s.nick && ch in s.channels
    ensures var c := s.channels[ch];
            && Handle(s, Line(Some(nick), "JOIN", [ch]))
               == State(s.nick, nick, s.welcomed, s.channels[ch := Channel(c.topic, c.members[Lower(nick) := nick], c.pending)])
            && Handle(s, Line(Some(nick), "PART", [ch]))
               == State(s.nick, nick, s.welcomed, s.channels[ch := Channel(c.topic, c.members - {Lower(nick)}, c.pending)])
            && Handle(s, Line(Some(nick), "KICK", [ch, nick]))
               == State(s.nick, nick, s.welcomed, s.channels[ch := Channel(c.topic, c.members - {Lower(nick)}, c.pending)])
    ensures var t := Handle(s, Line(Some(nick), "QUIT", []));
            && t.nick == s.nick && t.channels.Keys == s.channels.Keys
            && forall c :: c in s.channels ==> t.channels[c] == s.channels[c].(members := s.channels[c].members - {Lower(nick)})
  {
    hide Lower;
  }

  // A change of nick moves the member wherever tracked, and nowhere else; the bot's own
  // changes what the bot goes by.
  lemma NickLines(s: State, was: string, nick: string)
    requires nick != ""
    ensures var t := Handle(s, Line(Some(was), "NICK", [nick]));
            && t.nick == (if was == s.nick then nick else s.nick) && t.channels.Keys == s.channels.Keys
            && forall c :: c in s.channels ==>
                 t.channels[c] == if Lower(was) in s.channels[c].members
                                  then s.channels[c].(members := (s.channels[c].members - {Lower(was)})[Lower(nick) := nick])
                                  else s.channels[c]
  {
    hide Lower;
  }

  // A topic, set or told, is the channel's from then on, tracked before or not.
  lemma TopicLines(s: State, from: string, me: string, ch: string, topic: string)
    ensures Handle(s, Line(Some(from), "TOPIC", [ch, topic])) == Handle(s, Line(Some(from), "RPL_TOPIC", [me, ch, topic]))
    ensures var t := Handle(s, Line(Some(from), "TOPIC", [ch, topic]));
            && t.nick == s.nick && t.welcomed == s.welcomed && t.channels.Keys == s.channels.Keys + {ch}
            && t.channels[ch].topic == topic
            && t.channels[ch].members == (if ch in s.channels then s.channels[ch].members else map[])
            && t.channels[ch].pending == (if ch in s.channels then s.channels[ch].pending else map[])
            && forall c :: c in s.channels && c != ch ==> t.channels[c] == s.channels[c]
  {}

  // A line without a prefix is from whoever sent the last one.
  lemma Unprefixed(s: State, name: string, p: seq<string>)
    ensures Handle(s, Line(None, name, p)) == Handle(s, Line(Some(s.lastNick), name, p))
  {}

  // Lines that are none of these leave everything but the sender alone; so do those that
  // are cut short.
  lemma OtherLines(s: State, from: string, name: string, p: seq<string>)
    requires || name !in {"JOIN", "PART", "KICK", "QUIT", "NICK", "TOPIC", "RPL_TOPIC", "RPL_NAMREPLY", "RPL_ENDOFNAMES",
                          "ERR_NICKNAMEINUSE", "RPL_WELCOME", "ERR_ALREADYREGISTRED"}
             || (name in {"JOIN", "PART", "NICK"} && p == [])
             || (name in {"KICK", "TOPIC", "RPL_ENDOFNAMES"} && |p| < 2)
             || (name in {"RPL_TOPIC", "RPL_NAMREPLY"} && |p| < 3)
    ensures Handle(s, Line(Some(from), name, p)) == s.(lastNick := from) && Retry(s, Line(Some(from), name, p)) == []
  {}

  // --- one run ----------------------------------------------------------------------------

  const ROOM: map<string, string> := map["me" := "me", "bob" := "bob", "eve" := "Eve"]

  lemma Folds()
    ensures Lower("me") == "me" && Lower("bob") == "bob" && Lower("Eve") == "eve"
    ensures Bare("me") == "me" && Bare("@bob") == "bob" && Bare("+Eve") == "Eve"
  {
    BareIs("", "me");
    BareIs("@", "bob");
    BareIs("+", "Eve");
    assert "" + "me" == "me" && "@" + "bob" == "@bob" && "+" + "Eve" == "+Eve";
  }

  // The text of the burst, with a blank at its end.
  function Text(): string {
    Spaced(["me", "@bob", "+Eve"])
  }

  lemma NamesAre(words: seq<string>)
    requires words == ["me", "@bob", "+Eve"]
    ensures forall i :: 0 <= i < 3 ==> IsWord(words[i])
    ensures Bare(words[0]) == "me" && Bare(words[1]) == "bob" && Bare(words[2]) == "Eve"
  {
    Folds();
  }

  lemma WordsList(words: seq<string>)
    requires |words| == 3 && Bare(words[0]) == "me" && Bare(words[1]) == "bob" && Bare(words[2]) == "Eve"
    ensures Lists(words, ROOM)
  {
    hide Bare, Lower;
    Folds();
    forall k | k in ROOM ensures exists w :: w in words && Lower(Bare(w)) == k {
      assert words[0] in words && words[1] in words && words[2] in words;
    }
  }

  lemma OneText(text: string)
    ensures AllFields([text]) == Fields(text)
  {
    hide Fields;
    assert [text][..0] == [] && [text][0] == text;
    assert AllFields([]) == [];
  }

  lemma TextLists()
    ensures Lists(AllFields([Text()]), ROOM)
  {
    hide Bare, Lower, Lists, Spaced, Fields, IsWord;
    var words := ["me", "@bob", "+Eve"];
    NamesAre(words);
    FieldsSpaced(words);
    OneText(Text());
    WordsList(words);
  }

  function Joins(nick: string): Event {
    Happens(Join(nick, "#c"))
  }

  // The world after the three have joined.
  ghost predicate AllIn(w: World) {
    && w.v == Server("me", map["#c" := ROOM]) && Follows(w.v, w.s, w.settled) && w.settled == {} && "#c" in w.s.channels
  }

  lemma Joining(w: World, nick: string)
    requires nick in {"me", "bob", "Eve"} && Follows(w.v, w.s, w.settled) && w.settled == {} && w.v.bot == "me"
    requires nick == "me" || "#c" in w.s.channels
    ensures Enabled(w, Joins(nick))
    ensures var t := Step(w, Joins(nick));
            && Follows(t.v, t.s, t.settled) && t.settled == {} && "#c" in t.s.channels
            && t.v == Server("me", w.v.rooms["#c" := Room(w.v, "#c")[Lower(nick) := nick]])
  {
    Folds();
    JoinFollows(w.v, w.s, w.settled, Join(nick, "#c"));
    NoLine(w.s);
    OneLine(w.s, Line(Some(nick), "JOIN", ["#c"]));
  }

  lemma ThreeJoin(w: World)
    requires w == World(Server("me", map[]), State("me", "", false, map[]), {})
    ensures Enabled(w, Joins("me")) && Enabled(Step(w, Joins("me")), Joins("bob"))
    ensures Enabled(Step(Step(w, Joins("me")), Joins("bob")), Joins("Eve"))
    ensures AllIn(Step(Step(Step(w, Joins("me")), Joins("bob")), Joins("Eve")))
  {
    hide Step, Enabled;
    Folds();
    Joining(w, "me");
    var a := Step(w, Joins("me"));
    Joining(a, "bob");
    var b := Step(a, Joins("bob"));
    Joining(b, "Eve");
    assert Room(w.v, "#c") == map[];
    assert map["me" := "me"]["bob" := "bob"]["eve" := "Eve"] == ROOM;
  }

  function Burst3(): Happening {
    Names("#c", [["me", "="]], [Text()])
  }

  lemma BurstSettles(w: World)
    requires AllIn(w)
    ensures Enabled(w, Happens(Burst3()))
    ensures var t := Step(w, Happens(Burst3())); Follows(t.v, t.s, t.settled) && t.settled == {"#c"} && t.v == w.v
  {
    hide Bare, Lower, Lists, Text, HandleAll, Handle, AllFields;
    Folds();
    TextLists();
    assert Possible(w.v, Burst3());
    NamesFollows(w.v, w.s, w.settled, Burst3());
  }

  lemma PartIsFollowed(w: World)
    requires Follows(w.v, w.s, w.settled) && w.settled == {"#c"} && w.v == Server("me", map["#c" := ROOM])
    ensures Enabled(w, Happens(Part("bob", "#c")))
    ensures var t := Step(w, Happens(Part("bob", "#c")));
            && Follows(t.v, t.s, t.settled) && t.settled == {"#c"}
            && t.v == Server("me", map["#c" := map["me" := "me", "eve" := "Eve"]])
  {
    hide Bare, Lower, HandleAll, Handle;
    Folds();
    assert Possible(w.v, Part("bob", "#c"));
    PartFollows(w.v, w.s, w.settled, Part("bob", "#c"));
    assert ROOM - {"bob"} == map["me" := "me", "eve" := "Eve"];
  }

  // The bot and two others join, a burst names all three, and one leaves: the other two are
  // what the session has, and what the server has.
  lemma TwoOthers()
    ensures var es := [Joins("me"), Joins("bob"), Joins("Eve"), Happens(Burst3()), Happens(Part("bob", "#c"))];
            && Legal(World(Server("me", map[]), State("me", "", false, map[]), {}), es)
            && var w := Run(World(Server("me", map[]), State("me", "", false, map[]), {}), es);
               && "#c" in w.s.channels && w.s.channels["#c"].members == map["me" := "me", "eve" := "Eve"]
               && "#c" in w.v.rooms && w.v.rooms["#c"] == map["me" := "me", "eve" := "Eve"]
  {
    hide Step, Enabled;
    var w := World(Server("me", map[]), State("me", "", false, map[]), {});
    ThreeJoin(w);
    var c := Step(Step(Step(w, Joins("me")), Joins("bob")), Joins("Eve"));
    var d, e := Happens(Burst3()), Happens(Part("bob", "#c"));
    BurstSettles(c);
    PartIsFollowed(Step(c, d));
    Unrolled(Step(c, d), [e]);
    Unrolled(c, [d, e]);
    Unrolled(Step(Step(w, Joins("me")), Joins("bob")), [Joins("Eve"), d, e]);
    Unrolled(Step(w, Joins("me")), [Joins("bob"), Joins("Eve"), d, e]);
    Unrolled(w, [Joins("me"), Joins("bob"), Joins("Eve"), d, e]);
    NoneRun(Step(Step(c, d), e));
  }

  lemma Unrolled(w: World, es: seq<Event>)
    requires es != []
    ensures Legal(w, es) <==> Enabled(w, es[0]) && Legal(Step(w, es[0]), es[1..])
    ensures Legal(w, es) ==> Run(w, es) == Run(Step(w, es[0]), es[1..])
  {}

  lemma NoneRun(w: World)
    ensures Legal(w, []) && Run(w, []) == w
  {}
}
