// Who is in which channel, as the session tracks it line by line.
module Session {
  import opened Basics

  // One parsed line: the nick of its prefix, the command by name, the split parameters.
  datatype Line = Line(nick: Option<string>, name: string, p: seq<string>)

  // Members map a folded nick to the nick as shown; pending is a NAMES burst under way.
  datatype Channel = Channel(topic: string, members: map<string, string>, pending: map<string, string>)

  const FRESH := Channel("", map[], map[])

  datatype State = State(nick: string, lastNick: string, welcomed: bool, channels: map<string, Channel>)

  // --- nicks --------------------------------------------------------------------------

  function LowerChar(c: char): char {
    if 'A' <= c <= 'Z' then c - 'A' + 'a' else c
  }

  function Lower(s: string): string {
    seq(|s|, i requires 0 <= i < |s| => LowerChar(s[i]))
  }

  // One ASCII letter in two cases.
  predicate TwoCases(c: char, d: char) {
    ('A' <= c <= 'Z' && d as int == c as int + 32) || ('A' <= d <= 'Z' && c as int == d as int + 32)
  }

  // Two nicks fold alike exactly if they differ in nothing but the case of ASCII letters.
  lemma SameFolded(a: string, b: string)
    ensures Lower(a) == Lower(b) <==> |a| == |b| && forall i :: 0 <= i < |a| ==> a[i] == b[i] || TwoCases(a[i], b[i])
  {
    forall c: char, d: char ensures LowerChar(c) == LowerChar(d) <==> c == d || TwoCases(c, d) {}
    if |a| == |b| && forall i :: 0 <= i < |a| ==> a[i] == b[i] || TwoCases(a[i], b[i]) {
      forall i | 0 <= i < |a| ensures Lower(a)[i] == Lower(b)[i] {}
    }
    if Lower(a) == Lower(b) {
      assert |Lower(a)| == |a| && |Lower(b)| == |b|;
      forall i | 0 <= i < |a| ensures a[i] == b[i] || TwoCases(a[i], b[i]) {
        assert Lower(a)[i] == LowerChar(a[i]) && Lower(b)[i] == LowerChar(b[i]);
      }
    }
  }

  predicate IsStatus(c: char) {
    c == '~' || c == '&' || c == '@' || c == '%' || c == '+'
  }

  // A name without its status prefixes.
  function Bare(s: string): string {
    if s != "" && IsStatus(s[0]) then Bare(s[1..]) else s
  }

  // The words of a text, split around runs of blanks; cur is the word being read.
  function Words(s: string, cur: string): seq<string> {
    if s == "" then (if cur == "" then [] else [cur])
    else if IsSpace(s[0]) then (if cur == "" then [] else [cur]) + Words(s[1..], "")
    else Words(s[1..], cur + [s[0]])
  }

  function Fields(s: string): seq<string> {
    Words(s, "")
  }

  function Spaced(words: seq<string>): string {
    if words == [] then "" else words[0] + " " + Spaced(words[1..])
  }

  predicate IsWord(w: string) {
    w != "" && forall c :: c in w ==> c !in " \t\n\r\U{0B}\U{0C}"
  }

  lemma {:induction false} WordRead(w: string, rest: string, cur: string)
    requires forall c :: c in w ==> !IsSpace(c)
    ensures Words(w + " " + rest, cur) == (if cur + w == "" then [] else [cur + w]) + Words(rest, "")
    decreases |w|
  {
    var s := w + " " + rest;
    if w == "" {
      assert s[0] == ' ' && s[1..] == rest && cur + w == cur;
    } else {
      assert s[0] == w[0] && w[0] in w && s[1..] == w[1..] + " " + rest;
      WordRead(w[1..], rest, cur + [w[0]]);
      assert cur + [w[0]] + w[1..] == cur + w;
    }
  }

  // A list of names reads back from the line it is printed on.
  lemma {:induction false} FieldsSpaced(words: seq<string>)
    requires forall w :: w in words ==> IsWord(w)
    ensures Fields(Spaced(words)) == words
  {
    if words != [] {
      assert words[0] in words;
      forall w | w in words[1..] ensures IsWord(w) { assert w in words; }
      FieldsSpaced(words[1..]);
      WordRead(words[0], Spaced(words[1..]), "");
      assert "" + words[0] == words[0] && words == [words[0]] + words[1..];
    }
  }

  // Blanks of any kind and number, some between two words.
  predicate IsGap(s: string) {
    forall c :: c in s ==> c in " \t\n\r\U{0B}\U{0C}"
  }

  function Gapped(gaps: seq<string>, words: seq<string>): string
    requires |gaps| == |words| + 1
  {
    if words == [] then gaps[0] else gaps[0] + words[0] + Gapped(gaps[1..], words[1..])
  }

  ghost predicate Gaps(gaps: seq<string>, words: seq<string>) {
    && |gaps| == |words| + 1
    && (forall i :: 0 <= i < |words| ==> IsWord(words[i]))
    && (forall i :: 0 <= i < |gaps| ==> IsGap(gaps[i]) && (0 < i < |words| ==> gaps[i] != ""))
  }

  lemma WordsStep(s: string, cur: string)
    requires s != ""
    ensures s[0] in " \t\n\r\U{0B}\U{0C}" ==> Words(s, cur) == (if cur == "" then [] else [cur]) + Words(s[1..], "")
    ensures s[0] !in " \t\n\r\U{0B}\U{0C}" ==> Words(s, cur) == Words(s[1..], cur + [s[0]])
  {}

  lemma {:induction false} GapRead(gap: string, rest: string, cur: string)
    requires IsGap(gap)
    ensures Words(gap + rest, cur) == if gap == "" then Words(rest, cur)
                                      else (if cur == "" then [] else [cur]) + Words(rest, "")
    decreases |gap|
  {
    hide Words;
    if gap == "" {
      assert gap + rest == rest;
    } else {
      assert gap[0] in gap;
      GapLess(gap);
      WordsStep(gap + rest, cur);
      assert (gap + rest)[1..] == gap[1..] + rest;
      GapRead(gap[1..], rest, "");
      assert [] + Words(rest, "") == Words(rest, "");
    }
  }

  lemma GapLess(gap: string)
    requires IsGap(gap) && gap != ""
    ensures IsGap(gap[1..])
  {
    forall c | c in gap[1..] ensures c in gap {}
  }

  lemma {:induction false} LettersRead(w: string, rest: string, cur: string)
    requires forall c :: c in w ==> c !in " \t\n\r\U{0B}\U{0C}"
    ensures Words(w + rest, cur) == Words(rest, cur + w)
    decreases |w|
  {
    hide Words;
    if w == "" {
      assert w + rest == rest && cur + w == cur;
    } else {
      assert w[0] in w;
      forall c | c in w[1..] ensures c in w {}
      WordsStep(w + rest, cur);
      LettersRead(w[1..], rest, cur + [w[0]]);
      assert (w + rest)[1..] == w[1..] + rest && cur + [w[0]] + w[1..] == cur + w;
    }
  }

  // Words with blanks around them read back, whatever the blanks; cur is a word before them.
  lemma {:induction false} FieldsGapped(gaps: seq<string>, words: seq<string>, cur: string)
    requires Gaps(gaps, words) && (cur != "" && words != [] ==> gaps[0] != "")
    ensures Words(Gapped(gaps, words), cur) == (if cur == "" then [] else [cur]) + words
    decreases |words|
  {
    hide Words;
    assert IsGap(gaps[0]);
    if words == [] {
      GapRead(gaps[0], "", cur);
      NothingRead(cur);
      NothingRead("");
      assert gaps[0] + "" == gaps[0];
    } else {
      var w, rest := words[0], Gapped(gaps[1..], words[1..]);
      assert IsWord(w);
      GapsTail(gaps, words);
      assert gaps[0] + w + rest == gaps[0] + (w + rest) && "" + w == w;
      GapRead(gaps[0], w + rest, cur);
      LettersRead(w, rest, "");
      FieldsGapped(gaps[1..], words[1..], w);
      assert words == [w] + words[1..];
    }
  }

  lemma NothingRead(cur: string)
    ensures Words("", cur) == if cur == "" then [] else [cur]
  {}

  lemma GapsTail(gaps: seq<string>, words: seq<string>)
    requires Gaps(gaps, words) && words != []
    ensures Gaps(gaps[1..], words[1..]) && (|words| > 1 ==> gaps[1] != "")
  {
    forall i | 0 <= i < |words| - 1 ensures IsWord(words[1..][i]) { assert IsWord(words[i + 1]); }
    forall i | 0 <= i < |gaps| - 1 ensures IsGap(gaps[1..][i]) { assert IsGap(gaps[i + 1]); }
  }

  // --- what each line does --------------------------------------------------------------

  function Added(members: map<string, string>, nick: string): map<string, string> {
    members[Lower(nick) := nick]
  }

  function AddedAll(members: map<string, string>, names: seq<string>): map<string, string> {
    if names == [] then members
    else
      var m, n := AddedAll(members, names[..|names| - 1]), Bare(names[|names| - 1]);
      if n == "" then m else Added(m, n)
  }

  // A name that is nothing but status marks is passed over.
  lemma NoName(members: map<string, string>, names: seq<string>, marks: string)
    requires forall i :: 0 <= i < |marks| ==> marks[i] in "~&@%+"
    ensures AddedAll(members, names + [marks]) == AddedAll(members, names)
  {
    OnlyMarks(marks);
    assert (names + [marks])[..|names|] == names;
  }

  lemma {:induction false} OnlyMarks(marks: string)
    requires forall i :: 0 <= i < |marks| ==> marks[i] in "~&@%+"
    ensures Bare(marks) == ""
  {
    if marks != "" { OnlyMarks(marks[1..]); }
  }

  function AfterJoin(s: State, from: string, p: seq<string>): State {
    if |p| < 1 then s
    else if from == s.nick then s.(channels := s.channels[p[0] := FRESH])
    else if p[0] in s.channels then
      s.(channels := s.channels[p[0] := Joined(s.channels[p[0]], from)])
    else s
  }

  function Joined(c: Channel, nick: string): Channel {
    c.(members := Added(c.members, nick))
  }

  function Gone(c: Channel, nick: string): Channel {
    c.(members := c.members - {Lower(nick)})
  }

  function Renamed(c: Channel, was: string, nick: string): Channel {
    if Lower(was) in c.members then Joined(Gone(c, was), nick) else c
  }

  function AfterPart(s: State, from: string, p: seq<string>): State {
    if |p| < 1 then s
    else if from == s.nick then s.(channels := s.channels - {p[0]})
    else if p[0] in s.channels then s.(channels := s.channels[p[0] := Gone(s.channels[p[0]], from)])
    else s
  }

  // Being kicked oneself leaves the channel tracked.
  function AfterKick(s: State, p: seq<string>): State {
    if |p| >= 2 && p[0] in s.channels && p[1] != s.nick
    then s.(channels := s.channels[p[0] := Gone(s.channels[p[0]], p[1])])
    else s
  }

  function AfterQuit(s: State, from: string): State {
    s.(channels := map ch | ch in s.channels :: Gone(s.channels[ch], from))
  }

  function AfterNick(s: State, from: string, p: seq<string>): State {
    if |p| < 1 || p[0] == "" then s
    else s.(nick := if from == s.nick then p[0] else s.nick,
            channels := map ch | ch in s.channels :: Renamed(s.channels[ch], from, p[0]))
  }

  function Retopic(s: State, ch: string, topic: string): State {
    var c := if ch in s.channels then s.channels[ch] else FRESH;
    s.(channels := s.channels[ch := c.(topic := topic)])
  }

  function AfterNames(s: State, p: seq<string>): State {
    if |p| < 3 || p[|p| - 2] !in s.channels then s
    else
      var ch := p[|p| - 2];
      var c := s.channels[ch];
      s.(channels := s.channels[ch := c.(pending := AddedAll(c.pending, Fields(p[|p| - 1])))])
  }

  function AfterEnd(s: State, p: seq<string>): State {
    if |p| < 2 || p[1] !in s.channels then s
    else
      var c := s.channels[p[1]];
      s.(channels := s.channels[p[1] := c.(members := c.pending, pending := map[])])
  }

  // A line without a prefix has the last seen sender.
  function Handle(s: State, line: Line): State {
    var from := if line.nick.Some? then line.nick.value else s.lastNick;
    var s' := s.(lastNick := from);
    match line.name
    case "JOIN" => AfterJoin(s', from, line.p)
    case "PART" => AfterPart(s', from, line.p)
    case "KICK" => AfterKick(s', line.p)
    case "QUIT" => AfterQuit(s', from)
    case "NICK" => AfterNick(s', from, line.p)
    case "TOPIC" => if |line.p| < 2 then s' else Retopic(s', line.p[0], line.p[1])
    case "RPL_TOPIC" => if |line.p| < 3 then s' else Retopic(s', line.p[1], line.p[2])
    case "RPL_NAMREPLY" => AfterNames(s', line.p)
    case "RPL_ENDOFNAMES" => AfterEnd(s', line.p)
    case "ERR_NICKNAMEINUSE" => s'.(nick := s'.nick + "_")
    case "RPL_WELCOME" => s'.(welcomed := true)
    case "ERR_ALREADYREGISTRED" => s'.(welcomed := true)
    case _ => s'
  }

  function HandleAll(s: State, lines: seq<Line>): State
    decreases |lines|
  {
    if |lines| == 0 then s else HandleAll(Handle(s, lines[0]), lines[1..])
  }

  // Channels asked for are marked as joined at once.
  function Marked(s: State, chs: seq<string>): State {
    if chs == [] then s
    else
      var m, ch := Marked(s, chs[..|chs| - 1]), chs[|chs| - 1];
      if ch in m.channels then m else m.(channels := m.channels[ch := FRESH])
  }

  function Requests(chs: seq<string>): seq<string> {
    if chs == [] then [] else Requests(chs[..|chs| - 1]) + ["JOIN " + chs[|chs| - 1], "NAMES " + chs[|chs| - 1]]
  }

  class Session {
    var nick: string
    var lastNick: string
    var welcomed: bool
    var channels: map<string, Channel>
    var sent: seq<string>

    function Now(): State
      reads this
    {
      State(nick, lastNick, welcomed, channels)
    }

    constructor (nick: string)
      ensures Now() == State(nick, "", false, map[]) && sent == []
    {
      this.nick, lastNick, welcomed, channels, sent := nick, "", false, map[], [];
    }

    method JoinChannels(chs: seq<string>)
      modifies this`channels, this`sent
      ensures Now() == Marked(old(Now()), chs) && sent == old(sent) + Requests(chs)
    {
      for i := 0 to |chs|
        invariant Now() == Marked(old(Now()), chs[..i]) && sent == old(sent) + Requests(chs[..i])
      {
        assert chs[..i + 1][..i] == chs[..i];
        sent := sent + ["JOIN " + chs[i], "NAMES " + chs[i]];
        if chs[i] !in channels {
          channels := channels[chs[i] := FRESH];
        }
      }
      assert chs[..|chs|] == chs;
    }

    method AddNames(ch: string, names: seq<string>)
      requires ch in channels
      modifies this`channels
      ensures channels == old(channels)[ch := old(channels)[ch].(pending := AddedAll(old(channels)[ch].pending, names))]
    {
      var pending := channels[ch].pending;
      for i := 0 to |names|
        invariant channels == old(channels) && pending == AddedAll(channels[ch].pending, names[..i])
      {
        assert names[..i + 1][..i] == names[..i];
        var n := Bare(names[i]);
        if n != "" {
          pending := pending[Lower(n) := n];
        }
      }
      assert names[..|names|] == names;
      channels := channels[ch := channels[ch].(pending := pending)];
    }

    method QuitAll(from: string)
      modifies this`channels
      ensures Now() == AfterQuit(old(Now()), from)
    {
      var todo := channels.Keys;
      while todo != {}
        invariant todo <= channels.Keys == old(channels).Keys
        invariant forall c :: c in channels ==>
                    channels[c] == if c in todo then old(channels)[c] else Gone(old(channels)[c], from)
      {
        var c :| c in todo;
        channels := channels[c := Gone(channels[c], from)];
        todo := todo - {c};
      }
    }

    method RenameAll(from: string, to: string)
      requires to != ""
      modifies this`nick, this`channels
      ensures Now() == AfterNick(old(Now()), from, [to])
    {
      if from == nick {
        nick := to;
      }
      var todo := channels.Keys;
      ghost var now := nick;
      while todo != {}
        invariant todo <= channels.Keys == old(channels).Keys && nick == now
        invariant forall c :: c in channels ==>
                    channels[c] == if c in todo then old(channels)[c] else Renamed(old(channels)[c], from, to)
      {
        var c :| c in todo;
        if Lower(from) in channels[c].members {
          channels := channels[c := Joined(Gone(channels[c], from), to)];
        }
        todo := todo - {c};
      }
    }

    method OnJoin(from: string, p: seq<string>)
      modifies this`channels
      ensures Now() == AfterJoin(old(Now()), from, p)
    {
      if |p| < 1 {
        return;
      }
      if from == nick {
        channels := channels[p[0] := FRESH];
      } else if p[0] in channels {
        channels := channels[p[0] := Joined(channels[p[0]], from)];
      }
    }

    method OnPart(from: string, p: seq<string>)
      modifies this`channels
      ensures Now() == AfterPart(old(Now()), from, p)
    {
      if |p| < 1 {
        return;
      }
      if from == nick {
        channels := channels - {p[0]};
      } else if p[0] in channels {
        channels := channels[p[0] := Gone(channels[p[0]], from)];
      }
    }

    method OnKick(p: seq<string>)
      modifies this`channels
      ensures Now() == AfterKick(old(Now()), p)
    {
      if |p| < 2 {
        return;
      }
      if p[0] in channels && p[1] != nick {
        channels := channels[p[0] := Gone(channels[p[0]], p[1])];
      }
    }

    method OnNick(from: string, p: seq<string>)
      modifies this`nick, this`channels
      ensures Now() == AfterNick(old(Now()), from, p)
    {
      if |p| < 1 || p[0] == "" {
        return;
      }
      RenameAll(from, p[0]);
    }

    method OnNamReply(p: seq<string>)
      modifies this`channels
      ensures Now() == AfterNames(old(Now()), p)
    {
      if |p| < 3 {
        return;
      }
      if p[|p| - 2] in channels {
        AddNames(p[|p| - 2], Fields(p[|p| - 1]));
      }
    }

    method OnEndOfNames(p: seq<string>)
      modifies this`channels
      ensures Now() == AfterEnd(old(Now()), p)
    {
      if |p| < 2 {
        return;
      }
      if p[1] in channels {
        channels := channels[p[1] := channels[p[1]].(members := channels[p[1]].pending, pending := map[])];
      }
    }

    method HandleLine(line: Line)
      modifies this
      ensures Now() == Handle(old(Now()), line) && sent == old(sent) + Retry(old(Now()), line)
    {
      hide AfterJoin, AfterPart, AfterKick, AfterQuit, AfterNick, AfterNames, AfterEnd, Retopic;
      if line.nick.Some? {
        lastNick := line.nick.value;
      }
      var from, p := lastNick, line.p;
      match line.name
      case "JOIN" => OnJoin(from, p);
      case "PART" => OnPart(from, p);
      case "KICK" => OnKick(p);
      case "QUIT" => QuitAll(from);
      case "NICK" => OnNick(from, p);
      case "TOPIC" =>
        if |p| >= 2 {
          SetTopic(p[0], p[1]);
        }
      case "RPL_TOPIC" =>
        if |p| >= 3 {
          SetTopic(p[1], p[2]);
        }
      case "RPL_NAMREPLY" => OnNamReply(p);
      case "RPL_ENDOFNAMES" => OnEndOfNames(p);
      case "ERR_NICKNAMEINUSE" =>
        nick := nick + "_";
        sent := sent + ["NICK " + nick];
      case "RPL_WELCOME" =>
        welcomed := true;
      case "ERR_ALREADYREGISTRED" =>
        welcomed := true;
      case _ =>
    }

    method SetTopic(ch: string, topic: string)
      modifies this`channels
      ensures Now() == Retopic(old(Now()), ch, topic)
    {
      if ch in channels {
        channels := channels[ch := channels[ch].(topic := topic)];
      } else {
        channels := channels[ch := FRESH.(topic := topic)];
      }
    }
  }

  function Retry(s: State, line: Line): seq<string> {
    if line.name == "ERR_NICKNAMEINUSE" then ["NICK " + (s.nick + "_")] else []
  }

  // --- reconnecting -----------------------------------------------------------------------

  const LADDER: seq<nat> := [3, 60, 180, 300]

  datatype Pace = Pace(delay: nat, when: Option<int>)

  predicate Quiet(b: Pace, now: int) {
    b.when.Some? && b.when.value + 300 < now
  }

  // The first delay of the ladder longer than the last one, or its last.
  function Rung(base: nat): nat {
    if base < 3 then 3 else if base < 60 then 60 else if base < 180 then 180 else 300
  }

  function Tried(b: Pace, now: int): Pace {
    var base := if Quiet(b, now) then 0 else b.delay;
    Pace(if base < 300 then Rung(base) else base, Some(now + Rung(base)))
  }

  function TriedAt(nows: seq<int>): Pace {
    if nows == [] then Pace(0, None) else Tried(TriedAt(nows[..|nows| - 1]), nows[|nows| - 1])
  }

  // The delay that so many attempts in a row have led to.
  function Delay(n: nat): nat {
    if n == 0 then 0 else if n == 1 then 3 else if n == 2 then 60 else if n == 3 then 180 else 300
  }

  // Each attempt comes at most five minutes after the delay before it is over.
  ghost predicate InARow(nows: seq<int>) {
    forall k {:trigger nows[k]} :: 0 < k < |nows| ==> nows[k] <= nows[k - 1] + Delay(k) + 300
  }

  // As long as no attempt comes after more than five minutes of peace, the delays climb
  // the ladder and stay at its top.
  lemma {:induction false} Climbs(nows: seq<int>)
    requires nows != [] && InARow(nows)
    ensures TriedAt(nows) == Pace(Delay(|nows|), Some(nows[|nows| - 1] + Delay(|nows|)))
  {
    hide Tried, TriedAt, Delay, InARow;
    var init, last := nows[..|nows| - 1], nows[|nows| - 1];
    TriedMore(nows);
    if init == [] {
      FirstTry(last);
    } else {
      InARowLess(nows);
      Climbs(init);
      NextTry(|init|, init[|init| - 1], last);
    }
  }

  lemma TriedMore(nows: seq<int>)
    requires nows != []
    ensures TriedAt(nows) == Tried(TriedAt(nows[..|nows| - 1]), nows[|nows| - 1]) && TriedAt([]) == Pace(0, None)
  {
    hide Tried;
  }

  lemma InARowLess(nows: seq<int>)
    requires InARow(nows) && nows != []
    ensures InARow(nows[..|nows| - 1])
    ensures |nows| > 1 ==> nows[|nows| - 1] <= nows[|nows| - 2] + Delay(|nows| - 1) + 300
  {
    hide Delay;
    forall k | 0 < k < |nows| - 1 ensures nows[k] <= nows[k - 1] + Delay(k) + 300 {}
  }

  lemma FirstTry(now: int)
    ensures Tried(Pace(0, None), now) == Pace(Delay(1), Some(now + Delay(1)))
  {}

  lemma NextTry(n: nat, last: int, now: int)
    requires n > 0 && now <= last + Delay(n) + 300
    ensures Tried(Pace(Delay(n), Some(last + Delay(n))), now) == Pace(Delay(n + 1), Some(now + Delay(n + 1)))
  {}

  // Afterwards, and only then, it starts over.
  lemma StartsOver(nows: seq<int>, now: int)
    requires nows != [] && InARow(nows)
    ensures TriedAt(nows + [now]).delay == 3 <==> now > nows[|nows| - 1] + Delay(|nows|) + 300
  {
    Climbs(nows);
    assert (nows + [now])[..|nows|] == nows;
  }

  class Backoff {
    var delay: nat
    var when: Option<int>

    constructor ()
      ensures Pace(delay, when) == TriedAt([])
    {
      delay, when := 0, None;
    }

    method Next(now: int) returns (d: nat)
      modifies this
      ensures Pace(delay, when) == Tried(old(Pace(delay, when)), now) && when == Some(now + d)
    {
      if when.Some? && when.value + 300 < now {
        delay := 0;
      }
      ghost var base := delay;
      for i := 0 to |LADDER|
        invariant forall j :: 0 <= j < i ==> LADDER[j] <= delay
        invariant delay == base && when == old(when)
      {
        assert i > 0 ==> LADDER[i - 1] <= delay;
        if LADDER[i] > delay {
          delay := LADDER[i];
          when := Some(now + delay);
          return delay;
        }
      }
      assert LADDER[3] <= delay;
      when := Some(now + 300);
      return 300;
    }
  }
}
