// What the parser takes apart, by how the pieces go together.
module MessageForms {
  import opened Basics
  import opened Messages

  predicate AllBlank(s: string) {
    forall i :: 0 <= i < |s| ==> s[i] in " \t\n\r\U{0C}"
  }

  predicate AllDark(s: string) {
    forall i :: 0 <= i < |s| ==> s[i] !in " \t\n\r\U{0C}"
  }

  predicate StartsDark(s: string) {
    s != "" && s[0] !in " \t\n\r\U{0C}"
  }

  lemma {:induction false} DarkIs(a: string, b: string)
    requires AllDark(a) && !StartsDark(b)
    ensures Dark(a + b) == |a|
  {
    if a == "" {
      assert a + b == b;
    } else {
      DarkIs(a[1..], b);
      assert (a + b)[1..] == a[1..] + b;
    }
  }

  lemma {:induction false} BlankIs(a: string, b: string)
    requires AllBlank(a) && (b == "" || StartsDark(b))
    ensures Blank(a + b) == |a|
  {
    if a == "" {
      assert a + b == b;
    } else {
      BlankIs(a[1..], b);
      assert (a + b)[1..] == a[1..] + b;
    }
  }

  // The first run of dark characters, and of blank ones.
  lemma {:induction false} DarkRuns(s: string)
    ensures AllDark(s[..Dark(s)]) && !StartsDark(s[Dark(s)..])
  {
    if s != "" && Dark(s) > 0 {
      DarkRuns(s[1..]);
      Onwards(s, Dark(s));
      DarkFirst(s[0], s[1..][..Dark(s) - 1]);
    }
  }

  lemma {:induction false} BlankRuns(s: string)
    ensures AllBlank(s[..Blank(s)]) && (s[Blank(s)..] == "" || StartsDark(s[Blank(s)..]))
  {
    if s != "" && Blank(s) > 0 {
      BlankRuns(s[1..]);
      Onwards(s, Blank(s));
      BlankFirst(s[0], s[1..][..Blank(s) - 1]);
    }
  }

  lemma Onwards(s: string, n: nat)
    requires 0 < n <= |s|
    ensures s[..n] == [s[0]] + s[1..][..n - 1] && s[n..] == s[1..][n - 1..]
  {}

  lemma DarkFirst(c: char, s: string)
    requires AllDark(s) && !IsBlank(c)
    ensures AllDark([c] + s)
  {}

  lemma BlankFirst(c: char, s: string)
    requires AllBlank(s) && IsBlank(c)
    ensures AllBlank([c] + s)
  {}

  // --- lines --------------------------------------------------------------------------------

  predicate Command(s: string) {
    || (|s| == 3 && forall i :: 0 <= i < 3 ==> s[i] in "0123456789")
    || (s != "" && forall i :: 0 <= i < |s| ==> 'a' <= s[i] <= 'z' || 'A' <= s[i] <= 'Z')
  }

  // What may follow a command: nothing, or blanks and then parameters, which start dark or
  // are one blank left of several.
  ghost predicate Follows(rest: string, params: string) {
    (rest == "" && params == "") || exists gap :: SplitsOff(rest, gap, params)
  }

  ghost predicate SplitsOff(rest: string, gap: string, params: string) {
    && rest == gap + params && gap != "" && AllBlank(gap)
    && (StartsDark(params) || (|params| == 1 && AllBlank(params)))
  }

  lemma FollowsIs(rest: string, params: string)
    requires !StartsDark(rest)
    ensures Tail(rest) == Some(params) <==> Follows(rest, params)
  {
    hide SplitsOff, Tail, StartsDark;
    if rest == "" {
      NothingFollows(params);
    } else {
      if gap :| SplitsOff(rest, gap, params) { SplitTail(rest, gap, params); }
      if Tail(rest) == Some(params) { TailSplits(rest, params); }
    }
  }

  lemma NothingFollows(params: string)
    ensures Tail("") == Some(params) <==> Follows("", params)
  {}

  lemma SplitTail(rest: string, gap: string, params: string)
    requires SplitsOff(rest, gap, params)
    ensures Tail(rest) == Some(params)
  {
    if StartsDark(params) {
      BlankIs(gap, params);
    } else {
      assert AllBlank(rest);
      BlankIs(rest, "");
      assert rest + "" == rest;
    }
    hide Blank, AllBlank, StartsDark;
    assert rest[|gap|..] == params && |rest| == |gap| + |params|;
  }

  lemma TailSplits(rest: string, params: string)
    requires rest != "" && Tail(rest) == Some(params)
    ensures exists gap :: SplitsOff(rest, gap, params)
  {
    var n := Blank(rest);
    BlankRuns(rest);
    hide Blank;
    if n < |rest| {
      Cut(rest, n);
      assert SplitsOff(rest, rest[..n], params);
    } else {
      assert rest[..n] == rest;
      Cut(rest, |rest| - 1);
      assert SplitsOff(rest, rest[..|rest| - 1], params);
    }
  }

  // A line is a command, after a colon and a prefix and blanks if it has a prefix, and with
  // what may follow it.
  ghost predicate Reads(line: string, l: Line, gap: string, rest: string) {
    && Command(l.cmd) && Follows(rest, l.params)
    && if l.prefix == "" then line == l.cmd + rest
       else line == ":" + l.prefix + gap + l.cmd + rest && AllDark(l.prefix) && AllBlank(gap) && gap != ""
  }

  // What the parser reads is exactly that, and nothing else is a line.
  lemma ParseIs(line: string, l: Line)
    ensures ParseLine(line) == Some(l) <==> exists gap, rest :: Reads(line, l, gap, rest)
  {
    if gap, rest :| Reads(line, l, gap, rest) { ReadsParse(line, l, gap, rest); }
    if ParseLine(line) == Some(l) { ParseReads(line, l); }
  }

  lemma BodyIs(prefix: string, cmd: string, rest: string, params: string)
    requires Command(cmd) && Follows(rest, params)
    ensures Body(prefix, cmd + rest) == Some(Line(prefix, cmd, params))
  {
    NotDark(rest, params);
    CommandDark(cmd);
    DarkIs(cmd, rest);
    FollowsIs(rest, params);
    hide Dark, AllDark, Follows, Tail, StartsDark;
    assert (cmd + rest)[..|cmd|] == cmd && (cmd + rest)[|cmd|..] == rest;
  }

  lemma NotDark(rest: string, params: string)
    requires Follows(rest, params)
    ensures !StartsDark(rest)
  {
    if gap :| SplitsOff(rest, gap, params) { assert rest[0] == gap[0]; }
  }

  lemma CommandDark(cmd: string)
    requires Command(cmd)
    ensures AllDark(cmd) && IsCommand(cmd) && cmd != ""
  {}

  lemma ReadsParse(line: string, l: Line, gap: string, rest: string)
    requires Reads(line, l, gap, rest)
    ensures ParseLine(line) == Some(l)
  {
    hide Body, Follows;
    BodyIs(l.prefix, l.cmd, rest, l.params);
    if l.prefix == "" {
      assert line[0] == l.cmd[0];
      hide Command;
    } else {
      assert StartsDark(l.cmd + rest) by { assert (l.cmd + rest)[0] == l.cmd[0]; }
      hide Command, AllDark, AllBlank, StartsDark, ParseLine;
      Regroup(":" + l.prefix + gap, l.cmd, rest);
      PrefixedIs(line, l.prefix, gap, l.cmd + rest);
    }
  }

  lemma PrefixedIs(line: string, prefix: string, gap: string, s: string)
    requires prefix != "" && AllDark(prefix) && gap != "" && AllBlank(gap) && StartsDark(s)
    requires line == ":" + prefix + gap + s
    ensures ParseLine(line) == Body(prefix, s)
  {
    var after := gap + s;
    var r := prefix + after;
    assert StartsDark(after) == false by { assert after[0] == gap[0]; }
    DarkIs(prefix, after);
    BlankIs(gap, s);
    hide Dark, Blank, Body, AllDark, AllBlank, StartsDark, ParseLine;
    Regroup(":" + prefix, gap, s);
    Regroup(":", prefix, after);
    Joins(":", r);
    Joins(prefix, after);
    Joins(gap, s);
    TakesApart(line, r, after, prefix, gap, s);
  }

  lemma Joins(a: string, b: string)
    ensures (a + b)[..|a|] == a && (a + b)[|a|..] == b
  {}

  lemma TakesApart(line: string, r: string, after: string, prefix: string, gap: string, s: string)
    requires line != "" && line[0] == ':' && line[1..] == r
    requires Dark(r) == |prefix| > 0 && |prefix| <= |r| && r[..|prefix|] == prefix && r[|prefix|..] == after
    requires Blank(after) == |gap| > 0 && |gap| <= |after| && after[|gap|..] == s
    ensures ParseLine(line) == Body(prefix, s)
  {
    hide Dark, Blank, Body;
  }

  lemma BodyReads(prefix: string, s: string, l: Line) returns (rest: string)
    requires Body(prefix, s) == Some(l)
    ensures l.prefix == prefix && s == l.cmd + rest && Command(l.cmd) && Follows(rest, l.params)
  {
    DarkRuns(s);
    rest := s[Dark(s)..];
    Cut(s, Dark(s));
    assert IsCommand(l.cmd) ==> Command(l.cmd);
    hide Dark, AllDark, Command, IsCommand;
    FollowsIs(rest, l.params);
  }

  lemma ParseReads(line: string, l: Line)
    requires ParseLine(line) == Some(l)
    ensures exists gap, rest :: Reads(line, l, gap, rest)
  {
    hide Body, Follows, Command, Reads;
    if line == "" || line[0] != ':' {
      var rest := BodyReads("", line, l);
      PlainReads(line, l, rest);
    } else {
      var prefix, gap, s := Prefixed(line);
      var rest := BodyReads(prefix, s, l);
      PrefixReads(line, l, gap, s, rest);
    }
  }

  lemma PlainReads(line: string, l: Line, rest: string)
    requires l.prefix == "" && line == l.cmd + rest && Command(l.cmd) && Follows(rest, l.params)
    ensures Reads(line, l, "", rest)
  {}

  lemma PrefixReads(line: string, l: Line, gap: string, s: string, rest: string)
    requires l.prefix != "" && line == ":" + l.prefix + gap + s && AllDark(l.prefix) && AllBlank(gap) && gap != ""
    requires s == l.cmd + rest && Command(l.cmd) && Follows(rest, l.params)
    ensures Reads(line, l, gap, rest)
  {
    hide Follows, Command, AllDark, AllBlank;
    assert line == ":" + l.prefix + gap + l.cmd + rest;
  }

  // A line with a colon in front, taken apart.
  lemma Prefixed(line: string) returns (prefix: string, gap: string, s: string)
    requires line != "" && line[0] == ':' && ParseLine(line).Some?
    ensures prefix != "" && AllDark(prefix) && gap != "" && AllBlank(gap) && line == ":" + prefix + gap + s
    ensures ParseLine(line) == Body(prefix, s)
  {
    var r := line[1..];
    var n := Dark(r);
    var after := r[n..];
    DarkRuns(r);
    BlankRuns(after);
    ParseUnfolds(line);
    prefix, gap, s := r[..n], after[..Blank(after)], after[Blank(after)..];
    hide Dark, Blank, Body, AllDark, AllBlank, StartsDark, ParseLine;
    assert line[..1] == ":";
    Cut(line, 1);
    Cut(r, n);
    Cut(after, Blank(after));
    Regroup(":", prefix, gap + s);
    Regroup(":" + prefix, gap, s);
  }

  lemma ParseUnfolds(line: string)
    requires line != "" && line[0] == ':' && ParseLine(line).Some?
    ensures var r := line[1..]; var n := Dark(r); var after := r[n..];
            n > 0 && Blank(after) > 0 && ParseLine(line) == Body(r[..n], after[Blank(after)..])
  {
    hide Dark, Blank, Body;
  }

  lemma Cut(s: string, i: nat)
    requires i <= |s|
    ensures s == s[..i] + s[i..]
  {}

  lemma Regroup(a: string, b: string, c: string)
    ensures a + (b + c) == a + b + c
  {}

  // --- parameters -----------------------------------------------------------------------------

  // A middle: blanks, some characters that are neither blank nor colon, and blanks again.
  ghost predicate Opens(s: string, a: string, m: string, b: string, rest: string) {
    && s == a + m + b + rest && AllBlank(a) && AllBlank(b) && m != "" && b != ""
    && AllDark(m) && ':' !in m && (rest == "" || StartsDark(rest))
  }

  lemma {:induction false} PlainIs(m: string, rest: string)
    requires AllDark(m) && ':' !in m && (rest == "" || !StartsDark(rest) || rest[0] == ':')
    ensures Plain(m + rest) == |m|
  {
    if m == "" {
      assert m + rest == rest;
    } else {
      assert m[0] in m;
      forall c | c in m[1..] ensures c in m {}
      PlainIs(m[1..], rest);
      assert (m + rest)[1..] == m[1..] + rest;
    }
  }

  lemma {:induction false} PlainRun(s: string)
    ensures AllDark(s[..Plain(s)]) && ':' !in s[..Plain(s)]
  {
    if s != "" && Plain(s) > 0 {
      PlainRun(s[1..]);
      assert s[..Plain(s)] == [s[0]] + s[1..][..Plain(s) - 1];
    }
  }

  // Splitting takes middles off the front as long as there is one; what is left is the last
  // parameter, without its colon.
  lemma SplitIs(s: string, a: string, m: string, b: string, rest: string)
    ensures Opens(s, a, m, b, rest) ==> Split(s) == [m] + Split(rest)
    ensures (forall a, m, b, rest :: !Opens(s, a, m, b, rest)) ==>
              Split(s) == if s == "" then [] else if s[0] == ':' then [s[1..]] else [s]
  {
    hide Opens, MiddleEnd, Middle, Split;
    SplitStep(s);
    if Opens(s, a, m, b, rest) { OpensMiddle(s, a, m, b, rest); }
    if MiddleEnd(s) != 0 {
      MiddleOpens(s);
    }
  }

  lemma OpensMiddle(s: string, a: string, m: string, b: string, rest: string)
    requires Opens(s, a, m, b, rest)
    ensures MiddleEnd(s) == |a + m + b| > 0 && Middle(s) == m && s[MiddleEnd(s)..] == rest
  {
    var after, tail := m + (b + rest), b + rest;
    assert s == a + after && after[0] == m[0] && tail[0] == b[0];
    BlankIs(a, after);
    PlainIs(m, tail);
    BlankIs(b, rest);
    hide Blank, Plain, AllBlank, AllDark;
    assert s[|a|..] == after && s[|a| + |m|..] == tail && s[|a|..|a| + |m|] == m;
  }

  lemma MiddleOpens(s: string)
    requires MiddleEnd(s) != 0
    ensures exists a, m, b, rest :: Opens(s, a, m, b, rest)
  {
    SomeMiddle(s);
    var after := s[Blank(s)..];
    var tail := after[Plain(after)..];
    BlankRuns(s);
    PlainRun(after);
    BlankRuns(tail);
    CutsOpen(s, after, tail, Blank(s), Plain(after), Blank(tail));
  }

  lemma CutsOpen(s: string, after: string, tail: string, i: nat, n: nat, k: nat)
    requires i <= |s| && after == s[i..] && 0 < n <= |after| && tail == after[n..] && 0 < k <= |tail|
    requires AllBlank(s[..i]) && AllDark(after[..n]) && ':' !in after[..n] && AllBlank(tail[..k])
    requires tail[k..] == "" || StartsDark(tail[k..])
    ensures exists a, m, b, rest :: Opens(s, a, m, b, rest)
  {
    hide AllBlank, AllDark, StartsDark, Opens;
    Cut(s, i);
    Cut(after, n);
    Cut(tail, k);
    PiecesOpen(s, s[..i], after, after[..n], tail, tail[..k], tail[k..]);
  }

  lemma SomeMiddle(s: string)
    requires MiddleEnd(s) != 0
    ensures var after := s[Blank(s)..]; Plain(after) > 0 && Blank(after[Plain(after)..]) > 0
  {
    hide Blank, Plain;
    var after := s[Blank(s)..];
    assert s[Blank(s) + Plain(after)..] == after[Plain(after)..];
  }

  lemma PiecesOpen(s: string, a: string, after: string, m: string, tail: string, b: string, rest: string)
    requires s == a + after && after == m + tail && tail == b + rest
    requires AllBlank(a) && AllBlank(b) && m != "" && b != "" && AllDark(m) && ':' !in m && (rest == "" || StartsDark(rest))
    ensures Opens(s, a, m, b, rest)
  {
    hide AllBlank, AllDark, StartsDark;
    Regroup(a, m, tail);
    Regroup(a + m, b, rest);
  }

  // --- senders --------------------------------------------------------------------------------

  // A sender is the text itself taken apart: with the shortest nick there can be, and then
  // the shortest user.
  lemma SenderIs(s: string, q: Sender)
    requires s != ""
    ensures ParsePrefix(s).nick != "" && ShownSender(ParsePrefix(s)) == s
    ensures q.nick != "" && ShownSender(q) == s ==>
              || |ParsePrefix(s).nick| < |q.nick|
              || (ParsePrefix(s).nick == q.nick && |ParsePrefix(s).user| < |q.user|)
              || ParsePrefix(s) == q
  {
    hide ParsePrefix, ShownSender;
    SenderParts(s);
    if q.nick != "" && ShownSender(q) == s { SenderLeast(s, q); }
  }

  lemma SenderParts(s: string)
    requires s != ""
    ensures ParsePrefix(s).nick != "" && ShownSender(ParsePrefix(s)) == s
  {
    hide NickEnd, HostMark;
    var n := NickEnd(s, 0);
    NickFirst(s, 0);
    if n < |s| {
      Cut(s, n);
      Cut(s[n..], 1);
      assert s[n..][1..] == s[n + 1..] && s[n..][..1] == [s[n]];
      if s[n] == '!' { UserParts(s, n); }
    }
  }

  lemma UserParts(s: string, n: nat)
    requires n == NickEnd(s, 0) < |s| && s[n] == '!' && s == s[..n] + ("!" + s[n + 1..]) && n + 1 < |s|
    ensures ShownSender(ParsePrefix(s)) == s
  {
    var u := s[n + 1..];
    HostFirst(u, 0);
    UserWhole(u);
    var p := ParsePrefix(s);
    assert p.nick == s[..n] && p.user == u[..HostMark(u, 0)];
    hide NickEnd, HostMark, ParsePrefix;
    UserShown(s, p.nick, p.user, p.host);
  }

  lemma UserWhole(u: string)
    requires u != ""
    ensures var h := HostMark(u, 0); var host := if h == |u| then "" else u[h + 1..];
            h > 0 && u == u[..h] + (if host == "" then "" else "@" + host)
  {
    hide HostMark;
    var h := HostMark(u, 0);
    HostFirst(u, 0);
    if h < |u| {
      Cut(u, h);
      Cut(u[h..], 1);
      assert u[h..][1..] == u[h + 1..] && u[h..][..1] == "@";
    } else {
      assert u[..h] == u;
    }
  }

  lemma UserShown(s: string, nick: string, user: string, host: string)
    requires user != ""
    ensures ShownSender(Sender(nick, user, host)) == nick + ("!" + (user + if host == "" then "" else "@" + host))
  {
    var h := if host == "" then "" else "@" + host;
    Regroup("!", user, h);
    Regroup(nick, "!" + user, h);
  }

  // The nick ends at the first mark there can be, and so does the user.
  lemma {:induction false} NickFirst(s: string, i: nat)
    requires i <= |s|
    ensures var n := NickEnd(s, i);
            && (n < |s| ==> n > 0 && (s[n] == '!' || s[n] == '@') && n + 1 < |s|)
            && forall k :: i <= k < n && 0 < k && k + 1 < |s| ==> s[k] != '!' && s[k] != '@'
    decreases |s| - i
  {
    if i < |s| { NickFirst(s, i + 1); }
  }

  lemma {:induction false} HostFirst(s: string, i: nat)
    requires i <= |s|
    ensures var n := HostMark(s, i);
            && (n < |s| ==> n > 0 && s[n] == '@' && n + 1 < |s|)
            && forall k :: i <= k < n && 0 < k && k + 1 < |s| ==> s[k] != '@'
    decreases |s| - i
  {
    if i < |s| { HostFirst(s, i + 1); }
  }

  lemma SenderLeast(s: string, q: Sender)
    requires q.nick != "" && ShownSender(q) == s
    ensures || |ParsePrefix(s).nick| < |q.nick|
            || (ParsePrefix(s).nick == q.nick && |ParsePrefix(s).user| < |q.user|)
            || ParsePrefix(s) == q
  {
    hide NickEnd, HostMark;
    var host := if q.host == "" then "" else "@" + q.host;
    var rest := (if q.user == "" then "" else "!" + q.user) + host;
    Regroup(q.nick, if q.user == "" then "" else "!" + q.user, host);
    assert s == q.nick + rest;
    NickFirst(s, 0);
    hide ShownSender;
    if rest == "" {
      assert q == Sender(s, "", "");
    } else {
      assert s[..|q.nick|] == q.nick && s[|q.nick|..] == rest;
      assert s[|q.nick|] == rest[0] && |rest| > 1 && NickEnd(s, 0) <= |q.nick|;
      if NickEnd(s, 0) == |q.nick| {
        if q.user == "" { HostOnly(s, q); } else {
          Regroup("!", q.user, host);
          UserLeast(s, q, host);
        }
      }
    }
  }

  lemma HostOnly(s: string, q: Sender)
    requires q.user == "" && q.host != "" && NickEnd(s, 0) == |q.nick| < |s| && s[..|q.nick|] == q.nick
    requires s[|q.nick|..] == "" + ("@" + q.host)
    ensures ParsePrefix(s) == q
  {
    hide NickEnd, HostMark;
    var rest := s[|q.nick|..];
    assert rest[0] == '@' && rest[1..] == q.host && s[|q.nick| + 1..] == rest[1..];
  }

  lemma UserLeast(s: string, q: Sender, host: string)
    requires q.user != "" && host == (if q.host == "" then "" else "@" + q.host)
    requires NickEnd(s, 0) == |q.nick| < |s| && s[..|q.nick|] == q.nick && s[|q.nick|..] == "!" + (q.user + host)
    ensures ParsePrefix(s).nick == q.nick
    ensures |ParsePrefix(s).user| < |q.user| || ParsePrefix(s) == q
  {
    hide NickEnd, HostMark;
    var n, u := |q.nick|, s[|q.nick| + 1..];
    AfterMark(s, n, q.user + host);
    HostFirst(u, 0);
    Cut(u, |q.user|);
    assert u[..|q.user|] == q.user && u[|q.user|..] == host;
    if host != "" && HostMark(u, 0) == |q.user| {
      assert u[|q.user| + 1..] == host[1..] == q.host;
    } else if host != "" {
      assert u[|q.user|] == host[0] && |host| > 1;
    }
  }

  lemma AfterMark(s: string, n: nat, rest: string)
    requires n < |s| && s[n..] == "!" + rest
    ensures s[n] == '!' && s[n + 1..] == rest
  {
    assert s[n..][0] == '!' && s[n + 1..] == s[n..][1..];
  }
}
