// Taking one line apart: prefix, command, middles and trailing text (section 2.3.1 of
// RFC 1459).
module Messages {
  import opened Basics

  // A parsed line; the parameters are still in one piece.
  datatype Line = Line(prefix: string, cmd: string, params: string)

  predicate IsDigit(c: char) {
    '0' <= c <= '9'
  }

  predicate IsAlpha(c: char) {
    'a' <= c <= 'z' || 'A' <= c <= 'Z'
  }

  // How many characters from the start are not blank.
  function Dark(s: string): (n: nat)
    ensures n <= |s|
  {
    if s == "" || IsBlank(s[0]) then 0 else 1 + Dark(s[1..])
  }

  // How many are.
  function Blank(s: string): (n: nat)
    ensures n <= |s|
  {
    if s == "" || !IsBlank(s[0]) then 0 else 1 + Blank(s[1..])
  }

  // Three digits, or letters.
  predicate IsCommand(s: string) {
    (|s| == 3 && forall i :: 0 <= i < 3 ==> IsDigit(s[i])) || (s != "" && forall i :: 0 <= i < |s| ==> IsAlpha(s[i]))
  }

  // --- lines ----------------------------------------------------------------------------------

  // What follows the command: nothing, or blanks and text. If there are only blanks the
  // last one is the text, and it needs another before it.
  function Tail(s: string): Option<string> {
    if s == "" then Some("")
    else if Blank(s) == 0 then None
    else if Blank(s) < |s| then Some(s[Blank(s)..])
    else if |s| >= 2 then Some(s[|s| - 1..])
    else None
  }

  function Body(prefix: string, s: string): Option<Line> {
    var n := Dark(s);
    if n == 0 || Tail(s[n..]).None? || !IsCommand(s[..n]) then None
    else Some(Line(prefix, s[..n], Tail(s[n..]).value))
  }

  // A line that starts with a colon has a prefix, or is no line at all.
  function ParseLine(line: string): Option<Line> {
    if line == "" || line[0] != ':' then Body("", line)
    else
      var r := line[1..];
      var n := Dark(r);
      if n == 0 || Blank(r[n..]) == 0 then None
      else Body(r[..n], r[n..][Blank(r[n..])..])
  }

  // --- parameters -----------------------------------------------------------------------------

  // How long a middle is: neither blanks nor colons.
  function Plain(s: string): (n: nat)
    ensures n <= |s|
  {
    if s == "" || IsBlank(s[0]) || s[0] == ':' then 0 else 1 + Plain(s[1..])
  }

  // A middle at the start, blanks before it and at least one after; the length of it all.
  function MiddleEnd(s: string): (n: nat)
    ensures n <= |s|
  {
    var a := Blank(s);
    var b := Plain(s[a..]);
    var c := Blank(s[a + b..]);
    if b == 0 || c == 0 then 0 else a + b + c
  }

  function Middle(s: string): string {
    s[Blank(s)..Blank(s) + Plain(s[Blank(s)..])]
  }

  function Trailing(s: string): seq<string> {
    if s == "" then [] else if s[0] == ':' then [s[1..]] else [s]
  }

  // Middles, and what is left of the text.
  function Split(s: string): seq<string>
    decreases |s|
  {
    if MiddleEnd(s) == 0 then Trailing(s) else [Middle(s)] + Split(s[MiddleEnd(s)..])
  }

  method SplitParams(text: string) returns (out: seq<string>)
    ensures out == Split(text)
  {
    hide Split, MiddleEnd, Middle;
    out := [];
    var params := text;
    while MiddleEnd(params) != 0
      invariant Split(text) == out + Split(params)
      decreases |params|
    {
      SplitStep(params);
      out := out + [Middle(params)];
      params := params[MiddleEnd(params)..];
    }
    SplitStep(params);
    if |params| > 0 {
      out := out + [if params[0] == ':' then params[1..] else params];
    }
  }

  lemma SplitStep(s: string)
    ensures Split(s) == if MiddleEnd(s) == 0 then Trailing(s) else [Middle(s)] + Split(s[MiddleEnd(s)..])
  {}

  // --- printing and reading back ----------------------------------------------------------------

  // A parameter that is not the trailing one: not empty, no blanks, no colon in front.
  predicate IsMiddle(m: string) {
    m != "" && m[0] != ':' && Dark(m) == |m|
  }

  predicate Colonless(m: string) {
    ':' !in m
  }

  function Shown(middles: seq<string>, trailing: Option<string>): string {
    if middles == [] then (if trailing.None? then "" else ":" + trailing.value)
    else if |middles| == 1 && trailing.None? then middles[0]
    else middles[0] + " " + Shown(middles[1..], trailing)
  }

  function Parts(middles: seq<string>, trailing: Option<string>): seq<string> {
    middles + (if trailing.None? then [] else [trailing.value])
  }

  function Printed(prefix: string, cmd: string, middles: seq<string>, trailing: Option<string>): string {
    (if prefix == "" then "" else ":" + prefix + " ") + cmd
    + (if Parts(middles, trailing) == [] then "" else " " + Shown(middles, trailing))
  }

  lemma {:induction false} PlainRun(m: string, rest: string)
    requires Dark(m) == |m| && Colonless(m) && (rest == "" || IsBlank(rest[0]) || rest[0] == ':')
    ensures Plain(m + rest) == |m|
  {
    if m != "" {
      assert (m + rest)[1..] == m[1..] + rest && m[0] in m;
      assert Colonless(m[1..]);
      PlainRun(m[1..], rest);
    } else {
      assert m + rest == rest;
    }
  }

  lemma {:induction false} DarkRun(m: string, rest: string)
    requires Dark(m) == |m| && (rest == "" || IsBlank(rest[0]))
    ensures Dark(m + rest) == |m|
  {
    if m != "" {
      assert (m + rest)[1..] == m[1..] + rest;
      DarkRun(m[1..], rest);
    } else {
      assert m + rest == rest;
    }
  }

  // A colon inside a middle ends the reading of middles there.
  lemma {:induction false} PlainStops(m: string, rest: string)
    requires Dark(m) == |m| && !Colonless(m)
    ensures Plain(m + rest) < |m| && (m + rest)[Plain(m + rest)] == ':'
  {
    assert (m + rest)[1..] == m[1..] + rest;
    if m[0] != ':' {
      assert !Colonless(m[1..]) by { assert m == [m[0]] + m[1..]; }
      PlainStops(m[1..], rest);
    }
  }

  lemma NoBlank(s: string)
    requires s != "" && !IsBlank(s[0])
    ensures Blank(s) == 0 && s[Blank(s)..] == s
  {}

  lemma MiddleRead(m: string, rest: string)
    requires IsMiddle(m) && Colonless(m) && rest != "" && !IsBlank(rest[0])
    ensures MiddleEnd(m + " " + rest) == |m| + 1 && Middle(m + " " + rest) == m
    ensures (m + " " + rest)[|m| + 1..] == rest
  {
    var s := m + " " + rest;
    assert s == m + (" " + rest) && s[0] == m[0];
    assert !IsBlank(m[0]);
    PlainRun(m, " " + rest);
    NoBlank(s);
    assert s[|m|..] == " " + rest && (" " + rest)[1..] == rest;
    assert Blank(" " + rest) == 1 + Blank(rest);
  }

  // Nothing can be read as a middle from a text whose first word has a colon in it, or
  // has nothing after it.
  lemma NoMiddle(m: string, rest: string)
    requires IsMiddle(m) && (!Colonless(m) || rest == "")
    ensures MiddleEnd(m + rest) == 0
  {
    var s := m + rest;
    assert s[0] == m[0] && !IsBlank(m[0]);
    NoBlank(s);
    if !Colonless(m) {
      PlainStops(m, rest);
      assert s[Plain(s)..][0] == ':';
    } else {
      PlainRun(m, "");
      assert m + "" == m && s[|m|..] == "";
    }
  }

  // Where the reading back goes right: no colon in a middle that something follows.
  ghost predicate Readable(middles: seq<string>, trailing: Option<string>) {
    forall i :: 0 <= i < |middles| && (i < |middles| - 1 || trailing.Some?) ==> Colonless(middles[i])
  }

  lemma ShownStarts(middles: seq<string>, trailing: Option<string>)
    requires forall m :: m in middles ==> IsMiddle(m)
    ensures Parts(middles, trailing) != [] ==> Shown(middles, trailing) != "" && !IsBlank(Shown(middles, trailing)[0])
  {
    if middles != [] { assert middles[0] in middles; }
  }

  // Printed parameters read back as they were, exactly if no middle that something
  // follows has a colon in it; the standard allows one inside a middle.
  lemma {:induction false} SplitShown(middles: seq<string>, trailing: Option<string>)
    requires forall m :: m in middles ==> IsMiddle(m)
    ensures Split(Shown(middles, trailing)) == Parts(middles, trailing) <==> Readable(middles, trailing)
    decreases |middles|
  {
    hide Split, MiddleEnd, Middle;
    var s := Shown(middles, trailing);
    if middles == [] {
      LoneTrailing(trailing);
    } else {
      var m, rest := middles[0], middles[1..];
      assert m in middles && middles == [m] + rest;
      forall x | x in rest ensures IsMiddle(x) { assert x in middles; }
      SplitShown(rest, trailing);
      if |middles| == 1 && trailing.None? {
        NoMiddle(m, "");
        assert m + "" == m;
        SplitStep(m);
      } else if Colonless(m) {
        ShownStarts(rest, trailing);
        MiddleRead(m, Shown(rest, trailing));
        SplitStep(s);
        assert Parts(middles, trailing) == [m] + Parts(rest, trailing);
        SameTail(m, Split(Shown(rest, trailing)), Parts(rest, trailing));
        assert Readable(middles, trailing) <==> Readable(rest, trailing) by { ReadableTail(m, rest, trailing); }
      } else {
        assert s == m + (" " + Shown(rest, trailing));
        NoMiddle(m, " " + Shown(rest, trailing));
        SplitStep(s);
      }
    }
  }

  lemma SameTail(m: string, a: seq<string>, b: seq<string>)
    ensures [m] + a == [m] + b <==> a == b
  {
    assert ([m] + a)[1..] == a && ([m] + b)[1..] == b;
  }

  lemma LoneTrailing(trailing: Option<string>)
    ensures Split(Shown([], trailing)) == Parts([], trailing)
  {
    if trailing.Some? {
      var s := ":" + trailing.value;
      assert Blank(s) == 0 && s[0..] == s && Plain(s) == 0;
      assert s[1..] == trailing.value;
    }
  }

  lemma ReadableTail(m: string, rest: seq<string>, trailing: Option<string>)
    requires Colonless(m)
    ensures Readable([m] + rest, trailing) <==> Readable(rest, trailing)
  {
    var all := [m] + rest;
    if Readable(all, trailing) {
      forall i | 0 <= i < |rest| && (i < |rest| - 1 || trailing.Some?) ensures Colonless(rest[i]) {
        assert all[i + 1] == rest[i];
      }
    }
  }

  // --- whole lines ------------------------------------------------------------------------------

  lemma {:induction false} CommandDark(cmd: string)
    requires forall i :: 0 <= i < |cmd| ==> !IsBlank(cmd[i])
    ensures Dark(cmd) == |cmd|
  {
    if cmd != "" { CommandDark(cmd[1..]); }
  }

  lemma BodyRead(prefix: string, cmd: string, params: string)
    requires IsCommand(cmd) && (params != "" ==> !IsBlank(params[0]))
    ensures Body(prefix, cmd + (if params == "" then "" else " " + params)) == Some(Line(prefix, cmd, params))
  {
    var tail := if params == "" then "" else " " + params;
    var s := cmd + tail;
    CommandDark(cmd);
    DarkRun(cmd, tail);
    assert s[..|cmd|] == cmd && s[|cmd|..] == tail;
    if params != "" {
      assert tail[1..] == params;
      assert Blank(tail) == 1 + Blank(params) == 1;
    }
  }

  // A printed message reads back: its prefix, its command, and parameters that split into
  // its middles and trailing text, unless a colon inside a middle stands in the way.
  lemma ReadsBack(prefix: string, cmd: string, middles: seq<string>, trailing: Option<string>)
    requires Dark(prefix) == |prefix| && IsCommand(cmd) && forall m :: m in middles ==> IsMiddle(m)
    ensures ParseLine(Printed(prefix, cmd, middles, trailing)) == Some(Line(prefix, cmd, Shown(middles, trailing)))
    ensures Split(Shown(middles, trailing)) == Parts(middles, trailing) <==> Readable(middles, trailing)
  {
    hide Split, Shown, Body, ParseLine, Dark;
    SplitShown(middles, trailing);
    ShownStarts(middles, trailing);
    NothingShown(middles, trailing);
    var params := Shown(middles, trailing);
    var body := cmd + (if params == "" then "" else " " + params);
    BodyRead(prefix, cmd, params);
    CommandStarts(cmd, params);
    PrintedIs(prefix, cmd, middles, trailing);
    if prefix == "" {
      BodyPlain(body);
    } else {
      PrefixRead(prefix, body);
    }
  }

  lemma CommandStarts(cmd: string, params: string)
    requires IsCommand(cmd)
    ensures var body := cmd + (if params == "" then "" else " " + params);
            body != "" && !IsBlank(body[0]) && body[0] != ':'
  {}

  lemma PrintedIs(prefix: string, cmd: string, middles: seq<string>, trailing: Option<string>)
    requires Shown(middles, trailing) == "" <==> Parts(middles, trailing) == []
    ensures var params := Shown(middles, trailing);
            var body := cmd + (if params == "" then "" else " " + params);
            Printed(prefix, cmd, middles, trailing) == if prefix == "" then body else ":" + (prefix + (" " + body))
  {
    hide Shown;
    var tail := if Parts(middles, trailing) == [] then "" else " " + Shown(middles, trailing);
    assert "" + cmd + tail == cmd + tail;
    assert (":" + prefix + " ") + cmd + tail == ":" + (prefix + (" " + (cmd + tail)));
  }

  lemma PrefixRead(prefix: string, body: string)
    requires Dark(prefix) == |prefix| && prefix != "" && body != "" && !IsBlank(body[0])
    ensures ParseLine(":" + (prefix + (" " + body))) == Body(prefix, body)
  {
    hide Body;
    var r := prefix + (" " + body);
    assert (":" + r)[1..] == r;
    DarkRun(prefix, " " + body);
    assert r[|prefix|..] == " " + body && r[..|prefix|] == prefix;
    assert (" " + body)[1..] == body;
    assert Blank(" " + body) == 1 + Blank(body) == 1;
  }

  lemma BodyPlain(s: string)
    requires s != "" && s[0] != ':'
    ensures ParseLine(s) == Body("", s)
  {}

  lemma NothingShown(middles: seq<string>, trailing: Option<string>)
    requires forall m :: m in middles ==> IsMiddle(m)
    ensures Shown(middles, trailing) == "" <==> Parts(middles, trailing) == []
  {
    if middles != [] { assert middles[0] in middles; }
  }

  // A middle with a colon in it swallows what follows.
  lemma ColonSwallows()
    ensures Split(Shown(["a:b", "c"], None)) == ["a:b c"]
  {
    hide Split;
    assert Dark("a:b") == 3 && "a:b"[1] == ':';
    assert ["a:b", "c"][1..] == ["c"];
    NoMiddle("a:b", " c");
    assert Shown(["c"], None) == "c";
    assert Shown(["a:b", "c"], None) == "a:b" + " " + "c" == "a:b" + " c" == "a:b c";
    assert "a:b c" != "" && "a:b c"[0] == 'a';
    SplitStep("a:b c");
  }

  // --- prefixes -----------------------------------------------------------------------------------

  // Where the nick ends: at a mark, past the first character, that something follows.
  function NickEnd(s: string, i: nat): (n: nat)
    requires i <= |s|
    ensures i <= n <= |s|
    decreases |s| - i
  {
    if i >= |s| then |s|
    else if i > 0 && (s[i] == '!' || s[i] == '@') && i + 1 < |s| then i
    else NickEnd(s, i + 1)
  }

  function HostMark(s: string, i: nat): (n: nat)
    requires i <= |s|
    ensures i <= n <= |s|
    decreases |s| - i
  {
    if i >= |s| then |s| else if i > 0 && s[i] == '@' && i + 1 < |s| then i else HostMark(s, i + 1)
  }

  datatype Sender = Sender(nick: string, user: string, host: string)

  function ParsePrefix(s: string): Sender {
    var n := NickEnd(s, 0);
    if n == |s| then Sender(s, "", "")
    else if s[n] == '@' then Sender(s[..n], "", s[n + 1..])
    else
      var u := s[n + 1..];
      var h := HostMark(u, 0);
      Sender(s[..n], u[..h], if h == |u| then "" else u[h + 1..])
  }

  lemma {:induction false} NickRun(nick: string, rest: string, i: nat)
    requires i <= |nick| && '!' !in nick && '@' !in nick && nick != ""
    requires |rest| != 1 && (rest != "" ==> rest[0] == '!' || rest[0] == '@')
    ensures NickEnd(nick + rest, i) == |nick|
    decreases |nick| - i
  {
    if i < |nick| {
      assert (nick + rest)[i] == nick[i] && nick[i] in nick;
      NickRun(nick, rest, i + 1);
    } else if rest != "" {
      assert (nick + rest)[i] == rest[0];
    }
  }

  lemma {:induction false} HostRun(user: string, rest: string, i: nat)
    requires i <= |user| && '@' !in user && user != "" && |rest| != 1 && (rest != "" ==> rest[0] == '@')
    ensures HostMark(user + rest, i) == |user|
    decreases |user| - i
  {
    if i < |user| {
      assert (user + rest)[i] == user[i] && user[i] in user;
      HostRun(user, rest, i + 1);
    } else if rest != "" {
      assert (user + rest)[i] == rest[0];
    }
  }

  function ShownSender(p: Sender): string {
    p.nick + (if p.user == "" then "" else "!" + p.user) + (if p.host == "" then "" else "@" + p.host)
  }

  // A sender reads back from its printed form, parts missing or not.
  lemma SenderReadsBack(p: Sender)
    requires p.nick != "" && '!' !in p.nick && '@' !in p.nick && '@' !in p.user
    ensures ParsePrefix(ShownSender(p)) == p
  {
    hide HostMark;
    var host := if p.host == "" then "" else "@" + p.host;
    var rest := (if p.user == "" then "" else "!" + p.user) + host;
    var s := p.nick + rest;
    assert ShownSender(p) == s;
    NickRun(p.nick, rest, 0);
    assert s[..|p.nick|] == p.nick && s[|p.nick|..] == rest;
    if rest != "" {
      assert s[|p.nick|] == rest[0] && s[|p.nick| + 1..] == rest[1..];
      if p.user != "" {
        assert rest[1..] == p.user + host;
        UserRead(p.user, p.host);
      } else {
        assert rest[1..] == p.host;
      }
    }
  }

  lemma UserRead(user: string, host: string)
    requires user != "" && '@' !in user
    ensures var u := user + (if host == "" then "" else "@" + host);
            var h := HostMark(u, 0);
            u[..h] == user && (if h == |u| then "" else u[h + 1..]) == host
  {
    var at := if host == "" then "" else "@" + host;
    HostRun(user, at, 0);
    assert (user + at)[..|user|] == user;
    if host != "" { assert (user + at)[|user| + 1..] == host; }
  }
}
