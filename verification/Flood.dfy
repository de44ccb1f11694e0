// The outbound queue: a high-priority line first, then one line per channel in turn,
// about one event a second.
module Flood {
  const GENERIC := "#__IRC__#"
  const SECOND: int := 1000000000
  const MAX_WAIT: int := 3 * SECOND
  const LONG_LINE: nat := 80
  const PREFIX := "PRIVMSG "

  // --- buckets --------------------------------------------------------------------

  // A space and a colon at p, with at least one character, and no line break, before.
  predicate Ends(line: string, p: nat) {
    && |PREFIX| < p && p + 1 < |line| && line[p] == ' ' && line[p + 1] == ':'
    && '\n' !in line[|PREFIX|..p]
  }

  predicate Addressed(line: string, p: nat) {
    PREFIX <= line && Ends(line, p)
  }

  // The target of a PRIVMSG, up to the first space and colon; other lines share a bucket.
  ghost predicate IsBucket(line: string, b: string) {
    if p: nat :| Addressed(line, p) then
      exists q: nat :: Addressed(line, q) && b == line[|PREFIX|..q] && forall r: nat :: r < q ==> !Addressed(line, r)
    else b == GENERIC
  }

  // Any line has exactly one bucket.
  lemma BucketUnique(line: string, a: string, b: string)
    requires IsBucket(line, a) && IsBucket(line, b)
    ensures a == b
  {
    if p: nat :| Addressed(line, p) {
      var q: nat :| Addressed(line, q) && a == line[|PREFIX|..q] && forall r: nat :: r < q ==> !Addressed(line, r);
      var t: nat :| Addressed(line, t) && b == line[|PREFIX|..t] && forall r: nat :: r < t ==> !Addressed(line, r);
      assert q == t;
    }
  }

  // A message to the target, with the text after it.
  ghost predicate Targets(line: string, target: string, text: string) {
    line == "PRIVMSG " + target + " :" + text && target != "" && '\n' !in target
  }

  lemma AddressedIs(line: string, p: nat)
    ensures Addressed(line, p) <==> 8 < p && p + 1 < |line| && Targets(line, line[8..p], line[p + 2..])
  {
    if 8 < p && p + 1 < |line| {
      var t, x := line[8..p], line[p + 2..];
      assert line == line[..8] + t + line[p..p + 2] + x;
      assert "PRIVMSG " <= line <==> line[..8] == "PRIVMSG ";
      assert line[p] == ' ' && line[p + 1] == ':' <==> line[p..p + 2] == " :";
      if Targets(line, t, x) { assert line[..8] == "PRIVMSG " && line[p..p + 2] == " :"; }
    }
  }

  lemma TargetsIs(line: string, target: string, text: string)
    requires Targets(line, target, text)
    ensures var p := 8 + |target|;
            p + 1 < |line| && line[8..p] == target && line[p + 2..] == text && Addressed(line, p)
  {
    var p := 8 + |target|;
    assert line[8..p] == target && line[p + 2..] == text;
    AddressedIs(line, p);
  }

  // A line that is a message goes to the bucket of its target, the shortest one there can
  // be; any other line goes to the shared bucket.
  lemma BucketIs(line: string, b: string)
    ensures IsBucket(line, b) <==>
            if exists t, x :: Targets(line, t, x)
            then (exists x :: Targets(line, b, x)) && forall t, x :: Targets(line, t, x) ==> |b| <= |t|
            else b == "#__IRC__#"
  {
    hide Targets, Addressed;
    forall p: nat ensures Addressed(line, p) <==> 8 < p && p + 1 < |line| && Targets(line, line[8..p], line[p + 2..]) {
      AddressedIs(line, p);
    }
    if t, x :| Targets(line, t, x) {
      TargetsIs(line, t, x);
      if IsBucket(line, b) { BucketTargets(line, b); }
      if (exists x :: Targets(line, b, x)) && forall t, x :: Targets(line, t, x) ==> |b| <= |t| { TargetsBucket(line, b); }
    } else {
      assert forall p: nat :: !Addressed(line, p);
    }
  }

  lemma BucketTargets(line: string, b: string)
    requires IsBucket(line, b) && exists p: nat :: Addressed(line, p)
    ensures (exists x :: Targets(line, b, x)) && forall t, x :: Targets(line, t, x) ==> |b| <= |t|
  {
    var q: nat :| Addressed(line, q) && b == line[|PREFIX|..q] && forall r: nat :: r < q ==> !Addressed(line, r);
    AddressedIs(line, q);
    hide Targets, Addressed;
    forall t, x | Targets(line, t, x) ensures |b| <= |t| {
      TargetsIs(line, t, x);
    }
  }

  lemma TargetsBucket(line: string, b: string)
    requires (exists x :: Targets(line, b, x)) && forall t, x :: Targets(line, t, x) ==> |b| <= |t|
    ensures IsBucket(line, b)
  {
    hide Targets, Addressed;
    var x :| Targets(line, b, x);
    TargetsIs(line, b, x);
    var q := 8 + |b|;
    forall r: nat | r < q ensures !Addressed(line, r) { AddressedIs(line, r); }
  }

  method BucketOf(line: string) returns (b: string)
    ensures IsBucket(line, b)
  {
    if !(PREFIX <= line) {
      return GENERIC;
    }
    var p := |PREFIX|;
    while p < |line| && line[p] != '\n'
      invariant |PREFIX| <= p <= |line| && '\n' !in line[|PREFIX|..p]
      invariant forall r: nat :: r < p ==> !Addressed(line, r)
    {
      if p > |PREFIX| && line[p] == ' ' && p + 1 < |line| && line[p + 1] == ':' {
        assert Addressed(line, p);
        return line[|PREFIX|..p];
      }
      assert line[|PREFIX|..p + 1] == line[|PREFIX|..p] + [line[p]];
      p := p + 1;
    }
    forall r: nat ensures !Addressed(line, r) {
      if r > p && p < |line| { assert r <= |line| ==> line[p] in line[|PREFIX|..r]; }
    }
    b := GENERIC;
  }

  // --- the queue --------------------------------------------------------------------

  // High-priority lines, lines per bucket, the rotation, and when recent events were.
  datatype State = State(high: seq<string>, buckets: map<string, seq<string>>, order: seq<string>, window: seq<int>)

  const EMPTY := State([], map[], [], [])

  function Lines(s: State, b: string): seq<string> {
    if b in s.buckets then s.buckets[b] else []
  }

  function Pushed(s: State, b: string, line: string): State {
    s.(order := if b in s.buckets then s.order else s.order + [b],
       buckets := s.buckets[b := Lines(s, b) + [line]])
  }

  // The first bucket of the rotation gives up its first line; it goes to the back of
  // the rotation if it has more.
  function Popped(s: State): State
    requires s.order != []
  {
    var b, rest := s.order[0], s.order[1..];
    if |Lines(s, b)| > 1 then s.(order := rest + [b], buckets := s.buckets[b := Lines(s, b)[1..]])
    else s.(order := rest, buckets := s.buckets - {b})
  }

  function Truncated(d: int): int {
    if d >= 0 then d - d % SECOND else -(-d - -d % SECOND)
  }

  // How long to wait before the next event; zero allows it.
  function Delay(window: seq<int>, now: int): int {
    if window == [] then 0
    else
      var wait := Truncated(window[0] + |window| * SECOND - now);
      if wait > MAX_WAIT then MAX_WAIT else if wait > 0 then wait else 0
  }

  lemma DelayRange(window: seq<int>, now: int)
    ensures 0 <= Delay(window, now) <= MAX_WAIT
  {}

  // What a line costs beyond one event: its length in units of 80, rounded.
  function Extra(line: string): nat {
    if |line| > LONG_LINE then (2 * |line| + LONG_LINE) / (2 * LONG_LINE) else 0
  }

  // The clock readings taken as a line leaves.
  function Stamps(now: nat -> int, n: nat): seq<int> {
    if n == 0 then [] else Stamps(now, n - 1) + [now(n)]
  }

  function Recorded(window: seq<int>, line: string, now: nat -> int): seq<int> {
    (if window == [] then [] else window[1..]) + Stamps(now, 1 + Extra(line))
  }

  datatype Answer = Line(line: string) | Wait(d: int) | Empty

  predicate Sends(s: State, now: nat -> int) {
    (s.high != [] || s.order != []) && Delay(s.window, now(0)) == 0
  }

  function Leaving(s: State): string
    requires s.high != [] || s.order != []
  {
    if s.high != [] then s.high[0]
    else if Lines(s, s.order[0]) != [] then Lines(s, s.order[0])[0] else ""
  }

  function Sent(s: State, now: nat -> int): State
    requires s.high != [] || s.order != []
  {
    Taken(s).(window := Recorded(s.window, Leaving(s), now))
  }

  function Taken(s: State): State
    requires s.high != [] || s.order != []
  {
    if s.high != [] then s.(high := s.high[1..]) else Popped(s)
  }

  // The rotation names each bucket that has lines, once.
  ghost predicate Rotation(s: State) {
    Turns(s.order, s.buckets)
  }

  ghost predicate Turns(order: seq<string>, buckets: map<string, seq<string>>) {
    && (forall i, j :: 0 <= i < j < |order| ==> order[i] != order[j])
    && (forall b :: b in order <==> b in buckets)
    && (forall b :: b in buckets ==> buckets[b] != [])
  }

  lemma SlotKeeps(s: State, window: seq<int>)
    requires s.high != [] || s.order != []
    ensures Leaving(s.(window := window)) == Leaving(s) && Taken(s.(window := window)) == Taken(s).(window := window)
  {}

  lemma PushRotates(s: State, b: string, line: string)
    requires Rotation(s)
    ensures Rotation(Pushed(s, b, line))
  {}

  lemma PopRotates(s: State)
    requires Rotation(s) && s.order != []
    ensures Rotation(Popped(s))
  {
    var b, rest := s.order[0], s.order[1..];
    assert s.order == [b] + rest && b !in rest && b in s.buckets;
    hide Lines;
    forall x ensures x in Popped(s).order <==> x in Popped(s).buckets {
      assert x in s.order <==> x == b || x in rest;
    }
  }

  lemma TakenRotates(s: State)
    requires Rotation(s) && (s.high != [] || s.order != [])
    ensures Turns(Taken(s).order, Taken(s).buckets)
  {
    hide Turns;
    if s.high == [] { PopRotates(s); }
  }

  class Queue {
    var high: seq<string>
    var buckets: map<string, seq<string>>
    var order: seq<string>
    var window: seq<int>

    function Now(): State
      reads this
    {
      State(high, buckets, order, window)
    }

    constructor ()
      ensures Now() == EMPTY && Rotation(Now())
    {
      high, buckets, order, window := [], map[], [], [];
    }

    method Push(line: string) returns (ghost b: string)
      requires Rotation(Now())
      modifies this`buckets, this`order
      ensures Rotation(Now()) && IsBucket(line, b) && Now() == Pushed(old(Now()), b, line)
    {
      hide Turns;
      var bucket := BucketOf(line);
      b := bucket;
      if bucket !in buckets {
        order := order + [bucket];
      }
      buckets := buckets[bucket := (if bucket in buckets then buckets[bucket] else []) + [line]];
      PushRotates(old(Now()), b, line);
    }

    method PushHigh(line: string)
      modifies this`high
      ensures Now() == old(Now()).(high := old(high) + [line])
    {
      high := high + [line];
    }

    // Which wait, if any; going ahead drops the oldest event.
    method TakeSlot(now: int) returns (wait: int)
      modifies this`window
      ensures wait == Delay(old(window), now)
      ensures window == if wait == 0 && old(window) != [] then old(window)[1..] else old(window)
    {
      if |window| == 0 {
        return 0;
      }
      var due := window[0] + |window| * SECOND;
      wait := Truncated(due - now);
      if wait > MAX_WAIT {
        return MAX_WAIT;
      }
      if wait > 0 {
        return;
      }
      wait := 0;
      window := window[1..];
    }

    method PopRoundRobin() returns (line: string)
      requires Rotation(Now()) && order != []
      modifies this`buckets, this`order
      ensures line == Lines(old(Now()), old(order)[0])[0] && Now() == Popped(old(Now()))
    {
      var bucket := order[0];
      order := order[1..];
      var lines := buckets[bucket];
      line := lines[0];
      if |lines| > 1 {
        buckets := buckets[bucket := lines[1..]];
        order := order + [bucket];
      } else {
        buckets := buckets - {bucket};
      }
    }

    // The next line: high-priority ones first.
    method Dequeue() returns (line: string)
      requires Rotation(Now()) && (high != [] || order != [])
      modifies this`high, this`buckets, this`order
      ensures line == Leaving(old(Now())) && Now() == Taken(old(Now()))
    {
      if |high| > 0 {
        line := high[0];
        high := high[1..];
      } else {
        line := PopRoundRobin();
      }
    }

    // Record when the line left, once more for every unit of a long one.
    method Record(line: string, now: nat -> int)
      modifies this`window
      ensures window == old(window) + Stamps(now, 1 + Extra(line))
    {
      assert Stamps(now, 1) == [now(1)];
      window := window + [now(1)];
      if |line| > LONG_LINE {
        var extra := (2 * |line| + LONG_LINE) / (2 * LONG_LINE);
        for k := 0 to extra
          invariant window == old(window) + Stamps(now, 1 + k)
        {
          window := window + [now(2 + k)];
        }
      }
    }

    method Next(now: nat -> int) returns (a: Answer)
      requires Rotation(Now())
      modifies this
      ensures Rotation(Now())
      ensures match a
              case Empty => old(high) == [] && old(order) == [] && Now() == old(Now())
              case Wait(d) => (old(high) != [] || old(order) != []) && 0 < d == Delay(old(window), now(0)) <= MAX_WAIT
                              && Now() == old(Now())
              case Line(line) => Sends(old(Now()), now) && line == Leaving(old(Now())) && Now() == Sent(old(Now()), now)
    {
      hide Taken, Leaving, Turns, Delay, Stamps, Extra;
      DelayRange(window, now(0));
      if |high| == 0 && |order| == 0 {
        return Empty;
      }
      var wait := TakeSlot(now(0));
      if wait > 0 {
        return Wait(wait);
      }
      SlotKeeps(old(Now()), window);
      var line := Dequeue();
      Record(line, now);
      TakenRotates(old(Now()));
      return Line(line);
    }
  }
}
