// Whole runs of the outbound queue: order, fairness and rate.
module FloodRuns {
  import opened Flood

  datatype Lane = High | Bucket(name: string)
  datatype Item = Item(lane: Lane, line: string)

  datatype Event = Push(b: string, line: string) | PushHigh(line: string) | Next(now: nat -> int)

  // The queue, everything pushed, everything sent, and when.
  datatype Sys = Sys(s: State, puts: seq<Item>, sent: seq<Item>, times: seq<int>)

  const START := Sys(EMPTY, [], [], [])

  ghost predicate Enabled(e: Event) {
    e.Push? ==> IsBucket(e.line, e.b)
  }

  function Step(y: Sys, e: Event): Sys {
    match e
    case Push(b, line) => y.(s := Pushed(y.s, b, line), puts := y.puts + [Item(Bucket(b), line)])
    case PushHigh(line) => y.(s := y.s.(high := y.s.high + [line]), puts := y.puts + [Item(High, line)])
    case Next(now) =>
      if Sends(y.s, now) then
        Sys(Sent(y.s, now), y.puts, y.sent + [Item(Chosen(y.s), Leaving(y.s))], y.times + [now(1)])
      else y
  }

  // Where the next line comes from.
  function Chosen(s: State): Lane
    requires s.high != [] || s.order != []
  {
    if s.high != [] then High else Bucket(s.order[0])
  }

  ghost predicate Legal(es: seq<Event>) {
    forall e :: e in es ==> Enabled(e)
  }

  function Run(y: Sys, es: seq<Event>): Sys {
    if es == [] then y else Step(Run(y, es[..|es| - 1]), es[|es| - 1])
  }

  // --- order ------------------------------------------------------------------------

  function Of(items: seq<Item>, l: Lane): seq<string> {
    if items == [] then []
    else
      var x := items[|items| - 1];
      Of(items[..|items| - 1], l) + (if x.lane == l then [x.line] else [])
  }

  function Queued(s: State, l: Lane): seq<string> {
    if l == High then s.high else Lines(s, l.name)
  }

  lemma OfMore(items: seq<Item>, x: Item, l: Lane)
    ensures Of(items + [x], l) == Of(items, l) + (if x.lane == l then [x.line] else [])
  {
    assert (items + [x])[..|items|] == items;
  }

  lemma NextOrders(s: State, now: nat -> int, l: Lane)
    requires Rotation(s) && Sends(s, now)
    ensures Queued(s, l) == (if Chosen(s) == l then [Leaving(s)] else []) + Queued(Sent(s, now), l)
    ensures Rotation(Sent(s, now))
  {
    hide Recorded;
    if s.high == [] {
      PopRotates(s);
      PopTakes(s, l);
    }
  }

  lemma PopTakes(s: State, l: Lane)
    requires Rotation(s) && s.order != []
    ensures Lines(s, s.order[0]) != []
    ensures Queued(s, l) == (if l == Bucket(s.order[0]) then [Lines(s, s.order[0])[0]] else []) + Queued(Popped(s), l)
  {
    assert s.order[0] in s.order;
  }

  // Per lane, what was sent and what is queued is what was pushed, in that order; and
  // the rotation stays right.
  lemma {:induction false} FirstInFirstOut(es: seq<Event>, l: Lane)
    ensures Rotation(Run(START, es).s)
    ensures var y := Run(START, es); Of(y.puts, l) == Of(y.sent, l) + Queued(y.s, l)
  {
    hide Rotation, Sent, Sends, Leaving;
    if es == [] {
      StartRotates();
    } else {
      var e, y := es[|es| - 1], Run(START, es[..|es| - 1]);
      FirstInFirstOut(es[..|es| - 1], l);
      StepOrders(y, e, l);
    }
  }

  lemma StartRotates()
    ensures Rotation(EMPTY)
  {}

  lemma StepOrders(y: Sys, e: Event, l: Lane)
    requires Rotation(y.s) && Of(y.puts, l) == Of(y.sent, l) + Queued(y.s, l)
    ensures Rotation(Step(y, e).s) && Of(Step(y, e).puts, l) == Of(Step(y, e).sent, l) + Queued(Step(y, e).s, l)
  {
    hide Rotation, Sent, Sends, Leaving, Of, Queued, Pushed;
    match e
    case Push(b, line) =>
      PushRotates(y.s, b, line);
      OfMore(y.puts, Item(Bucket(b), line), l);
      PushQueues(y.s, b, line, l);
    case PushHigh(line) =>
      OfMore(y.puts, Item(High, line), l);
      HighRotates(y.s, y.s.high + [line]);
      HighQueues(y.s, line, l);
    case Next(now) =>
      if Sends(y.s, now) {
        MaySend(y.s, now);
        NextOrders(y.s, now, l);
        OfMore(y.sent, Item(Chosen(y.s), Leaving(y.s)), l);
      }
  }

  lemma PushQueues(s: State, b: string, line: string, l: Lane)
    ensures Queued(Pushed(s, b, line), l) == Queued(s, l) + (if l == Bucket(b) then [line] else [])
  {}

  lemma HighQueues(s: State, line: string, l: Lane)
    ensures Queued(s.(high := s.high + [line]), l) == Queued(s, l) + (if l == High then [line] else [])
  {}

  lemma MaySend(s: State, now: nat -> int)
    requires Sends(s, now)
    ensures s.high != [] || s.order != []
  {}

  lemma HighRotates(s: State, high: seq<string>)
    requires Rotation(s)
    ensures Rotation(s.(high := high))
  {}

  // What was pushed is what the pushes of the run say.
  lemma {:induction false} PutsAre(es: seq<Event>)
    ensures Run(START, es).puts == Pushes(es)
  {
    hide Sends, Sent, Leaving, Pushed;
    if es != [] { PutsAre(es[..|es| - 1]); }
  }

  function Pushes(es: seq<Event>): seq<Item> {
    if es == [] then []
    else
      Pushes(es[..|es| - 1]) + match es[|es| - 1]
                               case Push(b, line) => [Item(Bucket(b), line)]
                               case PushHigh(line) => [Item(High, line)]
                               case Next(_) => []
  }

  // --- fairness ---------------------------------------------------------------------

  // Nothing sent since `from` came from bucket b.
  ghost predicate Passed(y: Sys, from: nat, b: string)
    requires from <= |y.sent|
  {
    forall k :: from <= k < |y.sent| ==> y.sent[k].lane != Bucket(b)
  }

  function Served(sent: seq<Item>): nat {
    if sent == [] then 0 else Served(sent[..|sent| - 1]) + (if sent[|sent| - 1].lane == High then 0 else 1)
  }

  // Bucket b has moved up by one place for each bucket served since, and the buckets
  // served since, if they are back in the rotation, stand behind it.
  ghost predicate Fairly(y: Sys, from: nat, b: string, place: nat)
    requires from <= |y.sent|
  {
    && Served(y.sent[from..]) <= place
    && var p := place - Served(y.sent[from..]);
       p < |y.s.order| && y.s.order[p] == b
       && (forall k, q :: from <= k < |y.sent| && 0 <= q <= p && q < |y.s.order| ==> y.sent[k].lane != Bucket(y.s.order[q]))
       && (forall i, j :: from <= i < j < |y.sent| && y.sent[i].lane == y.sent[j].lane ==> y.sent[i].lane == High)
  }

  lemma PushFair(y: Sys, e: Event, from: nat, b: string, place: nat)
    requires from <= |y.sent| && Fairly(y, from, b, place) && !e.Next?
    ensures Step(y, e).sent == y.sent && Fairly(Step(y, e), from, b, place)
  {}

  lemma NextFair(y: Sys, now: nat -> int, from: nat, b: string, place: nat)
    requires Rotation(y.s) && from <= |y.sent| && Fairly(y, from, b, place)
    requires Sends(y.s, now) && Chosen(y.s) != Bucket(b)
    ensures Fairly(Step(y, Next(now)), from, b, place)
  {
    hide Fairly, Leaving, Sent, Sends;
    MaySend(y.s, now);
    var y', x := Step(y, Next(now)), Item(Chosen(y.s), Leaving(y.s));
    assert y'.sent[from..] == y.sent[from..] + [x];
    assert Served(y'.sent[from..]) == Served(y.sent[from..]) + (if x.lane == High then 0 else 1) by {
      assert (y.sent[from..] + [x])[..|y.sent| - from] == y.sent[from..];
    }
    hide Served;
    if x.lane != High { NextMoves(y, now, from, b, place); } else { NextWaits(y, now, from, b, place); }
  }

  lemma NextWaits(y: Sys, now: nat -> int, from: nat, b: string, place: nat)
    requires from <= |y.sent| && Fairly(y, from, b, place) && Sends(y.s, now) && y.s.high != []
    requires Served(Step(y, Next(now)).sent[from..]) == Served(y.sent[from..])
    ensures Fairly(Step(y, Next(now)), from, b, place)
  {
    hide Served, Leaving;
    var y' := Step(y, Next(now));
    assert y'.sent[..|y.sent|] == y.sent && y'.sent[|y.sent|].lane == High && y'.s.order == y.s.order;
  }

  lemma NextMoves(y: Sys, now: nat -> int, from: nat, b: string, place: nat)
    requires Rotation(y.s) && from <= |y.sent| && Fairly(y, from, b, place) && Sends(y.s, now)
    requires y.s.high == [] && y.s.order[0] != b
    requires Served(Step(y, Next(now)).sent[from..]) == Served(y.sent[from..]) + 1
    ensures Fairly(Step(y, Next(now)), from, b, place)
  {
    hide Served;
    var y' := Step(y, Next(now));
    var p := place - Served(y.sent[from..]);
    assert p > 0;
    assert forall q :: 0 <= q < p ==> y'.s.order[q] == y.s.order[q + 1];
    forall k, q | from <= k < |y'.sent| && 0 <= q <= p - 1 ensures y'.sent[k].lane != Bucket(y'.s.order[q]) {
      assert y'.s.order[q] == y.s.order[q + 1];
      if k < |y.sent| { assert y'.sent[k] == y.sent[k]; }
    }
    assert forall i :: from <= i < |y.sent| ==> y.sent[i].lane != Bucket(y.s.order[0]);
    assert y'.sent[..|y.sent|] == y.sent && y'.sent[|y.sent|].lane == Bucket(y.s.order[0]);
  }

  lemma {:induction false} StaysFair(y: Sys, es: seq<Event>, b: string, place: nat)
    requires Rotation(y.s) && place < |y.s.order| && y.s.order[place] == b
    requires |y.sent| <= |Run(y, es).sent| && Passed(Run(y, es), |y.sent|, b)
    ensures Rotation(Run(y, es).s) && |y.sent| <= |Run(y, es).sent| && Fairly(Run(y, es), |y.sent|, b, place)
  {
    hide Rotation, Fairly, Sends, Sent;
    if es == [] {
      FairStart(y, b, place);
    } else {
      var init, e := es[..|es| - 1], es[|es| - 1];
      var m := Run(y, init);
      SentGrows(y, init);
      StepGrows(m, e);
      StaysFair(y, init, b, place);
      StepRotates(m, e);
      if !e.Next? {
        PushFair(m, e, |y.sent|, b, place);
      } else if Sends(m.s, e.now) {
        MaySend(m.s, e.now);
        assert Step(m, e).sent[|m.sent|].lane == Chosen(m.s);
        NextFair(m, e.now, |y.sent|, b, place);
      }
    }
  }

  lemma FairStart(y: Sys, b: string, place: nat)
    requires Rotation(y.s) && place < |y.s.order| && y.s.order[place] == b
    ensures Fairly(y, |y.sent|, b, place)
  {}

  lemma StepGrows(y: Sys, e: Event)
    ensures y.sent <= Step(y, e).sent
  {}

  lemma {:induction false} SentGrows(y: Sys, es: seq<Event>)
    ensures y.sent <= Run(y, es).sent
  {
    if es != [] {
      SentGrows(y, es[..|es| - 1]);
      StepGrows(Run(y, es[..|es| - 1]), es[|es| - 1]);
    }
  }

  lemma StepRotates(y: Sys, e: Event)
    requires Rotation(y.s)
    ensures Rotation(Step(y, e).s)
  {
    hide Turns;
    match e
    case Push(b, line) => PushRotates(y.s, b, line);
    case PushHigh(line) =>
    case Next(now) => if Sends(y.s, now) { NextOrders(y.s, now, High); }
  }

  // While a bucket waits with lines queued, no other bucket is served twice, and it is
  // served after exactly as many others as stood before it.
  lemma Fairness(es: seq<Event>, more: seq<Event>, b: string, place: nat)
    requires place < |Run(START, es).s.order| && Run(START, es).s.order[place] == b
    requires |Run(START, es).sent| <= |Run(Run(START, es), more).sent|
    requires Passed(Run(Run(START, es), more), |Run(START, es).sent|, b)
    ensures var from, y := |Run(START, es).sent|, Run(Run(START, es), more);
            && (forall i, j :: from <= i < j < |y.sent| && y.sent[i].lane == y.sent[j].lane ==> y.sent[i].lane == High)
            && var served := Served(y.sent[from..]);
               served <= place && place - served < |y.s.order| && y.s.order[place - served] == b
  {
    hide Run, Fairly, Rotation, Served, Passed;
    FirstInFirstOut(es, High);
    StaysFair(Run(START, es), more, b, place);
    FairSays(Run(Run(START, es), more), |Run(START, es).sent|, b, place);
  }

  lemma FairSays(y: Sys, from: nat, b: string, place: nat)
    requires from <= |y.sent| && Fairly(y, from, b, place)
    ensures forall i, j :: from <= i < j < |y.sent| && y.sent[i].lane == y.sent[j].lane ==> y.sent[i].lane == High
    ensures var served := Served(y.sent[from..]);
            served <= place && place - served < |y.s.order| && y.s.order[place - served] == b
  {
    hide Served;
  }

  // --- rate --------------------------------------------------------------------------

  // Clock readings only move on, and fall on whole seconds.
  ghost predicate Ticks(now: nat -> int) {
    && (forall i, j :: i <= j ==> now(i) <= now(j))
    && (forall k :: now(k) % SECOND == 0)
  }

  ghost predicate OnSeconds(es: seq<Event>) {
    forall e :: e in es && e.Next? ==> Ticks(e.now)
  }

  lemma Truncation(d: int)
    ensures Truncated(d) > 0 <==> d >= SECOND
  {
    if d >= 0 { assert d == d / SECOND * SECOND + d % SECOND; }
  }

  lemma Whole(a: int, b: int, n: nat)
    requires a % SECOND == 0 && b % SECOND == 0
    ensures b - a > (n - 1) * SECOND <==> b - a >= n * SECOND
  {
    var x, y := a / SECOND, b / SECOND;
    assert a == x * SECOND && b == y * SECOND;
    assert b - a == (y - x) * SECOND;
  }

  // A line may leave once more than all but one of the window's seconds have passed; on
  // whole seconds that is all of them.
  lemma AllowedExactly(window: seq<int>, now: int)
    requires window != []
    ensures Delay(window, now) == 0 <==> now - window[0] > (|window| - 1) * 1000000000
    ensures now % 1000000000 == 0 && window[0] % 1000000000 == 0 ==>
              (Delay(window, now) == 0 <==> now - window[0] >= |window| * 1000000000)
  {
    Truncation(window[0] + |window| * SECOND - now);
    if now % SECOND == 0 && window[0] % SECOND == 0 { Whole(window[0], now, |window|); }
  }

  // A wait asked for is what is missing, cut to whole seconds, and never more than three.
  lemma WaitIs(window: seq<int>, now: int)
    requires window != []
    ensures var due := window[0] + |window| * 1000000000 - now;
            && (due >= 3000000000 ==> Delay(window, now) == 3000000000)
            && (due < 1000000000 ==> Delay(window, now) == 0)
            && (0 <= due < 3000000000 ==> Delay(window, now) % 1000000000 == 0 && Delay(window, now) <= due < Delay(window, now) + 1000000000)
  {
    var due := window[0] + |window| * SECOND - now;
    if due >= 0 { assert due == due / SECOND * SECOND + due % SECOND; }
  }

  lemma {:induction false} StampsLate(now: nat -> int, n: nat)
    requires Ticks(now)
    ensures |Stamps(now, n)| == n
    ensures forall j :: 0 <= j < n ==> Stamps(now, n)[j] >= now(1) && Stamps(now, n)[j] % SECOND == 0
  {
    if n > 0 { StampsLate(now, n - 1); }
  }

  // Event j of the window, with the whole window behind it, is late enough for n lines
  // since the first.
  ghost predicate Spaced(window: seq<int>, first: int, n: nat) {
    && window != []
    && (forall j :: 0 <= j < |window| ==> window[j] % SECOND == 0)
    && (forall j :: 0 <= j < |window| ==> window[j] + |window| * SECOND >= first + (n + j) * SECOND)
  }

  lemma FirstSpaced(line: string, now: nat -> int)
    requires Ticks(now)
    ensures Spaced(Recorded([], line, now), now(1), 1)
  {
    hide Extra;
    StampsLate(now, 1 + Extra(line));
  }

  lemma NextSpaced(window: seq<int>, line: string, now: nat -> int, first: int, n: nat)
    requires Ticks(now) && Spaced(window, first, n) && Delay(window, now(0)) == 0
    ensures Spaced(Recorded(window, line, now), first, n + 1)
    ensures now(1) >= first + n * SECOND
  {
    hide Extra, Delay, Stamps;
    StampsLate(now, 1 + Extra(line));
    AllowedExactly(window, now(0));
    var w, e := Recorded(window, line, now), Extra(line);
    assert now(0) <= now(1) && now(0) % SECOND == 0;
    assert |w| == |window| + e;
    forall j | 0 <= j < |w|
      ensures w[j] % SECOND == 0 && w[j] + |w| * SECOND >= first + (n + 1 + j) * SECOND
    {
      if j < |window| - 1 {
        assert w[j] == window[j + 1];
      } else {
        assert w[j] == Stamps(now, 1 + e)[j - (|window| - 1)];
      }
    }
  }

  ghost predicate Paced(y: Sys) {
    && (if y.times == [] then y.s.window == [] else Spaced(y.s.window, y.times[0], |y.times|))
    && (forall i :: 0 <= i < |y.times| ==> y.times[i] >= y.times[0] + i * SECOND)
    && |y.times| == |y.sent|
  }

  lemma StepPaced(y: Sys, e: Event)
    requires Paced(y) && (e.Next? ==> Ticks(e.now))
    ensures Paced(Step(y, e))
  {
    hide Spaced, Recorded, Leaving, Delay;
    if e.Next? && Sends(y.s, e.now) {
      if y.times == [] {
        FirstSpaced(Leaving(y.s), e.now);
      } else {
        NextSpaced(y.s.window, Leaving(y.s), e.now, y.times[0], |y.times|);
      }
    }
  }

  // On a whole-second clock, line i after the first leaves at least i seconds after it,
  // whatever the mix of high-priority, short and long lines.
  lemma {:induction false} RateBound(es: seq<Event>)
    requires OnSeconds(es)
    ensures var y := Run(START, es);
            Paced(y) && forall i :: 0 <= i < |y.times| ==> y.times[i] >= y.times[0] + i * 1000000000
  {
    hide Spaced;
    if es != [] {
      RateBound(es[..|es| - 1]);
      StepPaced(Run(START, es[..|es| - 1]), es[|es| - 1]);
    }
  }

  // --- what a line costs -----------------------------------------------------------------

  // The extra events of a line: one for every 80 bytes of a long one, rounded to the nearest.
  ghost predicate Costs(line: string, n: nat) {
    if |line| <= 80 then n == 0 else 160 * n <= 2 * |line| + 80 < 160 * (n + 1)
  }

  lemma CostIs(line: string, n: nat)
    ensures Costs(line, n) <==> n == Extra(line)
  {
    var d := 2 * |line| + 80;
    assert d == d / 160 * 160 + d % 160;
  }

  lemma {:induction false} StampsAre(now: nat -> int, n: nat)
    ensures Stamps(now, n) == seq(n, i requires 0 <= i < n => now(i + 1))
  {
    if n > 0 { StampsAre(now, n - 1); }
  }

  // A line that leaves drops the oldest event and adds one, and its extra ones, at the
  // clock's next readings.
  lemma LineCosts(s: State, now: nat -> int, n: nat)
    requires Sends(s, now) && Costs(Leaving(s), n)
    ensures Sent(s, now).window == (if s.window == [] then [] else s.window[1..])
                                   + seq(1 + n, i requires 0 <= i < 1 + n => now(i + 1))
    ensures |Sent(s, now).window| == (if s.window == [] then 0 else |s.window| - 1) + 1 + n
  {
    hide Taken, Extra, Leaving, Stamps;
    CostIs(Leaving(s), n);
    StampsAre(now, 1 + n);
  }

  // Until another line leaves, the window stays as it is.
  lemma {:induction false} WindowWaits(y: Sys, es: seq<Event>)
    ensures |Run(y, es).times| >= |y.times|
    ensures |Run(y, es).times| == |y.times| ==> Run(y, es).s.window == y.s.window && Run(y, es).times == y.times
  {
    if es != [] { WindowWaits(y, es[..|es| - 1]); }
  }

  // On a whole-second clock the line after one that leaves an empty window is kept back a
  // second for that line, and one more for every extra event it cost.
  lemma {:induction false} LongWait(y: Sys, now: nat -> int, n: nat, es: seq<Event>)
    requires y.s.window == [] && Sends(y.s, now) && Costs(Leaving(y.s), n)
    requires Ticks(now) && OnSeconds(es)
    requires |Run(Step(y, Next(now)), es).times| > |y.times| + 1
    ensures var ts := Run(Step(y, Next(now)), es).times;
            ts[|y.times|] == now(1) && ts[|y.times| + 1] >= now(1) + (1 + n) * 1000000000
  {
    hide Delay, Taken, Leaving, Extra;
    var z := Step(y, Next(now));
    LineCosts(y.s, now, n);
    WindowWaits(z, es);
    var init, e := es[..|es| - 1], es[|es| - 1];
    var m := Run(z, init);
    assert forall x :: x in init ==> x in es;
    WindowWaits(z, init);
    if |m.times| > |y.times| + 1 {
      LongWait(y, now, n, init);
    } else {
      assert e.Next? && Sends(m.s, e.now) && e in es;
      AllowedExactly(m.s.window, e.now(0));
    }
  }

  // --- where the bound fails -----------------------------------------------------------

  ghost predicate Rising(ts: seq<int>) {
    forall i, j :: 0 <= i < j < |ts| ==> ts[i] < ts[j]
  }

  ghost predicate Short(lines: seq<string>) {
    forall i :: 0 <= i < |lines| ==> |lines[i]| <= LONG_LINE
  }

  function Puts(lines: seq<string>): seq<Event> {
    seq(|lines|, i requires 0 <= i < |lines| => PushHigh(lines[i]))
  }

  function Asks(ts: seq<int>): seq<Event> {
    seq(|ts|, i requires 0 <= i < |ts| => Next(_ => ts[i]))
  }

  function Items(lines: seq<string>): seq<Item> {
    seq(|lines|, i requires 0 <= i < |lines| => Item(High, lines[i]))
  }

  lemma {:induction false} PutsQueue(lines: seq<string>)
    ensures Run(START, Puts(lines)) == Sys(EMPTY.(high := lines), Items(lines), [], [])
  {
    hide Run;
    if lines == [] {
      RunNone(START);
    } else {
      var init, line := lines[..|lines| - 1], lines[|lines| - 1];
      PutsQueue(init);
      assert Puts(lines) == Puts(init) + [PushHigh(line)];
      assert Items(lines) == Items(init) + [Item(High, line)];
      assert init + [line] == lines;
      RunMore(START, Puts(init), PushHigh(line));
    }
  }

  // After the first so many askings as many lines are out, and only the last counts.
  lemma {:induction false} AsksSend(lines: seq<string>, ts: seq<int>)
    requires |ts| <= |lines| && Short(lines) && Rising(ts)
    ensures Run(START, Puts(lines) + Asks(ts)) ==
            Sys(EMPTY.(high := lines[|ts|..], window := if ts == [] then [] else [ts[|ts| - 1]]),
                Items(lines), Items(lines)[..|ts|], ts)
  {
    hide Run, Extra, Delay, Stamps;
    PutsQueue(lines);
    if ts == [] {
      assert Puts(lines) + Asks(ts) == Puts(lines);
    } else {
      var init, t := ts[..|ts| - 1], ts[|ts| - 1];
      AsksSend(lines, init);
      assert Puts(lines) + Asks(ts) == (Puts(lines) + Asks(init)) + [Next(_ => t)] by {
        assert Asks(ts)[|ts| - 1] == Next(_ => t);
      }
      RunMore(START, Puts(lines) + Asks(init), Next(_ => t));
      AskSends(lines, init, t);
    }
  }

  lemma AskSends(lines: seq<string>, init: seq<int>, t: int)
    requires |init| < |lines| && Short(lines) && Rising(init + [t])
    ensures var before := Sys(EMPTY.(high := lines[|init|..], window := if init == [] then [] else [init[|init| - 1]]),
                              Items(lines), Items(lines)[..|init|], init);
            Step(before, Next(_ => t)) ==
            Sys(EMPTY.(high := lines[|init| + 1..], window := [t]), Items(lines), Items(lines)[..|init| + 1], init + [t])
  {
    hide Extra, Delay;
    ShortLine(lines[|init|]);
    if init != [] {
      assert (init + [t])[|init| - 1] < (init + [t])[|init|];
      AllowedExactly([init[|init| - 1]], t);
    } else {
      NoDelay(t);
    }
    var s := EMPTY.(high := lines[|init|..], window := if init == [] then [] else [init[|init| - 1]]);
    ShortLeaves(s, t);
    assert lines[|init|..][1..] == lines[|init| + 1..];
    assert Items(lines)[..|init| + 1] == Items(lines)[..|init|] + [Item(High, lines[|init|])];
  }

  lemma ShortLeaves(s: State, t: int)
    requires s.high != [] && Extra(s.high[0]) == 0 && |s.window| <= 1 && Delay(s.window, t) == 0
    ensures Sends(s, _ => t) && Chosen(s) == High && Leaving(s) == s.high[0]
    ensures Sent(s, _ => t) == s.(high := s.high[1..], window := [t])
  {
    hide Extra, Delay;
    var now := (k: nat) => t;
    OneStamp(now);
    assert Recorded(s.window, s.high[0], now) == [t];
  }

  lemma OneStamp(now: nat -> int)
    ensures Stamps(now, 1) == [now(1)]
  {
    assert Stamps(now, 0) == [];
  }

  lemma NoDelay(now: int)
    ensures Delay([], now) == 0
  {}

  // Between whole seconds there is no bound: the wait is cut to whole seconds, and a window
  // of one event asks for less than one. Any number of short high-priority lines leave at
  // any rising times, a nanosecond apart if so asked.
  lemma BurstsBetweenSeconds(lines: seq<string>, ts: seq<int>)
    requires |ts| == |lines| && Short(lines) && Rising(ts)
    ensures Legal(Puts(lines) + Asks(ts))
    ensures var y := Run(START, Puts(lines) + Asks(ts)); y.times == ts && y.sent == y.puts == Items(lines)
  {
    AsksSend(lines, ts);
  }

  lemma RunNone(y: Sys)
    ensures Run(y, []) == y
  {}

  lemma RunMore(y: Sys, es: seq<Event>, e: Event)
    ensures Run(y, es + [e]) == Step(Run(y, es), e)
  {
    assert (es + [e])[..|es|] == es;
  }

  lemma ShortLine(line: string)
    requires |line| <= LONG_LINE
    ensures Extra(line) == 0
  {}
}
