// One-shot timers on a heap with lazy cancellation, refined to a table of live timers.
module Sched {
  import opened TimerHeap

  // What a callback does to the scheduler. A callback that panics does a prefix.
  datatype Action = Plan(at: int, script: seq<Action>) | Cancel(tag: nat)

  datatype Outcome = Fired(tag: nat) | Cancelled(tag: nat)

  // The timers still to fire, the callbacks held by the tags handed out so far, the
  // last tag, and what became of the other timers.
  datatype State = State(live: map<nat, Timer>, fns: map<nat, seq<Action>>, last: nat, done: seq<Outcome>)

  const EMPTY := State(map[], map[], 0, [])

  function Scheduled(s: State, at: int, script: seq<Action>): State {
    var tag := s.last + 1;
    State(s.live[tag := Timer(at, tag)], s.fns[tag := script], tag, s.done)
  }

  function Unscheduled(s: State, tag: nat): State {
    if tag in s.live then State(s.live - {tag}, s.fns - {tag}, s.last, s.done + [Cancelled(tag)]) else s
  }

  function Do(s: State, a: Action): State {
    match a
    case Plan(at, script) => Scheduled(s, at, script)
    case Cancel(tag) => Unscheduled(s, tag)
  }

  function DoAll(s: State, script: seq<Action>): State {
    if script == [] then s else Do(DoAll(s, script[..|script| - 1]), script[|script| - 1])
  }

  function Script(s: State, tag: nat): seq<Action> {
    if tag in s.fns then s.fns[tag] else []
  }

  function Fire(s: State, t: Timer): State {
    DoAll(s.(done := s.done + [Fired(t.tag)]), Script(s, t.tag))
  }

  function FireAll(s: State, due: seq<Timer>): State {
    if due == [] then s else Fire(FireAll(s, due[..|due| - 1]), due[|due| - 1])
  }

  // The timers due by now, in firing order.
  ghost predicate IsDue(live: map<nat, Timer>, now: int, due: seq<Timer>) {
    && (forall i, j :: 0 <= i < j < |due| ==> Less(due[i], due[j]))
    && (forall t :: t in due <==> Live(live, t) && t.at <= now)
  }

  predicate Live(live: map<nat, Timer>, t: Timer) {
    t.tag in live && live[t.tag] == t
  }

  function Tags(due: seq<Timer>): set<nat> {
    set t | t in due :: t.tag
  }

  // Everything due is taken off before the first callback runs.
  function Ran(s: State, due: seq<Timer>): State {
    FireAll(s.(live := s.live - Tags(due)), due)
  }

  // There is only one such order.
  lemma DueUnique(live: map<nat, Timer>, now: int, a: seq<Timer>, b: seq<Timer>)
    requires IsDue(live, now, a) && IsDue(live, now, b)
    ensures a == b
  {
    SortedUnique(a, b);
  }

  lemma BothEmpty(a: seq<Timer>, b: seq<Timer>)
    requires forall t :: t in a <==> t in b
    ensures a == [] <==> b == []
  {
    if a != [] { assert a[0] in b; }
    if b != [] { assert b[0] in a; }
  }

  lemma {:induction false} SortedUnique(a: seq<Timer>, b: seq<Timer>)
    requires forall i, j :: 0 <= i < j < |a| ==> Less(a[i], a[j])
    requires forall i, j :: 0 <= i < j < |b| ==> Less(b[i], b[j])
    requires forall t :: t in a <==> t in b
    ensures a == b
  {
    BothEmpty(a, b);
    if a != [] {
      assert a[0] in b && b[0] in a;
      assert a[0] == b[0];
      forall t ensures t in a[1..] <==> t in b[1..] {
        if t in a[1..] { assert t in b && t != a[0]; }
        if t in b[1..] { assert t in a && t != b[0]; }
      }
      SortedUnique(a[1..], b[1..]);
      assert a == [a[0]] + a[1..] && b == [b[0]] + b[1..];
    }
  }

  // --- the scheduler ------------------------------------------------------------

  // The heap holds every live timer once, and besides those only cancelled ones.
  ghost predicate Holds(h: seq<Timer>, live: map<nat, Timer>, fns: map<nat, seq<Action>>, last: nat) {
    && (forall t :: t in h ==> Known(t, live, fns, last))
    && (forall tag {:trigger live[tag]} :: tag in live ==> live[tag].tag == tag && live[tag] in h && tag in fns)
    && (forall tag {:trigger tag in fns} :: tag in fns ==> 1 <= tag <= last)
    && Distinct(h)
  }

  ghost predicate Known(t: Timer, live: map<nat, Timer>, fns: map<nat, seq<Action>>, last: nat) {
    && 1 <= t.tag <= last && (t.tag in fns <==> t.tag in live) && (t.tag in live ==> live[t.tag] == t)
  }

  ghost predicate Distinct(h: seq<Timer>) {
    forall t :: multiset(h)[t] <= 1
  }

  class Sched {
    const heap: Heap
    var pending: map<nat, Timer>
    var fns: map<nat, seq<Action>>
    var last: nat
    ghost var done: seq<Outcome>

    ghost predicate Valid()
      reads this, heap
    {
      Ordered(heap.h) && Holds(heap.h, pending, fns, last)
    }

    ghost function Now(): State
      reads this
    {
      State(pending, fns, last, done)
    }

    constructor ()
      ensures Valid() && fresh(heap) && Now() == EMPTY
    {
      heap := new Heap();
      pending, fns, last, done := map[], map[], 0, [];
    }

    method Schedule(at: int, script: seq<Action>) returns (tag: nat)
      requires Valid()
      modifies this, heap
      ensures Valid() && tag == old(last) + 1 && Now() == Scheduled(old(Now()), at, script)
    {
      last := last + 1;
      var t := Timer(at, last);
      heap.Push(t);
      pending := pending[last := t];
      fns := fns[last := script];
      tag := last;
      HoldsPush(old(heap.h), heap.h, old(pending), old(fns), old(last), t, script);
    }

    // The entry stays in the heap and is skipped when it surfaces.
    method Unschedule(tag: nat) returns (found: bool)
      requires Valid()
      modifies this
      ensures Valid() && found == (tag in old(pending)) && Now() == Unscheduled(old(Now()), tag)
    {
      found := tag in pending;
      if found {
        pending := pending - {tag};
        fns := fns - {tag};
        done := done + [Cancelled(tag)];
      }
    }

    method DropCancelled()
      requires Valid()
      modifies heap
      ensures Valid() && (heap.h == [] || heap.h[0].tag in pending)
    {
      hide Ordered, Holds;
      while |heap.h| > 0 && heap.h[0].tag !in fns
        invariant Valid()
        decreases |heap.h|
      {
        ghost var h := heap.h;
        var t := heap.Pop();
        Popped(h, heap.h, pending, fns, last);
        PopDead(h, heap.h, pending, fns, last);
      }
      if heap.h != [] { HeadKnown(heap.h, pending, fns, last); }
    }

    // How long until the earliest live timer is due, if there is one.
    method NextIn(now: int) returns (some: bool, wait: int)
      requires Valid()
      modifies heap
      ensures Valid()
      ensures some <==> pending != map[]
      ensures some ==> exists tag :: tag in pending && Earliest(pending, tag)
                                     && wait == if pending[tag].at > now then pending[tag].at - now else 0
    {
      hide Ordered;
      DropCancelled();
      if |heap.h| == 0 {
        return false, 0;
      }
      var t := heap.h[0];
      HeadKnown(heap.h, pending, fns, last);
      forall tag | tag in pending ensures t.at <= pending[tag].at {
        RootLeast(heap.h, pending[tag]);
      }
      assert Earliest(pending, t.tag);
      return true, if t.at - now > 0 then t.at - now else 0;
    }

    // Run one callback; a panic only cuts its script short.
    method RunCallback(t: Timer)
      requires Valid()
      modifies this, heap
      ensures Valid() && Now() == Fire(old(Now()), t)
    {
      hide Ordered, Holds, Do;
      ghost var s := old(Now()).(done := done + [Fired(t.tag)]);
      done := done + [Fired(t.tag)];
      var script := if t.tag in fns then fns[t.tag] else [];
      for i := 0 to |script|
        invariant Valid() && Now() == DoAll(s, script[..i])
      {
        assert script[..i + 1][..i] == script[..i];
        Perform(script[i]);
      }
      assert script[..|script|] == script;
    }

    method Perform(a: Action)
      requires Valid()
      modifies this, heap
      ensures Valid() && Now() == Do(old(Now()), a)
    {
      hide Ordered, Holds;
      match a
      case Plan(at, script) =>
        var _ := Schedule(at, script);
      case Cancel(tag) =>
        var _ := Unschedule(tag);
    }

    // Fire everything due now, in order; what a callback schedules waits.
    method RunDue(now: int) returns (n: nat, ghost due: seq<Timer>)
      requires Valid()
      modifies this, heap
      ensures Valid() && n == |due|
      ensures IsDue(old(pending), now, due) && Now() == Ran(old(Now()), due)
    {
      hide Ordered, Holds, Fire, IsDue;
      var todo := Collect(now);
      due := todo;
      ghost var s := Now();
      for i := 0 to |todo|
        invariant Valid() && Now() == FireAll(s, todo[..i])
      {
        assert todo[..i + 1][..i] == todo[..i];
        RunCallback(todo[i]);
      }
      assert todo[..|todo|] == todo;
      n := |todo|;
    }

    // Take off everything due by now.
    method Collect(now: int) returns (due: seq<Timer>)
      requires Valid()
      modifies this, heap
      ensures Valid() && IsDue(old(pending), now, due)
      ensures Now() == old(Now()).(live := old(pending) - Tags(due))
    {
      hide Ordered, Holds, Collected, IsDue;
      due := [];
      CollectStarts(heap.h, pending, now);
      LiveTags(heap.h, pending, fns, last);
      while |heap.h| > 0 && !(heap.h[0].at > now)
        invariant Valid() && Collected(old(pending), pending, due, heap.h, now)
        invariant fns == old(fns) && last == old(last) && done == old(done)
        decreases |heap.h|
      {
        ghost var h := heap.h;
        HeadKnown(h, pending, fns, last);
        var t := heap.Pop();
        Popped(h, heap.h, pending, fns, last);
        if t.tag !in fns {
          PopDead(h, heap.h, pending, fns, last);
          CollectDead(old(pending), pending, due, h, heap.h, now);
          continue;
        }
        PopLive(h, heap.h, pending, fns, last);
        CollectLive(old(pending), pending, due, h, heap.h, now);
        pending := pending - {t.tag};
        due := due + [t];
      }
      CollectEnds(heap.h, old(pending), pending, fns, last, due, now);
    }
  }

  ghost predicate Earliest(live: map<nat, Timer>, tag: nat)
    requires tag in live
  {
    forall x :: x in live ==> live[tag].at <= live[x].at
  }

  lemma HoldsPush(h: seq<Timer>, h': seq<Timer>, live: map<nat, Timer>, fns: map<nat, seq<Action>>, last: nat,
                  t: Timer, script: seq<Action>)
    requires Holds(h, live, fns, last) && t.tag == last + 1 && multiset(h') == multiset(h) + multiset{t}
    ensures Holds(h', live[t.tag := t], fns[t.tag := script], t.tag)
  {
    forall x ensures x in h' <==> x in h || x == t {
      assert x in multiset(h') <==> x in multiset(h) || x == t;
    }
    assert t !in h;
  }

  lemma OneLess(h: seq<Timer>, h': seq<Timer>, x: Timer)
    requires h != [] && multiset(h') + multiset{h[0]} == multiset(h)
    ensures multiset(h')[x] == multiset(h)[x] - (if x == h[0] then 1 else 0)
  {
    assert (multiset(h') + multiset{h[0]})[x] == multiset(h)[x];
  }

  // The popped entry went before every other one.
  lemma Popped(h: seq<Timer>, h': seq<Timer>, live: map<nat, Timer>, fns: map<nat, seq<Action>>, last: nat)
    requires Ordered(h) && Holds(h, live, fns, last) && h != [] && multiset(h') + multiset{h[0]} == multiset(h)
    ensures Rest(h, h') && Distinct(h')
  {
    forall x ensures multiset(h')[x] == multiset(h)[x] - (if x == h[0] then 1 else 0) { OneLess(h, h', x); }
    assert h[0] in multiset(h);
    forall x ensures x in h' <==> x in h && x != h[0] {
      assert x in h' <==> x in multiset(h');
      assert x in h <==> x in multiset(h);
    }
    forall x | x in h' ensures Less(h[0], x) {
      var k :| 0 <= k < |h| && h[k] == x;
      FirstIsLeast(h, k);
    }
  }

  // What is left of a heap after its first entry.
  ghost predicate Rest(h: seq<Timer>, h': seq<Timer>)
    requires h != []
  {
    && (forall x :: x in h' <==> x in h && x != h[0])
    && (forall x :: x in h' ==> Less(h[0], x))
  }

  lemma RootLeast(h: seq<Timer>, x: Timer)
    requires Ordered(h) && x in h
    ensures h[0].at <= x.at
  {
    var k :| 0 <= k < |h| && h[k] == x;
    FirstIsLeast(h, k);
  }

  lemma HeadKnown(h: seq<Timer>, live: map<nat, Timer>, fns: map<nat, seq<Action>>, last: nat)
    requires Holds(h, live, fns, last) && h != []
    ensures h[0].tag in fns <==> Live(live, h[0])
    ensures h[0].tag in fns <==> h[0].tag in live
  {
    assert h[0] in h;
    assert Known(h[0], live, fns, last);
  }

  lemma PopDead(h: seq<Timer>, h': seq<Timer>, live: map<nat, Timer>, fns: map<nat, seq<Action>>, last: nat)
    requires Holds(h, live, fns, last) && h != [] && Rest(h, h') && Distinct(h') && h[0].tag !in fns
    ensures Holds(h', live, fns, last)
  {}

  lemma PopLive(h: seq<Timer>, h': seq<Timer>, live: map<nat, Timer>, fns: map<nat, seq<Action>>, last: nat)
    requires Holds(h, live, fns, last) && h != [] && Rest(h, h') && Distinct(h') && h[0].tag in live
    ensures Holds(h', live - {h[0].tag}, fns, last)
  {
    forall t | t in h' ensures Known(t, live - {h[0].tag}, fns, last) {
      assert Known(t, live, fns, last) && Known(h[0], live, fns, last);
    }
  }

  // Collected so far: due timers in order, all before what is still in the heap.
  ghost predicate Collected(was: map<nat, Timer>, live: map<nat, Timer>, due: seq<Timer>, h: seq<Timer>, now: int) {
    && live == was - Tags(due)
    && (forall i, j :: 0 <= i < j < |due| ==> Less(due[i], due[j]))
    && (forall t :: t in due ==> Live(was, t) && t.at <= now)
    && (forall t, x :: t in due && x in h ==> Less(t, x))
  }

  lemma LiveTags(h: seq<Timer>, live: map<nat, Timer>, fns: map<nat, seq<Action>>, last: nat)
    requires Holds(h, live, fns, last)
    ensures forall tag :: tag in live ==> live[tag].tag == tag
  {}

  lemma CollectStarts(h: seq<Timer>, live: map<nat, Timer>, now: int)
    ensures Collected(live, live, [], h, now)
  {
    assert Tags([]) == {};
  }

  lemma CollectDead(was: map<nat, Timer>, live: map<nat, Timer>, due: seq<Timer>, h: seq<Timer>, h': seq<Timer>, now: int)
    requires Collected(was, live, due, h, now) && h != [] && Rest(h, h')
    ensures Collected(was, live, due, h', now)
  {}

  lemma CollectLive(was: map<nat, Timer>, live: map<nat, Timer>, due: seq<Timer>, h: seq<Timer>, h': seq<Timer>, now: int)
    requires Collected(was, live, due, h, now) && h != [] && Rest(h, h') && Live(live, h[0]) && h[0].at <= now
    ensures Collected(was, live - {h[0].tag}, due + [h[0]], h', now)
  {
    var more := due + [h[0]];
    assert h[0] in h;
    assert Tags(more) == Tags(due) + {h[0].tag} by {
      assert more[|due|] == h[0];
      forall t | t in due ensures t in more {}
    }
    assert live - {h[0].tag} == was - Tags(more);
  }

  lemma CollectEnds(h: seq<Timer>, was: map<nat, Timer>, live: map<nat, Timer>, fns: map<nat, seq<Action>>, last: nat,
                    due: seq<Timer>, now: int)
    requires Ordered(h) && Holds(h, live, fns, last) && Collected(was, live, due, h, now)
    requires h == [] || h[0].at > now
    requires forall tag :: tag in was ==> was[tag].tag == tag
    ensures IsDue(was, now, due) && live == was - Tags(due)
  {
    forall t | Live(was, t) && t.at <= now ensures t in due {
      if t.tag in live {
        assert live[t.tag] in h;
        RootLeast(h, t);
      } else {
        var x :| x in due && x.tag == t.tag;
        assert Live(was, x);
      }
    }
  }
}
