// The event bus: synchronous, re-entrant dispatch with a call chain, and modules thrown
// out when a handler panics.
module Bus {
  import opened Basics

  datatype HookID = HookID(name: string, event: string)

  // What a handler does to the bus before it returns or panics.
  datatype Act =
    | Submit(event: string)
    | Declare(event: string)
    | Register(name: string, event: string, handler: Handler)
    | Unregister(name: string)

  datatype End = Return(stop: bool, payload: Option<nat>) | Panic

  datatype Handler = Handler(acts: seq<Act>, end: End)

  datatype Hook = Hook(name: string, handler: Handler)

  type Table = map<string, seq<Hook>>

  // One handler call: whether the hook was in the table as it began, and the calls made
  // while it ran.
  datatype Call = Call(id: HookID, listed: bool, inner: seq<Call>)

  // --- the table ------------------------------------------------------------------

  function Declared(t: Table, event: string): Table {
    if event in t then t else t[event := []]
  }

  function Replaced(hooks: seq<Hook>, name: string, h: Handler): seq<Hook> {
    if hooks == [] then [Hook(name, h)]
    else if hooks[0].name == name then [Hook(name, h)] + hooks[1..]
    else [hooks[0]] + Replaced(hooks[1..], name, h)
  }

  function Registered(t: Table, name: string, event: string, h: Handler): Table {
    if event in t then t[event := Replaced(t[event], name, h)] else t
  }

  function Without(hooks: seq<Hook>, name: string): seq<Hook> {
    if hooks == [] then []
    else (if hooks[0].name == name then [] else [hooks[0]]) + Without(hooks[1..], name)
  }

  function Unloaded(t: Table, name: string): Table {
    map event | event in t :: Without(t[event], name)
  }

  function Hooks(t: Table, event: string): seq<Hook> {
    if event in t then t[event] else []
  }

  // Every pair a handler can ever register is in u.
  ghost predicate Within(h: Handler, u: set<HookID>) {
    forall i :: 0 <= i < |h.acts| ==> ActWithin(h.acts[i], u)
  }

  ghost predicate ActWithin(a: Act, u: set<HookID>) {
    a.Register? ==> HookID(a.name, a.event) in u && Within(a.handler, u)
  }

  ghost predicate HooksWithin(hooks: seq<Hook>, event: string, u: set<HookID>) {
    forall i :: 0 <= i < |hooks| ==> HookID(hooks[i].name, event) in u && Within(hooks[i].handler, u)
  }

  ghost predicate TableWithin(t: Table, u: set<HookID>) {
    forall event :: event in t ==> HooksWithin(t[event], event, u)
  }

  // A module has at most one hook per event.
  ghost predicate OneEach(hooks: seq<Hook>) {
    forall i, j :: 0 <= i < j < |hooks| ==> hooks[i].name != hooks[j].name
  }

  ghost predicate Sound(t: Table, u: set<HookID>) {
    TableWithin(t, u) && forall event :: event in t ==> OneEach(t[event])
  }

  lemma {:induction false} ReplacedHas(hooks: seq<Hook>, name: string, h: Handler)
    ensures Hook(name, h) in Replaced(hooks, name, h)
    ensures forall x :: x in Replaced(hooks, name, h) ==> x == Hook(name, h) || x in hooks
    ensures forall x :: x in hooks && x.name != name ==> x in Replaced(hooks, name, h)
  {
    if hooks != [] {
      ReplacedHas(hooks[1..], name, h);
      assert hooks == [hooks[0]] + hooks[1..];
    }
  }

  lemma {:induction false} ReplacedIs(hooks: seq<Hook>, name: string, h: Handler)
    requires OneEach(hooks)
    ensures OneEach(Replaced(hooks, name, h)) && Hook(name, h) in Replaced(hooks, name, h)
    ensures forall x :: x in Replaced(hooks, name, h) ==> x == Hook(name, h) || (x in hooks && x.name != name)
    ensures forall x :: x in hooks && x.name != name ==> x in Replaced(hooks, name, h)
  {
    ReplacedHas(hooks, name, h);
    if hooks != [] && hooks[0].name != name {
      ReplacedIs(hooks[1..], name, h);
      var r := Replaced(hooks[1..], name, h);
      forall j | 0 <= j < |r| ensures r[j].name != hooks[0].name { assert r[j] in r; }
    }
  }

  // The first hook of the module is replaced in place; without one, a hook is added.
  lemma {:induction false} ReplacedAt(hooks: seq<Hook>, name: string, h: Handler, i: nat)
    requires i <= |hooks| && forall j :: 0 <= j < i ==> hooks[j].name != name
    requires i < |hooks| ==> hooks[i].name == name
    ensures Replaced(hooks, name, h) == if i < |hooks| then hooks[i := Hook(name, h)] else hooks + [Hook(name, h)]
  {
    if i > 0 {
      ReplacedAt(hooks[1..], name, h, i - 1);
      assert hooks == [hooks[0]] + hooks[1..];
    }
  }

  lemma {:induction false} WithoutHas(hooks: seq<Hook>, name: string)
    ensures forall x :: x in Without(hooks, name) <==> x in hooks && x.name != name
  {
    if hooks != [] {
      WithoutHas(hooks[1..], name);
      assert hooks == [hooks[0]] + hooks[1..];
    }
  }

  lemma {:induction false} WithoutIs(hooks: seq<Hook>, name: string)
    requires OneEach(hooks)
    ensures OneEach(Without(hooks, name))
    ensures forall x :: x in Without(hooks, name) <==> x in hooks && x.name != name
  {
    WithoutHas(hooks, name);
    if hooks != [] {
      WithoutIs(hooks[1..], name);
      var r := Without(hooks[1..], name);
      forall j | 0 <= j < |r| ensures r[j].name != hooks[0].name {
        assert r[j] in hooks[1..];
      }
    }
  }

  // A registered hook is in the table, the only one of its module for the event; every other
  // hook stays. Declaring an event adds it without hooks.
  lemma RegisteredIs(t: Table, u: set<HookID>, name: string, event: string, h: Handler)
    requires Sound(t, u) && event in t
    ensures Registered(t, name, event, h).Keys == t.Keys
    ensures forall x :: x in Registered(t, name, event, h)[event] <==> x == Hook(name, h) || (x in t[event] && x.name != name)
    ensures forall e :: e in t && e != event ==> Registered(t, name, event, h)[e] == t[e]
  {
    ReplacedIs(t[event], name, h);
  }

  lemma DeclaredIs(t: Table, event: string)
    ensures event in Declared(t, event) && (event !in t ==> Declared(t, event)[event] == [])
    ensures forall e :: e in t ==> e in Declared(t, event) && Declared(t, event)[e] == t[e]
    ensures forall e :: e in Declared(t, event) ==> e in t || e == event
  {}

  lemma RegisterSound(t: Table, u: set<HookID>, name: string, event: string, h: Handler)
    requires Sound(t, u) && HookID(name, event) in u && Within(h, u)
    ensures Sound(Registered(t, name, event, h), u)
  {
    if event in t {
      ReplacedIs(t[event], name, h);
      var r := Replaced(t[event], name, h);
      assert HooksWithin(t[event], event, u);
      forall i | 0 <= i < |r| ensures HookID(r[i].name, event) in u && Within(r[i].handler, u) { assert r[i] in r; }
    }
  }

  lemma UnloadSound(t: Table, u: set<HookID>, name: string)
    requires Sound(t, u)
    ensures Sound(Unloaded(t, name), u)
  {
    var t' := Unloaded(t, name);
    forall event | event in t' ensures HooksWithin(t'[event], event, u) && OneEach(t'[event]) {
      WithoutIs(t[event], name);
      assert HooksWithin(t[event], event, u);
      var r := t'[event];
      forall i | 0 <= i < |r| ensures HookID(r[i].name, event) in u && Within(r[i].handler, u) { assert r[i] in r; }
    }
  }

  // --- what a dispatch does ---------------------------------------------------------

  // The hooks a dispatch calls: in order, those not already on the chain, up to one
  // that stops it.
  function Called(hooks: seq<Hook>, event: string, chain: set<HookID>): seq<Hook> {
    if hooks == [] then []
    else if HookID(hooks[0].name, event) in chain then Called(hooks[1..], event, chain)
    else if Stops(hooks[0].handler) then [hooks[0]]
    else [hooks[0]] + Called(hooks[1..], event, chain)
  }

  predicate Stops(h: Handler) {
    h.end.Return? && h.end.stop
  }

  function Payloads(hooks: seq<Hook>): seq<nat> {
    if hooks == [] then []
    else Payload(hooks[0].handler) + Payloads(hooks[1..])
  }

  function Payload(h: Handler): seq<nat> {
    if h.end.Return? && h.end.payload.Some? then [h.end.payload.value] else []
  }

  // The value this hook returns, if it returns one.
  predicate Gives(x: Hook, v: nat) {
    match x.handler.end
    case Return(_, Some(w)) => v == w
    case _ => false
  }

  predicate GivesSome(x: Hook) {
    match x.handler.end
    case Return(_, Some(_)) => true
    case _ => false
  }

  // The values are, in order, those of the hooks at these places, and no other hook has one.
  ghost predicate Collects(hooks: seq<Hook>, at: seq<nat>, values: seq<nat>) {
    && |at| == |values|
    && (forall k :: 0 <= k < |at| ==> at[k] < |hooks| && Gives(hooks[at[k]], values[k]))
    && (forall k, m :: 0 <= k < m < |at| ==> at[k] < at[m])
    && (forall i :: 0 <= i < |hooks| && GivesSome(hooks[i]) ==> i in at)
  }

  // A dispatch collects one value for each called hook that returns one, in call order, and
  // nothing for the others.
  lemma {:induction false} PayloadsExactly(hooks: seq<Hook>) returns (at: seq<nat>)
    ensures Collects(hooks, at, Payloads(hooks))
  {
    if hooks == [] {
      at := [];
    } else {
      var init, x := hooks[..|hooks| - 1], hooks[|hooks| - 1];
      assert hooks == init + [x];
      at := PayloadsExactly(init);
      PayloadsMore(init, x);
      CollectsMore(init, at, Payloads(init), x);
      if GivesSome(x) { at := at + [|init|]; }
    }
  }

  lemma CollectsMore(init: seq<Hook>, at: seq<nat>, values: seq<nat>, x: Hook)
    requires Collects(init, at, values)
    ensures if GivesSome(x) then Collects(init + [x], at + [|init|], values + Payload(x.handler))
            else Collects(init + [x], at, values + Payload(x.handler))
  {
    var hooks := init + [x];
    forall i | 0 <= i < |init| ensures hooks[i] == init[i] {}
    if GivesSome(x) {
      var more := at + [|init|];
      forall i | 0 <= i < |hooks| && GivesSome(hooks[i]) ensures i in more {
        if i < |init| { assert i in at; } else { assert more[|at|] == i; }
      }
    }
  }

  // If every called hook returns a value, those are what is collected.
  lemma {:induction false} PayloadsAll(hooks: seq<Hook>, values: seq<nat>)
    requires |values| == |hooks| && forall i :: 0 <= i < |hooks| ==> Gives(hooks[i], values[i])
    ensures Payloads(hooks) == values
  {
    if hooks != [] {
      PayloadsAll(hooks[1..], values[1..]);
      assert values == [values[0]] + values[1..];
    }
  }

  function Ids(hooks: seq<Hook>, event: string): seq<HookID> {
    seq(|hooks|, i requires 0 <= i < |hooks| => HookID(hooks[i].name, event))
  }

  function CallIds(calls: seq<Call>): seq<HookID> {
    seq(|calls|, i requires 0 <= i < |calls| => calls[i].id)
  }

  // No call re-enters a pair that is on the chain, at any depth.
  ghost predicate NoReentry(calls: seq<Call>, chain: set<HookID>) {
    forall i :: 0 <= i < |calls| ==> Enters(calls[i], chain)
  }

  ghost predicate Enters(c: Call, chain: set<HookID>) {
    c.id !in chain && NoReentry(c.inner, chain + {c.id})
  }

  // How often a pair was called, at any depth.
  function Times(calls: seq<Call>, id: HookID): nat {
    if calls == [] then 0 else Times(calls[..|calls| - 1], id) + TimesIn(calls[|calls| - 1], id)
  }

  function TimesIn(c: Call, id: HookID): nat {
    (if c.id == id then 1 else 0) + Times(c.inner, id)
  }

  // All the pairs called, each followed by those called while it ran.
  function AllIds(calls: seq<Call>): seq<HookID> {
    if calls == [] then [] else AllIds(calls[..|calls| - 1]) + [calls[|calls| - 1].id] + AllIds(calls[|calls| - 1].inner)
  }

  lemma {:induction false} TimesAre(calls: seq<Call>, id: HookID)
    ensures Times(calls, id) == multiset(AllIds(calls))[id]
  {
    if calls != [] {
      var init, c := calls[..|calls| - 1], calls[|calls| - 1];
      TimesAre(init, id);
      TimesAre(c.inner, id);
    }
  }

  // Pairs called one inside the other.
  ghost predicate Nested(calls: seq<Call>, ids: seq<HookID>) {
    ids == [] || exists c :: c in calls && c.id == ids[0] && Nested(c.inner, ids[1..])
  }

  // Calls stay within the pairs that exist.
  ghost predicate Known(calls: seq<Call>, u: set<HookID>) {
    forall i :: 0 <= i < |calls| ==> calls[i].id in u && Known(calls[i].inner, u)
  }

  // Calls one inside the other are of different pairs, all of them known and none on the
  // chain; so they never nest deeper than there are pairs left off it.
  lemma {:induction false} DepthBound(calls: seq<Call>, ids: seq<HookID>, chain: set<HookID>, u: set<HookID>)
    requires NoReentry(calls, chain) && Known(calls, u) && Nested(calls, ids)
    ensures forall i :: 0 <= i < |ids| ==> ids[i] in u - chain
    ensures forall i, j :: 0 <= i < j < |ids| ==> ids[i] != ids[j]
    ensures |ids| <= |u - chain|
    decreases ids
  {
    if ids != [] {
      var c :| c in calls && c.id == ids[0] && Nested(c.inner, ids[1..]);
      assert Enters(c, chain) && Known(c.inner, u);
      DepthBound(c.inner, ids[1..], chain + {c.id}, u);
      assert u - (chain + {c.id}) == (u - chain) - {c.id};
      forall i | 0 < i < |ids| ensures ids[i] in (u - chain) - {ids[0]} { assert ids[i] == ids[1..][i - 1]; }
    }
  }

  function Count(counts: map<HookID, nat>, id: HookID): nat {
    if id in counts then counts[id] else 0
  }

  // The counts grew by exactly the calls made.
  lemma CountIs(counts: map<HookID, nat>, id: HookID)
    ensures id in counts ==> Count(counts, id) == counts[id]
    ensures id !in counts ==> Count(counts, id) == 0
  {}

  ghost predicate Tallied(was: map<HookID, nat>, now: map<HookID, nat>, calls: seq<Call>) {
    forall id :: Count(now, id) == Count(was, id) + Times(calls, id)
  }

  lemma {:induction false} TimesAppend(a: seq<Call>, b: seq<Call>, id: HookID)
    ensures Times(a + b, id) == Times(a, id) + Times(b, id)
  {
    if b == [] {
      assert a + b == a;
    } else {
      TimesAppend(a, b[..|b| - 1], id);
      assert (a + b)[..|a + b| - 1] == a + b[..|b| - 1];
    }
  }

  lemma TalliedAppend(c0: map<HookID, nat>, c1: map<HookID, nat>, c2: map<HookID, nat>, a: seq<Call>, b: seq<Call>)
    requires Tallied(c0, c1, a) && Tallied(c1, c2, b)
    ensures Tallied(c0, c2, a + b)
  {
    forall id ensures Count(c2, id) == Count(c0, id) + Times(a + b, id) { TimesAppend(a, b, id); }
  }

  lemma TalliedCall(was: map<HookID, nat>, now: map<HookID, nat>, c: Call)
    requires Tallied(was, now, c.inner)
    ensures Tallied(was, now[c.id := Count(now, c.id) + 1], [c])
  {
    forall id ensures Times([c], id) == TimesIn(c, id) {
      assert [c][..0] == [];
    }
  }

  // All the calls made here are new on the chain, and known.
  ghost predicate Fine(calls: seq<Call>, chain: set<HookID>, u: set<HookID>) {
    NoReentry(calls, chain) && Known(calls, u)
  }

  lemma FineAppend(a: seq<Call>, b: seq<Call>, chain: set<HookID>, u: set<HookID>)
    requires Fine(a, chain, u) && Fine(b, chain, u)
    ensures Fine(a + b, chain, u)
  {}

  lemma FineCall(c: Call, chain: set<HookID>, u: set<HookID>)
    requires c.id !in chain && c.id in u && Fine(c.inner, chain + {c.id}, u)
    ensures Fine([c], chain, u)
  {
    assert Enters(c, chain);
  }

  // What calling the hooks before number i has come to; `done` are those called.
  ghost predicate SoFar(hooks: seq<Hook>, i: nat, event: string, chain: set<HookID>,
                        done: seq<Hook>, calls: seq<Call>, collected: seq<nat>) {
    && i <= |hooks| && Called(hooks, event, chain) == done + Called(hooks[i..], event, chain)
    && CallIds(calls) == Ids(done, event) && collected == Payloads(done)
  }

  lemma SoFarStart(hooks: seq<Hook>, event: string, chain: set<HookID>)
    ensures SoFar(hooks, 0, event, chain, [], [], [])
  {}

  lemma SoFarSkip(hooks: seq<Hook>, i: nat, event: string, chain: set<HookID>,
                  done: seq<Hook>, calls: seq<Call>, collected: seq<nat>)
    requires SoFar(hooks, i, event, chain, done, calls, collected) && i < |hooks| && HookID(hooks[i].name, event) in chain
    ensures SoFar(hooks, i + 1, event, chain, done, calls, collected)
  {
    assert hooks[i..][1..] == hooks[i + 1..];
  }

  lemma SoFarCall(hooks: seq<Hook>, i: nat, event: string, chain: set<HookID>,
                  done: seq<Hook>, calls: seq<Call>, collected: seq<nat>, c: Call)
    requires SoFar(hooks, i, event, chain, done, calls, collected) && i < |hooks|
    requires HookID(hooks[i].name, event) !in chain && c.id == HookID(hooks[i].name, event)
    ensures var x := hooks[i];
            if Stops(x.handler)
            then SoFar(hooks, |hooks|, event, chain, done + [x], calls + [c], collected + Payload(x.handler))
            else SoFar(hooks, i + 1, event, chain, done + [x], calls + [c], collected + Payload(x.handler))
  {
    var x, rest := hooks[i], Called(hooks[i + 1..], event, chain);
    assert hooks[i..][1..] == hooks[i + 1..];
    assert done + ([x] + rest) == (done + [x]) + rest && hooks[|hooks|..] == [] && (done + [x]) + [] == done + [x];
    assert Ids(done + [x], event) == Ids(done, event) + [c.id];
    assert CallIds(calls + [c]) == CallIds(calls) + [c.id];
    PayloadsMore(done, x);
  }

  lemma SoFarEnd(hooks: seq<Hook>, event: string, chain: set<HookID>,
                 done: seq<Hook>, calls: seq<Call>, collected: seq<nat>)
    requires SoFar(hooks, |hooks|, event, chain, done, calls, collected)
    ensures var called := Called(hooks, event, chain);
            && done == called && collected == Payloads(called) && CallIds(calls) == Ids(called, event)
            && |calls| == |called| && forall i :: 0 <= i < |calls| ==> calls[i].id == HookID(called[i].name, event)
  {
    assert hooks[|hooks|..] == [] && done + [] == done;
    assert |CallIds(calls)| == |Ids(done, event)|;
    forall i | 0 <= i < |calls| ensures calls[i].id == HookID(done[i].name, event) {
      assert CallIds(calls)[i] == Ids(done, event)[i];
    }
  }

  // A module without hooks.
  ghost predicate Gone(t: Table, name: string) {
    forall event, x :: event in t && x in t[event] ==> x.name != name
  }

  lemma UnloadedGone(t: Table, u: set<HookID>, name: string)
    requires Sound(t, u)
    ensures Gone(Unloaded(t, name), name)
  {
    forall event | event in t ensures forall x :: x in Without(t[event], name) ==> x.name != name {
      WithoutIs(t[event], name);
    }
  }

  ghost predicate Listed(t: Table, id: HookID) {
    exists x :: x in Hooks(t, id.event) && x.name == id.name
  }

  // The last thing the handler does is to unregister the module.
  predicate Drops(h: Handler, name: string) {
    h.acts != [] && h.acts[|h.acts| - 1] == Unregister(name)
  }

  // The table is without the modules this handler dropped at its end.
  ghost predicate Dropped(t: Table, h: Handler) {
    forall name :: Drops(h, name) ==> Gone(t, name)
  }

  lemma DroppedUnloaded(t: Table, u: set<HookID>, h: Handler, name: string)
    requires Sound(t, u) && Dropped(t, h)
    ensures Dropped(Unloaded(t, name), h)
  {
    forall event | event in t ensures forall x :: x in Without(t[event], name) ==> x in t[event] {
      WithoutIs(t[event], name);
    }
  }

  // The first call is to a listed hook; one right after a handler that dropped its module
  // is not.
  ghost predicate Stale(called: seq<Hook>, calls: seq<Call>) {
    && |calls| == |called| && (calls != [] ==> calls[0].listed)
    && forall k {:trigger calls[k]} :: 0 < k < |calls| ==>
         var acts := called[k - 1].handler.acts;
         acts != [] && acts[|acts| - 1] == Unregister(called[k].name) ==> !calls[k].listed
  }

  lemma StaleMore(t: Table, done: seq<Hook>, calls: seq<Call>, x: Hook, c: Call)
    requires Stale(done, calls) && (c.listed <==> Listed(t, c.id)) && x.name == c.id.name
    requires done == [] ==> x in Hooks(t, c.id.event)
    requires done != [] ==> Dropped(t, done[|done| - 1].handler)
    ensures Stale(done + [x], calls + [c])
  {
    if done != [] && Drops(done[|done| - 1].handler, x.name) {
      assert Gone(t, x.name);
    }
  }

  class Bus {
    var events: Table
    var chain: set<HookID>
    var counts: map<HookID, nat>

    constructor ()
      ensures events == map[] && chain == {} && counts == map[]
    {
      events, chain, counts := map[], {}, map[];
    }

    method RegisterEvent(event: string)
      modifies this`events
      ensures events == Declared(old(events), event)
    {
      if event !in events {
        events := events[event := []];
      }
    }

    method RegisterHook(name: string, event: string, h: Handler) returns (ok: bool)
      modifies this`events
      ensures ok == (event in old(events)) && events == Registered(old(events), name, event, h)
    {
      if event !in events {
        return false;
      }
      var hooks := events[event];
      var i := 0;
      while i < |hooks| && hooks[i].name != name
        invariant 0 <= i <= |hooks| && events == old(events)
        invariant forall j :: 0 <= j < i ==> hooks[j].name != name
      {
        i := i + 1;
      }
      ReplacedAt(hooks, name, h, i);
      if i < |hooks| {
        events := events[event := hooks[i := Hook(name, h)]];
      } else {
        events := events[event := hooks + [Hook(name, h)]];
      }
      return true;
    }

    method UnregisterModule(name: string)
      modifies this`events
      ensures events == Unloaded(old(events), name)
    {
      var todo := events.Keys;
      while todo != {}
        invariant todo <= events.Keys == old(events).Keys
        invariant forall e :: e in events ==> events[e] == if e in todo then old(events)[e] else Without(old(events)[e], name)
      {
        var e :| e in todo;
        events := events[e := Without(events[e], name)];
        todo := todo - {e};
      }
    }

    // Dispatch an event to a copy of its hooks: what they do to the table meanwhile
    // changes neither which are called nor what they yield.
    method SubmitEvent(event: string, ghost u: set<HookID>) returns (collected: seq<nat>, ghost calls: seq<Call>)
      requires Sound(events, u)
      modifies this
      ensures Sound(events, u) && chain == old(chain)
      ensures var called := Called(if event in old(events) then old(events)[event] else [], event, old(chain));
              && |calls| == |called| && (forall i :: 0 <= i < |calls| ==> calls[i].id == HookID(called[i].name, event))
              && collected == Payloads(called) && Stale(called, calls)
      ensures Fine(calls, chain, u) && Tallied(old(counts), counts, calls)
      decreases |u - chain|, 1
    {
      hide Sound, NoReentry, Known, Fine, Tallied, Within, SoFar, Called, Payloads, Ids, CallIds, Stale, Dropped, Listed;
      var hooks := Hooks(events, event);
      HooksSound(events, u, event);
      collected, calls := [], [];
      Nothing(counts, chain, u);
      ghost var done: seq<Hook> := [];
      SoFarStart(hooks, event, chain);
      NoneStale();
      for i := 0 to |hooks|
        invariant Sound(events, u) && chain == old(chain)
        invariant SoFar(hooks, i, event, chain, done, calls, collected)
        invariant Fine(calls, chain, u) && Tallied(old(counts), counts, calls)
        invariant Stale(done, calls) && if done == [] then events == old(events) else Dropped(events, done[|done| - 1].handler)
      {
        var x := hooks[i];
        var id := HookID(x.name, event);
        if id in chain {
          SoFarSkip(hooks, i, event, chain, done, calls, collected);
          continue;
        }
        ghost var was, table := counts, events;
        var stop, payload, panicked;
        ghost var c;
        stop, payload, panicked, c := CallHook(id, x.handler, u);
        TalliedAppend(old(counts), was, counts, calls, [c]);
        FineAppend(calls, [c], chain, u);
        SoFarCall(hooks, i, event, chain, done, calls, collected, c);
        StaleMore(table, done, calls, x, c);
        done, calls := done + [x], calls + [c];
        assert collected + [] == collected;
        if panicked {
          continue;
        }
        if payload.Some? {
          collected := collected + [payload.value];
        }
        if stop {
          SoFarEnd(hooks, event, chain, done, calls, collected);
          return;
        }
      }
      SoFarEnd(hooks, event, chain, done, calls, collected);
    }

    // Run one hook on the chain; if it panics its module loses all its hooks.
    method CallHook(id: HookID, h: Handler, ghost u: set<HookID>)
      returns (stop: bool, payload: Option<nat>, panicked: bool, ghost c: Call)
      requires Sound(events, u) && id !in chain && id in u && Within(h, u)
      modifies this
      ensures Sound(events, u) && chain == old(chain)
      ensures panicked == h.end.Panic? && stop == Stops(h) && c.id == id
      ensures payload == if panicked then None else h.end.payload
      ensures panicked ==> Gone(events, id.name)
      ensures (c.listed <==> Listed(old(events), id)) && Dropped(events, h)
      ensures Fine([c], chain, u) && Tallied(old(counts), counts, [c])
      decreases |u - chain|, 0
    {
      hide Sound, NoReentry, Known, Fine, Tallied, Within, Gone, Dropped;
      assert u - (chain + {id}) == (u - chain) - {id};
      chain := chain + {id};
      ghost var inner := Perform(h, u);
      c := Call(id, Listed(old(events), id), inner);
      FineCall(c, old(chain), u);
      TalliedCall(old(counts), counts, c);
      chain := chain - {id};
      counts := counts[id := Count(counts, id) + 1];
      panicked := h.end.Panic?;
      if panicked {
        UnloadSound(events, u, id.name);
        UnloadedGone(events, u, id.name);
        DroppedUnloaded(events, u, h, id.name);
        UnregisterModule(id.name);
        stop, payload := false, None;
      } else {
        stop, payload := h.end.stop, h.end.payload;
      }
    }

    // What the handler does to the bus.
    method Perform(h: Handler, ghost u: set<HookID>) returns (ghost calls: seq<Call>)
      requires Sound(events, u) && Within(h, u)
      modifies this
      ensures Sound(events, u) && chain == old(chain)
      ensures Fine(calls, chain, u) && Tallied(old(counts), counts, calls)
      ensures Dropped(events, h)
      decreases |u - chain|, 2
    {
      hide Sound, NoReentry, Known, Fine, Tallied, Declared, Registered, Unloaded, Gone;
      calls := [];
      Nothing(counts, chain, u);
      for i := 0 to |h.acts|
        invariant Sound(events, u) && chain == old(chain)
        invariant Fine(calls, chain, u) && Tallied(old(counts), counts, calls)
        invariant i > 0 && h.acts[i - 1].Unregister? ==> Gone(events, h.acts[i - 1].name)
      {
        match h.acts[i]
        case Submit(event) =>
          ghost var was := counts;
          var collected;
          ghost var more;
          collected, more := SubmitEvent(event, u);
          TalliedAppend(old(counts), was, counts, calls, more);
          FineAppend(calls, more, chain, u);
          calls := calls + more;
        case Declare(event) =>
          DeclareSound(events, u, event);
          RegisterEvent(event);
        case Register(name, event, x) =>
          assert ActWithin(h.acts[i], u);
          RegisterSound(events, u, name, event, x);
          var _ := RegisterHook(name, event, x);
        case Unregister(name) =>
          UnloadSound(events, u, name);
          UnloadedGone(events, u, name);
          UnregisterModule(name);
      }
    }
  }

  lemma Nothing(counts: map<HookID, nat>, chain: set<HookID>, u: set<HookID>)
    ensures Fine([], chain, u) && Tallied(counts, counts, [])
  {}

  lemma HooksSound(t: Table, u: set<HookID>, event: string)
    requires Sound(t, u)
    ensures HooksWithin(Hooks(t, event), event, u)
  {}

  lemma DeclareSound(t: Table, u: set<HookID>, event: string)
    requires Sound(t, u)
    ensures Sound(Declared(t, event), u)
  {}

  lemma {:induction false} PayloadsMore(hooks: seq<Hook>, x: Hook)
    ensures Payloads(hooks + [x]) == Payloads(hooks) + Payload(x.handler)
  {
    if hooks == [] {
      assert hooks + [x] == [x];
    } else {
      PayloadsMore(hooks[1..], x);
      assert (hooks + [x])[1..] == hooks[1..] + [x];
    }
  }

  // --- there are always finitely many pairs ------------------------------------------

  lemma {:induction false} WithinMore(h: Handler, u: set<HookID>, v: set<HookID>)
    requires Within(h, u) && u <= v
    ensures Within(h, v)
    decreases h
  {
    forall i | 0 <= i < |h.acts| ensures ActWithin(h.acts[i], v) {
      assert ActWithin(h.acts[i], u);
      if h.acts[i].Register? { WithinMore(h.acts[i].handler, u, v); }
    }
  }

  lemma {:induction false} HandlerPairs(h: Handler) returns (u: set<HookID>)
    ensures Within(h, u)
    decreases h
  {
    u := {};
    for i := 0 to |h.acts|
      invariant forall j :: 0 <= j < i ==> ActWithin(h.acts[j], u)
    {
      var a, was := h.acts[i], u;
      if a.Register? {
        var more := HandlerPairs(a.handler);
        u := u + more + {HookID(a.name, a.event)};
        WithinMore(a.handler, more, u);
        forall j | 0 <= j < i ensures ActWithin(h.acts[j], u) {
          assert ActWithin(h.acts[j], was);
          if h.acts[j].Register? { WithinMore(h.acts[j].handler, was, u); }
        }
      }
    }
  }

  lemma HooksMore(hooks: seq<Hook>, event: string, u: set<HookID>, v: set<HookID>)
    requires HooksWithin(hooks, event, u) && u <= v
    ensures HooksWithin(hooks, event, v)
  {
    forall i | 0 <= i < |hooks| ensures Within(hooks[i].handler, v) { WithinMore(hooks[i].handler, u, v); }
  }

  lemma HooksPairs(hooks: seq<Hook>, event: string) returns (u: set<HookID>)
    ensures HooksWithin(hooks, event, u)
  {
    u := {};
    for i := 0 to |hooks|
      invariant HooksWithin(hooks[..i], event, u)
    {
      var more := HandlerPairs(hooks[i].handler);
      HooksMore(hooks[..i], event, u, u + more + {HookID(hooks[i].name, event)});
      WithinMore(hooks[i].handler, more, u + more + {HookID(hooks[i].name, event)});
      u := u + more + {HookID(hooks[i].name, event)};
      assert hooks[..i + 1] == hooks[..i] + [hooks[i]];
    }
    assert hooks[..|hooks|] == hooks;
  }

  // Every table, whatever its handlers register, keeps to some finite set of pairs; with
  // it every dispatch ends, and nests no deeper than the pairs it leaves off the chain.
  lemma TablePairs(t: Table) returns (u: set<HookID>)
    ensures TableWithin(t, u)
  {
    u := {};
    var todo := t.Keys;
    while todo != {}
      invariant todo <= t.Keys
      invariant forall e :: e in t && e !in todo ==> HooksWithin(t[e], e, u)
    {
      var e :| e in todo;
      var was := u;
      var more := HooksPairs(t[e], e);
      u := u + more;
      HooksMore(t[e], e, more, u);
      forall x | x in t && x !in todo ensures HooksWithin(t[x], x, u) { HooksMore(t[x], x, was, u); }
      todo := todo - {e};
    }
  }

  // --- which hooks are called ---------------------------------------------------------

  // A hook is called exactly if its pair is not on the chain and no called hook before
  // it stops the dispatch.
  lemma {:induction false} CalledExactly(hooks: seq<Hook>, event: string, chain: set<HookID>, i: nat)
    requires OneEach(hooks) && i < |hooks|
    ensures hooks[i] in Called(hooks, event, chain) <==>
              && HookID(hooks[i].name, event) !in chain
              && forall j :: 0 <= j < i && hooks[j].handler.end.Return? && hooks[j].handler.end.stop ==>
                   HookID(hooks[j].name, event) in chain
    decreases |hooks|
  {
    var first, rest := hooks[0], hooks[1..];
    CalledThere(rest, event, chain);
    if i > 0 {
      CalledExactly(rest, event, chain, i - 1);
      assert rest[i - 1] == hooks[i];
      forall j | 0 <= j < i - 1 ensures rest[j] == hooks[j + 1] {}
      assert (forall j :: 0 <= j < i && Stops(hooks[j].handler) ==> HookID(hooks[j].name, event) in chain)
        <==> (Stops(first.handler) ==> HookID(first.name, event) in chain)
             && (forall j :: 0 <= j < i - 1 && Stops(rest[j].handler) ==> HookID(rest[j].name, event) in chain) by {
        forall j | 1 <= j < i ensures hooks[j] == rest[j - 1] {}
      }
    } else {
      assert forall j :: 0 <= j < |rest| ==> rest[j] == hooks[j + 1] && rest[j].name != first.name;
    }
  }

  lemma {:induction false} CalledThere(hooks: seq<Hook>, event: string, chain: set<HookID>)
    ensures forall x :: x in Called(hooks, event, chain) ==> x in hooks && HookID(x.name, event) !in chain
  {
    if hooks != [] { CalledThere(hooks[1..], event, chain); }
  }

  // The same hooks by name and outcome, whatever they do to the bus.
  ghost predicate Alike(a: seq<Hook>, b: seq<Hook>) {
    |a| == |b| && forall i :: 0 <= i < |a| ==> a[i].name == b[i].name && a[i].handler.end == b[i].handler.end
  }

  // Which hooks a dispatch calls, and what it yields, does not depend on what the handlers
  // do to the table: not even a module unregistered by an earlier handler is passed over.
  lemma {:induction false} UnloadedStillCalled(a: seq<Hook>, b: seq<Hook>, event: string, chain: set<HookID>)
    requires Alike(a, b)
    ensures Alike(Called(a, event, chain), Called(b, event, chain))
    ensures Ids(Called(a, event, chain), event) == Ids(Called(b, event, chain), event)
    ensures Payloads(Called(a, event, chain)) == Payloads(Called(b, event, chain))
  {
    if a != [] {
      UnloadedStillCalled(a[1..], b[1..], event, chain);
    }
  }

  lemma NoneStale()
    ensures Stale([], [])
  {}
}
