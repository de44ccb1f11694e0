// Every interleaving of the connection keeper's loops: dialling and pumping IRC,
// accepting and pumping cores, dropping a dead session, shutting down.
module KeeperRuns {
  import opened Basics
  import opened KeeperBuffers
  import opened Keeper

  // Where the IRC loop stands. Only reading and its aftermath belong to a connection.
  datatype Loop =
    | Dialing
    | Pumping(conn: nat, probed: bool)
    | Down(conn: nat)
    | Cleared(conn: nat)
    | Dropping(core: Option<nat>)
    | Stopped(last: Option<nat>)

  // Where the loop serving cores stands; Sending is between its lock and its write.
  datatype Serve = Accepting | Serving(core: nat) | Sending(core: nat, conn: nat, b: seq<Byte>)

  datatype Shutdown = Up | Cancelled | Closing(irc: Option<nat>, core: Option<nat>) | Over

  // What a core was written: bytes of one connection, starting where the core was
  // missing from (or where the cap cut), up to hi.
  datatype Share = Share(conn: nat, away: nat, met: nat, hi: nat, whole: bool, prev: Option<nat>)

  datatype Chunk = Chunk(core: nat, b: seq<Byte>)

  // The keeper, its loops, and what happened so far: the bytes read off each IRC
  // connection, the cores accepted and what each was given, from which byte on the
  // core is missing, the outbound chunks held, and the cores a write to failed.
  datatype Sys = Sys(
    k: Fields, loop: Loop, serve: Serve, shut: Shutdown,
    streams: map<nat, seq<Byte>>, cores: set<nat>, shares: map<nat, Share>, away: nat, last: Option<nat>,
    queue: seq<Chunk>, failed: set<nat>)

  datatype Event =
    | Dial(conn: nat, o: Outcome)
    | Pump(r: Read, o: Outcome, p: Outcome)
    | Clear
    | Drop
    | CloseDropped
    | Stop
    | Accept(core: nat, o: Outcome)
    | Outbound(b: seq<Byte>)
    | Send(o: Outcome)
    | CoreGone
    | Cancel
    | Mark
    | CloseBoth

  const START := Sys(Fields(None, None, [], NO_OUT, false, Net({}, map[])), Dialing, Accepting, Up,
                     map[], {}, map[], 0, None, [], {})

  // The IRC connection whose session is still in place.
  function Session(loop: Loop): Option<nat> {
    match loop
    case Pumping(i, _) => Some(i)
    case Down(i) => Some(i)
    case Cleared(i) => Some(i)
    case Stopped(l) => l
    case _ => None
  }

  function Stream(s: Sys, i: nat): seq<Byte> {
    if i in s.streams then s.streams[i] else []
  }

  // How much of the current session's stream has been read.
  function Seen(s: Sys): nat {
    if Session(s.loop).Some? then |Stream(s, Session(s.loop).value)| else 0
  }

  predicate Fresh(s: Sys, id: nat) {
    id !in s.k.net.sent
  }

  predicate Enabled(s: Sys, e: Event) {
    match e
    case Dial(conn, _) => s.loop.Dialing? && Fresh(s, conn)
    case Pump(r, _, _) => s.loop.Pumping? && |r.b| <= READ_BUFFER
    case Clear => s.loop.Down?
    case Drop => s.loop.Cleared?
    case CloseDropped => s.loop.Dropping?
    case Stop => (s.loop.Dialing? || s.loop.Cleared?) && s.shut != Up
    case Accept(core, _) => s.serve.Accepting? && Fresh(s, core)
    case Outbound(b) => s.serve.Serving? && |b| <= READ_BUFFER
    case Send(_) => s.serve.Sending?
    case CoreGone => s.serve.Serving?
    case Cancel => s.shut == Up
    case Mark => s.shut == Cancelled
    case CloseBoth => s.shut.Closing?
  }

  function Step(s: Sys, e: Event): Sys
    requires Enabled(s, e)
  {
    match e
    case Dial(conn, o) => DialStep(s, conn, o)
    case Pump(r, o, p) => PumpStep(s, r, o, p)
    case Clear => s.(k := UnsetIRC(s.k), loop := Cleared(s.loop.conn), queue := [])
    case Drop => s.(k := s.k.(buffer := []), loop := Dropping(s.k.core))
    case CloseDropped => s.(k := s.k.(net := Closed(s.k.net, s.loop.core)), loop := Dialing)
    case Stop => s.(loop := Stopped(Session(s.loop)))
    case Accept(core, o) => AcceptStep(s, core, o)
    case Outbound(b) => OutboundStep(s, b)
    case Send(o) => s.(k := s.k.(net := Written(s.k.net, s.serve.conn, s.serve.b, o)), serve := Serving(s.serve.core))
    case CoreGone => CoreGoneStep(s)
    case Cancel => s.(shut := Cancelled)
    case Mark => s.(k := s.k.(closed := true), shut := Closing(s.k.irc, s.k.core))
    case CloseBoth => s.(k := s.k.(net := Closed(Closed(s.k.net, s.shut.irc), s.shut.core)), shut := Over)
  }

  predicate Lives(s: Sys, id: Option<nat>) {
    id.Some? && id.value in s.k.net.open
  }

  // A dialled connection; a core attached meanwhile starts on its stream.
  function DialStep(s: Sys, conn: nat, o: Outcome): Sys {
    var here := Lives(s, s.k.core);
    s.(k := SetIRC(s.k.(net := Opened(s.k.net, conn)), conn, o),
       loop := Pumping(conn, false),
       streams := s.streams[conn := []],
       shares := if here then s.shares[s.k.core.value := Share(conn, 0, 0, 0, true, None)] else s.shares,
       last := if here then s.k.core else None,
       away := 0,
       queue := if s.k.closed then s.queue else [])
  }

  function PumpStep(s: Sys, r: Read, o: Outcome, p: Outcome): Sys
    requires s.loop.Pumping?
  {
    var i := s.loop.conn;
    var t := PumpTurn(s.k, i, s.loop.probed, r, o, p);
    var lost := s.k.core.Some? && t.k.core.None?;
    s.(k := t.k,
       loop := if t.done then Down(i) else Pumping(i, t.probed),
       streams := s.streams[i := Stream(s, i) + r.b],
       away := if lost then |Stream(s, i)| else s.away,
       shares := if s.k.core.Some? && s.k.core.value in s.shares && s.shares[s.k.core.value].conn == i
                 then Extended(s.shares, s.k.core.value, |Part(s.k.net, s.k.core.value, r.b, o)|) else s.shares,
       failed := if lost then s.failed + {s.k.core.value} else s.failed)
  }

  function Extended(shares: map<nat, Share>, core: nat, n: nat): map<nat, Share>
    requires core in shares
  {
    shares[core := shares[core].(hi := shares[core].hi + n)]
  }

  // An accepted core is given the buffer, which continues the session's stream.
  function AcceptStep(s: Sys, core: nat, o: Outcome): Sys {
    var net := Opened(s.k.net, core);
    var s' := s.(k := Attach(s.k.(net := net), core, o), serve := Serving(core), cores := s.cores + {core});
    if Session(s.loop).None? then s'
    else
      var met := Seen(s);
      var hi := From(s.away, met) + |Part(net, core, s.k.buffer, o)|;
      var whole := s.k.buffer == [] || o == Ok;
      s'.(shares := s.shares[core := Share(Session(s.loop).value, s.away, met, hi, whole, s.last)], last := Some(core))
  }

  // Where a core that was missing from byte away on, and came back at byte met, starts.
  function From(away: nat, met: nat): nat {
    if met - away > MAX_BUFFER then met - MAX_BUFFER else away
  }

  function OutboundStep(s: Sys, b: seq<Byte>): Sys
    requires s.serve.Serving?
  {
    var s' := s.(k := ToIRC(s.k, b));
    if s.k.irc.None? then s'.(queue := s.queue + [Chunk(s.serve.core, b)])
    else s'.(serve := Sending(s.serve.core, s.k.irc.value, b))
  }

  function CoreGoneStep(s: Sys): Sys
    requires s.serve.Serving?
  {
    var c := s.serve.core;
    var named := s.k.core == Some(c);
    s.(k := Detach(s.k, c), serve := Accepting,
       away := if named then Seen(s) else s.away,
       queue := if named then [] else s.queue)
  }

  // --- runs -------------------------------------------------------------------

  ghost predicate Legal(s: Sys, es: seq<Event>)
    decreases |es|
  {
    es == [] || (Enabled(s, es[0]) && Legal(Step(s, es[0]), es[1..]))
  }

  ghost function Run(s: Sys, es: seq<Event>): Sys
    requires Legal(s, es)
    decreases |es|
  {
    if es == [] then s else Run(Step(s, es[0]), es[1..])
  }

  // --- what every step keeps ----------------------------------------------------

  function Bytes(queue: seq<Chunk>): seq<Byte> {
    if queue == [] then [] else Bytes(queue[..|queue| - 1]) + queue[|queue| - 1].b
  }

  // Sockets: connections and cores are told apart, and everything named is known.
  ghost predicate NetInv(s: Sys) {
    && s.cores !! s.streams.Keys && s.cores + s.streams.Keys == s.k.net.sent.Keys
    && s.k.net.open <= s.k.net.sent.Keys && s.shares.Keys <= s.cores
    && (s.k.core.Some? ==> s.k.core.value in s.cores)
    && (s.k.irc.Some? ==> s.k.irc.value in s.streams)
    && (Session(s.loop).Some? ==> Session(s.loop).value in s.streams)
    && (s.serve.Sending? ==> s.serve.conn in s.streams)
    && (s.loop.Dropping? && s.loop.core.Some? ==> s.loop.core.value in s.cores)
  }

  // The core being served is the attached one, unless a write to it failed; and no failed
  // one is attached.
  ghost predicate ServeInv(s: Sys) {
    && s.failed <= s.cores
    && match s.serve
       case Accepting => s.k.core.None?
       case Serving(c) => Named(s, c)
       case Sending(c, _, _) => Named(s, c)
  }

  ghost predicate Named(s: Sys, c: nat) {
    c in s.cores && s.k.core == if c in s.failed then None else Some(c)
  }

  // What a core has been written is its share of one connection's stream.
  ghost predicate ShareOk(s: Sys, c: nat, h: Share) {
    && h.conn in s.streams && h.away <= h.met && From(h.away, h.met) <= h.hi <= |Stream(s, h.conn)|
    && Sent(s.k.net, c) == Stream(s, h.conn)[From(h.away, h.met)..h.hi]
  }

  // It starts with the stream, or where the core before it left off, unless that core
  // lost bytes while it attached.
  ghost predicate FollowsOn(s: Sys, conn: nat, away: nat, prev: Option<nat>) {
    away == 0 || (prev.Some? && prev.value in s.shares && s.shares[prev.value].conn == conn
                  && (s.shares[prev.value].whole ==> away <= s.shares[prev.value].hi))
  }

  ghost predicate ShareInv(s: Sys) {
    && (forall c :: c in s.cores && c !in s.shares ==> Sent(s.k.net, c) == [])
    && (forall c :: c in s.shares ==> ShareOk(s, c, s.shares[c]))
    && (forall c :: c in s.shares ==> FollowsOn(s, s.shares[c].conn, s.shares[c].away, s.shares[c].prev))
  }

  // In a session of connection i: an attached core is up to date with i's stream, or is
  // dead and yet to find out; an absent core's bytes are in the buffer.
  ghost predicate SessionInv(s: Sys, i: nat) {
    match s.k.core
    case Some(c) =>
      && s.k.buffer == []
      && ((c in s.shares && s.shares[c].conn == i && s.last == Some(c)
           && (if s.shares[c].whole then s.shares[c].hi == |Stream(s, i)| else c !in s.k.net.open))
          || (c !in s.k.net.open && Stream(s, i) == []))
    case None =>
      && s.away <= |Stream(s, i)| && s.k.buffer == LastN(Stream(s, i)[s.away..], MAX_BUFFER)
      && FollowsOn(s, i, s.away, s.last)
  }

  // Between sessions nothing is buffered, and a core that still takes writes has had
  // none, unless it is the one about to be closed.
  ghost predicate BetweenInv(s: Sys) {
    && s.k.buffer == []
    && (Lives(s, s.k.core) && !(s.loop.Dropping? && s.loop.core == s.k.core) ==> s.k.core.value !in s.shares)
  }

  ghost predicate LoopInv(s: Sys) {
    match Session(s.loop)
    case Some(i) => SessionInv(s, i)
    case None => BetweenInv(s)
  }

  // The held outbound bytes are what the queued chunks leave; a chunk of a core no
  // longer served can only be one whose inbound write failed.
  ghost predicate OutInv(s: Sys) {
    && s.k.out == HeldOut(Bytes(s.queue))
    && (forall q :: q in s.queue ==> Owner(s, q.core))
  }

  ghost predicate Owner(s: Sys, c: nat) {
    c in s.failed || (!s.serve.Accepting? && s.serve.core == c)
  }

  // Once the keeper is marked closed, only the connection named then can be open, and
  // in the end none is.
  ghost predicate ShutInv(s: Sys) {
    && (s.k.closed <==> s.shut.Closing? || s.shut.Over?)
    && (s.shut.Closing? ==> forall i :: i in s.streams && i in s.k.net.open ==> s.shut.irc == Some(i))
    && (s.shut.Over? ==> s.k.net.open !! s.streams.Keys)
    && (!s.k.closed ==> forall i :: i in s.streams && i in s.k.net.open ==> s.k.irc == Some(i))
  }

  ghost predicate Inv(s: Sys) {
    NetInv(s) && ServeInv(s) && ShareInv(s) && LoopInv(s) && OutInv(s) && ShutInv(s)
  }

  // Sent bytes and shares are kept when streams only grow and cores are left alone.
  ghost predicate CoresAlone(s: Sys, s': Sys) {
    && s'.cores == s.cores && s'.shares == s.shares
    && (forall i :: i in s.streams ==> i in s'.streams && Stream(s, i) <= Stream(s', i))
    && (forall c :: c in s.cores ==> Sent(s'.k.net, c) == Sent(s.k.net, c))
  }

  lemma ShareGrows(s: Sys, s': Sys, c: nat, h: Share)
    requires ShareOk(s, c, h) && h.conn in s'.streams && Stream(s, h.conn) <= Stream(s', h.conn) && Sent(s'.k.net, c) == Sent(s.k.net, c)
    ensures ShareOk(s', c, h)
  {}

  lemma SharesAlone(s: Sys, s': Sys)
    requires NetInv(s) && ShareInv(s) && CoresAlone(s, s')
    ensures ShareInv(s')
  {
    hide ShareOk, Sent, Stream, NetInv;
    forall c | c in s'.shares ensures ShareOk(s', c, s'.shares[c]) {
      ShareKnown(s, c);
      ShareGrows(s, s', c, s.shares[c]);
    }
    forall c | c in s'.shares ensures FollowsOn(s', s'.shares[c].conn, s'.shares[c].away, s'.shares[c].prev) {
      assert FollowsOn(s, s.shares[c].conn, s.shares[c].away, s.shares[c].prev);
    }
  }

  lemma ShareKnown(s: Sys, c: nat)
    requires NetInv(s) && ShareInv(s) && c in s.shares
    ensures c in s.cores && ShareOk(s, c, s.shares[c])
    ensures s.shares[c].conn in s.streams
  {}

  // The same when one core's share is new, or grows at its end.
  ghost predicate OthersAlone(s: Sys, s': Sys, c: nat, h: Share) {
    && s.cores <= s'.cores <= s.cores + {c} && s'.shares == s.shares[c := h]
    && (forall i :: i in s.streams ==> i in s'.streams && Stream(s, i) <= Stream(s', i))
    && (forall x :: x in s.cores && x != c ==> Sent(s'.k.net, x) == Sent(s.k.net, x))
  }

  ghost predicate Grows(s: Sys, c: nat, h: Share) {
    c in s.shares ==> h == s.shares[c].(hi := h.hi) && s.shares[c].hi <= h.hi
  }

  lemma FollowsGrown(s: Sys, s': Sys, c: nat, h: Share, conn: nat, away: nat, prev: Option<nat>)
    requires s'.shares == s.shares[c := h] && Grows(s, c, h) && FollowsOn(s, conn, away, prev)
    ensures FollowsOn(s', conn, away, prev)
  {}

  lemma SharesGrow(s: Sys, s': Sys, c: nat, h: Share)
    requires NetInv(s) && ShareInv(s) && OthersAlone(s, s', c, h) && Grows(s, c, h)
    requires ShareOk(s', c, h) && (c in s.shares || FollowsOn(s, h.conn, h.away, h.prev))
    ensures ShareInv(s')
  {
    hide ShareOk, Sent, Stream, NetInv, FollowsOn;
    forall x | x in s'.shares ensures ShareOk(s', x, s'.shares[x]) {
      if x != c {
        ShareKnown(s, x);
        ShareGrows(s, s', x, s.shares[x]);
      }
    }
    forall x | x in s'.shares ensures FollowsOn(s', s'.shares[x].conn, s'.shares[x].away, s'.shares[x].prev) {
      var f := if x in s.shares then s.shares[x] else h;
      FollowsGrown(s, s', c, h, f.conn, f.away, f.prev);
    }
  }

  // --- dialling ---------------------------------------------------------------

  lemma DialNet(s: Sys, conn: nat, o: Outcome)
    requires NetInv(s) && Enabled(s, Dial(conn, o))
    ensures NetInv(DialStep(s, conn, o))
  {}

  lemma DialLoops(s: Sys, conn: nat, o: Outcome)
    requires NetInv(s) && ServeInv(s) && ShutInv(s) && Enabled(s, Dial(conn, o))
    ensures ServeInv(DialStep(s, conn, o)) && ShutInv(DialStep(s, conn, o))
  {}

  lemma DialSent(s: Sys, conn: nat, o: Outcome)
    requires NetInv(s) && Enabled(s, Dial(conn, o))
    ensures forall c :: c in s.cores ==> Sent(DialStep(s, conn, o).k.net, c) == Sent(s.k.net, c)
    ensures forall i :: i in s.streams ==> Stream(s, i) <= Stream(DialStep(s, conn, o), i)
  {}

  lemma DialShares(s: Sys, conn: nat, o: Outcome)
    requires NetInv(s) && ShareInv(s) && LoopInv(s) && Enabled(s, Dial(conn, o))
    ensures ShareInv(DialStep(s, conn, o))
  {
    hide ShareInv;
    DialSent(s, conn, o);
    var s' := DialStep(s, conn, o);
    if Lives(s, s.k.core) {
      Unshared(s, s.k.core.value);
      SharesGrow(s, s', s.k.core.value, Share(conn, 0, 0, 0, true, None));
    } else {
      SharesAlone(s, s');
    }
  }

  lemma Unshared(s: Sys, c: nat)
    requires ShareInv(s) && c in s.cores && c !in s.shares
    ensures Sent(s.k.net, c) == []
  {}

  lemma DialSession(s: Sys, conn: nat, o: Outcome)
    requires NetInv(s) && LoopInv(s) && Enabled(s, Dial(conn, o))
    ensures LoopInv(DialStep(s, conn, o))
  {}

  lemma DialOut(s: Sys, conn: nat, o: Outcome)
    requires OutInv(s) && Enabled(s, Dial(conn, o))
    ensures OutInv(DialStep(s, conn, o))
  {}

  lemma DialKeeps(s: Sys, conn: nat, o: Outcome)
    requires Inv(s) && Enabled(s, Dial(conn, o))
    ensures Inv(DialStep(s, conn, o))
  {
    hide NetInv, ServeInv, ShareInv, LoopInv, OutInv, ShutInv;
    DialNet(s, conn, o);
    DialLoops(s, conn, o);
    DialShares(s, conn, o);
    DialSession(s, conn, o);
    DialOut(s, conn, o);
  }

  // --- pumping ----------------------------------------------------------------

  lemma PumpOpen(s: Sys, r: Read, o: Outcome, p: Outcome)
    requires NetInv(s) && Enabled(s, Pump(r, o, p))
    ensures PumpStep(s, r, o, p).k.net.open <= s.k.net.open && PumpStep(s, r, o, p).streams.Keys == s.streams.Keys
  {}

  lemma PumpKeys(s: Sys, r: Read, o: Outcome, p: Outcome)
    requires NetInv(s) && Enabled(s, Pump(r, o, p))
    ensures PumpStep(s, r, o, p).k.net.sent.Keys == s.k.net.sent.Keys
    ensures PumpStep(s, r, o, p).shares.Keys == s.shares.Keys
  {
    hide BufferIn, Part;
  }

  lemma PumpNet(s: Sys, r: Read, o: Outcome, p: Outcome)
    requires NetInv(s) && Enabled(s, Pump(r, o, p))
    ensures NetInv(PumpStep(s, r, o, p))
  {
    hide PumpTurn;
    PumpFields(s, r, o, p);
    PumpOpen(s, r, o, p);
    PumpKeys(s, r, o, p);
  }

  lemma PumpLoops(s: Sys, r: Read, o: Outcome, p: Outcome)
    requires NetInv(s) && ServeInv(s) && ShutInv(s) && Enabled(s, Pump(r, o, p))
    ensures ServeInv(PumpStep(s, r, o, p)) && ShutInv(PumpStep(s, r, o, p))
  {
    hide PumpTurn;
    PumpFields(s, r, o, p);
    PumpOpen(s, r, o, p);
    hide NetInv;
  }

  // What the turn writes to each core, and what it adds to the stream.
  lemma PumpSent(s: Sys, r: Read, o: Outcome, p: Outcome)
    requires NetInv(s) && Enabled(s, Pump(r, o, p))
    ensures forall c :: c in s.cores ==>
              Sent(PumpStep(s, r, o, p).k.net, c)
              == Sent(s.k.net, c) + (if s.k.core == Some(c) then Part(s.k.net, c, r.b, o) else [])
    ensures forall i :: Stream(PumpStep(s, r, o, p), i) == Stream(s, i) + (if i == s.loop.conn then r.b else [])
  {}

  lemma PumpShares(s: Sys, r: Read, o: Outcome, p: Outcome)
    requires NetInv(s) && ShareInv(s) && LoopInv(s) && Enabled(s, Pump(r, o, p))
    ensures ShareInv(PumpStep(s, r, o, p))
  {
    hide ShareInv, PumpTurn, Sent, Stream;
    PumpSent(s, r, o, p);
    var s', i := PumpStep(s, r, o, p), s.loop.conn;
    if s.k.core.Some? && s.k.core.value in s.shares && s.shares[s.k.core.value].conn == i {
      var c := s.k.core.value;
      ShareKnown(s, c);
      var h := s.shares[c].(hi := s.shares[c].hi + |Part(s.k.net, c, r.b, o)|);
      PumpShare(s, s', r, o, c, h);
      SharesGrow(s, s', c, h);
    } else {
      SharesAlone(s, s');
    }
  }

  lemma PumpShare(s: Sys, s': Sys, r: Read, o: Outcome, c: nat, h: Share)
    requires s.loop.Pumping? && LoopInv(s) && s.k.core == Some(c) && c in s.shares && s.shares[c].conn == s.loop.conn
    requires ShareOk(s, c, s.shares[c]) && h == s.shares[c].(hi := s.shares[c].hi + |Part(s.k.net, c, r.b, o)|)
    requires Sent(s'.k.net, c) == Sent(s.k.net, c) + Part(s.k.net, c, r.b, o)
    requires h.conn in s'.streams && Stream(s', h.conn) == Stream(s, h.conn) + r.b
    ensures ShareOk(s', c, h)
  {
    hide Sent, Stream;
  }

  lemma PumpFields(s: Sys, r: Read, o: Outcome, p: Outcome)
    requires NetInv(s) && Enabled(s, Pump(r, o, p))
    ensures var k := PumpStep(s, r, o, p).k;
            && k.out == s.k.out && k.irc == s.k.irc && k.closed == s.k.closed
            && (match s.k.core
                case None => k.core.None? && k.buffer == if r.b == [] then s.k.buffer else BufferIn(s.k.buffer, r.b)
                case Some(c) =>
                  if r.b == [] || Taken(s.k.net, c, o)
                  then k.core == s.k.core && k.buffer == s.k.buffer && (c in s.cores ==> (c in k.net.open <==> c in s.k.net.open))
                  else k.core.None? && k.buffer == BufferIn(s.k.buffer, r.b))
  {}

  lemma PumpSession(s: Sys, r: Read, o: Outcome, p: Outcome)
    requires NetInv(s) && LoopInv(s) && Enabled(s, Pump(r, o, p))
    ensures LoopInv(PumpStep(s, r, o, p))
  {
    hide PumpTurn, Sent, Stream, LastN, BufferIn;
    PumpSent(s, r, o, p);
    PumpFields(s, r, o, p);
    var s', i := PumpStep(s, r, o, p), s.loop.conn;
    assert Session(s'.loop) == Some(i);
    if s.k.core.None? {
      BufferGrows(Stream(s, i)[s.away..], r.b);
      assert Stream(s', i)[s.away..] == Stream(s, i)[s.away..] + r.b;
    } else if s'.k.core.None? {
      assert Stream(s', i)[|Stream(s, i)|..] == r.b;
      BufferGrows([], r.b);
    }
  }

  lemma BufferGrows(st: seq<Byte>, b: seq<Byte>)
    requires |b| <= READ_BUFFER
    ensures LastN(st + b, MAX_BUFFER) == if b == [] then LastN(st, MAX_BUFFER) else BufferIn(LastN(st, MAX_BUFFER), b)
    ensures b != [] ==> BufferIn([], b) == LastN(b, MAX_BUFFER)
  {
    LastNAppend(st, b, MAX_BUFFER);
    assert [] + b == b && st + [] == st;
  }

  lemma PumpOut(s: Sys, r: Read, o: Outcome, p: Outcome)
    requires NetInv(s) && OutInv(s) && Enabled(s, Pump(r, o, p))
    ensures OutInv(PumpStep(s, r, o, p))
  {
    PumpFields(s, r, o, p);
    hide PumpTurn, Bytes, HeldOut, NetInv;
  }

  lemma PumpKeeps(s: Sys, r: Read, o: Outcome, p: Outcome)
    requires Inv(s) && Enabled(s, Pump(r, o, p))
    ensures Inv(PumpStep(s, r, o, p))
  {
    hide NetInv, ServeInv, ShareInv, LoopInv, OutInv, ShutInv, PumpTurn;
    PumpNet(s, r, o, p);
    PumpLoops(s, r, o, p);
    PumpShares(s, r, o, p);
    PumpSession(s, r, o, p);
    PumpOut(s, r, o, p);
  }

  // --- a core comes, and goes ---------------------------------------------------

  lemma AcceptNet(s: Sys, core: nat, o: Outcome)
    requires NetInv(s) && Enabled(s, Accept(core, o))
    ensures NetInv(AcceptStep(s, core, o))
  {}

  lemma AcceptLoops(s: Sys, core: nat, o: Outcome)
    requires NetInv(s) && ServeInv(s) && ShutInv(s) && Enabled(s, Accept(core, o))
    ensures ServeInv(AcceptStep(s, core, o)) && ShutInv(AcceptStep(s, core, o))
  {}

  lemma AcceptOthers(s: Sys, core: nat, o: Outcome)
    requires NetInv(s) && Enabled(s, Accept(core, o))
    ensures forall c :: c in s.cores ==> c != core && Sent(AcceptStep(s, core, o).k.net, c) == Sent(s.k.net, c)
  {}

  lemma AcceptFirst(s: Sys, core: nat, o: Outcome)
    requires NetInv(s) && Enabled(s, Accept(core, o))
    ensures Sent(AcceptStep(s, core, o).k.net, core) == Part(Opened(s.k.net, core), core, s.k.buffer, o)
    ensures AcceptStep(s, core, o).streams == s.streams && core !in s.shares
  {}

  lemma AcceptSent(s: Sys, core: nat, o: Outcome)
    requires NetInv(s) && Enabled(s, Accept(core, o))
    ensures var s' := AcceptStep(s, core, o);
            && (forall c :: c in s.cores ==> c != core && Sent(s'.k.net, c) == Sent(s.k.net, c))
            && Sent(s'.k.net, core) == Part(Opened(s.k.net, core), core, s.k.buffer, o)
            && s'.streams == s.streams && core !in s.shares
  {
    hide NetInv, AcceptStep, Sent, Part, Enabled;
    AcceptOthers(s, core, o);
    AcceptFirst(s, core, o);
  }

  lemma BufferStarts(st: seq<Byte>, away: nat)
    requires away <= |st|
    ensures LastN(st[away..], MAX_BUFFER) == st[From(away, |st|)..]
  {}

  // The buffer a core is given continues the stream from where the last one stopped.
  lemma AcceptShare(s: Sys, s': Sys, core: nat, o: Outcome)
    requires NetInv(s) && ServeInv(s) && LoopInv(s) && Session(s.loop).Some? && s.serve.Accepting? && s' == AcceptStep(s, core, o)
    requires Sent(s'.k.net, core) == Part(Opened(s.k.net, core), core, s.k.buffer, o)
    ensures ShareOk(s', core, s'.shares[core])
    ensures FollowsOn(s, s'.shares[core].conn, s.away, s.last)
  {
    hide Attach, Sent, LastN, From;
    var st := Stream(s, Session(s.loop).value);
    BufferStarts(st, s.away);
    FromFits(s.away, |st|);
    var a, part := From(s.away, |st|), Part(Opened(s.k.net, core), core, s.k.buffer, o);
    assert part == s.k.buffer[..|part|];
    assert st[a..][..|part|] == st[a..a + |part|];
  }

  lemma FromFits(away: nat, met: nat)
    requires away <= met
    ensures away <= From(away, met) <= met
  {}

  lemma AcceptShares(s: Sys, core: nat, o: Outcome)
    requires NetInv(s) && ServeInv(s) && ShareInv(s) && LoopInv(s) && Enabled(s, Accept(core, o))
    ensures ShareInv(AcceptStep(s, core, o))
  {
    AcceptSent(s, core, o);
    hide ShareInv, NetInv, Attach, Sent, ShareOk, FollowsOn, SessionInv, LoopInv, Part, ServeInv;
    var s' := AcceptStep(s, core, o);
    if Session(s.loop).Some? {
      AcceptShare(s, s', core, o);
      SharesGrow(s, s', core, s'.shares[core]);
    } else {
      AcceptIdle(s, s', core);
    }
  }

  lemma AcceptIdle(s: Sys, s': Sys, core: nat)
    requires NetInv(s) && ShareInv(s) && s'.cores == s.cores + {core} && s'.shares == s.shares && s'.streams == s.streams
    requires core !in s.cores && Sent(s'.k.net, core) == []
    requires forall c :: c in s.cores ==> Sent(s'.k.net, c) == Sent(s.k.net, c)
    ensures ShareInv(s')
  {
    hide ShareOk, Sent, NetInv;
    forall c | c in s'.shares ensures ShareOk(s', c, s'.shares[c]) {
      ShareKnown(s, c);
      ShareGrows(s, s', c, s.shares[c]);
    }
  }

  lemma AcceptSession(s: Sys, core: nat, o: Outcome)
    requires NetInv(s) && ServeInv(s) && LoopInv(s) && Enabled(s, Accept(core, o))
    ensures LoopInv(AcceptStep(s, core, o))
  {}

  lemma AcceptOut(s: Sys, core: nat, o: Outcome)
    requires NetInv(s) && OutInv(s) && Enabled(s, Accept(core, o))
    ensures OutInv(AcceptStep(s, core, o))
  {
    hide Bytes, HeldOut;
  }

  lemma AcceptKeeps(s: Sys, core: nat, o: Outcome)
    requires Inv(s) && Enabled(s, Accept(core, o))
    ensures Inv(AcceptStep(s, core, o))
  {
    hide NetInv, ServeInv, ShareInv, LoopInv, OutInv, ShutInv;
    AcceptNet(s, core, o);
    AcceptLoops(s, core, o);
    AcceptShares(s, core, o);
    AcceptSession(s, core, o);
    AcceptOut(s, core, o);
  }

  lemma CoreGoneNet(s: Sys)
    requires NetInv(s) && ShutInv(s) && Enabled(s, CoreGone)
    ensures NetInv(CoreGoneStep(s)) && ShutInv(CoreGoneStep(s)) && CoresAlone(s, CoreGoneStep(s))
  {}

  lemma CoreGoneLoops(s: Sys)
    requires NetInv(s) && ServeInv(s) && LoopInv(s) && Enabled(s, CoreGone)
    ensures ServeInv(CoreGoneStep(s)) && LoopInv(CoreGoneStep(s))
  {}

  lemma CoreGoneOut(s: Sys)
    requires NetInv(s) && ServeInv(s) && OutInv(s) && Enabled(s, CoreGone)
    ensures OutInv(CoreGoneStep(s))
  {}

  lemma CoreGoneKeeps(s: Sys)
    requires Inv(s) && Enabled(s, CoreGone)
    ensures Inv(CoreGoneStep(s))
  {
    hide NetInv, ServeInv, ShareInv, LoopInv, OutInv, ShutInv, CoreGoneStep, CoresAlone;
    CoreGoneNet(s);
    CoreGoneLoops(s);
    CoreGoneOut(s);
    SharesAlone(s, CoreGoneStep(s));
  }

  // --- outbound -----------------------------------------------------------------

  lemma OutboundOut(s: Sys, b: seq<Byte>)
    requires OutInv(s) && Enabled(s, Outbound(b))
    ensures OutInv(OutboundStep(s, b))
  {
    hide BufferOut, HeldOut;
    BufferOutHolds(Bytes(s.queue), b);
    var q := s.queue + [Chunk(s.serve.core, b)];
    assert q[..|s.queue|] == s.queue;
    assert Bytes(q) == Bytes(s.queue) + b;
    var s' := OutboundStep(s, b);
    forall x | x in s'.queue ensures Owner(s', x.core) {
      if x in s.queue { assert Owner(s, x.core); }
    }
  }

  lemma OutboundKeeps(s: Sys, b: seq<Byte>)
    requires Inv(s) && Enabled(s, Outbound(b))
    ensures Inv(OutboundStep(s, b))
  {
    hide OutInv, ShareInv, BufferOut;
    OutboundOut(s, b);
    SharesAlone(s, OutboundStep(s, b));
  }

  // --- the rest -----------------------------------------------------------------

  lemma LoopKeeps(s: Sys, e: Event)
    requires Inv(s) && Enabled(s, e) && (e.Clear? || e.Drop? || e.CloseDropped? || e.Stop?)
    ensures Inv(Step(s, e))
  {
    hide ShareInv, OutInv, LoopInv, NetInv, ShutInv;
    OtherNet(s, e);
    LoopLoop(s, e);
    SharesAlone(s, Step(s, e)) by { CoresQuiet(s, e); }
    OutAlone(s, Step(s, e));
  }

  lemma LoopLoop(s: Sys, e: Event)
    requires NetInv(s) && LoopInv(s) && Enabled(s, e) && (e.Clear? || e.Drop? || e.CloseDropped? || e.Stop?)
    ensures LoopInv(Step(s, e))
  {
    hide LastN;
  }

  predicate Quiet(e: Event) {
    e.Clear? || e.Drop? || e.CloseDropped? || e.Stop? || e.Send? || e.Cancel? || e.Mark? || e.CloseBoth?
  }

  lemma NetKept(s: Sys, e: Event)
    requires NetInv(s) && Enabled(s, e) && Quiet(e)
    ensures NetInv(Step(s, e))
  {}

  lemma ShutKept(s: Sys, e: Event)
    requires NetInv(s) && ShutInv(s) && Enabled(s, e) && Quiet(e)
    ensures ShutInv(Step(s, e))
  {}

  lemma OtherNet(s: Sys, e: Event)
    requires NetInv(s) && ShutInv(s) && Enabled(s, e) && Quiet(e)
    ensures NetInv(Step(s, e)) && ShutInv(Step(s, e))
  {
    hide NetInv, ShutInv, Step, Enabled;
    NetKept(s, e);
    ShutKept(s, e);
  }

  lemma CoresQuiet(s: Sys, e: Event)
    requires NetInv(s) && Enabled(s, e) && Quiet(e)
    ensures CoresAlone(s, Step(s, e))
  {}

  lemma OutAlone(s: Sys, s': Sys)
    requires OutInv(s) && s'.serve == s.serve && s'.failed == s.failed
    requires (s'.k.out == s.k.out && s'.queue == s.queue) || (s'.k.out == NO_OUT && s'.queue == [])
    ensures OutInv(s')
  {
    hide Bytes;
    NoBytes();
    forall q | q in s'.queue ensures Owner(s', q.core) { assert Owner(s, q.core); }
  }

  lemma NoBytes()
    ensures Bytes([]) == []
  {}

  lemma ShutKeeps(s: Sys, e: Event)
    requires Inv(s) && Enabled(s, e) && (e.Cancel? || e.Mark? || e.CloseBoth?)
    ensures Inv(Step(s, e))
  {
    hide ShareInv, OutInv, NetInv, ShutInv, LastN;
    OtherNet(s, e);
    SharesAlone(s, Step(s, e)) by { CoresQuiet(s, e); }
    OutAlone(s, Step(s, e));
  }

  lemma SendKeeps(s: Sys, o: Outcome)
    requires Inv(s) && Enabled(s, Send(o))
    ensures Inv(Step(s, Send(o)))
  {
    hide ShareInv, Bytes, ShutInv, LastN;
    OtherNet(s, Send(o));
    SharesAlone(s, Step(s, Send(o))) by { CoresQuiet(s, Send(o)); }
  }

  lemma StepKeeps(s: Sys, e: Event)
    requires Inv(s) && Enabled(s, e)
    ensures Inv(Step(s, e))
  {
    hide Inv;
    match e
    case Dial(conn, o) => DialKeeps(s, conn, o);
    case Pump(r, o, p) => PumpKeeps(s, r, o, p);
    case Accept(core, o) => AcceptKeeps(s, core, o);
    case CoreGone => CoreGoneKeeps(s);
    case Outbound(b) => OutboundKeeps(s, b);
    case Send(o) => SendKeeps(s, o);
    case Cancel => ShutKeeps(s, e);
    case Mark => ShutKeeps(s, e);
    case CloseBoth => ShutKeeps(s, e);
    case _ => LoopKeeps(s, e);
  }

  lemma {:induction false} RunKeeps(s: Sys, es: seq<Event>)
    requires Inv(s) && Legal(s, es)
    ensures Inv(Run(s, es))
    decreases |es|
  {
    if es != [] {
      StepKeeps(s, es[0]);
      RunKeeps(Step(s, es[0]), es[1..]);
    }
  }

  lemma Reached(es: seq<Event>)
    requires Legal(START, es)
    ensures Inv(Run(START, es))
  {
    RunKeeps(START, es);
  }

  // --- what holds in every run --------------------------------------------------

  // Everything written to core c is one stretch of what was read off connection i; it
  // starts where bytes began to be held for a core, or at the oldest byte the cap left.
  ghost predicate OneStretch(s: Sys, c: nat, i: nat, away: nat, met: nat, hi: nat) {
    && i in s.streams && away <= met && From(away, met) <= hi <= |s.streams[i]|
    && Sent(s.k.net, c) == s.streams[i][From(away, met)..hi]
  }

  // Sessions never mix: a core sees bytes of at most one IRC connection, without a hole.
  lemma SessionIsolation(es: seq<Event>, c: nat)
    requires Legal(START, es) && c in Run(START, es).cores
    ensures Sent(Run(START, es).k.net, c) == []
            || exists i, away, met, hi :: OneStretch(Run(START, es), c, i, away, met, hi)
  {
    var s := Run(START, es);
    Reached(es);
    if Sent(s.k.net, c) != [] {
      var h := s.shares[c];
      assert ShareOk(s, c, h);
      assert OneStretch(s, c, h.conn, h.away, h.met, h.hi);
    }
  }

  // Nothing is lost between cores of one session: a core starts at the first byte, or no
  // later than where an earlier core of that session stopped, up to the cap, provided
  // that earlier core took the whole buffer when it attached.
  lemma NoGap(es: seq<Event>, c: nat)
    requires Legal(START, es) && c in Run(START, es).shares
    ensures var s := Run(START, es); var h := s.shares[c];
            && OneStretch(s, c, h.conn, h.away, h.met, h.hi)
            && (h.away > 0 ==>
                  && h.prev.Some? && h.prev.value in s.shares && s.shares[h.prev.value].conn == h.conn
                  && (s.shares[h.prev.value].whole ==> h.away <= s.shares[h.prev.value].hi))
  {
    var s := Run(START, es);
    Reached(es);
    assert ShareOk(s, c, s.shares[c]);
    assert FollowsOn(s, s.shares[c].conn, s.shares[c].away, s.shares[c].prev);
  }

  // While a session is up and no core is attached, the buffer is the newest bytes read
  // since the last core stopped; with a core attached it is empty.
  lemma InboundHeld(es: seq<Event>)
    requires Legal(START, es)
    ensures var s := Run(START, es);
            && (s.k.core.Some? ==> s.k.buffer == [])
            && (Session(s.loop).None? ==> s.k.buffer == [])
            && (s.k.core.None? && Session(s.loop).Some? ==>
                  && s.away <= Seen(s)
                  && FollowsOn(s, Session(s.loop).value, s.away, s.last)
                  && var held, n := Stream(s, Session(s.loop).value)[s.away..], 4194304;
                     s.k.buffer == if |held| <= n then held else held[|held| - n..])
  {
    Reached(es);
  }

  // Cores are served one at a time: nobody is attached when the next is accepted.
  lemma OneCore(es: seq<Event>, core: nat, o: Outcome)
    requires Legal(START, es) && Enabled(Run(START, es), Accept(core, o))
    ensures Run(START, es).k.core == None
  {
    Reached(es);
  }

  // The outbound buffer is the longest run of whole lines, from the start of what was
  // queued since it was last emptied, that fits; a dial delivers just that.
  lemma OutboundHeld(es: seq<Event>, conn: nat)
    requires Legal(START, es)
    ensures Run(START, es).k.out == HeldOut(Bytes(Run(START, es).queue))
    ensures var s := Run(START, es);
            Enabled(s, Dial(conn, Ok)) && !s.k.closed ==>
              Sent(Step(s, Dial(conn, Ok)).k.net, conn) == Held(Bytes(s.queue))
  {
    hide Inv, Bytes, Held;
    Reached(es);
    var s := Run(START, es);
    OutIs(s);
    if Enabled(s, Dial(conn, Ok)) && !s.k.closed { DialDelivers(s, conn); }
  }

  lemma OutIs(s: Sys)
    requires Inv(s)
    ensures s.k.out == HeldOut(Bytes(s.queue)) && (s.k.irc.Some? ==> s.k.irc.value in s.k.net.sent)
  {
    hide Bytes, HeldOut, ShareInv, LoopInv, ShutInv, ServeInv;
  }

  lemma DialDelivers(s: Sys, conn: nat)
    requires Enabled(s, Dial(conn, Ok)) && !s.k.closed && (s.k.irc.Some? ==> s.k.irc.value in s.k.net.sent)
    ensures Sent(Step(s, Dial(conn, Ok)).k.net, conn) == s.k.out.bytes
  {}

  // Whether a pump turn goes on, and with a probe out or not.
  lemma PumpGoesOn(es: seq<Event>, r: Read, o: Outcome, p: Outcome)
    requires Legal(START, es) && Enabled(Run(START, es), Pump(r, o, p))
    ensures var s := Run(START, es);
            var i, silent := s.loop.conn, r.b == [] && r.end == Deadline;
            Step(s, Pump(r, o, p)).loop
            == if r.end == Broken || (silent && (s.loop.probed || !(i in s.k.net.open && p == Ok))) then Down(i)
               else Pumping(i, r.b == [] && (s.loop.probed || silent))
  {
    Reached(es);
    var s := Run(START, es);
    Separate(s);
    TurnEnds(s.k, s.loop.conn, s.loop.probed, Turn(r, o, p));
  }

  lemma Separate(s: Sys)
    requires Inv(s) && s.loop.Pumping?
    ensures s.k.core != Some(s.loop.conn)
  {
    hide ServeInv, ShareInv, LoopInv, OutInv, ShutInv;
  }

  predicate Dead(s: Sys, id: Option<nat>) {
    id.Some? ==> id.value !in s.k.net.open
  }

  // Once a connection is lost, it and the core then attached are closed, nothing of the
  // session is kept, and the next thing is to dial again.
  lemma Redials(s: Sys)
    requires s.loop.Down?
    ensures Legal(s, [Clear, Drop, CloseDropped])
    ensures forall e :: Enabled(s, e) && (e.Dial? || e.Pump? || e.Clear? || e.Drop? || e.CloseDropped? || e.Stop?) ==> e == Clear
    ensures var t := Run(s, [Clear, Drop, CloseDropped]);
            && t.loop == Dialing && t.k.irc.None? && t.k.buffer == [] && t.k.out.bytes == [] && !t.k.out.dropped
            && Dead(t, s.k.irc) && Dead(t, s.k.core) && t.queue == []
  {
    var a := Step(s, Clear);
    var b := Step(a, Drop);
    ThreeSteps(s, Clear, Drop, CloseDropped);
  }

  // Shutting down marks the keeper closed and then closes both its connections; the dial
  // loop stops where it next looks.
  lemma ShutsDown(s: Sys)
    requires s.shut == Up
    ensures Legal(s, [Cancel, Mark, CloseBoth])
    ensures var t := Run(s, [Cancel, Mark, CloseBoth]);
            && t.shut == Over && t.k.closed && Dead(t, s.k.irc) && Dead(t, s.k.core) && t.loop == s.loop
            && (t.loop == Dialing ==> Enabled(t, Stop) && Step(t, Stop).loop == Stopped(None))
            && (t.loop.Cleared? ==> Enabled(t, Stop) && Step(t, Stop).loop == Stopped(Some(t.loop.conn)))
  {
    ThreeSteps(s, Cancel, Mark, CloseBoth);
  }

  lemma ThreeSteps(s: Sys, a: Event, b: Event, c: Event)
    requires Enabled(s, a) && Enabled(Step(s, a), b) && Enabled(Step(Step(s, a), b), c)
    ensures Legal(s, [a, b, c]) && Run(s, [a, b, c]) == Step(Step(Step(s, a), b), c)
  {
    hide Step, Enabled;
    NoRun(s);
    RunMore(s, [], a);
    RunMore(s, [a], b);
    RunMore(s, [a, b], c);
    assert [] + [a] == [a] && [a] + [b] == [a, b] && [a, b] + [c] == [a, b, c];
  }

  // A core that leaves is closed, and the next one can come.
  lemma CoreLeaves(s: Sys)
    requires s.serve.Serving?
    ensures var t := Step(s, CoreGone);
            Dead(t, Some(s.serve.core)) && t.serve == Accepting && t.k.core != Some(s.serve.core) && t.k.irc == s.k.irc
  {}

  // The core sends chunk after chunk, and each is passed on.
  function Sends(chunks: seq<seq<Byte>>): seq<Event> {
    if chunks == [] then []
    else Sends(chunks[..|chunks| - 1]) + [Outbound(chunks[|chunks| - 1])] + [Send(Ok)]
  }

  // While an IRC connection is up, what the core sends goes to it whole and in order, and to
  // nothing else.
  lemma {:induction false} Relays(s: Sys, conn: nat, chunks: seq<seq<Byte>>)
    requires s.serve.Serving? && s.k.irc == Some(conn) && conn in s.k.net.open
    requires forall b :: b in chunks ==> |b| <= READ_BUFFER
    ensures Legal(s, Sends(chunks))
    ensures Relayed(s, Run(s, Sends(chunks)), conn, Flat(chunks))
  {
    hide Run, Legal, Step, Enabled, Relayed;
    if chunks == [] {
      NoRun(s);
      RelayedNone(s, conn);
    } else {
      var init, b := chunks[..|chunks| - 1], chunks[|chunks| - 1];
      assert b in chunks && forall x :: x in init ==> x in chunks;
      Relays(s, conn, init);
      var m := Run(s, Sends(init));
      RelayOne(s, m, conn, Flat(init), b);
      RunMore(s, Sends(init), Outbound(b));
      RunMore(s, Sends(init) + [Outbound(b)], Send(Ok));
    }
  }

  ghost predicate Relayed(s: Sys, t: Sys, conn: nat, b: seq<Byte>) {
    && t == s.(k := s.k.(net := t.k.net)) && conn in t.k.net.open
    && Sent(t.k.net, conn) == Sent(s.k.net, conn) + b
    && forall i :: i != conn ==> Sent(t.k.net, i) == Sent(s.k.net, i)
  }

  lemma RelayedNone(s: Sys, conn: nat)
    requires conn in s.k.net.open
    ensures Relayed(s, s, conn, [])
  {}

  lemma NoRun(s: Sys)
    ensures Legal(s, []) && Run(s, []) == s
  {}

  lemma RelayOne(s: Sys, m: Sys, conn: nat, a: seq<Byte>, b: seq<Byte>)
    requires s.serve.Serving? && s.k.irc == Some(conn) && Relayed(s, m, conn, a) && |b| <= READ_BUFFER
    ensures Enabled(m, Outbound(b)) && Enabled(Step(m, Outbound(b)), Send(Ok))
    ensures Relayed(s, Step(Step(m, Outbound(b)), Send(Ok)), conn, a + b)
  {}

  // Queued bytes come from the core being served, or from one a write to had failed.
  lemma OutboundOwners(es: seq<Event>)
    requires Legal(START, es)
    ensures forall q :: q in Run(START, es).queue ==> Owner(Run(START, es), q.core)
  {
    Reached(es);
  }

  // A served core is the attached one exactly while no write to it has failed.
  lemma ServedFailed(es: seq<Event>)
    requires Legal(START, es) && !Run(START, es).serve.Accepting?
    ensures var s := Run(START, es); s.serve.core in s.failed <==> s.k.core != Some(s.serve.core)
  {
    Reached(es);
  }

  // What is held when a core leaves stays exactly if a write to it had failed.
  lemma DetachForgets(es: seq<Event>)
    requires Legal(START, es) && Enabled(Run(START, es), CoreGone)
    ensures var s := Run(START, es);
            Step(s, CoreGone).k.out != NO_OUT <==> s.serve.core in s.failed && s.k.out != NO_OUT
  {
    ServedFailed(es);
  }

  // --- whose bytes a connection is given ------------------------------------------------

  // The core each queued byte came from.
  function Owners(queue: seq<Chunk>): (cs: seq<nat>)
    ensures |cs| == |Bytes(queue)|
  {
    if queue == [] then []
    else
      var q := queue[|queue| - 1];
      Owners(queue[..|queue| - 1]) + seq(|q.b|, _ => q.core)
  }

  // How many of the queued bytes were left by a core that a write had failed to: counted
  // when it leaves, and forgotten when the queue is emptied.
  function LeftNext(s: Sys, left: nat, e: Event): nat
    requires Enabled(s, e)
  {
    match e
    case Clear => 0
    case Dial(_, _) => if s.k.closed then left else 0
    case CoreGone => if s.serve.core in s.failed then |Bytes(s.queue)| else 0
    case _ => left
  }

  ghost function LeftBy(s: Sys, left: nat, es: seq<Event>): nat
    requires Legal(s, es)
    decreases |es|
  {
    if es == [] then left else LeftBy(Step(s, es[0]), LeftNext(s, left, es[0]), es[1..])
  }

  // Until shutdown: nothing is queued while a connection is up; then first come the bytes
  // of one core that left, and then those of the core being served.
  ghost predicate LeftInv(s: Sys, left: nat) {
    !s.k.closed ==>
      && (s.loop.Pumping? || s.loop.Down? ==> s.k.irc.Some?)
      && (s.k.irc.Some? ==> s.queue == [] && left == 0)
      && (s.k.irc.None? && !s.serve.Accepting? && s.serve.core in s.failed ==> left == 0)
      && left <= |Owners(s.queue)|
      && (forall i :: 0 <= i < left ==> Gone(s, Owners(s.queue)[0], Owners(s.queue)[i]))
      && (forall i :: left <= i < |Owners(s.queue)| ==> Served(s, Owners(s.queue)[i]))
  }

  ghost predicate Served(s: Sys, c: nat) {
    !s.serve.Accepting? && s.serve.core == c
  }

  ghost predicate Gone(s: Sys, first: nat, c: nat) {
    c == first && c in s.failed && !Served(s, c)
  }

  lemma NoOwners()
    ensures Owners([]) == [] && |Bytes([])| == 0
  {}

  lemma OutboundLeft(s: Sys, left: nat, b: seq<Byte>)
    requires Inv(s) && LeftInv(s, left) && Enabled(s, Outbound(b))
    ensures LeftInv(OutboundStep(s, b), left)
  {
    hide Inv, BufferOut;
    var q := s.queue + [Chunk(s.serve.core, b)];
    assert q[..|s.queue|] == s.queue;
    var s' := OutboundStep(s, b);
    if s.k.irc.None? && !s.k.closed {
      assert Owners(q) == Owners(s.queue) + seq(|b|, _ => s.serve.core);
      hide Owners;
      forall i | left <= i < |Owners(q)| ensures Served(s', Owners(q)[i]) {
        if i < |Owners(s.queue)| { assert Served(s, Owners(s.queue)[i]); }
      }
      forall i | 0 <= i < left ensures Gone(s', Owners(q)[0], Owners(q)[i]) {
        assert Gone(s, Owners(s.queue)[0], Owners(s.queue)[i]);
      }
    }
  }

  lemma CoreGoneLeft(s: Sys, left: nat)
    requires Inv(s) && LeftInv(s, left) && Enabled(s, CoreGone)
    ensures LeftInv(CoreGoneStep(s), LeftNext(s, left, CoreGone))
  {
    hide Owners, Bytes, NetInv, ShareInv, LoopInv, OutInv, ShutInv;
    NoOwners();
    var s', c := CoreGoneStep(s), s.serve.core;
    if c in s.failed && !s.k.closed {
      forall i | 0 <= i < |Owners(s.queue)| ensures Gone(s', Owners(s.queue)[0], Owners(s.queue)[i]) {
        assert Served(s, Owners(s.queue)[0]) && Served(s, Owners(s.queue)[i]);
      }
    }
  }

  lemma AcceptLeft(s: Sys, left: nat, core: nat, o: Outcome)
    requires Inv(s) && LeftInv(s, left) && Enabled(s, Accept(core, o))
    ensures LeftInv(AcceptStep(s, core, o), left)
  {
    hide Owners, Bytes, ShareInv, LoopInv, OutInv, ShutInv;
    var s' := AcceptStep(s, core, o);
    assert core !in s.cores && core !in s.failed;
    if !s.k.closed {
      forall i | 0 <= i < left ensures Gone(s', Owners(s.queue)[0], Owners(s.queue)[i]) {
        assert Gone(s, Owners(s.queue)[0], Owners(s.queue)[i]);
      }
    }
  }

  lemma PumpLeft(s: Sys, left: nat, r: Read, o: Outcome, p: Outcome)
    requires Inv(s) && LeftInv(s, left) && Enabled(s, Pump(r, o, p))
    ensures LeftInv(PumpStep(s, r, o, p), left)
  {
    hide Owners, Bytes, PumpTurn, ShareInv, LoopInv, OutInv, ShutInv;
    PumpFields(s, r, o, p);
    NoOwners();
  }

  lemma OtherLeft(s: Sys, left: nat, e: Event)
    requires Inv(s) && LeftInv(s, left) && Enabled(s, e) && (Quiet(e) || e.Dial?)
    ensures LeftInv(Step(s, e), LeftNext(s, left, e))
  {
    hide Owners, Bytes, Inv, PumpTurn;
    NoOwners();
    var s' := Step(s, e);
    forall i | 0 <= i < |Owners(s.queue)|
      ensures Served(s, Owners(s.queue)[i]) == Served(s', Owners(s.queue)[i])
              && Gone(s, Owners(s.queue)[0], Owners(s.queue)[i]) == Gone(s', Owners(s.queue)[0], Owners(s.queue)[i]) {}
  }

  lemma StepLeft(s: Sys, left: nat, e: Event)
    requires Inv(s) && LeftInv(s, left) && Enabled(s, e)
    ensures LeftInv(Step(s, e), LeftNext(s, left, e))
  {
    hide Inv, LeftInv, Bytes;
    match e
    case Outbound(b) => OutboundLeft(s, left, b);
    case CoreGone => CoreGoneLeft(s, left);
    case Accept(core, o) => AcceptLeft(s, left, core, o);
    case Pump(r, o, p) => PumpLeft(s, left, r, o, p);
    case _ => OtherLeft(s, left, e);
  }

  lemma {:induction false} RunLeft(s: Sys, left: nat, es: seq<Event>)
    requires Inv(s) && LeftInv(s, left) && Legal(s, es)
    ensures LeftInv(Run(s, es), LeftBy(s, left, es))
    decreases |es|
  {
    hide Inv, LeftInv, Step, Enabled, LeftNext;
    if es != [] {
      StepKeeps(s, es[0]);
      StepLeft(s, left, es[0]);
      RunLeft(Step(s, es[0]), LeftNext(s, left, es[0]), es[1..]);
    }
  }

  ghost predicate OneOwner(cs: seq<nat>) {
    forall i, j :: 0 <= i < j < |cs| ==> cs[i] == cs[j]
  }

  lemma HeldPrefix(q: seq<Byte>)
    ensures |Held(q)| <= |q| && Held(q) == q[..|Held(q)|]
  {}

  // A connection that is dialled is given the bytes of a single core exactly if no core
  // that a write had failed to left bytes in the queue, or nothing beyond them is held.
  lemma DeliveredOneCore(es: seq<Event>, conn: nat)
    requires Legal(START, es) && Enabled(Run(START, es), Dial(conn, Ok)) && !Run(START, es).k.closed
    ensures var s, left := Run(START, es), LeftBy(START, 0, es);
            var given := Sent(Step(s, Dial(conn, Ok)).k.net, conn);
            && given <= Bytes(s.queue)
            && (OneOwner(Owners(s.queue)[..|given|]) <==> left == 0 || |given| <= left)
  {
    var s, left := Run(START, es), LeftBy(START, 0, es);
    StartLeft();
    OutboundHeld(es, conn);
    RunLeft(START, 0, es);
    HeldPrefix(Bytes(s.queue));
    hide Bytes, Held, Owners, Run, LeftBy;
    OwnersSplit(s, left, |Held(Bytes(s.queue))|);
  }

  lemma StartLeft()
    ensures Inv(START) && LeftInv(START, 0)
  {}

  lemma OwnersSplit(s: Sys, left: nat, n: nat)
    requires LeftInv(s, left) && !s.k.closed && n <= |Owners(s.queue)|
    ensures OneOwner(Owners(s.queue)[..n]) <==> left == 0 || n <= left
  {
    hide Owners, Bytes;
    var cs := Owners(s.queue);
    if 0 < left < n {
      assert Gone(s, cs[0], cs[0]) && Served(s, cs[left]);
      assert cs[..n][0] != cs[..n][left];
    }
    forall i, j | 0 <= i < j < n && (left == 0 || n <= left) ensures cs[i] == cs[j] {
      if left == 0 { assert Served(s, cs[i]) && Served(s, cs[j]); } else { assert Gone(s, cs[0], cs[i]) && Gone(s, cs[0], cs[j]); }
    }
  }

  lemma {:induction false} RunMore(s: Sys, es: seq<Event>, e: Event)
    requires Legal(s, es) && Enabled(Run(s, es), e)
    ensures Legal(s, es + [e]) && Run(s, es + [e]) == Step(Run(s, es), e)
    decreases |es|
  {
    if es == [] {
      assert Legal(Step(s, e), []);
      assert ([] + [e])[1..] == [];
    } else {
      RunMore(Step(s, es[0]), es[1..], e);
      assert (es + [e])[1..] == es[1..] + [e];
    }
  }

  lemma StartRun()
    ensures Legal(START, []) && Run(START, []) == START
  {}

  lemma Then(es: seq<Event>, s: Sys, e: Event) returns (es': seq<Event>, s': Sys)
    requires Legal(START, es) && Run(START, es) == s && Enabled(s, e)
    ensures es' == es + [e] && s' == Step(s, e) && Legal(START, es') && Run(START, es') == s'
  {
    RunMore(START, es, e);
    es', s' := es + [e], Step(s, e);
  }

  // Core 1 is attached and connection 0 is up.
  ghost predicate Relaying(s: Sys) {
    && s.loop == Pumping(0, false) && s.serve == Serving(1) && s.queue == [] && s.k.net.sent.Keys == {0, 1}
    && s.k.irc == Some(0) && s.k.core == Some(1) && s.k.out == NO_OUT && !s.k.closed
  }

  // A write to core 1 failed, and then its IRC connection died.
  ghost predicate Lost(s: Sys) {
    && s.loop == Cleared(0) && s.serve == Serving(1) && s.queue == [] && s.k.net.sent.Keys == {0, 1}
    && s.k.irc.None? && s.k.core.None? && s.k.out == NO_OUT && !s.k.closed
  }

  // Core 1 spoke before it left.
  ghost predicate Left(s: Sys) {
    && s.loop == Cleared(0) && s.serve == Accepting && s.queue == [Chunk(1, [65])] && s.k.net.sent.Keys == {0, 1}
    && s.k.irc.None? && s.k.core.None? && s.k.out == Out([65], false) && !s.k.closed
  }

  // So did core 2.
  ghost predicate Mixed(s: Sys) {
    && s.loop == Cleared(0) && s.queue == [Chunk(1, [65]), Chunk(2, [66])] && s.k.net.sent.Keys == {0, 1, 2}
    && s.k.irc.None? && s.k.out == Out([65, 66], false) && !s.k.closed
  }

  lemma MixRelays(es: seq<Event>, s: Sys) returns (es': seq<Event>, s': Sys)
    requires Legal(START, es) && Run(START, es) == s && s == START
    ensures es <= es' && Legal(START, es') && Run(START, es') == s' && Relaying(s')
  {
    hide Legal, Run, LastIndex, Held, LastN, From, Extended, Stream, Seen;
    es', s' := Then(es, s, Dial(0, Ok));
    es', s' := Then(es', s', Accept(1, Ok));
  }

  lemma MixLoses(es: seq<Event>, s: Sys) returns (es': seq<Event>, s': Sys)
    requires Legal(START, es) && Run(START, es) == s && Relaying(s)
    ensures es <= es' && Legal(START, es') && Run(START, es') == s' && Lost(s')
  {
    hide Legal, Run, LastIndex, Held, LastN, From, Extended, Stream, Seen;
    es', s' := Then(es, s, Pump(Read([1], More), Fail(0), Ok));
    es', s' := Then(es', s', Pump(Read([], Broken), Ok, Ok));
    es', s' := Then(es', s', Clear);
  }

  lemma MixLeaves(es: seq<Event>, s: Sys) returns (es': seq<Event>, s': Sys)
    requires Legal(START, es) && Run(START, es) == s && Lost(s)
    ensures es <= es' && Legal(START, es') && Run(START, es') == s' && Left(s')
  {
    hide Legal, Run, LastIndex, Held, LastN, From, Extended, Stream, Seen;
    es', s' := Then(es, s, Outbound([65]));
    es', s' := Then(es', s', CoreGone);
    assert s'.k.out.bytes == [65];
  }

  lemma MixJoins(es: seq<Event>, s: Sys) returns (es': seq<Event>, s': Sys)
    requires Legal(START, es) && Run(START, es) == s && Left(s)
    ensures es <= es' && Legal(START, es') && Run(START, es') == s' && Mixed(s')
  {
    hide Legal, Run, LastIndex, Held, LastN, From, Extended, Stream, Seen;
    es', s' := Then(es, s, Accept(2, Ok));
    es', s' := Then(es', s', Outbound([66]));
    assert s'.k.out.bytes == [65, 66];
  }

  // When it was not, one connection can be given the bytes of two cores.
  lemma OutboundMixes() returns (es: seq<Event>, mid: seq<Event>)
    ensures Legal(START, es) && Sent(Run(START, es).k.net, 3) == [65, 66]
    ensures mid <= es && Legal(START, mid) && Run(START, mid).queue == [Chunk(1, [65]), Chunk(2, [66])]
  {
    hide Legal, Run, LastIndex, LastN, Bytes, Extended, From, Held;
    StartRun();
    es := [];
    var s := START;
    es, s := MixRelays(es, s);
    es, s := MixLoses(es, s);
    es, s := MixLeaves(es, s);
    es, s := MixJoins(es, s);
    mid := es;
    es, s := Then(es, s, Drop);
    es, s := Then(es, s, CloseDropped);
    es, s := Then(es, s, Dial(3, Ok));
  }

  // After shutdown no IRC connection, however late its dial came back, takes writes.
  lemma ShutdownClosesAll(es: seq<Event>)
    requires Legal(START, es) && Run(START, es).shut.Over?
    ensures Run(START, es).streams.Keys !! Run(START, es).k.net.open
  {
    Reached(es);
  }
}
