// The connection keeper: what each section under its lock does to its fields and to
// the sockets.
module Keeper {
  import opened Basics
  import opened KeeperBuffers

  // How a socket write ends: whole, or after a prefix and with an error.
  datatype Outcome = Ok | Fail(n: nat)

  // Which sockets still take writes, and what each has taken.
  datatype Net = Net(open: set<nat>, sent: map<nat, seq<Byte>>)

  function Sent(net: Net, id: nat): seq<Byte> {
    if id in net.sent then net.sent[id] else []
  }

  predicate Taken(net: Net, id: nat, o: Outcome) {
    id in net.open && o == Ok
  }

  // The part of b that a write to id delivers: nothing once the socket is dead.
  function Part(net: Net, id: nat, b: seq<Byte>, o: Outcome): seq<Byte> {
    if id !in net.open then [] else if o == Ok || o.n > |b| then b else b[..o.n]
  }

  function Written(net: Net, id: nat, b: seq<Byte>, o: Outcome): Net {
    Net(if Taken(net, id, o) then net.open else net.open - {id},
        net.sent[id := Sent(net, id) + Part(net, id, b, o)])
  }

  function Closed(net: Net, id: Option<nat>): Net {
    if id.None? then net else net.(open := net.open - {id.value})
  }

  function Opened(net: Net, id: nat): Net {
    Net(net.open + {id}, net.sent[id := Sent(net, id)])
  }

  // The keeper's fields as one value.
  datatype Fields = Fields(irc: Option<nat>, core: Option<nat>, buffer: seq<Byte>, out: Out, closed: bool, net: Net)

  const NO_OUT := Out([], false)

  function ToCore(k: Fields, b: seq<Byte>, o: Outcome): Fields {
    if k.core.None? then k.(buffer := BufferIn(k.buffer, b))
    else
      var k' := k.(net := Written(k.net, k.core.value, b, o));
      if Taken(k.net, k.core.value, o) then k' else k'.(core := None, buffer := BufferIn(k.buffer, b))
  }

  // A dialled connection is kept and given the held bytes, or shut if the keeper is
  // shutting down. Closing the previous one, after the lock, is part of the step.
  function SetIRC(k: Fields, conn: nat, o: Outcome): Fields {
    if k.closed then k.(net := Closed(k.net, Some(conn)))
    else
      var net := if k.out.bytes == [] then k.net else Written(k.net, conn, k.out.bytes, o);
      k.(irc := Some(conn), out := NO_OUT, net := Closed(net, k.irc))
  }

  function UnsetIRC(k: Fields): Fields {
    k.(irc := None, out := NO_OUT, net := Closed(k.net, k.irc))
  }

  function Attach(k: Fields, conn: nat, o: Outcome): Fields {
    var net := Closed(k.net, k.core);
    k.(core := Some(conn), buffer := [], net := if k.buffer == [] then net else Written(net, conn, k.buffer, o))
  }

  function Detach(k: Fields, conn: nat): Fields {
    var k' := if k.core == Some(conn) then k.(core := None, out := NO_OUT) else k;
    k'.(net := Closed(k.net, Some(conn)))
  }

  // Outbound bytes are held while there is no IRC connection to write them to.
  function ToIRC(k: Fields, b: seq<Byte>): Fields {
    if k.irc.None? then k.(out := BufferOut(k.out, b)) else k
  }

  // One read of the IRC socket: some bytes, and how the call ended.
  datatype ReadEnd = More | Deadline | Broken
  datatype Read = Read(b: seq<Byte>, end: ReadEnd)

  // After one turn of the pump: whether a probe is out, and whether the pump gave up.
  datatype Pumped = Pumped(k: Fields, probed: bool, done: bool)

  const PROBE_LINE: seq<Byte> := [80, 73, 78, 71, 32, 58, 107, 101, 101, 112, 101, 114, 13, 10]

  function PumpTurn(k: Fields, conn: nat, probed: bool, r: Read, o: Outcome, p: Outcome): Pumped {
    var k' := if r.b == [] then k else ToCore(k, r.b, o);
    var probed' := probed && r.b == [];
    if r.end == More || (r.end == Deadline && r.b != []) then Pumped(k', probed', false)
    else if r.end == Deadline && !probed' then
      Pumped(k'.(net := Written(k'.net, conn, PROBE_LINE, p)), true, !Taken(k'.net, conn, p))
    else Pumped(k', probed', true)
  }

  // --- the silence watchdog ----------------------------------------------------

  datatype Turn = Turn(r: Read, o: Outcome, p: Outcome)

  // The pump over turns in a row, from a new connection.
  function PumpAll(k: Fields, conn: nat, turns: seq<Turn>): Pumped {
    if turns == [] then Pumped(k, false, false)
    else
      var b, t := PumpAll(k, conn, turns[..|turns| - 1]), turns[|turns| - 1];
      if b.done then b else PumpTurn(b.k, conn, b.probed, t.r, t.o, t.p)
  }

  // The deadline passed and nothing was read.
  predicate Silent(t: Turn) {
    t.r.b == [] && t.r.end == Deadline
  }

  // Turn j is silent, and so was an earlier one with no bytes in between.
  ghost predicate SilentAgain(turns: seq<Turn>, j: nat)
    requires j < |turns|
  {
    Silent(turns[j]) && exists i :: 0 <= i < j && Silent(turns[i]) && Wordless(turns, i, j)
  }

  ghost predicate Wordless(turns: seq<Turn>, i: nat, j: nat)
    requires i <= j <= |turns|
  {
    forall m :: i <= m < j ==> turns[m].r.b == []
  }

  // What ends a connection: a read that breaks, a silence whose probe the socket does not
  // take, or the second silence in a row. Live says whether the socket takes writes.
  ghost predicate Ends(live: bool, turns: seq<Turn>, j: nat)
    requires j < |turns|
  {
    turns[j].r.end == Broken || (Silent(turns[j]) && !(live && turns[j].p == Ok)) || SilentAgain(turns, j)
  }

  ghost predicate SomeEnd(live: bool, turns: seq<Turn>) {
    exists j :: 0 <= j < |turns| && Ends(live, turns, j)
  }

  // A silence since the last bytes.
  ghost predicate Hushed(turns: seq<Turn>) {
    exists i :: 0 <= i < |turns| && Silent(turns[i]) && Wordless(turns, i, |turns|)
  }

  // Over any turns a connection is given up exactly if one of them ended it; until then it
  // is probed at the first silence, and its socket is alive if it was.
  lemma {:induction false} Watchdog(k: Fields, conn: nat, turns: seq<Turn>)
    requires k.core != Some(conn)
    ensures PumpAll(k, conn, turns).done <==> SomeEnd(conn in k.net.open, turns)
    ensures var b := PumpAll(k, conn, turns);
            !b.done ==> b.probed == Hushed(turns) && (conn in b.k.net.open <==> conn in k.net.open) && b.k.core != Some(conn)
  {
    if turns != [] {
      var init, t := turns[..|turns| - 1], turns[|turns| - 1];
      assert turns == init + [t];
      Watchdog(k, conn, init);
      EndsMore(conn in k.net.open, init, t);
      HushedMore(init, t);
      if !PumpAll(k, conn, init).done {
        TurnEnds(PumpAll(k, conn, init).k, conn, PumpAll(k, conn, init).probed, t);
      }
    }
  }

  lemma TurnEnds(k: Fields, conn: nat, probed: bool, t: Turn)
    requires k.core != Some(conn)
    ensures var b := PumpTurn(k, conn, probed, t.r, t.o, t.p);
            && b.k.core != Some(conn)
            && b.done == (t.r.end == Broken || (Silent(t) && (probed || !(conn in k.net.open && t.p == Ok))))
            && (!b.done ==> b.probed == (t.r.b == [] && (probed || Silent(t)))
                            && (conn in b.k.net.open <==> conn in k.net.open))
  {
    hide BufferIn;
  }

  // The earlier turns stay what they were.
  lemma Earlier(init: seq<Turn>, t: Turn)
    ensures forall m :: 0 <= m < |init| ==> (init + [t])[m] == init[m]
    ensures forall i, j :: 0 <= i <= j <= |init| ==> Wordless(init + [t], i, j) == Wordless(init, i, j)
    ensures forall j :: 0 <= j < |init| ==> SilentAgain(init + [t], j) == SilentAgain(init, j)
  {
    var turns := init + [t];
    forall i, j | 0 <= i <= j <= |init| ensures Wordless(turns, i, j) == Wordless(init, i, j) {
      assert forall m :: i <= m < j ==> turns[m] == init[m];
    }
  }

  lemma EndsMore(live: bool, init: seq<Turn>, t: Turn)
    ensures SomeEnd(live, init + [t])
            <==> (SomeEnd(live, init) || t.r.end == Broken || (Silent(t) && (Hushed(init) || !(live && t.p == Ok))))
  {
    hide Wordless, Silent;
    Earlier(init, t);
    var turns := init + [t];
    assert SilentAgain(turns, |init|) <==> Silent(t) && Hushed(init) by {
      if Hushed(init) {
        var i :| 0 <= i < |init| && Silent(init[i]) && Wordless(init, i, |init|);
        assert Silent(turns[i]) && Wordless(turns, i, |init|);
      }
    }
    forall j | 0 <= j < |init| ensures Ends(live, turns, j) == Ends(live, init, j) {}
    if SomeEnd(live, init) {
      var j :| 0 <= j < |init| && Ends(live, init, j);
      assert Ends(live, turns, j);
    }
    if Ends(live, turns, |init|) { assert SomeEnd(live, turns); }
  }

  lemma HushedMore(init: seq<Turn>, t: Turn)
    ensures Hushed(init + [t]) <==> t.r.b == [] && (Hushed(init) || Silent(t))
  {
    Earlier(init, t);
    var turns := init + [t];
    if Hushed(turns) {
      var i :| 0 <= i < |turns| && Silent(turns[i]) && Wordless(turns, i, |turns|);
      assert turns[|init|].r.b == [];
      if i < |init| { assert Silent(init[i]) && Wordless(turns, i, |init|); }
    }
    if t.r.b == [] && Silent(t) {
      assert Silent(turns[|init|]) && Wordless(turns, |init|, |turns|);
    } else if t.r.b == [] && Hushed(init) {
      var i :| 0 <= i < |init| && Silent(init[i]) && Wordless(init, i, |init|);
      assert Silent(turns[i]) && Wordless(turns, i, |turns|);
    }
  }

  // The first silence, and only that, sends the probe: PING :keeper and a line end.
  lemma ProbeSent(k: Fields, conn: nat, probed: bool, t: Turn)
    requires k.core != Some(conn) && conn in k.net.open
    ensures Sent(PumpTurn(k, conn, probed, t.r, t.o, t.p).k.net, conn)
            == Sent(k.net, conn) + if !Silent(t) || probed then [] else
                 Part(k.net, conn, [80, 73, 78, 71, 32, 58, 107, 101, 101, 112, 101, 114, 13, 10], t.p)
  {
    hide BufferIn;
  }

  class Keeper {
    var irc: Option<nat>
    var core: Option<nat>
    var buffer: seq<Byte>
    var outBuf: seq<Byte>
    var outDropped: bool
    var closed: bool
    var net: Net

    function Now(): Fields
      reads this
    {
      Fields(irc, core, buffer, Out(outBuf, outDropped), closed, net)
    }

    constructor ()
      ensures Now() == Fields(None, None, [], NO_OUT, false, Net({}, map[]))
    {
      irc, core, buffer, outBuf, outDropped, closed, net := None, None, [], [], false, false, Net({}, map[]);
    }

    // Write to a socket; ok says whether it took everything.
    method Write(id: nat, b: seq<Byte>, o: Outcome) returns (ok: bool)
      modifies this`net
      ensures net == Written(old(net), id, b, o) && ok == Taken(old(net), id, o)
    {
      ok := id in net.open && o == Ok;
      net := Written(net, id, b, o);
    }

    method BufferLocked(b: seq<Byte>)
      modifies this`buffer
      ensures buffer == BufferIn(old(buffer), b)
    {
      if |buffer| + |b| > MAX_BUFFER {
        var over := |buffer| + |b| - MAX_BUFFER;
        if over >= |buffer| {
          buffer := [];
        } else {
          buffer := buffer[over..];
        }
      }
      buffer := buffer + b;
    }

    method DeliverToCore(b: seq<Byte>, o: Outcome)
      modifies this
      ensures Now() == ToCore(old(Now()), b, o)
    {
      if core.Some? {
        var ok := Write(core.value, b, o);
        if !ok {
          core := None;
          BufferLocked(b);
        }
        return;
      }
      BufferLocked(b);
    }

    // One turn of the pump loop: forward what was read, then judge the silence.
    method PumpOnce(conn: nat, probed: bool, r: Read, o: Outcome, p: Outcome) returns (probed': bool, done: bool)
      modifies this
      ensures Pumped(Now(), probed', done) == PumpTurn(old(Now()), conn, probed, r, o, p)
    {
      probed', done := probed, false;
      if |r.b| > 0 {
        probed' := false;
        DeliverToCore(r.b, o);
      }
      if r.end == More {
        return;
      }
      if r.end != Deadline {
        done := true;
        return;
      }
      if |r.b| > 0 {
        return;
      }
      if !probed' {
        probed' := true;
        var ok := Write(conn, PROBE_LINE, p);
        done := !ok;
        return;
      }
      done := true;
    }

    method BufferOutLocked(b: seq<Byte>)
      modifies this`outBuf, this`outDropped
      ensures Out(outBuf, outDropped) == BufferOut(Out(old(outBuf), old(outDropped)), b)
    {
      if outDropped {
        return;
      }
      if |outBuf| + |b| > MAX_OUT_BUFFER {
        var room := MAX_OUT_BUFFER - |outBuf|;
        if room > 0 {
          outBuf := outBuf + b[..room];
        }
        var i := LastIndexByte(outBuf, NEWLINE);
        outBuf := if i >= 0 then outBuf[..i + 1] else [];
        outDropped := true;
        return;
      }
      outBuf := outBuf + b;
    }

    // The connection to write b to, if there is one; otherwise b is held.
    method RouteToIRC(b: seq<Byte>) returns (conn: Option<nat>)
      modifies this`outBuf, this`outDropped
      ensures Now() == ToIRC(old(Now()), b) && conn == irc
    {
      conn := irc;
      if irc.None? {
        BufferOutLocked(b);
      }
    }

    method CloseConn(id: Option<nat>)
      modifies this`net
      ensures net == Closed(old(net), id)
    {
      net := Closed(net, id);
    }

    method InstallIRC(conn: nat, o: Outcome)
      modifies this
      ensures Now() == SetIRC(old(Now()), conn, o)
    {
      if closed {
        CloseConn(Some(conn));
        return;
      }
      var previous := irc;
      irc := Some(conn);
      if |outBuf| > 0 {
        var _ := Write(conn, outBuf, o);
      }
      outBuf, outDropped := [], false;
      CloseConn(previous);
    }

    method ClearIRC()
      modifies this
      ensures Now() == UnsetIRC(old(Now()))
    {
      var previous := irc;
      irc, outBuf, outDropped := None, [], false;
      CloseConn(previous);
    }

    method AttachCore(conn: nat, o: Outcome)
      modifies this
      ensures Now() == Attach(old(Now()), conn, o)
    {
      CloseConn(core);
      core := Some(conn);
      if |buffer| > 0 {
        var _ := Write(conn, buffer, o);
        buffer := [];
      }
    }

    method DetachCore(conn: nat)
      modifies this
      ensures Now() == Detach(old(Now()), conn)
    {
      if core == Some(conn) {
        core, outBuf, outDropped := None, [], false;
      }
      CloseConn(Some(conn));
    }

    // The locked half of dropping a session; the caller then closes the core it names.
    method DropSession() returns (dropped: Option<nat>)
      modifies this`buffer
      ensures Now() == old(Now()).(buffer := []) && dropped == core
    {
      dropped := core;
      buffer := [];
    }

    // The locked half of shutting down; the caller then closes both connections.
    method MarkClosed() returns (conn: Option<nat>, served: Option<nat>)
      modifies this`closed
      ensures Now() == old(Now()).(closed := true) && conn == irc && served == core
    {
      closed := true;
      conn, served := irc, core;
    }
  }
}
