// Write-behind saving: marked entries are serialised in one go and written one
// namespace at a time off the dispatcher; what fails is queued again.
module Saver {
  datatype Key = Key(ns: string, name: string)

  // Where the value of a dirty entry comes from: read from the module when it is
  // serialised, or the bytes of an earlier serialisation, known by their time.
  datatype Source = Value | Raw(stamp: nat)

  type Batch = map<Key, nat>

  // The entries of a flush at a given time, less those that refuse to marshal.
  function Serial(dirty: map<Key, Source>, bad: set<Key>, now: nat): Batch {
    map k | k in dirty && !Refused(dirty, bad, k) :: if dirty[k] == Value then now else dirty[k].stamp
  }

  predicate Refused(dirty: map<Key, Source>, bad: set<Key>, k: Key) {
    k in dirty && dirty[k] == Value && k in bad
  }

  function Spaces(b: Batch): set<string> {
    set k | k in b :: k.ns
  }

  // One namespace lands whole.
  function Put(stored: Batch, b: Batch, ns: string): Batch {
    stored + (map k | k in b && k.ns == ns :: b[k])
  }

  function PutBut(stored: Batch, b: Batch, fails: set<string>): Batch {
    stored + (map k | k in b && k.ns !in fails :: b[k])
  }

  // What did not land is dirty again, unless it was marked meanwhile.
  function Requeued(dirty: map<Key, Source>, b: Batch, failed: set<string>): map<Key, Source> {
    (map k | k in b && k.ns in failed :: Raw(b[k])) + dirty
  }

  // What was serialised before goes out again as it was, whatever the value would say now;
  // anything else goes out as of now if it marshals.
  lemma SerialIs(dirty: map<Key, Source>, bad: set<Key>, now: nat, k: Key)
    ensures k in Serial(dirty, bad, now) <==> k in dirty && (dirty[k].Raw? || k !in bad)
    ensures k in Serial(dirty, bad, now) ==> Serial(dirty, bad, now)[k] == match dirty[k]
                                                                            case Raw(stamp) => stamp
                                                                            case Value => now
  {}

  lemma SerialStep(dirty: map<Key, Source>, bad: set<Key>, now: nat, todo: set<Key>, k: Key)
    requires k in todo && k in dirty
    ensures Serial(dirty - (todo - {k}), bad, now)
            == if Refused(dirty, bad, k) then Serial(dirty - todo, bad, now)
               else Serial(dirty - todo, bad, now)[k := if dirty[k] == Value then now else dirty[k].stamp]
  {}

  lemma RequeueStep(dirty: map<Key, Source>, b: Batch, failed: set<string>, todo: set<Key>, k: Key)
    requires k in todo && k in b
    ensures var d := Requeued(dirty, b - todo, failed);
            Requeued(dirty, b - (todo - {k}), failed) == if k.ns in failed && k !in d then d[k := Raw(b[k])] else d
  {}

  lemma PutStep(stored: Batch, b: Batch, fails: set<string>, todo: set<string>, ns: string)
    requires ns in todo
    ensures ns !in fails ==> Put(PutBut(stored, b, fails + todo), b, ns) == PutBut(stored, b, fails + (todo - {ns}))
    ensures ns in fails ==> fails + todo == fails + (todo - {ns})
  {}

  lemma SerialNone(dirty: map<Key, Source>, bad: set<Key>, now: nat)
    ensures Serial(dirty - dirty.Keys, bad, now) == map[]
  {}

  lemma RequeueNone(dirty: map<Key, Source>, b: Batch, failed: set<string>)
    ensures Requeued(dirty, b - b.Keys, failed) == dirty
  {}

  lemma PutNone(stored: Batch, b: Batch, fails: set<string>)
    ensures PutBut(stored, b, fails + Spaces(b)) == stored && fails + {} == fails
  {}

  lemma Disjoint(a: set<string>, b: set<string>)
    ensures a * b == {} <==> a !! b
  {
    assert forall x :: x in a * b <==> x in a && x in b;
  }

  class Saver {
    var dirty: map<Key, Source>
    var inflight: bool
    var stored: Batch

    constructor ()
      ensures dirty == map[] && !inflight && stored == map[]
    {
      dirty, inflight, stored := map[], false, map[];
    }

    method Mark(k: Key)
      modifies this`dirty
      ensures dirty == old(dirty)[k := Value]
    {
      dirty := dirty[k := Value];
    }

    method Serialize(bad: set<Key>, now: nat) returns (b: Batch)
      modifies this`dirty
      ensures b == Serial(old(dirty), bad, now) && dirty == map[]
    {
      hide Serial;
      b := map[];
      var todo := dirty.Keys;
      SerialNone(dirty, bad, now);
      while todo != {}
        invariant todo <= dirty.Keys && dirty == old(dirty)
        invariant b == Serial(dirty - todo, bad, now)
      {
        var k :| k in todo;
        if !Refused(dirty, bad, k) {
          b := b[k := if dirty[k] == Value then now else dirty[k].stamp];
        }
        SerialStep(dirty, bad, now, todo, k);
        todo := todo - {k};
      }
      assert dirty - todo == dirty;
      dirty := map[];
    }

    // Hand a batch to the background write, unless one is out or there is nothing to save.
    method Flush(bad: set<Key>, now: nat) returns (started: bool, b: Batch)
      modifies this`dirty, this`inflight
      ensures started == (!old(inflight) && old(dirty) != map[])
      ensures started ==> inflight && dirty == map[] && b == Serial(old(dirty), bad, now)
      ensures !started ==> inflight == old(inflight) && dirty == old(dirty)
    {
      b := map[];
      if inflight || |dirty| == 0 {
        return false, b;
      }
      b := Serialize(bad, now);
      inflight := true;
      started := true;
    }

    // The completion callback.
    method Complete(b: Batch, failed: set<string>)
      modifies this`dirty, this`inflight
      ensures !inflight && dirty == Requeued(old(dirty), b, failed)
    {
      hide Requeued;
      inflight := false;
      var was := dirty;
      var todo := b.Keys;
      RequeueNone(was, b, failed);
      while todo != {}
        invariant todo <= b.Keys && !inflight
        invariant dirty == Requeued(was, b - todo, failed)
      {
        var k :| k in todo;
        if k.ns in failed {
          if k !in dirty {
            dirty := dirty[k := Raw(b[k])];
          }
        }
        RequeueStep(was, b, failed, todo, k);
        todo := todo - {k};
      }
      assert b - todo == b;
    }

    // Write the batch namespace by namespace; those in fails return an error.
    method Write(b: Batch, fails: set<string>) returns (failed: set<string>)
      modifies this`stored
      ensures failed == Spaces(b) * fails && stored == PutBut(old(stored), b, fails)
    {
      hide Put, PutBut, Spaces;
      failed := {};
      var todo := Spaces(b);
      ghost var was := stored;
      PutNone(stored, b, fails);
      while todo != {}
        invariant todo <= Spaces(b)
        invariant failed == (Spaces(b) - todo) * fails
        invariant stored == PutBut(was, b, fails + todo)
      {
        var ns :| ns in todo;
        if ns in fails {
          failed := failed + {ns};
        } else {
          stored := Put(stored, b, ns);
        }
        PutStep(was, b, fails, todo, ns);
        todo := todo - {ns};
      }
    }

    // The shutdown path, once the background write is over.
    method FlushSync(bad: set<Key>, now: nat, fails: set<string>) returns (ok: bool)
      modifies this
      ensures dirty == map[]
      ensures stored == PutBut(old(stored), Serial(old(dirty), bad, now), fails)
      ensures ok <==> Spaces(Serial(old(dirty), bad, now)) !! fails
      ensures inflight == (old(inflight) && old(dirty) == map[])
    {
      if |dirty| == 0 {
        assert PutBut(stored, Serial(dirty, bad, now), fails) == stored;
        return true;
      }
      var b := Serialize(bad, now);
      inflight := false;
      var failed := Write(b, fails);
      ok := |failed| == 0;
      assert ok <==> failed == {};
      Disjoint(Spaces(b), fails);
    }
  }
}
