// Every run of the saver: marks, flushes, writes landing or failing, completions late
// or never.
module SaverRuns {
  import opened Saver

  // The background write: idle; some namespaces still to write and some failed; or all
  // tried, the completion yet to be delivered.
  datatype Job = Idle | Writing(b: Batch, todo: set<string>, failed: set<string>) | Finished(b: Batch, failed: set<string>)

  // The saver with its store, the time of the last event, when each key was last
  // marked, and the keys whose value refused to marshal since.
  datatype State = State(
    dirty: map<Key, Source>, inflight: bool, stored: Batch, job: Job,
    clock: nat, marks: map<Key, nat>, refused: set<Key>)

  datatype Event =
    | Mark(k: Key)
    | Flush(bad: set<Key>)
    | PutMany(ns: string, ok: bool)
    | WriteDone
    | Deliver

  const START := State(map[], false, map[], Idle, 0, map[], {})

  predicate Enabled(s: State, e: Event) {
    match e
    case PutMany(ns, _) => s.job.Writing? && ns in s.job.todo
    case WriteDone => s.job.Writing? && s.job.todo == {}
    case Deliver => s.job.Finished?
    case _ => true
  }

  function Step(s: State, e: Event): State
    requires Enabled(s, e)
  {
    match e
    case Mark(k) =>
      s.(dirty := s.dirty[k := Value], clock := s.clock + 1, marks := s.marks[k := s.clock + 1], refused := s.refused - {k})
    case Flush(bad) => FlushStep(s, bad)
    case PutMany(ns, ok) =>
      if ok then s.(stored := Put(s.stored, s.job.b, ns), job := s.job.(todo := s.job.todo - {ns}))
      else s.(job := s.job.(todo := s.job.todo - {ns}, failed := s.job.failed + {ns}))
    case WriteDone => s.(job := Finished(s.job.b, s.job.failed))
    case Deliver => s.(inflight := false, dirty := Requeued(s.dirty, s.job.b, s.job.failed), job := Idle)
  }

  function FlushStep(s: State, bad: set<Key>): State {
    if s.inflight || s.dirty == map[] then s
    else
      var b := Serial(s.dirty, bad, s.clock + 1);
      s.(dirty := map[], inflight := true, job := Writing(b, Spaces(b), {}), clock := s.clock + 1,
         refused := s.refused + Refusals(s.dirty, bad))
  }

  function Refusals(dirty: map<Key, Source>, bad: set<Key>): set<Key> {
    set k | k in dirty && Refused(dirty, bad, k)
  }

  ghost predicate Legal(s: State, es: seq<Event>)
    decreases |es|
  {
    es == [] || (Enabled(s, es[0]) && Legal(Step(s, es[0]), es[1..]))
  }

  ghost function Run(s: State, es: seq<Event>): State
    requires Legal(s, es)
    decreases |es|
  {
    if es == [] then s else Run(Step(s, es[0]), es[1..])
  }

  // --- where a marked key stands --------------------------------------------------

  // The store has a value serialised after the last mark.
  ghost predicate Safe(s: State, k: Key) {
    k in s.stored && k in s.marks && s.stored[k] > s.marks[k]
  }

  // A background write of k is under way, or failed and is not yet requeued.
  ghost predicate Unsettled(s: State, k: Key) {
    match s.job
    case Idle => false
    case Writing(b, todo, failed) => k in b && k.ns in todo + failed
    case Finished(b, failed) => k in b && k.ns in failed
  }

  ghost function Stamp(s: State, k: Key): nat
    requires Unsettled(s, k)
  {
    s.job.b[k]
  }

  ghost predicate KeyInv(s: State, k: Key) {
    && k in s.marks && s.marks[k] <= s.clock && (k in s.stored ==> s.stored[k] <= s.clock)
    && (Safe(s, k) || k in s.dirty || Unsettled(s, k) || k in s.refused)
    && (k in s.dirty || Unsettled(s, k) ==> !Safe(s, k))
    && (k in s.dirty && s.dirty[k].Raw? ==> !Unsettled(s, k) && s.marks[k] < s.dirty[k].stamp <= s.clock)
    && (Unsettled(s, k) ==>
          && Stamp(s, k) <= s.clock && (k in s.dirty <==> Stamp(s, k) < s.marks[k]) && Stamp(s, k) != s.marks[k]
          && (k in s.stored ==> s.stored[k] < Stamp(s, k)))
  }

  ghost predicate Good(s: State) {
    && s.dirty.Keys <= s.marks.Keys
    && (s.inflight <==> !s.job.Idle?)
    && (s.job.Writing? ==> s.job.b.Keys <= s.marks.Keys && s.job.todo !! s.job.failed)
    && (s.job.Finished? ==> s.job.b.Keys <= s.marks.Keys)
    && s.stored.Keys <= s.marks.Keys
    && (forall k :: k in s.marks ==> KeyInv(s, k))
  }

  lemma MarkGood(s: State, k: Key)
    requires Good(s)
    ensures Good(Step(s, Mark(k)))
  {}

  lemma FlushGood(s: State, bad: set<Key>)
    requires Good(s)
    ensures Good(FlushStep(s, bad))
  {}

  lemma PutGood(s: State, ns: string, ok: bool)
    requires Good(s) && Enabled(s, PutMany(ns, ok))
    ensures Good(Step(s, PutMany(ns, ok)))
  {}

  lemma DoneGood(s: State)
    requires Good(s) && Enabled(s, WriteDone)
    ensures Good(Step(s, WriteDone))
  {}

  lemma DeliverGood(s: State)
    requires Good(s) && Enabled(s, Deliver)
    ensures Good(Step(s, Deliver))
  {}

  lemma StepGood(s: State, e: Event)
    requires Good(s) && Enabled(s, e)
    ensures Good(Step(s, e))
  {
    hide Good;
    match e
    case Mark(k) => MarkGood(s, k);
    case Flush(bad) => FlushGood(s, bad);
    case PutMany(ns, ok) => PutGood(s, ns, ok);
    case WriteDone => DoneGood(s);
    case Deliver => DeliverGood(s);
  }

  lemma {:induction false} RunGood(s: State, es: seq<Event>)
    requires Good(s) && Legal(s, es)
    ensures Good(Run(s, es))
    decreases |es|
  {
    hide Good;
    if es != [] {
      StepGood(s, es[0]);
      RunGood(Step(s, es[0]), es[1..]);
    }
  }

  lemma Reached(es: seq<Event>)
    requires Legal(START, es)
    ensures Good(Run(START, es))
  {
    RunGood(START, es);
  }

  // Nothing marked is lost: its value is dirty, being written or about to be requeued,
  // stored as of after its last mark, or refuses to marshal; a stored value is newer
  // than the mark exactly when nothing is left to do for the key.
  lemma NothingLost(es: seq<Event>, k: Key)
    requires Legal(START, es) && k in Run(START, es).marks
    ensures var s := Run(START, es);
            && (Safe(s, k) || k in s.dirty || Unsettled(s, k) || k in s.refused)
            && (k in s.dirty || Unsettled(s, k) ==> !Safe(s, k))
  {
    Reached(es);
    assert KeyInv(Run(START, es), k);
  }

  // A key counts as refused from a flush that found its value, and not earlier bytes, dirty
  // and unable to marshal, until it is marked again.
  lemma RefusedIs(s: State, e: Event, k: Key)
    requires Enabled(s, e)
    ensures k in Step(s, e).refused
            <==> match e
                 case Mark(j) => k in s.refused && k != j
                 case Flush(bad) => k in s.refused || (!s.inflight && k in s.dirty && s.dirty[k].Value? && k in bad)
                 case _ => k in s.refused
  {}

  // A namespace that is written lands whole, and nothing else of the store changes; one that
  // fails leaves the store alone and is remembered. Once all are tried the write is over.
  lemma WriteIs(s: State, ns: string)
    requires s.job.Writing? && ns in s.job.todo
    ensures var t := Step(s, PutMany(ns, true));
            && (forall k :: k in t.stored <==> k in s.stored || (k in s.job.b && k.ns == ns))
            && (forall k :: k in t.stored ==> t.stored[k] == if k in s.job.b && k.ns == ns then s.job.b[k] else s.stored[k])
            && t == s.(stored := t.stored, job := Writing(s.job.b, s.job.todo - {ns}, s.job.failed))
    ensures Step(s, PutMany(ns, false)) == s.(job := Writing(s.job.b, s.job.todo - {ns}, s.job.failed + {ns}))
    ensures s.job.todo == {ns} ==> Enabled(Step(s, PutMany(ns, true)), WriteDone)
                                   && Step(Step(s, PutMany(ns, true)), WriteDone).job == Finished(s.job.b, s.job.failed)
  {}

  // A flush with nothing under way takes every dirty entry that marshals into the write and
  // leaves nothing dirty.
  lemma FlushIs(s: State, bad: set<Key>, k: Key)
    requires !s.inflight && s.dirty != map[]
    ensures var t := Step(s, Flush(bad));
            && t.dirty == map[] && t.inflight && t.job.Writing? && t.job.failed == {} && t.stored == s.stored
            && (k in t.job.b <==> k in s.dirty && (s.dirty[k].Raw? || k !in bad))
            && (k in t.job.b ==> k.ns in t.job.todo)
  {}

  // A write that fails and is delivered is dirty again with the bytes it had, unless it was
  // marked meanwhile, and goes out as they are with the next flush, whatever its value says.
  lemma RetriedAsWritten(s: State, k: Key, bad: set<Key>)
    requires s.job.Finished? && k in s.job.b && k.ns in s.job.failed
    ensures var t := Step(s, Deliver);
            && !t.inflight && t.job == Idle && k in t.dirty
            && t.dirty[k] == (if k in s.dirty then s.dirty[k] else Raw(s.job.b[k]))
            && (k !in s.dirty ==>
                  var u := Step(t, Flush(bad));
                  u.dirty == map[] && u.inflight && u.job.Writing? && k in u.job.b && u.job.b[k] == s.job.b[k])
  {}

  // Bytes serialised earlier never replace bytes serialised later.
  lemma NeverReverts(es: seq<Event>, more: seq<Event>, k: Key)
    requires Legal(START, es) && Legal(Run(START, es), more) && k in Run(START, es).stored
    ensures k in Run(Run(START, es), more).stored
    ensures Run(START, es).stored[k] <= Run(Run(START, es), more).stored[k]
  {
    Reached(es);
    StoredGrows(Run(START, es), more, k);
  }

  lemma {:induction false} StoredGrows(s: State, es: seq<Event>, k: Key)
    requires Good(s) && Legal(s, es) && k in s.stored
    ensures k in Run(s, es).stored && s.stored[k] <= Run(s, es).stored[k]
    decreases |es|
  {
    if es != [] {
      assert KeyInv(s, k);
      assert k in Step(s, es[0]).stored && s.stored[k] <= Step(s, es[0]).stored[k];
      StepGood(s, es[0]);
      StoredGrows(Step(s, es[0]), es[1..], k);
    }
  }

  // --- shutdown -------------------------------------------------------------------

  // The final flush, once no write is under way; a completion may still be waiting.
  function Final(s: State, bad: set<Key>, fails: set<string>): State {
    s.(dirty := map[], stored := PutBut(s.stored, Serial(s.dirty, bad, s.clock + 1), fails),
       refused := s.refused + Refusals(s.dirty, bad))
  }

  // A failed write whose completion was never delivered, and no mark since.
  ghost predicate Forgotten(s: State, k: Key) {
    s.job.Finished? && k in s.job.b && k.ns in s.job.failed && k !in s.dirty
  }

  lemma FinalDirty(s: State, bad: set<Key>, fails: set<string>, k: Key)
    requires KeyInv(s, k) && k in s.dirty && !Refused(s.dirty, bad, k)
    ensures k in Serial(s.dirty, bad, s.clock + 1)
    ensures Safe(Final(s, bad, fails), k) <==> k.ns !in fails
  {}

  lemma FinalClean(s: State, bad: set<Key>, fails: set<string>, k: Key)
    requires KeyInv(s, k) && k !in s.dirty && k !in s.refused && !s.job.Writing?
    ensures Safe(Final(s, bad, fails), k) <==> !Forgotten(s, k)
  {}

  // Shutting down without an error saves every marked key that marshals, except exactly
  // those whose failed write was still waiting for its completion.
  lemma FinalExact(es: seq<Event>, bad: set<Key>, fails: set<string>, k: Key)
    requires Legal(START, es) && !Run(START, es).job.Writing?
    requires Spaces(Serial(Run(START, es).dirty, bad, Run(START, es).clock + 1)) !! fails
    requires k in Run(START, es).marks && k !in Final(Run(START, es), bad, fails).refused
    ensures Final(Run(START, es), bad, fails).dirty == map[]
    ensures Safe(Final(Run(START, es), bad, fails), k) <==> !Forgotten(Run(START, es), k)
  {
    hide KeyInv, Safe, Serial, PutBut;
    var s := Run(START, es);
    Reached(es);
    assert KeyInv(s, k);
    if k in s.dirty {
      FinalDirty(s, bad, fails, k);
    } else {
      FinalClean(s, bad, fails, k);
    }
  }

  lemma RunMore(s: State, e: Event, es: seq<Event>)
    requires Enabled(s, e) && Legal(Step(s, e), es)
    ensures Legal(s, [e] + es) && Run(s, [e] + es) == Run(Step(s, e), es)
  {
    assert ([e] + es)[1..] == es;
  }

  // Such a key: marked, flushed, its write failed and over, its completion never delivered.
  // The final flush has nothing to write, reports no error, and the key is lost.
  lemma LostAtShutdown(k: Key)
    ensures var es := [Mark(k), Flush({}), PutMany(k.ns, false), WriteDone];
            && Legal(START, es)
            && var s := Run(START, es);
               && s.dirty == map[] && k in s.marks && k !in Final(s, {}, {}).refused
               && Forgotten(s, k) && !Safe(Final(s, {}, {}), k)
  {
    hide Legal, Run;
    var s1 := Step(START, Mark(k));
    var s2 := FlushStep(s1, {});
    assert k in s1.dirty;
    assert s2.job == Writing(map[k := 2], {k.ns}, {}) && s2.dirty == map[] && s2.refused == {};
    var s3 := Step(s2, PutMany(k.ns, false));
    var s4 := Step(s3, WriteDone);
    NoEvents(s4);
    assert [WriteDone] + [] == [WriteDone];
    RunMore(s3, WriteDone, []);
    assert [PutMany(k.ns, false)] + [WriteDone] == [PutMany(k.ns, false), WriteDone];
    RunMore(s2, PutMany(k.ns, false), [WriteDone]);
    assert [Flush({})] + [PutMany(k.ns, false), WriteDone] == [Flush({}), PutMany(k.ns, false), WriteDone];
    RunMore(s1, Flush({}), [PutMany(k.ns, false), WriteDone]);
    assert [Mark(k)] + [Flush({}), PutMany(k.ns, false), WriteDone] == [Mark(k), Flush({}), PutMany(k.ns, false), WriteDone];
    RunMore(START, Mark(k), [Flush({}), PutMany(k.ns, false), WriteDone]);
  }

  lemma NoEvents(s: State)
    ensures Legal(s, []) && Run(s, []) == s
  {}

  // With errors, a dirty key is saved exactly if its namespace was written.
  lemma FinalPartly(es: seq<Event>, bad: set<Key>, fails: set<string>, k: Key)
    requires Legal(START, es) && !Run(START, es).job.Writing? && k in Run(START, es).dirty
    requires !Refused(Run(START, es).dirty, bad, k)
    ensures Safe(Final(Run(START, es), bad, fails), k) <==> k.ns !in fails
  {
    Reached(es);
    assert KeyInv(Run(START, es), k);
    FinalDirty(Run(START, es), bad, fails, k);
  }
}
