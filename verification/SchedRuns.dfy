// Whole runs of the scheduler, with callbacks that schedule and cancel.
module SchedRuns {
  import opened TimerHeap
  import opened Sched

  datatype Event = Add(at: int, script: seq<Action>) | Remove(tag: nat) | Pass(now: int, due: seq<Timer>)

  ghost predicate Enabled(s: State, e: Event) {
    e.Pass? ==> IsDue(s.live, e.now, e.due)
  }

  function Step(s: State, e: Event): State {
    match e
    case Add(at, script) => Scheduled(s, at, script)
    case Remove(tag) => Unscheduled(s, tag)
    case Pass(_, due) => Ran(s, due)
  }

  ghost predicate Legal(s: State, es: seq<Event>)
    decreases |es|
  {
    es == [] || (Legal(s, es[..|es| - 1]) && Enabled(Run(s, es[..|es| - 1]), es[|es| - 1]))
  }

  ghost function Run(s: State, es: seq<Event>): State
    decreases |es|
  {
    if es == [] then s else Step(Run(s, es[..|es| - 1]), es[|es| - 1])
  }

  // --- what one event does ------------------------------------------------------

  // A timer added is live under a new tag with its callback; one removed is live no more,
  // and its callback is gone; removing what is not live does nothing.
  lemma AddAndRemove(s: State, at: int, script: seq<Action>, tag: nat)
    ensures Step(s, Add(at, script))
            == State(s.live[s.last + 1 := Timer(at, s.last + 1)], s.fns[s.last + 1 := script], s.last + 1, s.done)
    ensures Step(s, Remove(tag))
            == if tag in s.live then State(s.live - {tag}, s.fns - {tag}, s.last, s.done + [Cancelled(tag)]) else s
  {}

  // A callback's script as events of its own.
  function AsEvents(script: seq<Action>): seq<Event> {
    seq(|script|, i requires 0 <= i < |script| =>
      match script[i] case Plan(at, more) => Add(at, more) case Cancel(tag) => Remove(tag))
  }

  // A timer that fires is recorded, and its callback does just what its script says, step
  // by step, as if each step had come by itself.
  lemma FireIs(s: State, t: Timer)
    requires t.tag in s.fns
    ensures Fire(s, t) == Run(State(s.live, s.fns, s.last, s.done + [Fired(t.tag)]), AsEvents(s.fns[t.tag]))
  {
    ScriptIs(s.(done := s.done + [Fired(t.tag)]), s.fns[t.tag]);
  }

  lemma {:induction false} ScriptIs(s: State, script: seq<Action>)
    ensures DoAll(s, script) == Run(s, AsEvents(script))
  {
    if script == [] {
      assert AsEvents(script) == [];
    } else {
      var init := script[..|script| - 1];
      ScriptIs(s, init);
      assert AsEvents(script)[..|script| - 1] == AsEvents(init);
    }
  }

  // A pass takes everything due off at once, and then fires it in order.
  lemma PassIs(s: State, now: int, due: seq<Timer>, t: Timer)
    ensures Step(s, Pass(now, [])) == s
    ensures Step(s, Pass(now, due + [t]))
            == Fire(FireAll(State(s.live - Tags(due + [t]), s.fns, s.last, s.done), due), t)
  {
    assert (due + [t])[..|due|] == due;
    assert Tags([]) == {} && s.live - {} == s.live;
  }

  // --- each timer ends once -----------------------------------------------------

  function Ended(done: seq<Outcome>): set<nat> {
    set o | o in done :: o.tag
  }

  ghost predicate OnceEach(done: seq<Outcome>) {
    forall i, j :: 0 <= i < j < |done| ==> done[i].tag != done[j].tag
  }

  // Every tag handed out is live, or taken off to fire, or ended; only one of these.
  ghost predicate Accounted(s: State, taken: set<nat>) {
    && (forall tag :: tag in s.live ==> s.live[tag].tag == tag && tag in s.fns)
    && (forall tag :: 1 <= tag <= s.last <==> tag in s.live || tag in taken || tag in Ended(s.done))
    && taken !! s.live.Keys && taken !! Ended(s.done) && s.live.Keys !! Ended(s.done)
    && OnceEach(s.done)
  }

  lemma EndedMore(done: seq<Outcome>, o: Outcome)
    requires OnceEach(done) && o.tag !in Ended(done)
    ensures OnceEach(done + [o]) && Ended(done + [o]) == Ended(done) + {o.tag}
  {
    var more := done + [o];
    assert more[|done|] == o;
    forall x | x in done ensures x in more {}
    forall i | 0 <= i < |done| ensures done[i].tag != o.tag { assert done[i] in done; }
  }

  lemma DoAccounted(s: State, taken: set<nat>, a: Action)
    requires Accounted(s, taken)
    ensures Accounted(Do(s, a), taken)
    ensures a.Cancel? && a.tag in taken ==> Do(s, a) == s
  {
    if a.Cancel? && a.tag in s.live {
      EndedMore(s.done, Cancelled(a.tag));
    }
  }

  lemma {:induction false} ScriptAccounted(s: State, taken: set<nat>, script: seq<Action>)
    requires Accounted(s, taken)
    ensures Accounted(DoAll(s, script), taken)
    ensures FiredTags(DoAll(s, script).done) == FiredTags(s.done)
    ensures NewOrKept(s, DoAll(s, script))
  {
    hide Accounted;
    if script != [] {
      var init := script[..|script| - 1];
      ScriptAccounted(s, taken, init);
      DoAccounted(DoAll(s, init), taken, script[|script| - 1]);
    }
  }

  // The tags that fired, in order.
  function FiredTags(done: seq<Outcome>): seq<nat> {
    if done == [] then []
    else
      var o := done[|done| - 1];
      FiredTags(done[..|done| - 1]) + (if o.Fired? then [o.tag] else [])
  }

  // A live timer was live before, unchanged, or is newer than all tags then.
  ghost predicate NewOrKept(s: State, s': State) {
    && s.last <= s'.last
    && (forall tag :: tag in s'.live ==> tag > s.last || (tag in s.live && s'.live[tag] == s.live[tag]))
  }

  function TagSeq(due: seq<Timer>): seq<nat> {
    seq(|due|, i requires 0 <= i < |due| => due[i].tag)
  }

  lemma FireAccounted(s: State, taken: set<nat>, t: Timer)
    requires Accounted(s, taken) && t.tag in taken
    ensures Accounted(Fire(s, t), taken - {t.tag})
    ensures FiredTags(Fire(s, t).done) == FiredTags(s.done) + [t.tag]
    ensures NewOrKept(s, Fire(s, t))
  {
    var s' := s.(done := s.done + [Fired(t.tag)]);
    EndedMore(s.done, Fired(t.tag));
    assert s'.done[..|s.done|] == s.done;
    ScriptAccounted(s', taken - {t.tag}, Script(s, t.tag));
  }

  lemma {:induction false} FireAllAccounted(s: State, taken: set<nat>, due: seq<Timer>)
    requires Accounted(s, taken) && Tags(due) <= taken
    requires forall i, j :: 0 <= i < j < |due| ==> due[i].tag != due[j].tag
    ensures Accounted(FireAll(s, due), taken - Tags(due))
    ensures FiredTags(FireAll(s, due).done) == FiredTags(s.done) + TagSeq(due)
    ensures NewOrKept(s, FireAll(s, due))
  {
    hide Accounted, Fire, FiredTags;
    if due == [] {
      assert Tags(due) == {} && taken - {} == taken;
    } else {
      var init, t := due[..|due| - 1], due[|due| - 1];
      assert due == init + [t];
      TagsMore(init, t);
      FireAllAccounted(s, taken, init);
      FireAccounted(FireAll(s, init), taken - Tags(init), t);
      assert (taken - Tags(init)) - {t.tag} == taken - Tags(due);
      assert TagSeq(due) == TagSeq(init) + [t.tag];
    }
  }

  lemma TagsMore(due: seq<Timer>, t: Timer)
    requires forall x :: x in due ==> x.tag != t.tag
    ensures Tags(due + [t]) == Tags(due) + {t.tag} && t.tag !in Tags(due)
  {
    assert (due + [t])[|due|] == t;
    forall x | x in due ensures x in due + [t] {}
  }

  // One pass fires exactly what was due, in order, whatever its callbacks do; what is
  // then still live and due was scheduled by one of them.
  lemma PassFires(s: State, now: int, due: seq<Timer>)
    requires Accounted(s, {}) && IsDue(s.live, now, due)
    ensures Accounted(Ran(s, due), {})
    ensures FiredTags(Ran(s, due).done) == FiredTags(s.done) + TagSeq(due)
    ensures forall tag :: tag in Ran(s, due).live && Ran(s, due).live[tag].at <= now ==> tag > s.last
  {
    var off := s.(live := s.live - Tags(due));
    forall t | t in due ensures Live(s.live, t) {}
    forall i, j | 0 <= i < j < |due| ensures due[i].tag != due[j].tag {
      assert Less(due[i], due[j]) && due[i] in due && due[j] in due;
    }
    TakenOff(s, due);
    FireAllAccounted(off, Tags(due), due);
    assert Tags(due) - Tags(due) == {};
    forall tag | tag in Ran(s, due).live && Ran(s, due).live[tag].at <= now ensures tag > s.last {
      if tag <= s.last {
        assert tag in off.live && Live(s.live, off.live[tag]);
      }
    }
  }

  lemma TakenOff(s: State, due: seq<Timer>)
    requires Accounted(s, {}) && forall t :: t in due ==> Live(s.live, t)
    ensures Accounted(s.(live := s.live - Tags(due)), Tags(due))
  {}

  lemma {:induction false} RunAccounted(es: seq<Event>)
    requires Legal(EMPTY, es)
    ensures Accounted(Run(EMPTY, es), {})
  {
    hide Accounted, Ran;
    if es == [] {
      StartAccounted();
    } else {
      var init, e := es[..|es| - 1], es[|es| - 1];
      RunAccounted(init);
      var s := Run(EMPTY, init);
      match e
      case Add(at, script) => DoAccounted(s, {}, Plan(at, script));
      case Remove(tag) => DoAccounted(s, {}, Cancel(tag));
      case Pass(now, due) => PassFires(s, now, due);
    }
  }

  lemma StartAccounted()
    ensures Accounted(EMPTY, {})
  {}

  // Over any run each timer ends at most once: it fires once, or it is cancelled once
  // and then never fires; until then it is live.
  lemma EndsOnce(es: seq<Event>)
    requires Legal(EMPTY, es)
    ensures var s := Run(EMPTY, es);
            && OnceEach(s.done) && s.live.Keys !! Ended(s.done)
            && forall tag :: 1 <= tag <= s.last <==> tag in s.live || tag in Ended(s.done)
  {
    RunAccounted(es);
  }

  // A timer a pass has taken off fires in it even if a callback tries to cancel it; the
  // attempt finds nothing.
  lemma TooLateToCancel(es: seq<Event>, now: int, due: seq<Timer>, k: nat, tag: nat)
    requires Legal(EMPTY, es) && Enabled(Run(EMPTY, es), Pass(now, due))
    requires k <= |due| && tag in Tags(due[k..])
    ensures var s := Run(EMPTY, es);
            && Unscheduled(FireAll(s.(live := s.live - Tags(due)), due[..k]), tag)
               == FireAll(s.(live := s.live - Tags(due)), due[..k])
            && Fired(tag) in Ran(s, due).done && Cancelled(tag) !in Ran(s, due).done
  {
    var s := Run(EMPTY, es);
    RunAccounted(es);
    PassFires(s, now, due);
    DuringPass(s, now, due, k, tag);
    var i :| k <= i < |due| && due[i].tag == tag;
    assert TagSeq(due)[i] == tag;
    assert tag in FiredTags(Ran(s, due).done);
    FiredThere(Ran(s, due).done, tag);
    if Cancelled(tag) in Ran(s, due).done {
      EndsDiffer(Ran(s, due).done, tag);
    }
  }

  lemma EndsDiffer(done: seq<Outcome>, tag: nat)
    requires OnceEach(done) && Fired(tag) in done
    ensures Cancelled(tag) !in done
  {}

  lemma {:induction false} FiredThere(done: seq<Outcome>, tag: nat)
    requires tag in FiredTags(done)
    ensures Fired(tag) in done
  {
    if done[|done| - 1] != Fired(tag) {
      FiredThere(done[..|done| - 1], tag);
    }
  }

  lemma DuringPass(s: State, now: int, due: seq<Timer>, k: nat, tag: nat)
    requires Accounted(s, {}) && IsDue(s.live, now, due) && k <= |due| && tag in Tags(due[k..])
    ensures tag !in FireAll(s.(live := s.live - Tags(due)), due[..k]).live
  {
    forall t | t in due ensures Live(s.live, t) {}
    forall i, j | 0 <= i < j < |due| ensures due[i].tag != due[j].tag {
      assert Less(due[i], due[j]) && due[i] in due && due[j] in due;
    }
    TakenOff(s, due);
    forall x | x in Tags(due[..k]) ensures x in Tags(due) {}
    FireAllAccounted(s.(live := s.live - Tags(due)), Tags(due), due[..k]);
    assert tag in Tags(due) && tag !in Tags(due[..k]) by {
      var i :| k <= i < |due| && due[i].tag == tag;
    }
  }
}
