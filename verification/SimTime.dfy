/**
 How time goes on in the simulator: the events of the next moment are taken together, and what
 runs until then is added to the slot times.
 */
module SimTime {
  import opened SimModel
  import opened SimInvariant

  // ------------------------------------------------------------------- the earliest event

  lemma {:induction false} EarliestIsLeast(events: seq<Event>, n: nat)
    requires 0 < n <= |events|
    ensures forall k :: 0 <= k < n ==> events[Earliest(events, n)].at <= events[k].at && !Before(events[k], events[Earliest(events, n)])
  {
    if n > 1 { EarliestIsLeast(events, n - 1); }
  }

  lemma TopIsLeast(events: seq<Event>)
    requires events != []
    ensures Top(events) in events
    ensures forall e :: e in events ==> Top(events).at <= e.at && !Before(e, Top(events))
  {
    EarliestIsLeast(events, |events|);
  }

  // ----------------------------------------------------------------- the order of events

  /** Everything that the invariant asks of the coming events is the same in another order. */
  ghost predicate SameEvents(tasks: seq<Task>, now: int, a: seq<Event>, b: seq<Event>) {
    && |a| == |b| && (forall e :: e in b ==> e in a)
    && multiset(TasksOf(a)) == multiset(TasksOf(b)) && multiset(NumbersOf(a)) == multiset(NumbersOf(b))
    && (forall kind :: Count(kind, a) == Count(kind, b))
    && (forall kind :: Elapsed(kind, tasks, now, a) == Elapsed(kind, tasks, now, b))
  }

  lemma OrderIsFree(s: Sim, a: seq<Event>, b: seq<Event>)
    requires Settled(s, a) && SameEvents(s.tasks, s.now, a, b)
    ensures Settled(s, b)
  {
    forall u: nat | u < |s.tasks| ensures TaskOk(s, b, u) { assert TaskOk(s, a, u); }
    forall e | e in b ensures EventOk(s, e) { assert EventOk(s, e); }
    forall n: nat ensures Occ(NumbersOf(b), n) <= 1 { assert Occ(NumbersOf(a), n) <= 1; }
  }

  lemma MovedElapsed(kind: EventKind, tasks: seq<Task>, now: int, a: seq<Event>, b: seq<Event>, e: Event, c: seq<Event>)
    ensures Elapsed(kind, tasks, now, a + (b + [e] + c)) == Elapsed(kind, tasks, now, (a + [e]) + (b + c))
    ensures Count(kind, a + (b + [e] + c)) == Count(kind, (a + [e]) + (b + c))
  {
    SumsJoin(kind, tasks, now, a, b + [e] + c);
    SumsJoin(kind, tasks, now, b + [e], c);
    SumsJoin(kind, tasks, now, b, [e]);
    SumsJoin(kind, tasks, now, a + [e], b + c);
    SumsJoin(kind, tasks, now, a, [e]);
    SumsJoin(kind, tasks, now, b, c);
  }

  lemma MovedLists(a: seq<Event>, b: seq<Event>, e: Event, c: seq<Event>)
    ensures multiset(TasksOf(a + (b + [e] + c))) == multiset(TasksOf((a + [e]) + (b + c)))
    ensures multiset(NumbersOf(a + (b + [e] + c))) == multiset(NumbersOf((a + [e]) + (b + c)))
  {
    ListsJoin(a, b + [e] + c);
    ListsJoin(b + [e], c);
    ListsJoin(b, [e]);
    ListsJoin(a + [e], b + c);
    ListsJoin(a, [e]);
    ListsJoin(b, c);
    SwappedBags(TasksOf(a), TasksOf(b), TasksOf([e]), TasksOf(c));
    SwappedBags(NumbersOf(a), NumbersOf(b), NumbersOf([e]), NumbersOf(c));
  }

  lemma SwappedBags(a: seq<nat>, b: seq<nat>, e: seq<nat>, c: seq<nat>)
    ensures multiset(a + (b + e + c)) == multiset((a + e) + (b + c))
  {
  }

  lemma MovedForward(tasks: seq<Task>, now: int, a: seq<Event>, b: seq<Event>, e: Event, c: seq<Event>)
    ensures SameEvents(tasks, now, a + (b + [e] + c), (a + [e]) + (b + c))
  {
    MovedLists(a, b, e, c);
    forall kind
      ensures Elapsed(kind, tasks, now, a + (b + [e] + c)) == Elapsed(kind, tasks, now, (a + [e]) + (b + c))
      ensures Count(kind, a + (b + [e] + c)) == Count(kind, (a + [e]) + (b + c))
    {
      MovedElapsed(kind, tasks, now, a, b, e, c);
    }
  }

  /** Taking the next event out of the heap. */
  lemma PopKeeps(s: Sim, before: seq<Event>, events: seq<Event>)
    requires Settled(s, before + events) && events != []
    ensures Settled(s, (before + [Top(events)]) + Popped(events))
    ensures forall e :: e in Popped(events) ==> e in events
  {
    var k := Earliest(events, |events|);
    assert events == events[..k] + [events[k]] + events[k + 1..];
    MovedForward(s.tasks, s.now, before, events[..k], events[k], events[k + 1..]);
    OrderIsFree(s, before + events, (before + [Top(events)]) + Popped(events));
  }

  /** The batch holds all events of its time; the others come later. */
  lemma {:induction false} BatchKeeps(s: Sim, before: seq<Event>, events: seq<Event>, at: int)
    requires Settled(s, before + events) && forall e :: e in events ==> at <= e.at
    ensures var (batch, rest) := TakeBatch(events, at);
      && Settled(s, (before + batch) + rest)
      && (forall e :: e in batch ==> e.at == at) && (forall e :: e in rest ==> e.at > at)
      && (events != [] && Top(events).at == at ==> batch != [])
    decreases |events|
  {
    if events == [] || Top(events).at != at {
      assert before + [] == before;
      if events != [] { TopIsLeast(events); }
    } else {
      PopKeeps(s, before, events);
      BatchKeeps(s, before + [Top(events)], Popped(events), at);
      var (batch, rest) := TakeBatch(Popped(events), at);
      assert (before + [Top(events)]) + batch == before + ([Top(events)] + batch);
    }
  }

  // ------------------------------------------------------------------------- time goes on

  lemma LaterTask(s: Sim, evs: seq<Event>, s': Sim, u: nat)
    requires TaskOk(s, evs, u) && SameSetting(s, s')
    requires s' == s.(now := s'.now, runningTime := s'.runningTime, toolTime := s'.toolTime)
    ensures TaskOk(s', evs, u)
  {
    assert SameFor(s, evs, s', evs, u);
    TaskFrame(s, evs, s', evs, u);
  }

  lemma TasksLater(s: Sim, evs: seq<Event>, s': Sim)
    requires Others(s, evs, |s.tasks|) && SameSetting(s, s')
    requires s' == s.(now := s'.now, runningTime := s'.runningTime, toolTime := s'.toolTime)
    ensures Others(s', evs, |s.tasks|)
  {
    forall u: nat | u < |s.tasks| ensures TaskOk(s', evs, u) { assert TaskOk(s, evs, u); LaterTask(s, evs, s', u); }
  }

  lemma AccountsLater(s: Sim, evs: seq<Event>, delta: nat, s': Sim)
    requires Settled(s, evs) && s' == Integrate(s, delta).(now := s.now + delta)
    ensures AccountsOk(s', evs)
  {
    TimeShifts(CPUDone, s.tasks, s.now, delta, evs);
    TimeShifts(IODone, s.tasks, s.now, delta, evs);
    SlotTimes(s.running, s.config.maxRunning, Count(CPUDone, evs), Count(IODone, evs), s.now, delta, s.config.liveIO);
  }

  lemma SlotTimes(running: int, most: int, cpu: nat, io: nat, now: int, delta: nat, live: bool)
    requires running <= most && (if live then running == cpu else running >= cpu + io)
    ensures running * delta <= most * (now + delta) - most * now
    ensures live ==> running * delta == cpu * delta
    ensures !live ==> running * delta >= cpu * delta + io * delta
  {
    assert most * (now + delta) - most * now == most * delta;
    assert (most - running) * delta >= 0;
    if !live { assert (running - cpu - io) * delta >= 0; }
  }

  lemma TimePasses(s: Sim, evs: seq<Event>, at: int, s': Sim)
    requires Settled(s, evs) && s.now <= at && forall e :: e in evs ==> at <= e.at
    requires s' == Integrate(s, at - s.now).(now := at)
    ensures Settled(s', evs)
  {
    AccountsLater(s, evs, at - s.now, s');
    TasksLater(s, evs, s');
    forall e | e in evs ensures EventOk(s', e) { assert EventOk(s, e); EventFrame(s, s', e); }
    NumbersSame(s, evs, s');
  }

  lemma NumbersSame(s: Sim, evs: seq<Event>, s': Sim)
    requires NumbersOk(s, evs) && s'.states == s.states && s'.number == s.number
    ensures NumbersOk(s', evs)
  {
    forall u: nat | u < |s.states| ensures NumberOk(s', u) { assert NumberOk(s, u); }
    forall u: nat, v: nat | u < |s.states| && v < |s.states| && u != v ensures NumbersDiffer(s', u, v) { assert NumbersDiffer(s, u, v); }
  }

  /** Time goes on to the earliest event. */
  lemma TimeReaches(s: Sim, at: int, later: Sim)
    requires Settled(s, s.events) && s.events != [] && at == Top(s.events).at
    requires later == Integrate(s, at - s.now).(now := at)
    ensures Settled(later, s.events) && s.now <= at && forall e :: e in s.events ==> at <= e.at
  {
    TopIsLeast(s.events);
    assert EventOk(s, Top(s.events));
    TimePasses(s, s.events, at, later);
  }

  /** The events of the present leave the heap together. */
  lemma BatchIsTaken(s: Sim, batch: seq<Event>, rest: seq<Event>, s': Sim)
    requires Settled(s, s.events) && s.events != [] && s.now == Top(s.events).at
    requires (batch, rest) == TakeBatch(s.events, s.now) && s' == s.(events := rest)
    requires forall e :: e in s.events ==> s.now <= e.at
    ensures Settled(s', batch + rest) && batch != []
    ensures (forall e :: e in batch ==> e.at == s.now) && (forall e :: e in rest ==> e.at > s.now)
  {
    assert [] + s.events == s.events && [] + batch == batch;
    BatchKeeps(s, [], s.events, s.now);
    HeapIsFree(s, batch + rest, s');
  }

  lemma MoveOnKeeps(s: Sim)
    requires Settled(s, s.events) && s.events != []
    ensures var s', batch := MoveOn(s), TakeBatch(s.events, Top(s.events).at).0;
      && Settled(s', batch + s'.events) && s'.now == Top(s.events).at >= s.now && batch != []
      && (forall e :: e in batch ==> e.at == s'.now) && (forall e :: e in s'.events ==> e.at > s'.now)
  {
    var at := Top(s.events).at;
    var later := Integrate(s, at - s.now).(now := at);
    TimeReaches(s, at, later);
    var (batch, rest) := TakeBatch(s.events, at);
    BatchIsTaken(later, batch, rest, MoveOn(s));
  }

  /** The invariant is about the coming events, wherever they are kept. */
  lemma HeapIsFree(s: Sim, evs: seq<Event>, s': Sim)
    requires Settled(s, evs) && s' == s.(events := s'.events)
    ensures Settled(s', evs)
  {
    forall u: nat | u < |s.tasks| ensures TaskOk(s', evs, u) {
      assert TaskOk(s, evs, u);
      assert SameFor(s, evs, s', evs, u);
      TaskFrame(s, evs, s', evs, u);
    }
    forall e | e in evs ensures EventOk(s', e) { assert EventOk(s, e); EventFrame(s, s', e); }
    NumbersSame(s, evs, s');
  }
}
