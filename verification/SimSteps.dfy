/**
 Each small step of the simulator keeps the invariant: a task leaves its place, changes, and
 finds a place again.
 */
module SimSteps {
  import opened Options
  import opened Queues
  import opened SimModel
  import opened SimInvariant

  // ----------------------------------------------------------------------- what stays put

  /** A loose task has no event, and nothing of another task's event is different. */
  lemma EventsStay(s: Sim, evs: seq<Event>, t: nat, s': Sim)
    requires EventsOk(s, evs) && Occ(TasksOf(evs), t) == 0
    requires SameSetting(s, s') && s'.now == s.now && s'.number >= s.number
    requires forall u: nat :: u != t ==> StateOf(s', u) == StateOf(s, u)
    ensures EventsOk(s', evs)
  {
    forall e | e in evs ensures e.task != t { TaskOfEvent(evs, e); }
    EventsFrame(s, evs, t, s', evs);
  }

  /** Slot times do not change with a state that keeps its phase. */
  lemma AccountsStay(s: Sim, evs: seq<Event>, t: nat, x: TaskState, s': Sim)
    requires |s.states| == |s.tasks| && AccountsOk(s, evs) && t < |s.tasks| && x.phase == s.states[t].phase
    requires s'.tasks == s.tasks && s'.config == s.config && s'.now == s.now && s'.states == s.states[t := x]
    requires s'.toolTime == s.toolTime && s'.runningTime == s.runningTime
    requires s'.rejected - s.rejected == One(x.rejected) - One(s.states[t].rejected)
    ensures AccountsOk(s', evs)
  {
    RejectionsPut(s.states, |s.tasks|, t, x);
    SpentPut(CPU, s.tasks, s.states, |s.tasks|, t, x);
    SpentPut(ExternalIO, s.tasks, s.states, |s.tasks|, t, x);
  }

  /** Only task `t` has another number, and it is a new one or the same. */
  lemma NumbersStay(s: Sim, evs: seq<Event>, t: nat, s': Sim)
    requires NumbersOk(s, evs) && t < |s.states| == |s'.states| && s'.number >= s.number
    requires forall u: nat :: u < |s.states| && u != t ==> s'.states[u].readySeq == s.states[u].readySeq
    requires s'.states[t].readySeq == s.states[t].readySeq || s.number < s'.states[t].readySeq <= s'.number
    ensures NumbersOk(s', evs)
  {
    forall u: nat | u < |s'.states| ensures NumberOk(s', u) { assert NumberOk(s, u); }
    forall u: nat, v: nat | u < |s'.states| && v < |s'.states| && u != v ensures NumbersDiffer(s', u, v) {
      assert NumbersDiffer(s, u, v) && NumberOk(s, u) && NumberOk(s, v);
    }
  }

  lemma OtherIds(s: Sim, t: nat)
    requires Shape(s) && t < |s.tasks|
    ensures forall u: nat :: u < |s.tasks| && u != t ==> IdOf(s, u) != IdOf(s, t)
  {
    forall u: nat | u < |s.tasks| && u != t ensures IdOf(s, u) != IdOf(s, t) {
      if u < t { assert IdsDiffer(s.tasks, u, t); } else { assert IdsDiffer(s.tasks, t, u); }
    }
  }

  ghost predicate SameOrJoined(q: seq<nat>, q': seq<nat>, t: nat) {
    q' == q || q' == q + [t]
  }

  /** Another task than `t`, which joins at most some lists, is where it was. */
  lemma JoinFrame(s: Sim, evs: seq<Event>, t: nat, s': Sim)
    requires Core(s, evs, t) && t < |s.tasks| && SameSetting(s, s') && s'.now == s.now && s'.number >= s.number
    requires s'.states == s.states[t := s'.states[t]] && s'.results == s.results
    requires SameOrJoined(s.admission, s'.admission, t) && SameOrJoined(s.ready, s'.ready, t) && SameOrJoined(s.toolQueue, s'.toolQueue, t)
    requires TaskOk(s', evs, t)
    ensures Others(s', evs, |s.tasks|) && EventsOk(s', evs)
  {
    JoinedOcc(s.admission, s'.admission, t);
    JoinedOcc(s.ready, s'.ready, t);
    JoinedOcc(s.toolQueue, s'.toolQueue, t);
    forall u: nat | u < |s.tasks| && u != t ensures SameFor(s, evs, s', evs, u) { }
    OthersFrame(s, evs, t, s', evs, |s.tasks|);
    EventsStay(s, evs, t, s');
  }

  lemma JoinedOcc(q: seq<nat>, q': seq<nat>, t: nat)
    requires SameOrJoined(q, q', t)
    ensures forall u: nat :: u != t ==> Occ(q', u) == Occ(q, u)
  {
  }

  // -------------------------------------------------------------------- finding a place

  lemma AdmissionKeeps(s: Sim, evs: seq<Event>, t: nat, continuation: bool, s': Sim)
    requires Core(s, evs, t) && t < |s.tasks|
    requires var x := s.states[t]; !x.admitted && !x.holdsRunning && !x.inToolQueue
    requires KindOf(s, t) == CPU && s' == EnqueueAdmission(s, t, continuation)
    ensures Settled(s', evs)
  {
    assert TaskOk(s', evs, t);
    JoinFrame(s, evs, t, s');
    NumbersStay(s, evs, t, s');
    AccountsStay(s, evs, t, s'.states[t], s');
  }

  lemma ReadyKeeps(s: Sim, evs: seq<Event>, t: nat, continuation: bool, s': Sim)
    requires Core(s, evs, t) && t < |s.tasks|
    requires var x := s.states[t]; x.admitted && !x.holdsRunning && !x.inToolQueue
    requires CanWaitReady(s, KindOf(s, t)) && s' == EnqueueReady(s, t, continuation)
    ensures Settled(s', evs)
  {
    assert TaskOk(s', evs, t);
    JoinFrame(s, evs, t, s');
    NumbersStay(s, evs, t, s');
    AccountsStay(s, evs, t, s'.states[t], s');
  }

  lemma ToolKeeps(s: Sim, evs: seq<Event>, t: nat, s': Sim)
    requires Core(s, evs, t) && t < |s.tasks|
    requires var x := s.states[t]; x.admitted && x.holdsRunning == !s.config.liveIO && !x.inToolQueue
    requires KindOf(s, t) == ExternalIO && s' == EnqueueTool(s, t)
    ensures Settled(s', evs)
  {
    assert TaskOk(s', evs, t);
    JoinFrame(s, evs, t, s');
    NumbersStay(s, evs, t, s');
    AccountsStay(s, evs, t, s'.states[t], s');
  }

  /** What a pushed event needs of its task. */
  predicate PushOk(s: Sim, t: nat, kind: EventKind) {
    var x := StateOf(s, t);
    match kind
    case Arrival => false
    case CPUDone => x.admitted && x.holdsRunning && !x.inToolQueue && KindOf(s, t) == CPU
    case IODone => x.admitted && x.holdsRunning == !s.config.liveIO && x.inToolQueue && KindOf(s, t) == ExternalIO
    case WaitDone => !x.admitted && !x.holdsRunning && !x.inToolQueue && KindOf(s, t) == DurableWait
  }

  lemma PushKeeps(s: Sim, evs: seq<Event>, t: nat, kind: EventKind, s': Sim, e: Event)
    requires Core(s, evs, t) && t < |s.tasks| && PushOk(s, t, kind)
    requires s' == Push(s, s.now + DurationOf(s, t), kind, t) && e == s'.events[|s.events|]
    ensures Settled(s', evs + [e]) && s'.events == s.events + [e] && e.at > s.now
  {
    DurationIsPositive(s, t);
    PushPlaces(s, evs, t, kind, s', e);
    NumbersStay(s, evs, t, s');
    NumbersAppend(s, evs, e);
    PushBooks(s, evs, t, kind, s', e);
  }

  lemma PushPlaces(s: Sim, evs: seq<Event>, t: nat, kind: EventKind, s': Sim, e: Event)
    requires Core(s, evs, t) && t < |s.tasks| && PushOk(s, t, kind)
    requires s' == Push(s, s.now + DurationOf(s, t), kind, t) && e == s'.events[|s.events|]
    requires DurationOf(s, t) > 0
    ensures Others(s', evs + [e], |s.tasks|) && EventsOk(s', evs + [e])
  {
    var all := evs + [e];
    ListsJoin(evs, [e]);
    OneEvent(e);
    forall u: nat | u < |s.tasks| && u != t ensures SameFor(s, evs, s', all, u) { }
    PushedTask(s, evs, t, s', e);
    OthersFrame(s, evs, t, s', all, |s.tasks|);
    EventsStay(s, evs, t, s');
    PushedEvent(s, evs, t, kind, s', e);
    forall f | f in all ensures EventOk(s', f) { if f != e { assert EventOk(s', f); } }
  }

  lemma PushedTask(s: Sim, evs: seq<Event>, t: nat, s': Sim, e: Event)
    requires LooseOk(s, evs, t) && t < |s.tasks| && PhaseOf(s, t).Some? && e.task == t
    requires TasksOf(evs + [e]) == TasksOf(evs) + [t]
    requires s' == s.(number := s'.number, events := s'.events)
    ensures TaskOk(s', evs + [e], t)
  {
  }

  lemma PushedEvent(s: Sim, evs: seq<Event>, t: nat, kind: EventKind, s': Sim, e: Event)
    requires LooseOk(s, evs, t) && t < |s.tasks| && PushOk(s, t, kind) && DurationOf(s, t) > 0
    requires s' == Push(s, s.now + DurationOf(s, t), kind, t) && e == s'.events[|s.events|]
    ensures EventOk(s', e)
  {
  }

  lemma PushBooks(s: Sim, evs: seq<Event>, t: nat, kind: EventKind, s': Sim, e: Event)
    requires Core(s, evs, t) && t < |s.tasks| && PushOk(s, t, kind)
    requires s' == Push(s, s.now + DurationOf(s, t), kind, t) && e == s'.events[|s.events|]
    ensures CountsOk(s', evs + [e], |s.tasks|) && AccountsOk(s', evs + [e])
  {
    SumsJoin(CPUDone, s.tasks, s.now, evs, [e]);
    SumsJoin(IODone, s.tasks, s.now, evs, [e]);
    OneEvent(e);
  }

  lemma DurationIsPositive(s: Sim, t: nat)
    requires Shape(s) && t < |s.tasks| && PhaseOf(s, t).Some?
    ensures DurationOf(s, t) > 0 && KindOf(s, t) != OtherKind
    ensures KindOf(s, t) == DurableWait && s.states[t].phase + 1 < |Phases(s, t)| ==> Phases(s, t)[s.states[t].phase + 1].kind == CPU
  {
    assert TaskValid(s.tasks[t]);
    assert PhaseOk(s.tasks[t].phases, s.states[t].phase);
  }

  lemma {:induction false} NumberOfEvent(evs: seq<Event>, n: nat)
    requires Occ(NumbersOf(evs), n) > 0
    ensures exists e :: e in evs && e.number == n
  {
    if evs[0].number != n {
      assert NumbersOf(evs)[1..] == NumbersOf(evs[1..]);
      assert NumbersOf(evs) == [evs[0].number] + NumbersOf(evs[1..]);
      NumberOfEvent(evs[1..], n);
    }
  }

  lemma NumberIsUsed(s: Sim, evs: seq<Event>, n: nat)
    requires EventsOk(s, evs) && Occ(NumbersOf(evs), n) > 0
    ensures n <= s.number
  {
    NumberOfEvent(evs, n);
    var f :| f in evs && f.number == n;
    assert EventOk(s, f);
  }

  lemma NumbersAppend(s: Sim, evs: seq<Event>, e: Event)
    requires EventsOk(s, evs) && NumbersOk(s, evs) && e.number > s.number
    ensures forall n: nat :: Occ(NumbersOf(evs + [e]), n) <= 1
  {
    ListsJoin(evs, [e]);
    OneEvent(e);
    if Occ(NumbersOf(evs), e.number) > 0 { NumberIsUsed(s, evs, e.number); }
    forall n: nat ensures Occ(NumbersOf(evs + [e]), n) <= 1 { assert Occ(NumbersOf(evs), n) <= 1; }
  }

  /** Only the result of task `t` is new. */
  lemma ResultFrame(s: Sim, evs: seq<Event>, t: nat, s': Sim)
    requires Core(s, evs, t) && t < |s.tasks| && SameSetting(s, s') && s'.now == s.now && s'.number >= s.number
    requires s'.states == s.states[t := s'.states[t]] && IdOf(s, t) in s'.results && s'.results == s.results[IdOf(s, t) := s'.results[IdOf(s, t)]]
    requires s'.admission == s.admission && s'.ready == s.ready && s'.toolQueue == s.toolQueue
    requires TaskOk(s', evs, t)
    ensures Others(s', evs, |s.tasks|) && EventsOk(s', evs)
  {
    OtherIds(s, t);
    forall u: nat | u < |s.tasks| && u != t ensures SameFor(s, evs, s', evs, u) { }
    OthersFrame(s, evs, t, s', evs, |s.tasks|);
    EventsStay(s, evs, t, s');
  }

  lemma CompletedTask(s: Sim, evs: seq<Event>, t: nat, s': Sim)
    requires Shape(s) && LooseOk(s, evs, t) && t < |s.tasks| && PhaseOf(s, t) == None && 0 <= s.makespan <= s.now
    requires !s.states[t].holdsRunning && !s.states[t].inToolQueue
    requires s' == Complete(s, t)
    ensures TaskOk(s', evs, t)
  {
  }

  lemma CompleteKeeps(s: Sim, evs: seq<Event>, t: nat, s': Sim)
    requires Core(s, evs, t) && t < |s.tasks| && PhaseOf(s, t) == None
    requires !s.states[t].holdsRunning && !s.states[t].inToolQueue
    requires s' == Complete(s, t)
    ensures Settled(s', evs)
  {
    CompletedTask(s, evs, t, s');
    ResultFrame(s, evs, t, s');
    NumbersStay(s, evs, t, s');
    AccountsStay(s, evs, t, s'.states[t], s');
  }

  // ------------------------------------------------------------- changes of a loose task

  /** A change of the state of a loose task and of the counters that follow it. */
  lemma LooseKeeps(s: Sim, evs: seq<Event>, t: nat, x: TaskState, s': Sim)
    requires Core(s, evs, t) && t < |s.tasks| && x.phase == s.states[t].phase && !Over(x) && x.readySeq == s.states[t].readySeq
    requires s' == s.(states := s.states[t := x], running := s'.running, resident := s'.resident, tools := s'.tools,
      peakRunning := s'.peakRunning, peakResident := s'.peakResident, peakTools := s'.peakTools)
    requires CountsOk(s', evs, t) && LimitsOk(s')
    ensures Core(s', evs, t)
  {
    forall u: nat | u < |s.tasks| && u != t ensures SameFor(s, evs, s', evs, u) { }
    OthersFrame(s, evs, t, s', evs, t);
    EventsStay(s, evs, t, s');
    NumbersStay(s, evs, t, s');
    AccountsStay(s, evs, t, x, s');
  }

  lemma DropSlotKeeps(s: Sim, evs: seq<Event>, t: nat)
    requires Core(s, evs, t) && t < |s.tasks| && s.states[t].holdsRunning
    ensures Core(DropSlot(s, t), evs, t)
  {
    LooseKeeps(s, evs, t, s.states[t].(holdsRunning := false), DropSlot(s, t));
  }

  lemma TakeSlotKeeps(s: Sim, evs: seq<Event>, t: nat)
    requires Core(s, evs, t) && t < |s.tasks| && !s.states[t].holdsRunning && s.running < s.config.maxRunning
    ensures Core(TakeSlot(s, t), evs, t)
  {
    LooseKeeps(s, evs, t, s.states[t].(holdsRunning := true), TakeSlot(s, t));
  }

  lemma AdmitKeeps(s: Sim, evs: seq<Event>, t: nat)
    requires Core(s, evs, t) && t < |s.tasks| && !s.states[t].admitted && s.resident < s.config.maxResident
    ensures Core(Admit(s, t), evs, t)
  {
    LooseKeeps(s, evs, t, s.states[t].(admitted := true), Admit(s, t));
  }

  lemma ReleaseKeeps(s: Sim, evs: seq<Event>, t: nat)
    requires Core(s, evs, t) && t < |s.tasks|
    ensures Core(ReleaseResident(s, t), evs, t)
  {
    if s.states[t].admitted { LooseKeeps(s, evs, t, s.states[t].(admitted := false), ReleaseResident(s, t)); }
  }

  lemma ContinueKeeps(s: Sim, evs: seq<Event>, t: nat)
    requires Core(s, evs, t) && t < |s.tasks|
    ensures Core(Continue(s, t), evs, t)
  {
    LooseKeeps(s, evs, t, s.states[t].(continuation := true), Continue(s, t));
  }

  /** A loose task that holds no slot finds its place. */
  lemma AdvanceKeeps(s: Sim, evs: seq<Event>, t: nat) returns (more: seq<Event>)
    requires Core(s, evs, t) && t < |s.tasks| && !s.states[t].holdsRunning && !s.states[t].inToolQueue
    requires !s.states[t].admitted && PhaseOf(s, t).Some? ==> KindOf(s, t) == CPU
    ensures Settled(Advance(s, t), evs + more) && Advance(s, t).events == s.events + more
    ensures forall e :: e in more ==> e.at > s.now
  {
    more := [];
    assert evs + [] == evs && s.events + [] == s.events;
    if PhaseOf(s, t) == None {
      CompleteKeeps(s, evs, t, Advance(s, t));
    } else if !s.states[t].admitted {
      AdmissionKeeps(s, evs, t, s.states[t].phase > 0, Advance(s, t));
    } else {
      DurationIsPositive(s, t);
      more := AdvanceResident(s, evs, t);
    }
  }

  /** Before a tool call: with live I/O in the queue for a tool slot, else for a running slot. */
  lemma AdvanceToTool(s: Sim, evs: seq<Event>, t: nat, s': Sim)
    requires Core(s, evs, t) && t < |s.tasks| && !s.states[t].holdsRunning && !s.states[t].inToolQueue
    requires s.states[t].admitted && PhaseOf(s, t).Some? && KindOf(s, t) == ExternalIO && s' == Advance(s, t)
    ensures Settled(s', evs) && s'.events == s.events
  {
    ContinueKeeps(s, evs, t);
    if s.config.liveIO { ToolKeeps(Continue(s, t), evs, t, s'); }
    else { ReadyKeeps(Continue(s, t), evs, t, true, s'); }
  }

  lemma AdvanceResident(s: Sim, evs: seq<Event>, t: nat) returns (more: seq<Event>)
    requires Core(s, evs, t) && t < |s.tasks| && !s.states[t].holdsRunning && !s.states[t].inToolQueue
    requires s.states[t].admitted && PhaseOf(s, t).Some? && KindOf(s, t) != OtherKind
    ensures Settled(Advance(s, t), evs + more) && Advance(s, t).events == s.events + more
    ensures forall e :: e in more ==> e.at > s.now
  {
    more := [];
    assert evs + [] == evs && s.events + [] == s.events;
    match KindOf(s, t)
    case CPU => ReadyKeeps(s, evs, t, s.states[t].phase > 0, Advance(s, t));
    case ExternalIO => AdvanceToTool(s, evs, t, Advance(s, t));
    case DurableWait =>
      ReleaseKeeps(s, evs, t);
      var e := Advance(s, t).events[|s.events|];
      PushKeeps(ReleaseResident(s, t), evs, t, WaitDone, Advance(s, t), e);
      more := [e];
    case _ =>
  }

  // ------------------------------------------------------------------- leaving a place

  /** What an event leaves behind when it has come. */
  ghost function Taken(s: Sim, e: Event): Sim {
    match e.kind
    case Arrival => s
    case IODone => NextPhase(LeaveTool(s, e.task), e.task)
    case _ => NextPhase(s, e.task)
  }

  predicate ElapsedSplits(kind: EventKind, s: Sim, e: Event, rest: seq<Event>) {
    Elapsed(kind, s.tasks, s.now, [e] + rest) ==
      Elapsed(kind, s.tasks, s.now, rest) + (if e.kind == kind then LengthOf(s.tasks, e) - (e.at - s.now) else 0)
  }

  lemma HeadEvent(s: Sim, e: Event, rest: seq<Event>)
    requires EventsOk(s, [e] + rest) && NumbersOk(s, [e] + rest) && TaskOk(s, [e] + rest, e.task)
    ensures EventOk(s, e) && EventsOk(s, rest) && NumbersOk(s, rest)
    ensures TasksOf([e] + rest) == [e.task] + TasksOf(rest)
    ensures PlacesOf(s, rest, e.task) == 0 && Occ(TasksOf(rest), e.task) == 0
    ensures forall kind :: Count(kind, [e] + rest) == Count(kind, rest) + if e.kind == kind then 1 else 0
    ensures forall kind :: ElapsedSplits(kind, s, e, rest)
  {
    var all := [e] + rest;
    assert all[0] == e && all[1..] == rest;
    assert EventOk(s, all[0]);
    forall f | f in rest ensures EventOk(s, f) { assert f in all; }
    forall n: nat ensures Occ(NumbersOf(rest), n) <= 1 {
      assert NumbersOf(all) == [e.number] + NumbersOf(rest);
      assert Occ(NumbersOf(all), n) <= 1;
    }
  }

  /** The task of an event that has come leaves its phase; the time of the phase is spent. */
  lemma TakeEventKeeps(s: Sim, e: Event, rest: seq<Event>, s': Sim)
    requires Settled(s, [e] + rest) && e.at == s.now && s' == Taken(s, e)
    ensures e.task < |s.tasks| && Core(s', rest, e.task)
  {
    assert EventOk(s, ([e] + rest)[0]);
    assert TaskOk(s, [e] + rest, e.task);
    HeadEvent(s, e, rest);
    TakenPlaces(s, e, rest, s');
    TakenLoose(s, e, rest, s');
    TakenCounts(s, e, rest, s');
    TakenNumbers(s, e, rest, s');
    TakenAccounts(s, e, rest, s');
  }

  lemma TakenLoose(s: Sim, e: Event, rest: seq<Event>, s': Sim)
    requires Shape(s) && EventOk(s, e) && TaskOk(s, [e] + rest, e.task) && s' == Taken(s, e) && e.at == s.now
    requires PlacesOf(s, rest, e.task) == 0
    ensures LooseOk(s', rest, e.task)
  {
  }

  lemma TakenNumbers(s: Sim, e: Event, rest: seq<Event>, s': Sim)
    requires Shape(s) && EventOk(s, e) && s' == Taken(s, e) && NumbersOk(s, rest)
    ensures Shape(s') && NumbersOk(s', rest)
  {
    NumbersStay(s, rest, e.task, s');
  }

  lemma TakenCounts(s: Sim, e: Event, rest: seq<Event>, s': Sim)
    requires Shape(s) && EventOk(s, e) && s' == Taken(s, e)
    requires CountsOk(s, [e] + rest, |s.tasks|) && LimitsOk(s)
    requires Count(CPUDone, [e] + rest) == Count(CPUDone, rest) + One(e.kind == CPUDone)
    requires Count(IODone, [e] + rest) == Count(IODone, rest) + One(e.kind == IODone)
    ensures CountsOk(s', rest, e.task) && LimitsOk(s')
  {
    assert |[e] + rest| == 1 + |rest|;
  }

  lemma TakenPlaces(s: Sim, e: Event, rest: seq<Event>, s': Sim)
    requires Settled(s, [e] + rest) && EventsOk(s, rest) && EventOk(s, e) && s' == Taken(s, e)
    requires TasksOf([e] + rest) == [e.task] + TasksOf(rest) && Occ(TasksOf(rest), e.task) == 0
    ensures Others(s', rest, e.task) && EventsOk(s', rest)
  {
    var t := e.task;
    forall u: nat | u < |s.tasks| && u != t ensures SameFor(s, [e] + rest, s', rest, u) { }
    OthersFrame(s, [e] + rest, |s.tasks|, s', rest, t);
    EventsStay(s, rest, t, s');
  }

  /** Which flags a task has when its event has come. */
  lemma TakenFlags(s: Sim, e: Event)
    requires Shape(s) && EventOk(s, e)
    ensures var s' := Taken(s, e);
      var x := s'.states[e.task];
      && !x.inToolQueue && (e.kind == CPUDone ==> x.holdsRunning && x.admitted) && (e.kind == IODone ==> x.admitted)
      && (e.kind == WaitDone || e.kind == Arrival ==> !x.holdsRunning && !x.admitted)
      && (!x.admitted && PhaseOf(s', e.task).Some? ==> KindOf(s', e.task) == CPU)
      && s'.events == s.events && s'.now == s.now
  {
    TakenPhase(s, e);
  }

  lemma TakenPhase(s: Sim, e: Event)
    requires Shape(s) && EventOk(s, e)
    ensures var s' := Taken(s, e);
      !s'.states[e.task].admitted && PhaseOf(s', e.task).Some? ==> KindOf(s', e.task) == CPU
  {
    if PhaseOf(s, e.task).Some? { DurationIsPositive(s, e.task); }
    if e.kind == Arrival { assert TaskValid(s.tasks[e.task]); }
  }

  /** The time of the phase that a task leaves is spent. */
  lemma PhaseIsSpent(kind: Kind, s: Sim, t: nat, s': Sim)
    requires |s.states| == |s.tasks| && t < |s.tasks| && PhaseOf(s, t).Some?
    requires |s'.states| == |s.states| && s'.states == s.states[t := s'.states[t]] && s'.states[t].phase in {s.states[t].phase, s.states[t].phase + 1}
    ensures TotalSpent(kind, s.tasks, s'.states, |s.tasks|) == TotalSpent(kind, s.tasks, s.states, |s.tasks|) +
      if s'.states[t].phase > s.states[t].phase && KindOf(s, t) == kind then DurationOf(s, t) else 0
  {
    SpentPut(kind, s.tasks, s.states, |s.tasks|, t, s'.states[t]);
  }

  lemma TakenAccounts(s: Sim, e: Event, rest: seq<Event>, s': Sim)
    requires Shape(s) && EventOk(s, e) && e.at == s.now && s' == Taken(s, e)
    requires PhaseOf(s, e.task).Some? && AccountsOk(s, [e] + rest)
    requires forall kind :: ElapsedSplits(kind, s, e, rest)
    ensures AccountsOk(s', rest)
  {
    var t := e.task;
    PhaseIsSpent(CPU, s, t, s');
    PhaseIsSpent(ExternalIO, s, t, s');
    RejectionsPut(s.states, |s.tasks|, t, s'.states[t]);
    assert s'.states == s.states[t := s'.states[t]];
    assert LengthOf(s.tasks, e) == DurationOf(s, t);
  }

  /** A task that waits in a list is under way and at no other place. */
  lemma Located(s: Sim, evs: seq<Event>, t: nat)
    requires Settled(s, evs) && Queued(s, t)
    ensures t < |s.tasks| && UnderWay(s, t) && !Over(s.states[t]) && PhaseOf(s, t).Some? && PlacesOf(s, evs, t) == 1
  {
    assert TaskOk(s, evs, t);
  }

  /** The list is shorter by one `t`. */
  ghost predicate Shorter(q: seq<nat>, q': seq<nat>, t: nat) {
    |q'| == |q| - 1 && multiset(q) == multiset(q') + multiset{t}
  }

  lemma ShorterFacts(q: seq<nat>, q': seq<nat>, t: nat)
    requires Shorter(q, q', t)
    ensures t in q && Occ(q', t) == Occ(q, t) - 1 && forall u: nat :: u != t ==> Occ(q', u) == Occ(q, u)
    ensures forall u :: u in q' ==> u in q
  {
    assert multiset(q)[t] > 0;
    forall u | u in q' ensures u in q { assert multiset(q')[u] > 0; assert multiset(q)[u] > 0; }
  }

  /** A list of tasks is shorter by one `t`, the others are the same. */
  ghost predicate OneListShorter(s: Sim, t: nat, s': Sim) {
    || (Shorter(s.admission, s'.admission, t) && s'.ready == s.ready && s'.toolQueue == s.toolQueue)
    || (Shorter(s.ready, s'.ready, t) && s'.admission == s.admission && s'.toolQueue == s.toolQueue)
    || (Shorter(s.toolQueue, s'.toolQueue, t) && s'.admission == s.admission && s'.ready == s.ready)
  }

  predicate OnlyListsAndTools(s: Sim, s': Sim) {
    s' == s.(admission := s'.admission, ready := s'.ready, toolQueue := s'.toolQueue, tools := s'.tools, peakTools := s'.peakTools)
  }

  lemma TakePlaces(s: Sim, evs: seq<Event>, t: nat, s': Sim)
    requires Settled(s, evs) && OnlyListsAndTools(s, s') && OneListShorter(s, t, s')
    ensures Queued(s, t) && Shape(s') && Others(s', evs, t) && LooseOk(s', evs, t)
  {
    if s'.admission != s.admission { ShorterFacts(s.admission, s'.admission, t); }
    else if s'.ready != s.ready { ShorterFacts(s.ready, s'.ready, t); }
    else { ShorterFacts(s.toolQueue, s'.toolQueue, t); }
    Located(s, evs, t);
    forall u: nat | u < |s.tasks| && u != t ensures SameFor(s, evs, s', evs, u) { }
    OthersFrame(s, evs, |s.tasks|, s', evs, t);
  }

  lemma TakeCounts(s: Sim, evs: seq<Event>, t: nat, s': Sim)
    requires Settled(s, evs) && OnlyListsAndTools(s, s') && OneListShorter(s, t, s')
    requires s'.tools == s.tools + One(s'.toolQueue != s.toolQueue) && Queued(s, t)
    ensures CountsOk(s', evs, t) && AccountsOk(s', evs) && t < |s.tasks|
  {
    Located(s, evs, t);
  }

  /** A waiting task leaves its list. */
  lemma TakeKeeps(s: Sim, evs: seq<Event>, t: nat, s': Sim)
    requires Settled(s, evs) && OnlyListsAndTools(s, s') && OneListShorter(s, t, s')
    requires s'.tools == s.tools + One(s'.toolQueue != s.toolQueue) && LimitsOk(s')
    ensures Core(s', evs, t) && Queued(s, t)
  {
    TakePlaces(s, evs, t, s');
    TakeCounts(s, evs, t, s');
    assert EventsOk(s', evs) by { forall e | e in evs ensures EventOk(s', e) { assert EventOk(s, e); } }
    assert NumbersOk(s', evs) by { NumbersStay(s, evs, t, s'); }
  }

  lemma TakeToolKeeps(s: Sim, evs: seq<Event>, t: nat, s1: Sim)
    requires Settled(s, evs) && s.toolQueue != [] && t == s.toolQueue[0] && s.tools < s.config.maxTools
    requires s1 == UpdatePeaks(s.(toolQueue := s.toolQueue[1..], tools := s.tools + 1))
    ensures Core(s1, evs, t) && t < |s.tasks| && PushOk(s1, t, IODone)
  {
    assert s.toolQueue == [t] + s.toolQueue[1..];
    Located(s, evs, t);
    TakeKeeps(s, evs, t, s1);
  }

  /** The first task of the tool queue gets a tool slot. */
  lemma StartToolKeeps(s: Sim, evs: seq<Event>) returns (e: Event)
    requires Settled(s, evs) && s.toolQueue != [] && s.tools < s.config.maxTools
    ensures Settled(StartTool(s), evs + [e]) && StartTool(s).events == s.events + [e] && e.at > s.now
  {
    var t := s.toolQueue[0];
    var s1 := UpdatePeaks(s.(toolQueue := s.toolQueue[1..], tools := s.tools + 1));
    TakeToolKeeps(s, evs, t, s1);
    e := StartTool(s).events[|s.events|];
    PushKeeps(s1, evs, t, IODone, StartTool(s), e);
  }

  // -------------------------------------------------------------------- starting a task

  lemma {:induction false} WithoutIsShorterBy(q: seq<nat>, t: nat)
    requires t in q
    ensures Shorter(q, Without(q, t), t)
  {
    assert q == [q[0]] + q[1..];
    if q[0] != t {
      WithoutIsShorterBy(q[1..], t);
    }
  }

  lemma StartRunningKeeps(s: Sim, evs: seq<Event>, t: nat) returns (more: seq<Event>)
    requires Core(s, evs, t) && t < |s.tasks| && s.running < s.config.maxRunning
    requires Startable(s, t)
    ensures Settled(StartRunning(s, t), evs + more) && StartRunning(s, t).events == s.events + more
    ensures forall e :: e in more ==> e.at > s.now
  {
    var held := TakeSlot(s, t);
    TakeSlotKeeps(s, evs, t);
    if KindOf(s, t) == CPU {
      var e := StartRunning(s, t).events[|s.events|];
      PushKeeps(held, evs, t, CPUDone, StartRunning(s, t), e);
      more := [e];
    } else {
      more := [];
      assert evs + [] == evs && s.events + [] == s.events;
      ToolKeeps(held, evs, t, StartRunning(s, t));
    }
  }

  /** The task may start: it is resident and holds nothing. */
  predicate Startable(s: Sim, t: nat) {
    var x := StateOf(s, t);
    x.admitted && !x.holdsRunning && !x.inToolQueue && CanWaitReady(s, KindOf(s, t))
  }

  lemma TakeReadyKeeps(s: Sim, evs: seq<Event>, t: nat, s1: Sim)
    requires Settled(s, evs) && t in s.ready && s1 == s.(ready := Without(s.ready, t))
    ensures Core(s1, evs, t) && t < |s.tasks| && Startable(s1, t)
  {
    Located(s, evs, t);
    WithoutIsShorterBy(s.ready, t);
    TakeKeeps(s, evs, t, s1);
  }

  lemma TakeAdmissionKeeps(s: Sim, evs: seq<Event>, t: nat, s1: Sim, s2: Sim)
    requires Settled(s, evs) && t in s.admission && s.resident < s.config.maxResident
    requires s1 == s.(admission := Without(s.admission, t)) && s2 == Admit(s1, t)
    ensures Core(s2, evs, t) && t < |s.tasks| && Startable(s2, t)
  {
    Located(s, evs, t);
    WithoutIsShorterBy(s.admission, t);
    TakeKeeps(s, evs, t, s1);
    AdmitKeeps(s1, evs, t);
  }

  lemma TakeBestKeeps(s: Sim, evs: seq<Event>)
    requires Settled(s, evs) && Candidates(s) != []
    ensures var (s1, t) := TakeBest(s);
      Core(s1, evs, t) && t < |s.tasks| && Startable(s1, t) && s1.running == s.running && s1.events == s.events && s1.now == s.now
  {
    var c := Candidates(s);
    var b := Best(s, c, |c|);
    if b < |s.ready| {
      assert c[b] == s.ready[b];
      TakeReadyKeeps(s, evs, c[b], TakeBest(s).0);
    } else {
      assert c[b] == s.admission[b - |s.ready|];
      TakeAdmissionKeeps(s, evs, c[b], s.(admission := Without(s.admission, c[b])), TakeBest(s).0);
    }
  }

  lemma StartBestKeeps(s: Sim, evs: seq<Event>) returns (more: seq<Event>)
    requires Settled(s, evs) && CanStart(s)
    ensures Settled(StartBest(s), evs + more) && StartBest(s).events == s.events + more
    ensures forall e :: e in more ==> e.at > s.now
  {
    TakeBestKeeps(s, evs);
    more := StartRunningKeeps(TakeBest(s).0, evs, TakeBest(s).1);
  }

  // ---------------------------------------------------------------------------- rejecting

  lemma RejectKeeps(s: Sim, evs: seq<Event>, k: nat)
    requires Settled(s, evs) && k < |s.admission|
    ensures Settled(RejectAt(s, k), evs)
  {
    var t := s.admission[k];
    var s1 := s.(admission := s.admission[..k] + s.admission[k + 1..]);
    assert s.admission == s.admission[..k] + [t] + s.admission[k + 1..];
    Located(s, evs, t);
    TakeKeeps(s, evs, t, s1);
    TurnAwayKeeps(s1, evs, t, RejectAt(s, k));
  }

  lemma TurnAwayKeeps(s: Sim, evs: seq<Event>, t: nat, s': Sim)
    requires Core(s, evs, t) && t < |s.tasks|
    requires !s.states[t].admitted && !s.states[t].holdsRunning && !s.states[t].inToolQueue
    requires s' == PutState(s, t, s.states[t].(rejected := true)).(rejected := s.rejected + 1,
      results := s.results[IdOf(s, t) := TurnedAway])
    ensures Settled(s', evs)
  {
    assert TaskOk(s', evs, t);
    ResultFrame(s, evs, t, s');
    NumbersStay(s, evs, t, s');
    AccountsStay(s, evs, t, s'.states[t], s');
  }
}
