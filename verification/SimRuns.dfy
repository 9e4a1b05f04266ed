/**
 Whole simulations: no turn of the main loop fails, each one moves time on and leaves less to
 do, and in the end every task has its result and the slot times are accounted for.
 */
module SimRuns {
  import opened Options
  import opened SimModel
  import opened SimInvariant
  import opened SimSteps

  // ------------------------------------------------------------------------- what is left

  /** How often a task will still be handled. */
  function LeftOf(s: Sim, t: nat): nat {
    var x := StateOf(s, t);
    if Over(x) then 0
    else (if x.phase <= |Phases(s, t)| then |Phases(s, t)| - x.phase else 0) + One(x.readySeq == 0)
  }

  function Left(s: Sim, n: nat): nat {
    if n == 0 then 0 else Left(s, n - 1) + LeftOf(s, n - 1)
  }

  ghost predicate NoMoreAt(s: Sim, s': Sim, u: nat) {
    LeftOf(s', u) <= LeftOf(s, u)
  }

  ghost predicate NoMore(s: Sim, s': Sim) {
    forall u: nat {:trigger NoMoreAt(s, s', u)} :: NoMoreAt(s, s', u)
  }

  lemma {:induction false} LeftGrowsNot(s: Sim, s': Sim, n: nat)
    requires NoMore(s, s')
    ensures Left(s', n) <= Left(s, n)
  {
    if n > 0 { LeftGrowsNot(s, s', n - 1); assert NoMoreAt(s, s', n - 1); }
  }

  lemma {:induction false} LeftShrinks(s: Sim, s': Sim, t: nat, n: nat)
    requires NoMore(s, s') && t < n && LeftOf(s', t) < LeftOf(s, t)
    ensures Left(s', n) < Left(s, n)
  {
    if t < n - 1 { LeftShrinks(s, s', t, n - 1); } else { LeftGrowsNot(s, s', n - 1); }
    assert NoMoreAt(s, s', n - 1);
  }

  /**
   A step of the present: there is no more to do, what is added to the future comes later, and a
   completion moves the makespan to the present.
   */
  ghost predicate Forward(s: Sim, s': Sim) {
    && s'.tasks == s.tasks && s'.config == s.config && s'.now == s.now
    && NoMore(s, s') && AddsLater(s, s') && Rises(s, s')
  }

  ghost predicate AddsLater(s: Sim, s': Sim) {
    forall e :: e in s'.events ==> e in s.events || e.at > s.now
  }

  predicate Rises(s: Sim, s': Sim) {
    && s'.completed >= s.completed
    && (s'.completed > s.completed ==> s'.makespan == s.now)
    && (s.makespan == s.now ==> s'.makespan == s.now)
  }

  lemma ForwardTrans(s: Sim, s1: Sim, s2: Sim)
    requires Forward(s, s1) && Forward(s1, s2)
    ensures Forward(s, s2)
  {
    forall u: nat ensures NoMoreAt(s, s2, u) { assert NoMoreAt(s, s1, u) && NoMoreAt(s1, s2, u); }
  }

  /** A step that changes the state of one task. */
  lemma ForwardPut(s: Sim, s': Sim, t: nat, more: seq<Event>)
    requires s'.tasks == s.tasks && s'.config == s.config && s'.now == s.now && Rises(s, s')
    requires s'.events == s.events + more && forall e :: e in more ==> e.at > s.now
    requires LeftOf(s', t) <= LeftOf(s, t) && forall u: nat :: u != t ==> StateOf(s', u) == StateOf(s, u)
    ensures Forward(s, s')
  {
    forall u: nat ensures NoMoreAt(s, s', u) { }
  }

  // ------------------------------------------------------------------------ handling events

  lemma HandleUnfolds(s: Sim, e: Event)
    requires EventOk(s, e)
    ensures Handle(s, e) == Some(match e.kind
      case Arrival => EnqueueAdmission(s, e.task, false)
      case CPUDone => AfterCPU(Taken(s, e), e.task)
      case IODone => AfterIO(Taken(s, e), e.task)
      case WaitDone => Advance(Taken(s, e), e.task))
  {
  }

  lemma HandleKeeps(s: Sim, e: Event, rest: seq<Event>) returns (more: seq<Event>)
    requires Settled(s, [e] + rest) && e.at == s.now
    ensures Handle(s, e).Some?
    ensures var s' := Handle(s, e).value;
      Settled(s', rest + more) && s'.events == s.events + more
    ensures forall f :: f in more ==> f.at > s.now
  {
    var t := e.task;
    assert EventOk(s, ([e] + rest)[0]);
    HandleUnfolds(s, e);
    var s1 := Taken(s, e);
    TakenFlags(s, e);
    TakeEventKeeps(s, e, rest, s1);
    match e.kind
    case Arrival =>
      more := [];
      assert rest + [] == rest && s.events + [] == s.events;
      assert TaskValid(s.tasks[t]);
      AdmissionKeeps(s, rest, t, false, Handle(s, e).value);
    case CPUDone => more := AfterCPUKeeps(s1, rest, t);
    case IODone => more := AfterIOKeeps(s1, rest, t);
    case WaitDone => more := AdvanceKeeps(s1, rest, t);
  }

  lemma AfterCPUKeeps(s: Sim, evs: seq<Event>, t: nat) returns (more: seq<Event>)
    requires Core(s, evs, t) && t < |s.tasks|
    requires s.states[t].holdsRunning && s.states[t].admitted && !s.states[t].inToolQueue
    ensures Settled(AfterCPU(s, t), evs + more) && AfterCPU(s, t).events == s.events + more
    ensures forall f :: f in more ==> f.at > s.now
  {
    if KindOf(s, t) == ExternalIO && !s.config.liveIO {
      more := [];
      assert evs + [] == evs && s.events + [] == s.events;
      ToolKeeps(s, evs, t, AfterCPU(s, t));
    } else {
      DropSlotKeeps(s, evs, t);
      more := AdvanceKeeps(DropSlot(s, t), evs, t);
    }
  }

  lemma AfterIOKeeps(s: Sim, evs: seq<Event>, t: nat) returns (more: seq<Event>)
    requires Core(s, evs, t) && t < |s.tasks| && s.states[t].admitted && !s.states[t].inToolQueue
    ensures Settled(AfterIO(s, t), evs + more) && AfterIO(s, t).events == s.events + more
    ensures forall f :: f in more ==> f.at > s.now
  {
    if !s.states[t].holdsRunning {
      more := AdvanceKeeps(s, evs, t);
    } else if KindOf(s, t) == CPU {
      var e := AfterIO(s, t).events[|s.events|];
      PushKeeps(s, evs, t, CPUDone, AfterIO(s, t), e);
      more := [e];
    } else {
      DropSlotKeeps(s, evs, t);
      more := AdvanceKeeps(DropSlot(s, t), evs, t);
    }
  }

  /** Nothing has happened but to task `t`, which has no more before it than it had. */
  ghost predicate SmallStep(s: Sim, t: nat, s': Sim) {
    && s'.tasks == s.tasks && s'.config == s.config && s'.now == s.now && Rises(s, s')
    && LeftOf(s', t) <= LeftOf(s, t) && forall u: nat :: u != t ==> StateOf(s', u) == StateOf(s, u)
  }

  /** What happens to a task that has gone through a phase. */
  lemma AdvanceIsSmall(s: Sim, t: nat, s': Sim)
    requires t < |s.states| && s.makespan <= s.now && !Over(s.states[t]) && s' == Advance(s, t)
    ensures SmallStep(s, t, s')
  {
  }

  lemma DroppedIsSmall(s: Sim, t: nat, s': Sim)
    requires t < |s.states| && s.makespan <= s.now && !Over(s.states[t]) && s' == Advance(DropSlot(s, t), t)
    ensures SmallStep(s, t, s')
  {
    AdvanceIsSmall(DropSlot(s, t), t, s');
  }

  lemma AfterIsSmall(s: Sim, t: nat, s': Sim)
    requires t < |s.states| && s.makespan <= s.now && !Over(s.states[t])
    requires s' in {AfterCPU(s, t), AfterIO(s, t), Advance(s, t)}
    ensures SmallStep(s, t, s')
  {
    if s' == Advance(s, t) { AdvanceIsSmall(s, t, s'); }
    else if s' == Advance(DropSlot(s, t), t) { DroppedIsSmall(s, t, s'); }
  }

  lemma TakenShrinks(s: Sim, e: Event)
    requires EventOk(s, e) && PhaseOf(s, e.task).Some? && |s.states| == |s.tasks| && e.kind != Arrival
    ensures var s1 := Taken(s, e);
      && e.task < |s1.states| && !Over(s1.states[e.task]) && LeftOf(s1, e.task) < LeftOf(s, e.task)
      && s1.makespan == s.makespan && s1.completed == s.completed
      && s1.tasks == s.tasks && s1.config == s.config && s1.now == s.now && forall u: nat :: u != e.task ==> StateOf(s1, u) == StateOf(s, u)
  {
  }

  /** A handled task has one turn less before it. */
  lemma HandleForward(s: Sim, e: Event, more: seq<Event>)
    requires Shape(s) && EventOk(s, e) && PhaseOf(s, e.task).Some? && s.makespan <= s.now && Handle(s, e).Some?
    requires Handle(s, e).value.events == s.events + more && forall f :: f in more ==> f.at > s.now
    ensures var s' := Handle(s, e).value;
      Forward(s, s') && LeftOf(s', e.task) < LeftOf(s, e.task)
  {
    HandleUnfolds(s, e);
    if e.kind != Arrival {
      TakenShrinks(s, e);
      AfterIsSmall(Taken(s, e), e.task, Handle(s, e).value);
    }
    ForwardPut(s, Handle(s, e).value, e.task, more);
  }

  lemma {:induction false} HandleAllKeeps(s: Sim, batch: seq<Event>)
    requires Settled(s, batch + s.events) && forall e :: e in batch ==> e.at == s.now
    ensures HandleAll(s, batch).Some?
    ensures var s' := HandleAll(s, batch).value;
      && Settled(s', s'.events) && Forward(s, s')
      && (batch != [] ==> Left(s', |s.tasks|) < Left(s, |s.tasks|))
    decreases |batch|
  {
    if batch == [] {
      assert [] + s.events == s.events;
    } else {
      var s1 := HandleFirst(s, batch);
      HandleAllKeeps(s1, batch[1..]);
      var s' := HandleAll(s1, batch[1..]).value;
      ForwardTrans(s, s1, s');
      LeftGrowsNot(s1, s', |s.tasks|);
    }
  }

  lemma HandleFirst(s: Sim, batch: seq<Event>) returns (s1: Sim)
    requires Settled(s, batch + s.events) && batch != [] && forall e :: e in batch ==> e.at == s.now
    ensures Handle(s, batch[0]) == Some(s1) && Settled(s1, batch[1..] + s1.events)
    ensures Forward(s, s1) && Left(s1, |s.tasks|) < Left(s, |s.tasks|)
  {
    HeadSplits(batch, s.events);
    s1 := HandleOne(s, batch[0], batch[1..], batch[1..] + s.events);
  }

  lemma HeadSplits(batch: seq<Event>, events: seq<Event>)
    requires batch != []
    ensures batch + events == [batch[0]] + (batch[1..] + events)
  {
  }

  lemma JoinsAssociate(a: seq<Event>, b: seq<Event>, c: seq<Event>)
    ensures (a + b) + c == a + (b + c)
  {
  }

  lemma HandleOne(s: Sim, e: Event, rest: seq<Event>, others: seq<Event>) returns (s1: Sim)
    requires Settled(s, [e] + others) && others == rest + s.events && e.at == s.now
    ensures Handle(s, e) == Some(s1) && Settled(s1, rest + s1.events)
    ensures Forward(s, s1) && Left(s1, |s.tasks|) < Left(s, |s.tasks|)
  {
    var more := HandleKeeps(s, e, others);
    s1 := Handle(s, e).value;
    JoinsAssociate(rest, s.events, more);
    assert ([e] + others)[0] == e;
    EventIsCurrent(s, [e] + others, e);
    HandleForward(s, e, more);
    LeftShrinks(s, s1, e.task, |s.tasks|);
  }

  lemma EventIsCurrent(s: Sim, evs: seq<Event>, e: Event)
    requires Settled(s, evs) && e in evs
    ensures EventOk(s, e) && PhaseOf(s, e.task).Some?
  {
    assert EventOk(s, e);
    assert TaskOk(s, evs, e.task);
  }

  // ------------------------------------------------------------------------------ draining

  /** No tool slot and no running slot is free that could be used. */
  predicate Idle(s: Sim) {
    (s.tools >= s.config.maxTools || s.toolQueue == []) && !CanStart(s)
  }

  lemma {:induction false} DrainToolsKeeps(s: Sim)
    requires Settled(s, s.events)
    ensures var s' := DrainTools(s);
      Settled(s', s'.events) && Forward(s, s') && (s'.tools >= s.config.maxTools || s'.toolQueue == [])
    decreases |s.toolQueue|
  {
    if s.tools < s.config.maxTools && s.toolQueue != [] {
      var e := StartToolKeeps(s, s.events);
      ForwardPut(s, StartTool(s), 0, [e]);
      DrainToolsKeeps(StartTool(s));
      ForwardTrans(s, StartTool(s), DrainTools(s));
    }
  }

  lemma TakeBestIsSmall(s: Sim)
    requires Candidates(s) != []
    ensures var (s1, t) := TakeBest(s);
      && s1.tasks == s.tasks && s1.config == s.config && s1.now == s.now && s1.completed == s.completed && s1.makespan == s.makespan
      && LeftOf(s1, t) == LeftOf(s, t) && forall u: nat :: u != t ==> StateOf(s1, u) == StateOf(s, u)
  {
  }

  lemma StartRunningIsSmall(s: Sim, t: nat)
    ensures var s' := StartRunning(s, t);
      && s'.tasks == s.tasks && s'.config == s.config && s'.now == s.now && s'.completed == s.completed && s'.makespan == s.makespan
      && LeftOf(s', t) == LeftOf(s, t) && forall u: nat :: u != t ==> StateOf(s', u) == StateOf(s, u)
  {
  }

  lemma StartBestIsSmall(s: Sim)
    requires Candidates(s) != []
    ensures var s', t := StartBest(s), TakeBest(s).1;
      && s'.tasks == s.tasks && s'.config == s.config && s'.now == s.now && Rises(s, s')
      && LeftOf(s', t) <= LeftOf(s, t) && forall u: nat :: u != t ==> StateOf(s', u) == StateOf(s, u)
  {
    TakeBestIsSmall(s);
    StartRunningIsSmall(TakeBest(s).0, TakeBest(s).1);
  }

  lemma {:induction false} DrainKeeps(s: Sim)
    requires Settled(s, s.events)
    ensures var s' := Drain(s); Settled(s', s'.events) && Forward(s, s') && Idle(s')
    decreases Waiting(s)
  {
    DrainToolsKeeps(s);
    DrainToolsWaits(s);
    var s1 := DrainTools(s);
    if CanStart(s1) {
      StartBestShrinks(s1);
      var more := StartBestKeeps(s1, s1.events);
      StartBestIsSmall(s1);
      ForwardPut(s1, StartBest(s1), TakeBest(s1).1, more);
      DrainKeeps(StartBest(s1));
      ForwardTrans(s1, StartBest(s1), Drain(s));
      ForwardTrans(s, s1, Drain(s));
    }
  }

  lemma {:induction false} EnforceKeeps(s: Sim)
    requires Settled(s, s.events) && Idle(s)
    ensures var s' := EnforceLimit(s);
      && Settled(s', s'.events) && Forward(s, s') && Idle(s')
      && (s.config.maxQueued != 0 ==> |s'.admission| <= s.config.maxQueued)
    decreases |s.admission|
  {
    if s.config.maxQueued != 0 && |s.admission| > s.config.maxQueued && |s.admission| > 0 {
      var k := Newest(s, |s.admission|);
      RejectKeeps(s, s.events, k);
      var s1 := RejectAt(s, k);
      RejectForward(s, k);
      EnforceKeeps(s1);
      ForwardTrans(s, s1, EnforceLimit(s));
    }
  }

  lemma RejectForward(s: Sim, k: nat)
    requires k < |s.admission| && Idle(s)
    ensures Forward(s, RejectAt(s, k)) && Idle(RejectAt(s, k))
  {
    assert s.events + [] == s.events;
    ForwardPut(s, RejectAt(s, k), s.admission[k], []);
  }
}
