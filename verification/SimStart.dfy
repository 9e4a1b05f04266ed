/**
 The start of a simulation: every task is announced by the event of its arrival.
 */
module SimStart {
  import opened SimModel
  import opened SimInvariant

  ghost predicate ArrivalAt(s: Sim, t: nat)
    requires t < |s.tasks|
  {
    t < |s.events| && s.events[t] == Event(s.tasks[t].arrival, t + 1, Arrival, t, 0)
  }

  lemma {:induction false} AnnouncedIs(tasks: seq<Task>, config: Config, n: nat)
    requires n <= |tasks|
    ensures var s := Announced(tasks, config, n);
      && s == Sim(config, tasks, 0, n, s.events, seq(n, i => NEW), [], [], [], 0, 0, 0, 0, 0, 0, 0, 0, 0, 0, 0, map[])
      && |s.events| == n && forall t: nat {:trigger ArrivalAt(s, t)} :: t < n ==> ArrivalAt(s, t)
  {
    if n > 0 {
      AnnouncedIs(tasks, config, n - 1);
      var s, s' := Announced(tasks, config, n - 1), Announced(tasks, config, n);
      assert s'.states == seq(n, i => NEW);
      forall t: nat | t < n ensures ArrivalAt(s', t) {
        if t < n - 1 { assert ArrivalAt(s, t); }
      }
    }
  }

  lemma {:induction false} ArrivalsOnly(evs: seq<Event>, from: nat)
    requires forall i: nat :: i < |evs| ==> evs[i].kind == Arrival && evs[i].task == from + i && evs[i].number == from + i + 1
    ensures forall kind :: Count(kind, evs) == if kind == Arrival then |evs| else 0
    ensures forall kind, tasks, now :: kind != Arrival ==> Elapsed(kind, tasks, now, evs) == 0
    ensures forall t: nat :: Occ(TasksOf(evs), t) == One(from <= t < from + |evs|)
    ensures forall n: nat :: Occ(NumbersOf(evs), n) == One(from < n <= from + |evs|)
  {
    if evs != [] {
      var rest := evs[1..];
      assert forall i: nat :: i < |rest| ==> rest[i] == evs[i + 1];
      ArrivalsOnly(rest, from + 1);
      forall t: nat ensures Occ(TasksOf(evs), t) == One(from <= t < from + |evs|) {
        assert TasksOf(evs) == [evs[0].task] + TasksOf(rest);
        assert Occ(TasksOf(rest), t) == One(from + 1 <= t < from + 1 + |rest|);
      }
      forall n: nat ensures Occ(NumbersOf(evs), n) == One(from < n <= from + |evs|) {
        assert NumbersOf(evs) == [evs[0].number] + NumbersOf(rest);
        assert Occ(NumbersOf(rest), n) == One(from + 1 < n <= from + 1 + |rest|);
      }
    }
  }

  lemma {:induction false} NothingSpent(kind: Kind, tasks: seq<Task>, states: seq<TaskState>, n: nat)
    requires n <= |tasks| == |states| && forall t: nat :: t < |states| ==> states[t] == NEW
    ensures TotalSpent(kind, tasks, states, n) == 0 && Rejections(states, n) == 0
  {
    if n > 0 { NothingSpent(kind, tasks, states, n - 1); }
  }

  lemma StartTask(s: Sim, t: nat)
    requires Shape(s) && t < |s.tasks| && s.states[t] == NEW && s.results == map[]
    requires s.admission == [] && s.ready == [] && s.toolQueue == [] && Occ(TasksOf(s.events), t) == 1
    ensures TaskOk(s, s.events, t)
  {
    assert TaskValid(s.tasks[t]);
  }

  lemma StartIsSettled(tasks: seq<Task>, config: Config)
    requires Accepted(tasks, config)
    ensures var s := Start(tasks, config); Settled(s, s.events) && s.events != [] && s.tasks == tasks && s.config == config && s.now == 0
  {
    AnnouncedIs(tasks, config, |tasks|);
    var s := Start(tasks, config);
    forall i: nat | i < |s.events|
      ensures s.events[i].kind == Arrival && s.events[i].task == i && s.events[i].number == i + 1
    {
      assert ArrivalAt(s, i);
    }
    ArrivalsOnly(s.events, 0);
    NothingSpent(CPU, tasks, s.states, |tasks|);
    NothingSpent(ExternalIO, tasks, s.states, |tasks|);
    forall t: nat | t < |tasks| ensures TaskOk(s, s.events, t) { StartTask(s, t); }
    StartEvents(s);
  }

  lemma StartEvents(s: Sim)
    requires Shape(s) && |s.events| == |s.tasks| && s.now == 0 && s.number == |s.tasks|
    requires forall t: nat :: t < |s.tasks| ==> s.states[t] == NEW
    requires forall t: nat {:trigger ArrivalAt(s, t)} :: t < |s.tasks| ==> ArrivalAt(s, t)
    requires forall n: nat :: Occ(NumbersOf(s.events), n) == One(0 < n <= |s.events|)
    ensures EventsOk(s, s.events) && NumbersOk(s, s.events)
  {
    forall e | e in s.events ensures EventOk(s, e) {
      var i :| 0 <= i < |s.events| && s.events[i] == e;
      assert ArrivalAt(s, i) && TaskValid(s.tasks[i]);
    }
    forall t: nat | t < |s.tasks| ensures NumberOk(s, t) { }
    forall t: nat, u: nat | t < |s.tasks| && u < |s.tasks| && t != u ensures NumbersDiffer(s, t, u) { }
  }
}
