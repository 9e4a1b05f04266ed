/**
 What a simulation is for: it ends, without an error, with one result for every task; and its
 slot times are the durations of the phases that have run.
 */
module SimTheorems {
  import opened Options
  import opened SimModel
  import opened SimInvariant
  import opened SimSteps
  import opened SimRuns
  import opened SimTime
  import opened SimStart

  /** Between two turns of the main loop. */
  ghost predicate Good(s: Sim) {
    && Settled(s, s.events) && Idle(s) && AllLater(s)
    && (s.config.maxQueued != 0 ==> |s.admission| <= s.config.maxQueued)
  }

  ghost predicate AllLater(s: Sim) {
    forall e :: e in s.events ==> e.at > s.now
  }

  /** The events of the next moment are handled. */
  lemma MomentIsHandled(s: Sim) returns (s2: Sim)
    requires Settled(s, s.events) && s.events != []
    ensures HandleAll(MoveOn(s), TakeBatch(s.events, Top(s.events).at).0) == Some(s2)
    ensures Settled(s2, s2.events) && AllLater(s2) && s2.tasks == s.tasks && s2.config == s.config
    ensures Left(s2, |s.tasks|) < Left(s, |s.tasks|)
    ensures s.now <= s2.now && (AllLater(s) ==> s.now < s2.now)
    ensures s2.completed >= s.completed && (s2.completed > s.completed ==> s2.makespan == s2.now)
  {
    MoveOnKeeps(s);
    var s1, batch := MoveOn(s), TakeBatch(s.events, Top(s.events).at).0;
    TopIsLeast(s.events);
    MoveOnLeft(s, |s.tasks|);
    HandleAllKeeps(s1, batch);
    s2 := HandleAll(s1, batch).value;
  }

  /** And what can start then starts. */
  lemma MomentIsUsed(s: Sim, s': Sim)
    requires Settled(s, s.events) && AllLater(s) && s' == EnforceLimit(Drain(s))
    ensures Good(s') && s'.tasks == s.tasks && s'.config == s.config && s'.now == s.now
    ensures Left(s', |s.tasks|) <= Left(s, |s.tasks|) && Rises(s, s')
  {
    DrainKeeps(s);
    EnforceKeeps(Drain(s));
    ForwardTrans(s, Drain(s), s');
    LeftGrowsNot(s, s', |s.tasks|);
  }

  /** A turn succeeds, moves time on, and leaves less to do. */
  lemma TurnKeeps(s: Sim)
    requires Settled(s, s.events) && s.events != []
    ensures Turn(s).Some?
    ensures var s' := Turn(s).value;
      && Good(s') && s'.tasks == s.tasks && s'.config == s.config
      && Left(s', |s.tasks|) < Left(s, |s.tasks|)
      && s.now <= s'.now && (AllLater(s) ==> s.now < s'.now)
      && s'.completed >= s.completed && (s'.completed > s.completed ==> s'.makespan == s'.now)
  {
    var s2 := MomentIsHandled(s);
    MomentIsUsed(s2, Turn(s).value);
  }

  lemma {:induction false} MoveOnLeft(s: Sim, n: nat)
    requires s.events != []
    ensures Left(MoveOn(s), n) == Left(s, n)
  {
    if n > 0 { MoveOnLeft(s, n - 1); }
  }

  // ------------------------------------------------------------------------------ the end

  ghost predicate Ended(s: Sim) {
    Settled(s, []) && s.events == [] && Idle(s)
  }

  /** Nobody is left anywhere. */
  lemma NobodyIsLeft(s: Sim)
    requires Ended(s)
    ensures s.admission == [] && s.ready == [] && s.toolQueue == []
    ensures s.running == 0 && s.tools == 0 && s.resident == 0
    ensures s.completed + s.rejected == |s.tasks| == |s.results|
  {
    assert s.toolQueue == [];
    assert Candidates(s) == [];
    assert s.ready == [];
  }

  predicate ResultFits(s: Sim, t: nat, r: TaskResult)
    requires t < |s.tasks|
  {
    match r
    case TurnedAway => true
    case Done(at, latency) =>
      && latency == at - s.tasks[t].arrival && at <= s.makespan
      && latency >= SpentAll(s.tasks[t].phases, |s.tasks[t].phases|)
  }

  /** Every task has its result: turned away, or done, and not before its phases can have run. */
  lemma EveryTaskHasItsResult(s: Sim, t: nat)
    requires Ended(s) && t < |s.tasks|
    ensures s.tasks[t].id in s.results && ResultFits(s, t, s.results[s.tasks[t].id])
    ensures s.states[t].rejected <==> s.results[s.tasks[t].id] == TurnedAway
    ensures !s.states[t].rejected ==> s.states[t].phase == |s.tasks[t].phases|
    ensures s.rejected == 0 ==> !s.states[t].rejected
  {
    NobodyIsLeft(s);
    assert TaskOk(s, [], t);
    if s.states[t].rejected { RejectionCounts(s.states, |s.tasks|, t); }
  }

  // ------------------------------------------------------------------------ slot times

  /** All the time that a kind of phase asks for. */
  function Demand(kind: Kind, tasks: seq<Task>, n: nat): int
    requires n <= |tasks|
  {
    if n == 0 then 0 else Demand(kind, tasks, n - 1) + Spent(kind, tasks[n - 1].phases, |tasks[n - 1].phases|)
  }

  lemma {:induction false} AllIsSpent(kind: Kind, s: Sim, n: nat)
    requires Ended(s) && s.rejected == 0 && n <= |s.tasks|
    ensures TotalSpent(kind, s.tasks, s.states, n) == Demand(kind, s.tasks, n)
  {
    if n > 0 {
      AllIsSpent(kind, s, n - 1);
      EveryTaskHasItsResult(s, n - 1);
    }
  }

  /** Where the slot times have gone, by how far each task got. */
  ghost predicate TimesAreSpent(s: Sim)
    requires |s.states| == |s.tasks|
  {
    var n := |s.tasks|;
    var cpu, io := TotalSpent(CPU, s.tasks, s.states, n), TotalSpent(ExternalIO, s.tasks, s.states, n);
    && s.toolTime == io
    && (if s.config.liveIO then s.runningTime == cpu else s.runningTime >= cpu + io)
    && s.runningTime <= s.config.maxRunning * s.now
  }

  /** The slot times are all that the tasks ask for. */
  predicate TimesAreDemand(s: Sim) {
    var cpu, io := Demand(CPU, s.tasks, |s.tasks|), Demand(ExternalIO, s.tasks, |s.tasks|);
    && s.toolTime == io
    && (if s.config.liveIO then s.runningTime == cpu else s.runningTime >= cpu + io)
  }

  /**
   What a simulation promises at its end. Nothing is left to come, every task is over with the
   one result that fits, and the slot times are those of the phases that ran; if nobody was turned
   away, they are all the time that the tasks ask for, and the running slots suffice for it until
   the makespan.
   */
  ghost predicate AsPromised(s: Sim, tasks: seq<Task>, config: Config) {
    && s.tasks == tasks && s.config == config && |s.states| == |tasks| && s.events == []
    && s.completed + s.rejected == |tasks| == |s.results|
    && (forall t: nat :: t < |tasks| ==> tasks[t].id in s.results && ResultFits(s, t, s.results[tasks[t].id]))
    && TimesAreSpent(s)
    && (s.rejected == 0 ==> TimesAreDemand(s) && s.runningTime <= config.maxRunning * s.makespan)
  }

  lemma EndIsDemand(s: Sim)
    requires Ended(s) && s.rejected == 0
    ensures TimesAreDemand(s)
  {
    AllIsSpent(CPU, s, |s.tasks|);
    AllIsSpent(ExternalIO, s, |s.tasks|);
  }

  // ------------------------------------------------------------------------ whole runs

  /** The last turn ends at the makespan, unless it turns someone away. */
  lemma LastTurn(s: Sim)
    requires Settled(s, s.events) && s.events != [] && Turn(s).Some? && Turn(s).value.events == []
    ensures var s' := Turn(s).value;
      Ended(s') && (s'.rejected == 0 ==> s'.makespan == s'.now && s'.runningTime <= s'.config.maxRunning * s'.makespan)
  {
    TurnKeeps(s);
    NobodyIsLeft(Turn(s).value);
  }

  /** From any state between two turns, some number of turns leads to the end. */
  lemma {:induction false} RunEnds(start: Sim, k: nat, s: Sim) returns (n: nat, end: Sim)
    requires Turns(start, k) == Some(s) && Settled(s, s.events) && s.events != []
    ensures Turns(start, n) == Some(end) && end.tasks == s.tasks && end.config == s.config
    ensures Ended(end) && (end.rejected == 0 ==> end.runningTime <= end.config.maxRunning * end.makespan)
    decreases Left(s, |s.tasks|)
  {
    TurnKeeps(s);
    end, n := Turn(s).value, k + 1;
    OneMoreTurn(start, k, n);
    if end.events == [] { LastTurn(s); } else { n, end := RunEnds(start, n, end); }
  }

  lemma OneMoreTurn(start: Sim, k: nat, n: nat)
    requires n == k + 1
    ensures Turns(start, n) == NextTurn(Turns(start, k))
  {
  }

  lemma EndIsComplete(end: Sim)
    requires Ended(end)
    ensures end.completed + end.rejected == |end.tasks| == |end.results|
    ensures forall t: nat :: t < |end.tasks| ==> end.tasks[t].id in end.results && ResultFits(end, t, end.results[end.tasks[t].id])
    ensures TimesAreSpent(end) && (end.rejected == 0 ==> TimesAreDemand(end))
  {
    NobodyIsLeft(end);
    forall t: nat | t < |end.tasks| ensures end.tasks[t].id in end.results && ResultFits(end, t, end.results[end.tasks[t].id]) {
      EveryTaskHasItsResult(end, t);
    }
    if end.rejected == 0 { EndIsDemand(end); }
  }

  /**
   Every accepted simulation ends without an error: after some number of turns nothing is left to
   come, nobody waits and every slot is free; and the end is as promised.
   */
  lemma SimulationsEnd(tasks: seq<Task>, config: Config) returns (k: nat, end: Sim)
    requires Accepted(tasks, config)
    ensures Turns(Start(tasks, config), k) == Some(end) && Ended(end) && AsPromised(end, tasks, config)
  {
    StartIsSettled(tasks, config);
    var start, zero: nat := Start(tasks, config), 0;
    assert Turns(start, zero) == Some(start);
    k, end := RunEnds(start, zero, start);
    EndIsComplete(end);
  }

  lemma {:induction false} TurnsAreGood(tasks: seq<Task>, config: Config, k: nat)
    requires Accepted(tasks, config) && Turns(Start(tasks, config), k).Some?
    ensures var s := Turns(Start(tasks, config), k).value;
      Settled(s, s.events) && (k > 0 ==> Good(s)) && s.tasks == tasks && s.config == config
  {
    StartIsSettled(tasks, config);
    if k > 0 {
      TurnsAreGood(tasks, config, k - 1);
      TurnKeeps(Turns(Start(tasks, config), k - 1).value);
    }
  }

  lemma LastBefore(tasks: seq<Task>, config: Config, k: nat, end: Sim) returns (last: Sim)
    requires Accepted(tasks, config) && Turns(Start(tasks, config), k) == Some(end) && end.events == []
    ensures Settled(last, last.events) && last.tasks == tasks && last.config == config
    ensures last.events != [] && Turn(last) == Some(end)
  {
    StartIsSettled(tasks, config);
    TurnsAreGood(tasks, config, k - 1);
    last := Turns(Start(tasks, config), k - 1).value;
  }

  /** And wherever the turns come to an end, it is as promised. */
  lemma EveryEndIsAsPromised(tasks: seq<Task>, config: Config, k: nat, end: Sim)
    requires Accepted(tasks, config) && Turns(Start(tasks, config), k) == Some(end) && end.events == []
    ensures Ended(end) && AsPromised(end, tasks, config)
  {
    var last := LastBefore(tasks, config, k, end);
    TurnKeeps(last);
    LastTurn(last);
    EndIsComplete(end);
  }

  /** Each turn but the first moves time strictly on. */
  lemma TimeMovesOn(tasks: seq<Task>, config: Config, k: nat)
    requires Accepted(tasks, config) && k > 0 && Turns(Start(tasks, config), k + 1).Some?
    ensures Turns(Start(tasks, config), k).Some?
    ensures Turns(Start(tasks, config), k).value.now < Turns(Start(tasks, config), k + 1).value.now
  {
    TurnsAreGood(tasks, config, k);
    TurnKeeps(Turns(Start(tasks, config), k).value);
  }

  /** The limits hold after every turn, and no slot is idle that could be used. */
  lemma LimitsAlwaysHold(tasks: seq<Task>, config: Config, k: nat)
    requires Accepted(tasks, config) && k > 0 && Turns(Start(tasks, config), k).Some?
    ensures var s := Turns(Start(tasks, config), k).value;
      && s.running <= s.peakRunning <= config.maxRunning
      && s.resident <= s.peakResident <= config.maxResident
      && s.tools <= s.peakTools <= config.maxTools
      && (config.maxQueued != 0 ==> |s.admission| <= config.maxQueued)
      && (s.toolQueue != [] ==> s.tools == config.maxTools)
      && (s.ready != [] ==> s.running == config.maxRunning)
      && (s.admission != [] ==> s.running == config.maxRunning || s.resident == config.maxResident)
  {
    TurnsAreGood(tasks, config, k);
    var s := Turns(Start(tasks, config), k).value;
    assert s.ready != [] ==> Candidates(s) != [];
    assert s.admission != [] && s.resident < config.maxResident ==> Candidates(s) != [];
  }

  // ---------------------------------------------------------------------------- choosing

  lemma PreferTrans(s: Sim, a: nat, b: nat, c: nat)
    requires Prefer(s, a, b) && Prefer(s, b, c)
    ensures Prefer(s, a, c)
  {
  }

  lemma PreferEither(s: Sim, a: nat, b: nat)
    requires StateOf(s, a).readySeq != StateOf(s, b).readySeq
    ensures Prefer(s, a, b) != Prefer(s, b, a)
  {
  }

  lemma {:induction false} BestIsPreferred(s: Sim, c: seq<nat>, n: nat)
    requires 0 < n <= |c|
    requires forall i, j :: 0 <= i < j < n ==> StateOf(s, c[i]).readySeq != StateOf(s, c[j]).readySeq
    ensures forall k :: 0 <= k < n && k != Best(s, c, n) ==> Prefer(s, c[Best(s, c, n)], c[k])
  {
    if n > 1 {
      BestIsPreferred(s, c, n - 1);
      var b, m := Best(s, c, n - 1), Best(s, c, n);
      PreferEither(s, c[b], c[n - 1]);
      forall k | 0 <= k < n && k != m ensures Prefer(s, c[m], c[k]) {
        if m == n - 1 && k != b { PreferTrans(s, c[m], c[b], c[k]); }
      }
    }
  }

  /** The one that starts is preferred, by the policy, to every other candidate. */
  lemma TheBestStarts(s: Sim)
    requires Settled(s, s.events) && Candidates(s) != []
    ensures var t := TakeBest(s).1;
      t in Candidates(s) && forall u :: u in Candidates(s) && u != t ==> Prefer(s, t, u)
  {
    var c := Candidates(s);
    CandidatesDiffer(s);
    BestIsPreferred(s, c, |c|);
    forall u | u in c && u != TakeBest(s).1 ensures Prefer(s, TakeBest(s).1, u) {
      var k :| 0 <= k < |c| && c[k] == u;
    }
  }

  lemma CandidatesDiffer(s: Sim)
    requires Settled(s, s.events)
    ensures var c := Candidates(s);
      forall i, j :: 0 <= i < j < |c| ==> StateOf(s, c[i]).readySeq != StateOf(s, c[j]).readySeq
  {
    var c := Candidates(s);
    forall i, j | 0 <= i < j < |c| ensures StateOf(s, c[i]).readySeq != StateOf(s, c[j]).readySeq {
      CandidateIsOnce(s, i, j);
      assert NumbersDiffer(s, c[i], c[j]);
    }
  }

  lemma CandidateIsOnce(s: Sim, i: nat, j: nat)
    requires Settled(s, s.events) && i < j < |Candidates(s)|
    ensures var c := Candidates(s); c[i] < |s.tasks| && c[j] < |s.tasks| && c[i] != c[j] && StateOf(s, c[i]).readySeq > 0
  {
    var c := Candidates(s);
    assert c[i] in c && c[j] in c;
    assert Queued(s, c[i]) && Queued(s, c[j]);
    Located(s, s.events, c[i]);
    Located(s, s.events, c[j]);
    assert multiset(c)[c[i]] <= Occ(s.ready, c[i]) + Occ(s.admission, c[i]);
    TwiceIsTwo(c, i, j);
  }

  lemma TwiceIsTwo(c: seq<nat>, i: nat, j: nat)
    requires i < j < |c|
    ensures c[i] == c[j] ==> multiset(c)[c[i]] >= 2
  {
    assert c == c[..i] + [c[i]] + c[i + 1..j] + [c[j]] + c[j + 1..];
  }

  /** Who is turned away is the last to have joined the queue. */
  lemma {:induction false} NewestIsLast(s: Sim, n: nat)
    requires 0 < n <= |s.admission|
    ensures forall k :: 0 <= k < n ==>
      StateOf(s, s.admission[k]).readySeq <= StateOf(s, s.admission[Newest(s, n)]).readySeq
  {
    if n > 1 { NewestIsLast(s, n - 1); }
  }
}
