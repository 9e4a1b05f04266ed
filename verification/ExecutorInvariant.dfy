/** What the counters and lists of the executor say about its attempts, piece by piece. */
module ExecutorInvariant {
  import opened Queues
  import opened ExecutorModel

  // --------------------------------------------------------------------------- counting

  function Count(t: seq<Row>, p: Row -> bool): (n: nat)
    ensures n <= |t|
  {
    if t == [] then 0 else Count(t[..|t| - 1], p) + if p(t[|t| - 1]) then 1 else 0
  }

  function One(b: bool): nat { if b then 1 else 0 }

  lemma {:induction false} CountPut(t: seq<Row>, a: nat, r: Row, p: Row -> bool)
    requires a < |t|
    ensures Count(t[a := r], p) == Count(t, p) - One(p(t[a])) + One(p(r))
  {
    var n := |t| - 1;
    if a == n {
      assert t[a := r][..n] == t[..n];
    } else {
      assert t[a := r][..n] == t[..n][a := r];
      CountPut(t[..n], a, r, p);
    }
  }

  lemma CountAppend(t: seq<Row>, r: Row, p: Row -> bool)
    ensures Count(t + [r], p) == Count(t, p) + One(p(r))
  {
    assert (t + [r])[..|t|] == t;
  }

  predicate IsRunning(r: Row) { r.state == Running }

  predicate IsLive(r: Row) { Live(r.state) }

  predicate HasToken(r: Row) { r.gate == HoldsToken }

  /** The counters are what they are said to count. */
  predicate CountsOk(t: seq<Row>, running: int, resident: int, tokens: int) {
    running == Count(t, IsRunning) && resident == Count(t, IsLive) && tokens == Count(t, HasToken)
  }

  lemma CountsPut(t: seq<Row>, running: int, resident: int, tokens: int, a: nat, r: Row)
    requires a < |t| && CountsOk(t, running, resident, tokens)
    ensures CountsOk(t[a := r],
                     running - One(IsRunning(t[a])) + One(IsRunning(r)),
                     resident - One(IsLive(t[a])) + One(IsLive(r)),
                     tokens - One(HasToken(t[a])) + One(HasToken(r)))
  {
    CountPut(t, a, r, IsRunning);
    CountPut(t, a, r, IsLive);
    CountPut(t, a, r, HasToken);
  }

  // ------------------------------------------------------------------------ one attempt

  /** What the fields of one attempt say about each other. */
  predicate RowOk(r: Row) {
    && |r.results| == One(r.state == Done)
    && (r.state == Queued ==> r.worker == Unstarted && r.gate == Idle)
    && (Live(r.state) ==> r.worker == Advancing)
    && (r.state == Done ==> r.worker != Advancing)
    && (r.state == Ready ==> r.permit && r.gate == AwaitsPermit(false))
    && (r.gate == AwaitsPermit(false) ==> r.state == Ready || r.state == Done)
    && (r.gate == AwaitsPermit(true) ==> r.state == Running || r.state == Done)
    && (r.gate in {WantsToken, HoldsToken, Released} ==> r.state == WaitingLive || r.state == Done)
    && (r.gate == Idle && r.state == WaitingLive ==> ContextDone(r))
  }

  predicate RowsOk(t: seq<Row>) {
    forall i {:trigger RowOk(t[i])} :: 0 <= i < |t| ==> RowOk(t[i])
  }

  // ------------------------------------------------------------------------------ lists

  predicate Before(q: seq<nat>, i: nat, j: nat) {
    i < j < |q| ==> q[i] < q[j]
  }

  predicate Differ(q: seq<nat>, i: nat, j: nat) {
    i < j < |q| ==> q[i] != q[j]
  }

  ghost predicate Increasing(q: seq<nat>) {
    forall i: nat, j: nat {:trigger Before(q, i, j)} :: Before(q, i, j)
  }

  ghost predicate Distinct(q: seq<nat>) {
    forall i: nat, j: nat {:trigger Differ(q, i, j)} :: Differ(q, i, j)
  }

  predicate InState(t: seq<Row>, a: nat, state: AttemptState) {
    a < |t| && t[a].state == state
  }

  /** `q` lists exactly the attempts in `state`. */
  ghost predicate Lists(t: seq<Row>, q: seq<nat>, state: AttemptState) {
    forall a: nat {:trigger InState(t, a, state)} :: a in q <==> InState(t, a, state)
  }

  lemma IncreasingIsDistinct(q: seq<nat>)
    requires Increasing(q)
    ensures Distinct(q)
  {
    forall i: nat, j: nat ensures Differ(q, i, j) { assert Before(q, i, j); }
  }

  lemma TailKeeps(q: seq<nat>)
    requires Distinct(q) && q != []
    ensures Distinct(q[1..])
    ensures forall b :: b in q[1..] <==> b in q && b != q[0]
    ensures Increasing(q) ==> Increasing(q[1..]) && forall b :: b in q[1..] ==> q[0] < b
  {
    var rest := q[1..];
    assert q == [q[0]] + rest;
    forall i: nat, j: nat ensures Differ(rest, i, j) { assert Differ(q, i + 1, j + 1); }
    forall i: nat | i < |rest| ensures rest[i] != q[0] && (Increasing(q) ==> q[0] < rest[i]) {
      assert Differ(q, 0, i + 1);
      if Increasing(q) { assert Before(q, 0, i + 1); }
    }
    if Increasing(q) {
      forall i: nat, j: nat ensures Before(rest, i, j) { assert Before(q, i + 1, j + 1); }
    }
  }

  lemma ConsKeeps(x: nat, w: seq<nat>)
    requires Distinct(w) && x !in w
    ensures Distinct([x] + w)
    ensures Increasing(w) && (forall b :: b in w ==> x < b) ==> Increasing([x] + w)
  {
    var r := [x] + w;
    forall i: nat, j: nat ensures Differ(r, i, j) {
      if i < j < |r| {
        assert r[j] == w[j - 1];
        if i > 0 { assert Differ(w, i - 1, j - 1); }
      }
    }
    if Increasing(w) && forall b :: b in w ==> x < b {
      forall i: nat, j: nat ensures Before(r, i, j) {
        if i < j < |r| {
          assert r[j] == w[j - 1] && w[j - 1] in w;
          if i > 0 { assert Before(w, i - 1, j - 1); }
        }
      }
    }
  }

  lemma PushKeeps(q: seq<nat>, a: nat)
    requires Distinct(q) && a !in q
    ensures Distinct(q + [a])
    ensures Increasing(q) && (forall b :: b in q ==> b < a) ==> Increasing(q + [a])
  {
    var r := q + [a];
    forall i: nat, j: nat ensures Differ(r, i, j) {
      if i < j < |r| { assert r[i] == q[i]; assert Differ(q, i, j); }
    }
    if Increasing(q) && forall b :: b in q ==> b < a {
      forall i: nat, j: nat ensures Before(r, i, j) {
        if i < j < |r| { assert r[i] == q[i] && q[i] in q; assert Before(q, i, j); }
      }
    }
  }

  lemma {:induction false} WithoutContents(q: seq<nat>, a: nat)
    requires Distinct(q)
    ensures Distinct(Without(q, a))
    ensures forall b :: b in Without(q, a) <==> b in q && b != a
    ensures Increasing(q) ==> Increasing(Without(q, a))
  {
    if q != [] {
      TailKeeps(q);
      var rest := q[1..];
      assert q == [q[0]] + rest;
      WithoutContents(rest, a);
      if q[0] != a { ConsKeeps(q[0], Without(rest, a)); }
    }
  }

  lemma ListsPut(t: seq<Row>, q: seq<nat>, state: AttemptState, a: nat, r: Row)
    requires Lists(t, q, state) && a < |t| && (t[a].state == state <==> r.state == state)
    ensures Lists(t[a := r], q, state)
  {
    forall b: nat ensures b in q <==> InState(t[a := r], b, state) { assert b in q <==> InState(t, b, state); }
  }

  /** `rest` is the list without `a`, which leaves the state. */
  lemma ListsRemove(t: seq<Row>, q: seq<nat>, rest: seq<nat>, state: AttemptState, a: nat, r: Row)
    requires Lists(t, q, state) && a < |t| && r.state != state
    requires forall b :: b in rest <==> b in q && b != a
    ensures Lists(t[a := r], rest, state)
  {
    forall b: nat ensures b in rest <==> InState(t[a := r], b, state) { assert b in q <==> InState(t, b, state); }
  }

  lemma ListsPush(t: seq<Row>, q: seq<nat>, state: AttemptState, a: nat, r: Row)
    requires Lists(t, q, state) && Distinct(q) && a < |t| && t[a].state != state && r.state == state
    ensures Lists(t[a := r], q + [a], state) && Distinct(q + [a])
  {
    assert a in q <==> InState(t, a, state);
    PushKeeps(q, a);
    forall b: nat ensures b in q + [a] <==> InState(t[a := r], b, state) { assert b in q <==> InState(t, b, state); }
  }

  lemma Listed(t: seq<Row>, q: seq<nat>, state: AttemptState, a: nat)
    requires Lists(t, q, state)
    ensures a in q <==> a < |t| && t[a].state == state
  {
    assert a in q <==> InState(t, a, state);
  }

  predicate Owns(t: seq<Row>, a: nat, runId: string) {
    a < |t| && t[a].runId == runId && t[a].state != Done
  }

  /** The runs that have an attempt now, each with its one attempt that is not over. */
  ghost predicate RunsOk(t: seq<Row>, m: map<string, nat>) {
    forall a: nat, runId {:trigger Owns(t, a, runId)} :: (runId in m && m[runId] == a) <==> Owns(t, a, runId)
  }

  lemma RunOf(t: seq<Row>, m: map<string, nat>, a: nat, runId: string)
    requires RunsOk(t, m)
    ensures runId in m && m[runId] == a <==> a < |t| && t[a].runId == runId && t[a].state != Done
  {
    assert Owns(t, a, runId) <==> runId in m && m[runId] == a;
  }

  lemma RunsPut(t: seq<Row>, m: map<string, nat>, a: nat, r: Row)
    requires RunsOk(t, m) && a < |t| && r.runId == t[a].runId && (r.state == Done <==> t[a].state == Done)
    ensures RunsOk(t[a := r], m)
  {
    forall b: nat, runId {:trigger Owns(t[a := r], b, runId)} ensures (runId in m && m[runId] == b) <==> Owns(t[a := r], b, runId) { RunOf(t, m, b, runId); }
  }

  lemma RunsRemove(t: seq<Row>, m: map<string, nat>, a: nat, r: Row)
    requires RunsOk(t, m) && a < |t| && t[a].state != Done && r.runId == t[a].runId && r.state == Done
    ensures RunsOk(t[a := r], m - {r.runId}) && r.runId in m
  {
    RunOf(t, m, a, r.runId);
    var m' := m - {r.runId};
    forall b: nat, runId {:trigger Owns(t[a := r], b, runId)} ensures (runId in m' && m'[runId] == b) <==> Owns(t[a := r], b, runId) { RunOf(t, m, b, runId); }
  }

  // ------------------------------------------------------------------------------- order

  /** The attempts in the order in which they started. */
  function Starts(log: seq<Event>): seq<nat> {
    if log == [] then []
    else
      var e := log[|log| - 1];
      Starts(log[..|log| - 1]) + if e.Started? then [e.id] else []
  }

  /** Grants since the last start, and those of them that passed an admission that was possible. */
  function Grants(log: seq<Event>): nat {
    if log == [] || log[|log| - 1].Started? then 0 else Grants(log[..|log| - 1]) + 1
  }

  function Bypasses(log: seq<Event>): nat {
    if log == [] || log[|log| - 1].Started? then 0
    else Bypasses(log[..|log| - 1]) + One(log[|log| - 1].bypassed)
  }

  lemma LogPush(log: seq<Event>, e: Event)
    ensures Starts(log + [e]) == Starts(log) + (if e.Started? then [e.id] else [])
    ensures Grants(log + [e]) == if e.Started? then 0 else Grants(log) + 1
    ensures Bypasses(log + [e]) == if e.Started? then 0 else Bypasses(log) + One(e.bypassed)
  {
    assert (log + [e])[..|log|] == log;
  }

  /** When `n` events had happened, no more than 8 possible admissions in a row had been passed over. */
  predicate FairUpTo(log: seq<Event>, n: nat) {
    n <= |log| ==> Bypasses(log[..n]) <= MAX_READY_BURST
  }

  /** At no time were more than 8 possible admissions in a row passed over. */
  ghost predicate Fair(log: seq<Event>) {
    forall n: nat {:trigger FairUpTo(log, n)} :: FairUpTo(log, n)
  }

  lemma FairPush(log: seq<Event>, e: Event)
    requires Fair(log) && Bypasses(log + [e]) <= MAX_READY_BURST
    ensures Fair(log + [e])
  {
    var longer := log + [e];
    forall n: nat ensures FairUpTo(longer, n) {
      assert FairUpTo(log, n);
      if n <= |log| { assert longer[..n] == log[..n]; }
      else if n == |longer| { assert longer[..n] == longer; }
    }
  }

  lemma LogStarted(log: seq<Event>, a: nat)
    requires Fair(log)
    ensures Starts(log + [Started(a)]) == Starts(log) + [a]
    ensures Fair(log + [Started(a)]) && Grants(log + [Started(a)]) == 0 && Bypasses(log + [Started(a)]) == 0
  {
    LogPush(log, Started(a));
    FairPush(log, Started(a));
  }

  lemma LogGranted(log: seq<Event>, a: nat, bypassed: bool)
    requires Fair(log) && Bypasses(log) <= Grants(log) && (bypassed ==> Grants(log) < MAX_READY_BURST)
    ensures Starts(log + [Granted(a, bypassed)]) == Starts(log)
    ensures Fair(log + [Granted(a, bypassed)]) && Grants(log + [Granted(a, bypassed)]) == Grants(log) + 1
    ensures Bypasses(log + [Granted(a, bypassed)]) <= Grants(log) + 1
  {
    LogPush(log, Granted(a, bypassed));
    assert FairUpTo(log, |log|) && log[..|log|] == log;
    FairPush(log, Granted(a, bypassed));
  }

  predicate IsStarted(t: seq<Row>, a: nat) {
    a < |t| && t[a].worker != Unstarted
  }

  predicate Precedes(starts: seq<nat>, q: seq<nat>, a: nat, b: nat) {
    a in starts && b in q ==> a < b
  }

  /** Attempts start in the order of acceptance, each once, and before all that are still queued. */
  ghost predicate OrderOk(t: seq<Row>, q: seq<nat>, starts: seq<nat>) {
    && Increasing(starts)
    && (forall a: nat {:trigger IsStarted(t, a)} :: a in starts <==> IsStarted(t, a))
    && (forall a: nat, b: nat {:trigger Precedes(starts, q, a, b)} :: Precedes(starts, q, a, b))
  }

  lemma OrderPut(t: seq<Row>, q: seq<nat>, q': seq<nat>, starts: seq<nat>, a: nat, r: Row)
    requires OrderOk(t, q, starts) && a < |t| && (r.worker == Unstarted <==> t[a].worker == Unstarted)
    requires forall b :: b in q' ==> b in q
    ensures OrderOk(t[a := r], q', starts)
  {
    forall b: nat ensures b in starts <==> IsStarted(t[a := r], b) { assert b in starts <==> IsStarted(t, b); }
    forall b: nat, c: nat ensures Precedes(starts, q', b, c) { assert Precedes(starts, q, b, c); }
  }

  /** The head of the queue starts. */
  lemma OrderStart(t: seq<Row>, q: seq<nat>, rest: seq<nat>, starts: seq<nat>, a: nat, r: Row)
    requires OrderOk(t, q, starts) && a < |t| && t[a].worker == Unstarted && r.worker != Unstarted
    requires a in q && forall b :: b in rest ==> b in q && a < b
    ensures OrderOk(t[a := r], rest, starts + [a])
  {
    var s' := starts + [a];
    forall b | b in starts ensures b < a { assert Precedes(starts, q, b, a); }
    IncreasingIsDistinct(starts);
    PushKeeps(starts, a);
    forall b: nat ensures b in s' <==> IsStarted(t[a := r], b) { assert b in starts <==> IsStarted(t, b); }
    forall b: nat, c: nat ensures Precedes(s', rest, b, c) { assert Precedes(starts, q, b, c); }
  }

  // -------------------------------------------------------------------------- everything

  predicate LimitsOk(s: Exec) {
    && 0 < s.limits.running <= s.limits.resident && 0 < s.limits.tools
    && 0 <= s.running <= s.limits.running
    && 0 <= s.resident <= s.limits.resident
    && 0 <= s.tokens <= s.limits.tools
    && |s.queue| <= s.limits.queued
  }

  ghost predicate LogOk(s: Exec) {
    && OrderOk(s.table, s.queue, Starts(s.log))
    && Fair(s.log) && Grants(s.log) == s.burst && Bypasses(s.log) <= s.burst
  }

  /** What holds at every moment, also in the middle of scheduling. */
  ghost predicate Core(s: Exec) {
    && LimitsOk(s) && !s.panicked
    && RowsOk(s.table)
    && CountsOk(s.table, s.running, s.resident, s.tokens)
    && Lists(s.table, s.queue, Queued) && Increasing(s.queue)
    && Lists(s.table, s.ready, Ready) && Distinct(s.ready)
    && RunsOk(s.table, s.attempts)
    && LogOk(s)
    && (s.drained ==> s.closed && s.attempts == map[])
  }

  /** No running slot is idle while it could be used. */
  predicate Conserved(s: Exec) {
    s.running < s.limits.running ==> s.ready == [] && !CanAdmit(s)
  }

  /** What holds between steps. */
  ghost predicate Inv(s: Exec) {
    Core(s) && Conserved(s) && (s.drained <==> s.closed && s.attempts == map[])
  }

  lemma CoreIsWellFormed(s: Exec)
    requires Core(s)
    ensures WellFormed(s)
  {
    forall i | 0 <= i < |s.queue| ensures s.queue[i] < |s.table| { Listed(s.table, s.queue, Queued, s.queue[i]); }
    forall i | 0 <= i < |s.ready| ensures s.ready[i] < |s.table| { Listed(s.table, s.ready, Ready, s.ready[i]); }
    forall runId | runId in s.attempts ensures s.attempts[runId] < |s.table| {
      RunOf(s.table, s.attempts, s.attempts[runId], runId);
    }
  }

  // ------------------------------------------------------------------------ one attempt more

  lemma CountsAppend(t: seq<Row>, running: int, resident: int, tokens: int, r: Row)
    requires CountsOk(t, running, resident, tokens)
    ensures CountsOk(t + [r], running + One(IsRunning(r)), resident + One(IsLive(r)), tokens + One(HasToken(r)))
  {
    CountAppend(t, r, IsRunning);
    CountAppend(t, r, IsLive);
    CountAppend(t, r, HasToken);
  }

  lemma ListsAppend(t: seq<Row>, q: seq<nat>, state: AttemptState, r: Row)
    requires Lists(t, q, state) && r.state != state
    ensures Lists(t + [r], q, state)
  {
    forall b: nat ensures b in q <==> InState(t + [r], b, state) { assert b in q <==> InState(t, b, state); }
  }

  lemma ListsAppendNew(t: seq<Row>, q: seq<nat>, state: AttemptState, r: Row)
    requires Lists(t, q, state) && Increasing(q) && r.state == state
    ensures Lists(t + [r], q + [|t|], state) && Increasing(q + [|t|])
  {
    forall b | b in q ensures b < |t| { Listed(t, q, state, b); }
    IncreasingIsDistinct(q);
    PushKeeps(q, |t|);
    forall b: nat ensures b in q + [|t|] <==> InState(t + [r], b, state) { assert b in q <==> InState(t, b, state); }
  }

  lemma RunsAppend(t: seq<Row>, m: map<string, nat>, r: Row)
    requires RunsOk(t, m) && r.runId !in m && r.state != Done
    ensures RunsOk(t + [r], m[r.runId := |t|])
  {
    var m' := m[r.runId := |t|];
    forall b: nat, runId {:trigger Owns(t + [r], b, runId)} ensures (runId in m' && m'[runId] == b) <==> Owns(t + [r], b, runId) { RunOf(t, m, b, runId); }
  }

  lemma OrderAppend(t: seq<Row>, q: seq<nat>, starts: seq<nat>, r: Row)
    requires OrderOk(t, q, starts) && r.worker == Unstarted
    ensures OrderOk(t + [r], q + [|t|], starts)
  {
    forall b: nat ensures b in starts <==> IsStarted(t + [r], b) { assert b in starts <==> IsStarted(t, b); }
    forall b: nat, c: nat ensures Precedes(starts, q + [|t|], b, c) {
      assert Precedes(starts, q, b, c);
      assert b in starts <==> IsStarted(t, b);
    }
  }

  lemma OrderAppendStart(t: seq<Row>, starts: seq<nat>, r: Row)
    requires OrderOk(t, [], starts) && r.worker != Unstarted
    ensures OrderOk(t + [r], [], starts + [|t|])
  {
    var s' := starts + [|t|];
    forall b | b in starts ensures b < |t| { assert b in starts <==> IsStarted(t, b); }
    IncreasingIsDistinct(starts);
    PushKeeps(starts, |t|);
    forall b: nat ensures b in s' <==> IsStarted(t + [r], b) { assert b in starts <==> IsStarted(t, b); }
    forall b: nat, c: nat ensures Precedes(s', [], b, c) { }
  }
}
