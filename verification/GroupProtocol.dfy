/**
 The protocol inside one group of early reads, apart from Python's syntax: each item can ask
 the Host for one read; the original run asks for it at its place, the transformed run starts
 it at `place` and collects it at its place. The module proves that both come to the same.
 */
module GroupProtocol {
  import opened PythonAst
  import opened RunFutures
  import opened GuestSemantics
  import opened EarlyReadPass

  // ------------------------------------------------------------ related executions

  /** `configure` bound the root of every tool path, and no statement rebinds one. */
  ghost predicate RootsBound(m: Manifest, env: Env) {
    forall i :: 0 <= i < |m| && m[i].path != [] ==>
      m[i].path[0] in env && env[m[i].path[0]] == Exported([m[i].path[0]])
  }

  ghost predicate HelpersBound(hs: Helpers, env: Env) {
    && hs.prepare in env && env[hs.prepare] == PrepareHelper
    && hs.resolve in env && env[hs.resolve] == ResolveHelper
  }

  /**
   The state of the original run and that of the transformed one. They agree on every variable
   but the `hidden` ones, which the pass invented, and on everything that tools changed.
   */
  ghost predicate Related(m: Manifest, hs: Helpers, hidden: set<string>, so: State, st: State) {
    && (forall id :: id !in hidden ==> SameAt(so.env, st.env, id))
    && HelpersBound(hs, st.env)
    && RootsBound(m, so.env)
    && so.run.effects == st.run.effects
    && so.run.calls <= st.run.calls <= so.run.calls + |st.run.futures|
    && |st.run.futures| <= MAX_PENDING
    && multiset(so.run.dispatched) <= multiset(st.run.dispatched)
    && WellFormed(st.run)
  }

  /**
   Reads that are started and never collected stay in the table of futures. So the transformed
   run is at most this many calls ahead of the original, and an original run that stays that
   far below the budget leaves room for all of them.
   */
  const SAFE_CALLS: nat := MAX_TOOL_CALLS - MAX_PENDING

  /**
   The budget is enough for both runs: by a bound on the transformed one, or by where one of
   them ends.
   */
  ghost predicate Room(bound: nat, o: Run, t: Run) {
    bound <= MAX_TOOL_CALLS || o.calls <= SAFE_CALLS || t.calls < MAX_TOOL_CALLS
  }

  ghost predicate SameOutcome(m: Manifest, hs: Helpers, hidden: set<string>, o: Outcome, t: Outcome) {
    && (o.Normal? <==> t.Normal?)
    && (o.Raised? && t.Raised? ==> o.exc == t.exc)
    && Related(m, hs, hidden, o.state, t.state)
  }

  // ----------------------------------------------------------------------- items

  /** The request a call makes, or the exception that keeps it from making one. */
  datatype Asked = AskRaises(exc: Exc) | Asks(request: Request)

  /** One call of a group. What it asks for depends on the variables in `uses`. */
  datatype Read = Read(ask: Env -> Asked, uses: set<string>, target: string, slot: string, place: nat)

  ghost predicate AsksForReads(h: Host, x: Read) {
    && (forall a, b :: AgreeOn(a, b, x.uses) ==> x.ask(a) == x.ask(b))
    && (forall env :: x.ask(env).Asks? ==>
          IsEarly(h.manifest, x.ask(env).request.tool) && IsKnown(h.manifest, x.ask(env).request.tool))
  }

  ghost predicate ItemOk(h: Host, hs: Helpers, hidden: set<string>, x: Read) {
    && AsksForReads(h, x)
    && x.target !in hidden && x.uses !! hidden
    && !IsToolRoot(h.manifest, x.target)
    && x.slot in hidden && x.slot != hs.prepare && x.slot != hs.resolve
  }

  /** No name that item `k` reads is assigned between its prepare and its resolve. */
  ghost predicate PlacedAfterDefinitions(plan: seq<Read>) {
    && (forall k :: 0 <= k < |plan| ==> plan[k].place <= k)
    && (forall k, l :: 0 <= k < |plan| && plan[k].place <= l < k ==> plan[l].target !in plan[k].uses)
  }

  ghost predicate Planned(h: Host, hs: Helpers, hidden: set<string>, plan: seq<Read>) {
    && (forall k :: 0 <= k < |plan| ==> ItemOk(h, hs, hidden, plan[k]))
    && (forall k, l :: 0 <= k < l < |plan| ==> plan[k].slot != plan[l].slot)
    && PlacedAfterDefinitions(plan)
  }

  ghost function Deliver(target: string, st: State, run: Run, response: Response): Outcome {
    match Decode(response)
    case Ok(v) => Normal(State(st.env[target := v], run))
    case Raise(x) => Raised(x, st.(run := run))
  }

  /** What the original statement does: one call of the budget, one dispatch. */
  ghost function ReadOutcome(h: Host, x: Read, so: State): Outcome {
    match x.ask(so.env)
    case AskRaises(exc) => Raised(exc, so)
    case Asks(request) =>
      var r := Invoke(h, so.run, request);
      Deliver(x.target, so, r.1, r.0)
  }

  /** What the resolve that replaces it does with the handle in its slot. */
  ghost function ResolveOutcome(h: Host, x: Read, handle: nat, st: State): Outcome {
    match x.ask(st.env)
    case AskRaises(exc) => Raised(exc, st)
    case Asks(request) =>
      var r := Resolve(h, st.run, handle, request);
      Deliver(x.target, st, r.1, r.0)
  }

  /**
   The prepare of `x` stored handle `id`. It is 0, or the handle of `request`; and `request` is
   what the call asks for, if it asks for anything.
   */
  ghost predicate PrepareOutcome(h: Host, x: Read, st: State, st': State, id: nat, request: Request) {
    && st'.env == st.env[x.slot := Int(id)]
    && ((id, st'.run) == (0, st.run) || (id, st'.run) == Prepare(h, st.run, request))
    && (x.ask(st.env).Asks? ==>
          request == x.ask(st.env).request && (id, st'.run) == Prepare(h, st.run, request))
  }

  // ------------------------------------------------------------ the reads in flight

  ghost predicate HasHandle(st: State, slot: string) {
    slot in st.env && st.env[slot].Int? && st.env[slot].n >= 0
  }

  /**
   Read `k` is prepared when everything before position `j`, and the prepares of items below
   `i` at position `j`, have run.
   */
  ghost predicate Ready(plan: seq<Read>, j: nat, i: nat, k: nat)
    requires k < |plan|
  {
    plan[k].place < j || (plan[k].place == j && k < i)
  }

  /**
   The slot of a prepared item holds 0, or a future for exactly the request that the call
   would make now, started in a world that nothing has changed since.
   */
  ghost predicate SlotOk(x: Read, env: Env, st: State) {
    && HasHandle(st, x.slot)
    && var n := st.env[x.slot].n;
       n != 0 ==>
         && n in st.run.futures
         && st.run.futures[n].seen == st.run.effects
         && (x.ask(env).Asks? ==> st.run.futures[n].request == x.ask(env).request)
  }

  /** The read that item `k` has in flight, if any. */
  ghost function InFlight(plan: seq<Read>, j: nat, i: nat, st: State, k: nat): multiset<Request>
    requires k < |plan|
  {
    if Ready(plan, j, i, k) && HasHandle(st, plan[k].slot) && st.env[plan[k].slot].n in st.run.futures
    then multiset{st.run.futures[st.env[plan[k].slot].n].request}
    else multiset{}
  }

  ghost function Flights(plan: seq<Read>, j: nat, i: nat, st: State): (r: seq<multiset<Request>>)
    ensures |r| == |plan|
    ensures forall k :: 0 <= k < |plan| ==> r[k] == InFlight(plan, j, i, st, k)
  {
    seq(|plan|, k requires 0 <= k < |plan| => InFlight(plan, j, i, st, k))
  }

  ghost function Total(flights: seq<multiset<Request>>): multiset<Request> {
    if flights == [] then multiset{} else flights[0] + Total(flights[1..])
  }

  lemma {:induction false} TotalWithOneMore(flights: seq<multiset<Request>>, x: nat, m: multiset<Request>)
    requires x < |flights| && flights[x] == multiset{}
    ensures Total(flights[x := m]) == Total(flights) + m
  {
    if x == 0 {
      assert flights[x := m][1..] == flights[1..];
    } else {
      TotalWithOneMore(flights[1..], x - 1, m);
      assert flights[x := m][1..] == flights[1..][x - 1 := m];
    }
  }

  lemma TotalOfTail(a: seq<multiset<Request>>, b: seq<multiset<Request>>, j: nat, i: nat, m: multiset<Request>)
    requires j <= i < |a| && a[i] == multiset{} && |b| == |a| && b[j..] == a[i := m][j..]
    ensures Total(b[j..]) == Total(a[j..]) + m
  {
    assert a[i := m][j..] == a[j..][i - j := m];
    TotalWithOneMore(a[j..], i - j, m);
  }

  lemma {:induction false} TotalAtMostOneEach(flights: seq<multiset<Request>>)
    requires forall k :: 0 <= k < |flights| ==> |flights[k]| <= 1
    ensures |Total(flights)| <= |flights|
  {
    if flights != [] { TotalAtMostOneEach(flights[1..]); }
  }

  lemma FlightsSame(plan: seq<Read>, j: nat, i: nat, a: State, b: State)
    requires a.env == b.env && a.run.futures == b.run.futures
    ensures Flights(plan, j, i, a) == Flights(plan, j, i, b)
  {
  }

  lemma FlightsAtMostLeft(plan: seq<Read>, j: nat, i: nat, st: State)
    requires j <= |plan|
    ensures |Total(Flights(plan, j, i, st)[j..])| <= |plan| - j
  {
    forall k | 0 <= k < |plan| - j ensures |Flights(plan, j, i, st)[j..][k]| <= 1 {
      assert Flights(plan, j, i, st)[j..][k] == InFlight(plan, j, i, st, j + k);
    }
    TotalAtMostOneEach(Flights(plan, j, i, st)[j..]);
  }

  ghost predicate Slotted(plan: seq<Read>, j: nat, i: nat, so: State, st: State) {
    && (forall k :: j <= k < |plan| && Ready(plan, j, i, k) ==> SlotOk(plan[k], so.env, st))
    && (forall k, l :: j <= k < l < |plan| && Ready(plan, j, i, k) && Ready(plan, j, i, l) ==>
          st.env[plan[k].slot] != st.env[plan[l].slot] || st.env[plan[k].slot] == Int(0))
  }

  /** Item `k`, which is still to be resolved, holds future `id`. */
  ghost predicate Holds(plan: seq<Read>, j: nat, i: nat, st: State, id: nat, k: nat)
    requires k < |plan|
  {
    j <= k && Ready(plan, j, i, k) && HasHandle(st, plan[k].slot) && st.env[plan[k].slot].n == id
  }

  ghost predicate Held(plan: seq<Read>, j: nat, i: nat, st: State, id: nat) {
    exists k: nat {:trigger Holds(plan, j, i, st, id, k)} :: k < |plan| && Holds(plan, j, i, st, id, k)
  }

  /** The futures that no item of the group holds. */
  ghost function Unheld(plan: seq<Read>, j: nat, i: nat, st: State): map<nat, Future> {
    map id | id in st.run.futures && !Held(plan, j, i, st, id) :: st.run.futures[id]
  }

  /**
   What is settled about a group before it runs: a limit on the budget counter of the
   transformed run; the reads that this run has made in addition; the futures that are not
   the group's; and whether it is known to stay below the budget.
   */
  datatype Ledger = Ledger(limit: nat, extra: multiset<Request>, base: map<nat, Future>, short: bool)

  /**
   Every remaining item may still use one call, except those in flight, which already did; the
   transformed run has dispatched what the original has, the reads in flight, and `extra`.
   */
  ghost predicate Accounted(left: nat, pending: multiset<Request>, so: Run, st: Run, ledger: Ledger) {
    && st.calls + left <= ledger.limit + |pending|
    && so.calls + |pending| <= st.calls
    && multiset(st.dispatched) == ledger.extra + multiset(so.dispatched) + pending
  }

  ghost predicate GroupInv(h: Host, hs: Helpers, hidden: set<string>, plan: seq<Read>,
                           j: nat, i: nat, so: State, st: State, ledger: Ledger)
    requires j <= |plan|
  {
    && Related(h.manifest, hs, hidden, so, st)
    && Slotted(plan, j, i, so, st)
    && Accounted(|plan| - j, Total(Flights(plan, j, i, st)[j..]), so.run, st.run, ledger)
    && Unheld(plan, j, i, st) == ledger.base
  }

  // ---------------------------------------------------------------- the prepare step

  lemma WithoutOne<A, B>(m: map<A, B>, a: A)
    ensures |m - {a}| == if a in m then |m| - 1 else |m|
  {
    assert (m - {a}).Keys == m.Keys - {a};
    if a !in m { assert m - {a} == m; }
  }

  lemma PrepareKeepsRun(h: Host, x: Read, st: State, st': State, id: nat, request: Request)
    requires WellFormed(st.run) && PrepareOutcome(h, x, st, st', id, request)
    ensures WellFormed(st'.run) && st'.run.effects == st.run.effects
    ensures id == 0 ==> st'.run == st.run
    ensures id != 0 ==>
      && id !in st.run.futures
      && st'.run.calls == st.run.calls + 1
      && st'.run.futures == st.run.futures[id := Future(request, st.run.effects)]
      && st'.run.dispatched == st.run.dispatched + [request]
  {
  }

  lemma AskAgrees(h: Host, hs: Helpers, hidden: set<string>, x: Read, so: State, st: State)
    requires ItemOk(h, hs, hidden, x) && Related(h.manifest, hs, hidden, so, st)
    ensures x.ask(so.env) == x.ask(st.env)
  {
    forall n | n in x.uses ensures SameAt(so.env, st.env, n) {
      assert n !in hidden;
    }
    assert AgreeOn(so.env, st.env, x.uses);
  }

  lemma PrepareKeepsRelated(h: Host, hs: Helpers, hidden: set<string>, x: Read, so: State, st: State, st': State, id: nat, request: Request)
    requires ItemOk(h, hs, hidden, x) && Related(h.manifest, hs, hidden, so, st)
    requires PrepareOutcome(h, x, st, st', id, request)
    ensures Related(h.manifest, hs, hidden, so, st')
  {
    PrepareKeepsRun(h, x, st, st', id, request);
    forall n | n !in hidden ensures SameAt(so.env, st'.env, n) {
      assert SameAt(so.env, st.env, n);
    }
    assert id != 0 ==> multiset(st'.run.dispatched) == multiset(st.run.dispatched) + multiset{request};
  }

  lemma PrepareKeepsSlots(h: Host, hs: Helpers, hidden: set<string>, plan: seq<Read>,
                          j: nat, i: nat, so: State, st: State, st': State, id: nat, request: Request)
    requires Planned(h, hs, hidden, plan) && j <= i < |plan| && plan[i].place == j
    requires Related(h.manifest, hs, hidden, so, st) && Slotted(plan, j, i, so, st)
    requires PrepareOutcome(h, plan[i], st, st', id, request)
    ensures Slotted(plan, j, i + 1, so, st')
  {
    PrepareKeepsRun(h, plan[i], st, st', id, request);
    AskAgrees(h, hs, hidden, plan[i], so, st);
    assert SlotOk(plan[i], so.env, st');
    forall k | j <= k < |plan| && Ready(plan, j, i + 1, k) && k != i
      ensures SlotOk(plan[k], so.env, st') && st'.env[plan[k].slot] == st.env[plan[k].slot]
      ensures st.env[plan[k].slot].n != 0 ==> st.env[plan[k].slot].n in st.run.futures
    {
      assert Ready(plan, j, i, k);
      assert SlotOk(plan[k], so.env, st);
      assert plan[k].slot != plan[i].slot;
    }
    forall k, l | j <= k < l < |plan| && Ready(plan, j, i + 1, k) && Ready(plan, j, i + 1, l)
      ensures st'.env[plan[k].slot] != st'.env[plan[l].slot] || st'.env[plan[k].slot] == Int(0)
    {
      assert k != i ==> Ready(plan, j, i, k);
      assert l != i ==> Ready(plan, j, i, l);
    }
  }

  ghost function Started(id: nat, request: Request): multiset<Request> {
    if id == 0 then multiset{} else multiset{request}
  }

  lemma FlightAfterPrepare(h: Host, hs: Helpers, hidden: set<string>, plan: seq<Read>,
                           j: nat, i: nat, so: State, st: State, st': State, id: nat, request: Request, k: nat)
    requires Planned(h, hs, hidden, plan) && j <= i < |plan| && plan[i].place == j
    requires WellFormed(st.run) && Slotted(plan, j, i, so, st)
    requires PrepareOutcome(h, plan[i], st, st', id, request)
    requires j <= k < |plan|
    ensures k == i ==> InFlight(plan, j, i, st, k) == multiset{}
    ensures InFlight(plan, j, i + 1, st', k) == if k == i then Started(id, request) else InFlight(plan, j, i, st, k)
  {
    PrepareKeepsRun(h, plan[i], st, st', id, request);
    if k != i {
      assert plan[k].slot != plan[i].slot;
      assert Ready(plan, j, i + 1, k) == Ready(plan, j, i, k);
      if Ready(plan, j, i, k) { assert SlotOk(plan[k], so.env, st); }
    }
  }

  lemma PrepareAddsFlight(h: Host, hs: Helpers, hidden: set<string>, plan: seq<Read>,
                          j: nat, i: nat, so: State, st: State, st': State, id: nat, request: Request)
    requires Planned(h, hs, hidden, plan) && j <= i < |plan| && plan[i].place == j
    requires WellFormed(st.run) && Slotted(plan, j, i, so, st)
    requires PrepareOutcome(h, plan[i], st, st', id, request)
    ensures Total(Flights(plan, j, i + 1, st')[j..]) == Total(Flights(plan, j, i, st)[j..]) + Started(id, request)
  {
    var a, b := Flights(plan, j, i, st), Flights(plan, j, i + 1, st');
    FlightsAfterPrepare(h, hs, hidden, plan, j, i, so, st, st', id, request);
    TotalOfTail(a, b, j, i, Started(id, request));
  }

  lemma FlightsAfterPrepare(h: Host, hs: Helpers, hidden: set<string>, plan: seq<Read>,
                            j: nat, i: nat, so: State, st: State, st': State, id: nat, request: Request)
    requires Planned(h, hs, hidden, plan) && j <= i < |plan| && plan[i].place == j
    requires WellFormed(st.run) && Slotted(plan, j, i, so, st)
    requires PrepareOutcome(h, plan[i], st, st', id, request)
    ensures Flights(plan, j, i, st)[i] == multiset{}
    ensures Flights(plan, j, i + 1, st')[j..] == Flights(plan, j, i, st)[i := Started(id, request)][j..]
  {
    forall k | j <= k < |plan|
      ensures InFlight(plan, j, i + 1, st', k) == (if k == i then Started(id, request) else InFlight(plan, j, i, st, k))
    {
      FlightAfterPrepare(h, hs, hidden, plan, j, i, so, st, st', id, request, k);
    }
    FlightAfterPrepare(h, hs, hidden, plan, j, i, so, st, st', id, request, i);
  }

  /** A prepare that runs adds what its slot now holds, and nothing else. */
  lemma PrepareHolds(hs: Helpers, hidden: set<string>, h: Host, plan: seq<Read>,
                     j: nat, i: nat, st: State, st': State, n: nat, id: nat)
    requires Planned(h, hs, hidden, plan) && j <= i < |plan| && plan[i].place == j
    requires st'.env == st.env[plan[i].slot := Int(n)]
    ensures Held(plan, j, i + 1, st', id) <==> Held(plan, j, i, st, id) || id == n
  {
    var m := i + 1;
    forall k: nat | k < |plan| && k != i ensures Holds(plan, j, m, st', id, k) == Holds(plan, j, i, st, id, k) {
      assert plan[k].slot != plan[i].slot;
    }
    assert Holds(plan, j, m, st', id, i) == (id == n);
  }

  /** A future that is held from the start on changes nothing about the others. */
  lemma OthersStayUnheld(plan: seq<Read>, j: nat, i: nat, st: State, m: nat, st': State, id: nat)
    requires forall n: nat :: Held(plan, j, m, st', n) <==> Held(plan, j, i, st, n) || n == id
    requires st'.run.futures - {id} == st.run.futures && id !in st.run.futures
    ensures Unheld(plan, j, m, st') == Unheld(plan, j, i, st)
  {
    forall n: nat ensures n in st'.run.futures && n != id <==> n in st.run.futures { assert n in (st'.run.futures - {id}) <==> n in st.run.futures; }
    forall n: nat | n in st.run.futures ensures st'.run.futures[n] == st.run.futures[n] { assert (st'.run.futures - {id})[n] == st.run.futures[n]; }
  }

  lemma PrepareKeepsUnheld(h: Host, hs: Helpers, hidden: set<string>, plan: seq<Read>,
                           j: nat, i: nat, st: State, st': State, id: nat, request: Request)
    requires Planned(h, hs, hidden, plan) && j <= i < |plan| && plan[i].place == j
    requires WellFormed(st.run) && PrepareOutcome(h, plan[i], st, st', id, request)
    ensures Unheld(plan, j, i + 1, st') == Unheld(plan, j, i, st)
  {
    PrepareKeepsRun(h, plan[i], st, st', id, request);
    var m := i + 1;
    forall n: nat ensures Held(plan, j, m, st', n) <==> Held(plan, j, i, st, n) || n == id {
      PrepareHolds(hs, hidden, h, plan, j, i, st, st', id, n);
    }
    OthersStayUnheld(plan, j, i, st, m, st', id);
  }

  lemma SkipUnheld(plan: seq<Read>, j: nat, i: nat, st: State)
    requires i < |plan| && plan[i].place != j
    ensures Unheld(plan, j, i + 1, st) == Unheld(plan, j, i, st)
  {
    var m := i + 1;
    forall n: nat, k: nat | k < |plan| ensures Holds(plan, j, m, st, n, k) == Holds(plan, j, i, st, n, k) {
    }
  }

  lemma PrepareStep(h: Host, hs: Helpers, hidden: set<string>, plan: seq<Read>,
                    j: nat, i: nat, so: State, st: State, st': State, id: nat, request: Request, ledger: Ledger)
    requires Planned(h, hs, hidden, plan) && j <= i < |plan| && plan[i].place == j
    requires GroupInv(h, hs, hidden, plan, j, i, so, st, ledger)
    requires PrepareOutcome(h, plan[i], st, st', id, request)
    ensures GroupInv(h, hs, hidden, plan, j, i + 1, so, st', ledger)
  {
    PrepareKeepsRun(h, plan[i], st, st', id, request);
    PrepareKeepsRelated(h, hs, hidden, plan[i], so, st, st', id, request);
    PrepareKeepsSlots(h, hs, hidden, plan, j, i, so, st, st', id, request);
    PrepareAddsFlight(h, hs, hidden, plan, j, i, so, st, st', id, request);
    PrepareKeepsUnheld(h, hs, hidden, plan, j, i, st, st', id, request);
    assert id != 0 ==> multiset(st'.run.dispatched) == multiset(st.run.dispatched) + multiset{request};
  }

  lemma SkipStep(h: Host, hs: Helpers, hidden: set<string>, plan: seq<Read>,
                 j: nat, i: nat, so: State, st: State, ledger: Ledger)
    requires j <= |plan| && i < |plan| && plan[i].place != j
    requires GroupInv(h, hs, hidden, plan, j, i, so, st, ledger)
    ensures GroupInv(h, hs, hidden, plan, j, i + 1, so, st, ledger)
  {
    SkipFlights(plan, j, i, st);
    SkipSlots(plan, j, i, so, st);
    SkipUnheld(plan, j, i, st);
  }

  lemma SkipFlights(plan: seq<Read>, j: nat, i: nat, st: State)
    requires i < |plan| && plan[i].place != j
    ensures Flights(plan, j, i, st) == Flights(plan, j, i + 1, st)
  {
    forall k | 0 <= k < |plan| ensures InFlight(plan, j, i, st, k) == InFlight(plan, j, i + 1, st, k) {
    }
  }

  lemma SkipSlots(plan: seq<Read>, j: nat, i: nat, so: State, st: State)
    requires i < |plan| && plan[i].place != j && Slotted(plan, j, i, so, st)
    ensures Slotted(plan, j, i + 1, so, st)
  {
    assert forall k {:trigger Ready(plan, j, i + 1, k)} :: 0 <= k < |plan| ==> Ready(plan, j, i, k) == Ready(plan, j, i + 1, k);
  }

  // ---------------------------------------------------------------- the resolve step

  /** The handle of item `j` when its prepare, and all prepares before it, have run. */
  ghost function HandleAt(plan: seq<Read>, j: nat, st: State): nat
    requires j < |plan| && HasHandle(st, plan[j].slot)
  {
    st.env[plan[j].slot].n
  }

  lemma ResolveKeepsSlots(h: Host, hs: Helpers, hidden: set<string>, plan: seq<Read>, j: nat, so: State, st: State, v: Value, so': State, st': State)
    requires Planned(h, hs, hidden, plan) && j < |plan|
    requires Slotted(plan, j, |plan|, so, st)
    requires so'.env == so.env[plan[j].target := v] && st'.env == st.env[plan[j].target := v]
    requires st'.run.effects == st.run.effects
    requires HasHandle(st, plan[j].slot)
    requires st'.run.futures == st.run.futures - {HandleAt(plan, j, st)}
    ensures Slotted(plan, j + 1, 0, so', st')
  {
    assert Ready(plan, j, |plan|, j);
    forall k | j + 1 <= k < |plan| && Ready(plan, j + 1, 0, k)
      ensures SlotOk(plan[k], so'.env, st') && st'.env[plan[k].slot] == st.env[plan[k].slot]
    {
      assert Ready(plan, j, |plan|, k);
      assert SlotOk(plan[k], so.env, st);
      assert ItemOk(h, hs, hidden, plan[j]) && ItemOk(h, hs, hidden, plan[k]);
      assert plan[j].target !in plan[k].uses;
      assert AgreeOn(so.env, so'.env, plan[k].uses);
    }
    forall k, l | j + 1 <= k < l < |plan| && Ready(plan, j + 1, 0, k) && Ready(plan, j + 1, 0, l)
      ensures st'.env[plan[k].slot] != st'.env[plan[l].slot] || st'.env[plan[k].slot] == Int(0)
    {
      assert Ready(plan, j, |plan|, k) && Ready(plan, j, |plan|, l);
    }
  }

  lemma OtherFlightGoesOn(h: Host, hs: Helpers, hidden: set<string>, plan: seq<Read>, j: nat, so: State, st: State, v: Value, st': State, k: nat)
    requires Planned(h, hs, hidden, plan) && j < k < |plan|
    requires Slotted(plan, j, |plan|, so, st) && WellFormed(st.run) && HasHandle(st, plan[j].slot)
    requires st'.env == st.env[plan[j].target := v]
    requires st'.run.futures == st.run.futures - {HandleAt(plan, j, st)}
    ensures InFlight(plan, j + 1, 0, st', k) == InFlight(plan, j, |plan|, st, k)
  {
    assert Ready(plan, j, |plan|, j) && SlotOk(plan[j], so.env, st);
    assert Ready(plan, j, |plan|, k) == Ready(plan, j + 1, 0, k);
    assert ItemOk(h, hs, hidden, plan[j]) && ItemOk(h, hs, hidden, plan[k]);
    if Ready(plan, j, |plan|, k) { assert SlotOk(plan[k], so.env, st); }
  }

  lemma FlightAtHand(plan: seq<Read>, j: nat, so: State, st: State)
    requires j < |plan| && plan[j].place <= j && Slotted(plan, j, |plan|, so, st)
    requires WellFormed(st.run) && HasHandle(st, plan[j].slot)
    ensures var n := HandleAt(plan, j, st);
      && (n != 0 ==> n in st.run.futures)
      && InFlight(plan, j, |plan|, st, j) == if n == 0 then multiset{} else multiset{st.run.futures[n].request}
  {
    assert Ready(plan, j, |plan|, j) && SlotOk(plan[j], so.env, st);
  }

  lemma ResolveEndsFlight(h: Host, hs: Helpers, hidden: set<string>, plan: seq<Read>, j: nat, so: State, st: State, v: Value, st': State)
    requires Planned(h, hs, hidden, plan) && j < |plan|
    requires Slotted(plan, j, |plan|, so, st) && WellFormed(st.run)
    requires st'.env == st.env[plan[j].target := v]
    requires HasHandle(st, plan[j].slot)
    requires st'.run.futures == st.run.futures - {HandleAt(plan, j, st)}
    ensures var n := HandleAt(plan, j, st);
      Total(Flights(plan, j, |plan|, st)[j..]) ==
        (if n == 0 then multiset{} else multiset{st.run.futures[n].request})
        + Total(Flights(plan, j + 1, 0, st')[j + 1..])
    ensures |Total(Flights(plan, j + 1, 0, st')[j + 1..])| <= |plan| - j - 1
  {
    var a, b := Flights(plan, j, |plan|, st), Flights(plan, j + 1, 0, st');
    FlightAtHand(plan, j, so, st);
    forall k | j + 1 <= k < |plan| ensures b[k] == a[k] { OtherFlightGoesOn(h, hs, hidden, plan, j, so, st, v, st', k); }
    assert a[j..][0] == a[j] && a[j..][1..] == a[j + 1..] == b[j + 1..];
    TotalAtMostOneEach(b[j + 1..]);
  }

  /** A resolve lets go of the future in its slot, and of no other. */
  lemma ResolveHolds(h: Host, hs: Helpers, hidden: set<string>, plan: seq<Read>, j: nat, st: State, v: Value, st': State, id: nat)
    requires Planned(h, hs, hidden, plan) && j < |plan|
    requires HasHandle(st, plan[j].slot) && st'.env == st.env[plan[j].target := v]
    ensures Held(plan, j, |plan|, st, id) <==> Held(plan, j + 1, 0, st', id) || id == HandleAt(plan, j, st)
  {
    var m, l := |plan|, j + 1;
    assert ItemOk(h, hs, hidden, plan[j]);
    forall k: nat | k < |plan| && k != j ensures Holds(plan, l, 0, st', id, k) == Holds(plan, j, m, st, id, k) {
      assert ItemOk(h, hs, hidden, plan[k]);
    }
    assert Holds(plan, j, m, st, id, j) == (id == HandleAt(plan, j, st));
    assert !Holds(plan, l, 0, st', id, j);
  }

  lemma ResolveKeepsUnheld(h: Host, hs: Helpers, hidden: set<string>, plan: seq<Read>, j: nat, st: State, v: Value, st': State)
    requires Planned(h, hs, hidden, plan) && j < |plan|
    requires HasHandle(st, plan[j].slot) && st'.env == st.env[plan[j].target := v]
    requires st'.run.futures == st.run.futures - {HandleAt(plan, j, st)}
    ensures Unheld(plan, j + 1, 0, st') == Unheld(plan, j, |plan|, st)
  {
    forall n: nat ensures Held(plan, j, |plan|, st, n) <==> Held(plan, j + 1, 0, st', n) || n == HandleAt(plan, j, st) {
      ResolveHolds(h, hs, hidden, plan, j, st, v, st', n);
    }
  }

  lemma ResolveKeepsPlan(h: Host, hs: Helpers, hidden: set<string>, plan: seq<Read>, j: nat, so: State, st: State, v: Value, so': State, st': State)
    requires Planned(h, hs, hidden, plan) && j < |plan|
    requires Slotted(plan, j, |plan|, so, st)
    requires so'.env == so.env[plan[j].target := v] && st'.env == st.env[plan[j].target := v]
    requires st'.run.effects == st.run.effects && HasHandle(st, plan[j].slot)
    requires st'.run.futures == st.run.futures - {HandleAt(plan, j, st)}
    ensures Slotted(plan, j + 1, 0, so', st') && Unheld(plan, j + 1, 0, st') == Unheld(plan, j, |plan|, st)
  {
    ResolveKeepsSlots(h, hs, hidden, plan, j, so, st, v, so', st');
    ResolveKeepsUnheld(h, hs, hidden, plan, j, st, v, st');
  }

  /** Collecting a read gives what asking for it now would give. */
  lemma CollectedIsCurrent(h: Host, hs: Helpers, hidden: set<string>, x: Read, so: State, st: State)
    requires ItemOk(h, hs, hidden, x) && Related(h.manifest, hs, hidden, so, st)
    requires SlotOk(x, so.env, st) && x.ask(so.env).Asks?
    requires so.run.calls < MAX_TOOL_CALLS
    requires st.env[x.slot].n == 0 ==> st.run.calls < MAX_TOOL_CALLS
    ensures var request := x.ask(so.env).request;
      var o, t := Invoke(h, so.run, request), Resolve(h, st.run, st.env[x.slot].n, request);
      && o.0 == t.0
      && o.1 == so.run.(calls := so.run.calls + 1, dispatched := so.run.dispatched + [request])
      && t.1 == (if st.env[x.slot].n == 0
                 then st.run.(calls := st.run.calls + 1, dispatched := st.run.dispatched + [request])
                 else st.run.(futures := st.run.futures - {st.env[x.slot].n}))
  {
  }

  lemma AssignKeepsRelated(h: Host, hs: Helpers, hidden: set<string>, target: string, v: Value, so: State, st: State, ro: Run, rt: Run)
    requires Related(h.manifest, hs, hidden, so, st)
    requires target !in hidden && !IsToolRoot(h.manifest, target)
    requires hs.prepare in hidden && hs.resolve in hidden
    requires ro.effects == rt.effects && WellFormed(rt)
    requires ro.calls <= rt.calls <= ro.calls + |rt.futures| && |rt.futures| <= MAX_PENDING
    requires multiset(ro.dispatched) <= multiset(rt.dispatched)
    ensures Related(h.manifest, hs, hidden, State(so.env[target := v], ro), State(st.env[target := v], rt))
    ensures Related(h.manifest, hs, hidden, so.(run := ro), st.(run := rt))
  {
    forall n | n !in hidden ensures SameAt(so.env[target := v], st.env[target := v], n) {
      assert SameAt(so.env, st.env, n);
    }
  }

  ghost function Landed(st: State, slot: string): multiset<Request>
    requires HasHandle(st, slot) && (st.env[slot].n != 0 ==> st.env[slot].n in st.run.futures)
  {
    if st.env[slot].n == 0 then multiset{} else multiset{st.run.futures[st.env[slot].n].request}
  }

  /** One more call of the original run is within the budget of both runs. */
  ghost predicate Affords(limit: nat, so: Run, st: Run) {
    limit <= MAX_TOOL_CALLS || so.calls < SAFE_CALLS || st.calls < MAX_TOOL_CALLS
  }

  /** The future `n`, or a call of its own if there is none, gives the answer. */
  ghost function Answered(st: Run, n: nat, request: Request): Run {
    if n == 0 then st.(calls := st.calls + 1, dispatched := st.dispatched + [request])
    else st.(futures := st.futures - {n})
  }

  lemma AnswerBalances(so: Run, st: Run, n: nat, request: Request, left: nat, pending: multiset<Request>, ledger: Ledger)
    requires WellFormed(st) && (n == 0 ==> st.calls < MAX_TOOL_CALLS) && (n != 0 ==> n in st.futures)
    requires so.calls <= st.calls <= so.calls + |st.futures| && |st.futures| <= MAX_PENDING
    requires multiset(so.dispatched) <= multiset(st.dispatched)
    requires Accounted(left + 1, Started(n, request) + pending, so, st, ledger) && |pending| <= left
    ensures var ro, rt := so.(calls := so.calls + 1, dispatched := so.dispatched + [request]), Answered(st, n, request);
      && rt.calls <= ledger.limit && WellFormed(rt)
      && rt.calls <= ro.calls + |rt.futures| && |rt.futures| <= MAX_PENDING
      && multiset(ro.dispatched) <= multiset(rt.dispatched)
      && Accounted(left, pending, ro, rt, ledger)
  {
    WithoutOne(st.futures, n);
    assert multiset(so.dispatched + [request]) == multiset(so.dispatched) + multiset{request};
    assert multiset(st.dispatched + [request]) == multiset(st.dispatched) + multiset{request};
  }

  /** Both runs get the same response, and the accounts still balance. */
  lemma ResolveKeepsAccounts(h: Host, hs: Helpers, hidden: set<string>, x: Read, so: State, st: State,
                             left: nat, pending: multiset<Request>, ledger: Ledger)
    requires ItemOk(h, hs, hidden, x) && Related(h.manifest, hs, hidden, so, st)
    requires SlotOk(x, so.env, st) && x.ask(so.env).Asks?
    requires Accounted(left + 1, Landed(st, x.slot) + pending, so.run, st.run, ledger)
    requires |pending| <= left && Affords(ledger.limit, so.run, st.run)
    ensures var request := x.ask(so.env).request;
      var o, t := Invoke(h, so.run, request), Resolve(h, st.run, st.env[x.slot].n, request);
      && o.0 == t.0
      && t.1.calls <= ledger.limit
      && t.1.futures == st.run.futures - {st.env[x.slot].n}
      && o.1.effects == t.1.effects == st.run.effects
      && WellFormed(t.1)
      && o.1.calls == so.run.calls + 1
      && t.1.calls <= o.1.calls + |t.1.futures| && |t.1.futures| <= MAX_PENDING
      && multiset(o.1.dispatched) <= multiset(t.1.dispatched)
      && Accounted(left, pending, o.1, t.1, ledger)
  {
    var n := st.env[x.slot].n;
    var request := x.ask(so.env).request;
    CollectedIsCurrent(h, hs, hidden, x, so, st);
    AnswerBalances(so.run, st.run, n, request, left, pending, ledger);
  }

  lemma ResolveStepAsks(h: Host, hs: Helpers, hidden: set<string>, plan: seq<Read>,
                        j: nat, so: State, st: State, v: Value, ledger: Ledger)
    requires Planned(h, hs, hidden, plan) && j < |plan|
    requires hs.prepare in hidden && hs.resolve in hidden
    requires GroupInv(h, hs, hidden, plan, j, |plan|, so, st, ledger)
    requires SlotOk(plan[j], so.env, st) && plan[j].ask(so.env).Asks?
    requires Room(ledger.limit, Invoke(h, so.run, plan[j].ask(so.env).request).1,
      Resolve(h, st.run, HandleAt(plan, j, st), plan[j].ask(so.env).request).1)
    ensures var request, n := plan[j].ask(so.env).request, HandleAt(plan, j, st);
      var o, t := Invoke(h, so.run, request), Resolve(h, st.run, n, request);
      var so', st' := State(so.env[plan[j].target := v], o.1), State(st.env[plan[j].target := v], t.1);
      && o.0 == t.0
      && t.1.calls <= ledger.limit
      && Related(h.manifest, hs, hidden, so.(run := o.1), st.(run := t.1))
      && GroupInv(h, hs, hidden, plan, j + 1, 0, so', st', ledger)
  {
    var x, n := plan[j], HandleAt(plan, j, st);
    assert ItemOk(h, hs, hidden, x);
    var request := x.ask(so.env).request;
    var counted := State(st.env[x.target := v], st.run.(futures := st.run.futures - {n}));
    ResolveEndsFlight(h, hs, hidden, plan, j, so, st, v, counted);
    var pending := Total(Flights(plan, j + 1, 0, counted)[j + 1..]);
    ResolveKeepsAccounts(h, hs, hidden, x, so, st, |plan| - j - 1, pending, ledger);
    var ro, rt := Invoke(h, so.run, request).1, Resolve(h, st.run, n, request).1;
    var so', st' := State(so.env[x.target := v], ro), State(st.env[x.target := v], rt);
    FlightsSame(plan, j + 1, 0, counted, st');
    AssignKeepsRelated(h, hs, hidden, x.target, v, so, st, ro, rt);
    ResolveKeepsPlan(h, hs, hidden, plan, j, so, st, v, so', st');
  }

  lemma HandleReady(h: Host, hs: Helpers, hidden: set<string>, plan: seq<Read>,
                    j: nat, so: State, st: State, ledger: Ledger)
    requires Planned(h, hs, hidden, plan) && j < |plan|
    requires GroupInv(h, hs, hidden, plan, j, |plan|, so, st, ledger)
    ensures HasHandle(st, plan[j].slot)
  {
    assert Ready(plan, j, |plan|, j) && SlotOk(plan[j], so.env, st);
  }

  /**
   At position `j`, with all its prepares run, the resolve has the outcome of the original
   call; and if it does not raise, the group goes on at the next position.
   */
  lemma ResolveStep(h: Host, hs: Helpers, hidden: set<string>, plan: seq<Read>,
                    j: nat, so: State, st: State, ledger: Ledger)
    requires Planned(h, hs, hidden, plan) && j < |plan|
    requires hs.prepare in hidden && hs.resolve in hidden
    requires GroupInv(h, hs, hidden, plan, j, |plan|, so, st, ledger)
    requires HasHandle(st, plan[j].slot)
    requires Room(ledger.limit, ReadOutcome(h, plan[j], so).state.run,
      ResolveOutcome(h, plan[j], HandleAt(plan, j, st), st).state.run)
    ensures var o := ReadOutcome(h, plan[j], so);
      var t := ResolveOutcome(h, plan[j], HandleAt(plan, j, st), st);
      && SameOutcome(h.manifest, hs, hidden, o, t)
      && t.state.run.calls <= ledger.limit
      && (o.Normal? ==> GroupInv(h, hs, hidden, plan, j + 1, 0, o.state, t.state, ledger))
  {
    var x := plan[j];
    assert Ready(plan, j, |plan|, j) && SlotOk(x, so.env, st);
    assert ItemOk(h, hs, hidden, x);
    AskAgrees(h, hs, hidden, x, so, st);
    if x.ask(so.env).Asks? {
      var decoded := Decode(Invoke(h, so.run, x.ask(so.env).request).0);
      var v := if decoded.Ok? then decoded.value else NoneV;
      assert ReadOutcome(h, x, so).state.run == Invoke(h, so.run, x.ask(so.env).request).1;
      ResolveStepAsks(h, hs, hidden, plan, j, so, st, v, ledger);
    } else {
      FlightsAtMostLeft(plan, j, |plan|, st);
    }
  }
}
