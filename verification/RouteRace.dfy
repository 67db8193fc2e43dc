/**
 * connectMeshRoutes of machine-route-connect.ts: three probe workers feed a sequential authenticator,
 * inside an outer bounded operation, with one inner bounded operation per authentication attempt.
 * Each event is the code between two awaits (or one timer, abort or adapter callback), so every
 * interleaving is a sequence of events. An event that cannot happen leaves the state as it is.
 */
module RouteRace {

  import opened Prelude

  /** Progress of one route; a route is named by its position in the caller's list. */
  datatype RouteStatus =
    | Waiting              // in preferred or fallback
    | InProbe(called: bool)
    | Failed               // input.probe was called and its probe failed
    | Cancelled            // settled after the probes were aborted
    | Ready                // probed and waiting for authentication
    | Attempted            // taken by the authenticator

  datatype Worker = Idle | Resumable | Probing(route: nat) | AtGate | Done

  datatype Result = Pending | Error | Value

  datatype Reason = Exhausted | Cancellation

  datatype Main =
    | NotStarted
    | Sleeping(woken: bool)
    | Authenticating(result: Result)   // awaiting the last attempt
    | Returning(connection: nat)       // the value is on its way to the outer operation
    | Throwing(reason: Reason)
    | Finished

  datatype Inner = Unstarted | Live | Settled

  datatype Connect = NotCalled | Connecting | Produced | Refused

  /** Attempt i can produce one connection, which is then named i. */
  datatype Attempt = Attempt(route: nat, inner: Inner, connect: Connect)

  datatype Outer = Open | Resolved(connection: nat) | Rejected(reason: Reason)

  /** starts, calls and disposed are histories: probe() calls, input.probe calls and dispose calls. */
  datatype State = State(
    rank: seq<int>, status: seq<RouteStatus>, preferred: seq<nat>, fallback: seq<nat>, ready: seq<nat>,
    remaining: int, workers: seq<Worker>, gateOpen: bool, gateTimer: bool,
    signalAborted: bool, probesAborted: bool, main: Main, attempts: seq<Attempt>, outer: Outer,
    starts: seq<nat>, calls: seq<nat>, disposed: seq<nat>)

  datatype Event =
    | Start
    | OuterAbort                       // timeout or abort of the caller's signal
    | GateTimer
    | WorkerResumes(worker: nat)
    | ProbeCalled(worker: nat)
    | ProbeSettles(worker: nat, ok: bool)
    | MainResumes
    | AttemptBegins
    | ConnectCalled
    | AttemptTimesOut
    | ConnectProduces(attempt: nat)
    | ConnectFails(attempt: nat)
    | Deliver

  // ---- Stable ordering by rank ----

  function RankOf(rank: seq<int>, r: nat): int {
    if r < |rank| then rank[r] else 0
  }

  /** Inserts after every route of the same rank, as a stable sort does. */
  function Insert(rank: seq<int>, sorted: seq<nat>, r: nat): seq<nat> {
    if sorted == [] || RankOf(rank, sorted[|sorted| - 1]) <= RankOf(rank, r) then sorted + [r]
    else Insert(rank, sorted[..|sorted| - 1], r) + [sorted[|sorted| - 1]]
  }

  function Sort(rank: seq<int>, rs: seq<nat>): seq<nat> {
    if rs == [] then [] else Insert(rank, Sort(rank, rs[..|rs| - 1]), rs[|rs| - 1])
  }

  ghost predicate Distinct(s: seq<nat>) {
    forall i, j :: 0 <= i < j < |s| ==> s[i] != s[j]
  }

  ghost predicate Ordered(rank: seq<int>, s: seq<nat>) {
    forall i, j :: 0 <= i < j < |s| ==> RankOf(rank, s[i]) <= RankOf(rank, s[j])
  }

  lemma {:induction false} InsertMembers(rank: seq<int>, sorted: seq<nat>, r: nat)
    ensures forall x :: x in Insert(rank, sorted, r) <==> x in sorted || x == r
  {
    if !(sorted == [] || RankOf(rank, sorted[|sorted| - 1]) <= RankOf(rank, r)) {
      var init, last := sorted[..|sorted| - 1], sorted[|sorted| - 1];
      assert sorted == init + [last];
      InsertMembers(rank, init, r);
    }
  }

  lemma {:induction false} InsertOrders(rank: seq<int>, sorted: seq<nat>, r: nat)
    requires Ordered(rank, sorted)
    ensures Ordered(rank, Insert(rank, sorted, r))
  {
    if !(sorted == [] || RankOf(rank, sorted[|sorted| - 1]) <= RankOf(rank, r)) {
      var init, last := sorted[..|sorted| - 1], sorted[|sorted| - 1];
      InsertOrders(rank, init, r);
      InsertMembers(rank, init, r);
      var t := Insert(rank, init, r);
      assert forall i :: 0 <= i < |t| ==> t[i] in t;
      assert forall i :: 0 <= i < |init| ==> init[i] == sorted[i];
    }
  }

  lemma {:induction false} InsertDistinct(rank: seq<int>, sorted: seq<nat>, r: nat)
    requires Distinct(sorted) && r !in sorted
    ensures Distinct(Insert(rank, sorted, r))
  {
    if sorted == [] || RankOf(rank, sorted[|sorted| - 1]) <= RankOf(rank, r) {
      DistinctAppend(sorted, r);
    } else {
      var init, last := sorted[..|sorted| - 1], sorted[|sorted| - 1];
      assert sorted == init + [last];
      InsertDistinct(rank, init, r);
      InsertMembers(rank, init, r);
      DistinctAppend(Insert(rank, init, r), last);
    }
  }

  lemma {:induction false} SortFacts(rank: seq<int>, rs: seq<nat>)
    ensures forall x :: x in Sort(rank, rs) <==> x in rs
    ensures Ordered(rank, Sort(rank, rs))
    ensures Distinct(rs) ==> Distinct(Sort(rank, rs))
  {
    if rs != [] {
      var init, last := rs[..|rs| - 1], rs[|rs| - 1];
      assert rs == init + [last];
      SortFacts(rank, init);
      InsertMembers(rank, Sort(rank, init), last);
      InsertOrders(rank, Sort(rank, init), last);
      if Distinct(rs) {
        assert forall i :: 0 <= i < |init| ==> rs[i] == init[i] && rs[i] != rs[|rs| - 1];
        InsertDistinct(rank, Sort(rank, init), last);
      }
    }
  }

  // ---- The steps ----

  function Filter(rank: seq<int>, rs: seq<nat>, best: int, keep: bool): seq<nat> {
    if rs == [] then []
    else if (RankOf(rank, rs[0]) == best) == keep then [rs[0]] + Filter(rank, rs[1..], best, keep)
    else Filter(rank, rs[1..], best, keep)
  }

  function Ids(n: nat): seq<nat> {
    seq(n, i requires 0 <= i < n => i)
  }

  function Init(rank: seq<int>): State {
    var order := Sort(rank, Ids(|rank|));
    var best := if order == [] then 0 else RankOf(rank, order[0]);
    State(rank, seq(|rank|, i => Waiting), Filter(rank, order, best, true), Filter(rank, order, best, false), [],
          |rank|, [Idle, Idle, Idle], false, false, false, false, NotStarted, [], Open, [], [], [])
  }

  function Wake(s: State): State {
    if s.main.Sleeping? then s.(main := Sleeping(true)) else s
  }

  /** probes.abort(): opens the gate and wakes the main loop. */
  function AbortProbes(s: State): State {
    if s.probesAborted then s else Wake(s.(probesAborted := true, gateOpen := true))
  }

  /** The finally block of the outer operation's body. */
  function Finish(s: State, main: Main): State {
    AbortProbes(s.(main := main, gateTimer := false)).(gateOpen := true)
  }

  function StartProbe(s: State, w: nat, r: nat): State {
    if r < |s.status| && w < |s.workers| then
      s.(status := s.status[r := InProbe(false)], workers := s.workers[w := Probing(r)], starts := s.starts + [r])
    else s
  }

  function SetWorker(s: State, w: nat, worker: Worker): State {
    if w < |s.workers| then s.(workers := s.workers[w := worker]) else s
  }

  /** A preferred worker (0 or 1) from its loop head to its next await. */
  function PreferredLoop(s: State, w: nat): State {
    if s.probesAborted then SetWorker(s, w, Done)
    else if s.preferred != [] then StartProbe(s.(preferred := s.preferred[1..]), w, s.preferred[0])
    else SetWorker(s, w, AtGate)
  }

  /** A preferred worker past the gate; it does not look at the abort again. */
  function PreferredAfterGate(s: State, w: nat): State {
    if s.fallback == [] then SetWorker(s, w, Done)
    else StartProbe(s.(fallback := s.fallback[1..]), w, s.fallback[0])
  }

  /** The fallback worker (2) from its loop head to its next await. */
  function FallbackLoop(s: State, w: nat): State {
    if s.probesAborted then SetWorker(s, w, Done)
    else if s.fallback != [] then StartProbe(s.(fallback := s.fallback[1..]), w, s.fallback[0])
    else if s.preferred != [] then StartProbe(s.(preferred := s.preferred[1..]), w, s.preferred[0])
    else SetWorker(s, w, Done)
  }

  /** The main loop from its head to its next await. */
  function MainLoop(s: State): State {
    if s.signalAborted then Finish(s, Throwing(Cancellation))
    else
      var ready := Sort(s.rank, s.ready);
      if ready != [] then
        if ready[0] < |s.status| then
          s.(ready := ready[1..], status := s.status[ready[0] := Attempted],
             attempts := s.attempts + [Attempt(ready[0], Unstarted, NotCalled)], main := Authenticating(Pending))
        else s
      else if s.remaining == 0 then Finish(s.(ready := []), Throwing(Exhausted))
      else s.(ready := [], main := Sleeping(false))
  }

  function LaunchWorkers(s: State): State {
    SetWorker(PreferredLoop(PreferredLoop(s, 0), 1), 2, AtGate)
  }

  /** The last attempt's bounded operation settles and hands its outcome to the main loop. */
  function SettleAttempt(s: State, i: nat, connect: Connect, result: Result): State {
    if i < |s.attempts| then
      s.(attempts := s.attempts[i := s.attempts[i].(inner := Settled, connect := connect)],
         main := Authenticating(result))
    else s
  }

  predicate AttemptOpen(s: State, inner: Inner) {
    s.main == Authenticating(Pending) && s.attempts != [] && s.attempts[|s.attempts| - 1].inner == inner
  }

  function StartStep(s: State): State {
    if s.main != NotStarted then s
    else if s.signalAborted then s.(main := Finished)
    else if s.rank == [] then s.(main := Throwing(Exhausted))
    else MainLoop(LaunchWorkers(s.(gateOpen := s.fallback == [], gateTimer := s.fallback != [])))
  }

  function AbortStep(s: State): State {
    if s.outer != Open then s
    else
      var t := s.(outer := Rejected(Cancellation), signalAborted := true);
      if s.main.NotStarted? || s.main.Returning? || s.main.Throwing? || s.main.Finished? then t
      else if s.main == Authenticating(Pending) && s.attempts != [] then
        AbortProbes(SettleAttempt(t, |s.attempts| - 1, s.attempts[|s.attempts| - 1].connect, Error))
      else AbortProbes(t)
  }

  function GateStep(s: State): State {
    if s.gateTimer then s.(gateTimer := false, gateOpen := true) else s
  }

  function WorkerStep(s: State, w: nat): State {
    if w >= |s.workers| then s
    else if s.workers[w] == Resumable then
      if w < 2 then PreferredLoop(s, w) else FallbackLoop(s, w)
    else if s.workers[w] == AtGate && s.gateOpen then
      if w < 2 then PreferredAfterGate(s, w) else FallbackLoop(s, w)
    else s
  }

  function CallStep(s: State, w: nat): State {
    if w < |s.workers| && s.workers[w].Probing? && s.workers[w].route < |s.status|
       && s.status[s.workers[w].route] == InProbe(false) && !s.probesAborted then
      var r := s.workers[w].route;
      s.(status := s.status[r := InProbe(true)], calls := s.calls + [r])
    else s
  }

  function SettleStep(s: State, w: nat, ok: bool): State {
    if w < |s.workers| && s.workers[w].Probing? && s.workers[w].route < |s.status|
       && (s.status[s.workers[w].route] == InProbe(true)
           || (s.status[s.workers[w].route] == InProbe(false) && s.probesAborted && !ok)) then
      var r := s.workers[w].route;
      var outcome := if s.probesAborted then Cancelled else if ok then Ready else Failed;
      Wake(s.(status := s.status[r := outcome], ready := if outcome == Ready then s.ready + [r] else s.ready,
              workers := s.workers[w := Resumable], remaining := s.remaining - 1))
    else s
  }

  function MainStep(s: State): State {
    if s.main == Sleeping(true) || s.main == Authenticating(Error) then MainLoop(s)
    else if s.main == Authenticating(Value) && s.attempts != [] then Finish(s, Returning(|s.attempts| - 1))
    else s
  }

  function BeginStep(s: State): State {
    if AttemptOpen(s, Unstarted) then
      var i := |s.attempts| - 1;
      s.(attempts := s.attempts[i := s.attempts[i].(inner := Live)])
    else s
  }

  function ConnectStep(s: State): State {
    if AttemptOpen(s, Live) && s.attempts[|s.attempts| - 1].connect == NotCalled then
      var i := |s.attempts| - 1;
      s.(attempts := s.attempts[i := s.attempts[i].(connect := Connecting)])
    else s
  }

  function TimeoutStep(s: State): State {
    if AttemptOpen(s, Live) && s.attempts[|s.attempts| - 1].connect == Connecting then
      SettleAttempt(s, |s.attempts| - 1, s.attempts[|s.attempts| - 1].connect, Error)
    else s
  }

  function ProduceStep(s: State, i: nat): State {
    if i >= |s.attempts| || s.attempts[i].connect != Connecting then s
    else if s.attempts[i].inner == Live then SettleAttempt(s, i, Produced, Value)
    else s.(attempts := s.attempts[i := s.attempts[i].(connect := Produced)], disposed := s.disposed + [i])
  }

  function RefuseStep(s: State, i: nat): State {
    if i >= |s.attempts| || s.attempts[i].connect != Connecting then s
    else if s.attempts[i].inner == Live then SettleAttempt(s, i, Refused, Error)
    else s.(attempts := s.attempts[i := s.attempts[i].(connect := Refused)])
  }

  function DeliverStep(s: State): State {
    match s.main
    case Returning(c) =>
      if s.outer == Open then s.(outer := Resolved(c), main := Finished)
      else s.(disposed := s.disposed + [c], main := Finished)
    case Throwing(reason) =>
      s.(outer := if s.outer == Open then Rejected(reason) else s.outer, main := Finished)
    case _ => s
  }

  function Step(s: State, e: Event): State {
    match e
    case Start => StartStep(s)
    case OuterAbort => AbortStep(s)
    case GateTimer => GateStep(s)
    case WorkerResumes(w) => WorkerStep(s, w)
    case ProbeCalled(w) => CallStep(s, w)
    case ProbeSettles(w, ok) => SettleStep(s, w, ok)
    case MainResumes => MainStep(s)
    case AttemptBegins => BeginStep(s)
    case ConnectCalled => ConnectStep(s)
    case AttemptTimesOut => TimeoutStep(s)
    case ConnectProduces(i) => ProduceStep(s, i)
    case ConnectFails(i) => RefuseStep(s, i)
    case Deliver => DeliverStep(s)
  }

  function Run(rank: seq<int>, events: seq<Event>): State {
    if events == [] then Init(rank) else Step(Run(rank, events[..|events| - 1]), events[|events| - 1])
  }

  // ---- Conservation of connections ----

  /** How many hold connection c: dispose, the value in flight, the caller. */
  function Owners(main: Main, n: nat, outer: Outer, disposed: seq<nat>, c: nat): nat {
    (if c in disposed then 1 else 0)
    + (if main == Returning(c) || (main == Authenticating(Value) && c + 1 == n) then 1 else 0)
    + (if outer == Resolved(c) then 1 else 0)
  }

  predicate AttemptOk(a: Attempt, open: bool, owners: nat) {
    && (a.inner == Unstarted ==> a.connect == NotCalled)
    && (a.inner == Live ==> a.connect in {NotCalled, Connecting})
    && (a.inner != Settled <==> open)
    && owners == (if a.connect == Produced then 1 else 0)
  }

  ghost predicate Owned(main: Main, attempts: seq<Attempt>, outer: Outer, disposed: seq<nat>) {
    && Distinct(disposed)
    && (forall i: nat | i < |attempts| ::
          AttemptOk(attempts[i], main == Authenticating(Pending) && i + 1 == |attempts|,
                    Owners(main, |attempts|, outer, disposed, i)))
    && (forall c | c in disposed :: c < |attempts|)
    && (main.Authenticating? ==> attempts != [])
    && (main.Returning? ==> main.connection < |attempts|)
    && (outer.Resolved? ==> outer.connection < |attempts| && main == Finished)
  }

  ghost predicate ConnectionsOwned(s: State) {
    Owned(s.main, s.attempts, s.outer, s.disposed)
  }

  predicate Holding(main: Main) { main == Authenticating(Value) || main.Returning? }

  /** The main loop moves on without a connection, or carries the one it has. */
  lemma MainMoves(main: Main, main': Main, attempts: seq<Attempt>, outer: Outer, disposed: seq<nat>)
    requires Owned(main, attempts, outer, disposed) && main != Authenticating(Pending) && !main'.Authenticating?
    requires if main == Authenticating(Value) then main' == Returning(|attempts| - 1)
             else !Holding(main) && !Holding(main')
    requires outer.Resolved? ==> main' == Finished
    ensures Owned(main', attempts, outer, disposed)
  {
  }

  lemma TakesCandidate(main: Main, attempts: seq<Attempt>, outer: Outer, disposed: seq<nat>, r: nat)
    requires Owned(main, attempts, outer, disposed) && main != Authenticating(Pending) && !Holding(main)
    requires !outer.Resolved?
    ensures Owned(Authenticating(Pending), attempts + [Attempt(r, Unstarted, NotCalled)], outer, disposed)
  {
  }

  /** The open attempt changes without producing, or produces and hands its value to the main loop. */
  lemma OpenAttemptMoves(attempts: seq<Attempt>, outer: Outer, disposed: seq<nat>, a: Attempt, result: Result)
    requires Owned(Authenticating(Pending), attempts, outer, disposed)
    requires a.inner == Unstarted ==> a.connect == NotCalled
    requires a.inner == Live ==> a.connect in {NotCalled, Connecting}
    requires a.inner != Settled <==> result == Pending
    requires a.connect == Produced <==> result == Value
    ensures attempts != [] && Owned(Authenticating(result), attempts[|attempts| - 1 := a], outer, disposed)
  {
    var n := |attempts|;
    assert AttemptOk(attempts[n - 1], true, Owners(Authenticating(Pending), n, outer, disposed, n - 1));
    OpenAttemptShape(attempts, outer, disposed);
    var after := attempts[n - 1 := a];
    forall i: nat | i < n
      ensures AttemptOk(after[i], result == Pending && i + 1 == n, Owners(Authenticating(result), n, outer, disposed, i))
    {
      if i < n - 1 {
        assert AttemptOk(attempts[i], false, Owners(Authenticating(Pending), n, outer, disposed, i));
      }
    }
  }

  lemma LateOutcome(main: Main, attempts: seq<Attempt>, outer: Outer, disposed: seq<nat>, c: nat, connect: Connect)
    requires Owned(main, attempts, outer, disposed) && c < |attempts|
    requires attempts[c].inner == Settled && attempts[c].connect == Connecting && connect in {Produced, Refused}
    ensures Owned(main, attempts[c := Attempt(attempts[c].route, Settled, connect)], outer,
                  if connect == Produced then disposed + [c] else disposed)
  {
    assert AttemptOk(attempts[c], false, Owners(main, |attempts|, outer, disposed, c));
    DistinctAppend(disposed, c);
  }

  lemma OuterSettles(main: Main, attempts: seq<Attempt>, outer: Outer, disposed: seq<nat>, reason: Reason)
    requires Owned(main, attempts, outer, disposed) && !outer.Resolved?
    ensures Owned(main, attempts, Rejected(reason), disposed)
  {
    forall i: nat | i < |attempts|
      ensures Owners(main, |attempts|, outer, disposed, i) == Owners(main, |attempts|, Rejected(reason), disposed, i)
    {
    }
  }

  /** The value reaches the outer operation: the caller gets it, or it is late and disposed of. */
  lemma ValueArrives(c: nat, attempts: seq<Attempt>, outer: Outer, disposed: seq<nat>)
    requires Owned(Returning(c), attempts, outer, disposed)
    ensures outer == Open ==> Owned(Finished, attempts, Resolved(c), disposed)
    ensures !outer.Resolved? && Owned(Finished, attempts, outer, disposed + [c])
  {
    assert AttemptOk(attempts[c], false, Owners(Returning(c), |attempts|, outer, disposed, c));
    DistinctAppend(disposed, c);
  }

  lemma DistinctAppend(s: seq<nat>, x: nat)
    requires Distinct(s) && x !in s
    ensures Distinct(s + [x])
  {
    assert forall i :: 0 <= i < |s| ==> s[i] in s;
  }

  /** Workers and timers at most wake the main loop. */
  ghost predicate SameConnections(s: State, t: State) {
    && t.attempts == s.attempts && t.outer == s.outer && t.disposed == s.disposed
    && t.signalAborted == s.signalAborted
    && (t.main == s.main || (s.main == Sleeping(false) && t.main == Sleeping(true)))
  }

  lemma SameConnectionsKeeps(s: State, t: State)
    requires ConnectionsOwned(s) && SameConnections(s, t)
    ensures ConnectionsOwned(t)
  {
    if t.main != s.main { MainMoves(s.main, t.main, s.attempts, s.outer, s.disposed); }
  }

  lemma WorkersSameConnections(s: State, w: nat)
    ensures SameConnections(s, PreferredLoop(s, w)) && SameConnections(s, FallbackLoop(s, w))
    ensures SameConnections(s, PreferredAfterGate(s, w)) && SameConnections(s, SetWorker(s, w, AtGate))
    ensures PreferredLoop(s, w).main == s.main
  {
    ProbeSameConnections(s);
    hide StartProbe, SetWorker, SameConnections;
  }

  lemma ProbeSameConnections(s: State)
    ensures forall w, r, p :: SameConnections(s, StartProbe(s.(preferred := p), w, r)) && StartProbe(s.(preferred := p), w, r).main == s.main
    ensures forall w, r, f :: SameConnections(s, StartProbe(s.(fallback := f), w, r))
    ensures forall w, worker :: SameConnections(s, SetWorker(s, w, worker)) && SetWorker(s, w, worker).main == s.main
  {
  }

  lemma MainLoopKeepsConnections(s: State)
    requires ConnectionsOwned(s) && s.main in {NotStarted, Sleeping(true), Authenticating(Error)}
    ensures ConnectionsOwned(MainLoop(s))
  {
    hide Sort, Owned;
    var t := MainLoop(s);
    assert !s.outer.Resolved? by { OpenUntilFinished(s.main, s.attempts, s.outer, s.disposed); }
    if t.main == Authenticating(Pending) {
      var ready := Sort(s.rank, s.ready);
      TakesCandidate(s.main, s.attempts, s.outer, s.disposed, ready[0]);
    } else if t.main != s.main {
      MainMoves(s.main, t.main, s.attempts, s.outer, s.disposed);
    }
  }

  lemma OpenUntilFinished(main: Main, attempts: seq<Attempt>, outer: Outer, disposed: seq<nat>)
    requires Owned(main, attempts, outer, disposed) && main != Finished
    ensures !outer.Resolved?
  {
  }

  lemma LaunchSameConnections(s: State)
    ensures SameConnections(s, LaunchWorkers(s)) && LaunchWorkers(s).main == s.main
  {
    hide PreferredLoop, FallbackLoop, PreferredAfterGate;
    var t := PreferredLoop(s, 0);
    var u := PreferredLoop(t, 1);
    WorkersSameConnections(s, 0);
    WorkersSameConnections(t, 1);
    WorkersSameConnections(u, 2);
  }

  lemma StartKeepsConnections(s: State)
    requires ConnectionsOwned(s)
    ensures ConnectionsOwned(Step(s, Start))
  {
    hide Owned, LaunchWorkers, MainLoop;
    if s.main == NotStarted {
      OpenUntilFinished(s.main, s.attempts, s.outer, s.disposed);
      if s.signalAborted || s.rank == [] {
        MainMoves(s.main, Step(s, Start).main, s.attempts, s.outer, s.disposed);
      } else {
        var u := s.(gateOpen := s.fallback == [], gateTimer := s.fallback != []);
        LaunchSameConnections(u);
        SameConnectionsKeeps(u, LaunchWorkers(u));
        MainLoopKeepsConnections(LaunchWorkers(u));
      }
    }
  }

  lemma ProbeEventSameConnections(s: State, e: Event)
    requires e.GateTimer? || e.WorkerResumes? || e.ProbeCalled? || e.ProbeSettles?
    ensures SameConnections(s, Step(s, e))
  {
    hide PreferredLoop, FallbackLoop, PreferredAfterGate;
    if e.WorkerResumes? { WorkersSameConnections(s, e.worker); }
  }

  lemma AbortKeepsConnections(s: State)
    requires ConnectionsOwned(s) && s.outer == Open
    ensures ConnectionsOwned(Step(s, OuterAbort))
  {
    OuterSettles(s.main, s.attempts, s.outer, s.disposed, Cancellation);
    hide Owned;
    var t := Step(s, OuterAbort);
    if s.main == Authenticating(Pending) && s.attempts != [] {
      var a := s.attempts[|s.attempts| - 1];
      OpenAttemptShape(s.attempts, s.outer, s.disposed);
      OpenAttemptMoves(s.attempts, t.outer, s.disposed, a.(inner := Settled), Error);
    } else if t.main != s.main {
      MainMoves(s.main, t.main, s.attempts, t.outer, s.disposed);
    }
  }

  lemma OpenAttemptShape(attempts: seq<Attempt>, outer: Outer, disposed: seq<nat>)
    requires Owned(Authenticating(Pending), attempts, outer, disposed)
    ensures attempts != [] && var a := attempts[|attempts| - 1];
            (a.inner == Unstarted && a.connect == NotCalled) || (a.inner == Live && a.connect in {NotCalled, Connecting})
  {
    var i := |attempts| - 1;
    assert AttemptOk(attempts[i], true, Owners(Authenticating(Pending), |attempts|, outer, disposed, i));
  }

  lemma AttemptEventKeepsConnections(s: State, e: Event)
    requires ConnectionsOwned(s) && e in {AttemptBegins, ConnectCalled, AttemptTimesOut}
    ensures ConnectionsOwned(Step(s, e))
  {
    hide Owned;
    if s.main == Authenticating(Pending) {
      OpenAttemptShape(s.attempts, s.outer, s.disposed);
      var t := Step(s, e);
      var i := |s.attempts| - 1;
      if t != s {
        assert t.attempts == s.attempts[i := t.attempts[i]];
        OpenAttemptMoves(s.attempts, s.outer, s.disposed, t.attempts[i], t.main.result);
      }
    }
  }

  lemma ConnectOutcomeKeepsConnections(s: State, c: nat, connect: Connect)
    requires ConnectionsOwned(s) && connect in {Produced, Refused}
    ensures ConnectionsOwned(Step(s, if connect == Produced then ConnectProduces(c) else ConnectFails(c)))
  {
    if c < |s.attempts| && s.attempts[c].connect == Connecting {
      LiveIsLast(s.main, s.attempts, s.outer, s.disposed, c);
      hide Owned;
      if s.attempts[c].inner == Live {
        OpenAttemptMoves(s.attempts, s.outer, s.disposed, Attempt(s.attempts[c].route, Settled, connect),
                         if connect == Produced then Value else Error);
      } else {
        LateOutcome(s.main, s.attempts, s.outer, s.disposed, c, connect);
      }
    }
  }

  lemma LiveIsLast(main: Main, attempts: seq<Attempt>, outer: Outer, disposed: seq<nat>, c: nat)
    requires Owned(main, attempts, outer, disposed) && c < |attempts| && attempts[c].connect == Connecting
    ensures attempts[c].inner == Settled || (attempts[c].inner == Live && main == Authenticating(Pending) && c + 1 == |attempts|)
  {
    assert AttemptOk(attempts[c], main == Authenticating(Pending) && c + 1 == |attempts|,
                     Owners(main, |attempts|, outer, disposed, c));
  }

  lemma DeliverKeepsConnections(s: State)
    requires ConnectionsOwned(s) && (s.main.Returning? || s.main.Throwing?)
    ensures ConnectionsOwned(Step(s, Deliver))
  {
    OpenUntilFinished(s.main, s.attempts, s.outer, s.disposed);
    if s.main.Returning? {
      ValueArrives(s.main.connection, s.attempts, s.outer, s.disposed);
    } else {
      OuterSettles(s.main, s.attempts, s.outer, s.disposed, s.main.reason);
      hide Owned;
      MainMoves(s.main, Finished, s.attempts, Step(s, Deliver).outer, s.disposed);
    }
  }

  lemma StepKeepsConnections(s: State, e: Event)
    requires ConnectionsOwned(s)
    ensures ConnectionsOwned(Step(s, e))
  {
    hide MainLoop, LaunchWorkers;
    match e {
      case Start => StartKeepsConnections(s);
      case OuterAbort => if s.outer == Open { AbortKeepsConnections(s); }
      case MainResumes =>
        if s.main in {Sleeping(true), Authenticating(Error)} {
          MainLoopKeepsConnections(s);
        } else if s.main == Authenticating(Value) {
          MainMoves(s.main, Returning(|s.attempts| - 1), s.attempts, s.outer, s.disposed);
        }
      case AttemptBegins => AttemptEventKeepsConnections(s, e);
      case ConnectCalled => AttemptEventKeepsConnections(s, e);
      case AttemptTimesOut => AttemptEventKeepsConnections(s, e);
      case ConnectProduces(c) => ConnectOutcomeKeepsConnections(s, c, Produced);
      case ConnectFails(c) => ConnectOutcomeKeepsConnections(s, c, Refused);
      case Deliver => if s.main.Returning? || s.main.Throwing? { DeliverKeepsConnections(s); }
      case _ =>
        ProbeEventSameConnections(s, e);
        SameConnectionsKeeps(s, Step(s, e));
    }
  }

  lemma {:induction false} RunKeepsConnections(rank: seq<int>, events: seq<Event>)
    ensures ConnectionsOwned(Run(rank, events))
  {
    hide Step;
    if events != [] {
      RunKeepsConnections(rank, events[..|events| - 1]);
      StepKeepsConnections(Run(rank, events[..|events| - 1]), events[|events| - 1]);
    }
  }

  /**
   * Every connection an adapter produces has exactly one owner in every reachable state: the caller, a
   * dispose call, or the value in flight between the two bounded operations. dispose never sees a
   * connection twice, nor one the caller got.
   */
  lemma Conservation(rank: seq<int>, events: seq<Event>, c: nat)
    ensures var s := Run(rank, events);
            && Distinct(s.disposed)
            && Owners(s.main, |s.attempts|, s.outer, s.disposed, c) ==
               (if c < |s.attempts| && s.attempts[c].connect == Produced then 1 else 0)
  {
    RunKeepsConnections(rank, events);
    var s := Run(rank, events);
    var n := |s.attempts|;
    if c < n {
      assert AttemptOk(s.attempts[c], s.main == Authenticating(Pending) && c + 1 == n,
                       Owners(s.main, n, s.outer, s.disposed, c));
    }
  }

  /** Once the body has finished nothing is in flight: returned to the caller or disposed, never both. */
  lemma NothingLeaks(rank: seq<int>, events: seq<Event>, c: nat)
    requires var s := Run(rank, events);
             s.main == Finished && c < |s.attempts| && s.attempts[c].connect == Produced
    ensures var s := Run(rank, events);
            s.outer == Resolved(c) <==> c !in s.disposed
  {
    Conservation(rank, events, c);
  }

  // ---- Where every route is ----

  /** The part of the state that says where the routes are. */
  datatype Board = Board(rank: seq<int>, status: seq<RouteStatus>, preferred: seq<nat>, fallback: seq<nat>,
                         ready: seq<nat>, workers: seq<Worker>, starts: seq<nat>, calls: seq<nat>,
                         attempted: seq<nat>, aborted: bool)

  function Routes(attempts: seq<Attempt>): seq<nat> {
    seq(|attempts|, i requires 0 <= i < |attempts| => attempts[i].route)
  }

  function BoardOf(s: State): Board {
    Board(s.rank, s.status, s.preferred, s.fallback, s.ready, s.workers, s.starts, s.calls, Routes(s.attempts),
          s.probesAborted)
  }

  ghost predicate IsBest(rank: seq<int>, r: nat) {
    forall x: nat | x < |rank| :: RankOf(rank, r) <= RankOf(rank, x)
  }

  /** A route is in exactly the collections its status names. */
  predicate PlacedBy(st: RouteStatus, best: bool, preferred: bool, fallback: bool, ready: bool, probed: bool,
                     started: bool, called: bool, attempted: bool, aborted: bool)
  {
    && (preferred <==> st == Waiting && best)
    && (fallback <==> st == Waiting && !best)
    && (ready <==> st == Ready)
    && (probed <==> st.InProbe?)
    && (started <==> st != Waiting)
    && (attempted <==> st == Attempted)
    && (st in {InProbe(true), Failed, Ready, Attempted} ==> called)
    && (st in {Waiting, InProbe(false)} ==> !called)
    && (st == Cancelled ==> aborted)
  }

  ghost predicate Placed(b: Board, r: nat)
    requires r < |b.status|
  {
    PlacedBy(b.status[r], IsBest(b.rank, r), r in b.preferred, r in b.fallback, r in b.ready, Probing(r) in b.workers,
             r in b.starts, r in b.calls, r in b.attempted, b.aborted)
  }

  ghost predicate InRange(rs: seq<nat>, n: nat) {
    Distinct(rs) && forall x :: x in rs ==> x < n
  }

  /** No two workers probe the same route. */
  ghost predicate OneEach(workers: seq<Worker>) {
    |workers| == 3 && forall w, v :: 0 <= w < v < 3 && workers[w].Probing? ==> workers[w] != workers[v]
  }

  ghost predicate Tracked(b: Board) {
    var n := |b.rank|;
    && |b.status| == n && OneEach(b.workers)
    && InRange(b.preferred, n) && InRange(b.fallback, n) && InRange(b.ready, n)
    && InRange(b.starts, n) && InRange(b.calls, n) && InRange(b.attempted, n)
    && (forall r: nat :: Probing(r) in b.workers ==> r < n)
    && (forall r: nat | r < n :: Placed(b, r))
  }

  lemma HeadAndTail(rs: seq<nat>, n: nat)
    requires InRange(rs, n) && rs != []
    ensures InRange(rs[1..], n) && rs[0] in rs && rs[0] < n
    ensures forall x :: x in rs[1..] <==> x in rs && x != rs[0]
  {
    assert rs == [rs[0]] + rs[1..];
    assert forall i :: 0 <= i < |rs| - 1 ==> rs[1..][i] == rs[i + 1];
    assert forall x :: x in rs[1..] ==> x in rs;
  }

  lemma AppendInRange(rs: seq<nat>, r: nat, n: nat)
    requires InRange(rs, n) && r < n && r !in rs
    ensures InRange(rs + [r], n)
  {
    DistinctAppend(rs, r);
  }

  lemma WorkerChange(workers: seq<Worker>, w: nat, to: Worker)
    requires OneEach(workers) && w < 3
    requires to.Probing? ==> to !in workers
    ensures OneEach(workers[w := to])
    ensures forall x: Worker | x.Probing? :: x in workers[w := to] <==> x == to || (x in workers && x != workers[w])
  {
    var after := workers[w := to];
    forall x: Worker | x.Probing?
      ensures x in after <==> x == to || (x in workers && x != workers[w])
    {
      if x == to { assert after[w] == x; }
      else if x in workers && x != workers[w] {
        var v :| 0 <= v < 3 && workers[v] == x;
        assert after[v] == x;
      }
    }
  }

  lemma BeginProbe(b: Board, w: nat, r: nat, preferred: seq<nat>, fallback: seq<nat>)
    requires Tracked(b) && w < 3 && !b.workers[w].Probing?
    requires (b.preferred != [] && r == b.preferred[0] && preferred == b.preferred[1..] && fallback == b.fallback)
          || (b.fallback != [] && r == b.fallback[0] && fallback == b.fallback[1..] && preferred == b.preferred)
    ensures r < |b.status| && b.status[r] == Waiting
    ensures Tracked(b.(preferred := preferred, fallback := fallback, status := b.status[r := InProbe(false)],
                       workers := b.workers[w := Probing(r)], starts := b.starts + [r]))
  {
    var n := |b.rank|;
    if preferred != b.preferred || fallback == b.fallback { HeadAndTail(b.preferred, n); }
    else { HeadAndTail(b.fallback, n); }
    assert Placed(b, r);
    WorkerChange(b.workers, w, Probing(r));
    AppendInRange(b.starts, r, n);
    var t := b.(preferred := preferred, fallback := fallback, status := b.status[r := InProbe(false)],
                workers := b.workers[w := Probing(r)], starts := b.starts + [r]);
    forall x: nat | x < n
      ensures Placed(t, x)
    {
      assert Placed(b, x);
    }
  }

  lemma WorkerRests(b: Board, w: nat, to: Worker)
    requires Tracked(b) && w < 3 && !b.workers[w].Probing? && !to.Probing?
    ensures Tracked(b.(workers := b.workers[w := to]))
  {
    WorkerChange(b.workers, w, to);
    var t := b.(workers := b.workers[w := to]);
    forall x: nat | x < |b.rank|
      ensures Placed(t, x)
    {
      assert Placed(b, x);
    }
  }

  lemma CallProbe(b: Board, w: nat)
    requires Tracked(b) && w < 3 && b.workers[w].Probing?
    requires b.workers[w].route < |b.status| && b.status[b.workers[w].route] == InProbe(false)
    ensures var r := b.workers[w].route;
            Tracked(b.(status := b.status[r := InProbe(true)], calls := b.calls + [r]))
  {
    var r := b.workers[w].route;
    assert Placed(b, r);
    AppendInRange(b.calls, r, |b.rank|);
    var t := b.(status := b.status[r := InProbe(true)], calls := b.calls + [r]);
    forall x: nat | x < |b.rank|
      ensures Placed(t, x)
    {
      assert Placed(b, x);
    }
  }

  lemma EndProbe(b: Board, w: nat, outcome: RouteStatus)
    requires Tracked(b) && w < 3 && b.workers[w].Probing?
    requires b.workers[w].route < |b.status| && outcome in {Ready, Failed, Cancelled}
    requires outcome == Cancelled ==> b.aborted
    requires outcome != Cancelled ==> b.status[b.workers[w].route] == InProbe(true)
    ensures var r := b.workers[w].route;
            Tracked(b.(status := b.status[r := outcome], workers := b.workers[w := Resumable],
                       ready := if outcome == Ready then b.ready + [r] else b.ready))
  {
    var r := b.workers[w].route;
    assert Probing(r) in b.workers;
    assert Placed(b, r);
    WorkerChange(b.workers, w, Resumable);
    if outcome == Ready { AppendInRange(b.ready, r, |b.rank|); }
    var t := b.(status := b.status[r := outcome], workers := b.workers[w := Resumable],
                ready := if outcome == Ready then b.ready + [r] else b.ready);
    forall x: nat | x < |b.rank|
      ensures Placed(t, x)
    {
      assert Placed(b, x);
    }
  }

  lemma TakeReady(b: Board, sorted: seq<nat>)
    requires Tracked(b) && sorted == Sort(b.rank, b.ready) && sorted != []
    ensures sorted[0] < |b.status| && b.status[sorted[0]] == Ready && sorted[0] in b.ready
    ensures Tracked(b.(status := b.status[sorted[0] := Attempted], ready := sorted[1..],
                       attempted := b.attempted + [sorted[0]]))
    ensures forall x :: x in b.ready ==> RankOf(b.rank, sorted[0]) <= RankOf(b.rank, x)
  {
    SortFacts(b.rank, b.ready);
    HeadAndTail(sorted, |b.rank|);
    var r := sorted[0];
    assert Placed(b, r);
    AppendInRange(b.attempted, r, |b.rank|);
    var t := b.(status := b.status[r := Attempted], ready := sorted[1..], attempted := b.attempted + [r]);
    forall x: nat | x < |b.rank|
      ensures Placed(t, x)
    {
      assert Placed(b, x);
    }
    forall x | x in b.ready
      ensures RankOf(b.rank, r) <= RankOf(b.rank, x)
    {
      assert x in sorted;
    }
  }

  lemma AbortBoard(b: Board)
    requires Tracked(b)
    ensures Tracked(b.(aborted := true))
  {
    var t := b.(aborted := true);
    forall x: nat | x < |b.rank|
      ensures Placed(t, x)
    {
      assert Placed(b, x);
    }
  }

  ghost predicate RoutesTracked(s: State) {
    && Tracked(BoardOf(s))
    && (s.main == NotStarted ==> s.workers == [Idle, Idle, Idle] && AllWaiting(s.status))
  }

  ghost predicate AllWaiting(status: seq<RouteStatus>) {
    forall r :: 0 <= r < |status| ==> status[r] == Waiting
  }

  lemma {:induction false} FilterFacts(rank: seq<int>, rs: seq<nat>, best: int, keep: bool)
    ensures forall x :: x in Filter(rank, rs, best, keep) <==> x in rs && (RankOf(rank, x) == best) == keep
    ensures Distinct(rs) ==> Distinct(Filter(rank, rs, best, keep))
  {
    if rs != [] {
      assert rs == [rs[0]] + rs[1..];
      FilterFacts(rank, rs[1..], best, keep);
      if Distinct(rs) {
        assert forall i :: 0 <= i < |rs| - 1 ==> rs[1..][i] == rs[i + 1];
        assert rs[0] !in rs[1..];
        DistinctPrepend(rs[0], Filter(rank, rs[1..], best, keep));
      }
    }
  }

  lemma DistinctPrepend(x: nat, s: seq<nat>)
    requires Distinct(s)
    ensures x !in s ==> Distinct([x] + s)
  {
    assert forall i :: 0 <= i < |s| ==> s[i] in s;
  }

  lemma IdsFacts(n: nat)
    ensures Distinct(Ids(n)) && forall x: nat :: x in Ids(n) <==> x < n
  {
    forall x: nat | x < n
      ensures x in Ids(n)
    {
      assert Ids(n)[x] == x;
    }
  }

  lemma InitTracked(rank: seq<int>)
    ensures RoutesTracked(Init(rank))
  {
    hide Sort, Filter;
    var s, b := Init(rank), BoardOf(Init(rank));
    var ids := Ids(|rank|);
    var order := Sort(rank, ids);
    SortFacts(rank, ids);
    IdsFacts(|rank|);
    var best := if order == [] then 0 else RankOf(rank, order[0]);
    FilterFacts(rank, order, best, true);
    FilterFacts(rank, order, best, false);
    forall r: nat | r < |rank|
      ensures Placed(b, r)
    {
      assert r in order;
      BestIsHead(rank, order, r);
    }
  }

  lemma BestIsHead(rank: seq<int>, order: seq<nat>, r: nat)
    requires Ordered(rank, order) && r < |rank| && forall x: nat :: x in order <==> x < |rank|
    ensures order != [] && (IsBest(rank, r) <==> RankOf(rank, r) == RankOf(rank, order[0]))
  {
    assert r in order && order[0] in order;
    forall x: nat | x < |rank|
      ensures RankOf(rank, order[0]) <= RankOf(rank, x)
    {
      assert x in order;
    }
  }

  /** Main-loop, attempt and delivery events do not move a route, except when the main loop takes a candidate. */
  lemma MainLoopTracked(s: State)
    requires Tracked(BoardOf(s))
    ensures RoutesTracked(MainLoop(s))
  {
    var b := BoardOf(s);
    AbortBoard(b);
    hide Tracked, Sort;
    var sorted := Sort(s.rank, s.ready);
    if !s.signalAborted {
      if sorted != [] {
        TakeReady(b, sorted);
        assert Routes(s.attempts + [Attempt(sorted[0], Unstarted, NotCalled)]) == Routes(s.attempts) + [sorted[0]];
        assert BoardOf(MainLoop(s)) == b.(status := b.status[sorted[0] := Attempted], ready := sorted[1..],
                                          attempted := b.attempted + [sorted[0]]);
      } else {
        NothingReady(s);
      }
    }
  }

  lemma NothingReady(s: State)
    requires Sort(s.rank, s.ready) == []
    ensures s.ready == []
  {
    FirstIsMember(s.ready);
    SortFacts(s.rank, s.ready);
  }

  lemma FirstIsMember(q: seq<nat>)
    ensures q == [] || q[0] in q
  {
  }

  lemma PreferredLoopTracked(s: State, w: nat)
    requires Tracked(BoardOf(s)) && w < 3 && s.workers[w] in {Idle, Resumable}
    ensures Tracked(BoardOf(PreferredLoop(s, w)))
  {
    var b := BoardOf(s);
    WorkerRests(b, w, Done);
    WorkerRests(b, w, AtGate);
    if !s.probesAborted && s.preferred != [] {
      BeginProbe(b, w, s.preferred[0], s.preferred[1..], s.fallback);
      assert BoardOf(PreferredLoop(s, w)) ==
        b.(preferred := s.preferred[1..], fallback := s.fallback, status := b.status[s.preferred[0] := InProbe(false)],
           workers := b.workers[w := Probing(s.preferred[0])], starts := b.starts + [s.preferred[0]]);
    }
  }

  lemma PreferredAfterGateTracked(s: State, w: nat)
    requires Tracked(BoardOf(s)) && w < 3 && s.workers[w] == AtGate
    ensures Tracked(BoardOf(PreferredAfterGate(s, w)))
  {
    var b := BoardOf(s);
    WorkerRests(b, w, Done);
    if s.fallback != [] {
      BeginProbe(b, w, s.fallback[0], s.preferred, s.fallback[1..]);
    }
  }

  lemma FallbackLoopTracked(s: State, w: nat)
    requires Tracked(BoardOf(s)) && w < 3 && s.workers[w] in {AtGate, Resumable}
    ensures Tracked(BoardOf(FallbackLoop(s, w)))
  {
    var b := BoardOf(s);
    WorkerRests(b, w, Done);
    if s.fallback != [] {
      BeginProbe(b, w, s.fallback[0], s.preferred, s.fallback[1..]);
    } else if s.preferred != [] {
      BeginProbe(b, w, s.preferred[0], s.preferred[1..], s.fallback);
    }
  }

  lemma LaunchTracked(s: State)
    requires RoutesTracked(s) && s.main == NotStarted
    ensures Tracked(BoardOf(LaunchWorkers(s)))
  {
    hide Tracked, PreferredLoop;
    PreferredLoopTracked(s, 0);
    PreferredLoopTouches(s, 0);
    var u := PreferredLoop(s, 0);
    PreferredLoopTracked(u, 1);
    PreferredLoopTouches(u, 1);
    WorkerRests(BoardOf(PreferredLoop(u, 1)), 2, AtGate);
  }

  lemma PreferredLoopTouches(s: State, w: nat)
    requires |s.workers| == 3 && w < 3
    ensures |PreferredLoop(s, w).workers| == 3
    ensures forall v :: 0 <= v < 3 && v != w ==> PreferredLoop(s, w).workers[v] == s.workers[v]
  {
  }

  lemma WorkerResumesTracked(s: State, w: nat)
    requires RoutesTracked(s) && w < 3
    ensures RoutesTracked(Step(s, WorkerResumes(w)))
  {
    hide Tracked;
    assert |s.workers| == 3 by { BoardShape(BoardOf(s)); }
    if w < 2 && s.workers[w] == Resumable { PreferredLoopTracked(s, w); }
    else if w < 2 && s.workers[w] == AtGate { PreferredAfterGateTracked(s, w); }
    else if s.workers[w] in {Resumable, AtGate} { FallbackLoopTracked(s, w); }
  }

  lemma WorkerEventTracked(s: State, e: Event)
    requires RoutesTracked(s) && (e.WorkerResumes? || e.ProbeCalled? || e.ProbeSettles?)
    ensures RoutesTracked(Step(s, e))
  {
    hide Tracked, PreferredLoop, PreferredAfterGate, FallbackLoop;
    var b, w := BoardOf(s), e.worker;
    assert |s.workers| == 3 by { BoardShape(b); }
    if w < 3 {
      match e {
        case WorkerResumes(_) => WorkerResumesTracked(s, w);
        case ProbeCalled(_) =>
          if s.workers[w].Probing? && s.workers[w].route < |s.status| && s.status[s.workers[w].route] == InProbe(false) {
            CallProbe(b, w);
          }
        case ProbeSettles(_, ok) =>
          if s.workers[w].Probing? && s.workers[w].route < |s.status| && Step(s, e) != s {
            var outcome := if s.probesAborted then Cancelled else if ok then Ready else Failed;
            EndProbe(b, w, outcome);
          }
      }
    }
  }

  lemma BoardShape(b: Board)
    requires Tracked(b)
    ensures |b.workers| == 3 && |b.status| == |b.rank|
  {
  }

  lemma StepKeepsTracked(s: State, e: Event)
    requires RoutesTracked(s)
    ensures RoutesTracked(Step(s, e))
  {
    hide Tracked, MainLoop, LaunchWorkers;
    AbortBoard(BoardOf(s));
    match e {
      case Start =>
        if s.main == NotStarted && !s.signalAborted && s.rank != [] {
          var u := s.(gateOpen := s.fallback == [], gateTimer := s.fallback != []);
          LaunchTracked(u);
          LaunchSameConnections(u);
          MainLoopTracked(LaunchWorkers(u));
        }
      case OuterAbort => AbortSameRoutes(s);
      case AttemptBegins => AttemptSameRoutes(s, e);
      case ConnectCalled => AttemptSameRoutes(s, e);
      case AttemptTimesOut => AttemptSameRoutes(s, e);
      case ConnectProduces(_) => AttemptSameRoutes(s, e);
      case ConnectFails(_) => AttemptSameRoutes(s, e);
      case MainResumes => if s.main == Sleeping(true) || s.main == Authenticating(Error) { MainLoopTracked(s); }
      case WorkerResumes(_) => WorkerEventTracked(s, e);
      case ProbeCalled(_) => WorkerEventTracked(s, e);
      case ProbeSettles(_, _) => WorkerEventTracked(s, e);
      case _ =>
    }
  }

  lemma RoutesUpdate(attempts: seq<Attempt>, i: nat, a: Attempt)
    requires i < |attempts| && a.route == attempts[i].route
    ensures Routes(attempts[i := a]) == Routes(attempts)
  {
  }

  lemma SettleSameRoutes(s: State, i: nat, connect: Connect, result: Result)
    ensures BoardOf(SettleAttempt(s, i, connect, result)) == BoardOf(s)
    ensures SettleAttempt(s, i, connect, result).main in {s.main, Authenticating(result)}
  {
    if i < |s.attempts| { RoutesUpdate(s.attempts, i, s.attempts[i].(inner := Settled, connect := connect)); }
  }

  lemma AbortSameRoutes(s: State)
    ensures var t := Step(s, OuterAbort);
            && BoardOf(t) in {BoardOf(s), BoardOf(s).(aborted := true)}
            && (t.main == NotStarted ==> s.main == NotStarted && BoardOf(t) == BoardOf(s))
  {
    hide SettleAttempt;
    var t := s.(outer := Rejected(Cancellation), signalAborted := true);
    assert BoardOf(t) == BoardOf(s);
    if s.attempts != [] {
      var i := |s.attempts| - 1;
      SettleSameRoutes(t, i, s.attempts[i].connect, Error);
    }
  }

  lemma AttemptSameRoutes(s: State, e: Event)
    requires e.AttemptBegins? || e.ConnectCalled? || e.AttemptTimesOut? || e.ConnectProduces? || e.ConnectFails?
    ensures BoardOf(Step(s, e)) == BoardOf(s) && (Step(s, e).main == NotStarted ==> s.main == NotStarted)
  {
    hide SettleAttempt;
    var i := if e.ConnectProduces? || e.ConnectFails? then e.attempt else |s.attempts| - 1;
    if 0 <= i < |s.attempts| {
      var a := s.attempts[i];
      match e {
        case AttemptBegins => RoutesUpdate(s.attempts, i, a.(inner := Live));
        case ConnectCalled => RoutesUpdate(s.attempts, i, a.(connect := Connecting));
        case AttemptTimesOut => SettleSameRoutes(s, i, a.connect, Error);
        case ConnectProduces(_) =>
          RoutesUpdate(s.attempts, i, a.(connect := Produced));
          SettleSameRoutes(s, i, Produced, Value);
        case ConnectFails(_) =>
          RoutesUpdate(s.attempts, i, a.(connect := Refused));
          SettleSameRoutes(s, i, Refused, Error);
      }
    }
  }

  // ---- Counting, gating and waking ----

  predicate Undecided(st: RouteStatus) { st == Waiting || st.InProbe? }

  ghost function Unfinished(status: seq<RouteStatus>): set<nat> {
    set r: nat | r < |status| && Undecided(status[r])
  }

  lemma UnfinishedUpdate(status: seq<RouteStatus>, r: nat, st: RouteStatus)
    requires r < |status|
    ensures |Unfinished(status[r := st])| ==
            |Unfinished(status)| + (if Undecided(st) then 1 else 0) - (if Undecided(status[r]) then 1 else 0)
  {
    var after := status[r := st];
    CardRemove(Unfinished(status), r);
    CardRemove(Unfinished(after), r);
    SameElsewhere(status, after, r);
    assert r in Unfinished(status) <==> Undecided(status[r]);
    assert r in Unfinished(after) <==> Undecided(st);
    hide *;
  }

  lemma SameElsewhere(before: seq<RouteStatus>, after: seq<RouteStatus>, r: nat)
    requires |before| == |after| && forall x: nat :: x < |before| && x != r ==> before[x] == after[x]
    ensures Unfinished(after) - {r} == Unfinished(before) - {r}
  {
    hide Undecided;
  }

  predicate InBody(main: Main) { main.Sleeping? || main.Authenticating? }

  predicate WorkerOk(worker: Worker, prefers: bool, noPreferred: bool, noFallback: bool, open: bool, timer: bool,
                     aborted: bool)
  {
    && (worker == Done ==> aborted || (noPreferred && noFallback))
    && (worker != Idle ==> open || timer)
    && (worker == AtGate && prefers ==> noPreferred)
    && (!prefers && (worker == Resumable || worker.Probing?) ==> open)
  }

  /** The control facts that hold between any two events. */
  ghost predicate Control(s: State) {
    && s.remaining == |Unfinished(s.status)|
    && (s.main == Sleeping(false) ==> s.ready == [] && s.remaining > 0 && !s.signalAborted)
    && (InBody(s.main) ==> s.probesAborted == s.signalAborted && Idle !in s.workers)
    && (s.main == NotStarted ==> !s.probesAborted)
    && Gated(s)
    && (s.signalAborted <==> s.outer == Rejected(Cancellation))
    && (s.main == Throwing(Cancellation) ==> s.signalAborted)
    && (s.main == Throwing(Exhausted) || s.outer == Rejected(Exhausted) ==> AllDecided(s.status))
    && (s.outer == Rejected(Exhausted) ==> s.main == Finished)
  }

  ghost predicate Gated(s: State) {
    && (forall w | 0 <= w < |s.workers| ::
          WorkerOk(s.workers[w], w < 2, s.preferred == [], s.fallback == [], s.gateOpen, s.gateTimer, s.probesAborted))
    && (forall r: nat | r < |s.status| :: s.status[r] != Waiting && !IsBest(s.rank, r) ==> s.gateOpen)
  }

  ghost predicate AllDecided(status: seq<RouteStatus>) {
    forall st :: st in status ==> st in {Failed, Attempted}
  }

  /** A worker begins a probe: preferred routes at any time, others only through the open gate. */
  lemma BeginControl(s: State, w: nat, preferred: seq<nat>, fallback: seq<nat>, r: nat)
    requires Control(s) && Tracked(BoardOf(s)) && w < 3 && (s.gateOpen || (w < 2 && s.gateTimer))
    requires (s.preferred != [] && r == s.preferred[0] && preferred == s.preferred[1..] && fallback == s.fallback)
          || (s.gateOpen && s.fallback != [] && r == s.fallback[0] && fallback == s.fallback[1..] && preferred == s.preferred)
    ensures Control(StartProbe(s.(preferred := preferred, fallback := fallback), w, r))
  {
    assert r in s.preferred || r in s.fallback;
    assert r < |s.status|;
    assert Placed(BoardOf(s), r);
    assert s.status[r] == Waiting && s.status[r] in s.status;
    hide Placed, Tracked;
    UnfinishedUpdate(s.status, r, InProbe(false));
  }

  lemma RestControl(s: State, w: nat, worker: Worker)
    requires Control(s) && w < |s.workers|
    requires WorkerOk(worker, w < 2, s.preferred == [], s.fallback == [], s.gateOpen, s.gateTimer, s.probesAborted)
    requires worker != Idle
    ensures Control(SetWorker(s, w, worker))
  {
  }

  lemma WorkerResumesControl(s: State, w: nat)
    requires Control(s) && RoutesTracked(s)
    ensures Control(WorkerStep(s, w))
  {
    BoardShape(BoardOf(s));
    if w < 3 {
      assert WorkerOk(s.workers[w], w < 2, s.preferred == [], s.fallback == [], s.gateOpen, s.gateTimer, s.probesAborted);
      hide Control, Tracked, StartProbe, SetWorker;
      if w < 2 && s.workers[w] == Resumable { PreferredLoopControl(s, w); }
      else if w < 2 && s.workers[w] == AtGate && s.gateOpen {
        if s.fallback == [] { RestControl(s, w, Done); } else { BeginControl(s, w, s.preferred, s.fallback[1..], s.fallback[0]); }
      } else if w == 2 && s.gateOpen && s.workers[w] in {Resumable, AtGate} {
        if s.probesAborted { RestControl(s, w, Done); }
        else if s.fallback != [] { BeginControl(s, w, s.preferred, s.fallback[1..], s.fallback[0]); }
        else if s.preferred != [] { BeginControl(s, w, s.preferred[1..], s.fallback, s.preferred[0]); }
        else { RestControl(s, w, Done); }
      }
    }
  }

  lemma PreferredLoopControl(s: State, w: nat)
    requires Control(s) && Tracked(BoardOf(s)) && w < 2 && (s.gateOpen || s.gateTimer)
    ensures Control(PreferredLoop(s, w))
  {
    BoardShape(BoardOf(s));
    hide Control, Tracked, StartProbe, SetWorker;
    if s.probesAborted { RestControl(s, w, Done); }
    else if s.preferred != [] { BeginControl(s, w, s.preferred[1..], s.fallback, s.preferred[0]); }
    else { RestControl(s, w, AtGate); }
  }

  lemma LaunchControl(s: State)
    requires Control(s) && RoutesTracked(s) && s.main == NotStarted && (s.gateOpen || s.gateTimer)
    ensures var t := LaunchWorkers(s);
            Control(t) && t.main == NotStarted && Idle !in t.workers && t.signalAborted == s.signalAborted
  {
    hide Control, Tracked, PreferredLoop;
    var u := PreferredLoop(s, 0);
    var v := PreferredLoop(u, 1);
    BoardShape(BoardOf(s));
    PreferredLoopEffect(s, 0);
    PreferredLoopControl(s, 0);
    PreferredLoopTracked(s, 0);
    PreferredLoopEffect(u, 1);
    PreferredLoopControl(u, 1);
    PreferredLoopTracked(u, 1);
    RestControl(v, 2, AtGate);
  }

  lemma PreferredLoopEffect(s: State, w: nat)
    requires |s.workers| == 3 && w < 3 && Tracked(BoardOf(s))
    ensures var t := PreferredLoop(s, w);
            && |t.workers| == 3 && t.workers[w] != Idle && t.gateOpen == s.gateOpen && t.gateTimer == s.gateTimer
            && t.main == s.main && t.signalAborted == s.signalAborted && t.probesAborted == s.probesAborted
            && (forall v :: 0 <= v < 3 && v != w ==> t.workers[v] == s.workers[v])
  {
    assert s.preferred != [] ==> s.preferred[0] in s.preferred;
  }

  lemma FinishControl(s: State, main: Main)
    requires Control(s) && s.main != Finished && s.probesAborted == s.signalAborted
    requires main.Returning? || (main == Throwing(Cancellation) && s.signalAborted)
          || (main == Throwing(Exhausted) && AllDecided(s.status))
    ensures Control(Finish(s, main))
  {
  }

  /** The loop decides: leave when aborted, take the best candidate, give up, or sleep with nothing missed. */
  lemma MainLoopControl(s: State)
    requires Control(s) && Tracked(BoardOf(s)) && Idle !in s.workers && s.probesAborted == s.signalAborted
    requires s.main in {NotStarted, Sleeping(true), Authenticating(Error)}
    ensures Control(MainLoop(s))
  {
    var sorted := Sort(s.rank, s.ready);
    if s.signalAborted {
      FinishControl(s, Throwing(Cancellation));
    } else if sorted != [] {
      TakeReady(BoardOf(s), sorted);
      UnfinishedUpdate(s.status, sorted[0], Attempted);
    } else {
      NothingReady(s);
      if s.remaining == 0 {
        Exhaustion(s);
        FinishControl(s.(ready := []), Throwing(Exhausted));
      }
    }
  }

  lemma Exhaustion(s: State)
    requires Tracked(BoardOf(s)) && s.ready == [] && |Unfinished(s.status)| == 0 && !s.probesAborted
    ensures AllDecided(s.status)
  {
    forall r: nat | r < |s.status|
      ensures s.status[r] in {Failed, Attempted}
    {
      assert Placed(BoardOf(s), r);
      assert r !in Unfinished(s.status);
    }
  }

  lemma CalledControl(s: State, w: nat)
    requires Control(s) && RoutesTracked(s)
    ensures Control(CallStep(s, w))
  {
    if w < |s.workers| && s.workers[w].Probing? && s.workers[w].route < |s.status| {
      var r := s.workers[w].route;
      assert s.status[r] in s.status;
      hide Tracked, IsBest;
      UnfinishedUpdate(s.status, r, InProbe(true));
    }
  }

  lemma SettlesControl(s: State, w: nat, ok: bool)
    requires Control(s) && RoutesTracked(s)
    ensures Control(SettleStep(s, w, ok))
  {
    BoardShape(BoardOf(s));
    hide Tracked, IsBest;
    if w < |s.workers| && s.workers[w].Probing? && s.workers[w].route < |s.status| && s.status[s.workers[w].route].InProbe? {
      var r := s.workers[w].route;
      assert s.status[r] in s.status;
      var outcome := if s.probesAborted then Cancelled else if ok then Ready else Failed;
      UnfinishedUpdate(s.status, r, outcome);
      UnfinishedMember(s.status, r);
      SettledControl(s, w, r, outcome, if outcome == Ready then s.ready + [r] else s.ready);
    }
  }

  lemma UnfinishedMember(status: seq<RouteStatus>, r: nat)
    requires r < |status| && Undecided(status[r])
    ensures |Unfinished(status)| > 0
  {
    assert r in Unfinished(status);
  }

  lemma SettledControl(s: State, w: nat, r: nat, outcome: RouteStatus, ready: seq<nat>)
    requires Control(s) && w < |s.workers| && s.workers[w] == Probing(r) && r < |s.status| && s.status[r].InProbe?
    requires s.status[r] in s.status && outcome in {Ready, Failed, Cancelled}
    requires |Unfinished(s.status[r := outcome])| == |Unfinished(s.status)| - 1
    ensures Control(Wake(s.(status := s.status[r := outcome], ready := ready, workers := s.workers[w := Resumable],
                            remaining := s.remaining - 1)))
  {
    hide IsBest, Unfinished;
  }

  /** Attempt events move only the attempts and the main loop's result. */
  lemma AttemptControl(s: State, e: Event)
    requires Control(s) && ConnectionsOwned(s)
    requires e.AttemptBegins? || e.ConnectCalled? || e.AttemptTimesOut? || e.ConnectProduces? || e.ConnectFails?
    ensures Control(Step(s, e))
  {
    hide Unfinished, IsBest, Gated;
    if e.ConnectProduces? || e.ConnectFails? {
      if e.attempt < |s.attempts| && s.attempts[e.attempt].connect == Connecting {
        LiveIsLast(s.main, s.attempts, s.outer, s.disposed, e.attempt);
      }
    }
    hide Owned;
    AttemptEventFrame(s, e);
    AttemptMain(s, e);
    var t := Step(s, e);
    GatedFrame(s, t);
  }

  /** Attempt events touch the attempts, the main loop and the disposals. */
  lemma AttemptEventFrame(s: State, e: Event)
    requires e.AttemptBegins? || e.ConnectCalled? || e.AttemptTimesOut? || e.ConnectProduces? || e.ConnectFails?
    ensures var t := Step(s, e); t == s.(attempts := t.attempts, main := t.main, disposed := t.disposed)
  {
    hide StartStep, WorkerStep, MainStep, AbortStep, GateStep, CallStep, SettleStep, DeliverStep, ProduceStep, RefuseStep;
    match e {
      case ConnectProduces(i) => ProduceFrame(s, i);
      case ConnectFails(i) => RefuseFrame(s, i);
      case _ =>
    }
  }

  lemma ProduceFrame(s: State, i: nat)
    ensures var t := ProduceStep(s, i); t == s.(attempts := t.attempts, main := t.main, disposed := t.disposed)
  {
  }

  lemma RefuseFrame(s: State, i: nat)
    ensures var t := RefuseStep(s, i); t == s.(attempts := t.attempts, main := t.main)
  {
  }

  /** An abort of the outer operation touches the flags, the attempts and the main loop. */
  lemma AbortFrame(s: State)
    ensures var t := AbortStep(s);
            t == s.(outer := t.outer, signalAborted := t.signalAborted, attempts := t.attempts, main := t.main,
                    probesAborted := t.probesAborted, gateOpen := t.gateOpen)
  {
  }

  lemma AttemptMain(s: State, e: Event)
    requires e.AttemptBegins? || e.ConnectCalled? || e.AttemptTimesOut? || e.ConnectProduces? || e.ConnectFails?
    requires e.ConnectProduces? || e.ConnectFails? ==>
               e.attempt >= |s.attempts| || s.attempts[e.attempt].connect != Connecting
               || s.attempts[e.attempt].inner == Settled || s.main == Authenticating(Pending)
    ensures var t := Step(s, e); t.main == s.main || (s.main == Authenticating(Pending) && t.main.Authenticating?)
  {
    hide StartStep, WorkerStep, MainStep, AbortStep, GateStep, CallStep, SettleStep, DeliverStep;
  }

  lemma GatedFrame(s: State, t: State)
    requires Gated(s) && t == s.(attempts := t.attempts, main := t.main, disposed := t.disposed)
    ensures Gated(t)
  {
  }

  lemma AbortControl(s: State)
    requires Control(s)
    ensures Control(AbortStep(s))
  {
    hide Unfinished, IsBest, Gated;
    AbortGated(s);
  }

  lemma AbortGated(s: State)
    requires Gated(s)
    ensures Gated(AbortStep(s))
  {
    AbortFrame(s);
    hide IsBest;
  }

  lemma DeliverControl(s: State)
    requires Control(s)
    ensures Control(DeliverStep(s))
  {
    hide Unfinished, IsBest, Gated;
    DeliverFrame(s);
  }

  lemma DeliverFrame(s: State)
    requires Gated(s)
    ensures Gated(DeliverStep(s))
  {
    hide IsBest;
  }

  lemma GateControl(s: State)
    requires Control(s)
    ensures Control(GateStep(s))
  {
    hide Unfinished, IsBest;
  }

  lemma MainStepControl(s: State)
    requires Control(s) && RoutesTracked(s) && ConnectionsOwned(s)
    ensures Control(MainStep(s))
  {
    hide MainLoop, Finish, Tracked, Gated;
    if s.main in {Sleeping(true), Authenticating(Error)} { MainLoopControl(s); }
    else if s.main == Authenticating(Value) { FinishControl(s, Returning(|s.attempts| - 1)); }
  }

  lemma StepKeepsControl(s: State, e: Event)
    requires Control(s) && RoutesTracked(s) && ConnectionsOwned(s)
    ensures Control(Step(s, e))
  {
    hide Control, Tracked, Owned, StartStep, AbortStep, GateStep, WorkerStep, CallStep, SettleStep, MainStep, DeliverStep;
    match e {
      case Start => StartControl(s);
      case OuterAbort => AbortControl(s);
      case MainResumes => MainStepControl(s);
      case WorkerResumes(w) => WorkerResumesControl(s, w);
      case ProbeCalled(w) => CalledControl(s, w);
      case ProbeSettles(w, ok) => SettlesControl(s, w, ok);
      case GateTimer => GateControl(s);
      case Deliver => DeliverControl(s);
      case _ => AttemptControl(s, e); hide Step;
    }
  }

  lemma StartControl(s: State)
    requires Control(s) && RoutesTracked(s)
    ensures Control(StartStep(s))
  {
    if s.main == NotStarted && !s.signalAborted && s.rank != [] {
      hide Tracked, LaunchWorkers, MainLoop;
      var u := s.(gateOpen := s.fallback == [], gateTimer := s.fallback != []);
      GateArmedControl(s);
      LaunchControl(u);
      LaunchTracked(u);
      MainLoopControl(LaunchWorkers(u));
    } else {
      hide Unfinished, IsBest;
      assert s.rank == [] ==> s.status == [] by { BoardShape(BoardOf(s)); }
    }
  }

  /** Nothing has been probed before the start, so either setting of the gate is sound. */
  lemma GateArmedControl(s: State)
    requires Control(s) && RoutesTracked(s) && s.main == NotStarted
    ensures Control(s.(gateOpen := s.fallback == [], gateTimer := s.fallback != []))
  {
    hide Unfinished, IsBest;
  }

  // ---- What callers may rely on ----

  ghost predicate Inv(s: State) {
    ConnectionsOwned(s) && RoutesTracked(s) && Control(s)
  }

  lemma InitControl(rank: seq<int>)
    ensures Control(Init(rank))
  {
    var s := Init(rank);
    CountsAll(s.status);
  }

  lemma {:induction false} CountsAll(status: seq<RouteStatus>)
    requires AllWaiting(status)
    ensures |Unfinished(status)| == |status|
  {
    if status == [] {
      assert Unfinished(status) == {};
    } else {
      var n := |status| - 1;
      CountsAll(status[..n]);
      assert Unfinished(status) == Unfinished(status[..n]) + {n};
    }
  }

  lemma {:induction false} RunKeepsInv(rank: seq<int>, events: seq<Event>)
    ensures Inv(Run(rank, events)) && Run(rank, events).rank == rank
  {
    hide Step, Tracked, Control, Owned;
    if events == [] {
      InitTracked(rank);
      InitControl(rank);
      RunKeepsConnections(rank, []);
    } else {
      var init, e := Run(rank, events[..|events| - 1]), events[|events| - 1];
      RunKeepsInv(rank, events[..|events| - 1]);
      StepKeepsConnections(init, e);
      StepKeepsTracked(init, e);
      StepKeepsControl(init, e);
      RankIsFixed(init, e);
    }
  }

  lemma RankIsFixed(s: State, e: Event)
    ensures Step(s, e).rank == s.rank
  {
    hide PreferredLoop, FallbackLoop, PreferredAfterGate, MainLoop, LaunchWorkers;
    match e {
      case Start => StartKeepsRank(s);
      case WorkerResumes(w) => LoopsKeepRank(s, w); hide StartStep, MainStep;
      case MainResumes => MainLoopKeepsRank(s); hide StartStep, WorkerStep;
      case OuterAbort => AbortFrame(s); hide AbortStep;
      case ProbeSettles(w, ok) => hide StartStep, WorkerStep, MainStep, AbortStep;
      case ProbeCalled(w) =>
      case GateTimer =>
      case Deliver =>
      case _ => AttemptEventFrame(s, e); hide Step;
    }
  }

  lemma StartKeepsRank(s: State)
    ensures StartStep(s).rank == s.rank
  {
    hide MainLoop, LaunchWorkers;
    var u := s.(gateOpen := s.fallback == [], gateTimer := s.fallback != []);
    LoopsKeepRank(u, 0);
    MainLoopKeepsRank(LaunchWorkers(u));
  }

  lemma LoopsKeepRank(s: State, w: nat)
    ensures PreferredLoop(s, w).rank == FallbackLoop(s, w).rank == PreferredAfterGate(s, w).rank == s.rank
    ensures LaunchWorkers(s).rank == s.rank
  {
    RanksKept(s, w);
    RanksKept(s, 0);
    RanksKept(PreferredLoop(s, 0), 1);
    hide PreferredLoop, FallbackLoop, PreferredAfterGate;
  }

  lemma RanksKept(s: State, w: nat)
    ensures PreferredLoop(s, w).rank == FallbackLoop(s, w).rank == PreferredAfterGate(s, w).rank == s.rank
  {
  }

  lemma MainLoopKeepsRank(s: State)
    ensures MainLoop(s).rank == s.rank
  {
    hide Sort;
  }

  /** An attempt settles uncalled only through an abort: connect is called in a microtask, before any timer fires. */
  ghost predicate CalledUnlessAborted(aborted: bool, attempts: seq<Attempt>) {
    !aborted ==> forall i :: 0 <= i < |attempts| && attempts[i].inner == Settled ==> attempts[i].connect != NotCalled
  }

  lemma StepKeepsCalled(s: State, e: Event)
    requires Inv(s) && CalledUnlessAborted(s.signalAborted, s.attempts)
    ensures CalledUnlessAborted(Step(s, e).signalAborted, Step(s, e).attempts)
  {
    hide Inv, PreferredLoop, FallbackLoop, PreferredAfterGate, MainLoop, LaunchWorkers;
    match e {
      case Start =>
        var u := s.(gateOpen := s.fallback == [], gateTimer := s.fallback != []);
        LaunchKeepsAttempts(u);
        MainLoopKeepsCalled(LaunchWorkers(u));
      case MainResumes => MainLoopKeepsCalled(s);
      case WorkerResumes(w) => LoopsKeepAttempts(s, w);
      case _ =>
    }
  }

  lemma MainLoopKeepsCalled(s: State)
    requires CalledUnlessAborted(s.signalAborted, s.attempts)
    ensures CalledUnlessAborted(MainLoop(s).signalAborted, MainLoop(s).attempts)
  {
    hide Sort;
  }

  predicate SameAttempts(s: State, t: State) {
    t.attempts == s.attempts && t.signalAborted == s.signalAborted
  }

  lemma LoopsKeepAttempts(s: State, w: nat)
    ensures SameAttempts(s, PreferredLoop(s, w)) && SameAttempts(s, FallbackLoop(s, w))
    ensures SameAttempts(s, PreferredAfterGate(s, w))
  {
  }

  lemma LaunchKeepsAttempts(s: State)
    ensures SameAttempts(s, LaunchWorkers(s))
  {
    LoopsKeepAttempts(s, 0);
    LoopsKeepAttempts(PreferredLoop(s, 0), 1);
    hide PreferredLoop;
  }

  lemma {:induction false} RunKeepsCalled(rank: seq<int>, events: seq<Event>)
    ensures CalledUnlessAborted(Run(rank, events).signalAborted, Run(rank, events).attempts)
  {
    hide Step, Inv;
    if events != [] {
      RunKeepsCalled(rank, events[..|events| - 1]);
      RunKeepsInv(rank, events[..|events| - 1]);
      StepKeepsCalled(Run(rank, events[..|events| - 1]), events[|events| - 1]);
    }
  }

  /**
   * A call that fails without an abort or a timeout has probed every route exactly once and called connect
   * on every successfully probed one exactly once; every other route is one whose probe failed. Each
   * connect was refused, or its attempt timed out: then it is still under way or its late connection
   * was disposed of.
   */
  lemma FailureIsExhaustive(rank: seq<int>, events: seq<Event>)
    requires Run(rank, events).outer == Rejected(Exhausted)
    ensures var s := Run(rank, events);
            && Distinct(s.starts) && Distinct(s.calls) && Distinct(Routes(s.attempts)) && |s.status| == |rank|
            && (forall r: nat | r < |rank| ::
                  && r in s.starts && r in s.calls
                  && s.status[r] in {Failed, Attempted}
                  && (r in Routes(s.attempts) <==> s.status[r] == Attempted))
            && (forall i: nat | i < |s.attempts| ::
                  && s.attempts[i].inner == Settled && s.attempts[i].connect in {Connecting, Produced, Refused}
                  && (s.attempts[i].connect == Produced <==> i in s.disposed))
  {
    RunKeepsInv(rank, events);
    var s := Run(rank, events);
    forall r: nat | r < |rank|
      ensures r in s.starts && r in s.calls && s.status[r] in {Failed, Attempted}
      ensures r in Routes(s.attempts) <==> s.status[r] == Attempted
    {
      assert Placed(BoardOf(s), r);
      assert s.status[r] in s.status;
    }
    forall i: nat | i < |s.attempts|
      ensures s.attempts[i].inner == Settled && s.attempts[i].connect in {Connecting, Produced, Refused}
      ensures s.attempts[i].connect == Produced <==> i in s.disposed
    {
      RunKeepsCalled(rank, events);
      ExhaustedAttempt(s, i);
    }
  }

  lemma ExhaustedAttempt(s: State, i: nat)
    requires Inv(s) && CalledUnlessAborted(s.signalAborted, s.attempts)
    requires s.outer == Rejected(Exhausted) && i < |s.attempts|
    ensures s.attempts[i].inner == Settled && s.attempts[i].connect != NotCalled
    ensures s.attempts[i].connect == Produced <==> i in s.disposed
  {
    assert AttemptOk(s.attempts[i], false, Owners(s.main, |s.attempts|, s.outer, s.disposed, i));
  }

  /** No route is probed twice, and remaining counts the routes still queued or being probed. */
  lemma RemainingIsExact(rank: seq<int>, events: seq<Event>)
    ensures var s := Run(rank, events);
            && Distinct(s.calls) && |s.status| == |rank| && s.remaining == |Unfinished(s.status)|
            && (forall r: nat | r < |rank| ::
                  r in Unfinished(s.status) <==> r in s.preferred || r in s.fallback || Probing(r) in s.workers)
  {
    RunKeepsInv(rank, events);
    var s := Run(rank, events);
    forall r: nat | r < |rank|
      ensures r in Unfinished(s.status) <==> r in s.preferred || r in s.fallback || Probing(r) in s.workers
    {
      assert Placed(BoardOf(s), r);
    }
  }

  /** The preferred rank has a head start: nothing else is probed before the gate opens. */
  lemma FallbackWaitsForGate(rank: seq<int>, events: seq<Event>, r: nat)
    requires r in Run(rank, events).starts && !Run(rank, events).gateOpen
    ensures r < |rank| && IsBest(rank, r)
  {
    RunKeepsInv(rank, events);
    assert Placed(BoardOf(Run(rank, events)), r);
  }

  /** While fallback routes are queued, the third worker probes none of the preferred ones. */
  ghost predicate LaneFree(rank: seq<int>, fallback: seq<nat>, workers: seq<Worker>) {
    |workers| == 3 && (fallback != [] && workers[2].Probing? ==> !IsBest(rank, workers[2].route))
  }

  ghost predicate ThirdLaneFree(s: State) {
    LaneFree(s.rank, s.fallback, s.workers)
  }

  lemma StepKeepsLane(s: State, e: Event)
    requires Inv(s) && ThirdLaneFree(s)
    ensures ThirdLaneFree(Step(s, e))
  {
    hide Inv, IsBest, StartStep, WorkerStep, MainStep;
    match e {
      case Start => StartKeepsLane(s);
      case MainResumes => MainStepKeepsLane(s);
      case WorkerResumes(w) => WorkerStepKeepsLane(s, w);
      case _ => OthersKeepLane(s, e);
    }
  }

  lemma OthersKeepLane(s: State, e: Event)
    requires ThirdLaneFree(s) && !e.Start? && !e.MainResumes? && !e.WorkerResumes?
    ensures ThirdLaneFree(Step(s, e))
  {
    hide IsBest, StartStep, WorkerStep, MainStep, AbortStep, SettleStep, TimeoutStep, ProduceStep, RefuseStep, BeginStep,
         ConnectStep;
    match e {
      case OuterAbort => AbortFrame(s);
      case ProbeSettles(w, ok) => SettleKeepsLane(s, w, ok);
      case AttemptBegins => AttemptEventFrame(s, e);
      case ConnectCalled => AttemptEventFrame(s, e);
      case AttemptTimesOut => AttemptEventFrame(s, e);
      case ConnectProduces(_) => AttemptEventFrame(s, e);
      case ConnectFails(_) => AttemptEventFrame(s, e);
      case _ =>
    }
  }

  lemma SettleKeepsLane(s: State, w: nat, ok: bool)
    requires ThirdLaneFree(s)
    ensures ThirdLaneFree(SettleStep(s, w, ok))
  {
    hide IsBest;
  }

  lemma StartKeepsLane(s: State)
    requires ThirdLaneFree(s)
    ensures ThirdLaneFree(StartStep(s))
  {
    hide IsBest, MainLoop, LaunchWorkers;
    var u := s.(gateOpen := s.fallback == [], gateTimer := s.fallback != []);
    LaunchKeepsLane(u);
    MainLoopKeepsLane(LaunchWorkers(u));
  }

  lemma MainStepKeepsLane(s: State)
    requires ThirdLaneFree(s)
    ensures ThirdLaneFree(MainStep(s))
  {
    hide IsBest, MainLoop;
    MainLoopKeepsLane(s);
  }

  lemma WorkerStepKeepsLane(s: State, w: nat)
    requires Inv(s) && ThirdLaneFree(s)
    ensures ThirdLaneFree(WorkerStep(s, w))
  {
    FallbackNotBest(s);
    hide Inv, IsBest, PreferredLoop, FallbackLoop, PreferredAfterGate;
    if w < 2 { PreferredKeepsLane(s, w); } else { FallbackKeepsLane(s, w); }
  }

  lemma FallbackNotBest(s: State)
    requires Inv(s)
    ensures s.fallback != [] ==> !IsBest(s.rank, s.fallback[0])
  {
    FirstIsMember(s.fallback);
    if s.fallback != [] { assert Placed(BoardOf(s), s.fallback[0]); }
  }

  lemma MainLoopKeepsLane(s: State)
    ensures MainLoop(s).rank == s.rank && MainLoop(s).fallback == s.fallback && MainLoop(s).workers == s.workers
  {
    hide Sort;
  }

  lemma PreferredKeepsLane(s: State, w: nat)
    requires ThirdLaneFree(s) && w < 2
    ensures ThirdLaneFree(PreferredLoop(s, w)) && ThirdLaneFree(PreferredAfterGate(s, w))
  {
    hide IsBest;
  }

  lemma FallbackKeepsLane(s: State, w: nat)
    requires ThirdLaneFree(s) && (s.fallback != [] ==> !IsBest(s.rank, s.fallback[0]))
    ensures ThirdLaneFree(FallbackLoop(s, w))
  {
    hide IsBest;
  }

  lemma LaunchKeepsLane(s: State)
    requires ThirdLaneFree(s)
    ensures ThirdLaneFree(LaunchWorkers(s))
  {
    PreferredKeepsLane(s, 0);
    PreferredKeepsLane(PreferredLoop(s, 0), 1);
    hide IsBest, PreferredLoop;
  }

  lemma {:induction false} RunKeepsLane(rank: seq<int>, events: seq<Event>)
    ensures ThirdLaneFree(Run(rank, events))
  {
    hide Step, Inv;
    if events != [] {
      RunKeepsLane(rank, events[..|events| - 1]);
      RunKeepsInv(rank, events[..|events| - 1]);
      StepKeepsLane(Run(rank, events[..|events| - 1]), events[|events| - 1]);
    }
  }

  /**
   * The third lane is reserved: as long as a fallback route waits behind the open gate, the third worker
   * is probing a fallback route or about to take one, whatever became of the preferred ones.
   */
  lemma ThirdLaneIsReserved(rank: seq<int>, events: seq<Event>)
    requires var s := Run(rank, events);
             InBody(s.main) && s.gateOpen && !s.probesAborted && s.fallback != []
    ensures var s := Run(rank, events);
            |s.workers| == 3 && var lane := s.workers[2];
            if lane.Probing? then !IsBest(rank, lane.route)
            else Step(s, WorkerResumes(2)).workers[2] == Probing(s.fallback[0])
  {
    RunKeepsInv(rank, events);
    RunKeepsLane(rank, events);
    hide Inv, IsBest, Run, Step;
    LaneMoves(Run(rank, events));
  }

  lemma LaneMoves(s: State)
    requires Inv(s) && ThirdLaneFree(s) && InBody(s.main) && s.gateOpen && !s.probesAborted && s.fallback != []
    ensures !s.workers[2].Probing? ==> Step(s, WorkerResumes(2)).workers[2] == Probing(s.fallback[0])
  {
    assert s.workers[2] in s.workers;
    assert WorkerOk(s.workers[2], false, s.preferred == [], s.fallback == [], s.gateOpen, s.gateTimer, s.probesAborted);
    WaitingHeads(s);
    hide Inv, IsBest;
  }

  /** The authenticator always takes a best-ranked route among the ready ones. */
  lemma BestCandidateFirst(rank: seq<int>, events: seq<Event>)
    requires var s := Run(rank, events);
             |Step(s, MainResumes).attempts| == |s.attempts| + 1
    ensures var s := Run(rank, events);
            var r := Step(s, MainResumes).attempts[|s.attempts|].route;
            r in s.ready && forall x :: x in s.ready ==> RankOf(rank, r) <= RankOf(rank, x)
  {
    RunKeepsInv(rank, events);
    var s := Run(rank, events);
    hide Run, Sort, Tracked, Control, Owned;
    var sorted := Sort(s.rank, s.ready);
    if sorted != [] { TakeReady(BoardOf(s), sorted); }
  }

  predicate ProbeSide(e: Event) {
    e.GateTimer? || e.WorkerResumes? || e.ProbeCalled? || e.ProbeSettles?
  }

  /**
   * The main loop never sleeps through anything: with no wake pending there is no ready candidate, a probe
   * is outstanding, nothing was aborted, and some worker or the gate timer can still make a step.
   */
  lemma NoLostWakeup(rank: seq<int>, events: seq<Event>)
    requires Run(rank, events).main == Sleeping(false)
    ensures var s := Run(rank, events);
            && s.ready == [] && s.remaining > 0 && !s.signalAborted
            && exists e :: ProbeSide(e) && Step(s, e) != s
  {
    RunKeepsInv(rank, events);
    var s := Run(rank, events);
    var r := AnUnfinishedRoute(s.status);
    assert Placed(BoardOf(s), r);
    var w := 0;
    if s.status[r].InProbe? {
      w :| 0 <= w < |s.workers| && s.workers[w] == Probing(r);
    } else {
      assert s.preferred != [] || s.fallback != [];
    }
    assert WorkerOk(s.workers[w], w < 2, s.preferred == [], s.fallback == [], s.gateOpen, s.gateTimer, s.probesAborted);
    assert s.workers[w] in s.workers;
    var e := UsefulEvent(s, w);
  }

  lemma AnUnfinishedRoute(status: seq<RouteStatus>) returns (r: nat)
    requires |Unfinished(status)| > 0
    ensures r < |status| && Undecided(status[r])
  {
    var x :| x in Unfinished(status);
    r := x;
  }

  lemma UsefulEvent(s: State, w: nat) returns (e: Event)
    requires Inv(s) && !s.probesAborted && w < |s.workers| && s.workers[w] !in {Idle, Done}
    requires s.gateOpen || s.gateTimer
    ensures ProbeSide(e) && Step(s, e) != s
  {
    BoardShape(BoardOf(s));
    match s.workers[w]
    case Probing(r) =>
      assert s.workers[w] in s.workers && Placed(BoardOf(s), r);
      if s.status[r] == InProbe(false) {
        e := ProbeCalled(w);
        assert Step(s, e).calls != s.calls;
      } else {
        e := ProbeSettles(w, false);
        assert Step(s, e).workers[w] == Resumable;
      }
    case Resumable =>
      e := WorkerResumes(w);
      WorkerMoves(s, w);
    case AtGate =>
      if s.gateOpen {
        e := WorkerResumes(w);
        WorkerMoves(s, w);
      } else {
        e := GateTimer;
        assert Step(s, e).gateOpen;
      }
  }

  lemma WorkerMoves(s: State, w: nat)
    requires Inv(s) && w < 3 && (s.workers[w] == Resumable || (s.workers[w] == AtGate && s.gateOpen))
    ensures Step(s, WorkerResumes(w)).workers != s.workers
  {
    WaitingHeads(s);
    BoardShape(BoardOf(s));
    hide Tracked, Gated, Owned;
    assert WorkerStep(s, w).workers[w] != s.workers[w];
  }

  // ---- The workers cannot run for ever ----

  function RouteWork(st: RouteStatus): nat {
    match st case Waiting => 5 case InProbe(called) => if called then 3 else 4 case _ => 0
  }

  function WorkerWork(w: Worker): nat {
    match w case Resumable => 2 case AtGate => 1 case _ => 0
  }

  function TotalRouteWork(status: seq<RouteStatus>): nat {
    if status == [] then 0 else RouteWork(status[0]) + TotalRouteWork(status[1..])
  }

  function TotalWorkerWork(workers: seq<Worker>): nat {
    if workers == [] then 0 else WorkerWork(workers[0]) + TotalWorkerWork(workers[1..])
  }

  function Work(s: State): nat {
    TotalRouteWork(s.status) + TotalWorkerWork(s.workers) + if s.gateTimer then 1 else 0
  }

  lemma {:induction false} RouteWorkUpdate(status: seq<RouteStatus>, r: nat, st: RouteStatus)
    requires r < |status|
    ensures TotalRouteWork(status[r := st]) + RouteWork(status[r]) == TotalRouteWork(status) + RouteWork(st)
  {
    if r > 0 {
      assert status[r := st][1..] == status[1..][r - 1 := st];
      RouteWorkUpdate(status[1..], r - 1, st);
    } else {
      assert status[r := st][1..] == status[1..];
    }
  }

  lemma {:induction false} WorkerWorkUpdate(workers: seq<Worker>, w: nat, to: Worker)
    requires w < |workers|
    ensures TotalWorkerWork(workers[w := to]) + WorkerWork(workers[w]) == TotalWorkerWork(workers) + WorkerWork(to)
  {
    if w > 0 {
      assert workers[w := to][1..] == workers[1..][w - 1 := to];
      WorkerWorkUpdate(workers[1..], w - 1, to);
    } else {
      assert workers[w := to][1..] == workers[1..];
    }
  }

  lemma StartProbeWork(s: State, w: nat, r: nat)
    requires w < |s.workers| && r < |s.status| && s.status[r] == Waiting && WorkerWork(s.workers[w]) > 0
    ensures Work(StartProbe(s, w, r)) < Work(s)
  {
    hide TotalRouteWork, TotalWorkerWork;
    RouteWorkUpdate(s.status, r, InProbe(false));
    WorkerWorkUpdate(s.workers, w, Probing(r));
  }

  lemma SetWorkerWork(s: State, w: nat, to: Worker)
    requires w < |s.workers| && WorkerWork(to) < WorkerWork(s.workers[w])
    ensures Work(SetWorker(s, w, to)) < Work(s)
  {
    hide TotalRouteWork, TotalWorkerWork;
    WorkerWorkUpdate(s.workers, w, to);
  }

  lemma WaitingHeads(s: State)
    requires Inv(s)
    ensures s.preferred != [] ==> s.preferred[0] < |s.status| && s.status[s.preferred[0]] == Waiting
    ensures s.fallback != [] ==> s.fallback[0] < |s.status| && s.status[s.fallback[0]] == Waiting
  {
    FirstIsMember(s.preferred);
    FirstIsMember(s.fallback);
    if s.preferred != [] { assert Placed(BoardOf(s), s.preferred[0]); }
    if s.fallback != [] { assert Placed(BoardOf(s), s.fallback[0]); }
  }

  lemma WorkerResumesWork(s: State, w: nat)
    requires Inv(s)
    ensures Step(s, WorkerResumes(w)) == s || Work(Step(s, WorkerResumes(w))) < Work(s)
  {
    BoardShape(BoardOf(s));
    hide Inv, PreferredLoop, FallbackLoop, PreferredAfterGate, Work, StartStep, MainStep, AbortStep, SettleStep;
    if w < 3 && s.workers[w] in {Resumable, AtGate} {
      if w < 2 { PreferredWork(s, w); } else { FallbackWork(s, w); }
    }
  }

  lemma PreferredWork(s: State, w: nat)
    requires Inv(s) && w < |s.workers| && s.workers[w] in {Resumable, AtGate}
    ensures s.workers[w] == Resumable ==> Work(PreferredLoop(s, w)) < Work(s)
    ensures Work(PreferredAfterGate(s, w)) < Work(s)
  {
    hide StartProbe, SetWorker, Work;
    SetWorkerWork(s, w, Done);
    if s.workers[w] == Resumable { SetWorkerWork(s, w, AtGate); }
    TakesWork(s, w);
    hide Inv;
  }

  lemma FallbackWork(s: State, w: nat)
    requires Inv(s) && w < |s.workers| && s.workers[w] in {Resumable, AtGate}
    ensures Work(FallbackLoop(s, w)) < Work(s)
  {
    hide StartProbe, SetWorker, Work;
    SetWorkerWork(s, w, Done);
    TakesWork(s, w);
    hide Inv;
  }

  lemma TakesWork(s: State, w: nat)
    requires Inv(s) && w < |s.workers| && s.workers[w] in {Resumable, AtGate}
    ensures s.preferred != [] ==> Work(StartProbe(s.(preferred := s.preferred[1..]), w, s.preferred[0])) < Work(s)
    ensures s.fallback != [] ==> Work(StartProbe(s.(fallback := s.fallback[1..]), w, s.fallback[0])) < Work(s)
  {
    WaitingHeads(s);
    hide Inv, StartProbe, Work;
    if s.preferred != [] {
      var t := s.(preferred := s.preferred[1..]);
      StartProbeWork(t, w, s.preferred[0]);
      SameWork(s, t);
    }
    if s.fallback != [] {
      var t := s.(fallback := s.fallback[1..]);
      StartProbeWork(t, w, s.fallback[0]);
      SameWork(s, t);
    }
  }

  lemma SameWork(s: State, t: State)
    requires t.status == s.status && t.workers == s.workers && t.gateTimer == s.gateTimer
    ensures Work(t) == Work(s)
  {
  }

  /**
   * Every effective step of the workers, the probes and the gate timer uses up work, so between two
   * decisions of the main loop they make finitely many.
   */
  lemma ProbeSideTerminates(rank: seq<int>, events: seq<Event>, e: Event)
    requires ProbeSide(e) && Step(Run(rank, events), e) != Run(rank, events)
    ensures Work(Step(Run(rank, events), e)) < Work(Run(rank, events))
  {
    RunKeepsInv(rank, events);
    hide Run, Inv, Work, Step;
    ProbeStepWorks(Run(rank, events), e);
  }

  lemma ProbeStepWorks(s: State, e: Event)
    requires Inv(s) && ProbeSide(e) && Step(s, e) != s
    ensures Work(Step(s, e)) < Work(s)
  {
    match e {
      case WorkerResumes(w) => WorkerResumesWork(s, w); hide Inv, Work, WorkerStep;
      case ProbeCalled(w) => RouteWorkUpdate(s.status, s.workers[w].route, InProbe(true)); hide Inv;
      case ProbeSettles(w, ok) => SettleWorks(s, w, ok); hide Inv, Work, SettleStep;
      case _ => hide Inv;
    }
  }

  lemma SettleWorks(s: State, w: nat, ok: bool)
    requires SettleStep(s, w, ok) != s
    ensures Work(SettleStep(s, w, ok)) < Work(s)
  {
    var outcome := if s.probesAborted then Cancelled else if ok then Ready else Failed;
    RouteWorkUpdate(s.status, s.workers[w].route, outcome);
    WorkerWorkUpdate(s.workers, w, Resumable);
  }

  /** Each of the later events is on the probe side and changes the state it meets. */
  ghost predicate Effective(rank: seq<int>, events: seq<Event>, more: seq<Event>) {
    forall k | 0 <= k < |more| ::
      ProbeSide(more[k]) && Step(Run(rank, events + more[..k]), more[k]) != Run(rank, events + more[..k])
  }

  /**
   * The sleeping main loop is woken: the probe side can take at most Work(s) effective steps, and when it
   * has taken that many, or can take no other, a wake-up is pending.
   */
  lemma {:induction false} SleeperIsWoken(rank: seq<int>, events: seq<Event>, more: seq<Event>)
    requires Run(rank, events).main == Sleeping(false) && Effective(rank, events, more)
    ensures var s, t := Run(rank, events), Run(rank, events + more);
            && |more| + Work(t) <= Work(s) && t.main.Sleeping?
            && (|more| == Work(s) || (forall e :: ProbeSide(e) ==> Step(t, e) == t) ==> t.main == Sleeping(true))
  {
    StepsUseWork(rank, events, more);
    var t := Run(rank, events + more);
    if t.main == Sleeping(false) {
      NoLostWakeup(rank, events + more);
      var e :| ProbeSide(e) && Step(t, e) != t;
      ProbeSideTerminates(rank, events + more, e);
    }
  }

  lemma {:induction false} StepsUseWork(rank: seq<int>, events: seq<Event>, more: seq<Event>)
    requires Run(rank, events).main.Sleeping? && Effective(rank, events, more)
    ensures |more| + Work(Run(rank, events + more)) <= Work(Run(rank, events))
    ensures Run(rank, events + more).main.Sleeping?
  {
    if more == [] {
      assert events + more == events;
    } else {
      var n := |more| - 1;
      EffectivePrefix(rank, events, more);
      StepsUseWork(rank, events, more[..n]);
      RunExtends(rank, events, more);
      hide Step, Work, Run, Effective;
      ProbeSideTerminates(rank, events + more[..n], more[n]);
      StillSleeping(Run(rank, events + more[..n]), more[n]);
    }
  }

  lemma RunExtends(rank: seq<int>, events: seq<Event>, more: seq<Event>)
    requires more != []
    ensures Run(rank, events + more) == Step(Run(rank, events + more[..|more| - 1]), more[|more| - 1])
  {
    hide Step;
    assert (events + more)[..|events + more| - 1] == events + more[..|more| - 1];
  }

  lemma EffectivePrefix(rank: seq<int>, events: seq<Event>, more: seq<Event>)
    requires Effective(rank, events, more) && more != []
    ensures var n := |more| - 1;
            && Effective(rank, events, more[..n]) && ProbeSide(more[n])
            && Step(Run(rank, events + more[..n]), more[n]) != Run(rank, events + more[..n])
  {
    hide Step, Run;
    assert forall k :: 0 <= k < |more| - 1 ==> more[..|more| - 1][..k] == more[..k];
  }

  lemma StillSleeping(s: State, e: Event)
    requires s.main.Sleeping? && ProbeSide(e)
    ensures Step(s, e).main.Sleeping?
  {
    match e {
      case WorkerResumes(w) =>
        WorkerStepOnly(s, w);
        hide WorkerStep;
      case _ =>
    }
  }

  // ---- After the decision ----

  /** The body of the outer operation has left its loop. */
  predicate IsOver(main: Main) { main.Returning? || main.Throwing? || main.Finished? }

  /** No probe can be called any more. */
  predicate Quiet(s: State) {
    s.probesAborted || s.workers == [Idle, Idle, Idle]
  }

  predicate QuietWhenOver(s: State) {
    (IsOver(s.main) ==> Quiet(s)) && (s.main == NotStarted ==> s.workers == [Idle, Idle, Idle])
  }

  lemma MainLoopQuiet(s: State)
    requires Tracked(BoardOf(s)) && !IsOver(s.main)
    ensures MainLoop(s).main != NotStarted && (IsOver(MainLoop(s).main) ==> MainLoop(s).probesAborted)
  {
    var ready := Sort(s.rank, s.ready);
    SortFacts(s.rank, s.ready);
    FirstIsMember(ready);
    assert InRange(s.ready, |s.status|);
    hide Sort, Tracked;
  }

  lemma StartQuiet(s: State)
    requires Inv(s) && QuietWhenOver(s)
    ensures QuietWhenOver(StartStep(s))
  {
    hide Tracked, LaunchWorkers, MainLoop, Control, Owned;
    if s.main == NotStarted && !s.signalAborted && s.rank != [] {
      var u := s.(gateOpen := s.fallback == [], gateTimer := s.fallback != []);
      LaunchSameConnections(u);
      LaunchTracked(u);
      MainLoopQuiet(LaunchWorkers(u));
    }
  }

  lemma StepKeepsQuiet(s: State, e: Event)
    requires Inv(s) && QuietWhenOver(s)
    ensures QuietWhenOver(Step(s, e))
  {
    hide Tracked, Control, Owned, StartStep, MainStep, WorkerStep, AbortStep, SettleStep;
    match e {
      case Start => StartQuiet(s);
      case MainResumes => MainStepQuiet(s);
      case WorkerResumes(w) => WorkerStepQuiet(s, w);
      case OuterAbort => AbortQuiet(s);
      case ProbeSettles(w, ok) => SettleQuiet(s, w, ok);
      case GateTimer =>
      case ProbeCalled(w) =>
      case Deliver =>
      case _ =>
        AttemptEventFrame(s, e);
        AttemptNotOver(s, e);
        hide Step;
    }
  }

  lemma AttemptNotOver(s: State, e: Event)
    requires ConnectionsOwned(s)
    requires e.AttemptBegins? || e.ConnectCalled? || e.AttemptTimesOut? || e.ConnectProduces? || e.ConnectFails?
    ensures Step(s, e).main == s.main || Step(s, e).main.Authenticating?
  {
    hide Owned, StartStep, WorkerStep, MainStep, AbortStep, GateStep, CallStep, SettleStep, DeliverStep;
  }

  lemma MainStepQuiet(s: State)
    requires Tracked(BoardOf(s)) && QuietWhenOver(s)
    ensures QuietWhenOver(MainStep(s))
  {
    if !IsOver(s.main) { MainLoopQuiet(s); }
    hide Tracked, MainLoop;
  }

  lemma WorkerStepQuiet(s: State, w: nat)
    requires QuietWhenOver(s)
    ensures QuietWhenOver(WorkerStep(s, w))
  {
    WorkerStepOnly(s, w);
    hide PreferredLoop, FallbackLoop, PreferredAfterGate;
  }

  lemma AbortQuiet(s: State)
    requires QuietWhenOver(s)
    ensures QuietWhenOver(AbortStep(s))
  {
  }

  lemma SettleQuiet(s: State, w: nat, ok: bool)
    requires QuietWhenOver(s)
    ensures QuietWhenOver(SettleStep(s, w, ok))
  {
  }

  /** A worker touches the lists, its own state, the statuses and the starts. */
  predicate WorkerOnly(s: State, t: State) {
    t == s.(preferred := t.preferred, fallback := t.fallback, status := t.status, workers := t.workers, starts := t.starts)
  }

  lemma PreferredOnly(s: State, w: nat)
    ensures WorkerOnly(s, PreferredLoop(s, w))
  {
  }

  lemma AfterGateOnly(s: State, w: nat)
    ensures WorkerOnly(s, PreferredAfterGate(s, w))
  {
  }

  lemma FallbackOnly(s: State, w: nat)
    ensures WorkerOnly(s, FallbackLoop(s, w))
  {
  }

  /** No attempt of t that s had not called is called. */
  ghost predicate NothingNew(s: State, t: State) {
    && t.calls == s.calls && |t.attempts| == |s.attempts|
    && forall i :: 0 <= i < |s.attempts| && t.attempts[i].connect != NotCalled ==> s.attempts[i].connect != NotCalled
  }

  lemma OverStartsNothing(s: State, e: Event)
    requires Inv(s) && IsOver(s.main) && Quiet(s)
    ensures IsOver(Step(s, e).main) && NothingNew(s, Step(s, e))
  {
    hide Tracked, Control, Owned, StartStep, AbortStep, WorkerStep, SettleStep, MainStep, ProduceStep, RefuseStep;
    match e {
      case Start => OverMain(s);
      case OuterAbort => OverAborts(s);
      case WorkerResumes(w) => WorkerStepOnly(s, w);
      case ProbeSettles(w, ok) => OverSettles(s, w, ok);
      case ConnectProduces(c) => OverOutcome(s, c);
      case ConnectFails(c) => OverOutcome(s, c);
      case MainResumes => OverMain(s);
      case _ =>
    }
  }

  lemma OverMain(s: State)
    requires IsOver(s.main)
    ensures MainStep(s) == s && StartStep(s) == s
  {
  }

  lemma OverAborts(s: State)
    requires IsOver(s.main)
    ensures var t := AbortStep(s); t == s.(outer := t.outer, signalAborted := t.signalAborted)
  {
    hide SettleAttempt, AbortProbes;
  }

  lemma OverSettles(s: State, w: nat, ok: bool)
    requires IsOver(s.main)
    ensures var t := SettleStep(s, w, ok); t.main == s.main && t.calls == s.calls && t.attempts == s.attempts
  {
  }

  lemma OverOutcome(s: State, c: nat)
    requires ConnectionsOwned(s) && IsOver(s.main)
    ensures var t := ProduceStep(s, c); t.main == s.main && NothingNew(s, t)
    ensures var t := RefuseStep(s, c); t.main == s.main && NothingNew(s, t)
  {
    NoneLive(s, c);
    hide Owned;
  }

  lemma WorkerStepOnly(s: State, w: nat)
    ensures WorkerOnly(s, WorkerStep(s, w))
  {
    PreferredOnly(s, w);
    AfterGateOnly(s, w);
    FallbackOnly(s, w);
    hide PreferredLoop, FallbackLoop, PreferredAfterGate;
  }

  lemma NoneLive(s: State, c: nat)
    requires ConnectionsOwned(s) && IsOver(s.main)
    ensures c < |s.attempts| && s.attempts[c].connect == Connecting ==> s.attempts[c].inner == Settled
  {
    if c < |s.attempts| && s.attempts[c].connect == Connecting { LiveIsLast(s.main, s.attempts, s.outer, s.disposed, c); }
  }

  lemma {:induction false} RunKeepsQuiet(rank: seq<int>, events: seq<Event>)
    ensures QuietWhenOver(Run(rank, events))
  {
    hide Step, Inv, QuietWhenOver;
    if events == [] {
      InitQuiet(rank);
    } else {
      RunKeepsQuiet(rank, events[..|events| - 1]);
      RunKeepsInv(rank, events[..|events| - 1]);
      StepKeepsQuiet(Run(rank, events[..|events| - 1]), events[|events| - 1]);
    }
  }

  lemma InitQuiet(rank: seq<int>)
    ensures QuietWhenOver(Init(rank))
  {
  }

  /** Late probe results start nothing: once the body is over no probe and no connect is called, whatever settles. */
  lemma {:induction false} NothingStartsLate(rank: seq<int>, events: seq<Event>, more: seq<Event>)
    requires IsOver(Run(rank, events).main)
    ensures IsOver(Run(rank, events + more).main) && NothingNew(Run(rank, events), Run(rank, events + more))
  {
    hide Step, Inv;
    if more == [] {
      assert events + more == events;
    } else {
      var (init, last) := (events + more[..|more| - 1], more[|more| - 1]);
      assert (events + more)[..|events + more| - 1] == init;
      NothingStartsLate(rank, events, more[..|more| - 1]);
      RunKeepsInv(rank, init);
      RunKeepsQuiet(rank, init);
      OverStartsNothing(Run(rank, init), last);
    }
  }

  // ---- The call ----

  /** The local variables of one call; each method is the code one event runs, and takes the View as that event does. */
  class Race {
    const rank: seq<int>
    var status: seq<RouteStatus>
    var preferred: seq<nat>
    var fallback: seq<nat>
    var ready: seq<nat>
    var remaining: int
    var workers: seq<Worker>
    var gateOpen: bool
    var gateTimer: bool
    var signalAborted: bool
    var probesAborted: bool
    var main: Main
    var attempts: seq<Attempt>
    var outer: Outer
    ghost var starts: seq<nat>
    ghost var calls: seq<nat>
    var disposed: seq<nat>

    ghost function View(): State
      reads this
    {
      State(rank, status, preferred, fallback, ready, remaining, workers, gateOpen, gateTimer, signalAborted,
            probesAborted, main, attempts, outer, starts, calls, disposed)
    }

    constructor (rank: seq<int>)
      ensures View() == Init(rank)
    {
      var order := Sort(rank, Ids(|rank|));
      var best := if order == [] then 0 else RankOf(rank, order[0]);
      this.rank := rank;
      status := seq(|rank|, i => Waiting);
      preferred, fallback := Filter(rank, order, best, true), Filter(rank, order, best, false);
      ready, remaining, workers := [], |rank|, [Idle, Idle, Idle];
      gateOpen, gateTimer, signalAborted, probesAborted := false, false, false, false;
      main, attempts, outer := NotStarted, [], Open;
      starts, calls, disposed := [], [], [];
    }

    method WakeMain()
      modifies `main
      ensures View() == Wake(old(View()))
    {
      if main.Sleeping? { main := Sleeping(true); }
    }

    /** probes.abort(). */
    method AbortAllProbes()
      modifies `probesAborted, `gateOpen, `main
      ensures View() == AbortProbes(old(View()))
    {
      if probesAborted { return; }
      probesAborted, gateOpen := true, true;
      WakeMain();
    }

    method FinishBody(next: Main)
      modifies `probesAborted, `gateOpen, `gateTimer, `main
      ensures View() == Finish(old(View()), next)
    {
      main := next;
      gateTimer := false;
      AbortAllProbes();
      gateOpen := true;
    }

    method BeginProbing(w: nat, r: nat)
      modifies `status, `workers, `starts
      ensures View() == StartProbe(old(View()), w, r)
    {
      if r < |status| && w < |workers| {
        status, workers := status[r := InProbe(false)], workers[w := Probing(r)];
        starts := starts + [r];
      }
    }

    method Rest(w: nat, worker: Worker)
      modifies `workers
      ensures View() == SetWorker(old(View()), w, worker)
    {
      if w < |workers| { workers := workers[w := worker]; }
    }

    method RunPreferred(w: nat)
      modifies `preferred, `status, `workers, `starts
      ensures View() == PreferredLoop(old(View()), w)
    {
      if probesAborted {
        Rest(w, Done);
      } else if preferred != [] {
        var route := preferred[0];
        preferred := preferred[1..];
        BeginProbing(w, route);
      } else {
        Rest(w, AtGate);
      }
    }

    method RunPreferredAfterGate(w: nat)
      modifies `fallback, `status, `workers, `starts
      ensures View() == PreferredAfterGate(old(View()), w)
    {
      if fallback == [] {
        Rest(w, Done);
      } else {
        var next := fallback[0];
        fallback := fallback[1..];
        BeginProbing(w, next);
      }
    }

    method RunFallback(w: nat)
      modifies `preferred, `fallback, `status, `workers, `starts
      ensures View() == FallbackLoop(old(View()), w)
    {
      if probesAborted {
        Rest(w, Done);
      } else if fallback != [] {
        var route := fallback[0];
        fallback := fallback[1..];
        BeginProbing(w, route);
      } else if preferred != [] {
        var route := preferred[0];
        preferred := preferred[1..];
        BeginProbing(w, route);
      } else {
        Rest(w, Done);
      }
    }

    /** The authenticating loop from its head to its next await. */
    method RunMain()
      modifies this
      ensures View() == MainLoop(old(View()))
    {
      hide Sort;
      if signalAborted {
        FinishBody(Throwing(Cancellation));
        return;
      }
      var sorted := Sort(rank, ready);
      if sorted != [] {
        var candidate := sorted[0];
        if candidate < |status| {
          ready := sorted[1..];
          status := status[candidate := Attempted];
          attempts := attempts + [Attempt(candidate, Unstarted, NotCalled)];
          main := Authenticating(Pending);
        }
      } else if remaining == 0 {
        ready := [];
        FinishBody(Throwing(Exhausted));
      } else {
        ready, main := [], Sleeping(false);
      }
    }

    method Launch()
      modifies `preferred, `status, `workers, `starts
      ensures View() == LaunchWorkers(old(View()))
    {
      hide PreferredLoop, SetWorker;
      RunPreferred(0);
      RunPreferred(1);
      Rest(2, AtGate);
    }

    method OnStart()
      modifies this
      ensures View() == StartStep(old(View()))
    {
      hide LaunchWorkers, MainLoop, Sort;
      if main != NotStarted { return; }
      if signalAborted {
        main := Finished;
      } else if rank == [] {
        main := Throwing(Exhausted);
      } else {
        gateOpen, gateTimer := fallback == [], fallback != [];
        LaunchAndRun();
      }
    }

    method LaunchAndRun()
      modifies this
      ensures View() == MainLoop(LaunchWorkers(old(View())))
    {
      hide LaunchWorkers, MainLoop, Sort;
      Launch();
      RunMain();
    }

    method SettleLast(i: nat, connect: Connect, result: Result)
      modifies `attempts, `main
      ensures View() == SettleAttempt(old(View()), i, connect, result)
    {
      if i < |attempts| {
        attempts := attempts[i := attempts[i].(inner := Settled, connect := connect)];
        main := Authenticating(result);
      }
    }

    /** abort of the outer operation, by its timer or by the caller. */
    method OnOuterAbort()
      modifies this
      ensures View() == AbortStep(old(View()))
    {
      hide AbortProbes, SettleAttempt, MainLoop, LaunchWorkers;
      if outer != Open { return; }
      outer, signalAborted := Rejected(Cancellation), true;
      if main.NotStarted? || main.Returning? || main.Throwing? || main.Finished? { return; }
      if main == Authenticating(Pending) && attempts != [] {
        SettleLast(|attempts| - 1, attempts[|attempts| - 1].connect, Error);
      }
      AbortAllProbes();
    }

    method OnGateTimer()
      modifies `gateTimer, `gateOpen
      ensures View() == GateStep(old(View()))
    {
      hide MainLoop, LaunchWorkers;
      if gateTimer { gateTimer, gateOpen := false, true; }
    }

    method OnWorker(w: nat)
      modifies this
      ensures View() == WorkerStep(old(View()), w)
    {
      hide PreferredLoop, PreferredAfterGate, FallbackLoop, MainLoop, LaunchWorkers;
      if w >= |workers| { return; }
      if workers[w] == Resumable {
        if w < 2 { RunPreferred(w); } else { RunFallback(w); }
      } else if workers[w] == AtGate && gateOpen {
        if w < 2 { RunPreferredAfterGate(w); } else { RunFallback(w); }
      }
    }

    /** The end of probe(route): its try block, or its catch block, then its finally block. */
    method OnProbeSettled(w: nat, ok: bool)
      requires w < |workers| && workers[w].Probing? && workers[w].route < |status|
      requires status[workers[w].route] == InProbe(true) || (status[workers[w].route] == InProbe(false) && probesAborted && !ok)
      modifies this
      ensures View() == SettleStep(old(View()), w, ok)
    {
      hide MainLoop, LaunchWorkers, PreferredLoop, PreferredAfterGate, FallbackLoop, AbortProbes, Finish, SettleAttempt, Wake;
      var route := workers[w].route;
      var outcome := if probesAborted then Cancelled else if ok then RouteStatus.Ready else Failed;
      NoteOutcome(w, route, outcome);
      WakeMain();
    }

    method NoteOutcome(w: nat, route: nat, outcome: RouteStatus)
      requires w < |workers| && route < |status|
      modifies `ready, `status, `workers, `remaining
      ensures status == old(status)[route := outcome] && workers == old(workers)[w := Resumable]
      ensures ready == (if outcome == RouteStatus.Ready then old(ready) + [route] else old(ready)) && remaining == old(remaining) - 1
    {
      if outcome == RouteStatus.Ready { ready := ready + [route]; }
      status := status[route := outcome];
      workers := workers[w := Resumable];
      remaining := remaining - 1;
    }

    method OnMain()
      modifies this
      ensures View() == MainStep(old(View()))
    {
      hide MainLoop, LaunchWorkers, Finish;
      if main == Sleeping(true) || main == Authenticating(Error) {
        RunMain();
      } else if main == Authenticating(Value) && attempts != [] {
        FinishBody(Returning(|attempts| - 1));
      }
    }

    /** The inner bounded operation gets a value: the last attempt takes it, a settled one disposes of it. */
    method OnConnected(i: nat)
      requires i < |attempts| && attempts[i].connect == Connecting
      modifies `attempts, `main, `disposed
      ensures View() == ProduceStep(old(View()), i)
    {
      hide MainLoop, LaunchWorkers;
      if attempts[i].inner == Live {
        SettleLast(i, Produced, Value);
      } else {
        attempts := attempts[i := attempts[i].(connect := Produced)];
        disposed := disposed + [i];
      }
    }

    method OnConnectFailed(i: nat)
      requires i < |attempts| && attempts[i].connect == Connecting
      modifies `attempts, `main
      ensures View() == RefuseStep(old(View()), i)
    {
      hide MainLoop, LaunchWorkers;
      if attempts[i].inner == Live {
        SettleLast(i, Refused, Error);
      } else {
        attempts := attempts[i := attempts[i].(connect := Refused)];
      }
    }

    /** The outer bounded operation gets the value or the error of its body. */
    method OnDelivered()
      modifies `outer, `main, `disposed
      ensures View() == DeliverStep(old(View()))
    {
      hide MainLoop, LaunchWorkers;
      match main
      case Returning(c) =>
        main := Finished;
        if outer == Open {
          outer := Resolved(c);
        } else {
          disposed := disposed + [c];
        }
      case Throwing(reason) =>
        main := Finished;
        if outer == Open { outer := Rejected(reason); }
      case _ =>
    }
  }
}
