/**
 * The FIFO semaphore of machine-route-connect.ts. A call of run is identified by its arrival number.
 * Each event is the code between two awaits, so every interleaving of calls is a sequence of events.
 */
module MeshSemaphore {

  import opened Prelude

  datatype Phase =
    | Queued     // enter is in the queue and the abort listener is armed
    | Entered    // holds a slot, its continuation has not run yet
    | Running    // operation() was called
    | Finished   // operation() settled and the slot was released
    | Skipped    // aborted between entry and start: released without running
    | Rejected   // aborted before entry: never held a slot

  datatype Event =
    | Arrive(alreadyAborted: bool)
    | Abort(waiter: nat)
    | Resume(waiter: nat)
    | Settle(waiter: nat)

  /** entries, releases and early are histories: order of entry, order of release, aborted before starting. */
  datatype State = State(limit: nat, active: int, queue: seq<nat>, phase: seq<Phase>, aborted: set<nat>,
                         entries: seq<nat>, releases: seq<nat>, early: set<nat>)

  function Init(limit: nat): State {
    State(limit, 0, [], [], {}, [], [], {})
  }

  function Enter(s: State, w: nat): State
    requires w < |s.phase|
  {
    s.(active := s.active + 1, phase := s.phase[w := Entered], entries := s.entries + [w])
  }

  /** The finally block: give the slot back and let the oldest queued call in. */
  function Release(s: State, w: nat, outcome: Phase): State
    requires w < |s.phase|
  {
    var t := s.(active := s.active - 1, phase := s.phase[w := outcome], releases := s.releases + [w]);
    if t.queue == [] || t.queue[0] >= |t.phase| then t
    else Enter(t.(queue := t.queue[1..]), t.queue[0])
  }

  function Without(q: seq<nat>, w: nat): seq<nat> {
    if q == [] then [] else if q[0] == w then q[1..] else [q[0]] + Without(q[1..], w)
  }

  function Step(s: State, e: Event): State {
    match e
    case Arrive(alreadyAborted) =>
      var w := |s.phase|;
      var t := s.(phase := s.phase + [Queued]);
      if alreadyAborted then
        t.(phase := s.phase + [Rejected], aborted := s.aborted + {w}, early := s.early + {w})
      else if s.active < s.limit then Enter(t, w)
      else t.(queue := s.queue + [w])
    case Abort(w) =>
      if w >= |s.phase| || w in s.aborted then s
      else
        var t := s.(aborted := s.aborted + {w},
                    early := if s.phase[w] in {Queued, Entered} then s.early + {w} else s.early);
        if s.phase[w] == Queued then t.(queue := Without(s.queue, w), phase := s.phase[w := Rejected]) else t
    case Resume(w) =>
      if w >= |s.phase| || s.phase[w] != Entered then s
      else if w in s.aborted then Release(s, w, Skipped)
      else s.(phase := s.phase[w := Running])
    case Settle(w) =>
      if w >= |s.phase| || s.phase[w] != Running then s else Release(s, w, Finished)
  }

  function Run(limit: nat, events: seq<Event>): State {
    if events == [] then Init(limit) else Step(Run(limit, events[..|events| - 1]), events[|events| - 1])
  }

  // ---- The invariant ----

  predicate Holds(p: Phase) { p == Entered || p == Running }

  ghost function Holders(phase: seq<Phase>): set<nat> {
    set w: nat | w < |phase| && Holds(phase[w])
  }

  ghost predicate Increasing(s: seq<nat>) {
    forall i, j :: 0 <= i < j < |s| ==> s[i] < s[j]
  }

  predicate HasEntered(p: Phase) { p != Queued && p != Rejected }

  predicate HasReleased(p: Phase) { p == Finished || p == Skipped }

  ghost predicate NoDuplicates(s: seq<nat>) {
    forall i, j :: 0 <= i < j < |s| ==> s[i] != s[j]
  }

  /** Everything but the tightness of the slots. */
  ghost predicate Core(s: State) {
    && s.active == |Holders(s.phase)|
    && Increasing(s.entries) && Increasing(s.queue) && NoDuplicates(s.releases)
    && (forall x, y :: x in s.entries && y in s.queue ==> x < y)
    && (forall w: nat :: w in s.queue <==> w < |s.phase| && s.phase[w] == Queued)
    && (forall w: nat :: w in s.entries <==> w < |s.phase| && HasEntered(s.phase[w]))
    && (forall w: nat :: w in s.releases <==> w < |s.phase| && HasReleased(s.phase[w]))
    && (forall w: nat :: w < |s.phase| ==> AbortsRecorded(s.phase[w], w in s.early, w in s.aborted))
    && (forall w :: w in s.early || w in s.aborted ==> w < |s.phase|)
  }

  /** A call aborted before it started never runs, and only such a call is rejected or skipped. */
  predicate AbortsRecorded(p: Phase, early: bool, aborted: bool) {
    && (early ==> aborted && p !in {Queued, Running, Finished})
    && (p in {Rejected, Skipped} ==> early)
    && (aborted && p in {Queued, Entered} ==> p == Entered && early)
  }

  ghost predicate Inv(s: State) {
    && Core(s)
    && 0 < s.limit && s.active <= s.limit
    && (s.queue != [] ==> s.active == s.limit)
  }

  lemma HoldersUpdate(phase: seq<Phase>, w: nat, p: Phase)
    requires w < |phase|
    ensures |Holders(phase[w := p])| ==
            |Holders(phase)| + (if Holds(p) then 1 else 0) - (if Holds(phase[w]) then 1 else 0)
  {
    var after := phase[w := p];
    CardRemove(Holders(phase), w);
    CardRemove(Holders(after), w);
    SameElsewhere(phase, after, w);
    assert w in Holders(phase) <==> Holds(phase[w]);
    assert w in Holders(after) <==> Holds(p);
    hide *;
  }

  lemma SameElsewhere(before: seq<Phase>, after: seq<Phase>, w: nat)
    requires |before| == |after| && forall x: nat :: x < |before| && x != w ==> before[x] == after[x]
    ensures Holders(after) - {w} == Holders(before) - {w}
  {
    hide Holds;
  }

  lemma {:induction false} WithoutRemoves(q: seq<nat>, w: nat)
    requires Increasing(q)
    ensures Increasing(Without(q, w))
    ensures forall x :: x in Without(q, w) <==> x in q && x != w
  {
    if q != [] {
      assert q == [q[0]] + q[1..];
      WithoutRemoves(q[1..], w);
      if q[0] != w {
        Prepend(q[0], Without(q[1..], w));
      }
    }
  }

  lemma Prepend(x: nat, q: seq<nat>)
    requires Increasing(q) && forall y :: y in q ==> x < y
    ensures Increasing([x] + q)
  {
    forall i, j | 0 <= i < j < |q| + 1
      ensures ([x] + q)[i] < ([x] + q)[j]
    {
      assert q[j - 1] in q;
    }
  }

  lemma Append(q: seq<nat>, x: nat)
    requires Increasing(q) && forall y :: y in q ==> y < x
    ensures Increasing(q + [x])
  {
    assert forall i :: 0 <= i < |q| ==> q[i] in q;
  }

  // ---- Each primitive keeps the core ----

  lemma QueueKeepsCore(s: State)
    requires Core(s)
    ensures Core(s.(phase := s.phase + [Queued], queue := s.queue + [|s.phase|]))
  {
    Append(s.queue, |s.phase|);
    assert Holders(s.phase + [Queued]) == Holders(s.phase);
  }

  lemma RejectKeepsCore(s: State)
    requires Core(s)
    ensures var w := |s.phase|;
            Core(s.(phase := s.phase + [Rejected], aborted := s.aborted + {w}, early := s.early + {w}))
  {
    assert Holders(s.phase + [Rejected]) == Holders(s.phase);
  }

  function EnterHead(s: State): State
    requires s.queue != [] && s.queue[0] < |s.phase|
  {
    Enter(s.(queue := s.queue[1..]), s.queue[0])
  }

  lemma EnterHeadKeepsCore(s: State)
    requires Core(s) && s.queue != []
    ensures s.queue[0] < |s.phase| && Core(EnterHead(s))
  {
    hide Increasing, NoDuplicates, Holders;
    var w := s.queue[0];
    HeadOfIncreasing(s.queue);
    HoldersUpdate(s.phase, w, Entered);
    Append(s.entries, w);
  }

  lemma HeadOfIncreasing(q: seq<nat>)
    requires Increasing(q) && q != []
    ensures Increasing(q[1..]) && q[0] in q
    ensures forall x :: x in q[1..] <==> x in q && x != q[0]
    ensures forall x :: x in q[1..] ==> q[0] < x
  {
    assert q == [q[0]] + q[1..];
  }

  lemma StartKeepsCore(s: State, w: nat)
    requires Core(s) && w < |s.phase| && s.phase[w] == Entered && w !in s.aborted
    ensures Core(s.(phase := s.phase[w := Running]))
  {
    HoldersUpdate(s.phase, w, Running);
  }

  lemma AbortKeepsCore(s: State, w: nat)
    requires Core(s)
    ensures Core(Step(s, Abort(w)))
  {
    if w < |s.phase| && w !in s.aborted && s.phase[w] == Queued {
      WithoutRemoves(s.queue, w);
      HoldersUpdate(s.phase, w, Rejected);
    }
  }

  lemma GiveBackKeepsCore(s: State, w: nat, outcome: Phase)
    requires Core(s) && w < |s.phase| && HasReleased(outcome)
    requires if outcome == Skipped then s.phase[w] == Entered && w in s.aborted else s.phase[w] == Running
    ensures Core(s.(active := s.active - 1, phase := s.phase[w := outcome], releases := s.releases + [w]))
  {
    HoldersUpdate(s.phase, w, outcome);
  }

  lemma InitInv(limit: nat)
    requires limit > 0
    ensures Inv(Init(limit))
  {
    assert Holders([]) == {};
  }

  lemma StepKeepsInv(s: State, e: Event)
    requires Inv(s)
    ensures Inv(Step(s, e)) && Step(s, e).limit == s.limit
  {
    hide Core;
    match e {
      case Arrive(alreadyAborted) =>
        QueueKeepsCore(s);
        RejectKeepsCore(s);
        if !alreadyAborted && s.active < s.limit {
          assert s.queue == [] && (s.queue + [|s.phase|])[1..] == s.queue;
          EnterHeadKeepsCore(s.(phase := s.phase + [Queued], queue := s.queue + [|s.phase|]));
        }
      case Abort(w) => AbortKeepsCore(s, w);
      case Resume(w) =>
        if w < |s.phase| && s.phase[w] == Entered {
          if w in s.aborted { ReleaseKeepsInv(s, w, Skipped); } else { StartKeepsCore(s, w); }
        }
      case Settle(w) =>
        if w < |s.phase| && s.phase[w] == Running { ReleaseKeepsInv(s, w, Finished); }
    }
  }

  lemma ReleaseKeepsInv(s: State, w: nat, outcome: Phase)
    requires Inv(s) && w < |s.phase| && HasReleased(outcome)
    requires if outcome == Skipped then s.phase[w] == Entered && w in s.aborted else s.phase[w] == Running
    ensures Inv(Release(s, w, outcome))
  {
    hide Core;
    var t := s.(active := s.active - 1, phase := s.phase[w := outcome], releases := s.releases + [w]);
    GiveBackKeepsCore(s, w, outcome);
    if t.queue != [] { EnterHeadKeepsCore(t); }
  }

  /** Every reachable state satisfies the invariant, whatever the interleaving. */
  lemma {:induction false} RunKeepsInv(limit: nat, events: seq<Event>)
    requires limit > 0
    ensures Inv(Run(limit, events)) && Run(limit, events).limit == limit
  {
    hide Inv, Step;
    InitInv(limit);
    if events != [] {
      RunKeepsInv(limit, events[..|events| - 1]);
      StepKeepsInv(Run(limit, events[..|events| - 1]), events[|events| - 1]);
    }
  }

  // ---- What callers may rely on ----

  /** A call that entered was overtaken by nobody: every earlier arrival entered before it or was rejected. */
  lemma FirstInFirstOut(limit: nat, events: seq<Event>, a: nat, b: nat)
    requires limit > 0 && a < b && b in Run(limit, events).entries
    ensures var s := Run(limit, events);
            && (forall i, j :: 0 <= i < |s.entries| && 0 <= j < |s.entries| && s.entries[i] == a && s.entries[j] == b ==> i < j)
            && a < |s.phase|
            && (a in s.entries || (s.phase[a] == Rejected && a in s.aborted))
  {
    RunKeepsInv(limit, events);
    var s := Run(limit, events);
    assert b < |s.phase|;
    assert a in s.queue <==> s.phase[a] == Queued;
    assert AbortsRecorded(s.phase[a], a in s.early, a in s.aborted);
  }

  lemma {:induction false} EarlyStaysEarly(limit: nat, events: seq<Event>, more: seq<Event>, w: nat)
    requires w in Run(limit, events).early
    ensures w in Run(limit, events + more).early
  {
    if more == [] {
      assert events + more == events;
    } else {
      var init, last := more[..|more| - 1], more[|more| - 1];
      EarlyStaysEarly(limit, events, init, w);
      assert (events + more)[..|events + more| - 1] == events + init;
      assert (events + more)[|events + more| - 1] == last;
    }
  }

  /** A call aborted while it waits, or after it got a slot but before it started, never runs its operation. */
  lemma AbortedNeverRuns(limit: nat, events: seq<Event>, w: nat, more: seq<Event>)
    requires limit > 0 && w < |Run(limit, events).phase|
    requires Run(limit, events).phase[w] in {Queued, Entered}
    ensures var s := Run(limit, events + [Abort(w)] + more);
            w < |s.phase| && s.phase[w] in {Entered, Rejected, Skipped}
  {
    RunKeepsInv(limit, events);
    var s := Run(limit, events);
    assert AbortsRecorded(s.phase[w], w in s.early, w in s.aborted);
    var aborted := events + [Abort(w)];
    assert aborted[..|aborted| - 1] == events && aborted[|aborted| - 1] == Abort(w);
    assert w in Run(limit, aborted).early;
    EarlyStaysEarly(limit, aborted, more, w);
    RunKeepsInv(limit, aborted + more);
    var t := Run(limit, aborted + more);
    assert AbortsRecorded(t.phase[w], w in t.early, w in t.aborted);
  }

  lemma FirstIsMember(q: seq<nat>)
    ensures q == [] || q[0] in q
  {
  }

  ghost predicate Settled(p: Phase) { p in {Finished, Skipped, Rejected} }

  ghost function Elements(s: seq<nat>): set<nat> {
    set x | x in s
  }

  lemma {:induction false} ElementsCard(s: seq<nat>)
    requires NoDuplicates(s)
    ensures |Elements(s)| == |s|
  {
    if s == [] {
      assert Elements(s) == {};
    } else {
      var n := |s| - 1;
      ElementsCard(s[..n]);
      assert s == s[..n] + [s[n]];
      assert Elements(s) == Elements(s[..n]) + {s[n]};
    }
  }

  /** Those who entered hold a slot or have released it. */
  lemma EnteredOrReleased(entries: seq<nat>, releases: seq<nat>, phase: seq<Phase>)
    requires Increasing(entries)
    requires forall w: nat :: w in entries <==> w < |phase| && HasEntered(phase[w])
    requires forall w: nat :: w in releases <==> w < |phase| && HasReleased(phase[w])
    ensures Elements(entries) == Elements(releases) + Holders(phase) && Elements(releases) !! Holders(phase)
    ensures NoDuplicates(entries)
  {
  }

  /**
   * No slot is lost, given back twice, or given back by a call that never took it: at any time each call has
   * entered at most once, released at most once and only after entering, and the slots in use are the
   * difference. Once every call has settled each slot taken was given back.
   */
  lemma SlotsConserved(limit: nat, events: seq<Event>)
    requires limit > 0
    ensures var s := Run(limit, events);
            && NoDuplicates(s.entries) && NoDuplicates(s.releases)
            && (forall w :: w in s.releases ==> w in s.entries)
            && s.active == |s.entries| - |s.releases|
            && ((forall p :: p in s.phase ==> Settled(p)) ==>
                  s.active == 0 && s.queue == [] && forall w :: w in s.entries ==> w in s.releases)
  {
    RunKeepsInv(limit, events);
    var s := Run(limit, events);
    hide Run;
    EnteredOrReleased(s.entries, s.releases, s.phase);
    ElementsCard(s.entries);
    ElementsCard(s.releases);
    if forall p :: p in s.phase ==> Settled(p) { AllGivenBack(s); }
    forall w | w in s.releases
      ensures w in s.entries
    {
      assert HasEntered(s.phase[w]);
    }
  }

  lemma AllGivenBack(s: State)
    requires Core(s) && forall p :: p in s.phase ==> Settled(p)
    ensures s.active == 0 && s.queue == [] && forall w :: w in s.entries ==> w in s.releases
  {
    FirstIsMember(s.queue);
    assert forall w: nat :: w < |s.phase| ==> Settled(s.phase[w]);
    assert Holders(s.phase) == {};
  }

  /** A waiting call is never stranded: every slot is held, and the next release lets the oldest one in. */
  lemma ReleaseWakesTheOldest(limit: nat, events: seq<Event>, w: nat)
    requires limit > 0 && w < |Run(limit, events).phase| && Run(limit, events).phase[w] == Running
    requires Run(limit, events).queue != []
    ensures var s, t := Run(limit, events), Step(Run(limit, events), Settle(w));
            && |Holders(s.phase)| == limit
            && t.entries == s.entries + [s.queue[0]] && t.queue == s.queue[1..] && t.active == s.active
  {
    RunKeepsInv(limit, events);
    var s := Run(limit, events);
    assert s.queue[0] in s.queue;
  }

  // ---- The class ----

  class Semaphore {
    const limit: nat
    var active: int
    var queue: seq<nat>
    // Progress of each call's promise, and the calls whose signal has fired.
    var phase: seq<Phase>
    var aborted: set<nat>
    ghost var entries: seq<nat>
    ghost var releases: seq<nat>
    ghost var early: set<nat>

    ghost function View(): State
      reads this
    {
      State(limit, active, queue, phase, aborted, entries, releases, early)
    }

    constructor (limit: nat)
      ensures View() == Init(limit)
    {
      this.limit := limit;
      active, queue, phase, aborted := 0, [], [], {};
      entries, releases, early := [], [], {};
    }

    method EnterCall(w: nat)
      requires w < |phase|
      modifies this
      ensures View() == Enter(old(View()), w)
    {
      active := active + 1;
      phase := phase[w := Entered];
      entries := entries + [w];
    }

    /** The synchronous start of run: enter at once, queue, or reject. */
    method Arrive(alreadyAborted: bool) returns (w: nat)
      modifies this
      ensures w == |old(phase)| && View() == Step(old(View()), Event.Arrive(alreadyAborted))
    {
      w := |phase|;
      if alreadyAborted {
        phase := phase + [Rejected];
        aborted, early := aborted + {w}, early + {w};
      } else {
        phase := phase + [Queued];
        if active < limit {
          EnterCall(w);
        } else {
          queue := queue + [w];
        }
      }
    }

    /** The caller's signal fires; only a queued call still listens. */
    method Abort(w: nat)
      modifies this
      ensures View() == Step(old(View()), Event.Abort(w))
    {
      if w < |phase| && w !in aborted {
        aborted := aborted + {w};
        if phase[w] in {Queued, Entered} { early := early + {w}; }
        if phase[w] == Queued {
          queue := Without(queue, w);
          phase := phase[w := Rejected];
        }
      }
    }

    /** The code after the await: start the operation, or give the slot straight back. */
    method Resume(w: nat)
      modifies this
      ensures View() == Step(old(View()), Event.Resume(w))
    {
      if w < |phase| && phase[w] == Entered {
        if w in aborted {
          Leave(w, Skipped);
        } else {
          phase := phase[w := Running];
        }
      }
    }

    method Settle(w: nat)
      modifies this
      ensures View() == Step(old(View()), Event.Settle(w))
    {
      if w < |phase| && phase[w] == Running {
        Leave(w, Finished);
      }
    }

    method Leave(w: nat, outcome: Phase)
      requires w < |phase|
      modifies this
      ensures View() == Release(old(View()), w, outcome)
    {
      active := active - 1;
      phase := phase[w := outcome];
      releases := releases + [w];
      if queue != [] && queue[0] < |phase| {
        var next := queue[0];
        queue := queue[1..];
        EnterCall(next);
      }
    }
  }
}
