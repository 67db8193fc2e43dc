/**
 * MobileMeshNetworkMonitor: single-flight sampling of the network state, driven by timers, foreground
 * changes and demand. Each event is one uninterrupted call or callback; demand is the answer hasDemand()
 * would give now, and notified says whether demandChanged() was called since it last changed.
 */
module NetworkMonitor {

  import opened Prelude

  /** What read() resolves to; an absent field and a null one are told apart only where the code does. */
  datatype NetworkState = NetworkState(kind: Option<string>, isConnected: Option<bool>, ip: Option<string>)

  datatype Fingerprint = Fingerprint(kind: string, isConnected: Option<bool>, ip: Option<string>)

  function FingerprintOf(n: NetworkState): Fingerprint {
    Fingerprint(if n.kind.Some? then n.kind.value else "unknown", n.isConnected,
                if n.ip == Some("0.0.0.0") then None else n.ip)
  }

  datatype Event =
    | Start(active: bool)
    | SetForeground(active: bool)
    | DemandSet(demand: bool)      // the environment changes its mind
    | DemandChanged                // and says so
    | Stop
    | ListenerFires
    | DebounceFires
    | PollFires
    | ReadSucceeds(state: NetworkState)
    | ReadFails

  /**
   * Reads ever started, reads started and not settled, whether the outstanding read was interrupted by a
   * foreground change or a stop, the fingerprints accepted, the calls of changed().
   */
  datatype History = History(started: nat, outstanding: int, interrupted: bool, accepted: seq<Fingerprint>, changes: nat)

  datatype State = State(active: bool, stopped: bool, generation: nat, fingerprint: Option<Fingerprint>,
                         timer: bool, debounce: bool, reading: bool, readAgain: bool,
                         demand: bool, notified: bool, readGeneration: nat, history: History)

  const INITIAL := State(false, true, 0, None, false, false, false, false, false, true, 0, History(0, 0, false, [], 0))

  predicate Wanted(s: State) {
    !s.stopped && s.active && s.demand
  }

  function BeginRead(h: History): History {
    h.(started := h.started + 1, outstanding := h.outstanding + 1, interrupted := false)
  }

  function Interrupt(h: History): History {
    h.(interrupted := true)
  }

  function EndRead(h: History): History {
    h.(outstanding := h.outstanding - 1)
  }

  function AcceptInto(h: History, next: Fingerprint, differs: bool): History {
    h.(accepted := h.accepted + [next], changes := h.changes + if differs then 1 else 0)
  }

  function Sample(s: State): State {
    if !Wanted(s) then s
    else if s.reading then s.(readAgain := true)
    else s.(reading := true, readGeneration := s.generation, history := BeginRead(s.history))
  }

  function ClearTimers(s: State): State {
    s.(timer := false, debounce := false)
  }

  function Foreground(s: State, active: bool): State {
    var t := ClearTimers(s.(active := active, generation := s.generation + 1, history := Interrupt(s.history)));
    if active && !s.stopped then Sample(t) else t
  }

  /** The part of sample() after the await, up to the finally block. */
  function Accept(s: State, next: Fingerprint): State {
    if s.readGeneration != s.generation || !Wanted(s) then s
    else s.(fingerprint := Some(next),
            history := AcceptInto(s.history, next, s.fingerprint.Some? && s.fingerprint.value != next))
  }

  function SettleRead(s: State): State {
    var t := s.(reading := false, history := EndRead(s.history));
    if t.readAgain then Sample(t.(readAgain := false))
    else if Wanted(t) && !t.timer then t.(timer := true)
    else t
  }

  function Step(s: State, e: Event): State {
    match e
    case Start(active) => if !s.stopped then s else Foreground(s.(stopped := false), active)
    case SetForeground(active) => Foreground(s, active)
    case DemandSet(demand) => if demand == s.demand then s else s.(demand := demand, notified := false)
    case DemandChanged =>
      var t := s.(notified := true);
      if t.stopped || !t.active then t
      else if !t.demand then ClearTimers(t)
      else if !t.timer then Sample(t)
      else t
    case Stop => ClearTimers(s.(stopped := true, generation := s.generation + 1, history := Interrupt(s.history)))
    case ListenerFires => if Wanted(s) then s.(debounce := true) else s
    case DebounceFires => if s.debounce then Sample(s.(debounce := false)) else s
    case PollFires => if s.timer then Sample(s.(timer := false)) else s
    case ReadSucceeds(state) => if s.reading then SettleRead(Accept(s, FingerprintOf(state))) else s
    case ReadFails => if s.reading then SettleRead(s) else s
  }

  function Run(events: seq<Event>): State {
    if events == [] then INITIAL else Step(Run(events[..|events| - 1]), events[|events| - 1])
  }

  /** How many neighbours in a sequence of fingerprints differ. */
  function Differences(fs: seq<Fingerprint>): nat {
    if |fs| < 2 then 0
    else Differences(fs[..|fs| - 1]) + if fs[|fs| - 1] != fs[|fs| - 2] then 1 else 0
  }

  ghost predicate Inv(s: State) {
    Consistent(s) && (Wanted(s) && s.notified ==> s.reading || s.timer)
  }

  ghost predicate Consistent(s: State) {
    && s.history.outstanding == (if s.reading then 1 else 0)
    && (s.readAgain ==> s.reading)
    && (s.timer || s.debounce ==> s.active && !s.stopped)
    && (s.reading ==> s.readGeneration <= s.generation && (s.history.interrupted <==> s.readGeneration < s.generation))
    && s.history.changes == Differences(s.history.accepted)
    && s.fingerprint == (if s.history.accepted == [] then None else Some(s.history.accepted[|s.history.accepted| - 1]))
  }

  lemma AppendDifference(fs: seq<Fingerprint>, f: Fingerprint)
    ensures Differences(fs + [f]) == Differences(fs) + if fs != [] && fs[|fs| - 1] != f then 1 else 0
  {
    assert (fs + [f])[..|fs|] == fs;
  }

  lemma SampleReads(s: State)
    requires Consistent(s)
    ensures var t := Sample(s);
            && Consistent(t) && Wanted(t) == Wanted(s) && t.notified == s.notified && t.timer == s.timer
            && (Wanted(s) ==> t.reading)
  {
    hide Differences;
  }

  lemma ForegroundKeepsInv(s: State, active: bool)
    requires Consistent(s)
    ensures Inv(Foreground(s, active))
  {
    hide Differences, Sample;
    var t := ClearTimers(s.(active := active, generation := s.generation + 1, history := Interrupt(s.history)));
    assert Consistent(t);
    SampleReads(t);
  }

  lemma SettleKeepsInv(s: State)
    requires Consistent(s) && s.reading
    ensures Inv(SettleRead(s))
  {
    hide Differences, Sample;
    var t := s.(reading := false, history := EndRead(s.history), readAgain := false);
    assert Consistent(t);
    SampleReads(t);
  }

  lemma AcceptKeepsConsistent(s: State, next: Fingerprint)
    requires Consistent(s)
    ensures Consistent(Accept(s, next)) && Accept(s, next).reading == s.reading
  {
    AppendDifference(s.history.accepted, next);
    hide Differences;
  }

  lemma StepKeepsInv(s: State, e: Event)
    requires Inv(s)
    ensures Inv(Step(s, e))
  {
    hide Differences, Sample, Foreground, SettleRead, Accept;
    match e {
      case Start(active) => ForegroundKeepsInv(s.(stopped := false), active);
      case SetForeground(active) => ForegroundKeepsInv(s, active);
      case DemandChanged => SampleReads(s.(notified := true));
      case DebounceFires => SampleReads(s.(debounce := false));
      case PollFires => SampleReads(s.(timer := false));
      case ReadSucceeds(state) =>
        if s.reading {
          AcceptKeepsConsistent(s, FingerprintOf(state));
          SettleKeepsInv(Accept(s, FingerprintOf(state)));
        }
      case ReadFails => if s.reading { SettleKeepsInv(s); }
      case _ =>
    }
  }

  lemma {:induction false} RunKeepsInv(events: seq<Event>)
    ensures Inv(Run(events))
  {
    if events != [] {
      RunKeepsInv(events[..|events| - 1]);
      StepKeepsInv(Run(events[..|events| - 1]), events[|events| - 1]);
    }
  }

  // ---- What callers may rely on ----

  /** Never two reads at once. */
  lemma SingleFlight(events: seq<Event>)
    ensures 0 <= Run(events).history.outstanding <= 1
  {
    RunKeepsInv(events);
  }

  /** Running, in the foreground and in demand, the monitor is reading or about to, unless a demand change is unannounced. */
  lemma AlwaysSampling(events: seq<Event>)
    requires Wanted(Run(events)) && Run(events).notified
    ensures Run(events).reading || Run(events).timer
  {
    RunKeepsInv(events);
  }

  /** changed() was called once for every two successive accepted fingerprints that differ, and never otherwise. */
  lemma ChangesAreDifferences(events: seq<Event>)
    ensures Run(events).history.changes == Differences(Run(events).history.accepted)
  {
    RunKeepsInv(events);
  }

  /** Only a read that no foreground change and no stop interrupted is accepted, and only while it is still wanted. */
  lemma AcceptedExactlyWhenCurrent(events: seq<Event>, state: NetworkState)
    requires Run(events).reading
    ensures var s, t := Run(events), Run(events + [ReadSucceeds(state)]);
            t.history.accepted == if !s.history.interrupted && Wanted(s) then s.history.accepted + [FingerprintOf(state)]
                                  else s.history.accepted
  {
    RunKeepsInv(events);
    var all := events + [ReadSucceeds(state)];
    assert all[..|all| - 1] == events;
    hide FingerprintOf, Differences;
    SettleAcceptsNothing(Accept(Run(events), FingerprintOf(state)));
  }

  lemma SettleAcceptsNothing(s: State)
    ensures SettleRead(s).history.accepted == s.history.accepted && SettleRead(s).history.changes == s.history.changes
  {
  }

  /** One step of a stopped monitor that is not a start. */
  lemma StoppedStaysSilent(s: State, e: Event)
    requires s.stopped && !s.timer && !s.debounce && !e.Start?
    ensures var t := Step(s, e);
            && t.stopped && !t.timer && !t.debounce
            && t.history.started == s.history.started
            && t.history.changes == s.history.changes && t.history.accepted == s.history.accepted
  {
    hide FingerprintOf;
    NothingSampled(s);
  }

  lemma NothingSampled(s: State)
    requires s.stopped
    ensures Sample(s) == s && forall f :: Accept(s, f) == s
  {
  }

  /** Silence after stop: until the next start no timer is armed, no read begins and changed() is not called. */
  lemma {:induction false} SilentAfterStop(events: seq<Event>, more: seq<Event>)
    requires forall e :: e in more ==> !e.Start?
    ensures var s, t := Run(events + [Stop]), Run(events + [Stop] + more);
            && t.stopped && !t.timer && !t.debounce
            && t.history.started == s.history.started
            && t.history.changes == s.history.changes && t.history.accepted == s.history.accepted
  {
    var stopped := events + [Stop];
    if more == [] {
      assert stopped + more == stopped && stopped[..|stopped| - 1] == events;
    } else {
      var init, last := more[..|more| - 1], more[|more| - 1];
      assert last in more && forall e :: e in init ==> e in more;
      SilentAfterStop(events, init);
      assert (stopped + more)[..|stopped + more| - 1] == stopped + init;
      hide Step;
      StoppedStaysSilent(Run(stopped + init), last);
    }
  }

  // ---- The class ----

  class Monitor {
    var active: bool
    var stopped: bool
    var generation: nat
    var fingerprint: Option<Fingerprint>
    var timer: bool
    var debounce: bool
    var reading: bool
    var readAgain: bool
    // The answer of hasDemand(), and the generation captured by the outstanding read.
    var demand: bool
    var readGeneration: nat
    ghost var notified: bool
    ghost var history: History

    ghost function View(): State
      reads this
    {
      State(active, stopped, generation, fingerprint, timer, debounce, reading, readAgain, demand, notified,
            readGeneration, history)
    }

    constructor ()
      ensures View() == INITIAL
    {
      active, stopped, generation, fingerprint := false, true, 0, None;
      timer, debounce, reading, readAgain := false, false, false, false;
      demand, notified, readGeneration := false, true, 0;
      history := History(0, 0, false, [], 0);
    }

    method StartMonitor(foreground: bool)
      modifies this
      ensures View() == Step(old(View()), Event.Start(foreground))
    {
      if !stopped { return; }
      stopped := false;
      ChangeForeground(foreground);
    }

    method ChangeForeground(foreground: bool)
      modifies this
      ensures View() == Step(old(View()), Event.SetForeground(foreground))
    {
      active := foreground;
      generation := generation + 1;
      history := Interrupt(history);
      DropTimers();
      if active && !stopped {
        TakeSample();
      }
    }

    method SetDemand(wanted: bool)
      modifies this
      ensures View() == Step(old(View()), Event.DemandSet(wanted))
    {
      if wanted != demand {
        demand, notified := wanted, false;
      }
    }

    method AnnounceDemand()
      modifies this
      ensures View() == Step(old(View()), Event.DemandChanged)
    {
      notified := true;
      if stopped || !active { return; }
      if !demand {
        DropTimers();
      } else if !timer {
        TakeSample();
      }
    }

    method StopMonitor()
      modifies this
      ensures View() == Step(old(View()), Event.Stop)
    {
      stopped := true;
      generation := generation + 1;
      history := Interrupt(history);
      DropTimers();
    }

    method OnListener()
      modifies this
      ensures View() == Step(old(View()), Event.ListenerFires)
    {
      if !active || stopped || !demand { return; }
      debounce := true;
    }

    method OnDebounce()
      modifies this
      ensures View() == Step(old(View()), Event.DebounceFires)
    {
      if debounce {
        debounce := false;
        TakeSample();
      }
    }

    method OnPoll()
      modifies this
      ensures View() == Step(old(View()), Event.PollFires)
    {
      if timer {
        timer := false;
        TakeSample();
      }
    }

    /** The synchronous start of sample(). */
    method TakeSample()
      modifies this
      ensures View() == Sample(old(View())) && history.changes == old(history.changes)
    {
      if stopped || !active || !demand { return; }
      if reading {
        readAgain := true;
        return;
      }
      reading := true;
      readGeneration := generation;
      history := BeginRead(history);
    }

    /** sample() after its await: changed tells whether the callback is called. */
    method OnRead(result: Option<NetworkState>) returns (changed: bool)
      requires reading
      modifies this
      ensures View() == Step(old(View()), if result.Some? then ReadSucceeds(result.value) else ReadFails)
      ensures changed <==> history.changes == old(history.changes) + 1
    {
      hide FingerprintOf;
      changed := false;
      if result.Some? {
        changed := AcceptRead(FingerprintOf(result.value));
      }
      FinishRead();
    }

    method AcceptRead(next: Fingerprint) returns (changed: bool)
      modifies this
      ensures View() == Accept(old(View()), next)
      ensures changed <==> history.changes == old(history.changes) + 1
      ensures !changed <==> history.changes == old(history.changes)
    {
      changed := false;
      if readGeneration != generation || stopped || !active || !demand { return; }
      changed := fingerprint.Some? && fingerprint.value != next;
      history := AcceptInto(history, next, changed);
      fingerprint := Some(next);
    }

    /** The finally block. */
    method FinishRead()
      modifies this
      ensures View() == SettleRead(old(View())) && history.changes == old(history.changes)
    {
      reading := false;
      history := EndRead(history);
      if readAgain {
        readAgain := false;
        TakeSample();
      } else if !stopped && active && demand && !timer {
        timer := true;
      }
    }

    method DropTimers()
      modifies this
      ensures View() == ClearTimers(old(View()))
    {
      timer, debounce := false, false;
    }
  }
}
