/**
 * The session phases of the browser workspace hook. Every callback closes over the account scope it was made
 * for and captures the session generation when it starts; an event is the code between two awaits of one
 * callback, with what it awaited as an outcome. Keys, errors shown and tracked commands are left out.
 */
module BrowserWorkspace {

  import opened Prelude

  datatype Record = Record(scope: string, id: nat, trust: Option<nat>)

  datatype PendingRequest = PendingRequest(record: Record, renewal: bool)

  datatype Reason = Denied | Expired | Revoked

  datatype Phase =
    | Locked
    | Pending(pending: PendingRequest)
    | Ready(record: Record, trust: Option<nat>)
    | Ended(reason: Reason)

  /** The answer of the status action. */
  datatype Status = Waiting | Over(reason: Reason) | Approved(verifiable: bool)

  /** What a callback is awaiting. */
  datatype Wait =
    | Removing(reason: Reason, more: bool)                           // endSession, more: the renewal comes after
    | Purging(left: nat)                                             // lock: the removals after it
    | Revoking                                                       // disconnect: the revoke action
    | Forgetting                                                     // disconnect: the store
    | Dismissing(record: Record, wasRenewal: bool, reason: Reason, more: bool)   // acceptStatus, refused or gone
    | Unwrapping(pending: PendingRequest)                            // acceptStatus, access granted
    | CheckingTrust(pending: PendingRequest)
    | SavingTrust(pending: PendingRequest, trust: Option<nat>)
    | SavingSession(pending: PendingRequest, trust: Option<nat>)
    | Expiring(pending: PendingRequest)                              // pollStatus
    | Polling(asked: Option<PendingRequest>, current: Phase)
    | Finding                                                        // requestAccess
    | Proving(record: Record)
    | SavingRequest(record: Record, renewal: bool)
    | Requesting(previous: Phase, record: Record, keepCurrent: bool)
    | Undoing(previous: Phase, record: Record, keepCurrent: bool)
    | Discarding                                                     // requestAccess: removing a stale record
    | Listing                                                        // the effect that resumes a stored session
    | ListingTrusts
    | Finished

  /** poll: the callback holds the statusPoll reference until its finally block. */
  datatype Task = Task(scope: string, generation: nat, wait: Wait, poll: bool)

  /** How an awaited promise settles; each callback looks at the fields that concern it. */
  datatype Outcome = Outcome(ok: bool, status: Status, trust: Option<nat>, session: Option<nat>, expired: bool, cancelled: bool)

  /** The references of the hook; author and renewalAuthor are the generations captured by whoever wrote last. */
  datatype Shared = Shared(owner: string, generation: nat, phase: Phase, renewal: Option<PendingRequest>,
                           statusPoll: Option<nat>, nextId: nat, author: nat, renewalAuthor: nat)

  datatype State = State(shared: Shared, tasks: seq<Task>)

  datatype Event =
    | EndCalled(scope: string, reason: Reason)
    | DisconnectCalled(scope: string)
    | PollCalled(scope: string, expired: bool)
    | AccessRequested(scope: string)
    | ResumeCalled(scope: string)
    | LockCalled(scope: string)
    | ScopeChanged(scope: string)
    | Resumed(i: nat, outcome: Outcome)
    | Thrown(i: nat)                                                 // what task i awaits throws
    | PollSettled(i: nat)

  function Mounted(scope: string): State {
    State(Shared(scope, 0, Locked, None, None, 0, 0, 0), [])
  }

  // ---- The three helpers every callback uses ----

  predicate Owns(m: Shared, t: Task) {
    m.owner == t.scope && m.generation == t.generation
  }

  /** replacePhase(next, false), written by a callback of the given generation. */
  function WritePhase(m: Shared, next: Phase, author: nat): Shared {
    m.(phase := next, author := author)
  }

  function WriteRenewal(m: Shared, next: Option<PendingRequest>, author: nat): Shared {
    m.(renewal := next, renewalAuthor := author)
  }

  predicate PendingWith(phase: Phase, id: nat) {
    phase.Pending? && phase.pending.record.id == id
  }

  predicate RenewingWith(m: Shared, id: nat) {
    m.renewal.Some? && m.renewal.value.record.id == id
  }

  predicate IsCurrentRequest(m: Shared, record: Record) {
    RenewingWith(m, record.id) || PendingWith(m.phase, record.id)
  }

  // ---- Synchronous beginnings ----

  function EndNow(m: Shared, reason: Reason, author: nat): Shared {
    WritePhase(WriteRenewal(m, None, author), Ended(reason), author)
  }

  predicate HasSession(phase: Phase) {
    phase.Pending? || phase.Ready?
  }

  /** endSession: without anything to remove it runs to its end. */
  function BeginEnd(m: Shared, t: Task, reason: Reason): (Shared, Task) {
    var u := t.(generation := m.generation, wait := Finished);
    if m.owner != t.scope then (m, u)
    else if HasSession(m.phase) then (m, u.(wait := Removing(reason, m.renewal.Some?)))
    else if m.renewal.Some? then (m, u.(wait := Removing(reason, false)))
    else (EndNow(m, reason, u.generation), u)
  }

  /** The requests lock() removes from the store once it has locked. */
  function ToPurge(m: Shared): set<nat> {
    (if m.phase.Pending? then {m.phase.pending.record.id} else if m.phase.Ready? then {m.phase.record.id} else {})
    + if m.renewal.Some? then {m.renewal.value.record.id} else {}
  }

  function Lock(m: Shared, t: Task): (Shared, Task) {
    if m.owner != t.scope then (m, t.(wait := Finished))
    else (m.(renewal := None, phase := Locked, generation := m.generation + 1, statusPoll := None),
          t.(wait := AfterPurge(|ToPurge(m)|)))
  }

  function AfterPurge(left: nat): Wait {
    if left == 0 then Finished else Purging(left)
  }

  function ChangeScope(m: Shared, scope: string): Shared {
    if m.owner == scope then m
    else m.(owner := scope, renewal := None, phase := Locked, generation := m.generation + 1, statusPoll := None)
  }

  function BeginPoll(m: Shared, scope: string, expired: bool): Wait {
    var asked := if m.renewal.Some? then m.renewal else if m.phase.Pending? then Some(m.phase.pending) else None;
    if asked == None && !m.phase.Ready? then Finished
    else
      var record := if asked.Some? then asked.value.record else m.phase.record;
      if record.scope != scope then Finished
      else if expired && asked.Some? then Expiring(asked.value)
      else Polling(asked, m.phase)
  }

  /** pollStatus, called by task number i. */
  function Poll(m: Shared, t: Task, i: nat, expired: bool): (Shared, Task) {
    if m.statusPoll.Some? then (m, t.(wait := Finished))
    else (m.(statusPoll := Some(i)), Task(t.scope, m.generation, BeginPoll(m, t.scope, expired), true))
  }

  function BeginAccept(m: Shared, pending: PendingRequest, status: Status): Wait {
    match status
    case Waiting => Finished
    case Over(reason) =>
      Dismissing(pending.record, RenewingWith(m, pending.record.id), reason, reason == Revoked && pending.record.trust.Some?)
    case Approved(verifiable) => if verifiable then Unwrapping(pending) else Finished
  }

  /** pollStatus once it has an answer: acceptStatus or endSession begins. */
  function AfterStatus(m: Shared, t: Task, asked: Option<PendingRequest>, current: Phase, status: Status): (Shared, Task) {
    if asked.Some? then (m, t.(generation := m.generation, wait := BeginAccept(m, asked.value, status)))
    else if current.Ready? && status == Over(Revoked) then BeginEnd(m, t, Revoked)
    else if current.Ready? && status == Over(Expired) && current.trust == None then BeginEnd(m, t, Expired)
    else (m, t.(wait := Finished))
  }

  // ---- Continuations ----

  function Dismiss(m: Shared, t: Task, record: Record, wasRenewal: bool, reason: Reason): Shared {
    var n := if wasRenewal then WriteRenewal(m, None, t.generation) else m;
    if !wasRenewal && PendingWith(n.phase, record.id) then WritePhase(n, Ended(reason), t.generation)
    else if reason == Revoked && n.phase.Ready? && n.phase.trust == record.trust then WritePhase(n, Ended(Revoked), t.generation)
    else n
  }

  /** The end of acceptStatus: the session is ready. */
  function Admit(m: Shared, t: Task, record: Record, trust: Option<nat>): Shared {
    var kept := if trust.Some? then record.(trust := trust) else record;
    var n := WritePhase(m, Ready(kept, trust), t.generation);
    if RenewingWith(n, record.id) then WriteRenewal(n, None, t.generation) else n
  }

  /** requestAccess shows its request, as a renewal beside the current session or instead of it. */
  function Show(m: Shared, t: Task, record: Record, renewal: bool): (Shared, Task) {
    var keep := renewal && m.phase.Ready? && m.phase.trust == record.trust;
    var pending := PendingRequest(record, renewal);
    (if keep then WriteRenewal(m, Some(pending), t.generation) else WritePhase(m, Pending(pending), t.generation),
     t.(wait := Requesting(m.phase, record, keep)))
  }

  function Undo(m: Shared, t: Task, previous: Phase, record: Record, keep: bool): Shared {
    if keep then WriteRenewal(m, None, t.generation)
    else if PendingWith(m.phase, record.id) then WritePhase(m, previous, t.generation)
    else m
  }

  function Restore(m: Shared, t: Task, i: nat, id: nat, o: Outcome): (Shared, Task) {
    var pending := PendingRequest(Record(t.scope, id, o.trust), o.trust.Some?);
    var n := if pending.renewal then WriteRenewal(m, Some(pending), t.generation) else m;
    Poll(WritePhase(n, Pending(pending), t.generation), t, i, o.expired)
  }

  /** acceptStatus after each of its awaits; between the two removals of a dismissed request there is no guard. */
  function ContinueAccept(m: Shared, t: Task, o: Outcome): (Shared, Task) {
    var done := t.(wait := Finished);
    match t.wait
    case Dismissing(record, wasRenewal, reason, more) =>
      if more then (m, t.(wait := Dismissing(record, wasRenewal, reason, false)))
      else if !Owns(m, t) then (m, done)
      else (Dismiss(m, t, record, wasRenewal, reason), done)
    case Unwrapping(pending) =>
      if !Owns(m, t) || !IsCurrentRequest(m, pending.record) then (m, done)
      else if !o.ok then (m, done)
      else if pending.record.trust.Some? then (m, t.(wait := CheckingTrust(pending)))
      else if o.trust.Some? then (m, t.(wait := SavingTrust(pending, o.trust)))
      else if pending.renewal then (m, done)
      else (m, t.(wait := SavingSession(pending, None)))
    case CheckingTrust(pending) =>
      if !Owns(m, t) || !IsCurrentRequest(m, pending.record) then (m, done)
      else if !o.ok then (m, done)
      else (m, t.(wait := SavingTrust(pending, pending.record.trust)))
    case SavingTrust(pending, trust) =>
      if !Owns(m, t) || !IsCurrentRequest(m, pending.record) then (m, done)
      else (m, t.(wait := SavingSession(pending, trust)))
    case SavingSession(pending, trust) =>
      if !Owns(m, t) || !IsCurrentRequest(m, pending.record) then (m, done)
      else (Admit(m, t, pending.record, trust), done)
    case _ => (m, done)
  }

  /** requestAccess after each of its awaits; a stale request that was saved is removed again. */
  function ContinueRequest(m: Shared, t: Task, o: Outcome): (Shared, Task) {
    var done := t.(wait := Finished);
    match t.wait
    case Finding =>
      if !Owns(m, t) then (m, done)
      else
        var record := Record(t.scope, m.nextId, o.trust);
        (m.(nextId := m.nextId + 1), t.(wait := if o.trust.Some? then Proving(record) else SavingRequest(record, false)))
    case Proving(record) =>
      if !Owns(m, t) then (m, done)
      else (m, t.(wait := SavingRequest(record, true)))
    case SavingRequest(record, renewal) =>
      if !Owns(m, t) then (m, t.(wait := Discarding))
      else Show(m, t, record, renewal)
    case Requesting(previous, record, keep) =>
      if !Owns(m, t) || o.ok then (m, done)
      else (m, t.(wait := Undoing(previous, record, keep)))
    case Undoing(previous, record, keep) =>
      if !Owns(m, t) then (m, done)
      else (Undo(m, t, previous, record, keep), done)
    case _ => (m, done)
  }

  /**
   * pollStatus, endSession, lock, disconnect and the resuming effect after each of their awaits. endSession
   * guards only after its last removal, lock has written before its removals, and disconnect makes the store
   * forget the record once the server has revoked it, whoever owns the scope by then.
   */
  function ContinueOther(m: Shared, t: Task, i: nat, o: Outcome): (Shared, Task) {
    var done := t.(wait := Finished);
    match t.wait
    case Removing(reason, more) =>
      if more then (m, t.(wait := Removing(reason, false)))
      else if !Owns(m, t) then (m, done)
      else (EndNow(m, reason, t.generation), done)
    case Purging(left) => (m, t.(wait := AfterPurge(if left == 0 then 0 else left - 1)))
    case Revoking => (m, if o.ok then t.(wait := Forgetting) else done)
    case Forgetting =>
      if !Owns(m, t) then (m, done)
      else (EndNow(m, Revoked, t.generation), done)
    case Expiring(pending) =>
      if !Owns(m, t) then (m, done)
      else if pending.renewal then (WriteRenewal(m, None, t.generation), done)
      else if PendingWith(m.phase, pending.record.id) then BeginEnd(m, t, Expired)
      else (m, done)
    case Polling(asked, current) =>
      if !o.ok || !Owns(m, t) then (m, done)
      else AfterStatus(m, t, asked, current, o.status)
    case Listing =>
      if o.cancelled || !Owns(m, t) || m.phase != Locked then (m, done)
      else if o.session.Some? then Restore(m, t, i, o.session.value, o)
      else (m, t.(wait := ListingTrusts))
    case ListingTrusts =>
      if o.cancelled || !Owns(m, t) || !o.ok then (m, done)
      else (m, t.(generation := m.generation, wait := Finding))
    case _ => (m, done)
  }

  predicate Accepting(w: Wait) {
    w.Dismissing? || w.Unwrapping? || w.CheckingTrust? || w.SavingTrust? || w.SavingSession?
  }

  predicate AskingAccess(w: Wait) {
    w.Finding? || w.Proving? || w.SavingRequest? || w.Requesting? || w.Undoing? || w.Discarding?
  }

  /** Task i goes on. */
  function Continue(m: Shared, t: Task, i: nat, o: Outcome): (Shared, Task) {
    if Accepting(t.wait) then ContinueAccept(m, t, o)
    else if AskingAccess(t.wait) then ContinueRequest(m, t, o)
    else ContinueOther(m, t, i, o)
  }

  /** A task that has just been called. */
  function Called(m: Shared, scope: string, wait: Wait): Task {
    Task(scope, m.generation, wait, false)
  }

  function Disconnect(m: Shared, scope: string): (Shared, Task) {
    if m.owner != scope then (m, Called(m, scope, Finished))
    else if HasSession(m.phase) || m.renewal.Some? then (m, Called(m, scope, Revoking))
    else Lock(m, Called(m, scope, Finished))
  }

  function Begin(m: Shared, i: nat, e: Event): (Shared, Task) {
    match e
    case EndCalled(scope, reason) => BeginEnd(m, Called(m, scope, Finished), reason)
    case DisconnectCalled(scope) => Disconnect(m, scope)
    case PollCalled(scope, expired) => Poll(m, Called(m, scope, Finished), i, expired)
    case AccessRequested(scope) => (m, Called(m, scope, if m.owner == scope then Finding else Finished))
    case ResumeCalled(scope) => (m, Called(m, scope, Listing))
    case LockCalled(scope) => Lock(m, Called(m, scope, Finished))
    case ScopeChanged(scope) => (ChangeScope(m, scope), Called(m, scope, Finished))
    case _ => (m, Called(m, m.owner, Finished))
  }

  function Settle(m: Shared, i: nat): Shared {
    if m.statusPoll == Some(i) then m.(statusPoll := None) else m
  }

  function Step(s: State, e: Event): State {
    match e
    case Resumed(i, outcome) =>
      if i < |s.tasks| then
        var (m, t) := Continue(s.shared, s.tasks[i], i, outcome);
        State(m, s.tasks[i := t])
      else s
    case Thrown(i) =>
      if i < |s.tasks| then s.(tasks := s.tasks[i := s.tasks[i].(wait := Finished)]) else s
    case PollSettled(i) =>
      if i < |s.tasks| && s.tasks[i].poll && s.tasks[i].wait.Finished?
      then State(Settle(s.shared, i), s.tasks[i := s.tasks[i].(poll := false)])
      else s
    case _ =>
      var (m, t) := Begin(s.shared, |s.tasks|, e);
      State(m, s.tasks + [t])
  }

  function Run(scope: string, events: seq<Event>): State {
    if events == [] then Mounted(scope) else Step(Run(scope, events[..|events| - 1]), events[|events| - 1])
  }

  // ---- Invariants ----

  predicate ScopedTo(phase: Phase, scope: string) {
    && (phase.Pending? ==> phase.pending.record.scope == scope)
    && (phase.Ready? ==> phase.record.scope == scope)
  }

  /** Whoever wrote the phase or the renewal belongs to the current generation, and the record to the current account. */
  predicate SharedOk(m: Shared) {
    && ScopedTo(m.phase, m.owner) && (m.phase != Locked ==> m.author == m.generation)
    && (m.renewal.Some? ==> m.renewal.value.record.scope == m.owner && m.renewalAuthor == m.generation)
  }

  /** The records a callback carries are of its own scope. */
  predicate WaitOk(w: Wait, scope: string) {
    match w
    case Unwrapping(p) => p.record.scope == scope
    case CheckingTrust(p) => p.record.scope == scope
    case SavingTrust(p, _) => p.record.scope == scope
    case SavingSession(p, _) => p.record.scope == scope
    case Polling(asked, _) => asked.Some? ==> asked.value.record.scope == scope
    case Proving(record) => record.scope == scope
    case SavingRequest(record, _) => record.scope == scope
    case Requesting(previous, _, _) => ScopedTo(previous, scope)
    case Undoing(previous, _, _) => ScopedTo(previous, scope)
    case _ => true
  }

  /** A poll of the current generation holds the reference; the reference belongs to such a poll. */
  predicate TaskOk(m: Shared, i: nat, t: Task) {
    && t.generation <= m.generation && WaitOk(t.wait, t.scope) && !(t.poll && t.wait.Listing?)
    && (t.poll && t.generation == m.generation ==> m.statusPoll == Some(i))
    && (m.statusPoll == Some(i) ==> t.poll && t.generation == m.generation)
  }

  ghost predicate Inv(s: State) {
    && SharedOk(s.shared)
    && (s.shared.statusPoll.Some? ==> s.shared.statusPoll.value < |s.tasks|)
    && forall i :: 0 <= i < |s.tasks| ==> TaskOk(s.shared, i, s.tasks[i])
  }

  // ---- Steps ----

  /** What one step of the references may do: bump the generation and lock, or keep it. */
  predicate Moves(m: Shared, n: Shared) {
    || n.generation == m.generation
    || (n.generation == m.generation + 1 && n.phase == Locked && n.renewal == None && n.statusPoll == None)
  }

  lemma BeginEndOk(m: Shared, t: Task, i: nat, reason: Reason)
    requires SharedOk(m)
    ensures var (n, u) := BeginEnd(m, t, reason);
            && SharedOk(n) && n == m.(phase := n.phase, renewal := n.renewal, author := n.author, renewalAuthor := n.renewalAuthor)
            && u == t.(generation := m.generation, wait := u.wait) && WaitOk(u.wait, u.scope)
  {
  }

  lemma PollOk(m: Shared, t: Task, i: nat, expired: bool)
    requires SharedOk(m) && (t.poll ==> m.statusPoll.Some?)
    ensures var (n, u) := Poll(m, t, i, expired);
            && n == m.(statusPoll := n.statusPoll)
            && (if m.statusPoll.Some? then n == m && u == t.(wait := Finished)
                else n.statusPoll == Some(i) && u.poll && u.scope == t.scope && u.generation == m.generation)
            && WaitOk(u.wait, u.scope)
  {
  }

  /** A write of the phase and the renewal by the owner. */
  predicate Writes(m: Shared, n: Shared) {
    && SharedOk(n)
    && n == m.(phase := n.phase, renewal := n.renewal, author := n.author, renewalAuthor := n.renewalAuthor)
  }

  lemma EndNowOk(m: Shared, t: Task, reason: Reason)
    requires SharedOk(m) && Owns(m, t)
    ensures Writes(m, EndNow(m, reason, t.generation))
  {
  }

  lemma DismissOk(m: Shared, t: Task, record: Record, wasRenewal: bool, reason: Reason)
    requires SharedOk(m) && Owns(m, t)
    ensures Writes(m, Dismiss(m, t, record, wasRenewal, reason))
  {
  }

  lemma AdmitOk(m: Shared, t: Task, record: Record, trust: Option<nat>)
    requires SharedOk(m) && Owns(m, t) && record.scope == t.scope
    ensures Writes(m, Admit(m, t, record, trust))
  {
  }

  lemma ShowOk(m: Shared, t: Task, record: Record, renewal: bool)
    requires SharedOk(m) && Owns(m, t) && record.scope == t.scope
    ensures var (n, u) := Show(m, t, record, renewal);
            Writes(m, n) && u == t.(wait := u.wait) && WaitOk(u.wait, t.scope) && !u.wait.Listing?
  {
  }

  lemma UndoOk(m: Shared, t: Task, previous: Phase, record: Record, keep: bool)
    requires SharedOk(m) && Owns(m, t) && ScopedTo(previous, t.scope)
    ensures Writes(m, Undo(m, t, previous, record, keep))
  {
  }

  lemma RestoreOk(m: Shared, t: Task, i: nat, id: nat, o: Outcome)
    requires SharedOk(m) && Owns(m, t) && !t.poll
    ensures var (n, u) := Restore(m, t, i, id, o);
            && Writes(m.(statusPoll := n.statusPoll), n) && WaitOk(u.wait, u.scope) && !u.wait.Listing?
            && u.scope == t.scope && u.generation == t.generation
            && (if m.statusPoll.Some? then n.statusPoll == m.statusPoll && !u.poll else n.statusPoll == Some(i) && u.poll)
  {
    var pending := PendingRequest(Record(t.scope, id, o.trust), o.trust.Some?);
    var n := if pending.renewal then WriteRenewal(m, Some(pending), t.generation) else m;
    PollOk(WritePhase(n, Pending(pending), t.generation), t, i, o.expired);
    hide Poll;
  }

  /** What a continuation leaves of the references and of itself. */
  predicate Continues(m: Shared, t: Task, i: nat, n: Shared, u: Task) {
    && SharedOk(n) && n.owner == m.owner && n.generation == m.generation
    && WaitOk(u.wait, u.scope) && !u.wait.Listing? && u.scope == t.scope && u.generation == t.generation
    && ((n.statusPoll == m.statusPoll && u.poll == t.poll) || (m.statusPoll == None && n.statusPoll == Some(i) && u.poll))
  }

  lemma AcceptOk(m: Shared, t: Task, i: nat, o: Outcome)
    requires SharedOk(m) && Owns(m, t) && WaitOk(t.wait, t.scope)
    ensures var (n, u) := ContinueAccept(m, t, o);
            Continues(m, t, i, n, u)
  {
    match t.wait {
      case Dismissing(record, wasRenewal, reason, more) => DismissOk(m, t, record, wasRenewal, reason);
      case SavingSession(pending, trust) => AdmitOk(m, t, pending.record, trust);
      case _ =>
    }
    hide Dismiss, Admit, SharedOk;
  }

  lemma RequestOk(m: Shared, t: Task, i: nat, o: Outcome)
    requires SharedOk(m) && Owns(m, t) && WaitOk(t.wait, t.scope)
    ensures var (n, u) := ContinueRequest(m, t, o);
            Continues(m, t, i, n, u)
  {
    match t.wait {
      case SavingRequest(record, renewal) => ShowOk(m, t, record, renewal);
      case Undoing(previous, record, keep) => UndoOk(m, t, previous, record, keep);
      case Finding => assert SharedOk(m.(nextId := m.nextId + 1));
      case _ =>
    }
    hide Show, Undo, SharedOk;
  }

  lemma OtherOk(m: Shared, t: Task, i: nat, o: Outcome)
    requires SharedOk(m) && Owns(m, t) && WaitOk(t.wait, t.scope) && !(t.poll && t.wait.Listing?)
    ensures var (n, u) := ContinueOther(m, t, i, o);
            Continues(m, t, i, n, u)
  {
    match t.wait {
      case Removing(reason, more) => EndNowOk(m, t, reason);
      case Forgetting => EndNowOk(m, t, Revoked);
      case Expiring(pending) =>
        BeginEndOk(m, t, i, Expired);
        assert Writes(m, WriteRenewal(m, None, t.generation));
      case Polling(asked, current) => AfterStatusOk(m, t, i, asked, current, o.status);
      case Listing => if o.session.Some? { RestoreOk(m, t, i, o.session.value, o); }
      case _ =>
    }
    hide BeginEnd, Restore, EndNow, WriteRenewal, SharedOk, AfterStatus;
  }

  lemma AfterStatusOk(m: Shared, t: Task, i: nat, asked: Option<PendingRequest>, current: Phase, status: Status)
    requires SharedOk(m) && Owns(m, t) && WaitOk(Polling(asked, current), t.scope)
    ensures var (n, u) := AfterStatus(m, t, asked, current, status);
            Continues(m, t, i, n, u)
  {
    BeginEndOk(m, t, i, Revoked);
    BeginEndOk(m, t, i, Expired);
    hide BeginEnd, SharedOk;
  }

  /** What a callback may still await once it has lost the scope: removals from the store. */
  predicate CleansUp(w: Wait) {
    w.Removing? || w.Purging? || w.Forgetting? || w.Dismissing? || w.Discarding? || w.Finished?
  }

  /** A callback of an older generation or another scope writes nothing and begins nothing but clean-up. */
  lemma StaleContinues(m: Shared, t: Task, i: nat, o: Outcome)
    requires !Owns(m, t)
    ensures var (n, u) := Continue(m, t, i, o);
            n == m && u == t.(wait := u.wait) && CleansUp(u.wait)
  {
  }

  /** A continuation keeps the invariant of the references, the generation and the account. */
  lemma ContinueOk(m: Shared, t: Task, i: nat, o: Outcome)
    requires SharedOk(m) && WaitOk(t.wait, t.scope) && t.generation <= m.generation && !(t.poll && t.wait.Listing?)
    ensures var (n, u) := Continue(m, t, i, o);
            && Continues(m, t, i, n, u) && (!Owns(m, t) ==> n == m)
            && (u.poll && !t.poll ==> t.generation == m.generation)
  {
    hide ContinueAccept, ContinueRequest, ContinueOther, SharedOk, Continues;
    if Owns(m, t) {
      AcceptOk(m, t, i, o);
      RequestOk(m, t, i, o);
      OtherOk(m, t, i, o);
    } else {
      StaleContinues(m, t, i, o);
      hide Continue;
      CleanUpContinues(m, t, i, Continue(m, t, i, o).1);
    }
  }

  lemma CleanUpContinues(m: Shared, t: Task, i: nat, u: Task)
    requires SharedOk(m) && u == t.(wait := u.wait) && CleansUp(u.wait)
    ensures Continues(m, t, i, m, u)
  {
  }

  lemma BeginOk(m: Shared, i: nat, e: Event)
    requires SharedOk(m) && !e.Resumed? && !e.Thrown? && !e.PollSettled?
    ensures var (n, u) := Begin(m, i, e);
            && SharedOk(n) && Moves(m, n) && u.generation <= n.generation && WaitOk(u.wait, u.scope)
            && !(u.poll && u.wait.Listing?)
            && (n.statusPoll == m.statusPoll || n.statusPoll == None || (m.statusPoll == None && n.statusPoll == Some(i)))
            && (n.generation == m.generation ==> n.statusPoll == m.statusPoll || n.statusPoll == Some(i))
            && (u.poll <==> m.statusPoll == None && n.statusPoll == Some(i))
            && (u.poll ==> u.generation == n.generation)
  {
    match e {
      case EndCalled(scope, reason) => BeginEndOk(m, Called(m, scope, Finished), i, reason);
      case PollCalled(scope, expired) => PollOk(m, Called(m, scope, Finished), i, expired);
      case _ =>
    }
    hide BeginEnd, Poll, ToPurge, AfterPurge;
  }

  lemma StepKeepsInv(s: State, e: Event)
    requires Inv(s)
    ensures Inv(Step(s, e)) && Moves(s.shared, Step(s, e).shared)
  {
    hide SharedOk, WaitOk, Continue, Begin;
    var m := s.shared;
    match e {
      case Thrown(i) => if i < |s.tasks| { ThrownOk(s, i); }
      case Resumed(i, outcome) =>
        if i < |s.tasks| {
          assert TaskOk(m, i, s.tasks[i]);
          ContinueOk(m, s.tasks[i], i, outcome);
          forall j | 0 <= j < |s.tasks| && j != i
            ensures TaskOk(Continue(m, s.tasks[i], i, outcome).0, j, s.tasks[j])
          {
            assert TaskOk(m, j, s.tasks[j]);
          }
        }
      case PollSettled(i) =>
        if i < |s.tasks| {
          SettleOk(m, i);
          forall j | 0 <= j < |s.tasks|
            ensures TaskOk(m, j, s.tasks[j])
          {
          }
        }
      case _ =>
        BeginOk(m, |s.tasks|, e);
        forall j | 0 <= j < |s.tasks|
          ensures TaskOk(Begin(m, |s.tasks|, e).0, j, s.tasks[j])
        {
          assert TaskOk(m, j, s.tasks[j]);
        }
    }
  }

  lemma ThrownOk(s: State, i: nat)
    requires Inv(s) && i < |s.tasks|
    ensures Inv(Step(s, Thrown(i)))
  {
    hide SharedOk;
    var t := Step(s, Thrown(i));
    forall j | 0 <= j < |s.tasks|
      ensures TaskOk(t.shared, j, t.tasks[j])
    {
      assert TaskOk(s.shared, j, s.tasks[j]);
    }
  }

  lemma SettleOk(m: Shared, i: nat)
    requires SharedOk(m)
    ensures SharedOk(Settle(m, i))
  {
  }

  lemma {:induction false} RunKeepsInv(scope: string, events: seq<Event>)
    ensures Inv(Run(scope, events))
  {
    if events != [] {
      RunKeepsInv(scope, events[..|events| - 1]);
      StepKeepsInv(Run(scope, events[..|events| - 1]), events[|events| - 1]);
    }
  }

  // ---- What callers may rely on ----

  /**
   * A continuation writes only while its generation and its account scope are current: otherwise the phase,
   * the renewal, the poll and the generation stay as they are, and it asks for nothing more than removals.
   */
  lemma OnlyOwnersWrite(s: State, i: nat, o: Outcome)
    requires i < |s.tasks| && !Owns(s.shared, s.tasks[i])
    ensures Step(s, Resumed(i, o)).shared == s.shared && CleansUp(Step(s, Resumed(i, o)).tasks[i].wait)
  {
    hide Continue;
    StaleContinues(s.shared, s.tasks[i], i, o);
  }

  /** A grant goes no further once its request is neither the one shown nor the renewal. */
  lemma OnlyCurrentRequestsProceed(s: State, i: nat, o: Outcome)
    requires i < |s.tasks|
    requires var w := s.tasks[i].wait;
             && (w.Unwrapping? || w.CheckingTrust? || w.SavingTrust? || w.SavingSession?)
             && !IsCurrentRequest(s.shared, w.pending.record)
    ensures Step(s, Resumed(i, o)) == s.(tasks := s.tasks[i := s.tasks[i].(wait := Finished)])
  {
    hide Admit;
  }

  /** Whatever is shown was written by a callback of the current generation, about the current account. */
  lemma ShownIsCurrent(scope: string, events: seq<Event>)
    ensures SharedOk(Run(scope, events).shared)
  {
    RunKeepsInv(scope, events);
  }

  /** The session is locked and every callback there is has lost the scope or is done. */
  ghost predicate AllStale(s: State) {
    s.shared.phase == Locked && s.shared.renewal == None &&
    forall i :: 0 <= i < |s.tasks| ==> !Owns(s.shared, s.tasks[i]) || s.tasks[i].wait == Finished
  }

  /** Locking the current account, or moving to another one. */
  predicate Bumps(m: Shared, e: Event) {
    e == LockCalled(m.owner) || (e.ScopeChanged? && e.scope != m.owner)
  }

  /** The continuations, and the calls made through callbacks of other accounts than the given one. */
  predicate Elsewhere(e: Event, owner: string) {
    match e
    case Resumed(_, _) => true
    case Thrown(_) => true
    case PollSettled(_) => true
    case ScopeChanged(_) => false
    case _ => e.scope != owner
  }

  lemma StaleStays(s: State, e: Event)
    requires AllStale(s) && Elsewhere(e, s.shared.owner)
    ensures AllStale(Step(s, e)) && Step(s, e).shared.owner == s.shared.owner
  {
    hide Continue, Begin;
    if e.Resumed? {
      if e.i < |s.tasks| { StaleResumes(s.shared, s.tasks[e.i], e.i, e.outcome); }
    } else if !e.Thrown? && !e.PollSettled? {
      CalledElsewhere(s.shared, |s.tasks|, e);
    }
  }

  lemma StaleResumes(m: Shared, t: Task, i: nat, o: Outcome)
    requires !Owns(m, t) || t.wait == Finished
    ensures var (n, u) := Continue(m, t, i, o); n == m && u == t.(wait := u.wait) && (Owns(m, t) ==> u.wait == Finished)
  {
    if !Owns(m, t) {
      StaleContinues(m, t, i, o);
      hide Continue;
    }
  }

  lemma CalledElsewhere(m: Shared, i: nat, e: Event)
    requires Elsewhere(e, m.owner) && !e.Resumed? && !e.Thrown? && !e.PollSettled?
    requires m.phase == Locked && m.renewal == None
    ensures var (n, u) := Begin(m, i, e); n == m.(statusPoll := n.statusPoll) && !Owns(n, u)
  {
  }

  /** A new generation, or a new account, leaves every callback stale. */
  lemma BumpStales(s: State, e: Event)
    requires Inv(s) && Bumps(s.shared, e)
    ensures AllStale(Step(s, e)) && Step(s, e).shared.generation == s.shared.generation + 1
  {
    forall i | 0 <= i < |s.tasks|
      ensures s.tasks[i].generation <= s.shared.generation
    {
      assert TaskOk(s.shared, i, s.tasks[i]);
    }
    hide Inv, SharedOk;
  }

  /**
   * Nothing revives a session: after a lock or a change of account, neither what was under way nor any call
   * made for another account changes the locked phase.
   */
  lemma {:induction false} NothingRevives(scope: string, events: seq<Event>, bump: Event, more: seq<Event>)
    requires Bumps(Run(scope, events).shared, bump)
    requires forall e :: e in more ==> Elsewhere(e, Run(scope, events + [bump]).shared.owner)
    ensures var s, t := Run(scope, events + [bump]).shared, Run(scope, events + [bump] + more).shared;
            t.phase == Locked && t.renewal == None && t.owner == s.owner
  {
    hide Run, Step;
    StaysStale(scope, events, bump, more);
  }

  lemma {:induction false} StaysStale(scope: string, events: seq<Event>, bump: Event, more: seq<Event>)
    requires Bumps(Run(scope, events).shared, bump)
    requires forall e :: e in more ==> Elsewhere(e, Run(scope, events + [bump]).shared.owner)
    ensures AllStale(Run(scope, events + [bump] + more))
    ensures Run(scope, events + [bump] + more).shared.owner == Run(scope, events + [bump]).shared.owner
  {
    hide Step, AllStale, Inv, Bumps, Elsewhere;
    var all := events + [bump];
    if more == [] {
      assert all + more == all && all[..|all| - 1] == events;
      RunKeepsInv(scope, events);
      BumpStales(Run(scope, events), bump);
    } else {
      var (init, last) := (more[..|more| - 1], more[|more| - 1]);
      assert last in more && forall e :: e in init ==> e in more;
      StaysStale(scope, events, bump, init);
      assert (all + more)[..|all + more| - 1] == all + init;
      StaleStays(Run(scope, all + init), last);
    }
  }

  /** At most one poll of a generation is under way, and pollStatus refers to it. */
  lemma OnePollPerGeneration(scope: string, events: seq<Event>, i: nat, j: nat)
    requires var s := Run(scope, events);
             && i < |s.tasks| && j < |s.tasks| && s.tasks[i].poll && s.tasks[j].poll
             && s.tasks[i].generation == s.shared.generation == s.tasks[j].generation
    ensures i == j && Run(scope, events).shared.statusPoll == Some(i)
  {
    hide Run;
    RunKeepsInv(scope, events);
    var s := Run(scope, events);
    assert TaskOk(s.shared, i, s.tasks[i]) && TaskOk(s.shared, j, s.tasks[j]);
  }

  /** A session becomes ready only when its grant was opened and saved, and for the request that is current then. */
  lemma OnlySavedGrantsBecomeReady(s: State, e: Event)
    requires Inv(s) && Step(s, e).shared.phase.Ready? && Step(s, e).shared.phase != s.shared.phase
    ensures e.Resumed? && e.i < |s.tasks|
    ensures var t := s.tasks[e.i];
            || (t.wait.SavingSession? && Owns(s.shared, t) && IsCurrentRequest(s.shared, t.wait.pending.record) &&
                Step(s, e).shared.phase.record.id == t.wait.pending.record.id)
            || (t.wait.Undoing? && Step(s, e).shared.phase == t.wait.previous)
  {
    hide Poll;
    match e {
      case PollCalled(scope, expired) => PollKeepsPhase(s.shared, Called(s.shared, scope, Finished), |s.tasks|, expired);
      case Resumed(i, o) =>
        if i < |s.tasks| && s.tasks[i].wait.Listing? && o.session.Some? {
          RestoreShowsPending(s.shared, s.tasks[i], i, o.session.value, o);
        }
        hide Restore;
      case _ =>
    }
  }

  /**
   * What is shown gives way to a pending request only when requestAccess shows a new one of its own, or takes
   * one back that is still shown; a stored session is resumed over nothing but a locked phase.
   */
  lemma OnlyRequestsReplace(s: State, e: Event)
    requires s.shared.phase != Locked && Step(s, e).shared.phase.Pending? && Step(s, e).shared.phase != s.shared.phase
    ensures e.Resumed? && e.i < |s.tasks| && Owns(s.shared, s.tasks[e.i])
    ensures var w := s.tasks[e.i].wait;
            || (w.SavingRequest? && Step(s, e).shared.phase == Pending(PendingRequest(w.record, w.renewal)))
            || (w.Undoing? && Step(s, e).shared.phase == w.previous && PendingWith(s.shared.phase, w.record.id))
  {
    hide Poll, Restore;
    if e.PollCalled? { PollKeepsPhase(s.shared, Called(s.shared, e.scope, Finished), |s.tasks|, e.expired); }
  }

  lemma PollKeepsPhase(m: Shared, t: Task, i: nat, expired: bool)
    ensures Poll(m, t, i, expired).0.phase == m.phase
  {
  }

  lemma RestoreShowsPending(m: Shared, t: Task, i: nat, id: nat, o: Outcome)
    ensures Restore(m, t, i, id, o).0.phase.Pending?
  {
  }

  // ---- The hook ----

  /** The references of the hook; each method is the code of a callback between two awaits. */
  class Workspace {
    var ownerScope: string
    var sessionGeneration: nat
    var phaseRef: Phase
    var renewalRef: Option<PendingRequest>
    var statusPoll: Option<nat>
    var nextId: nat
    ghost var author: nat
    ghost var renewalAuthor: nat

    ghost function View(): Shared
      reads this
    {
      Shared(ownerScope, sessionGeneration, phaseRef, renewalRef, statusPoll, nextId, author, renewalAuthor)
    }

    constructor (scope: string)
      ensures View() == Mounted(scope).shared
    {
      ownerScope, sessionGeneration, phaseRef, renewalRef := scope, 0, Locked, None;
      statusPoll, nextId, author, renewalAuthor := None, 0, 0, 0;
    }

    method ReplacePhase(next: Phase, invalidateCommands: bool, ghost writer: nat)
      modifies `sessionGeneration, `phaseRef, `author
      ensures phaseRef == next && author == writer
      ensures sessionGeneration == old(sessionGeneration) + if invalidateCommands then 1 else 0
    {
      if invalidateCommands { sessionGeneration := sessionGeneration + 1; }
      phaseRef, author := next, writer;
    }

    method SetRenewal(next: Option<PendingRequest>, ghost writer: nat)
      modifies `renewalRef, `renewalAuthor
      ensures renewalRef == next && renewalAuthor == writer
    {
      renewalRef, renewalAuthor := next, writer;
    }

    predicate OwnsCurrentScope(t: Task)
      reads this
    {
      ownerScope == t.scope && sessionGeneration == t.generation
    }

    predicate CurrentRequest(record: Record)
      reads this
    {
      || (renewalRef.Some? && renewalRef.value.record.id == record.id)
      || (phaseRef.Pending? && phaseRef.pending.record.id == record.id)
    }

    method CollectRequests() returns (requestIds: set<nat>)
      ensures requestIds == ToPurge(View())
    {
      requestIds := {};
      if phaseRef.Pending? {
        requestIds := {phaseRef.pending.record.id};
      } else if phaseRef.Ready? {
        requestIds := {phaseRef.record.id};
      }
      if renewalRef.Some? { requestIds := requestIds + {renewalRef.value.record.id}; }
    }

    method LockSession(t: Task) returns (u: Task)
      modifies this
      ensures (View(), u) == Lock(old(View()), t)
    {
      u := t.(wait := Finished);
      if ownerScope != t.scope { return; }
      hide ToPurge;
      var requestIds := CollectRequests();
      SetRenewal(None, renewalAuthor);
      ReplacePhase(Locked, true, author);
      statusPoll := None;
      u := t.(wait := AfterPurge(|requestIds|));
    }

    method DisconnectSession(scope: string) returns (u: Task)
      modifies this
      ensures (View(), u) == Disconnect(old(View()), scope)
    {
      u := Task(scope, sessionGeneration, Finished, false);
      if ownerScope != scope { return; }
      if phaseRef.Pending? || phaseRef.Ready? || renewalRef.Some? {
        u := u.(wait := Revoking);
      } else {
        u := LockSession(u);
      }
    }

    method SwitchScope(scope: string)
      modifies this
      ensures View() == ChangeScope(old(View()), scope)
    {
      if ownerScope == scope { return; }
      ownerScope := scope;
      statusPoll := None;
      SetRenewal(None, renewalAuthor);
      ReplacePhase(Locked, true, author);
    }

    method FinishEnding(reason: Reason, generation: nat)
      modifies this
      ensures View() == EndNow(old(View()), reason, generation)
    {
      SetRenewal(None, generation);
      ReplacePhase(Ended(reason), false, generation);
    }

    method EndSession(t: Task, reason: Reason) returns (u: Task)
      modifies this
      ensures (View(), u) == BeginEnd(old(View()), t, reason)
    {
      u := t.(generation := sessionGeneration, wait := Finished);
      if ownerScope != t.scope { return; }
      if phaseRef.Pending? || phaseRef.Ready? {
        u := u.(wait := Removing(reason, renewalRef.Some?));
      } else if renewalRef.Some? {
        u := u.(wait := Removing(reason, false));
      } else {
        FinishEnding(reason, u.generation);
      }
    }

    method PollStatus(t: Task, i: nat, expired: bool) returns (u: Task)
      modifies `statusPoll
      ensures (View(), u) == Poll(old(View()), t, i, expired)
    {
      if statusPoll.Some? { return t.(wait := Finished); }
      var asked := if renewalRef.Some? then renewalRef else if phaseRef.Pending? then Some(phaseRef.pending) else None;
      var wait := Finished;
      if asked.Some? || phaseRef.Ready? {
        var record := if asked.Some? then asked.value.record else phaseRef.record;
        if record.scope == t.scope {
          wait := if expired && asked.Some? then Expiring(asked.value) else Polling(asked, phaseRef);
        }
      }
      u := Task(t.scope, sessionGeneration, wait, true);
      statusPoll := Some(i);
    }

    method DismissRequest(t: Task, record: Record, wasRenewal: bool, reason: Reason)
      modifies this
      ensures View() == Dismiss(old(View()), t, record, wasRenewal, reason)
    {
      if wasRenewal { SetRenewal(None, t.generation); }
      if !wasRenewal && phaseRef.Pending? && phaseRef.pending.record.id == record.id {
        ReplacePhase(Ended(reason), false, t.generation);
      } else if reason == Revoked && phaseRef.Ready? && phaseRef.trust == record.trust {
        ReplacePhase(Ended(Revoked), false, t.generation);
      }
    }

    method AdmitSession(t: Task, record: Record, trust: Option<nat>)
      modifies this
      ensures View() == Admit(old(View()), t, record, trust)
    {
      ReplacePhase(Ready(if trust.Some? then record.(trust := trust) else record, trust), false, t.generation);
      if renewalRef.Some? && renewalRef.value.record.id == record.id { SetRenewal(None, t.generation); }
    }

    method ShowRequest(t: Task, record: Record, renewal: bool) returns (u: Task)
      modifies this
      ensures (View(), u) == Show(old(View()), t, record, renewal)
    {
      var previous := phaseRef;
      var keepCurrent := renewal && previous.Ready? && previous.trust == record.trust;
      if keepCurrent {
        SetRenewal(Some(PendingRequest(record, renewal)), t.generation);
      } else {
        ReplacePhase(Pending(PendingRequest(record, renewal)), false, t.generation);
      }
      u := t.(wait := Requesting(previous, record, keepCurrent));
    }

    method UndoRequest(t: Task, previous: Phase, record: Record, keepCurrent: bool)
      modifies this
      ensures View() == Undo(old(View()), t, previous, record, keepCurrent)
    {
      if keepCurrent {
        SetRenewal(None, t.generation);
      } else if phaseRef.Pending? && phaseRef.pending.record.id == record.id {
        ReplacePhase(previous, false, t.generation);
      }
    }

    method RestoreSession(t: Task, i: nat, id: nat, o: Outcome) returns (u: Task)
      modifies this
      ensures (View(), u) == Restore(old(View()), t, i, id, o)
    {
      hide Poll;
      var pending := PendingRequest(Record(t.scope, id, o.trust), o.trust.Some?);
      if pending.renewal { SetRenewal(Some(pending), t.generation); }
      ReplacePhase(Pending(pending), false, t.generation);
      u := PollStatus(t, i, o.expired);
    }

    method Resume(t: Task, i: nat, o: Outcome) returns (u: Task)
      modifies this
      ensures (View(), u) == Continue(old(View()), t, i, o)
    {
      hide ContinueAccept, ContinueRequest, ContinueOther;
      if Accepting(t.wait) {
        u := ResumeAccept(t, o);
      } else if AskingAccess(t.wait) {
        u := ResumeRequest(t, o);
      } else {
        u := ResumeOther(t, i, o);
      }
    }

    method ResumeAccept(t: Task, o: Outcome) returns (u: Task)
      modifies this
      ensures (View(), u) == ContinueAccept(old(View()), t, o)
    {
      hide Dismiss, Admit;
      u := t.(wait := Finished);
      match t.wait
      case Dismissing(record, wasRenewal, reason, more) =>
        if more { return t.(wait := Dismissing(record, wasRenewal, reason, false)); }
        if !OwnsCurrentScope(t) { return; }
        DismissRequest(t, record, wasRenewal, reason);
      case Unwrapping(pending) =>
        if !OwnsCurrentScope(t) || !CurrentRequest(pending.record) { return; }
        if !o.ok { return; }
        if pending.record.trust.Some? {
          u := t.(wait := CheckingTrust(pending));
        } else if o.trust.Some? {
          u := t.(wait := SavingTrust(pending, o.trust));
        } else if !pending.renewal {
          u := t.(wait := SavingSession(pending, None));
        }
      case CheckingTrust(pending) =>
        if !OwnsCurrentScope(t) || !CurrentRequest(pending.record) { return; }
        if o.ok { u := t.(wait := SavingTrust(pending, pending.record.trust)); }
      case SavingTrust(pending, trust) =>
        if !OwnsCurrentScope(t) || !CurrentRequest(pending.record) { return; }
        u := t.(wait := SavingSession(pending, trust));
      case SavingSession(pending, trust) =>
        if !OwnsCurrentScope(t) || !CurrentRequest(pending.record) { return; }
        AdmitSession(t, pending.record, trust);
      case _ =>
    }

    method ResumeRequest(t: Task, o: Outcome) returns (u: Task)
      modifies this
      ensures (View(), u) == ContinueRequest(old(View()), t, o)
    {
      hide Show, Undo;
      u := t.(wait := Finished);
      match t.wait
      case Finding =>
        if !OwnsCurrentScope(t) { return; }
        var record := Record(t.scope, nextId, o.trust);
        nextId := nextId + 1;
        u := t.(wait := if o.trust.Some? then Proving(record) else SavingRequest(record, false));
      case Proving(record) =>
        if !OwnsCurrentScope(t) { return; }
        u := t.(wait := SavingRequest(record, true));
      case SavingRequest(record, renewal) =>
        if !OwnsCurrentScope(t) { return t.(wait := Discarding); }
        u := ShowRequest(t, record, renewal);
      case Requesting(previous, record, keep) =>
        if !OwnsCurrentScope(t) { return; }
        if !o.ok { u := t.(wait := Undoing(previous, record, keep)); }
      case Undoing(previous, record, keep) =>
        if !OwnsCurrentScope(t) { return; }
        UndoRequest(t, previous, record, keep);
      case _ =>
    }

    method ResumeOther(t: Task, i: nat, o: Outcome) returns (u: Task)
      modifies this
      ensures (View(), u) == ContinueOther(old(View()), t, i, o)
    {
      hide BeginEnd, EndNow, Restore;
      u := t.(wait := Finished);
      match t.wait
      case Removing(reason, more) =>
        if more { return t.(wait := Removing(reason, false)); }
        if !OwnsCurrentScope(t) { return; }
        FinishEnding(reason, t.generation);
      case Purging(left) => u := t.(wait := AfterPurge(if left == 0 then 0 else left - 1));
      case Revoking => if o.ok { u := t.(wait := Forgetting); }
      case Forgetting =>
        if !OwnsCurrentScope(t) { return; }
        FinishEnding(Revoked, t.generation);
      case Expiring(pending) =>
        if !OwnsCurrentScope(t) { return; }
        if pending.renewal {
          SetRenewal(None, t.generation);
        } else if phaseRef.Pending? && phaseRef.pending.record.id == pending.record.id {
          u := EndSession(t, Expired);
        }
      case Polling(asked, current) =>
        if !o.ok || !OwnsCurrentScope(t) { return; }
        u := TakeStatus(t, asked, current, o.status);
      case Listing =>
        if o.cancelled || !OwnsCurrentScope(t) || phaseRef != Locked { return; }
        if o.session.Some? {
          u := RestoreSession(t, i, o.session.value, o);
        } else {
          u := t.(wait := ListingTrusts);
        }
      case ListingTrusts =>
        if o.cancelled || !OwnsCurrentScope(t) { return; }
        if o.ok { u := t.(generation := sessionGeneration, wait := Finding); }
      case _ =>
    }

    /** pollStatus with a status of its own scope and generation: acceptStatus or endSession begins. */
    method TakeStatus(t: Task, asked: Option<PendingRequest>, current: Phase, status: Status) returns (u: Task)
      requires OwnsCurrentScope(t)
      modifies this
      ensures (View(), u) == AfterStatus(old(View()), t, asked, current, status)
    {
      hide BeginEnd;
      u := t.(wait := Finished);
      if asked.Some? {
        var record := asked.value.record;
        var wasRenewal := renewalRef.Some? && renewalRef.value.record.id == record.id;
        u := t.(generation := sessionGeneration,
                wait := match status
                        case Waiting => Finished
                        case Over(reason) => Dismissing(record, wasRenewal, reason, reason == Revoked && record.trust.Some?)
                        case Approved(verifiable) => if verifiable then Unwrapping(asked.value) else Finished);
      } else if current.Ready? && status == Over(Revoked) {
        u := EndSession(t, Revoked);
      } else if current.Ready? && status == Over(Expired) && current.trust == None {
        u := EndSession(t, Expired);
      }
    }
  }
}
