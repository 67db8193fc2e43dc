/**
 * The mobile account store: a generation counter, an availability flag, serialized writes and two storage
 * keys. Each event is the code between two awaits of one task, or one storage operation taking effect;
 * every interleaving of enrolling, refreshing, reading and signing out is a sequence of events.
 */
module Account {

  import opened Prelude

  type Url = string

  /** A stored session: the backend that issued it, the generation of the call that stored it, whether it parses. */
  datatype Token = Token(url: Url, author: nat, valid: bool)

  datatype Connection = Connection(url: Url, token: Token)

  datatype Write =
    | Store(owner: nat, generation: nat, token: Token)
    | Clear(owner: nat, generation: nat)

  /** How far the running write is. */
  datatype Stage = Idle | Previous | SessionNext | BackendNext

  /**
   * Module variables and storage. writes lists every write ever serialized, outcomes tells of the finished
   * ones whether they ran to the end; the write running or next is writes[|outcomes|].
   */
  datatype Shared = Shared(generation: nat, unavailable: bool, backend: Option<Url>, session: Option<Token>,
                           writes: seq<Write>, outcomes: seq<bool>, stage: Stage)

  datatype Kind = Enroll(url: Url) | SignOut | Refresh | Read

  datatype Phase =
    | Waiting(ticket: nat)                              // awaits the writes serialized before ticket
    | Reading(backend: Option<Option<Url>>, session: Option<Option<Token>>)
    | Fetching(url: Url)
    | Storing(ticket: nat, token: Token)
    | Clearing(ticket: nat)
    | Returning(ok: bool, token: Token)                 // before the finally block of enrollWithCode
    | Returned(result: Option<Connection>)              // None also stands for a thrown error

  datatype Task = Task(kind: Kind, generation: nat, phase: Phase)

  datatype State = State(shared: Shared, tasks: seq<Task>)

  datatype Event =
    | Starts(kind: Kind)
    | Wakes(i: nat)
    | ReadsBackend(i: nat)
    | ReadsSession(i: nat)
    | ReadEnds(i: nat)
    | FetchEnds(i: nat, ok: bool, valid: bool)
    | WriteSettles(i: nat)
    | Returns(i: nat)
    | WriteStarts
    | WriteReads
    | WriteSession
    | WriteBackend

  /** What a previous run of the program left in storage. */
  function Initial(stored: Option<Token>): State {
    State(Shared(0, false, if stored.Some? then Some(stored.value.url) else None, stored, [], [], Idle), [])
  }

  predicate Leads(kind: Kind) {
    kind.Enroll? || kind.SignOut?
  }

  // ---- Starting ----

  /** The synchronous beginning of a call; owner is the number the call will get. */
  function Begin(m: Shared, kind: Kind, owner: nat): (Shared, Task) {
    match kind
    case Enroll(url) =>
      (m.(generation := m.generation + 1, unavailable := true), Task(kind, m.generation + 1, Fetching(url)))
    case SignOut =>
      (m.(generation := m.generation + 1, unavailable := true, writes := m.writes + [Clear(owner, m.generation + 1)]),
       Task(kind, m.generation + 1, Clearing(|m.writes|)))
    case _ =>
      (m, Task(kind, m.generation, if m.unavailable then Returned(None) else Waiting(|m.writes|)))
  }

  // ---- The running write ----

  function Finish(m: Shared, ok: bool): Shared {
    m.(outcomes := m.outcomes + [ok], stage := Idle)
  }

  /** serializeAccountWrite starts the next write; a store of another generation throws. */
  function StartWrite(m: Shared): Shared {
    if m.stage != Idle || |m.outcomes| >= |m.writes| then m
    else
      var w := m.writes[|m.outcomes|];
      if w.Store? && w.generation != m.generation then Finish(m, false) else m.(stage := Previous)
  }

  function PreviousRead(m: Shared): Shared {
    if m.stage != Previous || |m.outcomes| >= |m.writes| then m
    else
      var w := m.writes[|m.outcomes|];
      if w.Store? && w.generation != m.generation then Finish(m, false) else m.(stage := SessionNext)
  }

  function PutSession(m: Shared): Shared {
    if m.stage != SessionNext || |m.outcomes| >= |m.writes| then m
    else
      var w := m.writes[|m.outcomes|];
      m.(session := if w.Store? then Some(w.token) else None, stage := BackendNext)
  }

  function PutBackend(m: Shared): Shared {
    if m.stage != BackendNext || |m.outcomes| >= |m.writes| then m
    else
      var w := m.writes[|m.outcomes|];
      Finish(m.(backend := if w.Store? then Some(w.token.url) else None), true)
  }

  // ---- The calls ----

  /** The end of getAccountConnection. */
  function ReadResult(m: Shared, t: Task, backend: Option<Url>, session: Option<Token>): Option<Connection> {
    if t.generation == m.generation && !m.unavailable && backend.Some? && session.Some? && session.value.valid
    then Some(Connection(backend.value, session.value)) else None
  }

  function EndRead(m: Shared, t: Task): Task {
    if t.phase.Reading? && t.phase.backend.Some? && t.phase.session.Some? then
      var result := ReadResult(m, t, t.phase.backend.value, t.phase.session.value);
      t.(phase := if t.kind == Refresh && result.Some? then Fetching(result.value.url) else Returned(result))
    else t
  }

  function EndFetch(m: Shared, t: Task, owner: nat, ok: bool, valid: bool): (Shared, Task) {
    if !t.phase.Fetching? then (m, t)
    else
      var token := Token(t.phase.url, t.generation, valid);
      if ok then (m.(writes := m.writes + [Store(owner, t.generation, token)]), t.(phase := Storing(|m.writes|, token)))
      else (m, t.(phase := if t.kind.Enroll? then Returning(false, token) else Returned(None)))
  }

  /** A leading task that is still current makes the account available again. */
  function Release(m: Shared, t: Task): Shared {
    if t.generation == m.generation then m.(unavailable := false) else m
  }

  function SettleWrite(m: Shared, t: Task): (Shared, Task) {
    match t.phase
    case Storing(ticket, token) =>
      if ticket >= |m.outcomes| then (m, t)
      else
        var ok := m.outcomes[ticket] && t.generation == m.generation;
        (m, t.(phase := if t.kind.Enroll? then Returning(ok, token)
                        else Returned(if ok then Some(Connection(token.url, token)) else None)))
    case Clearing(ticket) =>
      if ticket >= |m.outcomes| then (m, t) else (Release(m, t), t.(phase := Returned(None)))
    case _ => (m, t)
  }

  function Return(m: Shared, t: Task): (Shared, Task) {
    if !t.phase.Returning? then (m, t)
    else
      var token := t.phase.token;
      (Release(m, t), t.(phase := Returned(if t.phase.ok then Some(Connection(token.url, token)) else None)))
  }

  /** One event of task t. */
  function Advance(m: Shared, t: Task, e: Event): (Shared, Task) {
    match e
    case Wakes(_) =>
      (m, if t.phase.Waiting? && t.phase.ticket <= |m.outcomes| then t.(phase := Reading(None, None)) else t)
    case ReadsBackend(_) =>
      (m, if t.phase.Reading? && t.phase.backend == None then t.(phase := Reading(Some(m.backend), t.phase.session)) else t)
    case ReadsSession(_) =>
      (m, if t.phase.Reading? && t.phase.session == None then t.(phase := Reading(t.phase.backend, Some(m.session))) else t)
    case ReadEnds(_) => (m, EndRead(m, t))
    case FetchEnds(i, ok, valid) => EndFetch(m, t, i, ok, valid)
    case WriteSettles(_) => SettleWrite(m, t)
    case Returns(_) => Return(m, t)
    case _ => (m, t)
  }

  function Step(s: State, e: Event): State {
    match e
    case Starts(kind) =>
      var (m, t) := Begin(s.shared, kind, |s.tasks|);
      State(m, s.tasks + [t])
    case WriteStarts => s.(shared := StartWrite(s.shared))
    case WriteReads => s.(shared := PreviousRead(s.shared))
    case WriteSession => s.(shared := PutSession(s.shared))
    case WriteBackend => s.(shared := PutBackend(s.shared))
    case _ =>
      if e.i < |s.tasks| then
        var (m, t) := Advance(s.shared, s.tasks[e.i], e);
        State(m, s.tasks[e.i := t])
      else s
  }

  function Run(stored: Option<Token>, events: seq<Event>): State {
    if events == [] then Initial(stored) else Step(Run(stored, events[..|events| - 1]), events[|events| - 1])
  }

  // ---- Storage ----

  predicate Pair(backend: Option<Url>, session: Option<Token>) {
    backend.Some? == session.Some? && (session.Some? ==> session.value.url == backend.value)
  }

  /** The running write has passed both generation checks. */
  predicate PastCheck(m: Shared, k: nat) {
    k == |m.outcomes| && (m.stage == SessionNext || m.stage == BackendNext)
  }

  ghost predicate StorageOk(m: Shared) {
    && |m.outcomes| <= |m.writes|
    && (m.stage != Idle ==> |m.outcomes| < |m.writes|)
    && (if m.stage == BackendNext
        then m.session == (if m.writes[|m.outcomes|].Store? then Some(m.writes[|m.outcomes|].token) else None)
        else Pair(m.backend, m.session))
  }

  /** Generations only grow, a clearing write is newer than everything before it. */
  ghost predicate WritesOk(m: Shared) {
    && (forall k :: 0 <= k < |m.writes| ==> m.writes[k].generation <= m.generation)
    && (forall k, l :: 0 <= k < l < |m.writes| && m.writes[l].Clear? ==>
          m.writes[k].generation < m.writes[l].generation)
    && (forall k :: 0 <= k < |m.writes| && m.writes[k].Store? ==>
          m.writes[k].token.author == m.writes[k].generation)
  }

  /** Write k can no longer change the backend address: it will throw, or it stores the same address again. */
  predicate Harmless(m: Shared, k: nat)
    requires k < |m.writes|
  {
    && m.writes[k].Store?
    && (if m.writes[k].generation == m.generation then m.backend == Some(m.writes[k].token.url) else !PastCheck(m, k))
  }

  /** For the rest of the generation the address stays and the session belongs to it. */
  ghost predicate Settled(m: Shared) {
    Pair(m.backend, m.session) && forall k {:trigger m.writes[k]} :: |m.outcomes| <= k < |m.writes| ==> Harmless(m, k)
  }

  // ---- Tasks ----

  /** A task of the current generation that relies on the stored address. */
  predicate Anchored(m: Shared, t: Task) {
    && t.generation == m.generation
    && match t.phase
       case Reading(_, _) => true
       case Fetching(_) => t.kind == Refresh
       case Storing(k, _) => t.kind == Refresh || (k < |m.outcomes| && m.outcomes[k])
       case Returning(ok, _) => ok
       case Returned(result) => t.kind.Enroll? && result.Some?
       case _ => false
  }

  predicate PhaseOk(m: Shared, t: Task) {
    match t.phase
    case Waiting(k) => !Leads(t.kind) && k <= |m.writes|
    case Reading(_, _) => !Leads(t.kind)
    case Fetching(url) => t.kind == Refresh || t.kind == Enroll(url)
    case Storing(k, token) =>
      && (t.kind == Refresh || t.kind == Enroll(token.url))
      && k < |m.writes| && m.writes[k].Store? && m.writes[k].token == token && m.writes[k].generation == t.generation
    case Clearing(k) =>
      t.kind == SignOut && k < |m.writes| && m.writes[k].Clear? && m.writes[k].generation == t.generation
    case Returning(_, token) => t.kind == Enroll(token.url)
    case Returned(result) =>
      result.Some? ==>
        && result.value.url == result.value.token.url && t.kind != SignOut
        && (t.kind.Enroll? ==> t.kind.url == result.value.url)
  }

  /** Leading tasks keep the account unavailable, the others have found it available. */
  predicate FlagOk(m: Shared, t: Task) {
    t.generation == m.generation ==>
      && (Leads(t.kind) && !t.phase.Returned? ==> m.unavailable)
      && (!Leads(t.kind) && t.phase != Returned(None) ==> !m.unavailable)
  }

  ghost predicate WaitOk(m: Shared, t: Task) {
    t.phase.Waiting? && t.generation == m.generation ==>
      forall k :: t.phase.ticket <= k < |m.writes| && |m.outcomes| <= k ==>
        m.writes[k].Store? && (m.writes[k].generation == m.generation || !PastCheck(m, k))
  }

  /** What an anchored task has seen or will store is about the stored address. */
  predicate AddressOk(m: Shared, t: Task) {
    match t.phase
    case Reading(b, s) =>
      && (b.Some? ==> b.value == m.backend)
      && (s.Some? ==> Pair(m.backend, s.value))
    case Fetching(url) => m.backend == Some(url)
    case Storing(_, token) => m.backend == Some(token.url)
    case Returning(_, token) => m.backend == Some(token.url)
    case Returned(result) => result.Some? ==> m.backend == Some(result.value.url)
    case _ => true
  }

  /** After the store of an enrolment the stored session is of its generation, its own or a refreshed one. */
  predicate AuthorOk(m: Shared, t: Task) {
    t.kind.Enroll? ==> m.session.Some? && m.session.value.author == t.generation
  }

  ghost predicate AnchorOk(m: Shared, t: Task) {
    Anchored(m, t) ==> Settled(m) && AddressOk(m, t) && AuthorOk(m, t)
  }

  /** The clearing write of a sign-out has run. */
  predicate Cleared(m: Shared, t: Task) {
    t.kind == SignOut && (t.phase.Clearing? ==> t.phase.ticket < |m.outcomes|)
  }

  /** No session of this generation or an older one is in storage or about to be. */
  predicate ClearOk(m: Shared, t: Task) {
    Cleared(m, t) ==>
      && (m.session.Some? ==> t.generation < m.session.value.author)
      && (forall k {:trigger m.writes[k]} :: 0 <= k < |m.writes| && PastCheck(m, k) && m.writes[k].Store? ==> t.generation < m.writes[k].generation)
      && (t.generation == m.generation ==> m.backend == None)
  }

  ghost predicate TaskOk(m: Shared, t: Task) {
    && t.generation <= m.generation
    && PhaseOk(m, t) && FlagOk(m, t) && WaitOk(m, t) && AnchorOk(m, t) && ClearOk(m, t)
  }

  /** Unfinished writes have an owner that waits for them. */
  predicate OwnedBy(t: Task, w: Write, k: nat) {
    t.generation == w.generation && if w.Store? then t.phase == Storing(k, w.token) else t.phase == Clearing(k)
  }

  ghost predicate Owned(m: Shared, tasks: seq<Task>) {
    forall k :: |m.outcomes| <= k < |m.writes| ==>
      m.writes[k].owner < |tasks| && OwnedBy(tasks[m.writes[k].owner], m.writes[k], k)
  }

  /** An enrolment or sign-out is of a newer generation than every call that began before it. */
  ghost predicate Ordered(tasks: seq<Task>) {
    forall i, j :: 0 <= i < j < |tasks| && Leads(tasks[j].kind) ==> tasks[i].generation < tasks[j].generation
  }

  ghost predicate Inv(s: State) {
    && StorageOk(s.shared) && WritesOk(s.shared)
    && Owned(s.shared, s.tasks) && Ordered(s.tasks)
    && forall i :: 0 <= i < |s.tasks| ==> TaskOk(s.shared, s.tasks[i])
  }

  // ---- What one change of the shared state does to a task ----

  /** o and t are not two leading tasks of one generation. */
  predicate Apart(o: Task, t: Task) {
    Leads(o.kind) && Leads(t.kind) ==> o.generation != t.generation
  }

  lemma ThrowingKeeps(m: Shared, t: Task)
    requires StorageOk(m) && WritesOk(m) && TaskOk(m, t)
    requires m.stage == Idle || m.stage == Previous
    requires |m.outcomes| < |m.writes| && m.writes[|m.outcomes|].Store?
    requires m.writes[|m.outcomes|].generation != m.generation
    ensures TaskOk(Finish(m, false), t)
  {
    var n := Finish(m, false);
    if Anchored(n, t) {
      forall k | |n.outcomes| <= k < |n.writes|
        ensures Harmless(n, k)
      {
        assert k < |m.writes| ==> n.writes[k] == m.writes[k];
      }
    }
  }

  lemma StageKeeps(m: Shared, stage: Stage, t: Task, o: Task)
    requires StorageOk(m) && WritesOk(m) && TaskOk(m, t) && TaskOk(m, o) && (o == t || Apart(o, t))
    requires (m.stage == Idle && stage == Previous) || (m.stage == Previous && stage == SessionNext)
    requires |m.outcomes| < |m.writes| && OwnedBy(o, m.writes[|m.outcomes|], |m.outcomes|)
    requires m.writes[|m.outcomes|].Clear? || m.writes[|m.outcomes|].generation == m.generation
    ensures TaskOk(m.(stage := stage), t)
  {
    var n := m.(stage := stage);
    if Anchored(n, t) {
      forall k | |n.outcomes| <= k < |n.writes|
        ensures Harmless(n, k)
      {
        assert k < |m.writes| ==> n.writes[k] == m.writes[k];
      }
    }
  }

  lemma SessionKeeps(m: Shared, t: Task)
    requires StorageOk(m) && WritesOk(m) && TaskOk(m, t) && m.stage == SessionNext
    ensures TaskOk(PutSession(m), t)
  {
    var n := PutSession(m);
    if Anchored(n, t) {
      forall k | |n.outcomes| <= k < |n.writes|
        ensures Harmless(n, k)
      {
        assert k < |m.writes| ==> n.writes[k] == m.writes[k];
      }
    }
  }

  /** Nothing but throwing stores behind write k. */
  predicate OnlyOldBehind(m: Shared, k: nat) {
    forall l :: k < l < |m.writes| ==> m.writes[l].Store? && m.writes[l].generation < m.generation
  }

  lemma BackendKeeps(m: Shared, t: Task)
    requires StorageOk(m) && WritesOk(m) && TaskOk(m, t) && m.stage == BackendNext
    requires t.kind.Enroll? && t.phase.Storing? && t.phase.ticket == |m.outcomes| && t.generation == m.generation ==>
               OnlyOldBehind(m, |m.outcomes|)
    ensures TaskOk(PutBackend(m), t)
  {
    var n := PutBackend(m);
    if Anchored(n, t) {
      forall k | |n.outcomes| <= k < |n.writes|
        ensures Harmless(n, k)
      {
        assert k < |m.writes| ==> n.writes[k] == m.writes[k];
      }
    }
  }

  lemma EnqueueKeeps(m: Shared, t: Task, o: Task, w: Write)
    requires StorageOk(m) && WritesOk(m) && TaskOk(m, t) && TaskOk(m, o) && Apart(o, t)
    requires o.phase.Fetching? && w.Store? && w.generation == o.generation && w.token.url == o.phase.url
    ensures TaskOk(m.(writes := m.writes + [w]), t)
  {
    var n := m.(writes := m.writes + [w]);
    if Anchored(n, t) {
      forall k | |n.outcomes| <= k < |n.writes|
        ensures Harmless(n, k)
      {
        assert k < |m.writes| ==> n.writes[k] == m.writes[k];
      }
    }
  }

  lemma BumpKeeps(m: Shared, t: Task, more: seq<Write>)
    requires StorageOk(m) && WritesOk(m) && TaskOk(m, t)
    requires |more| <= 1
    ensures TaskOk(m.(generation := m.generation + 1, unavailable := true, writes := m.writes + more), t)
  {
  }

  lemma ReleaseKeeps(m: Shared, t: Task, o: Task)
    requires TaskOk(m, t) && Leads(o.kind) && Apart(o, t)
    ensures TaskOk(Release(m, o), t)
  {
  }

  lemma OrderedApart(tasks: seq<Task>, i: nat, j: nat)
    requires Ordered(tasks) && i < |tasks| && j < |tasks| && i != j
    ensures Apart(tasks[i], tasks[j])
  {
  }

  // ---- Every event ----

  /** A store of the current generation still to run belongs to an anchored refresh, or the account is unavailable. */
  lemma CurrentStore(s: State, k: nat)
    requires Inv(s) && |s.shared.outcomes| <= k < |s.shared.writes|
    requires s.shared.writes[k].Store? && s.shared.writes[k].generation == s.shared.generation
    ensures Settled(s.shared) || s.shared.unavailable
  {
    var o := s.tasks[s.shared.writes[k].owner];
    assert OwnedBy(o, s.shared.writes[k], k);
    assert TaskOk(s.shared, o);
  }

  lemma NewTaskOk(m: Shared, kind: Kind, owner: nat)
    requires StorageOk(m) && WritesOk(m)
    ensures var (n, t) := Begin(m, kind, owner);
            StorageOk(n) && WritesOk(n) && TaskOk(n, t)
  {
  }

  lemma GenerationBound(s: State, i: nat)
    requires Inv(s) && i < |s.tasks|
    ensures s.tasks[i].generation <= s.shared.generation
  {
    assert TaskOk(s.shared, s.tasks[i]);
  }

  lemma BeginKeeps(m: Shared, t: Task, kind: Kind, owner: nat)
    requires StorageOk(m) && WritesOk(m) && TaskOk(m, t)
    ensures TaskOk(Begin(m, kind, owner).0, t)
  {
    hide TaskOk;
    if Leads(kind) {
      BumpKeeps(m, t, if kind.SignOut? then [Clear(owner, m.generation + 1)] else []);
      assert m.writes + [] == m.writes;
    }
  }

  lemma StartKeeps(s: State, kind: Kind)
    requires Inv(s)
    ensures Inv(Step(s, Starts(kind)))
  {
    hide TaskOk, StorageOk, WritesOk;
    var m := s.shared;
    NewTaskOk(m, kind, |s.tasks|);
    forall j | 0 <= j < |s.tasks|
      ensures TaskOk(Begin(m, kind, |s.tasks|).0, s.tasks[j]) && s.tasks[j].generation <= m.generation
    {
      assert TaskOk(m, s.tasks[j]);
      BeginKeeps(m, s.tasks[j], kind, |s.tasks|);
      GenerationBound(s, j);
    }
  }

  lemma StartWriteKeeps(s: State)
    requires Inv(s)
    ensures Inv(Step(s, WriteStarts))
  {
    var m := s.shared;
    if m.stage == Idle && |m.outcomes| < |m.writes| {
      NextKeeps(s, Previous);
    }
  }

  lemma PreviousReadKeeps(s: State)
    requires Inv(s)
    ensures Inv(Step(s, WriteReads))
  {
    if s.shared.stage == Previous {
      NextKeeps(s, SessionNext);
    }
  }

  /** A generation check of the running write, either way. */
  lemma NextKeeps(s: State, stage: Stage)
    requires Inv(s) && |s.shared.outcomes| < |s.shared.writes|
    requires (s.shared.stage == Idle && stage == Previous) || (s.shared.stage == Previous && stage == SessionNext)
    ensures var m, w := s.shared, s.shared.writes[|s.shared.outcomes|];
            Inv(s.(shared := if w.Store? && w.generation != m.generation then Finish(m, false) else m.(stage := stage)))
  {
    hide TaskOk, Ordered, Apart;
    var m, w := s.shared, s.shared.writes[|s.shared.outcomes|];
    var o := s.tasks[w.owner];
    assert OwnedBy(o, w, |m.outcomes|);
    forall j | 0 <= j < |s.tasks|
      ensures TaskOk(if w.Store? && w.generation != m.generation then Finish(m, false) else m.(stage := stage), s.tasks[j])
    {
      assert TaskOk(m, s.tasks[j]) && TaskOk(m, o);
      if j != w.owner { OrderedApart(s.tasks, w.owner, j); }
      if w.Store? && w.generation != m.generation {
        ThrowingKeeps(m, s.tasks[j]);
      } else {
        StageKeeps(m, stage, s.tasks[j], o);
      }
    }
  }

  lemma PutSessionKeeps(s: State)
    requires Inv(s)
    ensures Inv(Step(s, WriteSession))
  {
    if s.shared.stage == SessionNext {
      forall j | 0 <= j < |s.tasks|
        ensures TaskOk(PutSession(s.shared), s.tasks[j])
      {
        SessionKeeps(s.shared, s.tasks[j]);
      }
    }
  }

  /** When the store of an enrolment of the current generation ends, only throwing stores wait behind it. */
  lemma EnrolmentIsLast(s: State, i: nat)
    requires Inv(s) && i < |s.tasks|
    requires s.tasks[i].kind.Enroll? && s.tasks[i].generation == s.shared.generation
    requires s.tasks[i].phase.Storing? && s.tasks[i].phase.ticket == |s.shared.outcomes|
    ensures OnlyOldBehind(s.shared, |s.shared.outcomes|)
  {
    var m, k := s.shared, |s.shared.outcomes|;
    assert TaskOk(m, s.tasks[i]);
    forall l | k < l < |m.writes|
      ensures m.writes[l].Store? && m.writes[l].generation < m.generation
    {
      var o := s.tasks[m.writes[l].owner];
      assert OwnedBy(o, m.writes[l], l) && TaskOk(m, o);
      assert m.writes[l].owner == i || Apart(o, s.tasks[i]);
    }
  }

  lemma PutBackendKeeps(s: State)
    requires Inv(s)
    ensures Inv(Step(s, WriteBackend))
  {
    var m := s.shared;
    if m.stage == BackendNext {
      forall j | 0 <= j < |s.tasks|
        ensures TaskOk(PutBackend(m), s.tasks[j])
      {
        var t := s.tasks[j];
        if t.kind.Enroll? && t.phase.Storing? && t.phase.ticket == |m.outcomes| && t.generation == m.generation {
          EnrolmentIsLast(s, j);
        }
        BackendKeeps(m, t);
      }
    }
  }

  /** The writes a current reader waited for are done: what is left cannot change the address. */
  lemma WakingSettles(s: State, i: nat)
    requires Inv(s) && i < |s.tasks| && s.tasks[i].phase.Waiting?
    requires s.tasks[i].phase.ticket <= |s.shared.outcomes| && s.tasks[i].generation == s.shared.generation
    ensures Settled(s.shared)
  {
    var m := s.shared;
    assert TaskOk(m, s.tasks[i]);
    if k :| |m.outcomes| <= k < |m.writes| && m.writes[k].Store? && m.writes[k].generation == m.generation {
      CurrentStore(s, k);
    } else {
      forall k | |m.outcomes| <= k < |m.writes|
        ensures Harmless(m, k)
      {
        assert m.writes[k].Store?;
      }
    }
  }

  lemma QuietKeeps(s: State, i: nat, t: Task)
    requires Inv(s) && i < |s.tasks| && TaskOk(s.shared, t)
    requires t.kind == s.tasks[i].kind && t.generation == s.tasks[i].generation
    requires s.tasks[i].phase.Storing? ==> s.tasks[i].phase.ticket < |s.shared.outcomes|
    requires !s.tasks[i].phase.Clearing?
    ensures Inv(s.(tasks := s.tasks[i := t]))
  {
    forall k | |s.shared.outcomes| <= k < |s.shared.writes|
      ensures s.shared.writes[k].owner != i
    {
      assert OwnedBy(s.tasks[s.shared.writes[k].owner], s.shared.writes[k], k);
    }
  }

  lemma StoringTaskOk(m: Shared, t: Task, w: Write)
    requires StorageOk(m) && WritesOk(m) && TaskOk(m, t) && t.phase.Fetching?
    requires w.Store? && w.generation == t.generation && w.token.url == t.phase.url && w.token.author == t.generation
    ensures var n := m.(writes := m.writes + [w]);
            StorageOk(n) && WritesOk(n) && TaskOk(n, t.(phase := Storing(|m.writes|, w.token)))
  {
    var n := m.(writes := m.writes + [w]);
    forall k | Anchored(n, t.(phase := Storing(|m.writes|, w.token))) && |n.outcomes| <= k < |n.writes|
      ensures Harmless(n, k)
    {
      assert k < |m.writes| ==> n.writes[k] == m.writes[k];
    }
  }

  lemma FailedFetchOk(m: Shared, t: Task, i: nat, valid: bool)
    requires TaskOk(m, t) && t.phase.Fetching?
    ensures TaskOk(m, EndFetch(m, t, i, false, valid).1)
  {
    hide Settled;
  }

  lemma EndFetchKeeps(s: State, i: nat, ok: bool, valid: bool)
    requires Inv(s) && i < |s.tasks| && s.tasks[i].phase.Fetching?
    ensures Inv(Step(s, FetchEnds(i, ok, valid)))
  {
    var m, o := s.shared, s.tasks[i];
    assert TaskOk(m, o);
    if ok {
      hide TaskOk, StorageOk, WritesOk;
      var token := Token(o.phase.url, o.generation, valid);
      var w := Store(i, o.generation, token);
      var n := m.(writes := m.writes + [w]);
      forall j | 0 <= j < |s.tasks| && j != i
        ensures TaskOk(n, s.tasks[j])
      {
        assert TaskOk(m, s.tasks[j]) && Apart(o, s.tasks[j]);
        EnqueueKeeps(m, s.tasks[j], o, w);
      }
      var t := o.(phase := Storing(|m.writes|, token));
      StoringTaskOk(m, o, w);
      forall k | |n.outcomes| <= k < |n.writes|
        ensures n.writes[k].owner < |s.tasks| && OwnedBy(s.tasks[i := t][n.writes[k].owner], n.writes[k], k)
      {
        assert k < |m.writes| ==> OwnedBy(s.tasks[m.writes[k].owner], m.writes[k], k);
      }
    } else {
      FailedFetchOk(m, o, i, valid);
      hide TaskOk;
      QuietKeeps(s, i, EndFetch(m, o, i, ok, valid).1);
    }
  }

  /** A leading task ends and makes the account available. */
  lemma ReleasingKeeps(s: State, i: nat, t: Task)
    requires Inv(s) && i < |s.tasks| && Leads(t.kind)
    requires t.kind == s.tasks[i].kind && t.generation == s.tasks[i].generation
    requires TaskOk(Release(s.shared, t), t)
    requires s.tasks[i].phase.Clearing? ==> s.tasks[i].phase.ticket < |s.shared.outcomes|
    requires !s.tasks[i].phase.Storing?
    ensures Inv(State(Release(s.shared, t), s.tasks[i := t]))
  {
    forall j | 0 <= j < |s.tasks| && j != i
      ensures TaskOk(Release(s.shared, t), s.tasks[j])
    {
      assert Apart(t, s.tasks[j]);
      ReleaseKeeps(s.shared, s.tasks[j], t);
    }
    forall k | |s.shared.outcomes| <= k < |s.shared.writes|
      ensures s.shared.writes[k].owner != i
    {
      assert OwnedBy(s.tasks[s.shared.writes[k].owner], s.shared.writes[k], k);
    }
  }

  lemma AdvanceKeeps(s: State, i: nat, e: Event)
    requires Inv(s) && i < |s.tasks|
    requires e == Wakes(i) || e == ReadsBackend(i) || e == ReadsSession(i) || e == ReadEnds(i) || e == WriteSettles(i) || e == Returns(i)
    ensures Inv(Step(s, e))
  {
    var m, o := s.shared, s.tasks[i];
    var (n, t) := Advance(m, o, e);
    assert TaskOk(m, o);
    if t == o && n == m {
      assert s.tasks[i := t] == s.tasks;
    } else if e.Wakes? {
      if o.generation == m.generation { WakingSettles(s, i); }
      QuietKeeps(s, i, t);
    } else if o.phase.Clearing? || e.Returns? {
      forall k | Anchored(n, t) && |n.outcomes| <= k < |n.writes|
        ensures Harmless(n, k)
      {
        assert n.writes[k] == m.writes[k];
      }
      ReleasingKeeps(s, i, t);
    } else {
      QuietKeeps(s, i, t);
    }
  }

  lemma StepKeepsInv(s: State, e: Event)
    requires Inv(s)
    ensures Inv(Step(s, e))
  {
    hide Inv, Begin, Advance, StartWrite, PreviousRead, PutSession, PutBackend;
    match e {
      case Starts(kind) => StartKeeps(s, kind);
      case WriteStarts => StartWriteKeeps(s);
      case WriteReads => PreviousReadKeeps(s);
      case WriteSession => PutSessionKeeps(s);
      case WriteBackend => PutBackendKeeps(s);
      case FetchEnds(i, ok, valid) =>
        if i < |s.tasks| {
          if s.tasks[i].phase.Fetching? {
            EndFetchKeeps(s, i, ok, valid);
          } else {
            NotFetching(s.shared, s.tasks[i], i, ok, valid);
            assert s.tasks[i := s.tasks[i]] == s.tasks;
          }
        }
      case _ => if e.i < |s.tasks| { AdvanceKeeps(s, e.i, e); }
    }
  }

  lemma NotFetching(m: Shared, t: Task, i: nat, ok: bool, valid: bool)
    requires !t.phase.Fetching?
    ensures Advance(m, t, FetchEnds(i, ok, valid)) == (m, t)
  {
  }

  lemma {:induction false} RunKeepsInv(stored: Option<Token>, events: seq<Event>)
    ensures Inv(Run(stored, events))
  {
    if events != [] {
      RunKeepsInv(stored, events[..|events| - 1]);
      StepKeepsInv(Run(stored, events[..|events| - 1]), events[|events| - 1]);
    }
  }

  // ---- What callers may rely on ----

  /** Every connection handed out pairs an address with a session that came from it. */
  lemma ConnectionsMatch(stored: Option<Token>, events: seq<Event>, i: nat)
    requires var s := Run(stored, events);
             i < |s.tasks| && s.tasks[i].phase.Returned? && s.tasks[i].phase.result.Some?
    ensures var c := Run(stored, events).tasks[i].phase.result.value;
            c.url == c.token.url
  {
    hide Run;
    RunKeepsInv(stored, events);
    assert TaskOk(Run(stored, events).shared, Run(stored, events).tasks[i]);
  }

  /** When getAccountConnection ends with a connection, its address is the one in storage at that moment. */
  lemma ReadIsCurrent(stored: Option<Token>, events: seq<Event>, i: nat)
    requires var s := Run(stored, events);
             && i < |s.tasks| && s.tasks[i].phase.Reading? && s.tasks[i].phase.backend.Some? && s.tasks[i].phase.session.Some?
    ensures var s := Run(stored, events);
            var t := s.tasks[i];
            var result := ReadResult(s.shared, t, t.phase.backend.value, t.phase.session.value);
            result.Some? ==> s.shared.backend == Some(result.value.url) && result.value.url == result.value.token.url
  {
    hide Run;
    RunKeepsInv(stored, events);
    assert TaskOk(Run(stored, events).shared, Run(stored, events).tasks[i]);
  }

  /** Once the write queue is empty, no call that began before a sign-out, nor one of its own generation, has its session stored. */
  lemma SignedOutStaysOut(stored: Option<Token>, events: seq<Event>, i: nat)
    requires var s := Run(stored, events);
             i < |s.tasks| && s.tasks[i].kind == SignOut && |s.shared.outcomes| == |s.shared.writes|
    ensures var s := Run(stored, events);
            && Pair(s.shared.backend, s.shared.session)
            && (s.shared.session.Some? ==>
                  forall j :: 0 <= j < |s.tasks| && (j <= i || s.tasks[j].generation == s.tasks[i].generation) ==>
                    s.tasks[j].generation < s.shared.session.value.author)
  {
    hide Run;
    RunKeepsInv(stored, events);
    assert TaskOk(Run(stored, events).shared, Run(stored, events).tasks[i]);
  }

  /** Until the next enrolment or sign-out, a finished sign-out leaves both keys empty. */
  lemma SignOutEmptiesStorage(stored: Option<Token>, events: seq<Event>, i: nat)
    requires var s := Run(stored, events);
             && i < |s.tasks| && s.tasks[i].kind == SignOut && s.tasks[i].phase.Returned?
             && s.tasks[i].generation == s.shared.generation
    ensures var s := Run(stored, events);
            s.shared.backend == None && s.shared.session == None
  {
    hide Run;
    RunKeepsInv(stored, events);
    var m := Run(stored, events).shared;
    assert TaskOk(m, Run(stored, events).tasks[i]);
  }

  /** Storage holds what an enrolment succeeded with that was not superseded: its address, a session of its generation. */
  lemma EnrolmentIsStored(stored: Option<Token>, events: seq<Event>, i: nat)
    requires var s := Run(stored, events);
             && i < |s.tasks| && s.tasks[i].kind.Enroll? && s.tasks[i].generation == s.shared.generation
             && s.tasks[i].phase.Returned? && s.tasks[i].phase.result.Some?
    ensures var s := Run(stored, events);
            && s.shared.backend == Some(s.tasks[i].kind.url) && Pair(s.shared.backend, s.shared.session)
            && s.shared.session.Some? && s.shared.session.value.author == s.tasks[i].generation
  {
    hide Run;
    RunKeepsInv(stored, events);
    assert TaskOk(Run(stored, events).shared, Run(stored, events).tasks[i]);
  }

  /** Somebody will make the account available again. */
  ghost predicate HasLeader(s: State) {
    s.shared.unavailable ==>
      exists i :: 0 <= i < |s.tasks| && Leads(s.tasks[i].kind) && !s.tasks[i].phase.Returned? &&
                  s.tasks[i].generation == s.shared.generation
  }

  lemma AdvanceKeepsFlag(m: Shared, t: Task, e: Event)
    ensures var (n, u) := Advance(m, t, e);
            n.generation == m.generation && u.generation == t.generation && u.kind == t.kind &&
            (n.unavailable ==> m.unavailable)
  {
  }

  lemma LeaderReleases(m: Shared, t: Task, e: Event)
    requires PhaseOk(m, t) && Leads(t.kind) && !t.phase.Returned? && t.generation == m.generation
    ensures var (n, u) := Advance(m, t, e);
            u.phase.Returned? ==> !n.unavailable
  {
  }

  lemma WritesKeepFlag(m: Shared)
    ensures forall n :: n in [StartWrite(m), PreviousRead(m), PutSession(m), PutBackend(m)] ==>
              n.unavailable == m.unavailable && n.generation == m.generation
  {
  }

  lemma StepKeepsLeader(s: State, e: Event)
    requires Inv(s) && HasLeader(s)
    ensures HasLeader(Step(s, e))
  {
    var m, n := s.shared, Step(s, e);
    if e.Starts? && Leads(e.kind) {
      hide Inv;
      assert Leads(n.tasks[|s.tasks|].kind);
    } else {
      var leader := -1;
      if m.unavailable {
        var i :| 0 <= i < |s.tasks| && Leads(s.tasks[i].kind) && !s.tasks[i].phase.Returned? &&
                 s.tasks[i].generation == m.generation;
        leader := i;
        assert TaskOk(m, s.tasks[i]);
        LeaderReleases(m, s.tasks[i], e);
      }
      WritesKeepFlag(m);
      hide Inv, TaskOk, PhaseOk, Advance, StartWrite, PreviousRead, PutSession, PutBackend;
      if !(e.Starts? || e.WriteStarts? || e.WriteReads? || e.WriteSession? || e.WriteBackend?) && e.i < |s.tasks| {
        AdvanceKeepsFlag(m, s.tasks[e.i], e);
      }
      if leader >= 0 { assert Leads(n.tasks[leader].kind); }
    }
  }

  /** The account is unavailable only while an enrolment or sign-out of the current generation is under way. */
  lemma {:induction false} UnavailableOnlyWhileLed(stored: Option<Token>, events: seq<Event>)
    ensures HasLeader(Run(stored, events))
  {
    if events != [] {
      UnavailableOnlyWhileLed(stored, events[..|events| - 1]);
      RunKeepsInv(stored, events[..|events| - 1]);
      StepKeepsLeader(Run(stored, events[..|events| - 1]), events[|events| - 1]);
    }
  }

  // ---- The module variables ----

  /** Each method is one synchronous stretch of a call or of the running write, over the module variables and storage. */
  class Variables {
    var generation: nat
    var unavailable: bool
    var backend: Option<Url>
    var session: Option<Token>
    var writes: seq<Write>
    var outcomes: seq<bool>
    var stage: Stage

    ghost function View(): Shared
      reads this
    {
      Shared(generation, unavailable, backend, session, writes, outcomes, stage)
    }

    constructor (stored: Option<Token>)
      ensures View() == Initial(stored).shared
    {
      generation, unavailable := 0, false;
      backend, session := if stored.Some? then Some(stored.value.url) else None, stored;
      writes, outcomes, stage := [], [], Idle;
    }

    method SerializeWrite(write: Write) returns (ticket: nat)
      modifies `writes
      ensures ticket == |old(writes)| && writes == old(writes) + [write]
    {
      ticket := |writes|;
      writes := writes + [write];
    }

    method StartCall(kind: Kind, owner: nat) returns (task: Task)
      modifies this
      ensures (View(), task) == Begin(old(View()), kind, owner)
    {
      match kind
      case Enroll(url) =>
        generation, unavailable := generation + 1, true;
        task := Task(kind, generation, Fetching(url));
      case SignOut =>
        generation, unavailable := generation + 1, true;
        var ticket := SerializeWrite(Clear(owner, generation));
        task := Task(kind, generation, Clearing(ticket));
      case _ =>
        task := Task(kind, generation, if unavailable then Returned(None) else Waiting(|writes|));
    }

    method FinishFetch(task: Task, owner: nat, ok: bool, valid: bool) returns (next: Task)
      requires task.phase.Fetching?
      modifies this
      ensures (View(), next) == EndFetch(old(View()), task, owner, ok, valid)
    {
      var token := Token(task.phase.url, task.generation, valid);
      if ok {
        var ticket := SerializeWrite(Store(owner, task.generation, token));
        next := task.(phase := Storing(ticket, token));
      } else {
        next := task.(phase := if task.kind.Enroll? then Returning(false, token) else Returned(None));
      }
    }

    /** The generation checks, the two storage calls and the end of the running write. */
    method RunWrite() returns (done: bool)
      requires |outcomes| < |writes|
      modifies this
      ensures View() == match old(stage)
                        case Idle => StartWrite(old(View()))
                        case Previous => PreviousRead(old(View()))
                        case SessionNext => PutSession(old(View()))
                        case BackendNext => PutBackend(old(View()))
      ensures done <==> |outcomes| == |old(outcomes)| + 1
    {
      var w := writes[|outcomes|];
      done := false;
      match stage
      case BackendNext =>
        backend := if w.Store? then Some(w.token.url) else None;
        outcomes, stage, done := outcomes + [true], Idle, true;
      case SessionNext =>
        session := if w.Store? then Some(w.token) else None;
        stage := BackendNext;
      case _ =>
        if w.Store? && w.generation != generation {
          outcomes, stage, done := outcomes + [false], Idle, true;
        } else {
          stage := if stage == Idle then Previous else SessionNext;
        }
    }

    method FinishWrite(task: Task) returns (next: Task)
      modifies this
      ensures (View(), next) == SettleWrite(old(View()), task)
    {
      next := task;
      match task.phase
      case Storing(ticket, token) =>
        if ticket < |outcomes| {
          var ok := outcomes[ticket] && task.generation == generation;
          next := task.(phase := if task.kind.Enroll? then Returning(ok, token)
                                 else Returned(if ok then Some(Connection(token.url, token)) else None));
        }
      case Clearing(ticket) =>
        if ticket < |outcomes| {
          if task.generation == generation { unavailable := false; }
          next := task.(phase := Returned(None));
        }
      case _ =>
    }

    /** The finally block of enrollWithCode. */
    method FinishEnroll(task: Task) returns (next: Task)
      requires task.phase.Returning?
      modifies this
      ensures (View(), next) == Return(old(View()), task)
    {
      var token := task.phase.token;
      if task.generation == generation { unavailable := false; }
      next := task.(phase := Returned(if task.phase.ok then Some(Connection(token.url, token)) else None));
    }
  }
}
