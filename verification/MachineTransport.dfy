/**
 * BrowserMachineWorkspaceTransport after its handshake: the replay cursor, the encrypted frame sequence, the
 * serialized send and receive tails and the pending requests. Each event is the code between two awaits, a
 * timer, a socket callback or a caller's call; sealing and opening of frames are outcomes of events.
 */
module MachineTransport {

  import opened Prelude

  datatype Cursor = Cursor(epoch: string, sequence: int)

  datatype Decision = Duplicate | Accept(cursor: Cursor) | Resnapshot

  const MAX_SAFE_INTEGER := 0x1f_ffff_ffff_ffff

  predicate UsableSequence(sequence: int) {
    1 <= sequence <= MAX_SAFE_INTEGER
  }

  /** The replay gate. */
  function DecideCursor(cursor: Option<Cursor>, event: Cursor): Decision {
    if !UsableSequence(event.sequence) then Resnapshot
    else if cursor.Some? && event.epoch == cursor.value.epoch && event.sequence <= cursor.value.sequence then Duplicate
    else if cursor.Some? && event.epoch != cursor.value.epoch then Resnapshot
    else if cursor.Some? && event.sequence != cursor.value.sequence + 1 then Resnapshot
    else Accept(event)
  }

  /** With a cursor, exactly the next event of the epoch is accepted, and exactly the replayed ones are duplicates. */
  lemma CursorGate(cursor: Cursor, event: Cursor)
    requires UsableSequence(event.sequence)
    ensures DecideCursor(Some(cursor), event).Accept? <==> event == Cursor(cursor.epoch, cursor.sequence + 1)
    ensures DecideCursor(Some(cursor), event).Duplicate? <==>
            event.epoch == cursor.epoch && event.sequence <= cursor.sequence
  {
  }

  datatype Outcome = Answered | Refused | TimedOut | SendFailed | Dropped

  datatype Promise = Unsettled | Settled(outcome: Outcome)

  datatype Kind = Request(id: nat) | Refresh | Ack | Subscribe

  datatype Outgoing = Outgoing(kind: Kind, sequence: int)

  /** A call of onEvent; one of requestResnapshot, which calls onResnapshot or not; the handlers or the socket gone. */
  datatype Entry = Delivered(cursor: Cursor) | ResnapshotAsked(called: bool) | Gone

  datatype Receiving =
    | Idle
    | Opening(sequence: int)
    | InEvent(event: Cursor)
    | InResnapshot

  datatype Frame =
    | Oversized
    | Unparsable
    | Uninteresting                 // not a data frame of a known shape
    | Foreign                       // another session
    | Data(sequence: int)

  datatype Payload =
    | Ready
    | Response(id: nat, matchesFrame: bool)
    | Refreshed(known: bool, valid: bool)
    | EventPayload(event: Cursor, workspace: string)
    | ResnapshotRequired
    | Revoked
    | ErrorFor(id: nat)
    | RefreshError
    | OtherError

  datatype Event =
    | RequestCalled(allowed: bool, authorized: bool)
    | TimeoutFires(id: nat)
    | FrameArrives(frame: Frame)
    | FrameOpened(payload: Option<Payload>)
    | EventHandled(ok: bool)
    | ResnapshotDone(awaited: bool, ok: bool)
    | SendBegins
    | SendEnds(ok: bool)
    | SubscribeCalled(workspaces: set<string>, handlers: bool)
    | UnsubscribeCalled
    | RefreshTick(expired: bool)
    | SocketCloses
    | CloseCalled

  // ---- The state ----

  /** Requests are numbered; promises is what each caller holds. */
  datatype Calls = Calls(pending: set<nat>, timers: set<nat>, promises: seq<Promise>)

  /** The cursor and the receive tail; log and processed are histories. */
  datatype Stream = Stream(cursor: Option<Cursor>, lastServerSequence: Option<int>, receiving: Receiving,
                           looseResnapshots: nat, log: seq<Entry>, processed: seq<int>)

  /** The send tail; wire is the history of sequences sent. */
  datatype Pipe = Pipe(nextSequence: int, queue: seq<Outgoing>, sealing: Option<Outgoing>, wire: seq<int>)

  datatype Link = Link(closed: bool, hasSocket: bool, socketOpen: bool, hasToken: bool,
                       handlers: bool, subscribed: set<string>, refreshing: Option<int>)

  datatype State = State(calls: Calls, stream: Stream, pipe: Pipe, link: Link)

  /**
   * Right after connect: the last frame processed is the one that said ready, with sequence number ready. The
   * error handler of the socket is by then the one that rejected the opening promise, so a later socket error
   * changes nothing here.
   */
  function Connected(cursor: Option<Cursor>, ready: int, nextSequence: int): State {
    State(Calls({}, {}, []), Stream(cursor, Some(ready), Idle, 0, [], [ready]), Pipe(nextSequence, [], None, []),
          Link(false, true, true, true, false, {}, None))
  }

  predicate IsOpen(l: Link) {
    !l.closed && l.socketOpen && l.hasToken
  }

  // ---- Pending requests ----

  function OpenCall(c: Calls): Calls {
    Calls(c.pending + {|c.promises|}, c.timers + {|c.promises|}, c.promises + [Unsettled])
  }

  /** A promise keeps its first outcome. */
  function Settle(promises: seq<Promise>, id: nat, outcome: Outcome): seq<Promise> {
    if id < |promises| && promises[id] == Unsettled then promises[id := Settled(outcome)] else promises
  }

  /** Drop the entry, clear its timer, settle its promise. */
  function Conclude(c: Calls, id: nat, outcome: Outcome): Calls {
    Calls(c.pending - {id}, c.timers - {id}, Settle(c.promises, id, outcome))
  }

  function FailPending(c: Calls): Calls {
    Calls({}, c.timers - c.pending,
          seq(|c.promises|, i requires 0 <= i < |c.promises| =>
            if i in c.pending && c.promises[i] == Unsettled then Settled(Dropped) else c.promises[i]))
  }

  // ---- The send tail ----

  /** takeSequence and sendFrame in one synchronous block. */
  function Enqueue(p: Pipe, kind: Kind): Pipe {
    p.(queue := p.queue + [Outgoing(kind, p.nextSequence)], nextSequence := p.nextSequence + 1)
  }

  function SendAck(p: Pipe, l: Link, cursor: Option<Cursor>): Pipe {
    if IsOpen(l) && cursor.Some? then Enqueue(p, Ack) else p
  }

  function Resubscribe(p: Pipe, l: Link): Pipe {
    if IsOpen(l) && l.subscribed != {} then Enqueue(p, Subscribe) else p
  }

  /** The send promise rejects. */
  function SendFails(s: State, item: Outgoing): State {
    match item.kind
    case Request(id) => s.(calls := Conclude(s.calls, id, SendFailed))
    case Refresh => if s.link.refreshing == Some(item.sequence) then s.(link := s.link.(refreshing := None)) else s
    case _ => s
  }

  // ---- The receive tail ----

  predicate CanResnapshot(l: Link) {
    l.handlers && !l.closed
  }

  /** cursor = undefined, then an awaited requestResnapshot, which blocks the receive tail. */
  function AwaitResnapshot(m: Stream, l: Link): Stream {
    m.(cursor := None, log := m.log + [ResnapshotAsked(CanResnapshot(l))],
       receiving := if CanResnapshot(l) then InResnapshot else Idle)
  }

  /** cursor = undefined, then a requestResnapshot nobody awaits. */
  function LooseResnapshot(m: Stream, l: Link): Stream {
    m.(cursor := None, log := m.log + [ResnapshotAsked(CanResnapshot(l))],
       looseResnapshots := m.looseResnapshots + if CanResnapshot(l) then 1 else 0)
  }

  /** The handlers, or the connection, are no longer there. */
  function Leave(m: Stream): Stream {
    m.(log := m.log + [Gone])
  }

  function ReceiveEvent(s: State, event: Cursor, workspace: string): State {
    if !s.link.handlers || workspace !in s.link.subscribed then s
    else
      match DecideCursor(s.stream.cursor, event)
      case Duplicate => s.(pipe := SendAck(s.pipe, s.link, s.stream.cursor))
      case Resnapshot => s.(stream := AwaitResnapshot(s.stream, s.link))
      case Accept(next) => s.(stream := s.stream.(receiving := InEvent(next), log := s.stream.log + [Delivered(next)]))
  }

  /** failPending, then socket.close. */
  function Abandon(s: State): State {
    s.(calls := FailPending(s.calls), link := s.link.(socketOpen := false))
  }

  function ReceivePayload(s: State, payload: Payload): State {
    match payload
    case Response(id, matchesFrame) =>
      if matchesFrame && id in s.calls.pending then s.(calls := Conclude(s.calls, id, Answered)) else s
    case Refreshed(known, valid) =>
      var t := if known then s.(link := s.link.(refreshing := None)) else s;
      if known && s.link.refreshing.Some? && valid then t else Abandon(t)
    case EventPayload(event, workspace) => ReceiveEvent(s, event, workspace)
    case ResnapshotRequired => s.(stream := LooseResnapshot(s.stream, s.link))
    case Revoked => var t := Abandon(s); t.(link := t.link.(hasToken := false))
    case ErrorFor(id) => if id in s.calls.pending then s.(calls := Conclude(s.calls, id, Refused)) else s
    case RefreshError =>
      if s.link.refreshing.Some? then Abandon(s.(link := s.link.(refreshing := None))) else s
    case _ => s
  }

  predicate SequenceGap(m: Stream, sequence: int, payload: Payload) {
    m.lastServerSequence.Some? && sequence > m.lastServerSequence.value + 1 && payload != Ready
  }

  function MarkProcessed(s: State, sequence: int): State {
    s.(stream := s.stream.(lastServerSequence := Some(sequence), receiving := Idle,
                           processed := s.stream.processed + [sequence]))
  }

  function CheckGap(s: State, sequence: int, payload: Payload): State {
    if SequenceGap(s.stream, sequence, payload)
    then s.(calls := FailPending(s.calls), stream := LooseResnapshot(s.stream, s.link)) else s
  }

  /** receiveRawFrame after the payload was opened. */
  function ReceiveOpened(s: State, sequence: int, payload: Payload): State {
    ReceivePayload(MarkProcessed(CheckGap(s, sequence, payload), sequence), payload)
  }

  function ReceiveFrame(s: State, frame: Frame): State {
    match frame
    case Oversized => Abandon(s)
    case Unparsable => s.(calls := FailPending(s.calls))
    case Uninteresting => s
    case Foreign => Abandon(s)
    case Data(sequence) =>
      if !s.link.hasToken then Abandon(s)
      else if s.stream.lastServerSequence.Some? && sequence <= s.stream.lastServerSequence.value then s
      else s.(stream := s.stream.(receiving := Opening(sequence)))
  }

  function OpenFrame(s: State, payload: Option<Payload>): State {
    if !s.stream.receiving.Opening? then s
    else if payload == None then Abandon(s.(stream := s.stream.(receiving := Idle)))
    else ReceiveOpened(s, s.stream.receiving.sequence, payload.value)
  }

  function FinishEvent(s: State, ok: bool): State {
    var m := s.stream;
    if !m.receiving.InEvent? then s
    else if ok then
      s.(stream := m.(cursor := Some(m.receiving.event), receiving := Idle),
         pipe := SendAck(s.pipe, s.link, Some(m.receiving.event)))
    else s.(stream := AwaitResnapshot(m, s.link))
  }

  function FinishResnapshot(s: State, awaited: bool, ok: bool): State {
    var m := s.stream;
    if awaited && m.receiving == InResnapshot then
      s.(stream := m.(receiving := Idle), pipe := if ok then Resubscribe(s.pipe, s.link) else s.pipe)
    else if !awaited && m.looseResnapshots > 0 then
      s.(stream := m.(looseResnapshots := m.looseResnapshots - 1),
         pipe := if ok then Resubscribe(s.pipe, s.link) else s.pipe)
    else s
  }

  function CallRequest(s: State, allowed: bool, authorized: bool): State {
    if !allowed || !IsOpen(s.link) || !authorized then s
    else
      s.(calls := OpenCall(s.calls), pipe := Enqueue(s.pipe, Request(|s.calls.promises|)))
  }

  function BeginSend(s: State): State {
    var p := s.pipe;
    if p.sealing.Some? || p.queue == [] then s
    else if IsOpen(s.link) && s.link.hasSocket then s.(pipe := p.(queue := p.queue[1..], sealing := Some(p.queue[0])))
    else SendFails(s.(pipe := p.(queue := p.queue[1..])), p.queue[0])
  }

  function EndSend(s: State, ok: bool): State {
    var p := s.pipe;
    if p.sealing == None then s
    else if ok && s.link.hasSocket then s.(pipe := p.(sealing := None, wire := p.wire + [p.sealing.value.sequence]))
    else SendFails(s.(pipe := p.(sealing := None)), p.sealing.value)
  }

  function SubscribeTo(s: State, workspaces: set<string>, handlers: bool): State {
    var l := s.link.(handlers := s.link.handlers || handlers, subscribed := workspaces);
    s.(link := l, pipe := Resubscribe(s.pipe, l))
  }

  function Tick(s: State, expired: bool): State {
    if !IsOpen(s.link) || s.link.refreshing.Some? then s
    else if expired then Abandon(s)
    else s.(link := s.link.(refreshing := Some(s.pipe.nextSequence)), pipe := Enqueue(s.pipe, Refresh))
  }

  function Closing(s: State): State {
    if s.link.closed then s
    else s.(calls := FailPending(s.calls), stream := Leave(s.stream),
            link := s.link.(closed := true, hasToken := false, socketOpen := false, hasSocket := false, handlers := false))
  }

  function Expire(s: State, id: nat): State {
    if id in s.calls.timers then s.(calls := Conclude(s.calls, id, TimedOut)) else s
  }

  function UnsubscribeFrom(s: State): State {
    s.(link := s.link.(handlers := false, subscribed := {}), stream := Leave(s.stream))
  }

  function SocketLost(s: State): State {
    s.(calls := FailPending(s.calls), stream := Leave(s.stream),
       link := s.link.(hasToken := false, closed := true, socketOpen := false))
  }

  function Step(s: State, e: Event): State {
    match e
    case RequestCalled(allowed, authorized) => CallRequest(s, allowed, authorized)
    case TimeoutFires(id) => Expire(s, id)
    case FrameArrives(frame) => if s.stream.receiving == Idle then ReceiveFrame(s, frame) else s
    case FrameOpened(payload) => OpenFrame(s, payload)
    case EventHandled(ok) => FinishEvent(s, ok)
    case ResnapshotDone(awaited, ok) => FinishResnapshot(s, awaited, ok)
    case SendBegins => BeginSend(s)
    case SendEnds(ok) => EndSend(s, ok)
    case SubscribeCalled(workspaces, handlers) => SubscribeTo(s, workspaces, handlers)
    case UnsubscribeCalled => UnsubscribeFrom(s)
    case RefreshTick(expired) => Tick(s, expired)
    case SocketCloses => SocketLost(s)
    case CloseCalled => Closing(s)
  }

  function Run(start: State, events: seq<Event>): State {
    if events == [] then start else Step(Run(start, events[..|events| - 1]), events[|events| - 1])
  }

  // ---- Event delivery ----

  ghost predicate Increasing(s: seq<int>) {
    forall i, j :: 0 <= i < j < |s| ==> s[i] < s[j]
  }

  predicate Follows(a: Cursor, b: Cursor) {
    b == Cursor(a.epoch, a.sequence + 1)
  }

  function LastDelivered(log: seq<Entry>): Option<Cursor> {
    if log == [] then None
    else
      var last := log[|log| - 1];
      if last.Delivered? then Some(last.cursor) else LastDelivered(log[..|log| - 1])
  }

  /**
   * What may stand between two deliveries that are not neighbours. Narrowly: a request for a new snapshot, whether
   * or not it finds anyone to ask. Broadly: a reason the handlers know of, onResnapshot was called or they were gone.
   */
  predicate Excuse(e: Entry, narrow: bool) {
    if narrow then e.ResnapshotAsked? else e == ResnapshotAsked(true) || e == Gone
  }

  /** There is such an entry after the last delivery. */
  predicate Excused(log: seq<Entry>, narrow: bool) {
    log != [] && !log[|log| - 1].Delivered? && (Excuse(log[|log| - 1], narrow) || Excused(log[..|log| - 1], narrow))
  }

  /** Each delivery follows the last one in its epoch unless there is an excuse between them. */
  predicate Gapless(log: seq<Entry>, narrow: bool) {
    log == [] ||
    var before, last := log[..|log| - 1], log[|log| - 1];
    Gapless(before, narrow) &&
    (last.Delivered? && LastDelivered(before).Some? && !Excused(before, narrow) ==>
       Follows(LastDelivered(before).value, last.cursor))
  }

  /** The cursor is at the last delivery, or will be when it has been handled. */
  predicate CursorAtLast(m: Stream) {
    if m.receiving.InEvent? then Some(m.receiving.event) == LastDelivered(m.log) else m.cursor == LastDelivered(m.log)
  }

  /** Without an excuse the cursor has not moved; without one the handlers know of, they have been there all along. */
  predicate AtLast(m: Stream, closed: bool, handlers: bool) {
    && (LastDelivered(m.log).Some? && !Excused(m.log, true) ==> CursorAtLast(m))
    && (LastDelivered(m.log).Some? && !Excused(m.log, false) ==>
          if closed then !m.receiving.Opening? else handlers && CursorAtLast(m))
  }

  predicate Delivery(m: Stream, l: Link) {
    Gapless(m.log, true) && Gapless(m.log, false) && AtLast(m, l.closed, l.handlers) && (l.closed ==> !l.hasToken)
  }

  ghost predicate Sequenced(m: Stream) {
    && Increasing(m.processed)
    && m.lastServerSequence == (if m.processed == [] then None else Some(m.processed[|m.processed| - 1]))
    && (m.receiving.Opening? && m.lastServerSequence.Some? ==> m.lastServerSequence.value < m.receiving.sequence)
  }

  lemma LogAppend(log: seq<Entry>, e: Entry, narrow: bool)
    ensures LastDelivered(log + [e]) == if e.Delivered? then Some(e.cursor) else LastDelivered(log)
    ensures Excused(log + [e], narrow) <==> !e.Delivered? && (Excuse(e, narrow) || Excused(log, narrow))
    ensures Gapless(log + [e], narrow) <==>
            Gapless(log, narrow) && (e.Delivered? && LastDelivered(log).Some? && !Excused(log, narrow) ==>
                                       Follows(LastDelivered(log).value, e.cursor))
  {
    assert (log + [e])[..|log|] == log;
  }

  lemma ResnapshotKeepsDelivery(m: Stream, l: Link)
    requires Delivery(m, l)
    ensures Delivery(AwaitResnapshot(m, l), l) && Delivery(LooseResnapshot(m, l), l)
    ensures l.handlers && !l.closed ==> Excused(LooseResnapshot(m, l).log, false)
  {
    LogAppend(m.log, ResnapshotAsked(CanResnapshot(l)), true);
    LogAppend(m.log, ResnapshotAsked(CanResnapshot(l)), false);
    hide Gapless, Excused, LastDelivered;
  }

  /** The gate accepts the neighbour of the last delivery, or there is an excuse. */
  lemma AcceptKeepsDelivery(m: Stream, l: Link, event: Cursor)
    requires Delivery(m, l) && m.receiving == Idle && l.handlers && DecideCursor(m.cursor, event).Accept?
    requires l.closed ==> LastDelivered(m.log) == None || Excused(m.log, false)
    ensures Delivery(m.(receiving := InEvent(event), log := m.log + [Delivered(event)]), l)
  {
    LogAppend(m.log, Delivered(event), true);
    LogAppend(m.log, Delivered(event), false);
    if m.cursor.Some? && UsableSequence(event.sequence) { CursorGate(m.cursor.value, event); }
    hide Gapless, Excused, LastDelivered;
  }

  lemma DeliveringKeepsDelivery(s: State, event: Cursor, workspace: string)
    requires Delivery(s.stream, s.link) && s.stream.receiving == Idle
    requires s.link.closed ==> LastDelivered(s.stream.log) == None || Excused(s.stream.log, false)
    ensures Delivery(ReceiveEvent(s, event, workspace).stream, s.link)
  {
    hide Gapless, Excused, LastDelivered, AwaitResnapshot, LooseResnapshot, Delivery;
    ResnapshotKeepsDelivery(s.stream, s.link);
    if s.link.handlers && DecideCursor(s.stream.cursor, event).Accept? { AcceptKeepsDelivery(s.stream, s.link, event); }
  }

  lemma OpenedKeepsDelivery(s: State, payload: Payload)
    requires Delivery(s.stream, s.link) && s.stream.receiving.Opening?
    ensures var t := ReceiveOpened(s, s.stream.receiving.sequence, payload); Delivery(t.stream, t.link)
  {
    var sequence := s.stream.receiving.sequence;
    var u := MarkProcessed(CheckGap(s, sequence, payload), sequence);
    MarkedKeepsDelivery(s, sequence, payload);
    hide Gapless, Excused, LastDelivered, AwaitResnapshot, LooseResnapshot, CheckGap, MarkProcessed, FailPending, ReceiveEvent;
    ResnapshotKeepsDelivery(u.stream, u.link);
    if payload.EventPayload? {
      DeliveringKeepsDelivery(u, payload.event, payload.workspace);
      EventKeepsCalls(u, payload.event, payload.workspace);
    }
  }

  lemma MarkedKeepsDelivery(s: State, sequence: int, payload: Payload)
    requires Delivery(s.stream, s.link) && s.stream.receiving.Opening?
    ensures var u := MarkProcessed(CheckGap(s, sequence, payload), sequence);
            && Delivery(u.stream, u.link) && u.link == s.link && u.stream.receiving == Idle
            && (u.link.closed ==> LastDelivered(u.stream.log) == None || Excused(u.stream.log, false))
  {
    ResnapshotKeepsDelivery(s.stream, s.link);
    hide Gapless, Excused, LastDelivered, AwaitResnapshot, FailPending;
  }

  lemma EventKeepsCalls(s: State, event: Cursor, workspace: string)
    ensures ReceiveEvent(s, event, workspace).calls == s.calls
    ensures ReceiveEvent(s, event, workspace).link == s.link
  {
  }

  lemma LeavingKeepsDelivery(m: Stream, l: Link, after: Link)
    requires Delivery(m, l) && (after.closed ==> !after.hasToken)
    ensures Delivery(Leave(m), after)
  {
    LogAppend(m.log, Gone, true);
    LogAppend(m.log, Gone, false);
    hide Gapless, Excused, LastDelivered;
  }

  lemma FrameKeepsDelivery(s: State, frame: Frame)
    requires Delivery(s.stream, s.link) && s.stream.receiving == Idle
    ensures var t := ReceiveFrame(s, frame); Delivery(t.stream, t.link)
  {
    hide Gapless, Excused, LastDelivered, FailPending;
  }

  lemma FinishKeepsDelivery(s: State, ok: bool)
    requires Delivery(s.stream, s.link)
    ensures var t := FinishEvent(s, ok); Delivery(t.stream, t.link)
  {
    ResnapshotKeepsDelivery(s.stream, s.link);
    hide Gapless, Excused, LastDelivered, AwaitResnapshot, LooseResnapshot, SendAck;
  }

  lemma ResnapshotDoneKeepsDelivery(s: State, awaited: bool, ok: bool)
    requires Delivery(s.stream, s.link)
    ensures var t := FinishResnapshot(s, awaited, ok); Delivery(t.stream, t.link)
  {
    hide Gapless, Excused, LastDelivered, Resubscribe;
  }

  lemma BrokenKeepsDelivery(s: State)
    requires Delivery(s.stream, s.link)
    ensures var t := OpenFrame(s, None); Delivery(t.stream, t.link)
  {
    hide Gapless, Excused, LastDelivered, FailPending;
  }

  lemma StepKeepsDelivery(s: State, e: Event)
    requires Delivery(s.stream, s.link)
    ensures Delivery(Step(s, e).stream, Step(s, e).link)
  {
    hide Delivery, ReceiveFrame, FinishEvent, FinishResnapshot, ReceiveOpened, FailPending;
    match e {
      case FrameArrives(frame) => if s.stream.receiving == Idle { FrameKeepsDelivery(s, frame); }
      case FrameOpened(payload) =>
        if payload == None { BrokenKeepsDelivery(s); }
        else if s.stream.receiving.Opening? { OpenedKeepsDelivery(s, payload.value); }
      case EventHandled(ok) => FinishKeepsDelivery(s, ok);
      case ResnapshotDone(awaited, ok) => ResnapshotDoneKeepsDelivery(s, awaited, ok);
      case UnsubscribeCalled => ClosedHasNoToken(s); LeavingKeepsDelivery(s.stream, s.link, Step(s, e).link);
      case SocketCloses => LeavingKeepsDelivery(s.stream, s.link, Step(s, e).link);
      case CloseCalled => if !s.link.closed { LeavingKeepsDelivery(s.stream, s.link, Step(s, e).link); }
      case _ =>
        OthersKeepStream(s, e);
        hide Step;
        SameStreamDelivers(s.stream, s.link, Step(s, e).link);
    }
  }

  lemma ClosedHasNoToken(s: State)
    requires Delivery(s.stream, s.link)
    ensures s.link.closed ==> !s.link.hasToken
  {
  }

  lemma SameStreamDelivers(m: Stream, l: Link, after: Link)
    requires Delivery(m, l) && after.closed == l.closed
    requires (l.handlers ==> after.handlers) && (after.hasToken ==> l.hasToken)
    ensures Delivery(m, after)
  {
    hide Gapless, Excused, LastDelivered;
  }

  lemma OthersKeepStream(s: State, e: Event)
    requires !e.FrameArrives? && !e.FrameOpened? && !e.EventHandled? && !e.ResnapshotDone?
    requires !e.UnsubscribeCalled? && !e.SocketCloses? && !e.CloseCalled?
    ensures var t := Step(s, e);
            && t.stream == s.stream && t.link.closed == s.link.closed
            && (s.link.handlers ==> t.link.handlers) && (t.link.hasToken ==> s.link.hasToken)
  {
    hide Conclude, FailPending, Enqueue, OpenCall, Resubscribe;
  }

  lemma StepKeepsSequenced(s: State, e: Event)
    requires Sequenced(s.stream)
    ensures Sequenced(Step(s, e).stream)
  {
    hide FailPending, Conclude, Enqueue;
  }

  // ---- Pending requests ----

  /** An entry, with its timer, for exactly the unsettled promises; none once closed. */
  ghost predicate Requests(c: Calls, closed: bool) {
    && (forall i: nat :: i in c.pending <==> i < |c.promises| && c.promises[i] == Unsettled)
    && c.timers == c.pending
    && (closed ==> c.pending == {})
  }

  /** No promise disappears and no outcome changes. */
  ghost predicate Outlasts(c: Calls, d: Calls) {
    && |c.promises| <= |d.promises|
    && forall i :: 0 <= i < |c.promises| && c.promises[i].Settled? ==> d.promises[i] == c.promises[i]
  }

  lemma ConcludeKeeps(c: Calls, id: nat, outcome: Outcome, closed: bool)
    requires Requests(c, closed)
    ensures Requests(Conclude(c, id, outcome), closed) && Outlasts(c, Conclude(c, id, outcome))
  {
  }

  lemma FailPendingKeeps(c: Calls, closed: bool)
    requires Requests(c, closed)
    ensures Requests(FailPending(c), true) && Requests(FailPending(c), false) && Outlasts(c, FailPending(c))
  {
  }

  lemma CallKeeps(c: Calls)
    requires Requests(c, false)
    ensures Requests(OpenCall(c), false) && Outlasts(c, OpenCall(c))
  {
  }

  lemma OutlastsChains(c: Calls, d: Calls, e: Calls)
    requires Outlasts(c, d) && Outlasts(d, e)
    ensures Outlasts(c, e)
  {
  }

  ghost predicate KeepsRequests(s: State, t: State) {
    Requests(t.calls, t.link.closed) && Outlasts(s.calls, t.calls)
  }

  lemma SendFailsKeeps(s: State, item: Outgoing)
    requires Requests(s.calls, s.link.closed)
    ensures KeepsRequests(s, SendFails(s, item))
  {
    if item.kind.Request? { ConcludeKeeps(s.calls, item.kind.id, SendFailed, s.link.closed); }
    hide Conclude;
  }

  lemma ReceivePayloadKeeps(s: State, payload: Payload)
    requires Requests(s.calls, s.link.closed)
    ensures KeepsRequests(s, ReceivePayload(s, payload))
  {
    FailPendingKeeps(s.calls, s.link.closed);
    match payload {
      case Response(id, _) => ConcludeKeeps(s.calls, id, Answered, s.link.closed);
      case ErrorFor(id) => ConcludeKeeps(s.calls, id, Refused, s.link.closed);
      case EventPayload(event, workspace) => EventKeepsCalls(s, event, workspace);
      case _ =>
    }
    hide Conclude, FailPending, ReceiveEvent;
  }

  lemma ReceiveOpenedKeeps(s: State, sequence: int, payload: Payload)
    requires Requests(s.calls, s.link.closed)
    ensures KeepsRequests(s, ReceiveOpened(s, sequence, payload))
  {
    FailPendingKeeps(s.calls, s.link.closed);
    var u := MarkProcessed(CheckGap(s, sequence, payload), sequence);
    ReceivePayloadKeeps(u, payload);
    hide FailPending, ReceivePayload, Requests, LooseResnapshot;
    OutlastsChains(s.calls, u.calls, ReceivePayload(u, payload).calls);
  }

  lemma StepKeepsRequests(s: State, e: Event)
    requires Requests(s.calls, s.link.closed)
    ensures KeepsRequests(s, Step(s, e))
  {
    var c, m, p, l := s.calls, s.stream, s.pipe, s.link;
    FailPendingKeeps(c, l.closed);
    match e {
      case RequestCalled(_, _) => if !l.closed { CallKeeps(c); }
      case TimeoutFires(id) => ConcludeKeeps(c, id, TimedOut, l.closed);
      case FrameOpened(payload) =>
        if m.receiving.Opening? && payload.Some? { ReceiveOpenedKeeps(s, m.receiving.sequence, payload.value); }
      case SendBegins => if p.queue != [] { SendFailsKeeps(s.(pipe := p.(queue := p.queue[1..])), p.queue[0]); }
      case SendEnds(_) => if p.sealing.Some? { SendFailsKeeps(s.(pipe := p.(sealing := None)), p.sealing.value); }
      case _ =>
    }
    hide Conclude, FailPending, ReceiveOpened, SendFails, Enqueue, SendAck, Resubscribe, AwaitResnapshot;
  }

  // ---- The order of the frames on the wire ----

  function Sequences(items: seq<Outgoing>): seq<int> {
    seq(|items|, i requires 0 <= i < |items| => items[i].sequence)
  }

  /** Everything numbered and not dropped: on the wire, being sealed, queued. */
  function Numbered(p: Pipe): seq<int> {
    p.wire + (if p.sealing.Some? then [p.sealing.value.sequence] else []) + Sequences(p.queue)
  }

  ghost predicate InOrder(p: Pipe) {
    Increasing(Numbered(p)) && forall i :: 0 <= i < |Numbered(p)| ==> Numbered(p)[i] < p.nextSequence
  }

  lemma EnqueueKeepsOrder(p: Pipe, kind: Kind)
    requires InOrder(p)
    ensures InOrder(Enqueue(p, kind))
  {
    assert Sequences(p.queue + [Outgoing(kind, p.nextSequence)]) == Sequences(p.queue) + [p.nextSequence];
    assert Numbered(Enqueue(p, kind)) == Numbered(p) + [p.nextSequence];
  }

  /** A frame leaves the pipeline unsent; the others keep their order. */
  lemma DropKeepsOrder(p: Pipe, q: Pipe, k: nat)
    requires InOrder(p) && q.nextSequence == p.nextSequence && k < |Numbered(p)|
    requires Numbered(q) == Numbered(p)[..k] + Numbered(p)[k + 1..]
    ensures InOrder(q)
  {
  }

  lemma BeginKeepsOrder(p: Pipe)
    requires InOrder(p) && p.queue != [] && p.sealing == None
    ensures InOrder(p.(queue := p.queue[1..])) && InOrder(p.(queue := p.queue[1..], sealing := Some(p.queue[0])))
  {
    assert Sequences(p.queue) == [p.queue[0].sequence] + Sequences(p.queue[1..]);
    assert Numbered(p.(queue := p.queue[1..], sealing := Some(p.queue[0]))) == Numbered(p);
    DropKeepsOrder(p, p.(queue := p.queue[1..]), |p.wire|);
  }

  lemma EndKeepsOrder(p: Pipe)
    requires InOrder(p) && p.sealing.Some?
    ensures InOrder(p.(sealing := None)) && InOrder(p.(sealing := None, wire := p.wire + [p.sealing.value.sequence]))
  {
    assert Numbered(p.(sealing := None, wire := p.wire + [p.sealing.value.sequence])) == Numbered(p);
    DropKeepsOrder(p, p.(sealing := None), |p.wire|);
  }

  lemma StepKeepsOrder(s: State, e: Event)
    requires InOrder(s.pipe)
    ensures InOrder(Step(s, e).pipe)
  {
    var p := s.pipe;
    if e == SendBegins && p.sealing == None && p.queue != [] { BeginKeepsOrder(p); }
    if e.SendEnds? && p.sealing.Some? { EndKeepsOrder(p); }
    forall kind
      ensures InOrder(Enqueue(p, kind))
    {
      EnqueueKeepsOrder(p, kind);
    }
    hide Enqueue, InOrder;
  }

  // ---- Every run ----

  ghost predicate Inv(s: State) {
    Delivery(s.stream, s.link) && Sequenced(s.stream) && Requests(s.calls, s.link.closed) && InOrder(s.pipe)
  }

  lemma StepKeepsInv(s: State, e: Event)
    requires Inv(s)
    ensures Inv(Step(s, e)) && Outlasts(s.calls, Step(s, e).calls)
  {
    StepKeepsDelivery(s, e);
    StepKeepsSequenced(s, e);
    StepKeepsRequests(s, e);
    StepKeepsOrder(s, e);
    hide Step, Delivery, Sequenced, Requests, InOrder, Outlasts;
  }

  lemma {:induction false} RunKeepsInv(cursor: Option<Cursor>, ready: int, nextSequence: int, events: seq<Event>)
    ensures Inv(Run(Connected(cursor, ready, nextSequence), events))
  {
    if events != [] {
      RunKeepsInv(cursor, ready, nextSequence, events[..|events| - 1]);
      StepKeepsInv(Run(Connected(cursor, ready, nextSequence), events[..|events| - 1]), events[|events| - 1]);
    }
  }

  /** The frames let through to a handler carry strictly increasing sequences. */
  lemma FramesIncrease(cursor: Option<Cursor>, ready: int, nextSequence: int, events: seq<Event>)
    ensures Increasing(Run(Connected(cursor, ready, nextSequence), events).stream.processed)
  {
    RunKeepsInv(cursor, ready, nextSequence, events);
  }

  /**
   * No silent gap: two successive calls of onEvent are neighbours in one epoch, or a new snapshot was requested
   * between them. Then the handlers know of it: onResnapshot was called between them, or the handlers were
   * uninstalled or the connection closed between them.
   */
  lemma NoSilentGap(cursor: Option<Cursor>, ready: int, nextSequence: int, events: seq<Event>, i: nat, j: nat)
    requires var log := Run(Connected(cursor, ready, nextSequence), events).stream.log;
             i < j < |log| && log[i].Delivered? && log[j].Delivered? && forall k :: i < k < j ==> !log[k].Delivered?
    ensures var log := Run(Connected(cursor, ready, nextSequence), events).stream.log;
            || Follows(log[i].cursor, log[j].cursor)
            || ((exists k :: i < k < j && log[k].ResnapshotAsked?) &&
                (exists k :: i < k < j && (log[k] == ResnapshotAsked(true) || log[k] == Gone)))
  {
    RunKeepsInv(cursor, ready, nextSequence, events);
    hide Run;
    var log := Run(Connected(cursor, ready, nextSequence), events).stream.log;
    ExcuseBetween(log, i, j, true);
    ExcuseBetween(log, i, j, false);
  }

  lemma ExcuseBetween(log: seq<Entry>, i: nat, j: nat, narrow: bool)
    requires Gapless(log, narrow)
    requires i < j < |log| && log[i].Delivered? && log[j].Delivered? && forall k :: i < k < j ==> !log[k].Delivered?
    ensures Follows(log[i].cursor, log[j].cursor) || exists k :: i < k < j && Excuse(log[k], narrow)
  {
    GaplessPrefix(log, j + 1, narrow);
    assert log[..j + 1][..j] == log[..j];
    BetweenDeliveries(log[..j], i, narrow);
  }

  lemma {:induction false} GaplessPrefix(log: seq<Entry>, n: nat, narrow: bool)
    requires Gapless(log, narrow) && n <= |log|
    ensures Gapless(log[..n], narrow)
  {
    if n < |log| {
      GaplessPrefix(log[..|log| - 1], n, narrow);
      assert log[..|log| - 1][..n] == log[..n];
    } else {
      assert log[..n] == log;
    }
  }

  /** The last delivery of a log, and what excuses a gap after it. */
  lemma {:induction false} BetweenDeliveries(log: seq<Entry>, i: nat, narrow: bool)
    requires i < |log| && log[i].Delivered? && forall k :: i < k < |log| ==> !log[k].Delivered?
    ensures LastDelivered(log) == Some(log[i].cursor)
    ensures Excused(log, narrow) ==> exists k :: i < k < |log| && Excuse(log[k], narrow)
  {
    var n := |log| - 1;
    if i < n {
      BetweenDeliveries(log[..n], i, narrow);
      if Excused(log, narrow) && !Excuse(log[n], narrow) {
        var k :| i < k < n && Excuse(log[..n][k], narrow);
        assert Excuse(log[k], narrow);
      }
    }
  }

  /** A pending entry and a running timer for exactly the unsettled promises; none from the closing on. */
  lemma PendingExactlyUnsettled(cursor: Option<Cursor>, ready: int, nextSequence: int, events: seq<Event>)
    ensures Requests(Run(Connected(cursor, ready, nextSequence), events).calls,
                     Run(Connected(cursor, ready, nextSequence), events).link.closed)
  {
    RunKeepsInv(cursor, ready, nextSequence, events);
  }

  /** The sequences on the wire strictly increase, whatever sends failed in between. */
  lemma WireIncreases(cursor: Option<Cursor>, ready: int, nextSequence: int, events: seq<Event>)
    ensures Increasing(Run(Connected(cursor, ready, nextSequence), events).pipe.wire)
  {
    hide Run;
    RunKeepsInv(cursor, ready, nextSequence, events);
    var p := Run(Connected(cursor, ready, nextSequence), events).pipe;
    assert forall i :: 0 <= i < |p.wire| ==> p.wire[i] == Numbered(p)[i];
  }

  /** Once settled, a promise keeps its outcome for ever. */
  lemma {:induction false} OutcomesAreFinal(cursor: Option<Cursor>, ready: int, nextSequence: int, events: seq<Event>, more: seq<Event>)
    ensures Outlasts(Run(Connected(cursor, ready, nextSequence), events).calls,
                     Run(Connected(cursor, ready, nextSequence), events + more).calls)
  {
    var start := Connected(cursor, ready, nextSequence);
    if more == [] {
      assert events + more == events;
    } else {
      var init := events + more[..|more| - 1];
      assert (events + more)[..|events + more| - 1] == init;
      OutcomesAreFinal(cursor, ready, nextSequence, events, more[..|more| - 1]);
      RunKeepsInv(cursor, ready, nextSequence, init);
      StepKeepsInv(Run(start, init), more[|more| - 1]);
      OutlastsChains(Run(start, events).calls, Run(start, init).calls, Run(start, events + more).calls);
    }
  }

  lemma ClosedStaysClosed(s: State, e: Event)
    requires s.link.closed
    ensures Step(s, e).link.closed
  {
    hide FailPending, Conclude, Resubscribe, SendAck, Enqueue, AwaitResnapshot, LooseResnapshot;
  }

  /** After close() nothing is ever pending again. */
  lemma {:induction false} EmptyAfterClose(cursor: Option<Cursor>, ready: int, nextSequence: int, events: seq<Event>, more: seq<Event>)
    ensures var t := Run(Connected(cursor, ready, nextSequence), events + [CloseCalled] + more);
            t.link.closed && t.calls.pending == {} && t.calls.timers == {}
  {
    var start, closing := Connected(cursor, ready, nextSequence), events + [CloseCalled];
    RunKeepsInv(cursor, ready, nextSequence, closing + more);
    if more == [] {
      assert closing + more == closing && closing[..|closing| - 1] == events;
    } else {
      var init := closing + more[..|more| - 1];
      assert (closing + more)[..|closing + more| - 1] == init;
      EmptyAfterClose(cursor, ready, nextSequence, events, more[..|more| - 1]);
      ClosedStaysClosed(Run(start, init), more[|more| - 1]);
    }
  }

  // ---- What settles a promise ----

  /** Whose fault or merit an outcome is. */
  predicate Causes(s: State, e: Event, id: nat, outcome: Outcome) {
    match outcome
    case Answered => e == FrameOpened(Some(Response(id, true)))
    case Refused => e == FrameOpened(Some(ErrorFor(id)))
    case TimedOut => e == TimeoutFires(id)
    case SendFailed =>
      || (e == SendBegins && s.pipe.queue != [] && s.pipe.queue[0].kind == Request(id))
      || (e.SendEnds? && s.pipe.sealing.Some? && s.pipe.sealing.value.kind == Request(id))
    case Dropped => Drops(s, e)
  }

  /** The events that reject everything pending: each reason for which the source fails its requests. */
  predicate Drops(s: State, e: Event) {
    match e
    case FrameArrives(frame) =>
      s.stream.receiving == Idle &&
      (frame.Oversized? || frame.Unparsable? || frame.Foreign? || (frame.Data? && !s.link.hasToken))
    case FrameOpened(None) => s.stream.receiving.Opening?
    case FrameOpened(Some(payload)) =>
      s.stream.receiving.Opening? && (SequenceGap(s.stream, s.stream.receiving.sequence, payload) || Rejects(s.link, payload))
    case RefreshTick(expired) => expired && IsOpen(s.link) && s.link.refreshing == None
    case SocketCloses => true
    case CloseCalled => !s.link.closed
    case _ => false
  }

  /** A failed refresh of the authorization, or its revocation. */
  predicate Rejects(l: Link, payload: Payload) {
    match payload
    case Refreshed(known, valid) => !(known && l.refreshing.Some? && valid)
    case Revoked => true
    case RefreshError => l.refreshing.Some?
    case _ => false
  }

  /** And each of them leaves no promise unsettled, even those an answer in the same frame is for. */
  lemma DropsSettleAll(s: State, e: Event, id: nat)
    requires Requests(s.calls, s.link.closed) && Drops(s, e)
    requires id < |s.calls.promises| && s.calls.promises[id] == Unsettled
    ensures id < |Step(s, e).calls.promises| && Step(s, e).calls.promises[id] == Settled(Dropped)
  {
    hide Enqueue, AwaitResnapshot, LooseResnapshot, ReceiveEvent;
    if e.FrameOpened? && e.payload.Some? && e.payload.value.EventPayload? {
      var m := s.stream;
      EventKeepsCalls(MarkProcessed(CheckGap(s, m.receiving.sequence, e.payload.value), m.receiving.sequence),
                      e.payload.value.event, e.payload.value.workspace);
    }
  }

  /** Each answer, error, timeout or send failure settles the promise of its own request only; the rest are drops. */
  lemma OutcomeHasItsCause(s: State, e: Event, id: nat)
    requires id < |s.calls.promises| && s.calls.promises[id] == Unsettled
    requires Step(s, e).calls.promises[id].Settled?
    ensures Causes(s, e, id, Step(s, e).calls.promises[id].outcome)
  {
    hide Enqueue, SendAck, Resubscribe, AwaitResnapshot, LooseResnapshot, ReceiveEvent;
    if e.FrameOpened? && e.payload.Some? && e.payload.value.EventPayload? {
      var m := s.stream;
      if m.receiving.Opening? {
        EventKeepsCalls(MarkProcessed(CheckGap(s, m.receiving.sequence, e.payload.value), m.receiving.sequence),
                        e.payload.value.event, e.payload.value.workspace);
      }
    }
  }

  /** And the other way round: an answer to a pending request that is opened settles it, and so does its timer. */
  lemma AnswerSettles(s: State, id: nat)
    requires Requests(s.calls, s.link.closed) && id in s.calls.pending
    ensures Step(s, TimeoutFires(id)).calls.promises[id] == Settled(TimedOut)
    ensures s.stream.receiving.Opening? &&
            !SequenceGap(s.stream, s.stream.receiving.sequence, Response(id, true)) ==>
              Step(s, FrameOpened(Some(Response(id, true)))).calls.promises[id] == Settled(Answered)
  {
  }

  // ---- The class ----

  /** Each method takes the View to what the transition of the same event makes of it. */
  class Transport {
    var pending: set<nat>
    var timers: set<nat>
    var promises: seq<Promise>
    var cursor: Option<Cursor>
    var lastServerSequence: Option<int>
    var receiving: Receiving
    var looseResnapshots: nat
    var nextSequence: int
    var sendQueue: seq<Outgoing>
    var sealing: Option<Outgoing>
    var closed: bool
    var hasSocket: bool
    var socketOpen: bool
    var hasToken: bool
    var handlers: bool
    var subscribed: set<string>
    var refreshing: Option<int>
    ghost var log: seq<Entry>
    ghost var processed: seq<int>
    ghost var wire: seq<int>

    ghost function CallsView(): Calls
      reads this
    {
      Calls(pending, timers, promises)
    }

    ghost function StreamView(): Stream
      reads this
    {
      Stream(cursor, lastServerSequence, receiving, looseResnapshots, log, processed)
    }

    ghost function PipeView(): Pipe
      reads this
    {
      Pipe(nextSequence, sendQueue, sealing, wire)
    }

    function LinkView(): Link
      reads this
    {
      Link(closed, hasSocket, socketOpen, hasToken, handlers, subscribed, refreshing)
    }

    ghost function View(): State
      reads this
    {
      State(CallsView(), StreamView(), PipeView(), LinkView())
    }

    constructor (start: Option<Cursor>, ready: int, next: int)
      ensures View() == Connected(start, ready, next)
    {
      pending, timers, promises := {}, {}, [];
      cursor, lastServerSequence, receiving, looseResnapshots := start, Some(ready), Idle, 0;
      nextSequence, sendQueue, sealing := next, [], None;
      closed, hasSocket, socketOpen, hasToken := false, true, true, true;
      handlers, subscribed, refreshing := false, {}, None;
      log, processed, wire := [], [ready], [];
    }

    method TakeSequence() returns (sequence: int)
      modifies `nextSequence
      ensures sequence == old(nextSequence) && nextSequence == old(nextSequence) + 1
    {
      sequence := nextSequence;
      nextSequence := nextSequence + 1;
    }

    method SendFrame(kind: Kind)
      modifies `nextSequence, `sendQueue
      ensures PipeView() == Enqueue(old(PipeView()), kind)
    {
      var sequence := TakeSequence();
      sendQueue := sendQueue + [Outgoing(kind, sequence)];
    }

    method Finish(id: nat, outcome: Outcome)
      modifies `pending, `timers, `promises
      ensures CallsView() == Conclude(old(CallsView()), id, outcome)
    {
      pending := pending - {id};
      timers := timers - {id};
      if id < |promises| && promises[id] == Unsettled {
        promises := promises[id := Settled(outcome)];
      }
    }

    /** One pass over the pending map. */
    method DropPending()
      modifies `pending, `timers, `promises
      ensures CallsView() == FailPending(old(CallsView()))
    {
      while pending != {}
        invariant pending <= old(pending)
        invariant timers == old(timers) - (old(pending) - pending)
        invariant |promises| == |old(promises)|
        invariant forall i :: 0 <= i < |promises| ==>
          promises[i] == if i in old(pending) - pending && old(promises)[i] == Unsettled then Settled(Dropped)
                         else old(promises)[i]
        decreases |pending|
      {
        var id :| id in pending;
        Finish(id, Dropped);
      }
    }

    method Request(allowed: bool, authorized: bool) returns (id: Option<nat>)
      modifies this
      ensures View() == CallRequest(old(View()), allowed, authorized)
      ensures id == if allowed && authorized && IsOpen(old(LinkView())) then Some(|old(promises)|) else None
    {
      hide OpenCall, Enqueue;
      if !allowed || !IsOpen(LinkView()) || !authorized { return None; }
      id := Some(|promises|);
      AddPending();
      SendFrame(Kind.Request(id.value));
    }

    method AddPending()
      modifies `pending, `timers, `promises
      ensures CallsView() == OpenCall(old(CallsView()))
    {
      pending, timers := pending + {|promises|}, timers + {|promises|};
      promises := promises + [Unsettled];
    }

    method OnTimeout(id: nat)
      modifies this
      ensures View() == Expire(old(View()), id)
    {
      if id in timers { Finish(id, TimedOut); }
    }

    method CloseSocket()
      modifies this
      ensures View() == Abandon(old(View()))
    {
      hide FailPending;
      DropPending();
      socketOpen := false;
    }

    /** receiveRawFrame up to the opening of the envelope. */
    method OnFrame(frame: Frame)
      requires receiving == Idle
      modifies this
      ensures View() == ReceiveFrame(old(View()), frame)
    {
      hide FailPending;
      match frame
      case Oversized => CloseSocket();
      case Unparsable => DropPending();
      case Uninteresting =>
      case Foreign => CloseSocket();
      case Data(sequence) =>
        if !hasToken {
          CloseSocket();
        } else if lastServerSequence == None || sequence > lastServerSequence.value {
          receiving := Opening(sequence);
        }
    }

    method RequestResnapshotLoosely()
      modifies this
      ensures View() == old(View()).(stream := LooseResnapshot(old(StreamView()), old(LinkView())))
    {
      cursor := None;
      log := log + [ResnapshotAsked(handlers && !closed)];
      if handlers && !closed { looseResnapshots := looseResnapshots + 1; }
    }

    method RequestResnapshot()
      modifies this
      ensures View() == old(View()).(stream := AwaitResnapshot(old(StreamView()), old(LinkView())))
    {
      cursor := None;
      log := log + [ResnapshotAsked(handlers && !closed)];
      receiving := if handlers && !closed then InResnapshot else Idle;
    }

    method Acknowledge()
      modifies `nextSequence, `sendQueue
      ensures PipeView() == SendAck(old(PipeView()), LinkView(), cursor)
    {
      if IsOpen(LinkView()) && cursor.Some? { SendFrame(Ack); }
    }

    /** receiveRawFrame after the opening of the envelope. */
    method OnOpened(payload: Option<Payload>)
      requires receiving.Opening?
      modifies this
      ensures View() == OpenFrame(old(View()), payload)
    {
      hide FailPending, ReceivePayload, CheckGap, MarkProcessed;
      var sequence := receiving.sequence;
      if payload == None {
        receiving := Idle;
        CloseSocket();
        return;
      }
      NoticeGap(sequence, payload.value);
      NoteProcessed(sequence);
      OnPayload(payload.value);
    }

    method NoticeGap(sequence: int, payload: Payload)
      modifies this
      ensures View() == CheckGap(old(View()), sequence, payload)
    {
      hide FailPending;
      if lastServerSequence.Some? && sequence > lastServerSequence.value + 1 && payload != Ready {
        DropPending();
        RequestResnapshotLoosely();
      }
    }

    method NoteProcessed(sequence: int)
      modifies `lastServerSequence, `receiving, `processed
      ensures View() == MarkProcessed(old(View()), sequence)
    {
      lastServerSequence := Some(sequence);
      receiving := Idle;
      processed := processed + [sequence];
    }

    method OnPayload(payload: Payload)
      modifies this
      ensures View() == ReceivePayload(old(View()), payload)
    {
      hide FailPending, Conclude, ReceiveEvent, LooseResnapshot;
      match payload
      case Response(id, matchesFrame) =>
        if matchesFrame && id in pending { Finish(id, Answered); }
      case Refreshed(known, valid) =>
        var wasKnown := known && refreshing.Some?;
        if known { refreshing := None; }
        if !wasKnown || !valid { CloseSocket(); }
      case EventPayload(event, workspace) => OnEventPayload(event, workspace);
      case ResnapshotRequired => RequestResnapshotLoosely();
      case Revoked =>
        CloseSocket();
        hasToken := false;
      case ErrorFor(id) => if id in pending { Finish(id, Refused); }
      case RefreshError =>
        if refreshing.Some? {
          refreshing := None;
          CloseSocket();
        }
      case _ =>
    }

    /** receiveEvent up to the await of onEvent. */
    method OnEventPayload(event: Cursor, workspace: string)
      modifies this
      ensures View() == ReceiveEvent(old(View()), event, workspace)
    {
      if !handlers || workspace !in subscribed { return; }
      match DecideCursor(cursor, event)
      case Duplicate => Acknowledge();
      case Resnapshot => RequestResnapshot();
      case Accept(next) =>
        receiving := InEvent(next);
        log := log + [Delivered(next)];
    }

    /** receiveEvent after onEvent settled. */
    method OnEventHandled(ok: bool)
      requires receiving.InEvent?
      modifies this
      ensures View() == FinishEvent(old(View()), ok)
    {
      if ok {
        cursor := Some(receiving.event);
        receiving := Idle;
        Acknowledge();
      } else {
        RequestResnapshot();
      }
    }

    method Subscribe(workspaces: set<string>, newHandlers: bool)
      modifies this
      ensures View() == SubscribeTo(old(View()), workspaces, newHandlers)
    {
      if newHandlers { handlers := true; }
      subscribed := workspaces;
      if IsOpen(LinkView()) && subscribed != {} { SendFrame(Kind.Subscribe); }
    }

    method Unsubscribe()
      modifies this
      ensures View() == UnsubscribeFrom(old(View()))
    {
      handlers, subscribed := false, {};
      log := log + [Gone];
    }

    /** The start of the next send in the tail. */
    method StartSend()
      requires sealing == None && sendQueue != []
      modifies this
      ensures View() == BeginSend(old(View()))
    {
      hide Conclude;
      var item := sendQueue[0];
      sendQueue := sendQueue[1..];
      if IsOpen(LinkView()) && hasSocket {
        sealing := Some(item);
      } else {
        OnSendFailure(item);
      }
    }

    /** The rest of the send, once the payload is sealed. */
    method CompleteSend(ok: bool)
      requires sealing.Some?
      modifies this
      ensures View() == EndSend(old(View()), ok)
    {
      hide Conclude;
      var item := sealing.value;
      sealing := None;
      if ok && hasSocket {
        wire := wire + [item.sequence];
      } else {
        OnSendFailure(item);
      }
    }

    method OnSendFailure(item: Outgoing)
      modifies this
      ensures View() == SendFails(old(View()), item)
    {
      hide Conclude;
      match item.kind
      case Request(id) => Finish(id, SendFailed);
      case Refresh => if refreshing == Some(item.sequence) { refreshing := None; }
      case _ =>
    }

    method RefreshAuthorization(expired: bool)
      modifies this
      ensures View() == Tick(old(View()), expired)
    {
      if !IsOpen(LinkView()) || refreshing.Some? { return; }
      if expired {
        CloseSocket();
        return;
      }
      refreshing := Some(nextSequence);
      SendFrame(Refresh);
    }

    method OnSocketClosed()
      modifies this
      ensures View() == SocketLost(old(View()))
    {
      hide FailPending;
      DropPending();
      hasToken, closed, socketOpen := false, true, false;
      log := log + [Gone];
    }

    method Close()
      modifies this
      ensures View() == Closing(old(View()))
    {
      hide FailPending;
      if closed { return; }
      DropPending();
      Release();
    }

    method Release()
      modifies `closed, `hasToken, `socketOpen, `hasSocket, `handlers, `log
      ensures LinkView() == old(LinkView()).(closed := true, hasToken := false, socketOpen := false,
                                             hasSocket := false, handlers := false)
      ensures StreamView() == Leave(old(StreamView()))
    {
      closed, hasToken, socketOpen, hasSocket, handlers := true, false, false, false, false;
      log := log + [Gone];
    }
  }
}
