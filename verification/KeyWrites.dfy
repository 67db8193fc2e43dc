/**
 * save and saveTrust of the key store between their awaits: memory holds a copy at once, the database row is
 * sealed from an array later, and committed later still. save seals the array its caller passed, saveTrust the
 * store's own copy. Arrays are numbered, so that what is shared is explicit; a trust has one key here.
 */
module KeyWrites {

  import opened Prelude
  import KeyStore

  type Bytes = seq<KeyStore.Byte>

  datatype Id = OfSession(key: string) | OfTrust(key: string)

  /**
   * A transaction under way. source is the array a put seals, None for a deletion; copy is the array memory got
   * and saved the bytes of the save; both are histories.
   */
  datatype Write = Write(id: Id, source: Option<nat>, copy: nat, saved: Bytes, sealed: Option<Bytes>, ended: bool)

  /** A row, and the transaction that put it there. */
  datatype Stored = Stored(bytes: Bytes, writer: nat)

  /** callers are the arrays in the callers' hands, memory the store's own by record. */
  datatype State = State(arrays: seq<Bytes>, callers: set<nat>, memory: map<Id, nat>, writes: seq<Write>,
                         database: map<Id, Stored>)

  datatype Event =
    | Makes(bytes: Bytes)                // a caller makes an array
    | Overwrites(a: nat, bytes: Bytes)   // a caller overwrites one
    | Saves(id: Id, a: nat)
    | Drops(id: Id)                      // a record leaves memory
    | Removes(id: Id)                    // and is deleted from the database
    | Seals(w: nat)                      // the row is encrypted
    | Commits(w: nat)
    | Fails(w: nat)

  const EMPTY := State([], {}, map[], [], map[])

  function Zeros(n: nat): Bytes {
    seq(n, i => 0)
  }

  /** Zero the array of a record and forget the record. */
  function Drop(s: State, id: Id): State {
    if id in s.memory && s.memory[id] < |s.arrays| then
      s.(arrays := s.arrays[s.memory[id] := Zeros(|s.arrays[s.memory[id]]|)], memory := s.memory - {id})
    else s
  }

  /** The copy is array |arrays|; only a session's row is sealed from the caller's array. */
  function Save(s: State, id: Id, a: nat): State {
    if a >= |s.arrays| || a !in s.callers then s
    else
      var copy, t := |s.arrays|, Drop(s, id);
      t.(arrays := t.arrays + [s.arrays[a]], memory := t.memory[id := copy],
         writes := t.writes + [Write(id, Some(if id.OfSession? then a else copy), copy, s.arrays[a], None, false)])
  }

  function Remove(s: State, id: Id): State {
    var t := Drop(s, id);
    t.(writes := t.writes + [Write(id, None, 0, [], None, false)])
  }

  predicate CanSeal(s: State, w: nat) {
    && w < |s.writes| && !s.writes[w].ended && s.writes[w].sealed == None
    && s.writes[w].source.Some? && s.writes[w].source.value < |s.arrays|
  }

  function Seal(s: State, w: nat): State {
    if CanSeal(s, w) then
      s.(writes := s.writes[w := s.writes[w].(sealed := Some(s.arrays[s.writes[w].source.value]))])
    else s
  }

  function Commit(s: State, w: nat): State {
    if w >= |s.writes| || s.writes[w].ended then s
    else
      var t, p := s.(writes := s.writes[w := s.writes[w].(ended := true)]), s.writes[w];
      if p.source == None then t.(database := s.database - {p.id})
      else if p.sealed.Some? then t.(database := s.database[p.id := Stored(p.sealed.value, w)])
      else s
  }

  function Step(s: State, e: Event): State {
    match e
    case Makes(bytes) => s.(arrays := s.arrays + [bytes], callers := s.callers + {|s.arrays|})
    case Overwrites(a, bytes) =>
      if a < |s.arrays| && a in s.callers && |bytes| == |s.arrays[a]| then s.(arrays := s.arrays[a := bytes]) else s
    case Saves(id, a) => Save(s, id, a)
    case Drops(id) => Drop(s, id)
    case Removes(id) => Remove(s, id)
    case Seals(w) => Seal(s, w)
    case Commits(w) => Commit(s, w)
    case Fails(w) => if w < |s.writes| then s.(writes := s.writes[w := s.writes[w].(ended := true)]) else s
  }

  function Run(events: seq<Event>): State {
    if events == [] then EMPTY else Step(Run(events[..|events| - 1]), events[|events| - 1])
  }

  // ---- The invariant ----

  /** Memory still holds what this write saved. */
  predicate Keeps(memory: map<Id, nat>, w: Write) {
    w.id in memory && memory[w.id] == w.copy
  }

  /**
   * The store's copy of a save has its bytes as long as memory keeps it, and is zero from then on. A trust is
   * sealed from that copy, so its row gets one or the other; a session is sealed from an array of a caller.
   */
  ghost predicate PutOk(arrays: seq<Bytes>, callers: set<nat>, memory: map<Id, nat>, w: Write) {
    w.source.Some? ==>
      && w.copy < |arrays| && w.copy !in callers
      && (forall id :: id in memory && memory[id] == w.copy ==> id == w.id)
      && arrays[w.copy] == (if Keeps(memory, w) then w.saved else Zeros(|w.saved|))
      && (if w.id.OfTrust? then w.source.value == w.copy
          else w.source.value in callers && w.source.value < |arrays| && |arrays[w.source.value]| == |w.saved|)
      && (w.sealed.Some? && w.id.OfTrust? ==> w.sealed.value in {w.saved, Zeros(|w.saved|)})
  }

  ghost predicate PutsOk(s: State) {
    forall k {:trigger s.writes[k]} :: 0 <= k < |s.writes| ==> PutOk(s.arrays, s.callers, s.memory, s.writes[k])
  }

  /** Arrays of the store are in nobody else's hands, and each record has its own. */
  ghost predicate MemoryOk(s: State) {
    && (forall c :: c in s.callers ==> c < |s.arrays|)
    && (forall id :: id in s.memory ==> s.memory[id] < |s.arrays| && s.memory[id] !in s.callers)
    && (forall i, j :: i in s.memory && j in s.memory && s.memory[i] == s.memory[j] ==> i == j)
  }

  /** Every row is what some put sealed. */
  ghost predicate RowsOk(s: State) {
    forall id :: id in s.database ==> RowOk(s.writes, id, s.database[id])
  }

  predicate RowOk(writes: seq<Write>, id: Id, row: Stored) {
    row.writer < |writes| && writes[row.writer].id == id && writes[row.writer].source.Some? && writes[row.writer].sealed == Some(row.bytes)
  }

  ghost predicate Inv(s: State) {
    MemoryOk(s) && PutsOk(s) && RowsOk(s)
  }

  lemma DropKeepsInv(s: State, id: Id)
    requires Inv(s)
    ensures Inv(Drop(s, id)) && id !in Drop(s, id).memory
    ensures Drop(s, id) == s.(arrays := Drop(s, id).arrays, memory := Drop(s, id).memory)
    ensures |Drop(s, id).arrays| == |s.arrays| && forall c :: c in s.callers ==> Drop(s, id).arrays[c] == s.arrays[c]
  {
    var t := Drop(s, id);
    forall k | 0 <= k < |s.writes|
      ensures PutOk(t.arrays, t.callers, t.memory, s.writes[k])
    {
      assert PutOk(s.arrays, s.callers, s.memory, s.writes[k]);
    }
  }

  /** A new copy for a record that was dropped leaves the earlier writes as they were. */
  lemma EarlierPutOk(arrays: seq<Bytes>, callers: set<nat>, memory: map<Id, nat>, w: Write, id: Id, bytes: Bytes)
    requires PutOk(arrays, callers, memory, w) && id !in memory
    ensures PutOk(arrays + [bytes], callers, memory[id := |arrays|], w)
  {
  }

  lemma NewPutOk(t: State, id: Id, a: nat)
    requires MemoryOk(t) && id !in t.memory && a in t.callers
    ensures PutOk(t.arrays + [t.arrays[a]], t.callers, t.memory[id := |t.arrays|],
                  Write(id, Some(if id.OfSession? then a else |t.arrays|), |t.arrays|, t.arrays[a], None, false))
  {
  }

  lemma SaveKeepsInv(s: State, id: Id, a: nat)
    requires Inv(s)
    ensures Inv(Save(s, id, a))
  {
    if a < |s.arrays| && a in s.callers {
      var t, n := Drop(s, id), Save(s, id, a);
      DropKeepsInv(s, id);
      NewPutOk(t, id, a);
      hide PutOk, Drop;
      forall k | 0 <= k < |n.writes|
        ensures PutOk(n.arrays, n.callers, n.memory, n.writes[k])
      {
        if k < |t.writes| {
          assert n.writes[k] == t.writes[k];
          EarlierPutOk(t.arrays, t.callers, t.memory, t.writes[k], id, s.arrays[a]);
        }
      }
    }
  }

  lemma RemoveKeepsInv(s: State, id: Id)
    requires Inv(s)
    ensures Inv(Remove(s, id))
  {
    DropKeepsInv(s, id);
    hide Drop;
    var t, n := Drop(s, id), Remove(s, id);
    forall k | 0 <= k < |n.writes|
      ensures PutOk(n.arrays, n.callers, n.memory, n.writes[k])
    {
      if k < |t.writes| { assert n.writes[k] == t.writes[k]; }
    }
  }

  lemma SealKeepsInv(s: State, w: nat)
    requires Inv(s)
    ensures Inv(Seal(s, w))
  {
    if CanSeal(s, w) {
      assert PutOk(s.arrays, s.callers, s.memory, s.writes[w]);
      forall id | id in s.database
        ensures RowOk(Seal(s, w).writes, id, s.database[id])
      {
      }
    }
  }

  lemma CommitKeepsInv(s: State, w: nat)
    requires Inv(s)
    ensures Inv(Commit(s, w))
  {
    if w < |s.writes| {
      assert PutOk(s.arrays, s.callers, s.memory, s.writes[w]);
    }
  }

  lemma ArraysKeepInv(s: State, e: Event)
    requires Inv(s) && (e.Makes? || e.Overwrites? || e.Fails?)
    ensures Inv(Step(s, e))
  {
    var n := Step(s, e);
    forall k | 0 <= k < |s.writes|
      ensures PutOk(n.arrays, n.callers, n.memory, n.writes[k])
    {
      assert PutOk(s.arrays, s.callers, s.memory, s.writes[k]);
      ArraysKeepPut(s, e, s.writes[k]);
    }
    hide PutOk;
  }

  lemma ArraysKeepPut(s: State, e: Event, w: Write)
    requires MemoryOk(s) && PutOk(s.arrays, s.callers, s.memory, w) && (e.Makes? || e.Overwrites? || e.Fails?)
    ensures var n := Step(s, e);
            && n.memory == s.memory && PutOk(n.arrays, n.callers, n.memory, w)
            && PutOk(n.arrays, n.callers, n.memory, w.(ended := true))
  {
  }

  lemma StepKeepsInv(s: State, e: Event)
    requires Inv(s)
    ensures Inv(Step(s, e))
  {
    hide Inv, Save, Drop, Remove, Seal, Commit;
    match e {
      case Saves(id, a) => SaveKeepsInv(s, id, a);
      case Drops(id) => DropKeepsInv(s, id);
      case Removes(id) => RemoveKeepsInv(s, id);
      case Seals(w) => SealKeepsInv(s, w);
      case Commits(w) => CommitKeepsInv(s, w);
      case _ => ArraysKeepInv(s, e);
    }
  }

  lemma {:induction false} RunKeepsInv(events: seq<Event>)
    ensures Inv(Run(events))
  {
    hide Inv, Step;
    if events == [] {
      NothingYet();
    } else {
      RunKeepsInv(events[..|events| - 1]);
      StepKeepsInv(Run(events[..|events| - 1]), events[|events| - 1]);
    }
  }

  lemma NothingYet()
    ensures Inv(EMPTY)
  {
  }

  // ---- What a step leaves of the arrays and the writes ----

  /** A write keeps what it was called with, and its first sealing. */
  predicate Persists(before: Write, after: Write) {
    && after.id == before.id && after.source == before.source && after.copy == before.copy && after.saved == before.saved
    && (before.sealed.Some? ==> after.sealed == before.sealed)
  }

  lemma StepKeepsWrites(s: State, e: Event, w: nat)
    requires w < |s.writes|
    ensures w < |Step(s, e).writes| && Persists(s.writes[w], Step(s, e).writes[w])
  {
  }

  lemma {:induction false} WritesPersist(events: seq<Event>, later: seq<Event>, w: nat)
    requires w < |Run(events).writes|
    ensures w < |Run(events + later).writes| && Persists(Run(events).writes[w], Run(events + later).writes[w])
  {
    hide Step;
    if later == [] {
      assert events + later == events;
    } else {
      var n := |later| - 1;
      WritesPersist(events, later[..n], w);
      assert (events + later)[..|events + later| - 1] == events + later[..n];
      StepKeepsWrites(Run(events + later[..n]), later[n], w);
    }
  }

  /** Only a caller's own writes change its array. */
  function Overwritten(bytes: Bytes, a: nat, e: Event): Bytes {
    if e.Overwrites? && e.a == a && |e.bytes| == |bytes| then e.bytes else bytes
  }

  lemma CallersArray(s: State, e: Event, a: nat)
    requires Inv(s) && a in s.callers
    ensures a < |s.arrays| && a in Step(s, e).callers && a < |Step(s, e).arrays|
    ensures Step(s, e).arrays[a] == Overwritten(s.arrays[a], a, e)
  {
    match e {
      case Saves(id, _) => DropKeepsInv(s, id);
      case Drops(id) => DropKeepsInv(s, id);
      case Removes(id) => DropKeepsInv(s, id);
      case _ =>
    }
    hide PutsOk, RowsOk, Drop;
  }

  /** What the callers last wrote to array a. */
  function LastWritten(events: seq<Event>, a: nat, bytes: Bytes): Bytes {
    if events == [] then bytes
    else Overwritten(LastWritten(events[..|events| - 1], a, bytes), a, events[|events| - 1])
  }

  lemma {:induction false} CallersArrayLater(events: seq<Event>, more: seq<Event>, a: nat)
    requires a in Run(events).callers
    ensures a < |Run(events).arrays| && a in Run(events + more).callers && a < |Run(events + more).arrays|
    ensures Run(events + more).arrays[a] == LastWritten(more, a, Run(events).arrays[a])
  {
    hide Step, Inv, Overwritten;
    RunKeepsInv(events);
    CallersArray(Run(events), Makes([]), a);
    if more == [] {
      assert events + more == events;
    } else {
      var n := |more| - 1;
      CallersArrayLater(events, more[..n], a);
      RunKeepsInv(events + more[..n]);
      assert (events + more)[..|events + more| - 1] == events + more[..n];
      CallersArray(Run(events + more[..n]), more[n], a);
    }
  }

  // ---- What the rows hold ----

  /**
   * The row of a session holds what its caller's array held when the row was sealed: the bytes of the save
   * exactly when the last of the caller's writes to it before that, if any, left the same bytes.
   */
  lemma SessionRowExactly(before: seq<Event>, key: string, a: nat, more: seq<Event>, later: seq<Event>)
    requires a in Run(before).callers
    requires CanSeal(Run(before + [Saves(OfSession(key), a)] + more), |Run(before).writes|)
    requires var t, id := Run(before + [Saves(OfSession(key), a)] + more + [Seals(|Run(before).writes|)] + later), OfSession(key);
             id in t.database && t.database[id].writer == |Run(before).writes|
    ensures a < |Run(before).arrays|
    ensures var t, saved := Run(before + [Saves(OfSession(key), a)] + more + [Seals(|Run(before).writes|)] + later), Run(before).arrays[a];
            t.database[OfSession(key)].bytes == LastWritten(more, a, saved)
  {
    var w, id, saving := |Run(before).writes|, OfSession(key), before + [Saves(OfSession(key), a)];
    RunKeepsInv(before);
    assert saving[..|saving| - 1] == before;
    SavingWrites(Run(before), id, a);
    hide Save, Inv;
    CallersArrayLater(saving, more, a);
    WritesPersist(saving, more, w);
    SealedRow(saving + more, w, later);
  }

  lemma SavingWrites(s: State, id: Id, a: nat)
    requires Inv(s) && a in s.callers && id.OfSession?
    ensures var n := Step(s, Saves(id, a));
            && a < |s.arrays| && a in n.callers && a < |n.arrays| && n.arrays[a] == s.arrays[a]
            && |n.writes| == |s.writes| + 1 && n.writes[|s.writes|].source == Some(a)
  {
    DropKeepsInv(s, id);
  }

  /** A row put by a write is what the write sealed. */
  lemma SealedRow(events: seq<Event>, w: nat, later: seq<Event>)
    requires CanSeal(Run(events), w)
    ensures forall id :: var t := Run(events + [Seals(w)] + later);
              id in t.database && t.database[id].writer == w ==>
                t.database[id].bytes == Run(events).arrays[Run(events).writes[w].source.value]
  {
    var sealing := events + [Seals(w)];
    assert sealing[..|sealing| - 1] == events;
    WritesPersist(sealing, later, w);
    RunKeepsInv(sealing + later);
    assert RowsOk(Run(sealing + later));
    hide Run, MemoryOk, PutsOk;
  }

  /**
   * The row of a trust is sealed from the store's own copy: it holds the bytes of the save, whatever callers
   * wrote, if memory still kept that save when the row was sealed, and otherwise nothing but zeros.
   */
  lemma TrustRowExactly(events: seq<Event>, w: nat, later: seq<Event>)
    requires CanSeal(Run(events), w) && Run(events).writes[w].id.OfTrust?
    requires var t, id := Run(events + [Seals(w)] + later), Run(events).writes[w].id;
             id in t.database && t.database[id].writer == w
    ensures var s, t, p := Run(events), Run(events + [Seals(w)] + later), Run(events).writes[w];
            && t.database[p.id].bytes == (if Keeps(s.memory, p) then p.saved else Zeros(|p.saved|))
            && (t.database[p.id].bytes == p.saved <==> Keeps(s.memory, p) || p.saved == Zeros(|p.saved|))
  {
    RunKeepsInv(events);
    SealedRow(events, w, later);
    assert PutOk(Run(events).arrays, Run(events).callers, Run(events).memory, Run(events).writes[w]);
    hide Run;
  }

  /** So no write of a caller is ever in the row of a trust. */
  lemma TrustRowSavedOrZero(events: seq<Event>, key: string)
    requires OfTrust(key) in Run(events).database
    ensures var s := Run(events);
            var row := s.database[OfTrust(key)];
            row.writer < |s.writes| && row.bytes in {s.writes[row.writer].saved, Zeros(|s.writes[row.writer].saved|)}
  {
    RunKeepsInv(events);
    var s := Run(events);
    hide Run;
    var writer := s.database[OfTrust(key)].writer;
    assert RowOk(s.writes, OfTrust(key), s.database[OfTrust(key)]);
    assert PutOk(s.arrays, s.callers, s.memory, s.writes[writer]);
  }

  // ---- Two ways a row can miss the bytes of its save ----

  lemma OneMore(events: seq<Event>, e: Event)
    ensures Run(events + [e]) == Step(Run(events), e)
  {
    assert (events + [e])[..|events|] == events;
  }

  function OnceSaved(id: Id): State {
    State([[1], [1]], {0}, map[id := 1], [Write(id, Some(if id.OfSession? then 0 else 1), 1, [1], None, false)], map[])
  }

  lemma SavedOnce(id: Id)
    ensures Run([Makes([1]), Saves(id, 0)]) == OnceSaved(id)
  {
    var r1 := [Makes([1])];
    OneMore([], Makes([1]));
    assert [] + r1 == r1;
    assert Run(r1) == State([[1]], {0}, map[], [], map[]);
    OneMore(r1, Saves(id, 0));
    assert r1 + [Saves(id, 0)] == [Makes([1]), Saves(id, 0)];
  }

  /** The caller of save overwrites its array before the row is sealed. */
  lemma SessionSealedTooLate()
    ensures var s := Run([Makes([1]), Saves(OfSession("k"), 0), Overwrites(0, [0]), Seals(0), Commits(0)]);
            s.database == map[OfSession("k") := Stored([0], 0)] && |s.writes| == 1 && s.writes[0].saved == [1]
  {
    var id := OfSession("k");
    var r2 := [Makes([1]), Saves(id, 0)];
    var r3 := r2 + [Overwrites(0, [0])];
    SavedOnce(id);
    OneMore(r2, Overwrites(0, [0]));
    OneMore(r3, Seals(0));
    OneMore(r3 + [Seals(0)], Commits(0));
    hide Run;
    assert [Makes([1]), Saves(id, 0), Overwrites(0, [0]), Seals(0), Commits(0)] == r3 + [Seals(0)] + [Commits(0)];
  }

  /** A trust is removed while its save is under way, and its row comes back, zeroed. */
  lemma TrustSealedTooLate()
    ensures var s := Run([Makes([1]), Saves(OfTrust("k"), 0), Removes(OfTrust("k")), Commits(1), Seals(0), Commits(0)]);
            && s.memory == map[] && s.database == map[OfTrust("k") := Stored([0], 0)]
            && |s.writes| == 2 && s.writes[0].saved == [1]
  {
    var id := OfTrust("k");
    var r2 := [Makes([1]), Saves(id, 0)];
    var r3 := r2 + [Removes(id)];
    var r4 := r3 + [Commits(1)];
    SavedOnce(id);
    OneMore(r2, Removes(id));
    assert Zeros(1) == [0];
    hide Run;
    assert Run(r3) == State([[1], [0]], {0}, map[],
                            [Write(id, Some(1), 1, [1], None, false), Write(id, None, 0, [], None, false)], map[]);
    OneMore(r3, Commits(1));
    OneMore(r4, Seals(0));
    OneMore(r4 + [Seals(0)], Commits(0));
    assert [Makes([1]), Saves(id, 0), Removes(id), Commits(1), Seals(0), Commits(0)] == r4 + [Seals(0)] + [Commits(0)];
  }
}
