/**
 * BrowserWorkspaceKeyStore: key material held in memory maps, with a database behind them. Key arrays are heap
 * objects; the database holds byte values, its encryption and its transactions are not modelled: each call is
 * told whether the database works for it.
 */
module KeyStore {

  import opened Prelude

  newtype Byte = x: int | 0 <= x < 256

  type Key = array<Byte>

  /** A record whose key bytes live in arrays. */
  datatype Session = Session(scope: string, requestId: string, trustId: Option<string>, details: string, key: Key)

  datatype Trust = Trust(scope: string, trustId: string, origin: string, target: string, expiresAt: int, createdAt: int,
                         details: string, privateKey: Key, proofKey: Key)

  datatype Command = Command(scope: string, requestId: string, commandId: string, expiresAt: int, details: string)

  /** The same records by value, as the database keeps them. */
  datatype Row =
    | SessionRow(scope: string, requestId: string, trustId: Option<string>, details: string, key: seq<Byte>)
    | TrustRow(scope: string, trust: string, origin: string, target: string, expiresAt: int, createdAt: int,
               details: string, privateKey: seq<Byte>, proofKey: seq<Byte>)
    | CommandRow(command: Command)
    | WrapKeyRow

  datatype Persistence = IndexedDb | MemoryOnly

  datatype Result<T> = Ok(value: T) | InvalidScope | InvalidTrustId

  /** How savePendingCommand ends. */
  datatype Saving = Saved(persistence: Persistence) | ScopeRefused | TooMany

  /** Everything the store holds, by value. */
  datatype Contents = Contents(sessions: map<string, Row>, trusts: map<string, Row>, pending: map<string, Command>,
                               database: map<string, Row>)

  const EMPTY := Contents(map[], map[], map[], map[])

  // ---- Identifiers ----

  const KEY_PREFIX := "mezair.browser-workspace.key."
  const TRUST_PREFIX := "mezair.browser-workspace.trust."
  const COMMAND_PREFIX := "mezair.browser-workspace.command."

  const MAX_PENDING_COMMANDS_PER_REQUEST := 64
  const MAX_PENDING_COMMANDS_TOTAL := 256

  predicate Alnum(c: char) {
    'A' <= c <= 'Z' || 'a' <= c <= 'z' || '0' <= c <= '9'
  }

  predicate SafeScope(scope: string) {
    1 <= |scope| <= 160 && forall i :: 0 <= i < |scope| ==> Alnum(scope[i]) || scope[i] in {'.', '_', ':', '-'}
  }

  predicate ValidTrustId(id: string) {
    8 <= |id| <= 80 && forall i :: 0 <= i < |id| ==> Alnum(id[i]) || id[i] in {'_', '-'}
  }

  function KeyId(scope: string, requestId: string): string {
    KEY_PREFIX + scope + "." + requestId
  }

  function TrustKey(scope: string, id: string): string {
    TRUST_PREFIX + scope + "." + id
  }

  function CommandKey(scope: string, requestId: string, commandId: string): string {
    COMMAND_PREFIX + scope + "." + requestId + "." + commandId
  }

  predicate StartsWith(s: string, prefix: string) {
    |prefix| <= |s| && s[..|prefix|] == prefix
  }

  /** Trust ids have no dot, so the key of a trust determines its scope and id. */
  lemma TrustKeyIsInjective(s: string, i: string, t: string, j: string)
    requires ValidTrustId(i) && ValidTrustId(j) && TrustKey(s, i) == TrustKey(t, j)
    ensures s == t && i == j
  {
    var (k, l) := (s + "." + i, t + "." + j);
    assert TrustKey(s, i) == TRUST_PREFIX + k && TrustKey(t, j) == TRUST_PREFIX + l;
    assert k == TrustKey(s, i)[|TRUST_PREFIX|..] && l == TrustKey(t, j)[|TRUST_PREFIX|..];
    LastDot(s, i, k);
    LastDot(t, j, l);
    assert s == k[..|s|] && i == k[|s| + 1..];
    assert t == l[..|t|] && j == l[|t| + 1..];
  }

  lemma LastDot(s: string, i: string, k: string)
    requires ValidTrustId(i) && k == s + "." + i
    ensures |s| < |k| && k[|s|] == '.' && forall n :: |s| < n < |k| ==> k[n] != '.'
  {
    assert forall n :: |s| < n < |k| ==> k[n] == i[n - |s| - 1];
  }

  lemma PrefixCoversScope(scope: string, requestId: string, prefix: string)
    ensures StartsWith(prefix + scope + "." + requestId, prefix + scope + ".")
  {
  }

  // ---- Arrays ----

  ghost predicate Wiped(a: Key)
    reads a
  {
    forall i :: 0 <= i < a.Length ==> a[i] == 0
  }

  method Wipe(a: Key)
    modifies a
    ensures Wiped(a)
  {
    for i := 0 to a.Length
      invariant forall j :: 0 <= j < i ==> a[j] == 0
    {
      a[i] := 0;
    }
  }

  /** new Uint8Array(a). */
  method Copy(a: Key) returns (b: Key)
    ensures fresh(b) && b[..] == a[..]
  {
    b := new Byte[a.Length](i requires 0 <= i < a.Length reads a => a[i]);
  }

  /** A decrypted key. */
  method FromBytes(s: seq<Byte>) returns (b: Key)
    ensures fresh(b) && b[..] == s
  {
    b := new Byte[|s|](i requires 0 <= i < |s| => s[i]);
  }

  // ---- What the removal of a trust removes ----

  /** A session of the scope bound to the trust. */
  predicate BoundTo(row: Row, scope: string, id: string) {
    row.SessionRow? && row.scope == scope && row.trustId == Some(id)
  }

  function BoundKeys(rows: map<string, Row>, scope: string, id: string): set<string> {
    set k | k in rows && BoundTo(rows[k], scope, id)
  }

  function BoundRequests(rows: map<string, Row>, scope: string, id: string): set<string> {
    set k | k in BoundKeys(rows, scope, id) :: rows[k].requestId
  }

  predicate OfRequests(c: Command, scope: string, requests: set<string>) {
    c.scope == scope && c.requestId in requests
  }

  predicate InScope(row: Row, scope: string) {
    match row
    case SessionRow(s, _, _, _, _) => s == scope
    case TrustRow(s, _, _, _, _, _, _, _, _) => s == scope
    case CommandRow(c) => c.scope == scope
    case WrapKeyRow => false
  }

  /** The rows the database transaction deletes. */
  predicate Doomed(k: string, row: Row, scope: string, id: string, requests: set<string>) {
    InScope(row, scope) &&
    (k == TrustKey(scope, id) || BoundTo(row, scope, id) || (row.TrustRow? && row.trust == id) ||
     (row.CommandRow? && row.command.requestId in requests))
  }

  function DoomedKeys(rows: map<string, Row>, scope: string, id: string, requests: set<string>): set<string> {
    set k | k in rows && Doomed(k, rows[k], scope, id, requests)
  }

  // ---- Where arrays hang ----

  datatype Slot = SessionSlot(k: string) | PrivateSlot(k: string) | ProofSlot(k: string)

  /** Where an array was put, and with which bytes. */
  datatype Place = Place(slot: Slot, bytes: seq<Byte>)

  /** All arrays the store ever kept. */
  type Places = map<Key, Place>

  ghost predicate At(places: Places, a: Key, slot: Slot) {
    a in places && places[a].slot == slot
  }

  ghost predicate SessionsPlaced(memory: map<string, Session>, places: Places) {
    forall k :: k in memory ==> At(places, memory[k].key, SessionSlot(k))
  }

  ghost predicate TrustsPlaced(trusts: map<string, Trust>, places: Places) {
    forall k :: k in trusts ==> At(places, trusts[k].privateKey, PrivateSlot(k)) && At(places, trusts[k].proofKey, ProofSlot(k))
  }

  ghost predicate SessionsIdentified(memory: map<string, Session>) {
    forall k :: k in memory ==> SafeScope(memory[k].scope) && k == KeyId(memory[k].scope, memory[k].requestId)
  }

  ghost predicate TrustsIdentified(trusts: map<string, Trust>) {
    forall k :: k in trusts ==>
      SafeScope(trusts[k].scope) && ValidTrustId(trusts[k].trustId) && k == TrustKey(trusts[k].scope, trusts[k].trustId)
  }

  /** Records have their arrays in their own slots and their identifiers as keys. */
  ghost predicate Layout(memory: map<string, Session>, trusts: map<string, Trust>, places: Places) {
    && SessionsPlaced(memory, places) && TrustsPlaced(trusts, places)
    && SessionsIdentified(memory) && TrustsIdentified(trusts)
  }

  /** The array is still in use. */
  ghost predicate Held(memory: map<string, Session>, trusts: map<string, Trust>, a: Key, slot: Slot) {
    match slot
    case SessionSlot(k) => k in memory && memory[k].key == a
    case PrivateSlot(k) => k in trusts && trusts[k].privateKey == a
    case ProofSlot(k) => k in trusts && trusts[k].proofKey == a
  }

  /** The arrays of the records in memory. */
  ghost function KeptOf(memory: map<string, Session>, trusts: map<string, Trust>): set<Key> {
    (set k | k in memory :: memory[k].key) + (set k | k in trusts :: trusts[k].privateKey)
    + (set k | k in trusts :: trusts[k].proofKey)
  }

  /** The arrays ever kept are the earlier ones and those of the records; n of them are new. */
  ghost predicate Grew(before: set<Key>, after: set<Key>, kept: set<Key>, n: nat) {
    after == before + kept && |after| == |before| + n
  }

  lemma KeptArePlaced(memory: map<string, Session>, trusts: map<string, Trust>, places: Places)
    requires SessionsPlaced(memory, places) && TrustsPlaced(trusts, places)
    ensures KeptOf(memory, trusts) <= places.Keys
    ensures Grew(places.Keys, places.Keys, KeptOf(memory, trusts), 0)
  {
  }

  lemma SessionIsKept(memory: map<string, Session>, trusts: map<string, Trust>, places: Places, before: set<Key>, id: string)
    requires SessionsPlaced(memory, places) && TrustsPlaced(trusts, places) && id in memory
    requires memory[id].key !in before && places.Keys == before + {memory[id].key}
    ensures Grew(before, places.Keys, KeptOf(memory, trusts), 1)
  {
    KeptArePlaced(memory, trusts, places);
    assert memory[id].key in KeptOf(memory, trusts);
    hide KeptOf, SessionsPlaced, TrustsPlaced;
  }

  lemma TrustIsKept(memory: map<string, Session>, trusts: map<string, Trust>, places: Places, before: set<Key>, id: string)
    requires SessionsPlaced(memory, places) && TrustsPlaced(trusts, places) && id in trusts
    requires trusts[id].privateKey !in before && trusts[id].proofKey !in before && trusts[id].privateKey != trusts[id].proofKey
    requires places.Keys == before + {trusts[id].privateKey, trusts[id].proofKey}
    ensures Grew(before, places.Keys, KeptOf(memory, trusts), 2)
  {
    KeptArePlaced(memory, trusts, places);
    assert trusts[id].privateKey in KeptOf(memory, trusts) && trusts[id].proofKey in KeptOf(memory, trusts);
    hide KeptOf, SessionsPlaced, TrustsPlaced, Grew;
    TwoMore(before, places.Keys, KeptOf(memory, trusts), trusts[id].privateKey, trusts[id].proofKey);
  }

  lemma TwoMore(before: set<Key>, after: set<Key>, kept: set<Key>, x: Key, y: Key)
    requires x !in before && y !in before && x != y && x in kept && y in kept
    requires after == before + {x, y} && kept <= after
    ensures Grew(before, after, kept, 2)
  {
    assert after == before + {x} + {y};
  }

  lemma SessionTaken(memory: map<string, Session>, trusts: map<string, Trust>, places: Places, id: string)
    requires Layout(memory, trusts, places) && id in memory
    ensures Layout(memory - {id}, trusts, places) && memory[id].key in places
    ensures forall a :: a in places ==>
              (Held(memory - {id}, trusts, a, places[a].slot) <==> Held(memory, trusts, a, places[a].slot) && a != memory[id].key)
  {
    hide SafeScope, ValidTrustId, KeyId, TrustKey;
  }

  lemma TrustTaken(memory: map<string, Session>, trusts: map<string, Trust>, places: Places, id: string)
    requires Layout(memory, trusts, places) && id in trusts
    ensures var (x, y) := (trusts[id].privateKey, trusts[id].proofKey);
            && Layout(memory, trusts - {id}, places) && x in places && y in places
            && forall a :: a in places ==>
                 (Held(memory, trusts - {id}, a, places[a].slot) <==> Held(memory, trusts, a, places[a].slot) && a != x && a != y)
  {
    hide SafeScope, ValidTrustId, KeyId, TrustKey;
  }

  // ---- Contents by value ----

  ghost function BytesAt(places: Places, a: Key): seq<Byte> {
    if a in places then places[a].bytes else []
  }

  function SessionValue(r: Session, key: seq<Byte>): Row {
    SessionRow(r.scope, r.requestId, r.trustId, r.details, key)
  }

  function TrustValue(t: Trust, privateKey: seq<Byte>, proofKey: seq<Byte>): Row {
    TrustRow(t.scope, t.trustId, t.origin, t.target, t.expiresAt, t.createdAt, t.details, privateKey, proofKey)
  }

  ghost function SessionsOf(memory: map<string, Session>, places: Places): map<string, Row> {
    map k | k in memory :: SessionValue(memory[k], BytesAt(places, memory[k].key))
  }

  ghost function TrustsOf(trusts: map<string, Trust>, places: Places): map<string, Row> {
    map k | k in trusts :: TrustValue(trusts[k], BytesAt(places, trusts[k].privateKey), BytesAt(places, trusts[k].proofKey))
  }

  /** The keys a clearing of a scope goes for. */
  function Prefixed(keys: set<string>, prefix: string): set<string> {
    set k | k in keys && StartsWith(k, prefix)
  }

  function ScopePrefix(prefix: string, scope: string): string {
    prefix + scope + "."
  }

  // ---- Putting and dropping, by value ----

  /** Arrays the store never kept before do not show in the contents. */
  lemma OtherArrays(memory: map<string, Session>, trusts: map<string, Trust>, places: Places, after: Places)
    requires SessionsPlaced(memory, places) && TrustsPlaced(trusts, places)
    requires forall a :: a in places ==> a in after && after[a] == places[a]
    ensures SessionsOf(memory, after) == SessionsOf(memory, places) && TrustsOf(trusts, after) == TrustsOf(trusts, places)
  {
  }

  lemma SessionPut(memory: map<string, Session>, places: Places, id: string, r: Session)
    ensures SessionsOf(memory[id := r], places) == SessionsOf(memory, places)[id := SessionValue(r, BytesAt(places, r.key))]
  {
  }

  lemma SessionPutLayout(memory: map<string, Session>, trusts: map<string, Trust>, places: Places, id: string, r: Session, key: seq<Byte>)
    requires Layout(memory, trusts, places) && r.key !in places && SafeScope(r.scope) && id == KeyId(r.scope, r.requestId)
    ensures Layout(memory[id := r], trusts, places[r.key := Place(SessionSlot(id), key)])
    ensures Held(memory[id := r], trusts, r.key, SessionSlot(id))
    ensures id !in memory ==> forall a :: a in places ==>
              (Held(memory[id := r], trusts, a, places[a].slot) <==> Held(memory, trusts, a, places[a].slot))
  {
    hide SafeScope, ValidTrustId, KeyId, TrustKey;
  }

  ghost function WithTrust(places: Places, id: string, t: Trust, privateKey: seq<Byte>, proofKey: seq<Byte>): Places {
    places[t.privateKey := Place(PrivateSlot(id), privateKey)][t.proofKey := Place(ProofSlot(id), proofKey)]
  }

  lemma KeptSession(was: map<string, Session>, before: map<string, Session>, places: Places, id: string, r: Session, key: seq<Byte>)
    requires SessionsPlaced(was, places) && before == was - {id} && r.key !in places
    ensures SessionsOf(before[id := r], places[r.key := Place(SessionSlot(id), key)]) ==
              SessionsOf(was, places)[id := SessionValue(r, key)]
  {
    var after := places[r.key := Place(SessionSlot(id), key)];
    OtherArrays(was, map[], places, after);
    SessionPut(was, after, id, r);
    assert before[id := r] == was[id := r];
  }

  lemma TrustPut(trusts: map<string, Trust>, places: Places, id: string, t: Trust)
    ensures TrustsOf(trusts[id := t], places) ==
              TrustsOf(trusts, places)[id := TrustValue(t, BytesAt(places, t.privateKey), BytesAt(places, t.proofKey))]
  {
  }

  lemma TrustPutLayout(memory: map<string, Session>, trusts: map<string, Trust>, places: Places, id: string, t: Trust,
                       privateKey: seq<Byte>, proofKey: seq<Byte>)
    requires Layout(memory, trusts, places)
    requires t.privateKey !in places && t.proofKey !in places && t.privateKey != t.proofKey
    requires SafeScope(t.scope) && ValidTrustId(t.trustId) && id == TrustKey(t.scope, t.trustId)
    ensures Layout(memory, trusts[id := t], WithTrust(places, id, t, privateKey, proofKey))
    ensures Held(memory, trusts[id := t], t.privateKey, PrivateSlot(id)) && Held(memory, trusts[id := t], t.proofKey, ProofSlot(id))
    ensures id !in trusts ==> forall a :: a in places ==>
              (Held(memory, trusts[id := t], a, places[a].slot) <==> Held(memory, trusts, a, places[a].slot))
  {
    hide SafeScope, ValidTrustId, KeyId, TrustKey;
  }

  lemma Dropped(memory: map<string, Session>, trusts: map<string, Trust>, places: Places, ids: set<string>)
    ensures SessionsOf(memory - ids, places) == SessionsOf(memory, places) - ids
    ensures TrustsOf(trusts - ids, places) == TrustsOf(trusts, places) - ids
  {
  }

  predicate BoundRecord(r: Session, scope: string, id: string) {
    r.scope == scope && r.trustId == Some(id)
  }

  ghost function BoundRecordKeys(memory: map<string, Session>, scope: string, id: string): set<string> {
    set k | k in memory && BoundRecord(memory[k], scope, id)
  }

  ghost function RequestsAt(memory: map<string, Session>, ks: set<string>): set<string> {
    set k | k in ks && k in memory :: memory[k].requestId
  }

  lemma NoRequests(memory: map<string, Session>)
    ensures RequestsAt(memory, {}) == {}
  {
  }

  lemma OneMoreRequest(memory: map<string, Session>, ks: set<string>, k: string)
    requires k in memory
    ensures RequestsAt(memory, ks + {k}) == RequestsAt(memory, ks) + {memory[k].requestId}
  {
  }

  lemma BoundRecords(memory: map<string, Session>, places: Places, scope: string, id: string)
    ensures BoundKeys(SessionsOf(memory, places), scope, id) == BoundRecordKeys(memory, scope, id)
    ensures BoundRequests(SessionsOf(memory, places), scope, id) == RequestsAt(memory, BoundRecordKeys(memory, scope, id))
  {
    var rows := SessionsOf(memory, places);
    assert forall k :: k in memory ==> rows[k].requestId == memory[k].requestId;
    assert BoundKeys(rows, scope, id) == BoundRecordKeys(memory, scope, id);
    forall r | r in RequestsAt(memory, BoundRecordKeys(memory, scope, id))
      ensures r in BoundRequests(rows, scope, id)
    {
      var k :| k in BoundRecordKeys(memory, scope, id) && memory[k].requestId == r;
      assert k in BoundKeys(rows, scope, id) && rows[k].requestId == r;
    }
  }

  lemma WithTrustKeeps(places: Places, id: string, t: Trust, privateKey: seq<Byte>, proofKey: seq<Byte>)
    requires t.privateKey !in places && t.proofKey !in places && t.privateKey != t.proofKey
    ensures var after := WithTrust(places, id, t, privateKey, proofKey);
            && BytesAt(after, t.privateKey) == privateKey && BytesAt(after, t.proofKey) == proofKey
            && after.Keys == places.Keys + {t.privateKey, t.proofKey}
            && forall a :: a in places ==> a in after && after[a] == places[a]
  {
  }

  lemma KeptTrust(was: map<string, Trust>, before: map<string, Trust>, places: Places, id: string, t: Trust,
                  privateKey: seq<Byte>, proofKey: seq<Byte>)
    requires TrustsPlaced(was, places) && before == was - {id}
    requires t.privateKey !in places && t.proofKey !in places && t.privateKey != t.proofKey
    ensures TrustsOf(before[id := t], WithTrust(places, id, t, privateKey, proofKey)) ==
              TrustsOf(was, places)[id := TrustValue(t, privateKey, proofKey)]
  {
    var after := WithTrust(places, id, t, privateKey, proofKey);
    WithTrustKeeps(places, id, t, privateKey, proofKey);
    assert before[id := t] == was[id := t];
    assert SessionsPlaced(map[], places);
    hide WithTrust, BytesAt, TrustsOf, SessionsOf, TrustsPlaced;
    OtherArrays(map[], was, places, after);
    TrustPut(was, after, id, t);
  }

  /** A session row under the scope it is asked for. */
  function Rescoped(row: Row, scope: string): Row
    requires row.SessionRow?
  {
    SessionRow(scope, row.requestId, row.trustId, row.details, row.key)
  }

  predicate LoadedFrom(loaded: (Session, Persistence), row: Row, persistence: Persistence)
    reads loaded.0.key
  {
    SessionValue(loaded.0, loaded.0.key[..]) == row && loaded.1 == persistence
  }

  function ByValue(t: Trust): Row
    reads t.privateKey, t.proofKey
  {
    TrustValue(t, t.privateKey[..], t.proofKey[..])
  }

  predicate Matches(row: Row, origin: string, target: string, now: int) {
    row.TrustRow? && row.origin == origin && row.target == target && row.expiresAt > now
  }

  ghost predicate Newest(rows: map<string, Row>, k: string, origin: string, target: string, now: int) {
    && k in rows && Matches(rows[k], origin, target, now)
    && forall j :: j in rows && Matches(rows[j], origin, target, now) ==> rows[j].createdAt <= rows[k].createdAt
  }

  function TrustRowsOf(rows: map<string, Row>, scope: string): map<string, Row> {
    map k | k in rows && rows[k].TrustRow? && rows[k].scope == scope :: rows[k]
  }

  function SessionRowsOf(rows: map<string, Row>, scope: string): map<string, Row> {
    map k | k in rows && rows[k].SessionRow? && rows[k].scope == scope :: rows[k]
  }

  /** The pending commands of other scopes and other requests. */
  function Unrequested(pending: map<string, Command>, scope: string, requests: set<string>): map<string, Command> {
    map k | k in pending && !OfRequests(pending[k], scope, requests) :: pending[k]
  }

  // ---- Pending commands ----

  /** The commands that have not expired. */
  function Live(pending: map<string, Command>, now: int): map<string, Command> {
    map k | k in pending && pending[k].expiresAt > now :: pending[k]
  }

  predicate Asked(c: Command, scope: string, request: Option<string>) {
    c.scope == scope && (request.Some? ==> c.requestId == request.value)
  }

  /** The commands of a request in memory. */
  function OfRequest(pending: map<string, Command>, scope: string, requestId: string): map<string, Command> {
    map k | k in pending && Asked(pending[k], scope, Some(requestId)) :: pending[k]
  }

  function StoredCommands(rows: map<string, Row>, scope: string, request: Option<string>): map<string, Command> {
    map k | k in rows && rows[k].CommandRow? && Asked(rows[k].command, scope, request) :: rows[k].command
  }

  /** listPendingCommands: the rows, or the commands under the prefix of the scope when there are none or the database fails. */
  function ListedCommands(pending: map<string, Command>, rows: map<string, Row>, scope: string, request: Option<string>,
                          works: bool): map<string, Command>
  {
    var stored := StoredCommands(rows, scope, request);
    if works && stored != map[] then stored
    else map k | k in pending && StartsWith(k, ScopePrefix(COMMAND_PREFIX, scope)) &&
                 (request.Some? ==> pending[k].requestId == request.value) :: pending[k]
  }

  predicate Names(commands: map<string, Command>, commandId: string) {
    exists k :: k in commands && commands[k].commandId == commandId
  }

  /** Neither a replacement nor within the limits. */
  predicate Exceeds(commandId: string, mine: map<string, Command>, all: map<string, Command>) {
    && !Names(mine, commandId)
    && (|mine| >= MAX_PENDING_COMMANDS_PER_REQUEST || |all| >= MAX_PENDING_COMMANDS_TOTAL)
  }

  /** The rows of expired commands among the listed ones. */
  function ExpiredRows(commands: map<string, Command>, scope: string, now: int): set<string> {
    set k | k in commands && commands[k].expiresAt <= now :: CommandKey(scope, commands[k].requestId, commands[k].commandId)
  }

  /**
   * savePendingCommand: what it answers and what it leaves in memory and in the database. Expired commands leave
   * memory even when the new one is refused; apis tells whether the browser has a database at all, works whether
   * it answers.
   */
  function SavePending(pending: map<string, Command>, rows: map<string, Row>, c: Command, now: int, apis: bool, works: bool):
    (Saving, map<string, Command>, map<string, Row>)
  {
    if !SafeScope(c.scope) then (ScopeRefused, pending, rows)
    else
      var live := Live(pending, now);
      var id := CommandKey(c.scope, c.requestId, c.commandId);
      if Exceeds(c.commandId, OfRequest(live, c.scope, c.requestId), live) then (TooMany, live, rows)
      else if !apis then (Saved(MemoryOnly), live[id := c], rows)
      else
        var existing := ListedCommands(live, rows, c.scope, Some(c.requestId), works);
        var all := ListedCommands(live, rows, c.scope, None, works);
        if Exceeds(c.commandId, Live(existing, now), Live(all, now)) then (TooMany, live, rows)
        else if !works then (Saved(MemoryOnly), live[id := c], rows)
        else (Saved(IndexedDb), live[id := c], (rows - ExpiredRows(existing, c.scope, now))[id := CommandRow(c)])
  }

  /** The first pass over the rows of the database. */
  method StoredRequests(rows: map<string, Row>, scope: string, id: string) returns (requests: set<string>)
    ensures requests == BoundRequests(rows, scope, id)
  {
    requests := {};
    var todo := rows.Keys;
    while todo != {}
      invariant todo <= rows.Keys
      invariant requests == set k | k in BoundKeys(rows, scope, id) && k !in todo :: rows[k].requestId
    {
      var k :| k in todo;
      todo := todo - {k};
      if BoundTo(rows[k], scope, id) { requests := requests + {rows[k].requestId}; }
    }
  }

  class Store {
    var memory: map<string, Session>
    var trustMemory: map<string, Trust>
    var pendingMemory: map<string, Command>
    var database: map<string, Row>
    ghost var places: Places

    /** Every array in use holds what was put there; every other array the store ever kept is zero. */
    ghost predicate Intact()
      reads `memory, `trustMemory, `places, places.Keys
    {
      forall a :: a in places ==> if Held(memory, trustMemory, a, places[a].slot) then a[..] == places[a].bytes else Wiped(a)
    }

    ghost predicate Valid()
      reads `memory, `trustMemory, `places, places.Keys
    {
      Layout(memory, trustMemory, places) && Intact()
    }

    ghost function Sessions(): map<string, Row>
      reads `memory, `places
    {
      SessionsOf(memory, places)
    }

    ghost function Trusts(): map<string, Row>
      reads `trustMemory, `places
    {
      TrustsOf(trustMemory, places)
    }

    ghost function View(): Contents
      reads `memory, `trustMemory, `pendingMemory, `database, `places
    {
      Contents(Sessions(), Trusts(), pendingMemory, database)
    }

    ghost function Kept(): set<Key>
      reads `memory, `trustMemory
    {
      KeptOf(memory, trustMemory)
    }

    lemma PlacedNow()
      requires Valid()
      ensures SessionsPlaced(memory, places) && TrustsPlaced(trustMemory, places)
    {
    }

    lemma NothingMore()
      requires Valid()
      ensures Grew(places.Keys, places.Keys, Kept(), 0)
    {
      hide SafeScope, ValidTrustId, KeyId, TrustKey, KeptOf, Grew, SessionsPlaced, TrustsPlaced;
      KeptArePlaced(memory, trustMemory, places);
    }

    /** Every array ever kept is either kept still, with the bytes put there, or zero. */
    lemma DroppedAreWiped()
      requires Valid()
      ensures Kept() <= places.Keys
      ensures forall a :: a in places.Keys && a !in Kept() ==> Wiped(a)
    {
      hide SafeScope, ValidTrustId, KeyId, TrustKey;
    }

    constructor ()
      ensures Valid() && places == map[]
      ensures memory == map[] && trustMemory == map[] && pendingMemory == map[] && database == map[]
      ensures View() == EMPTY
    {
      memory, trustMemory, pendingMemory, database, places := map[], map[], map[], map[], map[];
    }

    /** Wipe a session's key and drop the session. */
    method DropSession(id: string)
      requires Valid() && id in memory
      modifies `memory, memory[id].key
      ensures Valid() && memory == old(memory) - {id}
    {
      SessionTaken(memory, trustMemory, places, id);
      hide Layout, Held;
      Wipe(memory[id].key);
      memory := memory - {id};
    }

    method DropTrust(id: string)
      requires Valid() && id in trustMemory
      modifies `trustMemory, trustMemory[id].privateKey, trustMemory[id].proofKey
      ensures Valid() && trustMemory == old(trustMemory) - {id}
    {
      TrustTaken(memory, trustMemory, places, id);
      hide Layout, Held;
      Wipe(trustMemory[id].privateKey);
      Wipe(trustMemory[id].proofKey);
      trustMemory := trustMemory - {id};
    }

    /** Store a record with a copy of its key. */
    method PutSession(id: string, record: Session)
      requires Valid() && id !in memory && SafeScope(record.scope) && id == KeyId(record.scope, record.requestId)
      modifies `memory, `places
      ensures Valid() && id in memory && fresh(memory[id].key)
      ensures memory == old(memory)[id := record.(key := memory[id].key)]
      ensures places == old(places)[memory[id].key := Place(SessionSlot(id), record.key[..])]
    {
      var copy := Copy(record.key);
      SessionPutLayout(memory, trustMemory, places, id, record.(key := copy), record.key[..]);
      hide Layout, SafeScope, KeyId, Held;
      memory := memory[id := record.(key := copy)];
      places := places[copy := Place(SessionSlot(id), record.key[..])];
    }

    method PutTrust(id: string, record: Trust)
      requires Valid() && id !in trustMemory && SafeScope(record.scope) && ValidTrustId(record.trustId)
      requires id == TrustKey(record.scope, record.trustId)
      requires record.privateKey !in places && record.proofKey !in places && record.privateKey != record.proofKey
      modifies `trustMemory, `places
      ensures Valid() && trustMemory == old(trustMemory)[id := record]
      ensures places == WithTrust(old(places), id, record, record.privateKey[..], record.proofKey[..])
    {
      TrustPutLayout(memory, trustMemory, places, id, record, record.privateKey[..], record.proofKey[..]);
      hide Layout, SafeScope, ValidTrustId, TrustKey, Held;
      trustMemory := trustMemory[id := record];
      places := WithTrust(places, id, record, record.privateKey[..], record.proofKey[..]);
    }

    method DropPreviousSession(id: string)
      requires Valid()
      modifies `memory, places.Keys
      ensures Valid() && memory == old(memory) - {id} && SessionsPlaced(memory, places) && TrustsPlaced(trustMemory, places)
    {
      PlacedNow();
      if id in memory {
        assert memory[id].key in places;
        DropSession(id);
        PlacedNow();
      }
    }

    /** save in memory: the previous key is wiped before the new one is copied. */
    method KeepSession(id: string, record: Session)
      requires Valid() && SafeScope(record.scope) && id == KeyId(record.scope, record.requestId) && record.key !in places
      modifies `memory, `places, places.Keys
      ensures Valid() && id in memory && fresh(memory[id].key) && places.Keys == old(places.Keys) + {memory[id].key}
      ensures Sessions() == old(Sessions())[id := SessionValue(record, record.key[..])]
      ensures Trusts() == old(Trusts())
    {
      hide SafeScope, KeyId, Intact, Layout, BytesAt, SessionsOf, TrustsOf, SessionsPlaced, TrustsPlaced;
      PlacedNow();
      ghost var was := memory;
      DropPreviousSession(id);
      ghost var before, oldPlaces := memory, places;
      PutSession(id, record);
      KeptSession(was, before, oldPlaces, id, memory[id], record.key[..]);
      OtherArrays(before, trustMemory, oldPlaces, places);
    }

    method DropIfBound(k: string, scope: string, id: string) returns (bound: bool)
      requires Valid() && k in memory
      modifies `memory, places.Keys
      ensures Valid() && bound == BoundRecord(old(memory)[k], scope, id)
      ensures memory == if bound then old(memory) - {k} else old(memory)
    {
      assert memory[k].key in places;
      bound := memory[k].scope == scope && memory[k].trustId == Some(id);
      if bound { DropSession(k); }
    }

    /** Drop the sessions of the scope bound to the trust, and tell their request ids. */
    method DropBoundSessions(scope: string, id: string) returns (requestIds: set<string>)
      requires Valid()
      modifies `memory, places.Keys
      ensures Valid()
      ensures Sessions() == old(Sessions()) - BoundKeys(old(Sessions()), scope, id)
      ensures requestIds == BoundRequests(old(Sessions()), scope, id)
    {
      hide Layout, Intact, SessionsOf, BoundKeys, BoundRequests, RequestsAt;
      requestIds := {};
      var todo := memory.Keys;
      ghost var was, gone: set<string> := memory, {};
      assert RequestsAt(was, {}) == {} by { NoRequests(was); }
      while todo != {}
        invariant Valid() && was == old(memory)
        invariant todo <= memory.Keys && memory == was - gone
        invariant gone == BoundRecordKeys(was, scope, id) - todo
        invariant requestIds == RequestsAt(was, gone)
      {
        var k :| k in todo;
        todo := todo - {k};
        var requestId := memory[k].requestId;
        var bound := DropIfBound(k, scope, id);
        if bound {
          requestIds := requestIds + {requestId};
          OneMoreRequest(was, gone, k);
          gone := gone + {k};
        }
      }
      assert gone == BoundRecordKeys(was, scope, id);
      BoundRecords(was, places, scope, id);
      Dropped(was, map[], places, gone);
    }

    method Save(record: Session, available: bool) returns (r: Result<Persistence>)
      requires Valid() && record.key !in places
      modifies this, places.Keys
      ensures Valid() && old(places.Keys) <= places.Keys && fresh(places.Keys - old(places.Keys))
      ensures Grew(old(places.Keys), places.Keys, Kept(), if r.Ok? then 1 else 0)
      ensures r == if !SafeScope(record.scope) then InvalidScope else Ok(if available then IndexedDb else MemoryOnly)
      ensures var (id, row) := (KeyId(record.scope, record.requestId), SessionValue(record, record.key[..]));
              && Sessions() == (if r.Ok? then old(Sessions())[id := row] else old(Sessions()))
              && database == (if r == Ok(IndexedDb) then old(database)[id := row] else old(database))
              && Trusts() == old(Trusts()) && pendingMemory == old(pendingMemory)
    {
      hide SafeScope, KeyId, Layout, Intact, SessionsOf, TrustsOf, KeptOf, Grew, SessionsPlaced, TrustsPlaced;
      if !SafeScope(record.scope) {
        NothingMore();
        return InvalidScope;
      }
      var id := KeyId(record.scope, record.requestId);
      KeepSession(id, record);
      PlacedNow();
      SessionIsKept(memory, trustMemory, places, old(places.Keys), id);
      r := Ok(MemoryOnly);
      if available {
        database := database[id := SessionValue(record, record.key[..])];
        r := Ok(IndexedDb);
      }
    }

    /** saveTrust: the copies are made first, then the previous keys wiped. */
    method SaveTrust(record: Trust, available: bool) returns (r: Result<Persistence>)
      requires Valid()
      modifies this, places.Keys
      ensures Valid() && old(places.Keys) <= places.Keys && fresh(places.Keys - old(places.Keys))
      ensures Grew(old(places.Keys), places.Keys, Kept(), if r.Ok? then 2 else 0)
      ensures r == if !SafeScope(record.scope) then InvalidScope else if !ValidTrustId(record.trustId) then InvalidTrustId
                   else Ok(if available then IndexedDb else MemoryOnly)
      ensures var (id, row) := (TrustKey(record.scope, record.trustId),
                                old(TrustValue(record, record.privateKey[..], record.proofKey[..])));
              && Trusts() == (if r.Ok? then old(Trusts())[id := row] else old(Trusts()))
              && database == (if r == Ok(IndexedDb) then old(database)[id := row] else old(database))
              && Sessions() == old(Sessions()) && pendingMemory == old(pendingMemory)
    {
      hide SafeScope, ValidTrustId, TrustKey, Layout, Intact, SessionsOf, TrustsOf, KeptOf, Grew, SessionsPlaced, TrustsPlaced;
      NothingMore();
      if !SafeScope(record.scope) { return InvalidScope; }
      var privateKey := Copy(record.privateKey);
      var proofKey := Copy(record.proofKey);
      if !ValidTrustId(record.trustId) { return InvalidTrustId; }
      var id := TrustKey(record.scope, record.trustId);
      KeepTrust(id, record.(privateKey := privateKey, proofKey := proofKey));
      PlacedNow();
      TrustIsKept(memory, trustMemory, places, old(places.Keys), id);
      r := Ok(MemoryOnly);
      if available {
        database := database[id := TrustValue(record, privateKey[..], proofKey[..])];
        r := Ok(IndexedDb);
      }
    }

    method KeepTrust(id: string, record: Trust)
      requires Valid() && SafeScope(record.scope) && ValidTrustId(record.trustId) && id == TrustKey(record.scope, record.trustId)
      requires record.privateKey !in places && record.proofKey !in places && record.privateKey != record.proofKey
      modifies `trustMemory, `places, places.Keys
      ensures Valid() && places.Keys == old(places.Keys) + {record.privateKey, record.proofKey}
      ensures id in trustMemory && trustMemory[id] == record
      ensures Trusts() == old(Trusts())[id := TrustValue(record, record.privateKey[..], record.proofKey[..])]
      ensures Sessions() == old(Sessions())
    {
      hide SafeScope, ValidTrustId, TrustKey, Intact;
      ghost var was := trustMemory;
      assert TrustsPlaced(was, places) && SessionsPlaced(memory, places);
      if id in trustMemory {
        assert trustMemory[id].privateKey in places && trustMemory[id].proofKey in places;
        DropTrust(id);
      }
      hide Layout;
      ghost var before, oldPlaces := trustMemory, places;
      PutTrust(id, record);
      WithTrustKeeps(oldPlaces, id, record, record.privateKey[..], record.proofKey[..]);
      hide Layout, Intact, BytesAt, WithTrust, TrustsOf, SessionsOf;
      KeptTrust(was, before, oldPlaces, id, record, record.privateKey[..], record.proofKey[..]);
      OtherArrays(memory, was, oldPlaces, places);
    }

    // ---- Reading: every array handed out is new ----

    /** A stored session as its caller gets it. */
    method CopySession(r: Session) returns (c: Session)
      ensures fresh(c.key) && c == r.(key := c.key) && c.key[..] == r.key[..]
    {
      var key := Copy(r.key);
      c := r.(key := key);
    }

    method CopyTrust(t: Trust) returns (c: Trust)
      ensures fresh(c.privateKey) && fresh(c.proofKey) && c.privateKey != c.proofKey
      ensures c == t.(privateKey := c.privateKey, proofKey := c.proofKey)
      ensures c.privateKey[..] == t.privateKey[..] && c.proofKey[..] == t.proofKey[..]
    {
      var privateKey := Copy(t.privateKey);
      var proofKey := Copy(t.proofKey);
      c := t.(privateKey := privateKey, proofKey := proofKey);
    }

    /** The database first, memory when it fails or has nothing. */
    method Load(scope: string, requestId: string, available: bool) returns (r: Result<Option<(Session, Persistence)>>)
      requires Valid()
      ensures r.InvalidScope? <==> !SafeScope(scope)
      ensures !r.InvalidTrustId?
      ensures r.Ok? ==>
                var id := KeyId(scope, requestId);
                if available && id in database && database[id].SessionRow? then
                  r.value.Some? && LoadedFrom(r.value.value, Rescoped(database[id], scope), IndexedDb)
                else if id in Sessions() then r.value.Some? && LoadedFrom(r.value.value, Sessions()[id], MemoryOnly)
                else r.value == None
      ensures r.Ok? && r.value.Some? ==> fresh(r.value.value.0.key)
    {
      hide SafeScope, KeyId, Layout;
      if !SafeScope(scope) { return InvalidScope; }
      var id := KeyId(scope, requestId);
      if available && id in database && database[id].SessionRow? {
        var row := database[id];
        var key := FromBytes(row.key);
        return Ok(Some((Session(scope, row.requestId, row.trustId, row.details, key), IndexedDb)));
      }
      if id !in memory { return Ok(None); }
      SessionBytes(id);
      var copy := CopySession(memory[id]);
      r := Ok(Some((copy, MemoryOnly)));
    }

    /** What a session in memory is by value. */
    lemma SessionBytes(id: string)
      requires Valid() && id in memory
      ensures memory[id].key in places && id in Sessions() && Sessions()[id] == SessionValue(memory[id], memory[id].key[..])
    {
      assert Held(memory, trustMemory, memory[id].key, SessionSlot(id));
    }

    lemma TrustBytes(id: string)
      requires Valid() && id in trustMemory
      ensures trustMemory[id].privateKey in places && trustMemory[id].proofKey in places && id in Trusts()
      ensures Trusts()[id] == TrustValue(trustMemory[id], trustMemory[id].privateKey[..], trustMemory[id].proofKey[..])
    {
      assert Held(memory, trustMemory, trustMemory[id].privateKey, PrivateSlot(id));
      assert Held(memory, trustMemory, trustMemory[id].proofKey, ProofSlot(id));
    }

    method LoadTrust(scope: string, id: string, available: bool) returns (r: Result<Option<Trust>>)
      requires Valid()
      ensures r.InvalidScope? <==> !SafeScope(scope)
      ensures r.InvalidTrustId? <==> SafeScope(scope) && !ValidTrustId(id)
      ensures r.Ok? ==>
                var k := TrustKey(scope, id);
                if available && k in database && database[k].TrustRow? then
                  r.value.Some? && ByValue(r.value.value) == database[k]
                else if k in Trusts() then r.value.Some? && ByValue(r.value.value) == Trusts()[k]
                else r.value == None
      ensures r.Ok? && r.value.Some? ==>
                fresh(r.value.value.privateKey) && fresh(r.value.value.proofKey)
    {
      hide SafeScope, ValidTrustId, TrustKey, Layout;
      if !SafeScope(scope) { return InvalidScope; }
      if !ValidTrustId(id) { return InvalidTrustId; }
      var k := TrustKey(scope, id);
      if available && k in database && database[k].TrustRow? {
        var t := TrustOfRow(database[k]);
        return Ok(Some(t));
      }
      if k !in trustMemory { return Ok(None); }
      TrustBytes(k);
      var copy := CopyTrust(trustMemory[k]);
      r := Ok(Some(copy));
    }

    method TrustOfRow(row: Row) returns (t: Trust)
      requires row.TrustRow?
      ensures fresh(t.privateKey) && fresh(t.proofKey) && ByValue(t) == row
    {
      var privateKey := FromBytes(row.privateKey);
      var proofKey := FromBytes(row.proofKey);
      t := Trust(row.scope, row.trust, row.origin, row.target, row.expiresAt, row.createdAt, row.details, privateKey, proofKey);
    }

    /** The trusts of a scope by value: those of the database, or those in memory when it fails or has none. */
    ghost function Candidates(scope: string, available: bool): map<string, Row>
      reads this
    {
      var stored := TrustRowsOf(database, scope);
      if available && stored != map[] then stored else TrustRowsOf(Trusts(), scope)
    }

    method CopyRows(rows: map<string, Row>) returns (found: map<string, Trust>)
      requires forall k :: k in rows ==> rows[k].TrustRow?
      ensures found.Keys == rows.Keys
      ensures forall k :: k in found ==> fresh(found[k].privateKey) && fresh(found[k].proofKey) && ByValue(found[k]) == rows[k]
    {
      found := map[];
      var todo := rows.Keys;
      while todo != {}
        invariant todo <= rows.Keys && found.Keys == rows.Keys - todo
        invariant forall k :: k in found ==> fresh(found[k].privateKey) && fresh(found[k].proofKey) && ByValue(found[k]) == rows[k]
      {
        var k :| k in todo;
        todo := todo - {k};
        var t := TrustOfRow(rows[k]);
        found := found[k := t];
      }
    }

    method CopyTrusts(keys: set<string>) returns (found: map<string, Trust>)
      requires Valid() && keys <= trustMemory.Keys
      ensures found.Keys == keys && keys <= Trusts().Keys
      ensures forall k :: k in found ==> fresh(found[k].privateKey) && fresh(found[k].proofKey) && ByValue(found[k]) == Trusts()[k]
    {
      hide Layout, Intact, TrustsOf;
      TrustKeys();
      found := map[];
      var todo := keys;
      while todo != {}
        invariant todo <= keys && found.Keys == keys - todo
        invariant forall k :: k in found ==> fresh(found[k].privateKey) && fresh(found[k].proofKey) && ByValue(found[k]) == Trusts()[k]
      {
        var k :| k in todo;
        todo := todo - {k};
        TrustBytes(k);
        var t := CopyTrust(trustMemory[k]);
        found := found[k := t];
      }
    }

    lemma TrustKeys()
      ensures Trusts().Keys == trustMemory.Keys
      ensures forall k :: k in trustMemory ==> Trusts()[k].TrustRow? && Trusts()[k].scope == trustMemory[k].scope
    {
    }

    /** listTrusts; the order of the array is not modelled. */
    method ListTrusts(scope: string, available: bool) returns (r: Result<map<string, Trust>>)
      requires Valid()
      ensures r.InvalidScope? <==> !SafeScope(scope)
      ensures !r.InvalidTrustId?
      ensures r.Ok? ==> r.value.Keys == Candidates(scope, available).Keys
      ensures r.Ok? ==> forall k :: k in r.value ==> ByValue(r.value[k]) == Candidates(scope, available)[k]
      ensures r.Ok? ==> forall k :: k in r.value ==> fresh(r.value[k].privateKey) && fresh(r.value[k].proofKey)
    {
      hide SafeScope, Layout, Intact, TrustsOf;
      if !SafeScope(scope) { return InvalidScope; }
      var stored := TrustRowsOf(database, scope);
      var found;
      if available && stored != map[] {
        found := CopyRows(stored);
      } else {
        TrustKeys();
        found := CopyTrusts(set k | k in trustMemory && trustMemory[k].scope == scope);
      }
      r := Ok(found);
    }

    /** The filter and the sort of findTrust. */
    method PickNewest(records: map<string, Trust>, ghost rows: map<string, Row>, origin: string, target: string, now: int)
      returns (best: Option<string>)
      requires records.Keys == rows.Keys && forall k :: k in records ==> ByValue(records[k]) == rows[k]
      ensures best == None ==> forall k :: k in rows ==> !Matches(rows[k], origin, target, now)
      ensures best.Some? ==> Newest(rows, best.value, origin, target, now)
    {
      best := None;
      var todo := records.Keys;
      while todo != {}
        invariant todo <= records.Keys
        invariant best == None ==> forall k :: k in records && k !in todo ==> !Matches(rows[k], origin, target, now)
        invariant best.Some? ==> best.value in records && Matches(rows[best.value], origin, target, now)
        invariant best.Some? ==> forall k :: k in records && k !in todo && Matches(rows[k], origin, target, now) ==>
          rows[k].createdAt <= rows[best.value].createdAt
      {
        var k :| k in todo;
        todo := todo - {k};
        var t := records[k];
        assert ByValue(t) == rows[k];
        if t.origin == origin && t.target == target && t.expiresAt > now &&
           (best == None || t.createdAt > records[best.value].createdAt) {
          best := Some(k);
        }
      }
    }

    /** findTrust: a copy of the newest matching trust that has not expired; ties are not told apart. */
    method FindTrust(scope: string, origin: string, target: string, now: int, available: bool) returns (r: Result<Option<Trust>>)
      requires Valid()
      ensures r.InvalidScope? <==> !SafeScope(scope)
      ensures !r.InvalidTrustId?
      ensures r.Ok? && r.value == None ==> forall k :: k in Candidates(scope, available) ==> !Matches(Candidates(scope, available)[k], origin, target, now)
      ensures r.Ok? && r.value.Some? ==>
                && fresh(r.value.value.privateKey) && fresh(r.value.value.proofKey)
                && exists k :: k in Candidates(scope, available) && ByValue(r.value.value) == Candidates(scope, available)[k] &&
                     Newest(Candidates(scope, available), k, origin, target, now)
    {
      hide SafeScope, Layout, Intact, TrustsOf, Candidates, TrustRowsOf, Newest;
      var listed := ListTrusts(scope, available);
      if !listed.Ok? { return InvalidScope; }
      ghost var rows := Candidates(scope, available);
      var best := PickNewest(listed.value, rows, origin, target, now);
      if best == None { return Ok(None); }
      var copy := CopyTrust(listed.value[best.value]);
      assert ByValue(copy) == rows[best.value] && rows == Candidates(scope, available);
      r := Ok(Some(copy));
    }

    /** The sessions list() looks at, by value. */
    ghost function Listed(scope: string, available: bool): map<string, Row>
      reads this
    {
      var stored := SessionRowsOf(database, scope);
      if available && stored != map[] then stored
      else map k | k in Sessions() && StartsWith(k, ScopePrefix(KEY_PREFIX, scope)) :: Sessions()[k]
    }

    /** list; the order of the array is not modelled. */
    method List(scope: string, available: bool) returns (r: Result<map<string, Session>>)
      requires Valid()
      ensures r.InvalidScope? <==> !SafeScope(scope)
      ensures !r.InvalidTrustId?
      ensures r.Ok? ==> r.value.Keys == Listed(scope, available).Keys
      ensures r.Ok? ==> forall k :: k in r.value ==>
                fresh(r.value[k].key) && SessionValue(r.value[k], r.value[k].key[..]) == Listed(scope, available)[k]
    {
      hide SafeScope, Layout, Intact, SessionsOf, ScopePrefix, StartsWith;
      if !SafeScope(scope) { return InvalidScope; }
      var stored := SessionRowsOf(database, scope);
      var found: map<string, Session> := map[];
      if available && stored != map[] {
        var todo := stored.Keys;
        while todo != {}
          invariant todo <= stored.Keys && found.Keys == stored.Keys - todo
          invariant forall k :: k in found ==> fresh(found[k].key) && SessionValue(found[k], found[k].key[..]) == stored[k]
        {
          var k :| k in todo;
          todo := todo - {k};
          var key := FromBytes(stored[k].key);
          found := found[k := Session(scope, stored[k].requestId, stored[k].trustId, stored[k].details, key)];
        }
      } else {
        var keys := Prefixed(memory.Keys, ScopePrefix(KEY_PREFIX, scope));
        SessionKeys();
        found := CopySessions(keys);
      }
      r := Ok(found);
    }

    method CopySessions(keys: set<string>) returns (found: map<string, Session>)
      requires Valid() && keys <= memory.Keys
      ensures found.Keys == keys && keys <= Sessions().Keys
      ensures forall k :: k in found ==> fresh(found[k].key) && SessionValue(found[k], found[k].key[..]) == Sessions()[k]
    {
      hide Layout, Intact, SessionsOf;
      SessionKeys();
      found := map[];
      var todo := keys;
      while todo != {}
        invariant todo <= keys && found.Keys == keys - todo
        invariant forall k :: k in found ==> fresh(found[k].key) && SessionValue(found[k], found[k].key[..]) == Sessions()[k]
      {
        var k :| k in todo;
        todo := todo - {k};
        SessionBytes(k);
        var c := CopySession(memory[k]);
        found := found[k := c];
      }
    }

    lemma SessionKeys()
      ensures Sessions().Keys == memory.Keys
    {
    }

    // ---- Removing ----

    method Remove(scope: string, requestId: string, available: bool) returns (r: Result<()>)
      requires Valid()
      modifies this, places.Keys
      ensures Valid() && places == old(places)
      ensures r == if SafeScope(scope) then Ok(()) else InvalidScope
      ensures Sessions() == if r.Ok? then old(Sessions()) - {KeyId(scope, requestId)} else old(Sessions())
      ensures database == if r.Ok? && available then old(database) - {KeyId(scope, requestId)} else old(database)
      ensures Trusts() == old(Trusts()) && pendingMemory == old(pendingMemory)
    {
      hide SafeScope, KeyId, Layout, Intact, SessionsOf, TrustsOf;
      if !SafeScope(scope) { return InvalidScope; }
      var id := KeyId(scope, requestId);
      Dropped(memory, map[], places, {id});
      if id in memory {
        SessionBytes(id);
        DropSession(id);
      } else {
        assert memory - {id} == memory;
      }
      if available { database := database - {id}; }
      r := Ok(());
    }

    /** The trust, the sessions bound to it and, of those sessions, the pending commands; nothing else. */
    method RemoveTrust(scope: string, id: string, available: bool) returns (r: Result<()>)
      requires Valid()
      modifies this, places.Keys
      ensures Valid() && places == old(places)
      ensures r == if !SafeScope(scope) then InvalidScope else if !ValidTrustId(id) then InvalidTrustId else Ok(())
      ensures !r.Ok? ==> Sessions() == old(Sessions()) && Trusts() == old(Trusts())
      ensures !r.Ok? ==> pendingMemory == old(pendingMemory) && database == old(database)
      ensures r.Ok? ==>
                && Trusts() == old(Trusts()) - {TrustKey(scope, id)}
                && Sessions() == old(Sessions()) - BoundKeys(old(Sessions()), scope, id)
                && pendingMemory == Unrequested(old(pendingMemory), scope, BoundRequests(old(Sessions()), scope, id))
      ensures r.Ok? ==>
                database == if available
                            then old(database) - DoomedKeys(old(database), scope, id,
                                   BoundRequests(old(Sessions()), scope, id) + BoundRequests(old(database), scope, id))
                            else old(database)
    {
      hide SafeScope, ValidTrustId, TrustKey, Layout, Intact, SessionsOf, TrustsOf, BoundKeys, BoundRequests;
      if !SafeScope(scope) { return InvalidScope; }
      if !ValidTrustId(id) { return InvalidTrustId; }
      var key := TrustKey(scope, id);
      Dropped(map[], trustMemory, places, {key});
      if key in trustMemory {
        TrustBytes(key);
        DropTrust(key);
      } else {
        assert trustMemory - {key} == trustMemory;
      }
      var requestIds := DropBoundSessions(scope, id);
      pendingMemory := Unrequested(pendingMemory, scope, requestIds);
      if available {
        var stored := StoredRequests(database, scope, id);
        requestIds := requestIds + stored;
        database := database - DoomedKeys(database, scope, id, requestIds);
      }
      r := Ok(());
    }

    /** clearMemory, and the part of clearAccount in memory. */
    method ClearMemory(scope: string) returns (r: Result<()>)
      requires Valid()
      modifies this, places.Keys
      ensures Valid() && places == old(places) && database == old(database)
      ensures r == if SafeScope(scope) then Ok(()) else InvalidScope
      ensures !r.Ok? ==> Sessions() == old(Sessions()) && Trusts() == old(Trusts()) && pendingMemory == old(pendingMemory)
      ensures r.Ok? ==>
                && Sessions() == old(Sessions()) - Prefixed(old(Sessions()).Keys, ScopePrefix(KEY_PREFIX, scope))
                && Trusts() == old(Trusts()) - Prefixed(old(Trusts()).Keys, ScopePrefix(TRUST_PREFIX, scope))
                && pendingMemory == old(pendingMemory) - Prefixed(old(pendingMemory).Keys, ScopePrefix(COMMAND_PREFIX, scope))
    {
      hide SafeScope, Layout, Intact, SessionsOf, TrustsOf, ScopePrefix, Prefixed;
      if !SafeScope(scope) { return InvalidScope; }
      SessionKeys();
      TrustKeys();
      var sessions := Prefixed(memory.Keys, ScopePrefix(KEY_PREFIX, scope));
      var trusts := Prefixed(trustMemory.Keys, ScopePrefix(TRUST_PREFIX, scope));
      Dropped(memory, trustMemory, places, sessions);
      Dropped(memory, trustMemory, places, trusts);
      DropSessions(sessions);
      DropTrusts(trusts);
      pendingMemory := pendingMemory - Prefixed(pendingMemory.Keys, ScopePrefix(COMMAND_PREFIX, scope));
      r := Ok(());
    }

    method DropSessions(ids: set<string>)
      requires Valid()
      modifies `memory, places.Keys
      ensures Valid() && memory == old(memory) - ids
    {
      hide Layout, Intact, SessionsOf;
      var todo := ids;
      while todo != {}
        invariant Valid() && todo <= ids && memory == old(memory) - (ids - todo)
      {
        var k :| k in todo;
        todo := todo - {k};
        if k in memory {
          SessionBytes(k);
          DropSession(k);
        }
      }
    }

    method DropTrusts(ids: set<string>)
      requires Valid()
      modifies `trustMemory, places.Keys
      ensures Valid() && trustMemory == old(trustMemory) - ids
    {
      hide Layout, Intact, TrustsOf;
      var todo := ids;
      while todo != {}
        invariant Valid() && todo <= ids && trustMemory == old(trustMemory) - (ids - todo)
      {
        var k :| k in todo;
        todo := todo - {k};
        if k in trustMemory {
          TrustBytes(k);
          DropTrust(k);
        }
      }
    }

    method ClearAccount(scope: string, available: bool) returns (r: Result<()>)
      requires Valid()
      modifies this, places.Keys
      ensures Valid() && places == old(places)
      ensures r == if SafeScope(scope) then Ok(()) else InvalidScope
      ensures !r.Ok? ==> Sessions() == old(Sessions()) && Trusts() == old(Trusts()) && pendingMemory == old(pendingMemory)
      ensures r.Ok? ==>
                && Sessions() == old(Sessions()) - Prefixed(old(Sessions()).Keys, ScopePrefix(KEY_PREFIX, scope))
                && Trusts() == old(Trusts()) - Prefixed(old(Trusts()).Keys, ScopePrefix(TRUST_PREFIX, scope))
                && pendingMemory == old(pendingMemory) - Prefixed(old(pendingMemory).Keys, ScopePrefix(COMMAND_PREFIX, scope))
      ensures database == if r.Ok? && available then old(database) - (set k | k in old(database) && InScope(old(database)[k], scope))
                          else old(database)
    {
      hide SafeScope, Layout, Intact, SessionsOf, TrustsOf, ScopePrefix, Prefixed;
      r := ClearMemory(scope);
      if r.Ok? && available {
        database := database - set k | k in database && InScope(database[k], scope);
      }
    }

    /** clearSessionMemory: the sessions and the pending commands of the scope, not its trusts. */
    method ClearSessionMemory(scope: string) returns (r: Result<()>)
      requires Valid()
      modifies `memory, `pendingMemory, places.Keys
      ensures Valid()
      ensures r == if SafeScope(scope) then Ok(()) else InvalidScope
      ensures Trusts() == old(Trusts())
      ensures !r.Ok? ==> Sessions() == old(Sessions()) && pendingMemory == old(pendingMemory)
      ensures r.Ok? ==>
                && Sessions() == old(Sessions()) - Prefixed(old(Sessions()).Keys, ScopePrefix(KEY_PREFIX, scope))
                && pendingMemory == old(pendingMemory) - Prefixed(old(pendingMemory).Keys, ScopePrefix(COMMAND_PREFIX, scope))
    {
      hide SafeScope, Layout, Intact, SessionsOf, TrustsOf, ScopePrefix, Prefixed;
      if !SafeScope(scope) { return InvalidScope; }
      SessionKeys();
      var sessions := Prefixed(memory.Keys, ScopePrefix(KEY_PREFIX, scope));
      Dropped(memory, trustMemory, places, sessions);
      DropSessions(sessions);
      pendingMemory := pendingMemory - Prefixed(pendingMemory.Keys, ScopePrefix(COMMAND_PREFIX, scope));
      r := Ok(());
    }

    // ---- Pending commands ----

    method DropExpired(now: int)
      modifies `pendingMemory
      ensures pendingMemory == Live(old(pendingMemory), now)
    {
      var todo := pendingMemory.Keys;
      while todo != {}
        invariant todo <= old(pendingMemory).Keys
        invariant pendingMemory ==
                  map k | k in old(pendingMemory) && (k in todo || old(pendingMemory)[k].expiresAt > now) :: old(pendingMemory)[k]
      {
        var id :| id in todo;
        todo := todo - {id};
        if pendingMemory[id].expiresAt <= now { pendingMemory := pendingMemory - {id}; }
      }
    }

    method RemoveExpiredRows(existing: map<string, Command>, scope: string, now: int)
      modifies `database
      ensures database == old(database) - ExpiredRows(existing, scope, now)
    {
      hide CommandKey;
      var todo := existing.Keys;
      ghost var gone: set<string> := {};
      while todo != {}
        invariant todo <= existing.Keys && database == old(database) - gone
        invariant gone == set k | k in existing && k !in todo && existing[k].expiresAt <= now ::
                            CommandKey(scope, existing[k].requestId, existing[k].commandId)
      {
        var k :| k in todo;
        todo := todo - {k};
        if existing[k].expiresAt <= now {
          var id := CommandKey(scope, existing[k].requestId, existing[k].commandId);
          database := database - {id};
          gone := gone + {id};
        }
      }
    }

    method SavePendingCommand(command: Command, now: int, apis: bool, works: bool) returns (r: Saving)
      modifies `pendingMemory, `database
      ensures (r, pendingMemory, database) == SavePending(old(pendingMemory), old(database), command, now, apis, works)
    {
      hide SafeScope, CommandKey, Live, OfRequest, ListedCommands, Exceeds, ExpiredRows;
      if !SafeScope(command.scope) { return ScopeRefused; }
      DropExpired(now);
      var id := CommandKey(command.scope, command.requestId, command.commandId);
      if Exceeds(command.commandId, OfRequest(pendingMemory, command.scope, command.requestId), pendingMemory) { return TooMany; }
      if apis {
        var existing := ListedCommands(pendingMemory, database, command.scope, Some(command.requestId), works);
        var allExisting := ListedCommands(pendingMemory, database, command.scope, None, works);
        if Exceeds(command.commandId, Live(existing, now), Live(allExisting, now)) { return TooMany; }
        if works {
          RemoveExpiredRows(existing, command.scope, now);
          database := database[id := CommandRow(command)];
          pendingMemory := pendingMemory[id := command];
          return Saved(IndexedDb);
        }
      }
      pendingMemory := pendingMemory[id := command];
      r := Saved(MemoryOnly);
    }

    method RemovePendingCommand(scope: string, requestId: string, commandId: string, available: bool) returns (r: Result<()>)
      modifies `pendingMemory, `database
      ensures r == if SafeScope(scope) then Ok(()) else InvalidScope
      ensures var id := CommandKey(scope, requestId, commandId);
              && pendingMemory == (if r.Ok? then old(pendingMemory) - {id} else old(pendingMemory))
              && database == (if r.Ok? && available then old(database) - {id} else old(database))
    {
      hide SafeScope, CommandKey;
      if !SafeScope(scope) { return InvalidScope; }
      pendingMemory := pendingMemory - {CommandKey(scope, requestId, commandId)};
      if available { database := database - {CommandKey(scope, requestId, commandId)}; }
      r := Ok(());
    }
  }

  // ---- The limits ----

  ghost predicate Keyed(pending: map<string, Command>) {
    forall k :: k in pending ==> k == CommandKey(pending[k].scope, pending[k].requestId, pending[k].commandId)
  }

  ghost predicate PerRequest(pending: map<string, Command>) {
    forall s, r :: |OfRequest(pending, s, r)| <= MAX_PENDING_COMMANDS_PER_REQUEST
  }

  /** The commands of the database, whatever their scope. */
  function Commands(rows: map<string, Row>): map<string, Command> {
    map k | k in rows && rows[k].CommandRow? :: rows[k].command
  }

  /** At most 64 commands of a request in memory and as many in the database, at most 256 in memory. */
  ghost predicate Capped(pending: map<string, Command>, rows: map<string, Row>) {
    && Keyed(pending) && PerRequest(pending) && |pending| <= MAX_PENDING_COMMANDS_TOTAL
    && Keyed(Commands(rows)) && PerRequest(Commands(rows))
  }

  ghost predicate Within(small: map<string, Command>, big: map<string, Command>) {
    forall k :: k in small ==> k in big && small[k] == big[k]
  }

  lemma SmallerCard(small: map<string, Command>, big: map<string, Command>)
    requires Within(small, big)
    ensures |small| <= |big|
  {
    assert small.Keys <= big.Keys;
    CardSubset(small.Keys, big.Keys);
  }

  lemma SmallerKeeps(small: map<string, Command>, big: map<string, Command>)
    requires Within(small, big) && Keyed(big) && PerRequest(big)
    ensures Keyed(small) && PerRequest(small) && |small| <= |big|
  {
    SmallerCard(small, big);
    forall s, r
      ensures |OfRequest(small, s, r)| <= MAX_PENDING_COMMANDS_PER_REQUEST
    {
      SmallerCard(OfRequest(small, s, r), OfRequest(big, s, r));
    }
  }

  /** Adding one command keeps the limit of its request when it replaces one, or when there is room. */
  lemma AddedKeeps(live: map<string, Command>, c: Command)
    requires Keyed(live) && PerRequest(live)
    requires var mine := OfRequest(live, c.scope, c.requestId);
             Names(mine, c.commandId) || |mine| < MAX_PENDING_COMMANDS_PER_REQUEST
    ensures var after := live[CommandKey(c.scope, c.requestId, c.commandId) := c];
            && Keyed(after) && PerRequest(after)
            && |after| <= |live| + (if Names(OfRequest(live, c.scope, c.requestId), c.commandId) then 0 else 1)
  {
    var id := CommandKey(c.scope, c.requestId, c.commandId);
    NamedIsThere(live, c);
    hide CommandKey, PerRequest, Names, OfRequest;
    AddedSize(live, id, c);
    AddedPerRequest(live, id, c);
  }

  /** In a keyed map the key of a named command is there. */
  lemma NamedIsThere(live: map<string, Command>, c: Command)
    requires Keyed(live)
    ensures var mine, id := OfRequest(live, c.scope, c.requestId), CommandKey(c.scope, c.requestId, c.commandId);
            Names(mine, c.commandId) ==> id in mine && id in live
  {
    hide CommandKey;
  }

  lemma AddedSize(live: map<string, Command>, id: string, c: Command)
    ensures |live[id := c]| == |live| + if id in live then 0 else 1
  {
    assert live[id := c].Keys == live.Keys + {id};
    CardAdd(live.Keys, id);
  }

  lemma AddedPerRequest(live: map<string, Command>, id: string, c: Command)
    requires PerRequest(live)
    requires var mine := OfRequest(live, c.scope, c.requestId); id in mine || |mine| < MAX_PENDING_COMMANDS_PER_REQUEST
    ensures PerRequest(live[id := c])
  {
    hide OfRequest;
    var after := live[id := c];
    forall s, r
      ensures |OfRequest(after, s, r)| <= MAX_PENDING_COMMANDS_PER_REQUEST
    {
      if s == c.scope && r == c.requestId {
        AddedToOwn(live, id, c);
        AddedSize(OfRequest(live, s, r), id, c);
      } else {
        AddedToOther(live, id, c, s, r);
        SmallerCard(OfRequest(after, s, r), OfRequest(live, s, r));
      }
    }
  }

  lemma AddedToOwn(live: map<string, Command>, id: string, c: Command)
    ensures OfRequest(live[id := c], c.scope, c.requestId) == OfRequest(live, c.scope, c.requestId)[id := c]
  {
  }

  lemma AddedToOther(live: map<string, Command>, id: string, c: Command, s: string, r: string)
    requires s != c.scope || r != c.requestId
    ensures Within(OfRequest(live[id := c], s, r), OfRequest(live, s, r))
  {
  }

  lemma CardAdd(s: set<string>, x: string)
    ensures |s + {x}| == |s| + if x in s then 0 else 1
  {
    if x in s { assert s + {x} == s; }
  }

  /** Saving a pending command keeps every limit, in memory and in the database. */
  lemma SavePendingKeepsCaps(pending: map<string, Command>, rows: map<string, Row>, c: Command, now: int, apis: bool, works: bool)
    requires Capped(pending, rows)
    ensures var (_, after, stored) := SavePending(pending, rows, c, now, apis, works); Capped(after, stored)
  {
    var live := Live(pending, now);
    LiveIsWithin(pending, now);
    hide ListedCommands, StoredCommands, Live, Keyed, PerRequest, Names, OfRequest, CommandKey, SafeScope, ExpiredRows, Commands,
         Within;
    SmallerKeeps(live, pending);
    var r := SavePending(pending, rows, c, now, apis, works).0;
    if r.Saved? {
      AddedKeeps(live, c);
      if r.persistence == IndexedDb {
        ListedAreStored(live, rows, c.scope, Some(c.requestId));
        StoredKeeps(rows, c, ListedCommands(live, rows, c.scope, Some(c.requestId), works), now);
      }
    }
  }

  lemma LiveIsWithin(pending: map<string, Command>, now: int)
    ensures Within(Live(pending, now), pending)
  {
  }

  lemma ListedAreStored(pending: map<string, Command>, rows: map<string, Row>, scope: string, request: Option<string>)
    ensures var stored := StoredCommands(rows, scope, request);
            stored == map[] || ListedCommands(pending, rows, scope, request, true) == stored
  {
  }

  lemma StoredKeeps(rows: map<string, Row>, c: Command, existing: map<string, Command>, now: int)
    requires Keyed(Commands(rows)) && PerRequest(Commands(rows))
    requires var stored := StoredCommands(rows, c.scope, Some(c.requestId)); stored == map[] || existing == stored
    requires Names(Live(existing, now), c.commandId) || |Live(existing, now)| < MAX_PENDING_COMMANDS_PER_REQUEST
    ensures var after := (rows - ExpiredRows(existing, c.scope, now))[CommandKey(c.scope, c.requestId, c.commandId) := CommandRow(c)];
            Keyed(Commands(after)) && PerRequest(Commands(after))
  {
    var left := rows - ExpiredRows(existing, c.scope, now);
    KeptAreLive(rows, c, existing, now);
    FewerRows(rows, ExpiredRows(existing, c.scope, now));
    hide CommandKey, Keyed, PerRequest, Names, OfRequest, StoredCommands, Live, ExpiredRows, Commands;
    SmallerKeeps(Commands(left), Commands(rows));
    AddedKeeps(Commands(left), c);
    OneMoreRow(left, CommandKey(c.scope, c.requestId, c.commandId), c);
  }

  lemma FewerRows(rows: map<string, Row>, gone: set<string>)
    ensures Within(Commands(rows - gone), Commands(rows))
  {
  }

  lemma OneMoreRow(rows: map<string, Row>, id: string, c: Command)
    ensures Commands(rows[id := CommandRow(c)]) == Commands(rows)[id := c]
  {
  }

  /**
   * Nothing unresolved is evicted: saving a command, accepted or refused, loses no unexpired command but the one
   * it replaces, in memory or in the database, nor any other row; and what is accepted is kept.
   */
  lemma NothingEvicted(pending: map<string, Command>, rows: map<string, Row>, c: Command, now: int, apis: bool, works: bool,
                       k: string)
    requires Keyed(Commands(rows)) && k != CommandKey(c.scope, c.requestId, c.commandId)
    ensures var (_, after, _) := SavePending(pending, rows, c, now, apis, works);
            k in pending && pending[k].expiresAt > now ==> k in after && after[k] == pending[k]
    ensures var (_, _, stored) := SavePending(pending, rows, c, now, apis, works);
            k in rows && (rows[k].CommandRow? ==> rows[k].command.expiresAt > now) ==> k in stored && stored[k] == rows[k]
    ensures var (r, after, stored) := SavePending(pending, rows, c, now, apis, works);
            var id := CommandKey(c.scope, c.requestId, c.commandId);
            && (r.Saved? ==> id in after && after[id] == c)
            && (r == Saved(IndexedDb) ==> id in stored && stored[id] == CommandRow(c))
  {
    var live := Live(pending, now);
    assert k in pending && pending[k].expiresAt > now ==> k in live;
    if k in rows && (rows[k].CommandRow? ==> rows[k].command.expiresAt > now) {
      OnlyExpiredRows(live, rows, c, now, works, k);
    }
    hide CommandKey, SafeScope, Exceeds, ListedCommands, OfRequest, ExpiredRows, Live;
  }

  /** The rows deleted are those of expired commands. */
  lemma OnlyExpiredRows(live: map<string, Command>, rows: map<string, Row>, c: Command, now: int, works: bool, k: string)
    requires Keyed(Commands(rows)) && forall j :: j in live ==> live[j].expiresAt > now
    requires k in rows && (rows[k].CommandRow? ==> rows[k].command.expiresAt > now)
    ensures k !in ExpiredRows(ListedCommands(live, rows, c.scope, Some(c.requestId), works), c.scope, now)
  {
    hide CommandKey, StartsWith, ScopePrefix;
    var listed := ListedCommands(live, rows, c.scope, Some(c.requestId), works);
    forall j | j in listed && listed[j].expiresAt <= now
      ensures j in rows && rows[j] == CommandRow(listed[j]) && CommandKey(c.scope, listed[j].requestId, listed[j].commandId) == j
    {
      assert j in Commands(rows);
    }
  }

  /** Once the expired rows are gone, the rows of the request are the live ones among those listed. */
  lemma KeptAreLive(rows: map<string, Row>, c: Command, existing: map<string, Command>, now: int)
    requires Keyed(Commands(rows))
    requires var stored := StoredCommands(rows, c.scope, Some(c.requestId)); stored == map[] || existing == stored
    ensures var mine := OfRequest(Commands(rows - ExpiredRows(existing, c.scope, now)), c.scope, c.requestId);
            mine == map[] || mine == Live(existing, now)
  {
    var mine := OfRequest(Commands(rows - ExpiredRows(existing, c.scope, now)), c.scope, c.requestId);
    var stored := StoredCommands(rows, c.scope, Some(c.requestId));
    hide CommandKey;
    assert forall k :: k in mine ==> k in stored;
    assert forall k :: k in stored ==> k in Commands(rows) && stored[k] == Commands(rows)[k];
  }

  // ---- Any sequence of calls ----

  /** The arrays of a caller are numbered; a call names the ones it passes, a read adds the ones it returns. */
  datatype Call =
    | MakeKey(content: seq<Byte>)
    | Scribble(i: nat, byte: Byte)                // the caller overwrites an array it has
    | CallLoad(scope: string, requestId: string)
    | CallLoadTrust(scope: string, id: string)
    | CallFindTrust(scope: string, origin: string, target: string, now: int)
    | CallList(scope: string)
    | CallListTrusts(scope: string)
    | CallSave(scope: string, requestId: string, trustId: Option<string>, details: string, i: nat)
    | CallSaveTrust(scope: string, id: string, origin: string, target: string, expiresAt: int, createdAt: int,
                    details: string, i: nat, j: nat)
    | CallSavePending(command: Command, now: int, apis: bool)
    | CallRemove(scope: string, requestId: string)
    | CallRemoveTrust(scope: string, id: string)
    | CallRemovePending(scope: string, requestId: string, commandId: string)
    | CallClearMemory(scope: string)
    | CallClearSessionMemory(scope: string)
    | CallClearAccount(scope: string)

  predicate ByCaller(call: Call) {
    call.MakeKey? || call.Scribble?
  }

  predicate Reads(call: Call) {
    call.CallLoad? || call.CallLoadTrust? || call.CallFindTrust? || call.CallList? || call.CallListTrusts?
  }

  /** Without the sessions and the pending commands of a scope. */
  function ForgetSessions(c: Contents, scope: string): Contents {
    c.(sessions := c.sessions - Prefixed(c.sessions.Keys, ScopePrefix(KEY_PREFIX, scope)),
       pending := c.pending - Prefixed(c.pending.Keys, ScopePrefix(COMMAND_PREFIX, scope)))
  }

  function ForgetScope(c: Contents, scope: string): Contents {
    ForgetSessions(c, scope).(trusts := c.trusts - Prefixed(c.trusts.Keys, ScopePrefix(TRUST_PREFIX, scope)))
  }

  function PutSessionRow(c: Contents, row: Row, works: bool): Contents
    requires row.SessionRow?
  {
    var id := KeyId(row.scope, row.requestId);
    c.(sessions := c.sessions[id := row], database := if works then c.database[id := row] else c.database)
  }

  function PutTrustRow(c: Contents, row: Row, works: bool): Contents
    requires row.TrustRow?
  {
    var id := TrustKey(row.scope, row.trust);
    c.(trusts := c.trusts[id := row], database := if works then c.database[id := row] else c.database)
  }

  function WithoutSession(c: Contents, scope: string, requestId: string, works: bool): Contents {
    var id := KeyId(scope, requestId);
    c.(sessions := c.sessions - {id}, database := if works then c.database - {id} else c.database)
  }

  function WithoutTrust(c: Contents, scope: string, id: string, works: bool): Contents {
    var requests := BoundRequests(c.sessions, scope, id);
    Contents(c.sessions - BoundKeys(c.sessions, scope, id), c.trusts - {TrustKey(scope, id)},
             Unrequested(c.pending, scope, requests),
             if works then c.database - DoomedKeys(c.database, scope, id, requests + BoundRequests(c.database, scope, id))
             else c.database)
  }

  function WithoutCommand(c: Contents, scope: string, requestId: string, commandId: string, works: bool): Contents {
    var id := CommandKey(scope, requestId, commandId);
    c.(pending := c.pending - {id}, database := if works then c.database - {id} else c.database)
  }

  function WithPending(c: Contents, command: Command, now: int, apis: bool, works: bool): Contents {
    var (_, pending, database) := SavePending(c.pending, c.database, command, now, apis, works);
    c.(pending := pending, database := database)
  }

  /**
   * What one call makes of the contents, given the bytes in the caller's arrays at that time and whether the
   * database works. What a caller does to its own arrays and every read leave the contents alone.
   */
  function Apply(c: Contents, call: Call, keys: seq<seq<Byte>>, works: bool): Contents {
    match call
    case CallSave(scope, requestId, trustId, details, i) =>
      if i < |keys| && SafeScope(scope) then PutSessionRow(c, SessionRow(scope, requestId, trustId, details, keys[i]), works) else c
    case CallSaveTrust(scope, id, origin, target, expiresAt, createdAt, details, i, j) =>
      if i < |keys| && j < |keys| && SafeScope(scope) && ValidTrustId(id) then
        PutTrustRow(c, TrustRow(scope, id, origin, target, expiresAt, createdAt, details, keys[i], keys[j]), works)
      else c
    case CallSavePending(command, now, apis) => WithPending(c, command, now, apis || works, works)
    case CallRemove(scope, requestId) => if SafeScope(scope) then WithoutSession(c, scope, requestId, works) else c
    case CallRemoveTrust(scope, id) => if SafeScope(scope) && ValidTrustId(id) then WithoutTrust(c, scope, id, works) else c
    case CallRemovePending(scope, requestId, commandId) =>
      if SafeScope(scope) then WithoutCommand(c, scope, requestId, commandId, works) else c
    case CallClearMemory(scope) => if SafeScope(scope) then ForgetScope(c, scope) else c
    case CallClearSessionMemory(scope) => if SafeScope(scope) then ForgetSessions(c, scope) else c
    case CallClearAccount(scope) =>
      if SafeScope(scope) then
        ForgetScope(c, scope).(database := if works then c.database - (set k | k in c.database && InScope(c.database[k], scope))
                                           else c.database)
      else c
    case _ => c
  }

  /** One call with its circumstances: the bytes in the caller's arrays, and whether the database works. */
  datatype Entry = Entry(call: Call, keys: seq<seq<Byte>>, works: bool)

  function ApplyAll(entries: seq<Entry>): Contents {
    if entries == [] then EMPTY
    else
      var last := entries[|entries| - 1];
      Apply(ApplyAll(entries[..|entries| - 1]), last.call, last.keys, last.works)
  }

  /** How many arrays a call makes the store keep: one for a session it accepts, two for a trust. */
  function CopiesOf(call: Call, handles: nat): nat {
    match call
    case CallSave(scope, _, _, _, i) => if i < handles && SafeScope(scope) then 1 else 0
    case CallSaveTrust(scope, id, _, _, _, _, _, i, j) =>
      if i < handles && j < handles && SafeScope(scope) && ValidTrustId(id) then 2 else 0
    case _ => 0
  }

  function Copies(entries: seq<Entry>): nat {
    if entries == [] then 0
    else
      var last := entries[|entries| - 1];
      Copies(entries[..|entries| - 1]) + CopiesOf(last.call, |last.keys|)
  }

  function BytesOf(handles: seq<Key>): seq<seq<Byte>>
    reads handles
  {
    seq(|handles|, i requires 0 <= i < |handles| reads handles => handles[i][..])
  }

  /** What a caller can do to the bytes it holds. */
  method Fill(a: Key, byte: Byte)
    modifies a
    ensures forall i :: 0 <= i < a.Length ==> a[i] == byte
  {
    for i := 0 to a.Length
      invariant forall j :: 0 <= j < i ==> a[j] == byte
    {
      a[i] := byte;
    }
  }

  /** The calls and the state of the database as they were given. */
  ghost predicate Traces(entries: seq<Entry>, calls: seq<Call>, works: seq<bool>) {
    |entries| <= |calls| && |entries| <= |works| &&
    forall n :: 0 <= n < |entries| ==> entries[n].call == calls[n] && entries[n].works == works[n]
  }

  lemma NothingTraced(calls: seq<Call>, works: seq<bool>)
    ensures Traces([], calls, works)
  {
  }

  lemma TracesOneMore(entries: seq<Entry>, more: seq<Entry>, calls: seq<Call>, works: seq<bool>)
    requires Traces(entries, calls, works) && |entries| < |calls| && |entries| < |works|
    requires |more| == |entries| + 1 && more[..|entries|] == entries
    requires more[|entries|].call == calls[|entries|] && more[|entries|].works == works[|entries|]
    ensures Traces(more, calls, works)
  {
    assert forall n :: 0 <= n < |entries| ==> more[n] == more[..|entries|][n];
  }

  /**
   * Whatever calls are made, with whatever arrays the caller has made or received and however it overwrites them:
   * no array of the store is ever in the caller's hands; of the arrays ever kept, one for each accepted session and
   * two for each accepted trust, those kept still have their bytes and all others are zero; and the contents are
   * exactly what the calls make of them, so no write of a caller shows in them.
   */
  method RunCalls(calls: seq<Call>, works: seq<bool>)
    returns (store: Store, handles: seq<Key>, ghost entries: seq<Entry>, ghost kept: set<Key>)
    requires |works| == |calls|
    ensures fresh(store) && store.Valid() && forall h :: h in handles ==> h !in kept
    ensures store.Kept() <= kept == store.places.Keys && |kept| == Copies(entries)
    ensures forall a :: a in kept && a !in store.Kept() ==> Wiped(a)
    ensures |entries| == |calls| && Traces(entries, calls, works)
    ensures store.View() == ApplyAll(entries) && Capped(store.pendingMemory, store.database)
  {
    hide Apply, ApplyAll, Copies, Capped, SessionsOf, TrustsOf, Layout, KeptOf, Held, Wiped, Traces, Store.Intact;
    store := new Store();
    handles, entries, kept := [], [], {};
    NothingApplied();
    assert Traces([], calls, works) by { NothingTraced(calls, works); }
    for n := 0 to |calls|
      invariant fresh(store) && store.Valid() && forall a :: a in store.places.Keys ==> fresh(a)
      invariant forall i :: 0 <= i < |handles| ==> fresh(handles[i]) && handles[i] !in store.places
      invariant kept == store.places.Keys && |kept| == Copies(entries)
      invariant |entries| == n && Traces(entries, calls, works)
      invariant store.View() == ApplyAll(entries) && Capped(store.pendingMemory, store.database)
    {
      ghost var before := entries;
      handles, entries, kept := RunNext(store, handles, calls[n], works[n], entries, kept);
      TracesOneMore(before, entries, calls, works);
    }
    store.DroppedAreWiped();
  }

  method RunNext(store: Store, handles: seq<Key>, call: Call, works: bool, ghost entries: seq<Entry>, ghost kept: set<Key>)
    returns (after: seq<Key>, ghost more: seq<Entry>, ghost keptNow: set<Key>)
    requires store.Valid() && forall i :: 0 <= i < |handles| ==> handles[i] !in store.places
    requires store.View() == ApplyAll(entries) && Capped(store.pendingMemory, store.database)
    requires kept == store.places.Keys && |kept| == Copies(entries)
    modifies store, store.places.Keys, handles
    ensures store.Valid() && fresh(store.places.Keys - old(store.places.Keys))
    ensures old(store.places.Keys) <= store.places.Keys
    ensures keptNow == kept + store.Kept() == store.places.Keys && |keptNow| == Copies(more)
    ensures forall i :: 0 <= i < |after| ==> (after[i] in handles || fresh(after[i])) && after[i] !in store.places
    ensures |more| == |entries| + 1 && more[..|entries|] == entries
    ensures more[|entries|].call == call && more[|entries|].works == works
    ensures store.View() == ApplyAll(more) && Capped(store.pendingMemory, store.database)
  {
    hide Apply, ApplyAll, Copies, Capped, SessionsOf, TrustsOf, Layout, CopiesOf, KeptOf;
    ghost var entry := Entry(call, BytesOf(handles), works);
    OneMoreApplied(entries, entry);
    more := entries + [entry];
    after := RunCall(store, handles, call, works);
    keptNow := kept + store.Kept();
    assert forall i :: 0 <= i < |after| ==> after[i] in after;
  }

  lemma OneMoreApplied(entries: seq<Entry>, e: Entry)
    ensures ApplyAll(entries + [e]) == Apply(ApplyAll(entries), e.call, e.keys, e.works)
    ensures Capped(ApplyAll(entries).pending, ApplyAll(entries).database) ==>
              Capped(ApplyAll(entries + [e]).pending, ApplyAll(entries + [e]).database)
    ensures Copies(entries + [e]) == Copies(entries) + CopiesOf(e.call, |e.keys|)
  {
    assert (entries + [e])[..|entries|] == entries;
    hide Apply, Capped, CopiesOf;
    var c := ApplyAll(entries);
    if Capped(c.pending, c.database) { ApplyKeepsCaps(c, e.call, e.keys, e.works); }
  }

  lemma NothingApplied()
    ensures ApplyAll([]) == EMPTY && Copies([]) == 0 && Capped(EMPTY.pending, EMPTY.database)
  {
    assert forall s, r :: OfRequest(map[], s, r) == map[];
    assert Commands(map[]) == map[];
  }

  method RunCall(store: Store, handles: seq<Key>, call: Call, works: bool) returns (after: seq<Key>)
    requires store.Valid() && forall h :: h in handles ==> h !in store.places
    modifies store, store.places.Keys, handles
    ensures store.Valid() && fresh(store.places.Keys - old(store.places.Keys))
    ensures old(store.places.Keys) <= store.places.Keys
    ensures Grew(old(store.places.Keys), store.places.Keys, store.Kept(), CopiesOf(call, |handles|))
    ensures forall a :: a in old(store.Kept()) && a !in store.Kept() ==> Wiped(a)
    ensures forall h :: h in after ==> (h in handles || fresh(h)) && h !in store.places
    ensures store.View() == Apply(old(store.View()), call, old(BytesOf(handles)), works)
  {
    hide Apply, CopiesOf, SessionsOf, TrustsOf, Layout, KeptOf, Grew;
    store.NothingMore();
    store.DroppedAreWiped();
    CallKeepsNothing(store.View(), call, BytesOf(handles), works);
    after := handles;
    if ByCaller(call) {
      after := RunCaller(handles, call);
    } else if Reads(call) {
      var found := RunRead(store, call, works);
      after := handles + found;
    } else if call.CallSave? || call.CallSaveTrust? {
      RunSave(store, handles, call, works);
    } else {
      RunRemoval(store, call, works);
      store.NothingMore();
    }
    store.DroppedAreWiped();
    NoneForgotten(old(store.places.Keys), store.places.Keys, store.Kept(), CopiesOf(call, |handles|));
  }

  lemma NoneForgotten(before: set<Key>, after: set<Key>, kept: set<Key>, n: nat)
    requires Grew(before, after, kept, n)
    ensures before <= after
  {
  }

  lemma CallKeepsNothing(c: Contents, call: Call, keys: seq<seq<Byte>>, works: bool)
    ensures ByCaller(call) || Reads(call) ==> Apply(c, call, keys, works) == c
    ensures !call.CallSave? && !call.CallSaveTrust? ==> Apply(c, call, keys, works) == Apply(c, call, [], works)
    ensures !call.CallSave? && !call.CallSaveTrust? ==> CopiesOf(call, |keys|) == 0
  {
  }

  method RunCaller(handles: seq<Key>, call: Call) returns (after: seq<Key>)
    modifies handles
    ensures forall h :: h in after ==> h in handles || fresh(h)
  {
    after := handles;
    if call.MakeKey? {
      var key := FromBytes(call.content);
      after := after + [key];
    } else if call.Scribble? && call.i < |handles| {
      Fill(handles[call.i], call.byte);
    }
  }

  method RunRead(store: Store, call: Call, works: bool) returns (found: seq<Key>)
    requires store.Valid()
    ensures forall h :: h in found ==> fresh(h)
  {
    hide SafeScope, ValidTrustId, KeyId, TrustKey, Layout, SessionsOf, TrustsOf;
    found := [];
    match call
    case CallLoad(scope, requestId) =>
      var r := store.Load(scope, requestId, works);
      if r.Ok? && r.value.Some? { found := [r.value.value.0.key]; }
    case CallLoadTrust(scope, id) =>
      var r := store.LoadTrust(scope, id, works);
      if r.Ok? && r.value.Some? { found := [r.value.value.privateKey, r.value.value.proofKey]; }
    case CallFindTrust(scope, origin, target, now) =>
      var r := store.FindTrust(scope, origin, target, now, works);
      if r.Ok? && r.value.Some? { found := [r.value.value.privateKey, r.value.value.proofKey]; }
    case CallList(scope) =>
      var r := store.List(scope, works);
      if r.Ok? { found := SessionArrays(r.value); }
    case CallListTrusts(scope) =>
      var r := store.ListTrusts(scope, works);
      if r.Ok? { found := TrustArrays(r.value); }
    case _ =>
  }

  method SessionArrays(listed: map<string, Session>) returns (keys: seq<Key>)
    ensures forall h :: h in keys ==> exists k :: k in listed && h == listed[k].key
  {
    keys := [];
    var todo := listed.Keys;
    while todo != {}
      invariant todo <= listed.Keys
      invariant forall h :: h in keys ==> exists k :: k in listed && h == listed[k].key
    {
      var k :| k in todo;
      todo := todo - {k};
      keys := keys + [listed[k].key];
    }
  }

  method TrustArrays(listed: map<string, Trust>) returns (keys: seq<Key>)
    ensures forall h :: h in keys ==> exists k :: k in listed && (h == listed[k].privateKey || h == listed[k].proofKey)
  {
    keys := [];
    var todo := listed.Keys;
    while todo != {}
      invariant todo <= listed.Keys
      invariant forall h :: h in keys ==> exists k :: k in listed && (h == listed[k].privateKey || h == listed[k].proofKey)
    {
      var k :| k in todo;
      todo := todo - {k};
      keys := keys + [listed[k].privateKey, listed[k].proofKey];
    }
  }

  method RunSave(store: Store, handles: seq<Key>, call: Call, works: bool)
    requires store.Valid() && (call.CallSave? || call.CallSaveTrust?)
    requires forall h :: h in handles ==> h !in store.places
    modifies store, store.places.Keys
    ensures store.Valid() && fresh(store.places.Keys - old(store.places.Keys))
    ensures old(store.places.Keys) <= store.places.Keys
    ensures Grew(old(store.places.Keys), store.places.Keys, store.Kept(), CopiesOf(call, |handles|))
    ensures store.View() == Apply(old(store.View()), call, old(BytesOf(handles)), works)
  {
    hide SafeScope, ValidTrustId, KeyId, TrustKey, SessionsOf, TrustsOf, Layout, KeptOf, Grew;
    store.NothingMore();
    match call {
      case CallSave(scope, requestId, trustId, details, i) =>
        if i < |handles| {
          var r := store.Save(Session(scope, requestId, trustId, details, handles[i]), works);
        }
      case CallSaveTrust(scope, id, origin, target, expiresAt, createdAt, details, i, j) =>
        if i < |handles| && j < |handles| {
          var r := store.SaveTrust(Trust(scope, id, origin, target, expiresAt, createdAt, details, handles[i], handles[j]), works);
        }
    }
    NoneForgotten(old(store.places.Keys), store.places.Keys, store.Kept(), CopiesOf(call, |handles|));
  }

  method RunRemoval(store: Store, call: Call, works: bool)
    requires store.Valid() && !ByCaller(call) && !Reads(call) && !call.CallSave? && !call.CallSaveTrust?
    modifies store, store.places.Keys
    ensures store.Valid() && store.places == old(store.places)
    ensures store.View() == Apply(old(store.View()), call, [], works)
  {
    hide SafeScope, ValidTrustId, KeyId, TrustKey, CommandKey, SessionsOf, TrustsOf, Layout, SavePending, BoundRequests,
         BoundKeys, DoomedKeys, Unrequested, Prefixed, ScopePrefix;
    match call
    case CallSavePending(command, now, apis) =>
      var r := store.SavePendingCommand(command, now, apis || works, works);
    case CallRemove(scope, requestId) =>
      var r := store.Remove(scope, requestId, works);
    case CallRemoveTrust(scope, id) =>
      var r := store.RemoveTrust(scope, id, works);
    case CallRemovePending(scope, requestId, commandId) =>
      var r := store.RemovePendingCommand(scope, requestId, commandId, works);
    case CallClearMemory(scope) =>
      var r := store.ClearMemory(scope);
    case CallClearSessionMemory(scope) =>
      var r := store.ClearSessionMemory(scope);
    case CallClearAccount(scope) =>
      var r := store.ClearAccount(scope, works);
  }

  // ---- What the calls amount to ----

  lemma ApplyKeepsCaps(c: Contents, call: Call, keys: seq<seq<Byte>>, works: bool)
    requires Capped(c.pending, c.database)
    ensures var after := Apply(c, call, keys, works); Capped(after.pending, after.database)
  {
    var after := Apply(c, call, keys, works);
    if call.CallSavePending? {
      SavePendingKeepsCaps(c.pending, c.database, call.command, call.now, call.apis || works, works);
    } else {
      FewerCommands(c, call, keys, works);
      SmallerKeeps(after.pending, c.pending);
      SmallerKeeps(Commands(after.database), Commands(c.database));
    }
  }

  /** Every other call at most drops commands. */
  lemma FewerCommands(c: Contents, call: Call, keys: seq<seq<Byte>>, works: bool)
    requires !call.CallSavePending?
    ensures var after := Apply(c, call, keys, works);
            Within(after.pending, c.pending) && Within(Commands(after.database), Commands(c.database))
  {
    hide SafeScope, ValidTrustId, KeyId, TrustKey, CommandKey, BoundKeys, BoundRequests, DoomedKeys, Prefixed, ScopePrefix;
  }

  /** The calls that can take a session out of memory or put another in its place. */
  predicate Disturbs(call: Call, row: Row)
    requires row.SessionRow?
  {
    match call
    case CallSave(scope, requestId, _, _, _) => KeyId(scope, requestId) == KeyId(row.scope, row.requestId)
    case CallRemove(scope, requestId) => KeyId(scope, requestId) == KeyId(row.scope, row.requestId)
    case CallRemoveTrust(scope, id) => BoundTo(row, scope, id)
    case CallClearMemory(scope) => StartsWith(KeyId(row.scope, row.requestId), ScopePrefix(KEY_PREFIX, scope))
    case CallClearSessionMemory(scope) => StartsWith(KeyId(row.scope, row.requestId), ScopePrefix(KEY_PREFIX, scope))
    case CallClearAccount(scope) => StartsWith(KeyId(row.scope, row.requestId), ScopePrefix(KEY_PREFIX, scope))
    case _ => false
  }

  predicate Saves(e: Entry) {
    e.call.CallSave? && e.call.i < |e.keys|
  }

  /** The row of a save, with the bytes the caller's array has at that time. */
  function SavedRow(e: Entry): Row
    requires Saves(e)
  {
    SessionRow(e.call.scope, e.call.requestId, e.call.trustId, e.call.details, e.keys[e.call.i])
  }

  /**
   * A saved key survives: until its session is saved again, removed or cleared, the contents hold the bytes the
   * caller's array had when it was saved, whatever the caller has written to its arrays since.
   */
  lemma {:induction false} SavedKeysSurvive(before: seq<Entry>, save: Entry, more: seq<Entry>)
    requires Saves(save) && SafeScope(save.call.scope)
    requires forall e :: e in more ==> !Disturbs(e.call, SavedRow(save))
    ensures var row, c := SavedRow(save), ApplyAll(before + [save] + more);
            var id := KeyId(row.scope, row.requestId);
            id in c.sessions && c.sessions[id] == row
  {
    var all, row := before + [save], SavedRow(save);
    hide SafeScope;
    if more == [] {
      assert all + more == all && all[..|all| - 1] == before;
    } else {
      var init, last := more[..|more| - 1], more[|more| - 1];
      assert last in more && forall e :: e in init ==> e in more;
      SavedKeysSurvive(before, save, init);
      assert (all + more)[..|all + more| - 1] == all + init;
      hide KeyId, ApplyAll;
      UndisturbedStays(ApplyAll(all + init), last, row);
      assert ApplyAll(all + more) == Apply(ApplyAll(all + init), last.call, last.keys, last.works);
    }
  }

  lemma UndisturbedStays(c: Contents, e: Entry, row: Row)
    requires row.SessionRow? && !Disturbs(e.call, row)
    requires var id := KeyId(row.scope, row.requestId); id in c.sessions && c.sessions[id] == row
    ensures var id, after := KeyId(row.scope, row.requestId), Apply(c, e.call, e.keys, e.works);
            id in after.sessions && after.sessions[id] == row
  {
    hide KeyId, SafeScope, ValidTrustId, StartsWith, ScopePrefix, PutTrustRow, WithPending, WithoutTrust, ForgetSessions,
         ForgetScope;
    match e.call {
      case CallSavePending(command, now, apis) => PendingKeepsSessions(c, command, now, apis || e.works, e.works);
      case CallSaveTrust(_, _, _, _, _, _, _, _, _) =>
        hide PutSessionRow, WithoutSession, WithoutCommand;
        TrustKeepsSessions(c, e);
      case CallRemoveTrust(scope, id) => UnboundStays(c, scope, id, e.works, row);
      case CallClearMemory(scope) => UnprefixedStays(c, scope, row);
      case CallClearSessionMemory(scope) => UnprefixedStays(c, scope, row);
      case CallClearAccount(scope) => UnprefixedStays(c, scope, row);
      case _ =>
    }
  }

  lemma PendingKeepsSessions(c: Contents, command: Command, now: int, apis: bool, works: bool)
    ensures WithPending(c, command, now, apis, works).sessions == c.sessions
  {
    hide SavePending;
  }

  lemma TrustKeepsSessions(c: Contents, e: Entry)
    requires e.call.CallSaveTrust?
    ensures Apply(c, e.call, e.keys, e.works).sessions == c.sessions
  {
    hide TrustKey, SafeScope, ValidTrustId;
  }

  lemma UnboundStays(c: Contents, scope: string, id: string, works: bool, row: Row)
    requires row.SessionRow? && !BoundTo(row, scope, id)
    requires var k := KeyId(row.scope, row.requestId); k in c.sessions && c.sessions[k] == row
    ensures var k, after := KeyId(row.scope, row.requestId), WithoutTrust(c, scope, id, works).sessions;
            k in after && after[k] == row
  {
    hide KeyId, TrustKey, DoomedKeys, Unrequested, BoundRequests;
  }

  lemma UnprefixedStays(c: Contents, scope: string, row: Row)
    requires row.SessionRow? && !StartsWith(KeyId(row.scope, row.requestId), ScopePrefix(KEY_PREFIX, scope))
    requires var k := KeyId(row.scope, row.requestId); k in c.sessions && c.sessions[k] == row
    ensures var k, after := KeyId(row.scope, row.requestId), ForgetSessions(c, scope).sessions; k in after && after[k] == row
    ensures ForgetScope(c, scope).sessions == ForgetSessions(c, scope).sessions
  {
    hide KeyId, StartsWith, ScopePrefix;
  }

  // ---- What the removals mean ----

  /** Clearing a scope leaves no record of it in memory. */
  lemma ClearingCoversScope(memory: map<string, Session>, trusts: map<string, Trust>, scope: string)
    requires SessionsIdentified(memory) && TrustsIdentified(trusts)
    ensures forall k :: k in memory && memory[k].scope == scope ==> k in Prefixed(memory.Keys, ScopePrefix(KEY_PREFIX, scope))
    ensures forall k :: k in trusts && trusts[k].scope == scope ==> k in Prefixed(trusts.Keys, ScopePrefix(TRUST_PREFIX, scope))
  {
    forall k | k in memory && memory[k].scope == scope
      ensures StartsWith(k, ScopePrefix(KEY_PREFIX, scope))
    {
      PrefixCoversScope(scope, memory[k].requestId, KEY_PREFIX);
    }
    forall k | k in trusts && trusts[k].scope == scope
      ensures StartsWith(k, ScopePrefix(TRUST_PREFIX, scope))
    {
      PrefixCoversScope(scope, trusts[k].trustId, TRUST_PREFIX);
    }
  }

  /** The one key a removal of a trust deletes is that of the trust, and of no other. */
  lemma OnlyThatTrust(trusts: map<string, Trust>, scope: string, id: string, k: string)
    requires TrustsIdentified(trusts) && k in trusts && ValidTrustId(id)
    ensures k == TrustKey(scope, id) <==> trusts[k].scope == scope && trusts[k].trustId == id
  {
    if k == TrustKey(scope, id) {
      TrustKeyIsInjective(scope, id, trusts[k].scope, trusts[k].trustId);
    }
  }

  /** No row survives that still names the removed trust, and every deleted row is the trust's, a session's or a command's. */
  lemma DoomedExactly(rows: map<string, Row>, scope: string, id: string, requests: set<string>, k: string)
    requires k in rows && requests >= BoundRequests(rows, scope, id)
    requires rows[k].TrustRow? ==> ValidTrustId(rows[k].trust) && k == TrustKey(rows[k].scope, rows[k].trust)
    requires !rows[k].TrustRow? ==> !StartsWith(k, TRUST_PREFIX)
    requires ValidTrustId(id)
    ensures var after := rows - DoomedKeys(rows, scope, id, requests);
            k !in after <==>
              || (rows[k].TrustRow? && rows[k].scope == scope && rows[k].trust == id)
              || BoundTo(rows[k], scope, id)
              || (rows[k].CommandRow? && OfRequests(rows[k].command, scope, requests))
  {
    if k == TrustKey(scope, id) {
      PrefixCoversTrust(scope, id);
      if rows[k].TrustRow? { TrustKeyIsInjective(scope, id, rows[k].scope, rows[k].trust); }
    }
  }

  lemma PrefixCoversTrust(scope: string, id: string)
    ensures StartsWith(TrustKey(scope, id), TRUST_PREFIX)
  {
    assert TrustKey(scope, id) == TRUST_PREFIX + (scope + "." + id);
  }
}
