/**
 The verified-credential caches of internal/auth: ClientAuthenticator and
 ManagementTokenAuthenticator. A grant comes from the cache or from a row read
 outside the mutex; only the revision counter, loaded before the row is read and
 compared when the result is published, ties the two to later mutations.
 */
module VerifyCache {
  import CacheRoom
  import opened Wrappers

  type CallId = nat
  type Id = nat     // client key or management token
  type Key = nat    // HMAC of the presented credential

  // version counts the mutations of a row; it is not a column. A client key has
  // no expiry of its own.
  datatype Row = Row(account: nat, active: bool, expires: Option<int>, version: nat)

  datatype Entry = Entry(id: Id, row: Row, until: int)

  datatype Call =
    | Missed(key: Key, now: int)
    | Loaded(key: Key, now: int, gen: nat)
    | Verified(key: Key, now: int, gen: nat, id: Id, row: Row)
      // A mutation has committed and its invalidation is still to come. InvalidateWith
      // holds the mutex across the two; a plain Invalidate does not.
    | Mutated(id: Id, holding: bool)

  datatype State = State(
    rows: map<Id, Row>,
    entries: map<Key, Entry>, rev: nat, mutex: Option<CallId>,
    calls: map<CallId, Call>)

  datatype Event =
    | Quiet
    | Committed(id: Id, version: nat)
      // The version every invalidated row has when its cache entries are dropped.
    | Invalidated(floor: map<Id, nat>)
    | Granted(id: Id, row: Row, now: int)

  predicate Expired(row: Row, now: int) {
    row.expires.Some? && now >= row.expires.value
  }

  predicate Live(e: Entry, now: int) {
    now < e.until
  }

  /******* Map operations under the mutex *******/

  function Swept(entries: map<Key, Entry>, now: int): map<Key, Entry> {
    map k | k in entries && Live(entries[k], now) :: entries[k]
  }

  function WithoutId(entries: map<Key, Entry>, id: Id): map<Key, Entry> {
    map k | k in entries && entries[k].id != id :: entries[k]
  }

  function WithoutAccount(entries: map<Key, Entry>, account: nat): map<Key, Entry> {
    map k | k in entries && entries[k].row.account != account :: entries[k]
  }

  ghost predicate RoomMade(before: map<Key, Entry>, after: map<Key, Entry>, now: int, max: nat) {
    CacheRoom.RoomMade(before, Swept(before, now), after, max)
  }

  /******* Actions *******/

  datatype Action =
    | Lookup(c: CallId, key: Key, now: int)
    | LoadRev(c: CallId)
    | ReadRow(c: CallId, id: Id, matches: bool)
    | Publish(c: CallId, room: map<Key, Entry>)
    | Commit(c: CallId, id: Id, active: bool, expires: Option<int>, holding: bool)
    | Invalidate(c: CallId)
    | InvalidateAccount(account: nat)
    | InvalidateAll
    | Sweep(now: int)
    | Create(id: Id, row: Row)
    | Abort(c: CallId)

  // ttl and max are fixed at construction.
  ghost predicate Enabled(s: State, a: Action, max: nat) {
    match a
    case Lookup(c, _, _) => c !in s.calls && s.mutex == None
    case LoadRev(c) => c in s.calls && s.calls[c].Missed?
    case ReadRow(c, id, _) => c in s.calls && s.calls[c].Loaded? && id in s.rows
    case Publish(c, room) => c in s.calls && s.calls[c].Verified? && s.mutex == None
                             && RoomMade(s.entries, room, s.calls[c].now, max)
    case Commit(c, id, _, _, holding) => c !in s.calls && id in s.rows && (holding ==> s.mutex == None)
    case Invalidate(c) => c in s.calls && s.calls[c].Mutated? && (s.calls[c].holding || s.mutex == None)
    case InvalidateAccount(_) => s.mutex == None
    case InvalidateAll => s.mutex == None
    case Sweep(_) => s.mutex == None
    case Create(id, row) => id !in s.rows && row.version == 0
    case Abort(c) => c in s.calls && !s.calls[c].Mutated?
  }

  function Ended(s: State, c: CallId): State {
    s.(calls := s.calls - {c})
  }

  function Floor(rows: map<Id, Row>, ids: set<Id>): map<Id, nat> {
    map id | id in rows && id in ids :: rows[id].version
  }

  function Hit(s: State, c: CallId, key: Key, now: int, ttl: int): (State, Event)
    requires key in s.entries && Live(s.entries[key], now)
  {
    var e := s.entries[key];
    if Expired(e.row, now) then (s.(entries := s.entries - {key}), Quiet)
    else (s.(entries := s.entries[key := e.(until := now + ttl)]), Granted(e.id, e.row, now))
  }

  function PublishStep(s: State, c: CallId, room: map<Key, Entry>, ttl: int): (State, Event)
    requires c in s.calls && s.calls[c].Verified?
  {
    var Verified(key, now, gen, id, row) := s.calls[c];
    if Expired(row, now) || s.rev != gen then (Ended(s, c), Quiet)
    else (Ended(s, c).(entries := room[key := Entry(id, row, now + ttl)]), Granted(id, row, now))
  }

  function Effect(s: State, a: Action, ttl: int, ghost max: nat): (State, Event)
    requires Enabled(s, a, max)
  {
    match a
    case Lookup(c, key, now) =>
      if key in s.entries && Live(s.entries[key], now) then Hit(s, c, key, now, ttl)
      else (s.(entries := s.entries - {key}, calls := s.calls[c := Missed(key, now)]), Quiet)
    case LoadRev(c) => (s.(calls := s.calls[c := Loaded(s.calls[c].key, s.calls[c].now, s.rev)]), Quiet)
    case ReadRow(c, id, matches) =>
      var Loaded(key, now, gen) := s.calls[c];
      if s.rows[id].active && matches then (s.(calls := s.calls[c := Verified(key, now, gen, id, s.rows[id])]), Quiet)
      else (Ended(s, c), Quiet)
    case Publish(c, room) => PublishStep(s, c, room, ttl)
    case Commit(c, id, active, expires, holding) =>
      var row := s.rows[id].(active := active, expires := expires, version := s.rows[id].version + 1);
      (s.(rows := s.rows[id := row], calls := s.calls[c := Mutated(id, holding)],
          mutex := if holding then Some(c) else s.mutex),
       Committed(id, row.version))
    case Invalidate(c) =>
      var Mutated(id, holding) := s.calls[c];
      (Ended(s, c).(entries := WithoutId(s.entries, id), rev := s.rev + 1, mutex := if holding then None else s.mutex),
       Invalidated(Floor(s.rows, {id})))
    case InvalidateAccount(account) =>
      (s.(entries := WithoutAccount(s.entries, account), rev := s.rev + 1),
       Invalidated(map id | id in s.rows && s.rows[id].account == account :: s.rows[id].version))
    case InvalidateAll =>
      (s.(entries := map[], rev := s.rev + 1), Invalidated(Floor(s.rows, s.rows.Keys)))
    case Sweep(now) => (s.(entries := Swept(s.entries, now)), Quiet)
    case Create(id, row) => (s.(rows := s.rows[id := row]), Quiet)
    case Abort(c) => (Ended(s, c), Quiet)
  }

  ghost function Step(s: State, a: Action, ttl: int, max: nat): (State, Event) {
    if Enabled(s, a, max) then Effect(s, a, ttl, max) else (s, Quiet)
  }

  ghost function Run(s: State, acts: seq<Action>, ttl: int, max: nat): State {
    if acts == [] then s else Step(Run(s, acts[..|acts| - 1], ttl, max), acts[|acts| - 1], ttl, max).0
  }

  ghost function Trace(s: State, acts: seq<Action>, ttl: int, max: nat): (tr: seq<Event>)
    ensures |tr| == |acts|
  {
    if acts == [] then []
    else
      var prefix := acts[..|acts| - 1];
      Trace(s, prefix, ttl, max) + [Step(Run(s, prefix, ttl, max), acts[|acts| - 1], ttl, max).1]
  }

  ghost function Past(s: State, acts: seq<Action>, ttl: int, max: nat): set<Event> {
    if acts == [] then {}
    else
      var prefix := acts[..|acts| - 1];
      Past(s, prefix, ttl, max) + {Step(Run(s, prefix, ttl, max), acts[|acts| - 1], ttl, max).1}
  }

  /******* Invariant *******/

  // A copy of a row: what was read is a version of the row, now or earlier.
  predicate CopyOf(rows: map<Id, Row>, id: Id, row: Row) {
    id in rows && row.active && row.account == rows[id].account && row.version <= rows[id].version
  }

  // The copy is no older than any invalidation of its row.
  ghost predicate Current(past: set<Event>, id: Id, row: Row) {
    forall e :: e in past && e.Invalidated? && id in e.floor ==> e.floor[id] <= row.version
  }

  ghost predicate EntriesOk(s: State, past: set<Event>) {
    forall k :: k in s.entries ==> CopyOf(s.rows, s.entries[k].id, s.entries[k].row)
                                   && Current(past, s.entries[k].id, s.entries[k].row)
  }

  ghost predicate CallOk(s: State, past: set<Event>, call: Call) {
    match call
    case Missed(_, _) => true
    case Loaded(_, _, gen) => gen <= s.rev
    case Verified(_, _, gen, id, row) => gen <= s.rev && CopyOf(s.rows, id, row) && (gen == s.rev ==> Current(past, id, row))
    case Mutated(id, _) => id in s.rows
  }

  ghost predicate CallsOk(s: State, past: set<Event>) {
    forall c :: c in s.calls ==> CallOk(s, past, s.calls[c])
  }

  ghost predicate EventOk(rows: map<Id, Row>, e: Event) {
    match e
    case Quiet => true
    case Committed(id, v) => id in rows && v <= rows[id].version
    case Invalidated(floor) => forall id :: id in floor ==> id in rows && floor[id] <= rows[id].version
    case Granted(id, row, now) => row.active && !Expired(row, now)
  }

  ghost predicate PastOk(s: State, past: set<Event>) {
    forall e :: e in past ==> EventOk(s.rows, e)
  }

  ghost predicate MutexOk(s: State) {
    forall c :: c in s.calls && s.calls[c].Mutated? && s.calls[c].holding ==> s.mutex == Some(c)
  }

  ghost predicate Inv(s: State, past: set<Event>, max: nat) {
    EntriesOk(s, past) && CallsOk(s, past) && PastOk(s, past) && MutexOk(s) && |s.entries| <= max
  }

  // A freshly constructed authenticator over any table.
  ghost predicate Start(s: State) {
    s.entries == map[] && s.mutex == None && s.calls == map[]
  }
}
