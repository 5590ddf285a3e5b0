/**
 Admin sessions of internal/auth (SessionStore): rows with a sliding expiry that
 is renewed by compare-and-swap, a cache in front of them, revocation under the
 mutex, and pruning that knows nothing of the cache.
 */
module SessionRenewal {
  import opened Wrappers

  type CallId = nat
  type Selector = nat

  // session is the session's expiry as cached; until is the cache entry's own.
  datatype Cached = Cached(session: int, until: int)

  datatype Call =
    | Missed(sel: Selector, now: int)
    | Loading(sel: Selector, now: int, gen: nat, again: bool)   // again: the swap lost, load once more
    | Loaded(sel: Selector, now: int, gen: nat, session: int, hit: bool)
    | Ready(sel: Selector, now: int, gen: nat, session: int)
    | Expiring(sel: Selector)                        // about to revoke a row it found expired
      // Holds the mutex between its DELETE, whose error it ignores, and dropping the
      // cache entries; gone are the rows the DELETE did remove.
    | Revoking(gone: set<Selector>, dropped: set<Selector>)

  // now is the wall clock; ids once drawn are not drawn again.
  datatype State = State(
    now: int,
    rows: map<Selector, int>, issued: set<Selector>,
    cache: map<Selector, Cached>, rev: nat, mutex: Option<CallId>,
    calls: map<CallId, Call>)

  datatype Event =
    | Quiet
    | Granted(sel: Selector, session: int, now: int)
    | Revoked(gone: set<Selector>)

  // Lifetimes fixed at construction.
  datatype Config = Config(ttl: int, cacheTtl: int)
  {
    predicate Valid() {
      0 < ttl && 0 < cacheTtl
    }

    // Less than half of the lifetime is left.
    predicate Due(now: int, session: int) {
      now + ttl / 2 > session
    }
  }

  datatype Action =
    | Tick(later: int)
    | Create(sel: Selector)
    | Lookup(c: CallId, sel: Selector, now: int, matches: bool)
    | LoadRev(c: CallId)
    | Load(c: CallId, matches: bool)
    | Renew(c: CallId, dbError: bool)
    | Publish(c: CallId)
    | RevokeExpired(c: CallId, dbError: bool)
    | Delete(c: CallId, sel: Selector, dbError: bool)
    | InvalidateAll(c: CallId, dbError: bool)
    | RevokeEnd(c: CallId)
    | Prune(cutoff: int)
    | Evict(gone: set<Selector>)      // the sweep and the eviction of ensureCacheRoomLocked
    | Abort(c: CallId)

  predicate Enabled(s: State, a: Action) {
    match a
    case Tick(later) => s.now <= later
    case Create(sel) => sel !in s.issued
    case Lookup(c, _, now, _) => c !in s.calls && s.mutex == None && now <= s.now   // read before the lock
    case LoadRev(c) => c in s.calls && s.calls[c].Missed?
    case Load(c, _) => c in s.calls && s.calls[c].Loading?
    case Renew(c, _) => c in s.calls && s.calls[c].Loaded?
    case Publish(c) => c in s.calls && s.calls[c].Ready? && s.mutex == None
    case RevokeExpired(c, _) => c in s.calls && s.calls[c].Expiring? && s.mutex == None
    case Delete(c, _, _) => c !in s.calls && s.mutex == None
    case InvalidateAll(c, _) => c !in s.calls && s.mutex == None
    case RevokeEnd(c) => c in s.calls && s.calls[c].Revoking?
    case Prune(cutoff) => cutoff <= s.now
    case Evict(_) => s.mutex == None
    case Abort(c) => c in s.calls && !s.calls[c].Revoking?
  }

  function Goto(s: State, c: CallId, call: Call): State {
    s.(calls := s.calls[c := call])
  }

  function Return(s: State, c: CallId): State {
    s.(calls := s.calls - {c})
  }

  // UPDATE admin_sessions SET expires_at=now+ttl WHERE id=? AND expires_at=?
  function Swap(rows: map<Selector, int>, sel: Selector, seen: int, next: int): map<Selector, int> {
    if sel in rows && rows[sel] == seen then rows[sel := next] else rows
  }

  function RenewStep(s: State, c: CallId, dbError: bool, cfg: Config): State
    requires c in s.calls && s.calls[c].Loaded?
  {
    var Loaded(sel, now, gen, session, hit) := s.calls[c];
    if !cfg.Due(now, session) then Goto(s, c, Ready(sel, now, gen, session))
    else if dbError then (if hit then Goto(s, c, Ready(sel, now, gen, session)) else Return(s, c))
    else if sel in s.rows && s.rows[sel] == session then
      Goto(s.(rows := Swap(s.rows, sel, session, now + cfg.ttl)), c, Ready(sel, now, gen, now + cfg.ttl))
    else Goto(s, c, Loading(sel, now, gen, true))
  }

  function LoadStep(s: State, c: CallId, matches: bool): State
    requires c in s.calls && s.calls[c].Loading?
  {
    var Loading(sel, now, gen, again) := s.calls[c];
    if sel !in s.rows then Return(s, c)
    else if s.rows[sel] <= now then Goto(s, c, Expiring(sel))
    else if !matches then Return(s, c)
    else if again then Goto(s, c, Ready(sel, now, gen, s.rows[sel]))
    else Goto(s, c, Loaded(sel, now, gen, s.rows[sel], false))
  }

  // A cached expiry later than the one this call knows wins.
  function Best(cache: map<Selector, Cached>, sel: Selector, session: int): int {
    if sel in cache && cache[sel].session > session then cache[sel].session else session
  }

  function PublishStep(s: State, c: CallId, cfg: Config): (State, Event)
    requires c in s.calls && s.calls[c].Ready?
  {
    var Ready(sel, now, gen, session) := s.calls[c];
    if s.rev != gen then (Return(s, c), Quiet)
    else
      var best := Best(s.cache, sel, session);
      (Return(s.(cache := s.cache[sel := Cached(best, now + cfg.cacheTtl)]), c), Granted(sel, best, now))
  }

  // Selectors that were never drawn name nothing.
  function RevokeBegin(s: State, c: CallId, sels: set<Selector>, dbError: bool): State {
    var gone := if dbError then {} else sels * s.issued;
    Goto(s.(rows := s.rows - gone, mutex := Some(c)), c, Revoking(gone, sels))
  }

  predicate Usable(cache: map<Selector, Cached>, sel: Selector, now: int) {
    sel in cache && now < cache[sel].until && now < cache[sel].session
  }

  // PruneExpiredSessions: the rows that stay.
  function Pruned(rows: map<Selector, int>, cutoff: int): map<Selector, int> {
    map r | r in rows && cutoff <= rows[r] :: rows[r]
  }

  function Effect(s: State, a: Action, cfg: Config): (State, Event)
    requires Enabled(s, a)
  {
    match a
    case Tick(later) => (s.(now := later), Quiet)
    case Create(sel) => (s.(rows := s.rows[sel := s.now + cfg.ttl], issued := s.issued + {sel}), Quiet)
    case Lookup(c, sel, now, matches) =>
      if Usable(s.cache, sel, now) && matches then (Goto(s, c, Loaded(sel, now, s.rev, s.cache[sel].session, true)), Quiet)
      else (Goto(s.(cache := s.cache - {sel}), c, Missed(sel, now)), Quiet)
    case LoadRev(c) => (Goto(s, c, Loading(s.calls[c].sel, s.calls[c].now, s.rev, false)), Quiet)
    case Load(c, matches) => (LoadStep(s, c, matches), Quiet)
    case Renew(c, dbError) => (RenewStep(s, c, dbError, cfg), Quiet)
    case Publish(c) => PublishStep(s, c, cfg)
    case RevokeExpired(c, dbError) => (RevokeBegin(s, c, {s.calls[c].sel}, dbError), Quiet)
    case Delete(c, sel, dbError) => (RevokeBegin(s, c, {sel}, dbError), Quiet)
    case InvalidateAll(c, dbError) => (RevokeBegin(s, c, s.issued, dbError), Quiet)
    case RevokeEnd(c) =>
      var Revoking(gone, dropped) := s.calls[c];
      (Return(s.(cache := s.cache - dropped, rev := s.rev + 1, mutex := None), c), Revoked(gone))
    case Prune(cutoff) => (s.(rows := Pruned(s.rows, cutoff)), Quiet)
    case Evict(gone) => (s.(cache := s.cache - gone), Quiet)
    case Abort(c) => (Return(s, c), Quiet)
  }

  function Step(s: State, a: Action, cfg: Config): (State, Event) {
    if Enabled(s, a) then Effect(s, a, cfg) else (s, Quiet)
  }

  function Run(s: State, acts: seq<Action>, cfg: Config): State {
    if acts == [] then s else Step(Run(s, acts[..|acts| - 1], cfg), acts[|acts| - 1], cfg).0
  }

  function Trace(s: State, acts: seq<Action>, cfg: Config): (tr: seq<Event>)
    ensures |tr| == |acts|
  {
    if acts == [] then []
    else
      var prefix := acts[..|acts| - 1];
      Trace(s, prefix, cfg) + [Step(Run(s, prefix, cfg), acts[|acts| - 1], cfg).1]
  }

  function Past(s: State, acts: seq<Action>, cfg: Config): set<Event> {
    if acts == [] then {}
    else
      var prefix := acts[..|acts| - 1];
      Past(s, prefix, cfg) + {Step(Run(s, prefix, cfg), acts[|acts| - 1], cfg).1}
  }

  /******* Invariant *******/

  // Someone holding the mutex has deleted the row and not yet dropped the cache entry.
  predicate BeingRevoked(s: State, sel: Selector) {
    s.mutex.Some? && s.mutex.value in s.calls && s.calls[s.mutex.value].Revoking?
    && sel in s.calls[s.mutex.value].gone
  }

  // An expiry seen in memory is covered by the row; without a row it has passed,
  // unless a revocation is under way.
  predicate Covered(s: State, sel: Selector, session: int) {
    && sel in s.issued
    && if sel in s.rows then session <= s.rows[sel] else session < s.now || BeingRevoked(s, sel)
  }

  ghost predicate RowsOk(s: State) {
    s.rows.Keys <= s.issued
  }

  ghost predicate CacheOk(s: State) {
    forall sel :: sel in s.cache ==> Covered(s, sel, s.cache[sel].session)
  }

  predicate CallOk(s: State, call: Call) {
    match call
    case Loading(_, _, gen, _) => gen <= s.rev
    case Loaded(sel, now, gen, session, _) => now < session && gen <= s.rev && (gen == s.rev ==> Covered(s, sel, session))
    case Ready(sel, now, gen, session) => now < session && gen <= s.rev && (gen == s.rev ==> Covered(s, sel, session))
    case Revoking(gone, dropped) => gone <= dropped && gone <= s.issued && gone !! s.rows.Keys
    case _ => true
  }

  ghost predicate CallsOk(s: State) {
    forall c :: c in s.calls ==> CallOk(s, s.calls[c])
  }

  ghost predicate MutexOk(s: State) {
    forall c :: c in s.calls && s.calls[c].Revoking? ==> s.mutex == Some(c)
  }

  // A revoked selector has left the table, the cache, and every call that could still publish.
  ghost predicate RevokedOk(s: State, sel: Selector) {
    && sel in s.issued && sel !in s.rows && sel !in s.cache
    && forall c :: c in s.calls && (s.calls[c].Loaded? || s.calls[c].Ready?) && s.calls[c].sel == sel ==> s.calls[c].gen < s.rev
  }

  ghost predicate PastOk(s: State, past: set<Event>) {
    forall e, sel :: e in past && e.Revoked? && sel in e.gone ==> RevokedOk(s, sel)
  }

  ghost predicate Inv(s: State, past: set<Event>) {
    RowsOk(s) && CacheOk(s) && CallsOk(s) && MutexOk(s) && PastOk(s, past)
  }

  ghost predicate Start(s: State) {
    s.cache == map[] && s.mutex == None && s.calls == map[] && RowsOk(s)
  }
}
