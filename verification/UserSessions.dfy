/**
 Customer sessions of internal/identity (GetUserSession and its cache). A cached entry
 holds a copy of the user's row besides the session's sliding expiry. Mutations commit
 outside the mutex and invalidate under it afterwards, some sparing one session.
 */
module UserSessions {
  import opened Wrappers

  type CallId = nat
  type Selector = nat
  type User = nat

  // version counts the mutations of a user's row; it is not a column.
  datatype UserRow = UserRow(active: bool, version: nat)

  datatype SessionRow = SessionRow(owner: User, expires: int)

  // version: of the user row the entry copies; until is the entry's own end.
  datatype Entry = Entry(owner: User, version: nat, session: int, until: int)

  // What a request has in hand: the copy of the user's row and the session's expiry.
  datatype Held = Held(owner: User, version: nat, session: int)

  datatype Call =
    | Missed(sel: Selector, now: int)
    | Loading(sel: Selector, now: int, gen: nat, again: bool)
    | Loaded(sel: Selector, now: int, gen: nat, held: Held)
    | Ready(sel: Selector, now: int, gen: nat, held: Held)
      // A committed mutation of some users whose invalidation, sparing keep, is to come.
    | Mutated(hit: set<User>, keep: Option<Selector>)
      // A session's entry is still to be dropped.
    | Dropping(sel: Selector)

  // issued: the owner of every selector ever drawn.
  datatype State = State(
    now: int, users: map<User, UserRow>, rows: map<Selector, SessionRow>, issued: map<Selector, User>,
    cache: map<Selector, Entry>, rev: nat, calls: map<CallId, Call>)

  datatype Event =
    | Quiet
      // The version each user had when the entries were dropped, all but keep's; gone are
      // the sessions whose rows had been deleted by then.
    | Invalidated(floor: map<User, nat>, keep: Option<Selector>, gone: set<Selector>)
    | Dropped(gone: set<Selector>)
    | Granted(sel: Selector, held: Held, now: int)

  datatype Config = Config(ttl: int, cacheTtl: int)
  {
    predicate Valid() {
      0 < ttl && 0 < cacheTtl
    }

    predicate Due(now: int, session: int) {
      now + ttl / 2 > session
    }
  }

  datatype Action =
    | Tick(later: int)
    | SignUp(user: User, active: bool)
    | Create(sel: Selector, user: User)
    | Lookup(c: CallId, sel: Selector, now: int, matches: bool)
    | LoadRev(c: CallId)
    | Load(c: CallId, matches: bool)
    | Renew(c: CallId, dbError: bool)
    | Publish(c: CallId)
      // A credential or status change: one transaction over the users' rows and, when
      // cut, their sessions but the spared one. keep is the entry the invalidation spares.
    | Commit(c: CallId, hit: set<User>, active: bool, cut: bool, spared: Option<Selector>, keep: Option<Selector>)
      // The DELETE with which InvalidateUser and InvalidateAccount begin.
    | DeleteRows(c: CallId)
    | Invalidate(c: CallId)
      // The DELETE with which DeleteUserSession begins; it may fail unnoticed.
    | DeleteSession(c: CallId, sel: Selector, dbError: bool)
    | DropEnd(c: CallId)
    | Prune(cutoff: int)
    | Evict(gone: set<Selector>)
    | Abort(c: CallId)

  predicate Enabled(s: State, a: Action) {
    match a
    case Tick(later) => s.now <= later
    case SignUp(user, _) => user !in s.users
    case Create(sel, user) => sel !in s.issued && user in s.users
    case Lookup(c, _, now, _) => c !in s.calls && now <= s.now
    case LoadRev(c) => c in s.calls && s.calls[c].Missed?
    case Load(c, _) => c in s.calls && s.calls[c].Loading?
    case Renew(c, _) => c in s.calls && s.calls[c].Loaded?
    case Publish(c) => c in s.calls && s.calls[c].Ready?
    case Commit(c, hit, _, cut, spared, keep) =>
      c !in s.calls && hit <= s.users.Keys && (keep.Some? && cut ==> spared == keep)
    case DeleteRows(c) => c in s.calls && s.calls[c].Mutated? && s.calls[c].keep.None?
    case Invalidate(c) => c in s.calls && s.calls[c].Mutated?
    case DeleteSession(c, sel, _) => c !in s.calls && sel in s.issued   // any other names nothing
    case DropEnd(c) => c in s.calls && s.calls[c].Dropping?
    case Prune(cutoff) => cutoff <= s.now
    case Evict(_) => true
    case Abort(c) => c in s.calls && !s.calls[c].Mutated? && !s.calls[c].Dropping?
  }

  function Goto(s: State, c: CallId, call: Call): State {
    s.(calls := s.calls[c := call])
  }

  function Return(s: State, c: CallId): State {
    s.(calls := s.calls - {c})
  }

  predicate Usable(cache: map<Selector, Entry>, sel: Selector, now: int) {
    sel in cache && now < cache[sel].until && now < cache[sel].session
  }

  // The rows that survive a cut of some users' sessions.
  function Spared(rows: map<Selector, SessionRow>, hit: set<User>, keep: Option<Selector>): map<Selector, SessionRow> {
    map r | r in rows && (rows[r].owner !in hit || keep == Some(r)) :: rows[r]
  }

  function Uncached(cache: map<Selector, Entry>, hit: set<User>, keep: Option<Selector>): map<Selector, Entry> {
    map r | r in cache && (cache[r].owner !in hit || keep == Some(r)) :: cache[r]
  }

  function Changed(users: map<User, UserRow>, hit: set<User>, active: bool): map<User, UserRow> {
    map u | u in users :: if u in hit then UserRow(active, users[u].version + 1) else users[u]
  }

  // loadUserSession
  function LoadStep(s: State, c: CallId, matches: bool): State
    requires c in s.calls && s.calls[c].Loading?
  {
    var Loading(sel, now, gen, again) := s.calls[c];
    if sel !in s.rows || s.rows[sel].owner !in s.users || s.rows[sel].expires <= now
       || !s.users[s.rows[sel].owner].active || !matches then Return(s, c)
    else
      var held := Held(s.rows[sel].owner, s.users[s.rows[sel].owner].version, s.rows[sel].expires);
      Goto(s, c, if again then Ready(sel, now, gen, held) else Loaded(sel, now, gen, held))
  }

  // The compare-and-swap on expires_at; when it loses, the session is loaded again.
  function RenewStep(s: State, c: CallId, dbError: bool, cfg: Config): State
    requires c in s.calls && s.calls[c].Loaded?
  {
    var Loaded(sel, now, gen, held) := s.calls[c];
    if !cfg.Due(now, held.session) then Goto(s, c, Ready(sel, now, gen, held))
    else if dbError then Return(s, c)
    else if sel in s.rows && s.rows[sel].expires == held.session then
      Goto(s.(rows := s.rows[sel := s.rows[sel].(expires := now + cfg.ttl)]), c,
           Ready(sel, now, gen, held.(session := now + cfg.ttl)))
    else Goto(s, c, Loading(sel, now, gen, true))
  }

  function Best(cache: map<Selector, Entry>, sel: Selector, session: int): int {
    if sel in cache && cache[sel].session > session then cache[sel].session else session
  }

  function PublishStep(s: State, c: CallId, cfg: Config): (State, Event)
    requires c in s.calls && s.calls[c].Ready?
  {
    var Ready(sel, now, gen, held) := s.calls[c];
    if s.rev != gen then (Return(s, c), Quiet)
    else
      var best := held.(session := Best(s.cache, sel, held.session));
      (Return(s.(cache := s.cache[sel := Entry(best.owner, best.version, best.session, now + cfg.cacheTtl)]), c),
       Granted(sel, best, now))
  }

  function LookupStep(s: State, c: CallId, sel: Selector, now: int, matches: bool): State {
    if Usable(s.cache, sel, now) && matches then
      var e := s.cache[sel];
      Goto(s, c, Loaded(sel, now, s.rev, Held(e.owner, e.version, e.session)))
    else Goto(s.(cache := s.cache - {sel}), c, Missed(sel, now))
  }

  function Deleted(s: State, hit: set<User>, keep: Option<Selector>): set<Selector> {
    set sel | sel in s.issued && s.issued[sel] in hit && keep != Some(sel) && sel !in s.rows
  }

  function InvalidateStep(s: State, c: CallId): (State, Event)
    requires c in s.calls && s.calls[c].Mutated?
  {
    var Mutated(hit, keep) := s.calls[c];
    (Return(s.(cache := Uncached(s.cache, hit, keep), rev := s.rev + 1), c),
     Invalidated(map u | u in s.users && u in hit :: s.users[u].version, keep, Deleted(s, hit, keep)))
  }

  function Effect(s: State, a: Action, cfg: Config): (State, Event)
    requires Enabled(s, a)
  {
    match a
    case Tick(later) => (s.(now := later), Quiet)
    case SignUp(user, active) => (s.(users := s.users[user := UserRow(active, 0)]), Quiet)
    case Create(sel, user) =>
      (s.(rows := s.rows[sel := SessionRow(user, s.now + cfg.ttl)], issued := s.issued[sel := user]), Quiet)
    case Lookup(c, sel, now, matches) => (LookupStep(s, c, sel, now, matches), Quiet)
    case LoadRev(c) => (Goto(s, c, Loading(s.calls[c].sel, s.calls[c].now, s.rev, false)), Quiet)
    case Load(c, matches) => (LoadStep(s, c, matches), Quiet)
    case Renew(c, dbError) => (RenewStep(s, c, dbError, cfg), Quiet)
    case Publish(c) => PublishStep(s, c, cfg)
    case Commit(c, hit, active, cut, spared, keep) =>
      (Goto(s.(users := Changed(s.users, hit, active), rows := if cut then Spared(s.rows, hit, spared) else s.rows), c,
            Mutated(hit, keep)), Quiet)
    case DeleteRows(c) => (s.(rows := Spared(s.rows, s.calls[c].hit, None)), Quiet)
    case Invalidate(c) => InvalidateStep(s, c)
    case DeleteSession(c, sel, dbError) =>
      (Goto(s.(rows := if dbError then s.rows else s.rows - {sel}), c, Dropping(sel)), Quiet)
    case DropEnd(c) =>
      (Return(s.(cache := s.cache - {s.calls[c].sel}, rev := s.rev + 1), c), Dropped({s.calls[c].sel} - s.rows.Keys))
    case Prune(cutoff) => (s.(rows := map r | r in s.rows && cutoff <= s.rows[r].expires :: s.rows[r]), Quiet)
    case Evict(gone) => (s.(cache := s.cache - gone), Quiet)
    case Abort(c) => (Return(s, c), Quiet)
  }

  function Step(s: State, a: Action, cfg: Config): (State, Event) {
    if Enabled(s, a) then Effect(s, a, cfg) else (s, Quiet)
  }

  function Run(s: State, acts: seq<Action>, cfg: Config): State {
    if acts == [] then s else Step(Run(s, acts[..|acts| - 1], cfg), acts[|acts| - 1], cfg).0
  }

  function Trace(s: State, acts: seq<Action>, cfg: Config): (tr: seq<Event>)
    ensures |tr| == |acts|
  {
    if acts == [] then []
    else
      var prefix := acts[..|acts| - 1];
      Trace(s, prefix, cfg) + [Step(Run(s, prefix, cfg), acts[|acts| - 1], cfg).1]
  }

  function Past(s: State, acts: seq<Action>, cfg: Config): set<Event> {
    if acts == [] then {}
    else
      var prefix := acts[..|acts| - 1];
      Past(s, prefix, cfg) + {Step(Run(s, prefix, cfg), acts[|acts| - 1], cfg).1}
  }

  /******* Invariant *******/

  // The call is about to drop sel's cache entry.
  predicate Drops(s: State, c: CallId, sel: Selector) {
    && c in s.calls && sel in s.issued
    && match s.calls[c]
       case Mutated(hit, keep) => s.issued[sel] in hit && keep != Some(sel)
       case Dropping(gone) => gone == sel
       case _ => false
  }

  ghost predicate BeingDropped(s: State, sel: Selector) {
    exists c :: Drops(s, c, sel)
  }

  // An expiry in memory is covered by the row; without one it has passed, unless the
  // entry is about to go.
  ghost predicate Covered(s: State, sel: Selector, session: int) {
    && sel in s.issued
    && if sel in s.rows then session <= s.rows[sel].expires else session < s.now || BeingDropped(s, sel)
  }

  // The copy is no older than any invalidation that did not spare its session.
  ghost predicate Current(past: set<Event>, sel: Selector, owner: User, version: nat) {
    forall e :: e in past && e.Invalidated? && owner in e.floor && e.keep != Some(sel) ==> e.floor[owner] <= version
  }

  ghost predicate Gone(past: set<Event>, sel: Selector) {
    exists e :: e in past && (e.Invalidated? || e.Dropped?) && sel in e.gone
  }

  predicate CopyOf(s: State, sel: Selector, owner: User, version: nat) {
    sel in s.issued && s.issued[sel] == owner && owner in s.users && version <= s.users[owner].version
  }

  ghost predicate RowsOk(s: State) {
    forall sel :: sel in s.rows ==> sel in s.issued && s.rows[sel].owner == s.issued[sel]
  }

  ghost predicate OwnersOk(s: State) {
    forall sel :: sel in s.issued ==> s.issued[sel] in s.users
  }

  ghost predicate HoldOk(s: State, past: set<Event>, sel: Selector, held: Held) {
    Covered(s, sel, held.session) && Current(past, sel, held.owner, held.version) && !Gone(past, sel)
  }

  ghost predicate EntryOk(s: State, past: set<Event>, sel: Selector, e: Entry) {
    CopyOf(s, sel, e.owner, e.version) && HoldOk(s, past, sel, Held(e.owner, e.version, e.session))
  }

  ghost predicate CacheOk(s: State, past: set<Event>) {
    forall sel :: sel in s.cache ==> EntryOk(s, past, sel, s.cache[sel])
  }

  ghost predicate CallOk(s: State, past: set<Event>, call: Call) {
    match call
    case Missed(_, _) => true
    case Loading(_, _, gen, _) => gen <= s.rev
    case Loaded(sel, now, gen, held) =>
      now < held.session && gen <= s.rev && CopyOf(s, sel, held.owner, held.version) && (gen == s.rev ==> HoldOk(s, past, sel, held))
    case Ready(sel, now, gen, held) =>
      now < held.session && gen <= s.rev && CopyOf(s, sel, held.owner, held.version) && (gen == s.rev ==> HoldOk(s, past, sel, held))
    case Mutated(hit, _) => hit <= s.users.Keys
    case Dropping(sel) => sel in s.issued
  }

  ghost predicate CallsOk(s: State, past: set<Event>) {
    forall c :: c in s.calls ==> CallOk(s, past, s.calls[c])
  }

  ghost predicate PastOk(s: State, past: set<Event>) {
    && (forall e, u :: e in past && e.Invalidated? && u in e.floor ==> u in s.users && e.floor[u] <= s.users[u].version)
    && (forall sel :: Gone(past, sel) ==> sel in s.issued && sel !in s.rows)
  }

  ghost predicate Inv(s: State, past: set<Event>) {
    RowsOk(s) && OwnersOk(s) && CacheOk(s, past) && CallsOk(s, past) && PastOk(s, past)
  }

  // A server that has just started.
  ghost predicate Start(s: State) {
    s.cache == map[] && s.calls == map[] && RowsOk(s) && OwnersOk(s)
  }
}
