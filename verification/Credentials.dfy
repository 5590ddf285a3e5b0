/**
 The credential state machine of internal/identity.

 The database is a value; every operation is cut into the reads and the one
 transaction (or single statement) its Go code performs, and each piece is one
 atomic action. A run is any sequence of actions, so all interleavings of any
 number of concurrent calls are covered. An action whose guard fails, like a
 call that returns an error, changes nothing but the call's own program counter.
 */
module Credentials {
  import opened Wrappers

  type UserId = nat
  type CallId = nat
  // The non-secret half of a one-time token or session token; also its row key.
  type Selector = nat
  // Google's stable "sub" identifier.
  type Subject = nat

  // The password_hash column: '' or a PHC string, of which only identity matters here.
  datatype PasswordHash = Empty | Phc(id: nat)

  /******* Rows *******/

  datatype AccountStatus = Pending | Active | Closed   // Closed: suspended or deleting

  datatype User = User(
    verified: bool, userActive: bool, account: AccountStatus,
    pwEnabled: bool, hash: PasswordHash, google: Option<Subject>, passkeys: set<nat>,
    gen: nat)
  {
    predicate HasWayIn() {
      (pwEnabled && hash.Phc?) || google.Some? || passkeys != {}
    }

    predicate MaySignIn() {
      verified && userActive && account.Active?
    }

    function Bumped(): User {
      this.(gen := gen + 1)
    }
  }

  datatype ResetToken = ResetToken(user: UserId, gen: nat)
  datatype ChangeToken = ChangeToken(user: UserId, keep: Option<Selector>)
  // gen is the generation the conditional INSERT of the row demanded.
  datatype SessionRow = SessionRow(user: UserId, gen: nat)

  // Token rows whose used_at is set are invisible to every read, so they are left out.
  datatype Db = Db(
    users: map<UserId, User>,
    resets: map<Selector, ResetToken>,
    changes: map<Selector, ChangeToken>,
    verifications: map<Selector, UserId>,
    sessions: map<Selector, SessionRow>,
    issued: set<Selector>,   // every selector ever drawn; random, so never drawn twice
    known: set<UserId>)      // every user id ever drawn

  // What a call in progress has read so far and will do next.
  datatype Call =
    | VerifyIssuing(user: UserId)
    | Verifying(user: UserId, token: Selector)
    | ResetIssuing(user: UserId, gen: nat)
    | ResetIssueReady(user: UserId, gen: nat)
    | Resetting(user: UserId, token: Selector, gen: nat)
    | ChangingPassword(user: UserId, keep: Selector)
    | ChangeReady(user: UserId, keep: Selector)
    | Confirming(user: UserId, token: Selector, spared: Option<Selector>)
    | LoginRead(user: UserId, gen: nat)
    | LoginReady(user: UserId, gen: nat, hash: Option<PasswordHash>)
    | Deleting(user: UserId, passkey: nat)
    | Toggling(user: UserId, spared: Option<Selector>, enabled: bool)
    | Linking(user: UserId, subject: Subject)
    | Relinking(user: UserId)
    | Unlinking(user: UserId)
    | Invalidating(user: UserId, locked: bool)
  {
    // The calls that hold authMethodsMu.
    predicate Locked() {
      Deleting? || Toggling? || Linking? || Relinking? || Unlinking? || (Invalidating? && locked)
    }
  }

  datatype State = State(db: Db, calls: map<CallId, Call>, lock: Option<CallId>)

  /******* Trace *******/

  // Which session rows the transaction that bumped the generation left behind.
  datatype Cut = Uncut | AllBut(keep: Option<Selector>)

  datatype Event =
    | Quiet
      // A credential change: gen is the value it set; hard when the same
      // transaction deleted the user's reset tokens.
    | Change(user: UserId, gen: nat, hard: bool, cut: Cut)
      // A committed password reset; also a hard change that cuts every session.
    | ResetDone(token: Selector, user: UserId, tokenGen: nat, gen: nat)
    | SessionInserted(session: Selector, user: UserId, gen: nat, hash: Option<PasswordHash>)
  {
    predicate Bumps(u: UserId) {
      (Change? || ResetDone?) && user == u
    }

    predicate Hard(u: UserId) {
      Bumps(u) && (ResetDone? || hard)
    }

    predicate Cuts(u: UserId) {
      Bumps(u) && (ResetDone? || cut.AllBut?)
    }

    predicate Keeps(sel: Selector) {
      Change? && cut.AllBut? && cut.keep == Some(sel)
    }
  }

  /******* SQL pieces *******/

  function SetUser(db: Db, u: UserId, row: User): Db {
    db.(users := db.users[u := row])
  }

  function WithoutResets(db: Db, u: UserId): Db {
    db.(resets := map t | t in db.resets && db.resets[t].user != u :: db.resets[t])
  }

  function WithoutChanges(db: Db, u: UserId): Db {
    db.(changes := map t | t in db.changes && db.changes[t].user != u :: db.changes[t])
  }

  function WithoutVerifications(db: Db, u: UserId): Db {
    db.(verifications := map t | t in db.verifications && db.verifications[t] != u :: db.verifications[t])
  }

  function WithoutSessions(db: Db, u: UserId, keep: Option<Selector>): Db {
    db.(sessions := map t | t in db.sessions && (db.sessions[t].user != u || keep == Some(t)) :: db.sessions[t])
  }

  // DELETE FROM users, with the ON DELETE CASCADE references.
  function WithoutUser(db: Db, u: UserId): Db {
    var d := WithoutSessions(WithoutVerifications(WithoutChanges(WithoutResets(db, u), u), u), u, None);
    d.(users := map v | v in d.users && v != u :: d.users[v])
  }

  function Draw(db: Db, sel: Selector): Db {
    db.(issued := db.issued + {sel})
  }

  /******* Actions *******/

  datatype Action =
      // CreateSignup, CreateGoogleSignup, EnsureLocalOperator
    | SignUp(u: UserId)
    | GoogleSignUp(u: UserId, subject: Subject)
    | OperatorInsert(u: UserId, hash: PasswordHash)
      // SyncLocalOperatorCredentials, BootstrapHostedCustomer on an existing operator row
    | OperatorSync(u: UserId, hash: PasswordHash)
    | BootstrapMigrate(u: UserId, hash: PasswordHash)
      // DeleteAccountIdentity and PrunePendingAccounts; SetAccountStatus
    | DeleteUser(u: UserId)
    | SetStatus(u: UserId, userActive: bool, account: AccountStatus)
      // IssueVerification, ConsumeVerification
    | VerifyIssueRead(c: CallId, u: UserId)
    | VerifyIssueCommit(c: CallId, sel: Selector)
    | VerifyRead(c: CallId, sel: Selector)
    | VerifyCommit(c: CallId, hash: PasswordHash)
      // IssuePasswordReset, ConsumePasswordReset
    | ResetIssueRead(c: CallId, u: UserId)
    | ResetIssueLinkRead(c: CallId)
    | ResetIssueCommit(c: CallId, sel: Selector)
    | ResetRead(c: CallId, sel: Selector)
    | ResetCommit(c: CallId, hash: PasswordHash)
      // changePassword
    | PasswordLinkRead(c: CallId, u: UserId, keep: Selector, confirmed: bool)
    | PasswordVerify(c: CallId, matches: bool)
    | PasswordCommit(c: CallId, hash: PasswordHash)
      // RevokeAllUserSessions
    | RevokeAll(c: CallId, u: UserId)
      // RequestEmailChange, ConfirmEmailChange
    | EmailRequest(u: UserId, keep: Selector, sel: Selector)
    | EmailRead(c: CallId, sel: Selector)
    | EmailCommit(c: CallId)
      // AuthenticatePassword (two reads), other sign-ins, CreateUserSession
    | PasswordLoginRead(c: CallId, u: UserId)
    | PasswordLoginVerify(c: CallId, matches: bool)
    | OtherLoginRead(c: CallId, u: UserId)
    | SessionInsert(c: CallId, sel: Selector)
    | DropSessions(gone: set<Selector>)
    | DropTokens(gone: set<Selector>)
      // addPasskey takes no lock
    | AddPasskey(u: UserId, passkey: nat)
      // DeletePasskey, SetPasswordSignInEnabled, LinkGoogleIdentity, UnlinkGoogleIdentity
    | PasskeyGuard(c: CallId, u: UserId, passkey: nat)
    | PasskeyCommit(c: CallId)
    | ToggleGuard(c: CallId, u: UserId, spared: Option<Selector>, enabled: bool)
    | ToggleCommit(c: CallId)
    | LinkGuard(c: CallId, u: UserId, subject: Subject)
    | LinkCommit(c: CallId)
    | UnlinkGuard(c: CallId, u: UserId)
    | UnlinkCommit(c: CallId)
      // InvalidateUser after a commit; any call may also fail at any point
    | InvalidateUser(c: CallId)
    | Abort(c: CallId)

  // What becomes of the call an action is a piece of: it never began or keeps its
  // program counter, moves on to (or begins at) another, or returns.
  datatype Next = Stay | Goto(call: Call) | Return

  datatype Outcome = Outcome(db: Db, next: Next, event: Event)

  function Quietly(db: Db, next: Next): Outcome {
    Outcome(db, next, Quiet)
  }

  predicate Linked(db: Db, subject: Subject) {
    exists u :: u in db.users && db.users[u].google == Some(subject)
  }

  /** Whether an action is enabled: the program counter it continues from, a free
      call id or lock to begin with, fresh random identifiers, and rows to read. */
  predicate Enabled(s: State, a: Action) {
    match a
    case SignUp(u) => u !in s.db.known
    case GoogleSignUp(u, subject) => u !in s.db.known && !Linked(s.db, subject)
    case OperatorInsert(u, hash) => u !in s.db.known && hash.Phc?
    case OperatorSync(u, hash) => u in s.db.users && hash.Phc?
    case BootstrapMigrate(u, hash) => u in s.db.users && hash.Phc?
    case DeleteUser(u) => u in s.db.users
    case SetStatus(u, _, _) => u in s.db.users
    case VerifyIssueRead(c, u) => c !in s.calls && u in s.db.users && !s.db.users[u].verified
    case VerifyIssueCommit(c, sel) => c in s.calls && s.calls[c].VerifyIssuing? && sel !in s.db.issued
                                      && s.calls[c].user in s.db.users
    case VerifyRead(c, sel) => c !in s.calls && sel in s.db.verifications
    case VerifyCommit(c, hash) => c in s.calls && s.calls[c].Verifying? && hash.Phc?
    case ResetIssueRead(c, u) => c !in s.calls && u in s.db.users
    case ResetIssueLinkRead(c) => c in s.calls && s.calls[c].ResetIssuing?
    case ResetIssueCommit(c, sel) => c in s.calls && s.calls[c].ResetIssueReady? && sel !in s.db.issued
                                     && s.calls[c].user in s.db.users
    case ResetRead(c, sel) => c !in s.calls && sel in s.db.resets && s.db.resets[sel].user in s.db.users
    case ResetCommit(c, hash) => c in s.calls && s.calls[c].Resetting? && hash.Phc?
    case PasswordLinkRead(c, u, _, _) => c !in s.calls && u in s.db.users
    case PasswordVerify(c, _) => c in s.calls && s.calls[c].ChangingPassword?
    case PasswordCommit(c, hash) => c in s.calls && s.calls[c].ChangeReady? && hash.Phc?
    case RevokeAll(c, u) => c !in s.calls && u in s.db.users
      // The handler has authenticated a session of u, so u is verified (SessionOwnerIsVerified).
    case EmailRequest(u, _, sel) => u in s.db.users && s.db.users[u].verified && sel !in s.db.issued
    case EmailRead(c, sel) => c !in s.calls && sel in s.db.changes
    case EmailCommit(c) => c in s.calls && s.calls[c].Confirming?
    case PasswordLoginRead(c, u) => c !in s.calls && u in s.db.users
    case PasswordLoginVerify(c, _) => c in s.calls && s.calls[c].LoginRead?
    case OtherLoginRead(c, u) => c !in s.calls && u in s.db.users
    case SessionInsert(c, sel) => c in s.calls && s.calls[c].LoginReady? && sel !in s.db.issued
    case DropSessions(_) => true
    case DropTokens(_) => true
    case AddPasskey(u, _) => u in s.db.users
    case PasskeyGuard(c, u, _) => c !in s.calls && s.lock == None && u in s.db.users
    case PasskeyCommit(c) => c in s.calls && s.calls[c].Deleting?
    case ToggleGuard(c, u, _, _) => c !in s.calls && s.lock == None && u in s.db.users
    case ToggleCommit(c) => c in s.calls && s.calls[c].Toggling?
    case LinkGuard(c, u, subject) => c !in s.calls && s.lock == None && u in s.db.users
    case LinkCommit(c) => c in s.calls && (s.calls[c].Linking? || s.calls[c].Relinking?)
    case UnlinkGuard(c, u) => c !in s.calls && s.lock == None && u in s.db.users
    case UnlinkCommit(c) => c in s.calls && s.calls[c].Unlinking?
    case InvalidateUser(c) => c in s.calls && s.calls[c].Invalidating?
    case Abort(c) => c in s.calls
  }

  /******* Effects *******/

  function Fresh(verified: bool, pw: bool, hash: PasswordHash, google: Option<Subject>): User {
    User(verified, true, if verified then Active else Pending, pw, hash, google, {}, 0)
  }

  function Insert(db: Db, u: UserId, row: User): Db {
    SetUser(db, u, row).(known := db.known + {u})
  }

  function ConsumeVerification(s: State, c: CallId, hash: PasswordHash): Outcome
    requires c in s.calls && s.calls[c].Verifying?
  {
    var Verifying(u, t) := s.calls[c];
    if t !in s.db.verifications || u !in s.db.users || s.db.users[u].verified then
      Quietly(s.db, Return)
    else
      var row := s.db.users[u].Bumped().(verified := true, hash := hash, pwEnabled := true,
        account := if s.db.users[u].account.Pending? then Active else s.db.users[u].account);
      var db := SetUser(s.db, u, row).(verifications := s.db.verifications - {t});
      Outcome(db, Return, Change(u, row.gen, false, Uncut))
  }

  function ConsumeReset(s: State, c: CallId, hash: PasswordHash): Outcome
    requires c in s.calls && s.calls[c].Resetting?
  {
    var Resetting(u, t, g) := s.calls[c];
    if t !in s.db.resets || u !in s.db.users || s.db.users[u].google.Some? then
      Quietly(s.db, Return)
    else
      var row := s.db.users[u].Bumped().(hash := hash, pwEnabled := true);
      var db := SetUser(s.db, u, row).(resets := s.db.resets - {t});
      Outcome(WithoutChanges(WithoutResets(WithoutSessions(db, u, None), u), u), Goto(Invalidating(u, false)), ResetDone(t, u, g, row.gen))
  }

  function ChangePassword(s: State, c: CallId, hash: PasswordHash): Outcome
    requires c in s.calls && s.calls[c].ChangeReady?
  {
    var ChangeReady(u, keep) := s.calls[c];
    if u !in s.db.users then
      Quietly(s.db, Return)
    else
      var row := s.db.users[u].Bumped().(hash := hash, pwEnabled := true);
      var db := WithoutChanges(WithoutResets(WithoutSessions(SetUser(s.db, u, row), u, Some(keep)), u), u);
      Outcome(db, Return, Change(u, row.gen, true, AllBut(Some(keep))))
  }

  function RevokeSessions(s: State, c: CallId, u: UserId): Outcome
    requires u in s.db.users
  {
    var row := s.db.users[u].Bumped();
    var db := WithoutResets(WithoutSessions(SetUser(s.db, u, row), u, None), u);
    Outcome(db, Goto(Invalidating(u, false)), Change(u, row.gen, true, AllBut(None)))
  }

  function ConfirmEmail(s: State, c: CallId): Outcome
    requires c in s.calls && s.calls[c].Confirming?
  {
    var Confirming(u, t, keep) := s.calls[c];
    if t !in s.db.changes || u !in s.db.users then
      Quietly(s.db, Return)
    else
      var row := s.db.users[u].Bumped().(verified := true);
      var db := SetUser(s.db, u, row).(changes := s.db.changes - {t});
      Outcome(WithoutSessions(WithoutResets(WithoutChanges(db, u), u), u, keep), Return, Change(u, row.gen, true, AllBut(keep)))
  }

  // The INSERT is conditional on the generation the user snapshot carries.
  function InsertSession(s: State, c: CallId, sel: Selector): Outcome
    requires c in s.calls && s.calls[c].LoginReady?
  {
    var LoginReady(u, g, h) := s.calls[c];
    if u in s.db.users && s.db.users[u].gen == g && s.db.users[u].MaySignIn() then
      var db := Draw(s.db, sel).(sessions := s.db.sessions[sel := SessionRow(u, g)]);
      Outcome(db, Return, SessionInserted(sel, u, g, h))
    else
      Quietly(Draw(s.db, sel), Return)
  }

  // Another way in is left.
  predicate PasskeyMayGo(u: User) {
    u.pwEnabled || u.google.Some? || |u.passkeys| > 1
  }

  function DeletePasskey(s: State, c: CallId): Outcome
    requires c in s.calls && s.calls[c].Deleting?
  {
    var Deleting(u, p) := s.calls[c];
    if u !in s.db.users then
      Quietly(s.db, Return)
    else
      var row := s.db.users[u].(passkeys := s.db.users[u].passkeys - {p});
      Quietly(SetUser(s.db, u, row), Return)
  }

  predicate ToggleMayGo(u: User, enabled: bool) {
    if enabled then u.google.None? else u.passkeys != {}
  }

  function TogglePassword(s: State, c: CallId): Outcome
    requires c in s.calls && s.calls[c].Toggling?
  {
    var Toggling(u, keep, enabled) := s.calls[c];
    if u !in s.db.users then
      Quietly(s.db, Return)
    else
      var row := s.db.users[u].Bumped().(pwEnabled := enabled);
      var db := WithoutSessions(SetUser(s.db, u, row), u, keep);
      Outcome(db, if keep.Some? then Return else Goto(Invalidating(u, true)), Change(u, row.gen, false, AllBut(keep)))
  }

  // Linking inserts the identity row; re-linking finds it there. Both then turn
  // password sign-in off, bump the generation and delete the reset tokens.
  function LinkGoogle(s: State, c: CallId): Outcome
    requires c in s.calls && (s.calls[c].Linking? || s.calls[c].Relinking?)
  {
    var call := s.calls[c];
    var u := call.user;
    if u !in s.db.users then
      Quietly(s.db, Return)
    else
      var prior := s.db.users[u];
      if call.Linking? && (!prior.MaySignIn() || prior.google.Some? || Linked(s.db, call.subject)) then
        Quietly(s.db, Return)
      else
        var row := prior.Bumped().(pwEnabled := false,
          google := if call.Linking? then Some(call.subject) else prior.google);
        var db := WithoutResets(SetUser(s.db, u, row), u);
        Outcome(db, Goto(Invalidating(u, true)), Change(u, row.gen, true, Uncut))
  }

  function UnlinkGoogle(s: State, c: CallId): Outcome
    requires c in s.calls && s.calls[c].Unlinking?
  {
    var u := s.calls[c].user;
    if u !in s.db.users || s.db.users[u].google.None? then
      Quietly(s.db, Return)
    else
      var prior := s.db.users[u];
      var row := prior.Bumped().(google := None, pwEnabled := prior.hash.Phc?);
      Outcome(SetUser(s.db, u, row), Goto(Invalidating(u, true)), Change(u, row.gen, false, Uncut))
  }

  /** What one enabled action does to the database and to its own call. */
  function Effect(s: State, a: Action): Outcome
    requires Enabled(s, a)
  {
    match a
    case SignUp(u) => Quietly(Insert(s.db, u, Fresh(false, false, Empty, None)), Stay)
    case GoogleSignUp(u, subject) => Quietly(Insert(s.db, u, Fresh(true, false, Empty, Some(subject))), Stay)
    case OperatorInsert(u, hash) => Quietly(Insert(s.db, u, Fresh(true, true, hash, None)), Stay)
    case OperatorSync(u, hash) =>
      var row := s.db.users[u].Bumped().(hash := hash);
      Outcome(SetUser(s.db, u, row), Stay, Change(u, row.gen, false, Uncut))
    case BootstrapMigrate(u, hash) =>
      var row := s.db.users[u].Bumped().(hash := hash, pwEnabled := true, verified := true, userActive := true);
      Outcome(SetUser(s.db, u, row), Stay, Change(u, row.gen, false, Uncut))
    case DeleteUser(u) => Quietly(WithoutUser(s.db, u), Stay)
    case SetStatus(u, userActive, account) =>
      Quietly(SetUser(s.db, u, s.db.users[u].(userActive := userActive, account := account)), Stay)
    case VerifyIssueRead(c, u) => Quietly(s.db, Goto(VerifyIssuing(u)))
    case VerifyIssueCommit(c, sel) =>
      var u := s.calls[c].user;
      var db := Draw(WithoutVerifications(s.db, u), sel);
      Quietly(db.(verifications := db.verifications[sel := u]), Return)
    case VerifyRead(c, sel) => Quietly(s.db, Goto(Verifying(s.db.verifications[sel], sel)))
    case VerifyCommit(c, hash) => ConsumeVerification(s, c, hash)
    case ResetIssueRead(c, u) => Quietly(s.db, Goto(ResetIssuing(u, s.db.users[u].gen)))
    case ResetIssueLinkRead(c) =>
      var ResetIssuing(u, g) := s.calls[c];
      Quietly(s.db, if u in s.db.users && s.db.users[u].google.Some? then Return else Goto(ResetIssueReady(u, g)))
    case ResetIssueCommit(c, sel) =>
      var ResetIssueReady(u, g) := s.calls[c];
      var db := Draw(WithoutResets(s.db, u), sel);
      Quietly(db.(resets := db.resets[sel := ResetToken(u, g)]), Return)
    case ResetRead(c, sel) =>
      var ResetToken(u, g) := s.db.resets[sel];
      Quietly(s.db, if g == s.db.users[u].gen then Goto(Resetting(u, sel, g)) else Stay)
    case ResetCommit(c, hash) => ConsumeReset(s, c, hash)
    case PasswordLinkRead(c, u, keep, confirmed) =>
      Quietly(s.db,
        if s.db.users[u].google.Some? then Stay
        else if confirmed then Goto(ChangeReady(u, keep)) else Goto(ChangingPassword(u, keep)))
    case PasswordVerify(c, matches) =>
      var ChangingPassword(u, keep) := s.calls[c];
      Quietly(s.db, if u in s.db.users && s.db.users[u].pwEnabled && matches then Goto(ChangeReady(u, keep)) else Return)
    case PasswordCommit(c, hash) => ChangePassword(s, c, hash)
    case RevokeAll(c, u) => RevokeSessions(s, c, u)
    case EmailRequest(u, keep, sel) =>
      var db := Draw(WithoutChanges(s.db, u), sel);
      Quietly(db.(changes := db.changes[sel := ChangeToken(u, Some(keep))]), Stay)
    case EmailRead(c, sel) =>
      Quietly(s.db, Goto(Confirming(s.db.changes[sel].user, sel, s.db.changes[sel].keep)))
    case EmailCommit(c) => ConfirmEmail(s, c)
    case PasswordLoginRead(c, u) =>
      Quietly(s.db,
        if s.db.users[u].pwEnabled && s.db.users[u].MaySignIn() then Goto(LoginRead(u, s.db.users[u].gen)) else Stay)
    case PasswordLoginVerify(c, matches) =>
      var LoginRead(u, g) := s.calls[c];
      Quietly(s.db,
        if u in s.db.users && s.db.users[u].pwEnabled && matches then Goto(LoginReady(u, g, Some(s.db.users[u].hash)))
        else Return)
    case OtherLoginRead(c, u) =>
      Quietly(s.db, if s.db.users[u].MaySignIn() then Goto(LoginReady(u, s.db.users[u].gen, None)) else Stay)
    case SessionInsert(c, sel) => InsertSession(s, c, sel)
    case DropSessions(gone) => Quietly(s.db.(sessions := s.db.sessions - gone), Stay)
    case DropTokens(gone) =>
      Quietly(s.db.(resets := s.db.resets - gone, changes := s.db.changes - gone,
                    verifications := s.db.verifications - gone), Stay)
    case AddPasskey(u, p) =>
      Quietly(SetUser(s.db, u, s.db.users[u].(passkeys := s.db.users[u].passkeys + {p})), Stay)
    case PasskeyGuard(c, u, p) =>
      Quietly(s.db, if PasskeyMayGo(s.db.users[u]) then Goto(Deleting(u, p)) else Stay)
    case PasskeyCommit(c) => DeletePasskey(s, c)
    case ToggleGuard(c, u, keep, enabled) =>
      Quietly(s.db, if ToggleMayGo(s.db.users[u], enabled) then Goto(Toggling(u, keep, enabled)) else Stay)
    case ToggleCommit(c) => TogglePassword(s, c)
    case LinkGuard(c, u, subject) =>
      Quietly(s.db,
        if s.db.users[u].google == Some(subject) then Goto(Relinking(u))
        else if Linked(s.db, subject) then Stay else Goto(Linking(u, subject)))
    case LinkCommit(c) => LinkGoogle(s, c)
    case UnlinkGuard(c, u) => Quietly(s.db, if s.db.users[u].hash.Phc? then Goto(Unlinking(u)) else Stay)
    case UnlinkCommit(c) => UnlinkGoogle(s, c)
    case InvalidateUser(c) => Quietly(WithoutSessions(s.db, s.calls[c].user, None), Return)
    case Abort(c) => Quietly(s.db, Return)
  }

  // The one call an action is a piece of.
  function Actor(a: Action): Option<CallId> {
    match a
    case VerifyIssueRead(c, _) => Some(c)
    case VerifyIssueCommit(c, _) => Some(c)
    case VerifyRead(c, _) => Some(c)
    case VerifyCommit(c, _) => Some(c)
    case ResetIssueRead(c, _) => Some(c)
    case ResetIssueLinkRead(c) => Some(c)
    case ResetIssueCommit(c, _) => Some(c)
    case ResetRead(c, _) => Some(c)
    case ResetCommit(c, _) => Some(c)
    case PasswordLinkRead(c, _, _, _) => Some(c)
    case PasswordVerify(c, _) => Some(c)
    case PasswordCommit(c, _) => Some(c)
    case RevokeAll(c, _) => Some(c)
    case EmailRead(c, _) => Some(c)
    case EmailCommit(c) => Some(c)
    case PasswordLoginRead(c, _) => Some(c)
    case PasswordLoginVerify(c, _) => Some(c)
    case OtherLoginRead(c, _) => Some(c)
    case SessionInsert(c, _) => Some(c)
    case PasskeyGuard(c, _, _) => Some(c)
    case PasskeyCommit(c) => Some(c)
    case ToggleGuard(c, _, _, _) => Some(c)
    case ToggleCommit(c) => Some(c)
    case LinkGuard(c, _, _) => Some(c)
    case LinkCommit(c) => Some(c)
    case UnlinkGuard(c, _) => Some(c)
    case UnlinkCommit(c) => Some(c)
    case InvalidateUser(c) => Some(c)
    case Abort(c) => Some(c)
    case _ => None
  }

  // The lock is held exactly through the program counters that Locked() names.
  function Advance(s: State, c: CallId, o: Outcome): State {
    var released := if s.lock == Some(c) then None else s.lock;
    match o.next
    case Stay => s.(db := o.db)
    case Goto(call) => State(o.db, s.calls[c := call], if call.Locked() then Some(c) else released)
    case Return => State(o.db, s.calls - {c}, released)
  }

  /** One atomic action; an action that is not enabled leaves the state alone. */
  function Step(s: State, a: Action): (State, Event) {
    if !Enabled(s, a) then (s, Quiet)
    else
      var o := Effect(s, a);
      (if Actor(a).Some? then Advance(s, Actor(a).value, o) else s.(db := o.db), o.event)
  }

  /******* Runs *******/

  function Run(s: State, acts: seq<Action>): State {
    if acts == [] then s else Step(Run(s, acts[..|acts| - 1]), acts[|acts| - 1]).0
  }

  function Trace(s: State, acts: seq<Action>): (tr: seq<Event>)
    ensures |tr| == |acts|
  {
    if acts == [] then []
    else
      var prefix := acts[..|acts| - 1];
      Trace(s, prefix) + [Step(Run(s, prefix), acts[|acts| - 1]).1]
  }
}
