/**
 What every interleaving of the credential operations keeps, and what follows
 for whole runs. The invariant speaks of the database, of each call's program
 counter, and of the events that have already happened.
 */
module CredentialProofs {
  import opened Wrappers
  import opened Sets
  import opened Credentials

  /******* Invariant *******/

  ghost predicate KnownOk(db: Db) {
    db.users.Keys <= db.known
  }

  ghost predicate ResetsOk(db: Db) {
    forall t :: t in db.resets ==>
      t in db.issued && db.resets[t].user in db.users && db.resets[t].gen <= db.users[db.resets[t].user].gen
  }

  ghost predicate ChangesOk(db: Db) {
    forall t :: t in db.changes ==>
      t in db.issued && db.changes[t].user in db.users && db.users[db.changes[t].user].verified
  }

  ghost predicate VerificationsOk(db: Db) {
    forall t :: t in db.verifications ==> t in db.issued && db.verifications[t] in db.users
  }

  ghost predicate SessionsOk(db: Db) {
    forall t :: t in db.sessions ==>
      && t in db.issued && db.sessions[t].user in db.users
      && db.users[db.sessions[t].user].verified && db.sessions[t].gen <= db.users[db.sessions[t].user].gen
  }

  // HasWayIn is the promise; the other two clauses make it inductive.
  predicate UserOk(u: User) {
    u.verified ==> u.HasWayIn() && (u.hash.Phc? || u.google.Some?) && (u.pwEnabled ==> u.hash.Phc?)
  }

  ghost predicate UsersOk(db: Db) {
    forall u :: u in db.users ==> UserOk(db.users[u])
  }

  ghost predicate DbOk(db: Db) {
    KnownOk(db) && UsersOk(db) && ResetsOk(db) && ChangesOk(db) && VerificationsOk(db) && SessionsOk(db)
  }

  // What a call has read of its user's row, as far as it is going to rely on it.
  predicate Remembers(row: User, call: Call) {
    match call
    case ResetIssuing(_, g) => g <= row.gen
    case ResetIssueReady(_, g) => g <= row.gen
    case LoginRead(_, g) => g <= row.gen
    case LoginReady(_, g, h) => g <= row.gen && (h.Some? && g == row.gen ==> row.pwEnabled && row.hash == h.value)
    case Deleting(_, p) => row.pwEnabled || row.google.Some? || exists q :: q in row.passkeys && q != p
    case Toggling(_, _, enabled) => ToggleMayGo(row, enabled)
    case Relinking(_) => row.google.Some?
    case Unlinking(_) => row.hash.Phc?
    case _ => true
  }

  // A token the call has read is gone, or still the row it read.
  predicate TokenStays(db: Db, call: Call) {
    match call
    case Resetting(u, t, g) => t in db.issued && (t in db.resets ==> db.resets[t] == ResetToken(u, g))
    case Confirming(u, t, keep) => t in db.issued && (t in db.changes ==> db.changes[t] == ChangeToken(u, keep))
    case _ => true
  }

  ghost predicate CallOk(db: Db, call: Call) {
    && call.user in db.known
    && (call.user in db.users ==> Remembers(db.users[call.user], call))
    && TokenStays(db, call)
  }

  ghost predicate CallsOk(s: State) {
    forall c :: c in s.calls ==> CallOk(s.db, s.calls[c])
  }

  // Mutual exclusion.
  ghost predicate LockOk(s: State) {
    forall c :: c in s.calls && s.calls[c].Locked() ==> s.lock == Some(c)
  }

  ghost predicate ChangePast(db: Db, e: Event) {
    e.Change? || e.ResetDone? ==> e.user in db.known && (e.user in db.users ==> e.gen <= db.users[e.user].gen)
  }

  // A consumer that can still commit read its token after every hard change so far.
  ghost predicate ConsumerPast(db: Db, call: Call, e: Event) {
    call.Resetting? && call.token in db.resets && e.Hard(call.user) ==> e.gen <= call.gen
  }

  ghost predicate ResetPast(db: Db, e: Event) {
    e.ResetDone? ==> e.token in db.issued && e.token !in db.resets
  }

  ghost predicate InsertPast(db: Db, e: Event) {
    e.SessionInserted? ==>
      && e.session in db.issued && e.user in db.known
      && (e.user in db.users ==> e.gen <= db.users[e.user].gen)
      && (e.session in db.sessions ==> db.sessions[e.session] == SessionRow(e.user, e.gen))
  }

  // A session row is the one a cut spared, or newer than the cut.
  ghost predicate SessionPast(db: Db, t: Selector, e: Event) {
    t in db.sessions && e.Cuts(db.sessions[t].user) && !e.Keeps(t) ==> e.gen <= db.sessions[t].gen
  }

  ghost predicate EventPast(db: Db, e: Event) {
    && ChangePast(db, e) && ResetPast(db, e) && InsertPast(db, e)
    && forall t :: t in db.sessions ==> SessionPast(db, t, e)
  }

  ghost predicate DbPast(db: Db, past: set<Event>) {
    forall e :: e in past ==> EventPast(db, e)
  }

  ghost predicate CallsPast(s: State, past: set<Event>) {
    forall e, c :: e in past && c in s.calls ==> ConsumerPast(s.db, s.calls[c], e)
  }

  ghost predicate Inv(s: State, past: set<Event>) {
    DbOk(s.db) && CallsOk(s) && LockOk(s) && DbPast(s.db, past) && CallsPast(s, past)
  }

  // A server that has just started on any consistent database.
  ghost predicate Start(s: State) {
    s.calls == map[] && s.lock == None && DbOk(s.db)
  }

  /******* How one action may move the database *******/

  // held: the actor holds authMethodsMu. Without it no sign-in method is taken away.
  predicate RowMoves(o: User, n: User, bumped: bool, held: bool) {
    && n.gen == o.gen + (if bumped then 1 else 0)
    && (!bumped ==> n.hash == o.hash && n.pwEnabled == o.pwEnabled)
    && (o.verified ==> n.verified)
    && (o.hash.Phc? ==> n.hash.Phc?)
    && (!held ==> n.google == o.google && o.passkeys <= n.passkeys && (o.pwEnabled ==> n.pwEnabled))
  }

  ghost predicate UsersMove(db: Db, d: Db, e: Event, held: bool) {
    && db.known <= d.known
    && (forall u :: u in d.users && u in db.users ==> RowMoves(db.users[u], d.users[u], e.Bumps(u), held))
    && (forall u :: u in d.users && u !in db.users ==> u !in db.known && d.users[u].gen == 0 && !e.Bumps(u))
  }

  // Token and session rows of d are old rows, or new ones under a selector never drawn before.
  ghost predicate ResetsMove(db: Db, d: Db, e: Event) {
    forall t :: t in d.resets ==>
      && d.resets[t].user in d.users
      && if t in db.resets then d.resets[t] == db.resets[t] && !e.Hard(d.resets[t].user)
         else t in d.issued && t !in db.issued && d.resets[t].gen <= d.users[d.resets[t].user].gen
  }

  ghost predicate ChangesMove(db: Db, d: Db) {
    forall t :: t in d.changes ==>
      && d.changes[t].user in d.users
      && if t in db.changes then d.changes[t] == db.changes[t]
         else t in d.issued && t !in db.issued && d.users[d.changes[t].user].verified
  }

  ghost predicate VerificationsMove(db: Db, d: Db) {
    forall t :: t in d.verifications ==>
      && d.verifications[t] in d.users
      && if t in db.verifications then d.verifications[t] == db.verifications[t]
         else t in d.issued && t !in db.issued
  }

  ghost predicate SessionsMove(db: Db, d: Db, e: Event) {
    forall t :: t in d.sessions ==>
      && d.sessions[t].user in d.users
      && if t in db.sessions then d.sessions[t] == db.sessions[t] && (e.Cuts(d.sessions[t].user) ==> e.Keeps(t))
         else
           && t in d.issued && t !in db.issued && e.SessionInserted? && e.session == t
           && d.users[d.sessions[t].user].verified && d.sessions[t].gen == d.users[d.sessions[t].user].gen
  }

  // What an event says about the two databases around it.
  ghost predicate EventOk(db: Db, d: Db, e: Event) {
    match e
    case Quiet => true
    case Change(u, g, _, _) => u in db.users && u in d.users && g == d.users[u].gen
    case ResetDone(t, u, _, g) =>
      && u in db.users && u in d.users && g == d.users[u].gen
      && t in db.issued && t !in d.resets
    case SessionInserted(t, u, g, _) =>
      && u in db.users && u in d.users && g == d.users[u].gen
      && t in d.issued && t !in db.issued && t in d.sessions && d.sessions[t] == SessionRow(u, g)
  }

  ghost predicate Moves(db: Db, d: Db, e: Event, held: bool) {
    && db.issued <= d.issued
    && KnownOk(d) && UsersOk(d)
    && UsersMove(db, d, e, held) && ResetsMove(db, d, e) && ChangesMove(db, d) && VerificationsMove(db, d)
    && SessionsMove(db, d, e) && EventOk(db, d, e)
  }

  lemma MovesKeepDb(db: Db, d: Db, e: Event, held: bool)
    requires DbOk(db) && Moves(db, d, e, held)
    ensures DbOk(d)
  {
    assert ResetsOk(d);
    assert ChangesOk(d);
    assert VerificationsOk(d);
    assert SessionsOk(d);
  }

  lemma RowMovesKeepMemory(o: User, n: User, bumped: bool, held: bool, call: Call)
    requires RowMoves(o, n, bumped, held) && Remembers(o, call)
    requires !held || !call.Locked()
    ensures Remembers(n, call)
  {
  }

  // Rely: a call is not disturbed by anyone else, unless both hold the lock.
  lemma MovesKeepCall(db: Db, d: Db, e: Event, held: bool, call: Call)
    requires DbOk(db) && Moves(db, d, e, held) && CallOk(db, call)
    requires !held || !call.Locked()
    ensures CallOk(d, call)
  {
    var u := call.user;
    if u in d.users && u in db.users {
      RowMovesKeepMemory(db.users[u], d.users[u], e.Bumps(u), held, call);
    }
  }

  lemma MovesKeepSessionPast(db: Db, d: Db, e: Event, held: bool, f: Event, t: Selector)
    requires DbOk(db) && Moves(db, d, e, held) && t in d.sessions
    requires ChangePast(db, f) && (t in db.sessions ==> SessionPast(db, t, f))
    ensures SessionPast(d, t, f)
  {
  }

  lemma MovesKeepEventPast(db: Db, d: Db, e: Event, held: bool, f: Event)
    requires DbOk(db) && Moves(db, d, e, held) && EventPast(db, f)
    ensures EventPast(d, f)
  {
    assert ChangePast(d, f) && ResetPast(d, f) && InsertPast(d, f);
    forall t | t in d.sessions
      ensures SessionPast(d, t, f)
    {
      MovesKeepSessionPast(db, d, e, held, f, t);
    }
  }

  lemma NewEventPast(db: Db, d: Db, e: Event, held: bool)
    requires DbOk(db) && Moves(db, d, e, held)
    ensures EventPast(d, e)
  {
    assert ChangePast(d, e) && ResetPast(d, e) && InsertPast(d, e);
  }

  lemma MovesKeepPast(db: Db, d: Db, e: Event, held: bool, past: set<Event>)
    requires DbOk(db) && Moves(db, d, e, held) && DbPast(db, past)
    ensures DbPast(d, past + {e})
  {
    NewEventPast(db, d, e, held);
    forall f | f in past
      ensures EventPast(d, f)
    {
      MovesKeepEventPast(db, d, e, held, f);
    }
  }

  /******* Guarantee: what each action does *******/

  // The actions taken by a call that holds authMethodsMu.
  predicate Holds(a: Action) {
    a.PasskeyCommit? || a.ToggleCommit? || a.LinkCommit? || a.UnlinkCommit?
  }

  lemma SignUpMoves(s: State, a: Action)
    requires DbOk(s.db) && Enabled(s, a)
    requires a.SignUp? || a.GoogleSignUp? || a.OperatorInsert?
    ensures Moves(s.db, Effect(s, a).db, Effect(s, a).event, false)
  {
  }

  lemma AccountRowMoves(s: State, a: Action)
    requires DbOk(s.db) && Enabled(s, a)
    requires a.SetStatus? || a.AddPasskey?
    ensures Moves(s.db, Effect(s, a).db, Effect(s, a).event, false)
  {
  }

  lemma OperatorMoves(s: State, a: Action)
    requires DbOk(s.db) && Enabled(s, a)
    requires a.OperatorSync? || a.BootstrapMigrate?
    ensures Moves(s.db, Effect(s, a).db, Effect(s, a).event, false)
  {
  }

  lemma DeletionMoves(s: State, a: Action)
    requires DbOk(s.db) && Enabled(s, a)
    requires a.DeleteUser? || a.DropSessions? || a.DropTokens? || a.InvalidateUser?
    ensures Moves(s.db, Effect(s, a).db, Effect(s, a).event, false)
  {
  }

  lemma IssueMoves(s: State, a: Action)
    requires DbOk(s.db) && CallsOk(s) && Enabled(s, a)
    requires a.VerifyIssueCommit? || a.ResetIssueCommit? || a.EmailRequest?
    ensures Moves(s.db, Effect(s, a).db, Effect(s, a).event, false)
  {
  }

  lemma InsertSessionSessions(s: State, c: CallId, sel: Selector)
    requires DbOk(s.db) && c in s.calls && s.calls[c].LoginReady? && sel !in s.db.issued
    ensures var o := InsertSession(s, c, sel); SessionsMove(s.db, o.db, o.event) && EventOk(s.db, o.db, o.event)
  {
    var d := InsertSession(s, c, sel).db;
    assert d.users == s.db.users && sel !in s.db.sessions;
    forall t | t in s.db.sessions
      ensures t in d.sessions && d.sessions[t] == s.db.sessions[t]
    {
    }
  }

  // Only session rows and drawn selectors differ.
  lemma SessionRowsMove(db: Db, d: Db, e: Event)
    requires DbOk(db) && d == db.(sessions := d.sessions, issued := d.issued) && db.issued <= d.issued
    requires SessionsMove(db, d, e) && EventOk(db, d, e) && !e.Change? && !e.ResetDone?
    ensures Moves(db, d, e, false)
  {
  }

  lemma InsertSessionMoves(s: State, c: CallId, sel: Selector)
    requires DbOk(s.db) && CallsOk(s) && c in s.calls && s.calls[c].LoginReady? && sel !in s.db.issued
    ensures Moves(s.db, InsertSession(s, c, sel).db, InsertSession(s, c, sel).event, false)
  {
    hide DbOk;
    hide CallsOk;
    hide Moves;
    hide SessionsMove;
    hide EventOk;
    InsertSessionSessions(s, c, sel);
    SessionRowsMove(s.db, InsertSession(s, c, sel).db, InsertSession(s, c, sel).event);
  }

  lemma SessionInsertMoves(s: State, a: Action)
    requires DbOk(s.db) && CallsOk(s) && Enabled(s, a)
    requires a.SessionInsert?
    ensures Moves(s.db, Effect(s, a).db, Effect(s, a).event, false)
  {
    hide Moves;
    hide InsertSession;
    InsertSessionMoves(s, a.c, a.sel);
  }

  lemma ConsumeVerificationMoves(s: State, c: CallId, hash: PasswordHash)
    requires DbOk(s.db) && CallsOk(s) && c in s.calls && s.calls[c].Verifying? && hash.Phc?
    ensures Moves(s.db, ConsumeVerification(s, c, hash).db, ConsumeVerification(s, c, hash).event, false)
  {
  }

  lemma VerifyCommitMoves(s: State, a: Action)
    requires DbOk(s.db) && CallsOk(s) && Enabled(s, a)
    requires a.VerifyCommit?
    ensures Moves(s.db, Effect(s, a).db, Effect(s, a).event, false)
  {
    hide Moves;
    hide ConsumeVerification;
    ConsumeVerificationMoves(s, a.c, a.hash);
  }

  lemma ConsumeResetMoves(s: State, c: CallId, hash: PasswordHash)
    requires DbOk(s.db) && CallsOk(s) && c in s.calls && s.calls[c].Resetting? && hash.Phc?
    ensures Moves(s.db, ConsumeReset(s, c, hash).db, ConsumeReset(s, c, hash).event, false)
  {
  }

  lemma ResetCommitMoves(s: State, a: Action)
    requires DbOk(s.db) && CallsOk(s) && Enabled(s, a)
    requires a.ResetCommit?
    ensures Moves(s.db, Effect(s, a).db, Effect(s, a).event, false)
  {
    hide Moves;
    hide ConsumeReset;
    ConsumeResetMoves(s, a.c, a.hash);
  }

  lemma ChangePasswordMoves(s: State, c: CallId, hash: PasswordHash)
    requires DbOk(s.db) && CallsOk(s) && c in s.calls && s.calls[c].ChangeReady? && hash.Phc?
    ensures Moves(s.db, ChangePassword(s, c, hash).db, ChangePassword(s, c, hash).event, false)
  {
  }

  lemma PasswordCommitMoves(s: State, a: Action)
    requires DbOk(s.db) && CallsOk(s) && Enabled(s, a)
    requires a.PasswordCommit?
    ensures Moves(s.db, Effect(s, a).db, Effect(s, a).event, false)
  {
    hide Moves;
    hide ChangePassword;
    ChangePasswordMoves(s, a.c, a.hash);
  }

  lemma RevokeSessionsMoves(s: State, c: CallId, u: UserId)
    requires DbOk(s.db) && CallsOk(s) && u in s.db.users
    ensures Moves(s.db, RevokeSessions(s, c, u).db, RevokeSessions(s, c, u).event, false)
  {
  }

  lemma RevokeAllMoves(s: State, a: Action)
    requires DbOk(s.db) && CallsOk(s) && Enabled(s, a)
    requires a.RevokeAll?
    ensures Moves(s.db, Effect(s, a).db, Effect(s, a).event, false)
  {
    hide Moves;
    hide RevokeSessions;
    RevokeSessionsMoves(s, a.c, a.u);
  }

  lemma ConfirmEmailMoves(s: State, c: CallId)
    requires DbOk(s.db) && CallsOk(s) && c in s.calls && s.calls[c].Confirming?
    ensures Moves(s.db, ConfirmEmail(s, c).db, ConfirmEmail(s, c).event, false)
  {
  }

  lemma EmailCommitMoves(s: State, a: Action)
    requires DbOk(s.db) && CallsOk(s) && Enabled(s, a)
    requires a.EmailCommit?
    ensures Moves(s.db, Effect(s, a).db, Effect(s, a).event, false)
  {
    hide Moves;
    hide ConfirmEmail;
    ConfirmEmailMoves(s, a.c);
  }

  lemma DeletePasskeyMoves(s: State, c: CallId)
    requires DbOk(s.db) && CallsOk(s) && c in s.calls && s.calls[c].Deleting?
    ensures Moves(s.db, DeletePasskey(s, c).db, DeletePasskey(s, c).event, true)
  {
    var Deleting(u, p) := s.calls[c];
    if u in s.db.users {
      var row := s.db.users[u];
      assert Remembers(row, s.calls[c]);
      if !row.pwEnabled && row.google.None? {
        var q :| q in row.passkeys && q != p;
        assert q in row.passkeys - {p};
      }
    }
  }

  lemma PasskeyCommitMoves(s: State, a: Action)
    requires DbOk(s.db) && CallsOk(s) && Enabled(s, a)
    requires a.PasskeyCommit?
    ensures Moves(s.db, Effect(s, a).db, Effect(s, a).event, true)
  {
    hide Moves;
    hide DeletePasskey;
    DeletePasskeyMoves(s, a.c);
  }

  lemma TogglePasswordMoves(s: State, c: CallId)
    requires DbOk(s.db) && CallsOk(s) && c in s.calls && s.calls[c].Toggling?
    ensures Moves(s.db, TogglePassword(s, c).db, TogglePassword(s, c).event, true)
  {
    var Toggling(u, keep, enabled) := s.calls[c];
    var Outcome(d, _, e) := TogglePassword(s, c);
    if u in s.db.users {
      var row := s.db.users[u].Bumped().(pwEnabled := enabled);
      assert Remembers(s.db.users[u], s.calls[c]);
      assert UserOk(s.db.users[u]);
      assert UserOk(row);
      assert d == WithoutSessions(SetUser(s.db, u, row), u, keep);
      assert UsersMove(s.db, d, e, true);
      assert SessionsMove(s.db, d, e);
    }
  }

  lemma ToggleCommitMoves(s: State, a: Action)
    requires DbOk(s.db) && CallsOk(s) && Enabled(s, a)
    requires a.ToggleCommit?
    ensures Moves(s.db, Effect(s, a).db, Effect(s, a).event, true)
  {
    hide Moves;
    hide TogglePassword;
    TogglePasswordMoves(s, a.c);
  }

  lemma LinkGoogleMoves(s: State, c: CallId)
    requires DbOk(s.db) && CallsOk(s) && c in s.calls && (s.calls[c].Linking? || s.calls[c].Relinking?)
    ensures Moves(s.db, LinkGoogle(s, c).db, LinkGoogle(s, c).event, true)
  {
    assert s.calls[c].user in s.db.users ==> Remembers(s.db.users[s.calls[c].user], s.calls[c]);
  }

  lemma LinkCommitMoves(s: State, a: Action)
    requires DbOk(s.db) && CallsOk(s) && Enabled(s, a)
    requires a.LinkCommit?
    ensures Moves(s.db, Effect(s, a).db, Effect(s, a).event, true)
  {
    hide Moves;
    hide LinkGoogle;
    LinkGoogleMoves(s, a.c);
  }

  lemma UnlinkGoogleMoves(s: State, c: CallId)
    requires DbOk(s.db) && CallsOk(s) && c in s.calls && s.calls[c].Unlinking?
    ensures Moves(s.db, UnlinkGoogle(s, c).db, UnlinkGoogle(s, c).event, true)
  {
    assert s.calls[c].user in s.db.users ==> Remembers(s.db.users[s.calls[c].user], s.calls[c]);
  }

  lemma UnlinkCommitMoves(s: State, a: Action)
    requires DbOk(s.db) && CallsOk(s) && Enabled(s, a)
    requires a.UnlinkCommit?
    ensures Moves(s.db, Effect(s, a).db, Effect(s, a).event, true)
  {
    hide Moves;
    hide UnlinkGoogle;
    UnlinkGoogleMoves(s, a.c);
  }

  lemma MethodMoves(s: State, a: Action)
    requires DbOk(s.db) && CallsOk(s) && Enabled(s, a) && Holds(a)
    ensures Moves(s.db, Effect(s, a).db, Effect(s, a).event, true)
  {
    if a.PasskeyCommit? {
      PasskeyCommitMoves(s, a);
    } else if a.ToggleCommit? {
      ToggleCommitMoves(s, a);
    } else if a.LinkCommit? {
      LinkCommitMoves(s, a);
    } else {
      UnlinkCommitMoves(s, a);
    }
  }

  lemma RecoveryMoves(s: State, a: Action)
    requires DbOk(s.db) && CallsOk(s) && Enabled(s, a)
    requires a.VerifyCommit? || a.ResetCommit? || a.PasswordCommit? || a.RevokeAll? || a.EmailCommit?
    ensures Moves(s.db, Effect(s, a).db, Effect(s, a).event, false)
  {
    if a.VerifyCommit? {
      VerifyCommitMoves(s, a);
    } else if a.ResetCommit? {
      ResetCommitMoves(s, a);
    } else if a.PasswordCommit? {
      PasswordCommitMoves(s, a);
    } else if a.RevokeAll? {
      RevokeAllMoves(s, a);
    } else {
      EmailCommitMoves(s, a);
    }
  }

  predicate IsGuard(a: Action) {
    a.PasskeyGuard? || a.ToggleGuard? || a.LinkGuard? || a.UnlinkGuard?
  }

  predicate IsLoginRead(a: Action) {
    a.PasswordLinkRead? || a.PasswordVerify? || a.PasswordLoginRead? || a.PasswordLoginVerify? || a.OtherLoginRead?
  }

  predicate IsTokenRead(a: Action) {
    a.VerifyIssueRead? || a.VerifyRead? || a.ResetIssueRead? || a.ResetIssueLinkRead? || a.ResetRead? || a.EmailRead?
  }

  predicate IsRead(a: Action) {
    IsGuard(a) || IsLoginRead(a) || IsTokenRead(a) || a.Abort?
  }

  lemma GuardReads(s: State, a: Action)
    requires Enabled(s, a) && IsGuard(a)
    ensures Effect(s, a).db == s.db && Effect(s, a).event == Quiet && s.lock == None
  {
  }

  lemma LoginReads(s: State, a: Action)
    requires Enabled(s, a) && (IsLoginRead(a) || a.Abort?)
    ensures Effect(s, a).db == s.db && Effect(s, a).event == Quiet
  {
  }

  lemma TokenReads(s: State, a: Action)
    requires Enabled(s, a) && IsTokenRead(a)
    ensures Effect(s, a).db == s.db && Effect(s, a).event == Quiet
    ensures Effect(s, a).next.Goto? ==> !Effect(s, a).next.call.Locked()
  {
  }

  lemma ReadMoves(s: State, a: Action)
    requires Enabled(s, a) && IsRead(a)
    ensures Effect(s, a).db == s.db && Effect(s, a).event == Quiet
  {
    if IsGuard(a) {
      GuardReads(s, a);
    } else if IsTokenRead(a) {
      TokenReads(s, a);
    } else {
      LoginReads(s, a);
    }
  }

  lemma NothingMoves(db: Db)
    requires DbOk(db)
    ensures Moves(db, db, Quiet, false)
  {
  }

  lemma EffectMoves(s: State, a: Action)
    requires DbOk(s.db) && CallsOk(s) && Enabled(s, a)
    ensures Moves(s.db, Effect(s, a).db, Effect(s, a).event, Holds(a))
  {
    if IsRead(a) {
      ReadMoves(s, a);
      NothingMoves(s.db);
    } else if Holds(a) {
      MethodMoves(s, a);
    } else if a.VerifyCommit? || a.ResetCommit? || a.PasswordCommit? || a.RevokeAll? || a.EmailCommit? {
      RecoveryMoves(s, a);
    } else if a.SignUp? || a.GoogleSignUp? || a.OperatorInsert? {
      SignUpMoves(s, a);
    } else if a.DeleteUser? || a.DropSessions? || a.DropTokens? || a.InvalidateUser? {
      DeletionMoves(s, a);
    } else if a.VerifyIssueCommit? || a.ResetIssueCommit? || a.EmailRequest? {
      IssueMoves(s, a);
    } else if a.SessionInsert? {
      SessionInsertMoves(s, a);
    } else if a.OperatorSync? || a.BootstrapMigrate? {
      OperatorMoves(s, a);
    } else {
      AccountRowMoves(s, a);
    }
  }

  /******* The calls around an action *******/

  lemma OthersStay(s: State, a: Action, c: CallId)
    requires c in Step(s, a).0.calls && Actor(a) != Some(c)
    ensures c in s.calls && Step(s, a).0.calls[c] == s.calls[c]
  {
  }

  lemma OtherPasskey(keys: set<nat>, p: nat)
    requires |keys| > 1
    ensures exists q :: q in keys && q != p
  {
    if forall q :: q in keys ==> q == p {
      assert keys <= {p};
      assert |keys| <= |{p}| by {
        SubsetSize(keys, {p});
      }
    }
  }

  // The acting call knows what it needs at its next program counter.
  lemma GuardOk(s: State, a: Action, call: Call)
    requires DbOk(s.db) && Enabled(s, a) && IsGuard(a)
    requires Effect(s, a).next == Goto(call)
    ensures CallOk(s.db, call) && !call.Resetting?
  {
    if a.PasskeyGuard? && |s.db.users[a.u].passkeys| > 1 {
      OtherPasskey(s.db.users[a.u].passkeys, a.passkey);
    }
  }

  lemma LoginReadOk(s: State, a: Action, call: Call)
    requires DbOk(s.db) && CallsOk(s) && Enabled(s, a) && IsLoginRead(a)
    requires Effect(s, a).next == Goto(call)
    ensures CallOk(s.db, call) && !call.Resetting? && !call.Locked()
  {
    if a.PasswordLoginVerify? || a.PasswordVerify? {
      assert CallOk(s.db, s.calls[a.c]);
    }
  }

  lemma TokenReadOk(s: State, a: Action, call: Call)
    requires DbOk(s.db) && CallsOk(s) && Enabled(s, a) && IsTokenRead(a)
    requires Effect(s, a).next == Goto(call)
    ensures CallOk(s.db, call)
    ensures call.Resetting? ==> call.user in s.db.users && call.gen == s.db.users[call.user].gen
  {
    if a.ResetIssueLinkRead? {
      assert CallOk(s.db, s.calls[a.c]);
    }
  }

  lemma CommitOk(s: State, a: Action, call: Call)
    requires DbOk(s.db) && CallsOk(s) && Enabled(s, a) && !IsRead(a)
    requires Effect(s, a).next == Goto(call)
    ensures call.Invalidating? && call.user in s.db.known && (call.locked ==> Holds(a))
  {
  }

  lemma LockTaken(s: State, a: Action, call: Call)
    requires DbOk(s.db) && CallsOk(s) && LockOk(s) && Enabled(s, a)
    requires Effect(s, a).next == Goto(call) && call.Locked()
    ensures s.lock == None || s.lock == Actor(a)
  {
    if IsGuard(a) {
      GuardReads(s, a);
    } else if IsRead(a) {
      if IsTokenRead(a) {
        TokenReads(s, a);
      } else {
        LoginReadOk(s, a, call);
      }
    } else {
      CommitOk(s, a, call);
      assert s.calls[a.c].Locked();
    }
  }

  lemma AdvanceKeepsLock(s: State, c: CallId, o: Outcome)
    requires LockOk(s)
    requires o.next.Goto? && o.next.call.Locked() ==> s.lock == None || s.lock == Some(c)
    ensures LockOk(Advance(s, c, o)) && Advance(s, c, o).db == o.db
  {
  }

  lemma LockStep(s: State, a: Action)
    requires DbOk(s.db) && CallsOk(s) && LockOk(s) && Enabled(s, a)
    ensures LockOk(Step(s, a).0)
    ensures Step(s, a).0.db == Effect(s, a).db && Step(s, a).1 == Effect(s, a).event
  {
    var o := Effect(s, a);
    if o.next.Goto? && o.next.call.Locked() {
      LockTaken(s, a, o.next.call);
    }
    if Actor(a).Some? {
      AdvanceKeepsLock(s, Actor(a).value, o);
    }
  }

  lemma CallsStep(s: State, a: Action)
    requires DbOk(s.db) && CallsOk(s) && LockOk(s) && Enabled(s, a)
    ensures CallsOk(Step(s, a).0)
  {
    var o := Effect(s, a);
    var s' := Step(s, a).0;
    EffectMoves(s, a);
    forall c | c in s'.calls
      ensures CallOk(s'.db, s'.calls[c])
    {
      if Actor(a) == Some(c) && o.next.Goto? {
        ActorOk(s, a, o.next.call);
      } else {
        Bystander(s, a, c);
      }
    }
  }

  // An action that needs the lock is its holder's.
  lemma HolderActs(s: State, a: Action, c: CallId)
    requires LockOk(s) && Enabled(s, a) && Holds(a) && c in s.calls && s.calls[c].Locked()
    ensures Actor(a) == Some(c)
  {
    assert s.calls[a.c].Locked();
  }

  // Whoever is not moved by the action keeps its program counter, and is not a
  // second holder of the lock.
  lemma Bystander(s: State, a: Action, c: CallId)
    requires DbOk(s.db) && CallsOk(s) && LockOk(s) && Enabled(s, a)
    requires c in Step(s, a).0.calls && !(Actor(a) == Some(c) && Effect(s, a).next.Goto?)
    ensures c in s.calls && Step(s, a).0.calls[c] == s.calls[c]
    ensures CallOk(s.db, s.calls[c]) && CallOk(Effect(s, a).db, s.calls[c])
    ensures !Holds(a) || !s.calls[c].Locked()
  {
    EffectMoves(s, a);
    StillThere(s, a, c);
    if Holds(a) && s.calls[c].Locked() {
      HolderActs(s, a, c);
    }
    MovesKeepCall(s.db, Effect(s, a).db, Effect(s, a).event, Holds(a), s.calls[c]);
  }

  lemma StillThere(s: State, a: Action, c: CallId)
    requires Enabled(s, a)
    requires c in Step(s, a).0.calls && !(Actor(a) == Some(c) && Effect(s, a).next.Goto?)
    ensures c in s.calls && Step(s, a).0.calls[c] == s.calls[c]
    ensures Holds(a) && Actor(a) == Some(c) ==> Effect(s, a).next.Goto?
  {
  }

  lemma ActorOk(s: State, a: Action, call: Call)
    requires DbOk(s.db) && CallsOk(s) && Enabled(s, a)
    requires Effect(s, a).next == Goto(call)
    ensures CallOk(Effect(s, a).db, call)
    ensures call.Resetting? ==>
      Effect(s, a).event == Quiet && Effect(s, a).db == s.db
      && call.user in s.db.users && call.gen == s.db.users[call.user].gen
  {
    EffectMoves(s, a);
    if !IsRead(a) {
      CommitOk(s, a, call);
    } else {
      ReadMoves(s, a);
      if IsGuard(a) {
        GuardOk(s, a, call);
      } else if IsLoginRead(a) {
        LoginReadOk(s, a, call);
      } else {
        TokenReadOk(s, a, call);
      }
    }
  }

  // A call caught between read and commit by a hard change finds its row gone.
  lemma ConsumerStep(s: State, a: Action, past: set<Event>, e: Event, c: CallId)
    requires Inv(s, past) && Enabled(s, a)
    requires (e in past || e == Effect(s, a).event) && c in Step(s, a).0.calls
    ensures ConsumerPast(Effect(s, a).db, Step(s, a).0.calls[c], e)
  {
    var o := Effect(s, a);
    if Actor(a) == Some(c) && o.next.Goto? {
      ActorOk(s, a, o.next.call);
      if e in past {
        assert EventPast(s.db, e);
      }
    } else {
      Bystander(s, a, c);
      EffectMoves(s, a);
      if s.calls[c].Resetting? {
        BystanderPast(s.db, o.db, o.event, Holds(a), s.calls[c]);
        assert e in past ==> ConsumerPast(s.db, s.calls[c], e);
      }
    }
  }

  lemma BystanderPast(db: Db, d: Db, e: Event, held: bool, call: Call)
    requires Moves(db, d, e, held) && CallOk(db, call) && call.Resetting?
    ensures call.token in d.resets ==> call.token in db.resets && !e.Hard(call.user)
  {
  }

  lemma CallsPastStep(s: State, a: Action, past: set<Event>)
    requires Inv(s, past) && Enabled(s, a)
    ensures CallsPast(Step(s, a).0, past + {Step(s, a).1})
  {
    LockStep(s, a);
    forall e, c | e in past + {Step(s, a).1} && c in Step(s, a).0.calls
      ensures ConsumerPast(Step(s, a).0.db, Step(s, a).0.calls[c], e)
    {
      ConsumerStep(s, a, past, e, c);
    }
  }

  lemma QuietPast(s: State, past: set<Event>)
    requires Inv(s, past)
    ensures Inv(s, past + {Quiet})
  {
    assert EventPast(s.db, Quiet);
    forall c | c in s.calls
      ensures ConsumerPast(s.db, s.calls[c], Quiet)
    {
    }
  }

  lemma InvStep(s: State, a: Action, past: set<Event>)
    requires Inv(s, past)
    ensures Inv(Step(s, a).0, past + {Step(s, a).1})
  {
    if Enabled(s, a) {
      var o := Effect(s, a);
      LockStep(s, a);
      EffectMoves(s, a);
      MovesKeepDb(s.db, o.db, o.event, Holds(a));
      MovesKeepPast(s.db, o.db, o.event, Holds(a), past);
      CallsStep(s, a);
      CallsPastStep(s, a, past);
    } else {
      QuietPast(s, past);
    }
  }
}
