/**
 What every action of the credential operations (internal/identity) leaves of each row, and when
 the reads an operation begins with let it go on.
 */
module CredentialRows {
  import opened Wrappers
  import opened Credentials
  import opened CredentialProofs
  import opened CredentialTheorems
  import opened CredentialLaws

  // The actions that commit a change begun by other reads than those under the lock.
  predicate Recovers(a: Action) {
    a.VerifyCommit? || a.ResetCommit? || a.PasswordCommit? || a.RevokeAll? || a.EmailCommit?
  }

  // The actions that begin an account or edit its row.
  predicate EditsUser(a: Action) {
    a.SignUp? || a.GoogleSignUp? || a.OperatorInsert? || a.OperatorSync? || a.BootstrapMigrate? || a.SetStatus? || a.AddPasskey?
  }

  // The actions that draw a token or a session.
  predicate Draws(a: Action) {
    a.VerifyIssueCommit? || a.ResetIssueCommit? || a.EmailRequest? || a.SessionInsert?
  }

  // The actions that only delete.
  predicate Deletes(a: Action) {
    a.DeleteUser? || a.DropSessions? || a.DropTokens? || a.InvalidateUser?
  }

  /******* Sessions *******/

  // Every session of a user whose change cuts them goes but the one it spares, and so do those
  // dropped by name, a deleted user's, and those invalidated after a change.
  predicate TakesSession(s: State, a: Action, e: Event, sel: Selector)
    requires Enabled(s, a) && sel in s.db.sessions
  {
    var u := s.db.sessions[sel].user;
    || (e.Cuts(u) && !e.Keeps(sel))
    || (a.DropSessions? && sel in a.gone)
    || (a.DeleteUser? && a.u == u)
    || (a.InvalidateUser? && s.calls[a.c].user == u)
  }

  predicate SessionIs(s: State, a: Action, d: Db, e: Event, sel: Selector)
    requires Enabled(s, a)
  {
    if e.SessionInserted? && e.session == sel then sel in d.sessions && d.sessions[sel] == SessionRow(e.user, e.gen)
    else if sel in s.db.sessions then
      (sel in d.sessions <==> !TakesSession(s, a, e, sel)) && (sel in d.sessions ==> d.sessions[sel] == s.db.sessions[sel])
    else sel !in d.sessions
  }

  lemma RecoverySession(s: State, a: Action, sel: Selector)
    requires Enabled(s, a) && Recovers(a)
    ensures SessionIs(s, a, Effect(s, a).db, Effect(s, a).event, sel)
  {
    hide DeletePasskey;
    hide TogglePassword;
    hide LinkGoogle;
    hide UnlinkGoogle;
    hide InsertSession;
    hide WithoutUser;
    hide Insert;
  }

  lemma MethodSession(s: State, a: Action, sel: Selector)
    requires Enabled(s, a) && Holds(a)
    ensures SessionIs(s, a, Effect(s, a).db, Effect(s, a).event, sel)
  {
    hide ConsumeVerification;
    hide ConsumeReset;
    hide ChangePassword;
    hide RevokeSessions;
    hide ConfirmEmail;
    hide InsertSession;
    hide WithoutUser;
    hide Insert;
  }

  lemma EditSession(s: State, a: Action, sel: Selector)
    requires Enabled(s, a) && EditsUser(a)
    ensures SessionIs(s, a, Effect(s, a).db, Effect(s, a).event, sel)
  {
    hide ConsumeVerification;
    hide ConsumeReset;
    hide ChangePassword;
    hide RevokeSessions;
    hide ConfirmEmail;
    hide DeletePasskey;
    hide TogglePassword;
    hide LinkGoogle;
    hide UnlinkGoogle;
    hide InsertSession;
    hide WithoutUser;
  }

  lemma DrawSession(s: State, a: Action, sel: Selector)
    requires Enabled(s, a) && Draws(a)
    ensures SessionIs(s, a, Effect(s, a).db, Effect(s, a).event, sel)
  {
    hide ConsumeVerification;
    hide ConsumeReset;
    hide ChangePassword;
    hide RevokeSessions;
    hide ConfirmEmail;
    hide DeletePasskey;
    hide TogglePassword;
    hide LinkGoogle;
    hide UnlinkGoogle;
    hide WithoutUser;
    hide Insert;
  }

  lemma DeleteSession(s: State, a: Action, sel: Selector)
    requires Enabled(s, a) && Deletes(a)
    ensures SessionIs(s, a, Effect(s, a).db, Effect(s, a).event, sel)
  {
    hide ConsumeVerification;
    hide ConsumeReset;
    hide ChangePassword;
    hide RevokeSessions;
    hide ConfirmEmail;
    hide DeletePasskey;
    hide TogglePassword;
    hide LinkGoogle;
    hide UnlinkGoogle;
    hide InsertSession;
    hide Insert;
  }

  /** A session row is inserted by the one action that announces it, and goes only with a change
      that cuts it, a deletion that names it, its user, or the invalidation behind a change;
      until then it is as it was inserted. */
  lemma SessionsAre(s: State, a: Action, sel: Selector)
    requires Enabled(s, a)
    ensures SessionIs(s, a, Step(s, a).0.db, Step(s, a).1, sel)
  {
    hide Effect;
    hide Enabled;
    StepIs(s, a);
    hide Step;
    if IsRead(a) {
      ReadMoves(s, a);
    } else if Recovers(a) {
      RecoverySession(s, a, sel);
    } else if Holds(a) {
      MethodSession(s, a, sel);
    } else if EditsUser(a) {
      EditSession(s, a, sel);
    } else if Draws(a) {
      DrawSession(s, a, sel);
    } else {
      DeleteSession(s, a, sel);
    }
  }

  /** A session is inserted exactly for a user still at the generation its call read, and still
      verified, active and of an active account. */
  lemma InsertedIff(s: State, c: CallId, sel: Selector)
    requires Enabled(s, SessionInsert(c, sel))
    ensures var call := s.calls[c]; var e := Step(s, SessionInsert(c, sel)).1;
      && (e.SessionInserted? <==>
            && call.user in s.db.users && s.db.users[call.user].gen == call.gen && s.db.users[call.user].verified
            && s.db.users[call.user].userActive && s.db.users[call.user].account == Active)
      && (e.SessionInserted? ==> e == SessionInserted(sel, call.user, call.gen, call.hash))
  {
  }

  /******* Tokens *******/

  // A token is drawn for the user its call read, after the user's earlier ones of the kind.
  predicate MakesReset(s: State, a: Action, t: Selector)
    requires Enabled(s, a)
  {
    a.ResetIssueCommit? && a.sel == t
  }

  predicate TakesReset(s: State, a: Action, e: Event, t: Selector)
    requires Enabled(s, a) && t in s.db.resets
  {
    var u := s.db.resets[t].user;
    || e.Hard(u)
    || (a.ResetIssueCommit? && s.calls[a.c].user == u)
    || (a.DropTokens? && t in a.gone)
    || (a.DeleteUser? && a.u == u)
    || (e.ResetDone? && e.token == t)
  }

  predicate ResetIs(s: State, a: Action, d: Db, e: Event, t: Selector)
    requires Enabled(s, a)
  {
    if MakesReset(s, a, t) then t in d.resets && d.resets[t] == ResetToken(s.calls[a.c].user, s.calls[a.c].gen)
    else if t in s.db.resets then
      (t in d.resets <==> !TakesReset(s, a, e, t)) && (t in d.resets ==> d.resets[t] == s.db.resets[t])
    else t !in d.resets
  }

  // An e-mail change goes with a later request of the user, and with the changes that void it.
  predicate TakesChange(s: State, a: Action, e: Event, t: Selector)
    requires Enabled(s, a) && t in s.db.changes
  {
    var u := s.db.changes[t].user;
    || (e.Bumps(u) && VoidsChanges(a))
    || (a.EmailRequest? && a.u == u)
    || (a.DropTokens? && t in a.gone)
    || (a.DeleteUser? && a.u == u)
    || (a.EmailCommit? && e.Change? && s.calls[a.c].token == t)
  }

  predicate ChangeIs(s: State, a: Action, d: Db, e: Event, t: Selector)
    requires Enabled(s, a)
  {
    if a.EmailRequest? && a.sel == t then t in d.changes && d.changes[t] == ChangeToken(a.u, Some(a.keep))
    else if t in s.db.changes then
      (t in d.changes <==> !TakesChange(s, a, e, t)) && (t in d.changes ==> d.changes[t] == s.db.changes[t])
    else t !in d.changes
  }

  predicate TakesVerification(s: State, a: Action, e: Event, t: Selector)
    requires Enabled(s, a) && t in s.db.verifications
  {
    var u := s.db.verifications[t];
    || (a.VerifyIssueCommit? && s.calls[a.c].user == u)
    || (a.VerifyCommit? && e.Change? && s.calls[a.c].token == t)
    || (a.DropTokens? && t in a.gone)
    || (a.DeleteUser? && a.u == u)
  }

  predicate VerificationIs(s: State, a: Action, d: Db, e: Event, t: Selector)
    requires Enabled(s, a)
  {
    if a.VerifyIssueCommit? && a.sel == t then t in d.verifications && d.verifications[t] == s.calls[a.c].user
    else if t in s.db.verifications then
      && (t in d.verifications <==> !TakesVerification(s, a, e, t))
      && (t in d.verifications ==> d.verifications[t] == s.db.verifications[t])
    else t !in d.verifications
  }

  predicate TokensAs(s: State, a: Action, d: Db, e: Event, t: Selector)
    requires Enabled(s, a)
  {
    ResetIs(s, a, d, e, t) && ChangeIs(s, a, d, e, t) && VerificationIs(s, a, d, e, t)
  }

  lemma RecoveryResets(s: State, a: Action, t: Selector)
    requires Enabled(s, a) && Recovers(a)
    ensures ResetIs(s, a, Effect(s, a).db, Effect(s, a).event, t)
  {
    hide DeletePasskey;
    hide TogglePassword;
    hide LinkGoogle;
    hide UnlinkGoogle;
    hide InsertSession;
    hide WithoutUser;
    hide Insert;
  }

  lemma RecoveryChanges(s: State, a: Action, t: Selector)
    requires Enabled(s, a) && Recovers(a)
    ensures ChangeIs(s, a, Effect(s, a).db, Effect(s, a).event, t)
  {
    hide DeletePasskey;
    hide TogglePassword;
    hide LinkGoogle;
    hide UnlinkGoogle;
    hide InsertSession;
    hide WithoutUser;
    hide Insert;
  }

  lemma RecoveryVerifications(s: State, a: Action, t: Selector)
    requires Enabled(s, a) && Recovers(a)
    ensures VerificationIs(s, a, Effect(s, a).db, Effect(s, a).event, t)
  {
    hide DeletePasskey;
    hide TogglePassword;
    hide LinkGoogle;
    hide UnlinkGoogle;
    hide InsertSession;
    hide WithoutUser;
    hide Insert;
  }

  lemma RecoveryTokens(s: State, a: Action, t: Selector)
    requires Enabled(s, a) && Recovers(a)
    ensures TokensAs(s, a, Effect(s, a).db, Effect(s, a).event, t)
  {
    hide Effect;
    hide Enabled;
    RecoveryResets(s, a, t);
    RecoveryChanges(s, a, t);
    RecoveryVerifications(s, a, t);
  }

  lemma ToggleTokens(s: State, a: Action, t: Selector)
    requires Enabled(s, a) && (a.PasskeyCommit? || a.ToggleCommit?)
    ensures TokensAs(s, a, Effect(s, a).db, Effect(s, a).event, t)
  {
    hide ConsumeVerification;
    hide ConsumeReset;
    hide ChangePassword;
    hide RevokeSessions;
    hide ConfirmEmail;
    hide InsertSession;
    hide WithoutUser;
    hide Insert;
    hide LinkGoogle;
    hide UnlinkGoogle;
  }

  lemma LinkTokens(s: State, a: Action, t: Selector)
    requires Enabled(s, a) && (a.LinkCommit? || a.UnlinkCommit?)
    ensures TokensAs(s, a, Effect(s, a).db, Effect(s, a).event, t)
  {
    hide ConsumeVerification;
    hide ConsumeReset;
    hide ChangePassword;
    hide RevokeSessions;
    hide ConfirmEmail;
    hide InsertSession;
    hide WithoutUser;
    hide Insert;
    hide DeletePasskey;
    hide TogglePassword;
  }

  lemma EditTokens(s: State, a: Action, t: Selector)
    requires Enabled(s, a) && EditsUser(a)
    ensures TokensAs(s, a, Effect(s, a).db, Effect(s, a).event, t)
  {
    hide ConsumeVerification;
    hide ConsumeReset;
    hide ChangePassword;
    hide RevokeSessions;
    hide ConfirmEmail;
    hide DeletePasskey;
    hide TogglePassword;
    hide LinkGoogle;
    hide UnlinkGoogle;
    hide InsertSession;
    hide WithoutUser;
  }

  lemma DrawTokens(s: State, a: Action, t: Selector)
    requires Enabled(s, a) && Draws(a)
    ensures TokensAs(s, a, Effect(s, a).db, Effect(s, a).event, t)
  {
    hide ConsumeVerification;
    hide ConsumeReset;
    hide ChangePassword;
    hide RevokeSessions;
    hide ConfirmEmail;
    hide DeletePasskey;
    hide TogglePassword;
    hide LinkGoogle;
    hide UnlinkGoogle;
    hide WithoutUser;
    hide Insert;
  }

  lemma DeleteTokens(s: State, a: Action, t: Selector)
    requires Enabled(s, a) && Deletes(a)
    ensures TokensAs(s, a, Effect(s, a).db, Effect(s, a).event, t)
  {
    hide ConsumeVerification;
    hide ConsumeReset;
    hide ChangePassword;
    hide RevokeSessions;
    hide ConfirmEmail;
    hide DeletePasskey;
    hide TogglePassword;
    hide LinkGoogle;
    hide UnlinkGoogle;
    hide InsertSession;
    hide Insert;
  }

  /** A token is issued for the user its call read, in place of that user's earlier one of its
      kind, a reset token at the generation read; it goes when it is used, with the changes that
      void it, or with its user, and until then it is as it was issued. */
  lemma TokensAre(s: State, a: Action, t: Selector)
    requires Enabled(s, a)
    ensures TokensAs(s, a, Step(s, a).0.db, Step(s, a).1, t)
  {
    hide Effect;
    hide Enabled;
    StepIs(s, a);
    hide Step;
    if IsRead(a) {
      ReadMoves(s, a);
    } else if Recovers(a) {
      RecoveryTokens(s, a, t);
    } else if a.PasskeyCommit? || a.ToggleCommit? {
      ToggleTokens(s, a, t);
    } else if a.LinkCommit? || a.UnlinkCommit? {
      LinkTokens(s, a, t);
    } else if EditsUser(a) {
      EditTokens(s, a, t);
    } else if Draws(a) {
      DrawTokens(s, a, t);
    } else {
      DeleteTokens(s, a, t);
    }
  }

  /******* Users *******/

  // The row an action inserts for a new user.
  function Newcomer(a: Action): Option<(UserId, User)> {
    match a
    case SignUp(u) => Some((u, User(false, true, Pending, false, Empty, None, {}, 0)))
    case GoogleSignUp(u, subject) => Some((u, User(true, true, Active, false, Empty, Some(subject), {}, 0)))
    case OperatorInsert(u, hash) => Some((u, User(true, true, Active, true, hash, None, {}, 0)))
    case _ => None
  }

  // What an action leaves of a user it neither inserts nor deletes, but for the hash
  // (HashIsTheChosen).
  predicate UserFollows(s: State, a: Action, e: Event, u: UserId, before: User, after: User)
    requires Enabled(s, a)
  {
    var changed := e.Bumps(u);
    && after.gen == (if changed then before.gen + 1 else before.gen)
    && after.verified == (before.verified || (changed && (a.VerifyCommit? || a.EmailCommit? || a.BootstrapMigrate?)))
    && after.userActive == (if a.SetStatus? && a.u == u then a.userActive else before.userActive || (changed && a.BootstrapMigrate?))
    && after.account == (if a.SetStatus? && a.u == u then a.account
                         else if changed && a.VerifyCommit? && before.account == Pending then Active else before.account)
    && after.google == (if changed && a.LinkCommit? && s.calls[a.c].Linking? then Some(s.calls[a.c].subject)
                        else if changed && a.UnlinkCommit? then None else before.google)
    && after.passkeys == (if a.AddPasskey? && a.u == u then before.passkeys + {a.passkey}
                          else if a.PasskeyCommit? && s.calls[a.c].user == u then before.passkeys - {s.calls[a.c].passkey}
                          else before.passkeys)
    && (!changed || a.RevokeAll? || a.EmailCommit? || a.OperatorSync? ==> after.pwEnabled == before.pwEnabled)
    && (changed && a.BootstrapMigrate? ==> after.pwEnabled)
  }

  predicate UserIs(s: State, a: Action, d: Db, e: Event, u: UserId)
    requires Enabled(s, a)
  {
    if Newcomer(a).Some? && Newcomer(a).value.0 == u then u in d.users && d.users[u] == Newcomer(a).value.1
    else if a.DeleteUser? && a.u == u then u !in d.users
    else (u in d.users <==> u in s.db.users) && (u in d.users ==> UserFollows(s, a, e, u, s.db.users[u], d.users[u]))
  }

  lemma PasswordUser(s: State, a: Action, u: UserId)
    requires Enabled(s, a) && (a.VerifyCommit? || a.ResetCommit? || a.PasswordCommit?)
    ensures UserIs(s, a, Effect(s, a).db, Effect(s, a).event, u)
  {
    hide DeletePasskey;
    hide TogglePassword;
    hide LinkGoogle;
    hide UnlinkGoogle;
    hide InsertSession;
    hide WithoutUser;
    hide Insert;
    hide RevokeSessions;
    hide ConfirmEmail;
  }

  lemma RevokeUser(s: State, a: Action, u: UserId)
    requires Enabled(s, a) && (a.RevokeAll? || a.EmailCommit?)
    ensures UserIs(s, a, Effect(s, a).db, Effect(s, a).event, u)
  {
    hide DeletePasskey;
    hide TogglePassword;
    hide LinkGoogle;
    hide UnlinkGoogle;
    hide InsertSession;
    hide WithoutUser;
    hide Insert;
    hide ConsumeVerification;
    hide ConsumeReset;
    hide ChangePassword;
  }

  lemma ToggleUser(s: State, a: Action, u: UserId)
    requires Enabled(s, a) && (a.PasskeyCommit? || a.ToggleCommit?)
    ensures UserIs(s, a, Effect(s, a).db, Effect(s, a).event, u)
  {
    hide ConsumeVerification;
    hide ConsumeReset;
    hide ChangePassword;
    hide RevokeSessions;
    hide ConfirmEmail;
    hide InsertSession;
    hide WithoutUser;
    hide Insert;
    hide LinkGoogle;
    hide UnlinkGoogle;
  }

  lemma LinkUser(s: State, a: Action, u: UserId)
    requires Enabled(s, a) && (a.LinkCommit? || a.UnlinkCommit?)
    ensures UserIs(s, a, Effect(s, a).db, Effect(s, a).event, u)
  {
    hide ConsumeVerification;
    hide ConsumeReset;
    hide ChangePassword;
    hide RevokeSessions;
    hide ConfirmEmail;
    hide InsertSession;
    hide WithoutUser;
    hide Insert;
    hide DeletePasskey;
    hide TogglePassword;
  }

  lemma EditUser(s: State, a: Action, u: UserId)
    requires Enabled(s, a) && EditsUser(a)
    ensures UserIs(s, a, Effect(s, a).db, Effect(s, a).event, u)
  {
    hide ConsumeVerification;
    hide ConsumeReset;
    hide ChangePassword;
    hide RevokeSessions;
    hide ConfirmEmail;
    hide DeletePasskey;
    hide TogglePassword;
    hide LinkGoogle;
    hide UnlinkGoogle;
    hide InsertSession;
    hide WithoutUser;
  }

  lemma DrawUser(s: State, a: Action, u: UserId)
    requires Enabled(s, a) && Draws(a)
    ensures UserIs(s, a, Effect(s, a).db, Effect(s, a).event, u)
  {
    hide ConsumeVerification;
    hide ConsumeReset;
    hide ChangePassword;
    hide RevokeSessions;
    hide ConfirmEmail;
    hide DeletePasskey;
    hide TogglePassword;
    hide LinkGoogle;
    hide UnlinkGoogle;
    hide Insert;
    hide WithoutUser;
  }

  lemma DeleteUser(s: State, a: Action, u: UserId)
    requires Enabled(s, a) && Deletes(a)
    ensures UserIs(s, a, Effect(s, a).db, Effect(s, a).event, u)
  {
    hide ConsumeVerification;
    hide ConsumeReset;
    hide ChangePassword;
    hide RevokeSessions;
    hide ConfirmEmail;
    hide DeletePasskey;
    hide TogglePassword;
    hide LinkGoogle;
    hide UnlinkGoogle;
    hide Insert;
    hide InsertSession;
  }

  /** A user's row changes in exactly the fields a change is about, and its generation with each
      credential change; a new user begins as its kind of sign-up says. */
  lemma UsersAre(s: State, a: Action, u: UserId)
    requires Enabled(s, a)
    ensures UserIs(s, a, Step(s, a).0.db, Step(s, a).1, u)
  {
    hide Effect;
    hide Enabled;
    StepIs(s, a);
    hide Step;
    if IsRead(a) {
      ReadMoves(s, a);
    } else if a.RevokeAll? || a.EmailCommit? {
      RevokeUser(s, a, u);
    } else if Recovers(a) {
      PasswordUser(s, a, u);
    } else if a.PasskeyCommit? || a.ToggleCommit? {
      ToggleUser(s, a, u);
    } else if a.LinkCommit? || a.UnlinkCommit? {
      LinkUser(s, a, u);
    } else if EditsUser(a) {
      EditUser(s, a, u);
    } else if Draws(a) {
      DrawUser(s, a, u);
    } else {
      DeleteUser(s, a, u);
    }
  }

  /******* Reads *******/

  // What a user's row must be like to sign in.
  predicate MayEnter(row: User) {
    row.verified && row.userActive && row.account == Active
  }

  predicate Taken(db: Db, subject: Subject) {
    exists u :: u in db.users && db.users[u].google == Some(subject)
  }

  // What a read must find for its operation to go on.
  predicate Finds(s: State, a: Action)
    requires Enabled(s, a) && (IsGuard(a) || IsLoginRead(a) || IsTokenRead(a))
  {
    match a
    case ResetIssueLinkRead(c) => s.calls[c].user !in s.db.users || s.db.users[s.calls[c].user].google == None
    case ResetRead(_, sel) => s.db.resets[sel].gen == s.db.users[s.db.resets[sel].user].gen
    case PasswordLinkRead(_, u, _, _) => s.db.users[u].google == None
    case PasswordVerify(c, matches) => s.calls[c].user in s.db.users && s.db.users[s.calls[c].user].pwEnabled && matches
    case PasswordLoginRead(_, u) => s.db.users[u].pwEnabled && MayEnter(s.db.users[u])
    case PasswordLoginVerify(c, matches) => s.calls[c].user in s.db.users && s.db.users[s.calls[c].user].pwEnabled && matches
    case OtherLoginRead(_, u) => MayEnter(s.db.users[u])
    case PasskeyGuard(_, u, _) => s.db.users[u].pwEnabled || s.db.users[u].google != None || |s.db.users[u].passkeys| >= 2
    case ToggleGuard(_, u, _, enabled) => if enabled then s.db.users[u].google == None else |s.db.users[u].passkeys| >= 1
    case LinkGuard(_, u, subject) => s.db.users[u].google == Some(subject) || !Taken(s.db, subject)
    case UnlinkGuard(_, u) => s.db.users[u].hash != Empty
    case _ => true
  }

  // What the call has then in hand.
  predicate InHand(s: State, a: Action, call: Call)
    requires Enabled(s, a) && (IsGuard(a) || IsLoginRead(a) || IsTokenRead(a))
  {
    match a
    case VerifyIssueRead(_, u) => call == VerifyIssuing(u)
    case VerifyRead(_, sel) => call == Verifying(s.db.verifications[sel], sel)
    case ResetIssueRead(_, u) => call == ResetIssuing(u, s.db.users[u].gen)
    case ResetIssueLinkRead(c) => call == ResetIssueReady(s.calls[c].user, s.calls[c].gen)
    case ResetRead(_, sel) => call == Resetting(s.db.resets[sel].user, sel, s.db.resets[sel].gen)
    case PasswordLinkRead(_, u, keep, confirmed) => call == if confirmed then ChangeReady(u, keep) else ChangingPassword(u, keep)
    case PasswordVerify(c, _) => call == ChangeReady(s.calls[c].user, s.calls[c].keep)
    case EmailRead(_, sel) => call == Confirming(s.db.changes[sel].user, sel, s.db.changes[sel].keep)
    case PasswordLoginRead(_, u) => call == LoginRead(u, s.db.users[u].gen)
    case PasswordLoginVerify(c, _) =>
      s.calls[c].user in s.db.users && call == LoginReady(s.calls[c].user, s.calls[c].gen, Some(s.db.users[s.calls[c].user].hash))
    case OtherLoginRead(_, u) => call == LoginReady(u, s.db.users[u].gen, None)
    case PasskeyGuard(_, u, passkey) => call == Deleting(u, passkey)
    case ToggleGuard(_, u, spared, enabled) => call == Toggling(u, spared, enabled)
    case LinkGuard(_, u, subject) =>
      call == if s.db.users[u].google == Some(subject) then Relinking(u) else Linking(u, subject)
    case UnlinkGuard(_, u) => call == Unlinking(u)
    case _ => false
  }

  predicate GoesOn(s: State, a: Action, next: Next)
    requires Enabled(s, a) && (IsGuard(a) || IsLoginRead(a) || IsTokenRead(a))
  {
    (next.Goto? <==> Finds(s, a)) && (next.Goto? ==> InHand(s, a, next.call))
  }

  lemma GuardGoesOn(s: State, a: Action)
    requires Enabled(s, a) && IsGuard(a)
    ensures GoesOn(s, a, Effect(s, a).next)
  {
    if a.ToggleGuard? {
      assert |s.db.users[a.u].passkeys| >= 1 <==> s.db.users[a.u].passkeys != {};
    }
  }

  lemma TokenGoesOn(s: State, a: Action)
    requires Enabled(s, a) && IsTokenRead(a)
    ensures GoesOn(s, a, Effect(s, a).next)
  {
  }

  lemma LoginGoesOn(s: State, a: Action)
    requires Enabled(s, a) && IsLoginRead(a)
    ensures GoesOn(s, a, Effect(s, a).next)
  {
  }

  lemma StepGoes(s: State, a: Action)
    requires Enabled(s, a) && (IsGuard(a) || IsLoginRead(a) || IsTokenRead(a))
    ensures Actor(a).Some?
    ensures var t, o, c := Step(s, a).0, Effect(s, a), Actor(a).value;
      && (o.next.Goto? ==> c in t.calls && t.calls[c] == o.next.call)
      && (o.next.Return? ==> c !in t.calls) && (o.next.Stay? ==> t.calls == s.calls)
      && (o.next.Goto? && o.next.call.Locked() ==> t.lock == Some(c))
  {
    hide Effect;
    hide Enabled;
  }

  /** An operation goes on from a read exactly if the read finds what it needs, and then has in
      hand just what it found; the four that edit sign-in methods hold the lock from there. */
  lemma ReadsGoOnIff(s: State, a: Action)
    requires Enabled(s, a) && (IsGuard(a) || IsLoginRead(a) || IsTokenRead(a))
    ensures var t := Step(s, a).0; var c := Actor(a);
      && c.Some? && t.db == s.db
      && (Finds(s, a) ==> c.value in t.calls && InHand(s, a, t.calls[c.value]))
      && (!Finds(s, a) ==> c.value !in t.calls || t.calls == s.calls)
      && (Finds(s, a) && IsGuard(a) ==> t.lock == c)
  {
    StepIs(s, a);
    StepGoes(s, a);
    ReadMoves(s, a);
    hide Step;
    hide Finds;
    hide InHand;
    if IsGuard(a) {
      GuardGoesOn(s, a);
      GuardLocks(s, a);
    } else if IsTokenRead(a) {
      TokenGoesOn(s, a);
    } else {
      LoginGoesOn(s, a);
    }
    hide Effect;
  }

  lemma GuardLocks(s: State, a: Action)
    requires Enabled(s, a) && IsGuard(a)
    ensures Effect(s, a).next.Goto? ==> Effect(s, a).next.call.Locked()
  {
  }

  // The action a call goes on with, given what it is to draw or write.
  function Onward(c: CallId, call: Call, sel: Selector, hash: PasswordHash, matches: bool): Action {
    match call
    case VerifyIssuing(_) => VerifyIssueCommit(c, sel)
    case Verifying(_, _) => VerifyCommit(c, hash)
    case ResetIssuing(_, _) => ResetIssueLinkRead(c)
    case ResetIssueReady(_, _) => ResetIssueCommit(c, sel)
    case Resetting(_, _, _) => ResetCommit(c, hash)
    case ChangingPassword(_, _) => PasswordVerify(c, matches)
    case ChangeReady(_, _) => PasswordCommit(c, hash)
    case Confirming(_, _, _) => EmailCommit(c)
    case LoginRead(_, _) => PasswordLoginVerify(c, matches)
    case LoginReady(_, _, _) => SessionInsert(c, sel)
    case Deleting(_, _) => PasskeyCommit(c)
    case Toggling(_, _, _) => ToggleCommit(c)
    case Linking(_, _) => LinkCommit(c)
    case Relinking(_) => LinkCommit(c)
    case Unlinking(_) => UnlinkCommit(c)
    case Invalidating(_, _) => InvalidateUser(c)
  }

  /** No call is ever stuck: whatever the others do it may take its next step, which for the
      issue of a token needs its user to be there still. */
  lemma NoCallIsStuck(s: State, c: CallId, sel: Selector, hash: PasswordHash, matches: bool)
    requires c in s.calls && sel !in s.db.issued && hash.Phc?
    requires s.calls[c].VerifyIssuing? || s.calls[c].ResetIssueReady? ==> s.calls[c].user in s.db.users
    ensures Enabled(s, Onward(c, s.calls[c], sel, hash, matches))
  {
  }

  /******* Whole runs *******/

  // No Google identity is linked to two users.
  ghost predicate UniqueGoogle(db: Db) {
    forall u, v :: u in db.users && v in db.users && u != v && db.users[u].google.Some? ==> db.users[u].google != db.users[v].google
  }

  // Where a user's Google identity comes from.
  lemma GoogleIs(s: State, a: Action, u: UserId)
    requires Enabled(s, a) && u in Step(s, a).0.db.users
    ensures var row := Step(s, a).0.db.users[u];
      row.google.Some? ==>
        || (u in s.db.users && s.db.users[u].google == row.google)
        || (a.GoogleSignUp? && a.u == u && row.google == Some(a.subject))
        || (&& a.LinkCommit? && s.calls[a.c].Linking? && s.calls[a.c].user == u && row.google == Some(s.calls[a.c].subject)
            && Commits(s, a, u))
  {
    hide Effect;
    UsersAre(s, a, u);
    ChangesIff(s, a, u);
    hide Step;
    hide CutsAs;
    hide Void;
  }

  lemma UniqueStep(s: State, a: Action)
    requires UniqueGoogle(s.db)
    ensures UniqueGoogle(Step(s, a).0.db)
  {
    hide Effect;
    StepIs(s, a);
    var d := Step(s, a).0.db;
    hide Step;
    if Enabled(s, a) {
      forall u, v | u in d.users && v in d.users && u != v && d.users[u].google.Some?
        ensures d.users[u].google != d.users[v].google
      {
        GoogleIs(s, a, u);
        GoogleIs(s, a, v);
        if u in s.db.users {
          NotLinkedYet(s, a, u);
        }
        if v in s.db.users {
          NotLinkedYet(s, a, v);
        }
      }
    }
  }

  lemma NotLinkedYet(s: State, a: Action, u: UserId)
    requires Enabled(s, a) && u in s.db.users
    ensures a.GoogleSignUp? ==> s.db.users[u].google != Some(a.subject)
    ensures a.LinkCommit? && s.calls[a.c].Linking? && Commits(s, a, s.calls[a.c].user) ==>
      s.db.users[u].google != Some(s.calls[a.c].subject)
  {
  }

  /** Over any interleaving no Google identity is ever linked to two users. */
  lemma {:induction false} GoogleStaysUnique(s: State, acts: seq<Action>)
    requires UniqueGoogle(s.db)
    ensures UniqueGoogle(Run(s, acts).db)
  {
    hide Step;
    hide UniqueGoogle;
    if acts != [] {
      GoogleStaysUnique(s, acts[..|acts| - 1]);
      UniqueStep(Run(s, acts[..|acts| - 1]), acts[|acts| - 1]);
    }
  }

  lemma VerifyIssuingByToken(s: State, a: Action, call: Call)
    requires Enabled(s, a) && (IsTokenRead(a) || IsLoginRead(a)) && Effect(s, a).next == Goto(call) && call.VerifyIssuing?
    ensures a == VerifyIssueRead(a.c, call.user) && call.user in s.db.users && !s.db.users[call.user].verified
  {
  }

  lemma VerifyIssuingBy(s: State, a: Action, call: Call)
    requires Enabled(s, a) && Consistent(s) && Effect(s, a).next == Goto(call) && call.VerifyIssuing?
    ensures a == VerifyIssueRead(a.c, call.user) && call.user in s.db.users && !s.db.users[call.user].verified
  {
    hide Effect;
    hide Enabled;
    if IsGuard(a) {
      GuardGoes(s, a, call);
    } else if IsTokenRead(a) || IsLoginRead(a) {
      VerifyIssuingByToken(s, a, call);
    } else if !IsRead(a) {
      CommitOk(s, a, call);
    } else {
      AbortReturns(s, a);
    }
  }

  lemma IssueContinues(s: State, a: Action)
    requires Enabled(s, a) && a.VerifyIssueCommit?
    ensures a.c in s.calls && s.calls[a.c].VerifyIssuing?
  {
  }

  // The step that drew a verification token.
  lemma {:induction false} VerificationWasDrawn(s: State, acts: seq<Action>, t: Selector) returns (m: nat)
    requires t in Run(s, acts).db.verifications && t !in s.db.verifications
    ensures m < |acts| && acts[m].VerifyIssueCommit? && acts[m].sel == t && Enabled(Run(s, acts[..m]), acts[m])
    ensures Run(s, acts).db.verifications[t] == Run(s, acts[..m]).calls[acts[m].c].user
  {
    hide Step;
    hide Enabled;
    assert acts != [];
    var n := |acts| - 1;
    var s', a := Run(s, acts[..n]), acts[n];
    VerificationStep(s', a, t);
    if Enabled(s', a) && a.VerifyIssueCommit? && a.sel == t {
      m := n;
    } else {
      m := VerificationWasDrawn(s, acts[..n], t);
      assert acts[..n][..m] == acts[..m];
    }
  }

  lemma VerificationStep(s: State, a: Action, t: Selector)
    requires t in Step(s, a).0.db.verifications
    ensures if Enabled(s, a) && a.VerifyIssueCommit? && a.sel == t then Step(s, a).0.db.verifications[t] == s.calls[a.c].user
            else t in s.db.verifications && Step(s, a).0.db.verifications[t] == s.db.verifications[t]
  {
    hide Effect;
    hide Enabled;
    if Enabled(s, a) {
      TokensAre(s, a, t);
    }
  }

  /** A verification token is issued only to a user read as not yet verified, by the call that
      read it. */
  lemma VerificationWasIssued(s: State, acts: seq<Action>, t: Selector) returns (r: nat, m: nat)
    requires Start(s) && t in Run(s, acts).db.verifications && t !in s.db.verifications
    ensures r < m < |acts| && acts[m].VerifyIssueCommit? && acts[m].sel == t
    ensures var u, db := Run(s, acts).db.verifications[t], Run(s, acts[..r]).db;
      acts[r] == VerifyIssueRead(acts[m].c, u) && u in db.users && !db.users[u].verified
  {
    hide Run;
    hide Effect;
    hide Enabled;
    hide Idle;
    m := VerificationWasDrawn(s, acts, t);
    IssueContinues(Run(s, acts[..m]), acts[m]);
    r := WasLedTo(s, acts[..m], acts[m].c);
    assert acts[..m][..r] == acts[..r];
    StartIsConsistent(s);
    RunIsConsistent(s, acts[..r]);
    hide Consistent;
    VerifyIssuingBy(Run(s, acts[..r]), acts[r], Run(s, acts[..m]).calls[acts[m].c]);
  }
}
