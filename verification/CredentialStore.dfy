/**
 The transactions of internal/identity as they run: statement after statement on
 the tables, with a rollback where the code returns early. Each is shown to be the
 one atomic action that Credentials models it by.
 */
module CredentialStore {
  import opened Wrappers
  import opened Credentials

  datatype Refusal = NotFound | LastAuthMethod | PasswordDisabled | LastIdentity

  class Store {
    var users: map<UserId, User>
    var resets: map<Selector, ResetToken>
    var changes: map<Selector, ChangeToken>
    var verifications: map<Selector, UserId>
    var sessions: map<Selector, SessionRow>
    ghost var issued: set<Selector>
    ghost var known: set<UserId>

    ghost function Database(): Db
      reads this
    {
      Db(users, resets, changes, verifications, sessions, issued, known)
    }

    // The store with one call in progress, as the specification functions see it.
    ghost function During(call: Call): State
      reads this
    {
      State(Database(), map[0 := call], None)
    }

    constructor (users: map<UserId, User>)
      ensures Database() == Db(users, map[], map[], map[], map[], {}, users.Keys)
    {
      this.users := users;
      resets, changes, verifications, sessions := map[], map[], map[], map[];
      issued, known := {}, users.Keys;
    }

    // Statements

    method DeleteSessions(u: UserId, keep: Option<Selector>)
      modifies this`sessions
      ensures Database() == WithoutSessions(old(Database()), u, keep)
    {
      sessions := map t | t in sessions && (sessions[t].user != u || keep == Some(t)) :: sessions[t];
    }

    method DeleteResets(u: UserId)
      modifies this`resets
      ensures Database() == WithoutResets(old(Database()), u)
    {
      resets := map t | t in resets && resets[t].user != u :: resets[t];
    }

    method DeleteChanges(u: UserId)
      modifies this`changes
      ensures Database() == WithoutChanges(old(Database()), u)
    {
      changes := map t | t in changes && changes[t].user != u :: changes[t];
    }

    // UPDATE users SET ... WHERE id=?
    method UpdateUser(u: UserId, row: User)
      modifies this`users
      ensures Database() == SetUser(old(Database()), u, row)
    {
      users := users[u := row];
    }

    // Transactions

    // The insert refers to its user; without one the transaction is rolled back.
    method IssuePasswordReset(u: UserId, gen: nat, sel: Selector) returns (done: bool)
      requires sel !in issued
      modifies this
      ensures done == (u in old(users))
      ensures Database() ==
        if done then old(Effect(During(ResetIssueReady(u, gen)), ResetIssueCommit(0, sel)).db) else old(Database())
    {
      if u !in users {
        return false;
      }
      DeleteResets(u);
      resets := resets[sel := ResetToken(u, gen)];
      issued := issued + {sel};
      done := true;
    }

    /** Marking the token used, changing the password unless Google is linked, and
        revoking sessions and tokens: all of it or, on a refused row, none of it. */
    method ConsumePasswordReset(u: UserId, token: Selector, gen: nat, hash: PasswordHash) returns (done: bool)
      modifies this
      ensures var o := old(ConsumeReset(During(Resetting(u, token, gen)), 0, hash));
        Database() == o.db && done == o.event.ResetDone?
    {
      if token !in resets {
        return false;
      }
      var used := resets[token];
      resets := resets - {token};
      if u !in users || users[u].google.Some? {
        resets := resets[token := used];
        assert resets == old(resets);
        return false;
      }
      UpdateUser(u, users[u].(hash := hash, pwEnabled := true, gen := users[u].gen + 1));
      DeleteSessions(u, None);
      DeleteResets(u);
      DeleteChanges(u);
      return true;
    }

    method ChangeUserPassword(u: UserId, keep: Selector, hash: PasswordHash)
      modifies this
      ensures Database() == old(ChangePassword(During(ChangeReady(u, keep)), 0, hash).db)
    {
      if u in users {
        UpdateUser(u, users[u].(hash := hash, pwEnabled := true, gen := users[u].gen + 1));
        DeleteSessions(u, Some(keep));
        DeleteResets(u);
        DeleteChanges(u);
      }
    }

    // An unknown user is no error: no row is updated, and what refers to it is deleted.
    method RevokeAllUserSessions(u: UserId)
      modifies this
      ensures Database() == if u in old(users) then old(RevokeSessions(During(Invalidating(u, false)), 0, u).db)
                            else WithoutResets(WithoutSessions(old(Database()), u, None), u)
    {
      if u in users {
        UpdateUser(u, users[u].(gen := users[u].gen + 1));
      }
      DeleteSessions(u, None);
      DeleteResets(u);
    }

    /** Verifying a pending address sets the password and activates the account. */
    method ConsumeVerificationToken(u: UserId, token: Selector, hash: PasswordHash) returns (done: bool)
      modifies this
      ensures var o := old(ConsumeVerification(During(Verifying(u, token)), 0, hash));
        Database() == o.db && done == o.event.Change?
    {
      if token !in verifications || u !in users || users[u].verified {
        return false;
      }
      verifications := verifications - {token};
      var account := if users[u].account.Pending? then Active else users[u].account;
      UpdateUser(u, users[u].(verified := true, hash := hash, pwEnabled := true, account := account, gen := users[u].gen + 1));
      return true;
    }

    method ConfirmEmailChange(u: UserId, token: Selector, keep: Option<Selector>) returns (done: bool)
      modifies this
      ensures var o := old(ConfirmEmail(During(Confirming(u, token, keep)), 0));
        Database() == o.db && done == o.event.Change?
    {
      if token !in changes || u !in users {
        return false;
      }
      changes := changes - {token};
      UpdateUser(u, users[u].(verified := true, gen := users[u].gen + 1));
      DeleteChanges(u);
      DeleteResets(u);
      DeleteSessions(u, keep);
      return true;
    }

    method CreateUserSession(u: UserId, gen: nat, hash: Option<PasswordHash>, sel: Selector) returns (created: bool)
      modifies this
      ensures var o := old(InsertSession(During(LoginReady(u, gen, hash)), 0, sel));
        Database() == o.db && created == o.event.SessionInserted?
    {
      issued := issued + {sel};
      created := u in users && users[u].gen == gen && users[u].verified && users[u].userActive && users[u].account.Active?;
      if created {
        sessions := sessions[sel := SessionRow(u, gen)];
      }
    }

    // The guard of DeletePasskey and, once it has let the call through, its delete.
    method PasskeyMayBeDeleted(u: UserId) returns (refusal: Option<Refusal>)
      ensures refusal == if u !in users then Some(NotFound) else if PasskeyMayGo(users[u]) then None else Some(LastAuthMethod)
    {
      if u !in users {
        return Some(NotFound);
      }
      if !users[u].pwEnabled && users[u].google.None? && |users[u].passkeys| <= 1 {
        return Some(LastAuthMethod);
      }
      refusal := None;
    }

    method RemovePasskey(u: UserId, passkey: nat)
      modifies this
      ensures Database() == old(DeletePasskey(During(Deleting(u, passkey)), 0).db)
    {
      if u in users {
        UpdateUser(u, users[u].(passkeys := users[u].passkeys - {passkey}));
      }
    }

    // An unknown user has no passkey and no identity, and its row is not there to update.
    method SetPasswordSignInEnabled(u: UserId, keep: Option<Selector>, enabled: bool) returns (refusal: Option<Refusal>)
      modifies this
      ensures refusal.None? <==> u in old(users) && ToggleMayGo(old(users)[u], enabled)
      ensures refusal.Some? ==>
        refusal.value == if u !in old(users) && enabled then NotFound else if enabled then PasswordDisabled else LastAuthMethod
      ensures Database() == if refusal.None? then old(TogglePassword(During(Toggling(u, keep, enabled)), 0).db) else old(Database())
    {
      var googleLinked := u in users && users[u].google.Some?;
      if enabled && googleLinked {
        return Some(PasswordDisabled);
      }
      var passkeys := if u in users then users[u].passkeys else {};
      if !enabled && passkeys == {} {
        return Some(LastAuthMethod);
      }
      if u !in users {
        return Some(NotFound);
      }
      UpdateUser(u, users[u].(pwEnabled := enabled, gen := users[u].gen + 1));
      DeleteSessions(u, keep);
      refusal := None;
    }

    /** Linking a new subject: the insert is conditional on a live user, and the
        unique constraints refuse a second link of either side. */
    method LinkGoogleIdentity(u: UserId, subject: Subject) returns (done: bool)
      modifies this
      ensures var o := old(LinkGoogle(During(Linking(u, subject)), 0));
        Database() == o.db && done == o.event.Change?
    {
      if u !in users || !users[u].verified || !users[u].userActive || !users[u].account.Active? {
        return false;
      }
      if users[u].google.Some? || exists v :: v in users && users[v].google == Some(subject) {
        return false;
      }
      UpdateUser(u, users[u].(google := Some(subject)));
      UpdateUser(u, users[u].(pwEnabled := false, gen := users[u].gen + 1));
      DeleteResets(u);
      assert users == old(users[u := users[u].(google := Some(subject), pwEnabled := false, gen := users[u].gen + 1)]);
      return true;
    }

    method UnlinkGoogleIdentity(u: UserId) returns (refusal: Option<Refusal>)
      modifies this
      ensures refusal == if u !in old(users) then Some(NotFound)
                         else if old(users)[u].hash.Empty? then Some(LastIdentity)
                         else if old(users)[u].google.None? then Some(NotFound)
                         else None
      ensures Database() == if refusal.None? then old(UnlinkGoogle(During(Unlinking(u)), 0).db) else old(Database())
    {
      if u !in users {
        return Some(NotFound);
      }
      if users[u].hash.Empty? {
        return Some(LastIdentity);
      }
      if users[u].google.None? {
        return Some(NotFound);
      }
      UpdateUser(u, users[u].(google := None));
      UpdateUser(u, users[u].(pwEnabled := users[u].hash.Phc?, gen := users[u].gen + 1));
      assert users == old(users[u := users[u].(google := None, pwEnabled := true, gen := users[u].gen + 1)]);
      refusal := None;
    }
  }
}
