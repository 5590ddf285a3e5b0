/**
 What a call must have been shown before it changes anything, and what the changes write.
 */
module CredentialLaws {
  import opened Wrappers
  import opened Credentials
  import opened CredentialProofs
  import opened CredentialTheorems

  /******* What a call was shown *******/

  // An action of c that took place.
  predicate Acts(s: State, a: Action, c: CallId) {
    Enabled(s, a) && Actor(a) == Some(c)
  }

  // Between i and the end, call c does nothing.
  ghost predicate Idle(s: State, acts: seq<Action>, c: CallId, i: nat) {
    forall m :: i < m < |acts| ==> !Acts(Run(s, acts[..m]), acts[m], c)
  }

  // An action that leaves its call where it is never began one.
  lemma Stays(s: State, a: Action, c: CallId)
    requires Acts(s, a, c) && Effect(s, a).next.Stay?
    ensures c !in s.calls
  {
  }

  lemma Arrives(s: State, a: Action, c: CallId)
    requires c in Step(s, a).0.calls
    ensures if Acts(s, a, c) then Effect(s, a).next == Goto(Step(s, a).0.calls[c])
            else c in s.calls && Step(s, a).0.calls[c] == s.calls[c]
  {
    hide Effect;
    hide Enabled;
    if Acts(s, a, c) && Effect(s, a).next.Stay? {
      Stays(s, a, c);
    }
  }

  lemma GuardGoes(s: State, a: Action, call: Call)
    requires Enabled(s, a) && IsGuard(a) && Effect(s, a).next == Goto(call)
    ensures call.Locked()
  {
  }

  lemma TokenReadGoes(s: State, a: Action, call: Call)
    requires Enabled(s, a) && IsTokenRead(a) && Effect(s, a).next == Goto(call)
    ensures !call.LoginReady? && !call.ChangeReady?
    ensures call.ResetIssuing? ==> a == ResetIssueRead(a.c, call.user) && call.user in s.db.users && s.db.users[call.user].gen == call.gen
    ensures call.ResetIssueReady? ==>
      && a == ResetIssueLinkRead(a.c) && s.calls[a.c] == ResetIssuing(call.user, call.gen)
      && (call.user in s.db.users ==> s.db.users[call.user].google.None?)
    ensures call.Resetting? ==>
      && a == ResetRead(a.c, call.token) && call.token in s.db.resets && s.db.resets[call.token] == ResetToken(call.user, call.gen)
      && call.user in s.db.users && s.db.users[call.user].gen == call.gen
  {
  }

  lemma LoginReadGoes(s: State, a: Action, call: Call)
    requires Enabled(s, a) && IsLoginRead(a) && Effect(s, a).next == Goto(call)
    ensures call.LoginReady? && call.hash.Some? ==>
      && a == PasswordLoginVerify(a.c, true) && s.calls[a.c] == LoginRead(call.user, call.gen)
      && call.user in s.db.users && s.db.users[call.user].pwEnabled && Some(s.db.users[call.user].hash) == call.hash
    ensures call.ChangeReady? ==>
      || (a.PasswordLinkRead? && a.u == call.user && a.keep == call.keep && a.confirmed)
      || (&& a == PasswordVerify(a.c, true) && s.calls[a.c] == ChangingPassword(call.user, call.keep)
          && call.user in s.db.users && s.db.users[call.user].pwEnabled)
  {
  }

  predicate IsReady(call: Call) {
    call.LoginReady? || call.ChangeReady?
  }

  predicate IsResetCall(call: Call) {
    call.ResetIssuing? || call.ResetIssueReady? || call.Resetting?
  }

  // Only sign-in reads make a call ready to insert or to change, and only token reads begin
  // a reset or the issue of a token.
  lemma Goes(s: State, a: Action, call: Call)
    requires Enabled(s, a) && Consistent(s) && Effect(s, a).next == Goto(call)
    ensures (IsReady(call) ==> IsLoginRead(a)) && (IsResetCall(call) ==> IsTokenRead(a))
  {
    hide Effect;
    hide Enabled;
    if IsGuard(a) {
      GuardGoes(s, a, call);
    } else if IsTokenRead(a) {
      TokenReadGoes(s, a, call);
    } else if IsLoginRead(a) {
      LoginReadOnly(s, a, call);
    } else if !IsRead(a) {
      CommitOk(s, a, call);
    } else {
      AbortReturns(s, a);
    }
  }

  lemma LoginReadOnly(s: State, a: Action, call: Call)
    requires Enabled(s, a) && IsLoginRead(a) && Effect(s, a).next == Goto(call)
    ensures !IsResetCall(call)
  {
  }

  lemma AbortReturns(s: State, a: Action)
    requires Enabled(s, a) && a.Abort?
    ensures Effect(s, a).next.Return?
  {
  }

  lemma IdleMore(s: State, acts: seq<Action>, c: CallId, i: nat)
    requires acts != [] && i < |acts| - 1 && Idle(s, acts[..|acts| - 1], c, i)
    requires !Acts(Run(s, acts[..|acts| - 1]), acts[|acts| - 1], c)
    ensures Idle(s, acts, c, i)
  {
    hide Run;
    hide Acts;
    var n := |acts| - 1;
    assert forall m :: i < m < n ==> acts[..n][..m] == acts[..m];
  }

  // The step that led a call to where it still is.
  ghost predicate LedTo(s: State, acts: seq<Action>, c: CallId, call: Call, i: nat) {
    && i < |acts| && Idle(s, acts, c, i)
    && Acts(Run(s, acts[..i]), acts[i], c) && Effect(Run(s, acts[..i]), acts[i]).next == Goto(call)
  }

  lemma {:induction false} WasLedTo(s: State, acts: seq<Action>, c: CallId) returns (i: nat)
    requires Start(s) && c in Run(s, acts).calls
    ensures LedTo(s, acts, c, Run(s, acts).calls[c], i)
  {
    hide Step;
    hide Effect;
    hide Acts;
    hide Idle;
    assert acts != [];
    var n := |acts| - 1;
    var t := Run(s, acts[..n]);
    Arrives(t, acts[n], c);
    if Acts(t, acts[n], c) {
      i := n;
      JustNow(s, acts, c);
    } else {
      i := WasLedTo(s, acts[..n], c);
      IdleMore(s, acts, c, i);
      assert acts[..n][..i] == acts[..i];
    }
  }

  lemma JustNow(s: State, acts: seq<Action>, c: CallId)
    requires acts != [] && Acts(Run(s, acts[..|acts| - 1]), acts[|acts| - 1], c) && c in Run(s, acts).calls
    ensures LedTo(s, acts, c, Run(s, acts).calls[c], |acts| - 1)
  {
    hide Effect;
    hide Enabled;
    var t, a := Run(s, acts[..|acts| - 1]), acts[|acts| - 1];
    Arrives(t, a, c);
  }

  // The same, with what the step read.
  lemma WasShown(s: State, acts: seq<Action>, c: CallId) returns (i: nat)
    requires Start(s) && c in Run(s, acts).calls
    requires IsReady(Run(s, acts).calls[c]) || IsResetCall(Run(s, acts).calls[c])
    ensures LedTo(s, acts, c, Run(s, acts).calls[c], i)
    ensures if IsReady(Run(s, acts).calls[c]) then IsLoginRead(acts[i]) else IsTokenRead(acts[i])
  {
    hide Run;
    hide Effect;
    hide Idle;
    i := WasLedTo(s, acts, c);
    StartIsConsistent(s);
    RunIsConsistent(s, acts[..i]);
    hide Consistent;
    Goes(Run(s, acts[..i]), acts[i], Run(s, acts).calls[c]);
  }

  /** A password session is inserted only after the password presented matched: the last
      thing its call did before was to verify it, against the hash the event names. */
  lemma PasswordSessionWasVerified(s: State, acts: seq<Action>, j: nat) returns (i: nat)
    requires Start(s) && j < |acts| && Trace(s, acts)[j].SessionInserted? && Trace(s, acts)[j].hash.Some?
    ensures i < j && acts[j].SessionInsert? && acts[i] == PasswordLoginVerify(acts[j].c, true)
    ensures Enabled(Run(s, acts[..i]), acts[i]) && Idle(s, acts[..j], acts[j].c, i)
    ensures var e, db := Trace(s, acts)[j], Run(s, acts[..i]).db;
      e.user in db.users && db.users[e.user].pwEnabled && db.users[e.user].hash == e.hash.value
  {
    TraceAt(s, acts, j);
    SessionStep(Run(s, acts[..j]), acts[j]);
    hide Run;
    hide Idle;
    hide Step;
    hide Effect;
    hide Enabled;
    var call := Run(s, acts[..j]).calls[acts[j].c];
    i := WasShown(s, acts[..j], acts[j].c);
    assert acts[..j][..i] == acts[..i];
    LoginReadGoes(Run(s, acts[..i]), acts[i], call);
  }

  lemma PasswordCommitStep(s: State, a: Action)
    requires a.PasswordCommit? && Step(s, a).1.Change?
    ensures a.c in s.calls && s.calls[a.c].ChangeReady? && s.calls[a.c].user == Step(s, a).1.user
  {
  }

  /** A password change commits only after the current password matched, or for a caller
      whose identity was confirmed another way. */
  lemma PasswordChangeWasConfirmed(s: State, acts: seq<Action>, j: nat) returns (i: nat)
    requires Start(s) && j < |acts| && acts[j].PasswordCommit? && Trace(s, acts)[j].Change?
    ensures i < j && Enabled(Run(s, acts[..i]), acts[i]) && Idle(s, acts[..j], acts[j].c, i)
    ensures var e, c, db := Trace(s, acts)[j], acts[j].c, Run(s, acts[..i]).db;
      || (acts[i].PasswordLinkRead? && acts[i].c == c && acts[i].u == e.user && acts[i].confirmed)
      || (acts[i] == PasswordVerify(c, true) && e.user in db.users && db.users[e.user].pwEnabled)
  {
    TraceAt(s, acts, j);
    PasswordCommitStep(Run(s, acts[..j]), acts[j]);
    hide Run;
    hide Idle;
    hide Step;
    hide Effect;
    hide Enabled;
    var call := Run(s, acts[..j]).calls[acts[j].c];
    i := WasShown(s, acts[..j], acts[j].c);
    assert acts[..j][..i] == acts[..i];
    LoginReadGoes(Run(s, acts[..i]), acts[i], call);
  }

  // The step that inserted a reset token.
  lemma {:induction false} TokenWasInserted(s: State, acts: seq<Action>, t: Selector) returns (m: nat)
    requires Consistent(s) && t in Run(s, acts).db.resets && t !in s.db.resets
    ensures m < |acts| && acts[m].ResetIssueCommit? && Enabled(Run(s, acts[..m]), acts[m])
    ensures var call := Run(s, acts[..m]).calls[acts[m].c]; Run(s, acts).db.resets[t] == ResetToken(call.user, call.gen)
  {
    hide Step;
    hide Enabled;
    hide Consistent;
    assert acts != [];
    var n := |acts| - 1;
    RunIsConsistent(s, acts[..n]);
    ResetTokenStep(Run(s, acts[..n]), acts[n], t);
    if t in Run(s, acts[..n]).db.resets {
      m := TokenWasInserted(s, acts[..n], t);
      assert acts[..n][..m] == acts[..m];
    } else {
      m := n;
    }
  }

  lemma ResetTokenStep(s: State, a: Action, t: Selector)
    requires Consistent(s) && t in Step(s, a).0.db.resets
    ensures if t in s.db.resets then Step(s, a).0.db.resets[t] == s.db.resets[t]
            else
              && a.ResetIssueCommit? && Enabled(s, a)
              && Step(s, a).0.db.resets[t] == ResetToken(s.calls[a.c].user, s.calls[a.c].gen)
  {
    hide Enabled;
    hide Effect;
    StepIs(s, a);
    hide Step;
    if Enabled(s, a) {
      EffectMoves(s, a);
      if a.ResetIssueCommit? {
        InsertsToken(s, a);
      } else {
        NoNewToken(s, a, t);
      }
    }
  }

  lemma InsertsToken(s: State, a: Action)
    requires Enabled(s, a) && a.ResetIssueCommit?
    ensures forall t :: t in Effect(s, a).db.resets ==>
      (t in s.db.resets && Effect(s, a).db.resets[t] == s.db.resets[t])
      || Effect(s, a).db.resets[t] == ResetToken(s.calls[a.c].user, s.calls[a.c].gen)
  {
  }

  lemma NoNewToken(s: State, a: Action, t: Selector)
    requires Enabled(s, a) && !a.ResetIssueCommit? && t in Effect(s, a).db.resets
    ensures t in s.db.resets
  {
    hide Effect;
    hide Enabled;
    if IsRead(a) {
      ReadMoves(s, a);
    } else if Holds(a) {
      NoTokenByMethod(s, a, t);
    } else if a.VerifyCommit? || a.ResetCommit? || a.PasswordCommit? || a.RevokeAll? || a.EmailCommit? {
      NoTokenByRecovery(s, a, t);
    } else {
      NoTokenOtherwise(s, a, t);
    }
  }

  lemma NoTokenByMethod(s: State, a: Action, t: Selector)
    requires Enabled(s, a) && Holds(a) && t in Effect(s, a).db.resets
    ensures t in s.db.resets
  {
  }

  lemma NoTokenByRecovery(s: State, a: Action, t: Selector)
    requires Enabled(s, a) && t in Effect(s, a).db.resets
    requires a.VerifyCommit? || a.ResetCommit? || a.PasswordCommit? || a.RevokeAll? || a.EmailCommit?
    ensures t in s.db.resets
  {
  }

  lemma NoTokenOtherwise(s: State, a: Action, t: Selector)
    requires Enabled(s, a) && t in Effect(s, a).db.resets && !IsRead(a) && !Holds(a) && !a.ResetIssueCommit?
    requires !(a.VerifyCommit? || a.ResetCommit? || a.PasswordCommit? || a.RevokeAll? || a.EmailCommit?)
    ensures t in s.db.resets
  {
  }

  // The issue of a token: the user was read at its generation, and then found without Google.
  ghost predicate IssuedTo(s: State, acts: seq<Action>, u: UserId, gen: nat, r: nat, k: nat) {
    && r < k < |acts| && acts[r].ResetIssueRead? && acts[r].u == u && acts[k] == ResetIssueLinkRead(acts[r].c)
    && Enabled(Run(s, acts[..r]), acts[r]) && Run(s, acts[..r]).db.users[u].gen == gen
    && Enabled(Run(s, acts[..k]), acts[k])
    && (u in Run(s, acts[..k]).db.users ==> Run(s, acts[..k]).db.users[u].google.None?)
  }

  lemma TokenWasIssued(s: State, acts: seq<Action>, t: Selector) returns (r: nat, k: nat)
    requires Start(s) && t in Run(s, acts).db.resets && t !in s.db.resets
    ensures IssuedTo(s, acts, Run(s, acts).db.resets[t].user, Run(s, acts).db.resets[t].gen, r, k)
  {
    hide Run;
    hide Effect;
    hide Idle;
    StartIsConsistent(s);
    var m := TokenWasInserted(s, acts, t);
    hide Consistent;
    var c := acts[m].c;
    var ready := Run(s, acts[..m]).calls[c];
    k := WasShown(s, acts[..m], c);
    assert acts[..m][..k] == acts[..k];
    TokenReadGoes(Run(s, acts[..k]), acts[k], ready);
    var issuing := Run(s, acts[..k]).calls[c];
    r := WasShown(s, acts[..k], c);
    assert acts[..k][..r] == acts[..r];
    TokenReadGoes(Run(s, acts[..r]), acts[r], issuing);
  }

  /** A reset commits on a token issued to a user found without Google, at the generation read
      at the issue, and read again at the same generation by the call that commits. */
  lemma ResetTokenWasIssued(s: State, acts: seq<Action>, j: nat) returns (r: nat, k: nat, i: nat)
    requires Start(s) && j < |acts| && Trace(s, acts)[j].ResetDone? && Trace(s, acts)[j].token !in s.db.resets
    ensures i < j && IssuedTo(s, acts[..i], Trace(s, acts)[j].user, Trace(s, acts)[j].tokenGen, r, k)
    ensures acts[j].ResetCommit? && acts[i] == ResetRead(acts[j].c, Trace(s, acts)[j].token) && Enabled(Run(s, acts[..i]), acts[i])
    ensures var e, db := Trace(s, acts)[j], Run(s, acts[..i]).db; e.user in db.users && db.users[e.user].gen == e.tokenGen
  {
    TraceAt(s, acts, j);
    ResetStep(Run(s, acts[..j]), acts[j]);
    hide Run;
    hide Idle;
    hide Step;
    hide Effect;
    hide IssuedTo;
    var call := Run(s, acts[..j]).calls[acts[j].c];
    i := WasShown(s, acts[..j], acts[j].c);
    assert acts[..j][..i] == acts[..i];
    TokenReadGoes(Run(s, acts[..i]), acts[i], call);
    r, k := TokenWasIssued(s, acts[..i], call.token);
  }

  /******* What a change writes *******/

  // The hash an action brings along.
  function Chosen(a: Action): Option<PasswordHash> {
    match a
    case OperatorInsert(_, hash) => Some(hash)
    case OperatorSync(_, hash) => Some(hash)
    case BootstrapMigrate(_, hash) => Some(hash)
    case VerifyCommit(_, hash) => Some(hash)
    case ResetCommit(_, hash) => Some(hash)
    case PasswordCommit(_, hash) => Some(hash)
    case _ => None
  }

  // The stored hash of u is replaced by a change of u that brings one, and by that.
  predicate HashFollows(s: State, a: Action, d: Db, e: Event, u: UserId) {
    u in s.db.users && u in d.users ==>
      if e.Bumps(u) && Chosen(a).Some? then Some(d.users[u].hash) == Chosen(a) else d.users[u].hash == s.db.users[u].hash
  }

  lemma RecoveryHash(s: State, a: Action, u: UserId)
    requires Enabled(s, a) && (a.VerifyCommit? || a.ResetCommit? || a.PasswordCommit? || a.RevokeAll? || a.EmailCommit?)
    ensures HashFollows(s, a, Effect(s, a).db, Effect(s, a).event, u)
  {
  }

  lemma MethodHash(s: State, a: Action, u: UserId)
    requires Enabled(s, a) && Holds(a)
    ensures HashFollows(s, a, Effect(s, a).db, Effect(s, a).event, u)
  {
  }

  lemma OperatorHash(s: State, a: Action, u: UserId)
    requires Enabled(s, a) && (a.OperatorSync? || a.BootstrapMigrate? || a.SetStatus? || a.AddPasskey?)
    ensures HashFollows(s, a, Effect(s, a).db, Effect(s, a).event, u)
  {
  }

  lemma InsertHash(s: State, a: Action, u: UserId)
    requires Enabled(s, a) && s.db.users.Keys <= s.db.known && (a.SignUp? || a.GoogleSignUp? || a.OperatorInsert?)
    ensures HashFollows(s, a, Effect(s, a).db, Effect(s, a).event, u)
  {
  }

  lemma OtherHash(s: State, a: Action, u: UserId)
    requires Enabled(s, a) && (a.DeleteUser? || a.DropSessions? || a.DropTokens? || a.InvalidateUser? || a.VerifyIssueCommit?
                               || a.ResetIssueCommit? || a.EmailRequest? || a.SessionInsert?)
    ensures HashFollows(s, a, Effect(s, a).db, Effect(s, a).event, u)
  {
    hide ConsumeVerification;
    hide ConsumeReset;
    hide ChangePassword;
    hide RevokeSessions;
    hide ConfirmEmail;
    hide DeletePasskey;
    hide TogglePassword;
    hide LinkGoogle;
    hide UnlinkGoogle;
  }

  lemma EffectHash(s: State, a: Action, u: UserId)
    requires Enabled(s, a) && s.db.users.Keys <= s.db.known
    ensures HashFollows(s, a, Effect(s, a).db, Effect(s, a).event, u)
  {
    hide Effect;
    hide Enabled;
    if IsRead(a) {
      ReadMoves(s, a);
    } else if Holds(a) {
      MethodHash(s, a, u);
    } else if a.VerifyCommit? || a.ResetCommit? || a.PasswordCommit? || a.RevokeAll? || a.EmailCommit? {
      RecoveryHash(s, a, u);
    } else if a.OperatorSync? || a.BootstrapMigrate? || a.SetStatus? || a.AddPasskey? {
      OperatorHash(s, a, u);
    } else if a.SignUp? || a.GoogleSignUp? || a.OperatorInsert? {
      InsertHash(s, a, u);
    } else {
      OtherHash(s, a, u);
    }
  }

  lemma StepIs(s: State, a: Action)
    ensures if Enabled(s, a) then Step(s, a).0.db == Effect(s, a).db && Step(s, a).1 == Effect(s, a).event
            else Step(s, a) == (s, Quiet)
  {
    hide Enabled;
    hide Effect;
  }

  /** A stored hash is the one chosen last: in any run only a committed change of that user
      that brings a hash replaces it, and then by that one. */
  lemma HashIsTheChosen(s: State, acts: seq<Action>, j: nat, u: UserId)
    requires Consistent(s) && j < |acts|
    ensures var before, after := Run(s, acts[..j]).db, Run(s, acts[..j + 1]).db;
      u in before.users && u in after.users ==>
        if Trace(s, acts)[j].Bumps(u) && Chosen(acts[j]).Some? then Some(after.users[u].hash) == Chosen(acts[j])
        else after.users[u].hash == before.users[u].hash
  {
    hide Enabled;
    hide Effect;
    TraceAt(s, acts, j);
    assert acts[..j + 1][..j] == acts[..j];
    RunIsConsistent(s, acts[..j]);
    var t := Run(s, acts[..j]);
    StepIs(t, acts[j]);
    hide Step;
    if Enabled(t, acts[j]) {
      EffectHash(t, acts[j], u);
    }
  }

  // What a change leaves of the user's ways in.
  predicate Opens(s: State, a: Action, row: User) {
    && (a.VerifyCommit? || a.ResetCommit? || a.PasswordCommit? ==> row.pwEnabled && row.hash.Phc?)
    && (a.VerifyCommit? || a.EmailCommit? ==> row.verified)
    && (a.VerifyCommit? ==> !row.account.Pending?)
    && (a.ToggleCommit? ==> a.c in s.calls && s.calls[a.c].Toggling? && row.pwEnabled == s.calls[a.c].enabled)
    && (a.LinkCommit? ==> !row.pwEnabled && (a.c in s.calls && s.calls[a.c].Linking? ==> row.google == Some(s.calls[a.c].subject)))
    && (a.UnlinkCommit? ==> row.google.None? && (row.pwEnabled <==> row.hash.Phc?))
  }

  lemma RecoveryOpens(s: State, a: Action, u: UserId)
    requires Enabled(s, a) && Effect(s, a).event.Bumps(u) && !Holds(a)
    ensures u in Effect(s, a).db.users && Opens(s, a, Effect(s, a).db.users[u])
  {
    hide DeletePasskey;
    hide TogglePassword;
    hide LinkGoogle;
    hide UnlinkGoogle;
    hide WithoutUser;
  }

  lemma MethodOpens(s: State, a: Action, u: UserId)
    requires Enabled(s, a) && Effect(s, a).event.Bumps(u) && Holds(a)
    ensures u in Effect(s, a).db.users && Opens(s, a, Effect(s, a).db.users[u])
  {
  }

  /** A reset, a password change and a verification leave password sign-in on, a verification
      and a confirmed address the user verified; a toggle leaves it as asked, a link off and
      an unlink on if there is a password. */
  lemma ChangesOpen(s: State, a: Action, u: UserId)
    requires Step(s, a).1.Bumps(u)
    ensures u in Step(s, a).0.db.users && Opens(s, a, Step(s, a).0.db.users[u])
  {
    hide Enabled;
    hide Effect;
    StepIs(s, a);
    hide Step;
    if Holds(a) {
      MethodOpens(s, a, u);
    } else {
      RecoveryOpens(s, a, u);
    }
  }

  /** A user who may sign in and whose password matches gets a session. */
  lemma MatchSignsIn(s: State, c: CallId, u: UserId, sel: Selector)
    requires c !in s.calls && u in s.db.users && s.db.users[u].pwEnabled && s.db.users[u].MaySignIn() && sel !in s.db.issued
    ensures var acts := [PasswordLoginRead(c, u), PasswordLoginVerify(c, true), SessionInsert(c, sel)]; var t := Run(s, acts);
      sel in t.db.sessions && t.db.sessions[sel] == SessionRow(u, s.db.users[u].gen)
  {
    var acts := [PasswordLoginRead(c, u), PasswordLoginVerify(c, true), SessionInsert(c, sel)];
    RunThree(s, acts);
    var s1 := Step(s, acts[0]).0;
    LoginReadStep(s, c, u);
    var s2 := Step(s1, acts[1]).0;
    LoginVerifyStep(s1, c, u, s.db.users[u].gen);
    InsertStep(s2, c, u, sel);
    hide Step;
    hide Run;
  }

  lemma LoginReadStep(s: State, c: CallId, u: UserId)
    requires c !in s.calls && u in s.db.users && s.db.users[u].pwEnabled && s.db.users[u].MaySignIn()
    ensures var t := Step(s, PasswordLoginRead(c, u)).0; t.db == s.db && c in t.calls && t.calls[c] == LoginRead(u, s.db.users[u].gen)
  {
  }

  lemma LoginVerifyStep(s: State, c: CallId, u: UserId, gen: nat)
    requires c in s.calls && s.calls[c] == LoginRead(u, gen) && u in s.db.users && s.db.users[u].pwEnabled
    ensures var t := Step(s, PasswordLoginVerify(c, true)).0;
      t.db == s.db && c in t.calls && t.calls[c] == LoginReady(u, gen, Some(s.db.users[u].hash))
  {
  }

  lemma InsertStep(s: State, c: CallId, u: UserId, sel: Selector)
    requires c in s.calls && s.calls[c].LoginReady? && s.calls[c].user == u && sel !in s.db.issued
    requires u in s.db.users && s.calls[c].gen == s.db.users[u].gen && s.db.users[u].MaySignIn()
    ensures var t := Step(s, SessionInsert(c, sel)).0; sel in t.db.sessions && t.db.sessions[sel] == SessionRow(u, s.db.users[u].gen)
  {
  }

  /******* When a change takes place, and what it takes along *******/

  // What a change needs of the rows it meets at its commit.
  predicate Commits(s: State, a: Action, u: UserId)
    requires Enabled(s, a)
  {
    match a
    case VerifyCommit(c, _) =>
      s.calls[c].user == u && s.calls[c].token in s.db.verifications && u in s.db.users && !s.db.users[u].verified
    case ResetCommit(c, _) => s.calls[c].user == u && s.calls[c].token in s.db.resets && u in s.db.users && s.db.users[u].google.None?
    case PasswordCommit(c, _) => s.calls[c].user == u && u in s.db.users
    case RevokeAll(_, v) => v == u
    case EmailCommit(c) => s.calls[c].user == u && s.calls[c].token in s.db.changes && u in s.db.users
    case ToggleCommit(c) => s.calls[c].user == u && u in s.db.users
    case LinkCommit(c) =>
      && s.calls[c].user == u && u in s.db.users
      && (s.calls[c].Linking? ==>
            && s.db.users[u].MaySignIn() && s.db.users[u].google.None?
            && forall v :: v in s.db.users ==> s.db.users[v].google != Some(s.calls[c].subject))
    case UnlinkCommit(c) => s.calls[c].user == u && u in s.db.users && s.db.users[u].google.Some?
    case OperatorSync(v, _) => v == u
    case BootstrapMigrate(v, _) => v == u
    case _ => false
  }

  predicate VoidsResets(a: Action) {
    a.ResetCommit? || a.PasswordCommit? || a.RevokeAll? || a.EmailCommit? || a.LinkCommit?
  }

  predicate VoidsChanges(a: Action) {
    a.ResetCommit? || a.PasswordCommit? || a.EmailCommit?
  }

  // The sessions a change cuts, and the one it spares.
  ghost predicate CutsAs(s: State, a: Action, e: Event, u: UserId)
    requires Enabled(s, a)
  {
    && (e.Cuts(u) <==> a.ResetCommit? || a.PasswordCommit? || a.RevokeAll? || a.EmailCommit? || a.ToggleCommit?)
    && forall t :: e.Keeps(t) <==>
         || (a.PasswordCommit? && s.calls[a.c].keep == t)
         || (a.EmailCommit? && s.calls[a.c].spared == Some(t))
         || (a.ToggleCommit? && s.calls[a.c].spared == Some(t))
  }

  ghost predicate Void(s: State, a: Action, d: Db, u: UserId)
    requires Enabled(s, a)
  {
    && (VoidsResets(a) ==> forall t :: t in d.resets ==> d.resets[t].user != u)
    && (VoidsChanges(a) ==> forall t :: t in d.changes ==> d.changes[t].user != u)
    && (a.VerifyCommit? ==> s.calls[a.c].token !in d.verifications)
  }

  lemma RecoveryCommits(s: State, a: Action, u: UserId)
    requires Enabled(s, a) && (a.VerifyCommit? || a.ResetCommit? || a.PasswordCommit? || a.RevokeAll? || a.EmailCommit?)
    ensures Effect(s, a).event.Bumps(u) <==> Commits(s, a, u)
    ensures Commits(s, a, u) ==> (Effect(s, a).event.Hard(u) <==> VoidsResets(a)) && CutsAs(s, a, Effect(s, a).event, u)
  {
  }

  lemma RecoveryVoids(s: State, a: Action, u: UserId)
    requires Enabled(s, a) && (a.VerifyCommit? || a.ResetCommit? || a.PasswordCommit? || a.RevokeAll? || a.EmailCommit?)
    ensures Commits(s, a, u) ==> Void(s, a, Effect(s, a).db, u)
  {
  }

  lemma MethodCommits(s: State, a: Action, u: UserId)
    requires Enabled(s, a) && Holds(a)
    ensures Effect(s, a).event.Bumps(u) <==> Commits(s, a, u)
    ensures Commits(s, a, u) ==> (Effect(s, a).event.Hard(u) <==> VoidsResets(a)) && CutsAs(s, a, Effect(s, a).event, u)
  {
  }

  lemma MethodVoids(s: State, a: Action, u: UserId)
    requires Enabled(s, a) && Holds(a)
    ensures Commits(s, a, u) ==> Void(s, a, Effect(s, a).db, u)
  {
  }

  lemma OthersCommit(s: State, a: Action, u: UserId)
    requires Enabled(s, a) && !Holds(a) && !(a.VerifyCommit? || a.ResetCommit? || a.PasswordCommit? || a.RevokeAll? || a.EmailCommit?)
    ensures Effect(s, a).event.Bumps(u) <==> Commits(s, a, u)
    ensures Commits(s, a, u) ==>
      !Effect(s, a).event.Hard(u) && CutsAs(s, a, Effect(s, a).event, u) && Void(s, a, Effect(s, a).db, u)
  {
    if IsRead(a) {
      ReadMoves(s, a);
    }
  }

  /** A change takes place exactly when its rows are as it needs them; it deletes the user's
      reset tokens if it is a reset, a password change, a revoke-all, a confirmed address or a
      link, pending e-mail changes for three of these, and the verification token it used; and
      it cuts sessions but for the one it spares. */
  lemma ChangesIff(s: State, a: Action, u: UserId)
    ensures var (t, e) := Step(s, a);
      && (e.Bumps(u) <==> Enabled(s, a) && Commits(s, a, u))
      && (e.Bumps(u) ==> (e.Hard(u) <==> VoidsResets(a)) && CutsAs(s, a, e, u) && Void(s, a, t.db, u))
  {
    hide Effect;
    hide Enabled;
    hide Commits;
    hide CutsAs;
    hide Void;
    StepIs(s, a);
    hide Step;
    if Enabled(s, a) {
      if Holds(a) {
        MethodCommits(s, a, u);
        MethodVoids(s, a, u);
      } else if a.VerifyCommit? || a.ResetCommit? || a.PasswordCommit? || a.RevokeAll? || a.EmailCommit? {
        RecoveryCommits(s, a, u);
        RecoveryVoids(s, a, u);
      } else {
        OthersCommit(s, a, u);
      }
    }
  }

  lemma EmailCommitStep(s: State, a: Action)
    requires a.EmailCommit? && Step(s, a).1.Change?
    ensures a.c in s.calls && s.calls[a.c].Confirming? && s.calls[a.c].user == Step(s, a).1.user
    ensures s.calls[a.c].token in s.db.changes
  {
  }

  /** A pending e-mail change does not survive a password change, a reset or another confirmed
      change: what is confirmed later was requested later. */
  lemma PendingChangeIsVoid(s: State, acts: seq<Action>, i: nat, j: nat)
    requires Consistent(s) && i < j < |acts|
    requires VoidsChanges(acts[i]) && acts[j].EmailCommit? && Trace(s, acts)[j].Change?
    requires Trace(s, acts)[i].Bumps(Trace(s, acts)[j].user)
    ensures var t := Run(s, acts[..j]); acts[j].c in t.calls && t.calls[acts[j].c].Confirming?
    ensures Run(s, acts[..j]).calls[acts[j].c].token !in Run(s, acts[..i + 1]).db.issued
  {
    var u := Trace(s, acts)[j].user;
    TraceAt(s, acts, i);
    TraceAt(s, acts, j);
    assert acts[..i + 1][..i] == acts[..i];
    var before, later := Run(s, acts[..i]), Run(s, acts[..j]);
    assert Run(s, acts[..i + 1]) == Step(before, acts[i]).0;
    EmailCommitStep(later, acts[j]);
    ChangesIff(before, acts[i], u);
    RunIsConsistent(s, acts[..j]);
    var token := later.calls[acts[j].c].token;
    assert CallOk(later.db, later.calls[acts[j].c]);
    hide Step;
    hide Consistent;
    if token in Run(s, acts[..i + 1]).db.issued {
      TokenKeepsUser(s, acts, i + 1, j, token);
    }
  }

  // While it is pending a change token belongs to one user.
  lemma {:induction false} TokenKeepsUser(s: State, acts: seq<Action>, i: nat, j: nat, t: Selector)
    requires Consistent(s) && i <= j <= |acts|
    requires t in Run(s, acts[..i]).db.issued && t in Run(s, acts[..j]).db.changes
    ensures t in Run(s, acts[..i]).db.changes && Run(s, acts[..i]).db.changes[t] == Run(s, acts[..j]).db.changes[t]
    decreases j
  {
    hide Step;
    hide Consistent;
    if i < j {
      assert acts[..j][..j - 1] == acts[..j - 1];
      IssuedStays(s, acts, i, j - 1, t);
      RunIsConsistent(s, acts[..j - 1]);
      TokenStep(Run(s, acts[..j - 1]), acts[j - 1], t);
      TokenKeepsUser(s, acts, i, j - 1, t);
    }
  }

  lemma {:induction false} IssuedStays(s: State, acts: seq<Action>, i: nat, j: nat, t: Selector)
    requires Consistent(s) && i <= j <= |acts| && t in Run(s, acts[..i]).db.issued
    ensures t in Run(s, acts[..j]).db.issued
    decreases j
  {
    hide Step;
    hide Consistent;
    if i < j {
      IssuedStays(s, acts, i, j - 1, t);
      assert acts[..j][..j - 1] == acts[..j - 1];
      RunIsConsistent(s, acts[..j - 1]);
      IssuedStep(Run(s, acts[..j - 1]), acts[j - 1], t);
    }
  }

  lemma IssuedStep(s: State, a: Action, t: Selector)
    requires Consistent(s) && t in s.db.issued
    ensures t in Step(s, a).0.db.issued
  {
    hide Enabled;
    hide Effect;
    StepIs(s, a);
    hide Step;
    if Enabled(s, a) {
      EffectMoves(s, a);
    }
  }

  lemma TokenStep(s: State, a: Action, t: Selector)
    requires Consistent(s) && t in s.db.issued && t in Step(s, a).0.db.changes
    ensures t in s.db.changes && Step(s, a).0.db.changes[t] == s.db.changes[t]
  {
    hide Enabled;
    hide Effect;
    StepIs(s, a);
    hide Step;
    if Enabled(s, a) {
      EffectMoves(s, a);
    }
  }
}
