/**
 What the credential operations promise over whole runs, for every starting
 database and every interleaving of every number of calls.
 */
module CredentialTheorems {
  import opened Wrappers
  import opened Credentials
  import opened CredentialProofs

  // The events of a run, without their order.
  function Past(s: State, acts: seq<Action>): set<Event> {
    if acts == [] then {}
    else
      var prefix := acts[..|acts| - 1];
      Past(s, prefix) + {Step(Run(s, prefix), acts[|acts| - 1]).1}
  }

  // A state the server may be in, calls in progress included.
  ghost predicate Consistent(s: State) {
    Inv(s, {})
  }

  lemma StartIsConsistent(s: State)
    requires Start(s)
    ensures Consistent(s)
  {
  }

  lemma RunIsConsistent(s: State, acts: seq<Action>)
    requires Consistent(s)
    ensures Consistent(Run(s, acts))
  {
    RunKeepsInvariant(s, acts);
  }

  lemma {:induction false} RunKeepsInvariant(s: State, acts: seq<Action>)
    requires Consistent(s)
    ensures Inv(Run(s, acts), Past(s, acts))
  {
    if acts == [] {
    } else {
      var prefix := acts[..|acts| - 1];
      RunKeepsInvariant(s, prefix);
      InvStep(Run(s, prefix), acts[|acts| - 1], Past(s, prefix));
    }
  }

  lemma {:induction false} TraceAt(s: State, acts: seq<Action>, i: nat)
    requires i < |acts|
    ensures Trace(s, acts)[i] == Step(Run(s, acts[..i]), acts[i]).1
    decreases |acts|
  {
    var n := |acts| - 1;
    if i < n {
      TraceAt(s, acts[..n], i);
      assert acts[..n][..i] == acts[..i];
    }
  }

  lemma {:induction false} EarlierIsPast(s: State, acts: seq<Action>, i: nat, j: nat)
    requires i < j <= |acts|
    ensures Trace(s, acts)[i] in Past(s, acts[..j])
    decreases j
  {
    hide Step;
    TraceAt(s, acts, i);
    var prefix := acts[..j][..j - 1];
    assert prefix == acts[..j - 1];
    if i < j - 1 {
      EarlierIsPast(s, acts, i, j - 1);
    }
  }

  /** Every verified user can always still sign in somehow. */
  lemma WayInAlways(s: State, acts: seq<Action>, u: UserId)
    requires Consistent(s)
    ensures var db := Run(s, acts).db;
      u in db.users && db.users[u].verified ==> db.users[u].HasWayIn()
  {
    RunKeepsInvariant(s, acts);
    assert UsersOk(Run(s, acts).db);
  }

  /** authMethodsMu has at most one holder. */
  lemma MutualExclusion(s: State, acts: seq<Action>, c: CallId, d: CallId)
    requires Consistent(s)
    ensures var t := Run(s, acts);
      c in t.calls && d in t.calls && t.calls[c].Locked() && t.calls[d].Locked() ==> c == d
  {
    RunKeepsInvariant(s, acts);
    var t := Run(s, acts);
    assert LockOk(t);
  }

  /** The state just before action j, with everything that happened earlier. */
  lemma BeforeAction(s: State, acts: seq<Action>, j: nat)
    requires Consistent(s) && j < |acts|
    ensures Inv(Run(s, acts[..j]), Past(s, acts[..j]))
    ensures Trace(s, acts)[j] == Step(Run(s, acts[..j]), acts[j]).1
  {
    RunKeepsInvariant(s, acts[..j]);
    TraceAt(s, acts, j);
  }

  // The step behind a ResetDone event.
  lemma ResetStep(s: State, a: Action)
    requires Step(s, a).1.ResetDone?
    ensures a.ResetCommit? && a.c in s.calls && s.calls[a.c].Resetting? && s.calls[a.c].token in s.db.resets
    ensures var e, call := Step(s, a).1, s.calls[a.c];
      && e.token == call.token && e.user == call.user && e.tokenGen == call.gen
      && e.user in s.db.users && e.gen == s.db.users[e.user].gen + 1
  {
  }

  /** A reset that commits after a password change, an earlier reset, an e-mail
      change, a revoke-all or a Google (re-)link was issued at or after it. */
  lemma ResetUsesCurrentToken(s: State, acts: seq<Action>, i: nat, j: nat)
    requires Consistent(s) && i < j < |acts|
    requires Trace(s, acts)[j].ResetDone? && Trace(s, acts)[i].Hard(Trace(s, acts)[j].user)
    ensures Trace(s, acts)[i].gen <= Trace(s, acts)[j].tokenGen
  {
    BeforeAction(s, acts, j);
    EarlierIsPast(s, acts, i, j);
    var t := Run(s, acts[..j]);
    ResetStep(t, acts[j]);
    assert CallsPast(t, Past(s, acts[..j]));
    assert ConsumerPast(t.db, t.calls[acts[j].c], Trace(s, acts)[i]);
  }

  /** A reset token commits at most once. */
  lemma TokenCommitsOnce(s: State, acts: seq<Action>, i: nat, j: nat)
    requires Consistent(s) && i < j < |acts|
    requires Trace(s, acts)[i].ResetDone? && Trace(s, acts)[j].ResetDone?
    ensures Trace(s, acts)[i].token != Trace(s, acts)[j].token
  {
    BeforeAction(s, acts, j);
    EarlierIsPast(s, acts, i, j);
    var t := Run(s, acts[..j]);
    ResetStep(t, acts[j]);
    assert EventPast(t.db, Trace(s, acts)[i]);
  }

  lemma SessionStep(s: State, a: Action)
    requires Step(s, a).1.SessionInserted?
    ensures a.SessionInsert? && a.c in s.calls && s.calls[a.c].LoginReady?
    ensures var e, call := Step(s, a).1, s.calls[a.c];
      && e.user == call.user && e.gen == call.gen && e.hash == call.hash
      && e.user in s.db.users && e.gen == s.db.users[e.user].gen && s.db.users[e.user].MaySignIn()
  {
  }

  /** A session minted by a password sign-in: the hash that authorised it is
      still the stored one, and password sign-in is still on, at the insert. */
  lemma SessionWasAuthorised(s: State, acts: seq<Action>, i: nat)
    requires Consistent(s) && i < |acts| && Trace(s, acts)[i].SessionInserted? && Trace(s, acts)[i].hash.Some?
    ensures var e, db := Trace(s, acts)[i], Run(s, acts[..i]).db;
      && e.user in db.users && db.users[e.user].MaySignIn()
      && db.users[e.user].pwEnabled && db.users[e.user].hash == e.hash.value
  {
    BeforeAction(s, acts, i);
    var t := Run(s, acts[..i]);
    SessionStep(t, acts[i]);
    assert CallOk(t.db, t.calls[acts[i].c]);
  }

  // Every change of a user sets a generation above any a session was minted at before.
  lemma ChangeIsNewer(s: State, acts: seq<Action>, i: nat, k: nat)
    requires Consistent(s) && i < k < |acts|
    requires Trace(s, acts)[i].SessionInserted? && Trace(s, acts)[k].Bumps(Trace(s, acts)[i].user)
    ensures Trace(s, acts)[i].gen < Trace(s, acts)[k].gen
  {
    BeforeAction(s, acts, k);
    EarlierIsPast(s, acts, i, k);
    RunIsConsistent(s, acts[..k]);
    ChangeStep(Run(s, acts[..k]), acts[k], Trace(s, acts)[i].user);
    assert EventPast(Run(s, acts[..k]).db, Trace(s, acts)[i]);
  }

  lemma ChangeStep(s: State, a: Action, u: UserId)
    requires Consistent(s) && Step(s, a).1.Bumps(u)
    ensures u in s.db.users && Step(s, a).1.gen == s.db.users[u].gen + 1
  {
    EffectMoves(s, a);
    assert UsersMove(s.db, Effect(s, a).db, Effect(s, a).event, Holds(a));
  }

  lemma StepFrame(s: State, a: Action)
    requires Consistent(s)
    ensures var (t, e) := Step(s, a);
      && UsersMove(s.db, t.db, e, true) && SessionsMove(s.db, t.db, e) && EventOk(s.db, t.db, e)
  {
    if Enabled(s, a) {
      EffectMoves(s, a);
      LockStep(s, a);
    } else {
      NothingMoves(s.db);
    }
  }

  function Changes(tr: seq<Event>, u: UserId): nat {
    if tr == [] then 0
    else Changes(tr[..|tr| - 1], u) + (if tr[|tr| - 1].Bumps(u) then 1 else 0)
  }

  lemma {:induction false} NoChanges(tr: seq<Event>, u: UserId)
    ensures Changes(tr, u) == 0 <==> forall i :: 0 <= i < |tr| ==> !tr[i].Bumps(u)
  {
    if tr != [] {
      var prefix := tr[..|tr| - 1];
      NoChanges(prefix, u);
      assert forall i :: 0 <= i < |prefix| ==> prefix[i] == tr[i];
    }
  }

  /** auth_generation counts exactly the user's credential changes. */
  lemma {:induction false} GenerationCountsChanges(s: State, acts: seq<Action>, u: UserId)
    requires Consistent(s)
    ensures s.db.known <= Run(s, acts).db.known
    ensures var db := Run(s, acts).db;
      u in db.users ==>
        db.users[u].gen == (if u in s.db.users then s.db.users[u].gen else 0) + Changes(Trace(s, acts), u)
    ensures u !in Run(s, acts).db.known ==> Changes(Trace(s, acts), u) == 0
  {
    if acts != [] {
      var prefix, a := acts[..|acts| - 1], acts[|acts| - 1];
      var t := Run(s, prefix);
      GenerationCountsChanges(s, prefix, u);
      RunIsConsistent(s, prefix);
      StepFrame(t, a);
      assert Trace(s, acts)[..|acts| - 1] == Trace(s, prefix);
    }
  }

  // A session row was there at the start, or its insertion is in the trace.
  lemma {:induction false} RowsAreInserted(s: State, acts: seq<Action>, t: Selector)
    requires Consistent(s) && t in Run(s, acts).db.sessions
    ensures var row := Run(s, acts).db.sessions[t];
      (t in s.db.sessions && s.db.sessions[t] == row) ||
      exists i :: 0 <= i < |acts| && Trace(s, acts)[i].SessionInserted? && Trace(s, acts)[i].session == t
  {
    hide Step;
    hide Consistent;
    if acts != [] {
      var prefix, a := acts[..|acts| - 1], acts[|acts| - 1];
      RunIsConsistent(s, prefix);
      StepFrame(Run(s, prefix), a);
      assert Trace(s, acts)[|acts| - 1] == Step(Run(s, prefix), a).1;
      if t in Run(s, prefix).db.sessions {
        RowsAreInserted(s, prefix, t);
        assert forall i :: 0 <= i < |prefix| ==> Trace(s, prefix)[i] == Trace(s, acts)[i];
      }
    }
  }

  // A change event sets a generation above the one the run started from.
  lemma ChangeIsAboveStart(s: State, acts: seq<Action>, k: nat, u: UserId)
    requires Consistent(s) && k < |acts| && Trace(s, acts)[k].Bumps(u)
    ensures u in s.db.users ==> s.db.users[u].gen < Trace(s, acts)[k].gen
  {
    BeforeAction(s, acts, k);
    RunIsConsistent(s, acts[..k]);
    ChangeStep(Run(s, acts[..k]), acts[k], u);
    GenerationCountsChanges(s, acts[..k], u);
  }

  /** A session row that outlived a change that revokes sessions is the one it
      spared, or was inserted later by a sign-in that read the new generation. */
  lemma SurvivingSession(s: State, acts: seq<Action>, k: nat, t: Selector)
    requires Consistent(s) && k < |acts|
    requires t in Run(s, acts).db.sessions && Trace(s, acts)[k].Cuts(Run(s, acts).db.sessions[t].user)
    ensures
      var row := Run(s, acts).db.sessions[t];
      Trace(s, acts)[k].Keeps(t) ||
      exists i :: k < i < |acts| &&
        Trace(s, acts)[i].SessionInserted? && Trace(s, acts)[i].session == t && Trace(s, acts)[i].user == row.user &&
        Trace(s, acts)[i].gen == row.gen && row.gen >= Trace(s, acts)[k].gen
  {
    hide Step;
    hide Run;
    hide Trace;
    RunKeepsInvariant(s, acts);
    var db := Run(s, acts).db;
    assert acts[..|acts|] == acts;
    EarlierIsPast(s, acts, k, |acts|);
    assert EventPast(db, Trace(s, acts)[k]) && SessionPast(db, t, Trace(s, acts)[k]);
    ChangeIsAboveStart(s, acts, k, db.sessions[t].user);
    RowsAreInserted(s, acts, t);
    if !Trace(s, acts)[k].Keeps(t) {
      assert t in s.db.sessions ==> s.db.sessions[t].user in s.db.users;
      var i :| 0 <= i < |acts| && Trace(s, acts)[i].SessionInserted? && Trace(s, acts)[i].session == t;
      EarlierIsPast(s, acts, i, |acts|);
      assert EventPast(db, Trace(s, acts)[i]);
      if i < k {
        ChangeIsNewer(s, acts, i, k);
      }
    }
  }

  // A session row's owner is verified, so whoever authenticates with one is.
  lemma SessionOwnerIsVerified(s: State, acts: seq<Action>, t: Selector)
    requires Consistent(s) && t in Run(s, acts).db.sessions
    ensures var db := Run(s, acts).db;
      db.sessions[t].user in db.users && db.users[db.sessions[t].user].verified
  {
    RunKeepsInvariant(s, acts);
    assert SessionsOk(Run(s, acts).db);
  }

  /******* The resets that are not fresh *******/

  /** From the read of a token to its commit no hard change can have committed,
      and the commit uses the current generation exactly when nothing else
      (a sign-in toggle, a Google unlink, a verification) has bumped it either. */
  lemma ResetIsCurrentIffUndisturbed(s: State, acts: seq<Action>, a: Action)
    requires Consistent(s) && a.ResetCommit? && a.c in s.calls && s.calls[a.c].Resetting?
    requires s.calls[a.c].user in s.db.users && s.calls[a.c].gen == s.db.users[s.calls[a.c].user].gen
    requires var t := Run(s, acts); a.c in t.calls && t.calls[a.c] == s.calls[a.c] && Step(t, a).1.ResetDone?
    ensures var u := s.calls[a.c].user;
      && u in Run(s, acts).db.users
      && (forall i :: 0 <= i < |acts| ==> !Trace(s, acts)[i].Hard(u))
      && (s.calls[a.c].gen == Run(s, acts).db.users[u].gen <==>
            forall i :: 0 <= i < |acts| ==> !Trace(s, acts)[i].Bumps(u))
  {
    var u := s.calls[a.c].user;
    var t := Run(s, acts);
    ResetStep(t, a);
    RunKeepsInvariant(s, acts);
    assert acts[..|acts|] == acts;
    forall i | 0 <= i < |acts|
      ensures !Trace(s, acts)[i].Hard(u)
    {
      if Trace(s, acts)[i].Hard(u) {
        EarlierIsPast(s, acts, i, |acts|);
        assert ConsumerPast(t.db, t.calls[a.c], Trace(s, acts)[i]);
        ChangeIsAboveStart(s, acts, i, u);
      }
    }
    GenerationCountsChanges(s, acts, u);
    NoChanges(Trace(s, acts), u);
  }

  // Call c has read a current reset token; before it commits, call d makes the
  // account passkey-only.
  ghost predicate RaceReady(s: State, c: CallId, d: CallId, u: UserId) {
    && c in s.calls && s.calls[c].Resetting? && s.calls[c].user == u && d !in s.calls && s.lock == None
    && u in s.db.users && s.db.users[u].google.None? && s.db.users[u].passkeys != {}
    && s.calls[c].gen == s.db.users[u].gen && s.calls[c].token in s.db.resets
  }

  function Race(c: CallId, d: CallId, u: UserId, keep: Selector, hash: PasswordHash): seq<Action> {
    [ToggleGuard(d, u, Some(keep), false), ToggleCommit(d), ResetCommit(c, hash)]
  }

  /** Then the reset still commits, on a token older than the toggle, and turns
      password sign-in back on: the toggle leaves the token row in place. */
  lemma ToggleLosesRace(s: State, c: CallId, d: CallId, u: UserId, keep: Selector, hash: PasswordHash)
    requires RaceReady(s, c, d, u) && hash.Phc?
    ensures var tr, t := Trace(s, Race(c, d, u, keep, hash)), Run(s, Race(c, d, u, keep, hash));
      && |tr| == 3 && tr[1].Bumps(u) && tr[2].ResetDone? && tr[2].user == u && tr[2].tokenGen < tr[1].gen
      && u in t.db.users && t.db.users[u].pwEnabled && t.db.users[u].hash == hash
  {
    var acts := Race(c, d, u, keep, hash);
    RunThree(s, acts);
    TraceAt(s, acts, 1);
    TraceAt(s, acts, 2);
    RaceToggle(s, c, d, u, keep);
    RaceReset(Run(s, acts[..2]), c, u, hash);
  }

  lemma RaceToggle(s: State, c: CallId, d: CallId, u: UserId, keep: Selector)
    requires RaceReady(s, c, d, u)
    ensures var s1 := Step(s, ToggleGuard(d, u, Some(keep), false)).0;
      var (s2, e) := Step(s1, ToggleCommit(d));
      && e == Change(u, s.calls[c].gen + 1, false, AllBut(Some(keep)))
      && c in s2.calls && s2.calls[c] == s.calls[c] && s.calls[c].token in s2.db.resets
      && u in s2.db.users && s2.db.users[u].google.None?
  {
    var s1 := Step(s, ToggleGuard(d, u, Some(keep), false)).0;
    assert s1 == State(s.db, s.calls[d := Toggling(u, Some(keep), false)], Some(d));
    assert Effect(s1, ToggleCommit(d)) == TogglePassword(s1, d);
  }

  lemma RaceReset(s: State, c: CallId, u: UserId, hash: PasswordHash)
    requires c in s.calls && s.calls[c].Resetting? && s.calls[c].user == u && s.calls[c].token in s.db.resets
    requires u in s.db.users && s.db.users[u].google.None? && hash.Phc?
    ensures var (t, e) := Step(s, ResetCommit(c, hash));
      && e.ResetDone? && e.user == u && e.tokenGen == s.calls[c].gen
      && u in t.db.users && t.db.users[u].pwEnabled && t.db.users[u].hash == hash
  {
    assert Effect(s, ResetCommit(c, hash)) == ConsumeReset(s, c, hash);
  }

  lemma RunThree(s: State, acts: seq<Action>)
    requires |acts| == 3
    ensures Run(s, acts[..1]) == Step(s, acts[0]).0
    ensures Run(s, acts[..2]) == Step(Step(s, acts[0]).0, acts[1]).0
    ensures Run(s, acts) == Step(Step(Step(s, acts[0]).0, acts[1]).0, acts[2]).0
  {
    assert acts[..1][..0] == [] && acts[..2][..1] == acts[..1];
    assert Run(s, acts[..1][..0]) == s;
  }

  // Call c has read a current reset token of a user whom call d is about to verify.
  ghost predicate VerifyRaceReady(s: State, c: CallId, d: CallId, u: UserId) {
    && c in s.calls && s.calls[c].Resetting? && s.calls[c].user == u && c != d
    && d in s.calls && s.calls[d].Verifying? && s.calls[d].user == u && s.calls[d].token in s.db.verifications
    && u in s.db.users && !s.db.users[u].verified && s.db.users[u].google.None?
    && s.calls[c].gen == s.db.users[u].gen && s.calls[c].token in s.db.resets
  }

  /** A verification in between does not stop the reset either: it commits on a token older
      than the verification and replaces the password that one set. */
  lemma VerificationLosesRace(s: State, c: CallId, d: CallId, u: UserId, chosen: PasswordHash, hash: PasswordHash)
    requires VerifyRaceReady(s, c, d, u) && chosen.Phc? && hash.Phc?
    ensures var (s1, e1) := Step(s, VerifyCommit(d, chosen)); var (s2, e2) := Step(s1, ResetCommit(c, hash));
      && u in s1.db.users && s1.db.users[u].verified && s1.db.users[u].hash == chosen && e1.Bumps(u)
      && e2.ResetDone? && e2.user == u && e2.tokenGen < e1.gen
      && u in s2.db.users && s2.db.users[u].pwEnabled && s2.db.users[u].hash == hash
  {
    var s1 := Step(s, VerifyCommit(d, chosen)).0;
    assert Effect(s, VerifyCommit(d, chosen)) == ConsumeVerification(s, d, chosen);
    assert c in s1.calls && s1.calls[c] == s.calls[c] && s1.calls[c].token in s1.db.resets;
    hide Step;
    RaceReset(s1, c, u, hash);
  }

  const VERIFY_RACE_START := State(
    Db(map[0 := User(false, true, Pending, false, Empty, None, {}, 0)], map[5 := ResetToken(0, 0)], map[], map[6 := 0], map[],
       {5, 6}, {0}),
    map[], None)

  /** That race arises too: a user who signed up, asked for a reset and was not verified yet. */
  lemma VerifyRaceHappens()
    ensures Start(VERIFY_RACE_START) && Consistent(VERIFY_RACE_START)
    ensures VerifyRaceReady(Step(Step(VERIFY_RACE_START, ResetRead(2, 5)).0, VerifyRead(3, 6)).0, 2, 3, 0)
  {
    var s := VERIFY_RACE_START;
    assert UserOk(s.db.users[0]);
    assert Effect(s, ResetRead(2, 5)) == Quietly(s.db, Goto(Resetting(0, 5, 0)));
    var t := Step(s, ResetRead(2, 5)).0;
    assert Effect(t, VerifyRead(3, 6)) == Quietly(s.db, Goto(Verifying(0, 6)));
    StartIsConsistent(s);
  }

  const RACE_START := State(
    Db(map[0 := User(true, true, Active, true, Phc(1), None, {7}, 0)], map[5 := ResetToken(0, 0)], map[], map[], map[],
       {5}, {0}),
    map[], None)

  /** Such states do arise: a user with a passkey and one unused reset token. */
  lemma RaceHappens()
    ensures Start(RACE_START) && Consistent(RACE_START) && RaceReady(Step(RACE_START, ResetRead(2, 5)).0, 2, 3, 0)
  {
    var db := RACE_START.db;
    assert UserOk(db.users[0]) && 7 in db.users[0].passkeys;
    assert Effect(RACE_START, ResetRead(2, 5)) == Quietly(db, Goto(Resetting(0, 5, 0)));
    StartIsConsistent(RACE_START);
  }
}
