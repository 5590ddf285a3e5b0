/**
 The customer session cache against the tables it speeds up.
 */
module UserSessionProofs {
  import opened Wrappers
  import opened UserSessions

  /******* Rows *******/

  lemma ClockStays(s: State, a: Action, cfg: Config)
    requires Enabled(s, a)
    ensures var t := Effect(s, a, cfg).0;
      s.now <= t.now && s.rev <= t.rev && (a.Invalidate? || a.DropEnd? ==> s.rev < t.rev)
  {
  }

  lemma UsersStay(s: State, a: Action, cfg: Config)
    requires Enabled(s, a)
    ensures var t := Effect(s, a, cfg).0;
      && (forall sel :: sel in s.issued ==> sel in t.issued && t.issued[sel] == s.issued[sel])
      && (forall u :: u in s.users ==> u in t.users && s.users[u].version <= t.users[u].version)
  {
  }

  lemma RowOwnersStay(s: State, a: Action, cfg: Config)
    requires Enabled(s, a) && RowsOk(s)
    ensures RowsOk(Effect(s, a, cfg).0)
  {
  }

  lemma IssuedOwnersStay(s: State, a: Action, cfg: Config)
    requires Enabled(s, a) && OwnersOk(s)
    ensures OwnersOk(Effect(s, a, cfg).0)
  {
  }

  lemma OwnersStay(s: State, a: Action, cfg: Config)
    requires Enabled(s, a) && RowsOk(s) && OwnersOk(s)
    ensures var t := Effect(s, a, cfg).0;
      && RowsOk(t) && OwnersOk(t) && s.now <= t.now && s.rev <= t.rev
      && (a.Invalidate? || a.DropEnd? ==> s.rev < t.rev)
      && (forall sel :: sel in s.issued ==> sel in t.issued && t.issued[sel] == s.issued[sel])
      && (forall u :: u in s.users ==> u in t.users && s.users[u].version <= t.users[u].version)
  {
    hide Effect;
    ClockStays(s, a, cfg);
    UsersStay(s, a, cfg);
    RowOwnersStay(s, a, cfg);
    IssuedOwnersStay(s, a, cfg);
  }

  lemma CopyStays(s: State, a: Action, cfg: Config, sel: Selector, owner: User, version: nat)
    requires Enabled(s, a) && RowsOk(s) && OwnersOk(s) && CopyOf(s, sel, owner, version)
    ensures CopyOf(Effect(s, a, cfg).0, sel, owner, version)
  {
    hide Effect;
    OwnersStay(s, a, cfg);
  }

  // A stored expiry only grows; a row goes when it has passed or its entry is to be dropped.
  ghost predicate RowMoves(s: State, t: State, sel: Selector) {
    && (sel in t.rows && sel in s.rows ==> s.rows[sel].expires <= t.rows[sel].expires)
    && (sel in t.rows && sel !in s.rows ==> sel !in s.issued)
    && (sel in s.rows && sel !in t.rows ==> s.rows[sel].expires < t.now || BeingDropped(t, sel))
  }

  lemma CutMoves(s: State, a: Action, cfg: Config, sel: Selector)
    requires Enabled(s, a) && RowsOk(s) && (a.Commit? || a.DeleteRows? || a.DeleteSession?)
    ensures RowMoves(s, Effect(s, a, cfg).0, sel)
  {
    var t := Effect(s, a, cfg).0;
    if sel in s.rows && sel !in t.rows {
      assert Drops(t, a.c, sel);
    }
  }

  lemma RowsMove(s: State, a: Action, cfg: Config, sel: Selector)
    requires cfg.Valid() && Enabled(s, a) && RowsOk(s)
    ensures RowMoves(s, Effect(s, a, cfg).0, sel)
  {
    if a.Commit? || a.DeleteRows? || a.DeleteSession? {
      hide Effect;
      CutMoves(s, a, cfg, sel);
    }
  }

  lemma DropStays(s: State, a: Action, cfg: Config, c: CallId, sel: Selector)
    requires Enabled(s, a) && Drops(s, c, sel)
    ensures Drops(Effect(s, a, cfg).0, c, sel) || ((a.Invalidate? || a.DropEnd?) && a.c == c)
  {
  }

  // What a call drops is not left in the cache.
  lemma DropDrops(s: State, a: Action, cfg: Config, sel: Selector)
    requires Enabled(s, a) && (a.Invalidate? || a.DropEnd?) && Drops(s, a.c, sel)
    requires sel in s.cache ==> s.cache[sel].owner == s.issued[sel]
    ensures sel !in Effect(s, a, cfg).0.cache
  {
  }

  lemma CoveredStays(s: State, a: Action, cfg: Config, sel: Selector, session: int)
    requires cfg.Valid() && Enabled(s, a) && RowsOk(s) && OwnersOk(s) && Covered(s, sel, session)
    ensures Covered(Effect(s, a, cfg).0, sel, session) || ((a.Invalidate? || a.DropEnd?) && Drops(s, a.c, sel))
  {
    hide Effect;
    hide Drops;
    OwnersStay(s, a, cfg);
    RowsMove(s, a, cfg, sel);
    if sel !in s.rows && session >= s.now {
      var c :| Drops(s, c, sel);
      DropStays(s, a, cfg, c, sel);
    }
  }

  /******* What is remembered *******/

  // A dropped session was drawn once.
  ghost predicate DropsDrawn(s: State, a: Action)
    requires Enabled(s, a)
  {
    a.DropEnd? ==> s.calls[a.c].sel in s.issued
  }

  lemma ActorDrops(s: State, a: Action, past: set<Event>)
    requires Enabled(s, a) && CallsOk(s, past)
    ensures DropsDrawn(s, a)
  {
    if a.DropEnd? {
      assert CallOk(s, past, s.calls[a.c]);
    }
  }

  lemma NewEvent(s: State, a: Action, cfg: Config, sel: Selector)
    requires Enabled(s, a) && RowsOk(s) && OwnersOk(s) && DropsDrawn(s, a)
    ensures var (t, e) := Effect(s, a, cfg);
      && (e.Invalidated? ==>
            && a.Invalidate? && e.keep == s.calls[a.c].keep
            && (forall u :: u in e.floor ==> u in t.users && u in s.calls[a.c].hit && e.floor[u] == t.users[u].version))
      && (e.Dropped? ==> a.DropEnd?)
      && ((e.Invalidated? || e.Dropped?) && sel in e.gone ==> Drops(s, a.c, sel) && sel in t.issued)
      && ((e.Invalidated? || e.Dropped?) && sel in e.gone ==> sel !in t.rows)
  {
  }

  lemma PastStep(s: State, a: Action, cfg: Config, past: set<Event>)
    requires Enabled(s, a) && RowsOk(s) && OwnersOk(s) && CallsOk(s, past) && PastOk(s, past)
    ensures PastOk(Effect(s, a, cfg).0, past + {Effect(s, a, cfg).1})
  {
    hide Effect;
    var (t, f) := Effect(s, a, cfg);
    OwnersStay(s, a, cfg);
    ActorDrops(s, a, past);
    NewEvent(s, a, cfg, 0);
    forall sel | Gone(past + {f}, sel)
      ensures sel in t.issued && sel !in t.rows
    {
      NewEvent(s, a, cfg, sel);
      GoneRowsStayGone(s, a, cfg, past, sel);
      if !Gone(past, sel) {
        assert (f.Invalidated? || f.Dropped?) && sel in f.gone;
      }
    }
  }

  lemma GoneRowsStayGone(s: State, a: Action, cfg: Config, past: set<Event>, sel: Selector)
    requires Enabled(s, a) && CallsOk(s, past) && PastOk(s, past)
    ensures Gone(past, sel) ==> sel in Effect(s, a, cfg).0.issued && sel !in Effect(s, a, cfg).0.rows
  {
  }

  // A copy nobody is dropping right now stays as current as it was.
  lemma HoldStays(s: State, a: Action, cfg: Config, past: set<Event>, sel: Selector, held: Held)
    requires cfg.Valid() && Enabled(s, a) && RowsOk(s) && OwnersOk(s) && DropsDrawn(s, a)
    requires CopyOf(s, sel, held.owner, held.version) && HoldOk(s, past, sel, held)
    requires a.Invalidate? || a.DropEnd? ==> !Drops(s, a.c, sel)
    ensures HoldOk(Effect(s, a, cfg).0, past + {Effect(s, a, cfg).1}, sel, held)
  {
    hide Effect;
    hide Covered;
    var (t, f) := Effect(s, a, cfg);
    CoveredStays(s, a, cfg, sel, held.session);
    NewEvent(s, a, cfg, sel);
    assert Current(past + {f}, sel, held.owner, held.version);
    assert !Gone(past + {f}, sel);
  }

  /******* The cache *******/

  lemma EntriesFrom(s: State, a: Action, cfg: Config, sel: Selector)
    requires Enabled(s, a) && sel in Effect(s, a, cfg).0.cache
    ensures (a.Publish? && s.calls[a.c].sel == sel && s.rev == s.calls[a.c].gen)
      || (sel in s.cache && Effect(s, a, cfg).0.cache[sel] == s.cache[sel])
  {
  }

  lemma PublishIs(s: State, a: Action, cfg: Config)
    requires Enabled(s, a) && a.Publish? && s.calls[a.c].gen == s.rev
    ensures var (t, e) := Effect(s, a, cfg); var call := s.calls[a.c]; var best := Best(s.cache, call.sel, call.held.session);
      && call.sel in t.cache
      && t.cache[call.sel] == Entry(call.held.owner, call.held.version, best, call.now + cfg.cacheTtl)
      && e == Granted(call.sel, call.held.(session := best), call.now)
      && t.rows == s.rows && t.users == s.users && t.issued == s.issued && t.now == s.now
  {
  }

  // The better of the cached expiry and the one in hand is still covered.
  lemma BestIsHeld(s: State, past: set<Event>, call: Call)
    requires CacheOk(s, past) && call.Ready? && call.gen == s.rev && CallOk(s, past, call)
    ensures var held := call.held.(session := Best(s.cache, call.sel, call.held.session));
      HoldOk(s, past, call.sel, held) && CopyOf(s, call.sel, held.owner, held.version)
  {
    if call.sel in s.cache {
      assert EntryOk(s, past, call.sel, s.cache[call.sel]);
    }
  }

  lemma EntryStep(s: State, a: Action, cfg: Config, past: set<Event>, sel: Selector)
    requires cfg.Valid() && Enabled(s, a) && Inv(s, past) && sel in Effect(s, a, cfg).0.cache
    ensures EntryOk(Effect(s, a, cfg).0, past + {Effect(s, a, cfg).1}, sel, Effect(s, a, cfg).0.cache[sel])
  {
    hide Effect;
    hide HoldOk;
    hide CopyOf;
    var t := Effect(s, a, cfg).0;
    var e := t.cache[sel];
    ActorDrops(s, a, past);
    EntriesFrom(s, a, cfg, sel);
    if a.Publish? && s.calls[a.c].sel == sel && s.rev == s.calls[a.c].gen {
      assert CallOk(s, past, s.calls[a.c]);
      PublishIs(s, a, cfg);
      BestIsHeld(s, past, s.calls[a.c]);
    } else {
      assert EntryOk(s, past, sel, s.cache[sel]);
      if a.Invalidate? || a.DropEnd? {
        OwnerOfEntry(s, past, sel);
        if Drops(s, a.c, sel) {
          DropDrops(s, a, cfg, sel);
          assert false;
        }
      }
    }
    HoldStays(s, a, cfg, past, sel, Held(e.owner, e.version, e.session));
    CopyStays(s, a, cfg, sel, e.owner, e.version);
  }

  lemma OwnerOfEntry(s: State, past: set<Event>, sel: Selector)
    requires sel in s.cache && EntryOk(s, past, sel, s.cache[sel])
    ensures sel in s.issued && s.cache[sel].owner == s.issued[sel]
  {
  }

  /******* Calls *******/

  lemma OthersStay(s: State, a: Action, cfg: Config, c: CallId)
    requires Enabled(s, a) && c in Effect(s, a, cfg).0.calls
    requires !(a.Lookup? && a.c == c) && !(a.LoadRev? && a.c == c) && !(a.Load? && a.c == c) && !(a.Renew? && a.c == c)
    requires !(a.Commit? && a.c == c) && !(a.DeleteSession? && a.c == c)
    ensures c in s.calls && Effect(s, a, cfg).0.calls[c] == s.calls[c]
    ensures !((a.Invalidate? || a.DropEnd?) && a.c == c)
  {
  }

  lemma BystanderStep(s: State, a: Action, cfg: Config, past: set<Event>, call: Call)
    requires cfg.Valid() && Enabled(s, a) && Inv(s, past) && CallOk(s, past, call)
    ensures CallOk(Effect(s, a, cfg).0, past + {Effect(s, a, cfg).1}, call)
  {
    hide Effect;
    hide HoldOk;
    hide CopyOf;
    var t := Effect(s, a, cfg).0;
    OwnersStay(s, a, cfg);
    if call.Loaded? || call.Ready? {
      CopyStays(s, a, cfg, call.sel, call.held.owner, call.held.version);
      if call.gen == t.rev {
        HoldStays(s, a, cfg, past, call.sel, call.held);
      }
    }
  }

  lemma LookupIs(s: State, a: Action, cfg: Config)
    requires Enabled(s, a) && a.Lookup?
    ensures var (t, e) := Effect(s, a, cfg);
      && a.c in t.calls && t.rev == s.rev
      && t.calls[a.c] == if Usable(s.cache, a.sel, a.now) && a.matches
                         then Loaded(a.sel, a.now, s.rev, Held(s.cache[a.sel].owner, s.cache[a.sel].version, s.cache[a.sel].session))
                         else Missed(a.sel, a.now)
  {
  }

  lemma LookupOk(s: State, a: Action, cfg: Config, past: set<Event>)
    requires cfg.Valid() && Enabled(s, a) && a.Lookup? && Inv(s, past)
    ensures var (t, e) := Effect(s, a, cfg); a.c in t.calls && CallOk(t, past + {e}, t.calls[a.c])
  {
    hide Effect;
    hide HoldOk;
    hide CopyOf;
    LookupIs(s, a, cfg);
    if Usable(s.cache, a.sel, a.now) {
      var e := s.cache[a.sel];
      assert EntryOk(s, past, a.sel, e);
      HoldStays(s, a, cfg, past, a.sel, Held(e.owner, e.version, e.session));
      CopyStays(s, a, cfg, a.sel, e.owner, e.version);
    }
  }

  lemma LoadOk(s: State, a: Action, cfg: Config, past: set<Event>)
    requires Enabled(s, a) && a.Load? && RowsOk(s) && PastOk(s, past) && CallOk(s, past, s.calls[a.c])
    ensures var (t, e) := Effect(s, a, cfg); a.c in t.calls ==> CallOk(t, past + {e}, t.calls[a.c])
  {
  }

  lemma RenewOk(s: State, a: Action, cfg: Config, past: set<Event>)
    requires cfg.Valid() && Enabled(s, a) && a.Renew? && Inv(s, past)
    ensures var (t, e) := Effect(s, a, cfg); a.c in t.calls ==> CallOk(t, past + {e}, t.calls[a.c])
  {
    assert CallOk(s, past, s.calls[a.c]);
    var call := s.calls[a.c];
    if call.gen == s.rev {
      HoldStays(s, a, cfg, past, call.sel, call.held);
    }
    RenewKeeps(s, a, cfg);
  }

  // A renewal changes one expiry and one program counter.
  lemma RenewKeeps(s: State, a: Action, cfg: Config)
    requires Enabled(s, a) && a.Renew?
    ensures var (t, e) := Effect(s, a, cfg);
      && e == Quiet && t.users == s.users && t.issued == s.issued && t.rev == s.rev && t.now == s.now
  {
  }

  lemma OthersBegin(s: State, a: Action, cfg: Config, past: set<Event>)
    requires Enabled(s, a) && (a.LoadRev? || a.Commit? || a.DeleteSession?)
    ensures var (t, e) := Effect(s, a, cfg); a.c in t.calls ==> CallOk(t, past + {e}, t.calls[a.c])
  {
  }

  lemma CallStep(s: State, a: Action, cfg: Config, past: set<Event>, c: CallId)
    requires cfg.Valid() && Enabled(s, a) && Inv(s, past) && c in Effect(s, a, cfg).0.calls
    ensures CallOk(Effect(s, a, cfg).0, past + {Effect(s, a, cfg).1}, Effect(s, a, cfg).0.calls[c])
  {
    hide Effect;
    hide CallOk;
    if a.Lookup? && a.c == c {
      LookupOk(s, a, cfg, past);
    } else if a.Load? && a.c == c {
      LoadOk(s, a, cfg, past);
    } else if a.Renew? && a.c == c {
      RenewOk(s, a, cfg, past);
    } else if (a.LoadRev? || a.Commit? || a.DeleteSession?) && a.c == c {
      OthersBegin(s, a, cfg, past);
    } else {
      OthersStay(s, a, cfg, c);
      BystanderStep(s, a, cfg, past, s.calls[c]);
    }
  }

  lemma InvStep(s: State, a: Action, cfg: Config, past: set<Event>)
    requires cfg.Valid() && Inv(s, past)
    ensures Inv(Step(s, a, cfg).0, past + {Step(s, a, cfg).1})
  {
    hide Effect;
    if Enabled(s, a) {
      var (t, e) := Effect(s, a, cfg);
      OwnersStay(s, a, cfg);
      PastStep(s, a, cfg, past);
      forall sel | sel in t.cache
        ensures EntryOk(t, past + {e}, sel, t.cache[sel])
      {
        EntryStep(s, a, cfg, past, sel);
      }
      forall c | c in t.calls
        ensures CallOk(t, past + {e}, t.calls[c])
      {
        CallStep(s, a, cfg, past, c);
      }
    } else {
      QuietStays(s, past);
    }
  }

  lemma QuietStays(s: State, past: set<Event>)
    requires Inv(s, past)
    ensures Inv(s, past + {Quiet})
  {
    assert forall sel :: Gone(past + {Quiet}, sel) <==> Gone(past, sel);
    assert forall sel, u, v :: Current(past, sel, u, v) ==> Current(past + {Quiet}, sel, u, v);
    forall c | c in s.calls
      ensures CallOk(s, past + {Quiet}, s.calls[c])
    {
      assert CallOk(s, past, s.calls[c]);
    }
    forall sel | sel in s.cache
      ensures EntryOk(s, past + {Quiet}, sel, s.cache[sel])
    {
      assert EntryOk(s, past, sel, s.cache[sel]);
    }
  }

  /******* Runs *******/

  lemma {:induction false} RunKeepsInvariant(s: State, acts: seq<Action>, cfg: Config)
    requires cfg.Valid() && Start(s)
    ensures Inv(Run(s, acts, cfg), Past(s, acts, cfg))
  {
    hide Step;
    if acts != [] {
      var prefix := acts[..|acts| - 1];
      RunKeepsInvariant(s, prefix, cfg);
      InvStep(Run(s, prefix, cfg), acts[|acts| - 1], cfg, Past(s, prefix, cfg));
    }
  }

  lemma {:induction false} TraceAt(s: State, acts: seq<Action>, cfg: Config, i: nat)
    requires i < |acts|
    ensures Trace(s, acts, cfg)[i] == Step(Run(s, acts[..i], cfg), acts[i], cfg).1
    decreases |acts|
  {
    hide Step;
    var n := |acts| - 1;
    if i < n {
      TraceAt(s, acts[..n], cfg, i);
      assert acts[..n][..i] == acts[..i];
    }
  }

  lemma {:induction false} EarlierIsPast(s: State, acts: seq<Action>, cfg: Config, i: nat, j: nat)
    requires i < j <= |acts|
    ensures Trace(s, acts, cfg)[i] in Past(s, acts[..j], cfg)
    decreases j
  {
    hide Step;
    TraceAt(s, acts, cfg, i);
    assert acts[..j][..j - 1] == acts[..j - 1];
    if i < j - 1 {
      EarlierIsPast(s, acts, cfg, i, j - 1);
    }
  }

  lemma GrantStep(s: State, a: Action, cfg: Config, past: set<Event>)
    requires Inv(s, past) && Step(s, a, cfg).1.Granted?
    ensures var e := Step(s, a, cfg).1;
      HoldOk(s, past, e.sel, e.held) && CopyOf(s, e.sel, e.held.owner, e.held.version) && e.now < e.held.session
  {
    hide HoldOk;
    hide CopyOf;
    assert a.Publish? && Enabled(s, a);
    assert CallOk(s, past, s.calls[a.c]);
    BestIsHeld(s, past, s.calls[a.c]);
  }

  lemma GrantAt(s: State, acts: seq<Action>, cfg: Config, j: nat)
    requires cfg.Valid() && Start(s) && j < |acts| && Trace(s, acts, cfg)[j].Granted?
    ensures var e, t := Trace(s, acts, cfg)[j], Run(s, acts[..j], cfg);
      && HoldOk(t, Past(s, acts[..j], cfg), e.sel, e.held) && CopyOf(t, e.sel, e.held.owner, e.held.version)
      && e.now < e.held.session
  {
    hide Step;
    hide Run;
    hide HoldOk;
    hide CopyOf;
    RunKeepsInvariant(s, acts[..j], cfg);
    TraceAt(s, acts, cfg, j);
    GrantStep(Run(s, acts[..j], cfg), acts[j], cfg, Past(s, acts[..j], cfg));
  }

  /** Once a mutation's invalidation has run, no grant decided afterwards rests on a user
      row read before it, except for the one session it spared. */
  lemma GrantsAreCurrent(s: State, acts: seq<Action>, cfg: Config, i: nat, j: nat)
    requires cfg.Valid() && Start(s) && i < j < |acts|
    requires Trace(s, acts, cfg)[i].Invalidated? && Trace(s, acts, cfg)[j].Granted?
    ensures var e, g := Trace(s, acts, cfg)[i], Trace(s, acts, cfg)[j];
      g.held.owner in e.floor && e.keep != Some(g.sel) ==> e.floor[g.held.owner] <= g.held.version
  {
    hide Run;
    hide Trace;
    hide Past;
    hide Covered;
    GrantAt(s, acts, cfg, j);
    EarlierIsPast(s, acts, cfg, i, j);
  }

  /** A session whose row was deleted before its entry was dropped is never granted again. */
  lemma RevocationIsFinal(s: State, acts: seq<Action>, cfg: Config, i: nat, j: nat)
    requires cfg.Valid() && Start(s) && i < j < |acts| && Trace(s, acts, cfg)[j].Granted?
    requires Trace(s, acts, cfg)[i].Invalidated? || Trace(s, acts, cfg)[i].Dropped?
    ensures Trace(s, acts, cfg)[j].sel !in Trace(s, acts, cfg)[i].gone
  {
    hide Run;
    hide Trace;
    hide Past;
    hide Covered;
    GrantAt(s, acts, cfg, j);
    EarlierIsPast(s, acts, cfg, i, j);
  }

  /** A granted session had not expired when its request began, belongs to its owner, and
      is told no later expiry than its row's. */
  lemma GrantsAreLive(s: State, acts: seq<Action>, cfg: Config, j: nat)
    requires cfg.Valid() && Start(s) && j < |acts| && Trace(s, acts, cfg)[j].Granted?
    ensures var e, t := Trace(s, acts, cfg)[j], Run(s, acts[..j], cfg);
      && e.now < e.held.session && (e.sel in t.rows ==> e.held.session <= t.rows[e.sel].expires)
      && e.sel in t.issued && t.issued[e.sel] == e.held.owner
  {
    hide Run;
    hide Trace;
    hide Past;
    GrantAt(s, acts, cfg, j);
  }

  /** Outside a revocation, a cached expiry never exceeds the stored one, and an entry
      without a row has itself expired. */
  lemma CachedExpiryIsCovered(s: State, acts: seq<Action>, cfg: Config, sel: Selector)
    requires cfg.Valid() && Start(s) && sel in Run(s, acts, cfg).cache && !BeingDropped(Run(s, acts, cfg), sel)
    ensures var t := Run(s, acts, cfg);
      if sel in t.rows then t.cache[sel].session <= t.rows[sel].expires else t.cache[sel].session < t.now
  {
    hide Run;
    RunKeepsInvariant(s, acts, cfg);
    assert EntryOk(Run(s, acts, cfg), Past(s, acts, cfg), sel, Run(s, acts, cfg).cache[sel]);
  }

  /******* The spared session *******/

  // The renewal of this entry is not due, or its swap finds the expiry it expects.
  predicate NotReloaded(s: State, sel: Selector, now: int, cfg: Config)
    requires sel in s.cache
  {
    !cfg.Due(now, s.cache[sel].session) || (sel in s.rows && s.rows[sel].expires == s.cache[sel].session)
  }

  // A usable entry is granted with its copy of the user's row unless a lost renewal makes
  // the request load it again.
  lemma HitIsGranted(s: State, d: CallId, sel: Selector, now: int, cfg: Config)
    requires d !in s.calls && now <= s.now && Usable(s.cache, sel, now)
    ensures var e := s.cache[sel];
      var looked := Step(s, Lookup(d, sel, now, true), cfg).0;
      var renewed := Step(looked, Renew(d, false), cfg).0;
      var g := Step(renewed, Publish(d), cfg).1;
      if NotReloaded(s, sel, now, cfg) then g.Granted? && g.sel == sel && g.held.owner == e.owner && g.held.version == e.version
      else d in renewed.calls && renewed.calls[d] == Loading(sel, now, s.rev, true)
  {
    var e := s.cache[sel];
    var looked := Step(s, Lookup(d, sel, now, true), cfg).0;
    assert looked.calls[d] == Loaded(sel, now, s.rev, Held(e.owner, e.version, e.session)) && looked.rev == s.rev;
    var renewed := Step(looked, Renew(d, false), cfg).0;
    assert NotReloaded(s, sel, now, cfg) ==>
      renewed.calls[d].Ready? && renewed.calls[d].gen == s.rev && renewed.calls[d].held.version == e.version && renewed.rev == s.rev;
  }

  // Changing a user and sparing a session leaves its row and its entry.
  lemma SparedSurvives(s: State, c: CallId, sel: Selector, cfg: Config)
    requires c !in s.calls && sel in s.cache && s.cache[sel].owner in s.users
    ensures var user := s.cache[sel].owner;
      var s1 := Step(s, Commit(c, {user}, true, true, Some(sel), Some(sel)), cfg).0;
      var (s2, e) := Step(s1, Invalidate(c), cfg);
      && sel in s2.cache && s2.cache[sel] == s.cache[sel] && s2.calls == s.calls && s2.now == s.now
      && (sel in s.rows <==> sel in s2.rows) && (sel in s.rows ==> s2.rows[sel] == s.rows[sel])
      && e.Invalidated? && e.keep == Some(sel) && user in e.floor && e.floor[user] == s.users[user].version + 1
  {
    var user := s.cache[sel].owner;
    var s1 := Step(s, Commit(c, {user}, true, true, Some(sel), Some(sel)), cfg).0;
    assert s1.calls[c] == Mutated({user}, Some(sel)) && s1.cache == s.cache && s1.rev == s.rev;
  }

  /** The exception is real: the spared session's entry survives the invalidation with its
      copy of the user's row as it was before, and goes on being granted from it. A renewal
      does not replace the copy; only one that loses its swap has the row read again. */
  lemma SparedCopyIsOld(s: State, c: CallId, d: CallId, sel: Selector, now: int, cfg: Config)
    requires c !in s.calls && d !in s.calls && now <= s.now && Usable(s.cache, sel, now)
    requires s.cache[sel].owner in s.users && s.cache[sel].version <= s.users[s.cache[sel].owner].version
    ensures var user := s.cache[sel].owner;
      var s1 := Step(s, Commit(c, {user}, true, true, Some(sel), Some(sel)), cfg).0;
      var (s2, e) := Step(s1, Invalidate(c), cfg);
      var s3 := Step(s2, Lookup(d, sel, now, true), cfg).0;
      var s4 := Step(s3, Renew(d, false), cfg).0;
      var g := Step(s4, Publish(d), cfg).1;
      && e.Invalidated? && user in e.floor && e.keep == Some(sel)
      && if NotReloaded(s, sel, now, cfg) then g.Granted? && g.sel == sel && g.held.owner == user && g.held.version < e.floor[user]
         else d in s4.calls && s4.calls[d] == Loading(sel, now, s2.rev, true)
  {
    hide Step;
    SparedSurvives(s, c, sel, cfg);
    var s1 := Step(s, Commit(c, {s.cache[sel].owner}, true, true, Some(sel), Some(sel)), cfg).0;
    HitIsGranted(Step(s1, Invalidate(c), cfg).0, d, sel, now, cfg);
  }
}
