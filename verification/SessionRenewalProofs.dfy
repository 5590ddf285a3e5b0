/**
 Sessions under concurrent renewal, revocation and pruning.
 */
module SessionRenewalProofs {
  import opened Wrappers
  import opened SessionRenewal

  /******* One action *******/

  // A stored expiry only grows; a row goes when it has expired or is being revoked,
  // and never comes back.
  ghost predicate RowMoves(s: State, t: State, sel: Selector) {
    && (sel in t.rows ==> if sel in s.rows then s.rows[sel] <= t.rows[sel] else sel !in s.issued && sel in t.issued)
    && (sel in s.rows && sel !in t.rows ==> s.rows[sel] < t.now || BeingRevoked(t, sel))
  }

  lemma RenewalExtends(s: State, c: CallId, dbError: bool, cfg: Config, sel: Selector)
    requires cfg.Valid() && c in s.calls && s.calls[c].Loaded?
    ensures var t := RenewStep(s, c, dbError, cfg);
      && t.rows.Keys == s.rows.Keys && (sel in s.rows ==> s.rows[sel] <= t.rows[sel])
      && t.cache == s.cache && t.rev == s.rev && t.mutex == s.mutex && t.now == s.now && t.issued == s.issued
  {
  }

  lemma RowsStep(s: State, a: Action, cfg: Config, sel: Selector)
    requires cfg.Valid() && Enabled(s, a) && RowsOk(s)
    ensures var t := Effect(s, a, cfg).0;
      && RowMoves(s, t, sel) && s.now <= t.now && s.issued <= t.issued && RowsOk(t)
      && s.rev <= t.rev && (a.RevokeEnd? ==> s.rev < t.rev)
  {
    if a.Renew? {
      RenewalExtends(s, a.c, a.dbError, cfg, sel);
    }
  }

  // A revocation under way stays under way until its own end.
  lemma RevocationStays(s: State, a: Action, cfg: Config, sel: Selector)
    requires Enabled(s, a) && MutexOk(s) && BeingRevoked(s, sel)
    ensures BeingRevoked(Effect(s, a, cfg).0, sel) ||
      (a.RevokeEnd? && sel in s.calls[a.c].gone)
  {
    if a.RevokeEnd? {
      assert s.mutex == Some(a.c);
    }
  }

  lemma CoveredStays(s: State, a: Action, cfg: Config, sel: Selector, session: int)
    requires cfg.Valid() && Enabled(s, a) && RowsOk(s) && MutexOk(s) && Covered(s, sel, session)
    ensures Covered(Effect(s, a, cfg).0, sel, session) || (a.RevokeEnd? && sel in s.calls[a.c].gone)
  {
    RowsStep(s, a, cfg, sel);
    if BeingRevoked(s, sel) {
      RevocationStays(s, a, cfg, sel);
    }
  }

  lemma MutexStep(s: State, a: Action, cfg: Config)
    requires Enabled(s, a) && MutexOk(s)
    ensures MutexOk(Effect(s, a, cfg).0)
  {
  }

  // What the acting call holds next; everyone else's program counter is untouched.
  predicate Moved(s: State, before: Call, after: Call) {
    match after
    case Loading(_, _, gen, _) => gen == s.rev || (before.Loaded? && before.gen == gen)
    case Loaded(sel, now, gen, session, hit) =>
      if hit then gen == s.rev && sel in s.cache && s.cache[sel].session == session && now < session
      else before.Loading? && before.gen == gen && sel in s.rows && s.rows[sel] == session && now < session
    case Ready(sel, now, gen, session) =>
      || (before.Loading? && before.gen == gen && sel in s.rows && s.rows[sel] == session && now < session)
      || (before.Loaded? && before.gen == gen && before.sel == sel && before.now == now
          && (session == before.session || (sel in s.rows && s.rows[sel] == before.session && session > before.session)))
    case _ => true
  }

  lemma LoadMoves(s: State, c: CallId, matches: bool)
    requires c in s.calls && s.calls[c].Loading?
    ensures var t := LoadStep(s, c, matches);
      && t.calls.Keys <= s.calls.Keys && (c in t.calls ==> Moved(s, s.calls[c], t.calls[c]) && !t.calls[c].Revoking?)
      && t == s.(calls := t.calls)
  {
  }

  lemma RenewMoves(s: State, c: CallId, dbError: bool, cfg: Config)
    requires cfg.Valid() && c in s.calls && s.calls[c].Loaded?
    ensures var t := RenewStep(s, c, dbError, cfg);
      && t.calls.Keys <= s.calls.Keys && (c in t.calls ==> Moved(s, s.calls[c], t.calls[c]) && !t.calls[c].Revoking?)
      && (c in t.calls && t.calls[c].Ready? && t.calls[c].session != s.calls[c].session ==>
            t.calls[c].sel in t.rows && t.rows[t.calls[c].sel] == t.calls[c].session)
  {
  }

  lemma BystanderOk(s: State, a: Action, cfg: Config, call: Call)
    requires cfg.Valid() && Enabled(s, a) && RowsOk(s) && MutexOk(s) && CallOk(s, call)
    requires !(a.RevokeEnd? && call.Revoking?)
    ensures CallOk(Effect(s, a, cfg).0, call)
  {
    var t := Effect(s, a, cfg).0;
    if call.Loaded? || call.Ready? {
      RowsStep(s, a, cfg, call.sel);
      if call.gen == s.rev {
        CoveredStays(s, a, cfg, call.sel, call.session);
      }
    } else if call.Revoking? {
      forall sel | sel in call.gone
        ensures sel !in t.rows
      {
        RowsStep(s, a, cfg, sel);
      }
      RowsStep(s, a, cfg, 0);
    } else {
      RowsStep(s, a, cfg, 0);
    }
  }

  // Every call but the acting one stays where it was.
  lemma OthersStay(s: State, a: Action, cfg: Config, c: CallId)
    requires Enabled(s, a) && c in Effect(s, a, cfg).0.calls
    requires !(a.Lookup? && a.c == c) && !(a.LoadRev? && a.c == c) && !(a.Load? && a.c == c) && !(a.Renew? && a.c == c)
    requires !(a.RevokeExpired? && a.c == c) && !(a.Delete? && a.c == c) && !(a.InvalidateAll? && a.c == c)
    ensures c in s.calls && Effect(s, a, cfg).0.calls[c] == s.calls[c] && !(a.RevokeEnd? && a.c == c)
  {
  }

  lemma ActorOk(s: State, a: Action, cfg: Config, c: CallId)
    requires cfg.Valid() && Enabled(s, a) && RowsOk(s) && CacheOk(s) && CallsOk(s) && MutexOk(s)
    requires c in Effect(s, a, cfg).0.calls
    requires a.Lookup? || a.LoadRev? || a.RevokeExpired? || a.Delete? || a.InvalidateAll?
    requires a.c == c
    ensures CallOk(Effect(s, a, cfg).0, Effect(s, a, cfg).0.calls[c])
  {
  }

  lemma LoadOk(s: State, c: CallId, matches: bool)
    requires RowsOk(s) && CallsOk(s) && c in s.calls && s.calls[c].Loading?
    ensures var t := LoadStep(s, c, matches); c in t.calls ==> CallOk(t, t.calls[c])
  {
    LoadMoves(s, c, matches);
    assert CallOk(s, s.calls[c]);
  }

  lemma RenewOk(s: State, c: CallId, dbError: bool, cfg: Config)
    requires cfg.Valid() && RowsOk(s) && CallsOk(s) && MutexOk(s) && c in s.calls && s.calls[c].Loaded?
    ensures var t := RenewStep(s, c, dbError, cfg); c in t.calls ==> CallOk(t, t.calls[c])
  {
    assert CallOk(s, s.calls[c]);
  }

  lemma CallsStep(s: State, a: Action, cfg: Config)
    requires cfg.Valid() && Enabled(s, a) && RowsOk(s) && CacheOk(s) && CallsOk(s) && MutexOk(s)
    ensures CallsOk(Effect(s, a, cfg).0)
  {
    var t := Effect(s, a, cfg).0;
    forall c | c in t.calls
      ensures CallOk(t, t.calls[c])
    {
      if a.Load? && a.c == c {
        LoadOk(s, c, a.matches);
      } else if a.Renew? && a.c == c {
        RenewOk(s, c, a.dbError, cfg);
      } else if (a.Lookup? || a.LoadRev? || a.RevokeExpired? || a.Delete? || a.InvalidateAll?) && a.c == c {
        ActorOk(s, a, cfg, c);
      } else {
        OthersStay(s, a, cfg, c);
        assert CallOk(s, s.calls[c]);
        assert a.RevokeEnd? ==> !s.calls[c].Revoking?;
        BystanderOk(s, a, cfg, s.calls[c]);
      }
    }
  }

  lemma CacheStep(s: State, a: Action, cfg: Config)
    requires cfg.Valid() && Enabled(s, a) && RowsOk(s) && CacheOk(s) && CallsOk(s) && MutexOk(s)
    ensures CacheOk(Effect(s, a, cfg).0)
  {
    var t := Effect(s, a, cfg).0;
    forall sel | sel in t.cache
      ensures Covered(t, sel, t.cache[sel].session)
    {
      if a.Publish? && sel == s.calls[a.c].sel {
        assert CallOk(s, s.calls[a.c]);
      } else {
        assert sel in s.cache && t.cache[sel] == s.cache[sel];
      }
      CoveredStays(s, a, cfg, sel, t.cache[sel].session);
    }
  }

  lemma RevokedStays(s: State, a: Action, cfg: Config, sel: Selector)
    requires cfg.Valid() && Enabled(s, a) && RowsOk(s) && CallsOk(s) && RevokedOk(s, sel)
    ensures RevokedOk(Effect(s, a, cfg).0, sel)
  {
    var t := Effect(s, a, cfg).0;
    RowsStep(s, a, cfg, sel);
    if a.Publish? {
      assert CallOk(s, s.calls[a.c]);
    }
    forall c | c in t.calls && (t.calls[c].Loaded? || t.calls[c].Ready?) && t.calls[c].sel == sel
      ensures t.calls[c].gen < t.rev
    {
      if a.Load? && a.c == c {
        LoadMoves(s, c, a.matches);
      } else if a.Renew? && a.c == c {
        RenewMoves(s, c, a.dbError, cfg);
      } else if (a.Lookup? || a.LoadRev? || a.RevokeExpired? || a.Delete? || a.InvalidateAll?) && a.c == c {
        NoNewHold(s, a, cfg, c, sel);
      } else {
        OthersStay(s, a, cfg, c);
      }
    }
  }

  lemma NoNewHold(s: State, a: Action, cfg: Config, c: CallId, sel: Selector)
    requires Enabled(s, a) && sel !in s.cache && c in Effect(s, a, cfg).0.calls
    requires a.Lookup? || a.LoadRev? || a.RevokeExpired? || a.Delete? || a.InvalidateAll?
    requires a.c == c
    ensures var call := Effect(s, a, cfg).0.calls[c]; (call.Loaded? || call.Ready?) ==> call.sel != sel
  {
  }

  lemma RevokeEndOk(s: State, a: Action, cfg: Config, sel: Selector)
    requires Enabled(s, a) && a.RevokeEnd? && CallsOk(s) && sel in s.calls[a.c].gone
    ensures RevokedOk(Effect(s, a, cfg).0, sel)
  {
    assert CallOk(s, s.calls[a.c]);
    forall c | c in s.calls
      ensures (s.calls[c].Loaded? || s.calls[c].Ready?) ==> s.calls[c].gen <= s.rev
    {
      assert CallOk(s, s.calls[c]);
    }
  }

  lemma PastStep(s: State, a: Action, cfg: Config, past: set<Event>)
    requires cfg.Valid() && Enabled(s, a) && Inv(s, past)
    ensures PastOk(Effect(s, a, cfg).0, past + {Effect(s, a, cfg).1})
  {
    var (t, f) := Effect(s, a, cfg);
    forall e, sel | e in past + {f} && e.Revoked? && sel in e.gone
      ensures RevokedOk(t, sel)
    {
      if e in past {
        assert RevokedOk(s, sel);
        RevokedStays(s, a, cfg, sel);
      } else {
        assert a.RevokeEnd?;
        RevokeEndOk(s, a, cfg, sel);
      }
    }
  }

  lemma InvStep(s: State, a: Action, cfg: Config, past: set<Event>)
    requires cfg.Valid() && Inv(s, past)
    ensures Inv(Step(s, a, cfg).0, past + {Step(s, a, cfg).1})
  {
    if Enabled(s, a) {
      RowsStep(s, a, cfg, 0);
      MutexStep(s, a, cfg);
      CallsStep(s, a, cfg);
      CacheStep(s, a, cfg);
      PastStep(s, a, cfg, past);
    }
  }

  /******* Runs *******/

  lemma {:induction false} RunKeepsInvariant(s: State, acts: seq<Action>, cfg: Config)
    requires cfg.Valid() && Start(s)
    ensures Inv(Run(s, acts, cfg), Past(s, acts, cfg))
  {
    if acts != [] {
      var prefix := acts[..|acts| - 1];
      RunKeepsInvariant(s, prefix, cfg);
      InvStep(Run(s, prefix, cfg), acts[|acts| - 1], cfg, Past(s, prefix, cfg));
    }
  }

  /** A session's stored expiry only increases, for as long as its row exists. */
  lemma {:induction false} StoredExpiryGrows(s: State, acts: seq<Action>, cfg: Config, i: nat, sel: Selector)
    requires cfg.Valid() && Start(s) && i <= |acts|
    requires sel in Run(s, acts[..i], cfg).issued
    ensures sel in Run(s, acts, cfg).issued
    ensures sel in Run(s, acts, cfg).rows ==>
      sel in Run(s, acts[..i], cfg).rows && Run(s, acts[..i], cfg).rows[sel] <= Run(s, acts, cfg).rows[sel]
    decreases |acts|
  {
    if i == |acts| {
      assert acts[..i] == acts;
    } else {
      var prefix, a := acts[..|acts| - 1], acts[|acts| - 1];
      assert prefix[..i] == acts[..i];
      StoredExpiryGrows(s, prefix, cfg, i, sel);
      RunKeepsInvariant(s, prefix, cfg);
      if Enabled(Run(s, prefix, cfg), a) {
        RowsStep(Run(s, prefix, cfg), a, cfg, sel);
      }
    }
  }

  /** A cached expiry never exceeds the stored one while the row exists; an entry
      whose row was pruned has itself expired. */
  lemma CachedExpiryIsCovered(s: State, acts: seq<Action>, cfg: Config, sel: Selector)
    requires cfg.Valid() && Start(s) && sel in Run(s, acts, cfg).cache
    ensures var t := Run(s, acts, cfg);
      && (sel in t.rows ==> t.cache[sel].session <= t.rows[sel])
      && (sel !in t.rows && t.mutex == None ==> t.cache[sel].session < t.now)
  {
    RunKeepsInvariant(s, acts, cfg);
  }

  lemma {:induction false} TraceAt(s: State, acts: seq<Action>, cfg: Config, i: nat)
    requires i < |acts|
    ensures Trace(s, acts, cfg)[i] == Step(Run(s, acts[..i], cfg), acts[i], cfg).1
    decreases |acts|
  {
    var n := |acts| - 1;
    if i < n {
      TraceAt(s, acts[..n], cfg, i);
      assert acts[..n][..i] == acts[..i];
    }
  }

  lemma {:induction false} EarlierIsPast(s: State, acts: seq<Action>, cfg: Config, i: nat, j: nat)
    requires i < j <= |acts|
    ensures Trace(s, acts, cfg)[i] in Past(s, acts[..j], cfg)
    decreases j
  {
    TraceAt(s, acts, cfg, i);
    assert acts[..j][..j - 1] == acts[..j - 1];
    if i < j - 1 {
      EarlierIsPast(s, acts, cfg, i, j - 1);
    }
  }

  lemma GrantStep(s: State, a: Action, cfg: Config, past: set<Event>)
    requires Inv(s, past) && Step(s, a, cfg).1.Granted?
    ensures var e := Step(s, a, cfg).1;
      && a.Publish? && a.c in s.calls && s.calls[a.c].Ready? && s.calls[a.c].sel == e.sel && s.calls[a.c].gen == s.rev
      && e.now < e.session && Covered(s, e.sel, e.session)
  {
    assert Effect(s, a, cfg).1 == Step(s, a, cfg).1;
    assert CallOk(s, s.calls[a.c]);
  }

  /** A granted session had not expired when the request began, and what the
      request is told about its expiry is covered by the row. */
  lemma GrantsAreLive(s: State, acts: seq<Action>, cfg: Config, j: nat)
    requires cfg.Valid() && Start(s) && j < |acts| && Trace(s, acts, cfg)[j].Granted?
    ensures var e, t := Trace(s, acts, cfg)[j], Run(s, acts[..j], cfg);
      e.now < e.session && (e.sel in t.rows ==> e.session <= t.rows[e.sel])
  {
    RunKeepsInvariant(s, acts[..j], cfg);
    TraceAt(s, acts, cfg, j);
    GrantStep(Run(s, acts[..j], cfg), acts[j], cfg, Past(s, acts[..j], cfg));
  }

  /** Once a revocation has returned, its sessions are never granted again. */
  lemma RevocationIsFinal(s: State, acts: seq<Action>, cfg: Config, i: nat, j: nat)
    requires cfg.Valid() && Start(s) && i < j < |acts|
    requires Trace(s, acts, cfg)[i].Revoked? && Trace(s, acts, cfg)[j].Granted?
    ensures Trace(s, acts, cfg)[j].sel !in Trace(s, acts, cfg)[i].gone
  {
    RunKeepsInvariant(s, acts[..j], cfg);
    TraceAt(s, acts, cfg, j);
    EarlierIsPast(s, acts, cfg, i, j);
    var t := Run(s, acts[..j], cfg);
    GrantStep(t, acts[j], cfg, Past(s, acts[..j], cfg));
    assert Trace(s, acts, cfg)[j].sel in Trace(s, acts, cfg)[i].gone ==> RevokedOk(t, Trace(s, acts, cfg)[j].sel);
  }
}
