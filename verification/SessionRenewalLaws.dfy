/**
 Where grants of admin sessions come from, and who gets one.
 */
module SessionRenewalLaws {
  import opened Wrappers
  import opened SessionRenewal
  import opened SessionRenewalProofs

  /******* What a grant rests on *******/

  // At i the session's row was read before its expiry, and the presented secret matched.
  ghost predicate ReadAt(s: State, acts: seq<Action>, cfg: Config, i: nat, sel: Selector) {
    && i < |acts| && acts[i].Load? && acts[i].matches
    && var t := Run(s, acts[..i], cfg);
      && acts[i].c in t.calls && t.calls[acts[i].c].Loading? && t.calls[acts[i].c].sel == sel
      && sel in t.rows && t.calls[acts[i].c].now < t.rows[sel]
  }

  ghost predicate WasRead(s: State, acts: seq<Action>, cfg: Config, sel: Selector) {
    exists i: nat :: ReadAt(s, acts, cfg, i, sel)
  }

  // At m call c itself presented the right secret for sel, and it has gone on since.
  ghost predicate ShownAt(s: State, acts: seq<Action>, cfg: Config, m: nat, c: CallId, sel: Selector) {
    && m < |acts| && (acts[m].Lookup? || acts[m].Load?) && acts[m].c == c && acts[m].matches
    && var t := Run(s, acts[..m], cfg);
      && (if acts[m].Lookup? then acts[m].sel == sel && Usable(t.cache, sel, acts[m].now)
          else c in t.calls && t.calls[c].Loading? && t.calls[c].sel == sel)
      && forall x :: m < x <= |acts| ==> c in Run(s, acts[..x], cfg).calls
  }

  ghost predicate WasShown(s: State, acts: seq<Action>, cfg: Config, c: CallId, sel: Selector) {
    exists m: nat :: ShownAt(s, acts, cfg, m, c, sel)
  }

  lemma StillRead(s: State, acts: seq<Action>, cfg: Config, n: nat, sel: Selector)
    requires n <= |acts| && WasRead(s, acts[..n], cfg, sel)
    ensures WasRead(s, acts, cfg, sel)
  {
    hide Run;
    var i: nat :| ReadAt(s, acts[..n], cfg, i, sel);
    assert acts[..n][..i] == acts[..i];
    assert ReadAt(s, acts, cfg, i, sel);
  }

  lemma StillShown(s: State, acts: seq<Action>, cfg: Config, c: CallId, sel: Selector)
    requires acts != [] && WasShown(s, acts[..|acts| - 1], cfg, c, sel) && c in Run(s, acts, cfg).calls
    ensures WasShown(s, acts, cfg, c, sel)
  {
    hide Run;
    var n := |acts| - 1;
    var m: nat :| ShownAt(s, acts[..n], cfg, m, c, sel);
    assert forall x :: 0 <= x <= n ==> acts[..n][..x] == acts[..x];
    assert acts[..|acts|] == acts;
    assert ShownAt(s, acts, cfg, m, c, sel);
  }

  predicate Holds(call: Call) {
    call.Loaded? || call.Ready?
  }

  // How a call comes to hold a copy.
  lemma HoldStep(s: State, a: Action, cfg: Config, c: CallId)
    requires c in Step(s, a, cfg).0.calls && Holds(Step(s, a, cfg).0.calls[c])
    ensures var call := Step(s, a, cfg).0.calls[c];
      || (c in s.calls && Holds(s.calls[c]) && s.calls[c].sel == call.sel)
      || (&& a.Load? && a.c == c && a.matches && c in s.calls && s.calls[c].Loading? && s.calls[c].sel == call.sel
          && call.sel in s.rows && s.calls[c].now < s.rows[call.sel])
      || (a.Lookup? && a.c == c && a.sel == call.sel && a.matches && Usable(s.cache, a.sel, a.now))
  {
  }

  lemma CacheStep(s: State, a: Action, cfg: Config, sel: Selector)
    requires sel in Step(s, a, cfg).0.cache
    ensures var (t, e) := Step(s, a, cfg);
      || (sel in s.cache && s.cache[sel] == t.cache[sel])
      || (&& a.Publish? && a.c in s.calls && s.calls[a.c].Ready? && s.calls[a.c].sel == sel
          && t.cache[sel].until == s.calls[a.c].now + cfg.cacheTtl && e == Granted(sel, t.cache[sel].session, s.calls[a.c].now))
  {
  }

  lemma GrantIs(s: State, a: Action, cfg: Config)
    requires Step(s, a, cfg).1.Granted?
    ensures var e := Step(s, a, cfg).1;
      && a.Publish? && a.c in s.calls && s.calls[a.c].Ready? && s.calls[a.c].sel == e.sel && s.calls[a.c].now == e.now
  {
  }

  lemma JustRead(s: State, acts: seq<Action>, cfg: Config, sel: Selector)
    requires acts != [] && ReadAt(s, acts, cfg, |acts| - 1, sel)
    ensures WasRead(s, acts, cfg, sel)
  {
  }

  lemma JustShown(s: State, acts: seq<Action>, cfg: Config, c: CallId, sel: Selector)
    requires acts != [] && c in Run(s, acts, cfg).calls
    requires var a, t := acts[|acts| - 1], Run(s, acts[..|acts| - 1], cfg);
      && (a.Lookup? || a.Load?) && a.c == c && a.matches
      && if a.Lookup? then a.sel == sel && Usable(t.cache, sel, a.now) else c in t.calls && t.calls[c].Loading? && t.calls[c].sel == sel
    ensures WasShown(s, acts, cfg, c, sel)
  {
    hide Run;
    assert acts[..|acts|] == acts;
    assert ShownAt(s, acts, cfg, |acts| - 1, c, sel);
  }

  // Every copy in memory was read, and every call that holds one showed the secret.
  lemma {:induction false} CopiesWereRead(s: State, acts: seq<Action>, cfg: Config, c: CallId, sel: Selector)
    requires Start(s)
    ensures var t := Run(s, acts, cfg);
      && (c in t.calls && Holds(t.calls[c]) ==>
            && WasRead(s, acts, cfg, t.calls[c].sel)
            && WasShown(s, acts, cfg, c, t.calls[c].sel))
      && (sel in t.cache ==> WasRead(s, acts, cfg, sel))
    decreases |acts|, 1
  {
    hide Step;
    hide WasRead;
    hide WasShown;
    if acts != [] {
      CallWasRead(s, acts, cfg, c);
      EntryWasRead(s, acts, cfg, sel);
    }
  }

  lemma CallWasRead(s: State, acts: seq<Action>, cfg: Config, c: CallId)
    requires Start(s) && acts != []
    ensures var t := Run(s, acts, cfg);
      c in t.calls && Holds(t.calls[c]) ==>
        && WasRead(s, acts, cfg, t.calls[c].sel)
        && WasShown(s, acts, cfg, c, t.calls[c].sel)
    decreases |acts|, 0
  {
    hide Step;
    hide WasRead;
    hide WasShown;
    hide Usable;
    var n := |acts| - 1;
    var t, a, u := Run(s, acts[..n], cfg), acts[n], Run(s, acts, cfg);
    if c in u.calls && Holds(u.calls[c]) {
      var call := u.calls[c];
      HoldStep(t, a, cfg, c);
      CopiesWereRead(s, acts[..n], cfg, c, call.sel);
      if c in t.calls && Holds(t.calls[c]) && t.calls[c].sel == call.sel {
        StillRead(s, acts, cfg, n, call.sel);
        StillShown(s, acts, cfg, c, call.sel);
      } else {
        JustShown(s, acts, cfg, c, call.sel);
        if a.Load? {
          JustRead(s, acts, cfg, call.sel);
        } else {
          UsableIsCached(t.cache, a.sel, a.now);
          StillRead(s, acts, cfg, n, call.sel);
        }
      }
    }
  }

  lemma UsableIsCached(cache: map<Selector, Cached>, sel: Selector, now: int)
    requires Usable(cache, sel, now)
    ensures sel in cache
  {
  }

  lemma EntryWasRead(s: State, acts: seq<Action>, cfg: Config, sel: Selector)
    requires Start(s) && acts != []
    ensures var t := Run(s, acts, cfg);
      sel in t.cache ==> WasRead(s, acts, cfg, sel)
    decreases |acts|, 0
  {
    hide Step;
    hide WasRead;
    hide WasShown;
    var n := |acts| - 1;
    var t, a, u := Run(s, acts[..n], cfg), acts[n], Run(s, acts, cfg);
    if sel in u.cache {
      CacheStep(t, a, cfg, sel);
      CopiesWereRead(s, acts[..n], cfg, if a.Publish? then a.c else 0, sel);
      StillRead(s, acts, cfg, n, sel);
    }
  }

  /** A granted session's row was read before its expiry by a request whose secret matched,
      and the granting request itself presented the right secret. */
  lemma GrantsWereVerified(s: State, acts: seq<Action>, cfg: Config, j: nat)
    requires Start(s) && j < |acts| && Trace(s, acts, cfg)[j].Granted?
    ensures var e := Trace(s, acts, cfg)[j];
      && WasRead(s, acts[..j], cfg, e.sel)
      && acts[j].Publish? && WasShown(s, acts[..j], cfg, acts[j].c, e.sel)
  {
    hide Step;
    hide Run;
    hide WasRead;
    hide WasShown;
    TraceAt(s, acts, cfg, j);
    GrantIs(Run(s, acts[..j], cfg), acts[j], cfg);
    CopiesWereRead(s, acts[..j], cfg, acts[j].c, 0);
  }

  /******* How long an entry lasts *******/

  lemma {:induction false} EntryWasGranted(s: State, acts: seq<Action>, cfg: Config, sel: Selector) returns (i: nat)
    requires Start(s) && sel in Run(s, acts, cfg).cache
    ensures i < |acts|
    ensures var e, g := Run(s, acts, cfg).cache[sel], Step(Run(s, acts[..i], cfg), acts[i], cfg).1;
      g.Granted? && g.sel == sel && g.session == e.session && e.until == g.now + cfg.cacheTtl
  {
    hide Step;
    assert acts != [];
    var n := |acts| - 1;
    CacheStep(Run(s, acts[..n], cfg), acts[n], cfg, sel);
    if sel in Run(s, acts[..n], cfg).cache && Run(s, acts[..n], cfg).cache[sel] == Run(s, acts, cfg).cache[sel] {
      i := EntryWasGranted(s, acts[..n], cfg, sel);
      assert acts[..n][..i] == acts[..i];
    } else {
      i := n;
    }
  }

  /** A request answered from the cache follows a grant of the same session less than the cache's
      time to live ago. */
  lemma HitsAreRecent(s: State, acts: seq<Action>, cfg: Config, m: nat) returns (i: nat)
    requires Start(s) && m < |acts| && acts[m].Lookup? && acts[m].matches
    requires Enabled(Run(s, acts[..m], cfg), acts[m])
    requires var t := Run(s, acts[..m + 1], cfg); acts[m].c in t.calls && t.calls[acts[m].c].Loaded?
    ensures i < m && Trace(s, acts, cfg)[i].Granted? && Trace(s, acts, cfg)[i].sel == acts[m].sel
    ensures var g := Trace(s, acts, cfg)[i];
      Run(s, acts[..m + 1], cfg).calls[acts[m].c].session == g.session && acts[m].now < g.now + cfg.cacheTtl
  {
    assert acts[..m + 1][..m] == acts[..m];
    LookupHits(Run(s, acts[..m], cfg), acts[m], cfg);
    i := EntryWasGranted(s, acts[..m], cfg, acts[m].sel);
    assert acts[..m][..i] == acts[..i];
    hide Step;
    TraceAt(s, acts, cfg, i);
  }

  lemma LookupHits(s: State, a: Action, cfg: Config)
    requires Enabled(s, a) && a.Lookup? && a.c in Step(s, a, cfg).0.calls && Step(s, a, cfg).0.calls[a.c].Loaded?
    ensures a.sel in s.cache && a.now < s.cache[a.sel].until
    ensures Step(s, a, cfg).0.calls[a.c].session == s.cache[a.sel].session
  {
  }

  /******* Renewal *******/

  /** A session with less than half of its lifetime left is extended to a whole one from now,
      any other is left as it is; either way the request goes on with half of it at least,
      unless its swap was lost and it loads the row again. */
  lemma RenewalSlides(s: State, c: CallId, cfg: Config)
    requires cfg.Valid() && c in s.calls && s.calls[c].Loaded?
    ensures var call, t := s.calls[c], Step(s, Renew(c, false), cfg).0; var half := call.now + cfg.ttl / 2;
      && (half <= call.session ==> t.rows == s.rows && t.calls[c] == Ready(call.sel, call.now, call.gen, call.session))
      && (call.session < half && call.sel in s.rows && s.rows[call.sel] == call.session ==>
            && t.rows == s.rows[call.sel := call.now + cfg.ttl]
            && t.calls[c] == Ready(call.sel, call.now, call.gen, call.now + cfg.ttl))
      && (t.calls[c].Ready? ==> half <= t.calls[c].session)
      && (!t.calls[c].Ready? ==> t.calls[c] == Loading(call.sel, call.now, call.gen, true) && t.rows == s.rows)
  {
  }

  /** A renewal the database refuses ends the request, unless the cache answered it: that one
      goes on with the expiry it had. */
  lemma RefusedRenewal(s: State, c: CallId, cfg: Config)
    requires c in s.calls && s.calls[c].Loaded? && s.calls[c].session < s.calls[c].now + cfg.ttl / 2
    ensures var call, t := s.calls[c], Step(s, Renew(c, true), cfg).0;
      && t.rows == s.rows
      && if call.hit then c in t.calls && t.calls[c] == Ready(call.sel, call.now, call.gen, call.session) else c !in t.calls
  {
  }

  /******* Who is granted *******/

  /** A live session presented with its secret is granted. */
  lemma MatchIsGranted(s: State, c: CallId, sel: Selector, now: int, cfg: Config)
    requires cfg.Valid() && c !in s.calls && s.mutex == None && now <= s.now
    requires sel !in s.cache && sel in s.rows && now < s.rows[sel]
    ensures var s3 := Step(Step(Step(s, Lookup(c, sel, now, true), cfg).0, LoadRev(c), cfg).0, Load(c, true), cfg).0;
      var e := Step(Step(s3, Renew(c, false), cfg).0, Publish(c), cfg).1;
      e.Granted? && e.sel == sel && e.now == now && now + cfg.ttl / 2 <= e.session
  {
    var s1 := Step(s, Lookup(c, sel, now, true), cfg).0;
    Misses(s, c, sel, now, cfg);
    var s2 := Step(s1, LoadRev(c), cfg).0;
    LoadsRev(s1, c, sel, now, cfg);
    var s3 := Step(s2, Load(c, true), cfg).0;
    Loads(s2, c, sel, now, cfg);
    RenewalSlides(s3, c, cfg);
    hide Step;
    RenewKeepsRev(s3, c, cfg);
    Publishes(Step(s3, Renew(c, false), cfg).0, c, cfg);
  }

  lemma Misses(s: State, c: CallId, sel: Selector, now: int, cfg: Config)
    requires c !in s.calls && s.mutex == None && now <= s.now && sel !in s.cache
    ensures Step(s, Lookup(c, sel, now, true), cfg).0 == s.(calls := s.calls[c := Missed(sel, now)])
  {
    assert s.cache - {sel} == s.cache;
  }

  lemma LoadsRev(s: State, c: CallId, sel: Selector, now: int, cfg: Config)
    requires c in s.calls && s.calls[c] == Missed(sel, now)
    ensures Step(s, LoadRev(c), cfg).0 == s.(calls := s.calls[c := Loading(sel, now, s.rev, false)])
  {
  }

  lemma Loads(s: State, c: CallId, sel: Selector, now: int, cfg: Config)
    requires c in s.calls && s.calls[c] == Loading(sel, now, s.rev, false) && sel in s.rows && now < s.rows[sel]
    ensures Step(s, Load(c, true), cfg).0 == s.(calls := s.calls[c := Loaded(sel, now, s.rev, s.rows[sel], false)])
  {
  }

  lemma RenewKeepsRev(s: State, c: CallId, cfg: Config)
    requires c in s.calls && s.calls[c].Loaded?
    ensures var t := Step(s, Renew(c, false), cfg).0; t.rev == s.rev && t.cache == s.cache && t.mutex == s.mutex
  {
  }

  lemma Publishes(s: State, c: CallId, cfg: Config)
    requires c in s.calls && s.calls[c].Ready? && s.calls[c].gen == s.rev && s.mutex == None
    ensures var e, call := Step(s, Publish(c), cfg).1, s.calls[c];
      e.Granted? && e.sel == call.sel && e.now == call.now && call.session <= e.session
  {
  }

  /******* Revocation *******/

  // The sessions a revoking section deletes, if the database lets it.
  predicate Revokes(s: State, a: Action, sel: Selector) {
    sel in s.issued
    && match a
       case Delete(_, named, false) => named == sel
       case InvalidateAll(_, false) => true
       case RevokeExpired(c, false) => c in s.calls && s.calls[c].Expiring? && s.calls[c].sel == sel
       case _ => false
  }

  /** Signing out, invalidating all and finding a session expired each delete the row at once,
      and hold the mutex until they have dropped the cache entry too. */
  lemma RevocationTakesRow(s: State, a: Action, cfg: Config, sel: Selector)
    requires Enabled(s, a) && Revokes(s, a, sel)
    ensures var t := Step(s, a, cfg).0;
      && sel !in t.rows && t.mutex == Some(a.c) && a.c in t.calls && t.calls[a.c].Revoking? && sel in t.calls[a.c].gone
  {
  }

  /** A request that finds its session expired goes on to revoke it. */
  lemma ExpiredIsRevoked(s: State, c: CallId, matches: bool, cfg: Config)
    requires c in s.calls && s.calls[c].Loading? && s.calls[c].sel in s.rows && s.rows[s.calls[c].sel] <= s.calls[c].now
    ensures Step(s, Load(c, matches), cfg).0 == s.(calls := s.calls[c := Expiring(s.calls[c].sel)])
  {
  }

  /** What a section deleted is never granted once it has returned. */
  lemma DeletedIsRefused(s: State, acts: seq<Action>, cfg: Config, j: nat, k: nat, sel: Selector)
    requires cfg.Valid() && Start(s) && j < k < |acts| && acts[j].RevokeEnd?
    requires var t := Run(s, acts[..j], cfg); acts[j].c in t.calls && t.calls[acts[j].c].Revoking? && sel in t.calls[acts[j].c].gone
    ensures !(Trace(s, acts, cfg)[k].Granted? && Trace(s, acts, cfg)[k].sel == sel)
  {
    TraceAt(s, acts, cfg, j);
    RevokeEndTells(Run(s, acts[..j], cfg), acts[j], cfg);
    hide *;
    if Trace(s, acts, cfg)[k].Granted? {
      RevocationIsFinal(s, acts, cfg, j, k);
    }
  }

  lemma RevokeEndTells(s: State, a: Action, cfg: Config)
    requires Enabled(s, a) && a.RevokeEnd?
    ensures Step(s, a, cfg).1 == Revoked(s.calls[a.c].gone)
  {
  }

  /******* What each step leaves *******/

  /** A lookup leaves the entry only to a request that goes on with it, which it does exactly if
      both ends of it lie ahead and its secret was presented; no other entry changes. */
  lemma LookupLeaves(s: State, c: CallId, sel: Selector, now: int, matches: bool, cfg: Config)
    requires c !in s.calls && s.mutex == None && now <= s.now
    ensures var t := Step(s, Lookup(c, sel, now, matches), cfg).0;
      var hit := sel in s.cache && now < s.cache[sel].until && now < s.cache[sel].session && matches;
      && t.rows == s.rows && t.rev == s.rev && t.mutex == None
      && (hit ==> t.cache == s.cache && t.calls == s.calls[c := Loaded(sel, now, s.rev, s.cache[sel].session, true)])
      && (!hit ==> t.cache == s.cache - {sel} && t.calls == s.calls[c := Missed(sel, now)])
  {
  }

  /** Publishing grants exactly if no revocation came in between, then under the later of the
      expiry in hand and the one in the cache, and leaves an entry of just that. */
  lemma PublishLeaves(s: State, c: CallId, cfg: Config)
    requires c in s.calls && s.calls[c].Ready? && s.mutex == None
    ensures var call := s.calls[c]; var (t, e) := Step(s, Publish(c), cfg);
      && t.calls == s.calls - {c} && t.rows == s.rows && t.rev == s.rev && t.mutex == None
      && (call.gen != s.rev ==> e == Quiet && t.cache == s.cache)
      && (call.gen == s.rev ==>
            && e == Granted(call.sel, e.session, call.now)
            && e.session >= call.session && (call.sel in s.cache ==> e.session >= s.cache[call.sel].session)
            && (e.session == call.session || (call.sel in s.cache && e.session == s.cache[call.sel].session))
            && t.cache == s.cache[call.sel := Cached(e.session, call.now + cfg.cacheTtl)])
  {
  }

  /** A live session in the cache, presented with its secret, is granted whatever the database
      does: refused a renewal it is due, under the expiry it has. */
  lemma HitIsGranted(s: State, c: CallId, sel: Selector, now: int, dbError: bool, cfg: Config)
    requires cfg.Valid() && c !in s.calls && s.mutex == None && now <= s.now
    requires sel in s.cache && now < s.cache[sel].until && now < s.cache[sel].session
    requires dbError || now + cfg.ttl / 2 <= s.cache[sel].session
    ensures var t := Step(Step(s, Lookup(c, sel, now, true), cfg).0, Renew(c, dbError), cfg).0;
      Step(t, Publish(c), cfg).1 == Granted(sel, s.cache[sel].session, now)
  {
    LookupLeaves(s, c, sel, now, true, cfg);
    var t := Step(s, Lookup(c, sel, now, true), cfg).0;
    NotRenewed(t, c, dbError, cfg);
    hide Step;
    PublishLeaves(Step(t, Renew(c, dbError), cfg).0, c, cfg);
  }

  lemma NotRenewed(s: State, c: CallId, dbError: bool, cfg: Config)
    requires c in s.calls && s.calls[c].Loaded? && s.calls[c].hit
    requires dbError || s.calls[c].now + cfg.ttl / 2 <= s.calls[c].session
    ensures var call := s.calls[c];
      Step(s, Renew(c, dbError), cfg).0 == s.(calls := s.calls[c := Ready(call.sel, call.now, call.gen, call.session)])
  {
  }

  /** A request whose renewal lost its swap loads the row again, and if it finds the session live
      under its secret, is granted with the row's expiry or a later one, without renewing it
      again. */
  lemma ReloadIsGranted(s: State, c: CallId, cfg: Config)
    requires c in s.calls && s.calls[c].Loading? && s.calls[c].again && s.calls[c].gen == s.rev && s.mutex == None
    requires s.calls[c].sel in s.rows && s.calls[c].now < s.rows[s.calls[c].sel]
    ensures var call, t := s.calls[c], Step(s, Load(c, true), cfg).0; var e := Step(t, Publish(c), cfg).1;
      && e.Granted? && e.sel == call.sel && e.now == call.now && s.rows[call.sel] <= e.session && t.rows == s.rows
  {
    var t := Step(s, Load(c, true), cfg).0;
    assert t == s.(calls := s.calls[c := Ready(s.calls[c].sel, s.calls[c].now, s.calls[c].gen, s.rows[s.calls[c].sel])]);
    hide Step;
    PublishLeaves(t, c, cfg);
  }

  // The sessions a revoking section is about.
  predicate About(s: State, a: Action, sels: set<Selector>) {
    match a
    case Delete(_, sel, _) => sels == {sel}
    case InvalidateAll(_, _) => sels == s.issued
    case RevokeExpired(c, _) => c in s.calls && s.calls[c].Expiring? && sels == {s.calls[c].sel}
    case _ => false
  }

  /** A revocation runs to its end: it holds the mutex from its statement to its return, the rows
      it is about go unless the database refuses, their entries go anyway, no others do, and
      loads in flight are outrun. */
  lemma RevocationRuns(s: State, a: Action, sels: set<Selector>, cfg: Config)
    requires Enabled(s, a) && About(s, a, sels) && RowsOk(s)
    ensures var t := Step(s, a, cfg).0; var refused := match a
        case Delete(_, _, dbError) => dbError
        case InvalidateAll(_, dbError) => dbError
        case RevokeExpired(_, dbError) => dbError
        case _ => false;
      && t.mutex == Some(a.c) && t.cache == s.cache && t.rows == (if refused then s.rows else s.rows - sels)
      && var (u, e) := Step(t, RevokeEnd(a.c), cfg);
      && e.Revoked? && u.mutex == None && u.calls == s.calls - {a.c} && u.rows == t.rows
      && u.cache == s.cache - sels && u.rev > s.rev
  {
    var t := Step(s, a, cfg).0;
    BeginLeaves(s, a, sels, cfg);
    assert t.calls - {a.c} == s.calls - {a.c};
  }

  lemma BeginLeaves(s: State, a: Action, sels: set<Selector>, cfg: Config)
    requires Enabled(s, a) && About(s, a, sels) && RowsOk(s)
    ensures var t := Step(s, a, cfg).0; var refused := match a
        case Delete(_, _, dbError) => dbError
        case InvalidateAll(_, dbError) => dbError
        case RevokeExpired(_, dbError) => dbError
        case _ => false;
      && t.mutex == Some(a.c) && t.cache == s.cache && t.rows == (if refused then s.rows else s.rows - sels) && t.rev == s.rev
      && exists gone :: t.calls == s.calls[a.c := Revoking(gone, sels)]
  {
    assert s.rows - (sels * s.issued) == s.rows - sels;
    assert s.rows - {} == s.rows;
  }

  /** A session is created with a whole lifetime under a selector never drawn before; eviction
      takes its entries, and giving up ends nothing but the call. */
  lemma OthersLeave(s: State, c: CallId, sel: Selector, later: int, gone: set<Selector>, cfg: Config)
    requires s.now <= later
    ensures sel !in s.issued ==> Step(s, Create(sel), cfg).0 == s.(rows := s.rows[sel := s.now + cfg.ttl], issued := s.issued + {sel})
    ensures Step(s, Tick(later), cfg).0 == s.(now := later)
    ensures s.mutex == None ==> Step(s, Evict(gone), cfg).0 == s.(cache := s.cache - gone)
    ensures c in s.calls && !s.calls[c].Revoking? ==> Step(s, Abort(c), cfg).0 == s.(calls := s.calls - {c})
  {
  }

  /** Pruning takes exactly the rows past the cutoff, and no entry. */
  lemma PruneLeaves(s: State, cutoff: int, cfg: Config)
    requires cutoff <= s.now
    ensures var t := Step(s, Prune(cutoff), cfg).0;
      && (forall r :: r in t.rows <==> r in s.rows && cutoff <= s.rows[r])
      && (forall r :: r in t.rows ==> t.rows[r] == s.rows[r]) && t.cache == s.cache
  {
  }

  /** While a revocation holds the mutex nothing is looked up, granted, revoked or evicted. */
  lemma RevokingExcludes(s: State, a: Action, cfg: Config)
    requires s.mutex.Some?
    requires a.Lookup? || a.Publish? || a.Delete? || a.InvalidateAll? || a.RevokeExpired? || a.Evict?
    ensures Step(s, a, cfg) == (s, Quiet)
  {
  }
}
