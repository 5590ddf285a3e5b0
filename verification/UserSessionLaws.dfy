/**
 Where grants of customer sessions come from, and who gets one.
 */
module UserSessionLaws {
  import opened Wrappers
  import opened UserSessions
  import opened UserSessionProofs

  /******* What a grant rests on *******/

  // At i the session's row and its owner's were read, the owner was active, and the
  // presented secret matched.
  ghost predicate ReadAt(s: State, acts: seq<Action>, cfg: Config, i: nat, sel: Selector, owner: User, version: nat) {
    && i < |acts| && acts[i].Load? && acts[i].matches
    && var t := Run(s, acts[..i], cfg);
      && acts[i].c in t.calls && t.calls[acts[i].c].Loading? && t.calls[acts[i].c].sel == sel
      && sel in t.rows && t.rows[sel].owner == owner && t.calls[acts[i].c].now < t.rows[sel].expires
      && owner in t.users && t.users[owner] == UserRow(true, version)
  }

  ghost predicate WasRead(s: State, acts: seq<Action>, cfg: Config, sel: Selector, owner: User, version: nat) {
    exists i: nat :: ReadAt(s, acts, cfg, i, sel, owner, version)
  }

  // At m call c itself presented the right secret for sel, and it has gone on since.
  ghost predicate ShownAt(s: State, acts: seq<Action>, cfg: Config, m: nat, c: CallId, sel: Selector) {
    && m < |acts| && (acts[m].Lookup? || acts[m].Load?) && acts[m].c == c && acts[m].matches
    && var t := Run(s, acts[..m], cfg);
      && (if acts[m].Lookup? then acts[m].sel == sel && Usable(t.cache, sel, acts[m].now)
          else c in t.calls && t.calls[c].Loading? && t.calls[c].sel == sel)
      && forall x :: m < x <= |acts| ==> c in Run(s, acts[..x], cfg).calls
  }

  ghost predicate WasShown(s: State, acts: seq<Action>, cfg: Config, c: CallId, sel: Selector) {
    exists m: nat :: ShownAt(s, acts, cfg, m, c, sel)
  }

  lemma StillRead(s: State, acts: seq<Action>, cfg: Config, n: nat, sel: Selector, owner: User, version: nat)
    requires n <= |acts| && WasRead(s, acts[..n], cfg, sel, owner, version)
    ensures WasRead(s, acts, cfg, sel, owner, version)
  {
    hide Run;
    var i: nat :| ReadAt(s, acts[..n], cfg, i, sel, owner, version);
    assert acts[..n][..i] == acts[..i];
    assert ReadAt(s, acts, cfg, i, sel, owner, version);
  }

  lemma StillShown(s: State, acts: seq<Action>, cfg: Config, c: CallId, sel: Selector)
    requires acts != [] && WasShown(s, acts[..|acts| - 1], cfg, c, sel) && c in Run(s, acts, cfg).calls
    ensures WasShown(s, acts, cfg, c, sel)
  {
    hide Run;
    var n := |acts| - 1;
    var m: nat :| ShownAt(s, acts[..n], cfg, m, c, sel);
    assert forall x :: 0 <= x <= n ==> acts[..n][..x] == acts[..x];
    assert acts[..|acts|] == acts;
    assert ShownAt(s, acts, cfg, m, c, sel);
  }

  predicate Holds(call: Call) {
    call.Loaded? || call.Ready?
  }

  // How a call comes to hold a copy.
  lemma HoldStep(s: State, a: Action, cfg: Config, c: CallId)
    requires c in Step(s, a, cfg).0.calls && Holds(Step(s, a, cfg).0.calls[c])
    ensures var call := Step(s, a, cfg).0.calls[c];
      || (&& c in s.calls && Holds(s.calls[c]) && s.calls[c].sel == call.sel && s.calls[c].held.owner == call.held.owner
          && s.calls[c].held.version == call.held.version)
      || (&& a.Load? && a.c == c && a.matches && c in s.calls && s.calls[c].Loading? && s.calls[c].sel == call.sel
          && call.sel in s.rows && s.rows[call.sel].owner == call.held.owner && s.calls[c].now < s.rows[call.sel].expires
          && call.held.owner in s.users && s.users[call.held.owner] == UserRow(true, call.held.version))
      || (&& a.Lookup? && a.c == c && a.sel == call.sel && a.matches && Usable(s.cache, a.sel, a.now)
          && s.cache[a.sel].owner == call.held.owner && s.cache[a.sel].version == call.held.version)
  {
    hide Spared;
    hide Uncached;
    hide Changed;
    hide Deleted;
    hide Best;
  }

  lemma CacheStep(s: State, a: Action, cfg: Config, sel: Selector)
    requires sel in Step(s, a, cfg).0.cache
    ensures var (t, e) := Step(s, a, cfg);
      || (sel in s.cache && s.cache[sel] == t.cache[sel])
      || (&& a.Publish? && a.c in s.calls && s.calls[a.c].Ready? && s.calls[a.c].sel == sel
          && s.calls[a.c].held.owner == t.cache[sel].owner && s.calls[a.c].held.version == t.cache[sel].version
          && t.cache[sel].until == s.calls[a.c].now + cfg.cacheTtl
          && e == Granted(sel, Held(t.cache[sel].owner, t.cache[sel].version, t.cache[sel].session), s.calls[a.c].now))
  {
    hide Spared;
    hide Changed;
    hide Deleted;
    hide Best;
  }

  lemma GrantIs(s: State, a: Action, cfg: Config)
    requires Step(s, a, cfg).1.Granted?
    ensures var e := Step(s, a, cfg).1;
      && a.Publish? && a.c in s.calls && s.calls[a.c].Ready? && s.calls[a.c].sel == e.sel && s.calls[a.c].now == e.now
      && s.calls[a.c].held.owner == e.held.owner && s.calls[a.c].held.version == e.held.version
  {
  }

  lemma JustRead(s: State, acts: seq<Action>, cfg: Config, sel: Selector, owner: User, version: nat)
    requires acts != [] && ReadAt(s, acts, cfg, |acts| - 1, sel, owner, version)
    ensures WasRead(s, acts, cfg, sel, owner, version)
  {
  }

  lemma JustShown(s: State, acts: seq<Action>, cfg: Config, c: CallId, sel: Selector)
    requires acts != [] && c in Run(s, acts, cfg).calls
    requires var a, t := acts[|acts| - 1], Run(s, acts[..|acts| - 1], cfg);
      && (a.Lookup? || a.Load?) && a.c == c && a.matches
      && if a.Lookup? then a.sel == sel && Usable(t.cache, sel, a.now) else c in t.calls && t.calls[c].Loading? && t.calls[c].sel == sel
    ensures WasShown(s, acts, cfg, c, sel)
  {
    hide Run;
    assert acts[..|acts|] == acts;
    assert ShownAt(s, acts, cfg, |acts| - 1, c, sel);
  }

  // Every copy in memory was read, and every call that holds one showed the secret.
  lemma {:induction false} CopiesWereRead(s: State, acts: seq<Action>, cfg: Config, c: CallId, sel: Selector)
    requires Start(s)
    ensures var t := Run(s, acts, cfg);
      && (c in t.calls && Holds(t.calls[c]) ==>
            && WasRead(s, acts, cfg, t.calls[c].sel, t.calls[c].held.owner, t.calls[c].held.version)
            && WasShown(s, acts, cfg, c, t.calls[c].sel))
      && (sel in t.cache ==> WasRead(s, acts, cfg, sel, t.cache[sel].owner, t.cache[sel].version))
    decreases |acts|, 1
  {
    hide Step;
    hide WasRead;
    hide WasShown;
    if acts != [] {
      CallWasRead(s, acts, cfg, c);
      EntryWasRead(s, acts, cfg, sel);
    }
  }

  lemma CallWasRead(s: State, acts: seq<Action>, cfg: Config, c: CallId)
    requires Start(s) && acts != []
    ensures var t := Run(s, acts, cfg);
      c in t.calls && Holds(t.calls[c]) ==>
        && WasRead(s, acts, cfg, t.calls[c].sel, t.calls[c].held.owner, t.calls[c].held.version)
        && WasShown(s, acts, cfg, c, t.calls[c].sel)
    decreases |acts|, 0
  {
    hide Step;
    hide WasRead;
    hide WasShown;
    hide Usable;
    var n := |acts| - 1;
    var t, a, u := Run(s, acts[..n], cfg), acts[n], Run(s, acts, cfg);
    if c in u.calls && Holds(u.calls[c]) {
      var call := u.calls[c];
      HoldStep(t, a, cfg, c);
      CopiesWereRead(s, acts[..n], cfg, c, call.sel);
      if c in t.calls && Holds(t.calls[c]) && t.calls[c].sel == call.sel
         && t.calls[c].held.owner == call.held.owner && t.calls[c].held.version == call.held.version {
        StillRead(s, acts, cfg, n, call.sel, call.held.owner, call.held.version);
        StillShown(s, acts, cfg, c, call.sel);
      } else {
        JustShown(s, acts, cfg, c, call.sel);
        if a.Load? {
          JustRead(s, acts, cfg, call.sel, call.held.owner, call.held.version);
        } else {
          UsableIsCached(t.cache, a.sel, a.now);
          StillRead(s, acts, cfg, n, call.sel, call.held.owner, call.held.version);
        }
      }
    }
  }

  lemma UsableIsCached(cache: map<Selector, Entry>, sel: Selector, now: int)
    requires Usable(cache, sel, now)
    ensures sel in cache
  {
  }

  lemma EntryWasRead(s: State, acts: seq<Action>, cfg: Config, sel: Selector)
    requires Start(s) && acts != []
    ensures var t := Run(s, acts, cfg);
      sel in t.cache ==> WasRead(s, acts, cfg, sel, t.cache[sel].owner, t.cache[sel].version)
    decreases |acts|, 0
  {
    hide Step;
    hide WasRead;
    hide WasShown;
    var n := |acts| - 1;
    var t, a, u := Run(s, acts[..n], cfg), acts[n], Run(s, acts, cfg);
    if sel in u.cache {
      CacheStep(t, a, cfg, sel);
      CopiesWereRead(s, acts[..n], cfg, if a.Publish? then a.c else 0, sel);
      StillRead(s, acts, cfg, n, sel, u.cache[sel].owner, u.cache[sel].version);
    }
  }

  /** A granted session's row and its owner's were read while the owner was active, at the
      version granted, by a request whose secret matched; and the granting request itself
      presented the right secret. */
  lemma GrantsWereVerified(s: State, acts: seq<Action>, cfg: Config, j: nat)
    requires Start(s) && j < |acts| && Trace(s, acts, cfg)[j].Granted?
    ensures var e := Trace(s, acts, cfg)[j];
      && WasRead(s, acts[..j], cfg, e.sel, e.held.owner, e.held.version)
      && acts[j].Publish? && WasShown(s, acts[..j], cfg, acts[j].c, e.sel)
  {
    hide Step;
    hide Run;
    hide WasRead;
    hide WasShown;
    TraceAt(s, acts, cfg, j);
    GrantIs(Run(s, acts[..j], cfg), acts[j], cfg);
    CopiesWereRead(s, acts[..j], cfg, acts[j].c, 0);
  }

  /******* How long an entry lasts *******/

  lemma {:induction false} EntryWasGranted(s: State, acts: seq<Action>, cfg: Config, sel: Selector) returns (i: nat)
    requires Start(s) && sel in Run(s, acts, cfg).cache
    ensures i < |acts|
    ensures var e, g := Run(s, acts, cfg).cache[sel], Step(Run(s, acts[..i], cfg), acts[i], cfg).1;
      g.Granted? && g.sel == sel && g.held == Held(e.owner, e.version, e.session) && e.until == g.now + cfg.cacheTtl
  {
    hide Step;
    assert acts != [];
    var n := |acts| - 1;
    CacheStep(Run(s, acts[..n], cfg), acts[n], cfg, sel);
    if sel in Run(s, acts[..n], cfg).cache && Run(s, acts[..n], cfg).cache[sel] == Run(s, acts, cfg).cache[sel] {
      i := EntryWasGranted(s, acts[..n], cfg, sel);
      assert acts[..n][..i] == acts[..i];
    } else {
      i := n;
    }
  }

  /** A request answered from the cache follows a grant of the same copy less than the cache's
      time to live ago. */
  lemma HitsAreRecent(s: State, acts: seq<Action>, cfg: Config, m: nat) returns (i: nat)
    requires Start(s) && m < |acts| && acts[m].Lookup? && acts[m].matches
    requires Enabled(Run(s, acts[..m], cfg), acts[m])
    requires var t := Run(s, acts[..m + 1], cfg); acts[m].c in t.calls && t.calls[acts[m].c].Loaded?
    ensures i < m && Trace(s, acts, cfg)[i].Granted? && Trace(s, acts, cfg)[i].sel == acts[m].sel
    ensures var g := Trace(s, acts, cfg)[i];
      Run(s, acts[..m + 1], cfg).calls[acts[m].c].held == g.held && acts[m].now < g.now + cfg.cacheTtl
  {
    assert acts[..m + 1][..m] == acts[..m];
    LookupHits(Run(s, acts[..m], cfg), acts[m], cfg);
    i := EntryWasGranted(s, acts[..m], cfg, acts[m].sel);
    assert acts[..m][..i] == acts[..i];
    hide Step;
    TraceAt(s, acts, cfg, i);
  }

  lemma LookupHits(s: State, a: Action, cfg: Config)
    requires Enabled(s, a) && a.Lookup? && a.c in Step(s, a, cfg).0.calls && Step(s, a, cfg).0.calls[a.c].Loaded?
    ensures a.sel in s.cache && a.now < s.cache[a.sel].until
    ensures var e := s.cache[a.sel]; Step(s, a, cfg).0.calls[a.c].held == Held(e.owner, e.version, e.session)
  {
  }

  /******* Renewal *******/

  /** A session with less than half of its lifetime left is extended to a whole one from now,
      any other is left as it is; either way the request goes on with half of it at least,
      unless its swap was lost and it loads the row again. */
  lemma RenewalSlides(s: State, c: CallId, cfg: Config)
    requires cfg.Valid() && c in s.calls && s.calls[c].Loaded?
    ensures var call, t := s.calls[c], Step(s, Renew(c, false), cfg).0; var half := call.now + cfg.ttl / 2;
      && (half <= call.held.session ==> t.rows == s.rows && t.calls[c] == Ready(call.sel, call.now, call.gen, call.held))
      && (call.held.session < half && call.sel in s.rows && s.rows[call.sel].expires == call.held.session ==>
            && t.rows == s.rows[call.sel := SessionRow(s.rows[call.sel].owner, call.now + cfg.ttl)]
            && t.calls[c] == Ready(call.sel, call.now, call.gen, Held(call.held.owner, call.held.version, call.now + cfg.ttl)))
      && (t.calls[c].Ready? ==> half <= t.calls[c].held.session)
      && (!t.calls[c].Ready? ==> t.calls[c] == Loading(call.sel, call.now, call.gen, true) && t.rows == s.rows)
  {
  }

  /******* Who is granted *******/

  /** A live session of an active user, presented with its secret, is granted. */
  lemma MatchIsGranted(s: State, c: CallId, sel: Selector, now: int, cfg: Config)
    requires cfg.Valid() && c !in s.calls && now <= s.now && sel !in s.cache && sel in s.rows && now < s.rows[sel].expires
    requires s.rows[sel].owner in s.users && s.users[s.rows[sel].owner].active
    ensures var s3 := Step(Step(Step(s, Lookup(c, sel, now, true), cfg).0, LoadRev(c), cfg).0, Load(c, true), cfg).0;
      var e := Step(Step(s3, Renew(c, false), cfg).0, Publish(c), cfg).1;
      && e.Granted? && e.sel == sel && e.now == now && e.held.owner == s.rows[sel].owner
      && e.held.version == s.users[s.rows[sel].owner].version && now + cfg.ttl / 2 <= e.held.session
  {
    var s1 := Step(s, Lookup(c, sel, now, true), cfg).0;
    Misses(s, c, sel, now, cfg);
    var s2 := Step(s1, LoadRev(c), cfg).0;
    LoadsRev(s1, c, sel, now, cfg);
    var s3 := Step(s2, Load(c, true), cfg).0;
    Loads(s2, c, sel, now, cfg);
    RenewalSlides(s3, c, cfg);
    hide Step;
    RenewKeepsRev(s3, c, cfg);
    Publishes(Step(s3, Renew(c, false), cfg).0, c, cfg);
  }

  lemma Misses(s: State, c: CallId, sel: Selector, now: int, cfg: Config)
    requires c !in s.calls && now <= s.now && sel !in s.cache
    ensures Step(s, Lookup(c, sel, now, true), cfg).0 == s.(calls := s.calls[c := Missed(sel, now)])
  {
    assert s.cache - {sel} == s.cache;
  }

  lemma LoadsRev(s: State, c: CallId, sel: Selector, now: int, cfg: Config)
    requires c in s.calls && s.calls[c] == Missed(sel, now)
    ensures Step(s, LoadRev(c), cfg).0 == s.(calls := s.calls[c := Loading(sel, now, s.rev, false)])
  {
  }

  lemma Loads(s: State, c: CallId, sel: Selector, now: int, cfg: Config)
    requires c in s.calls && s.calls[c] == Loading(sel, now, s.rev, false) && sel in s.rows && now < s.rows[sel].expires
    requires s.rows[sel].owner in s.users && s.users[s.rows[sel].owner].active
    ensures var held := Held(s.rows[sel].owner, s.users[s.rows[sel].owner].version, s.rows[sel].expires);
      Step(s, Load(c, true), cfg).0 == s.(calls := s.calls[c := Loaded(sel, now, s.rev, held)])
  {
  }

  lemma RenewKeepsRev(s: State, c: CallId, cfg: Config)
    requires c in s.calls && s.calls[c].Loaded?
    ensures var t := Step(s, Renew(c, false), cfg).0; t.rev == s.rev && t.cache == s.cache
  {
  }

  lemma Publishes(s: State, c: CallId, cfg: Config)
    requires c in s.calls && s.calls[c].Ready? && s.calls[c].gen == s.rev
    ensures var e, call := Step(s, Publish(c), cfg).1, s.calls[c];
      && e.Granted? && e.sel == call.sel && e.now == call.now
      && e.held.owner == call.held.owner && e.held.version == call.held.version && call.held.session <= e.held.session
  {
  }

  /******* Revocation and suspension *******/

  // The sessions whose entries a step drops.
  predicate Drops(s: State, a: Action, sel: Selector) {
    sel in s.issued
    && match a
       case Invalidate(c) => c in s.calls && s.calls[c].Mutated? && s.issued[sel] in s.calls[c].hit && s.calls[c].keep != Some(sel)
       case DropEnd(c) => c in s.calls && s.calls[c].Dropping? && s.calls[c].sel == sel
       case _ => false
  }

  lemma DropTells(s: State, a: Action, cfg: Config, sel: Selector)
    requires Enabled(s, a) && Drops(s, a, sel) && sel !in s.rows
    ensures var e := Step(s, a, cfg).1; (e.Invalidated? || e.Dropped?) && sel in e.gone
  {
  }

  /** A session whose row is gone when its entry is dropped is never granted afterwards. */
  lemma DroppedIsRefused(s: State, acts: seq<Action>, cfg: Config, j: nat, k: nat, sel: Selector)
    requires cfg.Valid() && Start(s) && j < k < |acts| && Enabled(Run(s, acts[..j], cfg), acts[j])
    requires Drops(Run(s, acts[..j], cfg), acts[j], sel) && sel !in Run(s, acts[..j], cfg).rows
    ensures !(Trace(s, acts, cfg)[k].Granted? && Trace(s, acts, cfg)[k].sel == sel)
  {
    hide *;
    TraceAt(s, acts, cfg, j);
    DropTells(Run(s, acts[..j], cfg), acts[j], cfg, sel);
    if Trace(s, acts, cfg)[k].Granted? {
      RevocationIsFinal(s, acts, cfg, j, k);
    }
  }

  /** Deleting a session, or a user's sessions, and a change that cuts them take the rows out,
      all but the one spared; entries go later. */
  lemma RowsAreTaken(s: State, a: Action, cfg: Config, sel: Selector)
    requires Enabled(s, a) && RowsOk(s) && sel in s.rows
    ensures var t := Step(s, a, cfg).0;
      && (a.DeleteSession? && !a.dbError ==> (sel in t.rows <==> sel != a.sel))
      && (a.DeleteRows? ==> (sel in t.rows <==> s.rows[sel].owner !in s.calls[a.c].hit))
      && (a.Commit? ==> (sel in t.rows <==> !a.cut || s.rows[sel].owner !in a.hit || a.spared == Some(sel)))
      && (a.Prune? ==> (sel in t.rows <==> a.cutoff <= s.rows[sel].expires))
  {
  }

  // A commit is what it says, and nothing else changes a user's row.
  lemma CommitIs(s: State, a: Action, cfg: Config, u: User)
    requires u in s.users
    ensures var t := Step(s, a, cfg).0;
      && u in t.users && s.users[u].version <= t.users[u].version
      && if Enabled(s, a) && a.Commit? && u in a.hit then t.users[u] == UserRow(a.active, s.users[u].version + 1)
         else t.users[u] == s.users[u]
  {
  }

  lemma {:induction false} UserStays(s: State, acts: seq<Action>, cfg: Config, i: nat, j: nat, u: User)
    requires i <= j <= |acts| && u in Run(s, acts[..i], cfg).users
    ensures u in Run(s, acts[..j], cfg).users
    ensures Run(s, acts[..i], cfg).users[u].version <= Run(s, acts[..j], cfg).users[u].version
    ensures (forall m :: i <= m < j ==> !(acts[m].Commit? && u in acts[m].hit)) ==>
      Run(s, acts[..j], cfg).users[u] == Run(s, acts[..i], cfg).users[u]
    decreases j
  {
    hide Step;
    if i < j {
      UserStays(s, acts, cfg, i, j - 1, u);
      assert acts[..j][..j - 1] == acts[..j - 1];
      CommitIs(Run(s, acts[..j - 1], cfg), acts[j - 1], cfg, u);
    }
  }

  lemma InvalidateTells(s: State, a: Action, cfg: Config, u: User)
    requires Enabled(s, a) && a.Invalidate? && u in s.calls[a.c].hit && u in s.users
    ensures var e := Step(s, a, cfg).1; e.Invalidated? && e.keep == s.calls[a.c].keep && u in e.floor && e.floor[u] == s.users[u].version
  {
  }

  lemma ReadOf(s: State, acts: seq<Action>, cfg: Config, k: nat, sel: Selector, u: User, version: nat) returns (r: nat)
    requires k <= |acts| && WasRead(s, acts[..k], cfg, sel, u, version)
    ensures r < k && u in Run(s, acts[..r], cfg).users && Run(s, acts[..r], cfg).users[u] == UserRow(true, version)
  {
    hide Run;
    r :| ReadAt(s, acts[..k], cfg, r, sel, u, version);
    assert acts[..k][..r] == acts[..r];
  }

  /** A user suspended and then invalidated is granted nothing, the spared session aside,
      unless another change of theirs follows. */
  lemma SuspendedIsRefused(s: State, acts: seq<Action>, cfg: Config, u: User, i: nat, j: nat, k: nat)
    requires cfg.Valid() && Start(s) && i < j < k < |acts|
    requires acts[i].Commit? && u in acts[i].hit && !acts[i].active && Enabled(Run(s, acts[..i], cfg), acts[i])
    requires acts[j].Invalidate? && Enabled(Run(s, acts[..j], cfg), acts[j]) && u in Run(s, acts[..j], cfg).calls[acts[j].c].hit
    requires forall m :: i < m < k ==> !(acts[m].Commit? && u in acts[m].hit)
    requires Trace(s, acts, cfg)[k].Granted? && Trace(s, acts, cfg)[k].held.owner == u
    ensures Run(s, acts[..j], cfg).calls[acts[j].c].keep == Some(Trace(s, acts, cfg)[k].sel)
  {
    var e := Trace(s, acts, cfg)[k];
    assert acts[..i + 1][..i] == acts[..i];
    assert Run(s, acts[..i + 1], cfg) == Step(Run(s, acts[..i], cfg), acts[i], cfg).0;
    CommitHits(Run(s, acts[..i], cfg), acts[i], u);
    CommitIs(Run(s, acts[..i], cfg), acts[i], cfg, u);
    hide *;
    UserStays(s, acts, cfg, i + 1, j, u);
    TraceAt(s, acts, cfg, j);
    InvalidateTells(Run(s, acts[..j], cfg), acts[j], cfg, u);
    if Run(s, acts[..j], cfg).calls[acts[j].c].keep != Some(e.sel) {
      GrantsAreCurrent(s, acts, cfg, j, k);
      GrantsWereVerified(s, acts, cfg, k);
      var r := ReadOf(s, acts, cfg, k, e.sel, u, e.held.version);
      if r <= i {
        UserStays(s, acts, cfg, r, i, u);
      } else {
        UserStays(s, acts, cfg, i + 1, r, u);
      }
      assert false;
    }
  }

  lemma CommitHits(s: State, a: Action, u: User)
    requires Enabled(s, a) && a.Commit? && u in a.hit
    ensures u in s.users
  {
  }

  /******* What each step leaves *******/

  lemma TakeOut(cache: map<Selector, Entry>, sel: Selector, e: Entry)
    ensures (cache - {sel}) - {sel} == cache - {sel} && cache[sel := e] - {sel} == cache - {sel}
  {
  }

  /** A lookup leaves the entry only to a request that goes on with its copy, which it does
      exactly if both ends of it lie ahead and its secret was presented; no other entry
      changes. */
  lemma LookupLeaves(s: State, c: CallId, sel: Selector, now: int, matches: bool, cfg: Config)
    requires c !in s.calls && now <= s.now
    ensures var t := Step(s, Lookup(c, sel, now, matches), cfg).0;
      var hit := sel in s.cache && now < s.cache[sel].until && now < s.cache[sel].session && matches;
      && t.rows == s.rows && t.users == s.users && t.rev == s.rev
      && (hit ==> t.cache == s.cache && t.calls == s.calls[c := Loaded(sel, now, s.rev,
            Held(s.cache[sel].owner, s.cache[sel].version, s.cache[sel].session))])
      && (!hit ==> t.cache == s.cache - {sel} && t.calls == s.calls[c := Missed(sel, now)])
  {
  }

  /** Publishing grants exactly if no invalidation came in between, then under the later of the
      expiry in hand and the one in the cache, and leaves an entry of just that. */
  lemma PublishLeaves(s: State, c: CallId, cfg: Config)
    requires c in s.calls && s.calls[c].Ready?
    ensures var call := s.calls[c]; var (t, e) := Step(s, Publish(c), cfg);
      && t.calls == s.calls - {c} && t.rows == s.rows && t.users == s.users && t.rev == s.rev
      && (call.gen != s.rev ==> e == Quiet && t.cache == s.cache)
      && (call.gen == s.rev ==>
            && e == Granted(call.sel, Held(call.held.owner, call.held.version, e.held.session), call.now)
            && e.held.session >= call.held.session && (call.sel in s.cache ==> e.held.session >= s.cache[call.sel].session)
            && (e.held.session == call.held.session || (call.sel in s.cache && e.held.session == s.cache[call.sel].session))
            && t.cache == s.cache[call.sel := Entry(call.held.owner, call.held.version, e.held.session, call.now + cfg.cacheTtl)])
  {
  }

  /** A renewal the database refuses ends the request and changes nothing else. */
  lemma RefusedRenewal(s: State, c: CallId, cfg: Config)
    requires c in s.calls && s.calls[c].Loaded? && s.calls[c].held.session < s.calls[c].now + cfg.ttl / 2
    ensures Step(s, Renew(c, true), cfg).0 == s.(calls := s.calls - {c})
  {
  }

  /** A live session in the cache, presented with its secret and not due for renewal, is granted
      from its copy. */
  lemma HitIsGranted(s: State, c: CallId, sel: Selector, now: int, dbError: bool, cfg: Config)
    requires cfg.Valid() && c !in s.calls && now <= s.now && sel in s.cache && now < s.cache[sel].until
    requires now < s.cache[sel].session && now + cfg.ttl / 2 <= s.cache[sel].session
    ensures var t := Step(Step(s, Lookup(c, sel, now, true), cfg).0, Renew(c, dbError), cfg).0; var x := s.cache[sel];
      Step(t, Publish(c), cfg).1 == Granted(sel, Held(x.owner, x.version, x.session), now)
  {
    LookupLeaves(s, c, sel, now, true, cfg);
    var t := Step(s, Lookup(c, sel, now, true), cfg).0;
    NotDue(t, c, dbError, cfg);
    hide Step;
    PublishLeaves(Step(t, Renew(c, dbError), cfg).0, c, cfg);
  }

  lemma NotDue(s: State, c: CallId, dbError: bool, cfg: Config)
    requires c in s.calls && s.calls[c].Loaded? && s.calls[c].now + cfg.ttl / 2 <= s.calls[c].held.session
    ensures var call := s.calls[c];
      Step(s, Renew(c, dbError), cfg).0 == s.(calls := s.calls[c := Ready(call.sel, call.now, call.gen, call.held)])
  {
  }

  /** A request whose renewal lost its swap loads the row again, and if it finds a live session
      of an active user under its secret, is granted with the row's expiry or a later one, without
      renewing it again. */
  lemma ReloadIsGranted(s: State, c: CallId, cfg: Config)
    requires c in s.calls && s.calls[c].Loading? && s.calls[c].again && s.calls[c].gen == s.rev && s.calls[c].sel in s.rows
    requires var row := s.rows[s.calls[c].sel]; s.calls[c].now < row.expires && row.owner in s.users && s.users[row.owner].active
    ensures var call, row := s.calls[c], s.rows[s.calls[c].sel]; var t := Step(s, Load(c, true), cfg).0; var e := Step(t, Publish(c), cfg).1;
      && e.Granted? && e.sel == call.sel && e.now == call.now && e.held.owner == row.owner
      && e.held.version == s.users[row.owner].version && row.expires <= e.held.session && t.rows == s.rows
  {
    var t := Step(s, Load(c, true), cfg).0;
    var row := s.rows[s.calls[c].sel];
    assert t == s.(calls := s.calls[c := Ready(s.calls[c].sel, s.calls[c].now, s.calls[c].gen,
                                                Held(row.owner, s.users[row.owner].version, row.expires))]);
    hide Step;
    PublishLeaves(t, c, cfg);
  }

  // The entries left are those of other users, and the one spared, unchanged.
  ghost predicate EntriesLeft(before: map<Selector, Entry>, after: map<Selector, Entry>, hit: set<User>, keep: Option<Selector>) {
    && (forall r :: r in after <==> r in before && (before[r].owner !in hit || keep == Some(r)))
    && (forall r :: r in after ==> after[r] == before[r])
  }

  ghost predicate RowsLeft(before: map<Selector, SessionRow>, after: map<Selector, SessionRow>, hit: set<User>, keep: Option<Selector>) {
    && (forall r :: r in after <==> r in before && (before[r].owner !in hit || keep == Some(r)))
    && (forall r :: r in after ==> after[r] == before[r])
  }

  /** A change runs to its end: each user it hits gets the status told under its next version, no
      other does, its cut takes their sessions' rows but the spared one's, and its invalidation
      their entries but the kept one and outruns the loads in flight. */
  lemma ChangeRuns(s: State, c: CallId, hit: set<User>, active: bool, cut: bool, spared: Option<Selector>, keep: Option<Selector>, cfg: Config)
    requires c !in s.calls && hit <= s.users.Keys && (keep.Some? && cut ==> spared == keep)
    ensures var t := Step(s, Commit(c, hit, active, cut, spared, keep), cfg).0;
      && t.users.Keys == s.users.Keys && t.cache == s.cache && t.rev == s.rev && t.issued == s.issued
      && (forall u :: u in s.users ==> t.users[u] == if u in hit then UserRow(active, s.users[u].version + 1) else s.users[u])
      && (if cut then RowsLeft(s.rows, t.rows, hit, spared) else t.rows == s.rows)
      && var (u, e) := Step(t, Invalidate(c), cfg);
      && e.Invalidated? && u.calls == s.calls && u.users == t.users && u.rows == t.rows && u.rev > s.rev
      && EntriesLeft(s.cache, u.cache, hit, keep)
  {
    var t := Step(s, Commit(c, hit, active, cut, spared, keep), cfg).0;
    CommitLeaves(s, c, hit, active, cut, spared, keep, cfg);
    hide Step;
    InvalidateLeaves(t, c, hit, keep, cfg);
    assert t.calls - {c} == s.calls;
  }

  lemma CommitLeaves(s: State, c: CallId, hit: set<User>, active: bool, cut: bool, spared: Option<Selector>, keep: Option<Selector>, cfg: Config)
    requires c !in s.calls && hit <= s.users.Keys && (keep.Some? && cut ==> spared == keep)
    ensures var t := Step(s, Commit(c, hit, active, cut, spared, keep), cfg).0;
      && t.users.Keys == s.users.Keys && t.cache == s.cache && t.rev == s.rev && t.issued == s.issued
      && (forall u :: u in s.users ==> t.users[u] == if u in hit then UserRow(active, s.users[u].version + 1) else s.users[u])
      && (if cut then RowsLeft(s.rows, t.rows, hit, spared) else t.rows == s.rows)
      && t.calls == s.calls[c := Mutated(hit, keep)]
  {
  }

  lemma InvalidateLeaves(s: State, c: CallId, hit: set<User>, keep: Option<Selector>, cfg: Config)
    requires c in s.calls && s.calls[c] == Mutated(hit, keep)
    ensures var (t, e) := Step(s, Invalidate(c), cfg);
      && e.Invalidated? && t.calls == s.calls - {c} && t.users == s.users && t.rows == s.rows && t.rev > s.rev
      && EntriesLeft(s.cache, t.cache, hit, keep)
  {
  }

  /** Signing out runs to its end: the row goes unless the database refuses, and the entry goes
      anyway, no others, and outruns the loads in flight. */
  lemma SignOutRuns(s: State, c: CallId, sel: Selector, dbError: bool, cfg: Config)
    requires c !in s.calls && sel in s.issued
    ensures var t := Step(s, DeleteSession(c, sel, dbError), cfg).0;
      && t.rows == (if dbError then s.rows else s.rows - {sel}) && t.cache == s.cache && t.users == s.users
      && var (u, e) := Step(t, DropEnd(c), cfg);
      && e.Dropped? && u.calls == s.calls && u.rows == t.rows && u.users == s.users
      && u.cache == s.cache - {sel} && u.rev > s.rev
  {
    var t := Step(s, DeleteSession(c, sel, dbError), cfg).0;
    assert t.calls - {c} == s.calls;
  }

  /** A session is created for its user with a whole lifetime under a selector never drawn
      before; eviction takes its entries, and giving up ends nothing but the call. */
  lemma OthersLeave(s: State, c: CallId, sel: Selector, user: User, active: bool, later: int, gone: set<Selector>, cfg: Config)
    requires s.now <= later
    ensures sel !in s.issued && user in s.users ==>
      Step(s, Create(sel, user), cfg).0 == s.(rows := s.rows[sel := SessionRow(user, s.now + cfg.ttl)], issued := s.issued[sel := user])
    ensures user !in s.users ==> Step(s, SignUp(user, active), cfg).0 == s.(users := s.users[user := UserRow(active, 0)])
    ensures Step(s, Tick(later), cfg).0 == s.(now := later)
    ensures Step(s, Evict(gone), cfg).0 == s.(cache := s.cache - gone)
    ensures c in s.calls && !s.calls[c].Mutated? && !s.calls[c].Dropping? ==> Step(s, Abort(c), cfg).0 == s.(calls := s.calls - {c})
  {
  }

  /** Pruning takes exactly the rows past the cutoff, and no entry. */
  lemma PruneLeaves(s: State, cutoff: int, cfg: Config)
    requires cutoff <= s.now
    ensures var t := Step(s, Prune(cutoff), cfg).0;
      && (forall r :: r in t.rows <==> r in s.rows && cutoff <= s.rows[r].expires)
      && (forall r :: r in t.rows ==> t.rows[r] == s.rows[r]) && t.cache == s.cache && t.users == s.users
  {
  }
}
