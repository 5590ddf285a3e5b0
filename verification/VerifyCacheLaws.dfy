/**
 Where grants come from: a verified row, its time, and the mutations since.
 */
module VerifyCacheLaws {
  import opened Wrappers
  import opened VerifyCache
  import opened VerifyCacheProofs

  /******* What a grant rests on *******/

  // At i a call looking up key found the row, active, and the presented secret matched it.
  ghost predicate ReadAt(s: State, acts: seq<Action>, ttl: int, max: nat, i: nat, key: Key, id: Id, row: Row) {
    && i < |acts| && acts[i].ReadRow? && acts[i].id == id && acts[i].matches
    && var t := Run(s, acts[..i], ttl, max);
      && acts[i].c in t.calls && t.calls[acts[i].c].Loaded? && t.calls[acts[i].c].key == key
      && id in t.rows && t.rows[id] == row && row.active
  }

  ghost predicate WasRead(s: State, acts: seq<Action>, ttl: int, max: nat, key: Key, id: Id, row: Row) {
    exists i: nat :: ReadAt(s, acts, ttl, max, i, key, id, row)
  }

  lemma StillRead(s: State, acts: seq<Action>, ttl: int, max: nat, n: nat, key: Key, id: Id, row: Row)
    requires n <= |acts| && WasRead(s, acts[..n], ttl, max, key, id, row)
    ensures WasRead(s, acts, ttl, max, key, id, row)
  {
    hide Run;
    var i: nat :| ReadAt(s, acts[..n], ttl, max, i, key, id, row);
    assert acts[..n][..i] == acts[..i];
    assert ReadAt(s, acts, ttl, max, i, key, id, row);
  }

  // The row a call or an entry holds.
  lemma VerifiedStep(s: State, a: Action, ttl: int, max: nat, c: CallId)
    requires c in Step(s, a, ttl, max).0.calls && Step(s, a, ttl, max).0.calls[c].Verified?
    ensures var call := Step(s, a, ttl, max).0.calls[c];
      || (c in s.calls && s.calls[c] == call)
      || (&& a == ReadRow(c, call.id, true) && c in s.calls && s.calls[c].Loaded? && s.calls[c].key == call.key
          && call.id in s.rows && s.rows[call.id] == call.row && call.row.active)
  {
  }

  lemma EntryStep(s: State, a: Action, ttl: int, max: nat, k: Key)
    requires k in Step(s, a, ttl, max).0.entries
    ensures var (t, e) := Step(s, a, ttl, max);
      || (k in s.entries && s.entries[k] == t.entries[k])
      || (&& e.Granted? && e.id == t.entries[k].id && e.row == t.entries[k].row && t.entries[k].until == e.now + ttl
          && KeyOf(s, a) == k)
  {
  }

  // The key a granting action is about.
  function KeyOf(s: State, a: Action): Key {
    if a.Lookup? then a.key else if a.Publish? && a.c in s.calls && s.calls[a.c].Verified? then s.calls[a.c].key else 0
  }

  lemma GrantedStep(s: State, a: Action, ttl: int, max: nat)
    requires Step(s, a, ttl, max).1.Granted?
    ensures var e, k := Step(s, a, ttl, max).1, KeyOf(s, a);
      && (e.row.expires.Some? ==> e.now < e.row.expires.value)
      && ((a.Publish? && a.c in s.calls && s.calls[a.c].Verified? && s.calls[a.c].id == e.id && s.calls[a.c].row == e.row)
          || (a.Lookup? && k in s.entries && s.entries[k].id == e.id && s.entries[k].row == e.row && a.now == e.now < s.entries[k].until))
  {
  }

  ghost predicate CallRead(s: State, acts: seq<Action>, ttl: int, max: nat, c: CallId) {
    var t := Run(s, acts, ttl, max);
    c in t.calls && t.calls[c].Verified? ==> WasRead(s, acts, ttl, max, t.calls[c].key, t.calls[c].id, t.calls[c].row)
  }

  ghost predicate EntryRead(s: State, acts: seq<Action>, ttl: int, max: nat, k: Key) {
    var t := Run(s, acts, ttl, max);
    k in t.entries ==> WasRead(s, acts, ttl, max, k, t.entries[k].id, t.entries[k].row)
  }

  lemma {:induction false} CallsWereRead(s: State, acts: seq<Action>, ttl: int, max: nat, c: CallId)
    requires Start(s)
    ensures CallRead(s, acts, ttl, max, c)
  {
    hide Step;
    hide WasRead;
    if acts != [] {
      var n := |acts| - 1;
      var t, a := Run(s, acts[..n], ttl, max), acts[n];
      if c in Run(s, acts, ttl, max).calls && Run(s, acts, ttl, max).calls[c].Verified? {
        var call := Run(s, acts, ttl, max).calls[c];
        VerifiedStep(t, a, ttl, max, c);
        if c in t.calls && t.calls[c] == call {
          CallsWereRead(s, acts[..n], ttl, max, c);
          StillRead(s, acts, ttl, max, n, call.key, call.id, call.row);
        } else {
          JustRead(s, acts, ttl, max, call.key, call.id, call.row);
        }
      }
    }
  }

  lemma JustRead(s: State, acts: seq<Action>, ttl: int, max: nat, key: Key, id: Id, row: Row)
    requires acts != [] && ReadAt(s, acts, ttl, max, |acts| - 1, key, id, row)
    ensures WasRead(s, acts, ttl, max, key, id, row)
  {
  }

  lemma {:induction false} EntriesWereRead(s: State, acts: seq<Action>, ttl: int, max: nat, k: Key)
    requires Start(s)
    ensures EntryRead(s, acts, ttl, max, k)
  {
    hide Step;
    hide WasRead;
    if acts != [] {
      var n := |acts| - 1;
      var t, a := Run(s, acts[..n], ttl, max), acts[n];
      if k in Run(s, acts, ttl, max).entries {
        var e := Run(s, acts, ttl, max).entries[k];
        EntryStep(t, a, ttl, max, k);
        EntriesWereRead(s, acts[..n], ttl, max, k);
        if !(k in t.entries && t.entries[k] == e) {
          GrantedStep(t, a, ttl, max);
          if a.Publish? {
            CallsWereRead(s, acts[..n], ttl, max, a.c);
          }
        }
        StillRead(s, acts, ttl, max, n, k, e.id, e.row);
      }
    }
  }

  /** Every grant, from the cache or not, rests on a row that was active when it was read for
      that very key, and whose stored secret the presented one matched; and the row has not
      expired when it is granted. */
  lemma GrantsWereVerified(s: State, acts: seq<Action>, ttl: int, max: nat, j: nat)
    requires Start(s) && j < |acts| && Trace(s, acts, ttl, max)[j].Granted?
    ensures var e := Trace(s, acts, ttl, max)[j];
      && (e.row.expires.Some? ==> e.now < e.row.expires.value)
      && WasRead(s, acts[..j], ttl, max, KeyOf(Run(s, acts[..j], ttl, max), acts[j]), e.id, e.row)
  {
    hide Step;
    hide WasRead;
    TraceAt(s, acts, ttl, max, j);
    var t := Run(s, acts[..j], ttl, max);
    hide Run;
    GrantedStep(t, acts[j], ttl, max);
    if acts[j].Publish? {
      CallsWereRead(s, acts[..j], ttl, max, acts[j].c);
    } else {
      EntriesWereRead(s, acts[..j], ttl, max, acts[j].key);
    }
  }

  /******* How long a grant lasts *******/

  // Somewhere (id, row) was granted on the key at a time less than ttl before.
  ghost predicate GrantedAt(s: State, acts: seq<Action>, ttl: int, max: nat, i: nat, k: Key, id: Id, row: Row, until: int) {
    && i < |acts| && KeyOf(Run(s, acts[..i], ttl, max), acts[i]) == k
    && var e := Step(Run(s, acts[..i], ttl, max), acts[i], ttl, max).1;
      e.Granted? && e.id == id && e.row == row && until == e.now + ttl
  }

  lemma {:induction false} EntryWasGranted(s: State, acts: seq<Action>, ttl: int, max: nat, k: Key) returns (i: nat)
    requires Start(s) && k in Run(s, acts, ttl, max).entries
    ensures var e := Run(s, acts, ttl, max).entries[k]; GrantedAt(s, acts, ttl, max, i, k, e.id, e.row, e.until)
  {
    hide Step;
    hide KeyOf;
    assert acts != [];
    var n := |acts| - 1;
    EntryStep(Run(s, acts[..n], ttl, max), acts[n], ttl, max, k);
    var t := Run(s, acts[..n], ttl, max);
    if k in t.entries && t.entries[k] == Run(s, acts, ttl, max).entries[k] {
      i := EntryWasGranted(s, acts[..n], ttl, max, k);
      assert acts[..n][..i] == acts[..i];
    } else {
      i := n;
    }
  }

  /** A hit follows a grant of the same row on the same key less than the time to live ago. */
  lemma HitsAreRecent(s: State, acts: seq<Action>, ttl: int, max: nat, j: nat) returns (i: nat)
    requires Start(s) && j < |acts| && Trace(s, acts, ttl, max)[j].Granted? && acts[j].Lookup?
    ensures i < j && Trace(s, acts, ttl, max)[i].Granted? && KeyOf(Run(s, acts[..i], ttl, max), acts[i]) == acts[j].key
    ensures var tr := Trace(s, acts, ttl, max); tr[i].id == tr[j].id && tr[i].row == tr[j].row && tr[j].now < tr[i].now + ttl
  {
    TraceAt(s, acts, ttl, max, j);
    hide Step;
    hide KeyOf;
    hide Run;
    hide Trace;
    GrantedStep(Run(s, acts[..j], ttl, max), acts[j], ttl, max);
    KeyOfLookup(Run(s, acts[..j], ttl, max), acts[j]);
    i := EntryWasGranted(s, acts[..j], ttl, max, acts[j].key);
    assert acts[..j][..i] == acts[..i];
    TraceAt(s, acts, ttl, max, i);
  }

  lemma KeyOfLookup(s: State, a: Action)
    requires a.Lookup?
    ensures KeyOf(s, a) == a.key
  {
  }

  /******* What a mutation does *******/

  // The rows an invalidation is about.
  predicate Covers(s: State, a: Action, id: Id) {
    id in s.rows
    && match a
       case Invalidate(c) => c in s.calls && s.calls[c].Mutated? && s.calls[c].id == id
       case InvalidateAccount(account) => s.rows[id].account == account
       case InvalidateAll => true
       case _ => false
  }

  lemma InvalidationIs(s: State, a: Action, ttl: int, max: nat, id: Id)
    requires Enabled(s, a, max) && Covers(s, a, id)
    ensures var e := Step(s, a, ttl, max).1; e.Invalidated? && id in e.floor && e.floor[id] == s.rows[id].version
  {
  }

  // A commit is what it says, and nothing else changes a row.
  lemma CommitIs(s: State, a: Action, ttl: int, max: nat, id: Id)
    requires id in s.rows
    ensures var t := Step(s, a, ttl, max).0;
      && id in t.rows && s.rows[id].version <= t.rows[id].version
      && if Enabled(s, a, max) && a.Commit? && a.id == id then
           t.rows[id] == Row(s.rows[id].account, a.active, a.expires, s.rows[id].version + 1)
         else t.rows[id] == s.rows[id]
  {
  }

  lemma {:induction false} RowStays(s: State, acts: seq<Action>, ttl: int, max: nat, i: nat, j: nat, id: Id)
    requires i <= j <= |acts| && id in Run(s, acts[..i], ttl, max).rows
    ensures id in Run(s, acts[..j], ttl, max).rows
    ensures Run(s, acts[..i], ttl, max).rows[id].version <= Run(s, acts[..j], ttl, max).rows[id].version
    ensures (forall m :: i <= m < j ==> !(acts[m].Commit? && acts[m].id == id)) ==>
      Run(s, acts[..j], ttl, max).rows[id] == Run(s, acts[..i], ttl, max).rows[id]
    decreases j
  {
    hide Step;
    if i < j {
      RowStays(s, acts, ttl, max, i, j - 1, id);
      assert acts[..j][..j - 1] == acts[..j - 1];
      CommitIs(Run(s, acts[..j - 1], ttl, max), acts[j - 1], ttl, max, id);
    }
  }

  /** Once an invalidation has run, no grant of a row it covers is older than that row was
      then: of one credential, of an account, or of all. */
  lemma InvalidationsTakeEffect(s: State, acts: seq<Action>, ttl: int, max: nat, j: nat, k: nat)
    requires Start(s) && j < k < |acts| && Trace(s, acts, ttl, max)[k].Granted?
    requires Enabled(Run(s, acts[..j], ttl, max), acts[j], max)
    requires Covers(Run(s, acts[..j], ttl, max), acts[j], Trace(s, acts, ttl, max)[k].id)
    ensures var e := Trace(s, acts, ttl, max)[k]; Run(s, acts[..j], ttl, max).rows[e.id].version <= e.row.version
  {
    hide Step;
    hide Run;
    hide Covers;
    TraceAt(s, acts, ttl, max, j);
    CoversRow(Run(s, acts[..j], ttl, max), acts[j], Trace(s, acts, ttl, max)[k].id);
    InvalidationIs(Run(s, acts[..j], ttl, max), acts[j], ttl, max, Trace(s, acts, ttl, max)[k].id);
    hide Trace;
    GrantsAreCurrent(s, acts, ttl, max, j, k);
  }

  lemma CoversRow(s: State, a: Action, id: Id)
    requires Covers(s, a, id)
    ensures id in s.rows
  {
  }

  /** A credential switched off and then invalidated is not granted again unless another
      mutation of it follows. */
  lemma DisabledIsRefused(s: State, acts: seq<Action>, ttl: int, max: nat, i: nat, j: nat, k: nat)
    requires Start(s) && i < j < k < |acts|
    requires acts[i].Commit? && !acts[i].active && Enabled(Run(s, acts[..i], ttl, max), acts[i], max)
    requires Enabled(Run(s, acts[..j], ttl, max), acts[j], max) && Covers(Run(s, acts[..j], ttl, max), acts[j], acts[i].id)
    requires forall m :: i < m < k ==> !(acts[m].Commit? && acts[m].id == acts[i].id)
    ensures !(Trace(s, acts, ttl, max)[k].Granted? && Trace(s, acts, ttl, max)[k].id == acts[i].id)
  {
    var id, e := acts[i].id, Trace(s, acts, ttl, max)[k];
    if e.Granted? && e.id == id {
      assert acts[..i + 1][..i] == acts[..i];
      assert Run(s, acts[..i + 1], ttl, max) == Step(Run(s, acts[..i], ttl, max), acts[i], ttl, max).0;
      EnabledCommit(Run(s, acts[..i], ttl, max), acts[i], max);
      CommitIs(Run(s, acts[..i], ttl, max), acts[i], ttl, max, id);
      hide *;
      InvalidationsTakeEffect(s, acts, ttl, max, j, k);
      GrantsWereVerified(s, acts, ttl, max, k);
      var r := ReadOf(s, acts, ttl, max, k, KeyOf(Run(s, acts[..k], ttl, max), acts[k]), id, e.row);
      RowStays(s, acts, ttl, max, i + 1, j, id);
      if r <= i {
        RowStays(s, acts, ttl, max, r, i, id);
      } else {
        RowStays(s, acts, ttl, max, i + 1, r, id);
      }
      assert false;
    }
  }

  lemma EnabledCommit(s: State, a: Action, max: nat)
    requires Enabled(s, a, max) && a.Commit?
    ensures a.id in s.rows
  {
  }

  lemma ReadOf(s: State, acts: seq<Action>, ttl: int, max: nat, k: nat, key: Key, id: Id, row: Row) returns (r: nat)
    requires k <= |acts| && WasRead(s, acts[..k], ttl, max, key, id, row)
    ensures r < k && row.active && id in Run(s, acts[..r], ttl, max).rows && Run(s, acts[..r], ttl, max).rows[id] == row
  {
    hide Run;
    r :| ReadAt(s, acts[..k], ttl, max, r, key, id, row);
    assert acts[..k][..r] == acts[..r];
  }

  /******* What is granted *******/

  /** A live credential whose secret matches is granted, and cached under its key, if no
      live entry answers for it and no invalidation comes in between. */
  lemma MatchIsGranted(s: State, c: CallId, key: Key, id: Id, now: int, room: map<Key, Entry>, ttl: int, max: nat)
    requires c !in s.calls && s.mutex == None && id in s.rows && s.rows[id].active
    requires key in s.entries ==> s.entries[key].until <= now
    requires (s.rows[id].expires.Some? ==> now < s.rows[id].expires.value) && RoomMade(s.entries - {key}, room, now, max)
    ensures var s3 := Step(Step(Step(s, Lookup(c, key, now), ttl, max).0, LoadRev(c), ttl, max).0, ReadRow(c, id, true), ttl, max).0;
      var (t, e) := Step(s3, Publish(c, room), ttl, max);
      e == Granted(id, s.rows[id], now) && key in t.entries && t.entries[key] == Entry(id, s.rows[id], now + ttl)
  {
    var s1 := Step(s, Lookup(c, key, now), ttl, max).0;
    Misses(s, c, key, now, ttl, max);
    var s2 := Step(s1, LoadRev(c), ttl, max).0;
    LoadsRev(s1, c, key, now, ttl, max);
    var s3 := Step(s2, ReadRow(c, id, true), ttl, max).0;
    Reads(s2, c, key, now, id, ttl, max);
    hide Step;
    Publishes(s3, c, room, ttl, max);
  }

  lemma Misses(s: State, c: CallId, key: Key, now: int, ttl: int, max: nat)
    requires c !in s.calls && s.mutex == None && (key in s.entries ==> s.entries[key].until <= now)
    ensures Step(s, Lookup(c, key, now), ttl, max).0 == s.(calls := s.calls[c := Missed(key, now)], entries := s.entries - {key})
  {
  }

  lemma LoadsRev(s: State, c: CallId, key: Key, now: int, ttl: int, max: nat)
    requires c in s.calls && s.calls[c] == Missed(key, now)
    ensures Step(s, LoadRev(c), ttl, max).0 == s.(calls := s.calls[c := Loaded(key, now, s.rev)])
  {
  }

  lemma Reads(s: State, c: CallId, key: Key, now: int, id: Id, ttl: int, max: nat)
    requires c in s.calls && s.calls[c] == Loaded(key, now, s.rev) && id in s.rows && s.rows[id].active
    ensures Step(s, ReadRow(c, id, true), ttl, max).0 == s.(calls := s.calls[c := Verified(key, now, s.rev, id, s.rows[id])])
  {
  }

  lemma Publishes(s: State, c: CallId, room: map<Key, Entry>, ttl: int, max: nat)
    requires c in s.calls && s.calls[c].Verified? && s.calls[c].gen == s.rev && s.mutex == None
    requires RoomMade(s.entries, room, s.calls[c].now, max)
    requires s.calls[c].row.expires.Some? ==> s.calls[c].now < s.calls[c].row.expires.value
    ensures var (t, e) := Step(s, Publish(c, room), ttl, max); var call := s.calls[c];
      && e == Granted(call.id, call.row, call.now)
      && call.key in t.entries && t.entries[call.key] == Entry(call.id, call.row, call.now + ttl)
  {
  }

  /** A cached one is granted at once, and its entry renewed. */
  lemma HitIsGranted(s: State, c: CallId, key: Key, now: int, ttl: int, max: nat)
    requires c !in s.calls && s.mutex == None && key in s.entries && now < s.entries[key].until
    requires s.entries[key].row.expires.Some? ==> now < s.entries[key].row.expires.value
    ensures var (t, e) := Step(s, Lookup(c, key, now), ttl, max);
      e == Granted(s.entries[key].id, s.entries[key].row, now) && t.entries[key].until == now + ttl
  {
  }

  /******* What each section leaves *******/

  // Only the row of the id differs.
  ghost predicate OtherRowsSame(before: map<Id, Row>, after: map<Id, Row>, id: Id) {
    after.Keys == before.Keys && forall j :: j in before && j != id ==> after[j] == before[j]
  }

  // The entries left are those that stay, unchanged.
  ghost predicate Leaves(before: map<Key, Entry>, after: map<Key, Entry>, stays: Entry -> bool) {
    && (forall k :: k in after <==> k in before && stays(before[k]))
    && (forall k :: k in after ==> after[k] == before[k])
  }

  /** A mutation runs to its end wherever the mutex is free. It changes its own row as told,
      under the next version, and then every entry of that id goes and no other, and loads in
      flight are outrun. In between it holds the mutex exactly if it is to invalidate under it,
      and afterwards the mutex is free again. */
  lemma MutationRuns(s: State, c: CallId, id: Id, active: bool, expires: Option<int>, holding: bool, ttl: int, max: nat)
    requires c !in s.calls && id in s.rows && s.mutex == None
    ensures var (t, e) := Step(s, Commit(c, id, active, expires, holding), ttl, max);
      && e == Committed(id, s.rows[id].version + 1) && t.mutex == (if holding then Some(c) else None)
      && OtherRowsSame(s.rows, t.rows, id) && t.rows[id] == Row(s.rows[id].account, active, expires, s.rows[id].version + 1)
      && t.entries == s.entries && t.rev == s.rev
    ensures var t := Step(s, Commit(c, id, active, expires, holding), ttl, max).0;
      var (u, e) := Step(t, Invalidate(c), ttl, max);
      && e.Invalidated? && u.mutex == None && u.calls == s.calls && u.rows == t.rows && u.rev > s.rev
      && Leaves(s.entries, u.entries, (x: Entry) => x.id != id)
  {
    var t := Step(s, Commit(c, id, active, expires, holding), ttl, max).0;
    CommitLeaves(s, c, id, active, expires, holding, ttl, max);
    hide Step;
    InvalidateLeaves(t, c, id, holding, ttl, max);
    assert t.calls - {c} == s.calls;
  }

  lemma CommitLeaves(s: State, c: CallId, id: Id, active: bool, expires: Option<int>, holding: bool, ttl: int, max: nat)
    requires c !in s.calls && id in s.rows && s.mutex == None
    ensures var (t, e) := Step(s, Commit(c, id, active, expires, holding), ttl, max);
      && e == Committed(id, s.rows[id].version + 1) && t.mutex == (if holding then Some(c) else None)
      && t.rows == s.rows[id := Row(s.rows[id].account, active, expires, s.rows[id].version + 1)]
      && t.entries == s.entries && t.rev == s.rev && t.calls == s.calls[c := Mutated(id, holding)]
  {
  }

  lemma InvalidateLeaves(s: State, c: CallId, id: Id, holding: bool, ttl: int, max: nat)
    requires c in s.calls && s.calls[c] == Mutated(id, holding) && s.mutex == (if holding then Some(c) else None)
    ensures var (t, e) := Step(s, Invalidate(c), ttl, max);
      && e.Invalidated? && t.mutex == None && t.calls == s.calls - {c} && t.rows == s.rows && t.rev > s.rev
      && Leaves(s.entries, t.entries, (x: Entry) => x.id != id)
  {
  }

  /** Invalidating an account or all takes exactly its entries, or all, and outruns the loads
      in flight; a sweep takes exactly the entries past their time, and outruns nothing. */
  lemma SectionsLeave(s: State, account: nat, now: int, ttl: int, max: nat)
    requires s.mutex == None
    ensures var t := Step(s, InvalidateAccount(account), ttl, max).0;
      && t.rev > s.rev && t.rows == s.rows && t.calls == s.calls && t.mutex == None
      && Leaves(s.entries, t.entries, (x: Entry) => x.row.account != account)
    ensures var t := Step(s, InvalidateAll, ttl, max).0;
      t.rev > s.rev && t.rows == s.rows && t.calls == s.calls && t.mutex == None && t.entries == map[]
    ensures var t := Step(s, Sweep(now), ttl, max).0;
      && t.rev == s.rev && t.rows == s.rows && t.calls == s.calls && t.mutex == None
      && Leaves(s.entries, t.entries, (x: Entry) => x.until > now)
  {
  }

  /** A lookup leaves an entry only under a grant: one past its time goes, and so does one
      whose row has expired. No other entry changes. */
  lemma LookupLeaves(s: State, c: CallId, key: Key, now: int, ttl: int, max: nat)
    requires c !in s.calls && s.mutex == None
    ensures var (t, e) := Step(s, Lookup(c, key, now), ttl, max);
      && (key in t.entries <==> e.Granted?) && t.entries - {key} == s.entries - {key}
      && t.rows == s.rows && t.rev == s.rev && t.mutex == None
  {
    var t := Step(s, Lookup(c, key, now), ttl, max).0;
    assert (s.entries - {key}) - {key} == s.entries - {key};
    if key in s.entries {
      var e := s.entries[key].(until := now + ttl);
      assert s.entries[key := e] - {key} == s.entries - {key};
    }
  }

  /** A new credential adds its row, and giving up ends nothing but the call. */
  lemma OthersLeave(s: State, c: CallId, id: Id, row: Row, ttl: int, max: nat)
    requires id !in s.rows && row.version == 0
    ensures Step(s, Create(id, row), ttl, max) == (State(s.rows[id := row], s.entries, s.rev, s.mutex, s.calls), Quiet)
    ensures c in s.calls && !s.calls[c].Mutated? ==>
      Step(s, Abort(c), ttl, max) == (State(s.rows, s.entries, s.rev, s.mutex, s.calls - {c}), Quiet)
  {
  }
}
