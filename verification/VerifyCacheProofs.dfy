/**
 The verification caches over whole runs: any number of verifications, hits,
 evictions and mutations, interleaved in any way.
 */
module VerifyCacheProofs {
  import opened Wrappers
  import opened Sets
  import opened VerifyCache

  /******* One action *******/

  ghost predicate Grows(rows: map<Id, Row>, next: map<Id, Row>) {
    forall id :: id in rows ==>
      id in next && next[id].account == rows[id].account && rows[id].version <= next[id].version
  }

  // An entry survives an action only if the action did not invalidate its row.
  predicate Survives(s: State, e: Event, k: Key, entry: Entry) {
    && k in s.entries && s.entries[k].id == entry.id && s.entries[k].row == entry.row
    && (e.Invalidated? ==> entry.id !in e.floor)
  }

  // A new entry is a verification that nobody invalidated anything under.
  ghost predicate Published(s: State, a: Action, e: Event, k: Key, entry: Entry) {
    && a.Publish? && a.c in s.calls && s.calls[a.c].Verified?
    && s.calls[a.c].gen == s.rev && s.calls[a.c].id == entry.id && s.calls[a.c].row == entry.row
    && !e.Invalidated?
  }

  lemma RowsStep(s: State, a: Action, ttl: int, max: nat)
    requires Enabled(s, a, max)
    ensures var (t, e) := Effect(s, a, ttl, max);
      && Grows(s.rows, t.rows) && s.rev <= t.rev && (e.Invalidated? ==> s.rev < t.rev)
      && (!e.Granted? ==> EventOk(t.rows, e))
  {
  }

  lemma EntriesStep(s: State, a: Action, ttl: int, max: nat, k: Key)
    requires Enabled(s, a, max)
    requires forall j :: j in s.entries ==> CopyOf(s.rows, s.entries[j].id, s.entries[j].row)
    requires k in Effect(s, a, ttl, max).0.entries
    ensures var (t, e) := Effect(s, a, ttl, max);
      Survives(s, e, k, t.entries[k]) || Published(s, a, e, k, t.entries[k])
  {
  }

  // What a call knows after its own step; everyone else's program counter is untouched.
  predicate Moved(s: State, before: Option<Call>, after: Call) {
    match after
    case Missed(_, _) => true
    case Loaded(_, _, gen) => gen == s.rev
    case Verified(_, _, gen, id, row) =>
      before.Some? && before.value.Loaded? && before.value.gen == gen && id in s.rows && row == s.rows[id] && row.active
    case Mutated(id, _) => id in s.rows
  }

  lemma CallsStep(s: State, a: Action, ttl: int, max: nat, c: CallId)
    requires Enabled(s, a, max)
    requires c in Effect(s, a, ttl, max).0.calls
    ensures var (t, e) := Effect(s, a, ttl, max);
      || (c in s.calls && t.calls[c] == s.calls[c])
      || ((e.Committed? || e == Quiet) && t.rev == s.rev
          && Moved(s, if c in s.calls then Some(s.calls[c]) else None, t.calls[c]))
  {
  }

  lemma PublishSize(s: State, a: Action, ttl: int, max: nat)
    requires Enabled(s, a, max) && a.Publish? && |s.entries| <= max
    ensures |Effect(s, a, ttl, max).0.entries| <= max
  {
    var t := Effect(s, a, ttl, max).0;
    var key := s.calls[a.c].key;
    assert |a.room| < max;
    assert t.entries.Keys <= a.room.Keys + {key} || t.entries == s.entries;
    if t.entries != s.entries {
      assert |a.room.Keys + {key}| <= |a.room.Keys| + 1;
      SubsetSize(t.entries.Keys, a.room.Keys + {key});
    }
  }

  lemma SizeStep(s: State, a: Action, ttl: int, max: nat)
    requires Enabled(s, a, max) && |s.entries| <= max
    ensures |Effect(s, a, ttl, max).0.entries| <= max
  {
    var t := Effect(s, a, ttl, max).0;
    if a.Publish? {
      hide Effect;
      PublishSize(s, a, ttl, max);
    } else if a.Lookup? {
      assert t.entries.Keys <= s.entries.Keys;
      SubsetSize(t.entries.Keys, s.entries.Keys);
    } else {
      SubsetSize(t.entries.Keys, s.entries.Keys);
    }
  }

  lemma MutexStep(s: State, a: Action, ttl: int, max: nat)
    requires Enabled(s, a, max) && MutexOk(s)
    ensures MutexOk(Effect(s, a, ttl, max).0)
  {
  }

  lemma EventStep(s: State, a: Action, ttl: int, max: nat, past: set<Event>)
    requires Enabled(s, a, max) && EntriesOk(s, past) && CallsOk(s, past)
    ensures EventOk(Effect(s, a, ttl, max).0.rows, Effect(s, a, ttl, max).1)
  {
    RowsStep(s, a, ttl, max);
    if a.Publish? {
      assert CallOk(s, past, s.calls[a.c]);
    }
  }

  // A survivor was current before, and its row is not among those invalidated now.
  lemma EntryStays(s: State, a: Action, ttl: int, max: nat, past: set<Event>, k: Key)
    requires Enabled(s, a, max) && EntriesOk(s, past) && CallsOk(s, past)
    requires k in Effect(s, a, ttl, max).0.entries
    ensures var (t, e) := Effect(s, a, ttl, max);
      CopyOf(t.rows, t.entries[k].id, t.entries[k].row) && Current(past + {e}, t.entries[k].id, t.entries[k].row)
  {
    RowsStep(s, a, ttl, max);
    EntriesStep(s, a, ttl, max, k);
    var (t, e) := Effect(s, a, ttl, max);
    if Survives(s, e, k, t.entries[k]) {
      assert CopyOf(s.rows, s.entries[k].id, s.entries[k].row);
    } else {
      assert CallOk(s, past, s.calls[a.c]);
    }
  }

  lemma CallStays(s: State, a: Action, ttl: int, max: nat, past: set<Event>, c: CallId)
    requires Enabled(s, a, max) && CallsOk(s, past) && PastOk(s, past)
    requires c in Effect(s, a, ttl, max).0.calls
    ensures var (t, e) := Effect(s, a, ttl, max); CallOk(t, past + {e}, t.calls[c])
  {
    RowsStep(s, a, ttl, max);
    CallsStep(s, a, ttl, max, c);
    var (t, e) := Effect(s, a, ttl, max);
    if c in s.calls {
      assert CallOk(s, past, s.calls[c]);
    }
    if t.calls[c].Verified? && !(c in s.calls && t.calls[c] == s.calls[c]) {
      forall f | f in past + {e} && f.Invalidated? && t.calls[c].id in f.floor
        ensures f.floor[t.calls[c].id] <= t.calls[c].row.version
      {
        assert EventOk(s.rows, f);
      }
    }
  }

  lemma PastStays(s: State, a: Action, ttl: int, max: nat, past: set<Event>)
    requires Enabled(s, a, max) && EntriesOk(s, past) && CallsOk(s, past) && PastOk(s, past)
    ensures var (t, e) := Effect(s, a, ttl, max); PastOk(t, past + {e})
  {
    RowsStep(s, a, ttl, max);
    EventStep(s, a, ttl, max, past);
    var (t, e) := Effect(s, a, ttl, max);
    forall f | f in past
      ensures EventOk(t.rows, f)
    {
      assert EventOk(s.rows, f);
    }
  }

  lemma QuietStays(s: State, past: set<Event>, max: nat)
    requires Inv(s, past, max)
    ensures Inv(s, past + {Quiet}, max)
  {
    forall c | c in s.calls
      ensures CallOk(s, past + {Quiet}, s.calls[c])
    {
      assert CallOk(s, past, s.calls[c]);
    }
  }

  lemma InvStep(s: State, a: Action, ttl: int, max: nat, past: set<Event>)
    requires Inv(s, past, max)
    ensures Inv(Step(s, a, ttl, max).0, past + {Step(s, a, ttl, max).1}, max)
  {
    if Enabled(s, a, max) {
      var (t, e) := Effect(s, a, ttl, max);
      forall k | k in t.entries
        ensures CopyOf(t.rows, t.entries[k].id, t.entries[k].row) && Current(past + {e}, t.entries[k].id, t.entries[k].row)
      {
        EntryStays(s, a, ttl, max, past, k);
      }
      forall c | c in t.calls
        ensures CallOk(t, past + {e}, t.calls[c])
      {
        CallStays(s, a, ttl, max, past, c);
      }
      PastStays(s, a, ttl, max, past);
      SizeStep(s, a, ttl, max);
      MutexStep(s, a, ttl, max);
    } else {
      QuietStays(s, past, max);
    }
  }

  /******* Runs *******/

  lemma {:induction false} RunKeepsInvariant(s: State, acts: seq<Action>, ttl: int, max: nat)
    requires Start(s)
    ensures Inv(Run(s, acts, ttl, max), Past(s, acts, ttl, max), max)
  {
    if acts != [] {
      var prefix := acts[..|acts| - 1];
      RunKeepsInvariant(s, prefix, ttl, max);
      InvStep(Run(s, prefix, ttl, max), acts[|acts| - 1], ttl, max, Past(s, prefix, ttl, max));
    }
  }

  lemma {:induction false} TraceAt(s: State, acts: seq<Action>, ttl: int, max: nat, i: nat)
    requires i < |acts|
    ensures Trace(s, acts, ttl, max)[i] == Step(Run(s, acts[..i], ttl, max), acts[i], ttl, max).1
    decreases |acts|
  {
    hide Step;
    var n := |acts| - 1;
    if i < n {
      TraceAt(s, acts[..n], ttl, max, i);
      assert acts[..n][..i] == acts[..i];
    }
  }

  lemma {:induction false} EarlierIsPast(s: State, acts: seq<Action>, ttl: int, max: nat, i: nat, j: nat)
    requires i < j <= |acts|
    ensures Trace(s, acts, ttl, max)[i] in Past(s, acts[..j], ttl, max)
    decreases j
  {
    hide Step;
    TraceAt(s, acts, ttl, max, i);
    assert acts[..j][..j - 1] == acts[..j - 1];
    if i < j - 1 {
      EarlierIsPast(s, acts, ttl, max, i, j - 1);
    }
  }

  /** The cache never holds more than maxEntries, whatever the calls do. */
  lemma CacheIsBounded(s: State, acts: seq<Action>, ttl: int, max: nat)
    requires Start(s)
    ensures |Run(s, acts, ttl, max).entries| <= max
  {
    RunKeepsInvariant(s, acts, ttl, max);
  }

  // The step behind a grant: a cache hit or a published verification.
  lemma GrantStep(s: State, a: Action, ttl: int, max: nat, past: set<Event>)
    requires Inv(s, past, max) && Step(s, a, ttl, max).1.Granted?
    ensures var e := Step(s, a, ttl, max).1;
      CopyOf(s.rows, e.id, e.row) && Current(past, e.id, e.row) && !Expired(e.row, e.now)
  {
    assert Effect(s, a, ttl, max).1 == Step(s, a, ttl, max).1;
    if a.Publish? {
      assert CallOk(s, past, s.calls[a.c]);
    }
  }

  /** No grant decided after an invalidation rests on a row read before it. */
  lemma GrantsAreCurrent(s: State, acts: seq<Action>, ttl: int, max: nat, i: nat, j: nat)
    requires Start(s) && i < j < |acts|
    requires var tr := Trace(s, acts, ttl, max);
      tr[i].Invalidated? && tr[j].Granted? && tr[j].id in tr[i].floor
    ensures var tr := Trace(s, acts, ttl, max);
      tr[i].floor[tr[j].id] <= tr[j].row.version
  {
    RunKeepsInvariant(s, acts[..j], ttl, max);
    TraceAt(s, acts, ttl, max, j);
    EarlierIsPast(s, acts, ttl, max, i, j);
    GrantStep(Run(s, acts[..j], ttl, max), acts[j], ttl, max, Past(s, acts[..j], ttl, max));
  }

  /** Once a mutation has committed and been followed by its invalidation, only
      rows at least as new as the mutation are granted. */
  lemma MutationsTakeEffect(s: State, acts: seq<Action>, ttl: int, max: nat, i: nat, j: nat, k: nat)
    requires Start(s) && i < j < k < |acts|
    requires var tr := Trace(s, acts, ttl, max);
      && tr[i].Committed? && tr[j].Invalidated? && tr[i].id in tr[j].floor
      && tr[k].Granted? && tr[k].id == tr[i].id
    ensures var tr := Trace(s, acts, ttl, max);
      tr[i].version <= tr[k].row.version && !Expired(tr[k].row, tr[k].now) && tr[k].row.active
  {
    var tr := Trace(s, acts, ttl, max);
    GrantsAreCurrent(s, acts, ttl, max, j, k);
    RunKeepsInvariant(s, acts[..k], ttl, max);
    TraceAt(s, acts, ttl, max, k);
    GrantStep(Run(s, acts[..k], ttl, max), acts[k], ttl, max, Past(s, acts[..k], ttl, max));
    RunKeepsInvariant(s, acts[..j], ttl, max);
    EarlierIsPast(s, acts, ttl, max, i, j);
    assert EventOk(Run(s, acts[..j], ttl, max).rows, tr[i]);
    TraceAt(s, acts, ttl, max, j);
    FloorIsCurrent(Run(s, acts[..j], ttl, max), acts[j], ttl, max);
  }

  lemma FloorIsCurrent(s: State, a: Action, ttl: int, max: nat)
    requires Step(s, a, ttl, max).1.Invalidated?
    ensures var floor := Step(s, a, ttl, max).1.floor;
      forall id :: id in floor ==> id in s.rows && floor[id] == s.rows[id].version
  {
    assert Effect(s, a, ttl, max).1 == Step(s, a, ttl, max).1;
  }

  /** While InvalidateWith holds the mutex nothing is granted or cached: the whole
      call looks atomic to cache readers. */
  lemma HoldingExcludesGrants(s: State, acts: seq<Action>, ttl: int, max: nat, a: Action, c: CallId)
    requires Start(s)
    requires var t := Run(s, acts, ttl, max); c in t.calls && t.calls[c].Mutated? && t.calls[c].holding
    ensures var t := Run(s, acts, ttl, max);
      && !Step(t, a, ttl, max).1.Granted?
      && (Step(t, a, ttl, max).0.entries != t.entries ==> a == Invalidate(c))
  {
    RunKeepsInvariant(s, acts, ttl, max);
    var t := Run(s, acts, ttl, max);
    assert t.mutex == Some(c);
    if Enabled(t, a, max) && a.Invalidate? {
      assert t.calls[a.c].holding;
      assert t.mutex == Some(a.c);
    }
  }
}
