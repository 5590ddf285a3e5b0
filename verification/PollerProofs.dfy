/**
 Generations keep stale polls out, and every cached snapshot has its provider.
 */
module PollerProofs {
  import opened Wrappers
  import opened Poller

  predicate Rewrites(a: Action) {
    a.Register? || a.Reconcile? || a.ReconcileAccount? || a.Unregister?
  }

  /******* One action, one key *******/

  lemma {:induction false} WantIsHome(refs: seq<Ref>, k: Key)
    ensures k in Want(refs) ==> Want(refs)[k].key == k
  {
    if refs != [] {
      WantIsHome(refs[..|refs| - 1], k);
    }
  }

  lemma {:induction false} WantOfIsHome(account: Id, refs: seq<Ref>, k: Key)
    ensures k in WantOf(account, refs) ==> WantOf(account, refs)[k].key == k && k.account == account
  {
    if refs != [] {
      WantOfIsHome(account, refs[..|refs| - 1], k);
    }
  }

  lemma RewriteAt(s: State, a: Action, k: Key)
    requires Rewrites(a)
    ensures var (t, e) := Rewrite(s, a);
      && Get(t, k) == Rewritten(s, a, k)
      && t.polls == s.polls && t.used == s.used && t.gated == s.gated && e.Changed?
      && (k in e.keys <==> Get(t, k).gen != Get(s, k).gen)
  {
    if a.Reconcile? {
      WantIsHome(a.refs, k);
    } else if a.ReconcileAccount? {
      WantOfIsHome(a.account, a.refs, k);
    }
  }

  // What a rewrite may do to one slot.
  lemma RewrittenMoves(s: State, a: Action, k: Key)
    requires Rewrites(a)
    ensures var x, y := Get(s, k), Rewritten(s, a, k);
      && (y.gen == x.gen ==> y == x)
      && (y.gen == x.gen || y.gen == x.gen + 1)
      && (y.ref.Some? && y != x ==> y.ref.value.key == k || (x.ref.Some? && y.ref.value.key == x.ref.value.key))
      && (y.snap.Some? ==> y.snap == x.snap)
      && (y.ref.None? && y != x ==> y.snap.None? && !y.inflight)
      && (y.inflight ==> x.inflight)
  {
    if a.Reconcile? {
      WantIsHome(a.refs, k);
    } else if a.ReconcileAccount? {
      WantOfIsHome(a.account, a.refs, k);
    }
  }

  lemma StepIsRewrite(s: State, a: Action)
    requires Rewrites(a)
    ensures Step(s, a) == Rewrite(s, a)
  {
    hide Rewrite;
  }

  // What any action may do to one slot; began tells whether it begins a poll there.
  predicate Moves(x: Slot, y: Slot, began: bool) {
    && x.gen <= y.gen <= x.gen + 1
    && (y.gen == x.gen && IsAvailable(x.snap) ==> IsAvailable(y.snap))
    && (y.gen == x.gen && x.last.Some? ==> y.last.Some? && x.last.value <= y.last.value)
    && (y.inflight && !x.inflight ==> began && y.gen == x.gen)
  }

  predicate BeganAt(e: Event, k: Key) {
    e.Began? && e.at == k
  }

  lemma BeginMoves(s: State, p: PollId, key: Key, force: bool, now: int, k: Key)
    ensures var (t, e) := BeginStep(s, p, key, force, now); var x, y := Get(s, k), Get(t, k);
      && y.gen == x.gen && y.ref == x.ref && y.snap == x.snap && Moves(x, y, BeganAt(e, k))
      && (e == Quiet ==> t == s)
      && (e != Quiet ==>
            e == Began(p, key, Get(s, key).gen, now) && p !in s.used && t.used == s.used + {p}
            && Get(s, key).ref.Some? && t.polls == s.polls[p := Poll(key, Get(s, key).ref.value, Get(s, key).gen, now)]
            && (Get(s, key).last.Some? ==> Get(s, key).last.value + MIN_INTERVAL <= now) && Get(t, key).last == Some(now))
  {
  }

  // Begin and Trigger differ in the gate only.
  lemma BeginsAre(s: State, a: Action)
    requires a.Begin? || a.Trigger?
    ensures var (t, e) := Step(s, a); var (u, f) := BeginStep(s, a.p, a.key, if a.Begin? then a.force else true, a.now);
      (t == s && e == Quiet) || (e == f && t.slots == u.slots && t.polls == u.polls && t.used == u.used)
  {
    hide Rewrite;
    hide BeginStep;
  }

  lemma QuietMoves(s: State, a: Action, k: Key)
    requires !Rewrites(a)
    ensures var (t, e) := Step(s, a); var x, y := Get(s, k), Get(t, k);
      y.gen == x.gen && !e.Changed? && Moves(x, y, BeganAt(e, k))
  {
    hide Rewrite;
    if a.Begin? || a.Trigger? {
      hide Step;
      BeginsAre(s, a);
      BeginMoves(s, a.p, a.key, if a.Begin? then a.force else true, a.now, k);
    }
  }

  lemma StepMoves(s: State, a: Action, k: Key)
    ensures var (t, e) := Step(s, a); var x, y := Get(s, k), Get(t, k);
      && Moves(x, y, BeganAt(e, k)) && (e.Changed? && k in e.keys <==> x.gen < y.gen)
  {
    hide Step;
    hide Rewrite;
    if Rewrites(a) {
      StepIsRewrite(s, a);
      RewriteAt(s, a, k);
      RewrittenMoves(s, a, k);
    } else {
      QuietMoves(s, a, k);
    }
  }

  // A new poll: announced under an unused id, holding the registration it found.
  predicate Starts(s: State, t: State, e: Event, p: PollId)
    requires p in t.polls
  {
    var poll := t.polls[p];
    && e == Began(p, poll.at, poll.gen, poll.now) && p !in s.used && p in t.used
    && Some(poll.ref) == Get(s, poll.at).ref == Get(t, poll.at).ref
    && poll.gen == Get(s, poll.at).gen == Get(t, poll.at).gen
  }

  // Where running polls come from.
  lemma PollMoves(s: State, a: Action, p: PollId)
    requires p in Step(s, a).0.polls
    ensures var (t, e) := Step(s, a);
      s.used <= t.used && (Starts(s, t, e, p) || (p in s.polls && t.polls[p] == s.polls[p]))
  {
    hide Rewrite;
    if Rewrites(a) {
      hide Step;
      StepIsRewrite(s, a);
      RewriteAt(s, a, NOWHERE);
    } else if a.Begin? || a.Trigger? {
      hide Step;
      BeginsAre(s, a);
      BeginMoves(s, a.p, a.key, if a.Begin? then a.force else true, a.now, a.key);
    }
  }

  /******* Invariant *******/

  // A ref is its key's own, or one without identity left by a header.
  predicate Belongs(ref: Ref, k: Key) {
    ref.key == k || ref.key == NOWHERE
  }

  predicate IsHome(slot: Slot, k: Key) {
    slot.ref.Some? && slot.ref.value.key == k
  }

  // A running poll of the current generation belongs to the registration it began under.
  predicate PollOk(s: State, p: PollId)
    requires p in s.polls
  {
    var poll := s.polls[p];
    && Belongs(poll.ref, poll.at)
    && p in s.used && poll.gen <= Get(s, poll.at).gen
    && (poll.ref.key == poll.at && poll.gen == Get(s, poll.at).gen ==> IsHome(Get(s, poll.at), poll.at))
  }

  ghost predicate PollsOk(s: State) {
    forall p :: p in s.polls ==> PollOk(s, p)
  }

  predicate SlotOk(s: State, k: Key) {
    var slot := Get(s, k);
    && (slot.ref.Some? ==> Belongs(slot.ref.value, k))
    && (k != NOWHERE && slot.snap.Some? ==> IsHome(slot, k))
    && (k != NOWHERE && slot.inflight ==> slot.ref.Some?)
  }

  ghost predicate SlotsOk(s: State) {
    forall k :: SlotOk(s, k)
  }

  lemma QuietSlot(s: State, a: Action, k: Key)
    requires !Rewrites(a) && SlotsOk(s) && PollsOk(s)
    ensures SlotOk(Step(s, a).0, k)
  {
    hide Rewrite;
    assert SlotOk(s, k);
    if a.Finish? && a.p in s.polls {
      assert PollOk(s, a.p);
    } else if a.Begin? || a.Trigger? {
      hide Step;
      BeginsAre(s, a);
      BeginMoves(s, a.p, a.key, if a.Begin? then a.force else true, a.now, k);
    }
  }

  lemma SlotStep(s: State, a: Action, k: Key)
    requires SlotsOk(s) && PollsOk(s)
    ensures SlotOk(Step(s, a).0, k)
  {
    hide Step;
    hide Rewrite;
    assert SlotOk(s, k);
    if Rewrites(a) {
      StepIsRewrite(s, a);
      RewriteAt(s, a, k);
      RewrittenMoves(s, a, k);
    } else {
      QuietSlot(s, a, k);
    }
  }

  // A registration stays while its generation does.
  lemma RegistrationStays(s: State, a: Action, k: Key)
    requires IsHome(Get(s, k), k) && Get(Step(s, a).0, k).gen == Get(s, k).gen
    ensures IsHome(Get(Step(s, a).0, k), k)
  {
    hide Rewrite;
    if Rewrites(a) {
      StepIsRewrite(s, a);
      RewriteAt(s, a, k);
      RewrittenMoves(s, a, k);
    }
  }

  lemma PollStep(s: State, a: Action, p: PollId)
    requires SlotsOk(s) && PollsOk(s) && p in Step(s, a).0.polls
    ensures PollOk(Step(s, a).0, p)
  {
    hide Step;
    PollMoves(s, a, p);
    var (t, e) := Step(s, a);
    if Starts(s, t, e, p) {
      assert SlotOk(s, t.polls[p].at);
    } else {
      var k := s.polls[p].at;
      assert PollOk(s, p);
      StepMoves(s, a, k);
      if Get(t, k).gen == Get(s, k).gen && IsHome(Get(s, k), k) {
        RegistrationStays(s, a, k);
      }
    }
  }

  lemma {:induction false} RunIsSound(acts: seq<Action>)
    ensures SlotsOk(Run(START, acts)) && PollsOk(Run(START, acts))
  {
    if acts != [] {
      var n := |acts| - 1;
      var s, a := Run(START, acts[..n]), acts[n];
      RunIsSound(acts[..n]);
      forall k
        ensures SlotOk(Step(s, a).0, k)
      {
        SlotStep(s, a, k);
      }
      forall p | p in Step(s, a).0.polls
        ensures PollOk(Step(s, a).0, p)
      {
        PollStep(s, a, p);
      }
    }
  }

  /** Every snapshot cached for a provider belongs to its registration, over any calls. */
  lemma SnapshotsAreRegistered(acts: seq<Action>, k: Key)
    requires k != NOWHERE && Get(Run(START, acts), k).snap.Some?
    ensures IsHome(Get(Run(START, acts), k), k)
  {
    RunIsSound(acts);
    assert SlotOk(Run(START, acts), k);
  }

  /******* Stale polls *******/

  lemma {:induction false} TraceAt(s: State, acts: seq<Action>, i: nat)
    requires i < |acts|
    ensures Trace(s, acts)[i] == Step(Run(s, acts[..i]), acts[i]).1
    decreases |acts|
  {
    hide Step;
    var n := |acts| - 1;
    if i < n {
      TraceAt(s, acts[..n], i);
      assert acts[..n][..i] == acts[..i];
    }
  }

  lemma NextRun(acts: seq<Action>, i: nat)
    requires i < |acts|
    ensures Run(START, acts[..i + 1]) == Step(Run(START, acts[..i]), acts[i]).0
  {
    assert acts[..i + 1][..i] == acts[..i];
  }

  lemma GenNext(acts: seq<Action>, i: nat, k: Key)
    requires i < |acts|
    ensures Get(Run(START, acts[..i]), k).gen <= Get(Run(START, acts[..i + 1]), k).gen
  {
    hide Step;
    NextRun(acts, i);
    StepMoves(Run(START, acts[..i]), acts[i], k);
  }

  lemma {:induction false} GenGrowsThrough(acts: seq<Action>, i: nat, j: nat, k: Key)
    requires i <= j <= |acts|
    ensures Get(Run(START, acts[..i]), k).gen <= Get(Run(START, acts[..j]), k).gen
    decreases j - i
  {
    hide *;
    if i < j {
      GenGrowsThrough(acts, i, j - 1, k);
      NextRun(acts, j - 1);
      GenNext(acts, j - 1, k);
    }
  }

  lemma ChangeMovesGen(acts: seq<Action>, m: nat, k: Key)
    requires m < |acts|
    ensures Trace(START, acts)[m].Changed? && k in Trace(START, acts)[m].keys ==>
      Get(Run(START, acts[..m]), k).gen < Get(Run(START, acts[..m + 1]), k).gen
  {
    hide Step;
    TraceAt(START, acts, m);
    NextRun(acts, m);
    StepMoves(Run(START, acts[..m]), acts[m], k);
  }

  // A running poll is the one that was announced.
  ghost predicate Announced(s: State, past: set<Event>, p: PollId)
    requires p in s.polls
  {
    Began(p, s.polls[p].at, s.polls[p].gen, s.polls[p].now) in past
  }

  ghost predicate Beginnings(s: State, past: set<Event>) {
    && (forall e :: e in past && e.Began? ==> e.p in s.used)
    && (forall e, f :: e in past && f in past && e.Began? && f.Began? && e.p == f.p ==> e == f)
    && (forall p :: p in s.polls ==> Announced(s, past, p))
  }

  lemma BeginningIsNew(s: State, a: Action)
    ensures var (t, e) := Step(s, a); s.used <= t.used && (e.Began? ==> e.p !in s.used && e.p in t.used)
  {
    hide Rewrite;
    if Rewrites(a) {
      hide Step;
      StepIsRewrite(s, a);
      RewriteAt(s, a, NOWHERE);
    } else if a.Begin? || a.Trigger? {
      hide Step;
      BeginsAre(s, a);
      BeginMoves(s, a.p, a.key, if a.Begin? then a.force else true, a.now, a.key);
    }
  }

  lemma BeginningStep(s: State, a: Action, past: set<Event>)
    requires Beginnings(s, past)
    ensures Beginnings(Step(s, a).0, past + {Step(s, a).1})
  {
    hide Step;
    var (t, e) := Step(s, a);
    forall p | p in t.polls
      ensures Announced(t, past + {e}, p)
    {
      PollMoves(s, a, p);
      if !Starts(s, t, e, p) {
        assert Announced(s, past, p);
      }
    }
    BeginningIsNew(s, a);
  }

  lemma {:induction false} BeginningsAreUnique(acts: seq<Action>)
    ensures Beginnings(Run(START, acts), Past(START, acts))
  {
    hide Step;
    if acts != [] {
      BeginningsAreUnique(acts[..|acts| - 1]);
      BeginningStep(Run(START, acts[..|acts| - 1]), acts[|acts| - 1], Past(START, acts[..|acts| - 1]));
    }
  }

  lemma {:induction false} EarlierIsPast(acts: seq<Action>, i: nat, j: nat)
    requires i < j <= |acts|
    ensures Trace(START, acts)[i] in Past(START, acts[..j])
    decreases j
  {
    hide Step;
    TraceAt(START, acts, i);
    assert acts[..j][..j - 1] == acts[..j - 1];
    if i < j - 1 {
      EarlierIsPast(acts, i, j - 1);
    }
  }

  lemma StoreStep(s: State, a: Action)
    requires Step(s, a).1.Stored?
    ensures var e := Step(s, a).1;
      && a.Finish? && e.p == a.p && a.p in s.polls && e.at == s.polls[e.p].ref.key && e.snap.fetchedAt == s.polls[e.p].now
      && e.gen == s.polls[e.p].gen == Get(s, e.at).gen
  {
  }

  // The store of a poll matches its only beginning.
  lemma StoreMatchesBeginning(acts: seq<Action>, i: nat, j: nat)
    requires i < j < |acts|
    requires Trace(START, acts)[i].Began? && Trace(START, acts)[j].Stored?
    requires Trace(START, acts)[i].p == Trace(START, acts)[j].p
    ensures var b, e := Trace(START, acts)[i], Trace(START, acts)[j];
      && (e.at == b.at || e.at == NOWHERE) && e.gen == b.gen && e.snap.fetchedAt == b.now
      && Get(Run(START, acts[..i]), b.at).gen == b.gen == Get(Run(START, acts[..j]), e.at).gen
  {
    var s := Run(START, acts[..j]);
    var b, e := Trace(START, acts)[i], Trace(START, acts)[j];
    TraceAt(START, acts, i);
    TraceAt(START, acts, j);
    StoreStep(s, acts[j]);
    BeganStep(Run(START, acts[..i]), acts[i]);
    hide *;
    EarlierIsPast(acts, i, j);
    BeginningsAreUnique(acts[..j]);
    RunIsSound(acts[..j]);
    Matching(s, Past(START, acts[..j]), b, e.p);
  }

  lemma Matching(s: State, past: set<Event>, b: Event, p: PollId)
    requires p in s.polls && Beginnings(s, past) && PollsOk(s) && b in past && b.Began? && b.p == p
    ensures (s.polls[p].ref.key == b.at || s.polls[p].ref.key == NOWHERE) && s.polls[p].gen == b.gen && s.polls[p].now == b.now
  {
    assert PollOk(s, p) && Announced(s, past, p);
  }

  /** A poll begun before its provider was removed or changed never stores a result for any
      provider: what is stored is stored for the provider polled, and between beginning and
      store its registration did not change. */
  lemma StalePollNeverStores(acts: seq<Action>, i: nat, m: nat, j: nat)
    requires i <= m < j < |acts|
    requires Trace(START, acts)[i].Began? && Trace(START, acts)[j].Stored?
    requires Trace(START, acts)[i].p == Trace(START, acts)[j].p
    requires Trace(START, acts)[j].at == NOWHERE ==> Trace(START, acts)[i].at == NOWHERE
    ensures var b, e, c := Trace(START, acts)[i], Trace(START, acts)[j], Trace(START, acts)[m];
      e.at == b.at && e.gen == b.gen && e.snap.fetchedAt == b.now && (c.Changed? ==> e.at !in c.keys)
  {
    hide *;
    var e, c := Trace(START, acts)[j], Trace(START, acts)[m];
    StoreMatchesBeginning(acts, i, j);
    GenGrowsThrough(acts, i, m, e.at);
    GenGrowsThrough(acts, m + 1, j, e.at);
    ChangeMovesGen(acts, m, e.at);
  }

  /******* Polls without identity *******/

  /** A poll that began without identity finishes under NOWHERE, and stores there if and
      only if its generation happens to be that of NOWHERE and no better figures are kept. */
  lemma StrayStoresIff(s: State, p: PollId, available: bool, figures: nat)
    requires p in s.polls && s.polls[p].ref.key == NOWHERE
    ensures var (t, e) := Step(s, Finish(p, available, figures)); var nowhere := Get(s, NOWHERE);
      && (e.Stored? <==> s.polls[p].gen == nowhere.gen && (available || !IsAvailable(nowhere.snap)))
      && (e.Stored? ==> e.at == NOWHERE && Get(t, NOWHERE).snap == Some(e.snap))
      && (s.polls[p].gen != nowhere.gen ==> Get(t, NOWHERE) == nowhere)
      && (forall k :: k != NOWHERE ==> Get(t, k) == Get(s, k))
  {
  }

  // NOWHERE holds nothing, and whatever can be polled was registered at some time.
  ghost predicate NowhereIsEmpty(s: State) {
    && Get(s, NOWHERE) == EMPTY
    && (forall k :: Get(s, k).ref.Some? ==> 0 < Get(s, k).gen)
    && (forall p :: p in s.polls ==> 0 < s.polls[p].gen)
  }

  lemma {:induction false} WantIsNamed(refs: seq<Ref>)
    requires forall i :: 0 <= i < |refs| ==> refs[i].key != NOWHERE
    ensures NOWHERE !in Want(refs)
  {
    if refs != [] {
      WantIsNamed(refs[..|refs| - 1]);
    }
  }

  lemma {:induction false} WantOfIsNamed(account: Id, refs: seq<Ref>)
    requires forall i :: 0 <= i < |refs| ==> refs[i].key != NOWHERE
    ensures NOWHERE !in WantOf(account, refs)
  {
    if refs != [] {
      WantOfIsNamed(account, refs[..|refs| - 1]);
    }
  }

  lemma RewriteKeepsNowhere(s: State, a: Action, k: Key)
    requires Rewrites(a) && Named(a) && Get(s, NOWHERE) == EMPTY && (Get(s, k).ref.Some? ==> 0 < Get(s, k).gen)
    ensures Rewritten(s, a, NOWHERE) == EMPTY
    ensures Rewritten(s, a, k).ref.Some? ==> 0 < Rewritten(s, a, k).gen
  {
    if a.Reconcile? {
      WantIsNamed(a.refs);
    } else if a.ReconcileAccount? {
      WantOfIsNamed(a.account, a.refs);
    }
  }

  lemma QuietKeepsNowhere(s: State, a: Action, k: Key)
    requires !Rewrites(a) && HeaderFollows(s, a) && NowhereIsEmpty(s)
    ensures Get(Step(s, a).0, NOWHERE) == EMPTY
    ensures Get(Step(s, a).0, k).ref.Some? ==> 0 < Get(Step(s, a).0, k).gen
  {
    hide Rewrite;
    if a.Begin? || a.Trigger? {
      hide Step;
      BeginsAre(s, a);
      BeginMoves(s, a.p, a.key, if a.Begin? then a.force else true, a.now, k);
      BeginElsewhere(s, a.p, a.key, if a.Begin? then a.force else true, a.now);
    }
  }

  lemma BeginElsewhere(s: State, p: PollId, key: Key, force: bool, now: int)
    requires Get(s, NOWHERE) == EMPTY
    ensures Get(BeginStep(s, p, key, force, now).0, NOWHERE) == EMPTY
  {
  }

  lemma NowhereStep(s: State, a: Action)
    requires Named(a) && HeaderFollows(s, a) && NowhereIsEmpty(s)
    ensures NowhereIsEmpty(Step(s, a).0)
  {
    hide Step;
    hide Rewrite;
    hide Named;
    var t := Step(s, a).0;
    forall k
      ensures Get(t, NOWHERE) == EMPTY && (Get(t, k).ref.Some? ==> 0 < Get(t, k).gen)
    {
      if Rewrites(a) {
        StepIsRewrite(s, a);
        RewriteAt(s, a, k);
        RewriteAt(s, a, NOWHERE);
        RewriteKeepsNowhere(s, a, k);
      } else {
        QuietKeepsNowhere(s, a, k);
      }
    }
    forall p | p in t.polls
      ensures 0 < t.polls[p].gen
    {
      PollMoves(s, a, p);
    }
  }

  /** Where headers are set only on providers once registered, polls without identity store
      nothing anywhere. */
  lemma {:induction false} NowhereStaysEmpty(acts: seq<Action>)
    requires Follows(acts)
    ensures NowhereIsEmpty(Run(START, acts))
  {
    hide Step;
    hide Named;
    hide HeaderFollows;
    if acts != [] {
      var n := |acts| - 1;
      FollowsPrefix(acts, n);
      NowhereStaysEmpty(acts[..n]);
      NowhereStep(Run(START, acts[..n]), acts[n]);
    }
  }

  lemma StoresAreNamed(acts: seq<Action>, j: nat)
    requires Follows(acts) && j < |acts| && Trace(START, acts)[j].Stored?
    ensures Trace(START, acts)[j].at != NOWHERE
  {
    hide Step;
    hide Run;
    hide Trace;
    TraceAt(START, acts, j);
    StoreStep(Run(START, acts[..j]), acts[j]);
    FollowsPrefix(acts, j);
    hide Follows;
    NowhereStaysEmpty(acts[..j]);
  }

  lemma FollowsPrefix(acts: seq<Action>, j: nat)
    requires Follows(acts) && j <= |acts|
    ensures Follows(acts[..j])
  {
    hide Run;
    hide Named;
    hide HeaderFollows;
    assert forall i :: 0 <= i < j ==> acts[..j][..i] == acts[..i];
  }

  /** In a run of the server, then, whatever a poll stores is stored for the provider it was
      begun for, whose registration did not change meanwhile. */
  lemma ServerStoresAreFresh(acts: seq<Action>, i: nat, m: nat, j: nat)
    requires Follows(acts) && i <= m < j < |acts|
    requires Trace(START, acts)[i].Began? && Trace(START, acts)[j].Stored?
    requires Trace(START, acts)[i].p == Trace(START, acts)[j].p
    ensures var b, e, c := Trace(START, acts)[i], Trace(START, acts)[j], Trace(START, acts)[m];
      e.at == b.at && e.gen == b.gen && e.snap.fetchedAt == b.now && (c.Changed? ==> e.at !in c.keys)
  {
    hide *;
    StoresAreNamed(acts, j);
    StalePollNeverStores(acts, i, m, j);
  }

  lemma HookFollows(s: State, a: Action)
    requires PollsOk(s) && NowhereIsEmpty(s) && Hydrated(s, a)
    ensures HeaderFollows(s, a)
  {
    if a.SetHeader? {
      var p :| p in s.polls && s.polls[p].ref.key == a.key;
      assert PollOk(s, p);
    }
  }

  /** That is so in every run of the server, whose headers come from the credential hook of
      a running poll. */
  lemma {:induction false} ServerFollows(acts: seq<Action>)
    requires Serves(acts)
    ensures Follows(acts)
  {
    hide Run;
    hide Named;
    hide Hydrated;
    hide HeaderFollows;
    if acts != [] {
      var n := |acts| - 1;
      assert forall i :: 0 <= i < n ==> acts[..n][..i] == acts[..i];
      ServerFollows(acts[..n]);
      NowhereStaysEmpty(acts[..n]);
      RunIsSound(acts[..n]);
      HookFollows(Run(START, acts[..n]), acts[n]);
    }
  }

  /******* Spacing *******/

  // The last attempt under the current registration is remembered.
  ghost predicate Remembered(s: State, past: set<Event>) {
    forall e :: e in past && e.Began? ==>
      && e.gen <= Get(s, e.at).gen
      && (e.gen == Get(s, e.at).gen ==> Get(s, e.at).last.Some? && e.now <= Get(s, e.at).last.value)
  }

  lemma RememberedStep(s: State, a: Action, e: Event)
    requires e.Began? && e.gen <= Get(s, e.at).gen
    requires e.gen == Get(s, e.at).gen ==> Get(s, e.at).last.Some? && e.now <= Get(s, e.at).last.value
    ensures var slot := Get(Step(s, a).0, e.at);
      && e.gen <= slot.gen && (e.gen == slot.gen ==> slot.last.Some? && e.now <= slot.last.value)
  {
    hide Step;
    StepMoves(s, a, e.at);
  }

  lemma BeganStep(s: State, a: Action)
    requires Step(s, a).1.Began?
    ensures var e, slot := Step(s, a).1, Get(s, Step(s, a).1.at);
      && e.gen == slot.gen && Get(Step(s, a).0, e.at).last == Some(e.now) && Get(Step(s, a).0, e.at).gen == e.gen
      && (slot.last.Some? ==> slot.last.value + MIN_INTERVAL <= e.now)
  {
    hide Rewrite;
    if Rewrites(a) {
      hide Step;
      StepIsRewrite(s, a);
      RewriteAt(s, a, NOWHERE);
    } else if a.Begin? || a.Trigger? {
      hide Step;
      BeginsAre(s, a);
      BeginMoves(s, a.p, a.key, if a.Begin? then a.force else true, a.now, a.key);
    }
  }

  lemma {:induction false} AttemptsAreRemembered(acts: seq<Action>)
    ensures Remembered(Run(START, acts), Past(START, acts))
  {
    if acts != [] {
      var n := |acts| - 1;
      var s, a, past := Run(START, acts[..n]), acts[n], Past(START, acts[..n]);
      AttemptsAreRemembered(acts[..n]);
      forall e | e in Past(START, acts) && e.Began?
        ensures var slot := Get(Step(s, a).0, e.at);
          e.gen <= slot.gen && (e.gen == slot.gen ==> slot.last.Some? && e.now <= slot.last.value)
      {
        if e in past {
          RememberedStep(s, a, e);
        } else {
          BeganStep(s, a);
        }
      }
    }
  }

  /** Two polls begun under one registration are at least MIN_INTERVAL apart, forced or
      not, whatever came of the first. */
  lemma PollsAreSpaced(acts: seq<Action>, i: nat, j: nat)
    requires i < j < |acts| && Trace(START, acts)[i].Began? && Trace(START, acts)[j].Began?
    requires Trace(START, acts)[i].at == Trace(START, acts)[j].at
    requires Trace(START, acts)[i].gen == Trace(START, acts)[j].gen
    ensures Trace(START, acts)[i].now + MIN_INTERVAL <= Trace(START, acts)[j].now
  {
    TraceAt(START, acts, j);
    EarlierIsPast(acts, i, j);
    AttemptsAreRemembered(acts[..j]);
    BeganStep(Run(START, acts[..j]), acts[j]);
  }

  /******* Snapshots *******/

  lemma AvailableStep(s: State, a: Action, k: Key)
    requires IsAvailable(Get(s, k).snap) && Get(Step(s, a).0, k).gen == Get(s, k).gen
    ensures IsAvailable(Get(Step(s, a).0, k).snap)
  {
    hide Step;
    StepMoves(s, a, k);
  }

  /** Under one registration an available snapshot is never replaced by an unavailable
      one, nor lost. */
  lemma {:induction false} AvailableStays(acts: seq<Action>, i: nat, j: nat, k: Key)
    requires i <= j <= |acts| && IsAvailable(Get(Run(START, acts[..i]), k).snap)
    requires Get(Run(START, acts[..i]), k).gen == Get(Run(START, acts[..j]), k).gen
    ensures IsAvailable(Get(Run(START, acts[..j]), k).snap)
    decreases j - i
  {
    hide *;
    if i < j {
      NextRun(acts, j - 1);
      GenNext(acts, j - 1, k);
      GenGrowsThrough(acts, i, j - 1, k);
      AvailableStays(acts, i, j - 1, k);
      AvailableStep(Run(START, acts[..j - 1]), acts[j - 1], k);
    }
  }

  /******* The inflight flag *******/

  // A poll runs whose finish takes the flag down.
  ghost predicate Polling(s: State, k: Key) {
    exists p :: p in s.polls && s.polls[p].ref.key == k && s.polls[p].gen == Get(s, k).gen
  }

  ghost predicate FlagsOk(s: State) {
    forall k :: k != NOWHERE && Get(s, k).inflight ==> Polling(s, k)
  }

  // Only its own finish ends a running poll.
  lemma PollRuns(s: State, a: Action, p: PollId)
    requires p in s.polls && p in s.used && !(a.Finish? && a.p == p)
    ensures p in Step(s, a).0.polls && Step(s, a).0.polls[p] == s.polls[p]
  {
    hide Rewrite;
    if Rewrites(a) {
      hide Step;
      StepIsRewrite(s, a);
      RewriteAt(s, a, NOWHERE);
    } else if a.Begin? || a.Trigger? {
      hide Step;
      BeginsAre(s, a);
      BeginMoves(s, a.p, a.key, if a.Begin? then a.force else true, a.now, a.key);
    }
  }

  lemma FlagRises(s: State, a: Action, k: Key)
    requires BeganAt(Step(s, a).1, k) && HomeBegin(s, a)
    ensures Polling(Step(s, a).0, k)
  {
    hide Rewrite;
    if Rewrites(a) {
      hide Step;
      StepIsRewrite(s, a);
      RewriteAt(s, a, NOWHERE);
    } else if a.Begin? || a.Trigger? {
      hide Step;
      BeginsAre(s, a);
      BeginMoves(s, a.p, a.key, if a.Begin? then a.force else true, a.now, a.key);
      assert Step(s, a).0.polls[a.p].ref.key == k;
    }
  }

  lemma FlagStep(s: State, a: Action, k: Key)
    requires FlagsOk(s) && PollsOk(s) && NoOrphan(s, a) && HomeBegin(s, a) && k != NOWHERE && Get(Step(s, a).0, k).inflight
    ensures Polling(Step(s, a).0, k)
  {
    hide Step;
    hide Rewrite;
    var t := Step(s, a).0;
    StepMoves(s, a, k);
    if Get(s, k).inflight {
      var p :| p in s.polls && s.polls[p].ref.key == k && s.polls[p].gen == Get(s, k).gen;
      assert PollOk(s, p);
      FlagGen(s, a, k);
      FinishLowers(s, a, p);
      PollRuns(s, a, p);
    } else {
      FlagRises(s, a, k);
    }
  }

  lemma FlagGen(s: State, a: Action, k: Key)
    requires NoOrphan(s, a) && k != NOWHERE && Get(s, k).inflight && Get(Step(s, a).0, k).inflight
    ensures Get(Step(s, a).0, k).gen == Get(s, k).gen
  {
    hide Step;
    hide Rewrite;
    if Rewrites(a) {
      StepIsRewrite(s, a);
      RewriteAt(s, a, k);
    } else {
      QuietMoves(s, a, k);
    }
  }

  lemma FinishLowers(s: State, a: Action, p: PollId)
    requires p in s.polls && s.polls[p].gen == Get(s, s.polls[p].ref.key).gen
    requires Get(Step(s, a).0, s.polls[p].ref.key).inflight
    ensures !(a.Finish? && a.p == p)
  {
    hide Rewrite;
  }

  // A changed registration leaves the flag of its provider to nobody.
  lemma OrphanedFlag(s: State, a: Action, k: Key)
    requires PollsOk(s) && Rewrites(a) && k != NOWHERE && Get(s, k).inflight
    requires Rewritten(s, a, k).inflight && Rewritten(s, a, k).gen != Get(s, k).gen
    ensures var t := Step(s, a).0; Get(t, k).inflight && !Polling(t, k)
  {
    hide Step;
    hide Rewrite;
    StepIsRewrite(s, a);
    RewriteAt(s, a, k);
    RewrittenMoves(s, a, k);
    forall p | p in s.polls && s.polls[p].ref.key == k
      ensures s.polls[p].gen < Rewritten(s, a, k).gen
    {
      assert PollOk(s, p);
    }
  }

  // A poll without identity raises a flag its finish does not reach.
  lemma StrayFlag(s: State, a: Action)
    requires SlotsOk(s) && PollsOk(s) && !HomeBegin(s, a)
    ensures var (t, e) := Step(s, a); e.at != NOWHERE && Get(t, e.at).inflight && !Polling(t, e.at)
  {
    hide Rewrite;
    if Rewrites(a) {
      hide Step;
      StepIsRewrite(s, a);
      RewriteAt(s, a, NOWHERE);
    } else if a.Begin? || a.Trigger? {
      hide Step;
      assert SlotOk(s, a.key);
      BeginsAre(s, a);
      BeginMoves(s, a.p, a.key, if a.Begin? then a.force else true, a.now, a.key);
      BeginRaises(s, a.p, a.key, if a.Begin? then a.force else true, a.now);
      forall p | p in s.polls && s.polls[p].ref.key == a.key
        ensures s.polls[p].gen != Get(s, a.key).gen
      {
        assert PollOk(s, p);
      }
    }
  }

  lemma BeginRaises(s: State, p: PollId, key: Key, force: bool, now: int)
    ensures var (t, e) := BeginStep(s, p, key, force, now); e != Quiet ==> Get(t, key).inflight
  {
  }

  /** A call keeps every set inflight flag with a running poll that will clear it, if and only
      if it pushes no changed registration through Register or Reconcile during a poll and
      begins no poll without identity. ReconcileAccount and Unregister always do. */
  lemma FlagsStayIff(s: State, a: Action)
    requires SlotsOk(s) && PollsOk(s) && FlagsOk(s)
    ensures FlagsOk(Step(s, a).0) <==> NoOrphan(s, a) && HomeBegin(s, a)
  {
    hide Step;
    hide HomeBegin;
    hide Polling;
    hide Rewritten;
    if !HomeBegin(s, a) {
      StrayFlag(s, a);
    } else if !NoOrphan(s, a) {
      var k :| k != NOWHERE && Get(s, k).inflight && Rewritten(s, a, k).inflight && Rewritten(s, a, k).gen != Get(s, k).gen;
      OrphanedFlag(s, a, k);
    } else {
      forall k | k != NOWHERE && Get(Step(s, a).0, k).inflight
        ensures Polling(Step(s, a).0, k)
      {
        FlagStep(s, a, k);
      }
    }
  }

  /** Over runs of such calls, a set flag has its poll. */
  lemma {:induction false} FlagHasItsPoll(acts: seq<Action>)
    requires Orphanless(acts)
    ensures FlagsOk(Run(START, acts))
  {
    hide Step;
    hide NoOrphan;
    hide HomeBegin;
    hide Polling;
    if acts != [] {
      var n := |acts| - 1;
      OrphanlessPrefix(acts, n);
      FlagHasItsPoll(acts[..n]);
      hide FlagsOk;
      RunIsSound(acts[..n]);
      FlagsStayIff(Run(START, acts[..n]), acts[n]);
    }
  }

  lemma OrphanlessPrefix(acts: seq<Action>, j: nat)
    requires Orphanless(acts) && j <= |acts|
    ensures Orphanless(acts[..j])
  {
    hide Run;
    hide NoOrphan;
    hide HomeBegin;
    assert forall i :: 0 <= i < j ==> acts[..j][..i] == acts[..i];
  }

  // The flag is up, and no poll that could take it down is running.
  ghost predicate Stuck(s: State, k: Key) {
    && k != NOWHERE && Get(s, k).inflight && Get(s, k).ref.Some?
    && forall p :: p in s.polls && s.polls[p].ref.key == k ==> s.polls[p].gen < Get(s, k).gen
  }

  lemma ChangeSticks(s: State, a: Action, k: Key)
    requires PollsOk(s) && (a.Register? || a.Reconcile?) && k != NOWHERE && Get(s, k).inflight
    requires Rewritten(s, a, k).inflight && Rewritten(s, a, k).ref.Some? && Rewritten(s, a, k).gen != Get(s, k).gen
    ensures Stuck(Step(s, a).0, k)
  {
    hide Step;
    hide Rewrite;
    StepIsRewrite(s, a);
    RewriteAt(s, a, k);
    RewrittenMoves(s, a, k);
    forall p | p in s.polls && s.polls[p].ref.key == k
      ensures s.polls[p].gen < Rewritten(s, a, k).gen
    {
      assert PollOk(s, p);
    }
  }

  /** A changed ref registered during its poll orphans the flag, */
  lemma RegisterOrphans(s: State, ref: Ref)
    requires PollsOk(s) && ref.key != NOWHERE && Get(s, ref.key).inflight && ref.supported && Get(s, ref.key).ref != Some(ref)
    ensures Stuck(Step(s, Register(ref)).0, ref.key)
  {
    ChangeSticks(s, Register(ref), ref.key);
  }

  /** and so does a changed ref in a reconciled list. */
  lemma ReconcileOrphans(s: State, refs: seq<Ref>, k: Key)
    requires PollsOk(s) && k != NOWHERE && Get(s, k).inflight && k in Want(refs) && Get(s, k).ref != Some(Want(refs)[k])
    ensures Stuck(Step(s, Reconcile(refs)).0, k)
  {
    ChangeSticks(s, Reconcile(refs), k);
  }

  /** An orphaned flag refuses every poll from then on, forced or triggered; only removing the
      provider, or ReconcileAccount, takes it down. */
  lemma OrphanStaysStuck(s: State, a: Action, k: Key)
    requires SlotsOk(s) && Stuck(s, k)
    ensures (a.Begin? || a.Trigger?) && a.key == k ==> Step(s, a) == (s, Quiet)
    ensures Stuck(Step(s, a).0, k) || (Rewrites(a) && !Get(Step(s, a).0, k).inflight && !a.Register?)
  {
    hide Rewrite;
    if Rewrites(a) {
      hide Step;
      StepIsRewrite(s, a);
      RewriteAt(s, a, k);
      RewrittenMoves(s, a, k);
    } else if a.Begin? || a.Trigger? {
      assert SlotOk(s, a.key);
      StuckRefuses(s, a.p, k, if a.Begin? then a.force else true, a.now);
      hide Step;
      BeginsAre(s, a);
      BeginMoves(s, a.p, a.key, if a.Begin? then a.force else true, a.now, k);
    }
  }

  lemma StuckRefuses(s: State, p: PollId, k: Key, force: bool, now: int)
    requires Get(s, k).inflight
    ensures BeginStep(s, p, k, force, now) == (s, Quiet)
  {
  }

  /******* The gate *******/

  lemma GateStep(s: State, a: Action)
    requires |s.gated| <= GATE
    ensures |Step(s, a).0.gated| <= GATE
  {
    hide Rewrite;
    hide BeginStep;
    hide Rewritten;
    if Rewrites(a) {
      hide Step;
      StepIsRewrite(s, a);
      RewriteAt(s, a, NOWHERE);
    } else if a.Begin? || a.Trigger? {
      BeginKeepsGate(s, a.p, a.key, if a.Begin? then a.force else true, a.now);
    } else {
      assert a.Finish? ==> s.gated == (s.gated - {a.p}) + (if a.p in s.gated then {a.p} else {});
    }
  }

  lemma BeginKeepsGate(s: State, p: PollId, k: Key, force: bool, now: int)
    ensures BeginStep(s, p, k, force, now).0.gated == s.gated
  {
  }

  /** TriggerIfDue never has more than GATE polls in flight. */
  lemma {:induction false} GateHolds(acts: seq<Action>)
    ensures |Run(START, acts).gated| <= GATE
  {
    hide Step;
    if acts != [] {
      GateHolds(acts[..|acts| - 1]);
      GateStep(Run(START, acts[..|acts| - 1]), acts[|acts| - 1]);
    }
  }

  /******* A header without a home *******/

  // Setting a header where nothing is registered leaves a ref without identity.
  lemma HeaderComesBack(s: State, k: Key, header: nat)
    requires SlotsOk(s) && k != NOWHERE && Get(s, k).ref.None?
    ensures var slot := Get(Step(s, SetHeader(k, header)).0, k);
      slot.ref.Some? && slot.ref.value.key == NOWHERE && !slot.inflight && slot.gen == Get(s, k).gen
  {
    assert SlotOk(s, k);
  }

  /** A poll begun on a ref without identity leaves its provider's flag up, with no poll to
      take it down. */
  lemma StrayPollSticks(s: State, p: PollId, k: Key, force: bool, now: int)
    requires SlotsOk(s) && PollsOk(s) && k != NOWHERE && p !in s.used
    requires MayBegin(Get(s, k), force, now) && Get(s, k).ref.value.key == NOWHERE
    ensures Stuck(Step(s, Begin(p, k, force, now)).0, k)
  {
    var t := Step(s, Begin(p, k, force, now)).0;
    forall q | q in t.polls && t.polls[q].ref.key == k
      ensures t.polls[q].gen < Get(t, k).gen
    {
      assert q in s.polls && PollOk(s, q);
    }
  }

  // A provider registered afresh, then polled once its account was reconciled.
  lemma FirstPoll(ref: Ref, now: int)
    requires ref.supported
    ensures var k := ref.key; var s := Step(START, ReconcileAccount(k.account, [ref])).0; var t := Step(s, Trigger(0, k, now)).0;
      Get(t, k).ref == Some(ref) && Get(t, k).gen == 1 && t.polls == map[0 := Poll(k, ref, 1, now)] && t.used == {0} && t.gated == {0}
  {
    assert [ref][..0] == [];
    var s := Step(START, ReconcileAccount(ref.key.account, [ref])).0;
    assert Get(s, ref.key) == Slot(Some(ref), 1, false, None, None, false, None);
  }

  // The same provider removed, and its header set by the poll still running.
  lemma Removed(s: State, ref: Ref, header: nat)
    requires Get(s, ref.key).ref == Some(ref)
    ensures var k := ref.key; var t := Step(s, ReconcileAccount(k.account, [])).0; var u := Step(t, SetHeader(k, header)).0;
      && Get(u, k) == Slot(Some(ZERO_REF.(header := header)), Get(s, k).gen + 1, false, None, None, false, None)
      && t.polls == u.polls == s.polls && t.used == u.used == s.used && t.gated == u.gated == s.gated
  {
    var t := Step(s, ReconcileAccount(ref.key.account, [])).0;
    RewriteAt(s, ReconcileAccount(ref.key.account, []), ref.key);
  }

  lemma SecondPoll(s: State, k: Key, later: int)
    requires Get(s, k).ref.Some? && Get(s, k).last.None? && !Get(s, k).inflight && |s.gated| < GATE && 1 !in s.used
    ensures var t := Step(s, Trigger(1, k, later)).0;
      Get(t, k) == Begun(Get(s, k), later) && t.polls == s.polls[1 := Poll(k, Get(s, k).ref.value, Get(s, k).gen, later)]
  {
  }

  function RemovalRun(ref: Ref, header: nat, now: int, later: int): seq<Action> {
    [ReconcileAccount(ref.key.account, [ref]), Trigger(0, ref.key, now), ReconcileAccount(ref.key.account, []),
     SetHeader(ref.key, header), Trigger(1, ref.key, later)]
  }

  lemma FiveSteps(acts: seq<Action>)
    requires |acts| == 5
    ensures var two := Step(Step(START, acts[0]).0, acts[1]).0; var three := Step(two, acts[2]).0;
      Run(START, acts[..3]) == three && Run(START, acts) == Step(Step(three, acts[3]).0, acts[4]).0
  {
    hide Step;
    assert acts[..0] == [] && acts[..5] == acts;
    NextRun(acts, 0);
    NextRun(acts, 1);
    NextRun(acts, 2);
    NextRun(acts, 3);
    NextRun(acts, 4);
  }

  lemma RemovalRunGoes(ref: Ref, header: nat, now: int, later: int)
    requires ref.supported && ref.key != NOWHERE
    ensures var acts := RemovalRun(ref, header, now, later); var three := Run(START, acts[..3]);
      0 in three.polls && three.polls[0].ref.key == ref.key && Stuck(Run(START, acts), ref.key)
  {
    var k, acts := ref.key, RemovalRun(ref, header, now, later);
    FirstPoll(ref, now);
    var two := Step(Step(START, acts[0]).0, acts[1]).0;
    Removed(two, ref, header);
    var three := Step(two, acts[2]).0;
    SecondPoll(Step(three, acts[3]).0, k, later);
    FiveSteps(acts);
    hide Step;
    hide Run;
    hide Rewrite;
    hide Rewritten;
  }

  /** The server reaches it: a provider removed during its poll gets its header from the
      poll's hook, and a request that listed it before triggers a second poll. */
  lemma RemovedDuringItsPoll(ref: Ref, header: nat, now: int, later: int)
    requires ref.supported && ref.key != NOWHERE
    ensures Serves(RemovalRun(ref, header, now, later)) && Stuck(Run(START, RemovalRun(ref, header, now, later)), ref.key)
  {
    hide Stuck;
    hide Run;
    RemovalRunGoes(ref, header, now, later);
  }

  /** The package alone also lets a header register a key never seen, whose poll shares the
      generation of NOWHERE and does store there. */
  lemma StrayHeader(k: Key, header: nat)
    requires k != NOWHERE
    ensures var acts := [SetHeader(k, header), Begin(0, k, true, 0), Finish(0, false, 0)];
      var s := Run(START, acts);
      Get(s, NOWHERE).snap.Some? && Get(s, NOWHERE).ref.None? && Get(s, k).inflight && s.polls == map[]
  {
    var acts := [SetHeader(k, header), Begin(0, k, true, 0), Finish(0, false, 0)];
    assert acts[..2] == [SetHeader(k, header), Begin(0, k, true, 0)];
    assert acts[..2][..1] == [SetHeader(k, header)];
    assert acts[..2][..1][..0] == [];
    var s1 := Step(START, acts[0]).0;
    assert Run(START, [SetHeader(k, header)]) == s1;
    var s2 := Step(s1, acts[1]).0;
    assert Run(START, acts[..2]) == s2;
    assert s2.polls[0] == Poll(k, ZERO_REF.(header := header), 0, 0);
    var s3 := Step(s2, acts[2]).0;
    assert s3.polls == map[];
  }
}
