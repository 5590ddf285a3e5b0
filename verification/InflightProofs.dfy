/**
 Emitted deltas add up to the tracked counts; the admission cap holds; composite keys
 keep tenants apart.
 */
module InflightProofs {
  import opened Inflight

  /******* Sums of deltas *******/

  lemma {:induction false} Splits(xs: seq<Delta>, ys: seq<Delta>, m: Meter)
    ensures Total(xs + ys, m) == Total(xs, m) + Total(ys, m)
    ensures Falls(xs + ys, m) == Falls(xs, m) + Falls(ys, m)
  {
    hide Reading;
    if ys == [] {
      assert xs + ys == xs;
    } else {
      assert (xs + ys)[..|xs + ys| - 1] == xs + ys[..|ys| - 1];
      Splits(xs, ys[..|ys| - 1], m);
    }
  }

  // Emitting moves one delta from pending to emitted.
  lemma EmitMoves(s: State, i: nat, m: Meter)
    requires i < |s.pending|
    ensures var r := Step(s, Emit(i));
      && Total(r.pending, m) + Total(r.emitted, m) == Total(s.pending, m) + Total(s.emitted, m)
      && Falls(r.pending, m) + Falls(r.emitted, m) == Falls(s.pending, m) + Falls(s.emitted, m)
      && Rises(s.emitted, m) <= Rises(r.emitted, m)
  {
    hide Reading;
    var d, before, after := [s.pending[i]], s.pending[..i], s.pending[i + 1..];
    assert s.pending == (before + d) + after;
    Splits(before + d, after, m);
    Splits(before, d, m);
    Splits(before, after, m);
    Splits(s.emitted, d, m);
    assert d[..0] == [];
  }

  predicate Balanced(s: State, m: Meter) {
    Total(s.pending, m) + Total(s.emitted, m) == Count(s, m) + Echo(s, m)
  }

  lemma Queued(s: State, d: Delta, m: Meter)
    ensures var r := Queue(s, d);
      && Total(r.pending, m) == Total(s.pending, m) + Reading(d, m)
      && Falls(r.pending, m) == Falls(s.pending, m) + (if Reading(d, m) < 0 then -Reading(d, m) else 0)
      && r.clients == s.clients && r.targets == s.targets && r.emitted == s.emitted
  {
    hide Reading;
    assert (s.pending + [d])[..|s.pending|] == s.pending;
  }

  // A call that queues a delta changes the counts by what the delta says.
  lemma Tells(s: State, t: State, d: Delta, m: Meter)
    requires Balanced(s, m) && t == Queue(s.(clients := t.clients, targets := t.targets), d)
    requires Count(t, m) + Echo(t, m) == Count(s, m) + Echo(s, m) + Reading(d, m)
    ensures Balanced(t, m)
  {
    hide Reading;
    hide Count;
    hide Echo;
    Queued(s.(clients := t.clients, targets := t.targets), d, m);
    CountsOf(t, s.(clients := t.clients, targets := t.targets), m);
  }

  lemma CountsOf(s: State, t: State, m: Meter)
    requires s.clients == t.clients && s.targets == t.targets
    ensures Count(s, m) == Count(t, m) && Echo(s, m) == Echo(t, m)
  {
  }

  lemma StartBalances(s: State, u: Ticket, model: Id, m: Meter)
    requires Balanced(s, m)
    ensures Balanced(StartStep(s, u, model), m)
  {
    hide Total;
    Tells(s, StartStep(s, u, model), ClientDelta(u, 1, 0, model, ""), m);
  }

  lemma NoteBalances(s: State, u: Ticket, model: Id, m: Meter)
    requires Balanced(s, m)
    ensures Balanced(Step(s, Streaming(u)), m) && Balanced(Step(s, Resolved(u, model)), m)
  {
    hide Total;
    Tells(s, Step(s, Streaming(u)), ClientDelta(u, 0, 1, "", ""), m);
    if model != "" {
      Tells(s, Step(s, Resolved(u, model)), ClientDelta(u, 0, 0, "", model), m);
    }
  }

  lemma EndBalances(s: State, u: Ticket, streamed: bool, m: Meter)
    requires Balanced(s, m)
    ensures Balanced(Step(s, ClientEnd(u, streamed)), m)
  {
    hide Total;
    var live := Get(s.clients, u);
    if !Idle(live) {
      Tells(s, Step(s, ClientEnd(u, streamed)), EndDelta(live, u, streamed), m);
    }
  }

  lemma TargetBalances(s: State, a: Action, m: Meter)
    requires Balanced(s, m) && (a.TargetStart? || a.TargetEnd? || a.TargetSkipped?)
    ensures Balanced(Step(s, a), m)
  {
    hide Total;
    if Step(s, a) != s {
      match a {
        case TargetStart(leg) => Tells(s, Step(s, a), LegDelta(leg, 1), m);
        case TargetEnd(leg) => Tells(s, Step(s, a), LegDelta(leg, -1), m);
        case TargetSkipped(leg, client, failureClass) =>
          Tells(s, Step(s, a), Delta(leg.account, leg.route, client, leg.target, 0, 0, "", "", "skipped", failureClass), m);
      }
    }
  }

  // A call queues at most one delta; what it says is what changed.
  lemma CallBalances(s: State, a: Action, m: Meter)
    requires Balanced(s, m) && !a.Emit?
    ensures Balanced(Step(s, a), m)
  {
    hide Balanced;
    hide StartStep;
    match a {
      case ClientStart(u, model) => StartBalances(s, u, model, m);
      case TryAcquire(u, _, model) => StartBalances(s, u, model, m);
      case Streaming(u) => NoteBalances(s, u, "", m);
      case Resolved(u, model) => NoteBalances(s, u, model, m);
      case ClientEnd(u, streamed) => EndBalances(s, u, streamed, m);
      case TargetStart(_) => TargetBalances(s, a, m);
      case TargetEnd(_) => TargetBalances(s, a, m);
      case TargetSkipped(_, _, _) => TargetBalances(s, a, m);
    }
  }

  lemma EmitKeepsCounts(s: State, i: nat, m: Meter)
    ensures Count(Step(s, Emit(i)), m) == Count(s, m) && Echo(Step(s, Emit(i)), m) == Echo(s, m)
  {
  }

  lemma {:induction false} AlwaysBalanced(acts: seq<Action>, m: Meter)
    ensures Balanced(Run(START, acts), m)
  {
    if acts != [] {
      var n := |acts| - 1;
      var s := Run(START, acts[..n]);
      AlwaysBalanced(acts[..n], m);
      hide Step;
      hide Count;
      hide Echo;
      if acts[n].Emit? {
        EmitKeepsCounts(s, acts[n].i, m);
        EmitIsMove(s, acts[n].i, m);
      } else {
        CallBalances(s, acts[n], m);
      }
    }
  }

  lemma EmitIsMove(s: State, i: nat, m: Meter)
    ensures var r := Step(s, Emit(i));
      && Total(r.pending, m) + Total(r.emitted, m) == Total(s.pending, m) + Total(s.emitted, m)
      && Falls(r.pending, m) + Falls(r.emitted, m) == Falls(s.pending, m) + Falls(s.emitted, m)
      && Rises(s.emitted, m) <= Rises(r.emitted, m)
  {
    if i < |s.pending| {
      EmitMoves(s, i, m);
    }
  }

  /** For every interleaving of calls and emissions, what was emitted plus what is about to
      be equals the tracked count, plus the one count an empty id confuses it with. So a
      consumer's own sum is not negative exactly while the deltas outstanding come to no more
      than that, and is that with none outstanding. */
  lemma DeltasAddUp(acts: seq<Action>, m: Meter)
    ensures var s := Run(START, acts); var count := Count(s, m) + Echo(s, m);
      && Total(s.emitted, m) + Total(s.pending, m) == count
      && (0 <= Total(s.emitted, m) <==> Total(s.pending, m) <= count)
      && (s.pending == [] ==> Total(s.emitted, m) == count)
  {
    AlwaysBalanced(acts, m);
  }

  // The ids tell the meter's deltas from any other's.
  predicate Told(m: Meter) {
    match m
    case ActiveOf(t) => t.client != ""
    case StreamingOf(_) => true
    case LegOf(leg) => leg.target != ""
  }

  /** An emitted sum is the tracked count, once nothing is outstanding, if and only if the ids
      tell the meter apart or the count it is confused with is zero. */
  lemma SumIsCountIff(acts: seq<Action>, m: Meter)
    requires Run(START, acts).pending == []
    ensures var s := Run(START, acts);
      && (Total(s.emitted, m) == Count(s, m) <==> Echo(s, m) == 0)
      && (Told(m) ==> Echo(s, m) == 0)
  {
    DeltasAddUp(acts, m);
  }

  /** An empty client id makes a leg's delta read as a ticket's. */
  lemma EmptyIdsAreAmbiguous()
    ensures var t := Ticket("a", "", "r"); var s := Run(START, [TargetStart(Leg("a", "r", "")), Emit(0)]);
      s.pending == [] && Get(s.clients, t).active == 0 && Total(s.emitted, ActiveOf(t)) == 1
  {
    var leg := Leg("a", "r", "");
    var acts := [TargetStart(leg), Emit(0)];
    assert acts[..1] == [TargetStart(leg)] && acts[..1][..0] == [];
    var s1 := Step(START, TargetStart(leg));
    assert s1.pending == [LegDelta(leg, 1)];
    assert Run(START, acts[..1]) == s1;
    var s2 := Step(s1, Emit(0));
    assert s2.emitted == [LegDelta(leg, 1)] && s2.emitted[..0] == [];
  }

  /** Emitted before its start, an end makes the sum negative. */
  lemma EndCanOvertake(t: Ticket)
    ensures var s := Run(START, [ClientStart(t, ""), ClientEnd(t, false), Emit(1)]);
      Total(s.emitted, ActiveOf(t)) == -1 && Count(s, ActiveOf(t)) == 0
  {
    var acts := [ClientStart(t, ""), ClientEnd(t, false), Emit(1)];
    var s1 := Step(START, acts[0]);
    assert acts[..2] == [acts[0], acts[1]] && acts[..2][..1] == [acts[0]] && acts[..2][..1][..0] == [];
    assert Run(START, [acts[0]]) == s1;
    var s2 := Step(s1, acts[1]);
    assert Run(START, acts[..2]) == s2;
    var end := EndDelta(Get(s1.clients, t), t, false);
    assert s2.pending == [ClientDelta(t, 1, 0, "", ""), end] by {
      hide Total;
      hide Run;
      hide Count;
    }
    var s3 := Step(s2, Emit(1));
    assert s3.emitted == [end] && s3.emitted[..0] == [];
    assert Run(START, acts) == s3;
  }

  /******* Ends after their starts *******/

  // Only an ending call queues a downward step, and one.
  lemma FallsByEnds(s: State, a: Action, m: Meter)
    requires !a.Emit?
    ensures var r := Step(s, a);
      r.emitted == s.emitted && Falls(r.pending, m) <= Falls(s.pending, m) + if Ends(a, m) then 1 else 0
  {
    hide Total;
    hide Falls;
    var r := Step(s, a);
    if r != s {
      var d := r.pending[|r.pending| - 1];
      assert r.pending == s.pending + [d];
      Queued(s, d, m);
      assert Reading(d, m) < 0 ==> Ends(a, m) && Reading(d, m) == -1;
    }
  }

  lemma {:induction false} EndsFollowStarts(acts: seq<Action>, m: Meter)
    requires Orderly(acts, m)
    ensures var s := Run(START, acts);
      Falls(s.emitted, m) + Falls(s.pending, m) <= EndsIn(acts, m) <= Rises(s.emitted, m)
  {
    hide *;
    if acts == [] {
      NothingYet(m);
    } else {
      var n := |acts| - 1;
      OrderlyParts(acts, m);
      EndsFollowStarts(acts[..n], m);
      EndsStep(Run(START, acts[..n]), acts[n], m);
    }
  }

  lemma NothingYet(m: Meter)
    ensures var s := Run(START, []); Falls(s.emitted, m) + Falls(s.pending, m) == EndsIn([], m) == Rises(s.emitted, m) == 0
  {
  }

  lemma OrderlyParts(acts: seq<Action>, m: Meter)
    requires Orderly(acts, m) && acts != []
    ensures var n := |acts| - 1; var s := Run(START, acts[..n]);
      && Run(START, acts) == Step(s, acts[n]) && Orderly(acts[..n], m)
      && EndsIn(acts, m) == EndsIn(acts[..n], m) + (if Ends(acts[n], m) then 1 else 0)
      && (Ends(acts[n], m) ==> EndsIn(acts[..n], m) < Rises(s.emitted, m))
  {
    hide Step;
    hide Rises;
    hide Ends;
    var n := |acts| - 1;
    assert forall i :: 0 <= i < n ==> acts[..n][..i] == acts[..i];
  }

  lemma EndsStep(s: State, a: Action, m: Meter)
    ensures var r := Step(s, a);
      && Falls(r.emitted, m) + Falls(r.pending, m) <= Falls(s.emitted, m) + Falls(s.pending, m) + (if Ends(a, m) then 1 else 0)
      && Rises(s.emitted, m) <= Rises(r.emitted, m)
  {
    hide *;
    if a.Emit? {
      EmitIsMove(s, a.i, m);
    } else {
      FallsByEnds(s, a, m);
    }
  }

  // The k-th action emits a start.
  ghost predicate RisesAt(acts: seq<Action>, k: nat, m: Meter)
    requires k < |acts|
  {
    acts[k].Emit? && Rises(Run(START, acts[..k]).emitted, m) < Rises(Run(START, acts[..k + 1]).emitted, m)
  }

  // Each request that ends emitted its start before: starts[i] is where the request that
  // ends at i emitted its own.
  ghost predicate Requests(acts: seq<Action>, m: Meter, starts: map<nat, nat>) {
    && (forall i: nat :: i < |acts| && Ends(acts[i], m) ==> i in starts && starts[i] < i && RisesAt(acts, starts[i], m))
    && (forall i, j :: i in starts && j in starts && starts[i] == starts[j] ==> i == j)
  }

  lemma NextRun(acts: seq<Action>, n: nat)
    requires n < |acts|
    ensures Run(START, acts[..n + 1]) == Step(Run(START, acts[..n]), acts[n])
  {
    assert acts[..n + 1][..n] == acts[..n];
  }

  // There are no more emitted starts than the emitted sum of them.
  lemma {:induction false} RisesCount(acts: seq<Action>, n: nat, m: Meter, marks: set<nat>)
    requires n <= |acts| && forall k :: k in marks ==> k < n && RisesAt(acts, k, m)
    ensures |marks| <= Rises(Run(START, acts[..n]).emitted, m)
  {
    hide Step;
    hide Rises;
    if n == 0 {
      hide *;
      assert marks == {};
      NoRises(acts, m);
    } else {
      NextRun(acts, n - 1);
      EndsStep(Run(START, acts[..n - 1]), acts[n - 1], m);
      RisesCount(acts, n - 1, m, marks - {n - 1});
      assert marks == (marks - {n - 1}) + if n - 1 in marks then {n - 1} else {};
    }
  }

  lemma NoRises(acts: seq<Action>, m: Meter)
    ensures Rises(Run(START, acts[..0]).emitted, m) == 0
  {
    assert acts[..0] == [];
  }

  // The starts of the requests that end before n.
  lemma {:induction false} EndedStarts(acts: seq<Action>, n: nat, m: Meter, starts: map<nat, nat>) returns (marks: set<nat>)
    requires n <= |acts| && Requests(acts, m, starts)
    ensures |marks| == EndsIn(acts[..n], m)
    ensures forall k :: k in marks ==> exists i :: i in starts && i < n && Ends(acts[i], m) && starts[i] == k
  {
    hide Ends;
    hide RisesAt;
    if n == 0 {
      marks := {};
    } else {
      marks := EndedStarts(acts, n - 1, m, starts);
      assert acts[..n][..n - 1] == acts[..n - 1];
      if Ends(acts[n - 1], m) {
        assert starts[n - 1] !in marks;
        marks := marks + {starts[n - 1]};
      }
    }
  }

  lemma RequestsAreOrderlyAt(acts: seq<Action>, i: nat, m: Meter, starts: map<nat, nat>)
    requires Requests(acts, m, starts) && i < |acts| && Ends(acts[i], m)
    ensures EndsIn(acts[..i], m) < Rises(Run(START, acts[..i]).emitted, m)
  {
    hide Ends;
    hide RisesAt;
    hide Rises;
    hide Run;
    var marks := EndedStarts(acts, i + 1, m, starts);
    assert acts[..i + 1][..i] == acts[..i];
    RisesCount(acts, i, m, marks);
  }

  lemma RequestsAreOrderly(acts: seq<Action>, m: Meter, starts: map<nat, nat>)
    requires Requests(acts, m, starts)
    ensures Orderly(acts, m)
  {
    hide Ends;
    hide Rises;
    hide Requests;
    forall i | 0 <= i < |acts| && Ends(acts[i], m)
      ensures EndsIn(acts[..i], m) < Rises(Run(START, acts[..i]).emitted, m)
    {
      RequestsAreOrderlyAt(acts, i, m, starts);
    }
  }

  /** Where every request emits its start before it calls its end, as the server's do, a
      consumer's sum is never negative, whatever is outstanding and in whatever order it is
      emitted. */
  lemma OrderlySumsStay(acts: seq<Action>, m: Meter, starts: map<nat, nat>)
    requires Requests(acts, m, starts)
    ensures 0 <= Total(Run(START, acts).emitted, m)
  {
    RequestsAreOrderly(acts, m, starts);
    EndsFollowStarts(acts, m);
  }

  /******* Admission *******/

  // Every start of this account asks with the same limit.
  predicate OnlyAcquires(acts: seq<Action>, account: Id, limit: int) {
    forall a :: a in acts ==>
      && !(a.ClientStart? && a.ticket.account == account)
      && (a.TryAcquire? && a.ticket.account == account ==> a.limit == limit)
  }

  lemma ActiveChanges(clients: map<Ticket, Live>, t: Ticket, live: Live, account: Id)
    ensures AccountActive(clients[t := live], account) ==
      AccountActive(clients, account) + if t.account == account then live.active - Get(clients, t).active else 0
  {
    var m := ActiveIn(clients, account);
    if t.account == account {
      assert ActiveIn(clients[t := live], account) == m[t := live.active];
      SumPut(m, t, live.active);
    } else {
      assert ActiveIn(clients[t := live], account) == m;
    }
  }

  lemma ActiveForgets(clients: map<Ticket, Live>, t: Ticket, account: Id)
    ensures AccountActive(clients - {t}, account) <= AccountActive(clients, account)
  {
    var m := ActiveIn(clients, account);
    if t in m {
      SumOut(m, t);
      assert ActiveIn(clients - {t}, account) == m - {t};
    } else {
      assert ActiveIn(clients - {t}, account) == m;
    }
  }

  lemma StartCounts(s: State, t: Ticket, model: Id, account: Id)
    ensures AccountActive(StartStep(s, t, model).clients, account) ==
      AccountActive(s.clients, account) + if t.account == account then 1 else 0
  {
    var live := Get(s.clients, t);
    ActiveChanges(s.clients, t, live.(active := live.active + 1, requested := model, client := t.client, route := t.route), account);
  }

  lemma EndCounts(s: State, t: Ticket, streamed: bool, account: Id)
    ensures AccountActive(Step(s, ClientEnd(t, streamed)).clients, account) <= AccountActive(s.clients, account)
  {
    hide AccountActive;
    ActiveChanges(s.clients, t, Less(Get(s.clients, t), streamed), account);
    ActiveForgets(s.clients, t, account);
  }

  lemma NoteCounts(s: State, t: Ticket, model: Id, account: Id)
    ensures AccountActive(Step(s, Streaming(t)).clients, account) == AccountActive(s.clients, account)
    ensures AccountActive(Step(s, Resolved(t, model)).clients, account) == AccountActive(s.clients, account)
  {
    hide AccountActive;
    var live := Get(s.clients, t);
    ActiveChanges(s.clients, t, live.(streaming := live.streaming + 1, client := t.client, route := t.route), account);
    ActiveChanges(s.clients, t, live.(resolved := model, client := t.client, route := t.route), account);
  }

  lemma CapStep(s: State, a: Action, account: Id, limit: nat)
    requires AccountActive(s.clients, account) <= limit
    requires !(a.ClientStart? && a.ticket.account == account)
    requires a.TryAcquire? && a.ticket.account == account ==> a.limit == limit
    ensures AccountActive(Step(s, a).clients, account) <= limit
  {
    hide AccountActive;
    hide StartStep;
    match a {
      case ClientEnd(t, streamed) => EndCounts(s, t, streamed, account);
      case Streaming(t) => NoteCounts(s, t, "", account);
      case Resolved(t, model) => NoteCounts(s, t, model, account);
      case ClientStart(t, model) => StartCounts(s, t, model, account);
      case TryAcquire(t, _, model) => StartCounts(s, t, model, account);
      case _ =>
    }
  }

  /** While an account starts requests only through tryAcquire with one limit, its live
      requests never exceed that limit, whatever else happens. */
  lemma {:induction false} CapHolds(acts: seq<Action>, account: Id, limit: nat)
    requires OnlyAcquires(acts, account, limit)
    ensures AccountActive(Run(START, acts).clients, account) <= limit
  {
    if acts == [] {
      assert ActiveIn(map[], account) == map[];
    } else {
      var n := |acts| - 1;
      CapHolds(acts[..n], account, limit);
      assert acts[n] in acts;
      CapStep(Run(START, acts[..n]), acts[n], account, limit);
    }
  }

  /** A refusal happens exactly at the limit, and an admission counts exactly one. */
  lemma AcquireCounts(s: State, t: Ticket, limit: int, model: Id)
    ensures var r := Step(s, TryAcquire(t, limit, model));
      if 0 <= limit <= AccountActive(s.clients, t.account) then r == s
      else AccountActive(r.clients, t.account) == AccountActive(s.clients, t.account) + 1
  {
    StartCounts(s, t, model, t.account);
  }

  /******* Labels *******/

  // Each entry carries the identities of its key.
  ghost predicate Labelled(clients: map<Ticket, Live>) {
    forall t :: t in clients ==> clients[t].client == t.client && clients[t].route == t.route
  }

  lemma LabelsStay(s: State, a: Action)
    requires Labelled(s.clients)
    ensures Labelled(Step(s, a).clients)
  {
    var after := Step(s, a).clients;
    forall t | t in after
      ensures after[t].client == t.client && after[t].route == t.route
    {
      assert t in s.clients ==> s.clients[t].client == t.client;
    }
  }

  lemma {:induction false} AlwaysLabelled(acts: seq<Action>)
    ensures Labelled(Run(START, acts).clients)
  {
    if acts != [] {
      AlwaysLabelled(acts[..|acts| - 1]);
      LabelsStay(Run(START, acts[..|acts| - 1]), acts[|acts| - 1]);
    }
  }

  /******* Composite keys *******/

  function BeforeNul(s: string): nat {
    if s == [] || s[0] == NUL then 0 else 1 + BeforeNul(s[1..])
  }

  lemma {:induction false} BeforeNulIs(a: string, x: string)
    requires NulFree(a)
    ensures BeforeNul(a + [NUL] + x) == |a|
  {
    var s := a + [NUL] + x;
    if a != [] {
      assert s[1..] == a[1..] + [NUL] + x;
      BeforeNulIs(a[1..], x);
    }
  }

  lemma FirstSeparator(a: string, x: string, b: string, y: string)
    requires NulFree(a) && NulFree(b) && a + [NUL] + x == b + [NUL] + y
    ensures a == b && x == y
  {
    var s := a + [NUL] + x;
    BeforeNulIs(a, x);
    BeforeNulIs(b, y);
    assert s[..|a|] == a && s[..|b|] == b;
    assert s[|a| + 1..] == x && s[|b| + 1..] == y;
  }

  /** Joined keys are injective on identities without NUL. */
  lemma KeyIsInjective(a: string, b: string, c: string, d: string, e: string, f: string)
    requires NulFree(a) && NulFree(b) && NulFree(d) && NulFree(e)
    ensures Key(a, b, c) == Key(d, e, f) <==> a == d && b == e && c == f
  {
    if Key(a, b, c) == Key(d, e, f) {
      assert Key(a, b, c) == a + [NUL] + (b + [NUL] + c);
      assert Key(d, e, f) == d + [NUL] + (e + [NUL] + f);
      FirstSeparator(a, b + [NUL] + c, d, e + [NUL] + f);
      FirstSeparator(b, c, e, f);
    }
  }

  /** The prefix filter of the snapshots selects exactly one account's keys, and what it
      cuts off leaves the client and the route. */
  lemma PrefixIsTheAccount(account: string, a: string, b: string, c: string)
    requires NulFree(account) && NulFree(a)
    ensures var prefix := account + [NUL]; var key := Key(a, b, c);
      && (HasPrefix(key, prefix) <==> a == account)
      && (HasPrefix(key, prefix) ==> key[|prefix|..] == b + [NUL] + c)
  {
    var prefix, key := account + [NUL], Key(a, b, c);
    assert key == a + [NUL] + (b + [NUL] + c);
    if HasPrefix(key, prefix) {
      assert key == account + [NUL] + key[|prefix|..];
      FirstSeparator(a, b + [NUL] + c, account, key[|prefix|..]);
    }
  }

  /** With a NUL inside an identity two tickets share one key. */
  lemma NulCollides()
    ensures Key("a", ['b', NUL, 'c'], "d") == Key("a", "b", ['c', NUL, 'd'])
  {
  }
}
