/**
 When the quota poller (internal/providerquota/poller.go) polls, what a poll leaves, and what
 each registration call makes of a provider, field by field.
 */
module PollerLaws {
  import opened Wrappers
  import opened Poller
  import PollerProofs

  /******* Polls *******/

  // The seconds to wait since the last attempt: a minute where the poll is forced, the last
  // one failed, or the provider was in use within the last minute; else half an hour.
  ghost predicate Waited(s: Slot, force: bool, now: int) {
    s.last.Some? ==>
      var since := now - s.last.value;
      if force || s.failed || (s.active.Some? && now <= s.active.value + 60) then since >= 60 else since >= 1800
  }

  ghost predicate SameElsewhere(s: State, t: State, k: Key) {
    forall j :: j != k ==> Get(t, j) == Get(s, j)
  }

  /** A poll begins exactly when its provider is registered, no other poll of it runs and it
      has waited long enough. It then holds the registration it found, and of the provider
      only the flag and the time of the attempt change. */
  lemma BeginsIff(s: State, p: PollId, k: Key, force: bool, now: int)
    requires p !in s.used
    ensures var (t, e) := Step(s, Begin(p, k, force, now)); var x, y := Get(s, k), Get(t, k);
      && (e.Began? <==> x.ref.Some? && !x.inflight && Waited(x, force, now))
      && (if e.Began? then
            && p in t.polls && t.polls[p] == Poll(k, x.ref.value, x.gen, now)
            && y == Slot(x.ref, x.gen, true, Some(now), x.snap, x.failed, x.active) && SameElsewhere(s, t, k)
          else t == s)
  {
  }

  /** A trigger is a forced poll that in addition finds fewer than eight in flight. */
  lemma TriggersIff(s: State, p: PollId, k: Key, now: int)
    requires p !in s.used
    ensures var (t, e) := Step(s, Trigger(p, k, now)); var (u, f) := Step(s, Begin(p, k, true, now));
      && (e.Began? <==> f.Began? && |s.gated| < 8)
      && (if e.Began? then t.slots == u.slots && t.polls == u.polls && t.gated == s.gated + {p} else t == s)
  {
  }

  /** What a finished poll leaves at the provider it was begun for. At a generation that moved
      meanwhile nothing; else the flag is down, the poll's success decides when the next is
      due, and its figures are kept unless they would replace available ones by none. */
  lemma FinishLeaves(s: State, p: PollId, available: bool, figures: nat)
    requires p in s.polls
    ensures var (t, e) := Step(s, Finish(p, available, figures)); var poll := s.polls[p];
      var k := poll.ref.key; var x, y := Get(s, k), Get(t, k);
      && t.polls.Keys == s.polls.Keys - {p} && t.gated == s.gated - {p} && SameElsewhere(s, t, k)
      && (x.gen != poll.gen ==> y == x && e == Quiet)
      && (x.gen == poll.gen ==>
            && !y.inflight && (y.failed <==> !available)
            && y.ref == x.ref && y.gen == x.gen && y.last == x.last && y.active == x.active
            && (!available && x.snap.Some? && x.snap.value.available ==> y.snap == x.snap && e == Quiet)
            && (available || x.snap.None? || !x.snap.value.available ==>
                  y.snap == Some(Snap(available, poll.now, figures)) && e == Stored(p, k, poll.gen, y.snap.value)))
  {
  }

  /******* Registrations *******/

  // An entry of a list that speaks for the key.
  predicate Speaks(ref: Ref, k: Key, account: Option<Id>) {
    ref.supported && ref.key == k && (account.Some? ==> k.account == account.value)
  }

  // What a list asks of a key: its last entry that speaks for it.
  ghost predicate Asks(refs: seq<Ref>, k: Key, account: Option<Id>, want: Option<Ref>) {
    match want
    case None => forall i :: 0 <= i < |refs| ==> !Speaks(refs[i], k, account)
    case Some(ref) =>
      exists i :: 0 <= i < |refs| && refs[i] == ref && Speaks(ref, k, account)
                  && forall j :: i < j < |refs| ==> !Speaks(refs[j], k, account)
  }

  lemma AsksMore(refs: seq<Ref>, last: Ref, k: Key, account: Option<Id>, want: Option<Ref>)
    requires Asks(refs, k, account, want)
    ensures Asks(refs + [last], k, account, if Speaks(last, k, account) then Some(last) else want)
  {
    var all := refs + [last];
    assert all[|refs|] == last;
    if Speaks(last, k, account) {
      assert |all| == |refs| + 1;
    } else if want.Some? {
      var i :| 0 <= i < |refs| && refs[i] == want.value && Speaks(want.value, k, account)
               && forall j :: i < j < |refs| ==> !Speaks(refs[j], k, account);
      assert all[i] == want.value;
    }
  }

  lemma {:induction false} WantIs(refs: seq<Ref>, k: Key)
    ensures Asks(refs, k, None, Wanted(Want(refs), k))
  {
    hide Asks;
    if refs == [] {
      NothingAsked(k, None);
    } else {
      var n := |refs| - 1;
      WantIs(refs[..n], k);
      AsksMore(refs[..n], refs[n], k, None, Wanted(Want(refs[..n]), k));
      assert refs == refs[..n] + [refs[n]];
    }
  }

  lemma {:induction false} WantOfIs(account: Id, refs: seq<Ref>, k: Key)
    ensures Asks(refs, k, Some(account), Wanted(WantOf(account, refs), k))
  {
    hide Asks;
    if refs == [] {
      NothingAsked(k, Some(account));
    } else {
      var n := |refs| - 1;
      WantOfIs(account, refs[..n], k);
      AsksMore(refs[..n], refs[n], k, Some(account), Wanted(WantOf(account, refs[..n]), k));
      assert refs == refs[..n] + [refs[n]];
    }
  }

  lemma NothingAsked(k: Key, account: Option<Id>)
    ensures Asks([], k, account, None)
  {
  }

  lemma OneAnswer(refs: seq<Ref>, k: Key, account: Option<Id>, a: Option<Ref>, b: Option<Ref>)
    requires Asks(refs, k, account, a) && Asks(refs, k, account, b)
    ensures a == b
  {
    if a.Some? && b.Some? {
      var i :| 0 <= i < |refs| && refs[i] == a.value && Speaks(a.value, k, account)
               && forall j :: i < j < |refs| ==> !Speaks(refs[j], k, account);
      var m :| 0 <= m < |refs| && refs[m] == b.value && Speaks(b.value, k, account)
               && forall j :: m < j < |refs| ==> !Speaks(refs[j], k, account);
      assert i == m;
    }
  }

  /** Registering a provider whose details are new or changed records them under the next
      generation and keeps all else, a poll in flight included; another one does nothing. */
  lemma RegisterBecomes(s: State, ref: Ref, k: Key)
    ensures var x, y := Get(s, k), Get(Step(s, Register(ref)).0, k);
      y == if ref.key == k && ref.supported && x.ref != Some(ref)
           then Slot(Some(ref), x.gen + 1, x.inflight, x.last, x.snap, x.failed, x.active) else x
  {
    hide Step;
    PollerProofs.StepIsRewrite(s, Register(ref));
    PollerProofs.RewriteAt(s, Register(ref), k);
  }

  /** Unregistering forgets everything but when the provider was in use, under the next
      generation. */
  lemma UnregisterBecomes(s: State, key: Key, k: Key)
    ensures var x, y := Get(s, k), Get(Step(s, Unregister(key)).0, k);
      y == if k == key then Slot(None, x.gen + 1, false, None, None, false, x.active) else x
  {
    hide Step;
    PollerProofs.StepIsRewrite(s, Unregister(key));
    PollerProofs.RewriteAt(s, Unregister(key), k);
  }

  /** A list of all providers registers each that it asks for, as Register would, and
      unregisters every other that is registered. */
  lemma ReconcileBecomes(s: State, refs: seq<Ref>, k: Key, want: Option<Ref>)
    requires Asks(refs, k, None, want)
    ensures var x, y := Get(s, k), Get(Step(s, Reconcile(refs)).0, k);
      && (x.ref == want ==> y == x)
      && (x.ref != want && want.Some? ==> y == Slot(want, x.gen + 1, x.inflight, x.last, x.snap, x.failed, x.active))
      && (x.ref.Some? && want.None? ==> y == Slot(None, x.gen + 1, false, None, None, false, x.active))
  {
    hide Step;
    hide Asks;
    WantIs(refs, k);
    OneAnswer(refs, k, None, want, Wanted(Want(refs), k));
    PollerProofs.StepIsRewrite(s, Reconcile(refs));
    PollerProofs.RewriteAt(s, Reconcile(refs), k);
  }

  /** A list of one account's providers leaves other accounts alone. Of the account's own, one
      it asks for under unchanged details stays as it is; a new or changed one starts afresh
      under the next generation, with the header known so far; any other is forgotten. */
  lemma ReconcileAccountBecomes(s: State, account: Id, refs: seq<Ref>, k: Key, want: Option<Ref>)
    requires Asks(refs, k, Some(account), want)
    ensures var x, y := Get(s, k), Get(Step(s, ReconcileAccount(account, refs)).0, k);
      && (k.account != account || (want.None? && x.ref.None?) ==> y == x)
      && (k.account == account && want.None? && x.ref.Some? ==> y == Slot(None, x.gen + 1, false, None, None, false, None))
      && (k.account == account && want.Some? && x.ref.None? ==> y == Slot(want, x.gen + 1, false, None, None, false, None))
      && (k.account == account && want.Some? && x.ref.Some? ==>
            var ref := Ref(want.value.key, want.value.spec, want.value.supported, x.ref.value.header);
            y == if x.ref == Some(ref) then x else Slot(Some(ref), x.gen + 1, false, None, None, false, None))
  {
    hide Step;
    hide Asks;
    WantOfIs(account, refs, k);
    OneAnswer(refs, k, Some(account), want, Wanted(WantOf(account, refs), k));
    PollerProofs.StepIsRewrite(s, ReconcileAccount(account, refs));
    PollerProofs.RewriteAt(s, ReconcileAccount(account, refs), k);
  }

  /** A header changes the header of a registration and nothing else of it, and a mark the
      time the provider was last in use; a mark without provider is ignored. */
  lemma MarksBecome(s: State, key: Key, header: nat, now: int, k: Key)
    ensures var x, y := Get(s, k), Get(Step(s, SetHeader(key, header)).0, k);
      && (k != key ==> y == x)
      && (k == key && x.ref.Some? ==>
            var r := x.ref.value;
            y == Slot(Some(Ref(r.key, r.spec, r.supported, header)), x.gen, x.inflight, x.last, x.snap, x.failed, x.active))
      && (k == key && x.ref.None? ==>
            y == Slot(Some(Ref(Key(0, 0), 0, false, header)), x.gen, x.inflight, x.last, x.snap, x.failed, x.active))
    ensures var x, y := Get(s, k), Get(Step(s, MarkActive(key, now)).0, k);
      y == if k == key && key.provider != 0 then Slot(x.ref, x.gen, x.inflight, x.last, x.snap, x.failed, Some(now)) else x
  {
    hide Rewrite;
  }
}
