/**
 Pruning is invisible, windows only extend, and the answer by name does not depend on map
 order.
 */
module CooldownProofs {
  import opened Wrappers
  import opened Cooldown

  // The two stores agree on everything still open at now.
  ghost predicate Agree(s: Store, t: Store, now: int) {
    forall k :: Cooled(s, k, now) || Cooled(t, k, now) ==> Cooled(s, k, now) && Cooled(t, k, now) && s[k] == t[k]
  }

  lemma StepAgrees(s: Store, t: Store, c: Call, now: int)
    requires Agree(s, t, now) && now <= Time(c, now)
    ensures Agree(Step(s, c), Ideal(t, c), Time(c, now))
  {
  }

  lemma {:induction false} Simulates(start: int, calls: seq<Call>)
    requires Monotone(start, calls)
    ensures Agree(Real(calls), Whole(calls), Clock(start, calls))
  {
    if calls != [] {
      var n := |calls| - 1;
      forall i | 0 <= i < n
        ensures calls[..n][..i] == calls[..i]
      {
      }
      Simulates(start, calls[..n]);
      StepAgrees(Real(calls[..n]), Whole(calls[..n]), calls[n], Clock(start, calls[..n]));
    }
  }

  /** With a clock that never runs backwards the pruned, lazily read store answers exactly
      as the one that is never pruned: about one target, about a name, about an account. */
  lemma PruningIsInvisible(start: int, calls: seq<Call>, now: int, key: Key, account: Id, provider: Id, model: Id)
    requires Monotone(start, calls) && Clock(start, calls) <= now
    ensures Cooled(Real(calls), key, now) == Cooled(Whole(calls), key, now)
    ensures forall answer :: Status(Real(calls), account, provider, model, now, answer) <==>
                             Status(Whole(calls), account, provider, model, now, answer)
    ensures forall out :: Lists(Real(calls), account, now, out) <==> Lists(Whole(calls), account, now, out)
  {
    hide Real;
    hide Whole;
    Simulates(start, calls);
    var s, t := Real(calls), Whole(calls);
    assert forall k :: Cooled(s, k, now) ==> Cooled(s, k, Clock(start, calls));
    assert forall k :: Cooled(t, k, now) ==> Cooled(t, k, Clock(start, calls));
    assert Agree(s, t, now);
    SameStatus(s, t, account, provider, model, now);
    SameListing(s, t, account, now);
  }

  // What removeByName reports: whether an entry of the name was there, open or not.
  ghost predicate Reports(s: Store, account: Id, provider: Id, model: Id) {
    exists k :: k in s && k.account == account && Named(s[k], provider, model)
  }

  lemma OpenIsReported(s: Store, t: Store, account: Id, provider: Id, model: Id, now: int)
    requires Agree(s, t, now)
    ensures forall k :: Candidate(s, k, account, provider, model, now) || Candidate(t, k, account, provider, model, now) ==>
                        Reports(s, account, provider, model) && Reports(t, account, provider, model)
  {
    forall k | Candidate(s, k, account, provider, model, now) || Candidate(t, k, account, provider, model, now)
      ensures Reports(s, account, provider, model) && Reports(t, account, provider, model)
    {
      assert Cooled(s, k, now) && Cooled(t, k, now) && s[k] == t[k];
    }
  }

  /** The one answer that can tell the stores apart is the flag of removeByName, and only
      where no window of that name is open any more. */
  lemma ReportDiffersOnlyWhenClosed(start: int, calls: seq<Call>, account: Id, provider: Id, model: Id)
    requires Monotone(start, calls)
    requires Reports(Real(calls), account, provider, model) != Reports(Whole(calls), account, provider, model)
    ensures forall k :: !Candidate(Real(calls), k, account, provider, model, Clock(start, calls))
    ensures forall k :: !Candidate(Whole(calls), k, account, provider, model, Clock(start, calls))
  {
    hide Real;
    hide Whole;
    hide Clock;
    Simulates(start, calls);
    var s, t, now := Real(calls), Whole(calls), Clock(start, calls);
    OpenIsReported(s, t, account, provider, model, now);
  }

  /** A closed window that was pruned is no longer reported. */
  lemma PrunedIsNotReported()
    ensures var calls := [Set(Key(1, 2), Entry(2, 0, 5, 3, 4, 0)), Snapshot(9)];
      Monotone(0, calls) && !Reports(Real(calls), 1, 3, 4) && Reports(Whole(calls), 1, 3, 4)
  {
    var key, entry := Key(1, 2), Entry(2, 0, 5, 3, 4, 0);
    var calls := [Set(key, entry), Snapshot(9)];
    var first := calls[..1];
    assert first == [Set(key, entry)] && first[..0] == [] && calls[..0] == [];
    assert Real(first) == Step(Real(first[..0]), first[0]) == map[key := entry];
    assert Whole(first) == Ideal(Whole(first[..0]), first[0]) == map[key := entry];
    assert Real(calls) == map[];
    assert Whole(calls) == map[key := entry] && key in Whole(calls);
  }

  lemma SameStatus(s: Store, t: Store, account: Id, provider: Id, model: Id, now: int)
    requires Agree(s, t, now)
    ensures forall answer :: Status(s, account, provider, model, now, answer) <==> Status(t, account, provider, model, now, answer)
  {
    forall k
      ensures Candidate(s, k, account, provider, model, now) <==> Candidate(t, k, account, provider, model, now)
      ensures Candidate(s, k, account, provider, model, now) ==> s[k] == t[k]
    {
      assert Candidate(s, k, account, provider, model, now) ==> Cooled(s, k, now);
      assert Candidate(t, k, account, provider, model, now) ==> Cooled(t, k, now);
    }
  }

  lemma SameListing(s: Store, t: Store, account: Id, now: int)
    requires Agree(s, t, now)
    ensures forall out :: Lists(s, account, now, out) <==> Lists(t, account, now, out)
  {
    forall id
      ensures var k := Key(account, id); (Cooled(s, k, now) <==> Cooled(t, k, now)) && (Cooled(s, k, now) ==> s[k] == t[k])
    {
      var k := Key(account, id);
      assert Cooled(s, k, now) || Cooled(t, k, now) ==> s[k] == t[k];
    }
  }

  /** There is at most one answer by name. */
  lemma StatusIsUnique(s: Store, account: Id, provider: Id, model: Id, now: int, a: Option<Entry>, b: Option<Entry>)
    requires Status(s, account, provider, model, now, a) && Status(s, account, provider, model, now, b)
    ensures a == b
  {
    if a.Some? && b.Some? {
      var j :| Candidate(s, j, account, provider, model, now) && s[j] == a.value;
      var k :| Candidate(s, k, account, provider, model, now) && s[k] == b.value;
      assert !(Before(s[j], s[k]) && Before(s[k], s[j]));
    }
  }

  /******* What the never-pruned store means *******/

  // The call takes key's entry away.
  predicate Removes(s: Store, c: Call, key: Key) {
    match c
    case Remove(k) => k == key
    case RemoveByName(account, provider, model) => key in s && key.account == account && Named(s[key], provider, model)
    case ClearFor(account) => key.account == account
    case _ => false
  }

  // No call from i on removes key.
  ghost predicate Spared(calls: seq<Call>, i: nat, key: Key) {
    forall j :: i <= j < |calls| ==> !Removes(Whole(calls[..j]), calls[j], key)
  }

  lemma SparedPrefix(calls: seq<Call>, i: nat, key: Key)
    requires calls != [] && Spared(calls, i, key)
    ensures Spared(calls[..|calls| - 1], i, key)
  {
    assert forall j :: i <= j < |calls| - 1 ==> calls[..|calls| - 1][..j] == calls[..j];
  }

  /** Since a target's last removal the store keeps the latest end time asked for. */
  lemma {:induction false} LatestEndIsKept(calls: seq<Call>, i: nat, key: Key)
    requires i < |calls| && calls[i].Set? && calls[i].key == key && Spared(calls, i + 1, key)
    ensures key in Whole(calls) && Whole(calls)[key].until >= calls[i].entry.until
    decreases |calls|
  {
    var n := |calls| - 1;
    if i < n {
      SparedPrefix(calls, i + 1, key);
      LatestEndIsKept(calls[..n], i, key);
      assert !Removes(Whole(calls[..n]), calls[n], key);
    }
  }

  // The i-th call opened e for key, and nothing since removed or replaced it.
  ghost predicate OpenedBy(calls: seq<Call>, i: nat, key: Key, e: Entry) {
    && i < |calls| && calls[i] == Set(key, e) && Spared(calls, i + 1, key)
    && forall j :: i < j < |calls| && calls[j].Set? && calls[j].key == key ==> calls[j].entry.until < e.until
  }

  lemma OpenedNow(calls: seq<Call>, key: Key)
    requires calls != [] && calls[|calls| - 1].Set? && calls[|calls| - 1].key == key
    ensures OpenedBy(calls, |calls| - 1, key, calls[|calls| - 1].entry)
  {
  }

  lemma OpenedBefore(calls: seq<Call>, i: nat, key: Key, e: Entry)
    requires calls != [] && OpenedBy(calls[..|calls| - 1], i, key, e)
    requires var c := calls[|calls| - 1];
      !Removes(Whole(calls[..|calls| - 1]), c, key) && (c.Set? && c.key == key ==> c.entry.until < e.until)
    ensures OpenedBy(calls, i, key, e)
  {
    hide Whole;
    hide Removes;
    var n := |calls| - 1;
    forall j | i + 1 <= j < |calls|
      ensures !Removes(Whole(calls[..j]), calls[j], key)
    {
      if j < n {
        assert calls[..n][..j] == calls[..j] && calls[..n][j] == calls[j];
        assert !Removes(Whole(calls[..n][..j]), calls[..n][j], key);
      }
    }
    forall j | i < j < |calls| && calls[j].Set? && calls[j].key == key
      ensures calls[j].entry.until < e.until
    {
      assert j < n ==> calls[..n][j] == calls[j];
    }
  }

  // An entry is the one just recorded, or it was there before, not removed and not matched.
  lemma EntryStep(s: Store, c: Call, key: Key)
    requires key in Ideal(s, c)
    ensures if c.Set? && c.key == key && !(key in s && s[key].until > c.entry.until) then Ideal(s, c)[key] == c.entry
            else key in s && s[key] == Ideal(s, c)[key] && !Removes(s, c, key)
  {
  }

  /** Every entry was opened by a call that nothing later removed, and that no later one
      matched: on equal end times the newer detail stands. */
  lemma {:induction false} EntryWasOpened(calls: seq<Call>, key: Key) returns (i: nat)
    requires key in Whole(calls)
    ensures OpenedBy(calls, i, key, Whole(calls)[key])
    decreases |calls|
  {
    hide Ideal;
    hide Removes;
    hide OpenedBy;
    var n := |calls| - 1;
    var s, c := Whole(calls[..n]), calls[n];
    EntryStep(s, c, key);
    if c.Set? && c.key == key && !(key in s && s[key].until > c.entry.until) {
      OpenedNow(calls, key);
      i := n;
    } else {
      i := EntryWasOpened(calls[..n], key);
      OpenedBefore(calls, i, key, Whole(calls)[key]);
    }
  }

  lemma WindowStep(s: Store, c: Call, key: Key, now: int)
    requires Cooled(s, key, now) && Time(c, now) <= now && !Removes(s, c, key)
    ensures Cooled(Step(s, c), key, now) && Step(s, c)[key].until >= s[key].until
  {
  }

  /** An open window is never shortened: while a target is not removed, an entry still
      open at a later time is still there then, ending no earlier. */
  lemma {:induction false} WindowsOnlyExtend(start: int, calls: seq<Call>, i: nat, key: Key)
    requires Monotone(start, calls) && i <= |calls|
    requires forall j :: i <= j < |calls| ==> !Removes(Real(calls[..j]), calls[j], key)
    requires Cooled(Real(calls[..i]), key, Clock(start, calls))
    ensures Cooled(Real(calls), key, Clock(start, calls)) && Real(calls)[key].until >= Real(calls[..i])[key].until
    decreases |calls|
  {
    var n := |calls| - 1;
    if i == |calls| {
      assert calls[..i] == calls;
    } else {
      assert forall j :: 0 <= j <= n ==> calls[..n][..j] == calls[..j];
      assert calls[..n] == calls[..n][..n];
      assert Clock(start, calls[..n]) <= Clock(start, calls);
      WindowsOnlyExtend(start, calls[..n], i, key);
      WindowStep(Real(calls[..n]), calls[n], key, Clock(start, calls));
    }
  }

  // The entry at k is a window of the account's that is open and has the name.
  predicate OpenUnder(s: Store, k: Key, account: Id, provider: Id, model: Id, now: int) {
    k in s && k.account == account && s[k].provider == provider && s[k].model == model && s[k].until > now
  }

  /** The answer by name is an open window of the account's under it that ends first, and of
      those the one with the least id; there is one whenever such a window is open. */
  lemma StatusIsSoonest(s: Store, account: Id, provider: Id, model: Id, now: int, answer: Option<Entry>, k: Key)
    requires Labelled(s) && Status(s, account, provider, model, now, answer)
    ensures answer.None? ==> !OpenUnder(s, k, account, provider, model, now)
    ensures answer.Some? ==>
      var best := answer.value;
      && Key(account, best.id) in s && s[Key(account, best.id)] == best && OpenUnder(s, Key(account, best.id), account, provider, model, now)
      && (OpenUnder(s, k, account, provider, model, now) ==>
            best.until < s[k].until || (best.until == s[k].until && best.id <= k.id))
  {
    assert Candidate(s, k, account, provider, model, now) <==> OpenUnder(s, k, account, provider, model, now);
    if answer.Some? {
      var j :| Candidate(s, j, account, provider, model, now) && s[j] == answer.value;
      assert j == Key(account, answer.value.id);
    }
  }

  /** Listing drops exactly the windows that are closed. A new window does so too, at the
      moment of the failure, and then stands unless the target's own ends later. */
  lemma WritesAreExact(s: Store, key: Key, entry: Entry, now: int, k: Key)
    ensures var t := Step(s, Snapshot(now)); (k in t <==> k in s && s[k].until > now) && (k in t ==> t[k] == s[k])
    ensures var t := Step(s, Set(key, entry)); var longer := key in s && s[key].until > entry.until && s[key].until > entry.startedAt;
      && (k != key ==> (k in t <==> k in s && s[k].until > entry.startedAt) && (k in t ==> t[k] == s[k]))
      && key in t && t[key] == if longer then s[key] else entry
  {
  }

  /** A removal takes exactly one target, the account's entries of one name, or all of the
      account's, and leaves every other entry as it was. */
  lemma RemovalsAreExact(s: Store, key: Key, account: Id, provider: Id, model: Id, k: Key)
    ensures var t := Step(s, Remove(key)); (k in t <==> k in s && k != key) && (k in t ==> t[k] == s[k])
    ensures var t := Step(s, RemoveByName(account, provider, model));
      && (k in t <==> k in s && !(k.account == account && s[k].provider == provider && s[k].model == model))
      && (k in t ==> t[k] == s[k])
    ensures var t := Step(s, ClearFor(account)); (k in t <==> k in s && k.account != account) && (k in t ==> t[k] == s[k])
  {
  }
}
