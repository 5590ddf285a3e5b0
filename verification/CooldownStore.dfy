/** The store, with its loops over a map in whatever order it yields. */
module CooldownStore {
  import opened Wrappers
  import opened Cooldown

  class Cooldowns {
    var until: Store

    ghost predicate Valid()
      reads this
    {
      Labelled(until)
    }

    constructor ()
      ensures Valid() && until == map[]
    {
      until := map[];
    }

    method IsCooled(key: Key, now: int) returns (r: bool)
      ensures r == Cooled(until, key, now)
    {
      r := false;
      if key in until {
        r := now < until[key].until;
      }
    }

    method PruneExpired(now: int)
      requires Valid()
      modifies this
      ensures Valid() && until == Pruned(old(until), now)
    {
      var keys := until.Keys;
      while keys != {}
        invariant keys <= old(until).Keys
        invariant until == map k | k in old(until) && (k in keys || now < old(until)[k].until) :: old(until)[k]
        decreases keys
      {
        var k :| k in keys;
        keys := keys - {k};
        if !(now < until[k].until) {
          until := until - {k};
        }
      }
    }

    method SetWindow(key: Key, entry: Entry)
      requires Valid() && entry.id == key.id
      modifies this
      ensures Valid() && until == Step(old(until), Set(key, entry))
    {
      PruneExpired(entry.startedAt);
      if key in until && until[key].until > entry.until {
        return;
      }
      until := until[key := entry];
    }

    /** statusByName: the least live entry by end time, then id. */
    method StatusByName(account: Id, provider: Id, model: Id, now: int) returns (answer: Option<Entry>)
      requires Valid()
      ensures Status(until, account, provider, model, now, answer)
    {
      answer := None;
      var keys := until.Keys;
      ghost var seen: Store := map[];
      while keys != {}
        invariant keys <= until.Keys
        invariant seen == until - keys
        invariant Status(seen, account, provider, model, now, answer)
        decreases keys
      {
        var k :| k in keys;
        keys := keys - {k};
        ghost var before := seen;
        seen := seen[k := until[k]];
        assert seen == until - keys;
        answer := Better(before, k, until[k], account, provider, model, now, answer);
      }
      assert seen == until;
    }

    // The body of the scan.
    static method Better(ghost seen: Store, k: Key, e: Entry, account: Id, provider: Id, model: Id, now: int, best: Option<Entry>)
      returns (answer: Option<Entry>)
      requires k !in seen && e.id == k.id && Labelled(seen) && Status(seen, account, provider, model, now, best)
      ensures Status(seen[k := e], account, provider, model, now, answer)
    {
      ghost var after := seen[k := e];
      assert forall j :: j != k ==> (Candidate(after, j, account, provider, model, now) <==> Candidate(seen, j, account, provider, model, now));
      answer := best;
      if k.account != account || e.provider != provider || e.model != model || !(now < e.until) {
        assert !Candidate(after, k, account, provider, model, now);
        if best.Some? {
          ghost var b :| Candidate(seen, b, account, provider, model, now) && seen[b] == best.value;
          assert Candidate(after, b, account, provider, model, now) && after[b] == best.value;
        }
        return;
      }
      assert Candidate(after, k, account, provider, model, now);
      if best.None? || e.until < best.value.until || (e.until == best.value.until && e.id < best.value.id) {
        answer := Some(e);
      } else {
        ghost var b :| Candidate(seen, b, account, provider, model, now) && seen[b] == best.value;
        assert Candidate(after, b, account, provider, model, now) && after[b] == best.value;
        assert b.id != k.id;
      }
    }

    method Remove(key: Key)
      requires Valid()
      modifies this
      ensures Valid() && until == Step(old(until), Call.Remove(key))
    {
      until := until - {key};
    }

    method RemoveByName(account: Id, provider: Id, model: Id) returns (removed: bool)
      requires Valid()
      modifies this
      ensures Valid() && until == Step(old(until), Call.RemoveByName(account, provider, model))
      ensures removed <==> until != old(until)
    {
      removed := false;
      var keys := until.Keys;
      while keys != {}
        invariant keys <= old(until).Keys
        invariant until == map k | k in old(until) && (k in keys || !(k.account == account && Named(old(until)[k], provider, model))) :: old(until)[k]
        invariant removed <==> until != old(until)
        decreases keys
      {
        var k :| k in keys;
        keys := keys - {k};
        if k.account == account && until[k].provider == provider && until[k].model == model {
          until := until - {k};
          removed := true;
          assert k in old(until) && k !in until;
        }
      }
    }

    method ClearFor(account: Id)
      requires Valid()
      modifies this
      ensures Valid() && until == Step(old(until), Call.ClearFor(account))
    {
      var keys := until.Keys;
      while keys != {}
        invariant keys <= old(until).Keys
        invariant until == map k | k in old(until) && (k in keys || k.account != account) :: old(until)[k]
        decreases keys
      {
        var k :| k in keys;
        keys := keys - {k};
        if k.account == account {
          until := until - {k};
        }
      }
    }

    method Snapshot(account: Id, now: int) returns (out: map<Id, Entry>)
      requires Valid()
      modifies this
      ensures Valid() && until == Step(old(until), Call.Snapshot(now))
      ensures Lists(old(until), account, now, out)
    {
      PruneExpired(now);
      out := map[];
      var keys := until.Keys;
      while keys != {}
        invariant keys <= until.Keys
        invariant forall id :: id in out <==> Cooled(until, Key(account, id), now) && Key(account, id) !in keys
        invariant forall id :: id in out ==> out[id] == until[Key(account, id)]
        decreases keys
      {
        var k :| k in keys;
        keys := keys - {k};
        if k.account == account {
          if now < until[k].until {
            out := out[until[k].id := until[k]];
          }
        }
      }
    }
  }
}
