/**
 The poller's maps and the methods that run under its mutex; each leaves every key's slot
 as the slot functions of Poller say.
 */
module PollerStore {
  import opened Wrappers
  import opened Poller
  import PollerProofs

  class QuotaPoller {
    var refs: map<Key, Ref>
    var gen: map<Key, nat>
    var inflight: map<Key, bool>
    var last: map<Key, int>
    var snap: map<Key, Snap>
    var failed: map<Key, bool>
    var active: map<Key, int>

    constructor ()
      ensures forall k :: At(k) == EMPTY
    {
      refs, gen, inflight, last, snap, failed, active := map[], map[], map[], map[], map[], map[], map[];
    }

    static function Lookup<V>(m: map<Key, V>, k: Key): Option<V> {
      if k in m then Some(m[k]) else None
    }

    // The values a Go map yields for a key: zero when it is missing.
    function At(k: Key): Slot
      reads this
    {
      Slot(Lookup(refs, k), if k in gen then gen[k] else 0, k in inflight && inflight[k], Lookup(last, k),
                Lookup(snap, k), k in failed && failed[k], Lookup(active, k))
    }

    // Only k's slot changed.
    twostate predicate OnlyAt(k: Key, slot: Slot)
      reads this
    {
      forall j :: At(j) == if j == k then slot else old(At(j))
    }

    method Bump(k: Key)
      modifies this`gen
      ensures OnlyAt(k, old(At(k)).(gen := old(At(k)).gen + 1))
    {
      gen := gen[k := (if k in gen then gen[k] else 0) + 1];
    }

    method Register(ref: Ref)
      modifies this`refs, this`gen
      ensures OnlyAt(ref.key, Registered(old(At(ref.key)), ref))
    {
      if !ref.supported {
        return;
      }
      if ref.key in refs && refs[ref.key] == ref {
        return;
      }
      refs := refs[ref.key := ref];
      Bump(ref.key);
    }

    method Unregister(k: Key)
      modifies this
      ensures OnlyAt(k, Unregistered(old(At(k))))
    {
      refs := refs - {k};
      snap := snap - {k};
      last := last - {k};
      inflight := inflight - {k};
      failed := failed - {k};
      Bump(k);
    }

    method SetAccountHeader(k: Key, header: nat)
      modifies this`refs
      ensures OnlyAt(k, HeaderSet(old(At(k)), header))
    {
      var ref := if k in refs then refs[k] else ZERO_REF;
      refs := refs[k := ref.(header := header)];
    }

    method MarkActive(k: Key, now: int)
      modifies this`active
      ensures OnlyAt(k, if k.provider == 0 then old(At(k)) else old(At(k)).(active := Some(now)))
    {
      if k.provider == 0 {
        return;
      }
      active := active[k := now];
    }

    static method Collect(refs: seq<Ref>) returns (want: map<Key, Ref>)
      ensures want == Want(refs)
    {
      want := map[];
      for i := 0 to |refs|
        invariant want == Want(refs[..i])
      {
        assert refs[..i + 1][..i] == refs[..i];
        if refs[i].supported {
          want := want[refs[i].key := refs[i]];
        }
      }
      assert refs[..|refs|] == refs;
    }

    static method CollectFor(account: Id, refs: seq<Ref>) returns (want: map<Key, Ref>)
      ensures want == WantOf(account, refs)
    {
      want := map[];
      for i := 0 to |refs|
        invariant want == WantOf(account, refs[..i])
      {
        assert refs[..i + 1][..i] == refs[..i];
        if refs[i].key.account == account && refs[i].supported {
          want := want[refs[i].key := refs[i]];
        }
      }
      assert refs[..|refs|] == refs;
    }

    method Keep(k: Key, ref: Ref)
      modifies this`refs, this`gen
      ensures OnlyAt(k, Reconciled(old(At(k)), Some(ref)))
    {
      if k in refs && refs[k] == ref {
        return;
      }
      refs := refs[k := ref];
      Bump(k);
    }

    method Reconcile(list: seq<Ref>)
      modifies this
      ensures forall k :: At(k) == Reconciled(old(At(k)), Wanted(Want(list), k))
    {
      var want := Collect(list);
      var todo := want.Keys;
      while todo != {}
        invariant todo <= want.Keys
        invariant forall k :: At(k) == if k in want && k !in todo then Reconciled(old(At(k)), Some(want[k])) else old(At(k))
        decreases todo
      {
        var k :| k in todo;
        todo := todo - {k};
        Keep(k, want[k]);
      }
      todo := refs.Keys - want.Keys;
      while todo != {}
        invariant todo !! want.Keys
        invariant forall k :: k in todo ==> old(At(k)).ref.Some? && At(k) == old(At(k))
        invariant forall k :: k !in todo ==> At(k) == Reconciled(old(At(k)), Wanted(want, k))
        decreases todo
      {
        var k :| k in todo;
        todo := todo - {k};
        Unregister(k);
      }
    }

    // The deletions of ReconcileAccount reach the activity mark too.
    method Forget(k: Key)
      modifies this
      ensures OnlyAt(k, old(At(k)).(gen := old(At(k)).gen + 1, snap := None, last := None, failed := false,
                                      inflight := false, active := None))
    {
      Bump(k);
      snap := snap - {k};
      last := last - {k};
      failed := failed - {k};
      inflight := inflight - {k};
      active := active - {k};
    }

    method KeepForAccount(k: Key, wanted: Ref)
      modifies this
      ensures OnlyAt(k, AccountReconciled(old(At(k)), Some(wanted)))
    {
      var ref := wanted;
      if k in refs {
        ref := ref.(header := refs[k].header);
        if refs[k] == ref {
          return;
        }
      }
      refs := refs[k := ref];
      Forget(k);
    }

    method DropForAccount(k: Key)
      requires At(k).ref.Some?
      modifies this
      ensures OnlyAt(k, AccountReconciled(old(At(k)), None))
    {
      refs := refs - {k};
      Forget(k);
    }

    // The first loop of ReconcileAccount.
    method KeepWanted(want: map<Key, Ref>)
      modifies this
      ensures forall k :: At(k) == if k in want then AccountReconciled(old(At(k)), Some(want[k])) else old(At(k))
    {
      hide AccountReconciled;
      var todo := want.Keys;
      while todo != {}
        invariant todo <= want.Keys
        invariant forall k :: k in want && k !in todo ==> At(k) == AccountReconciled(old(At(k)), Some(want[k]))
        invariant forall k :: k !in want || k in todo ==> At(k) == old(At(k))
        decreases todo
      {
        var k :| k in todo;
        todo := todo - {k};
        KeepForAccount(k, want[k]);
      }
    }

    // The second.
    method DropUnwanted(account: Id, want: map<Key, Ref>)
      modifies this
      ensures forall k: Key :: At(k) == if k.account == account && k !in want then AccountReconciled(old(At(k)), None) else old(At(k))
    {
      forall slot: Slot | slot.ref.None?
        ensures AccountReconciled(slot, None) == slot
      {
      }
      hide AccountReconciled;
      var todo := set k | k in refs && k.account == account && k !in want;
      while todo != {}
        invariant forall k :: k in todo ==> k.account == account && k !in want && At(k).ref.Some? && At(k) == old(At(k))
        invariant forall k: Key :: k !in todo && k.account == account && k !in want ==> At(k) == AccountReconciled(old(At(k)), None)
        invariant forall k: Key :: k.account != account || k in want ==> At(k) == old(At(k))
        decreases todo
      {
        var k :| k in todo;
        todo := todo - {k};
        DropForAccount(k);
      }
    }

    method ReconcileAccount(account: Id, list: seq<Ref>)
      modifies this
      ensures forall k: Key :: k.account == account ==> At(k) == AccountReconciled(old(At(k)), Wanted(WantOf(account, list), k))
      ensures forall k: Key :: k.account != account ==> At(k) == old(At(k))
    {
      hide AccountReconciled;
      var want := CollectFor(account, list);
      forall k | k in want
        ensures k.account == account
      {
        PollerProofs.WantOfIsHome(account, list, k);
      }
      KeepWanted(want);
      DropUnwanted(account, want);
    }

    method BeginRefresh(k: Key, force: bool, now: int) returns (begun: Option<(Ref, nat)>)
      modifies this`inflight, this`last
      ensures begun == if MayBegin(old(At(k)), force, now) then Some((old(At(k)).ref.value, old(At(k)).gen)) else None
      ensures OnlyAt(k, if begun.Some? then Begun(old(At(k)), now) else old(At(k)))
    {
      if k !in refs || (k in inflight && inflight[k]) {
        return None;
      }
      var interval := BACKGROUND_INTERVAL;
      if k in active && now - active[k] <= ACTIVE_WINDOW {
        interval := ACTIVE_INTERVAL;
      }
      if k in failed && failed[k] {
        interval := FAILURE_RETRY;
      }
      if force {
        interval := MIN_INTERVAL;
      }
      if k in last && now - last[k] < interval {
        return None;
      }
      inflight := inflight[k := true];
      last := last[k := now];
      begun := Some((refs[k], if k in gen then gen[k] else 0));
    }

    /** The locked end of finishRefresh: under the ref's own key, and only for the
        generation the poll began with. */
    method FinishRefresh(ref: Ref, generation: nat, result: Snap) returns (current: Option<Snap>)
      modifies this`inflight, this`snap, this`failed
      ensures OnlyAt(ref.key, Finished(old(At(ref.key)), generation, result))
      ensures current == At(ref.key).snap
    {
      var k := ref.key;
      if (if k in gen then gen[k] else 0) == generation {
        inflight := inflight[k := false];
        if result.available || !(k in snap && snap[k].available) {
          snap := snap[k := result];
        }
        failed := failed[k := !result.available];
      }
      current := Lookup(snap, k);
    }
  }
}
