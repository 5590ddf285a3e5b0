/**
 The part of an authenticator that runs under its mutex: the map, the revision
 counter and the loops over them. Each method is one atomic section of an action
 of VerifyCache.
 */
module VerifyCacheStore {
  import opened Wrappers
  import opened Sets
  import opened VerifyCache

  datatype Answer = Miss | Refused | Grant(id: Id, row: Row)

  class Authenticator {
    var entries: map<Key, Entry>
    var rev: nat
    const ttl: int
    const maxEntries: nat

    ghost predicate Valid()
      reads this
    {
      1 <= maxEntries && |entries| <= maxEntries
    }

    constructor (ttl: int, maxEntries: nat)
      requires 1 <= maxEntries
      ensures Valid() && entries == map[] && this.ttl == ttl && this.maxEntries == maxEntries
    {
      this.entries, this.rev, this.ttl, this.maxEntries := map[], 0, ttl, maxEntries;
    }

    // What the mutex-protected state contributes to the model's state.
    ghost function View(rows: map<Id, Row>, calls: map<CallId, Call>): State
      reads this
    {
      State(rows, entries, rev, None, calls)
    }

    /** The locked section of AuthenticateContext: a hit slides the entry's expiry. */
    method Lookup(key: Key, now: int) returns (answer: Answer)
      requires Valid()
      modifies this`entries
      ensures Valid()
      ensures var s := old(View(map[], map[]));
        var hit := key in s.entries && Live(s.entries[key], now);
        && entries == (if hit then Hit(s, 0, key, now, ttl).0.entries else s.entries - {key})
        && answer == (if !hit then Miss
                      else match Hit(s, 0, key, now, ttl).1 case Granted(id, row, _) => Grant(id, row) case _ => Refused)
    {
      ghost var before := entries;
      if key in entries {
        var e := entries[key];
        if now < e.until {
          if e.row.expires.Some? && now >= e.row.expires.value {
            entries := entries - {key};
            assert entries.Keys == before.Keys - {key};
            return Refused;
          }
          entries := entries[key := e.(until := now + ttl)];
          assert entries.Keys == before.Keys;
          return Grant(e.id, e.row);
        }
      }
      entries := entries - {key};
      assert entries.Keys == before.Keys - {key};
      return Miss;
    }

    method SweepExpired(now: int)
      requires Valid()
      modifies this`entries
      ensures Valid() && entries == Swept(old(entries), now)
      ensures |entries| <= |old(entries)|
    {
      var keys := entries.Keys;
      while keys != {}
        invariant keys <= old(entries).Keys
        invariant entries == map k | k in old(entries) && (k in keys || Live(old(entries)[k], now)) :: old(entries)[k]
        decreases keys
      {
        var k :| k in keys;
        keys := keys - {k};
        if entries[k].until <= now {
          entries := entries - {k};
        }
      }
      assert entries.Keys <= old(entries).Keys;
      SubsetSize(entries.Keys, old(entries).Keys);
    }

    /** Makes room for one more entry; which live entries go is map-order dependent. */
    method EnsureRoom(now: int)
      requires Valid()
      modifies this`entries
      ensures RoomMade(old(entries), entries, now, maxEntries)
    {
      SubsetSize(Swept(entries, now).Keys, entries.Keys);
      if |entries| < maxEntries {
        return;
      }
      SweepExpired(now);
      ghost var swept := entries;
      while |entries| >= maxEntries
        invariant forall k :: k in entries ==> k in swept && entries[k] == swept[k]
        invariant |entries| <= |swept| <= maxEntries
        invariant entries == swept || |entries| >= maxEntries - 1
        invariant |swept| < maxEntries ==> entries == swept
        invariant entries.Keys <= swept.Keys
        decreases |entries|
      {
        var k :| k in entries.Keys;
        ghost var full := entries;
        entries := entries - {k};
        assert entries.Keys == full.Keys - {k};
        assert |entries| == |full| - 1;
      }
    }

    /** The locked end of AuthenticateContext: publish only if nothing was invalidated
        since the revision was loaded, which was before the row was read. */
    method Publish(key: Key, now: int, gen: nat, id: Id, row: Row) returns (granted: bool)
      requires Valid()
      modifies this`entries
      ensures Valid()
      ensures granted == (!Expired(row, now) && old(rev) == gen)
      ensures !granted ==> entries == old(entries)
      ensures granted ==> exists room ::
        RoomMade(old(entries), room, now, maxEntries) && entries == room[key := Entry(id, row, now + ttl)]
    {
      if (row.expires.Some? && now >= row.expires.value) || rev != gen {
        return false;
      }
      EnsureRoom(now);
      ghost var room := entries;
      entries := entries[key := Entry(id, row, now + ttl)];
      assert entries.Keys == room.Keys + {key};
      assert RoomMade(old(entries), room, now, maxEntries);
      return true;
    }

    method InvalidateId(id: Id)
      requires Valid()
      modifies this
      ensures Valid() && rev == old(rev) + 1 && entries == WithoutId(old(entries), id)
    {
      rev := rev + 1;
      var keys := entries.Keys;
      while keys != {}
        invariant keys <= old(entries).Keys && rev == old(rev) + 1
        invariant entries == map k | k in old(entries) && (k in keys || old(entries)[k].id != id) :: old(entries)[k]
        decreases keys
      {
        var k :| k in keys;
        keys := keys - {k};
        if entries[k].id == id {
          entries := entries - {k};
        }
      }
      SubsetSize(entries.Keys, old(entries).Keys);
    }

    method InvalidateAccount(account: nat)
      requires Valid()
      modifies this
      ensures Valid() && rev == old(rev) + 1 && entries == WithoutAccount(old(entries), account)
    {
      rev := rev + 1;
      var keys := entries.Keys;
      while keys != {}
        invariant keys <= old(entries).Keys && rev == old(rev) + 1
        invariant entries == map k | k in old(entries) && (k in keys || old(entries)[k].row.account != account) :: old(entries)[k]
        decreases keys
      {
        var k :| k in keys;
        keys := keys - {k};
        if entries[k].row.account == account {
          entries := entries - {k};
        }
      }
      SubsetSize(entries.Keys, old(entries).Keys);
    }

    method InvalidateAll()
      requires Valid()
      modifies this
      ensures Valid() && rev == old(rev) + 1 && entries == map[]
    {
      rev := rev + 1;
      entries := map[];
    }
  }
}
