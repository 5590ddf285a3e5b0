/**
 The sections of SessionStore that run under its mutex or as one statement, each
 equal to the part of a SessionRenewal step it carries out.
 */
module SessionRenewalStore {
  import opened CacheRoom
  import opened Wrappers
  import opened Sets
  import opened SessionRenewal

  class SessionStore {
    var rows: map<Selector, int>
    var cache: map<Selector, Cached>
    var rev: nat
    const cfg: Config
    const maxEntries: nat

    ghost predicate Valid()
      reads this
    {
      1 <= maxEntries && |cache| <= maxEntries && cfg.Valid()
    }

    constructor (rows: map<Selector, int>, cfg: Config, maxEntries: nat)
      requires 1 <= maxEntries && cfg.Valid()
      ensures Valid() && this.rows == rows && cache == map[] && this.cfg == cfg && this.maxEntries == maxEntries
    {
      this.rows, this.cache, this.rev, this.cfg, this.maxEntries := rows, map[], 0, cfg, maxEntries;
    }

    /** The locked start of Get. */
    method Lookup(sel: Selector, now: int, matches: bool) returns (hit: Option<int>)
      requires Valid()
      modifies this`cache
      ensures Valid()
      ensures hit == if Usable(old(cache), sel, now) && matches then Some(old(cache)[sel].session) else None
      ensures cache == if hit.Some? then old(cache) else old(cache) - {sel}
    {
      if sel in cache {
        var entry := cache[sel];
        if now < entry.until && now < entry.session {
          if matches {
            return Some(entry.session);
          }
        }
        ghost var full := cache;
        cache := cache - {sel};
        assert cache.Keys == full.Keys - {sel};
      }
      assert cache == old(cache) - {sel};
      hit := None;
    }

    /** The renewal statement and its row count. */
    method Renew(sel: Selector, seen: int, now: int) returns (affected: nat)
      modifies this`rows
      ensures rows == Swap(old(rows), sel, seen, now + cfg.ttl)
      ensures affected == if sel in old(rows) && old(rows)[sel] == seen then 1 else 0
    {
      affected := 0;
      if sel in rows && rows[sel] == seen {
        rows := rows[sel := now + cfg.ttl];
        affected := 1;
      }
    }

    static function Swept(cache: map<Selector, Cached>, now: int): map<Selector, Cached> {
      map k | k in cache && now < cache[k].until :: cache[k]
    }

    method SweepExpired(now: int)
      requires Valid()
      modifies this`cache
      ensures Valid()
      ensures cache == Swept(old(cache), now)
      ensures |cache| <= |old(cache)|
    {
      var keys := cache.Keys;
      while keys != {}
        invariant keys <= old(cache).Keys
        invariant cache == map k | k in old(cache) && (k in keys || now < old(cache)[k].until) :: old(cache)[k]
        decreases keys
      {
        var k :| k in keys;
        keys := keys - {k};
        if cache[k].until <= now {
          cache := cache - {k};
        }
      }
      assert cache.Keys <= old(cache).Keys;
      SubsetSize(cache.Keys, old(cache).Keys);
    }

    /** ensureCacheRoomLocked; which live entries go is map-order dependent. */
    method EnsureRoom(now: int)
      requires Valid()
      modifies this`cache
      ensures RoomMade(old(cache), Swept(old(cache), now), cache, maxEntries)
    {
      if |cache| < maxEntries {
        return;
      }
      SweepExpired(now);
      ghost var swept := cache;
      while |cache| >= maxEntries
        invariant forall k :: k in cache ==> k in swept && cache[k] == swept[k]
        invariant |cache| <= |swept| <= maxEntries
        invariant cache == swept || |cache| >= maxEntries - 1
        invariant |swept| < maxEntries ==> cache == swept
        invariant cache.Keys <= swept.Keys
        decreases |cache|
      {
        var k :| k in cache.Keys;
        ghost var full := cache;
        cache := cache - {k};
        assert cache.Keys == full.Keys - {k};
        assert |cache| == |full| - 1;
      }
    }

    /** publishSession: publishes unless something was revoked since the revision was
        loaded, under the latest expiry known; other entries go only to make room. */
    method Publish(sel: Selector, session: int, now: int, gen: nat) returns (granted: Option<int>)
      requires Valid()
      modifies this`cache
      ensures Valid()
      ensures granted == if old(rev) == gen then Some(Best(old(cache), sel, session)) else None
      ensures granted.None? ==> cache == old(cache)
      ensures granted.Some? ==> exists room ::
        RoomMade(old(cache), Swept(old(cache), now), room, maxEntries)
        && cache == room[sel := Cached(granted.value, now + cfg.cacheTtl)]
    {
      if rev != gen {
        return None;
      }
      var best := session;
      if sel in cache && cache[sel].session > session {
        best := cache[sel].session;
      }
      EnsureRoom(now);
      ghost var room := cache;
      cache := cache[sel := Cached(best, now + cfg.cacheTtl)];
      assert cache.Keys == room.Keys + {sel};
      assert RoomMade(old(cache), Swept(old(cache), now), room, maxEntries);
      granted := Some(best);
    }

    /** revoke: one critical section, whose DELETE may fail unnoticed. */
    method Revoke(sel: Selector, dbError: bool)
      requires Valid()
      modifies this
      ensures Valid() && rev == old(rev) + 1 && cache == old(cache) - {sel}
      ensures rows == if dbError then old(rows) else old(rows) - {sel}
    {
      if !dbError {
        rows := rows - {sel};
      }
      rev := rev + 1;
      cache := cache - {sel};
      assert cache.Keys <= old(cache).Keys;
      SubsetSize(cache.Keys, old(cache).Keys);
    }

    method InvalidateAll(dbError: bool)
      requires Valid()
      modifies this
      ensures Valid() && rev == old(rev) + 1 && cache == map[]
      ensures rows == if dbError then old(rows) else map[]
    {
      if !dbError {
        rows := map[];
      }
      rev := rev + 1;
      cache := map[];
    }

    method PruneExpired(now: int)
      modifies this`rows
      ensures rows == Pruned(old(rows), now)
    {
      rows := map r | r in rows && rows[r] >= now :: rows[r];
    }
  }
}
