/**
 The sections of the customer session store that run under its mutex or as one
 statement, each equal to the part of a UserSessions step it carries out.
 */
module UserSessionStore {
  import opened CacheRoom
  import opened Wrappers
  import opened Sets
  import opened UserSessions

  class UserStore {
    var rows: map<Selector, SessionRow>
    var cache: map<Selector, Entry>
    var rev: nat
    const cfg: Config
    const maxEntries: nat

    ghost predicate Valid()
      reads this
    {
      1 <= maxEntries && |cache| <= maxEntries && cfg.Valid()
    }

    constructor (rows: map<Selector, SessionRow>, cfg: Config, maxEntries: nat)
      requires 1 <= maxEntries && cfg.Valid()
      ensures Valid() && this.rows == rows && cache == map[] && this.cfg == cfg && this.maxEntries == maxEntries
    {
      this.rows, this.cache, this.rev, this.cfg, this.maxEntries := rows, map[], 0, cfg, maxEntries;
    }

    /** The locked start of GetUserSession. */
    method Lookup(sel: Selector, now: int, matches: bool) returns (hit: Option<Held>)
      requires Valid()
      modifies this`cache
      ensures Valid()
      ensures Usable(old(cache), sel, now) && matches ==>
        && hit == Some(Held(old(cache)[sel].owner, old(cache)[sel].version, old(cache)[sel].session))
        && cache == old(cache)
      ensures !(Usable(old(cache), sel, now) && matches) ==> hit == None && cache == old(cache) - {sel}
    {
      if sel in cache {
        var entry := cache[sel];
        if now < entry.until && now < entry.session && matches {
          return Some(Held(entry.owner, entry.version, entry.session));
        }
        ghost var full := cache;
        cache := cache - {sel};
        assert cache.Keys == full.Keys - {sel};
      }
      assert cache == old(cache) - {sel};
      hit := None;
    }

    // The entry has passed its own end or its session's.
    static predicate Expired(e: Entry, now: int) {
      e.until <= now || e.session <= now
    }

    static function Swept(cache: map<Selector, Entry>, now: int): map<Selector, Entry> {
      map k | k in cache && !Expired(cache[k], now) :: cache[k]
    }

    method SweepExpired(now: int)
      requires Valid()
      modifies this`cache
      ensures Valid()
      ensures cache == Swept(old(cache), now)
      ensures |cache| <= |old(cache)|
    {
      var keys := cache.Keys;
      while keys != {}
        invariant keys <= old(cache).Keys
        invariant cache == map k | k in old(cache) && (k in keys || !Expired(old(cache)[k], now)) :: old(cache)[k]
        decreases keys
      {
        var k :| k in keys;
        keys := keys - {k};
        if Expired(cache[k], now) {
          cache := cache - {k};
        }
      }
      assert cache.Keys <= old(cache).Keys;
      SubsetSize(cache.Keys, old(cache).Keys);
    }

    /** ensureUserCacheRoomLocked; which live entries go is map-order dependent. */
    method EnsureRoom(now: int)
      requires Valid()
      modifies this`cache
      ensures RoomMade(old(cache), Swept(old(cache), now), cache, maxEntries)
    {
      if |cache| < maxEntries {
        return;
      }
      SweepExpired(now);
      ghost var swept := cache;
      while |cache| >= maxEntries
        invariant forall k :: k in cache ==> k in swept && cache[k] == swept[k]
        invariant |cache| <= |swept| <= maxEntries
        invariant cache == swept || |cache| >= maxEntries - 1
        invariant |swept| < maxEntries ==> cache == swept
        invariant cache.Keys <= swept.Keys
        decreases |cache|
      {
        var k :| k in cache.Keys;
        ghost var full := cache;
        cache := cache - {k};
        assert cache.Keys == full.Keys - {k};
        assert |cache| == |full| - 1;
      }
    }

    /** publishUserSession: publishes unless something was invalidated since the revision
        was loaded, under the latest expiry known; other entries go only to make room. */
    method Publish(sel: Selector, held: Held, now: int, gen: nat) returns (granted: Option<Held>)
      requires Valid()
      modifies this`cache
      ensures Valid()
      ensures granted == if old(rev) == gen then Some(held.(session := Best(old(cache), sel, held.session))) else None
      ensures granted.None? ==> cache == old(cache)
      ensures granted.Some? ==> exists room ::
        RoomMade(old(cache), Swept(old(cache), now), room, maxEntries)
        && cache == room[sel := Entry(held.owner, held.version, granted.value.session, now + cfg.cacheTtl)]
    {
      if rev != gen {
        return None;
      }
      var best := held;
      if sel in cache && cache[sel].session > held.session {
        best := held.(session := cache[sel].session);
      }
      EnsureRoom(now);
      ghost var room := cache;
      cache := cache[sel := Entry(best.owner, best.version, best.session, now + cfg.cacheTtl)];
      assert cache.Keys == room.Keys + {sel};
      assert RoomMade(old(cache), Swept(old(cache), now), room, maxEntries);
      granted := Some(best);
    }

    /** The renewal statement and its row count. */
    method Renew(sel: Selector, seen: int, now: int) returns (affected: nat)
      modifies this`rows
      ensures affected == if sel in old(rows) && old(rows)[sel].expires == seen then 1 else 0
      ensures affected == 0 ==> rows == old(rows)
      ensures affected == 1 ==> rows == old(rows)[sel := SessionRow(old(rows)[sel].owner, now + cfg.ttl)]
    {
      affected := 0;
      if sel in rows && rows[sel].expires == seen {
        rows := rows[sel := rows[sel].(expires := now + cfg.ttl)];
        affected := 1;
      }
    }

    /** The section of invalidateUserCache and, with a session to keep, of
        invalidateOtherUserSessions: the revision moves and the user's entries go. */
    method InvalidateCache(user: User, keep: Option<Selector>)
      requires Valid()
      modifies this`cache, this`rev
      ensures Valid() && rev == old(rev) + 1 && cache == Uncached(old(cache), {user}, keep)
    {
      rev := rev + 1;
      var keys := cache.Keys;
      while keys != {}
        invariant keys <= old(cache).Keys && rev == old(rev) + 1
        invariant cache == map k | k in old(cache) && (k in keys || old(cache)[k].owner != user || keep == Some(k)) :: old(cache)[k]
        decreases keys
      {
        var k :| k in keys;
        keys := keys - {k};
        if cache[k].owner == user && keep != Some(k) {
          cache := cache - {k};
        }
      }
      assert cache == Uncached(old(cache), {user}, keep);
      SubsetSize(cache.Keys, old(cache).Keys);
    }

    /** InvalidateUser without interference: the rows, unless the database refuses, and
        then the entries. */
    method InvalidateUser(user: User, dbError: bool)
      requires Valid()
      modifies this
      ensures Valid() && rev == old(rev) + 1 && cache == Uncached(old(cache), {user}, None)
      ensures rows == if dbError then old(rows) else Spared(old(rows), {user}, None)
    {
      if !dbError {
        rows := map r | r in rows && rows[r].owner != user :: rows[r];
      }
      InvalidateCache(user, None);
    }

    /** DeleteUserSession without interference. */
    method DeleteUserSession(sel: Selector, dbError: bool)
      requires Valid()
      modifies this
      ensures Valid() && rev == old(rev) + 1 && cache == old(cache) - {sel}
      ensures rows == if dbError then old(rows) else old(rows) - {sel}
    {
      if !dbError {
        rows := rows - {sel};
      }
      rev := rev + 1;
      cache := cache - {sel};
      assert cache.Keys <= old(cache).Keys;
      SubsetSize(cache.Keys, old(cache).Keys);
    }
  }
}
