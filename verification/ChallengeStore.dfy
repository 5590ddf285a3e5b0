/**
 Pending passkey ceremonies (internal/identity/webauthn.go, challengeStore): one-use
 entries, a cap, and eviction of the entry closest to expiry.
 */
module ChallengeStore {
  import opened Wrappers
  import opened Sets

  type Key = nat     // hash of a random token, so never drawn twice
  type User = nat

  datatype Kind = Register | Login | Reauth

  datatype Challenge = Challenge(kind: Kind, user: User, expires: int)

  type Store = map<Key, Challenge>

  const TTL := 600
  const MAX := 4096

  function Live(s: Store, now: int): Store {
    map k | k in s && now < s[k].expires :: s[k]
  }

  ghost predicate Oldest(s: Store, k: Key) {
    k in s && forall j :: j in s ==> s[k].expires <= s[j].expires
  }

  // Which of several oldest entries goes depends on map order.
  ghost predicate Put(s: Store, t: Store, key: Key, c: Challenge, now: int) {
    var live := Live(s, now);
    if |live| < MAX then t == live[key := c] else exists o: Key :: Oldest(live, o) && t == (live - {o})[key := c]
  }

  function Answer(s: Store, key: Key, kind: Kind, now: int): Option<User> {
    if key in s && s[key].kind == kind && now < s[key].expires then Some(s[key].user) else None
  }

  datatype Op = PutOp(key: Key, kind: Kind, user: User, now: int) | TakeOp(key: Key, kind: Kind, now: int)

  ghost predicate Next(s: Store, op: Op, t: Store) {
    match op
    case PutOp(key, kind, user, now) => Put(s, t, key, Challenge(kind, user, now + TTL), now)
    case TakeOp(key, _, _) => t == s - {key}
  }

  ghost predicate Behaviour(states: seq<Store>, ops: seq<Op>) {
    && |states| == |ops| + 1 && states[0] == map[]
    && forall i :: 0 <= i < |ops| ==> Next(states[i], ops[i], states[i + 1])
  }

  // Tokens are random.
  ghost predicate FreshKeys(ops: seq<Op>) {
    forall i, j :: 0 <= i < j < |ops| && ops[i].PutOp? && ops[j].PutOp? ==> ops[i].key != ops[j].key
  }

  /******* The cap *******/

  lemma OneMore(s: Store, key: Key, c: Challenge)
    ensures |s[key := c]| <= |s| + 1
  {
    assert s[key := c].Keys == s.Keys + {key};
  }

  lemma PutIsBounded(s: Store, t: Store, key: Key, c: Challenge, now: int)
    requires |s| <= MAX && Put(s, t, key, c, now)
    ensures |t| <= MAX
  {
    var live := Live(s, now);
    SubsetSize(live.Keys, s.Keys);
    if |live| < MAX {
      OneMore(live, key, c);
    } else {
      var o: Key :| Oldest(live, o) && t == (live - {o})[key := c];
      assert (live - {o}).Keys == live.Keys - {o};
      OneMore(live - {o}, key, c);
    }
  }

  /** The store never holds more than MAX ceremonies. */
  lemma {:induction false} StoreIsBounded(states: seq<Store>, ops: seq<Op>, i: nat)
    requires Behaviour(states, ops) && i < |states|
    ensures |states[i]| <= MAX
  {
    if i > 0 {
      StoreIsBounded(states, ops, i - 1);
      assert Next(states[i - 1], ops[i - 1], states[i]);
      if ops[i - 1].PutOp? {
        var op := ops[i - 1];
        PutIsBounded(states[i - 1], states[i], op.key, Challenge(op.kind, op.user, op.now + TTL), op.now);
      } else {
        SubsetSize(states[i].Keys, states[i - 1].Keys);
      }
    }
  }

  /******* One use *******/

  lemma {:induction false} WasPut(states: seq<Store>, ops: seq<Op>, i: nat, key: Key) returns (p: nat)
    requires Behaviour(states, ops) && i < |states| && key in states[i]
    ensures p < i && ops[p].PutOp? && ops[p].key == key
    ensures states[i][key] == Challenge(ops[p].kind, ops[p].user, ops[p].now + TTL)
  {
    assert i > 0;
    assert Next(states[i - 1], ops[i - 1], states[i]);
    if ops[i - 1].PutOp? && ops[i - 1].key == key {
      p := i - 1;
    } else {
      p := WasPut(states, ops, i - 1, key);
    }
  }

  lemma {:induction false} GoneStaysGone(states: seq<Store>, ops: seq<Op>, i: nat, j: nat, key: Key)
    requires Behaviour(states, ops) && i <= j < |states| && key !in states[i]
    requires forall m :: i <= m < j && ops[m].PutOp? ==> ops[m].key != key
    ensures key !in states[j]
    decreases j - i
  {
    if i < j {
      GoneStaysGone(states, ops, i, j - 1, key);
      assert Next(states[j - 1], ops[j - 1], states[j]);
    }
  }

  /** A ceremony is completed at most once, and any attempt to complete it, even one of the
      wrong kind, ends it. */
  lemma ChallengesAreOneUse(states: seq<Store>, ops: seq<Op>, i: nat, j: nat)
    requires Behaviour(states, ops) && FreshKeys(ops) && i < j < |ops|
    requires ops[i].TakeOp? && ops[j].TakeOp? && ops[i].key == ops[j].key && ops[i].key in states[i]
    ensures Answer(states[j], ops[j].key, ops[j].kind, ops[j].now) == None
  {
    var p := WasPut(states, ops, i, ops[i].key);
    assert Next(states[i], ops[i], states[i + 1]);
    GoneStaysGone(states, ops, i + 1, j, ops[i].key);
  }

  /** A completion answers only for a ceremony begun under its token, of its kind, less than
      ten minutes before, and with the user who began it. */
  lemma AnswersAreBegun(states: seq<Store>, ops: seq<Op>, j: nat, user: User) returns (p: nat)
    requires Behaviour(states, ops) && j < |ops| && ops[j].TakeOp?
    requires Answer(states[j], ops[j].key, ops[j].kind, ops[j].now) == Some(user)
    ensures p < j && ops[p] == PutOp(ops[j].key, ops[j].kind, user, ops[p].now) && ops[j].now < ops[p].now + 600
  {
    p := WasPut(states, ops, j, ops[j].key);
  }

  /** Beginning a ceremony adds it and keeps only others that have not expired; those all,
      unless the cap was reached: then one goes, and none that would have expired before it. */
  lemma BeginLeaves(states: seq<Store>, ops: seq<Op>, i: nat, k: Key)
    requires Behaviour(states, ops) && i < |ops| && ops[i].PutOp?
    ensures var op := ops[i]; var s, t := states[i], states[i + 1];
      && op.key in t && t[op.key] == Challenge(op.kind, op.user, op.now + 600)
      && (k in t && k != op.key ==> k in s && t[k] == s[k] && s[k].expires > op.now)
      && (k in s && k !in t && s[k].expires > op.now ==>
            |s| >= 4096 && forall j :: j in t && j != op.key ==> s[k].expires <= s[j].expires)
      && forall j :: j in s && k in s && k != j && s[k].expires > op.now && s[j].expires > op.now ==> k in t || j in t
  {
    var op := ops[i];
    NextAt(states, ops, i);
    var s, t := states[i], states[i + 1];
    var live := Live(s, op.now);
    SubsetSize(live.Keys, s.Keys);
    if |live| >= MAX {
      var o: Key :| Oldest(live, o) && t == (live - {o})[op.key := Challenge(op.kind, op.user, op.now + TTL)];
      assert forall j :: j in live ==> live[o].expires <= live[j].expires;
    }
  }

  /******* Survival *******/

  function Puts(ops: seq<Op>, i: nat, j: nat): nat
    requires i <= j <= |ops|
    decreases j - i
  {
    if i == j then 0 else Puts(ops, i, j - 1) + if ops[j - 1].PutOp? then 1 else 0
  }

  // The ceremonies begun before n by a clock reading of from or later.
  function Begun(ops: seq<Op>, n: nat, from: int): nat
    requires n <= |ops|
  {
    if n == 0 then 0 else Begun(ops, n - 1, from) + if ops[n - 1].PutOp? && from <= ops[n - 1].now then 1 else 0
  }

  function AtLeast(s: Store, expires: int): set<Key> {
    set k | k in s && expires <= s[k].expires
  }

  lemma {:induction false} AtLeastIsBegun(states: seq<Store>, ops: seq<Op>, n: nat, from: int)
    requires Behaviour(states, ops) && n < |states|
    ensures |AtLeast(states[n], from + TTL)| <= Begun(ops, n, from)
  {
    hide *;
    if n == 0 {
      NoneAtStart(states, ops, from);
    } else {
      Longer(states, ops);
      AtLeastIsBegun(states, ops, n - 1, from);
      NextAt(states, ops, n - 1);
      BegunNext(ops, n, from);
      AtLeastStep(states[n - 1], ops[n - 1], states[n], from);
    }
  }

  lemma NoneAtStart(states: seq<Store>, ops: seq<Op>, from: int)
    requires Behaviour(states, ops)
    ensures |states| > 0 && |AtLeast(states[0], from + TTL)| == 0 <= Begun(ops, 0, from)
  {
    assert AtLeast(states[0], from + TTL) == {};
  }

  lemma Longer(states: seq<Store>, ops: seq<Op>)
    requires Behaviour(states, ops)
    ensures |states| == |ops| + 1
  {
  }

  lemma NextAt(states: seq<Store>, ops: seq<Op>, i: nat)
    requires Behaviour(states, ops) && i < |ops|
    ensures Next(states[i], ops[i], states[i + 1])
  {
  }

  lemma BegunNext(ops: seq<Op>, n: nat, from: int)
    requires 0 < n <= |ops|
    ensures Begun(ops, n, from) == Begun(ops, n - 1, from) + if ops[n - 1].PutOp? && from <= ops[n - 1].now then 1 else 0
  {
  }

  lemma AtLeastStep(s: Store, op: Op, t: Store, from: int)
    requires Next(s, op, t)
    ensures |AtLeast(t, from + TTL)| <= |AtLeast(s, from + TTL)| + if op.PutOp? && from <= op.now then 1 else 0
  {
    var more := if op.PutOp? && from <= op.now then {op.key} else {};
    assert AtLeast(t, from + TTL) <= AtLeast(s, from + TTL) + more;
    SubsetSize(AtLeast(t, from + TTL), AtLeast(s, from + TTL) + more);
  }

  lemma {:induction false} BegunSince(ops: seq<Op>, i: nat, m: nat, from: int)
    requires i < m <= |ops|
    ensures Begun(ops, m, from) <= Begun(ops, i, from) + 1 + Puts(ops, i + 1, m)
    decreases m
  {
    if i + 1 < m {
      BegunSince(ops, i, m - 1, from);
    }
  }

  lemma NotEvicted(s: Store, t: Store, key: Key, newKey: Key, c: Challenge, d: Challenge, now: int)
    requires Put(s, t, newKey, d, now) && key in s && s[key] == c && now < c.expires && newKey != key
    requires |AtLeast(s, c.expires)| < MAX
    ensures key in t && t[key] == c
  {
    var live := Live(s, now);
    if |live| >= MAX {
      var o: Key :| Oldest(live, o) && t == (live - {o})[newKey := d];
      if o == key {
        assert live.Keys <= AtLeast(s, c.expires);
        SubsetSize(live.Keys, AtLeast(s, c.expires));
        assert false;
      }
    }
  }

  ghost predicate Kept(s: Store, key: Key, c: Challenge) {
    key in s && s[key] == c
  }

  lemma PutIsKept(states: seq<Store>, ops: seq<Op>, i: nat)
    requires Behaviour(states, ops) && i < |ops| && ops[i].PutOp?
    ensures Kept(states[i + 1], ops[i].key, Challenge(ops[i].kind, ops[i].user, ops[i].now + TTL))
  {
    assert Next(states[i], ops[i], states[i + 1]);
  }

  lemma SurvivesStep(states: seq<Store>, ops: seq<Op>, i: nat, m: nat, c: Challenge)
    requires Behaviour(states, ops) && i < m < |ops| && ops[i].PutOp? && c.expires == ops[i].now + TTL
    requires Kept(states[m], ops[i].key, c) && ops[m].key != ops[i].key
    requires ops[m].PutOp? ==> ops[m].now < c.expires && Puts(ops, i + 1, m) + Begun(ops, i, ops[i].now) < MAX - 1
    ensures Kept(states[m + 1], ops[i].key, c)
  {
    hide Begun;
    hide Puts;
    hide AtLeast;
    var op := ops[m];
    NextAt(states, ops, m);
    if op.PutOp? {
      AtLeastIsBegun(states, ops, m, ops[i].now);
      BegunSince(ops, i, m, ops[i].now);
      NotEvicted(states[m], states[m + 1], ops[i].key, op.key, c, Challenge(op.kind, op.user, op.now + TTL), op.now);
    }
  }

  lemma LastPut(ops: seq<Op>, i: nat, j: nat)
    requires i < j <= |ops|
    ensures Puts(ops, i, j) == Puts(ops, i, j - 1) + if ops[j - 1].PutOp? then 1 else 0
  {
  }

  // From i on nothing completes or outlives the ceremony begun at i.
  ghost predicate Undisturbed(ops: seq<Op>, i: nat, j: nat)
    requires i < j <= |ops|
  {
    forall m :: i < m < j ==> if ops[m].TakeOp? then ops[m].key != ops[i].key else ops[m].now < ops[i].now + TTL
  }

  /** Eviction is no veto: a ceremony stays until it is taken or expires, unless MAX others
      are in its way: those begun after it, and those before it that read the same clock or
      a later one. */
  lemma {:induction false} CeremonySurvives(states: seq<Store>, ops: seq<Op>, i: nat, j: nat)
    requires Behaviour(states, ops) && FreshKeys(ops) && i < j <= |ops| && ops[i].PutOp?
    requires Puts(ops, i + 1, j) + Begun(ops, i, ops[i].now) < MAX
    requires Undisturbed(ops, i, j)
    ensures Kept(states[j], ops[i].key, Challenge(ops[i].kind, ops[i].user, ops[i].now + TTL))
    decreases j
  {
    hide Behaviour;
    hide Kept;
    hide Puts;
    hide Begun;
    if j == i + 1 {
      PutIsKept(states, ops, i);
    } else {
      LastPut(ops, i + 1, j);
      CeremonySurvives(states, ops, i, j - 1);
      SurvivesStep(states, ops, i, j - 1, Challenge(ops[i].kind, ops[i].user, ops[i].now + TTL));
    }
  }

  /** And it does answer: the first completion of the right kind in time finds its user. */
  lemma CeremonyCompletes(states: seq<Store>, ops: seq<Op>, i: nat, j: nat)
    requires Behaviour(states, ops) && FreshKeys(ops) && i < j < |ops| && ops[i].PutOp?
    requires Puts(ops, i + 1, j) + Begun(ops, i, ops[i].now) < 4096
    requires Undisturbed(ops, i, j)
    requires ops[j].TakeOp? && ops[j].key == ops[i].key && ops[j].kind == ops[i].kind && ops[j].now < ops[i].now + 600
    ensures Answer(states[j], ops[j].key, ops[j].kind, ops[j].now) == Some(ops[i].user)
  {
    hide Behaviour;
    hide Puts;
    hide Begun;
    CeremonySurvives(states, ops, i, j);
  }

  /******* The store *******/

  class Challenges {
    var entries: Store

    constructor ()
      ensures entries == map[]
    {
      entries := map[];
    }

    /** put: one scan drops what has expired and finds the oldest of the rest. */
    method Begin(key: Key, kind: Kind, user: User, now: int)
      modifies this
      ensures Put(old(entries), entries, key, Challenge(kind, user, now + TTL), now)
    {
      var keys := entries.Keys;
      var oldest: Option<Key> := None;
      while keys != {}
        invariant keys <= old(entries).Keys
        invariant entries == map k | k in old(entries) && (k in keys || now < old(entries)[k].expires) :: old(entries)[k]
        invariant oldest.Some? ==> oldest.value in entries && oldest.value !in keys
        invariant forall k :: k in entries && k !in keys ==> oldest.Some? && entries[oldest.value].expires <= entries[k].expires
        decreases keys
      {
        var k :| k in keys;
        keys := keys - {k};
        if !(now < entries[k].expires) {
          entries := entries - {k};
        } else if oldest.None? || entries[k].expires < entries[oldest.value].expires {
          oldest := Some(k);
        }
      }
      assert entries == Live(old(entries), now);
      if |entries| >= MAX {
        ghost var some: Key :| some in entries;
        if oldest.Some? {
          assert Oldest(entries, oldest.value);
          entries := entries - {oldest.value};
        } else {
          assert false;
        }
      }
      entries := entries[key := Challenge(kind, user, now + TTL)];
    }

    /** take: the entry goes whether or not it fits. */
    method Complete(key: Option<Key>, kind: Kind, now: int) returns (user: Option<User>)
      modifies this
      ensures key.None? ==> user == None && entries == old(entries)
      ensures key.Some? ==> user == Answer(old(entries), key.value, kind, now) && Next(old(entries), TakeOp(key.value, kind, now), entries)
    {
      if key.None? {
        return None;
      }
      var k := key.value;
      user := None;
      if k in entries && entries[k].kind == kind && now < entries[k].expires {
        user := Some(entries[k].user);
      }
      entries := entries - {k};
    }
  }
}
