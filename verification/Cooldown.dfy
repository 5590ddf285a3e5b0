/**
 Fallback cooldowns (internal/server/cooldown.go): a map that is pruned when it is written
 or listed and read lazily otherwise, against the same map never pruned at all.
 */
module Cooldown {
  import opened Wrappers

  type Id = nat     // identifiers and names, ordered as the strings are

  // tenantKey(account, id)
  datatype Key = Key(account: Id, id: Id)

  datatype Entry = Entry(id: Id, startedAt: int, until: int, provider: Id, model: Id, origin: Id)

  type Store = map<Key, Entry>

  // Every call with the time it sees; remove, removeByName and clearFor see none.
  datatype Call =
    | Set(key: Key, entry: Entry)           // at the failure moment, entry.startedAt
    | Snapshot(now: int)
    | Read(now: int)                        // cooled and statusByName
    | Remove(key: Key)
    | RemoveByName(account: Id, provider: Id, model: Id)
    | ClearFor(account: Id)

  function Pruned(s: Store, now: int): Store {
    map k | k in s && now < s[k].until :: s[k]
  }

  // A window is replaced by one that ends no earlier.
  function Recorded(s: Store, key: Key, entry: Entry): Store {
    if key in s && s[key].until > entry.until then s else s[key := entry]
  }

  predicate Named(e: Entry, provider: Id, model: Id) {
    e.provider == provider && e.model == model
  }

  function WithoutName(s: Store, account: Id, provider: Id, model: Id): Store {
    map k | k in s && !(k.account == account && Named(s[k], provider, model)) :: s[k]
  }

  function WithoutAccount(s: Store, account: Id): Store {
    map k | k in s && k.account != account :: s[k]
  }

  // The store as it is.
  function Step(s: Store, c: Call): Store {
    match c
    case Set(key, entry) => Recorded(Pruned(s, entry.startedAt), key, entry)
    case Snapshot(now) => Pruned(s, now)
    case Read(_) => s
    case Remove(key) => s - {key}
    case RemoveByName(account, provider, model) => WithoutName(s, account, provider, model)
    case ClearFor(account) => WithoutAccount(s, account)
  }

  // The store that never forgets by itself.
  function Ideal(s: Store, c: Call): Store {
    match c
    case Set(key, entry) => Recorded(s, key, entry)
    case Snapshot(_) => s
    case Read(_) => s
    case Remove(key) => s - {key}
    case RemoveByName(account, provider, model) => WithoutName(s, account, provider, model)
    case ClearFor(account) => WithoutAccount(s, account)
  }

  function Real(calls: seq<Call>): Store {
    if calls == [] then map[] else Step(Real(calls[..|calls| - 1]), calls[|calls| - 1])
  }

  function Whole(calls: seq<Call>): Store {
    if calls == [] then map[] else Ideal(Whole(calls[..|calls| - 1]), calls[|calls| - 1])
  }

  // The clock after the calls, when it never runs backwards.
  function Time(c: Call, before: int): int {
    match c
    case Set(_, entry) => entry.startedAt
    case Snapshot(now) => now
    case Read(now) => now
    case _ => before
  }

  function Clock(start: int, calls: seq<Call>): int {
    if calls == [] then start else Time(calls[|calls| - 1], Clock(start, calls[..|calls| - 1]))
  }

  ghost predicate Monotone(start: int, calls: seq<Call>) {
    forall i :: 0 <= i < |calls| ==> Clock(start, calls[..i]) <= Time(calls[i], Clock(start, calls[..i]))
  }

  /******* Answers *******/

  predicate Cooled(s: Store, key: Key, now: int) {
    key in s && now < s[key].until
  }

  predicate Candidate(s: Store, k: Key, account: Id, provider: Id, model: Id, now: int) {
    k in s && k.account == account && Named(s[k], provider, model) && now < s[k].until
  }

  predicate Before(a: Entry, b: Entry) {
    a.until < b.until || (a.until == b.until && a.id < b.id)
  }

  // Each entry carries the id of its key.
  ghost predicate Labelled(s: Store) {
    forall k :: k in s ==> s[k].id == k.id
  }

  ghost predicate Status(s: Store, account: Id, provider: Id, model: Id, now: int, answer: Option<Entry>) {
    match answer
    case None => forall k :: !Candidate(s, k, account, provider, model, now)
    case Some(best) =>
      && (exists k :: Candidate(s, k, account, provider, model, now) && s[k] == best)
      && (forall k :: Candidate(s, k, account, provider, model, now) ==> s[k] == best || Before(best, s[k]))
  }

  // What snapshot returns, by target id.
  ghost predicate Lists(s: Store, account: Id, now: int, out: map<Id, Entry>) {
    && (forall id :: id in out <==> Cooled(s, Key(account, id), now))
    && (forall id :: id in out ==> out[id] == s[Key(account, id)])
  }
}
