/**
 The quota poller (internal/providerquota/poller.go): registrations with a generation,
 one poll at a time per provider, and network work done without the mutex.
 */
module Poller {
  import opened Wrappers

  type Id = nat      // 0 is the empty string
  type PollId = nat

  datatype Key = Key(account: Id, provider: Id)

  // supported: an adapter exists for the provider's type.
  datatype Ref = Ref(key: Key, spec: nat, supported: bool, header: nat)

  datatype Snap = Snap(available: bool, fetchedAt: int, figures: nat)

  // What the poller's maps hold for one key.
  datatype Slot = Slot(ref: Option<Ref>, gen: nat, inflight: bool, last: Option<int>, snap: Option<Snap>,
                       failed: bool, active: Option<int>)

  const EMPTY := Slot(None, 0, false, None, None, false, None)

  // The zero ProviderRef names no provider.
  const NOWHERE := Key(0, 0)
  const ZERO_REF := Ref(NOWHERE, 0, false, 0)

  // Seconds.
  const BACKGROUND_INTERVAL := 1800
  const ACTIVE_INTERVAL := 60
  const MIN_INTERVAL := 60
  const FAILURE_RETRY := 60
  const ACTIVE_WINDOW := 60
  const GATE := 8

  /******* One slot *******/

  function Registered(s: Slot, ref: Ref): Slot {
    if !ref.supported || s.ref == Some(ref) then s else s.(ref := Some(ref), gen := s.gen + 1)
  }

  function Unregistered(s: Slot): Slot {
    Slot(None, s.gen + 1, false, None, None, false, s.active)
  }

  function Reconciled(s: Slot, want: Option<Ref>): Slot {
    match want
    case Some(ref) => if s.ref == want then s else s.(ref := want, gen := s.gen + 1)
    case None => if s.ref.Some? then Unregistered(s) else s
  }

  function WithHeader(s: Slot, ref: Ref): Ref {
    if s.ref.Some? then ref.(header := s.ref.value.header) else ref
  }

  function AccountReconciled(s: Slot, want: Option<Ref>): Slot {
    match want
    case Some(ref) =>
      if s.ref == Some(WithHeader(s, ref)) then s
      else Slot(Some(WithHeader(s, ref)), s.gen + 1, false, None, None, false, None)
    case None =>
      if s.ref.Some? then Slot(None, s.gen + 1, false, None, None, false, None) else s
  }

  function HeaderSet(s: Slot, header: nat): Slot {
    s.(ref := Some((if s.ref.Some? then s.ref.value else ZERO_REF).(header := header)))
  }

  function Interval(s: Slot, force: bool, now: int): int {
    if force then MIN_INTERVAL
    else if s.failed then FAILURE_RETRY
    else if s.active.Some? && now - s.active.value <= ACTIVE_WINDOW then ACTIVE_INTERVAL
    else BACKGROUND_INTERVAL
  }

  predicate MayBegin(s: Slot, force: bool, now: int) {
    s.ref.Some? && !s.inflight && !(s.last.Some? && now - s.last.value < Interval(s, force, now))
  }

  function Begun(s: Slot, now: int): Slot {
    s.(inflight := true, last := Some(now))
  }

  function IsAvailable(snap: Option<Snap>): bool {
    snap.Some? && snap.value.available
  }

  function Finished(s: Slot, gen: nat, snap: Snap): Slot {
    if s.gen != gen then s
    else s.(inflight := false,
            snap := if snap.available || !IsAvailable(s.snap) then Some(snap) else s.snap,
            failed := !snap.available)
  }

  /******* The poller *******/

  // A poll remembers the ref it was given and publishes under that ref's own key.
  datatype Poll = Poll(at: Key, ref: Ref, gen: nat, now: int)

  // used: poll ids ever drawn; gated: polls that hold a place in the gate.
  datatype State = State(slots: map<Key, Slot>, polls: map<PollId, Poll>, used: set<PollId>, gated: set<PollId>)

  datatype Event =
    | Quiet
    | Changed(keys: set<Key>)       // registrations added, changed or removed
    | Began(p: PollId, at: Key, gen: nat, now: int)
    | Stored(p: PollId, at: Key, gen: nat, snap: Snap)

  datatype Action =
    | Register(ref: Ref)
    | Reconcile(refs: seq<Ref>)
    | ReconcileAccount(account: Id, refs: seq<Ref>)
    | Unregister(key: Key)
    | SetHeader(key: Key, header: nat)
    | MarkActive(key: Key, now: int)
    | Begin(p: PollId, key: Key, force: bool, now: int)
    | Trigger(p: PollId, key: Key, now: int)
    | Finish(p: PollId, available: bool, figures: nat)

  function Get(s: State, k: Key): Slot {
    if k in s.slots then s.slots[k] else EMPTY
  }

  function Put(s: State, k: Key, slot: Slot): State {
    s.(slots := s.slots[k := slot])
  }

  // The later of two refs for one key wins.
  function Want(refs: seq<Ref>): map<Key, Ref> {
    if refs == [] then map[]
    else
      var ref := refs[|refs| - 1];
      if ref.supported then Want(refs[..|refs| - 1])[ref.key := ref] else Want(refs[..|refs| - 1])
  }

  function WantOf(account: Id, refs: seq<Ref>): map<Key, Ref> {
    if refs == [] then map[]
    else
      var ref := refs[|refs| - 1];
      if ref.supported && ref.key.account == account then WantOf(account, refs[..|refs| - 1])[ref.key := ref]
      else WantOf(account, refs[..|refs| - 1])
  }

  function Wanted(want: map<Key, Ref>, k: Key): Option<Ref> {
    if k in want then Some(want[k]) else None
  }

  // The slot of k after a call that changes registrations.
  function Rewritten(s: State, a: Action, k: Key): Slot
    requires a.Register? || a.Reconcile? || a.ReconcileAccount? || a.Unregister?
  {
    match a
    case Register(ref) => if k == ref.key then Registered(Get(s, k), ref) else Get(s, k)
    case Reconcile(refs) => Reconciled(Get(s, k), Wanted(Want(refs), k))
    case ReconcileAccount(account, refs) =>
      if k.account == account then AccountReconciled(Get(s, k), Wanted(WantOf(account, refs), k)) else Get(s, k)
    case Unregister(key) => if k == key then Unregistered(Get(s, k)) else Get(s, k)
  }

  function Touched(a: Action): set<Key>
    requires a.Register? || a.Reconcile? || a.ReconcileAccount? || a.Unregister?
  {
    match a
    case Register(ref) => {ref.key}
    case Reconcile(refs) => Want(refs).Keys
    case ReconcileAccount(account, refs) => WantOf(account, refs).Keys
    case Unregister(key) => {key}
  }

  function Rewrite(s: State, a: Action): (State, Event)
    requires a.Register? || a.Reconcile? || a.ReconcileAccount? || a.Unregister?
  {
    var keys := s.slots.Keys + Touched(a);
    (s.(slots := map k | k in keys :: Rewritten(s, a, k)),
     Changed(set k | k in keys && Rewritten(s, a, k).gen != Get(s, k).gen))
  }

  function BeginStep(s: State, p: PollId, k: Key, force: bool, now: int): (State, Event) {
    var slot := Get(s, k);
    if p in s.used || !MayBegin(slot, force, now) then (s, Quiet)
    else
      (Put(s, k, Begun(slot, now)).(polls := s.polls[p := Poll(k, slot.ref.value, slot.gen, now)], used := s.used + {p}),
       Began(p, k, slot.gen, now))
  }

  function Step(s: State, a: Action): (State, Event) {
    match a
    case SetHeader(k, header) => (Put(s, k, HeaderSet(Get(s, k), header)), Quiet)
    case MarkActive(k, now) => if k.provider == 0 then (s, Quiet) else (Put(s, k, Get(s, k).(active := Some(now))), Quiet)
    case Begin(p, k, force, now) => BeginStep(s, p, k, force, now)
    case Trigger(p, k, now) =>
      if |s.gated| >= GATE then (s, Quiet)
      else
        var (t, e) := BeginStep(s, p, k, true, now);
        (if e.Began? then t.(gated := t.gated + {p}) else t, e)
    case Finish(p, available, figures) =>
      if p !in s.polls then (s, Quiet)
      else
        var poll := s.polls[p];
        var k, snap := poll.ref.key, Snap(available, poll.now, figures);
        var slot := Get(s, k);
        (Put(s, k, Finished(slot, poll.gen, snap)).(polls := s.polls - {p}, gated := s.gated - {p}),
         if slot.gen == poll.gen && (available || !IsAvailable(slot.snap)) then Stored(p, k, poll.gen, snap) else Quiet)
    case _ => Rewrite(s, a)
  }

  const START := State(map[], map[], {}, {})

  function Run(s: State, acts: seq<Action>): State {
    if acts == [] then s else Step(Run(s, acts[..|acts| - 1]), acts[|acts| - 1]).0
  }

  function Trace(s: State, acts: seq<Action>): (tr: seq<Event>)
    ensures |tr| == |acts|
  {
    if acts == [] then []
    else
      var prefix := acts[..|acts| - 1];
      Trace(s, prefix) + [Step(Run(s, prefix), acts[|acts| - 1]).1]
  }

  function Past(s: State, acts: seq<Action>): set<Event> {
    if acts == [] then {}
    else
      var prefix := acts[..|acts| - 1];
      Past(s, prefix) + {Step(Run(s, prefix), acts[|acts| - 1]).1}
  }

  /******* Good manners *******/

  // NOWHERE names no provider, so nothing registers or removes it.
  predicate Named(a: Action) {
    match a
    case Register(ref) => ref.key != NOWHERE
    case Reconcile(refs) => forall i :: 0 <= i < |refs| ==> refs[i].key != NOWHERE
    case ReconcileAccount(_, refs) => forall i :: 0 <= i < |refs| ==> refs[i].key != NOWHERE
    case Unregister(key) => key != NOWHERE
    case _ => true
  }

  // The header is set on a provider that was registered at some time. A provider removed
  // since then comes back without identity.
  predicate HeaderFollows(s: State, a: Action) {
    a.SetHeader? ==> 0 < Get(s, a.key).gen
  }

  // The header is set by the credential hook of a running poll, which has loaded its provider.
  ghost predicate Hydrated(s: State, a: Action) {
    a.SetHeader? ==> a.key != NOWHERE && exists p :: p in s.polls && s.polls[p].ref.key == a.key
  }

  // A changed registration is not pushed through while its provider is being polled.
  ghost predicate NoOrphan(s: State, a: Action) {
    a.Register? || a.Reconcile? ==>
      forall k :: k != NOWHERE && Get(s, k).inflight && Rewritten(s, a, k).inflight ==> Rewritten(s, a, k).gen == Get(s, k).gen
  }

  // A poll that begins knows its own provider.
  predicate HomeBegin(s: State, a: Action) {
    Step(s, a).1.Began? ==> Get(s, Step(s, a).1.at).ref.Some? && Get(s, Step(s, a).1.at).ref.value.key == Step(s, a).1.at
  }

  ghost predicate Follows(acts: seq<Action>) {
    forall i :: 0 <= i < |acts| ==> Named(acts[i]) && HeaderFollows(Run(START, acts[..i]), acts[i])
  }

  ghost predicate Serves(acts: seq<Action>) {
    forall i :: 0 <= i < |acts| ==> Named(acts[i]) && Hydrated(Run(START, acts[..i]), acts[i])
  }

  ghost predicate Orphanless(acts: seq<Action>) {
    forall i :: 0 <= i < |acts| ==> NoOrphan(Run(START, acts[..i]), acts[i]) && HomeBegin(Run(START, acts[..i]), acts[i])
  }
}
