/**
 Live-request tracking (internal/server/inflight.go): counters under a mutex, and the
 deltas sent to live consumers after the mutex is released, in any order.
 */
module Inflight {

  type Id = string

  datatype Ticket = Ticket(account: Id, client: Id, route: Id)

  datatype Leg = Leg(account: Id, route: Id, target: Id)

  datatype Live = Live(active: nat, streaming: nat, requested: Id, resolved: Id, client: Id, route: Id)

  const ZERO := Live(0, 0, "", "", "", "")

  datatype Delta = Delta(account: Id, id: Id, client: Id, target: Id, active: int, streaming: int,
                         requested: Id, resolved: Id, result: Id, failureClass: Id)

  // pending: deltas whose call has released the mutex and not yet emitted.
  datatype State = State(clients: map<Ticket, Live>, targets: map<Leg, nat>, pending: seq<Delta>, emitted: seq<Delta>)

  datatype Action =
    | ClientStart(ticket: Ticket, model: Id)
    | TryAcquire(ticket: Ticket, limit: int, model: Id)
    | Streaming(ticket: Ticket)
    | Resolved(ticket: Ticket, model: Id)
    | ClientEnd(ticket: Ticket, streamed: bool)
    | TargetStart(leg: Leg)
    | TargetEnd(leg: Leg)
    | TargetSkipped(leg: Leg, client: Id, failureClass: Id)
    | Emit(i: nat)

  /******* Sums over a map *******/

  ghost function Sum<K>(m: map<K, nat>): nat
    decreases |m|
  {
    if m == map[] then 0
    else
      var k :| k in m;
      m[k] + Sum(m - {k})
  }

  lemma {:induction false} SumOut<K>(m: map<K, nat>, k: K)
    requires k in m
    ensures Sum(m) == m[k] + Sum(m - {k})
    decreases |m|
  {
    var p :| p in m && Sum(m) == m[p] + Sum(m - {p});
    if p != k {
      SumOut(m - {p}, k);
      SumOut(m - {k}, p);
      assert m - {p} - {k} == m - {k} - {p};
    }
  }

  lemma SumPut<K>(m: map<K, nat>, k: K, v: nat)
    ensures Sum(m[k := v]) == Sum(m) + v - (if k in m then m[k] else 0)
  {
    var n := m[k := v];
    SumOut(n, k);
    if k in m {
      SumOut(m, k);
      assert n - {k} == m - {k};
    } else {
      assert n - {k} == m;
    }
  }

  /******* Counters *******/

  function Get(clients: map<Ticket, Live>, t: Ticket): Live {
    if t in clients then clients[t] else ZERO
  }

  function LegCount(targets: map<Leg, nat>, leg: Leg): nat {
    if leg in targets then targets[leg] else 0
  }

  function ActiveIn(clients: map<Ticket, Live>, account: Id): map<Ticket, nat> {
    map t | t in clients && t.account == account :: clients[t].active
  }

  // activeClientRequestsLocked
  ghost function AccountActive(clients: map<Ticket, Live>, account: Id): nat {
    Sum(ActiveIn(clients, account))
  }

  function Started(clients: map<Ticket, Live>, t: Ticket, model: Id): map<Ticket, Live> {
    var live := Get(clients, t);
    clients[t := live.(active := live.active + 1, requested := model, client := t.client, route := t.route)]
  }

  function Streamed(clients: map<Ticket, Live>, t: Ticket): map<Ticket, Live> {
    var live := Get(clients, t);
    clients[t := live.(streaming := live.streaming + 1, client := t.client, route := t.route)]
  }

  function Named(clients: map<Ticket, Live>, t: Ticket, model: Id): map<Ticket, Live> {
    clients[t := Get(clients, t).(resolved := model, client := t.client, route := t.route)]
  }

  function Less(live: Live, streamed: bool): Live {
    live.(active := if live.active > 0 then live.active - 1 else 0,
          streaming := if streamed && live.streaming > 0 then live.streaming - 1 else live.streaming)
  }

  predicate Idle(live: Live) {
    live.active == 0 && live.streaming == 0
  }

  function Ended(clients: map<Ticket, Live>, t: Ticket, streamed: bool): map<Ticket, Live> {
    var live := Get(clients, t);
    if Idle(live) then clients
    else if Idle(Less(live, streamed)) then clients - {t}
    else clients[t := Less(live, streamed)]
  }

  function LegEnded(targets: map<Leg, nat>, leg: Leg): map<Leg, nat> {
    var n := LegCount(targets, leg);
    if n == 0 then targets else if n == 1 then targets - {leg} else targets[leg := n - 1]
  }

  /******* Deltas *******/

  function ClientDelta(t: Ticket, active: int, streaming: int, requested: Id, resolved: Id): Delta {
    Delta(t.account, t.route, t.client, "", active, streaming, requested, resolved, "", "")
  }

  function LegDelta(leg: Leg, active: int): Delta {
    Delta(leg.account, leg.route, "", leg.target, active, 0, "", "", "", "")
  }

  function EndDelta(live: Live, t: Ticket, streamed: bool): Delta {
    ClientDelta(t, if live.active > 0 then -1 else 0, if streamed && live.streaming > 0 then -1 else 0, "", "")
  }

  /******* Calls *******/

  ghost predicate Admits(s: State, t: Ticket, limit: int) {
    limit < 0 || AccountActive(s.clients, t.account) < limit
  }

  function Queue(s: State, d: Delta): State {
    s.(pending := s.pending + [d])
  }

  function StartStep(s: State, t: Ticket, model: Id): State {
    Queue(s.(clients := Started(s.clients, t, model)), ClientDelta(t, 1, 0, model, ""))
  }

  ghost function Step(s: State, a: Action): State {
    match a
    case ClientStart(t, model) => StartStep(s, t, model)
    case TryAcquire(t, limit, model) => if Admits(s, t, limit) then StartStep(s, t, model) else s
    case Streaming(t) => Queue(s.(clients := Streamed(s.clients, t)), ClientDelta(t, 0, 1, "", ""))
    case Resolved(t, model) =>
      if model == "" then s else Queue(s.(clients := Named(s.clients, t, model)), ClientDelta(t, 0, 0, "", model))
    case ClientEnd(t, streamed) =>
      var live := Get(s.clients, t);
      if Idle(live) then s
      else Queue(s.(clients := Ended(s.clients, t, streamed)), EndDelta(live, t, streamed))
    case TargetStart(leg) =>
      Queue(s.(targets := s.targets[leg := LegCount(s.targets, leg) + 1]), LegDelta(leg, 1))
    case TargetEnd(leg) =>
      if LegCount(s.targets, leg) == 0 then s
      else Queue(s.(targets := LegEnded(s.targets, leg)), LegDelta(leg, -1))
    case TargetSkipped(leg, client, failureClass) =>
      if leg.route == "" || leg.target == "" then s
      else Queue(s, Delta(leg.account, leg.route, client, leg.target, 0, 0, "", "", "skipped", failureClass))
    case Emit(i) =>
      if i < |s.pending| then
        s.(pending := s.pending[..i] + s.pending[i + 1..], emitted := s.emitted + [s.pending[i]])
      else s
  }

  ghost function Run(s: State, acts: seq<Action>): State {
    if acts == [] then s else Step(Run(s, acts[..|acts| - 1]), acts[|acts| - 1])
  }

  const START := State(map[], map[], [], [])

  /******* What a consumer adds up *******/

  // A count a consumer keeps.
  datatype Meter = ActiveOf(ticket: Ticket) | StreamingOf(ticket: Ticket) | LegOf(leg: Leg)

  predicate AboutTicket(d: Delta, t: Ticket) {
    d.account == t.account && d.client == t.client && d.id == t.route && d.target == ""
  }

  predicate AboutLeg(d: Delta, leg: Leg) {
    d.account == leg.account && d.client == "" && d.id == leg.route && d.target == leg.target
  }

  function Reading(d: Delta, m: Meter): int {
    match m
    case ActiveOf(t) => if AboutTicket(d, t) then d.active else 0
    case StreamingOf(t) => if AboutTicket(d, t) then d.streaming else 0
    case LegOf(leg) => if AboutLeg(d, leg) then d.active else 0
  }

  function Total(ds: seq<Delta>, m: Meter): int {
    if ds == [] then 0 else Total(ds[..|ds| - 1], m) + Reading(ds[|ds| - 1], m)
  }

  // What the tracker counts.
  function Count(s: State, m: Meter): nat {
    match m
    case ActiveOf(t) => Get(s.clients, t).active
    case StreamingOf(t) => Get(s.clients, t).streaming
    case LegOf(leg) => LegCount(s.targets, leg)
  }

  // Without a client id a ticket's deltas read as those of a leg without a target id, and
  // the other way round.
  function Echo(s: State, m: Meter): nat {
    match m
    case ActiveOf(t) => if t.client == "" then LegCount(s.targets, Leg(t.account, t.route, "")) else 0
    case StreamingOf(_) => 0
    case LegOf(leg) => if leg.target == "" then Get(s.clients, Ticket(leg.account, "", leg.route)).active else 0
  }

  // The downward steps among some deltas, and the upward ones.
  function Falls(ds: seq<Delta>, m: Meter): nat {
    if ds == [] then 0
    else
      var r := Reading(ds[|ds| - 1], m);
      Falls(ds[..|ds| - 1], m) + if r < 0 then -r else 0
  }

  function Rises(ds: seq<Delta>, m: Meter): int {
    Total(ds, m) + Falls(ds, m)
  }

  // The call releases what the meter counts, if anything is left of it.
  predicate Ends(a: Action, m: Meter) {
    match a
    case ClientEnd(t, streamed) => Reading(ClientDelta(t, -1, if streamed then -1 else 0, "", ""), m) < 0
    case TargetEnd(leg) => Reading(LegDelta(leg, -1), m) < 0
    case _ => false
  }

  function EndsIn(acts: seq<Action>, m: Meter): nat {
    if acts == [] then 0 else EndsIn(acts[..|acts| - 1], m) + if Ends(acts[|acts| - 1], m) then 1 else 0
  }

  // Whoever ends had its start emitted before: at each ending call, more starts have been
  // emitted than endings called.
  ghost predicate Orderly(acts: seq<Action>, m: Meter) {
    forall i :: 0 <= i < |acts| && Ends(acts[i], m) ==> EndsIn(acts[..i], m) < Rises(Run(START, acts[..i]).emitted, m)
  }

  /******* Keys *******/

  const NUL := 0 as char

  predicate NulFree(s: string) {
    NUL !in s
  }

  function Key(a: string, b: string, c: string): string {
    a + [NUL] + b + [NUL] + c
  }

  // The filter every snapshot applies.
  predicate HasPrefix(key: string, prefix: string) {
    |prefix| <= |key| && key[..|prefix|] == prefix
  }
}
