/**
 What each call of the live-request tracker (internal/server/inflight.go) counts and tells,
 field by field.
 */
module InflightLaws {
  import opened Inflight

  // The ticket's entry is the only thing that changed, and one delta was queued.
  ghost predicate ClientChanged(s: State, t: State, ticket: Ticket, d: Delta) {
    && t.targets == s.targets && t.emitted == s.emitted && t.pending == s.pending + [d]
    && t.clients - {ticket} == s.clients - {ticket}
  }

  ghost predicate LegChanged(s: State, t: State, leg: Leg, n: nat, d: Delta) {
    && t.clients == s.clients && t.emitted == s.emitted && t.pending == s.pending + [d]
    && t.targets - {leg} == s.targets - {leg} && (leg in t.targets <==> n > 0) && (n > 0 ==> t.targets[leg] == n)
  }

  lemma PutIsLocal<K, V>(m: map<K, V>, k: K, v: V)
    ensures m[k := v] - {k} == m - {k}
  {
  }

  lemma TakeIsLocal<K, V>(m: map<K, V>, k: K)
    ensures (m - {k}) - {k} == m - {k}
  {
  }

  /** A start counts one more request of the ticket, notes the model asked for and says both. */
  lemma StartTells(s: State, ticket: Ticket, model: Id)
    ensures var t := Step(s, ClientStart(ticket, model)); var was := Get(s.clients, ticket);
      && ClientChanged(s, t, ticket,
           Delta(ticket.account, ticket.route, ticket.client, "", 1, 0, model, "", "", ""))
      && Get(t.clients, ticket) == Live(was.active + 1, was.streaming, model, was.resolved, ticket.client, ticket.route)
  {
    PutIsLocal(s.clients, ticket, Started(s.clients, ticket, model)[ticket]);
  }

  /** A limited start is a start, unless the account's live requests have reached the limit;
      then it does nothing. A negative limit is none. */
  lemma AcquireTells(s: State, ticket: Ticket, limit: int, model: Id)
    ensures Step(s, TryAcquire(ticket, limit, model)) ==
      if 0 <= limit <= AccountActive(s.clients, ticket.account) then s else Step(s, ClientStart(ticket, model))
  {
    hide AccountActive;
  }

  /** A stream counts one, a resolved model is noted, and both are said. */
  lemma MarksTell(s: State, ticket: Ticket, model: Id)
    ensures var t := Step(s, Streaming(ticket)); var was := Get(s.clients, ticket);
      && ClientChanged(s, t, ticket, Delta(ticket.account, ticket.route, ticket.client, "", 0, 1, "", "", "", ""))
      && Get(t.clients, ticket) == Live(was.active, was.streaming + 1, was.requested, was.resolved, ticket.client, ticket.route)
    ensures Step(s, Resolved(ticket, "")) == s
    ensures var t := Step(s, Resolved(ticket, model)); var was := Get(s.clients, ticket);
      model != "" ==>
        && ClientChanged(s, t, ticket, Delta(ticket.account, ticket.route, ticket.client, "", 0, 0, "", model, "", ""))
        && Get(t.clients, ticket) == Live(was.active, was.streaming, was.requested, model, ticket.client, ticket.route)
  {
    PutIsLocal(s.clients, ticket, Streamed(s.clients, ticket)[ticket]);
    PutIsLocal(s.clients, ticket, Named(s.clients, ticket, model)[ticket]);
  }

  /** An end releases one request if one is counted, and one stream if it streamed and one is
      counted, and says exactly that. The entry goes with its last count; where nothing is
      counted the end does nothing. */
  lemma EndTells(s: State, ticket: Ticket, streamed: bool)
    ensures var t := Step(s, ClientEnd(ticket, streamed)); var was := Get(s.clients, ticket);
      var a := if was.active > 0 then 1 else 0; var b := if streamed && was.streaming > 0 then 1 else 0;
      if was.active == 0 && was.streaming == 0 then t == s
      else
        && ClientChanged(s, t, ticket, Delta(ticket.account, ticket.route, ticket.client, "", -a, -b, "", "", "", ""))
        && (ticket in t.clients <==> was.active > a || was.streaming > b)
        && (ticket in t.clients ==>
              t.clients[ticket] == Live(was.active - a, was.streaming - b, was.requested, was.resolved, was.client, was.route))
  {
    TakeIsLocal(s.clients, ticket);
    PutIsLocal(s.clients, ticket, Less(Get(s.clients, ticket), streamed));
  }

  /** A leg's start counts one more and its end one less, if one is counted; a leg passed over
      is said to be so, unless its route or target is unknown. */
  lemma LegsTell(s: State, leg: Leg, client: Id, failureClass: Id)
    ensures var n := LegCount(s.targets, leg);
      && LegChanged(s, Step(s, TargetStart(leg)), leg, n + 1,
           Delta(leg.account, leg.route, "", leg.target, 1, 0, "", "", "", ""))
      && (if n == 0 then Step(s, TargetEnd(leg)) == s
          else LegChanged(s, Step(s, TargetEnd(leg)), leg, n - 1,
                 Delta(leg.account, leg.route, "", leg.target, -1, 0, "", "", "", "")))
    ensures Step(s, TargetSkipped(leg, client, failureClass)) ==
      if leg.route == "" || leg.target == "" then s
      else State(s.clients, s.targets,
             s.pending + [Delta(leg.account, leg.route, client, leg.target, 0, 0, "", "", "skipped", failureClass)], s.emitted)
  {
    TakeIsLocal(s.targets, leg);
    PutIsLocal(s.targets, leg, LegCount(s.targets, leg) + 1);
    if LegCount(s.targets, leg) > 1 {
      PutIsLocal(s.targets, leg, LegCount(s.targets, leg) - 1);
    }
  }

  /** Emitting moves one delta that is waiting, whichever, behind those emitted. */
  lemma EmitTells(s: State, i: nat)
    ensures var t := Step(s, Emit(i));
      && t.clients == s.clients && t.targets == s.targets
      && (i >= |s.pending| ==> t == s)
      && (i < |s.pending| ==>
            && t.emitted == s.emitted + [s.pending[i]]
            && multiset(t.pending) + multiset{s.pending[i]} == multiset(s.pending))
  {
    if i < |s.pending| {
      assert s.pending == s.pending[..i] + [s.pending[i]] + s.pending[i + 1..];
    }
  }
}
