/**
 The tracker itself. Keys are the identity triples; InflightProofs shows that the joined
 strings the maps really use are injective and that the prefix filter is the account test.
 */
module InflightTracker {
  import opened Inflight
  import opened InflightProofs

  // One account's tickets of one client, each with one of its two counters.
  ghost function Routes(clients: map<Ticket, Live>, keys: set<Ticket>, account: Id, client: Id, streams: bool): map<Ticket, nat> {
    map t | t in clients && t in keys && t.account == account && t.client == client ::
      if streams then clients[t].streaming else clients[t].active
  }

  lemma OneRouteLess(clients: map<Ticket, Live>, keys: set<Ticket>, k: Ticket, account: Id, client: Id, streams: bool)
    requires k in clients && k in keys
    ensures Sum(Routes(clients, keys, account, client, streams)) ==
      Sum(Routes(clients, keys - {k}, account, client, streams)) +
      if k.account == account && k.client == client then (if streams then clients[k].streaming else clients[k].active) else 0
  {
    var m := Routes(clients, keys, account, client, streams);
    if k in m {
      SumOut(m, k);
      assert Routes(clients, keys - {k}, account, client, streams) == m - {k};
    } else {
      assert Routes(clients, keys - {k}, account, client, streams) == m;
    }
  }

  // A queued delta with nothing else pending is the one emitted.
  lemma Alone(s: State, d: Delta)
    requires s.pending == []
    ensures Step(Queue(s, d), Emit(0)) == s.(emitted := s.emitted + [d])
  {
  }

  class Tracker {
    var clientStates: map<Ticket, Live>
    var targetStates: map<Leg, nat>
    var emitted: seq<Delta>

    ghost function View(): State
      reads this
    {
      State(clientStates, targetStates, [], emitted)
    }

    ghost predicate Valid()
      reads this
    {
      Labelled(clientStates)
    }

    constructor ()
      ensures Valid() && View() == START
    {
      clientStates, targetStates, emitted := map[], map[], [];
    }

    // What one call does when nothing runs beside it: its step, and its delta emitted.
    static ghost function Call(s: State, a: Action): State {
      Step(Step(s, a), Emit(0))
    }

    method EmitDelta(d: Delta)
      modifies this`emitted
      ensures emitted == old(emitted) + [d]
    {
      emitted := emitted + [d];
    }

    method ClientStartLocked(t: Ticket, model: Id)
      modifies this`clientStates
      ensures clientStates == Started(old(clientStates), t, model)
    {
      var live := if t in clientStates then clientStates[t] else ZERO;
      clientStates := clientStates[t := live.(active := live.active + 1, requested := model, client := t.client, route := t.route)];
    }

    method ClientStart(t: Ticket, model: Id)
      requires Valid()
      modifies this
      ensures Valid() && View() == Call(old(View()), Action.ClientStart(t, model))
    {
      LabelsStay(View(), Action.ClientStart(t, model));
      ClientStartLocked(t, model);
      EmitDelta(ClientDelta(t, 1, 0, model, ""));
    }

    /** activeClientRequestsLocked: a scan in whatever order the map yields. */
    method ActiveRequests(account: Id) returns (count: nat)
      ensures count == AccountActive(clientStates, account)
    {
      count := 0;
      var keys := clientStates.Keys;
      ghost var m := ActiveIn(clientStates, account);
      assert (map t | t in m && t in keys :: m[t]) == m;
      while keys != {}
        invariant keys <= clientStates.Keys
        invariant count + Sum(map t | t in m && t in keys :: m[t]) == Sum(m)
        decreases keys
      {
        ghost var rest := map t | t in m && t in keys :: m[t];
        var k :| k in keys;
        keys := keys - {k};
        ghost var next := map t | t in m && t in keys :: m[t];
        if k.account == account {
          SumOut(rest, k);
          assert next == rest - {k};
          count := count + clientStates[k].active;
        } else {
          assert next == rest;
        }
      }
      assert (map t | t in m && t in keys :: m[t]) == map[];
    }

    method TryAcquire(t: Ticket, limit: int, model: Id) returns (ok: bool)
      requires Valid()
      modifies this
      ensures Valid() && ok == Admits(old(View()), t, limit)
      ensures View() == Call(old(View()), Action.TryAcquire(t, limit, model))
    {
      LabelsStay(View(), Action.ClientStart(t, model));
      if limit >= 0 {
        var count := ActiveRequests(t.account);
        if count >= limit {
          return false;
        }
      }
      ClientStartLocked(t, model);
      EmitDelta(ClientDelta(t, 1, 0, model, ""));
      ok := true;
    }

    method ClientEnd(t: Ticket, streamed: bool)
      requires Valid()
      modifies this
      ensures Valid() && View() == Call(old(View()), Action.ClientEnd(t, streamed))
    {
      LabelsStay(View(), Action.ClientEnd(t, streamed));
      ghost var s := View();
      var live := if t in clientStates then clientStates[t] else ZERO;
      if live.active == 0 && live.streaming == 0 {
        return;
      }
      var active, streaming := live.active, live.streaming;
      var released := active > 0;
      if released {
        active := active - 1;
      }
      var streamReleased := streamed && streaming > 0;
      if streamReleased {
        streaming := streaming - 1;
      }
      if active == 0 && streaming == 0 {
        clientStates := clientStates - {t};
      } else {
        clientStates := clientStates[t := live.(active := active, streaming := streaming)];
      }
      var delta := ClientDelta(t, 0, 0, "", "");
      if released {
        delta := delta.(active := -1);
      }
      if streamReleased {
        delta := delta.(streaming := -1);
      }
      assert clientStates == Ended(s.clients, t, streamed) && delta == EndDelta(live, t, streamed);
      Alone(s.(clients := clientStates), delta);
      EmitDelta(delta);
    }

    method ClientStreaming(t: Ticket)
      requires Valid()
      modifies this
      ensures Valid() && View() == Call(old(View()), Action.Streaming(t))
    {
      LabelsStay(View(), Action.Streaming(t));
      var live := if t in clientStates then clientStates[t] else ZERO;
      clientStates := clientStates[t := live.(streaming := live.streaming + 1, client := t.client, route := t.route)];
      EmitDelta(ClientDelta(t, 0, 1, "", ""));
    }

    method ClientResolved(t: Ticket, model: Id)
      requires Valid()
      modifies this
      ensures Valid() && View() == Call(old(View()), Action.Resolved(t, model))
    {
      LabelsStay(View(), Action.Resolved(t, model));
      if model == "" {
        return;
      }
      var live := if t in clientStates then clientStates[t] else ZERO;
      clientStates := clientStates[t := live.(resolved := model, client := t.client, route := t.route)];
      EmitDelta(ClientDelta(t, 0, 0, "", model));
    }

    method TargetStart(leg: Leg)
      modifies this`targetStates, this`emitted
      ensures View() == Call(old(View()), Action.TargetStart(leg))
    {
      targetStates := targetStates[leg := (if leg in targetStates then targetStates[leg] else 0) + 1];
      EmitDelta(LegDelta(leg, 1));
    }

    method TargetEnd(leg: Leg)
      modifies this`targetStates, this`emitted
      ensures View() == Call(old(View()), Action.TargetEnd(leg))
    {
      var n := if leg in targetStates then targetStates[leg] else 0;
      if n == 0 {
        return;
      }
      if n == 1 {
        targetStates := targetStates - {leg};
      } else {
        targetStates := targetStates[leg := n - 1];
      }
      EmitDelta(LegDelta(leg, -1));
    }

    /** clientRouteSnapshot: one account's tickets, by client and route. */
    method RouteSnapshot(account: Id) returns (out: map<(Id, Id), Live>)
      ensures forall c, r :: (c, r) in out <==> Ticket(account, c, r) in clientStates
      ensures forall c, r :: (c, r) in out ==> out[(c, r)] == clientStates[Ticket(account, c, r)]
    {
      out := map[];
      var keys := clientStates.Keys;
      while keys != {}
        invariant keys <= clientStates.Keys
        invariant forall c, r :: (c, r) in out <==> Ticket(account, c, r) in clientStates.Keys - keys
        invariant forall c, r :: (c, r) in out ==> out[(c, r)] == clientStates[Ticket(account, c, r)]
        decreases keys
      {
        var k :| k in keys;
        keys := keys - {k};
        if k.account == account {
          out := out[(k.client, k.route) := clientStates[k]];
        }
      }
    }

    /** clientSnapshot: per client, exactly the fold of its routes; entries whose client is
        unknown are skipped. */
    method ClientSnapshot(account: Id) returns (out: map<Id, Live>)
      requires Valid()
      ensures forall c :: c in out <==> c != "" && exists t :: t in clientStates && t.account == account && t.client == c
      ensures forall c :: c in out ==>
        && out[c].active == Sum(Routes(clientStates, clientStates.Keys, account, c, false))
        && out[c].streaming == Sum(Routes(clientStates, clientStates.Keys, account, c, true))
    {
      out := map[];
      var keys := clientStates.Keys;
      while keys != {}
        invariant keys <= clientStates.Keys
        invariant Members(out, clientStates.Keys - keys, account)
        invariant forall c {:trigger Counted(out, clientStates, keys, account, c, false)} :: c != "" ==> Counted(out, clientStates, keys, account, c, false)
        invariant forall c {:trigger Counted(out, clientStates, keys, account, c, true)} :: c != "" ==> Counted(out, clientStates, keys, account, c, true)
        decreases keys
      {
        var k :| k in keys;
        ghost var before, todo := out, keys;
        keys := keys - {k};
        var live := clientStates[k];
        if k.account == account && live.client != "" {
          var agg := if live.client in out then out[live.client] else ZERO;
          agg := agg.(active := agg.active + live.active, streaming := agg.streaming + live.streaming);
          out := out[live.client := agg];
        }
        forall c, streams | c != ""
          ensures Counted(out, clientStates, keys, account, c, streams)
        {
          assert Counted(before, clientStates, todo, account, c, streams);
          OneRouteLess(clientStates, todo, k, account, c, streams);
        }
      }
      forall c | c in out
        ensures out[c].active == Sum(Routes(clientStates, clientStates.Keys, account, c, false))
        ensures out[c].streaming == Sum(Routes(clientStates, clientStates.Keys, account, c, true))
      {
        assert Counted(out, clientStates, {}, account, c, false) && Counted(out, clientStates, {}, account, c, true);
        assert Routes(clientStates, {}, account, c, false) == map[] == Routes(clientStates, {}, account, c, true);
      }
    }

    static ghost predicate Members(out: map<Id, Live>, seen: set<Ticket>, account: Id) {
      forall c :: c in out <==> c != "" && exists t :: t in seen && t.account == account && t.client == c
    }

    // What is already added up and what the remaining keys still hold make the whole.
    static ghost predicate Counted(out: map<Id, Live>, clients: map<Ticket, Live>, keys: set<Ticket>, account: Id, c: Id, streams: bool) {
      var so := if c !in out then 0 else if streams then out[c].streaming else out[c].active;
      so + Sum(Routes(clients, keys, account, c, streams)) == Sum(Routes(clients, clients.Keys, account, c, streams))
    }
  }
}
