/**
 * The webhook tables and queue of one tenant, updated in place by the dispatcher,
 * the delivery worker and the API. Each method is a step, or a run of steps, of
 * WebhookProtocol.
 */
module WebhookTables {
  import opened Wrappers
  import opened Collections
  import opened WebhookProtocol

  datatype ApiError = NOT_FOUND | CONFLICT

  predicate Subscribed(endpoints: map<nat, Endpoint>, e: nat, event: string) {
    e in endpoints && !endpoints[e].deleted && endpoints[e].enabled && event in endpoints[e].events
  }

  function Dispatches(list: seq<nat>): seq<Event> {
    seq(|list|, i requires 0 <= i < |list| => Dispatch(list[i]))
  }

  lemma {:induction false} RunSnoc(s: State, es: seq<Event>, e: Event)
    ensures Run(s, es + [e]) == Next(Run(s, es), e)
    decreases |es|
  {
    if |es| == 0 {
      assert Run(s, [e]) == Run(Next(s, e), [e][1..]);
      assert es + [e] == [e];
    } else {
      assert (es + [e])[1..] == es[1..] + [e];
      RunSnoc(Next(s, es[0]), es[1..], e);
    }
  }

  class WebhookStore {
    var endpoints: map<nat, Endpoint>
    var deliveries: map<nat, Delivery>
    var nextId: nat
    var queue: set<JobId>
    var seen: set<JobId>
    ghost var retries: multiset<nat>

    constructor ()
      ensures Snapshot() == EMPTY
    {
      endpoints, deliveries, nextId, queue, seen, retries := map[], map[], 0, {}, {}, multiset{};
    }

    ghost function Snapshot(): State
      reads this
    {
      State(endpoints, deliveries, nextId, queue, seen, retries)
    }

    // ---- Dispatch ---------------------------------------------------------

    method AddJob(j: JobId)
      modifies this`queue, this`seen
      ensures Snapshot() == Added(old(Snapshot()), j)
    {
      if j !in seen {
        queue, seen := queue + {j}, seen + {j};
      }
    }

    method EnqueueForEndpoint(e: nat) returns (d: nat)
      requires e in endpoints
      modifies this`deliveries, this`nextId, this`queue, this`seen
      ensures d == old(nextId) && Snapshot() == Next(old(Snapshot()), Dispatch(e))
      ensures deliveries == old(deliveries)[d := Delivery(e, PENDING, 0)] && Attempt(d, 1) in seen
    {
      d := nextId;
      deliveries := deliveries[d := Delivery(e, PENDING, 0)];
      nextId := nextId + 1;
      AddJob(Attempt(d, 1));
    }

    /** One delivery for every enabled endpoint subscribed to the event, each endpoint once. */
    method EnqueueForEvent(event: string) returns (list: seq<nat>)
      modifies this`deliveries, this`nextId, this`queue, this`seen
      ensures forall e :: e in list <==>
                e in endpoints && !endpoints[e].deleted && endpoints[e].enabled && event in endpoints[e].events
      ensures forall i, k :: 0 <= i < k < |list| ==> list[i] != list[k]
      ensures Snapshot() == Run(old(Snapshot()), Dispatches(list))
    {
      list := FindSubscribed(event);
      ghost var s := Snapshot();
      for i := 0 to |list|
        invariant Snapshot() == Run(s, Dispatches(list[..i]))
      {
        assert list[i] in list;
        assert Dispatches(list[..i + 1]) == Dispatches(list[..i]) + [Dispatch(list[i])];
        RunSnoc(s, Dispatches(list[..i]), Dispatch(list[i]));
        var _ := EnqueueForEndpoint(list[i]);
      }
      assert list[..|list|] == list;
    }

    method FindSubscribed(event: string) returns (list: seq<nat>)
      ensures forall e :: e in list <==> Subscribed(endpoints, e, event)
      ensures forall i, k :: 0 <= i < k < |list| ==> list[i] != list[k]
    {
      list := [];
      var left := endpoints.Keys;
      while left != {}
        invariant left <= endpoints.Keys
        invariant forall e :: e in list <==> Subscribed(endpoints, e, event) && e !in left
        invariant forall i, k :: 0 <= i < k < |list| ==> list[i] != list[k]
        decreases |left|
      {
        var e := PickFrom(left);
        left := left - {e};
        if Subscribed(endpoints, e, event) { list := list + [e]; }
      }
    }

    // ---- The delivery worker ----------------------------------------------

    /** One job from start to end; `outcome` is what the network did. */
    method Process(j: JobId, outcome: Outcome)
      requires WellFormed(Snapshot()) && j in queue
      modifies this`endpoints, this`deliveries, this`queue, this`seen
      ensures Snapshot() == Next(old(Snapshot()), Event.Process(j, outcome))
      ensures j.delivery in old(deliveries) ==>
                var before := old(deliveries)[j.delivery];
                var ep := old(endpoints)[before.endpoint];
                var after := deliveries[j.delivery];
                if before.status == DELIVERED then after == before
                else if !ep.enabled || ep.deleted then after == Delivery(before.endpoint, ABANDONED, before.attempts)
                else
                  && after.endpoint == before.endpoint && after.attempts == before.attempts + 1
                  && (after.status == DELIVERED <==> outcome == Sent)
                  && (after.status == ABANDONED <==>
                        outcome == Gone || outcome == Unresolvable || (outcome == Failed && after.attempts >= 8))
    {
      if j.delivery in deliveries { JobOutcome(Snapshot(), j, outcome); }
      queue := queue - {j};
      var d := j.delivery;
      if d !in deliveries { return; }
      if deliveries[d].status == DELIVERED { return; }
      var e := deliveries[d].endpoint;
      if !endpoints[e].enabled || endpoints[e].deleted {
        Abandon(d, deliveries[d].attempts);
        return;
      }
      Deliver(d, e, outcome);
    }

    method Deliver(d: nat, e: nat, outcome: Outcome)
      requires d in deliveries && deliveries[d].endpoint == e && e in endpoints
      modifies this`endpoints, this`deliveries, this`queue, this`seen
      ensures Snapshot() == AfterAttempt(old(Snapshot()), d, outcome)
    {
      var attempt := deliveries[d].attempts + 1;
      if outcome == Unresolvable {
        FinalizeFailure(d, e, attempt, false);
        return;
      }
      if outcome == Sent {
        FinalizeSuccess(d, e, attempt);
        return;
      }
      if outcome == Gone {
        FinalizeFailure(d, e, attempt, true);
        return;
      }
      var delay := DelayBeforeNextAttempt(attempt);
      if delay.None? {
        FinalizeFailure(d, e, attempt, false);
        return;
      }
      deliveries := deliveries[d := deliveries[d].(status := PENDING, attempts := attempt)];
      AddJob(Attempt(d, attempt + 1));
    }

    method FinalizeSuccess(d: nat, e: nat, attempt: nat)
      requires d in deliveries && e in endpoints
      modifies this`endpoints, this`deliveries
      ensures deliveries == old(deliveries)[d := old(deliveries)[d].(status := DELIVERED, attempts := attempt)]
      ensures endpoints == old(endpoints)[e := old(endpoints)[e].(failures := 0)]
    {
      deliveries := deliveries[d := deliveries[d].(status := DELIVERED, attempts := attempt)];
      endpoints := endpoints[e := endpoints[e].(failures := 0)];
    }

    method FinalizeFailure(d: nat, e: nat, attempt: nat, gone: bool)
      requires d in deliveries && deliveries[d].endpoint == e && e in endpoints
      modifies this`endpoints, this`deliveries
      ensures Snapshot() == AfterFailure(old(Snapshot()), d, attempt, gone)
      ensures deliveries == old(deliveries)[d := Delivery(e, ABANDONED, attempt)]
      ensures var ep := old(endpoints)[e];
              endpoints == old(endpoints)[e := ep.(failures := ep.failures + 1,
                                                   enabled := ep.enabled && !gone && ep.failures + 1 < 5)]
    {
      Abandon(d, attempt);
      endpoints := endpoints[e := endpoints[e].(failures := endpoints[e].failures + 1)];
      var shouldDisable := gone || endpoints[e].failures >= AUTO_DISABLE_AFTER;
      if shouldDisable && endpoints[e].enabled {
        endpoints := endpoints[e := endpoints[e].(enabled := false)];
      }
    }

    method Abandon(d: nat, attempts: nat)
      requires d in deliveries
      modifies this`deliveries
      ensures deliveries == old(deliveries)[d := old(deliveries)[d].(status := ABANDONED, attempts := attempts)]
    {
      deliveries := deliveries[d := deliveries[d].(status := ABANDONED, attempts := attempts)];
    }

    // ---- The API ----------------------------------------------------------

    method RetryDelivery(e: nat, d: nat, at: int) returns (r: Result<nat, ApiError>)
      modifies this`deliveries, this`queue, this`seen, this`retries
      ensures r.Err? ==> Snapshot() == old(Snapshot())
      ensures r == (if !Active(old(Snapshot()), e) || d !in old(deliveries) || old(deliveries)[d].endpoint != e
                    then Err(NOT_FOUND)
                    else if old(deliveries)[d].status == DELIVERED then Err(CONFLICT)
                    else Ok(d))
      ensures r.Ok? ==> Snapshot() == Next(old(Snapshot()), Retry(d, at))
      ensures r.Ok? ==>
                && deliveries == old(deliveries)[d := Delivery(e, PENDING, old(deliveries)[d].attempts)]
                && queue == old(queue) + (if Manual(d, at) in old(seen) then {} else {Manual(d, at)})
    {
      if e !in endpoints || endpoints[e].deleted { return Err(NOT_FOUND); }
      if d !in deliveries || deliveries[d].endpoint != e { return Err(NOT_FOUND); }
      if deliveries[d].status == DELIVERED { return Err(CONFLICT); }
      deliveries := deliveries[d := deliveries[d].(status := PENDING)];
      retries := retries + multiset{d};
      AddJob(Manual(d, at));
      r := Ok(d);
    }

    /** Only the fields given change. */
    method UpdateEndpoint(e: nat, subscribe: Option<set<string>>, enable: Option<bool>) returns (r: Result<(), ApiError>)
      modifies this`endpoints
      ensures r.Ok? <==> Active(old(Snapshot()), e)
      ensures Snapshot() == Next(old(Snapshot()), Update(e, subscribe, enable))
      ensures r.Err? ==> endpoints == old(endpoints)
      ensures r.Ok? ==>
                var ep := old(endpoints)[e];
                endpoints == old(endpoints)[e := Endpoint(if subscribe.Some? then subscribe.value else ep.events,
                                                          if enable.Some? then enable.value else ep.enabled, false, ep.failures)]
    {
      if e !in endpoints || endpoints[e].deleted { return Err(NOT_FOUND); }
      if subscribe.Some? { endpoints := endpoints[e := endpoints[e].(events := subscribe.value)]; }
      if enable.Some? { endpoints := endpoints[e := endpoints[e].(enabled := enable.value)]; }
      r := Ok(());
    }

    method RemoveEndpoint(e: nat) returns (r: Result<(), ApiError>)
      modifies this`endpoints
      ensures r.Ok? <==> Active(old(Snapshot()), e)
      ensures Snapshot() == Next(old(Snapshot()), Remove(e))
      ensures r.Err? ==> endpoints == old(endpoints)
      ensures r.Ok? ==>
                endpoints == old(endpoints)[e := Endpoint(old(endpoints)[e].events, false, true, old(endpoints)[e].failures)]
    {
      if e !in endpoints || endpoints[e].deleted { return Err(NOT_FOUND); }
      endpoints := endpoints[e := endpoints[e].(enabled := false, deleted := true)];
      r := Ok(());
    }
  }
}
