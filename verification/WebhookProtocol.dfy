/**
 * Webhook deliveries of one tenant as a state machine: dispatch, delivery jobs,
 * manual retries and endpoint changes, in any order.
 */
module WebhookProtocol {
  import opened Wrappers
  import opened Collections

  // ---- The retry table ----------------------------------------------------

  /** Accumulated waiting time before each attempt, in milliseconds. */
  const CUMULATIVE_DELAYS_MS: seq<int> :=
    [0, 1_000, 6_000, 36_000, 300_000, 2_100_000, 9_000_000, 43_200_000]

  const MAX_DELIVERY_ATTEMPTS: nat := |CUMULATIVE_DELAYS_MS|

  function DelayBeforeNextAttempt(attempt: int): Option<int> {
    if attempt < 1 || attempt >= |CUMULATIVE_DELAYS_MS| then None
    else Some(CUMULATIVE_DELAYS_MS[attempt] - CUMULATIVE_DELAYS_MS[attempt - 1])
  }

  /** The waits asked for after attempts 1, .., n. */
  function TotalDelay(n: nat): int {
    if n == 0 then 0 else TotalDelay(n - 1) + DelayBeforeNextAttempt(n).GetOr(0)
  }

  /** The differences add up to the table again, every wait is positive, and there are seven of them. */
  lemma {:induction false} DelaysFollowTable(n: nat)
    requires n < MAX_DELIVERY_ATTEMPTS
    ensures TotalDelay(n) == CUMULATIVE_DELAYS_MS[n]
    ensures forall k :: DelayBeforeNextAttempt(k).Some? <==> 1 <= k < MAX_DELIVERY_ATTEMPTS
    ensures forall k :: DelayBeforeNextAttempt(k).Some? ==> DelayBeforeNextAttempt(k).value > 0
    ensures TotalDelay(7) == 12 * 3_600_000 && MAX_DELIVERY_ATTEMPTS == 8
    ensures CUMULATIVE_DELAYS_MS == [0, 1_000, 6_000, 36_000, 5 * 60_000, 35 * 60_000, 150 * 60_000, 12 * 3_600_000]
  {
    if n > 0 { DelaysFollowTable(n - 1); }
  }

  // ---- The machine --------------------------------------------------------

  const AUTO_DISABLE_AFTER := 5

  datatype Endpoint = Endpoint(events: set<string>, enabled: bool, deleted: bool, failures: nat)

  datatype Status = PENDING | DELIVERED | ABANDONED

  datatype Delivery = Delivery(endpoint: nat, status: Status, attempts: nat)

  /** `<delivery>-<attempt>`, or `<delivery>-retry-<ms>`. */
  datatype JobId = Attempt(delivery: nat, number: nat) | Manual(delivery: nat, at: int)

  datatype Outcome = Sent | Gone | Failed | Unresolvable

  /** `retries` counts the accepted manual retries of each delivery. */
  datatype State = State(
    endpoints: map<nat, Endpoint>,
    deliveries: map<nat, Delivery>,
    nextId: nat,
    queue: set<JobId>,
    seen: set<JobId>,
    retries: multiset<nat>)

  datatype Event =
    | Create(endpoint: nat, events: set<string>)
    | Dispatch(endpoint: nat)
    | Process(job: JobId, outcome: Outcome)
    | Retry(delivery: nat, at: int)
    | Update(endpoint: nat, subscribe: Option<set<string>>, enable: Option<bool>)
    | Remove(endpoint: nat)

  /** queue.add: a job id the queue has seen is ignored. */
  function Added(s: State, j: JobId): State {
    if j in s.seen then s else s.(queue := s.queue + {j}, seen := s.seen + {j})
  }

  predicate Active(s: State, e: nat) {
    e in s.endpoints && !s.endpoints[e].deleted
  }

  function AfterDispatch(s: State, e: nat): State {
    if e in s.endpoints then
      Added(s.(deliveries := s.deliveries[s.nextId := Delivery(e, PENDING, 0)], nextId := s.nextId + 1),
            Attempt(s.nextId, 1))
    else s
  }

  predicate Retriable(s: State, d: nat) {
    d in s.deliveries && Active(s, s.deliveries[d].endpoint) && s.deliveries[d].status != DELIVERED
  }

  function AfterRetry(s: State, d: nat, at: int): State {
    if Retriable(s, d) then
      Added(s.(deliveries := s.deliveries[d := s.deliveries[d].(status := PENDING)],
               retries := s.retries + multiset{d}),
            Manual(d, at))
    else s
  }

  function WithDelivery(s: State, d: nat, status: Status, attempts: nat): State
    requires d in s.deliveries
  {
    s.(deliveries := s.deliveries[d := s.deliveries[d].(status := status, attempts := attempts)])
  }

  function Failing(ep: Endpoint, gone: bool): Endpoint {
    var failures := ep.failures + 1;
    ep.(failures := failures, enabled := ep.enabled && !gone && failures < AUTO_DISABLE_AFTER)
  }

  /** finalizeFailure: no more attempts for this delivery, one more failure for its endpoint. */
  function AfterFailure(s: State, d: nat, attempt: nat, gone: bool): State
    requires d in s.deliveries && s.deliveries[d].endpoint in s.endpoints
  {
    var e := s.deliveries[d].endpoint;
    WithDelivery(s, d, ABANDONED, attempt).(endpoints := s.endpoints[e := Failing(s.endpoints[e], gone)])
  }

  function AfterAttempt(s: State, d: nat, outcome: Outcome): State
    requires d in s.deliveries && s.deliveries[d].endpoint in s.endpoints
  {
    var e := s.deliveries[d].endpoint;
    var attempt := s.deliveries[d].attempts + 1;
    match outcome
    case Unresolvable => AfterFailure(s, d, attempt, false)
    case Sent => WithDelivery(s, d, DELIVERED, attempt).(endpoints := s.endpoints[e := s.endpoints[e].(failures := 0)])
    case Gone => AfterFailure(s, d, attempt, true)
    case Failed =>
      if DelayBeforeNextAttempt(attempt).None? then AfterFailure(s, d, attempt, false)
      else Added(WithDelivery(s, d, PENDING, attempt), Attempt(d, attempt + 1))
  }

  /** A job attempts its delivery only if that is not delivered yet and its endpoint is active and enabled. */
  predicate Attempts(s: State, j: JobId) {
    && j.delivery in s.deliveries
    && s.deliveries[j.delivery].status != DELIVERED
    && s.deliveries[j.delivery].endpoint in s.endpoints
    && s.endpoints[s.deliveries[j.delivery].endpoint].enabled
    && !s.endpoints[s.deliveries[j.delivery].endpoint].deleted
  }

  function AfterProcess(s: State, j: JobId, outcome: Outcome): State {
    if j !in s.queue then s
    else
      var taken := s.(queue := s.queue - {j});
      var d := j.delivery;
      if Attempts(taken, j) then AfterAttempt(taken, d, outcome)
      else if d in s.deliveries && s.deliveries[d].status != DELIVERED
      then WithDelivery(taken, d, ABANDONED, s.deliveries[d].attempts)
      else taken
  }

  function Next(s: State, ev: Event): State {
    match ev
    case Create(e, events) =>
      if e in s.endpoints then s else s.(endpoints := s.endpoints[e := Endpoint(events, true, false, 0)])
    case Dispatch(e) => AfterDispatch(s, e)
    case Process(j, outcome) => AfterProcess(s, j, outcome)
    case Retry(d, at) => AfterRetry(s, d, at)
    case Update(e, subscribe, enable) =>
      if Active(s, e) then
        s.(endpoints := s.endpoints[e := s.endpoints[e].(events := subscribe.GetOr(s.endpoints[e].events),
                                                         enabled := enable.GetOr(s.endpoints[e].enabled))])
      else s
    case Remove(e) =>
      if Active(s, e) then s.(endpoints := s.endpoints[e := s.endpoints[e].(enabled := false, deleted := true)]) else s
  }

  function Run(s: State, es: seq<Event>): State
    decreases |es|
  {
    if |es| == 0 then s else Run(Next(s, es[0]), es[1..])
  }

  const EMPTY := State(map[], map[], 0, {}, {}, multiset{})

  // ---- Job ids ------------------------------------------------------------

  /** An attempt job id the queue has seen is at most one ahead of the attempts made. */
  predicate KnownJob(s: State, j: JobId) {
    j.delivery in s.deliveries && (j.Attempt? ==> 1 <= j.number <= s.deliveries[j.delivery].attempts + 1)
  }

  ghost predicate WellFormed(s: State) {
    && s.queue <= s.seen
    && (forall j :: j in s.seen ==> KnownJob(s, j))
    && (forall d :: d in s.deliveries ==> d < s.nextId && s.deliveries[d].endpoint in s.endpoints)
  }

  lemma StepWellFormed(s: State, ev: Event)
    requires WellFormed(s)
    ensures WellFormed(Next(s, ev))
  {
    var t := Next(s, ev);
    forall j | j in t.seen ensures KnownJob(t, j) {
      assert j in s.seen ==> KnownJob(s, j);
    }
  }

  /**
   * The queue never swallows an attempt: the id given to a new delivery or to the
   * next attempt of a failed one has never been added before.
   */
  lemma AttemptIdsAreNew(s: State, ev: Event)
    requires WellFormed(s)
    ensures ev.Dispatch? && ev.endpoint in s.endpoints ==>
              Attempt(s.nextId, 1) !in s.seen && Attempt(s.nextId, 1) in Next(s, ev).queue
    ensures ev.Process? && ev.job in s.queue && Attempts(s, ev.job) && ev.outcome.Failed?
            && DelayBeforeNextAttempt(s.deliveries[ev.job.delivery].attempts + 1).Some? ==>
              var next := Attempt(ev.job.delivery, s.deliveries[ev.job.delivery].attempts + 2);
              next !in s.seen && next in Next(s, ev).queue
  {
    assert !KnownJob(s, Attempt(s.nextId, 1));
    if ev.Process? && ev.job.delivery in s.deliveries {
      assert !KnownJob(s, Attempt(ev.job.delivery, s.deliveries[ev.job.delivery].attempts + 2));
    }
  }

  // ---- What an executed job does ------------------------------------------

  /** What one attempt makes of a delivery with `attempts` attempts behind it: the eighth failure is the last. */
  predicate GoneFor(outcome: Outcome, attempts: nat) {
    outcome == Gone || outcome == Unresolvable || (outcome == Failed && attempts + 1 >= 8)
  }

  /**
   * The outcome of a job, field by field. A job attempts its delivery when that is not
   * delivered yet and its endpoint is enabled; the attempt is counted, a success
   * delivers for good, a final failure abandons, any other failure queues the next attempt.
   */
  lemma JobOutcome(s: State, j: JobId, outcome: Outcome)
    requires WellFormed(s) && j in s.queue && j.delivery in s.deliveries
    ensures var t := Next(s, Process(j, outcome));
            var d, e := j.delivery, s.deliveries[j.delivery].endpoint;
            var before, ep := s.deliveries[d], s.endpoints[e];
            if before.status == DELIVERED then t == s.(queue := s.queue - {j})
            else if !ep.enabled || ep.deleted then
              t == s.(queue := s.queue - {j}, deliveries := s.deliveries[d := Delivery(e, ABANDONED, before.attempts)])
            else
              && t.deliveries == s.deliveries[d := Delivery(e, t.deliveries[d].status, before.attempts + 1)]
              && (t.deliveries[d].status == DELIVERED <==> outcome == Sent)
              && (t.deliveries[d].status == ABANDONED <==> GoneFor(outcome, before.attempts))
              && t.queue == s.queue - {j} + (if t.deliveries[d].status == PENDING then {Attempt(d, before.attempts + 2)} else {})
              && t.endpoints == s.endpoints[e := ep.(failures := t.endpoints[e].failures, enabled := t.endpoints[e].enabled)]
              && t.endpoints[e].failures == (if outcome == Sent then 0
                                             else if GoneFor(outcome, before.attempts) then ep.failures + 1
                                             else ep.failures)
              && (t.endpoints[e].enabled <==>
                    outcome != Gone && (GoneFor(outcome, before.attempts) ==> ep.failures + 1 < 5))
  {
    assert KnownJob(s, j);
    AttemptIdsAreNew(s, Process(j, outcome));
  }

  /** A new endpoint starts enabled with a clean record; creating one touches no other. */
  lemma CreatedIsEnabled(s: State, e: nat, events: set<string>)
    requires e !in s.endpoints
    ensures Next(s, Create(e, events)) == s.(endpoints := s.endpoints[e := Endpoint(events, true, false, 0)])
  {
  }

  /** What switches an endpoint off: removal, an update that says so, a 410, or a fifth failure in a row. */
  lemma DisabledIff(s: State, ev: Event, e: nat)
    requires WellFormed(s) && e in s.endpoints && s.endpoints[e].enabled && !s.endpoints[e].deleted
    ensures e in Next(s, ev).endpoints
    ensures !Next(s, ev).endpoints[e].enabled <==>
              || ev == Remove(e)
              || (ev.Update? && ev.endpoint == e && ev.enable == Some(false))
              || (ev.Process? && ev.job in s.queue && ev.job.delivery in s.deliveries
                  && s.deliveries[ev.job.delivery].endpoint == e && s.deliveries[ev.job.delivery].status != DELIVERED
                  && (ev.outcome == Gone
                      || (GoneFor(ev.outcome, s.deliveries[ev.job.delivery].attempts) && s.endpoints[e].failures + 1 >= 5)))
  {
    if ev.Process? && ev.job in s.queue && ev.job.delivery in s.deliveries { JobOutcome(s, ev.job, ev.outcome); }
  }

  /** The step is a successful attempt of the delivery. */
  predicate SentNow(s: State, ev: Event, d: nat) {
    && ev.Process? && ev.outcome == Sent && ev.job in s.queue && ev.job.delivery == d
    && d in s.deliveries && s.deliveries[d].status != DELIVERED
    && s.deliveries[d].endpoint in s.endpoints
    && s.endpoints[s.deliveries[d].endpoint].enabled && !s.endpoints[s.deliveries[d].endpoint].deleted
  }

  /** The successful attempts of a delivery in a run. */
  function Sends(s: State, es: seq<Event>, d: nat): nat
    decreases |es|
  {
    if |es| == 0 then 0 else (if SentNow(s, es[0], d) then 1 else 0) + Sends(Next(s, es[0]), es[1..], d)
  }

  predicate Delivered(s: State, d: nat) {
    d in s.deliveries && s.deliveries[d].status == DELIVERED
  }

  lemma StepDelivered(s: State, ev: Event, d: nat)
    requires WellFormed(s)
    ensures Delivered(Next(s, ev), d) <==> Delivered(s, d) || SentNow(s, ev, d)
    ensures !(Delivered(s, d) && SentNow(s, ev, d))
  {
    if ev.Process? && ev.job in s.queue && ev.job.delivery in s.deliveries { JobOutcome(s, ev.job, ev.outcome); }
  }

  /** A delivery ends DELIVERED if and only if one of its attempts succeeded, and at most one ever does. */
  lemma {:induction false} DeliveredIffSent(s: State, es: seq<Event>, d: nat)
    requires WellFormed(s)
    ensures Sends(s, es, d) == if Delivered(Run(s, es), d) && !Delivered(s, d) then 1 else 0
    ensures Delivered(s, d) ==> Delivered(Run(s, es), d)
    decreases |es|
  {
    if |es| > 0 {
      StepDelivered(s, es[0], d);
      StepWellFormed(s, es[0]);
      DeliveredIffSent(Next(s, es[0]), es[1..], d);
    }
  }

  // ---- No delivery is lost ------------------------------------------------

  ghost predicate HasJob(s: State, d: nat) {
    exists j :: j in s.queue && j.delivery == d
  }

  /** Every pending delivery has a job that will attempt it. */
  ghost predicate Covered(s: State) {
    forall d :: d in s.deliveries && s.deliveries[d].status == PENDING ==> HasJob(s, d)
  }

  /** A retry whose job id the queue saw earlier in the same millisecond, with no other job left. */
  ghost predicate Swallowed(s: State, ev: Event) {
    && ev.Retry?
    && Retriable(s, ev.delivery)
    && Manual(ev.delivery, ev.at) in s.seen
    && !HasJob(s, ev.delivery)
  }

  lemma AddedCovers(s: State, j: JobId, d: nat)
    ensures HasJob(s, d) ==> HasJob(Added(s, j), d)
    ensures j !in s.seen && j.delivery == d ==> HasJob(Added(s, j), d)
    ensures HasJob(Added(s, j), d) ==> HasJob(s, d) || (j !in s.seen && j.delivery == d)
  {
    if j !in s.seen && j.delivery == d { assert j in Added(s, j).queue; }
  }

  lemma ProcessCovered(s: State, j: JobId, outcome: Outcome)
    requires WellFormed(s) && Covered(s) && j in s.queue
    ensures Covered(AfterProcess(s, j, outcome))
  {
    var t := AfterProcess(s, j, outcome);
    AttemptIdsAreNew(s, Process(j, outcome));
    forall d | d in t.deliveries && t.deliveries[d].status == PENDING ensures HasJob(t, d) {
      if d != j.delivery {
        assert HasJob(s, d);
        var k :| k in s.queue && k.delivery == d;
        assert k in t.queue;
      } else {
        assert Attempt(d, s.deliveries[d].attempts + 2) in t.queue;
      }
    }
  }

  lemma DispatchCovered(s: State, e: nat)
    requires WellFormed(s) && Covered(s)
    ensures Covered(AfterDispatch(s, e))
  {
    var t := AfterDispatch(s, e);
    AttemptIdsAreNew(s, Dispatch(e));
    forall d | d in t.deliveries && t.deliveries[d].status == PENDING ensures HasJob(t, d) {
      if d in s.deliveries {
        assert HasJob(s, d);
        var k :| k in s.queue && k.delivery == d;
        assert k in t.queue;
      }
    }
  }

  lemma RetryCovered(s: State, d: nat, at: int)
    requires WellFormed(s) && Covered(s)
    ensures Covered(AfterRetry(s, d, at)) <==> !Swallowed(s, Retry(d, at))
  {
    var t := AfterRetry(s, d, at);
    if Retriable(s, d) {
      var marked := s.(deliveries := s.deliveries[d := s.deliveries[d].(status := PENDING)], retries := s.retries + multiset{d});
      forall x ensures HasJob(marked, x) == HasJob(s, x) {}
      AddedCovers(marked, Manual(d, at), d);
      forall x | x != d && x in t.deliveries && t.deliveries[x].status == PENDING ensures HasJob(t, x) {
        assert HasJob(s, x);
        AddedCovers(marked, Manual(d, at), x);
      }
      assert t.deliveries[d].status == PENDING;
    }
  }

  /** Exactly one kind of step can leave a pending delivery without a job. */
  lemma StepCovered(s: State, ev: Event)
    requires WellFormed(s) && Covered(s)
    ensures Covered(Next(s, ev)) <==> !Swallowed(s, ev)
  {
    match ev
    case Dispatch(e) => DispatchCovered(s, e);
    case Process(j, outcome) => if j in s.queue { ProcessCovered(s, j, outcome); }
    case Retry(d, at) => RetryCovered(s, d, at);
    case _ =>
      var t := Next(s, ev);
      assert t.deliveries == s.deliveries;
      forall x ensures HasJob(t, x) == HasJob(s, x) {}
  }

  /** No step of the run is a swallowed retry. */
  ghost predicate NoneSwallowed(s: State, es: seq<Event>)
    decreases |es|
  {
    |es| == 0 || (!Swallowed(s, es[0]) && NoneSwallowed(Next(s, es[0]), es[1..]))
  }

  lemma {:induction false} RunCovered(s: State, es: seq<Event>)
    requires WellFormed(s) && Covered(s) && NoneSwallowed(s, es)
    ensures WellFormed(Run(s, es)) && Covered(Run(s, es))
    decreases |es|
  {
    if |es| > 0 {
      StepWellFormed(s, es[0]);
      StepCovered(s, es[0]);
      RunCovered(Next(s, es[0]), es[1..]);
    }
  }

  /**
   * Over every run without a swallowed retry, every pending delivery has a queued
   * job; so once the queue is empty every delivery is delivered or abandoned.
   */
  lemma NoDeliveryLost(es: seq<Event>)
    requires NoneSwallowed(EMPTY, es)
    ensures Covered(Run(EMPTY, es))
    ensures var t := Run(EMPTY, es); t.queue == {} ==> forall d :: d in t.deliveries ==> t.deliveries[d].status != PENDING
  {
    RunCovered(EMPTY, es);
  }

  /** An abandoned delivery retried twice in one millisecond, its job having run in between: it stays pending with no job. */
  lemma RetryCanBeSwallowed(s: State, d: nat, at: int)
    requires WellFormed(s) && Retriable(s, d) && s.endpoints[s.deliveries[d].endpoint].enabled
    requires !HasJob(s, d) && Manual(d, at) !in s.seen
    ensures var t := Run(s, [Retry(d, at), Process(Manual(d, at), Unresolvable), Retry(d, at)]);
            d in t.deliveries && t.deliveries[d].status == PENDING && !HasJob(t, d)
  {
    var j := Manual(d, at);
    var s1 := Next(s, Retry(d, at));
    assert s1.queue == s.queue + {j} && Attempts(s1, j);
    var s2 := Next(s1, Process(j, Unresolvable));
    assert s2.queue == s.queue && s2.deliveries[d].status == ABANDONED && j in s2.seen;
    var s3 := Next(s2, Retry(d, at));
    assert s3.queue == s.queue && s3.deliveries[d].status == PENDING;
    assert HasJob(s3, d) == HasJob(s, d);
    RunThree(s, Retry(d, at), Process(j, Unresolvable), Retry(d, at));
  }

  lemma RunThree(s: State, a: Event, b: Event, c: Event)
    ensures Run(s, [a, b, c]) == Next(Next(Next(s, a), b), c)
  {
    assert [a, b, c][1..] == [b, c] && [b, c][1..] == [c];
    assert Run(Next(Next(s, a), b), [c]) == Run(Next(Next(Next(s, a), b), c), [c][1..]);
  }

  // ---- DELIVERED is final -------------------------------------------------

  lemma {:induction false} DeliveredStays(s: State, es: seq<Event>, d: nat)
    requires WellFormed(s) && d in s.deliveries && s.deliveries[d].status == DELIVERED
    ensures d in Run(s, es).deliveries && Run(s, es).deliveries[d] == s.deliveries[d]
    decreases |es|
  {
    if |es| > 0 {
      StepWellFormed(s, es[0]);
      assert Next(s, es[0]).deliveries[d] == s.deliveries[d];
      DeliveredStays(Next(s, es[0]), es[1..], d);
    }
  }

  // ---- At most 8 + R attempts ---------------------------------------------

  ghost function JobsFor(queue: set<JobId>, d: nat): set<JobId> {
    set j | j in queue && j.delivery == d
  }

  /** What a delivery has used, and still may use, of its eight attempts and its retries. */
  ghost predicate WithinBudget(s: State, d: nat) {
    d in s.deliveries ==> Max(s.deliveries[d].attempts, 7) + |JobsFor(s.queue, d)| <= MAX_DELIVERY_ATTEMPTS + s.retries[d]
  }

  lemma JobTaken(queue: set<JobId>, j: JobId, d: nat)
    requires j in queue
    ensures |JobsFor(queue - {j}, d)| == |JobsFor(queue, d)| - if j.delivery == d then 1 else 0
  {
    if j.delivery == d {
      OneMore(JobsFor(queue - {j}, d), JobsFor(queue, d), j);
    } else {
      SameMembers(JobsFor(queue - {j}, d), JobsFor(queue, d));
    }
  }

  lemma JobAdded(queue: set<JobId>, j: JobId, d: nat)
    requires j !in queue
    ensures |JobsFor(queue + {j}, d)| == |JobsFor(queue, d)| + if j.delivery == d then 1 else 0
  {
    assert queue + {j} - {j} == queue;
    JobTaken(queue + {j}, j, d);
  }

  lemma ProcessWithinBudget(s: State, j: JobId, outcome: Outcome, d: nat)
    requires WellFormed(s) && j in s.queue && WithinBudget(s, d)
    ensures WithinBudget(AfterProcess(s, j, outcome), d)
  {
    var t := AfterProcess(s, j, outcome);
    AttemptIdsAreNew(s, Process(j, outcome));
    JobTaken(s.queue, j, d);
    if t.queue != s.queue - {j} {
      var next := Attempt(j.delivery, s.deliveries[j.delivery].attempts + 2);
      assert t.queue == s.queue - {j} + {next};
      JobAdded(s.queue - {j}, next, d);
    }
  }

  lemma DispatchWithinBudget(s: State, e: nat, d: nat)
    requires WellFormed(s) && WithinBudget(s, d)
    ensures WithinBudget(AfterDispatch(s, e), d)
  {
    AttemptIdsAreNew(s, Dispatch(e));
    var first := Attempt(s.nextId, 1);
    if first !in s.queue { JobAdded(s.queue, first, d); }
    if d !in s.deliveries {
      assert forall j :: j in s.queue ==> KnownJob(s, j);
      SameMembers({}, JobsFor(s.queue, d));
    }
  }

  lemma RetryWithinBudget(s: State, r: nat, at: int, d: nat)
    requires WellFormed(s) && WithinBudget(s, d)
    ensures WithinBudget(AfterRetry(s, r, at), d)
  {
    var j := Manual(r, at);
    if j !in s.queue { JobAdded(s.queue, j, d); }
  }

  lemma StepWithinBudget(s: State, ev: Event, d: nat)
    requires WellFormed(s) && WithinBudget(s, d)
    ensures WithinBudget(Next(s, ev), d)
  {
    match ev
    case Dispatch(e) => DispatchWithinBudget(s, e, d);
    case Process(j, outcome) => if j in s.queue { ProcessWithinBudget(s, j, outcome, d); }
    case Retry(r, at) => RetryWithinBudget(s, r, at, d);
    case _ =>
  }

  lemma {:induction false} RunWithinBudget(s: State, es: seq<Event>, d: nat)
    requires WellFormed(s) && WithinBudget(s, d)
    ensures WellFormed(Run(s, es)) && WithinBudget(Run(s, es), d)
    decreases |es|
  {
    if |es| > 0 {
      StepWellFormed(s, es[0]);
      StepWithinBudget(s, es[0], d);
      RunWithinBudget(Next(s, es[0]), es[1..], d);
    }
  }

  /** Over every run a delivery with R accepted manual retries is attempted at most 8 + R times. */
  lemma AttemptsAreBounded(es: seq<Event>, d: nat)
    requires d in Run(EMPTY, es).deliveries
    ensures var t := Run(EMPTY, es); t.deliveries[d].attempts <= MAX_DELIVERY_ATTEMPTS + t.retries[d]
  {
    RunWithinBudget(EMPTY, es, d);
  }

  // ---- Jobs do not run for ever -------------------------------------------

  /** The reschedulings each delivery has left. */
  function Left(deliveries: map<nat, Delivery>): map<nat, int> {
    map d | d in deliveries :: Max(0, MAX_DELIVERY_ATTEMPTS - deliveries[d].attempts)
  }

  ghost function Measure(s: State): int {
    Sum(Left(s.deliveries)) + |s.queue|
  }

  lemma {:induction false} SumNonNegative(m: map<nat, int>)
    requires forall k :: k in m ==> m[k] >= 0
    ensures Sum(m) >= 0
    decreases |m|
  {
    if m.Keys != {} {
      HasMember(m.Keys);
      var k :| k in m.Keys && Sum(m) == m[k] + Sum(m - {k});
      SumNonNegative(m - {k});
    }
  }

  lemma MeasureNonNegative(s: State)
    ensures Measure(s) >= 0
  {
    SumNonNegative(Left(s.deliveries));
  }

  lemma LeftUpdate(deliveries: map<nat, Delivery>, d: nat, row: Delivery)
    ensures Sum(Left(deliveries[d := row])) == Sum(Left(deliveries))
              - (if d in deliveries then Max(0, MAX_DELIVERY_ATTEMPTS - deliveries[d].attempts) else 0)
              + Max(0, MAX_DELIVERY_ATTEMPTS - row.attempts)
  {
    LeftOfUpdate(deliveries, d, row);
    SumUpdate(Left(deliveries), d, Max(0, MAX_DELIVERY_ATTEMPTS - row.attempts));
  }

  lemma LeftOfUpdate(deliveries: map<nat, Delivery>, d: nat, row: Delivery)
    ensures Left(deliveries[d := row]) == Left(deliveries)[d := Max(0, MAX_DELIVERY_ATTEMPTS - row.attempts)]
  {
  }

  /** Executing a queued job always brings the end nearer. */
  lemma ProcessDecreases(s: State, j: JobId, outcome: Outcome)
    requires WellFormed(s) && j in s.queue
    ensures Measure(AfterProcess(s, j, outcome)) < Measure(s)
  {
    var t := AfterProcess(s, j, outcome);
    AttemptIdsAreNew(s, Process(j, outcome));
    if t.deliveries != s.deliveries {
      assert t.deliveries == s.deliveries[j.delivery := t.deliveries[j.delivery]];
      LeftUpdate(s.deliveries, j.delivery, t.deliveries[j.delivery]);
    }
  }

  /** How much an event can add: eight reschedulings and one job for a new delivery, one job for a retry. */
  function Supply(ev: Event): nat {
    match ev
    case Dispatch(_) => MAX_DELIVERY_ATTEMPTS + 1
    case Retry(_, _) => 1
    case _ => 0
  }

  predicate Executes(s: State, ev: Event) {
    ev.Process? && ev.job in s.queue
  }

  lemma StepMeasure(s: State, ev: Event)
    requires WellFormed(s)
    ensures Measure(Next(s, ev)) + (if Executes(s, ev) then 1 else 0) <= Measure(s) + Supply(ev)
  {
    match ev
    case Dispatch(e) => DispatchMeasure(s, e);
    case Process(j, outcome) => if j in s.queue { ProcessDecreases(s, j, outcome); }
    case Retry(d, at) => RetryMeasure(s, d, at);
    case _ =>
  }

  lemma DispatchMeasure(s: State, e: nat)
    requires WellFormed(s)
    ensures Measure(AfterDispatch(s, e)) <= Measure(s) + MAX_DELIVERY_ATTEMPTS + 1
  {
    if e in s.endpoints { LeftUpdate(s.deliveries, s.nextId, Delivery(e, PENDING, 0)); }
  }

  lemma RetryMeasure(s: State, d: nat, at: int)
    requires WellFormed(s)
    ensures Measure(AfterRetry(s, d, at)) <= Measure(s) + 1
  {
    if Retriable(s, d) { LeftUpdate(s.deliveries, d, s.deliveries[d].(status := PENDING)); }
  }

  /** The jobs executed in a run, and what its dispatches and retries supplied. */
  function Executed(s: State, es: seq<Event>): nat
    decreases |es|
  {
    if |es| == 0 then 0 else (if Executes(s, es[0]) then 1 else 0) + Executed(Next(s, es[0]), es[1..])
  }

  function Supplied(es: seq<Event>): nat
    decreases |es|
  {
    if |es| == 0 then 0 else Supply(es[0]) + Supplied(es[1..])
  }

  /**
   * From any reachable state a run executes at most Measure(s) jobs plus 9 per
   * dispatch and 1 per retry: without new work, delivery jobs come to an end.
   */
  lemma {:induction false} JobsComeToAnEnd(s: State, es: seq<Event>)
    requires WellFormed(s)
    ensures Executed(s, es) <= Measure(s) + Supplied(es)
    decreases |es|
  {
    if |es| == 0 {
      MeasureNonNegative(s);
    } else {
      StepMeasure(s, es[0]);
      StepWellFormed(s, es[0]);
      JobsComeToAnEnd(Next(s, es[0]), es[1..]);
    }
  }

  // ---- Automatic disabling ------------------------------------------------

  predicate FailingIsDisabled(s: State) {
    forall e :: e in s.endpoints && s.endpoints[e].enabled ==> s.endpoints[e].failures < AUTO_DISABLE_AFTER
  }

  /** Unless someone enables it again, an endpoint with five failures in a row is disabled. */
  lemma {:induction false} FailingEndpointsAreDisabled(s: State, es: seq<Event>)
    requires FailingIsDisabled(s) && forall i :: 0 <= i < |es| ==> !(es[i].Update? && es[i].enable == Some(true))
    ensures FailingIsDisabled(Run(s, es))
    decreases |es|
  {
    if |es| > 0 {
      StepDisables(s, es[0]);
      FailingEndpointsAreDisabled(Next(s, es[0]), es[1..]);
    }
  }

  lemma StepDisables(s: State, ev: Event)
    requires FailingIsDisabled(s) && !(ev.Update? && ev.enable == Some(true))
    ensures FailingIsDisabled(Next(s, ev))
  {
  }

  /** The job makes an attempt for a delivery of this endpoint. */
  predicate AttemptsAt(s: State, ev: Event, e: nat) {
    Executes(s, ev) && Attempts(s, ev.job) && s.deliveries[ev.job.delivery].endpoint == e
  }

  /** Its outcome leaves no further attempt. */
  predicate GivesUp(s: State, ev: Event)
    requires ev.Process? && ev.job.delivery in s.deliveries
  {
    match ev.outcome
    case Sent => false
    case Failed => s.deliveries[ev.job.delivery].attempts + 1 >= MAX_DELIVERY_ATTEMPTS
    case _ => true
  }

  /** Deliveries to the endpoint given up since the last one that succeeded, n before the run. */
  function Streak(s: State, es: seq<Event>, e: nat, n: nat): nat
    decreases |es|
  {
    if |es| == 0 then n
    else
      var now := if !AttemptsAt(s, es[0], e) then n
                 else if es[0].outcome == Sent then 0
                 else if GivesUp(s, es[0]) then n + 1
                 else n;
      Streak(Next(s, es[0]), es[1..], e, now)
  }

  /** consecutiveFailures counts exactly that, whatever happens to other endpoints and deliveries. */
  lemma {:induction false} FailuresAreTheStreak(s: State, es: seq<Event>, e: nat)
    requires WellFormed(s) && e in s.endpoints
    ensures e in Run(s, es).endpoints && Run(s, es).endpoints[e].failures == Streak(s, es, e, s.endpoints[e].failures)
    decreases |es|
  {
    if |es| > 0 {
      StepWellFormed(s, es[0]);
      StepStreak(s, es[0], e);
      FailuresAreTheStreak(Next(s, es[0]), es[1..], e);
    }
  }

  lemma StepStreak(s: State, ev: Event, e: nat)
    requires WellFormed(s) && e in s.endpoints
    ensures var t := Next(s, ev);
            e in t.endpoints
            && t.endpoints[e].failures ==
               if !AttemptsAt(s, ev, e) then s.endpoints[e].failures
               else if ev.outcome == Sent then 0
               else if GivesUp(s, ev) then s.endpoints[e].failures + 1
               else s.endpoints[e].failures
  {
  }

  /** So five given up in a row disable the endpoint, unless someone enables it again. */
  lemma FiveInARowDisable(s: State, es: seq<Event>, e: nat)
    requires WellFormed(s) && e in s.endpoints && FailingIsDisabled(s)
    requires forall i :: 0 <= i < |es| ==> !(es[i].Update? && es[i].enable == Some(true))
    requires Streak(s, es, e, s.endpoints[e].failures) >= AUTO_DISABLE_AFTER
    ensures e in Run(s, es).endpoints && !Run(s, es).endpoints[e].enabled
  {
    FailuresAreTheStreak(s, es, e);
    FailingEndpointsAreDisabled(s, es);
  }

  /** Attempts made for a delivery, 0 before it exists. */
  function AttemptsOf(s: State, d: nat): nat {
    if d in s.deliveries then s.deliveries[d].attempts else 0
  }

  /** A removed endpoint is never called again: no delivery of it, old or new, is attempted in any continuation. */
  lemma {:induction false} RemovedIsNeverCalled(s: State, es: seq<Event>, e: nat)
    requires WellFormed(s) && e in s.endpoints && s.endpoints[e].deleted
    ensures e in Run(s, es).endpoints && Run(s, es).endpoints[e].deleted
    ensures forall d :: d in Run(s, es).deliveries && Run(s, es).deliveries[d].endpoint == e ==>
              (d in s.deliveries ==> s.deliveries[d].endpoint == e)
              && AttemptsOf(Run(s, es), d) == AttemptsOf(s, d)
    decreases |es|
  {
    if |es| > 0 {
      var t := Next(s, es[0]);
      StepWellFormed(s, es[0]);
      StepOfRemoved(s, es[0], e);
      RemovedIsNeverCalled(t, es[1..], e);
      StaysOn(t, es[1..]);
    }
  }

  lemma StepOfRemoved(s: State, ev: Event, e: nat)
    requires WellFormed(s) && e in s.endpoints && s.endpoints[e].deleted
    ensures var t := Next(s, ev);
            && e in t.endpoints && t.endpoints[e].deleted
            && forall d :: d in t.deliveries && t.deliveries[d].endpoint == e ==>
                 (d in s.deliveries ==> s.deliveries[d].endpoint == e) && AttemptsOf(t, d) == AttemptsOf(s, d)
  {
  }

  /** Deliveries are never removed and never change endpoint. */
  lemma {:induction false} StaysOn(s: State, es: seq<Event>)
    requires WellFormed(s)
    ensures forall d :: d in s.deliveries ==> d in Run(s, es).deliveries && Run(s, es).deliveries[d].endpoint == s.deliveries[d].endpoint
    decreases |es|
  {
    if |es| > 0 {
      StepWellFormed(s, es[0]);
      StepStaysOn(s, es[0]);
      StaysOn(Next(s, es[0]), es[1..]);
    }
  }

  lemma StepStaysOn(s: State, ev: Event)
    requires WellFormed(s)
    ensures forall d :: d in s.deliveries ==> d in Next(s, ev).deliveries && Next(s, ev).deliveries[d].endpoint == s.deliveries[d].endpoint
  {
  }
}
