/**
 * Requests in front of the quota protocol: the gate of an ingest request, and runs in
 * which batches arrive only through it.
 */
module IngestGate {
  import opened Wrappers
  import opened Subscriptions
  import opened QuotaProtocol
  import opened TrialLifecycle

  /** A request reads the clock at `at`; `underLimit` is the monthly count a paid plan allows. */
  datatype Request = Request(device: int, hashes: seq<int>, day: int, at: int, underLimit: bool)

  datatype Move = Receive(request: Request) | Other(event: Event)

  predicate Passes(sub: Subscription, at: int, underLimit: bool) {
    AssertCanOperate(Evaluate(Some(sub), at)).None? && (OnTrialPlan(sub) || underLimit)
  }

  /** A request the gate refuses changes nothing; the others are an ingest. */
  function AfterRequest(s: State, r: Request): State {
    if Passes(s.sub, r.at, r.underLimit) then Next(s, Ingest(r.device, r.hashes, r.day)) else s
  }

  function AfterMove(s: State, m: Move): State {
    match m
    case Receive(r) => AfterRequest(s, r)
    case Other(e) => Next(s, e)
  }

  function RunMoves(s: State, ms: seq<Move>): State
    decreases |ms|
  {
    if |ms| == 0 then s else RunMoves(AfterMove(s, ms[0]), ms[1..])
  }

  /** Who gets through, in the fields of the subscription. */
  lemma PassesIff(sub: Subscription, at: int, underLimit: bool)
    ensures Passes(sub, at, underLimit) <==>
              && (sub.status == PENDING_TRIAL || sub.status == ACTIVE
                  || (sub.status == TRIALING && sub.trialStartedAt.Some? && sub.trialEndsAt.Some?
                      && sub.trialEndsAt.value > at && sub.trialEndedAt.None?))
              && (sub.plan.code == "TRIAL" || underLimit)
  {
  }

  /** Every gated run is a run of the protocol, so all that holds of its runs holds here. */
  lemma {:induction false} MovesAreRun(s: State, ms: seq<Move>) returns (es: seq<Event>)
    ensures Run(s, es) == RunMoves(s, ms)
    ensures forall e :: e in es ==> e.Ingest? || Other(e) in ms
    decreases |ms|
  {
    if |ms| == 0 {
      es := [];
    } else {
      var t := AfterMove(s, ms[0]);
      assert ms == [ms[0]] + ms[1..];
      var rest := MovesAreRun(t, ms[1..]);
      if ms[0].Receive? && t == s {
        es := rest;
      } else {
        var first := if ms[0].Other? then ms[0].event
                     else Ingest(ms[0].request.device, ms[0].request.hashes, ms[0].request.day);
        es := [first] + rest;
        assert es[1..] == rest;
      }
    }
  }

  /** No batch arrives past the gate, requests are later than `now`, and no change goes to a plan of higher sort order. */
  ghost predicate AfterRefusal(s: State, ms: seq<Move>, now: int)
    decreases |ms|
  {
    |ms| == 0
    || (&& (ms[0].Receive? ==> now <= ms[0].request.at)
        && (ms[0].Other? ==> !ms[0].event.Ingest?)
        && (ms[0].Other? && ms[0].event.Change? ==> ms[0].event.to.sortOrder <= s.sub.plan.sortOrder)
        && AfterRefusal(AfterMove(s, ms[0]), ms[1..], now))
  }

  /**
   * Once operating is refused, no later request changes anything, whatever else
   * happens in between, short of an upgrade: no row is ever added, and the run is
   * the same as if the requests had not been made.
   */
  lemma {:induction false} NothingMoreReceived(s: State, ms: seq<Move>, now: int)
    requires Refuses(s.sub, now) && AfterRefusal(s, ms, now)
    ensures var t := RunMoves(s, ms);
            && t == Run(s, Events(ms))
            && t.notes.Keys == s.notes.Keys && t.nextId == s.nextId
            && Refuses(t.sub, now)
    decreases |ms|
  {
    if |ms| > 0 {
      var t := AfterMove(s, ms[0]);
      if ms[0].Receive? {
        StillRefused(s.sub, now, ms[0].request.at);
        assert t == s;
        assert Events(ms) == Events(ms[1..]);
      } else {
        StepRefuses(s, ms[0].event, now);
        QuietSameRows(s, ms[0].event);
        assert Events(ms)[1..] == Events(ms[1..]);
      }
      NothingMoreReceived(t, ms[1..], now);
    }
  }

  /** The protocol events among the moves. */
  function Events(ms: seq<Move>): seq<Event> {
    if |ms| == 0 then [] else (if ms[0].Other? then [ms[0].event] else []) + Events(ms[1..])
  }

  lemma StillRefused(sub: Subscription, now: int, later: int)
    requires Refuses(sub, now) && now <= later
    ensures Refuses(sub, later)
  {
  }
}
