/**
 * The reprocessing allowance is used in full: for every number of reprocessed rows
 * there is a run of a registered tenant that ends exactly that far over a limit.
 */
module QuotaOverrun {
  import opened Wrappers
  import opened UsageBuckets
  import opened Subscriptions
  import opened QuotaProtocol
  import Ingest
  import TrialLifecycle

  // ---- Reachability -------------------------------------------------------

  ghost predicate Reaches(s: State, t: State) {
    exists es :: Run(s, es) == t
  }

  lemma ReachesSelf(s: State)
    ensures Reaches(s, s)
  {
    assert Run(s, []) == s;
  }

  lemma ReachesNext(s: State, e: Event)
    ensures Reaches(s, Next(s, e))
  {
    assert Run(s, [e]) == Run(Next(s, e), [e][1..]);
  }

  lemma ReachesOn(s: State, t: State, u: State)
    requires Reaches(s, t) && Reaches(t, u)
    ensures Reaches(s, u)
  {
    var es :| Run(s, es) == t;
    var more :| Run(t, more) == u;
    TrialLifecycle.RunConcat(s, es, more);
  }

  lemma ReachesWellFormed(s: State, t: State)
    requires WellFormed(s) && Reaches(s, t)
    ensures WellFormed(t)
  {
    var es :| Run(s, es) == t;
    Ingest.RunWellFormed(s, es);
  }

  // ---- Receiving one row --------------------------------------------------

  predicate HasRoom(s: State, d: int) {
    && OnTrialPlan(s.sub)
    && Load(s.buckets, Day(d)) < s.sub.plan.dailyLimit
    && Load(s.buckets, Period(s.sub.createdAt)) < s.sub.plan.totalLimit
  }

  /** Rows carry their own id as dedupe hash, so the next id is a new hash. */
  predicate OwnHashes(s: State) {
    forall n :: n in s.notes ==> s.notes[n].hash == n
  }

  /** What no step below changes: the plan and the period. */
  predicate SamePlan(s: State, t: State) {
    t.sub.plan == s.sub.plan && t.sub.createdAt == s.sub.createdAt
  }

  function ReservedOne(s: State, d: int): Table {
    TableAfterReserve(s.buckets, Day(d), Terms(s.sub), 1)
  }

  lemma FreshOne(s: State)
    requires Linked(s) && OwnHashes(s)
    ensures Fresh(s.notes, 0, [s.nextId]) == [s.nextId]
  {
    var n := s.nextId;
    assert !Known(s.notes, 0, n);
    assert [n][..0] == [];
    assert Fresh(s.notes, 0, []) == [];
  }

  lemma KeptRow(s: State, d: int)
    requires OnTrialPlan(s.sub)
    ensures Kept(s, 0, [s.nextId], 1, d).notes == s.notes[s.nextId := Note(0, s.nextId, PENDING, Some(d))]
  {
    assert NewNotes(s.nextId, 0, [s.nextId], 1, Some(d)) == map[s.nextId := Note(0, s.nextId, PENDING, Some(d))];
  }

  lemma KeptJob(s: State, d: int)
    ensures var t := Kept(s, 0, [s.nextId], 1, d);
            t.jobs == s.jobs[FirstJob(s.nextId) := Queued] && t.seen == s.seen + {FirstJob(s.nextId)}
  {
    assert JobsOf(s.nextId, s.nextId + 1) == {FirstJob(s.nextId)};
  }

  lemma IngestOne(s: State, d: int) returns (t: State)
    requires Linked(s) && OwnHashes(s) && HasRoom(s, d)
    ensures Reaches(s, t)
    ensures t.notes == s.notes[s.nextId := Note(0, s.nextId, PENDING, Some(d))] && t.nextId == s.nextId + 1
    ensures t.jobs == s.jobs[FirstJob(s.nextId) := Queued] && t.seen == s.seen + {FirstJob(s.nextId)}
    ensures t.buckets == ReservedOne(s, d)
    ensures t.transactions == s.transactions && t.sub == s.sub && t.requeued == s.requeued
  {
    FreshOne(s);
    assert KeptCount(s, 1, d) == 1;
    t := Kept(s, 0, [s.nextId], 1, d);
    assert Next(s, Event.Ingest(0, [s.nextId], d)) == t;
    ReachesNext(s, Event.Ingest(0, [s.nextId], d));
    KeptRow(s, d);
    KeptJob(s, d);
  }

  // ---- Working on one job -------------------------------------------------

  lemma StartJob(s: State, j: JobId) returns (t: State)
    requires JobAt(s, j, Queued) && s.notes[j.note].status == PENDING
    ensures Reaches(s, t) && t == WithPhase(s, j, Parsing)
  {
    t := WithPhase(s, j, Parsing);
    assert Next(s, Start(j)) == t;
    ReachesNext(s, Start(j));
  }

  /** A new row whose job has read it. */
  lemma ReadOne(s: State, d: int) returns (t: State)
    requires Linked(s) && OwnHashes(s) && HasRoom(s, d)
    ensures Reaches(s, t) && JobAt(t, FirstJob(s.nextId), Parsing)
    ensures t.notes == s.notes[s.nextId := Note(0, s.nextId, PENDING, Some(d))] && t.nextId == s.nextId + 1
    ensures t.seen == s.seen + {FirstJob(s.nextId)} && t.buckets == ReservedOne(s, d)
    ensures t.transactions == s.transactions && t.sub == s.sub && t.requeued == s.requeued
  {
    var received := IngestOne(s, d);
    t := StartJob(received, FirstJob(s.nextId));
    ReachesOn(s, received, t);
  }

  lemma MarkRow(s: State, j: JobId) returns (t: State)
    requires JobAt(s, j, Parsing)
    ensures Reaches(s, t) && t == WithPhase(WithStatus(s, j.note, UNMATCHED), j, Releasing)
  {
    t := WithPhase(WithStatus(s, j.note, UNMATCHED), j, Releasing);
    assert Next(s, Mark(j)) == t;
    ReachesNext(s, Mark(j));
  }

  lemma ReleaseRow(s: State, j: JobId, d: int) returns (t: State)
    requires JobAt(s, j, Releasing) && s.notes[j.note].stamp == Some(d)
    ensures Reaches(s, t)
    ensures t.notes == s.notes && t.nextId == s.nextId && t.seen == s.seen && t.buckets == ReleaseBuckets(s.buckets, s.sub, d)
    ensures t.transactions == s.transactions && t.sub == s.sub && t.requeued == s.requeued
  {
    t := AfterRelease(s, j, d);
    assert Next(s, Release(j, d)) == t;
    ReachesNext(s, Release(j, d));
  }

  lemma CommitRow(s: State, j: JobId, d: int) returns (t: State)
    requires JobAt(s, j, Parsing) && s.notes[j.note].stamp == Some(d) && j.note !in s.transactions
    ensures Reaches(s, t) && SamePlan(s, t)
    ensures t.notes == s.notes[j.note := s.notes[j.note].(status := PARSED)] && t.nextId == s.nextId && t.seen == s.seen
    ensures t.buckets == CommitBuckets(s.buckets, s.sub, d)
    ensures t.transactions == s.transactions + [j.note] && t.requeued == s.requeued
  {
    t := AfterCreate(s, j, 0, d);
    assert Next(s, Commit(j, 0, d)) == t;
    ReachesNext(s, Commit(j, 0, d));
  }

  predicate Waiting(s: State, n: nat, d: int) {
    && n in s.notes && s.notes[n].status == UNMATCHED && s.notes[n].stamp == Some(d)
    && n !in s.transactions && ReprocessJob(n, 0) !in s.seen
  }

  lemma RequeueRow(s: State, n: nat, d: int) returns (t: State)
    requires Waiting(s, n, d)
    ensures Reaches(s, t)
    ensures t.notes == s.notes[n := s.notes[n].(status := PENDING)] && t.nextId == s.nextId
    ensures t.jobs == s.jobs[ReprocessJob(n, 0) := Queued] && t.seen == s.seen + {ReprocessJob(n, 0)}
    ensures t.buckets == s.buckets && t.transactions == s.transactions && t.sub == s.sub
    ensures t.requeued == s.requeued + multiset{Some(d)}
  {
    var read := s.(found := s.found + multiset{n});
    assert Next(s, Find(n)) == read;
    ReachesNext(s, Find(n));
    t := AfterRequeue(read, n, 0);
    assert Next(read, Requeue(n, 0)) == t;
    ReachesNext(read, Requeue(n, 0));
    ReachesOn(s, read, t);
  }

  // ---- Three lives of a row -----------------------------------------------

  /** Reserving and releasing one unit leaves every bucket as it was. */
  lemma RejectedBuckets(t: Table, sub: Subscription, d: int, w: Window)
    requires OnTrialPlan(sub) && Granted(t, Day(d), Terms(sub), 1) == 1
    ensures At(ReleaseBuckets(TableAfterReserve(t, Day(d), Terms(sub), 1), sub, d), w) == At(t, w)
  {
  }

  function Raised(b: Bucket, w: Window, d: int, createdAt: int): Bucket {
    if w == Day(d) || w == Period(createdAt) then b.(used := b.used + 1) else b
  }

  /** Reserving and committing one unit raises `used` by one in both buckets. */
  lemma PaidBuckets(t: Table, sub: Subscription, d: int, w: Window)
    requires OnTrialPlan(sub) && Granted(t, Day(d), Terms(sub), 1) == 1
    ensures At(CommitBuckets(TableAfterReserve(t, Day(d), Terms(sub), 1), sub, d), w) == Raised(At(t, w), w, d, sub.createdAt)
  {
  }

  /** Committing without a reservation raises it all the same. */
  lemma ReprocessedBuckets(t: Table, sub: Subscription, d: int, w: Window)
    requires OnTrialPlan(sub) && Day(d) in t && Period(sub.createdAt) in t && At(t, w).reserved == 0
    ensures At(CommitBuckets(t, sub, d), w) == Raised(At(t, w), w, d, sub.createdAt)
  {
  }

  /** Received, and parsed to nothing. */
  lemma RejectOne(s: State, d: int) returns (t: State)
    requires Linked(s) && OwnHashes(s) && HasRoom(s, d)
    ensures Reaches(s, t) && SamePlan(s, t)
    ensures t.notes == s.notes[s.nextId := Note(0, s.nextId, UNMATCHED, Some(d))] && t.nextId == s.nextId + 1
    ensures t.seen == s.seen + {FirstJob(s.nextId)} && t.transactions == s.transactions && t.requeued == s.requeued
    ensures forall w :: At(t.buckets, w) == At(s.buckets, w)
  {
    var j := FirstJob(s.nextId);
    var reading := ReadOne(s, d);
    var marked := MarkRow(reading, j);
    t := ReleaseRow(marked, j, d);
    ReachesOn(s, reading, marked);
    ReachesOn(s, marked, t);
    forall w ensures At(t.buckets, w) == At(s.buckets, w) { RejectedBuckets(s.buckets, s.sub, d, w); }
  }

  /** Received, and parsed to a payment. */
  lemma PayOne(s: State, d: int) returns (t: State)
    requires Linked(s) && OwnHashes(s) && HasRoom(s, d)
    ensures Reaches(s, t) && SamePlan(s, t)
    ensures t.notes == s.notes[s.nextId := Note(0, s.nextId, PARSED, Some(d))] && t.nextId == s.nextId + 1
    ensures t.seen == s.seen + {FirstJob(s.nextId)} && t.transactions == s.transactions + [s.nextId] && t.requeued == s.requeued
    ensures forall w :: At(t.buckets, w) == Raised(At(s.buckets, w), w, d, s.sub.createdAt)
  {
    var j := FirstJob(s.nextId);
    var reading := ReadOne(s, d);
    t := CommitRow(reading, j, d);
    ReachesOn(s, reading, t);
    forall w ensures At(t.buckets, w) == Raised(At(s.buckets, w), w, d, s.sub.createdAt) {
      PaidBuckets(s.buckets, s.sub, d, w);
    }
  }

  /** Reprocessed, and now parsed to a payment. */
  lemma ReprocessOne(s: State, n: nat, d: int) returns (t: State)
    requires Waiting(s, n, d) && OnTrialPlan(s.sub) && StampedInTable(s, n)
    requires forall w :: At(s.buckets, w).reserved == 0
    ensures Reaches(s, t) && SamePlan(s, t)
    ensures t.notes == s.notes[n := s.notes[n].(status := PARSED)] && t.nextId == s.nextId
    ensures t.seen == s.seen + {ReprocessJob(n, 0)} && t.transactions == s.transactions + [n]
    ensures t.requeued == s.requeued + multiset{Some(d)}
    ensures forall w :: At(t.buckets, w) == Raised(At(s.buckets, w), w, d, s.sub.createdAt)
  {
    var j := ReprocessJob(n, 0);
    var requeued := RequeueRow(s, n, d);
    var reading := StartJob(requeued, j);
    t := CommitRow(reading, j, d);
    ReachesOn(s, requeued, reading);
    ReachesOn(s, reading, t);
    forall w ensures At(t.buckets, w) == Raised(At(s.buckets, w), w, d, s.sub.createdAt) {
      ReprocessedBuckets(s.buckets, s.sub, d, w);
    }
  }

  // ---- The run ------------------------------------------------------------

  /** A reachable state of the tenant with nothing reserved. */
  ghost predicate Calm(s: State, plan: Plan, createdAt: int) {
    && Reaches(Registered(plan, createdAt), s) && WellFormed(s) && OwnHashes(s)
    && s.sub.plan == plan && s.sub.createdAt == createdAt
    && forall w :: At(s.buckets, w).reserved == 0
  }

  /** Rows r, .., k - 1 were rejected and wait; r rows have been reprocessed. */
  ghost predicate Stage(s: State, d: int, k: nat, r: nat) {
    && k <= s.nextId
    && (forall n :: r <= n < k ==> Waiting(s, n, d))
    && |s.requeued| == r == s.requeued[Some(d)]
  }

  /** The next row is nobody's yet. */
  lemma NextRowIsNew(s: State)
    requires Linked(s)
    ensures s.nextId !in s.notes && s.nextId !in s.transactions
    ensures FirstJob(s.nextId) !in s.seen && ReprocessJob(s.nextId, 0) !in s.seen
  {
  }

  lemma CalmOn(s: State, t: State, plan: Plan, createdAt: int)
    requires Calm(s, plan, createdAt) && Reaches(s, t) && SamePlan(s, t) && OwnHashes(t)
    requires forall w :: At(t.buckets, w).reserved == At(s.buckets, w).reserved
    ensures Calm(t, plan, createdAt)
  {
    ReachesOn(Registered(plan, createdAt), s, t);
    ReachesWellFormed(s, t);
  }

  lemma WaitsOn(s: State, t: State, n: nat, d: int)
    requires Waiting(s, n, d) && n in t.notes && t.notes[n] == s.notes[n]
    requires n in t.transactions ==> n in s.transactions
    requires ReprocessJob(n, 0) in t.seen ==> ReprocessJob(n, 0) in s.seen
    ensures Waiting(t, n, d)
  {
  }

  lemma {:induction false} RejectRows(plan: Plan, createdAt: int, d: int, k: nat) returns (s: State)
    requires plan.code == TRIAL_PLAN_CODE && plan.dailyLimit > 0 && plan.totalLimit > 0
    ensures Calm(s, plan, createdAt) && Stage(s, d, k, 0) && s.nextId == k
    ensures forall w :: At(s.buckets, w) == Bucket(0, 0)
  {
    if k == 0 {
      s := Registered(plan, createdAt);
      ReachesSelf(s);
    } else {
      var before := RejectRows(plan, createdAt, d, k - 1);
      s := RejectOne(before, d);
      CalmOn(before, s, plan, createdAt);
      NextRowIsNew(before);
      forall n | 0 <= n < k ensures Waiting(s, n, d) {
        if n < k - 1 { WaitsOn(before, s, n, d); }
      }
    }
  }

  /** Payments on one day, or on a day of their own each. */
  function PayDay(d: int, i: int, spread: bool): int {
    if spread then d + i else d
  }

  lemma {:induction false} PayRows(plan: Plan, createdAt: int, d: int, k: nat, paid: nat, spread: bool) returns (s: State)
    requires plan.code == TRIAL_PLAN_CODE && plan.dailyLimit > 0 && plan.totalLimit > 0
    requires paid <= plan.totalLimit && (!spread ==> paid <= plan.dailyLimit)
    ensures Calm(s, plan, createdAt) && Stage(s, d, k, 0)
    ensures At(s.buckets, Period(createdAt)).used == paid
    ensures !spread ==> At(s.buckets, Day(d)).used == paid
    ensures spread ==> forall x :: x >= d + paid ==> At(s.buckets, Day(x)).used == 0
    decreases paid
  {
    if paid == 0 {
      s := RejectRows(plan, createdAt, d, k);
    } else {
      var before := PayRows(plan, createdAt, d, k, paid - 1, spread);
      s := PayOne(before, PayDay(d, paid - 1, spread));
      CalmOn(before, s, plan, createdAt);
      forall n | 0 <= n < k ensures Waiting(s, n, d) { WaitsOn(before, s, n, d); }
    }
  }

  lemma {:induction false} ReprocessRows(plan: Plan, createdAt: int, d: int, k: nat, r: nat, start: State) returns (s: State)
    requires plan.code == TRIAL_PLAN_CODE && r <= k
    requires Calm(start, plan, createdAt) && Stage(start, d, k, 0)
    ensures Calm(s, plan, createdAt) && Stage(s, d, k, r)
    ensures At(s.buckets, Period(createdAt)).used == At(start.buckets, Period(createdAt)).used + r
    ensures At(s.buckets, Day(d)).used == At(start.buckets, Day(d)).used + r
    decreases r
  {
    if r == 0 {
      s := start;
    } else {
      var before := ReprocessRows(plan, createdAt, d, k, r - 1, start);
      assert Waiting(before, r - 1, d) && StampedInTable(before, r - 1);
      s := ReprocessOne(before, r - 1, d);
      CalmOn(before, s, plan, createdAt);
      forall n | r <= n < k ensures Waiting(s, n, d) { WaitsOn(before, s, n, d); }
    }
  }

  /** For every number of reprocessed rows a day of a registered tenant reaches its limit plus that number. */
  lemma DayOverrunHappens(plan: Plan, createdAt: int, d: int, extra: nat) returns (es: seq<Event>)
    requires plan.code == TRIAL_PLAN_CODE && 0 < plan.dailyLimit <= plan.totalLimit
    ensures var s := Run(Registered(plan, createdAt), es);
            Load(s.buckets, Day(d)) == plan.dailyLimit + extra && s.requeued[Some(d)] == extra
  {
    var full := PayRows(plan, createdAt, d, extra, plan.dailyLimit, false);
    var s := ReprocessRows(plan, createdAt, d, extra, extra, full);
    es :| Run(Registered(plan, createdAt), es) == s;
  }

  /** And so does the period, whatever the daily limit. */
  lemma PeriodOverrunHappens(plan: Plan, createdAt: int, extra: nat) returns (es: seq<Event>)
    requires plan.code == TRIAL_PLAN_CODE && plan.dailyLimit > 0 && plan.totalLimit > 0
    ensures var s := Run(Registered(plan, createdAt), es);
            Load(s.buckets, Period(createdAt)) == plan.totalLimit + extra && |s.requeued| == extra
  {
    var full := PayRows(plan, createdAt, 0, extra, plan.totalLimit, true);
    var s := ReprocessRows(plan, createdAt, 0, extra, extra, full);
    es :| Run(Registered(plan, createdAt), es) == s;
  }
}
