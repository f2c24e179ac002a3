/**
 * Quota safety over whole runs: how far a bucket can exceed its limit, for any
 * interleaving of ingest, workers, crashes, expiry, upgrades and reprocessing.
 *
 * A job that is still queued or running is a claim on the windows of its row.
 * Reservations may fall short of claims only by what reprocessing put back.
 */
module QuotaBound {
  import opened Wrappers
  import opened Collections
  import opened UsageBuckets
  import opened Subscriptions
  import opened QuotaProtocol

  predicate InWindow(notes: map<nat, Note>, n: nat, w: Window) {
    n in notes && match w case Day(d) => notes[n].stamp == Some(d) case Period(_) => true
  }

  ghost function ClaimsOf(jobs: set<JobId>, notes: map<nat, Note>, w: Window): set<JobId> {
    set j | j in jobs && InWindow(notes, j.note, w)
  }

  ghost function Claims(s: State, w: Window): set<JobId> {
    ClaimsOf(s.jobs.Keys, s.notes, w)
  }

  function LimitOf(plan: Plan, w: Window): nat {
    Max(0, match w case Day(_) => plan.dailyLimit case Period(_) => plan.totalLimit)
  }

  /** Rows of the window that reprocessing has put back so far. */
  ghost function Extra(s: State, w: Window): nat {
    match w case Day(d) => s.requeued[Some(d)] case Period(_) => |s.requeued|
  }

  predicate Tracked(s: State, w: Window) {
    w.Day? || w == Period(s.sub.createdAt)
  }

  predicate Accounted(b: Bucket, claims: nat, extra: nat, limit: nat) {
    && claims <= b.reserved + extra
    && b.used + Max(b.reserved, claims) <= limit + extra
  }

  ghost predicate Bounded(s: State, plan: Plan, w: Window) {
    && Load(s.buckets, w) <= LimitOf(plan, w) + Extra(s, w)
    && (OnTrialPlan(s.sub) ==>
          s.sub.plan == plan && Accounted(At(s.buckets, w), |Claims(s, w)|, Extra(s, w), LimitOf(plan, w)))
  }

  lemma BatchSize(lo: nat, hi: nat)
    requires lo <= hi
    ensures |JobsOf(lo, hi)| == hi - lo
  {
    var f: int -> JobId := i => FirstJob(if i < 0 then 0 else i);
    forall x | x in JobsOf(lo, hi) ensures exists i :: lo <= i < hi && f(i) == x {
      var i: nat :| lo <= i < hi && FirstJob(i) == x;
      assert f(i) == x;
    }
    IntervalSize(f, lo, hi, JobsOf(lo, hi));
  }

  /** Units an ingest adds to one window: all it keeps, or none. */
  function IngestUnits(s: State, device: int, hashes: seq<int>, day: int, w: Window): nat {
    var n := |Fresh(s.notes, device, hashes)|;
    if n == 0 || (w.Day? && w != Day(day)) then 0 else KeptCount(s, n, day)
  }

  lemma ClaimsSplit(jobs: set<JobId>, added: set<JobId>, notes: map<nat, Note>, more: map<nat, Note>, w: Window)
    requires forall j :: j in jobs ==> j.note in notes && j.note !in more
    requires forall j :: j in added ==> j.note in more
    ensures |ClaimsOf(jobs + added, notes + more, w)| == |ClaimsOf(jobs, notes, w)| + |ClaimsOf(added, more, w)|
  {
    assert ClaimsOf(jobs + added, notes + more, w) == ClaimsOf(jobs, notes, w) + ClaimsOf(added, more, w);
  }

  /** The first jobs of k new rows stamped with one day are k claims on that day and on the period. */
  lemma BatchClaims(more: map<nat, Note>, lo: nat, k: nat, day: int, w: Window)
    requires forall i :: lo <= i < lo + k ==> i in more && more[i].stamp == Some(day)
    ensures |ClaimsOf(JobsOf(lo, lo + k), more, w)| == if w == Day(day) || w.Period? then k else 0
  {
    BatchSize(lo, lo + k);
    if w == Day(day) || w.Period? {
      assert ClaimsOf(JobsOf(lo, lo + k), more, w) == JobsOf(lo, lo + k);
    } else {
      assert ClaimsOf(JobsOf(lo, lo + k), more, w) == {};
    }
  }

  lemma NewClaims(s: State, device: int, unseen: seq<int>, k: nat, day: int, w: Window)
    requires Linked(s) && k <= |unseen|
    ensures |ClaimsOf(s.jobs.Keys + JobsOf(s.nextId, s.nextId + k),
                      s.notes + NewNotes(s.nextId, device, unseen, k, Some(day)), w)|
         == |Claims(s, w)| + if w == Day(day) || w.Period? then k else 0
  {
    var more := NewNotes(s.nextId, device, unseen, k, Some(day));
    BatchClaims(more, s.nextId, k, day, w);
    ClaimsSplit(s.jobs.Keys, JobsOf(s.nextId, s.nextId + k), s.notes, more, w);
  }

  lemma KeptTables(s: State, device: int, unseen: seq<int>, k: nat, day: int)
    requires OnTrialPlan(s.sub) && k <= |unseen|
    ensures var t := Kept(s, device, unseen, k, day);
            && t.notes == s.notes + NewNotes(s.nextId, device, unseen, k, Some(day))
            && t.jobs.Keys == s.jobs.Keys + JobsOf(s.nextId, s.nextId + k)
            && t.sub == s.sub && t.requeued == s.requeued
  {
  }

  lemma IngestClaims(s: State, device: int, hashes: seq<int>, day: int, w: Window)
    requires Linked(s) && OnTrialPlan(s.sub)
    ensures |Claims(AfterIngest(s, device, hashes, day), w)| == |Claims(s, w)| + IngestUnits(s, device, hashes, day, w)
  {
    var unseen := Fresh(s.notes, device, hashes);
    if |unseen| > 0 {
      var k := KeptCount(s, |unseen|, day);
      KeptTables(s, device, unseen, k, day);
      NewClaims(s, device, unseen, k, day, w);
    }
  }

  lemma IngestBucket(s: State, device: int, hashes: seq<int>, day: int, w: Window)
    requires OnTrialPlan(s.sub) && Tracked(s, w)
    ensures var k := IngestUnits(s, device, hashes, day, w);
            && At(AfterIngest(s, device, hashes, day).buckets, w) == Bucket(At(s.buckets, w).used, At(s.buckets, w).reserved + k)
            && (k > 0 ==> Load(s.buckets, w) + k <= LimitOf(s.sub.plan, w))
  {
  }

  lemma IngestBounded(s: State, device: int, hashes: seq<int>, day: int, w: Window, plan: Plan)
    requires WellFormed(s) && OnTrialPlan(s.sub) && Tracked(s, w) && Bounded(s, plan, w)
    ensures Bounded(AfterIngest(s, device, hashes, day), plan, w)
  {
    IngestClaims(s, device, hashes, day, w);
    IngestBucket(s, device, hashes, day, w);
  }

  /** The job leaves the queue: its windows lose one claim, the others none. */
  lemma ClaimDone(jobs: set<JobId>, j: JobId, notes: map<nat, Note>, after: map<nat, Note>, w: Window)
    requires j in jobs && SameNotes(notes, after)
    ensures |ClaimsOf(jobs - {j}, after, w)| == |ClaimsOf(jobs, notes, w)| - if InWindow(notes, j.note, w) then 1 else 0
  {
    if InWindow(notes, j.note, w) {
      assert ClaimsOf(jobs - {j}, after, w) == ClaimsOf(jobs, notes, w) - {j};
    } else {
      assert ClaimsOf(jobs - {j}, after, w) == ClaimsOf(jobs, notes, w);
    }
  }

  lemma ClaimAdded(jobs: set<JobId>, j: JobId, notes: map<nat, Note>, after: map<nat, Note>, w: Window)
    requires SameNotes(notes, after)
    ensures |ClaimsOf(jobs + {j}, after, w)| <= |ClaimsOf(jobs, notes, w)| + if InWindow(notes, j.note, w) then 1 else 0
    ensures ClaimsOf(jobs, after, w) == ClaimsOf(jobs, notes, w)
  {
    if InWindow(notes, j.note, w) {
      assert ClaimsOf(jobs + {j}, after, w) == ClaimsOf(jobs, notes, w) + {j};
    } else {
      assert ClaimsOf(jobs + {j}, after, w) == ClaimsOf(jobs, notes, w);
    }
  }

  lemma CreateClaims(s: State, j: JobId, now: int, today: int, w: Window)
    requires JobAt(s, j, Parsing) && j.note !in s.transactions
    ensures |Claims(AfterCreate(s, j, now, today), w)| == |Claims(s, w)| - if InWindow(s.notes, j.note, w) then 1 else 0
  {
    var t := AfterCreate(s, j, now, today);
    assert t.jobs.Keys == s.jobs.Keys - {j};
    assert SameNotes(s.notes, t.notes) by { StatusSameRows(s, j.note, PARSED); }
    ClaimDone(s.jobs.Keys, j, s.notes, t.notes, w);
  }

  lemma CreateBucket(s: State, j: JobId, now: int, today: int, w: Window)
    requires WellFormed(s) && OnTrialPlan(s.sub) && Tracked(s, w)
    requires JobAt(s, j, Parsing) && j.note !in s.transactions
    ensures At(AfterCreate(s, j, now, today).buckets, w)
         == if InWindow(s.notes, j.note, w) then At(Committed(s.buckets, w), w) else At(s.buckets, w)
    ensures InWindow(s.notes, j.note, w) ==> w in s.buckets
  {
    assert StampedInTable(s, j.note);
  }

  /** A job that is not parsing, or whose row is paid, commits nothing. */
  lemma CreateNothing(s: State, j: JobId, now: int, today: int)
    requires !JobAt(s, j, Parsing) || j.note in s.transactions
    ensures var t := AfterCreate(s, j, now, today);
            && t.jobs.Keys == s.jobs.Keys && t.buckets == s.buckets && t.notes == s.notes
            && t.sub == s.sub && t.requeued == s.requeued
  {
  }

  /** A quota commit spends a claim of the row's windows and moves one unit there. */
  lemma CreateSpends(s: State, j: JobId, now: int, today: int, w: Window, plan: Plan)
    requires WellFormed(s) && OnTrialPlan(s.sub) && Tracked(s, w) && Bounded(s, plan, w)
    requires JobAt(s, j, Parsing) && j.note !in s.transactions
    ensures Bounded(AfterCreate(s, j, now, today), plan, w)
  {
    var t := AfterCreate(s, j, now, today);
    CreateClaims(s, j, now, today, w);
    CreateBucket(s, j, now, today, w);
    assert t.requeued == s.requeued;
    assert OnTrialPlan(t.sub) ==> t.sub.plan == plan by { SubscriptionStep(s, Commit(j, now, today)); }
  }

  lemma CreateBounded(s: State, j: JobId, now: int, today: int, w: Window, plan: Plan)
    requires WellFormed(s) && OnTrialPlan(s.sub) && Tracked(s, w) && Bounded(s, plan, w)
    ensures Bounded(AfterCreate(s, j, now, today), plan, w)
  {
    if JobAt(s, j, Parsing) && j.note !in s.transactions {
      CreateSpends(s, j, now, today, w, plan);
    } else {
      CreateNothing(s, j, now, today);
    }
  }

  lemma ReleaseBounded(s: State, j: JobId, today: int, w: Window, plan: Plan)
    requires WellFormed(s) && OnTrialPlan(s.sub) && Tracked(s, w) && Bounded(s, plan, w)
    ensures Bounded(AfterRelease(s, j, today), plan, w)
  {
    var t := AfterRelease(s, j, today);
    if JobAt(s, j, Releasing) {
      assert StampedInTable(s, j.note);
      ClaimDone(s.jobs.Keys, j, s.notes, t.notes, w);
      assert t.jobs.Keys == s.jobs.Keys - {j};
      assert At(t.buckets, w) == if InWindow(s.notes, j.note, w) then At(Released(s.buckets, w), w) else At(s.buckets, w);
    }
  }

  /** A reprocessed row is at most one more claim, and exactly one more unit of allowance. */
  lemma RequeueMoves(s: State, n: nat, at: int, w: Window)
    requires WellFormed(s) && n in s.found && n in s.notes
    ensures var t := AfterRequeue(s, n, at);
            && Extra(t, w) == Extra(s, w) + (if InWindow(s.notes, n, w) then 1 else 0)
            && |Claims(t, w)| <= |Claims(s, w)| + (if InWindow(s.notes, n, w) then 1 else 0)
  {
    var t := AfterRequeue(s, n, at);
    var j := ReprocessJob(n, at);
    assert SameNotes(s.notes, t.notes) by { StatusSameRows(s, n, PENDING); }
    ClaimAdded(s.jobs.Keys, j, s.notes, t.notes, w);
    assert t.requeued == s.requeued + multiset{s.notes[n].stamp};
    assert t.jobs.Keys == if j in s.seen then s.jobs.Keys else s.jobs.Keys + {j};
  }

  lemma RequeueBounded(s: State, n: nat, at: int, w: Window, plan: Plan)
    requires WellFormed(s) && OnTrialPlan(s.sub) && Bounded(s, plan, w)
    ensures Bounded(AfterRequeue(s, n, at), plan, w)
  {
    if n in s.found && n in s.notes {
      RequeueMoves(s, n, at, w);
    }
  }

  /** Job and subscription bookkeeping: no bucket moves and no claim appears. */
  lemma OtherMoves(s: State, e: Event)
    requires !e.Ingest? && !e.Commit? && !e.Release? && !e.Requeue?
    ensures var t := Next(s, e);
            t.jobs.Keys <= s.jobs.Keys && t.buckets == s.buckets && t.requeued == s.requeued
  {
  }

  lemma OtherBounded(s: State, e: Event, w: Window, plan: Plan)
    requires WellFormed(s) && OnTrialPlan(s.sub) && Bounded(s, plan, w)
    requires !e.Ingest? && !e.Commit? && !e.Release? && !e.Requeue?
    ensures Bounded(Next(s, e), plan, w)
  {
    var t := Next(s, e);
    SubscriptionStep(s, e);
    OtherMoves(s, e);
    FewerClaims(s, t, w) by { QuietSameRows(s, e); }
  }

  lemma FewerClaims(s: State, t: State, w: Window)
    requires SameNotes(s.notes, t.notes) && t.jobs.Keys <= s.jobs.Keys
    ensures |Claims(t, w)| <= |Claims(s, w)|
  {
    assert Claims(t, w) <= Claims(s, w);
    SubsetSize(Claims(t, w), Claims(s, w));
  }

  lemma SubsetSize<T>(a: set<T>, b: set<T>)
    requires a <= b
    ensures |a| <= |b|
  {
    assert b == a + (b - a);
  }

  lemma FrozenIngest(s: State, device: int, hashes: seq<int>, day: int)
    requires !OnTrialPlan(s.sub)
    ensures AfterIngest(s, device, hashes, day).buckets == s.buckets
  {
  }

  lemma FrozenBuckets(s: State, e: Event)
    requires !OnTrialPlan(s.sub)
    ensures Next(s, e).buckets == s.buckets
  {
    match e
    case Ingest(device, hashes, day) => FrozenIngest(s, device, hashes, day);
    case Requeue(n, at) => assert AfterRequeue(s, n, at).buckets == s.buckets;
    case Commit(j, now, today) => assert AfterCreate(s, j, now, today).buckets == s.buckets;
    case Release(j, today) => assert AfterRelease(s, j, today).buckets == s.buckets;
    case _ => OtherMoves(s, e);
  }

  lemma RequeuedGrows(s: State, e: Event)
    ensures s.requeued <= Next(s, e).requeued && |s.requeued| <= |Next(s, e).requeued|
  {
  }

  /** Off the trial plan the buckets are frozen. */
  lemma FrozenBounded(s: State, e: Event, w: Window, plan: Plan)
    requires NoReturn(s) && !OnTrialPlan(s.sub) && Bounded(s, plan, w)
    ensures Bounded(Next(s, e), plan, w)
  {
    SubscriptionStep(s, e);
    FrozenBuckets(s, e);
    RequeuedGrows(s, e);
  }

  lemma StepBounded(s: State, e: Event, w: Window, plan: Plan)
    requires WellFormed(s) && Tracked(s, w) && Bounded(s, plan, w)
    ensures Bounded(Next(s, e), plan, w)
  {
    if !OnTrialPlan(s.sub) {
      FrozenBounded(s, e, w, plan);
    } else {
      match e
      case Ingest(device, hashes, day) => IngestBounded(s, device, hashes, day, w, plan);
      case Commit(j, now, today) => CreateBounded(s, j, now, today, w, plan);
      case Release(j, today) => ReleaseBounded(s, j, today, w, plan);
      case Requeue(n, at) => RequeueBounded(s, n, at, w, plan);
      case _ => OtherBounded(s, e, w, plan);
    }
  }

  lemma {:induction false} RunBounded(s: State, es: seq<Event>, w: Window, plan: Plan)
    requires WellFormed(s) && Tracked(s, w) && Bounded(s, plan, w)
    ensures WellFormed(Run(s, es)) && Bounded(Run(s, es), plan, w)
    decreases |es|
  {
    if |es| > 0 {
      StepWellFormed(s, es[0]);
      StepBounded(s, es[0], w, plan);
      SubscriptionStep(s, es[0]);
      RunBounded(Next(s, es[0]), es[1..], w, plan);
    }
  }

  /**
   * Over every run of a newly registered tenant, each day bucket and the period
   * bucket stay within the plan's limit plus the rows of that window that were
   * reprocessed; without reprocessing no limit is ever exceeded.
   */
  lemma QuotaNeverOverrun(plan: Plan, createdAt: int, es: seq<Event>, d: int)
    requires plan.code == TRIAL_PLAN_CODE
    ensures var s := Run(Registered(plan, createdAt), es);
            && Load(s.buckets, Day(d)) <= Max(0, plan.dailyLimit) + s.requeued[Some(d)]
            && Load(s.buckets, Period(createdAt)) <= Max(0, plan.totalLimit) + |s.requeued|
  {
    var s := Registered(plan, createdAt);
    assert Claims(s, Day(d)) == {} && Claims(s, Period(createdAt)) == {};
    RunBounded(s, es, Day(d), plan);
    RunBounded(s, es, Period(createdAt), plan);
  }

  /**
   * The allowance is used in full: when nothing is reserved, reprocessing one
   * released row and parsing it adds one unit over whatever the bucket holds.
   */
  lemma ReprocessAddsOne(s: State, n: nat, at: int, now: int, today: int)
    requires WellFormed(s) && OnTrialPlan(s.sub)
    requires Reprocessable(s, n) && n !in s.transactions && ReprocessJob(n, at) !in s.seen
    requires At(s.buckets, Day(s.notes[n].stamp.GetOr(today))).reserved == 0
    ensures var j := ReprocessJob(n, at);
            var d := s.notes[n].stamp.GetOr(today);
            var t := Run(s, [Find(n), Requeue(n, at), Start(j), Commit(j, now, today)]);
            && Load(t.buckets, Day(d)) == Load(s.buckets, Day(d)) + 1
            && t.requeued[Some(d)] == s.requeued[Some(d)] + 1
            && t.transactions == s.transactions + [n]
  {
    var j := ReprocessJob(n, at);
    assert StampedInTable(s, n);
    var s2 := Next(Next(s, Find(n)), Requeue(n, at));
    RunFour(s, Find(n), Requeue(n, at), Start(j), Commit(j, now, today));
    FoundAndRequeued(s, n, at);
    var s3 := Next(s2, Start(j));
    assert JobAt(s3, j, Parsing) && s3.buckets == s.buckets && s3.transactions == s.transactions && s3.sub == s.sub;
    CommitOnce(s3, j, now, today);
  }

  lemma FoundAndRequeued(s: State, n: nat, at: int)
    requires WellFormed(s) && Reprocessable(s, n) && ReprocessJob(n, at) !in s.seen
    ensures var t := Next(Next(s, Find(n)), Requeue(n, at));
            && JobAt(t, ReprocessJob(n, at), Queued)
            && t.notes[n].status == PENDING && t.notes[n].stamp == s.notes[n].stamp
            && t.buckets == s.buckets && t.transactions == s.transactions && t.sub == s.sub
            && t.requeued == s.requeued + multiset{s.notes[n].stamp}
  {
  }

  lemma CommitOnce(s: State, j: JobId, now: int, today: int)
    requires OnTrialPlan(s.sub) && JobAt(s, j, Parsing) && j.note !in s.transactions
    requires var d := Day(s.notes[j.note].stamp.GetOr(today)); d in s.buckets && s.buckets[d].reserved == 0
    ensures var d := Day(s.notes[j.note].stamp.GetOr(today));
            var t := Next(s, Commit(j, now, today));
            && Load(t.buckets, d) == Load(s.buckets, d) + 1
            && t.requeued == s.requeued && t.transactions == s.transactions + [j.note]
  {
  }

  lemma RunFour(s: State, a: Event, b: Event, c: Event, d: Event)
    ensures Run(s, [a, b, c, d]) == Next(Next(Next(Next(s, a), b), c), d)
  {
    var s1, s2, s3 := Next(s, a), Next(Next(s, a), b), Next(Next(Next(s, a), b), c);
    assert [a, b, c, d][1..] == [b, c, d] && [b, c, d][1..] == [c, d] && [c, d][1..] == [d] && [d][1..] == [];
    assert Run(s, [a, b, c, d]) == Run(s1, [b, c, d]);
    assert Run(s1, [b, c, d]) == Run(s2, [c, d]);
    assert Run(s2, [c, d]) == Run(s3, [d]);
    assert Run(s3, [d]) == Run(Next(s3, d), []);
  }
}
