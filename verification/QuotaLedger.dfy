/**
 * Conservation: as long as nothing is reprocessed, the buckets of a tenant on
 * the trial plan are an exact ledger of its rows, day by day and in total.
 */
module QuotaLedger {
  import opened Wrappers
  import opened Collections
  import opened UsageBuckets
  import opened Subscriptions
  import opened QuotaProtocol
  import opened QuotaBound

  /** A row still holds its unit while it is PENDING, or UNMATCHED and not yet released. */
  predicate Holds(notes: map<nat, Note>, released: set<nat>, n: nat) {
    n in notes && (notes[n].status == PENDING || (notes[n].status == UNMATCHED && n !in released))
  }

  ghost function Held(notes: map<nat, Note>, released: set<nat>, w: Window): set<nat> {
    set n | n in notes && InWindow(notes, n, w) && Holds(notes, released, n)
  }

  ghost function Spent(notes: map<nat, Note>, w: Window): set<nat> {
    set n | n in notes && InWindow(notes, n, w) && notes[n].status == PARSED
  }

  /** One job per row, and its phase says what the row is. */
  ghost predicate JobsAgree(s: State) {
    forall j :: j in s.jobs ==>
      && j.FirstJob? && j.note in s.notes
      && (s.jobs[j] == Parsing ==> s.notes[j.note].status == PENDING)
      && (s.jobs[j] == Releasing ==> s.notes[j.note].status == UNMATCHED && j.note !in s.released)
  }

  ghost predicate RowsAgree(s: State) {
    && (forall n :: n in s.notes ==> (s.notes[n].status == PARSED <==> n in s.transactions))
    && (forall n :: n in s.released ==> n in s.notes && s.notes[n].status == UNMATCHED)
  }

  ghost predicate Balanced(s: State, w: Window) {
    At(s.buckets, w) == Bucket(|Spent(s.notes, w)|, |Held(s.notes, s.released, w)|)
  }

  // ---- Jobs and rows ------------------------------------------------------

  /** The event puts no row back to PENDING. */
  predicate NoReprocess(s: State, e: Event) {
    e.Requeue? ==> e.note !in s.found || e.note !in s.notes
  }

  lemma UnchangedCount(s: State, e: Event)
    requires |Next(s, e).requeued| == |s.requeued|
    ensures NoReprocess(s, e)
  {
  }

  lemma IngestJobsAgree(s: State, device: int, hashes: seq<int>, day: int)
    requires Linked(s) && JobsAgree(s)
    ensures JobsAgree(AfterIngest(s, device, hashes, day))
  {
  }

  lemma CreateJobsAgree(s: State, j: JobId, now: int, today: int)
    requires JobsAgree(s) && RowsAgree(s)
    ensures JobsAgree(AfterCreate(s, j, now, today))
  {
  }

  lemma MarkJobsAgree(s: State, j: JobId)
    requires JobsAgree(s) && RowsAgree(s)
    ensures JobsAgree(AfterMark(s, j))
  {
  }

  lemma ReleaseJobsAgree(s: State, j: JobId, today: int)
    requires JobsAgree(s)
    ensures JobsAgree(AfterRelease(s, j, today))
  {
  }

  lemma StartJobsAgree(s: State, j: JobId)
    requires JobsAgree(s)
    ensures JobsAgree(AfterStart(s, j))
  {
  }

  lemma StepJobsAgree(s: State, e: Event)
    requires Linked(s) && JobsAgree(s) && RowsAgree(s) && NoReprocess(s, e)
    ensures JobsAgree(Next(s, e))
  {
    match e
    case Ingest(device, hashes, day) => IngestJobsAgree(s, device, hashes, day);
    case Start(j) => StartJobsAgree(s, j);
    case Commit(j, now, today) => CreateJobsAgree(s, j, now, today);
    case Mark(j) => MarkJobsAgree(s, j);
    case Release(j, today) => ReleaseJobsAgree(s, j, today);
    case Requeue(n, at) => assert Next(s, e) == s;
    case _ => OtherLedger(s, e);
  }

  lemma IngestRowsAgree(s: State, device: int, hashes: seq<int>, day: int)
    requires Linked(s) && RowsAgree(s)
    ensures RowsAgree(AfterIngest(s, device, hashes, day))
  {
  }

  lemma CreateRowsAgree(s: State, j: JobId, now: int, today: int)
    requires JobsAgree(s) && RowsAgree(s)
    ensures RowsAgree(AfterCreate(s, j, now, today))
  {
  }

  lemma MarkRowsAgree(s: State, j: JobId)
    requires JobsAgree(s) && RowsAgree(s)
    ensures RowsAgree(AfterMark(s, j))
  {
  }

  lemma ReleaseRowsAgree(s: State, j: JobId, today: int)
    requires JobsAgree(s) && RowsAgree(s)
    ensures RowsAgree(AfterRelease(s, j, today))
  {
  }

  lemma StepRowsAgree(s: State, e: Event)
    requires Linked(s) && JobsAgree(s) && RowsAgree(s) && NoReprocess(s, e)
    ensures RowsAgree(Next(s, e))
  {
    match e
    case Ingest(device, hashes, day) => IngestRowsAgree(s, device, hashes, day);
    case Commit(j, now, today) => CreateRowsAgree(s, j, now, today);
    case Mark(j) => MarkRowsAgree(s, j);
    case Release(j, today) => ReleaseRowsAgree(s, j, today);
    case _ => OtherLedger(s, e);
  }

  /** The remaining events touch neither rows nor buckets. */
  lemma OtherLedger(s: State, e: Event)
    requires NoReprocess(s, e) && !e.Ingest? && !e.Commit? && !e.Release? && !e.Mark?
    ensures var t := Next(s, e);
            t.notes == s.notes && t.released == s.released && t.buckets == s.buckets && t.transactions == s.transactions
  {
    if e.Requeue? {
      assert Next(s, e) == s;
    } else {
      OtherRows(s, e);
    }
  }

  lemma OtherRows(s: State, e: Event)
    requires !e.Ingest? && !e.Commit? && !e.Release? && !e.Mark? && !e.Requeue?
    ensures var t := Next(s, e);
            t.notes == s.notes && t.released == s.released && t.buckets == s.buckets && t.transactions == s.transactions
  {
  }

  // ---- One bucket ---------------------------------------------------------

  lemma BatchRows(lo: nat, k: nat, ids: set<nat>)
    requires forall i :: i in ids <==> lo <= i < lo + k
    ensures |ids| == k
  {
    var f: int -> nat := i => if i < 0 then 0 else i;
    forall x | x in ids ensures exists i :: lo <= i < lo + k && f(i) == x {
      assert f(x) == x;
    }
    IntervalSize(f, lo, lo + k, ids);
  }

  lemma HeldSplit(notes: map<nat, Note>, more: map<nat, Note>, released: set<nat>, w: Window)
    requires notes.Keys !! more.Keys
    ensures |Held(notes + more, released, w)| == |Held(notes, released, w)| + |Held(more, released, w)|
  {
    assert Held(notes + more, released, w) == Held(notes, released, w) + Held(more, released, w);
  }

  lemma SpentSplit(notes: map<nat, Note>, more: map<nat, Note>, w: Window)
    requires notes.Keys !! more.Keys
    ensures |Spent(notes + more, w)| == |Spent(notes, w)| + |Spent(more, w)|
  {
    var all := notes + more;
    forall n | n in all ensures n in Spent(all, w) <==> n in Spent(notes, w) || n in Spent(more, w) {
      assert all[n] == if n in more then more[n] else notes[n];
    }
    assert Spent(all, w) == Spent(notes, w) + Spent(more, w);
  }

  /** New PENDING rows are held, one each, in the windows of their stamp. */
  lemma BatchHeld(more: map<nat, Note>, released: set<nat>, day: int, w: Window)
    requires forall i :: i in more ==> more[i].status == PENDING && more[i].stamp == Some(day)
    ensures Spent(more, w) == {}
    ensures Held(more, released, w) == if w == Day(day) || w.Period? then more.Keys else {}
  {
  }

  lemma NewLedger(s: State, device: int, unseen: seq<int>, k: nat, day: int, w: Window)
    requires Linked(s) && k <= |unseen|
    ensures var notes := s.notes + NewNotes(s.nextId, device, unseen, k, Some(day));
            && |Spent(notes, w)| == |Spent(s.notes, w)|
            && |Held(notes, s.released, w)| == |Held(s.notes, s.released, w)| + if w == Day(day) || w.Period? then k else 0
  {
    var more := NewNotes(s.nextId, device, unseen, k, Some(day));
    HeldSplit(s.notes, more, s.released, w);
    SpentSplit(s.notes, more, w);
    BatchHeld(more, s.released, day, w);
    BatchRows(s.nextId, k, more.Keys);
  }

  lemma IngestLedger(s: State, device: int, hashes: seq<int>, day: int, w: Window)
    requires Linked(s) && OnTrialPlan(s.sub)
    ensures var t := AfterIngest(s, device, hashes, day);
            && t.released == s.released
            && |Spent(t.notes, w)| == |Spent(s.notes, w)|
            && |Held(t.notes, t.released, w)| == |Held(s.notes, s.released, w)| + IngestUnits(s, device, hashes, day, w)
  {
    var unseen := Fresh(s.notes, device, hashes);
    if |unseen| > 0 {
      var k := KeptCount(s, |unseen|, day);
      KeptTables(s, device, unseen, k, day);
      NewLedger(s, device, unseen, k, day, w);
    }
  }

  lemma IngestBalanced(s: State, device: int, hashes: seq<int>, day: int, w: Window)
    requires Linked(s) && OnTrialPlan(s.sub) && Tracked(s, w) && Balanced(s, w)
    ensures Balanced(AfterIngest(s, device, hashes, day), w)
  {
    IngestLedger(s, device, hashes, day, w);
    IngestBucket(s, device, hashes, day, w);
  }

  /** Parsing moves the row from held to spent, in its own windows. */
  lemma PaidRow(notes: map<nat, Note>, released: set<nat>, n: nat, w: Window)
    requires n in notes && notes[n].status == PENDING
    ensures var after := notes[n := notes[n].(status := PARSED)];
            var one := if InWindow(notes, n, w) then 1 else 0;
            && |Held(after, released, w)| == |Held(notes, released, w)| - one
            && |Spent(after, w)| == |Spent(notes, w)| + one
  {
    NoLongerHeld(notes, released, n, w);
    NowSpent(notes, n, w);
  }

  lemma NoLongerHeld(notes: map<nat, Note>, released: set<nat>, n: nat, w: Window)
    requires n in notes && notes[n].status == PENDING
    ensures |Held(notes[n := notes[n].(status := PARSED)], released, w)|
         == |Held(notes, released, w)| - if InWindow(notes, n, w) then 1 else 0
  {
    var after := notes[n := notes[n].(status := PARSED)];
    if InWindow(notes, n, w) {
      OneMore(Held(after, released, w), Held(notes, released, w), n);
    } else {
      SameMembers(Held(notes, released, w), Held(after, released, w));
    }
  }

  lemma NowSpent(notes: map<nat, Note>, n: nat, w: Window)
    requires n in notes && notes[n].status == PENDING
    ensures |Spent(notes[n := notes[n].(status := PARSED)], w)| == |Spent(notes, w)| + if InWindow(notes, n, w) then 1 else 0
  {
    var after := notes[n := notes[n].(status := PARSED)];
    if InWindow(notes, n, w) {
      OneMore(Spent(notes, w), Spent(after, w), n);
    } else {
      SameMembers(Spent(notes, w), Spent(after, w));
    }
  }

  /** Marking keeps the unit held; releasing lets it go. */
  lemma MarkedRow(notes: map<nat, Note>, released: set<nat>, n: nat, w: Window)
    requires n in notes && notes[n].status == PENDING && n !in released
    ensures var after := notes[n := notes[n].(status := UNMATCHED)];
            Held(after, released, w) == Held(notes, released, w) && Spent(after, w) == Spent(notes, w)
  {
  }

  lemma ReleasedRow(notes: map<nat, Note>, released: set<nat>, n: nat, w: Window)
    requires n in notes && notes[n].status == UNMATCHED && n !in released
    ensures |Held(notes, released + {n}, w)| == |Held(notes, released, w)| - if InWindow(notes, n, w) then 1 else 0
  {
    assert Held(notes, released + {n}, w) == Held(notes, released, w) - if InWindow(notes, n, w) then {n} else {};
  }

  lemma CreateBalanced(s: State, j: JobId, now: int, today: int, w: Window)
    requires WellFormed(s) && JobsAgree(s) && RowsAgree(s) && OnTrialPlan(s.sub) && Tracked(s, w) && Balanced(s, w)
    ensures Balanced(AfterCreate(s, j, now, today), w)
  {
    if JobAt(s, j, Parsing) {
      CreateBucket(s, j, now, today, w);
      PaidRow(s.notes, s.released, j.note, w);
    }
  }

  lemma ReleaseMoves(s: State, j: JobId, today: int, w: Window)
    requires WellFormed(s) && OnTrialPlan(s.sub) && Tracked(s, w) && JobAt(s, j, Releasing)
    ensures At(AfterRelease(s, j, today).buckets, w)
         == if InWindow(s.notes, j.note, w) then At(Released(s.buckets, w), w) else At(s.buckets, w)
    ensures InWindow(s.notes, j.note, w) ==> w in s.buckets
  {
    assert StampedInTable(s, j.note);
  }

  lemma ReleaseBalanced(s: State, j: JobId, today: int, w: Window)
    requires WellFormed(s) && JobsAgree(s) && OnTrialPlan(s.sub) && Tracked(s, w) && Balanced(s, w)
    ensures Balanced(AfterRelease(s, j, today), w)
  {
    if JobAt(s, j, Releasing) {
      ReleaseMoves(s, j, today, w);
      ReleasedRow(s.notes, s.released, j.note, w);
    }
  }

  lemma StepBalanced(s: State, e: Event, w: Window)
    requires WellFormed(s) && JobsAgree(s) && RowsAgree(s) && NoReprocess(s, e)
    requires OnTrialPlan(s.sub) && Tracked(s, w) && Balanced(s, w)
    ensures Balanced(Next(s, e), w)
  {
    match e
    case Ingest(device, hashes, day) => IngestBalanced(s, device, hashes, day, w);
    case Commit(j, now, today) => CreateBalanced(s, j, now, today, w);
    case Release(j, today) => ReleaseBalanced(s, j, today, w);
    case Mark(j) => if JobAt(s, j, Parsing) { MarkedRow(s.notes, s.released, j.note, w); }
    case _ => OtherLedger(s, e);
  }

  // ---- Days add up to the period ------------------------------------------

  ghost function DayUsed(t: Table): map<Window, int> {
    map w | w in t && w.Day? :: t[w].used as int
  }

  ghost function DayReserved(t: Table): map<Window, int> {
    map w | w in t && w.Day? :: t[w].reserved as int
  }

  ghost predicate DaysAddUp(t: Table, periodStart: int) {
    && Sum(DayUsed(t)) == At(t, Period(periodStart)).used
    && Sum(DayReserved(t)) == At(t, Period(periodStart)).reserved
  }

  /** One write to a day row moves the day sums by the same amount. */
  lemma DayWrite(t: Table, d: int, b: Bucket)
    ensures Sum(DayUsed(t[Day(d) := b])) == Sum(DayUsed(t)) - At(t, Day(d)).used + b.used
    ensures Sum(DayReserved(t[Day(d) := b])) == Sum(DayReserved(t)) - At(t, Day(d)).reserved + b.reserved
  {
    assert DayUsed(t[Day(d) := b]) == DayUsed(t)[Day(d) := b.used];
    assert DayReserved(t[Day(d) := b]) == DayReserved(t)[Day(d) := b.reserved];
    SumUpdate(DayUsed(t), Day(d), b.used);
    SumUpdate(DayReserved(t), Day(d), b.reserved);
  }

  lemma PeriodWrite(t: Table, p: int, b: Bucket)
    ensures DayUsed(t[Period(p) := b]) == DayUsed(t) && DayReserved(t[Period(p) := b]) == DayReserved(t)
  {
  }

  /** The same change to a day row and to the period row keeps the days adding up. */
  lemma PairWrite(t: Table, d: int, p: int, b: Bucket, q: Bucket)
    requires DaysAddUp(t, p)
    requires b.used - At(t, Day(d)).used == q.used - At(t, Period(p)).used
    requires b.reserved - At(t, Day(d)).reserved == q.reserved - At(t, Period(p)).reserved
    ensures DaysAddUp(t[Day(d) := b][Period(p) := q], p)
  {
    DayWrite(t, d, b);
    PeriodWrite(t[Day(d) := b], p, q);
  }

  lemma ReserveWrites(t: Table, d: int, terms: TrialTerms, count: nat)
    ensures var n := Granted(t, Day(d), terms, count);
            var b, q := At(t, Day(d)), At(t, terms.PeriodWindow());
            TableAfterReserve(t, Day(d), terms, count)
            == t[Day(d) := Bucket(b.used, b.reserved + n)][terms.PeriodWindow() := Bucket(q.used, q.reserved + n)]
  {
  }

  lemma ReserveAddsUp(t: Table, d: int, terms: TrialTerms, count: nat)
    requires DaysAddUp(t, terms.periodStart)
    ensures DaysAddUp(TableAfterReserve(t, Day(d), terms, count), terms.periodStart)
  {
    var n := Granted(t, Day(d), terms, count);
    var b, q := At(t, Day(d)), At(t, terms.PeriodWindow());
    var after := t[Day(d) := Bucket(b.used, b.reserved + n)][terms.PeriodWindow() := Bucket(q.used, q.reserved + n)];
    assert DaysAddUp(after, terms.periodStart) by {
      PairWrite(t, d, terms.periodStart, Bucket(b.used, b.reserved + n), Bucket(q.used, q.reserved + n));
    }
    assert TableAfterReserve(t, Day(d), terms, count) == after by { ReserveWrites(t, d, terms, count); }
  }

  lemma CommitAddsUp(t: Table, d: int, p: int)
    requires DaysAddUp(t, p) && Day(d) in t && Period(p) in t
    requires t[Day(d)].reserved > 0 && t[Period(p)].reserved > 0
    ensures DaysAddUp(Committed(Committed(t, Day(d)), Period(p)), p)
  {
    var b, q := t[Day(d)], t[Period(p)];
    PairWrite(t, d, p, Bucket(b.used + 1, b.reserved - 1), Bucket(q.used + 1, q.reserved - 1));
  }

  lemma ReleaseUnitAddsUp(t: Table, d: int, p: int)
    requires DaysAddUp(t, p) && Day(d) in t && Period(p) in t
    requires t[Day(d)].reserved > 0 && t[Period(p)].reserved > 0
    ensures DaysAddUp(Released(Released(t, Day(d)), Period(p)), p)
  {
    var b, q := t[Day(d)], t[Period(p)];
    PairWrite(t, d, p, Bucket(b.used, b.reserved - 1), Bucket(q.used, q.reserved - 1));
  }

  ghost predicate Ledger(s: State) {
    && WellFormed(s) && JobsAgree(s) && RowsAgree(s)
    && (OnTrialPlan(s.sub) ==>
          && (forall d :: Balanced(s, Day(d)))
          && Balanced(s, Period(s.sub.createdAt))
          && DaysAddUp(s.buckets, s.sub.createdAt))
  }

  /** Neither clamp fires while the row's own unit is held in both of its windows. */
  lemma HeldUnit(s: State, n: nat)
    requires Stamped(s) && OnTrialPlan(s.sub) && Holds(s.notes, s.released, n)
    requires forall d :: Balanced(s, Day(d))
    requires Balanced(s, Period(s.sub.createdAt))
    ensures s.notes[n].stamp.Some?
    ensures var d := Day(s.notes[n].stamp.value); d in s.buckets && s.buckets[d].reserved > 0
    ensures var p := Period(s.sub.createdAt); p in s.buckets && s.buckets[p].reserved > 0
  {
    assert StampedInTable(s, n);
    var d := s.notes[n].stamp.value;
    assert Balanced(s, Day(d));
    assert n in Held(s.notes, s.released, Day(d));
    assert n in Held(s.notes, s.released, Period(s.sub.createdAt));
  }

  lemma CreateWrites(s: State, j: JobId, now: int, today: int)
    requires JobAt(s, j, Parsing) && j.note !in s.transactions && OnTrialPlan(s.sub)
    ensures AfterCreate(s, j, now, today).buckets
         == Committed(Committed(s.buckets, Day(s.notes[j.note].stamp.GetOr(today))), Period(s.sub.createdAt))
  {
  }

  lemma ReleaseWrites(s: State, j: JobId, today: int)
    requires JobAt(s, j, Releasing) && OnTrialPlan(s.sub)
    ensures AfterRelease(s, j, today).buckets
         == Released(Released(s.buckets, Day(s.notes[j.note].stamp.GetOr(today))), Period(s.sub.createdAt))
  {
  }

  lemma CreateAddsUp(s: State, j: JobId, now: int, today: int)
    requires Ledger(s) && OnTrialPlan(s.sub)
    ensures DaysAddUp(AfterCreate(s, j, now, today).buckets, s.sub.createdAt)
  {
    if JobAt(s, j, Parsing) {
      assert Holds(s.notes, s.released, j.note) && j.note !in s.transactions;
      HeldUnit(s, j.note);
      CommitAddsUp(s.buckets, s.notes[j.note].stamp.value, s.sub.createdAt);
      CreateWrites(s, j, now, today);
    }
  }

  lemma ReleaseAddsUp(s: State, j: JobId, today: int)
    requires Ledger(s) && OnTrialPlan(s.sub)
    ensures DaysAddUp(AfterRelease(s, j, today).buckets, s.sub.createdAt)
  {
    if JobAt(s, j, Releasing) {
      HeldUnit(s, j.note);
      ReleaseUnitAddsUp(s.buckets, s.notes[j.note].stamp.value, s.sub.createdAt);
      ReleaseWrites(s, j, today);
    }
  }

  // ---- Whole runs ---------------------------------------------------------

  lemma IngestAddsUp(s: State, device: int, hashes: seq<int>, day: int)
    requires OnTrialPlan(s.sub) && DaysAddUp(s.buckets, s.sub.createdAt)
    ensures DaysAddUp(AfterIngest(s, device, hashes, day).buckets, s.sub.createdAt)
  {
    ReserveAddsUp(s.buckets, day, Terms(s.sub), |Fresh(s.notes, device, hashes)|);
  }

  lemma QuietBuckets(s: State, e: Event)
    requires NoReprocess(s, e) && !e.Ingest? && !e.Commit? && !e.Release?
    ensures Next(s, e).buckets == s.buckets
  {
    if !e.Mark? { OtherLedger(s, e); }
  }

  lemma StepAddsUp(s: State, e: Event)
    requires Ledger(s) && NoReprocess(s, e) && OnTrialPlan(s.sub)
    ensures DaysAddUp(Next(s, e).buckets, s.sub.createdAt)
  {
    if e.Ingest? {
      IngestAddsUp(s, e.device, e.hashes, e.day);
    } else if e.Commit? {
      CreateAddsUp(s, e.job, e.now, e.today);
    } else if e.Release? {
      ReleaseAddsUp(s, e.job, e.today);
    } else {
      QuietBuckets(s, e);
    }
  }

  lemma StepLedger(s: State, e: Event)
    requires Ledger(s) && NoReprocess(s, e)
    ensures Ledger(Next(s, e))
  {
    var t := Next(s, e);
    StepWellFormed(s, e);
    SubscriptionStep(s, e);
    StepJobsAgree(s, e);
    StepRowsAgree(s, e);
    if OnTrialPlan(t.sub) {
      StepAddsUp(s, e);
      forall d ensures Balanced(t, Day(d)) { StepBalanced(s, e, Day(d)); }
      StepBalanced(s, e, Period(s.sub.createdAt));
    }
  }

  lemma {:induction false} RunRequeuedGrows(s: State, es: seq<Event>)
    ensures |s.requeued| <= |Run(s, es).requeued|
    decreases |es|
  {
    if |es| > 0 {
      RequeuedGrows(s, es[0]);
      RunRequeuedGrows(Next(s, es[0]), es[1..]);
    }
  }

  lemma {:induction false} RunLedger(s: State, es: seq<Event>)
    requires Ledger(s) && |Run(s, es).requeued| == |s.requeued|
    ensures Ledger(Run(s, es))
    decreases |es|
  {
    if |es| > 0 {
      RequeuedGrows(s, es[0]);
      RunRequeuedGrows(Next(s, es[0]), es[1..]);
      UnchangedCount(s, es[0]);
      StepLedger(s, es[0]);
      RunLedger(Next(s, es[0]), es[1..]);
    }
  }

  /**
   * After any run without reprocessing, while the tenant is on the trial plan:
   * a day's `used` counts the payments of rows stamped with that day and its
   * `reserved` the rows still PENDING or UNMATCHED but not released, whatever day
   * parsing finished on; and the period bucket is the sum of the day buckets.
   */
  lemma BucketsAreALedger(plan: Plan, createdAt: int, es: seq<Event>)
    requires plan.code == TRIAL_PLAN_CODE
    ensures var s := Run(Registered(plan, createdAt), es);
            s.requeued == multiset{} && OnTrialPlan(s.sub) ==>
              && (forall d :: At(s.buckets, Day(d)) == Bucket(|Spent(s.notes, Day(d))|, |Held(s.notes, s.released, Day(d))|))
              && At(s.buckets, Period(createdAt)).used == Sum(DayUsed(s.buckets)) == |s.transactions|
              && At(s.buckets, Period(createdAt)).reserved == Sum(DayReserved(s.buckets))
              && (forall n :: n in s.notes ==> (s.notes[n].status == PARSED <==> n in s.transactions))
  {
    var s := Registered(plan, createdAt);
    var t := Run(s, es);
    if t.requeued == multiset{} && OnTrialPlan(t.sub) {
      EmptyLedger(s);
      RunLedger(s, es);
      RunCreatedAt(s, es);
      assert forall d :: Balanced(t, Day(d)) ==>
        At(t.buckets, Day(d)) == Bucket(|Spent(t.notes, Day(d))|, |Held(t.notes, t.released, Day(d))|);
      PaymentsCounted(t);
    }
  }

  lemma EmptyLedger(s: State)
    requires s.notes == map[] && s.buckets == map[] && s.jobs == map[] && s.seen == {} && s.transactions == [] && s.released == {}
    requires s.sub.pendingPlan.None?
    ensures Ledger(s)
  {
    assert forall w :: Spent(s.notes, w) == {} && Held(s.notes, s.released, w) == {};
    assert DayUsed(s.buckets) == map[] && DayReserved(s.buckets) == map[];
  }

  lemma {:induction false} RunCreatedAt(s: State, es: seq<Event>)
    requires NoReturn(s)
    ensures Run(s, es).sub.createdAt == s.sub.createdAt
    decreases |es|
  {
    if |es| > 0 {
      SubscriptionStep(s, es[0]);
      RunCreatedAt(Next(s, es[0]), es[1..]);
    }
  }

  lemma PaymentsCounted(s: State)
    requires Linked(s) && DistinctPayments(s) && RowsAgree(s)
    ensures |Spent(s.notes, Period(s.sub.createdAt))| == |s.transactions|
  {
    SeqToSetSize(s.transactions, Spent(s.notes, Period(s.sub.createdAt)));
  }

  lemma {:induction false} SeqToSetSize(xs: seq<nat>, all: set<nat>)
    requires forall i, j :: 0 <= i < j < |xs| ==> xs[i] != xs[j]
    requires forall x :: x in all <==> x in xs
    ensures |all| == |xs|
    decreases |xs|
  {
    if |xs| == 0 {
      if all != {} { HasMember(all); assert false; }
    } else {
      var last := xs[|xs| - 1];
      var rest := xs[..|xs| - 1];
      assert xs == rest + [last];
      SeqToSetSize(rest, all - {last});
    }
  }
}
