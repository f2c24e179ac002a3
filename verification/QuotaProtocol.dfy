/**
 * The trial quota protocol of one tenant as a state machine: every event is one
 * database transaction or one queue step, and any interleaving of events is a run.
 */
module QuotaProtocol {
  import opened Wrappers
  import opened UsageBuckets
  import opened Subscriptions
  import opened Calendar

  datatype ParseStatus = PENDING | PARSED | UNMATCHED | ERROR

  /** A raw_notifications row; `stamp` is quotaWindowStart, the day its unit was reserved in. */
  datatype Note = Note(device: int, hash: int, status: ParseStatus, stamp: Option<int>)

  /** Queue job ids: the ingest job carries the row id, a reprocess job also a clock reading. */
  datatype JobId = FirstJob(note: nat) | ReprocessJob(note: nat, at: int)

  /** Where the worker of a job stands: `Parsing` has read the row as PENDING. */
  datatype Phase = Queued | Parsing | Releasing

  /** What the expiration task read before its conditional update. */
  datatype ClosingRead = ClosingRead(endsAt: int, now: int)

  datatype State = State(
    notes: map<nat, Note>,
    nextId: nat,
    transactions: seq<nat>,
    buckets: Table,
    sub: Subscription,
    jobs: map<JobId, Phase>,
    seen: set<JobId>,
    found: multiset<nat>,
    closing: Option<ClosingRead>,
    released: set<nat>,
    requeued: multiset<Option<int>>)

  datatype Event =
    | Ingest(device: int, hashes: seq<int>, day: int)
    | Start(job: JobId)
    | Fail(job: JobId)
    | Drop(job: JobId)
    | Commit(job: JobId, now: int, today: int)
    | Mark(job: JobId)
    | Release(job: JobId, today: int)
    | Find(note: nat)
    | Requeue(note: nat, at: int)
    | ReadDue(now: int)
    | Close
    | Change(to: Plan, toCycle: BillingCycle, now: int)
    | Rollover(now: int)

  // ---- The ingest transaction ---------------------------------------------

  predicate IsRow(notes: map<nat, Note>, n: nat, device: int, hash: int) {
    n in notes && notes[n].device == device && notes[n].hash == hash
  }

  /** Some row already has this device and dedupe hash. */
  predicate Known(notes: map<nat, Note>, device: int, hash: int) {
    exists n :: n in notes && IsRow(notes, n, device, hash)
  }

  /** Hashes the INSERT .. ON CONFLICT DO NOTHING keeps: new to the device, first occurrence in the batch. */
  function Fresh(notes: map<nat, Note>, device: int, hashes: seq<int>): (unseen: seq<int>)
    ensures forall h :: h in unseen <==> h in hashes && !Known(notes, device, h)
    ensures forall i, j :: 0 <= i < j < |unseen| ==> unseen[i] != unseen[j]
  {
    if hashes == [] then []
    else
      var h := hashes[|hashes| - 1];
      var rest := Fresh(notes, device, hashes[..|hashes| - 1]);
      if Known(notes, device, h) || h in rest then rest else rest + [h]
  }

  function Terms(sub: Subscription): TrialTerms {
    TrialTerms(sub.createdAt, sub.plan.dailyLimit, sub.plan.totalLimit)
  }

  /** How many of n inserted rows keep their reservation. */
  function KeptCount(s: State, n: nat, day: int): nat {
    if OnTrialPlan(s.sub) then Granted(s.buckets, Day(day), Terms(s.sub), n) else n
  }

  function NewNotes(base: nat, device: int, unseen: seq<int>, k: nat, stamp: Option<int>): map<nat, Note>
    requires k <= |unseen|
  {
    map i | base <= i < base + k :: NewNote(base, device, unseen, i, stamp)
  }

  function NewNote(base: nat, device: int, unseen: seq<int>, i: nat, stamp: Option<int>): Note
    requires base <= i < base + |unseen|
  {
    Note(device, unseen[i - base], PENDING, stamp)
  }

  function JobsOf(lo: nat, hi: nat): set<JobId> {
    set i | lo <= i < hi :: FirstJob(i)
  }

  /** Rows inserted, quota reserved, the unreserved suffix deleted, the kept prefix stamped and queued. */
  function AfterIngest(s: State, device: int, hashes: seq<int>, day: int): State {
    var unseen := Fresh(s.notes, device, hashes);
    if |unseen| == 0 then s else Kept(s, device, unseen, KeptCount(s, |unseen|, day), day)
  }

  function Kept(s: State, device: int, unseen: seq<int>, k: nat, day: int): State
    requires k <= |unseen|
  {
    var trial := OnTrialPlan(s.sub);
    var added := JobsOf(s.nextId, s.nextId + k);
    s.(notes := s.notes + NewNotes(s.nextId, device, unseen, k, if trial then Some(day) else None),
       nextId := s.nextId + |unseen|,
       buckets := if trial then TableAfterReserve(s.buckets, Day(day), Terms(s.sub), |unseen|) else s.buckets,
       jobs := s.jobs + map j | j in added :: Queued,
       seen := s.seen + added)
  }

  // ---- The parser job -----------------------------------------------------

  predicate JobAt(s: State, j: JobId, phase: Phase) {
    j in s.jobs && s.jobs[j] == phase && j.note in s.notes
  }

  function WithStatus(s: State, n: nat, status: ParseStatus): State
    requires n in s.notes
  {
    s.(notes := s.notes[n := s.notes[n].(status := status)])
  }

  function WithPhase(s: State, j: JobId, phase: Phase): State {
    s.(jobs := s.jobs[j := phase])
  }

  function Done(s: State, j: JobId): State {
    s.(jobs := s.jobs - {j})
  }

  /** Reading the row: only a PENDING one is processed, otherwise the job is finished. */
  function AfterStart(s: State, j: JobId): State {
    if JobAt(s, j, Queued) then
      if s.notes[j.note].status == PENDING then WithPhase(s, j, Parsing) else Done(s, j)
    else s
  }

  function CommitBuckets(t: Table, sub: Subscription, day: int): Table {
    if OnTrialPlan(sub) then Committed(Committed(t, Day(day)), Period(sub.createdAt)) else t
  }

  function CommitSubscription(t: Table, sub: Subscription, now: int): Subscription {
    if OnTrialPlan(sub) then AfterCommit(sub, At(t, Period(sub.createdAt)).used, now) else sub
  }

  /**
   * createTransaction: the payment row, PARSED and the quota commit in one
   * transaction; a second payment for the row breaks the unique key and rolls back.
   */
  function AfterCreate(s: State, j: JobId, now: int, today: int): State {
    if JobAt(s, j, Parsing) then
      if j.note in s.transactions then WithPhase(s, j, Queued)
      else
        var buckets := CommitBuckets(s.buckets, s.sub, s.notes[j.note].stamp.GetOr(today));
        Done(WithStatus(s, j.note, PARSED), j)
        .(transactions := s.transactions + [j.note],
          buckets := buckets,
          sub := CommitSubscription(buckets, s.sub, now))
    else s
  }

  /** The first transaction of markUnmatched. */
  function AfterMark(s: State, j: JobId): State {
    if JobAt(s, j, Parsing) then WithPhase(WithStatus(s, j.note, UNMATCHED), j, Releasing) else s
  }

  function ReleaseBuckets(t: Table, sub: Subscription, day: int): Table {
    if OnTrialPlan(sub) then Released(Released(t, Day(day)), Period(sub.createdAt)) else t
  }

  /** The second one: releaseQuota(tenant, 1, stamp). */
  function AfterRelease(s: State, j: JobId, today: int): State {
    if JobAt(s, j, Releasing) then
      Done(s, j).(buckets := ReleaseBuckets(s.buckets, s.sub, s.notes[j.note].stamp.GetOr(today)),
                  released := s.released + {j.note})
    else s
  }

  // ---- Administration -----------------------------------------------------

  predicate CanReprocess(notes: map<nat, Note>, n: nat) {
    n in notes && (notes[n].status == UNMATCHED || notes[n].status == ERROR)
  }

  predicate Reprocessable(s: State, n: nat) {
    CanReprocess(s.notes, n)
  }

  /** Writing back a row some reprocess request has read: PENDING again, no new reservation, a new job. */
  function AfterRequeue(s: State, n: nat, at: int): State {
    if n in s.found && n in s.notes then
      var j := ReprocessJob(n, at);
      WithStatus(s, n, PENDING)
      .(found := s.found - multiset{n},
        jobs := if j in s.seen then s.jobs else s.jobs[j := Queued],
        seen := s.seen + {j},
        requeued := s.requeued + multiset{s.notes[n].stamp})
    else s
  }

  function Next(s: State, e: Event): State {
    match e
    case Ingest(device, hashes, day) => AfterIngest(s, device, hashes, day)
    case Start(j) => AfterStart(s, j)
    case Fail(j) => if j in s.jobs then WithPhase(s, j, Queued) else s
    case Drop(j) => Done(s, j)
    case Commit(j, now, today) => AfterCreate(s, j, now, today)
    case Mark(j) => AfterMark(s, j)
    case Release(j, today) => AfterRelease(s, j, today)
    case Find(n) => if Reprocessable(s, n) then s.(found := s.found + multiset{n}) else s
    case Requeue(n, at) => AfterRequeue(s, n, at)
    case ReadDue(now) =>
      if TrialDue(s.sub, now) then s.(closing := Some(ClosingRead(s.sub.trialEndsAt.value, now))) else s
    case Close =>
      if s.closing.Some?
      then s.(sub := AfterClose(s.sub, s.closing.value.endsAt, s.closing.value.now), closing := None)
      else s
    case Change(to, toCycle, now) =>
      // A subscription never comes back to the trial plan.
      if Current(s.sub) && to.code != TRIAL_PLAN_CODE then s.(sub := AfterChange(s.sub, to, toCycle, now)) else s
    case Rollover(now) => s.(sub := RolledOver(s.sub, now))
  }

  function Run(s: State, es: seq<Event>): State
    decreases |es|
  {
    if |es| == 0 then s else Run(Next(s, es[0]), es[1..])
  }

  /** A tenant just registered: on the trial plan, nothing received yet. */
  function Registered(plan: Plan, createdAt: int): State {
    State(map[], 0, [], map[],
          Subscription(plan, MONTHLY, PENDING_TRIAL, createdAt, createdAt, createdAt, None, None, None, None, None, None),
          map[], {}, multiset{}, None, {}, multiset{})
  }

  // ---- What every run keeps -----------------------------------------------

  ghost predicate Linked(s: State) {
    && (forall n :: n in s.notes ==> n < s.nextId)
    && (forall j :: j in s.jobs ==> j in s.seen)
    && (forall j :: j in s.seen ==> j.note in s.notes)
    && (forall n :: n in s.transactions ==> n in s.notes)
  }

  ghost predicate DistinctPayments(s: State) {
    forall i, j :: 0 <= i < j < |s.transactions| ==> s.transactions[i] != s.transactions[j]
  }

  predicate SamePayload(a: Note, b: Note) {
    a.device == b.device && a.hash == b.hash
  }

  ghost predicate DistinctNotes(s: State) {
    forall n, m :: n in s.notes && m in s.notes && n != m ==> !SamePayload(s.notes[n], s.notes[m])
  }

  predicate StampedInTable(s: State, n: nat) {
    && n in s.notes
    && s.notes[n].stamp.Some?
    && Day(s.notes[n].stamp.value) in s.buckets
    && Period(s.sub.createdAt) in s.buckets
  }

  ghost predicate Stamped(s: State) {
    OnTrialPlan(s.sub) ==> forall n :: n in s.notes ==> StampedInTable(s, n)
  }

  predicate NoReturn(s: State) {
    s.sub.pendingPlan.Some? ==> s.sub.pendingPlan.value.code != TRIAL_PLAN_CODE
  }

  ghost predicate WellFormed(s: State) {
    Linked(s) && DistinctPayments(s) && DistinctNotes(s) && Stamped(s) && NoReturn(s)
  }

  /** Only ingest adds rows; every other event changes at most the status of one. */
  ghost predicate SameRows(s: State, t: State) {
    t.nextId == s.nextId && SameNotes(s.notes, t.notes)
  }

  ghost predicate SameNotes(a: map<nat, Note>, b: map<nat, Note>) {
    && a.Keys == b.Keys
    && forall n :: n in a ==> SamePayload(a[n], b[n]) && a[n].stamp == b[n].stamp
  }

  lemma StatusSameRows(s: State, n: nat, status: ParseStatus)
    requires n in s.notes
    ensures SameRows(s, WithStatus(s, n, status))
  {
  }

  lemma QuietSameRows(s: State, e: Event)
    requires !e.Ingest?
    ensures SameRows(s, Next(s, e))
  {
    match e
    case Commit(j, now, today) => if JobAt(s, j, Parsing) { StatusSameRows(s, j.note, PARSED); }
    case Mark(j) => if JobAt(s, j, Parsing) { StatusSameRows(s, j.note, UNMATCHED); }
    case Requeue(n, at) => if n in s.notes { StatusSameRows(s, n, PENDING); }
    case _ =>
  }

  lemma QuietSameBuckets(s: State, e: Event)
    requires !e.Ingest?
    ensures Next(s, e).buckets.Keys == s.buckets.Keys
  {
  }

  lemma SubscriptionStep(s: State, e: Event)
    requires NoReturn(s)
    ensures var t := Next(s, e);
            && NoReturn(t)
            && t.sub.createdAt == s.sub.createdAt
            && (OnTrialPlan(t.sub) ==> OnTrialPlan(s.sub) && t.sub.plan == s.sub.plan)
  {
  }

  lemma QuietJobs(s: State, e: Event)
    requires !e.Ingest?
    requires forall j :: j in s.jobs ==> j in s.seen
    requires forall j :: j in s.seen ==> j.note in s.notes
    ensures forall j :: j in Next(s, e).jobs ==> j in Next(s, e).seen
    ensures forall j :: j in Next(s, e).seen ==> j.note in s.notes
  {
  }

  lemma QuietPayments(s: State, e: Event)
    requires !e.Ingest?
    requires forall n :: n in s.transactions ==> n in s.notes
    ensures forall n :: n in Next(s, e).transactions ==> n in s.notes
  {
  }

  lemma QuietLinked(s: State, e: Event)
    requires !e.Ingest? && Linked(s)
    ensures Linked(Next(s, e))
  {
    var t := Next(s, e);
    QuietJobs(s, e);
    QuietPayments(s, e);
    assert t.notes.Keys == s.notes.Keys && t.nextId == s.nextId by { QuietSameRows(s, e); }
  }

  lemma QuietDistinctPayments(s: State, e: Event)
    requires !e.Ingest? && DistinctPayments(s)
    ensures DistinctPayments(Next(s, e))
  {
  }

  lemma IngestLinked(s: State, device: int, hashes: seq<int>, day: int)
    requires Linked(s)
    ensures Linked(AfterIngest(s, device, hashes, day))
  {
  }

  lemma IngestDistinctNotes(s: State, device: int, hashes: seq<int>, day: int)
    requires Linked(s) && DistinctNotes(s)
    ensures DistinctNotes(AfterIngest(s, device, hashes, day))
  {
    var unseen := Fresh(s.notes, device, hashes);
    var t := AfterIngest(s, device, hashes, day);
    forall n, m | n in t.notes && m in t.notes && n != m
      ensures !SamePayload(t.notes[n], t.notes[m])
    {
      if n in s.notes && m !in s.notes { assert t.notes[m].hash in unseen; }
      if n !in s.notes && m in s.notes { assert t.notes[n].hash in unseen; }
    }
  }

  lemma IngestStamped(s: State, device: int, hashes: seq<int>, day: int)
    requires Stamped(s)
    ensures Stamped(AfterIngest(s, device, hashes, day))
  {
    var t := AfterIngest(s, device, hashes, day);
    if OnTrialPlan(s.sub) {
      forall n | n in t.notes ensures StampedInTable(t, n) {
        assert n in s.notes ==> StampedInTable(s, n);
      }
    }
  }

  lemma StepWellFormed(s: State, e: Event)
    requires WellFormed(s)
    ensures WellFormed(Next(s, e))
  {
    SubscriptionStep(s, e);
    if e.Ingest? {
      IngestLinked(s, e.device, e.hashes, e.day);
      IngestDistinctNotes(s, e.device, e.hashes, e.day);
      IngestStamped(s, e.device, e.hashes, e.day);
    } else {
      QuietSameRows(s, e);
      QuietSameBuckets(s, e);
      QuietLinked(s, e);
      QuietDistinctPayments(s, e);
      var t := Next(s, e);
      if OnTrialPlan(t.sub) {
        forall n | n in t.notes ensures StampedInTable(t, n) { assert StampedInTable(s, n); }
      }
    }
  }
}
