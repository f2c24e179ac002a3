/**
 * The ingest, parsing and reprocess use cases over one tenant's tables, updated in
 * place. Each method is shown to be a step, or a run of steps, of QuotaProtocol.
 */
module TenantTables {
  import opened Wrappers
  import opened UsageBuckets
  import opened Subscriptions
  import opened QuotaProtocol
  import opened IngestGate
  import TrialLifecycle

  datatype Item = Item(clientRef: string, hash: int)

  datatype Answer =
    | QueuedAs(clientRef: string, id: nat)
    | DuplicateOf(clientRef: string, existing: Option<nat>)
    | RejectedFor(clientRef: string, reason: BlockedReason)

  datatype IngestError = Access(error: AccessError) | MonthlyLimit

  datatype Reply = Reply(accepted: seq<Answer>, rejected: seq<Answer>)

  function Hashes(items: seq<Item>): seq<int> {
    seq(|items|, i requires 0 <= i < |items| => items[i].hash)
  }

  // ---- What an answer means -----------------------------------------------

  /**
   * The answer an item must get, from the rows before and after the batch: a row
   * that is new is queued, a row that was there is a duplicate, and an item
   * without a row lost its place to the quota.
   */
  ghost predicate RightAnswer(before: map<nat, Note>, after: map<nat, Note>, device: int, item: Item, a: Answer) {
    && a.clientRef == item.clientRef
    && match a
       case QueuedAs(_, id) => !Known(before, device, item.hash) && IsRow(after, id, device, item.hash)
       case DuplicateOf(_, existing) =>
         existing.Some? && IsRow(before, existing.value, device, item.hash) && IsRow(after, existing.value, device, item.hash)
       case RejectedFor(_, reason) => !Known(before, device, item.hash) && !Known(after, device, item.hash)
  }

  // ---- One batch of rows --------------------------------------------------

  /** What the database transaction of an ingest request did: rows base, base + 1, .. for the unseen hashes, k of them kept. */
  datatype Batch = Batch(device: int, base: nat, unseen: seq<int>, kept: nat, stamp: Option<int>)
  {
    function Rows(): map<nat, Note>
      requires kept <= |unseen|
    {
      NewNotes(base, device, unseen, kept, stamp)
    }

    ghost predicate For(before: map<nat, Note>, hashes: seq<int>) {
      && kept <= |unseen|
      && (forall n :: n in before ==> n < base)
      && (forall h :: h in unseen <==> h in hashes && !Known(before, device, h))
      && (forall i, j :: 0 <= i < j < |unseen| ==> unseen[i] != unseen[j])
    }
  }

  lemma KeptRow(b: Batch, before: map<nat, Note>, m: nat)
    requires m < b.kept <= |b.unseen|
    ensures IsRow(before + b.Rows(), b.base + m, b.device, b.unseen[m])
  {
  }

  lemma GivenUpRow(b: Batch, before: map<nat, Note>, hashes: seq<int>, h: int)
    requires b.For(before, hashes) && h in b.unseen[b.kept..]
    ensures !Known(before + b.Rows(), b.device, h)
  {
    var after := before + b.Rows();
    assert h in b.unseen && !Known(before, b.device, h);
    var m :| b.kept <= m < |b.unseen| && b.unseen[m] == h;
    forall n | n in after ensures !IsRow(after, n, b.device, h) {
      if b.base <= n < b.base + b.kept {
        assert b.unseen[n - b.base] != b.unseen[m];
      } else {
        assert !IsRow(before, n, b.device, h);
      }
    }
  }

  lemma OldRow(b: Batch, before: map<nat, Note>, hashes: seq<int>, h: int)
    requires b.For(before, hashes) && h in hashes && h !in b.unseen
    ensures var after := before + b.Rows();
            && Known(after, b.device, h)
            && (forall n :: n in after && IsRow(after, n, b.device, h) ==> IsRow(before, n, b.device, h))
  {
    var after := before + b.Rows();
    var n :| n in before && IsRow(before, n, b.device, h);
    assert IsRow(after, n, b.device, h);
  }

  // ---- The answers --------------------------------------------------------

  function Accepted(answers: seq<Answer>): seq<Answer> {
    if |answers| == 0 then []
    else
      var last := answers[|answers| - 1];
      Accepted(answers[..|answers| - 1]) + if last.RejectedFor? then [] else [last]
  }

  function Rejected(answers: seq<Answer>): seq<Answer> {
    if |answers| == 0 then []
    else
      var last := answers[|answers| - 1];
      Rejected(answers[..|answers| - 1]) + if last.RejectedFor? then [last] else []
  }

  /** Every item is answered once: the two lists together have one entry per item. */
  lemma {:induction false} OneAnswerEach(answers: seq<Answer>)
    ensures |Accepted(answers)| + |Rejected(answers)| == |answers|
    ensures forall a :: a in answers <==> a in Accepted(answers) || a in Rejected(answers)
  {
    if |answers| > 0 {
      var rest := answers[..|answers| - 1];
      assert answers == rest + [answers[|answers| - 1]];
      OneAnswerEach(rest);
    }
  }

  /** The parser jobs of the answers so far. */
  function JobsIn(answers: seq<Answer>): set<JobId> {
    set a | a in answers && a.QueuedAs? :: FirstJob(a.id)
  }

  /** The right answer, the reason of the reservation, and the id of a row that was kept. */
  ghost predicate ItemDone(b: Batch, before: map<nat, Note>, after: map<nat, Note>, reason: BlockedReason, item: Item, a: Answer)
    requires b.kept <= |b.unseen|
  {
    && RightAnswer(before, after, b.device, item, a)
    && (a.RejectedFor? ==> b.kept < |b.unseen| && a.reason == reason)
    && (a.QueuedAs? ==> b.base <= a.id < b.base + b.kept)
    && (forall m :: 0 <= m < b.kept && b.unseen[m] == item.hash ==> a.QueuedAs? && a.id == b.base + m)
  }

  ghost predicate AllDone(b: Batch, before: map<nat, Note>, after: map<nat, Note>, reason: BlockedReason,
                          items: seq<Item>, answers: seq<Answer>)
    requires b.kept <= |b.unseen|
  {
    && |answers| == |items|
    && forall i :: 0 <= i < |items| ==> ItemDone(b, before, after, reason, items[i], answers[i])
  }

  /** The jobs of a finished answer list are exactly the jobs of the rows kept. */
  lemma AllQueued(b: Batch, before: map<nat, Note>, after: map<nat, Note>, reason: BlockedReason,
                  items: seq<Item>, answers: seq<Answer>)
    requires b.For(before, Hashes(items)) && AllDone(b, before, after, reason, items, answers)
    ensures JobsIn(answers) == JobsOf(b.base, b.base + b.kept)
  {
    forall j | j in JobsOf(b.base, b.base + b.kept) ensures j in JobsIn(answers) {
      var m := j.note - b.base;
      assert b.unseen[m] in b.unseen;
      var i :| 0 <= i < |items| && Hashes(items)[i] == b.unseen[m];
      assert ItemDone(b, before, after, reason, items[i], answers[i]);
      assert answers[i] in answers;
    }
    forall j | j in JobsIn(answers) ensures j in JobsOf(b.base, b.base + b.kept) {
      var i :| 0 <= i < |answers| && answers[i].QueuedAs? && FirstJob(answers[i].id) == j;
      assert ItemDone(b, before, after, reason, items[i], answers[i]);
    }
  }

  /** A batch whose items are all known is answered DUPLICATE throughout. */
  lemma KnownItemsAreDuplicates(b: Batch, before: map<nat, Note>, after: map<nat, Note>, reason: BlockedReason,
                                items: seq<Item>, answers: seq<Answer>)
    requires b.kept <= |b.unseen| && AllDone(b, before, after, reason, items, answers)
    requires forall h :: h in Hashes(items) ==> Known(before, b.device, h)
    ensures forall i :: 0 <= i < |answers| ==> answers[i].DuplicateOf?
    ensures Accepted(answers) == answers && Rejected(answers) == []
  {
    forall i | 0 <= i < |answers| ensures answers[i].DuplicateOf? {
      assert Hashes(items)[i] in Hashes(items);
      assert ItemDone(b, before, after, reason, items[i], answers[i]);
    }
    NoneRejected(answers);
  }

  lemma {:induction false} NoneRejected(answers: seq<Answer>)
    requires forall i :: 0 <= i < |answers| ==> answers[i].DuplicateOf?
    ensures Accepted(answers) == answers && Rejected(answers) == []
  {
    if |answers| > 0 {
      var init := answers[..|answers| - 1];
      assert answers == init + [answers[|answers| - 1]];
      NoneRejected(init);
    }
  }

  lemma OneMoreAnswer(answers: seq<Answer>, a: Answer)
    ensures Accepted(answers + [a]) == Accepted(answers) + (if a.RejectedFor? then [] else [a])
    ensures Rejected(answers + [a]) == Rejected(answers) + (if a.RejectedFor? then [a] else [])
  {
    assert (answers + [a])[..|answers|] == answers;
  }

  lemma OneMoreJob(answers: seq<Answer>, a: Answer)
    ensures JobsIn(answers + [a]) == if a.QueuedAs? then JobsIn(answers) + {FirstJob(a.id)} else JobsIn(answers)
  {
    forall x ensures x in answers + [a] <==> x in answers || x == a {}
  }

  lemma OneMoreDone(b: Batch, before: map<nat, Note>, after: map<nat, Note>, reason: BlockedReason,
                    items: seq<Item>, i: nat, answers: seq<Answer>, a: Answer)
    requires b.kept <= |b.unseen| && i < |items|
    requires AllDone(b, before, after, reason, items[..i], answers)
    requires ItemDone(b, before, after, reason, items[i], a)
    ensures AllDone(b, before, after, reason, items[..i + 1], answers + [a])
  {
    var more := answers + [a];
    forall k | 0 <= k < i + 1 ensures ItemDone(b, before, after, reason, items[..i + 1][k], more[k]) {
      if k < i { assert ItemDone(b, before, after, reason, items[..i][k], answers[k]); }
    }
  }

  /** The queue after adding some jobs that it had never seen. */
  function WithJobs(jobs: map<JobId, Phase>, added: set<JobId>): map<JobId, Phase> {
    jobs + map j | j in added :: Queued
  }

  ghost predicate Queueing(jobs0: map<JobId, Phase>, seen0: set<JobId>, added: set<JobId>,
                           jobs: map<JobId, Phase>, seen: set<JobId>) {
    jobs == WithJobs(jobs0, added) && seen == seen0 + added
  }

  lemma QueueingOneMore(jobs0: map<JobId, Phase>, seen0: set<JobId>, added: set<JobId>, j: JobId)
    requires j !in seen0
    ensures var jobs, seen := WithJobs(jobs0, added), seen0 + added;
            Queueing(jobs0, seen0, added + {j}, if j in seen then jobs else jobs[j := Queued], seen + {j})
  {
    assert seen0 + added + {j} == seen0 + (added + {j});
  }

  /** The outcomes of a batch as the answer loop looks them up. */
  ghost predicate Lookup(b: Batch, insertedByHash: map<int, nat>, quotaRejected: set<int>)
    requires b.kept <= |b.unseen|
  {
    && (forall h :: h in insertedByHash ==> exists m :: 0 <= m < b.kept && b.unseen[m] == h && insertedByHash[h] == b.base + m)
    && (forall m :: 0 <= m < b.kept ==> b.unseen[m] in insertedByHash && insertedByHash[b.unseen[m]] == b.base + m)
    && (forall h :: h in quotaRejected <==> h in b.unseen[b.kept..])
  }

  lemma FoundKept(b: Batch, before: map<nat, Note>, hashes: seq<int>, reason: BlockedReason, item: Item,
                  insertedByHash: map<int, nat>, quotaRejected: set<int>)
    requires b.For(before, hashes) && Lookup(b, insertedByHash, quotaRejected) && item.hash in insertedByHash
    ensures ItemDone(b, before, before + b.Rows(), reason, item, QueuedAs(item.clientRef, insertedByHash[item.hash]))
  {
    var m :| 0 <= m < b.kept && b.unseen[m] == item.hash && insertedByHash[item.hash] == b.base + m;
    KeptIsDone(b, before, hashes, reason, item, m);
  }

  lemma KeptIsDone(b: Batch, before: map<nat, Note>, hashes: seq<int>, reason: BlockedReason, item: Item, m: nat)
    requires b.For(before, hashes) && m < b.kept && b.unseen[m] == item.hash
    ensures ItemDone(b, before, before + b.Rows(), reason, item, QueuedAs(item.clientRef, b.base + m))
  {
    assert b.unseen[m] in b.unseen;
    KeptRow(b, before, m);
  }

  lemma FoundRejected(b: Batch, before: map<nat, Note>, hashes: seq<int>, reason: BlockedReason, item: Item,
                      insertedByHash: map<int, nat>, quotaRejected: set<int>)
    requires b.For(before, hashes) && Lookup(b, insertedByHash, quotaRejected) && item.hash in quotaRejected
    ensures ItemDone(b, before, before + b.Rows(), reason, item, RejectedFor(item.clientRef, reason))
  {
    GivenUpRow(b, before, hashes, item.hash);
    assert item.hash in b.unseen;
  }

  lemma FoundNeither(b: Batch, before: map<nat, Note>, hashes: seq<int>, reason: BlockedReason, item: Item,
                     insertedByHash: map<int, nat>, quotaRejected: set<int>)
    requires b.For(before, hashes) && Lookup(b, insertedByHash, quotaRejected)
    requires item.hash in hashes && item.hash !in insertedByHash && item.hash !in quotaRejected
    ensures var after := before + b.Rows();
            && Known(after, b.device, item.hash)
            && (forall n :: IsRow(after, n, b.device, item.hash) ==>
                              ItemDone(b, before, after, reason, item, DuplicateOf(item.clientRef, Some(n))))
  {
    assert item.hash !in b.unseen by { assert b.unseen == b.unseen[..b.kept] + b.unseen[b.kept..]; }
    OldRow(b, before, hashes, item.hash);
  }

  method LookupTables(b: Batch) returns (insertedByHash: map<int, nat>, quotaRejected: set<int>)
    requires b.kept <= |b.unseen|
    requires forall i, j :: 0 <= i < j < |b.unseen| ==> b.unseen[i] != b.unseen[j]
    ensures Lookup(b, insertedByHash, quotaRejected)
  {
    insertedByHash := map[];
    for i := 0 to b.kept
      invariant forall h :: h in insertedByHash ==> exists m :: 0 <= m < i && b.unseen[m] == h && insertedByHash[h] == b.base + m
      invariant forall m :: 0 <= m < i ==> b.unseen[m] in insertedByHash && insertedByHash[b.unseen[m]] == b.base + m
    {
      insertedByHash := insertedByHash[b.unseen[i] := b.base + i];
    }
    quotaRejected := set h | h in b.unseen[b.kept..];
  }

  function TrialTermsOf(sub: Subscription): Option<TrialTerms> {
    if OnTrialPlan(sub) then Some(Terms(sub)) else None
  }

  /** The batch an ingest request stores, from the rows, buckets and subscription it finds. */
  function BatchOf(s: State, device: int, hashes: seq<int>, day: int): Batch {
    var unseen := Fresh(s.notes, device, hashes);
    Batch(device, s.nextId, unseen, if |unseen| == 0 then 0 else KeptCount(s, |unseen|, day),
          if OnTrialPlan(s.sub) then Some(day) else None)
  }

  lemma BatchIsFor(s: State, device: int, hashes: seq<int>, day: int)
    requires Linked(s)
    ensures BatchOf(s, device, hashes, day).For(s.notes, hashes)
  {
  }

  function ReasonOf(s: State, n: nat, day: int): Option<BlockedReason> {
    if n > 0 && OnTrialPlan(s.sub) then ReasonFor(s.buckets, Day(day), Terms(s.sub), n) else None
  }

  function BucketsOf(s: State, n: nat, day: int): Table {
    if n > 0 && OnTrialPlan(s.sub) then TableAfterReserve(s.buckets, Day(day), Terms(s.sub), n) else s.buckets
  }

  /** What the transaction and the queueing of a batch leave behind is one step of the protocol. */
  lemma BatchIsStep(s: State, device: int, hashes: seq<int>, day: int)
    ensures var b := BatchOf(s, device, hashes, day);
            Next(s, Ingest(device, hashes, day)) == AfterBatch(s, b, BucketsOf(s, |b.unseen|, day))
  {
    var b := BatchOf(s, device, hashes, day);
    if |b.unseen| == 0 { EmptyBatch(s, b); } else { FullBatch(s, device, b.unseen, b.kept, day); }
  }

  lemma FullBatch(s: State, device: int, unseen: seq<int>, k: nat, day: int)
    requires 0 < |unseen| && k <= |unseen|
    ensures Kept(s, device, unseen, k, day)
         == AfterBatch(s, Batch(device, s.nextId, unseen, k, if OnTrialPlan(s.sub) then Some(day) else None),
                       BucketsOf(s, |unseen|, day))
  {
  }

  function AfterBatch(s: State, b: Batch, buckets: Table): State
    requires b.kept <= |b.unseen|
  {
    var added := JobsOf(b.base, b.base + b.kept);
    s.(notes := s.notes + b.Rows(), nextId := s.nextId + |b.unseen|, buckets := buckets,
       jobs := WithJobs(s.jobs, added), seen := s.seen + added)
  }

  lemma StoredAndQueued(s: State, b: Batch, buckets: Table, stored: State, t: State)
    requires b.kept <= |b.unseen|
    requires stored == s.(notes := s.notes + b.Rows(), nextId := s.nextId + |b.unseen|, buckets := buckets)
    requires var added := JobsOf(b.base, b.base + b.kept);
             t == stored.(jobs := WithJobs(stored.jobs, added), seen := stored.seen + added)
    ensures t == AfterBatch(s, b, buckets)
  {
  }

  lemma EmptyBatch(s: State, b: Batch)
    requires b.kept == |b.unseen| == 0
    ensures AfterBatch(s, b, s.buckets) == s
  {
    assert s.notes + b.Rows() == s.notes;
    var added := JobsOf(b.base, b.base + b.kept);
    assert added == {};
    assert WithJobs(s.jobs, added) == s.jobs;
  }

  function ReleaseTimes(t: Table, sub: Subscription, day: int, count: int): Table
    decreases count
  {
    if count <= 0 then t else ReleaseBuckets(ReleaseTimes(t, sub, day, count - 1), sub, day)
  }

  lemma {:induction false} ReleaseOffTrial(t: Table, sub: Subscription, day: int, count: int)
    requires count <= 0 || !OnTrialPlan(sub)
    ensures ReleaseTimes(t, sub, day, count) == t
    decreases count
  {
    if count > 0 { ReleaseOffTrial(t, sub, day, count - 1); }
  }

  /** Each of the `count` releases takes one unit of both rows, down to zero, and nothing else. */
  lemma {:induction false} ReleaseTimesMeaning(t: Table, sub: Subscription, day: int, count: nat)
    requires OnTrialPlan(sub)
    ensures var after := ReleaseTimes(t, sub, day, count);
            && after.Keys == t.Keys
            && forall w :: w in t ==>
                 after[w] == if w == Day(day) || w == Period(sub.createdAt)
                             then Bucket(t[w].used, Max(0, t[w].reserved - count)) else t[w]
    decreases count
  {
    if count > 0 { ReleaseTimesMeaning(t, sub, day, count - 1); }
  }

  // ---- Reprocessing -------------------------------------------------------

  /** findMany: the requested rows that are UNMATCHED or ERROR, each once. */
  function Eligible(notes: map<nat, Note>, ids: seq<nat>): (rows: seq<nat>)
    ensures forall n :: n in rows <==> n in ids && CanReprocess(notes, n)
    ensures forall i, j :: 0 <= i < j < |rows| ==> rows[i] != rows[j]
  {
    if |ids| == 0 then []
    else
      var n := ids[|ids| - 1];
      var rest := Eligible(notes, ids[..|ids| - 1]);
      if CanReprocess(notes, n) && n !in rest then rest + [n] else rest
  }

  function Finds(rows: seq<nat>): seq<Event> {
    seq(|rows|, i requires 0 <= i < |rows| => Find(rows[i]))
  }

  function Requeues(rows: seq<nat>, clock: nat -> int): seq<Event> {
    seq(|rows|, i requires 0 <= i < |rows| => Requeue(rows[i], clock(i)))
  }

  /** updateMany: those rows are PENDING again. */
  function PendingRows(notes: map<nat, Note>, rows: seq<nat>): map<nat, Note> {
    map n | n in notes :: if n in rows then notes[n].(status := PENDING) else notes[n]
  }

  lemma {:induction false} RunSnoc(s: State, es: seq<Event>, e: Event)
    ensures Run(s, es + [e]) == Next(Run(s, es), e)
    decreases |es|
  {
    if |es| == 0 {
      assert Run(s, [e]) == Run(Next(s, e), [e][1..]);
      assert es + [e] == [e];
    } else {
      assert (es + [e])[1..] == es[1..] + [e];
      RunSnoc(Next(s, es[0]), es[1..], e);
    }
  }

  lemma {:induction false} RunFinds(s: State, rows: seq<nat>)
    requires forall n :: n in rows ==> Reprocessable(s, n)
    ensures Run(s, Finds(rows)) == s.(found := s.found + multiset(rows))
    decreases |rows|
  {
    if |rows| == 0 {
      assert s.found + multiset(rows) == s.found;
    } else {
      var init, n := rows[..|rows| - 1], rows[|rows| - 1];
      assert rows == init + [n];
      assert Finds(rows) == Finds(init) + [Find(n)];
      RunSnoc(s, Finds(init), Find(n));
      RunFinds(s, init);
      FindMore(s, s.found + multiset(init), n);
      assert s.found + multiset(init) + multiset{n} == s.found + multiset(rows);
    }
  }

  lemma FindMore(s: State, found: multiset<nat>, n: nat)
    requires Reprocessable(s, n)
    ensures Next(s.(found := found), Find(n)) == s.(found := found + multiset{n})
  {
  }

  /** The queue after adding a reprocess job for each row in turn. */
  function JobsAfter(jobs: map<JobId, Phase>, seen: set<JobId>, rows: seq<nat>, clock: nat -> int): map<JobId, Phase> {
    if |rows| == 0 then jobs
    else
      var init, last := rows[..|rows| - 1], |rows| - 1;
      var j := ReprocessJob(rows[last], clock(last));
      var before := JobsAfter(jobs, seen, init, clock);
      if j in SeenAfter(seen, init, clock) then before else before[j := Queued]
  }

  function SeenAfter(seen: set<JobId>, rows: seq<nat>, clock: nat -> int): set<JobId> {
    if |rows| == 0 then seen
    else SeenAfter(seen, rows[..|rows| - 1], clock) + {ReprocessJob(rows[|rows| - 1], clock(|rows| - 1))}
  }

  /** Where a reprocess request stands after queueing the first i rows. */
  function Requeued(s: State, rows: seq<nat>, i: nat, clock: nat -> int, requeued: multiset<Option<int>>): State
    requires i <= |rows|
  {
    s.(notes := PendingRows(s.notes, rows[..i]), found := s.found + multiset(rows[i..]),
       jobs := JobsAfter(s.jobs, s.seen, rows[..i], clock), seen := SeenAfter(s.seen, rows[..i], clock),
       requeued := requeued)
  }

  lemma RequeueStep(s: State, n: nat, at: int)
    requires n in s.found && n in s.notes
    ensures var j := ReprocessJob(n, at);
            Next(s, Requeue(n, at)) ==
            s.(notes := s.notes[n := s.notes[n].(status := PENDING)], found := s.found - multiset{n},
               jobs := if j in s.seen then s.jobs else s.jobs[j := Queued], seen := s.seen + {j},
               requeued := s.requeued + multiset{s.notes[n].stamp})
  {
  }

  lemma RequeueMore(s: State, rows: seq<nat>, i: nat, clock: nat -> int, r: multiset<Option<int>>)
    requires i < |rows| && rows[i] in s.notes
    ensures var t := Next(Requeued(s, rows, i, clock, r), Requeue(rows[i], clock(i)));
            t == Requeued(s, rows, i + 1, clock, t.requeued)
  {
    assert rows[i..] == [rows[i]] + rows[i + 1..];
    var g := Requeued(s, rows, i, clock, r);
    assert g.found - multiset{rows[i]} == s.found + multiset(rows[i + 1..]);
    assert rows[..i + 1][..i] == rows[..i];
    PendingMore(s.notes, rows, i);
    RequeueStep(g, rows[i], clock(i));
  }

  lemma PendingMore(notes: map<nat, Note>, rows: seq<nat>, i: nat)
    requires i < |rows| && rows[i] in notes
    ensures var done := PendingRows(notes, rows[..i]);
            PendingRows(notes, rows[..i + 1]) == done[rows[i] := done[rows[i]].(status := PENDING)]
  {
    assert rows[..i + 1] == rows[..i] + [rows[i]];
  }

  lemma OneMoreRequeue(start: State, rows: seq<nat>, i: nat, clock: nat -> int)
    requires i < |rows|
    ensures Run(start, Requeues(rows[..i + 1], clock)) == Next(Run(start, Requeues(rows[..i], clock)), Requeue(rows[i], clock(i)))
  {
    assert Requeues(rows[..i + 1], clock) == Requeues(rows[..i], clock) + [Requeue(rows[i], clock(i))];
    RunSnoc(start, Requeues(rows[..i], clock), Requeue(rows[i], clock(i)));
  }

  lemma NoRequeues(s: State, rows: seq<nat>, clock: nat -> int)
    ensures var start := s.(found := s.found + multiset(rows));
            Run(start, Requeues(rows[..0], clock)) == start == Requeued(s, rows, 0, clock, s.requeued)
  {
    assert PendingRows(s.notes, rows[..0]) == s.notes;
    assert rows[0..] == rows;
  }

  lemma {:induction false} RunRequeues(s: State, rows: seq<nat>, i: nat, clock: nat -> int)
    requires i <= |rows| && forall n :: n in rows ==> n in s.notes
    ensures var g := Run(s.(found := s.found + multiset(rows)), Requeues(rows[..i], clock));
            g == Requeued(s, rows, i, clock, g.requeued)
    decreases i
  {
    var start := s.(found := s.found + multiset(rows));
    if i == 0 {
      NoRequeues(s, rows, clock);
    } else {
      RunRequeues(s, rows, i - 1, clock);
      OneMoreRequeue(start, rows, i - 1, clock);
      RequeueMore(s, rows, i - 1, clock, Run(start, Requeues(rows[..i - 1], clock)).requeued);
    }
  }

  /** The whole request as a run: nothing but rows, queue and the count of requeued rows differs. */
  lemma ReprocessIsRun(s: State, ids: seq<nat>, clock: nat -> int)
    ensures var rows := Eligible(s.notes, ids);
            var t := Run(Run(s, Finds(rows)), Requeues(rows, clock));
            t == s.(notes := PendingRows(s.notes, rows), jobs := JobsAfter(s.jobs, s.seen, rows, clock),
                    seen := SeenAfter(s.seen, rows, clock), requeued := t.requeued)
  {
    var rows := Eligible(s.notes, ids);
    RunFinds(s, rows);
    RunRequeues(s, rows, |rows|, clock);
    assert rows[..|rows|] == rows;
    assert s.found + multiset(rows[|rows|..]) == s.found;
  }

  class TenantStore {
    var notes: map<nat, Note>
    var nextId: nat
    var transactions: seq<nat>
    var sub: Subscription
    var jobs: map<JobId, Phase>
    var seen: set<JobId>
    ghost var found: multiset<nat>
    ghost var closing: Option<ClosingRead>
    ghost var released: set<nat>
    ghost var requeued: multiset<Option<int>>
    const buckets: BucketStore

    constructor (plan: Plan, createdAt: int)
      ensures Snapshot() == Registered(plan, createdAt) && fresh(buckets)
    {
      var registered := Registered(plan, createdAt);
      notes, nextId, transactions, sub := registered.notes, registered.nextId, registered.transactions, registered.sub;
      jobs, seen, found, closing := registered.jobs, registered.seen, registered.found, registered.closing;
      released, requeued := {}, multiset{};
      buckets := new BucketStore();
    }

    ghost function Snapshot(): State
      reads this, buckets
    {
      State(notes, nextId, transactions, buckets.rows, sub, jobs, seen, found, closing, released, requeued)
    }

    // ---- Ingest -----------------------------------------------------------

    /** INSERT .. ON CONFLICT (device_id, dedupe_hash) DO NOTHING RETURNING. */
    method InsertRows(device: int, hashes: seq<int>) returns (unseen: seq<int>)
      modifies this`notes, this`nextId
      ensures unseen == Fresh(old(notes), device, hashes)
      ensures nextId == old(nextId) + |unseen|
      ensures notes == old(notes) + NewNotes(old(nextId), device, unseen, |unseen|, None)
    {
      unseen := [];
      var before := notes;
      for i := 0 to |hashes|
        invariant unseen == Fresh(before, device, hashes[..i])
      {
        var h := hashes[i];
        assert hashes[..i + 1][..i] == hashes[..i];
        if !Known(before, device, h) && h !in unseen { unseen := unseen + [h]; }
      }
      assert hashes[..|hashes|] == hashes;
      notes := before + NewNotes(nextId, device, unseen, |unseen|, None);
      nextId := nextId + |unseen|;
    }

    /** Deletes the rows that got no reservation and stamps the ones that did. */
    method TrimAndStamp(ghost before: map<nat, Note>, base: nat, device: int, unseen: seq<int>, kept: nat, day: Option<int>)
      requires kept <= |unseen|
      requires forall n :: n in before ==> n < base
      requires notes == before + NewNotes(base, device, unseen, |unseen|, None)
      modifies this`notes
      ensures notes == before + NewNotes(base, device, unseen, kept, day)
    {
      notes := map n | n in notes && n < base + kept :: notes[n];
      assert notes == before + NewNotes(base, device, unseen, kept, None);
      if day.Some? && kept > 0 {
        notes := map n | n in notes :: if base <= n then notes[n].(stamp := day) else notes[n];
      }
    }

    /** The database transaction of an ingest request. */
    method StoreBatch(device: int, hashes: seq<int>, day: int) returns (b: Batch, blocked: Option<BlockedReason>)
      requires forall n :: n in notes ==> n < nextId
      modifies this`notes, this`nextId, buckets
      ensures b == BatchOf(old(Snapshot()), device, hashes, day)
      ensures var s := old(Snapshot());
              Snapshot() == s.(notes := s.notes + b.Rows(), nextId := s.nextId + |b.unseen|,
                               buckets := BucketsOf(s, |b.unseen|, day))
      ensures blocked == ReasonOf(old(Snapshot()), |b.unseen|, day)
    {
      var base := nextId;
      ghost var before := notes;
      var unseen := InsertRows(device, hashes);
      var r := buckets.ReserveQuota(TrialTermsOf(sub), |unseen|, day);
      TrimAndStamp(before, base, device, unseen, r.count, r.day);
      b := Batch(device, base, unseen, r.count, if OnTrialPlan(sub) then Some(day) else None);
      blocked := r.blocked;
    }

    /** queue.add with a job id: a known id is ignored. */
    method Enqueue(j: JobId)
      modifies this`jobs, this`seen
      ensures jobs == if j in old(seen) then old(jobs) else old(jobs)[j := Queued]
      ensures seen == old(seen) + {j}
    {
      if j !in seen {
        jobs, seen := jobs[j := Queued], seen + {j};
      }
    }

    method FindRow(device: int, hash: int) returns (n: Option<nat>)
      ensures n.Some? ==> IsRow(notes, n.value, device, hash)
      ensures n.None? ==> !Known(notes, device, hash)
    {
      if Known(notes, device, hash) {
        var m :| m in notes && IsRow(notes, m, device, hash);
        n := Some(m);
      } else {
        n := None;
      }
    }

    /** One round of the answer loop, up to the queue. */
    method AnswerItem(b: Batch, ghost before: map<nat, Note>, items: seq<Item>, i: nat,
                      insertedByHash: map<int, nat>, quotaRejected: set<int>, reason: BlockedReason)
      returns (a: Answer)
      requires i < |items| && b.For(before, Hashes(items)) && notes == before + b.Rows()
      requires Lookup(b, insertedByHash, quotaRejected)
      ensures ItemDone(b, before, notes, reason, items[i], a)
    {
      var item := items[i];
      assert item.hash == Hashes(items)[i];
      if item.hash in insertedByHash {
        a := QueuedAs(item.clientRef, insertedByHash[item.hash]);
        FoundKept(b, before, Hashes(items), reason, item, insertedByHash, quotaRejected);
      } else if item.hash in quotaRejected {
        a := RejectedFor(item.clientRef, reason);
        FoundRejected(b, before, Hashes(items), reason, item, insertedByHash, quotaRejected);
      } else {
        FoundNeither(b, before, Hashes(items), reason, item, insertedByHash, quotaRejected);
        var existing := FindRow(b.device, item.hash);
        a := DuplicateOf(item.clientRef, existing);
        assert ItemDone(b, before, notes, reason, item, a);
      }
    }

    /** Answers every item in order, and queues a parser job for every row kept. */
    method AnswerItems(b: Batch, ghost before: map<nat, Note>, items: seq<Item>, reason: BlockedReason)
      returns (accepted: seq<Answer>, rejected: seq<Answer>, ghost answers: seq<Answer>)
      requires b.For(before, Hashes(items)) && notes == before + b.Rows()
      requires forall j :: j in seen ==> j.note < b.base
      modifies this`jobs, this`seen
      ensures AllDone(b, before, notes, reason, items, answers)
      ensures accepted == Accepted(answers) && rejected == Rejected(answers)
      ensures var added := JobsOf(b.base, b.base + b.kept);
              var s := old(Snapshot());
              Snapshot() == s.(jobs := WithJobs(s.jobs, added), seen := s.seen + added)
    {
      accepted, rejected, answers := [], [], [];
      var insertedByHash, quotaRejected := LookupTables(b);
      ghost var after, jobs0, seen0 := notes, jobs, seen;
      for i := 0 to |items|
        invariant AllDone(b, before, after, reason, items[..i], answers)
        invariant accepted == Accepted(answers) && rejected == Rejected(answers)
        invariant Queueing(jobs0, seen0, JobsIn(answers), jobs, seen)
      {
        var a := AnswerItem(b, before, items, i, insertedByHash, quotaRejected, reason);
        OneMoreDone(b, before, after, reason, items, i, answers, a);
        if a.QueuedAs? {
          Enqueue(FirstJob(a.id));
          QueueingOneMore(jobs0, seen0, JobsIn(answers), FirstJob(a.id));
        }
        if a.RejectedFor? { rejected := rejected + [a]; } else { accepted := accepted + [a]; }
        OneMoreAnswer(answers, a);
        OneMoreJob(answers, a);
        answers := answers + [a];
        assert Queueing(jobs0, seen0, JobsIn(answers), jobs, seen);
      }
      assert items[..|items|] == items;
      AllQueued(b, before, after, reason, items, answers);
    }

    /**
     * POST /ingest: the gate, the transaction, then one answer per item. It is refused
     * access exactly unless the trial has not begun, its set clock still runs, or the
     * subscription is paid; past that only a paid plan over its monthly count is refused.
     */
    method IngestNotifications(device: int, items: seq<Item>, day: int, now: int, underMonthlyLimit: bool)
      returns (r: Result<Reply, IngestError>, ghost answers: seq<Answer>)
      requires WellFormed(Snapshot())
      modifies this`notes, this`nextId, this`jobs, this`seen, buckets
      ensures var s := old(sub);
              var operates := s.status == PENDING_TRIAL || s.status == ACTIVE
                              || (s.status == TRIALING && s.trialStartedAt.Some? && s.trialEndsAt.Some?
                                  && s.trialEndsAt.value > now && s.trialEndedAt.None?);
              && (r.Err? && r.error.Access? <==> !operates)
              && (r == Err(MonthlyLimit) <==> operates && s.plan.code != "TRIAL" && !underMonthlyLimit)
              && (r == Err(Access(SERVICE_UNAVAILABLE)) <==>
                    s.status == TRIALING && (s.trialStartedAt.None? || s.trialEndsAt.None?))
      ensures Snapshot() == AfterRequest(old(Snapshot()), Request(device, Hashes(items), day, now, underMonthlyLimit))
      ensures r.Err? ==> Snapshot() == old(Snapshot())
      ensures r.Ok? ==>
                var s := old(Snapshot());
                var b := BatchOf(s, device, Hashes(items), day);
                && Snapshot() == Next(s, Ingest(device, Hashes(items), day))
                && AllDone(b, s.notes, notes, ReasonOf(s, |b.unseen|, day).GetOr(PLAN_LIMIT_EXCEEDED), items, answers)
                && r == Ok(Reply(Accepted(answers), Rejected(answers)))
    {
      answers := [];
      PassesIff(sub, now, underMonthlyLimit);
      TrialLifecycle.OperatesIff(Some(sub), now);
      TrialLifecycle.GateErrors(Some(sub), now);
      var denied := AssertCanOperate(Evaluate(Some(sub), now));
      if denied.Some? { return Err(Access(denied.value)), []; }
      if !OnTrialPlan(sub) && !underMonthlyLimit { return Err(MonthlyLimit), []; }
      var accepted, rejected;
      accepted, rejected, answers := StoreAndAnswer(device, items, day);
      r := Ok(Reply(accepted, rejected));
    }

    method StoreAndAnswer(device: int, items: seq<Item>, day: int)
      returns (accepted: seq<Answer>, rejected: seq<Answer>, ghost answers: seq<Answer>)
      requires Linked(Snapshot())
      modifies this`notes, this`nextId, this`jobs, this`seen, buckets
      ensures Snapshot() == Next(old(Snapshot()), Ingest(device, Hashes(items), day))
      ensures var s := old(Snapshot());
              var b := BatchOf(s, device, Hashes(items), day);
              AllDone(b, s.notes, notes, ReasonOf(s, |b.unseen|, day).GetOr(PLAN_LIMIT_EXCEEDED), items, answers)
      ensures accepted == Accepted(answers) && rejected == Rejected(answers)
    {
      ghost var s := Snapshot();
      BatchIsFor(s, device, Hashes(items), day);
      var b, blocked := StoreBatch(device, Hashes(items), day);
      ghost var stored := Snapshot();
      accepted, rejected, answers := AnswerItems(b, s.notes, items, blocked.GetOr(PLAN_LIMIT_EXCEEDED));
      StoredAndQueued(s, b, BucketsOf(s, |b.unseen|, day), stored, Snapshot());
      BatchIsStep(s, device, Hashes(items), day);
    }

    // ---- The parser job ---------------------------------------------------

    /** Reads the row of a queued job; only a PENDING one is worked on. */
    method ReadRow(j: JobId) returns (pending: bool)
      requires j in jobs && jobs[j] == Queued && j.note in notes
      modifies this`jobs
      ensures pending <==> notes[j.note].status == PENDING
      ensures Snapshot() == Next(old(Snapshot()), Start(j))
    {
      pending := notes[j.note].status == PENDING;
      jobs := if pending then jobs[j := Parsing] else jobs - {j};
    }

    /** commitQuota: both rows move a unit to used, the first starts the clock, the last one stops it. */
    method CommitQuota(stamp: Option<int>, now: int, today: int)
      modifies this`sub, buckets
      ensures buckets.rows == CommitBuckets(old(buckets.rows), old(sub), stamp.GetOr(today))
      ensures sub == CommitSubscription(buckets.rows, old(sub), now)
    {
      if !OnTrialPlan(sub) { return; }
      var s := sub;
      var _ := buckets.CommitOne(Day(stamp.GetOr(today)));
      var periodUsed := buckets.CommitOne(Period(s.createdAt));
      if s.status == PENDING_TRIAL {
        sub := sub.(status := TRIALING, trialStartedAt := Some(now), trialEndsAt := Some(now + s.plan.trialHours * HOUR_MS));
      }
      if s.trialEndedAt.None? && s.plan.totalLimit > 0 && periodUsed >= s.plan.totalLimit {
        sub := sub.(trialEndedAt := Some(now), trialEndReason := Some(TOTAL_LIMIT));
      }
    }

    /** createTransaction: the unique key on the notification rolls a second payment back, and the job is retried. */
    method CreateTransaction(j: JobId, now: int, today: int)
      requires j in jobs && jobs[j] == Parsing && j.note in notes
      modifies this`transactions, this`notes, this`jobs, this`sub, buckets
      ensures Snapshot() == Next(old(Snapshot()), Commit(j, now, today))
    {
      if j.note in transactions {
        jobs := jobs[j := Queued];
        return;
      }
      var stamp := notes[j.note].stamp;
      transactions := transactions + [j.note];
      notes := notes[j.note := notes[j.note].(status := PARSED)];
      CommitQuota(stamp, now, today);
      jobs := jobs - {j};
    }

    /** releaseQuota: nothing outside the trial, otherwise one unit of both rows at a time. */
    method ReleaseQuota(count: int, stamp: Option<int>, today: int)
      modifies buckets
      ensures buckets.rows == ReleaseTimes(old(buckets.rows), sub, stamp.GetOr(today), count)
    {
      if count <= 0 || !OnTrialPlan(sub) {
        ReleaseOffTrial(buckets.rows, sub, stamp.GetOr(today), count);
        return;
      }
      for i := 0 to count
        invariant buckets.rows == ReleaseTimes(old(buckets.rows), sub, stamp.GetOr(today), i)
      {
        buckets.ReleaseOne(Day(stamp.GetOr(today)));
        buckets.ReleaseOne(Period(sub.createdAt));
      }
    }

    /** markUnmatched without a crash: the status first, then the release in a transaction of its own. */
    method MarkUnmatched(j: JobId, today: int)
      requires j in jobs && jobs[j] == Parsing && j.note in notes
      modifies this`notes, this`jobs, this`released, buckets
      ensures Snapshot() == Next(Next(old(Snapshot()), Mark(j)), Release(j, today))
    {
      var stamp := notes[j.note].stamp;
      notes := notes[j.note := notes[j.note].(status := UNMATCHED)];
      jobs := jobs[j := Releasing];
      assert Snapshot() == Next(old(Snapshot()), Mark(j));
      ReleaseQuota(1, stamp, today);
      jobs := jobs - {j};
      released := released + {j.note};
    }

    /** One uninterrupted job: a second delivery of a finished one does nothing. */
    method ParseNotification(j: JobId, matched: bool, now: int, today: int)
      requires j in jobs && jobs[j] == Queued && j.note in notes
      modifies this`transactions, this`notes, this`jobs, this`sub, this`released, buckets
      ensures var s := Next(old(Snapshot()), Start(j));
              Snapshot() == if old(notes[j.note].status) != PENDING then s
                            else if matched then Next(s, Commit(j, now, today))
                            else Next(Next(s, Mark(j)), Release(j, today))
      ensures var n, row := j.note, old(notes)[j.note];
              var retried := row.status == PENDING && matched && n in old(transactions);
              && transactions == (if row.status == PENDING && matched && !retried then old(transactions) + [n]
                                  else old(transactions))
              && notes == (if row.status != PENDING || retried then old(notes)
                           else old(notes)[n := row.(status := if matched then PARSED else UNMATCHED)])
              && jobs == (if retried then old(jobs)[j := Queued] else old(jobs) - {j})
    {
      var pending := ReadRow(j);
      if !pending { return; }
      if matched {
        CreateTransaction(j, now, today);
      } else {
        MarkUnmatched(j, today);
      }
    }

    // ---- Reprocessing by an administrator ---------------------------------

    /** Returns the rows found to PENDING in one statement, then queues a new job for each. */
    method Reprocess(ids: seq<nat>, clock: nat -> int) returns (count: nat)
      modifies this`notes, this`jobs, this`seen, this`requeued
      ensures var s := old(Snapshot());
              var rows := Eligible(s.notes, ids);
              count == |rows| && Snapshot() == Run(Run(s, Finds(rows)), Requeues(rows, clock))
      ensures notes.Keys == old(notes).Keys
      ensures forall n :: n in notes ==>
                notes[n] == if n in ids && (old(notes)[n].status == UNMATCHED || old(notes)[n].status == ERROR)
                            then old(notes)[n].(status := PENDING) else old(notes)[n]
    {
      var rows := ReadEligible(ids);
      count := |rows|;
      ghost var s := Snapshot();
      notes := PendingRows(notes, rows);
      QueueAll(rows, clock);
      ReprocessIsRun(s, ids, clock);
      requeued := Run(Run(s, Finds(rows)), Requeues(rows, clock)).requeued;
    }

    method QueueAll(rows: seq<nat>, clock: nat -> int)
      modifies this`jobs, this`seen
      ensures jobs == JobsAfter(old(jobs), old(seen), rows, clock)
      ensures seen == SeenAfter(old(seen), rows, clock)
    {
      for i := 0 to |rows|
        invariant jobs == JobsAfter(old(jobs), old(seen), rows[..i], clock)
        invariant seen == SeenAfter(old(seen), rows[..i], clock)
      {
        assert rows[..i + 1][..i] == rows[..i];
        Enqueue(ReprocessJob(rows[i], clock(i)));
      }
      assert rows[..|rows|] == rows;
    }

    method ReadEligible(ids: seq<nat>) returns (rows: seq<nat>)
      ensures rows == Eligible(notes, ids)
    {
      rows := [];
      for i := 0 to |ids|
        invariant rows == Eligible(notes, ids[..i])
      {
        assert ids[..i + 1][..i] == ids[..i];
        if CanReprocess(notes, ids[i]) && ids[i] !in rows { rows := rows + [ids[i]]; }
      }
      assert ids[..|ids|] == ids;
    }
  }
}
