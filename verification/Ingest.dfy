/** Ingest is exactly once: at most one payment per notification, and a resend changes nothing. */
module Ingest {
  import opened Subscriptions
  import opened QuotaProtocol

  lemma {:induction false} RunWellFormed(s: State, es: seq<Event>)
    requires WellFormed(s)
    ensures WellFormed(Run(s, es))
    decreases |es|
  {
    if |es| > 0 {
      StepWellFormed(s, es[0]);
      RunWellFormed(Next(s, es[0]), es[1..]);
    }
  }

  /**
   * Over every run, resends, retries and reprocessing included, no two payments
   * come from the same device and dedupe hash.
   */
  lemma ExactlyOnce(plan: Plan, createdAt: int, es: seq<Event>, i: nat, j: nat)
    requires i < j < |Run(Registered(plan, createdAt), es).transactions|
    ensures var s := Run(Registered(plan, createdAt), es);
            && s.transactions[i] in s.notes && s.transactions[j] in s.notes
            && !SamePayload(s.notes[s.transactions[i]], s.notes[s.transactions[j]])
  {
    RunWellFormed(Registered(plan, createdAt), es);
    var s := Run(Registered(plan, createdAt), es);
    assert s.transactions[i] in s.transactions && s.transactions[j] in s.transactions;
  }

  /** The hash stands in the batch with no `other` at or before its place. */
  ghost predicate Before(hashes: seq<int>, h: int, other: int) {
    exists p :: 0 <= p < |hashes| && hashes[p] == h && other !in hashes[..p + 1]
  }

  /** New hashes are stored in the order they first come in the batch, so it is the last ones that lose their place. */
  lemma {:induction false} FreshInOrder(notes: map<nat, Note>, device: int, hashes: seq<int>, i: nat, j: nat)
    requires i < j < |Fresh(notes, device, hashes)|
    ensures Before(hashes, Fresh(notes, device, hashes)[i], Fresh(notes, device, hashes)[j])
    decreases |hashes|
  {
    var unseen := Fresh(notes, device, hashes);
    var last := |hashes| - 1;
    var rest := Fresh(notes, device, hashes[..last]);
    if j < |rest| {
      FreshInOrder(notes, device, hashes[..last], i, j);
      var p :| 0 <= p < last && hashes[..last][p] == unseen[i] && unseen[j] !in hashes[..last][..p + 1];
      assert hashes[..last][..p + 1] == hashes[..p + 1];
    } else {
      assert unseen[i] == rest[i] && rest[i] in hashes[..last];
      var p :| 0 <= p < last && hashes[..last][p] == unseen[i];
      assert unseen[j] == hashes[last] && unseen[j] !in hashes[..last];
      assert forall q :: 0 <= q <= p ==> hashes[q] == hashes[..last][q];
    }
  }

  /** A batch whose items are all known changes nothing at all. */
  lemma KnownBatchIsQuiet(s: State, device: int, hashes: seq<int>, day: int)
    requires forall h :: h in hashes ==> Known(s.notes, device, h)
    ensures Next(s, Ingest(device, hashes, day)) == s
  {
    NothingUnseen(s.notes, device, hashes);
  }

  lemma {:induction false} NothingUnseen(notes: map<nat, Note>, device: int, hashes: seq<int>)
    requires forall h :: h in hashes ==> Known(notes, device, h)
    ensures Fresh(notes, device, hashes) == []
  {
    if |hashes| > 0 {
      var h := hashes[|hashes| - 1];
      assert h in hashes && Known(notes, device, h);
      NothingUnseen(notes, device, hashes[..|hashes| - 1]);
    }
  }

  lemma StepKeepsKnown(s: State, e: Event, device: int, hash: int)
    requires Linked(s) && Known(s.notes, device, hash)
    ensures Known(Next(s, e).notes, device, hash)
  {
    var n :| n in s.notes && IsRow(s.notes, n, device, hash);
    if e.Ingest? {
      assert IsRow(Next(s, e).notes, n, device, hash);
    } else {
      QuietSameRows(s, e);
      assert SamePayload(s.notes[n], Next(s, e).notes[n]);
      assert IsRow(Next(s, e).notes, n, device, hash);
    }
  }

  lemma {:induction false} RunKeepsKnown(s: State, es: seq<Event>, device: int, hash: int)
    requires WellFormed(s) && Known(s.notes, device, hash)
    ensures Known(Run(s, es).notes, device, hash)
    decreases |es|
  {
    if |es| > 0 {
      StepKeepsKnown(s, es[0], device, hash);
      StepWellFormed(s, es[0]);
      RunKeepsKnown(Next(s, es[0]), es[1..], device, hash);
    }
  }

  /** Resending a batch that was accepted in full, at any later time, changes no state: every item of it is known by then. */
  lemma ResendIsQuiet(s: State, device: int, hashes: seq<int>, day: int, es: seq<Event>, laterDay: int)
    requires WellFormed(s)
    requires var n := |Fresh(s.notes, device, hashes)|; KeptCount(s, n, day) == n
    ensures var t := Run(Next(s, Ingest(device, hashes, day)), es);
            && (forall h :: h in hashes ==> Known(t.notes, device, h))
            && Next(t, Ingest(device, hashes, laterDay)) == t
  {
    var s1 := Next(s, Ingest(device, hashes, day));
    var t := Run(s1, es);
    StepWellFormed(s, Ingest(device, hashes, day));
    forall h | h in hashes ensures Known(t.notes, device, h) {
      FullBatchIsKnown(s, device, hashes, day, h);
      RunKeepsKnown(s1, es, device, h);
    }
    KnownBatchIsQuiet(t, device, hashes, laterDay);
  }

  lemma FullBatchIsKnown(s: State, device: int, hashes: seq<int>, day: int, h: int)
    requires Linked(s) && h in hashes
    requires var n := |Fresh(s.notes, device, hashes)|; KeptCount(s, n, day) == n
    ensures Known(Next(s, Ingest(device, hashes, day)).notes, device, h)
  {
    if Known(s.notes, device, h) {
      StepKeepsKnown(s, Ingest(device, hashes, day), device, h);
    } else {
      var unseen := Fresh(s.notes, device, hashes);
      var i :| 0 <= i < |unseen| && unseen[i] == h;
      KeptIsKnown(s, device, unseen, day, i);
    }
  }

  lemma KeptIsKnown(s: State, device: int, unseen: seq<int>, day: int, i: nat)
    requires i < |unseen|
    ensures Known(Kept(s, device, unseen, |unseen|, day).notes, device, unseen[i])
  {
    var t := Kept(s, device, unseen, |unseen|, day);
    assert s.nextId + i in t.notes;
    assert IsRow(t.notes, s.nextId + i, device, unseen[i]);
  }

  // ---- Paid rows ----------------------------------------------------------

  /** Every payment's row is PARSED. */
  ghost predicate PaidAreParsed(s: State) {
    forall n :: n in s.transactions ==> n in s.notes && s.notes[n].status == PARSED
  }

  /**
   * What takes a paid row out of PARSED: an administrator writing back a row that was
   * found before the payment, or a second job of the row that read it as PENDING and
   * now marks it unmatched.
   */
  predicate DisturbsPaid(s: State, e: Event) {
    match e
    case Requeue(n, _) => n in s.found && n in s.transactions
    case Mark(j) => j in s.jobs && s.jobs[j] == Parsing && j.note in s.transactions
    case _ => false
  }

  lemma StepPaid(s: State, e: Event)
    requires WellFormed(s) && PaidAreParsed(s)
    ensures PaidAreParsed(Next(s, e)) <==> !DisturbsPaid(s, e)
  {
    var t := Next(s, e);
    if DisturbsPaid(s, e) {
      var n := if e.Requeue? then e.note else e.job.note;
      assert n in t.transactions && t.notes[n].status != PARSED;
    } else {
      match e
      case Ingest(device, hashes, day) => IngestKeepsPaid(s, device, hashes, day);
      case Commit(j, now, today) => CommitKeepsPaid(s, j, now, today);
      case Requeue(n, at) => RequeueKeepsPaid(s, n, at);
      case _ => OthersKeepPaid(s, e);
    }
  }

  lemma IngestKeepsPaid(s: State, device: int, hashes: seq<int>, day: int)
    requires Linked(s) && PaidAreParsed(s)
    ensures PaidAreParsed(AfterIngest(s, device, hashes, day))
  {
  }

  lemma CommitKeepsPaid(s: State, j: JobId, now: int, today: int)
    requires PaidAreParsed(s)
    ensures PaidAreParsed(AfterCreate(s, j, now, today))
  {
  }

  lemma RequeueKeepsPaid(s: State, n: nat, at: int)
    requires PaidAreParsed(s) && !(n in s.found && n in s.transactions)
    ensures PaidAreParsed(AfterRequeue(s, n, at))
  {
  }

  lemma OthersKeepPaid(s: State, e: Event)
    requires PaidAreParsed(s) && !DisturbsPaid(s, e) && !e.Ingest? && !e.Commit? && !e.Requeue?
    ensures PaidAreParsed(Next(s, e))
  {
  }

  /** No step of the run disturbs a paid row. */
  ghost predicate Undisturbed(s: State, es: seq<Event>)
    decreases |es|
  {
    |es| == 0 || (!DisturbsPaid(s, es[0]) && Undisturbed(Next(s, es[0]), es[1..]))
  }

  /** Paid rows are PARSED after every step of the run. */
  ghost predicate PaidStayParsed(s: State, es: seq<Event>)
    decreases |es|
  {
    PaidAreParsed(s) && (|es| == 0 || PaidStayParsed(Next(s, es[0]), es[1..]))
  }

  /** In every run of a tenant a row with a payment is never PENDING or UNMATCHED again if and only if no step disturbs one. */
  lemma {:induction false} PaidStayParsedIff(s: State, es: seq<Event>)
    requires WellFormed(s) && PaidAreParsed(s)
    ensures PaidStayParsed(s, es) <==> Undisturbed(s, es)
    decreases |es|
  {
    if |es| > 0 {
      StepPaid(s, es[0]);
      StepWellFormed(s, es[0]);
      if !DisturbsPaid(s, es[0]) {
        PaidStayParsedIff(Next(s, es[0]), es[1..]);
      } else {
        assert !PaidStayParsed(Next(s, es[0]), es[1..]);
      }
    }
  }

  /** A request finds no row that is PARSED or PENDING. */
  lemma PaidIsNotFound(s: State, n: nat)
    requires PaidAreParsed(s) && n in s.transactions
    ensures Next(s, Find(n)) == s
  {
  }

  /**
   * Two requests that both find a row before either writes it: the first one's job pays
   * the row, the second one then puts the paid row back to PENDING.
   */
  lemma PaidRowCanReturn(s: State, n: nat, at: int, again: int, now: int, today: int)
    requires WellFormed(s) && Reprocessable(s, n) && n !in s.transactions && ReprocessJob(n, at) !in s.seen
    ensures var j := ReprocessJob(n, at);
            var found := Next(Next(s, Find(n)), Find(n));
            var paid := Next(Next(Next(found, Requeue(n, at)), Start(j)), Commit(j, now, today));
            var t := Next(paid, Requeue(n, again));
            && n in paid.transactions && n in paid.notes && paid.notes[n].status == PARSED
            && n in t.transactions && n in t.notes && t.notes[n].status == PENDING
  {
    var found := Next(Next(s, Find(n)), Find(n));
    assert found == s.(found := s.found + multiset{n} + multiset{n});
    var queued := Next(found, Requeue(n, at));
    assert n in queued.found;
    PaidThenWrittenBack(queued, n, ReprocessJob(n, at), again, now, today);
  }

  lemma PaidThenWrittenBack(s: State, n: nat, j: JobId, again: int, now: int, today: int)
    requires j.note == n && JobAt(s, j, Queued) && s.notes[n].status == PENDING && n !in s.transactions && n in s.found
    ensures var paid := Next(Next(s, Start(j)), Commit(j, now, today));
            var t := Next(paid, Requeue(n, again));
            && n in paid.transactions && n in paid.notes && paid.notes[n].status == PARSED
            && n in t.transactions && n in t.notes && t.notes[n].status == PENDING
  {
    assert Next(s, Start(j)) == WithPhase(s, j, Parsing);
  }
}
