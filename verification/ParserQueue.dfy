/**
 * The parser queue over whole runs: what each step of a job does, and that no kept
 * notification is lost, whatever fails, is retried or is reprocessed in between.
 */
module ParserQueue {
  import opened Subscriptions
  import opened QuotaProtocol

  /** A job of the row that has still to read it, or has read it as PENDING. */
  predicate Works(s: State, j: JobId, n: nat) {
    j in s.jobs && j.note == n && s.jobs[j] != Releasing
  }

  ghost predicate HasWork(s: State, n: nat) {
    exists j :: Works(s, j, n)
  }

  /** Every PENDING row has a job that will work on it. */
  ghost predicate Covered(s: State) {
    forall n :: n in s.notes && s.notes[n].status == PENDING ==> HasWork(s, n)
  }

  ghost predicate OnlyWork(s: State, j: JobId) {
    Works(s, j, j.note) && forall k :: Works(s, k, j.note) ==> k == j
  }

  /**
   * What leaves a PENDING row without a job: a queue that drops the only one, or a row
   * written back when the id of its new job has been used in the same millisecond
   * and no job of the row is left to work on it.
   */
  ghost predicate Loses(s: State, e: Event) {
    match e
    case Drop(j) => j.note in s.notes && s.notes[j.note].status == PENDING && OnlyWork(s, j)
    case Requeue(n, at) => n in s.found && n in s.notes && ReprocessJob(n, at) in s.seen && !HasWork(s, n)
    case _ => false
  }

  /** The event leaves the rows and their jobs as they are. */
  lemma KeepsWork(s: State, t: State)
    requires Covered(s)
    requires forall n :: n in t.notes && t.notes[n].status == PENDING ==> n in s.notes && s.notes[n].status == PENDING
    requires forall j :: j in s.jobs && s.jobs[j] != Releasing && j.note in t.notes && t.notes[j.note].status == PENDING ==>
               j in t.jobs && t.jobs[j] != Releasing
    ensures Covered(t)
  {
    forall n | n in t.notes && t.notes[n].status == PENDING ensures HasWork(t, n) {
      assert HasWork(s, n);
      var j :| Works(s, j, n);
      assert Works(t, j, n);
    }
  }

  lemma IngestCovers(s: State, device: int, hashes: seq<int>, day: int)
    requires Linked(s) && Covered(s)
    ensures Covered(AfterIngest(s, device, hashes, day))
  {
    var t := AfterIngest(s, device, hashes, day);
    forall n | n in t.notes && t.notes[n].status == PENDING ensures HasWork(t, n) {
      if n in s.notes && n < s.nextId {
        assert HasWork(s, n);
        var j :| Works(s, j, n);
        assert Works(t, j, n);
      } else {
        assert Works(t, FirstJob(n), n);
      }
    }
  }

  lemma StartCovers(s: State, j: JobId)
    requires Covered(s)
    ensures Covered(AfterStart(s, j))
  {
    KeepsWork(s, AfterStart(s, j));
  }

  lemma CommitCovers(s: State, j: JobId, now: int, today: int)
    requires Covered(s)
    ensures Covered(AfterCreate(s, j, now, today))
  {
    KeepsWork(s, AfterCreate(s, j, now, today));
  }

  lemma MarkCovers(s: State, j: JobId)
    requires Covered(s)
    ensures Covered(AfterMark(s, j))
  {
    KeepsWork(s, AfterMark(s, j));
  }

  lemma ReleaseCovers(s: State, j: JobId, today: int)
    requires Covered(s)
    ensures Covered(AfterRelease(s, j, today))
  {
    KeepsWork(s, AfterRelease(s, j, today));
  }

  lemma RequeueCovers(s: State, n: nat, at: int)
    requires Linked(s) && Covered(s)
    ensures Covered(AfterRequeue(s, n, at)) <==> !Loses(s, Requeue(n, at))
  {
    var t, j := AfterRequeue(s, n, at), ReprocessJob(n, at);
    if n in s.found && n in s.notes {
      if j !in s.seen {
        assert Works(t, j, n);
      } else {
        forall k ensures Works(t, k, n) <==> Works(s, k, n) {}
        assert HasWork(t, n) <==> HasWork(s, n);
      }
      forall m | m in t.notes && m != n && t.notes[m].status == PENDING ensures HasWork(t, m) {
        assert HasWork(s, m);
        var k :| Works(s, k, m);
        assert Works(t, k, m);
      }
    }
  }

  lemma DropCovers(s: State, j: JobId)
    requires Covered(s)
    ensures Covered(Done(s, j)) <==> !Loses(s, Drop(j))
  {
    var t := Done(s, j);
    if Loses(s, Drop(j)) {
      forall k ensures !Works(t, k, j.note) { assert Works(t, k, j.note) ==> Works(s, k, j.note); }
    } else {
      forall n | n in t.notes && t.notes[n].status == PENDING ensures HasWork(t, n) {
        assert HasWork(s, n);
        var k :| Works(s, k, n);
        if k == j {
          var other :| Works(s, other, n) && other != j;
          assert Works(t, other, n);
        } else {
          assert Works(t, k, n);
        }
      }
    }
  }

  lemma OtherCovers(s: State, e: Event)
    requires Covered(s) && (e.Fail? || e.Find? || e.ReadDue? || e.Close? || e.Change? || e.Rollover?)
    ensures Covered(Next(s, e))
  {
    KeepsWork(s, Next(s, e));
  }

  /** A step keeps a job for every PENDING row if and only if it is not one of those two. */
  lemma StepCovers(s: State, e: Event)
    requires Linked(s) && Covered(s)
    ensures Covered(Next(s, e)) <==> !Loses(s, e)
  {
    match e
    case Ingest(device, hashes, day) => IngestCovers(s, device, hashes, day);
    case Start(j) => StartCovers(s, j);
    case Drop(j) => DropCovers(s, j);
    case Commit(j, now, today) => CommitCovers(s, j, now, today);
    case Mark(j) => MarkCovers(s, j);
    case Release(j, today) => ReleaseCovers(s, j, today);
    case Requeue(n, at) => RequeueCovers(s, n, at);
    case _ => OtherCovers(s, e);
  }

  ghost predicate NothingLost(s: State, es: seq<Event>)
    decreases |es|
  {
    |es| == 0 || (!Loses(s, es[0]) && NothingLost(Next(s, es[0]), es[1..]))
  }

  lemma {:induction false} RunCovers(s: State, es: seq<Event>)
    requires WellFormed(s) && Covered(s) && NothingLost(s, es)
    ensures WellFormed(Run(s, es)) && Covered(Run(s, es))
    decreases |es|
  {
    if |es| > 0 {
      StepCovers(s, es[0]);
      StepWellFormed(s, es[0]);
      RunCovers(Next(s, es[0]), es[1..]);
    }
  }

  /**
   * In every run of a registered tenant without such a step, each PENDING row has a job
   * left to work on it; when no job is left, every row is PARSED, UNMATCHED or ERROR.
   */
  lemma NoRowIsLost(plan: Plan, createdAt: int, es: seq<Event>)
    requires NothingLost(Registered(plan, createdAt), es)
    ensures var s := Run(Registered(plan, createdAt), es);
            && (forall n :: n in s.notes && s.notes[n].status == PENDING ==>
                  exists j :: j in s.jobs && j.note == n && s.jobs[j] != Releasing)
            && (s.jobs == map[] ==> forall n :: n in s.notes ==> s.notes[n].status != PENDING)
  {
    RunCovers(Registered(plan, createdAt), es);
    var s := Run(Registered(plan, createdAt), es);
    forall n | n in s.notes && s.notes[n].status == PENDING
      ensures exists j :: j in s.jobs && j.note == n && s.jobs[j] != Releasing
    {
      assert HasWork(s, n);
      var j :| Works(s, j, n);
    }
  }
}
