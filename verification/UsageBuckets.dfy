/**
 * The rows of usage_buckets for one tenant, and the reserve / commit / release
 * statements of the entitlement service over them.
 */
module UsageBuckets {
  import opened Wrappers

  /** A bucket row is keyed by its window: a local day, or the subscription period. */
  datatype Window = Day(start: int) | Period(start: int)

  datatype Bucket = Bucket(used: nat, reserved: nat)

  type Table = map<Window, Bucket>

  datatype BlockedReason = DAILY_LIMIT_EXCEEDED | PLAN_LIMIT_EXCEEDED

  datatype Reservation = Reservation(count: nat, blocked: Option<BlockedReason>, day: Option<int>)

  /** What a TRIAL plan allows: its limits as plain integers (a negative limit lets nothing in). */
  datatype TrialTerms = TrialTerms(periodStart: int, dailyLimit: int, totalLimit: int)
  {
    function PeriodWindow(): Window { Period(periodStart) }
  }

  function At(t: Table, w: Window): Bucket {
    if w in t then t[w] else Bucket(0, 0)
  }

  function Load(t: Table, w: Window): nat {
    At(t, w).used + At(t, w).reserved
  }

  function Headroom(t: Table, w: Window, limit: int): nat {
    Max(0, limit - Load(t, w))
  }

  function Ensured(t: Table, w: Window): Table {
    if w in t then t else t[w := Bucket(0, 0)]
  }

  function Reserved(t: Table, w: Window, n: nat): Table
    requires w in t
  {
    t[w := Bucket(t[w].used, t[w].reserved + n)]
  }

  /** GREATEST(reserved - 1, 0); no row, no effect. */
  function Released(t: Table, w: Window): Table {
    if w in t then t[w := Bucket(t[w].used, Max(t[w].reserved - 1, 0))] else t
  }

  function Committed(t: Table, w: Window): Table {
    if w in t then t[w := Bucket(t[w].used + 1, Max(t[w].reserved - 1, 0))] else t
  }

  /** How many of `count` units fit under both limits. */
  function Granted(t: Table, day: Window, terms: TrialTerms, count: nat): nat {
    Min(count, Min(Headroom(t, day, terms.dailyLimit), Headroom(t, terms.PeriodWindow(), terms.totalLimit)))
  }

  /** The table after reserving: both rows exist and both carry the granted units. */
  function TableAfterReserve(t: Table, day: Window, terms: TrialTerms, count: nat): Table {
    var base := Ensured(Ensured(t, day), terms.PeriodWindow());
    var n := Granted(t, day, terms, count);
    Reserved(Reserved(base, day, n), terms.PeriodWindow(), n)
  }

  function ReasonFor(t: Table, day: Window, terms: TrialTerms, count: nat): Option<BlockedReason> {
    if Granted(t, day, terms, count) == count then None
    else if Headroom(t, day, terms.dailyLimit) <= Headroom(t, terms.PeriodWindow(), terms.totalLimit)
    then Some(DAILY_LIMIT_EXCEEDED)
    else Some(PLAN_LIMIT_EXCEEDED)
  }

  lemma ReservedMerges(t: Table, day: Window, period: Window, n: nat)
    requires day in t && period in t && day != period
    ensures var both := Reserved(Reserved(t, day, n), period, n);
            && Reserved(Reserved(both, day, 1), period, 1) == Reserved(Reserved(t, day, n + 1), period, n + 1)
            && Released(Reserved(both, day, 1), day) == both
            && Load(both, day) == Load(t, day) + n
            && Load(both, period) == Load(t, period) + n
            && Load(Reserved(both, day, 1), period) == Load(t, period) + n
  {
    var both := Reserved(Reserved(t, day, n), period, n);
    assert both[day] == Bucket(t[day].used, t[day].reserved + n);
    assert both[period] == Bucket(t[period].used, t[period].reserved + n);
  }

  /** The table of one tenant, updated row by row as the SQL statements do. */
  class BucketStore {
    var rows: Table

    constructor ()
      ensures rows == map[]
    {
      rows := map[];
    }

    method EnsureBucket(w: Window)
      modifies this
      ensures rows == Ensured(old(rows), w)
    {
      if w !in rows {
        rows := rows[w := Bucket(0, 0)];
      }
    }

    /** The conditional UPDATE: it touches the row only while there is room. */
    method TryReserveOne(w: Window, limit: int) returns (got: bool)
      modifies this
      ensures got <==> w in old(rows) && Load(old(rows), w) < limit
      ensures rows == if got then Reserved(old(rows), w, 1) else old(rows)
    {
      if w in rows && rows[w].used + rows[w].reserved < limit {
        rows := rows[w := Bucket(rows[w].used, rows[w].reserved + 1)];
        got := true;
      } else {
        got := false;
      }
    }

    method ReleaseOne(w: Window)
      modifies this
      ensures rows == Released(old(rows), w)
    {
      if w in rows {
        var r := if rows[w].reserved > 0 then rows[w].reserved - 1 else 0;
        rows := rows[w := Bucket(rows[w].used, r)];
      }
    }

    /** Moves one unit from reserved to used; answers the new `used`, 0 when there is no row. */
    method CommitOne(w: Window) returns (used: nat)
      modifies this
      ensures rows == Committed(old(rows), w)
      ensures used == At(rows, w).used
    {
      used := 0;
      if w in rows {
        var r := if rows[w].reserved > 0 then rows[w].reserved - 1 else 0;
        rows := rows[w := Bucket(rows[w].used + 1, r)];
        used := rows[w].used;
      }
    }

    /**
     * Reserves up to `count` units, one pair of conditional updates at a time,
     * giving the day unit back when the period has none left.
     */
    method ReserveQuota(trial: Option<TrialTerms>, count: int, dayStart: int) returns (r: Reservation)
      modifies this
      ensures count <= 0 ==> rows == old(rows) && r == Reservation(0, None, None)
      ensures count > 0 && trial.None? ==> rows == old(rows) && r == Reservation(count, None, None)
      ensures count > 0 && trial.Some? ==>
                var day := Day(dayStart);
                && rows == TableAfterReserve(old(rows), day, trial.value, count)
                && r == Reservation(Granted(old(rows), day, trial.value, count),
                                    ReasonFor(old(rows), day, trial.value, count), Some(dayStart))
    {
      if count <= 0 {
        return Reservation(0, None, None);
      }
      if trial.None? {
        return Reservation(count, None, None);
      }
      var day, terms := Day(dayStart), trial.value;
      EnsureBucket(day);
      EnsureBucket(terms.PeriodWindow());
      assert Load(rows, day) == Load(old(rows), day) && Load(rows, terms.PeriodWindow()) == Load(old(rows), terms.PeriodWindow());
      var n, blocked := ReserveUnits(day, terms, count);
      r := Reservation(n, blocked, Some(dayStart));
    }

    /** The loop of ReserveQuota, over rows that both exist. */
    method ReserveUnits(day: Window, terms: TrialTerms, count: nat) returns (n: nat, blocked: Option<BlockedReason>)
      requires day in rows && terms.PeriodWindow() in rows && day != terms.PeriodWindow()
      modifies this
      ensures n == Granted(old(rows), day, terms, count)
      ensures blocked == ReasonFor(old(rows), day, terms, count)
      ensures rows == Reserved(Reserved(old(rows), day, n), terms.PeriodWindow(), n)
    {
      n := 0;
      blocked := None;
      ghost var base := rows;
      for i := 0 to count
        invariant n == i && blocked.None?
        invariant rows == Reserved(Reserved(base, day, n), terms.PeriodWindow(), n)
        invariant n > 0 ==> n <= Headroom(base, day, terms.dailyLimit)
        invariant n > 0 ==> n <= Headroom(base, terms.PeriodWindow(), terms.totalLimit)
      {
        ReservedMerges(base, day, terms.PeriodWindow(), n);
        var gotDay := TryReserveOne(day, terms.dailyLimit);
        if !gotDay {
          blocked := Some(DAILY_LIMIT_EXCEEDED);
          return;
        }
        var gotTotal := TryReserveOne(terms.PeriodWindow(), terms.totalLimit);
        if !gotTotal {
          ReleaseOne(day);
          blocked := Some(PLAN_LIMIT_EXCEEDED);
          return;
        }
        n := n + 1;
      }
    }
  }

  /**
   * What the closed form means for a caller: never more than asked, than fits
   * today or than fits in the period; both rows rise by exactly that; and it
   * falls short only when the row named by the reason is full.
   */
  lemma ReserveMeaning(t: Table, dayStart: int, terms: TrialTerms, count: nat)
    ensures var day := Day(dayStart);
            var n := Granted(t, day, terms, count);
            var t' := TableAfterReserve(t, day, terms, count);
            && n <= count
            && (n > 0 ==> Load(t', day) <= terms.dailyLimit && Load(t', terms.PeriodWindow()) <= terms.totalLimit)
            && Load(t', day) == Load(t, day) + n
            && Load(t', terms.PeriodWindow()) == Load(t, terms.PeriodWindow()) + n
            && (forall w :: w in t && w != day && w != terms.PeriodWindow() ==> w in t' && t'[w] == t[w])
            && (n == count ==> ReasonFor(t, day, terms, count).None?)
            && (n < count ==>
                  match ReasonFor(t, day, terms, count)
                  case Some(DAILY_LIMIT_EXCEEDED) => Load(t', day) >= terms.dailyLimit
                  case Some(PLAN_LIMIT_EXCEEDED) =>
                    Load(t', terms.PeriodWindow()) >= terms.totalLimit && Load(t', day) < terms.dailyLimit
                  case None => false)
  {
  }
}
