/**
 * One tenant's subscription: what it allows, how the trial clock starts and
 * ends, how plan changes apply, and how billing periods roll over.
 * Instants are integer milliseconds.
 */
module Subscriptions {
  import opened Wrappers
  import opened Collections
  import opened Calendar

  datatype Status = PENDING_TRIAL | TRIALING | ACTIVE | PAST_DUE | CANCELED | EXPIRED

  datatype EndReason = TIME_LIMIT | TOTAL_LIMIT | ADMINISTRATIVE

  /** A plan with the limits the trial reads; an absent limit is 0. */
  datatype Plan = Plan(code: string, sortOrder: int, dailyLimit: int, totalLimit: int, trialHours: int)

  const TRIAL_PLAN_CODE := "TRIAL"
  const HOUR_MS := 3_600_000

  datatype Subscription = Subscription(
    plan: Plan,
    cycle: BillingCycle,
    status: Status,
    createdAt: int,
    periodStart: int,
    periodEnd: int,
    trialStartedAt: Option<int>,
    trialEndsAt: Option<int>,
    trialEndedAt: Option<int>,
    trialEndReason: Option<EndReason>,
    pendingPlan: Option<Plan>,
    pendingCycle: Option<BillingCycle>)

  predicate OnTrialPlan(sub: Subscription) {
    sub.plan.code == TRIAL_PLAN_CODE
  }

  // ---- Access -------------------------------------------------------------

  datatype Reason = NONE | PAYMENT_REQUIRED | TRIAL_EXPIRED | INVALID_CONFIGURATION

  datatype Decision = Decision(canRead: bool, canOperate: bool, canConfigure: bool, reason: Reason)

  const FULL_ACCESS := Decision(true, true, true, NONE)

  function ReadOnly(reason: Reason): Decision {
    Decision(true, false, false, reason)
  }

  function Evaluate(sub: Option<Subscription>, now: int): Decision {
    match sub
    case None => Decision(false, false, false, PAYMENT_REQUIRED)
    case Some(s) =>
      match s.status
      case PENDING_TRIAL => FULL_ACCESS
      case TRIALING =>
        if s.trialStartedAt.None? || s.trialEndsAt.None? then ReadOnly(INVALID_CONFIGURATION)
        else if s.trialEndedAt.None? && s.trialEndsAt.value > now then FULL_ACCESS
        else ReadOnly(TRIAL_EXPIRED)
      case ACTIVE => FULL_ACCESS
      case PAST_DUE => ReadOnly(PAYMENT_REQUIRED)
      case CANCELED => ReadOnly(PAYMENT_REQUIRED)
      case EXPIRED => ReadOnly(PAYMENT_REQUIRED)
  }

  datatype AccessError = SERVICE_UNAVAILABLE | SUBSCRIPTION_REQUIRED

  function AssertCanOperate(d: Decision): Option<AccessError> {
    if d.reason == INVALID_CONFIGURATION then Some(SERVICE_UNAVAILABLE)
    else if !d.canOperate then Some(SUBSCRIPTION_REQUIRED)
    else None
  }

  // ---- Trial clock --------------------------------------------------------

  /** The subscription part of a quota commit that left the period row at `periodUsed`. */
  function AfterCommit(s: Subscription, periodUsed: nat, now: int): Subscription {
    var started :=
      if s.status == PENDING_TRIAL
      then s.(status := TRIALING, trialStartedAt := Some(now), trialEndsAt := Some(now + s.plan.trialHours * HOUR_MS))
      else s;
    if s.trialEndedAt.None? && s.plan.totalLimit > 0 && periodUsed >= s.plan.totalLimit
    then started.(trialEndedAt := Some(now), trialEndReason := Some(TOTAL_LIMIT))
    else started
  }

  predicate TrialDue(s: Subscription, now: int) {
    s.status == TRIALING && s.trialEndsAt.Some? && s.trialEndsAt.value <= now && s.trialEndedAt.None?
  }

  /** The conditional close: the row is tested again, the end instant comes from the earlier read. */
  function AfterClose(s: Subscription, endsAtRead: int, now: int): Subscription {
    if TrialDue(s, now) then s.(trialEndedAt := Some(endsAtRead), trialEndReason := Some(TIME_LIMIT)) else s
  }

  // ---- Plan changes -------------------------------------------------------

  predicate IsUpgrade(s: Subscription, to: Plan) {
    to.sortOrder > s.plan.sortOrder
  }

  /** CURRENT_SUBSCRIPTION_STATUSES: the states in which a change finds the subscription. */
  predicate Current(s: Subscription) {
    s.status == PENDING_TRIAL || s.status == TRIALING || s.status == ACTIVE || s.status == PAST_DUE
  }

  /** An upgrade applies now, and opens a paid period when it leaves the trial; anything else waits. */
  function AfterChange(s: Subscription, to: Plan, toCycle: BillingCycle, now: int): Subscription {
    if IsUpgrade(s, to) then
      var moved := s.(plan := to, cycle := toCycle, pendingPlan := None, pendingCycle := None);
      if s.status == PENDING_TRIAL || s.status == TRIALING
      then moved.(status := ACTIVE, periodStart := now, periodEnd := AddBillingCycle(now, toCycle))
      else moved
    else s.(pendingPlan := Some(to), pendingCycle := Some(toCycle))
  }

  function EffectiveAt(s: Subscription, to: Plan, now: int): int {
    if IsUpgrade(s, to) then now else s.periodEnd
  }

  // ---- Period rollover ----------------------------------------------------

  predicate RolloverDue(s: Subscription, now: int) {
    s.status == ACTIVE && s.periodEnd <= now
  }

  function NextPeriod(s: Subscription): Subscription {
    var cycle := s.pendingCycle.GetOr(s.cycle);
    var rolled := s.(periodStart := s.periodEnd, periodEnd := AddBillingCycle(s.periodEnd, cycle));
    if s.pendingPlan.Some?
    then rolled.(plan := s.pendingPlan.value, cycle := cycle, pendingPlan := None, pendingCycle := None)
    else rolled
  }

  /** The scheduler's UPDATE: values computed from the row it read, written over the row as it is by then. */
  function RolloverWrite(current: Subscription, read: Subscription): Subscription {
    var next := NextPeriod(read);
    var moved := current.(periodStart := next.periodStart, periodEnd := next.periodEnd);
    if read.pendingPlan.Some?
    then moved.(plan := next.plan, cycle := next.cycle, pendingPlan := None, pendingCycle := None)
    else moved
  }

  function RolledOver(s: Subscription, now: int): Subscription {
    if RolloverDue(s, now) then NextPeriod(s) else s
  }

  /** The daily task run at each of the given instants. */
  function RunRollovers(s: Subscription, nows: seq<int>): Subscription
    decreases |nows|
  {
    if |nows| == 0 then s else RunRollovers(RolledOver(s, nows[0]), nows[1..])
  }

  /** The length of a period that starts at `start`: the months of its cycle, at their calendar lengths. */
  function CycleLength(start: int, cycle: BillingCycle): int {
    Span(MonthOf(DayNumber(start)), match cycle case MONTHLY => 1 case SEMIANNUAL => 6 case ANNUAL => 12) * 86_400_000
  }

  lemma OneCycle(start: int, cycle: BillingCycle)
    ensures AddBillingCycle(start, cycle) == start + CycleLength(start, cycle) >= start + 28 * 86_400_000
  {
    CycleAdvances(start, cycle);
    CycleIsLong(start, cycle);
  }

  /**
   * One rollover, of an active subscription whose period is over: the new period starts
   * where the old one ended and lasts one cycle, the pending one if there is one.
   */
  lemma PeriodsAbut(s: Subscription, now: int)
    requires s.status == ACTIVE && s.periodEnd <= now
    ensures var r := RolledOver(s, now);
            && r.periodStart == s.periodEnd
            && r.periodEnd == s.periodEnd + CycleLength(s.periodEnd, if s.pendingCycle.Some? then s.pendingCycle.value else s.cycle)
            && r.periodEnd >= r.periodStart + 28 * 86_400_000
            && r.status == ACTIVE
            && (s.pendingPlan.None? ==> r == s.(periodStart := r.periodStart, periodEnd := r.periodEnd))
            && (s.pendingPlan.Some? ==>
                  r == s.(periodStart := r.periodStart, periodEnd := r.periodEnd, plan := s.pendingPlan.value,
                          cycle := if s.pendingCycle.Some? then s.pendingCycle.value else s.cycle,
                          pendingPlan := None, pendingCycle := None))
  {
    OneCycle(s.periodEnd, s.pendingCycle.GetOr(s.cycle));
  }

  lemma PeriodIsLong(s: Subscription, now: int)
    requires RolloverDue(s, now)
    ensures var r := RolledOver(s, now);
            r.periodStart == s.periodEnd && r.periodEnd >= r.periodStart + 28 * 86_400_000 && r.status == ACTIVE
  {
    CycleIsLong(s.periodEnd, s.pendingCycle.GetOr(s.cycle));
  }

  /** A subscription that is not active, or whose period is still running, is left as it is. */
  lemma RolloverSkips(s: Subscription, now: int)
    requires s.status != ACTIVE || now < s.periodEnd
    ensures RolledOver(s, now) == s
  {
  }

  /** The daily task's instants: in order, never more than a day apart. */
  predicate Daily(nows: seq<int>) {
    forall i :: 0 < i < |nows| ==> nows[i - 1] <= nows[i] <= nows[i - 1] + 86_400_000
  }

  lemma DailyRest(nows: seq<int>)
    requires |nows| > 1 && Daily(nows)
    ensures Daily(nows[1..]) && nows[0] <= nows[1..][0] <= nows[0] + 86_400_000
    ensures nows[1..][|nows| - 2] == nows[|nows| - 1]
  {
    var rest := nows[1..];
    forall i | 0 < i < |rest| ensures rest[i - 1] <= rest[i] <= rest[i - 1] + 86_400_000 {
      assert rest[i] == nows[i + 1] && rest[i - 1] == nows[i];
    }
  }

  /**
   * A late scheduler catches up: each daily run makes good at least 28 days and
   * lets at most one pass, so a delay of 28 days and 27 more per further run is gone
   * by the last run.
   */
  lemma {:induction false} RolloverCatchesUp(s: Subscription, nows: seq<int>)
    requires s.status == ACTIVE && |nows| > 0 && Daily(nows)
    requires nows[0] - s.periodEnd < 28 * 86_400_000 + (|nows| - 1) * (27 * 86_400_000)
    ensures RunRollovers(s, nows).periodEnd > nows[|nows| - 1]
    decreases |nows|
  {
    var rest := nows[1..];
    var next := RolledOver(s, nows[0]);
    if RolloverDue(s, nows[0]) { PeriodIsLong(s, nows[0]); }
    if |rest| > 0 {
      DailyRest(nows);
      RolloverCatchesUp(next, rest);
    }
  }

  lemma {:induction false} NotDueIsQuiet(s: Subscription, nows: seq<int>)
    requires forall i :: 0 <= i < |nows| ==> !RolloverDue(s, nows[i])
    ensures RunRollovers(s, nows) == s
    decreases |nows|
  {
    if nows != [] {
      assert RolledOver(s, nows[0]) == s;
      NotDueIsQuiet(s, nows[1..]);
    }
  }

  /**
   * A confirmed change that is not an upgrade, on an active subscription: over
   * any sequence of scheduler runs the old plan stays exactly until the first
   * run at or after the old period end, that run switches to the new plan and
   * cycle with the new period starting at the announced effective instant, and
   * no later run undoes it.
   */
  lemma {:induction false} DowngradeWaits(s: Subscription, to: Plan, toCycle: BillingCycle, at: int, nows: seq<int>)
    requires s.status == ACTIVE && to.sortOrder <= s.plan.sortOrder
    ensures var changed := AfterChange(s, to, toCycle, at);
            var end := RunRollovers(changed, nows);
            if forall i :: 0 <= i < |nows| ==> nows[i] < s.periodEnd
            then end == changed && end.plan == s.plan && end.cycle == s.cycle && end.periodEnd == s.periodEnd
            else
              && end.plan == to && end.cycle == toCycle && end.pendingPlan.None? && end.pendingCycle.None?
              && EffectiveAt(s, to, at) == s.periodEnd <= end.periodStart
              && end.status == ACTIVE
  {
    var changed := AfterChange(s, to, toCycle, at);
    if forall i :: 0 <= i < |nows| ==> nows[i] < s.periodEnd {
      NotDueIsQuiet(changed, nows);
    } else {
      var i :| 0 <= i < |nows| && s.periodEnd <= nows[i];
      DowngradeApplies(changed, to, toCycle, nows, i);
    }
  }

  lemma {:induction false} DowngradeApplies(s: Subscription, to: Plan, toCycle: BillingCycle, nows: seq<int>, i: nat)
    requires s.status == ACTIVE && s.pendingPlan == Some(to) && s.pendingCycle == Some(toCycle)
    requires i < |nows| && s.periodEnd <= nows[i]
    ensures var end := RunRollovers(s, nows);
            && end.plan == to && end.cycle == toCycle && end.pendingPlan.None? && end.pendingCycle.None?
            && s.periodEnd <= end.periodStart && end.status == ACTIVE
    decreases |nows|
  {
    var next := RolledOver(s, nows[0]);
    if RolloverDue(s, nows[0]) {
      assert next.periodStart == s.periodEnd;
      PeriodIsLong(s, nows[0]);
      PlanSticks(next, nows[1..]);
    } else {
      assert nows[1..][i - 1] == nows[i];
      DowngradeApplies(s, to, toCycle, nows[1..], i - 1);
    }
  }

  /** Without a pending change no rollover ever touches plan or cycle. */
  lemma {:induction false} PlanSticks(s: Subscription, nows: seq<int>)
    requires s.pendingPlan.None? && s.pendingCycle.None? && s.periodStart <= s.periodEnd
    ensures var end := RunRollovers(s, nows);
            && end.plan == s.plan && end.cycle == s.cycle && end.pendingPlan.None? && end.pendingCycle.None?
            && s.periodStart <= end.periodStart <= end.periodEnd && end.status == s.status
    decreases |nows|
  {
    if nows != [] {
      if RolloverDue(s, nows[0]) { PeriodIsLong(s, nows[0]); }
      PlanSticks(RolledOver(s, nows[0]), nows[1..]);
    }
  }

  /**
   * A change to a plan of higher sort order is immediate, drops any waiting downgrade,
   * and no later rollover changes the plan back. Leaving the trial opens a paid period
   * of one cycle; otherwise the running period stays.
   */
  lemma UpgradeIsImmediate(s: Subscription, to: Plan, toCycle: BillingCycle, at: int, nows: seq<int>)
    requires to.sortOrder > s.plan.sortOrder && s.periodStart <= s.periodEnd
    ensures var changed := AfterChange(s, to, toCycle, at);
            var moved := s.(plan := to, cycle := toCycle, pendingPlan := None, pendingCycle := None);
            var end := RunRollovers(changed, nows);
            && EffectiveAt(s, to, at) == at
            && changed.plan == to == end.plan && changed.cycle == toCycle == end.cycle
            && changed == (if s.status == PENDING_TRIAL || s.status == TRIALING
                           then moved.(status := ACTIVE, periodStart := at, periodEnd := at + CycleLength(at, toCycle))
                           else moved)
            && end.status == changed.status
  {
    OneCycle(at, toCycle);
    PlanSticks(AfterChange(s, to, toCycle, at), nows);
  }

  /**
   * A change confirmed between the scheduler's read and its write takes effect as if
   * it came right after the rollover, if and only if no change was pending when the
   * row was read.
   */
  lemma ChangeDuringRollover(read: Subscription, to: Plan, toCycle: BillingCycle, at: int)
    requires read.status == ACTIVE
    ensures RolloverWrite(AfterChange(read, to, toCycle, at), read) == AfterChange(NextPeriod(read), to, toCycle, at)
            <==> read.pendingPlan.None?
  {
  }

  /** With one pending, an upgrade confirmed in between is overwritten: the subscription ends on the plan that was pending. */
  lemma UpgradeLostInRollover(read: Subscription, to: Plan, toCycle: BillingCycle, at: int)
    requires read.status == ACTIVE && read.pendingPlan.Some? && to.sortOrder > read.plan.sortOrder
    ensures var changed := AfterChange(read, to, toCycle, at);
            var end := RolloverWrite(changed, read);
            && changed.plan == to
            && end.plan == read.pendingPlan.value && end.pendingPlan.None?
  {
  }

  // ---- The tables, updated in place ---------------------------------------

  datatype ChangeError = NO_SUBSCRIPTION | NO_PLAN

  datatype ChangeResult = ChangeResult(fromPlan: string, toPlan: string, effectiveAt: int, immediate: bool)

  /** The subscriptions of every tenant, one current row per tenant. */
  class SubscriptionStore {
    var rows: map<int, Subscription>

    constructor ()
      ensures rows == map[]
    {
      rows := map[];
    }

    /** Opens the next period of every subscription that was due when the list was read. */
    method RolloverDuePeriods(now: int)
      modifies this
      ensures rows.Keys == old(rows).Keys
      ensures forall id :: id in rows ==> rows[id] == RolledOver(old(rows)[id], now)
    {
      var due := map id | id in rows && RolloverDue(rows[id], now) :: rows[id];
      var left: set<int> := due.Keys;
      while left != {}
        invariant left <= due.Keys <= rows.Keys == old(rows).Keys
        invariant forall id :: id in rows ==>
                    rows[id] == if id in due && id !in left then NextPeriod(due[id]) else old(rows)[id]
        decreases |left|
      {
        var id := PickFrom(left);
        RolloverRow(id, due[id]);
        left := left - {id};
      }
    }

    /** The update of one row, from the values the list was read with; the row may have changed since. */
    method RolloverRow(id: int, s: Subscription)
      requires id in rows
      modifies this
      ensures rows == old(rows)[id := RolloverWrite(old(rows)[id], s)]
      ensures var cycle := if s.pendingCycle.Some? then s.pendingCycle.value else s.cycle;
              var moved := old(rows)[id].(periodStart := s.periodEnd, periodEnd := s.periodEnd + CycleLength(s.periodEnd, cycle));
              rows[id] == if s.pendingPlan.None? then moved
                          else moved.(plan := s.pendingPlan.value, cycle := cycle, pendingPlan := None, pendingCycle := None)
    {
      var nextCycle := if s.pendingCycle.Some? then s.pendingCycle.value else s.cycle;
      var nextEnd := AddBillingCycle(s.periodEnd, nextCycle);
      OneCycle(s.periodEnd, nextCycle);
      var next := rows[id].(periodStart := s.periodEnd, periodEnd := nextEnd);
      if s.pendingPlan.Some? {
        next := next.(plan := s.pendingPlan.value, cycle := nextCycle, pendingPlan := None, pendingCycle := None);
      }
      rows := rows[id := next];
    }

    /** Closes every trial whose time ran out, and counts the rows it closed itself. */
    method CloseExpiredTrials(now: int) returns (closedCount: nat)
      modifies this
      ensures rows.Keys == old(rows).Keys
      ensures forall id :: id in rows ==>
                var s := old(rows)[id];
                rows[id] == if s.status == TRIALING && s.trialEndsAt.Some? && s.trialEndsAt.value <= now && s.trialEndedAt.None?
                            then s.(trialEndedAt := s.trialEndsAt, trialEndReason := Some(TIME_LIMIT)) else s
      ensures closedCount == |set id | id in rows && rows[id] != old(rows)[id]|
    {
      closedCount := 0;
      ghost var before := rows;
      var due := set id | id in rows && TrialDue(rows[id], now);
      var read := rows;
      var left := due;
      while left != {}
        invariant left <= due <= rows.Keys == old(rows).Keys
        invariant closedCount + |left| == |due|
        invariant forall id :: id in rows ==>
                    rows[id] == if id in due && id !in left then AfterClose(old(rows)[id], read[id].trialEndsAt.value, now)
                                else old(rows)[id]
        decreases |left|
      {
        var id := PickFrom(left);
        var closed := CloseRow(id, read[id].trialEndsAt.value, now);
        if closed { closedCount := closedCount + 1; }
        left := left - {id};
      }
      ghost var changed := set id | id in rows && rows[id] != before[id];
      forall id ensures id in due <==> id in changed {
        if id in due { assert rows[id].trialEndedAt.Some? && before[id].trialEndedAt.None?; }
      }
      SameMembers(due, changed);
    }

    /** The conditional UPDATE: only a row that is still due changes. */
    method CloseRow(id: int, endsAtRead: int, now: int) returns (closed: bool)
      requires id in rows
      modifies this
      ensures closed <==> TrialDue(old(rows)[id], now)
      ensures rows == old(rows)[id := AfterClose(old(rows)[id], endsAtRead, now)]
    {
      closed := false;
      if TrialDue(rows[id], now) {
        rows := rows[id := rows[id].(trialEndedAt := Some(endsAtRead), trialEndReason := Some(TIME_LIMIT))];
        closed := true;
      }
    }

    method ApplyConfirmedChange(tenant: int, plans: map<string, Plan>, toCode: string, toCycle: BillingCycle, now: int)
      returns (r: Result<ChangeResult, ChangeError>)
      modifies this
      ensures r.Err? ==> rows == old(rows)
      ensures r == Err(NO_SUBSCRIPTION) <==>
                tenant !in old(rows) || old(rows)[tenant].status == CANCELED || old(rows)[tenant].status == EXPIRED
      ensures r == Err(NO_PLAN) ==> toCode !in plans
      ensures r.Ok? ==> tenant in old(rows) && toCode in plans
      ensures r.Ok? ==>
                var s := old(rows)[tenant];
                var to := plans[toCode];
                var up := to.sortOrder > s.plan.sortOrder;
                && rows == old(rows)[tenant := AfterChange(s, to, toCycle, now)]
                && r == Ok(ChangeResult(s.plan.code, to.code, if up then now else s.periodEnd, up))
                && (up ==> rows[tenant].plan == to && rows[tenant].cycle == toCycle && rows[tenant].pendingPlan.None?)
                && (!up ==> rows == old(rows)[tenant := s.(pendingPlan := Some(to), pendingCycle := Some(toCycle))])
    {
      if tenant !in rows || !Current(rows[tenant]) { return Err(NO_SUBSCRIPTION); }
      if toCode !in plans { return Err(NO_PLAN); }
      var s, to := rows[tenant], plans[toCode];
      var isUpgrade := to.sortOrder > s.plan.sortOrder;
      var effectiveAt := if isUpgrade then now else s.periodEnd;
      if isUpgrade {
        rows := rows[tenant := s.(plan := to, cycle := toCycle, pendingPlan := None, pendingCycle := None)];
        if s.status == PENDING_TRIAL || s.status == TRIALING {
          rows := rows[tenant := rows[tenant].(status := ACTIVE, periodStart := now, periodEnd := AddBillingCycle(now, toCycle))];
        }
      } else {
        rows := rows[tenant := s.(pendingPlan := Some(to), pendingCycle := Some(toCycle))];
      }
      r := Ok(ChangeResult(s.plan.code, to.code, effectiveAt, isUpgrade));
    }
  }
}
