/**
 * The trial clock over whole runs: set once, ended once, ended whenever the
 * total is used up, and a refusal that only an upgrade can lift.
 */
module TrialLifecycle {
  import opened Wrappers
  import opened UsageBuckets
  import opened Calendar
  import opened Subscriptions
  import opened QuotaProtocol

  predicate ClockSane(sub: Subscription) {
    && (sub.status == TRIALING ==> sub.trialStartedAt.Some?)
    && (sub.status == PENDING_TRIAL ==> sub.trialStartedAt.None?)
    && (sub.trialStartedAt.Some? <==> sub.trialEndsAt.Some?)
    && (sub.trialEndedAt.Some? <==> sub.trialEndReason.Some?)
    && (sub.trialEndReason == Some(TIME_LIMIT) ==> sub.trialEndedAt == sub.trialEndsAt)
    && (OnTrialPlan(sub) && sub.trialStartedAt.Some? ==>
          sub.trialEndsAt == Some(sub.trialStartedAt.value + sub.plan.trialHours * HOUR_MS))
  }

  /** What the expiration task has read is still true of the row when it writes. */
  predicate ReadSane(s: State) {
    s.closing.Some? ==> s.sub.trialEndsAt == Some(s.closing.value.endsAt)
  }

  predicate UsedUpIsEnded(s: State) {
    OnTrialPlan(s.sub) && s.sub.plan.totalLimit > 0
    && At(s.buckets, Period(s.sub.createdAt)).used >= s.sub.plan.totalLimit
    ==> s.sub.trialEndedAt.Some?
  }

  predicate Sane(s: State) {
    ClockSane(s.sub) && ReadSane(s) && UsedUpIsEnded(s) && NoReturn(s)
  }

  /** A field once set keeps its value. */
  predicate Kept<T(==)>(a: Option<T>, b: Option<T>) {
    a.Some? ==> b == a
  }

  predicate SetOnce(a: Subscription, b: Subscription) {
    && Kept(a.trialStartedAt, b.trialStartedAt)
    && Kept(a.trialEndsAt, b.trialEndsAt)
    && Kept(a.trialEndedAt, b.trialEndedAt)
    && Kept(a.trialEndReason, b.trialEndReason)
  }

  lemma CommitClock(sub: Subscription, periodUsed: nat, now: int)
    requires ClockSane(sub) && OnTrialPlan(sub)
    ensures var after := AfterCommit(sub, periodUsed, now); ClockSane(after) && SetOnce(sub, after)
  {
  }

  lemma CloseClock(sub: Subscription, endsAtRead: int, now: int)
    requires ClockSane(sub) && sub.trialEndsAt == Some(endsAtRead)
    ensures var after := AfterClose(sub, endsAtRead, now); ClockSane(after) && SetOnce(sub, after)
  {
  }

  /** Plan changes and rollovers leave the clock alone. */
  lemma ChangeClock(sub: Subscription, to: Plan, toCycle: BillingCycle, now: int)
    requires ClockSane(sub) && to.code != TRIAL_PLAN_CODE
    ensures var changed := AfterChange(sub, to, toCycle, now); ClockSane(changed) && SetOnce(sub, changed)
  {
  }

  lemma RolloverClock(sub: Subscription, now: int)
    requires ClockSane(sub)
    requires sub.pendingPlan.Some? ==> sub.pendingPlan.value.code != TRIAL_PLAN_CODE
    ensures var rolled := RolledOver(sub, now); ClockSane(rolled) && SetOnce(sub, rolled)
  {
  }

  lemma CreateClock(s: State, j: JobId, now: int, today: int)
    requires ClockSane(s.sub)
    ensures var t := AfterCreate(s, j, now, today); ClockSane(t.sub) && SetOnce(s.sub, t.sub)
  {
    var buckets := AfterCreate(s, j, now, today).buckets;
    if OnTrialPlan(s.sub) { CommitClock(s.sub, At(buckets, Period(s.sub.createdAt)).used, now); }
  }

  lemma StepClock(s: State, e: Event)
    requires ClockSane(s.sub) && ReadSane(s) && NoReturn(s)
    ensures ClockSane(Next(s, e).sub) && SetOnce(s.sub, Next(s, e).sub)
  {
    match e
    case Commit(j, now, today) => CreateClock(s, j, now, today);
    case Close => if s.closing.Some? { CloseClock(s.sub, s.closing.value.endsAt, s.closing.value.now); }
    case Change(to, toCycle, now) => if to.code != TRIAL_PLAN_CODE { ChangeClock(s.sub, to, toCycle, now); }
    case Rollover(now) => RolloverClock(s.sub, now);
    case _ => assert Next(s, e).sub == s.sub;
  }

  lemma StepRead(s: State, e: Event)
    requires ReadSane(s) && SetOnce(s.sub, Next(s, e).sub)
    ensures ReadSane(Next(s, e))
  {
  }

  /** Only commits raise `used`, and the commit that reaches the total ends the trial. */
  lemma StepUsedUp(s: State, e: Event)
    requires UsedUpIsEnded(s) && NoReturn(s)
    ensures UsedUpIsEnded(Next(s, e))
  {
    if !e.Commit? {
      SubscriptionStep(s, e);
      SameUsed(s, e, Period(s.sub.createdAt));
      EndIsKept(s, e);
    }
  }

  lemma SameUsed(s: State, e: Event, w: Window)
    requires !e.Commit?
    ensures At(Next(s, e).buckets, w).used == At(s.buckets, w).used
  {
  }

  lemma EndIsKept(s: State, e: Event)
    ensures s.sub.trialEndedAt.Some? ==> Next(s, e).sub.trialEndedAt.Some?
  {
  }

  lemma {:induction false} RunSane(s: State, es: seq<Event>)
    requires Sane(s)
    ensures Sane(Run(s, es)) && SetOnce(s.sub, Run(s, es).sub)
    decreases |es|
  {
    if |es| > 0 {
      StepClock(s, es[0]);
      StepRead(s, es[0]);
      SubscriptionStep(s, es[0]);
      StepUsedUp(s, es[0]);
      RunSane(Next(s, es[0]), es[1..]);
    }
  }

  lemma {:induction false} RunConcat(s: State, es: seq<Event>, more: seq<Event>)
    ensures Run(s, es + more) == Run(Run(s, es), more)
    decreases |es|
  {
    if |es| == 0 {
      assert es + more == more;
    } else {
      assert (es + more)[1..] == es[1..] + more;
      RunConcat(Next(s, es[0]), es[1..], more);
    }
  }

  /**
   * Every run of a registered tenant: a TRIALING subscription has both clock
   * instants, trialHours apart; an end instant comes with a reason, and a time
   * end carries the promised instant; using the total up ends the trial; and
   * whatever the run has set, no continuation changes.
   */
  lemma TrialLifeCycle(plan: Plan, createdAt: int, es: seq<Event>, more: seq<Event>)
    ensures var s := Run(Registered(plan, createdAt), es);
            var t := Run(Registered(plan, createdAt), es + more);
            && Sane(s)
            && (s.sub.status == TRIALING ==> s.sub.trialStartedAt.Some? && s.sub.trialEndsAt.Some?)
            && SetOnce(s.sub, t.sub)
  {
    RunSane(Registered(plan, createdAt), es);
    RunConcat(Registered(plan, createdAt), es, more);
    RunSane(Run(Registered(plan, createdAt), es), more);
  }

  /** A new tenant has an empty table and a trial that has not begun: it may operate at any time, with no clock running. */
  lemma RegisteredWaits(plan: Plan, createdAt: int, now: int)
    ensures var s := Registered(plan, createdAt);
            && s.sub.status == PENDING_TRIAL && s.sub.plan == plan && s.sub.pendingPlan.None?
            && s.sub.createdAt == s.sub.periodStart == s.sub.periodEnd == createdAt
            && s.sub.trialStartedAt.None? && s.sub.trialEndsAt.None? && s.sub.trialEndedAt.None?
            && Evaluate(Some(s.sub), now).canOperate
            && s.notes == map[] && s.buckets == map[] && s.transactions == [] && s.jobs == map[]
  {
  }

  // ---- Refusal ------------------------------------------------------------

  predicate Refuses(sub: Subscription, now: int) {
    !Evaluate(Some(sub), now).canOperate
  }

  lemma StepRefuses(s: State, e: Event, now: int)
    requires Refuses(s.sub, now) || s.sub.status == ACTIVE
    ensures Refuses(Next(s, e).sub, now) || Next(s, e).sub.status == ACTIVE
    ensures s.sub.status != ACTIVE && !(e.Change? && e.to.sortOrder > s.sub.plan.sortOrder) ==> Next(s, e).sub.status != ACTIVE
  {
  }

  /** From any state: once refused, refused at every later instant and state, unless ACTIVE by then. */
  lemma {:induction false} RefusalLasts(s: State, es: seq<Event>, now: int, later: int)
    requires now <= later && (Refuses(s.sub, now) || s.sub.status == ACTIVE)
    ensures Refuses(Run(s, es).sub, later) || Run(s, es).sub.status == ACTIVE
    decreases |es|
  {
    if |es| > 0 {
      StepRefuses(s, es[0], now);
      RefusalLasts(Next(s, es[0]), es[1..], now, later);
    }
  }

  /** No step of the run changes to a plan of higher sort order than the one it finds. */
  ghost predicate NoUpgrade(s: State, es: seq<Event>)
    decreases |es|
  {
    |es| == 0 || (!(es[0].Change? && es[0].to.sortOrder > s.sub.plan.sortOrder) && NoUpgrade(Next(s, es[0]), es[1..]))
  }

  /** And nothing but an upgrade makes it ACTIVE. */
  lemma {:induction false} OnlyUpgradeLifts(s: State, es: seq<Event>, now: int, later: int)
    requires now <= later && Refuses(s.sub, now) && NoUpgrade(s, es)
    ensures Refuses(Run(s, es).sub, later)
    decreases |es|
  {
    if |es| > 0 {
      StepRefuses(s, es[0], now);
      OnlyUpgradeLifts(Next(s, es[0]), es[1..], now, later);
    }
  }

  /**
   * The commit of a payment on the trial plan: the first one starts the clock at its
   * own instant for trial hours, the one that brings `used` to the total ends it.
   */
  lemma CommitStartsAndStops(s: State, j: JobId, now: int, today: int)
    requires OnTrialPlan(s.sub) && JobAt(s, j, Parsing) && j.note !in s.transactions && s.sub.trialEndedAt.None?
    ensures var t := Next(s, Commit(j, now, today));
            var used := At(t.buckets, Period(s.sub.createdAt)).used;
            && (s.sub.status == PENDING_TRIAL ==>
                  t.sub.status == TRIALING && t.sub.trialStartedAt == Some(now)
                  && t.sub.trialEndsAt == Some(now + s.sub.plan.trialHours * 3_600_000))
            && (s.sub.status != PENDING_TRIAL ==> t.sub.status == s.sub.status && t.sub.trialEndsAt == s.sub.trialEndsAt)
            && (t.sub.trialEndedAt.Some? <==> 0 < s.sub.plan.totalLimit <= used)
            && (t.sub.trialEndedAt.Some? ==> t.sub.trialEndedAt == Some(now) && t.sub.trialEndReason == Some(TOTAL_LIMIT))
  {
  }

  /** Who may operate: a trial not begun, a paid subscription, or a trial whose clock is set, running and not ended. */
  lemma OperatesIff(sub: Option<Subscription>, now: int)
    ensures Evaluate(sub, now).canOperate <==>
              sub.Some? && (sub.value.status == PENDING_TRIAL || sub.value.status == ACTIVE
                            || (sub.value.status == TRIALING && sub.value.trialStartedAt.Some? && sub.value.trialEndsAt.Some?
                                && sub.value.trialEndsAt.value > now && sub.value.trialEndedAt.None?))
  {
  }

  /** A trial without both clock instants, which no run produces. */
  predicate ClockMissing(sub: Subscription) {
    sub.status == TRIALING && (sub.trialStartedAt.None? || sub.trialEndsAt.None?)
  }

  /** Reading `canOperate` as the ingest gate does: the error it raises says why. */
  lemma GateErrors(sub: Option<Subscription>, now: int)
    ensures AssertCanOperate(Evaluate(sub, now)).None? <==> Evaluate(sub, now).canOperate
    ensures AssertCanOperate(Evaluate(sub, now)) == Some(SERVICE_UNAVAILABLE) <==> sub.Some? && ClockMissing(sub.value)
    ensures sub.Some? && ClockSane(sub.value) ==> AssertCanOperate(Evaluate(sub, now)) != Some(SERVICE_UNAVAILABLE)
  {
  }

  /** What a decision says besides: who may read and configure, and why operating is refused. */
  lemma DecisionMeaning(sub: Option<Subscription>, now: int)
    ensures var d := Evaluate(sub, now);
            && (d.canRead <==> sub.Some?)
            && d.canConfigure == d.canOperate
            && (d.reason == NONE <==> d.canOperate)
            && (d.reason == INVALID_CONFIGURATION <==> sub.Some? && ClockMissing(sub.value))
            && (d.reason == TRIAL_EXPIRED <==>
                  sub.Some? && sub.value.status == TRIALING && !ClockMissing(sub.value)
                  && (sub.value.trialEndedAt.Some? || sub.value.trialEndsAt.value <= now))
            && (d.reason == PAYMENT_REQUIRED <==>
                  sub.None? || sub.value.status == PAST_DUE || sub.value.status == CANCELED || sub.value.status == EXPIRED)
  {
  }

  // ---- Closing a trial ----------------------------------------------------

  /** The expiration task picks exactly the open trials that access already refuses. */
  lemma DueIffRefused(sub: Subscription, now: int)
    requires ClockSane(sub)
    ensures TrialDue(sub, now) <==> sub.status == TRIALING && sub.trialEndedAt.None? && !Evaluate(Some(sub), now).canOperate
  {
  }

  /** Closing a trial writes down an end that has come: it changes the decision at no instant from the task's reading on. */
  lemma CloseKeepsAccess(sub: Subscription, endsAtRead: int, now: int, later: int)
    requires now <= later
    ensures Evaluate(Some(AfterClose(sub, endsAtRead, now)), later) == Evaluate(Some(sub), later)
  {
  }

  /** The task's two steps close a trial whose time is over, at the promised instant. */
  lemma DueIsClosed(s: State, now: int)
    requires ClockSane(s.sub) && s.sub.status == TRIALING && s.sub.trialEndedAt.None? && s.sub.trialEndsAt.value <= now
    ensures Next(Next(s, ReadDue(now)), Close)
         == s.(sub := s.sub.(trialEndedAt := s.sub.trialEndsAt, trialEndReason := Some(TIME_LIMIT)), closing := None)
  {
  }

  /** In every run a trial the task has closed was refused when it read the clock, and says so with its promised end. */
  lemma StepClosesInTime(s: State)
    requires Sane(s) && s.sub.trialEndedAt.None? && Next(s, Close).sub.trialEndedAt.Some?
    ensures s.closing.Some?
    ensures var at, t := s.closing.value.now, Next(s, Close);
            && s.sub.status == TRIALING && Refuses(s.sub, at)
            && t.sub == s.sub.(trialEndedAt := s.sub.trialEndsAt, trialEndReason := Some(TIME_LIMIT))
            && s.sub.trialEndsAt.Some? && s.sub.trialEndsAt.value <= at
  {
  }

  // ---- Plan changes and rollovers within the protocol ---------------------

  /** A rollover moves a due subscription to its next period and plan, and is the only thing it does. */
  lemma RolloverEvent(s: State, now: int)
    ensures var t := Next(s, Rollover(now));
            && t == s.(sub := t.sub)
            && (if s.sub.status == ACTIVE && s.sub.periodEnd <= now
                then t.sub.periodStart == s.sub.periodEnd && t.sub.periodEnd >= s.sub.periodEnd + 28 * 86_400_000
                     && t.sub.plan == s.sub.pendingPlan.GetOr(s.sub.plan) && t.sub.pendingPlan.None?
                else t.sub == s.sub)
  {
    if s.sub.status == ACTIVE && s.sub.periodEnd <= now { PeriodsAbut(s.sub, now); }
  }

  /** A confirmed change moves a subscription in a current status, at once when the sort order rises. */
  lemma ChangeEvent(s: State, to: Plan, toCycle: BillingCycle, now: int)
    requires to.code != TRIAL_PLAN_CODE
    ensures var t := Next(s, Change(to, toCycle, now));
            && t == s.(sub := t.sub)
            && (if s.sub.status == CANCELED || s.sub.status == EXPIRED then t.sub == s.sub
                else if to.sortOrder > s.sub.plan.sortOrder
                then t.sub.plan == to && t.sub.cycle == toCycle && t.sub.pendingPlan.None?
                     && (s.sub.status == PENDING_TRIAL || s.sub.status == TRIALING ==> t.sub.status == ACTIVE)
                else t.sub == s.sub.(pendingPlan := Some(to), pendingCycle := Some(toCycle)))
  {
  }
}
