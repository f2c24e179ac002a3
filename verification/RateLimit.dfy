/** The fixed-window rate limiter of the public API: one expiring counter per key and minute. */
module RateLimit {
  import opened Wrappers

  const WINDOW_SECONDS := 60

  /** A request of an API key: when it read the clock, and when its INCR ran, in milliseconds. */
  datatype Request = Request(key: int, read: nat, at: nat)
  {
    function Second(): nat { read / 1_000 }

    function WindowStart(): nat { Second() - Second() % 60 }

    function Counter(): Id { Id(key, WindowStart()) }

    /** The increment follows the clock reading, before the window of that reading is over. */
    predicate OnTime() { read <= at < (WindowStart() + 60) * 1_000 }
  }

  datatype Id = Id(key: int, windowStart: nat)

  datatype Entry = Entry(count: nat, expiresAt: int)

  type Counters = map<Id, Entry>

  /** An expired entry is no entry. */
  function CountAt(c: Counters, id: Id, at: int): nat {
    if id in c && at < c[id].expiresAt then c[id].count else 0
  }

  /** INCR, and EXPIRE when the counter has just been created. */
  function Bumped(c: Counters, r: Request): Counters {
    var n := CountAt(c, r.Counter(), r.at) + 1;
    c[r.Counter() := Entry(n, if n == 1 then r.at + 60_000 else c[r.Counter()].expiresAt)]
  }

  predicate Admits(c: Counters, r: Request, limit: int) {
    limit > 0 && CountAt(c, r.Counter(), r.at) + 1 <= limit
  }

  // ---- Request sequences --------------------------------------------------

  function After(rs: seq<Request>): Counters {
    if |rs| == 0 then map[] else Bumped(After(rs[..|rs| - 1]), rs[|rs| - 1])
  }

  /** The requests of one key and window. */
  function Asked(rs: seq<Request>, id: Id): nat {
    if |rs| == 0 then 0 else Asked(rs[..|rs| - 1], id) + if rs[|rs| - 1].Counter() == id then 1 else 0
  }

  /** Those admitted. */
  function Admitted(rs: seq<Request>, id: Id, limit: int): nat {
    if |rs| == 0 then 0
    else
      var init, last := rs[..|rs| - 1], rs[|rs| - 1];
      Admitted(init, id, limit) + if last.Counter() == id && Admits(After(init), last, limit) then 1 else 0
  }

  /** The admitted requests of a key that read the clock within 60 seconds from second `from`. */
  function AdmittedWithin(rs: seq<Request>, key: int, from: nat, limit: int): nat {
    if |rs| == 0 then 0
    else
      var init, last := rs[..|rs| - 1], rs[|rs| - 1];
      AdmittedWithin(init, key, from, limit)
      + if last.key == key && from <= last.Second() < from + 60 && Admits(After(init), last, limit) then 1 else 0
  }

  // ---- When a window keeps its limit --------------------------------------

  /** When the first increment of the window ran. */
  function Opened(rs: seq<Request>, id: Id): nat
    requires Asked(rs, id) > 0
  {
    if Asked(rs[..|rs| - 1], id) > 0 then Opened(rs[..|rs| - 1], id) else rs[|rs| - 1].at
  }

  /** Every increment of the window runs less than 60 seconds after the first one. */
  predicate Unexpired(rs: seq<Request>, id: Id) {
    |rs| == 0
    || (Unexpired(rs[..|rs| - 1], id) && (rs[|rs| - 1].Counter() == id ==> rs[|rs| - 1].at < Opened(rs, id) + 60_000))
  }

  predicate AllOnTime(rs: seq<Request>) {
    forall i :: 0 <= i < |rs| ==> rs[i].OnTime()
  }

  /** Increments that run before their own window is over keep every counter unexpired, whenever it was opened. */
  lemma {:induction false} OnTimeIsUnexpired(rs: seq<Request>, id: Id)
    requires AllOnTime(rs)
    ensures Unexpired(rs, id)
    ensures Asked(rs, id) > 0 ==> id.windowStart * 1_000 <= Opened(rs, id)
  {
    if |rs| > 0 {
      OnTimeIsUnexpired(rs[..|rs| - 1], id);
      assert rs[|rs| - 1].OnTime();
      ReadInWindow(rs[|rs| - 1]);
    }
  }

  lemma ReadInWindow(r: Request)
    ensures r.WindowStart() * 1_000 <= r.read
  {
  }

  /** An unexpired counter holds every request of its window. */
  lemma {:induction false} CounterIsComplete(rs: seq<Request>, id: Id)
    requires Unexpired(rs, id)
    ensures if Asked(rs, id) == 0 then id !in After(rs)
            else id in After(rs) && After(rs)[id] == Entry(Asked(rs, id), Opened(rs, id) + 60_000)
  {
    if |rs| > 0 {
      var init, last := rs[..|rs| - 1], rs[|rs| - 1];
      CounterIsComplete(init, id);
    }
  }

  lemma CountIsAsked(rs: seq<Request>, r: Request)
    requires Unexpired(rs + [r], r.Counter())
    ensures CountAt(After(rs), r.Counter(), r.at) == Asked(rs, r.Counter())
    ensures Asked(rs + [r], r.Counter()) == Asked(rs, r.Counter()) + 1
  {
    assert (rs + [r])[..|rs|] == rs;
    CounterIsComplete(rs, r.Counter());
  }

  /** Such a window admits exactly its first `limit` requests. */
  lemma {:induction false} WindowAdmitsLimit(rs: seq<Request>, id: Id, limit: int)
    requires Unexpired(rs, id)
    ensures Admitted(rs, id, limit) == Min(Asked(rs, id), Max(limit, 0))
  {
    if |rs| > 0 {
      var init, last := rs[..|rs| - 1], rs[|rs| - 1];
      WindowAdmitsLimit(init, id, limit);
      if last.Counter() == id { CounterIsComplete(init, id); }
    }
  }

  /** Requests counted since the counter was last created, 0 before. */
  function Current(rs: seq<Request>, id: Id): nat {
    if id in After(rs) then After(rs)[id].count else 0
  }

  /**
   * Once a counter has expired inside its window, every request up to limit + 1 is
   * admitted: whatever the new counter holds comes on top of what the old one let in.
   */
  lemma {:induction false} ExpiryAdmitsMore(rs: seq<Request>, id: Id, limit: int)
    requires limit > 0 && !Unexpired(rs, id)
    ensures Admitted(rs, id, limit) >= Min(Asked(rs, id), limit + 1)
    ensures Admitted(rs, id, limit) > Min(Current(rs, id), limit)
  {
    var init, last := rs[..|rs| - 1], rs[|rs| - 1];
    if Unexpired(init, id) {
      CounterIsComplete(init, id);
      WindowAdmitsLimit(init, id, limit);
    } else {
      ExpiryAdmitsMore(init, id, limit);
    }
  }

  /**
   * For every sequence of requests, late ones included, a window admits no more than
   * its limit if and only if no increment ran 60 seconds or more after the window's
   * first one, or no more than the limit asked.
   */
  lemma LimitHoldsIff(rs: seq<Request>, id: Id, limit: int)
    requires limit > 0
    ensures Admitted(rs, id, limit) <= limit <==> Unexpired(rs, id) || Asked(rs, id) <= limit
  {
    AdmittedIsAsked(rs, id, limit);
    if Unexpired(rs, id) { WindowAdmitsLimit(rs, id, limit); } else { ExpiryAdmitsMore(rs, id, limit); }
  }

  lemma {:induction false} AdmittedIsAsked(rs: seq<Request>, id: Id, limit: int)
    ensures Admitted(rs, id, limit) <= Asked(rs, id)
    ensures limit <= 0 ==> Admitted(rs, id, limit) == 0
  {
    if |rs| > 0 { AdmittedIsAsked(rs[..|rs| - 1], id, limit); }
  }

  /** So the limit is kept whatever it is exactly when the counter never expires inside the window. */
  lemma EveryLimitHoldsIff(rs: seq<Request>, id: Id)
    ensures (forall limit: nat :: limit > 0 ==> Admitted(rs, id, limit) <= limit) <==> Unexpired(rs, id)
  {
    forall limit: nat | limit > 0 ensures Admitted(rs, id, limit) <= limit <==> Unexpired(rs, id) || Asked(rs, id) <= limit {
      LimitHoldsIff(rs, id, limit);
    }
    if !Unexpired(rs, id) {
      ExpiredAsksTwice(rs, id);
      assert Admitted(rs, id, Asked(rs, id) - 1) > Asked(rs, id) - 1;
    }
  }

  lemma {:induction false} ExpiredAsksTwice(rs: seq<Request>, id: Id)
    requires !Unexpired(rs, id)
    ensures Asked(rs, id) >= 2
  {
    if !Unexpired(rs[..|rs| - 1], id) { ExpiredAsksTwice(rs[..|rs| - 1], id); }
  }

  /** An increment that runs after its window can find the counter expired: two admitted under a limit of one. */
  lemma LateIncrementOverruns(key: int)
    ensures var rs := [Request(key, 0, 0), Request(key, 59_999, 60_000)];
            Asked(rs, Id(key, 0)) == 2 && Admitted(rs, Id(key, 0), 1) == 2
  {
    var a, b := Request(key, 0, 0), Request(key, 59_999, 60_000);
    assert [a, b][..1] == [a] && [a][..0] == [];
    assert a.Counter() == b.Counter() == Id(key, 0);
    assert After([]) == map[] && After([a]) == Bumped(After([]), a);
    assert Asked([], Id(key, 0)) == 0 && Admitted([], Id(key, 0), 1) == 0;
    assert Asked([a], Id(key, 0)) == 1;
    assert Admitted([a], Id(key, 0), 1) == 1;
  }

  // ---- Any 60 seconds -----------------------------------------------------

  predicate KeepsLimit(rs: seq<Request>, id: Id, limit: int) {
    Unexpired(rs, id) || Asked(rs, id) <= limit
  }

  /** Any 60 consecutive seconds meet two windows; when both keep the limit they admit at most twice as many. */
  lemma MinuteAdmitsTwiceLimit(rs: seq<Request>, key: int, from: nat, limit: int)
    requires var w := from - from % 60; KeepsLimit(rs, Id(key, w), limit) && KeepsLimit(rs, Id(key, w + 60), limit)
    ensures AdmittedWithin(rs, key, from, limit) <= 2 * Max(limit, 0)
  {
    var w := from - from % 60;
    WithinTwoWindows(rs, key, from, limit);
    if limit > 0 {
      LimitHoldsIff(rs, Id(key, w), limit);
      LimitHoldsIff(rs, Id(key, w + 60), limit);
    } else {
      AdmittedIsAsked(rs, Id(key, w), limit);
      AdmittedIsAsked(rs, Id(key, w + 60), limit);
    }
  }

  lemma {:induction false} WithinTwoWindows(rs: seq<Request>, key: int, from: nat, limit: int)
    ensures var w := from - from % 60;
            var both := Admitted(rs, Id(key, w), limit) + Admitted(rs, Id(key, w + 60), limit);
            && AdmittedWithin(rs, key, from, limit) <= both
            && ((forall i :: 0 <= i < |rs| ==> from <= rs[i].Second() < from + 60) ==> AdmittedWithin(rs, key, from, limit) == both)
  {
    if |rs| > 0 {
      var init, last := rs[..|rs| - 1], rs[|rs| - 1];
      WithinTwoWindows(init, key, from, limit);
      if from <= last.Second() < from + 60 { NextWindow(last.Second(), from); }
    }
  }

  lemma NextWindow(second: nat, from: nat)
    requires from <= second < from + 60
    ensures second - second % 60 == from - from % 60 || second - second % 60 == from - from % 60 + 60
  {
  }

  /** The bound is met within two seconds: `limit` requests at the end of one window and `limit` at the start of the next. */
  lemma TwiceLimitHappens(limit: nat, key: int)
    requires limit > 0
    ensures var rs := seq(limit, _ => Request(key, 59_000, 59_000)) + seq(limit, _ => Request(key, 60_000, 60_000));
            AllOnTime(rs) && AdmittedWithin(rs, key, 59, limit) == 2 * limit
  {
    var late, early := Request(key, 59_000, 59_000), Request(key, 60_000, 60_000);
    var rs := seq(limit, _ => late) + seq(limit, _ => early);
    assert late.OnTime() && early.OnTime();
    AskedTwice(late, early, limit, limit);
    OnTimeIsUnexpired(rs, Id(key, 0));
    OnTimeIsUnexpired(rs, Id(key, 60));
    WindowAdmitsLimit(rs, Id(key, 0), limit);
    WindowAdmitsLimit(rs, Id(key, 60), limit);
    WithinTwoWindows(rs, key, 59, limit);
  }

  lemma {:induction false} AskedTwice(late: Request, early: Request, m: nat, n: nat)
    requires late.Counter() != early.Counter()
    ensures var rs := seq(m, _ => late) + seq(n, _ => early);
            Asked(rs, late.Counter()) == m && Asked(rs, early.Counter()) == n
    decreases n, m
  {
    var rs := seq(m, _ => late) + seq(n, _ => early);
    if n > 0 {
      AskedTwice(late, early, m, n - 1);
      assert rs[..|rs| - 1] == seq(m, _ => late) + seq(n - 1, _ => early);
    } else if m > 0 {
      AskedTwice(late, early, m - 1, 0);
      assert rs[..|rs| - 1] == seq(m - 1, _ => late) + seq(0, _ => early);
    }
  }

  // ---- The guard ----------------------------------------------------------

  datatype Verdict = Verdict(allowed: bool, remaining: nat, resetAt: nat, retryAfter: nat)

  class Guard {
    var counters: Counters
    ghost var history: seq<Request>

    ghost predicate Valid()
      reads this
    {
      counters == After(history)
    }

    constructor ()
      ensures Valid() && history == []
    {
      counters, history := map[], [];
    }

    /** INCR. */
    method Incr(id: Id, at: int) returns (count: nat)
      modifies this`counters
      ensures count == CountAt(old(counters), id, at) + 1
      ensures counters.Keys == old(counters).Keys + {id}
      ensures counters[id].count == count
      ensures count > 1 ==> counters[id].expiresAt == old(counters)[id].expiresAt
      ensures forall k :: k in counters && k != id ==> counters[k] == old(counters)[k]
    {
      if id in counters && at < counters[id].expiresAt {
        count := counters[id].count + 1;
        counters := counters[id := Entry(count, counters[id].expiresAt)];
      } else {
        count := 1;
        counters := counters[id := Entry(1, at)];
      }
    }

    /**
     * The guard: a request passes by the count it finds; while the counter of its
     * window has not expired that is the number of earlier requests of the window.
     */
    method CanActivate(r: Request, limit: int) returns (v: Verdict)
      requires Valid()
      modifies this
      ensures Valid() && history == old(history) + [r]
      ensures v.allowed <==> Admits(old(counters), r, limit)
      ensures Unexpired(history, r.Counter()) ==>
                && (v.allowed <==> limit > 0 && Asked(old(history), r.Counter()) < limit)
                && v.remaining == Max(0, limit - Asked(history, r.Counter()))
      ensures v.resetAt == r.WindowStart() + 60
      ensures !v.allowed ==> v.retryAfter >= 1 && r.Second() + v.retryAfter == v.resetAt
    {
      var nowSeconds := r.read / 1_000;
      var windowStart := nowSeconds - nowSeconds % WINDOW_SECONDS;
      var resetAt := windowStart + WINDOW_SECONDS;
      var count := Count(r, Id(r.key, windowStart));
      if Unexpired(history, r.Counter()) { CountIsAsked(old(history), r); }
      var remaining := if limit > count then limit - count else 0;
      var retryAfter := if resetAt - nowSeconds > 1 then resetAt - nowSeconds else 1;
      v := Verdict(!(limit <= 0 || count > limit), remaining, resetAt, retryAfter);
    }

    /** INCR, then EXPIRE when the counter has just been created. */
    method Count(r: Request, id: Id) returns (count: nat)
      requires Valid() && id == r.Counter()
      modifies this
      ensures Valid() && history == old(history) + [r]
      ensures count == CountAt(old(counters), id, r.at) + 1
    {
      ghost var before := counters;
      count := Incr(id, r.at);
      if count == 1 {
        counters := counters[id := Entry(1, r.at + WINDOW_SECONDS * 1_000)];
      }
      assert counters == Bumped(before, r);
      assert (history + [r])[..|history|] == history;
      history := history + [r];
    }
  }
}
