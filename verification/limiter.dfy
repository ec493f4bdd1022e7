/** The restart limiter of one service: a ring of start times, and the bounds it enforces. */
module RateLimits {
  import Linkage
  import opened Rings

  /** Whether a service is to be restarted when it fails, and how often: the limit and its period,
      the number of attempts since the count began, and the ring of their times. */
  datatype Policy = Policy(restart: bool, rate: nat, period: int, starts: nat, times: seq<int>)

  /** There is no limit, or the quota is not used up. */
  predicate HasRoom(p: Policy) {
    p.rate == 0 || p.starts < p.rate
  }

  /** The latest of the attempts, or a time before all of them. */
  function Latest(attempts: seq<int>): int {
    if attempts == [] then 0 else attempts[|attempts| - 1]
  }

  /** The time of every attempt that counts has passed. */
  predicate AllBy(rate: nat, attempts: seq<int>, now: int) {
    rate > 0 && attempts != [] ==> Latest(attempts) <= now
  }

  /** The rule the limiter is for: the quota is used up, and a full period has not passed since the
      latest attempt. */
  predicate TooSoon(rate: nat, period: int, attempts: seq<int>, now: int) {
    rate > 0 && |attempts| >= rate && now < Latest(attempts) + period
  }

  ghost predicate Ordered(a: seq<int>) {
    forall i, j {:trigger a[i], a[j]} :: 0 <= i <= j < |a| ==> a[i] <= a[j]
  }

  /** Once the quota is used up, attempts keep a full period between them. */
  ghost predicate Spaced(a: seq<int>, rate: nat, period: int) {
    forall i {:trigger a[i]} :: 0 < rate <= i < |a| ==> a[i - 1] + period <= a[i]
  }

  /** The ring stands for the attempts, and they have kept to the rule. Without a limit no times are
      kept, and there is no rule. */
  ghost predicate InRing(p: Policy, attempts: seq<int>) {
    && |p.times| == p.rate && |attempts| == p.starts
    && (p.rate > 0 ==> Ordered(attempts) && Spaced(attempts, p.rate, p.period) && Holds(p.times, attempts))
  }

  /** What the ring shows of the latest attempt. */
  function Newest(p: Policy): int {
    if 0 < p.rate == |p.times| && p.starts > 0 then p.times[(p.starts - 1) % p.rate] else 0
  }

  lemma NewestIsLatest(p: Policy, attempts: seq<int>)
    requires InRing(p, attempts)
    ensures AllBy(p.rate, attempts, Newest(p))
  {
    if p.rate > 0 && attempts != [] {
      assert attempts[p.starts - 1] == Latest(attempts);
    }
  }

  lemma LaterIsNotTooSoon(p: Policy, attempts: seq<int>, now: int, later: int)
    requires AllBy(p.rate, attempts, now) && !TooSoon(p.rate, p.period, attempts, now) && now <= later
    ensures AllBy(p.rate, attempts, later) && !TooSoon(p.rate, p.period, attempts, later)
  {
  }

  /** One start attempt: its time goes into the next slot of the ring. */
  function Record(p: Policy, now: int): Policy {
    p.(times := if 0 < p.rate == |p.times| then p.times[p.starts % p.rate := now] else p.times, starts := p.starts + 1)
  }

  lemma RecordKeepsRing(p: Policy, attempts: seq<int>, now: int)
    requires InRing(p, attempts) && AllBy(p.rate, attempts, now) && !TooSoon(p.rate, p.period, attempts, now)
    ensures InRing(Record(p, now), attempts + [now])
  {
    if p.rate > 0 {
      PutKeeps(p.times, attempts, now);
    }
    forall i | 0 < p.rate <= i < |attempts + [now]|
      ensures (attempts + [now])[i - 1] + p.period <= (attempts + [now])[i]
    {
      if i < |attempts| {
        assert attempts[i - 1] + p.period <= attempts[i];
      }
    }
  }

  /** The count starts at zero again; the slots keep their old times, which no longer matter. */
  function Recounted(p: Policy): Policy {
    p.(starts := 0)
  }

  lemma FreshRing(p: Policy)
    requires p.starts == 0 && |p.times| == p.rate
    ensures InRing(p, [])
  {
  }

  // ---------------------------------------------------------------- what the limiter guarantees

  /** The ring refines the history: the slot of the latest start, and of the one before it,
      hold the times of those attempts. Both indices are in range even for a quota of one,
      where the second is -1 % 1. */
  lemma RingHoldsLatest(p: Policy, attempts: seq<int>)
    requires InRing(p, attempts) && p.rate > 0 && p.starts >= p.rate
    ensures 0 <= (p.starts - 1) % p.rate < |p.times|
    ensures p.times[(p.starts - 1) % p.rate] == Latest(attempts)
    ensures 0 <= (p.starts - 2) % p.rate < |p.times|
    ensures p.times[(p.starts - 2) % p.rate] <= Latest(attempts)
  {
    assert attempts[p.starts - 1] == Latest(attempts);
    if p.rate > 1 {
      assert attempts[p.starts - 2] <= attempts[p.starts - 1];
    } else {
      assert (p.starts - 2) % 1 == (p.starts - 1) % 1;
    }
  }

  /** Looking into the ring answers the rule; and the slot of the attempt before the latest never
      asks for more than the latest does. */
  lemma RingAnswersRule(p: Policy, attempts: seq<int>, now: int)
    requires InRing(p, attempts) && p.rate > 0 && p.starts >= p.rate
    ensures 0 <= (p.starts - 1) % p.rate < |p.times| && 0 <= (p.starts - 2) % p.rate < |p.times|
    ensures TooSoon(p.rate, p.period, attempts, now) <==> now < p.times[(p.starts - 1) % p.rate] + p.period
    ensures now < p.times[(p.starts - 2) % p.rate] + p.period ==> TooSoon(p.rate, p.period, attempts, now)
  {
    RingHoldsLatest(p, attempts);
  }

  /** From the last attempt of the initial quota on, attempts are a whole period apart. */
  lemma {:induction false} PeriodsAdd(a: seq<int>, rate: nat, period: int, i: nat, n: nat)
    requires Spaced(a, rate, period) && 0 < rate <= i + 1 && i + n < |a|
    ensures a[i] + n * period <= a[i + n]
  {
    if n > 0 {
      PeriodsAdd(a, rate, period, i, n - 1);
      assert a[i + n - 1] + period <= a[i + n];
      assert n * period == (n - 1) * period + period;
    }
  }

  lemma APeriodApart(a: seq<int>, rate: nat, period: int, i: int, j: int)
    requires Ordered(a) && Spaced(a, rate, period)
    ensures 0 < rate <= i + 1 && i < j < |a| ==> a[i] + period <= a[j]
  {
    if 0 < rate <= i + 1 && i < j < |a| {
      assert a[i] <= a[j - 1];
      assert a[j - 1] + period <= a[j];
    }
  }

  lemma QuotientBound(n: nat, p: int, span: int)
    requires p > 0 && n * p <= span
    ensures n <= span / p
  {
    var q := span / p;
    MultipleGrows(n - q, p);
    assert (n - q) * p == n * p - q * p;
    assert q * p == span - span % p;
  }

  /** The attempts in the half-open window [from, from + period). */
  ghost function InWindow(a: seq<int>, from: int, period: int): set<int> {
    set i | 0 <= i < |a| && from <= a[i] < from + period
  }

  lemma SmallSet(s: set<int>, n: nat)
    requires forall i :: i in s ==> 0 <= i < n
    ensures |s| <= n
    decreases n
  {
    if n > 0 {
      SmallSet(s - {n - 1}, n - 1);
      assert n - 1 in s ==> s == (s - {n - 1}) + {n - 1};
      assert n - 1 !in s ==> s == s - {n - 1};
    } else {
      assert forall i :: i !in s;
    }
  }

  lemma AtMostOne(s: set<int>)
    requires forall i, j :: i in s && j in s ==> i == j
    ensures |s| <= 1
  {
    Linkage.Inhabited(s);
    if s != {} {
      var i :| i in s;
      Linkage.Outsider(s, {i});
      assert s == {i};
    }
  }

  /** Of the attempts from the last of the initial quota on, a window holds at most one. */
  lemma OneLate(a: seq<int>, rate: nat, period: int, from: int) returns (late: set<int>)
    requires Ordered(a) && Spaced(a, rate, period) && rate > 0
    ensures late == set i | i in InWindow(a, from, period) && i >= rate - 1
    ensures |late| <= 1
  {
    late := set i | i in InWindow(a, from, period) && i >= rate - 1;
    forall i, j | i in late && j in late ensures i == j {
      APeriodApart(a, rate, period, i, j);
      APeriodApart(a, rate, period, j, i);
    }
    AtMostOne(late);
  }

  /** No window of one period holds more attempts than the quota. */
  lemma AtMostRatePerPeriod(a: seq<int>, rate: nat, period: int, from: int)
    requires Ordered(a) && Spaced(a, rate, period) && rate > 0
    ensures |InWindow(a, from, period)| <= rate
  {
    var w := InWindow(a, from, period);
    var late := OneLate(a, rate, period, from);
    SmallSet(w - late, rate - 1);
    assert w == (w - late) + late;
  }

  /** The total number of attempts grows at most by one a period once the quota is used up. */
  lemma TotalAttempts(a: seq<int>, rate: nat, period: int)
    requires Spaced(a, rate, period) && 0 < rate <= |a| && period > 0
    ensures |a| <= rate + (a[|a| - 1] - a[rate - 1]) / period
  {
    var n, span := |a| - rate, a[|a| - 1] - a[rate - 1];
    PeriodsAdd(a, rate, period, rate - 1, n);
    QuotientBound(n, period, span);
  }
}
