/** How long a hold lasts, and when it is renewed. Durations are in nanoseconds. */
module Leases {

  function Max(a: int, b: int): int { if a < b then b else a }
  function Min(a: int, b: int): int { if a < b then a else b }

  /** What a service grants of a lease that is asked for. */
  function Granted(lo: nat, hi: nat, asked: nat): nat
    requires lo <= hi
  {
    Max(lo, Min(hi, asked))
  }

  /** RenewalDurationFor and renewInterval. */
  function Interval(granted: nat): nat { granted * 2 / 3 }

  function Margin(granted: nat): nat { granted - Interval(granted) }

  // ---------------------------------------------------------------- renewals that arrive

  /** One renewal: how long the answer before it took to come back, and how long it
      took to reach the server. */
  datatype Trip = Trip(reply: nat, request: nat)

  /** The server's times: the claim, then each renewal. A renewal is sent an interval
      after the answer before it; the first also waits for what the worker did
      between its claim and its first renewal, if that took longer. */
  function Times(start: int, interval: nat, since: nat, trips: seq<Trip>): (times: seq<int>)
    ensures |times| == |trips| + 1 && times[0] == start
    decreases |trips|
  {
    if trips == [] then [start]
    else [start] + Times(start + trips[0].reply + Max(interval, since) + trips[0].request, interval, 0, trips[1..])
  }

  /** The lease granted at each of those times: each renewal asks for what is held. */
  function LeasesOf(lo: nat, hi: nat, asked: nat, n: nat): (leases: seq<nat>)
    requires lo <= hi
    ensures |leases| == n + 1
    decreases n
  {
    if n == 0 then [Granted(lo, hi, asked)]
    else [Granted(lo, hi, asked)] + LeasesOf(lo, hi, Granted(lo, hi, asked), n - 1)
  }

  /** Renewal k reaches the server before the lease it extends has run out. */
  predicate InTime(times: seq<int>, leases: seq<nat>, k: nat)
    requires |times| == |leases| && k + 1 < |times|
  {
    times[k + 1] < times[k] + leases[k]
  }

  predicate Unbroken(times: seq<int>, leases: seq<nat>)
    requires |times| == |leases|
  {
    forall k | 0 <= k < |times| - 1 :: InTime(times, leases, k)
  }

  /** The delays of renewal k fit the margin; the first also pays for the time the
      worker took beyond an interval. */
  predicate Fits(granted: nat, since: nat, trips: seq<Trip>, k: nat)
    requires k < |trips|
  {
    trips[k].reply + trips[k].request + (if k == 0 then Max(since - Interval(granted), 0) else 0) < Margin(granted)
  }

  predicate WithinMargin(granted: nat, since: nat, trips: seq<Trip>)
  {
    forall k | 0 <= k < |trips| :: Fits(granted, since, trips, k)
  }

  /** Every grant equals the first: renewing for what is held asks for what can be had. */
  lemma {:induction false} GrantsEqual(lo: nat, hi: nat, asked: nat, n: nat, k: nat)
    requires lo <= hi && k <= n
    ensures LeasesOf(lo, hi, asked, n)[k] == Granted(lo, hi, asked)
    decreases n
  {
    if n > 0 && k > 0 {
      GrantsEqual(lo, hi, Granted(lo, hi, asked), n - 1, k - 1);
    }
  }

  lemma {:induction false} NextTime(start: int, interval: nat, since: nat, trips: seq<Trip>, k: nat)
    requires k < |trips|
    ensures var times := Times(start, interval, since, trips);
            times[k + 1] == times[k] + trips[k].reply + (if k == 0 then Max(interval, since) else interval) +
              trips[k].request
    decreases |trips|
  {
    if k > 0 {
      NextTime(start + trips[0].reply + Max(interval, since) + trips[0].request, interval, 0, trips[1..], k - 1);
    }
  }

  /** A hold stays unbroken through any number of renewals exactly when, each time,
      the delay of one answer plus that of the next request stays under the margin. */
  lemma HoldUnbroken(lo: nat, hi: nat, asked: nat, start: int, since: nat, trips: seq<Trip>)
    requires lo <= hi
    ensures var g := Granted(lo, hi, asked);
            Unbroken(Times(start, Interval(g), since, trips), LeasesOf(lo, hi, asked, |trips|)) <==>
              WithinMargin(g, since, trips)
  {
    var g := Granted(lo, hi, asked);
    var times, leases := Times(start, Interval(g), since, trips), LeasesOf(lo, hi, asked, |trips|);
    forall k | 0 <= k < |trips|
      ensures InTime(times, leases, k) <==> Fits(g, since, trips, k)
    {
      GrantsEqual(lo, hi, asked, |trips|, k);
      NextTime(start, Interval(g), since, trips, k);
    }
  }

  // ---------------------------------------------------------------- renewals that fail

  /** nextRenewalRetry. */
  function NextRetry(last: nat, margin: int, interval: nat): nat
  {
    if margin <= 0 then interval
    else Min(if last > 0 then last * 2 else margin / 8, interval)
  }

  /** The wait before the n-th retry in a row, before jitter. */
  function Delay(n: nat, granted: nat): nat
  {
    if n == 0 then 0 else NextRetry(Delay(n - 1, granted), Margin(granted), Interval(granted))
  }

  /** When the n-th retry goes out, after the first failure. */
  function RetryAt(n: nat, granted: nat, jitter: seq<nat>): nat
    requires n <= |jitter|
  {
    if n == 0 then 0 else RetryAt(n - 1, granted, jitter) + Delay(n, granted) + jitter[n - 1]
  }

  /** jitterLater lengthens each wait by up to a quarter of it. */
  predicate Jitters(granted: nat, jitter: seq<nat>)
  {
    forall i | 0 <= i < |jitter| :: jitter[i] <= Delay(i + 1, granted) / 4
  }

  lemma FirstDelays(granted: nat)
    ensures var d := Margin(granted) / 8;
            Delay(1, granted) == d && Delay(2, granted) == 2 * d && Delay(3, granted) == 4 * d
  {
    var d := Margin(granted) / 8;
    assert 4 * d <= Interval(granted);
    assert Delay(1, granted) == d;
    assert Delay(2, granted) == 2 * d;
  }

  /** When each of three retries goes out. */
  lemma RetryTimes(granted: nat, jitter: seq<nat>)
    requires |jitter| == 3 && Jitters(granted, jitter)
    ensures var d := Margin(granted) / 8;
            && RetryAt(1, granted, jitter) == d + jitter[0]
            && RetryAt(2, granted, jitter) == 3 * d + jitter[0] + jitter[1]
            && RetryAt(3, granted, jitter) == 7 * d + jitter[0] + jitter[1] + jitter[2]
            && jitter[0] <= d / 4 && jitter[1] <= 2 * d / 4 && jitter[2] <= d
  {
    FirstDelays(granted);
    assert RetryAt(1, granted, jitter) == RetryAt(0, granted, jitter) + Delay(1, granted) + jitter[0];
    assert RetryAt(2, granted, jitter) == RetryAt(1, granted, jitter) + Delay(2, granted) + jitter[1];
    assert jitter[2] <= Delay(3, granted) / 4;
  }

  /** Two retries fit inside the margin at any lease length. */
  lemma TwoRetriesFit(granted: nat, jitter: seq<nat>)
    requires |jitter| == 3 && Jitters(granted, jitter)
    ensures RetryAt(1, granted, jitter) <= Margin(granted) && RetryAt(2, granted, jitter) <= Margin(granted)
  {
    RetryTimes(granted, jitter);
  }

  /** The longest jitter there can be. */
  function Longest(granted: nat): (jitter: seq<nat>)
    ensures |jitter| == 3
  {
    var d := Margin(granted) / 8;
    [d / 4, 2 * d / 4, d]
  }

  lemma LongestJitters(granted: nat)
    ensures Jitters(granted, Longest(granted))
  {
    FirstDelays(granted);
  }

  /** Three do, however they are jittered, exactly at the leases whose margin is so
      short that rounding it down to eighths leaves room for the longest jitter. */
  lemma RetriesInMargin(granted: nat)
    ensures var m := Margin(granted); var d := m / 8;
            (forall jitter: seq<nat> | |jitter| == 3 && Jitters(granted, jitter) :: RetryAt(3, granted, jitter) <= m)
            <==> d / 4 + 2 * d / 4 + d <= m - 7 * d
  {
    var m := Margin(granted);
    var d := m / 8;
    forall jitter: seq<nat> | |jitter| == 3 && Jitters(granted, jitter)
      ensures d / 4 + 2 * d / 4 + d <= m - 7 * d ==> RetryAt(3, granted, jitter) <= m
    {
      RetryTimes(granted, jitter);
    }
    LongestJitters(granted);
    RetryTimes(granted, Longest(granted));
  }

  /** That is never so at a margin of 96 nanoseconds or more. */
  lemma OnlyTheShortest(granted: nat)
    requires Margin(granted) >= 96
    ensures exists jitter: seq<nat> ::
            |jitter| == 3 && Jitters(granted, jitter) && RetryAt(3, granted, jitter) > Margin(granted)
  {
    LongestJitters(granted);
    RetryTimes(granted, Longest(granted));
  }

  /** Three attempts do not always fit: with a lease of 45 seconds and the longest
      jitter, the third comes after the margin. */
  lemma ThirdRetryLate()
    ensures exists jitter: seq<nat> ::
              |jitter| == 3 && Jitters(45_000_000_000, jitter) &&
                RetryAt(3, 45_000_000_000, jitter) > Margin(45_000_000_000)
  {
    OnlyTheShortest(45_000_000_000);
  }
}
