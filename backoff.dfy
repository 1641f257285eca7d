/** The reconnection back-off policy shared by both hub providers:
    the delay before attempt `k` is `1000 * 2^k` milliseconds, and the
    caller stops after five attempts. */
module Backoff {

  const MaxAttempts: nat := 5
  const BaseDelay: nat := 1000

  /** `Math.pow(2, k)`; positive, so every delay is at least the base. */
  function Pow2(k: nat): (r: nat)
    ensures r >= 1
  {
    if k == 0 then 1 else 2 * Pow2(k - 1)
  }

  /** `baseDelay * Math.pow(2, attempt)`: never shorter than the base delay. */
  function Delay(attempt: nat): (d: nat)
    ensures d >= BaseDelay
  {
    BaseDelay * Pow2(attempt)
  }

  /** Each delay is twice the previous one, starting at the base delay. */
  lemma DelayDoubles(k: nat)
    ensures Delay(0) == BaseDelay
    ensures Delay(k + 1) == 2 * Delay(k)
  {
  }

  /** The delays requested by `n` consecutive attempts starting at attempt `from`. */
  function Schedule(from: nat, n: nat): (r: seq<nat>)
    ensures |r| == n
    decreases n
  {
    if n == 0 then [] else [Delay(from)] + Schedule(from + 1, n - 1)
  }

  /** Entry `i` of a schedule is the delay of attempt `from + i`. */
  lemma {:induction false} ScheduleAt(from: nat, n: nat, i: nat)
    requires i < n
    ensures Schedule(from, n)[i] == Delay(from + i)
    decreases n
  {
    if i > 0 {
      ScheduleAt(from + 1, n - 1, i - 1);
    }
  }

  /** The full schedule of one reconnection episode: 1s, 2s, 4s, 8s, 16s. */
  lemma FullSchedule()
    ensures Schedule(0, MaxAttempts) == [1000, 2000, 4000, 8000, 16000]
  {
  }

  /** Delays `d` followed by the delay of attempt `from` and then the
      schedule from attempt `from + 1` are `d` followed by the schedule from
      attempt `from`. */
  lemma ScheduleStep(d: seq<nat>, next: seq<nat>, last: seq<nat>, from: nat, following: nat)
    requires next == d + [Delay(from)] && following == from + 1
    requires |next| <= |last| && last == next + Schedule(following, |last| - |next|)
    ensures |d| <= |last| && last == d + Schedule(from, |last| - |d|)
  {
    assert Schedule(from, |last| - |d|) == [Delay(from)] + Schedule(from + 1, |last| - |next|);
  }

  /** Delays that follow `d0` with the schedule of as many attempts as they
      add, when they add `n`, are `d0` followed by `n` attempts of it. */
  lemma ScheduleCount(d0: seq<nat>, d: seq<nat>, from: nat, n: nat)
    requires |d0| <= |d| && d == d0 + Schedule(from, |d| - |d0|) && |d| == |d0| + n
    ensures d == d0 + Schedule(from, n)
  {
  }

  /** Splitting a schedule after its first `m` attempts. */
  lemma {:induction false} ScheduleSplit(from: nat, m: nat, n: nat)
    requires m <= n
    ensures Schedule(from, n) == Schedule(from, m) + Schedule(from + m, n - m)
    decreases m
  {
    if m > 0 {
      ScheduleSplit(from + 1, m - 1, n - 1);
    }
  }

  /** Every delay of a schedule is at least the base delay of one second. */
  lemma {:induction false} ScheduleWaits(from: nat, n: nat)
    ensures forall i :: 0 <= i < n ==> Schedule(from, n)[i] >= BaseDelay
  {
    forall i | 0 <= i < n ensures Schedule(from, n)[i] >= BaseDelay {
      ScheduleAt(from, n, i);
    }
  }

  /** The first `n` attempts of an episode request the first `n` delays of
      the full schedule. */
  lemma SchedulePrefix(n: nat)
    requires n <= MaxAttempts
    ensures Schedule(0, n) == [1000, 2000, 4000, 8000, 16000][..n]
  {
    ScheduleSplit(0, n, MaxAttempts);
    FullSchedule();
  }
}
