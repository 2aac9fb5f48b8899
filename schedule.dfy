/**
 * The interval schedule of the work/rest timer: the three modes, the user's
 * configuration, the length of each period, and the transition taken when a
 * period runs out. Everything here is a value; the object that owns the live
 * state and runs these rules step by step is `Timer.WorkRestTimer`.
 */
module Schedule {

  /** The three kinds of period. */
  datatype Mode = Work | Break | LongBreak

  /**
   * The user's configuration: the length of each period in minutes, how many
   * work periods make a long break due, and the two switches.
   */
  datatype Settings = Settings(
    workMin: int,
    breakMin: int,
    longBreakMin: int,
    cyclesToLong: int,
    autoStart: bool,
    vibrateOnEnd: bool)

  const MillisPerMinute: int := 60_000

  /** The ranges the settings sliders allow. */
  predicate InRange(s: Settings) {
    10 <= s.workMin <= 120 &&
    1 <= s.breakMin <= 60 &&
    5 <= s.longBreakMin <= 60 &&
    1 <= s.cyclesToLong <= 8
  }

  /** The configuration used when nothing has been stored yet. */
  function Defaults(): (s: Settings)
    ensures InRange(s)
    ensures s.workMin == 50 && s.breakMin == 10 && s.longBreakMin == 20 && s.cyclesToLong == 3
    ensures s.autoStart && s.vibrateOnEnd
  {
    Settings(50, 10, 20, 3, true, true)
  }

  /** The configured minutes of mode `m`. */
  function Minutes(s: Settings, m: Mode): int {
    match m
    case Work => s.workMin
    case Break => s.breakMin
    case LongBreak => s.longBreakMin
  }

  /** Length of a period of mode `m`, in milliseconds. */
  function DurationFor(s: Settings, m: Mode): (r: int)
    ensures r % MillisPerMinute == 0 && r / MillisPerMinute == Minutes(s, m)
    ensures InRange(s) ==> MillisPerMinute <= r <= 120 * MillisPerMinute
  {
    Minutes(s, m) * MillisPerMinute
  }

  /** Changing the minutes of one mode leaves the length of every other mode alone. */
  lemma DurationOfOtherModes(s: Settings, v: int, m: Mode)
    ensures m != Work ==> DurationFor(s.(workMin := v), m) == DurationFor(s, m)
    ensures m != Break ==> DurationFor(s.(breakMin := v), m) == DurationFor(s, m)
    ensures m != LongBreak ==> DurationFor(s.(longBreakMin := v), m) == DurationFor(s, m)
    ensures DurationFor(s.(cyclesToLong := v), m) == DurationFor(s, m)
  {
  }

  /**
   * The part of the timer state that the period transition changes: the
   * current mode, the work periods done since the last long break, and the
   * work periods completed in all.
   */
  datatype Cycle = Cycle(mode: Mode, cyclesSinceLong: int, completed: int)

  /**
   * The transition taken when the current period runs out. A finished work
   * period counts once in both counters and leads to a long break when the
   * count since the last one has reached `cyclesToLong` (the count then starts
   * again from 0), to a short break otherwise. A finished break of either
   * kind leads back to work.
   */
  function Advance(c: Cycle, cyclesToLong: int): (r: Cycle)
    ensures c.mode == Work ==>
      r.completed == c.completed + 1 &&
      (r.mode == LongBreak <==> c.cyclesSinceLong + 1 >= cyclesToLong) &&
      (r.mode == LongBreak ==> r.cyclesSinceLong == 0) &&
      (r.mode != LongBreak ==> r.mode == Break && r.cyclesSinceLong == c.cyclesSinceLong + 1)
    ensures c.mode == Work && 1 <= cyclesToLong && 0 <= c.cyclesSinceLong ==>
      0 <= r.cyclesSinceLong < cyclesToLong
    ensures c.mode != Work ==> r == c.(mode := Work)
    ensures r.mode == Work <==> c.mode != Work
  {
    if c.mode == Work then
      var since := c.cyclesSinceLong + 1;
      if since >= cyclesToLong then Cycle(LongBreak, 0, c.completed + 1)
      else Cycle(Break, since, c.completed + 1)
    else
      c.(mode := Work)
  }

  /** The cycle state after `n` periods have run out in a row. */
  function Run(c: Cycle, n: nat, cyclesToLong: int): Cycle
    decreases n
  {
    if n == 0 then c else Run(Advance(c, cyclesToLong), n - 1, cyclesToLong)
  }

  /** Running `n + 1` periods is running `n` and then one more. */
  lemma {:induction false} RunLast(c: Cycle, n: nat, cyclesToLong: int)
    ensures Run(c, n + 1, cyclesToLong) == Advance(Run(c, n, cyclesToLong), cyclesToLong)
    decreases n
  {
    if n > 0 {
      RunLast(Advance(c, cyclesToLong), n - 1, cyclesToLong);
    }
  }

  /** The work counter `k` work periods after `since`, counting round a cycle of length `n`. */
  function CountRound(since: int, k: nat, n: int): int
    decreases k
  {
    if k == 0 then since
    else
      var x := CountRound(since, k - 1, n);
      if x + 1 == n then 0 else x + 1
  }

  lemma MulGrows(b: int, d: int)
    requires 1 <= b && 1 <= d
    ensures b * d >= b
  {
  }

  /** Quotient and remainder are those of any decomposition `a == q * n + r` with `0 <= r < n`. */
  lemma DivModUnique(a: int, n: int, q: int, r: int)
    requires 1 <= n && 0 <= r < n && a == q * n + r
    ensures a / n == q && a % n == r
  {
    var d := a / n - q;
    assert n * d == n * (a / n) - n * q;
    assert n * d == r - a % n;
    if d > 0 {
      MulGrows(n, d);
    } else if d < 0 {
      MulGrows(n, -d);
    }
  }

  /** Counting `k` steps round the cycle from `since` is `since + k` less some whole number of rounds. */
  lemma {:induction false} CountRoundRounds(since: int, k: nat, n: int) returns (q: int)
    requires 1 <= n && 0 <= since < n
    ensures 0 <= CountRound(since, k, n) < n
    ensures since + k == q * n + CountRound(since, k, n)
    decreases k
  {
    if k == 0 {
      q := 0;
    } else {
      var q0 := CountRoundRounds(since, k - 1, n);
      if CountRound(since, k - 1, n) + 1 == n {
        q := q0 + 1;
        assert q * n == q0 * n + n;
      } else {
        q := q0;
      }
    }
  }

  /** Counting round the cycle is addition modulo its length. */
  lemma CountRoundIsMod(since: int, k: nat, n: int)
    requires 1 <= n && 0 <= since < n
    ensures CountRound(since, k, n) == (since + k) % n
  {
    var q := CountRoundRounds(since, k, n);
    DivModUnique(since + k, n, q, CountRound(since, k, n));
  }

  /** A work period and the break after it, from a counter that is in range. */
  lemma PairStep(p: Cycle, n: int)
    requires p.mode == Work && 1 <= n && 0 <= p.cyclesSinceLong < n
    ensures Advance(Advance(p, n), n) ==
      Cycle(Work, if p.cyclesSinceLong + 1 == n then 0 else p.cyclesSinceLong + 1, p.completed + 1)
  {
  }

  /**
   * Starting in a work period whose counter is in range, every work period
   * followed by its break adds one to `completed` and moves `cyclesSinceLong`
   * one step round the cycle of length `cyclesToLong`.
   */
  lemma RunPairs(c: Cycle, k: nat, cyclesToLong: int)
    requires c.mode == Work && 1 <= cyclesToLong && 0 <= c.cyclesSinceLong < cyclesToLong
    ensures Run(c, 2 * k, cyclesToLong) ==
      Cycle(Work, (c.cyclesSinceLong + k) % cyclesToLong, c.completed + k)
  {
    RunPairsCounted(c, k, cyclesToLong);
    CountRoundIsMod(c.cyclesSinceLong, k, cyclesToLong);
  }

  /** `RunPairs` with the counter stepped round the cycle one work period at a time. */
  lemma {:induction false} RunPairsCounted(c: Cycle, k: nat, n: int)
    requires c.mode == Work && 1 <= n && 0 <= c.cyclesSinceLong < n
    ensures 0 <= CountRound(c.cyclesSinceLong, k, n) < n
    ensures Run(c, 2 * k, n) == Cycle(Work, CountRound(c.cyclesSinceLong, k, n), c.completed + k)
    decreases k
  {
    if k > 0 {
      var m := 2 * k - 2;
      RunPairsCounted(c, k - 1, n);
      RunLast(c, m, n);
      RunLast(c, m + 1, n);
      PairStep(Run(c, m, n), n);
      assert m + 1 + 1 == 2 * k;
    }
  }

  /**
   * The long-break cadence: the work period that brings the count since the
   * last long break up to a multiple of `cyclesToLong` is followed by a long
   * break, every other one by a short break, and the counter restarts at 0
   * exactly at the long break.
   */
  lemma LongBreakCadence(c: Cycle, k: nat, cyclesToLong: int)
    requires c.mode == Work && 1 <= cyclesToLong && 0 <= c.cyclesSinceLong < cyclesToLong
    ensures Run(c, 2 * k + 1, cyclesToLong).mode ==
      (if (c.cyclesSinceLong + k + 1) % cyclesToLong == 0 then LongBreak else Break)
    ensures Run(c, 2 * k + 1, cyclesToLong).cyclesSinceLong ==
      (c.cyclesSinceLong + k + 1) % cyclesToLong
    ensures Run(c, 2 * k + 1, cyclesToLong).completed == c.completed + k + 1
  {
    RunPairsCounted(c, k, cyclesToLong);
    RunLast(c, 2 * k, cyclesToLong);
    CountRoundIsMod(c.cyclesSinceLong, k + 1, cyclesToLong);
  }

  /**
   * With a long break after every third work period, a fresh timer goes
   * work, break, work, break, work, long break, and is back at work with the
   * counter at 0 and three periods completed.
   */
  lemma ThreeCycleSequence()
    ensures forall i | 0 <= i <= 6 ::
      (Run(Cycle(Work, 0, 0), i, 3).mode == [Work, Break, Work, Break, Work, LongBreak, Work][i])
    ensures Run(Cycle(Work, 0, 0), 5, 3).cyclesSinceLong == 0
    ensures Run(Cycle(Work, 0, 0), 6, 3) == Cycle(Work, 0, 3)
  {
    var c := Cycle(Work, 0, 0);
    assert Run(c, 0, 3) == c;
    LongBreakCadence(c, 0, 3);
    RunPairs(c, 1, 3);
    LongBreakCadence(c, 1, 3);
    RunPairs(c, 2, 3);
    LongBreakCadence(c, 2, 3);
    RunPairs(c, 3, 3);
  }

  /** With `cyclesToLong` at 1, every work period is followed by a long break. */
  lemma EveryWorkPeriodLong(c: Cycle, k: nat)
    requires c.mode == Work && c.cyclesSinceLong == 0
    ensures Run(c, 2 * k + 1, 1) == Cycle(LongBreak, 0, c.completed + k + 1)
  {
    LongBreakCadence(c, k, 1);
  }
}
