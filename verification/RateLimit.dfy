/** The rate limiter of src/net.rs: 32-bit arithmetic and the throughput it allows over whole runs. */
module RateLimit {

  const U32_MAX := 0xFFFF_FFFF

  /** Clock ticks per millisecond: the clock is finer than the milliseconds the limiter counts. */
  const TICKS := 1_000_000

  /** The largest number of points a request returns. */
  const MAX_POINTS := 999_999

  datatype Config = Config(rate: nat, burst: nat)

  /** No operation of the loop can overflow under this configuration; the server uses 125 and 32. */
  predicate Fits(cfg: Config)
  {
    cfg.rate >= 1 && cfg.burst + MAX_POINTS <= U32_MAX && MAX_POINTS * cfg.rate <= U32_MAX
  }

  lemma ServerConfigFits()
    ensures Fits(Config(125, 32))
  {
  }

  /** One round: the points of a request, the clock when it was served, and the delay overshoot. */
  datatype Round = Round(points: nat, now: nat, late: nat)

  /** The limiter's variables, the points served since the start, and the clock after the last round. */
  datatype State = State(used: nat, lastRound: nat, served: nat, clock: nat)

  function Min(a: nat, b: nat): nat { if a < b then a else b }

  function Refill(cfg: Config, used: nat, elapsed: nat): nat
    requires cfg.rate >= 1
  {
    var credit := Min(elapsed / TICKS, U32_MAX) / cfg.rate;
    if credit < used then used - credit else 0
  }

  /** `Instant::elapsed` since the last round. */
  function Elapsed(s: State, r: Round): nat
  {
    if s.lastRound <= r.now then r.now - s.lastRound else 0
  }

  /** A round that the clock allows: it goes on from the last one, and points are in range. */
  predicate Possible(s: State, r: Round)
  {
    r.points <= MAX_POINTS && s.clock <= r.now
  }

  /** How long the limiter waits for points over the burst, in ticks. */
  function Delay(cfg: Config, over: nat): nat
  {
    over * cfg.rate * TICKS
  }

  /** The state after a round; `late` is how much longer than asked the delay took. */
  function Step(cfg: Config, s: State, r: Round): State
    requires cfg.rate >= 1
  {
    var used := s.used + r.points;
    if used <= cfg.burst then State(used, s.lastRound, s.served + r.points, r.now)
    else
      var elapsed := Elapsed(s, r);
      var left := Refill(cfg, used, elapsed);
      if left <= cfg.burst then State(left, s.lastRound + elapsed, s.served + r.points, r.now)
      else
        var wait := Delay(cfg, left - cfg.burst);
        State(cfg.burst, s.lastRound + elapsed + wait, s.served + r.points, s.lastRound + elapsed + wait + r.late)
  }

  function Start(t: nat): State
  {
    State(0, t, 0, t)
  }

  function Run(cfg: Config, s: State, rounds: seq<Round>): State
    requires cfg.rate >= 1
    decreases rounds
  {
    if rounds == [] then s else Run(cfg, Step(cfg, s, rounds[0]), rounds[1..])
  }

  predicate PossibleRun(cfg: Config, s: State, rounds: seq<Round>)
    requires cfg.rate >= 1
    decreases rounds
  {
    rounds == [] || (Possible(s, rounds[0]) && PossibleRun(cfg, Step(cfg, s, rounds[0]), rounds[1..]))
  }

  /** What every round keeps: the bucket is within the burst and the limiter's clock is not ahead. */
  predicate Inv(cfg: Config, s: State)
  {
    s.used <= cfg.burst && s.lastRound <= s.clock
  }

  // ---- arithmetic

  lemma MulMono(a: int, b: int, c: nat)
    requires a <= b
    ensures a * c <= b * c
  {
  }

  lemma PositiveCost(excess: nat, rate: nat)
    requires excess >= 1 && rate >= 1
    ensures excess * rate >= 1
  {
  }

  lemma Distribute(a: int, b: int, c: nat)
    ensures (a + b) * c == a * c + b * c
  {
  }

  lemma DivideBelow(n: nat, c: nat)
    requires c >= 1
    ensures n / c * c <= n < (n / c + 1) * c
  {
  }

  lemma DivideBound(points: int, rate: nat, ms: nat)
    requires rate >= 1 && points * rate <= ms
    ensures points <= ms / rate
  {
    DivideBelow(ms, rate);
    if points > ms / rate { MulMono(ms / rate + 1, points, rate); }
  }

  lemma DivMono(a: nat, b: nat, c: nat)
    requires a <= b && c >= 1
    ensures a / c <= b / c
  {
    DivideBelow(a, c);
    DivideBound(a / c, c, b);
  }

  /** Whole milliseconds of two spans never exceed those of their sum; a wait is whole milliseconds. */
  lemma MillisAdd(base: nat, elapsed: nat, paid: nat, waited: nat)
    requires paid <= elapsed / TICKS
    ensures base / TICKS + paid + waited <= (base + elapsed + waited * TICKS) / TICKS
  {
  }

  // ---- one round

  lemma RefillPays(cfg: Config, used: nat, elapsed: nat)
    requires cfg.rate >= 1
    ensures Refill(cfg, used, elapsed) <= used
    ensures 0 <= (used - Refill(cfg, used, elapsed)) * cfg.rate <= elapsed / TICKS
  {
  }

  /** No 32-bit operation of the round overflows. */
  lemma NoOverflow(cfg: Config, s: State, r: Round)
    requires Fits(cfg) && Inv(cfg, s) && Possible(s, r)
    ensures s.used + r.points <= U32_MAX
    ensures var left := Refill(cfg, s.used + r.points, Elapsed(s, r));
            left > cfg.burst ==> (left - cfg.burst) * cfg.rate <= U32_MAX
  {
    var left := Refill(cfg, s.used + r.points, Elapsed(s, r));
    assert left <= s.used + r.points by { RefillPays(cfg, s.used + r.points, Elapsed(s, r)); }
    if left > cfg.burst {
      MulMono(left - cfg.burst, MAX_POINTS, cfg.rate);
    }
  }

  /** Points served and not in the bucket, weighted by the rate, are paid for by the limiter's clock. */
  predicate Paid(cfg: Config, s: State, s': State, t0: nat)
    requires t0 <= s.lastRound && t0 <= s'.lastRound
  {
    ((s'.served - s'.used) - (s.served - s.used)) * cfg.rate + (s.lastRound - t0) / TICKS <= (s'.lastRound - t0) / TICKS
  }

  lemma StepPays(cfg: Config, s: State, r: Round, t0: nat)
    requires cfg.rate >= 1 && Inv(cfg, s) && Possible(s, r) && t0 <= s.lastRound
    ensures var s' := Step(cfg, s, r);
            && Inv(cfg, s') && s.lastRound <= s'.lastRound && s.clock <= s'.clock && s'.served == s.served + r.points
            && Paid(cfg, s, s', t0)
  {
    var used, elapsed := s.used + r.points, Elapsed(s, r);
    var s' := Step(cfg, s, r);
    if used > cfg.burst {
      var left := Refill(cfg, used, elapsed);
      RefillPays(cfg, used, elapsed);
      var paid := (used - left) * cfg.rate;
      if left > cfg.burst {
        var waited := (left - cfg.burst) * cfg.rate;
        MulMono(0, left - cfg.burst, cfg.rate);
        Distribute(used - left, left - cfg.burst, cfg.rate);
        MillisAdd(s.lastRound - t0, elapsed, paid, waited);
        assert (s'.served - s'.used) - (s.served - s.used) == (used - left) + (left - cfg.burst);
      } else {
        MillisAdd(s.lastRound - t0, elapsed, paid, 0);
        assert (s'.served - s'.used) - (s.served - s.used) == used - left;
      }
    }
  }

  // ---- whole runs

  lemma PaidTwice(cfg: Config, s: State, mid: State, s': State, t0: nat)
    requires t0 <= s.lastRound && t0 <= mid.lastRound && t0 <= s'.lastRound
    requires Paid(cfg, s, mid, t0) && Paid(cfg, mid, s', t0)
    ensures Paid(cfg, s, s', t0)
  {
  }

  /** Over any run: points served are covered by the bucket and the time the limiter has counted. */
  lemma {:induction false} RunPays(cfg: Config, s: State, rounds: seq<Round>, t0: nat)
    requires cfg.rate >= 1 && Inv(cfg, s) && PossibleRun(cfg, s, rounds) && t0 <= s.lastRound
    ensures var s' := Run(cfg, s, rounds);
            && Inv(cfg, s') && s.lastRound <= s'.lastRound && s.clock <= s'.clock && s.served <= s'.served
            && Paid(cfg, s, s', t0)
    decreases rounds
  {
    hide Paid, Step;
    if rounds != [] {
      var mid := Step(cfg, s, rounds[0]);
      StepPays(cfg, s, rounds[0], t0);
      RunPays(cfg, mid, rounds[1..], t0);
      PaidTwice(cfg, s, mid, Run(cfg, mid, rounds[1..]), t0);
    } else {
      PaidNothing(cfg, s, t0);
    }
  }

  lemma PaidNothing(cfg: Config, s: State, t0: nat)
    requires t0 <= s.lastRound
    ensures Paid(cfg, s, s, t0)
  {
  }

  /** Throughput since the start: at most the burst and one point per `rate` milliseconds elapsed. */
  lemma ThroughputBound(cfg: Config, t0: nat, rounds: seq<Round>)
    requires cfg.rate >= 1 && PossibleRun(cfg, Start(t0), rounds)
    ensures var s := Run(cfg, Start(t0), rounds);
            && s.used <= cfg.burst
            && t0 <= s.clock
            && s.served <= cfg.burst + (s.clock - t0) / TICKS / cfg.rate
  {
    RunPays(cfg, Start(t0), rounds, t0);
    var s := Run(cfg, Start(t0), rounds);
    var ms := (s.clock - t0) / TICKS;
    assert (s.served - s.used) * cfg.rate <= ms;
    DivideBound(s.served - s.used, cfg.rate, ms);
  }

  /** The largest request of a run. */
  function Largest(rounds: seq<Round>): nat
  {
    if rounds == [] then 0
    else if Largest(rounds[1..]) < rounds[0].points then rounds[0].points else Largest(rounds[1..])
  }

  /**
   * Throughput in any window between two rounds, starting from any reachable state: idle time before
   * the window is worth at most one more burst and one request.
   */
  lemma {:induction false} WindowBound(cfg: Config, s: State, rounds: seq<Round>)
    requires cfg.rate >= 1 && Inv(cfg, s) && PossibleRun(cfg, s, rounds)
    ensures var s' := Run(cfg, s, rounds);
            && s.clock <= s'.clock
            && s'.served - s.served + s.used <=
               2 * cfg.burst + Largest(rounds) + (s'.clock - s.clock) / TICKS / cfg.rate
    decreases rounds
  {
    if rounds != [] {
      var r := rounds[0];
      var mid := Step(cfg, s, r);
      StepPays(cfg, s, r, s.lastRound);
      var s' := Run(cfg, mid, rounds[1..]);
      if s.used + r.points <= cfg.burst {
        WindowBound(cfg, mid, rounds[1..]);
        assert (s'.clock - mid.clock) / TICKS <= (s'.clock - s.clock) / TICKS;
        DivMono((s'.clock - mid.clock) / TICKS, (s'.clock - s.clock) / TICKS, cfg.rate);
      } else {
        AfterRefill(cfg, s, r, rounds[1..]);
      }
    }
  }

  /** From the first refill on, the limiter's clock has caught up with the window. */
  lemma AfterRefill(cfg: Config, s: State, r: Round, rest: seq<Round>)
    requires cfg.rate >= 1 && Inv(cfg, s) && Possible(s, r) && s.used + r.points > cfg.burst
    requires PossibleRun(cfg, Step(cfg, s, r), rest)
    ensures var s' := Run(cfg, Step(cfg, s, r), rest);
            && s.clock <= s'.clock
            && s'.served - s.served + s.used <= 2 * cfg.burst + r.points + (s'.clock - s.clock) / TICKS / cfg.rate
  {
    hide Paid, Run;
    var mid := Step(cfg, s, r);
    StepPays(cfg, s, r, s.lastRound);
    RefillCatchesUp(cfg, s, r);
    hide Step;
    RunPays(cfg, mid, rest, mid.lastRound);
    var s' := Run(cfg, mid, rest);
    PaidBound(cfg, mid, s');
    WindowMillis(s'.lastRound - mid.lastRound, s'.clock - s.clock, cfg.rate);
  }

  lemma RefillCatchesUp(cfg: Config, s: State, r: Round)
    requires cfg.rate >= 1 && Inv(cfg, s) && Possible(s, r) && s.used + r.points > cfg.burst
    ensures s.clock <= Step(cfg, s, r).lastRound
  {
    var left := Refill(cfg, s.used + r.points, Elapsed(s, r));
    if left > cfg.burst { MulMono(0, left - cfg.burst, cfg.rate); }
  }

  lemma PaidBound(cfg: Config, s: State, s': State)
    requires cfg.rate >= 1 && s.lastRound <= s'.lastRound && Paid(cfg, s, s', s.lastRound)
    ensures (s'.served - s'.used) - (s.served - s.used) <= (s'.lastRound - s.lastRound) / TICKS / cfg.rate
  {
    DivideBound((s'.served - s'.used) - (s.served - s.used), cfg.rate, (s'.lastRound - s.lastRound) / TICKS);
  }

  lemma WindowMillis(inner: nat, outer: nat, rate: nat)
    requires inner <= outer && rate >= 1
    ensures inner / TICKS / rate <= outer / TICKS / rate
  {
    DivMono(inner / TICKS, outer / TICKS, rate);
  }

  /** The loop body of the macro on 32-bit numbers. */
  newtype u32 = x: int | 0 <= x <= 0xFFFF_FFFF

  class Limiter {
    const rate: u32
    const burst: u32
    var usedPoints: u32
    var lastRound: nat

    ghost var served: nat
    ghost var clock: nat

    ghost function Cfg(): Config { Config(rate as int, burst as int) }

    ghost function View(): State
      reads this
    {
      State(usedPoints as int, lastRound, served, clock)
    }

    constructor (rate: u32, burst: u32, now: nat)
      ensures this.rate == rate && this.burst == burst && View() == Start(now)
    {
      this.rate, this.burst := rate, burst;
      usedPoints, lastRound, served, clock := 0, now, 0, now;
    }

    /** The points earned back in a span, its milliseconds capped at 32 bits. */
    method Credit(elapsed: nat) returns (credit: u32)
      requires rate >= 1
      ensures credit as int == Min(elapsed / TICKS, U32_MAX) / rate as int
    {
      var millis: u32 := if U32_MAX < elapsed / TICKS then U32_MAX as u32 else (elapsed / TICKS) as u32;
      credit := millis / rate;
    }

    /** One iteration; `wait` is the delay in milliseconds. */
    method Turn(points: u32, now: nat, ghost late: nat) returns (wait: u32)
      requires Fits(Cfg()) && Inv(Cfg(), View()) && Possible(View(), Round(points as int, now, late))
      modifies this
      ensures View() == Step(Cfg(), old(View()), Round(points as int, now, late))
      ensures Inv(Cfg(), View())
      ensures View().clock == if wait == 0 then now else now + wait as int * TICKS + late
    {
      ghost var r := Round(points as int, now, late);
      NoOverflow(Cfg(), View(), r);
      StepPays(Cfg(), View(), r, lastRound);
      hide Paid, Refill;
      wait := 0;
      ghost var s := View();
      usedPoints := usedPoints + points;
      served, clock := served + points as int, now;
      if burst < usedPoints {
        var elapsed := if lastRound <= now then now - lastRound else 0;
        usedPoints := Earned(elapsed);
        assert usedPoints as int == Refill(Cfg(), s.used + r.points, Elapsed(s, r));
        lastRound := lastRound + elapsed;
        if burst < usedPoints {
          wait := WaitFor(usedPoints - burst);
          PositiveCost((usedPoints - burst) as int, rate as int);
          usedPoints := burst;
          lastRound := lastRound + wait as int * TICKS;
          clock := lastRound + late;
        }
      }
    }

    /** The bucket after a span, emptied no further than zero. */
    method Earned(elapsed: nat) returns (left: u32)
      requires rate >= 1
      ensures left as int == Refill(Cfg(), usedPoints as int, elapsed)
    {
      var credit := Credit(elapsed);
      left := if credit < usedPoints then usedPoints - credit else 0;
    }

    method WaitFor(excess: u32) returns (wait: u32)
      requires excess as int * rate as int <= U32_MAX
      ensures wait as int == excess as int * rate as int
    {
      wait := excess * rate;
    }
  }
}
