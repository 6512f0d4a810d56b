/** Whom the rate limiter does not delay: what idle time is worth, and which clients are never kept waiting. */
module Pace {
  import opened RateLimit

  /** The whole milliseconds from one clock reading to another, as far as the limiter counts. */
  function Millis(from: nat, to: nat): nat
  {
    if from <= to then Min((to - from) / TICKS, U32_MAX) else 0
  }

  /** The round is over when its request is served. */
  predicate Undelayed(cfg: Config, s: State, r: Round)
    requires cfg.rate >= 1
  {
    Step(cfg, s, r).clock == r.now
  }

  /**
   * One round: a request waits exactly when the points in the bucket and its own exceed the burst by
   * more than the points that the time since the last refill is worth; and then each point in excess
   * costs `rate` milliseconds, and no more.
   */
  lemma DelayedIff(cfg: Config, s: State, r: Round)
    requires cfg.rate >= 1 && Inv(cfg, s) && Possible(s, r)
    ensures var excess := s.used + r.points - cfg.burst - Millis(s.lastRound, r.now) / cfg.rate;
            && (Undelayed(cfg, s, r) <==> excess <= 0)
            && (excess > 0 ==> Step(cfg, s, r).clock == r.now + excess * cfg.rate * TICKS + r.late)
  {
    var credit := Millis(s.lastRound, r.now) / cfg.rate;
    var used := s.used + r.points;
    RefillIs(cfg, s, r);
    hide Refill, Millis, Elapsed;
    if used > cfg.burst && used - cfg.burst > credit {
      PositiveCost(used - credit - cfg.burst, cfg.rate);
    }
  }

  lemma RefillIs(cfg: Config, s: State, r: Round)
    requires cfg.rate >= 1 && Inv(cfg, s) && Possible(s, r)
    ensures var credit := Millis(s.lastRound, r.now) / cfg.rate;
            && credit >= 0 && Elapsed(s, r) == r.now - s.lastRound
            && Refill(cfg, s.used + r.points, Elapsed(s, r))
               == if credit < s.used + r.points then s.used + r.points - credit else 0
  {
  }

  /** A delay costs at most `rate` milliseconds for each point over the burst. */
  lemma DelayCost(cfg: Config, s: State, r: Round)
    requires cfg.rate >= 1 && Inv(cfg, s) && Possible(s, r)
    ensures !Undelayed(cfg, s, r) ==>
              var over := s.used + r.points - cfg.burst;
              over > 0 && Step(cfg, s, r).clock <= r.now + over * cfg.rate * TICKS + r.late
  {
    DelayedIff(cfg, s, r);
    var credit := Millis(s.lastRound, r.now) / cfg.rate;
    var over := s.used + r.points - cfg.burst;
    if !Undelayed(cfg, s, r) {
      MulMono(over - credit, over, cfg.rate);
    }
  }

  lemma CreditBounds(elapsed: nat, rate: nat)
    requires rate >= 1
    ensures var credit := elapsed / TICKS / rate;
            credit * (rate * TICKS) <= elapsed < (credit + 1) * (rate * TICKS)
  {
    var ms := elapsed / TICKS;
    var credit := ms / rate;
    DivideBelow(ms, rate);
    MulMono(credit * rate, ms, TICKS);
    MulMono(ms + 1, (credit + 1) * rate, TICKS);
    assert credit * rate * TICKS == credit * (rate * TICKS);
    assert (credit + 1) * rate * TICKS == (credit + 1) * (rate * TICKS);
  }

  /** Time that pays for some points is worth at least these points, as far as the limiter can count. */
  lemma CreditEnough(points: nat, rate: nat, elapsed: nat)
    requires rate >= 1 && points * rate <= U32_MAX && points * rate * TICKS <= elapsed
    ensures points <= Min(elapsed / TICKS, U32_MAX) / rate
  {
    assert points * rate <= elapsed / TICKS;
    DivideBound(points, rate, Min(elapsed / TICKS, U32_MAX));
  }

  /** Idle for as long as the whole burst costs, a client gets the whole burst again. */
  lemma IdleIsForgiven(cfg: Config, s: State, r: Round)
    requires cfg.rate >= 1 && cfg.burst * cfg.rate <= U32_MAX && Inv(cfg, s) && Possible(s, r) && r.points <= cfg.burst
    requires cfg.burst * cfg.rate * TICKS <= r.now - s.lastRound
    ensures Undelayed(cfg, s, r)
    ensures s.used + r.points > cfg.burst ==> Step(cfg, s, r).used <= r.points
  {
    CreditEnough(cfg.burst, cfg.rate, r.now - s.lastRound);
    DelayedIff(cfg, s, r);
  }

  // ---- whole runs

  predicate NeverDelayed(cfg: Config, s: State, rounds: seq<Round>)
    requires cfg.rate >= 1
    decreases rounds
  {
    rounds == [] || (Undelayed(cfg, s, rounds[0]) && NeverDelayed(cfg, Step(cfg, s, rounds[0]), rounds[1..]))
  }

  /** Every request comes at least as long after the one before as its own points cost. */
  predicate Paced(cfg: Config, clock: nat, rounds: seq<Round>)
    decreases rounds
  {
    rounds == []
    || (clock + rounds[0].points * cfg.rate * TICKS <= rounds[0].now && Paced(cfg, rounds[0].now, rounds[1..]))
  }

  /** A client that paces itself is never delayed. */
  lemma {:induction false} PacedIsNeverDelayed(cfg: Config, s: State, rounds: seq<Round>)
    requires Fits(cfg) && Inv(cfg, s) && PossibleRun(cfg, s, rounds) && Paced(cfg, s.clock, rounds)
    ensures NeverDelayed(cfg, s, rounds)
    decreases rounds
  {
    if rounds != [] {
      var r := rounds[0];
      MulMono(r.points, MAX_POINTS, cfg.rate);
      CreditEnough(r.points, cfg.rate, r.now - s.lastRound);
      DelayedIff(cfg, s, r);
      StepPays(cfg, s, r, s.lastRound);
      hide Step, Paid;
      PacedIsNeverDelayed(cfg, Step(cfg, s, r), rounds[1..]);
    }
  }

  function Points(rounds: seq<Round>): nat
  {
    if rounds == [] then 0 else Points(rounds[..|rounds| - 1]) + rounds[|rounds| - 1].points
  }

  /** The points that a span of time pays for. */
  function Earns(cfg: Config, from: nat, to: nat): nat
    requires cfg.rate >= 1
  {
    if from <= to then (to - from) / TICKS / cfg.rate else 0
  }

  /**
   * In every window the points of the requests, and `extra` more for each request after the first, are
   * at most the burst and what the length of the window pays for.
   */
  predicate Conforms(cfg: Config, rounds: seq<Round>, extra: nat)
    requires cfg.rate >= 1
  {
    forall i, j :: 0 <= i <= j < |rounds| ==>
      Points(rounds[i..j + 1]) + extra * (j - i) <= cfg.burst + Earns(cfg, rounds[i].now, rounds[j].now)
  }

  /** The limiter can count the time in which the fullest bucket empties. */
  predicate Roomy(cfg: Config)
  {
    cfg.rate >= 1 && (cfg.burst + MAX_POINTS) * cfg.rate <= U32_MAX
  }

  lemma ServerConfigIsRoomy()
    ensures Roomy(Config(125, 32))
  {
  }

  /** The ticks that a point costs. */
  function Cost(cfg: Config): nat
  {
    cfg.rate * TICKS
  }

  /**
   * The bucket after the rounds `done`, none delayed: its points were asked for by the rounds from `i`
   * on, with one point lost to rounding for each of them, less what the time since `from` has paid.
   */
  predicate Covered(cfg: Config, s: State, done: seq<Round>, i: nat, from: nat)
  {
    && i <= |done| && from <= s.lastRound && (i < |done| ==> from <= done[i].now)
    && s.used * Cost(cfg) + (s.lastRound - from) <= (Points(done[i..]) + (|done| - i)) * Cost(cfg)
  }

  /** One refill: what is left of the bucket, weighted by the cost of a point. */
  lemma RefillBelow(used: nat, points: nat, credit: nat, cost: nat, sofar: nat, asked: nat, elapsed: nat)
    requires used * cost + sofar <= asked * cost && elapsed < (credit + 1) * cost && credit <= used + points
    ensures (used + points - credit) * cost + sofar + elapsed < (asked + points + 1) * cost
  {
    Distribute(used + points, 0 - credit, cost);
    Distribute(used, points, cost);
    Distribute(asked + points, 1, cost);
    Distribute(asked, points, cost);
    Distribute(credit, 1, cost);
    assert (0 - credit) * cost == 0 - credit * cost;
  }

  lemma WithinBurst(left: nat, burst: nat, cost: nat, since: nat, window: nat, earned: nat, asked: nat)
    requires left * cost + since < (asked + 1) * cost && asked <= burst + earned
    requires earned * cost <= window <= since
    ensures left <= burst
  {
    if left > burst {
      MulMono(burst + 1, left, cost);
      MulMono(asked + 1, burst + earned + 1, cost);
      Distribute(burst + 1, earned, cost);
    }
  }

  lemma PointsSnoc(rounds: seq<Round>, r: Round)
    ensures Points(rounds + [r]) == Points(rounds) + r.points
  {
    assert (rounds + [r])[..|rounds|] == rounds;
  }

  lemma StepShape(cfg: Config, s: State, r: Round)
    requires cfg.rate >= 1 && Inv(cfg, s) && Possible(s, r)
    ensures var used, credit, t := s.used + r.points, Millis(s.lastRound, r.now) / cfg.rate, Step(cfg, s, r);
            && (used <= cfg.burst ==> t.used == used && t.lastRound == s.lastRound && t.clock == r.now)
            && (used > cfg.burst && used <= credit ==> t.used == 0 && t.lastRound == r.now && t.clock == r.now)
            && (used > cfg.burst && credit < used && used - credit <= cfg.burst ==>
                  t.used == used - credit && t.lastRound == r.now && t.clock == r.now)
  {
  }

  /** A request that the bucket holds adds its points. */
  lemma AddedIsCovered(cfg: Config, used: nat, points: nat, sofar: nat, asked: nat)
    requires used * Cost(cfg) + sofar <= asked * Cost(cfg)
    ensures (used + points) * Cost(cfg) + sofar <= (asked + points + 1) * Cost(cfg)
  {
    var cost := Cost(cfg);
    Distribute(used, points, cost);
    Distribute(asked + points, 1, cost);
    Distribute(asked, points, cost);
  }

  lemma EarnsBelow(cfg: Config, from: nat, to: nat)
    requires cfg.rate >= 1 && from <= to
    ensures Earns(cfg, from, to) * Cost(cfg) <= to - from
  {
    CreditBounds(to - from, cfg.rate);
  }

  /** The next request, within its windows, is not delayed and leaves the bucket covered. */
  lemma NextIsCovered(cfg: Config, s: State, done: seq<Round>, r: Round, i: nat, from: nat) returns (i': nat, from': nat)
    requires Roomy(cfg) && Inv(cfg, s) && Possible(s, r) && Covered(cfg, s, done, i, from)
    requires i < |done| ==> done[i].now <= r.now
    requires Points(done[i..] + [r]) + (|done| - i) <=
               cfg.burst + (if i < |done| then Earns(cfg, done[i].now, r.now) else 0)
    ensures Undelayed(cfg, s, r)
    ensures Covered(cfg, Step(cfg, s, r), done + [r], i', from')
  {
    var used, elapsed, asked := s.used + r.points, r.now - s.lastRound, Points(done[i..]) + (|done| - i);
    i', from' := i, from;
    assert (done + [r])[i..] == done[i..] + [r];
    PointsSnoc(done[i..], r);
    StepShape(cfg, s, r);
    hide Points, Step, Millis, Earns;
    if used <= cfg.burst {
      AddedIsCovered(cfg, s.used, r.points, s.lastRound - from, asked);
    } else if used <= Millis(s.lastRound, r.now) / cfg.rate {
      i', from' := |done| + 1, r.now;
      assert (done + [r])[i'..] == [];
    } else {
      var credit := NotCapped(cfg, s, r);
      hide Inv, Possible, Cost;
      RefillBelow(s.used, r.points, credit, Cost(cfg), s.lastRound - from, asked, elapsed);
      var earned := if i < |done| then Earns(cfg, done[i].now, r.now) else 0;
      EarnedBelow(cfg, if i < |done| then done[i].now else r.now, r.now, earned);
      WithinBurst(used - credit, cfg.burst, Cost(cfg), r.now - from, if i < |done| then r.now - done[i].now else 0, earned,
                  asked + r.points);
    }
  }

  lemma EarnedBelow(cfg: Config, from: nat, to: nat, earned: nat)
    requires cfg.rate >= 1 && from <= to && (earned == 0 || earned == Earns(cfg, from, to))
    ensures earned * Cost(cfg) <= to - from
  {
    EarnsBelow(cfg, from, to);
    if earned == 0 { assert 0 * Cost(cfg) == 0; }
  }

  /** A bucket that a refill does not empty was not refilled by more than the limiter can count. */
  lemma NotCapped(cfg: Config, s: State, r: Round) returns (credit: nat)
    requires Roomy(cfg) && Inv(cfg, s) && Possible(s, r) && Millis(s.lastRound, r.now) / cfg.rate < s.used + r.points
    ensures credit == Millis(s.lastRound, r.now) / cfg.rate && credit < s.used + r.points
    ensures r.now - s.lastRound < (credit + 1) * Cost(cfg)
  {
    credit := Millis(s.lastRound, r.now) / cfg.rate;
    LongIsPlenty(cfg);
    CountedInFull(r.now - s.lastRound, cfg.rate, cfg.burst + MAX_POINTS);
  }

  lemma LongIsPlenty(cfg: Config)
    requires Roomy(cfg)
    ensures cfg.burst + MAX_POINTS <= U32_MAX / cfg.rate
  {
    DivideBound(cfg.burst + MAX_POINTS, cfg.rate, U32_MAX);
  }

  lemma CountedInFull(elapsed: nat, rate: nat, enough: nat)
    requires rate >= 1 && enough <= U32_MAX / rate && Min(elapsed / TICKS, U32_MAX) / rate < enough
    ensures elapsed < (Min(elapsed / TICKS, U32_MAX) / rate + 1) * (rate * TICKS)
  {
    NothingCut(elapsed / TICKS, rate, enough);
    CreditBounds(elapsed, rate);
  }

  lemma NothingCut(ms: nat, rate: nat, enough: nat)
    requires rate >= 1 && enough <= U32_MAX / rate
    ensures Min(ms, U32_MAX) / rate < enough ==> Min(ms, U32_MAX) == ms
  {
  }

  lemma {:induction false} CoveredRun(cfg: Config, s: State, done: seq<Round>, rest: seq<Round>, i: nat, from: nat)
    requires Roomy(cfg) && Inv(cfg, s) && PossibleRun(cfg, s, rest) && Covered(cfg, s, done, i, from)
    requires Conforms(cfg, done + rest, 1) && forall k :: 0 <= k < |done| ==> done[k].now <= s.clock
    ensures NeverDelayed(cfg, s, rest)
    decreases rest
  {
    if rest != [] {
      var r, all := rest[0], done + rest;
      WindowOfNext(cfg, done, rest, i);
      var i', from' := NextIsCovered(cfg, s, done, r, i, from);
      StepPays(cfg, s, r, s.lastRound);
      assert done + [r] + rest[1..] == all;
      hide Step, Covered, Conforms, Paid, Points, Earns;
      CoveredRun(cfg, Step(cfg, s, r), done + [r], rest[1..], i', from');
    }
  }

  lemma WindowOfNext(cfg: Config, done: seq<Round>, rest: seq<Round>, i: nat)
    requires cfg.rate >= 1 && rest != [] && i <= |done| && Conforms(cfg, done + rest, 1)
    ensures Points(done[i..] + [rest[0]]) + (|done| - i) <=
              cfg.burst + (if i < |done| then Earns(cfg, done[i].now, rest[0].now) else 0)
  {
    var all := done + rest;
    assert all[i..|done| + 1] == done[i..] + [rest[0]];
    hide Points;
    assert Points(all[i..|done| + 1]) + 1 * (|done| - i) <= cfg.burst + Earns(cfg, all[i].now, all[|done|].now);
  }

  /**
   * A client whose points in every window, with one more for each request after the first, stay within
   * the burst and what the window pays for is never delayed.
   */
  lemma ConformingIsNeverDelayed(cfg: Config, t0: nat, rounds: seq<Round>)
    requires Roomy(cfg) && PossibleRun(cfg, Start(t0), rounds) && Conforms(cfg, rounds, 1)
    ensures NeverDelayed(cfg, Start(t0), rounds)
  {
    assert [] + rounds == rounds;
    CoveredRun(cfg, Start(t0), [], rounds, 0, t0);
  }

  /** Without the extra point it may be delayed: every refill rounds down, and forgets the remainder. */
  lemma RefillRoundsDown()
    ensures var cfg, ms := Config(125, 32), TICKS;
            var rounds := [Round(31, 0, 0), Round(1, 100 * ms, 0), Round(1, 200 * ms, 0), Round(1, 250 * ms, 0)];
            Conforms(cfg, rounds, 0) && !NeverDelayed(cfg, Start(0), rounds)
  {
    var cfg, ms := Config(125, 32), TICKS;
    var a, b, c, d := Round(31, 0, 0), Round(1, 100 * ms, 0), Round(1, 200 * ms, 0), Round(1, 250 * ms, 0);
    var rounds := [a, b, c, d];
    var s1 := Step(cfg, Start(0), a);
    var s2 := Step(cfg, s1, b);
    var s3 := Step(cfg, s2, c);
    assert s3 == State(32, 200 * ms, 33, 200 * ms);
    assert !Undelayed(cfg, s3, d);
    assert !NeverDelayed(cfg, s3, [d]);
    assert [c, d][1..] == [d] && !NeverDelayed(cfg, s2, [c, d]);
    assert [b, c, d][1..] == [c, d] && !NeverDelayed(cfg, s1, [b, c, d]);
    assert rounds[1..] == [b, c, d];
    FourWindows(cfg, a, b, c, d);
  }

  lemma FourWindows(cfg: Config, a: Round, b: Round, c: Round, d: Round)
    requires cfg.rate >= 1
    requires a.points <= cfg.burst && b.points <= cfg.burst && c.points <= cfg.burst && d.points <= cfg.burst
    requires a.points + b.points <= cfg.burst && b.points + c.points <= cfg.burst && c.points + d.points <= cfg.burst
    requires a.points + b.points + c.points <= cfg.burst + Earns(cfg, a.now, c.now)
    requires b.points + c.points + d.points <= cfg.burst
    requires a.points + b.points + c.points + d.points <= cfg.burst + Earns(cfg, a.now, d.now)
    ensures Conforms(cfg, [a, b, c, d], 0)
  {
    var rounds := [a, b, c, d];
    hide Earns;
    forall i, j | 0 <= i <= j < 4
      ensures Points(rounds[i..j + 1]) + 0 * (j - i) <= cfg.burst + Earns(cfg, rounds[i].now, rounds[j].now)
    {
      PointsOf(rounds, i, j);
      if i < j { PointsOf(rounds, i, j - 1); }
      if i + 1 < j { PointsOf(rounds, i, j - 2); }
      if i + 2 < j { PointsOf(rounds, i, j - 3); }
      hide Points;
    }
  }

  lemma {:induction false} PointsOf(rounds: seq<Round>, i: nat, j: nat)
    requires i <= j < |rounds|
    ensures Points(rounds[i..j + 1]) == (if i < j then Points(rounds[i..j]) else 0) + rounds[j].points
  {
    assert rounds[i..j + 1] == rounds[i..j] + [rounds[j]];
    PointsSnoc(rounds[i..j], rounds[j]);
  }
}
