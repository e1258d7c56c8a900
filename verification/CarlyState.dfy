/** Carly's persistent row and its time-based decay
    (apps/preferences/models.py, apps/preferences/rewards.py). */
module Carly {
  import opened DivMod
  import opened Options

  datatype Mood = Happy | Curious | Tired | Hungry

  datatype Food = Fish | Berry | Cookie | Potion

  /** Times are in microseconds, days are day numbers. */
  datatype State = State(
    level: nat, experience: nat, credits: nat, inventory: map<Food, nat>,
    affection: nat, energy: nat, satiety: nat, streak: nat, mood: Mood, sleeping: bool,
    lastProductiveDay: Option<int>,
    lastAffectionDecay: int, lastEnergyDecay: int, lastSatietyDecay: int,
    auraUntil: Option<int>, moonUntil: Option<int>, cookieUntil: Option<int>,
    berryUntil: Option<int>, berryCharges: nat, version: nat)

  const SECOND: int := 1_000_000
  const MINUTE: int := 60 * SECOND
  const AFFECTION_INTERVAL: int := 360 * MINUTE
  const SATIETY_INTERVAL: int := 45 * MINUTE

  function EnergyInterval(sleeping: bool): (interval: int)
    ensures interval > 0
  {
    if sleeping then 60 * MINUTE else 30 * MINUTE
  }

  function Min(x: int, y: int): int { if x < y then x else y }

  function Max(x: int, y: int): int { if x < y then y else x }

  function MoodFor(satiety: nat, energy: nat, sleeping: bool, affection: nat): Mood {
    if satiety < 30 then Hungry
    else if energy < 25 || sleeping then Tired
    else if affection >= 70 then Happy
    else Curious
  }

  function MoodOf(c: State): Mood {
    MoodFor(c.satiety, c.energy, c.sleeping, c.affection)
  }

  /** The state of a freshly created row. */
  function Fresh(now: int): State {
    State(1, 0, 40, map[Fish := 1, Berry := 0, Cookie := 0, Potion := 0],
          50, 80, 70, 0, Curious, false, None, now, now, now, None, None, None, None, 0, 1)
  }

  // ---------- Decay ----------

  /** Whole intervals since the last decay; a clock that ran back counts none. */
  function WholeSteps(now: int, previous: int, interval: int): nat
    requires interval > 0
  {
    Max(0, now - previous) / interval
  }

  /** One decaying need: its value and the time it has been settled up to. */
  datatype Gauge = Gauge(value: nat, settled: int)

  function Shifted(value: nat, steps: nat, rising: bool): nat {
    if rising then Min(100, value + steps) else Max(0, value - steps)
  }

  function Settle(g: Gauge, now: int, interval: int, rising: bool): Gauge
    requires interval > 0
  {
    var steps := WholeSteps(now, g.settled, interval);
    if steps == 0 then g else Gauge(Shifted(g.value, steps, rising), g.settled + interval * steps)
  }

  function AffectionGauge(c: State): Gauge { Gauge(c.affection, c.lastAffectionDecay) }
  function SatietyGauge(c: State): Gauge { Gauge(c.satiety, c.lastSatietyDecay) }
  function EnergyGauge(c: State): Gauge { Gauge(c.energy, c.lastEnergyDecay) }

  function WithGauges(c: State, affection: Gauge, satiety: Gauge, energy: Gauge): State {
    c.(affection := affection.value, lastAffectionDecay := affection.settled,
       satiety := satiety.value, lastSatietyDecay := satiety.settled,
       energy := energy.value, lastEnergyDecay := energy.settled)
  }

  predicate DecayDue(c: State, now: int) {
    || WholeSteps(now, c.lastAffectionDecay, AFFECTION_INTERVAL) > 0
    || WholeSteps(now, c.lastSatietyDecay, SATIETY_INTERVAL) > 0
    || WholeSteps(now, c.lastEnergyDecay, EnergyInterval(c.sleeping)) > 0
  }

  function SettledNeeds(c: State, now: int): State {
    WithGauges(c,
               Settle(AffectionGauge(c), now, AFFECTION_INTERVAL, false),
               Settle(SatietyGauge(c), now, SATIETY_INTERVAL, false),
               Settle(EnergyGauge(c), now, EnergyInterval(c.sleeping), c.sleeping))
  }

  /** apply_carly_decay */
  function Decay(c: State, now: int): State {
    if DecayDue(c, now) then
      var d := SettledNeeds(c, now);
      d.(mood := MoodOf(d), version := c.version + 1)
    else c
  }

  // ---------- Reading often or reading once ----------

  ghost predicate SameButVersion(c: State, d: State) {
    c.(version := 0) == d.(version := 0)
  }

  /** Reading at t1 and then at t2 counts as many steps as reading once at the
      later of the two. */
  lemma StepsSplit(t1: int, t2: int, previous: int, interval: int)
    requires interval > 0
    ensures var first := WholeSteps(t1, previous, interval);
            first + WholeSteps(t2, previous + interval * first, interval)
            == WholeSteps(Max(t1, t2), previous, interval)
  {
    var y := Max(0, t1 - previous);
    var q := y / interval;
    DivShift(y, interval, q);
    assert y == interval * q + y % interval;
    if t2 - previous - interval * q <= 0 {
      assert 0 / interval == 0;
      if t1 < t2 {
        DivMonotone(y, Max(0, t2 - previous), interval);
        DivMonotone(Max(0, t2 - previous), interval * q, interval);
        DivModOf(interval * q, interval, q, 0);
      }
    } else {
      DivShift(t2 - previous, interval, q);
      if t2 <= t1 {
        DivMonotone(t2 - previous - interval * q, y % interval, interval);
        DivModOf(y % interval, interval, 0, y % interval);
      }
    }
  }

  lemma SettleTwice(g: Gauge, t1: int, t2: int, interval: int, rising: bool)
    requires interval > 0
    ensures Settle(Settle(g, t1, interval, rising), t2, interval, rising) == Settle(g, Max(t1, t2), interval, rising)
  {
    var first := WholeSteps(t1, g.settled, interval);
    var second := WholeSteps(t2, g.settled + interval * first, interval);
    StepsSplit(t1, t2, g.settled, interval);
    assert interval * (first + second) == interval * first + interval * second;
    hide WholeSteps;
  }

  lemma DecayTwice(c: State, t1: int, t2: int)
    ensures SameButVersion(Decay(Decay(c, t1), t2), Decay(c, Max(t1, t2)))
  {
    SettleTwice(AffectionGauge(c), t1, t2, AFFECTION_INTERVAL, false);
    SettleTwice(SatietyGauge(c), t1, t2, SATIETY_INTERVAL, false);
    SettleTwice(EnergyGauge(c), t1, t2, EnergyInterval(c.sleeping), c.sleeping);
    StepsSplit(t1, t2, c.lastAffectionDecay, AFFECTION_INTERVAL);
    StepsSplit(t1, t2, c.lastSatietyDecay, SATIETY_INTERVAL);
    StepsSplit(t1, t2, c.lastEnergyDecay, EnergyInterval(c.sleeping));
    hide WholeSteps, Max, Shifted, MoodOf;
  }

  lemma DecaySame(c: State, d: State, now: int)
    requires SameButVersion(c, d)
    ensures SameButVersion(Decay(c, now), Decay(d, now))
  {
    hide WholeSteps, Shifted;
  }

  function Reads(c: State, times: seq<int>): State {
    if times == [] then c else Decay(Reads(c, times[..|times| - 1]), times[|times| - 1])
  }

  function Latest(times: seq<int>): int
    requires times != []
  {
    if |times| == 1 then times[0] else Max(Latest(times[..|times| - 1]), times[|times| - 1])
  }

  /** Lazy decay is insensitive to when it is read: any list of reads, in any
      order, leaves the same row as a single read at the latest time, up to the
      version counter. */
  lemma {:induction false} ReadsEqualLatestRead(c: State, times: seq<int>)
    requires times != []
    ensures SameButVersion(Reads(c, times), Decay(c, Latest(times)))
  {
    var n := |times| - 1;
    if n == 0 {
      assert Reads(c, times[..0]) == c;
    } else {
      hide Decay;
      ReadsEqualLatestRead(c, times[..n]);
      DecaySame(Reads(c, times[..n]), Decay(c, Latest(times[..n])), times[n]);
      DecayTwice(c, Latest(times[..n]), times[n]);
    }
  }

  // ---------- Tick by tick ----------

  function Tick(value: nat, rising: bool): nat {
    if rising then Min(100, value + 1) else Max(0, value - 1)
  }

  /** A background timer that would fire once per interval. */
  function Simulate(g: Gauge, now: int, interval: int, rising: bool): Gauge
    requires interval > 0
    decreases now - g.settled
  {
    if now - g.settled < interval then g
    else Simulate(Gauge(Tick(g.value, rising), g.settled + interval), now, interval, rising)
  }

  lemma {:induction false} SettleIsSimulation(g: Gauge, now: int, interval: int, rising: bool)
    requires interval > 0
    ensures Settle(g, now, interval, rising) == Simulate(g, now, interval, rising)
    decreases now - g.settled
  {
    var elapsed := Max(0, now - g.settled);
    if now - g.settled < interval {
      DivModOf(elapsed, interval, 0, elapsed);
    } else {
      hide WholeSteps;
      var next := Gauge(Tick(g.value, rising), g.settled + interval);
      SettleIsSimulation(next, now, interval, rising);
      OneStepLess(g.settled, now, interval);
      var rest := WholeSteps(now, next.settled, interval);
      assert interval * (rest + 1) == interval * rest + interval;
    }
  }

  lemma OneStepLess(settled: int, now: int, interval: int)
    requires interval > 0 && now - settled >= interval
    ensures WholeSteps(now, settled, interval) == WholeSteps(now, settled + interval, interval) + 1
  {
    DivShift(now - settled, interval, 1);
  }

  /** One lazy application does exactly what one clamped step per whole
      interval would have done to each need. */
  lemma DecayIsTickByTick(c: State, now: int)
    ensures var d := Decay(c, now);
            && AffectionGauge(d) == Simulate(AffectionGauge(c), now, AFFECTION_INTERVAL, false)
            && SatietyGauge(d) == Simulate(SatietyGauge(c), now, SATIETY_INTERVAL, false)
            && EnergyGauge(d) == Simulate(EnergyGauge(c), now, EnergyInterval(c.sleeping), c.sleeping)
            && (c.mood == MoodOf(c) ==> d.mood == MoodOf(d))
  {
    SettleIsSimulation(AffectionGauge(c), now, AFFECTION_INTERVAL, false);
    SettleIsSimulation(SatietyGauge(c), now, SATIETY_INTERVAL, false);
    SettleIsSimulation(EnergyGauge(c), now, EnergyInterval(c.sleeping), c.sleeping);
    hide Simulate, Shifted, MoodOf;
  }
}
