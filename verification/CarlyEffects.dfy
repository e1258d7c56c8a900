/** What care, food and time do to Carly, in numbers (apps/preferences/services.py,
    perform_carly_action; apps/preferences/rewards.py, apply_carly_decay). */
module CareEffects {
  import opened Amounts
  import opened Care
  import opened Carly
  import opened DivMod
  import opened Options
  import opened Rewards

  // ---------- Time ----------

  /** The whole periods of the given minutes between two times. */
  ghost predicate WholePeriods(k: nat, from: int, to: int, minutes: nat) {
    if to <= from then k == 0
    else k * minutes * 60_000_000 <= to - from < (k + 1) * minutes * 60_000_000
  }

  lemma StepsArePeriods(from: int, to: int, minutes: nat)
    requires minutes > 0
    ensures WholePeriods(WholeSteps(to, from, minutes * 60_000_000), from, to, minutes)
  {
    var interval := minutes * 60_000_000;
    if to > from {
      QuotientBounds(to - from, interval);
      var k := (to - from) / interval;
      assert k * minutes * 60_000_000 == interval * k;
      assert (k + 1) * minutes * 60_000_000 == interval * k + interval;
    } else {
      DivModOf(0, interval, 0, 0);
    }
  }

  lemma QuotientBounds(x: nat, n: nat)
    requires n > 0
    ensures n * (x / n) <= x < n * (x / n) + n
  {
  }

  /** Affection falls every six hours, satiety every 45 minutes; energy falls
      every half hour awake and rises every hour asleep. */
  lemma NeedsChange(c: State, now: int)
    ensures var d := Decay(c, now);
            && (exists k: nat :: WholePeriods(k, c.lastAffectionDecay, now, 360) && d.affection == Max(0, c.affection - k))
            && (exists k: nat :: WholePeriods(k, c.lastSatietyDecay, now, 45) && d.satiety == Max(0, c.satiety - k))
            && (!c.sleeping ==> exists k: nat :: WholePeriods(k, c.lastEnergyDecay, now, 30) && d.energy == Max(0, c.energy - k))
            && (c.sleeping ==> exists k: nat :: WholePeriods(k, c.lastEnergyDecay, now, 60)
                                                && d.energy == if k == 0 then c.energy else Min(100, c.energy + k))
            && d.sleeping == c.sleeping && d.inventory == c.inventory && d.credits == c.credits && d.experience == c.experience
  {
    hide WholeSteps, WholePeriods;
    StepsArePeriods(c.lastAffectionDecay, now, 360);
    StepsArePeriods(c.lastSatietyDecay, now, 45);
    StepsArePeriods(c.lastEnergyDecay, now, if c.sleeping then 60 else 30);
    assert WholePeriods(WholeSteps(now, c.lastAffectionDecay, AFFECTION_INTERVAL), c.lastAffectionDecay, now, 360);
    assert WholePeriods(WholeSteps(now, c.lastSatietyDecay, SATIETY_INTERVAL), c.lastSatietyDecay, now, 45);
    assert WholePeriods(WholeSteps(now, c.lastEnergyDecay, EnergyInterval(c.sleeping)), c.lastEnergyDecay, now, if c.sleeping then 60 else 30);
  }

  /** Hunger comes before tiredness, tiredness before a good mood. */
  lemma MoodMeans(c: State)
    ensures MoodOf(c) == Hungry <==> c.satiety < 30
    ensures MoodOf(c) == Tired <==> c.satiety >= 30 && (c.energy < 25 || c.sleeping)
    ensures MoodOf(c) == Happy <==> c.satiety >= 30 && c.energy >= 25 && !c.sleeping && c.affection >= 70
  {
  }

  lemma NoStepsLeft(now: int, previous: int, interval: int)
    requires interval > 0
    ensures WholeSteps(now, previous + interval * WholeSteps(now, previous, interval), interval) == 0
  {
    StepsSplit(now, now, previous, interval);
  }

  // ---------- Which care is accepted ----------

  /** Seconds between two actions of a kind, and how many a day may see. */
  function Pause(action: CareAction): nat {
    match action
    case Pet => 20
    case Feed => 20
    case Play => 90
    case Sleep => 10
    case Wake => 10
  }

  function DailyLimitOf(action: CareAction): nat {
    match action
    case Pet => 20
    case Play => 10
    case _ => 12
  }

  function LoggedOn(actions: seq<ActionEntry>, name: string, day: int): set<nat> {
    set i: nat | i < |actions| && IsEntry(actions[i], name, day)
  }

  predicate IsEntry(e: ActionEntry, name: string, day: int) {
    e.action == name && e.day == day
  }

  lemma {:induction false} CountIsLogged(actions: seq<ActionEntry>, name: string, day: int)
    ensures CountActions(actions, name, day) == |LoggedOn(actions, name, day)|
  {
    if actions != [] {
      var n := |actions| - 1;
      CountIsLogged(actions[..n], name, day);
      LoggedOneMore(actions[..n], actions[n], name, day);
      assert actions == actions[..n] + [actions[n]];
      hide LoggedOn;
    }
  }

  lemma LoggedOneMore(actions: seq<ActionEntry>, e: ActionEntry, name: string, day: int)
    ensures |LoggedOn(actions + [e], name, day)| == |LoggedOn(actions, name, day)| + if IsEntry(e, name, day) then 1 else 0
  {
    hide IsEntry;
    var earlier, all := LoggedOn(actions, name, day), LoggedOn(actions + [e], name, day);
    if IsEntry(e, name, day) {
      assert all == earlier + {|actions|};
    } else {
      assert all == earlier;
    }
  }

  /** A care action of the current version is carried out exactly if its pause is
      over, the day's limit not reached, Carly awake for anything but sleeping
      and waking, has energy to play, and the food to eat is there. */
  lemma CareAcceptedIff(a: Account, action: CareAction, food: Option<Food>, supplied: nat, clock: Clock)
    ensures var c, outcome := Decay(a.carly, clock.now), Perform(a, DoCare(action, food), supplied, clock).1;
            outcome.Done? || outcome == RewardFailed
            <==> && a.carly.version == supplied
                 && (forall e <- a.actions :: e.action == Name(action) ==> e.at <= clock.now - Pause(action) * 1_000_000)
                 && |LoggedOn(a.actions, Name(action), clock.today)| < DailyLimitOf(action)
                 && (c.sleeping ==> action.Sleep? || action.Wake?)
                 && (action.Play? ==> c.energy > 0)
                 && (action.Feed? ==> food.Some? && Stock(c, food.value) > 0)
  {
    hide Decay, CareStep, CountActions, LoggedOn, Name, Stock;
    CountIsLogged(a.actions, Name(action), clock.today);
  }

  // ---------- What care does ----------

  /** The row after an accepted action, its reward apart. */
  ghost predicate CareShown(c: State, d: State, action: CareAction, now: int) {
    match action
    case Pet =>
      && d.affection == Min(100, c.affection + 2) && d.energy == Min(100, c.energy) && d.satiety == Min(100, c.satiety)
      && d.sleeping == c.sleeping && d.lastEnergyDecay == c.lastEnergyDecay && d.inventory == c.inventory
    case Play =>
      && d.affection == Min(100, c.affection + 3) && d.energy == Max(0, Min(100, c.energy - 8)) && d.satiety == Max(0, Min(100, c.satiety - 2))
      && d.sleeping == c.sleeping && d.lastEnergyDecay == c.lastEnergyDecay && d.inventory == c.inventory
    case Sleep =>
      && d.affection == Min(100, c.affection) && d.energy == Min(100, c.energy) && d.satiety == Min(100, c.satiety)
      && d.sleeping && d.lastEnergyDecay == now && d.inventory == c.inventory
    case Wake =>
      && d.affection == Min(100, c.affection) && d.energy == Min(100, c.energy) && d.satiety == Max(0, Min(100, c.satiety - 2))
      && !d.sleeping && d.lastEnergyDecay == now && d.inventory == c.inventory
    case Feed => true
  }

  /** One item is eaten: what it gives, and how long its bonus lasts. */
  ghost predicate MealShown(c: State, d: State, food: Food, now: int) {
    && Stock(d, food) == Stock(c, food) - 1 && (forall other: Food :: other != food ==> Stock(d, other) == Stock(c, other))
    && d.sleeping == c.sleeping
    && (food != Fish ==> d.moonUntil == c.moonUntil) && (food != Cookie ==> d.cookieUntil == c.cookieUntil)
    && (food != Berry ==> d.berryUntil == c.berryUntil && d.berryCharges == c.berryCharges)
    && (food != Potion ==> d.auraUntil == c.auraUntil && d.lastEnergyDecay == c.lastEnergyDecay)
    && match food
       case Fish =>
         && d.affection == Min(100, c.affection + 1) && d.satiety == Min(100, c.satiety + 25) && d.energy == Min(100, c.energy)
         && d.moonUntil == Some(now + 15 * 60_000_000)
       case Berry =>
         && d.affection == Min(100, c.affection + 3) && d.satiety == Min(100, c.satiety + 18) && d.energy == Min(100, c.energy)
         && d.berryUntil == Some(now + 30 * 60_000_000) && d.berryCharges == 1
       case Cookie =>
         && d.affection == Min(100, c.affection + 7) && d.satiety == Min(100, c.satiety + 12) && d.energy == Min(100, c.energy + 1)
         && d.cookieUntil == Some(now + 60 * 60_000_000)
       case Potion =>
         && d.affection == Min(100, c.affection + 1) && d.satiety == Min(100, c.satiety + 4) && d.energy == 100
         && d.lastEnergyDecay == now && d.auraUntil == Some(now + 3_000_000)
  }

  lemma CaredShows(c: State, action: CareAction, food: Option<Food>, now: int)
    requires action == Feed ==> food.Some? && Stock(c, food.value) > 0
    ensures CareShown(c, Cared(c, action, food, now), action, now)
    ensures action == Feed ==> MealShown(c, Cared(c, action, food, now), food.value, now)
  {
    hide MoodOf;
    if action == Feed {
      MealShows(c, food.value, now);
      hide Eaten, MealShown;
      TouchedShows(c, Eaten(c, food.value, now), food.value, now);
    }
  }

  lemma MealShows(c: State, food: Food, now: int)
    requires Stock(c, food) > 0
    ensures MealShown(c, Eaten(c, food, now), food, now)
  {
  }

  lemma TouchedShows(c: State, d: State, food: Food, now: int)
    requires MealShown(c, d, food, now)
    ensures MealShown(c, Touched(d), food, now)
  {
    hide MoodOf;
  }

  /** A reward for care leaves everything alone that care has changed. */
  ghost predicate SameCare(c: State, d: State) {
    && d.affection == c.affection && d.energy == c.energy && d.satiety == c.satiety && d.sleeping == c.sleeping
    && d.lastEnergyDecay == c.lastEnergyDecay && d.inventory == c.inventory
    && d.moonUntil == c.moonUntil && d.cookieUntil == c.cookieUntil && d.berryUntil == c.berryUntil
    && d.berryCharges == c.berryCharges && d.auraUntil == c.auraUntil
  }

  lemma SameCareShows(c: State, d: State, e: State, action: CareAction, food: Option<Food>, now: int)
    requires CareShown(c, d, action, now) && SameCare(d, e) && (action == Feed ==> food.Some? && MealShown(c, d, food.value, now))
    ensures CareShown(c, e, action, now) && (action == Feed ==> MealShown(c, e, food.value, now))
  {
  }

  lemma CareRewardKeeps(a: Account, action: CareAction, key: string, clock: Clock)
    requires RewardEvent(action).Some? && Decay(a.carly, clock.now) == a.carly
    ensures SameCare(a.carly, Award(a, RewardEvent(action).value, key, None, None, clock).0.carly)
  {
    var event := RewardEvent(action).value;
    var (b, outcome) := Award(a, event, key, None, None, clock);
    if outcome.Granted? {
      AwardedRow(a, event, key, None, None, clock);
      AwardPays(a, event, key, None, None, clock);
      NoFocus(a, event, key, clock);
    }
    hide Decay, HasKey, StoredKey, RequestedReward, Booked, HasEffect, RewardRule, Pays;
  }

  lemma NoFocus(a: Account, event: Event, key: string, clock: Clock)
    requires event.PetEvent? || event.FeedEvent? || event.PlayEvent?
    requires Award(a, event, key, None, None, clock).1.Granted?
    ensures !HasEffect(Award(a, event, key, None, None, clock).1.reward.bonuses, BerryFocusEffect)
  {
    hide Decay, HasKey, StoredKey, Booked, HasEffect, XpOn, CreditsOn, CountOf, CapReward, EventQuarters, DailyQuarters, SumBonuses, ActiveBonuses, Due;
    var c := Decay(a.carly, clock.now);
    var xpToday := XpOn(a.ledger, clock.today);
    var xp := CapReward(RewardRule(event).value.xp, EventQuarters(CountOf(a.ledger, event, clock.today), RewardRule(event).value.fullUntil),
                        DailyQuarters(xpToday, DAILY_XP_SOFT_CAP, DAILY_XP_HARD_CAP), DAILY_XP_HARD_CAP - xpToday);
    BonusesAre(c, event, clock.now, Max(0, DAILY_XP_HARD_CAP - xpToday - xp));
    NotDue(5);
  }

  lemma NotDue(amount: nat)
    ensures Due(false, amount) == 0
  {
  }

  /** What an accepted action leaves: the needs, the bed and the stock, and one
      log entry with the experience it earned. */
  lemma CareDoes(a: Account, action: CareAction, food: Option<Food>, supplied: nat, clock: Clock)
    requires Perform(a, DoCare(action, food), supplied, clock).1.Done?
    ensures var (b, outcome) := Perform(a, DoCare(action, food), supplied, clock);
            var c := Decay(a.carly, clock.now);
            && CareShown(c, b.carly, action, clock.now)
            && (action == Feed ==> food.Some? && MealShown(c, b.carly, food.value, clock.now))
            && (action.Sleep? || action.Wake? <==> outcome.reward.None?)
            && b.actions == a.actions + [ActionEntry(Name(action), clock.now, clock.today,
                                                     if outcome.reward.Some? && outcome.reward.value.Granted?
                                                     then outcome.reward.value.reward.xp else 0)]
  {
    hide Decay, Refusal, Cared, CareShown, MealShown, Award, Name, CareKey, CountActions, SameCare, Stock;
    var c := Decay(a.carly, clock.now);
    DoneIsAccepted(a, action, food, supplied, clock);
    hide Perform;
    Accepted(c, a.actions, action, food, clock);
    CaredShows(c, action, food, clock.now);
    var saved := a.(carly := Cared(c, action, food, clock.now));
    if RewardEvent(action).Some? {
      var key := CareKey(action, clock.iso, CountActions(a.actions, Name(action), clock.today) + 1);
      CaredIsSettled(a.carly, action, food, clock.now);
      CareRewardKeeps(saved, action, key, clock);
      RewardLeavesLog(saved, RewardEvent(action).value, key, clock);
      SameCareShows(c, saved.carly, Award(saved, RewardEvent(action).value, key, None, None, clock).0.carly, action, food, clock.now);
    }
  }

  lemma DoneIsAccepted(a: Account, action: CareAction, food: Option<Food>, supplied: nat, clock: Clock)
    requires Perform(a, DoCare(action, food), supplied, clock).1.Done?
    ensures var c := Decay(a.carly, clock.now);
            && Refusal(c, a.actions, action, food, clock).None?
            && (action == Feed ==> food.Some? && Stock(c, food.value) > 0)
            && Perform(a, DoCare(action, food), supplied, clock) == CareStep(a.(carly := c), action, food, clock)
  {
    hide Decay, CareStep, CountActions, InCooldown, Name, Stock;
  }

  lemma RewardLeavesLog(a: Account, event: Event, key: string, clock: Clock)
    ensures Award(a, event, key, None, None, clock).0.actions == a.actions
  {
    hide Decay, HasKey, StoredKey, RequestedReward, Booked, RewardRule;
  }

  lemma Accepted(c: State, actions: seq<ActionEntry>, action: CareAction, food: Option<Food>, clock: Clock)
    ensures Refusal(c, actions, action, food, clock).None? && action == Feed ==> food.Some? && Stock(c, food.value) > 0
  {
    hide InCooldown, CountActions, ActionRuleOf, Name;
  }

  /** The row a rewarded action saves has just been brought up to date. */
  lemma CaredIsSettled(carly: State, action: CareAction, food: Option<Food>, now: int)
    requires action == Feed ==> food.Some? && Stock(Decay(carly, now), food.value) > 0
    requires RewardEvent(action).Some?
    ensures var saved := Cared(Decay(carly, now), action, food, now); Decay(saved, now) == saved
  {
    var c := Decay(carly, now);
    NotDueAgain(carly, now);
    SameClocks(c, action, food, now);
    hide Decay, Cared, DecayDue;
    UndueIsSame(Cared(c, action, food, now), now);
  }

  lemma UndueIsSame(c: State, now: int)
    requires !DecayDue(c, now)
    ensures Decay(c, now) == c
  {
    hide DecayDue;
  }

  lemma NotDueAgain(c: State, now: int)
    ensures !DecayDue(Decay(c, now), now)
  {
    hide WholeSteps, Shifted;
    NoStepsLeft(now, c.lastAffectionDecay, AFFECTION_INTERVAL);
    NoStepsLeft(now, c.lastSatietyDecay, SATIETY_INTERVAL);
    NoStepsLeft(now, c.lastEnergyDecay, EnergyInterval(c.sleeping));
  }

  lemma SameClocks(c: State, action: CareAction, food: Option<Food>, now: int)
    requires action == Feed ==> food.Some? && Stock(c, food.value) > 0
    requires RewardEvent(action).Some? && !DecayDue(c, now)
    ensures !DecayDue(Cared(c, action, food, now), now)
  {
    var d := Cared(c, action, food, now);
    CaredClocks(c, action, food, now);
    NoTimeNoSteps(now, EnergyInterval(d.sleeping));
    hide Cared, WholeSteps;
  }

  lemma CaredClocks(c: State, action: CareAction, food: Option<Food>, now: int)
    requires action == Feed ==> food.Some? && Stock(c, food.value) > 0
    requires RewardEvent(action).Some?
    ensures var d := Cared(c, action, food, now);
            && d.lastAffectionDecay == c.lastAffectionDecay && d.lastSatietyDecay == c.lastSatietyDecay && d.sleeping == c.sleeping
            && (d.lastEnergyDecay == c.lastEnergyDecay || d.lastEnergyDecay == now)
  {
    hide MoodOf, Clamp;
  }

  lemma NoTimeNoSteps(now: int, interval: int)
    requires interval > 0
    ensures WholeSteps(now, now, interval) == 0
  {
    DivModOf(0, interval, 0, 0);
  }

  /** What food costs. */
  lemma PurchaseDoes(a: Account, food: Food, supplied: nat, clock: Clock)
    ensures var (b, outcome) := Perform(a, BuyFood(Some(food)), supplied, clock);
            var c, cost := Decay(a.carly, clock.now), match food case Fish => 20 case Berry => 35 case Cookie => 60 case Potion => 100;
            && (outcome == Bought(food) <==> a.carly.version == supplied && c.credits >= cost)
            && (outcome == Bought(food) ==>
                  && b.carly == c.(credits := c.credits - cost, inventory := b.carly.inventory, version := c.version + 1)
                  && Stock(b.carly, food) == Stock(c, food) + 1
                  && forall other: Food :: other != food ==> Stock(b.carly, other) == Stock(c, other))
            && (outcome != Bought(food) ==> b == a)
  {
    hide Decay;
  }

  /** The nightly job lets time pass and resets the streak once a whole day has
      gone by without a productive one; nothing else changes. */
  lemma NightResets(c: State, clock: Clock)
    ensures var d, n := Decay(c, clock.now), Refreshed(c, clock);
            var missed := c.streak != 0 && c.lastProductiveDay.Some? && c.lastProductiveDay.value < clock.today - 1;
            && n.streak == (if missed then 0 else c.streak) && n.version == (if missed then d.version + 1 else d.version)
            && n.(streak := c.streak, version := d.version) == d
  {
    hide WholeSteps, MoodOf;
  }
}
