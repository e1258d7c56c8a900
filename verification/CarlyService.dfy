/** The services that change a user's Carly row in place
    (apps/preferences/rewards.py, services.py, tasks.py). */
module CarlyService {
  import opened Carly
  import opened Care
  import opened Levels
  import opened Options
  import opened Rewards

  class CarlyAccount {
    var level: nat
    var experience: nat
    var credits: nat
    var inventory: map<Food, nat>
    var affection: nat
    var energy: nat
    var satiety: nat
    var streak: nat
    var mood: Mood
    var sleeping: bool
    var lastProductiveDay: Option<int>
    var lastAffectionDecay: int
    var lastEnergyDecay: int
    var lastSatietyDecay: int
    var auraUntil: Option<int>
    var moonUntil: Option<int>
    var cookieUntil: Option<int>
    var berryUntil: Option<int>
    var berryCharges: nat
    var version: nat
    var ledger: seq<Reward>
    var actions: seq<ActionEntry>

    function Row(): State
      reads this
    {
      State(level, experience, credits, inventory, affection, energy, satiety, streak, mood, sleeping,
            lastProductiveDay, lastAffectionDecay, lastEnergyDecay, lastSatietyDecay,
            auraUntil, moonUntil, cookieUntil, berryUntil, berryCharges, version)
    }

    ghost function Model(): Account
      reads this
    {
      Account(Row(), ledger, actions)
    }

    constructor (now: int)
      ensures Model() == Account(Fresh(now), [], [])
    {
      level, experience, credits, streak, version := 1, 0, 40, 0, 1;
      inventory := map[Fish := 1, Berry := 0, Cookie := 0, Potion := 0];
      affection, energy, satiety, mood, sleeping := 50, 80, 70, Curious, false;
      lastProductiveDay := None;
      lastAffectionDecay, lastEnergyDecay, lastSatietyDecay := now, now, now;
      auraUntil, moonUntil, cookieUntil, berryUntil, berryCharges := None, None, None, None, 0;
      ledger, actions := [], [];
    }

    /** _update_mood */
    method UpdateMood()
      modifies this`mood
      ensures Row() == old(Row()).(mood := MoodOf(old(Row())))
    {
      if satiety < 30 {
        mood := Hungry;
      } else if energy < 25 || sleeping {
        mood := Tired;
      } else if affection >= 70 {
        mood := Happy;
      } else {
        mood := Curious;
      }
    }

    // The three needs of apply_carly_decay, one after the other.
    method SettleAffection(now: int) returns (changed: bool)
      modifies this`affection, this`lastAffectionDecay
      ensures changed <==> WholeSteps(now, old(lastAffectionDecay), AFFECTION_INTERVAL) > 0
      ensures Gauge(affection, lastAffectionDecay)
           == Settle(Gauge(old(affection), old(lastAffectionDecay)), now, AFFECTION_INTERVAL, false)
      ensures !changed ==> affection == old(affection) && lastAffectionDecay == old(lastAffectionDecay)
    {
      var steps := WholeSteps(now, lastAffectionDecay, AFFECTION_INTERVAL);
      changed := steps > 0;
      if changed {
        affection := Max(0, affection - steps);
        lastAffectionDecay := lastAffectionDecay + AFFECTION_INTERVAL * steps;
      }
    }

    method SettleSatiety(now: int) returns (changed: bool)
      modifies this`satiety, this`lastSatietyDecay
      ensures changed <==> WholeSteps(now, old(lastSatietyDecay), SATIETY_INTERVAL) > 0
      ensures Gauge(satiety, lastSatietyDecay)
           == Settle(Gauge(old(satiety), old(lastSatietyDecay)), now, SATIETY_INTERVAL, false)
      ensures !changed ==> satiety == old(satiety) && lastSatietyDecay == old(lastSatietyDecay)
    {
      var steps := WholeSteps(now, lastSatietyDecay, SATIETY_INTERVAL);
      changed := steps > 0;
      if changed {
        satiety := Max(0, satiety - steps);
        lastSatietyDecay := lastSatietyDecay + SATIETY_INTERVAL * steps;
      }
    }

    method SettleEnergy(now: int) returns (changed: bool)
      modifies this`energy, this`lastEnergyDecay
      ensures changed <==> WholeSteps(now, old(lastEnergyDecay), EnergyInterval(sleeping)) > 0
      ensures Gauge(energy, lastEnergyDecay)
           == Settle(Gauge(old(energy), old(lastEnergyDecay)), now, EnergyInterval(sleeping), sleeping)
      ensures !changed ==> energy == old(energy) && lastEnergyDecay == old(lastEnergyDecay)
    {
      var interval := EnergyInterval(sleeping);
      var steps := WholeSteps(now, lastEnergyDecay, interval);
      changed := steps > 0;
      if changed {
        if sleeping {
          energy := Min(100, energy + steps);
        } else {
          energy := Max(0, energy - steps);
        }
        lastEnergyDecay := lastEnergyDecay + interval * steps;
      }
    }

    method SettleNeeds(now: int) returns (changed: bool)
      modifies this`affection, this`lastAffectionDecay, this`satiety, this`lastSatietyDecay, this`energy, this`lastEnergyDecay
      ensures changed <==> DecayDue(old(Row()), now)
      ensures Row() == SettledNeeds(old(Row()), now)
      ensures !changed ==> Row() == old(Row())
    {
      hide WholeSteps, Shifted, Settle, EnergyInterval;
      var affectionChanged := SettleAffection(now);
      var satietyChanged := SettleSatiety(now);
      var energyChanged := SettleEnergy(now);
      changed := affectionChanged || satietyChanged || energyChanged;
    }

    /** apply_carly_decay */
    method ApplyDecay(now: int) returns (changed: bool)
      modifies this
      ensures changed <==> DecayDue(old(Row()), now)
      ensures Model() == old(Model()).(carly := Decay(old(Row()), now))
    {
      hide DecayDue, SettledNeeds, MoodOf;
      changed := SettleNeeds(now);
      if changed {
        UpdateMood();
        version := version + 1;
      }
    }

    /** _active_xp_bonuses: the four foods in turn. */
    method ActiveXpBonuses(event: Event, now: int, availableXp: int)
      returns (bonuses: seq<Bonus>, consumeBerryFocus: bool)
      ensures bonuses == ActiveBonuses(Row(), event, now, Max(0, availableXp))
      ensures consumeBerryFocus <==> ConsumesBerry(Row(), event, now, Max(0, availableXp))
    {
      hide MoonBonus, WithBerry, WithCookie, WithFullEnergy, SumBonuses;
      var remaining := Max(0, availableXp);
      ghost var room := remaining;
      bonuses, remaining := AddMoon(now, remaining);
      bonuses, remaining, consumeBerryFocus := AddBerry(bonuses, remaining, event, now, room);
      bonuses, remaining := AddCookie(bonuses, remaining, event, now, room);
      bonuses := AddFullEnergy(bonuses, remaining, event, room);
    }

    method AddMoon(now: int, room: nat) returns (bonuses: seq<Bonus>, remaining: nat)
      ensures bonuses == MoonBonus(Row(), now, room) && remaining == room - SumBonuses(bonuses)
    {
      bonuses, remaining := [], room;
      assert SumBonuses(bonuses) == 0;
      hide SumBonuses, AppendBonus;
      if Running(moonUntil, now) {
        var applied;
        bonuses, remaining, applied := Append(bonuses, remaining, MoonEffect, MOON_XP_BONUS, room);
      }
    }

    method AddBerry(bonuses: seq<Bonus>, remaining: nat, event: Event, now: int, ghost room: nat)
      returns (after: seq<Bonus>, left: nat, consumeBerryFocus: bool)
      requires remaining == room - SumBonuses(bonuses)
      ensures after == WithBerry(bonuses, Row(), event, now, room) && left == room - SumBonuses(after)
      ensures consumeBerryFocus <==> |after| > |bonuses|
    {
      hide SumBonuses, AppendBonus;
      after, left, consumeBerryFocus := bonuses, remaining, false;
      if BerryFocusEvent(event) && berryCharges > 0 && Running(berryUntil, now) {
        var applied;
        after, left, applied := Append(bonuses, remaining, BerryFocusEffect, BERRY_FOCUS_XP_BONUS, room);
        consumeBerryFocus := applied > 0;
      }
    }

    method AddCookie(bonuses: seq<Bonus>, remaining: nat, event: Event, now: int, ghost room: nat)
      returns (after: seq<Bonus>, left: nat)
      requires remaining == room - SumBonuses(bonuses)
      ensures after == WithCookie(bonuses, Row(), event, now, room) && left == room - SumBonuses(after)
    {
      hide SumBonuses, AppendBonus;
      after, left := bonuses, remaining;
      if event.ProjectCompleted? && Running(cookieUntil, now) {
        var applied;
        after, left, applied := Append(bonuses, remaining, CookieStarsEffect, COOKIE_PROJECT_XP_BONUS, room);
      }
    }

    method AddFullEnergy(bonuses: seq<Bonus>, remaining: nat, event: Event, ghost room: nat) returns (after: seq<Bonus>)
      requires remaining == room - SumBonuses(bonuses)
      ensures after == WithFullEnergy(bonuses, Row(), event, room)
    {
      hide SumBonuses, AppendBonus;
      after := bonuses;
      if CompletionEvent(event) && energy >= 100 {
        var left, applied;
        after, left, applied := Append(bonuses, remaining, FullEnergyEffect, FULL_ENERGY_XP_BONUS, room);
      }
    }

    // The nested append_bonus of _active_xp_bonuses.
    static method Append(bonuses: seq<Bonus>, remaining: nat, effect: Effect, amount: nat, ghost room: nat)
      returns (after: seq<Bonus>, left: nat, applied: nat)
      requires remaining == room - SumBonuses(bonuses)
      ensures after == AppendBonus(bonuses, room, effect, amount)
      ensures left == room - SumBonuses(after)
      ensures applied > 0 <==> |after| > |bonuses|
    {
      applied := Min(amount, remaining);
      after, left := bonuses, remaining;
      if applied > 0 {
        after := bonuses + [Bonus(effect, applied)];
        left := remaining - applied;
        assert after[..|bonuses|] == bonuses;
      }
    }

    // The part of award_carly_reward that books a granted row on the state.
    method BookReward(reward: Reward, consumeBerryFocus: bool, clock: Clock)
      requires consumeBerryFocus <==> HasEffect(reward.bonuses, BerryFocusEffect)
      modifies this
      ensures Model() == old(Model()).(carly := Booked(old(Row()), reward, clock))
    {
      hide LevelOf, HasEffect, Productive, SpendBerry, CreditProductivity, Paid, Levelled, Touched;
      if reward.xp > 0 || reward.credits > 0 {
        if consumeBerryFocus {
          SpendBerryFocus();
        }
        PayOut(reward.xp, reward.credits);
        if Productive(reward.event) {
          RecordProductiveDay(reward.xp, clock);
        }
        SynchronizeLevel();
        Touch();
      }
    }

    method PayOut(xp: nat, granted: nat)
      modifies this`experience, this`credits
      ensures Row() == Paid(old(Row()), xp, granted)
    {
      experience := experience + xp;
      credits := credits + granted;
    }

    /** synchronize_level */
    method SynchronizeLevel()
      modifies this`level
      ensures Row() == Levelled(old(Row()))
    {
      var state := ComputeLevelState(experience);
      level := state.level;
    }

    method Touch()
      modifies this`mood, this`version
      ensures Row() == Touched(old(Row()))
    {
      UpdateMood();
      version := version + 1;
    }

    method SpendBerryFocus()
      modifies this`berryCharges, this`berryUntil
      ensures Row() == SpendBerry(old(Row()))
    {
      berryCharges := Max(0, berryCharges - 1);
      if berryCharges == 0 {
        berryUntil := None;
      }
    }

    method CountStreak(today: int)
      modifies this`streak, this`lastProductiveDay
      ensures streak == NextStreak(old(Row()), today) && lastProductiveDay == Some(today)
    {
      if lastProductiveDay == Some(today - 1) {
        streak := streak + 1;
      } else if lastProductiveDay != Some(today) {
        streak := 1;
      }
      lastProductiveDay := Some(today);
    }

    method RecordProductiveDay(awardedXp: nat, clock: Clock)
      modifies this`streak, this`lastProductiveDay, this`affection, this`sleeping, this`lastEnergyDecay
      ensures Row() == CreditProductivity(old(Row()), awardedXp, clock)
    {
      hide NextStreak;
      CountStreak(clock.today);
      affection := Min(100, affection + Max(1, Min(5, awardedXp / 10)));
      if sleeping {
        sleeping := false;
        lastEnergyDecay := clock.now;
      }
    }

    // The amounts of award_carly_reward, computed from the decayed state.
    method ComputeReward(event: Event, key: string, baseXp: int, baseCredits: int, fullUntil: nat, clock: Clock)
      returns (reward: Reward, consumeBerryFocus: bool)
      ensures reward == NewReward(Row(), ledger, event, key, baseXp, baseCredits, fullUntil, clock)
      ensures consumeBerryFocus <==> HasEffect(reward.bonuses, BerryFocusEffect)
    {
      hide StoredKey, ActiveBonuses, CapReward, EventQuarters, DailyQuarters, XpOn, CreditsOn, CountOf, SumBonuses,
           HasEffect, ConsumesBerry, Row;
      var quarters := EventQuarters(CountOf(ledger, event, clock.today), fullUntil);
      var xpToday, creditsToday := XpOn(ledger, clock.today), CreditsOn(ledger, clock.today);
      var baseAwarded := CapReward(baseXp, quarters,
                                   DailyQuarters(xpToday, DAILY_XP_SOFT_CAP, DAILY_XP_HARD_CAP),
                                   DAILY_XP_HARD_CAP - xpToday);
      var bonuses;
      bonuses, consumeBerryFocus := ActiveXpBonuses(event, clock.now, DAILY_XP_HARD_CAP - xpToday - baseAwarded);
      BonusesFit(Row(), event, clock.now, Max(0, DAILY_XP_HARD_CAP - xpToday - baseAwarded));
      var awardedCredits := CapReward(baseCredits, quarters,
                                      DailyQuarters(creditsToday, DAILY_CREDIT_SOFT_CAP, DAILY_CREDIT_HARD_CAP),
                                      DAILY_CREDIT_HARD_CAP - creditsToday);
      reward := Reward(event, StoredKey(key), baseAwarded + SumBonuses(bonuses), awardedCredits, quarters,
                       bonuses, clock.today);
    }

    // Explicit amounts replace those of the rule.
    method ComputeRequested(event: Event, key: string, xp: Option<int>, credits: Option<int>, clock: Clock)
      returns (reward: Reward, consumeBerryFocus: bool)
      requires Payable(event, xp, credits)
      ensures reward == RequestedReward(Row(), ledger, event, key, xp, credits, clock)
      ensures consumeBerryFocus <==> HasEffect(reward.bonuses, BerryFocusEffect)
    {
      hide NewReward, RewardRule, HasEffect, Row;
      var rule := RewardRule(event);
      var baseXp := if xp.Some? then xp.value else rule.value.xp;
      var baseCredits := if credits.Some? then credits.value else rule.value.credits;
      var fullUntil := if rule.Some? then rule.value.fullUntil else 5;
      reward, consumeBerryFocus := ComputeReward(event, key, baseXp, baseCredits, fullUntil, clock);
    }

    /** award_carly_reward */
    method AwardCarlyReward(event: Event, key: string, xp: Option<int>, credits: Option<int>, clock: Clock)
      returns (outcome: Outcome)
      modifies this
      ensures (Model(), outcome) == Award(old(Model()), event, key, xp, credits, clock)
    {
      hide Decay, Booked, HasKey, StoredKey, RewardRule, RequestedReward, HasEffect, ConsumesBerry;
      if RewardRule(event).None? && (xp.None? || credits.None?) {
        return UnknownRule;
      }
      if HasKey(ledger, key) {
        return Duplicate;
      }
      if HasKey(ledger, StoredKey(key)) {
        return KeyCollision;
      }
      var reward := Grant(event, key, xp, credits, clock);
      return Granted(reward);
    }

    // The part behind the checks: decay, ledger entry, booking.
    method Grant(event: Event, key: string, xp: Option<int>, credits: Option<int>, clock: Clock) returns (reward: Reward)
      requires Payable(event, xp, credits)
      modifies this
      ensures reward == RequestedReward(Decay(old(Row()), clock.now), old(ledger), event, key, xp, credits, clock)
      ensures Model() == old(Model()).(carly := Booked(Decay(old(Row()), clock.now), reward, clock), ledger := old(ledger) + [reward])
    {
      hide Decay, Booked, RewardRule, RequestedReward, HasEffect, DecayDue;
      var _ := ApplyDecay(clock.now);
      var consumeBerryFocus;
      reward, consumeBerryFocus := ComputeRequested(event, key, xp, credits, clock);
      ledger := ledger + [reward];
      BookReward(reward, consumeBerryFocus, clock);
    }

    /** The purchase branch of perform_carly_action. */
    method Buy(food: Food) returns (bought: bool)
      modifies this`inventory, this`credits, this`version
      ensures bought <==> old(credits) >= FoodRuleOf(food).cost
      ensures Row() == if bought then AfterPurchase(old(Row()), food) else old(Row())
    {
      var cost := FoodRuleOf(food).cost;
      if credits < cost {
        return false;
      }
      inventory := inventory[food := Stock(Row(), food) + 1];
      credits := credits - cost;
      version := version + 1;
      return true;
    }

    // The accepted part of a care action: bed, needs, mood and version.
    method ApplyCare(action: CareAction, food: Option<Food>, now: int)
      requires action == Feed ==> food.Some? && Stock(Row(), food.value) > 0
      modifies this
      ensures Model() == old(Model()).(carly := Cared(old(Row()), action, food, now))
    {
      hide Stock, Eaten, Adjusted, Touched, Bedded;
      GoToBed(action, now);
      if action == Feed {
        Eat(food.value, now);
      } else {
        AdjustNeeds(action);
      }
      Touch();
    }

    method GoToBed(action: CareAction, now: int)
      modifies this`sleeping, this`lastEnergyDecay
      ensures Row() == Bedded(old(Row()), action, now)
      ensures forall f :: Stock(Row(), f) == Stock(old(Row()), f)
    {
      if action == Sleep {
        sleeping := true;
        lastEnergyDecay := now;
      } else if action == Wake {
        sleeping := false;
        lastEnergyDecay := now;
      }
    }

    method AdjustNeeds(action: CareAction)
      modifies this`affection, this`energy, this`satiety
      ensures Row() == Adjusted(old(Row()), action)
    {
      var rule := ActionRuleOf(action);
      affection := Clamp(affection + rule.affection);
      energy := Clamp(energy + rule.energy);
      satiety := Clamp(satiety + rule.satiety);
    }

    method Eat(food: Food, now: int)
      requires Stock(Row(), food) > 0
      modifies this`inventory, this`affection, this`satiety, this`energy, this`lastEnergyDecay,
               this`auraUntil, this`moonUntil, this`berryUntil, this`berryCharges, this`cookieUntil
      ensures Row() == Eaten(old(Row()), food, now)
    {
      hide FoodRuleOf, Boosted, Energized;
      var rule := FoodRuleOf(food);
      inventory := inventory[food := Stock(Row(), food) - 1];
      affection := Min(100, affection + rule.affection);
      satiety := Min(100, satiety + rule.satiety);
      RaiseEnergy(food, rule, now);
      StartBonus(food, rule, now);
    }

    method RaiseEnergy(food: Food, rule: FoodRule, now: int)
      requires rule == FoodRuleOf(food)
      modifies this`energy, this`lastEnergyDecay, this`auraUntil
      ensures Row() == Energized(old(Row()), food, now)
    {
      if food == Potion {
        energy := 100;
        lastEnergyDecay := now;
        auraUntil := Some(now + rule.visualSeconds * SECOND);
      } else {
        energy := Min(100, energy + rule.energy);
      }
    }

    method StartBonus(food: Food, rule: FoodRule, now: int)
      requires rule == FoodRuleOf(food)
      modifies this`moonUntil, this`berryUntil, this`berryCharges, this`cookieUntil
      ensures Row() == Boosted(old(Row()), food, now)
    {
      if food == Fish {
        moonUntil := Some(now + rule.bonusSeconds * SECOND);
      } else if food == Berry {
        berryUntil := Some(now + rule.bonusSeconds * SECOND);
        berryCharges := 1;
      } else if food == Cookie {
        cookieUntil := Some(now + rule.bonusSeconds * SECOND);
      }
    }

    // Puts the account back to where the transaction started.
    method RollBack(before: Account)
      modifies this
      ensures Model() == before
    {
      RestoreProgress(before.carly);
      RestoreNeeds(before.carly);
      RestoreTimers(before.carly);
      ledger, actions := before.ledger, before.actions;
    }

    method RestoreProgress(c: State)
      modifies this`level, this`experience, this`credits, this`inventory, this`streak,
               this`lastProductiveDay, this`version
      ensures level == c.level && experience == c.experience && credits == c.credits
              && inventory == c.inventory && streak == c.streak && lastProductiveDay == c.lastProductiveDay
              && version == c.version
    {
      level, experience, credits, inventory := c.level, c.experience, c.credits, c.inventory;
      streak, lastProductiveDay, version := c.streak, c.lastProductiveDay, c.version;
    }

    method RestoreNeeds(c: State)
      modifies this`affection, this`energy, this`satiety, this`mood, this`sleeping
      ensures affection == c.affection && energy == c.energy && satiety == c.satiety && mood == c.mood
              && sleeping == c.sleeping
    {
      affection, energy, satiety, mood, sleeping := c.affection, c.energy, c.satiety, c.mood, c.sleeping;
    }

    method RestoreTimers(c: State)
      modifies this`lastAffectionDecay, this`lastEnergyDecay, this`lastSatietyDecay, this`auraUntil,
               this`moonUntil, this`cookieUntil, this`berryUntil, this`berryCharges
      ensures lastAffectionDecay == c.lastAffectionDecay && lastEnergyDecay == c.lastEnergyDecay
              && lastSatietyDecay == c.lastSatietyDecay && auraUntil == c.auraUntil && moonUntil == c.moonUntil
              && cookieUntil == c.cookieUntil && berryUntil == c.berryUntil && berryCharges == c.berryCharges
    {
      lastAffectionDecay, lastEnergyDecay, lastSatietyDecay := c.lastAffectionDecay, c.lastEnergyDecay, c.lastSatietyDecay;
      auraUntil, moonUntil, cookieUntil := c.auraUntil, c.moonUntil, c.cookieUntil;
      berryUntil, berryCharges := c.berryUntil, c.berryCharges;
    }

    // The checks of perform_carly_action that come before any change.
    method CheckCare(action: CareAction, food: Option<Food>, clock: Clock) returns (refusal: Option<CareOutcome>)
      ensures refusal == Refusal(Row(), actions, action, food, clock)
    {
      hide InCooldown, CountActions, Name;
      var rule := ActionRuleOf(action);
      if InCooldown(actions, action, clock.now) {
        return Some(CoolingDown);
      }
      var dailyCount := CountActions(actions, Name(action), clock.today);
      if dailyCount >= rule.daily {
        return Some(DailyLimit);
      }
      if action != Sleep && action != Wake && sleeping {
        return Some(Asleep);
      }
      if action == Play && energy <= 0 {
        return Some(NoEnergy);
      }
      if action == Feed {
        if food.None? {
          return Some(InvalidFood);
        }
        if Stock(Row(), food.value) <= 0 {
          return Some(NotInStock);
        }
      }
      return None;
    }

    // An accepted care action with its log entry and its reward.
    method TakeCare(action: CareAction, food: Option<Food>, clock: Clock) returns (outcome: CareOutcome)
      requires action == Feed ==> food.Some? && Stock(Row(), food.value) > 0
      modifies this
      ensures (Model(), outcome) == CareStep(old(Model()), action, food, clock)
    {
      hide Cared, CountActions, Name, CareKey, Award, Stock;
      var dailyCount := CountActions(actions, Name(action), clock.today);
      ApplyCare(action, food, clock.now);
      var logged := actions;
      var event := RewardEvent(action);
      if event.None? {
        actions := logged + [ActionEntry(Name(action), clock.now, clock.today, 0)];
        return Done(None);
      }
      var earned := AwardCarlyReward(event.value, CareKey(action, clock.iso, dailyCount + 1), None, None, clock);
      actions := logged + [ActionEntry(Name(action), clock.now, clock.today, EarnedPoints(earned))];
      return Done(Some(earned));
    }

    /** perform_carly_action as one transaction. */
    method PerformCarlyAction(request: Request, supplied: nat, clock: Clock) returns (outcome: CareOutcome)
      modifies this
      ensures (Model(), outcome) == Perform(old(Model()), request, supplied, clock)
    {
      hide Decay, Stock, FoodRuleOf, AfterPurchase, Refusal, CareStep;
      var before := Account(Row(), ledger, actions);
      if version != supplied {
        return VersionConflict;
      }
      var _ := ApplyDecay(clock.now);
      match request {
        case BuyFood(food) =>
          outcome := InvalidFood;
          if food.Some? {
            var bought := Buy(food.value);
            outcome := if bought then Bought(food.value) else NotEnoughCredits;
          }
        case DoCare(action, food) =>
          outcome := CareOrRefuse(action, food, clock);
        case Unsupported =>
          outcome := NotSupported;
      }
      if outcome == Done(Some(KeyCollision)) {
        outcome := RewardFailed;
      }
      if !outcome.Done? && !outcome.Bought? {
        RollBack(before);
      }
    }

    method CareOrRefuse(action: CareAction, food: Option<Food>, clock: Clock) returns (outcome: CareOutcome)
      modifies this
      ensures var refusal := Refusal(old(Row()), old(actions), action, food, clock);
              if refusal.Some? then outcome == refusal.value && !outcome.Done? && !outcome.Bought?
              else (Model(), outcome) == CareStep(old(Model()), action, food, clock)
    {
      hide CareStep, InCooldown, CountActions, Name, ActionRuleOf;
      var refusal := CheckCare(action, food, clock);
      if refusal.Some? {
        return refusal.value;
      }
      outcome := TakeCare(action, food, clock);
    }

    /** The body of refresh_carly_streaks for one row. */
    method RefreshStreak(clock: Clock) returns (changed: bool)
      modifies this
      ensures Model() == old(Model()).(carly := Refreshed(old(Row()), clock))
      ensures changed <==> Row() != old(Row())
    {
      hide Decay, DecayDue;
      changed := ApplyDecay(clock.now);
      DecayDueIffChanged(old(Row()), clock.now);
      if lastProductiveDay.Some? && clock.today - lastProductiveDay.value > 1 && streak != 0 {
        streak := 0;
        version := version + 1;
        changed := true;
      }
    }
  }

  /** A due decay always shows, at least in the version. */
  lemma DecayDueIffChanged(c: State, now: int)
    ensures Decay(c, now).version == c.version + if DecayDue(c, now) then 1 else 0
    ensures DecayDue(c, now) <==> Decay(c, now) != c
  {
    hide Settle, MoodFor, WholeSteps;
  }

  /** refresh_carly_streaks over all rows; the result counts the changed ones. */
  method RefreshCarlyStreaks(accounts: seq<CarlyAccount>, clock: Clock) returns (changed: nat)
    requires forall i, j :: 0 <= i < j < |accounts| ==> accounts[i] != accounts[j]
    modifies accounts
    ensures forall i :: 0 <= i < |accounts| ==>
              accounts[i].Model() == old(accounts[i].Model()).(carly := Refreshed(old(accounts[i].Row()), clock))
    ensures changed == |set i | 0 <= i < |accounts| && accounts[i].Row() != old(accounts[i].Row())|
  {
    hide Refreshed;
    changed := 0;
    ghost var touched: set<int> := {};
    for k := 0 to |accounts|
      invariant forall i :: k <= i < |accounts| ==> accounts[i].Model() == old(accounts[i].Model())
      invariant forall i :: 0 <= i < k ==>
                  accounts[i].Model() == old(accounts[i].Model()).(carly := Refreshed(old(accounts[i].Row()), clock))
      invariant forall i :: i in touched <==> 0 <= i < k && accounts[i].Row() != old(accounts[i].Row())
      invariant changed == |touched|
    {
      var rowChanged := accounts[k].RefreshStreak(clock);
      if rowChanged {
        changed := changed + 1;
        touched := touched + {k};
      }
    }
    assert touched == set i | 0 <= i < |accounts| && accounts[i].Row() != old(accounts[i].Row());
  }
}
