/** Buying food and caring for Carly (apps/preferences/services.py,
    perform_carly_action) and the nightly streak job (apps/preferences/tasks.py). */
module Care {
  import opened Carly
  import opened Options
  import opened Rewards
  import opened Text

  datatype FoodRule = FoodRule(cost: nat, satiety: nat, affection: nat, energy: nat, bonusSeconds: nat, visualSeconds: nat)

  function FoodRuleOf(food: Food): FoodRule {
    match food
    case Fish => FoodRule(20, 25, 1, 0, 15 * 60, 2)
    case Berry => FoodRule(35, 18, 3, 0, 30 * 60, 6)
    case Cookie => FoodRule(60, 12, 7, 1, 60 * 60, 6)
    case Potion => FoodRule(100, 4, 1, 0, 0, 3)
  }

  datatype CareAction = Pet | Feed | Play | Sleep | Wake

  datatype ActionRule = ActionRule(cooldown: nat, daily: nat, affection: int, energy: int, satiety: int)

  function ActionRuleOf(action: CareAction): ActionRule {
    match action
    case Pet => ActionRule(20, 20, 2, 0, 0)
    case Feed => ActionRule(20, 12, 0, 0, 0)
    case Play => ActionRule(90, 10, 3, -8, -2)
    case Sleep => ActionRule(10, 12, 0, 0, 0)
    case Wake => ActionRule(10, 12, 0, 0, -2)
  }

  function Name(action: CareAction): string {
    match action
    case Pet => "pet"
    case Feed => "feed"
    case Play => "play"
    case Sleep => "sleep"
    case Wake => "wake"
  }

  /** The reward event of an action; sleeping and waking earn nothing. */
  function RewardEvent(action: CareAction): Option<Event> {
    match action
    case Pet => Some(PetEvent)
    case Feed => Some(FeedEvent)
    case Play => Some(PlayEvent)
    case _ => None
  }

  /** `food` is absent when the request names none or an unknown one. */
  datatype Request =
    | BuyFood(food: Option<Food>)
    | DoCare(action: CareAction, food: Option<Food>)
    | Unsupported

  datatype CareOutcome =
    | Done(reward: Option<Outcome>)
    | Bought(item: Food)
    | VersionConflict | InvalidFood | NotEnoughCredits | NotSupported
    | CoolingDown | DailyLimit | Asleep | NoEnergy | NotInStock | RewardFailed

  function Stock(c: State, food: Food): nat {
    if food in c.inventory then c.inventory[food] else 0
  }

  function Clamp(x: int): nat {
    Max(0, Min(100, x))
  }

  predicate InCooldown(actions: seq<ActionEntry>, action: CareAction, now: int) {
    exists e <- actions :: e.action == Name(action) && e.at > now - ActionRuleOf(action).cooldown * SECOND
  }

  function CountActions(actions: seq<ActionEntry>, name: string, day: int): nat {
    if actions == [] then 0
    else
      var last := actions[|actions| - 1];
      CountActions(actions[..|actions| - 1], name, day) + if last.action == name && last.day == day then 1 else 0
  }

  function CareKey(action: CareAction, iso: string, n: nat): string {
    "care:" + Name(action) + ":" + iso + ":" + Decimal(n)
  }

  /** Buying: the decayed state pays and stocks up. */
  function AfterPurchase(c: State, food: Food): State
    requires c.credits >= FoodRuleOf(food).cost
  {
    c.(inventory := c.inventory[food := Stock(c, food) + 1],
       credits := c.credits - FoodRuleOf(food).cost, version := c.version + 1)
  }

  function Nourished(c: State, food: Food): State
    requires Stock(c, food) > 0
  {
    c.(inventory := c.inventory[food := Stock(c, food) - 1],
       affection := Min(100, c.affection + FoodRuleOf(food).affection),
       satiety := Min(100, c.satiety + FoodRuleOf(food).satiety))
  }

  function Energized(c: State, food: Food, now: int): State {
    if food == Potion
    then c.(energy := 100, lastEnergyDecay := now, auraUntil := Some(now + FoodRuleOf(food).visualSeconds * SECOND))
    else c.(energy := Min(100, c.energy + FoodRuleOf(food).energy))
  }

  function Boosted(c: State, food: Food, now: int): State {
    var until := Some(now + FoodRuleOf(food).bonusSeconds * SECOND);
    match food
    case Fish => c.(moonUntil := until)
    case Berry => c.(berryUntil := until, berryCharges := 1)
    case Cookie => c.(cookieUntil := until)
    case Potion => c
  }

  function Eaten(c: State, food: Food, now: int): State
    requires Stock(c, food) > 0
  {
    Boosted(Energized(Nourished(c, food), food, now), food, now)
  }

  /** The bed: sleeping and waking restart the energy clock. */
  function Bedded(c: State, action: CareAction, now: int): State {
    match action
    case Sleep => c.(sleeping := true, lastEnergyDecay := now)
    case Wake => c.(sleeping := false, lastEnergyDecay := now)
    case _ => c
  }

  function Refusal(c: State, actions: seq<ActionEntry>, action: CareAction, food: Option<Food>, clock: Clock)
    : Option<CareOutcome>
  {
    if InCooldown(actions, action, clock.now) then Some(CoolingDown)
    else if CountActions(actions, Name(action), clock.today) >= ActionRuleOf(action).daily then Some(DailyLimit)
    else if action != Sleep && action != Wake && c.sleeping then Some(Asleep)
    else if action == Play && c.energy <= 0 then Some(NoEnergy)
    else if action == Feed && food.None? then Some(InvalidFood)
    else if action == Feed && Stock(c, food.value) <= 0 then Some(NotInStock)
    else None
  }

  function Adjusted(c: State, action: CareAction): State {
    var rule := ActionRuleOf(action);
    c.(affection := Clamp(c.affection + rule.affection), energy := Clamp(c.energy + rule.energy),
       satiety := Clamp(c.satiety + rule.satiety))
  }

  /** The state row an accepted care action saves, before its reward. */
  function Cared(c: State, action: CareAction, food: Option<Food>, now: int): State
    requires action == Feed ==> food.Some? && Stock(c, food.value) > 0
  {
    var d := Bedded(c, action, now);
    Touched(if action == Feed then Eaten(d, food.value, now) else Adjusted(d, action))
  }

  function EarnedPoints(outcome: Outcome): nat {
    if outcome.Granted? then outcome.reward.xp else 0
  }

  /** An accepted care action: save, log, reward, note the points. */
  function CareStep(a: Account, action: CareAction, food: Option<Food>, clock: Clock): (r: (Account, CareOutcome))
    requires action == Feed ==> food.Some? && Stock(a.carly, food.value) > 0
    ensures r.1.Done?
  {
    var saved := a.(carly := Cared(a.carly, action, food, clock.now));
    var entry := ActionEntry(Name(action), clock.now, clock.today, 0);
    if RewardEvent(action).None? then (saved.(actions := a.actions + [entry]), Done(None))
    else
      var key := CareKey(action, clock.iso, CountActions(a.actions, Name(action), clock.today) + 1);
      var (b, outcome) := Award(saved, RewardEvent(action).value, key, None, None, clock);
      (b.(actions := a.actions + [entry.(points := EarnedPoints(outcome))]), Done(Some(outcome)))
  }

  /** perform_carly_action: a refusal rolls the whole transaction back,
      including the decay and a failed reward insert. */
  function Perform(a: Account, request: Request, supplied: nat, clock: Clock): (Account, CareOutcome) {
    if a.carly.version != supplied then (a, VersionConflict)
    else
      var c := Decay(a.carly, clock.now);
      match request
      case BuyFood(food) =>
        if food.None? then (a, InvalidFood)
        else if c.credits < FoodRuleOf(food.value).cost then (a, NotEnoughCredits)
        else (a.(carly := AfterPurchase(c, food.value)), Bought(food.value))
      case DoCare(action, food) =>
        var refusal := Refusal(c, a.actions, action, food, clock);
        if refusal.Some? then (a, refusal.value)
        else
          var (b, outcome) := CareStep(a.(carly := c), action, food, clock);
          if outcome == Done(Some(KeyCollision)) then (a, RewardFailed) else (b, outcome)
      case Unsupported => (a, NotSupported)
  }

  /** refresh_carly_streaks for one account. */
  function Refreshed(c: State, clock: Clock): State {
    var d := Decay(c, clock.now);
    if StreakBroken(d, clock.today) then d.(streak := 0, version := d.version + 1) else d
  }

  predicate StreakBroken(c: State, today: int) {
    c.lastProductiveDay.Some? && today - c.lastProductiveDay.value > 1 && c.streak != 0
  }
}
