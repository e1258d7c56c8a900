/** What every run of rewards, care actions, reads and nightly jobs keeps. */
module Economy {
  import opened Carly
  import opened Care
  import opened Levels
  import opened Options
  import opened Rewards

  datatype Op =
    | Earn(event: Event, key: string, xp: Option<int>, credits: Option<int>)
    | Ask(request: Request, supplied: nat)
    | Nightly
    | Read

  datatype Step = Step(op: Op, clock: Clock)

  function Apply(a: Account, s: Step): Account {
    match s.op
    case Earn(event, key, xp, credits) => Award(a, event, key, xp, credits, s.clock).0
    case Ask(request, supplied) => Perform(a, request, supplied, s.clock).0
    case Nightly => a.(carly := Refreshed(a.carly, s.clock))
    case Read => a.(carly := Decay(a.carly, s.clock.now))
  }

  function Run(created: int, steps: seq<Step>): Account {
    if steps == [] then Account(Fresh(created), [], [])
    else Apply(Run(created, steps[..|steps| - 1]), steps[|steps| - 1])
  }

  // ---------- History of a run ----------

  /** The item a step buys, if it buys one. */
  function Purchase(a: Account, s: Step): Option<Food> {
    if s.op.Ask? then
      var outcome := Perform(a, s.op.request, s.op.supplied, s.clock).1;
      if outcome.Bought? then Some(outcome.item) else None
    else None
  }

  /** The item a step feeds, if it feeds one. */
  function Meal(a: Account, s: Step): Option<Food> {
    if s.op.Ask? && s.op.request.DoCare? && s.op.request.action == Feed
       && Perform(a, s.op.request, s.op.supplied, s.clock).1.Done?
    then s.op.request.food else None
  }

  function CostOf(item: Option<Food>): nat {
    if item.Some? then FoodRuleOf(item.value).cost else 0
  }

  function One(item: Option<Food>, food: Food): nat {
    if item == Some(food) then 1 else 0
  }

  function Purchases(created: int, steps: seq<Step>, food: Food): nat {
    if steps == [] then 0
    else
      var n := |steps| - 1;
      Purchases(created, steps[..n], food) + One(Purchase(Run(created, steps[..n]), steps[n]), food)
  }

  function Spent(created: int, steps: seq<Step>): nat {
    if steps == [] then 0
    else
      var n := |steps| - 1;
      Spent(created, steps[..n]) + CostOf(Purchase(Run(created, steps[..n]), steps[n]))
  }

  function Meals(created: int, steps: seq<Step>, food: Food): nat {
    if steps == [] then 0
    else
      var n := |steps| - 1;
      Meals(created, steps[..n], food) + One(Meal(Run(created, steps[..n]), steps[n]), food)
  }

  function BerryBonuses(ledger: seq<Reward>): nat {
    if ledger == [] then 0
    else BerryBonuses(ledger[..|ledger| - 1]) + if HasEffect(ledger[|ledger| - 1].bonuses, BerryFocusEffect) then 1 else 0
  }

  // ---------- The effect of one step on the books ----------

  /** The part of the row that decay never touches. */
  ghost predicate SameBooks(c: State, d: State) {
    && c.experience == d.experience && c.credits == d.credits && c.inventory == d.inventory
    && c.berryCharges == d.berryCharges && c.level == d.level
    && c.streak == d.streak && c.lastProductiveDay == d.lastProductiveDay
  }

  lemma DecayKeepsBooks(c: State, now: int)
    ensures SameBooks(c, Decay(c, now))
  {
    hide Settle, DecayDue, MoodOf;
  }

  /** What a booked reward row does to the state row. */
  ghost predicate BooksReward(c: State, d: State, reward: Reward) {
    && d.experience == c.experience + reward.xp && d.credits == c.credits + reward.credits
    && d.inventory == c.inventory
    && (HasEffect(reward.bonuses, BerryFocusEffect) ==> c.berryCharges > 0)
    && d.berryCharges == c.berryCharges - (if HasEffect(reward.bonuses, BerryFocusEffect) then 1 else 0)
    && (c.level == LevelOf(c.experience).level ==> d.level == LevelOf(d.experience).level)
  }

  /** A ledger row that fits the day's caps and the charges at hand. */
  ghost predicate Fits(c: State, ledger: seq<Reward>, reward: Reward) {
    && reward.xp <= Max(0, DAILY_XP_HARD_CAP - XpOn(ledger, reward.day))
    && reward.credits <= Max(0, DAILY_CREDIT_HARD_CAP - CreditsOn(ledger, reward.day))
    && (HasEffect(reward.bonuses, BerryFocusEffect) ==> c.berryCharges > 0 && reward.xp > 0)
  }

  lemma NewRewardFits(c: State, ledger: seq<Reward>, event: Event, key: string, baseXp: int, baseCredits: int,
                      fullUntil: nat, clock: Clock)
    ensures var reward := NewReward(c, ledger, event, key, baseXp, baseCredits, fullUntil, clock);
            && reward.day == clock.today && reward.event == event && reward.key == StoredKey(key)
            && Fits(c, ledger, reward)
  {
    hide CapReward, EventQuarters, DailyQuarters, CountOf, XpOn, CreditsOn, ActiveBonuses, SumBonuses, HasEffect, StoredKey;
    var xpToday := XpOn(ledger, clock.today);
    var quarters := EventQuarters(CountOf(ledger, event, clock.today), fullUntil);
    var xp := CapReward(baseXp, quarters, DailyQuarters(xpToday, DAILY_XP_SOFT_CAP, DAILY_XP_HARD_CAP),
                        DAILY_XP_HARD_CAP - xpToday);
    BonusesFit(c, event, clock.now, Max(0, DAILY_XP_HARD_CAP - xpToday - xp));
  }

  lemma BookedBooks(c: State, d: State, reward: Reward, clock: Clock)
    requires SameBooks(c, d)
    requires HasEffect(reward.bonuses, BerryFocusEffect) ==> d.berryCharges > 0 && reward.xp > 0
    ensures BooksReward(c, Booked(d, reward, clock), reward)
  {
    hide MoodOf, LevelOf, NextStreak, HasEffect, Productive;
  }

  /** An award that is granted adds exactly its ledger row, and books it; any
      other answer leaves the account untouched. */
  lemma AwardEffect(a: Account, event: Event, key: string, xp: Option<int>, credits: Option<int>, clock: Clock)
    ensures var (b, outcome) := Award(a, event, key, xp, credits, clock);
            if outcome.Granted? then
              && b.ledger == a.ledger + [outcome.reward] && b.actions == a.actions
              && !HasKey(a.ledger, outcome.reward.key) && outcome.reward.key == StoredKey(key)
              && outcome.reward.day == clock.today && outcome.reward.event == event
              && Fits(a.carly, a.ledger, outcome.reward)
              && b.carly == Booked(Decay(a.carly, clock.now), outcome.reward, clock)
              && BooksReward(a.carly, b.carly, outcome.reward)
            else b == a
  {
    hide Decay, NewReward, Booked, LevelOf, HasKey, StoredKey, XpOn, CreditsOn, HasEffect;
    if Payable(event, xp, credits) {
      var c := Decay(a.carly, clock.now);
      var rule := RewardRule(event);
      DecayKeepsBooks(a.carly, clock.now);
      NewRewardFits(c, a.ledger, event, key,
                    if xp.Some? then xp.value else rule.value.xp,
                    if credits.Some? then credits.value else rule.value.credits,
                    if rule.Some? then rule.value.fullUntil else 5, clock);
      BookedBooks(a.carly, c, RequestedReward(c, a.ledger, event, key, xp, credits, clock), clock);
      hide RewardRule;
    }
  }

  // ---------- Conservation ----------

  function StartStock(food: Food): nat { if food == Fish then 1 else 0 }

  /** The books of an account against what its run has spent, bought and fed. */
  ghost predicate Balanced(a: Account, spent: nat, food: Food, bought: nat, fed: nat) {
    && a.carly.experience == SumXp(a.ledger)
    && a.carly.credits + spent == 40 + SumCredits(a.ledger)
    && Stock(a.carly, food) + fed == StartStock(food) + bought
    && a.carly.level == LevelOf(a.carly.experience).level
  }

  ghost predicate BerryCovered(a: Account, berriesFed: nat) {
    BerryBonuses(a.ledger) + a.carly.berryCharges <= berriesFed
  }

  lemma LedgerGrows(ledger: seq<Reward>, r: Reward)
    ensures SumXp(ledger + [r]) == SumXp(ledger) + r.xp
    ensures SumCredits(ledger + [r]) == SumCredits(ledger) + r.credits
    ensures BerryBonuses(ledger + [r])
         == BerryBonuses(ledger) + if HasEffect(r.bonuses, BerryFocusEffect) then 1 else 0
  {
    assert (ledger + [r])[..|ledger|] == ledger;
  }

  lemma RewardBalances(a: Account, b: Account, r: Reward, spent: nat, food: Food, bought: nat, fed: nat, berries: nat)
    requires b.ledger == a.ledger + [r] && BooksReward(a.carly, b.carly, r)
    requires Balanced(a, spent, food, bought, fed) && BerryCovered(a, berries)
    ensures Balanced(b, spent, food, bought, fed) && BerryCovered(b, berries)
  {
    LedgerGrows(a.ledger, r);
    hide SumXp, SumCredits, BerryBonuses, LevelOf, HasEffect;
  }

  lemma AwardBalances(a: Account, event: Event, key: string, xp: Option<int>, credits: Option<int>, clock: Clock,
                      spent: nat, food: Food, bought: nat, fed: nat, berries: nat)
    requires Balanced(a, spent, food, bought, fed) && BerryCovered(a, berries)
    ensures var b := Award(a, event, key, xp, credits, clock).0;
            Balanced(b, spent, food, bought, fed) && BerryCovered(b, berries)
  {
    AwardEffect(a, event, key, xp, credits, clock);
    hide Award;
    var (b, outcome) := Award(a, event, key, xp, credits, clock);
    if outcome.Granted? {
      RewardBalances(a, b, outcome.reward, spent, food, bought, fed, berries);
    }
  }

  /** Care leaves money and experience alone; feeding takes one item of stock
      and only a berry loads a charge. */
  lemma CaredBooks(c: State, action: CareAction, food: Option<Food>, now: int)
    requires action == Feed ==> food.Some? && Stock(c, food.value) > 0
    ensures var d := Cared(c, action, food, now);
            && d.experience == c.experience && d.credits == c.credits && d.level == c.level
            && d.streak == c.streak && d.lastProductiveDay == c.lastProductiveDay
            && (forall f :: Stock(d, f) == Stock(c, f) - (if action == Feed && food.value == f then 1 else 0))
            && d.berryCharges == (if action == Feed && food.value == Berry then 1 else c.berryCharges)
            && d.mood == MoodOf(d)
  {
    hide Clamp;
  }

  lemma CareStepBalances(a: Account, action: CareAction, eaten: Option<Food>, clock: Clock,
                         spent: nat, food: Food, bought: nat, fed: nat, berries: nat)
    requires action == Feed ==> eaten.Some? && Stock(a.carly, eaten.value) > 0
    requires Balanced(a, spent, food, bought, fed) && BerryCovered(a, berries)
    ensures var b := CareStep(a, action, eaten, clock).0;
            && Balanced(b, spent, food, bought, fed + if action == Feed && eaten.value == food then 1 else 0)
            && BerryCovered(b, berries + if action == Feed && eaten.value == Berry then 1 else 0)
  {
    hide Cared, Award, CareKey, CountActions, SumXp, SumCredits, BerryBonuses, LevelOf, MoodOf;
    CaredBooks(a.carly, action, eaten, clock.now);
    var saved := a.(carly := Cared(a.carly, action, eaten, clock.now));
    var fedNow := fed + if action == Feed && eaten.value == food then 1 else 0;
    var berriesNow := berries + if action == Feed && eaten.value == Berry then 1 else 0;
    assert Balanced(saved, spent, food, bought, fedNow) && BerryCovered(saved, berriesNow);
    if RewardEvent(action).Some? {
      var key := CareKey(action, clock.iso, CountActions(a.actions, Name(action), clock.today) + 1);
      AwardBalances(saved, RewardEvent(action).value, key, None, None, clock, spent, food, bought, fedNow, berriesNow);
    }
    hide RewardEvent, Name;
  }

  lemma PerformBalances(a: Account, request: Request, supplied: nat, clock: Clock,
                        spent: nat, food: Food, bought: nat, fed: nat, berries: nat)
    requires Balanced(a, spent, food, bought, fed) && BerryCovered(a, berries)
    ensures var s := Step(Ask(request, supplied), clock);
            var b := Perform(a, request, supplied, clock).0;
            && Balanced(b, spent + CostOf(Purchase(a, s)), food, bought + One(Purchase(a, s), food),
                        fed + One(Meal(a, s), food))
            && BerryCovered(b, berries + One(Meal(a, s), Berry))
  {
    hide Decay, SumXp, SumCredits, BerryBonuses, LevelOf, CareStep, Name, Balanced, BerryCovered, FoodRuleOf, AfterPurchase, Refusal;
    var decayed := a.(carly := Decay(a.carly, clock.now));
    DecayBalances(a, clock.now, spent, food, bought, fed, berries);
    if a.carly.version == supplied {
      match request
      case DoCare(action, eaten) =>
        FedItem(decayed.carly, a.actions, action, eaten, clock);
        RefusedIsNothing(decayed.carly, a.actions, action, eaten, clock);
        if Refusal(decayed.carly, a.actions, action, eaten, clock).None? {
          CareStepBalances(decayed, action, eaten, clock, spent, food, bought, fed, berries);
        }
      case BuyFood(item) =>
        if item.Some? && decayed.carly.credits >= FoodRuleOf(item.value).cost {
          PurchaseBalances(decayed, item.value, spent, food, bought, fed, berries);
        }
      case Unsupported =>
    }
  }

  lemma DecayBalances(a: Account, now: int, spent: nat, food: Food, bought: nat, fed: nat, berries: nat)
    requires Balanced(a, spent, food, bought, fed) && BerryCovered(a, berries)
    ensures var b := a.(carly := Decay(a.carly, now)); Balanced(b, spent, food, bought, fed) && BerryCovered(b, berries)
  {
    hide Decay, SumXp, SumCredits, BerryBonuses, LevelOf;
    DecayKeepsBooks(a.carly, now);
  }

  lemma RefusedIsNothing(c: State, actions: seq<ActionEntry>, action: CareAction, eaten: Option<Food>, clock: Clock)
    ensures var refusal := Refusal(c, actions, action, eaten, clock);
            refusal.Some? ==> !refusal.value.Done? && !refusal.value.Bought?
  {
    hide InCooldown, CountActions, ActionRuleOf;
  }

  lemma FedItem(c: State, actions: seq<ActionEntry>, action: CareAction, eaten: Option<Food>, clock: Clock)
    ensures Refusal(c, actions, action, eaten, clock).None? && action == Feed ==> eaten.Some? && Stock(c, eaten.value) > 0
  {
    hide InCooldown, CountActions, ActionRuleOf;
  }

  lemma PurchaseBalances(a: Account, item: Food, spent: nat, food: Food, bought: nat, fed: nat, berries: nat)
    requires Balanced(a, spent, food, bought, fed) && BerryCovered(a, berries) && a.carly.credits >= FoodRuleOf(item).cost
    ensures var b := a.(carly := AfterPurchase(a.carly, item));
            && Balanced(b, spent + CostOf(Some(item)), food, bought + One(Some(item), food), fed)
            && BerryCovered(b, berries)
  {
    hide SumXp, SumCredits, BerryBonuses, LevelOf, MoodOf;
  }

  lemma StepBalances(a: Account, s: Step, spent: nat, food: Food, bought: nat, fed: nat, berries: nat)
    requires Balanced(a, spent, food, bought, fed) && BerryCovered(a, berries)
    ensures Balanced(Apply(a, s), spent + CostOf(Purchase(a, s)), food, bought + One(Purchase(a, s), food),
                     fed + One(Meal(a, s), food))
    ensures BerryCovered(Apply(a, s), berries + One(Meal(a, s), Berry))
  {
    hide Decay, Award, Perform, SumXp, SumCredits, BerryBonuses, LevelOf;
    match s.op {
      case Earn(event, key, xp, credits) =>
        AwardBalances(a, event, key, xp, credits, s.clock, spent, food, bought, fed, berries);
      case Ask(request, supplied) =>
        PerformBalances(a, request, supplied, s.clock, spent, food, bought, fed, berries);
      case Nightly => DecayKeepsBooks(a.carly, s.clock.now);
      case Read => DecayKeepsBooks(a.carly, s.clock.now);
    }
  }

  lemma FreshBalances(created: int, food: Food)
    ensures Balanced(Account(Fresh(created), [], []), 0, food, 0, 0)
    ensures BerryCovered(Account(Fresh(created), [], []), 0)
  {
    hide Splits, LevelStart;
    assert LevelOf(0) == LevelState(1, 0, 100);
  }

  /** Conservation over every run: experience is the ledger's XP, credits are
      the start plus the ledger's credits minus what was spent on food, each
      food's stock is start plus bought minus fed, the stored level is the one
      of the experience, and focus bonuses granted plus charges held never
      exceed the berries fed. */
  lemma {:induction false} RunBalances(created: int, steps: seq<Step>, food: Food)
    ensures Balanced(Run(created, steps), Spent(created, steps), food,
                     Purchases(created, steps, food), Meals(created, steps, food))
    ensures BerryCovered(Run(created, steps), Meals(created, steps, Berry))
  {
    hide Apply, Balanced, BerryCovered, Purchase, Meal, One, CostOf, Fresh;
    if steps == [] {
      FreshBalances(created, food);
    } else {
      var n := |steps| - 1;
      RunBalances(created, steps[..n], food);
      StepBalances(Run(created, steps[..n]), steps[n], Spent(created, steps[..n]), food,
                   Purchases(created, steps[..n], food), Meals(created, steps[..n], food),
                   Meals(created, steps[..n], Berry));
    }
  }

  // ---------- The ledger: caps and keys ----------

  ghost predicate WithinCaps(ledger: seq<Reward>) {
    forall day :: XpOn(ledger, day) <= DAILY_XP_HARD_CAP && CreditsOn(ledger, day) <= DAILY_CREDIT_HARD_CAP
  }

  ghost predicate DistinctKeys(ledger: seq<Reward>) {
    && (forall i :: 0 <= i < |ledger| ==> |ledger[i].key| <= MAX_KEY_LENGTH)
    && (forall i, j :: 0 <= i < j < |ledger| ==> ledger[i].key != ledger[j].key)
  }

  /** The ledger only ever grows by rows that fit the caps under a new key. */
  ghost predicate Appends(before: seq<Reward>, after: seq<Reward>, today: int) {
    after == before
    || (&& |after| == |before| + 1 && after[..|before|] == before
        && var r := after[|before|];
           && r.day == today && !HasKey(before, r.key) && |r.key| <= MAX_KEY_LENGTH
           && r.xp <= Max(0, DAILY_XP_HARD_CAP - XpOn(before, today))
           && r.credits <= Max(0, DAILY_CREDIT_HARD_CAP - CreditsOn(before, today)))
  }

  lemma AwardAppends(a: Account, event: Event, key: string, xp: Option<int>, credits: Option<int>, clock: Clock)
    ensures Appends(a.ledger, Award(a, event, key, xp, credits, clock).0.ledger, clock.today)
  {
    AwardEffect(a, event, key, xp, credits, clock);
    hide Award, XpOn, CreditsOn, HasKey;
  }

  lemma CareStepAppends(a: Account, action: CareAction, food: Option<Food>, clock: Clock)
    requires action == Feed ==> food.Some? && Stock(a.carly, food.value) > 0
    ensures Appends(a.ledger, CareStep(a, action, food, clock).0.ledger, clock.today)
  {
    hide Award, Appends, Cared, CareKey, CountActions, Name;
    var saved := a.(carly := Cared(a.carly, action, food, clock.now));
    assert Appends(a.ledger, a.ledger, clock.today) by { Unchanged(a.ledger, clock.today); }
    if RewardEvent(action).Some? {
      var key := CareKey(action, clock.iso, CountActions(a.actions, Name(action), clock.today) + 1);
      AwardAppends(saved, RewardEvent(action).value, key, None, None, clock);
    }
  }

  lemma Unchanged(ledger: seq<Reward>, today: int)
    ensures Appends(ledger, ledger, today)
  {
  }

  lemma StepAppends(a: Account, s: Step)
    ensures Appends(a.ledger, Apply(a, s).ledger, s.clock.today)
  {
    Unchanged(a.ledger, s.clock.today);
    hide Appends, Decay, Award, CareStep, InCooldown, CountActions;
    match s.op {
      case Earn(event, key, xp, credits) => AwardAppends(a, event, key, xp, credits, s.clock);
      case Ask(request, supplied) =>
        var c := Decay(a.carly, s.clock.now);
        if request.DoCare? && Refusal(c, a.actions, request.action, request.food, s.clock).None? {
          CareStepAppends(a.(carly := c), request.action, request.food, s.clock);
        }
      case Nightly =>
      case Read =>
    }
  }

  lemma OfDayGrows(ledger: seq<Reward>, r: Reward, day: int)
    ensures XpOn(ledger + [r], day) == XpOn(ledger, day) + if r.day == day then r.xp else 0
    ensures CreditsOn(ledger + [r], day) == CreditsOn(ledger, day) + if r.day == day then r.credits else 0
  {
    assert (ledger + [r])[..|ledger|] == ledger;
    LedgerGrows(OfDay(ledger, day), r);
  }

  lemma AppendsKeeps(before: seq<Reward>, after: seq<Reward>, today: int)
    requires Appends(before, after, today) && WithinCaps(before) && DistinctKeys(before)
    ensures WithinCaps(after) && DistinctKeys(after)
  {
    if after != before {
      var r := after[|before|];
      assert after == before + [r];
      hide XpOn, CreditsOn;
      forall day
        ensures XpOn(after, day) <= DAILY_XP_HARD_CAP && CreditsOn(after, day) <= DAILY_CREDIT_HARD_CAP
      {
        OfDayGrows(before, r, day);
      }
      assert forall i :: 0 <= i < |before| ==> before[i] in before;
    }
  }

  /** Over every run no day's ledger total exceeds 300 XP or 650 credits, food
      bonuses included, and no key is booked twice. */
  lemma {:induction false} RunKeepsCaps(created: int, steps: seq<Step>)
    ensures WithinCaps(Run(created, steps).ledger) && DistinctKeys(Run(created, steps).ledger)
  {
    if steps != [] {
      var n := |steps| - 1;
      RunKeepsCaps(created, steps[..n]);
      StepAppends(Run(created, steps[..n]), steps[n]);
      AppendsKeeps(Run(created, steps[..n]).ledger, Run(created, steps).ledger, steps[n].clock.today);
    }
  }

  lemma {:induction false} LedgerOnlyGrows(created: int, steps: seq<Step>, n: nat)
    requires n <= |steps|
    ensures Run(created, steps[..n]).ledger <= Run(created, steps).ledger
  {
    var m := |steps| - 1;
    if n == |steps| {
      assert steps[..n] == steps;
    } else {
      assert steps[..m][..n] == steps[..n];
      LedgerOnlyGrows(created, steps[..m], n);
      StepAppends(Run(created, steps[..m]), steps[m]);
    }
  }

  /** Idempotence: once an award was granted under a key, repeating the key
      changes nothing at any later point of the run, whatever happened in
      between. It is reported as a duplicate if and only if the key fits the
      220 characters the ledger stores. */
  lemma RepeatedKeyChangesNothing(created: int, steps: seq<Step>, n: nat, again: Op, clock: Clock)
    requires n < |steps| && steps[n].op.Earn? && again.Earn? && again.key == steps[n].op.key
    requires var s := steps[n];
             Award(Run(created, steps[..n]), s.op.event, s.op.key, s.op.xp, s.op.credits, s.clock).1.Granted?
    ensures var a := Run(created, steps);
            && Apply(a, Step(again, clock)) == a
            && (Payable(again.event, again.xp, again.credits) ==>
                  (Award(a, again.event, again.key, again.xp, again.credits, clock).1 == Duplicate
                   <==> |again.key| <= MAX_KEY_LENGTH))
  {
    var s, a := steps[n], Run(created, steps);
    AwardEffect(Run(created, steps[..n]), s.op.event, s.op.key, s.op.xp, s.op.credits, s.clock);
    assert steps[..n + 1][..n] == steps[..n];
    var r := Award(Run(created, steps[..n]), s.op.event, s.op.key, s.op.xp, s.op.credits, s.clock).1.reward;
    var ledger := Run(created, steps[..n + 1]).ledger;
    assert ledger[|ledger| - 1] == r;
    LedgerOnlyGrows(created, steps, n + 1);
    assert a.ledger[|ledger| - 1] == r && r in a.ledger;
    assert HasKey(a.ledger, StoredKey(again.key));
    RunKeepsCaps(created, steps);
    if HasKey(a.ledger, again.key) {
      var q :| q in a.ledger && q.key == again.key;
    }
  }

  // ---------- Needs and mood ----------

  ghost predicate GaugesOk(c: State) {
    c.affection <= 100 && c.energy <= 100 && c.satiety <= 100 && c.mood == MoodOf(c)
  }

  lemma DecayKeepsGauges(c: State, now: int)
    requires GaugesOk(c)
    ensures GaugesOk(Decay(c, now))
  {
    hide WholeSteps;
  }

  lemma BookedKeepsGauges(c: State, r: Reward, clock: Clock)
    requires GaugesOk(c)
    ensures GaugesOk(Booked(c, r, clock))
  {
    hide LevelOf, NextStreak, HasEffect, Productive;
  }

  lemma AwardKeepsGauges(a: Account, event: Event, key: string, xp: Option<int>, credits: Option<int>, clock: Clock)
    requires GaugesOk(a.carly)
    ensures GaugesOk(Award(a, event, key, xp, credits, clock).0.carly)
  {
    AwardEffect(a, event, key, xp, credits, clock);
    hide Award, Booked, Decay, GaugesOk, Fits, BooksReward;
    var (b, outcome) := Award(a, event, key, xp, credits, clock);
    if outcome.Granted? {
      DecayKeepsGauges(a.carly, clock.now);
      BookedKeepsGauges(Decay(a.carly, clock.now), outcome.reward, clock);
    }
  }

  lemma CaredKeepsGauges(c: State, action: CareAction, food: Option<Food>, now: int)
    requires action == Feed ==> food.Some? && Stock(c, food.value) > 0
    requires GaugesOk(c)
    ensures GaugesOk(Cared(c, action, food, now))
  {
  }

  lemma StepKeepsGauges(a: Account, s: Step)
    requires GaugesOk(a.carly)
    ensures GaugesOk(Apply(a, s).carly)
  {
    hide Decay, Award, Cared, InCooldown, CountActions, CareKey, Name;
    var c := Decay(a.carly, s.clock.now);
    DecayKeepsGauges(a.carly, s.clock.now);
    match s.op {
      case Earn(event, key, xp, credits) => AwardKeepsGauges(a, event, key, xp, credits, s.clock);
      case Ask(request, supplied) =>
        if request.DoCare? && Refusal(c, a.actions, request.action, request.food, s.clock).None? {
          var action := request.action;
          CaredKeepsGauges(c, action, request.food, s.clock.now);
          var saved := a.(carly := Cared(c, action, request.food, s.clock.now));
          if RewardEvent(action).Some? {
            var key := CareKey(action, s.clock.iso, CountActions(a.actions, Name(action), s.clock.today) + 1);
            AwardKeepsGauges(saved, RewardEvent(action).value, key, None, None, s.clock);
          }
        }
      case Nightly =>
      case Read =>
    }
  }

  /** No run trips the database's upper bounds on the needs, and the stored mood
      always fits them. */
  lemma {:induction false} RunKeepsGauges(created: int, steps: seq<Step>)
    ensures GaugesOk(Run(created, steps).carly)
  {
    if steps != [] {
      var n := |steps| - 1;
      RunKeepsGauges(created, steps[..n]);
      hide Apply, GaugesOk;
      StepKeepsGauges(Run(created, steps[..n]), steps[n]);
    }
  }

  // ---------- The streak ----------

  /** Days with a ledger row of a productive event that granted something. */
  function ProductiveDays(ledger: seq<Reward>): set<int> {
    set r | r in ledger && Productive(r.event) && (r.xp > 0 || r.credits > 0) :: r.day
  }

  /** n is the length of the maximal run of consecutive days in `days` that
      ends on `day`. */
  ghost predicate IsRunLength(days: set<int>, day: int, n: nat) {
    (forall d :: day - n < d <= day ==> d in days) && day - n !in days
  }

  /** What streak and last productive day mean in terms of the ledger, at any
      clock reading from day `seen` on. */
  ghost predicate StreakMatches(a: Account, seen: int) {
    var days := ProductiveDays(a.ledger);
    match a.carly.lastProductiveDay
    case None => days == {}
    case Some(last) =>
      && last in days && last <= seen && (forall d <- days :: d <= last)
      && if a.carly.streak == 0 then seen - last > 1 else IsRunLength(days, last, a.carly.streak)
  }

  lemma DaysGrow(ledger: seq<Reward>, r: Reward)
    ensures ProductiveDays(ledger + [r])
         == ProductiveDays(ledger) + if Productive(r.event) && (r.xp > 0 || r.credits > 0) then {r.day} else {}
  {
    hide Productive;
    assert forall q :: q in ledger + [r] <==> q in ledger || q == r;
  }

  lemma SeenLater(a: Account, seen: int, today: int)
    requires StreakMatches(a, seen) && seen <= today
    ensures StreakMatches(a, today)
  {
    hide ProductiveDays, IsRunLength;
  }

  // The three cases of the streak counter.
  lemma StreakStep(days: set<int>, c: State, today: int)
    requires c.lastProductiveDay.None? ==> days == {}
    requires c.lastProductiveDay.Some? ==>
               var last := c.lastProductiveDay.value;
               && last in days && last <= today && (forall d <- days :: d <= last)
               && if c.streak == 0 then today - last > 1 else IsRunLength(days, last, c.streak)
    ensures NextStreak(c, today) > 0
    ensures IsRunLength(days + {today}, today, NextStreak(c, today))
    ensures forall d <- days + {today} :: d <= today
  {
    if c.lastProductiveDay == Some(today) {
      assert days + {today} == days;
    }
  }

  lemma BookedStreak(c: State, r: Reward, clock: Clock)
    ensures var d := Booked(c, r, clock);
            if Productive(r.event) && (r.xp > 0 || r.credits > 0)
            then d.streak == NextStreak(c, clock.today) && d.lastProductiveDay == Some(clock.today)
            else d.streak == c.streak && d.lastProductiveDay == c.lastProductiveDay
  {
    hide LevelOf, MoodOf, HasEffect, Productive;
  }

  lemma AwardKeepsStreak(a: Account, event: Event, key: string, xp: Option<int>, credits: Option<int>, clock: Clock)
    requires StreakMatches(a, clock.today)
    ensures StreakMatches(Award(a, event, key, xp, credits, clock).0, clock.today)
  {
    AwardEffect(a, event, key, xp, credits, clock);
    hide Award, Booked, Decay, Fits, BooksReward, Productive, HasKey;
    var (b, outcome) := Award(a, event, key, xp, credits, clock);
    if outcome.Granted? {
      DecayKeepsBooks(a.carly, clock.now);
      var c, r := Decay(a.carly, clock.now), outcome.reward;
      BookedStreak(c, r, clock);
      DaysGrow(a.ledger, r);
      hide ProductiveDays;
      if Productive(r.event) && (r.xp > 0 || r.credits > 0) {
        StreakStep(ProductiveDays(a.ledger), c, clock.today);
      }
      hide IsRunLength, NextStreak;
    }
  }

  lemma StepKeepsStreak(a: Account, s: Step)
    requires StreakMatches(a, s.clock.today)
    ensures StreakMatches(Apply(a, s), s.clock.today)
  {
    hide Decay, Award, Cared, InCooldown, CountActions, CareKey, Name, ProductiveDays, IsRunLength;
    var c := Decay(a.carly, s.clock.now);
    DecayKeepsBooks(a.carly, s.clock.now);
    match s.op {
      case Earn(event, key, xp, credits) => AwardKeepsStreak(a, event, key, xp, credits, s.clock);
      case Ask(request, supplied) =>
        if request.DoCare? && Refusal(c, a.actions, request.action, request.food, s.clock).None? {
          var action := request.action;
          CaredBooks(c, action, request.food, s.clock.now);
          var saved := a.(carly := Cared(c, action, request.food, s.clock.now));
          if RewardEvent(action).Some? {
            var key := CareKey(action, s.clock.iso, CountActions(a.actions, Name(action), s.clock.today) + 1);
            AwardKeepsStreak(saved, RewardEvent(action).value, key, None, None, s.clock);
          }
        }
      case Nightly =>
      case Read =>
    }
  }

  ghost predicate DaysAscend(steps: seq<Step>) {
    forall i, j :: 0 <= i < j < |steps| ==> steps[i].clock.today <= steps[j].clock.today
  }

  lemma {:induction false} RunKeepsStreak(created: int, steps: seq<Step>)
    requires DaysAscend(steps)
    ensures steps == [] ==> Run(created, steps).carly.lastProductiveDay.None? && ProductiveDays(Run(created, steps).ledger) == {}
    ensures steps != [] ==> StreakMatches(Run(created, steps), steps[|steps| - 1].clock.today)
  {
    if steps != [] {
      var n := |steps| - 1;
      RunKeepsStreak(created, steps[..n]);
      hide Apply;
      var before := Run(created, steps[..n]);
      if n > 0 {
        SeenLater(before, steps[n - 1].clock.today, steps[n].clock.today);
      }
      StepKeepsStreak(before, steps[n]);
    }
  }

  /** The streak refines the ledger: right after a productive award that granted
      something, it is the length of the maximal run of consecutive productive
      days that ends today -- whatever nightly resets, reads and care actions
      the run contains, as long as its dates do not go backwards. */
  lemma StreakIsLedgerRun(created: int, steps: seq<Step>)
    requires steps != [] && DaysAscend(steps) && steps[|steps| - 1].op.Earn?
    requires var s := steps[|steps| - 1];
             var outcome := Award(Run(created, steps[..|steps| - 1]), s.op.event, s.op.key, s.op.xp, s.op.credits, s.clock).1;
             outcome.Granted? && Productive(s.op.event) && (outcome.reward.xp > 0 || outcome.reward.credits > 0)
    ensures var a := Run(created, steps);
            IsRunLength(ProductiveDays(a.ledger), steps[|steps| - 1].clock.today, a.carly.streak)
  {
    var n := |steps| - 1;
    var s, before := steps[n], Run(created, steps[..n]);
    RunKeepsStreak(created, steps);
    AwardEffect(before, s.op.event, s.op.key, s.op.xp, s.op.credits, s.clock);
    var r := Award(before, s.op.event, s.op.key, s.op.xp, s.op.credits, s.clock).1.reward;
    BookedStreak(Decay(before.carly, s.clock.now), r, s.clock);
    hide Award, Booked, Decay, ProductiveDays, IsRunLength;
  }

  /** On any other day the stored streak is that run for the last productive
      day, or zero once a whole day has been missed. */
  lemma StreakBetweenAwards(created: int, steps: seq<Step>)
    requires steps != [] && DaysAscend(steps)
    ensures var a := Run(created, steps);
            if a.carly.lastProductiveDay.None? then ProductiveDays(a.ledger) == {}
            else
              var last := a.carly.lastProductiveDay.value;
              && last in ProductiveDays(a.ledger)
              && (a.carly.streak == 0 ==> steps[|steps| - 1].clock.today - last > 1)
              && (a.carly.streak > 0 ==> IsRunLength(ProductiveDays(a.ledger), last, a.carly.streak))
  {
    RunKeepsStreak(created, steps);
  }

  /** The nightly job alone tells the two apart: after it, the streak is the run
      that ends today or yesterday, or zero if there was no productive day since. */
  lemma StreakAfterNight(created: int, steps: seq<Step>)
    requires steps != [] && DaysAscend(steps) && steps[|steps| - 1].op.Nightly?
    ensures var a, today := Run(created, steps), steps[|steps| - 1].clock.today;
            var days := ProductiveDays(a.ledger);
            if today in days then IsRunLength(days, today, a.carly.streak) && a.carly.streak > 0
            else if today - 1 in days then IsRunLength(days, today - 1, a.carly.streak) && a.carly.streak > 0
            else days != {} ==> a.carly.streak == 0
  {
    RunKeepsStreak(created, steps);
    var n := |steps| - 1;
    DecayKeepsBooks(Run(created, steps[..n]).carly, steps[n].clock.now);
    hide Decay, ProductiveDays, IsRunLength;
  }
}
