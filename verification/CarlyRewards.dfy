/** The reward ledger and its caps (apps/preferences/rewards.py). */
module Rewards {
  import opened Carly
  import opened Levels
  import opened Options

  const DAILY_XP_SOFT_CAP := 200
  const DAILY_XP_HARD_CAP := 300
  const DAILY_CREDIT_SOFT_CAP := 500
  const DAILY_CREDIT_HARD_CAP := 650
  const MOON_XP_BONUS := 3
  const BERRY_FOCUS_XP_BONUS := 5
  const COOKIE_PROJECT_XP_BONUS := 10
  const FULL_ENERGY_XP_BONUS := 3
  const MAX_KEY_LENGTH := 220

  datatype Event =
    | TaskCreated | TaskCompleted | SubtaskCompleted | TaskUpdated | TaskMoved
    | ProjectCreated | ProjectUpdated | ProjectCompleted
    | CommentCreated | MentionCreated | MessageSent
    | PetEvent | PlayEvent | FeedEvent | Unlisted(name: string)

  datatype Rule = Rule(xp: nat, credits: nat, fullUntil: nat)

  function RewardRule(event: Event): Option<Rule> {
    match event
    case TaskCreated => Some(Rule(3, 8, 5))
    case TaskCompleted => Some(Rule(15, 40, 5))
    case SubtaskCompleted => Some(Rule(2, 4, 10))
    case TaskUpdated => Some(Rule(1, 2, 10))
    case TaskMoved => Some(Rule(1, 2, 10))
    case ProjectCreated => Some(Rule(8, 25, 3))
    case ProjectUpdated => Some(Rule(2, 5, 8))
    case ProjectCompleted => Some(Rule(50, 150, 2))
    case CommentCreated => Some(Rule(2, 4, 10))
    case MentionCreated => Some(Rule(2, 5, 8))
    case MessageSent => Some(Rule(1, 2, 5))
    case PetEvent => Some(Rule(5, 0, 3))
    case PlayEvent => Some(Rule(8, 0, 3))
    case FeedEvent => Some(Rule(2, 0, 4))
    case Unlisted(_) => None
  }

  predicate Productive(event: Event) {
    !event.PetEvent? && !event.PlayEvent? && !event.FeedEvent? && !event.Unlisted?
  }

  predicate BerryFocusEvent(event: Event) {
    event.TaskCompleted? || event.SubtaskCompleted?
  }

  predicate CompletionEvent(event: Event) {
    event.TaskCompleted? || event.SubtaskCompleted? || event.ProjectCompleted?
  }

  datatype Effect = MoonEffect | BerryFocusEffect | CookieStarsEffect | FullEnergyEffect

  datatype Bonus = Bonus(effect: Effect, xp: nat)

  /** A ledger row. The multiplier is kept in quarters; `day` is the local date
      of its creation. */
  datatype Reward = Reward(
    event: Event, key: string, xp: nat, credits: nat, quarters: nat, bonuses: seq<Bonus>, day: int)

  function SumXp(ledger: seq<Reward>): nat {
    if ledger == [] then 0 else SumXp(ledger[..|ledger| - 1]) + ledger[|ledger| - 1].xp
  }

  function SumCredits(ledger: seq<Reward>): nat {
    if ledger == [] then 0 else SumCredits(ledger[..|ledger| - 1]) + ledger[|ledger| - 1].credits
  }

  function OfDay(ledger: seq<Reward>, day: int): seq<Reward> {
    if ledger == [] then []
    else
      var rest := OfDay(ledger[..|ledger| - 1], day);
      if ledger[|ledger| - 1].day == day then rest + [ledger[|ledger| - 1]] else rest
  }

  function XpOn(ledger: seq<Reward>, day: int): nat { SumXp(OfDay(ledger, day)) }

  function CreditsOn(ledger: seq<Reward>, day: int): nat { SumCredits(OfDay(ledger, day)) }

  function CountOf(ledger: seq<Reward>, event: Event, day: int): nat {
    if ledger == [] then 0
    else
      CountOf(ledger[..|ledger| - 1], event, day)
      + if ledger[|ledger| - 1].event == event && ledger[|ledger| - 1].day == day then 1 else 0
  }

  /** _event_multiplier, in quarters. */
  function EventQuarters(count: nat, fullUntil: nat): nat {
    if count < fullUntil then 4
    else if count < fullUntil * 2 then 2
    else if count < fullUntil * 4 then 1
    else 0
  }

  /** _daily_soft_multiplier, in quarters. */
  function DailyQuarters(current: nat, softCap: nat, hardCap: nat): nat
    requires softCap <= hardCap
  {
    if current < softCap then 4
    else if current < softCap + (hardCap - softCap) / 2 then 2
    else 1
  }

  /** _cap_reward: scaled by both multipliers, rounded down, at least one, and
      never more than what the hard cap leaves. */
  function CapReward(base: int, eventQuarters: nat, dailyQuarters: nat, remaining: int): (granted: nat)
    ensures granted == 0 <==> base <= 0 || remaining <= 0
    ensures granted <= Max(0, remaining)
    ensures base > 0 && remaining > 0 && eventQuarters == 4 && dailyQuarters == 4 ==> granted == Min(base, remaining)
  {
    if base <= 0 || remaining <= 0 then 0
    else
      var scaled := if eventQuarters == 0 then 1 else Max(1, (base * (eventQuarters * dailyQuarters)) / 16);
      Max(0, Min(scaled, remaining))
  }

  // ---------- Food bonuses ----------

  function SumBonuses(bonuses: seq<Bonus>): nat {
    if bonuses == [] then 0 else SumBonuses(bonuses[..|bonuses| - 1]) + bonuses[|bonuses| - 1].xp
  }

  predicate HasEffect(bonuses: seq<Bonus>, effect: Effect) {
    exists b <- bonuses :: b.effect == effect
  }

  function AppendBonus(bonuses: seq<Bonus>, available: nat, effect: Effect, amount: nat): seq<Bonus> {
    var applied := Min(amount, Max(0, available - SumBonuses(bonuses)));
    if applied > 0 then bonuses + [Bonus(effect, applied)] else bonuses
  }

  predicate Running(until: Option<int>, now: int) {
    until.Some? && until.value > now
  }

  function MoonBonus(c: State, now: int, available: nat): seq<Bonus> {
    if Running(c.moonUntil, now) then AppendBonus([], available, MoonEffect, MOON_XP_BONUS) else []
  }

  predicate BerryFocusReady(c: State, event: Event, now: int) {
    BerryFocusEvent(event) && c.berryCharges > 0 && Running(c.berryUntil, now)
  }

  function WithBerry(bonuses: seq<Bonus>, c: State, event: Event, now: int, available: nat): seq<Bonus> {
    if BerryFocusReady(c, event, now)
    then AppendBonus(bonuses, available, BerryFocusEffect, BERRY_FOCUS_XP_BONUS) else bonuses
  }

  function WithCookie(bonuses: seq<Bonus>, c: State, event: Event, now: int, available: nat): seq<Bonus> {
    if event.ProjectCompleted? && Running(c.cookieUntil, now)
    then AppendBonus(bonuses, available, CookieStarsEffect, COOKIE_PROJECT_XP_BONUS) else bonuses
  }

  function WithFullEnergy(bonuses: seq<Bonus>, c: State, event: Event, available: nat): seq<Bonus> {
    if CompletionEvent(event) && c.energy >= 100
    then AppendBonus(bonuses, available, FullEnergyEffect, FULL_ENERGY_XP_BONUS) else bonuses
  }

  /** _active_xp_bonuses */
  function ActiveBonuses(c: State, event: Event, now: int, available: nat): seq<Bonus> {
    WithFullEnergy(
      WithCookie(WithBerry(MoonBonus(c, now, available), c, event, now, available), c, event, now, available),
      c, event, available)
  }

  /** Whether the charge is used up: its bonus was really granted. */
  predicate ConsumesBerry(c: State, event: Event, now: int, available: nat) {
    |WithBerry(MoonBonus(c, now, available), c, event, now, available)| > |MoonBonus(c, now, available)|
  }

  // Appending one bonus: the sum stays within the room, and the list gains
  // exactly the new effect, if anything.
  lemma AppendBonusFits(bonuses: seq<Bonus>, available: nat, effect: Effect, amount: nat)
    requires SumBonuses(bonuses) <= available
    ensures var after := AppendBonus(bonuses, available, effect, amount);
            && SumBonuses(bonuses) <= SumBonuses(after) <= available
            && (|after| > |bonuses| ==> SumBonuses(after) > SumBonuses(bonuses))
            && forall e :: HasEffect(after, e) <==> HasEffect(bonuses, e) || (|after| > |bonuses| && e == effect)
  {
    var after := AppendBonus(bonuses, available, effect, amount);
    if |after| > |bonuses| {
      assert after[..|after| - 1] == bonuses;
      forall e
        ensures HasEffect(after, e) <==> HasEffect(bonuses, e) || e == effect
      {
        HasEffectLast(after, e);
      }
    }
  }

  lemma HasEffectLast(bonuses: seq<Bonus>, e: Effect)
    requires bonuses != []
    ensures HasEffect(bonuses, e)
            <==> HasEffect(bonuses[..|bonuses| - 1], e) || bonuses[|bonuses| - 1].effect == e
  {
    assert bonuses == bonuses[..|bonuses| - 1] + [bonuses[|bonuses| - 1]];
  }

  // A stage of the bonus list: it fits, and adds at most one effect, `added`.
  ghost predicate Stage(before: seq<Bonus>, after: seq<Bonus>, available: nat, added: Effect) {
    && SumBonuses(before) <= SumBonuses(after) <= available
    && (|after| > |before| ==> SumBonuses(after) > SumBonuses(before))
    && (HasEffect(after, BerryFocusEffect)
        <==> HasEffect(before, BerryFocusEffect) || (|after| > |before| && added == BerryFocusEffect))
  }

  lemma AppendIsStage(bonuses: seq<Bonus>, available: nat, effect: Effect, amount: nat)
    requires SumBonuses(bonuses) <= available
    ensures Stage(bonuses, AppendBonus(bonuses, available, effect, amount), available, effect)
    ensures Stage(bonuses, bonuses, available, effect)
  {
    AppendBonusFits(bonuses, available, effect, amount);
  }

  lemma AllStages(c: State, event: Event, now: int, available: nat)
    ensures var moon := MoonBonus(c, now, available);
            var berry := WithBerry(moon, c, event, now, available);
            var cookie := WithCookie(berry, c, event, now, available);
            && Stage([], moon, available, MoonEffect)
            && Stage(moon, berry, available, BerryFocusEffect)
            && Stage(berry, cookie, available, CookieStarsEffect)
            && Stage(cookie, ActiveBonuses(c, event, now, available), available, FullEnergyEffect)
  {
    hide AppendBonus, HasEffect;
    assert SumBonuses([]) == 0;
    hide SumBonuses;
    var moon := MoonBonus(c, now, available);
    AppendIsStage([], available, MoonEffect, MOON_XP_BONUS);
    var berry := WithBerry(moon, c, event, now, available);
    AppendIsStage(moon, available, BerryFocusEffect, BERRY_FOCUS_XP_BONUS);
    var cookie := WithCookie(berry, c, event, now, available);
    AppendIsStage(berry, available, CookieStarsEffect, COOKIE_PROJECT_XP_BONUS);
    AppendIsStage(cookie, available, FullEnergyEffect, FULL_ENERGY_XP_BONUS);
  }

  /** The food bonuses never exceed the room under the daily cap, and the focus
      charge is spent exactly when the focus bonus is among them. */
  lemma BonusesFit(c: State, event: Event, now: int, available: nat)
    ensures SumBonuses(ActiveBonuses(c, event, now, available)) <= available
    ensures ConsumesBerry(c, event, now, available)
            <==> HasEffect(ActiveBonuses(c, event, now, available), BerryFocusEffect)
    ensures ConsumesBerry(c, event, now, available) ==>
              c.berryCharges > 0 && SumBonuses(ActiveBonuses(c, event, now, available)) > 0
  {
    AllStages(c, event, now, available);
    assert !HasEffect([], BerryFocusEffect);
    hide SumBonuses, HasEffect, WithCookie, WithFullEnergy, MoonBonus, AppendBonus;
  }

  // ---------- award_carly_reward ----------

  datatype ActionEntry = ActionEntry(action: string, at: int, day: int, points: nat)

  /** A user's Carly: the state row, the reward ledger and the action log. */
  datatype Account = Account(carly: State, ledger: seq<Reward>, actions: seq<ActionEntry>)

  /** The clock as one step reads it: the time, the local date and its ISO form. */
  datatype Clock = Clock(now: int, today: int, iso: string)

  datatype Outcome =
    | Granted(reward: Reward)
    | Duplicate
    | UnknownRule
    | KeyCollision

  predicate HasKey(ledger: seq<Reward>, key: string) {
    exists r <- ledger :: r.key == key
  }

  function StoredKey(key: string): string {
    if |key| <= MAX_KEY_LENGTH then key else key[..MAX_KEY_LENGTH]
  }

  /** The ledger row an award writes, from the already decayed state. */
  function NewReward(c: State, ledger: seq<Reward>, event: Event, key: string, baseXp: int, baseCredits: int,
                     fullUntil: nat, clock: Clock): Reward
  {
    var xpToday, creditsToday := XpOn(ledger, clock.today), CreditsOn(ledger, clock.today);
    var quarters := EventQuarters(CountOf(ledger, event, clock.today), fullUntil);
    var xp := CapReward(baseXp, quarters, DailyQuarters(xpToday, DAILY_XP_SOFT_CAP, DAILY_XP_HARD_CAP),
                        DAILY_XP_HARD_CAP - xpToday);
    var bonuses := ActiveBonuses(c, event, clock.now, Max(0, DAILY_XP_HARD_CAP - xpToday - xp));
    var credits := CapReward(baseCredits, quarters,
                             DailyQuarters(creditsToday, DAILY_CREDIT_SOFT_CAP, DAILY_CREDIT_HARD_CAP),
                             DAILY_CREDIT_HARD_CAP - creditsToday);
    Reward(event, StoredKey(key), xp + SumBonuses(bonuses), credits, quarters, bonuses, clock.today)
  }

  function NextStreak(c: State, today: int): nat {
    if c.lastProductiveDay == Some(today - 1) then c.streak + 1
    else if c.lastProductiveDay != Some(today) then 1
    else c.streak
  }

  function CreditProductivity(c: State, xp: nat, clock: Clock): State {
    var d := c.(streak := NextStreak(c, clock.today), lastProductiveDay := Some(clock.today),
                affection := Min(100, c.affection + Max(1, Min(5, xp / 10))));
    if c.sleeping then d.(sleeping := false, lastEnergyDecay := clock.now) else d
  }

  function SpendBerry(c: State): State {
    var left := Max(0, c.berryCharges - 1);
    c.(berryCharges := left, berryUntil := if left == 0 then None else c.berryUntil)
  }

  function Paid(c: State, xp: nat, credits: nat): State {
    c.(experience := c.experience + xp, credits := c.credits + credits)
  }

  /** synchronize_level */
  function Levelled(c: State): State {
    c.(level := LevelOf(c.experience).level)
  }

  /** Mood and version are brought up to date before a save. */
  function Touched(c: State): State {
    c.(mood := MoodOf(c), version := c.version + 1)
  }

  /** The state row after a reward with this ledger row has been booked. */
  function Booked(c: State, reward: Reward, clock: Clock): State {
    if reward.xp == 0 && reward.credits == 0 then c
    else
      var spent := if HasEffect(reward.bonuses, BerryFocusEffect) then SpendBerry(c) else c;
      var paid := Paid(spent, reward.xp, reward.credits);
      var done := if Productive(reward.event) then CreditProductivity(paid, reward.xp, clock) else paid;
      Touched(Levelled(done))
  }

  /** Rewards need a rule, or explicit amounts. */
  predicate Payable(event: Event, xp: Option<int>, credits: Option<int>) {
    RewardRule(event).Some? || (xp.Some? && credits.Some?)
  }

  /** The row for a request: explicit amounts replace those of the rule. */
  function RequestedReward(c: State, ledger: seq<Reward>, event: Event, key: string, xp: Option<int>,
                           credits: Option<int>, clock: Clock): Reward
    requires Payable(event, xp, credits)
  {
    var rule := RewardRule(event);
    NewReward(c, ledger, event, key,
              if xp.Some? then xp.value else rule.value.xp,
              if credits.Some? then credits.value else rule.value.credits,
              if rule.Some? then rule.value.fullUntil else 5, clock)
  }

  /** award_carly_reward. Refusals and duplicates leave the account as it was;
      a key that only collides after truncation makes the insert fail and the
      transaction roll back. */
  function Award(a: Account, event: Event, key: string, xp: Option<int>, credits: Option<int>, clock: Clock)
    : (Account, Outcome)
  {
    if !Payable(event, xp, credits) then (a, UnknownRule)
    else if HasKey(a.ledger, key) then (a, Duplicate)
    else if HasKey(a.ledger, StoredKey(key)) then (a, KeyCollision)
    else
      var c := Decay(a.carly, clock.now);
      var reward := RequestedReward(c, a.ledger, event, key, xp, credits, clock);
      (a.(carly := Booked(c, reward, clock), ledger := a.ledger + [reward]), Granted(reward))
  }
}
