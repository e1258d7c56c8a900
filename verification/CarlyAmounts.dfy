/** What an award pays, in numbers (apps/preferences/rewards.py,
    award_carly_reward). */
module Amounts {
  import opened Carly
  import opened Levels
  import opened Options
  import opened Rewards

  predicate IsRepeat(r: Reward, event: Event, day: int) {
    r.event == event && r.day == day
  }

  /** The ledger rows of an event on a day. */
  function Repeats(ledger: seq<Reward>, event: Event, day: int): set<nat> {
    set i: nat | i < |ledger| && IsRepeat(ledger[i], event, day)
  }

  lemma {:induction false} CountIsRepeats(ledger: seq<Reward>, event: Event, day: int)
    ensures CountOf(ledger, event, day) == |Repeats(ledger, event, day)|
  {
    if ledger != [] {
      var n := |ledger| - 1;
      CountIsRepeats(ledger[..n], event, day);
      LastRepeat(ledger, event, day);
      hide Repeats;
    }
  }

  lemma LastRepeat(ledger: seq<Reward>, event: Event, day: int)
    requires ledger != []
    ensures var n := |ledger| - 1;
            |Repeats(ledger, event, day)|
            == |Repeats(ledger[..n], event, day)| + if ledger[n].event == event && ledger[n].day == day then 1 else 0
  {
    var n := |ledger| - 1;
    var rest, last := ledger[..n], ledger[n];
    RepeatsOfMore(rest, last, event, day);
    assert ledger == rest + [last];
    hide Repeats;
  }

  lemma RepeatsOfMore(ledger: seq<Reward>, last: Reward, event: Event, day: int)
    ensures |Repeats(ledger + [last], event, day)|
            == |Repeats(ledger, event, day)| + if last.event == event && last.day == day then 1 else 0
  {
    hide IsRepeat;
    var earlier, all := Repeats(ledger, event, day), Repeats(ledger + [last], event, day);
    if IsRepeat(last, event, day) {
      assert all == earlier + {|ledger|};
    } else {
      assert all == earlier;
    }
    assert IsRepeat(last, event, day) <==> last.event == event && last.day == day by { RepeatIs(last, event, day); }
  }

  lemma RepeatIs(r: Reward, event: Event, day: int)
    ensures IsRepeat(r, event, day) <==> r.event == event && r.day == day
  {
  }

  /** An amount before bonuses: nothing without a base or without room; the whole
      base for the first awards, then half, a quarter and in the end one; half
      and a quarter of that again once the day's total reaches the soft cap and
      the middle between the caps. Parts are rounded down, but never to nothing,
      and nothing goes beyond the room. */
  ghost predicate Pays(amount: nat, base: int, repeats: nat, full: nat, total: nat, soft: nat, middle: nat, hard: nat) {
    if base <= 0 || total >= hard then amount == 0
    else if repeats >= 4 * full then amount == 1
    else
      var slower := if repeats < full then 1 else if repeats < 2 * full then 2 else 4;
      var capped := if total < soft then 1 else if total < middle then 2 else 4;
      IsPart(amount, base, slower * capped, hard - total)
  }

  /** The divisor's part of the base, at least one and at most the room. */
  ghost predicate IsPart(amount: nat, base: int, divisor: nat, room: int) {
    && 1 <= amount <= room
    && (amount * divisor <= base || amount == 1)
    && (base < (amount + 1) * divisor || amount == room)
  }

  lemma PartsAre(base: int, divisor: nat, scaled: int, room: int)
    requires base > 0 && room > 0 && divisor >= 1 && scaled >= 0 && scaled * divisor <= base < (scaled + 1) * divisor
    ensures IsPart(Max(0, Min(Max(1, scaled), room)), base, divisor, room)
  {
    if scaled == 0 {
      FactorGrows(1, 2, divisor);
    } else if room < scaled {
      FactorGrows(room, scaled, divisor);
    }
  }

  lemma FactorGrows(a: int, b: int, d: nat)
    requires a <= b
    ensures a * d <= b * d
  {
    assert (b - a) * d >= 0;
    assert b * d == a * d + (b - a) * d;
  }

  lemma FactorLess(a: int, b: int, d: nat)
    requires a * d < b * d
    ensures a < b
  {
    if b <= a {
      FactorGrows(b, a, d);
    }
  }

  lemma SixteenthsAre(base: int, quarters: nat, divisor: nat)
    requires base > 0
    requires (quarters, divisor) in {(16, 1), (8, 2), (4, 4), (2, 8), (1, 16)}
    ensures var scaled := base * quarters / 16; scaled * divisor <= base < (scaled + 1) * divisor
  {
  }

  lemma CapPays(base: int, repeats: nat, full: nat, total: nat, soft: nat, hard: nat)
    requires soft <= hard
    ensures Pays(CapReward(base, EventQuarters(repeats, full), DailyQuarters(total, soft, hard), hard - total),
                 base, repeats, full, total, soft, soft + (hard - soft) / 2, hard)
  {
    hide IsPart, Max, Min;
    CapIs(base, EventQuarters(repeats, full), DailyQuarters(total, soft, hard), hard - total);
    if base > 0 && total < hard && repeats < 4 * full {
      var slower := if repeats < full then 1 else if repeats < 2 * full then 2 else 4;
      var capped := if total < soft then 1 else if total < soft + (hard - soft) / 2 then 2 else 4;
      QuartersPay(base, EventQuarters(repeats, full), slower, DailyQuarters(total, soft, hard), capped, hard - total);
    }
  }

  lemma CapIs(base: int, event: nat, daily: nat, room: int)
    ensures base <= 0 || room <= 0 ==> CapReward(base, event, daily, room) == 0
    ensures base > 0 && room > 0 && event == 0 ==> CapReward(base, event, daily, room) == 1
  {
  }

  lemma QuartersPay(base: int, event: nat, slower: nat, daily: nat, capped: nat, room: int)
    requires base > 0 && room > 0
    requires (event, slower) in {(4, 1), (2, 2), (1, 4)} && (daily, capped) in {(4, 1), (2, 2), (1, 4)}
    ensures IsPart(CapReward(base, event, daily, room), base, slower * capped, room)
  {
    hide IsPart, Max, Min;
    SixteenthsAre(base, event * daily, slower * capped);
    PartsAre(base, slower * capped, base * (event * daily) / 16, room);
  }

  /** The totals of a day are those of its rows. */
  lemma DayTotals(ledger: seq<Reward>, reward: Reward, day: int)
    ensures XpOn([], day) == 0 && CreditsOn([], day) == 0
    ensures XpOn(ledger + [reward], day) == XpOn(ledger, day) + if reward.day == day then reward.xp else 0
    ensures CreditsOn(ledger + [reward], day) == CreditsOn(ledger, day) + if reward.day == day then reward.credits else 0
  {
    assert (ledger + [reward])[..|ledger|] == ledger;
    var rest := OfDay(ledger, day);
    assert (rest + [reward])[..|rest|] == rest;
  }

  function BaseXp(event: Event, xp: Option<int>): int
    requires RewardRule(event).Some? || xp.Some?
  {
    if xp.Some? then xp.value else RewardRule(event).value.xp
  }

  function BaseCredits(event: Event, credits: Option<int>): int
    requires RewardRule(event).Some? || credits.Some?
  {
    if credits.Some? then credits.value else RewardRule(event).value.credits
  }

  function FullUntil(event: Event): nat {
    if RewardRule(event).Some? then RewardRule(event).value.fullUntil else 5
  }

  /** The experience of a ledger row that is not a bonus. */
  function OwnXp(reward: Reward): int {
    reward.xp - SumBonuses(reward.bonuses)
  }

  /** What every granted award pays. */
  lemma AwardPays(a: Account, event: Event, key: string, xp: Option<int>, credits: Option<int>, clock: Clock)
    requires Award(a, event, key, xp, credits, clock).1.Granted?
    ensures var (b, outcome) := Award(a, event, key, xp, credits, clock);
            var n := |Repeats(a.ledger, event, clock.today)|;
            && b.ledger == a.ledger + [outcome.reward] && b.actions == a.actions
            && outcome.reward.event == event && outcome.reward.day == clock.today
            && outcome.reward.key == (if |key| <= 220 then key else key[..220])
            && outcome.reward.quarters == (if n < FullUntil(event) then 4 else if n < 2 * FullUntil(event) then 2
                                           else if n < 4 * FullUntil(event) then 1 else 0)
            && Payable(event, xp, credits) && OwnXp(outcome.reward) >= 0
            && Pays(OwnXp(outcome.reward), BaseXp(event, xp), n, FullUntil(event), XpOn(a.ledger, clock.today), 200, 250, 300)
            && Pays(outcome.reward.credits, BaseCredits(event, credits), n, FullUntil(event),
                    CreditsOn(a.ledger, clock.today), 500, 575, 650)
  {
    hide Decay, Booked, HasKey, ActiveBonuses, SumBonuses, CountOf, XpOn, CreditsOn, CapReward, DailyQuarters, Pays, Repeats, RewardRule;
    var n := CountOf(a.ledger, event, clock.today);
    CountIsRepeats(a.ledger, event, clock.today);
    CapPays(BaseXp(event, xp), n, FullUntil(event), XpOn(a.ledger, clock.today), 200, 300);
    CapPays(BaseCredits(event, credits), n, FullUntil(event), CreditsOn(a.ledger, clock.today), 500, 650);
  }

  // ---------- Repeating pays no more ----------

  lemma LessForMore(amount: nat, later: nat, base: int, repeats: nat, repeats': nat, full: nat, total: nat, total': nat,
                    soft: nat, middle: nat, hard: nat)
    requires Pays(amount, base, repeats, full, total, soft, middle, hard)
    requires Pays(later, base, repeats', full, total', soft, middle, hard)
    requires repeats <= repeats' && total <= total' && soft <= middle
    ensures later <= amount
  {
    if base > 0 && total' < hard && repeats' < 4 * full {
      var slower := if repeats < full then 1 else if repeats < 2 * full then 2 else 4;
      var capped := if total < soft then 1 else if total < middle then 2 else 4;
      var slower' := if repeats' < full then 1 else if repeats' < 2 * full then 2 else 4;
      var capped' := if total' < soft then 1 else if total' < middle then 2 else 4;
      SmallerPart(amount, later, base, slower * capped, slower' * capped', hard - total, hard - total');
    }
  }

  lemma SmallerPart(amount: nat, later: nat, base: int, divisor: nat, divisor': nat, room: int, room': int)
    requires IsPart(amount, base, divisor, room) && IsPart(later, base, divisor', room')
    requires 1 <= divisor <= divisor' && room' <= room
    ensures later <= amount
  {
    if amount < room && later > 1 {
      FactorGrows(divisor, divisor', amount + 1);
      assert (amount + 1) * divisor == divisor * (amount + 1) && (amount + 1) * divisor' == divisor' * (amount + 1);
      FactorLess(later, amount + 1, divisor');
    }
  }

  lemma {:induction false} OfDayGrows(ledger: seq<Reward>, more: seq<Reward>, day: int)
    ensures OfDay(ledger + more, day) == OfDay(ledger, day) + OfDay(more, day)
  {
    if more == [] {
      assert ledger + more == ledger;
    } else {
      var n := |more| - 1;
      OfDayGrows(ledger, more[..n], day);
      assert (ledger + more)[..|ledger + more| - 1] == ledger + more[..n];
      assert OfDay(ledger, day) + (OfDay(more[..n], day) + [more[n]]) == OfDay(ledger, day) + OfDay(more[..n], day) + [more[n]];
    }
  }

  lemma {:induction false} SumsGrow(a: seq<Reward>, b: seq<Reward>)
    ensures SumXp(a + b) == SumXp(a) + SumXp(b) && SumCredits(a + b) == SumCredits(a) + SumCredits(b)
  {
    if b == [] {
      assert a + b == a;
    } else {
      SumsGrow(a, b[..|b| - 1]);
      assert (a + b)[..|a + b| - 1] == a + b[..|b| - 1];
    }
  }

  lemma RepeatsGrow(ledger: seq<Reward>, more: seq<Reward>, event: Event, day: int)
    ensures |Repeats(ledger, event, day)| <= |Repeats(ledger + more, event, day)|
  {
    var fewer, all := Repeats(ledger, event, day), Repeats(ledger + more, event, day);
    assert all == fewer + (all - fewer);
  }

  /** The same event with the same amounts, later on the same day, never earns
      more before bonuses, whatever was booked in between. */
  lemma RepeatNeverEarnsMore(a: Account, b: Account, more: seq<Reward>, event: Event, key: string, key': string,
                             xp: Option<int>, credits: Option<int>, clock: Clock, clock': Clock)
    requires b.ledger == a.ledger + more && clock'.today == clock.today
    requires Award(a, event, key, xp, credits, clock).1.Granted? && Award(b, event, key', xp, credits, clock').1.Granted?
    ensures var first, second := Award(a, event, key, xp, credits, clock).1.reward, Award(b, event, key', xp, credits, clock').1.reward;
            OwnXp(second) <= OwnXp(first) && second.credits <= first.credits
  {
    hide Award, Pays, Repeats, RewardRule;
    AwardPays(a, event, key, xp, credits, clock);
    AwardPays(b, event, key', xp, credits, clock');
    RepeatsGrow(a.ledger, more, event, clock.today);
    OfDayGrows(a.ledger, more, clock.today);
    SumsGrow(OfDay(a.ledger, clock.today), OfDay(more, clock.today));
    var first, second := Award(a, event, key, xp, credits, clock).1.reward, Award(b, event, key', xp, credits, clock').1.reward;
    var n, n' := |Repeats(a.ledger, event, clock.today)|, |Repeats(b.ledger, event, clock.today)|;
    LessForMore(OwnXp(first), OwnXp(second), BaseXp(event, xp), n, n', FullUntil(event),
                XpOn(a.ledger, clock.today), XpOn(b.ledger, clock.today), 200, 250, 300);
    LessForMore(first.credits, second.credits, BaseCredits(event, credits), n, n', FullUntil(event),
                CreditsOn(a.ledger, clock.today), CreditsOn(b.ledger, clock.today), 500, 575, 650);
  }

  // ---------- Bonuses ----------

  function Due(applies: bool, amount: nat): nat {
    if applies then amount else 0
  }

  lemma AppendedIs(bonuses: seq<Bonus>, available: nat, effect: Effect, amount: nat, sum: nat)
    requires SumBonuses(bonuses) == Min(available, sum) && amount > 0
    ensures var after := AppendBonus(bonuses, available, effect, amount);
            && SumBonuses(after) == Min(available, sum + amount)
            && forall e :: HasEffect(after, e) <==> HasEffect(bonuses, e) || (e == effect && available > sum)
  {
    var after := AppendBonus(bonuses, available, effect, amount);
    AppendBonusFits(bonuses, available, effect, amount);
    if available > sum {
      assert after[..|after| - 1] == bonuses;
    }
    hide HasEffect;
  }

  /** Which bonuses there are: moon, focus, cookie and full energy come in this
      order as long as there is room, and what they give together is what is due
      or the room. */
  lemma BonusesAre(c: State, event: Event, now: int, available: nat)
    ensures var bonuses := ActiveBonuses(c, event, now, available);
            var finished := event.TaskCompleted? || event.SubtaskCompleted?;
            var moon := Due(c.moonUntil.Some? && now < c.moonUntil.value, 3);
            var focus := Due(finished && c.berryCharges > 0 && c.berryUntil.Some? && now < c.berryUntil.value, 5);
            var cookie := Due(event.ProjectCompleted? && c.cookieUntil.Some? && now < c.cookieUntil.value, 10);
            var energy := Due((finished || event.ProjectCompleted?) && c.energy >= 100, 3);
            && SumBonuses(bonuses) == Min(available, moon + focus + cookie + energy)
            && (HasEffect(bonuses, MoonEffect) <==> moon > 0 && available > 0)
            && (HasEffect(bonuses, BerryFocusEffect) <==> focus > 0 && available > moon)
            && (HasEffect(bonuses, CookieStarsEffect) <==> cookie > 0 && available > moon + focus)
            && (HasEffect(bonuses, FullEnergyEffect) <==> energy > 0 && available > moon + focus + cookie)
  {
    hide AppendBonus, SumBonuses, HasEffect;
    NoBonuses();
    var moon := Due(Running(c.moonUntil, now), 3);
    AppendedIs([], available, MoonEffect, 3, 0);
    var first := MoonBonus(c, now, available);
    var focus := Due(BerryFocusReady(c, event, now), 5);
    AppendedIs(first, available, BerryFocusEffect, 5, moon);
    var second := WithBerry(first, c, event, now, available);
    var cookie := Due(event.ProjectCompleted? && Running(c.cookieUntil, now), 10);
    AppendedIs(second, available, CookieStarsEffect, 10, moon + focus);
    var third := WithCookie(second, c, event, now, available);
    AppendedIs(third, available, FullEnergyEffect, 3, moon + focus + cookie);
  }

  lemma NoBonuses()
    ensures SumBonuses([]) == 0 && forall e :: !HasEffect([], e)
  {
  }

  // ---------- The row ----------

  /** The row after an award, its experience and credits included. */
  ghost predicate PaidOut(c: State, d: State, reward: Reward, clock: Clock) {
    var productive := !(reward.event.PetEvent? || reward.event.PlayEvent? || reward.event.FeedEvent? || reward.event.Unlisted?);
    var spent := HasEffect(reward.bonuses, BerryFocusEffect) && c.berryCharges > 0;
    && d.experience == c.experience + reward.xp && d.credits == c.credits + reward.credits
    && d.level == LevelOf(d.experience).level && d.version == c.version + 1 && d.mood == MoodOf(d)
    && d.inventory == c.inventory && d.energy == c.energy && d.satiety == c.satiety
    && d.affection == (if productive then Min(100, c.affection + Max(1, Min(5, reward.xp / 10))) else c.affection)
    && d.lastProductiveDay == (if productive then Some(clock.today) else c.lastProductiveDay)
    && d.streak == (if !productive || c.lastProductiveDay == Some(clock.today) then c.streak
                    else if c.lastProductiveDay == Some(clock.today - 1) then c.streak + 1 else 1)
    && d.sleeping == (c.sleeping && !productive)
    && d.lastEnergyDecay == (if productive && c.sleeping then clock.now else c.lastEnergyDecay)
    && d.lastAffectionDecay == c.lastAffectionDecay && d.lastSatietyDecay == c.lastSatietyDecay
    && d.berryCharges == (if spent then c.berryCharges - 1 else c.berryCharges)
    && d.berryUntil == (if HasEffect(reward.bonuses, BerryFocusEffect) && d.berryCharges == 0 then None else c.berryUntil)
    && d.moonUntil == c.moonUntil && d.cookieUntil == c.cookieUntil && d.auraUntil == c.auraUntil
  }

  lemma BookedPays(c: State, reward: Reward, clock: Clock)
    requires reward.xp != 0 || reward.credits != 0
    ensures PaidOut(c, Booked(c, reward, clock), reward, clock)
  {
    hide HasEffect, LevelOf, MoodFor, SpendBerry, CreditProductivity, NextStreak, Max, Min;
    var spent := if HasEffect(reward.bonuses, BerryFocusEffect) then SpendBerry(c) else c;
    BerrySpent(c);
    ProductivityCredited(Paid(spent, reward.xp, reward.credits), reward.xp, clock);
  }

  lemma BerrySpent(c: State)
    ensures SpendBerry(c) == c.(berryCharges := if c.berryCharges > 0 then c.berryCharges - 1 else 0,
                                berryUntil := if c.berryCharges <= 1 then None else c.berryUntil)
  {
  }

  lemma ProductivityCredited(c: State, xp: nat, clock: Clock)
    ensures CreditProductivity(c, xp, clock)
         == c.(streak := if c.lastProductiveDay == Some(clock.today) then c.streak
                         else if c.lastProductiveDay == Some(clock.today - 1) then c.streak + 1 else 1,
               lastProductiveDay := Some(clock.today), affection := Min(100, c.affection + Max(1, Min(5, xp / 10))),
               sleeping := false, lastEnergyDecay := if c.sleeping then clock.now else c.lastEnergyDecay)
  {
  }

  /** What a granted award does to Carly's row. */
  lemma AwardedRow(a: Account, event: Event, key: string, xp: Option<int>, credits: Option<int>, clock: Clock)
    requires Award(a, event, key, xp, credits, clock).1.Granted?
    ensures var (b, outcome) := Award(a, event, key, xp, credits, clock);
            var reward := outcome.reward;
            if reward.xp == 0 && reward.credits == 0 then b.carly == Decay(a.carly, clock.now)
            else PaidOut(Decay(a.carly, clock.now), b.carly, reward, clock)
  {
    hide Decay, HasKey, RequestedReward, PaidOut, Booked;
    var c, reward := Decay(a.carly, clock.now), Award(a, event, key, xp, credits, clock).1.reward;
    NothingBooked(c, reward, clock);
    if reward.xp != 0 || reward.credits != 0 {
      BookedPays(c, reward, clock);
    }
  }

  lemma NothingBooked(c: State, reward: Reward, clock: Clock)
    ensures reward.xp == 0 && reward.credits == 0 ==> Booked(c, reward, clock) == c
  {
  }

  /** Every event but an unlisted one has a rule; amounts given with the request do
      without. A key pays once, and a longer one collides with its stored part. */
  lemma AwardAnswers(a: Account, event: Event, key: string, xp: Option<int>, credits: Option<int>, clock: Clock)
    ensures var outcome := Award(a, event, key, xp, credits, clock).1;
            var paysNothing := event.Unlisted? && (xp.None? || credits.None?);
            var booked := exists r <- a.ledger :: r.key == key;
            && (outcome.UnknownRule? <==> paysNothing)
            && (outcome.Duplicate? <==> !paysNothing && booked)
            && (outcome.KeyCollision? <==> !paysNothing && !booked && |key| > 220 && exists r <- a.ledger :: r.key == key[..220])
            && (outcome.Granted? <==> !paysNothing && !booked && (|key| <= 220 || forall r <- a.ledger :: r.key != key[..220]))
  {
    hide Decay, RequestedReward, Booked;
  }
}
