/** The application state of App.tsx (the `user`, `quests` and
    `battlePassTiers` hooks) as an object whose handlers update it in place.
    Each handler is one sequential transition; React's batching of setter
    calls is not modelled. */
module AppState {
  import opened Types
  import Progression
  import Ledger
  import BattlePass

  class App {
    var user: User
    var quests: seq<Quest>
    var tiers: seq<BattlePassTier>

    /** The ledger invariant: positive XP cap, at most five tickets, and
        quest ids and tier numbers that identify one entry each. */
    ghost predicate Valid()
      reads this
    {
      Ledger.WellFormed(user) && Ledger.DistinctQuestIds(quests) && Ledger.DistinctTiers(tiers)
    }

    constructor (u: User, qs: seq<Quest>, ts: seq<BattlePassTier>)
      requires Ledger.WellFormed(u) && Ledger.DistinctQuestIds(qs) && Ledger.DistinctTiers(ts)
      ensures Valid()
      ensures user == u && quests == qs && tiers == ts
    {
      user, quests, tiers := u, qs, ts;
    }

    /** `handleCompleteQuest` (App.tsx:125-160). */
    method CompleteQuest(id: string, now: int)
      requires Valid()
      modifies this
      ensures Valid()
      ensures (user, quests) == Ledger.CompleteQuest(old(user), old(quests), id, now)
      ensures tiers == old(tiers)
    {
      var found := Ledger.FindQuest(quests, id);
      if found.Some? {
        var q := found.value;
        var newLevel, newXp, newMaxXp := Progression.ApplyXpGain(user.level, user.xp, user.maxXp, q.rewardXp);
        var entry := Ledger.QuestActivity(q, now);
        ghost var expected := Ledger.QuestRewarded(user, q, now);
        user := user.(xp := newXp, level := newLevel, maxXp := newMaxXp,
                      points := user.points + q.rewardPoints,
                      questsCompleted := user.questsCompleted + 1,
                      totalXpEarned := user.totalXpEarned + q.rewardXp,
                      totalPointsEarned := user.totalPointsEarned + q.rewardPoints,
                      recentActivity := [entry] + user.recentActivity);
        assert user == expected;
      }
      quests := Ledger.MarkCompleted(quests, id);
    }

    /** `handleSpendPoints` (App.tsx:170-179). */
    method SpendPoints(amount: int, description: string, now: int)
      requires Valid()
      modifies this
      ensures Valid()
      ensures user == Ledger.SpendPoints(old(user), amount, description, now)
      ensures quests == old(quests) && tiers == old(tiers)
    {
      user := Ledger.SpendPoints(user, amount, description, now);
    }

    /** `handleConvertFvt` (App.tsx:187-200). */
    method ConvertFvt(now: int)
      requires Valid()
      modifies this
      ensures Valid()
      ensures user == Ledger.ConvertFvt(old(user), now)
      ensures quests == old(quests) && tiers == old(tiers)
    {
      user := Ledger.ConvertFvt(user, now);
    }

    /** `handlePurchaseFvt` (App.tsx:202-213). */
    method PurchaseFvt(amount: int, now: int)
      requires Valid()
      modifies this
      ensures Valid()
      ensures user == Ledger.PurchaseFvt(old(user), amount, now)
      ensures quests == old(quests) && tiers == old(tiers)
    {
      user := Ledger.PurchaseFvt(user, amount, now);
    }

    /** `handleClaimReward` (App.tsx:216-249), unguarded. */
    method ClaimReward(tier: int, isPremium: bool, now: int)
      requires Valid()
      modifies this
      ensures Valid()
      ensures (user, tiers) == Ledger.ClaimReward(old(user), old(tiers), tier, isPremium, now)
      ensures quests == old(quests)
    {
      var r := Ledger.ClaimReward(user, tiers, tier, isPremium, now);
      user, tiers := r.0, r.1;
    }

    /** A click on a tier's claim button: the view's guard
        (BattlePass.tsx:77-92, 119-134), then `handleClaimReward`. */
    method Claim(tier: int, isPremium: bool, now: int) returns (claimed: bool)
      requires Valid()
      modifies this
      ensures Valid()
      ensures claimed == BattlePass.ClaimAllowed(old(user), old(tiers), tier, isPremium)
      ensures (user, tiers) == BattlePass.Claim(old(user), old(tiers), tier, isPremium, now)
      ensures quests == old(quests)
    {
      claimed := BattlePass.ClaimAllowed(user, tiers, tier, isPremium);
      if claimed {
        ClaimReward(tier, isPremium, now);
      }
    }

    /** The `onWin` callback of the daily spin (App.tsx:428-437). */
    method CreditSpin(amount: int, now: int)
      requires Valid()
      modifies this
      ensures Valid()
      ensures user == Ledger.SpinCredit(old(user), amount, now)
      ensures quests == old(quests) && tiers == old(tiers)
    {
      if amount > 0 {
        user := Ledger.SpinCredit(user, amount, now);
      }
    }
  }
}
