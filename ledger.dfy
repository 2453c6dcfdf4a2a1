/** The progression and reward ledger of App.tsx: each handler's update of
    the `User` record (the function given to `setUser`) and of the quest and
    tier lists (the function given to `setQuests` / `setBattlePassTiers`), as
    pure functions. Every state-changing update prepends one activity. The
    clock (`Date.now()`, `new Date()`) is the parameter `now`. */
module Ledger {
  import opened Types
  import opened Strings
  import Progression

  /** The hard cap on Face Value Tickets (App.tsx:188, 203, 232). */
  const MaxFvt: int := 5
  /** Points per converted ticket (App.tsx:189, 193). */
  const FvtCost: int := 10000

  /** What every handler keeps: a positive XP cap (so the level-up loop
      terminates) and the ticket cap. */
  predicate WellFormed(u: User) {
    u.maxXp > 0 && u.fvt <= MaxFvt
  }

  predicate DistinctQuestIds(qs: seq<Quest>) {
    forall i, j :: 0 <= i < j < |qs| ==> qs[i].id != qs[j].id
  }

  predicate DistinctTiers(ts: seq<BattlePassTier>) {
    forall i, j :: 0 <= i < j < |ts| ==> ts[i].tier != ts[j].tier
  }

  /** Points spent so far. Every earning path raises `points` and
      `totalPointsEarned` together, so only spending moves this. */
  function Spent(u: User): int {
    u.totalPointsEarned - u.points
  }

  /** The fields no ledger handler writes. */
  predicate SameProfile(u: User, v: User) {
    && u.id == v.id && u.name == v.name && u.handle == v.handle
    && u.avatar == v.avatar && u.bio == v.bio && u.premium == v.premium
    && u.achievements == v.achievements && u.joinedDate == v.joinedDate
    && u.currentStreak == v.currentStreak && u.referralCount == v.referralCount
    && u.referralCode == v.referralCode
  }

  predicate SameProgress(u: User, v: User) {
    u.level == v.level && u.xp == v.xp && u.maxXp == v.maxXp
  }

  predicate SameCounters(u: User, v: User) {
    && u.questsCompleted == v.questsCompleted
    && u.totalXpEarned == v.totalXpEarned
    && u.totalPointsEarned == v.totalPointsEarned
  }

  /** `v`'s log is `u`'s with exactly `a` prepended. */
  predicate Logged(u: User, v: User, a: Activity) {
    v.recentActivity == [a] + u.recentActivity
  }

  // ---------------------------------------------------------------------
  // Activity entries

  /** An activity id: a prefix naming the handler, then the decimal clock
      reading, which reads back as that reading. */
  predicate StampedId(id: string, prefix: string, now: int) {
    prefix <= id && NumberOrZero(id[|prefix|..]) == now
  }

  /** A log amount: a signed number followed by `unit`, the number reading
      back as `n`. */
  predicate AmountReadsAs(text: string, unit: string, n: int) {
    |unit| <= |text| && text[|text| - |unit|..] == unit && NumberOrZero(text[..|text| - |unit|]) == n
  }

  lemma Stamp(prefix: string, now: int)
    ensures StampedId(prefix + IntToString(now), prefix, now)
  {
    assert (prefix + IntToString(now))[|prefix|..] == IntToString(now);
    NumberOrZeroOfIntToString(now);
  }

  /** `+n` and `-n` before a unit read back as `n` and `-n`. */
  lemma SignedAmount(n: int, unit: string)
    ensures n >= 0 ==> AmountReadsAs("+" + IntToString(n) + unit, unit, n)
    ensures n >= 0 ==> AmountReadsAs("-" + IntToString(n) + unit, unit, -n)
  {
    if n >= 0 {
      SignedTextValue(n);
      Amount("+" + IntToString(n), unit, n);
      Amount("-" + IntToString(n), unit, -n);
    }
  }

  lemma Amount(num: string, unit: string, n: int)
    requires NumberOrZero(num) == n
    ensures AmountReadsAs(num + unit, unit, n)
  {
    assert (num + unit)[..|num|] == num;
    assert (num + unit)[|num|..] == unit;
  }

  /** The log entry of a completed quest: it records the quest's points. */
  function QuestActivity(q: Quest, now: int): (a: Activity)
    ensures a.kind == QuestKind && a.timestamp == now && StampedId(a.id, "act-", now)
    ensures a.reward.Some? && AmountReadsAs(a.reward.value, " MP", q.rewardPoints)
  {
    Stamp("act-", now);
    NumberOrZeroOfIntToString(q.rewardPoints);
    Amount(IntToString(q.rewardPoints), " MP", q.rewardPoints);
    Activity("act-" + IntToString(now), QuestKind, "Completed \"" + q.title + "\"", now,
             Some(IntToString(q.rewardPoints) + " MP"))
  }

  /** The log entry of a purchase with points: a non-negative price reads
      back as the points taken. */
  function SpendActivity(amount: int, description: string, now: int): (a: Activity)
    ensures a.kind == GameKind && a.timestamp == now && StampedId(a.id, "spend-", now)
    ensures a.reward.Some? && (amount >= 0 ==> AmountReadsAs(a.reward.value, " MP", -amount))
  {
    Stamp("spend-", now);
    SignedAmount(amount, " MP");
    Activity("spend-" + IntToString(now), GameKind, "Purchased: " + description, now,
             Some("-" + IntToString(amount) + " MP"))
  }

  /** The log entry of a conversion: one ticket gained. */
  function ConvertActivity(now: int): (a: Activity)
    ensures a.kind == FvtKind && a.timestamp == now && StampedId(a.id, "fvt-conv-", now)
    ensures a.reward.Some? && AmountReadsAs(a.reward.value, " FVT", 1)
  {
    Stamp("fvt-conv-", now);
    SignedAmount(1, " FVT");
    // The reward text "+1 FVT", rendered as the other amounts are.
    Activity("fvt-conv-" + IntToString(now), FvtKind, "Converted Points to FVT", now, Some("+" + IntToString(1) + " FVT"))
  }

  /** The log entry of a ticket purchase: a non-negative count reads back as
      the tickets gained. */
  function PurchaseFvtActivity(amount: int, now: int): (a: Activity)
    ensures a.kind == FvtKind && a.timestamp == now && StampedId(a.id, "fvt-buy-", now)
    ensures a.reward.Some? && (amount >= 0 ==> AmountReadsAs(a.reward.value, " FVT", amount))
  {
    Stamp("fvt-buy-", now);
    SignedAmount(amount, " FVT");
    Activity("fvt-buy-" + IntToString(now), FvtKind,
             "Purchased " + IntToString(amount) + " Face Value Tickets", now,
             Some("+" + IntToString(amount) + " FVT"))
  }

  /** `${reward.value}`. */
  function ValueText(v: RewardValue): string {
    match v
    case Num(n) => IntToString(n)
    case Text(s) => s
  }

  /** The log entry of a claim: a points reward with a non-negative number
      reads back as the points credited; any other reward has an empty
      amount. */
  function ClaimActivity(reward: Reward, now: int): (a: Activity)
    ensures a.kind == RewardKind && a.timestamp == now && StampedId(a.id, "claim-", now)
    ensures a.reward.Some?
    ensures reward.rewardType != Mp ==> a.reward.value == ""
    ensures reward.rewardType == Mp && reward.value.Num? && reward.value.n >= 0 ==>
      AmountReadsAs(a.reward.value, " MP", RewardAmount(reward.value))
  {
    Stamp("claim-", now);
    SignedAmount(RewardAmount(reward.value), " MP");
    Activity("claim-" + IntToString(now), RewardKind, "Claimed " + reward.labelText, now,
             Some(if reward.rewardType == Mp then "+" + ValueText(reward.value) + " MP" else ""))
  }

  /** The log entry of a wheel win. The wheel credits a constant, so what
      the entry records is proved apart, in `SpinActivityReadsBack`. */
  function SpinActivity(amount: int, now: int): (a: Activity)
    ensures a.kind == GameKind && a.timestamp == now && a.reward.Some?
  {
    Activity("spin-" + IntToString(now), GameKind, "Won Daily Spin", now, Some(IntToString(amount) + " MP"))
  }

  /** The spin entry's id reads back as the clock, and its amount text as
      the points won. */
  lemma SpinActivityReadsBack(amount: int, now: int)
    ensures StampedId(SpinActivity(amount, now).id, "spin-", now)
    ensures AmountReadsAs(SpinActivity(amount, now).reward.value, " MP", amount)
  {
    Stamp("spin-", now);
    NumberOrZeroOfIntToString(amount);
    Amount(IntToString(amount), " MP", amount);
  }

  // ---------------------------------------------------------------------
  // handleCompleteQuest (App.tsx:125-160)

  /** The quest after completion: `{ ...q, completed: true, progress: q.total }`. */
  function Completed(q: Quest): (r: Quest)
    ensures r.completed && r.progress == r.total
    ensures r.id == q.id && r.rewardXp == q.rewardXp && r.rewardPoints == q.rewardPoints
  {
    q.(completed := true, progress := q.total)
  }

  /** The first element of `s` that `matches`. The handlers locate an entry
      inside `prev.map(q => q.id === id ? … : q)`, which acts on every entry
      with the key; when the keys are distinct that entry is this one. */
  function FindFirst<T>(s: seq<T>, matches: T -> bool): (r: Option<T>)
    ensures r.None? <==> forall i :: 0 <= i < |s| ==> !matches(s[i])
    ensures r.Some? ==> matches(r.value) && r.value in s
  {
    if s == [] then None
    else if matches(s[0]) then Some(s[0])
    else FindFirst(s[1..], matches)
  }

  /** The first quest with id `id`. */
  function FindQuest(qs: seq<Quest>, id: string): (r: Option<Quest>)
    ensures r.None? <==> forall i :: 0 <= i < |qs| ==> qs[i].id != id
    ensures r.Some? ==> r.value.id == id && r.value in qs
  {
    FindFirst(qs, (q: Quest) => q.id == id)
  }

  /** The `setQuests` update: every quest with id `id` completed, the others
      as they were. */
  function MarkCompleted(qs: seq<Quest>, id: string): (r: seq<Quest>)
    ensures |r| == |qs|
    ensures forall i :: 0 <= i < |qs| ==> r[i].id == qs[i].id
    ensures forall i :: 0 <= i < |qs| ==> r[i] == if qs[i].id == id then Completed(qs[i]) else qs[i]
  {
    if qs == [] then []
    else [if qs[0].id == id then Completed(qs[0]) else qs[0]] + MarkCompleted(qs[1..], id)
  }

  /** The `setUser` update for completed quest `q`. */
  function QuestRewarded(u: User, q: Quest, now: int): (r: User)
    requires u.maxXp > 0
    ensures Progression.Progress(r.level, r.xp, r.maxXp)
         == Progression.Gain(Progression.Progress(u.level, u.xp, u.maxXp), q.rewardXp)
    ensures r.xp < r.maxXp && u.level <= r.level && u.maxXp <= r.maxXp
    ensures u.xp >= 0 && q.rewardXp >= 0 ==> r.xp >= 0
    ensures r.points == u.points + q.rewardPoints && r.fvt == u.fvt
    ensures r.questsCompleted == u.questsCompleted + 1
    ensures r.totalXpEarned == u.totalXpEarned + q.rewardXp
    ensures r.totalPointsEarned == u.totalPointsEarned + q.rewardPoints
    ensures Spent(r) == Spent(u)
    ensures Logged(u, r, QuestActivity(q, now)) && SameProfile(u, r)
    ensures WellFormed(u) ==> WellFormed(r)
  {
    var p := Progression.Gain(Progression.Progress(u.level, u.xp, u.maxXp), q.rewardXp);
    u.(xp := p.xp, level := p.level, maxXp := p.maxXp,
       points := u.points + q.rewardPoints,
       questsCompleted := u.questsCompleted + 1,
       totalXpEarned := u.totalXpEarned + q.rewardXp,
       totalPointsEarned := u.totalPointsEarned + q.rewardPoints,
       recentActivity := [QuestActivity(q, now)] + u.recentActivity)
  }

  /** The whole handler: `setUser` runs only when a quest matches; the
      quest list is always mapped. Nothing rejects a quest that is already
      completed. */
  function CompleteQuest(u: User, qs: seq<Quest>, id: string, now: int): (r: (User, seq<Quest>))
    requires u.maxXp > 0
    ensures r.1 == MarkCompleted(qs, id)
    ensures FindQuest(qs, id).None? ==> r.0 == u
    ensures FindQuest(qs, id).Some? ==> r.0 == QuestRewarded(u, FindQuest(qs, id).value, now)
    ensures WellFormed(u) ==> WellFormed(r.0)
    ensures DistinctQuestIds(qs) ==> DistinctQuestIds(r.1)
  {
    var user := match FindQuest(qs, id)
      case None => u
      case Some(q) => QuestRewarded(u, q, now);
    (user, MarkCompleted(qs, id))
  }

  /** In the completed list the same quest is found again, completed, with
      the same rewards. */
  lemma {:induction false} FindQuestAfterMark(qs: seq<Quest>, id: string)
    ensures FindQuest(MarkCompleted(qs, id), id)
         == match FindQuest(qs, id) case None => None case Some(q) => Some(Completed(q))
  {
    if qs != [] {
      assert MarkCompleted(qs, id)[1..] == MarkCompleted(qs[1..], id);
      if qs[0].id != id {
        FindQuestAfterMark(qs[1..], id);
      }
    }
  }

  /** Completing the same quest twice pays its rewards twice: the handler
      has no guard against an already completed quest. */
  lemma CompleteQuestTwicePaysTwice(u: User, qs: seq<Quest>, id: string, t1: int, t2: int)
    requires u.maxXp > 0 && FindQuest(qs, id).Some?
    ensures var q := FindQuest(qs, id).value;
      var once := CompleteQuest(u, qs, id, t1);
      var twice := CompleteQuest(once.0, once.1, id, t2);
      && twice.0.points == u.points + 2 * q.rewardPoints
      && twice.0.questsCompleted == u.questsCompleted + 2
      && |twice.0.recentActivity| == |u.recentActivity| + 2
      && twice.1 == once.1
  {
    FindQuestAfterMark(qs, id);
    MarkCompletedIdempotent(qs, id);
  }

  lemma {:induction false} MarkCompletedIdempotent(qs: seq<Quest>, id: string)
    ensures MarkCompleted(MarkCompleted(qs, id), id) == MarkCompleted(qs, id)
  {
    if qs != [] {
      assert MarkCompleted(qs, id)[1..] == MarkCompleted(qs[1..], id);
      MarkCompletedIdempotent(qs[1..], id);
    }
  }

  // ---------------------------------------------------------------------
  // handleSpendPoints (App.tsx:170-179)

  /** `amount` is taken off unconditionally: the balance may go negative. */
  function SpendPoints(u: User, amount: int, description: string, now: int): (r: User)
    ensures r.points == u.points - amount && r.fvt == u.fvt
    ensures u.points < amount ==> r.points < 0
    ensures Spent(r) == Spent(u) + amount
    ensures Logged(u, r, SpendActivity(amount, description, now))
    ensures SameProfile(u, r) && SameProgress(u, r) && SameCounters(u, r)
    ensures WellFormed(u) ==> WellFormed(r)
  {
    u.(points := u.points - amount,
       recentActivity := [SpendActivity(amount, description, now)] + u.recentActivity)
  }

  // ---------------------------------------------------------------------
  // handleConvertFvt (App.tsx:187-200)

  function ConvertFvt(u: User, now: int): (r: User)
    ensures r == u <==> u.fvt >= MaxFvt || u.points < FvtCost
    ensures r != u ==> && r.points == u.points - FvtCost && r.fvt == u.fvt + 1
                       && Logged(u, r, ConvertActivity(now))
                       && SameProfile(u, r) && SameProgress(u, r) && SameCounters(u, r)
    ensures r.points + FvtCost * r.fvt == u.points + FvtCost * u.fvt
    ensures u.points >= 0 ==> r.points >= 0
    ensures u.fvt <= MaxFvt ==> r.fvt <= MaxFvt
    ensures WellFormed(u) ==> WellFormed(r)
  {
    if u.fvt >= MaxFvt then u
    else if u.points < FvtCost then u
    else u.(points := u.points - FvtCost, fvt := u.fvt + 1,
            recentActivity := [ConvertActivity(now)] + u.recentActivity)
  }

  /** 15000 points convert once to 5000; the second conversion is refused. */
  lemma ConvertTwiceFromOneAndAHalf(u: User, t1: int, t2: int)
    requires u.points == 15000 && u.fvt < MaxFvt
    ensures ConvertFvt(u, t1).points == 5000 && ConvertFvt(u, t1).fvt == u.fvt + 1
    ensures ConvertFvt(ConvertFvt(u, t1), t2) == ConvertFvt(u, t1)
  {
  }

  // ---------------------------------------------------------------------
  // handlePurchaseFvt (App.tsx:202-213)

  function PurchaseFvt(u: User, amount: int, now: int): (r: User)
    ensures r == u <==> u.fvt + amount > MaxFvt
    ensures r != u ==> && r.fvt == u.fvt + amount
                       && Logged(u, r, PurchaseFvtActivity(amount, now))
                       && SameProfile(u, r) && SameProgress(u, r) && SameCounters(u, r)
    ensures r.points == u.points
    ensures r == u || r.fvt <= MaxFvt
    ensures WellFormed(u) ==> WellFormed(r)
  {
    if u.fvt + amount > MaxFvt then u
    else u.(fvt := u.fvt + amount,
            recentActivity := [PurchaseFvtActivity(amount, now)] + u.recentActivity)
  }

  // ---------------------------------------------------------------------
  // handleClaimReward (App.tsx:216-249)

  /** `Number(reward.value) || 0`. */
  function RewardAmount(v: RewardValue): (r: int)
    ensures v.Num? ==> r == v.n
    ensures v.Text? && IsBlank(v.s) ==> r == 0
    ensures v.Text? && AllDigits(v.s) ==> r == DigitsValue(v.s)
  {
    match v
    case Num(n) => n
    case Text(s) => NumberOrZero(s)
  }

  /** A value written as the text of a number credits that number. */
  lemma RewardAmountOfText(n: int)
    ensures RewardAmount(Text(IntToString(n))) == RewardAmount(Num(n)) == n
  {
    NumberOrZeroOfIntToString(n);
  }

  function Chosen(t: BattlePassTier, isPremium: bool): Reward {
    if isPremium then t.premiumReward else t.freeReward
  }

  /** The `setUser` update of a claim: `mp` credits points and the lifetime
      total, `xp` adds XP with no roll-over, `fvt` adds one ticket clamped at
      the cap whatever the value, cosmetics change no number. */
  function ClaimEffect(u: User, reward: Reward, now: int): (r: User)
    ensures Logged(u, r, ClaimActivity(reward, now)) && SameProfile(u, r)
    ensures reward.rewardType == Mp ==>
      && r.points == u.points + RewardAmount(reward.value)
      && r.totalPointsEarned == u.totalPointsEarned + RewardAmount(reward.value)
      && r.fvt == u.fvt && SameProgress(u, r)
    ensures reward.rewardType == Xp ==>
      && r.xp == u.xp + RewardAmount(reward.value)
      && r.level == u.level && r.maxXp == u.maxXp
      && r.points == u.points && r.fvt == u.fvt && SameCounters(u, r)
    ensures reward.rewardType == Fvt ==>
      && r.fvt == (if u.fvt + 1 < MaxFvt then u.fvt + 1 else MaxFvt)
      && r.points == u.points && SameProgress(u, r) && SameCounters(u, r)
    ensures reward.rewardType in {Badge, Avatar, Banner, Sticker} ==>
      r.points == u.points && r.fvt == u.fvt && SameProgress(u, r) && SameCounters(u, r)
    ensures r.questsCompleted == u.questsCompleted && r.totalXpEarned == u.totalXpEarned
    ensures Spent(r) == Spent(u)
    ensures r.fvt <= MaxFvt || r.fvt == u.fvt
    ensures WellFormed(u) ==> WellFormed(r)
  {
    var v := RewardAmount(reward.value);
    var updated := match reward.rewardType
      case Mp => u.(points := u.points + v, totalPointsEarned := u.totalPointsEarned + v)
      case Xp => u.(xp := u.xp + v)
      case Fvt => u.(fvt := if u.fvt + 1 < MaxFvt then u.fvt + 1 else MaxFvt)
      case _ => u;
    updated.(recentActivity := [ClaimActivity(reward, now)] + u.recentActivity)
  }

  /** An `xp` claim can leave XP at or above the cap, which quest completion
      never does. */
  lemma XpClaimSkipsRollOver(u: User, reward: Reward, now: int)
    requires reward.rewardType == Xp && u.xp + RewardAmount(reward.value) >= u.maxXp
    ensures ClaimEffect(u, reward, now).xp >= ClaimEffect(u, reward, now).maxXp
  {
  }

  /** The first tier numbered `tier`. */
  function FindTier(ts: seq<BattlePassTier>, tier: int): (r: Option<BattlePassTier>)
    ensures r.None? <==> forall i :: 0 <= i < |ts| ==> ts[i].tier != tier
    ensures r.Some? ==> r.value.tier == tier && r.value in ts
  {
    FindFirst(ts, (t: BattlePassTier) => t.tier == tier)
  }

  function MarkTier(t: BattlePassTier, isPremium: bool): (r: BattlePassTier)
    ensures r.tier == t.tier && r.freeReward == t.freeReward && r.premiumReward == t.premiumReward
    ensures if isPremium then r.claimedPremium && r.claimedFree == t.claimedFree
            else r.claimedFree && r.claimedPremium == t.claimedPremium
  {
    if isPremium then t.(claimedPremium := true) else t.(claimedFree := true)
  }

  /** The `setBattlePassTiers` update: the chosen flag set on every tier
      numbered `tier`, the others as they were. */
  function MarkClaimed(ts: seq<BattlePassTier>, tier: int, isPremium: bool): (r: seq<BattlePassTier>)
    ensures |r| == |ts|
    ensures forall i :: 0 <= i < |ts| ==> r[i].tier == ts[i].tier
    ensures forall i :: 0 <= i < |ts| ==> r[i] == if ts[i].tier == tier then MarkTier(ts[i], isPremium) else ts[i]
  {
    if ts == [] then []
    else [if ts[0].tier == tier then MarkTier(ts[0], isPremium) else ts[0]] + MarkClaimed(ts[1..], tier, isPremium)
  }

  lemma {:induction false} FindTierAfterMark(ts: seq<BattlePassTier>, tier: int, isPremium: bool)
    ensures FindTier(MarkClaimed(ts, tier, isPremium), tier)
         == match FindTier(ts, tier) case None => None case Some(t) => Some(MarkTier(t, isPremium))
  {
    if ts != [] {
      assert MarkClaimed(ts, tier, isPremium)[1..] == MarkClaimed(ts[1..], tier, isPremium);
      if ts[0].tier != tier {
        FindTierAfterMark(ts[1..], tier, isPremium);
      }
    }
  }

  /** The raw handler. It checks neither the claimed flag nor the premium
      entitlement nor the level. */
  function ClaimReward(u: User, ts: seq<BattlePassTier>, tier: int, isPremium: bool, now: int)
    : (r: (User, seq<BattlePassTier>))
    ensures FindTier(ts, tier).None? ==> r == (u, ts)
    ensures FindTier(ts, tier).Some? ==>
      && r.0 == ClaimEffect(u, Chosen(FindTier(ts, tier).value, isPremium), now)
      && r.1 == MarkClaimed(ts, tier, isPremium)
    ensures WellFormed(u) ==> WellFormed(r.0)
    ensures DistinctTiers(ts) ==> DistinctTiers(r.1)
  {
    match FindTier(ts, tier)
    case None => (u, ts)
    case Some(t) => (ClaimEffect(u, Chosen(t, isPremium), now), MarkClaimed(ts, tier, isPremium))
  }

  /** Calling the raw handler twice on an `mp` slot credits it twice. */
  lemma ClaimRewardTwicePaysTwice(u: User, ts: seq<BattlePassTier>, tier: int, isPremium: bool, t1: int, t2: int)
    requires FindTier(ts, tier).Some?
    requires Chosen(FindTier(ts, tier).value, isPremium).rewardType == Mp
    ensures var v := RewardAmount(Chosen(FindTier(ts, tier).value, isPremium).value);
      var once := ClaimReward(u, ts, tier, isPremium, t1);
      var twice := ClaimReward(once.0, once.1, tier, isPremium, t2);
      && twice.0.points == u.points + 2 * v
      && |twice.0.recentActivity| == |u.recentActivity| + 2
  {
    FindTierAfterMark(ts, tier, isPremium);
  }

  // ---------------------------------------------------------------------
  // The daily spin's onWin (App.tsx:428-437)

  function SpinCredit(u: User, amount: int, now: int): (r: User)
    ensures amount <= 0 ==> r == u
    ensures amount > 0 ==>
      && r.points == u.points + amount && r.totalPointsEarned == u.totalPointsEarned + amount
      && Logged(u, r, SpinActivity(amount, now))
      && SameProfile(u, r) && SameProgress(u, r) && r.fvt == u.fvt
      && r.questsCompleted == u.questsCompleted && r.totalXpEarned == u.totalXpEarned
    ensures Spent(r) == Spent(u)
    ensures WellFormed(u) ==> WellFormed(r)
  {
    if amount > 0 then
      u.(points := u.points + amount, totalPointsEarned := u.totalPointsEarned + amount,
         recentActivity := [SpinActivity(amount, now)] + u.recentActivity)
    else u
  }

  // ---------------------------------------------------------------------
  // End-to-end

  /** Level 1 with 950 of 1000 XP and no points completes a quest worth
      100 XP and 50 points: level 2, 50 of 1200 XP, 50 points, one new
      activity. */
  lemma QuestCompletionExample(u: User, q: Quest, now: int)
    requires u.level == 1 && u.xp == 950 && u.maxXp == 1000 && u.points == 0
    requires q.rewardXp == 100 && q.rewardPoints == 50
    ensures var r := QuestRewarded(u, q, now);
      && r.level == 2 && r.xp == 50 && r.maxXp == 1200 && r.points == 50
      && |r.recentActivity| == |u.recentActivity| + 1
  {
    Progression.GainExample();
  }
}
