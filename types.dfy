/** The records of the application (types.ts): the user profile, quests,
    battle-pass tiers with their rewards, activity-log entries and chat
    messages. String unions become enumerations; optional fields become
    `Option`; dates become integer epoch milliseconds. */
module Types {

  datatype Option<T> = None | Some(value: T)

  /** `Activity.type` (types.ts:4). */
  datatype ActivityKind = QuestKind | AchievementKind | SocialKind | GameKind | FvtKind | RewardKind

  /** One entry of the most-recent-first activity log. */
  datatype Activity = Activity(
    id: string,
    kind: ActivityKind,
    description: string,
    timestamp: int,
    reward: Option<string>)

  /** The single profile the ledger works on. */
  datatype User = User(
    id: string,
    name: string,
    handle: string,
    avatar: string,
    bio: string,
    level: int,
    xp: int,
    maxXp: int,
    points: int,
    fvt: int,
    premium: bool,
    achievements: seq<string>,
    joinedDate: int,
    questsCompleted: int,
    totalXpEarned: int,
    totalPointsEarned: int,
    currentStreak: int,
    referralCount: int,
    referralCode: string,
    recentActivity: seq<Activity>)

  /** `Quest.type` (types.ts:39). */
  datatype QuestType = Daily | Weekly | Seasonal | OneTime | AiGenerated

  datatype Quest = Quest(
    id: string,
    title: string,
    description: string,
    rewardXp: int,
    rewardPoints: int,
    questType: QuestType,
    completed: bool,
    progress: int,
    total: int,
    link: Option<string>)

  /** `Reward.type` (types.ts:47): `mp`, `xp`, four cosmetics and `fvt`. */
  datatype RewardType = Mp | Xp | Badge | Avatar | Banner | Sticker | Fvt

  /** `Reward.value` is `number | string`. */
  datatype RewardValue = Num(n: int) | Text(s: string)

  datatype Reward = Reward(rewardType: RewardType, value: RewardValue, labelText: string)

  datatype BattlePassTier = BattlePassTier(
    tier: int,
    requiredXp: int,
    freeReward: Reward,
    premiumReward: Reward,
    claimedFree: bool,
    claimedPremium: bool)

  /** A chat message; a missing `isSystem` reads as false, a missing
      `channel` as `None`. */
  datatype ChatMessage = ChatMessage(
    id: string,
    user: string,
    text: string,
    timestamp: int,
    isSystem: bool,
    channel: Option<string>)
}
