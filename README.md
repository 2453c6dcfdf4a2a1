# mom3ntum fan ledger in Dafny

mom3ntum is a fan-engagement web app. A fan completes quests and earns XP
and Mom3ntum Points (MP). XP raises their level. Points buy arcade items and
Face Value Tickets (FVT, at most five). Reaching a level unlocks the free and
premium rewards of a seasonal journey (the battle pass). Beside that there is
a daily spin wheel, a global leaderboard and a channel chat.

This project models the logic of that app and proves properties of it:

- `Types` gives the records of `types.ts` as datatypes.
- `Progression` is the level-up loop of quest completion. It is a `while`
  method proved equal to a recursive function. A closed form pins that
  function down: how many levels are gained, what they cost, and the new cap.
- `Ledger` is the `User` update of every handler in `App.tsx`, as pure
  functions, together with the quest-list and tier-list updates.
- `AppState.App` is the application state (`user`, `quests`, tiers) as an
  object. Its handler methods update the state in place, keep the ledger
  invariant (positive XP cap, at most five tickets, distinct quest ids and
  tier numbers), and are proved equal to the `Ledger` functions.
- `BattlePass` covers the unlock and claim-enable rules of the journey view,
  and the guarded claim they make of the raw handler.
- `Arcade` covers the purchase confirmation (`ArcadeView`) and the spin
  wheel (`Wheel`), both as classes over the component state.
- `Leaderboard` is the sort-and-rerank of the leaderboard.
- `QuestBoard` is the quest filter and the link dispatch of a quest's button.
- `Social` covers the chat: sending (`Chat`), the channel's messages in time
  order, the day headers, and their captions.
- `Strings` and `Sorting` hold the string and sorting helpers these
  modules need. `Strings` has ECMAScript `trim`, `split`, `Number(...) || 0`
  on integer text, and decimal rendering. `Sorting` is a stable sort by an
  integer key.

Things the model takes as parameters:

- The clock is the parameter `now: int`, in milliseconds. Ids built from
  `Date.now()` are the prefix followed by the decimal text of `now`.
- The random wheel offset is a parameter in `[0, 360)`.
- The local calendar day of a timestamp is a parameter `dayOf`. Days are
  integers, and today's day is the parameter `today`.

Behaviour of the code that the model keeps as written:

- An already completed quest is not rejected. Completing it again pays its
  rewards again (`Ledger.CompleteQuestTwicePaysTwice`).
- Spending is not refused when the balance is too small, so the balance may
  go negative (`Ledger.SpendPoints`).
- An `fvt` reward at the cap is not refused. It is clamped with
  `Math.min(fvt + 1, 5)`.
- An `xp` reward does not roll over into levels
  (`Ledger.XpClaimSkipsRollOver`).
- Tiers unlock by their tier NUMBER compared with the level. `requiredXp` is
  never read (`BattlePass.UnlockMonotone`).

## Model

| member | source | states |
|---|---|---|
| `Progression.NextMaxXp` | App.tsx:139 | the cap after a level-up, `floor(maxXp * 1.2)` on integers, never falls and strictly grows once it is at least 5 |
| `Progression.NextMaxXpIsFlooredGrowth` | App.tsx:139 | the new cap is `Math.floor(maxXp * 1.2)`: the greatest integer whose fivefold is at most six times the old cap |
| `Progression.LevelUp` | App.tsx:135-140 | the roll-over leaves XP below the cap, never lowers level or cap, keeps XP non-negative, and is the identity when XP is already below the cap |
| `Progression.Gain` | App.tsx:129-140 | after a gain: XP is below the cap, level and cap have not fallen, XP stays non-negative for non-negative inputs, and a gain that stays below the cap changes neither level nor cap |
| `Progression.CapAfter` | App.tsx:139 | the cap after `n` level-ups is at least the starting cap |
| `Progression.LevelUpClosedForm` | App.tsx:135-140 | the loop gains exactly the `n` levels whose summed costs fit in the XP, pays that sum, and leaves the `n`-th cap |
| `Progression.CostOfStep` | App.tsx:136-139 | each next level costs the cap reached so far |
| `Progression.CostOfMonotone` | App.tsx:136-139 | the total cost of level-ups grows with their number |
| `Progression.LevelsGainedUnique` | App.tsx:135-140 | only one number of level-ups fits a given XP, so the closed form determines the result |
| `Progression.GainAdditive` | App.tsx:129-140 | gaining `a` and then `b >= 0` ends where gaining `a + b` at once does |
| `Progression.LevelUpThenAdd` | App.tsx:135-140 | rolling over and then adding XP ends where adding first and rolling over once does |
| `Progression.GainExample` | App.tsx:129-140 | level 1 with 950 of 1000 XP plus 100 XP gives level 2 with 50 of 1200 |
| `Progression.GainExampleInSteps` | App.tsx:129-140 | 500 then 2800 XP from 0 of 3000 equals 3300 at once, which gives level 2 with 300 of 3600 |
| `Progression.ApplyXpGain` | App.tsx:129-140 | the `while` loop over `newXp`/`newLevel`/`newMaxXp` terminates and leaves exactly `Gain` of the inputs |
| `Ledger.QuestActivity` | App.tsx:152 | the quest entry has the quest kind and the clock time; its id is `act-` then the clock reading, which reads back as that reading; its amount text reads back as the quest's points |
| `Ledger.SpendActivity` | App.tsx:175 | the purchase entry has the game kind and the clock time; its id reads back as the clock after `spend-`; a non-negative price reads back from its amount text as minus that price |
| `Ledger.ConvertActivity` | App.tsx:196 | the conversion entry has the ticket kind and the clock time; its id reads back as the clock after `fvt-conv-`; its amount text reads back as one ticket |
| `Ledger.PurchaseFvtActivity` | App.tsx:209 | the ticket-purchase entry has the ticket kind and the clock time; its id reads back as the clock after `fvt-buy-`; a non-negative count reads back from its amount text |
| `Ledger.ClaimActivity` | App.tsx:239 | the claim entry has the reward kind and the clock time; its id reads back as the clock after `claim-`; a non-points reward has an empty amount; a points reward with a non-negative number reads back as the points credited |
| `Ledger.SpinActivity` | App.tsx:434 | the spin entry has the game kind, the clock time and a reward text |
| `Ledger.SpinActivityReadsBack` | App.tsx:434 | the spin entry's id reads back as the clock after `spin-`; its reward text reads back as the points won followed by ` MP` |
| `Ledger.Completed` | App.tsx:156 | the completed quest has `completed` set and progress equal to total, with the same id and rewards |
| `Ledger.FindQuest` | App.tsx:126-127 | finds nothing exactly when no quest has the id; otherwise finds a listed quest with that id |
| `Ledger.MarkCompleted` | App.tsx:126-159 | the quest list keeps its length and ids; every quest with the id is completed and every other quest is unchanged |
| `Ledger.QuestRewarded` | App.tsx:129-155 | the user after a quest: progress equals `Gain` by the quest's XP; points, quest count and lifetime totals go up by the rewards; spent points and tickets are unchanged; exactly one quest activity is prepended; profile fields are unchanged; the ledger invariant is kept |
| `Ledger.CompleteQuest` | App.tsx:125-160 | the whole handler: the quest list is always mapped, the user is rewarded only when a quest matches, and the invariant and distinct ids are kept |
| `Ledger.FindQuestAfterMark` | App.tsx:126-156 | after completion, looking up the id finds the same quest, completed |
| `Ledger.MarkCompletedIdempotent` | App.tsx:126-158 | completing the quests with an id twice equals doing it once |
| `Ledger.CompleteQuestTwicePaysTwice` | App.tsx:125-160 | with no guard against completed quests, a second completion pays the points again and adds a second count and activity, while the quest list stays the same |
| `Ledger.SpendPoints` | App.tsx:170-179 | subtracts the amount unconditionally, so a balance below the amount becomes negative; spent points go up by the amount; one purchase activity is prepended; nothing else changes |
| `Ledger.ConvertFvt` | App.tsx:187-200 | the user is unchanged exactly when tickets are at the cap or points are below 10000; otherwise 10000 points become one ticket; points plus 10000 per ticket are conserved; the cap and a non-negative balance are kept |
| `Ledger.ConvertTwiceFromOneAndAHalf` | App.tsx:187-200 | 15000 points convert once, leaving 5000, and a second conversion is refused |
| `Ledger.PurchaseFvt` | App.tsx:202-213 | the user is unchanged exactly when the tickets would exceed five; otherwise the amount is added to the tickets; points are never touched; the cap is kept |
| `Strings.NumberOrZero` | App.tsx:226 | blank text gives 0 and plain decimal digits give their value |
| `Ledger.RewardAmount` | App.tsx:226 | a number value credits itself; a blank text value credits 0; a text of decimal digits credits its value |
| `Ledger.Chosen` | App.tsx:219 | a premium claim takes the tier's premium reward and any other claim its free reward |
| `Strings.NumberOrZeroOfIntToString` | App.tsx:226 | the reward-value parse of the decimal text of an integer is that integer |
| `Ledger.RewardAmountOfText` | App.tsx:226-229 | a reward value given as the decimal text of a number credits the same as the number |
| `Ledger.ClaimEffect` | App.tsx:222-243 | an `mp` reward adds its amount to points and lifetime points; `xp` adds to XP only; `fvt` sets tickets to `min(fvt + 1, 5)`; cosmetic rewards change no number; one claim activity is prepended; spent points are unchanged |
| `Ledger.XpClaimSkipsRollOver` | App.tsx:228-230 | an `xp` claim that reaches the cap leaves XP at or above the cap |
| `Ledger.FindTier` | App.tsx:217-218 | finds nothing exactly when no tier has the number; otherwise finds a listed tier with that number |
| `Ledger.MarkTier` | App.tsx:245 | sets only the chosen claimed flag, keeping the other flag, the number and the rewards |
| `Ledger.MarkClaimed` | App.tsx:217-248 | the tier list keeps its length and numbers; matching tiers get the chosen flag and the others are unchanged |
| `Ledger.FindTierAfterMark` | App.tsx:217-245 | after a claim, looking up the tier finds it with the chosen flag set |
| `Ledger.ClaimReward` | App.tsx:216-249 | the raw handler: no matching tier changes nothing; otherwise the chosen reward's effect and the flag update; the invariant and distinct numbers are kept |
| `Ledger.ClaimRewardTwicePaysTwice` | App.tsx:216-249 | the raw handler has no claimed check, so calling it twice on an `mp` slot credits twice |
| `Ledger.SpinCredit` | App.tsx:428-437 | a non-positive amount changes nothing; a positive one is added to points and lifetime points with one spin activity; spent points are unchanged |
| `Ledger.QuestCompletionExample` | App.tsx:125-160 | a level-1 fan with 950 of 1000 XP completing a 100 XP, 50 point quest reaches level 2 with 50 of 1200 XP and 50 points, with one new activity |
| `AppState.App.constructor` | App.tsx:117-119 | the state starts with the given user, quests and tiers, satisfying the invariant |
| `AppState.App.CompleteQuest` | App.tsx:125-160 | runs the level-up loop in place and leaves user and quests equal to `Ledger.CompleteQuest`; tiers are untouched; the invariant is kept |
| `AppState.App.SpendPoints` | App.tsx:170-179 | the new user is `Ledger.SpendPoints` of the old; the lists are untouched; the invariant is kept |
| `AppState.App.ConvertFvt` | App.tsx:187-200 | the new user is `Ledger.ConvertFvt` of the old; the lists are untouched; the invariant is kept |
| `AppState.App.PurchaseFvt` | App.tsx:202-213 | the new user is `Ledger.PurchaseFvt` of the old; the lists are untouched; the invariant is kept |
| `AppState.App.ClaimReward` | App.tsx:216-249 | user and tiers become `Ledger.ClaimReward` of the old ones; quests are untouched; the invariant is kept |
| `AppState.App.Claim` | components/BattlePass.tsx:82-84 | reports whether the pressed button was enabled; user and tiers become `BattlePass.Claim` of the old ones |
| `AppState.App.CreditSpin` | App.tsx:428-437 | the new user is `Ledger.SpinCredit` of the old; the lists are untouched; the invariant is kept |
| `BattlePass.FreeSlot` | components/BattlePass.tsx:77-93 | the free slot shows "Claimed" exactly when it is claimed; otherwise its button is enabled exactly when the tier is unlocked |
| `BattlePass.PremiumSlot` | components/BattlePass.tsx:119-135 | the premium slot shows "Claimed" exactly when it is claimed; otherwise its button is enabled exactly when the tier is unlocked and the fan is premium |
| `BattlePass.FreeOfferedIff` | components/BattlePass.tsx:77-92 | the free claim is offered iff it is unclaimed and the level reaches the tier number |
| `BattlePass.PremiumOfferedIff` | components/BattlePass.tsx:119-134 | the premium claim is offered iff it is unclaimed, the level reaches the tier number and the fan is premium |
| `BattlePass.IsUnlocked` | components/BattlePass.tsx:59 | a tier is unlocked when the level is at least the tier's number; XP is not consulted |
| `BattlePass.IsCurrent` | components/BattlePass.tsx:60 | the current tier is unlocked at the fan's level and would not be one level lower |
| `BattlePass.UnlockMonotone` | components/BattlePass.tsx:59 | a tier unlocked at one level stays unlocked at any higher level, whatever its `requiredXp` |
| `BattlePass.AtMostOneCurrent` | components/BattlePass.tsx:60 | among tiers with distinct numbers, at most one is the current tier |
| `BattlePass.Claim` | components/BattlePass.tsx:82-84 | a claim the view does not enable changes nothing; an enabled one is the raw handler; the invariant and distinct numbers are kept |
| `BattlePass.ClaimAtMostOnce` | components/BattlePass.tsx:77-84 | repeating a claim through the view changes nothing, so no slot pays twice |
| `BattlePass.PremiumNeedsEntitlement` | components/BattlePass.tsx:126 | without premium, no premium claim goes through |
| `BattlePass.LockedTierRefused` | components/BattlePass.tsx:84 | a tier above the level refuses both claims |
| `BattlePass.ClaimMarksOnlyItsSlot` | components/BattlePass.tsx:77-135 | a successful claim marks its own slot claimed and leaves the other slot's offer as it was |
| `BattlePass.ClaimedStaysClaimed` | App.tsx:245 | claimed flags never return to false |
| `Arcade.OfferedItems` | components/Arcade.tsx:354-378 | the grid offers exactly the catalogue items whose id is not purchased |
| `Arcade.OfferedShrinks` | components/Arcade.tsx:354-378 | at first every catalogue item is offered; buying an item withdraws its card and offers nothing new |
| `Arcade.ArcadeView.constructor` | components/Arcade.tsx:237-238 | nothing is selected and nothing is purchased at first |
| `Arcade.ArcadeView.Select` | components/Arcade.tsx:367-377 | only a card still on offer (not yet purchased) can be selected; selects it, keeps the purchases and keeps `Valid` (a selection is always an offered item) |
| `Arcade.ArcadeView.Cancel` | components/Arcade.tsx:293 | clears the selection and keeps the purchases |
| `Arcade.ArcadeView.HandlePurchase` | components/Arcade.tsx:240-256 | with nothing selected, or points below the cost, nothing changes; otherwise the cost is spent through `handleSpendPoints`, so the balance stays non-negative, the id joins the purchases and the selection is cleared; purchases only grow; points are only ever charged for an id not already purchased; `Valid` is kept |
| `Arcade.SpunRotation` | components/Arcade.tsx:109-113 | a spin turns the wheel by 1800 plus an offset in `[0, 360)` |
| `Arcade.AwardNotOnWheel` | components/Arcade.tsx:94-118 | the awarded 100 is none of the wheel's slice values, so the award does not depend on where it stops |
| `Arcade.Wheel.constructor` | components/Arcade.tsx:89-91 | the wheel starts idle, at angle 0, with no win and no award |
| `Arcade.Wheel.Spin` | components/Arcade.tsx:105-113 | refused while spinning or after a win; otherwise the wheel starts spinning and turns by `SpunRotation` |
| `Arcade.Wheel.Settle` | components/Arcade.tsx:115-142 | the timer stops the wheel, shows the fixed 100-point result and credits exactly 100 through the spin credit; the invariant allows at most one award per wheel |
| `Sorting.SortBy` | components/Leaderboard.tsx:19 | the sorted list is ascending by the key and a permutation of the input |
| `Leaderboard.ByMetric` | components/Leaderboard.tsx:19 | the copy is non-increasing in the chosen metric and a permutation of the fans |
| `Leaderboard.SortedUsers` | components/Leaderboard.tsx:19 | the ranking is non-increasing in the metric, ranks are exactly 1..n in order, and each entry is the sorted fan with its rank rewritten |
| `Leaderboard.TopHasMaximum` | components/Leaderboard.tsx:19 | rank 1 has a metric at least that of every fan |
| `Leaderboard.RankingIsPermutation` | components/Leaderboard.tsx:19 | every input fan appears in the ranking, with only its rank rewritten |
| `QuestBoard.Shown` | components/QuestBoard.tsx:15 | the "all" tab shows every quest; the daily and weekly tabs show the quests of that type |
| `QuestBoard.FilterQuests` | components/QuestBoard.tsx:15 | the tab shows exactly the quests of its type, and every quest under "all" |
| `QuestBoard.FilterAppend` | components/QuestBoard.tsx:15 | filtering distributes over concatenation, so the original order is kept |
| `QuestBoard.FilterIdempotent` | components/QuestBoard.tsx:15 | filtering again with the same tab changes nothing |
| `QuestBoard.DailyWeeklyDisjoint` | components/QuestBoard.tsx:15 | no quest is shown under both the daily and the weekly tab |
| `Strings.Split` | components/QuestBoard.tsx:76 | `split` gives at least one field, no field holds the separator, and there are two or more fields exactly when the text holds the separator |
| `Strings.JoinSplit` | components/QuestBoard.tsx:76 | joining the fields of a `split` with the separator gives back the text, so no character is lost |
| `QuestBoard.ClickAction` | components/QuestBoard.tsx:75-82 | an `internal:` link navigates, to the colon-free field that follows the prefix up to the next colon or the end; else an `http` link opens that link externally; anything else, including no link, completes the quest |
| `QuestBoard.PrefixesDisjoint` | components/QuestBoard.tsx:75-78 | no link starts with both prefixes, so the order of the tests does not matter |
| `QuestBoard.NavigatesToNamedView` | components/QuestBoard.tsx:75-77 | `internal:<view>` with no further colon navigates to exactly `<view>` |
| `QuestBoard.ButtonLabel` | components/QuestBoard.tsx:86 | the caption is "Go Now" exactly for links that navigate, else "Start Quest" |
| `QuestBoard.AnchorTarget` | components/QuestBoard.tsx:71 | the anchor opens a new tab exactly for links the click opens externally |
| `QuestBoard.ButtonAction` | components/QuestBoard.tsx:68 | a completed quest shows no button; otherwise the button does `ClickAction` of its link |
| `QuestBoard.Click` | components/QuestBoard.tsx:73-82 | only a completing click reaches the ledger, as `handleCompleteQuest` of the quest's id; navigating or opening leaves user and quests unchanged |
| `Social.SeedMessages` | components/Social.tsx:18-36 | the sixteen starting messages all belong to a sidebar channel |
| `Social.FilterChannel` | components/Social.tsx:66-67 | keeps exactly the messages of the channel |
| `Social.FilterChannelCount` | components/Social.tsx:66-67 | each message of the channel is kept as many times as it occurs, and no other message is kept |
| `Social.FilterChannelAppend` | components/Social.tsx:66-67 | the channel filter distributes over concatenation |
| `Social.CurrentMessages` | components/Social.tsx:66-68 | the shown list holds exactly the channel's messages, is a permutation of the filtered list, and is ascending by timestamp |
| `Social.CurrentMessagesCount` | components/Social.tsx:66-68 | each message of the channel is shown as many times as it occurs, and no message of another channel is shown |
| `Social.SentMessageShown` | components/Social.tsx:48-68 | a message appended to the channel joins its shown list exactly once; one for another channel changes nothing there |
| `Social.ShowDateHeader` | components/Social.tsx:136-137 | a header goes above the first message and above each message whose day differs from the one before |
| `Social.HeaderMarksFirstOfDay` | components/Social.tsx:136-137 | on a time-ordered list a header stands exactly above each message with no earlier message of the same day |
| `Social.HeaderDaysIncrease` | components/Social.tsx:136-137 | a message under a header is from a later day than every earlier message |
| `Social.FormatDateHeader` | components/Social.tsx:52-64 | "Today" exactly for today, "Yesterday" exactly for the day before, and otherwise the date itself |
| `Social.FormatDependsOnAge` | components/Social.tsx:52-64 | shifting the message day and today by the same amount keeps the caption kind (dated or not), and keeps the "Today" and "Yesterday" captions themselves; a dated caption still shows its own day |
| `Social.Chat.constructor` | components/Social.tsx:17-37 | the chat opens on "general" with the seed messages and an empty input |
| `Social.Chat.Shown` | components/Social.tsx:66-68 | the list on screen holds exactly the active channel's messages |
| `Social.Chat.SetInput` | components/Social.tsx:175 | sets the input and nothing else |
| `Social.Chat.SelectChannel` | components/Social.tsx:81 | sets the active channel and nothing else |
| `Social.Chat.Send` | components/Social.tsx:39-50 | blank input after trimming changes nothing; otherwise exactly one message is appended, with the clock id, the sender's name, the untrimmed text and the active channel, and the input is cleared |
| `Strings.Trim` | components/Social.tsx:40 | the trimmed text is empty exactly when the text is all white space |

## Left out

- `services/geminiService.ts`, `components/Analytics.tsx`,
  `components/Landing.tsx`, `components/Dashboard.tsx`,
  `components/Profile.tsx` and `components/Events.tsx` are not part of this
  model. They are a network call to a language model with mock fallbacks,
  static charts and markup, display-only figures, clipboard access, and a
  single alert.
- `handleAddQuests`, `handleUpdateProfile` and view navigation in
  `App.tsx` are wiring, not ledger logic. `QuestBoard.ClickAction` returns
  the view to navigate to rather than changing a current view.
- React batching and stale closures are not modelled. Four handlers guard
  on or read the rendered `user` but update through the setter's `prev`:
  `handleCompleteQuest`, `handleConvertFvt` and `handlePurchaseFvt`
  (App.tsx:203) in `App.tsx`, and `handlePurchase` (Arcade.tsx:243) in the
  arcade. Each handler is one sequential transition, in which both are the
  same record.
- Duplicate quest ids or tier numbers are excluded by the
  `AppState.App.Valid` invariant. With duplicates the source would call
  `setUser` once per match.
- Floating point is left out. `Math.floor(maxXp * 1.2)` is the exact integer
  `maxXp * 6 / 5`, which assumes the double product rounds to the exact
  value.
- The loop of `handleCompleteQuest` never ends when `maxXp <= 0` and
  `xp + rewardXp >= maxXp`. With a non-positive cap and a smaller sum the
  loop body never runs. The model requires a positive cap and keeps it as
  an invariant.
- `Number(v) || 0` is modelled for integer text only: optional white space,
  an optional sign and decimal digits. Other text gives 0. Fractions,
  exponents, hexadecimal and `Infinity` are not parsed.
- `Sorting.SortBy`: the sort is stable, but stability is not stated. Its
  contract gives order and permutation only.
- Randomness is a parameter: the wheel offset. Confetti, `setTimeout` and
  `setInterval` are not modelled beyond the separate `Settle` step that
  stands for the 4-second timer.
- The wheel's `onClose` and the modal's visibility in `App.tsx` are not
  modelled.
- Timestamps are integers in milliseconds and days are abstract integers.
  The calendar day comes from a parameter, and the locale's long date
  format is left abstract as `OnDate(day)`.
- Presentational fields are not modelled. These are item images, icons,
  colours and percentage widths. The starting data is not modelled either:
  `initialUser`, `initialQuests` and `initialBattlePassTiers` in `App.tsx`
  (lines 16-107), and the leaderboard's sample `users`.
- The leaderboard's input list is a value, so "sorts a copy and does not
  change the input" holds by construction rather than by a stated
  property.
