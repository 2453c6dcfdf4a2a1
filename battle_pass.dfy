/** The claim rules of the seasonal journey view (components/BattlePass.tsx)
    and their composition with the ledger's claim handler. The view decides
    whether a slot shows a claim button and whether it is enabled; the
    handler itself checks nothing, so `Claim` below is the guard followed by
    the effect, as a user clicking in the view sees it. */
module BattlePass {
  import opened Types
  import Ledger

  /** Unlocking compares the level with the tier NUMBER; `requiredXp` is
      never read (BattlePass.tsx:59). */
  predicate IsUnlocked(u: User, t: BattlePassTier) {
    u.level >= t.tier
  }

  /** The current tier is the one the fan's latest level unlocked: unlocked
      now, and not yet one level lower. */
  predicate IsCurrent(u: User, t: BattlePassTier): (b: bool)
    ensures b <==> IsUnlocked(u, t) && !IsUnlocked(u.(level := u.level - 1), t)
  {
    u.level == t.tier
  }

  /** What a reward slot of a tier card shows. */
  datatype Slot = ClaimedMark | ClaimButton(enabled: bool, caption: string)

  /** The free slot (BattlePass.tsx:77-93). */
  function FreeSlot(u: User, t: BattlePassTier): (s: Slot)
    ensures s.ClaimedMark? <==> t.claimedFree
    ensures s.ClaimButton? ==> (s.enabled <==> IsUnlocked(u, t))
  {
    if t.claimedFree then ClaimedMark
    else ClaimButton(IsUnlocked(u, t), if IsUnlocked(u, t) then "Claim" else "Locked")
  }

  /** The premium slot (BattlePass.tsx:119-135). */
  function PremiumSlot(u: User, t: BattlePassTier): (s: Slot)
    ensures s.ClaimedMark? <==> t.claimedPremium
    ensures s.ClaimButton? ==> (s.enabled <==> IsUnlocked(u, t) && u.premium)
  {
    if t.claimedPremium then ClaimedMark
    else
      var open := IsUnlocked(u, t) && u.premium;
      ClaimButton(open, if open then "Claim VIP" else "VIP Only")
  }

  function SlotOf(u: User, t: BattlePassTier, isPremium: bool): Slot {
    if isPremium then PremiumSlot(u, t) else FreeSlot(u, t)
  }

  /** The slot offers a claim: it shows an enabled button. */
  predicate Offered(s: Slot) {
    s.ClaimButton? && s.enabled
  }

  lemma FreeOfferedIff(u: User, t: BattlePassTier)
    ensures Offered(FreeSlot(u, t)) <==> !t.claimedFree && u.level >= t.tier
  {
  }

  lemma PremiumOfferedIff(u: User, t: BattlePassTier)
    ensures Offered(PremiumSlot(u, t)) <==> !t.claimedPremium && u.level >= t.tier && u.premium
  {
  }

  /** What has been unlocked at one level stays unlocked at every higher one,
      and the XP figure of the tier plays no part. */
  lemma UnlockMonotone(u: User, t: BattlePassTier, level: int, requiredXp: int)
    requires IsUnlocked(u, t) && u.level <= level
    ensures IsUnlocked(u.(level := level), t.(requiredXp := requiredXp))
  {
  }

  /** Among tiers with distinct numbers, at most one is the current one. */
  lemma AtMostOneCurrent(u: User, ts: seq<BattlePassTier>, i: int, j: int)
    requires Ledger.DistinctTiers(ts)
    requires 0 <= i < |ts| && 0 <= j < |ts|
    requires IsCurrent(u, ts[i]) && IsCurrent(u, ts[j])
    ensures i == j
  {
  }

  /** The button the user would press for tier `tier` is enabled. */
  predicate ClaimAllowed(u: User, ts: seq<BattlePassTier>, tier: int, isPremium: bool) {
    match Ledger.FindTier(ts, tier)
    case None => false
    case Some(t) => Offered(SlotOf(u, t, isPremium))
  }

  /** The guarded claim: the view's enabling condition, then `handleClaimReward`. */
  function Claim(u: User, ts: seq<BattlePassTier>, tier: int, isPremium: bool, now: int)
    : (r: (User, seq<BattlePassTier>))
    ensures !ClaimAllowed(u, ts, tier, isPremium) ==> r == (u, ts)
    ensures ClaimAllowed(u, ts, tier, isPremium) ==> r == Ledger.ClaimReward(u, ts, tier, isPremium, now)
    ensures Ledger.WellFormed(u) ==> Ledger.WellFormed(r.0)
    ensures Ledger.DistinctTiers(ts) ==> Ledger.DistinctTiers(r.1)
  {
    if ClaimAllowed(u, ts, tier, isPremium) then Ledger.ClaimReward(u, ts, tier, isPremium, now)
    else (u, ts)
  }

  /** A slot is claimed at most once: after a claim, the same claim again
      changes nothing, so no reward is paid twice. */
  lemma ClaimAtMostOnce(u: User, ts: seq<BattlePassTier>, tier: int, isPremium: bool, t1: int, t2: int)
    ensures var r := Claim(u, ts, tier, isPremium, t1);
      Claim(r.0, r.1, tier, isPremium, t2) == r
  {
    if ClaimAllowed(u, ts, tier, isPremium) {
      Ledger.FindTierAfterMark(ts, tier, isPremium);
    }
  }

  /** Without the premium entitlement no premium claim goes through, at any
      level. */
  lemma PremiumNeedsEntitlement(u: User, ts: seq<BattlePassTier>, tier: int, now: int)
    requires !u.premium
    ensures Claim(u, ts, tier, true, now) == (u, ts)
  {
  }

  /** A locked tier refuses both claims. */
  lemma LockedTierRefused(u: User, ts: seq<BattlePassTier>, tier: int, isPremium: bool, now: int)
    requires Ledger.FindTier(ts, tier).Some? && u.level < tier
    ensures Claim(u, ts, tier, isPremium, now) == (u, ts)
  {
  }

  /** A successful claim marks its own slot claimed, and leaves the other
      slot of the tier as offered or not as it was: a claim changes neither
      the level nor the entitlement. */
  lemma ClaimMarksOnlyItsSlot(u: User, ts: seq<BattlePassTier>, tier: int, isPremium: bool, now: int)
    requires ClaimAllowed(u, ts, tier, isPremium)
    ensures var r := Claim(u, ts, tier, isPremium, now);
      var t := Ledger.FindTier(ts, tier).value;
      && Ledger.FindTier(r.1, tier) == Some(Ledger.MarkTier(t, isPremium))
      && SlotOf(r.0, Ledger.MarkTier(t, isPremium), isPremium) == ClaimedMark
      && Offered(SlotOf(r.0, Ledger.MarkTier(t, isPremium), !isPremium)) == Offered(SlotOf(u, t, !isPremium))
  {
    Ledger.FindTierAfterMark(ts, tier, isPremium);
  }

  /** Claimed flags never go back to false. */
  lemma ClaimedStaysClaimed(u: User, ts: seq<BattlePassTier>, tier: int, isPremium: bool, now: int, i: int)
    requires 0 <= i < |ts|
    ensures var r := Claim(u, ts, tier, isPremium, now);
      && |r.1| == |ts|
      && (ts[i].claimedFree ==> r.1[i].claimedFree)
      && (ts[i].claimedPremium ==> r.1[i].claimedPremium)
  {
  }
}
