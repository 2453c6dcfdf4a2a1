/** Level progression of quest completion (App.tsx:129-140): XP is added,
    then while it reaches the cap the cap is paid, the level goes up and the
    cap grows by 20 %, rounded down. */
module Progression {

  datatype Progress = Progress(level: int, xp: int, maxXp: int)

  /** `Math.floor(maxXp * 1.2)` in exact integer arithmetic. */
  function NextMaxXp(maxXp: int): (r: int)
    requires maxXp > 0
    ensures maxXp <= r
    ensures maxXp >= 5 ==> maxXp < r
  {
    maxXp * 6 / 5
  }

  /** The new cap is 1.2 times the old one rounded down: the greatest `r`
      with `5 * r <= 6 * maxXp`. */
  lemma NextMaxXpIsFlooredGrowth(maxXp: int)
    requires maxXp > 0
    ensures 5 * NextMaxXp(maxXp) <= 6 * maxXp < 5 * NextMaxXp(maxXp) + 5
  {
  }

  /** The roll-over loop as a function: what the `while` loop leaves in
      `(newLevel, newXp, newMaxXp)`. */
  function LevelUp(p: Progress): (r: Progress)
    requires p.maxXp > 0
    ensures r.xp < r.maxXp
    ensures p.level <= r.level && p.maxXp <= r.maxXp
    ensures p.xp >= 0 ==> r.xp >= 0
    ensures p.xp < p.maxXp ==> r == p
    decreases p.xp
  {
    if p.xp < p.maxXp then p
    else LevelUp(Progress(p.level + 1, p.xp - p.maxXp, NextMaxXp(p.maxXp)))
  }

  /** Adding `gained` XP, then rolling over. */
  function Gain(p: Progress, gained: int): (r: Progress)
    requires p.maxXp > 0
    ensures r.xp < r.maxXp && p.level <= r.level && p.maxXp <= r.maxXp
    ensures p.xp >= 0 && gained >= 0 ==> r.xp >= 0
    ensures p.xp + gained < p.maxXp ==> r.level == p.level && r.maxXp == p.maxXp
  {
    LevelUp(p.(xp := p.xp + gained))
  }

  // ---------------------------------------------------------------------
  // A closed form of the loop

  /** The cap after `n` level-ups starting from cap `maxXp`. */
  function CapAfter(maxXp: int, n: nat): (r: int)
    requires maxXp > 0
    ensures r >= maxXp
    decreases n
  {
    if n == 0 then maxXp else CapAfter(NextMaxXp(maxXp), n - 1)
  }

  /** The XP that `n` level-ups consume starting from cap `maxXp`. */
  function CostOf(maxXp: int, n: nat): int
    requires maxXp > 0
    decreases n
  {
    if n == 0 then 0 else maxXp + CostOf(NextMaxXp(maxXp), n - 1)
  }

  /** The loop gains exactly the `n` levels whose total cost fits in the XP,
      pays that cost, and leaves the `n`-th cap. Because `CostOf` grows with
      `n`, this pins the result down without reference to the loop. */
  lemma {:induction false} LevelUpClosedForm(p: Progress)
    requires p.maxXp > 0 && p.xp >= 0
    ensures var r := LevelUp(p);
      var n := r.level - p.level;
      && n >= 0
      && r.maxXp == CapAfter(p.maxXp, n)
      && r.xp == p.xp - CostOf(p.maxXp, n)
      && CostOf(p.maxXp, n) <= p.xp < CostOf(p.maxXp, n + 1)
    decreases p.xp
  {
    if p.xp >= p.maxXp {
      var q := Progress(p.level + 1, p.xp - p.maxXp, NextMaxXp(p.maxXp));
      LevelUpClosedForm(q);
      var n := LevelUp(q).level - q.level;
      assert CapAfter(p.maxXp, n + 1) == CapAfter(q.maxXp, n);
      assert CostOf(p.maxXp, n + 1) == p.maxXp + CostOf(q.maxXp, n);
      assert CostOf(p.maxXp, n + 2) == p.maxXp + CostOf(q.maxXp, n + 1);
    }
  }

  /** Each further level costs the cap reached so far. */
  lemma {:induction false} CostOfStep(maxXp: int, n: nat)
    requires maxXp > 0
    ensures CostOf(maxXp, n + 1) == CostOf(maxXp, n) + CapAfter(maxXp, n)
    decreases n
  {
    if n > 0 {
      CostOfStep(NextMaxXp(maxXp), n - 1);
    }
  }

  /** At most one number of level-ups fits a given XP total, so the closed
      form above determines `LevelUp`. */
  lemma {:induction false} LevelsGainedUnique(maxXp: int, xp: int, n: nat, k: nat)
    requires maxXp > 0
    requires CostOf(maxXp, n) <= xp < CostOf(maxXp, n + 1)
    requires CostOf(maxXp, k) <= xp < CostOf(maxXp, k + 1)
    ensures n == k
  {
    if n != k {
      var lo, hi := if n < k then n else k, if n < k then k else n;
      CostOfMonotone(maxXp, lo + 1, hi);
    }
  }

  lemma {:induction false} CostOfMonotone(maxXp: int, i: nat, j: nat)
    requires maxXp > 0 && i <= j
    ensures CostOf(maxXp, i) <= CostOf(maxXp, j)
    decreases j - i
  {
    if i < j {
      CostOfMonotone(maxXp, i, j - 1);
      CostOfStep(maxXp, j - 1);
    }
  }

  /** Gaining in two steps ends where gaining the sum at once does. */
  lemma {:induction false} GainAdditive(p: Progress, a: int, b: int)
    requires p.maxXp > 0 && b >= 0
    ensures Gain(Gain(p, a), b) == Gain(p, a + b)
  {
    var pa := p.(xp := p.xp + a);
    assert pa.(xp := pa.xp + b) == p.(xp := p.xp + (a + b));
    LevelUpThenAdd(pa, b);
  }

  /** One turn of the loop. */
  lemma LevelUpStep(p: Progress)
    requires p.maxXp > 0 && p.xp >= p.maxXp
    ensures LevelUp(p) == LevelUp(Progress(p.level + 1, p.xp - p.maxXp, NextMaxXp(p.maxXp)))
  {
  }

  lemma {:induction false} LevelUpThenAdd(p: Progress, b: int)
    requires p.maxXp > 0 && b >= 0
    ensures var r := LevelUp(p); LevelUp(r.(xp := r.xp + b)) == LevelUp(p.(xp := p.xp + b))
    decreases if p.xp < 0 then 0 else p.xp
  {
    if p.xp >= p.maxXp {
      var q := Progress(p.level + 1, p.xp - p.maxXp, NextMaxXp(p.maxXp));
      var pb, qb := p.(xp := p.xp + b), q.(xp := q.xp + b);
      assert LevelUp(p) == LevelUp(q) by { LevelUpStep(p); }
      assert LevelUp(pb) == LevelUp(qb) by { LevelUpStep(pb); }
      assert LevelUp(LevelUp(q).(xp := LevelUp(q).xp + b)) == LevelUp(qb) by { LevelUpThenAdd(q, b); }
    } else {
      assert LevelUp(p) == p;
    }
  }

  /** 950 of 1000 XP at level 1 plus 100 XP is level 2 with 50 of 1200. */
  lemma GainExample()
    ensures Gain(Progress(1, 950, 1000), 100) == Progress(2, 50, 1200)
  {
    assert LevelUp(Progress(2, 50, 1200)) == Progress(2, 50, 1200);
  }

  /** 500 and then 2800 XP from 0 of 3000 ends where 3300 at once does. */
  lemma GainExampleInSteps()
    ensures Gain(Gain(Progress(1, 0, 3000), 500), 2800) == Gain(Progress(1, 0, 3000), 3300) == Progress(2, 300, 3600)
  {
    GainAdditive(Progress(1, 0, 3000), 500, 2800);
    assert LevelUp(Progress(2, 300, 3600)) == Progress(2, 300, 3600);
  }

  /** The loop of App.tsx:129-140 over the locals `newXp`, `newLevel` and
      `newMaxXp`. It terminates because `newMaxXp` stays positive. */
  method ApplyXpGain(level: int, xp: int, maxXp: int, gained: int)
    returns (newLevel: int, newXp: int, newMaxXp: int)
    requires maxXp > 0
    ensures Progress(newLevel, newXp, newMaxXp) == Gain(Progress(level, xp, maxXp), gained)
  {
    newXp := xp + gained;
    newLevel := level;
    newMaxXp := maxXp;
    while newXp >= newMaxXp
      invariant newMaxXp > 0
      invariant LevelUp(Progress(newLevel, newXp, newMaxXp)) == LevelUp(Progress(level, xp + gained, maxXp))
      decreases newXp
    {
      newXp := newXp - newMaxXp;
      newLevel := newLevel + 1;
      newMaxXp := NextMaxXp(newMaxXp);
    }
  }
}
