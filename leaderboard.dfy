/** The global leaderboard (components/Leaderboard.tsx:19): a copy of the
    fan list sorted by the chosen metric, highest first, then ranked 1..n
    in that order. Working on values, the input list is never changed. */
module Leaderboard {
  import Sorting

  datatype Metric = ByXp | ByPoints

  datatype Entry = Entry(rank: int, name: string, xp: int, points: int, avatar: string)

  function MetricOf(e: Entry, m: Metric): int {
    match m
    case ByXp => e.xp
    case ByPoints => e.points
  }

  /** `[...users].sort((a, b) => b[metric] - a[metric])`: ascending in the
      negated metric. */
  function ByMetric(users: seq<Entry>, m: Metric): (r: seq<Entry>)
    ensures |r| == |users|
    ensures multiset(r) == multiset(users)
    ensures forall i, j :: 0 <= i < j < |r| ==> MetricOf(r[i], m) >= MetricOf(r[j], m)
  {
    var s := Sorting.SortBy(users, (e: Entry) => -MetricOf(e, m));
    assert forall i, j :: 0 <= i < j < |s| ==> -MetricOf(s[i], m) <= -MetricOf(s[j], m);
    s
  }

  /** `sortedUsers`: the sorted copy, then
      `.map((u, i) => ({ ...u, rank: i + 1 }))`. */
  function SortedUsers(users: seq<Entry>, m: Metric): (r: seq<Entry>)
    ensures |r| == |users|
    ensures forall i, j :: 0 <= i < j < |r| ==> MetricOf(r[i], m) >= MetricOf(r[j], m)
    ensures forall i :: 0 <= i < |r| ==> r[i].rank == i + 1
    ensures multiset(ByMetric(users, m)) == multiset(users)
    ensures forall i :: 0 <= i < |r| ==> r[i] == ByMetric(users, m)[i].(rank := i + 1)
  {
    var s := ByMetric(users, m);
    seq(|s|, i requires 0 <= i < |s| => s[i].(rank := i + 1))
  }

  /** Rank 1 holds the highest metric of all fans. */
  lemma TopHasMaximum(users: seq<Entry>, m: Metric, j: int)
    requires 0 <= j < |users|
    ensures SortedUsers(users, m)[0].rank == 1
    ensures MetricOf(SortedUsers(users, m)[0], m) >= MetricOf(users[j], m)
  {
    var s := ByMetric(users, m);
    assert users[j] in multiset(s);
    var k :| 0 <= k < |s| && s[k] == users[j];
    assert k == 0 || MetricOf(s[0], m) >= MetricOf(s[k], m);
  }

  /** Every fan appears in the ranking: the entry at each rank is some input
      fan with only the rank rewritten, and each input fan has a rank. */
  lemma RankingIsPermutation(users: seq<Entry>, m: Metric, j: int)
    requires 0 <= j < |users|
    ensures exists i :: 0 <= i < |users| && SortedUsers(users, m)[i] == users[j].(rank := i + 1)
  {
    var s := ByMetric(users, m);
    assert users[j] in multiset(s);
    var k :| 0 <= k < |s| && s[k] == users[j];
    assert SortedUsers(users, m)[k] == users[j].(rank := k + 1);
  }
}
