/** The quest board (components/QuestBoard.tsx): the type filter over the
    quest list, and what a click on a quest's button does, decided by the
    prefix of the quest's link. */
module QuestBoard {
  import opened Types
  import Strings
  import AppState
  import Ledger

  /** The three filter tabs (QuestBoard.tsx:13). */
  datatype QuestFilter = All | DailyOnly | WeeklyOnly

  predicate Shown(q: Quest, f: QuestFilter) {
    match f
    case All => true
    case DailyOnly => q.questType == Daily
    case WeeklyOnly => q.questType == Weekly
  }

  /** `filteredQuests` (QuestBoard.tsx:15): the quests the tab shows, in
      list order. */
  function FilterQuests(qs: seq<Quest>, f: QuestFilter): (r: seq<Quest>)
    ensures |r| <= |qs|
    ensures forall q :: q in r <==> q in qs && Shown(q, f)
    ensures f == All ==> r == qs
  {
    if qs == [] then []
    else if Shown(qs[0], f) then [qs[0]] + FilterQuests(qs[1..], f)
    else FilterQuests(qs[1..], f)
  }

  /** Filtering keeps the relative order: it distributes over concatenation. */
  lemma {:induction false} FilterAppend(a: seq<Quest>, b: seq<Quest>, f: QuestFilter)
    ensures FilterQuests(a + b, f) == FilterQuests(a, f) + FilterQuests(b, f)
  {
    if a != [] {
      assert (a + b)[0] == a[0];
      assert (a + b)[1..] == a[1..] + b;
      FilterAppend(a[1..], b, f);
      var head := if Shown(a[0], f) then [a[0]] else [];
      assert FilterQuests(a + b, f) == head + FilterQuests(a[1..] + b, f);
      assert FilterQuests(a, f) == head + FilterQuests(a[1..], f);
      assert head + (FilterQuests(a[1..], f) + FilterQuests(b, f))
          == (head + FilterQuests(a[1..], f)) + FilterQuests(b, f);
    } else {
      assert a + b == b;
    }
  }

  /** Filtering twice with the same tab is filtering once. */
  lemma {:induction false} FilterIdempotent(qs: seq<Quest>, f: QuestFilter)
    ensures FilterQuests(FilterQuests(qs, f), f) == FilterQuests(qs, f)
  {
    if qs != [] {
      FilterIdempotent(qs[1..], f);
      if Shown(qs[0], f) {
        assert ([qs[0]] + FilterQuests(qs[1..], f))[1..] == FilterQuests(qs[1..], f);
      }
    }
  }

  /** The daily and weekly tabs never show the same quest. */
  lemma DailyWeeklyDisjoint(qs: seq<Quest>, q: Quest)
    ensures !(q in FilterQuests(qs, DailyOnly) && q in FilterQuests(qs, WeeklyOnly))
  {
  }

  /** What a click on a quest's button leads to (QuestBoard.tsx:75-82). */
  datatype LinkAction = Navigate(view: string) | OpenExternal(url: string) | Complete

  const InternalPrefix: string := "internal:"
  const ExternalPrefix: string := "http"

  predicate IsInternal(link: Option<string>) {
    link.Some? && InternalPrefix <= link.value
  }

  predicate IsExternal(link: Option<string>) {
    link.Some? && ExternalPrefix <= link.value
  }

  /** The click handler's dispatch: an `internal:` link navigates to the
      field after the first colon, an `http` link opens in a new window, and
      anything else (no link, an empty link, another scheme) completes the
      quest. The view name is cast, not checked, so it may name no view. */
  function ClickAction(link: Option<string>): (r: LinkAction)
    ensures r.Navigate? <==> IsInternal(link)
    ensures r.OpenExternal? <==> !IsInternal(link) && IsExternal(link)
    ensures r.Complete? <==> !IsInternal(link) && !IsExternal(link)
    ensures r.OpenExternal? ==> r.url == link.value
    ensures r.Navigate? ==>
      && ':' !in r.view
      && InternalPrefix + r.view <= link.value
      && (|link.value| == |InternalPrefix| + |r.view| || link.value[|InternalPrefix| + |r.view|] == ':')
  {
    if IsInternal(link) then
      var s := link.value;
      var rest := s[|InternalPrefix|..];
      assert s == "internal" + [':'] + rest;
      Strings.SplitAfterPrefix("internal", ':', rest);
      Strings.SplitHead(rest, ':');
      var view := Strings.Split(s, ':')[1];
      assert InternalPrefix + view == "internal" + [':'] + view;
      Navigate(view)
    else if IsExternal(link) then OpenExternal(link.value)
    else Complete
  }

  /** The two prefixes exclude each other, so the order of the tests does
      not matter. */
  lemma PrefixesDisjoint(link: Option<string>)
    ensures !(IsInternal(link) && IsExternal(link))
  {
    if IsInternal(link) {
      assert link.value[0] == InternalPrefix[0] == 'i';
    }
  }

  /** A link `internal:<view>` with no further colon navigates to exactly
      `<view>`. */
  lemma NavigatesToNamedView(view: string)
    requires ':' !in view
    ensures ClickAction(Some(InternalPrefix + view)) == Navigate(view)
  {
    var a := ClickAction(Some(InternalPrefix + view));
    assert a.view == view by {
      forall k | 0 <= k < |a.view| ensures a.view[k] == view[k] {
        assert (InternalPrefix + a.view)[|InternalPrefix| + k] == (InternalPrefix + view)[|InternalPrefix| + k];
      }
    }
  }

  /** The button's caption (QuestBoard.tsx:86). */
  function ButtonLabel(link: Option<string>): (s: string)
    ensures s == "Go Now" <==> ClickAction(link).Navigate?
    ensures s == "Go Now" || s == "Start Quest"
  {
    if IsInternal(link) then "Go Now" else "Start Quest"
  }

  /** The anchor's target (QuestBoard.tsx:71): a new tab exactly for links
      the click opens externally. */
  function AnchorTarget(link: Option<string>): (s: string)
    ensures s == "_blank" <==> ClickAction(link).OpenExternal?
  {
    PrefixesDisjoint(link);
    if IsExternal(link) then "_blank" else "_self"
  }

  /** The button a quest card shows, if any: none once the quest is
      completed (QuestBoard.tsx:68). */
  function ButtonAction(q: Quest): (r: Option<LinkAction>)
    ensures r.None? <==> q.completed
    ensures r.Some? ==> r.value == ClickAction(q.link)
  {
    if q.completed then None else Some(ClickAction(q.link))
  }

  /** A click on quest `q`'s button. Only the completing branch reaches the
      ledger, through `handleCompleteQuest`; navigation and opening a window
      are returned to the caller as the action taken. */
  method Click(app: AppState.App, q: Quest, now: int) returns (action: Option<LinkAction>)
    requires app.Valid()
    modifies app
    ensures app.Valid()
    ensures action == ButtonAction(q)
    ensures action == Some(Complete) ==>
      (app.user, app.quests) == Ledger.CompleteQuest(old(app.user), old(app.quests), q.id, now)
    ensures action != Some(Complete) ==> app.user == old(app.user) && app.quests == old(app.quests)
    ensures app.tiers == old(app.tiers)
  {
    action := ButtonAction(q);
    if action == Some(Complete) {
      app.CompleteQuest(q.id, now);
    }
  }
}
