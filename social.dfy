/** The fan chat (components/Social.tsx): sending a message, the message
    list of the active channel in time order, and the day headers drawn
    above it. Timestamps are milliseconds; the calendar day of a timestamp
    in the local time zone is the parameter `dayOf`, and today's day number
    is the parameter `today`. */
module Social {
  import opened Types
  import Strings
  import Sorting

  /** The channel ids of the sidebar (Social.tsx:9-14). */
  const ChannelIds: seq<string> := ["general", "music", "sports", "events"]

  /** The messages the chat starts with (Social.tsx:18-36), relative to the
      clock reading `now`. */
  function SeedMessages(now: int): (r: seq<ChatMessage>)
    ensures |r| == 16
    ensures forall i :: 0 <= i < |r| ==> r[i].channel.Some? && r[i].channel.value in ChannelIds
  {
    [ ChatMessage("1", "StanFan_22", "Did anyone see the setlist for tonight?", now - 3600000, false, Some("music")),
      ChatMessage("2", "GoalKeeper99", "That pass was incredible!", now - 1800000, false, Some("sports")),
      ChatMessage("3", "System", "Welcome to Mom3ntum Chat!", now, true, Some("general")),
      ChatMessage("4", "AlexTrader", "Hey everyone, just joined!", now, false, Some("general")),
      ChatMessage("5", "BeatMakerX", "The new album drops in 2 hours!", now - 120000, false, Some("music")),
      ChatMessage("6", "SoccerMom", "Anyone selling a spare ticket for the finals?", now - 300000, false, Some("sports")),
      ChatMessage("7", "TechWiz", "Is the Arcade leaderboard updating for you guys?", now - 900000, false, Some("general")),
      ChatMessage("8", "IndieRocker", "I heard there is a secret track on the vinyl edition.", now - 60000, false, Some("music")),
      ChatMessage("9", "Striker09", "We need to strengthen our defense next season.", now - 400000, false, Some("sports")),
      ChatMessage("10", "EventJunkie", "Just RSVPed for the AMA!", now - 500000, false, Some("events")),
      ChatMessage("11", "Mod_Sarah", "Please keep the chat civil everyone.", now - 1000000, false, Some("general")),
      ChatMessage("12", "BassHead", "Who is going to the festival next month?", now - 200000, false, Some("events")),
      ChatMessage("13", "SportsFan88", "The referee missed that call completely!", now - 60000, false, Some("sports")),
      ChatMessage("14", "GymRat", "Anyone want to discuss the training regimen?", now - 120000, false, Some("sports")),
      ChatMessage("15", "TicketMaster", "New face-value-access options are up in the Arcade!", now - 10000, false, Some("general")),
      ChatMessage("0", "OldTimer", "Welcome to the beta channel!", now - 86400000 * 2, false, Some("general")) ]
  }

  predicate InChannel(m: ChatMessage, channel: string) {
    m.channel == Some(channel)
  }

  /** `.filter(m => m.channel === activeChannel)`: a message without a
      channel is in none. Each message of the channel is kept as often as it
      occurs, and no other. */
  function FilterChannel(msgs: seq<ChatMessage>, channel: string): (r: seq<ChatMessage>)
    ensures |r| <= |msgs|
    ensures forall m :: m in r <==> m in msgs && InChannel(m, channel)
  {
    if msgs == [] then []
    else if InChannel(msgs[0], channel) then [msgs[0]] + FilterChannel(msgs[1..], channel)
    else FilterChannel(msgs[1..], channel)
  }

  /** The filter keeps each message of the channel as often as it occurs. */
  lemma {:induction false} FilterChannelCount(msgs: seq<ChatMessage>, channel: string, m: ChatMessage)
    ensures multiset(FilterChannel(msgs, channel))[m] == if InChannel(m, channel) then multiset(msgs)[m] else 0
  {
    if msgs != [] {
      assert msgs == [msgs[0]] + msgs[1..];
      FilterChannelCount(msgs[1..], channel, m);
    }
  }

  lemma {:induction false} FilterChannelAppend(a: seq<ChatMessage>, b: seq<ChatMessage>, channel: string)
    ensures FilterChannel(a + b, channel) == FilterChannel(a, channel) + FilterChannel(b, channel)
  {
    if a != [] {
      assert (a + b)[0] == a[0];
      assert (a + b)[1..] == a[1..] + b;
      FilterChannelAppend(a[1..], b, channel);
      var head := if InChannel(a[0], channel) then [a[0]] else [];
      assert FilterChannel(a + b, channel) == head + FilterChannel(a[1..] + b, channel);
      assert FilterChannel(a, channel) == head + FilterChannel(a[1..], channel);
      assert head + (FilterChannel(a[1..], channel) + FilterChannel(b, channel))
          == (head + FilterChannel(a[1..], channel)) + FilterChannel(b, channel);
    } else {
      assert a + b == b;
    }
  }

  function Timestamp(m: ChatMessage): int {
    m.timestamp
  }

  /** `currentMessages` (Social.tsx:66-68): the channel's messages, oldest
      first. */
  function CurrentMessages(msgs: seq<ChatMessage>, channel: string): (r: seq<ChatMessage>)
    ensures forall m :: m in r <==> m in msgs && InChannel(m, channel)
    ensures multiset(r) == multiset(FilterChannel(msgs, channel))
    ensures forall i, j :: 0 <= i < j < |r| ==> r[i].timestamp <= r[j].timestamp
  {
    var r := Sorting.SortBy(FilterChannel(msgs, channel), Timestamp);
    assert forall m :: m in r <==> m in multiset(r);
    r
  }

  /** Each message of the channel is shown as often as it was posted, and
      no message of another channel is shown. */
  lemma CurrentMessagesCount(msgs: seq<ChatMessage>, channel: string, m: ChatMessage)
    ensures multiset(CurrentMessages(msgs, channel))[m] == if InChannel(m, channel) then multiset(msgs)[m] else 0
  {
    FilterChannelCount(msgs, channel, m);
  }

  /** Sending to the active channel adds exactly that message to what the
      channel shows; a message sent to another channel changes nothing
      there. */
  lemma SentMessageShown(msgs: seq<ChatMessage>, m: ChatMessage, channel: string)
    ensures InChannel(m, channel) ==>
      multiset(CurrentMessages(msgs + [m], channel)) == multiset(CurrentMessages(msgs, channel)) + multiset{m}
    ensures !InChannel(m, channel) ==>
      multiset(CurrentMessages(msgs + [m], channel)) == multiset(CurrentMessages(msgs, channel))
  {
    FilterChannelAppend(msgs, [m], channel);
    assert FilterChannel([m], channel) == if InChannel(m, channel) then [m] else [];
  }

  /** `showDateHeader` (Social.tsx:136-137): the first message, and every
      message whose day differs from the one before it. */
  predicate ShowDateHeader(msgs: seq<ChatMessage>, i: int, dayOf: int -> int)
    requires 0 <= i < |msgs|
  {
    i == 0 || dayOf(msgs[i - 1].timestamp) != dayOf(msgs[i].timestamp)
  }

  /** On a list in time order, with days that never go backwards in time, a
      header appears exactly above the first message of each day: no earlier
      message is from the same day. */
  lemma HeaderMarksFirstOfDay(msgs: seq<ChatMessage>, i: int, dayOf: int -> int)
    requires forall a, b :: 0 <= a < b < |msgs| ==> msgs[a].timestamp <= msgs[b].timestamp
    requires forall t1, t2 :: t1 <= t2 ==> dayOf(t1) <= dayOf(t2)
    requires 0 <= i < |msgs|
    ensures ShowDateHeader(msgs, i, dayOf) <==>
      forall j :: 0 <= j < i ==> dayOf(msgs[j].timestamp) != dayOf(msgs[i].timestamp)
  {
    if ShowDateHeader(msgs, i, dayOf) && i > 0 {
      forall j | 0 <= j < i
        ensures dayOf(msgs[j].timestamp) != dayOf(msgs[i].timestamp)
      {
        assert dayOf(msgs[j].timestamp) <= dayOf(msgs[i - 1].timestamp);
        assert dayOf(msgs[i - 1].timestamp) <= dayOf(msgs[i].timestamp);
      }
    }
  }

  /** On a header, a message's day strictly follows every earlier day. */
  lemma HeaderDaysIncrease(msgs: seq<ChatMessage>, i: int, j: int, dayOf: int -> int)
    requires forall a, b :: 0 <= a < b < |msgs| ==> msgs[a].timestamp <= msgs[b].timestamp
    requires forall t1, t2 :: t1 <= t2 ==> dayOf(t1) <= dayOf(t2)
    requires 0 <= j < i < |msgs| && ShowDateHeader(msgs, i, dayOf)
    ensures dayOf(msgs[j].timestamp) < dayOf(msgs[i].timestamp)
  {
    HeaderMarksFirstOfDay(msgs, i, dayOf);
    assert dayOf(msgs[j].timestamp) <= dayOf(msgs[i].timestamp);
  }

  /** The text of a day header. The locale's long date format is left
      abstract as the day it shows. */
  datatype DateHeader = Today | Yesterday | OnDate(day: int)

  /** `formatDateHeader` (Social.tsx:52-64) on day numbers: `yesterday` is
      the day before `today`. */
  function FormatDateHeader(day: int, today: int): (h: DateHeader)
    ensures h == Today <==> day == today
    ensures h == Yesterday <==> day == today - 1
    ensures h.OnDate? ==> h.day == day
  {
    if day == today then Today
    else if day == today - 1 then Yesterday
    else OnDate(day)
  }

  /** Shifting the message day and today by the same amount keeps the kind
      of header, and keeps the Today and Yesterday headers themselves. */
  lemma FormatDependsOnAge(day: int, today: int, shift: int)
    ensures FormatDateHeader(day + shift, today + shift).OnDate? == FormatDateHeader(day, today).OnDate?
    ensures !FormatDateHeader(day, today).OnDate? ==>
      FormatDateHeader(day + shift, today + shift) == FormatDateHeader(day, today)
  {
  }

  /** The chat component's state. */
  class Chat {
    var activeChannel: string
    var messages: seq<ChatMessage>
    var inputText: string

    constructor (now: int)
      ensures activeChannel == "general" && messages == SeedMessages(now) && inputText == ""
    {
      activeChannel, messages, inputText := "general", SeedMessages(now), "";
    }

    /** The message list on screen. */
    function Shown(): (r: seq<ChatMessage>)
      reads this
      ensures forall m :: m in r <==> m in messages && InChannel(m, activeChannel)
    {
      CurrentMessages(messages, activeChannel)
    }

    /** Typing into the input box. */
    method SetInput(text: string)
      modifies this
      ensures inputText == text
      ensures activeChannel == old(activeChannel) && messages == old(messages)
    {
      inputText := text;
    }

    /** A channel button of the sidebar (Social.tsx:81). */
    method SelectChannel(id: string)
      modifies this
      ensures activeChannel == id
      ensures messages == old(messages) && inputText == old(inputText)
    {
      activeChannel := id;
    }

    /** `handleSend` (Social.tsx:39-50): blank input sends nothing; otherwise
        the text, untrimmed, is appended as one message of the active
        channel, stamped with the clock, and the input is cleared. */
    method Send(userName: string, now: int)
      modifies this
      ensures Strings.IsBlank(old(inputText)) ==>
        messages == old(messages) && inputText == old(inputText)
      ensures !Strings.IsBlank(old(inputText)) ==>
        && messages == old(messages) + [ChatMessage(Strings.IntToString(now), userName, old(inputText), now, false, Some(old(activeChannel)))]
        && inputText == ""
      ensures activeChannel == old(activeChannel)
    {
      if Strings.Trim(inputText) == [] {
        return;
      }
      var msg := ChatMessage(Strings.IntToString(now), userName, inputText, now, false, Some(activeChannel));
      messages := messages + [msg];
      inputText := "";
    }
  }
}
