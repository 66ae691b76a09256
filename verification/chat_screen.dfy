/** The Chat screen: the sample community groups, the tab and group
    selection that decides which view is drawn, the message box whose send
    button only clears it, the two-letter group avatar, and the relative
    time label. Clock readings are milliseconds. */
module ChatScreen {
  import opened KotlinStd
  import opened KotlinText
  import opened Lists

  datatype ChatGroup = ChatGroup(
    id: string, name: string, description: string, memberCount: int,
    lastMessage: string, lastMessageTime: int, isActive: bool)

  const Minute: int := 60000
  const Hour: int := 3600000
  const Day: int := 86400000

  /** The five sample groups, their last messages 1, 2, 4, 6 and 8 hours
      before `createdAt`. */
  function SampleGroups(createdAt: int): seq<ChatGroup>
  {
    [ ChatGroup("1", "Morning Meditation", "Daily morning spiritual practice", 45,
        "See you all tomorrow at 6 AM!", createdAt - Hour, true),
      ChatGroup("2", "Evening Satsang", "Community evening discussions", 78,
        "Thank you for today's session 🙏", createdAt - 2 * Hour, true),
      ChatGroup("3", "Bhagavad Gita Study", "Weekly scripture study group", 32,
        "Chapter 2 discussion was amazing!", createdAt - 4 * Hour, true),
      ChatGroup("4", "Yoga Practitioners", "Share yoga experiences", 56,
        "New pose tutorial uploaded!", createdAt - 6 * Hour, true),
      ChatGroup("5", "Devotional Music", "Share and discuss spiritual music", 89,
        "Love the new kirtan recording!", createdAt - 8 * Hour, true) ]
  }

  // ---------------------------------------------------------------------
  // Screen state and the view it selects
  // ---------------------------------------------------------------------

  datatype ChatState = ChatState(selectedTab: int, selectedGroup: Option<ChatGroup>, messageText: string)

  const Initial := ChatState(0, None, "")

  datatype View = GroupList | GroupView(group: ChatGroup) | DirectList | NoView

  /** The `when (selectedTab)` of the screen: tab 0 shows the group list or
      the open group, tab 1 the direct chats, any other value nothing. */
  function CurrentView(st: ChatState): (v: View)
    ensures v.GroupView? <==> st.selectedTab == 0 && st.selectedGroup.Some?
    ensures v == GroupList <==> st.selectedTab == 0 && st.selectedGroup.None?
    ensures v == DirectList <==> st.selectedTab == 1
    ensures v.GroupView? ==> Some(v.group) == st.selectedGroup
  {
    if st.selectedTab == 0 then
      match st.selectedGroup
      case None => GroupList
      case Some(g) => GroupView(g)
    else if st.selectedTab == 1 then DirectList
    else NoView
  }

  /** The message box lives inside the open group's view: whenever a step
      changes the view on screen, the view is composed afresh and the box
      starts empty. */
  function Recompose(before: ChatState, after: ChatState): (st: ChatState)
    ensures CurrentView(st) == CurrentView(after)
    ensures st.selectedTab == after.selectedTab && st.selectedGroup == after.selectedGroup
    ensures CurrentView(after) == CurrentView(before) ==> st.messageText == after.messageText
    ensures CurrentView(after) != CurrentView(before) ==> st.messageText == ""
  {
    if CurrentView(after) == CurrentView(before) then after else after.(messageText := "")
  }

  /** Tapping the "Groups" (0) or "Direct" (1) tab. */
  function SelectTab(st: ChatState, tab: int): (next: ChatState)
    ensures next.selectedTab == tab && next.selectedGroup == st.selectedGroup
    ensures st.selectedTab == 0 && tab != 0 ==> next.messageText == ""
    ensures tab == st.selectedTab ==> next == st
  {
    Recompose(st, st.(selectedTab := tab))
  }

  /** Tapping a group in the list opens it. */
  function OpenGroup(st: ChatState, g: ChatGroup): (next: ChatState)
    ensures next.selectedGroup == Some(g) && next.selectedTab == st.selectedTab
    ensures CurrentView(st) == GroupList ==> CurrentView(next) == GroupView(g) && next.messageText == ""
  {
    Recompose(st, st.(selectedGroup := Some(g)))
  }

  /** The back arrow of an open group. */
  function Back(st: ChatState): (next: ChatState)
    ensures next.selectedGroup.None? && next.selectedTab == st.selectedTab
    ensures CurrentView(st).GroupView? ==> CurrentView(next) == GroupList && next.messageText == ""
  {
    Recompose(st, st.(selectedGroup := None))
  }

  /** Typing into the message box, which exists only in an open group. */
  function TypeMessage(st: ChatState, text: string): (next: ChatState)
    ensures CurrentView(st).GroupView? ==> next == st.(messageText := text)
    ensures !CurrentView(st).GroupView? ==> next == st
  {
    if CurrentView(st).GroupView? then st.(messageText := text) else st
  }

  /** The box holds text only while a group is open. */
  predicate TextOnlyInGroup(st: ChatState)
  {
    st.messageText != "" ==> CurrentView(st).GroupView?
  }

  /** Every step of the screen keeps the typed text inside an open group. */
  lemma StepsKeepTextInGroup(st: ChatState, tab: int, g: ChatGroup, text: string)
    requires TextOnlyInGroup(st)
    ensures TextOnlyInGroup(SelectTab(st, tab))
    ensures TextOnlyInGroup(OpenGroup(st, g))
    ensures TextOnlyInGroup(Back(st))
    ensures TextOnlyInGroup(TypeMessage(st, text))
    ensures TextOnlyInGroup(Send(st))
  {
  }

  /** Opening a group from the group list shows that group, and the back
      arrow returns to the list; switching to "Direct" and back shows the
      group again. Leaving the group's view, by the back arrow or by the
      "Direct" tab, drops whatever was typed. */
  lemma OpenThenBack(st: ChatState, g: ChatGroup, text: string)
    requires CurrentView(st) == GroupList
    ensures CurrentView(OpenGroup(st, g)) == GroupView(g)
    ensures Back(OpenGroup(st, g)) == st.(messageText := "")
    ensures CurrentView(SelectTab(SelectTab(OpenGroup(st, g), 1), 0)) == GroupView(g)
    ensures Back(TypeMessage(OpenGroup(st, g), text)).messageText == ""
    ensures OpenGroup(Back(TypeMessage(OpenGroup(st, g), text)), g).messageText == ""
    ensures SelectTab(SelectTab(TypeMessage(OpenGroup(st, g), text), 1), 0).messageText == ""
    ensures TypeMessage(OpenGroup(st, g), text).messageText == text
  {
  }

  /** The send button: a non-empty message is cleared and sent nowhere; an
      empty one changes nothing. */
  function Send(st: ChatState): (next: ChatState)
    ensures next.messageText == ""
    ensures next.selectedTab == st.selectedTab && next.selectedGroup == st.selectedGroup
    ensures st.messageText == "" ==> next == st
  {
    if st.messageText != "" then st.(messageText := "") else st
  }

  /** Whatever was typed, sending leaves the same state as never typing:
      no message is kept anywhere. */
  lemma SendForgetsMessage(st: ChatState, text: string)
    ensures Send(TypeMessage(st, text)) == st.(messageText := "")
    ensures Send(Send(st)) == Send(st)
  {
  }

  // ---------------------------------------------------------------------
  // Avatars
  // ---------------------------------------------------------------------

  /** The group avatar: `name.take(2).uppercase()`. */
  function Avatar(name: string): (a: string)
    ensures |a| == Min(2, |name|)
    ensures forall i :: 0 <= i < |a| ==> a[i] == UpperChar(name[i])
  {
    Upper(Take(name, 2))
  }

  /** An avatar is its own avatar: it is already short and upper case. */
  lemma AvatarIdempotent(name: string)
    ensures Avatar(Avatar(name)) == Avatar(name)
  {
    var a := Avatar(name);
    forall i | 0 <= i < |a| ensures UpperChar(a[i]) == a[i] {
      assert a[i] == UpperChar(name[i]);
    }
  }

  /** The sample groups' avatars. */
  lemma SampleAvatars(createdAt: int)
    ensures Avatar(SampleGroups(createdAt)[0].name) == "MO"
    ensures Avatar(SampleGroups(createdAt)[2].name) == "BH"
  {
  }

  // ---------------------------------------------------------------------
  // Relative time
  // ---------------------------------------------------------------------

  /** What `formatTime` prints: "Now", "<n>m ago", "<n>h ago", or a
      locale-formatted date of the timestamp. */
  datatype TimeLabel = JustNow | MinutesAgo(minutes: int) | HoursAgo(hours: int) | DateOf(timestamp: int)

  /** `formatTime(timestamp)` read at clock `now`. A timestamp in the future
      gives a negative difference and so "Now". The divisions happen on a
      non-negative difference, where truncation and Euclidean division
      agree. */
  function FormatTime(timestamp: int, now: int): (l: TimeLabel)
    ensures l == JustNow <==> now - timestamp < Minute
    ensures l.MinutesAgo? <==> Minute <= now - timestamp < Hour
    ensures l.HoursAgo? <==> Hour <= now - timestamp < Day
    ensures l.DateOf? <==> Day <= now - timestamp
    ensures l.MinutesAgo? ==>
      (1 <= l.minutes < 60 && l.minutes * Minute <= now - timestamp < (l.minutes + 1) * Minute)
    ensures l.HoursAgo? ==>
      (1 <= l.hours < 24 && l.hours * Hour <= now - timestamp < (l.hours + 1) * Hour)
    ensures l.DateOf? ==> l.timestamp == timestamp
  {
    var diff := now - timestamp;
    if diff < Minute then JustNow
    else if diff < Hour then MinutesAgo(TruncDiv(diff, Minute))
    else if diff < Day then HoursAgo(TruncDiv(diff, Hour))
    else DateOf(timestamp)
  }

  /** The text of a label; the date text is locale-dependent and is left
      as `None`. */
  function LabelText(l: TimeLabel): (t: Option<string>)
    ensures l.DateOf? <==> t.None?
    ensures t == Some("Now") <==> l == JustNow
  {
    match l
    case JustNow => Some("Now")
    case MinutesAgo(m) => Some(IntToString(m) + "m ago")
    case HoursAgo(h) => Some(IntToString(h) + "h ago")
    case DateOf(_) => None
  }

  /** The minute and hour labels of `formatTime` read back: the text is the
      number followed by the unit suffix, and the number parses back. */
  lemma LabelTextReadsBack(timestamp: int, now: int)
    ensures var l := FormatTime(timestamp, now);
      var t := LabelText(l);
      && (l.MinutesAgo? ==> |t.value| > 5 && t.value[|t.value| - 5..] == "m ago"
                            && ToIntOrNull(t.value[..|t.value| - 5]) == Some(l.minutes))
      && (l.HoursAgo? ==> |t.value| > 5 && t.value[|t.value| - 5..] == "h ago"
                          && ToIntOrNull(t.value[..|t.value| - 5]) == Some(l.hours))
  {
    var l := FormatTime(timestamp, now);
    if l.MinutesAgo? {
      ToIntOrNullOfNatToString(l.minutes);
      var t := NatToString(l.minutes) + "m ago";
      assert t[..|t| - 5] == NatToString(l.minutes);
    } else if l.HoursAgo? {
      ToIntOrNullOfNatToString(l.hours);
      var t := NatToString(l.hours) + "h ago";
      assert t[..|t| - 5] == NatToString(l.hours);
    }
  }

  /** How old a label says a message is, coarsest unit last. */
  function Age(l: TimeLabel): int
  {
    match l
    case JustNow => 0
    case MinutesAgo(m) => m * Minute
    case HoursAgo(h) => h * Hour
    case DateOf(_) => Day
  }

  /** An older message never gets a younger label: the age a label states
      grows with the time elapsed since the message. */
  lemma FormatTimeMonotone(t1: int, t2: int, now: int)
    requires t2 <= t1
    ensures Age(FormatTime(t1, now)) <= Age(FormatTime(t2, now))
  {
    var l1, l2 := FormatTime(t1, now), FormatTime(t2, now);
    if l1.MinutesAgo? && l2.MinutesAgo? {
      assert l1.minutes * Minute <= now - t1 <= now - t2 < (l2.minutes + 1) * Minute;
    } else if l1.HoursAgo? && l2.HoursAgo? {
      assert l1.hours * Hour <= now - t1 <= now - t2 < (l2.hours + 1) * Hour;
    }
  }

  /** Read within an hour of the list being built, the sample groups show
      "1h ago", "2h ago", "4h ago", "6h ago" and "8h ago". */
  lemma SampleGroupLabels(createdAt: int, now: int)
    requires createdAt <= now < createdAt + Hour
    ensures FormatTime(SampleGroups(createdAt)[0].lastMessageTime, now) == HoursAgo(1)
    ensures FormatTime(SampleGroups(createdAt)[1].lastMessageTime, now) == HoursAgo(2)
    ensures FormatTime(SampleGroups(createdAt)[2].lastMessageTime, now) == HoursAgo(4)
    ensures FormatTime(SampleGroups(createdAt)[3].lastMessageTime, now) == HoursAgo(6)
    ensures FormatTime(SampleGroups(createdAt)[4].lastMessageTime, now) == HoursAgo(8)
  {
    var e := now - createdAt;
    HoursOf(1, e);
    HoursOf(2, e);
    HoursOf(4, e);
    HoursOf(6, e);
    HoursOf(8, e);
  }

  lemma HoursOf(h: int, e: int)
    requires 1 <= h < 24 && 0 <= e < Hour
    ensures TruncDiv(h * Hour + e, Hour) == h
  {
  }
}
