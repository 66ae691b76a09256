/** The Events screen: its own list of five sample events (a record type
    distinct from the catalog's events), the category and time filter, and
    the labels of an event card. The list is built at clock reading
    `createdAt` and filtered at clock reading `now`, both in milliseconds. */
module EventsScreen {
  import opened KotlinStd
  import opened KotlinText
  import opened Lists

  datatype ScreenEvent = ScreenEvent(
    id: string, title: string, location: string, startTime: int, endTime: int,
    organizer: string, category: string, isOnline: bool,
    registrationRequired: bool, maxAttendees: Option<int>,
    currentAttendees: int, price: string)

  const Day: int := 86400000
  const Hour: int := 3600000
  const Week: int := 604800000
  /** Thirty days. */
  const Month: int := 2592000000

  /** The screen's sample events. */
  function SampleEvents(createdAt: int): seq<ScreenEvent>
  {
    [ ScreenEvent("1", "Ram Mandir Satsang", "Mohali Community Center",
        createdAt + Day, createdAt + Day + 7200000, "Local Satsang Group", "Satsang",
        false, true, Some(100), 67, "Free"),
      ScreenEvent("2", "Online Mahamrityunjaya Mantra Jaap", "Zoom Meeting",
        createdAt + Hour, createdAt + Hour + 5400000, "Divine Chants Group", "Mantra",
        true, false, None, 234, "Free"),
      ScreenEvent("3", "Yoga and Meditation Retreat", "Rishikesh Ashram",
        createdAt + Week, createdAt + Week + 259200000, "Himalayan Yoga Center", "Retreat",
        false, true, Some(50), 23, "₹2500"),
      ScreenEvent("4", "Bhagavad Gita Discourse", "Local Temple Hall",
        createdAt + 259200000, createdAt + 259200000 + 5400000, "Spiritual Study Circle", "Study",
        false, false, Some(80), 45, "Free"),
      ScreenEvent("5", "Full Moon Meditation", "Online & Chandigarh Center",
        createdAt + 1209600000, createdAt + 1209600000 + Hour, "Lunar Energy Circle", "Meditation",
        true, true, Some(200), 89, "Free") ]
  }

  const Categories: seq<string> := ["All", "Satsang", "Mantra", "Retreat", "Study", "Meditation"]
  const TimeFilters: seq<string> := ["Upcoming", "This Week", "This Month"]

  /** The time filter: "This Week" and "This Month" bound the start time from
      above; "Upcoming" and any other value keep every event. */
  predicate TimeMatch(e: ScreenEvent, timeFilter: string, now: int)
    ensures timeFilter != "This Week" && timeFilter != "This Month" ==> TimeMatch(e, timeFilter, now)
    ensures e.startTime <= now + Week ==> TimeMatch(e, timeFilter, now)
    ensures TimeMatch(e, timeFilter, now) && (timeFilter == "This Week" || timeFilter == "This Month") ==>
      e.startTime <= now + Month
  {
    match timeFilter
    case "This Week" => e.startTime <= now + Week
    case "This Month" => e.startTime <= now + Month
    case _ => true
  }

  predicate EventShown(e: ScreenEvent, category: string, timeFilter: string, now: int)
  {
    (category == "All" || e.category == category) && TimeMatch(e, timeFilter, now)
  }

  /** `filteredEvents` */
  function FilteredEvents(events: seq<ScreenEvent>, category: string, timeFilter: string, now: int)
    : (r: seq<ScreenEvent>)
    ensures IsSubseq(r, events)
    ensures forall e :: e in r <==> e in events && EventShown(e, category, timeFilter, now)
  {
    var r := Filter(events, (e: ScreenEvent) => EventShown(e, category, timeFilter, now));
    forall e ensures e in r <==> e in events && EventShown(e, category, timeFilter, now) {
      FilterMembership(events, (e: ScreenEvent) => EventShown(e, category, timeFilter, now), e);
    }
    r
  }

  /** "All" with "Upcoming", or with a time filter the screen does not know,
      keeps every event in order. */
  lemma AllUpcomingKeepsEverything(events: seq<ScreenEvent>, timeFilter: string, now: int)
    requires timeFilter != "This Week" && timeFilter != "This Month"
    ensures FilteredEvents(events, "All", timeFilter, now) == events
  {
    FilterAll(events, (e: ScreenEvent) => EventShown(e, "All", timeFilter, now));
  }

  /** Any other category keeps only events of exactly that category. */
  lemma CategoryIsExact(events: seq<ScreenEvent>, category: string, timeFilter: string, now: int)
    requires category != "All"
    ensures forall e :: e in FilteredEvents(events, category, timeFilter, now) ==> e.category == category
  {
  }

  /** What "This Week" keeps, "This Month" keeps too, in the same order. */
  lemma WeekWithinMonth(events: seq<ScreenEvent>, category: string, now: int)
    ensures IsSubseq(FilteredEvents(events, category, "This Week", now),
                     FilteredEvents(events, category, "This Month", now))
  {
    FilterStronger(events, (e: ScreenEvent) => EventShown(e, category, "This Week", now),
                           (e: ScreenEvent) => EventShown(e, category, "This Month", now));
  }

  /** Filtered straight after the list is built, "This Week" keeps the first
      four sample events (the retreat starts exactly one week ahead and is
      kept) and drops the full-moon meditation two weeks ahead, which "This
      Month" keeps. */
  lemma SampleWeekAndMonth(now: int)
    ensures FilteredEvents(SampleEvents(now), "All", "This Week", now) == SampleEvents(now)[..4]
    ensures FilteredEvents(SampleEvents(now), "All", "This Month", now) == SampleEvents(now)
  {
    SampleStartTimes(now);
    WeekAndMonthOf(SampleEvents(now), now);
  }

  /** Five events of which only the last starts more than a week ahead, and
      none more than a month ahead. */
  lemma WeekAndMonthOf(s: seq<ScreenEvent>, now: int)
    requires |s| == 5
    requires forall i :: 0 <= i < 4 ==> s[i].startTime <= now + Week
    requires now + Week < s[4].startTime <= now + Month
    ensures FilteredEvents(s, "All", "This Week", now) == s[..4]
    ensures FilteredEvents(s, "All", "This Month", now) == s
  {
    WeekOf(s, now);
    var month := (e: ScreenEvent) => EventShown(e, "All", "This Month", now);
    FilterAll(s, month);
  }

  lemma WeekOf(s: seq<ScreenEvent>, now: int)
    requires |s| == 5
    requires forall i :: 0 <= i < 4 ==> s[i].startTime <= now + Week
    requires now + Week < s[4].startTime
    ensures FilteredEvents(s, "All", "This Week", now) == s[..4]
  {
    var week := (e: ScreenEvent) => EventShown(e, "All", "This Week", now);
    assert s == s[..4] + [s[4]];
    assert Filter([s[4]], week) == [];
    FilterAll(s[..4], week);
    FilterAppend(s[..4], [s[4]], week);
  }

  /** Where the sample events start, relative to a week and a month ahead. */
  lemma SampleStartTimes(now: int)
    ensures forall i :: 0 <= i < 4 ==> SampleEvents(now)[i].startTime <= now + Week
    ensures now + Week < SampleEvents(now)[4].startTime <= now + Month
  {
  }

  /** The attendee label: `cur/max`, or `cur attending` when there is no
      maximum. */
  function AttendeeLabel(e: ScreenEvent): (t: string)
    ensures e.maxAttendees.Some? ==>
      Split(t, '/') == [IntToString(e.currentAttendees), IntToString(e.maxAttendees.value)]
    ensures e.maxAttendees.None? ==> '/' !in t && StartsWith(t, IntToString(e.currentAttendees))
  {
    NoSlashInInt(e.currentAttendees);
    match e.maxAttendees
    case Some(m) =>
      NoSlashInInt(m);
      SplitTwo(IntToString(e.currentAttendees), '/', IntToString(m));
      IntToString(e.currentAttendees) + "/" + IntToString(m)
    case None =>
      IntToString(e.currentAttendees) + " attending"
  }

  lemma NoSlashInInt(n: int)
    ensures '/' !in IntToString(n)
  {
    if n >= 0 {
      NoSeparatorInNumber(n, '/');
    } else {
      NoSeparatorInNumber(-n, '/');
    }
  }

  /** The price badge: drawn for an event that is not free, showing its
      price text. */
  function PriceBadge(e: ScreenEvent): (badge: Option<string>)
    ensures badge.Some? <==> e.price != "Free"
    ensures badge.Some? ==> badge.value == e.price
  {
    if e.price != "Free" then Some(e.price) else None
  }

  /** The action button: "Register" when registration is required, else
      "Join". */
  function ActionLabel(e: ScreenEvent): (t: string)
    ensures t == "Register" <==> e.registrationRequired
    ensures t == "Join" <==> !e.registrationRequired
  {
    if e.registrationRequired then "Register" else "Join"
  }

  /** Of the sample events only the retreat shows a price badge, and the two
      without required registration show "Join". */
  lemma SampleCardLabels(createdAt: int)
    ensures forall i :: 0 <= i < 5 ==>
      (PriceBadge(SampleEvents(createdAt)[i]).Some? <==> i == 2)
    ensures forall i :: 0 <= i < 5 ==>
      (ActionLabel(SampleEvents(createdAt)[i]) == "Join" <==> i == 1 || i == 3)
  {
  }
}
