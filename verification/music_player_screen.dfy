/** The music player screen: which track it plays, the track length read
    from its `m:ss` duration text, the simulated playback that advances one
    second per tick, the play/pause button, and the `m:ss` position label.
    Positions are whole seconds. */
module MusicPlayerScreen {
  import opened KotlinStd
  import opened KotlinText
  import opened SpiritualRepository

  /** The track shown when the catalog has no music; the fields not given in
      the screen take the record type's defaults (rating 4.5, no plays,
      released 2024). */
  const DefaultSong := Music("default", "Om Namah Shivaya", "Divine Chants", "Sacred Mantras",
    "5:30", "Mantras", "Sanskrit", 45, 0, 2024, [])

  /** `currentSong`: the track with the id, else the first track, else the
      default track. */
  function CurrentSong(c: Catalog, songId: string): (m: Music)
    ensures IsValidMusicId(c, songId) ==> m.id == songId && m in c.music
    ensures !IsValidMusicId(c, songId) && |c.music| > 0 ==> m == c.music[0]
    ensures |c.music| == 0 ==> m == DefaultSong
  {
    ValidIdIffFound(c, songId);
    match MusicById(c, songId)
    case Some(m) => m
    case None => if |c.music| > 0 then c.music[0] else DefaultSong
  }

  /** `durationInSeconds`: exactly two colon-separated parts give
      minutes * 60 + seconds in 32-bit `Int` arithmetic (the two wrapping
      steps of the source wrap the sum once), a part that is not a number
      counting as 0; any other shape gives 300. */
  function DurationSeconds(duration: string): (d: int)
    ensures InIntRange(d)
    ensures |Split(duration, ':')| != 2 ==> d == 300
    ensures var parts := Split(duration, ':');
      |parts| == 2 ==>
        d == Wrap32(ToIntOrNull(parts[0]).GetOr(0) * 60 + ToIntOrNull(parts[1]).GetOr(0))
    ensures var parts := Split(duration, ':');
      |parts| == 2 && ToIntOrNull(parts[0]).Some? && ToIntOrNull(parts[1]).Some?
      && InIntRange(ToIntOrNull(parts[0]).value * 60 + ToIntOrNull(parts[1]).value) ==>
        d == ToIntOrNull(parts[0]).value * 60 + ToIntOrNull(parts[1]).value
    ensures var parts := Split(duration, ':');
      |parts| == 2 && ToIntOrNull(parts[0]).None? && ToIntOrNull(parts[1]).Some? ==>
        d == ToIntOrNull(parts[1]).value
    ensures var parts := Split(duration, ':');
      |parts| == 2 && ToIntOrNull(parts[0]).Some? && ToIntOrNull(parts[1]).None? ==>
        d == Wrap32(ToIntOrNull(parts[0]).value * 60)
    ensures var parts := Split(duration, ':');
      |parts| == 2 && ToIntOrNull(parts[0]).None? && ToIntOrNull(parts[1]).None? ==> d == 0
  {
    var parts := Split(duration, ':');
    if |parts| == 2 then
      WrapThenAdd(ToIntOrNull(parts[0]).GetOr(0) * 60, ToIntOrNull(parts[1]).GetOr(0));
      Wrap32(Wrap32(ToIntOrNull(parts[0]).GetOr(0) * 60) + ToIntOrNull(parts[1]).GetOr(0))
    else 300
  }

  /** `formatTime(Float)`: `m:ss` of the whole seconds. */
  function FormatTime(s: nat): (t: string)
    ensures CountChar(t, ':') == 1
  {
    NoSeparatorInNumber(s / 60, ':');
    NoSeparatorInNumber(s % 60, ':');
    SplitTwo(NatToString(s / 60), ':', Pad2(s % 60));
    SplitCount(NatToString(s / 60) + ":" + Pad2(s % 60), ':');
    NatToString(s / 60) + ":" + Pad2(s % 60)
  }

  /** The label and the duration parser are inverse: a position printed by
      `formatTime` reads back as the same number of seconds, whose seconds
      field is below 60. */
  lemma DurationOfFormatTime(s: nat)
    requires s <= IntMax
    ensures DurationSeconds(FormatTime(s)) == s
    ensures var parts := Split(FormatTime(s), ':');
      && |parts| == 2
      && ToIntOrNull(parts[0]).Some? && ToIntOrNull(parts[1]).Some?
      && 0 <= ToIntOrNull(parts[1]).value < 60
      && ToIntOrNull(parts[0]).value * 60 + ToIntOrNull(parts[1]).value == s
  {
    NoSeparatorInNumber(s / 60, ':');
    NoSeparatorInNumber(s % 60, ':');
    SplitTwo(NatToString(s / 60), ':', Pad2(s % 60));
    ToIntOrNullOfNatToString(s / 60);
    ToIntOrNullOfPad2(s % 60);
  }

  /** "27:30", the length of the first shipped track, is 1650 seconds. */
  lemma DurationOfShippedTrack()
    ensures DurationSeconds(M001.duration) == 1650
  {
    assert M001.duration == "27" + [':'] + "30";
    SplitTwo("27", ':', "30");
    ReadsBack(27, "27");
    ReadsBack(30, "30");
  }

  /** A part that is not a number counts as 0: "ab:30" is 30 seconds. */
  lemma DurationNonNumericPart()
    ensures DurationSeconds("ab:30") == 30
  {
    assert "ab:30" == "ab" + [':'] + "30";
    SplitTwo("ab", ':', "30");
    ToIntOrNullRejects("ab", 0);
    ReadsBack(30, "30");
  }

  lemma ReadsBack(n: nat, t: string)
    requires n <= IntMax && NatToString(n) == t
    ensures ToIntOrNull(t) == Some(n)
  {
    ToIntOrNullOfNatToString(n);
  }

  /** An `h:mm:ss` text has three parts and falls back to 300: "1:45:30". */
  lemma DurationThreeParts()
    ensures DurationSeconds("1:45:30") == 300
  {
    assert "1:45:30" == "1" + [':'] + "45" + [':'] + "30";
    SplitThree("1", ':', "45", "30");
  }

  // ---------------------------------------------------------------------
  // Playback state
  // ---------------------------------------------------------------------

  datatype PlayerState = PlayerState(isPlaying: bool, position: int, isLoading: bool)

  const Initial := PlayerState(false, 0, false)

  /** One second of the simulated playback for a track of `duration`
      seconds: while playing below the end the position advances by one;
      reaching the end stops playback and rewinds to 0. */
  function Tick(st: PlayerState, duration: int): (next: PlayerState)
    ensures next.isLoading == st.isLoading
    ensures !st.isPlaying ==> next == st
    ensures st.isPlaying && st.position + 1 < duration ==>
      next.isPlaying && next.position == st.position + 1
    ensures st.isPlaying && st.position + 1 >= duration ==>
      !next.isPlaying && next.position == 0
  {
    if !st.isPlaying then st
    else if st.position >= duration then st.(isPlaying := false, position := 0)
    else
      var p := st.position + 1;
      if p >= duration then st.(isPlaying := false, position := 0)
      else st.(position := p)
  }

  /** `n` ticks in a row. */
  function Ticks(st: PlayerState, duration: int, n: nat): PlayerState
    decreases n
  {
    if n == 0 then st else Ticks(Tick(st, duration), duration, n - 1)
  }

  /** While playing, the position stays within `[0, duration)`. */
  ghost predicate InBounds(st: PlayerState, duration: int)
  {
    0 <= st.position && (st.isPlaying ==> st.position < duration)
  }

  lemma {:induction false} TicksPreserveBounds(st: PlayerState, duration: int, n: nat)
    requires InBounds(st, duration)
    ensures InBounds(Ticks(st, duration, n), duration)
    decreases n
  {
    if n > 0 {
      TicksPreserveBounds(Tick(st, duration), duration, n - 1);
    }
  }

  /** Playing for `n` seconds that end before the track does advances the
      position by `n`. */
  lemma {:induction false} TicksAdvance(st: PlayerState, duration: int, n: nat)
    requires st.isPlaying && st.position + n < duration
    ensures Ticks(st, duration, n) == st.(position := st.position + n)
    decreases n
  {
    if n > 0 {
      TicksAdvance(Tick(st, duration), duration, n - 1);
    }
  }

  /** Playing to the end: from position `p`, `duration - p` ticks stop the
      playback and rewind to the start. */
  lemma PlaysToEnd(st: PlayerState, duration: int)
    requires st.isPlaying && 0 <= st.position < duration
    ensures var end := Ticks(st, duration, duration - st.position);
      !end.isPlaying && end.position == 0 && end.isLoading == st.isLoading
  {
    var n := duration - st.position - 1;
    TicksAdvance(st, duration, n);
    var before := st.(position := st.position + n);
    assert Ticks(st, duration, n + 1) == Tick(Ticks(st, duration, n), duration) by {
      TicksLast(st, duration, n);
    }
  }

  lemma {:induction false} TicksLast(st: PlayerState, duration: int, n: nat)
    ensures Ticks(st, duration, n + 1) == Tick(Ticks(st, duration, n), duration)
    decreases n
  {
    if n > 0 {
      TicksLast(Tick(st, duration), duration, n - 1);
    }
  }

  /** The play/pause button. */
  function TogglePlay(st: PlayerState): (next: PlayerState)
    ensures next.isPlaying != st.isPlaying
    ensures !next.isLoading
    ensures next.position == st.position
  {
    st.(isPlaying := !st.isPlaying, isLoading := false)
  }

  /** Pressing the button twice restores the playing flag. */
  lemma TogglePlayTwice(st: PlayerState)
    ensures TogglePlay(TogglePlay(st)) == st.(isLoading := false)
  {
  }
}
