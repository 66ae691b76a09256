/** The video player screen: which video it shows, the related-videos list,
    and the `h:mm:ss` / `m:ss` position label. Positions are whole seconds:
    for a non-negative `Float` position every field the label prints is that
    of its integer part. */
module VideoPlayerScreen {
  import opened KotlinStd
  import opened KotlinText
  import opened Lists
  import opened SpiritualRepository

  /** The record shown when the catalog has no videos at all; the fields not
      given in the screen take the record type's defaults (rating 4.5, no
      likes, not live, Hindi). */
  const DefaultVideo := Video("default", "Spiritual Video", "A beautiful spiritual video",
    "Spiritual Teacher", "30:00", "1K", "Meditation", false, "Hindi", 45, 0, 0, [])

  /** `videoData`: the video with the id, else the first video, else the
      default record. */
  function VideoData(c: Catalog, videoId: string): (v: Video)
    ensures IsValidVideoId(c, videoId) ==> v.id == videoId && v in c.videos
    ensures !IsValidVideoId(c, videoId) && |c.videos| > 0 ==> v == c.videos[0]
    ensures |c.videos| == 0 ==> v == DefaultVideo
  {
    ValidIdIffFound(c, videoId);
    match VideoById(c, videoId)
    case Some(v) => v
    case None => if |c.videos| > 0 then c.videos[0] else DefaultVideo
  }

  /** The videos related to `current`: the others of its category, in
      catalog order. */
  function SameCategory(c: Catalog, current: Video): (r: seq<Video>)
    ensures IsSubseq(r, c.videos)
    ensures forall v :: v in r <==> v in c.videos && v.id != current.id && v.category == current.category
  {
    var p := (v: Video) => v.id != current.id && v.category == current.category;
    forall v ensures v in Filter(c.videos, p) <==> v in c.videos && p(v) {
      FilterMembership(c.videos, p, v);
    }
    Filter(c.videos, p)
  }

  /** `relatedVideos`: the first five of the related videos, in catalog
      order; all of them when there are fewer. */
  function RelatedVideos(c: Catalog, current: Video): (r: seq<Video>)
    ensures |r| == Min(5, |SameCategory(c, current)|)
    ensures r <= SameCategory(c, current)
    ensures IsSubseq(r, c.videos)
    ensures forall v :: v in r ==> v.id != current.id && v.category == current.category
    ensures |r| < 5 ==> forall v :: v in c.videos && v.id != current.id && v.category == current.category ==> v in r
  {
    var all := SameCategory(c, current);
    var r := Take(all, 5);
    assert r <= all;
    TakeIsSubseq(all, 5);
    SubseqTrans(r, all, c.videos);
    SubseqMembers(r, all);
    r
  }

  /** The route a related-video card opens. */
  function RelatedRoute(v: Video): (route: string)
    ensures |route| == 13 + |v.id|
    ensures route[..13] == "video_player/" && route[13..] == v.id
  {
    "video_player/" + v.id
  }

  /** The three fields of the position label. */
  datatype ClockFields = ClockFields(hours: nat, minutes: nat, seconds: nat)

  /** `hours = s / 3600`, `minutes = (s % 3600) / 60`, `seconds = s % 60`. */
  function Fields(s: nat): (f: ClockFields)
    ensures f.minutes < 60 && f.seconds < 60
    ensures f.hours * 3600 + f.minutes * 60 + f.seconds == s
  {
    ClockFields(s / 3600, (s % 3600) / 60, s % 60)
  }

  /** `formatVideoTime`: `h:mm:ss` from one hour on, `m:ss` below. */
  function FormatVideoTime(s: nat): (t: string)
    ensures s < 3600 ==> CountChar(t, ':') == 1
    ensures s >= 3600 ==> CountChar(t, ':') == 2
  {
    var f := Fields(s);
    NoSeparatorInNumber(f.hours, ':');
    NoSeparatorInNumber(f.minutes, ':');
    NoSeparatorInNumber(f.seconds, ':');
    if f.hours > 0 then
      SplitCount(NatToString(f.hours) + ":" + Pad2(f.minutes) + ":" + Pad2(f.seconds), ':');
      SplitThree(NatToString(f.hours), ':', Pad2(f.minutes), Pad2(f.seconds));
      NatToString(f.hours) + ":" + Pad2(f.minutes) + ":" + Pad2(f.seconds)
    else
      SplitCount(NatToString(f.minutes) + ":" + Pad2(f.seconds), ':');
      SplitTwo(NatToString(f.minutes), ':', Pad2(f.seconds));
      NatToString(f.minutes) + ":" + Pad2(f.seconds)
  }

  /** Reading a clock label back: `m:ss` or `h:mm:ss`, each field an `Int`. */
  function ClockValue(t: string): (r: Option<int>)
    ensures |Split(t, ':')| != 2 && |Split(t, ':')| != 3 ==> r.None?
    ensures r.Some? ==> forall i :: 0 <= i < |Split(t, ':')| ==> ToIntOrNull(Split(t, ':')[i]).Some?
  {
    var parts := Split(t, ':');
    if |parts| == 2 then
      match (ToIntOrNull(parts[0]), ToIntOrNull(parts[1]))
      case (Some(m), Some(s)) => Some(m * 60 + s)
      case _ => None
    else if |parts| == 3 then
      match (ToIntOrNull(parts[0]), ToIntOrNull(parts[1]), ToIntOrNull(parts[2]))
      case (Some(h), Some(m), Some(s)) => Some(h * 3600 + m * 60 + s)
      case _ => None
    else None
  }

  /** The label loses nothing: reading it back gives the whole seconds. */
  lemma FormatVideoTimeRoundTrip(s: nat)
    requires s / 3600 <= IntMax
    ensures ClockValue(FormatVideoTime(s)) == Some(s)
  {
    var f := Fields(s);
    NoSeparatorInNumber(f.hours, ':');
    NoSeparatorInNumber(f.minutes, ':');
    NoSeparatorInNumber(f.seconds, ':');
    ToIntOrNullOfPad2(f.minutes);
    ToIntOrNullOfPad2(f.seconds);
    if f.hours > 0 {
      SplitThree(NatToString(f.hours), ':', Pad2(f.minutes), Pad2(f.seconds));
      ToIntOrNullOfNatToString(f.hours);
    } else {
      SplitTwo(NatToString(f.minutes), ':', Pad2(f.seconds));
      ToIntOrNullOfNatToString(f.minutes);
    }
  }
}
