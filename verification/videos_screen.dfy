/** The Videos screen's derivations of the catalog: the searched and
    category-filtered list, the Satsang strip, the "Live Now" section and
    the likes-ordered trending strip. */
module VideosScreen {
  import opened KotlinText
  import opened Lists
  import opened SpiritualRepository

  /** The category chips of the screen; "Live" is a chip like any other. */
  const Categories: seq<string> := ["All", "Satsang", "Meditation", "Devotional", "Stories", "Live"]

  /** A video is shown for `query` and the chip `selected`. */
  predicate Shown(v: Video, query: string, selected: string)
  {
    (IsBlank(query) || VideoMatches(v, query)) && (selected == "All" || v.category == selected)
  }

  /** `filteredVideos`: a blank query means the whole catalog, otherwise
      `searchVideos`; then the exact category filter unless "All". */
  function FilteredVideos(c: Catalog, query: string, selected: string): (r: seq<Video>)
    ensures IsSubseq(r, c.videos)
    ensures !IsBlank(query) ==> IsSubseq(r, SearchVideos(c, query))
    ensures forall v :: v in r <==> v in c.videos && Shown(v, query, selected)
  {
    var searched := if IsBlank(query) then c.videos else SearchVideos(c, query);
    var r := if selected == "All" then searched else Filter(searched, (v: Video) => v.category == selected);
    SubseqRefl(searched);
    SubseqRefl(c.videos);
    SubseqTrans(r, searched, c.videos);
    forall v ensures v in r <==> v in c.videos && Shown(v, query, selected) {
      if selected != "All" {
        FilterMembership(searched, (v: Video) => v.category == selected, v);
      }
    }
    r
  }

  /** Nothing typed and "All" selected: the whole catalog, in order. */
  lemma BlankQueryAllShowsCatalog(c: Catalog, query: string)
    requires IsBlank(query)
    ensures FilteredVideos(c, query, "All") == c.videos
  {
  }

  /** A category chip shows only videos of exactly that category; with a
      blank query it shows that category's list. */
  lemma CategoryChipIsExact(c: Catalog, query: string, selected: string)
    requires selected != "All"
    ensures forall v :: v in FilteredVideos(c, query, selected) ==> v.category == selected
    ensures IsBlank(query) ==> FilteredVideos(c, query, selected) == VideosByCategory(c, selected)
  {
  }

  /** The "Live" chip compares the category string, not the live flag: no
      shipped video has the category "Live", so with the shipped videos the
      chip shows nothing, even though one shipped video is live. */
  lemma ShippedLiveChipIsEmpty(c: Catalog, query: string)
    requires c.videos == ShippedVideos
    ensures FilteredVideos(c, query, "Live") == []
    ensures V004 in LiveVideos(c)
  {
    var r := FilteredVideos(c, query, "Live");
    assert forall i :: 0 <= i < |c.videos| ==> c.videos[i].category != "Live";
    EmptyIffNoMembers(r);
    assert V004 == c.videos[3];
  }

  /** `satsangVideos` */
  function SatsangVideos(c: Catalog): (r: seq<Video>)
    ensures forall v :: v in r <==> v in c.videos && v.category == "Satsang"
  {
    VideosByCategory(c, "Satsang")
  }

  /** The "Live Now" section is drawn iff some video is live. The screen's
      `liveVideos` is the same filter as the repository's `getLiveVideos`. */
  predicate ShowsLiveNow(c: Catalog)
  {
    |LiveVideos(c)| > 0
  }

  lemma ShowsLiveNowIffSomeLive(c: Catalog)
    ensures ShowsLiveNow(c) <==> exists i :: 0 <= i < |c.videos| && c.videos[i].isLive
  {
    var r := LiveVideos(c);
    if |r| > 0 {
      assert r[0] in r;
      var i :| 0 <= i < |c.videos| && c.videos[i] == r[0];
    }
    if i :| 0 <= i < |c.videos| && c.videos[i].isLive {
      assert c.videos[i] in r;
    }
  }

  function Likes(v: Video): int { v.likes }

  /** `trendingVideos`: every video, most liked first, ties in catalog order;
      live videos are not excluded. */
  function TrendingShelf(c: Catalog): (r: seq<Video>)
    ensures SortedDesc(r, Likes)
    ensures multiset(r) == multiset(c.videos)
    ensures forall k :: WithKey(r, Likes, k) == WithKey(c.videos, Likes, k)
  {
    var r := SortDesc(c.videos, Likes);
    forall k ensures WithKey(r, Likes, k) == WithKey(c.videos, Likes, k) {
      SortDescStable(c.videos, Likes, k);
    }
    r
  }

  /** The trending strip: the five most liked videos. */
  function TrendingStrip(c: Catalog): (r: seq<Video>)
    ensures |r| == Min(5, |c.videos|)
    ensures IsTopK(r, c.videos, Likes, 5)
  {
    TopByKey(c.videos, Likes, 5)
  }

  /** The screen's trending strip and the repository's `getTrendingVideos`
      disagree on the shipped videos: the strip holds all five, the live one
      included, which the repository's trending list never holds. */
  lemma ShippedTrendingDisagrees(c: Catalog)
    requires c.videos == ShippedVideos
    ensures V004 in TrendingStrip(c)
    ensures V004 !in TrendingVideos(c, 5).value
  {
    assert V004 == c.videos[3];
    TopByKeyKeepsAll(c.videos, Likes, 5);
  }
}
