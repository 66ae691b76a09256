/** The Music screen's derivations of the catalog: the searched and
    category-filtered list, the mantras and devotional strips, and the
    play-count and release-year sorts. */
module MusicScreen {
  import opened KotlinText
  import opened Lists
  import opened SpiritualRepository

  /** The category chips of the screen. */
  const Categories: seq<string> := ["All", "Mantras", "Devotional", "Meditation", "Prayers"]

  /** A track is shown for `query` and the chip `selected`. */
  predicate Shown(m: Music, query: string, selected: string)
  {
    (IsBlank(query) || MusicMatches(m, query)) && (selected == "All" || m.category == selected)
  }

  /** `filteredMusic`: a blank query means the whole catalog, otherwise
      `searchMusic`; then the exact category filter unless "All". */
  function FilteredMusic(c: Catalog, query: string, selected: string): (r: seq<Music>)
    ensures IsSubseq(r, c.music)
    ensures !IsBlank(query) ==> IsSubseq(r, SearchMusic(c, query))
    ensures forall m :: m in r <==> m in c.music && Shown(m, query, selected)
  {
    var searched := if IsBlank(query) then c.music else SearchMusic(c, query);
    var r := if selected == "All" then searched else Filter(searched, (m: Music) => m.category == selected);
    SubseqRefl(searched);
    SubseqRefl(c.music);
    SubseqTrans(r, searched, c.music);
    forall m ensures m in r <==> m in c.music && Shown(m, query, selected) {
      if selected != "All" {
        FilterMembership(searched, (m: Music) => m.category == selected, m);
      }
    }
    r
  }

  /** Nothing typed and "All" selected: the whole catalog, in order. */
  lemma BlankQueryAllShowsCatalog(c: Catalog, query: string)
    requires IsBlank(query)
    ensures FilteredMusic(c, query, "All") == c.music
  {
  }

  /** A category chip shows only tracks of exactly that category; with a
      blank query it shows that category's list. */
  lemma CategoryChipIsExact(c: Catalog, query: string, selected: string)
    requires selected != "All"
    ensures forall m :: m in FilteredMusic(c, query, selected) ==> m.category == selected
    ensures IsBlank(query) ==> FilteredMusic(c, query, selected) == MusicByCategory(c, selected)
  {
  }

  /** The two category strips. */
  function MantrasMusic(c: Catalog): (r: seq<Music>)
    ensures forall m :: m in r <==> m in c.music && m.category == "Mantras"
  {
    MusicByCategory(c, "Mantras")
  }

  function DevotionalMusic(c: Catalog): (r: seq<Music>)
    ensures forall m :: m in r <==> m in c.music && m.category == "Devotional"
  {
    MusicByCategory(c, "Devotional")
  }

  function PlayCount(m: Music): int { m.playCount }
  function ReleaseYear(m: Music): int { m.releaseYear }

  /** `popularMusic`: every track, most played first, ties in catalog order.
      Unlike the repository's ranking the rating plays no part. */
  function PopularMusicShelf(c: Catalog): (r: seq<Music>)
    ensures SortedDesc(r, PlayCount)
    ensures multiset(r) == multiset(c.music)
    ensures forall k :: WithKey(r, PlayCount, k) == WithKey(c.music, PlayCount, k)
  {
    var r := SortDesc(c.music, PlayCount);
    forall k ensures WithKey(r, PlayCount, k) == WithKey(c.music, PlayCount, k) {
      SortDescStable(c.music, PlayCount, k);
    }
    r
  }

  /** The "Popular" strip: the five most played tracks. */
  function PopularStrip(c: Catalog): (r: seq<Music>)
    ensures |r| == Min(5, |c.music|)
    ensures IsTopK(r, c.music, PlayCount, 5)
  {
    TopByKey(c.music, PlayCount, 5)
  }

  /** `recentMusic`: every track, newest release year first. */
  function RecentMusicShelf(c: Catalog): (r: seq<Music>)
    ensures SortedDesc(r, ReleaseYear)
    ensures multiset(r) == multiset(c.music)
    ensures forall k :: WithKey(r, ReleaseYear, k) == WithKey(c.music, ReleaseYear, k)
  {
    var r := SortDesc(c.music, ReleaseYear);
    forall k ensures WithKey(r, ReleaseYear, k) == WithKey(c.music, ReleaseYear, k) {
      SortDescStable(c.music, ReleaseYear, k);
    }
    r
  }

  /** The screen's play-count ranking and the repository's rating-weighted
      one can disagree: a track rated 1.0 with 100 plays heads the screen's
      strip, while one rated 5.0 with 90 plays heads `getPopularMusic`. */
  lemma PopularRankingsDisagree()
    ensures var a := Music("a", "", "", "", "", "", "", 10, 100, 2024, []);
            var b := Music("b", "", "", "", "", "", "", 50, 90, 2024, []);
            var c := Catalog([], [a, b], [], []);
            PopularStrip(c)[0] == a && PopularMusic(c, 5).value[0] == b
  {
    var a := Music("a", "", "", "", "", "", "", 10, 100, 2024, []);
    var b := Music("b", "", "", "", "", "", "", 50, 90, 2024, []);
    var c := Catalog([], [a, b], [], []);
    var s := PopularStrip(c);
    var p := PopularMusic(c, 5).value;
    assert |s| == 2 && |p| == 2;
    assert multiset(s) == multiset([a, b]) && multiset(p) == multiset([a, b]);
    assert s[0] in multiset([a, b]) && p[0] in multiset([a, b]);
    assert s[1] in multiset([a, b]) && p[1] in multiset([a, b]);
  }
}
