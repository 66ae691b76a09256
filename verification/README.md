# Jaigurudev App — a Dafny model of the content core

This project models the core of the Jaigurudev spiritual-content Android app
and proves properties of the model. The app is written in Kotlin with Jetpack
Compose. The model covers:

- the `SpiritualRepository` catalog of videos, music tracks, books and events,
  with its search, filter, ranking, recommendation, favourites and statistics
  operations;
- the screens that derive their lists and labels from the catalog: Books,
  Music and Videos, the three players (video, music and book reader), Events
  and Chat;
- the sign-in and sign-up screens, including their completion listeners;
- the navigation: the route names, the two navigation graphs chosen by the
  logged-in flag, the bottom bar, and the gates in front of the players;
- the background `MusicService` with its media notification.

One Dafny module stands for each Kotlin file. The support modules are:

- `KotlinStd`: `Option`, `Outcome`, 32-bit wrap-around and truncating
  division;
- `KotlinText`: ASCII case folding, `contains`, `isBlank` with the JVM's
  whitespace, `split`, `toIntOrNull` on ASCII digits, decimal printing and
  `%02d`;
- `Lists`: subsequences, `filter`, a stable descending sort, `take`, top-k,
  `distinct`, ascending string sort and `find`.

The model makes these choices:

- The singleton repository is an explicit `Catalog` value. `Shipped(now)` is
  the data the app ships; its event times are offsets from the clock reading
  `now`. Its lists are `ShippedVideos`, `ShippedMusic` and `ShippedBooks`. A
  fact about the shipped videos or books is stated for every catalog that
  holds that list, `Shipped(now)` among them.
- Ratings are integer tenths, so 4.9 is `49`. Popularity products and rating
  comparisons keep their order under that scaling.
- Clock readings are parameters, in milliseconds.
- A Kotlin `take(n)` with a negative `n` throws. `getRecent*` catch the
  exception and return an empty list. The catch blocks of `getPopular*`,
  `getTrendingVideos` and `getRecommended*` call `take(limit)` again, so the
  exception escapes. The model returns `Outcome.Throws` in that case.
- Screen state is an immutable record. Each button or listener is a function
  from the old state to the new one.
- A Firebase task's outcome is the `TaskResult` parameter: success, or
  failure with a message that may be null.
- The search functions also match the description field of videos and
  books (SpiritualRepository.kt:456-481).

## Model

| member | source | states |
|---|---|---|
| SpiritualRepository.SearchVideos | app/src/main/java/com/example/jaigurudevapp/data/SpiritualRepository.kt:456-463 | the result keeps catalog order and holds exactly the videos whose title, description, creator or a tag contains the query, ignoring case |
| SpiritualRepository.SearchMusic | app/src/main/java/com/example/jaigurudevapp/data/SpiritualRepository.kt:465-472 | in catalog order, exactly the tracks whose title, artist, album or a tag contains the query, ignoring case |
| SpiritualRepository.SearchBooks | app/src/main/java/com/example/jaigurudevapp/data/SpiritualRepository.kt:474-481 | in catalog order, exactly the books whose title, author, description or a tag contains the query, ignoring case |
| SpiritualRepository.SearchEmptyQuery | app/src/main/java/com/example/jaigurudevapp/data/SpiritualRepository.kt:456-481 | the empty query matches every item, so each search returns its whole list |
| SpiritualRepository.VideosByCategory | app/src/main/java/com/example/jaigurudevapp/data/SpiritualRepository.kt:484-486 | in catalog order, exactly the videos whose category equals the argument, case included |
| SpiritualRepository.MusicByCategory | app/src/main/java/com/example/jaigurudevapp/data/SpiritualRepository.kt:488-490 | in catalog order, exactly the tracks of that exact category |
| SpiritualRepository.BooksByCategory | app/src/main/java/com/example/jaigurudevapp/data/SpiritualRepository.kt:492-494 | in catalog order, exactly the books of that exact category |
| SpiritualRepository.VideosByLanguage | app/src/main/java/com/example/jaigurudevapp/data/SpiritualRepository.kt:655-661 | in catalog order, exactly the videos whose language equals the argument ignoring case |
| SpiritualRepository.MusicByLanguage | app/src/main/java/com/example/jaigurudevapp/data/SpiritualRepository.kt:663-669 | in catalog order, exactly the tracks in that language, ignoring case |
| SpiritualRepository.BooksByLanguage | app/src/main/java/com/example/jaigurudevapp/data/SpiritualRepository.kt:671-677 | in catalog order, exactly the books in that language, ignoring case |
| SpiritualRepository.LanguageFilterIgnoresCase | app/src/main/java/com/example/jaigurudevapp/data/SpiritualRepository.kt:655-677 | two language arguments that differ only in letter case select the same lists |
| SpiritualRepository.SortedDistinct | app/src/main/java/com/example/jaigurudevapp/data/SpiritualRepository.kt:565-571 | `distinct().sorted()` gives an ascending list without repeats, holding exactly the input's values |
| SpiritualRepository.VideoCategories | app/src/main/java/com/example/jaigurudevapp/data/SpiritualRepository.kt:565-571 | the video categories: sorted, no repeats, and a string is listed iff some video has it as its category |
| SpiritualRepository.MusicCategories | app/src/main/java/com/example/jaigurudevapp/data/SpiritualRepository.kt:573-579 | the music categories: sorted, no repeats, exactly the categories some track has |
| SpiritualRepository.BookCategories | app/src/main/java/com/example/jaigurudevapp/data/SpiritualRepository.kt:581-587 | the book categories: sorted, no repeats, exactly the categories some book has |
| SpiritualRepository.PopularVideos | app/src/main/java/com/example/jaigurudevapp/data/SpiritualRepository.kt:590-598 | throws iff the limit is negative; otherwise the `limit` videos with the highest rating times likes, in descending order and drawn from the catalog |
| SpiritualRepository.PopularMusic | app/src/main/java/com/example/jaigurudevapp/data/SpiritualRepository.kt:600-608 | throws iff the limit is negative; otherwise the top `limit` tracks by rating times play count |
| SpiritualRepository.PopularBooks | app/src/main/java/com/example/jaigurudevapp/data/SpiritualRepository.kt:610-618 | throws iff the limit is negative; otherwise the top `limit` books by rating |
| SpiritualRepository.PopularTiesKeepCatalogOrder | app/src/main/java/com/example/jaigurudevapp/data/SpiritualRepository.kt:590-618 | items of equal popularity appear in catalog order, as a prefix of the catalog's items with that score |
| SpiritualRepository.RecentVideos | app/src/main/java/com/example/jaigurudevapp/data/SpiritualRepository.kt:621-627 | the first `limit` videos of the catalog, or the empty list when the limit is negative |
| SpiritualRepository.RecentMusic | app/src/main/java/com/example/jaigurudevapp/data/SpiritualRepository.kt:629-635 | the first `limit` tracks, or empty for a negative limit |
| SpiritualRepository.RecentBooks | app/src/main/java/com/example/jaigurudevapp/data/SpiritualRepository.kt:637-643 | the first `limit` books, or empty for a negative limit |
| SpiritualRepository.LiveVideos | app/src/main/java/com/example/jaigurudevapp/data/SpiritualRepository.kt:646-652 | in catalog order, exactly the videos flagged live |
| SpiritualRepository.ParseViews | app/src/main/java/com/example/jaigurudevapp/data/SpiritualRepository.kt:685 | the parsed view count is a 32-bit `Int`: the value of the expanded text when it reads as an `Int`, otherwise 0; a plain digit string reads as its value, and text with a decimal point reads as 0 |
| SpiritualRepository.ExpandViews | app/src/main/java/com/example/jaigurudevapp/data/SpiritualRepository.kt:685 | the expanded text has no "K", "M" or comma left, and a plain digit string is left as it is |
| SpiritualRepository.ParseViewsThousands | app/src/main/java/com/example/jaigurudevapp/data/SpiritualRepository.kt:685 | digits followed by "K" read as a thousand times their value when that fits in an `Int`, else 0 |
| SpiritualRepository.ParseViewsMillions | app/src/main/java/com/example/jaigurudevapp/data/SpiritualRepository.kt:685 | digits followed by "M" read as a million times their value when that fits in an `Int`, else 0 |
| SpiritualRepository.ExpandViewsAppend | app/src/main/java/com/example/jaigurudevapp/data/SpiritualRepository.kt:685 | expanding two pieces of text one after the other is expanding them separately |
| SpiritualRepository.ParseViewsIgnoresCommas | app/src/main/java/com/example/jaigurudevapp/data/SpiritualRepository.kt:685 | a comma anywhere in the view text does not change the count |
| SpiritualRepository.ShippedViewCounts | app/src/main/java/com/example/jaigurudevapp/data/SpiritualRepository.kt:685 | the shipped "125K" reads as 125000, while "1.2K" expands to "1.2000" and reads as 0 views |
| SpiritualRepository.TrendingVideos | app/src/main/java/com/example/jaigurudevapp/data/SpiritualRepository.kt:680-692 | throws iff the limit is negative; otherwise the top `limit` non-live videos by parsed views times rating, with no live video among them |
| SpiritualRepository.TrendingTiesKeepCatalogOrder | app/src/main/java/com/example/jaigurudevapp/data/SpiritualRepository.kt:680-692 | trending videos of equal score appear in catalog order, as `sortedByDescending` is stable |
| SpiritualRepository.VideoById | app/src/main/java/com/example/jaigurudevapp/data/SpiritualRepository.kt:532-538 | a video is found iff some catalog video has the id, and the one found is the first video in catalog order carrying it |
| SpiritualRepository.MusicById | app/src/main/java/com/example/jaigurudevapp/data/SpiritualRepository.kt:540-546 | a track is found iff some catalog track has the id, and the one found is the first track in catalog order carrying it |
| SpiritualRepository.BookById | app/src/main/java/com/example/jaigurudevapp/data/SpiritualRepository.kt:548-554 | a book is found iff some catalog book has the id, and the one found is the first book in catalog order carrying it |
| SpiritualRepository.EventById | app/src/main/java/com/example/jaigurudevapp/data/SpiritualRepository.kt:556-562 | an event is found iff some catalog event has the id, and the one found is the first event in catalog order carrying it |
| SpiritualRepository.ValidIdIffFound | app/src/main/java/com/example/jaigurudevapp/data/SpiritualRepository.kt:779-801 | `isValid*Id` holds exactly when the lookup by id finds an item |
| SpiritualRepository.RecommendedVideos | app/src/main/java/com/example/jaigurudevapp/data/SpiritualRepository.kt:727-742 | throws iff the limit is negative; for a known base, the `limit` best-rated of its candidates (a top-`limit` selection: as many as the limit allows, none left out rated higher than one kept), each another video sharing its category or a tag; for an unknown base, the popular videos |
| SpiritualRepository.RecommendedMusic | app/src/main/java/com/example/jaigurudevapp/data/SpiritualRepository.kt:744-759 | the same for tracks: the `limit` best-rated tracks sharing the base's category or a tag, falling back to the popular tracks |
| SpiritualRepository.RecommendedBooks | app/src/main/java/com/example/jaigurudevapp/data/SpiritualRepository.kt:761-776 | the same for books: the `limit` best-rated books sharing the base's category or a tag, falling back to the popular books |
| SpiritualRepository.RecommendedTiesKeepCatalogOrder | app/src/main/java/com/example/jaigurudevapp/data/SpiritualRepository.kt:727-776 | for a known base, recommended items of equal rating appear in the order of the candidates, which is catalog order, as `sortedByDescending` is stable |
| SpiritualRepository.VideoCandidates | app/src/main/java/com/example/jaigurudevapp/data/SpiritualRepository.kt:731-733 | in catalog order, exactly the videos other than the base that share its category or one of its tags |
| SpiritualRepository.MusicCandidates | app/src/main/java/com/example/jaigurudevapp/data/SpiritualRepository.kt:748-750 | in catalog order, exactly the tracks other than the base that share its category or one of its tags |
| SpiritualRepository.BookCandidates | app/src/main/java/com/example/jaigurudevapp/data/SpiritualRepository.kt:765-767 | in catalog order, exactly the books other than the base that share its category or one of its tags |
| SpiritualRepository.AddToFavorites | app/src/main/java/com/example/jaigurudevapp/data/SpiritualRepository.kt:501-507 | the id joins the favourite set of its type; an unknown type changes nothing |
| SpiritualRepository.RemoveFromFavorites | app/src/main/java/com/example/jaigurudevapp/data/SpiritualRepository.kt:509-515 | the id leaves the favourite set of its type; an unknown type changes nothing |
| SpiritualRepository.FavoriteVideos | app/src/main/java/com/example/jaigurudevapp/data/SpiritualRepository.kt:517-519 | in catalog order, exactly the videos whose id is a favourite |
| SpiritualRepository.FavoriteMusic | app/src/main/java/com/example/jaigurudevapp/data/SpiritualRepository.kt:521-523 | in catalog order, exactly the tracks whose id is a favourite |
| SpiritualRepository.FavoriteBooks | app/src/main/java/com/example/jaigurudevapp/data/SpiritualRepository.kt:525-527 | in catalog order, exactly the books whose id is a favourite |
| SpiritualRepository.VideoFavoriteAddRemove | app/src/main/java/com/example/jaigurudevapp/data/SpiritualRepository.kt:501-519 | after adding a video id its videos are listed, after removing it none are; the music and book lists are untouched |
| SpiritualRepository.MusicFavoriteAddRemove | app/src/main/java/com/example/jaigurudevapp/data/SpiritualRepository.kt:501-523 | the same for a music id, leaving the video and book lists untouched |
| SpiritualRepository.BookFavoriteAddRemove | app/src/main/java/com/example/jaigurudevapp/data/SpiritualRepository.kt:501-527 | the same for a book id, leaving the video and music lists untouched |
| SpiritualRepository.RemoveUndoesAdd | app/src/main/java/com/example/jaigurudevapp/data/SpiritualRepository.kt:501-515 | removing after adding leaves the same sets as removing alone |
| SpiritualRepository.SearchContent | app/src/main/java/com/example/jaigurudevapp/data/SpiritualRepository.kt:695-724 | for each of videos, tracks and books: empty unless its type ("all" or its own) is selected; otherwise an ordered part of that type's search hits holding exactly the hits whose category and language match ignoring case, and with no category or language all the hits |
| SpiritualRepository.NarrowVideos | app/src/main/java/com/example/jaigurudevapp/data/SpiritualRepository.kt:703-704 | keeps, in order, exactly the videos whose category and language match ignoring case, an empty criterion not filtering; with both empty, every video |
| SpiritualRepository.NarrowMusic | app/src/main/java/com/example/jaigurudevapp/data/SpiritualRepository.kt:709-710 | the same narrowing for tracks: exactly the matching ones, all of them when both criteria are empty |
| SpiritualRepository.NarrowBooks | app/src/main/java/com/example/jaigurudevapp/data/SpiritualRepository.kt:715-716 | the same narrowing for books: exactly the matching ones, all of them when both criteria are empty |
| SpiritualRepository.Stats | app/src/main/java/com/example/jaigurudevapp/data/SpiritualRepository.kt:804-816 | the totals are the list sizes and the live count is the number of live videos, so it is at most the video total and zero iff no video is live |
| BooksScreen.FilteredBooks | app/src/main/java/com/example/jaigurudevapp/screens/BooksScreen.kt:43-55 | the listed books are, in catalog order, those matching the query (any book for a blank query) and exactly the selected category (any category for "All") |
| BooksScreen.BlankQueryAllShowsCatalog | app/src/main/java/com/example/jaigurudevapp/screens/BooksScreen.kt:43-55 | a blank query with "All" lists the whole catalog in order |
| KotlinText.SpaceSeparatorsAreBlank | app/src/main/java/com/example/jaigurudevapp/screens/BooksScreen.kt:44 | a query of Unicode space separators (ideographic, no-break, em space) is blank, as `isBlank()` judges it, while a zero-width space or a letter is not |
| BooksScreen.CategoryChipIsExact | app/src/main/java/com/example/jaigurudevapp/screens/BooksScreen.kt:50-54 | a chip lists only books of exactly its category, and with a blank query the same list as the repository's category filter |
| BooksScreen.ScriptureBooks | app/src/main/java/com/example/jaigurudevapp/screens/BooksScreen.kt:58 | exactly the books in "Scriptures" |
| BooksScreen.PhilosophyBooks | app/src/main/java/com/example/jaigurudevapp/screens/BooksScreen.kt:59 | exactly the books in "Philosophy" |
| BooksScreen.PracticeBooks | app/src/main/java/com/example/jaigurudevapp/screens/BooksScreen.kt:60 | exactly the books in "Practice" |
| BooksScreen.PopularBooksShelf | app/src/main/java/com/example/jaigurudevapp/screens/BooksScreen.kt:61 | a permutation of the books, best rated first, with equal ratings in catalog order |
| BooksScreen.HighlyRatedStrip | app/src/main/java/com/example/jaigurudevapp/screens/BooksScreen.kt:245 | the five best rated books, or all of them when there are fewer |
| BooksScreen.RecentBooksShelf | app/src/main/java/com/example/jaigurudevapp/screens/BooksScreen.kt:62 | a permutation of the books, newest publication year first, with equal years in catalog order |
| BooksScreen.RecentShelfOfYearOrderedCatalog | app/src/main/java/com/example/jaigurudevapp/screens/BooksScreen.kt:62 | when the catalog is already in year order, the screen's recent shelf equals the repository's recent list |
| BooksScreen.ShippedRecentDisagrees | app/src/main/java/com/example/jaigurudevapp/data/SpiritualRepository.kt:637-643 | on the shipped books, the screen's year-sorted shelf differs from the repository's recent list |
| BooksScreen.DifficultyLabel | app/src/main/java/com/example/jaigurudevapp/screens/BooksScreen.kt:588 | "Beginner" iff the title contains "Beginners", else "Intermediate" |
| BooksScreen.ShippedBeginnerLabel | app/src/main/java/com/example/jaigurudevapp/screens/BooksScreen.kt:588 | the shipped "Meditation for Beginners" is labelled "Beginner" |
| BooksScreen.LowerCaseTitleIsIntermediate | app/src/main/java/com/example/jaigurudevapp/screens/BooksScreen.kt:588 | the test is case-sensitive: the same title in lower case is labelled "Intermediate" |
| MusicScreen.FilteredMusic | app/src/main/java/com/example/jaigurudevapp/screens/MusicScreen.kt:54-66 | the listed tracks are, in catalog order, those matching the query (any for a blank query) and exactly the selected category (any for "All") |
| MusicScreen.BlankQueryAllShowsCatalog | app/src/main/java/com/example/jaigurudevapp/screens/MusicScreen.kt:54-66 | a blank query with "All" lists the whole catalog in order |
| MusicScreen.CategoryChipIsExact | app/src/main/java/com/example/jaigurudevapp/screens/MusicScreen.kt:61-65 | a chip lists only tracks of exactly its category, and with a blank query the repository's category list |
| MusicScreen.MantrasMusic | app/src/main/java/com/example/jaigurudevapp/screens/MusicScreen.kt:69 | exactly the tracks in "Mantras" |
| MusicScreen.DevotionalMusic | app/src/main/java/com/example/jaigurudevapp/screens/MusicScreen.kt:70 | exactly the tracks in "Devotional" |
| MusicScreen.PopularMusicShelf | app/src/main/java/com/example/jaigurudevapp/screens/MusicScreen.kt:71 | a permutation of the tracks, most played first, with equal counts in catalog order |
| MusicScreen.PopularStrip | app/src/main/java/com/example/jaigurudevapp/screens/MusicScreen.kt:233 | the five most played tracks, or all of them when there are fewer |
| MusicScreen.RecentMusicShelf | app/src/main/java/com/example/jaigurudevapp/screens/MusicScreen.kt:72 | a permutation of the tracks, newest release year first, with equal years in catalog order |
| MusicScreen.PopularRankingsDisagree | app/src/main/java/com/example/jaigurudevapp/screens/MusicScreen.kt:71 | the screen ranks by plays alone, so a catalog exists whose top track differs from the repository's rating-weighted ranking |
| VideosScreen.FilteredVideos | app/src/main/java/com/example/jaigurudevapp/screens/VideosScreen.kt:56-68 | the listed videos are, in catalog order, those matching the query (any for a blank query) and exactly the selected category (any for "All") |
| VideosScreen.BlankQueryAllShowsCatalog | app/src/main/java/com/example/jaigurudevapp/screens/VideosScreen.kt:56-68 | a blank query with "All" lists the whole catalog in order |
| VideosScreen.CategoryChipIsExact | app/src/main/java/com/example/jaigurudevapp/screens/VideosScreen.kt:63-67 | a chip lists only videos of exactly its category, and with a blank query the repository's category list |
| VideosScreen.ShippedLiveChipIsEmpty | app/src/main/java/com/example/jaigurudevapp/screens/VideosScreen.kt:51-53 | the "Live" chip compares categories, so over the shipped videos it lists nothing although one of them is live |
| VideosScreen.SatsangVideos | app/src/main/java/com/example/jaigurudevapp/screens/VideosScreen.kt:71 | exactly the videos in "Satsang" |
| VideosScreen.ShowsLiveNowIffSomeLive | app/src/main/java/com/example/jaigurudevapp/screens/VideosScreen.kt:139 | the "Live Now" section is drawn iff some catalog video is live |
| VideosScreen.TrendingShelf | app/src/main/java/com/example/jaigurudevapp/screens/VideosScreen.kt:73 | a permutation of the videos, most liked first, with equal likes in catalog order |
| VideosScreen.TrendingStrip | app/src/main/java/com/example/jaigurudevapp/screens/VideosScreen.kt:207 | the five most liked videos, or all of them when there are fewer |
| VideosScreen.ShippedTrendingDisagrees | app/src/main/java/com/example/jaigurudevapp/screens/VideosScreen.kt:73 | over the shipped videos the screen's trending strip holds the live one, which the repository's trending list never holds |
| VideoPlayerScreen.VideoData | app/src/main/java/com/example/jaigurudevapp/screens/VideoPlayerScreen.kt:34-48 | a valid id yields the video with that id; otherwise the first video, or the default video when the catalog has none |
| VideoPlayerScreen.RelatedVideos | app/src/main/java/com/example/jaigurudevapp/screens/VideoPlayerScreen.kt:51-53 | the first five (or all, when fewer) of the other videos of the same category, in catalog order |
| VideoPlayerScreen.SameCategory | app/src/main/java/com/example/jaigurudevapp/screens/VideoPlayerScreen.kt:52 | in catalog order, exactly the videos other than the current one that share its category |
| VideoPlayerScreen.RelatedRoute | app/src/main/java/com/example/jaigurudevapp/screens/VideoPlayerScreen.kt:299 | a related-video card's route is "video_player/" followed by the video's id |
| VideoPlayerScreen.Fields | app/src/main/java/com/example/jaigurudevapp/screens/VideoPlayerScreen.kt:655-657 | minutes and seconds are below 60, and hours, minutes and seconds add back up to the position |
| VideoPlayerScreen.FormatVideoTime | app/src/main/java/com/example/jaigurudevapp/screens/VideoPlayerScreen.kt:654-664 | the label has one colon below one hour and two from one hour on |
| VideoPlayerScreen.FormatVideoTimeRoundTrip | app/src/main/java/com/example/jaigurudevapp/screens/VideoPlayerScreen.kt:654-664 | for any position up to `Int.MAX_VALUE` hours, reading the label's fields back gives the whole seconds it was made from |
| VideoPlayerScreen.ClockValue | app/src/main/java/com/example/jaigurudevapp/screens/VideoPlayerScreen.kt:659-663 | a label reads back only with two or three colon-separated fields, each an `Int` |
| MusicPlayerScreen.CurrentSong | app/src/main/java/com/example/jaigurudevapp/screens/MusicPlayerScreen.kt:39-51 | a valid id yields the track with that id; otherwise the first track, or the default track when the catalog has none |
| MusicPlayerScreen.DurationSeconds | app/src/main/java/com/example/jaigurudevapp/screens/MusicPlayerScreen.kt:58-63 | two colon-separated parts give minutes·60 + seconds wrapped to a 32-bit `Int`, a part that is not a number counting as 0; any other number of parts is 300 seconds |
| MusicPlayerScreen.FormatTime | app/src/main/java/com/example/jaigurudevapp/screens/MusicPlayerScreen.kt:442-446 | the position label has exactly one colon |
| MusicPlayerScreen.DurationOfFormatTime | app/src/main/java/com/example/jaigurudevapp/screens/MusicPlayerScreen.kt:58-63 | the duration parser reads a position label back as the same number of seconds, with a seconds field below 60 |
| MusicPlayerScreen.DurationOfShippedTrack | app/src/main/java/com/example/jaigurudevapp/screens/MusicPlayerScreen.kt:58-63 | the first shipped track, "27:30", lasts 1650 seconds |
| MusicPlayerScreen.DurationNonNumericPart | app/src/main/java/com/example/jaigurudevapp/screens/MusicPlayerScreen.kt:61 | a part that is not a number counts as 0 |
| MusicPlayerScreen.ReadsBack | app/src/main/java/com/example/jaigurudevapp/screens/MusicPlayerScreen.kt:61 | a printed non-negative `Int` parses back to itself |
| MusicPlayerScreen.DurationThreeParts | app/src/main/java/com/example/jaigurudevapp/screens/MusicPlayerScreen.kt:60-62 | an `h:mm:ss` duration falls back to 300 seconds |
| MusicPlayerScreen.Tick | app/src/main/java/com/example/jaigurudevapp/screens/MusicPlayerScreen.kt:66-77 | while playing below the end the position advances by one; reaching the end stops playback and rewinds to 0; when paused nothing changes |
| MusicPlayerScreen.TicksPreserveBounds | app/src/main/java/com/example/jaigurudevapp/screens/MusicPlayerScreen.kt:66-77 | any number of ticks keeps a playing position within the track |
| MusicPlayerScreen.TicksAdvance | app/src/main/java/com/example/jaigurudevapp/screens/MusicPlayerScreen.kt:68-71 | `n` seconds of playback that end before the track does advance the position by `n` |
| MusicPlayerScreen.PlaysToEnd | app/src/main/java/com/example/jaigurudevapp/screens/MusicPlayerScreen.kt:72-75 | playing through to the end stops the playback and rewinds to the start |
| MusicPlayerScreen.TicksLast | app/src/main/java/com/example/jaigurudevapp/screens/MusicPlayerScreen.kt:66-77 | `n + 1` ticks are `n` ticks followed by one more |
| MusicPlayerScreen.TogglePlay | app/src/main/java/com/example/jaigurudevapp/screens/MusicPlayerScreen.kt:353-355 | the button flips the playing flag and keeps the position |
| MusicPlayerScreen.TogglePlayTwice | app/src/main/java/com/example/jaigurudevapp/screens/MusicPlayerScreen.kt:353-355 | pressing twice restores the playing flag |
| PDFViewerScreen.BookData | app/src/main/java/com/example/jaigurudevapp/screens/PDFViewerScreen.kt:35-51 | a valid id yields the book with that id; otherwise the first book, or a default book of 100 pages |
| PDFViewerScreen.PrevPage | app/src/main/java/com/example/jaigurudevapp/screens/PDFViewerScreen.kt:324 | goes back one page unless on page 1, keeping the bookmarks |
| PDFViewerScreen.NextPage | app/src/main/java/com/example/jaigurudevapp/screens/PDFViewerScreen.kt:348 | goes forward one page unless on the last, keeping the bookmarks |
| PDFViewerScreen.SlideTo | app/src/main/java/com/example/jaigurudevapp/screens/PDFViewerScreen.kt:305-306 | the slider always lands in the book, on the chosen page when it lies in the book |
| PDFViewerScreen.SliderSteps | app/src/main/java/com/example/jaigurudevapp/screens/PDFViewerScreen.kt:308 | the number of slider steps is never negative |
| PDFViewerScreen.SliderStopsAreThePages | app/src/main/java/com/example/jaigurudevapp/screens/PDFViewerScreen.kt:308 | with two or more pages, the slider's stops are exactly the pages |
| PDFViewerScreen.PageMovesStayInBook | app/src/main/java/com/example/jaigurudevapp/screens/PDFViewerScreen.kt:305-348 | from a page of the book, the buttons and the slider stay in the book |
| PDFViewerScreen.NextThenPrev | app/src/main/java/com/example/jaigurudevapp/screens/PDFViewerScreen.kt:324-348 | next then previous returns to the same page, except from the last page |
| PDFViewerScreen.ToggleBookmark | app/src/main/java/com/example/jaigurudevapp/screens/PDFViewerScreen.kt:373-377 | the current page's bookmark flips and every other page's stays |
| PDFViewerScreen.ToggleBookmarkTwice | app/src/main/java/com/example/jaigurudevapp/screens/PDFViewerScreen.kt:373-377 | confirming the dialog twice restores the bookmarks |
| PDFViewerScreen.ChapterPage | app/src/main/java/com/example/jaigurudevapp/screens/PDFViewerScreen.kt:406 | a chapter's page is never past the last page |
| PDFViewerScreen.ChapterListShown | app/src/main/java/com/example/jaigurudevapp/screens/PDFViewerScreen.kt:393 | the chapter dialog shows only when asked for, and never for a book without chapters |
| PDFViewerScreen.JumpToChapter | app/src/main/java/com/example/jaigurudevapp/screens/PDFViewerScreen.kt:402-406 | picking a chapter moves to a page not past the end and keeps the bookmarks |
| PDFViewerScreen.FirstChapterPage | app/src/main/java/com/example/jaigurudevapp/screens/PDFViewerScreen.kt:406 | chapter 1 lands on page `total / n`, not on page 1 |
| PDFViewerScreen.FewPagesJumpToZero | app/src/main/java/com/example/jaigurudevapp/screens/PDFViewerScreen.kt:406 | with fewer pages than chapters, every chapter lands on page 0, outside the book |
| PDFViewerScreen.ChapterPagesInBook | app/src/main/java/com/example/jaigurudevapp/screens/PDFViewerScreen.kt:406 | with at least as many pages as chapters, every chapter lands in the book, and later chapters land no earlier |
| PDFViewerScreen.TenPageChapterCovers | app/src/main/java/com/example/jaigurudevapp/screens/PDFViewerScreen.kt:510 | chapter `c` of ten-page content holds pages `10c - 9` to `10c` |
| PDFViewerScreen.FivePageChapterCovers | app/src/main/java/com/example/jaigurudevapp/screens/PDFViewerScreen.kt:531 | chapter `c` of five-page content holds pages `5c - 4` to `5c` |
| PDFViewerScreen.KandaOf | app/src/main/java/com/example/jaigurudevapp/screens/PDFViewerScreen.kt:496 | pages up to 20 are Bala Kanda, pages 21 to 40 Ayodhya Kanda, later pages Aranya Kanda |
| PDFViewerScreen.KandaMonotone | app/src/main/java/com/example/jaigurudevapp/screens/PDFViewerScreen.kt:494-506 | reading on never returns to an earlier kanda |
| PDFViewerScreen.GitaContent | app/src/main/java/com/example/jaigurudevapp/screens/PDFViewerScreen.kt:456-492 | pages 1 and 2 have their own text, and every other page shares one text |
| PDFViewerScreen.SampleContent | app/src/main/java/com/example/jaigurudevapp/screens/PDFViewerScreen.kt:441-454 | the category picks the text; within "Scriptures" the Gita test comes before the Ramayana test; an unknown category gets the generic text |
| PDFViewerScreen.ChapterNumbersInContent | app/src/main/java/com/example/jaigurudevapp/screens/PDFViewerScreen.kt:508-616 | meditation, mantra and generic texts number chapters every ten pages, philosophy every five |
| PDFViewerScreen.ShippedGitaContent | app/src/main/java/com/example/jaigurudevapp/screens/PDFViewerScreen.kt:443-444 | the shipped Bhagavad Gita opens on the Gita's first page |
| PDFViewerScreen.ShippedRamayanaContent | app/src/main/java/com/example/jaigurudevapp/screens/PDFViewerScreen.kt:443-445 | the shipped Ramayana gets the Ramayana text, and its page 25 is in the Ayodhya Kanda |
| PDFViewerScreen.RamayanaTitleIsNotGita | app/src/main/java/com/example/jaigurudevapp/screens/PDFViewerScreen.kt:444 | the Ramayana's title does not contain "Bhagavad Gita" |
| PDFViewerScreen.RamayanaTitleIsRamayana | app/src/main/java/com/example/jaigurudevapp/screens/PDFViewerScreen.kt:445 | the Ramayana's title contains "Ramayana" |
| EventsScreen.FilteredEvents | app/src/main/java/com/example/jaigurudevapp/screens/EventsScreen.kt:131-139 | in list order, exactly the events of the selected category ("All" for any) that start within the chosen week or month |
| EventsScreen.AllUpcomingKeepsEverything | app/src/main/java/com/example/jaigurudevapp/screens/EventsScreen.kt:131-139 | "All" with "Upcoming", or with an unknown time filter, keeps every event in order |
| EventsScreen.CategoryIsExact | app/src/main/java/com/example/jaigurudevapp/screens/EventsScreen.kt:132 | any other category keeps only events of exactly that category |
| EventsScreen.WeekWithinMonth | app/src/main/java/com/example/jaigurudevapp/screens/EventsScreen.kt:134-135 | what "This Week" keeps, "This Month" keeps too, in the same order |
| EventsScreen.SampleWeekAndMonth | app/src/main/java/com/example/jaigurudevapp/screens/EventsScreen.kt:49-139 | on the sample events, "This Week" keeps the first four and "This Month" keeps all five |
| EventsScreen.TimeMatch | app/src/main/java/com/example/jaigurudevapp/screens/EventsScreen.kt:132-136 | "Upcoming" and unknown filters keep every event; an event within a week passes every filter; one kept by "This Week" or "This Month" starts within thirty days |
| EventsScreen.AttendeeLabel | app/src/main/java/com/example/jaigurudevapp/screens/EventsScreen.kt:398-402 | with a maximum the label splits at '/' into the attendee count and the maximum; without one it starts with the count and holds no '/' |
| EventsScreen.NoSlashInInt | app/src/main/java/com/example/jaigurudevapp/screens/EventsScreen.kt:399 | a printed `Int` holds no '/', so the attendee label can be split unambiguously |
| EventsScreen.ActionLabel | app/src/main/java/com/example/jaigurudevapp/screens/EventsScreen.kt:448 | "Register" iff registration is required, otherwise "Join" |
| EventsScreen.SampleCardLabels | app/src/main/java/com/example/jaigurudevapp/screens/EventsScreen.kt:268 | of the sample events only the retreat shows a price badge, and exactly the two without registration show "Join" |
| EventsScreen.PriceBadge | app/src/main/java/com/example/jaigurudevapp/screens/EventsScreen.kt:267-283 | a badge is drawn iff the price is not "Free", and it shows the price |
| ChatScreen.CurrentView | app/src/main/java/com/example/jaigurudevapp/screens/ChatScreen.kt:118-136 | tab 0 shows the open group, or the group list when none is open; tab 1 shows the direct chats; other tabs show nothing |
| ChatScreen.Recompose | app/src/main/java/com/example/jaigurudevapp/screens/ChatScreen.kt:259 | a step that changes the view on screen empties the message box; one that keeps the view keeps the text |
| ChatScreen.SelectTab | app/src/main/java/com/example/jaigurudevapp/screens/ChatScreen.kt:104-114 | a tab tap sets the tab and keeps the open group; leaving the "Groups" tab empties the box; tapping the current tab changes nothing |
| ChatScreen.OpenGroup | app/src/main/java/com/example/jaigurudevapp/screens/ChatScreen.kt:121-126 | tapping a group in the list opens it with an empty message box |
| ChatScreen.Back | app/src/main/java/com/example/jaigurudevapp/screens/ChatScreen.kt:128-131 | the back arrow closes the open group, returns to the group list and empties the box |
| ChatScreen.TypeMessage | app/src/main/java/com/example/jaigurudevapp/screens/ChatScreen.kt:359-362 | typing sets the box only while a group is open; elsewhere there is no box and nothing changes |
| ChatScreen.StepsKeepTextInGroup | app/src/main/java/com/example/jaigurudevapp/screens/ChatScreen.kt:259 | no step leaves typed text behind outside an open group |
| ChatScreen.OpenThenBack | app/src/main/java/com/example/jaigurudevapp/screens/ChatScreen.kt:121-136 | opening a group from the list shows it and the back arrow restores the list; switching tabs and back shows the group again; text typed in the group is dropped by the back arrow, by reopening and by a tab round trip |
| ChatScreen.Send | app/src/main/java/com/example/jaigurudevapp/screens/ChatScreen.kt:374-379 | sending empties the message box and keeps the tab and the open group; an empty box changes nothing |
| ChatScreen.SendForgetsMessage | app/src/main/java/com/example/jaigurudevapp/screens/ChatScreen.kt:374-379 | after sending, no trace of the typed text is left, and sending twice is sending once |
| ChatScreen.Avatar | app/src/main/java/com/example/jaigurudevapp/screens/ChatScreen.kt:186 | the avatar is the upper-cased first two characters of the name, or the whole name when shorter |
| ChatScreen.AvatarIdempotent | app/src/main/java/com/example/jaigurudevapp/screens/ChatScreen.kt:186 | an avatar is its own avatar |
| ChatScreen.SampleAvatars | app/src/main/java/com/example/jaigurudevapp/screens/ChatScreen.kt:54-60 | the sample groups "Morning Meditation" and "Bhagavad Gita Study" show "MO" and "BH" |
| ChatScreen.FormatTime | app/src/main/java/com/example/jaigurudevapp/screens/ChatScreen.kt:505-515 | "Now" under a minute, whole minutes under an hour, whole hours under a day, otherwise a date, with each count bracketing the elapsed time |
| ChatScreen.LabelText | app/src/main/java/com/example/jaigurudevapp/screens/ChatScreen.kt:510-513 | only the date label has no fixed text, and the text is "Now" only for the just-now label |
| ChatScreen.LabelTextReadsBack | app/src/main/java/com/example/jaigurudevapp/screens/ChatScreen.kt:511-512 | a minutes or hours label is the count followed by "m ago" or "h ago", and the count parses back |
| ChatScreen.FormatTimeMonotone | app/src/main/java/com/example/jaigurudevapp/screens/ChatScreen.kt:505-515 | an older message never gets a younger label |
| ChatScreen.SampleGroupLabels | app/src/main/java/com/example/jaigurudevapp/screens/ChatScreen.kt:54-60 | read within an hour of the list being built, the sample groups show 1, 2, 4, 6 and 8 hours ago |
| FirebaseTask.FailureText | app/src/main/java/com/example/jaigurudevapp/screens/LoginScreen.kt:238 | the exception's message when it has one, else the fallback |
| FirebaseTask.TemplateText | app/src/main/java/com/example/jaigurudevapp/screens/SignupScreen.kt:365 | a null message prints as "null" inside a string template |
| LoginScreen.PressSignIn | app/src/main/java/com/example/jaigurudevapp/screens/LoginScreen.kt:226-243 | with both fields filled a request starts and the button disables; otherwise only "Please fill in all fields" is shown; a disabled button does nothing |
| LoginScreen.SignInCompleted | app/src/main/java/com/example/jaigurudevapp/screens/LoginScreen.kt:232-239 | loading stops either way; the user is signed in iff the task succeeded (or already was); a failure shows the message or "Login failed" |
| LoginScreen.SkipLogin | app/src/main/java/com/example/jaigurudevapp/screens/LoginScreen.kt:285-286 | "Skip Login" signs in without any check |
| LoginScreen.SignInFlow | app/src/main/java/com/example/jaigurudevapp/screens/LoginScreen.kt:226-243 | from a fresh screen, the user ends signed in iff both fields were filled and Firebase accepted them, and any error names the reason |
| LoginScreen.NoSecondRequestWhilePending | app/src/main/java/com/example/jaigurudevapp/screens/LoginScreen.kt:252 | while a request is pending a second press starts nothing |
| SignupScreen.Validate | app/src/main/java/com/example/jaigurudevapp/screens/SignupScreen.kt:86-117 | no message iff the form is acceptable; each message iff its rule is the first to fail: the password prompt iff name, email and "@" are there and the password is empty, "too short" iff it has 1 to 5 characters, "do not match" iff it is long enough and differs from the confirmation |
| SignupScreen.PhoneNumberIgnored | app/src/main/java/com/example/jaigurudevapp/screens/SignupScreen.kt:86-117 | the phone number never changes the verdict |
| SignupScreen.MessagesDistinct | app/src/main/java/com/example/jaigurudevapp/screens/SignupScreen.kt:86-117 | the six messages differ, so the message tells which rule failed |
| SignupScreen.PressSignUp | app/src/main/java/com/example/jaigurudevapp/screens/SignupScreen.kt:338-342 | a failing form shows its message; a passing one clears the error and starts loading and the account creation; a disabled button does nothing |
| SignupScreen.AccountCreated | app/src/main/java/com/example/jaigurudevapp/screens/SignupScreen.kt:343-371 | a failure stops loading and shows the message or "Signup failed"; a success moves on to the profile write of the current user, and with no current user nothing changes |
| SignupScreen.ProfileWritten | app/src/main/java/com/example/jaigurudevapp/screens/SignupScreen.kt:356-366 | loading stops; the user is signed up iff the write succeeded; a failure shows "Profile creation failed: " and the message |
| SignupScreen.SignupFlow | app/src/main/java/com/example/jaigurudevapp/screens/SignupScreen.kt:336-371 | sign-up succeeds iff the form is acceptable and both tasks succeed with a current user; each failure shows its message |
| SignupScreen.NoUserKeepsLoading | app/src/main/java/com/example/jaigurudevapp/screens/SignupScreen.kt:343-355 | a successful account task with no current user leaves the screen loading with the button disabled |
| JaigurudevNavigation.RoutesDistinct | app/src/main/java/com/example/jaigurudevapp/navigation/JaigurudevNavigation.kt:24-37 | no two route names coincide |
| JaigurudevNavigation.MusicPlayerRoute | app/src/main/java/com/example/jaigurudevapp/navigation/JaigurudevNavigation.kt:40 | the route is "music_player/" followed by exactly the song id |
| JaigurudevNavigation.PdfViewerRoute | app/src/main/java/com/example/jaigurudevapp/navigation/JaigurudevNavigation.kt:41 | the route is "pdf_viewer/" followed by exactly the book id |
| JaigurudevNavigation.VideoPlayerRoute | app/src/main/java/com/example/jaigurudevapp/navigation/JaigurudevNavigation.kt:42 | the route is "video_player/" followed by exactly the video id |
| JaigurudevNavigation.RouteArgument | app/src/main/java/com/example/jaigurudevapp/navigation/JaigurudevNavigation.kt:35-37 | an argument is read iff the route is the base, a '/', and a non-empty segment without '/', and that segment is the argument |
| JaigurudevNavigation.HelperRoutesRoundTrip | app/src/main/java/com/example/jaigurudevapp/navigation/JaigurudevNavigation.kt:40-42 | a player destination reads back the id put into a helper route, for any non-empty id without '/' |
| JaigurudevNavigation.RelatedRouteIsHelperRoute | app/src/main/java/com/example/jaigurudevapp/screens/VideoPlayerScreen.kt:299 | a related-video card navigates to the helper's video route |
| JaigurudevNavigation.ScreenBookRoute | app/src/main/java/com/example/jaigurudevapp/screens/BooksScreen.kt:172 | a book card's route is the pattern "pdf_viewer/{bookId}", a "/", then the book's id |
| JaigurudevNavigation.ScreenMusicRoute | app/src/main/java/com/example/jaigurudevapp/screens/MusicScreen.kt:182 | a track card's route is the pattern "music_player/{songId}", a "/", then the track's id |
| JaigurudevNavigation.ScreenVideoRoute | app/src/main/java/com/example/jaigurudevapp/screens/VideosScreen.kt:155 | a video card's route is the pattern "video_player/{videoId}", a "/", then the video's id |
| JaigurudevNavigation.ScreenRoutesNeverMatch | app/src/main/java/com/example/jaigurudevapp/screens/BooksScreen.kt:172 | a route built from the pattern constant keeps the placeholder, so no id reads back from it and it equals no helper route |
| JaigurudevNavigation.BookRouteBlocked | app/src/main/java/com/example/jaigurudevapp/screens/BooksScreen.kt:172 | no book id reads back from the Books screen's route |
| JaigurudevNavigation.MusicRouteBlocked | app/src/main/java/com/example/jaigurudevapp/screens/MusicScreen.kt:182 | no song id reads back from the Music screen's route |
| JaigurudevNavigation.VideoRouteBlocked | app/src/main/java/com/example/jaigurudevapp/screens/VideosScreen.kt:155 | no video id reads back from the Videos screen's route |
| JaigurudevNavigation.ShippedBookRoute | app/src/main/java/com/example/jaigurudevapp/screens/BooksScreen.kt:172 | the first shipped book's card navigates to "pdf_viewer/{bookId}/b001" instead of "pdf_viewer/b001" |
| JaigurudevNavigation.MusicGate | app/src/main/java/com/example/jaigurudevapp/navigation/JaigurudevNavigation.kt:215-255 | the player opens iff the id is non-empty and valid, showing that track; otherwise "Music not found" |
| JaigurudevNavigation.BookGate | app/src/main/java/com/example/jaigurudevapp/navigation/JaigurudevNavigation.kt:256-295 | the reader opens iff the id is non-empty and valid, showing that book; otherwise "Book not found" |
| JaigurudevNavigation.VideoGate | app/src/main/java/com/example/jaigurudevapp/navigation/JaigurudevNavigation.kt:296-335 | the player opens iff the id is non-empty and valid, showing that video; otherwise "Video not found" |
| JaigurudevNavigation.OpenPlayer | app/src/main/java/com/example/jaigurudevapp/navigation/JaigurudevNavigation.kt:215-335 | a route opens a player destination only if it is that player's helper route for some argument, and then shows that destination's gate |
| JaigurudevNavigation.CatalogItemsOpen | app/src/main/java/com/example/jaigurudevapp/navigation/JaigurudevNavigation.kt:215-335 | every catalog item whose id is one non-empty segment opens in its own player through the helper route |
| JaigurudevNavigation.PrefixesDiffer | app/src/main/java/com/example/jaigurudevapp/navigation/JaigurudevNavigation.kt:40-42 | a helper route matches only its own player |
| JaigurudevNavigation.ScreenRoutesOpenNothing | app/src/main/java/com/example/jaigurudevapp/screens/BooksScreen.kt:172 | a card of the Books, Music or Videos screen opens no player at all |
| JaigurudevNavigation.UnknownIdsShowError | app/src/main/java/com/example/jaigurudevapp/navigation/JaigurudevNavigation.kt:239-247 | an unknown or empty song id shows "Music not found" |
| JaigurudevNavigation.Graph | app/src/main/java/com/example/jaigurudevapp/navigation/JaigurudevNavigation.kt:74-200 | signed out, only the sign-in and sign-up routes exist; signed in, only the content screens and players do |
| JaigurudevNavigation.StartDestination | app/src/main/java/com/example/jaigurudevapp/navigation/JaigurudevNavigation.kt:78 | the start is "login" when signed out and "home" when signed in, and it is in the graph drawn |
| JaigurudevNavigation.GraphsPartitionRoutes | app/src/main/java/com/example/jaigurudevapp/navigation/JaigurudevNavigation.kt:74-200 | the two graphs share no route and together hold every route |
| JaigurudevNavigation.SignedIn | app/src/main/java/com/example/jaigurudevapp/navigation/JaigurudevNavigation.kt:82 | the success callbacks set the flag, so the home graph is drawn |
| JaigurudevNavigation.Logout | app/src/main/java/com/example/jaigurudevapp/navigation/JaigurudevNavigation.kt:203-212 | the flag is cleared whether or not the navigation throws, so the sign-in graph is drawn |
| JaigurudevNavigation.LogoutUndoesSignIn | app/src/main/java/com/example/jaigurudevapp/navigation/JaigurudevNavigation.kt:203-212 | signing out after signing in restores the launch state, from any state |
| JaigurudevNavigation.AtMostOneSelected | app/src/main/java/com/example/jaigurudevapp/navigation/JaigurudevNavigation.kt:147 | at most one bottom item is selected, and none on a player route |
| MusicService.BuildNotification | app/src/main/java/com/example/jaigurudevapp/service/MusicService.kt:125-175 | three buttons: previous, then pause while playing or play otherwise, then next; the title is the song or "Spiritual Music"; ongoing iff playing |
| MusicService.ShowNotification | app/src/main/java/com/example/jaigurudevapp/service/MusicService.kt:115-184 | the service is in the foreground iff playing, and the notification on screen matches the state |
| MusicService.PlayMusic | app/src/main/java/com/example/jaigurudevapp/service/MusicService.kt:57-66 | playing starts in the foreground; a given song becomes current, none keeps the current one |
| MusicService.PauseMusic | app/src/main/java/com/example/jaigurudevapp/service/MusicService.kt:68-75 | playing stops, the song is kept, and the notification stays without the foreground |
| MusicService.StopMusic | app/src/main/java/com/example/jaigurudevapp/service/MusicService.kt:77-87 | playing stops, the song is forgotten, the notification is removed, and the service stops itself |
| MusicService.Redraw | app/src/main/java/com/example/jaigurudevapp/service/MusicService.kt:89-97 | next and previous only redraw the notification, changing neither the flag nor the song |
| MusicService.OnStartCommand | app/src/main/java/com/example/jaigurudevapp/service/MusicService.kt:46-55 | each known action runs its command, a missing or unknown action does nothing, and the result is always `START_STICKY` |
| MusicService.CommandsKeepConsistent | app/src/main/java/com/example/jaigurudevapp/service/MusicService.kt:46-184 | every command keeps the notification in step with the playing flag and the song |
| MusicService.MiddleButtonToggles | app/src/main/java/com/example/jaigurudevapp/service/MusicService.kt:125-127 | the notification's middle button toggles playback and keeps the song |
| MusicService.PauseThenPlayResumes | app/src/main/java/com/example/jaigurudevapp/service/MusicService.kt:57-75 | pausing, then playing without a song id, resumes the same song in the same state |
| MusicService.PlayAfterStopHasNoSong | app/src/main/java/com/example/jaigurudevapp/service/MusicService.kt:77-87 | after a stop, playing without a song id shows the generic title |

## Left out

- Compose layout, colours, icons, dialogs' visibility flags other than those
  modelled, and scrolling are not modelled; only the values the screens
  compute are.
- Firebase Authentication and Firestore are not modelled. Each task's outcome
  and the current user after account creation are parameters.
- The Android service machinery is not modelled: binding, the notification
  channel, `PendingIntent`s, and the restart that `START_STICKY` requests.
  The media player itself is commented out in the source.
- The date text of the chat's `formatTime` and the events' date formatting
  depend on the locale, so the model keeps the timestamp instead of the text.
- Floating point is replaced by integers:
  - ratings are integer tenths, and rounding in products is not modelled;
  - the players' `Float` positions are whole seconds;
  - the PDF slider's fractional value is not modelled, only the clamped page.
- Case folding is ASCII only, and a string's length counts `char`s, not UTF-16
  units.
- SpiritualRepository.SortedDistinct: orders strings by code point
  (Lists.LexLe). Kotlin's `sorted()` compares UTF-16 code units, so a string
  with a character above U+FFFF (stored as surrogates from U+D800) sorts
  before one with a character from U+E000 to U+FFFF in the app and after it
  in the model. The two orders agree on strings without such characters.
- SpiritualRepository.VideoCategories: the same code-point order as
  SortedDistinct, so categories with characters above U+FFFF may be listed in
  a different order than the app lists them.
- SpiritualRepository.MusicCategories: the same code-point order gap as
  VideoCategories.
- SpiritualRepository.BookCategories: the same code-point order gap as
  VideoCategories.
- KotlinText.ToIntOrNull: reads ASCII digits only. Kotlin's `toIntOrNull`
  accepts any Unicode decimal digit (`Character.digit`), so "३०" is 30 in the
  app and `None` in the model. The Unicode digit tables are not modelled.
- SpiritualRepository.ParseViews: a view count written in non-ASCII decimal
  digits reads as 0 in the model, where the app parses it (through
  KotlinText.ToIntOrNull).
- MusicPlayerScreen.DurationSeconds: a duration part in non-ASCII decimal
  digits counts as 0 in the model, where the app parses it (through
  KotlinText.ToIntOrNull); "२७:३०" is 0 here and 1650 in the app.
- The repository's singleton and its `try`/`catch` fallbacks that cannot
  fire on the model's total functions are not modelled.
- The coroutine `delay` of the music player is one `Tick` per second.
- The long literal texts of the PDF reader, the sample descriptions and the
  chat bubbles are replaced by the values that select them.
- The navigation library's route matching is modelled only for the shape used
  here: a route with one `{argument}` segment. The back stack, `popUpTo` and
  `launchSingleTop` are not modelled.
- Kotlin `Long` overflow on clock arithmetic is not modelled. Clock values are
  unbounded integers.
- VideoPlayerScreen.FormatVideoTimeRoundTrip: assumes the hours fit in an
  `Int`. Above `Int.MAX_VALUE` hours, the hours conversion in
  `formatVideoTime` saturates, and ClockValue's `toIntOrNull` could not read
  the field back. Minutes and seconds are below 60 and always fit. The
  `Float` position itself is modelled as a whole number of seconds.
- VideoPlayerScreen.FormatVideoTime and MusicPlayerScreen.FormatTime: the
  labels are built with `String.format`, which uses the device's default
  locale (VideoPlayerScreen.kt:659-663, MusicPlayerScreen.kt:442-446). The
  model writes ASCII digits, which is what the format gives only in a locale
  whose digits are ASCII.
- PDFViewerScreen.ChapterPage: states only the upper bound that
  `coerceAtMost` gives; the lower bound depends on the page and chapter
  counts and is stated by ChapterPagesInBook and FewPagesJumpToZero.
- The Home, Profile and Meetings screens, the direct-chat list and the chat
  bubble layout are outside the modelled core.
- The Events screen's own event list is built with the clock reading
  `createdAt` and filtered at `now`; the two readings are separate
  parameters.

## Findings

| source | as written | input that shows it | evidently intended | confidence | as-written member | corrected member |
|---|---|---|---|---|---|---|
| app/src/main/java/com/example/jaigurudevapp/screens/BooksScreen.kt:172 | the card navigates to the route pattern `Routes.PDF_VIEWER` followed by "/" and the id; the Music and Videos screens do the same with their patterns (MusicScreen.kt:182, VideosScreen.kt:155) | book "b001" gives "pdf_viewer/{bookId}/b001", which matches no destination, so `navigate` throws `IllegalArgumentException`; nothing in the card's `onClick` catches it, so the tap crashes the app | navigate to `Routes.pdfViewer(book.id)`, that is "pdf_viewer/b001" | not executed | JaigurudevNavigation.ScreenBookRoute, shown by JaigurudevNavigation.ScreenRoutesOpenNothing | JaigurudevNavigation.PdfViewerRoute, proved by JaigurudevNavigation.CatalogItemsOpen |
