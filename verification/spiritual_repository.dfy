/** The content catalog: fixed ordered lists of videos, music, books and
    events, and the read, search, filter, ranking, recommendation and
    favourites operations over them.

    The singleton is replaced by an explicit `Catalog` value; `Shipped(now)`
    is the data the app ships (event start times are relative to the clock
    reading `now`, in milliseconds). Ratings are integer tenths: 4.9 is 49. */
module SpiritualRepository {
  import opened KotlinStd
  import opened KotlinText
  import opened Lists

  datatype Video = Video(
    id: string, title: string, description: string, creator: string,
    duration: string, views: string, category: string, isLive: bool,
    language: string, rating10: int, likes: int, comments: int,
    tags: seq<string>)

  datatype Music = Music(
    id: string, title: string, artist: string, album: string,
    duration: string, category: string, language: string, rating10: int,
    playCount: int, releaseYear: int, tags: seq<string>)

  datatype Book = Book(
    id: string, title: string, author: string, description: string,
    category: string, pages: int, rating10: int, language: string,
    publishYear: int, readTime: string, chapters: seq<string>,
    isFavorite: bool, tags: seq<string>)

  datatype Event = Event(
    id: string, title: string, description: string, location: string,
    startTime: int, endTime: int, organizer: string, category: string,
    isOnline: bool, registrationRequired: bool, maxAttendees: Option<int>,
    currentAttendees: int, price: string)

  datatype Catalog = Catalog(
    videos: seq<Video>, music: seq<Music>, books: seq<Book>, events: seq<Event>)

  datatype SearchResult = SearchResult(
    videos: seq<Video>, music: seq<Music>, books: seq<Book>)

  datatype ContentStats = ContentStats(
    totalVideos: nat, totalMusic: nat, totalBooks: nat, totalEvents: nat,
    liveVideos: nat)

  /** The favourite ids per content type: the catalog's only mutable state. */
  datatype Favorites = Favorites(videos: set<string>, music: set<string>, books: set<string>)

  const NoFavorites := Favorites({}, {}, {})

  // ---------------------------------------------------------------------
  // The shipped data
  // ---------------------------------------------------------------------

  const V001 := Video("v001", "Bhagavad Gita Chapter 1 - Complete Explanation",
    "Detailed explanation of the first chapter of Bhagavad Gita with Sanskrit verses and Hindi translation",
    "Gurudev Spiritual Academy", "1:45:30", "125K", "Satsang", false, "Hindi", 49, 5420, 234,
    ["Bhagavad Gita", "Krishna", "Arjuna", "Dharma", "Sanskrit"])
  const V002 := Video("v002", "Morning Meditation - 30 Minutes Guided Session",
    "Start your day with peace and tranquility through this guided meditation session",
    "Meditation Masters", "30:00", "89K", "Meditation", false, "English", 48, 3210, 156,
    ["Meditation", "Morning", "Guided", "Peace", "Mindfulness"])
  const V003 := Video("v003", "Hanuman Chalisa - Complete Recitation with Meaning",
    "Beautiful recitation of Hanuman Chalisa with word-by-word meaning and significance",
    "Divine Chants", "15:45", "234K", "Devotional", false, "Hindi", 49, 8765, 432,
    ["Hanuman", "Chalisa", "Devotional", "Prayer", "Protection"])
  const V004 := Video("v004", "Live Satsang - Questions and Answers",
    "Live interactive session answering spiritual questions from devotees worldwide",
    "Spiritual Wisdom Channel", "LIVE", "1.2K", "Satsang", true, "Hindi", 47, 456, 89,
    ["Live", "Satsang", "Q&A", "Interactive", "Wisdom"])
  const V005 := Video("v005", "Ramayana Stories for Children",
    "Beautiful animated stories from Ramayana explained in simple language for children",
    "Kids Spiritual Stories", "25:30", "156K", "Stories", false, "Hindi", 48, 4567, 234,
    ["Ramayana", "Children", "Stories", "Animation", "Values"])

  const M001 := Music("m001", "Om Namah Shivaya - 108 Times", "Divine Chants Orchestra",
    "Sacred Mantras Vol 1", "27:30", "Mantras", "Sanskrit", 49, 45230, 2024,
    ["Shiva", "Mantra", "108", "Sacred", "Meditation"])
  const M002 := Music("m002", "Gayatri Mantra - Traditional", "Sanskrit Scholars",
    "Vedic Chants", "8:15", "Mantras", "Sanskrit", 48, 32145, 2023,
    ["Gayatri", "Vedic", "Sacred", "Morning", "Wisdom"])
  const M003 := Music("m003", "Krishna Bhajan Medley", "Devotional Singers",
    "Krishna Love Songs", "12:45", "Devotional", "Hindi", 49, 67890, 2024,
    ["Krishna", "Radha", "Bhajan", "Love", "Devotion"])
  const M004 := Music("m004", "Shanti Mantra - Peace Chant", "Peaceful Hearts",
    "Inner Peace Collection", "15:00", "Meditation", "Sanskrit", 47, 23456, 2024,
    ["Peace", "Shanti", "Calm", "Meditation", "Healing"])
  const M005 := Music("m005", "Aarti Sangrah - Evening Prayers", "Temple Singers",
    "Daily Aarti Collection", "18:30", "Prayers", "Hindi", 48, 54321, 2023,
    ["Aarti", "Evening", "Prayer", "Temple", "Devotion"])

  const B001 := Book("b001", "Bhagavad Gita - Complete with Commentary", "Vyasa Maharshi",
    "The eternal dialogue between Lord Krishna and Arjuna with detailed commentary and explanations",
    "Scriptures", 1200, 49, "Hindi", 2024, "45 days",
    ["Arjuna Vishada Yoga", "Sankhya Yoga", "Karma Yoga", "Jnana Karma Sanyasa Yoga",
     "Karma Sanyasa Yoga", "Atmasamyama Yoga", "Paramahamsa Vijnana Yoga", "Akshara Parabrahma Yoga",
     "Rajavidya Rajaguhya Yoga", "Vibhuti Yoga", "Vishvarupa Darshana Yoga", "Bhakti Yoga",
     "Kshetra Kshetrajna Vibhaga Yoga", "Gunatraya Vibhaga Yoga", "Purushottama Yoga",
     "Daivasura Sampad Vibhaga Yoga", "Shraddhatraya Vibhaga Yoga", "Moksha Sanyasa Yoga"],
    false, ["Krishna", "Arjuna", "Dharma", "Yoga", "Philosophy", "Vedic"])
  const B002 := Book("b002", "Ramayana - The Epic Journey", "Maharshi Valmiki",
    "The complete story of Lord Rama's life, His exile, and the victory of good over evil",
    "Scriptures", 950, 48, "Hindi", 2023, "35 days",
    ["Bala Kanda", "Ayodhya Kanda", "Aranya Kanda", "Kishkindha Kanda",
     "Sundara Kanda", "Yuddha Kanda", "Uttara Kanda"],
    false, ["Rama", "Sita", "Hanuman", "Dharma", "Epic", "Values"])
  const B003 := Book("b003", "Meditation for Beginners", "Spiritual Guide Anand",
    "Complete guide to meditation techniques, breathing exercises, and achieving inner peace",
    "Practice", 280, 47, "English", 2024, "12 days",
    ["Understanding Meditation", "Breathing Techniques", "Postures and Environment",
     "Mindfulness Practice", "Concentration Methods", "Advanced Techniques",
     "Daily Practice", "Overcoming Obstacles", "Benefits of Meditation"],
    false, ["Meditation", "Mindfulness", "Peace", "Practice", "Beginner"])
  const B004 := Book("b004", "108 Sacred Mantras", "Pandit Vedic Sharma",
    "Collection of the most powerful mantras with their meanings, pronunciation, and benefits",
    "Mantras", 350, 48, "Sanskrit", 2024, "20 days",
    ["Introduction to Mantras", "Ganesh Mantras", "Shiva Mantras", "Vishnu Mantras",
     "Devi Mantras", "Healing Mantras", "Protection Mantras", "Prosperity Mantras",
     "Peace Mantras", "Daily Mantras"],
    false, ["Mantras", "Sanskrit", "Sacred", "Healing", "Protection"])
  const B005 := Book("b005", "Spiritual Stories for Children", "Grandma Gita",
    "Beautiful collection of moral and spiritual stories to inspire young minds",
    "Stories", 180, 49, "Hindi", 2024, "8 days",
    ["The Honest Woodcutter", "The Devoted Bhakt", "The Wise Elephant",
     "The Magical Tree", "The Kind Princess", "The Brave Little Monk",
     "The Generous Farmer", "The Learning Bird", "The Peaceful Village"],
    false, ["Children", "Stories", "Moral", "Values", "Learning"])
  const B006 := Book("b006", "Yoga Sutras of Patanjali", "Maharshi Patanjali",
    "The foundational text of yoga philosophy with detailed commentary and practical applications",
    "Philosophy", 420, 48, "Sanskrit", 2023, "25 days",
    ["Samadhi Pada", "Sadhana Pada", "Vibhuti Pada", "Kaivalya Pada"],
    false, ["Yoga", "Philosophy", "Patanjali", "Sutras", "Practice"])

  /** The two catalog events; their times are offsets from the clock reading
      taken when the list is built. */
  function ShippedEvents(now: int): seq<Event>
  {
    [ Event("e001", "Ram Navami Celebration",
        "Grand celebration of Lord Rama's birth with bhajans, aarti, and prasad distribution",
        "Mohali Community Center", now + 86400000, now + 86400000 + 28800000,
        "Ram Bhakt Samaj", "Festival", false, true, Some(500), 234, "Free"),
      Event("e002", "Online Meditation Workshop",
        "Learn advanced meditation techniques from experienced teachers",
        "Zoom Meeting", now + 259200000, now + 259200000 + 7200000,
        "Meditation Academy", "Workshop", true, true, Some(100), 67, "₹500") ]
  }

  const ShippedVideos := [V001, V002, V003, V004, V005]
  const ShippedMusic := [M001, M002, M003, M004, M005]
  const ShippedBooks := [B001, B002, B003, B004, B005, B006]

  function Shipped(now: int): Catalog
  {
    Catalog(ShippedVideos, ShippedMusic, ShippedBooks, ShippedEvents(now))
  }

  // ---------------------------------------------------------------------
  // Search
  // ---------------------------------------------------------------------

  /** Some tag contains `q`, ignoring case. */
  predicate AnyTagContains(tags: seq<string>, q: string)
  {
    exists i :: 0 <= i < |tags| && ContainsIgnoreCase(tags[i], q)
  }

  predicate VideoMatches(v: Video, q: string)
  {
    ContainsIgnoreCase(v.title, q) || ContainsIgnoreCase(v.description, q)
    || ContainsIgnoreCase(v.creator, q) || AnyTagContains(v.tags, q)
  }

  predicate MusicMatches(m: Music, q: string)
  {
    ContainsIgnoreCase(m.title, q) || ContainsIgnoreCase(m.artist, q)
    || ContainsIgnoreCase(m.album, q) || AnyTagContains(m.tags, q)
  }

  predicate BookMatches(b: Book, q: string)
  {
    ContainsIgnoreCase(b.title, q) || ContainsIgnoreCase(b.author, q)
    || ContainsIgnoreCase(b.description, q) || AnyTagContains(b.tags, q)
  }

  /** `searchVideos(query)`: the videos whose title, description, creator or
      a tag contains the query, ignoring case, in catalog order. */
  function SearchVideos(c: Catalog, q: string): (r: seq<Video>)
    ensures IsSubseq(r, c.videos)
    ensures forall v :: v in r <==> v in c.videos && VideoMatches(v, q)
  {
    var r := Filter(c.videos, (v: Video) => VideoMatches(v, q));
    forall v ensures v in r <==> v in c.videos && VideoMatches(v, q) {
      FilterMembership(c.videos, (v: Video) => VideoMatches(v, q), v);
    }
    r
  }

  /** `searchMusic(query)`: title, artist, album or a tag. */
  function SearchMusic(c: Catalog, q: string): (r: seq<Music>)
    ensures IsSubseq(r, c.music)
    ensures forall m :: m in r <==> m in c.music && MusicMatches(m, q)
  {
    var r := Filter(c.music, (m: Music) => MusicMatches(m, q));
    forall m ensures m in r <==> m in c.music && MusicMatches(m, q) {
      FilterMembership(c.music, (m: Music) => MusicMatches(m, q), m);
    }
    r
  }

  /** `searchBooks(query)`: title, author, description or a tag. */
  function SearchBooks(c: Catalog, q: string): (r: seq<Book>)
    ensures IsSubseq(r, c.books)
    ensures forall b :: b in r <==> b in c.books && BookMatches(b, q)
  {
    var r := Filter(c.books, (b: Book) => BookMatches(b, q));
    forall b ensures b in r <==> b in c.books && BookMatches(b, q) {
      FilterMembership(c.books, (b: Book) => BookMatches(b, q), b);
    }
    r
  }

  /** The empty query matches every item: each search returns its whole list. */
  lemma SearchEmptyQuery(c: Catalog)
    ensures SearchVideos(c, "") == c.videos
    ensures SearchMusic(c, "") == c.music
    ensures SearchBooks(c, "") == c.books
  {
    FilterAll(c.videos, (v: Video) => VideoMatches(v, ""));
    FilterAll(c.music, (m: Music) => MusicMatches(m, ""));
    FilterAll(c.books, (b: Book) => BookMatches(b, ""));
  }

  // ---------------------------------------------------------------------
  // Category and language filters
  // ---------------------------------------------------------------------

  /** `getVideosByCategory`: exact, case-sensitive category match. */
  function VideosByCategory(c: Catalog, category: string): (r: seq<Video>)
    ensures IsSubseq(r, c.videos)
    ensures forall v :: v in r <==> v in c.videos && v.category == category
  {
    var r := Filter(c.videos, (v: Video) => v.category == category);
    forall v ensures v in r <==> v in c.videos && v.category == category {
      FilterMembership(c.videos, (v: Video) => v.category == category, v);
    }
    r
  }

  function MusicByCategory(c: Catalog, category: string): (r: seq<Music>)
    ensures IsSubseq(r, c.music)
    ensures forall m :: m in r <==> m in c.music && m.category == category
  {
    var r := Filter(c.music, (m: Music) => m.category == category);
    forall m ensures m in r <==> m in c.music && m.category == category {
      FilterMembership(c.music, (m: Music) => m.category == category, m);
    }
    r
  }

  function BooksByCategory(c: Catalog, category: string): (r: seq<Book>)
    ensures IsSubseq(r, c.books)
    ensures forall b :: b in r <==> b in c.books && b.category == category
  {
    var r := Filter(c.books, (b: Book) => b.category == category);
    forall b ensures b in r <==> b in c.books && b.category == category {
      FilterMembership(c.books, (b: Book) => b.category == category, b);
    }
    r
  }

  /** `getVideosByLanguage`: the language compared ignoring case. */
  function VideosByLanguage(c: Catalog, language: string): (r: seq<Video>)
    ensures IsSubseq(r, c.videos)
    ensures forall v :: v in r <==> v in c.videos && EqualsIgnoreCase(v.language, language)
  {
    var r := Filter(c.videos, (v: Video) => EqualsIgnoreCase(v.language, language));
    forall v ensures v in r <==> v in c.videos && EqualsIgnoreCase(v.language, language) {
      FilterMembership(c.videos, (v: Video) => EqualsIgnoreCase(v.language, language), v);
    }
    r
  }

  function MusicByLanguage(c: Catalog, language: string): (r: seq<Music>)
    ensures IsSubseq(r, c.music)
    ensures forall m :: m in r <==> m in c.music && EqualsIgnoreCase(m.language, language)
  {
    var r := Filter(c.music, (m: Music) => EqualsIgnoreCase(m.language, language));
    forall m ensures m in r <==> m in c.music && EqualsIgnoreCase(m.language, language) {
      FilterMembership(c.music, (m: Music) => EqualsIgnoreCase(m.language, language), m);
    }
    r
  }

  function BooksByLanguage(c: Catalog, language: string): (r: seq<Book>)
    ensures IsSubseq(r, c.books)
    ensures forall b :: b in r <==> b in c.books && EqualsIgnoreCase(b.language, language)
  {
    var r := Filter(c.books, (b: Book) => EqualsIgnoreCase(b.language, language));
    forall b ensures b in r <==> b in c.books && EqualsIgnoreCase(b.language, language) {
      FilterMembership(c.books, (b: Book) => EqualsIgnoreCase(b.language, language), b);
    }
    r
  }

  /** A language filter does not depend on the letter case of its argument,
      whereas a category filter does. */
  lemma LanguageFilterIgnoresCase(c: Catalog, a: string, b: string)
    requires Lower(a) == Lower(b)
    ensures VideosByLanguage(c, a) == VideosByLanguage(c, b)
    ensures MusicByLanguage(c, a) == MusicByLanguage(c, b)
    ensures BooksByLanguage(c, a) == BooksByLanguage(c, b)
  {
    FilterCongruent(c.videos, (v: Video) => EqualsIgnoreCase(v.language, a),
                    (v: Video) => EqualsIgnoreCase(v.language, b));
    FilterCongruent(c.music, (m: Music) => EqualsIgnoreCase(m.language, a),
                    (m: Music) => EqualsIgnoreCase(m.language, b));
    FilterCongruent(c.books, (x: Book) => EqualsIgnoreCase(x.language, a),
                    (x: Book) => EqualsIgnoreCase(x.language, b));
  }

  // ---------------------------------------------------------------------
  // Category lists
  // ---------------------------------------------------------------------

  /** `map { category }.distinct().sorted()` */
  function SortedDistinct(cats: seq<string>): (r: seq<string>)
    ensures SortedAsc(r)
    ensures NoDuplicates(r)
    ensures forall x :: x in r <==> x in cats
  {
    var d := Distinct(cats);
    var r := SortAsc(d);
    NoDuplicatesCounts(d);
    NoDuplicatesCounts(r);
    assert forall x :: x in r <==> x in multiset(r);
    r
  }

  function VideoCategories(c: Catalog): (r: seq<string>)
    ensures SortedAsc(r) && NoDuplicates(r)
    ensures forall x :: x in r <==> exists v :: v in c.videos && v.category == x
  {
    var cats := seq(|c.videos|, i requires 0 <= i < |c.videos| => c.videos[i].category);
    forall v | v in c.videos ensures v.category in cats {
      var i :| 0 <= i < |c.videos| && c.videos[i] == v;
      assert cats[i] == v.category;
    }
    SortedDistinct(cats)
  }

  function MusicCategories(c: Catalog): (r: seq<string>)
    ensures SortedAsc(r) && NoDuplicates(r)
    ensures forall x :: x in r <==> exists m :: m in c.music && m.category == x
  {
    var cats := seq(|c.music|, i requires 0 <= i < |c.music| => c.music[i].category);
    forall m | m in c.music ensures m.category in cats {
      var i :| 0 <= i < |c.music| && c.music[i] == m;
      assert cats[i] == m.category;
    }
    SortedDistinct(cats)
  }

  function BookCategories(c: Catalog): (r: seq<string>)
    ensures SortedAsc(r) && NoDuplicates(r)
    ensures forall x :: x in r <==> exists b :: b in c.books && b.category == x
  {
    var cats := seq(|c.books|, i requires 0 <= i < |c.books| => c.books[i].category);
    forall b | b in c.books ensures b.category in cats {
      var i :| 0 <= i < |c.books| && c.books[i] == b;
      assert cats[i] == b.category;
    }
    SortedDistinct(cats)
  }

  // ---------------------------------------------------------------------
  // Popular, recent, live, trending
  // ---------------------------------------------------------------------

  /** Popularity scores, in tenths: rating x likes, rating x plays, rating. */
  function VideoPopularity(v: Video): int { v.rating10 * v.likes }
  function MusicPopularity(m: Music): int { m.rating10 * m.playCount }
  function BookPopularity(b: Book): int { b.rating10 }

  /** `getPopularVideos(limit)`. A negative limit makes `take` throw, and the
      fallback in the catch block calls `take(limit)` again, so the exception
      escapes. */
  function PopularVideos(c: Catalog, limit: int): (r: Outcome<seq<Video>>)
    ensures r.Throws? <==> limit < 0
    ensures r.Returns? ==> IsTopK(r.value, c.videos, VideoPopularity, limit)
  {
    if limit < 0 then Throws else Returns(TopByKey(c.videos, VideoPopularity, limit))
  }

  function PopularMusic(c: Catalog, limit: int): (r: Outcome<seq<Music>>)
    ensures r.Throws? <==> limit < 0
    ensures r.Returns? ==> IsTopK(r.value, c.music, MusicPopularity, limit)
  {
    if limit < 0 then Throws else Returns(TopByKey(c.music, MusicPopularity, limit))
  }

  function PopularBooks(c: Catalog, limit: int): (r: Outcome<seq<Book>>)
    ensures r.Throws? <==> limit < 0
    ensures r.Returns? ==> IsTopK(r.value, c.books, BookPopularity, limit)
  {
    if limit < 0 then Throws else Returns(TopByKey(c.books, BookPopularity, limit))
  }

  /** Items with equal popularity come out in catalog order. */
  lemma PopularTiesKeepCatalogOrder(c: Catalog, limit: nat, k: int)
    ensures WithKey(PopularVideos(c, limit).value, VideoPopularity, k)
         <= WithKey(c.videos, VideoPopularity, k)
    ensures WithKey(PopularMusic(c, limit).value, MusicPopularity, k)
         <= WithKey(c.music, MusicPopularity, k)
    ensures WithKey(PopularBooks(c, limit).value, BookPopularity, k)
         <= WithKey(c.books, BookPopularity, k)
  {
    TopByKeyStable(c.videos, VideoPopularity, limit, k);
    TopByKeyStable(c.music, MusicPopularity, limit, k);
    TopByKeyStable(c.books, BookPopularity, limit, k);
  }

  /** `getRecentVideos(limit)`: the head of the list; a negative limit is
      caught and yields the empty list. */
  function RecentVideos(c: Catalog, limit: int): (r: seq<Video>)
    ensures limit < 0 ==> r == []
    ensures limit >= 0 ==> |r| == Min(limit, |c.videos|)
    ensures forall i :: 0 <= i < |r| ==> r[i] == c.videos[i]
  {
    if limit < 0 then [] else Take(c.videos, limit)
  }

  function RecentMusic(c: Catalog, limit: int): (r: seq<Music>)
    ensures limit < 0 ==> r == []
    ensures limit >= 0 ==> |r| == Min(limit, |c.music|)
    ensures forall i :: 0 <= i < |r| ==> r[i] == c.music[i]
  {
    if limit < 0 then [] else Take(c.music, limit)
  }

  function RecentBooks(c: Catalog, limit: int): (r: seq<Book>)
    ensures limit < 0 ==> r == []
    ensures limit >= 0 ==> |r| == Min(limit, |c.books|)
    ensures forall i :: 0 <= i < |r| ==> r[i] == c.books[i]
  {
    if limit < 0 then [] else Take(c.books, limit)
  }

  /** `getLiveVideos()` */
  function LiveVideos(c: Catalog): (r: seq<Video>)
    ensures IsSubseq(r, c.videos)
    ensures forall v :: v in r <==> v in c.videos && v.isLive
  {
    var r := Filter(c.videos, (v: Video) => v.isLive);
    forall v ensures v in r <==> v in c.videos && v.isLive {
      FilterMembership(c.videos, (v: Video) => v.isLive, v);
    }
    r
  }

  /** The view count shown as text, read as a number the way
      `getTrendingVideos` does: `K` becomes `000`, `M` becomes `000000`,
      commas are dropped, and whatever is then not an `Int` counts as 0. */
  function ParseViews(views: string): (n: int)
    ensures InIntRange(n)
    ensures |views| > 0 && AllDigits(views) && DigitsValue(views) <= IntMax ==> n == DigitsValue(views)
    ensures '.' in views ==> n == 0
    ensures ToIntOrNull(ExpandViews(views)).None? ==> n == 0
    ensures ToIntOrNull(ExpandViews(views)).Some? ==> n == ToIntOrNull(ExpandViews(views)).value
  {
    ExpandViewsFacts(views);
    ToIntOrNull(ExpandViews(views)).GetOr(0)
  }

  /** `K` becomes `000`, `M` becomes `000000`, commas are dropped. */
  function ExpandViews(views: string): (expanded: string)
    ensures 'K' !in expanded && 'M' !in expanded && ',' !in expanded
    ensures AllDigits(views) ==> expanded == views
  {
    var k := ReplaceChar(views, 'K', "000");
    var m := ReplaceChar(k, 'M', "000000");
    ReplaceCharAbsent(k, 'M', "000000", 'K');
    ReplaceCharAbsent(m, ',', "", 'K');
    ReplaceCharAbsent(m, ',', "", 'M');
    assert AllDigits(views) ==> 'K' !in views && 'M' !in views && ',' !in views by {
      assert !IsDigit('K') && !IsDigit('M') && !IsDigit(',');
    }
    ReplaceChar(m, ',', "")
  }

  lemma ExpandViewsFacts(views: string)
    ensures AllDigits(views) ==> ExpandViews(views) == views
    ensures '.' in views ==> ToIntOrNull(ExpandViews(views)) == None
  {
    var expanded := ExpandViews(views);
    if '.' in views {
      var k := ReplaceChar(views, 'K', "000");
      ReplaceCharKeeps(views, 'K', "000", '.');
      ReplaceCharKeeps(k, 'M', "000000", '.');
      ReplaceCharKeeps(ReplaceChar(k, 'M', "000000"), ',', "", '.');
      var i :| 0 <= i < |expanded| && expanded[i] == '.';
      ToIntOrNullRejects(expanded, i);
    }
    if AllDigits(views) {
      assert 'K' !in views && 'M' !in views && ',' !in views by {
        assert !IsDigit('K') && !IsDigit('M') && !IsDigit(',');
      }
    }
  }

  /** `<digits>K` reads as the digits times a thousand, or as 0 when that
      is beyond the `Int` range. */
  lemma ParseViewsThousands(d: string)
    requires AllDigits(d)
    ensures DigitsValue(d) * 1000 <= IntMax ==> ParseViews(d + "K") == DigitsValue(d) * 1000
    ensures DigitsValue(d) * 1000 > IntMax ==> ParseViews(d + "K") == 0
  {
    DigitsTimesThousand(d);
    ExpandThousands(d);
    ParseExpandedDigits(d + "K", d + "000");
  }

  /** `<digits>M` reads as the digits times a million, or as 0 when that
      is beyond the `Int` range. */
  lemma ParseViewsMillions(d: string)
    requires AllDigits(d)
    ensures DigitsValue(d) * 1000000 <= IntMax ==> ParseViews(d + "M") == DigitsValue(d) * 1000000
    ensures DigitsValue(d) * 1000000 > IntMax ==> ParseViews(d + "M") == 0
  {
    DigitsTimesMillion(d);
    ExpandMillions(d);
    ParseExpandedDigits(d + "M", d + "000000");
  }

  /** A view count that expands to a non-empty digit string reads as its
      value when that is an `Int`, and as 0 otherwise. */
  lemma ParseExpandedDigits(views: string, e: string)
    requires ExpandViews(views) == e && |e| > 0 && AllDigits(e)
    ensures DigitsValue(e) <= IntMax ==> ParseViews(views) == DigitsValue(e)
    ensures DigitsValue(e) > IntMax ==> ParseViews(views) == 0
  {
    assert IsDigit(e[0]);
  }

  lemma ExpandThousands(d: string)
    requires AllDigits(d)
    ensures ExpandViews(d + "K") == d + "000"
  {
    var s, e := d + "K", d + "000";
    assert !IsDigit('K') && !IsDigit('M') && !IsDigit(',');
    assert 'K' !in d;
    ReplaceCharAppend(d, "K", 'K', "000");
    assert ReplaceChar("K", 'K', "000") == "000";
    var k := ReplaceChar(s, 'K', "000");
    assert k == e;
    assert 'M' !in e && ',' !in e by {
      assert forall i :: 0 <= i < |e| ==> IsDigit(e[i]);
    }
    assert ReplaceChar(k, 'M', "000000") == e;
    assert ExpandViews(s) == ReplaceChar(e, ',', "");
  }

  lemma ExpandMillions(d: string)
    requires AllDigits(d)
    ensures ExpandViews(d + "M") == d + "000000"
  {
    var s, e := d + "M", d + "000000";
    assert !IsDigit('K') && !IsDigit('M') && !IsDigit(',');
    assert 'K' !in s && 'M' !in d;
    var k := ReplaceChar(s, 'K', "000");
    assert k == s;
    ReplaceCharAppend(d, "M", 'M', "000000");
    assert ReplaceChar("M", 'M', "000000") == "000000";
    var m := ReplaceChar(k, 'M', "000000");
    assert m == e;
    assert ',' !in e by {
      assert forall i :: 0 <= i < |e| ==> IsDigit(e[i]);
    }
    assert ExpandViews(s) == ReplaceChar(e, ',', "");
  }

  /** Expanding works piece by piece. */
  lemma ExpandViewsAppend(a: string, b: string)
    ensures ExpandViews(a + b) == ExpandViews(a) + ExpandViews(b)
  {
    var k1, k2 := ReplaceChar(a, 'K', "000"), ReplaceChar(b, 'K', "000");
    var m1, m2 := ReplaceChar(k1, 'M', "000000"), ReplaceChar(k2, 'M', "000000");
    ReplaceCharAppend(a, b, 'K', "000");
    ReplaceCharAppend(k1, k2, 'M', "000000");
    ReplaceCharAppend(m1, m2, ',', "");
  }

  /** Commas are ignored wherever they stand. */
  lemma ParseViewsIgnoresCommas(a: string, b: string)
    ensures ParseViews(a + "," + b) == ParseViews(a + b)
  {
    ExpandViewsDropsComma(a, b);
    SameExpansionSameViews(a + "," + b, a + b);
  }

  lemma SameExpansionSameViews(a: string, b: string)
    requires ExpandViews(a) == ExpandViews(b)
    ensures ParseViews(a) == ParseViews(b)
  {
  }

  lemma ExpandViewsDropsComma(a: string, b: string)
    ensures ExpandViews(a + "," + b) == ExpandViews(a + b)
  {
    var ea, ec, eb := ExpandViews(a), ExpandViews(","), ExpandViews(b);
    ExpandViewsAppend(a + ",", b);
    ExpandViewsAppend(a, ",");
    ExpandsCommaToNothing();
    assert ea + ec == ea;
    ExpandViewsAppend(a, b);
  }

  lemma ExpandsCommaToNothing()
    ensures ExpandViews(",") == ""
  {
    assert ReplaceChar(",", ',', "") == "";
  }

  /** The shipped view counts: "125K" reads as 125000, while "1.2K" becomes
      "1.2000", which is not an `Int`, and counts as no views at all. */
  lemma ShippedViewCounts()
    ensures ParseViews(V001.views) == 125000
    ensures ParseViews(V004.views) == 0
  {
    assert V004.views[1] == '.';
    ThousandsExpand();
    ReadsAsDigits();
  }

  lemma ReadsAsDigits()
    ensures ToIntOrNull("125000") == Some(125000)
  {
    assert DigitsValue("1") == 1;
    assert "12"[..1] == "1";
    assert "125"[..2] == "12";
    assert "1250"[..3] == "125";
    assert "12500"[..4] == "1250";
    assert "125000"[..5] == "12500";
    assert DigitsValue("125000") == 125000;
  }

  /** `K` is expanded to three zeros. */
  lemma ThousandsExpand()
    ensures ExpandViews("125K") == "125000"
  {
    var k := ReplaceChar("125K", 'K', "000");
    assert k == "125000" by {
      assert "125K"[1..] == "25K" && "25K"[1..] == "5K" && "5K"[1..] == "K";
      assert ReplaceChar("K", 'K', "000") == "000";
      assert ReplaceChar("5K", 'K', "000") == "5000";
      assert ReplaceChar("25K", 'K', "000") == "25000";
    }
    assert 'M' !in k && ',' !in k;
  }

  function TrendingScore(v: Video): int { ParseViews(v.views) * v.rating10 }

  /** `getTrendingVideos(limit)`: the non-live videos ranked by parsed views
      times rating. A negative limit throws, as in `PopularVideos`. */
  function TrendingVideos(c: Catalog, limit: int): (r: Outcome<seq<Video>>)
    ensures r.Throws? <==> limit < 0
    ensures r.Returns? ==> forall v :: v in r.value ==> v in c.videos && !v.isLive
    ensures r.Returns? ==> IsTopK(r.value, Filter(c.videos, (v: Video) => !v.isLive), TrendingScore, limit)
  {
    if limit < 0 then Throws
    else
      TopOfFilterMembers(c.videos, (v: Video) => !v.isLive, TrendingScore, limit);
      Returns(TopByKey(Filter(c.videos, (v: Video) => !v.isLive), TrendingScore, limit))
  }

  // ---------------------------------------------------------------------
  // Lookups
  // ---------------------------------------------------------------------

  /** `getVideoById` (`find`): the first video carrying `id`; the other
      lookups are the same for tracks, books and events. */
  function VideoById(c: Catalog, id: string): (r: Option<Video>)
    ensures r.Some? ==> r.value in c.videos && r.value.id == id
    ensures r.None? <==> forall v :: v in c.videos ==> v.id != id
    ensures r.Some? ==> exists i :: 0 <= i < |c.videos| && c.videos[i] == r.value
                               && forall j :: 0 <= j < i ==> c.videos[j].id != id
  {
    Find(c.videos, (v: Video) => v.id == id)
  }

  function MusicById(c: Catalog, id: string): (r: Option<Music>)
    ensures r.Some? ==> r.value in c.music && r.value.id == id
    ensures r.None? <==> forall m :: m in c.music ==> m.id != id
    ensures r.Some? ==> exists i :: 0 <= i < |c.music| && c.music[i] == r.value
                               && forall j :: 0 <= j < i ==> c.music[j].id != id
  {
    Find(c.music, (m: Music) => m.id == id)
  }

  function BookById(c: Catalog, id: string): (r: Option<Book>)
    ensures r.Some? ==> r.value in c.books && r.value.id == id
    ensures r.None? <==> forall b :: b in c.books ==> b.id != id
    ensures r.Some? ==> exists i :: 0 <= i < |c.books| && c.books[i] == r.value
                               && forall j :: 0 <= j < i ==> c.books[j].id != id
  {
    Find(c.books, (b: Book) => b.id == id)
  }

  function EventById(c: Catalog, id: string): (r: Option<Event>)
    ensures r.Some? ==> r.value in c.events && r.value.id == id
    ensures r.None? <==> forall e :: e in c.events ==> e.id != id
    ensures r.Some? ==> exists i :: 0 <= i < |c.events| && c.events[i] == r.value
                               && forall j :: 0 <= j < i ==> c.events[j].id != id
  {
    Find(c.events, (e: Event) => e.id == id)
  }

  /** `isValidVideoId`: some video carries `id`. */
  predicate IsValidVideoId(c: Catalog, id: string)
  {
    exists i :: 0 <= i < |c.videos| && c.videos[i].id == id
  }

  predicate IsValidMusicId(c: Catalog, id: string)
  {
    exists i :: 0 <= i < |c.music| && c.music[i].id == id
  }

  predicate IsValidBookId(c: Catalog, id: string)
  {
    exists i :: 0 <= i < |c.books| && c.books[i].id == id
  }

  /** Validity and lookup agree: an id is valid iff the lookup finds an item,
      and the item found carries that id. */
  lemma ValidIdIffFound(c: Catalog, id: string)
    ensures IsValidVideoId(c, id) <==> VideoById(c, id).Some?
    ensures IsValidMusicId(c, id) <==> MusicById(c, id).Some?
    ensures IsValidBookId(c, id) <==> BookById(c, id).Some?
    ensures VideoById(c, id).Some? ==> VideoById(c, id).value.id == id
    ensures MusicById(c, id).Some? ==> MusicById(c, id).value.id == id
    ensures BookById(c, id).Some? ==> BookById(c, id).value.id == id
  {
    if IsValidVideoId(c, id) {
      var i :| 0 <= i < |c.videos| && c.videos[i].id == id;
      assert c.videos[i] in c.videos;
    }
    if IsValidMusicId(c, id) {
      var i :| 0 <= i < |c.music| && c.music[i].id == id;
      assert c.music[i] in c.music;
    }
    if IsValidBookId(c, id) {
      var i :| 0 <= i < |c.books| && c.books[i].id == id;
      assert c.books[i] in c.books;
    }
  }

  // ---------------------------------------------------------------------
  // Recommendations
  // ---------------------------------------------------------------------

  /** Some tag of `tags` is, exactly, one of `baseTags`. */
  predicate SharesTag(tags: seq<string>, baseTags: seq<string>)
  {
    exists i :: 0 <= i < |tags| && tags[i] in baseTags
  }

  function VideoRating(v: Video): int { v.rating10 }
  function MusicRating(m: Music): int { m.rating10 }
  function BookRating(b: Book): int { b.rating10 }

  /** The videos `getRecommendedVideos` ranks for the base video `b`: the
      other videos sharing its category or one of its tags, in catalog
      order. */
  function VideoCandidates(c: Catalog, b: Video, baseId: string): (r: seq<Video>)
    ensures IsSubseq(r, c.videos)
    ensures forall v :: v in r <==>
      v in c.videos && v.id != baseId && (v.category == b.category || SharesTag(v.tags, b.tags))
  {
    var p := (v: Video) => v.id != baseId && (v.category == b.category || SharesTag(v.tags, b.tags));
    forall v ensures v in Filter(c.videos, p) <==> v in c.videos && p(v) {
      FilterMembership(c.videos, p, v);
    }
    Filter(c.videos, p)
  }

  /** `getRecommendedVideos(baseId, limit)`: the best rated `limit` of the
      candidates, ties in catalog order; for an unknown base, the popular
      videos. A negative limit throws on every path. */
  function RecommendedVideos(c: Catalog, baseId: string, limit: int): (r: Outcome<seq<Video>>)
    ensures r.Throws? <==> limit < 0
    ensures r.Returns? ==> forall v :: v in r.value ==> v in c.videos && v.id != baseId
    ensures r.Returns? && VideoById(c, baseId).Some? ==>
      IsTopK(r.value, VideoCandidates(c, VideoById(c, baseId).value, baseId), VideoRating, limit)
    ensures r.Returns? && VideoById(c, baseId).Some? ==>
      var b := VideoById(c, baseId).value;
      forall v :: v in r.value ==> v.category == b.category || SharesTag(v.tags, b.tags)
    ensures VideoById(c, baseId).None? ==> r == PopularVideos(c, limit)
  {
    if limit < 0 then Throws
    else match VideoById(c, baseId)
      case Some(b) =>
        TopByKeyMembers(VideoCandidates(c, b, baseId), VideoRating, limit);
        Returns(TopByKey(VideoCandidates(c, b, baseId), VideoRating, limit))
      case None =>
        TopByKeyMembers(c.videos, VideoPopularity, limit);
        PopularVideos(c, limit)
  }

  /** The tracks `getRecommendedMusic` ranks for the base track `b`. */
  function MusicCandidates(c: Catalog, b: Music, baseId: string): (r: seq<Music>)
    ensures IsSubseq(r, c.music)
    ensures forall m :: m in r <==>
      m in c.music && m.id != baseId && (m.category == b.category || SharesTag(m.tags, b.tags))
  {
    var p := (m: Music) => m.id != baseId && (m.category == b.category || SharesTag(m.tags, b.tags));
    forall m ensures m in Filter(c.music, p) <==> m in c.music && p(m) {
      FilterMembership(c.music, p, m);
    }
    Filter(c.music, p)
  }

  /** `getRecommendedMusic(baseId, limit)` */
  function RecommendedMusic(c: Catalog, baseId: string, limit: int): (r: Outcome<seq<Music>>)
    ensures r.Throws? <==> limit < 0
    ensures r.Returns? ==> forall m :: m in r.value ==> m in c.music && m.id != baseId
    ensures r.Returns? && MusicById(c, baseId).Some? ==>
      IsTopK(r.value, MusicCandidates(c, MusicById(c, baseId).value, baseId), MusicRating, limit)
    ensures r.Returns? && MusicById(c, baseId).Some? ==>
      var b := MusicById(c, baseId).value;
      forall m :: m in r.value ==> m.category == b.category || SharesTag(m.tags, b.tags)
    ensures MusicById(c, baseId).None? ==> r == PopularMusic(c, limit)
  {
    if limit < 0 then Throws
    else match MusicById(c, baseId)
      case Some(b) =>
        TopByKeyMembers(MusicCandidates(c, b, baseId), MusicRating, limit);
        Returns(TopByKey(MusicCandidates(c, b, baseId), MusicRating, limit))
      case None =>
        TopByKeyMembers(c.music, MusicPopularity, limit);
        PopularMusic(c, limit)
  }

  /** The books `getRecommendedBooks` ranks for the base book `b`. */
  function BookCandidates(c: Catalog, b: Book, baseId: string): (r: seq<Book>)
    ensures IsSubseq(r, c.books)
    ensures forall x :: x in r <==>
      x in c.books && x.id != baseId && (x.category == b.category || SharesTag(x.tags, b.tags))
  {
    var p := (x: Book) => x.id != baseId && (x.category == b.category || SharesTag(x.tags, b.tags));
    forall x ensures x in Filter(c.books, p) <==> x in c.books && p(x) {
      FilterMembership(c.books, p, x);
    }
    Filter(c.books, p)
  }

  /** `getRecommendedBooks(baseId, limit)` */
  function RecommendedBooks(c: Catalog, baseId: string, limit: int): (r: Outcome<seq<Book>>)
    ensures r.Throws? <==> limit < 0
    ensures r.Returns? ==> forall x :: x in r.value ==> x in c.books && x.id != baseId
    ensures r.Returns? && BookById(c, baseId).Some? ==>
      IsTopK(r.value, BookCandidates(c, BookById(c, baseId).value, baseId), BookRating, limit)
    ensures r.Returns? && BookById(c, baseId).Some? ==>
      var b := BookById(c, baseId).value;
      forall x :: x in r.value ==> x.category == b.category || SharesTag(x.tags, b.tags)
    ensures BookById(c, baseId).None? ==> r == PopularBooks(c, limit)
  {
    if limit < 0 then Throws
    else match BookById(c, baseId)
      case Some(b) =>
        TopByKeyMembers(BookCandidates(c, b, baseId), BookRating, limit);
        Returns(TopByKey(BookCandidates(c, b, baseId), BookRating, limit))
      case None =>
        TopByKeyMembers(c.books, BookPopularity, limit);
        PopularBooks(c, limit)
  }

  /** Candidates rated alike keep their catalog order in a recommendation. */
  lemma RecommendedTiesKeepCatalogOrder(c: Catalog, baseId: string, limit: nat, k: int)
    ensures VideoById(c, baseId).Some? ==>
      WithKey(RecommendedVideos(c, baseId, limit).value, VideoRating, k)
        <= WithKey(VideoCandidates(c, VideoById(c, baseId).value, baseId), VideoRating, k)
    ensures MusicById(c, baseId).Some? ==>
      WithKey(RecommendedMusic(c, baseId, limit).value, MusicRating, k)
        <= WithKey(MusicCandidates(c, MusicById(c, baseId).value, baseId), MusicRating, k)
    ensures BookById(c, baseId).Some? ==>
      WithKey(RecommendedBooks(c, baseId, limit).value, BookRating, k)
        <= WithKey(BookCandidates(c, BookById(c, baseId).value, baseId), BookRating, k)
  {
    if VideoById(c, baseId).Some? {
      TopByKeyStable(VideoCandidates(c, VideoById(c, baseId).value, baseId), VideoRating, limit, k);
    }
    if MusicById(c, baseId).Some? {
      TopByKeyStable(MusicCandidates(c, MusicById(c, baseId).value, baseId), MusicRating, limit, k);
    }
    if BookById(c, baseId).Some? {
      TopByKeyStable(BookCandidates(c, BookById(c, baseId).value, baseId), BookRating, limit, k);
    }
  }

  /** Non-live videos with equal trending scores keep their catalog order. */
  lemma TrendingTiesKeepCatalogOrder(c: Catalog, limit: nat, k: int)
    ensures WithKey(TrendingVideos(c, limit).value, TrendingScore, k)
         <= WithKey(Filter(c.videos, (v: Video) => !v.isLive), TrendingScore, k)
  {
    TopByKeyStable(Filter(c.videos, (v: Video) => !v.isLive), TrendingScore, limit, k);
  }

  // ---------------------------------------------------------------------
  // Favourites
  // ---------------------------------------------------------------------

  /** `addToFavorites(id, type)`; an unknown type does nothing. */
  function AddToFavorites(f: Favorites, id: string, kind: string): (g: Favorites)
    ensures kind == "video" ==> g == f.(videos := f.videos + {id})
    ensures kind == "music" ==> g == f.(music := f.music + {id})
    ensures kind == "book" ==> g == f.(books := f.books + {id})
    ensures kind !in {"video", "music", "book"} ==> g == f
  {
    match kind
    case "video" => f.(videos := f.videos + {id})
    case "music" => f.(music := f.music + {id})
    case "book" => f.(books := f.books + {id})
    case _ => f
  }

  /** `removeFromFavorites(id, type)`; an unknown type does nothing. */
  function RemoveFromFavorites(f: Favorites, id: string, kind: string): (g: Favorites)
    ensures kind == "video" ==> g == f.(videos := f.videos - {id})
    ensures kind == "music" ==> g == f.(music := f.music - {id})
    ensures kind == "book" ==> g == f.(books := f.books - {id})
    ensures kind !in {"video", "music", "book"} ==> g == f
  {
    match kind
    case "video" => f.(videos := f.videos - {id})
    case "music" => f.(music := f.music - {id})
    case "book" => f.(books := f.books - {id})
    case _ => f
  }

  /** `getFavoriteVideos()`: the catalog videos whose id is a favourite, in
      catalog order. */
  function FavoriteVideos(c: Catalog, f: Favorites): (r: seq<Video>)
    ensures IsSubseq(r, c.videos)
    ensures forall v :: v in r <==> v in c.videos && v.id in f.videos
  {
    var r := Filter(c.videos, (v: Video) => v.id in f.videos);
    forall v ensures v in r <==> v in c.videos && v.id in f.videos {
      FilterMembership(c.videos, (v: Video) => v.id in f.videos, v);
    }
    r
  }

  function FavoriteMusic(c: Catalog, f: Favorites): (r: seq<Music>)
    ensures IsSubseq(r, c.music)
    ensures forall m :: m in r <==> m in c.music && m.id in f.music
  {
    var r := Filter(c.music, (m: Music) => m.id in f.music);
    forall m ensures m in r <==> m in c.music && m.id in f.music {
      FilterMembership(c.music, (m: Music) => m.id in f.music, m);
    }
    r
  }

  function FavoriteBooks(c: Catalog, f: Favorites): (r: seq<Book>)
    ensures IsSubseq(r, c.books)
    ensures forall b :: b in r <==> b in c.books && b.id in f.books
  {
    var r := Filter(c.books, (b: Book) => b.id in f.books);
    forall b ensures b in r <==> b in c.books && b.id in f.books {
      FilterMembership(c.books, (b: Book) => b.id in f.books, b);
    }
    r
  }

  /** After adding a video id, the favourite list shows the catalog videos
      with that id; after removing it, it shows none of them. The other two
      lists are untouched either way. */
  lemma VideoFavoriteAddRemove(c: Catalog, f: Favorites, id: string)
    ensures forall v :: v in c.videos && v.id == id ==> v in FavoriteVideos(c, AddToFavorites(f, id, "video"))
    ensures forall v :: v in FavoriteVideos(c, RemoveFromFavorites(f, id, "video")) ==> v.id != id
    ensures FavoriteMusic(c, AddToFavorites(f, id, "video")) == FavoriteMusic(c, f)
    ensures FavoriteBooks(c, AddToFavorites(f, id, "video")) == FavoriteBooks(c, f)
    ensures FavoriteMusic(c, RemoveFromFavorites(f, id, "video")) == FavoriteMusic(c, f)
    ensures FavoriteBooks(c, RemoveFromFavorites(f, id, "video")) == FavoriteBooks(c, f)
  {
  }

  lemma MusicFavoriteAddRemove(c: Catalog, f: Favorites, id: string)
    ensures forall m :: m in c.music && m.id == id ==> m in FavoriteMusic(c, AddToFavorites(f, id, "music"))
    ensures forall m :: m in FavoriteMusic(c, RemoveFromFavorites(f, id, "music")) ==> m.id != id
    ensures FavoriteVideos(c, AddToFavorites(f, id, "music")) == FavoriteVideos(c, f)
    ensures FavoriteBooks(c, AddToFavorites(f, id, "music")) == FavoriteBooks(c, f)
    ensures FavoriteVideos(c, RemoveFromFavorites(f, id, "music")) == FavoriteVideos(c, f)
    ensures FavoriteBooks(c, RemoveFromFavorites(f, id, "music")) == FavoriteBooks(c, f)
  {
  }

  lemma BookFavoriteAddRemove(c: Catalog, f: Favorites, id: string)
    ensures forall b :: b in c.books && b.id == id ==> b in FavoriteBooks(c, AddToFavorites(f, id, "book"))
    ensures forall b :: b in FavoriteBooks(c, RemoveFromFavorites(f, id, "book")) ==> b.id != id
    ensures FavoriteVideos(c, AddToFavorites(f, id, "book")) == FavoriteVideos(c, f)
    ensures FavoriteMusic(c, AddToFavorites(f, id, "book")) == FavoriteMusic(c, f)
    ensures FavoriteVideos(c, RemoveFromFavorites(f, id, "book")) == FavoriteVideos(c, f)
    ensures FavoriteMusic(c, RemoveFromFavorites(f, id, "book")) == FavoriteMusic(c, f)
  {
  }

  /** Removing after adding is the same as removing: adding and removing an id
      that was not a favourite restores the sets. */
  lemma RemoveUndoesAdd(f: Favorites, id: string, kind: string)
    ensures RemoveFromFavorites(AddToFavorites(f, id, kind), id, kind) == RemoveFromFavorites(f, id, kind)
  {
  }

  // ---------------------------------------------------------------------
  // Multi-criteria search
  // ---------------------------------------------------------------------

  /** The category and language criteria of `searchContent`: each is
      compared ignoring case, and an empty one does not filter. */
  predicate MeetsCriteria(itemCategory: string, itemLanguage: string, category: string, language: string)
  {
    && (category == "" || EqualsIgnoreCase(itemCategory, category))
    && (language == "" || EqualsIgnoreCase(itemLanguage, language))
  }

  /** `searchContent`: per selected type, the search hits narrowed by
      category and language. A type that is not selected gets nothing. */
  function SearchContent(c: Catalog, query: string, contentType: string,
                         category: string, language: string): (r: SearchResult)
    ensures contentType !in {"all", "videos"} ==> r.videos == []
    ensures IsSubseq(r.videos, SearchVideos(c, query))
    ensures contentType in {"all", "videos"} ==>
      forall v :: v in r.videos <==> v in SearchVideos(c, query) && MeetsCriteria(v.category, v.language, category, language)
    ensures contentType in {"all", "videos"} && category == "" && language == "" ==>
      r.videos == SearchVideos(c, query)
    ensures contentType !in {"all", "music"} ==> r.music == []
    ensures IsSubseq(r.music, SearchMusic(c, query))
    ensures contentType in {"all", "music"} ==>
      forall m :: m in r.music <==> m in SearchMusic(c, query) && MeetsCriteria(m.category, m.language, category, language)
    ensures contentType in {"all", "music"} && category == "" && language == "" ==>
      r.music == SearchMusic(c, query)
    ensures contentType !in {"all", "books"} ==> r.books == []
    ensures IsSubseq(r.books, SearchBooks(c, query))
    ensures contentType in {"all", "books"} ==>
      forall x :: x in r.books <==> x in SearchBooks(c, query) && MeetsCriteria(x.category, x.language, category, language)
    ensures contentType in {"all", "books"} && category == "" && language == "" ==>
      r.books == SearchBooks(c, query)
  {
    var videos := if contentType == "all" || contentType == "videos" then
      NarrowVideos(SearchVideos(c, query), category, language) else [];
    var music := if contentType == "all" || contentType == "music" then
      NarrowMusic(SearchMusic(c, query), category, language) else [];
    var books := if contentType == "all" || contentType == "books" then
      NarrowBooks(SearchBooks(c, query), category, language) else [];
    EmptySubseq(SearchVideos(c, query));
    EmptySubseq(SearchMusic(c, query));
    EmptySubseq(SearchBooks(c, query));
    SearchResult(videos, music, books)
  }

  /** One list's hits narrowed by the criteria, in their order. */
  function NarrowVideos(s: seq<Video>, category: string, language: string): (r: seq<Video>)
    ensures IsSubseq(r, s)
    ensures forall v :: v in r <==> v in s && MeetsCriteria(v.category, v.language, category, language)
    ensures category == "" && language == "" ==> r == s
  {
    var byCategory := (v: Video) => EqualsIgnoreCase(v.category, category);
    var byLanguage := (v: Video) => EqualsIgnoreCase(v.language, language);
    var a := if category != "" then Filter(s, byCategory) else s;
    var b := if language != "" then Filter(a, byLanguage) else a;
    forall v ensures v in b <==> v in s && MeetsCriteria(v.category, v.language, category, language) {
      if category != "" { FilterMembership(s, byCategory, v); }
      if language != "" { FilterMembership(a, byLanguage, v); }
    }
    SubseqRefl(s);
    SubseqRefl(a);
    SubseqTrans(b, a, s);
    b
  }

  /** One list's hits narrowed by the criteria, in their order. */
  function NarrowMusic(s: seq<Music>, category: string, language: string): (r: seq<Music>)
    ensures IsSubseq(r, s)
    ensures forall m :: m in r <==> m in s && MeetsCriteria(m.category, m.language, category, language)
    ensures category == "" && language == "" ==> r == s
  {
    var byCategory := (m: Music) => EqualsIgnoreCase(m.category, category);
    var byLanguage := (m: Music) => EqualsIgnoreCase(m.language, language);
    var a := if category != "" then Filter(s, byCategory) else s;
    var b := if language != "" then Filter(a, byLanguage) else a;
    forall m ensures m in b <==> m in s && MeetsCriteria(m.category, m.language, category, language) {
      if category != "" { FilterMembership(s, byCategory, m); }
      if language != "" { FilterMembership(a, byLanguage, m); }
    }
    SubseqRefl(s);
    SubseqRefl(a);
    SubseqTrans(b, a, s);
    b
  }

  /** One list's hits narrowed by the criteria, in their order. */
  function NarrowBooks(s: seq<Book>, category: string, language: string): (r: seq<Book>)
    ensures IsSubseq(r, s)
    ensures forall x :: x in r <==> x in s && MeetsCriteria(x.category, x.language, category, language)
    ensures category == "" && language == "" ==> r == s
  {
    var byCategory := (x: Book) => EqualsIgnoreCase(x.category, category);
    var byLanguage := (x: Book) => EqualsIgnoreCase(x.language, language);
    var a := if category != "" then Filter(s, byCategory) else s;
    var b := if language != "" then Filter(a, byLanguage) else a;
    forall x ensures x in b <==> x in s && MeetsCriteria(x.category, x.language, category, language) {
      if category != "" { FilterMembership(s, byCategory, x); }
      if language != "" { FilterMembership(a, byLanguage, x); }
    }
    SubseqRefl(s);
    SubseqRefl(a);
    SubseqTrans(b, a, s);
    b
  }

  // ---------------------------------------------------------------------
  // Statistics
  // ---------------------------------------------------------------------

  /** `getContentStats()`: the list sizes and the number of live videos. */
  function Stats(c: Catalog): (r: ContentStats)
    ensures r.totalVideos == |c.videos| && r.totalMusic == |c.music|
    ensures r.totalBooks == |c.books| && r.totalEvents == |c.events|
    ensures r.liveVideos <= r.totalVideos
    ensures r.liveVideos == 0 <==> forall v :: v in c.videos ==> !v.isLive
    ensures r.liveVideos == |LiveVideos(c)|
  {
    var live := LiveVideos(c);
    SubseqMembers(live, c.videos);
    EmptyIffNoMembers(live);
    ContentStats(|c.videos|, |c.music|, |c.books|, |c.events|, |live|)
  }
}
