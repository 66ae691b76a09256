/** The book reader: which book it opens, the page state driven by the
    previous/next buttons, the slider and the chapter list, the bookmark set,
    and which sample text a page shows. The long literal texts are replaced
    by a `Content` value naming the text and the numbers printed in it. */
module PDFViewerScreen {
  import opened KotlinStd
  import opened KotlinText
  import opened Lists
  import opened SpiritualRepository

  /** The book opened when the catalog has none; the fields not given in the
      screen take the record type's defaults. */
  const DefaultBook := Book("default", "Spiritual Book", "Spiritual Author",
    "A wonderful spiritual book for seekers", "Practice", 100, 45, "Hindi", 2024,
    "5 days", [], false, [])

  /** `bookData`: the book with the id, else the first book, else the default
      book of 100 pages. */
  function BookData(c: Catalog, bookId: string): (b: Book)
    ensures IsValidBookId(c, bookId) ==> b.id == bookId && b in c.books
    ensures !IsValidBookId(c, bookId) && |c.books| > 0 ==> b == c.books[0]
    ensures |c.books| == 0 ==> b == DefaultBook && b.pages == 100
  {
    ValidIdIffFound(c, bookId);
    match BookById(c, bookId)
    case Some(b) => b
    case None => if |c.books| > 0 then c.books[0] else DefaultBook
  }

  // ---------------------------------------------------------------------
  // Page state
  // ---------------------------------------------------------------------

  datatype ReaderState = ReaderState(page: int, bookmarks: set<int>)

  /** A freshly opened book shows page 1 and has no bookmarks. */
  const Opened := ReaderState(1, {})

  /** The page shown lies within the book. */
  predicate OnAPage(st: ReaderState, total: int)
  {
    1 <= st.page <= total
  }

  /** The "previous page" button; it does nothing on page 1. */
  function PrevPage(st: ReaderState): (next: ReaderState)
    ensures st.page > 1 ==> next.page == st.page - 1
    ensures st.page <= 1 ==> next.page == st.page
    ensures next.bookmarks == st.bookmarks
  {
    if st.page > 1 then st.(page := st.page - 1) else st
  }

  /** The "next page" button; it does nothing on the last page. */
  function NextPage(st: ReaderState, total: int): (next: ReaderState)
    ensures st.page < total ==> next.page == st.page + 1
    ensures st.page >= total ==> next.page == st.page
    ensures next.bookmarks == st.bookmarks
  {
    if st.page < total then st.(page := st.page + 1) else st
  }

  /** The slider: the widget keeps its value within `[1, total]`, and the
      page becomes that value. */
  function SlideTo(st: ReaderState, total: int, value: int): (next: ReaderState)
    requires total >= 1
    ensures OnAPage(next, total)
    ensures 1 <= value <= total ==> next.page == value
    ensures next.bookmarks == st.bookmarks
  {
    st.(page := if value < 1 then 1 else if value > total then total else value)
  }

  /** The slider's `steps`: the number of stops strictly between its ends. */
  function SliderSteps(total: int): (steps: int)
    ensures steps >= 0
  {
    if total > 2 then total - 2 else 0
  }

  /** With at least two pages the slider stops exactly on the pages: its two
      ends plus the steps between them number `total`. */
  lemma SliderStopsAreThePages(total: int)
    requires total >= 2
    ensures SliderSteps(total) + 2 == total
  {
  }

  /** The buttons and the slider never leave the book. */
  lemma PageMovesStayInBook(st: ReaderState, total: int, value: int)
    requires OnAPage(st, total)
    ensures OnAPage(PrevPage(st), total)
    ensures OnAPage(NextPage(st, total), total)
    ensures OnAPage(SlideTo(st, total, value), total)
  {
  }

  /** Next then previous returns to the same page, except on the last page. */
  lemma NextThenPrev(st: ReaderState, total: int)
    requires OnAPage(st, total) && st.page < total
    ensures PrevPage(NextPage(st, total)) == st
  {
  }

  /** Confirming the bookmark dialog toggles the current page. */
  function ToggleBookmark(st: ReaderState): (next: ReaderState)
    ensures st.page in next.bookmarks <==> st.page !in st.bookmarks
    ensures forall p :: p != st.page ==> (p in next.bookmarks <==> p in st.bookmarks)
    ensures next.page == st.page
  {
    if st.page in st.bookmarks then st.(bookmarks := st.bookmarks - {st.page})
    else st.(bookmarks := st.bookmarks + {st.page})
  }

  /** Toggling twice restores the bookmarks. */
  lemma ToggleBookmarkTwice(st: ReaderState)
    ensures ToggleBookmark(ToggleBookmark(st)) == st
  {
  }

  /** The chapter list dialog is drawn only for a book with chapters. */
  predicate ChapterListShown(requested: bool, chapters: seq<string>)
    ensures ChapterListShown(requested, chapters) ==> requested
    ensures |chapters| == 0 ==> !ChapterListShown(requested, chapters)
  {
    requested && |chapters| > 0
  }

  /** Picking chapter `k` of `n`: `k * (total / max(n, 1))`, at most `total`,
      with Kotlin's truncating division. */
  function ChapterPage(k: int, n: int, total: int): (page: int)
    ensures page <= total
  {
    var perChapter := TruncDiv(total, if n < 1 then 1 else n);
    var p := k * perChapter;
    if p > total then total else p
  }

  /** Picking a chapter from the list. */
  function JumpToChapter(st: ReaderState, k: int, n: int, total: int): (next: ReaderState)
    ensures next.page <= total
    ensures next.bookmarks == st.bookmarks
  {
    st.(page := ChapterPage(k, n, total))
  }

  /** Chapter 1 lands on page `total / n`, not on page 1. */
  lemma FirstChapterPage(n: int, total: int)
    requires n >= 1 && total >= 0
    ensures ChapterPage(1, n, total) == total / n
  {
  }

  /** A book with fewer pages than chapters sends every chapter to page 0,
      outside the book. */
  lemma FewPagesJumpToZero(k: int, n: int, total: int)
    requires 0 <= total < n
    ensures ChapterPage(k, n, total) == 0
    ensures !OnAPage(JumpToChapter(Opened, k, n, total), total)
  {
    assert TruncDiv(total, n) == 0;
    assert k * TruncDiv(total, n) == 0;
  }

  /** With at least as many pages as chapters every listed chapter lands in
      the book, and later chapters land no earlier. */
  lemma ChapterPagesInBook(k: int, j: int, n: int, total: int)
    requires 1 <= k <= j <= n <= total
    ensures 1 <= ChapterPage(k, n, total) <= ChapterPage(j, n, total) <= total
  {
    var q := total / n;
    assert q >= 1 by {
      assert total >= n;
    }
    assert k * q <= j * q;
    assert n * q <= total;
    assert j * q <= n * q;
  }

  // ---------------------------------------------------------------------
  // Page content
  // ---------------------------------------------------------------------

  datatype Kanda = Bala | Ayodhya | Aranya

  /** Which sample text a page shows, with the number printed in its
      heading. */
  datatype Content =
    | GitaFirstPage
    | GitaSecondPage
    | GitaLaterPage
    | RamayanaPage(kanda: Kanda)
    | ScripturePage(title: string, page: int)
    | MeditationChapter(chapter: int)
    | PhilosophyChapter(chapter: int)
    | MantraCollection(collection: int)
    | StoryNumber(story: int)
    | SpiritualChapter(title: string, chapter: int)

  /** The chapter heading of ten-page content: `(page + 9) / 10`. */
  function TenPageChapter(page: int): int { TruncDiv(page + 9, 10) }

  /** The chapter heading of five-page content: `(page + 4) / 5`. */
  function FivePageChapter(page: int): int { TruncDiv(page + 4, 5) }

  /** Chapter `c` of ten-page content covers pages `10c - 9` to `10c`. */
  lemma TenPageChapterCovers(page: int)
    requires page >= 1
    ensures var c := TenPageChapter(page); c >= 1 && 10 * c - 9 <= page <= 10 * c
  {
  }

  /** Chapter `c` of five-page content covers pages `5c - 4` to `5c`. */
  lemma FivePageChapterCovers(page: int)
    requires page >= 1
    ensures var c := FivePageChapter(page); c >= 1 && 5 * c - 4 <= page <= 5 * c
  {
  }

  /** `getRamayanaContent`'s kanda heading. */
  function KandaOf(page: int): (k: Kanda)
    ensures k == Bala <==> page <= 20
    ensures k == Ayodhya <==> 20 < page <= 40
    ensures k == Aranya <==> page > 40
  {
    if page <= 20 then Bala else if page <= 40 then Ayodhya else Aranya
  }

  function KandaIndex(k: Kanda): int
  {
    match k
    case Bala => 0
    case Ayodhya => 1
    case Aranya => 2
  }

  /** Reading on never goes back to an earlier kanda. */
  lemma KandaMonotone(p: int, q: int)
    requires p <= q
    ensures KandaIndex(KandaOf(p)) <= KandaIndex(KandaOf(q))
  {
  }

  /** `getBhagavadGitaContent`: pages 1 and 2 have their own text, every
      other page shares one. */
  function GitaContent(page: int): (c: Content)
    ensures c == GitaFirstPage <==> page == 1
    ensures c == GitaSecondPage <==> page == 2
    ensures c == GitaLaterPage <==> page != 1 && page != 2
  {
    if page == 1 then GitaFirstPage else if page == 2 then GitaSecondPage else GitaLaterPage
  }

  /** `getSampleBookContent`: dispatch on the category; within "Scriptures"
      the Bhagavad Gita test comes before the Ramayana test. */
  function SampleContent(b: Book, page: int): (c: Content)
    ensures b.category == "Scriptures" && Contains(b.title, "Bhagavad Gita") ==>
      c == GitaContent(page)
    ensures (b.category == "Scriptures" && !Contains(b.title, "Bhagavad Gita")
             && Contains(b.title, "Ramayana")) ==> c == RamayanaPage(KandaOf(page))
    ensures c.ScripturePage? <==> (b.category == "Scriptures"
      && !Contains(b.title, "Bhagavad Gita") && !Contains(b.title, "Ramayana"))
    ensures c.MeditationChapter? <==> b.category == "Practice"
    ensures c.PhilosophyChapter? <==> b.category == "Philosophy"
    ensures c.MantraCollection? <==> b.category == "Mantras"
    ensures c.StoryNumber? <==> b.category == "Stories"
    ensures c.SpiritualChapter? <==>
      b.category !in {"Scriptures", "Practice", "Philosophy", "Mantras", "Stories"}
  {
    match b.category
    case "Scriptures" =>
      if Contains(b.title, "Bhagavad Gita") then GitaContent(page)
      else if Contains(b.title, "Ramayana") then RamayanaPage(KandaOf(page))
      else ScripturePage(b.title, page)
    case "Practice" => MeditationChapter(TenPageChapter(page))
    case "Philosophy" => PhilosophyChapter(FivePageChapter(page))
    case "Mantras" => MantraCollection(TenPageChapter(page))
    case "Stories" => StoryNumber(page)
    case _ => SpiritualChapter(b.title, TenPageChapter(page))
  }

  /** The chapter numbers printed in the generated texts: ten pages per
      chapter for meditation, mantra and generic content, five for
      philosophy. */
  lemma ChapterNumbersInContent(b: Book, page: int)
    requires page >= 1
    ensures SampleContent(b, page).MeditationChapter? ==>
      SampleContent(b, page).chapter == TenPageChapter(page)
    ensures SampleContent(b, page).MantraCollection? ==>
      SampleContent(b, page).collection == TenPageChapter(page)
    ensures SampleContent(b, page).SpiritualChapter? ==>
      SampleContent(b, page).chapter == TenPageChapter(page)
    ensures SampleContent(b, page).PhilosophyChapter? ==>
      SampleContent(b, page).chapter == FivePageChapter(page)
  {
  }

  /** The shipped Bhagavad Gita opens on the Gita's first page. */
  lemma ShippedGitaContent()
    ensures SampleContent(B001, 1) == GitaFirstPage
  {
    assert OccursAt(B001.title, "Bhagavad Gita", 0);
    ContainsIffOccurs(B001.title, "Bhagavad Gita");
  }

  /** The shipped Ramayana is not taken for the Gita, and page 25 is in the
      Ayodhya kanda. */
  lemma ShippedRamayanaContent()
    ensures SampleContent(B002, 25) == RamayanaPage(Ayodhya)
  {
    RamayanaTitleIsNotGita();
    RamayanaTitleIsRamayana();
  }

  lemma RamayanaTitleIsNotGita()
    ensures !Contains(B002.title, "Bhagavad Gita")
  {
    assert 'B' !in B002.title;
    ContainsFirstChar(B002.title, "Bhagavad Gita");
  }

  lemma RamayanaTitleIsRamayana()
    ensures Contains(B002.title, "Ramayana")
  {
    assert OccursAt(B002.title, "Ramayana", 0);
    ContainsIffOccurs(B002.title, "Ramayana");
  }
}
