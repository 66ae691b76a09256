/** The Books screen's derivations of the catalog: the searched and
    category-filtered list, the three category strips, the "Highly Rated"
    and recency sorts, and the difficulty label on practice cards. */
module BooksScreen {
  import opened KotlinText
  import opened Lists
  import opened SpiritualRepository

  /** The category chips of the screen. */
  const Categories: seq<string> := ["All", "Scriptures", "Philosophy", "Practice", "Mantras", "Stories"]

  /** A book is shown for `query` and the chip `selected`: a blank query
      shows every book, otherwise the book must match the search; "All"
      shows every category, otherwise the category must be equal exactly. */
  predicate Shown(b: Book, query: string, selected: string)
  {
    (IsBlank(query) || BookMatches(b, query)) && (selected == "All" || b.category == selected)
  }

  /** `filteredBooks`: a blank query means the whole catalog, otherwise
      `searchBooks`; then the exact category filter unless "All". */
  function FilteredBooks(c: Catalog, query: string, selected: string): (r: seq<Book>)
    ensures IsSubseq(r, c.books)
    ensures !IsBlank(query) ==> IsSubseq(r, SearchBooks(c, query))
    ensures forall b :: b in r <==> b in c.books && Shown(b, query, selected)
  {
    var searched := if IsBlank(query) then c.books else SearchBooks(c, query);
    var r := if selected == "All" then searched else Filter(searched, (b: Book) => b.category == selected);
    SubseqRefl(searched);
    SubseqRefl(c.books);
    SubseqTrans(r, searched, c.books);
    forall b ensures b in r <==> b in c.books && Shown(b, query, selected) {
      if selected != "All" {
        FilterMembership(searched, (b: Book) => b.category == selected, b);
      }
    }
    r
  }

  /** Nothing typed and "All" selected: the whole catalog, in order. */
  lemma BlankQueryAllShowsCatalog(c: Catalog, query: string)
    requires IsBlank(query)
    ensures FilteredBooks(c, query, "All") == c.books
  {
  }

  /** A category chip shows only books of exactly that category; with a
      blank query it shows the same list as that category's strip. */
  lemma CategoryChipIsExact(c: Catalog, query: string, selected: string)
    requires selected != "All"
    ensures forall b :: b in FilteredBooks(c, query, selected) ==> b.category == selected
    ensures IsBlank(query) ==> FilteredBooks(c, query, selected) == BooksByCategory(c, selected)
  {
  }

  /** The three category strips. */
  function ScriptureBooks(c: Catalog): (r: seq<Book>)
    ensures forall b :: b in r <==> b in c.books && b.category == "Scriptures"
  {
    BooksByCategory(c, "Scriptures")
  }

  function PhilosophyBooks(c: Catalog): (r: seq<Book>)
    ensures forall b :: b in r <==> b in c.books && b.category == "Philosophy"
  {
    BooksByCategory(c, "Philosophy")
  }

  function PracticeBooks(c: Catalog): (r: seq<Book>)
    ensures forall b :: b in r <==> b in c.books && b.category == "Practice"
  {
    BooksByCategory(c, "Practice")
  }

  function PublishYear(b: Book): int { b.publishYear }

  /** `popularBooks`: every book, best rated first, ties in catalog order. */
  function PopularBooksShelf(c: Catalog): (r: seq<Book>)
    ensures SortedDesc(r, BookRating)
    ensures multiset(r) == multiset(c.books)
    ensures forall k :: WithKey(r, BookRating, k) == WithKey(c.books, BookRating, k)
  {
    var r := SortDesc(c.books, BookRating);
    forall k ensures WithKey(r, BookRating, k) == WithKey(c.books, BookRating, k) {
      SortDescStable(c.books, BookRating, k);
    }
    r
  }

  /** The "Highly Rated" strip: the first five of `popularBooks`. */
  function HighlyRatedStrip(c: Catalog): (r: seq<Book>)
    ensures |r| == Min(5, |c.books|)
    ensures IsTopK(r, c.books, BookRating, 5)
  {
    TopByKey(c.books, BookRating, 5)
  }

  /** `recentBooks`: every book, newest publication year first. */
  function RecentBooksShelf(c: Catalog): (r: seq<Book>)
    ensures SortedDesc(r, PublishYear)
    ensures multiset(r) == multiset(c.books)
    ensures forall k :: WithKey(r, PublishYear, k) == WithKey(c.books, PublishYear, k)
  {
    var r := SortDesc(c.books, PublishYear);
    forall k ensures WithKey(r, PublishYear, k) == WithKey(c.books, PublishYear, k) {
      SortDescStable(c.books, PublishYear, k);
    }
    r
  }

  /** When the catalog is already in year order the screen's recency sort is
      the catalog order, i.e. the repository's prefix. */
  lemma RecentShelfOfYearOrderedCatalog(c: Catalog)
    requires SortedDesc(c.books, PublishYear)
    ensures RecentBooksShelf(c) == RecentBooks(c, |c.books|)
  {
    SortDescOfSorted(c.books, PublishYear);
  }

  /** On the shipped books the two notions of "recent" disagree: the screen
      sorts by year, while the repository's recent list is the catalog
      prefix, in which "b002" (2023) comes before "b003" (2024). */
  lemma ShippedRecentDisagrees(c: Catalog)
    requires c.books == ShippedBooks
    ensures RecentBooksShelf(c) != RecentBooks(c, 6)
  {
    var recent := RecentBooks(c, 6);
    assert recent[1] == B002 && recent[2] == B003;
    assert PublishYear(recent[1]) < PublishYear(recent[2]);
  }

  /** The practice card's difficulty label. */
  function DifficultyLabel(title: string): (text: string)
    ensures text == "Beginner" <==> Contains(title, "Beginners")
    ensures text == "Intermediate" <==> !Contains(title, "Beginners")
  {
    if Contains(title, "Beginners") then "Beginner" else "Intermediate"
  }

  /** The shipped "Meditation for Beginners" is labelled "Beginner". */
  lemma ShippedBeginnerLabel()
    ensures DifficultyLabel(B003.title) == "Beginner"
  {
    assert OccursAt(B003.title, "Beginners", 15);
    ContainsIffOccurs(B003.title, "Beginners");
  }

  /** The test is case-sensitive: the same title in lower case is labelled
      "Intermediate". */
  lemma LowerCaseTitleIsIntermediate()
    ensures DifficultyLabel(Lower(B003.title)) == "Intermediate"
  {
    var t := Lower(B003.title);
    assert 'B' !in t;
    ContainsFirstChar(t, "Beginners");
  }
}
