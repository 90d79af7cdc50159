/** The Categories page: a book catalog filtered by category key and by a
    search over title and author. */
module CategoriesPage {
  import opened Text
  import opened Catalog
  import ResourceTypes

  /** One entry of the page's mock list; the rating is kept in tenths. */
  datatype Book = Book(id: nat, title: string, author: string, category: string,
                       kind: string, ratingTenths: nat, downloads: nat,
                       preview: bool, price: string)

  /** The category bar, "all" first. */
  const CategoryTabs: seq<Tab> := [
    Tab("all", "All Categories"),
    Tab("engineering", "Engineering"),
    Tab("medical", "Medical"),
    Tab("computer-science", "Computer Science"),
    Tab("business", "Business Studies"),
    Tab("competitive", "Competitive Exams"),
    Tab("school", "School Education")
  ]

  const MockBooks: seq<Book> := [
    Book(1, "Data Structures and Algorithms", "Thomas H. Cormen", "computer-science", "book", 48, 1200, true, "Free"),
    Book(2, "Engineering Mathematics Notes", "Prof. Smith", "engineering", "notes", 46, 890, true, "Free"),
    Book(3, "JEE Main Physics Paper 2023", "NTA Board", "competitive", "exam-paper", 49, 2100, true, "Free"),
    Book(4, "Human Anatomy Textbook", "Dr. Johnson", "medical", "book", 47, 1500, true, "Free"),
    Book(5, "Financial Management Notes", "Prof. Williams", "business", "notes", 45, 650, true, "Free"),
    Book(6, "Class 12 Chemistry Board Papers", "CBSE Board", "school", "exam-paper", 48, 3200, true, "Free")
  ]

  function BookCategory(b: Book): string { b.category }

  /** The fields the search box looks at: title and author. */
  function BookFields(b: Book): seq<string> { [b.title, b.author] }

  /** The text test of this page: the lower-cased query occurs in the
      lower-cased title or the lower-cased author. */
  predicate TitleOrAuthorMatches(b: Book, query: string)
  {
    Includes(Lower(b.title), Lower(query)) || Includes(Lower(b.author), Lower(query))
  }

  /** The generic text test over this page's field list is the title-or-author
      test. */
  lemma BookSearchIsTitleOrAuthor(b: Book, query: string)
    ensures SearchMatches(query, BookFields(b)) <==> TitleOrAuthorMatches(b, query)
  {
    assert BookFields(b)[0] == b.title && BookFields(b)[1] == b.author;
  }

  /** `filteredBooks`: category test on the stored key, text test on the
      lower-cased title or author. */
  function FilteredBooks(books: seq<Book>, query: string, selected: string): (r: seq<Book>)
    ensures |r| <= |books|
    ensures forall i :: 0 <= i < |r| ==>
      (selected == All || r[i].category == selected) && TitleOrAuthorMatches(r[i], query)
    ensures forall i :: 0 <= i < |books| ==>
      ((selected == All || books[i].category == selected) && TitleOrAuthorMatches(books[i], query))
      ==> books[i] in r
  {
    var r := FilterCatalog(books, query, selected, BookCategory, BookFields);
    assert forall b :: (SearchMatches(query, BookFields(b)) <==> TitleOrAuthorMatches(b, query)) by {
      forall b ensures SearchMatches(query, BookFields(b)) <==> TitleOrAuthorMatches(b, query) {
        BookSearchIsTitleOrAuthor(b, query);
      }
    }
    r
  }

  /** The listed books keep their input order, and each matching book is
      listed exactly as often as it occurs in the input. */
  lemma BooksKeepOrder(books: seq<Book>, query: string, selected: string)
    ensures IsSubsequence(FilteredBooks(books, query, selected), books)
    ensures forall b :: multiset(FilteredBooks(books, query, selected))[b]
              == if (selected == All || b.category == selected) && TitleOrAuthorMatches(b, query)
                 then multiset(books)[b] else 0
  {
    FilterExact(books, query, selected, BookCategory, BookFields);
    forall b { BookSearchIsTitleOrAuthor(b, query); }
  }

  /** The bar's keys are distinct and start with the sentinel. */
  lemma CategoryTabsWellFormed()
    ensures DistinctIds(CategoryTabs) && CategoryTabs[0].id == All
  {
  }

  /** The page's two pieces of state, at their initial values. */
  method NewCategoriesPage() returns (bar: FilterBar)
    ensures fresh(bar) && bar.Valid()
    ensures bar.tabs == CategoryTabs && bar.selected == All && bar.query == ""
  {
    CategoryTabsWellFormed();
    bar := new FilterBar(CategoryTabs);
  }

  /** On first render the page lists all six books in declaration order,
      reports six, and shows "Load More" but not the no-results block. */
  lemma InitialViewShowsAll()
    ensures FilteredBooks(MockBooks, "", All) == MockBooks
    ensures Results(FilteredBooks(MockBooks, "", All), true) == ResultsView(6, true, false)
  {
    EmptyQueryShowsAll(MockBooks, BookCategory, BookFields);
  }

  /** Exactly one of the two trailing blocks is rendered, whatever the
      query and the selection. */
  lemma ExactlyOneTrailingBlock(books: seq<Book>, query: string, selected: string)
    ensures var v := Results(FilteredBooks(books, query, selected), true);
            v.count == |FilteredBooks(books, query, selected)| && v.loadMore != v.noResults
  {
  }

  /** A query that occurs in no title or author empties the list and
      selects the no-results block. */
  lemma NoMatchShowsNoResults(books: seq<Book>, query: string, selected: string)
    requires forall i :: 0 <= i < |books| ==> !TitleOrAuthorMatches(books[i], query)
    ensures FilteredBooks(books, query, selected) == []
    ensures Results(FilteredBooks(books, query, selected), true) == ResultsView(0, false, true)
  {
    forall i | 0 <= i < |books|
      ensures !Matches(books[i], query, selected, BookCategory, BookFields)
    {
      BookSearchIsTitleOrAuthor(books[i], query);
    }
    NoMatchIsEmpty(books, query, selected, BookCategory, BookFields);
  }

  /** The category test compares with the stored key, not the display name:
      selecting "Engineering" matches no book, whatever the query. */
  lemma DisplayNameMatchesNothing(query: string)
    ensures FilteredBooks(MockBooks, query, "Engineering") == []
  {
  }
}
