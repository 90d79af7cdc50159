/** The Notes page: study notes filtered by subject key and by a search over
    title, author and university. */
module NotesPage {
  import opened Text
  import opened Catalog

  /** One entry of the page's mock list; the rating is kept in tenths. */
  datatype Note = Note(id: nat, title: string, subject: string, author: string,
                       university: string, pages: nat, ratingTenths: nat,
                       downloads: nat, level: string, year: string, preview: bool)

  /** The subject bar, "all" first. */
  const SubjectTabs: seq<Tab> := [
    Tab("all", "All Subjects"),
    Tab("mathematics", "Mathematics"),
    Tab("physics", "Physics"),
    Tab("chemistry", "Chemistry"),
    Tab("computer-science", "Computer Science"),
    Tab("engineering", "Engineering"),
    Tab("business", "Business")
  ]

  const MockNotes: seq<Note> := [
    Note(1, "Calculus Complete Notes", "mathematics", "Prof. Anderson", "MIT", 145, 49, 2300, "Advanced", "2023", true),
    Note(2, "Quantum Physics Fundamentals", "physics", "Dr. Sarah Chen", "Stanford", 89, 47, 1800, "Intermediate", "2023", true),
    Note(3, "Organic Chemistry Reactions", "chemistry", "Prof. Williams", "Harvard", 234, 48, 2100, "Advanced", "2023", true),
    Note(4, "Data Structures & Algorithms", "computer-science", "Prof. Kumar", "IIT Delhi", 187, 49, 3200, "Intermediate", "2023", true),
    Note(5, "Thermodynamics Notes", "engineering", "Dr. Johnson", "UC Berkeley", 156, 46, 1500, "Intermediate", "2023", true),
    Note(6, "Financial Management", "business", "Prof. Martinez", "Wharton", 123, 45, 980, "Beginner", "2023", true)
  ]

  function NoteSubject(n: Note): string { n.subject }

  /** The fields the search box looks at: title, author and university. */
  function NoteFields(n: Note): seq<string> { [n.title, n.author, n.university] }

  /** The text test of this page. */
  predicate TextMatches(n: Note, query: string)
  {
    || Includes(Lower(n.title), Lower(query))
    || Includes(Lower(n.author), Lower(query))
    || Includes(Lower(n.university), Lower(query))
  }

  /** The generic text test over this page's field list is the test on
      title, author or university. */
  lemma NoteSearchIsThreeFields(n: Note, query: string)
    ensures SearchMatches(query, NoteFields(n)) <==> TextMatches(n, query)
  {
    assert NoteFields(n)[0] == n.title && NoteFields(n)[1] == n.author && NoteFields(n)[2] == n.university;
  }

  /** `filteredNotes`: subject test on the stored key, text test on the
      lower-cased title, author or university. */
  function FilteredNotes(notes: seq<Note>, query: string, selected: string): (r: seq<Note>)
    ensures |r| <= |notes|
    ensures forall i :: 0 <= i < |r| ==>
      (selected == All || r[i].subject == selected) && TextMatches(r[i], query)
    ensures forall i :: 0 <= i < |notes| ==>
      ((selected == All || notes[i].subject == selected) && TextMatches(notes[i], query))
      ==> notes[i] in r
  {
    var r := FilterCatalog(notes, query, selected, NoteSubject, NoteFields);
    assert forall n :: (SearchMatches(query, NoteFields(n)) <==> TextMatches(n, query)) by {
      forall n ensures SearchMatches(query, NoteFields(n)) <==> TextMatches(n, query) {
        NoteSearchIsThreeFields(n, query);
      }
    }
    r
  }

  /** The listed notes keep their input order, and each matching note is
      listed exactly as often as it occurs in the input. */
  lemma NotesKeepOrder(notes: seq<Note>, query: string, selected: string)
    ensures IsSubsequence(FilteredNotes(notes, query, selected), notes)
    ensures forall n :: multiset(FilteredNotes(notes, query, selected))[n]
              == if (selected == All || n.subject == selected) && TextMatches(n, query)
                 then multiset(notes)[n] else 0
  {
    FilterExact(notes, query, selected, NoteSubject, NoteFields);
    forall n { NoteSearchIsThreeFields(n, query); }
  }

  /** Only title, author and university are searched: a note none of whose
      three fields holds the query is left out, whatever its subject, level
      or year say. */
  lemma OtherFieldsNotSearched(notes: seq<Note>, query: string, selected: string, n: Note)
    requires !TextMatches(n, query)
    ensures n !in FilteredNotes(notes, query, selected)
    ensures forall s, l, y :: n.(subject := s, level := l, year := y) !in FilteredNotes(notes, query, selected)
  {
    forall s, l, y
      ensures n.(subject := s, level := l, year := y) !in FilteredNotes(notes, query, selected)
    {
      var m := n.(subject := s, level := l, year := y);
      assert !TextMatches(m, query);
    }
  }

  /** Narrowing: if the old query, lower-cased, is a piece of the new one,
      the new list is a subsequence of the old one, for the same subject. */
  lemma NotesNarrow(notes: seq<Note>, query: string, longer: string, selected: string)
    requires Includes(Lower(longer), Lower(query))
    ensures IsSubsequence(FilteredNotes(notes, longer, selected), FilteredNotes(notes, query, selected))
    ensures forall i :: 0 <= i < |FilteredNotes(notes, longer, selected)| ==>
      FilteredNotes(notes, longer, selected)[i] in FilteredNotes(notes, query, selected)
  {
    QueryNarrows(notes, query, longer, selected, NoteSubject, NoteFields);
    var r := FilteredNotes(notes, longer, selected);
    assert FilterCatalog(FilteredNotes(notes, query, selected), longer, selected, NoteSubject, NoteFields) == r;
  }

  /** For any query, the list for one subject is the list for "all" with the
      other subjects removed. */
  lemma SubjectWithinAll(notes: seq<Note>, query: string, selected: string)
    ensures IsSubsequence(FilteredNotes(notes, query, selected), FilteredNotes(notes, query, All))
    ensures forall i :: 0 <= i < |FilteredNotes(notes, query, selected)| ==>
      FilteredNotes(notes, query, selected)[i] in FilteredNotes(notes, query, All)
  {
    SelectionWithinAll(notes, query, selected, NoteSubject, NoteFields);
  }

  /** The class of the default branch. */
  const MutedLevel: string := "bg-muted text-muted-foreground"

  predicate KnownLevel(level: string)
  {
    level == "Beginner" || level == "Intermediate" || level == "Advanced"
  }

  /** `getLevelColor`: green, yellow and red for the three levels, the
      muted class for anything else. */
  function LevelColor(level: string): (c: string)
    ensures c == MutedLevel <==> !KnownLevel(level)
  {
    match level
    case "Beginner" => "bg-green-100 text-green-800"
    case "Intermediate" => "bg-yellow-100 text-yellow-800"
    case "Advanced" => "bg-red-100 text-red-800"
    case _ => MutedLevel
  }

  /** Different levels get different classes. */
  lemma LevelColorsDistinct(a: string, b: string)
    requires KnownLevel(a) && KnownLevel(b) && a != b
    ensures LevelColor(a) != LevelColor(b)
  {
  }

  /** What a card of the grid shows that depends on the note. */
  datatype NoteCard = NoteCard(id: nat, levelClass: string, previewButton: bool)

  /** The grid: one card per derived note, in order, with the eye button
      exactly when the note has a preview. */
  function NotesGrid(filtered: seq<Note>): (cards: seq<NoteCard>)
    ensures |cards| == |filtered|
    ensures forall i :: 0 <= i < |cards| ==>
      cards[i].id == filtered[i].id && (cards[i].previewButton <==> filtered[i].preview)
      && cards[i].levelClass == LevelColor(filtered[i].level)
  {
    seq(|filtered|, i requires 0 <= i < |filtered| =>
      NoteCard(filtered[i].id, LevelColor(filtered[i].level), filtered[i].preview))
  }

  /** "Found N notes" counts the cards of the grid, "Load More" appears
      exactly when there is one, and the page has no no-results block. */
  lemma NotesResultsView(notes: seq<Note>, query: string, selected: string)
    ensures var filtered := FilteredNotes(notes, query, selected);
            var v := Results(filtered, false);
            v.count == |NotesGrid(filtered)| && (v.loadMore <==> v.count > 0) && !v.noResults
  {
  }

  /** The bar's keys are distinct and start with the sentinel. */
  lemma SubjectTabsWellFormed()
    ensures DistinctIds(SubjectTabs) && SubjectTabs[0].id == All
  {
  }

  /** The page's two pieces of state, at their initial values. */
  method NewNotesPage() returns (bar: FilterBar)
    ensures fresh(bar) && bar.Valid()
    ensures bar.tabs == SubjectTabs && bar.selected == All && bar.query == ""
  {
    SubjectTabsWellFormed();
    bar := new FilterBar(SubjectTabs);
  }
}
