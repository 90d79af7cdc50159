/** The Exam Papers page: past papers filtered by exam key and by a search
    over title and subject. */
module ExamPapersPage {
  import opened Text
  import opened Catalog

  /** One entry of the page's mock list; the rating is kept in tenths. */
  datatype Paper = Paper(id: nat, title: string, exam: string, subject: string,
                         year: string, session: string, difficulty: string,
                         questions: nat, duration: string, ratingTenths: nat,
                         downloads: nat, solutions: bool)

  /** The exam bar, "all" first. */
  const ExamTabs: seq<Tab> := [
    Tab("all", "All Exams"),
    Tab("jee", "JEE Main/Advanced"),
    Tab("neet", "NEET"),
    Tab("cat", "CAT"),
    Tab("gate", "GATE"),
    Tab("cbse", "CBSE Board"),
    Tab("icse", "ICSE Board"),
    Tab("university", "University Exams")
  ]

  const MockPapers: seq<Paper> := [
    Paper(1, "JEE Main 2023 Physics Paper", "jee", "Physics", "2023", "January Session", "Hard", 30, "3 hours", 48, 5200, true),
    Paper(2, "NEET 2023 Biology Paper", "neet", "Biology", "2023", "Main Exam", "Medium", 50, "3 hours", 47, 4800, true),
    Paper(3, "CAT 2022 Quantitative Aptitude", "cat", "Quantitative Aptitude", "2022", "Slot 1", "Hard", 22, "2 hours", 49, 3200, true),
    Paper(4, "GATE CSE 2023 Paper", "gate", "Computer Science", "2023", "Morning Shift", "Hard", 65, "3 hours", 46, 2800, true),
    Paper(5, "CBSE Class 12 Mathematics 2023", "cbse", "Mathematics", "2023", "Board Exam", "Medium", 38, "3 hours", 48, 6500, true),
    Paper(6, "ICSE Class 10 Science 2023", "icse", "Science", "2023", "Board Exam", "Medium", 45, "2.5 hours", 45, 4200, true)
  ]

  function PaperExam(p: Paper): string { p.exam }

  /** The fields the search box looks at: title and subject name. */
  function PaperFields(p: Paper): seq<string> { [p.title, p.subject] }

  /** The text test of this page. */
  predicate TitleOrSubjectMatches(p: Paper, query: string)
  {
    Includes(Lower(p.title), Lower(query)) || Includes(Lower(p.subject), Lower(query))
  }

  /** The generic text test over this page's field list is the title-or-subject
      test. */
  lemma PaperSearchIsTitleOrSubject(p: Paper, query: string)
    ensures SearchMatches(query, PaperFields(p)) <==> TitleOrSubjectMatches(p, query)
  {
    assert PaperFields(p)[0] == p.title && PaperFields(p)[1] == p.subject;
  }

  /** `filteredPapers`: the category test is on the exam key, the text test
      on the lower-cased title or subject name. */
  function FilteredPapers(papers: seq<Paper>, query: string, selected: string): (r: seq<Paper>)
    ensures |r| <= |papers|
    ensures forall i :: 0 <= i < |r| ==>
      (selected == All || r[i].exam == selected) && TitleOrSubjectMatches(r[i], query)
    ensures forall i :: 0 <= i < |papers| ==>
      ((selected == All || papers[i].exam == selected) && TitleOrSubjectMatches(papers[i], query))
      ==> papers[i] in r
  {
    var r := FilterCatalog(papers, query, selected, PaperExam, PaperFields);
    assert forall p :: (SearchMatches(query, PaperFields(p)) <==> TitleOrSubjectMatches(p, query)) by {
      forall p ensures SearchMatches(query, PaperFields(p)) <==> TitleOrSubjectMatches(p, query) {
        PaperSearchIsTitleOrSubject(p, query);
      }
    }
    r
  }

  /** The listed papers keep their input order, and each matching paper is
      listed exactly as often as it occurs in the input. */
  lemma PapersKeepOrder(papers: seq<Paper>, query: string, selected: string)
    ensures IsSubsequence(FilteredPapers(papers, query, selected), papers)
    ensures forall p :: multiset(FilteredPapers(papers, query, selected))[p]
              == if (selected == All || p.exam == selected) && TitleOrSubjectMatches(p, query)
                 then multiset(papers)[p] else 0
  {
    FilterExact(papers, query, selected, PaperExam, PaperFields);
    forall p { PaperSearchIsTitleOrSubject(p, query); }
  }

  /** With the empty query and "all", all six mock papers are listed in
      declaration order. */
  lemma InitialViewShowsAll()
    ensures FilteredPapers(MockPapers, "", All) == MockPapers
    ensures |FilteredPapers(MockPapers, "", All)| == 6
  {
    EmptyQueryShowsAll(MockPapers, PaperExam, PaperFields);
  }

  /** Filtering is idempotent and never lengthens the list. */
  lemma PapersIdempotent(papers: seq<Paper>, query: string, selected: string)
    ensures var r := FilteredPapers(papers, query, selected);
            FilteredPapers(r, query, selected) == r && |r| <= |papers|
  {
    FilterIdempotent(papers, query, selected, PaperExam, PaperFields);
  }

  /** The search reaches the subject name: the GATE paper, whose title says
      only "CSE", is found by "computer" through its subject. */
  lemma SubjectNameSearched(papers: seq<Paper>, query: string)
    requires papers == MockPapers && query == "computer"
    ensures papers[3] in FilteredPapers(papers, query, All)
  {
    var s := papers[3].subject;
    assert Lower(s)[..8] == Lower(query);
    assert OccursAt(Lower(s), Lower(query), 0);
  }

  /** The class of the default branch. */
  const MutedDifficulty: string := "bg-muted text-muted-foreground"

  predicate KnownDifficulty(d: string)
  {
    d == "Easy" || d == "Medium" || d == "Hard"
  }

  /** `getDifficultyColor`: green, yellow and red for the three
      difficulties, the muted class for anything else. */
  function DifficultyColor(d: string): (c: string)
    ensures c == MutedDifficulty <==> !KnownDifficulty(d)
  {
    match d
    case "Easy" => "bg-green-100 text-green-800"
    case "Medium" => "bg-yellow-100 text-yellow-800"
    case "Hard" => "bg-red-100 text-red-800"
    case _ => MutedDifficulty
  }

  /** Different difficulties get different classes. */
  lemma DifficultyColorsDistinct(a: string, b: string)
    requires KnownDifficulty(a) && KnownDifficulty(b) && a != b
    ensures DifficultyColor(a) != DifficultyColor(b)
  {
  }

  /** What a card of the grid shows that depends on the paper. */
  datatype PaperCard = PaperCard(id: nat, difficultyClass: string,
                                 solutionsBadge: bool, solutionsButton: bool)

  /** The grid: one card per derived paper, in order. */
  function PapersGrid(filtered: seq<Paper>): (cards: seq<PaperCard>)
    ensures |cards| == |filtered|
    ensures forall i :: 0 <= i < |cards| ==>
      cards[i].id == filtered[i].id && cards[i].difficultyClass == DifficultyColor(filtered[i].difficulty)
      && (cards[i].solutionsBadge <==> filtered[i].solutions)
      && (cards[i].solutionsButton <==> filtered[i].solutions)
  {
    seq(|filtered|, i requires 0 <= i < |filtered| =>
      PaperCard(filtered[i].id, DifficultyColor(filtered[i].difficulty),
                filtered[i].solutions, filtered[i].solutions))
  }

  /** The "Solutions Available" badge and the "View Solutions" button always
      come together. */
  lemma SolutionsShownTogether(filtered: seq<Paper>)
    ensures forall c :: c in PapersGrid(filtered) ==> c.solutionsBadge == c.solutionsButton
  {
  }

  /** "Found N exam papers" counts the cards of the grid, "Load More"
      appears exactly when there is one, and the page has no no-results
      block. */
  lemma PapersResultsView(papers: seq<Paper>, query: string, selected: string)
    ensures var filtered := FilteredPapers(papers, query, selected);
            var v := Results(filtered, false);
            v.count == |PapersGrid(filtered)| && (v.loadMore <==> v.count > 0) && !v.noResults
  {
  }

  /** The bar's keys are distinct and start with the sentinel. */
  lemma ExamTabsWellFormed()
    ensures DistinctIds(ExamTabs) && ExamTabs[0].id == All
  {
  }

  /** The page's two pieces of state, at their initial values. */
  method NewExamPapersPage() returns (bar: FilterBar)
    ensures fresh(bar) && bar.Valid()
    ensures bar.tabs == ExamTabs && bar.selected == All && bar.query == ""
  {
    ExamTabsWellFormed();
    bar := new FilterBar(ExamTabs);
  }
}
