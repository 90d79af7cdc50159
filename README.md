# CampusCraft store: a Dafny model of its page logic

CampusCraft is a React single-page site where students browse study
material. Nearly all of it is static markup. The logic it has is small:

- Three catalog pages (Categories, Notes, Exam Papers) each keep a selected
  category key and a search query. They derive the visible list with one
  `filter`: the item's key must equal the selection, unless the selection is
  `'all'`. In addition, the lower-cased query must occur in at least one
  lower-cased text field.
- Lookup tables map a resource type, a level, a difficulty or an upload
  status to an icon or a colour class, with a default branch.
- The Library page shows counts of three fixed lists and a fixed earnings
  total. Its search box stores a query, and the box shows it back, but
  nothing filters the saved list by it.
- The Contact page keeps a four-field form record. Each input's change event
  rewrites one field.
- The navigation bar keeps three flags: menu open, dark mode and scrolled.
  It also toggles a `dark` class on the document root.

The model follows that layout, one Dafny module per concern:

- `Text`: `toLowerCase` on ASCII letters, and `includes` as a substring test.
- `Catalog`: the generic `Array.filter` (`Keep`) and the generic catalog
  filter with its lemmas. It also holds the category bar, the results area,
  and the `FilterBar` class holding a page's two pieces of state.
- `CategoriesPage`, `NotesPage` and `ExamPapersPage`: each page's data, the
  fields it searches, its filter and its lookups.
- `ResourceTypes`: the type icon and badge lookups, which Categories and
  Library share, and the type label, which only Categories derives (Library
  shows the raw type).
- `LibraryPage`, `ContactPage` and `NavbarComponent`.

Pure expressions are functions with lemmas. State that event handlers
update is a class whose methods state the whole new state.

## Model

| member | source | states |
|---|---|---|
| `Text.Lower` | src/pages/Categories.tsx:99-100 | lower-casing keeps the length and maps each character through the ASCII case map; the result has no upper-case letter |
| `Text.LowerIdempotent` | src/pages/Categories.tsx:99-100 | lower-casing twice is lower-casing once |
| `Text.Includes` | src/pages/Categories.tsx:99-100 | `includes` holds exactly when the needle occurs at some position of the haystack |
| `Text.EmptyIncluded` | src/pages/Categories.tsx:99-100 | the empty query is found in every field |
| `Text.LowerKeepsIncludes` | src/pages/Notes.tsx:111-113 | a case-sensitive occurrence is also a case-insensitive one |
| `Text.IncludesTransitive` | src/pages/Notes.tsx:111-113 | a piece of a piece of a field is a piece of the field |
| `Catalog.Keep` | src/pages/Categories.tsx:97 | `filter` keeps only elements satisfying the callback, drops none that satisfy it, and never lengthens the list |
| `Catalog.KeepIsSubsequence` | src/pages/Categories.tsx:97 | the filtered list is a subsequence of the input, so input order is kept |
| `Catalog.KeepCounts` | src/pages/Categories.tsx:97 | every kept value appears as often as in the input, every dropped value not at all |
| `Catalog.KeepKeep` | src/pages/Categories.tsx:97-102 | filtering by one callback and then another equals filtering once by their conjunction |
| `Catalog.KeepNarrows` | src/pages/Notes.tsx:109-115 | with a stronger callback, refiltering the weaker result gives the stronger result, which is a subsequence of the weaker |
| `Catalog.FilterCatalog` | src/pages/Categories.tsx:97-102 | every listed item passes the key test and the text test, every input item passing both is listed, and the list is never longer than the input |
| `Catalog.FilterExact` | src/pages/Categories.tsx:97-102 | the derived list is a subsequence of the input and holds each matching value exactly as often as the input, and nothing else |
| `Catalog.FilterIdempotent` | src/pages/Categories.tsx:97-102 | filtering the derived list again with the same query and selection leaves it unchanged |
| `Catalog.FilterIsIntersection` | src/pages/Categories.tsx:98-101 | the combined filter equals the text filter after the key filter, and the key filter after the text filter |
| `Catalog.EmptyQueryShowsAll` | src/pages/Categories.tsx:98-100 | an empty query with `'all'` returns the input list itself |
| `Catalog.NoMatchIsEmpty` | src/pages/Categories.tsx:97-102 | when no item passes both tests the derived list is empty |
| `Catalog.EmptyQueryIsCategoryFilter` | src/pages/Categories.tsx:98-101 | with an empty query only the key test remains |
| `Catalog.AllIsSearchFilter` | src/pages/Categories.tsx:98 | the `'all'` selection bypasses the key test entirely |
| `Catalog.SelectionIsExactKey` | src/pages/Categories.tsx:98 | any other selection lists only items whose stored key equals it exactly, case included, and lists each such item that passes the text test |
| `Catalog.SelectionWithinAll` | src/pages/Notes.tsx:110 | the list for one key is the `'all'` list restricted to that key, hence a subsequence of it |
| `Catalog.QueryNarrows` | src/pages/Notes.tsx:111-113 | when the old lower-cased query occurs in the new one, the new list is the old list filtered again, hence a subsequence of it |
| `Catalog.TypingNarrows` | src/pages/Categories.tsx:144 | typing more characters after the query only narrows the list |
| `Catalog.TabVariant` | src/pages/Categories.tsx:160 | a tab gets the `default` variant exactly when its key is the selection |
| `Catalog.BarHighlightsOne` | src/pages/Categories.tsx:9-161 | a page's selection starts at `'all'` and only takes a tab's key, so its bar always highlights exactly one tab |
| `Catalog.ExactlyOneHighlighted` | src/pages/Categories.tsx:157-161 | with distinct keys and a selection taken from the bar, exactly one tab is highlighted |
| `Catalog.FilterBar.constructor` | src/pages/Categories.tsx:9-10 | the page starts with selection `'all'` and an empty query, a selection that is a key of the bar |
| `Catalog.FilterBar.SelectTab` | src/pages/Categories.tsx:161 | a tab click sets the selection to that tab's key, keeps the query, and keeps the selection among the bar's keys |
| `Catalog.FilterBar.SetQuery` | src/pages/Categories.tsx:144 | typing sets the query and keeps the selection |
| `Catalog.Results` | src/pages/Categories.tsx:172-236 | the count is the list length, "Load More" appears iff it is positive, the no-results block iff the page has one and the list is empty |
| `CategoriesPage.FilteredBooks` | src/pages/Categories.tsx:97-102 | the books listed are exactly those whose category is the selection (or `'all'`) and whose lower-cased title or author contains the lower-cased query |
| `CategoriesPage.BooksKeepOrder` | src/pages/Categories.tsx:97-102 | the listed books are a subsequence of the input, each matching book listed as often as it occurs and no other |
| `CategoriesPage.BookSearchIsTitleOrAuthor` | src/pages/Categories.tsx:99-100 | the page searches exactly title and author |
| `CategoriesPage.CategoryTabsWellFormed` | src/pages/Categories.tsx:12-20 | the seven category keys are distinct and the first is `'all'` |
| `CategoriesPage.NewCategoriesPage` | src/pages/Categories.tsx:9-20 | the page's state starts at `'all'` and `''` over its own category bar |
| `CategoriesPage.InitialViewShowsAll` | src/pages/Categories.tsx:22-102 | on first render all six books are listed in declaration order, the count reads 6, "Load More" shows and the no-results block does not |
| `CategoriesPage.ExactlyOneTrailingBlock` | src/pages/Categories.tsx:227-236 | exactly one of "Load More" and the no-results block is rendered |
| `CategoriesPage.NoMatchShowsNoResults` | src/pages/Categories.tsx:236 | a query found in no title or author empties the list and shows the no-results block |
| `CategoriesPage.DisplayNameMatchesNothing` | src/pages/Categories.tsx:98 | the key test compares stored keys, so the display name "Engineering" selects no book |
| `ResourceTypes.TypeIcon` | src/pages/Categories.tsx:104-111 | notes and exam papers get the document icon; books and every unknown type get the book icon |
| `ResourceTypes.TypeBadgeColor` | src/pages/Library.tsx:100-107 | the muted class is given exactly to types other than book, notes and exam-paper |
| `ResourceTypes.BadgeColorsDistinct` | src/pages/Categories.tsx:113-120 | the three known types get three different classes |
| `ResourceTypes.FirstIndex` | src/pages/Categories.tsx:190 | the first position holding the character, or the length when it is absent |
| `ResourceTypes.ReplaceFirst` | src/pages/Categories.tsx:190 | replacing with a one-character pattern rewrites only its first occurrence and leaves a string without it unchanged |
| `ResourceTypes.TypeLabel` | src/pages/Categories.tsx:190 | the label turns the first hyphen into a space, keeps everything else, and leaves hyphen-free types unchanged |
| `ResourceTypes.ExamPaperLabel` | src/pages/Categories.tsx:190 | `'exam-paper'` is shown as `'exam paper'` |
| `ResourceTypes.LaterHyphensKept` | src/pages/Categories.tsx:190 | hyphens after the first one stay in the label |
| `NotesPage.FilteredNotes` | src/pages/Notes.tsx:109-115 | the notes listed are exactly those whose subject is the selection (or `'all'`) and whose lower-cased title, author or university contains the lower-cased query |
| `NotesPage.NotesKeepOrder` | src/pages/Notes.tsx:109-115 | the listed notes are a subsequence of the input, each matching note listed as often as it occurs and no other |
| `NotesPage.NoteSearchIsThreeFields` | src/pages/Notes.tsx:111-113 | the page searches exactly title, author and university |
| `NotesPage.OtherFieldsNotSearched` | src/pages/Notes.tsx:111-113 | a note none of whose three searched fields holds the query is not listed, whatever its subject, level or year |
| `NotesPage.NotesNarrow` | src/pages/Notes.tsx:111-113 | a query containing the old one lists a subsequence of the old list, for the same subject |
| `NotesPage.SubjectWithinAll` | src/pages/Notes.tsx:110 | the list for one subject is a subsequence of the `'all'` list for the same query |
| `NotesPage.LevelColor` | src/pages/Notes.tsx:117-124 | the muted class is given exactly to levels other than Beginner, Intermediate and Advanced |
| `NotesPage.LevelColorsDistinct` | src/pages/Notes.tsx:117-124 | the three levels get three different classes |
| `NotesPage.NotesGrid` | src/pages/Notes.tsx:182-235 | one card per listed note, in order, with the note's level class and the eye button exactly when the note has a preview |
| `NotesPage.NotesResultsView` | src/pages/Notes.tsx:176-247 | the count equals the number of cards, "Load More" appears iff it is positive, and the page has no no-results block |
| `NotesPage.SubjectTabsWellFormed` | src/pages/Notes.tsx:12-20 | the seven subject keys are distinct and the first is `'all'` |
| `NotesPage.NewNotesPage` | src/pages/Notes.tsx:9-20 | the page's state starts at `'all'` and `''` over its own subject bar |
| `ExamPapersPage.FilteredPapers` | src/pages/ExamPapers.tsx:116-121 | the papers listed are exactly those whose exam key is the selection (or `'all'`) and whose lower-cased title or subject name contains the lower-cased query |
| `ExamPapersPage.PapersKeepOrder` | src/pages/ExamPapers.tsx:116-121 | the listed papers are a subsequence of the input, each matching paper listed as often as it occurs and no other |
| `ExamPapersPage.PaperSearchIsTitleOrSubject` | src/pages/ExamPapers.tsx:117-119 | the page searches exactly title and subject name, no author |
| `ExamPapersPage.InitialViewShowsAll` | src/pages/ExamPapers.tsx:23-121 | with an empty query and `'all'`, all six papers are listed in declaration order |
| `ExamPapersPage.PapersIdempotent` | src/pages/ExamPapers.tsx:116-121 | refiltering changes nothing and the list is never longer than the input |
| `ExamPapersPage.SubjectNameSearched` | src/pages/ExamPapers.tsx:117-119 | the subject display name is searched: "computer" finds the GATE paper, whose title does not contain it |
| `ExamPapersPage.DifficultyColor` | src/pages/ExamPapers.tsx:123-130 | the muted class is given exactly to difficulties other than Easy, Medium and Hard |
| `ExamPapersPage.DifficultyColorsDistinct` | src/pages/ExamPapers.tsx:123-130 | the three difficulties get three different classes |
| `ExamPapersPage.PapersGrid` | src/pages/ExamPapers.tsx:188-256 | one card per listed paper, in order, with its difficulty class, and the solutions badge and solutions button each exactly when the paper has solutions |
| `ExamPapersPage.SolutionsShownTogether` | src/pages/ExamPapers.tsx:208-256 | the solutions badge and the solutions button always come together |
| `ExamPapersPage.PapersResultsView` | src/pages/ExamPapers.tsx:182-267 | the count equals the number of cards, "Load More" appears iff it is positive, and the page has no no-results block |
| `ExamPapersPage.ExamTabsWellFormed` | src/pages/ExamPapers.tsx:12-21 | the eight exam keys are distinct and the first is `'all'` |
| `ExamPapersPage.NewExamPapersPage` | src/pages/ExamPapers.tsx:9-21 | the page's state starts at `'all'` and `''` over its own exam bar |
| `LibraryPage.LibraryStats` | src/pages/Library.tsx:134-146 | the first three cards are the lengths of the saved, download and upload lists |
| `LibraryPage.StatsValues` | src/pages/Library.tsx:134-146 | the cards read 2, 3, 2 and "$40.10" |
| `LibraryPage.SavedProgressInRange` | src/pages/Library.tsx:21-31 | every saved item's progress is a valid bar width between 0 and 100 |
| `LibraryPage.StatusColor` | src/pages/Library.tsx:109-116 | approved, pending and rejected get green, yellow and red; the muted class is given exactly to every other status |
| `LibraryPage.UploadIcons` | src/pages/Library.tsx:280 | every upload row, being notes, shows the document icon |
| `LibraryPage.NatDigits` | src/pages/Library.tsx:146 | decimal digits of a number, at least one and without a leading zero, that read back as the number |
| `LibraryPage.ParseCents` | src/pages/Library.tsx:74 | an amount is read only from a `$`-prefixed string with a point before two final digits |
| `LibraryPage.FormatCents` | src/pages/Library.tsx:146 | a written amount has the `$` prefix and the point before two final digits |
| `LibraryPage.CentsRoundTrip` | src/pages/Library.tsx:74-146 | reading back a written amount of cents gives the amount |
| `LibraryPage.TotalEarningsIsSum` | src/pages/Library.tsx:74-146 | the two uploads earn 2450 and 1560 cents, and the fixed total reads as their sum, 4010 |
| `LibraryPage.LibraryView.constructor` | src/pages/Library.tsx:10 | the search query starts empty |
| `LibraryPage.LibraryView.SavedGrid` | src/pages/Library.tsx:180 | the saved grid is the saved list itself, with no filtering |
| `LibraryPage.LibraryView.SetSearchQuery` | src/pages/Library.tsx:167-168 | typing stores the query and leaves the displayed saved items as they were |
| `ContactPage.InitialFormFields` | src/pages/Contact.tsx:9-14 | the form starts with exactly the keys name, email, subject and message, all empty |
| `ContactPage.Change` | src/pages/Contact.tsx:22-27 | the named field gets the new value, every other field keeps its value, and the only key possibly added is the name |
| `ContactPage.ChangeKeepsFields` | src/pages/Contact.tsx:136-181 | a change through one of the four inputs keeps exactly the four keys |
| `ContactPage.ChangeIdempotent` | src/pages/Contact.tsx:22-27 | repeating a change gives the same form as making it once |
| `ContactPage.LastChangeWins` | src/pages/Contact.tsx:22-27 | of two changes to the same field, the later one determines the form |
| `ContactPage.ChangesCommute` | src/pages/Contact.tsx:22-27 | changes to two different fields can be made in either order |
| `ContactPage.Replay` | src/pages/Contact.tsx:22-27 | a run of change events never removes a key |
| `ContactPage.ReplaySnoc` | src/pages/Contact.tsx:22-27 | one more event after a run is one more change to the run's result |
| `ContactPage.ReplayKeepsFields` | src/pages/Contact.tsx:136-181 | any run of events through the four inputs keeps exactly the four keys |
| `ContactPage.ReplayLastValue` | src/pages/Contact.tsx:22-27 | after a run each field holds the value of the last event naming it, or its old value when none does |
| `ContactPage.ContactForm.constructor` | src/pages/Contact.tsx:9-14 | the form state starts as the four empty fields |
| `ContactPage.ContactForm.HandleChange` | src/pages/Contact.tsx:22-27 | the state becomes the old form with the named field changed, and keeps the four keys when the name is an input's |
| `ContactPage.ContactForm.HandleSubmit` | src/pages/Contact.tsx:16-20 | submitting changes no state; the form it logs is the current one |
| `NavbarComponent.Initial` | src/components/Navbar.tsx:12-14 | the three flags start off |
| `NavbarComponent.OnScroll` | src/components/Navbar.tsx:17-19 | after a scroll event `scrolled` is whether the offset exceeds 50; nothing else changes |
| `NavbarComponent.ScrollBoundary` | src/components/Navbar.tsx:18 | an offset of exactly 50 leaves the bar unscrolled; 51 scrolls it |
| `NavbarComponent.ToggleDark` | src/components/Navbar.tsx:24-27 | the theme toggle negates the flag and flips the root's class; nothing else changes |
| `NavbarComponent.ToggleDarkTwice` | src/components/Navbar.tsx:24-27 | toggling the theme twice restores the state |
| `NavbarComponent.ToggleDarkKeepsSync` | src/components/Navbar.tsx:24-27 | after a toggle the flag matches the class exactly when it did before |
| `NavbarComponent.ToggleMenu` | src/components/Navbar.tsx:98 | the menu button negates `menuOpen`; nothing else changes |
| `NavbarComponent.ToggleMenuTwice` | src/components/Navbar.tsx:98 | pressing the menu button twice restores the state |
| `NavbarComponent.CloseMenu` | src/components/Navbar.tsx:115 | a mobile link click leaves the menu closed whatever it was; nothing else changes |
| `NavbarComponent.CloseMenuIdempotent` | src/components/Navbar.tsx:115 | a second link click changes nothing, and the menu's previous state does not matter |
| `NavbarComponent.DesktopLogin` | src/components/Navbar.tsx:87 | the desktop login fires the callback once and touches nothing else, the menu included |
| `NavbarComponent.MobileLogin` | src/components/Navbar.tsx:124-127 | the mobile login fires the callback once and closes the menu; nothing else changes |
| `NavbarComponent.LoginsDifferOnlyInMenu` | src/components/Navbar.tsx:87-127 | the two login buttons have the same effect except that the mobile one closes the menu |
| `NavbarComponent.MobileLinks` | src/components/Navbar.tsx:107-119 | the mobile menu lists links exactly when it is open, and then all six |
| `NavbarComponent.Run` | src/components/Navbar.tsx:17-136 | no run of events lowers the number of login callbacks |
| `NavbarComponent.RunKeepsSync` | src/components/Navbar.tsx:24-27 | a flag and class that agree on mount agree after any run of events |
| `NavbarComponent.RunCountsLogins` | src/components/Navbar.tsx:87-127 | the callback fires exactly once per login click, whichever button |
| `NavbarComponent.Navbar.constructor` | src/components/Navbar.tsx:12-14 | on mount the three flags are off and the root's class is as found |
| `NavbarComponent.Navbar.HandleScroll` | src/components/Navbar.tsx:17-19 | the handler's new state is the scroll transition of the old |
| `NavbarComponent.Navbar.ToggleDarkMode` | src/components/Navbar.tsx:24-27 | the new state is the theme toggle of the old, and flag and class agree after exactly when they did before |
| `NavbarComponent.Navbar.ToggleMenuButton` | src/components/Navbar.tsx:98 | the new state is the menu toggle of the old |
| `NavbarComponent.Navbar.NavLinkClicked` | src/components/Navbar.tsx:115 | the new state is the old with the menu closed |
| `NavbarComponent.Navbar.DesktopLoginClicked` | src/components/Navbar.tsx:87 | the new state is the desktop login transition of the old |
| `NavbarComponent.Navbar.MobileLoginClicked` | src/components/Navbar.tsx:124-127 | the new state is the mobile login transition of the old |

## Left out

- Markup, Tailwind classes other than the lookup tables, icons and the UI
  primitives are presentation. Icons are kept only as the two-valued choice
  the type lookup makes.
- `toLowerCase` is modelled on ASCII letters only. Other Unicode case
  mappings are not modelled.
- The catalog pages' ratings, and the Library's, are written as integer
  tenths (4.8 is 48). They are display values only. Prices, sizes and
  dates are kept as the source's literal values.
- Scroll offsets are integers. The browser reports a number that can be
  fractional; only the comparison with 50 matters.
- Registering and removing the scroll listener is not modelled, only the
  handler's effect. The document root's class list is reduced to one ghost
  flag for the `dark` class.
- `e.preventDefault()` and `console.log` in the Contact submit handler have
  no effect on state. The logged form is returned instead.
- `onAuthModalOpen` belongs to the parent component, which is not part of
  this model. Its calls are counted.
- React re-renders between events are not modelled. Each handler reads the
  state as of its own call, so a handler sees the previous handler's write.
- The Library folder counts use `Math.random()` and are left out as
  nondeterministic. Its dates go through `toLocaleDateString()` and are
  left out as locale-dependent.
- Only the first-render views are evaluated on the whole mock data. The
  no-match case is stated for all inputs (`CategoriesPage.NoMatchShowsNoResults`),
  not for one concrete query over the mock books.
- `Catalog.EmptyQueryShowsAll` requires every item to have at least one
  searched field. Every page searches two or three fields, so this holds
  for all of them.
- Home page sections (hero, featured, categories, footer) are static arrays
  rendered as they are. The home page only composes them. The auth modal is
  not part of this model. Routing links are navigation only.
