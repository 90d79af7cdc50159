/** The Library page: three fixed lists (saved items, download history,
    uploads), their counts, the status and type lookups, and a search box
    whose query is stored but never applied. */
module LibraryPage {
  import ResourceTypes

  datatype Option<T> = None | Some(value: T)

  /** A saved item; `progress` is the width, in percent, of its reading bar. */
  datatype SavedItem = SavedItem(id: nat, title: string, author: string, kind: string,
                                 ratingTenths: nat, savedAt: string, progress: int)

  datatype DownloadItem = DownloadItem(id: nat, title: string, author: string, kind: string,
                                       downloadedAt: string, size: string)

  /** An upload; `earnings` is the dollar amount exactly as displayed. */
  datatype UploadItem = UploadItem(id: nat, title: string, kind: string, uploadedAt: string,
                                   downloads: nat, ratingTenths: nat, earnings: string,
                                   status: string)

  const SavedBooks: seq<SavedItem> := [
    SavedItem(1, "Data Structures and Algorithms", "Thomas H. Cormen", "book", 48, "2023-12-15", 65),
    SavedItem(2, "Engineering Mathematics Notes", "Prof. Smith", "notes", 46, "2023-12-10", 100)
  ]

  const DownloadHistory: seq<DownloadItem> := [
    DownloadItem(1, "JEE Main 2023 Physics Paper", "NTA Board", "exam-paper", "2023-12-18", "2.5 MB"),
    DownloadItem(2, "Quantum Physics Fundamentals", "Dr. Sarah Chen", "notes", "2023-12-17", "4.8 MB"),
    DownloadItem(3, "Financial Management", "Prof. Martinez", "book", "2023-12-16", "12.3 MB")
  ]

  const UploadedContent: seq<UploadItem> := [
    UploadItem(1, "My Computer Networks Notes", "notes", "2023-12-12", 245, 47, "$24.50", "approved"),
    UploadItem(2, "Database Systems Assignment Solutions", "notes", "2023-12-08", 156, 45, "$15.60", "approved")
  ]

  /** The total written into the fourth stats card. */
  const TotalEarningsShown: string := "$40.10"

  /** The four stats cards. */
  datatype Stats = Stats(saved: nat, downloads: nat, uploads: nat, earnings: string)

  /** The first three cards count the lists; the fourth is a fixed text. */
  function LibraryStats(): (s: Stats)
    ensures s.saved == |SavedBooks| && s.downloads == |DownloadHistory| && s.uploads == |UploadedContent|
  {
    Stats(|SavedBooks|, |DownloadHistory|, |UploadedContent|, TotalEarningsShown)
  }

  /** The cards read 2, 3, 2 and "$40.10". */
  lemma StatsValues()
    ensures LibraryStats() == Stats(2, 3, 2, "$40.10")
  {
  }

  /** Every saved item's progress is a valid bar width. */
  lemma SavedProgressInRange()
    ensures forall i :: 0 <= i < |SavedBooks| ==> 0 <= SavedBooks[i].progress <= 100
  {
  }

  /** The class of the default branch. */
  const MutedStatus: string := "bg-muted text-muted-foreground"

  predicate KnownStatus(status: string)
  {
    status == "approved" || status == "pending" || status == "rejected"
  }

  /** `getStatusColor`: green for approved, yellow for pending, red for
      rejected, the muted class for anything else. */
  function StatusColor(status: string): (c: string)
    ensures status == "approved" ==> c == "bg-green-100 text-green-800"
    ensures status == "pending" ==> c == "bg-yellow-100 text-yellow-800"
    ensures status == "rejected" ==> c == "bg-red-100 text-red-800"
    ensures c == MutedStatus <==> !KnownStatus(status)
  {
    match status
    case "approved" => "bg-green-100 text-green-800"
    case "pending" => "bg-yellow-100 text-yellow-800"
    case "rejected" => "bg-red-100 text-red-800"
    case _ => MutedStatus
  }

  /** The icons of the download and upload rows: both upload rows are notes
      and get the document icon. */
  lemma UploadIcons()
    ensures forall i :: 0 <= i < |UploadedContent| ==>
      ResourceTypes.TypeIcon(UploadedContent[i].kind) == ResourceTypes.FileText
  {
  }

  // ---------------------------------------------------------------------
  // Dollar amounts, read as whole cents
  // ---------------------------------------------------------------------

  predicate IsDigit(c: char) { '0' <= c <= '9' }

  predicate AllDigits(s: string) { forall i :: 0 <= i < |s| ==> IsDigit(s[i]) }

  function DigitChar(d: nat): (c: char)
    requires d < 10
    ensures IsDigit(c) && c as int - '0' as int == d
  {
    ('0' as int + d) as char
  }

  /** The decimal value of a string of digits, most significant first. */
  function DigitsValue(s: string): nat
    requires AllDigits(s)
  {
    if s == [] then 0 else DigitsValue(s[..|s| - 1]) * 10 + (s[|s| - 1] as int - '0' as int)
  }

  /** The decimal digits of `n`, without leading zeros. */
  function NatDigits(n: nat): (s: string)
    ensures |s| >= 1 && AllDigits(s) && DigitsValue(s) == n
    ensures n >= 10 ==> s[0] != '0'
  {
    if n < 10 then [DigitChar(n)]
    else
      var s := NatDigits(n / 10) + [DigitChar(n % 10)];
      assert s[..|s| - 1] == NatDigits(n / 10);
      s
  }

  /** Reads "$<digits>.<two digits>" as a number of cents. */
  function ParseCents(s: string): (r: Option<nat>)
    ensures r.Some? ==> |s| >= 5 && s[0] == '$' && s[|s| - 3] == '.'
  {
    if |s| < 5 || s[0] != '$' || s[|s| - 3] != '.' then None
    else
      var whole, cents := s[1..|s| - 3], s[|s| - 2..];
      if AllDigits(whole) && AllDigits(cents) then Some(DigitsValue(whole) * 100 + DigitsValue(cents))
      else None
  }

  /** Writes a number of cents as "$<dollars>.<two digits>". */
  function FormatCents(c: nat): (s: string)
    ensures |s| >= 5 && s[0] == '$' && s[|s| - 3] == '.'
  {
    "$" + NatDigits(c / 100) + "." + [DigitChar(c % 100 / 10), DigitChar(c % 10)]
  }

  /** Reading back a written amount gives the amount. */
  lemma CentsRoundTrip(c: nat)
    ensures ParseCents(FormatCents(c)) == Some(c)
  {
    var s := FormatCents(c);
    var d := NatDigits(c / 100);
    var two := [DigitChar(c % 100 / 10), DigitChar(c % 10)];
    assert s[1..|s| - 3] == d;
    assert s[|s| - 2..] == two;
    assert two[..1] == [DigitChar(c % 100 / 10)];
    assert two[..1][..0] == [];
    assert DigitsValue(two[..1]) == c % 100 / 10;
    assert DigitsValue(two) == (c % 100 / 10) * 10 + c % 10;
  }

  /** The fixed total is the sum of the two uploads' earnings:
      2450 + 1560 = 4010 cents. */
  lemma TotalEarningsIsSum(uploads: seq<UploadItem>, total: string)
    requires uploads == UploadedContent && total == TotalEarningsShown
    ensures ParseCents(uploads[0].earnings) == Some(2450)
    ensures ParseCents(uploads[1].earnings) == Some(1560)
    ensures ParseCents(total) == Some(2450 + 1560)
  {
    assert uploads[0].earnings == FormatCents(2450);
    assert uploads[1].earnings == FormatCents(1560);
    assert total == FormatCents(4010);
    CentsRoundTrip(2450);
    CentsRoundTrip(1560);
    CentsRoundTrip(4010);
  }

  // ---------------------------------------------------------------------
  // Page state
  // ---------------------------------------------------------------------

  /** The page's one piece of state: the saved-items search query. */
  class LibraryView {
    var searchQuery: string

    constructor ()
      ensures searchQuery == ""
    {
      searchQuery := "";
    }

    /** The saved grid: the saved list itself, whatever the query. */
    function SavedGrid(): (items: seq<SavedItem>)
      reads this
      ensures items == SavedBooks
    {
      SavedBooks
    }

    /** The change handler of the search box: stores the query and leaves
        the displayed saved items as they were. */
    method SetSearchQuery(q: string)
      modifies this
      ensures searchQuery == q
      ensures SavedGrid() == old(SavedGrid())
    {
      searchQuery := q;
    }
  }
}
