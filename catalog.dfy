/** The catalog filter shared by the Categories, Notes and Exam Papers pages:
    a list of items, a free-text query and a selected category key produce
    the items that match both, in their original order. */
module Catalog {
  import opened Text

  // ---------------------------------------------------------------------
  // `Array.prototype.filter`
  // ---------------------------------------------------------------------

  /** The elements of `s` that satisfy `p`, in the order of `s`. */
  function Keep<T>(s: seq<T>, p: T -> bool): (r: seq<T>)
    ensures |r| <= |s|
    ensures forall i :: 0 <= i < |r| ==> p(r[i])
    ensures forall i :: 0 <= i < |r| ==> r[i] in s
    ensures forall i :: 0 <= i < |s| && p(s[i]) ==> s[i] in r
  {
    if s == [] then [] else (if p(s[0]) then [s[0]] else []) + Keep(s[1..], p)
  }

  /** `a` can be obtained from `b` by deleting elements, without reordering. */
  ghost predicate IsSubsequence<T>(a: seq<T>, b: seq<T>)
    decreases |b|
  {
    a == [] || (b != [] && ((a[0] == b[0] && IsSubsequence(a[1..], b[1..])) || IsSubsequence(a, b[1..])))
  }

  /** The filtered list is a subsequence of its input: order is kept. */
  lemma {:induction false} KeepIsSubsequence<T>(s: seq<T>, p: T -> bool)
    ensures IsSubsequence(Keep(s, p), s)
  {
    if s != [] {
      KeepIsSubsequence(s[1..], p);
      var r := Keep(s, p);
      if p(s[0]) {
        assert r[0] == s[0] && r[1..] == Keep(s[1..], p);
      } else {
        assert r == Keep(s[1..], p);
      }
    }
  }

  /** Every value that satisfies `p` is kept as often as it occurs in the
      input; every other value is dropped. */
  lemma {:induction false} KeepCounts<T>(s: seq<T>, p: T -> bool)
    ensures forall x :: multiset(Keep(s, p))[x] == if p(x) then multiset(s)[x] else 0
  {
    if s != [] {
      KeepCounts(s[1..], p);
      assert s == [s[0]] + s[1..];
      assert multiset(s) == multiset([s[0]]) + multiset(s[1..]);
    }
  }

  /** When every element passes, the filter returns its input unchanged. */
  lemma {:induction false} KeepAll<T>(s: seq<T>, p: T -> bool)
    requires forall x :: x in s ==> p(x)
    ensures Keep(s, p) == s
  {
    if s != [] {
      KeepAll(s[1..], p);
    }
  }

  /** When no element passes, the filter returns the empty list. */
  lemma {:induction false} KeepNone<T>(s: seq<T>, p: T -> bool)
    requires forall i :: 0 <= i < |s| ==> !p(s[i])
    ensures Keep(s, p) == []
  {
    if s != [] {
      KeepNone(s[1..], p);
    }
  }

  /** Two predicates that agree on the elements of `s` filter it alike. */
  lemma {:induction false} KeepCongruent<T>(s: seq<T>, p: T -> bool, q: T -> bool)
    requires forall x :: x in s ==> p(x) == q(x)
    ensures Keep(s, p) == Keep(s, q)
  {
    if s != [] {
      KeepCongruent(s[1..], p, q);
    }
  }

  /** Filtering twice by `p` and then `q` is filtering once by both. */
  lemma {:induction false} KeepKeep<T>(s: seq<T>, p: T -> bool, q: T -> bool)
    ensures Keep(Keep(s, p), q) == Keep(s, x => p(x) && q(x))
  {
    if s != [] {
      KeepKeep(s[1..], p, q);
      assert Keep(s, x => p(x) && q(x))
          == (if p(s[0]) && q(s[0]) then [s[0]] else []) + Keep(s[1..], x => p(x) && q(x));
      if p(s[0]) {
        var r := Keep(s, p);
        assert r == [s[0]] + Keep(s[1..], p);
        assert r[0] == s[0] && r[1..] == Keep(s[1..], p);
        assert Keep(r, q) == (if q(s[0]) then [s[0]] else []) + Keep(r[1..], q);
        assert Keep(r, q) == Keep(s, x => p(x) && q(x));
      } else {
        assert Keep(s, p) == Keep(s[1..], p);
        assert Keep(Keep(s, p), q) == Keep(s, x => p(x) && q(x));
      }
    }
  }

  /** Filtering is idempotent. */
  lemma KeepIdempotent<T>(s: seq<T>, p: T -> bool)
    ensures Keep(Keep(s, p), p) == Keep(s, p)
  {
    KeepAll(Keep(s, p), p);
  }

  /** A stronger predicate narrows: its result is the weaker predicate's
      result, filtered further. */
  lemma KeepNarrows<T>(s: seq<T>, p: T -> bool, q: T -> bool)
    requires forall x :: x in s && p(x) ==> q(x)
    ensures Keep(Keep(s, q), p) == Keep(s, p)
    ensures IsSubsequence(Keep(s, p), Keep(s, q))
  {
    KeepKeep(s, q, p);
    KeepCongruent(s, x => q(x) && p(x), p);
    KeepIsSubsequence(Keep(s, q), p);
  }

  // ---------------------------------------------------------------------
  // The catalog filter: category AND text
  // ---------------------------------------------------------------------

  /** The key of the first tab on every catalog page; it lifts the category
      restriction. */
  const All: string := "all"

  /** The selection is the sentinel, or equals the item's stored key exactly
      (case-sensitively). */
  predicate CategoryMatches(selected: string, key: string)
  {
    selected == All || key == selected
  }

  /** The lower-cased query occurs in the lower-cased value of at least one
      of the searched fields. */
  predicate SearchMatches(query: string, fields: seq<string>)
  {
    exists i :: 0 <= i < |fields| && Includes(Lower(fields[i]), Lower(query))
  }

  /** The callback each page hands to `filter`: both tests hold. */
  predicate Matches<T>(x: T, query: string, selected: string,
                       category: T -> string, fields: T -> seq<string>)
  {
    CategoryMatches(selected, category(x)) && SearchMatches(query, fields(x))
  }

  /** The derived list of a catalog page: `category` reads an item's key and
      `fields` lists the page's searched fields of an item. */
  function FilterCatalog<T>(items: seq<T>, query: string, selected: string,
                            category: T -> string, fields: T -> seq<string>): (r: seq<T>)
    ensures |r| <= |items|
    ensures forall i :: 0 <= i < |r| ==>
      CategoryMatches(selected, category(r[i])) && SearchMatches(query, fields(r[i]))
    ensures forall i :: 0 <= i < |items| && Matches(items[i], query, selected, category, fields) ==>
      items[i] in r
  {
    Keep(items, x => Matches(x, query, selected, category, fields))
  }

  /** The category test alone. */
  function ByCategory<T>(items: seq<T>, selected: string, category: T -> string): (r: seq<T>)
    ensures forall i :: 0 <= i < |r| ==> CategoryMatches(selected, category(r[i]))
  {
    Keep(items, x => CategoryMatches(selected, category(x)))
  }

  /** The text test alone. */
  function BySearch<T>(items: seq<T>, query: string, fields: T -> seq<string>): (r: seq<T>)
    ensures forall i :: 0 <= i < |r| ==> SearchMatches(query, fields(r[i]))
  {
    Keep(items, x => SearchMatches(query, fields(x)))
  }

  /** The result is exactly the matching items in input order: a
      subsequence of the input holding every matching value as often as the
      input does, and nothing else. */
  lemma FilterExact<T>(items: seq<T>, query: string, selected: string,
                       category: T -> string, fields: T -> seq<string>)
    ensures IsSubsequence(FilterCatalog(items, query, selected, category, fields), items)
    ensures forall x ::
              multiset(FilterCatalog(items, query, selected, category, fields))[x]
              == if Matches(x, query, selected, category, fields) then multiset(items)[x] else 0
  {
    KeepIsSubsequence(items, x => Matches(x, query, selected, category, fields));
    KeepCounts(items, x => Matches(x, query, selected, category, fields));
  }

  /** Filtering the derived list again with the same query and selection
      changes nothing. */
  lemma FilterIdempotent<T>(items: seq<T>, query: string, selected: string,
                            category: T -> string, fields: T -> seq<string>)
    ensures var r := FilterCatalog(items, query, selected, category, fields);
            FilterCatalog(r, query, selected, category, fields) == r
  {
    KeepIdempotent(items, x => Matches(x, query, selected, category, fields));
  }

  /** The combined filter is the text filter applied to the category filter,
      and also the category filter applied to the text filter. */
  lemma FilterIsIntersection<T>(items: seq<T>, query: string, selected: string,
                                category: T -> string, fields: T -> seq<string>)
    ensures FilterCatalog(items, query, selected, category, fields)
         == BySearch(ByCategory(items, selected, category), query, fields)
    ensures FilterCatalog(items, query, selected, category, fields)
         == ByCategory(BySearch(items, query, fields), selected, category)
  {
    var c := x => CategoryMatches(selected, category(x));
    var t := x => SearchMatches(query, fields(x));
    KeepKeep(items, c, t);
    KeepCongruent(items, x => c(x) && t(x), x => Matches(x, query, selected, category, fields));
    KeepKeep(items, t, c);
    KeepCongruent(items, x => t(x) && c(x), x => Matches(x, query, selected, category, fields));
  }

  /** An empty query with the sentinel selection shows the whole list, in
      order, provided every item has a searched field. */
  lemma EmptyQueryShowsAll<T>(items: seq<T>, category: T -> string, fields: T -> seq<string>)
    requires forall i :: 0 <= i < |items| ==> |fields(items[i])| > 0
    ensures FilterCatalog(items, "", All, category, fields) == items
  {
    forall x | x in items
      ensures Matches(x, "", All, category, fields)
    {
      EmptyIncluded(Lower(fields(x)[0]));
    }
    KeepAll(items, x => Matches(x, "", All, category, fields));
  }

  /** When no item passes both tests the derived list is empty. */
  lemma NoMatchIsEmpty<T>(items: seq<T>, query: string, selected: string,
                          category: T -> string, fields: T -> seq<string>)
    requires forall i :: 0 <= i < |items| ==> !Matches(items[i], query, selected, category, fields)
    ensures FilterCatalog(items, query, selected, category, fields) == []
  {
    KeepNone(items, x => Matches(x, query, selected, category, fields));
  }

  /** With an empty query only the category test remains. */
  lemma EmptyQueryIsCategoryFilter<T>(items: seq<T>, selected: string,
                                      category: T -> string, fields: T -> seq<string>)
    requires forall i :: 0 <= i < |items| ==> |fields(items[i])| > 0
    ensures FilterCatalog(items, "", selected, category, fields) == ByCategory(items, selected, category)
  {
    forall x | x in items
      ensures SearchMatches("", fields(x))
    {
      EmptyIncluded(Lower(fields(x)[0]));
    }
    KeepCongruent(items, x => Matches(x, "", selected, category, fields),
                  x => CategoryMatches(selected, category(x)));
  }

  /** The sentinel bypasses the category test entirely. */
  lemma AllIsSearchFilter<T>(items: seq<T>, query: string,
                             category: T -> string, fields: T -> seq<string>)
    ensures FilterCatalog(items, query, All, category, fields) == BySearch(items, query, fields)
  {
    KeepCongruent(items, x => Matches(x, query, All, category, fields),
                  x => SearchMatches(query, fields(x)));
  }

  /** Any other selection keeps only items whose stored key is exactly the
      selection, and keeps every such item that passes the text test. */
  lemma SelectionIsExactKey<T>(items: seq<T>, query: string, selected: string,
                               category: T -> string, fields: T -> seq<string>)
    requires selected != All
    ensures var r := FilterCatalog(items, query, selected, category, fields);
            && (forall i :: 0 <= i < |r| ==> category(r[i]) == selected)
            && (forall i ::
                  (0 <= i < |items| && category(items[i]) == selected && SearchMatches(query, fields(items[i])))
                  ==> items[i] in r)
  {
  }

  /** The result for one category is the result for the sentinel restricted
      to that category; so it is a subsequence of it. */
  lemma SelectionWithinAll<T>(items: seq<T>, query: string, selected: string,
                              category: T -> string, fields: T -> seq<string>)
    ensures FilterCatalog(items, query, selected, category, fields)
         == ByCategory(FilterCatalog(items, query, All, category, fields), selected, category)
    ensures IsSubsequence(FilterCatalog(items, query, selected, category, fields),
                          FilterCatalog(items, query, All, category, fields))
  {
    AllIsSearchFilter(items, query, category, fields);
    FilterIsIntersection(items, query, selected, category, fields);
    KeepIsSubsequence(BySearch(items, query, fields), x => CategoryMatches(selected, category(x)));
  }

  /** Narrowing: when the old query, lower-cased, is a piece of the new one,
      the new result is the old result filtered again, hence a subsequence
      of it. */
  lemma QueryNarrows<T>(items: seq<T>, query: string, longer: string, selected: string,
                        category: T -> string, fields: T -> seq<string>)
    requires Includes(Lower(longer), Lower(query))
    ensures FilterCatalog(FilterCatalog(items, query, selected, category, fields),
                          longer, selected, category, fields)
         == FilterCatalog(items, longer, selected, category, fields)
    ensures IsSubsequence(FilterCatalog(items, longer, selected, category, fields),
                          FilterCatalog(items, query, selected, category, fields))
  {
    forall x | x in items && Matches(x, longer, selected, category, fields)
      ensures Matches(x, query, selected, category, fields)
    {
      var i :| 0 <= i < |fields(x)| && Includes(Lower(fields(x)[i]), Lower(longer));
      IncludesTransitive(Lower(fields(x)[i]), Lower(longer), Lower(query));
    }
    KeepNarrows(items, x => Matches(x, longer, selected, category, fields),
                x => Matches(x, query, selected, category, fields));
  }

  /** Typing more characters after the query can only narrow the result. */
  lemma TypingNarrows<T>(items: seq<T>, query: string, more: string, selected: string,
                         category: T -> string, fields: T -> seq<string>)
    ensures IsSubsequence(FilterCatalog(items, query + more, selected, category, fields),
                          FilterCatalog(items, query, selected, category, fields))
  {
    PrefixIncluded(query, more);
    LowerKeepsIncludes(query + more, query);
    QueryNarrows(items, query, query + more, selected, category, fields);
  }

  // ---------------------------------------------------------------------
  // Category tabs
  // ---------------------------------------------------------------------

  /** One button of a page's category bar: the key it selects and its label. */
  datatype Tab = Tab(id: string, name: string)

  /** The button style: highlighted (`default`) or plain (`outline`). */
  datatype Variant = Default | Outline

  predicate DistinctIds(tabs: seq<Tab>)
  {
    forall i, j :: 0 <= i < j < |tabs| ==> tabs[i].id != tabs[j].id
  }

  predicate HasId(tabs: seq<Tab>, id: string)
  {
    exists i :: 0 <= i < |tabs| && tabs[i].id == id
  }

  /** A tab is highlighted exactly when it carries the selected key. */
  function TabVariant(selected: string, tab: Tab): (v: Variant)
    ensures v == Default <==> tab.id == selected
  {
    if selected == tab.id then Default else Outline
  }

  /** With distinct keys and a selection taken from the bar, exactly one tab
      is highlighted. */
  lemma ExactlyOneHighlighted(tabs: seq<Tab>, selected: string)
    requires DistinctIds(tabs) && HasId(tabs, selected)
    ensures exists i :: 0 <= i < |tabs| && TabVariant(selected, tabs[i]) == Default
                        && forall j :: 0 <= j < |tabs| && j != i ==> TabVariant(selected, tabs[j]) == Outline
  {
    var i :| 0 <= i < |tabs| && tabs[i].id == selected;
    assert forall j :: 0 <= j < |tabs| && j != i ==> tabs[j].id != selected by {
      forall j | 0 <= j < |tabs| && j != i
        ensures tabs[j].id != selected
      {
        if j < i { assert tabs[j].id != tabs[i].id; } else { assert tabs[i].id != tabs[j].id; }
      }
    }
  }

  /** The two pieces of state of a catalog page: the selected category key
      and the search query. */
  class FilterBar {
    const tabs: seq<Tab>
    var selected: string
    var query: string

    /** The selection is always one of the bar's keys. */
    ghost predicate Valid()
      reads this
    {
      DistinctIds(tabs) && HasId(tabs, selected)
    }

    /** Both states start at their initial values: the sentinel and "". */
    constructor (tabs: seq<Tab>)
      requires DistinctIds(tabs) && |tabs| > 0 && tabs[0].id == All
      ensures Valid()
      ensures this.tabs == tabs && selected == All && query == ""
    {
      this.tabs := tabs;
      selected := All;
      query := "";
    }

    /** The click handler of the `i`-th tab. */
    method SelectTab(i: nat)
      requires Valid() && i < |tabs|
      modifies this
      ensures Valid()
      ensures selected == tabs[i].id && query == old(query)
    {
      selected := tabs[i].id;
    }

    /** The change handler of the search box. */
    method SetQuery(q: string)
      requires Valid()
      modifies this
      ensures Valid()
      ensures query == q && selected == old(selected)
    {
      query := q;
    }
  }

  /** Since the selection only ever holds one of the bar's keys, the bar
      always highlights exactly one tab. */
  lemma BarHighlightsOne(bar: FilterBar)
    requires bar.Valid()
    ensures exists i :: 0 <= i < |bar.tabs| && TabVariant(bar.selected, bar.tabs[i]) == Default
                        && forall j :: 0 <= j < |bar.tabs| && j != i ==> TabVariant(bar.selected, bar.tabs[j]) == Outline
  {
    ExactlyOneHighlighted(bar.tabs, bar.selected);
  }

  // ---------------------------------------------------------------------
  // What the page shows under the bar
  // ---------------------------------------------------------------------

  /** The "Found N ..." count and which of the two trailing blocks appear. */
  datatype ResultsView = ResultsView(count: nat, loadMore: bool, noResults: bool)

  /** The results area for a derived list; `hasNoResultsBlock` says whether
      the page has a no-results block at all. */
  function Results<T>(filtered: seq<T>, hasNoResultsBlock: bool): (v: ResultsView)
    ensures v.count == |filtered|
    ensures v.loadMore <==> |filtered| > 0
    ensures v.noResults <==> hasNoResultsBlock && |filtered| == 0
  {
    ResultsView(|filtered|, |filtered| > 0, hasNoResultsBlock && |filtered| == 0)
  }
}
