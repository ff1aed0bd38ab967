/** The building-code search: a non-blank query is matched, after a delay,
    against a fixed catalogue of code excerpts by title, content and category,
    ignoring case; the matches replace the shown results. */
module BuildingCodesSearch {
  import opened Common
  import opened Text

  datatype CodeResult = CodeResult(
    id: string,
    title: string,
    code: string,
    section: string,
    content: string,
    relevance: int,
    category: string,
    lastUpdated: string)

  const MockResults: seq<CodeResult> := [
    CodeResult("1", "HVAC System Requirements", "IBC 2021", "Section 1203.3",
      "Mechanical ventilation systems shall be "
      + "designed to have the capacity to supply "
      + "the minimum quantity of outdoor air as determined "
      + "in accordance with Section 1203.4 and the "
      + "International Mechanical Code.",
      95, "Mechanical", "2021-01-01"),
    CodeResult("2", "Electrical Panel Clearances", "NEC 2020", "Article 110.26",
      "Working space for equipment operating at "
      + "600 volts, nominal, or less to ground and "
      + "likely to require examination, adjustment, "
      + "servicing, or maintenance while energized "
      + "shall comply with the dimensions of Table "
      + "110.26(A)(1) or Table 110.26(A)(2).",
      88, "Electrical", "2020-01-01"),
    CodeResult("3", "Plumbing Fixture Requirements", "IPC 2021", "Section 403.1",
      "Plumbing fixtures shall conform to the applicable "
      + "standards referenced in this code. Plumbing "
      + "fixtures shall be constructed of dense, "
      + "durable, nonabsorbent materials, shall have "
      + "smooth surfaces, shall be free from concealed "
      + "fouling surfaces and shall be of such form "
      + "and design as to facilitate cleaning.",
      82, "Plumbing", "2021-01-01"),
    CodeResult("4", "Fire Safety Systems", "NFPA 13", "Section 8.15.1",
      "Automatic sprinkler systems shall be hydraulically "
      + "designed and shall be capable of delivering "
      + "the densities and quantities of water specified "
      + "in this standard over the areas specified "
      + "herein.",
      79, "Fire Safety", "2022-01-01")
  ]

  /** A result matches when its title, content or category contains the query, all lower-cased. */
  predicate Matched(r: CodeResult, query: string)
  {
    var q := ToLower(query);
    Contains(ToLower(r.title), q) || Contains(ToLower(r.content), q) || Contains(ToLower(r.category), q)
  }

  function SearchResults(catalogue: seq<CodeResult>, query: string): seq<CodeResult>
  {
    Filter(catalogue, (r: CodeResult) => Matched(r, query))
  }

  /** The results are exactly the matching entries, in catalogue order. */
  lemma SearchResultsSpec(catalogue: seq<CodeResult>, query: string)
    ensures IsSubsequence(SearchResults(catalogue, query), catalogue)
    ensures forall r :: r in SearchResults(catalogue, query) <==> r in catalogue && Matched(r, query)
  {
    var keep := (r: CodeResult) => Matched(r, query);
    FilterIsSubsequence(catalogue, keep);
    forall r ensures r in SearchResults(catalogue, query) <==> r in catalogue && Matched(r, query) {
      FilterMembership(catalogue, keep, r);
    }
  }

  /** The case of the query does not matter. */
  lemma SearchIgnoresCase(catalogue: seq<CodeResult>, query: string)
    ensures SearchResults(catalogue, query) == SearchResults(catalogue, ToLower(query))
  {
    ToLowerIdempotent(query);
    FilterSame(catalogue, (r: CodeResult) => Matched(r, query), (r: CodeResult) => Matched(r, ToLower(query)));
  }

  /** A text without spaces contains no lower-cased query that holds one. */
  lemma NoSpaceNoMatch(s: string, query: string)
    requires ' ' in query && ' ' !in s
    ensures !Contains(ToLower(s), ToLower(query))
  {
    var i :| 0 <= i < |query| && query[i] == ' ';
    assert ToLower(query)[i] == ' ';
    if Contains(ToLower(s), ToLower(query)) {
      ContainsHasChars(ToLower(s), ToLower(query), ' ');
      assert false;
    }
  }

  /** The query is not trimmed: a query holding a space matches nothing whose
      title, content and category hold none. */
  lemma SpacesTakePart(r: CodeResult, query: string)
    requires ' ' in query
    requires ' ' !in r.title && ' ' !in r.content && ' ' !in r.category
    ensures !Matched(r, query)
  {
    NoSpaceNoMatch(r.title, query);
    NoSpaceNoMatch(r.content, query);
    NoSpaceNoMatch(r.category, query);
  }

  class Search {
    var searchQuery: string
    var searchResults: seq<CodeResult>
    var isSearching: bool
    /** The queries of the searches whose delay has not yet run out, each as it
        was when its search started. */
    var pending: seq<string>

    constructor ()
      ensures searchQuery == "" && searchResults == [] && !isSearching && pending == []
    {
      searchQuery := "";
      searchResults := [];
      isSearching := false;
      pending := [];
    }

    method SetQuery(query: string)
      modifies this
      ensures searchQuery == query
      ensures searchResults == old(searchResults) && isSearching == old(isSearching) && pending == old(pending)
    {
      searchQuery := query;
    }

    /** `handleSearch` up to its delay: a blank query changes nothing; any other
        raises the flag and starts a search for the query as typed. */
    method HandleSearch()
      modifies this
      ensures IsBlank(old(searchQuery)) ==> isSearching == old(isSearching) && pending == old(pending)
      ensures !IsBlank(old(searchQuery)) ==> isSearching && pending == old(pending) + [old(searchQuery)]
      ensures searchQuery == old(searchQuery) && searchResults == old(searchResults)
    {
      TrimEmptyIffBlank(searchQuery);
      if Trim(searchQuery) == [] {
        return;
      }
      isSearching := true;
      pending := pending + [searchQuery];
    }

    /** The input's key handler: Enter searches, even while a search is in
        flight; any other key changes nothing. */
    method KeyPress(key: string)
      modifies this
      ensures key == "Enter" && IsBlank(old(searchQuery)) ==> isSearching == old(isSearching) && pending == old(pending)
      ensures key == "Enter" && !IsBlank(old(searchQuery)) ==> isSearching && pending == old(pending) + [old(searchQuery)]
      ensures key != "Enter" ==> isSearching == old(isSearching) && pending == old(pending)
      ensures searchQuery == old(searchQuery) && searchResults == old(searchResults)
    {
      if key == "Enter" {
        HandleSearch();
      }
    }

    /** The Search button, disabled while a search is in flight. */
    method ClickSearch()
      modifies this
      ensures old(isSearching) || IsBlank(old(searchQuery)) ==>
                isSearching == old(isSearching) && pending == old(pending)
      ensures !old(isSearching) && !IsBlank(old(searchQuery)) ==>
                isSearching && pending == old(pending) + [old(searchQuery)]
      ensures searchQuery == old(searchQuery) && searchResults == old(searchResults)
    {
      if !isSearching {
        HandleSearch();
      }
    }

    /** The delay of the k-th pending search runs out: its matches replace the
        results and the flag drops, even if another search is still running. */
    method CompleteSearch(k: nat)
      requires k < |pending|
      modifies this
      ensures searchResults == SearchResults(MockResults, old(pending[k]))
      ensures !isSearching
      ensures pending == old(pending[..k] + pending[k + 1..])
      ensures searchQuery == old(searchQuery)
    {
      searchResults := SearchResults(MockResults, pending[k]);
      isSearching := false;
      pending := pending[..k] + pending[k + 1..];
    }
  }
}
