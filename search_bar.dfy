/**
 * The search box (src/components/search-bar.tsx): a query kept in sync with
 * the `q` parameter of the address, and a search that rewrites `q` and
 * navigates to the summaries page. The address parameters are an ordered
 * list of name/value pairs.
 */
module SearchBar {
  import opened Wrappers
  import opened Text
  import opened Params

  const SearchPage := "/resumenes"

  /** The parameters a search leads to: `q` set to the query as typed, or removed when the query is blank. */
  function SearchParams(current: seq<Pair>, query: string): (next: seq<Pair>)
    ensures !IsBlank(query) ==> Get(next, "q") == Some(query)
    ensures IsBlank(query) ==> Get(next, "q").None?
    ensures Delete(next, "q") == Delete(current, "q")
  {
    if !IsBlank(query) then Set(current, "q", query)
    else
      GetAfterDelete(current, "q");
      DeleteTwice(current, "q");
      Delete(current, "q")
  }

  /** Two searches from the same address differ only in `q`: every other parameter is kept as it was, in order. */
  lemma SearchKeepsOtherParams(current: seq<Pair>, q1: string, q2: string)
    ensures Delete(SearchParams(current, q1), "q") == Delete(SearchParams(current, q2), "q")
  {
  }

  class SearchBarState {
    var searchQuery: string

    constructor (defaultValue: string)
      ensures searchQuery == defaultValue
    {
      searchQuery := defaultValue;
    }

    /** Typing in the box. */
    method Type(value: string)
      modifies this
      ensures searchQuery == value
    {
      searchQuery := value;
    }

    /** The effect that runs when the address parameters change. */
    method OnParamsChanged(params: seq<Pair>)
      modifies this
      ensures searchQuery == OrElse(Get(params, "q"), "")
      ensures Get(params, "q").Some? ==> searchQuery == Get(params, "q").value
    {
      searchQuery := OrElse(Get(params, "q"), "");
    }

    /** `handleSearch`: the new parameters and the address it navigates to. */
    method HandleSearch(current: seq<Pair>) returns (next: seq<Pair>, target: string)
      ensures !IsBlank(searchQuery) ==> Get(next, "q") == Some(searchQuery)
      ensures IsBlank(searchQuery) ==> Get(next, "q").None?
      ensures Delete(next, "q") == Delete(current, "q")
      ensures StartsWith(target, SearchPage + "?")
      ensures target[|SearchPage + "?"|..] == Serialize(next)
    {
      var params := current;
      if !IsBlank(searchQuery) {
        params := Set(params, "q", searchQuery);
      } else {
        GetAfterDelete(params, "q");
        DeleteTwice(params, "q");
        params := Delete(params, "q");
      }
      next := params;
      target := SearchPage + "?" + Serialize(next);
    }
  }
}
