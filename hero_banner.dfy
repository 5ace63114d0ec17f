/**
 * The home-page search box: the route a search leads to (purpose from the
 * tab, a property type, a city recognised in the query), the suggestion list
 * that opens from two characters on, and a click on a suggestion.
 */
module HeroSearch {
  import opened Wrappers
  import Text
  import ApiClient

  /** The cities a query is scanned for, in this order. */
  const Cities := ["delhi", "mumbai", "bangalore", "hyderabad", "pune", "chennai", "kolkata", "ahmedabad"]

  /** The index of the first of `cities[k..]` that `term` contains. */
  function FirstCityFrom(cities: seq<string>, term: string, k: nat): (r: Option<nat>)
    requires k <= |cities|
    decreases |cities| - k
    ensures r.Some? ==> k <= r.value < |cities| && Text.Contains(term, cities[r.value])
    ensures r.Some? ==> forall j :: k <= j < r.value ==> !Text.Contains(term, cities[j])
    ensures r.None? ==> forall j :: k <= j < |cities| ==> !Text.Contains(term, cities[j])
  {
    if k == |cities| then None
    else if Text.Contains(term, cities[k]) then Some(k)
    else FirstCityFrom(cities, term, k + 1)
  }

  /** `cities.find(city => term.includes(city))`, as an index into `Cities`. */
  function FoundCity(term: string): (r: Option<nat>)
    ensures r.Some? ==> r.value < |Cities| && Text.Contains(term, Cities[r.value])
    ensures r.Some? ==> forall j :: 0 <= j < r.value ==> !Text.Contains(term, Cities[j])
    ensures r.None? ==> forall j :: 0 <= j < |Cities| ==> !Text.Contains(term, Cities[j])
  {
    FirstCityFrom(Cities, term, 0)
  }

  /** The purpose parameter: `rent` for the Rent tab, `buy` for the Buy tab, none for any other tab. */
  function PurposeParams(tab: string): (r: seq<(string, string)>)
    ensures tab == "Rent" ==> r == [("purpose", "rent")]
    ensures tab == "Buy" ==> r == [("purpose", "buy")]
    ensures tab != "Rent" && tab != "Buy" ==> r == []
  {
    if tab == "Rent" then [("purpose", "rent")]
    else if tab == "Buy" then [("purpose", "buy")]
    else []
  }

  /** The property-type parameter: none for `All Residential`, else the lowercased type with its first `/` made `-`. */
  function TypeParams(propertyType: string): (r: seq<(string, string)>)
    ensures propertyType == "All Residential" <==> r == []
    ensures r != [] ==> r == [("propertyType", Text.ReplaceFirst(Text.ToLower(propertyType), '/', '-'))]
  {
    if propertyType == "All Residential" then []
    else [("propertyType", Text.ReplaceFirst(Text.ToLower(propertyType), '/', '-'))]
  }

  /** The first of `Cities` that the trimmed, lowercased query contains, if any. */
  function RecognisedCity(query: string): (city: Option<string>)
    ensures city.Some? ==> city.value in Cities && Text.Contains(Text.Trim(Text.ToLower(query)), city.value)
    ensures city.None? <==> forall j :: 0 <= j < |Cities| ==> !Text.Contains(Text.Trim(Text.ToLower(query)), Cities[j])
    ensures city.Some? ==> exists k :: 0 <= k < |Cities| && Cities[k] == city.value
                                       && forall j :: 0 <= j < k ==> !Text.Contains(Text.Trim(Text.ToLower(query)), Cities[j])
  {
    var found := FoundCity(Text.Trim(Text.ToLower(query)));
    if found.Some? then
      assert Cities[found.value] == Cities[found.value];
      Some(Cities[found.value])
    else None
  }

  /** `/properties/<city>` for a recognised city, else `/properties`. */
  function CityPath(query: string): (path: string)
  {
    var city := RecognisedCity(query);
    if city.Some? then "/properties/" + city.value else "/properties"
  }

  /** `handleSearch`: where a search leads, if anywhere. */
  function SearchRoute(tab: string, propertyType: string, query: string): Option<string> {
    if Text.Trim(query) == "" then None
    else Some(ApiClient.ListUrl("", CityPath(query), PurposeParams(tab) + TypeParams(propertyType)))
  }

  /**
   * A blank query leads nowhere. Any other leads to the city path, followed by
   * `?` and the parameters only when there are parameters.
   */
  lemma SearchRouteCases(tab: string, propertyType: string, query: string)
    ensures SearchRoute(tab, propertyType, query).None? <==> Text.IsBlank(query)
    ensures SearchRoute(tab, propertyType, query).Some? ==>
      var params := PurposeParams(tab) + TypeParams(propertyType);
      && (params == [] ==> SearchRoute(tab, propertyType, query).value == CityPath(query))
      && (params != [] ==> SearchRoute(tab, propertyType, query).value == CityPath(query) + "?" + ApiClient.Serialise(params))
  {
    assert Text.Trim(query) == "" <==> Text.IsBlank(query);
    if !Text.IsBlank(query) {
      RelativeUrl(CityPath(query), PurposeParams(tab) + TypeParams(propertyType));
    }
  }

  /** A URL with an empty base is the path, then `?` and the parameters when there are any. */
  lemma RelativeUrl(path: string, params: seq<(string, string)>)
    ensures params == [] ==> ApiClient.ListUrl("", path, params) == path
    ensures params != [] ==> ApiClient.ListUrl("", path, params) == path + "?" + ApiClient.Serialise(params)
  {
    assert "" + path == path;
  }

  /** A suggestion offered by the search endpoint: the property's id. */
  type Suggestion = string

  /** The reply of the search endpoint, as the component reads it. */
  datatype SearchReply = SearchReply(success: bool, properties: Option<seq<Suggestion>>)

  /** The search box. */
  class Banner {
    var activeTab: string
    var propertyType: string
    var searchQuery: string
    var suggestions: seq<Suggestion>
    var showSuggestions: bool
    var isSearching: bool
    var navigatedTo: seq<string>

    constructor ()
      ensures activeTab == "Buy" && propertyType == "All Residential" && searchQuery == ""
      ensures suggestions == [] && !showSuggestions && !isSearching && navigatedTo == []
    {
      activeTab := "Buy";
      propertyType := "All Residential";
      searchQuery := "";
      suggestions := [];
      showSuggestions := false;
      isSearching := false;
      navigatedTo := [];
    }

    /**
     * The query changes. Below two characters the suggestions are cleared and
     * hidden and no search is started; `started` says whether the debounced
     * search is due.
     */
    method QueryChanged(query: string) returns (started: bool)
      modifies this
      ensures searchQuery == query
      ensures started <==> |query| >= 2
      ensures !started ==> suggestions == [] && !showSuggestions
      ensures started ==> suggestions == old(suggestions) && showSuggestions == old(showSuggestions)
      ensures activeTab == old(activeTab) && propertyType == old(propertyType)
      ensures isSearching == old(isSearching) && navigatedTo == old(navigatedTo)
    {
      searchQuery := query;
      if query == "" || |query| < 2 {
        suggestions := [];
        showSuggestions := false;
        started := false;
      } else {
        started := true;
      }
    }

    /** The debounced search answers: a success opens the list, a failure empties it. */
    method SuggestionsArrived(reply: SearchReply)
      modifies this
      ensures reply.success ==> suggestions == reply.properties.GetOr([]) && showSuggestions
      ensures !reply.success ==> suggestions == [] && showSuggestions == old(showSuggestions)
      ensures !isSearching
      ensures searchQuery == old(searchQuery) && activeTab == old(activeTab)
      ensures propertyType == old(propertyType) && navigatedTo == old(navigatedTo)
    {
      isSearching := true;
      if reply.success {
        suggestions := if reply.properties.Some? then reply.properties.value else [];
        showSuggestions := true;
      } else {
        suggestions := [];
      }
      isSearching := false;
    }

    method SelectTab(tab: string)
      modifies this
      ensures activeTab == tab
      ensures propertyType == old(propertyType) && searchQuery == old(searchQuery) && suggestions == old(suggestions)
      ensures showSuggestions == old(showSuggestions) && isSearching == old(isSearching) && navigatedTo == old(navigatedTo)
    {
      activeTab := tab;
    }

    method SelectType(t: string)
      modifies this
      ensures propertyType == t
      ensures activeTab == old(activeTab) && searchQuery == old(searchQuery) && suggestions == old(suggestions)
      ensures showSuggestions == old(showSuggestions) && isSearching == old(isSearching) && navigatedTo == old(navigatedTo)
    {
      propertyType := t;
    }

    /** `handleSearch`: a blank query changes nothing; otherwise navigate and hide the suggestions. */
    method HandleSearch()
      modifies this`navigatedTo, this`showSuggestions
      ensures var route := SearchRoute(activeTab, propertyType, searchQuery);
        && (route.None? ==> navigatedTo == old(navigatedTo) && showSuggestions == old(showSuggestions))
        && (route.Some? ==> navigatedTo == old(navigatedTo) + [route.value] && !showSuggestions)
    {
      var route := SearchRoute(activeTab, propertyType, searchQuery);
      if route.Some? {
        navigatedTo := navigatedTo + [route.value];
        showSuggestions := false;
      }
    }

    /** `handleSuggestionClick`: open the property's page, hide the list and empty the query. */
    method HandleSuggestionClick(id: string)
      modifies this
      ensures navigatedTo == old(navigatedTo) + ["/property/" + id]
      ensures !showSuggestions && searchQuery == ""
      ensures activeTab == old(activeTab) && propertyType == old(propertyType)
      ensures suggestions == old(suggestions) && isSearching == old(isSearching)
    {
      navigatedTo := navigatedTo + ["/property/" + id];
      showSuggestions := false;
      searchQuery := "";
    }
  }
}
