/**
 * The full-screen search on small screens: the route a search leads to (the
 * recognised city as a `city` parameter), the popular searches that only fill
 * the box, and the top-city buttons.
 */
module MobileSearch {
  import opened Wrappers
  import Text
  import ApiClient
  import HeroSearch

  const PopularSearches := ["Apartments in Delhi", "Villas in Mumbai", "Flats in Bangalore", "PG in Pune", "Commercial Space in Hyderabad"]
  const TopCities := ["Delhi", "Mumbai", "Bangalore", "Hyderabad", "Pune", "Chennai", "Kolkata", "Ahmedabad"]

  /** The property-type parameter: none for `All Residential`, else the lowercased type as it is. */
  function TypeParams(propertyType: string): (r: seq<(string, string)>)
    ensures propertyType == "All Residential" <==> r == []
    ensures r != [] ==> r == [("propertyType", Text.ToLower(propertyType))]
  {
    if propertyType == "All Residential" then [] else [("propertyType", Text.ToLower(propertyType))]
  }

  /** The route for a recognised city, or none, and the other parameters. */
  function RouteFor(city: Option<string>, params: seq<(string, string)>): (route: string)
    ensures city.Some? && params == [] ==> route == "/properties" + "?city=" + city.value
    ensures city.Some? && params != [] ==> route == "/properties" + "?city=" + city.value + "&" + ApiClient.Serialise(params)
    ensures city.None? && params == [] ==> route == "/properties"
    ensures city.None? && params != [] ==> route == "/properties" + "?" + ApiClient.Serialise(params)
  {
    var query := ApiClient.Serialise(params);
    ApiClient.SerialiseEmpty(params);
    if city.Some? then Joined("/properties" + "?city=" + city.value, "&", query)
    else Joined("/properties", "?", query)
  }

  /** `head`, followed by `sep` and `query` when there is a query. */
  function Joined(head: string, sep: string, query: string): (r: string)
    ensures query == "" ==> r == head
    ensures query != "" ==> r == head + sep + query
  {
    if query != "" then head + sep + query else head
  }

  /**
   * `handleSearch`: nothing for a blank query; otherwise a recognised city
   * becomes the first query parameter and the purpose and type follow.
   */
  function SearchRoute(tab: string, propertyType: string, query: string): Option<string> {
    if Text.Trim(query) == "" then None
    else Some(RouteFor(HeroSearch.RecognisedCity(query), HeroSearch.PurposeParams(tab) + TypeParams(propertyType)))
  }

  /** A blank query leads nowhere; any other leads to the route for the recognised city and the parameters. */
  lemma SearchRouteCases(tab: string, propertyType: string, query: string)
    ensures SearchRoute(tab, propertyType, query).None? <==> Text.IsBlank(query)
    ensures SearchRoute(tab, propertyType, query).Some? ==>
      SearchRoute(tab, propertyType, query).value
        == RouteFor(HeroSearch.RecognisedCity(query), HeroSearch.PurposeParams(tab) + TypeParams(propertyType))
  {
    assert Text.Trim(query) == "" <==> Text.IsBlank(query);
  }

  /** The modal's state; `closeCalls` counts the calls of the parent's `onClose`. */
  class Modal {
    var activeTab: string
    var propertyType: string
    var searchQuery: string
    var navigatedTo: seq<string>
    var closeCalls: nat

    constructor ()
      ensures activeTab == "Buy" && propertyType == "All Residential" && searchQuery == ""
      ensures navigatedTo == [] && closeCalls == 0
    {
      activeTab := "Buy";
      propertyType := "All Residential";
      searchQuery := "";
      navigatedTo := [];
      closeCalls := 0;
    }

    /** `handleSearch`: a blank query neither navigates nor closes the modal. */
    method HandleSearch()
      modifies this`navigatedTo, this`closeCalls
      ensures var route := SearchRoute(activeTab, propertyType, searchQuery);
        && (route.None? ==> navigatedTo == old(navigatedTo) && closeCalls == old(closeCalls))
        && (route.Some? ==> navigatedTo == old(navigatedTo) + [route.value] && closeCalls == old(closeCalls) + 1)
    {
      var route := SearchRoute(activeTab, propertyType, searchQuery);
      if route.Some? {
        navigatedTo := navigatedTo + [route.value];
        closeCalls := closeCalls + 1;
      }
    }

    /** `handlePopularSearch`: the chosen text fills the box, and nothing else happens. */
    method HandlePopularSearch(search: string)
      modifies this`searchQuery
      ensures searchQuery == search
    {
      searchQuery := search;
    }

    /** A top-city button: open that city's listing and close the modal. */
    method TopCity(city: string)
      modifies this`navigatedTo, this`closeCalls
      ensures navigatedTo == old(navigatedTo) + ["/properties?city=" + Text.ToLower(city)]
      ensures closeCalls == old(closeCalls) + 1
    {
      navigatedTo := navigatedTo + ["/properties?city=" + Text.ToLower(city)];
      closeCalls := closeCalls + 1;
    }

    method SelectTab(tab: string)
      modifies this`activeTab
      ensures activeTab == tab
    {
      activeTab := tab;
    }

    method SelectType(t: string)
      modifies this`propertyType
      ensures propertyType == t
    {
      propertyType := t;
    }
  }
}
