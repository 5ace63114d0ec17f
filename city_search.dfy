/**
 * The city picker: the dropdown list (the ten top cities for a blank term, up
 * to twenty matches from the city list otherwise), selecting and clearing a
 * city, and when the dropdown shows.
 */
module CitySearch {
  import opened Wrappers
  import Text
  import Lists

  /** An entry of the city list; the top cities carry no state. */
  datatype CityEntry = CityEntry(city: string, state: Option<string>)

  const MaxResults := 20

  /** The list shown for a blank term: the ten top cities, in this order, without a state. */
  const TopEntries: seq<CityEntry> := [
    CityEntry("Mumbai", None), CityEntry("Delhi", None), CityEntry("Bangalore", None), CityEntry("Hyderabad", None),
    CityEntry("Chennai", None), CityEntry("Kolkata", None), CityEntry("Ahmedabad", None), CityEntry("Pune", None),
    CityEntry("Surat", None), CityEntry("Jaipur", None)]

  /** The entry's city name, lowercased, contains the lowercased term. */
  predicate Matches(c: CityEntry, term: string) {
    Text.Contains(Text.ToLower(c.city), Text.ToLower(term))
  }

  /** `cities.filter(...)`: the matching entries in list order. */
  function AllMatches(cities: seq<CityEntry>, term: string): (r: seq<CityEntry>)
    ensures Lists.IsSubsequence(r, cities)
    ensures forall i :: 0 <= i < |r| ==> Matches(r[i], term)
    ensures forall c :: c in cities && Matches(c, term) ==> c in r
  {
    if cities == [] then []
    else
      var rest := AllMatches(cities[1..], term);
      if Matches(cities[0], term) then [cities[0]] + rest
      else rest
  }

  /** The filter keeps every copy of a matching entry, and nothing else. */
  lemma {:induction false} AllMatchesKeepsCopies(cities: seq<CityEntry>, term: string)
    ensures forall c :: multiset(AllMatches(cities, term))[c] == if Matches(c, term) then multiset(cities)[c] else 0
  {
    if cities != [] {
      AllMatchesKeepsCopies(cities[1..], term);
      assert cities == [cities[0]] + cities[1..];
    }
  }

  /** `.slice(0, 20)` of the matches: the first twenty of them, in list order, or all when there are fewer. */
  function FirstMatches(cities: seq<CityEntry>, term: string): (r: seq<CityEntry>)
    ensures |r| <= MaxResults
    ensures |r| == if |AllMatches(cities, term)| <= MaxResults then |AllMatches(cities, term)| else MaxResults
    ensures r == AllMatches(cities, term)[..|r|]
    ensures Lists.IsSubsequence(r, cities)
    ensures forall i :: 0 <= i < |r| ==> Matches(r[i], term)
    ensures |AllMatches(cities, term)| <= MaxResults ==> forall c :: c in cities && Matches(c, term) ==> c in r
  {
    var all := AllMatches(cities, term);
    if |all| <= MaxResults then all
    else
      Lists.PrefixIsSubsequence(all, cities, MaxResults);
      all[..MaxResults]
  }

  /** The dropdown's list for a search term. */
  function Filtered(cities: seq<CityEntry>, term: string): (r: seq<CityEntry>)
    ensures Text.IsBlank(term) ==> r == TopEntries
    ensures !Text.IsBlank(term) ==> r == FirstMatches(cities, term)
    ensures !Text.IsBlank(term) ==>
      && |r| <= MaxResults
      && Lists.IsSubsequence(r, cities)
      && (forall i :: 0 <= i < |r| ==> Matches(r[i], term))
      && (|AllMatches(cities, term)| <= MaxResults ==> forall c :: c in cities && Matches(c, term) ==> c in r)
  {
    if Text.Trim(term) == "" then TopEntries else FirstMatches(cities, term)
  }

  /** The picker; `reported` lists the values passed to `onCitySelect`, which the parent echoes back as `selectedCity`. */
  class Picker {
    const cities: seq<CityEntry>
    var searchTerm: string
    var filtered: seq<CityEntry>
    var isDropdownOpen: bool
    var selectedCity: string
    var reported: seq<string>

    /** The list always matches the current term. */
    predicate Valid()
      reads this
    {
      filtered == Filtered(cities, searchTerm)
    }

    constructor (data: seq<CityEntry>, selected: string)
      ensures Valid() && cities == data && searchTerm == "" && !isDropdownOpen
      ensures selectedCity == selected && reported == []
    {
      cities := data;
      searchTerm := "";
      filtered := Filtered(data, "");
      isDropdownOpen := false;
      selectedCity := selected;
      reported := [];
    }

    /** The dropdown shows only while open and no city is selected. */
    predicate DropdownShown()
      reads this
    {
      isDropdownOpen && selectedCity == ""
    }

    /** Typing: the term changes, the dropdown opens and the list is recomputed. */
    method TermChanged(term: string)
      modifies this`searchTerm, this`isDropdownOpen, this`filtered
      ensures Valid() && searchTerm == term && isDropdownOpen
    {
      searchTerm := term;
      isDropdownOpen := true;
      Refilter();
    }

    /** `handleSelectCity`: report the city, empty the term and close the dropdown. */
    method SelectCity(c: CityEntry)
      modifies this`searchTerm, this`isDropdownOpen, this`filtered, this`selectedCity, this`reported
      ensures Valid() && reported == old(reported) + [c.city] && selectedCity == c.city
      ensures searchTerm == "" && !isDropdownOpen
      ensures !DropdownShown()
    {
      reported := reported + [c.city];
      selectedCity := c.city;
      searchTerm := "";
      Refilter();
      isDropdownOpen := false;
    }

    /** `handleClearCity`: report the empty city and empty the term. */
    method ClearCity()
      modifies this`searchTerm, this`filtered, this`selectedCity, this`reported
      ensures Valid() && reported == old(reported) + [""] && selectedCity == "" && searchTerm == ""
    {
      reported := reported + [""];
      selectedCity := "";
      searchTerm := "";
      Refilter();
    }

    /** Recompute the list for the current term. */
    method Refilter()
      modifies this`filtered
      ensures Valid()
    {
      filtered := Filtered(cities, searchTerm);
    }

    /** A click in the search box opens the dropdown, which then shows unless a city is selected. */
    method ClickInput()
      modifies this`isDropdownOpen
      ensures isDropdownOpen && (DropdownShown() <==> selectedCity == "")
    {
      isDropdownOpen := true;
    }

    /** A click outside the picker closes the dropdown. */
    method ClickOutside()
      modifies this`isDropdownOpen
      ensures !isDropdownOpen && !DropdownShown()
    {
      isDropdownOpen := false;
    }
  }
}
