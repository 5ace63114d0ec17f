/**
 * The public listing page: the filter handler that rewrites the URL search
 * parameters, the request parameters with empty values pruned, the choice of
 * endpoint, the handling of the reply, the location heading and the pager.
 */
module PropertyListing {
  import opened Wrappers
  import Text
  import ApiClient
  import AuthSession
  import opened PropertyRecord

  /** The entries of a `URLSearchParams`, in order; a key may repeat. */
  type Params = seq<(string, string)>

  /** `params.getAll(key)` */
  function Values(ps: Params, key: string): seq<string> {
    if ps == [] then []
    else (if ps[0].0 == key then [ps[0].1] else []) + Values(ps[1..], key)
  }

  /** `params.get(key)`: the first value, or `null`. */
  function Get(ps: Params, key: string): (r: Option<string>)
    ensures r.None? <==> Values(ps, key) == []
    ensures r.Some? ==> r.value == Values(ps, key)[0]
  {
    if ps == [] then None
    else if ps[0].0 == key then Some(ps[0].1)
    else Get(ps[1..], key)
  }

  /** `params.delete(key)`: every entry with that key goes, the others stay in order. */
  function DeleteKey(ps: Params, key: string): (r: Params)
    ensures Values(r, key) == []
    ensures forall i :: 0 <= i < |r| ==> r[i].0 != key
    ensures forall other :: other != key ==> Values(r, other) == Values(ps, other)
    ensures (forall i :: 0 <= i < |ps| ==> ps[i].0 != key) ==> r == ps
  {
    if ps == [] then []
    else if ps[0].0 == key then DeleteKey(ps[1..], key)
    else [ps[0]] + DeleteKey(ps[1..], key)
  }

  /**
   * `params.set(key, value)`: the first entry with the key takes the value and
   * the later ones go; without one the pair is appended. Apart from that key the
   * entries are those of `ps`, in the same order.
   */
  function SetKey(ps: Params, key: string, value: string): (r: Params)
    ensures Values(r, key) == [value]
    ensures DeleteKey(r, key) == DeleteKey(ps, key)
  {
    if ps == [] then [(key, value)]
    else if ps[0].0 == key then [(key, value)] + DeleteKey(ps[1..], key)
    else [ps[0]] + SetKey(ps[1..], key, value)
  }

  /** Deleting one key leaves the values of every other key as they were. */
  lemma SetKeepsOthers(ps: Params, key: string, value: string, other: string)
    requires other != key
    ensures Values(SetKey(ps, key, value), other) == Values(ps, other)
  {
    assert Values(DeleteKey(SetKey(ps, key, value), key), other) == Values(SetKey(ps, key, value), other);
  }

  /** One entry of the filters object handed to `handleFilterChange`; a missing or `null` value is `None`. */
  type Filter = (string, Option<string>)

  predicate Truthy(v: Option<string>) {
    v.Some? && v.value != ""
  }

  /** One step of the `forEach`: set a truthy value, delete the key otherwise. */
  function ApplyFilter(ps: Params, f: Filter): (r: Params)
    ensures Values(r, f.0) == (if Truthy(f.1) then [f.1.value] else [])
    ensures forall other :: other != f.0 ==> Values(r, other) == Values(ps, other)
  {
    if Truthy(f.1) then
      var r := SetKey(ps, f.0, f.1.value);
      forall other | other != f.0 ensures Values(r, other) == Values(ps, other) {
        SetKeepsOthers(ps, f.0, f.1.value, other);
      }
      r
    else DeleteKey(ps, f.0)
  }

  /** The filters applied in order. */
  function ApplyFilters(ps: Params, fs: seq<Filter>): Params
    decreases |fs|
  {
    if fs == [] then ps else ApplyFilters(ApplyFilter(ps, fs[0]), fs[1..])
  }

  function Keys(fs: seq<Filter>): seq<string> {
    seq(|fs|, i requires 0 <= i < |fs| => fs[i].0)
  }

  /** The keys of an object are distinct. */
  predicate DistinctKeys(fs: seq<Filter>) {
    forall i, j :: 0 <= i < j < |fs| ==> fs[i].0 != fs[j].0
  }

  /**
   * After a filter change a named key holds exactly its truthy value, or
   * nothing when the value is falsy; a key the filters do not name keeps its values.
   */
  lemma {:induction false} FilterChangeEffect(ps: Params, fs: seq<Filter>, key: string)
    requires DistinctKeys(fs)
    ensures key !in Keys(fs) ==> Values(ApplyFilters(ps, fs), key) == Values(ps, key)
    ensures forall i :: 0 <= i < |fs| && fs[i].0 == key ==>
      Values(ApplyFilters(ps, fs), key) == (if Truthy(fs[i].1) then [fs[i].1.value] else [])
    decreases |fs|
  {
    if fs != [] {
      var next := ApplyFilter(ps, fs[0]);
      assert DistinctKeys(fs[1..]);
      assert Keys(fs[1..]) == Keys(fs)[1..];
      FilterChangeEffect(next, fs[1..], key);
      if fs[0].0 == key {
        assert Keys(fs)[0] == key;
        assert key !in Keys(fs[1..]);
      }
    }
  }

  /** The request parameters before pruning; `null` is `None`. */
  type RawParams = seq<(string, Option<string>)>

  const Limit := "20"

  /** The keys copied from the URL into the request. */
  const CopiedKeys := ["purpose", "propertyType", "bedrooms", "minPrice", "maxPrice", "locality", "postedBy", "furnishing"]

  /** The `params` object: page, the fixed limit, then each copied key's URL value. */
  function RequestParams(page: int, sp: Params): (r: RawParams)
    ensures |r| == 2 + |CopiedKeys|
    ensures r[0] == ("page", Some(Text.IntToString(page))) && r[1] == ("limit", Some(Limit))
    ensures forall i :: 0 <= i < |CopiedKeys| ==> r[i + 2] == (CopiedKeys[i], Get(sp, CopiedKeys[i]))
  {
    [("page", Some(Text.IntToString(page))), ("limit", Some(Limit))]
      + seq(|CopiedKeys|, i requires 0 <= i < |CopiedKeys| => (CopiedKeys[i], Get(sp, CopiedKeys[i])))
  }

  /** What one entry leaves behind: nothing when its value is `null` or `''`. */
  function Keep(e: (string, Option<string>)): Params {
    if Truthy(e.1) then [(e.0, e.1.value)] else []
  }

  /** The entries whose values survive the clean-up, in order. */
  function Pruned(raw: RawParams): (r: Params)
    ensures |r| <= |raw|
    ensures forall i :: 0 <= i < |r| ==> r[i].1 != ""
    ensures forall i :: 0 <= i < |r| ==> exists j :: 0 <= j < |raw| && raw[j] == (r[i].0, Some(r[i].1))
    ensures forall j :: 0 <= j < |raw| && Truthy(raw[j].1) ==> (raw[j].0, raw[j].1.value) in r
  {
    if raw == [] then []
    else
      var rest := Pruned(raw[1..]);
      var r := Keep(raw[0]) + rest;
      assert forall i :: 0 <= i < |rest| ==> exists j :: 1 <= j < |raw| && raw[j] == (rest[i].0, Some(rest[i].1)) by {
        forall i | 0 <= i < |rest| ensures exists j :: 1 <= j < |raw| && raw[j] == (rest[i].0, Some(rest[i].1)) {
          var j :| 0 <= j < |raw[1..]| && raw[1..][j] == (rest[i].0, Some(rest[i].1));
          assert raw[j + 1] == raw[1..][j];
        }
      }
      assert forall j :: 1 <= j < |raw| && Truthy(raw[j].1) ==> (raw[j].0, raw[j].1.value) in rest by {
        forall j | 1 <= j < |raw| && Truthy(raw[j].1) ensures (raw[j].0, raw[j].1.value) in rest {
          assert raw[1..][j - 1] == raw[j];
        }
      }
      r
  }

  lemma {:induction false} PrunedAppend(raw: RawParams, e: (string, Option<string>))
    ensures Pruned(raw + [e]) == Pruned(raw) + Keep(e)
  {
    if raw != [] {
      assert (raw + [e])[1..] == raw[1..] + [e];
      PrunedAppend(raw[1..], e);
    } else {
      assert Pruned([e][1..]) == [];
    }
  }

  /** The `forEach` that deletes the `undefined`, `null` and `''` entries. */
  method PruneParams(raw: RawParams) returns (kept: Params)
    ensures kept == Pruned(raw)
  {
    kept := [];
    var i := 0;
    while i < |raw|
      invariant 0 <= i <= |raw|
      invariant kept == Pruned(raw[..i])
    {
      PrunedAppend(raw[..i], raw[i]);
      assert raw[..i + 1] == raw[..i] + [raw[i]];
      if Truthy(raw[i].1) {
        kept := kept + [(raw[i].0, raw[i].1.value)];
      }
      i := i + 1;
    }
    assert raw[..i] == raw;
  }

  /** The request always starts with the page and a limit of 20, whatever the search parameters hold. */
  lemma RequestAlwaysPaged(page: int, sp: Params)
    ensures var r := Pruned(RequestParams(page, sp));
            |r| >= 2 && r[..2] == [("page", Text.IntToString(page)), ("limit", Limit)]
  {
    var raw := RequestParams(page, sp);
    assert Pruned(raw) == Keep(raw[0]) + Pruned(raw[1..]);
    assert Pruned(raw[1..]) == Keep(raw[1..][0]) + Pruned(raw[1..][1..]);
  }

  /** A location in the route selects the by-location call, otherwise the all-locations call. */
  function FetchUrl(configured: Option<string>, location: Option<string>, params: Params): (url: string)
    ensures Truthy(location) ==>
      url == ApiClient.ListUrl(ApiClient.BackendUrl(configured), "/api/properties/properties/" + location.value, params)
    ensures !Truthy(location) ==>
      url == ApiClient.ListUrl(ApiClient.BackendUrl(configured), "/api/properties/all-locations", params)
  {
    if Truthy(location) then ApiClient.ByLocationUrl(configured, location.value, params)
    else ApiClient.AllLocationsUrl(configured, params)
  }

  /** The `data` of a listing reply; `total` and `totalPages` may be missing or zero. */
  datatype ListData = ListData(properties: Option<seq<Listing>>, total: Option<int>, totalPages: Option<int>)

  /**
   * A listing reply body, which the public calls pass on unchanged: `success`
   * (false when it is missing), `data` (None when it is missing) and `error`.
   */
  datatype ListReply = ListReply(success: bool, data: Option<ListData>, error: Option<string>)

  /** What the page shows about its last fetch. */
  datatype View = View(
    properties: seq<Listing>, loading: bool, error: Option<string>, totalProperties: int, totalPages: int)

  const InitialView := View([], true, None, 0, 1)
  const FetchFallback := "Failed to fetch properties"
  /** The text the page puts before the message of an exception raised while it reads the reply. */
  const CaughtPrefix := "An error occurred: "
  /** The message of the exception raised by reading `properties` of a missing `data`. */
  const MissingDataMessage := "Cannot read properties of undefined (reading 'properties')"

  /** The reply holds rows to show: an answered body with a truthy `success` and a `data` object. */
  predicate Succeeded(result: ApiClient.Fetched<ListReply>) {
    result.Body? && result.body.success && result.body.data.Some?
  }

  /** The view once a fetch has answered: the rows and totals of a success, or the error of anything else. */
  function Loaded(v: View, result: ApiClient.Fetched<ListReply>): (r: View)
    ensures !r.loading
    ensures r.error.None? <==> Succeeded(result)
    ensures Succeeded(result) ==> var d := result.body.data.value;
      && r.properties == d.properties.GetOr([])
      && r.totalProperties == (if d.total.Some? && d.total.value != 0 then d.total.value else 0)
      && r.totalPages == (if d.totalPages.Some? && d.totalPages.value != 0 then d.totalPages.value else 1)
    ensures !Succeeded(result) ==>
      r.properties == v.properties && r.totalProperties == v.totalProperties && r.totalPages == v.totalPages
    ensures result.Body? && !result.body.success ==> r.error == Some(AuthSession.OrElse(result.body.error, FetchFallback))
    ensures result.Body? && result.body.success && result.body.data.None? ==>
      r.error == Some(CaughtPrefix + MissingDataMessage)
    ensures result.Failed? && result.error != "" ==> r.error == Some(result.error)
    ensures result.Failed? && result.error == "" ==> r.error == Some(FetchFallback)
  {
    match result
      case Body(reply) =>
        if !reply.success then v.(loading := false, error := Some(AuthSession.OrElse(reply.error, FetchFallback)))
        else if reply.data.None? then v.(loading := false, error := Some(CaughtPrefix + MissingDataMessage))
        else
          var d := reply.data.value;
          View(d.properties.GetOr([]), false, None,
               if d.total.Some? && d.total.value != 0 then d.total.value else 0,
               if d.totalPages.Some? && d.totalPages.value != 0 then d.totalPages.value else 1)
      case Failed(e) =>
        v.(loading := false, error := Some(if e != "" then e else FetchFallback))
  }

  /** The pager is shown only for a loaded, error-free, non-empty list with more than one page. */
  predicate ShowsPager(v: View) {
    !v.loading && v.error.None? && |v.properties| > 0 && v.totalPages > 1
  }

  /** A failed fetch, or a reply that names no page count, hides the pager. */
  lemma PagerHiddenWithoutPages(v: View, result: ApiClient.Fetched<ListReply>)
    requires !Succeeded(result) || result.body.data.value.totalPages.None?
    ensures !ShowsPager(Loaded(v, result))
  {
  }

  /** `location` split on `-`, each word with its first letter uppercased, joined with spaces. */
  function FormatLocationName(location: Option<string>): (r: string)
    ensures !Truthy(location) ==> r == "All Locations"
  {
    if !Truthy(location) then "All Locations"
    else
      var words := Text.Split(location.value, '-');
      Text.Join(seq(|words|, i requires 0 <= i < |words| => Text.UpperFirst(words[i])), " ")
  }

  /** A location with no spaces keeps its word count: the heading splits on spaces into its capitalised words. */
  lemma HeadingKeepsWords(location: string)
    requires location != "" && ' ' !in location
    ensures var words := Text.Split(location, '-');
      Text.Split(FormatLocationName(Some(location)), ' ')
        == seq(|words|, i requires 0 <= i < |words| => Text.UpperFirst(words[i]))
  {
    var words := Text.Split(location, '-');
    var caps := seq(|words|, i requires 0 <= i < |words| => Text.UpperFirst(words[i]));
    forall j | 0 <= j < |caps| ensures ' ' !in caps[j] {
      forall k | 0 <= k < |caps[j]| ensures caps[j][k] != ' ' {
        assert words[j][k] in location by {
          assert Text.Split(location, '-')[j] == words[j];
          SplitPieceInside(location, '-', j, k);
        }
      }
    }
    Text.SplitJoin(caps, ' ');
  }

  /** Every character of a piece of a split comes from the split string. */
  lemma {:induction false} SplitPieceInside(s: string, sep: char, j: int, k: int)
    requires 0 <= j < |Text.Split(s, sep)| && 0 <= k < |Text.Split(s, sep)[j]|
    ensures Text.Split(s, sep)[j][k] in s
  {
    if s != [] {
      var rest := Text.Split(s[1..], sep);
      if s[0] == sep {
        if j > 0 {
          SplitPieceInside(s[1..], sep, j - 1, k);
        }
      } else if j == 0 {
        if k > 0 {
          SplitPieceInside(s[1..], sep, 0, k - 1);
        }
      } else {
        SplitPieceInside(s[1..], sep, j, k);
      }
    }
  }

  /** The pager buttons: previous, up to five numbered pages, an ellipsis and the last page when there are more than five, next. */
  datatype PagerButton =
    | Previous(target: int, disabled: bool)
    | Numbered(page: int, active: bool)
    | Ellipsis
    | LastPage(page: int)
    | NextPage(target: int, disabled: bool)

  function Pager(currentPage: int, totalPages: int): (r: seq<PagerButton>)
    requires totalPages > 1
    ensures |r| == 2 + (if totalPages > 5 then 7 else totalPages)
    ensures r[0] == Previous(currentPage - 1, currentPage == 1)
    ensures r[|r| - 1] == NextPage(currentPage + 1, currentPage == totalPages)
    ensures forall i :: 1 <= i <= 5 && i <= totalPages ==> r[i] == Numbered(i, i == currentPage)
    ensures totalPages > 5 ==> r[6] == Ellipsis && r[7] == LastPage(totalPages)
    ensures forall i :: 0 <= i < |r| && r[i].Numbered? ==> 1 <= r[i].page <= 5 && r[i].page <= totalPages
    ensures forall i :: 0 <= i < |r| && r[i].Numbered? ==> (r[i].active <==> r[i].page == currentPage)
    ensures (exists i :: 0 <= i < |r| && r[i].LastPage?) <==> totalPages > 5
    ensures forall i :: 0 <= i < |r| && r[i].LastPage? ==> r[i].page == totalPages
  {
    var shown := if totalPages < 5 then totalPages else 5;
    var numbers := seq(shown, i requires 0 <= i < shown => Numbered(i + 1, currentPage == i + 1));
    var tail := if totalPages > 5 then [Ellipsis, LastPage(totalPages)] else [];
    var r := [Previous(currentPage - 1, currentPage == 1)] + numbers + tail + [NextPage(currentPage + 1, currentPage == totalPages)];
    assert totalPages > 5 ==> r[|r| - 2].LastPage?;
    r
  }

  /** From a page in range, every button that is not disabled leads to a page in range. */
  lemma PagerStaysInRange(currentPage: int, totalPages: int)
    requires totalPages > 1 && 1 <= currentPage <= totalPages
    ensures forall b :: b in Pager(currentPage, totalPages) && (b.Previous? || b.NextPage?) && !b.disabled ==> 1 <= b.target <= totalPages
    ensures forall b :: b in Pager(currentPage, totalPages) && (b.Numbered? || b.LastPage?) ==> 1 <= b.page <= totalPages
  {
    var r := Pager(currentPage, totalPages);
    forall b | b in r && (b.Previous? || b.NextPage?) && !b.disabled ensures 1 <= b.target <= totalPages {
      var i :| 0 <= i < |r| && r[i] == b;
    }
    forall b | b in r && (b.Numbered? || b.LastPage?) ensures 1 <= b.page <= totalPages {
      var i :| 0 <= i < |r| && r[i] == b;
    }
  }

  /** The page's state: the URL's search parameters, the page number and the fetched view. */
  class ListingPage {
    const location: Option<string>
    const configured: Option<string>
    var searchParams: Params
    var appliedFilters: seq<Filter>
    var currentPage: int
    var showFilters: bool
    var view: View
    var requested: seq<string>

    constructor (route: Option<string>, backend: Option<string>, initialParams: Params)
      ensures location == route && configured == backend && searchParams == initialParams
      ensures appliedFilters == [] && currentPage == 1 && !showFilters && view == InitialView && requested == []
    {
      location := route;
      configured := backend;
      searchParams := initialParams;
      appliedFilters := [];
      currentPage := 1;
      showFilters := false;
      view := InitialView;
      requested := [];
    }

    /** `handleFilterChange`: rewrite the search parameters, go back to page 1 and close the filter panel. */
    method HandleFilterChange(filters: seq<Filter>)
      modifies this
      ensures searchParams == ApplyFilters(old(searchParams), filters)
      ensures appliedFilters == filters && currentPage == 1 && !showFilters
      ensures view == old(view) && requested == old(requested)
    {
      appliedFilters := filters;
      var next := searchParams;
      var i := 0;
      while i < |filters|
        invariant 0 <= i <= |filters|
        invariant ApplyFilters(next, filters[i..]) == ApplyFilters(old(searchParams), filters)
      {
        assert filters[i..][1..] == filters[i + 1..];
        var key := filters[i].0;
        var value := filters[i].1;
        if value.Some? && value.value != "" {
          next := SetKey(next, key, value.value);
        } else {
          next := DeleteKey(next, key);
        }
        i := i + 1;
      }
      searchParams := next;
      currentPage := 1;
      showFilters := false;
    }

    /** `handlePageChange` */
    method HandlePageChange(page: int)
      modifies this
      ensures currentPage == page
      ensures searchParams == old(searchParams) && appliedFilters == old(appliedFilters)
      ensures showFilters == old(showFilters) && view == old(view) && requested == old(requested)
    {
      currentPage := page;
    }

    /** `fetchProperties`, given what the call answers: the URL it requests and the view it leaves. */
    method FetchProperties(result: ApiClient.Fetched<ListReply>)
      modifies this`view, this`requested
      ensures requested == old(requested) + [FetchUrl(configured, location, Pruned(RequestParams(currentPage, searchParams)))]
      ensures view == Loaded(old(view).(loading := true, error := None), result)
    {
      view := view.(loading := true, error := None);
      var params := PruneParams(RequestParams(currentPage, searchParams));
      requested := requested + [FetchUrl(configured, location, params)];
      view := Loaded(view, result);
    }
  }
}
