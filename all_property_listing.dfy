/**
 * The admin listing page: fetching a page of properties, the category
 * toggles and their per-row merge, bulk categorisation, the row selection,
 * the status and category badges, and the pagination bar.
 *
 * Every request first runs the session's expiry check; an expired session,
 * or a 401 or 403 reply, signs the admin out and navigates to the login page.
 * Server replies are given as values.
 */
module ListingModeration {
  import opened Wrappers
  import AuthSession
  import Lists

  /** One listed property: its id, its moderation status and its category flags (`isFeatured`, ...). */
  datatype Property = Property(id: string, status: string, flags: map<string, bool>)

  /** A category flag as JavaScript reads it: a missing flag is falsy. */
  predicate FlagOf(p: Property, category: string) {
    category in p.flags && p.flags[category]
  }

  datatype Pagination = Pagination(currentPage: int, totalPages: int, totalProperties: int, limit: int)

  const InitialPagination: Pagination := Pagination(1, 1, 0, 20)

  /** An HTTP reply: a status with a body, or a request that failed before any reply. */
  datatype Reply<B> = Status(code: int, body: B) | NetworkDown

  predicate Ok<B>(r: Reply<B>) {
    r.Status? && 200 <= r.code <= 299
  }

  predicate AuthRejected<B>(r: Reply<B>) {
    r.Status? && (r.code == 401 || r.code == 403)
  }

  /** The body of the listing request: a page of properties, `success: false`, or text that is not JSON. */
  datatype ListBody = Listed(properties: seq<Property>, totalPages: int, total: int) | Unsuccessful(message: Option<string>) | Unreadable

  /** The page's own state. */
  datatype ListingState = ListingState(properties: seq<Property>, loading: bool, error: string, pagination: Pagination,
                                       selected: seq<string>, navigatedTo: Option<string>)

  const LoginPath: string := "/admin/login"
  const FetchError: string := "Error fetching properties"

  /**
   * `fetchProperties` as written: an expired session or an auth rejection only
   * navigates to the login page; any other failure sets an error; a listed page
   * replaces the rows and the totals. The error is never cleared.
   */
  function Fetched(s: ListingState, expired: bool, reply: Reply<ListBody>): (r: ListingState)
    ensures !r.loading
    ensures r.selected == s.selected && r.pagination.currentPage == s.pagination.currentPage && r.pagination.limit == s.pagination.limit
    ensures expired || AuthRejected(reply) ==> r == s.(loading := false, navigatedTo := Some(LoginPath))
    ensures !expired && !AuthRejected(reply) ==> r.navigatedTo == s.navigatedTo
    ensures !expired && Ok(reply) && reply.body.Listed? ==>
              r.properties == reply.body.properties && r.error == s.error
              && r.pagination.totalPages == reply.body.totalPages && r.pagination.totalProperties == reply.body.total
    ensures !expired && !AuthRejected(reply) && !(Ok(reply) && reply.body.Listed?) ==>
              r.properties == s.properties && r.pagination == s.pagination && r.error != ""
    ensures !expired && !AuthRejected(reply) && !Ok(reply) ==> r.error == FetchError
    ensures !expired && Ok(reply) && reply.body.Unreadable? ==> r.error == FetchError
    ensures !expired && Ok(reply) && reply.body.Unsuccessful? ==>
              r.error == AuthSession.OrElse(reply.body.message, "Failed to fetch properties")
  {
    if expired then s.(loading := false, navigatedTo := Some(LoginPath))
    else
      match reply
      case NetworkDown => s.(loading := false, error := FetchError)
      case Status(code, body) =>
        if code == 401 || code == 403 then s.(loading := false, navigatedTo := Some(LoginPath))
        else if !(200 <= code <= 299) then s.(loading := false, error := FetchError)
        else
          match body
          case Listed(ps, totalPages, total) =>
            s.(loading := false, properties := ps, pagination := s.pagination.(totalPages := totalPages, totalProperties := total))
          case Unsuccessful(message) => s.(loading := false, error := AuthSession.OrElse(message, "Failed to fetch properties"))
          case Unreadable => s.(loading := false, error := FetchError)
  }

  /** What the table area shows, in the order the page tests it. */
  datatype Display = Spinner | ErrorText(message: string) | NoProperties | Table(rows: seq<Property>)

  function DisplayOf(s: ListingState): (d: Display)
    ensures d == Spinner <==> s.loading
    ensures d.ErrorText? <==> !s.loading && s.error != ""
    ensures d.Table? ==> d.rows == s.properties && s.properties != [] && s.error == ""
    ensures !s.loading && s.error != "" ==> d == ErrorText(s.error)
    ensures !s.loading && s.error == "" ==> d == if s.properties == [] then NoProperties else Table(s.properties)
  {
    if s.loading then Spinner
    else if s.error != "" then ErrorText(s.error)
    else if s.properties == [] then NoProperties
    else Table(s.properties)
  }

  /** Once one fetch has failed, even a later successful fetch keeps showing the old error instead of the rows. */
  lemma ErrorOutlivesSuccess(s: ListingState, rows: seq<Property>, totalPages: int, total: int)
    requires s.error != ""
    ensures DisplayOf(Fetched(s, false, Status(200, Listed(rows, totalPages, total)))) == ErrorText(s.error)
  {
  }

  /** `fetchProperties` with the error cleared when the request starts, as a retry evidently intends. */
  function FetchedClearingError(s: ListingState, expired: bool, reply: Reply<ListBody>): (r: ListingState)
    ensures expired || AuthRejected(reply) ==> r == Fetched(s, expired, reply)
    ensures !expired && !AuthRejected(reply) ==> (r.error == "" <==> Ok(reply) && reply.body.Listed?)
    ensures !expired && !AuthRejected(reply) ==> r.(error := "") == Fetched(s, expired, reply).(error := "")
  {
    if expired || AuthRejected(reply) then Fetched(s, expired, reply) else Fetched(s.(error := ""), expired, reply)
  }

  /** With the error cleared on each request, a successful fetch always shows its rows (or the empty notice). */
  lemma CorrectedFetchShowsRows(s: ListingState, rows: seq<Property>, totalPages: int, total: int)
    ensures var d := DisplayOf(FetchedClearingError(s, false, Status(200, Listed(rows, totalPages, total))));
            (rows == [] ==> d == NoProperties) && (rows != [] ==> d == Table(rows))
  {
  }

  /** The first row with the given id (`properties.find`). */
  function FindById(props: seq<Property>, id: string): (r: Option<Property>)
    ensures r.Some? ==> r.value in props && r.value.id == id
    ensures r.None? <==> forall i :: 0 <= i < |props| ==> props[i].id != id
    ensures r.Some? ==> exists i :: 0 <= i < |props| && props[i] == r.value && forall j :: 0 <= j < i ==> props[j].id != id
  {
    if props == [] then None
    else if props[0].id == id then Some(props[0])
    else
      var r := FindById(props[1..], id);
      FirstRowShifts(props, id, r);
      r
  }

  /** A row that is first with its id after the head, whose id differs, is first in the whole list. */
  lemma FirstRowShifts(props: seq<Property>, id: string, r: Option<Property>)
    requires props != [] && props[0].id != id
    requires r.Some? ==> exists k :: 0 <= k < |props[1..]| && props[1..][k] == r.value && forall j :: 0 <= j < k ==> props[1..][j].id != id
    ensures r.Some? ==> exists i :: 0 <= i < |props| && props[i] == r.value && forall j :: 0 <= j < i ==> props[j].id != id
  {
    if r.Some? {
      var k :| 0 <= k < |props[1..]| && props[1..][k] == r.value && forall j :: 0 <= j < k ==> props[1..][j].id != id;
      assert props[k + 1] == r.value;
      assert forall j :: 0 <= j < k + 1 ==> props[j].id != id by {
        forall j | 0 <= j < k + 1 ensures props[j].id != id {
          if j > 0 { assert props[j] == props[1..][j - 1]; }
        }
      }
    }
  }

  /** `{ ...prop, ...categoryData }` for the rows with the given id; every other row is left as it is. */
  function MergeCategory(props: seq<Property>, id: string, categoryData: map<string, bool>): (r: seq<Property>)
    ensures |r| == |props|
    ensures forall i :: 0 <= i < |props| ==> r[i].id == props[i].id && r[i].status == props[i].status
    ensures forall i :: 0 <= i < |props| && props[i].id != id ==> r[i] == props[i]
    ensures forall i, k :: 0 <= i < |props| && props[i].id == id && k in categoryData ==> FlagOf(r[i], k) == categoryData[k]
    ensures forall i, k :: 0 <= i < |props| && props[i].id == id && k !in categoryData ==> FlagOf(r[i], k) == FlagOf(props[i], k)
  {
    seq(|props|, i requires 0 <= i < |props| =>
      if props[i].id == id then props[i].(flags := props[i].flags + categoryData) else props[i])
  }

  /** Applying the same category update twice is the same as applying it once. */
  lemma MergeIdempotent(props: seq<Property>, id: string, categoryData: map<string, bool>)
    ensures MergeCategory(MergeCategory(props, id, categoryData), id, categoryData) == MergeCategory(props, id, categoryData)
  {
    var once := MergeCategory(props, id, categoryData);
    var twice := MergeCategory(once, id, categoryData);
    forall i | 0 <= i < |props| ensures twice[i] == once[i] {
      if props[i].id == id {
        assert once[i].flags + categoryData == once[i].flags;
      }
    }
  }

  /** The request `toggleCategory` sends: the negation of the row's current flag, or nothing when no row has the id. */
  function ToggleRequest(props: seq<Property>, id: string, category: string): (r: Option<map<string, bool>>)
    ensures r.None? <==> FindById(props, id).None?
    ensures r.Some? ==> r.value == map[category := !FlagOf(FindById(props, id).value, category)]
  {
    match FindById(props, id)
    case None => None
    case Some(p) => Some(map[category := !FlagOf(p, category)])
  }

  /** A successful toggle flips the flag on every row with that id and changes nothing else. */
  lemma ToggleFlipsFlag(props: seq<Property>, id: string, category: string, i: nat)
    requires i < |props| && props[i].id == id
    requires forall j :: 0 <= j < |props| && props[j].id == id ==> props[j] == props[i]
    ensures ToggleRequest(props, id, category).Some?
    ensures FlagOf(MergeCategory(props, id, ToggleRequest(props, id, category).value)[i], category) == !FlagOf(props[i], category)
  {
    assert FindById(props, id).Some?;
    var p := FindById(props, id).value;
    assert p == props[i] by {
      var j :| 0 <= j < |props| && props[j] == p;
    }
  }

  /** The header checkbox: all listed ids when ticked, none when cleared. */
  function SelectAll(props: seq<Property>, checked: bool): (r: seq<string>)
    ensures checked ==> |r| == |props| && forall i :: 0 <= i < |props| ==> r[i] == props[i].id
    ensures !checked ==> r == []
  {
    if checked then seq(|props|, i requires 0 <= i < |props| => props[i].id) else []
  }

  /** A row checkbox: appends the id when ticked, removes every copy of it when cleared. */
  function SelectRow(selected: seq<string>, id: string, checked: bool): (r: seq<string>)
    ensures checked ==> r == selected + [id]
    ensures !checked ==> id !in r && forall x :: x != id ==> (x in r <==> x in selected)
    ensures !checked ==> Lists.IsSubsequence(r, selected)
    ensures !checked ==> forall x :: multiset(r)[x] == if x == id then 0 else multiset(selected)[x]
  {
    if checked then selected + [id]
    else
      var r := Lists.RemoveAll(selected, id);
      assert forall x :: x != id ==> (x in r <==> x in selected) by {
        forall x | x != id ensures x in r <==> x in selected {
          assert multiset(r)[x] == multiset(selected)[x];
        }
      }
      r
  }

  /** Ticking a row and then clearing it restores the selection when the id was not selected. */
  lemma SelectRowUndo(selected: seq<string>, id: string)
    requires id !in selected
    ensures SelectRow(SelectRow(selected, id, true), id, false) == selected
  {
    Lists.RemoveAllAppended(selected, id);
  }

  const PendingStyle: string := "bg-yellow-500/20 text-yellow-400 border border-yellow-500/30"
  const ApprovedStyle: string := "bg-green-500/20 text-green-400 border border-green-500/30"
  const RejectedStyle: string := "bg-red-500/20 text-red-400 border border-red-500/30"
  const DefaultStyle: string := "bg-slate-700 text-gray-300 border border-slate-600"

  /** The status badge: its own style for pending, approved and rejected, the default for any other status. */
  function GetStatusBadge(status: string): (style: string)
    ensures status == "pending" <==> style == PendingStyle
    ensures status == "approved" <==> style == ApprovedStyle
    ensures status == "rejected" <==> style == RejectedStyle
    ensures status !in {"pending", "approved", "rejected"} <==> style == DefaultStyle
  {
    if status == "pending" then PendingStyle
    else if status == "approved" then ApprovedStyle
    else if status == "rejected" then RejectedStyle
    else DefaultStyle
  }

  /** The five categories, declared in the order their badges are shown. */
  datatype Category = Featured | TopPick | Highlighted | Investment | RecentlyAdded

  /** The property flag behind each category. */
  function FlagKey(c: Category): string {
    match c
    case Featured => "isFeatured"
    case TopPick => "isTopPick"
    case Highlighted => "isHighlighted"
    case Investment => "isInvestmentProperty"
    case RecentlyAdded => "isRecentlyAdded"
  }

  /** The text on each badge. */
  function BadgeName(c: Category): string {
    match c
    case Featured => "Featured"
    case TopPick => "Top Pick"
    case Highlighted => "Highlighted"
    case Investment => "Investment"
    case RecentlyAdded => "Recently Added"
  }

  /** The position of a category in the display order. */
  function Rank(c: Category): int {
    match c
    case Featured => 0
    case TopPick => 1
    case Highlighted => 2
    case Investment => 3
    case RecentlyAdded => 4
  }

  /**
   * `getCategoryBadges`: one badge per truthy flag, pushed in the fixed order
   * Featured, Top Pick, Highlighted, Investment, Recently Added.
   */
  method GetCategoryBadges(p: Property) returns (badges: seq<Category>)
    ensures forall c :: c in badges <==> FlagOf(p, FlagKey(c))
    ensures forall i, j :: 0 <= i < j < |badges| ==> Rank(badges[i]) < Rank(badges[j])
  {
    badges := [];
    if FlagOf(p, "isFeatured") { badges := badges + [Featured]; }
    if FlagOf(p, "isTopPick") { badges := badges + [TopPick]; }
    if FlagOf(p, "isHighlighted") { badges := badges + [Highlighted]; }
    if FlagOf(p, "isInvestmentProperty") { badges := badges + [Investment]; }
    if FlagOf(p, "isRecentlyAdded") { badges := badges + [RecentlyAdded]; }
  }

  /** The "Showing a to b of n" line: the first and last row numbers of the current page. */
  function SummaryRange(pg: Pagination): (r: (int, int))
    ensures r.0 == (pg.currentPage - 1) * pg.limit + 1
    ensures r.1 <= pg.totalProperties && r.1 <= pg.currentPage * pg.limit
    ensures r.1 == pg.totalProperties || r.1 == pg.currentPage * pg.limit
  {
    var last := pg.currentPage * pg.limit;
    ((pg.currentPage - 1) * pg.limit + 1, if last < pg.totalProperties then last else pg.totalProperties)
  }

  /** On a page that holds rows, the summary names at least one and at most `limit` rows, none past the total. */
  lemma SummaryWithinTotal(pg: Pagination)
    requires pg.limit > 0 && pg.currentPage >= 1
    requires (pg.currentPage - 1) * pg.limit < pg.totalProperties
    ensures 1 <= SummaryRange(pg).0 <= SummaryRange(pg).1 <= pg.totalProperties
    ensures SummaryRange(pg).1 - SummaryRange(pg).0 < pg.limit
  {
    var from := (pg.currentPage - 1) * pg.limit + 1;
    assert pg.currentPage * pg.limit == (pg.currentPage - 1) * pg.limit + pg.limit;
    assert (pg.currentPage - 1) * pg.limit >= 0;
  }

  /** The pagination bar: whether it shows, the disabled ends, and the numbered buttons. */
  datatype Bar = Bar(prevDisabled: bool, nextDisabled: bool, buttons: seq<int>)

  function PaginationBar(pg: Pagination): (b: Option<Bar>)
    ensures b.Some? <==> pg.totalPages > 1
    ensures b.Some? ==> (b.value.prevDisabled <==> pg.currentPage == 1)
    ensures b.Some? ==> (b.value.nextDisabled <==> pg.currentPage == pg.totalPages)
    ensures b.Some? ==> |b.value.buttons| == if pg.totalPages < 5 then pg.totalPages else 5
    ensures b.Some? ==> forall i :: 0 <= i < |b.value.buttons| ==> b.value.buttons[i] == i + 1
  {
    if pg.totalPages <= 1 then None
    else
      var n := if pg.totalPages < 5 then pg.totalPages else 5;
      Some(Bar(pg.currentPage == 1, pg.currentPage == pg.totalPages, seq(n, i requires 0 <= i < n => i + 1)))
  }

  /** Previous and Next, pressed only while enabled, keep the current page between 1 and the last page. */
  lemma PagingStaysInRange(pg: Pagination, next: bool)
    requires pg.totalPages > 1 && 1 <= pg.currentPage <= pg.totalPages
    requires var b := PaginationBar(pg).value; if next then !b.nextDisabled else !b.prevDisabled
    ensures var page := if next then pg.currentPage + 1 else pg.currentPage - 1;
            1 <= page <= pg.totalPages
  {
  }

  /** The listing page, with the session provider it asks about expiry and signs out through. */
  class ListingPage {
    const auth: AuthSession.AuthProvider
    var properties: seq<Property>
    var loading: bool
    var error: string
    var pagination: Pagination
    var selected: seq<string>
    var navigatedTo: Option<string>

    function View(): ListingState
      reads this
    {
      ListingState(properties, loading, error, pagination, selected, navigatedTo)
    }

    constructor (provider: AuthSession.AuthProvider)
      ensures auth == provider
      ensures View() == ListingState([], true, "", InitialPagination, [], None)
    {
      auth := provider;
      properties := [];
      loading := true;
      error := "";
      pagination := InitialPagination;
      selected := [];
      navigatedTo := None;
    }

    /** `fetchProperties` once the request (if any) has settled with `reply`; an earlier error is kept (see `ErrorOutlivesSuccess`). */
    method FetchProperties(reply: Reply<ListBody>, decode: string -> AuthSession.Decoded, now: real)
      modifies this, auth
      ensures var check := AuthSession.ExpiryCheck(old(auth.State()), decode, now);
              View() == Fetched(old(View()), check.0, reply)
              && auth.State() == if !check.0 && AuthRejected(reply) then AuthSession.Logout(check.1) else check.1
    {
      loading := true;
      var expired := auth.CheckTokenExpiration(decode, now);
      if expired {
        navigatedTo := Some(LoginPath);
        loading := false;
        return;
      }
      match reply {
        case NetworkDown =>
          error := FetchError;
        case Status(code, body) =>
          if code == 401 || code == 403 {
            auth.AdminLogout();
            navigatedTo := Some(LoginPath);
          } else if !(200 <= code <= 299) {
            error := FetchError;
          } else {
            match body {
              case Listed(ps, totalPages, total) =>
                properties := ps;
                pagination := pagination.(totalPages := totalPages, totalProperties := total);
              case Unsuccessful(message) =>
                error := AuthSession.OrElse(message, "Failed to fetch properties");
              case Unreadable =>
                error := FetchError;
            }
          }
      }
      loading := false;
    }

    /**
     * `updatePropertyCategory(id, categoryData)`: only a successful reply merges
     * the sent flags into the rows with that id; the result says whether it did.
     */
    method UpdatePropertyCategory(id: string, categoryData: map<string, bool>, reply: Reply<bool>,
                                  decode: string -> AuthSession.Decoded, now: real) returns (ok: bool)
      modifies this, auth
      ensures var check := AuthSession.ExpiryCheck(old(auth.State()), decode, now);
              ok == (!check.0 && Ok(reply) && reply.body)
              && properties == (if ok then MergeCategory(old(properties), id, categoryData) else old(properties))
              && navigatedTo == (if check.0 || AuthRejected(reply) then Some(LoginPath) else old(navigatedTo))
              && auth.State() == (if !check.0 && AuthRejected(reply) then AuthSession.Logout(check.1) else check.1)
      ensures loading == old(loading) && error == old(error) && pagination == old(pagination) && selected == old(selected)
    {
      var expired := auth.CheckTokenExpiration(decode, now);
      if expired {
        navigatedTo := Some(LoginPath);
        return false;
      }
      if reply.Status? && (reply.code == 401 || reply.code == 403) {
        auth.AdminLogout();
        navigatedTo := Some(LoginPath);
        return false;
      }
      if !Ok(reply) || !reply.body {
        return false;
      }
      properties := MergeCategory(properties, id, categoryData);
      return true;
    }

    /**
     * `bulkUpdateCategories(categoryData)`: a successful reply clears the
     * selection and asks for the list again; the answer says whether it did.
     */
    method BulkUpdateCategories(reply: Reply<bool>, decode: string -> AuthSession.Decoded, now: real) returns (refetch: bool)
      modifies this, auth
      ensures var check := AuthSession.ExpiryCheck(old(auth.State()), decode, now);
              refetch == (!check.0 && Ok(reply) && reply.body)
              && selected == (if refetch then [] else old(selected))
              && navigatedTo == (if check.0 || AuthRejected(reply) then Some(LoginPath) else old(navigatedTo))
              && auth.State() == (if !check.0 && AuthRejected(reply) then AuthSession.Logout(check.1) else check.1)
      ensures properties == old(properties) && loading == old(loading) && error == old(error) && pagination == old(pagination)
    {
      var expired := auth.CheckTokenExpiration(decode, now);
      if expired {
        navigatedTo := Some(LoginPath);
        return false;
      }
      if reply.Status? && (reply.code == 401 || reply.code == 403) {
        auth.AdminLogout();
        navigatedTo := Some(LoginPath);
        return false;
      }
      if Ok(reply) && reply.body {
        selected := [];
        return true;
      }
      return false;
    }

    method OnSelectAll(checked: bool)
      modifies this`selected
      ensures selected == SelectAll(properties, checked)
    {
      if checked {
        selected := seq(|properties|, i requires 0 <= i < |properties| reads this => properties[i].id);
      } else {
        selected := [];
      }
    }

    method OnSelectRow(id: string, checked: bool)
      modifies this`selected
      ensures selected == SelectRow(old(selected), id, checked)
    {
      if checked {
        selected := selected + [id];
      } else {
        selected := Lists.RemoveAll(selected, id);
      }
    }

    /** The page buttons: Previous, Next and a numbered button. */
    method GoToPage(page: int)
      modifies this`pagination
      ensures pagination == old(pagination).(currentPage := page)
    {
      pagination := pagination.(currentPage := page);
    }
  }
}
