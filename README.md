# A verified model of the property site's front end

This project models the logic of a React front end for a property-listing site. The model covers:

- the admin session kept in browser storage, with token expiry, restore on mount, login, logout and the periodic check;
- the API client's header, 401 and result-wrapping rules, and its request URLs;
- the route table and the guard around admin pages;
- the five-step "post property" wizard and its submission pipeline;
- the admin moderation table, with category toggles, bulk updates, row selection, badges and pagination;
- the public property page and listing page: fallbacks, gallery, breadcrumb, enquiry, filters in the URL, request parameters and pager;
- the search boxes (desktop and mobile) and the route a search leads to, including URL encoding;
- the photo and video pickers;
- the filter sidebar, the listing card and the city picker;
- the three carousels (highlighted projects, testimonials, the mobile hero slider).

Components that change their state step by step are classes. Their methods state the new state as a function of the old one. Pure computations are functions, and the properties the site relies on are proved as lemmas about those functions. Browser storage is a `map<string, string>`. Server replies, upload results, the JWT decoder, the clock and `JSON.parse`/`JSON.stringify` are parameters of the operations that use them.

## Model

| member | source | states |
|---|---|---|
| AuthSession.GetItem | src/Context/AuthContext.jsx:38 | reading a key yields `null` exactly when the key is absent, and otherwise the stored text |
| AuthSession.IsTokenExpired | src/Context/AuthContext.jsx:16-34 | a missing or empty token and a token the decoder rejects are expired; a decodable token with a truthy `exp` is expired exactly when `exp` is below now + 60; an absent or zero `exp` never expires |
| AuthSession.ExpiryBoundary | src/Context/AuthContext.jsx:24 | a token whose `exp` is exactly now + 60 is still live, and it is expired one second later |
| AuthSession.ExpiryMonotone | src/Context/AuthContext.jsx:21-24 | once expired, a token stays expired as the clock advances |
| AuthSession.Initial | src/Context/AuthContext.jsx:11-13 | the first render has no admin, is not authenticated and is loading |
| AuthSession.Restore | src/Context/AuthContext.jsx:49-80 | after mounting, loading is over; the admin is signed in exactly when both keys are stored, the token is live and the profile parses, and then `admin` is the parsed profile; with one key missing storage is untouched; with both stored but no sign-in, `adminToken` and `adminData` are removed; the 60-second check is armed except on the early return |
| AuthSession.RestoreKeepsOtherKeys | src/Context/AuthContext.jsx:55-69 | mounting never removes `adminEmail` or the user `token` |
| AuthSession.RestoreWithOneKey | src/Context/AuthContext.jsx:53-72 | with only one of the two keys stored, nothing is removed and the admin stays signed out |
| AuthSession.Logout | src/Context/AuthContext.jsx:126-132 | the three admin keys are removed and nothing else; the admin is cleared and not authenticated |
| AuthSession.LogoutIdempotent | src/Context/AuthContext.jsx:126-132 | signing out twice equals signing out once, and the user `token` is kept |
| AuthSession.ExpiryCheck | src/Context/AuthContext.jsx:37-46 | returns true exactly when a stored `adminToken` is truthy and expired, and then the state is the signed-out state; otherwise the state is unchanged |
| AuthSession.CheckLeavesNoExpiredToken | src/Context/AuthContext.jsx:37-46 | after a check no truthy expired `adminToken` remains stored |
| AuthSession.Tick | src/Context/AuthContext.jsx:75-79 | a firing of the interval runs the expiry check only while it is scheduled |
| AuthSession.OrElse | src/Context/AuthContext.jsx:113-120 | the JavaScript or-fallback: the server text when truthy, else the fallback |
| AuthSession.SetItem | src/Context/AuthContext.jsx:99-100 | the key holds the new value (`"undefined"` for a missing one) and every other key is kept |
| AuthSession.Login | src/Context/AuthContext.jsx:83-123 | success exactly when the server replied with `success`; then both keys are stored, the admin is set and authenticated and the message returned; otherwise the state is unchanged and a non-empty error is returned, the server's `error` or `Login failed` / `Network error. Please try again.`; the loading flag and the expiry check are never touched |
| AuthSession.LoginThenRestore | src/Context/AuthContext.jsx:49-109 | a successful login with a live token and a profile that parses back is restored by the next mount |
| AuthSession.GetAdminToken | src/Context/AuthContext.jsx:135-137 | yields the stored `adminToken`, or `null` when absent |
| AuthSession.AuthProvider.constructor | src/Context/AuthContext.jsx:10-13 | the provider starts in the initial state over the existing storage |
| AuthSession.AuthProvider.AdminLogout | src/Context/AuthContext.jsx:126-132 | the new state is `Logout` of the old one |
| AuthSession.AuthProvider.MountEffect | src/Context/AuthContext.jsx:49-80 | the new state is `Restore` of the stored keys |
| AuthSession.AuthProvider.CheckTokenExpiration | src/Context/AuthContext.jsx:37-46 | the result and new state are those of `ExpiryCheck` |
| AuthSession.AuthProvider.IntervalTick | src/Context/AuthContext.jsx:75-77 | the new state is that of one `Tick` |
| AuthSession.AuthProvider.Unmount | src/Context/AuthContext.jsx:79 | the interval is cleared and nothing else changes |
| AuthSession.AuthProvider.AdminLogin | src/Context/AuthContext.jsx:83-123 | the result and new state are those of `Login`, so the loading flag and the expiry interval stay as they were |
| ApiClient.AuthToken | src/Context/AppContext.jsx:22-24 | the admin token or else the user token: the admin token whenever it is truthy, else the user token when truthy, else nothing usable |
| ApiClient.AuthorizationHeader | src/Context/AppContext.jsx:22-28 | a header is set exactly when one of the two tokens is truthy; it is `Bearer ` followed by the admin token when that one is truthy |
| ApiClient.HeaderIgnoresOtherKeys | src/Context/AppContext.jsx:22-28 | the header does not depend on any stored key but the two tokens |
| ApiClient.UnauthorizedCleanup | src/Context/AppContext.jsx:42-44 | a 401 removes `token`, `adminToken` and `adminData` and keeps every other key with its value |
| ApiClient.CleanupPathsDiffer | src/Context/AppContext.jsx:42-44 | a 401 keeps `adminEmail` and drops the user token, while logout and the mount-time clean-up keep the user token |
| ApiClient.LoginPathFor | src/Context/AppContext.jsx:47-51 | a 401 on a path containing `/admin` goes to `/admin/login`, on any other path to `/login` |
| ApiClient.Browser.constructor | src/Context/AppContext.jsx:9-16 | the client starts over the given storage and location, with no navigation |
| ApiClient.Browser.AttachAuthorization | src/Context/AppContext.jsx:19-30 | the request headers gain `Authorization` when a token is stored and are otherwise unchanged |
| ApiClient.Browser.OnResponseError | src/Context/AppContext.jsx:37-55 | the error is rejected unchanged; a 401 clears the three keys and navigates to the login page for the current path; any other error changes nothing |
| ApiClient.WrapAdmin | src/Context/AppContext.jsx:60-175 | an admin call succeeds exactly when the request was answered, carrying the body; a failure carries the server's `message` when truthy, else the call's fallback, never an empty error |
| ApiClient.WrapPublic | src/Context/AppContext.jsx:73-192 | a public call returns the server body exactly when answered; a failure carries the server's `error`, else the exception message, else the call's fallback |
| ApiClient.BackendUrl | src/Context/AppContext.jsx:76 | the configured backend when truthy, else the local default; never empty |
| ApiClient.EncodePair | src/Context/AppContext.jsx:75 | a pair is the form-encoded key, `=`, then the form-encoded value, so it holds `=` and never `&` |
| ApiClient.EncodePairDecodes | src/Context/AppContext.jsx:75 | a written pair splits at `=` into exactly two pieces, and form-decoding them gives back the UTF-8 bytes of the key and of the value |
| ApiClient.SerialiseEmpty | src/Context/AppContext.jsx:75-76 | the query text is empty exactly when there are no parameters |
| ApiClient.SerialiseSplits | src/Context/AppContext.jsx:75 | splitting the query text on `&` gives back one encoded pair per parameter, in order |
| ApiClient.ListUrl | src/Context/AppContext.jsx:75-94 | `?` and the query text follow the path only when there are parameters |
| ApiClient.AllLocationsUrl | src/Context/AppContext.jsx:76 | the URL is the backend and `/api/properties/all-locations`, followed by `?` and the serialised parameters exactly when there are parameters |
| ApiClient.ByLocationUrl | src/Context/AppContext.jsx:94 | the URL is the backend, `/api/properties/properties/` and the location as given, followed by `?` and the serialised parameters exactly when there are parameters |
| ApiClient.PropertyUrl | src/Context/AppContext.jsx:124 | the URL is the configured backend, or `http://localhost:5000` when none is configured, then `/api/properties/property/` and the id |
| ApiClient.SearchUrl | src/Context/AppContext.jsx:180 | after the `search?query=` prefix comes exactly `encodeURIComponent` of the query: only characters that cannot add parameters, and percent-decoding them gives back the query's UTF-8 bytes |
| ApiClient.AdminPath | src/Context/AppContext.jsx:60-175 | create posts to `/`, the listing reads `/properties`, approve goes to `/properties/<id>/approve`, reject to `/properties/<id>/reject` and delete to `/properties/<id>` |
| AppRoutes.GuardedRoutesAreAdminPages | src/App.jsx:21-89 | the routes wrapped in `ProtectedRoute` are exactly those below `/admin/` other than `/admin/login`; `/admin` and `/admin/login` are not guarded |
| AppRoutes.AdminRedirect | src/App.jsx:97-113 | only the spinner while loading; once loaded, a replace-navigation to `/admin/dashboard` when signed in and to `/admin/login` otherwise; never the children |
| AppRoutes.Element | src/App.jsx:20-90 | an unguarded page route shows its own page; a guarded route shows the spinner while loading, its page once loaded and signed in, and otherwise redirects to /admin/login; `/admin` shows the spinner, then redirects to the dashboard or the login page |
| AppRoutes.AdminRedirectSettles | src/App.jsx:64-111 | once loaded, `/admin` navigates to a route that shows its page at once |
| ProtectedRoute.Guard | src/components/ProtectedRoute.jsx:4-22 | the spinner exactly while loading; the children exactly when loaded and signed in; otherwise a replace-navigation to `/admin/login` |
| ProtectedRoute.GuardAfterRestore | src/components/ProtectedRoute.jsx:8-21 | right after the mount effect a guarded page shows exactly when the stored session was restorable, and never the spinner |
| ProtectedRoute.GuardBeforeRestore | src/components/ProtectedRoute.jsx:8-14 | before the mount effect every guarded page shows only the spinner |
| ProtectedRoute.GuardAfterLogout | src/components/ProtectedRoute.jsx:16-21 | after a logout, or an expiry check that signed out, no guarded page shows its children |
| Breadcrumb.ItemNode | src/components/Breadcrumb.jsx:19-29 | item `i` is a link exactly when it has an href and is not the last item, and then it links to that href; it keeps its text; plain text is bold exactly for the last item |
| Breadcrumb.RenderFrom | src/components/Breadcrumb.jsx:16-31 | each item from `k` on appears in order, preceded by exactly one separator |
| Breadcrumb.Render | src/components/Breadcrumb.jsx:9-32 | Home links to `/` first; then every item in order behind one separator, a link to its own href exactly when it has one and is not last, otherwise text that is bold only for the last item |
| PostPropertyWizard.Continue | src/pages/admin-view/AdminPostPropertyPage.jsx:82-86 | the step advances by one below the fifth step and stays put at or past it, so it never leaves 1..5 |
| PostPropertyWizard.Back | src/pages/admin-view/AdminPostPropertyPage.jsx:88-92 | the step goes back by one above the first step and stays put at or before it, so it never leaves 1..5 |
| PostPropertyWizard.StepsInverse | src/pages/admin-view/AdminPostPropertyPage.jsx:82-92 | Back undoes Continue from every step but the last, and Continue undoes Back from every step but the first |
| PostPropertyWizard.PropertyScore | src/pages/admin-view/AdminPostPropertyPage.jsx:80 | the score is 12, 27 and 53 on steps 1, 2 and 3 and 65 on any other step |
| PostPropertyWizard.ScoreMonotone | src/pages/admin-view/AdminPostPropertyPage.jsx:80 | moving forward through the five steps never lowers the score |
| PostPropertyWizard.UpdateFormData | src/pages/admin-view/AdminPostPropertyPage.jsx:94-96 | the named field holds the new value; every other field keeps its presence and its value |
| PostPropertyWizard.ToggleArrayItem | src/pages/admin-view/AdminPostPropertyPage.jsx:98-106 | the item is in the list afterwards exactly when it was not before; other items keep their membership; an absent item is appended at the end; other fields are unchanged |
| PostPropertyWizard.ToggleTwice | src/pages/admin-view/AdminPostPropertyPage.jsx:98-106 | toggling an absent item twice gives back the original form |
| PostPropertyWizard.DecrementParking | src/pages/admin-view/AdminPostPropertyPage.jsx:991 | the minus button lowers a positive counter by one and sets a counter below one to 0; no other field changes |
| PostPropertyWizard.IncrementParking | src/pages/admin-view/AdminPostPropertyPage.jsx:1003 | the plus button adds one to the counter; no other field changes |
| PostPropertyWizard.ParkingStaysNonNegative | src/pages/admin-view/AdminPostPropertyPage.jsx:52-53 | a parking counter that starts at zero or above stays at zero or above under any sequence of plus and minus presses |
| PostPropertyWizard.UploadAll | src/pages/admin-view/AdminPostPropertyPage.jsx:161-166 | the upload yields URLs exactly when every photo uploads; the URL list then has one entry per photo, in photo order |
| PostPropertyWizard.UploadPhotos | src/pages/admin-view/AdminPostPropertyPage.jsx:157-174 | uploading the photos one by one and stopping at the first failure gives the same result as UploadAll |
| PostPropertyWizard.PhotosToUpload | src/pages/admin-view/AdminPostPropertyPage.jsx:158 | the photos uploaded are exactly the photo list stored in the form, in its order, and none when the form holds no photo list |
| PostPropertyWizard.VideoToUpload | src/pages/admin-view/AdminPostPropertyPage.jsx:178 | the form's video is uploaded exactly when its entry carries a file |
| PostPropertyWizard.Payload | src/pages/admin-view/AdminPostPropertyPage.jsx:193-197 | the payload's photos are the uploaded URLs and its video the video URL; every other field is copied from the form |
| PostPropertyWizard.Submit | src/pages/admin-view/AdminPostPropertyPage.jsx:139-200 | submission stops with a location error exactly when city or locality is falsy; it stops with an area-or-price error exactly when both are present but plot area or price is falsy; photos are uploaded first, and a failed photo upload stops it; a failed video upload stops it only after the photos succeeded; it reaches the backend only when every upload succeeded, with the payload built from the uploaded URLs |
| PostPropertyWizard.InitialFormNeedsPrice | src/pages/admin-view/AdminPostPropertyPage.jsx:14-70 | the fresh form, with an empty expected price, always stops at the area-and-price check |
| PostPropertyWizard.PayloadKeepsForm | src/pages/admin-view/AdminPostPropertyPage.jsx:193-197 | a sent payload carries one URL per photo and keeps every other field the admin filled in |
| PostPropertyWizard.AlertFor | src/pages/admin-view/AdminPostPropertyPage.jsx:145-259 | every outcome ends with a non-empty alert |
| PostPropertyWizard.After | src/pages/admin-view/AdminPostPropertyPage.jsx:202-260 | only a backend success resets the form to its initial values and returns to step 1; every other outcome keeps the form and the step |
| PostPropertyWizard.PostPropertyPage.constructor | src/pages/admin-view/AdminPostPropertyPage.jsx:12-14 | the page opens on step 1 with the initial form, not submitting and with no alert |
| PostPropertyWizard.PostPropertyPage.HandleContinue | src/pages/admin-view/AdminPostPropertyPage.jsx:82-86 | the page's step becomes Continue of the old step and stays within 1..5 |
| PostPropertyWizard.PostPropertyPage.HandleBack | src/pages/admin-view/AdminPostPropertyPage.jsx:88-92 | the page's step becomes Back of the old step and stays within 1..5 |
| PostPropertyWizard.PostPropertyPage.SetField | src/pages/admin-view/AdminPostPropertyPage.jsx:94-96 | the page's form becomes UpdateFormData of the old form |
| PostPropertyWizard.PostPropertyPage.ToggleItem | src/pages/admin-view/AdminPostPropertyPage.jsx:98-106 | the page's form becomes ToggleArrayItem of the old form |
| PostPropertyWizard.PostPropertyPage.HandleSubmitProperty | src/pages/admin-view/AdminPostPropertyPage.jsx:139-266 | the outcome is Submit of the old form; the form and step then follow After; the busy flag always ends lowered and the alert shown is AlertFor of the outcome |
| ListingModeration.Fetched | src/pages/admin-view/AllPropertyListing.jsx:30-93 | as written: every outcome lowers the loading flag and keeps the selection, the page and the limit; an expired session or a 401/403 reply only navigates to the login page; a successful listing replaces the rows and the page totals but leaves any earlier error in place; a network failure, a non-2xx status or unreadable text sets `Error fetching properties`; a `success: false` reply sets the server message or `Failed to fetch properties`; a failure keeps the rows |
| ListingModeration.DisplayOf | src/pages/admin-view/AllPropertyListing.jsx:369-378 | the spinner shows exactly while loading; otherwise a set error shows as its text; with no error, an empty list shows the no-properties notice and any other list shows as the table of those rows |
| ListingModeration.ErrorOutlivesSuccess | src/pages/admin-view/AllPropertyListing.jsx:12 | as written, once an error is set, a later successful fetch still shows the old error instead of the rows |
| ListingModeration.FetchedClearingError | src/pages/admin-view/AllPropertyListing.jsx:30-93 | corrected: an expired session or a 401/403 reply behaves as written; otherwise the page shows an error exactly when this fetch failed, and everything else is as written |
| ListingModeration.CorrectedFetchShowsRows | src/pages/admin-view/AllPropertyListing.jsx:76-83 | corrected: a successful fetch always shows its rows, or the empty notice when there are none |
| ListingModeration.FindById | src/pages/admin-view/AllPropertyListing.jsx:143 | the row found is the first row with the id; nothing is found exactly when no row has the id |
| ListingModeration.MergeCategory | src/pages/admin-view/AllPropertyListing.jsx:128-130 | the rows keep their number, ids and statuses; rows with other ids are unchanged; rows with the id take every sent flag and keep every flag not sent |
| ListingModeration.MergeIdempotent | src/pages/admin-view/AllPropertyListing.jsx:128-130 | applying the same category update twice equals applying it once |
| ListingModeration.ToggleRequest | src/pages/admin-view/AllPropertyListing.jsx:142-149 | the request holds the negation of the row's current flag, and there is no request exactly when no row has the id |
| ListingModeration.ToggleFlipsFlag | src/pages/admin-view/AllPropertyListing.jsx:142-149 | a toggle whose update succeeds flips that flag on the row |
| ListingModeration.SelectAll | src/pages/admin-view/AllPropertyListing.jsx:390-395 | ticking the header checkbox selects every listed id in order; clearing it selects none |
| ListingModeration.SelectRow | src/pages/admin-view/AllPropertyListing.jsx:415-420 | ticking a row appends its id; clearing it removes every copy of the id and keeps every other id, in order and as many times as before |
| ListingModeration.SelectRowUndo | src/pages/admin-view/AllPropertyListing.jsx:415-420 | ticking and then clearing a row that was not selected restores the selection |
| ListingModeration.GetStatusBadge | src/pages/admin-view/AllPropertyListing.jsx:204-211 | pending, approved and rejected each get their own style, and every other status gets the default style |
| ListingModeration.GetCategoryBadges | src/pages/admin-view/AllPropertyListing.jsx:214-223 | a category's badge is shown exactly when the property's flag for it is set, and badges appear in the fixed order Featured, Top Pick, Highlighted, Investment, Recently Added |
| ListingModeration.SummaryRange | src/pages/admin-view/AllPropertyListing.jsx:538 | the summary starts at (page - 1) * limit + 1 and ends at the smaller of page * limit and the total |
| ListingModeration.SummaryWithinTotal | src/pages/admin-view/AllPropertyListing.jsx:538 | on a page that holds rows, the summary names between one and limit rows, none past the total |
| ListingModeration.PaginationBar | src/pages/admin-view/AllPropertyListing.jsx:535-570 | the bar shows exactly when there is more than one page; Previous is disabled exactly on page 1 and Next exactly on the last page; there are exactly min(5, pages) numbered buttons, numbered 1, 2, … in order |
| ListingModeration.PagingStaysInRange | src/pages/admin-view/AllPropertyListing.jsx:541-568 | pressing an enabled Previous or Next keeps the page between 1 and the last page |
| ListingModeration.ListingPage.constructor | src/pages/admin-view/AllPropertyListing.jsx:10-27 | the page opens with no rows, loading, no error, the first page and no selection |
| ListingModeration.ListingPage.FetchProperties | src/pages/admin-view/AllPropertyListing.jsx:30-93 | the page's state becomes Fetched of its old state, keeping an earlier error, and the session is signed out exactly when the token is live and the reply is 401/403 |
| ListingModeration.ListingPage.UpdatePropertyCategory | src/pages/admin-view/AllPropertyListing.jsx:96-140 | the update succeeds exactly when the session is live and the reply succeeds; only then are the flags merged into the rows; an expired session or a 401/403 reply navigates to the login page; loading, error, paging and selection are unchanged |
| ListingModeration.ListingPage.BulkUpdateCategories | src/pages/admin-view/AllPropertyListing.jsx:157-197 | a live session and a successful reply clear the selection and ask for the list again; an expired session or a 401/403 reply navigates to the login page; the rows are unchanged |
| ListingModeration.ListingPage.OnSelectAll | src/pages/admin-view/AllPropertyListing.jsx:390-395 | the selection becomes SelectAll of the rows |
| ListingModeration.ListingPage.OnSelectRow | src/pages/admin-view/AllPropertyListing.jsx:415-420 | the selection becomes SelectRow of the old selection |
| ListingModeration.ListingPage.GoToPage | src/pages/admin-view/AllPropertyListing.jsx:541-568 | only the current page changes, to the requested one |
| PropertyRecord.WithUnit | src/pages/PropertyDetailPage.jsx:245-248 | an area is the value, a space, then the property's own unit when it gives one and the default unit otherwise; the detail page defaults to `sq.ft.` and the card to `sq.ft` (src/components/PropertyCard.jsx:16-18) |
| PropertyRecord.PhotosOr | src/pages/PropertyDetailPage.jsx:236-238 | the gallery shows the photos when there are any and the placeholder alone otherwise, so it is never empty; the card does the same with its own placeholder (src/components/PropertyCard.jsx:25-27) |
| PropertyRecord.PriceOr | src/pages/PropertyDetailPage.jsx:242 | the price is the currency sign before the expected price, and `Price on request` exactly when there is no expected price; the detail page writes `₹` and the card `₹ ` (src/components/PropertyCard.jsx:13) |
| PropertyDetail.SuperBuiltArea | src/pages/PropertyDetailPage.jsx:245-246 | the built-up area is preferred over the plot area, each with its unit, and the text is `N/A` exactly when both are missing |
| PropertyDetail.CarpetArea | src/pages/PropertyDetailPage.jsx:247 | the carpet area with its unit, and `N/A` exactly when it is missing |
| PropertyDetail.Format | src/pages/PropertyDetailPage.jsx:234-302 | the title is the bedrooms or `3`, ` BHK `, then the sub-type or `Apartment`; the location is locality, `, `, city, each empty when missing; there is at least one image; the plot area is shown with its unit exactly when given; the price per square foot is `₹<value> per sq.ft.` exactly when given; the owner is verified exactly when the status is approved |
| PropertyDetail.CitySlug | src/pages/PropertyDetailPage.jsx:315 | the slug is the lowercased city read character by character, each white-space run becoming one `-`; it holds no white space and no capital letter, and a city already in that form is its own slug |
| PropertyDetail.LinkedCrumbs | src/pages/PropertyDetailPage.jsx:309-329 | the linked crumbs are Properties, then the city crumb when there is a city, then the type crumb when there is a type; each carries an href |
| PropertyDetail.TrailingCrumbs | src/pages/PropertyDetailPage.jsx:331-350 | the unlinked crumbs are the locality crumb when there is a locality, then the bedrooms crumb when there are both bedrooms and a locality, or else the apartment; none carries an href |
| PropertyDetail.BreadcrumbItems | src/pages/PropertyDetailPage.jsx:306-353 | the breadcrumb holds 1 to 5 crumbs, starting with Properties; it has a city, type, locality and final crumb exactly when the listing has those fields; exactly the crumbs before the locality carry an href |
| PropertyDetail.EnquiryFor | src/pages/PropertyDetailPage.jsx:151-175 | nothing is posted exactly when the name or the phone is empty; the email falls back to the no-email address when empty or absent; the property id falls back to the route id |
| PropertyDetail.SubmitContact | src/pages/PropertyDetailPage.jsx:148-198 | a missing name or phone alerts and keeps the form; a successful reply alerts its message and resets the form; a failed reply or connection keeps the form and alerts the reply's error, the default text or the connection message |
| PropertyDetail.NoResendAfterReset | src/pages/PropertyDetailPage.jsx:180-188 | after a successful enquiry the reset form has no name, so submitting again posts nothing |
| PropertyDetail.GalleryRoundTrip | src/pages/PropertyDetailPage.jsx:133-141 | for every formatted property, the previous-image arrow undoes the next-image arrow |
| PropertyDetail.DetailPage.constructor | src/pages/PropertyDetailPage.jsx:65-76 | the loaded page starts on image 0 with the initial enquiry form, not submitting, with no alert and nothing posted |
| PropertyDetail.DetailPage.NextImage | src/pages/PropertyDetailPage.jsx:133-136 | the image index advances cyclically over the images and nothing else changes |
| PropertyDetail.DetailPage.PrevImage | src/pages/PropertyDetailPage.jsx:138-141 | the image index steps back cyclically over the images and nothing else changes |
| PropertyDetail.DetailPage.ShowImage | src/pages/PropertyDetailPage.jsx:436 | a thumbnail click shows that image and nothing else changes |
| PropertyDetail.DetailPage.EditContact | src/pages/PropertyDetailPage.jsx:1016 | a form edit replaces the enquiry form and nothing else changes |
| PropertyDetail.DetailPage.HandleContactSubmit | src/pages/PropertyDetailPage.jsx:148-198 | the form, the alert and what is posted follow SubmitContact; the busy flag is lowered after any request |
| PropertyListing.Get | src/pages/PropertyListingPage.jsx:59-66 | `get` answers null exactly when the key has no entry, and otherwise the key's first value |
| PropertyListing.DeleteKey | src/pages/PropertyListingPage.jsx:36 | `delete` leaves no entry for the key, keeps every other key's values in order, and changes nothing when the key is absent |
| PropertyListing.SetKey | src/pages/PropertyListingPage.jsx:34 | `set` leaves the key with exactly the one new value and the other entries as `delete` would leave them |
| PropertyListing.SetKeepsOthers | src/pages/PropertyListingPage.jsx:34 | setting one key leaves the values of every other key as they were |
| PropertyListing.ApplyFilter | src/pages/PropertyListingPage.jsx:32-38 | one filter leaves its key holding just its value when the value is truthy and no value otherwise; other keys keep their values |
| PropertyListing.FilterChangeEffect | src/pages/PropertyListingPage.jsx:25-43 | after a filter change each named key holds exactly its truthy value, or nothing when the value is falsy; keys the filters do not name keep their values |
| PropertyListing.RequestParams | src/pages/PropertyListingPage.jsx:56-67 | the request parameters are the page, the limit 20 and then each of the eight copied keys with its URL value, in that order |
| PropertyListing.Pruned | src/pages/PropertyListingPage.jsx:70-72 | the clean-up keeps only entries with a non-null, non-empty value; every kept entry comes from the original list, and every entry with a truthy value is kept |
| PropertyListing.PruneParams | src/pages/PropertyListingPage.jsx:70-72 | the clean-up loop yields exactly Pruned of the raw parameters |
| PropertyListing.RequestAlwaysPaged | src/pages/PropertyListingPage.jsx:56-72 | the cleaned request always starts with the page and the limit of 20, whatever the URL holds |
| PropertyListing.FetchUrl | src/pages/PropertyListingPage.jsx:78-85 | a truthy location selects the backend URL `/api/properties/properties/<location>`, otherwise `/api/properties/all-locations`, in both cases with `?` and the parameters only when there are parameters |
| PropertyListing.Loaded | src/pages/PropertyListingPage.jsx:88-103 | a fetch ends not loading; there is no error exactly when the answered body has a truthy `success` and a `data` object; then the rows are shown, or none when they are missing, with the given total and page count, or 0 and one page when those are missing or zero; a body whose `success` is false or missing shows its `error`, else 'Failed to fetch properties'; a `success` body without `data` shows the caught exception's text; a failed call shows its error, else the same default; every error keeps the rows and totals |
| PropertyListing.PagerHiddenWithoutPages | src/pages/PropertyListingPage.jsx:277 | a fetch that did not succeed, or a reply that names no page count, hides the pager |
| PropertyListing.FormatLocationName | src/pages/PropertyListingPage.jsx:116-121 | a missing or empty location reads `All Locations` |
| PropertyListing.HeadingKeepsWords | src/pages/PropertyListingPage.jsx:116-121 | for a location without spaces, splitting the heading on spaces gives back exactly the capitalised dash-separated words |
| PropertyListing.Pager | src/pages/PropertyListingPage.jsx:277-323 | the pager holds Previous, the numbered pages 1 to min(5, total) in order, then an ellipsis and the last page only when there are more than five pages, then Next; Previous is disabled exactly on page 1 and Next exactly on the last page; a numbered button is active exactly on the current page |
| PropertyListing.PagerStaysInRange | src/pages/PropertyListingPage.jsx:277-323 | from a page in range, every enabled button leads to a page in range |
| PropertyListing.ListingPage.constructor | src/pages/PropertyListingPage.jsx:11-22 | the page opens on page 1 with no applied filters, the filter panel closed and the initial view |
| PropertyListing.ListingPage.HandleFilterChange | src/pages/PropertyListingPage.jsx:25-43 | the search parameters become ApplyFilters of the old ones; the applied filters are recorded, the page returns to 1 and the filter panel closes |
| PropertyListing.ListingPage.HandlePageChange | src/pages/PropertyListingPage.jsx:110-113 | only the current page changes |
| PropertyListing.ListingPage.FetchProperties | src/pages/PropertyListingPage.jsx:46-104 | the request goes to FetchUrl with the cleaned parameters of the current page and URL; the view becomes Loaded of the old view with its error cleared, so a body whose `success` is false shows its error and keeps the rows |
| HeroSearch.FirstCityFrom | src/components/HeroBanner.jsx:74 | the scan from position k finds the first city at or after k that the term contains, and finds none exactly when no city from k on is contained |
| HeroSearch.FoundCity | src/components/HeroBanner.jsx:73-74 | the city found is the first of the eight cities, in their fixed order, that the term contains; none is found exactly when the term contains none of them |
| HeroSearch.PurposeParams | src/components/HeroBanner.jsx:61-62 | the Rent tab adds `purpose=rent`, the Buy tab adds `purpose=buy`, and every other tab adds nothing |
| HeroSearch.TypeParams | src/components/HeroBanner.jsx:64-66 | `All Residential` adds no type parameter, and exactly every other type adds the lowercased type with its first `/` made `-` |
| HeroSearch.RecognisedCity | src/components/HeroBanner.jsx:69-74 | a recognised city is one of the eight cities, occurs in the trimmed, lowercased query, and no city before it in the list occurs there; none is recognised exactly when the query contains none of them |
| HeroSearch.SearchRouteCases | src/components/HeroBanner.jsx:55-80 | a blank query leads nowhere; any other leads to `/properties` or `/properties/<city>`, followed by `?` and the parameters only when there are any |
| HeroSearch.Banner.constructor | src/components/HeroBanner.jsx:8-13 | the banner opens on the Buy tab with `All Residential`, an empty query, no suggestions and nothing searched |
| HeroSearch.Banner.QueryChanged | src/components/HeroBanner.jsx:21-51 | the query is stored; a debounced search is due exactly when the query has at least two characters; a shorter query clears and hides the suggestions |
| HeroSearch.Banner.SuggestionsArrived | src/components/HeroBanner.jsx:35-45 | a successful search shows its properties, or none when they are missing; a failed search empties the list; the busy flag ends lowered |
| HeroSearch.Banner.SelectTab | src/components/HeroBanner.jsx:185 | only the active tab changes |
| HeroSearch.Banner.SelectType | src/components/HeroBanner.jsx:218 | only the property type changes |
| HeroSearch.Banner.HandleSearch | src/components/HeroBanner.jsx:55-83 | a blank query changes nothing; otherwise the banner navigates to SearchRoute and hides the suggestions |
| HeroSearch.Banner.HandleSuggestionClick | src/components/HeroBanner.jsx:86-90 | a suggestion click opens `/property/<id>`, hides the list and empties the query; the list itself is emptied by the effect that follows the query change, which is `QueryChanged` |
| MobileSearch.TypeParams | src/components/MobileSearchModal.jsx:37-39 | `All Residential` adds no type parameter, and exactly every other type adds the lowercased type, with no other change |
| MobileSearch.RouteFor | src/components/MobileSearchModal.jsx:46-51 | a recognised city goes into a `city` query parameter ahead of the other parameters; without one the route is `/properties` with the parameters, if any |
| MobileSearch.SearchRouteCases | src/components/MobileSearchModal.jsx:29-51 | a blank query leads nowhere; any other leads to RouteFor of the recognised city and the purpose and type parameters |
| MobileSearch.Modal.constructor | src/components/MobileSearchModal.jsx:6-8 | the modal opens on the Buy tab with `All Residential`, an empty query, nothing navigated and no close calls |
| MobileSearch.Modal.HandleSearch | src/components/MobileSearchModal.jsx:29-54 | a blank query neither navigates nor closes the modal; otherwise the modal navigates to SearchRoute and closes once |
| MobileSearch.Modal.HandlePopularSearch | src/components/MobileSearchModal.jsx:56-58 | a popular search only fills the search box |
| MobileSearch.Modal.TopCity | src/components/MobileSearchModal.jsx:158-161 | a top-city button opens that city's lowercased listing and closes the modal once |
| MobileSearch.Modal.SelectTab | src/components/MobileSearchModal.jsx:82 | only the active tab changes |
| MobileSearch.Modal.SelectType | src/components/MobileSearchModal.jsx:98-99 | only the property type changes |
| ImageUpload.ValidateFile | src/components/ImageUpload.jsx:20-33 | an unknown MIME type gets the type error before any size check; a known type passes up to and including maxSizeMB × 1024 × 1024 bytes and gets the size error above it |
| ImageUpload.Accepted | src/components/ImageUpload.jsx:47-66 | the files that pass are exactly the batch's files with no validation error, in batch order |
| ImageUpload.ErrorsCount | src/components/ImageUpload.jsx:47-66 | every file of a batch is either accepted or reported by exactly one error |
| ImageUpload.AcceptedAppend | src/components/ImageUpload.jsx:47-66 | one more file in the batch adds itself to the accepted files exactly when it passes |
| ImageUpload.ErrorsAppend | src/components/ImageUpload.jsx:47-52 | one more file in the batch adds its error to the errors exactly when it fails |
| ImageUpload.Scan | src/components/ImageUpload.jsx:44-66 | the loop over a batch yields exactly the accepted files and the errors, each in batch order |
| ImageUpload.Uploader.constructor | src/components/ImageUpload.jsx:5-7 | the picker starts with the parent's images, its limits and no error |
| ImageUpload.Uploader.ProcessFiles | src/components/ImageUpload.jsx:35-72 | a batch that would exceed maxImages changes no image and shows the count error; otherwise the accepted files are added after the existing images when there are any, and the first error is shown, or none; the list never grows past maxImages, and a full (disabled) picker keeps its images |
| ImageUpload.Uploader.RemoveImage | src/components/ImageUpload.jsx:95-99 | removing an index in range drops just that image; any other index changes nothing; the error is cleared |
| ImageUpload.RemovalKeepsOthers | src/components/ImageUpload.jsx:96 | removing one image shortens the list by one and keeps every other image in order |
| VideoUpload.ValidateFile | src/components/VideoUpload.jsx:22-40 | a file whose MIME type is unknown and whose lowercased name has no known extension gets the type error first; a valid file passes up to and including maxSizeMB × 1024 × 1024 bytes and gets the size error above it |
| VideoUpload.UpperCaseExtensionPasses | src/components/VideoUpload.jsx:28-29 | a name ending in `.MP4` passes the type check whatever MIME type it has, because the name is lowercased first |
| VideoUpload.DurationCheck | src/components/VideoUpload.jsx:42-64 | a video whose metadata cannot load is rejected with the load error; a loaded video passes exactly when its duration is at most maxDurationMinutes × 60 seconds, and otherwise gets the duration error |
| VideoUpload.FormatDuration | src/components/VideoUpload.jsx:138-142 | the component's `formatDuration` helper, which no render calls: the whole minutes, `:`, then the remaining whole seconds, which lie in 0..59, padded to two digits |
| VideoUpload.SecondsFieldIsTwoDigits | src/components/VideoUpload.jsx:141 | the seconds field of `formatDuration`'s text always has exactly two characters |
| VideoUpload.Uploader.constructor | src/components/VideoUpload.jsx:5-8 | the picker starts with its limits, no error, not uploading and nothing reported |
| VideoUpload.Uploader.ProcessFile | src/components/VideoUpload.jsx:67-101 | a file failing the type or size check, or a too-long or unreadable video, shows that error and is not reported; a file passing both is reported to the parent with no error; the picker always ends not uploading |
| VideoUpload.Uploader.RemoveVideo | src/components/VideoUpload.jsx:124-127 | the parent is told there is no video, and the error is cleared |
| FilterSidebar.InitialIsWellFormed | src/components/PropertyFilterSidebar.jsx:5-23 | the initial state has a flag for every section and a duplicate-free list for every category |
| FilterSidebar.ToggleSection | src/components/PropertyFilterSidebar.jsx:25-30 | exactly the named section's flag flips, and every section keeps a flag |
| FilterSidebar.ToggleFilter | src/components/PropertyFilterSidebar.jsx:32-39 | within one category, the value is selected afterwards exactly when it was not before; other values keep their membership; an absent value is appended at the end; other categories, the budget and the availability are unchanged; lists stay duplicate-free |
| FilterSidebar.ToggleFilterTwice | src/components/PropertyFilterSidebar.jsx:32-39 | toggling an unselected value twice gives the selection back |
| FilterSidebar.WithMin | src/components/PropertyFilterSidebar.jsx:98-101 | the minimum-price input sets the minimum and keeps the maximum and every other choice |
| FilterSidebar.WithMax | src/components/PropertyFilterSidebar.jsx:111-114 | the maximum-price input sets the maximum and keeps the minimum and every other choice |
| FilterSidebar.ChooseAvailability | src/components/PropertyFilterSidebar.jsx:211 | an availability choice replaces the previous one and keeps every other choice |
| FilterSidebar.Sidebar.constructor | src/components/PropertyFilterSidebar.jsx:5-23 | the sidebar starts with the initial expansion flags and the initial selection |
| FilterSidebar.Sidebar.OnToggleSection | src/components/PropertyFilterSidebar.jsx:25-30 | the expansion flags become ToggleSection of the old flags |
| FilterSidebar.Sidebar.OnToggleFilter | src/components/PropertyFilterSidebar.jsx:32-39 | the selection becomes ToggleFilter of the old selection |
| FilterSidebar.Sidebar.ClearFilters | src/components/PropertyFilterSidebar.jsx:41-51 | the selection returns to its initial value |
| FilterSidebar.Sidebar.OnMinPrice | src/components/PropertyFilterSidebar.jsx:98-101 | the selection becomes WithMin of the old selection |
| FilterSidebar.Sidebar.OnMaxPrice | src/components/PropertyFilterSidebar.jsx:111-114 | the selection becomes WithMax of the old selection |
| FilterSidebar.Sidebar.OnAvailability | src/components/PropertyFilterSidebar.jsx:211 | the selection becomes ChooseAvailability of the old selection |
| PropertyCard.Area | src/components/PropertyCard.jsx:16-18 | the card prefers the carpet area, then the built-up area, then the plot area, each with its unit, and shows `N/A` exactly when none is given |
| PropertyCard.Location | src/components/PropertyCard.jsx:15 | the location is `locality, city` when both are given, and `Location` otherwise |
| PropertyCard.Title | src/components/PropertyCard.jsx:12 | the title is `Property` exactly when there is no subtype, and otherwise the bedrooms, ` BHK ` and the subtype |
| PropertyCard.PricePerSqft | src/components/PropertyCard.jsx:14 | the price per square foot is `₹ <value>/sqft` when the property gives one, and empty exactly when it gives none |
| PropertyCard.Card.constructor | src/components/PropertyCard.jsx:10-36 | the card starts on the first photo of its image list |
| PropertyCard.Card.ClickDot | src/components/PropertyCard.jsx:70-72 | a dot click shows that photo, and exactly that dot is highlighted |
| PropertyCard.CounterInRange | src/components/PropertyCard.jsx:62 | the counter reads `a/b`, where b is the number of photos and a lies between 1 and b |
| CitySearch.AllMatches | src/components/CitySearch.jsx:48-51 | the matches are a subsequence of the city list, in list order; each contains the lowercased term; every matching city is among them |
| CitySearch.AllMatchesKeepsCopies | src/components/CitySearch.jsx:48-51 | every matching entry is kept as many times as the list holds it, and no other entry is kept |
| CitySearch.FirstMatches | src/components/CitySearch.jsx:48-52 | the result is the first min(20, n) of the n matches, in list order |
| CitySearch.Filtered | src/components/CitySearch.jsx:38-55 | a blank term lists the ten top cities in their fixed order; any other term lists the first twenty matches in list order, or all of them when there are fewer |
| CitySearch.Picker.constructor | src/components/CitySearch.jsx:19-22 | the picker starts with an empty term, a closed dropdown, the list for a blank term and the parent's selected city |
| CitySearch.Picker.TermChanged | src/components/CitySearch.jsx:90-94 | the term changes, the dropdown opens and the list is Filtered for the new term |
| CitySearch.Picker.SelectCity | src/components/CitySearch.jsx:57-61 | the city is reported to the parent and becomes the selection; the term empties and the dropdown closes, so it is not shown |
| CitySearch.Picker.ClearCity | src/components/CitySearch.jsx:63-66 | the empty city is reported and becomes the selection, and the term empties |
| CitySearch.Picker.ClickInput | src/components/CitySearch.jsx:95 | a click in the box opens the dropdown, which shows exactly when no city is selected |
| CitySearch.Picker.ClickOutside | src/components/CitySearch.jsx:26-35 | a click outside closes the dropdown, so it is not shown |
| Cyclic.Next | src/components/Testimonials.jsx:33 | `(i + 1) % n` stays in 0..n-1, steps on by one below the last position and wraps from the last position to 0 |
| Cyclic.Prev | src/components/Testimonials.jsx:37 | `(i - 1 + n) % n` stays in 0..n-1, steps back by one above 0 and wraps from 0 to the last position |
| Cyclic.PrevUndoesNext | src/components/Testimonials.jsx:32-38 | the previous step undoes the next step |
| Cyclic.NextUndoesPrev | src/components/Testimonials.jsx:32-38 | the next step undoes the previous step |
| Cyclic.Steps | src/components/MobileHeroSlider.jsx:27-29 | any number of next steps stays in 0..n-1 |
| Cyclic.StepsAdvance | src/components/MobileHeroSlider.jsx:27-29 | up to n next steps from i land on i + k, less n once that passes the end |
| Cyclic.FullTurn | src/components/MobileHeroSlider.jsx:27-29 | n next steps come back to the starting position |
| TopHighlighted.SlidesToShow | src/components/property-listings/TopHighlightedProjects.jsx:66-72 | the carousel shows 3 cards with no window, 1 below width 640, 2 below 1024 and 3 otherwise, each case exactly under its condition |
| TopHighlighted.WiderShowsNoFewer | src/components/property-listings/TopHighlightedProjects.jsx:66-72 | a wider window never shows fewer cards, and no window shows the most |
| TopHighlighted.NextSlide | src/components/property-listings/TopHighlightedProjects.jsx:86-90 | from n - k or beyond the next arrow wraps to 0, otherwise it steps on by one; with n at least k it keeps the position in 0..n-k, cycling over the n - k + 1 window positions |
| TopHighlighted.PrevSlide | src/components/property-listings/TopHighlightedProjects.jsx:92-96 | from 0 or below the previous arrow wraps to n - k, otherwise it steps back by one; with n at least k it keeps the position in 0..n-k, cycling over the window positions |
| TopHighlighted.ArrowsUndoEachOther | src/components/property-listings/TopHighlightedProjects.jsx:86-96 | within the window range the two arrows undo each other |
| TopHighlighted.NextFullTurn | src/components/property-listings/TopHighlightedProjects.jsx:86-90 | n - k + 1 presses of the next arrow come back to the starting position |
| TopHighlighted.FewerThanShownGoesNegative | src/components/property-listings/TopHighlightedProjects.jsx:92-96 | with fewer properties than cards shown, the previous arrow from 0 moves to the negative position n - k, while the next arrow stays at 0 |
| TopHighlighted.IndicatorCount | src/components/property-listings/TopHighlightedProjects.jsx:284 | there are `Math.ceil(n / k)` indicators: the fewest pages of k cards that hold all n |
| TopHighlighted.ActiveIndicator | src/components/property-listings/TopHighlightedProjects.jsx:289 | the lit indicator is the page whose k cards include the current slide |
| TopHighlighted.IndicatorTarget | src/components/property-listings/TopHighlightedProjects.jsx:287 | indicator idx jumps to slide idx × k, which lights indicator idx |
| TopHighlighted.IndicatorTargetExists | src/components/property-listings/TopHighlightedProjects.jsx:284-287 | every indicator jumps to a slide that exists |
| TopHighlighted.ActiveIndicatorShown | src/components/property-listings/TopHighlightedProjects.jsx:284-289 | for every existing slide, the lit indicator is one of those drawn |
| TopHighlighted.LastIndicatorPassesWindowRange | src/components/property-listings/TopHighlightedProjects.jsx:284-287 | with five properties shown two at a time, the third indicator jumps to slide 4, past the last window position 3 |
| TopHighlighted.Carousel.constructor | src/components/property-listings/TopHighlightedProjects.jsx:74 | the carousel starts at slide 0 with the viewport's card count, which is in the window range when there are enough properties |
| TopHighlighted.Carousel.Resize | src/components/property-listings/TopHighlightedProjects.jsx:76-83 | a resize recomputes the card count from the viewport |
| TopHighlighted.Carousel.Next | src/components/property-listings/TopHighlightedProjects.jsx:86-90 | the slide becomes NextSlide of the old one, and a slide in the window range stays in it |
| TopHighlighted.Carousel.Prev | src/components/property-listings/TopHighlightedProjects.jsx:92-96 | the slide becomes PrevSlide of the old one, and a slide in the window range stays in it |
| TopHighlighted.Carousel.ClickIndicator | src/components/property-listings/TopHighlightedProjects.jsx:287 | an indicator click moves to that indicator's target slide, which exists and lights that indicator |
| Testimonials.ThreeNextsReturn | src/components/Testimonials.jsx:33 | three presses of the next arrow return to the starting testimonial |
| Testimonials.Panel.constructor | src/components/Testimonials.jsx:6 | the panel starts on the first testimonial |
| Testimonials.Panel.Next | src/components/Testimonials.jsx:32-34 | the index becomes the cyclic next index over the three testimonials |
| Testimonials.Panel.Prev | src/components/Testimonials.jsx:36-38 | the index becomes the cyclic previous index over the three testimonials |
| Testimonials.Panel.ClickDot | src/components/Testimonials.jsx:121-129 | a dot click shows that testimonial, and exactly that dot is lit |
| Testimonials.Panel.Stars | src/components/Testimonials.jsx:89 | the shown testimonial draws as many stars as its rating, keyed 0, 1, 2 and so on |
| HeroSlider.Slider.constructor | src/components/MobileHeroSlider.jsx:6 | the slider starts on the first slide |
| HeroSlider.Slider.Tick | src/components/MobileHeroSlider.jsx:26-32 | each timer tick moves to the cyclic next slide |
| HeroSlider.Slider.Next | src/components/MobileHeroSlider.jsx:38-40 | the next arrow moves to the cyclic next slide |
| HeroSlider.Slider.Prev | src/components/MobileHeroSlider.jsx:42-44 | the previous arrow moves to the cyclic previous slide |
| HeroSlider.Slider.GoToSlide | src/components/MobileHeroSlider.jsx:34-36 | a dot click shows that slide, and exactly that dot is lit |
| HeroSlider.TickUndoesPrev | src/components/MobileHeroSlider.jsx:26-44 | a timer tick undoes the previous arrow, and the previous arrow undoes a tick |
| Lists.RemoveAll | src/components/PropertyFilterSidebar.jsx:36 | `filter(item => item !== value)` leaves no copy of the value, keeps every other element with its multiplicity, and keeps them in their order (a subsequence of the list); an absent value changes nothing |
| Lists.Toggle | src/components/PropertyFilterSidebar.jsx:35-37 | the value is present afterwards exactly when it was absent; other elements keep their membership; an absent value is appended at the end and a present one has every copy removed |
| Lists.ToggleTwiceRestores | src/components/PropertyFilterSidebar.jsx:35-37 | toggling an absent value twice gives back the original list |
| Lists.RemoveAllKeepsNoDup | src/components/PropertyFilterSidebar.jsx:36 | removing a value from a duplicate-free list leaves it duplicate-free |
| Lists.ToggleKeepsNoDup | src/components/PropertyFilterSidebar.jsx:35-37 | toggling keeps a duplicate-free list duplicate-free |
| Text.TrimStart | src/components/HeroBanner.jsx:56 | the leading white space is dropped: the result is a suffix of the text, everything before it is white space, and it does not start with white space |
| Text.TrimEnd | src/components/HeroBanner.jsx:56 | the trailing white space is dropped: the result is a prefix of the text, everything after it is white space, and it does not end with white space |
| Text.Trim | src/components/HeroBanner.jsx:56 | `trim()` strips white space from the start and then from the end; it is empty exactly when the text is blank, and otherwise neither starts nor ends with white space |
| Text.LowerChar | src/components/HeroBanner.jsx:69 | an ASCII capital letter becomes the lower-case letter 32 code points up, and every other character is unchanged |
| Text.UpperChar | src/pages/PropertyListingPage.jsx:119 | an ASCII lower-case letter becomes the capital letter 32 code points down, and every other character is unchanged |
| Text.UpperUndoesLower | src/pages/PropertyListingPage.jsx:119 | upper-casing undoes lower-casing for every character that is not a lower-case ASCII letter |
| Text.ToLower | src/components/HeroBanner.jsx:69 | `toLowerCase()` keeps the length and lowers each character |
| Text.NatToString | src/components/VideoUpload.jsx:141 | a whole number prints as at least one digit, with no leading zero except for 0 itself |
| Text.NatToStringRoundTrip | src/components/VideoUpload.jsx:141 | reading back the printed digits gives the number |
| Text.IntToString | src/pages/PropertyListingPage.jsx:57 | an integer prints with a leading minus sign exactly when it is negative, and as its digits otherwise |
| Text.PadStart2 | src/components/VideoUpload.jsx:141 | `padStart(2, '0')` leaves two or more characters alone and otherwise fills with `0` in front up to two characters |
| Text.Split | src/pages/PropertyListingPage.jsx:118 | `split(sep)` gives one more piece than there are separators, and no piece contains the separator |
| Text.SplitJoin | src/pages/PropertyListingPage.jsx:118-120 | splitting separator-free words joined by the separator gives back the words |
| Text.UpperFirst | src/pages/PropertyListingPage.jsx:119 | `charAt(0).toUpperCase() + slice(1)` keeps the length, raises the first character and keeps the rest |
| Text.ReplaceFirst | src/components/HeroBanner.jsx:65 | `replace('/', '-')` with a string pattern changes only the first occurrence, and nothing when there is none |
| Text.DashSpaceRuns | src/pages/PropertyDetailPage.jsx:315 | `replace(/\s+/g, '-')` equals the character-by-character reading in which each white-space run becomes one `-`; it leaves no white space, never lengthens the text, adds only dashes, and changes nothing in text without white space |
| Text.DashEachRunFacts | src/pages/PropertyDetailPage.jsx:315 | reading a text character by character with each white-space run as one `-` leaves no white space, never lengthens it, adds only dashes and changes nothing in text without white space |
| Text.FormEncode | src/Context/AppContext.jsx:75 | form encoding keeps safe characters, writes a space as `+` and any other character as the percent escapes of its UTF-8 bytes; no character that would end a query key or value is left |
| Text.FormEncodeRoundTrip | src/Context/AppContext.jsx:75 | form-decoding (`+` as a space, `%XY` as a byte) of the encoded text gives back the UTF-8 bytes of the original |
| Text.EncodeUriComponent | src/Context/AppContext.jsx:180 | `encodeURIComponent` keeps the unreserved characters and writes any other as the percent escapes of its UTF-8 bytes; no character that would end a query value is left |
| Text.EncodeUriComponentRoundTrip | src/Context/AppContext.jsx:180 | percent-decoding the encoded text gives back the UTF-8 bytes of the original |
| PropertyRecord.FieldOr | src/pages/PropertyDetailPage.jsx:172 | the logical-or fallback gives the field when it is truthy and the fallback otherwise |

## Left out

- Network I/O (axios and fetch) is not modelled. Every request is represented by the reply it got, which is a parameter; a thrown request is one of the reply cases.
- The Cloudinary upload is an oracle: each file either yields a URL or fails. The concurrent photo uploads (`Promise.all`) are modelled in sequence, stopping at the first failure. The outcome is the same, but overlapping requests are not modelled.
- `jwtDecode` is a decoder parameter. Nothing checks a token's signature, and the model does not either.
- Timers and debouncing are explicit calls: the 60-second expiry interval, the 500 ms suggestion debounce and the 4-second slide timer. Timing itself is not modelled.
- Floating point and locale formatting are not modelled: price formatting, file-size labels and dates.
- FileReader and video-metadata callbacks finish in no fixed order. `ImageUpload.Uploader.ProcessFiles` therefore states only which images are appended (as a multiset), not their order.
- The filter sidebar takes no props and its Apply button has no handler, so the model has no link between the sidebar and the listing page's filter handler.
- `JSON.parse` and `JSON.stringify` of the stored admin profile are parameters. The round trip is a precondition of the lemma that uses it.
- `toLowerCase` and `toUpperCase` are modelled on ASCII letters only. Other letters pass through unchanged.
- `encodeURIComponent` throws on a lone surrogate. A Dafny `char` is a Unicode scalar value, so that input cannot be represented.
- The city list data file is a parameter of the city picker. Its contents are not part of this model.
- The highlighted-projects carousel's own fetch is not modelled. The carousel is given the number of fetched properties.
- Presentation is not modelled: markup, styles, animations, scrolling and the static pages (navigation bar, footer, dashboard, layout and the other content-only components).
- The featured, recently added and investment carousels are not modelled. They consist of a fetch, a slider library and price formatting, all of which are left out above.
- The "unexpected error" alerts in the catch blocks of the submission and moderation handlers are not modelled. Exceptions raised by those handlers' own code are not modelled.
- `toggleCategory` on an id that no row has would raise a `TypeError` in the browser. The model sends no request in that case.
- Loaded: the public listing page's catch block is modelled for one exception only, reading `properties` of a missing `data`. Its message is the text Chromium's engine gives; other engines word it differently.
- GetStatusBadge: a status is a plain text value. A status that names a property every JavaScript object inherits (such as `constructor`) would find that property in the style table instead of the default; the model gives it the default.
- Consistency of storage across browser tabs is not modelled: the code does nothing about it.
- Format: only the fields of `formattedProperty` that the page's logic depends on are modelled (images, title, price, price per square foot, location, the three areas and the owner's verified flag). The other fields are plain `value || default` fallbacks for display.
- The admin listing's `filters` (search, status, type, purpose, category, city) are not modelled. They are spread into the listing request's query parameters, and a change to them triggers a refetch. The model represents each request by its reply only, so the request's parameters do not appear.
- Numeric fields of a property are modelled as text. A numeric `0` is falsy in JavaScript but is a non-empty, truthy text in the model.
- `HeroSearch.Banner.QueryChanged` measures the query in Unicode scalar values, where JavaScript's `.length` counts UTF-16 code units. The two differ only for characters outside the Basic Multilingual Plane.

## Findings

| source | as written | input that shows it | evidently intended | confidence | as-written member | corrected member |
|---|---|---|---|---|---|---|
| src/pages/admin-view/AllPropertyListing.jsx:30-93 | `fetchProperties` sets the error on a failed fetch but never clears it, and the table shows only while the error is empty. After one failed fetch, a later successful fetch still shows the old error instead of the rows. | a page state whose error is "Error fetching properties", followed by a 200 reply listing rows | a new fetch clears the previous error, so a successful reply shows its rows | not executed | ListingModeration.ErrorOutlivesSuccess | ListingModeration.CorrectedFetchShowsRows |
