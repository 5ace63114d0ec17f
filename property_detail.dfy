/**
 * The public property page: the display record built from the backend
 * property with its fallbacks, the image gallery, the breadcrumb trail and the
 * enquiry form.
 */
module PropertyDetail {
  import opened Wrappers
  import opened PropertyRecord
  import Text
  import Cyclic
  import Breadcrumb

  /** The unit shown when the property gives none, and the currency sign before a price. */
  const DefaultUnit := "sq.ft."
  const Rupee := "₹"

  /** Shown when the property has no photos. */
  const Placeholder := "https://images.unsplash.com/photo-1600596542815-ffad4c1539a9?w=800"

  /** The parts of `formattedProperty` with a fallback chain worth stating. */
  datatype Formatted = Formatted(
    images: seq<string>,
    title: string,
    price: string,
    pricePerSqft: string,
    location: string,
    superBuiltArea: string,
    carpetArea: string,
    plotArea: Option<string>,
    verified: bool)

  /** The built-up area, else the plot area, each with its unit; `N/A` exactly when both are missing. */
  function SuperBuiltArea(p: Listing): (r: string)
    ensures r == "N/A" <==> !Has(p, "builtUpArea") && !Has(p, "plotArea")
    ensures Has(p, "builtUpArea") ==> r == WithUnit(p, Field(p, "builtUpArea"), DefaultUnit)
    ensures !Has(p, "builtUpArea") && Has(p, "plotArea") ==> r == WithUnit(p, Field(p, "plotArea"), DefaultUnit)
  {
    if Has(p, "builtUpArea") then WithUnit(p, Field(p, "builtUpArea"), DefaultUnit)
    else if Has(p, "plotArea") then WithUnit(p, Field(p, "plotArea"), DefaultUnit)
    else "N/A"
  }

  /** The carpet area with its unit; `N/A` exactly when it is missing. */
  function CarpetArea(p: Listing): (r: string)
    ensures r == "N/A" <==> !Has(p, "carpetArea")
    ensures Has(p, "carpetArea") ==> r == WithUnit(p, Field(p, "carpetArea"), DefaultUnit)
  {
    if Has(p, "carpetArea") then WithUnit(p, Field(p, "carpetArea"), DefaultUnit) else "N/A"
  }

  /** `formattedProperty`: the owner counts as verified exactly when the listing is approved. */
  function Format(p: Listing): (r: Formatted)
    ensures r.images == PhotosOr(p, Placeholder) && |r.images| >= 1
    ensures r.price == PriceOr(p, Rupee) && r.superBuiltArea == SuperBuiltArea(p) && r.carpetArea == CarpetArea(p)
    ensures r.title == FieldOr(p, "bedrooms", "3") + " BHK " + FieldOr(p, "propertySubType", "Apartment")
    ensures r.location == Field(p, "locality") + ", " + Field(p, "city")
    ensures r.plotArea.Some? <==> Has(p, "plotArea")
    ensures Has(p, "plotArea") ==> r.plotArea == Some(WithUnit(p, Field(p, "plotArea"), DefaultUnit))
    ensures r.pricePerSqft == "" <==> !Has(p, "pricePerSqFt")
    ensures Has(p, "pricePerSqFt") ==> r.pricePerSqft == "₹" + Field(p, "pricePerSqFt") + " per sq.ft."
    ensures r.verified <==> Field(p, "status") == "approved"
  {
    Formatted(
      PhotosOr(p, Placeholder),
      FieldOr(p, "bedrooms", "3") + " BHK " + FieldOr(p, "propertySubType", "Apartment"),
      PriceOr(p, Rupee),
      if Has(p, "pricePerSqFt") then "₹" + Field(p, "pricePerSqFt") + " per sq.ft." else "",
      Field(p, "locality") + ", " + Field(p, "city"),
      SuperBuiltArea(p),
      CarpetArea(p),
      if Has(p, "plotArea") then Some(WithUnit(p, Field(p, "plotArea"), DefaultUnit)) else None,
      Field(p, "status") == "approved")
  }

  /**
   * `city.toLowerCase().replace(/\s+/g, '-')`: the lowercased city with each
   * white-space run as one `-`, so no white space and no capital letter is left.
   */
  function CitySlug(city: string): (slug: string)
    ensures slug == Text.DashEachRun(Text.ToLower(city), false)
    ensures forall i :: 0 <= i < |slug| ==> !Text.IsSpace(slug[i]) && !('A' <= slug[i] <= 'Z')
    ensures (forall i :: 0 <= i < |city| ==> !Text.IsSpace(city[i]) && !('A' <= city[i] <= 'Z')) ==> slug == city
  {
    var lower := Text.ToLower(city);
    var slug := Text.DashSpaceRuns(lower);
    assert forall i :: 0 <= i < |slug| ==> !('A' <= slug[i] <= 'Z') by {
      forall i | 0 <= i < |slug| ensures !('A' <= slug[i] <= 'Z') {
        if slug[i] != '-' {
          var j :| 0 <= j < |lower| && lower[j] == slug[i];
          assert lower[j] == Text.LowerChar(city[j]);
        }
      }
    }
    assert (forall i :: 0 <= i < |city| ==> !Text.IsSpace(city[i]) && !('A' <= city[i] <= 'Z')) ==> lower == city;
    slug
  }

  function Count(b: bool): nat {
    if b then 1 else 0
  }

  /** A final crumb follows: bedrooms with a locality, or else an apartment name. */
  predicate HasFinalCrumb(p: Listing) {
    (Has(p, "bedrooms") && Has(p, "locality")) || Has(p, "apartment")
  }

  /** Where the property-type crumb stands, when there is one. */
  function TypeAt(p: Listing): nat {
    1 + Count(Has(p, "city"))
  }

  /** The number of crumbs that carry an href: Properties, the city and the type. */
  function LinkedCount(p: Listing): nat {
    TypeAt(p) + Count(Has(p, "propertyType"))
  }

  /** The crumbs that link somewhere: Properties, then the city and the type when the property has them. */
  method LinkedCrumbs(p: Listing) returns (items: seq<Breadcrumb.Crumb>)
    ensures |items| == LinkedCount(p)
    ensures items[0] == Breadcrumb.Crumb("Properties", Some("/properties"))
    ensures Has(p, "city") ==>
      items[1] == Breadcrumb.Crumb("Property in " + Field(p, "city"), Some("/properties/" + CitySlug(Field(p, "city"))))
    ensures Has(p, "propertyType") ==>
      && items[TypeAt(p)].text == Text.UpperFirst(Field(p, "propertyType")) + "s in " + FieldOr(p, "city", "All Locations")
      && items[TypeAt(p)].href == Some(
           if Has(p, "city") then "/properties/" + CitySlug(Field(p, "city")) + "?propertyType=" + Field(p, "propertyType")
           else "/properties?propertyType=" + Field(p, "propertyType"))
    ensures forall i :: 0 <= i < |items| ==> Breadcrumb.HasHref(items[i])
  {
    items := [Breadcrumb.Crumb("Properties", Some("/properties"))];
    if Has(p, "city") {
      var city := Field(p, "city");
      items := items + [Breadcrumb.Crumb("Property in " + city, Some("/properties/" + CitySlug(city)))];
    }
    if Has(p, "propertyType") {
      var t := Field(p, "propertyType");
      var href := if Has(p, "city") then "/properties/" + CitySlug(Field(p, "city")) + "?propertyType=" + t
                  else "/properties?propertyType=" + t;
      items := items + [Breadcrumb.Crumb(Text.UpperFirst(t) + "s in " + FieldOr(p, "city", "All Locations"), Some(href))];
    }
  }

  /** The plain-text crumbs after the links: the locality, then bedrooms with the locality or else the apartment. */
  method TrailingCrumbs(p: Listing) returns (items: seq<Breadcrumb.Crumb>)
    ensures |items| == Count(Has(p, "locality")) + Count(HasFinalCrumb(p))
    ensures Has(p, "locality") ==>
      items[0] == Breadcrumb.Crumb(FieldOr(p, "propertyType", "Properties") + " in " + Field(p, "locality"), None)
    ensures Has(p, "bedrooms") && Has(p, "locality") ==>
      items[|items| - 1] == Breadcrumb.Crumb(
        Field(p, "bedrooms") + " BHK " + FieldOr(p, "propertyType", "Property") + " in " + Field(p, "locality"), None)
    ensures !(Has(p, "bedrooms") && Has(p, "locality")) && Has(p, "apartment") ==>
      items[|items| - 1] == Breadcrumb.Crumb(Field(p, "apartment"), None)
    ensures forall i :: 0 <= i < |items| ==> !Breadcrumb.HasHref(items[i])
  {
    items := [];
    if Has(p, "locality") {
      items := items + [Breadcrumb.Crumb(FieldOr(p, "propertyType", "Properties") + " in " + Field(p, "locality"), None)];
    }
    if Has(p, "bedrooms") && Has(p, "locality") {
      var last := Field(p, "bedrooms") + " BHK " + FieldOr(p, "propertyType", "Property") + " in " + Field(p, "locality");
      items := items + [Breadcrumb.Crumb(last, None)];
    } else if Has(p, "apartment") {
      items := items + [Breadcrumb.Crumb(Field(p, "apartment"), None)];
    }
  }

  /**
   * `getBreadcrumbItems`: Properties, then the city, the type, the locality and
   * a final crumb, each pushed only when the property has what it names.
   */
  method BreadcrumbItems(p: Listing) returns (items: seq<Breadcrumb.Crumb>)
    ensures |items| == LinkedCount(p) + Count(Has(p, "locality")) + Count(HasFinalCrumb(p))
    ensures 1 <= |items| <= 5
    ensures items[0] == Breadcrumb.Crumb("Properties", Some("/properties"))
    ensures Has(p, "city") ==>
      items[1] == Breadcrumb.Crumb("Property in " + Field(p, "city"), Some("/properties/" + CitySlug(Field(p, "city"))))
    ensures Has(p, "propertyType") ==>
      && items[TypeAt(p)].text == Text.UpperFirst(Field(p, "propertyType")) + "s in " + FieldOr(p, "city", "All Locations")
      && items[TypeAt(p)].href == Some(
           if Has(p, "city") then "/properties/" + CitySlug(Field(p, "city")) + "?propertyType=" + Field(p, "propertyType")
           else "/properties?propertyType=" + Field(p, "propertyType"))
    ensures Has(p, "locality") ==>
      items[LinkedCount(p)] == Breadcrumb.Crumb(FieldOr(p, "propertyType", "Properties") + " in " + Field(p, "locality"), None)
    ensures Has(p, "bedrooms") && Has(p, "locality") ==>
      items[|items| - 1] == Breadcrumb.Crumb(
        Field(p, "bedrooms") + " BHK " + FieldOr(p, "propertyType", "Property") + " in " + Field(p, "locality"), None)
    ensures !(Has(p, "bedrooms") && Has(p, "locality")) && Has(p, "apartment") ==>
      items[|items| - 1] == Breadcrumb.Crumb(Field(p, "apartment"), None)
    ensures forall i :: 0 <= i < |items| ==> (Breadcrumb.HasHref(items[i]) <==> i < LinkedCount(p))
  {
    var linked := LinkedCrumbs(p);
    var trailing := TrailingCrumbs(p);
    items := linked + trailing;
    assert forall i :: LinkedCount(p) <= i < |items| ==> items[i] == trailing[i - LinkedCount(p)];
  }

  /** The enquiry form. `email` is absent until the visitor types in that box. */
  datatype ContactForm = ContactForm(
    userType: string, reason: string, name: string, phone: string, message: string, email: Option<string>)

  const InitialContact := ContactForm("Individual", "Investment", "", "", "I am interested in this Property.", None)
  const NoEmail := "not-provided@propzy.com"
  const FillInAlert := "Please fill in your name and phone number"
  const FailedAlert := "Failed to submit enquiry. Please try again."
  const ConnectionAlert := "Failed to submit enquiry. Please check your connection and try again."

  /** The body posted to the enquiry endpoint. */
  datatype Enquiry = Enquiry(
    name: string, email: string, phone: string, message: string,
    userType: string, reason: string, propertyId: string, source: string)

  /** The parsed reply, or a request that never got one. */
  datatype EnquiryReply = Answered(success: bool, message: string, error: Option<string>) | ConnectionFailed

  /** The enquiry a submit would post: none without a name and a phone number. */
  function EnquiryFor(form: ContactForm, p: Listing, routeId: string): (r: Option<Enquiry>)
    ensures r.None? <==> form.name == "" || form.phone == ""
    ensures r.Some? ==>
      && r.value.name == form.name && r.value.phone == form.phone && r.value.message == form.message
      && r.value.userType == form.userType && r.value.reason == form.reason
      && r.value.source == "property_detail"
    ensures r.Some? && form.email.Some? && form.email.value != "" ==> r.value.email == form.email.value
    ensures r.Some? && (form.email.None? || form.email.value == "") ==> r.value.email == NoEmail
    ensures r.Some? ==> r.value.propertyId == FieldOr(p, "id", routeId)
  {
    if form.name == "" || form.phone == "" then None
    else
      var email := if form.email.Some? && form.email.value != "" then form.email.value else NoEmail;
      Some(Enquiry(form.name, email, form.phone, form.message, form.userType, form.reason,
                   FieldOr(p, "id", routeId), "property_detail"))
  }

  datatype ContactResult = ContactResult(form: ContactForm, alert: string, sent: Option<Enquiry>)

  /** `handleContactSubmit`: what is posted, what is alerted and what the form holds afterwards. */
  function SubmitContact(form: ContactForm, p: Listing, routeId: string, reply: EnquiryReply): (r: ContactResult)
    ensures r.sent == EnquiryFor(form, p, routeId)
    ensures r.sent.None? ==> r.form == form && r.alert == FillInAlert
    ensures r.sent.Some? && reply.Answered? && reply.success ==> r.form == InitialContact && r.alert == reply.message
    ensures r.sent.Some? && !(reply.Answered? && reply.success) ==> r.form == form
    ensures r.sent.Some? && reply.Answered? && !reply.success ==>
      r.alert == (if reply.error.Some? && reply.error.value != "" then reply.error.value else FailedAlert)
    ensures r.sent.Some? && reply.ConnectionFailed? ==> r.alert == ConnectionAlert
  {
    var sent := EnquiryFor(form, p, routeId);
    if sent.None? then ContactResult(form, FillInAlert, None)
    else match reply
      case ConnectionFailed => ContactResult(form, ConnectionAlert, sent)
      case Answered(success, message, error) =>
        if success then ContactResult(InitialContact, message, sent)
        else ContactResult(form, if error.Some? && error.value != "" then error.value else FailedAlert, sent)
  }

  /** After a successful enquiry the reset form has no name, so submitting it again posts nothing. */
  lemma NoResendAfterReset(form: ContactForm, p: Listing, routeId: string, reply: EnquiryReply, next: EnquiryReply)
    requires reply.Answered? && reply.success
    requires EnquiryFor(form, p, routeId).Some?
    ensures SubmitContact(SubmitContact(form, p, routeId, reply).form, p, routeId, next).sent.None?
  {
  }

  /** The page once its property has loaded. */
  class DetailPage {
    const property: Listing
    const routeId: string
    const images: seq<string>
    var currentImageIndex: int
    var contactForm: ContactForm
    var isSubmittingEnquiry: bool
    var lastAlert: Option<string>
    var posted: seq<Enquiry>

    /** The index points into the image list. */
    predicate Valid()
      reads this
    {
      0 <= currentImageIndex < |images|
    }

    constructor (p: Listing, id: string)
      ensures Valid() && images == Format(p).images
      ensures property == p && routeId == id && currentImageIndex == 0
      ensures contactForm == InitialContact && !isSubmittingEnquiry && lastAlert == None && posted == []
    {
      property := p;
      routeId := id;
      images := Format(p).images;
      currentImageIndex := 0;
      contactForm := InitialContact;
      isSubmittingEnquiry := false;
      lastAlert := None;
      posted := [];
    }

    /** `nextImage` */
    method NextImage()
      requires Valid()
      modifies this
      ensures Valid()
      ensures currentImageIndex == Cyclic.Next(old(currentImageIndex), |images|)
      ensures contactForm == old(contactForm) && isSubmittingEnquiry == old(isSubmittingEnquiry)
      ensures lastAlert == old(lastAlert) && posted == old(posted)
    {
      currentImageIndex := (currentImageIndex + 1) % |images|;
    }

    /** `prevImage` */
    method PrevImage()
      requires Valid()
      modifies this
      ensures Valid()
      ensures currentImageIndex == Cyclic.Prev(old(currentImageIndex), |images|)
      ensures contactForm == old(contactForm) && isSubmittingEnquiry == old(isSubmittingEnquiry)
      ensures lastAlert == old(lastAlert) && posted == old(posted)
    {
      currentImageIndex := (currentImageIndex - 1 + |images|) % |images|;
    }

    /** A thumbnail or dot click shows image `i`. */
    method ShowImage(i: int)
      requires Valid() && 0 <= i < |images|
      modifies this
      ensures Valid() && currentImageIndex == i
      ensures contactForm == old(contactForm) && isSubmittingEnquiry == old(isSubmittingEnquiry)
      ensures lastAlert == old(lastAlert) && posted == old(posted)
    {
      currentImageIndex := i;
    }

    /** A form input or choice button writes its field into the form. */
    method EditContact(form: ContactForm)
      requires Valid()
      modifies this
      ensures Valid() && contactForm == form && currentImageIndex == old(currentImageIndex)
      ensures isSubmittingEnquiry == old(isSubmittingEnquiry) && lastAlert == old(lastAlert) && posted == old(posted)
    {
      contactForm := form;
    }

    /** `handleContactSubmit` with the reply the endpoint gives. */
    method HandleContactSubmit(reply: EnquiryReply)
      requires Valid()
      modifies this
      ensures Valid() && currentImageIndex == old(currentImageIndex)
      ensures var r := SubmitContact(old(contactForm), property, routeId, reply);
        && contactForm == r.form && lastAlert == Some(r.alert)
        && posted == old(posted) + (if r.sent.Some? then [r.sent.value] else [])
      ensures isSubmittingEnquiry == (old(isSubmittingEnquiry) && EnquiryFor(old(contactForm), property, routeId).None?)
    {
      if contactForm.name == "" || contactForm.phone == "" {
        lastAlert := Some(FillInAlert);
        return;
      }
      isSubmittingEnquiry := true;
      var email := if contactForm.email.Some? && contactForm.email.value != "" then contactForm.email.value else NoEmail;
      var body := Enquiry(contactForm.name, email, contactForm.phone, contactForm.message,
                          contactForm.userType, contactForm.reason, FieldOr(property, "id", routeId), "property_detail");
      posted := posted + [body];
      match reply {
        case ConnectionFailed =>
          lastAlert := Some(ConnectionAlert);
        case Answered(success, message, error) =>
          if success {
            lastAlert := Some(message);
            contactForm := InitialContact;
          } else {
            lastAlert := Some(if error.Some? && error.value != "" then error.value else FailedAlert);
          }
      }
      isSubmittingEnquiry := false;
    }
  }

  /** Every formatted property has an image to show, so the gallery can step through it. */
  lemma GalleryRoundTrip(p: Listing, i: int)
    requires 0 <= i < |Format(p).images|
    ensures Cyclic.Prev(Cyclic.Next(i, |Format(p).images|), |Format(p).images|) == i
  {
    Cyclic.PrevUndoesNext(i, |Format(p).images|);
  }
}
