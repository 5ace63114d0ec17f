/**
 * A listing card: the display record mapped from a backend property with its
 * fallbacks, and the photo counter and dots.
 */
module PropertyCard {
  import opened PropertyRecord
  import Text

  /** The unit shown when the property gives none, and the currency sign before a price. */
  const DefaultUnit := "sq.ft"
  const Rupee := "₹ "

  const Placeholder := "https://images.unsplash.com/photo-1560518883-ce09059eeffa?w=400&h=300&fit=crop"

  /** The carpet area, else the built-up area, else the plot area, each with its unit; `N/A` exactly when none is given. */
  function Area(p: Listing): (r: string)
    ensures r == "N/A" <==> !Has(p, "carpetArea") && !Has(p, "builtUpArea") && !Has(p, "plotArea")
    ensures Has(p, "carpetArea") ==> r == WithUnit(p, Field(p, "carpetArea"), DefaultUnit)
    ensures !Has(p, "carpetArea") && Has(p, "builtUpArea") ==> r == WithUnit(p, Field(p, "builtUpArea"), DefaultUnit)
    ensures !Has(p, "carpetArea") && !Has(p, "builtUpArea") && Has(p, "plotArea") ==> r == WithUnit(p, Field(p, "plotArea"), DefaultUnit)
  {
    if Has(p, "carpetArea") then WithUnit(p, Field(p, "carpetArea"), DefaultUnit)
    else if Has(p, "builtUpArea") then WithUnit(p, Field(p, "builtUpArea"), DefaultUnit)
    else if Has(p, "plotArea") then WithUnit(p, Field(p, "plotArea"), DefaultUnit)
    else "N/A"
  }

  /** `locality, city` when both are given, otherwise `Location`. */
  function Location(p: Listing): (r: string)
    ensures Has(p, "locality") && Has(p, "city") ==> r == Field(p, "locality") + ", " + Field(p, "city")
    ensures !(Has(p, "locality") && Has(p, "city")) ==> r == "Location"
  {
    if Has(p, "locality") && Has(p, "city") then Field(p, "locality") + ", " + Field(p, "city") else "Location"
  }

  /** `<bedrooms> BHK <subtype>` when a subtype is given (the bedrooms may be empty), otherwise `Property`. */
  function Title(p: Listing): (r: string)
    ensures !Has(p, "propertySubType") <==> r == "Property"
    ensures Has(p, "propertySubType") ==> r == Field(p, "bedrooms") + " BHK " + Field(p, "propertySubType")
  {
    if Has(p, "propertySubType") then
      var r := Field(p, "bedrooms") + " BHK " + Field(p, "propertySubType");
      assert r[|Field(p, "bedrooms")|] == ' ';
      assert ' ' !in "Property";
      r
    else "Property"
  }

  /** The price per square foot, empty exactly when the property gives none. */
  function PricePerSqft(p: Listing): (r: string)
    ensures r == "" <==> !Has(p, "pricePerSqFt")
    ensures Has(p, "pricePerSqFt") ==> r == Rupee + Field(p, "pricePerSqFt") + "/sqft"
  {
    if Has(p, "pricePerSqFt") then Rupee + Field(p, "pricePerSqFt") + "/sqft" else ""
  }

  /** The owner is shown as verified exactly when the listing is approved. */
  predicate Verified(p: Listing) {
    Field(p, "status") == "approved"
  }

  /** The card for one property; the index says which photo is shown. */
  class Card {
    const property: Listing
    const images: seq<string>
    var currentImageIndex: int

    predicate Valid()
      reads this
    {
      0 <= currentImageIndex < |images|
    }

    constructor (p: Listing)
      ensures Valid() && property == p && images == PhotosOr(p, Placeholder) && currentImageIndex == 0
    {
      property := p;
      images := PhotosOr(p, Placeholder);
      currentImageIndex := 0;
    }

    /** The counter: the shown photo's position, counted from one, over the number of photos. */
    function Counter(): (r: string)
      requires Valid()
      reads this
    {
      Text.NatToString(currentImageIndex + 1) + "/" + Text.NatToString(|images|)
    }

    /** Dot `i` is highlighted exactly when it is the shown photo. */
    predicate DotActive(i: int)
      reads this
    {
      currentImageIndex == i
    }

    /** A click on dot `i` shows photo `i`. */
    method ClickDot(i: int)
      requires Valid() && 0 <= i < |images|
      modifies this`currentImageIndex
      ensures Valid() && currentImageIndex == i
      ensures forall j :: 0 <= j < |images| ==> (DotActive(j) <==> j == i)
    {
      currentImageIndex := i;
    }
  }

  /** The counter never reads past the number of photos: it reads `a/b` with `a` between one and `b`. */
  lemma CounterInRange(c: Card)
    requires c.Valid()
    ensures var a := Text.NatToString(c.currentImageIndex + 1);
            var b := Text.NatToString(|c.images|);
            c.Counter() == a + "/" + b && 1 <= Text.DigitsValue(a) <= Text.DigitsValue(b) == |c.images|
  {
    Text.NatToStringRoundTrip(c.currentImageIndex + 1);
    Text.NatToStringRoundTrip(|c.images|);
  }
}
