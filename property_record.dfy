/**
 * A property as the backend sends it to the public pages: its scalar fields as
 * text (a missing field and an empty one are both falsy), and its photo URLs.
 */
module PropertyRecord {

  datatype Listing = Listing(fields: map<string, string>, photos: seq<string>)

  /** `property.key`, or `''` when the key is missing. */
  function Field(p: Listing, key: string): string {
    if key in p.fields then p.fields[key] else ""
  }

  /** `property.key` is truthy. */
  predicate Has(p: Listing, key: string) {
    Field(p, key) != ""
  }

  /** `property.key || fallback` */
  function FieldOr(p: Listing, key: string, fallback: string): (r: string)
    ensures Has(p, key) ==> r == p.fields[key]
    ensures !Has(p, key) ==> r == fallback
  {
    if Has(p, key) then Field(p, key) else fallback
  }

  /** `value + ' ' + (property.areaUnit || defaultUnit)`: an area followed by its unit. */
  function WithUnit(p: Listing, value: string, defaultUnit: string): (r: string)
    requires defaultUnit != ""
    ensures |r| > |value| + 1 && r[..|value|] == value && r[|value|] == ' '
    ensures r[|value| + 1..] == (if Has(p, "areaUnit") then p.fields["areaUnit"] else defaultUnit)
  {
    value + " " + FieldOr(p, "areaUnit", defaultUnit)
  }

  /** `photos` when there are any, otherwise `placeholder` alone: never empty. */
  function PhotosOr(p: Listing, placeholder: string): (r: seq<string>)
    ensures |r| >= 1
    ensures p.photos != [] ==> r == p.photos
    ensures p.photos == [] ==> r == [placeholder]
  {
    if p.photos != [] then p.photos else [placeholder]
  }

  /** `symbol` before the expected price, or `Price on request` exactly when the property gives none. */
  function PriceOr(p: Listing, symbol: string): (r: string)
    requires symbol != "" && symbol[0] != 'P'
    ensures r == "Price on request" <==> !Has(p, "expectedPrice")
    ensures Has(p, "expectedPrice") ==> r == symbol + Field(p, "expectedPrice")
  {
    if Has(p, "expectedPrice") then
      var r := symbol + Field(p, "expectedPrice");
      assert r[0] != "Price on request"[0];
      r
    else "Price on request"
  }
}
