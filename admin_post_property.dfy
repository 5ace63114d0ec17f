/**
 * The admin "post property" wizard: a five-step counter with a progress score,
 * a form record edited one field at a time, list fields toggled by membership,
 * two parking counters, and the submission pipeline (validate, upload photos,
 * upload the video, send to the backend, reset).
 *
 * Each Cloudinary upload and the backend call are given as oracles: an upload
 * answers with a URL or fails; the backend answers as `createProperty` does.
 */
module PostPropertyWizard {
  import opened Wrappers
  import Lists
  import ApiClient

  /** A photo or video entry as the upload widgets hand it over; `file` names the browser file, when there is one. */
  datatype Media = Media(file: Option<string>)

  /** A form field's value. `Urls` and `VideoUrl` appear only in the payload sent to the backend. */
  datatype Value =
    | Text(s: string)
    | Flag(b: bool)
    | Count(n: int)
    | Items(xs: seq<string>)
    | Photos(ps: seq<Media>)
    | Video(v: Option<Media>)
    | Features(f: map<string, bool>)
    | Urls(us: seq<string>)
    | VideoUrl(u: Option<string>)

  type Form = map<string, Value>

  const StepCount: int := 5

  /** The form as the page first shows it, and as a successful post leaves it. */
  const InitialForm: Form := map[
    "purpose" := Text("Sell"),
    "propertyType" := Text("Residential"),
    "propertySubType" := Text("Independent House / Villa"),
    "city" := Text("Kolkata"),
    "locality" := Text("Goragacha"),
    "subLocality" := Text(""),
    "apartment" := Text(""),
    "bedrooms" := Text("2"),
    "bathrooms" := Text("2"),
    "balconies" := Text("1"),
    "plotArea" := Text("12000"),
    "areaUnit" := Text("sq.ft."),
    "carpetArea" := Text(""),
    "builtUpArea" := Text(""),
    "totalFloors" := Text("2"),
    "availabilityStatus" := Text("Ready to move"),
    "propertyAge" := Text("1-5 years"),
    "ownership" := Text("Freehold"),
    "expectedPrice" := Text(""),
    "pricePerSqFt" := Text(""),
    "allInclusivePrice" := Flag(false),
    "taxExcluded" := Flag(false),
    "priceNegotiable" := Flag(false),
    "propertyDescription" := Text(""),
    "photos" := Photos([]),
    "video" := Video(None),
    "otherRooms" := Items([]),
    "furnishing" := Text(""),
    "coveredParking" := Count(0),
    "openParking" := Count(0),
    "amenities" := Items([]),
    "propertyFeatures" := Items([]),
    "societyFeatures" := Items([]),
    "additionalFeatures" := Items([]),
    "waterSource" := Items([]),
    "overlooking" := Items([]),
    "otherFeatures" := Features(map["gatedSociety" := false, "cornerProperty" := false,
                                    "petFriendly" := false, "wheelchairFriendly" := false]),
    "powerBackup" := Text("None"),
    "propertyFacing" := Text(""),
    "flooringType" := Text(""),
    "locationAdvantages" := Items([])
  ]

  /** `handleContinue`: one step on, never past the last step. */
  function Continue(step: int): (next: int)
    ensures 1 <= step <= StepCount ==> 1 <= next <= StepCount
    ensures step < StepCount ==> next == step + 1
    ensures step >= StepCount ==> next == step
  {
    if step < StepCount then step + 1 else step
  }

  /** `handleBack`: one step back, never before the first step. */
  function Back(step: int): (prev: int)
    ensures 1 <= step <= StepCount ==> 1 <= prev <= StepCount
    ensures step > 1 ==> prev == step - 1
    ensures step <= 1 ==> prev == step
  {
    if step > 1 then step - 1 else step
  }

  /** Back undoes Continue away from the last step, and Continue undoes Back away from the first. */
  lemma StepsInverse(step: int)
    requires 1 <= step <= StepCount
    ensures step < StepCount ==> Back(Continue(step)) == step
    ensures step > 1 ==> Continue(Back(step)) == step
  {
  }

  /** The progress score shown beside the steps. */
  function PropertyScore(step: int): (score: int)
    ensures 12 <= score <= 65
    ensures step == 1 ==> score == 12
    ensures step == 2 ==> score == 27
    ensures step == 3 ==> score == 53
    ensures step != 1 && step != 2 && step != 3 ==> score == 65
  {
    if step == 1 then 12 else if step == 2 then 27 else if step == 3 then 53 else if step == 4 then 65 else 65
  }

  /** The score never drops as the wizard moves forward. */
  lemma ScoreMonotone(a: int, b: int)
    requires 1 <= a <= b <= StepCount
    ensures PropertyScore(a) <= PropertyScore(b)
  {
  }

  /** `updateFormData(field, value)`: the named field takes the value and no other field changes. */
  function UpdateFormData(form: Form, field: string, value: Value): (r: Form)
    ensures field in r && r[field] == value
    ensures forall k :: k != field ==> (k in r <==> k in form)
    ensures forall k :: k in form && k != field ==> r[k] == form[k]
  {
    form[field := value]
  }

  /** `toggleArrayItem(field, item)` on a list field: removes the item where present, appends it otherwise. */
  function ToggleArrayItem(form: Form, field: string, item: string): (r: Form)
    requires field in form && form[field].Items?
    ensures field in r && r[field].Items?
    ensures item in r[field].xs <==> item !in form[field].xs
    ensures forall y :: y != item ==> (y in r[field].xs <==> y in form[field].xs)
    ensures item !in form[field].xs ==> r[field].xs == form[field].xs + [item]
    ensures forall k :: k in form && k != field ==> k in r && r[k] == form[k]
  {
    UpdateFormData(form, field, Items(Lists.Toggle(form[field].xs, item)))
  }

  /** Toggling an absent item twice leaves the form as it was. */
  lemma ToggleTwice(form: Form, field: string, item: string)
    requires field in form && form[field].Items? && item !in form[field].xs
    ensures ToggleArrayItem(ToggleArrayItem(form, field, item), field, item) == form
  {
    Lists.ToggleTwiceRestores(form[field].xs, item);
    assert Items(form[field].xs) == form[field];
  }

  /** The minus button of a parking counter: `Math.max(0, n - 1)`. */
  function DecrementParking(form: Form, field: string): (r: Form)
    requires field in form && form[field].Count?
    ensures field in r && r[field].Count?
    ensures form[field].n >= 1 ==> r[field].n == form[field].n - 1
    ensures form[field].n < 1 ==> r[field].n == 0
    ensures forall k :: k in form && k != field ==> k in r && r[k] == form[k]
  {
    var n := form[field].n;
    UpdateFormData(form, field, Count(if n - 1 > 0 then n - 1 else 0))
  }

  /** The plus button of a parking counter. */
  function IncrementParking(form: Form, field: string): (r: Form)
    requires field in form && form[field].Count?
    ensures field in r && r[field] == Count(form[field].n + 1)
    ensures forall k :: k in form && k != field ==> k in r && r[k] == form[k]
  {
    UpdateFormData(form, field, Count(form[field].n + 1))
  }

  /** A counter that starts at zero stays at zero or above under any mix of the two buttons. */
  lemma ParkingStaysNonNegative(form: Form, field: string, presses: seq<bool>)
    requires field in form && form[field].Count? && form[field].n >= 0
    ensures field in Press(form, field, presses) && Press(form, field, presses)[field].Count?
    ensures Press(form, field, presses)[field].n >= 0
    decreases |presses|
  {
    if presses != [] {
      var next := if presses[0] then IncrementParking(form, field) else DecrementParking(form, field);
      ParkingStaysNonNegative(next, field, presses[1..]);
    }
  }

  /** A run of button presses on one counter: `true` for plus, `false` for minus. */
  function Press(form: Form, field: string, presses: seq<bool>): (r: Form)
    requires field in form && form[field].Count?
    ensures field in r && r[field].Count?
    ensures r.Keys == form.Keys && forall k :: k in form && k != field ==> r[k] == form[k]
    decreases |presses|
  {
    if presses == [] then form
    else Press(if presses[0] then IncrementParking(form, field) else DecrementParking(form, field), field, presses[1..])
  }

  /** JavaScript truthiness of a field: missing fields, empty text, `false`, `0` and `null` are falsy; lists always count. */
  predicate FieldTruthy(form: Form, field: string) {
    field in form &&
    match form[field]
    case Text(s) => s != ""
    case Flag(b) => b
    case Count(n) => n != 0
    case Video(v) => v.Some?
    case VideoUrl(u) => u.Some?
    case _ => true
  }

  /** Every photo's upload result, or `None` as soon as one fails (`Promise.all`). */
  function UploadAll(photos: seq<Media>, upload: Media -> Option<string>): (urls: Option<seq<string>>)
    ensures urls.Some? <==> forall i :: 0 <= i < |photos| ==> upload(photos[i]).Some?
    ensures urls.Some? ==> |urls.value| == |photos|
                           && forall i :: 0 <= i < |photos| ==> urls.value[i] == upload(photos[i]).value
  {
    if photos == [] then Some([])
    else
      match upload(photos[0])
      case None => None
      case Some(u) =>
        match UploadAll(photos[1..], upload)
        case None => None
        case Some(rest) =>
          assert forall i :: 1 <= i < |photos| ==> photos[i] == photos[1..][i - 1];
          Some([u] + rest)
  }

  /** The photos to upload: the list when the field holds a non-empty one, nothing otherwise. */
  function PhotosToUpload(form: Form): (ps: seq<Media>)
    ensures ps != [] ==> "photos" in form && form["photos"] == Photos(ps)
    ensures "photos" in form && form["photos"].Photos? ==> ps == form["photos"].ps
    ensures !("photos" in form && form["photos"].Photos?) ==> ps == []
  {
    if "photos" in form && form["photos"].Photos? then form["photos"].ps else []
  }

  /** The video to upload: only an entry that carries a file. */
  function VideoToUpload(form: Form): (m: Option<Media>)
    ensures m.Some? ==> "video" in form && form["video"] == Video(m) && m.value.file.Some?
    ensures "video" in form && form["video"].Video? && form["video"].v.Some? && form["video"].v.value.file.Some?
            ==> m == form["video"].v
  {
    if "video" in form && form["video"].Video? && form["video"].v.Some? && form["video"].v.value.file.Some?
    then form["video"].v else None
  }

  /** How a submission ends. */
  datatype Outcome =
    | MissingLocation
    | MissingAreaOrPrice
    | PhotoUploadFailed
    | VideoUploadFailed
    | Sent(payload: Form, result: ApiClient.Wrapped<string>)

  /** `{ ...formData, photos: photoUrls, video: videoUrl }` */
  function Payload(form: Form, photoUrls: seq<string>, videoUrl: Option<string>): (p: Form)
    ensures "photos" in p && p["photos"] == Urls(photoUrls)
    ensures "video" in p && p["video"] == VideoUrl(videoUrl)
    ensures forall k :: k != "photos" && k != "video" ==> (k in p <==> k in form) && (k in form ==> p[k] == form[k])
  {
    form["photos" := Urls(photoUrls)]["video" := VideoUrl(videoUrl)]
  }

  /**
   * `handleSubmitProperty`: location first, then area and price; a failed
   * check or upload stops before the backend is called; otherwise the payload
   * holds the uploaded URLs in place of the files.
   */
  function Submit(form: Form, uploadImage: Media -> Option<string>, uploadVideo: Media -> Option<string>,
                  create: Form -> ApiClient.Wrapped<string>): (o: Outcome)
    ensures o == MissingLocation <==> !FieldTruthy(form, "city") || !FieldTruthy(form, "locality")
    ensures o == MissingAreaOrPrice <==> FieldTruthy(form, "city") && FieldTruthy(form, "locality")
                                         && (!FieldTruthy(form, "plotArea") || !FieldTruthy(form, "expectedPrice"))
    ensures o.Sent? ==> UploadAll(PhotosToUpload(form), uploadImage).Some?
    ensures o.Sent? ==> o.payload == Payload(form, UploadAll(PhotosToUpload(form), uploadImage).value,
                                             if VideoToUpload(form).Some? then uploadVideo(VideoToUpload(form).value) else None)
    ensures o.Sent? ==> o.result == create(o.payload)
    ensures o == PhotoUploadFailed ==> UploadAll(PhotosToUpload(form), uploadImage).None?
    ensures o == VideoUploadFailed ==> UploadAll(PhotosToUpload(form), uploadImage).Some?
                                       && VideoToUpload(form).Some? && uploadVideo(VideoToUpload(form).value).None?
    ensures o.Sent? ==> VideoToUpload(form).None? || uploadVideo(VideoToUpload(form).value).Some?
  {
    if !FieldTruthy(form, "city") || !FieldTruthy(form, "locality") then MissingLocation
    else if !FieldTruthy(form, "plotArea") || !FieldTruthy(form, "expectedPrice") then MissingAreaOrPrice
    else
      match UploadAll(PhotosToUpload(form), uploadImage)
      case None => PhotoUploadFailed
      case Some(photoUrls) =>
        var video := VideoToUpload(form);
        if video.Some? && uploadVideo(video.value).None? then VideoUploadFailed
        else
          var videoUrl := if video.Some? then uploadVideo(video.value) else None;
          var payload := Payload(form, photoUrls, videoUrl);
          Sent(payload, create(payload))
  }

  /** A fresh form cannot be posted: its expected price is empty, so submission stops at the area-and-price check. */
  lemma InitialFormNeedsPrice(uploadImage: Media -> Option<string>, uploadVideo: Media -> Option<string>,
                              create: Form -> ApiClient.Wrapped<string>)
    ensures Submit(InitialForm, uploadImage, uploadVideo, create) == MissingAreaOrPrice
  {
    InitialLocation();
    InitialPrice();
  }

  /** The fresh form's city and locality: Kolkata, Goragacha. */
  lemma InitialLocation()
    ensures InitialForm["city"] == Text("Kolkata") && InitialForm["locality"] == Text("Goragacha")
  {
  }

  /** The fresh form's expected price is empty. */
  lemma InitialPrice()
    ensures InitialForm["expectedPrice"] == Text("")
  {
  }

  /** The payload keeps every field the admin filled in except the two media fields, and carries one URL per photo. */
  lemma PayloadKeepsForm(form: Form, uploadImage: Media -> Option<string>, uploadVideo: Media -> Option<string>,
                         create: Form -> ApiClient.Wrapped<string>, k: string)
    requires Submit(form, uploadImage, uploadVideo, create).Sent?
    ensures var p := Submit(form, uploadImage, uploadVideo, create).payload;
            p["photos"].Urls? && |p["photos"].us| == |PhotosToUpload(form)|
            && (k != "photos" && k != "video" && k in form ==> k in p && p[k] == form[k])
  {
  }

  const AlertLocation: string := "Please fill in all required location fields"
  const AlertAreaPrice: string := "Please fill in property area and price details"
  const AlertImages: string := "Failed to upload images. Please check your Cloudinary configuration and try again."
  const AlertVideo: string := "Failed to upload video. Please check your Cloudinary configuration and try again."
  const AlertPosted: string := "\U{1F389} Property posted successfully!"

  /** The alert a submission ends with. */
  function AlertFor(o: Outcome): (msg: string)
    ensures msg != ""
  {
    match o
    case MissingLocation => AlertLocation
    case MissingAreaOrPrice => AlertAreaPrice
    case PhotoUploadFailed => AlertImages
    case VideoUploadFailed => AlertVideo
    case Sent(_, result) => if result.Success? then AlertPosted else "Error: " + result.error
  }

  /** Only a backend success resets the form and returns to step 1; every other outcome keeps both. */
  function After(form: Form, step: int, o: Outcome): (r: (Form, int))
    ensures o.Sent? && o.result.Success? ==> r == (InitialForm, 1)
    ensures !(o.Sent? && o.result.Success?) ==> r == (form, step)
  {
    if o.Sent? && o.result.Success? then (InitialForm, 1) else (form, step)
  }

  /** The photo uploads of a submission, one at a time, stopping at the first failure. */
  method UploadPhotos(photos: seq<Media>, uploadImage: Media -> Option<string>) returns (urls: Option<seq<string>>)
    ensures urls == UploadAll(photos, uploadImage)
  {
    var done: seq<string> := [];
    var i := 0;
    while i < |photos|
      invariant 0 <= i <= |photos|
      invariant |done| == i
      invariant forall j :: 0 <= j < i ==> uploadImage(photos[j]).Some? && done[j] == uploadImage(photos[j]).value
    {
      var url := uploadImage(photos[i]);
      if url.None? {
        return None;
      }
      done := done + [url.value];
      i := i + 1;
    }
    assert UploadAll(photos, uploadImage).value == done;
    return Some(done);
  }

  /** The page component: its step counter, form record, busy flag and the last alert shown. */
  class PostPropertyPage {
    var currentStep: int
    var formData: Form
    var isSubmitting: bool
    var lastAlert: Option<string>

    predicate Valid()
      reads this
    {
      1 <= currentStep <= StepCount
    }

    constructor ()
      ensures Valid() && currentStep == 1 && formData == InitialForm && !isSubmitting && lastAlert.None?
    {
      currentStep := 1;
      formData := InitialForm;
      isSubmitting := false;
      lastAlert := None;
    }

    method HandleContinue()
      requires Valid()
      modifies this`currentStep
      ensures Valid() && currentStep == Continue(old(currentStep))
    {
      if currentStep < StepCount {
        currentStep := currentStep + 1;
      }
    }

    method HandleBack()
      requires Valid()
      modifies this`currentStep
      ensures Valid() && currentStep == Back(old(currentStep))
    {
      if currentStep > 1 {
        currentStep := currentStep - 1;
      }
    }

    method SetField(field: string, value: Value)
      modifies this`formData
      ensures formData == UpdateFormData(old(formData), field, value)
    {
      formData := formData[field := value];
    }

    method ToggleItem(field: string, item: string)
      requires field in formData && formData[field].Items?
      modifies this`formData
      ensures formData == ToggleArrayItem(old(formData), field, item)
    {
      var current := formData[field].xs;
      if item in current {
        SetField(field, Items(Lists.RemoveAll(current, item)));
      } else {
        SetField(field, Items(current + [item]));
      }
    }

    /**
     * `handleSubmitProperty`: the busy flag is raised, the checks run in order,
     * photos are uploaded one by one until all have a URL or one fails, then the
     * video, then the backend call; the busy flag always ends lowered.
     */
    method HandleSubmitProperty(uploadImage: Media -> Option<string>, uploadVideo: Media -> Option<string>,
                                create: Form -> ApiClient.Wrapped<string>) returns (outcome: Outcome)
      requires Valid()
      modifies this
      ensures Valid()
      ensures outcome == Submit(old(formData), uploadImage, uploadVideo, create)
      ensures (formData, currentStep) == After(old(formData), old(currentStep), outcome)
      ensures !isSubmitting && lastAlert == Some(AlertFor(outcome))
    {
      isSubmitting := true;
      if !FieldTruthy(formData, "city") || !FieldTruthy(formData, "locality") {
        outcome := MissingLocation;
        lastAlert := Some(AlertLocation);
        isSubmitting := false;
        return;
      }
      if !FieldTruthy(formData, "plotArea") || !FieldTruthy(formData, "expectedPrice") {
        outcome := MissingAreaOrPrice;
        lastAlert := Some(AlertAreaPrice);
        isSubmitting := false;
        return;
      }
      var uploaded := UploadPhotos(PhotosToUpload(formData), uploadImage);
      if uploaded.None? {
        outcome := PhotoUploadFailed;
        lastAlert := Some(AlertImages);
        isSubmitting := false;
        return;
      }
      var photoUrls := uploaded.value;
      var video := VideoToUpload(formData);
      var videoUrl: Option<string> := None;
      if video.Some? {
        videoUrl := uploadVideo(video.value);
        if videoUrl.None? {
          outcome := VideoUploadFailed;
          lastAlert := Some(AlertVideo);
          isSubmitting := false;
          return;
        }
      }
      var payload := formData["photos" := Urls(photoUrls)]["video" := VideoUrl(videoUrl)];
      var result := create(payload);
      outcome := Sent(payload, result);
      if result.Success? {
        lastAlert := Some(AlertPosted);
        formData := InitialForm;
        currentStep := 1;
      } else {
        lastAlert := Some("Error: " + result.error);
      }
      isSubmitting := false;
    }
  }
}
