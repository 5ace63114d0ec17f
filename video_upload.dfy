/**
 * The video picker: the type check by MIME type or file extension, the
 * inclusive size limit, the duration limit read from the video's metadata,
 * removal, and the `m:ss` duration label.
 */
module VideoUpload {
  import opened Wrappers
  import Text

  /** A chosen file: its name, MIME type and size in bytes. */
  datatype File = File(name: string, mime: string, size: nat)

  const ValidTypes := ["video/mp4", "video/quicktime", "video/x-msvideo"]
  const ValidExtensions := [".mp4", ".mov", ".h264", ".avi"]
  const DefaultMaxSizeMB := 80
  const DefaultMaxDurationMinutes := 10
  const TypeError := "Invalid file type. Please upload MP4, MOV, H264, or AVI videos."
  const LoadError := "Error loading video. Please try another file."

  function SizeError(maxSizeMB: nat): string {
    "File size exceeds " + Text.NatToString(maxSizeMB) + "MB limit."
  }

  function DurationError(maxDurationMinutes: nat): string {
    "Video duration exceeds " + Text.NatToString(maxDurationMinutes) + " minutes limit."
  }

  /** The type passes on a known MIME type, or on a known extension of the lowercased name. */
  predicate ValidType(f: File) {
    f.mime in ValidTypes || exists i :: 0 <= i < |ValidExtensions| && Text.EndsWith(Text.ToLower(f.name), ValidExtensions[i])
  }

  /** `validateFile`: a type error is reported before a size error; a size equal to the limit passes. */
  function ValidateFile(f: File, maxSizeMB: nat): (r: Option<string>)
    ensures !ValidType(f) ==> r == Some(TypeError)
    ensures ValidType(f) && f.size <= maxSizeMB * 1024 * 1024 ==> r == None
    ensures ValidType(f) && f.size > maxSizeMB * 1024 * 1024 ==> r == Some(SizeError(maxSizeMB))
  {
    if !ValidType(f) then Some(TypeError)
    else if f.size > maxSizeMB * 1024 * 1024 then Some(SizeError(maxSizeMB))
    else None
  }

  /** A file named `tour.MP4` passes the type check whatever MIME type the browser gives it. */
  lemma UpperCaseExtensionPasses(mime: string, size: nat)
    ensures ValidType(File("tour.MP4", mime, size))
  {
    assert Text.ToLower("tour.MP4") == "tour.mp4";
    assert Text.EndsWith("tour.mp4", ValidExtensions[0]);
  }

  /** What loading the video's metadata gives: its duration in seconds, or a load error. */
  datatype Probe = Duration(seconds: real) | ProbeFailed

  /** `checkVideoDuration`: the error, if any; a duration equal to the limit passes. */
  function DurationCheck(probe: Probe, maxDurationMinutes: nat): (r: Option<string>)
    ensures probe.ProbeFailed? ==> r == Some(LoadError)
    ensures probe.Duration? ==> (r.None? <==> probe.seconds <= (maxDurationMinutes * 60) as real)
    ensures r.Some? && probe.Duration? ==> r.value == DurationError(maxDurationMinutes)
  {
    match probe
      case ProbeFailed => Some(LoadError)
      case Duration(seconds) =>
        if seconds > (maxDurationMinutes * 60) as real then Some(DurationError(maxDurationMinutes)) else None
  }

  /** `formatDuration` for a non-negative duration: whole minutes, `:`, then whole seconds on two digits. */
  function FormatDuration(seconds: real): (r: string)
    requires seconds >= 0.0
    ensures var mins := (seconds / 60.0).Floor;
      var secs := (seconds - 60.0 * mins as real).Floor;
      && mins >= 0 && 0 <= secs < 60
      && mins * 60 + secs == seconds.Floor
      && r == Text.NatToString(mins) + ":" + Text.PadStart2(Text.NatToString(secs))
  {
    var mins := (seconds / 60.0).Floor;
    var secs := (seconds - 60.0 * mins as real).Floor;
    Text.NatToString(mins) + ":" + Text.PadStart2(Text.NatToString(secs))
  }

  /** The seconds field of the label is always two digits. */
  lemma SecondsFieldIsTwoDigits(n: nat)
    requires n < 60
    ensures |Text.PadStart2(Text.NatToString(n))| == 2
  {
    if n >= 10 {
      assert Text.NatToString(n) == Text.NatToString(n / 10) + [Text.DigitChar(n % 10)];
    }
  }

  /** The picker; `changes` lists the values passed to `onVideoChange`, `null` as `None`. */
  class Uploader {
    const maxSizeMB: nat
    const maxDurationMinutes: nat
    var error: string
    var uploading: bool
    var changes: seq<Option<File>>

    constructor (maxMB: nat, maxMinutes: nat)
      ensures maxSizeMB == maxMB && maxDurationMinutes == maxMinutes
      ensures error == "" && !uploading && changes == []
    {
      maxSizeMB := maxMB;
      maxDurationMinutes := maxMinutes;
      error := "";
      uploading := false;
      changes := [];
    }

    /**
     * `processFile` once the metadata has been read: a file that fails a check
     * is never reported, and either way the picker ends not uploading.
     */
    method ProcessFile(f: File, probe: Probe)
      modifies this`error, this`uploading, this`changes
      ensures !uploading
      ensures ValidateFile(f, maxSizeMB).Some? ==> error == ValidateFile(f, maxSizeMB).value && changes == old(changes)
      ensures ValidateFile(f, maxSizeMB).None? && DurationCheck(probe, maxDurationMinutes).Some? ==>
        error == DurationCheck(probe, maxDurationMinutes).value && changes == old(changes)
      ensures ValidateFile(f, maxSizeMB).None? && DurationCheck(probe, maxDurationMinutes).None? ==>
        error == "" && changes == old(changes) + [Some(f)]
    {
      error := "";
      uploading := true;
      var invalid := ValidateFile(f, maxSizeMB);
      if invalid.Some? {
        error := invalid.value;
        uploading := false;
        return;
      }
      var tooLong := DurationCheck(probe, maxDurationMinutes);
      if tooLong.Some? {
        error := tooLong.value;
        uploading := false;
        return;
      }
      changes := changes + [Some(f)];
      uploading := false;
    }

    /** `removeVideo`: report no video and clear the error. */
    method RemoveVideo()
      modifies this`error, this`changes
      ensures changes == old(changes) + [None] && error == ""
    {
      changes := changes + [None];
      error := "";
    }
  }
}
