/**
 * The photo picker: the per-file check of type and size, the batch rules
 * (a whole batch refused when it would pass the maximum count, invalid files
 * skipped with the first error shown), removal by index and the disabled state.
 */
module ImageUpload {
  import opened Wrappers
  import Text

  /** A chosen file: its name, MIME type and size in bytes. */
  datatype File = File(name: string, mime: string, size: nat)

  const ValidTypes := ["image/png", "image/jpg", "image/jpeg", "image/gif", "image/webp"]
  const DefaultMaxImages := 50
  const DefaultMaxSizeMB := 10
  const TypeError := "Invalid file type. Please upload PNG, JPG, JPEG, GIF, or WEBP images."

  function SizeError(maxSizeMB: nat): string {
    "File size exceeds " + Text.NatToString(maxSizeMB) + "MB limit."
  }

  function CountError(maxImages: nat): string {
    "You can only upload up to " + Text.NatToString(maxImages) + " images."
  }

  /** `validateFile`: the type is checked before the size, and a size equal to the limit passes. */
  function ValidateFile(f: File, maxSizeMB: nat): (r: Option<string>)
    ensures f.mime !in ValidTypes ==> r == Some(TypeError)
    ensures f.mime in ValidTypes && f.size <= maxSizeMB * 1024 * 1024 ==> r == None
    ensures f.mime in ValidTypes && f.size > maxSizeMB * 1024 * 1024 ==> r == Some(SizeError(maxSizeMB))
  {
    if f.mime !in ValidTypes then Some(TypeError)
    else if f.size > maxSizeMB * 1024 * 1024 then Some(SizeError(maxSizeMB))
    else None
  }

  /** The files of a batch that pass, in batch order. */
  function Accepted(files: seq<File>, maxSizeMB: nat): (r: seq<File>)
    ensures |r| <= |files|
    ensures forall f :: f in r <==> f in files && ValidateFile(f, maxSizeMB).None?
  {
    if files == [] then []
    else (if ValidateFile(files[0], maxSizeMB).None? then [files[0]] else []) + Accepted(files[1..], maxSizeMB)
  }

  /** The error messages of a batch, in batch order: one per file that does not pass. */
  function Errors(files: seq<File>, maxSizeMB: nat): seq<string> {
    if files == [] then []
    else
      var e := ValidateFile(files[0], maxSizeMB);
      (if e.Some? then [e.value] else []) + Errors(files[1..], maxSizeMB)
  }

  /** Every file of a batch is either accepted or reported by one error. */
  lemma {:induction false} ErrorsCount(files: seq<File>, maxSizeMB: nat)
    ensures |Errors(files, maxSizeMB)| + |Accepted(files, maxSizeMB)| == |files|
  {
    if files != [] {
      ErrorsCount(files[1..], maxSizeMB);
    }
  }

  lemma {:induction false} AcceptedAppend(files: seq<File>, f: File, maxSizeMB: nat)
    ensures Accepted(files + [f], maxSizeMB) == Accepted(files, maxSizeMB) + (if ValidateFile(f, maxSizeMB).None? then [f] else [])
  {
    var last := if ValidateFile(f, maxSizeMB).None? then [f] else [];
    if files != [] {
      var fs := files + [f];
      assert fs[0] == files[0] && fs[1..] == files[1..] + [f];
      AcceptedAppend(files[1..], f, maxSizeMB);
      var first := if ValidateFile(files[0], maxSizeMB).None? then [files[0]] else [];
      calc {
        Accepted(fs, maxSizeMB);
        first + Accepted(files[1..] + [f], maxSizeMB);
        first + (Accepted(files[1..], maxSizeMB) + last);
        (first + Accepted(files[1..], maxSizeMB)) + last;
        Accepted(files, maxSizeMB) + last;
      }
    } else {
      assert Accepted([f][1..], maxSizeMB) == [];
    }
  }

  lemma {:induction false} ErrorsAppend(files: seq<File>, f: File, maxSizeMB: nat)
    ensures Errors(files + [f], maxSizeMB) == Errors(files, maxSizeMB) + (if ValidateFile(f, maxSizeMB).Some? then [ValidateFile(f, maxSizeMB).value] else [])
  {
    var e := ValidateFile(f, maxSizeMB);
    var last := if e.Some? then [e.value] else [];
    if files != [] {
      var fs := files + [f];
      assert fs[0] == files[0] && fs[1..] == files[1..] + [f];
      ErrorsAppend(files[1..], f, maxSizeMB);
      var h := ValidateFile(files[0], maxSizeMB);
      var first := if h.Some? then [h.value] else [];
      calc {
        Errors(fs, maxSizeMB);
        first + Errors(files[1..] + [f], maxSizeMB);
        first + (Errors(files[1..], maxSizeMB) + last);
        (first + Errors(files[1..], maxSizeMB)) + last;
        Errors(files, maxSizeMB) + last;
      }
    } else {
      assert Errors([f][1..], maxSizeMB) == [];
    }
  }

  /** The `forEach` over a batch: the files that pass and the errors of those that do not, in order. */
  method Scan(files: seq<File>, maxSizeMB: nat) returns (valid: seq<File>, errors: seq<string>)
    ensures valid == Accepted(files, maxSizeMB) && errors == Errors(files, maxSizeMB)
  {
    valid := [];
    errors := [];
    var i := 0;
    while i < |files|
      invariant 0 <= i <= |files|
      invariant valid == Accepted(files[..i], maxSizeMB)
      invariant errors == Errors(files[..i], maxSizeMB)
    {
      AcceptedAppend(files[..i], files[i], maxSizeMB);
      ErrorsAppend(files[..i], files[i], maxSizeMB);
      assert files[..i + 1] == files[..i] + [files[i]];
      var e := ValidateFile(files[i], maxSizeMB);
      if e.Some? {
        errors := errors + [e.value];
      } else {
        valid := valid + [files[i]];
      }
      i := i + 1;
    }
    assert files[..i] == files;
  }

  /** The picker; `images` is the list the parent passes in and replaces on each change. */
  class Uploader {
    const maxImages: nat
    const maxSizeMB: nat
    var images: seq<File>
    var error: string

    constructor (initial: seq<File>, maxCount: nat, maxMB: nat)
      ensures images == initial && maxImages == maxCount && maxSizeMB == maxMB && error == ""
    {
      images := initial;
      maxImages := maxCount;
      maxSizeMB := maxMB;
      error := "";
    }

    /** The drop area and the input are disabled once the list is full. */
    predicate Disabled()
      reads this
    {
      |images| >= maxImages
    }

    /**
     * `processFiles`. The readers finish in an order the page does not
     * control: `arrival` is the accepted files in the order their previews
     * load, which the parent receives after the images it already had.
     */
    method ProcessFiles(files: seq<File>, arrival: seq<File>)
      requires multiset(arrival) == multiset(Accepted(files, maxSizeMB))
      modifies this`images, this`error
      ensures |old(images)| + |files| > maxImages ==> images == old(images) && error == CountError(maxImages)
      ensures |old(images)| + |files| <= maxImages ==>
        && (Accepted(files, maxSizeMB) == [] ==> images == old(images))
        && (Accepted(files, maxSizeMB) != [] ==> images == old(images) + arrival)
        && (Errors(files, maxSizeMB) == [] ==> error == "")
        && (Errors(files, maxSizeMB) != [] ==> error == Errors(files, maxSizeMB)[0])
      ensures |images| > |old(images)| ==> |images| <= maxImages
      ensures old(Disabled()) && files != [] ==> images == old(images) && error == CountError(maxImages)
    {
      error := "";
      if |images| + |files| > maxImages {
        error := CountError(maxImages);
        return;
      }
      var valid, errors := Scan(files, maxSizeMB);
      if |valid| > 0 {
        assert |arrival| == |multiset(arrival)| == |valid|;
        images := images + arrival;
      }
      if |errors| > 0 {
        error := errors[0];
      }
    }

    /** `removeImage`: the parent gets the list without element `index`, and the error is cleared. */
    method RemoveImage(index: int)
      modifies this`images, this`error
      ensures 0 <= index < |old(images)| ==> images == old(images)[..index] + old(images)[index + 1..]
      ensures !(0 <= index < |old(images)|) ==> images == old(images)
      ensures error == ""
    {
      if 0 <= index < |images| {
        images := images[..index] + images[index + 1..];
      }
      error := "";
    }
  }

  /** Removing element `i` shortens the list by one and keeps every other element in order. */
  lemma RemovalKeepsOthers(images: seq<File>, i: int)
    requires 0 <= i < |images|
    ensures var r := images[..i] + images[i + 1..];
      && |r| == |images| - 1
      && (forall j :: 0 <= j < i ==> r[j] == images[j])
      && (forall j :: i <= j < |r| ==> r[j] == images[j + 1])
  {
  }
}
