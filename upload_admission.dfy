/**
 * Which uploads reach the analysis on the server (backend/server.js): multer
 * accepts only files whose mimetype starts with "image/" and that are at
 * most 10 MiB, and the /analyze handler then asks for 2 to 4 of them.
 */
module UploadAdmission {
  import opened Wrappers

  /** multer's fileSize limit, 10 * 1024 * 1024 bytes. */
  const MaxFileSize: nat := 10 * 1024 * 1024
  const MinPhotos: nat := 2
  const MaxPhotos: nat := 4
  const ImagePrefix: string := "image/"

  datatype UploadedFile = UploadedFile(mimetype: string, size: nat)

  datatype Rejection =
    | NotAnImage(index: nat)      // fileFilter: "Only image files are allowed"
    | FileTooLarge(index: nat)    // multer's LIMIT_FILE_SIZE
    | TooFewPhotos                // 400 "At least 2 photos are required for analysis"
    | TooManyPhotos               // 400 "Maximum 4 photos allowed"

  datatype Decision = Admitted | Rejected(reason: Rejection)

  /** `file.mimetype.startsWith('image/')` */
  predicate IsImage(f: UploadedFile)
  {
    ImagePrefix <= f.mimetype
  }

  /**
   * multer's `fileSize` limit, read as refusing only files larger than the limit: the behaviour
   * of busboy 0.x, the parser of older multer releases. busboy 1.x refuses a file as soon as its
   * byte count reaches the limit, so there a file of exactly the limit is refused.
   */
  predicate WithinSizeLimit(f: UploadedFile)
  {
    f.size <= MaxFileSize
  }

  predicate FileAccepted(f: UploadedFile)
  {
    IsImage(f) && WithinSizeLimit(f)
  }

  /** The admission rule in one formula. */
  predicate Admits(files: seq<UploadedFile>)
  {
    && MinPhotos <= |files| <= MaxPhotos
    && forall i :: 0 <= i < |files| ==> FileAccepted(files[i])
  }

  /**
   * The first file from position `from` on that multer refuses, and why: the
   * filter sees the mimetype before the size limit is reached.
   */
  function FirstRejectedFile(files: seq<UploadedFile>, from: nat): (r: Option<Rejection>)
    requires from <= |files|
    ensures r.None? <==> forall i :: from <= i < |files| ==> FileAccepted(files[i])
    ensures r.Some? ==> (r.value.NotAnImage? || r.value.FileTooLarge?)
    ensures r.Some? && r.value.NotAnImage? ==>
      from <= r.value.index < |files| && !IsImage(files[r.value.index])
      && forall i :: from <= i < r.value.index ==> FileAccepted(files[i])
    ensures r.Some? && r.value.FileTooLarge? ==>
      from <= r.value.index < |files| && IsImage(files[r.value.index]) && !WithinSizeLimit(files[r.value.index])
      && forall i :: from <= i < r.value.index ==> FileAccepted(files[i])
    decreases |files| - from
  {
    if from == |files| then None
    else if !IsImage(files[from]) then Some(NotAnImage(from))
    else if !WithinSizeLimit(files[from]) then Some(FileTooLarge(from))
    else FirstRejectedFile(files, from + 1)
  }

  /**
   * multer's per-file checks, then the handler's count checks
   * (`!files || files.length < 2`, then `files.length > 4`).
   */
  function Admit(files: seq<UploadedFile>): (d: Decision)
    ensures d.Admitted? <==> Admits(files)
    ensures d == Rejected(TooFewPhotos) ==>
      |files| < MinPhotos && forall i :: 0 <= i < |files| ==> FileAccepted(files[i])
    ensures d == Rejected(TooManyPhotos) ==>
      |files| > MaxPhotos && forall i :: 0 <= i < |files| ==> FileAccepted(files[i])
    ensures d.Rejected? && (d.reason.NotAnImage? || d.reason.FileTooLarge?) ==>
      d.reason.index < |files| && !FileAccepted(files[d.reason.index])
  {
    match FirstRejectedFile(files, 0)
    case Some(rejection) => Rejected(rejection)
    case None =>
      if |files| < MinPhotos then Rejected(TooFewPhotos)
      else if |files| > MaxPhotos then Rejected(TooManyPhotos)
      else Admitted
  }

  /** Under the reading of `fileSize` above, a file of exactly 10 MiB passes; one byte more does not. */
  lemma SizeLimitIsInclusive()
    ensures WithinSizeLimit(UploadedFile("image/jpeg", 10485760))
    ensures !WithinSizeLimit(UploadedFile("image/jpeg", 10485761))
  {
  }

  /** The prefix test is case-sensitive and needs the slash. */
  lemma MimetypePrefix()
    ensures IsImage(UploadedFile("image/png", 1))
    ensures !IsImage(UploadedFile("Image/png", 1))
    ensures !IsImage(UploadedFile("image", 1))
    ensures !IsImage(UploadedFile("application/pdf", 1))
  {
    assert "Image/png"[0] != "image/"[0];
    assert "application/pdf"[0] != "image/"[0];
  }
}
