/**
 * The checks the product controller makes before handing a request to the product service:
 * an authenticated user for `create`, and the file-list rules for `uploadImages`.
 */
module ProductController {
  import opened Wrappers
  import opened JsStrings
  import opened JsMap
  import opened Http

  const NotAuthenticated := "User not authenticated"
  const NoFiles := "No files uploaded"
  const FileTooLarge := "File size too large. Maximum 10MB per file."
  const MaxImagesPerProduct := 6
  const MaxFileSize := 10 * 1024 * 1024
  const AllowedTypes := ["image/jpeg", "image/jpg", "image/png", "image/webp"]

  /** `req.user.sub`, whatever kind of principal the guard stored. */
  function SubjectOf(user: Principal): Option<string> {
    match user
    case NoUser => None
    case TelegramUser(query) => Get(query, "sub")
    case TokenUser(payload) => payload.sub
  }

  /** `create`: the user id the new product is owned by, or BadRequest without a truthy `sub`. */
  function CreateOwner(user: Principal): (r: Result<string>)
    ensures r.Ok? <==> Truthy(SubjectOf(user))
    ensures r.Ok? ==> Some(r.value) == SubjectOf(user) && r.value != ""
    ensures r.Err? ==> r.error == BadRequest(NotAuthenticated)
  {
    var sub := SubjectOf(user);
    if !Truthy(sub) then Err(BadRequest(NotAuthenticated)) else Ok(sub.value)
  }

  /** The fields of an uploaded file the controller looks at. */
  datatype UploadedFile = UploadedFile(mimetype: string, size: int)

  function TooMany(count: int, existing: int): string {
    "Cannot upload " + IntToString(count) + " images. Product already has " + IntToString(existing) +
    " images. Maximum 6 images allowed per product."
  }

  function InvalidType(mimetype: string): string {
    "Invalid file type: " + mimetype + ". Only JPEG, PNG, and WebP are allowed."
  }

  predicate Acceptable(f: UploadedFile) {
    f.mimetype in AllowedTypes && f.size <= MaxFileSize
  }

  /** The error the first file failing a check raises: its type is tested before its size. */
  function FileError(f: UploadedFile): HttpError {
    if f.mimetype !in AllowedTypes then BadRequest(InvalidType(f.mimetype)) else BadRequest(FileTooLarge)
  }

  /** The `for…of` over the files: the position of the first unacceptable file, if any. */
  function FirstBadFile(files: seq<UploadedFile>): (r: Option<nat>)
    ensures r.Some? ==> r.value < |files| && !Acceptable(files[r.value])
    ensures r.Some? ==> forall j :: 0 <= j < r.value ==> Acceptable(files[j])
    ensures r.None? <==> forall j :: 0 <= j < |files| ==> Acceptable(files[j])
  {
    if |files| == 0 then None
    else if !Acceptable(files[0]) then Some(0)
    else match FirstBadFile(files[1..])
      case None => None
      case Some(k) => Some(k + 1)
  }

  /**
   * `uploadImages`: `files` is the uploaded list (absent counts as empty) and `existing` the
   * number of images the product already has. The checks run in order; `Ok` forwards the
   * files to the service.
   */
  function UploadCheck(files: Option<seq<UploadedFile>>, existing: int): (r: Result<seq<UploadedFile>>)
    ensures files.None? || |files.value| == 0 ==> r == Err(BadRequest(NoFiles))
    ensures files.Some? && |files.value| > 0 && existing + |files.value| > MaxImagesPerProduct ==>
      r == Err(BadRequest(TooMany(|files.value|, existing)))
    ensures r.Ok? <==> (files.Some? && 0 < |files.value| && existing + |files.value| <= MaxImagesPerProduct &&
                       forall i :: 0 <= i < |files.value| ==> Acceptable(files.value[i]))
    ensures r.Ok? ==> r.value == files.value
    ensures (files.Some? && 0 < |files.value| && existing + |files.value| <= MaxImagesPerProduct &&
             FirstBadFile(files.value).Some?) ==>
      r == Err(FileError(files.value[FirstBadFile(files.value).value]))
  {
    if files.None? || |files.value| == 0 then Err(BadRequest(NoFiles))
    else if existing + |files.value| > MaxImagesPerProduct then Err(BadRequest(TooMany(|files.value|, existing)))
    else match FirstBadFile(files.value)
      case Some(k) => Err(FileError(files.value[k]))
      case None => Ok(files.value)
  }

  /** A batch the controller forwards passes the service's own limit of six files per call. */
  lemma ForwardedWithinServiceLimit(files: Option<seq<UploadedFile>>, existing: int)
    requires existing >= 0 && UploadCheck(files, existing).Ok?
    ensures 1 <= |UploadCheck(files, existing).value| <= MaxImagesPerProduct
  {
  }

  /** A file of an allowed type over 10 MB is rejected for its size even when other files are fine. */
  lemma OversizedFileRejected(ok: UploadedFile, big: UploadedFile)
    requires Acceptable(ok) && big.mimetype in AllowedTypes && big.size > MaxFileSize
    ensures UploadCheck(Some([ok, big]), 0) == Err(BadRequest(FileTooLarge))
  {
    assert [ok, big][1..] == [big];
    assert FirstBadFile([big]) == Some(0);
    assert FirstBadFile([ok, big]) == Some(1);
  }
}
