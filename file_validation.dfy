/** The media validator and the unique file name generator of the upload path. */
module FileValidation {
  import opened Wrappers
  import opened Strings
  import opened Constants
  import opened NodePath
  import opened JobModel

  /** `isValid`, `fileType` and the optional `error` of a validation. */
  datatype ValidationResult = ValidationResult(isValid: bool, fileType: FileType, error: Option<string>)

  function SizeLimitMessage(): string {
    "File size exceeds maximum allowed size of " + NatToString(MaxFileSize / 1024 / 1024) + "MB"
  }

  function UnsupportedTypeMessage(): string {
    "Unsupported file type. Supported types: " + Join(ImageExtensions + VideoExtensions, ", ")
  }

  /** `validateFile`: the size check first, then the mime type together with the
      lower-cased extension against the image lists, then against the video lists.
      A rejection reports `image` as a placeholder file type. */
  function ValidateFile(filename: string, mimeType: string, fileSize: nat): (r: ValidationResult)
    ensures r.isValid <==> r.error.None?
    ensures !r.isValid ==> r.fileType == Image && r.error.value != ""
  {
    if fileSize > MaxFileSize then
      ValidationResult(false, Image, Some(SizeLimitMessage()))
    else
      var extension := ToLower(ExtName(filename));
      if mimeType in ImageMimeTypes && extension in ImageExtensions then
        ValidationResult(true, Image, None)
      else if mimeType in VideoMimeTypes && extension in VideoExtensions then
        ValidationResult(true, Video, None)
      else
        ValidationResult(false, Image, Some(UnsupportedTypeMessage()))
  }

  /** The allow-lists of one media kind. */
  function MimeTypesOf(t: FileType): seq<string> {
    match t
    case Image => ImageMimeTypes
    case Video => VideoMimeTypes
  }

  function ExtensionsOf(t: FileType): seq<string> {
    match t
    case Image => ImageExtensions
    case Video => VideoExtensions
  }

  /** Both the mime type and the lower-cased extension belong to the lists of `t`. */
  predicate Matches(t: FileType, filename: string, mimeType: string) {
    mimeType in MimeTypesOf(t) && ToLower(ExtName(filename)) in ExtensionsOf(t)
  }

  /** A file over the limit is rejected whatever its name and type; a file of exactly
      the limit passes the size check. */
  lemma OversizeRejected(filename: string, mimeType: string, fileSize: nat)
    ensures fileSize > MaxFileSize ==> !ValidateFile(filename, mimeType, fileSize).isValid
    ensures fileSize > MaxFileSize ==> ValidateFile(filename, mimeType, fileSize).error == Some(SizeLimitMessage())
    ensures ValidateFile(filename, mimeType, MaxFileSize) == ValidateFile(filename, mimeType, 0)
  {
  }

  /** The validator accepts a file as kind `t` exactly when the size is within the
      limit and both the mime type and the extension belong to the lists of `t`. */
  lemma AcceptedAsIff(t: FileType, filename: string, mimeType: string, fileSize: nat)
    ensures var r := ValidateFile(filename, mimeType, fileSize);
      (r.isValid && r.fileType == t) <==> (fileSize <= MaxFileSize && Matches(t, filename, mimeType))
  {
    MimeListsDisjoint();
  }

  /** Accepted iff within the limit and mime type and extension agree on one kind. */
  lemma AcceptedIff(filename: string, mimeType: string, fileSize: nat)
    ensures ValidateFile(filename, mimeType, fileSize).isValid <==>
      fileSize <= MaxFileSize && (Matches(Image, filename, mimeType) || Matches(Video, filename, mimeType))
  {
  }

  /** A mime type of one kind with an extension of the other is rejected. */
  lemma CrossKindRejected(filename: string, mimeType: string, fileSize: nat)
    requires || (mimeType in ImageMimeTypes && ToLower(ExtName(filename)) in VideoExtensions)
             || (mimeType in VideoMimeTypes && ToLower(ExtName(filename)) in ImageExtensions)
    ensures !ValidateFile(filename, mimeType, fileSize).isValid
  {
    MimeListsDisjoint();
    ExtensionListsDisjoint();
  }

  /** Only the lower-cased extension matters: names whose extensions agree up to
      case get the same verdict. */
  lemma ExtensionCaseIgnored(f1: string, f2: string, mimeType: string, fileSize: nat)
    requires ToLower(ExtName(f1)) == ToLower(ExtName(f2))
    ensures ValidateFile(f1, mimeType, fileSize) == ValidateFile(f2, mimeType, fileSize)
  {
  }

  /** A name without extension (including one whose only dot leads) is rejected. */
  lemma MissingExtensionRejected(filename: string, mimeType: string, fileSize: nat)
    requires ExtName(filename) == ""
    ensures !ValidateFile(filename, mimeType, fileSize).isValid
  {
    assert ToLower("") == "";
  }

  /** `a.jpg` sent as `image/jpeg` is accepted as an image. */
  lemma AcceptsJpegImage()
    ensures ValidateFile("a.jpg", "image/jpeg", 1000) == ValidationResult(true, Image, None)
  {
    ExtNameOfA(".jpg");
    assert "a" + ".jpg" == "a.jpg";
    LowerJpg();
    JpegListed();
  }

  /** An upper-case `.JPG` is accepted like `.jpg`. */
  lemma AcceptsUpperCaseExtension()
    ensures ValidateFile("a.JPG", "image/jpeg", 1000) == ValidationResult(true, Image, None)
  {
    ExtNameOfA(".JPG");
    assert "a" + ".JPG" == "a.JPG";
    LowerJpg();
    JpegListed();
  }

  lemma ExtNameOfA(e: string)
    requires ExtensionShape(e)
    ensures ExtName("a" + e) == e
  {
    ExtNameOfStemAndTail("a", e);
  }

  lemma JpegListed()
    ensures ".jpg" in ImageExtensions && "image/jpeg" in ImageMimeTypes
  {
    assert ".jpg" == ImageExtensions[0] && "image/jpeg" == ImageMimeTypes[0];
  }

  lemma LowerJpg()
    ensures ToLower(".JPG") == ".jpg" && ToLower(".jpg") == ".jpg"
  {
    var r := ToLower(".JPG");
    assert r[0] == '.' && r[1] == 'j' && r[2] == 'p' && r[3] == 'g';
    var q := ToLower(".jpg");
    assert q[0] == '.' && q[1] == 'j' && q[2] == 'p' && q[3] == 'g';
  }

  /** The mime type is compared exactly, without case folding. */
  lemma MimeTypeCaseMatters()
    ensures !ValidateFile("a.jpg", "IMAGE/JPEG", 1000).isValid
  {
    assert "IMAGE/JPEG" !in ImageMimeTypes && "IMAGE/JPEG" !in VideoMimeTypes;
  }

  /** `a.txt` sent as `text/plain` is rejected. */
  lemma RejectsText()
    ensures !ValidateFile("a.txt", "text/plain", 1000).isValid
  {
    assert "text/plain" !in ImageMimeTypes && "text/plain" !in VideoMimeTypes;
  }

  /** `.png` has no extension for `extname`, so it is rejected. */
  lemma RejectsLeadingDotName()
    ensures !ValidateFile(".png", "image/png", 1000).isValid
  {
    ExtNameOfLeadingDotName();
    MissingExtensionRejected(".png", "image/png", 1000);
  }

  predicate IsRandomSuffix(random: string) {
    forall i :: 0 <= i < |random| ==> IsLowerAlnum(random[i])
  }

  /** The `<timestamp>-<random>` stem holds no dot and no slash. */
  lemma UniqueStemIsPlain(timestamp: nat, random: string)
    requires IsRandomSuffix(random)
    ensures var stem := NatToString(timestamp) + "-" + random;
      stem != [] && forall j :: 0 <= j < |stem| ==> stem[j] != '.' && stem[j] != '/'
  {
    var d := NatToString(timestamp);
    var stem := d + "-" + random;
    forall j | 0 <= j < |stem| ensures stem[j] != '.' && stem[j] != '/' {
      if j < |d| { assert IsDigit(d[j]); }
      else if j > |d| { assert stem[j] == random[j - |d| - 1]; assert IsLowerAlnum(random[j - |d| - 1]); }
    }
  }

  /** `generateUniqueFilename` with the clock reading and the random base-36 digits
      passed in: `<timestamp>-<random>` followed by the original extension as it was
      written. The result has no slash and the same `extname` as the original. */
  function GenerateUniqueFilename(originalFilename: string, timestamp: nat, random: string): (r: string)
    requires IsRandomSuffix(random)
    ensures ExtName(r) == ExtName(originalFilename)
    ensures r != [] && forall i :: 0 <= i < |r| ==> r[i] != '/'
    ensures IsPrefix(NatToString(timestamp) + "-" + random, r)
  {
    var stem := NatToString(timestamp) + "-" + random;
    var extension := ExtName(originalFilename);
    ExtNameShape(originalFilename);
    UniqueStemIsPlain(timestamp, random);
    PlainStemAndExtension(stem, extension);
    stem + extension
  }

  /** A plain stem followed by an extension keeps the stem as a prefix, has no
      slash, and has that extension. */
  lemma PlainStemAndExtension(stem: string, extension: string)
    requires stem != [] && forall j :: 0 <= j < |stem| ==> stem[j] != '.' && stem[j] != '/'
    requires extension == "" || ExtensionShape(extension)
    ensures ExtName(stem + extension) == extension
    ensures forall i :: 0 <= i < |stem + extension| ==> (stem + extension)[i] != '/'
    ensures IsPrefix(stem, stem + extension)
  {
    ExtNameOfStemAndTail(stem, extension);
    assert (stem + extension)[..|stem|] == stem;
  }
}
