/**
 * The upload filter in front of the widget save route: the extension and
 * the MIME type must both match `/jpeg|jpg|png/`, and the body may not
 * exceed 5 MiB.
 */
module UploadFilter {
  import opened Wrappers
  import opened JsText

  const MaxUploadBytes: nat := 5 * 1024 * 1024
  const UploadRejected: string := "Only JPEG/PNG images are allowed"

  /** `/jpeg|jpg|png/.test(s)`: an unanchored match of any of the three words. */
  predicate ImageTypePattern(s: string) {
    Contains(s, "jpeg") || Contains(s, "jpg") || Contains(s, "png")
  }

  /**
   * `fileFilter`, given the extension `path.extname` took from the original
   * name and the declared MIME type: `None` accepts, `Some(e)` is the error
   * handed to the callback.
   */
  function FileFilter(extension: string, mimetype: string): (r: Option<string>)
    ensures r.None? <==> ImageTypePattern(ToLower(extension)) && ImageTypePattern(mimetype)
    ensures r.Some? ==> r.value == UploadRejected
  {
    if ImageTypePattern(ToLower(extension)) && ImageTypePattern(mimetype) then None else Some(UploadRejected)
  }

  /** The extension is lower-cased before the test, so its case never matters. */
  lemma ExtensionCaseIgnored(extension: string, mimetype: string)
    ensures FileFilter(extension, mimetype) == FileFilter(ToLower(extension), mimetype)
  {
    ToLowerIdempotent(extension);
  }

  /** An upper-case extension such as `.PNG` passes. */
  lemma UpperExtensionAccepted()
    ensures FileFilter(".PNG", "image/png") == None
  {
    var e := ToLower(".PNG");
    assert e[0] == '.' && e[1] == 'p' && e[2] == 'n' && e[3] == 'g';
    assert e == ".png";
    ContainsInfix(".", "png", "");
    assert ".png" == "." + "png" + "";
    ContainsInfix("image/", "png", "");
    assert "image/png" == "image/" + "png" + "";
  }

  /** The MIME type is tested as given: an upper-case `image/PNG` is refused even with a `.png` extension. */
  lemma MimetypeCaseMatters()
    ensures FileFilter(".png", "image/PNG") == Some(UploadRejected)
  {
    var m := "image/PNG";
    ContainsNeedsChar(m, "jpeg", 0);
    ContainsNeedsChar(m, "jpg", 0);
    ContainsNeedsChar(m, "png", 0);
  }

  /** The pattern is not anchored: any text around a matching word is accepted too. */
  lemma PatternUnanchored(p: string, s: string, q: string)
    requires ImageTypePattern(s)
    ensures ImageTypePattern(p + s + q)
  {
    if Contains(s, "jpeg") {
      ContainsPrefixed(p, s, "jpeg"); ContainsSuffixed(p + s, q, "jpeg");
    } else if Contains(s, "jpg") {
      ContainsPrefixed(p, s, "jpg"); ContainsSuffixed(p + s, q, "jpg");
    } else {
      ContainsPrefixed(p, s, "png"); ContainsSuffixed(p + s, q, "png");
    }
  }

  /** What the middleware makes of one file: stored, refused by the filter, or cut off by the size limit. */
  datatype UploadOutcome = Stored | Refused(message: string) | LimitExceeded

  /**
   * The filter decides on the file before its body is read; a body longer
   * than `MaxUploadBytes` then fails with the size-limit error.
   */
  function Upload(extension: string, mimetype: string, size: nat): (o: UploadOutcome)
    ensures o.Stored? <==> FileFilter(extension, mimetype).None? && size <= MaxUploadBytes
    ensures o.Refused? <==> FileFilter(extension, mimetype).Some?
    ensures o.Refused? ==> o.message == UploadRejected
  {
    match FileFilter(extension, mimetype)
    case Some(e) => Refused(e)
    case None => if size > MaxUploadBytes then LimitExceeded else Stored
  }

  /** The limit is inclusive: a body of exactly 5 MiB is stored, one byte more is not. */
  lemma LimitInclusive(extension: string, mimetype: string)
    requires FileFilter(extension, mimetype).None?
    ensures Upload(extension, mimetype, 5242880) == Stored
    ensures Upload(extension, mimetype, 5242881) == LimitExceeded
  {
  }
}
