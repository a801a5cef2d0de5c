/** The upload handler of server-final.js: which files multer lets through
    (`fileFilter`, then the 20 MB limit), and the public `/uploads/` URL derived
    from a stored file name. Writing the file to disk, and the stored name built
    from the clock and a random number, are outside the model: the stored name
    arrives as part of the upload. */
module Uploads {
  import opened Values
  import opened Http
  import opened Strings

  const UploadsPrefix := "/uploads/"

  /** `name ? `/uploads/${name}` : null`. */
  function UploadUrl(name: Option<string>): (url: Option<string>)
    ensures url.Some? <==> Truthy(name)
    ensures url.Some? ==> url.value == UploadsPrefix + name.value
  {
    if Truthy(name) then Some(UploadsPrefix + name.value) else None
  }

  /** The file name an upload URL points at; `None` for anything else. */
  function UploadedName(url: Option<string>): (name: Option<string>)
    ensures name.Some? ==> Truthy(name) && url == Some(UploadsPrefix + name.value)
  {
    if url.Some? && |url.value| > |UploadsPrefix| && url.value[..|UploadsPrefix|] == UploadsPrefix
    then assert url.value == url.value[..|UploadsPrefix|] + url.value[|UploadsPrefix|..];
         Some(url.value[|UploadsPrefix|..])
    else None
  }

  /** The URL loses nothing but the difference between a missing and a blank name. */
  lemma UploadUrlRoundTrip(name: Option<string>)
    ensures UploadedName(UploadUrl(name)) == (if Truthy(name) then name else None)
  {
    if Truthy(name) {
      var url := UploadsPrefix + name.value;
      assert url[..|UploadsPrefix|] == UploadsPrefix;
      assert url[|UploadsPrefix|..] == name.value;
    }
  }

  /** Every upload URL is the URL of the name recovered from it. */
  lemma UploadedNameRoundTrip(url: Option<string>)
    requires UploadedName(url).Some?
    ensures UploadUrl(UploadedName(url)) == url
  {
  }

  /** `path.extname(name)` for a name without `/`: from the last `.` to the end,
      or `""` when there is no dot, when the only candidate dot is the first
      character (`.bashrc`), or for `..`. */
  function Extname(name: string): (ext: string)
    ensures ext != "" ==> ext[0] == '.' && |ext| < |name| && name[|name| - |ext|..] == ext
    ensures forall i :: 0 < i < |ext| ==> ext[i] != '.'
    ensures ext != "" <==> name != ".." && exists k :: 0 < k < |name| && name[k] == '.'
  {
    match LastIndexOf(name, '.')
    case None => ""
    case Some(d) => if d == 0 || name == ".." then "" else name[d..]
  }

  /** The extension of a name ending in a dot followed by dot-free text is that ending. */
  lemma ExtnameOfSuffix(base: string, ext: string)
    requires |base| > 0 && |ext| >= 2 && ext[0] == '.'
    requires forall i :: 0 < i < |ext| ==> ext[i] != '.'
    ensures Extname(base + ext) == ext
  {
    var name := base + ext;
    assert name[|base|] == '.';
    assert forall j :: |base| < j < |name| ==> name[j] == ext[j - |base|];
    assert LastIndexOf(name, '.') == Some(|base|);
    assert name[|base|..] == ext;
  }

  /** `/jpeg|jpg|png|gif|webp/.test(s)`: the regular expression is not anchored,
      so any occurrence of one of the five words anywhere in `s` matches. */
  predicate AllowedType(s: string) {
    Contains(s, "jpeg") || Contains(s, "jpg") || Contains(s, "png") || Contains(s, "gif") || Contains(s, "webp")
  }

  /** multer's `fileFilter`: both the lower-cased extension of the client's file
      name and the (not lower-cased) MIME type must match. */
  predicate FileFilter(originalName: string, mimetype: string) {
    AllowedType(ToLowerCase(Extname(originalName))) && AllowedType(mimetype)
  }

  /** `limits.fileSize`: 20 MB. */
  const MaxFileSize := 20 * 1024 * 1024

  /** A file sent in the multipart field the route reads, with the name it was stored under. */
  datatype UploadedFile = UploadedFile(originalName: string, mimetype: string, size: nat, storedName: string)

  /** `upload.single(field)` followed by the error middlewares: no file passes
      through as `None`; a file the filter refuses is a plain `Error`, which
      `handleMulterError` forwards to the catch-all handler (500); a file over the
      limit is multer's `LIMIT_FILE_SIZE` error (400); otherwise the stored name. */
  function Receive(file: Option<UploadedFile>): (r: Reply<Option<string>>)
    ensures r == Ok(None) <==> file.None?
    ensures r == ServerError <==> file.Some? && !FileFilter(file.value.originalName, file.value.mimetype)
    ensures r == BadRequest <==> file.Some? && FileFilter(file.value.originalName, file.value.mimetype)
                                 && file.value.size > MaxFileSize
    ensures r.Ok? && r.value.Some? <==> file.Some? && FileFilter(file.value.originalName, file.value.mimetype)
                                         && file.value.size <= MaxFileSize
    ensures r.Ok? && r.value.Some? ==> r.value.value == file.value.storedName
  {
    match file
    case None => Ok(None)
    case Some(f) =>
      if !FileFilter(f.originalName, f.mimetype) then ServerError
      else if f.size > MaxFileSize then BadRequest
      else Ok(Some(f.storedName))
  }

  /** An `.exe` file is refused whatever MIME type it declares. */
  lemma ExeRejected(base: string, mimetype: string)
    requires |base| > 0
    ensures !FileFilter(base + ".exe", mimetype)
  {
    ExtnameOfSuffix(base, ".exe");
    ToLowerCaseOfLower(".exe");
    ExeNotAllowed();
  }

  lemma ExeNotAllowed()
    ensures !AllowedType(".exe")
  {
    NotAllowedWithoutKeyLetters(".exe");
  }

  /** Every allowed word holds one of the letters j, p, f or w, so text
      without those letters matches none of them. */
  lemma NotAllowedWithoutKeyLetters(s: string)
    requires 'j' !in s && 'p' !in s && 'f' !in s && 'w' !in s
    ensures !AllowedType(s)
  {
    MissingCharNotContained(s, "jpeg", 0);
    MissingCharNotContained(s, "jpg", 0);
    MissingCharNotContained(s, "png", 0);
    MissingCharNotContained(s, "gif", 2);
    MissingCharNotContained(s, "webp", 0);
  }

  /** The extension is lower-cased before the test, so `.PNG` passes. */
  lemma UpperCaseExtensionAccepted(base: string)
    requires |base| > 0
    ensures FileFilter(base + ".PNG", "image/png")
  {
    ExtnameOfSuffix(base, ".PNG");
    LowerPngExtension();
    PngWordsAllowed();
  }

  lemma LowerPngExtension()
    ensures ToLowerCase(".PNG") == ".png"
  {
  }

  /** The `.png` extension and the `image/png` type both contain `png`. */
  lemma PngWordsAllowed()
    ensures AllowedType(".png") && AllowedType("image/png")
  {
    assert OccursAt(".png", "png", 1);
    assert OccursAt("image/png", "png", 6);
  }

  /** The MIME type is not lower-cased, so `image/PNG` is refused whatever the name. */
  lemma UpperCaseMimetypeRejected(originalName: string)
    ensures !FileFilter(originalName, "image/PNG")
  {
    NotAllowedWithoutKeyLetters("image/PNG");
  }

  /** The test is unanchored: an extension or MIME type that merely contains an
      allowed word passes. */
  lemma ContainedWordAccepted(base: string)
    requires |base| > 0
    ensures FileFilter(base + ".jpgx", "application/x-png")
  {
    ExtnameOfSuffix(base, ".jpgx");
    ToLowerCaseOfLower(".jpgx");
    assert OccursAt(".jpgx", "jpg", 1);
    assert OccursAt("application/x-png", "png", 14);
  }

  /** A 25 MB PNG image is refused with 400. */
  lemma OversizedImageRejected(base: string, storedName: string)
    requires |base| > 0
    ensures Receive(Some(UploadedFile(base + ".png", "image/png", 25 * 1024 * 1024, storedName))) == BadRequest
  {
    PngAccepted(base);
  }

  /** A `.png` file declared as `image/png` passes the filter. */
  lemma PngAccepted(base: string)
    requires |base| > 0
    ensures FileFilter(base + ".png", "image/png")
  {
    ExtnameOfSuffix(base, ".png");
    ToLowerCaseOfLower(".png");
    PngWordsAllowed();
  }
}
