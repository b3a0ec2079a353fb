/**
 * FileUploadUtil: the checks and names behind saving an uploaded part.
 * The configuration (upload directory, size limit, allowed types), the
 * random UUID and the file separator are parameters; the stream copy and
 * the directory creation are file-system I/O and not modelled.
 */
module FileUpload {
  import opened Wrappers
  import opened JavaText

  /** The configured list of allowed content types when none is set. */
  const DEFAULT_ALLOWED_TYPES := "image/jpeg,image/png,application/pdf"

  /** The configured size limit when none is set: 10 MB. */
  const DEFAULT_MAX_FILE_SIZE := 10 * 1024 * 1024

  /**
   * The allowed-type set: the configured string split on ',' (trailing
   * empty entries dropped) with no trimming, so a space after a comma
   * stays part of the next type.
   */
  function AllowedContentTypes(config: string): (r: set<string>)
    ensures forall t :: t in r ==> ',' !in t
    ensures forall t :: t in r <==> t in Split(config, ',')
  {
    set t | t in Split(config, ',')
  }

  /** A list written with ',' between its entries, none of them holding ',', gives back exactly those entries. */
  lemma AllowedTypesOfList(types: seq<string>)
    requires |types| >= 2 && types[|types| - 1] != ""
    requires forall i :: 0 <= i < |types| ==> ',' !in types[i]
    ensures forall t :: t in AllowedContentTypes(Join(types, ',')) <==> t in types
  {
    assert Join(types, ',') + Repeat(',', 0) == Join(types, ',');
    SplitJoin(types, 0, ',');
  }

  /**
   * Why validateFile refuses a part. Each message names the limit it
   * enforces: the size limit in whole megabytes, or the allowed types.
   * The source joins those types with ", " in hash-set iteration order;
   * the model carries the set, not that order.
   */
  datatype UploadError = TooLarge(limitMegabytes: int) | TypeNotAllowed(allowedTypes: set<string>)

  const MEGABYTE := 1024 * 1024

  /**
   * The limit in whole megabytes as the message prints it: Java's long
   * division, which truncates toward zero, so a negative limit of less
   * than one megabyte prints as 0.
   */
  function Megabytes(limit: int): (r: int)
    ensures 0 <= limit ==> 0 <= r * MEGABYTE <= limit < r * MEGABYTE + MEGABYTE
    ensures limit < 0 ==> r * MEGABYTE - MEGABYTE < limit <= r * MEGABYTE <= 0
  {
    if limit >= 0 then limit / MEGABYTE else -((-limit) / MEGABYTE)
  }

  /** Truncation, not flooring: -1 byte is 0 MB and -1048577 bytes is -1 MB. */
  lemma MegabytesTruncate()
    ensures Megabytes(-1) == 0
    ensures Megabytes(-1048577) == -1
    ensures Megabytes(DEFAULT_MAX_FILE_SIZE) == 10
  {
  }

  /**
   * validateFile: the size check first (its message names the limit in
   * whole megabytes), then the content type against the allowed set.
   */
  function ValidateFile(size: int, contentType: string, maxFileSize: int, allowed: set<string>): (r: Option<UploadError>)
    ensures r.None? <==> size <= maxFileSize && contentType in allowed
    ensures size > maxFileSize ==> r == Some(TooLarge(Megabytes(maxFileSize)))
    ensures size <= maxFileSize && contentType !in allowed ==> r == Some(TypeNotAllowed(allowed))
  {
    if size > maxFileSize then Some(TooLarge(Megabytes(maxFileSize)))
    else if contentType !in allowed then Some(TypeNotAllowed(allowed))
    else None
  }

  /**
   * The extension getUniqueFileName keeps: from the last '.' on, when that
   * '.' is not the first character; otherwise nothing.
   */
  function Extension(name: string): (r: string)
    ensures EndsWith(name, r)
    ensures r == "" || (r[0] == '.' && '.' !in r[1..] && |r| < |name|)
    ensures r != "" <==> exists k :: 0 < k < |name| && name[k] == '.'
  {
    var k := LastIndexOf(name, '.');
    if k > 0 then name[k..] else ""
  }

  /** "a.tar.gz" keeps ".gz"; ".bashrc" and "README" keep nothing. */
  lemma ExtensionExamples()
    ensures Extension("a.tar.gz") == ".gz"
    ensures Extension(".bashrc") == ""
    ensures Extension("README") == ""
  {
    assert "a.tar.gz"[5] == '.';
    assert '.' !in "README";
    assert forall k :: 0 < k < |".bashrc"| ==> ".bashrc"[k] != '.';
  }

  /** getUniqueFileName: the UUID text followed by the original's extension. */
  function UniqueFileName(original: string, uuid: string): (r: string)
    ensures StartsWith(r, uuid) && EndsWith(r, Extension(original))
    ensures |r| == |uuid| + |Extension(original)|
  {
    uuid + Extension(original)
  }

  /**
   * A generated name has the original's extension as its own extension,
   * for a UUID text (hex digits and dashes) that is non-empty and has no '.'.
   */
  lemma UniqueNameKeepsExtension(original: string, uuid: string)
    requires uuid != [] && '.' !in uuid
    ensures Extension(UniqueFileName(original, uuid)) == Extension(original)
  {
    var ext := Extension(original);
    var r := UniqueFileName(original, uuid);
    assert r == uuid + ext;
    if ext == "" {
      assert forall k :: 0 < k < |r| ==> r[k] == uuid[k];
    } else {
      var k := LastIndexOf(r, '.');
      assert r[|uuid|] == '.';
      assert forall j :: |uuid| < j < |r| ==> r[j] == ext[1..][j - |uuid| - 1];
      assert k == |uuid|;
      assert r[k..] == ext;
    }
  }

  /** The Content-Disposition element that names the file: trimmed, it starts with "filename". */
  predicate IsFilenameElement(element: string)
  {
    StartsWith(Trim(element), "filename")
  }

  /**
   * The name in such an element: what follows the first '=' (the whole
   * element when there is none, since indexOf answers -1), trimmed, every
   * '"' removed.
   */
  function FilenameValue(element: string): (r: string)
    ensures '"' !in r
  {
    RemoveAll(Trim(element[IndexOf(element, '=') + 1..]), '"')
  }

  /** The name getSubmittedFileName finds among the elements: that of the first filename element, or "unknown". */
  function SubmittedName(elements: seq<string>): (r: string)
    ensures (forall i :: 0 <= i < |elements| ==> !IsFilenameElement(elements[i])) ==> r == "unknown"
    ensures '"' !in r
  {
    if elements == [] then "unknown"
    else if IsFilenameElement(elements[0]) then FilenameValue(elements[0])
    else SubmittedName(elements[1..])
  }

  /** SubmittedName is the value of the first filename element. */
  lemma SubmittedNameIsFirst(elements: seq<string>, k: int)
    requires 0 <= k < |elements| && IsFilenameElement(elements[k])
    requires forall j :: 0 <= j < k ==> !IsFilenameElement(elements[j])
    ensures SubmittedName(elements) == FilenameValue(elements[k])
  {
    SkipNonFilename(elements, k);
    var rest := elements[k..];
    assert rest[0] == elements[k];
    assert rest != [] && IsFilenameElement(rest[0]);
    assert SubmittedName(rest) == FilenameValue(rest[0]);
  }

  /** Elements that do not name the file can be skipped. */
  lemma {:induction false} SkipNonFilename(elements: seq<string>, k: int)
    requires 0 <= k <= |elements|
    requires forall j :: 0 <= j < k ==> !IsFilenameElement(elements[j])
    ensures SubmittedName(elements[k..]) == SubmittedName(elements)
    decreases k
  {
    if k > 0 {
      SkipNonFilename(elements, k - 1);
      var tail := elements[k - 1..];
      assert tail[0] == elements[k - 1];
      assert tail[1..] == elements[k..];
    }
  }

  /**
   * getSubmittedFileName: splits the content-disposition header on ';' and
   * returns from the first element that names the file.
   */
  method GetSubmittedFileName(contentDisposition: string) returns (r: string)
    ensures r == SubmittedName(Split(contentDisposition, ';'))
  {
    var elements := Split(contentDisposition, ';');
    for i := 0 to |elements|
      invariant SubmittedName(elements[i..]) == SubmittedName(elements)
    {
      assert elements[i..][1..] == elements[i + 1..];
      if StartsWith(Trim(elements[i]), "filename") {
        return FilenameValue(elements[i]);
      }
    }
    return "unknown";
  }

  /**
   * The saved path: the upload directory, then the separator and the
   * subdirectory when one is given, then the separator and the file name.
   */
  function SavedPath(uploadDir: string, subdirectory: string, fileName: string, separator: char): (r: string)
    ensures StartsWith(r, uploadDir) && EndsWith(r, [separator] + fileName)
    ensures subdirectory == "" ==> r == uploadDir + [separator] + fileName
    ensures subdirectory != "" ==> |r| == |uploadDir| + |subdirectory| + |fileName| + 2
  {
    var dir := if subdirectory != "" then uploadDir + [separator] + subdirectory else uploadDir;
    assert dir + [separator] + fileName == dir + ([separator] + fileName);
    dir + [separator] + fileName
  }

  /** What saveFile ends with: the path written to, or the exception's reason. */
  datatype SaveOutcome = Saved(path: string) | Refused(error: UploadError)

  /**
   * saveFile up to the copy: a refused part is reported before anything
   * is named; otherwise the path the file is written to, under a fresh
   * name that keeps the submitted name's extension.
   */
  function SaveFile(size: int, contentType: string, contentDisposition: string, subdirectory: string,
                    uploadDir: string, maxFileSize: int, allowed: set<string>, uuid: string, separator: char): (r: SaveOutcome)
    ensures ValidateFile(size, contentType, maxFileSize, allowed).Some? <==> r.Refused?
    ensures r.Refused? ==> r.error == ValidateFile(size, contentType, maxFileSize, allowed).value
    ensures r.Saved? ==>
              var name := UniqueFileName(SubmittedName(Split(contentDisposition, ';')), uuid);
              r.path == SavedPath(uploadDir, subdirectory, name, separator)
  {
    var refusal := ValidateFile(size, contentType, maxFileSize, allowed);
    if refusal.Some? then Refused(refusal.value)
    else Saved(SavedPath(uploadDir, subdirectory, UniqueFileName(SubmittedName(Split(contentDisposition, ';')), uuid), separator))
  }
}
