/**
 * The OctoPrint side of the relay: the decoded multipart form of a
 * `POST /api/files/local` request and the extraction of the one G-code file
 * and the "start printing" intent from it (parseOctoUpload in main.go).
 *
 * The multipart decoding itself (ParseMultipartForm with its 32 MiB memory
 * ceiling) belongs to Go's library: a request is either a decoded form or a
 * decoding failure.
 */
module OctoUpload {
  import opened Wrappers

  newtype byte = x: int | 0 <= x < 256

  /** What opening and reading one stored file part yields. */
  datatype FileBody =
    | Unopenable                                 // FileHeader.Open fails
    | Readable(data: seq<byte>, readFails: bool) // the reads deliver `data`, then fail when `readFails`

  /** One file part of the form: the client's filename (verbatim), its size and its stored bytes. */
  datatype FileHeader = FileHeader(filename: string, size: int, body: FileBody)

  /** A decoded multipart form: value fields and file fields, each name with all its parts in order. */
  datatype MultipartForm = MultipartForm(value: map<string, seq<string>>, file: map<string, seq<FileHeader>>)

  datatype ParseError =
    | MultipartParseFailed       // the body is not a decodable multipart form
    | MissingFile                // no `file` field
    | WrongFileCount(count: nat) // a `file` field with other than one part

  /** The three results of parseOctoUpload: the file part, the start flag and the error. */
  datatype Extraction = Extraction(upf: Option<FileHeader>, startPrinting: bool, err: Option<ParseError>)

  const PrintField := "print"
  const FileField := "file"
  const PrintTrue := "true"

  /**
   * The start flag: set only by a `print` field holding exactly one value that
   * is exactly "true"; absence, several values or any other text leave it unset.
   */
  function StartPrintingFlag(value: map<string, seq<string>>): (start: bool)
    ensures start <==> PrintField in value && value[PrintField] == [PrintTrue]
  {
    if PrintField in value then
      var val := value[PrintField];
      if |val| == 1 then val[0] == PrintTrue else false
    else
      false
  }

  /**
   * Extraction of the upload. `form` is None when the request could not be
   * decoded as a multipart form.
   */
  function ParseOctoUpload(form: Option<MultipartForm>): (r: Extraction)
    // exactly one of a file and an error is returned, and an error never carries the start flag
    ensures r.upf.Some? <==> r.err.None?
    ensures r.err.Some? ==> !r.startPrinting
    ensures r.err == Some(MultipartParseFailed) <==> form.None?
    ensures r.err == Some(MissingFile) <==> form.Some? && FileField !in form.value.file
    ensures (r.err.Some? && r.err.value.WrongFileCount?) <==>
              form.Some? && FileField in form.value.file && |form.value.file[FileField]| != 1
    ensures r.err.Some? && r.err.value.WrongFileCount? ==> r.err.value.count == |form.value.file[FileField]|
    // on success: the one and only `file` part, unaltered, and the flag of the `print` field
    ensures r.upf.Some? ==> form.Some? && FileField in form.value.file && form.value.file[FileField] == [r.upf.value]
    ensures r.startPrinting <==> r.err.None? && PrintField in form.value.value && form.value.value[PrintField] == [PrintTrue]
  {
    match form
    case None => Extraction(None, false, Some(MultipartParseFailed))
    case Some(f) =>
      var startPrinting := StartPrintingFlag(f.value);
      if FileField !in f.file then
        Extraction(None, false, Some(MissingFile))
      else if |f.file[FileField]| != 1 then
        Extraction(None, false, Some(WrongFileCount(|f.file[FileField]|)))
      else
        Extraction(Some(f.file[FileField][0]), startPrinting, None)
  }

  /** Fields other than `print` and `file` have no influence on the extraction. */
  lemma ExtractionIgnoresOtherFields(f: MultipartForm, g: MultipartForm)
    requires (PrintField in f.value) == (PrintField in g.value)
    requires PrintField in f.value ==> f.value[PrintField] == g.value[PrintField]
    requires (FileField in f.file) == (FileField in g.file)
    requires FileField in f.file ==> f.file[FileField] == g.file[FileField]
    ensures ParseOctoUpload(Some(f)) == ParseOctoUpload(Some(g))
  {
  }
}
