/**
 * End-to-end runs of the relay on whole requests: a single upload without and
 * with the start flag, a line feed in the filename, two file parts, an
 * unreachable upload endpoint and an unreachable command port. Each lemma
 * states the response and the complete list of interactions the printer sees.
 * The runs are stated for any filename the client accepts in the URI;
 * ShapesOfA writes the shapes out for the name `a.gco`.
 */
module Scenarios {
  import opened Wrappers
  import opened Strings
  import opened OctoUpload
  import opened MksProtocol
  import opened Transport
  import opened Relay

  /** A filename with no '#' and no control character. */
  predicate PlainName(name: string)
  {
    forall c :: c in name ==> c != '#' && !IsControl(c)
  }

  /** A form carrying the file `name` and, when given, one `print` value. */
  function UploadForm(name: string, content: seq<byte>, printValue: Option<string>): (f: MultipartForm)
    ensures f.file == map[FileField := [FileHeader(name, |content|, Readable(content, false))]]
    ensures PrintField in f.value <==> printValue.Some?
  {
    MultipartForm(
      if printValue.Some? then map[PrintField := [printValue.value]] else map[],
      map[FileField := [FileHeader(name, |content|, Readable(content, false))]])
  }

  /** The one POST an upload of `name` makes. */
  function PostOf(host: string, name: string, content: seq<byte>): Event
  {
    Posted(UploadUri(host, name), UploadContentType, [FormPart(UploadField, name, content)])
  }

  /** The shapes the relay produces for `a.gco`, written out. */
  lemma ShapesOfA(host: string, content: seq<byte>)
    ensures PostOf(host, "a.gco", content)
         == Posted("http://" + host + "/upload?X-Filename=a.gco", "application/octet-stream",
                   [FormPart("uploadfile", "a.gco", content)])
    ensures SelectFileCommand("a.gco") == "M23 a.gco\r\n"
    ensures StartPrintCommand == "M24\r\n"
    ensures CommandAddress(host) == host + ":8080"
  {
  }

  /** The upload of `name` to a printer that answers with a readable body. */
  lemma UploadOf(host: string, name: string, content: seq<byte>, status: int)
    requires PlainHost(host) && PlainName(name)
    ensures DeviceUpload(host, FileHeader(name, |content|, Readable(content, false)), Replied(status, true))
         == UploadRun([PostOf(host, name, content)], None)
  {
    UploadUriAccepted(host, name);
  }

  /** The start of `name` on a printer that accepts the connection and delivers `reply`. */
  lemma StartOf(host: string, name: string, post: PostReply, reply: string)
    ensures DeviceStart(host, name, Script(post, true, Delivered(reply)))
         == StartRun([Dialed(CommandAddress(host), true), Sent(SelectFileCommand(name)), Sent(StartPrintCommand),
                      ReadAttempted(ReplyBufferSize), Closed],
                     Captured(reply), None)
  {
  }

  /** Without `print`, a successful upload answers `{}` and opens no command connection. */
  lemma {:induction false} UploadWithoutPrint(host: string, name: string, content: seq<byte>, status: int, script: Script)
    requires script.post == Replied(status, true)
    requires PlainHost(host) && PlainName(name)
    ensures Handling(Some(UploadForm(name, content, None)), host, script)
         == HandleRun([PostOf(host, name, content)], Response(200, "{}"))
  {
    UploadOf(host, name, content, status);
    var form := UploadForm(name, content, None);
    assert ParseOctoUpload(Some(form)).upf == Some(FileHeader(name, |content|, Readable(content, false)));
    assert !ParseOctoUpload(Some(form)).startPrinting;
  }

  /** With `print=true` and a good upload, the request is that upload followed by the start. */
  lemma {:induction false} UploadThenStart(host: string, name: string, content: seq<byte>, script: Script)
    requires PlainHost(host) && PlainName(name)
    requires script.post.Replied? && script.post.bodyReadable
    ensures Handling(Some(UploadForm(name, content, Some("true"))), host, script)
         == HandleRun([PostOf(host, name, content)] + DeviceStart(host, name, script).trace,
                      if DeviceStart(host, name, script).err.None? then Response(200, "{}") else Response(500, ""))
  {
    var form := UploadForm(name, content, Some("true"));
    var fh := FileHeader(name, |content|, Readable(content, false));
    assert form.value[PrintField] == ["true"];
    assert ParseOctoUpload(Some(form)) == Extraction(Some(fh), true, None);
    UploadOf(host, name, content, script.post.status);
    HandlingStarted(Some(form), host, script, fh);
  }

  /**
   * With `print=true`, a successful upload is followed by the dial to port
   * 8080 of the same host, the two command lines, one 1024-byte read and the
   * release.
   */
  lemma {:induction false} UploadAndPrint(host: string, name: string, content: seq<byte>, status: int, reply: string)
    requires PlainHost(host) && PlainName(name)
    ensures Handling(Some(UploadForm(name, content, Some("true"))), host, Script(Replied(status, true), true, Delivered(reply)))
         == HandleRun([PostOf(host, name, content), Dialed(CommandAddress(host), true), Sent(SelectFileCommand(name)),
                       Sent(StartPrintCommand), ReadAttempted(ReplyBufferSize), Closed],
                      Response(200, "{}"))
  {
    UploadThenStart(host, name, content, Script(Replied(status, true), true, Delivered(reply)));
    StartOf(host, name, Replied(status, true), reply);
  }

  /** An upload that succeeds followed by a refused command connection is a 500. */
  lemma {:induction false} CommandPortDown(host: string, name: string, content: seq<byte>, status: int, read: ReadReply)
    requires PlainHost(host) && PlainName(name)
    ensures Handling(Some(UploadForm(name, content, Some("true"))), host, Script(Replied(status, true), false, read))
         == HandleRun([PostOf(host, name, content), Dialed(CommandAddress(host), false)], Response(500, ""))
  {
    UploadThenStart(host, name, content, Script(Replied(status, true), false, read));
  }

  /** A failed POST is a 400, and no command connection is tried even with `print=true`. */
  lemma {:induction false} UploadEndpointDown(host: string, name: string, content: seq<byte>, dialOk: bool, read: ReadReply)
    requires PlainHost(host) && PlainName(name)
    ensures Handling(Some(UploadForm(name, content, Some("true"))), host, Script(PostFailed, dialOk, read))
         == HandleRun([PostOf(host, name, content)], Response(400, ""))
  {
    UploadUriAccepted(host, name);
    var form := UploadForm(name, content, Some("true"));
    assert form.value[PrintField] == ["true"];
  }

  /**
   * A line feed in the filename, with no '#' before it, makes the client
   * refuse the upload URI: 400, and the printer sees nothing.
   */
  lemma {:induction false} LineFeedInFilename(host: string, content: seq<byte>, script: Script)
    requires PlainHost(host)
    ensures Handling(Some(UploadForm("a\nb.gco", content, Some("true"))), host, script)
         == HandleRun([], Response(400, ""))
  {
    ControlCharacterRefused(host, "a\nb.gco", 1);
    assert UploadForm("a\nb.gco", content, Some("true")).value[PrintField] == ["true"];
  }

  /** Two file parts are refused with 400 before anything reaches the printer. */
  lemma {:induction false} TwoFileParts(host: string, a: FileHeader, b: FileHeader, value: map<string, seq<string>>, script: Script)
    ensures Handling(Some(MultipartForm(value, map[FileField := [a, b]])), host, script)
         == HandleRun([], Response(400, ""))
  {
  }
}
