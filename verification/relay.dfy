/**
 * The upload relay (handleFileUpload, uploadFileToMKS and startMKSJob in
 * main.go): extract the file, re-frame it and POST it to the printer, then,
 * when asked to, select it and start the print over the command connection.
 *
 * Each step is a method that drives the collaborators of module Transport and
 * is specified by a function giving its result and the events it adds to the
 * printer's trace. The properties of the relay are stated on those functions.
 * The printer's host is the process-wide address fixed at startup; here it is
 * a parameter.
 */
module Relay {
  import opened Wrappers
  import opened OctoUpload
  import opened MksProtocol
  import opened Transport
  import opened Strings

  const StatusOK := 200
  const StatusBadRequest := 400
  const StatusInternalServerError := 500
  /** The body written on success; failures write a status and no body. */
  const SuccessBody := "{}"

  datatype Response = Response(status: int, body: string)

  datatype UploadError =
    | CannotOpen      // the stored file part cannot be opened
    | CannotCopy      // reading the stored file part fails
    | RequestFailed   // the POST to the printer fails
    | BodyUnreadable  // the printer's response body cannot be read

  datatype StartError =
    | CannotConnect   // the command connection cannot be opened
    | CannotReadReply // the read of the printer's reply fails

  datatype UploadRun = UploadRun(trace: seq<Event>, err: Option<UploadError>)
  datatype StartRun = StartRun(trace: seq<Event>, reply: string, err: Option<StartError>)
  datatype HandleRun = HandleRun(trace: seq<Event>, resp: Response)

  /** The lines written on the command connection, in order. */
  function Writes(trace: seq<Event>): seq<string>
  {
    if trace == [] then []
    else (if trace[0].Sent? then [trace[0].data] else []) + Writes(trace[1..])
  }

  lemma {:induction false} WritesAppend(a: seq<Event>, b: seq<Event>)
    ensures Writes(a + b) == Writes(a) + Writes(b)
  {
    if a == [] {
      assert a + b == b;
    } else {
      assert (a + b)[0] == a[0] && (a + b)[1..] == a[1..] + b;
      WritesAppend(a[1..], b);
    }
  }

  lemma WritesOne(e: Event)
    ensures Writes([e]) == if e.Sent? then [e.data] else []
  {
  }

  /** Whether a command connection was attempted. */
  predicate Dials(trace: seq<Event>)
  {
    exists i :: 0 <= i < |trace| && trace[i].Dialed?
  }

  /** No write on the command connection follows a read on it. */
  predicate WritesPrecedeReads(trace: seq<Event>)
  {
    forall i, j :: 0 <= i < j < |trace| && trace[i].ReadAttempted? ==> !trace[j].Sent?
  }

  /** Every upload comes before every command connection attempt. */
  predicate PostsPrecedeDials(trace: seq<Event>)
  {
    forall i, j :: 0 <= i < |trace| && 0 <= j < |trace| && trace[i].Posted? && trace[j].Dialed? ==> i < j
  }

  /** A printer host as given on the command line: no '/', no '#' and no control character. */
  predicate PlainHost(host: string)
  {
    forall c :: c in host ==> c != '/' && c != '#' && !IsControl(c)
  }

  /**
   * uploadFileToMKS: the stored file re-framed as the single part of a new
   * multipart body and POSTed to the printer. `post` is the printer's answer.
   */
  function DeviceUpload(host: string, fh: FileHeader, post: PostReply): (r: UploadRun)
    // the POST is made exactly when the whole file could be read and the client accepts the URI
    ensures |r.trace| <= 1
    ensures r.trace != [] <==> fh.body.Readable? && !fh.body.readFails && UriAccepted(UploadUri(host, fh.filename))
    // it goes to the upload URI for the same filename, as one `uploadfile` part holding the content unchanged
    ensures r.trace != [] ==>
              r.trace[0] == Posted(UploadUri(host, fh.filename), UploadContentType,
                                   [FormPart(UploadField, fh.filename, fh.body.data)])
    // success is a completed request with a readable body, whatever its status
    ensures r.err.None? <==> r.trace != [] && post.Replied? && post.bodyReadable
    ensures fh.body.Unopenable? ==> r.err == Some(CannotOpen)
    ensures fh.body.Readable? && fh.body.readFails ==> r.err == Some(CannotCopy)
    ensures (fh.body.Readable? && !fh.body.readFails && !UriAccepted(UploadUri(host, fh.filename)))
              ==> r.err == Some(RequestFailed)
    ensures r.trace != [] && post.PostFailed? ==> r.err == Some(RequestFailed)
    ensures r.trace != [] && post.Replied? && !post.bodyReadable ==> r.err == Some(BodyUnreadable)
  {
    match fh.body
    case Unopenable => UploadRun([], Some(CannotOpen))
    case Readable(data, readFails) =>
      if readFails then UploadRun([], Some(CannotCopy))
      else if !UriAccepted(UploadUri(host, fh.filename)) then UploadRun([], Some(RequestFailed))
      else
        var posted := [Posted(UploadUri(host, fh.filename), UploadContentType, [FormPart(UploadField, fh.filename, data)])];
        match post
        case PostFailed => UploadRun(posted, Some(RequestFailed))
        case Replied(_, readable) => UploadRun(posted, if readable then None else Some(BodyUnreadable))
  }

  /** The HTTP status of the printer's answer is never looked at. */
  lemma UploadIgnoresStatus(host: string, fh: FileHeader, status1: int, status2: int, readable: bool)
    ensures DeviceUpload(host, fh, Replied(status1, readable)) == DeviceUpload(host, fh, Replied(status2, readable))
  {
  }

  /** A filename with no '#' and no control character gives a URI the client accepts. */
  lemma {:induction false} UploadUriAccepted(host: string, filename: string)
    requires PlainHost(host)
    requires forall c :: c in filename ==> c != '#' && !IsControl(c)
    ensures UriAccepted(UploadUri(host, filename))
  {
    var uri := UploadUri(host, filename);
    assert forall k :: 0 <= k < |uri| ==> uri[k] !in {'#'} && !IsControl(uri[k]) by {
      forall k | 0 <= k < |uri| ensures uri[k] !in {'#'} && !IsControl(uri[k]) {
        var c := uri[k];
        assert c in uri;
        assert c in UploadScheme || c in host || c in UploadPath || c in filename;
      }
    }
    IndexOfAnyAbsent(uri, {'#'});
  }

  /**
   * A control character in the filename, with no '#' before it, makes the
   * client refuse the URI: the upload fails before the printer is contacted.
   */
  lemma {:induction false} ControlCharacterRefused(host: string, filename: string, k: nat)
    requires PlainHost(host)
    requires k < |filename| && IsControl(filename[k])
    requires forall j :: 0 <= j < k ==> filename[j] != '#'
    ensures !UriAccepted(UploadUri(host, filename))
  {
    var uri := UploadUri(host, filename);
    var prefix := UploadScheme + host + UploadPath + filename[..k + 1];
    assert uri == prefix + filename[k + 1..];
    assert forall j :: 0 <= j < |prefix| ==> prefix[j] !in {'#'} by {
      forall j | 0 <= j < |prefix| ensures prefix[j] != '#' {
        assert prefix[j] in prefix;
        if j >= |prefix| - (k + 1) {
          assert prefix[j] == filename[j - (|prefix| - (k + 1))];
        } else {
          assert prefix[j] in UploadScheme + host + UploadPath;
          assert prefix[j] in UploadScheme || prefix[j] in host || prefix[j] in UploadPath;
        }
      }
    }
    IndexOfAnySkips(prefix, filename[k + 1..], {'#'});
    assert uri[|prefix| - 1] == filename[k];
  }

  /**
   * What the printer receives from an upload: the filename the reference
   * reading takes from the URI is the one in the part, and the bytes are the
   * stored file's, for a filename with no character that needs escaping.
   */
  lemma {:induction false} UploadReachesPrinter(host: string, fh: FileHeader, post: PostReply)
    requires PlainHost(host)
    requires forall k :: 0 <= k < |fh.filename| ==> !NeedsEscaping(fh.filename[k])
    requires fh.body.Readable? && !fh.body.readFails
    ensures DeviceUpload(host, fh, post).trace != []
    ensures var e := DeviceUpload(host, fh, post).trace[0];
            ParseUploadUri(e.uri) == Some((host, fh.filename)) &&
            |e.body| == 1 && e.body[0].filename == fh.filename && e.body[0].content == fh.body.data
  {
    UploadUriAccepted(host, fh.filename);
    UploadUriRoundTrip(host, fh.filename);
  }

  /**
   * Whatever follows a '#' in the filename is a fragment to the client: with
   * a clean host and name before it, only its percent escapes are checked.
   */
  lemma {:induction false} FragmentUriAccepted(host: string, name: string, fragment: string)
    requires PlainHost(host)
    requires forall c :: c in name ==> c != '#' && !IsControl(c)
    requires ValidEscapes(fragment)
    ensures UriAccepted(UploadUri(host, name + "#" + fragment))
  {
    var uri := UploadUri(host, name + "#" + fragment);
    var prefix := UploadScheme + host + UploadPath + name;
    assert uri == prefix + ("#" + fragment);
    assert forall k :: 0 <= k < |prefix| ==> prefix[k] !in {'#'} && !IsControl(prefix[k]) by {
      forall k | 0 <= k < |prefix| ensures prefix[k] !in {'#'} && !IsControl(prefix[k]) {
        var c := prefix[k];
        assert c in prefix;
        assert c in UploadScheme || c in host || c in UploadPath || c in name;
      }
    }
    IndexOfAnySkips(prefix, "#" + fragment, {'#'});
    assert ("#" + fragment)[0] == '#';
    assert uri[..|prefix|] == prefix;
    assert uri[|prefix| + 1..] == fragment;
  }

  /**
   * A line feed after a '#' in the filename passes the client's URI check
   * (it lies in the fragment), so the upload succeeds and the start writes the
   * unsanitised filename: the printer's line reader sees an extra command.
   */
  lemma {:induction false} FragmentNewlineReachesCommands(host: string, name: string, command: string,
                                                          data: seq<byte>, status: int)
    requires PlainHost(host)
    requires forall c :: c in name ==> c != '#' && !IsControl(c)
    requires '\n' !in command && '%' !in command
    ensures var fh := FileHeader(name + "#\n" + command, |data|, Readable(data, false));
            DeviceUpload(host, fh, Replied(status, true)).err.None? &&
            Lines(CommandStream(fh.filename)) == ["M23 " + name + "#", command, "M24"]
  {
    var fragment := "\n" + command;
    assert ValidEscapes(fragment) by {
      forall i | 0 <= i < |fragment| ensures fragment[i] != '%' {
        if i > 0 {
          assert fragment[i] == command[i - 1];
          assert command[i - 1] in command;
        }
      }
    }
    var filename := name + "#\n" + command;
    assert name + "#" + fragment == filename;
    FragmentUriAccepted(host, name, fragment);
    var fh := FileHeader(filename, |data|, Readable(data, false));
    assert DeviceUpload(host, fh, Replied(status, true)).err.None?;
    assert '\n' !in name + "#";
    NewlineInFilenameAddsCommand(name + "#", command);
    assert name + "#" + "\n" + command == filename;
    assert "M23 " + (name + "#") == "M23 " + name + "#";
  }

  /** A command session: the dial, two writes, one read and the release. */
  function Session(dial: Event, first: string, second: string): seq<Event>
  {
    [dial, Sent(first), Sent(second), ReadAttempted(ReplyBufferSize), Closed]
  }

  /** The writes of a command session are its two lines, in order. */
  lemma {:induction false} SessionWrites(dial: Event, first: string, second: string)
    requires dial.Dialed?
    ensures Writes(Session(dial, first, second)) == [first, second]
  {
    var a, b, c, d := [dial], [Sent(first)], [Sent(second)], [ReadAttempted(ReplyBufferSize)];
    assert Session(dial, first, second) == a + b + c + d + [Closed];
    WritesAppend(a + b + c + d, [Closed]);
    WritesAppend(a + b + c, d);
    WritesAppend(a + b, c);
    WritesAppend(a, b);
    WritesOne(dial);
    WritesOne(Sent(first));
    WritesOne(Sent(second));
    WritesOne(ReadAttempted(ReplyBufferSize));
    WritesOne(Closed);
  }

  /** In a command session no write follows the read, and nothing is an upload. */
  lemma SessionOrder(dial: Event, first: string, second: string)
    requires dial.Dialed?
    ensures WritesPrecedeReads(Session(dial, first, second))
    ensures forall e :: e in Session(dial, first, second) ==> !e.Posted?
  {
  }

  /**
   * startMKSJob: dial `<host>:8080`; on success write the two commands, read
   * once into a 1024-byte buffer and release the connection.
   */
  function DeviceStart(host: string, filename: string, script: Script): (r: StartRun)
    // the first and only step before the connection exists is the dial to the command port
    ensures r.trace != [] && r.trace[0] == Dialed(CommandAddress(host), script.dialOk)
    ensures !script.dialOk ==> r.trace == [r.trace[0]] && r.err == Some(CannotConnect)
    // exactly the two command lines are written, in order, and none after the read
    ensures Writes(r.trace) == if script.dialOk then [SelectFileCommand(filename), StartPrintCommand] else []
    ensures WritesPrecedeReads(r.trace)
    ensures forall e :: e in r.trace ==> !e.Posted?
    // on a connection: the two lines, then one read into the 1024-byte buffer, then the release
    ensures script.dialOk ==>
              r.trace == [r.trace[0], Sent(SelectFileCommand(filename)), Sent(StartPrintCommand),
                          ReadAttempted(ReplyBufferSize), Closed]
    // the outcome: the captured reply, or the failing step
    ensures r.err.None? <==> script.dialOk && script.read.Delivered?
    ensures script.dialOk && script.read.ReadFailed? ==> r.err == Some(CannotReadReply)
    ensures r.err.None? ==> r.reply == Captured(script.read.data)
    ensures r.err.Some? ==> r.reply == ""
  {
    var dial := Dialed(CommandAddress(host), script.dialOk);
    if !script.dialOk then StartRun([dial], "", Some(CannotConnect))
    else
      var session := Session(dial, SelectFileCommand(filename), StartPrintCommand);
      SessionWrites(dial, SelectFileCommand(filename), StartPrintCommand);
      SessionOrder(dial, SelectFileCommand(filename), StartPrintCommand);
      match script.read
      case ReadFailed => StartRun(session, "", Some(CannotReadReply))
      case Delivered(data) => StartRun(session, Captured(data), None)
  }

  /**
   * handleFileUpload: extraction, then upload, then the optional start, each
   * failure ending the request with its status.
   */
  function Handling(form: Option<MultipartForm>, host: string, script: Script): (r: HandleRun)
    ensures r.resp.status in {StatusOK, StatusBadRequest, StatusInternalServerError}
    ensures r.resp.body == (if r.resp.status == StatusOK then SuccessBody else "")
    // an extraction failure is a bad request and reaches the printer not at all
    ensures ParseOctoUpload(form).err.Some? ==> r.resp.status == StatusBadRequest && r.trace == []
    // an upload failure is a bad request and no print is started
    ensures (ParseOctoUpload(form).err.None? && DeviceUpload(host, ParseOctoUpload(form).upf.value, script.post).err.Some?)
              ==> r.resp.status == StatusBadRequest && !Dials(r.trace)
    // the start is attempted exactly when it was asked for and the upload succeeded
    ensures Dials(r.trace) <==>
              ParseOctoUpload(form).err.None? && ParseOctoUpload(form).startPrinting &&
              DeviceUpload(host, ParseOctoUpload(form).upf.value, script.post).err.None?
    // a failed start, and only that, is an internal error
    ensures r.resp.status == StatusInternalServerError <==>
              Dials(r.trace) && DeviceStart(host, ParseOctoUpload(form).upf.value.filename, script).err.Some?
    // success, with `{}`, is a good extraction and upload and, when asked for, a good start
    ensures r.resp.status == StatusOK <==>
              ParseOctoUpload(form).err.None? &&
              DeviceUpload(host, ParseOctoUpload(form).upf.value, script.post).err.None? &&
              (ParseOctoUpload(form).startPrinting ==>
                 DeviceStart(host, ParseOctoUpload(form).upf.value.filename, script).err.None?)
    // after a good extraction the trace is the upload's, then the start's when one is attempted
    ensures ParseOctoUpload(form).err.None? ==>
              r.trace == DeviceUpload(host, ParseOctoUpload(form).upf.value, script.post).trace +
                         (if Dials(r.trace) then DeviceStart(host, ParseOctoUpload(form).upf.value.filename, script).trace
                          else [])
    // the POST is there, and first, whenever a command connection is attempted
    ensures Dials(r.trace) ==> r.trace[0].Posted?
    ensures PostsPrecedeDials(r.trace)
  {
    var ex := ParseOctoUpload(form);
    if ex.err.Some? then HandleRun([], Response(StatusBadRequest, ""))
    else
      var upload := DeviceUpload(host, ex.upf.value, script.post);
      if upload.err.Some? then HandleRun(upload.trace, Response(StatusBadRequest, ""))
      else if !ex.startPrinting then HandleRun(upload.trace, Response(StatusOK, SuccessBody))
      else
        var start := DeviceStart(host, ex.upf.value.filename, script);
        var trace := upload.trace + start.trace;
        assert trace[|upload.trace|].Dialed?;
        assert forall i :: 0 <= i < |trace| && trace[i].Posted? ==> i < |upload.trace| by {
          forall i | |upload.trace| <= i < |trace| ensures !trace[i].Posted? {
            assert trace[i] in start.trace;
          }
        }
        if start.err.Some? then HandleRun(trace, Response(StatusInternalServerError, ""))
        else HandleRun(trace, Response(StatusOK, SuccessBody))
  }

  /** A request that asks for a print and uploads well is the upload followed by the start. */
  lemma HandlingStarted(form: Option<MultipartForm>, host: string, script: Script, fh: FileHeader)
    requires ParseOctoUpload(form) == Extraction(Some(fh), true, None)
    requires DeviceUpload(host, fh, script.post).err.None?
    ensures Handling(form, host, script)
         == HandleRun(DeviceUpload(host, fh, script.post).trace + DeviceStart(host, fh.filename, script).trace,
                      if DeviceStart(host, fh.filename, script).err.None? then Response(StatusOK, SuccessBody)
                      else Response(StatusInternalServerError, ""))
  {
  }

  method UploadFileToMks(host: string, fh: FileHeader, printer: Printer) returns (err: Option<UploadError>)
    modifies printer`trace
    ensures err == DeviceUpload(host, fh, printer.script.post).err
    ensures printer.trace == old(printer.trace) + DeviceUpload(host, fh, printer.script.post).trace
  {
    // Creating the part cannot fail: the multipart writer writes into an in-memory buffer.
    var body := new MultipartBody();
    body.CreateFormFile(UploadField, fh.filename);
    match fh.body {
      case Unopenable =>
        return Some(CannotOpen);
      case Readable(data, readFails) =>
        var written, ok := Copy(body, data, readFails);
        if !ok {
          return Some(CannotCopy);
        }
        body.Close();
        assert [] + data == data;
        assert body.parts == [FormPart(UploadField, fh.filename, data)];
        var reply := printer.Post(UploadUri(host, fh.filename), UploadContentType, body.parts);
        match reply {
          case PostFailed =>
            return Some(RequestFailed);
          case Replied(status, readable) =>
            if !readable {
              return Some(BodyUnreadable);
            }
            return None;
        }
    }
  }

  method StartMksJob(host: string, filename: string, printer: Printer) returns (reply: string, err: Option<StartError>)
    requires !printer.connected
    modifies printer
    ensures !printer.connected
    ensures reply == DeviceStart(host, filename, printer.script).reply
    ensures err == DeviceStart(host, filename, printer.script).err
    ensures printer.trace == old(printer.trace) + DeviceStart(host, filename, printer.script).trace
  {
    var connected := printer.Dial(CommandAddress(host));
    if !connected {
      return "", Some(CannotConnect);
    }
    printer.Write(SelectFileCommand(filename));
    printer.Write(StartPrintCommand);
    var buff := new char[ReplyBufferSize];
    var n, ok := printer.Read(buff);
    printer.Close();
    if !ok {
      return "", Some(CannotReadReply);
    }
    return buff[..n], None;
  }

  method HandleFileUpload(form: Option<MultipartForm>, host: string, printer: Printer) returns (resp: Response)
    requires !printer.connected
    modifies printer
    ensures !printer.connected
    ensures resp == Handling(form, host, printer.script).resp
    ensures printer.trace == old(printer.trace) + Handling(form, host, printer.script).trace
  {
    var ex := ParseOctoUpload(form);
    if ex.err.Some? {
      return Response(StatusBadRequest, "");
    }
    var upf := ex.upf.value;
    var uErr := UploadFileToMks(host, upf, printer);
    if uErr.Some? {
      return Response(StatusBadRequest, "");
    }
    if ex.startPrinting {
      // The three-second pause before the start is not modelled.
      var printingResp, jErr := StartMksJob(host, upf.filename, printer);
      if jErr.Some? {
        return Response(StatusInternalServerError, "");
      }
    }
    return Response(StatusOK, SuccessBody);
  }
}
