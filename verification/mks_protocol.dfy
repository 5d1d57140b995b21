/**
 * The MKS printer's two endpoints and the exact shapes the relay produces for
 * them: the HTTP upload URI, the TCP command address, the two command lines
 * and the bounded reply capture (uploadFileToMKS and startMKSJob in main.go).
 *
 * Beside each construction stands a reference reading of it: how a device
 * may take the host and the `X-Filename` query value out of the URI, the host
 * out of the command address, and the lines out of the command stream. These
 * readings are assumptions of this model, not the printer firmware's code
 * (which is not part of this model): the URI reader takes the query value
 * verbatim, and the line reader ends lines at '\n' only. The lemmas say when
 * such a reading gives back what the relay put in.
 */
module MksProtocol {
  import opened Wrappers
  import opened Strings

  const UploadScheme := "http://"
  const UploadPath := "/upload?X-Filename="
  const CommandPort := "8080"
  /** Name of the file field the printer's upload endpoint expects. */
  const UploadField := "uploadfile"
  const UploadContentType := "application/octet-stream"
  /** Size of the single buffer the printer's reply is read into. */
  const ReplyBufferSize := 1024

  /** Characters that end a query value; the relay does not escape them in a filename. */
  const QueryDelimiters: set<char> := {'&', '#'}

  /**
   * Characters a query value would need escaped to arrive verbatim: the
   * delimiters, the space that would break the request line, '+' and '%' that
   * a query decoder rewrites, and control characters.
   */
  predicate NeedsEscaping(c: char)
  {
    c in QueryDelimiters || c == ' ' || c == '+' || c == '%' || IsControl(c)
  }

  /** `http://<host>/upload?X-Filename=<filename>`, the filename inserted without any encoding. */
  function UploadUri(host: string, filename: string): (uri: string)
    ensures |uri| == |UploadScheme| + |host| + |UploadPath| + |filename|
    ensures uri[|uri| - |filename|..] == filename
  {
    UploadScheme + host + UploadPath + filename
  }

  /**
   * The reference reading of an upload URI: the host is what follows the scheme
   * up to the first '/', and the filename is the `X-Filename` value up to the
   * first query delimiter, taken verbatim (no '+' or percent decoding). None
   * when the URI does not have the upload shape.
   */
  function ParseUploadUri(uri: string): Option<(string, string)>
  {
    if |uri| < |UploadScheme| || uri[..|UploadScheme|] != UploadScheme then None
    else
      var rest := uri[|UploadScheme|..];
      var slash := IndexOfAny(rest, {'/'});
      var path := rest[slash..];
      if |path| < |UploadPath| || path[..|UploadPath|] != UploadPath then None
      else
        var query := path[|UploadPath|..];
        Some((rest[..slash], query[..IndexOfAny(query, QueryDelimiters)]))
  }

  /**
   * Whatever the filename, the reference reading gives back the host, and the
   * filename up to its first query delimiter.
   */
  lemma {:induction false} UploadUriParsed(host: string, filename: string)
    requires '/' !in host
    ensures ParseUploadUri(UploadUri(host, filename))
         == Some((host, filename[..IndexOfAny(filename, QueryDelimiters)]))
  {
    var uri := UploadUri(host, filename);
    assert uri[..|UploadScheme|] == UploadScheme;
    var rest := uri[|UploadScheme|..];
    assert rest == host + (UploadPath + filename);
    IndexOfAnySkips(host, UploadPath + filename, {'/'});
    assert (UploadPath + filename)[0] == '/';
    assert rest[|host|..] == UploadPath + filename;
    assert rest[..|host|] == host;
    assert (UploadPath + filename)[|UploadPath|..] == filename;
  }

  /**
   * A filename with no character that needs escaping is read back unchanged,
   * whether or not the reader decodes '+' and '%'.
   */
  lemma {:induction false} UploadUriRoundTrip(host: string, filename: string)
    requires '/' !in host
    requires forall k :: 0 <= k < |filename| ==> !NeedsEscaping(filename[k])
    ensures ParseUploadUri(UploadUri(host, filename)) == Some((host, filename))
  {
    UploadUriParsed(host, filename);
    IndexOfAnyAbsent(filename, QueryDelimiters);
    assert filename[..|filename|] == filename;
  }

  /** Because the filename is not escaped, a '&' in it cuts the name the printer reads. */
  lemma UnescapedFilenameIsCut()
    ensures ParseUploadUri(UploadUri("printer", "a&b.gco")) == Some(("printer", "a"))
  {
    UploadUriParsed("printer", "a&b.gco");
    assert "a&b.gco"[1] == '&';
    assert "a&b.gco"[..1] == "a";
  }

  /** `<host>:8080`, the printer's command endpoint; its host part is the host, unchanged. */
  function CommandAddress(host: string): (address: string)
    ensures HostOfAddress(address) == Some(host)
  {
    var address := host + ":" + CommandPort;
    assert address[|address| - 5..] == ":8080" && address[..|address| - 5] == host;
    address
  }

  /** The host part of a command address, None when it is not on the command port. */
  function HostOfAddress(address: string): Option<string>
  {
    var suffix := ":" + CommandPort;
    if |address| >= |suffix| && address[|address| - |suffix|..] == suffix then
      Some(address[..|address| - |suffix|])
    else
      None
  }

  /** The command endpoint and the upload endpoint name the same host. */
  lemma {:induction false} EndpointsShareHost(host: string, filename: string)
    requires '/' !in host
    ensures HostOfAddress(CommandAddress(host)).Some?
    ensures ParseUploadUri(UploadUri(host, filename)).Some?
    ensures HostOfAddress(CommandAddress(host)).value == ParseUploadUri(UploadUri(host, filename)).value.0
  {
    UploadUriParsed(host, filename);
  }

  /**
   * `M23 <filename>\r\n`: select the file on the printer's storage. Without a
   * line feed in the filename it is read as one line naming that file.
   */
  function SelectFileCommand(filename: string): (line: string)
    ensures '\n' !in filename ==> Lines(line) == ["M23 " + filename]
  {
    var line := "M23 " + filename + "\r\n";
    if '\n' in filename then line
    else
      assert '\n' !in "M23 " + filename;
      LinesOfCrlfLine("M23 " + filename, "");
      assert "M23 " + filename + "\r\n" + "" == line;
      line
  }

  /** `M24\r\n`: start printing the selected file. */
  const StartPrintCommand := "M24\r\n"

  /**
   * Everything the relay writes on the command connection, in order. A
   * filename without a line feed makes the reader see exactly two commands:
   * the selection of that file, then the start.
   */
  function CommandStream(filename: string): (stream: string)
    ensures '\n' !in filename ==> Lines(stream) == ["M23 " + filename, "M24"]
  {
    var stream := SelectFileCommand(filename) + StartPrintCommand;
    if '\n' in filename then stream
    else
      StartCommandLine();
      LinesOfCrlfLine("M23 " + filename, StartPrintCommand);
      assert stream == ("M23 " + filename) + "\r\n" + StartPrintCommand;
      stream
  }

  /** Drops one carriage return ending a line. */
  function DropCr(line: string): (r: string)
    ensures r == line || (line == r + "\r")
  {
    if |line| > 0 && line[|line| - 1] == '\r' then line[..|line| - 1] else line
  }

  /**
   * The reference line reader: a line ends at '\n', a '\r' just before it is
   * dropped, and an unterminated tail is a last line. A lone '\r' does not end
   * a line here.
   */
  function Lines(s: string): seq<string>
    decreases |s|
  {
    if s == [] then []
    else
      var i := IndexOfAny(s, {'\n'});
      if i == |s| then [s] else [DropCr(s[..i])] + Lines(s[i + 1..])
  }

  /** A line ending in '\n' is read back as the next line, less a final '\r'. */
  lemma {:induction false} LinesOfLine(line: string, tail: string)
    requires '\n' !in line
    ensures Lines(line + "\n" + tail) == [DropCr(line)] + Lines(tail)
  {
    var s := line + "\n" + tail;
    assert s == line + ("\n" + tail);
    IndexOfAnySkips(line, "\n" + tail, {'\n'});
    assert ("\n" + tail)[0] == '\n';
    assert s[..|line|] == line;
    assert s[|line| + 1..] == tail;
  }

  /** A line ending in CRLF is read back as the next line. */
  lemma {:induction false} LinesOfCrlfLine(line: string, tail: string)
    requires '\n' !in line
    ensures Lines(line + "\r\n" + tail) == [line] + Lines(tail)
  {
    assert line + "\r\n" + tail == (line + "\r") + "\n" + tail;
    assert '\n' !in line + "\r";
    LinesOfLine(line + "\r", tail);
    assert (line + "\r")[..|line|] == line;
  }

  /**
   * The filename is written unsanitised: a line feed in it smuggles a further
   * command in between the selection and the start. (Through the relay, such a
   * filename gets past the upload only when the line feed follows a '#'; see
   * Relay.FragmentNewlineReachesCommands.)
   */
  lemma {:induction false} NewlineInFilenameAddsCommand(name: string, command: string)
    requires '\n' !in name && '\n' !in command
    requires name == [] || name[|name| - 1] != '\r'
    ensures Lines(CommandStream(name + "\n" + command)) == ["M23 " + name, command, "M24"]
  {
    var line := "M23 " + name;
    var rest := command + "\r\n" + StartPrintCommand;
    assert CommandStream(name + "\n" + command) == line + "\n" + rest;
    assert '\n' !in line;
    LinesOfLine(line, rest);
    assert DropCr(line) == line;
    LinesOfCrlfLine(command, StartPrintCommand);
    StartCommandLine();
  }

  /** The start command alone is read as the one line `M24`. */
  lemma StartCommandLine()
    ensures Lines(StartPrintCommand) == ["M24"]
  {
    LinesOfCrlfLine("M24", "");
    assert "M24" + "\r\n" + "" == StartPrintCommand;
  }

  /**
   * The reply text kept from the one read into the 1024-byte buffer: at most
   * 1024 characters, a prefix of what the printer delivered, and all of it
   * when it fits.
   */
  function Captured(delivered: seq<char>): (reply: string)
    ensures |reply| <= ReplyBufferSize
    ensures reply <= delivered
    ensures |delivered| <= ReplyBufferSize ==> reply == delivered
    ensures |delivered| > ReplyBufferSize ==> |reply| == ReplyBufferSize
  {
    if |delivered| <= ReplyBufferSize then delivered else delivered[..ReplyBufferSize]
  }
}
