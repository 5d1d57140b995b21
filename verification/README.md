# mks-wifi-to-octo upload relay, modelled in Dafny

The relay lets OctoPrint clients upload G-code to an MKS printer. It accepts an
OctoPrint upload (`POST /api/files/local`, a multipart form with a `file` part
and an optional `print` value). It re-frames the file as the `uploadfile` part
of a new multipart body and POSTs that to
`http://<host>/upload?X-Filename=<filename>`. When `print=true`, it opens
`<host>:8080` and writes `M23 <filename>\r\n` then `M24\r\n`. Then it reads the
reply once into a 1024-byte buffer.

The model has six modules:

- `OctoUpload` (octo_upload.dfy) holds the decoded form and the extraction
  (`parseOctoUpload`), as pure functions.
- `MksProtocol` (mks_protocol.dfy) holds the printer's endpoints and the command
  framing. Beside each construction stands a reference reading of it that the
  model assumes, since the printer firmware is not part of this model: a URI
  reader that takes the `X-Filename` value verbatim up to `&` or `#`, the host
  of the command address, and a line reader that ends lines at `\n`. The lemmas
  say when such a reading gives back what the relay wrote.
- `Transport` (transport.dfy) holds the collaborators. `MultipartBody` is the
  outgoing body, filled in place. `Copy` is io.Copy's 32 KiB chunked copy.
  `Printer` is the printer as reached over the network: its answers are a fixed
  `Script`, and every interaction is appended to its `trace`. Before a POST,
  the HTTP client parses the URI (`UriAccepted`): a control character before
  the first `#`, or a malformed percent escape after it, fails the POST before
  the printer is contacted.
- `Relay` (relay.dfy) holds the three steps as methods (`UploadFileToMks`,
  `StartMksJob`, `HandleFileUpload`). Each method is proved equal to a
  specification function (`DeviceUpload`, `DeviceStart`, `Handling`). The
  ordering, status and "no later step" properties are stated on those functions.
- `Scenarios` (scenarios.dfy) holds the end-to-end runs, each with its exact
  response and printer trace, for any filename with no `#` and no control
  character; `ShapesOfA` writes the shapes out for `a.gco`.
- `Strings` and `Wrappers` are helpers.

A `file` field present with zero parts is reported as a wrong count (0); only an
absent `file` field is a missing file (main.go:120-126).

## Model

| member | source | states |
|---|---|---|
| OctoUpload.StartPrintingFlag | main.go:111-118 | the flag is set exactly when `print` is present with the one value `"true"`; absent, several values or other text give false |
| OctoUpload.ParseOctoUpload | main.go:105-130 | exactly one of a file and an error; an undecodable form, a missing `file` field and a count other than one (reporting the count) are the three errors, none of them with the start flag; on success the file is the one element of `File["file"]` and the flag is that of `print` |
| OctoUpload.ExtractionIgnoresOtherFields | main.go:112-120 | two forms that agree on `print` and `file` extract identically |
| MksProtocol.UploadUri | main.go:151 | the URI is scheme, host, upload path and the filename with nothing added, so it ends with the filename verbatim |
| MksProtocol.UploadUriParsed | main.go:18 | the reference reading of the upload URI gives back the host, and the filename up to its first `&` or `#` |
| MksProtocol.UploadUriRoundTrip | main.go:151 | a filename with no character that needs escaping in a query (`&`, `#`, space, `+`, `%`, control characters) is read back unchanged, with the host |
| MksProtocol.UnescapedFilenameIsCut | main.go:151 | since the filename is not escaped, `a&b.gco` reaches the printer as `a` |
| MksProtocol.CommandAddress | main.go:172 | the command address is on port 8080 and its host part is the printer host, unchanged |
| MksProtocol.EndpointsShareHost | main.go:172 | the command address `<host>:8080` and the upload URI name the same host |
| MksProtocol.SelectFileCommand | main.go:178 | for a filename without a line feed, the selection is read as the one line `M23 <filename>` |
| MksProtocol.CommandStream | main.go:178-179 | for a filename without a line feed, the line reader sees exactly `M23 <filename>` and `M24`, in that order |
| MksProtocol.StartCommandLine | main.go:179 | `M24\r\n` is read as the single line `M24` |
| MksProtocol.NewlineInFilenameAddsCommand | main.go:178 | a line feed in the filename puts an extra command line between the selection and the start |
| MksProtocol.Captured | main.go:181-186 | the kept reply has at most 1024 characters, is a prefix of what was delivered, and is all of it when it fits |
| Transport.MultipartBody.CreateFormFile | main.go:136 | a new empty part with the given field and filename is appended |
| Transport.MultipartBody.Write | main.go:145 | the bytes are appended to the content of the open part; the other parts do not change |
| Transport.MultipartBody.Close | main.go:149 | the body is closed and its parts do not change |
| Transport.Copy | main.go:145 | the whole file is appended to the open part, byte for byte, in 32 KiB chunks; a read error after the data is reported |
| Transport.Printer.Post | main.go:156 | a URI the client accepts gives a recorded POST with its URI, content type and body, and the printer's answer; a refused URI fails the POST and records nothing |
| Transport.Printer.Dial | main.go:172 | the dial is recorded; the connection is open exactly when the dial succeeds |
| Transport.Printer.Write | main.go:178-179 | the data is recorded as written on the open connection |
| Transport.Printer.Read | main.go:181-182 | one read records its buffer size and fills at most that many cells with the delivered data; a failure reads nothing |
| Transport.Printer.Close | main.go:176 | the connection is released and the release is recorded |
| Relay.DeviceUpload | main.go:132-169 | the POST is made exactly when the file is read whole and the client accepts the URI, and a refused URI is a request failure; it goes to the upload URI with one `uploadfile` part of the same filename and the unchanged content; success is a completed request with a readable body, whatever its status; an unopenable file, a failed copy, a failed request and an unreadable reply body each give their own error |
| Relay.UploadIgnoresStatus | main.go:156-168 | the printer's HTTP status does not affect the upload's outcome |
| Relay.UploadUriAccepted | main.go:151-156 | for a plain host, a filename with no `#` and no control character gives a URI the client accepts |
| Relay.ControlCharacterRefused | main.go:151-156 | a control character in the filename with no `#` before it makes the client refuse the URI |
| Relay.UploadReachesPrinter | main.go:136-156 | for a plain host and a filename with no character that needs escaping, the POST is made, the filename of the reference reading equals the part's filename, and the part holds the stored bytes |
| Relay.FragmentUriAccepted | main.go:151-156 | after a `#` in the filename only percent escapes are checked, so such a URI is accepted when they are well formed |
| Relay.FragmentNewlineReachesCommands | main.go:151-178 | a filename `<name>#\n<command>` is uploaded successfully and makes the line reader see `M23 <name>#`, `<command>`, `M24` |
| Relay.SessionWrites | main.go:178-179 | the writes of a command session are the two lines, in order |
| Relay.SessionOrder | main.go:176-185 | in a command session no write follows the read, and nothing is an upload |
| Relay.DeviceStart | main.go:171-187 | the first step is the dial to `<host>:8080`; if it fails nothing else happens and the error is a connection failure; otherwise the trace is exactly the dial, `M23 <filename>\r\n`, `M24\r\n`, one read into the 1024-byte buffer and the release; a failed read is a reply failure; on success the result is the captured reply |
| Relay.Handling | main.go:74-103 | an extraction error is a 400 with no printer contact; an upload error is a 400 with no dial; the dial happens exactly when the start was asked for and the upload succeeded; a 500 is exactly a failed start; a 200 is exactly a good extraction and upload and, when asked for, a good start; only a 200 carries the body `{}`; after a good extraction the trace is the upload's followed by the start's when one is attempted; the POST comes first whenever there is a dial |
| Relay.HandlingStarted | main.go:83-102 | a request asking for a print whose upload succeeds gives the upload's trace then the start's, with 200 `{}` for a good start and 500 otherwise |
| Relay.UploadFileToMks | main.go:132-169 | returns the error and appends the trace that `DeviceUpload` gives |
| Relay.StartMksJob | main.go:171-187 | returns the reply and error and appends the trace that `DeviceStart` gives, and leaves the connection closed |
| Relay.HandleFileUpload | main.go:74-103 | returns the response and appends the trace that `Handling` gives, and leaves no connection open |
| Scenarios.UploadWithoutPrint | main.go:74-103 | an upload without `print` makes one POST of the unchanged file and answers 200 `{}` |
| Scenarios.ShapesOfA | main.go:151-179 | the POST, the selection line, the start line and the command address for `a.gco`, written out as literals |
| Scenarios.UploadOf | main.go:132-169 | the upload of a file whose name the client accepts, to a printer answering with a readable body, is the one POST and succeeds |
| Scenarios.StartOf | main.go:171-187 | the start on a printer that accepts the connection is the dial, the two lines, one 1024-byte read and the release, with the captured reply |
| Scenarios.UploadThenStart | main.go:74-103 | with `print=true` and a good upload, the request is the one POST followed by the start, answering 200 `{}` or 500 by the start's outcome |
| Scenarios.UploadAndPrint | main.go:74-103 | with `print=true` the POST is followed by the dial to `<host>:8080`, the selection line, `M24\r\n`, one 1024-byte read and the release, and the answer is 200 `{}` |
| Scenarios.LineFeedInFilename | main.go:83-88 | a filename `a\nb.gco` is refused by the client: 400, and the printer sees nothing |
| Scenarios.TwoFileParts | main.go:120-126 | two `file` parts give 400 and the printer sees nothing |
| Scenarios.UploadEndpointDown | main.go:83-88 | a failed POST gives 400 and no dial, even with `print=true` |
| Scenarios.CommandPortDown | main.go:90-97 | a refused command connection after a good upload gives 500 |

## Left out

- Process startup, argument and environment handling and router setup (main.go:23-53) contain no decision logic.
- The request logger and the static version response (main.go:55-72) contain no decision logic.
- Multipart decoding and encoding belong to Go's `mime/multipart`. This covers `ParseMultipartForm` with its 32 MiB memory ceiling, the boundary text and the part headers. A request is modelled as a decoded form or a decoding failure, and the outgoing body as its list of parts.
- The error branch of `CreateFormFile` (main.go:137-139) is not modelled. The writer writes into an in-memory `bytes.Buffer`, where writes do not fail.
- Closing the stored file (main.go:144) and the response body (main.go:160) are not modelled: neither affects an outcome.
- The HTTP client's 300-second timeout is not modelled. A timeout is one way for the POST to fail (`PostFailed`).
- Network behaviour is not modelled; the printer's answers are fixed inputs (the `Script`).
- Write errors on the command connection are ignored by the source (main.go:178-179), so a write is only recorded.
- Transport.Printer.Read: a real socket read may return fewer bytes than are available. The model's read fills the buffer with as much of the delivered data as fits. A short read is the same as a delivery of fewer bytes.
- Socket bytes are modelled as characters, and no text encoding is modelled. The stored file's content is modelled as bytes.
- The three-second pause before the start (main.go:91) is not modelled; it has no effect beyond time.
- Logging is not modelled, including the printer's upload status and body and the captured reply.
- `FileHeader.size` is carried but only logged by the source (main.go:128).
- The printer host is a parameter, not the process-wide variable set at startup. The lemmas that follow an upload to the printer assume a plain host (no `/`, `#` or control character), as given on the command line.
- Transport.UriAccepted: only the URL parser's refusals that a filename can cause are modelled (a control character before the first `#`, a malformed escape in the fragment); its checks of the host and port are not, since the host is fixed at startup.
- MksProtocol.UploadUriParsed: the printer firmware is not part of this model; the URI reader is an assumed reference that takes the query value verbatim. A firmware that decodes `+` or `%` would read some filenames differently.
- MksProtocol.UploadUriRoundTrip: holds for the assumed reader; it excludes space, `+`, `%` and control characters so that it also holds for a reader that decodes them.
- Relay.UploadReachesPrinter: states what the assumed URI reader takes from the POST, not what the firmware stores.
- MksProtocol.CommandStream: the line reader `Lines` is an assumption: lines end at `\n`, with a `\r` before it dropped. Nothing is said about a firmware that also ends lines at a lone `\r`.
- MksProtocol.SelectFileCommand: read with the same assumed line reader.
- MksProtocol.NewlineInFilenameAddsCommand: read with the same assumed line reader.
- Relay.FragmentNewlineReachesCommands: read with the same assumed line reader.
- Concurrent requests are not modelled: nothing in the source orders them at the printer.
