/**
 * The collaborators the relay drives: the outgoing multipart body it fills in
 * place (bytes.Buffer behind multipart.Writer), the chunked copy of the stored
 * file into it (io.Copy), and the printer as seen over the network (an HTTP
 * client POST and a TCP connection).
 *
 * The network is not modelled; what the printer answers is a script fixed in
 * advance (a POST reply, whether the dial succeeds, what one read delivers),
 * and every interaction the relay has with it is appended to a trace.
 */
module Transport {
  import opened OctoUpload
  import opened Strings

  /** One part of a multipart body: form field name, filename and content. */
  datatype FormPart = FormPart(field: string, filename: string, content: seq<byte>)

  /** What the printer's HTTP endpoint does with a POST. */
  datatype PostReply =
    | PostFailed                              // connection error or timeout
    | Replied(status: int, bodyReadable: bool) // a response whose body can or cannot be read to its end

  /** What one read on the command connection returns. */
  datatype ReadReply =
    | ReadFailed              // socket error, or end of stream before any data
    | Delivered(data: string) // the bytes available to the read

  datatype Script = Script(post: PostReply, dialOk: bool, read: ReadReply)

  /** One interaction of the relay with the printer. */
  datatype Event =
    | Posted(uri: string, contentType: string, body: seq<FormPart>)
    | Dialed(address: string, connected: bool)
    | Sent(data: string)
    | ReadAttempted(capacity: nat)
    | Closed

  predicate IsHexDigit(c: char)
  {
    '0' <= c <= '9' || 'a' <= c <= 'f' || 'A' <= c <= 'F'
  }

  /** Every '%' starts a two-digit hexadecimal escape. */
  predicate ValidEscapes(s: string)
  {
    forall i :: 0 <= i < |s| && s[i] == '%' ==> i + 2 < |s| && IsHexDigit(s[i + 1]) && IsHexDigit(s[i + 2])
  }

  /**
   * Whether Go's URL parser accepts `uri`, as the HTTP client requires before
   * it contacts anyone: no control character before the first '#', and only
   * well-formed percent escapes in the fragment after it. (The parser's checks
   * of the host are not part of this predicate.)
   */
  predicate UriAccepted(uri: string)
  {
    var cut := IndexOfAny(uri, {'#'});
    (forall k :: 0 <= k < cut ==> !IsControl(uri[k])) &&
    (cut < |uri| ==> ValidEscapes(uri[cut + 1..]))
  }

  /** `parts` with `chunk` appended to the content of its last (open) part. */
  function AppendToLast(parts: seq<FormPart>, chunk: seq<byte>): (r: seq<FormPart>)
    requires parts != []
    ensures |r| == |parts| && r[..|r| - 1] == parts[..|parts| - 1]
    ensures r[|r| - 1].field == parts[|parts| - 1].field && r[|r| - 1].filename == parts[|parts| - 1].filename
    ensures r[|r| - 1].content == parts[|parts| - 1].content + chunk
  {
    var last := parts[|parts| - 1];
    parts[..|parts| - 1] + [last.(content := last.content + chunk)]
  }

  /** Appending two chunks one after the other is appending them joined. */
  lemma AppendToLastTwice(parts: seq<FormPart>, a: seq<byte>, b: seq<byte>)
    requires parts != []
    ensures AppendToLast(AppendToLast(parts, a), b) == AppendToLast(parts, a + b)
  {
    var last := parts[|parts| - 1];
    var once := AppendToLast(parts, a);
    assert once == parts[..|parts| - 1] + [last.(content := last.content + a)];
    assert once[..|once| - 1] == parts[..|parts| - 1];
    assert last.content + a + b == last.content + (a + b);
  }

  /** Appending nothing leaves the parts as they are. */
  lemma AppendToLastNothing(parts: seq<FormPart>)
    requires parts != []
    ensures AppendToLast(parts, []) == parts
  {
    var last := parts[|parts| - 1];
    assert last.content + [] == last.content;
    assert parts[..|parts| - 1] + [last] == parts;
  }

  /** A multipart body under construction; the last part is the one being written. */
  class MultipartBody {
    var parts: seq<FormPart>
    var closed: bool

    constructor ()
      ensures parts == [] && !closed
    {
      parts := [];
      closed := false;
    }

    /** Starts a new file part; later writes go into it. */
    method CreateFormFile(field: string, filename: string)
      requires !closed
      modifies this
      ensures !closed
      ensures parts == old(parts) + [FormPart(field, filename, [])]
    {
      parts := parts + [FormPart(field, filename, [])];
    }

    /** Appends bytes to the open part. */
    method Write(chunk: seq<byte>)
      requires !closed && parts != []
      modifies this
      ensures !closed
      ensures parts == AppendToLast(old(parts), chunk)
    {
      parts := AppendToLast(parts, chunk);
    }

    /** Writes the closing boundary; the parts are final. */
    method Close()
      modifies this
      ensures closed && parts == old(parts)
    {
      closed := true;
    }
  }

  /** The buffer size io.Copy reads with. */
  const CopyBufferSize := 32 * 1024

  /**
   * Copies the whole stored file into the open part, one buffer at a time, and
   * reports the read error that follows the data when the file has one.
   */
  method Copy(dst: MultipartBody, data: seq<byte>, readFails: bool) returns (written: nat, ok: bool)
    requires !dst.closed && dst.parts != []
    modifies dst
    ensures !dst.closed
    ensures dst.parts == AppendToLast(old(dst.parts), data)
    ensures written == |data| && ok == !readFails
  {
    written := 0;
    AppendToLastNothing(dst.parts);
    while written < |data|
      invariant written <= |data|
      invariant !dst.closed
      invariant dst.parts == AppendToLast(old(dst.parts), data[..written])
    {
      var n := if |data| - written < CopyBufferSize then |data| - written else CopyBufferSize;
      dst.Write(data[written..written + n]);
      AppendToLastTwice(old(dst.parts), data[..written], data[written..written + n]);
      assert data[..written] + data[written..written + n] == data[..written + n];
      written := written + n;
    }
    assert data[..written] == data;
    ok := !readFails;
  }

  /**
   * The printer as the relay reaches it: its answers are the script, and
   * `trace` is everything the relay has done to it so far. `connected` is true
   * while a command connection is open.
   */
  class Printer {
    const script: Script
    var trace: seq<Event>
    var connected: bool

    constructor (script: Script)
      ensures this.script == script && trace == [] && !connected
    {
      this.script := script;
      trace := [];
      connected := false;
    }

    /**
     * An HTTP POST of a multipart body. The client parses the URI first, and a
     * URI it refuses fails the POST before the printer is contacted; otherwise
     * the POST is made and the reply is the script's.
     */
    method Post(uri: string, contentType: string, body: seq<FormPart>) returns (reply: PostReply)
      modifies this`trace
      ensures reply == if UriAccepted(uri) then script.post else PostFailed
      ensures trace == old(trace) + if UriAccepted(uri) then [Posted(uri, contentType, body)] else []
    {
      if !UriAccepted(uri) {
        return PostFailed;
      }
      trace := trace + [Posted(uri, contentType, body)];
      reply := script.post;
    }

    /** Opens the command connection, when the script lets it succeed. */
    method Dial(address: string) returns (ok: bool)
      requires !connected
      modifies this
      ensures ok == script.dialOk && connected == ok
      ensures trace == old(trace) + [Dialed(address, ok)]
    {
      ok := script.dialOk;
      connected := ok;
      trace := trace + [Dialed(address, ok)];
    }

    /** Writes on the open connection; the relay ignores write errors, so none is reported. */
    method Write(data: string)
      requires connected
      modifies this`trace
      ensures trace == old(trace) + [Sent(data)]
    {
      trace := trace + [Sent(data)];
    }

    /**
     * One read into `buff`: on success the first `n` cells hold as much of the
     * delivered data as fits, and nothing else is promised about `buff`.
     */
    method Read(buff: array<char>) returns (n: nat, ok: bool)
      requires connected
      modifies this`trace, buff
      ensures trace == old(trace) + [ReadAttempted(buff.Length)]
      ensures ok == script.read.Delivered?
      ensures n <= buff.Length
      ensures ok ==> n == (if |script.read.data| < buff.Length then |script.read.data| else buff.Length)
      ensures ok ==> buff[..n] == script.read.data[..n]
      ensures !ok ==> n == 0
    {
      trace := trace + [ReadAttempted(buff.Length)];
      match script.read
      case ReadFailed =>
        n, ok := 0, false;
      case Delivered(data) =>
        n := if |data| < buff.Length then |data| else buff.Length;
        forall i | 0 <= i < n {
          buff[i] := data[i];
        }
        ok := true;
    }

    /** Releases the connection. */
    method Close()
      requires connected
      modifies this
      ensures !connected
      ensures trace == old(trace) + [Closed]
    {
      connected := false;
      trace := trace + [Closed];
    }
  }
}
