/** The request a log client sends once: a follow flag, a name length, and the name. */
module LogWire {
  import opened Basics

  datatype Request = Request(follow: bool, name: seq<byte>)

  /** A connection's parse so far: bytes of an incomplete request, or the request and whatever
      was received after it. */
  datatype Parse = Partial(buf: seq<byte>) | Parsed(request: Request, rest: seq<byte>)

  /** Number of bytes of the request `buf` begins with, once its header is there. */
  function RequestLength(buf: seq<byte>): nat
    requires |buf| >= 2
  {
    2 + buf[1] as int
  }

  predicate Complete(buf: seq<byte>) {
    |buf| >= 2 && |buf| >= RequestLength(buf)
  }

  /** Takes a request off the front of the buffered bytes as soon as all of it is there. */
  function Take(buf: seq<byte>): Parse {
    if !Complete(buf) then Partial(buf)
    else Parsed(Request(buf[0] != 0, buf[2..RequestLength(buf)]), buf[RequestLength(buf)..])
  }

  /** One more read's worth of bytes. */
  function Feed(p: Parse, bytes: seq<byte>): Parse {
    match p
    case Partial(buf) => Take(buf + bytes)
    case Parsed(request, rest) => Parsed(request, rest + bytes)
  }

  function FeedAll(p: Parse, chunks: seq<seq<byte>>): Parse {
    if chunks == [] then p else Feed(FeedAll(p, chunks[..|chunks| - 1]), chunks[|chunks| - 1])
  }

  /** A request that is complete stays the same request whatever follows. */
  lemma TakeMore(buf: seq<byte>, bytes: seq<byte>)
    ensures Feed(Take(buf), bytes) == Take(buf + bytes)
  {
    if Complete(buf) {
      var n := RequestLength(buf);
      assert RequestLength(buf + bytes) == n;
      assert (buf + bytes)[2..n] == buf[2..n];
      assert (buf + bytes)[n..] == buf[n..] + bytes;
    }
  }

  /** However the bytes are split over reads, the parse is that of all the bytes at once. */
  lemma {:induction false} SplitsDoNotMatter(chunks: seq<seq<byte>>)
    ensures FeedAll(Partial([]), chunks) == Take(Flatten(chunks))
  {
    if chunks != [] {
      var init, last := chunks[..|chunks| - 1], chunks[|chunks| - 1];
      SplitsDoNotMatter(init);
      TakeMore(Flatten(init), last);
    }
  }

  /** The bytes a client sends for a name, cut to 255 bytes. */
  function Encoding(follow: bool, name: seq<byte>): seq<byte> {
    var sent := name[..Min(|name|, 255)];
    [if follow then 1 else 0, |sent| as byte] + sent
  }

  /** The client's request builder. */
  method EncodeRequest(name: seq<byte>, follow: bool) returns (request: seq<byte>)
    ensures request == Encoding(follow, name)
    ensures |request| == 2 + (if |name| < 255 then |name| else 255) && request[2..] <= name
    ensures request[0] == (if follow then 1 else 0) && request[1] as int == |request| - 2
  {
    var nameBytes := name[..Min(|name|, 255)];
    request := [];
    request := request + [if follow then 1 else 0];
    request := request + [|nameBytes| as byte];
    request := request + nameBytes;
  }

  /** Whatever reads deliver a client's request, and whatever comes after it, the server reads
      back the flag and the name (its first 255 bytes), and consumes exactly the request. */
  lemma RequestRoundTrip(follow: bool, name: seq<byte>, chunks: seq<seq<byte>>, rest: seq<byte>)
    requires Flatten(chunks) == Encoding(follow, name) + rest
    ensures FeedAll(Partial([]), chunks) == Parsed(Request(follow, name[..Min(|name|, 255)]), rest)
  {
    SplitsDoNotMatter(chunks);
    var buf := Encoding(follow, name) + rest;
    var sent := name[..Min(|name|, 255)];
    assert RequestLength(buf) == 2 + |sent|;
    assert buf[2..2 + |sent|] == sent;
    assert buf[2 + |sent|..] == rest;
  }
}
