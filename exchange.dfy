/** One write-then-read exchange with a backend host and the hand-off of the
    response buffer to the channel's codec (`talk_to_dhi_host`, `talk_to_sp_host`
    and `talk_to_ips_host` of src/main.rs, without the connection selection,
    which the handlers add). */
module HostExchange {
  import opened Errors

  newtype byte = x: int | 0 <= x < 256

  /** The response buffer is a zero-initialised array of this many bytes. */
  const BufferSize: nat := 8192

  /** A DHI response starts with its length in this many bytes. */
  const LengthPrefixSize: nat := 5

  /** What the socket does during one exchange: the write of the whole request
      and a single read, both within the 5-second timeout, or one of the ways
      that fails. The backend and the clock are outside the model, so the step
      is an input. `chunk` is what the one read had available. */
  datatype SocketStep =
    | Delivered(chunk: seq<byte>)
    | WriteFailed(reason: string)
    | ReadFailed(reason: string)
    | TimedOut

  /** What a codec that may reject its input returns (the DHI response parser). */
  datatype Decoded<R> = Decoded(value: R) | Malformed(reason: string)

  function Min(a: nat, b: nat): nat {
    if a <= b then a else b
  }

  function Zeros(k: nat): (z: seq<byte>)
    ensures |z| == k
    ensures forall i :: 0 <= i < k ==> z[i] == 0
  {
    seq(k, _ => 0)
  }

  /** The buffer after the one read: the read copies at most `BufferSize`
      bytes of the chunk to the front; the rest keeps its initial zeros. */
  function ReadInto(chunk: seq<byte>): (buffer: seq<byte>)
    ensures |buffer| == BufferSize
    ensures forall i :: 0 <= i < Min(|chunk|, BufferSize) ==> buffer[i] == chunk[i]
    ensures forall i :: Min(|chunk|, BufferSize) <= i < BufferSize ==> buffer[i] == 0
  {
    var count := Min(|chunk|, BufferSize);
    chunk[..count] + Zeros(BufferSize - count)
  }

  /** The timeout-bounded exchange: the filled buffer, or an `IoError` for every
      failure and for the timeout; never a partial buffer in place of an error. */
  function Exchange(step: SocketStep): (r: Result<seq<byte>>)
    ensures r.Ok? <==> step.Delivered?
    ensures r.Ok? ==> r.value == ReadInto(step.chunk)
    ensures r.Err? ==> r.error.IoError?
  {
    match step
    case Delivered(chunk) => Ok(ReadInto(chunk))
    case WriteFailed(reason) => Err(IoError(reason))
    case ReadFailed(reason) => Err(IoError(reason))
    case TimedOut => Err(IoError("future timed out"))
  }

  /** What a parse result becomes once `?` has converted the parser's error. */
  function Lift<R>(d: Decoded<R>): (r: Result<R>)
    ensures d.Decoded? <==> r.Ok?
    ensures d.Decoded? ==> r.value == d.value
    ensures d.Malformed? ==> r.error == ParseError(d.reason)
  {
    match d
    case Decoded(v) => Ok(v)
    case Malformed(reason) => Err(ParseError(reason))
  }

  /** DHI: the exchange, then the parser on the buffer without its first
      `LengthPrefixSize` bytes. */
  function DhiOutcome<R>(step: SocketStep, decode: seq<byte> -> Decoded<R>): (r: Result<R>)
    ensures !step.Delivered? ==> r == Err(Exchange(step).error)
    ensures step.Delivered? ==> r == Lift(decode(ReadInto(step.chunk)[LengthPrefixSize..]))
  {
    match Exchange(step)
    case Err(e) => Err(e)
    case Ok(buffer) => Lift(decode(buffer[LengthPrefixSize..]))
  }

  /** SP and IPS: the exchange, then the response constructor on the whole buffer
      (`SPResponse::new(&buffer)`, `SigmaResponse::new(&buffer)`; neither can fail). */
  function WholeBufferOutcome<R>(step: SocketStep, decode: seq<byte> -> R): (r: Result<R>)
    ensures !step.Delivered? ==> r == Err(Exchange(step).error)
    ensures step.Delivered? ==> r == Ok(decode(ReadInto(step.chunk)))
  {
    match Exchange(step)
    case Err(e) => Err(e)
    case Ok(buffer) => Ok(decode(buffer))
  }

  /** The buffer holds the chunk followed by zeros: no byte is altered. */
  lemma ReadIntoKeepsChunk(chunk: seq<byte>)
    requires |chunk| <= BufferSize
    ensures ReadInto(chunk) == chunk + Zeros(BufferSize - |chunk|)
  {
  }

  /** A chunk longer than the buffer is cut to its first `BufferSize` bytes. */
  lemma ReadIntoTruncates(chunk: seq<byte>)
    requires |chunk| >= BufferSize
    ensures ReadInto(chunk) == chunk[..BufferSize]
  {
  }

  /** The DHI parser receives exactly bytes 5..8192 of the buffer: the chunk
      without its length prefix, padded with zeros to 8187 bytes. */
  lemma DhiCodecReceivesPayload<R>(chunk: seq<byte>, decode: seq<byte> -> Decoded<R>)
    requires LengthPrefixSize <= |chunk| <= BufferSize
    ensures |chunk[LengthPrefixSize..] + Zeros(BufferSize - |chunk|)| == BufferSize - LengthPrefixSize
    ensures DhiOutcome(Delivered(chunk), decode)
         == Lift(decode(chunk[LengthPrefixSize..] + Zeros(BufferSize - |chunk|)))
  {
    ReadIntoKeepsChunk(chunk);
    assert (chunk + Zeros(BufferSize - |chunk|))[LengthPrefixSize..]
        == chunk[LengthPrefixSize..] + Zeros(BufferSize - |chunk|);
  }

  /** A read shorter than the prefix leaves the DHI parser nothing but zeros. */
  lemma DhiShortReadYieldsZeros<R>(chunk: seq<byte>, decode: seq<byte> -> Decoded<R>)
    requires |chunk| <= LengthPrefixSize
    ensures DhiOutcome(Delivered(chunk), decode) == Lift(decode(Zeros(BufferSize - LengthPrefixSize)))
  {
    assert ReadInto(chunk)[LengthPrefixSize..] == Zeros(BufferSize - LengthPrefixSize);
  }

  /** The length prefix never reaches the DHI parser: responses that differ only
      in their first five bytes parse the same. */
  lemma DhiPrefixIgnored<R>(p1: seq<byte>, p2: seq<byte>, rest: seq<byte>,
                            decode: seq<byte> -> Decoded<R>)
    requires |p1| == LengthPrefixSize && |p2| == LengthPrefixSize
    ensures DhiOutcome(Delivered(p1 + rest), decode) == DhiOutcome(Delivered(p2 + rest), decode)
  {
    assert ReadInto(p1 + rest)[LengthPrefixSize..] == ReadInto(p2 + rest)[LengthPrefixSize..];
  }

  /** The SP and IPS constructors receive all 8192 bytes: the chunk and then
      zeros, as it was read. */
  lemma WholeBufferCodecReceivesRead<R>(chunk: seq<byte>, decode: seq<byte> -> R)
    requires |chunk| <= BufferSize
    ensures WholeBufferOutcome(Delivered(chunk), decode) == Ok(decode(chunk + Zeros(BufferSize - |chunk|)))
  {
    ReadIntoKeepsChunk(chunk);
  }

  /** The read count is discarded: a chunk and the same chunk followed by a zero
      byte reach the SP and IPS constructors as the same buffer. */
  lemma ReadCountDiscarded<R>(chunk: seq<byte>, decode: seq<byte> -> R)
    requires |chunk| < BufferSize
    ensures WholeBufferOutcome(Delivered(chunk), decode)
         == WholeBufferOutcome(Delivered(chunk + [0]), decode)
  {
    assert ReadInto(chunk) == ReadInto(chunk + [0]);
  }

  /** Round trip through SP or IPS: a response of at most 8192 bytes, encoded
      by a codec whose decoder ignores trailing zero padding, is returned as it
      was encoded. */
  lemma WholeBufferRoundTrip<R>(x: R, encode: R -> seq<byte>, decode: seq<byte> -> R)
    requires |encode(x)| <= BufferSize
    requires forall k: nat :: decode(encode(x) + Zeros(k)) == x
    ensures WholeBufferOutcome(Delivered(encode(x)), decode) == Ok(x)
  {
    WholeBufferCodecReceivesRead(encode(x), decode);
  }

  /** Round trip through DHI: a length prefix followed by an encoding of at most
      8187 bytes, decoded by a parser that ignores trailing zero padding, yields
      the encoded response. */
  lemma DhiRoundTrip<R>(prefix: seq<byte>, x: R, encode: R -> seq<byte>,
                        decode: seq<byte> -> Decoded<R>)
    requires |prefix| == LengthPrefixSize
    requires |encode(x)| <= BufferSize - LengthPrefixSize
    requires forall k: nat :: decode(encode(x) + Zeros(k)) == Decoded(x)
    ensures DhiOutcome(Delivered(prefix + encode(x)), decode) == Ok(x)
  {
    DhiCodecReceivesPayload(prefix + encode(x), decode);
    assert (prefix + encode(x))[LengthPrefixSize..] == encode(x);
  }

  /** The padding does reach the codec: with the identity as SP/IPS constructor,
      a three-byte response does not come back as those three bytes. */
  lemma PaddingReachesWholeBufferCodec()
    ensures WholeBufferOutcome(Delivered([1, 2, 3]), (b: seq<byte>) => b) != Ok([1, 2, 3])
  {
  }

  /** Likewise for DHI: with the identity as parser, the three payload bytes
      after the prefix do not come back as themselves. */
  lemma PaddingReachesDhiParser()
    ensures DhiOutcome(Delivered([0, 0, 0, 0, 0, 1, 2, 3]), (b: seq<byte>) => Decoded(b)) != Ok([1, 2, 3])
  {
  }
}
