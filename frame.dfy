/**
 * The binary reply format of the instrument: a sequence of definite-length
 * blocks, each `#`, one digit-count character `k`, `k` characters giving
 * the payload size in decimal, then the payload; the sequence ends with
 * a line feed. `SyncFrame` is what `Connection::read_binary` and
 * `Connection::read_binary_raw` make of the bytes the socket delivers, and
 * `EncodeFrame` writes a reply that they read back whole.
 */
module Frame {
  import opened Wrappers
  import opened Numbers

  /** Raised by `Socket::read` when the stream ends before the requested count. */
  const ShortRead: string := "Unexpected number of bytes read from socket"

  /** The value of a `char` on a platform where `char` is signed. */
  function SignedChar(c: Byte): (v: int)
    ensures -128 <= v < 128
    ensures v == c as int || v == c as int - 256
  {
    if c as int < 128 then c as int else c as int - 256
  }

  /**
   * `size_size_buffer - '0'`, converted to `std::size_t`: a character below
   * `'0'` (or above 127) wraps to a count `std::string` cannot allocate, and
   * the constructor throws; every other character gives a count of 0 to 79.
   */
  function SizeOfSize(c: Byte): (k: Option<nat>)
    ensures k.Some? <==> '0' <= c && c as int < 128
    ensures k.Some? ==> k.value == c as int - '0' as int < 80
  {
    var v := SignedChar(c) - '0' as int;
    if v < 0 then None else Some(v)
  }

  /** A decoded reply: the payload bytes and the stream position just after it. */
  datatype Decoded = Decoded(payload: seq<Byte>, end: nat)

  /**
   * One block after its `#`, read from position `i` of the stream: the
   * size count, the size field, the payload.
   */
  function ChunkAt(s: seq<Byte>, i: nat): (r: Result<Decoded>)
    ensures r.Ok? ==> i + |r.value.payload| < r.value.end <= |s|
  {
    if |s| <= i then Err(ShortRead)
    else match SizeOfSize(s[i])
      case None => Err("std::length_error")
      case Some(k) =>
        if |s| < i + 1 + k then Err(ShortRead)
        else match Stoull(s[i + 1..i + 1 + k])
          case None => Err("std::stoull")
          case Some(size) =>
            if |s| < i + 1 + k + size then Err(ShortRead)
            else Ok(Decoded(s[i + 1 + k..i + 1 + k + size], i + 1 + k + size))
  }

  /**
   * The synchronous reader from the marker at position `i`: blocks while
   * the marker is `#`, then the closing marker must be a line feed (the
   * reader's final assertion).
   */
  function SyncAt(s: seq<Byte>, i: nat): (r: Result<Decoded>)
    ensures r.Ok? ==> i < r.value.end <= |s| && s[r.value.end - 1] == '\n'
    decreases |s| - i
  {
    if |s| <= i then Err(ShortRead)
    else if s[i] == '#' then BlockAt(s, i + 1)
    else if s[i] == '\n' then Ok(Decoded([], i + 1))
    else Err("assertion prefix == '\\n'")
  }

  /** A block after its `#`, then everything from the next marker on. */
  function BlockAt(s: seq<Byte>, i: nat): (r: Result<Decoded>)
    ensures r.Ok? ==> i < r.value.end <= |s| && s[r.value.end - 1] == '\n'
    decreases |s| - i
  {
    match ChunkAt(s, i)
    case Err(e) => Err(e)
    case Ok(c) =>
      match SyncAt(s, c.end)
      case Err(e) => Err(e)
      case Ok(t) => Ok(Decoded(c.payload + t.payload, t.end))
  }

  /** What `read_binary` makes of a stream: the payload and how many bytes it consumed. */
  function SyncFrame(s: seq<Byte>): (r: Result<Decoded>)
    ensures r.Ok? ==> 0 < r.value.end <= |s| && s[r.value.end - 1] == '\n'
  {
    SyncAt(s, 0)
  }

  /** Each block adds to the payload exactly the byte count its size field announces. */
  lemma ChunkGrowsBySize(s: seq<Byte>, i: nat)
    requires ChunkAt(s, i).Ok?
    ensures i < |s| && SizeOfSize(s[i]).Some?
    ensures var k, c := SizeOfSize(s[i]).value, ChunkAt(s, i).value;
      i + 1 + k <= |s| && Stoull(s[i + 1..i + 1 + k]) == Some(|c.payload|) && c.end == i + 1 + k + |c.payload|
  {
  }

  // ---------------------------------------------------------------------------
  // The size field as written: `old_size + size` in `size_t`

  /**
   * The length `resize(old_size + size)` gives a buffer that holds `held`
   * bytes when the size field reads `size`: the sum wraps in `size_t`.
   */
  function ResizedLength(held: nat, size: nat): (n: nat)
    requires held < TWO64 && size < TWO64
    ensures n < TWO64
    ensures n == held + size || n + TWO64 == held + size
    ensures held + size < TWO64 ==> n == held + size
  {
    (held + size) % TWO64
  }

  /**
   * A size field of `-1` after a block of one byte: `stoull` gives 2^64 - 1,
   * the resize wraps to an empty buffer, and the socket read of 2^64 - 1
   * bytes starts at offset 1, past the end of the buffer.
   */
  lemma NegativeSizeWritesPast()
    ensures var s: seq<Byte> := "#11x#2-1\n";
      && ChunkAt(s, 1) == Ok(Decoded("x", 4))
      && s[4] == '#' && SizeOfSize(s[5]) == Some(2)
      && Stoull(s[6..8]) == Some(TWO64 - 1)
      && ResizedLength(1, TWO64 - 1) == 0 < 1
  {
    var s: seq<Byte> := "#11x#2-1\n";
    assert SizeOfSize(s[1]) == Some(1);
    assert ScanNumeral(s[2..3]) == Some(Numbers.Numeral(false, 1));
    assert s[3..4] == "x";
    assert ScanNumeral(s[6..8]) == Some(Numbers.Numeral(true, 1));
  }

  /** The model reads the same stream as a short read: it never holds 2^64 - 1 more bytes. */
  lemma NegativeSizeShortRead()
    ensures SyncFrame("#11x#2-1\n") == Err(ShortRead)
  {
    var s: seq<Byte> := "#11x#2-1\n";
    NegativeSizeWritesPast();
    assert ChunkAt(s, 5) == Err(ShortRead);
    assert SyncAt(s, 4) == Err(ShortRead);
  }

  // ---------------------------------------------------------------------------
  // Writing a reply

  function Pow10(k: nat): (p: nat)
    ensures p > 0
  {
    if k == 0 then 1 else 10 * Pow10(k - 1)
  }

  lemma {:induction false} NumeralLength(n: nat, k: nat)
    requires 0 < k && n < Pow10(k)
    ensures |NatToString(n)| <= k
  {
    if n >= 10 {
      assert k > 1;
      assert n / 10 < Pow10(k - 1);
      NumeralLength(n / 10, k - 1);
    }
  }

  lemma Pow10Of20()
    ensures Pow10(20) == 100_000_000_000_000_000_000
  {
    assert Pow10(10) == 10_000_000_000;
    assert Pow10(15) == 1_000_000_000_000_000;
  }

  /** The size-count character of a `k`-character size field: `SizeOfSize` reads `k` back. */
  function SizeCountChar(k: nat): (c: Byte)
    requires k < 80
    ensures SizeOfSize(c) == Some(k)
  {
    ('0' as int + k) as char
  }

  /** The decimal numeral of `n` as bytes. */
  function Numeral(n: nat): (d: seq<Byte>)
    ensures d == NatToString(n)
  {
    var s := NatToString(n);
    assert forall i | 0 <= i < |s| :: s[i] as int < 256;
    s
  }

  /** The instrument's blocks carry a one-digit size count. */
  predicate ChunkEncodable(c: seq<Byte>) { |c| < 1_000_000_000 }

  predicate AllEncodable(cs: seq<seq<Byte>>)
  {
    cs == [] || (ChunkEncodable(cs[0]) && AllEncodable(cs[1..]))
  }

  /** `#`, the length of the size field, the size field, the payload. */
  function EncodeChunk(c: seq<Byte>): (e: seq<Byte>)
    requires ChunkEncodable(c)
    ensures |e| == 2 + |NatToString(|c|)| + |c|
  {
    NumeralLength(|c|, 9);
    var d := Numeral(|c|);
    ['#', DigitChar(|d|) as Byte] + d + c
  }

  function EncodeChunks(cs: seq<seq<Byte>>): seq<Byte>
    requires AllEncodable(cs)
  {
    if cs == [] then [] else EncodeChunk(cs[0]) + EncodeChunks(cs[1..])
  }

  function EncodeFrame(cs: seq<seq<Byte>>): seq<Byte>
    requires AllEncodable(cs)
  {
    EncodeChunks(cs) + ['\n']
  }

  function Concat(cs: seq<seq<Byte>>): seq<Byte>
  {
    if cs == [] then [] else cs[0] + Concat(cs[1..])
  }

  // ---------------------------------------------------------------------------
  // Reading back what was written

  /** A window of the stream that holds `x` holds each piece of `x`. */
  lemma Within(s: seq<Byte>, i: nat, x: seq<Byte>, a: nat, b: nat)
    requires i + |x| <= |s| && s[i..i + |x|] == x && a <= b <= |x|
    ensures s[i + a..i + b] == x[a..b]
    ensures a < b ==> s[i + a] == x[a]
  {
    forall j | 0 <= j < b - a
      ensures s[i + a..i + b][j] == x[a..b][j]
    {
      assert s[i..i + |x|][a + j] == s[i + a + j];
    }
  }

  /** The pieces of an encoded block. */
  lemma ChunkPieces(c: seq<Byte>)
    requires ChunkEncodable(c)
    ensures var x, k := EncodeChunk(c), |NatToString(|c|)|;
      k < 10 && x[0] == '#' && x[1] == DigitChar(k) && x[2..2 + k] == Numeral(|c|) && x[2 + k..] == c
  {
    NumeralLength(|c|, 9);
    var d := Numeral(|c|);
    assert EncodeChunk(c) == ['#', DigitChar(|d|) as Byte] + d + c;
  }

  /** The fields of an encoded block found at position `i`. */
  lemma ChunkFields(s: seq<Byte>, i: nat, c: seq<Byte>)
    requires ChunkEncodable(c) && i + |EncodeChunk(c)| <= |s| && s[i..i + |EncodeChunk(c)|] == EncodeChunk(c)
    ensures var k := |NatToString(|c|)|;
      k < 10 && s[i] == '#' && s[i + 1] == DigitChar(k) && s[i + 2..i + 2 + k] == Numeral(|c|)
      && s[i + 2 + k..i + |EncodeChunk(c)|] == c
  {
    var x := EncodeChunk(c);
    var k := |NatToString(|c|)|;
    ChunkPieces(c);
    Within(s, i, x, 0, 2);
    Within(s, i, x, 2, 2 + k);
    Within(s, i, x, 2 + k, |x|);
  }

  /** `ChunkAt` on a block whose fields are known, without looking inside them. */
  lemma ChunkAtParts(s: seq<Byte>, i: nat, k: nat, payload: seq<Byte>, end: nat)
    requires i < |s| && SizeOfSize(s[i]).Some? && SizeOfSize(s[i]).value == k && end == i + 1 + k + |payload| <= |s|
    requires Stoull(s[i + 1..i + 1 + k]).Some? && Stoull(s[i + 1..i + 1 + k]).value == |payload|
    requires s[i + 1 + k..end] == payload
    ensures ChunkAt(s, i).Ok? && ChunkAt(s, i).value.payload == payload && ChunkAt(s, i).value.end == end
  {
  }

  lemma EncodedChunkAt(s: seq<Byte>, i: nat, c: seq<Byte>)
    requires ChunkEncodable(c) && i + |EncodeChunk(c)| <= |s| && s[i..i + |EncodeChunk(c)|] == EncodeChunk(c)
    ensures s[i] == '#' && ChunkAt(s, i + 1).Ok?
    ensures ChunkAt(s, i + 1).value.payload == c && ChunkAt(s, i + 1).value.end == i + |EncodeChunk(c)|
  {
    ChunkFields(s, i, c);
    FieldsChunkAt(s, i + 1, |NatToString(|c|)|, c, i + |EncodeChunk(c)|);
  }

  /** A size digit, a decimal count and that many bytes make a block. */
  lemma FieldsChunkAt(s: seq<Byte>, i: nat, k: nat, c: seq<Byte>, end: nat)
    requires k < 10 && ChunkEncodable(c) && end == i + 1 + k + |c| <= |s|
    requires s[i] == DigitChar(k) && s[i + 1..i + 1 + k] == Numeral(|c|) && s[i + 1 + k..end] == c
    ensures ChunkAt(s, i).Ok? && ChunkAt(s, i).value.payload == c && ChunkAt(s, i).value.end == end
  {
    StoullOfNatToString(|c|);
    ChunkAtParts(s, i, k, c, end);
  }

  lemma BlockStep(s: seq<Byte>, i: nat, p: seq<Byte>, e: nat)
    requires ChunkAt(s, i).Ok? && ChunkAt(s, i).value.payload == p && ChunkAt(s, i).value.end == e && SyncAt(s, e).Ok?
    ensures BlockAt(s, i).Ok? && BlockAt(s, i).value.payload == p + SyncAt(s, e).value.payload
    ensures BlockAt(s, i).value.end == SyncAt(s, e).value.end
  {
  }

  lemma MarkerStep(s: seq<Byte>, i: nat, d: Decoded)
    requires i < |s| && s[i] == '#' && BlockAt(s, i + 1) == Ok(d)
    ensures SyncAt(s, i) == Ok(d)
  {
  }

  /** From position `i` to position `j` the stream holds blocks carrying `cs`. */
  predicate BlocksAt(s: seq<Byte>, i: nat, cs: seq<seq<Byte>>, j: nat)
    decreases |cs|
  {
    if cs == [] then i == j
    else
      i < |s| && s[i] == '#' && ChunkAt(s, i + 1).Ok? && ChunkAt(s, i + 1).value.payload == cs[0]
      && BlocksAt(s, ChunkAt(s, i + 1).value.end, cs[1..], j)
  }

  /** A block in front of a well-formed reply adds its payload to it. */
  lemma ConsBlock(s: seq<Byte>, i: nat, c: Decoded, g: Decoded)
    requires i < |s| && s[i] == '#' && ChunkAt(s, i + 1) == Ok(c) && SyncAt(s, c.end) == Ok(g)
    ensures SyncAt(s, i) == Ok(Decoded(c.payload + g.payload, g.end))
  {
    BlockStep(s, i + 1, c.payload, c.end);
  }

  lemma ConcatCons(cs: seq<seq<Byte>>, p: seq<Byte>)
    requires cs != []
    ensures Concat(cs) + p == cs[0] + (Concat(cs[1..]) + p)
  {
    Associative(cs[0], Concat(cs[1..]), p);
  }

  /** Blocks in front of a well-formed reply add their payloads to it. */
  lemma {:induction false} BlocksThen(s: seq<Byte>, i: nat, cs: seq<seq<Byte>>, j: nat, f: Decoded)
    requires BlocksAt(s, i, cs, j) && SyncAt(s, j) == Ok(f)
    ensures SyncAt(s, i) == Ok(Decoded(Concat(cs) + f.payload, f.end))
    decreases |cs|
  {
    if cs == [] {
      assert Concat(cs) + f.payload == f.payload;
    } else {
      var c := ChunkAt(s, i + 1).value;
      BlocksThen(s, c.end, cs[1..], j, f);
      ConsBlock(s, i, c, Decoded(Concat(cs[1..]) + f.payload, f.end));
      ConcatCons(cs, f.payload);
    }
  }

  /** From position `i` to position `j` the stream holds the encodings of `cs`. */
  predicate ChunksAt(s: seq<Byte>, i: nat, cs: seq<seq<Byte>>, j: nat)
    decreases |cs|
  {
    if cs == [] then i == j
    else
      ChunkEncodable(cs[0]) && i + |EncodeChunk(cs[0])| <= |s|
      && s[i..i + |EncodeChunk(cs[0])|] == EncodeChunk(cs[0])
      && ChunksAt(s, i + |EncodeChunk(cs[0])|, cs[1..], j)
  }

  /** Encoded blocks written one after the other, wherever they sit in the stream, are found there in order. */
  lemma {:induction false} LayoutChunks(s: seq<Byte>, i: nat, cs: seq<seq<Byte>>)
    requires AllEncodable(cs) && i + |EncodeChunks(cs)| <= |s| && s[i..i + |EncodeChunks(cs)|] == EncodeChunks(cs)
    ensures ChunksAt(s, i, cs, i + |EncodeChunks(cs)|)
    decreases |cs|
  {
    if cs != [] {
      var x, y := EncodeChunk(cs[0]), EncodeChunks(cs[1..]);
      assert EncodeChunks(cs) == x + y;
      WithinBoth(s, i, x, y);
      LayoutChunks(s, i + |x|, cs[1..]);
    }
  }

  /** A window of the stream that holds `x + y` holds `x`, then `y`. */
  lemma WithinBoth(s: seq<Byte>, i: nat, x: seq<Byte>, y: seq<Byte>)
    requires i + |x + y| <= |s| && s[i..i + |x + y|] == x + y
    ensures s[i..i + |x|] == x && s[i + |x|..i + |x| + |y|] == y
  {
    Within(s, i, x + y, 0, |x|);
    Within(s, i, x + y, |x|, |x| + |y|);
    assert (x + y)[..|x|] == x && (x + y)[|x|..|x| + |y|] == y;
  }

  lemma {:induction false} EncodedBlocksAt(s: seq<Byte>, i: nat, cs: seq<seq<Byte>>, j: nat)
    requires ChunksAt(s, i, cs, j)
    ensures BlocksAt(s, i, cs, j)
    decreases |cs|
  {
    if cs != [] {
      var e := i + |EncodeChunk(cs[0])|;
      EncodedBlocksAt(s, e, cs[1..], j);
      EncodedChunkAt(s, i, cs[0]);
      BlocksCons(s, i, cs, e, j);
    }
  }

  /** A block in front of blocks carrying the rest of `cs`. */
  lemma BlocksCons(s: seq<Byte>, i: nat, cs: seq<seq<Byte>>, e: nat, j: nat)
    requires cs != [] && i < |s| && s[i] == '#' && ChunkAt(s, i + 1).Ok?
    requires ChunkAt(s, i + 1).value.payload == cs[0] && ChunkAt(s, i + 1).value.end == e
    requires BlocksAt(s, e, cs[1..], j)
    ensures BlocksAt(s, i, cs, j)
  {
  }

  /** Where the blocks and the closing line feed of an encoded reply sit. */
  lemma FrameLayout(cs: seq<seq<Byte>>, rest: seq<Byte>)
    requires AllEncodable(cs)
    ensures var s, j := EncodeFrame(cs) + rest, |EncodeChunks(cs)|;
      j < |s| && s[j] == '\n' && |EncodeFrame(cs)| == j + 1
  {
  }

  lemma NewlineAt(s: seq<Byte>, j: nat)
    requires j < |s| && s[j] == '\n'
    ensures SyncAt(s, j) == Ok(Decoded([], j + 1))
  {
  }

  /** Every reply the encoder writes is read back whole, whatever follows it. */
  lemma FrameEncoded(cs: seq<seq<Byte>>, rest: seq<Byte>)
    requires AllEncodable(cs)
    ensures var r := SyncFrame(EncodeFrame(cs) + rest); r.Ok? && r.value == Decoded(Concat(cs), |EncodeFrame(cs)|)
  {
    var s := EncodeFrame(cs) + rest;
    var j := |EncodeChunks(cs)|;
    FrameLayout(cs, rest);
    NewlineAt(s, j);
    assert s[0..j] == EncodeChunks(cs);
    LayoutChunks(s, 0, cs);
    EncodedBlocksAt(s, 0, cs, j);
    BlocksThen(s, 0, cs, j, Decoded([], j + 1));
    assert Concat(cs) + [] == Concat(cs);
  }

  /** A reply whose first marker is neither `#` nor a line feed is refused at once. */
  lemma BadMarkerRefused(s: seq<Byte>)
    requires |s| > 0 && s[0] != '#' && s[0] != '\n'
    ensures SyncFrame(s).Err?
  {
  }
}
