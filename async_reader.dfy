/**
 * `AsyncBinaryLineReader`: the same binary reply format as `Frame`, read
 * as a chain of asynchronous reads. Each read is announced with the count
 * it expects; when it completes, its `Checker` checks the transfer and
 * calls the next handler, which issues the next read. `Step` is what one
 * completion does to the reader, `AsyncBinaryLineReader.Complete` does it
 * in place, and `RunFrame` feeds a byte stream through completions until
 * a reply is delivered or the reader fails.
 */
module AsyncReader {
  import opened Wrappers
  import opened Numbers
  import opened Frame
  import opened Data

  /** What the completion callback asks for once it has a reply. */
  datatype CallbackResult = Repeat | Cancel

  /** The read the reader has outstanding. */
  datatype Pending =
    | MarkerRead                            // one byte into `marker`
    | SizeSizeRead                          // one byte into `size_size_char`
    | SizeRead(count: nat)                  // the size field into `size_str`
    | DataRead(region: nat, count: nat)     // the payload into the buffer at `region`
    | Stopped                               // nothing outstanding

  /** The count each read announces to its `Checker`. */
  function Expected(p: Pending): nat
  {
    match p
    case MarkerRead => 1
    case SizeSizeRead => 1
    case SizeRead(k) => k
    case DataRead(_, n) => n
    case Stopped => 0
  }

  /** `Checker`: no error code, and the announced count arrived whenever one was announced. */
  predicate CheckerAccepts(failed: bool, expected: nat, transferred: nat): (ok: bool)
    ensures failed ==> !ok
    ensures 0 < expected != transferred ==> !ok
    ensures !failed && (expected == 0 || expected == transferred) ==> ok
  {
    !failed && (expected == 0 || expected == transferred)
  }

  /** What a completion leads to. */
  datatype Event = Continue | Delivered(frame: seq<Byte>) | Failed(fault: Fault)

  /** Why a run stops without a reply: a failed `Checker`, or what a handler throws. */
  datatype Fault =
    | ErrorCode                   // the read completed with an error code
    | CountMismatch               // fewer bytes than announced
    | InvalidMarker(value: int)   // a marker other than `#` and a line feed
    | LengthError                 // a size `std::string` or the buffer cannot take
    | StollError                  // the size field is not a number
    | PastBuffer                  // the buffer shrank and the payload read overruns it

  /** The exception text, or the assertion, behind each fault. */
  function Describe(f: Fault): string
  {
    match f
    case ErrorCode => "assertion !ec"
    case CountMismatch => "assertion bytes_expected == bytes_transferred"
    case InvalidMarker(v) => "Invalid marker in binary: " + IntToString(v)
    case LengthError => "std::length_error"
    case StollError => "std::stoll"
    case PastBuffer => "undefined behaviour: read past the buffer"
  }

  /** The reader's state: its members and the buffer of the reply in progress. */
  datatype Reader = Reader(pending: Pending, marker: Byte, sizeSizeChar: Byte, sizeStr: seq<Byte>, data: seq<Byte>)

  /** A payload read writes a region that ends the buffer. */
  predicate WellFormed(r: Reader)
  {
    r.pending.DataRead? ==> r.pending.region + r.pending.count == |r.data|
  }

  /** Reads that move nothing come before the reads that feed them. */
  function Rank(p: Pending): nat
  {
    match p
    case MarkerRead => 0
    case DataRead(_, _) => 1
    case SizeRead(_) => 2
    case SizeSizeRead => 3
    case Stopped => 0
  }

  /** `read_chunk`: dispatch on the marker byte. */
  function OnMarker(r: Reader, m: Byte, decide: CallbackResult): (o: (Reader, Event))
    ensures o.0.marker == m
    ensures o.1.Continue? <==> m == '#'
    ensures o.1.Continue? ==> o.0.pending == SizeSizeRead && o.0.data == r.data
    ensures o.1.Failed? <==> m != '#' && m != '\n'
    ensures o.1.Failed? ==> o.0.pending == Stopped && o.1.fault == InvalidMarker(SignedChar(m))
  {
    if m == '#' then (r.(marker := m, pending := SizeSizeRead), Continue)
    else if m == '\n' then
      if decide == Repeat then (r.(marker := m, pending := MarkerRead, data := []), Delivered(r.data))
      else (r.(marker := m, pending := Stopped), Delivered(r.data))
    else (r.(marker := m, pending := Stopped), Failed(InvalidMarker(SignedChar(m))))
  }

  /** `read_size`: `size_size_char - '0'` as a signed count; a negative one cannot size `size_str`. */
  function OnSizeSize(r: Reader, c: Byte): (o: (Reader, Event))
    ensures o.1.Continue? <==> SizeOfSize(c).Some?
    ensures o.1.Continue? ==> o.0.pending == SizeRead(SizeOfSize(c).value) && o.0.data == r.data
    ensures !o.1.Continue? ==> o.0.pending == Stopped && o.1 == Failed(LengthError)
  {
    var k := SignedChar(c) - '0' as int;
    if k < 0 then (r.(sizeSizeChar := c, pending := Stopped), Failed(LengthError))
    else (r.(sizeSizeChar := c, pending := SizeRead(k)), Continue)
  }

  /**
   * `read_data`: `std::stoll` of the size field, then `append` of that many
   * bytes. A negative size converts to a count near 2^64: the enlarged size
   * wraps below the current one (the following read then writes past the
   * buffer), or stays too large to allocate.
   */
  function OnSize(r: Reader, field: seq<Byte>): (o: (Reader, Event))
    ensures o.1.Continue? <==> Stoll(field).Some? && Stoll(field).value >= 0
    ensures o.1.Continue? ==>
      var n := Stoll(field).value;
      o.0.pending == DataRead(|r.data|, n) && |o.0.data| == |r.data| + n && o.0.data[..|r.data|] == r.data
    ensures !o.1.Continue? ==> o.0.pending == Stopped && o.1.Failed?
  {
    var r1 := r.(sizeStr := field);
    match Stoll(field)
    case None => (r1.(pending := Stopped), Failed(StollError))
    case Some(n) =>
      if n < 0 && |r.data| + n < 0 then (r1.(pending := Stopped), Failed(LengthError))
      else if n < 0 then (r1.(pending := Stopped), Failed(PastBuffer))
      else (r1.(data := r.data + Zeros(n), pending := DataRead(|r.data|, n)), Continue)
  }

  /** `read_marker` after the payload lands in its region. */
  function OnData(r: Reader, region: nat, bytes: seq<Byte>): (o: (Reader, Event))
    requires region <= |r.data|
    ensures o.1.Continue? && o.0.pending == MarkerRead
    ensures |o.0.data| == region + |bytes| && o.0.data[..region] == r.data[..region] && o.0.data[region..] == bytes
  {
    (r.(data := r.data[..region] + bytes, pending := MarkerRead), Continue)
  }

  /** A completion the `Checker` refuses: an error code, or fewer bytes than announced. */
  function Refused(r: Reader, failed: bool): (Reader, Event)
  {
    (r.(pending := Stopped), Failed(if failed then ErrorCode else CountMismatch))
  }

  /** The handler of the outstanding read, once its `Checker` accepts the `bytes` transferred. */
  function Dispatch(r: Reader, bytes: seq<Byte>, decide: CallbackResult): (o: (Reader, Event))
    requires WellFormed(r) && r.pending != Stopped && |bytes| == Expected(r.pending)
    ensures o.1.Continue? ==> WellFormed(o.0) && o.0.pending != Stopped
    ensures o.1.Continue? ==> 0 < |bytes| || Rank(o.0.pending) < Rank(r.pending)
    ensures !o.1.Continue? ==> o.0.pending.Stopped? || (o.1.Delivered? && o.0.pending == MarkerRead && o.0.data == [])
    ensures o.1.Delivered? <==> r.pending == MarkerRead && bytes[0] == '\n'
    ensures o.1.Delivered? ==> o.1.frame == r.data
    ensures o.1.Delivered? && decide == Repeat ==> o.0.pending == MarkerRead && o.0.data == []
    ensures o.1.Delivered? && decide == Cancel ==> o.0.pending == Stopped
  {
    match r.pending
    case MarkerRead => OnMarker(r, bytes[0], decide)
    case SizeSizeRead => OnSizeSize(r, bytes[0])
    case SizeRead(_) => OnSize(r, bytes)
    case DataRead(region, _) => OnData(r, region, bytes)
  }

  /** One completion of the outstanding read, with `bytes` transferred. */
  function Step(r: Reader, failed: bool, bytes: seq<Byte>, decide: CallbackResult): (o: (Reader, Event))
    requires WellFormed(r) && r.pending != Stopped && |bytes| <= Expected(r.pending)
    ensures o.1.Continue? ==> |bytes| == Expected(r.pending)
    ensures o.1.Continue? ==> WellFormed(o.0) && o.0.pending != Stopped
    ensures o.1.Continue? ==> 0 < |bytes| || Rank(o.0.pending) < Rank(r.pending)
    ensures !o.1.Continue? ==> o.0.pending.Stopped? || (o.1.Delivered? && o.0.pending == MarkerRead && o.0.data == [])
    ensures o.1.Delivered? <==> !failed && r.pending == MarkerRead && |bytes| == 1 && bytes[0] == '\n'
    ensures o.1.Delivered? ==> o.1.frame == r.data
    ensures o.1.Delivered? && decide == Repeat ==> o.0.pending == MarkerRead && o.0.data == []
    ensures o.1.Delivered? && decide == Cancel ==> o.0.pending == Stopped
  {
    if CheckerAccepts(failed, Expected(r.pending), |bytes|) then Dispatch(r, bytes, decide) else Refused(r, failed)
  }

  /** How a run of completions ends: the reader, the last event, the stream position reached. */
  datatype Run = Run(reader: Reader, event: Event, end: nat)

  /**
   * Completes the outstanding read with what the stream holds from
   * position `i`, and keeps going while the handlers continue. A stream
   * shorter than a read completes it with an error code (end of file).
   */
  function RunFrame(r: Reader, s: seq<Byte>, i: nat, decide: CallbackResult): (o: Run)
    requires WellFormed(r) && r.pending != Stopped && i <= |s|
    ensures i <= o.end <= |s| && !o.event.Continue?
    decreases |s| - i, Rank(r.pending), 2
  {
    var short := |s| < i + Expected(r.pending);
    Completion(r, s, i, short, if short then s[i..] else s[i..i + Expected(r.pending)], decide)
  }

  /** The completion of the outstanding read with `bytes`: its `Checker`, then its handler. */
  function Completion(r: Reader, s: seq<Byte>, i: nat, failed: bool, bytes: seq<Byte>, decide: CallbackResult): (o: Run)
    requires WellFormed(r) && r.pending != Stopped && |bytes| <= Expected(r.pending) && i + |bytes| <= |s|
    ensures i <= o.end <= |s| && !o.event.Continue?
    decreases |s| - i, Rank(r.pending), 1
  {
    if CheckerAccepts(failed, Expected(r.pending), |bytes|) then Handled(r, s, i, bytes, decide)
    else Run(Refused(r, failed).0, Refused(r, failed).1, i + |bytes|)
  }

  /** The handler of an accepted completion, and the reads it issues after it. */
  function Handled(r: Reader, s: seq<Byte>, i: nat, bytes: seq<Byte>, decide: CallbackResult): (o: Run)
    requires WellFormed(r) && r.pending != Stopped && |bytes| == Expected(r.pending) && i + |bytes| <= |s|
    ensures i <= o.end <= |s| && !o.event.Continue?
    decreases |s| - i, Rank(r.pending), 0
  {
    var o := Dispatch(r, bytes, decide);
    if o.1.Continue? then RunFrame(o.0, s, i + |bytes|, decide) else Run(o.0, o.1, i + |bytes|)
  }

  /** A run is a sequence of `Step`s: each completion is what `Step` does, and the run goes on while it continues. */
  lemma CompletionIsStep(r: Reader, s: seq<Byte>, i: nat, failed: bool, bytes: seq<Byte>, d: CallbackResult)
    requires WellFormed(r) && r.pending != Stopped && |bytes| <= Expected(r.pending) && i + |bytes| <= |s|
    ensures var o := Step(r, failed, bytes, d);
      Completion(r, s, i, failed, bytes, d) ==
        if o.1.Continue? then RunFrame(o.0, s, i + |bytes|, d) else Run(o.0, o.1, i + |bytes|)
  {
  }

  /** The reader right after `read()`. */
  function Started(marker: Byte, sizeSizeChar: Byte, sizeStr: seq<Byte>): Reader
  {
    Reader(MarkerRead, marker, sizeSizeChar, sizeStr, [])
  }

  // ---------------------------------------------------------------------------
  // One completion at a time

  lemma RunShort(r: Reader, s: seq<Byte>, i: nat, d: CallbackResult)
    requires WellFormed(r) && r.pending != Stopped && i <= |s| < i + Expected(r.pending)
    ensures RunFrame(r, s, i, d).event.Failed?
  {
  }

  lemma RunBadMarker(r: Reader, s: seq<Byte>, i: nat, d: CallbackResult)
    requires WellFormed(r) && r.pending == MarkerRead && i < |s| && s[i] != '#' && s[i] != '\n'
    ensures RunFrame(r, s, i, d).event.Failed?
  {
    assert s[i..i + 1][0] == s[i];
    assert Handled(r, s, i, s[i..i + 1], d).event.Failed?;
  }

  lemma RunNewline(r: Reader, s: seq<Byte>, i: nat, d: CallbackResult)
    requires WellFormed(r) && r.pending == MarkerRead && i < |s| && s[i] == '\n'
    ensures RunFrame(r, s, i, d).event == Delivered(r.data) && RunFrame(r, s, i, d).end == i + 1
    ensures RunFrame(r, s, i, d).reader.pending == (if d == Repeat then MarkerRead else Stopped)
    ensures d == Repeat ==> RunFrame(r, s, i, d).reader.data == []
  {
    assert s[i..i + 1][0] == s[i];
    var h := Handled(r, s, i, s[i..i + 1], d);
    assert h.event == Delivered(r.data) && h.end == i + 1;
  }

  lemma RunHash(r: Reader, s: seq<Byte>, i: nat, d: CallbackResult)
    requires WellFormed(r) && r.pending == MarkerRead && i < |s| && s[i] == '#'
    ensures RunFrame(r, s, i, d) == RunFrame(r.(marker := '#', pending := SizeSizeRead), s, i + 1, d)
  {
    assert s[i..i + 1][0] == s[i];
    assert Handled(r, s, i, s[i..i + 1], d) == RunFrame(r.(marker := '#', pending := SizeSizeRead), s, i + 1, d);
  }

  lemma RunBadSizeSize(r: Reader, s: seq<Byte>, i: nat, d: CallbackResult)
    requires WellFormed(r) && r.pending == SizeSizeRead && i < |s| && SizeOfSize(s[i]).None?
    ensures RunFrame(r, s, i, d).event.Failed?
  {
    assert s[i..i + 1][0] == s[i];
    assert Handled(r, s, i, s[i..i + 1], d).event.Failed?;
  }

  lemma RunSizeSize(r: Reader, s: seq<Byte>, i: nat, d: CallbackResult, k: nat)
    requires WellFormed(r) && r.pending == SizeSizeRead && i < |s| && SizeOfSize(s[i]) == Some(k)
    ensures RunFrame(r, s, i, d) == RunFrame(r.(sizeSizeChar := s[i], pending := SizeRead(k)), s, i + 1, d)
  {
    assert s[i..i + 1][0] == s[i];
    assert Handled(r, s, i, s[i..i + 1], d) == RunFrame(r.(sizeSizeChar := s[i], pending := SizeRead(k)), s, i + 1, d);
  }

  lemma RunBadSize(r: Reader, s: seq<Byte>, i: nat, d: CallbackResult, k: nat)
    requires WellFormed(r) && r.pending == SizeRead(k) && i + k <= |s|
    requires Stoll(s[i..i + k]).None? || Stoll(s[i..i + k]).value < 0
    ensures SizeFailed(RunFrame(r, s, i, d))
  {
    assert SizeFailed(Handled(r, s, i, s[i..i + k], d));
  }

  lemma RunSize(r: Reader, s: seq<Byte>, i: nat, d: CallbackResult, k: nat, n: nat)
    requires WellFormed(r) && r.pending == SizeRead(k) && i + k <= |s| && Stoll(s[i..i + k]) == Some(n)
    ensures RunFrame(r, s, i, d) ==
      RunFrame(r.(sizeStr := s[i..i + k], data := r.data + Zeros(n), pending := DataRead(|r.data|, n)), s, i + k, d)
  {
    assert Handled(r, s, i, s[i..i + k], d) ==
      RunFrame(r.(sizeStr := s[i..i + k], data := r.data + Zeros(n), pending := DataRead(|r.data|, n)), s, i + k, d);
  }

  lemma RunData(r: Reader, s: seq<Byte>, i: nat, d: CallbackResult, region: nat, n: nat)
    requires WellFormed(r) && r.pending == DataRead(region, n) && i + n <= |s|
    ensures RunFrame(r, s, i, d) == RunFrame(r.(data := r.data[..region] + s[i..i + n], pending := MarkerRead), s, i + n, d)
  {
    assert Handled(r, s, i, s[i..i + n], d) == RunFrame(r.(data := r.data[..region] + s[i..i + n], pending := MarkerRead), s, i + n, d);
  }

  // ---------------------------------------------------------------------------
  // The asynchronous reader delivers what the synchronous one returns

  /** A run that reads what `r` holds and then the stream from `i` delivers, if it delivers at all, `data` and the payload `sync` reads, at its end. */
  predicate AgreesAs(o: Run, data: seq<Byte>, sync: Result<Decoded>)
  {
    o.event.Delivered? ==>
      sync.Ok? && o.event.frame == data + sync.value.payload && sync.value.end == o.end
  }

  /** Whenever a run from a marker read delivers a reply, `SyncAt` reads the same payload from the same bytes. */
  predicate AgreesFromMarker(r: Reader, s: seq<Byte>, i: nat, d: CallbackResult)
    requires WellFormed(r) && r.pending != Stopped && i <= |s|
  {
    AgreesAs(RunFrame(r, s, i, d), r.data, SyncAt(s, i))
  }

  /** The same after a `#`, against `BlockAt`. */
  predicate AgreesInBlock(r: Reader, s: seq<Byte>, i: nat, d: CallbackResult)
    requires WellFormed(r) && r.pending != Stopped && i <= |s|
  {
    AgreesAs(RunFrame(r, s, i, d), r.data, BlockAt(s, i))
  }

  lemma {:induction false} AsyncAgreesWithSync(r: Reader, s: seq<Byte>, i: nat, d: CallbackResult)
    requires WellFormed(r) && r.pending == MarkerRead && i <= |s|
    ensures AgreesFromMarker(r, s, i, d)
    decreases |s| - i, 1
  {
    if |s| == i {
      RunShort(r, s, i, d);
    } else if s[i] == '\n' {
      RunNewline(r, s, i, d);
      assert r.data + [] == r.data;
    } else if s[i] == '#' {
      RunHash(r, s, i, d);
      BlockAgrees(r.(marker := '#', pending := SizeSizeRead), s, i + 1, d);
    } else {
      RunBadMarker(r, s, i, d);
    }
  }

  lemma {:induction false} BlockAgrees(r: Reader, s: seq<Byte>, i: nat, d: CallbackResult)
    requires WellFormed(r) && r.pending == SizeSizeRead && i <= |s|
    ensures AgreesInBlock(r, s, i, d)
    decreases |s| - i, 1
  {
    if |s| == i {
      RunShort(r, s, i, d);
    } else if SizeOfSize(s[i]).None? {
      RunBadSizeSize(r, s, i, d);
    } else {
      var k := SizeOfSize(s[i]).value;
      if |s| < i + 1 + k || Stoll(s[i + 1..i + 1 + k]).None? || Stoll(s[i + 1..i + 1 + k]).value < 0
        || |s| < i + 1 + k + Stoll(s[i + 1..i + 1 + k]).value
      {
        BlockFails(r, s, i, d, k);
      } else {
        BlockCompletes(r, s, i, d, k, Stoll(s[i + 1..i + 1 + k]).value);
      }
    }
  }

  /** A block whose size field is missing, unreadable, negative or longer than the stream. */
  lemma BlockFails(r: Reader, s: seq<Byte>, i: nat, d: CallbackResult, k: nat)
    requires WellFormed(r) && r.pending == SizeSizeRead && i < |s| && SizeOfSize(s[i]) == Some(k)
    requires |s| < i + 1 + k || Stoll(s[i + 1..i + 1 + k]).None? || Stoll(s[i + 1..i + 1 + k]).value < 0
      || |s| < i + 1 + k + Stoll(s[i + 1..i + 1 + k]).value
    ensures RunFrame(r, s, i, d).event.Failed?
  {
    var r2 := r.(sizeSizeChar := s[i], pending := SizeRead(k));
    RunSizeSize(r, s, i, d, k);
    if |s| < i + 1 + k {
      RunShort(r2, s, i + 1, d);
    } else if Stoll(s[i + 1..i + 1 + k]).None? || Stoll(s[i + 1..i + 1 + k]).value < 0 {
      RunBadSize(r2, s, i + 1, d, k);
    } else {
      ShortPayload(r2, s, i + 1, d, k, Stoll(s[i + 1..i + 1 + k]).value);
    }
  }

  /** A size field that asks for more bytes than the stream still holds. */
  lemma ShortPayload(r: Reader, s: seq<Byte>, i: nat, d: CallbackResult, k: nat, n: nat)
    requires WellFormed(r) && r.pending == SizeRead(k) && i + k <= |s| && Stoll(s[i..i + k]) == Some(n)
    requires |s| < i + k + n
    ensures RunFrame(r, s, i, d).event.Failed?
  {
    RunSize(r, s, i, d, k, n);
    RunShort(r.(sizeStr := s[i..i + k], data := r.data + Zeros(n), pending := DataRead(|r.data|, n)), s, i + k, d);
  }

  /** The reader after the last two reads of a block. */
  function AfterBlock(r: Reader, s: seq<Byte>, i: nat, k: nat, n: nat): Reader
    requires i < |s| && i + 1 + k + n <= |s|
  {
    r.(sizeSizeChar := s[i], sizeStr := s[i + 1..i + 1 + k], data := r.data + s[i + 1 + k..i + 1 + k + n], pending := MarkerRead)
  }

  /** The size and payload reads of a well-formed block. */
  lemma RunBlock(r: Reader, s: seq<Byte>, i: nat, d: CallbackResult, k: nat, n: nat)
    requires WellFormed(r) && r.pending == SizeSizeRead && i < |s| && SizeOfSize(s[i]) == Some(k)
    requires i + 1 + k + n <= |s| && Stoll(s[i + 1..i + 1 + k]) == Some(n)
    ensures RunFrame(r, s, i, d) == RunFrame(AfterBlock(r, s, i, k, n), s, i + 1 + k + n, d)
  {
    var r2 := r.(sizeSizeChar := s[i], pending := SizeRead(k));
    RunSizeSize(r, s, i, d, k);
    RunSizedBlock(r2, s, i + 1, d, k, n);
    FilledBlock(r, s, i, k, n);
  }

  /** The size read and the payload read of a block: the payload overwrites the region the size read appended. */
  lemma RunSizedBlock(r: Reader, s: seq<Byte>, i: nat, d: CallbackResult, k: nat, n: nat)
    requires WellFormed(r) && r.pending == SizeRead(k) && i + k + n <= |s| && Stoll(s[i..i + k]) == Some(n)
    ensures var r3 := r.(sizeStr := s[i..i + k], data := r.data + Zeros(n), pending := DataRead(|r.data|, n));
      RunFrame(r, s, i, d) == RunFrame(r3.(data := r3.data[..|r.data|] + s[i + k..i + k + n], pending := MarkerRead), s, i + k + n, d)
  {
    RunSize(r, s, i, d, k, n);
    RunData(r.(sizeStr := s[i..i + k], data := r.data + Zeros(n), pending := DataRead(|r.data|, n)), s, i + k, d, |r.data|, n);
  }

  /** The reader after the payload read is the one `AfterBlock` describes. */
  lemma FilledBlock(r: Reader, s: seq<Byte>, i: nat, k: nat, n: nat)
    requires i < |s| && i + 1 + k + n <= |s|
    ensures var r3 := r.(sizeSizeChar := s[i], sizeStr := s[i + 1..i + 1 + k], data := r.data + Zeros(n), pending := DataRead(|r.data|, n));
      r3.(data := r3.data[..|r.data|] + s[i + 1 + k..i + 1 + k + n], pending := MarkerRead) == AfterBlock(r, s, i, k, n)
  {
    assert (r.data + Zeros(n))[..|r.data|] == r.data;
  }

  /** The block `BlockAt` reads when the size field parses. */
  lemma SyncBlock(s: seq<Byte>, i: nat, k: nat, n: nat)
    requires i < |s| && SizeOfSize(s[i]) == Some(k) && i + 1 + k + n <= |s| && Stoll(s[i + 1..i + 1 + k]) == Some(n)
    ensures ChunkAt(s, i).Ok? && ChunkAt(s, i).value.payload == s[i + 1 + k..i + 1 + k + n]
    ensures ChunkAt(s, i).value.end == i + 1 + k + n
  {
    StoullOfStoll(s[i + 1..i + 1 + k], n);
    ChunkAtParts(s, i, k, s[i + 1 + k..i + 1 + k + n], i + 1 + k + n);
  }

  /** The last two reads of a block, and the reply after it. */
  lemma {:induction false} BlockCompletes(r: Reader, s: seq<Byte>, i: nat, d: CallbackResult, k: nat, n: nat)
    requires WellFormed(r) && r.pending == SizeSizeRead && i < |s| && SizeOfSize(s[i]) == Some(k)
    requires i + 1 + k + n <= |s| && Stoll(s[i + 1..i + 1 + k]) == Some(n)
    ensures AgreesInBlock(r, s, i, d)
    decreases |s| - i, 0
  {
    var j := i + 1 + k + n;
    var r4 := AfterBlock(r, s, i, k, n);
    RunBlock(r, s, i, d, k, n);
    AsyncAgreesWithSync(r4, s, j, d);
    SyncBlock(s, i, k, n);
    BlockThenAgrees(s, i, s[i + 1 + k..j], j, r.data, r4.data, RunFrame(r4, s, j, d));
  }

  /** A run that delivers a block's payload and then what `SyncAt` reads after it delivers what `BlockAt` reads. */
  lemma BlockThenAgrees(s: seq<Byte>, i: nat, p: seq<Byte>, j: nat, data: seq<Byte>, held: seq<Byte>, o: Run)
    requires ChunkAt(s, i).Ok? && ChunkAt(s, i).value.payload == p && ChunkAt(s, i).value.end == j
    requires held == data + p && AgreesAs(o, held, SyncAt(s, j))
    ensures AgreesAs(o, data, BlockAt(s, i))
  {
    if o.event.Delivered? {
      BlockDelivered(s, i, p, j, data, o.event.frame, o.end);
    }
  }

  /** A frame that continues a block's payload with the reply after it is that block's reply. */
  lemma BlockDelivered(s: seq<Byte>, i: nat, p: seq<Byte>, j: nat, data: seq<Byte>, frame: seq<Byte>, end: nat)
    requires ChunkAt(s, i).Ok? && ChunkAt(s, i).value.payload == p && ChunkAt(s, i).value.end == j
    requires SyncAt(s, j).Ok? && frame == (data + p) + SyncAt(s, j).value.payload && SyncAt(s, j).value.end == end
    ensures BlockAt(s, i).Ok? && frame == data + BlockAt(s, i).value.payload && BlockAt(s, i).value.end == end
  {
    BlockStep(s, i, p, j);
    Associative(data, p, SyncAt(s, j).value.payload);
  }

  /** What the asynchronous reader delivers after `read()` is what `read_binary` returns, and both stop at the same byte. */
  lemma AsyncMatchesSync(r: Reader, s: seq<Byte>, d: CallbackResult)
    requires r.pending == MarkerRead && r.data == []
    ensures RunFrame(r, s, 0, d).event.Delivered? ==>
      SyncFrame(s) == Ok(Decoded(RunFrame(r, s, 0, d).event.frame, RunFrame(r, s, 0, d).end))
  {
    AsyncAgreesWithSync(r, s, 0, d);
    if RunFrame(r, s, 0, d).event.Delivered? {
      assert [] + SyncAt(s, 0).value.payload == SyncAt(s, 0).value.payload;
    }
  }

  /** The faults of a size field that `std::stoll` refuses or reads as negative. */
  predicate SizeFault(f: Fault)
  {
    f == StollError || f == LengthError || f == PastBuffer
  }

  /** A run that ends on a size field the asynchronous reader cannot use. */
  predicate SizeFailed(o: Run)
  {
    o.event.Failed? && SizeFault(o.event.fault)
  }

  /** A run that reads what `r` holds and then the stream from `i` delivers `r.data` and the payload `sync` reads, at its end, or fails on a size field. */
  predicate DeliversAs(o: Run, data: seq<Byte>, sync: Result<Decoded>)
  {
    sync.Ok? ==>
      SizeFailed(o) || (o.event.Delivered? && o.event.frame == data + sync.value.payload && o.end == sync.value.end)
  }

  /** Whenever `SyncAt` reads a reply, a run from a marker read delivers the same payload at the same end, or fails on a size field. */
  predicate DeliversFromMarker(r: Reader, s: seq<Byte>, i: nat, d: CallbackResult)
    requires WellFormed(r) && r.pending != Stopped && i <= |s|
  {
    DeliversAs(RunFrame(r, s, i, d), r.data, SyncAt(s, i))
  }

  /** The same after a `#`, against `BlockAt`. */
  predicate DeliversInBlock(r: Reader, s: seq<Byte>, i: nat, d: CallbackResult)
    requires WellFormed(r) && r.pending != Stopped && i <= |s|
  {
    DeliversAs(RunFrame(r, s, i, d), r.data, BlockAt(s, i))
  }

  lemma {:induction false} SyncDeliversAsync(r: Reader, s: seq<Byte>, i: nat, d: CallbackResult)
    requires WellFormed(r) && r.pending == MarkerRead && i <= |s|
    ensures DeliversFromMarker(r, s, i, d)
    decreases |s| - i, 1
  {
    if i < |s| && s[i] == '\n' {
      RunNewline(r, s, i, d);
      assert r.data + [] == r.data;
    } else if i < |s| && s[i] == '#' {
      RunHash(r, s, i, d);
      BlockDeliversAsync(r.(marker := '#', pending := SizeSizeRead), s, i + 1, d);
    }
  }

  lemma {:induction false} BlockDeliversAsync(r: Reader, s: seq<Byte>, i: nat, d: CallbackResult)
    requires WellFormed(r) && r.pending == SizeSizeRead && i <= |s|
    ensures DeliversInBlock(r, s, i, d)
    decreases |s| - i, 1
  {
    if i == |s| || SizeOfSize(s[i]).None? || |s| < i + 1 + SizeOfSize(s[i]).value {
      assert ChunkAt(s, i).Err?;
    } else {
      var k := SizeOfSize(s[i]).value;
      var field := s[i + 1..i + 1 + k];
      if Stoll(field).None? || Stoll(field).value < 0 {
        RunSizeSize(r, s, i, d, k);
        RunBadSize(r.(sizeSizeChar := s[i], pending := SizeRead(k)), s, i + 1, d, k);
      } else {
        var n := Stoll(field).value;
        StoullOfStoll(field, n);
        if i + 1 + k + n <= |s| {
          BlockDelivers(r, s, i, d, k, n);
          RunBlock(r, s, i, d, k, n);
        } else {
          assert ChunkAt(s, i).Err?;
        }
      }
    }
  }

  /** A block whose size `std::stoll` reads, and the reply after it, from the reader after the block. */
  lemma {:induction false} BlockDelivers(r: Reader, s: seq<Byte>, i: nat, d: CallbackResult, k: nat, n: nat)
    requires WellFormed(r) && r.pending == SizeSizeRead && i < |s| && SizeOfSize(s[i]) == Some(k)
    requires i + 1 + k + n <= |s| && Stoll(s[i + 1..i + 1 + k]) == Some(n)
    ensures DeliversAs(RunFrame(AfterBlock(r, s, i, k, n), s, i + 1 + k + n, d), r.data, BlockAt(s, i))
    decreases |s| - i, 0
  {
    var j := i + 1 + k + n;
    var p := s[i + 1 + k..j];
    var r4 := AfterBlock(r, s, i, k, n);
    SyncDeliversAsync(r4, s, j, d);
    SyncBlock(s, i, k, n);
    BlockThenDelivers(s, i, p, j, r.data, r4.data, RunFrame(r4, s, j, d));
  }

  /** A run that delivers a block's payload and then what `SyncAt` reads after it delivers what `BlockAt` reads. */
  lemma BlockThenDelivers(s: seq<Byte>, i: nat, p: seq<Byte>, j: nat, data: seq<Byte>, held: seq<Byte>, o: Run)
    requires ChunkAt(s, i).Ok? && ChunkAt(s, i).value.payload == p && ChunkAt(s, i).value.end == j
    requires held == data + p && DeliversAs(o, held, SyncAt(s, j))
    ensures DeliversAs(o, data, BlockAt(s, i))
  {
    if SyncAt(s, j).Ok? && !SizeFailed(o) {
      BlockDelivered(s, i, p, j, data, o.event.frame, o.end);
    }
  }

  /**
   * Whenever `read_binary` reads a reply, the asynchronous reader started
   * by `read()` delivers the same payload and stops at the same byte,
   * unless it fails on a size field: `std::stoll` refuses some fields that
   * `std::stoull` reads (see `SignedSizeDiverges`).
   */
  lemma SyncMatchesAsync(r: Reader, s: seq<Byte>, d: CallbackResult)
    requires r.pending == MarkerRead && r.data == []
    ensures var o := RunFrame(r, s, 0, d);
      SyncFrame(s).Ok? ==>
        SizeFailed(o) || (o.event == Delivered(SyncFrame(s).value.payload) && o.end == SyncFrame(s).value.end)
  {
    SyncDeliversAsync(r, s, 0, d);
    if SyncFrame(s).Ok? {
      assert [] + SyncFrame(s).value.payload == SyncFrame(s).value.payload;
    }
  }

  /** The size field "-18446744073709551615": `std::stoull` negates it modulo 2^64 to 1, `std::stoll` finds it out of range. */
  function WrappedSize(): (f: seq<Byte>)
    ensures 1 < |f| <= 21 && f[0] == '-'
    ensures Stoull(f) == Some(1) && Stoll(f).None?
  {
    Pow10Of20();
    NumeralLength(TWO64 - 1, 20);
    ScanNegative(TWO64 - 1);
    "-" + Frame.Numeral(TWO64 - 1)
  }

  /** A reply of one block, with size field `f` and payload `p`, then the closing line feed. */
  function BlockReply(f: seq<Byte>, p: seq<Byte>): (s: seq<Byte>)
    requires |f| < 80
    ensures |s| == |f| + |p| + 3 && s[0] == '#' && SizeOfSize(s[1]) == Some(|f|) && s[|s| - 1] == '\n'
    ensures s[2..2 + |f|] == f && s[2 + |f|..2 + |f| + |p|] == p
  {
    var head: seq<Byte> := ['#', SizeCountChar(|f|)];
    var tail: seq<Byte> := ['\n'];
    assert (head + f + p + tail)[2..2 + |f|] == f;
    assert (head + f + p + tail)[2 + |f|..2 + |f| + |p|] == p;
    head + f + p + tail
  }

  /**
   * A reply whose block size only `std::stoull` reads: `read_binary`
   * returns its one-byte payload, while the asynchronous reader fails
   * on the size field.
   */
  lemma SignedSizeDiverges(d: CallbackResult)
    ensures var s := BlockReply(WrappedSize(), ['x']);
      SyncFrame(s).Ok? && SyncFrame(s).value == Decoded(['x'], |s|)
      && RunFrame(Started('\0', '\0', []), s, 0, d).event == Failed(StollError)
  {
    var f := WrappedSize();
    UnsignedSizeSync(f, ['x']);
    SignedSizeAsync(f, ['x'], d);
  }

  /** `read_binary` reads a one-block reply whose size field `std::stoull` takes as the payload's length. */
  lemma UnsignedSizeSync(f: seq<Byte>, p: seq<Byte>)
    requires |f| < 80 && Stoull(f) == Some(|p|)
    ensures var s := BlockReply(f, p); SyncFrame(s).Ok? && SyncFrame(s).value == Decoded(p, |s|)
  {
    var k := |f|;
    var s := BlockReply(f, p);
    ChunkAtParts(s, 1, k, p, 2 + k + |p|);
    NewlineAt(s, 2 + k + |p|);
    BlockStep(s, 1, p, 2 + k + |p|);
    assert p + [] == p;
  }

  /** The asynchronous reader fails on a one-block reply whose size field `std::stoll` refuses. */
  lemma SignedSizeAsync(f: seq<Byte>, p: seq<Byte>, d: CallbackResult)
    requires |f| < 80 && Stoll(f).None?
    ensures RunFrame(Started('\0', '\0', []), BlockReply(f, p), 0, d).event == Failed(StollError)
  {
    var k := |f|;
    var s := BlockReply(f, p);
    var r := Started('\0', '\0', []).(marker := '#', pending := SizeSizeRead);
    RunHash(Started('\0', '\0', []), s, 0, d);
    RunSizeSize(r, s, 1, d, k);
    var r2 := r.(sizeSizeChar := s[1], pending := SizeRead(k));
    RunBadSize(r2, s, 2, d, k);
    assert Handled(r2, s, 2, s[2..2 + k], d).event == Failed(StollError);
  }

  // ---------------------------------------------------------------------------
  // The asynchronous reader delivers every encoded reply

  /** The reader after one encoded block: its payload appended, the next marker read outstanding. */
  function AfterChunk(r: Reader, c: seq<Byte>): Reader
    requires ChunkEncodable(c)
  {
    NumeralLength(|c|, 9);
    var field := Frame.Numeral(|c|);
    r.(marker := '#', sizeSizeChar := DigitChar(|field|) as Byte, sizeStr := field, data := r.data + c, pending := MarkerRead)
  }

  function AfterChunks(r: Reader, cs: seq<seq<Byte>>): (r': Reader)
    requires AllEncodable(cs)
    ensures cs != [] ==> r'.pending == MarkerRead
    ensures cs == [] ==> r' == r
    decreases |cs|
  {
    if cs == [] then r else AfterChunks(AfterChunk(r, cs[0]), cs[1..])
  }

  lemma {:induction false} AfterChunksData(r: Reader, cs: seq<seq<Byte>>)
    requires AllEncodable(cs)
    ensures AfterChunks(r, cs).data == r.data + Concat(cs)
    decreases |cs|
  {
    if cs == [] {
      assert r.data + Concat(cs) == r.data;
    } else {
      AfterChunksData(AfterChunk(r, cs[0]), cs[1..]);
      Associative(r.data, cs[0], Concat(cs[1..]));
    }
  }

  lemma RunChunk(r: Reader, s: seq<Byte>, i: nat, c: seq<Byte>, d: CallbackResult)
    requires WellFormed(r) && r.pending == MarkerRead && ChunkEncodable(c)
    requires i + |EncodeChunk(c)| <= |s| && s[i..i + |EncodeChunk(c)|] == EncodeChunk(c)
    ensures RunFrame(r, s, i, d) == RunFrame(AfterChunk(r, c), s, i + |EncodeChunk(c)|, d)
  {
    var k := |NatToString(|c|)|;
    ChunkFields(s, i, c);
    assert Stoll(s[i + 2..i + 2 + k]) == Some(|c|) by { StollOfIntToString(|c|); }
    RunMarkedBlock(r, s, i, d, k, |c|);
    ChunkReader(r, s, i, c);
  }

  /** A marker followed by a well-formed block. */
  lemma RunMarkedBlock(r: Reader, s: seq<Byte>, i: nat, d: CallbackResult, k: nat, n: nat)
    requires WellFormed(r) && r.pending == MarkerRead && i + 1 < |s| && s[i] == '#' && SizeOfSize(s[i + 1]) == Some(k)
    requires i + 2 + k + n <= |s| && Stoll(s[i + 2..i + 2 + k]) == Some(n)
    ensures RunFrame(r, s, i, d) == RunFrame(AfterBlock(r.(marker := '#', pending := SizeSizeRead), s, i + 1, k, n), s, i + 2 + k + n, d)
  {
    RunHash(r, s, i, d);
    RunBlock(r.(marker := '#', pending := SizeSizeRead), s, i + 1, d, k, n);
  }

  /** The reader a block leaves behind is the one `AfterChunk` describes. */
  lemma ChunkReader(r: Reader, s: seq<Byte>, i: nat, c: seq<Byte>)
    requires ChunkEncodable(c) && i + |EncodeChunk(c)| <= |s| && s[i..i + |EncodeChunk(c)|] == EncodeChunk(c)
    ensures var k := |NatToString(|c|)|;
      i + 2 + k + |c| == i + |EncodeChunk(c)|
      && AfterBlock(r.(marker := '#', pending := SizeSizeRead), s, i + 1, k, |c|) == AfterChunk(r, c)
  {
    ChunkFields(s, i, c);
    var k := |NatToString(|c|)|;
    assert s[i + 1] == DigitChar(|Frame.Numeral(|c|)|) as Byte;
    assert s[i + 2 + k..i + 2 + k + |c|] == c;
  }

  lemma {:induction false} RunChunks(r: Reader, s: seq<Byte>, i: nat, cs: seq<seq<Byte>>, j: nat, d: CallbackResult)
    requires WellFormed(r) && r.pending == MarkerRead && ChunksAt(s, i, cs, j) && j <= |s|
    ensures AllEncodable(cs) && RunFrame(r, s, i, d) == RunFrame(AfterChunks(r, cs), s, j, d)
    decreases |cs|
  {
    if cs != [] {
      RunChunk(r, s, i, cs[0], d);
      RunChunks(AfterChunk(r, cs[0]), s, i + |EncodeChunk(cs[0])|, cs[1..], j, d);
    }
  }

  /**
   * An encoded reply, wherever it sits in the stream, is delivered whole
   * after what the reader already holds, nothing after it is read, and the
   * reader is left as the callback asks: waiting for the next marker with
   * an empty buffer on `Repeat`, stopped on `Cancel`.
   */
  lemma AsyncFrameAt(r: Reader, s: seq<Byte>, i: nat, cs: seq<seq<Byte>>, d: CallbackResult)
    requires WellFormed(r) && r.pending == MarkerRead && AllEncodable(cs)
    requires i + |EncodeFrame(cs)| <= |s| && s[i..i + |EncodeFrame(cs)|] == EncodeFrame(cs)
    ensures RunFrame(r, s, i, d).event == Delivered(r.data + Concat(cs))
    ensures RunFrame(r, s, i, d).end == i + |EncodeFrame(cs)|
    ensures RunFrame(r, s, i, d).reader.pending == (if d == Repeat then MarkerRead else Stopped)
    ensures d == Repeat ==> RunFrame(r, s, i, d).reader.data == []
  {
    var j := i + |EncodeChunks(cs)|;
    var r2 := AfterChunks(r, cs);
    WithinBoth(s, i, EncodeChunks(cs), ['\n']);
    assert s[j] == s[j..j + 1][0] == '\n';
    LayoutChunks(s, i, cs);
    RunChunks(r, s, i, cs, j, d);
    AfterChunksData(r, cs);
    assert WellFormed(r2) && r2.pending == MarkerRead;
    RunNewline(r2, s, j, d);
  }

  /** After `read()`, an encoded reply is delivered whole and nothing after it is read. */
  lemma AsyncFrameEncoded(r: Reader, cs: seq<seq<Byte>>, rest: seq<Byte>, d: CallbackResult)
    requires r.pending == MarkerRead && r.data == [] && AllEncodable(cs)
    ensures RunFrame(r, EncodeFrame(cs) + rest, 0, d).event == Delivered(Concat(cs))
    ensures RunFrame(r, EncodeFrame(cs) + rest, 0, d).end == |EncodeFrame(cs)|
  {
    var s := EncodeFrame(cs) + rest;
    assert s[0..|EncodeFrame(cs)|] == EncodeFrame(cs);
    AsyncFrameAt(r, s, 0, cs, d);
    assert [] + Concat(cs) == Concat(cs);
  }

  /**
   * With `Repeat`, two replies in a row are delivered one after the other:
   * the second run starts where the first ended, and its frame holds the
   * second reply's payload and nothing of the first.
   */
  lemma AsyncFramesInTurn(r: Reader, cs1: seq<seq<Byte>>, cs2: seq<seq<Byte>>, rest: seq<Byte>, d: CallbackResult)
    requires r.pending == MarkerRead && r.data == [] && AllEncodable(cs1) && AllEncodable(cs2)
    ensures var s, o1 := EncodeFrame(cs1) + EncodeFrame(cs2) + rest, RunFrame(r, EncodeFrame(cs1) + EncodeFrame(cs2) + rest, 0, Repeat);
      o1.event == Delivered(Concat(cs1)) && o1.end == |EncodeFrame(cs1)|
      && o1.reader.pending == MarkerRead && o1.reader.data == []
      && RunFrame(o1.reader, s, o1.end, d).event == Delivered(Concat(cs2))
      && RunFrame(o1.reader, s, o1.end, d).end == |EncodeFrame(cs1)| + |EncodeFrame(cs2)|
  {
    var f1, f2 := EncodeFrame(cs1), EncodeFrame(cs2);
    var s := f1 + f2 + rest;
    assert s[0..|f1|] == f1;
    assert s[|f1|..|f1| + |f2|] == f2;
    AsyncFrameAt(r, s, 0, cs1, Repeat);
    assert [] + Concat(cs1) == Concat(cs1);
    var o1 := RunFrame(r, s, 0, Repeat);
    AsyncFrameAt(o1.reader, s, |f1|, cs2, d);
    assert [] + Concat(cs2) == Concat(cs2);
  }

  // ---------------------------------------------------------------------------
  // The reader as an object

  class AsyncBinaryLineReader {
    var data: BinaryData
    var marker: Byte
    var sizeSizeChar: Byte
    var sizeStr: seq<Byte>
    var pending: Pending

    ghost predicate Valid()
      reads this, data
    {
      data.Valid() && data.position == 0 && WellFormed(State())
    }

    function State(): Reader
      reads this, data
    {
      Reader(pending, marker, sizeSizeChar, sizeStr, data.buffer)
    }

    /** A reader with no read outstanding. */
    constructor ()
      ensures Valid() && pending == Stopped && data.buffer == [] && sizeStr == []
    {
      data := new BinaryData();
      marker, sizeSizeChar := '\0', '\0';
      sizeStr := [];
      pending := Stopped;
    }

    /** `read()`: a new, empty buffer, and a one-byte read of the first marker. */
    method Read()
      modifies this
      ensures Valid() && fresh(data)
      ensures State() == Started(old(marker), old(sizeSizeChar), old(sizeStr))
    {
      data := new BinaryData();
      pending := MarkerRead;
    }

    /** The outstanding read completes: its `Checker`, then its handler. */
    method Complete(failed: bool, bytes: seq<Byte>, decide: CallbackResult) returns (e: Event)
      requires Valid() && pending != Stopped && |bytes| <= Expected(pending)
      modifies this, data
      ensures Valid()
      ensures (State(), e) == Step(old(State()), failed, bytes, decide)
    {
      if !CheckerAccepts(failed, Expected(pending), |bytes|) {
        pending := Stopped;
        e := Failed(if failed then ErrorCode else CountMismatch);
        return;
      }
      match pending {
        case MarkerRead =>
          marker := bytes[0];
          if marker == '#' {
            pending := SizeSizeRead;
            e := Continue;
          } else if marker == '\n' {
            e := Delivered(data.buffer);
            if decide == Repeat {
              Read();
            } else {
              pending := Stopped;
            }
          } else {
            pending := Stopped;
            e := Failed(InvalidMarker(SignedChar(marker)));
          }
        case SizeSizeRead =>
          sizeSizeChar := bytes[0];
          var k := SignedChar(sizeSizeChar) - '0' as int;
          if k < 0 {
            pending := Stopped;
            e := Failed(LengthError);
          } else {
            pending := SizeRead(k);
            e := Continue;
          }
        case SizeRead(_) =>
          sizeStr := bytes;
          var size := Stoll(sizeStr);
          if size.None? {
            pending := Stopped;
            e := Failed(StollError);
          } else if size.value < 0 && |data.buffer| + size.value < 0 {
            pending := Stopped;
            e := Failed(LengthError);
          } else if size.value < 0 {
            pending := Stopped;
            e := Failed(PastBuffer);
          } else {
            var region := data.Append(size.value);
            pending := DataRead(region, size.value);
            e := Continue;
          }
        case DataRead(region, _) =>
          data.Fill(region, bytes);
          pending := MarkerRead;
          e := Continue;
      }
    }
  }
}
