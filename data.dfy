/**
 * include/lmgd/network/data.hpp: `BinaryData`, an append-only byte buffer with a
 * sequential read cursor, and `BinaryList`, a view of typed elements inside it.
 *
 * The pure functions `IntIn`, `StringIn`, `IntListIn`, `FloatListIn` and
 * `StringListIn` say what each typed read finds in the unread bytes, and how many
 * it consumes (or `None` when the read's assertions would fail); the class's
 * methods are proved against them, and the encoders below show that everything
 * written in order is read back in order.
 */
module Data {
  import opened Wrappers
  import opened Numbers

  /** `time::Duration`: a signed count of nanoseconds. */
  datatype Duration = Duration(nanoseconds: int)

  /** `time::TimePoint` on the instrument clock: the duration since its epoch. */
  datatype TimePoint = TimePoint(sinceEpoch: Duration)

  /** `BinaryList<T>`: `size` elements starting at byte offset `begin` of the shared buffer. */
  datatype BinaryList = BinaryList(begin: nat, size: nat)

  /** A `float` is kept as the 4 bytes that hold it; arithmetic on it is not modelled. */
  type FloatBits = w: seq<Byte> | |w| == 4 witness ['\0', '\0', '\0', '\0']

  // ---------------------------------------------------------------------------
  // What the reads find in the unread bytes

  /** The assertions of `read(n)`, given the unread bytes: a positive count, no more than is left. */
  predicate CanTake(unread: seq<Byte>, n: int)
  {
    0 < n <= |unread|
  }

  /** The int64 elements of a `BinaryList<int64_t>` over `s`. */
  function IntItems(s: seq<Byte>, size: nat): (xs: seq<int>)
    requires size * 8 <= |s|
    ensures |xs| == size
    decreases size
  {
    if size == 0 then [] else [Int64Of(s[..8])] + IntItems(s[8..], size - 1)
  }

  /** The elements of a `BinaryList<float>` over `s`, as the bytes of each float. */
  function FloatItems(s: seq<Byte>, size: nat): (ws: seq<FloatBits>)
    requires size * 4 <= |s|
    ensures |ws| == size
    decreases size
  {
    if size == 0 then [] else [s[..4]] + FloatItems(s[4..], size - 1)
  }

  /** `read_int`: the int64 in the next 8 bytes. */
  function IntIn(s: seq<Byte>): (r: Option<(int, nat)>)
    ensures r.Some? <==> 8 <= |s|
    ensures r.Some? ==> r.value.1 == 8 && IsInt64(r.value.0)
  {
    if CanTake(s, 8) then Some((Int64Of(s[..8]), 8)) else None
  }

  /** `read_string` (read by its length; `CStringIn` is the text as written): a length, then that many bytes. */
  function StringIn(s: seq<Byte>): (r: Option<(seq<Byte>, nat)>)
    ensures r.Some? ==> 8 < r.value.1 <= |s| && r.value.1 == 8 + |r.value.0|
  {
    match IntIn(s)
    case None => None
    case Some((len, _)) => if CanTake(s[8..], len) then Some((s[8..8 + len], 8 + len)) else None
  }

  /** `read_int_list`: a count L, then L int64 elements (8 L bytes). */
  function IntListIn(s: seq<Byte>): (r: Option<(seq<int>, nat)>)
    ensures r.Some? ==> r.value.1 == 8 + 8 * |r.value.0| <= |s|
  {
    match IntIn(s)
    case None => None
    case Some((len, _)) => if CanTake(s[8..], len * 8) then Some((IntItems(s[8..], len), 8 + len * 8)) else None
  }

  /** `read_float_list`: a count L, then L floats (4 L bytes). */
  function FloatListIn(s: seq<Byte>): (r: Option<(seq<FloatBits>, nat)>)
    ensures r.Some? ==> r.value.1 == 8 + 4 * |r.value.0| <= |s|
  {
    match IntIn(s)
    case None => None
    case Some((len, _)) => if CanTake(s[8..], len * 4) then Some((FloatItems(s[8..], len), 8 + len * 4)) else None
  }

  /** `count` consecutive strings. */
  function StringsIn(s: seq<Byte>, count: nat): (r: Option<(seq<seq<Byte>>, nat)>)
    ensures r.Some? ==> |r.value.0| == count && r.value.1 <= |s|
    decreases count
  {
    if count == 0 then Some(([], 0))
    else match StringIn(s)
      case None => None
      case Some((x, n)) =>
        match StringsIn(s[n..], count - 1)
        case None => None
        case Some((xs, m)) => Some(([x] + xs, n + m))
  }

  /**
   * `read_string_list`: a count c, then c strings. A negative count becomes a huge
   * `size_t`, for which `list.reserve` throws (`Err`); `None` is an assertion failure.
   */
  function StringListIn(s: seq<Byte>): (r: Option<(Result<seq<seq<Byte>>>, nat)>)
    ensures r.Some? ==> 8 <= r.value.1 <= |s| && IntIn(s).Some?
    ensures r.Some? && r.value.0.Ok? ==> |r.value.0.value| == IntIn(s).value.0
    ensures r.Some? && r.value.0.Err? <==> IntIn(s).Some? && IntIn(s).value.0 < 0
  {
    match IntIn(s)
    case None => None
    case Some((count, _)) =>
      if count < 0 then Some((Err("vector::reserve"), 8))
      else match StringsIn(s[8..], count)
        case None => None
        case Some((xs, m)) => Some((Ok(xs), 8 + m))
  }

  /** A list read consumes its count and exactly the L elements the count announces. */
  lemma ListsHaveAnnouncedLength(s: seq<Byte>)
    ensures IntListIn(s).Some? ==> |IntListIn(s).value.0| == IntIn(s).value.0 > 0
    ensures FloatListIn(s).Some? ==> |FloatListIn(s).value.0| == IntIn(s).value.0 > 0
    ensures StringListIn(s).Some? && StringListIn(s).value.0.Ok? ==>
      |StringListIn(s).value.0.value| == IntIn(s).value.0
  {
  }

  /** A string or list whose length prefix is 0 (or negative) fails `read`'s `n > 0` assertion. */
  lemma EmptyLengthRejected(s: seq<Byte>)
    requires IntIn(s).Some? && IntIn(s).value.0 <= 0
    ensures StringIn(s) == None && IntListIn(s) == None && FloatListIn(s) == None
  {
  }

  /** The elements a view shows. */
  function ViewInts(buffer: seq<Byte>, list: BinaryList): seq<int>
    requires list.begin + 8 * list.size <= |buffer|
  {
    IntItems(buffer[list.begin..], list.size)
  }

  function ViewFloats(buffer: seq<Byte>, list: BinaryList): seq<FloatBits>
    requires list.begin + 4 * list.size <= |buffer|
  {
    FloatItems(buffer[list.begin..], list.size)
  }

  // ---------------------------------------------------------------------------
  // The buffer

  /** The bytes `append` adds before anyone writes them (`std::vector::resize` fills with NUL). */
  function Zeros(n: nat): (z: seq<Byte>)
    ensures |z| == n && forall i | 0 <= i < n :: z[i] == '\0'
  {
    if n == 0 then [] else Zeros(n - 1) + ['\0']
  }

  class BinaryData {
    var buffer: seq<Byte>
    var position: nat

    ghost predicate Valid()
      reads this
    {
      position <= |buffer|
    }

    /** The bytes not read yet. */
    function Unread(): seq<Byte>
      reads this
      requires Valid()
    {
      buffer[position..]
    }

    /** `BinaryData()`: empty, nothing read (the reserve hint changes neither). */
    constructor ()
      ensures Valid() && buffer == [] && position == 0
    {
      buffer := [];
      position := 0;
    }

    /**
     * `append(size)`: allowed only before any read; grows the buffer by `size`
     * zero bytes (`std::vector::resize`) and returns the offset of the new region.
     */
    method Append(size: nat) returns (region: nat)
      requires Valid() && position == 0
      modifies this
      ensures Valid() && position == 0
      ensures region == |old(buffer)|
      ensures buffer == old(buffer) + Zeros(size)
    {
      region := |buffer|;
      buffer := buffer + Zeros(size);
    }

    /** The bytes the caller writes through the pointer `append` returned, into the region it just appended. */
    method Fill(region: nat, bytes: seq<Byte>)
      requires Valid() && position == 0 && region + |bytes| == |buffer|
      modifies this
      ensures Valid() && position == 0
      ensures buffer == old(buffer)[..region] + bytes
    {
      buffer := buffer[..region] + bytes;
    }

    /** The private `read(size)`: the region at the cursor, and the cursor moved past it. */
    method Read(size: int) returns (start: nat)
      requires Valid() && CanTake(Unread(), size)
      modifies this
      ensures Valid() && buffer == old(buffer)
      ensures start == old(position) && position == old(position) + size
    {
      start := position;
      position := position + size;
    }

    method ReadInt() returns (x: int)
      requires Valid() && IntIn(Unread()).Some?
      modifies this
      ensures Valid() && buffer == old(buffer)
      ensures old(position) <= position
      ensures IntIn(old(Unread())) == Some((x, position - old(position)))
    {
      var start := Read(8);
      x := Int64Of(buffer[start..start + 8]);
      assert buffer[start..start + 8] == old(Unread())[..8];
    }

    /** `read_time`: the int64 read as nanoseconds. */
    method ReadTime() returns (d: Duration)
      requires Valid() && IntIn(Unread()).Some?
      modifies this
      ensures Valid() && buffer == old(buffer)
      ensures old(position) <= position
      ensures IntIn(old(Unread())) == Some((d.nanoseconds, position - old(position)))
    {
      var x := ReadInt();
      d := Duration(x);
    }

    /** `read_date`: the int64 read as nanoseconds since the instrument's epoch. */
    method ReadDate() returns (t: TimePoint)
      requires Valid() && IntIn(Unread()).Some?
      modifies this
      ensures Valid() && buffer == old(buffer)
      ensures old(position) <= position
      ensures IntIn(old(Unread())) == Some((t.sinceEpoch.nanoseconds, position - old(position)))
    {
      var x := ReadInt();
      t := TimePoint(Duration(x));
    }

    method ReadString() returns (s: seq<Byte>)
      requires Valid() && StringIn(Unread()).Some?
      modifies this
      ensures Valid() && buffer == old(buffer)
      ensures old(position) <= position
      ensures StringIn(old(Unread())) == Some((s, position - old(position)))
    {
      ghost var unread := Unread();
      var length := ReadInt();
      assert Unread() == unread[8..];
      var start := Read(length);
      s := buffer[start..start + length];
      assert s == unread[8..8 + length];
    }

    /** `read_int_list`: the view starts right after the count and ends at the new cursor. */
    method ReadIntList() returns (list: BinaryList)
      requires Valid() && IntListIn(Unread()).Some?
      modifies this
      ensures Valid() && buffer == old(buffer)
      ensures list.begin == old(position) + 8 && position == list.begin + 8 * list.size
      ensures IntListIn(old(Unread())) == Some((ViewInts(buffer, list), position - old(position)))
    {
      ghost var unread := Unread();
      var length := ReadInt();
      assert Unread() == unread[8..];
      var start := Read(length * 8);
      list := BinaryList(start, length);
      assert buffer[list.begin..] == unread[8..];
    }

    /** `read_float_list`: the view starts right after the count and ends at the new cursor. */
    method ReadFloatList() returns (list: BinaryList)
      requires Valid() && FloatListIn(Unread()).Some?
      modifies this
      ensures Valid() && buffer == old(buffer)
      ensures list.begin == old(position) + 8 && position == list.begin + 4 * list.size
      ensures FloatListIn(old(Unread())) == Some((ViewFloats(buffer, list), position - old(position)))
    {
      ghost var unread := Unread();
      var length := ReadInt();
      assert Unread() == unread[8..];
      var start := Read(length * 4);
      list := BinaryList(start, length);
      assert buffer[list.begin..] == unread[8..];
    }

    /** The loop of `read_string_list`: `count` strings, one after the other. */
    method ReadStrings(count: nat) returns (list: seq<seq<Byte>>)
      requires Valid() && StringsIn(Unread(), count).Some?
      modifies this
      ensures Valid() && buffer == old(buffer)
      ensures old(position) <= position
      ensures StringsIn(old(Unread()), count) == Some((list, position - old(position)))
    {
      ghost var all := StringsIn(Unread(), count).value;
      ghost var rem, remSize := all.0, all.1;
      list := [];
      while |list| < count
        invariant Valid() && buffer == old(buffer)
        invariant old(position) <= position && |list| <= count
        invariant StringsIn(Unread(), count - |list|) == Some((rem, remSize))
        invariant list + rem == all.0 && remSize + (position - old(position)) == all.1
        decreases count - |list|
      {
        ghost var here, at := Unread(), position;
        var s := ReadString();
        ghost var n := position - at;
        StringsInUncons(here, count - |list|, rem, remSize, s, n);
        assert Unread() == here[n..];
        assert rem == [s] + rem[1..];
        Associative(list, [s], rem[1..]);
        list, rem, remSize := list + [s], rem[1..], remSize - n;
      }
      assert list == all.0;
    }

    /** `read_string_list`: reads the count, then that many strings. */
    method ReadStringList() returns (r: Result<seq<seq<Byte>>>)
      requires Valid() && StringListIn(Unread()).Some?
      modifies this
      ensures Valid() && buffer == old(buffer)
      ensures old(position) <= position
      ensures StringListIn(old(Unread())) == Some((r, position - old(position)))
    {
      ghost var unread := Unread();
      var length := ReadInt();
      if length < 0 {
        return Err("vector::reserve");
      }
      assert Unread() == unread[8..];
      var list := ReadStrings(length);
      StringListInParts(unread, unread[8..], list, position - old(position) - 8);
      r := Ok(list);
    }
  }

  // ---------------------------------------------------------------------------
  // Writing what the reads expect, and reading it back

  function EncodeInts(xs: seq<int>): (e: seq<Byte>)
    requires forall i | 0 <= i < |xs| :: IsInt64(xs[i])
    ensures |e| == 8 * |xs|
  {
    if xs == [] then [] else Int64Bytes(xs[0]) + EncodeInts(xs[1..])
  }

  function EncodeFloats(ws: seq<FloatBits>): (e: seq<Byte>)
    ensures |e| == 4 * |ws|
  {
    if ws == [] then [] else ws[0] + EncodeFloats(ws[1..])
  }

  /** A string the length-prefixed form can carry: `read` rejects the empty one. */
  predicate Encodable(s: seq<Byte>) { 0 < |s| < TWO63 }

  /** A length-prefixed string (the length counts its bytes). */
  function EncodeString(s: seq<Byte>): (e: seq<Byte>)
    requires Encodable(s)
    ensures |e| == 8 + |s|
  {
    Int64Bytes(|s|) + s
  }

  function EncodeStrings(ss: seq<seq<Byte>>): seq<Byte>
    requires forall i | 0 <= i < |ss| :: Encodable(ss[i])
  {
    if ss == [] then [] else EncodeString(ss[0]) + EncodeStrings(ss[1..])
  }

  // Each read, taken one step at a time over bytes it knows nothing else about.

  lemma IntItemsPrepend(h: seq<Byte>, t: seq<Byte>, size: nat, xs: seq<int>)
    requires |h| == 8 && 0 < size && (size - 1) * 8 <= |t| && IntItems(t, size - 1) == xs
    ensures IntItems(h + t, size) == [Int64Of(h)] + xs
  {
    assert (h + t)[..8] == h && (h + t)[8..] == t;
  }

  lemma FloatItemsPrepend(h: FloatBits, t: seq<Byte>, size: nat, ws: seq<FloatBits>)
    requires 0 < size && (size - 1) * 4 <= |t| && FloatItems(t, size - 1) == ws
    ensures FloatItems(h + t, size) == [h] + ws
  {
    assert (h + t)[..4] == h && (h + t)[4..] == t;
  }

  lemma StringInParts(s: seq<Byte>, tail: seq<Byte>, x: seq<Byte>)
    requires IntIn(s) == Some((|x|, 8)) && s[8..] == tail && 0 < |x| <= |tail| && tail[..|x|] == x
    ensures StringIn(s) == Some((x, 8 + |x|))
  {
    assert s[8..8 + |x|] == tail[..|x|];
  }

  lemma StringsInPrepend(h: seq<Byte>, t: seq<Byte>, count: nat, x: seq<Byte>, xs: seq<seq<Byte>>, m: nat)
    requires 0 < count && StringIn(h + t) == Some((x, |h|)) && StringsIn(t, count - 1) == Some((xs, m))
    ensures StringsIn(h + t, count) == Some(([x] + xs, |h| + m))
  {
    assert (h + t)[|h|..] == t;
  }

  /** The first of `count` strings, and the `count - 1` after it. */
  lemma StringsInUncons(s: seq<Byte>, count: nat, xs: seq<seq<Byte>>, total: nat, x: seq<Byte>, n: nat)
    requires 0 < count && StringsIn(s, count) == Some((xs, total)) && StringIn(s) == Some((x, n))
    ensures xs[0] == x && n <= total
    ensures StringsIn(s[n..], count - 1) == Some((xs[1..], total - n))
  {
  }

  lemma IntListInParts(s: seq<Byte>, tail: seq<Byte>, xs: seq<int>)
    requires IntIn(s) == Some((|xs|, 8)) && s[8..] == tail && 0 < |xs| && 8 * |xs| <= |tail|
    requires IntItems(tail, |xs|) == xs
    ensures IntListIn(s) == Some((xs, 8 + 8 * |xs|))
  {
  }

  lemma FloatListInParts(s: seq<Byte>, tail: seq<Byte>, ws: seq<FloatBits>)
    requires IntIn(s) == Some((|ws|, 8)) && s[8..] == tail && 0 < |ws| && 4 * |ws| <= |tail|
    requires FloatItems(tail, |ws|) == ws
    ensures FloatListIn(s) == Some((ws, 8 + 4 * |ws|))
  {
  }

  lemma StringListInParts(s: seq<Byte>, tail: seq<Byte>, ss: seq<seq<Byte>>, m: nat)
    requires IntIn(s) == Some((|ss|, 8)) && s[8..] == tail && StringsIn(tail, |ss|) == Some((ss, m))
    ensures StringListIn(s) == Some((Ok(ss), 8 + m))
  {
  }

  // Reading back what was written.

  lemma IntInEncoded(x: int, rest: seq<Byte>)
    requires IsInt64(x)
    ensures IntIn(Int64Bytes(x) + rest) == Some((x, 8))
  {
    assert (Int64Bytes(x) + rest)[..8] == Int64Bytes(x);
    Int64RoundTrip(x);
  }

  lemma {:induction false} IntItemsOfEncoded(xs: seq<int>, rest: seq<Byte>)
    requires forall i | 0 <= i < |xs| :: IsInt64(xs[i])
    ensures IntItems(EncodeInts(xs) + rest, |xs|) == xs
    decreases |xs|
  {
    if xs != [] {
      var h, t := Int64Bytes(xs[0]), EncodeInts(xs[1..]) + rest;
      assert EncodeInts(xs) + rest == h + t;
      Int64RoundTrip(xs[0]);
      IntItemsOfEncoded(xs[1..], rest);
      IntItemsPrepend(h, t, |xs|, xs[1..]);
      assert [xs[0]] + xs[1..] == xs;
    }
  }

  lemma {:induction false} FloatItemsOfEncoded(ws: seq<FloatBits>, rest: seq<Byte>)
    ensures FloatItems(EncodeFloats(ws) + rest, |ws|) == ws
    decreases |ws|
  {
    if ws != [] {
      var t := EncodeFloats(ws[1..]) + rest;
      assert EncodeFloats(ws) + rest == ws[0] + t;
      FloatItemsOfEncoded(ws[1..], rest);
      FloatItemsPrepend(ws[0], t, |ws|, ws[1..]);
      assert [ws[0]] + ws[1..] == ws;
    }
  }

  lemma StringInEncoded(x: seq<Byte>, rest: seq<Byte>)
    requires Encodable(x)
    ensures StringIn(EncodeString(x) + rest) == Some((x, 8 + |x|))
  {
    var tail := x + rest;
    var s := EncodeString(x) + rest;
    assert s == Int64Bytes(|x|) + tail;
    assert IntIn(s) == Some((|x|, 8)) by { IntInEncoded(|x|, tail); }
    assert s[8..] == tail && tail[..|x|] == x;
    StringInParts(s, tail, x);
  }

  lemma {:induction false} StringsInEncoded(ss: seq<seq<Byte>>, rest: seq<Byte>)
    requires forall i | 0 <= i < |ss| :: Encodable(ss[i])
    ensures StringsIn(EncodeStrings(ss) + rest, |ss|) == Some((ss, |EncodeStrings(ss)|))
    decreases |ss|
  {
    if ss != [] {
      var h, e := EncodeString(ss[0]), EncodeStrings(ss[1..]);
      var t := e + rest;
      assert EncodeStrings(ss) == h + e;
      Associative(h, e, rest);
      StringInEncoded(ss[0], t);
      StringsInEncoded(ss[1..], rest);
      StringsInPrepend(h, t, |ss|, ss[0], ss[1..], |e|);
      assert [ss[0]] + ss[1..] == ss;
    }
  }

  lemma IntListInEncoded(xs: seq<int>, rest: seq<Byte>)
    requires 0 < |xs| < TWO63 && forall i | 0 <= i < |xs| :: IsInt64(xs[i])
    ensures IntListIn(Int64Bytes(|xs|) + (EncodeInts(xs) + rest)) == Some((xs, 8 + 8 * |xs|))
  {
    var tail := EncodeInts(xs) + rest;
    var s := Int64Bytes(|xs|) + tail;
    assert IntIn(s) == Some((|xs|, 8)) by { IntInEncoded(|xs|, tail); }
    assert s[8..] == tail;
    assert IntItems(tail, |xs|) == xs by { IntItemsOfEncoded(xs, rest); }
    IntListInParts(s, tail, xs);
  }

  lemma FloatListInEncoded(ws: seq<FloatBits>, rest: seq<Byte>)
    requires 0 < |ws| < TWO63
    ensures FloatListIn(Int64Bytes(|ws|) + (EncodeFloats(ws) + rest)) == Some((ws, 8 + 4 * |ws|))
  {
    var tail := EncodeFloats(ws) + rest;
    var s := Int64Bytes(|ws|) + tail;
    assert IntIn(s) == Some((|ws|, 8)) by { IntInEncoded(|ws|, tail); }
    assert s[8..] == tail;
    assert FloatItems(tail, |ws|) == ws by { FloatItemsOfEncoded(ws, rest); }
    FloatListInParts(s, tail, ws);
  }

  lemma StringListInEncoded(ss: seq<seq<Byte>>, rest: seq<Byte>)
    requires |ss| < TWO63 && forall i | 0 <= i < |ss| :: Encodable(ss[i])
    ensures StringListIn(Int64Bytes(|ss|) + (EncodeStrings(ss) + rest)) == Some((Ok(ss), 8 + |EncodeStrings(ss)|))
  {
    var tail := EncodeStrings(ss) + rest;
    var s := Int64Bytes(|ss|) + tail;
    assert IntIn(s) == Some((|ss|, 8)) by { IntInEncoded(|ss|, tail); }
    assert s[8..] == tail;
    assert StringsIn(tail, |ss|) == Some((ss, |EncodeStrings(ss)|)) by { StringsInEncoded(ss, rest); }
    StringListInParts(s, tail, ss, |EncodeStrings(ss)|);
  }

  // ---------------------------------------------------------------------------
  // `read` and `read_string` as written

  /**
   * `read(size)` as written: `size` is a `size_t`, so a negative int64 length (or
   * `length * sizeof(T)`) arrives reduced modulo 2^64, and `position_ + size <= size()`
   * is evaluated modulo 2^64 too. The new position when both assertions pass.
   */
  function WrappedRead(position: nat, size: int, bufferSize: nat): (r: Option<nat>)
    ensures r.Some? ==> r.value <= bufferSize
    ensures 0 < size && position + size <= bufferSize && position + size < TWO64 ==> r == Some(position + size)
  {
    var n := size % TWO64;
    if 0 < n && (position + n) % TWO64 <= bufferSize then Some((position + n) % TWO64) else None
  }

  /** Where both agree: for a length that is not negative and no wrap, the as-written read is `CanTake`. */
  lemma WrappedReadAgrees(buffer: seq<Byte>, position: nat, size: int)
    requires position <= |buffer| && 0 <= size && position + size < TWO64
    ensures WrappedRead(position, size, |buffer|).Some? <==> CanTake(buffer[position..], size)
    ensures CanTake(buffer[position..], size) ==> WrappedRead(position, size, |buffer|) == Some(position + size)
  {
  }

  /**
   * A buffer holding only the count -1: `read_int_list` reads it (cursor at 8), and the
   * as-written `read(-1 * 8)` passes both assertions and moves the cursor back to 0,
   * where the length-checked reading rejects the list.
   */
  lemma NegativeLengthRewinds()
    ensures IntIn(Int64Bytes(-1)) == Some((-1, 8))
    ensures WrappedRead(8, -1 * 8, 8) == Some(0)
    ensures IntListIn(Int64Bytes(-1)) == None
  {
    IntInEncoded(-1, []);
    assert Int64Bytes(-1) + [] == Int64Bytes(-1);
    EmptyLengthRejected(Int64Bytes(-1));
  }

  /**
   * A count of 2^61 + 1 followed by one int64: `read_int_list` asks for
   * `length * sizeof(int64_t)` bytes, a `size_t` product that wraps to 8, so the
   * as-written `read` passes both assertions and the view claims 2^61 + 1 items over
   * 8 bytes; the length-checked reading rejects the list. Floats wrap from 2^62 + 1.
   */
  lemma ListLengthWraps(item: seq<Byte>)
    requires |item| == 8
    ensures IntIn(Int64Bytes(0x2000_0000_0000_0001) + item) == Some((0x2000_0000_0000_0001, 8))
    ensures WrappedRead(8, 0x2000_0000_0000_0001 * 8, 16) == Some(16)
    ensures IntListIn(Int64Bytes(0x2000_0000_0000_0001) + item) == None
    ensures IntIn(Int64Bytes(0x4000_0000_0000_0001) + item[..4]) == Some((0x4000_0000_0000_0001, 8))
    ensures WrappedRead(8, 0x4000_0000_0000_0001 * 4, 12) == Some(12)
    ensures FloatListIn(Int64Bytes(0x4000_0000_0000_0001) + item[..4]) == None
  {
    IntInEncoded(0x2000_0000_0000_0001, item);
    IntInEncoded(0x4000_0000_0000_0001, item[..4]);
  }

  /**
   * `std::string(reinterpret_cast<char*>(read(length)))` as written, on the bytes from
   * the string's start on: those up to the first NUL, wherever it lies; `None` when none
   * is left in the buffer (the constructor then reads past the vector).
   */
  function CStringIn(s: seq<Byte>): (r: Option<seq<Byte>>)
    ensures r.None? <==> '\0' !in s
    ensures r.Some? ==> |r.value| < |s| && s[..|r.value|] == r.value && s[|r.value|] == '\0' && '\0' !in r.value
  {
    var i := IndexOf(s, '\0');
    if i == |s| then None else Some(s[..i])
  }

  /**
   * Wherever a string without NUL bytes is followed by a byte that is not NUL, the
   * as-written read does not return that string.
   */
  lemma CStringOverruns(s: seq<Byte>, x: seq<Byte>, n: nat)
    requires StringIn(s) == Some((x, n)) && '\0' !in x && n < |s| && s[n] != '\0'
    ensures CStringIn(s[8..]) != Some(x)
  {
    var t := s[8..];
    assert t[..|x|] == x;
    assert forall j | 0 <= j < |x| :: t[j] != '\0';
    assert t[|x|] != '\0';
  }

  /** Such bytes: the string "ab" followed by the byte 'c'. */
  lemma CStringOverrunWitness()
    ensures StringIn(EncodeString("ab") + "c") == Some(("ab", 10))
    ensures CStringIn((EncodeString("ab") + "c")[8..]) != Some("ab")
  {
    StringInEncoded("ab", "c");
    CStringOverruns(EncodeString("ab") + "c", "ab", 10);
  }
}
