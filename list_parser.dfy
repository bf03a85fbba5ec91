/**
 * include/lmgd/parser/list.hpp: `parse_list<T>` reads an int64 element
 * count at offset 0 and returns that many `T`s stored from offset 8 on;
 * `parse<T>` returns the `T` at offset 0. Neither touches its input, and
 * neither checks the count against the data: a count (negative counts
 * become huge `size_t`s) that runs past the data is `None` here.
 */
module ListParser {
  import opened Wrappers
  import opened Numbers
  import opened Data

  /** The element count as `parse_list` sees it: the int64 at offset 0, converted to `size_t`. */
  function ListCount(data: seq<Byte>): nat
    requires 8 <= |data|
  {
    Int64Of(data[..8]) % TWO64
  }

  /** `parse_list<int64_t>`. */
  function ParseIntList(data: seq<Byte>): (r: Option<seq<int>>)
    ensures r.Some? ==> 8 <= |data| && |r.value| == ListCount(data) && 8 + 8 * |r.value| <= |data|
  {
    if |data| < 8 || |data| < 8 + 8 * ListCount(data) then None
    else Some(IntItems(data[8..], ListCount(data)))
  }

  /** `parse_list<float>`, each float kept as its 4 bytes. */
  function ParseFloatList(data: seq<Byte>): (r: Option<seq<FloatBits>>)
    ensures r.Some? ==> 8 <= |data| && |r.value| == ListCount(data) && 8 + 4 * |r.value| <= |data|
  {
    if |data| < 8 || |data| < 8 + 4 * ListCount(data) then None
    else Some(FloatItems(data[8..], ListCount(data)))
  }

  /** `parse<int64_t>`: the int64 at offset 0. */
  function ParseInt(data: seq<Byte>): (r: Option<int>)
    ensures r.Some? <==> 8 <= |data|
    ensures r.Some? ==> IsInt64(r.value) && Int64Bytes(r.value) == data[..8]
  {
    if |data| < 8 then None
    else
      Int64BytesOf(data[..8]);
      Some(Int64Of(data[..8]))
  }

  /** `parse<float>`: the 4 bytes at offset 0. */
  function ParseFloat(data: seq<Byte>): (r: Option<FloatBits>)
    ensures r.Some? <==> 4 <= |data|
    ensures r.Some? ==> r.value == data[..4]
  {
    if |data| < 4 then None else Some(data[..4])
  }

  /** Element `i` of an int64 list is the int64 stored `8 i` bytes after the list's start. */
  lemma {:induction false} IntItemAt(s: seq<Byte>, size: nat, i: nat)
    requires size * 8 <= |s| && i < size
    ensures IntItems(s, size)[i] == Int64Of(s[8 * i..8 * i + 8])
    decreases i
  {
    if i > 0 {
      IntItemAt(s[8..], size - 1, i - 1);
      SliceOfSuffix(s, 8, 8 * (i - 1), 8 * (i - 1) + 8);
      assert 8 + 8 * (i - 1) == 8 * i;
    }
  }

  /** Element `i` of a float list is the 4 bytes stored `4 i` bytes after the list's start. */
  lemma {:induction false} FloatItemAt(s: seq<Byte>, size: nat, i: nat)
    requires size * 4 <= |s| && i < size
    ensures FloatItems(s, size)[i] == s[4 * i..4 * i + 4]
    decreases i
  {
    if i > 0 {
      FloatItemAt(s[4..], size - 1, i - 1);
      SliceOfSuffix(s, 4, 4 * (i - 1), 4 * (i - 1) + 4);
      assert 4 + 4 * (i - 1) == 4 * i;
    }
  }

  /** Element `i` of `parse_list<int64_t>` is the int64 at byte offset 8 + 8 i. */
  lemma ParsedIntAt(data: seq<Byte>, i: nat)
    requires ParseIntList(data).Some? && i < |ParseIntList(data).value|
    ensures ParseIntList(data).value[i] == Int64Of(data[8 + 8 * i..16 + 8 * i])
  {
    IntItemAt(data[8..], ListCount(data), i);
    assert data[8..][8 * i..8 * i + 8] == data[8 + 8 * i..16 + 8 * i];
  }

  /** Element `i` of `parse_list<float>` is the float at byte offset 8 + 4 i. */
  lemma ParsedFloatAt(data: seq<Byte>, i: nat)
    requires ParseFloatList(data).Some? && i < |ParseFloatList(data).value|
    ensures ParseFloatList(data).value[i] == data[8 + 4 * i..12 + 4 * i]
  {
    FloatItemAt(data[8..], ListCount(data), i);
    assert data[8..][4 * i..4 * i + 4] == data[8 + 4 * i..12 + 4 * i];
  }

  /** The count `parse_list` finds in front of a list written with `n` elements. */
  lemma CountOfEncoded(n: nat, tail: seq<Byte>)
    requires n < TWO63
    ensures ListCount(Int64Bytes(n) + tail) == n
    ensures IntIn(Int64Bytes(n) + tail) == Some((n, 8))
    ensures (Int64Bytes(n) + tail)[8..] == tail
  {
    IntInEncoded(n, tail);
    assert (Int64Bytes(n) + tail)[..8] == Int64Bytes(n);
    assert (Int64Bytes(n) + tail)[8..] == tail;
  }

  /** For a count that is not negative, `parse_list` reads it as it stands. */
  lemma CountAsRead(data: seq<Byte>)
    requires 8 <= |data|
    ensures IntIn(data) == Some((Int64Of(data[..8]), 8))
    ensures Int64Of(data[..8]) >= 0 ==> ListCount(data) == Int64Of(data[..8])
    ensures Int64Of(data[..8]) < 0 ==> ListCount(data) >= TWO63
  {
  }

  /**
   * `parse_list` and `BinaryData::read_int_list` see the same list in any
   * buffer that fits in memory; the buffer's reader also refuses a count
   * of 0, which `parse_list` accepts.
   */
  lemma ParseIntListMatchesReader(data: seq<Byte>)
    requires |data| < TWO63
    ensures IntListIn(data).Some? <==> ParseIntList(data).Some? && |ParseIntList(data).value| > 0
    ensures IntListIn(data).Some? ==> IntListIn(data).value.0 == ParseIntList(data).value
  {
    if 8 <= |data| {
      CountAsRead(data);
    }
  }

  lemma ParseFloatListMatchesReader(data: seq<Byte>)
    requires |data| < TWO63
    ensures FloatListIn(data).Some? <==> ParseFloatList(data).Some? && |ParseFloatList(data).value| > 0
    ensures FloatListIn(data).Some? ==> FloatListIn(data).value.0 == ParseFloatList(data).value
  {
    if 8 <= |data| {
      CountAsRead(data);
    }
  }

  /** A count followed by its elements parses back to those elements, whatever follows them. */
  lemma ParseIntListEncoded(xs: seq<int>, rest: seq<Byte>)
    requires |xs| < TWO63 && forall i | 0 <= i < |xs| :: IsInt64(xs[i])
    ensures ParseIntList(Int64Bytes(|xs|) + (EncodeInts(xs) + rest)) == Some(xs)
  {
    var tail := EncodeInts(xs) + rest;
    CountOfEncoded(|xs|, tail);
    IntItemsOfEncoded(xs, rest);
  }

  lemma ParseFloatListEncoded(ws: seq<FloatBits>, rest: seq<Byte>)
    requires |ws| < TWO63
    ensures ParseFloatList(Int64Bytes(|ws|) + (EncodeFloats(ws) + rest)) == Some(ws)
  {
    var tail := EncodeFloats(ws) + rest;
    CountOfEncoded(|ws|, tail);
    FloatItemsOfEncoded(ws, rest);
  }

  /** A negative count is a `size_t` far beyond any buffer: the list runs past the data. */
  lemma NegativeCountOverruns(data: seq<Byte>)
    requires 8 <= |data| < TWO63 && Int64Of(data[..8]) < 0
    ensures ParseIntList(data) == None && ParseFloatList(data) == None
  {
  }
}
