/**
 * The pieces of the C++ standard library whose exact behaviour the driver's wire
 * handling depends on: bytes, `std::to_string`, `std::stoll`/`std::stoull`/`std::stoi`,
 * the fields of a `std::getline` loop, and the little-endian int64 image that
 * `reinterpret_cast<int64_t*>` reads on the x86-64 hosts the driver runs on.
 */
module Numbers {
  import opened Wrappers

  /** A C++ `char` / `std::byte`: a character code below 256. */
  type Byte = c: char | c as int < 256 witness '\0'

  const TWO31: int := 0x8000_0000
  const TWO63: int := 0x8000_0000_0000_0000
  const TWO64: int := 0x1_0000_0000_0000_0000

  predicate IsInt64(x: int) { -TWO63 <= x < TWO63 }

  predicate IsInt32(x: int) { -TWO31 <= x < TWO31 }

  // ---------------------------------------------------------------------------
  // Decimal digits and std::to_string

  predicate IsDigit(c: char) { '0' <= c <= '9' }

  predicate AllDigits(s: string) { forall i | 0 <= i < |s| :: IsDigit(s[i]) }

  function DigitChar(d: nat): (c: char)
    requires d < 10
    ensures IsDigit(c) && c as int - '0' as int == d
  {
    ('0' as int + d) as char
  }

  /** The value of a digit character (0 for any other character). */
  function DigitValue(c: char): (d: nat)
    ensures IsDigit(c) ==> d == c as int - '0' as int
  {
    if IsDigit(c) then c as int - '0' as int else 0
  }

  /** The value of the digits `s[j..e]`, most significant digit first. */
  function RangeValue(s: string, j: nat, e: nat): nat
    requires j <= e <= |s|
    decreases e
  {
    if e == j then 0 else RangeValue(s, j, e - 1) * 10 + DigitValue(s[e - 1])
  }

  /** The value of a string of decimal digits. */
  function DigitsValue(s: string): nat
  {
    RangeValue(s, 0, |s|)
  }

  /** The value of a range depends only on the characters in it. */
  lemma {:induction false} RangeValueShift(p: string, s: string, q: string, e: nat)
    requires e <= |s|
    ensures RangeValue(p + s + q, |p|, |p| + e) == RangeValue(s, 0, e)
  {
    if e > 0 {
      RangeValueShift(p, s, q, e - 1);
      assert (p + s + q)[|p| + e - 1] == s[e - 1];
    }
  }

  /** `std::to_string` of a non-negative integer: its shortest decimal numeral. */
  function NatToString(n: nat): (s: string)
    ensures 0 < |s| && AllDigits(s)
    ensures |s| > 1 ==> s[0] != '0'
  {
    if n < 10 then [DigitChar(n)] else NatToString(n / 10) + [DigitChar(n % 10)]
  }

  /** `std::to_string` of an integer: a minus sign, then the numeral of the magnitude. */
  function IntToString(x: int): (t: string)
    ensures 0 < |t| && (t[0] == '-' <==> x < 0)
  {
    if x < 0 then "-" + NatToString(-x) else NatToString(x)
  }

  lemma {:induction false} NatToStringValue(n: nat)
    ensures DigitsValue(NatToString(n)) == n
  {
    var s := NatToString(n);
    if n >= 10 {
      var p := NatToString(n / 10);
      NatToStringValue(n / 10);
      RangeValueShift([], p, [DigitChar(n % 10)], |p|);
      assert s == [] + p + [DigitChar(n % 10)];
      assert RangeValue(s, 0, |s|) == RangeValue(s, 0, |p|) * 10 + DigitValue(s[|p|]);
    } else {
      assert RangeValue(s, 0, 1) == RangeValue(s, 0, 0) * 10 + DigitValue(s[0]);
    }
  }

  // ---------------------------------------------------------------------------
  // std::stoll, std::stoi, std::stoull (base 10)

  /** The white space `strtoll` skips. */
  predicate IsSpace(c: char)
  {
    c == ' ' || c == '\t' || c == '\n' || c == '\r' || c as int == 11 || c as int == 12
  }

  /** How many white-space characters start at `s[i]`. */
  function SpaceRun(s: string, i: nat): (k: nat)
    requires i <= |s|
    ensures i + k <= |s|
    ensures i + k < |s| ==> !IsSpace(s[i + k])
    decreases |s| - i
  {
    if i == |s| || !IsSpace(s[i]) then 0 else 1 + SpaceRun(s, i + 1)
  }

  /** How many digits start at `s[j]`. */
  function DigitRun(s: string, j: nat): (k: nat)
    requires j <= |s|
    ensures j + k <= |s|
    ensures j + k < |s| ==> !IsDigit(s[j + k])
    decreases |s| - j
  {
    if j == |s| || !IsDigit(s[j]) then 0 else 1 + DigitRun(s, j + 1)
  }

  /** What `strtoll`/`strtoull` scan: white space, an optional sign, the longest run of digits. */
  datatype Numeral = Numeral(negative: bool, magnitude: nat)

  /** `None` when no digit follows the white space and sign (`std::invalid_argument`). */
  function ScanNumeral(s: string): Option<Numeral>
  {
    var i := SpaceRun(s, 0);
    var signed := i < |s| && (s[i] == '+' || s[i] == '-');
    var j := if signed then i + 1 else i;
    var k := DigitRun(s, j);
    if k == 0 then None else Some(Numeral(signed && s[i] == '-', RangeValue(s, j, j + k)))
  }

  /** A signed conversion that fails outside [-bound, bound): `std::stoll` and `std::stoi`. */
  function SignedConversion(s: string, bound: int): Option<int>
  {
    match ScanNumeral(s)
    case None => None
    case Some(n) =>
      var m: int := n.magnitude;
      var v := if n.negative then -m else m;
      if -bound <= v < bound then Some(v) else None
  }

  /** `std::stoll`: an `int64_t`, or nothing when no digits are found or the value is out of range. */
  function Stoll(s: string): (r: Option<int>)
    ensures ScanNumeral(s).None? ==> r.None?
    ensures r.Some? ==> IsInt64(r.value)
  {
    SignedConversion(s, TWO63)
  }

  /** `std::stoi`: the same, for an `int`. */
  function Stoi(s: string): (r: Option<int>)
    ensures ScanNumeral(s).None? ==> r.None?
    ensures r.Some? ==> IsInt32(r.value)
  {
    SignedConversion(s, TWO31)
  }

  /** `std::stoull`: a magnitude above 2^64-1 is out of range; a minus sign negates modulo 2^64. */
  function Stoull(s: string): (r: Option<nat>)
    ensures ScanNumeral(s).None? ==> r.None?
    ensures r.Some? ==> r.value < TWO64
    ensures r.Some? && !ScanNumeral(s).value.negative ==> r.value == ScanNumeral(s).value.magnitude
  {
    match ScanNumeral(s)
    case None => None
    case Some(n) =>
      if n.magnitude >= TWO64 then None
      else if n.negative && n.magnitude > 0 then Some(TWO64 - n.magnitude)
      else Some(n.magnitude)
  }

  lemma {:induction false} DigitRunOfDigits(s: string, j: nat)
    requires j <= |s| && forall m | j <= m < |s| :: IsDigit(s[m])
    ensures DigitRun(s, j) == |s| - j
    decreases |s| - j
  {
    if j < |s| {
      DigitRunOfDigits(s, j + 1);
    }
  }

  lemma ScanNatToString(n: nat)
    ensures ScanNumeral(NatToString(n)) == Some(Numeral(false, n))
  {
    var s := NatToString(n);
    DigitRunOfDigits(s, 0);
    NatToStringValue(n);
    assert !IsSpace(s[0]) && s[0] != '+' && s[0] != '-';
  }

  /** A minus sign and a numeral scan as that magnitude, negated. */
  lemma ScanNegative(m: nat)
    ensures ScanNumeral("-" + NatToString(m)) == Some(Numeral(true, m))
  {
    var d := NatToString(m);
    var s := "-" + d;
    assert s == "-" + d + [];
    DigitRunOfDigits(s, 1);
    NatToStringValue(m);
    RangeValueShift("-", d, [], |d|);
  }

  /** `std::stoll` reads back every int64 that `std::to_string` writes. */
  lemma StollOfIntToString(x: int)
    requires IsInt64(x)
    ensures Stoll(IntToString(x)) == Some(x)
  {
    if x < 0 {
      ScanNegative(-x);
    } else {
      ScanNatToString(x);
    }
  }

  /** `std::stoull` reads back every unsigned 64-bit count `std::to_string` writes. */
  lemma StoullOfNatToString(n: nat)
    requires n < TWO64
    ensures Stoull(NatToString(n)) == Some(n)
  {
    ScanNatToString(n);
  }

  /** Where `std::stoll` finds a non-negative value, `std::stoull` finds the same one. */
  lemma StoullOfStoll(s: string, v: int)
    requires Stoll(s) == Some(v) && v >= 0
    ensures Stoull(s) == Some(v)
  {
  }

  // ---------------------------------------------------------------------------
  // std::getline fields

  function IndexOf(s: string, d: char): (i: nat)
    ensures i <= |s|
    ensures i < |s| ==> s[i] == d
    ensures forall j | 0 <= j < i :: s[j] != d
  {
    if s == [] || s[0] == d then 0 else 1 + IndexOf(s[1..], d)
  }

  /** The pieces between the delimiters (k delimiters give k + 1 pieces). */
  function Split(s: string, d: char): (parts: seq<string>)
    ensures |parts| > 0
    decreases |s|
  {
    var i := IndexOf(s, d);
    if i == |s| then [s] else [s[..i]] + Split(s[i + 1..], d)
  }

  function Join(parts: seq<string>, d: char): string
    requires |parts| > 0
  {
    if |parts| == 1 then parts[0] else parts[0] + [d] + Join(parts[1..], d)
  }

  /** The fields a loop `while (std::getline(stream, field, d))` produces: no trailing empty field. */
  function GetlineFields(s: string, d: char): (fs: seq<string>)
    ensures forall f | f in fs :: d !in f
    ensures fs == [] <==> s == ""
  {
    SplitJoin(s, d);
    var parts := Split(s, d);
    if parts[|parts| - 1] == "" then parts[..|parts| - 1] else parts
  }

  /** Splitting loses nothing: joining the pieces again gives back the text, and no piece holds the delimiter. */
  lemma {:induction false} SplitJoin(s: string, d: char)
    ensures Join(Split(s, d), d) == s
    ensures forall p | p in Split(s, d) :: d !in p
    decreases |s|
  {
    var i := IndexOf(s, d);
    if i < |s| {
      SplitJoin(s[i + 1..], d);
      assert s == s[..i] + [d] + s[i + 1..];
      assert d !in s[..i] by {
        forall j | 0 <= j < i ensures s[..i][j] != d { }
      }
    } else {
      assert d !in s by {
        forall j | 0 <= j < |s| ensures s[j] != d { }
      }
    }
  }

  /** Concatenation regrouped (a hint for the steps where the solver does not regroup on its own). */
  lemma Associative<T>(a: seq<T>, b: seq<T>, c: seq<T>)
    ensures a + b + c == a + (b + c)
  {
  }

  /** The first delimiter after a piece free of it is found right after that piece. */
  lemma IndexAfter(a: string, d: char, b: string)
    requires d !in a
    ensures IndexOf(a + [d] + b, d) == |a|
    ensures (a + [d] + b)[..|a|] == a && (a + [d] + b)[|a| + 1..] == b
  {
    var s := a + [d] + b;
    assert s[|a|] == d;
    assert forall j | 0 <= j < |a| :: s[j] == a[j];
  }

  /** A piece free of the delimiter followed by the delimiter splits off as one field. */
  lemma SplitCons(a: string, d: char, b: string)
    requires d !in a
    ensures Split(a + [d] + b, d) == [a] + Split(b, d)
  {
    IndexAfter(a, d, b);
  }

  lemma SplitWithout(a: string, d: char)
    requires d !in a
    ensures Split(a, d) == [a]
  {
    assert IndexOf(a, d) == |a|;
  }

  /** A last piece free of the delimiter, after a delimiter, is split off as the last field. */
  lemma {:induction false} SplitSnoc(a: string, d: char, b: string)
    requires d !in b
    ensures Split(a + [d] + b, d) == Split(a, d) + [b]
    decreases |a|
  {
    var i := IndexOf(a, d);
    if i == |a| {
      assert d !in a;
      SplitCons(a, d, b);
      SplitWithout(b, d);
      SplitWithout(a, d);
    } else {
      var a1, a2 := a[..i], a[i + 1..];
      assert a == a1 + [d] + a2;
      assert d !in a1;
      SplitSnoc(a2, d, b);
      SplitSnocStep(a1, a2, d, b);
    }
  }

  /** The inductive step of SplitSnoc: a leading field free of the delimiter splits off on both sides. */
  lemma SplitSnocStep(a1: string, a2: string, d: char, b: string)
    requires d !in a1
    requires Split(a2 + [d] + b, d) == Split(a2, d) + [b]
    ensures Split(a1 + [d] + a2 + [d] + b, d) == Split(a1 + [d] + a2, d) + [b]
  {
    var x, y := a2 + [d] + b, a1 + [d] + a2;
    SplitCons(a1, d, x);
    SplitCons(a1, d, a2);
    Associative(y, [d], b);
    Associative(a1 + [d], a2, [d] + b);
    Associative(a2, [d], b);
    Associative([a1], Split(a2, d), [b]);
  }

  /** Pieces free of the delimiter, joined, split back into the same pieces. */
  lemma {:induction false} SplitOfJoin(parts: seq<string>, d: char)
    requires |parts| > 0 && forall i | 0 <= i < |parts| :: d !in parts[i]
    ensures Split(Join(parts, d), d) == parts
    decreases |parts|
  {
    if |parts| == 1 {
      SplitWithout(parts[0], d);
    } else {
      SplitOfJoin(parts[1..], d);
      SplitCons(parts[0], d, Join(parts[1..], d));
      assert parts == [parts[0]] + parts[1..];
    }
  }

  // ---------------------------------------------------------------------------
  // Little-endian integers

  function Unsigned(b: seq<Byte>): nat
  {
    if b == [] then 0 else b[0] as nat + 256 * Unsigned(b[1..])
  }

  function Pow256(k: nat): (p: nat)
    ensures p > 0
  {
    if k == 0 then 1 else 256 * Pow256(k - 1)
  }

  lemma Pow256Of8()
    ensures Pow256(8) == TWO64
  {
  }

  lemma {:induction false} UnsignedBound(b: seq<Byte>)
    ensures Unsigned(b) < Pow256(|b|)
  {
    if b != [] {
      UnsignedBound(b[1..]);
    }
  }

  /** The k-byte little-endian image of n (taken modulo 256^k). */
  function LittleEndian(n: nat, k: nat): (b: seq<Byte>)
    ensures |b| == k
  {
    if k == 0 then [] else [(n % 256) as char] + LittleEndian(n / 256, k - 1)
  }

  lemma {:induction false} UnsignedOfLittleEndian(n: nat, k: nat)
    requires n < Pow256(k)
    ensures Unsigned(LittleEndian(n, k)) == n
  {
    if k > 0 {
      UnsignedOfLittleEndian(n / 256, k - 1);
      assert LittleEndian(n, k)[1..] == LittleEndian(n / 256, k - 1);
    }
  }

  lemma {:induction false} LittleEndianOfUnsigned(b: seq<Byte>)
    ensures LittleEndian(Unsigned(b), |b|) == b
  {
    if b != [] {
      LittleEndianOfUnsigned(b[1..]);
      var n := Unsigned(b);
      DivMod256(b[0] as nat, Unsigned(b[1..]));
      assert LittleEndian(n, |b|) == [(n % 256) as char] + LittleEndian(n / 256, |b| - 1);
      assert [b[0]] + b[1..] == b;
    }
  }

  lemma DivMod256(a: nat, q: nat)
    requires a < 256
    ensures (a + 256 * q) % 256 == a && (a + 256 * q) / 256 == q
  {
  }

  lemma SliceOfSuffix<T>(s: seq<T>, d: nat, a: nat, b: nat)
    requires d <= |s| && a <= b <= |s| - d
    ensures s[d..][a..b] == s[d + a..d + b]
  {
  }

  /** The int64 stored in 8 bytes (two's complement, little-endian). */
  function Int64Of(b: seq<Byte>): (x: int)
    requires |b| == 8
    ensures IsInt64(x)
  {
    UnsignedBound(b);
    Pow256Of8();
    var u := Unsigned(b);
    if u < TWO63 then u else u - TWO64
  }

  /** The 8 bytes that store the int64 x. */
  function Int64Bytes(x: int): (b: seq<Byte>)
    requires IsInt64(x)
    ensures |b| == 8
  {
    LittleEndian(if x < 0 then x + TWO64 else x, 8)
  }

  /** An int64 and its 8-byte image determine each other. */
  lemma Int64RoundTrip(x: int)
    requires IsInt64(x)
    ensures Int64Of(Int64Bytes(x)) == x
  {
    Pow256Of8();
    UnsignedOfLittleEndian(if x < 0 then x + TWO64 else x, 8);
  }

  lemma Int64BytesOf(b: seq<Byte>)
    requires |b| == 8
    ensures Int64Bytes(Int64Of(b)) == b
  {
    UnsignedBound(b);
    Pow256Of8();
    LittleEndianOfUnsigned(b);
  }
}
